/** Gap-free numbers per fiscal year (packages/mcp-ledger/src/accounting-tools.ts): a sequence row is bumped in the
    transaction that uses the number, and stays locked until that transaction ends. */
module Numbering {
  import opened OptionType
  import opened Strings

  /** A series is a business and a fiscal year; `number` is what the transaction allocated. */
  datatype Txn = Txn(series: nat, open: bool, number: Option<nat>)

  /** `last` is the committed `last_number` of each series that has a row; `issued` the committed numbers, in order. */
  datatype Sys = Sys(last: map<nat, nat>, issued: seq<(nat, nat)>, txns: seq<Txn>)

  /** `Refuse` is a note turned down before it is numbered. */
  datatype Step = Begin(series: nat) | Allocate(t: nat) | Refuse(t: nat) | Commit(t: nat) | Rollback(t: nat)

  function LastOf(y: Sys, series: nat): nat { if series in y.last then y.last[series] else 0 }

  /** Another open transaction has bumped this row: the UPDATE waits for it. */
  predicate RowLocked(y: Sys, t: nat)
    requires t < |y.txns|
  {
    exists u :: 0 <= u < |y.txns| && u != t && y.txns[u].open && y.txns[u].series == y.txns[t].series && y.txns[u].number.Some?
  }

  function Apply(y: Sys, m: Step): Sys {
    match m
    case Begin(series) => y.(txns := y.txns + [Txn(series, true, None)])
    case Allocate(t) =>
      if t < |y.txns| && y.txns[t].open && y.txns[t].number.None? && !RowLocked(y, t)
      then y.(txns := y.txns[t := y.txns[t].(number := Some(LastOf(y, y.txns[t].series) + 1))]) else y
    case Refuse(t) =>
      if t < |y.txns| && y.txns[t].open && y.txns[t].number.None? then y.(txns := y.txns[t := y.txns[t].(open := false)]) else y
    case Commit(t) =>
      if t < |y.txns| && y.txns[t].open && y.txns[t].number.Some? then
        var txn := y.txns[t];
        Sys(y.last[txn.series := txn.number.value], y.issued + [(txn.series, txn.number.value)], y.txns[t := txn.(open := false)])
      else y
    case Rollback(t) => if t < |y.txns| then y.(txns := y.txns[t := y.txns[t].(open := false)]) else y
  }

  ghost predicate IsHistory(steps: seq<Step>, ys: seq<Sys>) {
    |ys| == |steps| + 1 && ys[0] == Sys(map[], [], []) && forall i :: 0 <= i < |steps| ==> ys[i+1] == Apply(ys[i], steps[i])
  }

  /** The committed numbers of one series, in the order they were committed. */
  function NumbersOf(issued: seq<(nat, nat)>, series: nat): seq<nat> {
    if issued == [] then []
    else NumbersOf(issued[..|issued|-1], series) + if issued[|issued|-1].0 == series then [issued[|issued|-1].1] else []
  }

  function UpTo(n: nat): (s: seq<nat>)
    ensures |s| == n
  {
    seq(n, i requires 0 <= i < n => i + 1)
  }

  predicate Pending(y: Sys, t: nat)
    requires t < |y.txns|
  {
    y.txns[t].open && y.txns[t].number.Some?
  }

  ghost predicate Inv(y: Sys) {
    && (forall series :: NumbersOf(y.issued, series) == UpTo(LastOf(y, series)))
    && (forall t :: 0 <= t < |y.txns| && Pending(y, t) ==> y.txns[t].number == Some(LastOf(y, y.txns[t].series) + 1))
    && (forall t, u :: 0 <= t < u < |y.txns| && Pending(y, t) && Pending(y, u) ==> y.txns[t].series != y.txns[u].series)
  }

  lemma NumbersNext(issued: seq<(nat, nat)>, series: nat, n: nat, other: nat)
    ensures NumbersOf(issued + [(series, n)], other) == NumbersOf(issued, other) + if other == series then [n] else []
  {
    assert (issued + [(series, n)])[..|issued|] == issued;
  }

  lemma UpToNext(n: nat)
    ensures UpTo(n + 1) == UpTo(n) + [n + 1]
  {
  }

  lemma CommitKeeps(y: Sys, t: nat)
    requires Inv(y) && t < |y.txns| && Pending(y, t)
    ensures Inv(Apply(y, Commit(t)))
  {
    hide NumbersOf, UpTo;
    var y', txn := Apply(y, Commit(t)), y.txns[t];
    forall series ensures NumbersOf(y'.issued, series) == UpTo(LastOf(y', series)) {
      assert NumbersOf(y.issued, series) == UpTo(LastOf(y, series));
      NumbersNext(y.issued, txn.series, txn.number.value, series);
      UpToNext(LastOf(y, series));
      if series != txn.series { assert NumbersOf(y.issued, series) + [] == NumbersOf(y.issued, series); }
    }
    forall u | 0 <= u < |y'.txns| && Pending(y', u) ensures y'.txns[u].number == Some(LastOf(y', y'.txns[u].series) + 1) {
      assert Pending(y, u) && u != t;
    }
  }

  lemma {:induction false} HistoryKeeps(steps: seq<Step>, ys: seq<Sys>, k: nat)
    requires IsHistory(steps, ys) && k <= |steps|
    ensures Inv(ys[k])
  {
    if k > 0 {
      HistoryKeeps(steps, ys, k - 1);
      var y := ys[k-1];
      match steps[k-1]
      case Commit(t) => if t < |y.txns| && Pending(y, t) { CommitKeeps(y, t); }
      case Allocate(t) => if t < |y.txns| { AllocateKeeps(y, t); }
      case _ => LeaveKeeps(y, steps[k-1]);
    } else {
      forall series ensures NumbersOf(ys[0].issued, series) == UpTo(LastOf(ys[0], series)) {}
    }
  }

  lemma AllocateKeeps(y: Sys, t: nat)
    requires Inv(y) && t < |y.txns|
    ensures Inv(Apply(y, Allocate(t)))
  {
    hide NumbersOf, UpTo;
    var y' := Apply(y, Allocate(t));
    forall series ensures NumbersOf(y'.issued, series) == UpTo(LastOf(y', series)) {
      assert NumbersOf(y.issued, series) == UpTo(LastOf(y, series));
    }
    forall u | 0 <= u < |y.txns| && u != t && Pending(y', u) ensures Pending(y, u) {}
  }

  lemma LeaveKeeps(y: Sys, m: Step)
    requires Inv(y) && !m.Commit? && !m.Allocate?
    ensures Inv(Apply(y, m))
  {
    hide NumbersOf, UpTo;
    var y' := Apply(y, m);
    forall series ensures NumbersOf(y'.issued, series) == UpTo(LastOf(y', series)) {
      assert NumbersOf(y.issued, series) == UpTo(LastOf(y, series));
    }
    forall u | 0 <= u < |y'.txns| && Pending(y', u) ensures u < |y.txns| && Pending(y, u) {}
  }

  /** However allocations, refusals and rollbacks interleave, the committed numbers of a series are 1, 2, .. up to its
      last number: none missing, none twice. */
  lemma GapFree(steps: seq<Step>, ys: seq<Sys>, y: Sys, series: nat)
    requires IsHistory(steps, ys) && y == ys[|steps|]
    ensures NumbersOf(y.issued, series) == UpTo(LastOf(y, series))
  {
    hide IsHistory;
    HistoryKeeps(steps, ys, |steps|);
  }

  // ---------------------------------------------------------------- one transaction, in place

  datatype Invoice = Invoice(confirmed: bool, taxable: int, vat: int, total: int)

  datatype NoteKind = Credit | Debit

  datatype Figures = Figures(kind: NoteKind, taxable: int, vat: int, total: int)

  datatype Note = Note(invoice: nat, year: nat, number: nat, fig: Figures)

  datatype Issue = Issued(number: string) | NoInvoice | NotConfirmed | NoFigures

  /** One business' series, one per fiscal year, and its notes. `compute` is the note arithmetic; it may refuse. */
  class Sequences {
    const compute: (NoteKind, int, int, Invoice) -> Option<Figures>
    var last: map<nat, nat>
    var invoices: map<nat, Invoice>
    var notes: seq<Note>

    function Last(year: nat): nat
      reads this
    {
      if year in last then last[year] else 0
    }

    /** No two notes of a year have one number, and none is beyond the year's last. */
    ghost predicate Valid()
      reads this
    {
      && (forall i :: 0 <= i < |notes| ==> 1 <= notes[i].number <= Last(notes[i].year))
      && (forall i, j :: 0 <= i < j < |notes| && notes[i].year == notes[j].year ==> notes[i].number != notes[j].number)
    }

    constructor (compute: (NoteKind, int, int, Invoice) -> Option<Figures>, invoices: map<nat, Invoice>)
      ensures Valid() && this.compute == compute && this.invoices == invoices && last == map[] && notes == []
    {
      this.compute, this.invoices, last, notes := compute, invoices, map[], [];
    }

    /** Creates the row on first use, then bumps it. */
    method AllocateNumber(year: nat) returns (n: nat)
      requires Valid()
      modifies this`last
      ensures Valid() && n == old(Last(year)) + 1 && last == old(last)[year := n]
    {
      if year !in last { last := last[year := 0]; }
      last := last[year := last[year] + 1];
      n := last[year];
    }

    /** A note adjusts a confirmed invoice by figures that compute; otherwise it is turned down and takes no number. */
    method IssueNote(year: nat, invoice: nat, kind: NoteKind, taxable: int, vat: int) returns (r: Issue)
      requires Valid()
      modifies this`last, this`notes
      ensures Valid()
      ensures r.NoInvoice? <==> invoice !in invoices
      ensures r.NotConfirmed? <==> invoice in invoices && !invoices[invoice].confirmed
      ensures r.NoFigures? <==> invoice in invoices && invoices[invoice].confirmed && compute(kind, taxable, vat, invoices[invoice]).None?
      ensures !r.Issued? ==> last == old(last) && notes == old(notes)
      ensures r.Issued? ==>
        && last == old(last)[year := old(Last(year)) + 1] && r.number == FormatNumber(year, old(Last(year)) + 1)
        && notes == old(notes) + [Note(invoice, year, old(Last(year)) + 1, compute(kind, taxable, vat, invoices[invoice]).value)]
    {
      if invoice !in invoices { return NoInvoice; }
      if !invoices[invoice].confirmed { return NotConfirmed; }
      var fig := compute(kind, taxable, vat, invoices[invoice]);
      if fig.None? { return NoFigures; }
      var n := AllocateNumber(year);
      notes := notes + [Note(invoice, year, n, fig.value)];
      return Issued(FormatNumber(year, n));
    }
  }

  // ---------------------------------------------------------------- formatted numbers

  /** "2082/83". */
  function YearLabel(year: nat): string { Digits(year) + "/" + Pad(Digits((year + 1) % 100), 2) }

  /** "2082/83-0007". */
  function FormatNumber(year: nat, n: nat): string { YearLabel(year) + "-" + Pad(Digits(n), 4) }

  /** Different years or numbers never print the same. */
  lemma FormatInjective(y1: nat, n1: nat, y2: nat, n2: nat)
    requires FormatNumber(y1, n1) == FormatNumber(y2, n2)
    ensures y1 == y2 && n1 == n2
  {
    hide Digits, Pad, Value;
    var a1, b1, c1 := Digits(y1), Pad(Digits((y1 + 1) % 100), 2), Pad(Digits(n1), 4);
    var a2, b2, c2 := Digits(y2), Pad(Digits((y2 + 1) % 100), 2), Pad(Digits(n2), 4);
    DigitsAreDigits(y1);
    DigitsAreDigits(y2);
    DigitsAreDigits((y1 + 1) % 100);
    DigitsAreDigits((y2 + 1) % 100);
    PadDigits(Digits((y1 + 1) % 100), 2);
    PadDigits(Digits((y2 + 1) % 100), 2);
    assert FormatNumber(y1, n1) == a1 + ['/'] + (b1 + "-" + c1);
    assert FormatNumber(y2, n2) == a2 + ['/'] + (b2 + "-" + c2);
    SplitAt('/', a1, b1 + "-" + c1, a2, b2 + "-" + c2);
    SplitAt('-', b1, c1, b2, c2);
    DigitsInjective(y1, y2);
    ValuePad(Digits(n1), 4);
    ValuePad(Digits(n2), 4);
    ValueDigits(n1);
    ValueDigits(n2);
  }
}
