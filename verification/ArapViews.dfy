/** The two views of a party's account - the statement's running balance and the open balances behind the
    aging totals - are computed apart and must agree. */
module ArapViews {
  import opened Arap
  import opened ArapTheorems
  import Allocation

  predicate Counts(d: Doc, side: Side, party: nat) { d.confirmed && d.side == side && d.party == party }

  /** What is open on this side of the party's account. */
  function OpenBalance(docs: seq<Doc>, side: Side, party: nat): int {
    if docs == [] then 0
    else OpenBalance(docs[..|docs|-1], side, party) + if Counts(docs[|docs|-1], side, party) then docs[|docs|-1].balance else 0
  }

  function Billed(docs: seq<Doc>, side: Side, party: nat): int {
    if docs == [] then 0
    else Billed(docs[..|docs|-1], side, party) + if Counts(docs[|docs|-1], side, party) then docs[|docs|-1].total else 0
  }

  function Settled(pays: seq<Payment>, side: Side, party: nat): int {
    if pays == [] then 0
    else
      var p := pays[|pays|-1];
      Settled(pays[..|pays|-1], side, party) + if p.confirmed && p.side == side && p.party == party then p.amount else 0
  }

  /** What these lines send to the side's documents among the first `k`. */
  function SentInto(docs: seq<Doc>, lines: seq<Allocation.Line>, side: Side, party: nat): int {
    if docs == [] then 0
    else
      var n := |docs| - 1;
      SentInto(docs[..n], lines, side, party) + if Counts(docs[n], side, party) then Sent(lines, n) else 0
  }

  function AppliedInto(docs: seq<Doc>, pays: seq<Payment>, side: Side, party: nat): int {
    if docs == [] then 0
    else
      var n := |docs| - 1;
      AppliedInto(docs[..n], pays, side, party) + if Counts(docs[n], side, party) then Applied(pays, n) else 0
  }

  lemma {:induction false} SentIntoSnoc(docs: seq<Doc>, lines: seq<Allocation.Line>, l: Allocation.Line, side: Side, party: nat)
    ensures SentInto(docs, lines + [l], side, party) ==
      SentInto(docs, lines, side, party) + if l.target < |docs| && Counts(docs[l.target], side, party) then l.amount else 0
    decreases |docs|
  {
    if docs != [] {
      SentIntoSnoc(docs[..|docs|-1], lines, l, side, party);
      assert (lines + [l])[..|lines|] == lines;
    }
  }

  lemma {:induction false} NothingSent(docs: seq<Doc>, side: Side, party: nat)
    ensures SentInto(docs, [], side, party) == 0 && AppliedInto(docs, [], side, party) == 0
  {
    if docs != [] { NothingSent(docs[..|docs|-1], side, party); }
  }

  /** All of a payment goes to its own side and party, and nothing of it elsewhere. */
  lemma {:induction false} PaymentLands(docs: seq<Doc>, p: Payment, lines: seq<Allocation.Line>, side: Side, party: nat)
    requires forall l :: l in lines ==> LineOk(docs, p, l)
    ensures SentInto(docs, lines, side, party) == if p.side == side && p.party == party then Allocation.Total(lines) else 0
    decreases |lines|
  {
    if lines == [] { NothingSent(docs, side, party); }
    else {
      var n := |lines| - 1;
      PaymentLands(docs, p, lines[..n], side, party);
      SentIntoSnoc(docs, lines[..n], lines[n], side, party);
      assert lines == lines[..n] + [lines[n]];
      assert LineOk(docs, p, lines[n]);
    }
  }

  lemma {:induction false} AppliedIntoSnoc(docs: seq<Doc>, pays: seq<Payment>, p: Payment, side: Side, party: nat)
    ensures AppliedInto(docs, pays + [p], side, party) ==
      AppliedInto(docs, pays, side, party) + if p.confirmed then SentInto(docs, p.lines, side, party) else 0
    decreases |docs|
  {
    if docs != [] {
      AppliedIntoSnoc(docs[..|docs|-1], pays, p, side, party);
      assert (pays + [p])[..|pays|] == pays;
    }
  }

  lemma {:induction false} AppliedIsSettled(docs: seq<Doc>, pays: seq<Payment>, side: Side, party: nat)
    requires forall p :: 0 <= p < |pays| ==> WellPlanned(docs, pays[p])
    ensures AppliedInto(docs, pays, side, party) == Settled(pays, side, party)
  {
    if pays == [] { NothingSent(docs, side, party); }
    else {
      var n := |pays| - 1;
      AppliedIsSettled(docs, pays[..n], side, party);
      AppliedIntoSnoc(docs, pays[..n], pays[n], side, party);
      assert pays == pays[..n] + [pays[n]];
      PaymentLands(docs, pays[n], pays[n].lines, side, party);
    }
  }

  lemma {:induction false} OpenIsRest(docs: seq<Doc>, pays: seq<Payment>, side: Side, party: nat)
    requires forall d :: 0 <= d < |docs| ==> docs[d].balance == docs[d].total - Applied(pays, d)
    ensures OpenBalance(docs, side, party) == Billed(docs, side, party) - AppliedInto(docs, pays, side, party)
  {
    if docs != [] { OpenIsRest(docs[..|docs|-1], pays, side, party); }
  }

  /** What is open is what was billed less what was settled. */
  lemma OpenIsBilledLessSettled(b: Books, side: Side, party: nat)
    requires BooksOk(b)
    ensures OpenBalance(b.docs, side, party) == Billed(b.docs, side, party) - Settled(b.pays, side, party)
  {
    forall d | 0 <= d < |b.docs| ensures b.docs[d].balance == b.docs[d].total - Applied(b.pays, d) { assert Conserved(b, d); }
    OpenIsRest(b.docs, b.pays, side, party);
    AppliedIsSettled(b.docs, b.pays, side, party);
  }

  // ---------------------------------------------------------------- the statement

  datatype Entry = Entry(date: int, debit: int, credit: int)

  datatype Shown = Shown(entry: Entry, running: int)

  function Net(es: seq<Entry>): int {
    if es == [] then 0 else Net(es[..|es|-1]) + es[|es|-1].debit - es[|es|-1].credit
  }

  predicate InRange(date: int, from: int, to: int) { from <= date <= to }

  /** Confirmed documents of one side dated in the range: an invoice is a debit, a bill a credit. */
  function DocEntries(docs: seq<Doc>, side: Side, party: nat, from: int, to: int): seq<Entry> {
    if docs == [] then []
    else
      var d := docs[|docs|-1];
      DocEntries(docs[..|docs|-1], side, party, from, to) +
        if Counts(d, side, party) && InRange(d.datedOn, from, to) then
          [if side.Receivable? then Entry(d.datedOn, d.total, 0) else Entry(d.datedOn, 0, d.total)]
        else []
  }

  /** Confirmed payments in the range: what we paid is a debit, what we received a credit. */
  function PayEntries(pays: seq<Payment>, party: nat, from: int, to: int): seq<Entry> {
    if pays == [] then []
    else
      var p := pays[|pays|-1];
      PayEntries(pays[..|pays|-1], party, from, to) +
        if p.confirmed && p.party == party && InRange(p.paidOn, from, to) then
          [if p.side.Payable? then Entry(p.paidOn, p.amount, 0) else Entry(p.paidOn, 0, p.amount)]
        else []
  }

  predicate ByDate(es: seq<Entry>) {
    forall i, j :: 0 <= i < j < |es| ==> es[i].date <= es[j].date
  }

  /** Puts an entry behind all that are not later. */
  function InsertByDate(e: Entry, es: seq<Entry>): (r: seq<Entry>)
    requires ByDate(es)
    ensures ByDate(r) && |r| == |es| + 1 && forall x :: x in r <==> x == e || x in es
  {
    if es == [] || es[|es|-1].date <= e.date then es + [e]
    else
      var r := InsertByDate(e, es[..|es|-1]);
      assert forall i :: 0 <= i < |r| ==> r[i] in r;
      r + [es[|es|-1]]
  }

  /** The stable sort by date. */
  function SortByDate(es: seq<Entry>): (r: seq<Entry>)
    ensures ByDate(r)
  {
    if es == [] then [] else InsertByDate(es[|es|-1], SortByDate(es[..|es|-1]))
  }

  lemma NetSnoc(es: seq<Entry>, e: Entry)
    ensures Net(es + [e]) == Net(es) + e.debit - e.credit
  {
    assert (es + [e])[..|es|] == es;
  }

  lemma {:induction false} InsertNet(e: Entry, es: seq<Entry>)
    requires ByDate(es)
    ensures Net(InsertByDate(e, es)) == Net(es) + e.debit - e.credit
    decreases |es|
  {
    if es == [] || es[|es|-1].date <= e.date { NetSnoc(es, e); }
    else {
      InsertNet(e, es[..|es|-1]);
      NetSnoc(InsertByDate(e, es[..|es|-1]), es[|es|-1]);
    }
  }

  lemma {:induction false} InsertPermutes(e: Entry, es: seq<Entry>)
    requires ByDate(es)
    ensures multiset(InsertByDate(e, es)) == multiset(es) + multiset{e}
    decreases |es|
  {
    if !(es == [] || es[|es|-1].date <= e.date) {
      hide Net;
      var before, last := es[..|es|-1], es[|es|-1];
      InsertPermutes(e, before);
      assert es == before + [last];
      assert multiset(es) == multiset(before) + multiset{last};
    }
  }

  /** Sorting changes no sum. */
  lemma {:induction false} SortNet(es: seq<Entry>)
    ensures Net(SortByDate(es)) == Net(es)
  {
    if es != [] {
      hide ByDate;
      SortNet(es[..|es|-1]);
      InsertNet(es[|es|-1], SortByDate(es[..|es|-1]));
    }
  }

  /** Sorting loses no line. */
  lemma {:induction false} SortPermutes(es: seq<Entry>)
    ensures multiset(SortByDate(es)) == multiset(es) && |SortByDate(es)| == |es|
  {
    if es != [] {
      hide ByDate;
      var before, last := es[..|es|-1], es[|es|-1];
      SortPermutes(before);
      InsertPermutes(last, SortByDate(before));
      assert es == before + [last];
      assert multiset(es) == multiset(before) + multiset{last};
    }
  }

  lemma {:induction false} NetBoth(a: seq<Entry>, b: seq<Entry>)
    ensures Net(a + b) == Net(a) + Net(b)
    decreases |b|
  {
    if b == [] { assert a + b == a; }
    else {
      assert (a + b)[..|a + b|-1] == a + b[..|b|-1];
      NetBoth(a, b[..|b|-1]);
    }
  }

  /** Every confirmed date of the books lies in the range. */
  predicate Covers(b: Books, from: int, to: int) {
    (forall d :: 0 <= d < |b.docs| ==> InRange(b.docs[d].datedOn, from, to)) &&
    (forall p :: 0 <= p < |b.pays| ==> InRange(b.pays[p].paidOn, from, to))
  }

  lemma {:induction false} DocsNet(docs: seq<Doc>, side: Side, party: nat, from: int, to: int)
    requires forall d :: 0 <= d < |docs| ==> InRange(docs[d].datedOn, from, to)
    ensures Net(DocEntries(docs, side, party, from, to)) == if side.Receivable? then Billed(docs, side, party) else -Billed(docs, side, party)
  {
    if docs != [] {
      var before, d := docs[..|docs|-1], docs[|docs|-1];
      DocsNet(before, side, party, from, to);
      if Counts(d, side, party) {
        var e := if side.Receivable? then Entry(d.datedOn, d.total, 0) else Entry(d.datedOn, 0, d.total);
        NetSnoc(DocEntries(before, side, party, from, to), e);
        assert DocEntries(docs, side, party, from, to) == DocEntries(before, side, party, from, to) + [e];
      } else {
        assert DocEntries(docs, side, party, from, to) == DocEntries(before, side, party, from, to);
      }
    }
  }

  lemma {:induction false} PaysNet(pays: seq<Payment>, party: nat, from: int, to: int)
    requires forall p :: 0 <= p < |pays| ==> InRange(pays[p].paidOn, from, to)
    ensures Net(PayEntries(pays, party, from, to)) == Settled(pays, Payable, party) - Settled(pays, Receivable, party)
  {
    if pays != [] {
      var before, p := pays[..|pays|-1], pays[|pays|-1];
      PaysNet(before, party, from, to);
      if p.confirmed && p.party == party {
        var e := if p.side.Payable? then Entry(p.paidOn, p.amount, 0) else Entry(p.paidOn, 0, p.amount);
        NetSnoc(PayEntries(before, party, from, to), e);
        assert PayEntries(pays, party, from, to) == PayEntries(before, party, from, to) + [e];
      } else {
        assert PayEntries(pays, party, from, to) == PayEntries(before, party, from, to);
      }
    }
  }

  /** Everything a statement lists, before sorting. */
  function Listed(b: Books, party: nat, from: int, to: int): seq<Entry> {
    DocEntries(b.docs, Receivable, party, from, to) + DocEntries(b.docs, Payable, party, from, to) + PayEntries(b.pays, party, from, to)
  }

  /** Over the whole time the listed entries come to the open receivables less the open payables. */
  lemma ListedNet(b: Books, party: nat, from: int, to: int)
    requires BooksOk(b) && Covers(b, from, to)
    ensures Net(Listed(b, party, from, to)) == OpenBalance(b.docs, Receivable, party) - OpenBalance(b.docs, Payable, party)
  {
    var r, p := DocEntries(b.docs, Receivable, party, from, to), DocEntries(b.docs, Payable, party, from, to);
    NetBoth(r + p, PayEntries(b.pays, party, from, to));
    NetBoth(r, p);
    DocsNet(b.docs, Receivable, party, from, to);
    DocsNet(b.docs, Payable, party, from, to);
    PaysNet(b.pays, party, from, to);
    OpenIsBilledLessSettled(b, Receivable, party);
    OpenIsBilledLessSettled(b, Payable, party);
  }

  /** `get_statement`: the sorted lines with their running balance, and the closing one. */
  method Statement(b: Books, party: nat, from: int, to: int) returns (lines: seq<Shown>, closing: int)
    ensures |lines| == |SortByDate(Listed(b, party, from, to))| == |Listed(b, party, from, to)|
    ensures forall i :: 0 <= i < |lines| ==>
      lines[i].entry == SortByDate(Listed(b, party, from, to))[i] && lines[i].running == Net(SortByDate(Listed(b, party, from, to))[..i+1])
    ensures closing == Net(Listed(b, party, from, to))
    ensures BooksOk(b) && Covers(b, from, to) ==>
      closing == OpenBalance(b.docs, Receivable, party) - OpenBalance(b.docs, Payable, party)
  {
    hide BooksOk, Covers, Listed, SortByDate, OpenBalance;
    var sorted := SortByDate(Listed(b, party, from, to));
    SortNet(Listed(b, party, from, to));
    SortPermutes(Listed(b, party, from, to));
    var running := 0;
    lines := [];
    for i := 0 to |sorted|
      invariant |lines| == i && running == Net(sorted[..i])
      invariant forall j :: 0 <= j < i ==> lines[j].entry == sorted[j] && lines[j].running == Net(sorted[..j+1])
    {
      assert sorted[..i+1][..i] == sorted[..i];
      running := running + sorted[i].debit - sorted[i].credit;
      lines := lines + [Shown(sorted[i], running)];
    }
    assert sorted[..|sorted|] == sorted;
    closing := running;
    if BooksOk(b) && Covers(b, from, to) { ListedNet(b, party, from, to); }
  }

  /** In every reachable ledger the statement's closing balance over all time is what is open. */
  lemma StatementAgrees(steps: seq<Step>, ys: seq<Sys>, b: Books, party: nat, from: int, to: int)
    requires IsHistory(steps, ys) && Disjoint(steps, ys) && b == ys[|steps|].books && Covers(b, from, to)
    ensures Net(SortByDate(Listed(b, party, from, to))) == OpenBalance(b.docs, Receivable, party) - OpenBalance(b.docs, Payable, party)
  {
    hide IsHistory, Disjoint;
    DisjointBooks(steps, ys, b);
    ListedNet(b, party, from, to);
    SortNet(Listed(b, party, from, to));
  }
}
