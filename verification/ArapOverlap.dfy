/** What two overlapping confirmations of one payment do. */
module ArapOverlap {
  import opened OptionType
  import opened Arap
  import opened ArapTheorems
  import Allocation

  // ---------------------------------------------------------------- one confirmation, all in one

  function NewBalances(docs: seq<Doc>, lines: seq<Allocation.Line>): (wrote: seq<int>)
    requires forall l :: l in lines ==> l.target < |docs|
    ensures |wrote| == |lines|
  {
    seq(|lines|, i requires 0 <= i < |lines| => docs[lines[i].target].balance - lines[i].amount)
  }

  predicate LinesFit(docs: seq<Doc>, lines: seq<Allocation.Line>)
    requires forall l :: l in lines ==> l.target < |docs|
  {
    forall l :: l in lines ==> l.amount <= docs[l.target].balance
  }

  /** One confirmation that saw the payment as a draft: refused when a line no longer fits. */
  function ConfirmSeen(b: Books, p: nat): (b': Books)
    requires p < |b.pays| && forall l :: l in b.pays[p].lines ==> l.target < |b.docs|
    ensures |b'.docs| == |b.docs| && |b'.pays| == |b.pays| && b'.pays[p].lines == b.pays[p].lines
  {
    var lines := b.pays[p].lines;
    if LinesFit(b.docs, lines) then Books(Install(b.docs, lines, NewBalances(b.docs, lines)), AfterConfirm(b.pays, p)) else b
  }

  lemma ConfirmSeenKeeps(b: Books, p: nat)
    requires Kept(b) && p < |b.pays| && forall l :: l in b.pays[p].lines ==> l.target < |b.docs|
    ensures Kept(ConfirmSeen(b, p))
    ensures Once(b) && !b.pays[p].confirmed ==> Once(ConfirmSeen(b, p))
  {
    hide Tallied, WellPlanned, Install;
    if LinesFit(b.docs, b.pays[p].lines) {
      var lines := b.pays[p].lines;
      assert Written(b.docs, lines, NewBalances(b.docs, lines)) by { assert forall i :: 0 <= i < |lines| ==> lines[i] in lines; }
      CommitBooks(b, p, NewBalances(b.docs, lines));
    }
  }

  lemma InstalledLine(docs: seq<Doc>, lines: seq<Allocation.Line>, l: Allocation.Line)
    requires l in lines && forall x :: x in lines ==> x.target < |docs|
    requires forall j, k :: 0 <= j < k < |lines| ==> lines[j].target != lines[k].target
    ensures Install(docs, lines, NewBalances(docs, lines))[l.target].balance == docs[l.target].balance - l.amount
  {
    InstallAt(docs, lines, NewBalances(docs, lines), l.target);
    var i :| 0 <= i < |lines| && lines[i] == l;
  }

  // ---------------------------------------------------------------- the same, step by step

  /** Transaction `t` makes the same move `k` times. */
  function Again(y: Sys, t: nat, act: TxnAct, k: nat): Sys {
    if k == 0 then y else Apply(Again(y, t, act, k - 1), Go(t, act))
  }

  /** Transaction `t` runs to its end: locks, check, writes, commit. */
  function Through(y: Sys, t: nat, n: nat): Sys {
    Apply(Again(Apply(Again(y, t, LockNext, n), Go(t, Check)), t, WriteNext, n), Go(t, Commit))
  }

  /** It has begun and taken nothing yet, and nobody else holds what it needs. */
  predicate Starting(y: Sys, t: nat) {
    t < |y.txns| && InTables(y, y.txns[t].pay) && y.txns[t].phase == Locking([]) &&
    var lines := y.books.pays[y.txns[t].pay].lines;
    && (forall i, j :: 0 <= i < j < |lines| ==> lines[i].target != lines[j].target)
    && (forall l :: l in lines ==> y.locks[l.target].None?)
    && (forall d :: 0 <= d < |y.locks| ==> y.locks[d] != Some(t))
  }

  predicate TakenBefore(lines: seq<Allocation.Line>, k: nat, d: nat) {
    exists i :: 0 <= i < k && i < |lines| && lines[i].target == d
  }

  function Reads(docs: seq<Doc>, lines: seq<Allocation.Line>, k: nat): (read: seq<int>)
    requires k <= |lines| && forall l :: l in lines ==> l.target < |docs|
    ensures |read| == k
  {
    seq(k, i requires 0 <= i < k => docs[lines[i].target].balance)
  }

  lemma LockOne(y: Sys, t: nat, d: nat)
    requires t < |y.txns| && InTables(y, y.txns[t].pay) && y.txns[t].phase.Locking?
    requires
      var lines, read := y.books.pays[y.txns[t].pay].lines, y.txns[t].phase.read;
      |read| < |lines| && lines[|read|].target == d < |y.locks| && y.locks[d].None?
    ensures Apply(y, Go(t, LockNext)) ==
      y.(txns := y.txns[t := y.txns[t].(phase := Locking(y.txns[t].phase.read + [y.books.docs[d].balance]))], locks := y.locks[d := Some(t)])
  {
  }

  lemma CheckAll(y: Sys, t: nat)
    requires t < |y.txns| && InTables(y, y.txns[t].pay) && y.txns[t].phase.Locking?
    requires AllFit(y.books.pays[y.txns[t].pay].lines, y.txns[t].phase.read)
    ensures Apply(y, Go(t, Check)) == y.(txns := y.txns[t := y.txns[t].(phase := Writing([]))])
  {
  }

  lemma CheckFails(y: Sys, t: nat)
    requires t < |y.txns| && InTables(y, y.txns[t].pay) && y.txns[t].phase.Locking?
    requires |y.txns[t].phase.read| == |y.books.pays[y.txns[t].pay].lines| && !AllFit(y.books.pays[y.txns[t].pay].lines, y.txns[t].phase.read)
    ensures Apply(y, Go(t, Check)) == y.(txns := y.txns[t := y.txns[t].(phase := Ended(false))], locks := Release(y.locks, t))
  {
  }

  lemma WriteOne(y: Sys, t: nat, l: Allocation.Line)
    requires t < |y.txns| && InTables(y, y.txns[t].pay) && y.txns[t].phase.Writing?
    requires var lines := y.books.pays[y.txns[t].pay].lines; |y.txns[t].phase.wrote| < |lines| && lines[|y.txns[t].phase.wrote|] == l && l in lines
    ensures Apply(y, Go(t, WriteNext)) ==
      y.(txns := y.txns[t := y.txns[t].(phase := Writing(y.txns[t].phase.wrote + [y.books.docs[l.target].balance - l.amount]))])
  {
  }

  lemma LocksNext(before: seq<Option<nat>>, taken: seq<Option<nat>>, lines: seq<Allocation.Line>, k: nat, t: nat)
    requires |taken| == |before| && k < |lines| && lines[k].target < |before|
    requires forall d :: 0 <= d < |before| ==> taken[d] == if TakenBefore(lines, k, d) then Some(t) else before[d]
    ensures forall d :: 0 <= d < |before| ==> taken[lines[k].target := Some(t)][d] == if TakenBefore(lines, k + 1, d) then Some(t) else before[d]
  {
    assert forall d :: TakenBefore(lines, k + 1, d) <==> TakenBefore(lines, k, d) || d == lines[k].target;
  }

  lemma {:induction false} LocksTaken(y: Sys, t: nat, lines: seq<Allocation.Line>, k: nat)
    requires Starting(y, t) && lines == y.books.pays[y.txns[t].pay].lines && k <= |lines|
    ensures
      var y' := Again(y, t, LockNext, k);
      && y'.books == y.books && y'.txns == y.txns[t := y.txns[t].(phase := Locking(Reads(y.books.docs, lines, k)))]
      && |y'.locks| == |y.locks| && forall d :: 0 <= d < |y.locks| ==> y'.locks[d] == if TakenBefore(lines, k, d) then Some(t) else y.locks[d]
  {
    if k == 0 { assert Reads(y.books.docs, lines, 0) == []; }
    else {
      LocksTaken(y, t, lines, k - 1);
      var z, l := Again(y, t, LockNext, k - 1), lines[k - 1];
      assert l in lines && !TakenBefore(lines, k - 1, l.target);
      assert Reads(y.books.docs, lines, k) == Reads(y.books.docs, lines, k - 1) + [y.books.docs[l.target].balance];
      LocksNext(y.locks, z.locks, lines, k - 1, t);
      LockOne(z, t, l.target);
      hide Apply, TakenBefore, Reads;
    }
  }

  lemma {:induction false} WritesMade(y: Sys, t: nat, lines: seq<Allocation.Line>, k: nat)
    requires t < |y.txns| && InTables(y, y.txns[t].pay) && y.txns[t].phase == Writing([])
    requires lines == y.books.pays[y.txns[t].pay].lines && k <= |lines|
    ensures Again(y, t, WriteNext, k) == y.(txns := y.txns[t := y.txns[t].(phase := Writing(NewBalances(y.books.docs, lines)[..k]))])
  {
    hide Apply;
    var wrote := NewBalances(y.books.docs, lines);
    if k == 0 { assert wrote[..0] == [] && y.txns[t := y.txns[t]] == y.txns; }
    else {
      WritesMade(y, t, lines, k - 1);
      var z := Again(y, t, WriteNext, k - 1);
      assert wrote[..k] == wrote[..k-1] + [wrote[k-1]];
      WriteOne(z, t, lines[k-1]);
    }
  }

  lemma {:induction false} NothingMore(y: Sys, t: nat, k: nat)
    requires t < |y.txns| && y.txns[t].phase.Ended?
    ensures Again(y, t, WriteNext, k) == y && Apply(y, Go(t, Commit)) == y
  {
    if k > 0 { NothingMore(y, t, k - 1); }
  }

  /** Step by step it comes to the same: the books are confirmed or refused, the locks as before. */
  lemma ThroughConfirms(y: Sys, t: nat)
    requires Starting(y, t)
    ensures
      var p := y.txns[t].pay;
      var lines := y.books.pays[p].lines;
      Through(y, t, |lines|) ==
        y.(books := ConfirmSeen(y.books, p), txns := y.txns[t := Txn(p, Ended(LinesFit(y.books.docs, lines)))])
  {
    var p := y.txns[t].pay;
    var lines := y.books.pays[p].lines;
    var n := |lines|;
    hide TakenBefore, Apply, Release, AllFit;
    LocksTaken(y, t, lines, n);
    var z := Again(y, t, LockNext, n);
    FitsAsRead(y.books.docs, lines);
    Released(y.locks, z.locks, lines, t);
    var c := Apply(z, Go(t, Check));
    if LinesFit(y.books.docs, lines) {
      CheckAll(z, t);
      assert z.txns[t := Txn(p, Writing([]))] == y.txns[t := Txn(p, Writing([]))];
      WritesMade(c, t, lines, n);
      var wrote := NewBalances(y.books.docs, lines);
      assert wrote[..n] == wrote;
      CommitsAll(Again(c, t, WriteNext, n), t);
    } else {
      CheckFails(z, t);
      assert z.txns[t := Txn(p, Ended(false))] == y.txns[t := Txn(p, Ended(false))];
      NothingMore(c, t, n);
    }
  }

  lemma FitsAsRead(docs: seq<Doc>, lines: seq<Allocation.Line>)
    requires forall l :: l in lines ==> l.target < |docs|
    ensures AllFit(lines, Reads(docs, lines, |lines|)) <==> LinesFit(docs, lines)
  {
    if AllFit(lines, Reads(docs, lines, |lines|)) {
      forall l | l in lines ensures l.amount <= docs[l.target].balance { var i :| 0 <= i < |lines| && lines[i] == l; }
    }
  }

  lemma Released(before: seq<Option<nat>>, taken: seq<Option<nat>>, lines: seq<Allocation.Line>, t: nat)
    requires |taken| == |before| && forall d :: 0 <= d < |before| ==> taken[d] == if TakenBefore(lines, |lines|, d) then Some(t) else before[d]
    requires forall l :: l in lines ==> l.target < |before| && before[l.target].None?
    requires forall d :: 0 <= d < |before| ==> before[d] != Some(t)
    ensures Release(taken, t) == before
  {
    forall d | 0 <= d < |before| ensures Release(taken, t)[d] == before[d] {
      if TakenBefore(lines, |lines|, d) { var i :| 0 <= i < |lines| && lines[i].target == d; assert lines[i] in lines; }
    }
  }

  lemma CommitsAll(y: Sys, t: nat)
    requires t < |y.txns| && InTables(y, y.txns[t].pay) && y.txns[t].phase.Writing?
    requires |y.txns[t].phase.wrote| == |y.books.pays[y.txns[t].pay].lines|
    ensures
      var p := y.txns[t].pay;
      Apply(y, Go(t, Commit)) == Sys(Books(Install(y.books.docs, y.books.pays[p].lines, y.txns[t].phase.wrote), AfterConfirm(y.books.pays, p)),
                                     y.txns[t := Txn(p, Ended(true))], Release(y.locks, t))
  {
  }

  // ---------------------------------------------------------------- one after the other, both having seen the draft

  /** Two confirmations of one payment have both read it as a draft; they run to their ends, the second waiting for the
      first one's row locks. Balances stay conserved exactly if some line does not fit twice, so that it is refused. */
  lemma OverlapBreaks(y: Sys, t: nat, u: nat, p: nat, n: nat)
    requires Inv(y) && Once(y.books) && t != u && Starting(y, t) && Starting(y, u) && y.txns[t].pay == y.txns[u].pay == p
    requires !y.books.pays[p].confirmed && n == |y.books.pays[p].lines| && LinesFit(y.books.docs, y.books.pays[p].lines)
    ensures
      var b := Through(Through(y, t, n), u, n).books;
      && Kept(b)
      && ((forall d :: 0 <= d < |b.docs| ==> Conserved(b, d)) <==> exists l :: l in y.books.pays[p].lines && y.books.docs[l.target].balance < 2 * l.amount)
  {
    hide Tallied, WellPlanned, Through, Install;
    var lines := y.books.pays[p].lines;
    ThroughConfirms(y, t);
    var z := Through(y, t, n);
    assert Starting(z, u);
    ThroughConfirms(z, u);
    ConfirmSeenKeeps(y.books, p);
    ConfirmSeenKeeps(z.books, p);
    SecondFits(y.books, p);
    var b := ConfirmSeen(z.books, p);
    assert z.books.pays[p].times == 1;
    assert Once(b) <==> !LinesFit(z.books.docs, lines) by {
      if LinesFit(z.books.docs, lines) { assert b.pays[p].times == 2; } else { assert b == z.books; }
    }
    ConservedIffOnce(b);
  }

  lemma SecondFits(b: Books, p: nat)
    requires Kept(b) && p < |b.pays| && (forall l :: l in b.pays[p].lines ==> l.target < |b.docs|) && LinesFit(b.docs, b.pays[p].lines)
    ensures !LinesFit(ConfirmSeen(b, p).docs, b.pays[p].lines) <==> exists l :: l in b.pays[p].lines && b.docs[l.target].balance < 2 * l.amount
  {
    hide Install, Tallied;
    var lines := b.pays[p].lines;
    assert WellPlanned(b.docs, b.pays[p]);
    forall l | l in lines ensures ConfirmSeen(b, p).docs[l.target].balance == b.docs[l.target].balance - l.amount { InstalledLine(b.docs, lines, l); }
  }

  /** The four steps of confirming a payment of one line towards the only document. */
  lemma OneThrough(b: Books, txns: seq<Txn>, t: nat, line: Allocation.Line, open: int)
    requires t < |txns| && txns[t] == Txn(0, Locking([])) && |b.docs| == 1 && b.docs[0].balance == open
    requires |b.pays| == 1 && b.pays[0].lines == [line] && line.target == 0 && line.amount <= open
    ensures
      var locking, writing, wrote := txns[t := Txn(0, Locking([open]))], txns[t := Txn(0, Writing([]))], txns[t := Txn(0, Writing([open - line.amount]))];
      && Apply(Sys(b, txns, [None]), Go(t, LockNext)) == Sys(b, locking, [Some(t)])
      && Apply(Sys(b, locking, [Some(t)]), Go(t, Check)) == Sys(b, writing, [Some(t)])
      && Apply(Sys(b, writing, [Some(t)]), Go(t, WriteNext)) == Sys(b, wrote, [Some(t)])
      && Apply(Sys(b, wrote, [Some(t)]), Go(t, Commit)) ==
           Sys(Books(b.docs[0 := b.docs[0].(balance := open - line.amount)], AfterConfirm(b.pays, 0)), txns[t := Txn(0, Ended(true))], [None])
  {
    var locking, writing, wrote := txns[t := Txn(0, Locking([open]))], txns[t := Txn(0, Writing([]))], txns[t := Txn(0, Writing([open - line.amount]))];
    assert Release([Some(t)], t) == [None];
    OneLine(b.docs, line, open - line.amount);
    hide Apply, Install, Release;
    LockOne(Sys(b, txns, [None]), t, 0);
    assert [None][0 := Some(t)] == [Some(t)] && [] + [open] == [open];
    CheckAll(Sys(b, locking, [Some(t)]), t);
    assert locking[t := Txn(0, Writing([]))] == writing;
    WriteOne(Sys(b, writing, [Some(t)]), t, line);
    assert writing[t := Txn(0, Writing([open - line.amount]))] == wrote && [] + [open - line.amount] == [open - line.amount];
    CommitsAll(Sys(b, wrote, [Some(t)]), t);
    assert wrote[t := Txn(0, Ended(true))] == txns[t := Txn(0, Ended(true))];
  }

  /** It does happen: an invoice of 200, one payment of 100 towards it, two confirmations that both saw the draft - and
      nothing is left to pay. */
  lemma PaidTwice() returns (steps: seq<Step>, ys: seq<Sys>)
    ensures IsHistory(steps, ys)
    ensures
      var b := ys[|steps|].books;
      && |b.docs| == 1 && b.docs[0].total == 200 && b.docs[0].balance == 0
      && |b.pays| == 1 && b.pays[0].amount == 100 && b.pays[0].confirmed && b.pays[0].times == 2
      && Applied(b.pays, 0) == 100
  {
    var line, doc := Allocation.Line(0, 100, 100), Doc(Receivable, 0, 200, 200, 0, None, true);
    var pay := Payment(Receivable, 0, 100, 0, false, [line], 0);
    var b0, begun := Books([doc], [pay]), [Txn(0, Locking([])), Txn(0, Locking([]))];
    var b1, once := Books([doc.(balance := 100)], AfterConfirm([pay], 0)), begun[0 := Txn(0, Ended(true))];
    var b2, twice := Books([doc.(balance := 0)], AfterConfirm(b1.pays, 0)), once[1 := Txn(0, Ended(true))];
    assert [doc][0 := doc.(balance := 100)] == b1.docs && b1.docs[0 := doc.(balance := 0)] == b2.docs;
    var steps0, ys0 := PaymentBegun(line, doc, pay);
    var steps1, ys1 := Confirming(b0, begun, 0, line, 200);
    var steps2, ys2 := Confirming(b1, once, 1, line, 100);
    hide Apply, AfterConfirm;
    Joined(steps0, ys0, steps1, ys1);
    Joined(steps0 + steps1, ys0 + ys1[1..], steps2, ys2);
    steps, ys := steps0 + steps1 + steps2, ys0 + ys1[1..] + ys2[1..];
    TwiceApplied(pay, line);
  }

  /** These states follow from these steps. */
  ghost predicate Follows(steps: seq<Step>, ys: seq<Sys>) {
    |ys| == |steps| + 1 && forall i :: 0 <= i < |steps| ==> ys[i+1] == Apply(ys[i], steps[i])
  }

  lemma Joined(steps: seq<Step>, ys: seq<Sys>, more: seq<Step>, zs: seq<Sys>)
    requires Follows(steps, ys) && Follows(more, zs) && ys[|steps|] == zs[0]
    ensures Follows(steps + more, ys + zs[1..])
  {
    hide Apply;
    var all, xs := steps + more, ys + zs[1..];
    forall i | 0 <= i < |all| ensures xs[i+1] == Apply(xs[i], all[i]) {
      if i >= |steps| { assert xs[i] == zs[i - |steps|] && xs[i+1] == zs[i + 1 - |steps|] && all[i] == more[i - |steps|]; }
    }
  }

  lemma Confirming(b: Books, txns: seq<Txn>, t: nat, line: Allocation.Line, open: int) returns (steps: seq<Step>, ys: seq<Sys>)
    requires t < |txns| && txns[t] == Txn(0, Locking([])) && |b.docs| == 1 && b.docs[0].balance == open
    requires |b.pays| == 1 && b.pays[0].lines == [line] && line.target == 0 && line.amount <= open
    ensures Follows(steps, ys) && ys[0] == Sys(b, txns, [None])
    ensures ys[|steps|] ==
      Sys(Books(b.docs[0 := b.docs[0].(balance := open - line.amount)], AfterConfirm(b.pays, 0)), txns[t := Txn(0, Ended(true))], [None])
  {
    OneThrough(b, txns, t, line, open);
    hide Apply;
    steps := [Go(t, LockNext), Go(t, Check), Go(t, WriteNext), Go(t, Commit)];
    ys := [Sys(b, txns, [None]), Sys(b, txns[t := Txn(0, Locking([open]))], [Some(t)]), Sys(b, txns[t := Txn(0, Writing([]))], [Some(t)]),
           Sys(b, txns[t := Txn(0, Writing([open - line.amount]))], [Some(t)]),
           Sys(Books(b.docs[0 := b.docs[0].(balance := open - line.amount)], AfterConfirm(b.pays, 0)), txns[t := Txn(0, Ended(true))], [None])];
  }

  lemma TwiceApplied(pay: Payment, line: Allocation.Line)
    requires pay.lines == [line] && line.target == 0 && pay.times == 0
    ensures
      var pays := AfterConfirm(AfterConfirm([pay], 0), 0);
      |pays| == 1 && pays[0].confirmed && pays[0].times == 2 && pays[0].amount == pay.amount && Applied(pays, 0) == line.amount
  {
    var pays := AfterConfirm(AfterConfirm([pay], 0), 0);
    assert Sent([line], 0) == Sent([], 0) + line.amount;
    assert Applied(pays, 0) == Applied([], 0) + Sent([line], 0);
  }

  lemma PaymentBegun(line: Allocation.Line, doc: Doc, pay: Payment) returns (steps: seq<Step>, ys: seq<Sys>)
    requires line == Allocation.Line(0, 100, 100) && doc == Doc(Receivable, 0, 200, 200, 0, None, true)
    requires pay == Payment(Receivable, 0, 100, 0, false, [line], 0)
    ensures Follows(steps, ys) && ys[0] == EMPTY
    ensures ys[|steps|] == Sys(Books([doc], [pay]), [Txn(0, Locking([])), Txn(0, Locking([]))], [None])
  {
    var t0 := Txn(0, Locking([]));
    assert Allocation.Total([line]) == Allocation.Total([]) + 100;
    assert WellPlanned([doc], pay) by { assert LineOk([doc], pay, line); }
    hide WellPlanned, TxnStep;
    steps := [AddDoc(Receivable, 0, 200, 0, None), ConfirmDoc(0), AddPayment(Receivable, 0, 100, 0, [line]), Begin(0), Begin(0)];
    ys := [EMPTY, Sys(Books([doc.(confirmed := false)], []), [], [None]), Sys(Books([doc], []), [], [None]),
           Sys(Books([doc], [pay]), [], [None]), Sys(Books([doc], [pay]), [t0], [None]), Sys(Books([doc], [pay]), [t0, t0], [None])];
  }

  lemma OneLine(docs: seq<Doc>, line: Allocation.Line, left: int)
    requires line.target < |docs|
    ensures Install(docs, [line], [left]) == docs[line.target := docs[line.target].(balance := left)]
  {
    assert [line][..0] == [] && [left][..0] == [];
    assert Install(docs, [], []) == docs;
  }
}
