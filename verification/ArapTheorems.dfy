/** What any interleaving of recordings and confirmations does to the balances. */
module ArapTheorems {
  import opened OptionType
  import opened Arap
  import Allocation

  // ---------------------------------------------------------------- what lines send

  lemma {:induction false} SentNone(lines: seq<Allocation.Line>, d: nat)
    requires forall l :: l in lines ==> l.target != d
    ensures Sent(lines, d) == 0
  {
    if lines != [] { SentNone(lines[..|lines|-1], d); }
  }

  /** With distinct targets, a line's target gets just that line. */
  lemma {:induction false} SentOne(lines: seq<Allocation.Line>, i: nat)
    requires i < |lines| && forall j, k :: 0 <= j < k < |lines| ==> lines[j].target != lines[k].target
    ensures Sent(lines, lines[i].target) == lines[i].amount
    decreases |lines|
  {
    var n := |lines| - 1;
    if i == n { SentNone(lines[..n], lines[n].target); }
    else { SentOne(lines[..n], i); }
  }

  lemma {:induction false} MovedConfirm(pays: seq<Payment>, p: nat, d: nat)
    requires p < |pays|
    ensures Moved(AfterConfirm(pays, p), d) == Moved(pays, d) + Sent(pays[p].lines, d)
    decreases |pays|
  {
    var n := |pays| - 1;
    var after := AfterConfirm(pays, p);
    if p == n { assert after[..n] == pays[..n]; }
    else {
      MovedConfirm(pays[..n], p, d);
      assert after[..n] == AfterConfirm(pays[..n], p);
    }
  }

  lemma MovedDraft(pays: seq<Payment>, p: Payment, d: nat)
    requires p.times == 0
    ensures Moved(pays + [p], d) == Moved(pays, d)
  {
    assert (pays + [p])[..|pays|] == pays;
  }

  lemma {:induction false} MovedNone(docs: seq<Doc>, pays: seq<Payment>, d: nat)
    requires forall p :: 0 <= p < |pays| ==> WellPlanned(docs, pays[p])
    requires d >= |docs|
    ensures Moved(pays, d) == 0
  {
    if pays != [] {
      var n := |pays| - 1;
      MovedNone(docs, pays[..n], d);
      forall l | l in pays[n].lines ensures l.target != d { assert LineOk(docs, pays[n], l); }
      SentNone(pays[n].lines, d);
    }
  }

  lemma {:induction false} InstallAt(docs: seq<Doc>, lines: seq<Allocation.Line>, wrote: seq<int>, d: nat)
    requires |wrote| == |lines| && d < |docs| && forall l :: l in lines ==> l.target < |docs|
    requires forall j, k :: 0 <= j < k < |lines| ==> lines[j].target != lines[k].target
    ensures (forall l :: l in lines ==> l.target != d) ==> Install(docs, lines, wrote)[d] == docs[d]
    ensures forall i :: 0 <= i < |lines| && lines[i].target == d ==> Install(docs, lines, wrote)[d] == docs[d].(balance := wrote[i])
    decreases |lines|
  {
    if lines != [] {
      var n := |lines| - 1;
      InstallAt(docs, lines[..n], wrote[..n], d);
      forall i | 0 <= i < n && lines[i].target == d ensures Install(docs, lines, wrote)[d] == docs[d].(balance := wrote[i]) {
        assert lines[..n][i] == lines[i] && wrote[..n][i] == wrote[i];
      }
    }
  }

  // ---------------------------------------------------------------- the invariant

  /** Whoever is locking or writing holds the locks it took, and knows the balances behind them. */
  predicate TxnOk(y: Sys, t: nat)
    requires t < |y.txns|
  {
    var txn := y.txns[t];
    Active(txn) ==>
      txn.pay < |y.books.pays| && InTables(y, txn.pay) &&
      var lines := y.books.pays[txn.pay].lines;
      match txn.phase
      case Locking(read) => |read| <= |lines| && forall i :: 0 <= i < |read| ==> HeldAt(y, t, lines[i], read[i])
      case Writing(wrote) =>
        && |wrote| <= |lines|
        && (forall i :: 0 <= i < |lines| ==> y.locks[lines[i].target] == Some(t) && lines[i].amount <= y.books.docs[lines[i].target].balance)
        && forall i :: 0 <= i < |wrote| ==> wrote[i] == y.books.docs[lines[i].target].balance - lines[i].amount
      case _ => true
  }

  predicate HeldAt(y: Sys, t: nat, l: Allocation.Line, balance: int)
    requires l.target < |y.books.docs| == |y.locks|
  {
    y.locks[l.target] == Some(t) && y.books.docs[l.target].balance == balance
  }

  predicate Inv(y: Sys) {
    && Kept(y.books) && |y.locks| == |y.books.docs|
    && forall t :: 0 <= t < |y.txns| ==> TxnOk(y, t)
  }

  /** The lines fit the balances, and what is written is what they leave. */
  predicate Written(docs: seq<Doc>, lines: seq<Allocation.Line>, wrote: seq<int>) {
    |wrote| == |lines| && forall i :: 0 <= i < |lines| ==>
      lines[i].target < |docs| && lines[i].amount <= docs[lines[i].target].balance && wrote[i] == docs[lines[i].target].balance - lines[i].amount
  }

  /** A commit takes off each document exactly what the payment's lines send there. */
  lemma CommitTallies(b: Books, p: nat, wrote: seq<int>, d: nat)
    requires Kept(b) && p < |b.pays| && d < |b.docs| && Written(b.docs, b.pays[p].lines, wrote)
    ensures Tallied(Books(Install(b.docs, b.pays[p].lines, wrote), AfterConfirm(b.pays, p)), d)
  {
    var lines := b.pays[p].lines;
    assert WellPlanned(b.docs, b.pays[p]) && Tallied(b, d);
    MovedConfirm(b.pays, p, d);
    InstallAt(b.docs, lines, wrote, d);
    if i :| 0 <= i < |lines| && lines[i].target == d {
      SentOne(lines, i);
      assert LineOk(b.docs, b.pays[p], lines[i]);
    } else {
      SentNone(lines, d);
    }
  }

  /** Installing balances changes nothing else about the documents. */
  lemma {:induction false} InstallSame(docs: seq<Doc>, lines: seq<Allocation.Line>, wrote: seq<int>)
    requires |wrote| == |lines| && forall l :: l in lines ==> l.target < |docs|
    ensures forall d :: 0 <= d < |docs| ==> Install(docs, lines, wrote)[d].(balance := docs[d].balance) == docs[d]
    decreases |lines|
  {
    if lines != [] { InstallSame(docs, lines[..|lines|-1], wrote[..|lines|-1]); }
  }

  lemma PlannedSame(docs: seq<Doc>, docs': seq<Doc>, p: Payment, p': Payment)
    requires WellPlanned(docs, p) && |docs| <= |docs'| && p' == p.(confirmed := p'.confirmed, times := p'.times)
    requires forall d :: 0 <= d < |docs| ==> docs'[d].side == docs[d].side && docs'[d].party == docs[d].party && (docs[d].confirmed ==> docs'[d].confirmed)
    ensures WellPlanned(docs', p')
  {
    forall l | l in p.lines ensures LineOk(docs', p', l) { assert LineOk(docs, p, l); }
  }

  lemma CommitBooks(b: Books, p: nat, wrote: seq<int>)
    requires Kept(b) && p < |b.pays| && Written(b.docs, b.pays[p].lines, wrote)
    ensures Kept(Books(Install(b.docs, b.pays[p].lines, wrote), AfterConfirm(b.pays, p)))
  {
    hide Tallied, WellPlanned;
    var b' := Books(Install(b.docs, b.pays[p].lines, wrote), AfterConfirm(b.pays, p));
    forall d | 0 <= d < |b'.docs| ensures Tallied(b', d) { CommitTallies(b, p, wrote, d); }
    InstallSame(b.docs, b.pays[p].lines, wrote);
    forall q | 0 <= q < |b'.pays| ensures WellPlanned(b'.docs, b'.pays[q]) { PlannedSame(b.docs, b'.docs, b.pays[q], b'.pays[q]); }
  }

  /** A transaction that does not hold a document's lock is not disturbed by changes behind it. */
  lemma OtherTxn(y: Sys, y': Sys, u: nat, t: nat)
    requires u != t && u < |y.txns| && |y'.txns| >= |y.txns| && y'.txns[u] == y.txns[u] && TxnOk(y, u)
    requires |y.locks| == |y.books.docs| <= |y'.books.docs| == |y'.locks| && |y.books.pays| <= |y'.books.pays|
    requires forall d :: 0 <= d < |y.locks| && y.locks[d] == Some(u) ==>
      y'.locks[d] == Some(u) && y'.books.docs[d].balance == y.books.docs[d].balance
    requires Active(y.txns[u]) ==> y'.books.pays[y.txns[u].pay].lines == y.books.pays[y.txns[u].pay].lines
    ensures TxnOk(y', u)
  {
  }

  lemma EndedKeeps(y: Sys, t: nat, applied: bool)
    requires Inv(y) && t < |y.txns|
    ensures Inv(End(y, t, applied))
  {
    hide Kept;
    forall u | 0 <= u < |y.txns| && u != t ensures TxnOk(End(y, t, applied), u) { OtherTxn(y, End(y, t, applied), u, t); }
  }

  lemma LockKeeps(y: Sys, t: nat)
    requires Inv(y) && t < |y.txns| && InTables(y, y.txns[t].pay)
    ensures Inv(TxnStep(y, LockNext, t))
  {
    hide Kept;
    var y' := TxnStep(y, LockNext, t);
    assert TxnOk(y, t);
    forall u | 0 <= u < |y.txns| ensures TxnOk(y', u) { if u != t { OtherTxn(y, y', u, t); } }
  }

  lemma LocalKeeps(y: Sys, act: TxnAct, t: nat)
    requires Inv(y) && t < |y.txns| && InTables(y, y.txns[t].pay) && (act.Check? || act.WriteNext?)
    ensures Inv(TxnStep(y, act, t))
  {
    hide Kept;
    var y' := TxnStep(y, act, t);
    assert TxnOk(y, t);
    if y'.txns[t].phase.Ended? && !y.txns[t].phase.Ended? { EndedKeeps(y, t, false); }
    else { forall u | 0 <= u < |y.txns| ensures TxnOk(y', u) { if u != t { OtherTxn(y, y', u, t); } } }
  }

  lemma CommitKeeps(y: Sys, t: nat)
    requires Inv(y) && t < |y.txns| && InTables(y, y.txns[t].pay)
    ensures Inv(TxnStep(y, Commit, t))
  {
    hide Kept, Install;
    var txn, y' := y.txns[t], TxnStep(y, Commit, t);
    assert TxnOk(y, t);
    if txn.phase.Writing? && |txn.phase.wrote| == |y.books.pays[txn.pay].lines| {
      var lines, wrote := y.books.pays[txn.pay].lines, txn.phase.wrote;
      CommitBooks(y.books, txn.pay, wrote);
      Planned(y.books, txn.pay);
      forall u | 0 <= u < |y.txns| && u != t ensures TxnOk(y', u) {
        forall d | 0 <= d < |y.locks| && y.locks[d] == Some(u) ensures y'.books.docs[d] == y.books.docs[d] {
          InstallAt(y.books.docs, lines, wrote, d);
        }
        OtherTxn(y, y', u, t);
      }
    }
  }

  lemma Planned(b: Books, p: nat)
    requires Kept(b) && p < |b.pays|
    ensures WellPlanned(b.docs, b.pays[p])
  {
  }

  // ---------------------------------------------------------------- adding and confirming rows

  lemma AddDocBooks(b: Books, doc: Doc)
    requires Kept(b) && doc.balance == doc.total >= 0
    ensures Kept(b.(docs := b.docs + [doc]))
  {
    hide WellPlanned;
    var b' := b.(docs := b.docs + [doc]);
    MovedNone(b.docs, b.pays, |b.docs|);
    forall d | 0 <= d < |b'.docs| ensures Tallied(b', d) { if d < |b.docs| { assert Tallied(b, d); } }
    forall p | 0 <= p < |b.pays| ensures WellPlanned(b'.docs, b.pays[p]) { PlannedSame(b.docs, b'.docs, b.pays[p], b.pays[p]); }
  }

  lemma ConfirmDocBooks(b: Books, d: nat)
    requires Kept(b) && d < |b.docs|
    ensures Kept(b.(docs := b.docs[d := b.docs[d].(confirmed := true)]))
  {
    hide WellPlanned;
    var b' := b.(docs := b.docs[d := b.docs[d].(confirmed := true)]);
    forall e | 0 <= e < |b'.docs| ensures Tallied(b', e) { assert Tallied(b, e); }
    forall p | 0 <= p < |b.pays| ensures WellPlanned(b'.docs, b.pays[p]) { PlannedSame(b.docs, b'.docs, b.pays[p], b.pays[p]); }
  }

  lemma FitIsPlanned(docs: seq<Doc>, side: Side, party: nat, amount: int, paidOn: int, lines: seq<Allocation.Line>)
    requires amount > 0 && Allocation.Fits(amount, Targets(docs, side, party), lines)
    ensures WellPlanned(docs, Payment(side, party, amount, paidOn, false, lines, 0))
  {
    hide Targets;
    forall l | l in lines ensures LineOk(docs, Payment(side, party, amount, paidOn, false, lines, 0), l) {
      assert Allocation.Pays(Targets(docs, side, party), l);
    }
  }

  lemma AddPaymentBooks(b: Books, p: Payment)
    requires Kept(b) && !p.confirmed && p.times == 0 && WellPlanned(b.docs, p)
    ensures Kept(b.(pays := b.pays + [p]))
  {
    hide WellPlanned;
    var b' := b.(pays := b.pays + [p]);
    forall d | 0 <= d < |b'.docs| ensures Tallied(b', d) {
      assert Tallied(b, d);
      MovedDraft(b.pays, p, d);
    }
  }

  lemma ApplyKeeps(y: Sys, m: Step)
    requires Inv(y)
    ensures Inv(Apply(y, m))
  {
    hide Kept, TxnStep, WellPlanned;
    var y' := Apply(y, m);
    match m
    case AddDoc(side, party, total, datedOn, dueOn) =>
      AddDocBooks(y.books, Doc(side, party, total, total, datedOn, dueOn, false));
      forall u | 0 <= u < |y.txns| ensures TxnOk(y', u) { OtherTxn(y, y', u, |y.txns|); }
    case ConfirmDoc(d) =>
      if d < |y.books.docs| {
        ConfirmDocBooks(y.books, d);
        forall u | 0 <= u < |y.txns| ensures TxnOk(y', u) { OtherTxn(y, y', u, |y.txns|); }
      }
    case AddPayment(side, party, amount, paidOn, lines) =>
      if WellPlanned(y.books.docs, Payment(side, party, amount, paidOn, false, lines, 0)) {
        AddPaymentBooks(y.books, Payment(side, party, amount, paidOn, false, lines, 0));
        forall u | 0 <= u < |y.txns| ensures TxnOk(y', u) { OtherTxn(y, y', u, |y.txns|); }
      }
    case Begin(p) =>
      if y' != y {
        Planned(y.books, p);
        forall l | l in y.books.pays[p].lines ensures l.target < |y.books.docs| { assert LineOk(y.books.docs, y.books.pays[p], l); }
        forall u | 0 <= u < |y.txns| ensures TxnOk(y', u) { OtherTxn(y, y', u, |y.txns|); }
      }
    case Go(t, act) =>
      if t < |y.txns| && InTables(y, y.txns[t].pay) { TxnKeeps(y, act, t); }
  }

  lemma TxnKeeps(y: Sys, act: TxnAct, t: nat)
    requires Inv(y) && t < |y.txns| && InTables(y, y.txns[t].pay)
    ensures Inv(TxnStep(y, act, t))
  {
    hide Inv;
    match act
    case LockNext => LockKeeps(y, t);
    case Commit => CommitKeeps(y, t);
    case Abort => AbortKeeps(y, t);
    case _ => LocalKeeps(y, act, t);
  }

  lemma AbortKeeps(y: Sys, t: nat)
    requires Inv(y) && t < |y.txns| && InTables(y, y.txns[t].pay)
    ensures Inv(TxnStep(y, Abort, t))
  {
    EndedKeeps(y, t, false);
  }

  lemma {:induction false} HistoryKeeps(steps: seq<Step>, ys: seq<Sys>, k: nat)
    requires IsHistory(steps, ys) && k <= |steps|
    ensures Inv(ys[k])
  {
    hide Inv, Apply;
    if k == 0 { assert Inv(EMPTY) by { NothingYet(); } }
    else {
      HistoryKeeps(steps, ys, k - 1);
      ApplyKeeps(ys[k-1], steps[k-1]);
    }
  }

  lemma NothingYet()
    ensures Inv(EMPTY)
  {
  }

  /** Whatever interleaves - two confirmations of one payment included - a balance is the total less what the committed
      transactions took off it, between nothing and the total; and a payment is confirmed once one of them was its own. */
  lemma BalancesTallied(steps: seq<Step>, ys: seq<Sys>, b: Books)
    requires IsHistory(steps, ys) && b == ys[|steps|].books
    ensures forall d :: 0 <= d < |b.docs| ==> b.docs[d].balance == b.docs[d].total - Moved(b.pays, d) && 0 <= b.docs[d].balance <= b.docs[d].total
    ensures forall p :: 0 <= p < |b.pays| ==> (b.pays[p].confirmed <==> b.pays[p].times > 0)
  {
    hide IsHistory;
    HistoryKeeps(steps, ys, |steps|);
    forall d | 0 <= d < |b.docs| ensures b.docs[d].balance == b.docs[d].total - Moved(b.pays, d) && 0 <= b.docs[d].balance <= b.docs[d].total {
      assert Tallied(b, d);
    }
  }

  // ---------------------------------------------------------------- conservation, exactly

  lemma {:induction false} SentNever(docs: seq<Doc>, p: Payment, lines: seq<Allocation.Line>, d: nat)
    requires forall l :: l in lines ==> LineOk(docs, p, l)
    ensures Sent(lines, d) >= 0
  {
    if lines != [] {
      SentNever(docs, p, lines[..|lines|-1], d);
      assert LineOk(docs, p, lines[|lines|-1]);
    }
  }

  /** More is taken off than confirmed payments account for exactly where a payment applied twice sends something. */
  lemma {:induction false} MovedApplied(docs: seq<Doc>, pays: seq<Payment>, d: nat)
    requires forall p :: 0 <= p < |pays| ==> WellPlanned(docs, pays[p]) && (pays[p].confirmed <==> pays[p].times > 0)
    ensures Moved(pays, d) >= Applied(pays, d)
    ensures Moved(pays, d) == Applied(pays, d) <==> forall p :: 0 <= p < |pays| ==> pays[p].times <= 1 || Sent(pays[p].lines, d) == 0
  {
    if pays != [] {
      var n := |pays| - 1;
      var q, s := pays[n], Sent(pays[n].lines, d);
      MovedApplied(docs, pays[..n], d);
      SentNever(docs, q, q.lines, d);
      hide Sent, WellPlanned;
      if q.times == 0 { assert q.times * s == 0; }
      else if q.times == 1 { assert q.times * s == s; }
      else { MoreThanOnce(q.times, s); }
      if forall p :: 0 <= p < |pays| ==> pays[p].times <= 1 || Sent(pays[p].lines, d) == 0 { assert pays[n].times <= 1 || s == 0; }
      if forall p :: 0 <= p < n ==> pays[..n][p].times <= 1 || Sent(pays[..n][p].lines, d) == 0 {
        assert forall p :: 0 <= p < n ==> pays[p] == pays[..n][p];
      }
    }
  }

  lemma MoreThanOnce(times: nat, s: int)
    requires times >= 2 && s >= 0
    ensures times * s >= 2 * s && (times * s == s <==> s == 0)
  {
  }

  /** Balances are conserved exactly if no payment was applied twice. */
  lemma ConservedIffOnce(b: Books)
    requires Kept(b)
    ensures (forall d :: 0 <= d < |b.docs| ==> Conserved(b, d)) <==> Once(b)
  {
    hide Sent, Moved, Applied, WellPlanned;
    if Once(b) {
      forall d | 0 <= d < |b.docs| ensures Conserved(b, d) {
        MovedApplied(b.docs, b.pays, d);
        assert Tallied(b, d);
      }
    }
    if forall d :: 0 <= d < |b.docs| ==> Conserved(b, d) {
      forall p | 0 <= p < |b.pays| ensures b.pays[p].times <= 1 {
        var d := SomeTarget(b.docs, b.pays[p]);
        MovedApplied(b.docs, b.pays, d);
        assert Conserved(b, d) && Tallied(b, d);
      }
    }
  }

  lemma SomeTarget(docs: seq<Doc>, p: Payment) returns (d: nat)
    requires WellPlanned(docs, p)
    ensures d < |docs| && Sent(p.lines, d) > 0
  {
    assert p.lines != [];
    d := p.lines[0].target;
    assert LineOk(docs, p, p.lines[0]);
    SentOne(p.lines, 0);
  }

  // ---------------------------------------------------------------- without overlaps

  /** Confirmations under way are of different drafts. */
  predicate Single(y: Sys) {
    && Once(y.books)
    && (forall i :: 0 <= i < |y.txns| && Active(y.txns[i]) ==> y.txns[i].pay < |y.books.pays| && !y.books.pays[y.txns[i].pay].confirmed)
    && (forall i, j :: 0 <= i < j < |y.txns| && Active(y.txns[i]) && Active(y.txns[j]) ==> y.txns[i].pay != y.txns[j].pay)
  }

  lemma SingleTxn(y: Sys, act: TxnAct, t: nat)
    requires Inv(y) && Single(y) && t < |y.txns| && InTables(y, y.txns[t].pay)
    ensures Single(TxnStep(y, act, t))
  {
    hide TxnOk, Tallied, WellPlanned, Install, AllFit, Release, InTables;
    assert Active(y.txns[t]) ==> y.books.pays[y.txns[t].pay].times == 0;
  }

  lemma SingleStays(y: Sys, m: Step)
    requires Inv(y) && Single(y) && !Overlaps(y, m)
    ensures Single(Apply(y, m))
  {
    hide TxnOk, Tallied, WellPlanned, Install, TxnStep;
    if m.Go? && m.txn < |y.txns| && InTables(y, y.txns[m.txn].pay) { SingleTxn(y, m.act, m.txn); }
    if m.Begin? { assert forall i :: 0 <= i < |y.txns| ==> y.txns[i] in y.txns; }
  }

  lemma {:induction false} SingleHistory(steps: seq<Step>, ys: seq<Sys>, k: nat)
    requires IsHistory(steps, ys) && Disjoint(steps, ys) && k <= |steps|
    ensures Single(ys[k])
  {
    hide Single, Apply, Overlaps;
    if k == 0 { assert Single(EMPTY) by { NoneTwice(); } }
    else {
      SingleHistory(steps, ys, k - 1);
      HistoryKeeps(steps, ys, k - 1);
      SingleStays(ys[k-1], steps[k-1]);
    }
  }

  lemma NoneTwice()
    ensures Single(EMPTY)
  {
  }

  lemma OkIfOnce(b: Books)
    requires Kept(b) && Once(b)
    ensures BooksOk(b)
  {
    ConservedIffOnce(b);
  }

  lemma DisjointBooks(steps: seq<Step>, ys: seq<Sys>, b: Books)
    requires IsHistory(steps, ys) && Disjoint(steps, ys) && b == ys[|steps|].books
    ensures BooksOk(b)
  {
    hide IsHistory, Disjoint;
    HistoryKeeps(steps, ys, |steps|);
    SingleHistory(steps, ys, |steps|);
    OkIfOnce(b);
  }

  /** However recordings, confirmations, aborts and other payments' transactions interleave, every document's
      balance is its total less what the confirmed payments sent to it, between nothing and the total. */
  lemma BalancesConserved(steps: seq<Step>, ys: seq<Sys>, b: Books, d: nat)
    requires IsHistory(steps, ys) && Disjoint(steps, ys) && b == ys[|steps|].books && d < |b.docs|
    ensures b.docs[d].balance == b.docs[d].total - Applied(b.pays, d) && 0 <= b.docs[d].balance <= b.docs[d].total
  {
    hide IsHistory, Disjoint;
    DisjointBooks(steps, ys, b);
    assert Conserved(b, d);
  }

  // ---------------------------------------------------------------- stale plans

  /** Documents keep their side and party, and stay confirmed. */
  predicate DocsStay(docs: seq<Doc>, docs': seq<Doc>) {
    |docs| <= |docs'| && forall d :: 0 <= d < |docs| ==>
      docs'[d].side == docs[d].side && docs'[d].party == docs[d].party && (docs[d].confirmed ==> docs'[d].confirmed)
  }

  lemma StepDocs(y: Sys, m: Step)
    ensures DocsStay(y.books.docs, Apply(y, m).books.docs)
  {
    hide WellPlanned, Install;
    if m.Go? && m.txn < |y.txns| && InTables(y, y.txns[m.txn].pay) {
      var txn := y.txns[m.txn];
      var lines := y.books.pays[txn.pay].lines;
      if txn.phase.Writing? && |txn.phase.wrote| == |lines| { InstallSame(y.books.docs, lines, txn.phase.wrote); }
    }
  }

  /** A plan made at any earlier point of a history can still be inserted: what became stale shows at confirmation. */
  lemma {:induction false} StalePlanned(steps: seq<Step>, ys: seq<Sys>, i: nat, j: nat, p: Payment)
    requires IsHistory(steps, ys) && i <= j <= |steps| && WellPlanned(ys[i].books.docs, p)
    ensures WellPlanned(ys[j].books.docs, p)
  {
    hide Apply, WellPlanned;
    if i < j {
      StalePlanned(steps, ys, i, j - 1, p);
      StepDocs(ys[j-1], steps[j-1]);
      PlannedSame(ys[j-1].books.docs, ys[j].books.docs, p, p);
    }
  }
}
