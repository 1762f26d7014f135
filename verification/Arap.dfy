/** Receivables, payables and the payments applied to them, for one business
    (packages/mcp-ledger/src/arap-tools.ts). Tables are sequences and a row's id is its position. */
module Arap {
  import opened OptionType
  import Allocation

  /** An invoice is receivable and is paid by what was received; a bill is payable and paid by what we paid. */
  datatype Side = Receivable | Payable

  datatype Doc = Doc(side: Side, party: nat, total: int, balance: int, datedOn: int, dueOn: Option<int>, confirmed: bool)

  /** `times` is no column: how many transactions applied it to the balances. */
  datatype Payment = Payment(side: Side, party: nat, amount: int, paidOn: int, confirmed: bool, lines: seq<Allocation.Line>, times: nat)

  datatype Books = Books(docs: seq<Doc>, pays: seq<Payment>)

  /** What `record_party_payment` may allocate to: the party's confirmed documents that are still open. */
  function Targets(docs: seq<Doc>, side: Side, party: nat): (ts: seq<Allocation.Target>)
    ensures forall t :: t in ts <==> t.id < |docs| && OpenFor(docs[t.id], side, party) && t.datedOn == docs[t.id].datedOn
                                     && t.balance == docs[t.id].balance
    ensures Allocation.Keyed(ts)
  {
    if docs == [] then []
    else
      var n := |docs| - 1;
      var ts := Targets(docs[..n], side, party);
      assert forall i :: 0 <= i < |ts| ==> ts[i] in ts;
      if OpenFor(docs[n], side, party) then ts + [Allocation.Target(n, docs[n].datedOn, docs[n].balance)] else ts
  }

  predicate OpenFor(d: Doc, side: Side, party: nat) {
    d.side == side && d.party == party && d.confirmed && d.balance > 0
  }

  // ---------------------------------------------------------------- confirming a payment, step by step

  /** A transaction confirming payment `pay`: locking its targets row by row and reading their balances, then
      writing the decremented ones. Nobody sees a write before the commit. */
  datatype Txn = Txn(pay: nat, phase: Phase)
  datatype Phase = Locking(read: seq<int>) | Writing(wrote: seq<int>) | Ended(applied: bool)

  /** `locks[d]` is the transaction that holds document `d`'s row lock. */
  datatype Sys = Sys(books: Books, txns: seq<Txn>, locks: seq<Option<nat>>)

  datatype Step =
    | AddDoc(side: Side, party: nat, total: nat, datedOn: int, dueOn: Option<int>)
    | ConfirmDoc(doc: nat)
    | AddPayment(side: Side, party: nat, amount: int, paidOn: int, lines: seq<Allocation.Line>)
    | Begin(pay: nat)
    | Go(txn: nat, act: TxnAct)

  datatype TxnAct = LockNext | Check | WriteNext | Commit | Abort

  predicate Active(t: Txn) { !t.phase.Ended? }

  function Release(locks: seq<Option<nat>>, txn: nat): (r: seq<Option<nat>>)
    ensures |r| == |locks|
  {
    seq(|locks|, i requires 0 <= i < |locks| => if locks[i] == Some(txn) then None else locks[i])
  }

  function End(y: Sys, txn: nat, applied: bool): Sys
    requires txn < |y.txns|
  {
    y.(txns := y.txns[txn := y.txns[txn].(phase := Ended(applied))], locks := Release(y.locks, txn))
  }

  /** The balances a transaction wrote become the documents'. */
  function Install(docs: seq<Doc>, lines: seq<Allocation.Line>, wrote: seq<int>): (r: seq<Doc>)
    requires |wrote| == |lines| && forall l :: l in lines ==> l.target < |docs|
    ensures |r| == |docs|
  {
    if lines == [] then docs
    else
      var n := |lines| - 1;
      var r := Install(docs, lines[..n], wrote[..n]);
      r[lines[n].target := r[lines[n].target].(balance := wrote[n])]
  }

  /** The lines' targets exist and have as many locks as there are documents. */
  predicate InTables(y: Sys, pay: nat) {
    pay < |y.books.pays| && |y.locks| == |y.books.docs| && forall l :: l in y.books.pays[pay].lines ==> l.target < |y.books.docs|
  }

  predicate AllFit(lines: seq<Allocation.Line>, read: seq<int>) {
    |read| == |lines| && forall i :: 0 <= i < |lines| ==> lines[i].amount <= read[i]
  }

  function AfterConfirm(pays: seq<Payment>, p: nat): (r: seq<Payment>)
    requires p < |pays|
    ensures |r| == |pays|
  {
    pays[p := pays[p].(confirmed := true, times := pays[p].times + 1)]
  }

  function TxnStep(y: Sys, act: TxnAct, t: nat): Sys
    requires t < |y.txns| && InTables(y, y.txns[t].pay)
  {
    var txn := y.txns[t];
    var lines := y.books.pays[txn.pay].lines;
    match act
    case LockNext =>
      if txn.phase.Locking? && |txn.phase.read| < |lines| && y.locks[lines[|txn.phase.read|].target].None? then
        var d := lines[|txn.phase.read|].target;
        y.(txns := y.txns[t := txn.(phase := Locking(txn.phase.read + [y.books.docs[d].balance]))], locks := y.locks[d := Some(t)])
      else y
    case Check =>
      if txn.phase.Locking? && |txn.phase.read| == |lines| then
        if AllFit(lines, txn.phase.read) then y.(txns := y.txns[t := txn.(phase := Writing([]))]) else End(y, t, false)
      else y
    case WriteNext =>
      if txn.phase.Writing? && |txn.phase.wrote| < |lines| then
        var l := lines[|txn.phase.wrote|];
        y.(txns := y.txns[t := txn.(phase := Writing(txn.phase.wrote + [y.books.docs[l.target].balance - l.amount]))])
      else y
    case Commit =>
      if txn.phase.Writing? && |txn.phase.wrote| == |lines| then
        End(y.(books := Books(Install(y.books.docs, lines, txn.phase.wrote),
                              AfterConfirm(y.books.pays, txn.pay))), t, true)
      else y
    case Abort => if Active(txn) then End(y, t, false) else y
  }

  /** One step. A payment is inserted with a plan that may have gone stale since it was made. A payment's row is read
      without a lock, so nothing keeps two confirmations of one payment from overlapping. */
  function Apply(y: Sys, m: Step): Sys {
    match m
    case AddDoc(side, party, total, datedOn, dueOn) =>
      y.(books := y.books.(docs := y.books.docs + [Doc(side, party, total, total, datedOn, dueOn, false)]), locks := y.locks + [None])
    case ConfirmDoc(d) =>
      if d < |y.books.docs| then y.(books := y.books.(docs := y.books.docs[d := y.books.docs[d].(confirmed := true)])) else y
    case AddPayment(side, party, amount, paidOn, lines) =>
      var p := Payment(side, party, amount, paidOn, false, lines, 0);
      if WellPlanned(y.books.docs, p) then y.(books := y.books.(pays := y.books.pays + [p])) else y
    case Begin(p) =>
      if p < |y.books.pays| && !y.books.pays[p].confirmed then y.(txns := y.txns + [Txn(p, Locking([]))]) else y
    case Go(t, act) => if t < |y.txns| && InTables(y, y.txns[t].pay) then TxnStep(y, act, t) else y
  }

  const EMPTY := Sys(Books([], []), [], [])

  ghost predicate IsHistory(steps: seq<Step>, ys: seq<Sys>) {
    |ys| == |steps| + 1 && ys[0] == EMPTY && forall i :: 0 <= i < |steps| ==> ys[i+1] == Apply(ys[i], steps[i])
  }

  /** A confirmation begins while another one of the same payment is under way. */
  predicate Overlaps(y: Sys, m: Step) {
    m.Begin? && exists t :: t in y.txns && Active(t) && t.pay == m.pay
  }

  /** No two confirmations of one payment overlap. */
  ghost predicate Disjoint(steps: seq<Step>, ys: seq<Sys>) {
    |ys| == |steps| + 1 && forall i :: 0 <= i < |steps| ==> !Overlaps(ys[i], steps[i])
  }

  // ---------------------------------------------------------------- what the books must say

  /** What lines send to document `d`. */
  function Sent(lines: seq<Allocation.Line>, d: nat): int {
    if lines == [] then 0
    else Sent(lines[..|lines|-1], d) + if lines[|lines|-1].target == d then lines[|lines|-1].amount else 0
  }

  /** What all confirmed payments together send to document `d`. */
  function Applied(pays: seq<Payment>, d: nat): int {
    if pays == [] then 0
    else Applied(pays[..|pays|-1], d) + if pays[|pays|-1].confirmed then Sent(pays[|pays|-1].lines, d) else 0
  }

  /** What all transactions together have taken off document `d`. */
  function Moved(pays: seq<Payment>, d: nat): int {
    if pays == [] then 0 else Moved(pays[..|pays|-1], d) + pays[|pays|-1].times * Sent(pays[|pays|-1].lines, d)
  }

  /** A balance is the total less what was taken off it, and never below nothing. */
  predicate Tallied(b: Books, d: nat)
    requires d < |b.docs|
  {
    b.docs[d].balance == b.docs[d].total - Moved(b.pays, d) && 0 <= b.docs[d].balance <= b.docs[d].total
  }

  /** What holds of the books whatever overlaps. */
  predicate Kept(b: Books) {
    && (forall d :: 0 <= d < |b.docs| ==> Tallied(b, d))
    && (forall p :: 0 <= p < |b.pays| ==> WellPlanned(b.docs, b.pays[p]) && (b.pays[p].confirmed <==> b.pays[p].times > 0))
  }

  /** No payment was applied twice. */
  predicate Once(b: Books) { forall p :: 0 <= p < |b.pays| ==> b.pays[p].times <= 1 }

  /** A balance is what is left of the total after the confirmed payments, and never below nothing. */
  predicate Conserved(b: Books, d: nat)
    requires d < |b.docs|
  {
    b.docs[d].balance == b.docs[d].total - Applied(b.pays, d) && 0 <= b.docs[d].balance <= b.docs[d].total
  }

  /** A payment's lines go to different confirmed documents of its own party and side and make up its amount. */
  predicate WellPlanned(docs: seq<Doc>, p: Payment) {
    && p.amount > 0 && Allocation.Total(p.lines) == p.amount
    && (forall i, j :: 0 <= i < j < |p.lines| ==> p.lines[i].target != p.lines[j].target)
    && forall l :: l in p.lines ==> LineOk(docs, p, l)
  }

  predicate LineOk(docs: seq<Doc>, p: Payment, l: Allocation.Line) {
    l.amount > 0 && l.target < |docs| && docs[l.target].confirmed && docs[l.target].side == p.side && docs[l.target].party == p.party
  }

  predicate BooksOk(b: Books) {
    && (forall d :: 0 <= d < |b.docs| ==> Conserved(b, d))
    && (forall p :: 0 <= p < |b.pays| ==> WellPlanned(b.docs, b.pays[p]))
  }
}
