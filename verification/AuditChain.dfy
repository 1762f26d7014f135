/** The per-tenant audit chain under concurrent transactions (packages/db/src/audit-chain.ts): an advisory lock held
    to the end of the transaction, then the newest row is read, then the next one is inserted. */
module AuditChain {
  import opened OptionType
  import opened HashChain

  /** What is hashed: `auditRowPreimage` covers the tenant, too. */
  datatype Core = Core(tenant: nat, actor: string, action: string, detail: string, createdAtMs: int)

  /** `id` is the serial the database gives out at insertion. */
  datatype AuditRow = AuditRow(id: nat, tenant: nat, link: Linked<Core>)

  /** A tenant's transaction: its own uncommitted rows, and the tip it read for the append under way. */
  datatype Txn = Txn(tenant: nat, open: bool, locked: bool, mine: seq<AuditRow>, tip: Option<string>)

  datatype Sys = Sys(rows: seq<AuditRow>, txns: seq<Txn>, nextId: nat)

  datatype Step = Begin(tenant: nat) | Go(t: nat, act: Act)

  datatype Act = Lock | ReadTip | Insert(core: Core) | Commit | Rollback

  function Of(rows: seq<AuditRow>, tenant: nat): seq<AuditRow> {
    if rows == [] then []
    else Of(rows[..|rows|-1], tenant) + if rows[|rows|-1].tenant == tenant then [rows[|rows|-1]] else []
  }

  /** `ORDER BY id DESC LIMIT 1`. */
  function Latest(rows: seq<AuditRow>): Option<AuditRow> {
    if rows == [] then None
    else
      var l := Latest(rows[..|rows|-1]);
      if l.Some? && l.value.id > rows[|rows|-1].id then l else Some(rows[|rows|-1])
  }

  /** The lock is free, or already this transaction's. */
  predicate LockFree(y: Sys, t: nat)
    requires t < |y.txns|
  {
    forall u :: 0 <= u < |y.txns| && u != t && y.txns[u].tenant == y.txns[t].tenant ==> !(y.txns[u].open && y.txns[u].locked)
  }

  /** A transaction sees what is committed and its own rows. */
  function Move(hash: (string, Core) -> string, y: Sys, act: Act, t: nat): Sys
    requires t < |y.txns|
  {
    var txn := y.txns[t];
    if !txn.open then y
    else match act
      case Lock => if LockFree(y, t) then y.(txns := y.txns[t := txn.(locked := true, tip := None)]) else y
      case ReadTip =>
        if txn.locked then
          var l := Latest(Of(y.rows, txn.tenant) + txn.mine);
          y.(txns := y.txns[t := txn.(tip := Some(if l.Some? then l.value.link.hash else GENESIS))])
        else y
      case Insert(core) =>
        if txn.locked && txn.tip.Some? && core.tenant == txn.tenant then
          var row := AuditRow(y.nextId, txn.tenant, Linked(core, txn.tip.value, hash(txn.tip.value, core)));
          y.(txns := y.txns[t := txn.(mine := txn.mine + [row], tip := None)], nextId := y.nextId + 1)
        else y
      case Commit => y.(rows := y.rows + txn.mine, txns := y.txns[t := txn.(open := false)])
      case Rollback => y.(txns := y.txns[t := txn.(open := false)])
  }

  function Apply(hash: (string, Core) -> string, y: Sys, m: Step): Sys {
    match m
    case Begin(tenant) => y.(txns := y.txns + [Txn(tenant, true, false, [], None)])
    case Go(t, act) => if t < |y.txns| then Move(hash, y, act, t) else y
  }

  ghost predicate IsHistory(hash: (string, Core) -> string, steps: seq<Step>, ys: seq<Sys>) {
    |ys| == |steps| + 1 && ys[0] == Sys([], [], 0) && forall i :: 0 <= i < |steps| ==> ys[i+1] == Apply(hash, ys[i], steps[i])
  }

  // ---------------------------------------------------------------- the invariant

  function LinksOf(rows: seq<AuditRow>): (ls: seq<Linked<Core>>)
    ensures |ls| == |rows|
  {
    seq(|rows|, i requires 0 <= i < |rows| => rows[i].link)
  }

  /** In the order they stand, ids grow and the links form one chain from the root. */
  predicate Ordered(hash: (string, Core) -> string, rows: seq<AuditRow>, below: nat) {
    && (forall i, j :: 0 <= i < j < |rows| ==> rows[i].id < rows[j].id)
    && (forall i :: 0 <= i < |rows| ==> rows[i].id < below)
    && Chained(hash, GENESIS, LinksOf(rows))
  }

  /** A tenant's committed rows are in order, and stay so with the rows of whoever holds the lock. */
  predicate TxnOk(hash: (string, Core) -> string, y: Sys, t: nat)
    requires t < |y.txns|
  {
    var txn := y.txns[t];
    && (forall i :: 0 <= i < |txn.mine| ==> txn.mine[i].tenant == txn.tenant)
    && (txn.mine != [] ==> txn.locked)
    && (txn.tip.Some? ==> txn.locked)
    && (txn.open && txn.locked ==>
          && Ordered(hash, Of(y.rows, txn.tenant) + txn.mine, y.nextId)
          && (txn.tip.Some? ==> txn.tip.value == Head(GENESIS, LinksOf(Of(y.rows, txn.tenant) + txn.mine))))
  }

  ghost predicate Inv(hash: (string, Core) -> string, y: Sys) {
    && (forall tenant :: Ordered(hash, Of(y.rows, tenant), y.nextId))
    && (forall t :: 0 <= t < |y.txns| ==> TxnOk(hash, y, t))
    && (forall t, u :: 0 <= t < u < |y.txns| && y.txns[t].tenant == y.txns[u].tenant ==>
          !(y.txns[t].open && y.txns[t].locked && y.txns[u].open && y.txns[u].locked))
  }

  lemma {:induction false} OfAppend(rows: seq<AuditRow>, mine: seq<AuditRow>, owner: nat, tenant: nat)
    requires forall i :: 0 <= i < |mine| ==> mine[i].tenant == owner
    ensures Of(rows + mine, tenant) == Of(rows, tenant) + if tenant == owner then mine else []
    decreases |mine|
  {
    if mine == [] { assert rows + mine == rows; }
    else {
      OfAppend(rows, mine[..|mine|-1], owner, tenant);
      assert (rows + mine)[..|rows + mine|-1] == rows + mine[..|mine|-1];
    }
  }

  lemma {:induction false} LatestIsLast(rows: seq<AuditRow>)
    requires forall i, j :: 0 <= i < j < |rows| ==> rows[i].id < rows[j].id
    ensures Latest(rows) == if rows == [] then None else Some(rows[|rows|-1])
  {
    if rows != [] { LatestIsLast(rows[..|rows|-1]); }
  }

  lemma OrderedLater(hash: (string, Core) -> string, rows: seq<AuditRow>, below: nat, below': nat)
    requires Ordered(hash, rows, below) && below <= below'
    ensures Ordered(hash, rows, below')
  {
  }

  /** The next row fits when it is built on the tip under the lock. */
  lemma OrderedNext(hash: (string, Core) -> string, rows: seq<AuditRow>, below: nat, row: AuditRow)
    requires Ordered(hash, rows, below) && row.id == below
    requires LinkOk(hash, Head(GENESIS, LinksOf(rows)), row.link)
    ensures Ordered(hash, rows + [row], below + 1)
  {
    ChainedSnoc(hash, GENESIS, LinksOf(rows), row.link);
    assert LinksOf(rows + [row]) == LinksOf(rows) + [row.link];
  }

  lemma OtherTxn(hash: (string, Core) -> string, y: Sys, y': Sys, u: nat)
    requires u < |y.txns| && u < |y'.txns| && y'.txns[u] == y.txns[u] && TxnOk(hash, y, u) && y.nextId <= y'.nextId
    requires y.txns[u].open && y.txns[u].locked ==> Of(y'.rows, y.txns[u].tenant) == Of(y.rows, y.txns[u].tenant)
    ensures TxnOk(hash, y', u)
  {
    hide Chained;
    if y.txns[u].open && y.txns[u].locked { OrderedLater(hash, Of(y.rows, y.txns[u].tenant) + y.txns[u].mine, y.nextId, y'.nextId); }
  }

  lemma MoveKeeps(hash: (string, Core) -> string, y: Sys, act: Act, t: nat)
    requires Inv(hash, y) && t < |y.txns|
    ensures Inv(hash, Move(hash, y, act, t))
  {
    hide Ordered;
    var y', txn := Move(hash, y, act, t), y.txns[t];
    assert TxnOk(hash, y, t);
    forall tenant ensures Ordered(hash, Of(y'.rows, tenant), y'.nextId) {
      OrderedLater(hash, Of(y.rows, tenant), y.nextId, y'.nextId);
      if act.Commit? && txn.open {
        OfAppend(y.rows, txn.mine, txn.tenant, tenant);
        assert Of(y.rows, tenant) + [] == Of(y.rows, tenant);
        assert txn.mine == [] ==> Of(y.rows, tenant) + txn.mine == Of(y.rows, tenant);
      }
    }
    forall u | 0 <= u < |y'.txns| && u != t ensures TxnOk(hash, y', u) {
      if act.Commit? && txn.open {
        OfAppend(y.rows, txn.mine, txn.tenant, y.txns[u].tenant);
        assert Of(y.rows, y.txns[u].tenant) + [] == Of(y.rows, y.txns[u].tenant);
        if txn.tenant == y.txns[u].tenant && txn.mine == [] { assert Of(y.rows, txn.tenant) + txn.mine == Of(y.rows, txn.tenant); }
      }
      OtherTxn(hash, y, y', u);
    }
    if txn.open { OwnTxn(hash, y, act, t); }
  }

  lemma OwnTxn(hash: (string, Core) -> string, y: Sys, act: Act, t: nat)
    requires Inv(hash, y) && t < |y.txns| && y.txns[t].open
    ensures TxnOk(hash, Move(hash, y, act, t), t)
  {
    hide Chained, Of;
    var txn := y.txns[t];
    assert TxnOk(hash, y, t);
    var seen := Of(y.rows, txn.tenant) + txn.mine;
    match act
    case Lock => if txn.mine == [] { assert seen == Of(y.rows, txn.tenant); }
    case ReadTip => if txn.locked { LatestIsLast(seen); }
    case Insert(core) =>
      if txn.locked && txn.tip.Some? && core.tenant == txn.tenant {
        var row := AuditRow(y.nextId, txn.tenant, Linked(core, txn.tip.value, hash(txn.tip.value, core)));
        OrderedNext(hash, seen, y.nextId, row);
        assert Of(y.rows, txn.tenant) + (txn.mine + [row]) == seen + [row];
      }
    case _ =>
  }

  lemma BeginKeeps(hash: (string, Core) -> string, y: Sys, tenant: nat)
    requires Inv(hash, y)
    ensures Inv(hash, Apply(hash, y, Begin(tenant)))
  {
    hide Ordered;
    var y' := Apply(hash, y, Begin(tenant));
    forall u | 0 <= u < |y'.txns| ensures TxnOk(hash, y', u) { if u < |y.txns| { OtherTxn(hash, y, y', u); } }
  }

  lemma {:induction false} HistoryKeeps(hash: (string, Core) -> string, steps: seq<Step>, ys: seq<Sys>, k: nat)
    requires IsHistory(hash, steps, ys) && k <= |steps|
    ensures Inv(hash, ys[k])
  {
    hide Inv, Move;
    if k == 0 { assert Inv(hash, Sys([], [], 0)) by { EmptyOk(hash); } }
    else {
      HistoryKeeps(hash, steps, ys, k - 1);
      match steps[k-1]
      case Begin(tenant) => BeginKeeps(hash, ys[k-1], tenant);
      case Go(t, act) => if t < |ys[k-1].txns| { MoveKeeps(hash, ys[k-1], act, t); }
    }
  }

  lemma EmptyOk(hash: (string, Core) -> string)
    ensures Inv(hash, Sys([], [], 0))
  {
  }

  /** However appending transactions overlap and whichever roll back, each tenant's rows in id order are one chain
      from the root, with no predecessor shared while the tenant's own rows hold no hash collision. */
  lemma Unforked(hash: (string, Core) -> string, steps: seq<Step>, ys: seq<Sys>, y: Sys, tenant: nat, rows: seq<AuditRow>)
    requires IsHistory(hash, steps, ys) && y == ys[|steps|] && rows == Of(y.rows, tenant)
    ensures Chained(hash, GENESIS, LinksOf(rows))
    ensures forall i, j :: 0 <= i < j < |rows| ==> rows[i].id < rows[j].id
    ensures Apart(hash, LinksOf(rows)) ==> forall i, j :: 0 <= i < j < |rows| ==> rows[i].link.prev != rows[j].link.prev
  {
    hide IsHistory, Apart;
    HistoryKeeps(hash, steps, ys, |steps|);
    assert Ordered(hash, rows, y.nextId);
    if Apart(hash, LinksOf(rows)) {
      forall i, j | 0 <= i < j < |rows| ensures rows[i].link.prev != rows[j].link.prev { NoFork(hash, LinksOf(rows), i, j); }
    }
  }

  // ---------------------------------------------------------------- one append

  class AuditLog {
    const hash: (string, Core) -> string
    var rows: seq<AuditRow>
    var nextId: nat

    constructor (hash: (string, Core) -> string)
      ensures this.hash == hash && rows == [] && nextId == 0
    {
      this.hash, rows, nextId := hash, [], 0;
    }

    /** `appendAudit` with the tenant's lock held. */
    method AppendAudit(core: Core) returns (rowHash: string)
      requires Ordered(hash, Of(rows, core.tenant), nextId)
      modifies this
      ensures Of(rows, core.tenant) == old(Of(rows, core.tenant)) + [AuditRow(old(nextId), core.tenant, Linked(core, Head(GENESIS, LinksOf(old(Of(rows, core.tenant)))), rowHash))]
      ensures rows[..|rows|-1] == old(rows) && nextId == old(nextId) + 1
      ensures Ordered(hash, Of(rows, core.tenant), nextId)
    {
      hide Chained;
      var mine := Of(rows, core.tenant);
      LatestIsLast(mine);
      var tip := Latest(mine);
      var prev := if tip.Some? then tip.value.link.hash else GENESIS;
      rowHash := hash(prev, core);
      var row := AuditRow(nextId, core.tenant, Linked(core, prev, rowHash));
      OrderedNext(hash, mine, nextId, row);
      OfAppend(rows, [row], core.tenant, core.tenant);
      rows, nextId := rows + [row], nextId + 1;
    }
  }
}
