/** Claim-first idempotency under concurrency (packages/mcp-ledger/src/idempotency-store.ts and
    packages/shared/src/idempotency/idempotency.ts). A key stands for (tenant, scope, client key). */
module Idempotency {
  import opened OptionType

  /** What a tool returns; the placeholder is the object without fields, which no tool body returns. */
  datatype Result = Placeholder | Returned(text: string)

  /** A key's row: inserted by a transaction that is still open, or committed. */
  datatype Row = Row(result: Result, owner: Option<nat>)

  datatype Reply = Reply(result: Result, replay: bool)

  // ---------------------------------------------------------------- one transaction, undisturbed

  /** The store as one transaction sees it. */
  class Store {
    var keys: map<nat, Result>

    method Load(key: nat) returns (r: Option<Result>)
      ensures r == if key in keys then Some(keys[key]) else None
    {
      if key in keys { return Some(keys[key]); }
      return None;
    }

    /** INSERT .. ON CONFLICT DO NOTHING: true when the placeholder went in. */
    method Claim(key: nat) returns (won: bool)
      modifies this
      ensures won == (key !in old(keys)) && keys == if won then old(keys)[key := Placeholder] else old(keys)
    {
      won := key !in keys;
      if won { keys := keys[key := Placeholder]; }
    }

    method Finalize(key: nat, result: Result)
      requires key in keys
      modifies this
      ensures keys == old(keys)[key := result]
    {
      keys := keys[key := result];
    }

    /** The body runs exactly when its key was never seen, and then its result is what every later call gets. */
    method WithIdempotency(key: Option<nat>, produced: Result) returns (reply: Reply, ran: bool)
      modifies this
      ensures ran <==> key.None? || key.value !in old(keys)
      ensures ran ==> reply == Reply(produced, false)
      ensures !ran ==> reply == Reply(old(keys)[key.value], true)
      ensures keys == if ran && key.Some? then old(keys)[key.value := produced] else old(keys)
    {
      if key.None? { return Reply(produced, false), true; }
      var seen := Load(key.value);
      if seen.Some? && seen.value != Placeholder { return Reply(seen.value, true), false; }
      var won := Claim(key.value);
      if !won {
        var winner := Load(key.value);
        return Reply(if winner.Some? then winner.value else Placeholder, true), false;
      }
      Finalize(key.value, produced);
      return Reply(produced, false), true;
    }
  }

  // ---------------------------------------------------------------- concurrent transactions

  /** Where a call stands: before its first look, before its claim, as the winner before and after its body and with
      its result stored, as a loser, with a reply it has not committed, with one it has, or rolled back. */
  datatype Phase =
    | Fresh | Claiming | Won | Produced(result: Result) | Stored(result: Result)
    | Lost | Replying(reply: Reply) | Done(reply: Reply) | RolledBack

  datatype Txn = Txn(key: nat, phase: Phase)

  /** `effects` lists, per committed body, the transaction that ran it. */
  datatype Sys = Sys(rows: map<nat, Row>, txns: seq<Txn>, effects: seq<nat>)

  datatype Step = Call(key: nat) | Go(t: nat, act: Act)

  datatype Act = Look | Claim | Produce(result: Result) | Finalize | LookAgain | Commit | Rollback

  predicate Committed(rows: map<nat, Row>, key: nat) { key in rows && rows[key].owner.None? }

  function SetPhase(y: Sys, t: nat, phase: Phase): Sys
    requires t < |y.txns|
  {
    y.(txns := y.txns[t := y.txns[t].(phase := phase)])
  }

  /** A committed row is visible to everyone, an open one to its own transaction only; a claim that meets an open
      row waits on the unique index (no change) until that transaction ends. */
  function Move(y: Sys, act: Act, t: nat): Sys
    requires t < |y.txns|
  {
    var txn := y.txns[t];
    match act
    case Look =>
      if !txn.phase.Fresh? then y
      else if Committed(y.rows, txn.key) && y.rows[txn.key].result != Placeholder
      then SetPhase(y, t, Replying(Reply(y.rows[txn.key].result, true)))
      else SetPhase(y, t, Claiming)
    case Claim =>
      if !txn.phase.Claiming? then y
      else if txn.key !in y.rows then SetPhase(y.(rows := y.rows[txn.key := Row(Placeholder, Some(t))]), t, Won)
      else if y.rows[txn.key].owner.None? then SetPhase(y, t, Lost)
      else y
    case Produce(result) => if txn.phase.Won? && result != Placeholder then SetPhase(y, t, Produced(result)) else y
    case Finalize =>
      if txn.phase.Produced? && txn.key in y.rows
      then SetPhase(y.(rows := y.rows[txn.key := y.rows[txn.key].(result := txn.phase.result)]), t, Stored(txn.phase.result)) else y
    case LookAgain =>
      if txn.phase.Lost? then
        SetPhase(y, t, Replying(Reply(if Committed(y.rows, txn.key) then y.rows[txn.key].result else Placeholder, true)))
      else y
    case Commit =>
      if txn.phase.Stored? && txn.key in y.rows then
        SetPhase(y.(rows := y.rows[txn.key := y.rows[txn.key].(owner := None)], effects := y.effects + [t]), t, Done(Reply(txn.phase.result, false)))
      else if txn.phase.Replying? then SetPhase(y, t, Done(txn.phase.reply))
      else y
    case Rollback =>
      if txn.phase.Done? || txn.phase.RolledBack? then y
      else
        var rows := if txn.key in y.rows && y.rows[txn.key].owner == Some(t) then y.rows - {txn.key} else y.rows;
        SetPhase(y.(rows := rows), t, RolledBack)
  }

  function Apply(y: Sys, m: Step): Sys {
    match m
    case Call(key) => y.(txns := y.txns + [Txn(key, Fresh)])
    case Go(t, act) => if t < |y.txns| then Move(y, act, t) else y
  }

  ghost predicate IsHistory(steps: seq<Step>, ys: seq<Sys>) {
    |ys| == |steps| + 1 && ys[0] == Sys(map[], [], []) && forall i :: 0 <= i < |steps| ==> ys[i+1] == Apply(ys[i], steps[i])
  }

  // ---------------------------------------------------------------- the invariant

  predicate Holder(p: Phase) { p.Won? || p.Produced? || p.Stored? }

  /** What transaction `t`'s phase says about its key's row. */
  predicate TxnOk(y: Sys, t: nat)
    requires t < |y.txns|
  {
    var txn := y.txns[t];
    && (Holder(txn.phase) <==> txn.key in y.rows && y.rows[txn.key].owner == Some(t))
    && (txn.phase.Produced? ==> txn.phase.result != Placeholder)
    && (txn.phase.Stored? ==> txn.key in y.rows && y.rows[txn.key].result == txn.phase.result != Placeholder)
    && (txn.phase.Lost? ==> Committed(y.rows, txn.key))
    && (txn.phase.Replying? ==> Committed(y.rows, txn.key) && txn.phase.reply == Reply(y.rows[txn.key].result, true))
    && (txn.phase.Done? ==> Committed(y.rows, txn.key) && txn.phase.reply.result == y.rows[txn.key].result)
  }

  /** A committed row is some finished transaction's, which ran the body and is listed once. */
  predicate RowOk(y: Sys, key: nat)
    requires key in y.rows
  {
    match y.rows[key].owner
    case Some(t) => t < |y.txns| && y.txns[t].key == key
    case None => y.rows[key].result != Placeholder && exists i :: 0 <= i < |y.effects| && EffectOf(y, i, key)
  }

  /** Effect `i` belongs to a committed call with this key that was no replay. */
  predicate EffectOf(y: Sys, i: int, key: nat)
    requires 0 <= i < |y.effects|
  {
    var t := y.effects[i];
    t < |y.txns| && y.txns[t].key == key && y.txns[t].phase.Done? && !y.txns[t].phase.reply.replay
  }

  predicate EffectsOk(y: Sys) {
    && (forall i :: 0 <= i < |y.effects| ==>
          y.effects[i] < |y.txns| && EffectOf(y, i, y.txns[y.effects[i]].key) && Committed(y.rows, y.txns[y.effects[i]].key))
    && (forall i, j :: 0 <= i < j < |y.effects| && y.effects[i] < |y.txns| && y.effects[j] < |y.txns| ==>
          y.txns[y.effects[i]].key != y.txns[y.effects[j]].key)
    && (forall t :: 0 <= t < |y.txns| && y.txns[t].phase.Done? && !y.txns[t].phase.reply.replay ==> t in y.effects)
  }

  predicate Inv(y: Sys) {
    && (forall t :: 0 <= t < |y.txns| ==> TxnOk(y, t))
    && (forall key :: key in y.rows ==> RowOk(y, key))
    && EffectsOk(y)
  }

  /** `t` touched at most its own open row: it inserted, changed, committed or removed it. */
  ghost predicate OwnRow(rows: map<nat, Row>, rows': map<nat, Row>, t: nat, key: nat) {
    && (forall k :: k != key ==> (k in rows <==> k in rows') && (k in rows ==> rows'[k] == rows[k]))
    && (rows == rows' || ((key in rows ==> rows[key].owner == Some(t)) && (key in rows' ==> rows'[key].owner == Some(t) || rows'[key].owner == None)))
  }

  lemma TxnStays(y: Sys, y': Sys, u: nat, t: nat)
    requires u != t && u < |y.txns| && t < |y.txns| && |y'.txns| == |y.txns| && y'.txns[u] == y.txns[u] && TxnOk(y, u)
    requires OwnRow(y.rows, y'.rows, t, y.txns[t].key)
    ensures TxnOk(y', u)
  {
  }

  lemma RowStays(y: Sys, y': Sys, t: nat, key: nat)
    requires key in y.rows && RowOk(y, key) && t < |y.txns| && !y.txns[t].phase.Done?
    requires |y'.txns| == |y.txns| && y'.txns == y.txns[t := y'.txns[t]] && y'.txns[t].key == y.txns[t].key && y.effects <= y'.effects
    requires key in y'.rows && y'.rows[key] == y.rows[key]
    ensures RowOk(y', key)
  {
    if y.rows[key].owner.None? {
      var i :| 0 <= i < |y.effects| && EffectOf(y, i, key);
      assert EffectOf(y', i, key);
    }
  }

  /** A move that runs no body to its end keeps everything. */
  lemma Stays(y: Sys, y': Sys, t: nat)
    requires Inv(y) && t < |y.txns| && !y.txns[t].phase.Done?
    requires |y'.txns| == |y.txns| && y'.txns == y.txns[t := y'.txns[t]] && y'.txns[t].key == y.txns[t].key && y'.effects == y.effects
    requires y'.txns[t].phase.Done? ==> y'.txns[t].phase.reply.replay
    requires OwnRow(y.rows, y'.rows, t, y.txns[t].key) && TxnOk(y', t)
    requires y.txns[t].key in y'.rows && y'.rows != y.rows ==> y'.rows[y.txns[t].key].owner == Some(t)
    ensures Inv(y')
  {
    hide TxnOk, RowOk;
    forall u | 0 <= u < |y'.txns| ensures TxnOk(y', u) { if u != t { TxnStays(y, y', u, t); } }
    forall key | key in y'.rows ensures RowOk(y', key) {
      if key in y.rows && y'.rows[key] == y.rows[key] { RowStays(y, y', t, key); }
      else { OwnedOk(y', t, key); }
    }
    EffectsStay(y, y', t);
  }

  lemma OwnedOk(y: Sys, t: nat, key: nat)
    requires key in y.rows && y.rows[key].owner == Some(t) && t < |y.txns| && y.txns[t].key == key
    ensures RowOk(y, key)
  {
  }

  lemma EffectsStay(y: Sys, y': Sys, t: nat)
    requires EffectsOk(y) && t < |y.txns| && !y.txns[t].phase.Done?
    requires |y'.txns| == |y.txns| && y'.txns == y.txns[t := y'.txns[t]] && y'.txns[t].key == y.txns[t].key && y'.effects == y.effects
    requires y'.txns[t].phase.Done? ==> y'.txns[t].phase.reply.replay
    requires OwnRow(y.rows, y'.rows, t, y.txns[t].key)
    ensures EffectsOk(y')
  {
    forall i | 0 <= i < |y'.effects|
      ensures y'.effects[i] < |y'.txns| && EffectOf(y', i, y'.txns[y'.effects[i]].key) && Committed(y'.rows, y'.txns[y'.effects[i]].key)
    {
      assert EffectOf(y, i, y.txns[y.effects[i]].key);
    }
  }

  lemma MoveKeeps(y: Sys, act: Act, t: nat)
    requires Inv(y) && t < |y.txns| && !(act.Commit? && y.txns[t].phase.Stored?)
    ensures Inv(Move(y, act, t))
  {
    hide RowOk, EffectsOk;
    var y' := Move(y, act, t);
    assert TxnOk(y, t);
    if y' != y { Stays(y, y', t); }
  }

  /** The winner's commit: its row becomes everyone's, and its body's effects are there, once. */
  lemma CommitKeeps(y: Sys, t: nat)
    requires Inv(y) && t < |y.txns| && y.txns[t].phase.Stored?
    ensures Inv(Move(y, Commit, t))
  {
    hide TxnOk, EffectsOk;
    var y', k := Move(y, Commit, t), y.txns[t].key;
    HolderRow(y, t);
    forall u | 0 <= u < |y'.txns| ensures TxnOk(y', u) {
      if u != t { TxnStays(y, y', u, t); } else { DoneOk(y', t); }
    }
    assert EffectOf(y', |y.effects|, k);
    forall key | key in y'.rows ensures RowOk(y', key) { if key != k { RowStays(y, y', t, key); } }
    CommitEffects(y, t);
  }

  lemma CommitEffects(y: Sys, t: nat)
    requires EffectsOk(y) && t < |y.txns| && y.txns[t].phase.Stored?
    requires y.txns[t].key in y.rows && y.rows[y.txns[t].key].owner == Some(t)
    ensures EffectsOk(Move(y, Commit, t))
  {
    var y', k, n := Move(y, Commit, t), y.txns[t].key, |y.effects|;
    forall i | 0 <= i < |y'.effects|
      ensures y'.effects[i] < |y'.txns| && EffectOf(y', i, y'.txns[y'.effects[i]].key) && Committed(y'.rows, y'.txns[y'.effects[i]].key)
      ensures i < n ==> y'.txns[y'.effects[i]].key != k
    {
      if i < n { assert EffectOf(y, i, y.txns[y.effects[i]].key); }
    }
    forall u | 0 <= u < |y'.txns| && y'.txns[u].phase.Done? && !y'.txns[u].phase.reply.replay ensures u in y'.effects {
      if u != t { assert u in y.effects; } else { assert y'.effects[n] == t; }
    }
  }

  lemma HolderRow(y: Sys, t: nat)
    requires t < |y.txns| && TxnOk(y, t) && y.txns[t].phase.Stored?
    ensures y.txns[t].key in y.rows && y.rows[y.txns[t].key] == Row(y.txns[t].phase.result, Some(t)) && y.txns[t].phase.result != Placeholder
  {
  }

  lemma DoneOk(y: Sys, t: nat)
    requires t < |y.txns| && y.txns[t].phase.Done? && Committed(y.rows, y.txns[t].key)
    requires y.rows[y.txns[t].key].result == y.txns[t].phase.reply.result
    ensures TxnOk(y, t)
  {
  }

  lemma CallKeeps(y: Sys, key: nat)
    requires Inv(y)
    ensures Inv(Apply(y, Call(key)))
  {
    var y' := Apply(y, Call(key));
    forall u | 0 <= u < |y'.txns| ensures TxnOk(y', u) {
      if u < |y.txns| { assert TxnOk(y, u); }
      else if key in y.rows { assert RowOk(y, key); }
    }
    forall k | k in y'.rows ensures RowOk(y', k) {
      assert RowOk(y, k);
      if y.rows[k].owner.None? {
        var i :| 0 <= i < |y.effects| && EffectOf(y, i, k);
        assert EffectOf(y', i, k);
      }
    }
    forall i | 0 <= i < |y'.effects| ensures EffectOf(y', i, y'.txns[y'.effects[i]].key) {
      assert EffectOf(y, i, y.txns[y.effects[i]].key);
    }
  }

  lemma {:induction false} HistoryKeeps(steps: seq<Step>, ys: seq<Sys>, k: nat)
    requires IsHistory(steps, ys) && k <= |steps|
    ensures Inv(ys[k])
  {
    hide Inv, Move;
    if k == 0 { assert Inv(Sys(map[], [], [])) by { Nothing(); } }
    else {
      HistoryKeeps(steps, ys, k - 1);
      var y, m := ys[k-1], steps[k-1];
      match m
      case Call(key) => CallKeeps(y, key);
      case Go(t, act) =>
        if t < |y.txns| {
          if act.Commit? && y.txns[t].phase.Stored? { CommitKeeps(y, t); } else { MoveKeeps(y, act, t); }
        }
    }
  }

  lemma Nothing()
    ensures Inv(Sys(map[], [], []))
  {
  }

  // ---------------------------------------------------------------- exactly once

  /** Of all calls with one key, however they overlap and whichever roll back, at most one body's effects are
      committed - exactly one once the key is; every committed call returned that body's result, marked as a replay
      unless it ran the body itself; and nobody ever returned the placeholder. */
  lemma ExactlyOnce(steps: seq<Step>, ys: seq<Sys>, y: Sys)
    requires IsHistory(steps, ys) && y == ys[|steps|]
    ensures forall i, j :: 0 <= i < j < |y.effects| && y.effects[i] < |y.txns| && y.effects[j] < |y.txns| ==>
      y.txns[y.effects[i]].key != y.txns[y.effects[j]].key
    ensures forall key :: Committed(y.rows, key) <==> exists i :: 0 <= i < |y.effects| && EffectOf(y, i, key)
    ensures forall t :: 0 <= t < |y.txns| && y.txns[t].phase.Done? ==>
      && Committed(y.rows, y.txns[t].key)
      && y.txns[t].phase.reply.result == y.rows[y.txns[t].key].result != Placeholder
      && (y.txns[t].phase.reply.replay <==> t !in y.effects)
  {
    hide IsHistory;
    HistoryKeeps(steps, ys, |steps|);
    forall key ensures Committed(y.rows, key) <==> exists i :: 0 <= i < |y.effects| && EffectOf(y, i, key) {
      if key in y.rows { assert RowOk(y, key); }
      if i :| 0 <= i < |y.effects| && EffectOf(y, i, key) { assert Committed(y.rows, y.txns[y.effects[i]].key); }
    }
    forall t | 0 <= t < |y.txns| && y.txns[t].phase.Done?
      ensures Committed(y.rows, y.txns[t].key)
      ensures y.txns[t].phase.reply.result == y.rows[y.txns[t].key].result != Placeholder
      ensures y.txns[t].phase.reply.replay <==> t !in y.effects
    {
      assert TxnOk(y, t) && RowOk(y, y.txns[t].key);
      if t in y.effects {
        var i :| 0 <= i < |y.effects| && y.effects[i] == t;
        assert EffectOf(y, i, y.txns[t].key);
      }
    }
  }

  /** A claim waits only for a transaction that is still open; when that one ends, the claim decides. */
  lemma ClaimWaits(steps: seq<Step>, ys: seq<Sys>, y: Sys, t: nat)
    requires IsHistory(steps, ys) && y == ys[|steps|] && t < |y.txns| && y.txns[t].phase.Claiming?
    ensures Move(y, Claim, t) == y <==> exists u :: 0 <= u < |y.txns| && u != t && y.txns[u].key == y.txns[t].key && Holder(y.txns[u].phase)
  {
    hide IsHistory;
    HistoryKeeps(steps, ys, |steps|);
    assert TxnOk(y, t);
    var k := y.txns[t].key;
    if k in y.rows {
      assert RowOk(y, k);
      if y.rows[k].owner.Some? { assert TxnOk(y, y.rows[k].owner.value); }
    }
    if u :| 0 <= u < |y.txns| && u != t && y.txns[u].key == k && Holder(y.txns[u].phase) { assert TxnOk(y, u); }
  }
}
