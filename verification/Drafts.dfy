/** The life of a draft when corrections and confirmations race for it (packages/mcp-ledger/src/tools.ts,
    owner-approval.ts). Each transaction locks the draft's row before it decides; times are the database clock,
    which is the start of the transaction. */
module Drafts {
  import opened OptionType

  datatype Kind = Sale | Expense

  datatype Status = Draft | Confirmed | Superseded

  /** `replacedBy` and `confirmedBy` are no columns: which entry replaced it, which transaction confirmed it. */
  datatype Entry = Entry(kind: Kind, createdAt: int, status: Status, replacedBy: Option<nat>, confirmedBy: Option<nat>)

  /** `record_sale`/`record_expense`, correcting a draft or not, and `confirm_entry`. */
  datatype Job = Recording(kind: Kind, corrects: Option<nat>) | Confirming(kind: Kind, id: nat)

  /** Begun; past its SELECT .. FOR UPDATE with the row locked, or with no row to lock; committed; ended without effect. */
  datatype Phase = Begun | Holding(id: nat) | Unlocked | Finished | Gone

  /** `known` is how many entries there were when it looked. */
  datatype Txn = Txn(startedAt: int, job: Job, phase: Phase, known: nat)

  /** `window` is how long an approval counts. */
  datatype Sys = Sys(now: int, entries: seq<Entry>, approvals: seq<int>, txns: seq<Txn>, window: nat)

  datatype Step = Wait(secs: nat) | Approve | Start(job: Job) | Go(t: nat, act: Act)

  datatype Act = Select | Commit | Rollback

  predicate LockedByOther(y: Sys, t: nat, id: nat) {
    exists u :: 0 <= u < |y.txns| && u != t && y.txns[u].phase == Holding(id)
  }

  predicate IsDraft(y: Sys, kind: Kind, id: nat) {
    id < |y.entries| && y.entries[id].kind == kind && y.entries[id].status == Draft
  }

  /** An approval newer than the draft and not older than the window. */
  predicate ApprovedAfter(approvals: seq<int>, createdAt: int, asOf: int, window: nat) {
    exists i :: 0 <= i < |approvals| && approvals[i] > createdAt && approvals[i] > asOf - window
  }

  function SetPhase(y: Sys, t: nat, phase: Phase): Sys
    requires t < |y.txns|
  {
    y.(txns := y.txns[t := y.txns[t].(phase := phase)])
  }

  function Looked(y: Sys, t: nat, phase: Phase): Sys
    requires t < |y.txns|
  {
    y.(txns := y.txns[t := y.txns[t].(phase := phase, known := |y.entries|)])
  }

  /** The locking read waits while another transaction holds the row; a draft that may not be confirmed yet and a
      correction of something that is no draft end here. */
  function Selected(y: Sys, t: nat): Sys
    requires t < |y.txns|
  {
    match y.txns[t].job
    case Recording(kind, corrects) =>
      if corrects.None? then Looked(y, t, Unlocked)
      else if LockedByOther(y, t, corrects.value) then y
      else Looked(y, t, if IsDraft(y, kind, corrects.value) then Holding(corrects.value) else Gone)
    case Confirming(kind, id) =>
      if LockedByOther(y, t, id) then y
      else if !IsDraft(y, kind, id) then Looked(y, t, Unlocked)
      else Looked(y, t, if ApprovedAfter(y.approvals, y.entries[id].createdAt, y.txns[t].startedAt, y.window) then Holding(id) else Gone)
  }

  /** The writes, all at once when the transaction commits. The confirming UPDATE has its own `status = 'draft'`. */
  function Committed(y: Sys, t: nat): Sys
    requires t < |y.txns| && (y.txns[t].phase.Holding? ==> y.txns[t].phase.id < |y.entries|)
  {
    var txn := y.txns[t];
    match txn.job
    case Recording(kind, _) =>
      var drafted := Entry(kind, txn.startedAt, Draft, None, None);
      var kept := if txn.phase.Holding?
        then y.entries[txn.phase.id := y.entries[txn.phase.id].(status := Superseded, replacedBy := Some(|y.entries|))] else y.entries;
      SetPhase(y.(entries := kept + [drafted]), t, Finished)
    case Confirming(kind, id) =>
      if LockedByOther(y, t, id) then y
      else if IsDraft(y, kind, id) then
        SetPhase(y.(entries := y.entries[id := y.entries[id].(status := Confirmed, confirmedBy := Some(t))]), t, Finished)
      else SetPhase(y, t, Gone)
  }

  function Apply(y: Sys, m: Step): Sys {
    match m
    case Wait(secs) => y.(now := y.now + secs)
    case Approve => y.(approvals := y.approvals + [y.now])
    case Start(job) => y.(txns := y.txns + [Txn(y.now, job, Begun, 0)])
    case Go(t, act) =>
      if t >= |y.txns| then y
      else match act
        case Select => if y.txns[t].phase.Begun? then Selected(y, t) else y
        case Commit =>
          if y.txns[t].phase.Unlocked? || (y.txns[t].phase.Holding? && y.txns[t].phase.id < |y.entries|) then Committed(y, t) else y
        case Rollback => if y.txns[t].phase.Finished? then y else SetPhase(y, t, Gone)
  }

  ghost predicate IsHistory(window: nat, steps: seq<Step>, ys: seq<Sys>) {
    |ys| == |steps| + 1 && ys[0] == Sys(0, [], [], [], window) && forall i :: 0 <= i < |steps| ==> ys[i+1] == Apply(ys[i], steps[i])
  }

  // ---------------------------------------------------------------- the invariant

  /** The confirming transaction had the owner's approval, newer than the draft and in the window. */
  predicate ApprovedFor(y: Sys, id: nat, t: nat)
    requires id < |y.entries| && t < |y.txns|
  {
    ApprovedAfter(y.approvals, y.entries[id].createdAt, y.txns[t].startedAt, y.window)
  }

  /** Confirmed by a transaction that named it and had the owner's approval - or looked before it was there. */
  predicate ConfirmedRightly(y: Sys, id: nat, t: nat)
    requires id < |y.entries|
  {
    t < |y.txns| && y.txns[t].phase.Finished? && y.txns[t].job == Confirming(y.entries[id].kind, id)
    && (y.txns[t].known <= id || ApprovedFor(y, id, t))
  }

  predicate EntryOk(y: Sys, id: nat)
    requires id < |y.entries|
  {
    var e := y.entries[id];
    && (e.status == Superseded <==> e.replacedBy.Some?)
    && (e.replacedBy.Some? ==> id < e.replacedBy.value < |y.entries|)
    && (e.status == Confirmed <==> e.confirmedBy.Some?)
    && (e.confirmedBy.Some? ==> ConfirmedRightly(y, id, e.confirmedBy.value))
  }

  predicate TxnOk(y: Sys, t: nat)
    requires t < |y.txns|
  {
    var txn := y.txns[t];
    match txn.phase
    case Holding(id) =>
      && id < |y.entries| && y.entries[id].status == Draft
      && (forall u :: 0 <= u < |y.txns| && u != t ==> y.txns[u].phase != Holding(id))
      && (match txn.job
          case Recording(kind, corrects) => corrects == Some(id) && y.entries[id].kind == kind
          case Confirming(kind, named) => named == id && y.entries[id].kind == kind && ApprovedFor(y, id, t))
    case Unlocked =>
      txn.known <= |y.entries| && (txn.job.Confirming? && txn.job.id < txn.known ==> !IsDraft(y, txn.job.kind, txn.job.id))
    case _ => true
  }

  /** The replacement is a later entry, and replaces nothing else. */
  predicate ReplacedOnce(entries: seq<Entry>) {
    forall i, j :: 0 <= i < j < |entries| && entries[i].replacedBy.Some? ==> entries[i].replacedBy != entries[j].replacedBy
  }

  predicate Inv(y: Sys) {
    && (forall id :: 0 <= id < |y.entries| ==> EntryOk(y, id))
    && (forall t :: 0 <= t < |y.txns| ==> TxnOk(y, t))
    && ReplacedOnce(y.entries)
  }

  /** Nothing that a transaction relies on is changed behind its back. */
  lemma TxnStays(y: Sys, y': Sys, u: nat)
    requires u < |y.txns| <= |y'.txns| && y'.txns[u] == y.txns[u] && TxnOk(y, u) && |y.entries| <= |y'.entries|
    requires y'.window == y.window && y.approvals <= y'.approvals
    requires forall id :: 0 <= id < |y.entries| ==> y'.entries[id].kind == y.entries[id].kind && y'.entries[id].createdAt == y.entries[id].createdAt
    requires forall id :: 0 <= id < |y.entries| && y.entries[id].status != Draft ==> y'.entries[id].status != Draft
    requires y.txns[u].phase.Holding? ==>
      && y'.entries[y.txns[u].phase.id].status == y.entries[y.txns[u].phase.id].status
      && forall v :: 0 <= v < |y'.txns| && v != u ==> y'.txns[v].phase != y.txns[u].phase
    ensures TxnOk(y', u)
  {
  }

  lemma EntryStays(y: Sys, y': Sys, id: nat)
    requires id < |y.entries| <= |y'.entries| && EntryOk(y, id) && y'.entries[id] == y.entries[id]
    requires y'.window == y.window && y.approvals <= y'.approvals && |y.txns| <= |y'.txns|
    requires forall t :: 0 <= t < |y.txns| && y.txns[t].phase.Finished? ==> y'.txns[t] == y.txns[t]
    ensures EntryOk(y', id)
  {
  }

  lemma SelectKeeps(y: Sys, t: nat)
    requires Inv(y) && t < |y.txns| && y.txns[t].phase.Begun?
    ensures Inv(Selected(y, t))
  {
    hide EntryOk;
    var y' := Selected(y, t);
    forall id | 0 <= id < |y.entries| ensures EntryOk(y', id) { EntryStays(y, y', id); }
    forall u | 0 <= u < |y.txns| && u != t ensures TxnOk(y', u) { assert TxnOk(y, u); TxnStays(y, y', u); }
  }

  lemma RollbackKeeps(y: Sys, t: nat)
    requires Inv(y) && t < |y.txns| && !y.txns[t].phase.Finished?
    ensures Inv(SetPhase(y, t, Gone))
  {
    hide EntryOk;
    var y' := SetPhase(y, t, Gone);
    forall id | 0 <= id < |y.entries| ensures EntryOk(y', id) { EntryStays(y, y', id); }
    forall u | 0 <= u < |y.txns| && u != t ensures TxnOk(y', u) { assert TxnOk(y, u); TxnStays(y, y', u); }
  }

  lemma RecordKeeps(y: Sys, t: nat)
    requires Inv(y) && t < |y.txns| && y.txns[t].job.Recording? && (y.txns[t].phase.Unlocked? || y.txns[t].phase.Holding?)
    requires y.txns[t].phase.Holding? ==> y.txns[t].phase.id < |y.entries|
    ensures Inv(Committed(y, t))
  {
    var y', n := Committed(y, t), |y.entries|;
    assert TxnOk(y, t);
    forall i | 0 <= i < n ensures y.entries[i].replacedBy != Some(n) { assert EntryOk(y, i); }
    forall id | 0 <= id < |y'.entries| ensures EntryOk(y', id) {
      if id < n { assert EntryOk(y, id); if y'.entries[id] == y.entries[id] { EntryStays(y, y', id); } }
    }
    forall u | 0 <= u < |y.txns| && u != t ensures TxnOk(y', u) { assert TxnOk(y, u); TxnStays(y, y', u); }
  }

  lemma ConfirmKeeps(y: Sys, t: nat)
    requires Inv(y) && t < |y.txns| && y.txns[t].job.Confirming? && (y.txns[t].phase.Unlocked? || y.txns[t].phase.Holding?)
    requires y.txns[t].phase.Holding? ==> y.txns[t].phase.id < |y.entries|
    ensures Inv(Committed(y, t))
  {
    var y', id := Committed(y, t), y.txns[t].job.id;
    assert TxnOk(y, t);
    if y' != y {
      forall e | 0 <= e < |y'.entries| ensures EntryOk(y', e) {
        assert EntryOk(y, e);
        if y'.entries[e] == y.entries[e] { EntryStays(y, y', e); } else { assert e == id; }
      }
      forall u | 0 <= u < |y.txns| && u != t ensures TxnOk(y', u) { assert TxnOk(y, u); TxnStays(y, y', u); }
    }
  }

  lemma ApplyKeeps(y: Sys, m: Step)
    requires Inv(y)
    ensures Inv(Apply(y, m))
  {
    hide EntryOk, ReplacedOnce;
    match m
    case Go(t, act) =>
      if t < |y.txns| {
        match act
        case Select => if y.txns[t].phase.Begun? { SelectKeeps(y, t); }
        case Commit =>
          if y.txns[t].phase.Unlocked? || (y.txns[t].phase.Holding? && y.txns[t].phase.id < |y.entries|) {
            if y.txns[t].job.Recording? { RecordKeeps(y, t); } else { ConfirmKeeps(y, t); }
          }
        case Rollback => if !y.txns[t].phase.Finished? { RollbackKeeps(y, t); }
      }
    case _ =>
      var y' := Apply(y, m);
      forall id | 0 <= id < |y.entries| ensures EntryOk(y', id) { EntryStays(y, y', id); }
      forall u | 0 <= u < |y.txns| ensures TxnOk(y', u) { assert TxnOk(y, u); TxnStays(y, y', u); }
  }

  lemma {:induction false} HistoryKeeps(window: nat, steps: seq<Step>, ys: seq<Sys>, k: nat)
    requires IsHistory(window, steps, ys) && k <= |steps|
    ensures Inv(ys[k])
  {
    hide Inv, Apply;
    if k == 0 { assert Inv(ys[0]) by { Nothing(window); } }
    else {
      HistoryKeeps(window, steps, ys, k - 1);
      ApplyKeeps(ys[k-1], steps[k-1]);
    }
  }

  lemma Nothing(window: nat)
    ensures Inv(Sys(0, [], [], [], window))
  {
  }

  // ---------------------------------------------------------------- what becomes of a draft

  /** However confirmations and corrections race: an entry is confirmed by one transaction or replaced by one later
      entry, never both; a replacement replaces one entry; and who confirmed had the owner's approval, newer than
      the draft - unless it looked for the entry before that was there. */
  lemma DraftFate(window: nat, steps: seq<Step>, ys: seq<Sys>, y: Sys, id: nat)
    requires IsHistory(window, steps, ys) && y == ys[|steps|] && id < |y.entries|
    ensures y.entries[id].status == Superseded <==> y.entries[id].replacedBy.Some?
    ensures y.entries[id].status == Confirmed <==> y.entries[id].confirmedBy.Some?
    ensures ReplacedOnce(y.entries) && (y.entries[id].replacedBy.Some? ==> id < y.entries[id].replacedBy.value < |y.entries|)
    ensures y.entries[id].confirmedBy.Some? ==>
      var t := y.entries[id].confirmedBy.value;
      t < |y.txns| && y.txns[t].phase.Finished? && y.txns[t].job == Confirming(y.entries[id].kind, id) && (y.txns[t].known <= id || ApprovedFor(y, id, t))
  {
    hide IsHistory;
    HistoryKeeps(window, steps, ys, |steps|);
    assert EntryOk(y, id);
  }

  /** Status leaves Draft once and never changes again. */
  predicate Settles(before: seq<Entry>, after: seq<Entry>) {
    |before| <= |after| && forall i :: 0 <= i < |before| ==>
      && after[i].kind == before[i].kind && after[i].createdAt == before[i].createdAt
      && (before[i].status != Draft ==> after[i] == before[i])
  }

  lemma StepSettles(y: Sys, m: Step)
    requires Inv(y)
    ensures Settles(y.entries, Apply(y, m).entries)
  {
    hide EntryOk, ReplacedOnce;
    if m.Go? && m.t < |y.txns| { assert TxnOk(y, m.t); }
  }

  lemma {:induction false} EntriesSettle(window: nat, steps: seq<Step>, ys: seq<Sys>, i: nat, j: nat)
    requires IsHistory(window, steps, ys) && i <= j <= |steps|
    ensures Settles(ys[i].entries, ys[j].entries)
  {
    hide Inv, Apply;
    if i < j {
      EntriesSettle(window, steps, ys, i, j - 1);
      HistoryKeeps(window, steps, ys, j - 1);
      StepSettles(ys[j-1], steps[j-1]);
    }
  }

  /** Ids are random and told only once the entry is committed: a confirmation names an entry that is there. */
  predicate NamesKnown(y: Sys, m: Step) {
    m.Start? && m.job.Confirming? ==> m.job.id < |y.entries|
  }

  ghost predicate IdsLearned(steps: seq<Step>, ys: seq<Sys>) {
    |ys| == |steps| + 1 && forall i :: 0 <= i < |steps| ==> NamesKnown(ys[i], steps[i])
  }

  /** A confirmation looked after its entry was there. */
  predicate LookedLate(y: Sys, t: nat)
    requires t < |y.txns|
  {
    var txn := y.txns[t];
    txn.job.Confirming? ==>
      txn.job.id < |y.entries| && (txn.phase.Holding? || txn.phase.Unlocked? || txn.phase.Finished? ==> txn.job.id < txn.known)
  }

  lemma StepLooks(y: Sys, m: Step)
    requires (forall t :: 0 <= t < |y.txns| ==> LookedLate(y, t)) && NamesKnown(y, m)
    ensures forall t :: 0 <= t < |Apply(y, m).txns| ==> LookedLate(Apply(y, m), t)
  {
    var y' := Apply(y, m);
    forall t | 0 <= t < |y'.txns| ensures LookedLate(y', t) { if t < |y.txns| { assert LookedLate(y, t); } }
  }

  lemma {:induction false} AllLookLate(window: nat, steps: seq<Step>, ys: seq<Sys>, k: nat, t: nat)
    requires IsHistory(window, steps, ys) && IdsLearned(steps, ys) && k <= |steps| && t < |ys[k].txns|
    ensures LookedLate(ys[k], t)
  {
    hide Apply, NamesKnown, LookedLate;
    if k > 0 {
      var y := ys[k-1];
      forall u | 0 <= u < |y.txns| ensures LookedLate(y, u) { AllLookLate(window, steps, ys, k - 1, u); }
      StepLooks(y, steps[k-1]);
    }
  }

  /** With ids nobody can guess, whatever races: a confirmed entry was confirmed by a transaction that had the owner's
      approval, newer than the draft and inside the window when it began. */
  lemma ConfirmedApproved(window: nat, steps: seq<Step>, ys: seq<Sys>, y: Sys, id: nat)
    requires IsHistory(window, steps, ys) && IdsLearned(steps, ys) && y == ys[|steps|] && id < |y.entries|
    ensures y.entries[id].status == Confirmed ==>
      y.entries[id].confirmedBy.Some? &&
      var t := y.entries[id].confirmedBy.value;
      t < |y.txns| && y.txns[t].job == Confirming(y.entries[id].kind, id) && ApprovedFor(y, id, t)
  {
    hide IsHistory, IdsLearned;
    DraftFate(window, steps, ys, y, id);
    if y.entries[id].confirmedBy.Some? { AllLookLate(window, steps, ys, |steps|, y.entries[id].confirmedBy.value); }
  }

  /** Only by a guessed id is it otherwise: the confirming UPDATE does not ask for approval again, so a transaction that
      looked for the entry before it was committed would confirm it without any. */
  lemma GuessedUnapproved() returns (steps: seq<Step>, ys: seq<Sys>)
    ensures IsHistory(60, steps, ys) && ys[|steps|].approvals == []
    ensures |ys[|steps|].entries| == 1 && ys[|steps|].entries[0].status == Confirmed
  {
    steps := [Start(Confirming(Sale, 0)), Start(Recording(Sale, None)), Go(0, Select), Go(1, Select), Go(1, Commit), Go(0, Commit)];
    var s0 := Sys(0, [], [], [], 60);
    var s1 := Apply(s0, steps[0]);
    var s2 := Apply(s1, steps[1]);
    var s3 := Apply(s2, steps[2]);
    var s4 := Apply(s3, steps[3]);
    var s5 := Apply(s4, steps[4]);
    var s6 := Apply(s5, steps[5]);
    ys := [s0, s1, s2, s3, s4, s5, s6];
    assert s3.txns[0].phase == Unlocked && s4.txns[1].phase == Unlocked;
    assert s5.entries == [Entry(Sale, 0, Draft, None, None)];
  }

  // ---------------------------------------------------------------- the handlers, undisturbed

  datatype Confirmation = Saved | NeedsApproval | NotADraft

  class EntryTable {
    var entries: seq<Entry>
    var approvals: seq<int>

    predicate DraftHere(kind: Kind, id: nat)
      reads this
    {
      id < |entries| && entries[id].kind == kind && entries[id].status == Draft
    }

    /** `record_sale`/`record_expense`: a refused correction or a failed validation changes nothing; otherwise the new
        draft is added and the corrected one, if any, replaced by it. */
    method Record(kind: Kind, corrects: Option<nat>, valid: bool, now: int) returns (id: Option<nat>)
      modifies this
      ensures approvals == old(approvals)
      ensures id.Some? <==> valid && (corrects.Some? ==> old(DraftHere(kind, corrects.value)))
      ensures id.None? ==> entries == old(entries)
      ensures id.Some? ==> id.value == |old(entries)| && |entries| == |old(entries)| + 1
      ensures id.Some? ==> entries[id.value] == Entry(kind, now, Draft, None, None)
      ensures id.Some? ==> forall i :: 0 <= i < |old(entries)| ==>
        entries[i] == if corrects == Some(i) then old(entries)[i].(status := Superseded, replacedBy := id) else old(entries)[i]
    {
      if corrects.Some? && !DraftHere(kind, corrects.value) { return None; }
      if !valid { return None; }
      var n := |entries|;
      entries := entries + [Entry(kind, now, Draft, None, None)];
      if corrects.Some? {
        entries := entries[corrects.value := entries[corrects.value].(status := Superseded, replacedBy := Some(n))];
      }
      return Some(n);
    }

    /** `confirm_entry` by transaction `t`: only a draft of this kind, and only after a fresh approval. */
    method ConfirmEntry(kind: Kind, id: nat, t: nat, now: int, window: nat) returns (r: Confirmation)
      modifies this
      ensures approvals == old(approvals)
      ensures r.NotADraft? <==> !old(DraftHere(kind, id))
      ensures r.Saved? <==> old(DraftHere(kind, id)) && ApprovedAfter(old(approvals), old(entries)[id].createdAt, now, window)
      ensures entries == if r.Saved? then old(entries)[id := old(entries)[id].(status := Confirmed, confirmedBy := Some(t))] else old(entries)
    {
      if DraftHere(kind, id) && !ApprovedAfter(approvals, entries[id].createdAt, now, window) { return NeedsApproval; }
      if !DraftHere(kind, id) { return NotADraft; }
      entries := entries[id := entries[id].(status := Confirmed, confirmedBy := Some(t))];
      return Saved;
    }
  }
}
