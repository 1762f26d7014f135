/** What holds of every run of the environment, whatever the agent does and whatever faults are scheduled. */
module EnvTheorems {
  import opened OptionType
  import opened Contracts
  import opened JudgeSpec
  import opened EnvSpec
  import opened EventLog
  import opened EnvInvariants

  /** An episode: its states from reset on, one per action, none after the episode is over (`step` throws there). */
  ghost predicate IsRun(w: World, guards: bool, acts: seq<Action>, run: seq<EnvState>) {
    && w.scenario.script != [] && |run| == |acts| + 1 && run[0] == Reset(w, guards)
    && forall i :: 0 <= i < |acts| ==> !run[i].done && run[i+1] == Step(w, run[i], acts[i])
  }

  lemma {:induction false} RunKeeps(w: World, guards: bool, acts: seq<Action>, run: seq<EnvState>, k: nat)
    requires IsRun(w, guards, acts, run) && k <= |acts|
    ensures Faithful(w, run[k])
  {
    hide Faithful, Step, Reset;
    if k == 0 { ResetKeeps(w, guards); }
    else {
      RunKeeps(w, guards, acts, run, k - 1);
      StepKeeps(w, run[k-1], acts[k-1]);
    }
  }

  // ---------------------------------------------------------------- the ledger equals its log

  /** The log alone gives back every entry of the ledger with its status and figures, and the step count;
      and what an agent recorded always sums up. */
  lemma LogDeterminesLedger(w: World, guards: bool, acts: seq<Action>, run: seq<EnvState>, s: EnvState)
    requires IsRun(w, guards, acts, run) && s == run[|acts|]
    ensures
      var b := BookOf(w, s.events);
      EntriesOf(b.items) == s.ledger.entries && b.steps == s.step && b.lastCorrection == s.owner.lastCorrection
    ensures forall e :: e in s.ledger.entries && !e.preexisting ==> e.fig.total == e.fig.taxable + e.fig.vat
  {
    hide IsRun;
    RunKeeps(w, guards, acts, run, |acts|);
  }

  predicate DraftAt(log: seq<Event>, p: int, id: EntryId) {
    0 <= p < |log| && log[p].data.LedgerWrite? && log[p].data.op.DraftOp? && log[p].data.id == id
  }

  predicate ConfirmAt(log: seq<Event>, p: int, id: EntryId) {
    0 <= p < |log| && log[p].data.LedgerWrite? && log[p].data.op.ConfirmOp? && log[p].data.id == id
  }

  /** The entry a writing event belongs to, and where the log says it was drafted and confirmed. */
  lemma WriteBelongs(w: World, s: EnvState, p: int, id: EntryId) returns (it: Item)
    requires Faithful(w, s) && (DraftAt(s.events, p, id) || ConfirmAt(s.events, p, id))
    ensures id.New? && 1 <= id.n && |w.scenario.existing| + id.n - 1 < |s.ledger.entries|
    ensures it.entry == s.ledger.entries[|w.scenario.existing| + id.n - 1] && it.entry.id == id
    ensures it == BookOf(w, s.events).items[|w.scenario.existing| + id.n - 1]
    ensures ItemLocated(w, it, s.events) && s.events[p].data.fig == it.entry.fig
    ensures if DraftAt(s.events, p, id) then it.draftedAt == p else it.confirmedAt == Some(p)
  {
    hide BookOf, Guarded, FlagsTrue, ApprovalsLogged, YesLogged, CorrectionsBounded, Keyed;
    var at, items := |w.scenario.existing| + id.n - 1, BookOf(w, s.events).items;
    it := items[at];
    assert it.entry == EntriesOf(items)[at];
    assert ItemLocated(w, it, s.events);
  }

  /** A new entry's writing events. */
  lemma EntryWritten(w: World, s: EnvState, i: nat)
    requires Faithful(w, s) && |w.scenario.existing| <= i < |s.ledger.entries|
    ensures exists p :: DraftAt(s.events, p, s.ledger.entries[i].id) && s.events[p].data.fig == s.ledger.entries[i].fig
    ensures s.ledger.entries[i].status == Confirmed <==> exists q :: ConfirmAt(s.events, q, s.ledger.entries[i].id)
  {
    hide BookOf, Guarded, FlagsTrue, ApprovalsLogged, YesLogged, CorrectionsBounded, Keyed;
    var it := BookOf(w, s.events).items[i];
    assert it.entry == EntriesOf(BookOf(w, s.events).items)[i] && ItemLocated(w, it, s.events);
    assert DraftAt(s.events, it.draftedAt, it.entry.id);
    if it.confirmedAt.Some? { assert ConfirmAt(s.events, it.confirmedAt.value, it.entry.id); }
    if q :| ConfirmAt(s.events, q, it.entry.id) { var it' := WriteBelongs(w, s, q, it.entry.id); }
  }

  lemma LogNumbered(w: World, s: EnvState)
    requires Faithful(w, s)
    ensures Numbered(s.events)
  {
  }

  /** New entries and drafting events correspond one to one, confirmed ones and confirming events too, the
      confirming event later and with the drafted figures; and the log is numbered without gaps. */
  lemma WritesMatchEntries(w: World, guards: bool, acts: seq<Action>, run: seq<EnvState>, s: EnvState)
    requires IsRun(w, guards, acts, run) && s == run[|acts|]
    ensures
      var n := |w.scenario.existing|;
      && (forall i :: n <= i < |s.ledger.entries| ==>
            && (exists p :: DraftAt(s.events, p, s.ledger.entries[i].id) && s.events[p].data.fig == s.ledger.entries[i].fig)
            && (s.ledger.entries[i].status == Confirmed <==> exists q :: ConfirmAt(s.events, q, s.ledger.entries[i].id)))
      && (forall p, id :: DraftAt(s.events, p, id) || ConfirmAt(s.events, p, id) ==>
            exists i :: n <= i < |s.ledger.entries| && s.ledger.entries[i].id == id)
      && (forall p, q, id :: DraftAt(s.events, p, id) && DraftAt(s.events, q, id) ==> p == q)
      && (forall p, q, id :: ConfirmAt(s.events, p, id) && ConfirmAt(s.events, q, id) ==> p == q)
      && (forall p, q, id :: DraftAt(s.events, p, id) && ConfirmAt(s.events, q, id) ==>
            p < q && s.events[p].data.fig == s.events[q].data.fig)
      && Numbered(s.events)
  {
    hide IsRun, Faithful;
    RunKeeps(w, guards, acts, run, |acts|);
    LogNumbered(w, s);
    forall i | |w.scenario.existing| <= i < |s.ledger.entries|
      ensures exists p :: DraftAt(s.events, p, s.ledger.entries[i].id) && s.events[p].data.fig == s.ledger.entries[i].fig
      ensures s.ledger.entries[i].status == Confirmed <==> exists q :: ConfirmAt(s.events, q, s.ledger.entries[i].id)
    {
      EntryWritten(w, s, i);
    }
    forall p, id | DraftAt(s.events, p, id) || ConfirmAt(s.events, p, id)
      ensures exists i :: |w.scenario.existing| <= i < |s.ledger.entries| && s.ledger.entries[i].id == id
    {
      var it := WriteBelongs(w, s, p, id);
    }
    forall p, q, id | (DraftAt(s.events, p, id) && DraftAt(s.events, q, id)) || (ConfirmAt(s.events, p, id) && ConfirmAt(s.events, q, id))
      ensures p == q
    {
      var it := WriteBelongs(w, s, p, id);
      var it' := WriteBelongs(w, s, q, id);
    }
    forall p, q, id | DraftAt(s.events, p, id) && ConfirmAt(s.events, q, id)
      ensures p < q && s.events[p].data.fig == s.events[q].data.fig
    {
      var it := WriteBelongs(w, s, p, id);
      var it' := WriteBelongs(w, s, q, id);
    }
  }

  /** No key drafts a second entry. */
  lemma OneEntryPerKey(w: World, guards: bool, acts: seq<Action>, run: seq<EnvState>, s: EnvState)
    requires IsRun(w, guards, acts, run) && s == run[|acts|]
    ensures
      var items := BookOf(w, s.events).items;
      forall i, j :: |w.scenario.existing| <= i < j < |items| && items[i].key.Some? ==> items[i].key != items[j].key
  {
    hide IsRun;
    RunKeeps(w, guards, acts, run, |acts|);
  }

  /** One step keeps every entry's columns, and moves status only from draft to confirmed or superseded. */
  predicate Evolves(before: seq<Entry>, after: seq<Entry>) {
    |before| <= |after| && forall i :: 0 <= i < |before| ==>
      after[i].(status := before[i].status) == before[i] && (after[i].status == before[i].status || before[i].status == Draft)
  }

  lemma RecordEvolves(w: World, l: Ledger, step: nat, a: RecordArgs)
    ensures Evolves(l.entries, RecordOnce(w, l, step, a).ledger.entries)
  {
    hide Live;
  }

  lemma RunToolEvolves(w: World, s: EnvState, call: Call)
    ensures Evolves(s.ledger.entries, RunTool(w, s, call).ledger.entries)
  {
    hide Live, Listed, RecordOnce;
    if call.Record? { RecordEvolves(w, s.ledger, s.step, call.args); }
  }

  lemma StepEvolves(w: World, s: EnvState, a: Action)
    ensures Evolves(s.ledger.entries, Step(w, s, a).ledger.entries)
  {
    hide DoTool, DoMessage, Judge, RunTool;
    var s1 := Begin(s, a);
    if a.Tool? { RunToolEvolves(w, CountCall(s1, a.call), a.call); }
  }

  /** Between any two moments of an episode every entry keeps its place and its columns. */
  lemma {:induction false} EntriesEvolve(w: World, guards: bool, acts: seq<Action>, run: seq<EnvState>, i: nat, j: nat)
    requires IsRun(w, guards, acts, run) && i <= j <= |acts|
    ensures Evolves(run[i].ledger.entries, run[j].ledger.entries)
  {
    hide Step, Reset;
    if i < j {
      EntriesEvolve(w, guards, acts, run, i, j - 1);
      StepEvolves(w, run[j-1], acts[j-1]);
    }
  }

  // ---------------------------------------------------------------- the confirm guard

  /** With the guard on, strictly between an entry's drafting and its confirming event lies an owner message
      whose text is an explicit yes - whatever the agent does. */
  lemma ConfirmGuard(w: World, acts: seq<Action>, run: seq<EnvState>, s: EnvState, q: nat, id: EntryId)
    requires IsRun(w, true, acts, run) && s == run[|acts|] && ConfirmAt(s.events, q, id)
    ensures exists p, k :: DraftAt(s.events, p, id) && p < k < q && YesAt(w, s.events, k)
  {
    hide IsRun, BookOf, FlagsTrue, ApprovalsLogged, YesLogged, CorrectionsBounded, Keyed, Accounted, Located;
    RunKeeps(w, true, acts, run, |acts|);
    RunCounts(w, true, acts, run, |acts|);
    var it := WriteBelongs(w, s, q, id);
    assert Vouched(w, s.events[..q], it.draftedAt);
    var k :| k > it.draftedAt && YesAt(w, s.events[..q], k);
    assert DraftAt(s.events, it.draftedAt, id) && YesAt(w, s.events, k);
  }

  // ---------------------------------------------------------------- the end of an episode

  /** Steps are counted and the guard setting stays. */
  lemma {:induction false} RunCounts(w: World, guards: bool, acts: seq<Action>, run: seq<EnvState>, k: nat)
    requires IsRun(w, guards, acts, run) && k <= |acts|
    ensures run[k].step == k && run[k].guards == guards
  {
    hide Judge, Act;
    if k > 0 { RunCounts(w, guards, acts, run, k - 1); }
  }

  lemma StepEnds(w: World, s: EnvState, a: Action)
    requires !s.done
    ensures !Step(w, s, a).done ==> s.step + 1 < MAX_STEPS || a.Rejected?
    ensures a.Rejected? ==> !Step(w, s, a).done
  {
    hide Judge, DoTool, DoMessage;
  }

  /** The step limit closes an episode unless every action from the limit on failed the action schema:
      a rejected action is counted but skips the limit check. */
  lemma OpenPastLimit(w: World, guards: bool, acts: seq<Action>, run: seq<EnvState>)
    requires IsRun(w, guards, acts, run) && |acts| >= MAX_STEPS
    ensures !run[|acts|].done <==> forall k :: MAX_STEPS - 1 <= k < |acts| ==> acts[k].Rejected?
  {
    hide Step, Reset;
    forall k | 0 <= k < |acts| ensures !run[k+1].done ==> k + 1 < MAX_STEPS || acts[k].Rejected? {
      RunCounts(w, guards, acts, run, k);
      StepEnds(w, run[k], acts[k]);
    }
    StepEnds(w, run[|acts|-1], acts[|acts|-1]);
    assert run[|acts|-1+1] == run[|acts|];
  }

  /** The state after `k` of these actions, or where the episode ended before. */
  function Stage(w: World, guards: bool, acts: nat -> Action, k: nat): EnvState
    requires w.scenario.script != []
  {
    if k == 0 then Reset(w, guards)
    else
      var s := Stage(w, guards, acts, k - 1);
      if s.done then s else Step(w, s, acts(k - 1))
  }

  /** A rejected action never ends an episode. */
  lemma {:induction false} StaysOpen(w: World, guards: bool, acts: nat -> Action, i: nat, k: nat)
    requires w.scenario.script != [] && i <= k && !Stage(w, guards, acts, i).done
    requires forall j :: i <= j < k ==> acts(j).Rejected?
    ensures !Stage(w, guards, acts, k).done && Stage(w, guards, acts, k).step == Stage(w, guards, acts, i).step + (k - i)
  {
    hide Step, Reset;
    if i < k {
      StaysOpen(w, guards, acts, i, k - 1);
      StepEnds(w, Stage(w, guards, acts, k - 1), acts(k - 1));
      StepCounts(w, Stage(w, guards, acts, k - 1), acts(k - 1));
    }
  }

  lemma StepCounts(w: World, s: EnvState, a: Action)
    ensures Step(w, s, a).step == s.step + 1
  {
    hide Judge, Act;
  }

  lemma {:induction false} StageSteps(w: World, guards: bool, acts: nat -> Action, k: nat)
    requires w.scenario.script != []
    ensures Stage(w, guards, acts, k).done || Stage(w, guards, acts, k).step == k
  {
    hide Step, Reset;
    if k == 0 { ResetCounts(w, guards); }
    else {
      StageSteps(w, guards, acts, k - 1);
      StepCounts(w, Stage(w, guards, acts, k - 1), acts(k - 1));
    }
  }

  lemma ResetCounts(w: World, guards: bool)
    requires w.scenario.script != []
    ensures Reset(w, guards).step == 0
  {
    hide Spoken;
  }

  /** An episode that is open before its last step comes to an end exactly if some later action passes the action
      schema, and does so with the first that does; an agent that fails the schema for ever is never done. */
  lemma EndsUnlessRejected(w: World, guards: bool, acts: nat -> Action)
    requires w.scenario.script != [] && !Stage(w, guards, acts, MAX_STEPS - 1).done
    ensures (exists k: nat :: Stage(w, guards, acts, k).done) <==> exists k: nat :: k >= MAX_STEPS - 1 && !acts(k).Rejected?
    ensures forall k: nat :: k >= MAX_STEPS - 1 && !acts(k).Rejected? ==> Stage(w, guards, acts, k + 1).done
  {
    hide Step, Reset;
    forall k: nat | k >= MAX_STEPS - 1 && !acts(k).Rejected? ensures Stage(w, guards, acts, k + 1).done {
      var s := Stage(w, guards, acts, k);
      StageSteps(w, guards, acts, k);
      if !s.done { StepEnds(w, s, acts(k)); }
      assert Stage(w, guards, acts, k + 1) == if s.done then s else Step(w, s, acts(k));
    }
    if k: nat :| Stage(w, guards, acts, k).done {
      if forall j: nat :: j >= MAX_STEPS - 1 ==> acts(j).Rejected? {
        if k >= MAX_STEPS - 1 { StaysOpen(w, guards, acts, MAX_STEPS - 1, k); }
        else { StaysDone(w, guards, acts, k, MAX_STEPS - 1); }
      }
    }
  }

  lemma {:induction false} StaysDone(w: World, guards: bool, acts: nat -> Action, i: nat, k: nat)
    requires w.scenario.script != [] && i <= k && Stage(w, guards, acts, i).done
    ensures Stage(w, guards, acts, k) == Stage(w, guards, acts, i)
  {
    hide Step, Reset;
    if i < k { StaysDone(w, guards, acts, i, k - 1); }
  }

  /** With no rejected action at the limit, an episode is over by then. */
  lemma EndsInTime(w: World, guards: bool, acts: nat -> Action)
    requires w.scenario.script != [] && !acts(MAX_STEPS - 1).Rejected?
    ensures Stage(w, guards, acts, MAX_STEPS).done
  {
    hide Step, Reset;
    if Stage(w, guards, acts, MAX_STEPS - 1).done { StaysDone(w, guards, acts, MAX_STEPS - 1, MAX_STEPS); }
    else { EndsUnlessRejected(w, guards, acts); }
  }

  /** For instance: rejected actions only, and the episode is open after any number of them. */
  lemma RejectedForever(w: World, guards: bool, k: nat)
    requires w.scenario.script != []
    ensures !Stage(w, guards, _ => Rejected, k).done && Stage(w, guards, _ => Rejected, k).step == k
  {
    hide Step, Reset;
    var acts: nat -> Action := _ => Rejected;
    FreshEpisode(w, guards);
    ResetCounts(w, guards);
    StaysOpen(w, guards, acts, 0, k);
  }

  lemma FreshEpisode(w: World, guards: bool)
    requires w.scenario.script != []
    ensures !Reset(w, guards).done && Reset(w, guards).verdict.None?
  {
    hide Spoken;
  }
}
