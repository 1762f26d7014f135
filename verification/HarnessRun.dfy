/** The harness at work in the rehearsal environment, under any policy and any schedule of faults. */
module HarnessRun {
  import opened OptionType
  import opened Contracts
  import opened JudgeSpec
  import opened EnvSpec
  import opened EventLog
  import opened EnvInvariants
  import opened EnvAnswers
  import opened HarnessSpec
  import opened HarnessTheorems
  import opened HarnessNotes

  function ActionOf(turn: Turn): Action { if turn.Doing? then turn.action else End }

  /** An episode of the harness: at each step the policy may choose any skill. */
  ghost predicate IsPlayed(w: World, wits: Wits, guards: bool, skills: seq<Skill>, run: seq<EnvState>, mems: seq<Memory>) {
    && w.scenario.script != [] && |run| == |skills| + 1 && |mems| == |skills| + 1
    && run[0] == Reset(w, guards) && mems[0] == Fresh(w.scenario.id)
    && forall i :: 0 <= i < |skills| ==> Plays(w, wits, run[i], mems[i], skills[i], run[i+1], mems[i+1])
  }

  predicate Plays(w: World, wits: Wits, s: EnvState, m: Memory, skill: Skill, s': EnvState, m': Memory) {
    var (next, turn) := PolicyAct(wits, m, Observe(s), skill);
    !s.done && !turn.Broken? && m' == next && s' == Step(w, s, ActionOf(turn))
  }

  // ---------------------------------------------------------------- the joint invariant

  /** A noted draft is the one saved under its key. */
  ghost predicate Linked(idem: map<string, ToolData>, fs: seq<Fact>) {
    forall i :: 0 <= i < |fs| ==> fs[i].key.Some? && SavedUnder(idem, fs[i].key, fs[i].id)
  }

  /** Every recording call in the log is one the harness sent. */
  ghost predicate CallsKnown(log: seq<Event>, tried: map<string, Tried>) {
    forall p :: 0 <= p < |log| && log[p].data.ToolCall? && log[p].data.call.Record? ==>
      log[p].data.call.args.key.Some? && log[p].data.call.args.key.value in tried
  }

  /** A saved draft in the last result was saved under the key of the write under way. */
  predicate ResultLinked(s: EnvState, m: Memory) {
    m.inflight.Some? && s.lastResult.Some? && s.lastResult.value.data.Saved? ==>
      m.inflight.value.args.key.Some? && SavedUnder(s.ledger.idem, m.inflight.value.args.key, s.lastResult.value.data.id)
  }

  /** The harness has heard every correction in the log, but for one that is waiting. */
  predicate HeardAll(wits: Wits, s: EnvState, m: Memory) {
    Said(wits, s.events) == m.heard + if Unheard(wits, m, Observe(s)) then 1 else 0
  }

  ghost predicate Joint(w: World, wits: Wits, s: EnvState, m: Memory) {
    && Faithful(w, s) && HarnessTheorems.Inv(m) && Honest(m, s.lastResult) && IdemPlain(s.ledger.idem)
    && Linked(s.ledger.idem, FactsOf(m.drafts)) && ResultLinked(s, m) && CallsKnown(s.events, m.tried)
    && (!s.done ==> HeardAll(wits, s, m))
  }

  /** Under different keys lie different drafts. */
  lemma KeysSeparate(w: World, s: EnvState, k1: string, k2: string, id: EntryId)
    requires Faithful(w, s) && SavedUnder(s.ledger.idem, Some(k1), id) && SavedUnder(s.ledger.idem, Some(k2), id)
    ensures k1 == k2
  {
    hide BookOf, History, Shape, Mirrors;
    var items := BookOf(w, s.events).items;
    assert Owned(w, items, k1, id, s.ledger.idem[k1].fig) && Owned(w, items, k2, id, s.ledger.idem[k2].fig);
  }

  lemma LinkedGrows(idem: map<string, ToolData>, idem': map<string, ToolData>, fs: seq<Fact>)
    requires Linked(idem, fs) && IdemGrows(idem, idem')
    ensures Linked(idem', fs)
  {
  }

  /** The notes after a turn are still those saved under their keys. */
  lemma NotesLinked(wits: Wits, s: EnvState, m: Memory, skill: Skill)
    requires HarnessTheorems.Inv(m) && Honest(m, s.lastResult) && Linked(s.ledger.idem, FactsOf(m.drafts)) && ResultLinked(s, m)
    requires !PolicyAct(wits, m, Observe(s), skill).1.Broken?
    ensures Linked(s.ledger.idem, FactsOf(PolicyAct(wits, m, Observe(s), skill).0.drafts))
  {
    hide PolicyAct, FactsOf, HarnessTheorems.Inv;
    ActNotes(wits, m, Observe(s), skill);
  }

  lemma CallsStay(wits: Wits, s: EnvState, a: Action, t: EnvState, tried: map<string, Tried>, tried': map<string, Tried>)
    requires CallsKnown(s.events, tried) && StepShown(wits, s, a, t) && forall k :: k in tried ==> k in tried'
    requires a.Tool? && a.call.Record? ==> a.call.args.key.Some? && a.call.args.key.value in tried'
    ensures CallsKnown(t.events, tried')
  {
    hide Said, ToolShown, IdemPlain, IdemGrows;
    forall p | 0 <= p < |t.events| && t.events[p].data.ToolCall? && t.events[p].data.call.Record?
      ensures t.events[p].data.call.args.key.Some? && t.events[p].data.call.args.key.value in tried'
    {
      if p < |s.events| { assert t.events[p] == s.events[p]; }
    }
  }

  /** The environment answers the harness honestly. */
  lemma AnswersHonestly(w: World, wits: Wits, m: Memory, m': Memory, r: Option<ToolResult>, turn: Turn, s: EnvState, t: EnvState)
    requires HarnessTheorems.Inv(m') && Lawful(m, r, m', turn) && !turn.Broken? && !turn.Deciding?
    requires StepShown(wits, s, ActionOf(turn), t) && Faithful(w, t) && Linked(t.ledger.idem, FactsOf(m'.drafts))
    ensures Honest(m', t.lastResult) && ResultLinked(t, m')
  {
    hide Said, Faithful, Calm, Uncorrected, IdemPlain, IdemGrows;
    if m'.inflight.Some? {
      var args := m'.inflight.value.args;
      assert turn == Doing(Tool(Record(args)));
      if t.lastResult.value.data.Saved? {
        var id := t.lastResult.value.data.id;
        forall i | 0 <= i < |m'.drafts| ensures m'.drafts[i].id != id {
          var f := FactsOf(m'.drafts)[i];
          if f.id == id { KeysSeparate(w, t, f.key.value, args.key.value, id); }
        }
      }
    }
  }

  lemma HeardNext(wits: Wits, s: EnvState, m: Memory, m': Memory, turn: Turn, t: EnvState)
    requires HeardAll(wits, s, m) && StepShown(wits, s, ActionOf(turn), t) && !turn.Broken? && !turn.Deciding?
    requires m'.heard == m.heard + (if Unheard(wits, m, Observe(s)) then 1 else 0)
    requires turn.Stopping? || m'.awaiting == SentMessage(turn)
    ensures turn.Stopping? || HeardAll(wits, t, m')
  {
    hide Said, ToolShown, IdemPlain, IdemGrows;
  }

  lemma EndEnds(w: World, s: EnvState)
    ensures Step(w, s, End).done
  {
    hide Judge;
  }

  lemma JointKeeps(w: World, wits: Wits, s: EnvState, m: Memory, skill: Skill, t: EnvState, m': Memory)
    requires Joint(w, wits, s, m) && Plays(w, wits, s, m, skill, t, m')
    ensures Joint(w, wits, t, m')
  {
    hide Faithful, HarnessTheorems.Inv, Step, PolicyAct, StepShown, Lawful, Linked, CallsKnown, IdemPlain, IdemGrows, FactsOf, ResultLinked, HeardAll, Unheard, SentMessage, Honest;
    var turn := PolicyAct(wits, m, Observe(s), skill).1;
    HarnessTheorems.ActKeeps(wits, m, Observe(s), skill);
    StepKeeps(w, s, ActionOf(turn));
    StepShows(w, wits, s, ActionOf(turn));
    ShownPlain(wits, s, ActionOf(turn), t);
    NotesLinked(wits, s, m, skill);
    LinkedGrows(s.ledger.idem, t.ledger.idem, FactsOf(m'.drafts));
    AnswersHonestly(w, wits, m, m', s.lastResult, turn, s, t);
    LawfulTried(m, s.lastResult, m', turn);
    CallsStay(wits, s, ActionOf(turn), t, m.tried, m'.tried);
    HeardNext(wits, s, m, m', turn, t);
    if turn.Stopping? { EndEnds(w, s); }
  }

  lemma ShownPlain(wits: Wits, s: EnvState, a: Action, t: EnvState)
    requires StepShown(wits, s, a, t)
    ensures IdemPlain(t.ledger.idem) && IdemGrows(s.ledger.idem, t.ledger.idem)
  {
    hide Said, ToolShown;
  }

  lemma LawfulTried(m: Memory, r: Option<ToolResult>, m': Memory, turn: Turn)
    requires Lawful(m, r, m', turn) && !turn.Broken?
    ensures forall k :: k in m.tried ==> k in m'.tried
    ensures var a := ActionOf(turn); a.Tool? && a.call.Record? ==> a.call.args.key.Some? && a.call.args.key.value in m'.tried
  {
    hide Uncorrected;
  }

  lemma FreshJoint(w: World, wits: Wits, guards: bool)
    requires w.scenario.script != []
    ensures Joint(w, wits, Reset(w, guards), Fresh(w.scenario.id)) && !Reset(w, guards).done
  {
    hide Faithful, OwnerSays;
    ResetKeeps(w, guards);
    var s0 := Emit(Blank(w, guards), EpisodeReset(w.scenario.id));
    SpeakShown(w, wits, s0, w.scenario.script[0]);
    SaidNext(wits, [], Event(0, EpisodeReset(w.scenario.id)));
    assert [] + [Event(0, EpisodeReset(w.scenario.id))] == [Event(0, EpisodeReset(w.scenario.id))];
  }

  lemma {:induction false} PlayJoint(w: World, wits: Wits, guards: bool, skills: seq<Skill>, run: seq<EnvState>, mems: seq<Memory>, k: nat)
    requires IsPlayed(w, wits, guards, skills, run, mems) && k <= |skills|
    ensures Joint(w, wits, run[k], mems[k])
  {
    hide Joint, Plays, Reset;
    if k == 0 { FreshJoint(w, wits, guards); }
    else {
      PlayJoint(w, wits, guards, skills, run, mems, k - 1);
      JointKeeps(w, wits, run[k-1], mems[k-1], skills[k-1], run[k], mems[k]);
    }
  }

  /** What the harness sent at step `i`. */
  function ActionAt(wits: Wits, skills: seq<Skill>, run: seq<EnvState>, mems: seq<Memory>, i: nat): Action
    requires i < |skills| && |run| == |mems| == |skills| + 1
  {
    ActionOf(PolicyAct(wits, mems[i], Observe(run[i]), skills[i]).1)
  }

  /** What holds of one played step. */
  lemma StepLawful(w: World, wits: Wits, guards: bool, skills: seq<Skill>, run: seq<EnvState>, mems: seq<Memory>, i: nat)
    requires IsPlayed(w, wits, guards, skills, run, mems) && i < |skills|
    ensures
      var (m', turn) := PolicyAct(wits, mems[i], Observe(run[i]), skills[i]);
      && m' == mems[i+1] && !turn.Broken? && Lawful(mems[i], run[i].lastResult, mems[i+1], turn)
      && mems[i+1].heard == Said(wits, run[i].events) && !run[i].done
  {
    hide Faithful, Step, Reset, Calm, Honest, Lawful, PolicyAct, Said, Linked, CallsKnown;
    PlayJoint(w, wits, guards, skills, run, mems, i);
    assert Plays(w, wits, run[i], mems[i], skills[i], run[i+1], mems[i+1]);
    HarnessTheorems.ActKeeps(wits, mems[i], Observe(run[i]), skills[i]);
  }

  // ---------------------------------------------------------------- when a turn breaks

  lemma {:induction false} FaultScheduled(faults: seq<Fault>, tool: ToolName, n: nat)
    ensures FaultFor(faults, tool, n).Some? ==> Fault(tool, n, FaultFor(faults, tool, n).value) in faults
  {
    if faults != [] && !(faults[0].tool == tool && faults[0].onCall == n) { FaultScheduled(faults[1..], tool, n); }
  }

  lemma BillOrFailure(w: World, s: EnvState, call: Call)
    ensures NameOf(call) == ReadBillT && RunTool(w, s, call).ok ==> RunTool(w, s, call).data.BillText?
  {
    hide RecordOnce, ConfirmDraft, Live, Listed;
  }

  lemma GarbledCall(w: World, s: EnvState, call: Call)
    requires GarbledBill(DoTool(w, s, call).lastResult)
    ensures exists n :: Fault(ReadBillT, n, Malformed) in w.scenario.faults
  {
    hide RunTool, ApplyTool, SetToolResult, NameOf, FaultFor, CountCall;
    var s1 := CountCall(s, call);
    FaultScheduled(w.scenario.faults, NameOf(call), s1.toolCalls[NameOf(call)]);
    BillOrFailure(w, s1, call);
  }

  lemma FinishSilent(w: World, s: EnvState)
    ensures FinishStep(w, s).lastResult == s.lastResult
  {
    hide Judge;
  }

  /** The only results that break the harness are bills the fault schedule garbled. */
  lemma GarbledByFault(w: World, s: EnvState, a: Action)
    requires GarbledBill(Step(w, s, a).lastResult)
    ensures exists n :: Fault(ReadBillT, n, Malformed) in w.scenario.faults
  {
    hide DoTool, DoMessage, FinishStep, GarbledBill;
    var s0 := Begin(s, a);
    var s1 := Act(w, s0, a);
    FinishSilent(w, if a.Rejected? then s1 else Truncate(s1));
    assert !GarbledBill(s0.lastResult) by { NothingGarbled(s0); }
    if a.Tool? { GarbledCall(w, s0, a.call); }
    if a.Message? { MessageSilent(w, s0, a.text); }
  }

  lemma NothingGarbled(s: EnvState)
    requires s.lastResult.None?
    ensures !GarbledBill(s.lastResult)
  {
  }

  lemma MessageSilent(w: World, s: EnvState, text: string)
    ensures DoMessage(w, s, text).lastResult == s.lastResult
  {
    hide React, Spoken;
  }

  /** Without such a fault no turn ever breaks: an episode can always be played on. */
  lemma NeverBreaks(w: World, wits: Wits, guards: bool, skills: seq<Skill>, run: seq<EnvState>, mems: seq<Memory>, skill: Skill)
    requires IsPlayed(w, wits, guards, skills, run, mems) && !run[|skills|].done
    requires forall n: nat :: Fault(ReadBillT, n, Malformed) !in w.scenario.faults
    ensures
      var (next, turn) := PolicyAct(wits, mems[|skills|], Observe(run[|skills|]), skill);
      IsPlayed(w, wits, guards, skills + [skill], run + [Step(w, run[|skills|], ActionOf(turn))], mems + [next])
  {
    hide PolicyAct, Step, GarbledBill, Reset;
    var k := |skills|;
    TurnBreaks(wits, mems[k], Observe(run[k]), skill);
    if k == 0 { ResetSilent(w, guards); }
    else {
      assert Plays(w, wits, run[k-1], mems[k-1], skills[k-1], run[k], mems[k]);
      if GarbledBill(run[k].lastResult) { GarbledByFault(w, run[k-1], ActionOf(PolicyAct(wits, mems[k-1], Observe(run[k-1]), skills[k-1]).1)); }
    }
    var (next, turn) := PolicyAct(wits, mems[k], Observe(run[k]), skill);
    var longer, states, memories := skills + [skill], run + [Step(w, run[k], ActionOf(turn))], mems + [next];
    forall i | 0 <= i < |longer| ensures Plays(w, wits, states[i], memories[i], longer[i], states[i+1], memories[i+1]) {
      if i < k { assert Plays(w, wits, run[i], mems[i], skills[i], run[i+1], mems[i+1]); }
    }
  }

  lemma ResetSilent(w: World, guards: bool)
    requires w.scenario.script != []
    ensures !GarbledBill(Reset(w, guards).lastResult)
  {
    hide Spoken;
  }

  // ---------------------------------------------------------------- facts of the joint invariant

  /** While a write is under way no correction is waiting. */
  lemma InflightHeard(wits: Wits, s: EnvState, m: Memory)
    requires HarnessTheorems.Inv(m) && m.inflight.Some? && HeardAll(wits, s, m)
    ensures Said(wits, s.events) == m.heard
  {
    hide Said, QueueOk, QueuedOk, NotesOk, SentOk, WritesOk, InflightOk;
  }

  lemma ConfirmedFact(m: Memory, id: EntryId, kind: EntryKind)
    requires Uncorrected(m, id, kind)
    ensures exists n :: 0 <= n < |FactsOf(m.drafts)| && FactsOf(m.drafts)[n].id == id && FactsOf(m.drafts)[n].born == m.heard
  {
    var n :| 0 <= n < |m.drafts| && m.drafts[n].id == id && m.drafts[n].kind == kind && m.drafts[n].confirmed && !m.drafts[n].superseded && m.drafts[n].born == m.heard;
    assert FactsOf(m.drafts)[n].id == id;
  }

  // ---------------------------------------------------------------- no confirm twice without a refusal

  predicate RefusedAt(run: seq<EnvState>, l: nat, id: EntryId) {
    l < |run| && Refusal(run[l].lastResult) && run[l].lastResult.value.data.id == id
  }

  lemma {:induction false} StaysOut(w: World, wits: Wits, guards: bool, skills: seq<Skill>, run: seq<EnvState>, mems: seq<Memory>, i: nat, j: nat, id: EntryId)
    requires IsPlayed(w, wits, guards, skills, run, mems) && i <= j <= |skills| && id in mems[i].sent
    requires forall l :: i <= l < j ==> !RefusedAt(run, l, id)
    ensures id in mems[j].sent
  {
    hide Plays, Reset, Step, Faithful, Calm, Said, Linked, CallsKnown, PolicyAct, Lawful, FactsOf;
    if i < j {
      StaysOut(w, wits, guards, skills, run, mems, i, j - 1, id);
      PlayJoint(w, wits, guards, skills, run, mems, j - 1);
      StepLawful(w, wits, guards, skills, run, mems, j - 1);
      ActNotes(wits, mems[j-1], Observe(run[j-1]), skills[j-1]);
      assert !RefusedAt(run, j - 1, id);
    }
  }

  lemma ConfirmLawful(m: Memory, r: Option<ToolResult>, m': Memory, turn: Turn, kind: EntryKind, id: EntryId)
    requires Lawful(m, r, m', turn) && ActionOf(turn) == Tool(Confirm(kind, id))
    ensures m'.last == Some(id) && (id !in m.sent || (Refusal(r) && r.value.data.id == id))
  {
    hide Uncorrected;
  }

  /** Between two confirms of one draft the server refused the first. */
  lemma NoConfirmTwice(w: World, wits: Wits, guards: bool, skills: seq<Skill>, run: seq<EnvState>, mems: seq<Memory>, i: nat, j: nat, kind: EntryKind, kind': EntryKind, id: EntryId)
    requires IsPlayed(w, wits, guards, skills, run, mems) && i < j < |skills|
    requires ActionAt(wits, skills, run, mems, i) == Tool(Confirm(kind, id)) && ActionAt(wits, skills, run, mems, j) == Tool(Confirm(kind', id))
    ensures exists l :: i < l <= j && RefusedAt(run, l, id)
  {
    hide Plays, PolicyAct, Said, Step, Reset, Lawful, Faithful, HarnessTheorems.Inv, Honest, Linked, CallsKnown;
    StepLawful(w, wits, guards, skills, run, mems, i);
    StepLawful(w, wits, guards, skills, run, mems, j);
    ConfirmLawful(mems[i], run[i].lastResult, mems[i+1], PolicyAct(wits, mems[i], Observe(run[i]), skills[i]).1, kind, id);
    ConfirmLawful(mems[j], run[j].lastResult, mems[j+1], PolicyAct(wits, mems[j], Observe(run[j]), skills[j]).1, kind', id);
    PlayJoint(w, wits, guards, skills, run, mems, i + 1);
    LastIsOut(mems[i+1]);
    if forall l :: i < l < j ==> !RefusedAt(run, l, id) {
      StaysOut(w, wits, guards, skills, run, mems, i + 1, j, id);
      assert RefusedAt(run, j, id);
    }
  }

  lemma LastIsOut(m: Memory)
    requires HarnessTheorems.Inv(m) && m.last.Some?
    ensures m.last.value in m.sent
  {
    hide QueueOk, QueuedOk, NotesOk, SentOk, WritesOk, InflightOk;
  }

  // ---------------------------------------------------------------- each write at most three times, one entry each

  /** How often a recording call under this key was sent in the first `n` steps. */
  function Sends(wits: Wits, skills: seq<Skill>, run: seq<EnvState>, mems: seq<Memory>, n: nat, key: string): nat
    requires n <= |skills| && |run| == |mems| == |skills| + 1
  {
    if n == 0 then 0
    else Sends(wits, skills, run, mems, n - 1, key) + if IsSend(ActionAt(wits, skills, run, mems, n - 1), key) then 1 else 0
  }

  predicate IsSend(a: Action, key: string) { a.Tool? && a.call.Record? && a.call.args.key == Some(key) }

  function TimesOf(m: Memory, key: string): nat { if key in m.tried then m.tried[key].times else 0 }

  /** The harness' own count is right, and all it sent under a key were the same arguments. */
  lemma {:induction false} SendsCounted(w: World, wits: Wits, guards: bool, skills: seq<Skill>, run: seq<EnvState>, mems: seq<Memory>, n: nat, key: string)
    requires IsPlayed(w, wits, guards, skills, run, mems) && n <= |skills|
    ensures Sends(wits, skills, run, mems, n, key) == TimesOf(mems[n], key)
    ensures forall i :: 0 <= i < n && IsSend(ActionAt(wits, skills, run, mems, i), key) ==>
      key in mems[n].tried && ActionAt(wits, skills, run, mems, i) == Tool(Record(mems[n].tried[key].args))
  {
    hide Plays, Reset, Step, PolicyAct, Uncorrected;
    if n > 0 {
      SendsCounted(w, wits, guards, skills, run, mems, n - 1, key);
      StepLawful(w, wits, guards, skills, run, mems, n - 1);
    }
  }

  /** However writes time out, vanish or come back garbled: a planned write is sent at most three times, every time
      with the same arguments and key. */
  lemma AtMostThreeSends(w: World, wits: Wits, guards: bool, skills: seq<Skill>, run: seq<EnvState>, mems: seq<Memory>, key: string)
    requires IsPlayed(w, wits, guards, skills, run, mems)
    ensures Sends(wits, skills, run, mems, |skills|, key) <= 3
    ensures forall i, j :: 0 <= i < j < |skills| && IsSend(ActionAt(wits, skills, run, mems, i), key) && IsSend(ActionAt(wits, skills, run, mems, j), key) ==>
      ActionAt(wits, skills, run, mems, i) == ActionAt(wits, skills, run, mems, j)
  {
    hide Plays, Reset, PolicyAct;
    SendsCounted(w, wits, guards, skills, run, mems, |skills|, key);
    PlayJoint(w, wits, guards, skills, run, mems, |skills|);
    TimesBounded(w, wits, run[|skills|], mems[|skills|], key);
  }

  lemma TimesBounded(w: World, wits: Wits, s: EnvState, m: Memory, key: string)
    requires Joint(w, wits, s, m)
    ensures TimesOf(m, key) <= 3
  {
    hide Faithful, QueueOk, QueuedOk, NotesOk, SentOk, LastOk, Linked, CallsKnown, Said;
  }

  /** Entries the log tells of were recorded under keys the harness sent. */
  lemma {:induction false} ItemsKnown(w: World, log: seq<Event>, tried: map<string, Tried>)
    requires CallsKnown(log, tried)
    ensures
      var b := BookOf(w, log);
      && |b.items| >= |w.scenario.existing|
      && (forall i :: |w.scenario.existing| <= i < |b.items| ==> b.items[i].key.Some? && b.items[i].key.value in tried)
      && (b.call.Some? && b.call.value.Record? ==> b.call.value.args.key.Some? && b.call.value.args.key.value in tried)
  {
    if log != [] {
      var before := log[..|log|-1];
      assert forall p :: 0 <= p < |before| ==> before[p] == log[p];
      ItemsKnown(w, before, tried);
    }
  }

  /** Each planned write leaves at most one entry: every entry the agent made was recorded under the key of one of its
      planned writes, and no two under the same. */
  lemma OneEntryPerWrite(w: World, wits: Wits, guards: bool, skills: seq<Skill>, run: seq<EnvState>, mems: seq<Memory>, s: EnvState, m: Memory)
    requires IsPlayed(w, wits, guards, skills, run, mems) && s == run[|skills|] && m == mems[|skills|]
    ensures
      var items := BookOf(w, s.events).items;
      && |items| == |s.ledger.entries|
      && (forall i :: |w.scenario.existing| <= i < |items| ==> items[i].key.Some? && KnownKey(m.scenario, m.keys, items[i].key.value))
      && (forall i, j :: |w.scenario.existing| <= i < j < |items| ==> items[i].key != items[j].key)
  {
    hide IsPlayed, BookOf, Said;
    PlayJoint(w, wits, guards, skills, run, mems, |skills|);
    ItemsKnown(w, s.events, m.tried);
    JointKeys(w, wits, s, m);
  }

  lemma JointKeys(w: World, wits: Wits, s: EnvState, m: Memory)
    requires Joint(w, wits, s, m)
    ensures Keyed(w, BookOf(w, s.events).items, s.ledger.idem) && EntriesOf(BookOf(w, s.events).items) == s.ledger.entries
    ensures forall k :: k in m.tried ==> KnownKey(m.scenario, m.keys, k)
  {
    hide BookOf, History, Shape, Said, QueueOk, QueuedOk, NotesOk, SentOk, LastOk, Linked, CallsKnown, KeyOf;
    forall k | k in m.tried ensures KnownKey(m.scenario, m.keys, k) {
      assert KnownKey(m.scenario, m.keys - |m.writes|, k);
    }
  }
}
