/** What the log of an episode played by the harness never shows: a draft confirmed after the owner corrected it. */
module HarnessLog {
  import opened OptionType
  import opened Contracts
  import opened JudgeSpec
  import opened EnvSpec
  import opened EventLog
  import opened EnvInvariants
  import opened EnvTheorems
  import opened EnvAnswers
  import opened HarnessSpec
  import opened HarnessTheorems
  import opened HarnessNotes
  import opened HarnessRun

  // ---------------------------------------------------------------- what one step writes to the log

  ghost predicate WritesNothing(log: seq<Event>, log': seq<Event>) {
    log <= log' && forall p :: |log| <= p < |log'| ==> !log'[p].data.LedgerWrite?
  }

  ghost predicate Voiceless(log: seq<Event>, log': seq<Event>) {
    log <= log' && forall p :: |log| <= p < |log'| ==> !log'[p].data.OwnerMessage?
  }

  lemma {:induction false} ItemsStay(w: World, log: seq<Event>, log': seq<Event>)
    requires WritesNothing(log, log')
    ensures BookOf(w, log').items == BookOf(w, log).items
    decreases |log'|
  {
    if |log'| > |log| {
      var before := log'[..|log'|-1];
      assert log <= before && forall p :: 0 <= p < |before| ==> before[p] == log'[p];
      ItemsStay(w, log, before);
    } else { assert log == log'; }
  }

  lemma {:induction false} SaidStays(wits: Wits, log: seq<Event>, log': seq<Event>)
    requires Voiceless(log, log')
    ensures Said(wits, log') == Said(wits, log)
    decreases |log'|
  {
    if |log'| > |log| {
      var before := log'[..|log'|-1];
      assert log <= before && forall p :: 0 <= p < |before| ==> before[p] == log'[p];
      SaidStays(wits, log, before);
    } else { assert log == log'; }
  }

  /** A tool call's write, if it made one. */
  predicate WriteOf(call: Call, d: EventData) {
    d.LedgerWrite? && if d.op.DraftOp? then call.Record? else call.Confirm? && d.id == call.id
  }

  lemma ToolWrites(w: World, s: EnvState, call: Call)
    ensures
      var t := ApplyTool(w, s, call);
      t.events == s.events || (|t.events| == |s.events| + 1 && s.events <= t.events && WriteOf(call, t.events[|s.events|].data))
  {
    hide Live, Listed, RecordOnce;
    if call.Record? { RecordDrafts(w, s.ledger, s.step, call.args); }
  }

  lemma RecordDrafts(w: World, l: Ledger, step: nat, a: RecordArgs)
    ensures RecordOnce(w, l, step, a).write.Some? ==> !RecordOnce(w, l, step, a).write.value.confirm
  {
    hide Live, FindDraft;
  }

  /** Neither writes nor words of the owner. */
  ghost predicate Plain(log: seq<Event>, log': seq<Event>) { WritesNothing(log, log') && Voiceless(log, log') }

  lemma PlainThen(a: seq<Event>, b: seq<Event>, c: seq<Event>)
    requires Plain(a, b) && Plain(b, c)
    ensures Plain(a, c)
  {
    forall p | |a| <= p < |c| ensures !c[p].data.LedgerWrite? && !c[p].data.OwnerMessage? {
      if p < |b| { assert c[p] == b[p]; }
    }
  }

  lemma AnswerPlain(w: World, s: EnvState, d: EventData, r: ToolResult)
    requires !d.LedgerWrite? && !d.OwnerMessage?
    ensures Plain(s.events, SetToolResult(w, s, r).events) && Plain(s.events, SetToolResult(w, Emit(s, d), r).events)
  {
    hide SetToolResult, Plain;
    ResultPlain(w, s, r);
    ResultPlain(w, Emit(s, d), r);
    assert Plain(s.events, Emit(s, d).events) by { EmitPlain(s, d); }
    PlainThen(s.events, Emit(s, d).events, SetToolResult(w, Emit(s, d), r).events);
  }

  lemma EmitPlain(s: EnvState, d: EventData)
    requires !d.LedgerWrite? && !d.OwnerMessage?
    ensures Plain(s.events, Emit(s, d).events)
  {
  }

  lemma ResultPlain(w: World, s: EnvState, r: ToolResult)
    ensures Plain(s.events, SetToolResult(w, s, r).events)
  {
  }

  /** A called tool logs the call and at most one write, and nothing else of note. */
  lemma ToolLog(w: World, s: EnvState, call: Call) returns (mid: seq<Event>)
    ensures
      var s1 := CountCall(s, call);
      Plain(mid, DoTool(w, s, call).events) &&
      (mid == s1.events || (|mid| == |s1.events| + 1 && s1.events <= mid && WriteOf(call, mid[|s1.events|].data)))
  {
    hide RunTool, ApplyTool, SetToolResult, NameOf, FaultFor, Plain, WriteOf, CountCall;
    var name, s1 := NameOf(call), CountCall(s, call);
    var fault := FaultFor(w.scenario.faults, name, s1.toolCalls[name]);
    mid := s1.events;
    AnswerPlain(w, s1, CrossTenant(name), ToolResult(name, false, DENIED));
    AnswerPlain(w, s1, FaultInjected(name, Timeout), ToolResult(name, false, TIMED_OUT));
    if !w.foreign(call) && fault != Some(Timeout) {
      var out, s2 := RunTool(w, s1, call), ApplyTool(w, s1, call);
      ToolWrites(w, s1, call);
      mid := s2.events;
      AnswerPlain(w, s2, FaultInjected(name, AckLost), ToolResult(name, false, TIMED_OUT));
      AnswerPlain(w, s2, FaultInjected(name, Malformed), ToolResult(name, true, Garbled));
      AnswerPlain(w, s2, FaultInjected(name, Malformed), ToolResult(name, out.ok, out.data));
    }
  }

  lemma FinishPlain(w: World, s: EnvState)
    ensures Plain(s.events, FinishStep(w, s).events)
  {
    hide Judge;
  }

  lemma BeginPlain(s: EnvState, a: Action)
    ensures Plain(s.events, Begin(s, a).events)
  {
  }

  lemma CountPlain(s: EnvState, call: Call)
    ensures
      var log := CountCall(s, call).events;
      Plain(s.events, log) && |log| == |s.events| + 1 && log[|s.events|].data.ToolCall? && log[|s.events|].data.call == call
  {
  }

  lemma MessageWrites(w: World, s: EnvState, text: string)
    ensures WritesNothing(s.events, DoMessage(w, s, text).events)
  {
    hide Spoken, React;
  }

  /** One step's log: at most one write, made by the step's tool call. */
  lemma StepLog(w: World, s: EnvState, a: Action) returns (mid: seq<Event>)
    ensures
      var log' := Step(w, s, a).events;
      if a.Tool? then
        var s1 := CountCall(Begin(s, a), a.call);
        && Plain(s.events, s1.events) && Plain(mid, log') && s1.events != [] && s1.events[|s1.events|-1].data.ToolCall? && s1.events[|s1.events|-1].data.call == a.call
        && (mid == s1.events || (|mid| == |s1.events| + 1 && s1.events <= mid && WriteOf(a.call, mid[|s1.events|].data)))
      else WritesNothing(s.events, log')
  {
    hide DoTool, DoMessage, FinishStep, Plain, WriteOf, CountCall;
    var s0 := Begin(s, a);
    var s1 := Act(w, s0, a);
    BeginPlain(s, a);
    FinishPlain(w, if a.Rejected? then s1 else Truncate(s1));
    mid := [];
    match a
    case Tool(call) =>
      mid := ToolLog(w, s0, call);
      CountPlain(s0, call);
      PlainThen(s.events, s0.events, CountCall(s0, call).events);
      PlainThen(mid, s1.events, Step(w, s, a).events);
    case Message(text) =>
      MessageWrites(w, s0, text);
      QuietWrites(s.events, s0.events, s1.events, Step(w, s, a).events);
    case _ => QuietWrites(s.events, s0.events, s1.events, Step(w, s, a).events);
  }

  lemma QuietWrites(a: seq<Event>, b: seq<Event>, c: seq<Event>, d: seq<Event>)
    requires Plain(a, b) && WritesNothing(b, c) && Plain(c, d)
    ensures WritesNothing(a, d)
  {
    forall p | |a| <= p < |d| ensures !d[p].data.LedgerWrite? {
      if p < |b| { assert d[p] == b[p]; } else if p < |c| { assert d[p] == c[p]; }
    }
  }

  // ---------------------------------------------------------------- what one step does to the items

  /** The same items, at most one more; each keeps its key and the place of its draft. */
  predicate Origins(items: seq<Item>, items': seq<Item>) {
    |items| <= |items'| <= |items| + 1 && forall i :: 0 <= i < |items| ==> items'[i].key == items[i].key && items'[i].draftedAt == items[i].draftedAt
  }

  function SaidAt(wits: Wits, log: seq<Event>, k: int): nat {
    if 0 <= k <= |log| then Said(wits, log[..k]) else 0
  }

  /** A new item is of this call, drafted in this step; and no owner message lies in the step before it. */
  ghost predicate Added(wits: Wits, items: seq<Item>, items': seq<Item>, log: seq<Event>, log': seq<Event>, a: Action) {
    |items'| > |items| ==>
      a.Tool? && a.call.Record? && items'[|items|].key == a.call.args.key && SaidAt(wits, log', items'[|items|].draftedAt) == Said(wits, log)
  }

  /** A new confirming event is of this call, and no owner message lies in the step before it. */
  ghost predicate Flips(wits: Wits, log: seq<Event>, log': seq<Event>, a: Action) {
    forall q, id :: q >= |log| && ConfirmAt(log', q, id) ==>
      a.Tool? && a.call.Confirm? && a.call.id == id && SaidAt(wits, log', q) == Said(wits, log)
  }

  lemma StepItems(w: World, wits: Wits, s: EnvState, a: Action)
    ensures
      var log, log' := s.events, Step(w, s, a).events;
      && log <= log' && Origins(BookOf(w, log).items, BookOf(w, log').items)
      && Added(wits, BookOf(w, log).items, BookOf(w, log').items, log, log', a) && Flips(wits, log, log', a)
  {
    hide Step, WriteOf, Said, BookOf, CountCall;
    var mid := StepLog(w, s, a);
    var log, log' := s.events, Step(w, s, a).events;
    if a.Tool? {
      var log1 := CountCall(Begin(s, a), a.call).events;
      ItemsStay(w, log, log1);
      ItemsStay(w, mid, log');
      SaidStays(wits, log, log1);
      WriteItems(w, log1, mid, a.call);
      assert log'[..|log1|] == log1;
      forall q, id | q >= |log| && ConfirmAt(log', q, id) ensures a.call.Confirm? && a.call.id == id && q == |log1| {
        WhereWritten(log, log1, mid, log', q);
        OpOfWrite(a.call, mid[q].data);
      }
    } else {
      ItemsStay(w, log, log');
    }
  }

  lemma WhereWritten(log: seq<Event>, log1: seq<Event>, mid: seq<Event>, log': seq<Event>, q: nat)
    requires Plain(log, log1) && log1 <= mid && |mid| <= |log1| + 1 && Plain(mid, log')
    requires |log| <= q < |log'| && log'[q].data.LedgerWrite?
    ensures q == |log1| < |mid| && log'[q] == mid[q]
  {
    assert forall p :: |log| <= p < |log1| ==> log'[p] == log1[p] && !log1[p].data.LedgerWrite?;
  }

  lemma OpOfWrite(call: Call, d: EventData)
    requires WriteOf(call, d) && d.op.ConfirmOp?
    ensures call.Confirm? && d.id == call.id
  {
  }

  lemma WriteItems(w: World, log: seq<Event>, mid: seq<Event>, call: Call)
    requires log != [] && log[|log|-1].data.ToolCall? && log[|log|-1].data.call == call
    requires mid == log || (|mid| == |log| + 1 && log <= mid && WriteOf(call, mid[|log|].data))
    ensures Origins(BookOf(w, log).items, BookOf(w, mid).items)
    ensures
      var items, items' := BookOf(w, log).items, BookOf(w, mid).items;
      |items'| > |items| ==> call.Record? && items'[|items|].key == call.args.key && items'[|items|].draftedAt == |log|
  {
    if mid != log { assert mid[..|mid|-1] == log; }
  }

  // ---------------------------------------------------------------- the invariant

  /** What was drafted under the key of the write under way was drafted since the last correction. */
  ghost predicate InflightTimely(w: World, wits: Wits, items: seq<Item>, log: seq<Event>, m: Memory) {
    m.inflight.Some? ==> forall i :: |w.scenario.existing| <= i < |items| && items[i].key == m.inflight.value.args.key ==>
      SaidAt(wits, log, items[i].draftedAt) == m.heard
  }

  /** A noted draft was drafted when the owner had made as many corrections as when it was learned of. */
  ghost predicate NotesTimely(w: World, wits: Wits, items: seq<Item>, log: seq<Event>, fs: seq<Fact>) {
    forall i, j :: |w.scenario.existing| <= i < |items| && 0 <= j < |fs| && fs[j].key == items[i].key ==>
      SaidAt(wits, log, items[i].draftedAt) == fs[j].born
  }

  /** Between an item's draft and the event at `q` the owner corrected nothing. */
  predicate TimelyAt(w: World, wits: Wits, items: seq<Item>, log: seq<Event>, q: int, id: EntryId) {
    id.New? && 1 <= id.n && |w.scenario.existing| + id.n - 1 < |items| &&
    SaidAt(wits, log, items[|w.scenario.existing| + id.n - 1].draftedAt) == SaidAt(wits, log, q)
  }

  ghost predicate ConfirmsTimely(w: World, wits: Wits, items: seq<Item>, log: seq<Event>) {
    forall q, id :: ConfirmAt(log, q, id) ==> TimelyAt(w, wits, items, log, q, id)
  }

  ghost predicate DraftsInside(w: World, items: seq<Item>, log: seq<Event>) {
    forall i :: |w.scenario.existing| <= i < |items| ==> 0 <= items[i].draftedAt < |log|
  }

  ghost predicate Timely(w: World, wits: Wits, s: EnvState, m: Memory) {
    var items := BookOf(w, s.events).items;
    && InflightTimely(w, wits, items, s.events, m) && NotesTimely(w, wits, items, s.events, FactsOf(m.drafts))
    && ConfirmsTimely(w, wits, items, s.events)
  }

  lemma SaidAtStays(wits: Wits, log: seq<Event>, log': seq<Event>, k: int)
    requires log <= log' && k <= |log|
    ensures SaidAt(wits, log', k) == SaidAt(wits, log, k)
  {
    hide Said;
    if k >= 0 { assert log'[..k] == log[..k]; }
  }

  /** Keys of the items are keys of writes sent. */
  predicate KeysTried(w: World, items: seq<Item>, tried: map<string, Tried>) {
    forall i :: |w.scenario.existing| <= i < |items| ==> items[i].key.Some? && items[i].key.value in tried
  }

  lemma InflightStays(w: World, wits: Wits, items: seq<Item>, items': seq<Item>, log: seq<Event>, log': seq<Event>, m: Memory, m': Memory, turn: Turn, r: Option<ToolResult>)
    requires log <= log' && Origins(items, items') && Added(wits, items, items', log, log', ActionOf(turn)) && DraftsInside(w, items, log)
    requires InflightTimely(w, wits, items, log, m) && KeysTried(w, items, m.tried)
    requires Lawful(m, r, m', turn) && !turn.Broken? && !turn.Deciding?
    requires m'.heard == Said(wits, log) && (m.inflight.Some? ==> m.heard == Said(wits, log))
    ensures InflightTimely(w, wits, items', log', m')
  {
    hide Said, Uncorrected, SaidAt;
    if m'.inflight.Some? {
      var args := m'.inflight.value.args;
      forall i | |w.scenario.existing| <= i < |items'| && items'[i].key == args.key ensures SaidAt(wits, log', items'[i].draftedAt) == m'.heard {
        if i < |items| {
          assert items[i].key == args.key && args.key.value in m.tried;
          SaidAtStays(wits, log, log', items[i].draftedAt);
        }
      }
    }
  }

  lemma NotesStay(w: World, wits: Wits, items: seq<Item>, items': seq<Item>, log: seq<Event>, log': seq<Event>, m: Memory, m': Memory, turn: Turn, r: Option<ToolResult>)
    requires log <= log' && Origins(items, items') && Added(wits, items, items', log, log', ActionOf(turn)) && DraftsInside(w, items, log)
    requires InflightTimely(w, wits, items, log, m) && NotesTimely(w, wits, items, log, FactsOf(m.drafts))
    requires Lawful(m, r, m', turn) && !turn.Broken? && !turn.Deciding?
    requires FactsOf(m'.drafts) == FactsOf(m.drafts) + NewFacts(m, r)
    requires m'.inflight.Some? ==> forall i :: 0 <= i < |m'.drafts| ==> m'.drafts[i].key != m'.inflight.value.args.key
    ensures NotesTimely(w, wits, items', log', FactsOf(m'.drafts))
  {
    hide Said, Uncorrected, SaidAt;
    var fs, fs' := FactsOf(m.drafts), FactsOf(m'.drafts);
    assert forall x :: 0 <= x < |fs'| ==> m'.drafts[x].key == fs'[x].key;
    forall i, j | |w.scenario.existing| <= i < |items'| && 0 <= j < |fs'| && fs'[j].key == items'[i].key
      ensures SaidAt(wits, log', items'[i].draftedAt) == fs'[j].born
    {
      if i < |items| {
        SaidAtStays(wits, log, log', items[i].draftedAt);
        if j < |fs| { assert fs'[j] == fs[j]; } else { assert fs'[j] == NewFacts(m, r)[0]; }
      }
    }
  }

  lemma ConfirmsStay(w: World, wits: Wits, items: seq<Item>, items': seq<Item>, log: seq<Event>, log': seq<Event>, m': Memory, turn: Turn)
    requires log <= log' && Origins(items, items') && DraftsInside(w, items, log) && ConfirmsTimely(w, wits, items, log)
    requires Flips(wits, log, log', ActionOf(turn)) && NotesTimely(w, wits, items', log', FactsOf(m'.drafts))
    requires forall kind, id :: ActionOf(turn) == Tool(Confirm(kind, id)) ==> NotedTimely(w, wits, items', log, FactsOf(m'.drafts), id)
    ensures ConfirmsTimely(w, wits, items', log')
  {
    hide Said, SaidAt;
    forall q, id | ConfirmAt(log', q, id) ensures TimelyAt(w, wits, items', log', q, id) {
      if q < |log| {
        assert ConfirmAt(log, q, id) && TimelyAt(w, wits, items, log, q, id);
        SaidAtStays(wits, log, log', q);
        SaidAtStays(wits, log, log', items[|w.scenario.existing| + id.n - 1].draftedAt);
      } else {
        assert NotedTimely(w, wits, items', log, FactsOf(m'.drafts), id) by {
          assert ActionOf(turn) == Tool(Confirm(ActionOf(turn).call.kind, id));
        }
        var j :| 0 <= j < |FactsOf(m'.drafts)| && NotedAs(w, wits, items', log, FactsOf(m'.drafts)[j], id);
      }
    }
  }

  /** The fact is of item `id`, learned of when the owner had made as many corrections as the log tells. */
  predicate NotedAs(w: World, wits: Wits, items: seq<Item>, log: seq<Event>, f: Fact, id: EntryId) {
    f.id == id && f.born == Said(wits, log) &&
    id.New? && 1 <= id.n && |w.scenario.existing| + id.n - 1 < |items| && items[|w.scenario.existing| + id.n - 1].key == f.key
  }

  predicate NotedTimely(w: World, wits: Wits, items: seq<Item>, log: seq<Event>, fs: seq<Fact>, id: EntryId) {
    exists j :: 0 <= j < |fs| && NotedAs(w, wits, items, log, fs[j], id)
  }

  /** A confirmed draft's note is that of its item. */
  lemma ConfirmNoted(w: World, wits: Wits, t: EnvState, log: seq<Event>, m': Memory, kind: EntryKind, id: EntryId)
    requires Uncorrected(m', id, kind) && m'.heard == Said(wits, log)
    requires Linked(t.ledger.idem, FactsOf(m'.drafts)) && Keyed(w, BookOf(w, t.events).items, t.ledger.idem)
    ensures NotedTimely(w, wits, BookOf(w, t.events).items, log, FactsOf(m'.drafts), id)
  {
    hide Said, BookOf, FactsOf;
    ConfirmedFact(m', id, kind);
    var fs, items := FactsOf(m'.drafts), BookOf(w, t.events).items;
    var j :| 0 <= j < |fs| && fs[j].id == id && fs[j].born == m'.heard;
    assert SavedUnder(t.ledger.idem, fs[j].key, id);
    assert Owned(w, items, fs[j].key.value, id, t.ledger.idem[fs[j].key.value].fig);
    assert NotedAs(w, wits, items, log, fs[j], id);
  }

  // ---------------------------------------------------------------- over a whole run

  lemma JointFacts(w: World, wits: Wits, s: EnvState, m: Memory)
    requires Joint(w, wits, s, m)
    ensures DraftsInside(w, BookOf(w, s.events).items, s.events) && Keyed(w, BookOf(w, s.events).items, s.ledger.idem)
    ensures KeysTried(w, BookOf(w, s.events).items, m.tried) && Linked(s.ledger.idem, FactsOf(m.drafts))
    ensures m.inflight.Some? ==> forall i :: 0 <= i < |m.drafts| ==> m.drafts[i].key != m.inflight.value.args.key
    ensures m.inflight.Some? && !s.done ==> m.heard == Said(wits, s.events)
  {
    hide Said, BookOf, QueueOk, QueuedOk, NotesOk, SentOk, WritesOk, Linked, IdemPlain, ResultLinked, Guarded, FlagsTrue, ApprovalsLogged, YesLogged, CorrectionsBounded, Accounted;
    ItemsKnown(w, s.events, m.tried);
    forall i | |w.scenario.existing| <= i < |BookOf(w, s.events).items| ensures 0 <= BookOf(w, s.events).items[i].draftedAt < |s.events| {
      assert ItemLocated(w, BookOf(w, s.events).items[i], s.events);
    }
    if m.inflight.Some? && !s.done { InflightHeard(wits, s, m); }
  }

  lemma {:induction false} AllTimely(w: World, wits: Wits, guards: bool, skills: seq<Skill>, run: seq<EnvState>, mems: seq<Memory>, k: nat)
    requires IsPlayed(w, wits, guards, skills, run, mems) && k <= |skills|
    ensures Timely(w, wits, run[k], mems[k])
  {
    hide Plays, Reset, Step, Joint, Said, PolicyAct, Lawful, BookOf, FactsOf, InflightTimely, NotesTimely, ConfirmsTimely, Origins, Added, Flips, DraftsInside, KeysTried, Linked, Keyed, NotedTimely;
    if k == 0 { NothingTimely(w, wits, guards); }
    else {
      AllTimely(w, wits, guards, skills, run, mems, k - 1);
      var s, t, m, m' := run[k-1], run[k], mems[k-1], mems[k];
      var turn := PolicyAct(wits, m, Observe(s), skills[k-1]).1;
      PlayJoint(w, wits, guards, skills, run, mems, k - 1);
      PlayJoint(w, wits, guards, skills, run, mems, k);
      StepLawful(w, wits, guards, skills, run, mems, k - 1);
      JointFacts(w, wits, s, m);
      JointFacts(w, wits, t, m');
      PlayedStep(w, wits, s, m, skills[k-1], t, m');
      StepItems(w, wits, s, ActionOf(turn));
      ActNotes(wits, m, Observe(s), skills[k-1]);
      InflightStays(w, wits, BookOf(w, s.events).items, BookOf(w, t.events).items, s.events, t.events, m, m', turn, s.lastResult);
      NotesStay(w, wits, BookOf(w, s.events).items, BookOf(w, t.events).items, s.events, t.events, m, m', turn, s.lastResult);
      forall kind, id | ActionOf(turn) == Tool(Confirm(kind, id))
        ensures NotedTimely(w, wits, BookOf(w, t.events).items, s.events, FactsOf(m'.drafts), id)
      {
        ConfirmUncorrected(m, s.lastResult, m', turn, kind, id);
        ConfirmNoted(w, wits, t, s.events, m', kind, id);
      }
      ConfirmsStay(w, wits, BookOf(w, s.events).items, BookOf(w, t.events).items, s.events, t.events, m', turn);
    }
  }

  lemma PlayedStep(w: World, wits: Wits, s: EnvState, m: Memory, skill: Skill, t: EnvState, m': Memory)
    requires Joint(w, wits, s, m) && Plays(w, wits, s, m, skill, t, m')
    ensures
      var (next, turn) := PolicyAct(wits, m, Observe(s), skill);
      next == m' && !turn.Broken? && !turn.Deciding? && t == Step(w, s, ActionOf(turn)) && !s.done && HarnessTheorems.Inv(m) && Honest(m, s.lastResult)
  {
    hide PolicyAct, Step, Faithful, HarnessTheorems.Inv, Honest, Lawful, Linked, CallsKnown, Said;
    HarnessTheorems.ActKeeps(wits, m, Observe(s), skill);
  }

  lemma NothingTimely(w: World, wits: Wits, guards: bool)
    requires w.scenario.script != []
    ensures Timely(w, wits, Reset(w, guards), HarnessSpec.Fresh(w.scenario.id))
  {
    hide BookOf, Said, Keyed, History, OwnerSays;
    ResetKeeps(w, guards);
    var s := Reset(w, guards);
    assert |BookOf(w, s.events).items| == |s.ledger.entries| == |w.scenario.existing|;
    forall q, id ensures !ConfirmAt(s.events, q, id) {
      if ConfirmAt(s.events, q, id) { var it := WriteBelongs(w, s, q, id); }
    }
  }

  lemma ConfirmUncorrected(m: Memory, r: Option<ToolResult>, m': Memory, turn: Turn, kind: EntryKind, id: EntryId)
    requires Lawful(m, r, m', turn) && ActionOf(turn) == Tool(Confirm(kind, id))
    ensures Uncorrected(m', id, kind)
  {
    hide Uncorrected;
  }

  // ---------------------------------------------------------------- no corrected draft is confirmed

  predicate Corrects(wits: Wits, d: EventData) { d.OwnerMessage? && wits.saysCorrection(d.text) }

  /** The entry's draft event at `p`, and no owner message that reads as a correction up to `q`. */
  ghost predicate Uninterrupted(wits: Wits, log: seq<Event>, p: int, q: int, id: EntryId) {
    DraftAt(log, p, id) && p < q && forall c :: p < c < q && 0 <= c < |log| ==> !Corrects(wits, log[c].data)
  }

  lemma {:induction false} NothingSaid(wits: Wits, log: seq<Event>, p: nat, q: nat)
    requires p <= q <= |log| && SaidAt(wits, log, p) == SaidAt(wits, log, q)
    ensures forall c :: p <= c < q ==> !Corrects(wits, log[c].data)
  {
    if p < q {
      assert log[..q][..q-1] == log[..q-1] && log[..q][q-1] == log[q-1];
      SaidGrows(wits, log, p, q - 1);
      NothingSaid(wits, log, p, q - 1);
    }
  }

  lemma {:induction false} SaidGrows(wits: Wits, log: seq<Event>, p: nat, q: nat)
    requires p <= q <= |log|
    ensures SaidAt(wits, log, p) <= SaidAt(wits, log, q)
  {
    if p < q {
      assert log[..q][..q-1] == log[..q-1];
      SaidGrows(wits, log, p, q - 1);
    }
  }

  /** Where the draft event of a noted item is. */
  lemma DraftOfNoted(w: World, wits: Wits, s: EnvState, f: Fact, id: EntryId, items: seq<Item>) returns (p: nat)
    requires Faithful(w, s) && items == BookOf(w, s.events).items && NotedAs(w, wits, items, s.events, f, id)
    ensures p < |s.events| && DraftAt(s.events, p, id) && p == items[|w.scenario.existing| + id.n - 1].draftedAt
  {
    hide BookOf, Guarded, FlagsTrue, ApprovalsLogged, YesLogged, CorrectionsBounded, Keyed, Accounted, Cued;
    var i := |w.scenario.existing| + id.n - 1;
    assert items[i].entry == EntriesOf(items)[i] && s.ledger.entries[i].id == IdAt(|w.scenario.existing|, i);
    assert ItemLocated(w, items[i], s.events);
    p := items[i].draftedAt;
  }

  /** A confirm is never even sent for a draft the owner has corrected since: between the entry's draft event and the
      moment of sending, the log has no message the harness reads as a correction. */
  lemma NoCorrectedSend(w: World, wits: Wits, guards: bool, skills: seq<Skill>, run: seq<EnvState>, mems: seq<Memory>, i: nat, kind: EntryKind, id: EntryId)
    requires IsPlayed(w, wits, guards, skills, run, mems) && i < |skills|
    requires ActionAt(wits, skills, run, mems, i) == Tool(Confirm(kind, id))
    ensures exists p :: Uninterrupted(wits, run[i].events, p, |run[i].events|, id)
  {
    hide Plays, Reset, Step, Joint, Said, PolicyAct, Lawful, BookOf, FactsOf, InflightTimely, ConfirmsTimely, DraftsInside, KeysTried, Linked, Keyed, Corrects, SaidAt;
    var s, t, m, m' := run[i], run[i+1], mems[i], mems[i+1];
    var turn := PolicyAct(wits, m, Observe(s), skills[i]).1;
    PlayJoint(w, wits, guards, skills, run, mems, i);
    PlayJoint(w, wits, guards, skills, run, mems, i + 1);
    AllTimely(w, wits, guards, skills, run, mems, i + 1);
    StepLawful(w, wits, guards, skills, run, mems, i);
    JointFacts(w, wits, s, m);
    JointFacts(w, wits, t, m');
    PlayedStep(w, wits, s, m, skills[i], t, m');
    StepItems(w, wits, s, ActionOf(turn));
    ConfirmUncorrected(m, s.lastResult, m', turn, kind, id);
    ConfirmNoted(w, wits, t, s.events, m', kind, id);
    var fs, items, items' := FactsOf(m'.drafts), BookOf(w, s.events).items, BookOf(w, t.events).items;
    var j :| 0 <= j < |fs| && NotedAs(w, wits, items', s.events, fs[j], id);
    assert |items'| == |items| && NotedAs(w, wits, items, s.events, fs[j], id);
    assert Faithful(w, s) by { JointFaithful(w, wits, s, m); }
    var p := DraftOfNoted(w, wits, s, fs[j], id, items);
    SaidAtStays(wits, s.events, t.events, p);
    SaidAtEnd(wits, s.events);
    NothingSaid(wits, s.events, p, |s.events|);
    assert Uninterrupted(wits, s.events, p, |s.events|, id);
  }

  lemma JointFaithful(w: World, wits: Wits, s: EnvState, m: Memory)
    requires Joint(w, wits, s, m)
    ensures Faithful(w, s)
  {
    hide Faithful;
  }

  lemma SaidAtEnd(wits: Wits, log: seq<Event>)
    ensures SaidAt(wits, log, |log|) == Said(wits, log)
  {
    assert log[..|log|] == log;
  }

  /** In the log of whatever the harness plays - any policy, any faults, guards or none - no message the harness reads as
      a correction lies between an entry's draft event and its confirm event. */
  lemma NoCorrectedConfirm(w: World, wits: Wits, guards: bool, skills: seq<Skill>, run: seq<EnvState>, mems: seq<Memory>, s: EnvState, q: nat, id: EntryId)
    requires IsPlayed(w, wits, guards, skills, run, mems) && s == run[|skills|] && ConfirmAt(s.events, q, id)
    ensures exists p :: Uninterrupted(wits, s.events, p, q, id)
  {
    hide IsPlayed, Faithful, BookOf, Said, SaidAt, InflightTimely, NotesTimely, Linked, CallsKnown, HarnessTheorems.Inv, Honest, Corrects;
    PlayJoint(w, wits, guards, skills, run, mems, |skills|);
    AllTimely(w, wits, guards, skills, run, mems, |skills|);
    var it := WriteBelongs(w, s, q, id);
    assert TimelyAt(w, wits, BookOf(w, s.events).items, s.events, q, id);
    NothingSaid(wits, s.events, it.draftedAt, q);
    assert Uninterrupted(wits, s.events, it.draftedAt, q, id);
  }

  lemma CorrectionTold(w: World, wits: Wits, log: seq<Event>, c: nat)
    requires Scripted(w, log) && c < |log|
    requires forall line :: line in w.scenario.script && line.intent == Correct ==> wits.saysCorrection(line.say)
    ensures CorrectionAt(log, c) ==> Corrects(wits, log[c].data)
  {
    hide BookOf;
    assert InTurn(w, log[..c], log[c].data);
  }

  /** So if the harness can tell every correcting line of the script, none of them lies there either. */
  lemma NoCorrectConfirm(w: World, wits: Wits, guards: bool, skills: seq<Skill>, run: seq<EnvState>, mems: seq<Memory>, s: EnvState, q: nat, id: EntryId)
    requires IsPlayed(w, wits, guards, skills, run, mems) && s == run[|skills|] && ConfirmAt(s.events, q, id)
    requires forall line :: line in w.scenario.script && line.intent == Correct ==> wits.saysCorrection(line.say)
    ensures exists p :: DraftAt(s.events, p, id) && p < q && forall c :: p < c < q ==> !CorrectionAt(s.events, c)
  {
    hide IsPlayed, BookOf, Said, Agrees, Linked, CallsKnown, HarnessTheorems.Inv, Honest, DraftAt;
    PlayJoint(w, wits, guards, skills, run, mems, |skills|);
    NoCorrectedConfirm(w, wits, guards, skills, run, mems, s, q, id);
    var p :| Uninterrupted(wits, s.events, p, q, id);
    forall c | p < c < q ensures !CorrectionAt(s.events, c) {
      if 0 <= c < |s.events| { CorrectionTold(w, wits, s.events, c); }
    }
  }
}
