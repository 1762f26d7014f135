/** What one step of the environment shows to the agent and leaves in the log. */
module EnvAnswers {
  import opened OptionType
  import opened Contracts
  import opened JudgeSpec
  import opened EnvSpec
  import opened HarnessSpec

  // ---------------------------------------------------------------- what a step of the environment shows

  /** How often the owner has corrected something, by the log. */
  function Said(wits: Wits, log: seq<Event>): nat {
    if log == [] then 0
    else Said(wits, log[..|log|-1]) + if log[|log|-1].data.OwnerMessage? && wits.saysCorrection(log[|log|-1].data.text) then 1 else 0
  }

  lemma SaidNext(wits: Wits, log: seq<Event>, e: Event)
    ensures Said(wits, log + [e]) == Said(wits, log) + if e.data.OwnerMessage? && wits.saysCorrection(e.data.text) then 1 else 0
  {
    assert (log + [e])[..|log|] == log;
  }

  /** The owner said nothing and no tool was called. */
  predicate Silent(d: EventData) { !d.OwnerMessage? && !d.ToolCall? }

  /** `t` is `s` with only silent events added, the owner's side and the last message unchanged. */
  ghost predicate Quiet(wits: Wits, s: EnvState, t: EnvState) {
    && s.events <= t.events && (forall p :: |s.events| <= p < |t.events| ==> Silent(t.events[p].data))
    && Said(wits, t.events) == Said(wits, s.events) && t.owner.pending == s.owner.pending && t.lastMessage == s.lastMessage
  }

  lemma QuietEmit(wits: Wits, s: EnvState, d: EventData)
    requires Silent(d)
    ensures Quiet(wits, s, Emit(s, d))
  {
    SaidNext(wits, s.events, Event(|s.events|, d));
  }

  lemma QuietThen(wits: Wits, s: EnvState, t: EnvState, u: EnvState)
    requires Quiet(wits, s, t) && Quiet(wits, t, u)
    ensures Quiet(wits, s, u)
  {
    hide Said;
    forall p | |s.events| <= p < |u.events| ensures Silent(u.events[p].data) {
      if p < |t.events| { assert u.events[p] == t.events[p]; }
    }
  }

  lemma ResultQuiet(w: World, wits: Wits, s: EnvState, r: ToolResult)
    ensures Quiet(wits, s, SetToolResult(w, s, r))
  {
    var s1 := s.(lastResult := Some(r));
    QuietEmit(wits, s1, ToolResultEv(r));
  }

  lemma ApplyQuiet(w: World, wits: Wits, s: EnvState, call: Call)
    ensures Quiet(wits, s, ApplyTool(w, s, call))
  {
    hide RunTool, Said;
    var out := RunTool(w, s, call);
    var s1 := s.(ledger := out.ledger);
    if out.write.Some? {
      var e := out.write.value.entry;
      QuietEmit(wits, s1, LedgerWrite(if out.write.value.confirm then ConfirmOp(e.id in s.owner.approvals) else DraftOp, e.id, e.fig));
    }
  }

  lemma AnswerQuiet(w: World, wits: Wits, s: EnvState, name: ToolName, fault: Option<FaultKind>, ok: bool, data: ToolData)
    ensures Quiet(wits, s, Answer(w, s, name, fault, ok, data))
    ensures
      var t := Answer(w, s, name, fault, ok, data);
      t.lastResult.Some? && t.lastResult.value.name == name &&
      (t.lastResult.value == ToolResult(name, ok, data) || t.lastResult.value.data == TIMED_OUT || t.lastResult.value.data.Garbled?)
  {
    hide SetToolResult, Quiet;
    if fault == Some(AckLost) || fault == Some(Malformed) {
      QuietEmit(wits, s, FaultInjected(name, fault.value));
      var s1 := Emit(s, FaultInjected(name, fault.value));
      var r := if fault == Some(AckLost) then ToolResult(name, false, TIMED_OUT) else ToolResult(name, true, Garbled);
      ResultQuiet(w, wits, s1, r);
      QuietThen(wits, s, s1, SetToolResult(w, s1, r));
    } else {
      ResultQuiet(w, wits, s, ToolResult(name, ok, data));
    }
  }

  /** One call: counted and logged first, quiet from then on; the result is the tool's, or a loss. */
  ghost predicate Called(w: World, wits: Wits, s: EnvState, t: EnvState, call: Call) {
    var s1 := CountCall(s, call);
    && Quiet(wits, s1, t)
    && t.lastResult.Some? && t.lastResult.value.name == NameOf(call)
    && (Lost(t.lastResult.value.data) || Heard(w, s1, t, call))
    && (t.ledger == s.ledger || t.ledger == RunTool(w, s1, call).ledger)
  }

  predicate Heard(w: World, s: EnvState, t: EnvState, call: Call) {
    var out := RunTool(w, s, call);
    t.lastResult == Some(ToolResult(NameOf(call), out.ok, out.data)) && t.ledger == out.ledger
  }

  predicate Lost(d: ToolData) { d == TIMED_OUT || d == DENIED || d.Garbled? }

  lemma DoToolCalled(w: World, wits: Wits, s: EnvState, call: Call)
    ensures Called(w, wits, s, DoTool(w, s, call), call)
  {
    hide RunTool, ApplyTool, SetToolResult, Answer, NameOf, FaultFor, Quiet, CountCall;
    var name, s1 := NameOf(call), CountCall(s, call);
    var fault := FaultFor(w.scenario.faults, name, s1.toolCalls[name]);
    if w.foreign(call) {
      QuietEmit(wits, s1, CrossTenant(name));
      LostQuiet(w, wits, s1, Emit(s1, CrossTenant(name)), ToolResult(name, false, DENIED));
    } else if fault == Some(Timeout) {
      QuietEmit(wits, s1, FaultInjected(name, Timeout));
      LostQuiet(w, wits, s1, Emit(s1, FaultInjected(name, Timeout)), ToolResult(name, false, TIMED_OUT));
    } else {
      var out := RunTool(w, s1, call);
      ApplyQuiet(w, wits, s1, call);
      AnswerQuiet(w, wits, ApplyTool(w, s1, call), name, fault, out.ok, out.data);
      QuietThen(wits, s1, ApplyTool(w, s1, call), Answer(w, ApplyTool(w, s1, call), name, fault, out.ok, out.data));
    }
  }

  lemma LostQuiet(w: World, wits: Wits, s: EnvState, t: EnvState, r: ToolResult)
    requires Quiet(wits, s, t)
    ensures Quiet(wits, s, SetToolResult(w, t, r))
  {
    ResultQuiet(w, wits, t, r);
    QuietThen(wits, s, t, SetToolResult(w, t, r));
  }

  // ---------------------------------------------------------------- what tools answer

  /** Under every key lies the outcome of a recording. */
  ghost predicate IdemPlain(idem: map<string, ToolData>) { forall k :: k in idem ==> idem[k].Saved? || idem[k].NotSaved? }

  ghost predicate IdemGrows(idem: map<string, ToolData>, idem': map<string, ToolData>) {
    forall k :: k in idem ==> k in idem' && idem'[k] == idem[k]
  }

  /** A saved draft is remembered under the call's key. */
  predicate SavedUnder(idem: map<string, ToolData>, key: Option<string>, id: EntryId) {
    key.Some? ==> key.value in idem && idem[key.value].Saved? && idem[key.value].id == id
  }

  lemma RecordSays(w: World, l: Ledger, step: nat, a: RecordArgs)
    requires IdemPlain(l.idem)
    ensures
      var out := RecordOnce(w, l, step, a);
      && IdemPlain(out.ledger.idem) && IdemGrows(l.idem, out.ledger.idem) && !out.data.NeedsApproval?
      && (out.data.Saved? ==> SavedUnder(out.ledger.idem, a.key, out.data.id))
  {
    hide RecordDraft;
    DraftSays(w, l, step, a);
  }

  lemma DraftSays(w: World, l: Ledger, step: nat, a: RecordArgs)
    ensures var out := RecordDraft(w, l, step, a); (out.data.Saved? || out.data.NotSaved?) && out.ledger.idem == l.idem
  {
    hide Live, FindDraft;
  }

  lemma ConfirmSays(l: Ledger, guards: bool, yes: seq<nat>, kind: EntryKind, id: EntryId)
    ensures
      var out := ConfirmDraft(l, guards, yes, kind, id);
      out.ledger.idem == l.idem && out.ok && !out.data.Saved? && (out.data.NeedsApproval? ==> out.data.id == id)
  {
  }

  lemma RunToolSays(w: World, s: EnvState, call: Call)
    requires IdemPlain(s.ledger.idem)
    ensures
      var out := RunTool(w, s, call);
      && IdemPlain(out.ledger.idem) && IdemGrows(s.ledger.idem, out.ledger.idem)
      && (out.data.NeedsApproval? ==> out.ok && call.Confirm? && call.id == out.data.id)
      && (out.data.Saved? ==> call.Record? && SavedUnder(out.ledger.idem, call.args.key, out.data.id))
  {
    hide Live, Listed, RecordOnce, ConfirmDraft;
    match call
    case Record(a) => RecordSays(w, s.ledger, s.step, a);
    case Confirm(kind, id) => ConfirmSays(s.ledger, s.guards, s.owner.yesSteps, kind, id);
    case _ =>
  }

  /** What a step with this tool call shows afterwards. */
  ghost predicate ToolShown(s: EnvState, t: EnvState, call: Call) {
    && t.lastResult.Some? && t.lastResult.value.name == NameOf(call)
    && (t.lastResult.value.data.NeedsApproval? ==> t.lastResult.value.ok && call.Confirm? && call.id == t.lastResult.value.data.id)
    && (t.lastResult.value.data.Saved? ==> call.Record? && SavedUnder(t.ledger.idem, call.args.key, t.lastResult.value.data.id))
    && IdemPlain(t.ledger.idem) && IdemGrows(s.ledger.idem, t.ledger.idem)
  }

  lemma CalledShows(w: World, wits: Wits, s: EnvState, t: EnvState, call: Call)
    requires Called(w, wits, s, t, call) && IdemPlain(s.ledger.idem)
    ensures ToolShown(s, t, call)
  {
    hide RunTool, Quiet, NameOf;
    RunToolSays(w, CountCall(s, call), call);
  }

  // ---------------------------------------------------------------- what a message brings

  /** A correction the owner answered our last message with. */
  function Brought(wits: Wits, t: EnvState): nat
    requires t.lastMessage.Some?
  {
    if !t.lastMessage.value.Hold? && t.owner.pending.Some? && wits.saysCorrection(t.owner.pending.value) then 1 else 0
  }

  /** After a delivered message the owner says at most one thing, which is then pending. */
  ghost predicate MessageShown(wits: Wits, s: EnvState, t: EnvState) {
    && s.events <= t.events && (forall p :: |s.events| <= p < |t.events| ==> !t.events[p].data.ToolCall?)
    && t.lastMessage.Some? && t.ledger == s.ledger && t.lastResult == s.lastResult
    && Said(wits, t.events) == Said(wits, s.events) + Brought(wits, t)
  }

  lemma SpeakShown(w: World, wits: Wits, s: EnvState, line: OwnerLine)
    ensures
      var t := OwnerSays(w, s, line);
      && t.owner.pending == Some(line.say) && t.lastMessage == s.lastMessage && t.lastResult == s.lastResult
      && s.events <= t.events && (forall p :: |s.events| <= p < |t.events| ==> !t.events[p].data.ToolCall?)
      && Said(wits, t.events) == Said(wits, s.events) + if wits.saysCorrection(line.say) then 1 else 0
  {
    hide NextApprovals, AddNew, Said;
    SaidNext(wits, s.events, Event(|s.events|, OwnerMessage(line.say, line.intent, line.attach)));
  }

  lemma RespondShown(w: World, wits: Wits, s: EnvState, text: string)
    requires s.lastMessage.Some? && s.lastMessage.value.Deliver? && s.owner.pending.None?
    ensures MessageShown(wits, s, OwnerResponds(w, s, text))
  {
    hide OwnerSays, Said;
    ReactQuiet(w, s.owner, s.ledger.entries, text);
    match React(w, s.owner, s.ledger.entries, text)
    case Says(o, line) => SpeakShown(w, wits, s.(owner := o), line);
    case _ =>
  }

  lemma ReactQuiet(w: World, o: Owner, entries: seq<Entry>, text: string)
    ensures React(w, o, entries, text).Says? ==> React(w, o, entries, text).owner.pending == o.pending
  {
  }

  lemma MessageBrings(w: World, wits: Wits, s: EnvState, text: string)
    ensures MessageShown(wits, s, DoMessage(w, s, text))
  {
    hide OwnerResponds, Said;
    var decision := w.gate(text, s.evidence);
    var g := GateDecision(decision.Hold?, if decision.Hold? then decision.reasons else []);
    SaidNext(wits, s.events, Event(|s.events|, g));
    var s1 := Emit(s, g).(lastMessage := Some(decision));
    if !decision.Hold? {
      SaidNext(wits, s1.events, Event(|s1.events|, AgentMessage(text)));
      var s2 := Emit(s1.(owner := s.owner.(pending := None)), AgentMessage(text));
      RespondShown(w, wits, s2, text);
      var t := OwnerResponds(w, s2, text);
      forall p | |s.events| <= p < |t.events| ensures !t.events[p].data.ToolCall? {
        if p < |s2.events| { assert t.events[p] == s2.events[p]; }
      }
    }
  }

  // ---------------------------------------------------------------- a whole step

  /** What a step shows: which calls it logged, what result, what the owner said. */
  ghost predicate StepShown(wits: Wits, s: EnvState, a: Action, t: EnvState) {
    && s.events <= t.events && IdemPlain(t.ledger.idem) && IdemGrows(s.ledger.idem, t.ledger.idem)
    && (forall p :: |s.events| <= p < |t.events| && t.events[p].data.ToolCall? ==> a == Tool(t.events[p].data.call))
    && (match a
        case Tool(call) =>
          ToolShown(s, t, call) && Said(wits, t.events) == Said(wits, s.events) && t.owner.pending == s.owner.pending && t.lastMessage == s.lastMessage
        case Message(_) =>
          && t.lastMessage.Some? && t.lastResult.None?
          && Said(wits, t.events) == Said(wits, s.events) + Brought(wits, t)
        case _ => t.lastResult.None? && Said(wits, t.events) == Said(wits, s.events) && t.owner.pending == s.owner.pending && t.lastMessage == s.lastMessage)
  }

  lemma BeginQuiet(wits: Wits, s: EnvState, a: Action)
    ensures var t := Begin(s, a); Quiet(wits, s, t) && t.ledger == s.ledger && t.lastResult.None?
  {
    QuietEmit(wits, s, if a.Rejected? then InvalidAction else AgentDecision(Summarize(a)));
  }

  lemma FinishQuiet(w: World, wits: Wits, s: EnvState)
    ensures var t := FinishStep(w, s); Quiet(wits, s, t) && t.ledger == s.ledger && t.lastResult == s.lastResult
  {
    hide Judge;
    var v := Judge(w.scenario.oracle, w.asks, s.events, s.ledger.entries);
    QuietEmit(wits, s.(verdict := Some(v)), EpisodeEnd(s.truncated, v.reward, v.passed));
  }

  lemma ActShows(w: World, wits: Wits, s: EnvState, a: Action)
    requires IdemPlain(s.ledger.idem) && s.lastResult.None?
    ensures StepShown(wits, s, a, EnvSpec.Act(w, s, a))
  {
    hide DoTool, DoMessage, Said, CountCall;
    match a
    case Tool(call) =>
      DoToolCalled(w, wits, s, call);
      CalledShows(w, wits, s, DoTool(w, s, call), call);
      CountShows(wits, s, call);
      CallLogged(wits, s, call, DoTool(w, s, call));
    case Message(text) => MessageBrings(w, wits, s, text);
    case _ =>
  }

  lemma CountShows(wits: Wits, s: EnvState, call: Call)
    ensures var t := CountCall(s, call); Said(wits, t.events) == Said(wits, s.events) && t.owner == s.owner && t.lastMessage == s.lastMessage
    ensures var t := CountCall(s, call); |t.events| == |s.events| + 1 && s.events <= t.events && t.events[|s.events|].data.ToolCall? && t.events[|s.events|].data.call == call
  {
    hide NameOf;
    var n := (if NameOf(call) in s.toolCalls then s.toolCalls[NameOf(call)] else 0) + 1;
    SaidNext(wits, s.events, Event(|s.events|, ToolCall(call, n)));
  }

  lemma CallLogged(wits: Wits, s: EnvState, call: Call, t: EnvState)
    requires Quiet(wits, CountCall(s, call), t)
    ensures s.events <= t.events
    ensures forall p :: |s.events| <= p < |t.events| && t.events[p].data.ToolCall? ==> t.events[p].data.call == call
  {
    hide Said, CountCall;
    CountShows(wits, s, call);
  }

  lemma StepShows(w: World, wits: Wits, s: EnvState, a: Action)
    requires IdemPlain(s.ledger.idem)
    ensures StepShown(wits, s, a, Step(w, s, a))
  {
    hide EnvSpec.Act, FinishStep, Said, Quiet, ToolShown, IdemPlain, IdemGrows;
    var s0 := Begin(s, a);
    BeginQuiet(wits, s, a);
    ActShows(w, wits, s0, a);
    var s1 := EnvSpec.Act(w, s0, a);
    var s2 := if a.Rejected? then s1 else Truncate(s1);
    FinishQuiet(w, wits, s2);
    ShownAround(wits, s, s0, a, s1, s2, FinishStep(w, s2));
  }

  lemma ShownAround(wits: Wits, s: EnvState, s0: EnvState, a: Action, s1: EnvState, s2: EnvState, t: EnvState)
    requires Quiet(wits, s, s0) && s0.ledger == s.ledger && StepShown(wits, s0, a, s1)
    requires s2 == s1.(done := s2.done, truncated := s2.truncated)
    requires Quiet(wits, s2, t) && t.ledger == s2.ledger && t.lastResult == s2.lastResult
    ensures StepShown(wits, s, a, t)
  {
    hide Said;
    forall p | |s.events| <= p < |t.events| ensures t.events[p].data.ToolCall? ==> a == Tool(t.events[p].data.call) {
      if p < |s0.events| { assert t.events[p] == s0.events[p]; }
      else if p < |s1.events| { assert t.events[p] == s1.events[p]; }
    }
  }
}
