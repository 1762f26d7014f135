/** What one call of the rehearsal environment does to its state, as functions on values
    (agents-learning/src/env/environment.ts, env/tools.ts). `RehearsalEnv` is the object that does it in place. */
module EnvSpec {
  import opened OptionType
  import opened Contracts
  import opened JudgeSpec

  const MAX_STEPS: nat := 24
  const OWNER_NUDGES: nat := 2

  /** `nextId` is the number the next new entry takes; `idem` maps a key to the first result under it. */
  datatype Ledger = Ledger(entries: seq<Entry>, nextId: nat, idem: map<string, ToolData>)

  /** The simulated owner's side of the conversation (the source's `owner_*` fields and their neighbours). */
  datatype Owner = Owner(
    cursor: nat, nudges: nat, waiting: bool, pending: Option<string>, attached: seq<string>,
    approvals: seq<EntryId>, yesSteps: seq<nat>, texts: seq<string>,
    reaffirmed: bool, clarifyAnswered: bool, lastIntent: Option<Intent>, lastCorrection: int)

  datatype EnvState = EnvState(
    step: nat, done: bool, truncated: bool, ledger: Ledger, toolCalls: map<ToolName, nat>, owner: Owner,
    guards: bool, evidence: Evidence, lastResult: Option<ToolResult>, lastMessage: Option<Gate>,
    events: seq<Event>, verdict: Option<Verdict>)

  /** What the agent sees. */
  datatype Observation = Observation(step: nat, ownerMessage: Option<string>, bills: seq<string>,
                                     toolResult: Option<ToolResult>, lastMessage: Option<Gate>, ownerWaiting: bool)

  function Observe(s: EnvState): Observation {
    Observation(s.step, s.owner.pending, s.owner.attached, s.lastResult, s.lastMessage, s.owner.waiting)
  }

  function Emit(s: EnvState, d: EventData): EnvState {
    s.(events := s.events + [Event(|s.events|, d)])
  }

  /** `t` has the log of `s` or a longer one, and the same step count, guard setting and verdict. */
  predicate Extends(s: EnvState, t: EnvState) {
    s.events <= t.events && t.step == s.step && t.guards == s.guards && t.verdict == s.verdict && t.truncated == s.truncated
  }

  // ---------------------------------------------------------------- sandbox ledger tools

  /** `entries.find(e => e.id === id && e.type === kind && e.status === 'draft')`. */
  function FindDraft(entries: seq<Entry>, id: EntryId, kind: EntryKind): (at: Option<nat>)
    ensures at.Some? ==> at.value < |entries| && IsDraft(entries[at.value], id, kind)
    ensures at.None? ==> forall i :: 0 <= i < |entries| ==> !IsDraft(entries[i], id, kind)
  {
    if entries == [] then None
    else match FindDraft(entries[..|entries|-1], id, kind)
         case Some(i) => Some(i)
         case None => if IsDraft(entries[|entries|-1], id, kind) then Some(|entries|-1) else None
  }

  predicate IsDraft(e: Entry, id: EntryId, kind: EntryKind) {
    e.id == id && e.fig.kind == kind && e.status == Draft
  }

  /** The entries validation compares a candidate with: not superseded, and not the one being corrected. */
  function Live(entries: seq<Entry>, excluded: Option<EntryId>): seq<Entry> {
    if entries == [] then []
    else
      var e := entries[|entries|-1];
      Live(entries[..|entries|-1], excluded) + if e.status != Superseded && Some(e.id) != excluded then [e] else []
  }

  function Listed(entries: seq<Entry>, kind: Option<EntryKind>, status: Option<Status>): seq<(EntryId, Status, Figures, string)> {
    if entries == [] then []
    else
      var e := entries[|entries|-1];
      var keep := (kind.None? || e.fig.kind == kind.value) && (if status.Some? then e.status == status.value else e.status != Superseded);
      Listed(entries[..|entries|-1], kind, status) + if keep then [(e.id, e.status, e.fig, e.occurredOn)] else []
  }

  /** A tool's answer, the write it made if any, and the ledger it leaves. */
  datatype Outcome = Outcome(ok: bool, data: ToolData, write: Option<Write>, ledger: Ledger)
  datatype Write = Wrote(confirm: bool, entry: Entry)

  function AsReplay(d: ToolData): ToolData {
    match d
    case NotSaved(reason, _) => NotSaved(reason, true)
    case Saved(id, fig, superseded, report, _) => Saved(id, fig, superseded, report, true)
    case _ => d
  }

  // Why nothing was saved; the texts are shortened, nothing reads them.
  const BOTH_OR_NEITHER := "pass BOTH or neither"
  const IN_FUTURE := "in the future"
  const NO_SUCH_DRAFT := "not a draft of this kind"

  /** `withIdem(ctx, key, produce)` around the body of `record_sale`/`record_expense`. */
  function RecordOnce(w: World, l: Ledger, step: nat, a: RecordArgs): Outcome {
    if a.key.Some? && a.key.value in l.idem then
      Outcome(true, AsReplay(l.idem[a.key.value]), None, l)
    else
      var out := RecordDraft(w, l, step, a);
      if a.key.Some? then out.(ledger := out.ledger.(idem := out.ledger.idem[a.key.value := out.data])) else out
  }

  function RecordDraft(w: World, l: Ledger, step: nat, a: RecordArgs): Outcome {
    if a.printedTaxable.Some? != a.printedVat.Some? then
      Outcome(true, NotSaved(BOTH_OR_NEITHER, false), None, l)
    else if w.resolveVat(a).None? then
      Outcome(true, NotSaved("figures do not resolve", false), None, l)
    else if w.inFuture(a.occurredOn) then
      Outcome(true, NotSaved(IN_FUTURE, false), None, l)
    else
      var target := if a.supersedes.Some? then FindDraft(l.entries, a.supersedes.value, a.kind) else None;
      if a.supersedes.Some? && target.None? then
        Outcome(true, NotSaved(NO_SUCH_DRAFT, false), None, l)
      else
        var vat := w.resolveVat(a).value;
        var report := w.validate(a, vat, Live(l.entries, a.supersedes));
        if report.fail then
          Outcome(true, NotSaved("validation failed", false), None, l)
        else
          var fig := Figures(a.kind, vat.excl + vat.vat, vat.excl, vat.vat, a.invoice, a.vendor);
          var entry := Entry(New(l.nextId), Draft, fig, a.occurredOn, false, step);
          var kept := if target.Some? then l.entries[target.value := l.entries[target.value].(status := Superseded)] else l.entries;
          Outcome(true, Saved(entry.id, fig, a.supersedes, report, false), Some(Wrote(false, entry)),
                  l.(entries := kept + [entry], nextId := l.nextId + 1))
  }

  function ConfirmDraft(l: Ledger, guards: bool, yes: seq<nat>, kind: EntryKind, id: EntryId): Outcome {
    var at := FindDraft(l.entries, id, kind);
    if at.None? then Outcome(true, NotConfirmed("entry not found in this business, or already confirmed"), None, l)
    else
      var e := l.entries[at.value];
      if guards && !exists i :: 0 <= i < |yes| && yes[i] > e.createdStep then
        Outcome(true, NeedsApproval(e.id, e.fig), None, l)
      else
        var flipped := e.(status := Confirmed);
        Outcome(true, Flipped(e.id, e.fig, e.occurredOn), Some(Wrote(true, flipped)),
                l.(entries := l.entries[at.value := flipped]))
  }

  function RunTool(w: World, s: EnvState, call: Call): Outcome {
    match call
    case Unparsed(_, _) => Outcome(false, Failure("invalid arguments"), None, s.ledger)
    case ReadBill(f) =>
      if f in w.scenario.bills && f in s.owner.attached then Outcome(true, BillText(f, w.scenario.bills[f]), None, s.ledger)
      else Outcome(false, Failure("no attached bill " + f), None, s.ledger)
    case ComputeVat(amount, inclusive) =>
      var v := w.splitVat(amount, inclusive);
      Outcome(true, VatSplit(v, v.excl + v.vat), None, s.ledger)
    case Record(a) => RecordOnce(w, s.ledger, s.step, a)
    case Confirm(kind, id) => ConfirmDraft(s.ledger, s.guards, s.owner.yesSteps, kind, id)
    case Validate(candidate) => Outcome(true, Checked(w.checkCandidate(candidate, Live(s.ledger.entries, None))), None, s.ledger)
    case List(kind, status) => Outcome(true, Transactions(Listed(s.ledger.entries, kind, status)), None, s.ledger)
  }

  // ---------------------------------------------------------------- one tool call

  function SetToolResult(w: World, s: EnvState, r: ToolResult): (t: EnvState)
    ensures Extends(s, t) && t.ledger == s.ledger && t.lastResult == Some(r)
  {
    var s1 := Emit(s.(lastResult := Some(r)), ToolResultEv(r));
    if r.name == ReadBillT then s1 else s1.(evidence := w.addResult(s.evidence, r))
  }

  function FaultFor(faults: seq<Fault>, tool: ToolName, n: nat): Option<FaultKind> {
    if faults == [] then None
    else if faults[0].tool == tool && faults[0].onCall == n then Some(faults[0].kind)
    else FaultFor(faults[1..], tool, n)
  }

  /** The call is counted and logged before anything else happens. */
  function CountCall(s: EnvState, call: Call): (t: EnvState)
    ensures Extends(s, t) && t.ledger == s.ledger && NameOf(call) in t.toolCalls
  {
    var n := (if NameOf(call) in s.toolCalls then s.toolCalls[NameOf(call)] else 0) + 1;
    Emit(s.(toolCalls := s.toolCalls[NameOf(call) := n]), ToolCall(call, n))
  }

  /** The tool runs, and a write it made is logged. */
  function ApplyTool(w: World, s: EnvState, call: Call): (t: EnvState)
    ensures Extends(s, t) && t.ledger == RunTool(w, s, call).ledger
  {
    var out := RunTool(w, s, call);
    var s1 := s.(ledger := out.ledger);
    match out.write
    case None => s1
    case Some(Wrote(confirm, e)) =>
      Emit(s1, LedgerWrite(if confirm then ConfirmOp(e.id in s.owner.approvals) else DraftOp, e.id, e.fig))
  }

  const TIMED_OUT := Failure("upstream timeout")

  /** What the agent hears of an answer: a fault may lose or garble it, after the fact. */
  function Answer(w: World, s: EnvState, name: ToolName, fault: Option<FaultKind>, ok: bool, data: ToolData): (t: EnvState)
    ensures Extends(s, t) && t.ledger == s.ledger
  {
    if fault == Some(AckLost) then
      SetToolResult(w, Emit(s, FaultInjected(name, AckLost)), ToolResult(name, false, TIMED_OUT))
    else if fault == Some(Malformed) then
      SetToolResult(w, Emit(s, FaultInjected(name, Malformed)), ToolResult(name, true, Garbled))
    else
      SetToolResult(w, s, ToolResult(name, ok, data))
  }

  const DENIED := Failure("access denied")

  function DoTool(w: World, s: EnvState, call: Call): (t: EnvState)
    ensures Extends(s, t)
    ensures t.ledger == s.ledger || t.ledger == RunTool(w, CountCall(s, call), call).ledger
  {
    hide RunTool, ApplyTool, SetToolResult, Answer, CountCall, NameOf, FaultFor;
    var name, s1 := NameOf(call), CountCall(s, call);
    var fault := FaultFor(w.scenario.faults, name, s1.toolCalls[name]);
    if w.foreign(call) then
      SetToolResult(w, Emit(s1, CrossTenant(name)), ToolResult(name, false, DENIED))
    else if fault == Some(Timeout) then
      SetToolResult(w, Emit(s1, FaultInjected(name, Timeout)), ToolResult(name, false, TIMED_OUT))
    else
      var out := RunTool(w, s1, call);
      Answer(w, ApplyTool(w, s1, call), name, fault, out.ok, out.data)
  }

  // ---------------------------------------------------------------- the simulated owner

  function AddNew<T(==,!new)>(xs: seq<T>, ys: seq<T>): (r: seq<T>)
    ensures forall x :: x in r <==> x in xs || x in ys
    decreases ys
  {
    if ys == [] then xs
    else AddNew(if ys[0] in xs then xs else xs + [ys[0]], ys[1..])
  }

  predicate IsPending(e: Entry, lastCorrection: int) {
    e.status == Draft && !e.preexisting && e.createdStep > lastCorrection
  }

  /** Ids of the drafts created after the last correction, oldest first. */
  function PendingIds(entries: seq<Entry>, lastCorrection: int): (ids: seq<EntryId>)
    ensures forall id :: id in ids <==> exists i :: 0 <= i < |entries| && entries[i].id == id && IsPending(entries[i], lastCorrection)
  {
    if entries == [] then []
    else
      var e := entries[|entries|-1];
      PendingIds(entries[..|entries|-1], lastCorrection) + if IsPending(e, lastCorrection) then [e.id] else []
  }

  /** What a confirming line approves: everything pending, or only the oldest of it. */
  function Covered(line: OwnerLine, entries: seq<Entry>, lastCorrection: int): (ids: seq<EntryId>) {
    var pending := PendingIds(entries, lastCorrection);
    if line.firstOnly && pending != [] then pending[..1] else pending
  }

  /** A correction withdraws every approval; a confirming line adds what it covers. */
  function NextApprovals(o: Owner, entries: seq<Entry>, line: OwnerLine): seq<EntryId> {
    match line.intent
    case Correct => []
    case ConfirmI => AddNew(o.approvals, Covered(line, entries, o.lastCorrection))
    case _ => o.approvals
  }

  /** The owner after saying `line` in step `step`; a confirmed intent outlives mere information. */
  function Spoken(w: World, o: Owner, entries: seq<Entry>, step: nat, line: OwnerLine): Owner {
    o.(waiting := false,
       lastIntent := Some(if line.intent == Inform && o.lastIntent == Some(ConfirmI) then ConfirmI else line.intent),
       yesSteps := if w.isApproval(line.say) then o.yesSteps + [step] else o.yesSteps,
       texts := o.texts + [line.say],
       attached := AddNew(o.attached, line.attach),
       pending := Some(line.say),
       lastCorrection := if line.intent == Correct then step else o.lastCorrection,
       approvals := NextApprovals(o, entries, line))
  }

  function OwnerSays(w: World, s: EnvState, line: OwnerLine): (t: EnvState)
    ensures Extends(s, t) && t.ledger == s.ledger && t.done == s.done && t.owner.cursor == s.owner.cursor
  {
    var o := Spoken(w, s.owner, s.ledger.entries, s.step, line);
    Emit(s.(owner := o, evidence := w.turnEvidence(o.texts)), OwnerMessage(line.say, line.intent, line.attach))
  }

  predicate NewDraft(e: Entry) { e.status == Draft && !e.preexisting }

  function Informs(text: string): OwnerLine { OwnerLine(text, Inform, [], [], false) }

  function FirstApprovedVendor(entries: seq<Entry>, approvals: seq<EntryId>): Option<string> {
    if entries == [] then None
    else if NewDraft(entries[0]) && entries[0].id in approvals then entries[0].fig.vendor
    else FirstApprovedVendor(entries[1..], approvals)
  }

  /** The agent's text names a draft the owner did not approve. */
  predicate Widened(w: World, entries: seq<Entry>, approvals: seq<EntryId>, text: string) {
    exists e :: e in entries && NewDraft(e) && e.id !in approvals && e.fig.vendor.Some? && e.fig.vendor.value != ""
      && w.mentions(text, e.fig.vendor.value)
  }

  /** What the owner does about a message: says a line (after noting that they did), is done, or waits. */
  datatype Reaction = Says(owner: Owner, line: OwnerLine) | Leaves | Waits

  /** The owner answers from what they know, once each; `None` when they have nothing to add. */
  function AnswerFromFacts(w: World, o: Owner, entries: seq<Entry>, text: string): (r: Option<Reaction>)
    ensures r.Some? ==> r.value.Says? && r.value.line.intent == Inform && r.value.owner.cursor == o.cursor
  {
    if o.lastIntent == Some(ConfirmI) && (exists e :: e in entries && NewDraft(e) && e.id in o.approvals) && !o.reaffirmed then
      var keep := FirstApprovedVendor(entries, o.approvals);
      Some(Says(o.(reaffirmed := true), Informs(
        if Widened(w, entries, o.approvals, text)
        then "No \U{2014} only " + (if keep.Some? then keep.value else "the first one") + ". Not the other one."
        else "Yes, save it.")))
    else if w.scenario.clarifyAnswer.Some? && w.scenario.clarifyAnswer.value != "" && !o.clarifyAnswered && o.lastCorrection >= 0 then
      Some(Says(o.(clarifyAnswered := true), Informs(w.scenario.clarifyAnswer.value)))
    else None
  }

  predicate Holds(entries: seq<Entry>, lastCorrection: int, asked: bool, r: Requirement) {
    match r
    case NeedsDraft => exists e :: e in entries && NewDraft(e)
    case NeedsFreshDraft => exists e :: e in entries && IsPending(e, lastCorrection)
    case NeedsQuestion => asked
  }

  const NUDGE := Informs("It is for my business. Everything else is on the bill or in my message \U{2014} please go ahead and prepare it.")

  function React(w: World, o: Owner, entries: seq<Entry>, text: string): (r: Reaction)
    ensures r.Says? && r.owner.cursor == o.cursor ==> r.line.intent == Inform
    ensures r.Says? && r.owner.cursor != o.cursor ==>
      o.cursor < |w.scenario.script| && r.line == w.scenario.script[o.cursor] && r.owner.cursor == o.cursor + 1
  {
    var asked := w.asks(text);
    var facts := if asked then AnswerFromFacts(w, o, entries, text) else None;
    if o.cursor >= |w.scenario.script| then
      if facts.Some? then facts.value else Leaves
    else
      var next := w.scenario.script[o.cursor];
      if forall r :: r in next.needs ==> Holds(entries, o.lastCorrection, asked, r) then
        Says(o.(cursor := o.cursor + 1), next)
      else if facts.Some? then facts.value
      else if asked && o.nudges < OWNER_NUDGES then Says(o.(nudges := o.nudges + 1), NUDGE)
      else Waits
  }

  function OwnerResponds(w: World, s: EnvState, text: string): (t: EnvState)
    ensures Extends(s, t) && t.ledger == s.ledger
  {
    match React(w, s.owner, s.ledger.entries, text)
    case Says(o, line) => OwnerSays(w, s.(owner := o), line)
    case Leaves => s.(done := true)
    case Waits => s.(owner := s.owner.(waiting := true))
  }

  function DoMessage(w: World, s: EnvState, text: string): (t: EnvState)
    ensures Extends(s, t) && t.ledger == s.ledger
  {
    var decision := w.gate(text, s.evidence);
    var s1 := Emit(s, GateDecision(decision.Hold?, if decision.Hold? then decision.reasons else [])).(lastMessage := Some(decision));
    if decision.Hold? then s1
    else OwnerResponds(w, Emit(s1.(owner := s.owner.(pending := None)), AgentMessage(text)), text)
  }

  // ---------------------------------------------------------------- reset and step

  function Blank(w: World, guards: bool): EnvState {
    EnvState(0, false, false, Ledger(Preload(w.scenario.existing), 1, map[]), map[],
             Owner(0, 0, false, None, [], [], [], [], false, false, None, -1),
             guards, Evidence({}, [], []), None, None, [], None)
  }

  function Reset(w: World, guards: bool): EnvState
    requires w.scenario.script != []
  {
    var s := OwnerSays(w, Emit(Blank(w, guards), EpisodeReset(w.scenario.id)), w.scenario.script[0]);
    s.(owner := s.owner.(cursor := 1))
  }

  /** The step is counted, the last result forgotten and the decision logged. */
  function Begin(s: EnvState, a: Action): EnvState {
    Emit(s.(step := s.step + 1, lastResult := None), if a.Rejected? then InvalidAction else AgentDecision(Summarize(a)))
  }

  function Act(w: World, s: EnvState, a: Action): (t: EnvState)
    ensures Extends(s, t)
  {
    match a
    case Tool(call) => DoTool(w, s, call)
    case Message(text) => DoMessage(w, s, text)
    case End => s.(done := true)
    case Rejected => s
  }

  function FinishStep(w: World, s: EnvState): EnvState {
    if s.done && s.verdict.None? then
      var v := Judge(w.scenario.oracle, w.asks, s.events, s.ledger.entries);
      Emit(s.(verdict := Some(v)), EpisodeEnd(s.truncated, v.reward, v.passed))
    else s
  }

  function Truncate(s: EnvState): EnvState {
    if !s.done && s.step >= MAX_STEPS then s.(done := true, truncated := true) else s
  }

  function Step(w: World, s: EnvState, a: Action): EnvState {
    var s1 := Act(w, Begin(s, a), a);
    FinishStep(w, if a.Rejected? then s1 else Truncate(s1))
  }

  /** What `step` answers: `slice(from)` of the log, and the reward only in the step that closes the episode. */
  datatype StepResult = StepResult(next: Observation, reward: real, terminated: bool, truncated: bool, events: seq<Event>)

  function Since(log: seq<Event>, from: nat): seq<Event> {
    if from <= |log| then log[from..] else []
  }

  function ResultOf(s: EnvState, t: EnvState): StepResult {
    StepResult(Observe(t), if s.verdict.None? && t.verdict.Some? then t.verdict.value.reward else 0.0,
               t.done && !t.truncated, t.truncated, Since(t.events, |s.events|))
  }
}
