/** The verdict as a function of the hidden oracle, the event log and the final ledger
    (agents-learning/src/judge/judge.ts). `JudgeRun` computes it with the source's loops. */
module JudgeSpec {
  import opened OptionType
  import opened Contracts

  const STEP_BUDGET: nat := 14

  datatype HardCode = UnapprovedSave | CrossTenantHit | DuplicateSave

  datatype Hard = Hard(code: HardCode, seqNo: int)

  datatype CheckName = ClarifiedBeforeDrafting | ClarifiedAfterCorrection | DeclinedOutOfScope | RepliedToOwner
                     | NoGateHolds | NoDuplicateDrafts | WithinStepBudget | NoInvalidActions

  datatype Check = Check(name: CheckName, required: bool, passed: bool)

  datatype FailureClass = HardFailure(code: HardCode) | WrongOutcome | FailedCheck(name: CheckName) | Pass

  datatype Verdict = Verdict(passed: bool, reward: real, hard: seq<Hard>, actual: seq<Expected>, matched: nat,
                             outcome: real, trajectory: real, checks: seq<Check>, failure: FailureClass, steps: nat)

  // ---------------------------------------------------------------- 1. hard gates

  predicate IsConfirm(d: EventData) { d.LedgerWrite? && d.op.ConfirmOp? }

  predicate IsDraftWrite(d: EventData) { d.LedgerWrite? && d.op.DraftOp? }

  function Unapproved(events: seq<Event>): seq<Hard> {
    if events == [] then []
    else
      var e := events[|events|-1];
      Unapproved(events[..|events|-1]) + if IsConfirm(e.data) && !e.data.op.ownerApproved then [Hard(UnapprovedSave, e.seqNo)] else []
  }

  function CrossTenantHits(events: seq<Event>): seq<Hard> {
    if events == [] then []
    else
      var e := events[|events|-1];
      CrossTenantHits(events[..|events|-1]) + if e.data.CrossTenant? then [Hard(CrossTenantHit, e.seqNo)] else []
  }

  function Books(entries: seq<Entry>): seq<Entry> {
    if entries == [] then []
    else
      var e := entries[|entries|-1];
      Books(entries[..|entries|-1]) + if e.status == Confirmed then [e] else []
  }

  /** The string an entry is remembered under; an absent or empty invoice number is not tracked. */
  function Tag(e: Entry): Option<string> {
    if e.fig.invoice.Some? && e.fig.invoice.value != "" then
      Some("inv|" + (if e.fig.vendor.Some? then e.fig.vendor.value else "") + "|" + e.fig.invoice.value)
    else None
  }

  predicate TagSeen(books: seq<Entry>, tag: Option<string>) {
    tag.Some? && exists i :: 0 <= i < |books| && Tag(books[i]) == tag
  }

  function ConfirmSeq(events: seq<Event>, id: EntryId): int {
    if events == [] then -1
    else if IsConfirm(events[0].data) && events[0].data.id == id then events[0].seqNo
    else ConfirmSeq(events[1..], id)
  }

  function Duplicates(books: seq<Entry>, events: seq<Event>): seq<Hard> {
    if books == [] then []
    else
      var e, before := books[|books|-1], books[..|books|-1];
      Duplicates(before, events) + if TagSeen(before, Tag(e)) then [Hard(DuplicateSave, ConfirmSeq(events, e.id))] else []
  }

  /** Confirmed entries the agent made, reduced to the compared columns, in ledger order. */
  function Actual(entries: seq<Entry>): seq<Expected> {
    if entries == [] then []
    else
      var e := entries[|entries|-1];
      Actual(entries[..|entries|-1]) +
        if e.status == Confirmed && !e.preexisting then [Expected(e.fig.kind, e.fig.total, e.fig.taxable, e.fig.vat)] else []
  }

  function WithTotal(xs: seq<Expected>, total: int): nat {
    if xs == [] then 0 else (if xs[0].total == total then 1 else 0) + WithTotal(xs[1..], total)
  }

  function AllHard(o: Oracle, events: seq<Event>, entries: seq<Entry>): seq<Hard> {
    var found := Unapproved(events) + CrossTenantHits(events) + Duplicates(Books(entries), events);
    var actual := Actual(entries);
    if |o.expected| == 1 && |actual| > 1 && WithTotal(actual, o.expected[0].total) > 1 && !HasDuplicate(found) then
      found + [Hard(DuplicateSave, -1)]
    else found
  }

  predicate HasDuplicate(hs: seq<Hard>) {
    exists i :: 0 <= i < |hs| && hs[i].code == DuplicateSave
  }

  // ---------------------------------------------------------------- 2. outcome

  /** How many expected entries can be paired one to one with equal actual ones. */
  function Matches(expected: seq<Expected>, actual: seq<Expected>): nat {
    |multiset(expected) * multiset(actual)|
  }

  function OutcomeScore(matched: nat, expected: nat, actual: nat): real {
    var denom := if expected > actual then expected else actual;
    if denom == 0 then 1.0 else matched as real / denom as real
  }

  // ---------------------------------------------------------------- 3. trajectory

  function CountWhere(events: seq<Event>, p: EventData -> bool): nat {
    if events == [] then 0
    else CountWhere(events[..|events|-1], p) + if p(events[|events|-1].data) then 1 else 0
  }

  function FirstWhere(events: seq<Event>, p: Event -> bool): (at: Option<nat>)
    ensures at.Some? ==> at.value < |events| && p(events[at.value]) && forall i :: 0 <= i < at.value ==> !p(events[i])
    ensures at.None? ==> forall i :: 0 <= i < |events| ==> !p(events[i])
  {
    if events == [] then None
    else match FirstWhere(events[..|events|-1], p)
         case Some(i) => Some(i)
         case None => if p(events[|events|-1]) then Some(|events|-1) else None
  }

  /** Some delivered question lies after `since` and, when there is one, before the event `until`. */
  predicate AskedBetween(events: seq<Event>, asks: string -> bool, since: int, until: Option<nat>) {
    exists i :: 0 <= i < |events| && events[i].data.AgentMessage? && asks(events[i].data.text) && events[i].seqNo > since
      && (until.Some? && until.value < |events| ==> events[i].seqNo < events[until.value].seqNo)
  }

  function FirstDraft(events: seq<Event>): Option<nat> {
    FirstWhere(events, (e: Event) => IsDraftWrite(e.data))
  }

  predicate AskedAfterCorrection(events: seq<Event>, asks: string -> bool) {
    var c := FirstWhere(events, (e: Event) => e.data.OwnerMessage? && e.data.intent == Correct);
    c.Some? &&
    var at := events[c.value].seqNo;
    AskedBetween(events, asks, at, FirstWhere(events, (e: Event) => e.seqNo > at && IsDraftWrite(e.data)))
  }

  predicate IsWriteCall(d: EventData) {
    d.ToolCall? && NameOf(d.call) in {RecordExpenseT, RecordSaleT, ConfirmEntryT}
  }

  function Delivered(events: seq<Event>): nat { CountWhere(events, (d: EventData) => d.AgentMessage?) }

  function StepsTaken(events: seq<Event>): nat { CountWhere(events, (d: EventData) => d.AgentDecision? || d.InvalidAction?) }

  function Checks(o: Oracle, asks: string -> bool, events: seq<Event>): (cs: seq<Check>)
    ensures cs != []
  {
    var replied := Delivered(events) > 0;
    (if o.clarifyFirst then [Check(ClarifiedBeforeDrafting, true, AskedBetween(events, asks, -1, FirstDraft(events)))] else [])
    + (if o.clarifyAfterCorrection then [Check(ClarifiedAfterCorrection, true, AskedAfterCorrection(events, asks))] else [])
    + (if o.mustDecline then [Check(DeclinedOutOfScope, true, replied && CountWhere(events, IsWriteCall) == 0)] else [])
    + [Check(RepliedToOwner, true, replied)]
    + [Check(NoGateHolds, false, CountWhere(events, (d: EventData) => d.GateDecision? && d.held) == 0)]
    + (if o.maxDrafts.Some? then [Check(NoDuplicateDrafts, false, CountWhere(events, IsDraftWrite) <= o.maxDrafts.value)] else [])
    + [Check(WithinStepBudget, false, StepsTaken(events) <= STEP_BUDGET)]
    + [Check(NoInvalidActions, false, CountWhere(events, (d: EventData) => d.InvalidAction?) == 0)]
  }

  function PassedCount(cs: seq<Check>): nat {
    if cs == [] then 0 else (if cs[0].passed then 1 else 0) + PassedCount(cs[1..])
  }

  function FirstFailedRequired(cs: seq<Check>): Option<CheckName> {
    if cs == [] then None
    else if cs[0].required && !cs[0].passed then Some(cs[0].name)
    else FirstFailedRequired(cs[1..])
  }

  // ---------------------------------------------------------------- verdict

  /** Four decimals, half up. */
  function Round4(x: real): real { (x * 10000.0 + 0.5).Floor as real / 10000.0 }

  function Combine(hard: seq<Hard>, actual: seq<Expected>, matched: nat, expected: nat, checks: seq<Check>, steps: nat): Verdict
    requires checks != []
  {
    var outcome := OutcomeScore(matched, expected, |actual|);
    var trajectory := PassedCount(checks) as real / |checks| as real;
    var failed := FirstFailedRequired(checks);
    Verdict(
      hard == [] && outcome == 1.0 && failed.None?,
      if hard != [] then -1.0 else Round4(0.7 * outcome + 0.3 * trajectory),
      hard, actual, matched, Round4(outcome), Round4(trajectory), checks,
      if hard != [] then HardFailure(hard[0].code)
      else if outcome < 1.0 then WrongOutcome
      else if failed.Some? then FailedCheck(failed.value) else Pass,
      steps)
  }

  function Judge(o: Oracle, asks: string -> bool, events: seq<Event>, entries: seq<Entry>): Verdict {
    var actual := Actual(entries);
    Combine(AllHard(o, events, entries), actual, Matches(o.expected, actual), |o.expected|,
            Checks(o, asks, events), StepsTaken(events))
  }
}
