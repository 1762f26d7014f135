/** The typed boundary between an agent, the rehearsal environment and the judge
    (agents-learning/src/contracts.ts, scenarios/types.ts, env/tools.ts), on values. */
module Contracts {

  import opened OptionType

  // ---------------------------------------------------------------- ledger entries

  datatype EntryKind = Sale | Expense

  datatype Status = Draft | Confirmed | Superseded

  /** `Pre(i)` is the i-th entry already in the books; `New(n)` is `uuidFrom(seed, 1000 + n)`;
      `Unknown` is any other text an agent may send as an id. */
  datatype EntryId = Pre(index: nat) | New(n: nat) | Unknown(text: string)

  /** The columns of an entry that an event repeats and that never change. */
  datatype Figures = Figures(kind: EntryKind, total: int, taxable: int, vat: int,
                             invoice: Option<string>, vendor: Option<string>)

  datatype Entry = Entry(id: EntryId, status: Status, fig: Figures, occurredOn: string,
                         preexisting: bool, createdStep: nat)

  // ---------------------------------------------------------------- actions

  datatype ToolName = ReadBillT | RecordExpenseT | RecordSaleT | ConfirmEntryT | ValidateEntryT | ComputeVatT | ListT

  /** `rest` carries the remaining fields, which only the validators read. */
  datatype RecordArgs = RecordArgs(kind: EntryKind, occurredOn: string, amount: int, inclusive: bool,
                                   vendor: Option<string>, invoice: Option<string>, vatRegistered: Option<bool>,
                                   printedTaxable: Option<int>, printedVat: Option<int>,
                                   key: Option<string>, supersedes: Option<EntryId>,
                                   receipt: Option<string>, rest: string)

  /** A tool call after schema parsing; `Unparsed` is one whose arguments fail the tool's schema. */
  datatype Call =
    | Unparsed(tool: ToolName, raw: string)
    | ReadBill(file: string)
    | ComputeVat(amount: int, inclusive: bool)
    | Record(args: RecordArgs)
    | Confirm(kind: EntryKind, id: EntryId)
    | Validate(candidate: string)
    | List(ofKind: Option<EntryKind>, ofStatus: Option<Status>)

  function NameOf(call: Call): ToolName {
    match call
    case Unparsed(tool, _) => tool
    case ReadBill(_) => ReadBillT
    case ComputeVat(_, _) => ComputeVatT
    case Record(a) => if a.kind.Expense? then RecordExpenseT else RecordSaleT
    case Confirm(_, _) => ConfirmEntryT
    case Validate(_) => ValidateEntryT
    case List(_, _) => ListT
  }

  /** `Rejected` is a raw action that fails the action schema. */
  datatype Action = Tool(call: Call) | Message(text: string) | End | Rejected

  /** What the log keeps of an action. */
  datatype Summary = ToolNamed(name: ToolName) | MessageOf(chars: nat) | Ending

  function Summarize(a: Action): Summary {
    match a
    case Tool(call) => ToolNamed(NameOf(call))
    case Message(text) => MessageOf(|text|)
    case _ => Ending
  }

  // ---------------------------------------------------------------- tool results

  datatype Vat = Vat(excl: int, vat: int)

  datatype Report = Report(fail: bool, duplicateWarned: bool, text: string)

  datatype ToolData =
    | Failure(error: string)
    | BillText(file: string, text: string)
    | VatSplit(split: Vat, total: int)
    | NotSaved(reason: string, replay: bool)
    | Saved(id: EntryId, fig: Figures, superseded: Option<EntryId>, report: Report, replay: bool)
    | NotConfirmed(reason: string)
    | NeedsApproval(id: EntryId, fig: Figures)
    | Flipped(id: EntryId, fig: Figures, occurredOn: string)
    | Checked(report: Report)
    | Transactions(rows: seq<(EntryId, Status, Figures, string)>)
    | Garbled

  datatype ToolResult = ToolResult(name: ToolName, ok: bool, data: ToolData)

  // ---------------------------------------------------------------- the event log

  datatype Intent = Request | ConfirmI | Reject | Correct | Inform

  datatype WriteOp = DraftOp | ConfirmOp(ownerApproved: bool)

  datatype FaultKind = Timeout | AckLost | Malformed

  datatype EventData =
    | EpisodeReset(scenario: string)
    | OwnerMessage(text: string, intent: Intent, attached: seq<string>)
    | AgentDecision(what: Summary)
    | ToolCall(call: Call, callNo: nat)
    | ToolResultEv(result: ToolResult)
    | FaultInjected(tool: ToolName, fault: FaultKind)
    | LedgerWrite(op: WriteOp, id: EntryId, fig: Figures)
    | GateDecision(held: bool, reasons: seq<string>)
    | AgentMessage(text: string)
    | CrossTenant(tool: ToolName)
    | InvalidAction
    | EpisodeEnd(truncated: bool, reward: real, passed: bool)

  datatype Event = Event(seqNo: nat, data: EventData)

  // ---------------------------------------------------------------- scenarios

  datatype Requirement = NeedsDraft | NeedsFreshDraft | NeedsQuestion

  datatype OwnerLine = OwnerLine(say: string, intent: Intent, attach: seq<string>,
                                 needs: seq<Requirement>, firstOnly: bool)

  datatype Fault = Fault(tool: ToolName, onCall: nat, kind: FaultKind)

  datatype Expected = Expected(kind: EntryKind, total: int, taxable: int, vat: int)

  datatype Oracle = Oracle(expected: seq<Expected>, clarifyFirst: bool, clarifyAfterCorrection: bool,
                           mustDecline: bool, maxDrafts: Option<nat>)

  datatype Scenario = Scenario(id: string, asOf: string, bills: map<string, string>, script: seq<OwnerLine>,
                               existing: seq<(Figures, string)>, faults: seq<Fault>, clarifyAnswer: Option<string>, oracle: Oracle)

  /** Figures and errors the outbound gate accepts as evidence in this owner turn. */
  datatype Evidence = Evidence(numbers: set<string>, failures: seq<string>, errors: seq<string>)

  datatype Gate = Deliver | Hold(reasons: seq<string>)

  /** One scenario together with the deterministic functions the environment calls and whose bodies are
      no part of this model: the approval and question classifiers, the other-business marker search, VAT
      resolution, the date check, the validators, the evidence collectors and the outbound gate. */
  datatype World = World(
    scenario: Scenario,
    isApproval: string -> bool,
    asks: string -> bool,
    mentions: (string, string) -> bool,
    foreign: Call -> bool,
    resolveVat: RecordArgs -> Option<Vat>,
    inFuture: string -> bool,
    validate: (RecordArgs, Vat, seq<Entry>) -> Report,
    checkCandidate: (string, seq<Entry>) -> Report,
    splitVat: (int, bool) -> Vat,
    turnEvidence: seq<string> -> Evidence,
    addResult: (Evidence, ToolResult) -> Evidence,
    gate: (string, Evidence) -> Gate)

  /** The books an episode starts from: the scenario's entries, confirmed and numbered in order. */
  function Preload(existing: seq<(Figures, string)>): (entries: seq<Entry>)
    ensures |entries| == |existing|
  {
    seq(|existing|, i requires 0 <= i < |existing| =>
      Entry(Pre(i), Confirmed, existing[i].0, existing[i].1, true, 0))
  }
}
