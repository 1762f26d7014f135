/** The skill harness as functions on its memory (agents-learning/src/agents/skills.ts): what one turn does, for any
    choice of skills. `SkillHarness` is the object that does it in place. */
module HarnessSpec {
  import opened OptionType
  import opened Contracts
  import opened EnvSpec
  import Money
  import Strings

  datatype Skill = DraftAndAsk | DraftAndSave | AskClarify | ConfirmPending | Decline | Acknowledge

  datatype Bill = Bill(file: string, vendor: string, invoice: Option<string>, date: Option<string>, total: Option<nat>, vatRegistered: bool)

  /** What the harness remembers of a draft. `born` and `key` are no fields of the source: how many corrections had
      been heard when the draft was learned of, and under which key it was recorded. */
  datatype Note = Note(id: EntryId, kind: EntryKind, total: int, vendor: Option<string>, file: Option<string>,
                       confirmed: bool, superseded: bool, duplicate: bool, born: nat, key: Option<string>)

  datatype Closing = Ask | Save

  datatype Inflight = Inflight(args: RecordArgs, retries: nat)

  /** A write sent so far: its arguments and how often. */
  datatype Tried = Tried(args: RecordArgs, times: nat)

  /** The last four are no fields of the source: corrections heard, confirms sent and not refused since, the draft of
      the confirm sent last if nothing was sent since, and the writes sent. */
  datatype Memory = Memory(
    scenario: string, owner: string, bills: seq<Bill>, drafts: seq<Note>, queue: seq<Action>, writes: seq<RecordArgs>,
    inflight: Option<Inflight>, closing: Option<Closing>, answeredVat: Option<bool>, confirmedAmount: Option<nat>, keys: nat,
    awaiting: bool, decided: bool, correctionAsked: Option<nat>, supersedeTarget: Option<EntryId>, reconfirm: seq<EntryId>,
    heard: nat, sent: set<EntryId>, last: Option<EntryId>, tried: map<string, Tried>)

  /** The text classifiers, the bill reader and the wording of a question or a held reply, which are no part of this
      model. */
  datatype Wits = Wits(
    saysCorrection: string -> bool, onlyTheFirst: string -> bool, notVatRegistered: string -> bool, billIsRight: string -> bool,
    mentions: (string, string) -> bool, parseBill: (string, string) -> Bill, typedEntry: (string, nat) -> RecordArgs,
    question: Memory -> string, heldReply: string)

  /** What `next` comes to; `Broken` is the exception a garbled bill raises. */
  datatype Turn = Doing(action: Action) | Deciding | Stopping | Broken

  function Fresh(scenario: string): Memory {
    Memory(scenario, "", [], [], [], [], None, None, None, None, 0, true, false, None, None, [], 0, {}, None, map[])
  }

  // ---------------------------------------------------------------- helpers

  predicate IsOpen(d: Note) { !d.confirmed && !d.superseded }

  function OpenDrafts(ds: seq<Note>): (r: seq<Note>)
    ensures forall d :: d in r <==> d in ds && IsOpen(d)
  {
    if ds == [] then []
    else OpenDrafts(ds[..|ds|-1]) + if IsOpen(ds[|ds|-1]) then [ds[|ds|-1]] else []
  }

  function FirstAmount(t: string): Option<nat> {
    var xs := Money.Amounts(t);
    if xs == [] then None else Some(xs[0])
  }

  function Show(paisa: int): string { if paisa < 0 then "-" + Money.Npr(-paisa) else Money.Npr(paisa) }

  function ListOf(ds: seq<Note>): string {
    if ds == [] then ""
    else
      var d := ds[|ds|-1];
      var name := if d.vendor.Some? then d.vendor.value else if d.kind == Sale then "sale" else "expense";
      (if |ds| == 1 then "" else ListOf(ds[..|ds|-1]) + ", ") + name + ": " + Show(d.total)
  }

  const SAVED := "Saved"
  const ALREADY_SAVED := "That is already saved \U{2014} nothing more to do."
  const DECLINED := "Sorry, only this business's own accounts."

  function Say(text: string): Action { Message(text) }

  function Confirms(ds: seq<Note>): (q: seq<Action>)
    ensures |q| == |ds|
  {
    seq(|ds|, i requires 0 <= i < |ds| => Tool(Confirm(ds[i].kind, ds[i].id)))
  }

  /** `save`: the chosen drafts are marked confirmed and their confirms queued, with the report at the end. */
  function MarkConfirmed(ds: seq<Note>, chosen: seq<Note>): (r: seq<Note>)
    ensures |r| == |ds|
  {
    seq(|ds|, i requires 0 <= i < |ds| => if ds[i] in chosen then ds[i].(confirmed := true) else ds[i])
  }

  function SaveDrafts(m: Memory, chosen: seq<Note>): Memory {
    if chosen == [] then m.(queue := m.queue + [Say(ALREADY_SAVED)])
    else m.(queue := m.queue + Confirms(chosen) + [Say(SAVED + " \U{2705} " + ListOf(chosen))], drafts := MarkConfirmed(m.drafts, chosen))
  }

  function AskText(open: seq<Note>): string {
    if open == [] then "I could not prepare a draft from that. Could you check the details?"
    else
      "I prepared: " + ListOf(open) + "." +
      (if exists d :: d in open && d.duplicate then " This looks like a bill already in your books." else "") + " Shall I save it?"
  }

  function Close(m: Memory, c: Closing): Memory {
    var open := OpenDrafts(m.drafts);
    match c
    case Ask => m.(queue := m.queue + [Say(AskText(open))])
    case Save => SaveDrafts(m, open)
  }

  function FirstMentioned(wits: Wits, owner: string, ds: seq<Note>): seq<Note> {
    match FirstHit(wits, owner, ds)
    case Some(d) => [d]
    case None => if ds == [] then [] else ds[..1]
  }

  function FirstHit(wits: Wits, owner: string, ds: seq<Note>): (r: Option<Note>)
    ensures r.Some? ==> r.value in ds
  {
    if ds == [] then None
    else if ds[0].vendor.Some? && ds[0].vendor.value != "" && wits.mentions(owner, ds[0].vendor.value) then Some(ds[0])
    else FirstHit(wits, owner, ds[1..])
  }

  function Among(ds: seq<Note>, ids: seq<EntryId>): (r: seq<Note>)
    ensures forall d :: d in r <==> d in ds && d.id in ids
  {
    if ds == [] then [] else Among(ds[..|ds|-1], ids) + if ds[|ds|-1].id in ids then [ds[|ds|-1]] else []
  }

  // ---------------------------------------------------------------- perception

  function Reopen(ds: seq<Note>, id: EntryId): (r: seq<Note>)
    ensures |r| == |ds|
  {
    if ds == [] then []
    else if ds[0].id == id then [ds[0].(confirmed := false)] + ds[1..]
    else [ds[0]] + Reopen(ds[1..], id)
  }

  function AskAgain(queue: seq<Action>, ask: Action): (r: seq<Action>)
    ensures |r| == |queue|
  {
    seq(|queue|, i requires 0 <= i < |queue| => if queue[i].Message? && SAVED <= queue[i].text then ask else queue[i])
  }

  /** The server refused to confirm: the draft is open again, and the report in the queue becomes a question. */
  function Refused(m: Memory, id: EntryId): Memory {
    var known := exists d :: d in m.drafts && d.id == id;
    var m1 := if known
      then m.(drafts := Reopen(m.drafts, id), reconfirm := if id in m.reconfirm then m.reconfirm else m.reconfirm + [id])
      else m;
    m1.(queue := AskAgain(m1.queue, Say("To save " + ListOf(Among(m1.drafts, m1.reconfirm)) + ", please reply YES.")), sent := m.sent - {id}, last := None)
  }

  /** A recorded draft is remembered. */
  function Learned(m: Memory, args: RecordArgs, kind: EntryKind, id: EntryId, fig: Figures, duplicate: bool): Memory {
    m.(drafts := m.drafts + [Note(id, kind, fig.total, args.vendor, args.receipt, false, false,
                                   (forall d :: d in m.drafts ==> !d.superseded) && duplicate, m.heard, args.key)])
  }

  function AbsorbResult(wits: Wits, m: Memory, r: Option<ToolResult>): Option<Memory> {
    if r.None? then Some(m)
    else
      var res := r.value;
      if res.name == ReadBillT && res.ok then
        if res.data.BillText? then
          Some(if exists b :: b in m.bills && b.file == res.data.file then m
               else m.(bills := m.bills + [wits.parseBill(res.data.file, res.data.text)]))
        else None
      else if res.name == ConfirmEntryT && res.ok then
        Some(if res.data.NeedsApproval? then Refused(m, res.data.id) else m)
      else if (res.name != RecordExpenseT && res.name != RecordSaleT) || m.inflight.None? then Some(m)
      else
        var w := m.inflight.value;
        if !res.ok || res.data.Garbled? then
          Some(if w.retries + 1 > 2 then m.(inflight := None) else m.(inflight := Some(w.(retries := w.retries + 1))))
        else
          var m1 := if res.data.Saved?
            then Learned(m, w.args, if res.name == RecordSaleT then Sale else Expense, res.data.id, res.data.fig, res.data.report.duplicateWarned)
            else m;
          Some(m1.(inflight := None))
  }

  function SupersedeOpen(ds: seq<Note>): (r: seq<Note>)
    ensures |r| == |ds|
  {
    seq(|ds|, i requires 0 <= i < |ds| => if IsOpen(ds[i]) then ds[i].(superseded := true) else ds[i])
  }

  function AbsorbOwner(wits: Wits, m: Memory, text: string): Memory {
    var m1 := m.(owner := text,
                 answeredVat := if wits.notVatRegistered(text) then Some(false) else m.answeredVat,
                 confirmedAmount := if wits.billIsRight(text) then FirstAmount(text) else m.confirmedAmount);
    if wits.saysCorrection(text) then
      var open := OpenDrafts(m.drafts);
      m1.(supersedeTarget := if m.supersedeTarget.Some? then m.supersedeTarget else if open == [] then None else Some(open[0].id),
          drafts := SupersedeOpen(m.drafts), heard := m.heard + 1)
    else m1
  }

  // ---------------------------------------------------------------- planning

  function KeyOf(scenario: string, k: nat): string { scenario + ":" + Strings.Digits(k) }

  function ExpenseArgs(b: Option<Bill>, total: int, vatRegistered: bool): RecordArgs {
    RecordArgs(Expense, if b.Some? && b.value.date.Some? then b.value.date.value else "2026-09-20", total, true,
               if b.Some? then Some(b.value.vendor) else None, if b.Some? then b.value.invoice else None, Some(vatRegistered),
               None, None, None, None, if b.Some? then Some(b.value.file) else None, "goods for taxable business use")
  }

  predicate Undrafted(m: Memory, b: Bill) { forall d :: d in m.drafts ==> !(d.file == Some(b.file) && !d.superseded) }

  function BillWrites(m: Memory, bills: seq<Bill>): seq<RecordArgs> {
    if bills == [] then []
    else
      var b := bills[|bills|-1];
      BillWrites(m, bills[..|bills|-1]) +
        if Undrafted(m, b) then
          [ExpenseArgs(Some(b), if m.confirmedAmount.Some? then m.confirmedAmount.value else if b.total.Some? then b.total.value else 0,
                       b.vatRegistered && m.answeredVat != Some(false))]
        else []
  }

  /** A correction, each undrafted bill, or a typed entry - before keys are given out. */
  function Wanted(wits: Wits, m: Memory): seq<RecordArgs> {
    var amount := FirstAmount(m.owner);
    if wits.saysCorrection(m.owner) && amount.Some? then
      [ExpenseArgs(if m.bills == [] then None else Some(m.bills[0]), amount.value, true).(supersedes := m.supersedeTarget)]
    else
      BillWrites(m, m.bills) +
        if m.bills == [] && amount.Some? && m.drafts == [] then [wits.typedEntry(m.owner, amount.value)] else []
  }

  function WithKeys(scenario: string, keys: nat, ws: seq<RecordArgs>): (r: seq<RecordArgs>)
    ensures |r| == |ws|
  {
    seq(|ws|, i requires 0 <= i < |ws| => ws[i].(key := Some(KeyOf(scenario, keys + 1 + i))))
  }

  function Plan(wits: Wits, m: Memory): Memory {
    var ws := Wanted(wits, m);
    m.(writes := WithKeys(m.scenario, m.keys, ws), keys := m.keys + |ws|,
       supersedeTarget := if wits.saysCorrection(m.owner) && FirstAmount(m.owner).Some? then None else m.supersedeTarget)
  }

  function Choose(wits: Wits, m0: Memory, skill: Skill): Memory {
    var m := m0.(decided := true);
    match skill
    case DraftAndAsk => Plan(wits, m).(closing := Some(Ask))
    case DraftAndSave => Plan(wits, m).(closing := Some(Save))
    case AskClarify =>
      var m1 := if wits.saysCorrection(m.owner) && m.correctionAsked.None?
        then m.(correctionAsked := Some(if FirstAmount(m.owner).Some? then FirstAmount(m.owner).value else 0)) else m;
      m1.(queue := m1.queue + [Say(wits.question(m1))])
    case ConfirmPending =>
      var open := OpenDrafts(m.drafts);
      var again := Among(open, m.reconfirm);
      SaveDrafts(m.(reconfirm := []), if wits.onlyTheFirst(m.owner) then FirstMentioned(wits, m.owner, open) else if again != [] then again else open)
    case Decline => m.(queue := m.queue + [Say(DECLINED)])
    case Acknowledge => m.(queue := m.queue + [Say("Okay, I won't save anything for now.")])
  }

  // ---------------------------------------------------------------- one turn

  function Unread(bills: seq<Bill>, files: seq<string>): (r: Option<string>)
    ensures r.Some? ==> r.value in files
  {
    if files == [] then None
    else if exists b :: b in bills && b.file == files[0] then Unread(bills, files[1..])
    else Some(files[0])
  }

  /** The write goes out, once more. */
  function Send(m: Memory, w: Inflight): (Memory, Turn) {
    var key := if w.args.key.Some? then w.args.key.value else "";
    (m.(inflight := Some(w), last := None, tried := m.tried[key := Tried(w.args, (if key in m.tried then m.tried[key].times else 0) + 1)]),
     Doing(Tool(Record(w.args))))
  }

  function Shift(m: Memory): (Memory, Turn)
    requires m.queue != []
  {
    var a := m.queue[0];
    (m.(queue := m.queue[1..], awaiting := if a.Message? then true else m.awaiting,
        sent := if a.Tool? && a.call.Confirm? then m.sent + {a.call.id} else m.sent,
        last := if a.Tool? && a.call.Confirm? then Some(a.call.id) else None), Doing(a))
  }

  /** The rest of `next`, once there is nothing left to send. */
  function Listen(wits: Wits, m0: Memory, obs: Observation): (Memory, Turn) {
    var m := m0.(last := None);
    if m.awaiting && obs.lastMessage.Some? && obs.lastMessage.value.Hold? then (m, Doing(Say(wits.heldReply)))
    else if m.awaiting && obs.ownerMessage.None? then (m, Stopping)
    else
      var m1 := if m.awaiting then AbsorbOwner(wits, m.(awaiting := false, decided := false), obs.ownerMessage.value) else m;
      var unread := Unread(m1.bills, obs.bills);
      if unread.Some? then (m1, Doing(Tool(ReadBill(unread.value))))
      else (m1, if m1.decided then Stopping else Deciding)
  }

  function Proceed(wits: Wits, m: Memory, obs: Observation): (Memory, Turn) {
    if m.inflight.Some? then Send(m, m.inflight.value)
    else if m.writes != [] then Send(m.(writes := m.writes[1..]), Inflight(m.writes[0], 0))
    else
      var m1 := if m.closing.Some? then Close(m, m.closing.value).(closing := None) else m;
      if m1.queue != [] then Shift(m1) else Listen(wits, m1, obs)
  }

  function Next(wits: Wits, m: Memory, obs: Observation): (Memory, Turn) {
    match AbsorbResult(wits, m, obs.toolResult)
    case None => (m, Broken)
    case Some(m1) => Proceed(wits, m1, obs)
  }

  /** `PolicyAgent.act`: `next`, and when it asks for a decision, the policy's choice and `next` again. */
  function PolicyAct(wits: Wits, m: Memory, obs: Observation, skill: Skill): (Memory, Turn) {
    var (m1, turn) := Next(wits, m, obs);
    if turn.Deciding? then Next(wits, Choose(wits, m1, skill), obs) else (m1, turn)
  }
}
