/** The event log read back: what the books are, when each entry was drafted and confirmed, and what the
    owner said in between - computed from the log alone. */
module EventLog {
  import opened OptionType
  import opened Contracts
  import opened EnvSpec

  /** An entry as the log tells it: with the key of the call that drafted it and the positions of the events
      that drafted it (-1 when it was there before) and confirmed it. */
  datatype Item = Item(entry: Entry, key: Option<string>, draftedAt: int, confirmedAt: Option<nat>)

  /** `spoken` counts the owner's messages that do more than inform: those come from the script alone, in its order. */
  datatype Book = Book(items: seq<Item>, steps: nat, call: Option<Call>, lastCorrection: int, spoken: nat)

  function Opening(w: World): Book {
    var before := Preload(w.scenario.existing);
    Book(seq(|before|, i requires 0 <= i < |before| => Item(before[i], None, -1, None)), 0, None, -1, 0)
  }

  function Strike(items: seq<Item>, gone: Option<EntryId>): (r: seq<Item>)
    ensures |r| == |items|
  {
    seq(|items|, i requires 0 <= i < |items| =>
      if Some(items[i].entry.id) == gone then items[i].(entry := items[i].entry.(status := Superseded)) else items[i])
  }

  function Flip(items: seq<Item>, id: EntryId, at: nat): (r: seq<Item>)
    ensures |r| == |items|
  {
    seq(|items|, i requires 0 <= i < |items| =>
      if items[i].entry.id == id then items[i].(entry := items[i].entry.(status := Confirmed), confirmedAt := Some(at)) else items[i])
  }

  /** What the event at position `at` says about the books. */
  function Read(b: Book, at: nat, d: EventData): Book {
    match d
    case AgentDecision(_) => b.(steps := b.steps + 1)
    case InvalidAction => b.(steps := b.steps + 1)
    case ToolCall(call, _) => b.(call := Some(call))
    case OwnerMessage(_, intent, _) =>
      b.(lastCorrection := if intent == Correct then b.steps else b.lastCorrection, spoken := b.spoken + if intent == Inform then 0 else 1)
    case LedgerWrite(op, id, fig) =>
      if op.ConfirmOp? then b.(items := Flip(b.items, id, at))
      else if b.call.Some? && b.call.value.Record? then
        var a := b.call.value.args;
        b.(items := Strike(b.items, a.supersedes) + [Item(Entry(id, Draft, fig, a.occurredOn, false, b.steps), a.key, at, None)])
      else b
    case _ => b
  }

  function BookOf(w: World, log: seq<Event>): Book {
    if log == [] then Opening(w) else Read(BookOf(w, log[..|log|-1]), |log|-1, log[|log|-1].data)
  }

  function EntriesOf(items: seq<Item>): (es: seq<Entry>)
    ensures |es| == |items|
  {
    seq(|items|, i requires 0 <= i < |items| => items[i].entry)
  }

  // ---------------------------------------------------------------- what the owner said

  /** How many of the first `c` lines do more than inform. */
  function Marked(script: seq<OwnerLine>, c: nat): nat
    requires c <= |script|
  {
    if c == 0 then 0 else Marked(script, c - 1) + if script[c-1].intent == Inform then 0 else 1
  }

  /** The `j`-th of the lines that do more than inform, among the first `c`. */
  function MarkedLine(script: seq<OwnerLine>, c: nat, j: nat): (r: Option<OwnerLine>)
    requires c <= |script|
    ensures r.Some? ==> r.value in script
  {
    if c == 0 then None
    else if script[c-1].intent != Inform && Marked(script, c - 1) == j then Some(script[c-1])
    else MarkedLine(script, c - 1, j)
  }

  lemma {:induction false} MarkedGrows(script: seq<OwnerLine>, c: nat, n: nat)
    requires c <= n <= |script|
    ensures Marked(script, c) <= Marked(script, n)
  {
    if c < n { MarkedGrows(script, c, n - 1); }
  }

  /** The count of such lines before it finds the line again. */
  lemma {:induction false} MarkedFound(script: seq<OwnerLine>, c: nat, n: nat)
    requires c < n <= |script| && script[c].intent != Inform
    ensures MarkedLine(script, n, Marked(script, c)) == Some(script[c])
  {
    if c < n - 1 {
      MarkedFound(script, c, n - 1);
      MarkedGrows(script, c + 1, n - 1);
    }
  }

  predicate CorrectionAt(log: seq<Event>, k: int) {
    0 <= k < |log| && log[k].data.OwnerMessage? && log[k].data.intent == Correct
  }

  /** An owner message whose text is an explicit yes. */
  predicate YesAt(w: World, log: seq<Event>, k: int) {
    0 <= k < |log| && log[k].data.OwnerMessage? && w.isApproval(log[k].data.text)
  }

  /** The line of the script the owner speaks next that does more than inform, by the log alone. */
  function NextLine(w: World, log: seq<Event>): Option<OwnerLine> {
    MarkedLine(w.scenario.script, |w.scenario.script|, BookOf(w, log).spoken)
  }

  /** The owner's message at `k` is the script's confirming line whose turn it was, and covers `id`, given the books then. */
  predicate CoversAt(w: World, log: seq<Event>, k: int, id: EntryId) {
    0 <= k < |log| && log[k].data.OwnerMessage? && log[k].data.intent == ConfirmI &&
    var line := NextLine(w, log[..k]);
    line.Some? && line.value.say == log[k].data.text && line.value.intent == ConfirmI &&
    id in Covered(line.value, EntriesOf(BookOf(w, log[..k]).items), BookOf(w, log[..k]).lastCorrection)
  }

  /** After position `from` the owner confirmed `id` and has corrected nothing since `from`. */
  ghost predicate Endorsed(w: World, log: seq<Event>, from: int, id: EntryId) {
    (exists k :: k > from && CoversAt(w, log, k, id)) && (forall c :: c > from ==> !CorrectionAt(log, c))
  }

  /** After position `from` the owner said an explicit yes. */
  ghost predicate Vouched(w: World, log: seq<Event>, from: int) {
    exists k :: k > from && YesAt(w, log, k)
  }

  // ---------------------------------------------------------------- the invariant

  /** Where entry number `i` comes from: its position alone fixes its id. */
  function IdAt(existing: nat, i: nat): EntryId {
    if i < existing then Pre(i) else New(i - existing + 1)
  }

  predicate Shape(w: World, s: EnvState) {
    var n := |w.scenario.existing|;
    n <= |s.ledger.entries| && |s.ledger.entries| + 1 == n + s.ledger.nextId && s.owner.lastCorrection <= s.step &&
    forall i :: 0 <= i < |s.ledger.entries| ==>
      var e := s.ledger.entries[i];
      e.id == IdAt(n, i) && (e.preexisting <==> i < n) && e.createdStep <= s.step
      && (i < n ==> e.status == Confirmed)
      && (i >= n ==> e.fig.total == e.fig.taxable + e.fig.vat)
  }

  predicate Mirrors(b: Book, s: EnvState) {
    EntriesOf(b.items) == s.ledger.entries && b.steps == s.step && b.lastCorrection == s.owner.lastCorrection
  }

  predicate Numbered(log: seq<Event>) {
    forall k :: 0 <= k < |log| ==> log[k].seqNo == k
  }

  /** Every new entry has its drafting event, and a confirming event exactly when it is confirmed. */
  predicate Located(w: World, items: seq<Item>, log: seq<Event>) {
    forall i :: |w.scenario.existing| <= i < |items| ==> ItemLocated(w, items[i], log)
  }

  predicate ItemLocated(w: World, it: Item, log: seq<Event>) {
    && 0 <= it.draftedAt < |log|
    && log[it.draftedAt].data == LedgerWrite(DraftOp, it.entry.id, it.entry.fig)
    && BookOf(w, log[..it.draftedAt]).steps == it.entry.createdStep
    && (it.entry.status == Confirmed <==> it.confirmedAt.Some?)
    && (it.confirmedAt.Some? ==>
          it.draftedAt < it.confirmedAt.value < |log| &&
          log[it.confirmedAt.value].data.LedgerWrite? && log[it.confirmedAt.value].data.op.ConfirmOp? &&
          log[it.confirmedAt.value].data.id == it.entry.id && log[it.confirmedAt.value].data.fig == it.entry.fig)
  }

  /** Every writing event belongs to a new entry, which names that very event. */
  predicate Accounted(w: World, items: seq<Item>, log: seq<Event>) {
    forall p :: 0 <= p < |log| && log[p].data.LedgerWrite? ==>
      var d := log[p].data;
      var n := |w.scenario.existing|;
      d.id.New? && 1 <= d.id.n && n + d.id.n - 1 < |items| &&
      var it := items[n + d.id.n - 1];
      if d.op.DraftOp? then it.draftedAt == p else it.confirmedAt == Some(p)
  }

  /** A key drafted at most one entry, and the stored result under it is that entry's. */
  predicate Keyed(w: World, items: seq<Item>, idem: map<string, ToolData>) {
    && (forall i :: |w.scenario.existing| <= i < |items| && items[i].key.Some? ==> items[i].key.value in idem)
    && (forall i, j :: |w.scenario.existing| <= i < j < |items| && items[i].key.Some? ==> items[i].key != items[j].key)
    && (forall k :: k in idem && idem[k].Saved? ==> Owned(w, items, k, idem[k].id, idem[k].fig))
  }

  /** `id` is a new entry with these figures, and it was drafted under `key`. */
  predicate Owned(w: World, items: seq<Item>, key: string, id: EntryId, fig: Figures) {
    var n := |w.scenario.existing|;
    id.New? && 1 <= id.n && n + id.n - 1 < |items| &&
    items[n + id.n - 1].key == Some(key) && items[n + id.n - 1].entry.fig == fig
  }

  /** Behind every confirmation under guards there is an explicit yes since the draft. */
  ghost predicate Guarded(w: World, guards: bool, items: seq<Item>, log: seq<Event>) {
    guards ==>
      forall i :: |w.scenario.existing| <= i < |items| && items[i].confirmedAt.Some? && items[i].confirmedAt.value < |log| ==>
        Vouched(w, log[..items[i].confirmedAt.value], items[i].draftedAt)
  }

  /** Behind every yes-step there is an explicit yes of that step. */
  ghost predicate YesLogged(w: World, yes: seq<nat>, log: seq<Event>) {
    forall y :: y in yes ==> YesInStep(w, log, y)
  }

  ghost predicate YesInStep(w: World, log: seq<Event>, step: nat) {
    exists k :: YesAt(w, log, k) && BookOf(w, log[..k]).steps == step
  }

  /** An approved id is that of a new entry the owner endorsed after its draft. */
  ghost predicate ApprovalsLogged(w: World, approvals: seq<EntryId>, items: seq<Item>, log: seq<Event>) {
    forall id :: id in approvals ==> ApprovalLogged(w, log, items, id)
  }

  ghost predicate ApprovalLogged(w: World, log: seq<Event>, items: seq<Item>, id: EntryId) {
    var n := |w.scenario.existing|;
    id.New? && 1 <= id.n && n + id.n - 1 < |items| && Endorsed(w, log, items[n + id.n - 1].draftedAt, id)
  }

  /** A confirmation logged as approved was endorsed between draft and confirmation. */
  ghost predicate FlagsTrue(w: World, items: seq<Item>, log: seq<Event>) {
    forall i :: |w.scenario.existing| <= i < |items| && items[i].confirmedAt.Some? && items[i].confirmedAt.value < |log|
                && log[items[i].confirmedAt.value].data.LedgerWrite? && log[items[i].confirmedAt.value].data.op == ConfirmOp(true) ==>
      Endorsed(w, log[..items[i].confirmedAt.value], items[i].draftedAt, items[i].entry.id)
  }

  /** No correction lies in a later step than the last one the log tells of. */
  ghost predicate CorrectionsBounded(w: World, log: seq<Event>, last: int) {
    forall c :: CorrectionAt(log, c) ==> BookOf(w, log[..c]).steps <= last
  }

  /** Everything the invariant says about where in the log things happened. */
  ghost predicate History(w: World, guards: bool, yes: seq<nat>, approvals: seq<EntryId>, last: int,
                          items: seq<Item>, log: seq<Event>) {
    && Numbered(log) && Located(w, items, log) && Accounted(w, items, log)
    && Guarded(w, guards, items, log) && YesLogged(w, yes, log) && ApprovalsLogged(w, approvals, items, log)
    && FlagsTrue(w, items, log) && CorrectionsBounded(w, log, last)
  }

  /** The message is the script's line whose turn it was, if it does more than inform. */
  predicate InTurn(w: World, log: seq<Event>, d: EventData) {
    d.OwnerMessage? && d.intent != Inform ==>
      NextLine(w, log).Some? && NextLine(w, log).value.say == d.text && NextLine(w, log).value.intent == d.intent
  }

  predicate Scripted(w: World, log: seq<Event>) { forall k :: 0 <= k < |log| ==> InTurn(w, log[..k], log[k].data) }

  /** The owner has spoken the script up to the cursor, line by line. */
  predicate Cued(w: World, s: EnvState) {
    && s.owner.cursor <= |w.scenario.script| && BookOf(w, s.events).spoken == Marked(w.scenario.script, s.owner.cursor)
    && Scripted(w, s.events)
  }

  ghost predicate Faithful(w: World, s: EnvState) { Agrees(w, s) && Cued(w, s) }

  ghost predicate Agrees(w: World, s: EnvState) {
    var b := BookOf(w, s.events);
    && Shape(w, s) && Mirrors(b, s) && Keyed(w, b.items, s.ledger.idem)
    && History(w, s.guards, s.owner.yesSteps, s.owner.approvals, s.owner.lastCorrection, b.items, s.events)
  }

  // ---------------------------------------------------------------- logs grow

  /** Earlier prefixes of a log are untouched by one more event. */
  lemma PrefixStays(log: seq<Event>, e: Event)
    ensures forall k {:trigger (log + [e])[..k]} :: 0 <= k <= |log| ==> (log + [e])[..k] == log[..k]
  {
    forall k | 0 <= k <= |log| ensures (log + [e])[..k] == log[..k] {}
  }

  lemma ReadNext(w: World, log: seq<Event>, e: Event)
    ensures BookOf(w, log + [e]) == Read(BookOf(w, log), |log|, e.data)
  {
    assert (log + [e])[..|log|] == log;
  }

  lemma ScriptedNext(w: World, log: seq<Event>, e: Event)
    requires Scripted(w, log) && InTurn(w, log, e.data)
    ensures Scripted(w, log + [e])
  {
    hide InTurn;
    PrefixStays(log, e);
    assert (log + [e])[..|log|] == log;
    forall k | 0 <= k < |log + [e]| ensures InTurn(w, (log + [e])[..k], (log + [e])[k].data) {
      if k < |log| { assert (log + [e])[..k] == log[..k] && InTurn(w, log[..k], log[k].data); }
    }
  }

  lemma EndorsedStays(w: World, log: seq<Event>, e: Event, from: int, id: EntryId)
    requires Endorsed(w, log, from, id)
    requires !(e.data.OwnerMessage? && e.data.intent == Correct)
    ensures Endorsed(w, log + [e], from, id)
  {
    PrefixStays(log, e);
    var k :| k > from && CoversAt(w, log, k, id);
    assert (log + [e])[..k] == log[..k];
    assert CoversAt(w, log + [e], k, id);
    forall c | c > from ensures !CorrectionAt(log + [e], c) {
      assert !CorrectionAt(log, c);
    }
  }

  lemma YesStays(w: World, log: seq<Event>, e: Event, step: nat)
    requires YesInStep(w, log, step)
    ensures YesInStep(w, log + [e], step)
  {
    PrefixStays(log, e);
    var k :| YesAt(w, log, k) && BookOf(w, log[..k]).steps == step;
    assert YesAt(w, log + [e], k) && (log + [e])[..k] == log[..k];
  }

  /** Steps never go back along a log. */
  lemma {:induction false} StepsGrow(w: World, log: seq<Event>, j: nat, k: nat)
    requires j <= k <= |log|
    ensures BookOf(w, log[..j]).steps <= BookOf(w, log[..k]).steps
  {
    if j < k {
      StepsGrow(w, log, j, k - 1);
      assert log[..k][..k-1] == log[..k-1];
    }
  }
}
