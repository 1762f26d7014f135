/** Every call of the environment keeps the books and the log in agreement. */
module EnvInvariants {
  import opened OptionType
  import opened Contracts
  import opened JudgeSpec
  import opened EnvSpec
  import opened EventLog

  predicate SameBooks(s: EnvState, t: EnvState) {
    t.ledger == s.ledger && t.step == s.step && t.owner.lastCorrection == s.owner.lastCorrection &&
    t.owner.approvals == s.owner.approvals && t.owner.yesSteps == s.owner.yesSteps && t.guards == s.guards && t.owner.cursor == s.owner.cursor
  }

  predicate Passive(d: EventData) {
    !d.AgentDecision? && !d.InvalidAction? && !d.LedgerWrite? && !d.OwnerMessage?
  }

  // ---------------------------------------------------------------- one more event, same items

  lemma LocatedStays(w: World, items: seq<Item>, log: seq<Event>, e: Event)
    requires Located(w, items, log)
    ensures Located(w, items, log + [e])
  {
    PrefixStays(log, e);
    forall i | |w.scenario.existing| <= i < |items| ensures ItemLocated(w, items[i], log + [e]) {
      assert ItemLocated(w, items[i], log);
      assert (log + [e])[..items[i].draftedAt] == log[..items[i].draftedAt];
    }
  }

  lemma GuardedStays(w: World, guards: bool, items: seq<Item>, log: seq<Event>, e: Event)
    requires Guarded(w, guards, items, log) && Located(w, items, log)
    ensures Guarded(w, guards, items, log + [e])
  {
    PrefixStays(log, e);
    forall i | guards && |w.scenario.existing| <= i < |items| && items[i].confirmedAt.Some?
      ensures Vouched(w, (log + [e])[..items[i].confirmedAt.value], items[i].draftedAt)
    {
      assert ItemLocated(w, items[i], log);
    }
  }

  lemma FlagsStay(w: World, items: seq<Item>, log: seq<Event>, e: Event)
    requires FlagsTrue(w, items, log) && Located(w, items, log)
    ensures FlagsTrue(w, items, log + [e])
  {
    PrefixStays(log, e);
    forall i | |w.scenario.existing| <= i < |items| && items[i].confirmedAt.Some?
               && (log + [e])[items[i].confirmedAt.value].data.op == ConfirmOp(true)
      ensures Endorsed(w, (log + [e])[..items[i].confirmedAt.value], items[i].draftedAt, items[i].entry.id)
    {
      assert ItemLocated(w, items[i], log);
    }
  }

  lemma YesesStay(w: World, yes: seq<nat>, log: seq<Event>, e: Event)
    requires YesLogged(w, yes, log)
    ensures YesLogged(w, yes, log + [e])
  {
    forall y | y in yes ensures YesInStep(w, log + [e], y) { YesStays(w, log, e, y); }
  }

  lemma ApprovalsStay(w: World, approvals: seq<EntryId>, items: seq<Item>, log: seq<Event>, e: Event)
    requires ApprovalsLogged(w, approvals, items, log)
    requires !(e.data.OwnerMessage? && e.data.intent == Correct)
    ensures ApprovalsLogged(w, approvals, items, log + [e])
  {
    forall id | id in approvals ensures ApprovalLogged(w, log + [e], items, id) {
      assert ApprovalLogged(w, log, items, id);
      EndorsedStays(w, log, e, items[|w.scenario.existing| + id.n - 1].draftedAt, id);
    }
  }

  lemma CorrectionsStay(w: World, log: seq<Event>, e: Event, last: int, last': int)
    requires CorrectionsBounded(w, log, last) && last <= last'
    requires e.data.OwnerMessage? && e.data.intent == Correct ==> BookOf(w, log).steps <= last'
    ensures CorrectionsBounded(w, log + [e], last')
  {
    PrefixStays(log, e);
    forall c | CorrectionAt(log + [e], c) ensures BookOf(w, (log + [e])[..c]).steps <= last' {
      if c < |log| {
        assert CorrectionAt(log, c);
        assert (log + [e])[..c] == log[..c];
      } else {
        assert (log + [e])[..c] == log;
      }
    }
  }

  /** One more event that writes nothing and is no correction leaves the history standing. */
  lemma HistoryStays(w: World, guards: bool, yes: seq<nat>, approvals: seq<EntryId>, last: int,
                     items: seq<Item>, log: seq<Event>, d: EventData)
    requires History(w, guards, yes, approvals, last, items, log)
    requires !d.LedgerWrite? && !(d.OwnerMessage? && d.intent == Correct)
    ensures History(w, guards, yes, approvals, last, items, log + [Event(|log|, d)])
  {
    var e := Event(|log|, d);
    LocatedStays(w, items, log, e);
    GuardedStays(w, guards, items, log, e);
    FlagsStay(w, items, log, e);
    YesesStay(w, yes, log, e);
    ApprovalsStay(w, approvals, items, log, e);
    CorrectionsStay(w, log, e, last, last);
    AccountedStays(w, items, log, e);
  }

  lemma AccountedStays(w: World, items: seq<Item>, log: seq<Event>, e: Event)
    requires Accounted(w, items, log) && Numbered(log) && !e.data.LedgerWrite? && e.seqNo == |log|
    ensures Accounted(w, items, log + [e]) && Numbered(log + [e])
  {
    forall p | 0 <= p < |log + [e]| && (log + [e])[p].data.LedgerWrite? ensures p < |log| {}
  }

  /** An event that is no write, step or owner message leaves the invariant standing. */
  lemma PassiveKeeps(w: World, s: EnvState, t: EnvState, d: EventData)
    requires Faithful(w, s) && SameBooks(s, t) && Passive(d)
    requires t.events == s.events + [Event(|s.events|, d)]
    ensures Faithful(w, t)
    ensures BookOf(w, t.events) == BookOf(w, s.events).(call := if d.ToolCall? then Some(d.call) else BookOf(w, s.events).call)
  {
    hide History, Scripted;
    ScriptedNext(w, s.events, Event(|s.events|, d));
    ReadNext(w, s.events, Event(|s.events|, d));
    HistoryStays(w, s.guards, s.owner.yesSteps, s.owner.approvals, s.owner.lastCorrection, BookOf(w, s.events).items, s.events, d);
  }

  lemma BeginKeeps(w: World, s: EnvState, a: Action)
    requires Faithful(w, s)
    ensures Faithful(w, Begin(s, a))
  {
    hide History, Scripted;
    var d := if a.Rejected? then InvalidAction else AgentDecision(Summarize(a));
    ScriptedNext(w, s.events, Event(|s.events|, d));
    ReadNext(w, s.events, Event(|s.events|, d));
    HistoryStays(w, s.guards, s.owner.yesSteps, s.owner.approvals, s.owner.lastCorrection, BookOf(w, s.events).items, s.events, d);
  }

  // ---------------------------------------------------------------- the owner speaks

  /** A draft made after the last correction has no correction behind it in the log. */
  lemma NoCorrectionSince(w: World, it: Item, log: seq<Event>, last: int)
    requires ItemLocated(w, it, log) && CorrectionsBounded(w, log, last) && it.entry.createdStep > last
    ensures forall c :: c > it.draftedAt ==> !CorrectionAt(log, c)
  {
    forall c | c > it.draftedAt ensures !CorrectionAt(log, c) {
      if CorrectionAt(log, c) {
        StepsGrow(w, log, it.draftedAt, c);
        assert false;
      }
    }
  }

  /** The message that covers a draft made after the last correction endorses it from the draft on. */
  lemma CoverEndorses(w: World, log: seq<Event>, it: Item, last: int, line: OwnerLine)
    requires ItemLocated(w, it, log) && CorrectionsBounded(w, log, last) && it.entry.createdStep > last
    requires NextLine(w, log) == Some(line) && line.intent == ConfirmI && BookOf(w, log).lastCorrection == last
    requires it.entry.id in Covered(line, EntriesOf(BookOf(w, log).items), last)
    ensures Endorsed(w, log + [Event(|log|, OwnerMessage(line.say, line.intent, line.attach))], it.draftedAt, it.entry.id)
  {
    var e := Event(|log|, OwnerMessage(line.say, line.intent, line.attach));
    NoCorrectionSince(w, it, log, last);
    assert (log + [e])[..|log|] == log;
    assert CoversAt(w, log + [e], |log|, it.entry.id);
    forall c | c > it.draftedAt ensures !CorrectionAt(log + [e], c) { assert !CorrectionAt(log, c); }
  }

  /** A pending id is that of a new entry, at the position its number gives. */
  lemma PendingIsNew(w: World, s: EnvState, id: EntryId, last: int)
    requires Shape(w, s) && id in PendingIds(s.ledger.entries, last)
    ensures id.New? && 1 <= id.n && |w.scenario.existing| + id.n - 1 < |s.ledger.entries|
    ensures s.ledger.entries[|w.scenario.existing| + id.n - 1].id == id
    ensures s.ledger.entries[|w.scenario.existing| + id.n - 1].createdStep > last
  {
    var i :| 0 <= i < |s.ledger.entries| && s.ledger.entries[i].id == id && IsPending(s.ledger.entries[i], last);
  }

  lemma CoveredIsEndorsed(w: World, s: EnvState, line: OwnerLine, id: EntryId)
    requires Shape(w, s) && Mirrors(BookOf(w, s.events), s) && Located(w, BookOf(w, s.events).items, s.events)
    requires CorrectionsBounded(w, s.events, s.owner.lastCorrection)
    requires NextLine(w, s.events) == Some(line) && line.intent == ConfirmI
    requires id in Covered(line, s.ledger.entries, s.owner.lastCorrection)
    ensures ApprovalLogged(w, s.events + [Event(|s.events|, OwnerMessage(line.say, line.intent, line.attach))],
                           BookOf(w, s.events).items, id)
  {
    hide BookOf, CorrectionsBounded, Endorsed, ItemLocated, Shape;
    PendingIsNew(w, s, id, s.owner.lastCorrection);
    var items, i := BookOf(w, s.events).items, |w.scenario.existing| + id.n - 1;
    assert items[i].entry == EntriesOf(items)[i];
    assert ItemLocated(w, items[i], s.events);
    CoverEndorses(w, s.events, items[i], s.owner.lastCorrection, line);
  }

  lemma OwnerApprovals(w: World, s: EnvState, line: OwnerLine)
    requires Agrees(w, s) && (line.intent == ConfirmI ==> NextLine(w, s.events) == Some(line))
    ensures ApprovalsLogged(w, OwnerSays(w, s, line).owner.approvals, BookOf(w, s.events).items, OwnerSays(w, s, line).events)
  {
    var t, items := OwnerSays(w, s, line), BookOf(w, s.events).items;
    if line.intent != Correct {
      ApprovalsStay(w, s.owner.approvals, items, s.events, t.events[|s.events|]);
      forall id | id in t.owner.approvals ensures ApprovalLogged(w, t.events, items, id) {
        if id !in s.owner.approvals { CoveredIsEndorsed(w, s, line, id); }
      }
    }
  }

  lemma OwnerYeses(w: World, s: EnvState, line: OwnerLine)
    requires Agrees(w, s)
    ensures YesLogged(w, OwnerSays(w, s, line).owner.yesSteps, OwnerSays(w, s, line).events)
  {
    var t := OwnerSays(w, s, line);
    YesesStay(w, s.owner.yesSteps, s.events, t.events[|s.events|]);
    if w.isApproval(line.say) {
      assert t.events[..|s.events|] == s.events;
      assert YesAt(w, t.events, |s.events|);
      assert YesInStep(w, t.events, s.step);
    }
  }

  lemma OwnerSaysKeeps(w: World, s: EnvState, line: OwnerLine)
    requires Agrees(w, s) && (line.intent == ConfirmI ==> NextLine(w, s.events) == Some(line))
    ensures Agrees(w, OwnerSays(w, s, line))
    ensures BookOf(w, OwnerSays(w, s, line).events).items == BookOf(w, s.events).items
    ensures BookOf(w, OwnerSays(w, s, line).events).spoken == BookOf(w, s.events).spoken + if line.intent == Inform then 0 else 1
    ensures Scripted(w, s.events) && (line.intent != Inform ==> NextLine(w, s.events) == Some(line)) ==> Scripted(w, OwnerSays(w, s, line).events)
  {
    var t, items := OwnerSays(w, s, line), BookOf(w, s.events).items;
    var e := Event(|s.events|, OwnerMessage(line.say, line.intent, line.attach));
    ReadNext(w, s.events, e);
    if Scripted(w, s.events) && (line.intent != Inform ==> NextLine(w, s.events) == Some(line)) { ScriptedNext(w, s.events, e); }
    hide Scripted;
    OwnerApprovals(w, s, line);
    OwnerYeses(w, s, line);
    assert History(w, t.guards, t.owner.yesSteps, t.owner.approvals, t.owner.lastCorrection, items, t.events) by {
      LocatedStays(w, items, s.events, e);
      GuardedStays(w, s.guards, items, s.events, e);
      FlagsStay(w, items, s.events, e);
      CorrectionsStay(w, s.events, e, s.owner.lastCorrection, t.owner.lastCorrection);
      AccountedStays(w, items, s.events, e);
    }
    hide History;
  }

  // ---------------------------------------------------------------- a write

  /** Same entry and same place in the log; only a draft may have been struck. */
  predicate SameMarks(a: Item, b: Item) {
    b.key == a.key && b.draftedAt == a.draftedAt && b.confirmedAt == a.confirmedAt && b.entry.id == a.entry.id &&
    b.entry.fig == a.entry.fig && b.entry.createdStep == a.entry.createdStep &&
    (a.entry.status == Confirmed <==> b.entry.status == Confirmed)
  }

  predicate Carried(items: seq<Item>, items': seq<Item>) {
    |items| <= |items'| && (forall i :: 0 <= i < |items| ==> SameMarks(items[i], items'[i])) &&
    (forall i :: |items| <= i < |items'| ==> items'[i].confirmedAt.None?)
  }

  lemma CarryMarks(w: World, guards: bool, approvals: seq<EntryId>, items: seq<Item>, items': seq<Item>, log: seq<Event>)
    requires Carried(items, items') && |w.scenario.existing| <= |items|
    requires Guarded(w, guards, items, log) && FlagsTrue(w, items, log) && ApprovalsLogged(w, approvals, items, log)
    ensures Guarded(w, guards, items', log) && FlagsTrue(w, items', log) && ApprovalsLogged(w, approvals, items', log)
  {
    hide Vouched, Endorsed;
    forall i | 0 <= i < |items| ensures SameMarks(items[i], items'[i]) {}
    forall id | id in approvals ensures ApprovalLogged(w, log, items', id) { assert ApprovalLogged(w, log, items, id); }
  }

  lemma CarryLocated(w: World, items: seq<Item>, items': seq<Item>, log: seq<Event>)
    requires Carried(items, items') && Located(w, items, log)
    requires forall i :: |items| <= i < |items'| ==> ItemLocated(w, items'[i], log)
    ensures Located(w, items', log)
  {
    hide BookOf;
    forall i | |w.scenario.existing| <= i < |items'| ensures ItemLocated(w, items'[i], log) {
      if i < |items| { assert SameMarks(items[i], items'[i]) && ItemLocated(w, items[i], log); }
    }
  }

  /** Striking by id changes exactly the draft `FindDraft` found. */
  lemma StrikeFound(w: World, s: EnvState, items: seq<Item>, sup: EntryId, at: nat)
    requires Shape(w, s) && EntriesOf(items) == s.ledger.entries
    requires at < |items| && s.ledger.entries[at].id == sup
    ensures EntriesOf(Strike(items, Some(sup))) == s.ledger.entries[at := s.ledger.entries[at].(status := Superseded)]
  {
    var r := Strike(items, Some(sup));
    forall i | 0 <= i < |items|
      ensures EntriesOf(r)[i] == s.ledger.entries[at := s.ledger.entries[at].(status := Superseded)][i]
    {
      assert items[i].entry == EntriesOf(items)[i];
      assert s.ledger.entries[i].id == IdAt(|w.scenario.existing|, i);
    }
  }

  /** A stored key belongs to no earlier item, so the new item may take it. */
  lemma KeyedDraft(w: World, items: seq<Item>, items': seq<Item>, idem: map<string, ToolData>, key: Option<string>, d: ToolData)
    requires Keyed(w, items, idem) && |items'| == |items| + 1 && |w.scenario.existing| <= |items|
    requires forall i :: 0 <= i < |items| ==> SameMarks(items[i], items'[i])
    requires items'[|items|].key == key && (key.Some? ==> key.value !in idem)
    requires d.Saved? ==> d.id == New(|items| - |w.scenario.existing| + 1) && d.fig == items'[|items|].entry.fig
    ensures Keyed(w, items', if key.Some? then idem[key.value := d] else idem)
  {
    var idem' := if key.Some? then idem[key.value := d] else idem;
    forall i, j | |w.scenario.existing| <= i < j < |items'| && items'[i].key.Some? ensures items'[i].key != items'[j].key {
      assert SameMarks(items[i], items'[i]);
      if j < |items| { assert SameMarks(items[j], items'[j]); }
    }
    forall k | k in idem' && idem'[k].Saved? ensures Owned(w, items', k, idem'[k].id, idem'[k].fig) {
      if Some(k) != key {
        assert Owned(w, items, k, idem[k].id, idem[k].fig);
        assert SameMarks(items[|w.scenario.existing| + idem[k].id.n - 1], items'[|w.scenario.existing| + idem[k].id.n - 1]);
      }
    }
  }

  /** The items after a drafting event. */
  function Drafted(items: seq<Item>, a: RecordArgs, e: Entry, at: nat): seq<Item> {
    Strike(items, a.supersedes) + [Item(e, a.key, at, None)]
  }

  predicate Replaceable(entries: seq<Entry>, sup: Option<EntryId>) {
    sup.Some? ==> exists at :: 0 <= at < |entries| && entries[at].id == sup.value && entries[at].status == Draft
  }

  lemma StrikeCarries(w: World, s: EnvState, items: seq<Item>, sup: Option<EntryId>)
    requires Shape(w, s) && EntriesOf(items) == s.ledger.entries && Replaceable(s.ledger.entries, sup)
    ensures forall i :: 0 <= i < |items| ==> SameMarks(items[i], Strike(items, sup)[i])
  {
    forall i | 0 <= i < |items| ensures SameMarks(items[i], Strike(items, sup)[i]) {
      assert items[i].entry == EntriesOf(items)[i] && s.ledger.entries[i].id == IdAt(|w.scenario.existing|, i);
    }
  }

  lemma WriteAccounted(w: World, items: seq<Item>, items': seq<Item>, log: seq<Event>, e: Event)
    requires Accounted(w, items, log) && Numbered(log) && e.seqNo == |log| && |items| <= |items'|
    requires forall i :: 0 <= i < |items| ==> items'[i].draftedAt == items[i].draftedAt && (items[i].confirmedAt.Some? ==> items'[i].confirmedAt == items[i].confirmedAt)
    requires e.data.LedgerWrite? && e.data.id.New? && 1 <= e.data.id.n && |w.scenario.existing| + e.data.id.n - 1 < |items'|
    requires var it := items'[|w.scenario.existing| + e.data.id.n - 1];
             if e.data.op.DraftOp? then it.draftedAt == |log| else it.confirmedAt == Some(|log|)
    ensures Accounted(w, items', log + [e]) && Numbered(log + [e])
  {
    forall p | 0 <= p < |log| && log[p].data.LedgerWrite?
      ensures (log + [e])[p].data == log[p].data
    {}
  }

  lemma DraftHistory(w: World, s: EnvState, a: RecordArgs, e: Entry)
    requires Shape(w, s) && Mirrors(BookOf(w, s.events), s) && Replaceable(s.ledger.entries, a.supersedes)
    requires History(w, s.guards, s.owner.yesSteps, s.owner.approvals, s.owner.lastCorrection, BookOf(w, s.events).items, s.events)
    requires e == Entry(New(s.ledger.nextId), Draft, e.fig, a.occurredOn, false, s.step)
    ensures
      var log := s.events + [Event(|s.events|, LedgerWrite(DraftOp, e.id, e.fig))];
      History(w, s.guards, s.owner.yesSteps, s.owner.approvals, s.owner.lastCorrection, Drafted(BookOf(w, s.events).items, a, e, |s.events|), log)
  {
    hide Guarded, FlagsTrue, ApprovalsLogged, YesLogged, CorrectionsBounded, Located, Accounted;
    var items := BookOf(w, s.events).items;
    var ev := Event(|s.events|, LedgerWrite(DraftOp, e.id, e.fig));
    var log, items' := s.events + [ev], Drafted(items, a, e, |s.events|);
    StrikeCarries(w, s, items, a.supersedes);
    assert ItemLocated(w, items'[|items|], log) by { assert log[..|s.events|] == s.events; }
    LocatedStays(w, items, s.events, ev);
    GuardedStays(w, s.guards, items, s.events, ev);
    FlagsStay(w, items, s.events, ev);
    YesesStay(w, s.owner.yesSteps, s.events, ev);
    ApprovalsStay(w, s.owner.approvals, items, s.events, ev);
    CorrectionsStay(w, s.events, ev, s.owner.lastCorrection, s.owner.lastCorrection);
    WriteAccounted(w, items, items', s.events, ev);
    assert Carried(items, items');
    hide BookOf, ItemLocated, Carried;
    CarryMarks(w, s.guards, s.owner.approvals, items, items', log);
    CarryLocated(w, items, items', log);
  }

  /** What a recording call that wrote has done to the ledger. */
  lemma RecordWrote(w: World, l: Ledger, step: nat, a: RecordArgs)
    requires RecordOnce(w, l, step, a).write.Some?
    ensures
      var out := RecordOnce(w, l, step, a);
      var e := out.write.value.entry;
      && !out.write.value.confirm && (a.key.Some? ==> a.key.value !in l.idem) && Replaceable(l.entries, a.supersedes)
      && e == Entry(New(l.nextId), Draft, e.fig, a.occurredOn, false, step) && e.fig.total == e.fig.taxable + e.fig.vat
      && out.ledger.nextId == l.nextId + 1 && out.data.Saved? && out.data.id == e.id && out.data.fig == e.fig
      && out.ledger.idem == (if a.key.Some? then l.idem[a.key.value := out.data] else l.idem)
      && out.ledger.entries ==
           (if a.supersedes.Some? then
              var at := FindDraft(l.entries, a.supersedes.value, a.kind);
              if at.Some? then l.entries[at.value := l.entries[at.value].(status := Superseded)] else []
            else l.entries) + [e]
      && (a.supersedes.Some? ==> FindDraft(l.entries, a.supersedes.value, a.kind).Some?)
  {
  }

  /** The struck items and the new one spell out the new ledger. */
  lemma DraftMirrors(w: World, s: EnvState, a: RecordArgs, e: Entry)
    requires Shape(w, s) && Mirrors(BookOf(w, s.events), s)
    requires a.supersedes.Some? ==> FindDraft(s.ledger.entries, a.supersedes.value, a.kind).Some?
    ensures EntriesOf(Drafted(BookOf(w, s.events).items, a, e, |s.events|)) ==
            (if a.supersedes.Some? then
               var at := FindDraft(s.ledger.entries, a.supersedes.value, a.kind);
               s.ledger.entries[at.value := s.ledger.entries[at.value].(status := Superseded)]
             else s.ledger.entries) + [e]
  {
    var items := BookOf(w, s.events).items;
    if a.supersedes.Some? {
      StrikeFound(w, s, items, a.supersedes.value, FindDraft(s.ledger.entries, a.supersedes.value, a.kind).value);
    } else {
      assert Strike(items, a.supersedes) == items;
    }
    assert EntriesOf(Strike(items, a.supersedes) + [Item(e, a.key, |s.events|, None)]) == EntriesOf(Strike(items, a.supersedes)) + [e];
  }

  lemma DraftKeyed(w: World, s: EnvState, a: RecordArgs, e: Entry, d: ToolData)
    requires Shape(w, s) && Mirrors(BookOf(w, s.events), s) && Keyed(w, BookOf(w, s.events).items, s.ledger.idem)
    requires Replaceable(s.ledger.entries, a.supersedes) && (a.key.Some? ==> a.key.value !in s.ledger.idem)
    requires d.Saved? && e.id == New(s.ledger.nextId) && d.id == e.id && d.fig == e.fig
    ensures Keyed(w, Drafted(BookOf(w, s.events).items, a, e, |s.events|),
                  if a.key.Some? then s.ledger.idem[a.key.value := d] else s.ledger.idem)
  {
    var items := BookOf(w, s.events).items;
    StrikeCarries(w, s, items, a.supersedes);
    KeyedDraft(w, items, Drafted(items, a, e, |s.events|), s.ledger.idem, a.key, d);
  }

  lemma DraftShape(w: World, s: EnvState, t: EnvState, sup: Option<nat>, e: Entry)
    requires Shape(w, s) && (sup.Some? ==> sup.value < |s.ledger.entries| && s.ledger.entries[sup.value].status == Draft)
    requires t.ledger.nextId == s.ledger.nextId + 1 && t.step == s.step && t.owner.lastCorrection == s.owner.lastCorrection
    requires e.id == New(s.ledger.nextId) && !e.preexisting && e.createdStep == s.step && e.fig.total == e.fig.taxable + e.fig.vat
    requires t.ledger.entries ==
      (if sup.Some? then s.ledger.entries[sup.value := s.ledger.entries[sup.value].(status := Superseded)] else s.ledger.entries) + [e]
    ensures Shape(w, t)
  {
  }

  /** A recorded draft keeps books and log in agreement. */
  lemma DraftKeeps(w: World, s: EnvState, a: RecordArgs)
    requires Faithful(w, s) && BookOf(w, s.events).call == Some(Record(a))
    requires RecordOnce(w, s.ledger, s.step, a).write.Some?
    ensures Faithful(w, ApplyTool(w, s, Record(a)))
  {
    hide History, Keyed, RecordOnce, Strike, FindDraft, Shape, StepsTaken, EntriesOf, Replaceable;
    var out, t := RecordOnce(w, s.ledger, s.step, a), ApplyTool(w, s, Record(a));
    var e, items := out.write.value.entry, BookOf(w, s.events).items;
    RecordWrote(w, s.ledger, s.step, a);
    assert t.ledger == out.ledger && t.events == s.events + [Event(|s.events|, LedgerWrite(DraftOp, e.id, e.fig))];
    ReadNext(w, s.events, Event(|s.events|, LedgerWrite(DraftOp, e.id, e.fig)));
    ScriptedNext(w, s.events, Event(|s.events|, LedgerWrite(DraftOp, e.id, e.fig)));
    hide Scripted;
    hide BookOf, ApplyTool;
    StrikeCarries(w, s, items, a.supersedes);
    DraftHistory(w, s, a, e);
    DraftMirrors(w, s, a, e);
    DraftKeyed(w, s, a, e, out.data);
    DraftShape(w, s, t, if a.supersedes.Some? then FindDraft(s.ledger.entries, a.supersedes.value, a.kind) else None, e);
  }

  /** A later yes-step means an explicit yes after the draft. */
  lemma YesVouches(w: World, log: seq<Event>, it: Item, y: nat)
    requires ItemLocated(w, it, log) && YesInStep(w, log, y) && y > it.entry.createdStep
    ensures Vouched(w, log, it.draftedAt)
  {
    var k :| YesAt(w, log, k) && BookOf(w, log[..k]).steps == y;
    if k <= it.draftedAt { StepsGrow(w, log, k, it.draftedAt); }
  }

  /** Flipping by id touches exactly the item at `at`. */
  lemma FlipAt(w: World, s: EnvState, items: seq<Item>, at: nat, pos: nat)
    requires Shape(w, s) && EntriesOf(items) == s.ledger.entries && at < |items|
    ensures
      var it := items[at];
      Flip(items, it.entry.id, pos) == items[at := it.(entry := it.entry.(status := Confirmed), confirmedAt := Some(pos))]
    ensures EntriesOf(Flip(items, items[at].entry.id, pos)) == s.ledger.entries[at := s.ledger.entries[at].(status := Confirmed)]
  {
    var r, it := Flip(items, items[at].entry.id, pos), items[at];
    forall i | 0 <= i < |items| ensures r[i] == items[at := it.(entry := it.entry.(status := Confirmed), confirmedAt := Some(pos))][i] {
      assert items[i].entry == EntriesOf(items)[i] && items[at].entry == EntriesOf(items)[at];
    }
    forall i | 0 <= i < |items|
      ensures EntriesOf(r)[i] == s.ledger.entries[at := s.ledger.entries[at].(status := Confirmed)][i]
    {
      assert items[i].entry == EntriesOf(items)[i];
    }
  }

  lemma FlipHistory(w: World, guards: bool, yes: seq<nat>, approvals: seq<EntryId>, last: int,
                    items: seq<Item>, log: seq<Event>, at: nat, approved: bool)
    requires History(w, guards, yes, approvals, last, items, log)
    requires |w.scenario.existing| <= at < |items| && items[at].entry.status != Confirmed
    requires items[at].entry.id == New(at - |w.scenario.existing| + 1)
    requires guards ==> Vouched(w, log, items[at].draftedAt)
    requires approved ==> Endorsed(w, log, items[at].draftedAt, items[at].entry.id)
    ensures
      var it := items[at];
      var items' := items[at := it.(entry := it.entry.(status := Confirmed), confirmedAt := Some(|log|))];
      History(w, guards, yes, approvals, last, items', log + [Event(|log|, LedgerWrite(ConfirmOp(approved), it.entry.id, it.entry.fig))])
  {
    var it := items[at];
    var items' := items[at := it.(entry := it.entry.(status := Confirmed), confirmedAt := Some(|log|))];
    var ev := Event(|log|, LedgerWrite(ConfirmOp(approved), it.entry.id, it.entry.fig));
    YesesStay(w, yes, log, ev);
    CorrectionsStay(w, log, ev, last, last);
    WriteAccounted(w, items, items', log, ev);
    FlipLocated(w, items, log, at, approved);
    FlipBacked(w, guards, approvals, items, log, at, approved);
    hide Located, Guarded, FlagsTrue, ApprovalsLogged, YesLogged, CorrectionsBounded, Accounted;
  }

  lemma FlipLocated(w: World, items: seq<Item>, log: seq<Event>, at: nat, approved: bool)
    requires Located(w, items, log) && |w.scenario.existing| <= at < |items| && items[at].entry.status != Confirmed
    ensures
      var it := items[at];
      Located(w, items[at := it.(entry := it.entry.(status := Confirmed), confirmedAt := Some(|log|))],
              log + [Event(|log|, LedgerWrite(ConfirmOp(approved), it.entry.id, it.entry.fig))])
  {
    hide BookOf;
    var it := items[at];
    var items' := items[at := it.(entry := it.entry.(status := Confirmed), confirmedAt := Some(|log|))];
    var ev := Event(|log|, LedgerWrite(ConfirmOp(approved), it.entry.id, it.entry.fig));
    assert ItemLocated(w, it, log);
    LocatedStays(w, items, log, ev);
    forall i | |w.scenario.existing| <= i < |items'| ensures ItemLocated(w, items'[i], log + [ev]) {
      assert ItemLocated(w, items[i], log + [ev]);
    }
  }

  lemma FlipBacked(w: World, guards: bool, approvals: seq<EntryId>, items: seq<Item>, log: seq<Event>, at: nat, approved: bool)
    requires Located(w, items, log) && Guarded(w, guards, items, log) && FlagsTrue(w, items, log) && ApprovalsLogged(w, approvals, items, log)
    requires |w.scenario.existing| <= at < |items|
    requires guards ==> Vouched(w, log, items[at].draftedAt)
    requires approved ==> Endorsed(w, log, items[at].draftedAt, items[at].entry.id)
    ensures
      var it := items[at];
      var items' := items[at := it.(entry := it.entry.(status := Confirmed), confirmedAt := Some(|log|))];
      var log' := log + [Event(|log|, LedgerWrite(ConfirmOp(approved), it.entry.id, it.entry.fig))];
      Guarded(w, guards, items', log') && FlagsTrue(w, items', log') && ApprovalsLogged(w, approvals, items', log')
  {
    var it := items[at];
    var items' := items[at := it.(entry := it.entry.(status := Confirmed), confirmedAt := Some(|log|))];
    var ev := Event(|log|, LedgerWrite(ConfirmOp(approved), it.entry.id, it.entry.fig));
    assert (log + [ev])[..|log|] == log;
    GuardedStays(w, guards, items, log, ev);
    FlagsStay(w, items, log, ev);
    ApprovalsStay(w, approvals, items, log, ev);
    hide Vouched, Endorsed, BookOf, Located;
    forall id | id in approvals ensures ApprovalLogged(w, log + [ev], items', id) { assert ApprovalLogged(w, log + [ev], items, id); }
  }

  /** What stands behind a confirmation that the guard let through. */
  lemma ConfirmBacked(w: World, s: EnvState, at: nat)
    requires Shape(w, s) && Mirrors(BookOf(w, s.events), s)
    requires History(w, s.guards, s.owner.yesSteps, s.owner.approvals, s.owner.lastCorrection, BookOf(w, s.events).items, s.events)
    requires at < |s.ledger.entries| && s.ledger.entries[at].status == Draft
    requires s.guards ==> exists i :: 0 <= i < |s.owner.yesSteps| && s.owner.yesSteps[i] > s.ledger.entries[at].createdStep
    ensures
      var it := BookOf(w, s.events).items[at];
      && it.entry == s.ledger.entries[at] && |w.scenario.existing| <= at && it.entry.id == New(at - |w.scenario.existing| + 1)
      && (s.guards ==> Vouched(w, s.events, it.draftedAt))
      && (it.entry.id in s.owner.approvals ==> Endorsed(w, s.events, it.draftedAt, it.entry.id))
  {
    hide BookOf, Endorsed, Vouched, FlagsTrue, Accounted, CorrectionsBounded;
    var it := BookOf(w, s.events).items[at];
    assert it.entry == EntriesOf(BookOf(w, s.events).items)[at];
    assert s.ledger.entries[at].id == IdAt(|w.scenario.existing|, at);
    assert ItemLocated(w, it, s.events);
    if it.entry.id in s.owner.approvals { assert ApprovalLogged(w, s.events, BookOf(w, s.events).items, it.entry.id); }
    if s.guards {
      var i :| 0 <= i < |s.owner.yesSteps| && s.owner.yesSteps[i] > s.ledger.entries[at].createdStep;
      hide ItemLocated, YesInStep;
      assert YesInStep(w, s.events, s.owner.yesSteps[i]);
      YesVouches(w, s.events, it, s.owner.yesSteps[i]);
    }
  }

  /** What a confirming call that wrote has done. */
  lemma ConfirmWrote(w: World, s: EnvState, kind: EntryKind, id: EntryId) returns (at: nat)
    requires RunTool(w, s, Confirm(kind, id)).write.Some?
    ensures at < |s.ledger.entries|
    ensures
      var e, t := s.ledger.entries[at], ApplyTool(w, s, Confirm(kind, id));
      && e.id == id && e.status == Draft
      && (s.guards ==> exists i :: 0 <= i < |s.owner.yesSteps| && s.owner.yesSteps[i] > e.createdStep)
      && t == s.(ledger := s.ledger.(entries := s.ledger.entries[at := e.(status := Confirmed)]),
                 events := s.events + [Event(|s.events|, LedgerWrite(ConfirmOp(id in s.owner.approvals), id, e.fig))])
  {
    at := FindDraft(s.ledger.entries, id, kind).value;
  }

  lemma FlipShape(w: World, s: EnvState, t: EnvState, at: nat)
    requires Shape(w, s) && at < |s.ledger.entries|
    requires t.ledger == s.ledger.(entries := s.ledger.entries[at := s.ledger.entries[at].(status := Confirmed)])
    requires t.step == s.step && t.owner.lastCorrection == s.owner.lastCorrection
    ensures Shape(w, t)
  {
  }

  lemma ConfirmKeeps(w: World, s: EnvState, kind: EntryKind, id: EntryId)
    requires Faithful(w, s) && RunTool(w, s, Confirm(kind, id)).write.Some?
    ensures Faithful(w, ApplyTool(w, s, Confirm(kind, id)))
  {
    hide History, Keyed, RunTool, ApplyTool, FindDraft, Shape, EntriesOf, Vouched, Endorsed;
    var t := ApplyTool(w, s, Confirm(kind, id));
    var at := ConfirmWrote(w, s, kind, id);
    ReadNext(w, s.events, t.events[|s.events|]);
    ScriptedNext(w, s.events, t.events[|s.events|]);
    hide Scripted;
    hide BookOf;
    var items := BookOf(w, s.events).items;
    ConfirmBacked(w, s, at);
    FlipAt(w, s, items, at, |s.events|);
    hide Flip;
    FlipHistory(w, s.guards, s.owner.yesSteps, s.owner.approvals, s.owner.lastCorrection, items, s.events, at, id in s.owner.approvals);
    FlipKeyed(w, items, s.ledger.idem, at, |s.events|);
    FlipShape(w, s, t, at);
  }

  lemma FlipKeyed(w: World, items: seq<Item>, idem: map<string, ToolData>, at: nat, pos: nat)
    requires Keyed(w, items, idem) && at < |items|
    ensures Keyed(w, items[at := items[at].(entry := items[at].entry.(status := Confirmed), confirmedAt := Some(pos))], idem)
  {
    var items' := items[at := items[at].(entry := items[at].entry.(status := Confirmed), confirmedAt := Some(pos))];
    forall k | k in idem && idem[k].Saved? ensures Owned(w, items', k, idem[k].id, idem[k].fig) {
      assert Owned(w, items, k, idem[k].id, idem[k].fig);
    }
  }

  // ---------------------------------------------------------------- composition

  /** A call that wrote no entry at most stores a refusal under its key. */
  lemma NoWriteLedger(w: World, s: EnvState, call: Call)
    requires RunTool(w, s, call).write.None?
    ensures
      var l := RunTool(w, s, call).ledger;
      l == s.ledger.(idem := l.idem) && forall k :: k in l.idem && l.idem[k].Saved? ==> k in s.ledger.idem && l.idem[k] == s.ledger.idem[k]
    ensures forall k :: k in s.ledger.idem ==> k in RunTool(w, s, call).ledger.idem
  {
    hide Live, Listed, RecordOnce, ConfirmDraft;
    match call
    case Record(a) => NoWriteRecord(w, s.ledger, s.step, a);
    case Confirm(kind, id) => NoWriteConfirm(s.ledger, s.guards, s.owner.yesSteps, kind, id);
    case _ =>
  }

  lemma NoWriteRecord(w: World, l: Ledger, step: nat, a: RecordArgs)
    requires RecordOnce(w, l, step, a).write.None?
    ensures
      var l' := RecordOnce(w, l, step, a).ledger;
      l' == l.(idem := l'.idem) && forall k :: k in l'.idem && l'.idem[k].Saved? ==> k in l.idem && l'.idem[k] == l.idem[k]
    ensures forall k :: k in l.idem ==> k in RecordOnce(w, l, step, a).ledger.idem
  {
    hide FindDraft, Live;
  }

  lemma NoWriteConfirm(l: Ledger, guards: bool, yes: seq<nat>, kind: EntryKind, id: EntryId)
    requires ConfirmDraft(l, guards, yes, kind, id).write.None?
    ensures ConfirmDraft(l, guards, yes, kind, id).ledger == l
  {
    hide FindDraft;
  }

  lemma NoWriteKeeps(w: World, s: EnvState, call: Call)
    requires Faithful(w, s) && RunTool(w, s, call).write.None?
    ensures Faithful(w, ApplyTool(w, s, call))
  {
    NoWriteLedger(w, s, call);
    hide History, RunTool, BookOf, EntriesOf, Scripted;
    var items, t := BookOf(w, s.events).items, ApplyTool(w, s, call);
    assert Keyed(w, items, t.ledger.idem) by {
      forall k | k in t.ledger.idem && t.ledger.idem[k].Saved? ensures Owned(w, items, k, t.ledger.idem[k].id, t.ledger.idem[k].fig) {
        assert Owned(w, items, k, s.ledger.idem[k].id, s.ledger.idem[k].fig);
      }
    }
    hide Keyed;
  }

  lemma ApplyToolKeeps(w: World, s: EnvState, call: Call)
    requires Faithful(w, s) && BookOf(w, s.events).call == Some(call)
    ensures Faithful(w, ApplyTool(w, s, call))
  {
    if RunTool(w, s, call).write.None? { NoWriteKeeps(w, s, call); }
    else if call.Record? { DraftKeeps(w, s, call.args); }
    else { ConfirmKeeps(w, s, call.kind, call.id); }
  }

  /** The other fields of the state do not matter. */
  lemma FrameKeeps(w: World, s: EnvState, t: EnvState)
    requires Faithful(w, s) && SameBooks(s, t) && t.events == s.events
    ensures Faithful(w, t)
  {
    hide History, BookOf, Keyed;
  }

  lemma DoToolKeeps(w: World, s: EnvState, call: Call)
    requires Faithful(w, s)
    ensures Faithful(w, DoTool(w, s, call))
  {
    hide Faithful, BookOf, RunTool, ApplyTool, FaultFor;
    var name, s1 := NameOf(call), CountCall(s, call);
    PassiveKeeps(w, s, s1, ToolCall(call, s1.toolCalls[name]));
    var fault := FaultFor(w.scenario.faults, name, s1.toolCalls[name]);
    if w.foreign(call) {
      LoggedResultKeeps(w, s1, CrossTenant(name), ToolResult(name, false, DENIED));
    } else if fault == Some(Timeout) {
      LoggedResultKeeps(w, s1, FaultInjected(name, Timeout), ToolResult(name, false, TIMED_OUT));
    } else {
      var out, s2 := RunTool(w, s1, call), ApplyTool(w, s1, call);
      ApplyToolKeeps(w, s1, call);
      LoggedResultKeeps(w, s2, FaultInjected(name, AckLost), ToolResult(name, false, TIMED_OUT));
      LoggedResultKeeps(w, s2, FaultInjected(name, Malformed), ToolResult(name, true, Garbled));
      var r := ToolResult(name, out.ok, out.data);
      PassiveKeeps(w, s2, SetToolResult(w, s2, r), ToolResultEv(r));
    }
  }

  lemma LoggedResultKeeps(w: World, s: EnvState, d: EventData, r: ToolResult)
    requires Faithful(w, s) && Passive(d)
    ensures Faithful(w, SetToolResult(w, Emit(s, d), r))
  {
    hide Faithful, BookOf;
    PassiveKeeps(w, s, Emit(s, d), d);
    PassiveKeeps(w, Emit(s, d), SetToolResult(w, Emit(s, d), r), ToolResultEv(r));
  }

  /** What the owner has answered, how often they nudged and where the script stands are no part of the books. */
  lemma OwnerFrame(w: World, s: EnvState, o: Owner)
    requires Agrees(w, s) && o.approvals == s.owner.approvals && o.yesSteps == s.owner.yesSteps && o.lastCorrection == s.owner.lastCorrection
    ensures Agrees(w, s.(owner := o))
  {
    hide History, BookOf, Keyed;
  }

  lemma OwnerRespondsKeeps(w: World, s: EnvState, text: string)
    requires Faithful(w, s)
    ensures Faithful(w, OwnerResponds(w, s, text))
  {
    var r := React(w, s.owner, s.ledger.entries, text);
    hide Agrees, OwnerSays, BookOf, Scripted;
    match r {
      case Says(o, line) =>
        var c, script := s.owner.cursor, w.scenario.script;
        OwnerFrame(w, s, o);
        if o.cursor != c && line.intent != Inform { MarkedFound(script, c, |script|); }
        assert Marked(script, o.cursor) == Marked(script, c) + if line.intent == Inform then 0 else 1;
        OwnerSaysKeeps(w, s.(owner := o), line);
      case Leaves => FrameKeeps(w, s, s.(done := true));
      case Waits => FrameKeeps(w, s, s.(owner := s.owner.(waiting := true)));
    }
  }

  lemma DoMessageKeeps(w: World, s: EnvState, text: string)
    requires Faithful(w, s)
    ensures Faithful(w, DoMessage(w, s, text))
  {
    hide Faithful, OwnerResponds, BookOf;
    var decision := w.gate(text, s.evidence);
    var d := GateDecision(decision.Hold?, if decision.Hold? then decision.reasons else []);
    var s1 := Emit(s, d).(lastMessage := Some(decision));
    PassiveKeeps(w, s, s1, d);
    if !decision.Hold? {
      PassiveKeeps(w, s1, Emit(s1.(owner := s.owner.(pending := None)), AgentMessage(text)), AgentMessage(text));
      OwnerRespondsKeeps(w, Emit(s1.(owner := s.owner.(pending := None)), AgentMessage(text)), text);
    }
  }

  lemma ActKeeps(w: World, s: EnvState, a: Action)
    requires Faithful(w, s)
    ensures Faithful(w, Act(w, s, a))
  {
    hide Faithful, DoTool, DoMessage;
    match a {
      case Tool(call) => DoToolKeeps(w, s, call);
      case Message(text) => DoMessageKeeps(w, s, text);
      case End => FrameKeeps(w, s, s.(done := true));
      case Rejected =>
    }
  }

  lemma FinishKeeps(w: World, s: EnvState)
    requires Faithful(w, s)
    ensures Faithful(w, FinishStep(w, s))
  {
    hide Faithful, Judge, BookOf;
    if s.done && s.verdict.None? {
      var v := Judge(w.scenario.oracle, w.asks, s.events, s.ledger.entries);
      PassiveKeeps(w, s, FinishStep(w, s), EpisodeEnd(s.truncated, v.reward, v.passed));
    }
  }

  /** One step of the environment, whatever the agent does, keeps books and log in agreement. */
  lemma StepKeeps(w: World, s: EnvState, a: Action)
    requires Faithful(w, s)
    ensures Faithful(w, Step(w, s, a))
  {
    hide Faithful, Act, Begin, FinishStep;
    BeginKeeps(w, s, a);
    ActKeeps(w, Begin(s, a), a);
    var s1 := Act(w, Begin(s, a), a);
    FrameKeeps(w, s1, Truncate(s1));
    FinishKeeps(w, if a.Rejected? then s1 else Truncate(s1));
  }

  lemma ResetKeeps(w: World, guards: bool)
    requires w.scenario.script != []
    ensures Faithful(w, Reset(w, guards))
  {
    hide OwnerSays, Vouched, Endorsed, ItemLocated;
    var s := Blank(w, guards);
    assert Faithful(w, s) by { assert EntriesOf(Opening(w).items) == s.ledger.entries; }
    hide Agrees, BookOf, Scripted;
    var s1 := Emit(s, EpisodeReset(w.scenario.id));
    PassiveKeeps(w, s, s1, EpisodeReset(w.scenario.id));
    if w.scenario.script[0].intent != Inform { MarkedFound(w.scenario.script, 0, |w.scenario.script|); }
    OwnerSaysKeeps(w, s1, w.scenario.script[0]);
    var s2 := OwnerSays(w, s1, w.scenario.script[0]);
    OwnerFrame(w, s2, Reset(w, guards).owner);
    assert Reset(w, guards) == s2.(owner := Reset(w, guards).owner);
  }
}
