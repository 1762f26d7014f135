/** What the skill harness never does, whatever the policy chooses and whatever the environment answers. */
module HarnessTheorems {
  import opened OptionType
  import opened Contracts
  import opened EnvSpec
  import opened HarnessSpec
  import Strings

  // ---------------------------------------------------------------- the invariant

  /** Confirms first, then one message. */
  predicate QueueOk(q: seq<Action>) {
    q != [] ==> q[|q|-1].Message? && forall i :: 0 <= i < |q| - 1 ==> q[i].Tool? && q[i].call.Confirm?
  }

  predicate Busy(m: Memory) { m.inflight.Some? || m.writes != [] || m.closing.Some? }

  predicate IsConfirm(a: Action) { a.Tool? && a.call.Confirm? }

  /** A draft marked to be saved, and not corrected since it was learned of. */
  predicate Savable(ds: seq<Note>, heard: nat, id: EntryId, kind: EntryKind) {
    exists i :: 0 <= i < |ds| && ds[i].id == id && ds[i].kind == kind && ds[i].confirmed && !ds[i].superseded && ds[i].born == heard
  }

  /** A queued confirm is for a savable draft, is queued once, and is not out already. */
  predicate QueuedOk(q: seq<Action>, ds: seq<Note>, heard: nat, sent: set<EntryId>) {
    && (forall i :: 0 <= i < |q| && IsConfirm(q[i]) ==> Savable(ds, heard, q[i].call.id, q[i].call.kind) && q[i].call.id !in sent)
    && (forall i, j :: 0 <= i < j < |q| && IsConfirm(q[i]) && IsConfirm(q[j]) ==> q[i].call.id != q[j].call.id)
  }

  predicate NotesDiffer(ds: seq<Note>) {
    forall i, j :: 0 <= i < j < |ds| ==> ds[i].id != ds[j].id && ds[i].key != ds[j].key
  }

  predicate NoteOk(d: Note, heard: nat, tried: map<string, Tried>, sent: set<EntryId>) {
    && (IsOpen(d) ==> d.born == heard && d.id !in sent)
    && d.key.Some? && d.key.value in tried
  }

  predicate NotesOk(ds: seq<Note>, heard: nat, tried: map<string, Tried>, sent: set<EntryId>) {
    NotesDiffer(ds) && forall i :: 0 <= i < |ds| ==> NoteOk(ds[i], heard, tried, sent)
  }

  predicate Noted(ds: seq<Note>, id: EntryId) { exists i :: 0 <= i < |ds| && ds[i].id == id }

  predicate SentOk(ds: seq<Note>, sent: set<EntryId>) { forall id :: id in sent ==> Noted(ds, id) }

  /** Right after a confirm was sent, its report is still to come and its draft is not corrected. */
  predicate LastOk(last: Option<EntryId>, q: seq<Action>, ds: seq<Note>, heard: nat, sent: set<EntryId>) {
    last.Some? ==>
      q != [] && last.value in sent && forall i :: 0 <= i < |ds| && ds[i].id == last.value ==> !ds[i].superseded && ds[i].born == heard
  }

  predicate KnownKey(scenario: string, upTo: nat, key: string) {
    exists k: nat :: 1 <= k <= upTo && key == KeyOf(scenario, k)
  }

  /** Writes still to come have the newest keys, and none of them was sent; what was sent went out at most three times. */
  predicate WritesOk(scenario: string, keys: nat, writes: seq<RecordArgs>, tried: map<string, Tried>) {
    && |writes| <= keys
    && (forall i :: 0 <= i < |writes| ==> writes[i].key == Some(KeyOf(scenario, keys - |writes| + 1 + i)))
    && (forall k :: k in tried ==> KnownKey(scenario, keys - |writes|, k) && tried[k].args.key == Some(k) && 1 <= tried[k].times <= 3)
  }

  /** The write under way was sent this often, and nothing was learned under its key. */
  predicate InflightOk(w: Inflight, ds: seq<Note>, tried: map<string, Tried>, sends: nat) {
    && w.retries <= 2 && w.args.key.Some? && w.args.key.value in tried && tried[w.args.key.value] == Tried(w.args, sends)
    && forall i :: 0 <= i < |ds| ==> ds[i].key != w.args.key
  }

  predicate Calm(m: Memory) {
    && QueueOk(m.queue) && QueuedOk(m.queue, m.drafts, m.heard, m.sent) && NotesOk(m.drafts, m.heard, m.tried, m.sent)
    && SentOk(m.drafts, m.sent) && LastOk(m.last, m.queue, m.drafts, m.heard, m.sent)
    && WritesOk(m.scenario, m.keys, m.writes, m.tried)
    && (Busy(m) ==> m.queue == []) && (Busy(m) || m.queue != [] ==> !m.awaiting)
  }

  /** Between two turns. */
  predicate Inv(m: Memory) {
    Calm(m) && (m.inflight.Some? ==> InflightOk(m.inflight.value, m.drafts, m.tried, m.inflight.value.retries + 1))
  }

  /** The environment answers what was asked: a refusal names the draft of the confirm just sent, a write under way
      has a result, and a new draft comes with a new id. */
  predicate Honest(m: Memory, r: Option<ToolResult>) {
    && (r.Some? && r.value.data.NeedsApproval? ==> r.value.ok && r.value.name == ConfirmEntryT && m.last == Some(r.value.data.id))
    && (m.inflight.Some? ==> r.Some? && (r.value.name == RecordExpenseT || r.value.name == RecordSaleT))
    && (m.inflight.Some? && r.value.data.Saved? ==> !Noted(m.drafts, r.value.data.id))
  }

  // ---------------------------------------------------------------- taking in a result

  lemma {:induction false} ReopenAt(ds: seq<Note>, id: EntryId, i: nat)
    requires i < |ds| && ds[i].id == id && forall j :: 0 <= j < i ==> ds[j].id != id
    ensures Reopen(ds, id) == ds[i := ds[i].(confirmed := false)]
  {
    if i > 0 {
      ReopenAt(ds[1..], id, i - 1);
      assert ds[i := ds[i].(confirmed := false)] == [ds[0]] + ds[1..][i-1 := ds[i].(confirmed := false)];
    } else {
      assert ds[0 := ds[0].(confirmed := false)] == [ds[0].(confirmed := false)] + ds[1..];
    }
  }

  /** The refused draft is open again; nothing else about the drafts changes. */
  lemma ReopenKeeps(ds: seq<Note>, heard: nat, tried: map<string, Tried>, sent: set<EntryId>, i: nat)
    requires NotesOk(ds, heard, tried, sent) && SentOk(ds, sent) && i < |ds| && !ds[i].superseded && ds[i].born == heard
    ensures
      var ds' := ds[i := ds[i].(confirmed := false)];
      NotesOk(ds', heard, tried, sent - {ds[i].id}) && SentOk(ds', sent - {ds[i].id})
  {
    var ds' := ds[i := ds[i].(confirmed := false)];
    forall j | 0 <= j < |ds'| ensures NoteOk(ds'[j], heard, tried, sent - {ds[i].id}) { assert NoteOk(ds[j], heard, tried, sent); }
    forall id | id in sent - {ds[i].id} ensures Noted(ds', id) {
      assert Noted(ds, id);
      var j :| 0 <= j < |ds| && ds[j].id == id;
      assert ds'[j].id == id;
    }
  }

  lemma ReopenQueued(q: seq<Action>, q': seq<Action>, ds: seq<Note>, heard: nat, sent: set<EntryId>, i: nat)
    requires QueuedOk(q, ds, heard, sent) && NotesDiffer(ds) && i < |ds| && ds[i].id in sent
    requires |q'| == |q| && forall j :: 0 <= j < |q| ==> q'[j].Message? == q[j].Message? && (!q[j].Message? ==> q'[j] == q[j])
    ensures QueuedOk(q', ds[i := ds[i].(confirmed := false)], heard, sent - {ds[i].id})
  {
    var ds' := ds[i := ds[i].(confirmed := false)];
    forall j | 0 <= j < |q'| && IsConfirm(q'[j]) ensures Savable(ds', heard, q'[j].call.id, q'[j].call.kind) {
      var n :| 0 <= n < |ds| && ds[n].id == q[j].call.id && ds[n].kind == q[j].call.kind && ds[n].confirmed && !ds[n].superseded && ds[n].born == heard;
      assert ds'[n] == ds[n];
    }
  }

  /** The queue of a refusal still ends in its one message. */
  lemma AskAgainKeeps(q: seq<Action>, a: Action)
    requires QueueOk(q) && a.Message?
    ensures var q' := AskAgain(q, a);
      QueueOk(q') && |q'| == |q| && forall j :: 0 <= j < |q| ==> q'[j].Message? == q[j].Message? && (!q[j].Message? ==> q'[j] == q[j])
  {
  }

  lemma RefusedKeeps(m: Memory, id: EntryId)
    requires Calm(m) && m.inflight.None? && m.last == Some(id)
    ensures Calm(Refused(m, id))
  {
    hide ListOf, Savable, WritesOk, Reopen, Among, AskAgain, QueueOk, QueuedOk, KnownKey;
    assert Noted(m.drafts, id);
    var i :| 0 <= i < |m.drafts| && m.drafts[i].id == id;
    assert forall j :: 0 <= j < i ==> m.drafts[j].id != id;
    ReopenAt(m.drafts, id, i);
    ReopenKeeps(m.drafts, m.heard, m.tried, m.sent, i);
    var m' := Refused(m, id);
    var question := Say("To save " + ListOf(Among(m'.drafts, m'.reconfirm)) + ", please reply YES.");
    AskAgainKeeps(m.queue, question);
    ReopenQueued(m.queue, m'.queue, m.drafts, m.heard, m.sent, i);
    hide NotesOk, SentOk, NotesDiffer, NoteOk, IsConfirm;
  }

  /** A draft learned of under the key of the write under way. */
  lemma LearnedKeeps(m: Memory, w: Inflight, kind: EntryKind, id: EntryId, fig: Figures, duplicate: bool)
    requires Calm(m) && m.inflight == Some(w) && InflightOk(w, m.drafts, m.tried, w.retries + 1) && !Noted(m.drafts, id)
    ensures Calm(Learned(m, w.args, kind, id, fig, duplicate).(inflight := None))
  {
    hide WritesOk;
    var m' := Learned(m, w.args, kind, id, fig, duplicate).(inflight := None);
    assert m.queue == [] && m.last.None?;
    forall x | x in m'.sent ensures Noted(m'.drafts, x) {
      assert Noted(m.drafts, x);
      var j :| 0 <= j < |m.drafts| && m.drafts[j].id == x;
      assert m'.drafts[j].id == x;
    }
    forall j | 0 <= j < |m'.drafts| ensures NoteOk(m'.drafts[j], m'.heard, m'.tried, m'.sent) {
      if j < |m.drafts| { assert NoteOk(m.drafts[j], m.heard, m.tried, m.sent); }
    }
  }

  /** What taking in a result leaves alone. */
  predicate SamePlan(m: Memory, m': Memory) {
    m'.scenario == m.scenario && m'.keys == m.keys && m'.writes == m.writes && m'.heard == m.heard && m'.tried == m.tried && m'.awaiting == m.awaiting
  }

  predicate Refusal(r: Option<ToolResult>) { r.Some? && r.value.name == ConfirmEntryT && r.value.ok && r.value.data.NeedsApproval? }

  lemma AbsorbKeeps(wits: Wits, m: Memory, r: Option<ToolResult>)
    requires Inv(m) && Honest(m, r) && AbsorbResult(wits, m, r).Some?
    ensures
      var m' := AbsorbResult(wits, m, r).value;
      && Calm(m') && (m'.inflight.Some? ==> InflightOk(m'.inflight.value, m'.drafts, m'.tried, m'.inflight.value.retries)) && SamePlan(m, m')
      && m'.sent == (if Refusal(r) then m.sent - {r.value.data.id} else m.sent)
      && (m'.inflight.Some? ==> m.inflight.Some? && m'.inflight.value.args == m.inflight.value.args)
  {
    hide ListOf, QueueOk, QueuedOk, NotesOk, SentOk, WritesOk, Noted, Reopen, Among, AskAgain;
    if Refusal(r) {
      assert m.inflight.None?;
      RefusedKeeps(m, r.value.data.id);
    } else if m.inflight.Some? && r.value.ok && r.value.data.Saved? {
      LearnedKeeps(m, m.inflight.value, if r.value.name == RecordSaleT then Sale else Expense, r.value.data.id, r.value.data.fig, r.value.data.report.duplicateWarned);
    }
  }

  // ---------------------------------------------------------------- saving

  /** Open drafts of the harness, none twice. */
  predicate Picked(ds: seq<Note>, chosen: seq<Note>) {
    && (forall i :: 0 <= i < |chosen| ==> chosen[i] in ds && IsOpen(chosen[i]))
    && (forall i, j :: 0 <= i < j < |chosen| ==> chosen[i].id != chosen[j].id)
  }

  lemma PickedSnoc(ds: seq<Note>, chosen: seq<Note>, d: Note)
    requires Picked(ds, chosen) && d in ds && IsOpen(d) && forall x :: x in chosen ==> x.id != d.id
    ensures Picked(ds, chosen + [d])
  {
    hide IsOpen;
  }

  lemma PickedFront(ds: seq<Note>, chosen: seq<Note>, n: nat)
    requires Picked(ds, chosen) && n < |chosen|
    ensures Picked(ds, chosen[..n]) && chosen[n] in ds && IsOpen(chosen[n])
    ensures forall x :: x in chosen[..n] ==> x.id != chosen[n].id
  {
    hide IsOpen;
  }

  lemma PickedMore(ds: seq<Note>, more: seq<Note>, chosen: seq<Note>)
    requires Picked(ds, chosen) && ds <= more
    ensures Picked(more, chosen)
  {
    hide IsOpen;
  }

  lemma {:induction false} OpenPicked(ds: seq<Note>)
    requires NotesDiffer(ds)
    ensures Picked(ds, OpenDrafts(ds))
  {
    if ds != [] {
      var n := |ds| - 1;
      OpenPicked(ds[..n]);
      PickedMore(ds[..n], ds, OpenDrafts(ds[..n]));
      LastDiffers(ds);
      hide Picked, NotesDiffer;
      assert OpenDrafts(ds[..n]) + [] == OpenDrafts(ds[..n]);
      if IsOpen(ds[n]) { PickedSnoc(ds, OpenDrafts(ds[..n]), ds[n]); }
    }
  }

  lemma LastDiffers(ds: seq<Note>)
    requires NotesDiffer(ds) && ds != []
    ensures forall d :: d in ds[..|ds|-1] ==> d.id != ds[|ds|-1].id
  {
  }

  lemma {:induction false} AmongPicked(ds: seq<Note>, chosen: seq<Note>, ids: seq<EntryId>)
    requires Picked(ds, chosen)
    ensures Picked(ds, Among(chosen, ids))
  {
    hide IsOpen;
    if chosen != [] {
      var n := |chosen| - 1;
      PickedFront(ds, chosen, n);
      hide Picked;
      AmongPicked(ds, chosen[..n], ids);
      assert Among(chosen[..n], ids) + [] == Among(chosen[..n], ids);
      if chosen[n].id in ids { PickedSnoc(ds, Among(chosen[..n], ids), chosen[n]); }
    }
  }

  lemma MarkKeeps(ds: seq<Note>, chosen: seq<Note>, heard: nat, tried: map<string, Tried>, sent: set<EntryId>)
    requires NotesOk(ds, heard, tried, sent) && SentOk(ds, sent)
    ensures NotesOk(MarkConfirmed(ds, chosen), heard, tried, sent) && SentOk(MarkConfirmed(ds, chosen), sent)
  {
    var ds' := MarkConfirmed(ds, chosen);
    forall j | 0 <= j < |ds'| ensures NoteOk(ds'[j], heard, tried, sent) { assert NoteOk(ds[j], heard, tried, sent); }
    forall id | id in sent ensures Noted(ds', id) {
      assert Noted(ds, id);
      var j :| 0 <= j < |ds| && ds[j].id == id;
      assert ds'[j].id == id;
    }
  }

  lemma MarkSavable(ds: seq<Note>, chosen: seq<Note>, heard: nat, tried: map<string, Tried>, sent: set<EntryId>, i: nat)
    requires NotesOk(ds, heard, tried, sent) && Picked(ds, chosen) && i < |chosen|
    ensures Savable(MarkConfirmed(ds, chosen), heard, chosen[i].id, chosen[i].kind) && chosen[i].id !in sent
  {
    assert chosen[i] in ds;
    var j :| 0 <= j < |ds| && ds[j] == chosen[i];
    assert NoteOk(ds[j], heard, tried, sent);
    assert MarkConfirmed(ds, chosen)[j] == ds[j].(confirmed := true);
  }

  lemma SaveKeeps(m: Memory, chosen: seq<Note>)
    requires Calm(m) && !Busy(m) && m.queue == [] && !m.awaiting && Picked(m.drafts, chosen)
    ensures Calm(SaveDrafts(m, chosen)) && !Busy(SaveDrafts(m, chosen)) && SaveDrafts(m, chosen).queue != []
  {
    hide ListOf, WritesOk, Savable, NoteOk, MarkConfirmed;
    if chosen != [] {
      var m' := SaveDrafts(m, chosen);
      MarkKeeps(m.drafts, chosen, m.heard, m.tried, m.sent);
      forall i | 0 <= i < |m'.queue| && IsConfirm(m'.queue[i])
        ensures Savable(m'.drafts, m'.heard, m'.queue[i].call.id, m'.queue[i].call.kind) && m'.queue[i].call.id !in m'.sent
      {
        MarkSavable(m.drafts, chosen, m.heard, m.tried, m.sent, i);
      }
      hide NotesOk, SentOk;
    }
  }

  lemma CloseKeeps(m: Memory)
    requires Calm(m) && m.closing.Some? && m.inflight.None? && m.writes == []
    ensures
      var m' := Close(m, m.closing.value).(closing := None);
      Calm(m') && !Busy(m') && m'.queue != [] && m'.tried == m.tried && m'.sent == m.sent && m'.heard == m.heard
  {
    hide ListOf, AskText, OpenDrafts, SaveDrafts, Calm;
    var quiet, open := m.(closing := None), OpenDrafts(m.drafts);
    Quiet(m);
    OpenPicked(m.drafts);
    if m.closing.value == Save {
      SaveKeeps(quiet, open);
      SaveFrame(m, open);
    } else {
      assert m.queue + [Say(AskText(open))] == [Message(AskText(open))];
      OneMessage(quiet, AskText(open));
    }
  }

  lemma Quiet(m: Memory)
    requires Calm(m) && m.closing.Some? && m.inflight.None? && m.writes == []
    ensures Calm(m.(closing := None)) && NotesDiffer(m.drafts) && m.queue == [] && !m.awaiting
  {
    hide NotesDiffer, SentOk, WritesOk, QueuedOk, NoteOk;
  }

  lemma SaveFrame(m: Memory, chosen: seq<Note>)
    ensures SaveDrafts(m, chosen).(closing := None) == SaveDrafts(m.(closing := None), chosen)
    ensures var m' := SaveDrafts(m, chosen); m'.tried == m.tried && m'.sent == m.sent && m'.heard == m.heard
  {
    hide ListOf, Confirms, MarkConfirmed;
  }

  /** A lone message in the queue is always in order. */
  lemma OneMessage(m: Memory, text: string)
    requires Calm(m) && !Busy(m) && m.queue == [] && !m.awaiting
    ensures Calm(m.(queue := [Message(text)]))
  {
    hide NotesOk, SentOk, WritesOk;
  }

  // ---------------------------------------------------------------- sending

  lemma KeysDiffer(scenario: string, j: nat, k: nat)
    requires KeyOf(scenario, j) == KeyOf(scenario, k)
    ensures j == k
  {
    assert KeyOf(scenario, j)[|scenario| + 1..] == Strings.Digits(j);
    assert KeyOf(scenario, k)[|scenario| + 1..] == Strings.Digits(k);
    Strings.DigitsInjective(j, k);
  }

  /** The write under way goes out once more, with the same arguments. */
  lemma ResendKeeps(m: Memory, w: Inflight)
    requires Calm(m) && m.inflight == Some(w) && InflightOk(w, m.drafts, m.tried, w.retries)
    ensures Inv(Send(m, w).0) && Send(m, w).0.tried == m.tried[w.args.key.value := Tried(w.args, w.retries + 1)]
  {
    hide KnownKey, NotesDiffer, SentOk, QueuedOk;
    var m' := Send(m, w).0;
    forall i | 0 <= i < |m'.drafts| ensures NoteOk(m'.drafts[i], m'.heard, m'.tried, m'.sent) {
      assert NoteOk(m.drafts[i], m.heard, m.tried, m.sent);
    }
  }

  /** The next write goes out under a key never used before. */
  lemma SendKeeps(m: Memory)
    requires Calm(m) && m.inflight.None? && m.writes != []
    ensures
      var m' := Send(m.(writes := m.writes[1..]), Inflight(m.writes[0], 0)).0;
      && Inv(m') && m.writes[0].key.Some? && m.writes[0].key.value !in m.tried
      && m'.tried == m.tried[m.writes[0].key.value := Tried(m.writes[0], 1)]
  {
    hide NotesDiffer, SentOk, QueuedOk, KeyOf;
    var n := m.keys - |m.writes| + 1;
    var key := KeyOf(m.scenario, n);
    assert m.writes[0].key == Some(key);
    if key in m.tried {
      assert KnownKey(m.scenario, n - 1, key);
      var k: nat :| 1 <= k <= n - 1 && key == KeyOf(m.scenario, k);
      KeysDiffer(m.scenario, n, k);
      assert false;
    }
    var m' := Send(m.(writes := m.writes[1..]), Inflight(m.writes[0], 0)).0;
    forall i | 0 <= i < |m'.drafts| ensures NoteOk(m'.drafts[i], m'.heard, m'.tried, m'.sent) && m'.drafts[i].key != Some(key) {
      assert NoteOk(m.drafts[i], m.heard, m.tried, m.sent);
    }
    forall k | k in m'.tried ensures KnownKey(m.scenario, n, k) {
      if k in m.tried { assert KnownKey(m.scenario, n - 1, k); } else { assert k == KeyOf(m.scenario, n); }
    }
  }

  /** The draft is marked to be saved and has not been corrected since it was learned of. */
  predicate Uncorrected(m: Memory, id: EntryId, kind: EntryKind) { Savable(m.drafts, m.heard, id, kind) }

  lemma ShiftKeeps(m: Memory)
    requires Calm(m) && !Busy(m) && m.queue != []
    ensures
      var (m', turn) := Shift(m);
      && Inv(m') && m'.tried == m.tried && turn == Doing(m.queue[0]) && (IsConfirm(m.queue[0]) || m.queue[0].Message?)
      && (IsConfirm(m.queue[0]) ==>
            Uncorrected(m', m.queue[0].call.id, m.queue[0].call.kind) && m.queue[0].call.id !in m.sent && m'.last == Some(m.queue[0].call.id) && !m'.awaiting)
  {
    hide WritesOk;
    var m', a := Shift(m).0, m.queue[0];
    if IsConfirm(a) {
      var n :| 0 <= n < |m.drafts| && m.drafts[n].id == a.call.id && m.drafts[n].kind == a.call.kind && m.drafts[n].confirmed
               && !m.drafts[n].superseded && m.drafts[n].born == m.heard;
      forall i | 0 <= i < |m.drafts| ensures NoteOk(m'.drafts[i], m'.heard, m'.tried, m'.sent) && (i != n ==> m.drafts[i].id != a.call.id) {
        assert NoteOk(m.drafts[i], m.heard, m.tried, m.sent);
      }
      forall id | id in m'.sent ensures Noted(m'.drafts, id) {
        if id in m.sent { assert Noted(m.drafts, id); } else { assert m.drafts[n].id == id; }
      }
    }
  }

  // ---------------------------------------------------------------- listening and choosing

  lemma OwnerKeeps(wits: Wits, m: Memory, text: string)
    requires Calm(m) && !Busy(m) && m.queue == []
    ensures Calm(AbsorbOwner(wits, m, text)) && AbsorbOwner(wits, m, text).tried == m.tried
    ensures var m' := AbsorbOwner(wits, m, text); !Busy(m') && m'.queue == [] && m'.awaiting == m.awaiting && m'.sent == m.sent
    ensures AbsorbOwner(wits, m, text).heard == m.heard + if wits.saysCorrection(text) then 1 else 0
  {
    hide WritesOk, FirstAmount, OpenDrafts;
    var m' := AbsorbOwner(wits, m, text);
    forall i | 0 <= i < |m'.drafts| ensures NoteOk(m'.drafts[i], m'.heard, m'.tried, m'.sent) {
      assert NoteOk(m.drafts[i], m.heard, m.tried, m.sent);
    }
    forall id | id in m'.sent ensures Noted(m'.drafts, id) {
      assert Noted(m.drafts, id);
      var j :| 0 <= j < |m.drafts| && m.drafts[j].id == id;
      assert m'.drafts[j].id == id;
    }
  }

  lemma PlanKeeps(wits: Wits, m: Memory, c: Closing)
    requires Calm(m) && !Busy(m) && m.queue == [] && !m.awaiting
    ensures Calm(Plan(wits, m).(closing := Some(c)))
  {
    hide Wanted, NotesOk, SentOk, QueuedOk, KeyOf, FirstAmount;
    forall k | k in m.tried ensures KnownKey(m.scenario, m.keys, k) { assert KnownKey(m.scenario, m.keys - |m.writes|, k); }
  }

  lemma ChooseKeeps(wits: Wits, m: Memory, skill: Skill)
    requires Calm(m) && !Busy(m) && m.queue == [] && !m.awaiting
    ensures var m' := Choose(wits, m, skill); Calm(m') && m'.inflight.None? && m'.tried == m.tried && m'.sent == m.sent && m'.heard == m.heard && !m'.awaiting
  {
    hide Calm, Plan, Wanted, ListOf, SaveDrafts, FirstAmount, Among, OpenDrafts, FirstMentioned;
    var m0 := m.(decided := true);
    Marked(m, m0);
    match skill
    case DraftAndAsk => PlanKeeps(wits, m0, Ask); PlanFrame(wits, m0);
    case DraftAndSave => PlanKeeps(wits, m0, Save); PlanFrame(wits, m0);
    case ConfirmPending =>
      var m1 := m0.(reconfirm := []);
      Marked(m0, m1);
      CalmNotes(m1);
      OpenPicked(m.drafts);
      AmongPicked(m.drafts, OpenDrafts(m.drafts), m0.reconfirm);
      MentionedPicked(wits, m.owner, m.drafts);
      var chosen := if wits.onlyTheFirst(m.owner) then FirstMentioned(wits, m.owner, OpenDrafts(m.drafts))
                    else if Among(OpenDrafts(m.drafts), m0.reconfirm) != [] then Among(OpenDrafts(m.drafts), m0.reconfirm) else OpenDrafts(m.drafts);
      SaveKeeps(m1, chosen);
      SaveFrame(m1, chosen);
      SaveAwaiting(m1, chosen);
    case AskClarify =>
      var m1 := Choose(wits, m, skill).(queue := []);
      Marked(m0, m1);
      assert Choose(wits, m, skill) == m1.(queue := [Message(Choose(wits, m, skill).queue[0].text)]);
      OneMessage(m1, Choose(wits, m, skill).queue[0].text);
    case _ =>
      assert Choose(wits, m, skill) == m0.(queue := [Message(Choose(wits, m, skill).queue[0].text)]);
      OneMessage(m0, Choose(wits, m, skill).queue[0].text);
  }

  lemma Marked(m: Memory, m': Memory)
    requires Calm(m) && m' == m.(decided := m'.decided, reconfirm := m'.reconfirm, correctionAsked := m'.correctionAsked)
    ensures Calm(m')
  {
    hide QueueOk, QueuedOk, NotesOk, SentOk, WritesOk;
  }

  lemma CalmNotes(m: Memory)
    requires Calm(m)
    ensures NotesDiffer(m.drafts)
  {
  }

  lemma PlanFrame(wits: Wits, m: Memory)
    ensures var m' := Plan(wits, m); m'.inflight == m.inflight && m'.tried == m.tried && m'.sent == m.sent && m'.heard == m.heard && m'.awaiting == m.awaiting
  {
    hide Wanted, FirstAmount;
  }

  lemma SaveAwaiting(m: Memory, chosen: seq<Note>)
    ensures SaveDrafts(m, chosen) == m.(queue := SaveDrafts(m, chosen).queue, drafts := SaveDrafts(m, chosen).drafts)
  {
    hide ListOf, Confirms, MarkConfirmed;
  }

  lemma MentionedPicked(wits: Wits, owner: string, ds: seq<Note>)
    ensures Picked(ds, FirstMentioned(wits, owner, OpenDrafts(ds)))
  {
  }

  // ---------------------------------------------------------------- a whole turn

  predicate Held(obs: Observation) { obs.lastMessage.Some? && obs.lastMessage.value.Hold? }

  /** A correction is waiting to be heard. */
  predicate Unheard(wits: Wits, m: Memory, obs: Observation) {
    m.awaiting && !Held(obs) && obs.ownerMessage.Some? && wits.saysCorrection(obs.ownerMessage.value)
  }

  /** A confirm goes out only for a draft not corrected since it was learned of, and only if it is not out already - or
      the server has just refused it. A write goes out at most three times, each time with the same arguments. */
  predicate Lawful(m: Memory, r: Option<ToolResult>, m': Memory, turn: Turn) {
    match turn
    case Doing(Tool(Confirm(kind, id))) =>
      && Uncorrected(m', id, kind) && (id !in m.sent || (Refusal(r) && r.value.data.id == id))
      && m'.last == Some(id) && m'.tried == m.tried && m'.inflight.None?
    case Doing(Tool(Record(args))) =>
      && args.key.Some? && (args.key.value in m.tried ==> m.tried[args.key.value].args == args && m.tried[args.key.value].times < 3 && UnderWay(m, args))
      && args.key.value in m'.tried && m'.tried == m.tried[args.key.value := m'.tried[args.key.value]]
      && m'.tried[args.key.value] == Tried(args, 1 + if args.key.value in m.tried then m.tried[args.key.value].times else 0) && m'.inflight.Some? && m'.inflight.value.args == args
    case Doing(a) => (a.Message? || (a.Tool? && a.call.ReadBill?)) && m'.tried == m.tried && m'.inflight.None? && m'.last.None?
    case Broken => true
    case _ => m'.tried == m.tried && m'.inflight.None? && m'.last.None?
  }

  predicate UnderWay(m: Memory, args: RecordArgs) { m.inflight.Some? && m.inflight.value.args == args }

  predicate SentMessage(turn: Turn) { turn.Doing? && turn.action.Message? }

  lemma ListenKeeps(wits: Wits, m: Memory, obs: Observation)
    requires Calm(m) && !Busy(m) && m.queue == []
    ensures
      var (m', turn) := Listen(wits, m, obs);
      && Inv(m') && !Busy(m') && m'.queue == [] && m'.tried == m.tried && m'.sent == m.sent && m'.last.None? && !turn.Broken?
      && m'.heard == m.heard + (if Unheard(wits, m, obs) then 1 else 0)
      && (turn.Doing? ==> turn.action.Message? || (turn.action.Tool? && turn.action.call.ReadBill?))
      && (turn.Stopping? || m'.awaiting == SentMessage(turn))
  {
    hide QueueOk, QueuedOk, NotesOk, SentOk, WritesOk, AbsorbOwner;
    var m1 := m.(last := None);
    assert Calm(m1);
    if m.awaiting && !Held(obs) && obs.ownerMessage.Some? {
      var m2 := m1.(awaiting := false, decided := false);
      assert Calm(m2);
      OwnerKeeps(wits, m2, obs.ownerMessage.value);
      AbsorbLast(wits, m2, obs.ownerMessage.value);
    }
  }

  lemma AbsorbLast(wits: Wits, m: Memory, text: string)
    ensures AbsorbOwner(wits, m, text).last == m.last
  {
    hide FirstAmount, OpenDrafts;
  }

  lemma ProceedKeeps(wits: Wits, m: Memory, obs: Observation)
    requires Calm(m) && (m.inflight.Some? ==> InflightOk(m.inflight.value, m.drafts, m.tried, m.inflight.value.retries))
    ensures
      var (m', turn) := Proceed(wits, m, obs);
      && Inv(m') && Lawful(m, None, m', turn) && !turn.Broken?
      && m'.heard == m.heard + (if Unheard(wits, m, obs) then 1 else 0)
      && (turn.Stopping? || m'.awaiting == SentMessage(turn))
      && (turn.Deciding? ==> !Busy(m') && m'.queue == [] && m'.sent == m.sent && m.queue == [])
  {
    hide Listen, Shift, Close, QueueOk, QueuedOk, NotesOk, SentOk, LastOk, WritesOk, Uncorrected;
    if m.inflight.Some? { ResendKeeps(m, m.inflight.value); SendFrame(m, m.inflight.value); }
    else if m.writes != [] { SendKeeps(m); SendFrame(m.(writes := m.writes[1..]), Inflight(m.writes[0], 0)); }
    else {
      if m.closing.Some? { CloseKeeps(m); CloseFrame(m, m.closing.value); }
      var m1 := if m.closing.Some? then Close(m, m.closing.value).(closing := None) else m;
      if m1.queue != [] { ShiftKeeps(m1); ShiftFrame(m1); }
      else {
        ListenKeeps(wits, m, obs);
        assert Lawful(m, None, Listen(wits, m, obs).0, Listen(wits, m, obs).1);
      }
    }
  }

  lemma SendFrame(m: Memory, w: Inflight)
    ensures
      var (m', turn) := Send(m, w);
      m'.inflight == Some(w) && turn == Doing(Tool(Record(w.args))) && m'.heard == m.heard && m'.awaiting == m.awaiting
  {
  }

  lemma CloseFrame(m: Memory, c: Closing)
    ensures Close(m, c).awaiting == m.awaiting && Close(m, c).inflight == m.inflight && Close(m, c).writes == m.writes
  {
    hide ListOf, AskText, OpenDrafts, SaveDrafts;
    SaveAwaiting(m, OpenDrafts(m.drafts));
  }

  lemma ShiftFrame(m: Memory)
    requires m.queue != []
    ensures
      var m' := Shift(m).0;
      m'.heard == m.heard && m'.inflight == m.inflight && m'.awaiting == (m.awaiting || m.queue[0].Message?) && (m.queue[0].Message? ==> m'.last.None?)
  {
  }

  /** `next` keeps the invariant and sends only what is lawful. */
  lemma NextKeeps(wits: Wits, m: Memory, obs: Observation)
    requires Inv(m) && Honest(m, obs.toolResult)
    ensures
      var (m', turn) := Next(wits, m, obs);
      turn.Broken? ||
      (&& Inv(m') && Lawful(m, obs.toolResult, m', turn)
       && m'.heard == m.heard + (if Unheard(wits, m, obs) then 1 else 0)
       && (turn.Stopping? || m'.awaiting == SentMessage(turn))
       && (turn.Deciding? ==> !Busy(m') && m'.queue == [] && !m'.awaiting && m'.sent == m.sent && !Refusal(obs.toolResult)))
  {
    hide Calm, Proceed, AbsorbResult, Uncorrected, InflightOk;
    if AbsorbResult(wits, m, obs.toolResult).Some? {
      AbsorbKeeps(wits, m, obs.toolResult);
      var m1 := AbsorbResult(wits, m, obs.toolResult).value;
      ProceedKeeps(wits, m1, obs);
      if Refusal(obs.toolResult) { RefusalQueued(wits, m, obs.toolResult); }
    }
  }

  /** After a refusal there is still the question to ask, so nothing is decided. */
  lemma RefusalQueued(wits: Wits, m: Memory, r: Option<ToolResult>)
    requires Inv(m) && Honest(m, r) && Refusal(r)
    ensures AbsorbResult(wits, m, r).Some? && AbsorbResult(wits, m, r).value.queue != []
  {
    hide ListOf, QueueOk, QueuedOk, NotesOk, SentOk, WritesOk, Reopen, Among;
  }

  lemma ActKeeps(wits: Wits, m: Memory, obs: Observation, skill: Skill)
    requires Inv(m) && Honest(m, obs.toolResult)
    ensures
      var (m', turn) := PolicyAct(wits, m, obs, skill);
      turn.Broken? ||
      (&& Inv(m') && Lawful(m, obs.toolResult, m', turn) && !turn.Deciding?
       && m'.heard == m.heard + (if Unheard(wits, m, obs) then 1 else 0)
       && (turn.Stopping? || m'.awaiting == SentMessage(turn)))
  {
    hide Calm, Next, Choose, Uncorrected, InflightOk;
    NextKeeps(wits, m, obs);
    var (m1, turn) := Next(wits, m, obs);
    if turn.Deciding? {
      ChooseKeeps(wits, m1, skill);
      var m2 := Choose(wits, m1, skill);
      Chosen(wits, m1, skill);
      StillHonest(m, m1, m2, obs.toolResult);
      NextKeeps(wits, m2, obs);
      Decided(wits, m2, obs);
    }
  }

  /** A bill came back as something that is no bill. */
  predicate GarbledBill(r: Option<ToolResult>) {
    r.Some? && r.value.name == ReadBillT && r.value.ok && !r.value.data.BillText?
  }

  lemma NextBreaks(wits: Wits, m: Memory, obs: Observation)
    ensures Next(wits, m, obs).1.Broken? <==> GarbledBill(obs.toolResult)
  {
    hide Refused, Learned, Close, AbsorbOwner, Unread;
  }

  /** A turn raises exactly on a garbled bill, whatever is remembered and chosen. */
  lemma TurnBreaks(wits: Wits, m: Memory, obs: Observation, skill: Skill)
    ensures PolicyAct(wits, m, obs, skill).1.Broken? <==> GarbledBill(obs.toolResult)
  {
    hide Next, HarnessSpec.Choose, GarbledBill;
    NextBreaks(wits, m, obs);
    NextBreaks(wits, HarnessSpec.Choose(wits, Next(wits, m, obs).0, skill), obs);
  }

  /** Once it has decided, it does not ask for another decision on the same observation. */
  lemma Decided(wits: Wits, m: Memory, obs: Observation)
    requires m.decided && !m.awaiting
    ensures !Next(wits, m, obs).1.Deciding?
  {
    hide ListOf, Close, AbsorbResult, Proceed;
    AbsorbFrame(wits, m, obs.toolResult);
    if AbsorbResult(wits, m, obs.toolResult).Some? { DecidedProceeds(wits, AbsorbResult(wits, m, obs.toolResult).value, obs); }
  }

  lemma AbsorbFrame(wits: Wits, m: Memory, r: Option<ToolResult>)
    ensures AbsorbResult(wits, m, r).Some? ==> AbsorbResult(wits, m, r).value.decided == m.decided && AbsorbResult(wits, m, r).value.awaiting == m.awaiting
  {
    hide ListOf, Reopen, Among, AskAgain;
  }

  lemma DecidedProceeds(wits: Wits, m: Memory, obs: Observation)
    requires m.decided && !m.awaiting
    ensures !Proceed(wits, m, obs).1.Deciding?
  {
    hide ListOf, AskText, OpenDrafts, MarkConfirmed, AbsorbOwner;
  }

  lemma Chosen(wits: Wits, m: Memory, skill: Skill)
    ensures Choose(wits, m, skill).decided && Choose(wits, m, skill).last == m.last && Choose(wits, m, skill).bills == m.bills
  {
    hide Plan, Wanted, ListOf, FirstAmount, Among, OpenDrafts, FirstMentioned, SaveDrafts;
    PlanLast(wits, m.(decided := true));
    if skill == ConfirmPending {
      var open := OpenDrafts(m.drafts);
      var again := Among(open, m.reconfirm);
      SaveAwaiting(m.(decided := true, reconfirm := []),
                   if wits.onlyTheFirst(m.owner) then FirstMentioned(wits, m.owner, open) else if again != [] then again else open);
    }
  }

  lemma PlanLast(wits: Wits, m: Memory)
    ensures Plan(wits, m).last == m.last && Plan(wits, m).decided == m.decided && Plan(wits, m).bills == m.bills
  {
    hide Wanted, FirstAmount;
  }

  lemma StillHonest(m: Memory, m1: Memory, m2: Memory, r: Option<ToolResult>)
    requires Honest(m, r) && Inv(m) && !Refusal(r) && m2.inflight.None?
    ensures Honest(m2, r)
  {
    hide Calm;
  }
}
