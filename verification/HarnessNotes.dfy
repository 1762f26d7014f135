/** What a turn of the harness does to its notes: it adds the draft just learned of and only re-marks the others. */
module HarnessNotes {
  import opened OptionType
  import opened Contracts
  import opened EnvSpec
  import opened HarnessSpec
  import opened HarnessTheorems

  /** What never changes about a note. */
  datatype Fact = Fact(id: EntryId, key: Option<string>, born: nat)

  function FactsOf(ds: seq<Note>): (fs: seq<Fact>)
    ensures |fs| == |ds|
  {
    seq(|ds|, i requires 0 <= i < |ds| => Fact(ds[i].id, ds[i].key, ds[i].born))
  }

  /** The draft a result tells of, if it is the answer to the write under way. */
  function NewFacts(m: Memory, r: Option<ToolResult>): seq<Fact> {
    if m.inflight.Some? && r.Some? && (r.value.name == RecordExpenseT || r.value.name == RecordSaleT) && r.value.ok && r.value.data.Saved?
    then [Fact(r.value.data.id, m.inflight.value.args.key, m.heard)] else []
  }

  /** The same drafts are remembered, and every confirm that was out still is. */
  ghost predicate Kept(m: Memory, m': Memory) {
    FactsOf(m'.drafts) == FactsOf(m.drafts) && m.sent <= m'.sent
  }

  lemma {:induction false} ReopenFacts(ds: seq<Note>, id: EntryId)
    ensures FactsOf(Reopen(ds, id)) == FactsOf(ds)
  {
    if ds != [] && ds[0].id != id {
      ReopenFacts(ds[1..], id);
      assert FactsOf(ds) == FactsOf([ds[0]]) + FactsOf(ds[1..]);
      assert FactsOf(Reopen(ds, id)) == FactsOf([ds[0]]) + FactsOf(Reopen(ds[1..], id));
    }
  }

  lemma AbsorbNotes(wits: Wits, m: Memory, r: Option<ToolResult>)
    requires AbsorbResult(wits, m, r).Some?
    ensures
      var m' := AbsorbResult(wits, m, r).value;
      && FactsOf(m'.drafts) == FactsOf(m.drafts) + NewFacts(m, r)
      && (if Refusal(r) then m.sent - {r.value.data.id} else m.sent) <= m'.sent
  {
    hide ListOf, Reopen, Among, AskAgain;
    if Refusal(r) { ReopenFacts(m.drafts, r.value.data.id); }
  }

  lemma SaveNotes(m: Memory, chosen: seq<Note>)
    ensures Kept(m, SaveDrafts(m, chosen))
  {
    hide ListOf, Confirms;
  }

  lemma ProceedNotes(wits: Wits, m: Memory, obs: Observation)
    ensures Kept(m, Proceed(wits, m, obs).0)
  {
    hide Close, Listen, FactsOf;
    if m.inflight.None? && m.writes == [] {
      var m1 := if m.closing.Some? then Close(m, m.closing.value).(closing := None) else m;
      if m.closing.Some? { CloseNotes(m, m.closing.value); }
      if m1.queue == [] { ListenNotes(wits, m1, obs); }
    }
  }

  lemma CloseNotes(m: Memory, c: Closing)
    ensures Kept(m, Close(m, c))
  {
    hide SaveDrafts, AskText, OpenDrafts, FactsOf;
    SaveNotes(m, OpenDrafts(m.drafts));
  }

  lemma ListenNotes(wits: Wits, m: Memory, obs: Observation)
    ensures Kept(m, Listen(wits, m, obs).0)
  {
    hide FirstAmount, OpenDrafts, Unread;
  }

  lemma ChooseNotes(wits: Wits, m: Memory, skill: Skill)
    ensures Kept(m, Choose(wits, m, skill))
  {
    hide Wanted, FirstAmount, SaveDrafts, FactsOf, Among, OpenDrafts, FirstMentioned;
    if skill == ConfirmPending {
      var open := OpenDrafts(m.drafts);
      var again := Among(open, m.reconfirm);
      SaveNotes(m.(decided := true, reconfirm := []),
                if wits.onlyTheFirst(m.owner) then FirstMentioned(wits, m.owner, open) else if again != [] then again else open);
    }
  }

  /** One turn: the draft just learned of is noted, and confirms that are out stay out unless refused. */
  lemma ActNotes(wits: Wits, m: Memory, obs: Observation, skill: Skill)
    requires Inv(m) && Honest(m, obs.toolResult) && !PolicyAct(wits, m, obs, skill).1.Broken?
    ensures
      var m' := PolicyAct(wits, m, obs, skill).0;
      && FactsOf(m'.drafts) == FactsOf(m.drafts) + NewFacts(m, obs.toolResult)
      && (if Refusal(obs.toolResult) then m.sent - {obs.toolResult.value.data.id} else m.sent) <= m'.sent
  {
    hide Calm, Choose, AbsorbResult, Proceed, FactsOf, Uncorrected, InflightOk;
    var r := obs.toolResult;
    AbsorbNotes(wits, m, r);
    ProceedNotes(wits, AbsorbResult(wits, m, r).value, obs);
    NextKeeps(wits, m, obs);
    var (m1, turn) := Next(wits, m, obs);
    if turn.Deciding? {
      var m2 := Choose(wits, m1, skill);
      ChooseKeeps(wits, m1, skill);
      ChooseNotes(wits, m1, skill);
      AbsorbNotes(wits, m2, r);
      ProceedNotes(wits, AbsorbResult(wits, m2, r).value, obs);
    }
  }
}
