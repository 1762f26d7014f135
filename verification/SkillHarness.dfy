/** The skill harness and the policy agent around it as objects (agents-learning/src/agents/skills.ts, policy.ts). */
module SkillHarnessObject {
  import opened OptionType
  import opened Contracts
  import opened EnvSpec
  import opened HarnessSpec
  import opened HarnessTheorems

  class SkillHarness {
    const wits: Wits
    var m: Memory

    constructor (wits: Wits, scenario: string)
      ensures this.wits == wits && m == Fresh(scenario)
    {
      this.wits, m := wits, Fresh(scenario);
    }

    /** `None` is the exception that text that is no bill raises. */
    method AbsorbToolResult(r: Option<ToolResult>) returns (ok: bool)
      modifies this
      ensures ok == AbsorbResult(wits, old(m), r).Some? && m == if ok then AbsorbResult(wits, old(m), r).value else old(m)
    {
      hide ListOf, Reopen, Among, AskAgain;
      if r.None? { return true; }
      var res := r.value;
      if res.name == ReadBillT && res.ok {
        if !res.data.BillText? { return false; }
        if !(exists b :: b in m.bills && b.file == res.data.file) {
          m := m.(bills := m.bills + [wits.parseBill(res.data.file, res.data.text)]);
        }
        return true;
      }
      if res.name == ConfirmEntryT && res.ok {
        if res.data.NeedsApproval? { m := Refused(m, res.data.id); }
        return true;
      }
      if (res.name != RecordExpenseT && res.name != RecordSaleT) || m.inflight.None? { return true; }
      var w := m.inflight.value;
      if !res.ok || res.data.Garbled? {
        w := w.(retries := w.retries + 1);
        m := m.(inflight := if w.retries > 2 then None else Some(w));
        return true;
      }
      if res.data.Saved? {
        m := Learned(m, w.args, if res.name == RecordSaleT then Sale else Expense, res.data.id, res.data.fig, res.data.report.duplicateWarned);
      }
      m := m.(inflight := None);
      return true;
    }

    /** A correction makes every open draft a superseded one. */
    method Supersede()
      modifies this
      ensures m == old(m).(drafts := SupersedeOpen(old(m).drafts))
    {
      ghost var before := m.drafts;
      for i := 0 to |m.drafts|
        invariant m == old(m).(drafts := m.drafts) && |m.drafts| == |before|
        invariant forall j :: 0 <= j < i ==> m.drafts[j] == SupersedeOpen(before)[j]
        invariant forall j :: i <= j < |before| ==> m.drafts[j] == before[j]
      {
        if IsOpen(m.drafts[i]) { m := m.(drafts := m.drafts[i := m.drafts[i].(superseded := true)]); }
      }
      assert m.drafts == SupersedeOpen(before);
    }

    method HearOwner(text: string)
      modifies this
      ensures m == AbsorbOwner(wits, old(m), text)
    {
      hide FirstAmount, OpenDrafts, SupersedeOpen;
      m := m.(owner := text);
      if wits.notVatRegistered(text) { m := m.(answeredVat := Some(false)); }
      if wits.billIsRight(text) { m := m.(confirmedAmount := FirstAmount(text)); }
      if wits.saysCorrection(text) {
        var open := OpenDrafts(m.drafts);
        if m.supersedeTarget.None? && open != [] { m := m.(supersedeTarget := Some(open[0].id)); }
        Supersede();
        m := m.(heard := m.heard + 1);
      }
    }

    /** Marks the chosen drafts and queues their confirms with the report behind them. */
    method SaveChosen(chosen: seq<Note>)
      modifies this
      ensures m == SaveDrafts(old(m), chosen)
    {
      hide ListOf;
      if chosen == [] {
        m := m.(queue := m.queue + [Say(ALREADY_SAVED)]);
        return;
      }
      ghost var before := m.drafts;
      var confirms: seq<Action> := [];
      for i := 0 to |chosen|
        invariant |confirms| == i && forall j :: 0 <= j < i ==> confirms[j] == Confirms(chosen)[j]
      {
        confirms := confirms + [Tool(Confirm(chosen[i].kind, chosen[i].id))];
      }
      for i := 0 to |m.drafts|
        invariant m == old(m).(drafts := m.drafts) && |m.drafts| == |before|
        invariant forall j :: 0 <= j < i ==> m.drafts[j] == MarkConfirmed(before, chosen)[j]
        invariant forall j :: i <= j < |before| ==> m.drafts[j] == before[j]
      {
        if m.drafts[i] in chosen { m := m.(drafts := m.drafts[i := m.drafts[i].(confirmed := true)]); }
      }
      assert m.drafts == MarkConfirmed(before, chosen) && confirms == Confirms(chosen);
      m := m.(queue := m.queue + confirms + [Say(SAVED + " \U{2705} " + ListOf(chosen))]);
    }

    method Choose(skill: Skill)
      modifies this
      ensures m == HarnessSpec.Choose(wits, old(m), skill)
    {
      hide FirstAmount, Wanted, SaveDrafts, Among, OpenDrafts, FirstMentioned, WithKeys;
      m := m.(decided := true);
      match skill
      case DraftAndAsk => m := Plan(wits, m); m := m.(closing := Some(Ask));
      case DraftAndSave => m := Plan(wits, m); m := m.(closing := Some(Save));
      case AskClarify =>
        if wits.saysCorrection(m.owner) && m.correctionAsked.None? {
          m := m.(correctionAsked := Some(if FirstAmount(m.owner).Some? then FirstAmount(m.owner).value else 0));
        }
        m := m.(queue := m.queue + [Say(wits.question(m))]);
      case ConfirmPending =>
        var open := OpenDrafts(m.drafts);
        var again := Among(open, m.reconfirm);
        m := m.(reconfirm := []);
        SaveChosen(if wits.onlyTheFirst(m.owner) then FirstMentioned(wits, m.owner, open) else if again != [] then again else open);
      case Decline => m := m.(queue := m.queue + [Say(DECLINED)]);
      case Acknowledge => m := m.(queue := m.queue + [Say("Okay, I won't save anything for now.")]);
    }

    method Next(obs: Observation) returns (turn: Turn)
      modifies this
      ensures (m, turn) == HarnessSpec.Next(wits, old(m), obs)
    {
      hide AbsorbResult, AbsorbOwner, SaveDrafts, AskText, OpenDrafts, Unread;
      var ok := AbsorbToolResult(obs.toolResult);
      if !ok { return Broken; }
      if m.inflight.Some? {
        var sent := Send(m, m.inflight.value);
        m := sent.0;
        return sent.1;
      }
      if m.writes != [] {
        var write := m.writes[0];
        m := m.(writes := m.writes[1..]);
        var sent := Send(m, Inflight(write, 0));
        m := sent.0;
        return sent.1;
      }
      if m.closing.Some? {
        if m.closing.value == Save { SaveChosen(OpenDrafts(m.drafts)); }
        else { m := m.(queue := m.queue + [Say(AskText(OpenDrafts(m.drafts)))]); }
        m := m.(closing := None);
      }
      if m.queue != [] {
        var shifted := Shift(m);
        m := shifted.0;
        return shifted.1;
      }
      m := m.(last := None);
      if m.awaiting && obs.lastMessage.Some? && obs.lastMessage.value.Hold? { return Doing(Say(wits.heldReply)); }
      if m.awaiting {
        if obs.ownerMessage.None? { return Stopping; }
        m := m.(awaiting := false, decided := false);
        HearOwner(obs.ownerMessage.value);
      }
      var unread := Unread(m.bills, obs.bills);
      if unread.Some? { return Doing(Tool(ReadBill(unread.value))); }
      return if m.decided then Stopping else Deciding;
    }

    /** The policy agent's loop; it asks the policy at most once for one observation. */
    method Act(obs: Observation, skill: Skill) returns (turn: Turn)
      requires HarnessTheorems.Inv(m) && Honest(m, obs.toolResult)
      modifies this
      ensures (m, turn) == PolicyAct(wits, old(m), obs, skill)
      ensures turn.Broken? || (HarnessTheorems.Inv(m) && Lawful(old(m), obs.toolResult, m, turn) && !turn.Deciding?)
    {
      hide HarnessSpec.Next, HarnessSpec.Choose, Inv, Honest, Lawful;
      HarnessTheorems.ActKeeps(wits, m, obs, skill);
      turn := Next(obs);
      if turn.Deciding? {
        Choose(skill);
        turn := Next(obs);
      }
    }
  }
}
