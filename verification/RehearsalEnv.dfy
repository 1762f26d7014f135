/** The rehearsal environment as the object the source makes it: one state, changed in place, call by call
    (agents-learning/src/env/environment.ts and the ledger part of env/tools.ts). */
module RehearsalEnvironment {
  import opened OptionType
  import opened Contracts
  import opened JudgeSpec
  import opened EnvSpec
  import JudgeRun

  /** A snapshot is a copy of the state with its digest, a function the caller supplies. */
  datatype Snapshot<D> = Snapshot(state: EnvState, digest: D)

  /** The state a snapshot brings back, if its digest is that state's. */
  function Opened<D(==)>(snap: Snapshot<D>, digest: EnvState -> D): Option<EnvState> {
    if digest(snap.state) == snap.digest then Some(snap.state) else None
  }

  class RehearsalEnv {
    const w: World
    const guards: bool
    var s: EnvState

    constructor (w: World, guards: bool)
      ensures this.w == w && this.guards == guards
    {
      this.w, this.guards := w, guards;
      s := Blank(w, guards);
    }

    method Reset() returns (obs: Observation, log: seq<Event>)
      requires w.scenario.script != []
      modifies this
      ensures s == EnvSpec.Reset(w, guards) && obs == Observe(s) && log == s.events
    {
      s := Blank(w, guards);
      Emit(EpisodeReset(w.scenario.id));
      OwnerSays(w.scenario.script[0]);
      s := s.(owner := s.owner.(cursor := 1));
      obs, log := Observe(s), s.events;
    }

    method Emit(d: EventData)
      modifies this
      ensures s == EnvSpec.Emit(old(s), d)
    {
      s := s.(events := s.events + [Event(|s.events|, d)]);
    }

    // -------------------------------------------------------------- sandbox ledger

    /** The first draft of this kind under this id, found by looking from the front. */
    method Find(id: EntryId, kind: EntryKind) returns (at: Option<nat>)
      ensures at == FindDraft(s.ledger.entries, id, kind)
    {
      var es := s.ledger.entries;
      for i := 0 to |es|
        invariant FindDraft(es[..i], id, kind).None?
      {
        if IsDraft(es[i], id, kind) {
          FoundFirst(es, i, id, kind);
          return Some(i);
        }
        FoundNone(es, i, id, kind);
      }
      assert es[..|es|] == es;
      return None;
    }

    method NewEntry(fig: Figures, occurredOn: string) returns (entry: Entry)
      modifies this
      ensures entry == Entry(New(old(s).ledger.nextId), Draft, fig, occurredOn, false, old(s).step)
      ensures s == old(s).(ledger := old(s).ledger.(entries := old(s).ledger.entries + [entry], nextId := old(s).ledger.nextId + 1))
    {
      entry := Entry(New(s.ledger.nextId), Draft, fig, occurredOn, false, s.step);
      s := s.(ledger := s.ledger.(entries := s.ledger.entries + [entry], nextId := s.ledger.nextId + 1));
    }

    /** The new draft is appended before its predecessor is struck, as in the source. */
    method Produce(a: RecordArgs) returns (data: ToolData, write: Option<Write>)
      modifies this
      ensures
        var out := RecordDraft(w, old(s).ledger, old(s).step, a);
        s == old(s).(ledger := out.ledger) && data == out.data && write == out.write && out.ok
    {
      write := None;
      if a.printedTaxable.Some? != a.printedVat.Some? {
        data := NotSaved(BOTH_OR_NEITHER, false);
      } else if w.resolveVat(a).None? {
        data := NotSaved("figures do not resolve", false);
      } else if w.inFuture(a.occurredOn) {
        data := NotSaved(IN_FUTURE, false);
      } else {
        var target: Option<nat> := None;
        if a.supersedes.Some? { target := Find(a.supersedes.value, a.kind); }
        if a.supersedes.Some? && target.None? {
          data := NotSaved(NO_SUCH_DRAFT, false);
        } else {
          var vat := w.resolveVat(a).value;
          var report := w.validate(a, vat, Live(s.ledger.entries, a.supersedes));
          if report.fail {
            data := NotSaved("validation failed", false);
          } else {
            ghost var before := s.ledger.entries;
            var fig := Figures(a.kind, vat.excl + vat.vat, vat.excl, vat.vat, a.invoice, a.vendor);
            var entry := NewEntry(fig, a.occurredOn);
            if target.Some? {
              var gone := s.ledger.entries[target.value].(status := Superseded);
              s := s.(ledger := s.ledger.(entries := s.ledger.entries[target.value := gone]));
              assert (before + [entry])[target.value := gone] == before[target.value := gone] + [entry];
            }
            data, write := Saved(entry.id, fig, a.supersedes, report, false), Some(Wrote(false, entry));
          }
        }
      }
    }

    method WithIdem(a: RecordArgs) returns (data: ToolData, write: Option<Write>)
      modifies this
      ensures
        var out := RecordOnce(w, old(s).ledger, old(s).step, a);
        s == old(s).(ledger := out.ledger) && data == out.data && write == out.write && out.ok
    {
      hide RecordDraft, Live, FindDraft;
      if a.key.Some? && a.key.value in s.ledger.idem {
        data, write := AsReplay(s.ledger.idem[a.key.value]), None;
      } else {
        data, write := Produce(a);
        if a.key.Some? {
          s := s.(ledger := s.ledger.(idem := s.ledger.idem[a.key.value := data]));
        }
      }
    }

    method ConfirmEntry(kind: EntryKind, id: EntryId) returns (data: ToolData, write: Option<Write>)
      modifies this
      ensures
        var out := ConfirmDraft(old(s).ledger, old(s).guards, old(s).owner.yesSteps, kind, id);
        s == old(s).(ledger := out.ledger) && data == out.data && write == out.write && out.ok
    {
      write := None;
      var at := Find(id, kind);
      if at.None? {
        data := NotConfirmed("entry not found in this business, or already confirmed");
      } else {
        var e := s.ledger.entries[at.value];
        if s.guards && !exists i :: 0 <= i < |s.owner.yesSteps| && s.owner.yesSteps[i] > e.createdStep {
          data := NeedsApproval(e.id, e.fig);
        } else {
          var flipped := e.(status := Confirmed);
          s := s.(ledger := s.ledger.(entries := s.ledger.entries[at.value := flipped]));
          data, write := Flipped(e.id, e.fig, e.occurredOn), Some(Wrote(true, flipped));
        }
      }
    }

    method RunTool(call: Call) returns (ok: bool, data: ToolData, write: Option<Write>)
      modifies this
      ensures
        var out := EnvSpec.RunTool(w, old(s), call);
        s == old(s).(ledger := out.ledger) && ok == out.ok && data == out.data && write == out.write
    {
      hide RecordOnce, ConfirmDraft, Live, Listed;
      ok, write := true, None;
      match call
      case Unparsed(_, _) => ok, data := false, Failure("invalid arguments");
      case ReadBill(f) =>
        if f in w.scenario.bills && f in s.owner.attached { data := BillText(f, w.scenario.bills[f]); }
        else { ok, data := false, Failure("no attached bill " + f); }
      case ComputeVat(amount, inclusive) =>
        var v := w.splitVat(amount, inclusive);
        data := VatSplit(v, v.excl + v.vat);
      case Record(a) => data, write := WithIdem(a);
      case Confirm(kind, id) => data, write := ConfirmEntry(kind, id);
      case Validate(candidate) => data := Checked(w.checkCandidate(candidate, Live(s.ledger.entries, None)));
      case List(kind, status) => data := Transactions(Listed(s.ledger.entries, kind, status));
    }

    // -------------------------------------------------------------- one tool call

    method SetToolResult(r: ToolResult)
      modifies this
      ensures s == EnvSpec.SetToolResult(w, old(s), r)
    {
      s := s.(lastResult := Some(r));
      Emit(ToolResultEv(r));
      if r.name != ReadBillT { s := s.(evidence := w.addResult(s.evidence, r)); }
    }

    method DoTool(call: Call)
      modifies this
      ensures s == EnvSpec.DoTool(w, old(s), call)
    {
      hide EnvSpec.RunTool, EnvSpec.SetToolResult, Answer, FaultFor, NameOf;
      var name := NameOf(call);
      var n := (if name in s.toolCalls then s.toolCalls[name] else 0) + 1;
      s := s.(toolCalls := s.toolCalls[name := n]);
      Emit(ToolCall(call, n));
      if w.foreign(call) {
        Emit(CrossTenant(name));
        SetToolResult(ToolResult(name, false, DENIED));
        return;
      }
      var fault := FaultFor(w.scenario.faults, name, n);
      if fault == Some(Timeout) {
        Emit(FaultInjected(name, Timeout));
        SetToolResult(ToolResult(name, false, TIMED_OUT));
        return;
      }
      var ok, data, write := RunTool(call);
      if write.Some? {
        var e := write.value.entry;
        Emit(LedgerWrite(if write.value.confirm then ConfirmOp(e.id in s.owner.approvals) else DraftOp, e.id, e.fig));
      }
      AnswerCall(name, fault, ok, data);
    }

    method AnswerCall(name: ToolName, fault: Option<FaultKind>, ok: bool, data: ToolData)
      modifies this
      ensures s == Answer(w, old(s), name, fault, ok, data)
    {
      hide EnvSpec.SetToolResult;
      if fault == Some(AckLost) {
        Emit(FaultInjected(name, AckLost));
        SetToolResult(ToolResult(name, false, TIMED_OUT));
      } else if fault == Some(Malformed) {
        Emit(FaultInjected(name, Malformed));
        SetToolResult(ToolResult(name, true, Garbled));
      } else {
        SetToolResult(ToolResult(name, ok, data));
      }
    }

    // -------------------------------------------------------------- the simulated owner

    method OwnerSays(line: OwnerLine)
      modifies this
      ensures s == EnvSpec.OwnerSays(w, old(s), line)
    {
      hide Spoken;
      var o := Speak(line);
      s := s.(owner := o);
      Emit(OwnerMessage(line.say, line.intent, line.attach));
      s := s.(evidence := w.turnEvidence(s.owner.texts));
    }

    /** What saying a line does to the owner, field by field. */
    method Speak(line: OwnerLine) returns (o: Owner)
      ensures o == Spoken(w, s.owner, s.ledger.entries, s.step, line)
    {
      hide PendingIds, Covered, AddNew;
      o := s.owner;
      o := o.(waiting := false,
              lastIntent := Some(if line.intent == Inform && o.lastIntent == Some(ConfirmI) then ConfirmI else line.intent));
      if w.isApproval(line.say) { o := o.(yesSteps := o.yesSteps + [s.step]); }
      o := o.(texts := o.texts + [line.say]);
      var attached := Append(o.attached, line.attach);
      o := o.(attached := attached, pending := Some(line.say));
      if line.intent == Correct {
        o := o.(approvals := [], lastCorrection := s.step);
      }
      if line.intent == ConfirmI {
        var approvals := Append(o.approvals, Covered(line, s.ledger.entries, o.lastCorrection));
        o := o.(approvals := approvals);
      }
    }

    method AnswerFromFacts(text: string) returns (answered: bool)
      modifies this
      ensures
        var r := EnvSpec.AnswerFromFacts(w, old(s).owner, old(s).ledger.entries, text);
        answered == r.Some? && s == if r.Some? then EnvSpec.OwnerSays(w, old(s).(owner := r.value.owner), r.value.line) else old(s)
    {
      hide EnvSpec.OwnerSays, Widened, FirstApprovedVendor;
      var es := s.ledger.entries;
      if s.owner.lastIntent == Some(ConfirmI) && (exists e :: e in es && NewDraft(e) && e.id in s.owner.approvals) && !s.owner.reaffirmed {
        s := s.(owner := s.owner.(reaffirmed := true));
        if Widened(w, es, s.owner.approvals, text) {
          var keep := FirstApprovedVendor(es, s.owner.approvals);
          OwnerSays(Informs("No \U{2014} only " + (if keep.Some? then keep.value else "the first one") + ". Not the other one."));
        } else {
          OwnerSays(Informs("Yes, save it."));
        }
        return true;
      }
      var fact := w.scenario.clarifyAnswer;
      if fact.Some? && fact.value != "" && !s.owner.clarifyAnswered && s.owner.lastCorrection >= 0 {
        s := s.(owner := s.owner.(clarifyAnswered := true));
        OwnerSays(Informs(fact.value));
        return true;
      }
      return false;
    }

    method OwnerResponds(text: string)
      modifies this
      ensures s == EnvSpec.OwnerResponds(w, old(s), text)
    {
      hide EnvSpec.OwnerSays, EnvSpec.AnswerFromFacts, Holds;
      var asked := w.asks(text);
      if s.owner.cursor >= |w.scenario.script| {
        if asked {
          var answered := AnswerFromFacts(text);
          if answered { return; }
        }
        s := s.(done := true);
        return;
      }
      var next := w.scenario.script[s.owner.cursor];
      if forall r :: r in next.needs ==> Holds(s.ledger.entries, s.owner.lastCorrection, asked, r) {
        s := s.(owner := s.owner.(cursor := s.owner.cursor + 1));
        OwnerSays(next);
        return;
      }
      if asked {
        var answered := AnswerFromFacts(text);
        if answered { return; }
        if s.owner.nudges < OWNER_NUDGES {
          s := s.(owner := s.owner.(nudges := s.owner.nudges + 1));
          OwnerSays(NUDGE);
          return;
        }
      }
      s := s.(owner := s.owner.(waiting := true));
    }

    method DoMessage(text: string)
      modifies this
      ensures s == EnvSpec.DoMessage(w, old(s), text)
    {
      hide EnvSpec.OwnerResponds;
      var decision := w.gate(text, s.evidence);
      Emit(GateDecision(decision.Hold?, if decision.Hold? then decision.reasons else []));
      s := s.(lastMessage := Some(decision));
      if decision.Hold? { return; }
      Emit(AgentMessage(text));
      s := s.(owner := s.owner.(pending := None));
      OwnerResponds(text);
    }

    // -------------------------------------------------------------- step

    method FinishStep(from: nat) returns (r: StepResult)
      modifies this
      ensures s == EnvSpec.FinishStep(w, old(s))
      ensures r.next == Observe(s) && r.terminated == (s.done && !s.truncated) && r.truncated == s.truncated
      ensures r.reward == if old(s).verdict.None? && s.verdict.Some? then s.verdict.value.reward else 0.0
      ensures r.events == Since(s.events, from)
    {
      hide Judge;
      var reward := 0.0;
      if s.done && s.verdict.None? {
        var v := JudgeRun.RunJudge(w.scenario.oracle, w.asks, s.events, s.ledger.entries);
        s := s.(verdict := Some(v));
        reward := v.reward;
        Emit(EpisodeEnd(s.truncated, v.reward, v.passed));
      }
      return StepResult(Observe(s), reward, s.done && !s.truncated, s.truncated, Since(s.events, from));
    }

    /** `None` is the refusal to step a finished episode. */
    method Step(a: Action) returns (r: Option<StepResult>)
      modifies this
      ensures old(s).done ==> r.None? && s == old(s)
      ensures !old(s).done ==> s == EnvSpec.Step(w, old(s), a) && r == Some(ResultOf(old(s), s))
    {
      hide EnvSpec.DoTool, EnvSpec.DoMessage, EnvSpec.FinishStep;
      if s.done { return None; }
      var from := |s.events|;
      s := s.(step := s.step + 1, lastResult := None);
      if a.Rejected? {
        Emit(InvalidAction);
        var result := FinishStep(from);
        return Some(result);
      }
      Emit(AgentDecision(Summarize(a)));
      if a.Tool? { DoTool(a.call); }
      else if a.Message? { DoMessage(a.text); }
      else { s := s.(done := true); }
      if !s.done && s.step >= MAX_STEPS { s := s.(done := true, truncated := true); }
      var result := FinishStep(from);
      return Some(result);
    }

    // -------------------------------------------------------------- checkpoints

    /** Restoring what is returned here gives this state back. */
    method TakeSnapshot<D(==)>(digest: EnvState -> D) returns (snap: Snapshot<D>)
      ensures Opened(snap, digest) == Some(s)
    {
      snap := Snapshot(s, digest(s));
    }

    /** Refuses, changing nothing, a snapshot that does not carry its state's digest. */
    method Restore<D(==)>(snap: Snapshot<D>, digest: EnvState -> D) returns (ok: bool)
      modifies this
      ensures ok == Opened(snap, digest).Some? && s == if ok then Opened(snap, digest).value else old(s)
    {
      ok := digest(snap.state) == snap.digest;
      if ok { s := snap.state; }
    }
  }

  lemma FoundNone(es: seq<Entry>, i: nat, id: EntryId, kind: EntryKind)
    requires i < |es| && FindDraft(es[..i], id, kind).None? && !IsDraft(es[i], id, kind)
    ensures FindDraft(es[..i+1], id, kind).None?
  {
    assert es[..i+1][..i] == es[..i];
  }

  lemma {:induction false} FoundFirst(es: seq<Entry>, i: nat, id: EntryId, kind: EntryKind)
    requires i < |es| && FindDraft(es[..i], id, kind).None? && IsDraft(es[i], id, kind)
    ensures FindDraft(es, id, kind) == Some(i)
    decreases |es|
  {
    if i == |es| - 1 { assert es[..i] == es[..|es|-1]; }
    else {
      var before := es[..|es|-1];
      assert before[..i] == es[..i];
      FoundFirst(before, i, id, kind);
    }
  }

  /** Adds what is not there yet, in order. */
  method Append<T(==,!new)>(xs: seq<T>, ys: seq<T>) returns (r: seq<T>)
    ensures r == AddNew(xs, ys)
  {
    r := xs;
    for i := 0 to |ys|
      invariant AddNew(r, ys[i..]) == AddNew(xs, ys)
    {
      assert ys[i..][0] == ys[i] && ys[i..][1..] == ys[i+1..];
      if ys[i] !in r { r := r + [ys[i]]; }
    }
  }
}
