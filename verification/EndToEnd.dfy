/** The worker, the environment and the judge together. */
module EndToEnd {
  import opened Contracts
  import opened JudgeSpec
  import opened EnvSpec
  import opened EventLog
  import opened EnvTheorems
  import opened JudgeTheorems
  import opened HashChain
  import opened Episode
  import opened WorkerSpec
  import opened WorkerInvariants
  import opened WorkerTheorems

  /** The environment meets what the worker assumes of it. */
  lemma GameLogsGrow(w: World)
    requires w.scenario.script != []
    ensures LogsGrow(GameOf(w))
  {
    hide DoTool, DoMessage, Judge, Reset;
  }

  function Actions(recs: seq<StepRecord>): (acts: seq<Action>)
    ensures |acts| == |recs|
  {
    seq(|recs|, i requires 0 <= i < |recs| => recs[i].decision.action)
  }

  lemma EpisodeIsRun(w: World, a: Agent, recs: seq<StepRecord>, envs: seq<EnvState>, mems: seq<Memory>)
    requires w.scenario.script != [] && IsEpisode(GameOf(w), a, recs, envs, mems)
    ensures IsRun(w, true, Actions(recs), envs)
  {
    hide Step, Reset, RecordOf;
    forall i | 0 <= i < |recs| ensures !envs[i].done && envs[i+1] == Step(w, envs[i], Actions(recs)[i]) {
      assert Goes(GameOf(w), a, envs[i], mems[i], recs[i], envs[i+1], mems[i+1]);
    }
  }

  /** What the worker's theorems assume is met by every history of rehearsal episodes whose checkpoints nobody touches,
      whatever the digest. */
  lemma UntouchedSound(lab: Lab, worlds: nat -> World, n: nat, moves: seq<Move>, ys: seq<Sys>)
    requires forall ep :: worlds(ep).scenario.script != []
    requires forall ep :: lab.game(ep) == GameOf(worlds(ep))
    requires IsHistory(lab, n, moves, ys) && forall i :: 0 <= i < |moves| ==> !moves[i].Tamper?
    ensures Sound(lab, n, moves, ys)
  {
    hide GameOf, IsHistory;
    forall ep ensures LogsGrow(lab.game(ep)) { GameLogsGrow(worlds(ep)); }
  }

  /** And by one in which somebody does: the episode ends in quarantine. */
  lemma TouchedSound(w: World, a: Agent) returns (lab: Lab, moves: seq<Move>, ys: seq<Sys>)
    requires w.scenario.script != []
    ensures lab.game(0) == GameOf(w) && Sound(lab, 1, moves, ys) && |ys[|moves|].rows| == 1
    ensures var r := ys[|moves|].rows[0]; r.status == Quarantined && r.saved.Some? && r.saved.value.cp != r.saved.value.written
  {
    hide GameOf, Sound;
    lab := Lab(_ => GameOf(w), _ => a, (p, e) => p + "1", s => "", (cp: Checkpoint) => cp.head, 30);
    assert GamesGrow(lab) by { GameLogsGrow(w); }
    var first := FirstWritten(lab);
    moves, ys := TamperingSeen(lab, first.(head := first.head + "x"));
  }

  /** Through any crashes and take-overs, the stored events of an episode are numbered without gap or repeat. */
  lemma StoredNumbered(lab: Lab, n: nat, moves: seq<Move>, ys: seq<Sys>, ep: nat, w: World, r: Row)
    requires Sound(lab, n, moves, ys) && ep < |ys[|moves|].rows| && r == ys[|moves|].rows[ep]
    requires w.scenario.script != [] && lab.game(ep) == GameOf(w)
    ensures Numbered(Items(r.events))
  {
    hide Sound, GameOf, Faithful, IsRun, Goes, RowOk, Inv;
    CrashRefinement(lab, n, moves, ys, ep, r);
    if r.saved.Some? {
      var recs := r.saved.value.written.steps;
      var envs, mems :| Refines(lab, ep, r, envs, mems);
      EpisodeIsRun(w, lab.agent(ep), recs, envs, mems);
      RunKeeps(w, true, Actions(recs), envs, |recs|);
      LogNumbered(w, envs[|recs|]);
    }
  }

  /** A completed row that says "passed" is to be believed: by its stored log, every confirmed entry was drafted,
      then covered by an owner confirmation and by an explicit yes, and saved with no correction in between, and the books the log
      tells of hold exactly the expected entries - whatever crashed on the way. */
  lemma PassedMeansApproved(lab: Lab, n: nat, moves: seq<Move>, ys: seq<Sys>, ep: nat, w: World, r: Row, log: seq<Event>)
    requires Sound(lab, n, moves, ys) && ep < |ys[|moves|].rows| && r == ys[|moves|].rows[ep]
    requires w.scenario.script != [] && lab.game(ep) == GameOf(w)
    requires r.status == Completed && r.verdict.Some? && r.verdict.value.passed && log == Items(r.events)
    ensures forall q, id :: ConfirmAt(log, q, id) ==>
      && (exists p, k :: OwnerApproved(w, log, p, k, q, id))
      && (exists p, k :: DraftAt(log, p, id) && p < k < q && YesAt(w, log, k))
    ensures multiset(Actual(EntriesOf(BookOf(w, log).items))) == multiset(w.scenario.oracle.expected)
  {
    hide Sound, GameOf, Faithful, IsRun, Goes, BookOf, Actual, OwnerApproved, YesAt, RowOk, Inv;
    CrashRefinement(lab, n, moves, ys, ep, r);
    var recs := r.saved.value.written.steps;
    var envs, mems :| Refines(lab, ep, r, envs, mems);
    var s := envs[|recs|];
    EpisodeIsRun(w, lab.agent(ep), recs, envs, mems);
    JudgeSound(w, true, Actions(recs), envs, s);
    LogDeterminesLedger(w, true, Actions(recs), envs, s);
    forall q, id | ConfirmAt(log, q, id) ensures exists p, k :: DraftAt(log, p, id) && p < k < q && YesAt(w, log, k) {
      ConfirmGuard(w, Actions(recs), envs, s, q, id);
    }
  }
}
