/** What any number of workers, crashes, lease expiries and zombies can do to an episode - and what they cannot. */
module WorkerTheorems {
  import opened OptionType
  import opened EnvSpec
  import opened HashChain
  import opened Episode
  import opened WorkerSpec
  import opened WorkerInvariants

  // ---------------------------------------------------------------- crash refinement

  /** The row's log and checkpoint are those of an uninterrupted episode as far as it got. */
  ghost predicate Refines(lab: Lab, ep: nat, r: Row, envs: seq<EnvState>, mems: seq<Memory>) {
    r.saved.Some? &&
    var cp := r.saved.value.written;
    && IsEpisode(lab.game(ep), lab.agent(ep), cp.steps, envs, mems)
    && cp.env.state == envs[|cp.steps|]
    && Items(r.events) == envs[|cp.steps|].events && Chained(lab.hash, GENESIS, r.events)
    && (r.status == Completed ==>
          envs[|cp.steps|].done && envs[|cp.steps|].verdict.Some? && r.verdict == envs[|cp.steps|].verdict && r.cost == EpisodeCost(cp.steps))
  }

  lemma RowRefines(lab: Lab, ep: nat, r: Row) returns (envs: seq<EnvState>, mems: seq<Memory>)
    requires RowOk(lab, ep, r) && r.saved.Some?
    ensures Refines(lab, ep, r, envs, mems)
  {
    hide Chained, Items, EpisodeCost, Goes;
    var l, g, a := Restored(r.saved.value.written), lab.game(ep), lab.agent(ep);
    var m := l.mem;
    if l.pending.Some? { m :| MayAnswer(g, a, l, m); }
    assert Reached(g, a, l.steps, l.env, m);
    envs, mems :| IsEpisode(g, a, l.steps, envs, mems) && envs[|l.steps|] == l.env && mems[|l.steps|] == m;
  }

  /** At any moment of any interleaving, an episode's event rows are an unbroken chain holding exactly the log of
      one uninterrupted episode of its agent, whose records are the checkpoint's steps; executing their decisions
      in memory gives them back. A completed row holds that episode's end, verdict and cost. */
  lemma CrashRefinement(lab: Lab, n: nat, moves: seq<Move>, ys: seq<Sys>, ep: nat, r: Row)
    requires Sound(lab, n, moves, ys) && ep < |ys[|moves|].rows| && r == ys[|moves|].rows[ep]
    ensures if r.saved.None? then r.events == [] && r.status != Completed else exists envs, mems :: Refines(lab, ep, r, envs, mems)
    ensures r.saved.Some? ==>
      Play(lab.game(ep), lab.game(ep).start, Decisions(r.saved.value.written.steps))
        == Played(r.saved.value.written.env.state, r.saved.value.written.steps)
  {
    hide Sound;
    HistoryKeeps(lab, n, moves, ys, |moves|);
    hide StoredOk;
    assert RowOk(lab, ep, r);
    if r.saved.Some? {
      var envs, mems := RowRefines(lab, ep, r);
      EpisodeReplays(lab.game(ep), lab.agent(ep), r.saved.value.written.steps, envs, mems);
    }
  }

  /** A claim of an untouched checkpoint resumes exactly where the last commit left off. */
  lemma ResumeExact(lab: Lab, ep: nat, r: Row, now: int)
    requires GamesGrow(lab) && RowOk(lab, ep, r) && r.saved.Some? && r.saved.value.cp == r.saved.value.written
    requires Claimable(r, now) && r.attempt < MAX_ATTEMPTS
    ensures
      var claimed := ClaimRow(lab, r, now);
      var (p, r') := OpenClaim(lab, Claimant(ep, claimed), claimed, now);
      p.phase == Looping(Restored(r.saved.value.written)) && r' == claimed && InStep(lab, ep, p.phase.l, r')
  {
    hide Genuine;
  }

  /** A checkpoint changed behind the worker's back is never resumed from: the episode is quarantined. */
  lemma CorruptRefused(lab: Lab, ep: nat, r: Row, now: int)
    requires GamesGrow(lab) && RowOk(lab, ep, r) && r.saved.Some? && r.saved.value.cp != r.saved.value.written
    requires Claimable(r, now) && r.attempt < MAX_ATTEMPTS
    ensures
      var claimed := ClaimRow(lab, r, now);
      var (p, r') := OpenClaim(lab, Claimant(ep, claimed), claimed, now);
      p.phase == Failing && r' == claimed.(status := Quarantined)
  {
    hide Genuine;
  }

  /** The checkpoint a fresh episode commits first. */
  function FirstWritten(lab: Lab): Checkpoint {
    var l := Start(lab, 0);
    CheckpointOf(lab, l.(head := Head(GENESIS, Links(lab.hash, GENESIS, l.env.events))))
  }

  lemma FirstOpen(lab: Lab, p: Proc, r: Row, now: int)
    requires p.ep == 0 && p.phase == Claimed(None) && p.token == r.token
    ensures
      var (p', r') := OpenClaim(lab, p, r, now);
      var cp := FirstWritten(lab);
      && r' == r.(events := r'.events, saved := Some(Stored(cp, lab.digest(cp), cp)), leaseUntil := r'.leaseUntil, updated := now)
      && p'.phase.Looping? && p' == p.(phase := p'.phase)
  {
  }

  /** These states follow from these moves. */
  ghost predicate Follows(lab: Lab, moves: seq<Move>, ys: seq<Sys>) {
    |ys| == |moves| + 1 && forall i :: 0 <= i < |moves| ==> ys[i+1] == Apply(lab, ys[i], moves[i])
  }

  /** One claim that commits the first checkpoint, fails and gives its lease back. */
  lemma FirstLife(lab: Lab) returns (moves: seq<Move>, ys: seq<Sys>, r: Row, gone: Proc)
    ensures Follows(lab, moves, ys) && ys[0] == Enqueued(1) && ys[|moves|] == Sys(0, [r], [gone])
    ensures r.saved == Some(Stored(FirstWritten(lab), lab.digest(FirstWritten(lab)), FirstWritten(lab)))
    ensures r.status == Running && r.leaseUntil == Some(0) && r.attempt == 1 && r.token == 1
    ensures forall i :: 0 <= i < |moves| ==> !moves[i].Tamper?
  {
    hide FirstWritten, OpenClaim, Apply;
    var r0 := Enqueued(1).rows[0];
    var r1 := ClaimRow(lab, r0, 0);
    var p1 := Claimant(0, r1);
    FirstOpen(lab, p1, r1, 0);
    var (p2, r2) := OpenClaim(lab, p1, r1, 0);
    LoneClaim(lab, 0, r0, []);
    LoneBy(lab, 0, r1, [p1], 0, Open);
    LoneBy(lab, 0, r2, [p2], 0, Throw);
    var p3 := p2.(phase := Failing);
    LoneBy(lab, 0, r2, [p3], 0, Release);
    r, gone := r2.(leaseUntil := Some(0), updated := 0), p2.(phase := Gone);
    moves := [Claim(0), By(0, Open), By(0, Throw), By(0, Release)];
    ys := [Enqueued(1), Sys(0, [r1], [p1]), Sys(0, [r2], [p2]), Sys(0, [r2], [p3]), Sys(0, [r], [gone])];
    assert Enqueued(1).rows == [r0] && [] + [p1] == [p1] && [p1][0 := p2] == [p2] && [p2][0 := p3] == [p3] && [p3][0 := gone] == [gone];
  }

  /** Then the column is overwritten and the next claim finds out. */
  lemma SecondLife(lab: Lab, r: Row, gone: Proc, other: Checkpoint) returns (moves: seq<Move>, ys: seq<Sys>)
    requires r.saved.Some? && r.status == Running && r.leaseUntil == Some(0) && r.attempt == 1 && r.token == 1
    requires r.saved.value.digest == lab.digest(r.saved.value.written) != lab.digest(other)
    ensures Follows(lab, moves, ys) && ys[0] == Sys(0, [r], [gone]) && |ys[|moves|].rows| == 1
    ensures ys[|moves|].rows[0].saved == Some(r.saved.value.(cp := other)) && ys[|moves|].rows[0].status == Quarantined
    ensures forall i :: 0 <= i < |moves| ==> Unforged(lab, ys[i], moves[i])
  {
    hide OpenClaim;
    var r6 := r.(saved := Some(r.saved.value.(cp := other)));
    var r7 := ClaimRow(lab, r6, 1);
    var q := Claimant(0, r7);
    LoneClaim(lab, 1, r6, [gone]);
    LoneBy(lab, 1, r7, [gone, q], 1, Open);
    OpenTouched(lab, q, r7, 1);
    var r8 := r7.(status := Quarantined, updated := 1);
    moves := [Wait(1), Tamper(0, other), Claim(0), By(1, Open)];
    ys := [Sys(0, [r], [gone]), Sys(1, [r], [gone]), Sys(1, [r6], [gone]), Sys(1, [r7], [gone, q]), Sys(1, [r8], [gone, q.(phase := Failing)])];
    assert Apply(lab, ys[0], moves[0]) == ys[1] && Apply(lab, ys[1], moves[1]) == ys[2];
    hide Do, Apply;
    assert [gone] + [q] == [gone, q] && [gone, q][1 := q.(phase := Failing)] == [gone, q.(phase := Failing)];
  }

  /** The assumptions do not rule tampering out: with any digest that tells `other` from the first checkpoint, there is
      such a history in which a column is overwritten, and the episode ends in quarantine. */
  lemma TamperingSeen(lab: Lab, other: Checkpoint) returns (moves: seq<Move>, ys: seq<Sys>)
    requires GamesGrow(lab) && lab.digest(other) != lab.digest(FirstWritten(lab))
    ensures Sound(lab, 1, moves, ys) && |ys[|moves|].rows| == 1
    ensures ys[|moves|].rows[0].saved.Some? && ys[|moves|].rows[0].saved.value.cp == other != ys[|moves|].rows[0].saved.value.written
    ensures ys[|moves|].rows[0].status == Quarantined
  {
    hide GamesGrow, FirstWritten, Apply, Enqueued;
    var ms, zs, r, gone := FirstLife(lab);
    var ms', zs' := SecondLife(lab, r, gone, other);
    moves, ys := ms + ms', zs + zs'[1..];
    forall i | 0 <= i < |moves| ensures ys[i+1] == Apply(lab, ys[i], moves[i]) && Unforged(lab, ys[i], moves[i]) {
      if i >= |ms| { assert ys[i] == zs'[i - |ms|] && ys[i+1] == zs'[i + 1 - |ms|] && moves[i] == ms'[i - |ms|]; }
    }
  }

  lemma LoneClaim(lab: Lab, now: int, r: Row, procs: seq<Proc>)
    requires Claimable(r, now)
    ensures Apply(lab, Sys(now, [r], procs), Claim(0)) == Sys(now, [ClaimRow(lab, r, now)], procs + [Claimant(0, ClaimRow(lab, r, now))])
  {
  }

  lemma LoneBy(lab: Lab, now: int, r: Row, procs: seq<Proc>, pid: nat, act: Act)
    requires pid < |procs| && procs[pid].ep == 0
    ensures
      var (p', r') := Do(lab, procs[pid], r, now, act);
      Apply(lab, Sys(now, [r], procs), By(pid, act)) == Sys(now, [r'], procs[pid := p'])
  {
    hide Do;
  }

  lemma OpenTouched(lab: Lab, p: Proc, r: Row, now: int)
    requires p.phase.Claimed? && p.phase.got.Some? && lab.digest(p.phase.got.value.cp) != p.phase.got.value.digest && p.token == r.token
    ensures OpenClaim(lab, p, r, now) == (p.(phase := Failing), r.(status := Quarantined, updated := now))
  {
  }

  // ---------------------------------------------------------------- what one move may do to a row

  predicate Closed(r: Row) { r.status == Completed || r.status == Quarantined }

  /** A row's history moves one way: tokens and logs only grow, the checkpoint advances by one decision or one
      step at a time, and a closed row stays as it is (but for tampering with its checkpoint column). */
  predicate RowEvolves(r: Row, r': Row) {
    && r.token <= r'.token && r.events <= r'.events && StepsOf(r) <= StepsOf(r')
    && (r.saved.Some? ==> r'.saved.Some?)
    && (Closed(r) ==> r'.status == r.status && r'.token == r.token && r'.events == r.events && r'.verdict == r.verdict
                      && r'.cost == r.cost && StepsOf(r') == StepsOf(r))
  }

  function StepsOf(r: Row): seq<StepRecord> {
    if r.saved.None? then [] else r.saved.value.written.steps
  }

  lemma MoveEvolves(lab: Lab, y: Sys, m: Move, ep: nat)
    requires GamesGrow(lab) && Inv(lab, y) && ep < |y.rows|
    ensures RowEvolves(y.rows[ep], Apply(lab, y, m).rows[ep])
  {
    hide RowOk, Synced, GamesGrow, Do;
    if m.By? && m.pid < |y.procs| {
      var p := y.procs[m.pid];
      assert ProcOk(lab, y.rows, p);
      if p.ep == ep { DoKeeps(lab, p, y.rows[ep], y.now, m.act); }
    }
  }

  lemma {:induction false} RowsEvolve(lab: Lab, n: nat, moves: seq<Move>, ys: seq<Sys>, ep: nat, i: nat, j: nat)
    requires Sound(lab, n, moves, ys) && ep < n && i <= j <= |moves|
    ensures |ys[i].rows| == n == |ys[j].rows| && RowEvolves(ys[i].rows[ep], ys[j].rows[ep])
  {
    hide Inv, GamesGrow, Unforged, Apply;
    HistoryKeeps(lab, n, moves, ys, i);
    if i < j {
      RowsEvolve(lab, n, moves, ys, ep, i, j - 1);
      HistoryKeeps(lab, n, moves, ys, j - 1);
      HistoryKeeps(lab, n, moves, ys, j);
      MoveEvolves(lab, ys[j-1], moves[j-1], ep);
    }
  }

  // ---------------------------------------------------------------- fencing

  /** A process keeps its episode and token for good. */
  lemma {:induction false} ProcStays(lab: Lab, n: nat, moves: seq<Move>, ys: seq<Sys>, pid: nat, i: nat, j: nat)
    requires Sound(lab, n, moves, ys) && i <= j <= |moves| && pid < |ys[i].procs|
    ensures pid < |ys[j].procs| && ys[j].procs[pid].ep == ys[i].procs[pid].ep && ys[j].procs[pid].token == ys[i].procs[pid].token
  {
    hide Inv, GamesGrow, Unforged, Apply;
    if i < j {
      ProcStays(lab, n, moves, ys, pid, i, j - 1);
      HistoryKeeps(lab, n, moves, ys, j - 1);
      MoveKeepsToken(lab, ys[j-1], moves[j-1], pid);
    }
  }

  lemma MoveKeepsToken(lab: Lab, y: Sys, m: Move, pid: nat)
    requires GamesGrow(lab) && Inv(lab, y) && pid < |y.procs|
    ensures
      var y' := Apply(lab, y, m);
      pid < |y'.procs| && y'.procs[pid].ep == y.procs[pid].ep && y'.procs[pid].token == y.procs[pid].token
  {
    hide RowOk, Synced, GamesGrow, Do;
    assert ProcOk(lab, y.rows, y.procs[pid]);
    if m.By? && m.pid == pid { DoKeeps(lab, y.procs[pid], y.rows[y.procs[pid].ep], y.now, m.act); }
  }

  /** Once a newer token was issued, the holder of an older one changes no column of any row, ever again -
      whichever of the guarded writes it attempts. */
  lemma ZombiesFenced(lab: Lab, n: nat, moves: seq<Move>, ys: seq<Sys>, pid: nat, i: nat, j: nat)
    requires Sound(lab, n, moves, ys) && i <= j < |moves| && pid < |ys[i].procs|
    requires ys[i].procs[pid].ep < |ys[i].rows| && ys[i].procs[pid].token < ys[i].rows[ys[i].procs[pid].ep].token
    requires moves[j].By? && moves[j].pid == pid
    ensures |ys[j+1].rows| == |ys[j].rows| == n
    ensures forall ep :: 0 <= ep < n ==> SameColumns(ys[j].rows[ep], ys[j+1].rows[ep])
  {
    hide Inv, GamesGrow, Unforged, Apply;
    var ep := ys[i].procs[pid].ep;
    HistoryKeeps(lab, n, moves, ys, i);
    RowsEvolve(lab, n, moves, ys, ep, i, j);
    ProcStays(lab, n, moves, ys, pid, i, j);
    HistoryKeeps(lab, n, moves, ys, j);
    HistoryKeeps(lab, n, moves, ys, j + 1);
    FencedMove(lab, ys[j], pid, moves[j].act);
  }

  lemma FencedMove(lab: Lab, y: Sys, pid: nat, act: Act)
    requires GamesGrow(lab) && Inv(lab, y) && pid < |y.procs| && y.procs[pid].ep < |y.rows|
    requires y.procs[pid].token < y.rows[y.procs[pid].ep].token
    ensures forall ep :: 0 <= ep < |y.rows| ==> SameColumns(y.rows[ep], Apply(lab, y, By(pid, act)).rows[ep])
  {
    hide RowOk, Synced, GamesGrow, Do;
    assert ProcOk(lab, y.rows, y.procs[pid]);
    DoKeeps(lab, y.procs[pid], y.rows[y.procs[pid].ep], y.now, act);
  }

  /** No two processes ever hold one token of one episode. */
  lemma TokensUnique(lab: Lab, n: nat, moves: seq<Move>, ys: seq<Sys>, i: nat, j: nat)
    requires Sound(lab, n, moves, ys) && i < j < |ys[|moves|].procs|
    ensures ys[|moves|].procs[i].ep == ys[|moves|].procs[j].ep ==> ys[|moves|].procs[i].token != ys[|moves|].procs[j].token
  {
    hide Sound;
    HistoryKeeps(lab, n, moves, ys, |moves|);
  }

  // ---------------------------------------------------------------- the write-ahead bound

  function Count(procs: seq<Proc>, f: Proc -> bool): nat {
    if procs == [] then 0 else Count(procs[..|procs|-1], f) + if f(procs[|procs|-1]) then 1 else 0
  }

  lemma CountSnoc(procs: seq<Proc>, p: Proc, f: Proc -> bool)
    ensures Count(procs + [p], f) == Count(procs, f) + if f(p) then 1 else 0
  {
    assert (procs + [p])[..|procs|] == procs;
  }

  lemma {:induction false} CountUpdate(procs: seq<Proc>, i: nat, p: Proc, f: Proc -> bool)
    requires i < |procs|
    ensures Count(procs[i := p], f) == Count(procs, f) - (if f(procs[i]) then 1 else 0) + (if f(p) then 1 else 0)
    decreases |procs|
  {
    var n := |procs| - 1;
    if i < n {
      CountUpdate(procs[..n], i, p, f);
      assert procs[i := p][..n] == procs[..n][i := p];
    } else {
      assert procs[i := p][..n] == procs[..n];
    }
  }

  /** One process that is counted by `g` only makes `f` count less. */
  lemma {:induction false} CountLess(procs: seq<Proc>, f: Proc -> bool, g: Proc -> bool, i: nat)
    requires forall p :: p in procs && f(p) ==> g(p)
    requires i <= |procs| && (i < |procs| ==> g(procs[i]) && !f(procs[i]))
    ensures Count(procs, f) + (if i < |procs| then 1 else 0) <= Count(procs, g)
    decreases |procs|
  {
    if procs != [] {
      var n := |procs| - 1;
      CountLess(procs[..n], f, g, if i <= n then i else n);
    }
  }

  function RunOf(ep: nat): Proc -> bool { (p: Proc) => p.ep == ep && p.attempt <= MAX_ATTEMPTS }

  function WasteOf(ep: nat): Proc -> bool { (p: Proc) => p.ep == ep && Wasteful(p) }

  /** Decisions in the last written checkpoint: executed ones and the one still to be. */
  function Recorded(r: Row): nat {
    if r.saved.None? then 0
    else |r.saved.value.written.steps| + if r.saved.value.written.pending.Some? then 1 else 0
  }

  /** A process over the limit does nothing but give up; one that completed its episode wasted no answer. */
  predicate Orderly(p: Proc) {
    && (p.attempt > MAX_ATTEMPTS ==> (p.phase.GivingUp? || p.phase.Gone?) && !p.wasted && !p.finished)
    && (p.finished ==> !p.wasted && (p.phase.Done? || p.phase.Failing? || p.phase.Gone?))
    && (p.wasted ==> p.phase.Failing? || p.phase.Gone?)
  }

  predicate FinishedBy(procs: seq<Proc>, ep: nat, i: nat) {
    i < |procs| && procs[i].ep == ep && procs[i].finished
  }

  ghost predicate Balanced(y: Sys, ep: nat)
    requires ep < |y.rows|
  {
    var r := y.rows[ep];
    && r.asked == Recorded(r) + Count(y.procs, WasteOf(ep))
    && Count(y.procs, RunOf(ep)) == (if r.attempt <= MAX_ATTEMPTS then r.attempt else MAX_ATTEMPTS)
    && (r.status == Completed ==> exists i: nat :: FinishedBy(y.procs, ep, i))
  }

  ghost predicate Budgeted(y: Sys) {
    && (forall i :: 0 <= i < |y.procs| ==> Orderly(y.procs[i]))
    && forall ep :: 0 <= ep < |y.rows| ==> Balanced(y, ep)
  }

  function Owed(p: Proc): nat { if Wasteful(p) then 1 else 0 }

  /** A process move pays for every call of `act` with a recorded decision or with its own one wasted answer. */
  lemma DoPays(lab: Lab, p: Proc, r: Row, now: int, act: Act)
    requires GamesGrow(lab) && RowOk(lab, p.ep, r) && Synced(lab, p, r) && Orderly(p)
    ensures
      var (p', r') := Do(lab, p, r, now, act);
      && r'.asked - Recorded(r') - Owed(p') == r.asked - Recorded(r) - Owed(p)
      && r'.attempt == r.attempt && Orderly(p') && p'.attempt == p.attempt && p'.ep == p.ep
      && (p.finished ==> p'.finished) && (r'.status == Completed ==> r.status == Completed || p'.finished)
  {
    hide Genuine, Links, Head, EpisodeCost, RecordOf;
  }

  lemma ByPays(lab: Lab, y: Sys, pid: nat, act: Act)
    requires GamesGrow(lab) && Inv(lab, y) && Budgeted(y)
    ensures Budgeted(Apply(lab, y, By(pid, act)))
  {
    hide RowOk, Synced, GamesGrow, Do, Recorded, Count, Wasteful;
    if pid < |y.procs| {
      var p := y.procs[pid];
      assert ProcOk(lab, y.rows, p);
      var (p', r') := Do(lab, p, y.rows[p.ep], y.now, act);
      DoPays(lab, p, y.rows[p.ep], y.now, act);
      var y' := Apply(lab, y, By(pid, act));
      forall ep | 0 <= ep < |y'.rows| ensures Balanced(y', ep) {
        assert Balanced(y, ep);
        CountUpdate(y.procs, pid, p', WasteOf(ep));
        CountUpdate(y.procs, pid, p', RunOf(ep));
        if r'.status == Completed && ep == p.ep && y.rows[ep].status != Completed { assert FinishedBy(y'.procs, ep, pid); }
        else if y.rows[ep].status == Completed {
          var i: nat :| FinishedBy(y.procs, ep, i);
          assert FinishedBy(y'.procs, ep, i);
        }
      }
    }
  }

  lemma ClaimPays(lab: Lab, y: Sys, ep: nat)
    requires Inv(lab, y) && Budgeted(y)
    ensures Budgeted(Apply(lab, y, Claim(ep)))
  {
    hide RowOk, Synced, Count;
    if ep < |y.rows| && Claimable(y.rows[ep], y.now) {
      var y' := Apply(lab, y, Claim(ep));
      forall e | 0 <= e < |y'.rows| ensures Balanced(y', e) {
        assert Balanced(y, e);
        CountSnoc(y.procs, y'.procs[|y.procs|], WasteOf(e));
        CountSnoc(y.procs, y'.procs[|y.procs|], RunOf(e));
        if y'.rows[e].status == Completed {
          var i: nat :| FinishedBy(y.procs, e, i);
          assert FinishedBy(y'.procs, e, i);
        }
      }
    }
  }

  lemma ApplyPays(lab: Lab, y: Sys, m: Move)
    requires GamesGrow(lab) && Inv(lab, y) && Budgeted(y)
    ensures Budgeted(Apply(lab, y, m))
  {
    hide RowOk, Synced, Orderly, Count, Do;
    match m
    case Claim(ep) => ClaimPays(lab, y, ep);
    case By(pid, act) => ByPays(lab, y, pid, act);
    case _ =>
      forall e | 0 <= e < |y.rows| ensures Balanced(Apply(lab, y, m), e) { assert Balanced(y, e); }
  }

  lemma {:induction false} HistoryPays(lab: Lab, n: nat, moves: seq<Move>, ys: seq<Sys>, k: nat)
    requires Sound(lab, n, moves, ys) && k <= |moves|
    ensures Inv(lab, ys[k]) && Budgeted(ys[k]) && |ys[k].rows| == n
  {
    hide Inv, GamesGrow, Unforged, Apply, Balanced;
    HistoryKeeps(lab, n, moves, ys, k);
    if k == 0 { EnqueuedPays(n); }
    else {
      HistoryPays(lab, n, moves, ys, k - 1);
      ApplyPays(lab, ys[k-1], moves[k-1]);
    }
  }

  lemma EnqueuedPays(n: nat)
    ensures Budgeted(Enqueued(n))
  {
  }

  /** No episode is run more than MAX_ATTEMPTS times; each run asks the agent at most once in vain, and the run that
      completes never does: a completed episode cost at most its steps plus its earlier runs in calls of the agent. */
  lemma WriteAheadBound(lab: Lab, n: nat, moves: seq<Move>, ys: seq<Sys>, y: Sys, ep: nat)
    requires Sound(lab, n, moves, ys) && y == ys[|moves|] && ep < |y.rows|
    ensures Count(y.procs, RunOf(ep)) <= MAX_ATTEMPTS && Count(y.procs, RunOf(ep)) <= y.rows[ep].attempt
    ensures y.rows[ep].asked <= Recorded(y.rows[ep]) + Count(y.procs, RunOf(ep))
    ensures y.rows[ep].status == Completed ==> y.rows[ep].asked <= |StepsOf(y.rows[ep])| + Count(y.procs, RunOf(ep)) - 1
  {
    hide Sound, Inv, Count;
    HistoryPays(lab, n, moves, ys, |moves|);
    assert Balanced(y, ep);
    CountLess(y.procs, WasteOf(ep), RunOf(ep), |y.procs|);
    if y.rows[ep].status == Completed {
      var i: nat :| FinishedBy(y.procs, ep, i);
      CountLess(y.procs, WasteOf(ep), RunOf(ep), i);
      CompletedHasNone(lab, ep, y);
    }
  }

  lemma CompletedHasNone(lab: Lab, ep: nat, y: Sys)
    requires Inv(lab, y) && ep < |y.rows| && y.rows[ep].status == Completed
    ensures Recorded(y.rows[ep]) == |StepsOf(y.rows[ep])|
  {
    hide StoredOk;
    assert RowOk(lab, ep, y.rows[ep]);
  }
}
