/** The worker as the source runs it: `claim`, `commit`, `runClaimed` and `workLoop` over a shared database that
    other workers change between any two of its transactions. Everything it does is a sequence of the moves of
    `WorkerSpec`, so what holds of every history holds of it. It ends if the others' moves do and if its agents' answers
    do not fail the action schema for ever. */
module WorkerRun {
  import opened OptionType
  import opened Contracts
  import opened JudgeSpec
  import opened EnvSpec
  import opened HashChain
  import opened Episode
  import opened WorkerSpec
  import opened WorkerInvariants

  /** The state after these moves. */
  function Run(lab: Lab, y: Sys, ms: seq<Move>): Sys {
    if ms == [] then y else Apply(lab, Run(lab, y, ms[..|ms|-1]), ms[|ms|-1])
  }

  lemma RunSnoc(lab: Lab, y: Sys, ms: seq<Move>, m: Move)
    ensures Run(lab, y, ms + [m]) == Apply(lab, Run(lab, y, ms), m)
  {
    assert (ms + [m])[..|ms|] == ms;
  }

  /** A run is a history in the sense of the theorems. */
  lemma {:induction false} RunIsHistory(lab: Lab, n: nat, ms: seq<Move>) returns (ys: seq<Sys>)
    ensures IsHistory(lab, n, ms, ys) && ys[|ms|] == Run(lab, Enqueued(n), ms)
  {
    hide Apply, Enqueued;
    if ms == [] { ys := [Enqueued(n)]; }
    else {
      var before := ms[..|ms|-1];
      var zs := RunIsHistory(lab, n, before);
      ys := zs + [Apply(lab, zs[|before|], ms[|before|])];
    }
  }

  // ---------------------------------------------------------------- how much work is left

  /** An open episode counts one, and one more for every attempt it has left. */
  function Weight(r: Row): nat {
    if r.status == Queued || r.status == Running then 1 + (if r.attempt <= MAX_ATTEMPTS then MAX_ATTEMPTS + 1 - r.attempt else 0) else 0
  }

  function Work(rows: seq<Row>): nat {
    if rows == [] then 0 else Work(rows[..|rows|-1]) + Weight(rows[|rows|-1])
  }

  lemma {:induction false} WorkUpdate(rows: seq<Row>, i: nat, r: Row)
    requires i < |rows|
    ensures Work(rows[i := r]) == Work(rows) - Weight(rows[i]) + Weight(r)
    decreases |rows|
  {
    var n := |rows| - 1;
    if i < n {
      WorkUpdate(rows[..n], i, r);
      assert rows[i := r][..n] == rows[..n][i := r];
    } else {
      assert rows[i := r][..n] == rows[..n];
    }
  }

  lemma ActWeighs(lab: Lab, p: Proc, r: Row, now: int, act: Act)
    ensures Weight(Do(lab, p, r, now, act).1) <= Weight(r)
  {
    hide Links, Head, CheckpointOf, RecordOf, EpisodeCost;
  }

  /** No move makes more work. */
  lemma MoveWork(lab: Lab, y: Sys, m: Move)
    ensures Work(Apply(lab, y, m).rows) <= Work(y.rows)
  {
    hide Do, Work, Weight;
    match m
    case Claim(ep) =>
      if ep < |y.rows| && Claimable(y.rows[ep], y.now) {
        WorkUpdate(y.rows, ep, ClaimRow(lab, y.rows[ep], y.now));
        assert Weight(ClaimRow(lab, y.rows[ep], y.now)) <= Weight(y.rows[ep]) by { ClaimWeighs(lab, y.rows[ep], y.now); }
      }
    case By(pid, act) =>
      if pid < |y.procs| && y.procs[pid].ep < |y.rows| {
        var p := y.procs[pid];
        ActWeighs(lab, p, y.rows[p.ep], y.now, act);
        WorkUpdate(y.rows, p.ep, Do(lab, p, y.rows[p.ep], y.now, act).1);
      }
    case Tamper(ep, cp) =>
      if ep < |y.rows| && y.rows[ep].saved.Some? {
        var r := y.rows[ep].(saved := Some(y.rows[ep].saved.value.(cp := cp)));
        WorkUpdate(y.rows, ep, r);
        assert Weight(r) == Weight(y.rows[ep]) by { SameWeight(y.rows[ep], r); }
      }
    case _ =>
  }

  lemma SameWeight(r: Row, r': Row)
    requires r'.status == r.status && r'.attempt == r.attempt
    ensures Weight(r') == Weight(r)
  {
  }

  /** A claim within the limit uses up an attempt. */
  lemma ClaimWeighs(lab: Lab, r: Row, now: int)
    requires Claimable(r, now)
    ensures Weight(ClaimRow(lab, r, now)) <= Weight(r)
    ensures ClaimRow(lab, r, now).attempt <= MAX_ATTEMPTS + 1 ==> Weight(ClaimRow(lab, r, now)) < Weight(r)
  {
  }

  // ---------------------------------------------------------------- the database and its workers

  /** What an agent answers when asked; a call may also fail. */
  datatype Answer = Answer(d: Decision, mem: Memory) | NoAnswer

  predicate Rejects(a: Answer) { a.Answer? && a.d.action.Rejected? }

  /** From call `i` on, some call does something other than failing the action schema. */
  ghost predicate Later(answers: nat -> Answer, i: nat) { exists k: nat :: k >= i && !Rejects(answers(k)) }

  /** The agents do not fail the schema for ever: what it takes, exactly, for an episode to come to an end
      (`EnvTheorems.EndsUnlessRejected`). */
  ghost predicate Responsive(answers: nat -> Answer) { forall i: nat :: Later(answers, i) }

  /** Every step is counted, and from the last one on only a rejected action leaves the episode open. */
  ghost predicate Limited(g: Game) {
    forall s: EnvState, a: Action ::
      g.step(s, a).step == s.step + 1 && (s.step + 1 >= MAX_STEPS && !a.Rejected? ==> g.step(s, a).done)
  }

  /** The rehearsal environment is limited in that way. */
  lemma GameLimited(w: World)
    requires w.scenario.script != []
    ensures Limited(GameOf(w))
  {
    hide DoTool, DoMessage, Judge, Reset;
  }

  function StepsLeft(s: EnvState): nat {
    if s.step + 1 < MAX_STEPS then MAX_STEPS - 1 - s.step else 0
  }

  predicate Shut(r: Row) { r.status == Completed || r.status == Quarantined }

  /** Process `pid` holds episode `ep`: it has the row's token. */
  predicate HeldBy(y: Sys, pid: nat, ep: nat) {
    pid < |y.procs| && ep < |y.rows| && y.procs[pid].ep == ep && y.procs[pid].token == y.rows[ep].token
  }

  /** Process `pid` can do nothing more: it lost its episode, closed it, or its lease ran out. */
  predicate Over(y: Sys, pid: nat) {
    pid < |y.procs| && y.procs[pid].ep < |y.rows| &&
    var r := y.rows[y.procs[pid].ep];
    y.procs[pid].token < r.token || Shut(r) || (r.leaseUntil.Some? && r.leaseUntil.value < y.now)
  }

  class Database {
    const lab: Lab
    const n: nat
    /** What this worker's agents answer, call by call. */
    const answers: nat -> Answer
    var calls: nat
    var now: int
    var rows: seq<Row>
    var procs: seq<Proc>
    /** What others do between this worker's transactions, batch by batch. */
    var others: seq<seq<Move>>
    /** This worker's processes that have ended. */
    var mine: set<nat>
    /** Every move so far, this worker's and others'. */
    ghost var trace: seq<Move>

    ghost function State(): Sys
      reads this
    {
      Sys(now, rows, procs)
    }

    /** The state is what the moves so far make of the enqueued episodes. */
    ghost predicate Valid()
      reads this
    {
      State() == Run(lab, Enqueued(n), trace) && Shaped(State(), n) && forall pid :: pid in mine ==> Over(State(), pid)
    }

    /** One move was made, and only that. */
    twostate predicate Took(m: Move)
      reads this
    {
      State() == Apply(lab, old(State()), m) && trace == old(trace) + [m] && others == old(others) && mine == old(mine)
    }

    /** Nobody else is there or will come: all processes but this one were this worker's and have ended. */
    ghost predicate AloneWith(pid: nat)
      reads this
    {
      others == [] && forall i: nat :: i < |procs| ==> i in mine || i == pid
    }

    constructor (lab: Lab, n: nat, others: seq<seq<Move>>, answers: nat -> Answer)
      ensures Valid() && this.lab == lab && this.n == n && State() == Enqueued(n) && trace == [] && mine == {} && calls == 0
      ensures this.others == others && this.answers == answers
    {
      this.lab, this.n, this.others, this.answers, this.calls := lab, n, others, answers, 0;
      now, rows, procs, trace, mine := 0, Enqueued(n).rows, [], [], {};
    }

    /** Others' batch of moves; none of them is this worker's own. */
    method Interfere(me: nat)
      requires Valid() && me < |procs|
      modifies this
      ensures Valid() && |procs| >= |old(procs)| && procs[me] == old(procs[me]) && calls == old(calls) && mine == old(mine)
      ensures others == if old(others) == [] then [] else old(others)[1..]
      ensures old(others) == [] ==> State() == old(State())
      ensures Work(rows) <= Work(old(rows))
    {
      hide Run, Apply, Work, Shaped, Over;
      if others == [] { return; }
      var batch := others[0];
      others := others[1..];
      for i := 0 to |batch|
        invariant Valid() && |procs| >= |old(procs)| && procs[me] == old(procs[me]) && calls == old(calls) && mine == old(mine)
        invariant others == old(others)[1..] && Work(rows) <= Work(old(rows))
      {
        if !(batch[i].By? && (batch[i].pid == me || batch[i].pid in mine)) {
          ProcsStay(lab, State(), batch[i], n);
          Moved(lab, n, trace, State(), batch[i], mine);
          var y := Apply(lab, Sys(now, rows, procs), batch[i]);
          now, rows, procs := y.now, y.rows, y.procs;
          trace := trace + [batch[i]];
        }
      }
    }

    /** The clock moves on between two statements. */
    method Tick()
      requires Valid()
      modifies this`now, this`trace
      ensures Valid() && now == old(now) + 1 && trace == old(trace) + [Wait(1)]
    {
      hide Run, Work, Shaped, Over;
      Moved(lab, n, trace, State(), Wait(1), mine);
      now, trace := now + 1, trace + [Wait(1)];
    }

    // -------------------------------------------------------------- claim

    /** Of the rows that may be claimed, the one longest untouched. */
    method NextClaimable() returns (ep: Option<nat>)
      ensures ep.Some? ==> ep.value < |rows| && Claimable(rows[ep.value], now)
      ensures ep.Some? ==> forall i :: 0 <= i < |rows| && Claimable(rows[i], now) ==> rows[ep.value].updated <= rows[i].updated
      ensures ep.None? ==> forall i :: 0 <= i < |rows| ==> !Claimable(rows[i], now)
    {
      ep := None;
      for i := 0 to |rows|
        invariant ep.Some? ==> ep.value < i && Claimable(rows[ep.value], now)
        invariant ep.Some? ==> forall j :: 0 <= j < i && Claimable(rows[j], now) ==> rows[ep.value].updated <= rows[j].updated
        invariant ep.None? ==> forall j :: 0 <= j < i ==> !Claimable(rows[j], now)
      {
        if Claimable(rows[i], now) && (ep.None? || rows[i].updated < rows[ep.value].updated) { ep := Some(i); }
      }
    }

    method TakeClaim(ep: nat) returns (pid: nat)
      requires Valid() && ep < |rows| && Claimable(rows[ep], now)
      modifies this`rows, this`procs, this`trace
      ensures Took(Claim(ep)) && pid == |old(procs)|
    {
      var r := ClaimRow(lab, rows[ep], now);
      rows, pid := rows[ep := r], |procs|;
      procs := procs + [Claimant(ep, r)];
      trace := trace + [Claim(ep)];
    }

    method GiveUpOn(pid: nat)
      requires Valid() && pid < |procs| && procs[pid].phase.GivingUp?
      modifies this`rows, this`procs, this`trace
      ensures Took(By(pid, GiveUp)) && |procs| == |old(procs)| && Over(State(), pid)
    {
      var p := procs[pid];
      if rows[p.ep].token == p.token { rows := rows[p.ep := rows[p.ep].(status := Quarantined, updated := now)]; }
      procs := procs[pid := p.(phase := Gone)];
      trace := trace + [By(pid, GiveUp)];
    }

    /** Claims an episode for a new process; episodes past their last attempt are quarantined on the way. */
    method ClaimEpisode() returns (pid: Option<nat>)
      requires Valid()
      modifies this
      ensures Valid() && calls == old(calls) && |others| <= |old(others)| && old(mine) <= mine
      ensures pid.None? ==> (forall i :: 0 <= i < |rows| ==> !Claimable(rows[i], now)) && Work(rows) <= Work(old(rows))
      ensures pid.Some? ==>
        && pid.value < |procs| && procs[pid.value].phase.Claimed? && pid.value !in mine
        && (|others| < |old(others)| || Work(rows) < Work(old(rows)))
      ensures old(AloneWith(|procs|)) ==> AloneWith(if pid.Some? then pid.value else |procs|)
      decreases |others|, Work(rows)
    {
      hide Run, Apply, Work, Weight, Shaped, Over;
      var ep := NextClaimable();
      if ep.None? { return None; }
      ghost var y, t := State(), trace;
      var me := TakeClaim(ep.value);
      Moved(lab, n, t, y, Claim(ep.value), mine);
      ClaimTaken(lab, y, ep.value);
      assert me !in mine by { OverInside(y, me, mine); }
      if procs[me].phase.GivingUp? {
        Interfere(me);
        ghost var z, before := State(), trace;
        GiveUpOn(me);
        MovedBy(lab, n, before, z, By(me, GiveUp), mine, me);
        mine := mine + {me};
        if old(others) == [] { GivenUp(lab, y, ep.value); }
        pid := ClaimEpisode();
        return;
      }
      return Some(me);
    }

    // -------------------------------------------------------------- runClaimed

    /** One transaction: fence first, then events, checkpoint and lease; `None` is a lost lease. */
    method CommitTx(pid: nat, l: Local, events: seq<Event>) returns (head: Option<string>)
      requires pid < |procs| && procs[pid].ep < |rows|
      modifies this`rows
      ensures
        var ep := procs[pid].ep;
        match Commit(lab, procs[pid].token, old(rows)[ep], now, l, events)
        case None => head == None && rows == old(rows) && !HeldBy(State(), pid, ep)
        case Some((r, l')) => head == Some(l'.head) && l' == l.(head := l'.head) && rows == old(rows)[ep := r]
    {
      var ep := procs[pid].ep;
      var r := rows[ep];
      if r.token != procs[pid].token { return None; }
      var stored, newHead := HashChain.Append(lab.hash, r.events, events, l.head);
      var cp := CheckpointOf(lab, l.(head := newHead));
      rows := rows[ep := r.(events := stored, saved := Some(Stored(cp, lab.digest(cp), cp)), leaseUntil := Some(now + lab.lease), updated := now)];
      return Some(newHead);
    }

    /** A process that is gone lost its episode to a newer token. */
    ghost predicate LostIfGone(pid: nat)
      requires pid < |procs|
      reads this
    {
      procs[pid].phase.Gone? ==> !HeldBy(State(), pid, procs[pid].ep)
    }

    /** Starts a fresh episode or restores a verified checkpoint. */
    method OpenEpisode(pid: nat)
      requires Valid() && pid < |procs| && procs[pid].phase.Claimed?
      modifies this`rows, this`procs, this`trace
      ensures Took(By(pid, Open))
      ensures |procs| == |old(procs)| && (procs[pid].phase.Looping? || procs[pid].phase.Gone? || procs[pid].phase.Failing?) && LostIfGone(pid)
    {
      var p := procs[pid];
      if p.phase.got.None? {
        var l := Start(lab, p.ep);
        var head := CommitTx(pid, l, l.env.events);
        procs := procs[pid := p.(phase := if head.None? then Gone else Looping(l.(head := head.value)))];
      } else {
        var saved := p.phase.got.value;
        if lab.digest(saved.cp) != saved.digest {
          if rows[p.ep].token == p.token { rows := rows[p.ep := rows[p.ep].(status := Quarantined, updated := now)]; }
          procs := procs[pid := p.(phase := Failing)];
        } else if lab.stateDigest(saved.cp.env.state) != saved.cp.env.digest {
          procs := procs[pid := p.(phase := Failing)];
        } else {
          procs := procs[pid := p.(phase := Looping(Local(saved.cp.env.state, saved.cp.mem, saved.cp.steps, saved.cp.head, saved.cp.pending)))];
        }
      }
      trace := trace + [By(pid, Open)];
    }

    /** The call of the agent, counted when it is made. */
    method CallAgent(pid: nat)
      requires Valid() && pid < |procs| && procs[pid].phase.Looping? && procs[pid].phase.l.pending.None? && !procs[pid].phase.l.env.done
      modifies this`rows, this`procs, this`trace
      ensures Took(By(pid, Ask)) && |procs| == |old(procs)| && procs[pid] == old(procs[pid]).(phase := Asking(old(procs[pid]).phase.l))
    {
      var p := procs[pid];
      rows := rows[p.ep := rows[p.ep].(asked := rows[p.ep].asked + 1)];
      procs := procs[pid := p.(phase := Asking(p.phase.l))];
      trace := trace + [By(pid, Ask)];
    }

    /** The call returns or throws; what the agent would never answer counts as a failed call. */
    method HearAgent(pid: nat)
      requires Valid() && pid < |procs| && procs[pid].phase.Asking?
      modifies this`procs, this`trace, this`calls
      ensures exists act :: State() == Apply(lab, old(State()), By(pid, act)) && trace == old(trace) + [By(pid, act)]
      ensures calls == old(calls) + 1 && |procs| == |old(procs)|
      ensures procs[pid].phase.Failing? ||
        (answers(old(calls)).Answer? && procs[pid] == old(procs[pid]).(phase := Answered(old(procs[pid]).phase.l, answers(old(calls)).d, answers(old(calls)).mem)))
    {
      var p, a := procs[pid], answers(calls);
      calls := calls + 1;
      assert rows[p.ep := rows[p.ep]] == rows;
      if a.Answer? && lab.agent(p.ep).may(p.phase.l.mem, Observe(p.phase.l.env), a.d, a.mem) {
        procs := procs[pid := p.(phase := Answered(p.phase.l, a.d, a.mem))];
        trace := trace + [By(pid, Think(a.d, a.mem))];
        assert State() == Apply(lab, old(State()), By(pid, Think(a.d, a.mem)));
      } else {
        procs := procs[pid := p.(phase := Failing, wasted := true)];
        trace := trace + [By(pid, Throw)];
        assert State() == Apply(lab, old(State()), By(pid, Throw));
      }
    }

    /** The write-ahead commit of the agent's answer. */
    method RecordIt(pid: nat)
      requires Valid() && pid < |procs| && procs[pid].phase.Answered?
      modifies this`rows, this`procs, this`trace
      ensures Took(By(pid, RecordDecision)) && |procs| == |old(procs)| && LostIfGone(pid) && procs[pid].ep == old(procs[pid]).ep
      ensures procs[pid].phase.Gone? ||
        (procs[pid].phase.Looping? && procs[pid].phase.l.pending == Some(old(procs[pid]).phase.d) && procs[pid].phase.l.env == old(procs[pid]).phase.l.env)
    {
      var p := procs[pid];
      var l := p.phase.l.(mem := p.phase.mem, pending := Some(p.phase.d));
      var head := CommitTx(pid, l, []);
      procs := procs[pid := if head.None? then p.(phase := Gone, wasted := true) else p.(phase := Looping(l.(head := head.value)))];
      trace := trace + [By(pid, RecordDecision)];
    }

    /** Executes the recorded decision and commits the step. */
    method ExecuteIt(pid: nat)
      requires Valid() && pid < |procs| && procs[pid].phase.Looping? && procs[pid].phase.l.pending.Some? && !procs[pid].phase.l.env.done
      modifies this`rows, this`procs, this`trace
      ensures Took(By(pid, Execute)) && |procs| == |old(procs)| && LostIfGone(pid) && procs[pid].ep == old(procs[pid]).ep
      ensures procs[pid].phase.Gone? ||
        (procs[pid].phase.Looping? && procs[pid].phase.l.pending.None?
         && procs[pid].phase.l.env == lab.game(procs[pid].ep).step(old(procs[pid]).phase.l.env, old(procs[pid]).phase.l.pending.value.action))
    {
      var p := procs[pid];
      var l, g := p.phase.l, lab.game(p.ep);
      var rec := RecordOf(g, l.env, l.pending.value);
      var after := l.(env := g.step(l.env, l.pending.value.action), steps := l.steps + [rec], pending := None);
      var head := CommitTx(pid, after, rec.events);
      procs := procs[pid := p.(phase := if head.None? then Gone else Looping(after.(head := head.value)))];
      trace := trace + [By(pid, Execute)];
    }

    /** Writes the verdict, if the lease still holds. */
    method CompleteIt(pid: nat) returns (finished: bool)
      requires Valid() && pid < |procs| && procs[pid].phase.Looping? && procs[pid].phase.l.env.done
      modifies this`rows, this`procs, this`trace
      ensures Took(By(pid, Finish)) && |procs| == |old(procs)| && finished == procs[pid].phase.Done? && LostIfGone(pid)
      ensures procs[pid].phase.Done? || procs[pid].phase.Gone? || procs[pid].phase.Failing?
      ensures finished ==> rows[procs[pid].ep].status == Completed && rows[procs[pid].ep].verdict == old(procs[pid].phase.l.env.verdict)
    {
      var p := procs[pid];
      var l, r := p.phase.l, rows[p.ep];
      finished := l.env.verdict.Some? && r.token == p.token;
      if finished {
        rows := rows[p.ep := r.(status := Completed, verdict := l.env.verdict, cost := EpisodeCost(l.steps), leaseUntil := None, updated := now)];
        procs := procs[pid := p.(phase := Done, finished := true)];
      } else {
        procs := procs[pid := p.(phase := if l.env.verdict.None? then Failing else Gone)];
      }
      trace := trace + [By(pid, Finish)];
    }

    /** Asks for a decision and records it, or does not get that far. */
    method Decide(pid: nat)
      requires Valid() && pid < |procs| && procs[pid].phase.Looping? && procs[pid].phase.l.pending.None? && !procs[pid].phase.l.env.done && pid !in mine
      modifies this
      ensures Valid() && |others| <= |old(others)| && Work(rows) <= Work(old(rows)) && pid < |procs| && mine == old(mine)
      ensures (old(others) == [] ==> |procs| == |old(procs)|) && LostIfGone(pid) && procs[pid].ep == old(procs[pid]).ep
      ensures procs[pid].phase.Gone? || procs[pid].phase.Failing? ||
        (procs[pid].phase.Looping? && calls == old(calls) + 1 && answers(old(calls)).Answer?
         && procs[pid].phase.l.pending == Some(answers(old(calls)).d) && procs[pid].phase.l.env == old(procs[pid]).phase.l.env)
    {
      hide Run, Apply, Work, Commit, Shaped, Over;
      ghost var y, t := State(), trace;
      CallAgent(pid);
      MovedBy(lab, n, t, y, By(pid, Ask), mine, pid);
      Interfere(pid);
      y, t := State(), trace;
      HearAgent(pid);
      ghost var act :| State() == Apply(lab, y, By(pid, act)) && trace == t + [By(pid, act)];
      MovedBy(lab, n, t, y, By(pid, act), mine, pid);
      if procs[pid].phase.Failing? {
        ProcStays(lab, y, pid, act);
        return;
      }
      Interfere(pid);
      y, t := State(), trace;
      RecordIt(pid);
      MovedBy(lab, n, t, y, By(pid, RecordDecision), mine, pid);
    }

    /** One pass of the loop: the recovered decision, or a fresh one recorded first, is executed. */
    method OneStep(pid: nat)
      requires Valid() && pid < |procs| && procs[pid].phase.Looping? && !procs[pid].phase.l.env.done && pid !in mine
      modifies this
      ensures Valid() && |others| <= |old(others)| && Work(rows) <= Work(old(rows)) && pid < |procs| && mine == old(mine)
      ensures (old(others) == [] ==> |procs| == |old(procs)|) && LostIfGone(pid) && procs[pid].ep == old(procs[pid]).ep
      ensures procs[pid].phase.Gone? || procs[pid].phase.Failing? ||
        (procs[pid].phase.Looping? && procs[pid].phase.l.pending.None? && Executed(lab.game(procs[pid].ep), old(procs[pid]).phase.l, old(calls), procs[pid].phase.l.env, calls))
    {
      hide Run, Apply, Work, Commit, Shaped, Over;
      if procs[pid].phase.l.pending.None? {
        Interfere(pid);
        Decide(pid);
        if !procs[pid].phase.Looping? { return; }
      }
      Interfere(pid);
      ghost var y, t := State(), trace;
      ExecuteIt(pid);
      MovedBy(lab, n, t, y, By(pid, Execute), mine, pid);
    }

    /** From `l`, one step brought the environment to `env`: the recovered decision's without a call, or the answer's. */
    predicate Executed(g: Game, l: Local, before: nat, env: EnvState, after: nat)
      reads this
    {
      if l.pending.Some? then after == before && env == g.step(l.env, l.pending.value.action)
      else after == before + 1 && answers(before).Answer? && env == g.step(l.env, answers(before).d.action)
    }

    /** Runs or resumes a claimed episode to its end, with others interfering between any two transactions. It gets
        there: the steps left are counted down, and past the last one the next answer that is no schema failure ends it. */
    method RunClaimed(pid: nat) returns (finished: bool)
      requires Valid() && pid < |procs| && procs[pid].phase.Claimed? && pid !in mine
      requires Responsive(answers) && forall ep :: Limited(lab.game(ep))
      modifies this
      ensures Valid() && |others| <= |old(others)| && Work(rows) <= Work(old(rows)) && pid < |procs| && mine == old(mine)
      ensures (old(others) == [] ==> |procs| == |old(procs)|) && LostIfGone(pid)
      ensures procs[pid].phase.Done? || procs[pid].phase.Gone? || procs[pid].phase.Failing?
      ensures finished <==> procs[pid].phase.Done?
      ensures finished ==> procs[pid].ep < |rows| && rows[procs[pid].ep].status == Completed
    {
      hide Run, Apply, Work, Shaped, Over, Responsive, Limited;
      Interfere(pid);
      ghost var y, t := State(), trace;
      OpenEpisode(pid);
      MovedBy(lab, n, t, y, By(pid, Open), mine, pid);
      ghost var goal := NextGood(answers, calls);
      while procs[pid].phase.Looping? && !procs[pid].phase.l.env.done
        invariant Valid() && pid < |procs| && |others| <= |old(others)| && Work(rows) <= Work(old(rows)) && mine == old(mine)
        invariant (old(others) == [] ==> |procs| == |old(procs)|) && LostIfGone(pid)
        invariant procs[pid].phase.Looping? || procs[pid].phase.Gone? || procs[pid].phase.Failing?
        invariant calls <= goal && !Rejects(answers(goal))
        decreases procs[pid].phase.Looping? && !procs[pid].phase.l.env.done, if procs[pid].phase.Looping? then StepsLeft(procs[pid].phase.l.env) else 0,
          goal - calls, procs[pid].phase.Looping? && procs[pid].phase.l.pending.Some?
      {
        ghost var l, before := procs[pid].phase.l, calls;
        OneStep(pid);
        if procs[pid].phase.Looping? { StepCounts(lab.game(procs[pid].ep), answers, l, before, procs[pid].phase.l.env, calls, goal); }
        if calls > goal { goal := NextGood(answers, calls); }
      }
      if !procs[pid].phase.Looping? { return false; }
      Interfere(pid);
      y, t := State(), trace;
      finished := CompleteIt(pid);
      MovedBy(lab, n, t, y, By(pid, Finish), mine, pid);
    }

    /** A failed run gives its lease back, if it still is the holder of a running episode. */
    method ReleaseLease(pid: nat)
      requires Valid() && pid < |procs| && procs[pid].phase.Failing?
      modifies this`rows, this`procs, this`trace
      ensures Took(By(pid, Release)) && |procs| == |old(procs)| && procs[pid].ep < |rows|
      ensures HeldBy(State(), pid, procs[pid].ep) && !Shut(rows[procs[pid].ep]) ==> rows[procs[pid].ep].leaseUntil == Some(now)
    {
      var p := procs[pid];
      var r := rows[p.ep];
      assert RowShaped(State(), p.ep);
      if r.token == p.token && r.status == Running { rows := rows[p.ep := r.(leaseUntil := Some(now), updated := now)]; }
      procs := procs[pid := p.(phase := Gone)];
      trace := trace + [By(pid, Release)];
    }

    /** One claimed episode, to where this worker has nothing more to do with it. */
    method Round(pid: nat)
      requires Valid() && pid < |procs| && procs[pid].phase.Claimed? && pid !in mine
      requires Responsive(answers) && forall ep :: Limited(lab.game(ep))
      modifies this
      ensures Valid() && |others| <= |old(others)| && Work(rows) <= Work(old(rows)) && mine == old(mine) + {pid}
      ensures old(others) == [] ==> |procs| == |old(procs)|
    {
      hide Run, Apply, Work, Shaped, Responsive, Limited;
      var finished := RunClaimed(pid);
      if !finished && procs[pid].phase.Failing? {
        Interfere(pid);
        ghost var y, t := State(), trace;
        ReleaseLease(pid);
        MovedBy(lab, n, t, y, By(pid, Release), mine, pid);
      }
      ghost var z := State();
      Tick();
      assert Over(State(), pid) by { Ended(z, n, pid); }
      mine := mine + {pid};
    }

    /** Claim, run, repeat until nothing can be claimed. It ends: every round uses up an attempt of an open episode
        or closes one, unless others interfered, which they do only as often as there are batches. Then every episode
        is closed or leased by somebody else - closed, if there is nobody else. */
    method WorkLoop()
      requires Valid() && Responsive(answers) && forall ep :: Limited(lab.game(ep))
      modifies this
      ensures Valid() && forall i :: 0 <= i < |rows| ==> !Claimable(rows[i], now)
      ensures forall ep :: 0 <= ep < |rows| && !Shut(rows[ep]) ==> HeldByOther(ep)
      ensures old(AloneWith(|procs|)) ==> forall ep :: 0 <= ep < |rows| ==> Shut(rows[ep])
    {
      hide Run, Apply, Work, Claimable, Responsive, Limited;
      while true
        invariant Valid() && (old(AloneWith(|procs|)) ==> AloneWith(|procs|))
        decreases |others|, Work(rows)
      {
        var c := ClaimEpisode();
        if c.None? {
          forall ep | 0 <= ep < |rows| && !Shut(rows[ep]) ensures HeldByOther(ep) { var pid := Leased(State(), n, ep, mine); }
          return;
        }
        Round(c.value);
      }
    }

    /** A running episode under a live lease of a process that is none of this worker's. */
    ghost predicate HeldByOther(ep: nat)
      requires ep < |rows|
      reads this
    {
      rows[ep].status == Running && rows[ep].leaseUntil.Some? && rows[ep].leaseUntil.value >= now
      && exists pid :: HeldBy(State(), pid, ep) && pid !in mine
    }
  }

  // ---------------------------------------------------------------- what every move keeps

  ghost predicate RowShaped(y: Sys, ep: nat)
    requires ep < |y.rows|
  {
    && (y.rows[ep].status == Queued ==> y.rows[ep].token == 0)
    && (y.rows[ep].status == Running ==> y.rows[ep].leaseUntil.Some? && exists pid :: HeldBy(y, pid, ep))
  }

  ghost predicate Shaped(y: Sys, n: nat) {
    && |y.rows| == n && TokensDiffer(y.procs)
    && (forall i :: 0 <= i < |y.procs| ==> y.procs[i].ep < n && 1 <= y.procs[i].token <= y.rows[y.procs[i].ep].token)
    && (forall ep :: 0 <= ep < n ==> RowShaped(y, ep))
  }

  /** One more move: still a run, no more work, and whoever had ended has. */
  lemma Moved(lab: Lab, n: nat, trace: seq<Move>, y: Sys, m: Move, mine: set<nat>)
    requires y == Run(lab, Enqueued(n), trace) && Shaped(y, n) && forall pid :: pid in mine ==> Over(y, pid)
    requires !(m.By? && m.pid in mine)
    ensures Apply(lab, y, m) == Run(lab, Enqueued(n), trace + [m]) && Shaped(Apply(lab, y, m), n)
    ensures forall pid :: pid in mine ==> Over(Apply(lab, y, m), pid)
    ensures Work(Apply(lab, y, m).rows) <= Work(y.rows)
  {
    hide Apply, Work, Shaped, Over;
    RunSnoc(lab, Enqueued(n), trace, m);
    MoveWork(lab, y, m);
    MoveShape(lab, y, m, n);
    forall pid | pid in mine ensures Over(Apply(lab, y, m), pid) { OverStays(lab, y, m, n, pid); }
  }

  lemma MovedBy(lab: Lab, n: nat, trace: seq<Move>, y: Sys, m: Move, mine: set<nat>, me: nat)
    requires y == Run(lab, Enqueued(n), trace) && Shaped(y, n) && forall pid :: pid in mine ==> Over(y, pid)
    requires m.By? && m.pid == me && me !in mine
    ensures Apply(lab, y, m) == Run(lab, Enqueued(n), trace + [m]) && Shaped(Apply(lab, y, m), n)
    ensures forall pid :: pid in mine ==> Over(Apply(lab, y, m), pid)
    ensures Work(Apply(lab, y, m).rows) <= Work(y.rows)
  {
    Moved(lab, n, trace, y, m, mine);
  }

  lemma OverInside(y: Sys, me: nat, mine: set<nat>)
    requires me == |y.procs| && forall pid :: pid in mine ==> Over(y, pid)
    ensures me !in mine
  {
  }

  /** A process that lost its episode, closed it or released it has ended once the clock moves on. */
  lemma Ended(y: Sys, n: nat, pid: nat)
    requires Shaped(y, n) && pid < |y.procs|
    requires
      var r := y.rows[y.procs[pid].ep];
      !HeldBy(y, pid, y.procs[pid].ep) || Shut(r) || r.leaseUntil == Some(y.now)
    ensures Over(y.(now := y.now + 1), pid)
  {
  }

  /** Where nothing can be claimed, an open episode is leased, and not by one of the ended processes. */
  lemma Leased(y: Sys, n: nat, ep: nat, mine: set<nat>) returns (pid: nat)
    requires Shaped(y, n) && ep < |y.rows| && !Shut(y.rows[ep]) && !Claimable(y.rows[ep], y.now)
    requires forall i :: i in mine ==> Over(y, i)
    ensures y.rows[ep].status == Running && y.rows[ep].leaseUntil.Some? && y.rows[ep].leaseUntil.value >= y.now
    ensures HeldBy(y, pid, ep) && pid !in mine
  {
    assert RowShaped(y, ep);
    pid :| HeldBy(y, pid, ep);
    assert pid in mine ==> Over(y, pid);
  }

  lemma NextGood(answers: nat -> Answer, i: nat) returns (k: nat)
    requires Responsive(answers)
    ensures k >= i && !Rejects(answers(k))
  {
    assert Later(answers, i);
    k :| k >= i && !Rejects(answers(k));
  }

  /** A step counts down: the steps left, or past the last one the calls to the next answer that ends the episode. */
  lemma StepCounts(g: Game, answers: nat -> Answer, l: Local, before: nat, env: EnvState, after: nat, goal: nat)
    requires Limited(g) && before <= goal && !Rejects(answers(goal))
    requires if l.pending.Some? then after == before && env == g.step(l.env, l.pending.value.action)
             else after == before + 1 && answers(before).Answer? && env == g.step(l.env, answers(before).d.action)
    ensures StepsLeft(env) < StepsLeft(l.env) || (StepsLeft(env) == StepsLeft(l.env) && (l.pending.Some? || before < goal || env.done))
  {
  }

  lemma ClaimTaken(lab: Lab, y: Sys, ep: nat)
    requires ep < |y.rows| && Claimable(y.rows[ep], y.now)
    ensures
      var y' := Apply(lab, y, Claim(ep));
      && |y'.procs| == |y.procs| + 1 && y'.procs[|y.procs|] == Claimant(ep, y'.rows[ep])
      && (if y'.procs[|y.procs|].phase.GivingUp? then y.rows[ep].attempt >= MAX_ATTEMPTS else Work(y'.rows) < Work(y.rows))
  {
    hide Work, Weight;
    ClaimWeighs(lab, y.rows[ep], y.now);
    WorkUpdate(y.rows, ep, ClaimRow(lab, y.rows[ep], y.now));
  }

  /** Undisturbed, giving up closes the episode. */
  lemma GivenUp(lab: Lab, y: Sys, ep: nat)
    requires ep < |y.rows| && Claimable(y.rows[ep], y.now) && y.rows[ep].attempt >= MAX_ATTEMPTS
    ensures Work(Apply(lab, Apply(lab, y, Claim(ep)), By(|y.procs|, GiveUp)).rows) < Work(y.rows)
  {
    hide Work;
    var r := ClaimRow(lab, y.rows[ep], y.now);
    WorkUpdate(y.rows, ep, r);
    WorkUpdate(y.rows[ep := r], ep, Quarantine(r, r.token, y.now));
    assert Apply(lab, Apply(lab, y, Claim(ep)), By(|y.procs|, GiveUp)).rows == y.rows[ep := r][ep := Quarantine(r, r.token, y.now)];
  }

  /** A process move keeps who it is, and changes its row only with the row's token. */
  lemma DoStays(lab: Lab, p: Proc, r: Row, now: int, act: Act)
    ensures
      var (p', r') := Do(lab, p, r, now, act);
      && p'.ep == p.ep && p'.token == p.token && r'.token == r.token && (p.token != r.token ==> SameColumns(r, r'))
      && (r'.status == Queued ==> r.status == Queued) && (r'.status == Running ==> r.status == Running)
      && (r'.status == Running && r.leaseUntil.Some? ==> r'.leaseUntil.Some?)
  {
    hide Links, Head, CheckpointOf, RecordOf, EpisodeCost;
  }

  lemma ProcStays(lab: Lab, y: Sys, pid: nat, act: Act)
    requires pid < |y.procs|
    ensures pid < |Apply(lab, y, By(pid, act)).procs| && Apply(lab, y, By(pid, act)).procs[pid].ep == y.procs[pid].ep
  {
    hide Do;
    if y.procs[pid].ep < |y.rows| { DoStays(lab, y.procs[pid], y.rows[y.procs[pid].ep], y.now, act); }
  }

  /** Other processes' variables are not touched. */
  lemma ProcsStay(lab: Lab, y: Sys, m: Move, n: nat)
    ensures
      var y' := Apply(lab, y, m);
      |y.procs| <= |y'.procs| && forall i :: 0 <= i < |y.procs| && !(m.By? && m.pid == i) ==> y'.procs[i] == y.procs[i]
  {
    hide Do;
  }

  lemma MoveShape(lab: Lab, y: Sys, m: Move, n: nat)
    requires Shaped(y, n)
    ensures Shaped(Apply(lab, y, m), n)
  {
    hide Do;
    var y' := Apply(lab, y, m);
    if m.By? && m.pid < |y.procs| { DoStays(lab, y.procs[m.pid], y.rows[y.procs[m.pid].ep], y.now, m.act); }
    forall ep | 0 <= ep < n ensures RowShaped(y', ep) {
      assert RowShaped(y, ep);
      if y'.rows[ep].status == Running {
        if m.Claim? && m.ep == ep && y' != y { assert HeldBy(y', |y.procs|, ep); }
        else {
          var pid :| HeldBy(y, pid, ep);
          assert HeldBy(y', pid, ep);
        }
      }
    }
  }

  lemma OverStays(lab: Lab, y: Sys, m: Move, n: nat, pid: nat)
    requires Shaped(y, n) && Over(y, pid) && !(m.By? && m.pid == pid)
    ensures Over(Apply(lab, y, m), pid)
  {
    hide Do, RowShaped;
    if m.By? && m.pid < |y.procs| { DoStays(lab, y.procs[m.pid], y.rows[y.procs[m.pid].ep], y.now, m.act); }
  }
}
