/** The durable episode worker as a system of database rows and worker processes
    (agents-learning/src/runner/worker.ts). A process is one `claim` followed by one `runClaimed`. Every move is
    one transaction or one local step; processes may be interleaved in any way, may die at any point, and may go
    on after their lease was taken over. */
module WorkerSpec {
  import opened OptionType
  import opened Contracts
  import opened JudgeSpec
  import opened EnvSpec
  import opened RehearsalEnvironment
  import opened HashChain
  import opened Episode

  const MAX_ATTEMPTS: nat := 3

  datatype RowStatus = Queued | Running | Completed | Quarantined

  datatype Checkpoint = Checkpoint(env: Snapshot<string>, mem: Memory, steps: seq<StepRecord>, head: string, pending: Option<Decision>)

  /** The checkpoint column with its digest column. `written` is no column: it remembers what the worker wrote,
      whatever has happened to the column since. */
  datatype Stored = Stored(cp: Checkpoint, digest: string, written: Checkpoint)

  /** An episode's row with its event rows. `asked` is no column: it counts the calls of `act` made for it, whether
      they return, throw or are cut off. */
  datatype Row = Row(status: RowStatus, token: nat, attempt: nat, leaseUntil: Option<int>, saved: Option<Stored>,
                     events: seq<Linked<Event>>, verdict: Option<Verdict>, cost: int, updated: int, asked: nat)

  /** The local variables of `runClaimed` and its loop. */
  datatype Local = Local(env: EnvState, mem: Memory, steps: seq<StepRecord>, head: string, pending: Option<Decision>)

  /** Where a process stands: about to give the episode up, with a fresh claim, in the loop, with the
      agent asked, with an answer not yet recorded, done, with an error to report, or gone. */
  datatype Phase =
    | GivingUp
    | Claimed(got: Option<Stored>)
    | Looping(l: Local)
    | Asking(l: Local)
    | Answered(l: Local, d: Decision, mem: Memory)
    | Done
    | Failing
    | Gone

  /** `wasted`: a call of the agent came to nothing - it failed, was cut off, or its answer was never recorded. `finished`: it completed the episode. */
  datatype Proc = Proc(ep: nat, token: nat, attempt: nat, phase: Phase, wasted: bool, finished: bool)

  datatype Sys = Sys(now: int, rows: seq<Row>, procs: seq<Proc>)

  /** What a deployment fixes: the episodes' environments and agents, the hash functions, the lease. */
  datatype Lab = Lab(game: nat -> Game, agent: nat -> Agent, hash: (string, Event) -> string,
                     stateDigest: EnvState -> string, digest: Checkpoint -> string, lease: nat)

  /** What a process does next; `Ask` is the call of the agent, `Think` carries its answer. */
  datatype Act = GiveUp | Open | Ask | Think(d: Decision, mem: Memory) | RecordDecision | Execute | Finish | Throw | Release | Crash

  /** `Tamper` overwrites a checkpoint column behind the worker's back. */
  datatype Move = Wait(secs: nat) | Claim(ep: nat) | By(pid: nat, act: Act) | Tamper(ep: nat, cp: Checkpoint)

  // ---------------------------------------------------------------- claiming

  predicate Claimable(r: Row, now: int) {
    r.status == Queued || (r.status == Running && r.leaseUntil.Some? && r.leaseUntil.value < now)
  }

  /** One UPDATE: the token and the attempt go up together and the row's checkpoint is returned. */
  function ClaimRow(lab: Lab, r: Row, now: int): Row {
    r.(status := Running, leaseUntil := Some(now + lab.lease), token := r.token + 1, attempt := r.attempt + 1, updated := now)
  }

  function Claimant(ep: nat, r: Row): Proc {
    Proc(ep, r.token, r.attempt, if r.attempt > MAX_ATTEMPTS then GivingUp else Claimed(r.saved), false, false)
  }

  // ---------------------------------------------------------------- one process move

  function CheckpointOf(lab: Lab, l: Local): Checkpoint {
    Checkpoint(Snapshot(l.env, lab.stateDigest(l.env)), l.mem, l.steps, l.head, l.pending)
  }

  /** `commit`: fence first, then the events, the checkpoint and the lease in one transaction; `None` is a lost lease. */
  function Commit(lab: Lab, token: nat, r: Row, now: int, l: Local, events: seq<Event>): Option<(Row, Local)> {
    if r.token != token then None
    else
      var more := Links(lab.hash, l.head, events);
      var l' := l.(head := Head(l.head, more));
      var cp := CheckpointOf(lab, l');
      Some((r.(events := r.events + more, saved := Some(Stored(cp, lab.digest(cp), cp)), leaseUntil := Some(now + lab.lease), updated := now), l'))
  }

  function Start(lab: Lab, ep: nat): Local {
    Local(lab.game(ep).start, lab.agent(ep).begin, [], GENESIS, None)
  }

  function Quarantine(r: Row, token: nat, now: int): Row {
    if r.token == token then r.(status := Quarantined, updated := now) else r
  }

  /** After `claim`: a fresh episode is reset and committed, a checkpoint is verified and restored. */
  function OpenClaim(lab: Lab, p: Proc, r: Row, now: int): (Proc, Row)
    requires p.phase.Claimed?
  {
    match p.phase.got
    case None =>
      var l := Start(lab, p.ep);
      (match Commit(lab, p.token, r, now, l, l.env.events)
       case None => (p.(phase := Gone), r)
       case Some((r', l')) => (p.(phase := Looping(l')), r'))
    case Some(saved) =>
      if lab.digest(saved.cp) != saved.digest then (p.(phase := Failing), Quarantine(r, p.token, now))
      else if lab.stateDigest(saved.cp.env.state) != saved.cp.env.digest then (p.(phase := Failing), r)
      else (p.(phase := Looping(Local(saved.cp.env.state, saved.cp.mem, saved.cp.steps, saved.cp.head, saved.cp.pending))), r)
  }

  /** Executes the recorded decision and commits the step. */
  function ExecuteStep(lab: Lab, p: Proc, r: Row, now: int): (Proc, Row)
    requires p.phase.Looping? && p.phase.l.pending.Some?
  {
    var l, g := p.phase.l, lab.game(p.ep);
    var rec := RecordOf(g, l.env, l.pending.value);
    var after := l.(env := g.step(l.env, l.pending.value.action), steps := l.steps + [rec], pending := None);
    match Commit(lab, p.token, r, now, after, rec.events)
    case None => (p.(phase := Gone), r)
    case Some((r', l')) => (p.(phase := Looping(l')), r')
  }

  function RecordAnswer(lab: Lab, p: Proc, r: Row, now: int): (Proc, Row)
    requires p.phase.Answered?
  {
    match Commit(lab, p.token, r, now, p.phase.l.(mem := p.phase.mem, pending := Some(p.phase.d)), [])
    case None => (p.(phase := Gone, wasted := true), r)
    case Some((r', l')) => (p.(phase := Looping(l')), r')
  }

  function Complete(lab: Lab, p: Proc, r: Row, now: int): (Proc, Row)
    requires p.phase.Looping?
  {
    var l := p.phase.l;
    if l.env.verdict.None? then (p.(phase := Failing), r)
    else if r.token != p.token then (p.(phase := Gone), r)
    else (p.(phase := Done, finished := true),
          r.(status := Completed, verdict := l.env.verdict, cost := EpisodeCost(l.steps), leaseUntil := None, updated := now))
  }

  /** A call of the agent came to nothing, or still may. */
  predicate Wasteful(p: Proc) { p.wasted || p.phase.Asking? || p.phase.Answered? }

  /** The move, or nothing when the process is not at that point. */
  function Do(lab: Lab, p: Proc, r: Row, now: int, act: Act): (Proc, Row) {
    match act
    case GiveUp => if p.phase.GivingUp? then (p.(phase := Gone), Quarantine(r, p.token, now)) else (p, r)
    case Open => if p.phase.Claimed? then OpenClaim(lab, p, r, now) else (p, r)
    case Ask =>
      if p.phase.Looping? && p.phase.l.pending.None? && !p.phase.l.env.done
      then (p.(phase := Asking(p.phase.l)), r.(asked := r.asked + 1)) else (p, r)
    case Think(d, mem) =>
      if p.phase.Asking? && lab.agent(p.ep).may(p.phase.l.mem, Observe(p.phase.l.env), d, mem)
      then (p.(phase := Answered(p.phase.l, d, mem)), r) else (p, r)
    case RecordDecision => if p.phase.Answered? then RecordAnswer(lab, p, r, now) else (p, r)
    case Execute => if p.phase.Looping? && p.phase.l.pending.Some? && !p.phase.l.env.done then ExecuteStep(lab, p, r, now) else (p, r)
    case Finish => if p.phase.Looping? && p.phase.l.env.done then Complete(lab, p, r, now) else (p, r)
    case Throw =>
      if p.phase.Claimed? || p.phase.Looping? || p.phase.Asking? || p.phase.Answered? || p.phase.Done?
      then (p.(phase := Failing, wasted := Wasteful(p)), r) else (p, r)
    case Release =>
      if p.phase.Failing? then
        (p.(phase := Gone), if r.token == p.token && r.status == Running then r.(leaseUntil := Some(now), updated := now) else r)
      else (p, r)
    case Crash => (p.(phase := Gone, wasted := Wasteful(p)), r)
  }

  // ---------------------------------------------------------------- one system move

  function Apply(lab: Lab, y: Sys, m: Move): Sys {
    match m
    case Wait(secs) => y.(now := y.now + secs)
    case Claim(ep) =>
      if ep < |y.rows| && Claimable(y.rows[ep], y.now) then
        var r := ClaimRow(lab, y.rows[ep], y.now);
        y.(rows := y.rows[ep := r], procs := y.procs + [Claimant(ep, r)])
      else y
    case By(pid, act) =>
      if pid < |y.procs| && y.procs[pid].ep < |y.rows| then
        var p := y.procs[pid];
        var (p', r') := Do(lab, p, y.rows[p.ep], y.now, act);
        y.(rows := y.rows[p.ep := r'], procs := y.procs[pid := p'])
      else y
    case Tamper(ep, cp) =>
      if ep < |y.rows| && y.rows[ep].saved.Some? then
        y.(rows := y.rows[ep := y.rows[ep].(saved := Some(y.rows[ep].saved.value.(cp := cp)))])
      else y
  }

  /** `enqueueRun`: the rows of a new run. */
  function Enqueued(n: nat): Sys {
    Sys(0, seq(n, _ => Row(Queued, 0, 0, None, None, [], None, 0, 0, 0)), [])
  }

  /** A run of the system. */
  ghost predicate IsHistory(lab: Lab, n: nat, moves: seq<Move>, ys: seq<Sys>) {
    |ys| == |moves| + 1 && ys[0] == Enqueued(n) && forall i :: 0 <= i < |moves| ==> ys[i+1] == Apply(lab, ys[i], moves[i])
  }
}
