/** What every move of the worker system keeps. */
module WorkerInvariants {
  import opened OptionType
  import opened Contracts
  import opened EnvSpec
  import opened HashChain
  import opened Episode
  import opened WorkerSpec

  /** A step only adds to the log. */
  ghost predicate LogsGrow(g: Game) {
    forall s: EnvState, a: Action :: s.events <= g.step(s, a).events
  }

  ghost predicate GamesGrow(lab: Lab) { forall ep :: LogsGrow(lab.game(ep)) }

  /** What is put in the place of a checkpoint is no collision: with the digest of the written one, it is that one. */
  predicate Unforged(lab: Lab, y: Sys, m: Move) {
    m.Tamper? && m.ep < |y.rows| && y.rows[m.ep].saved.Some? && lab.digest(m.cp) == lab.digest(y.rows[m.ep].saved.value.written) ==>
      m.cp == y.rows[m.ep].saved.value.written
  }

  /** A history in which environments only add to their logs and no tampering hit upon a digest collision. */
  ghost predicate Sound(lab: Lab, n: nat, moves: seq<Move>, ys: seq<Sys>) {
    GamesGrow(lab) && IsHistory(lab, n, moves, ys) && forall i :: 0 <= i < |moves| ==> Unforged(lab, ys[i], moves[i])
  }

  /** An uninterrupted episode gets to these variables; a pending decision is one the agent took there. */
  ghost predicate Ready(g: Game, a: Agent, l: Local) {
    if l.pending.None? then Reached(g, a, l.steps, l.env, l.mem)
    else !l.env.done && exists m :: MayAnswer(g, a, l, m)
  }

  ghost predicate MayAnswer(g: Game, a: Agent, l: Local, m: Memory)
    requires l.pending.Some?
  {
    Reached(g, a, l.steps, l.env, m) && a.may(m, Observe(l.env), l.pending.value, l.mem)
  }

  /** The event rows are the unbroken chain of exactly the environment's log, and the head is theirs. */
  ghost predicate Logged(lab: Lab, l: Local, events: seq<Linked<Event>>) {
    Chained(lab.hash, GENESIS, events) && Items(events) == l.env.events && l.head == Head(GENESIS, events)
  }

  ghost predicate Genuine(lab: Lab, ep: nat, l: Local, events: seq<Linked<Event>>) {
    Ready(lab.game(ep), lab.agent(ep), l) && Logged(lab, l, events)
  }

  function Restored(cp: Checkpoint): Local { Local(cp.env.state, cp.mem, cp.steps, cp.head, cp.pending) }

  /** The digest column is that of what was written, which is a point of an uninterrupted episode. */
  ghost predicate StoredOk(lab: Lab, ep: nat, s: Stored, events: seq<Linked<Event>>) {
    && s.digest == lab.digest(s.written) && (lab.digest(s.cp) == s.digest ==> s.cp == s.written)
    && s.written.env.digest == lab.stateDigest(s.written.env.state)
    && Genuine(lab, ep, Restored(s.written), events)
  }

  /** A completed row holds the verdict and the cost of a finished episode. */
  predicate OutcomeOk(r: Row) {
    r.status == Completed ==>
      r.saved.Some? && var cp := r.saved.value.written;
      cp.pending.None? && cp.env.state.done && cp.env.state.verdict.Some? && r.verdict == cp.env.state.verdict
      && r.cost == EpisodeCost(cp.steps)
  }

  ghost predicate RowOk(lab: Lab, ep: nat, r: Row) {
    && r.attempt == r.token && OutcomeOk(r)
    && (r.saved.None? ==> r.events == [])
    && (r.saved.Some? ==> StoredOk(lab, ep, r.saved.value, r.events))
  }

  /** The row holds exactly what a process has in its variables. */
  ghost predicate InStep(lab: Lab, ep: nat, l: Local, r: Row) {
    Genuine(lab, ep, l, r.events) && r.saved.Some? && r.saved.value.written == CheckpointOf(lab, l)
  }

  /** What a claim returned is what was last written, or shows by its digest that it is not. */
  predicate Copied(lab: Lab, got: Stored, saved: Stored) {
    got.digest == saved.digest && (lab.digest(got.cp) == got.digest ==> got.cp == saved.written)
  }

  /** A process that still has the row's token has the row's content, and the row is running until it ends it. */
  ghost predicate Synced(lab: Lab, p: Proc, r: Row) {
    p.token == r.token ==>
      match p.phase
      case GivingUp => r.status == Running
      case Claimed(got) => r.status == Running && got.Some? == r.saved.Some? && (got.Some? ==> Copied(lab, got.value, r.saved.value))
      case Looping(l) => r.status == Running && InStep(lab, p.ep, l, r)
      case Asking(l) => r.status == Running && InStep(lab, p.ep, l, r) && l.pending.None? && !l.env.done
      case Answered(l, d, mem) =>
        r.status == Running && InStep(lab, p.ep, l, r) && l.pending.None? && !l.env.done && lab.agent(p.ep).may(l.mem, Observe(l.env), d, mem)
      case _ => true
  }

  predicate SameColumns(r: Row, r': Row) { r'.(asked := r.asked) == r }

  // ---------------------------------------------------------------- commits

  lemma HeadUnread(g: Game, a: Agent, l: Local, head: string)
    requires Ready(g, a, l)
    ensures Ready(g, a, l.(head := head))
  {
    hide Reached;
    if l.pending.Some? {
      var m :| MayAnswer(g, a, l, m);
      assert MayAnswer(g, a, l.(head := head), m);
    }
  }

  lemma CommitKeeps(lab: Lab, p: Proc, r: Row, now: int, l: Local, was: Local, events: seq<Event>)
    requires RowOk(lab, p.ep, r) && r.status == Running && r.token == p.token
    requires Logged(lab, was, r.events) && l.head == was.head && l.env.events == was.env.events + events
    requires Ready(lab.game(p.ep), lab.agent(p.ep), l)
    ensures
      var c := Commit(lab, p.token, r, now, l, events);
      c.Some? && RowOk(lab, p.ep, c.value.0) && InStep(lab, p.ep, c.value.1, c.value.0) && c.value.0.status == Running
      && c.value.0.token == r.token
  {
    hide Chained, Items, EpisodeCost, Ready;
    LinksExtend(lab.hash, GENESIS, r.events, events);
    HeadOfBoth(lab.hash, GENESIS, r.events, Links(lab.hash, l.head, events));
    var (r', l') := Commit(lab, p.token, r, now, l, events).value;
    HeadUnread(lab.game(p.ep), lab.agent(p.ep), l, l'.head);
    assert Logged(lab, l', r'.events);
    assert Restored(CheckpointOf(lab, l')) == l';
  }

  lemma StartReady(lab: Lab, ep: nat)
    ensures Ready(lab.game(ep), lab.agent(ep), Start(lab, ep))
  {
    ReachedAtStart(lab.game(ep), lab.agent(ep));
  }

  lemma ExecutedReady(g: Game, a: Agent, l: Local)
    requires LogsGrow(g) && l.pending.Some? && Ready(g, a, l)
    ensures
      var rec := RecordOf(g, l.env, l.pending.value);
      var t := g.step(l.env, l.pending.value.action);
      Ready(g, a, l.(env := t, steps := l.steps + [rec], pending := None)) && t.events == l.env.events + rec.events
  {
    hide Reached;
    var d := l.pending.value;
    var m :| MayAnswer(g, a, l, m);
    ReachedNext(g, a, l.steps, l.env, m, RecordOf(g, l.env, d), g.step(l.env, d.action), l.mem);
    assert l.env.events <= g.step(l.env, d.action).events;
  }

  // ---------------------------------------------------------------- the moves of a process

  /** What may happen to the last written checkpoint: nothing, the first one, one decision recorded, or the recorded
      decision - and no other - executed as one more step. */
  predicate Advances(r: Row, r': Row) {
    r'.saved == r.saved ||
    (r'.saved.Some? &&
     var next := r'.saved.value.written;
     if r.saved.None? then next.steps == [] && next.pending.None?
     else
       var prev := r.saved.value.written;
       if prev.pending.None? then next.steps == prev.steps && next.pending.Some? && next.env == prev.env
       else next.pending.None? && |next.steps| == |prev.steps| + 1 && prev.steps <= next.steps
            && next.steps[|prev.steps|].decision == prev.pending.value)
  }

  /** What a move of a process guarantees about it and its row. */
  ghost predicate Kept(lab: Lab, p: Proc, r: Row, p': Proc, r': Row) {
    && p'.ep == p.ep && p'.token == p.token && p'.attempt == p.attempt && r'.token == r.token
    && RowOk(lab, p.ep, r') && Synced(lab, p', r')
    && (p.token != r.token || r.status == Completed || r.status == Quarantined ==> SameColumns(r, r'))
    && r.events <= r'.events && Advances(r, r')
  }

  lemma OpenKeeps(lab: Lab, p: Proc, r: Row, now: int)
    requires GamesGrow(lab) && RowOk(lab, p.ep, r) && Synced(lab, p, r) && p.phase.Claimed?
    ensures Kept(lab, p, r, OpenClaim(lab, p, r, now).0, OpenClaim(lab, p, r, now).1)
  {
    hide Logged, Ready, Links, EpisodeCost;
    if p.phase.got.None? && r.token == p.token {
      var l := Start(lab, p.ep);
      StartReady(lab, p.ep);
      NothingLogged(lab, l);
      CommitKeeps(lab, p, r, now, l, l.(env := l.env.(events := [])), l.env.events);
    } else if p.phase.got.Some? && r.token == p.token && lab.digest(p.phase.got.value.cp) == p.phase.got.value.digest {
      assert p.phase.got.value.cp == r.saved.value.written;
    }
  }

  lemma NothingLogged(lab: Lab, l: Local)
    requires l.head == GENESIS
    ensures Logged(lab, l.(env := l.env.(events := [])), []) && l.env.events == [] + l.env.events
  {
  }

  lemma ExecuteKeeps(lab: Lab, p: Proc, r: Row, now: int)
    requires GamesGrow(lab) && RowOk(lab, p.ep, r) && Synced(lab, p, r) && p.phase.Looping? && p.phase.l.pending.Some?
    ensures Kept(lab, p, r, ExecuteStep(lab, p, r, now).0, ExecuteStep(lab, p, r, now).1)
  {
    hide Logged, Ready, Links, EpisodeCost, ResultOf;
    if r.token == p.token {
      var l, g := p.phase.l, lab.game(p.ep);
      var rec := RecordOf(g, l.env, l.pending.value);
      ExecutedReady(g, lab.agent(p.ep), l);
      CommitKeeps(lab, p, r, now, l.(env := g.step(l.env, l.pending.value.action), steps := l.steps + [rec], pending := None), l, rec.events);
    }
  }

  lemma RecordKeeps(lab: Lab, p: Proc, r: Row, now: int)
    requires GamesGrow(lab) && RowOk(lab, p.ep, r) && Synced(lab, p, r) && p.phase.Answered?
    ensures Kept(lab, p, r, RecordAnswer(lab, p, r, now).0, RecordAnswer(lab, p, r, now).1)
  {
    hide Logged, Links, EpisodeCost, Reached;
    if r.token == p.token {
      var l := p.phase.l;
      assert l.env.events == l.env.events + [];
      var l' := l.(mem := p.phase.mem, pending := Some(p.phase.d));
      assert MayAnswer(lab.game(p.ep), lab.agent(p.ep), l', l.mem);
      CommitKeeps(lab, p, r, now, l', l, []);
    }
  }

  lemma CompleteKeeps(lab: Lab, p: Proc, r: Row, now: int)
    requires GamesGrow(lab) && RowOk(lab, p.ep, r) && Synced(lab, p, r) && p.phase.Looping? && p.phase.l.env.done
    ensures Kept(lab, p, r, Complete(lab, p, r, now).0, Complete(lab, p, r, now).1)
  {
    hide Logged, Reached, EpisodeCost;
  }

  lemma DoKeeps(lab: Lab, p: Proc, r: Row, now: int, act: Act)
    requires GamesGrow(lab) && RowOk(lab, p.ep, r) && Synced(lab, p, r)
    ensures Kept(lab, p, r, Do(lab, p, r, now, act).0, Do(lab, p, r, now, act).1)
  {
    hide Genuine, CheckpointOf, OpenClaim, ExecuteStep, RecordAnswer, Complete, EpisodeCost;
    match act
    case Open => if p.phase.Claimed? { OpenKeeps(lab, p, r, now); }
    case RecordDecision => if p.phase.Answered? { RecordKeeps(lab, p, r, now); }
    case Execute => if p.phase.Looping? && p.phase.l.pending.Some? && !p.phase.l.env.done { ExecuteKeeps(lab, p, r, now); }
    case Finish => if p.phase.Looping? && p.phase.l.env.done { CompleteKeeps(lab, p, r, now); }
    case _ =>
  }

  // ---------------------------------------------------------------- the whole system

  predicate TokensDiffer(procs: seq<Proc>) {
    forall i, j :: 0 <= i < j < |procs| && procs[i].ep == procs[j].ep ==> procs[i].token != procs[j].token
  }

  ghost predicate ProcOk(lab: Lab, rows: seq<Row>, p: Proc) {
    p.ep < |rows| && p.attempt == p.token && 1 <= p.token <= rows[p.ep].token && Synced(lab, p, rows[p.ep])
  }

  ghost predicate Inv(lab: Lab, y: Sys) {
    && (forall ep :: 0 <= ep < |y.rows| ==> RowOk(lab, ep, y.rows[ep]))
    && (forall i :: 0 <= i < |y.procs| ==> ProcOk(lab, y.rows, y.procs[i]))
    && TokensDiffer(y.procs)
  }

  /** Nobody else is disturbed by what the holder of the token does, or by anything a non-holder does. */
  lemma OtherStays(lab: Lab, q: Proc, p: Proc, r: Row, r': Row)
    requires q.ep == p.ep && q.token != p.token && r'.token == r.token && Synced(lab, q, r)
    requires p.token != r.token ==> SameColumns(r, r')
    ensures Synced(lab, q, r')
  {
    hide Genuine, CheckpointOf;
  }

  lemma ByKeeps(lab: Lab, y: Sys, pid: nat, act: Act)
    requires GamesGrow(lab) && Inv(lab, y)
    ensures Inv(lab, Apply(lab, y, By(pid, act)))
  {
    hide Synced, RowOk, Do, SameColumns, GamesGrow;
    if pid < |y.procs| {
      var p := y.procs[pid];
      assert ProcOk(lab, y.rows, p);
      var r := y.rows[p.ep];
      var (p', r') := Do(lab, p, r, y.now, act);
      DoKeeps(lab, p, r, y.now, act);
      var rows', procs' := y.rows[p.ep := r'], y.procs[pid := p'];
      forall i | 0 <= i < |procs'| ensures ProcOk(lab, rows', procs'[i]) {
        assert ProcOk(lab, y.rows, y.procs[i]);
        if i != pid && y.procs[i].ep == p.ep {
          assert y.procs[i].token != p.token;
          OtherStays(lab, y.procs[i], p, r, r');
        }
      }
    }
  }

  lemma ClaimKeeps(lab: Lab, y: Sys, ep: nat)
    requires Inv(lab, y)
    ensures Inv(lab, Apply(lab, y, Claim(ep)))
  {
    hide Genuine, InStep;
    if ep < |y.rows| && Claimable(y.rows[ep], y.now) {
      var r := ClaimRow(lab, y.rows[ep], y.now);
      var y' := Apply(lab, y, Claim(ep));
      assert RowOk(lab, ep, y.rows[ep]);
      forall i | 0 <= i < |y'.procs| ensures ProcOk(lab, y'.rows, y'.procs[i]) {
        if i < |y.procs| { assert ProcOk(lab, y.rows, y.procs[i]) && y'.procs[i] == y.procs[i]; }
        else { assert y'.procs[i] == Claimant(ep, r); }
      }
      forall i, j | 0 <= i < j < |y'.procs| && y'.procs[i].ep == y'.procs[j].ep ensures y'.procs[i].token != y'.procs[j].token {
        assert ProcOk(lab, y.rows, y.procs[i]);
      }
    }
  }

  lemma TamperKeeps(lab: Lab, y: Sys, ep: nat, cp: Checkpoint)
    requires Inv(lab, y) && Unforged(lab, y, Tamper(ep, cp))
    ensures Inv(lab, Apply(lab, y, Tamper(ep, cp)))
  {
    hide Genuine, CheckpointOf, EpisodeCost;
    if ep < |y.rows| && y.rows[ep].saved.Some? {
      var y' := Apply(lab, y, Tamper(ep, cp));
      assert RowOk(lab, ep, y.rows[ep]);
      forall i | 0 <= i < |y'.procs| ensures ProcOk(lab, y'.rows, y'.procs[i]) {
        assert ProcOk(lab, y.rows, y.procs[i]);
      }
    }
  }

  lemma ApplyKeeps(lab: Lab, y: Sys, m: Move)
    requires GamesGrow(lab) && Inv(lab, y) && Unforged(lab, y, m)
    ensures Inv(lab, Apply(lab, y, m))
  {
    match m
    case Wait(secs) => hide RowOk, Synced;
    case Claim(ep) => ClaimKeeps(lab, y, ep);
    case By(pid, act) => ByKeeps(lab, y, pid, act);
    case Tamper(ep, cp) => TamperKeeps(lab, y, ep, cp);
  }

  lemma {:induction false} HistoryKeeps(lab: Lab, n: nat, moves: seq<Move>, ys: seq<Sys>, k: nat)
    requires Sound(lab, n, moves, ys) && k <= |moves|
    ensures Inv(lab, ys[k]) && |ys[k].rows| == n
  {
    hide Inv, GamesGrow, Unforged, Apply;
    if k == 0 { EnqueuedOk(lab, n); }
    else {
      HistoryKeeps(lab, n, moves, ys, k - 1);
      ApplyKeeps(lab, ys[k-1], moves[k-1]);
      RowsStay(lab, ys[k-1], moves[k-1]);
    }
  }

  lemma RowsStay(lab: Lab, y: Sys, m: Move)
    ensures |Apply(lab, y, m).rows| == |y.rows| && |y.procs| <= |Apply(lab, y, m).procs|
  {
    hide Do;
  }

  lemma EnqueuedOk(lab: Lab, n: nat)
    ensures Inv(lab, Enqueued(n)) && |Enqueued(n).rows| == n
  {
  }
}
