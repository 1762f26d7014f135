/** One agent through one episode, in memory (agents-learning/src/runner/episode.ts). The durable worker runs
    the same loop with checkpoints; what it must agree with is defined here. */
module Episode {
  import opened OptionType
  import opened Contracts
  import opened EnvSpec
  import opened RehearsalEnvironment

  /** An agent's answer: the action, what it cost to get, and a note. */
  datatype Decision = Decision(action: Action, costPaisa: real, note: string)

  datatype StepRecord = StepRecord(step: nat, obs: Observation, decision: Decision, reward: real, events: seq<Event>)

  /** The environment as the loop sees it: where an episode starts and what a step does. */
  datatype Game = Game(start: EnvState, step: (EnvState, Action) -> EnvState)

  /** An agent's serialised memory. */
  type Memory = string

  /** An agent: its memory at the beginning, and which decisions it may take (with what memory left) on an
      observation. A deterministic agent allows one, a model many. */
  datatype Agent = Agent(begin: Memory, may: (Memory, Observation, Decision, Memory) -> bool)

  function GameOf(w: World): Game
    requires w.scenario.script != []
  {
    Game(Reset(w, true), (s, a) => Step(w, s, a))
  }

  function RecordOf(g: Game, s: EnvState, d: Decision): StepRecord {
    var t := g.step(s, d.action);
    var r := ResultOf(s, t);
    StepRecord(t.step, Observe(s), d, r.reward, r.events)
  }

  // ---------------------------------------------------------------- uninterrupted episodes

  /** One pass through the loop: the agent decides on what it sees, the environment executes, the step is recorded. */
  predicate Goes(g: Game, a: Agent, s: EnvState, m: Memory, rec: StepRecord, t: EnvState, n: Memory) {
    !s.done && a.may(m, Observe(s), rec.decision, n) && t == g.step(s, rec.decision.action) && rec == RecordOf(g, s, rec.decision)
  }

  /** An uninterrupted episode of this agent, as far as it got: states, memories, and the record of each step. */
  ghost predicate IsEpisode(g: Game, a: Agent, recs: seq<StepRecord>, envs: seq<EnvState>, mems: seq<Memory>) {
    && |envs| == |recs| + 1 && |mems| == |recs| + 1 && envs[0] == g.start && mems[0] == a.begin
    && forall i :: 0 <= i < |recs| ==> Goes(g, a, envs[i], mems[i], recs[i], envs[i+1], mems[i+1])
  }

  ghost predicate Reached(g: Game, a: Agent, recs: seq<StepRecord>, env: EnvState, mem: Memory) {
    exists envs, mems :: IsEpisode(g, a, recs, envs, mems) && envs[|recs|] == env && mems[|recs|] == mem
  }

  lemma ReachedAtStart(g: Game, a: Agent)
    ensures Reached(g, a, [], g.start, a.begin)
  {
    assert IsEpisode(g, a, [], [g.start], [a.begin]);
  }

  lemma ReachedNext(g: Game, a: Agent, recs: seq<StepRecord>, s: EnvState, m: Memory, rec: StepRecord, t: EnvState, n: Memory)
    requires Reached(g, a, recs, s, m) && Goes(g, a, s, m, rec, t, n)
    ensures Reached(g, a, recs + [rec], t, n)
  {
    var envs, mems :| IsEpisode(g, a, recs, envs, mems) && envs[|recs|] == s && mems[|recs|] == m;
    assert IsEpisode(g, a, recs + [rec], envs + [t], mems + [n]);
  }

  // ---------------------------------------------------------------- the loop, computed

  datatype Played = Played(env: EnvState, recs: seq<StepRecord>)

  /** Executes decisions from `s` until the episode is over or they run out. */
  function Play(g: Game, s: EnvState, ds: seq<Decision>): Played
    decreases |ds|
  {
    if s.done || ds == [] then Played(s, [])
    else
      var rest := Play(g, g.step(s, ds[0].action), ds[1..]);
      rest.(recs := [RecordOf(g, s, ds[0])] + rest.recs)
  }

  function Decisions(recs: seq<StepRecord>): (ds: seq<Decision>)
    ensures |ds| == |recs|
  {
    seq(|recs|, i requires 0 <= i < |recs| => recs[i].decision)
  }

  lemma PlayStep(g: Game, s: EnvState, d: Decision, rest: seq<Decision>)
    requires !s.done
    ensures
      var p := Play(g, g.step(s, d.action), rest);
      Play(g, s, [d] + rest) == Played(p.env, [RecordOf(g, s, d)] + p.recs)
  {
    hide RecordOf;
    assert ([d] + rest)[1..] == rest;
  }

  lemma PlayEnds(g: Game, s: EnvState, ds: seq<Decision>)
    requires s.done || ds == []
    ensures Play(g, s, ds) == Played(s, [])
  {
  }

  /** Stopping after some decisions and going on from the state reached there is no different from going on. */
  lemma {:induction false} PlayResumes(g: Game, s: EnvState, ds: seq<Decision>, more: seq<Decision>)
    ensures
      var first := Play(g, s, ds);
      var second := Play(g, first.env, more);
      (first.env.done || |first.recs| == |ds|) && Play(g, s, ds + more) == Played(second.env, first.recs + second.recs)
    decreases |ds|
  {
    hide Play, RecordOf;
    if s.done || ds == [] {
      PlayEnds(g, s, ds);
      var second := Play(g, s, more);
      assert [] + second.recs == second.recs;
      if s.done { PlayEnds(g, s, more); PlayEnds(g, s, ds + more); } else { assert ds + more == more; }
    } else {
      var d, rest := ds[0], ds[1..];
      var t := g.step(s, d.action);
      assert ds == [d] + rest && ds + more == [d] + (rest + more);
      PlayStep(g, s, d, rest);
      PlayStep(g, s, d, rest + more);
      PlayResumes(g, t, rest, more);
      var first := Play(g, t, rest);
      var second := Play(g, first.env, more);
      assert [RecordOf(g, s, d)] + (first.recs + second.recs) == ([RecordOf(g, s, d)] + first.recs) + second.recs;
    }
  }

  /** An episode's records are what executing its own decisions from the start gives: nothing is skipped,
      repeated or reordered. */
  lemma {:induction false} EpisodeReplays(g: Game, a: Agent, recs: seq<StepRecord>, envs: seq<EnvState>, mems: seq<Memory>)
    requires IsEpisode(g, a, recs, envs, mems)
    ensures Play(g, g.start, Decisions(recs)) == Played(envs[|recs|], recs)
    decreases |recs|
  {
    hide RecordOf;
    var n := |recs| - 1;
    if recs != [] {
      EpisodeReplays(g, a, recs[..n], envs[..n+1], mems[..n+1]);
      assert Decisions(recs) == Decisions(recs[..n]) + [recs[n].decision];
      PlayResumes(g, g.start, Decisions(recs[..n]), [recs[n].decision]);
      assert Goes(g, a, envs[n], mems[n], recs[n], envs[n+1], mems[n+1]);
      assert Play(g, envs[n], [recs[n].decision]).recs == [recs[n]];
    }
  }

  /** Drives an environment to its end: `recovered` is executed first, without asking; then the agent is asked
      once per step (`answers`, in order; when they run out the agent has failed). */
  method ContinueEpisode(env: RehearsalEnv, answers: seq<Decision>, prior: seq<StepRecord>, recovered: Option<Decision>)
    returns (steps: seq<StepRecord>, asked: nat)
    requires env.w.scenario.script != []
    modifies env
    ensures
      var plan := (if recovered.Some? then [recovered.value] else []) + answers;
      var p := Play(GameOf(env.w), old(env.s), plan);
      env.s == p.env && steps == prior + p.recs && asked == if recovered.Some? && p.recs != [] then |p.recs| - 1 else |p.recs|
  {
    hide EnvSpec.Step, Reset, ResultOf, Play;
    var g := GameOf(env.w);
    ghost var left := (if recovered.Some? then [recovered.value] else []) + answers;
    ghost var p := Play(g, env.s, left);
    steps, asked := prior, 0;
    var pending := recovered;
    assert steps + p.recs == prior + p.recs;
    while !env.s.done && (pending.Some? || asked < |answers|)
      invariant asked <= |answers| && |steps| >= |prior|
      invariant left == (if pending.Some? then [pending.value] else []) + answers[asked..]
      invariant Play(g, env.s, left).env == p.env && steps + Play(g, env.s, left).recs == prior + p.recs
      invariant asked == if recovered.Some? && |steps| > |prior| then |steps| - |prior| - 1 else |steps| - |prior|
      invariant pending.Some? ==> recovered.Some? && |steps| == |prior|
      invariant pending.None? ==> recovered.None? || |steps| > |prior|
      decreases |left|
    {
      var obs, s := Observe(env.s), env.s;
      var decision;
      if pending.Some? { decision := pending.value; }
      else { decision, asked := answers[asked], asked + 1; }
      pending := None;
      assert left == [decision] + answers[asked..];
      left := answers[asked..];
      PlayStep(g, s, decision, left);
      var r := env.Step(decision.action);
      var rec := StepRecord(env.s.step, obs, decision, r.value.reward, r.value.events);
      assert rec == RecordOf(g, s, decision);
      ghost var rest := Play(g, env.s, left).recs;
      assert steps + ([rec] + rest) == (steps + [rec]) + rest;
      steps := steps + [rec];
    }
    PlayEnds(g, env.s, left);
    assert steps + [] == steps;
  }

  /** A whole episode from reset. */
  method RunEpisode(env: RehearsalEnv, answers: seq<Decision>) returns (steps: seq<StepRecord>, asked: nat)
    requires env.w.scenario.script != [] && env.guards
    modifies env
    ensures Play(GameOf(env.w), GameOf(env.w).start, answers) == Played(env.s, steps) && asked == |steps|
  {
    hide EnvSpec.Step, EnvSpec.Reset, ResultOf;
    var obs, log := env.Reset();
    steps, asked := ContinueEpisode(env, answers, [], None);
    assert [] + answers == answers;
  }

  // ---------------------------------------------------------------- cost

  function TotalCost(recs: seq<StepRecord>): real {
    if recs == [] then 0.0 else TotalCost(recs[..|recs|-1]) + recs[|recs|-1].decision.costPaisa
  }

  /** Rounded up to whole paisa. */
  function EpisodeCost(recs: seq<StepRecord>): (paisa: int)
    ensures TotalCost(recs) <= paisa as real < TotalCost(recs) + 1.0
  {
    var sum := TotalCost(recs);
    if sum.Floor as real == sum then sum.Floor else sum.Floor + 1
  }
}
