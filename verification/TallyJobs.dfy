/** The TallyPrime job queue between tool calls and customer-side connectors
    (packages/mcp-tally/src/connector-api.ts, jobs.ts). Every database call is one atomic step; any number of
    pollers, dispatchers and late answers interleave. */
module TallyJobs {
  import opened OptionType

  datatype JobStatus = Queued | Running | Done | Failed | Expired

  datatype Envelope = Envelope(ok: bool, simulator: bool, body: string)

  /** What a connector posts: something the schema refuses, or an envelope for a known or unknown operation. */
  datatype Posted = Malformed | Parsed(e: Envelope, knownOp: bool)

  /** `claims` and `from` are no columns: how often it was handed out, and which connector its result came from. */
  datatype Job = Job(connector: nat, status: JobStatus, result: Option<Envelope>, claims: nat, from: Option<nat>)

  datatype Step = Enqueue(connector: nat) | Claim(connector: nat) | Post(connector: nat, job: nat, what: Posted) | Expire(job: nat)

  predicate Open(j: Job) { j.status == Queued || j.status == Running }

  /** The connector's oldest queued job: jobs stand in order of creation. */
  function OldestQueued(jobs: seq<Job>, connector: nat): (at: Option<nat>)
    ensures at.Some? ==> at.value < |jobs| && jobs[at.value].connector == connector && jobs[at.value].status == Queued
    ensures at.Some? ==> forall i :: 0 <= i < at.value ==> !(jobs[i].connector == connector && jobs[i].status == Queued)
    ensures at.None? ==> forall i :: 0 <= i < |jobs| ==> !(jobs[i].connector == connector && jobs[i].status == Queued)
  {
    if jobs == [] then None
    else match OldestQueued(jobs[..|jobs|-1], connector)
         case Some(i) => Some(i)
         case None => if jobs[|jobs|-1].connector == connector && jobs[|jobs|-1].status == Queued then Some(|jobs|-1) else None
  }

  /** A result is taken only in the schema, for a known operation, from the job's own connector, while it runs. */
  predicate Accepted(jobs: seq<Job>, connector: nat, job: nat, what: Posted) {
    what.Parsed? && what.knownOp && job < |jobs| && jobs[job].connector == connector && jobs[job].status == Running
  }

  function Apply(jobs: seq<Job>, m: Step): seq<Job> {
    match m
    case Enqueue(c) => jobs + [Job(c, Queued, None, 0, None)]
    case Claim(c) =>
      var at := OldestQueued(jobs, c);
      if at.None? then jobs else jobs[at.value := jobs[at.value].(status := Running, claims := jobs[at.value].claims + 1)]
    case Post(c, job, what) =>
      if Accepted(jobs, c, job, what)
      then jobs[job := jobs[job].(status := if what.e.ok then Done else Failed, result := Some(what.e), from := Some(c))]
      else jobs
    case Expire(job) => if job < |jobs| && Open(jobs[job]) then jobs[job := jobs[job].(status := Expired)] else jobs
  }

  ghost predicate IsHistory(steps: seq<Step>, js: seq<seq<Job>>) {
    |js| == |steps| + 1 && js[0] == [] && forall i :: 0 <= i < |steps| ==> js[i+1] == Apply(js[i], steps[i])
  }

  // ---------------------------------------------------------------- what holds of every job

  /** Handed out at most once; a result only when finished, and then its own connector's and saying what the status says. */
  predicate JobOk(j: Job) {
    && j.claims <= 1 && (j.status == Queued ==> j.claims == 0) && (j.status == Running ==> j.claims == 1)
    && (j.status == Done || j.status == Failed <==> j.result.Some?)
    && (j.result.Some? ==> j.from == Some(j.connector) && (j.status == Done <==> j.result.value.ok) && j.claims == 1)
  }

  /** From queued to running to an end; an ended job never changes. */
  predicate Evolves(j: Job, j': Job) {
    && j'.connector == j.connector
    && (!Open(j) ==> j' == j)
    && (j.status == Running ==> j'.status != Queued && j'.claims == j.claims)
  }

  lemma StepEvolves(jobs: seq<Job>, m: Step)
    requires forall i :: 0 <= i < |jobs| ==> JobOk(jobs[i])
    ensures |jobs| <= |Apply(jobs, m)|
    ensures forall i :: 0 <= i < |Apply(jobs, m)| ==> JobOk(Apply(jobs, m)[i])
    ensures forall i :: 0 <= i < |jobs| ==> Evolves(jobs[i], Apply(jobs, m)[i])
  {
  }

  lemma {:induction false} AllOk(steps: seq<Step>, js: seq<seq<Job>>, k: nat)
    requires IsHistory(steps, js) && k <= |steps|
    ensures forall j :: 0 <= j < |js[k]| ==> JobOk(js[k][j])
  {
    hide Apply;
    if k > 0 {
      AllOk(steps, js, k - 1);
      StepEvolves(js[k-1], steps[k-1]);
    }
  }

  lemma {:induction false} JobsEvolve(steps: seq<Step>, js: seq<seq<Job>>, i: nat, k: nat)
    requires IsHistory(steps, js) && i <= k <= |steps|
    ensures |js[i]| <= |js[k]| && forall j :: 0 <= j < |js[i]| ==> Evolves(js[i][j], js[k][j])
  {
    hide Apply;
    if i < k {
      JobsEvolve(steps, js, i, k - 1);
      AllOk(steps, js, k - 1);
      StepEvolves(js[k-1], steps[k-1]);
    }
  }

  /** Whatever interleaves: every job is handed to at most one claimant, stores at most one result, its own
      connector's; and once finished or expired it stays exactly as it is - a late result changes nothing. */
  lemma JobsSettleOnce(steps: seq<Step>, js: seq<seq<Job>>, i: nat, k: nat, job: nat)
    requires IsHistory(steps, js) && i <= k <= |steps| && job < |js[i]|
    ensures job < |js[k]| && js[k][job].claims <= 1 && js[k][job].connector == js[i][job].connector
    ensures js[k][job].result.Some? ==> js[k][job].from == Some(js[k][job].connector) && (js[k][job].status == Done <==> js[k][job].result.value.ok)
    ensures !Open(js[i][job]) ==> js[k][job] == js[i][job]
    ensures js[i][job].status == Running ==> js[k][job].status != Queued
  {
    JobsEvolve(steps, js, i, k);
    AllOk(steps, js, k);
  }

  // ---------------------------------------------------------------- the calls

  datatype Outcome = Ok(e: Envelope) | Unavailable | TimedOut | Refused(reason: string)

  class Queue {
    var jobs: seq<Job>
    /** What others do while this caller sleeps between two polls. */
    var others: seq<seq<Step>>

    ghost predicate Valid()
      reads this
    {
      forall i :: 0 <= i < |jobs| ==> JobOk(jobs[i])
    }

    constructor (others: seq<seq<Step>>)
      ensures Valid() && jobs == [] && this.others == others
    {
      jobs, this.others := [], others;
    }

    method Sleep()
      requires Valid()
      modifies this
      ensures Valid() && |jobs| >= |old(jobs)| && forall i :: 0 <= i < |old(jobs)| ==> Evolves(old(jobs)[i], jobs[i])
    {
      if others == [] { return; }
      var batch := others[0];
      others := others[1..];
      for i := 0 to |batch|
        invariant Valid() && |jobs| >= |old(jobs)| && forall j :: 0 <= j < |old(jobs)| ==> Evolves(old(jobs)[j], jobs[j])
      {
        StepEvolves(jobs, batch[i]);
        EvolvesOn(old(jobs), jobs, Apply(jobs, batch[i]));
        jobs := Apply(jobs, batch[i]);
      }
    }

    /** Long poll: the oldest queued job becomes running and is this caller's, or nothing within `polls` looks. */
    method ClaimJob(connector: nat, polls: nat) returns (got: Option<nat>)
      requires Valid()
      modifies this
      ensures Valid() && |jobs| >= |old(jobs)| && forall i :: 0 <= i < |old(jobs)| ==> Evolves(old(jobs)[i], jobs[i])
      ensures got.Some? ==> got.value < |jobs| && jobs[got.value].connector == connector && jobs[got.value].status == Running
                            && forall i :: 0 <= i < got.value && jobs[i].connector == connector ==> jobs[i].status != Queued
    {
      var left := polls;
      while true
        invariant Valid() && |jobs| >= |old(jobs)| && forall i :: 0 <= i < |old(jobs)| ==> Evolves(old(jobs)[i], jobs[i])
        decreases left
      {
        var at := OldestQueued(jobs, connector);
        if at.Some? {
          StepEvolves(jobs, Claim(connector));
          EvolvesOn(old(jobs), jobs, Apply(jobs, Claim(connector)));
          jobs := jobs[at.value := jobs[at.value].(status := Running, claims := jobs[at.value].claims + 1)];
          return at;
        }
        if left == 0 { return None; }
        left := left - 1;
        ghost var before := jobs;
        Sleep();
        EvolvesOn(old(jobs), before, jobs);
      }
    }

    method PostResult(connector: nat, job: nat, what: Posted) returns (stored: bool)
      requires Valid()
      modifies this
      ensures Valid() && jobs == Apply(old(jobs), Post(connector, job, what)) && stored == Accepted(old(jobs), connector, job, what)
    {
      StepEvolves(jobs, Post(connector, job, what));
      stored := what.Parsed? && what.knownOp && job < |jobs| && jobs[job].connector == connector && jobs[job].status == Running;
      if stored {
        jobs := jobs[job := jobs[job].(status := if what.e.ok then Done else Failed, result := Some(what.e), from := Some(connector))];
      }
    }

    /** Queues a job and waits; a figure gets through only from the job's own connector, reported as ok, and not from
        the simulator unless that is allowed. After a timeout the job is over: no later answer changes it. */
    method Dispatch(connector: Option<nat>, recent: bool, polls: nat, simulatorAllowed: bool) returns (r: Outcome, job: nat)
      requires Valid()
      modifies this
      ensures Valid()
      ensures r.Unavailable? <==> connector.None? || !recent
      ensures r.Unavailable? ==> jobs == old(jobs)
      ensures !r.Unavailable? ==> job == |old(jobs)| < |jobs| && jobs[job].connector == connector.value
      ensures r.Ok? ==> r.e.ok && (r.e.simulator ==> simulatorAllowed)
                        && jobs[job].status == Done && jobs[job].result == Some(r.e) && jobs[job].from == connector
      ensures r.TimedOut? ==> !Open(jobs[job])
    {
      job := |jobs|;
      if connector.None? || !recent { return Unavailable, job; }
      StepEvolves(jobs, Enqueue(connector.value));
      jobs := jobs + [Job(connector.value, Queued, None, 0, None)];
      for i := 0 to polls
        invariant Valid() && job == |old(jobs)| < |jobs| && jobs[job].connector == connector.value
      {
        Sleep();
        var row := jobs[job];
        if row.status == Queued || row.status == Running { continue; }
        if row.status == Failed || row.status == Expired { return Refused("job failed or expired"), job; }
        assert JobOk(row);
        if row.result.value.simulator && !simulatorAllowed { return Refused("simulator-sourced result rejected"), job; }
        return Ok(row.result.value), job;
      }
      StepEvolves(jobs, Expire(job));
      if Open(jobs[job]) { jobs := jobs[job := jobs[job].(status := Expired)]; }
      return TimedOut, job;
    }
  }

  lemma EvolvesOn(a: seq<Job>, b: seq<Job>, c: seq<Job>)
    requires |a| <= |b| <= |c|
    requires forall i :: 0 <= i < |a| ==> Evolves(a[i], b[i])
    requires forall i :: 0 <= i < |b| ==> Evolves(b[i], c[i])
    ensures forall i :: 0 <= i < |a| ==> Evolves(a[i], c[i])
  {
  }

  // ---------------------------------------------------------------- registration

  datatype ConnectorStatus = Pending | Active | Revoked

  datatype Connector = Connector(status: ConnectorStatus, code: Option<string>, expires: int, token: Option<string>)

  /** Codes are unique in the table. */
  predicate CodesUnique(cs: seq<Connector>) {
    forall i, j :: 0 <= i < j < |cs| && cs[i].code.Some? ==> cs[i].code != cs[j].code
  }

  predicate Redeemable(c: Connector, code: string, now: int) {
    c.code == Some(code) && c.status == Pending && c.expires > now
  }

  /** One UPDATE exchanges a live code for a device token; whoever comes second with the code gets nothing. */
  method RegisterConnector(cs: seq<Connector>, code: string, now: int, token: string) returns (cs': seq<Connector>, id: Option<nat>)
    requires CodesUnique(cs)
    ensures id.Some? <==> code != "" && exists i :: 0 <= i < |cs| && Redeemable(cs[i], code, now)
    ensures id.None? ==> cs' == cs
    ensures id.Some? ==> id.value < |cs| && Redeemable(cs[id.value], code, now) && cs' == cs[id.value := Connector(Active, None, 0, Some(token))]
    ensures CodesUnique(cs') && |cs'| == |cs|
    ensures id.Some? ==> forall i, later :: 0 <= i < |cs'| ==> !Redeemable(cs'[i], code, later)
  {
    if code == "" { return cs, None; }
    for i := 0 to |cs|
      invariant forall j :: 0 <= j < i ==> !Redeemable(cs[j], code, now)
    {
      if Redeemable(cs[i], code, now) {
        return cs[i := Connector(Active, None, 0, Some(token))], Some(i);
      }
    }
    return cs, None;
  }
}
