/** The crash-tolerant ingestion queue (src/eclaim/ingest/worker.py).

    Any number of workers interleave on one job table. Every step is one committed
    transaction, or one read whose answer a worker acts on later. A run that is only slow
    may be overtaken by a second run of the same job. */
module IngestQueue {
  import opened Prelude
  import BuildClaim

  type JobId = nat    // position in the job table, which is in creation order
  type RunId = nat    // one call of process_one, from its claim to its end
  type ClaimId = nat

  const MAX_ATTEMPTS: nat := 5
  const STALE_SECONDS: int := 300

  datatype Status = Queued | Running | Done | Failed

  datatype Job = Job(status: Status, attempts: nat, heartbeat: Option<int>, claim: Option<ClaimId>) {
    predicate Terminal() { status.Done? || status.Failed? }
  }

  /** Where a run stands: what it has read so far and will act on next. */
  datatype Phase =
    | Started          // job claimed; about to look for a claim already built
    | NoClaimSeen      // none found; about to look for diverted pages
    | Building         // reading and building; nothing written yet
    | Raised           // an exception was caught and rolled back
    | RaisedNoClaim    // and no claim was found afterwards
    | Ended

  datatype Run = Run(job: JobId, phase: Phase)

  /** `intakes` are the jobs with a row of their own in the holding queue. `held` is history
      no step reads: the jobs that finished on pages somebody else had left there already. */
  datatype State = State(jobs: seq<Job>, claims: map<ClaimId, JobId>, intakes: set<JobId>, held: set<JobId>,
                         runs: seq<Run>, now: int)

  const Init := State([], map[], {}, {}, [], 0)

  /** The pages a build diverted: none; only ones that were open in the holding queue
      already, which leaves no row of this job; or some that were not. */
  datatype Pages = NoPages | HeldAlready | Parked

  // -- one transaction at a time ------------------------------------------------

  predicate IsStale(job: Job, now: int) {
    job.heartbeat.None? || job.heartbeat.value < now - STALE_SECONDS
  }

  predicate Runnable(job: Job, now: int) {
    job.status.Queued? || (job.status.Running? && IsStale(job, now) && job.attempts < MAX_ATTEMPTS)
  }

  predicate Reapable(job: Job, now: int) {
    job.status.Running? && IsStale(job, now) && job.attempts >= MAX_ATTEMPTS
  }

  /** The oldest runnable job no other transaction holds locked, from job `from` on. */
  function NextRunnable(jobs: seq<Job>, now: int, locked: set<JobId>, from: nat): (r: Option<JobId>)
    requires from <= |jobs|
    ensures r.Some? ==> from <= r.value < |jobs| && Runnable(jobs[r.value], now) && r.value !in locked
    ensures forall j :: from <= j < (if r.Some? then r.value else |jobs|) ==> !Runnable(jobs[j], now) || j in locked
    decreases |jobs| - from
  {
    if from == |jobs| then None
    else if Runnable(jobs[from], now) && from !in locked then Some(from)
    else NextRunnable(jobs, now, locked, from + 1)
  }

  function ReapJob(job: Job, now: int): Job {
    if Reapable(job, now) then job.(status := Failed, heartbeat := Some(now)) else job
  }

  function ReapAll(jobs: seq<Job>, now: int): seq<Job> {
    Map(jobs, (job: Job) => ReapJob(job, now))
  }

  /** `_finish`: status and heartbeat always, the claim link only when one is given. */
  function FinishJob(job: Job, status: Status, claim: Option<ClaimId>, now: int): Job {
    job.(status := status, heartbeat := Some(now), claim := if claim.Some? then claim else job.claim)
  }

  datatype Step =
    | Enqueue
    | Tick(seconds: nat)
    | Reap
    | ClaimNext(locked: set<JobId>)
    | Progress(run: RunId)
    | SeeClaim(run: RunId, claim: ClaimId)
    | SeeNoClaim(run: RunId)
    | SeeIntakes(run: RunId)
    | SeeNoIntakes(run: RunId)
    | Commit(run: RunId, built: Option<ClaimId>, pages: Pages)
    | GiveUp(run: RunId)
    | Raise(run: RunId)
    | RecoverClaim(run: RunId, claim: ClaimId)
    | RecoverNothing(run: RunId)
    | MarkFailed(run: RunId)
    | Crash(run: RunId)

  /** The step of one worker's run, as opposed to one of the queue as a whole. */
  predicate ByRun(step: Step) {
    !step.Enqueue? && !step.Tick? && !step.Reap? && !step.ClaimNext?
  }

  predicate AtPhase(s: State, r: RunId, phase: Phase) {
    r < |s.runs| && s.runs[r].phase == phase && s.runs[r].job < |s.jobs|
  }

  predicate Live(s: State, r: RunId) {
    r < |s.runs| && s.runs[r].phase != Ended && s.runs[r].job < |s.jobs|
  }

  predicate HasClaim(s: State, j: JobId) {
    exists c :: c in s.claims && s.claims[c] == j
  }

  /** The run goes on to `phase`. */
  function Goto(s: State, r: RunId, phase: Phase): State
    requires r < |s.runs|
  {
    s.(runs := s.runs[r := s.runs[r].(phase := phase)])
  }

  /** The run writes the job's final status and is over. */
  function Finish(s: State, r: RunId, status: Status, claim: Option<ClaimId>): State
    requires Live(s, r)
  {
    var j := s.runs[r].job;
    Goto(s, r, Ended).(jobs := s.jobs[j := FinishJob(s.jobs[j], status, claim, s.now)])
  }

  /** The state after a step, or None where the step cannot happen. */
  function Apply(s: State, step: Step): Option<State> {
    match step
    case Enqueue => Some(s.(jobs := s.jobs + [Job(Queued, 0, None, None)]))
    case Tick(seconds) => Some(s.(now := s.now + seconds))
    case Reap => Some(s.(jobs := ReapAll(s.jobs, s.now)))
    case ClaimNext(locked) =>
      var next := NextRunnable(s.jobs, s.now, locked, 0);
      if next.None? then None else
        var job := s.jobs[next.value];
        var claimed := job.(status := Running, attempts := job.attempts + 1, heartbeat := Some(s.now));
        Some(s.(jobs := s.jobs[next.value := claimed], runs := s.runs + [Run(next.value, Started)]))
    case Progress(r) =>
      if !AtPhase(s, r, Building) then None else
        var j := s.runs[r].job;
        Some(s.(jobs := s.jobs[j := s.jobs[j].(heartbeat := Some(s.now))]))
    case SeeClaim(r, c) =>
      if AtPhase(s, r, Started) && c in s.claims && s.claims[c] == s.runs[r].job
      then Some(Finish(s, r, Done, Some(c))) else None
    case SeeNoClaim(r) =>
      if AtPhase(s, r, Started) && s.runs[r].job !in s.claims.Values then Some(Goto(s, r, NoClaimSeen)) else None
    case SeeIntakes(r) =>
      if AtPhase(s, r, NoClaimSeen) && s.runs[r].job in s.intakes then Some(Finish(s, r, Done, None)) else None
    case SeeNoIntakes(r) =>
      if AtPhase(s, r, NoClaimSeen) && s.runs[r].job !in s.intakes then Some(Goto(s, r, Building)) else None
    case Commit(r, claim, pages) =>
      // UNIQUE(ingestion_job_id): a second claim of the job raises instead.
      if !AtPhase(s, r, Building) || (claim.None? && pages.NoPages?) then None
      else if claim.Some? && (claim.value in s.claims || s.runs[r].job in s.claims.Values) then None
      else
        var j := s.runs[r].job;
        Some(Finish(s, r, Done, claim).(
          claims := if claim.Some? then s.claims[claim.value := j] else s.claims,
          intakes := if pages.Parked? then s.intakes + {j} else s.intakes,
          held := if claim.None? && pages.HeldAlready? then s.held + {j} else s.held))
    case GiveUp(r) =>
      if AtPhase(s, r, Building) then Some(Finish(s, r, Failed, None)) else None
    case Raise(r) =>
      if AtPhase(s, r, Started) || AtPhase(s, r, NoClaimSeen) || AtPhase(s, r, Building)
      then Some(Goto(s, r, Raised)) else None
    case RecoverClaim(r, c) =>
      if AtPhase(s, r, Raised) && c in s.claims && s.claims[c] == s.runs[r].job
      then Some(Finish(s, r, Done, Some(c))) else None
    case RecoverNothing(r) =>
      if AtPhase(s, r, Raised) && s.runs[r].job !in s.claims.Values then Some(Goto(s, r, RaisedNoClaim)) else None
    case MarkFailed(r) =>
      if AtPhase(s, r, RaisedNoClaim) then Some(Finish(s, r, Failed, None)) else None
    case Crash(r) =>
      if Live(s, r) then Some(Goto(s, r, Ended)) else None
  }

  /** The state after all the steps, or None if one of them could not happen. */
  function Replay(s: State, steps: seq<Step>): Option<State> {
    if steps == [] then Some(s)
    else
      var before := Replay(s, steps[..|steps| - 1]);
      if before.None? then None else Apply(before.value, steps[|steps| - 1])
  }

  // -- at most one claim per job, in every interleaving ---------------------------

  predicate JobOk(s: State, j: JobId)
    requires j < |s.jobs|
  {
    var job := s.jobs[j];
    && job.attempts <= MAX_ATTEMPTS
    && (job.status.Queued? <==> job.attempts == 0)
    && (job.claim.Some? ==> job.Terminal() && job.claim.value in s.claims && s.claims[job.claim.value] == j)
    && (j in s.intakes || j in s.held ==> job.Terminal())
    && (job.status.Done? ==> job.claim.Some? || j in s.intakes || j in s.held)
  }

  predicate RunOk(s: State, r: RunId)
    requires r < |s.runs|
  {
    s.runs[r].job < |s.jobs| && !s.jobs[s.runs[r].job].status.Queued?
  }

  ghost predicate Inv(s: State) {
    && (forall j :: 0 <= j < |s.jobs| ==> JobOk(s, j))
    && (forall r :: 0 <= r < |s.runs| ==> RunOk(s, r))
    && (forall c :: c in s.claims ==> s.claims[c] < |s.jobs| && s.jobs[s.claims[c]].claim == Some(c))
    && (forall j :: j in s.intakes || j in s.held ==> j < |s.jobs|)
  }

  lemma ApplyKeepsInv(s: State, step: Step)
    requires Inv(s) && Apply(s, step).Some?
    ensures Inv(Apply(s, step).value)
  {
    if ByRun(step) {
      RunStepKeepsInv(s, step);
    } else {
      QueueStepKeepsInv(s, step);
    }
  }

  lemma RunStepKeepsInv(s: State, step: Step)
    requires Inv(s) && ByRun(step) && Apply(s, step).Some?
    ensures Inv(Apply(s, step).value)
  {
    var t := Apply(s, step).value;
    var j := s.runs[step.run].job;
    assert RunOk(s, step.run);
    RunStepTouches(s, step);
    RunStepKeepsOwn(s, step);
    forall i | 0 <= i < |t.jobs| ensures JobOk(t, i) {
      assert JobOk(s, i);
      assert i != j ==> t.jobs[i] == s.jobs[i];
    }
    forall q | 0 <= q < |t.runs| ensures RunOk(t, q) {
      assert RunOk(s, q);
    }
  }

  /** A step of a run changes its own job only, and the tables in what names that job. */
  lemma RunStepTouches(s: State, step: Step)
    requires Inv(s) && ByRun(step) && Apply(s, step).Some?
    ensures
      var t, j := Apply(s, step).value, s.runs[step.run].job;
      && j < |s.jobs| && |t.jobs| == |s.jobs| && t.jobs == s.jobs[j := t.jobs[j]]
      && |t.runs| == |s.runs| && (forall q :: 0 <= q < |s.runs| ==> t.runs[q].job == s.runs[q].job)
      && (forall c :: c in s.claims ==> c in t.claims && t.claims[c] == s.claims[c])
      && (forall c :: c in t.claims && c !in s.claims ==> t.claims[c] == j && t.jobs[j].claim == Some(c))
      && (forall i :: i != j ==> (i in t.intakes <==> i in s.intakes) && (i in t.held <==> i in s.held))
  {
    assert RunOk(s, step.run);
  }

  lemma RunStepKeepsOwn(s: State, step: Step)
    requires Inv(s) && ByRun(step) && Apply(s, step).Some? && s.runs[step.run].job < |s.jobs|
    ensures
      var t, j := Apply(s, step).value, s.runs[step.run].job;
      && |t.jobs| == |s.jobs| && JobOk(t, j) && !t.jobs[j].status.Queued?
      && (s.jobs[j].claim.Some? ==> t.jobs[j].claim == s.jobs[j].claim)
  {
    assert RunOk(s, step.run) && JobOk(s, s.runs[step.run].job);
  }

  lemma QueueStepKeepsInv(s: State, step: Step)
    requires Inv(s) && !ByRun(step) && Apply(s, step).Some?
    ensures Inv(Apply(s, step).value)
  {
    var t := Apply(s, step).value;
    forall i | 0 <= i < |t.jobs| ensures JobOk(t, i) {
      if i < |s.jobs| { assert JobOk(s, i); }
    }
    forall q | 0 <= q < |t.runs| ensures RunOk(t, q) {
      if q < |s.runs| { assert RunOk(s, q); }
    }
    forall c | c in t.claims ensures t.claims[c] < |t.jobs| && t.jobs[t.claims[c]].claim == Some(c) {
      assert JobOk(s, s.claims[c]);
    }
  }

  lemma {:induction false} ReplayKeepsInv(s: State, steps: seq<Step>)
    requires Inv(s) && Replay(s, steps).Some?
    ensures Inv(Replay(s, steps).value)
  {
    if steps != [] {
      ReplayKeepsInv(s, steps[..|steps| - 1]);
      ApplyKeepsInv(Replay(s, steps[..|steps| - 1]).value, steps[|steps| - 1]);
    }
  }

  /** In every interleaving from the empty queue, with crashes and overtaken runs: a job
      has at most one committed claim, and a claim for the job is committed exactly when
      the job's link names it. A done job left a claim or a row of its own in the holding
      queue, or listed only pages other uploads had left there. */
  lemma {:induction false} OneClaimPerJob(steps: seq<Step>, j: JobId)
    requires Replay(Init, steps).Some? && j < |Replay(Init, steps).value.jobs|
    ensures
      var s := Replay(Init, steps).value;
      && (forall c :: c in s.claims && s.claims[c] == j <==> s.jobs[j].claim == Some(c))
      && (forall c, d :: c in s.claims && d in s.claims && s.claims[c] == j && s.claims[d] == j ==> c == d)
      && (s.jobs[j].status.Done? ==> HasClaim(s, j) || j in s.intakes || j in s.held)
      && s.jobs[j].attempts <= MAX_ATTEMPTS
  {
    ReplayKeepsInv(Init, steps);
    var s := Replay(Init, steps).value;
    assert JobOk(s, j);
  }

  /** The claim link of a job, once set, is never cleared or changed, the claim row never
      disappears, and a job that has ended never runs again. */
  lemma {:induction false} LinkIsForever(s: State, steps: seq<Step>, j: JobId)
    requires Inv(s) && Replay(s, steps).Some? && j < |s.jobs|
    ensures
      var t := Replay(s, steps).value;
      && j < |t.jobs|
      && (s.jobs[j].claim.Some? ==> t.jobs[j].claim == s.jobs[j].claim)
      && (forall c :: c in s.claims ==> c in t.claims && t.claims[c] == s.claims[c])
      && (s.jobs[j].Terminal() ==> t.jobs[j].Terminal() && t.jobs[j].attempts == s.jobs[j].attempts)
  {
    if steps != [] {
      var init := steps[..|steps| - 1];
      LinkIsForever(s, init, j);
      ReplayKeepsInv(s, init);
      LinkStep(Replay(s, init).value, steps[|steps| - 1], j);
    }
  }

  lemma LinkStep(s: State, step: Step, j: JobId)
    requires Inv(s) && Apply(s, step).Some? && j < |s.jobs|
    ensures
      var t := Apply(s, step).value;
      && j < |t.jobs|
      && (s.jobs[j].claim.Some? ==> t.jobs[j].claim == s.jobs[j].claim)
      && (forall c :: c in s.claims ==> c in t.claims && t.claims[c] == s.claims[c])
      && (s.jobs[j].Terminal() ==> t.jobs[j].Terminal() && t.jobs[j].attempts == s.jobs[j].attempts)
  {
    assert JobOk(s, j);
  }

  // -- the queue drains -------------------------------------------------------------

  function JobWeight(job: Job): nat {
    if job.Terminal() || job.attempts > MAX_ATTEMPTS then 0 else 6 * (MAX_ATTEMPTS - job.attempts) + 1
  }

  function PhaseWeight(phase: Phase): nat {
    match phase
    case Started => 5
    case NoClaimSeen => 4
    case Building => 3
    case Raised => 2
    case RaisedNoClaim => 1
    case Ended => 0
  }

  function JobsWeight(jobs: seq<Job>): nat {
    if jobs == [] then 0 else JobsWeight(jobs[..|jobs| - 1]) + JobWeight(jobs[|jobs| - 1])
  }

  function RunsWeight(runs: seq<Run>): nat {
    if runs == [] then 0 else RunsWeight(runs[..|runs| - 1]) + PhaseWeight(runs[|runs| - 1].phase)
  }

  /** Attempts left, live runs and unfinished jobs, weighed together. */
  function Measure(s: State): nat {
    JobsWeight(s.jobs) + RunsWeight(s.runs)
  }

  lemma {:induction false} JobsWeightUpdate(jobs: seq<Job>, j: nat, job: Job)
    requires j < |jobs|
    ensures JobsWeight(jobs[j := job]) == JobsWeight(jobs) - JobWeight(jobs[j]) + JobWeight(job)
  {
    var last := |jobs| - 1;
    if j < last {
      JobsWeightUpdate(jobs[..last], j, job);
      assert jobs[j := job][..last] == jobs[..last][j := job];
    } else {
      assert jobs[j := job][..last] == jobs[..last];
    }
  }

  lemma {:induction false} RunsWeightUpdate(runs: seq<Run>, r: nat, run: Run)
    requires r < |runs|
    ensures RunsWeight(runs[r := run]) == RunsWeight(runs) - PhaseWeight(runs[r].phase) + PhaseWeight(run.phase)
  {
    var last := |runs| - 1;
    if r < last {
      RunsWeightUpdate(runs[..last], r, run);
      assert runs[r := run][..last] == runs[..last][r := run];
    } else {
      assert runs[r := run][..last] == runs[..last];
    }
  }

  lemma {:induction false} ReapWeight(jobs: seq<Job>, now: int)
    ensures
      JobsWeight(ReapAll(jobs, now)) + ReapCount(jobs, now) <= JobsWeight(jobs)
  {
    if jobs != [] {
      var last := |jobs| - 1;
      ReapWeight(jobs[..last], now);
      assert ReapAll(jobs, now)[..last] == ReapAll(jobs[..last], now);
      if Reapable(jobs[last], now) && jobs[last].attempts == MAX_ATTEMPTS {
        assert JobWeight(jobs[last]) == 1;
      }
    }
  }

  /** Jobs within their budget of attempts that a reap would dead-letter. */
  function ReapCount(jobs: seq<Job>, now: int): nat {
    if jobs == [] then 0
    else
      var last := jobs[|jobs| - 1];
      ReapCount(jobs[..|jobs| - 1], now) + (if Reapable(last, now) && last.attempts == MAX_ATTEMPTS then 1 else 0)
  }

  lemma {:induction false} ReapCountPositive(jobs: seq<Job>, now: int, j: nat)
    requires j < |jobs| && Reapable(jobs[j], now) && jobs[j].attempts == MAX_ATTEMPTS
    ensures ReapCount(jobs, now) > 0
  {
    if j < |jobs| - 1 {
      ReapCountPositive(jobs[..|jobs| - 1], now, j);
    }
  }

  /** A claim, a finish, a crash, a read that moves a run on, or a reap that finds a job:
      everything but waiting, heartbeats and new uploads. */
  predicate Works(s: State, step: Step) {
    match step
    case Enqueue => false
    case Tick(_) => false
    case Progress(_) => false
    case Reap => exists j :: 0 <= j < |s.jobs| && Reapable(s.jobs[j], s.now)
    case _ => true
  }

  lemma StepWeight(s: State, step: Step)
    requires Inv(s) && Apply(s, step).Some? && !step.Enqueue?
    ensures Measure(Apply(s, step).value) + (if Works(s, step) then 1 else 0) <= Measure(s)
  {
    var t := Apply(s, step).value;
    match step
    case Tick(_) =>
    case Reap =>
      ReapWeight(s.jobs, s.now);
      if Works(s, step) {
        var j :| 0 <= j < |s.jobs| && Reapable(s.jobs[j], s.now);
        assert JobOk(s, j);
        ReapCountPositive(s.jobs, s.now, j);
      }
    case ClaimNext(locked) =>
      var j := NextRunnable(s.jobs, s.now, locked, 0).value;
      assert JobOk(s, j);
      JobsWeightUpdate(s.jobs, j, t.jobs[j]);
      assert t.runs[..|s.runs|] == s.runs;
    case Progress(r) =>
      JobsWeightUpdate(s.jobs, s.runs[r].job, t.jobs[s.runs[r].job]);
    case _ =>
      RunStepWeight(s, step);
  }

  lemma RunStepWeight(s: State, step: Step)
    requires Inv(s) && Apply(s, step).Some?
    requires ByRun(step) && !step.Progress?
    ensures Measure(Apply(s, step).value) < Measure(s)
  {
    var t := Apply(s, step).value;
    var r := step.run;
    var j := s.runs[r].job;
    assert RunOk(s, r);
    assert t.jobs == s.jobs[j := t.jobs[j]] && (t.jobs[j] == s.jobs[j] || t.jobs[j].Terminal());
    assert t.runs == s.runs[r := t.runs[r]] && PhaseWeight(t.runs[r].phase) < PhaseWeight(s.runs[r].phase);
    RunsWeightUpdate(s.runs, r, t.runs[r]);
    JobsWeightUpdate(s.jobs, j, t.jobs[j]);
  }

  function WorkDone(s: State, steps: seq<Step>): nat
    requires Replay(s, steps).Some?
  {
    if steps == [] then 0
    else
      var init := steps[..|steps| - 1];
      WorkDone(s, init) + (if Works(Replay(s, init).value, steps[|steps| - 1]) then 1 else 0)
  }

  /** With no new uploads the measure bounds all the work any interleaving can do. */
  lemma {:induction false} WorkIsBounded(s: State, steps: seq<Step>)
    requires Inv(s) && Replay(s, steps).Some? && Enqueue !in steps
    ensures Measure(Replay(s, steps).value) + WorkDone(s, steps) <= Measure(s)
  {
    if steps != [] {
      var init := steps[..|steps| - 1];
      WorkIsBounded(s, init);
      ReplayKeepsInv(s, init);
      assert steps[|steps| - 1] in steps;
      StepWeight(Replay(s, init).value, steps[|steps| - 1]);
    }
  }

  /** The queue never gets stuck: whatever has crashed, once an unfinished job's heartbeat
      is stale it is either runnable again or reaped, never both, and then a worker that
      finds no lock in its way has a job to claim. */
  lemma UnfinishedJobMovesOn(s: State, j: JobId, wait: nat)
    requires Inv(s) && j < |s.jobs| && !s.jobs[j].Terminal() && IsStale(s.jobs[j], s.now + wait)
    ensures
      var t := Apply(s, Tick(wait)).value;
      && (Runnable(t.jobs[j], t.now) <==> !Reapable(t.jobs[j], t.now))
      && (Runnable(t.jobs[j], t.now) ==> Apply(t, ClaimNext({})).Some? && NextRunnable(t.jobs, t.now, {}, 0).value <= j)
      && (Reapable(t.jobs[j], t.now) ==> Apply(t, Reap).value.jobs[j].status.Failed?)
  {
    assert JobOk(s, j);
  }

  // -- when done and failed are final -------------------------------------------------

  predicate Busy(s: State, j: JobId) {
    exists r :: 0 <= r < |s.runs| && s.runs[r].phase != Ended && s.runs[r].job == j
  }

  /** A job is claimed again, or dead-lettered, only after its previous run has ended. */
  predicate Patient(s: State, step: Step) {
    match step
    case ClaimNext(locked) =>
      var next := NextRunnable(s.jobs, s.now, locked, 0);
      next.None? || !Busy(s, next.value)
    case Reap => forall j :: 0 <= j < |s.jobs| && Reapable(s.jobs[j], s.now) ==> !Busy(s, j)
    case _ => true
  }

  predicate AllPatient(s: State, steps: seq<Step>) {
    steps == [] ||
      var init := steps[..|steps| - 1];
      && AllPatient(s, init)
      && (Replay(s, init).Some? ==> Patient(Replay(s, init).value, steps[|steps| - 1]))
  }

  predicate OnRunningJob(s: State, r: RunId)
    requires r < |s.runs|
  {
    s.runs[r].job < |s.jobs| && s.jobs[s.runs[r].job].status.Running?
  }

  predicate DoneMeansOutcome(s: State, j: JobId)
    requires j < |s.jobs|
  {
    && (s.jobs[j].status.Done? <==> s.jobs[j].claim.Some? || j in s.intakes || j in s.held)
    && (j in s.held ==> s.jobs[j].claim.None? && j !in s.intakes)
  }

  /** What patience buys: one live run per job, only on running jobs, and no claim or
      diverted page behind the back of a run that has looked. */
  ghost predicate CalmInv(s: State) {
    && Inv(s)
    && (forall r :: 0 <= r < |s.runs| && s.runs[r].phase != Ended ==> OnRunningJob(s, r))
    && (forall q, r :: 0 <= q < r < |s.runs| && s.runs[q].phase != Ended && s.runs[r].phase != Ended
         ==> s.runs[q].job != s.runs[r].job)
    && (forall j :: 0 <= j < |s.jobs| ==> DoneMeansOutcome(s, j))
  }

  lemma CalmStep(s: State, step: Step)
    requires CalmInv(s) && Apply(s, step).Some? && Patient(s, step)
    ensures CalmInv(Apply(s, step).value)
    ensures forall j :: 0 <= j < |s.jobs| && s.jobs[j].Terminal() ==>
      Apply(s, step).value.jobs[j].status == s.jobs[j].status
  {
    ApplyKeepsInv(s, step);
    if ByRun(step) {
      CalmRunStep(s, step);
    } else {
      CalmQueueStep(s, step);
    }
  }

  lemma CalmRunStep(s: State, step: Step)
    requires CalmInv(s) && Apply(s, step).Some? && ByRun(step)
    ensures
      var t := Apply(s, step).value;
      && (Inv(t) ==> CalmInv(t))
      && |t.jobs| == |s.jobs|
      && forall j :: 0 <= j < |s.jobs| && s.jobs[j].Terminal() ==> t.jobs[j].status == s.jobs[j].status
  {
    var t := Apply(s, step).value;
    assert OnRunningJob(s, step.run) && JobOk(s, s.runs[step.run].job) && DoneMeansOutcome(s, s.runs[step.run].job);
    forall r | 0 <= r < |t.runs| && t.runs[r].phase != Ended ensures OnRunningJob(t, r) {
      assert OnRunningJob(s, r);
    }
    forall j | 0 <= j < |t.jobs| ensures DoneMeansOutcome(t, j) {
      assert DoneMeansOutcome(s, j);
    }
  }

  lemma CalmQueueStep(s: State, step: Step)
    requires CalmInv(s) && Apply(s, step).Some? && Patient(s, step) && !ByRun(step)
    ensures
      var t := Apply(s, step).value;
      && (Inv(t) ==> CalmInv(t))
      && |t.jobs| >= |s.jobs|
      && forall j :: 0 <= j < |s.jobs| && s.jobs[j].Terminal() ==> t.jobs[j].status == s.jobs[j].status
  {
    var t := Apply(s, step).value;
    forall r | 0 <= r < |t.runs| && t.runs[r].phase != Ended ensures OnRunningJob(t, r) {
      if r < |s.runs| {
        assert OnRunningJob(s, r) && Busy(s, s.runs[r].job);
      }
    }
    forall j | 0 <= j < |t.jobs| ensures DoneMeansOutcome(t, j) {
      if j < |s.jobs| {
        assert DoneMeansOutcome(s, j) && JobOk(s, j);
      }
    }
  }

  /** If jobs are claimed again and dead-lettered only after their previous run has ended,
      then done and failed are final, and done means exactly that the job left a claim, or a
      row of its own in the holding queue, or else listed only pages held there already. */
  lemma {:induction false} PatientQueueIsFinal(s: State, steps: seq<Step>, j: JobId)
    requires CalmInv(s) && Replay(s, steps).Some? && AllPatient(s, steps) && j < |s.jobs|
    ensures CalmInv(Replay(s, steps).value) && j < |Replay(s, steps).value.jobs|
    ensures s.jobs[j].Terminal() ==> Replay(s, steps).value.jobs[j].status == s.jobs[j].status
  {
    if steps != [] {
      var init := steps[..|steps| - 1];
      PatientQueueIsFinal(s, init, j);
      CalmStep(Replay(s, init).value, steps[|steps| - 1]);
    }
  }

  /** Patience about claiming is needed: an overtaken run fails a job whose claim exists. */
  lemma OvertakenRunUndoesDone(s: State, zombie: RunId, r: RunId, c: ClaimId)
    requires Inv(s) && zombie != r && AtPhase(s, zombie, Building) && AtPhase(s, r, Building)
    requires s.runs[zombie].job == s.runs[r].job && s.runs[r].job !in s.claims.Values && c !in s.claims
    ensures
      var j := s.runs[r].job;
      var done := Apply(s, Commit(r, Some(c), NoPages));
      && done.Some? && done.value.jobs[j].status.Done?
      && Apply(done.value, GiveUp(zombie)).Some?
      && Apply(done.value, GiveUp(zombie)).value.jobs[j].status.Failed?
      && HasClaim(Apply(done.value, GiveUp(zombie)).value, j)
  {
    var undone := Apply(Apply(s, Commit(r, Some(c), NoPages)).value, GiveUp(zombie)).value;
    assert c in undone.claims && undone.claims[c] == s.runs[r].job;
  }

  /** So is patience about reaping: the last permitted run, slow but alive, finishes a job
      that was dead-lettered in the meantime. */
  lemma ReapedRunUndoesFailed(s: State, r: RunId, c: ClaimId)
    requires Inv(s) && AtPhase(s, r, Building) && Reapable(s.jobs[s.runs[r].job], s.now)
    requires s.runs[r].job !in s.claims.Values && c !in s.claims
    ensures
      var j := s.runs[r].job;
      var reaped := Apply(s, Reap).value;
      && reaped.jobs[j].status.Failed?
      && Apply(reaped, Commit(r, Some(c), NoPages)).Some?
      && Apply(reaped, Commit(r, Some(c), NoPages)).value.jobs[j].status.Done?
  {
  }

  /** The step is taken by a live run of the job. */
  predicate StepOfRun(s: State, step: Step, j: JobId) {
    ByRun(step) && Live(s, step.run) && s.runs[step.run].job == j
  }

  /** Exactly which steps change how an ended job ended: a run of it that is still alive gives
      up on a done job, or lands or finds something for a failed one. */
  lemma FlipsIff(s: State, step: Step, j: JobId)
    requires Inv(s) && Apply(s, step).Some? && j < |s.jobs| && s.jobs[j].Terminal()
    ensures j < |Apply(s, step).value.jobs| && Apply(s, step).value.jobs[j].Terminal()
    ensures Apply(s, step).value.jobs[j].status != s.jobs[j].status <==>
      && StepOfRun(s, step, j)
      && if s.jobs[j].status.Done? then step.GiveUp? || step.MarkFailed?
         else step.Commit? || step.SeeClaim? || step.SeeIntakes? || step.RecoverClaim?
  {
    assert JobOk(s, j);
  }

  /** A run whose job has no claim can fail it, whatever it is about to do: the step that takes
      it closer. */
  function Failing(s: State, r: RunId): (step: Step)
    requires Live(s, r)
  {
    match s.runs[r].phase
    case Raised => RecoverNothing(r)
    case RaisedNoClaim => MarkFailed(r)
    case _ => Raise(r)
  }

  lemma FailingStep(s: State, r: RunId)
    requires Live(s, r) && s.runs[r].job !in s.claims.Values
    ensures
      var t, j := Apply(s, Failing(s, r)), s.runs[r].job;
      && t.Some? && |t.value.jobs| == |s.jobs| && t.value.claims == s.claims && r < |t.value.runs|
      && t.value.runs[r].job == j
      && PhaseWeight(t.value.runs[r].phase) < PhaseWeight(s.runs[r].phase)
      && if s.runs[r].phase.RaisedNoClaim? then t.value.jobs[j].status.Failed? else Live(t.value, r)
  {
  }

  lemma {:induction false} AliveCanFail(s: State, r: RunId) returns (steps: seq<Step>)
    requires Live(s, r) && s.runs[r].job !in s.claims.Values
    ensures Replay(s, steps).Some? && |Replay(s, steps).value.jobs| == |s.jobs|
    ensures Replay(s, steps).value.jobs[s.runs[r].job].status.Failed?
    decreases PhaseWeight(s.runs[r].phase)
  {
    FailingStep(s, r);
    steps := Then(s, [], Failing(s, r));
    if !s.runs[r].phase.RaisedNoClaim? {
      var t := Replay(s, steps).value;
      var rest := AliveCanFail(t, r);
      steps := ReplayJoin(s, steps, rest);
    }
  }

  /** A run that has not failed yet can still land, for a job nothing has landed for. */
  predicate CanLand(s: State, r: RunId) {
    AtPhase(s, r, Started) || AtPhase(s, r, NoClaimSeen) || AtPhase(s, r, Building)
  }

  function Landing(s: State, r: RunId): (step: Step)
    requires CanLand(s, r)
  {
    match s.runs[r].phase
    case Started => SeeNoClaim(r)
    case NoClaimSeen => SeeNoIntakes(r)
    case _ => Commit(r, None, Parked)
  }

  predicate SameOtherRuns(s: State, t: State, r: RunId) {
    |t.runs| == |s.runs| && forall q :: 0 <= q < |s.runs| && q != r ==> t.runs[q] == s.runs[q]
  }

  lemma LandingStep(s: State, r: RunId)
    requires CanLand(s, r) && s.runs[r].job !in s.claims.Values && s.runs[r].job !in s.intakes
    ensures
      var t, j := Apply(s, Landing(s, r)), s.runs[r].job;
      && t.Some? && |t.value.jobs| == |s.jobs| && t.value.claims == s.claims && SameOtherRuns(s, t.value, r)
      && t.value.runs[r].job == j
      && PhaseWeight(t.value.runs[r].phase) < PhaseWeight(s.runs[r].phase)
      && if s.runs[r].phase.Building? then t.value.jobs[j].status.Done?
         else CanLand(t.value, r) && t.value.intakes == s.intakes
  {
  }

  lemma {:induction false} AliveCanLand(s: State, r: RunId) returns (steps: seq<Step>)
    requires CanLand(s, r) && s.runs[r].job !in s.claims.Values && s.runs[r].job !in s.intakes
    ensures Replay(s, steps).Some?
    ensures
      var t := Replay(s, steps).value;
      && |t.jobs| == |s.jobs| && t.jobs[s.runs[r].job].status.Done? && t.claims == s.claims && SameOtherRuns(s, t, r)
    decreases PhaseWeight(s.runs[r].phase)
  {
    LandingStep(s, r);
    steps := Then(s, [], Landing(s, r));
    if !s.runs[r].phase.Building? {
      var t := Replay(s, steps).value;
      var rest := AliveCanLand(t, r);
      steps := ReplayJoin(s, steps, rest);
    }
  }

  /** A job that has not ended has nothing to show yet. */
  lemma UnendedIsEmpty(s: State, j: JobId)
    requires Inv(s) && j < |s.jobs| && !s.jobs[j].Terminal()
    ensures j !in s.claims.Values && j !in s.intakes && j !in s.held && s.jobs[j].claim.None?
  {
    assert JobOk(s, j);
    forall c | c in s.claims ensures s.claims[c] != j {
      assert s.jobs[s.claims[c]].claim == Some(c);
    }
  }

  /** Patience about claiming is needed every time: whatever the overtaken run was doing,
      claiming its job again can be followed by the job ending done and then failed. */
  lemma ImpatientClaimCanFlip(s: State, locked: set<JobId>, r: RunId) returns (landing: seq<Step>, failing: seq<Step>)
    requires Inv(s) && Live(s, r) && NextRunnable(s.jobs, s.now, locked, 0) == Some(s.runs[r].job)
    ensures
      var claimed := Apply(s, ClaimNext(locked));
      && claimed.Some? && Replay(claimed.value, landing).Some?
      && var landed := Replay(claimed.value, landing).value;
      && |landed.jobs| == |s.jobs| && landed.jobs[s.runs[r].job].status.Done? && Replay(landed, failing).Some?
      && |Replay(landed, failing).value.jobs| == |s.jobs|
      && Replay(landed, failing).value.jobs[s.runs[r].job].status.Failed?
  {
    var j, claimed := s.runs[r].job, Apply(s, ClaimNext(locked)).value;
    ApplyKeepsInv(s, ClaimNext(locked));
    UnendedIsEmpty(claimed, j);
    landing := AliveCanLand(claimed, |s.runs|);
    ReplayKeepsInv(claimed, landing);
    var landed := Replay(claimed, landing).value;
    assert landed.runs[r] == s.runs[r];
    assert landed.claims == claimed.claims;
    failing := AliveCanFail(landed, r);
  }

  /** And so is patience about reaping, while the reaped run has not itself failed yet. */
  lemma ImpatientReapCanFlip(s: State, r: RunId) returns (landing: seq<Step>)
    requires Inv(s) && CanLand(s, r) && Reapable(s.jobs[s.runs[r].job], s.now)
    ensures
      var reaped := Apply(s, Reap).value;
      && reaped.jobs[s.runs[r].job].status.Failed? && Replay(reaped, landing).Some?
      && |Replay(reaped, landing).value.jobs| == |s.jobs|
      && Replay(reaped, landing).value.jobs[s.runs[r].job].status.Done?
  {
    UnendedIsEmpty(s, s.runs[r].job);
    ApplyKeepsInv(s, Reap);
    landing := AliveCanLand(Apply(s, Reap).value, r);
  }

  /** Failed for good: no claim, no row of its own, and every live run of it past landing. */
  ghost predicate FailedForGood(s: State, j: JobId) {
    && j < |s.jobs| && s.jobs[j].status.Failed? && j !in s.claims.Values && j !in s.intakes
    && forall r :: 0 <= r < |s.runs| && s.runs[r].job == j ==> !CanLand(s, r)
  }

  lemma FailedStays(s: State, step: Step, j: JobId)
    requires Inv(s) && FailedForGood(s, j) && Apply(s, step).Some?
    ensures FailedForGood(Apply(s, step).value, j)
  {
    assert JobOk(s, j);
    if ByRun(step) {
      FailedStaysByRun(s, step, j);
    } else {
      var t := Apply(s, step).value;
      forall r | 0 <= r < |t.runs| && t.runs[r].job == j ensures !CanLand(t, r) {
        if r < |s.runs| { assert !CanLand(s, r); }
      }
    }
  }

  lemma FailedStaysByRun(s: State, step: Step, j: JobId)
    requires FailedForGood(s, j) && ByRun(step) && Apply(s, step).Some?
    requires (forall r :: 0 <= r < |s.runs| ==> RunOk(s, r))
    ensures FailedForGood(Apply(s, step).value, j)
  {
    var t, q := Apply(s, step).value, step.run;
    assert t.runs == s.runs[q := t.runs[q]] && t.runs[q].job == s.runs[q].job;
    assert s.runs[q].job == j ==> !CanLand(s, q);
    forall r | 0 <= r < |t.runs| && t.runs[r].job == j ensures !CanLand(t, r) {
      assert !CanLand(s, r);
    }
  }

  lemma {:induction false} FailedForGoodStays(s: State, steps: seq<Step>, j: JobId)
    requires Inv(s) && FailedForGood(s, j) && Replay(s, steps).Some?
    ensures FailedForGood(Replay(s, steps).value, j)
  {
    if steps != [] {
      var init := steps[..|steps| - 1];
      FailedForGoodStays(s, init, j);
      ReplayKeepsInv(s, init);
      FailedStays(Replay(s, init).value, steps[|steps| - 1], j);
    }
  }

  /** A dead-lettered job stays failed through every continuation exactly when no run of it
      could still land at that moment. */
  lemma ReapIsFinalIff(s: State, j: JobId)
    requires Inv(s) && j < |s.jobs| && Reapable(s.jobs[j], s.now)
    ensures
      var reaped := Apply(s, Reap).value;
      (forall steps :: Replay(reaped, steps).Some? ==>
         && j < |Replay(reaped, steps).value.jobs|
         && Replay(reaped, steps).value.jobs[j].status.Failed?)
      <==> forall r :: 0 <= r < |s.runs| && s.runs[r].job == j ==> !CanLand(s, r)
  {
    var reaped := Apply(s, Reap).value;
    UnendedIsEmpty(s, j);
    ApplyKeepsInv(s, Reap);
    if r :| 0 <= r < |s.runs| && s.runs[r].job == j && CanLand(s, r) {
      var landing := ImpatientReapCanFlip(s, r);
      assert Replay(reaped, landing).Some?;
    } else {
      forall r | 0 <= r < |reaped.runs| && reaped.runs[r].job == j ensures !CanLand(reaped, r) {
        assert !CanLand(s, r);
      }
      forall steps | Replay(reaped, steps).Some?
        ensures j < |Replay(reaped, steps).value.jobs| && Replay(reaped, steps).value.jobs[j].status.Failed?
      {
        FailedForGoodStays(reaped, steps, j);
      }
    }
  }

  lemma {:induction false} ReplayMore(s: State, steps: seq<Step>, step: Step)
    ensures Replay(s, steps + [step]) ==
      if Replay(s, steps).None? then None else Apply(Replay(s, steps).value, step)
  {
    assert (steps + [step])[..|steps|] == steps;
  }

  lemma Then(s: State, steps: seq<Step>, step: Step) returns (more: seq<Step>)
    requires Replay(s, steps).Some? && Apply(Replay(s, steps).value, step).Some?
    ensures more == steps + [step] && Replay(s, more) == Apply(Replay(s, steps).value, step)
  {
    ReplayMore(s, steps, step);
    more := steps + [step];
  }

  lemma {:induction false} ReplayJoin(s: State, first: seq<Step>, second: seq<Step>) returns (all: seq<Step>)
    requires Replay(s, first).Some? && Replay(Replay(s, first).value, second).Some?
    ensures all == first + second && Replay(s, all) == Replay(Replay(s, first).value, second)
  {
    if second == [] {
      all := first;
    } else {
      var init := second[..|second| - 1];
      all := ReplayJoin(s, first, init);
      all := Then(s, all, second[|second| - 1]);
      assert all == first + second;
    }
  }

  /** The states some interleaving from the empty queue leads to. */
  ghost predicate Reachable(s: State) {
    exists steps :: Replay(Init, steps) == Some(s)
  }

  lemma ReachNext(s: State, step: Step, t: State)
    requires Reachable(s) && Apply(s, step) == Some(t)
    ensures Reachable(t)
  {
    var steps :| Replay(Init, steps) == Some(s);
    var more := Then(Init, steps, step);
  }

  /** The queue holds one job, which may be claimed, and nothing was built for it. */
  predicate OneRunnable(s: State) {
    |s.jobs| == 1 && Runnable(s.jobs[0], s.now) && s.claims == map[] && s.intakes == {} && s.held == {}
  }

  function Claimed(s: State): State
    requires |s.jobs| == 1
  {
    s.(jobs := [s.jobs[0].(status := Running, attempts := s.jobs[0].attempts + 1, heartbeat := Some(s.now))],
       runs := s.runs + [Run(0, Started)])
  }

  lemma ClaimsIt(s: State)
    requires Reachable(s) && OneRunnable(s)
    ensures Reachable(Claimed(s))
  {
    assert NextRunnable(s.jobs, s.now, {}, 0) == Some(0);
    assert s.jobs[0 := Claimed(s).jobs[0]] == Claimed(s).jobs;
    ReachNext(s, ClaimNext({}), Claimed(s));
  }

  lemma LooksAndBuilds(s: State, r: RunId)
    requires Reachable(s) && AtPhase(s, r, Started) && s.claims == map[] && s.intakes == {}
    ensures Reachable(Goto(s, r, Building))
  {
    var seen := Goto(s, r, NoClaimSeen);
    ReachNext(s, SeeNoClaim(r), seen);
    assert Goto(seen, r, Building).runs == Goto(s, r, Building).runs;
    ReachNext(seen, SeeNoIntakes(r), Goto(s, r, Building));
  }

  lemma Waits(s: State, seconds: nat)
    requires Reachable(s)
    ensures Reachable(s.(now := s.now + seconds))
  {
    ReachNext(s, Tick(seconds), s.(now := s.now + seconds));
  }

  lemma EnqueuesOne() returns (s: State)
    ensures Reachable(s) && s == State([Job(Queued, 0, None, None)], map[], {}, {}, [], 0)
  {
    s := State([Job(Queued, 0, None, None)], map[], {}, {}, [], 0);
    assert Replay(Init, []) == Some(Init);
    assert Init.jobs + [Job(Queued, 0, None, None)] == s.jobs;
    ReachNext(Init, Enqueue, s);
  }

  /** Both situations are reachable from the empty queue: a second run of a job builds while
      the first, only slow, still does. */
  lemma OvertakingIsReachable() returns (s: State)
    ensures Reachable(s)
    ensures AtPhase(s, 0, Building) && AtPhase(s, 1, Building) && s.runs[0].job == s.runs[1].job && s.claims == map[]
  {
    var start := EnqueuesOne();
    ClaimsIt(start);
    LooksAndBuilds(Claimed(start), 0);
    var slow := Goto(Claimed(start), 0, Building);
    Waits(slow, 301);
    var late := slow.(now := slow.now + 301);
    ClaimsIt(late);
    LooksAndBuilds(Claimed(late), 1);
    s := Goto(Claimed(late), 1, Building);
  }

  lemma EndsOnHeldPages(building: State) returns (s: State)
    requires Reachable(building) && AtPhase(building, 0, Building) && |building.jobs| == 1
    requires building.jobs[0].claim.None? && building.claims == map[] && building.intakes == {}
    ensures Reachable(s) && |s.jobs| == 1 && s.jobs[0].status.Done?
    ensures s.jobs[0].claim.None? && s.claims == map[] && s.intakes == {}
  {
    s := Apply(building, Commit(0, None, HeldAlready)).value;
    ReachNext(building, Commit(0, None, HeldAlready), s);
  }

  /** A job can end done with neither a claim nor a row of its own: all its pages were open in
      the holding queue already. BuildClaim.BillHeldAlready is an upload that does it. */
  lemma DoneOnHeldPagesIsReachable() returns (s: State)
    ensures Reachable(s) && |s.jobs| == 1 && s.jobs[0].status.Done?
    ensures s.jobs[0].claim.None? && s.claims == map[] && s.intakes == {}
  {
    var start := EnqueuesOne();
    ClaimsIt(start);
    LooksAndBuilds(Claimed(start), 0);
    s := EndsOnHeldPages(Goto(Claimed(start), 0, Building));
  }

  /** One job, claimed n times by runs that died, stale again. */
  predicate DeadRuns(s: State, n: nat) {
    OneRunnable(s) && |s.runs| == n && s.jobs[0].attempts == n
  }

  lemma OneMoreDeadRun(s: State, n: nat) returns (t: State)
    requires n < 4 && Reachable(s) && DeadRuns(s, n)
    ensures Reachable(t) && DeadRuns(t, n + 1)
  {
    ClaimsIt(s);
    var dead := Goto(Claimed(s), n, Ended);
    ReachNext(Claimed(s), Crash(n), dead);
    Waits(dead, 301);
    t := dead.(now := dead.now + 301);
  }

  /** And the last allowed run of a job is reaped while it still builds. */
  lemma SlowLastRunIsReachable() returns (s: State)
    ensures Reachable(s)
    ensures AtPhase(s, 4, Building) && Reapable(s.jobs[s.runs[4].job], s.now) && s.claims == map[]
  {
    s := EnqueuesOne();
    var n := 0;
    while n < 4
      invariant 0 <= n <= 4 && Reachable(s) && DeadRuns(s, n)
    {
      s := OneMoreDeadRun(s, n);
      n := n + 1;
    }
    ClaimsIt(s);
    LooksAndBuilds(Claimed(s), 4);
    var last := Goto(Claimed(s), 4, Building);
    Waits(last, 301);
    s := last.(now := last.now + 301);
  }

  /** A job just claimed has no claim, no diverted page and no link yet. */
  lemma {:induction false} ClaimedIsFresh(s: State, locked: set<JobId>, t: State, j: JobId)
    requires Inv(s) && Apply(s, ClaimNext(locked)) == Some(t) && NextRunnable(s.jobs, s.now, locked, 0) == Some(j)
    ensures j < |t.jobs| && j !in t.claims.Values && j !in t.intakes && j !in t.held && t.jobs[j].claim.None?
  {
    assert JobOk(s, j);
    forall c | c in s.claims ensures s.claims[c] != j {
      assert s.jobs[s.claims[c]].claim == Some(c);
    }
  }

  // -- the worker's code -------------------------------------------------------------

  /** What a job asks for, as read from its payload and its staged pages. */
  datatype Upload = Upload(client: nat, header: BuildClaim.Header, unread: nat, receipts: seq<BuildClaim.Receipt>,
                           trips: seq<BuildClaim.Trip>)

  function LinesOf(store: BuildClaim.Store, job: JobId, u: Upload): seq<BuildClaim.BuiltLine> {
    BuildClaim.ClaimLines(BuildClaim.Sort(store.intakes, u.client, Some(job), u.header, u.receipts).1, u.trips)
  }

  /** Building the upload puts something into the tables or finds its pages there. */
  predicate Lands(store: BuildClaim.Store, job: JobId, u: Upload) {
    && u.header.valid && !BuildClaim.Raises(store, u.client, Some(job), u.header, u.receipts, u.trips)
    && (LinesOf(store, job, u) != [] || BuildClaim.AnyQueued(u.header, u.receipts))
  }

  predicate LandsClaim(store: BuildClaim.Store, job: JobId, u: Upload) {
    Lands(store, job, u) && LinesOf(store, job, u) != []
  }

  /** All there is to show are open rows somebody else left. */
  predicate LandsOnHeld(store: BuildClaim.Store, job: JobId, u: Upload) {
    && Lands(store, job, u) && LinesOf(store, job, u) == []
    && !BuildClaim.NewImage(store.intakes, u.client, u.header, u.receipts)
  }

  function ClaimsOf(claims: seq<BuildClaim.BuiltClaim>): map<ClaimId, JobId> {
    map c: nat | c < |claims| && claims[c].job.Some? :: claims[c].job.value
  }

  function JobsOf(intakes: seq<BuildClaim.Intake>): (r: set<JobId>)
    ensures forall j: JobId :: j in r <==> BuildClaim.OwnRow(intakes, Some(j))
  {
    set k: nat | k < |intakes| && intakes[k].job.Some? :: intakes[k].job.value
  }

  /** What a capture for a job without rows or a claim does to the tables a worker reads. */
  lemma CaptureTables(store: BuildClaim.Store, job: JobId, u: Upload, r: BuildClaim.IngestResult,
                      after: BuildClaim.Store)
    requires BuildClaim.IsCapture(store, u.client, Some(job), u.header, u.unread, u.receipts, u.trips, r, after)
    requires !BuildClaim.OwnRow(store.intakes, Some(job))
    ensures r.added == 0 && r.diverted == [] <==>
      LinesOf(store, job, u) == [] && !BuildClaim.AnyQueued(u.header, u.receipts)
    ensures r.claim.Some? <==> LinesOf(store, job, u) != []
    ensures r.claim.Some? ==>
      r.claim.value == |store.claims| && ClaimsOf(after.claims) == ClaimsOf(store.claims)[r.claim.value := job]
    ensures r.claim.None? ==> ClaimsOf(after.claims) == ClaimsOf(store.claims)
    ensures JobsOf(after.intakes) ==
      JobsOf(store.intakes) + (if BuildClaim.NewImage(store.intakes, u.client, u.header, u.receipts) then {job} else {})
  {
    BuildClaim.OwnRowIff(store.intakes, u.client, Some(job), u.header, u.receipts);
    if r.added == 0 && r.diverted == [] {
      NothingQueuedNothingNew(store, u);
    }
    forall j: JobId ensures j in JobsOf(after.intakes) <==>
      j in JobsOf(store.intakes) || (j == job && BuildClaim.NewImage(store.intakes, u.client, u.header, u.receipts)) {
      if j != job { BuildClaim.OthersRows(store.intakes, u.client, Some(job), u.header, u.receipts, Some(j)); }
    }
  }

  lemma NothingQueuedNothingNew(store: BuildClaim.Store, u: Upload)
    requires !BuildClaim.AnyQueued(u.header, u.receipts)
    ensures !BuildClaim.NewImage(store.intakes, u.client, u.header, u.receipts)
  {
  }

  /** The job table, with the tables captures write beside it. */
  class JobTable {
    var jobs: seq<Job>
    var now: int
    const capture: BuildClaim.Ingestion
    ghost var held: set<JobId>
    ghost var runs: seq<Run>

    constructor ()
      ensures View() == Init && fresh(capture)
    {
      jobs, now, held, runs := [], 0, {}, [];
      capture := new BuildClaim.Ingestion();
    }

    ghost function View(): State
      reads this, capture
    {
      State(jobs, ClaimsOf(capture.claims), JobsOf(capture.intakes), held, runs, now)
    }

    method ReapPoisonJobs() returns (reaped: nat)
      modifies this`jobs
      ensures Some(View()) == Apply(old(View()), Reap)
      ensures reaped == 0 <==> !Works(old(View()), Reap)
    {
      reaped := 0;
      for i := 0 to |jobs|
        invariant |jobs| == |old(jobs)|
        invariant forall j :: 0 <= j < |jobs| ==> jobs[j] == if j < i then ReapJob(old(jobs)[j], now) else old(jobs)[j]
        invariant reaped == 0 <==> forall j :: 0 <= j < i ==> !Reapable(old(jobs)[j], now)
      {
        if Reapable(jobs[i], now) {
          jobs := jobs[i := jobs[i].(status := Failed, heartbeat := Some(now))];
          reaped := reaped + 1;
        }
      }
      assert jobs == ReapAll(old(jobs), now);
    }

    method ClaimNextJob(locked: set<JobId>) returns (claimed: Option<JobId>)
      modifies this`jobs, this`runs
      ensures claimed == NextRunnable(old(jobs), now, locked, 0)
      ensures claimed.None? ==> View() == old(View()) && Apply(old(View()), ClaimNext(locked)).None?
      ensures claimed.Some? ==> Some(View()) == Apply(old(View()), ClaimNext(locked))
    {
      claimed := None;
      var i := 0;
      while i < |jobs|
        invariant 0 <= i <= |jobs|
        invariant NextRunnable(jobs, now, locked, 0) == NextRunnable(jobs, now, locked, i)
      {
        if Runnable(jobs[i], now) && i !in locked {
          claimed := Some(i);
          jobs := jobs[i := jobs[i].(status := Running, attempts := jobs[i].attempts + 1, heartbeat := Some(now))];
          runs := runs + [Run(i, Started)];
          return;
        }
        i := i + 1;
      }
    }

    method FinishRow(job: JobId, status: Status, claim: Option<ClaimId>, ghost run: RunId)
      requires Live(View(), run) && runs[run].job == job
      modifies this`jobs, this`runs
      ensures View() == Finish(old(View()), run, status, claim)
      ensures jobs[job] == FinishJob(old(jobs)[job], status, claim, now)
    {
      var row := jobs[job].(status := status, heartbeat := Some(now));
      if claim.Some? {
        row := row.(claim := claim);
      }
      jobs := jobs[job := row];
      runs := runs[run := runs[run].(phase := Ended)];
    }

    method ExistingClaimId(job: JobId) returns (claim: Option<ClaimId>)
      ensures claim.None? ==> job !in ClaimsOf(capture.claims).Values
      ensures claim.Some? ==> claim.value in ClaimsOf(capture.claims) && ClaimsOf(capture.claims)[claim.value] == job
    {
      claim := None;
      var c := 0;
      while c < |capture.claims|
        invariant 0 <= c <= |capture.claims| && forall k :: 0 <= k < c ==> capture.claims[k].job != Some(job)
      {
        if capture.claims[c].job == Some(job) { return Some(c); }
        c := c + 1;
      }
    }

    method JobHasIntakes(job: JobId) returns (has: bool)
      ensures has <==> job in JobsOf(capture.intakes)
    {
      var k := 0;
      while k < |capture.intakes|
        invariant 0 <= k <= |capture.intakes| && forall i :: 0 <= i < k ==> capture.intakes[i].job != Some(job)
      {
        if capture.intakes[k].job == Some(job) { return true; }
        k := k + 1;
      }
      has := false;
    }

    ghost method MoveOn(run: RunId, phase: Phase)
      requires run < |runs|
      modifies this`runs
      ensures View() == Goto(old(View()), run, phase)
    {
      runs := runs[run := runs[run].(phase := phase)];
    }

    /** What a build that nothing overtook leaves of its job. */
    ghost predicate Built(store: BuildClaim.Store, before: Job, job: JobId, u: Upload)
      requires job < |jobs|
      reads this
    {
      && jobs[job].Terminal()
      && (jobs[job].status.Done? <==> Lands(store, job, u))
      && jobs[job].claim == if LandsClaim(store, job, u) then Some(|store.claims|) else before.claim
    }

    /** From the claimed job to its end, with nothing in between. */
    method RunJob(job: JobId, u: Upload, ghost r: RunId) returns (ghost trace: seq<Step>)
      requires AtPhase(View(), r, Started) && runs[r].job == job
      modifies this, capture
      ensures Replay(old(View()), trace) == Some(View())
      ensures |jobs| == |old(jobs)| && jobs[job].Terminal()
      ensures job !in old(View()).claims.Values && job !in old(View()).intakes ==>
        && Built(old(capture.State()), old(jobs[job]), job, u)
        && held == old(held) + (if LandsOnHeld(old(capture.State()), job, u) then {job} else {})
    {
      ghost var start := View();
      var prior := ExistingClaimId(job);
      if prior.Some? {
        trace := Then(start, [], SeeClaim(r, prior.value));
        FinishRow(job, Done, prior, r);
        return;
      }
      trace := Then(start, [], SeeNoClaim(r));
      MoveOn(r, NoClaimSeen);
      ghost var more := SkipOrBuild(job, u, r);
      trace := ReplayJoin(start, trace, more);
    }

    /** `_job_has_intakes`: rows diverted by a run that never said so make the job done. */
    method SkipOrBuild(job: JobId, u: Upload, ghost r: RunId) returns (ghost trace: seq<Step>)
      requires AtPhase(View(), r, NoClaimSeen) && runs[r].job == job && job !in View().claims.Values
      modifies this, capture
      ensures Replay(old(View()), trace) == Some(View())
      ensures |jobs| == |old(jobs)| && jobs[job].Terminal()
      ensures job !in old(View()).intakes ==>
        && Built(old(capture.State()), old(jobs[job]), job, u)
        && held == old(held) + (if LandsOnHeld(old(capture.State()), job, u) then {job} else {})
    {
      ghost var start := View();
      var seen := JobHasIntakes(job);
      if seen {
        trace := Then(start, [], SeeIntakes(r));
        FinishRow(job, Done, None, r);
        return;
      }
      trace := Then(start, [], SeeNoIntakes(r));
      MoveOn(r, Building);
      ghost var more := FinishBuild(job, u, r);
      trace := ReplayJoin(start, trace, more);
    }

    /** Builds the claim and, by what came of it, commits, gives up or fails. */
    method FinishBuild(job: JobId, u: Upload, ghost r: RunId) returns (ghost trace: seq<Step>)
      requires AtPhase(View(), r, Building) && runs[r].job == job && job !in View().claims.Values
      requires job !in View().intakes
      modifies this, capture
      ensures Replay(old(View()), trace) == Some(View())
      ensures |jobs| == |old(jobs)| && Built(old(capture.State()), old(jobs[job]), job, u)
      ensures held == old(held) + (if LandsOnHeld(old(capture.State()), job, u) then {job} else {})
    {
      ghost var start, store := View(), capture.State();
      var result := capture.BuildClaim(u.client, Some(job), u.header, u.unread, u.receipts, u.trips);
      if result.Raised? {
        trace := Then(start, [], Raise(r));
        MoveOn(r, Raised);
        ghost var more := Recover(job, r);
        trace := ReplayJoin(start, trace, more);
      } else if result.BadHeader? {
        trace := Then(start, [], GiveUp(r));
        FinishRow(job, Failed, None, r);
      } else {
        trace := FinishCaptured(start, store, job, u, result, r);
      }
    }

    /** A capture that went through: committed with its job, or given up if it left nothing. */
    method FinishCaptured(ghost start: State, ghost store: BuildClaim.Store, job: JobId, u: Upload,
                          result: BuildClaim.IngestResult, ghost r: RunId) returns (ghost trace: seq<Step>)
      requires u.header.valid && !BuildClaim.Raises(store, u.client, Some(job), u.header, u.receipts, u.trips)
      requires BuildClaim.IsCapture(store, u.client, Some(job), u.header, u.unread, u.receipts, u.trips, result,
                                    capture.State())
      requires AtPhase(start, r, Building) && start.runs[r].job == job
      requires start.claims == ClaimsOf(store.claims) && start.intakes == JobsOf(store.intakes)
      requires job !in start.claims.Values && job !in start.intakes
      requires View() == start.(claims := View().claims, intakes := View().intakes)
      modifies this
      ensures Replay(start, trace) == Some(View())
      ensures |jobs| == |old(jobs)| && Built(store, old(jobs[job]), job, u)
      ensures held == old(held) + (if LandsOnHeld(store, job, u) then {job} else {})
    {
      CaptureTables(store, job, u, result, capture.State());
      if result.added == 0 && result.diverted == [] {
        trace := Then(start, [], GiveUp(r));
        FinishRow(job, Failed, None, r);
      } else {
        trace := CommitBuild(start, job, u, result.claim, r);
      }
    }

    /** The job's completion, in the transaction that holds what was built. */
    method CommitBuild(ghost start: State, job: JobId, u: Upload, built: Option<ClaimId>, ghost r: RunId)
      returns (ghost trace: seq<Step>)
      requires AtPhase(start, r, Building) && start.runs[r].job == job && job !in start.claims.Values
      requires built.Some? || BuildClaim.AnyQueued(u.header, u.receipts)
      requires built.Some? ==> built.value !in start.claims
      requires
        var pages := PagesOf(u, job in View().intakes);
        View() == start.(claims := if built.Some? then start.claims[built.value := job] else start.claims,
                         intakes := if pages.Parked? then start.intakes + {job} else start.intakes)
      modifies this
      ensures Replay(start, trace) == Some(View())
      ensures |jobs| == |old(jobs)| && jobs[job].status.Done?
      ensures jobs[job].claim == if built.Some? then built else old(jobs[job].claim)
      ensures held == old(held) + (if built.None? && job !in old(View()).intakes then {job} else {})
    {
      ghost var pages := PagesOf(u, job in View().intakes);
      trace := Then(start, [], Commit(r, built, pages));
      FinishRow(job, Done, built, r);
      if built.None? && pages.HeldAlready? {
        held := held + {job};
      }
    }

    /** The exception handler: a claim some other run committed makes the job done. */
    method Recover(job: JobId, ghost r: RunId) returns (ghost trace: seq<Step>)
      requires AtPhase(View(), r, Raised) && runs[r].job == job
      modifies this
      ensures Replay(old(View()), trace) == Some(View())
      ensures |jobs| == |old(jobs)| && jobs[job].Terminal() && held == old(held)
      ensures jobs[job].status.Done? <==> job in View().claims.Values
      ensures job !in View().claims.Values ==> jobs[job].claim == old(jobs[job].claim)
    {
      ghost var start := View();
      var prior := ExistingClaimId(job);
      if prior.Some? {
        trace := Then(start, [], RecoverClaim(r, prior.value));
        FinishRow(job, Done, prior, r);
      } else {
        trace := Fail(job, r);
      }
    }

    /** No claim was found: the job failed. */
    method Fail(job: JobId, ghost r: RunId) returns (ghost trace: seq<Step>)
      requires AtPhase(View(), r, Raised) && runs[r].job == job && job !in View().claims.Values
      modifies this`jobs, this`runs
      ensures Replay(old(View()), trace) == Some(View())
      ensures |jobs| == |old(jobs)| && jobs[job].status.Failed? && jobs[job].claim == old(jobs[job].claim)
    {
      ghost var start := View();
      trace := Then(start, [], RecoverNothing(r));
      MoveOn(r, RaisedNoClaim);
      trace := Then(start, trace, MarkFailed(r));
      FinishRow(job, Failed, None, r);
    }

    /** One call that nothing overtakes: its steps, taken one after the other, are one of
        the interleavings above. It leaves the job it claimed done exactly when the upload
        lands, linked to the claim built for it if there are lines, and with nothing of its
        own to show exactly when all its pages were held already. */
    method ProcessOne(locked: set<JobId>, u: Upload) returns (handled: Option<JobId>, ghost trace: seq<Step>)
      requires Inv(View())
      modifies this, capture
      ensures Replay(old(View()), trace) == Some(View()) && Inv(View())
      ensures handled == NextRunnable(ReapAll(old(jobs), old(now)), old(now), locked, 0)
      ensures handled.Some? ==>
        && handled.value < |jobs|
        && var job, store := jobs[handled.value], old(capture.State());
        && job.Terminal()
        && (job.status.Done? <==> Lands(store, handled.value, u))
        && job.claim == (if LandsClaim(store, handled.value, u) then Some(|store.claims|) else None)
        && (handled.value in held <==> LandsOnHeld(store, handled.value, u))
    {
      ghost var start := View();
      var reaped := ReapPoisonJobs();
      trace := Then(start, [], Reap);
      ApplyKeepsInv(start, Reap);
      ghost var cleaned := View();
      handled := ClaimNextJob(locked);
      if handled.None? {
        return;
      }
      trace := Then(start, trace, ClaimNext(locked));
      ClaimedIsFresh(cleaned, locked, View(), handled.value);
      ghost var more := RunJob(handled.value, u, |runs| - 1);
      trace := ReplayJoin(start, trace, more);
      ReplayKeepsInv(start, trace);
    }
  }

  /** What a build's diverted pages came to, for a job that had no row of its own. */
  function PagesOf(u: Upload, own: bool): Pages {
    if own then Parked else if BuildClaim.AnyQueued(u.header, u.receipts) then HeldAlready else NoPages
  }
}
