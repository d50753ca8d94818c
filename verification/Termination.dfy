/**
 * The pipeline comes to rest. With no deferrals, lease reclaims, manual retries or user
 * discoveries, a set of workers takes only finitely many working steps, snowballing
 * included: each one lowers a measure of the work that is left. Bibliography entries carry
 * DOIs, and discovering one and setting its paper's depth is one step.
 */
module Termination {
  import opened Wrappers
  import opened Stages
  import opened Jobs
  import opened Pipeline
  import opened Ownership
  import opened Lease
  import opened Snowball

  // ---------- What is left to do ----------

  function Rank(stage: Stage): nat {
    match stage
    case Resolved => 3
    case Acquired => 2
    case Ingested => 1
    case _ => 0
  }

  // Steps one attempt at a job of the stage may still lead to, the jobs it enqueues included.
  function Attempt(p: Params, stage: Stage): (r: nat)
    ensures r >= 8
    decreases Rank(stage)
  {
    if Rank(stage) == 0 then 8 else 8 + Times(p.maxAttempts, Attempt(p, NextJobStage(stage).value))
  }

  // W(stage): what a fresh job of the stage may lead to.
  function Work(p: Params, stage: Stage): nat {
    Times(p.maxAttempts, Attempt(p, stage))
  }

  function AttemptsLeft(p: Params, job: Job): nat {
    var left := p.maxAttempts - job.attempts;
    if job.status.Pending? && left >= 0 then left
    else if job.status.InProgress? && left >= 1 then left - 1
    else 0
  }

  function JobWeight(p: Params, job: Job): nat {
    Times(AttemptsLeft(p, job), Attempt(p, job.stage))
  }

  function JobsWeight(p: Params, jobs: seq<Job>): nat {
    if jobs == [] then 0 else JobsWeight(p, jobs[..|jobs| - 1]) + JobWeight(p, jobs[|jobs| - 1])
  }

  function OutcomeWeight(p: Params, stage: Stage, outcome: Outcome): nat {
    match outcome
    case Completing => 4
    case Failing => 3
    case FailureRead(_, _) => 2
    case Deferring(_) => Attempt(p, stage) + 1   // the attempt is not spent
  }

  function ProgressWeight(p: Params, stage: Stage, progress: Progress): nat {
    match progress
    case Begun => Attempt(p, stage) - 1
    case Counted(_) => Attempt(p, stage) - 2
    case StageWritten => Attempt(p, stage) - 2
    case Done => 5
  }

  function PhaseWeight(p: Params, w: Worker): nat {
    var ph := w.phase;
    if ph.Handling? && ph.at < |ph.batch| then
      ProgressWeight(p, w.stage, ph.progress) + Times(|ph.batch| - ph.at - 1, Attempt(p, w.stage) - 1)
    else if ph.Recording? && ph.at < |ph.batch| then
      OutcomeWeight(p, w.stage, ph.outcome) + Times(|ph.batch| - ph.at - 1, Attempt(p, w.stage) - 1)
    else 0
  }

  function PhasesWeight(p: Params, workers: map<WorkerId, Worker>, ids: seq<WorkerId>): nat {
    if ids == [] then 0
    else
      var w := ids[|ids| - 1];
      PhasesWeight(p, workers, ids[..|ids| - 1]) + if w in workers then PhaseWeight(p, workers[w]) else 0
  }

  // What is left of the jobs there are.
  function Local(p: Params, s: State, ids: seq<WorkerId>): nat {
    JobsWeight(p, s.jobs) + PhasesWeight(p, s.workers, ids)
  }

  // What is left, with the papers that may still be created.
  function Measure(p: Params, s: State, ids: seq<WorkerId>): nat {
    Local(p, s, ids) + Times(LeftToAll(p, s, ids), 1 + Work(p, Resolved))
  }

  // ---------- Sums ----------

  lemma {:induction false} JobsWeightUpdate(p: Params, jobs: seq<Job>, j: nat, job: Job)
    requires j < |jobs|
    ensures JobsWeight(p, jobs[j := job]) == JobsWeight(p, jobs) - JobWeight(p, jobs[j]) + JobWeight(p, job)
  {
    var last := |jobs| - 1;
    var after := jobs[j := job];
    if j == last {
      assert after[..last] == jobs[..last];
    } else {
      JobsWeightUpdate(p, jobs[..last], j, job);
      assert after[..last] == jobs[..last][j := job];
    }
  }

  lemma {:induction false} PhasesWeightUpdate(
    p: Params, workers: map<WorkerId, Worker>, ids: seq<WorkerId>, w: WorkerId, worker: Worker)
    requires w in workers && Distinct(ids)
    ensures PhasesWeight(p, workers[w := worker], ids) ==
              if w in ids then PhasesWeight(p, workers, ids) - PhaseWeight(p, workers[w]) + PhaseWeight(p, worker)
              else PhasesWeight(p, workers, ids)
    ensures w in ids ==> PhasesWeight(p, workers, ids) >= PhaseWeight(p, workers[w])
  {
    if ids == [] {
    } else {
      var last := ids[|ids| - 1];
      var front := ids[..|ids| - 1];
      assert ids == front + [last];
      assert last !in front;
      PhasesWeightUpdate(p, workers, front, w, worker);
    }
  }

  lemma EnqueuedWeight(p: Params, jobs: seq<Job>, paper: PaperId, stage: Stage, priority: int, now: real)
    ensures JobsWeight(p, Enqueued(jobs, paper, stage, priority, p.maxAttempts, now))
         <= JobsWeight(p, jobs) + Work(p, stage)
  {
  }

  lemma ClaimOneMore(jobs: seq<Job>, front: seq<JobId>, last: JobId, w: WorkerId, at: real)
    requires last < |jobs| && last !in front
    ensures ClaimRows(jobs, front + [last], w, at) == ClaimRows(jobs, front, w, at)[last := Locked(jobs[last], w, at)]
    ensures ClaimRows(jobs, front, w, at)[last] == jobs[last]
  {
  }

  // A pending row with an attempt left.
  predicate Ready(p: Params, jobs: seq<Job>, stage: Stage, j: JobId) {
    j < |jobs| && jobs[j].stage == stage && jobs[j].status.Pending? && jobs[j].attempts < p.maxAttempts
  }

  lemma LockedWeight(p: Params, jobs: seq<Job>, stage: Stage, j: JobId, w: WorkerId, at: real)
    requires Ready(p, jobs, stage, j)
    ensures JobWeight(p, Locked(jobs[j], w, at)) + Attempt(p, stage) == JobWeight(p, jobs[j])
  {
  }

  // Claiming pending rows takes one attempt's worth off each.
  lemma {:induction false} ClaimedWeight(
    p: Params, jobs: seq<Job>, rows: seq<JobId>, w: WorkerId, at: real, stage: Stage)
    requires Distinct(rows)
    requires forall k :: 0 <= k < |rows| ==> Ready(p, jobs, stage, rows[k])
    ensures JobsWeight(p, ClaimRows(jobs, rows, w, at)) + Times(|rows|, Attempt(p, stage)) == JobsWeight(p, jobs)
  {
    if rows == [] {
      assert ClaimRows(jobs, rows, w, at) == jobs;
    } else {
      var n := |rows| - 1;
      var front, last := rows[..n], rows[n];
      ClaimedWeight(p, jobs, front, w, at, stage);
      assert Ready(p, jobs, stage, last);
      assert rows == front + [last] && last !in front;
      ClaimOneMore(jobs, front, last, w, at);
      JobsWeightUpdate(p, ClaimRows(jobs, front, w, at), last, Locked(jobs[last], w, at));
      LockedWeight(p, jobs, stage, last, w, at);
    }
  }

  lemma {:induction false} TimesLess(n: nat, a: nat)
    requires a >= 1
    ensures Times(n, a) == Times(n, a - 1) + n
  {
    if n > 0 {
      TimesLess(n - 1, a);
    }
  }

  // The same, with one of those steps spent per row on the claim itself.
  lemma ClaimedLess(p: Params, jobs: seq<Job>, rows: seq<JobId>, w: WorkerId, at: real, stage: Stage)
    requires Distinct(rows)
    requires forall k :: 0 <= k < |rows| ==> Ready(p, jobs, stage, rows[k])
    ensures JobsWeight(p, ClaimRows(jobs, rows, w, at)) + Times(|rows|, Attempt(p, stage) - 1) + |rows|
         == JobsWeight(p, jobs)
  {
    ClaimedWeight(p, jobs, rows, w, at, stage);
    TimesLess(|rows|, Attempt(p, stage));
  }

  // ---------- Quiet runs ----------

  // A step of workers left to themselves: nothing is reclaimed, retried by hand or
  // discovered by a user, and no worker is started.
  ghost predicate Steady(s: State, l: Label) {
    match l
    case StartWorker(_, _) => false
    case InsertPaper => false
    case Create(_, _, _) => false
    case Retry(_) => false
    case Select(_, rows) => forall j :: j in rows ==> j < |s.jobs| && s.jobs[j].status.Pending?
    case _ => true
  }

  // Nor is anything deferred.
  ghost predicate Quiet(s: State, l: Label) {
    Steady(s, l) && (l.HandlerEnds? ==> !l.outcome.Deferring?)
  }

  // A step that does some work, as opposed to waiting, polling in vain or crashing.
  predicate Working(s: State, l: Label) {
    match l
    case Commit(w) => w in s.workers && LockedRows(s.workers[w].phase) != []
    case Tick(_) => false
    case BeginClaim(_) => false
    case Select(_, _) => false
    case ClaimFails(_) => false
    case Crash(_) => false
    case _ => true
  }

  // Every other step leaves the jobs, the papers and every handler as they are, unless it
  // crashes its worker: no run does anything but in its working steps.
  lemma IdleChangesNothing(p: Params, s: State, l: Label, w: WorkerId)
    requires Enabled(p, s, l) && !Working(s, l)
    ensures var t := Apply(p, s, l);
      && t.jobs == s.jobs && t.papers == s.papers && t.spawned == s.spawned
      && (w in s.workers && (s.workers[w].phase.Handling? || s.workers[w].phase.Recording?) && l != Crash(w) ==>
            w in t.workers && t.workers[w] == s.workers[w])
  {
    if l.Commit? {
      assert ClaimRows(s.jobs, s.workers[l.w].phase.rows, l.w, s.workers[l.w].phase.began) == s.jobs;
    }
  }

  // Claims in progress are of pending rows.
  ghost predicate SteadyInv(s: State) {
    forall w: WorkerId, j: JobId :: RowLocked(s, w, j) ==> j < |s.jobs| && s.jobs[j].status.Pending?
  }

  predicate DeferringNow(s: State, w: WorkerId) {
    w in s.workers && s.workers[w].phase.Recording? && s.workers[w].phase.outcome.Deferring?
  }

  // And nothing waits to be deferred.
  ghost predicate QuietInv(s: State) {
    SteadyInv(s) && forall w :: !DeferringNow(s, w)
  }

  lemma SteadyClean(p: Params, s: State, l: Label)
    requires OwnInv(p, s) && Enabled(p, s, l) && Steady(s, l)
    ensures Clean(s, l)
  {
  }

  lemma StillPending(p: Params, s: State, l: Label, w: WorkerId, j: JobId)
    requires p.Valid() && OwnInv(p, s) && SteadyInv(s) && Enabled(p, s, l) && Steady(s, l)
    requires RowLocked(s, w, j) && RowLocked(Apply(p, s, l), w, j)
    ensures j < |Apply(p, s, l).jobs| && Apply(p, s, l).jobs[j].status.Pending?
  {
    match l
    case Commit(v) => assert j in s.workers[v].phase.rows ==> RowLocked(s, v, j);
    case Record(v, _) => HoldsCurrent(s, v);
    case _ =>
  }

  lemma SteadyStep(p: Params, s: State, l: Label)
    requires p.Valid() && OwnInv(p, s) && SteadyInv(s) && Enabled(p, s, l) && Steady(s, l)
    ensures SteadyInv(Apply(p, s, l))
  {
    var t := Apply(p, s, l);
    forall w: WorkerId, j: JobId | RowLocked(t, w, j) ensures j < |t.jobs| && t.jobs[j].status.Pending? {
      if !(l.Select? && l.w == w) {
        StillPending(p, s, l, w, j);
      }
    }
  }

  lemma NoneDeferring(p: Params, s: State, l: Label, w: WorkerId)
    requires Enabled(p, s, l) && Quiet(s, l) && !DeferringNow(s, w)
    ensures !DeferringNow(Apply(p, s, l), w)
  {
  }

  lemma QuietStep(p: Params, s: State, l: Label)
    requires p.Valid() && OwnInv(p, s) && QuietInv(s) && Enabled(p, s, l) && Quiet(s, l)
    ensures QuietInv(Apply(p, s, l))
  {
    SteadyStep(p, s, l);
    forall w ensures !DeferringNow(Apply(p, s, l), w) {
      NoneDeferring(p, s, l, w);
    }
  }

  // ---------- The measure falls ----------

  lemma SelectedAreReady(p: Params, s: State, w: WorkerId)
    requires OwnInv(p, s) && SteadyInv(s) && w in s.workers && s.workers[w].phase.Selected?
    ensures Distinct(s.workers[w].phase.rows)
    ensures forall k :: 0 <= k < |s.workers[w].phase.rows| ==>
              Ready(p, s.jobs, s.workers[w].stage, s.workers[w].phase.rows[k])
  {
    var rows := s.workers[w].phase.rows;
    assert PhaseOk(p, s, w);
    forall k | 0 <= k < |rows| ensures Ready(p, s.jobs, s.workers[w].stage, rows[k]) {
      assert RowLocked(s, w, rows[k]);
      assert LockedRowOk(p, s, w, rows[k]) && RowOk(p, s.jobs[rows[k]]);
    }
  }

  lemma CommitEffect(p: Params, s: State, w: WorkerId)
    requires Enabled(p, s, Commit(w))
    ensures var t, worker := Apply(p, s, Commit(w)), s.workers[w];
      && w in t.workers && t.workers == s.workers[w := t.workers[w]]
      && t.jobs == ClaimRows(s.jobs, worker.phase.rows, w, worker.phase.began)
      && PhaseWeight(p, t.workers[w]) == Times(|worker.phase.rows|, Attempt(p, worker.stage) - 1)
      && PhaseWeight(p, worker) == 0
  {
  }

  // Each claimed row takes one step off what is left; the rest moves into the worker.
  lemma CommitLowers(p: Params, s: State, t: State, w: WorkerId, ids: seq<WorkerId>)
    requires w in s.workers && s.workers[w].phase.Selected? && Distinct(ids) && w in ids
    requires var rows := s.workers[w].phase.rows;
      Distinct(rows) && forall k :: 0 <= k < |rows| ==> Ready(p, s.jobs, s.workers[w].stage, rows[k])
    requires Enabled(p, s, Commit(w)) && t == Apply(p, s, Commit(w))
    ensures Local(p, t, ids) + |s.workers[w].phase.rows| == Local(p, s, ids)
  {
    var worker := s.workers[w];
    CommitEffect(p, s, w);
    ClaimedLess(p, s.jobs, worker.phase.rows, w, worker.phase.began, worker.stage);
    PhasesWeightUpdate(p, s.workers, ids, w, t.workers[w]);
  }

  // Steps that only bring the worker's current job forward.
  predicate BringsForward(l: Label) {
    || l.WriteStage? || l.WriteTerminal? || l.CountSnowballed? || l.CompleteErrors? || l.ReadFailure?
    || (l.HandlerEnds? && !l.outcome.Deferring?)
  }

  lemma ForwardLowersPhase(p: Params, s: State, l: Label)
    requires Enabled(p, s, l) && BringsForward(l)
    ensures var t := Apply(p, s, l);
      && l.w in s.workers && l.w in t.workers && t.workers == s.workers[l.w := t.workers[l.w]]
      && t.jobs == s.jobs
      && PhaseWeight(p, t.workers[l.w]) < PhaseWeight(p, s.workers[l.w])
  {
  }

  lemma ForwardLowers(p: Params, s: State, l: Label, ids: seq<WorkerId>)
    requires Enabled(p, s, l) && BringsForward(l) && Distinct(ids) && l.w in ids
    ensures Local(p, Apply(p, s, l), ids) < Local(p, s, ids)
  {
    ForwardLowersPhase(p, s, l);
    PhasesWeightUpdate(p, s.workers, ids, l.w, Apply(p, s, l).workers[l.w]);
  }

  // Having enqueued the next job, the attempt gives up at least that job's worth.
  lemma DoneWeight(p: Params, w: Worker, next: Stage)
    requires w.phase.Handling? && w.phase.at < |w.phase.batch| && w.phase.progress.StageWritten?
    requires JobStage(w.stage) && NextJobStage(w.stage) == Some(next)
    ensures PhaseWeight(p, w.(phase := w.phase.(progress := Done))) + Work(p, next) < PhaseWeight(p, w)
  {
  }

  lemma EnqueueLowersPhase(p: Params, s: State, w: WorkerId)
    requires OwnInv(p, s) && Enabled(p, s, EnqueueNext(w))
    ensures var t := Apply(p, s, EnqueueNext(w));
      && w in t.workers && t.workers == s.workers[w := t.workers[w]]
      && JobsWeight(p, t.jobs) + PhaseWeight(p, t.workers[w]) < JobsWeight(p, s.jobs) + PhaseWeight(p, s.workers[w])
  {
    var c := Current(s, s.workers[w].phase);
    HoldsCurrent(s, w);
    assert HeldRowOk(s, w, c) && PhaseOk(p, s, w);
    var next := NextJobStage(s.workers[w].stage).value;
    EnqueuedWeight(p, s.jobs, s.jobs[c].paper, next, 0, s.now);
    DoneWeight(p, s.workers[w], next);
  }

  lemma EnqueueLowers(p: Params, s: State, w: WorkerId, ids: seq<WorkerId>)
    requires OwnInv(p, s) && Enabled(p, s, EnqueueNext(w)) && Distinct(ids) && w in ids
    ensures Local(p, Apply(p, s, EnqueueNext(w)), ids) < Local(p, s, ids)
  {
    EnqueueLowersPhase(p, s, w);
    PhasesWeightUpdate(p, s.workers, ids, w, Apply(p, s, EnqueueNext(w)).workers[w]);
  }

  lemma SpawnEffect(p: Params, s: State, w: WorkerId)
    requires Enabled(p, s, Spawn(w))
    ensures var t := Apply(p, s, Spawn(w));
      && w in t.workers && t.workers == s.workers[w := t.workers[w]]
      && t.jobs == Enqueued(s.jobs, |s.papers|, Resolved, 0, p.maxAttempts, s.now)
      && PhaseWeight(p, t.workers[w]) == PhaseWeight(p, s.workers[w])
  {
  }

  // A new paper's first job is the only work it adds.
  lemma SpawnAdds(p: Params, s: State, w: WorkerId, ids: seq<WorkerId>)
    requires Enabled(p, s, Spawn(w)) && Distinct(ids) && w in ids
    ensures Local(p, Apply(p, s, Spawn(w)), ids) <= Local(p, s, ids) + Work(p, Resolved)
  {
    SpawnEffect(p, s, w);
    EnqueuedWeight(p, s.jobs, |s.papers|, Resolved, 0, s.now);
    PhasesWeightUpdate(p, s.workers, ids, w, Apply(p, s, Spawn(w)).workers[w]);
  }

  lemma RecordedWeight(p: Params, job: Job, outcome: Outcome, now: real, jitter: real)
    requires RowOk(p, job) && job.status.InProgress?
    requires outcome.Completing? || (outcome.FailureRead? && outcome.attempts == job.attempts && outcome.max == p.maxAttempts)
    ensures JobWeight(p, RecordedRow(job, outcome, now, jitter)) <= JobWeight(p, job)
  {
  }

  lemma AdvanceWeight(p: Params, w: Worker, now: real)
    requires w.phase.Recording? && w.phase.at < |w.phase.batch|
    ensures PhaseWeight(p, w.(phase := Advance(w.phase, now))) + 2 <= PhaseWeight(p, w)
  {
  }

  lemma RecordLowersJobs(p: Params, s: State, w: WorkerId, jitter: real)
    requires OwnInv(p, s) && Enabled(p, s, Record(w, jitter)) && !s.workers[w].phase.outcome.Deferring?
    ensures JobsWeight(p, Apply(p, s, Record(w, jitter)).jobs) <= JobsWeight(p, s.jobs)
  {
    var ph := s.workers[w].phase;
    var c := Current(s, ph);
    HoldsCurrent(s, w);
    assert HeldRowOk(s, w, c) && PhaseOk(p, s, w) && RowOk(p, s.jobs[c]);
    RecordedWeight(p, s.jobs[c], ph.outcome, s.now, jitter);
    JobsWeightUpdate(p, s.jobs, c, RecordedRow(s.jobs[c], ph.outcome, s.now, jitter));
  }

  lemma RecordLowers(p: Params, s: State, l: Label, ids: seq<WorkerId>)
    requires p.Valid() && OwnInv(p, s) && Enabled(p, s, l) && Distinct(ids)
    requires (l.RecordErrors? || (l.Record? && !s.workers[l.w].phase.outcome.Deferring?)) && l.w in ids
    ensures Local(p, Apply(p, s, l), ids) < Local(p, s, ids)
  {
    PhasesWeightUpdate(p, s.workers, ids, l.w, Apply(p, s, l).workers[l.w]);
    AdvanceWeight(p, s.workers[l.w], s.now);
    if l.Record? {
      RecordLowersJobs(p, s, l.w, l.jitter);
    }
  }

  // The step is no part of a deferral that takes place.
  predicate Undeferred(s: State, l: Label) {
    && (l.HandlerEnds? ==> !l.outcome.Deferring?)
    && (l.Record? ==> !DeferringNow(s, l.w))
  }

  lemma LocalStep(p: Params, s: State, l: Label, ids: seq<WorkerId>)
    requires p.Valid() && OwnInv(p, s) && SteadyInv(s) && Enabled(p, s, l) && Steady(s, l) && !l.Spawn?
    requires Undeferred(s, l)
    requires Distinct(ids) && forall w :: w in s.workers ==> w in ids
    ensures Local(p, Apply(p, s, l), ids) <= Local(p, s, ids)
    ensures Working(s, l) ==> Local(p, Apply(p, s, l), ids) < Local(p, s, ids)
  {
    if l.Commit? {
      SelectedAreReady(p, s, l.w);
      CommitLowers(p, s, Apply(p, s, l), l.w, ids);
    } else if l.Record? || l.RecordErrors? {
      RecordLowers(p, s, l, ids);
    } else if l.Tick? {
    } else if l.Crash? || l.BeginClaim? || l.Select? || l.ClaimFails? {
      PhasesWeightUpdate(p, s.workers, ids, l.w, Apply(p, s, l).workers[l.w]);
    } else if l.EnqueueNext? {
      EnqueueLowers(p, s, l.w, ids);
    } else {
      ForwardLowers(p, s, l, ids);
    }
  }

  lemma {:induction false} TimesGrows(n: nat, m: nat, a: nat)
    requires n <= m
    ensures Times(n, a) <= Times(m, a)
    ensures n < m ==> Times(n, a) + a <= Times(m, a)
  {
    if n < m {
      TimesGrows(n, m - 1, a);
    }
  }

  lemma UndeferredLowers(p: Params, s: State, l: Label, ids: seq<WorkerId>)
    requires p.Valid() && OwnInv(p, s) && SteadyInv(s) && CopiesOk(s) && Enabled(p, s, l) && Steady(s, l)
    requires Undeferred(s, l) && Distinct(ids) && forall w :: w in s.workers ==> w in ids
    ensures Measure(p, Apply(p, s, l), ids) <= Measure(p, s, ids)
    ensures Working(s, l) ==> Measure(p, Apply(p, s, l), ids) < Measure(p, s, ids)
  {
    LeftToAllStep(p, s, l, ids);
    TimesGrows(LeftToAll(p, Apply(p, s, l), ids), LeftToAll(p, s, ids), 1 + Work(p, Resolved));
    if l.Spawn? {
      SpawnAdds(p, s, l.w, ids);
    } else {
      LocalStep(p, s, l, ids);
    }
  }

  lemma QuietLowers(p: Params, s: State, l: Label, ids: seq<WorkerId>)
    requires p.Valid() && OwnInv(p, s) && QuietInv(s) && CopiesOk(s) && Enabled(p, s, l) && Quiet(s, l)
    requires Distinct(ids) && forall w :: w in s.workers ==> w in ids
    ensures Measure(p, Apply(p, s, l), ids) <= Measure(p, s, ids)
    ensures Working(s, l) ==> Measure(p, Apply(p, s, l), ids) < Measure(p, s, ids)
  {
    UndeferredLowers(p, s, l, ids);
  }

  // ---------- Runs ----------

  ghost predicate QuietRun(p: Params, s: State, run: seq<Label>) {
    run == [] || (
      var t := Exec(p, s, run[..|run| - 1]);
      && QuietRun(p, s, run[..|run| - 1])
      && (t.Some? ==> Quiet(t.value, run[|run| - 1])))
  }

  ghost function WorkingSteps(p: Params, s: State, run: seq<Label>): nat {
    if run == [] then 0
    else
      var t := Exec(p, s, run[..|run| - 1]);
      WorkingSteps(p, s, run[..|run| - 1]) + if t.Some? && Working(t.value, run[|run| - 1]) then 1 else 0
  }

  // No quiet run, however long, has more working steps than the measure of its first state.
  lemma {:induction false} PipelineComesToRest(p: Params, s: State, ids: seq<WorkerId>, run: seq<Label>)
    requires p.Valid() && OwnInv(p, s) && QuietInv(s) && CopiesOk(s)
    requires Distinct(ids) && forall w :: w in s.workers ==> w in ids
    requires Exec(p, s, run).Some? && QuietRun(p, s, run)
    ensures WorkingSteps(p, s, run) + Measure(p, Exec(p, s, run).value, ids) <= Measure(p, s, ids)
    ensures OwnInv(p, Exec(p, s, run).value) && QuietInv(Exec(p, s, run).value) && CopiesOk(Exec(p, s, run).value)
    ensures forall w :: w in Exec(p, s, run).value.workers ==> w in ids
  {
    if run == [] {
    } else {
      var front, l := run[..|run| - 1], run[|run| - 1];
      PipelineComesToRest(p, s, ids, front);
      var t := Exec(p, s, front).value;
      SteadyClean(p, t, l);
      OwnStep(p, t, l);
      QuietStep(p, t, l);
      CopiesStep(p, t, l);
      QuietLowers(p, t, l, ids);
    }
  }

  // Under the lease premise, from any state a run has reached with no deferral or reclaim
  // under way, there is a bound no quiet continuation's working steps exceed.
  lemma WorkIsBounded(p: Params, before: seq<Label>, ids: seq<WorkerId>)
    requires p.Valid() && Premise(p) && Exec(p, INIT, before).Some?
    requires QuietInv(Exec(p, INIT, before).value)
    requires Distinct(ids) && forall w :: w in Exec(p, INIT, before).value.workers ==> w in ids
    ensures var s := Exec(p, INIT, before).value;
      forall run :: Exec(p, s, run).Some? && QuietRun(p, s, run) ==> WorkingSteps(p, s, run) <= Measure(p, s, ids)
  {
    var s := Exec(p, INIT, before).value;
    PremiseInv(p, before);
    CopiesAlways(p, before);
    forall run | Exec(p, s, run).Some? && QuietRun(p, s, run) ensures WorkingSteps(p, s, run) <= Measure(p, s, ids) {
      PipelineComesToRest(p, s, ids, run);
    }
  }
}
