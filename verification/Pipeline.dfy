/**
 * The job queue, its workers and the pipeline handlers as one timed state machine.
 *
 * Any number of processes run workers. A worker claims a whole batch, then runs its
 * handlers one after the other, each under a deadline, recording each outcome before the
 * next handler starts. Every database statement is one step; between any two steps any
 * other worker or tool may act and any worker may crash.
 */
module Pipeline {
  import opened Wrappers
  import opened Stages
  import opened Jobs

  /** Durations that bound a worker's activity, and the configured sizes. */
  datatype Params = Params(
    lease: real,          // age at which an in_progress row is claimable again
    timeout: real,        // handler deadline
    record: real,         // time to record one outcome
    latency: real,        // from the claim transaction's NOW() to the first handler's start
    batch: Stage -> nat,  // rows claimed at once
    maxAttempts: nat,
    budget: int)          // snowball budget
  {
    predicate Valid() {
      timeout >= 0.0 && record >= 0.0 && latency >= 0.0 && maxAttempts >= 1
    }
  }

  // How far the running handler has come. Handlers write the paper's stage first and
  // enqueue the next job after that; a handler whose stage ends the pipeline writes a
  // terminal stage instead. The citation handler reads once how many papers snowballing
  // has created and from then on counts its own.
  datatype Progress = Begun | Counted(spawned: int) | StageWritten | Done

  datatype Outcome =
    | Completing
    | Failing                           // before `fail_job` has read the row
    | FailureRead(attempts: nat, max: nat)
    | Deferring(delay: real)            // a circuit was open

  datatype Phase =
    | Idle
    | Stopped
    | Claiming(began: real)
    | Selected(began: real, rows: seq<JobId>)
    | Handling(batch: seq<JobId>, at: nat, lockedAt: real, since: real, progress: Progress)
    | Recording(batch: seq<JobId>, at: nat, lockedAt: real, since: real, outcome: Outcome)

  datatype Worker = Worker(stage: Stage, phase: Phase)

  datatype State = State(
    now: real,
    jobs: seq<Job>,
    workers: map<WorkerId, Worker>,
    papers: seq<Stage>,      // acad_papers.pipeline_stage, by paper id
    spawned: int,            // papers created by snowballing
    claimed: set<JobId>,     // history: rows some claim has taken
    finished: set<JobId>)    // history: rows whose latest run has left nothing to do

  const INIT := State(0.0, [], map[], [], 0, {}, {})

  datatype Label =
    | Tick(d: real)
    | StartWorker(w: WorkerId, stage: Stage)
    | Crash(w: WorkerId)
    | BeginClaim(w: WorkerId)
    | Select(w: WorkerId, rows: seq<JobId>)
    | Commit(w: WorkerId)
    | ClaimFails(w: WorkerId)
    | WriteStage(w: WorkerId)
    | EnqueueNext(w: WorkerId)
    | WriteTerminal(w: WorkerId)
    | CountSnowballed(w: WorkerId)
    | Spawn(w: WorkerId)
    | HandlerEnds(w: WorkerId, outcome: Outcome)
    | CompleteErrors(w: WorkerId)
    | ReadFailure(w: WorkerId)
    | Record(w: WorkerId, jitter: real)
    | RecordErrors(w: WorkerId)
    | InsertPaper
    | Create(paper: PaperId, stage: Stage, priority: int)
    | Retry(ids: set<JobId>)

  // ---------- Reading a worker's phase ----------

  // Rows a worker is running or has waiting in its local batch.
  function HeldRows(ph: Phase): seq<JobId> {
    if (ph.Handling? || ph.Recording?) && ph.at <= |ph.batch| then ph.batch[ph.at..] else []
  }

  function LockedRows(ph: Phase): seq<JobId> {
    if ph.Selected? then ph.rows else []
  }

  predicate Holds(s: State, w: WorkerId, j: JobId) {
    w in s.workers && j in HeldRows(s.workers[w].phase)
  }

  predicate RowLocked(s: State, w: WorkerId, j: JobId) {
    w in s.workers && j in LockedRows(s.workers[w].phase)
  }

  ghost predicate LockedByAny(s: State, j: JobId) {
    exists w :: RowLocked(s, w, j)
  }

  ghost function LockedByClaims(s: State): set<JobId> {
    set j | 0 <= j < |s.jobs| && LockedByAny(s, j)
  }

  predicate AtJob(s: State, ph: Phase) {
    (ph.Handling? || ph.Recording?) && ph.at < |ph.batch| && ph.batch[ph.at] < |s.jobs|
  }

  function Current(s: State, ph: Phase): JobId
    requires AtJob(s, ph)
  {
    ph.batch[ph.at]
  }

  // The last instant of the worker's present activity.
  function Deadline(p: Params, ph: Phase): Option<real> {
    match ph
    case Idle => None
    case Stopped => None
    case Claiming(began) => Some(began + p.latency)
    case Selected(began, _) => Some(began + p.latency)
    case Handling(_, _, _, since, _) => Some(since + p.timeout)
    case Recording(_, _, _, since, _) => Some(since + p.record)
  }

  predicate WithinDeadline(p: Params, ph: Phase, t: real) {
    var d := Deadline(p, ph);
    d.Some? ==> t <= d.value
  }

  // After one job of the batch: the next one, or back to polling.
  function Advance(ph: Phase, now: real): Phase
    requires ph.Recording?
  {
    if ph.at + 1 < |ph.batch| then Handling(ph.batch, ph.at + 1, ph.lockedAt, now, Begun) else Idle
  }

  function RecordedRow(job: Job, outcome: Outcome, now: real, jitter: real): Job
    requires !outcome.Failing?
  {
    match outcome
    case Completing => Completed(job, now)
    case FailureRead(attempts, max) => FailedOnce(job, attempts, max, now, jitter)
    case Deferring(delay) => Deferred(job, now, delay)
  }

  function TerminalFor(stage: Stage): Option<Stage> {
    if stage.Resolved? then Some(Unresolvable)
    else if stage.CitationsExtracted? then Some(Complete)
    else None
  }

  // ---------- Steps ----------

  // Only the acquisition handler lets an open circuit's error out, and it does so before
  // any of its writes. Users enqueue jobs of two stages: discovery the first, a manual
  // import the third.

  // The worker is running the handler of an existing row.
  predicate Running(s: State, w: WorkerId) {
    && w in s.workers
    && var ph := s.workers[w].phase;
       ph.Handling? && AtJob(s, ph) && s.jobs[Current(s, ph)].paper < |s.papers|
  }

  // The same, having come so far.
  predicate Runs(s: State, w: WorkerId, progress: Progress) {
    Running(s, w) && s.workers[w].phase.progress == progress
  }

  predicate RecordsOutcome(s: State, w: WorkerId) {
    w in s.workers && s.workers[w].phase.Recording? && AtJob(s, s.workers[w].phase)
  }

  ghost predicate Enabled(p: Params, s: State, l: Label) {
    match l
    case Tick(d) =>
      d >= 0.0 && forall w :: w in s.workers ==> WithinDeadline(p, s.workers[w].phase, s.now + d)
    case StartWorker(w, stage) => w !in s.workers && JobStage(stage)
    case Crash(w) => w in s.workers && !s.workers[w].phase.Stopped?
    case BeginClaim(w) => w in s.workers && s.workers[w].phase.Idle?
    case Select(w, rows) =>
      && w in s.workers && s.workers[w].phase.Claiming?
      && var stage := s.workers[w].stage;
         IsSelection(s.jobs, LockedByClaims(s), stage, s.workers[w].phase.began, p.lease, p.batch(stage), rows)
    case Commit(w) => w in s.workers && s.workers[w].phase.Selected?
    case ClaimFails(w) => w in s.workers && (s.workers[w].phase.Claiming? || s.workers[w].phase.Selected?)
    case WriteStage(w) =>
      Runs(s, w, Begun) && !s.jobs[Current(s, s.workers[w].phase)].stage.CitationsExtracted?
    case EnqueueNext(w) =>
      Runs(s, w, StageWritten) && NextJobStage(s.jobs[Current(s, s.workers[w].phase)].stage).Some?
    case WriteTerminal(w) =>
      && Running(s, w) && (s.workers[w].phase.progress.Begun? || s.workers[w].phase.progress.Counted?)
      && TerminalFor(s.jobs[Current(s, s.workers[w].phase)].stage).Some?
    case CountSnowballed(w) => Runs(s, w, Begun) && s.workers[w].stage.CitationsExtracted?
    case Spawn(w) =>
      && Running(s, w) && s.workers[w].phase.progress.Counted?
      && s.workers[w].phase.progress.spawned < p.budget
    case HandlerEnds(w, outcome) =>
      && w in s.workers && s.workers[w].phase.Handling? && AtJob(s, s.workers[w].phase)
      && !outcome.FailureRead?
      && (outcome.Completing? ==> s.workers[w].phase.progress.Done?)
      && (outcome.Deferring? ==> s.workers[w].stage.Acquired? && s.workers[w].phase.progress.Begun?)
    case CompleteErrors(w) => RecordsOutcome(s, w) && s.workers[w].phase.outcome.Completing?
    case ReadFailure(w) => RecordsOutcome(s, w) && s.workers[w].phase.outcome.Failing?
    case Record(w, jitter) =>
      && RecordsOutcome(s, w) && !s.workers[w].phase.outcome.Failing? && 0.0 <= jitter < 1.0
      && Current(s, s.workers[w].phase) !in LockedByClaims(s)
    case RecordErrors(w) => RecordsOutcome(s, w) && !s.workers[w].phase.outcome.Completing?
    case InsertPaper => true
    case Create(paper, stage, _) => paper < |s.papers| && (stage.Resolved? || stage.Ingested?)
    case Retry(ids) => forall j :: j in ids ==> j < |s.jobs| && s.jobs[j].status.Failed?
  }

  function WithPhase(s: State, w: WorkerId, ph: Phase): State
    requires w in s.workers
  {
    s.(workers := s.workers[w := s.workers[w].(phase := ph)])
  }

  ghost function Apply(p: Params, s: State, l: Label): State
    requires Enabled(p, s, l)
  {
    match l
    case Tick(d) => s.(now := s.now + d)
    case StartWorker(w, stage) => s.(workers := s.workers[w := Worker(stage, Idle)])
    case Crash(w) => WithPhase(s, w, Stopped)
    case BeginClaim(w) => WithPhase(s, w, Claiming(s.now))
    case Select(w, rows) => WithPhase(s, w, Selected(s.workers[w].phase.began, rows))
    case Commit(w) =>
      var began, rows := s.workers[w].phase.began, s.workers[w].phase.rows;
      WithPhase(s, w, if rows == [] then Idle else Handling(rows, 0, began, s.now, Begun))
        .(jobs := ClaimRows(s.jobs, rows, w, began),
          claimed := s.claimed + Elements(rows), finished := s.finished - Elements(rows))
    case ClaimFails(w) => WithPhase(s, w, Idle)
    case WriteStage(w) =>
      var ph := s.workers[w].phase;
      var job := s.jobs[Current(s, ph)];
      WithPhase(s, w, ph.(progress := StageWritten)).(papers := s.papers[job.paper := job.stage])
    case EnqueueNext(w) =>
      var ph := s.workers[w].phase;
      var job := s.jobs[Current(s, ph)];
      WithPhase(s, w, ph.(progress := Done))
        .(jobs := Enqueued(s.jobs, job.paper, NextJobStage(job.stage).value, 0, p.maxAttempts, s.now),
          finished := s.finished + {Current(s, ph)})
    case WriteTerminal(w) =>
      var ph := s.workers[w].phase;
      var job := s.jobs[Current(s, ph)];
      WithPhase(s, w, ph.(progress := Done))
        .(papers := s.papers[job.paper := TerminalFor(job.stage).value],
          finished := s.finished + {Current(s, ph)})
    case CountSnowballed(w) => WithPhase(s, w, s.workers[w].phase.(progress := Counted(s.spawned)))
    case Spawn(w) =>
      var ph := s.workers[w].phase;
      WithPhase(s, w, ph.(progress := Counted(ph.progress.spawned + 1)))
        .(papers := s.papers + [Discovered], spawned := s.spawned + 1,
          jobs := Enqueued(s.jobs, |s.papers|, Resolved, 0, p.maxAttempts, s.now))
    case HandlerEnds(w, outcome) =>
      var ph := s.workers[w].phase;
      WithPhase(s, w, Recording(ph.batch, ph.at, ph.lockedAt, s.now, outcome))
    case CompleteErrors(w) => WithPhase(s, w, s.workers[w].phase.(outcome := Failing))
    case ReadFailure(w) =>
      var ph := s.workers[w].phase;
      var job := s.jobs[Current(s, ph)];
      WithPhase(s, w, ph.(outcome := FailureRead(job.attempts, job.maxAttempts)))
    case Record(w, jitter) =>
      var ph := s.workers[w].phase;
      var j := Current(s, ph);
      WithPhase(s, w, Advance(ph, s.now))
        .(jobs := s.jobs[j := RecordedRow(s.jobs[j], ph.outcome, s.now, jitter)])
    case RecordErrors(w) => WithPhase(s, w, Advance(s.workers[w].phase, s.now))
    case InsertPaper => s.(papers := s.papers + [Discovered])
    case Create(paper, stage, priority) =>
      s.(jobs := Enqueued(s.jobs, paper, stage, priority, p.maxAttempts, s.now))
    case Retry(ids) => s.(jobs := RetryRows(s.jobs, ids, s.now))
  }

  // ---------- Runs ----------

  // The state a run from `s` ends in, if every step of it could be taken.
  ghost function Exec(p: Params, s: State, run: seq<Label>): Option<State>
    decreases |run|, 0
  {
    if run == [] then Some(s) else Extended(p, s, run[..|run| - 1], run[|run| - 1])
  }

  // The state one more step leads to.
  ghost function Extended(p: Params, s: State, front: seq<Label>, l: Label): Option<State>
    decreases |front|, 1
  {
    match Exec(p, s, front)
    case None => None
    case Some(t) => if Enabled(p, t, l) then Some(Apply(p, t, l)) else None
  }

  lemma ExecStep(p: Params, s: State, run: seq<Label>, l: Label)
    ensures Exec(p, s, run + [l]) ==
      match Exec(p, s, run)
      case None => None
      case Some(t) => if Enabled(p, t, l) then Some(Apply(p, t, l)) else None
  {
  }

  // What a run's last step was taken from, and that it could be.
  lemma ExecLast(p: Params, s: State, run: seq<Label>)
    requires run != []
    ensures Exec(p, s, run) == Extended(p, s, run[..|run| - 1], run[|run| - 1])
    ensures Exec(p, s, run).Some? ==>
      var t := Exec(p, s, run[..|run| - 1]);
      t.Some? && Enabled(p, t.value, run[|run| - 1]) && Exec(p, s, run).value == Apply(p, t.value, run[|run| - 1])
  {
  }

  lemma {:induction false} ExecConcat(p: Params, s: State, a: seq<Label>, b: seq<Label>)
    requires Exec(p, s, a).Some?
    ensures Exec(p, s, a + b) == Exec(p, Exec(p, s, a).value, b)
  {
    if b == [] {
      assert a + b == a;
    } else {
      var front, last := b[..|b| - 1], b[|b| - 1];
      ExecConcat(p, s, a, front);
      assert b == front + [last] && a + b == (a + front) + [last];
      ExecStep(p, s, a + front, last);
      ExecStep(p, Exec(p, s, a).value, front, last);
    }
  }

  ghost predicate Reachable(p: Params, s: State) {
    exists run :: Exec(p, INIT, run) == Some(s)
  }
}
