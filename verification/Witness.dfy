/** Building concrete runs, for the lemmas that show a premise is needed. */
module Witness {
  import opened Wrappers
  import opened Stages
  import opened Jobs
  import opened Pipeline

  lemma ReachStep(p: Params, s: State, l: Label)
    requires Reachable(p, s) && Enabled(p, s, l)
    ensures Reachable(p, Apply(p, s, l))
  {
    var run :| Exec(p, INIT, run) == Some(s);
    ExecStep(p, INIT, run, l);
    assert Exec(p, INIT, run + [l]) == Some(Apply(p, s, l));
  }

  lemma ReachInit(p: Params)
    ensures Reachable(p, INIT)
  {
    assert Exec(p, INIT, []) == Some(INIT);
  }

  // No claim transaction is open, and every job's paper exists.
  ghost predicate Tidy(s: State) {
    && (forall w :: w in s.workers ==> !s.workers[w].phase.Selected?)
    && (forall j :: 0 <= j < |s.jobs| ==> s.jobs[j].paper < |s.papers|)
  }

  lemma NoLocks(s: State)
    requires forall w :: w in s.workers ==> !s.workers[w].phase.Selected?
    ensures LockedByClaims(s) == {}
  {
    forall j ensures !LockedByAny(s, j) {
      forall w ensures !RowLocked(s, w, j) {
      }
    }
  }

  // An id above all of these.
  lemma {:induction false} AllBelow(ids: set<WorkerId>) returns (m: nat)
    ensures forall w :: w in ids ==> w < m
    decreases |ids|
  {
    if ids == {} {
      m := 0;
    } else {
      var w :| w in ids;
      var rest := AllBelow(ids - {w});
      m := if w < rest then rest else w + 1;
      forall v | v in ids ensures v < m {
        assert v != w ==> v in ids - {w};
      }
    }
  }

  // ---------- One worker, at one instant ----------

  // The idle worker claims the rows.
  lemma ClaimNow(p: Params, s: State, w: WorkerId, rows: seq<JobId>) returns (t: State)
    requires Reachable(p, s) && Tidy(s) && w in s.workers && s.workers[w].phase.Idle? && rows != []
    requires var stage := s.workers[w].stage;
      IsSelection(s.jobs, {}, stage, s.now, p.lease, p.batch(stage), rows)
    ensures Reachable(p, t) && Tidy(t) && t.now == s.now && t.papers == s.papers && t.spawned == s.spawned
    ensures t.workers == s.workers[w := Worker(s.workers[w].stage, Handling(rows, 0, s.now, s.now, Begun))]
    ensures t.jobs == ClaimRows(s.jobs, rows, w, s.now)
  {
    var s1 := SelectNow(p, s, w, rows);
    t := CommitNow(p, s1, w);
    assert t.workers == s.workers[w := Worker(s.workers[w].stage, Handling(rows, 0, s.now, s.now, Begun))];
  }

  // A claim that has selected rows is committed.
  lemma CommitNow(p: Params, s: State, w: WorkerId) returns (t: State)
    requires Reachable(p, s) && Enabled(p, s, Commit(w)) && s.workers[w].phase.rows != []
    ensures Reachable(p, t) && t.now == s.now && t.papers == s.papers && t.spawned == s.spawned
    ensures var worker := s.workers[w];
      && t.workers == s.workers[w := Worker(worker.stage,
           Handling(worker.phase.rows, 0, worker.phase.began, s.now, Begun))]
      && t.jobs == ClaimRows(s.jobs, worker.phase.rows, w, worker.phase.began)
  {
    ReachStep(p, s, Commit(w));
    t := Apply(p, s, Commit(w));
  }

  // Its claim has selected them and is not committed yet.
  lemma SelectNow(p: Params, s: State, w: WorkerId, rows: seq<JobId>) returns (t: State)
    requires Reachable(p, s) && Tidy(s) && w in s.workers && s.workers[w].phase.Idle?
    requires var stage := s.workers[w].stage;
      IsSelection(s.jobs, {}, stage, s.now, p.lease, p.batch(stage), rows)
    ensures Reachable(p, t)
    ensures t == s.(workers := s.workers[w := Worker(s.workers[w].stage, Selected(s.now, rows))])
  {
    ReachStep(p, s, BeginClaim(w));
    var s1 := Apply(p, s, BeginClaim(w));
    NoLocks(s1);
    ReachStep(p, s1, Select(w, rows));
    t := Apply(p, s1, Select(w, rows));
    assert t.workers == s.workers[w := Worker(s.workers[w].stage, Selected(s.now, rows))];
  }

  predicate Doing(s: State, w: WorkerId, progress: Progress) {
    && Runs(s, w, progress)
    && s.jobs[Current(s, s.workers[w].phase)].stage == s.workers[w].stage && JobStage(s.workers[w].stage)
  }

  function WithProgress(worker: Worker, progress: Progress): Worker
    requires worker.phase.Handling?
  {
    worker.(phase := worker.phase.(progress := progress))
  }

  // The handler writes a terminal stage.
  lemma WriteEnd(p: Params, s: State, w: WorkerId) returns (t: State)
    requires Reachable(p, s) && Tidy(s) && Doing(s, w, Begun) && TerminalFor(s.workers[w].stage).Some?
    ensures Reachable(p, t) && Tidy(t) && Doing(t, w, Done)
    ensures var c := Current(s, s.workers[w].phase);
      t == s.(workers := s.workers[w := WithProgress(s.workers[w], Done)],
              papers := s.papers[s.jobs[c].paper := TerminalFor(s.workers[w].stage).value],
              finished := s.finished + {c})
  {
    ReachStep(p, s, WriteTerminal(w));
    t := Apply(p, s, WriteTerminal(w));
  }

  // The handler writes its stage.
  lemma WriteStageNow(p: Params, s: State, w: WorkerId) returns (t: State)
    requires Reachable(p, s) && Tidy(s) && Doing(s, w, Begun) && !s.workers[w].stage.CitationsExtracted?
    ensures Reachable(p, t) && Tidy(t) && Doing(t, w, StageWritten)
    ensures var c := Current(s, s.workers[w].phase);
      t == s.(workers := s.workers[w := WithProgress(s.workers[w], StageWritten)],
              papers := s.papers[s.jobs[c].paper := s.workers[w].stage])
  {
    ReachStep(p, s, WriteStage(w));
    t := Apply(p, s, WriteStage(w));
  }

  // And enqueues the next job.
  lemma EnqueueNow(p: Params, s: State, w: WorkerId) returns (t: State)
    requires Reachable(p, s) && Tidy(s) && Doing(s, w, StageWritten) && !s.workers[w].stage.CitationsExtracted?
    ensures Reachable(p, t) && Tidy(t) && Doing(t, w, Done)
    ensures var c := Current(s, s.workers[w].phase);
      t == s.(workers := s.workers[w := WithProgress(s.workers[w], Done)],
              jobs := Enqueued(s.jobs, s.jobs[c].paper, NextJobStage(s.workers[w].stage).value, 0, p.maxAttempts, s.now),
              finished := s.finished + {c})
  {
    ReachStep(p, s, EnqueueNext(w));
    t := Apply(p, s, EnqueueNext(w));
  }

  // The handler makes all its writes: a terminal stage where nothing follows, otherwise the
  // stage and the next job.
  lemma WriteAll(p: Params, s: State, w: WorkerId) returns (t: State)
    requires Reachable(p, s) && Tidy(s) && Doing(s, w, Begun)
    ensures Reachable(p, t) && Tidy(t) && Doing(t, w, Done)
    ensures t.now == s.now && |t.papers| == |s.papers| && t.spawned == s.spawned
    ensures t.workers == s.workers[w := WithProgress(s.workers[w], Done)]
    ensures var job := s.jobs[Current(s, s.workers[w].phase)];
      if job.stage.CitationsExtracted? then t.jobs == s.jobs
      else t.jobs == Enqueued(s.jobs, job.paper, NextJobStage(job.stage).value, 0, p.maxAttempts, s.now)
  {
    if s.workers[w].stage.CitationsExtracted? {
      t := WriteEnd(p, s, w);
    } else {
      var s1 := WriteStageNow(p, s, w);
      t := EnqueueNow(p, s1, w);
      assert t.workers == s.workers[w := WithProgress(s.workers[w], Done)];
    }
  }

  // No other worker is doing anything.
  ghost predicate OnlyActive(s: State, w: WorkerId) {
    w in s.workers && forall v :: v in s.workers && v != w ==> s.workers[v].phase.Idle?
  }

  lemma TickNow(p: Params, s: State, w: WorkerId, d: real) returns (t: State)
    requires Reachable(p, s) && d >= 0.0
    requires OnlyActive(s, w) && WithinDeadline(p, s.workers[w].phase, s.now + d)
    ensures Reachable(p, t) && t == s.(now := s.now + d)
  {
    t := s.(now := s.now + d);
    assert Enabled(p, s, Tick(d)) && Apply(p, s, Tick(d)) == t;
    ReachStep(p, s, Tick(d));
  }

  // The handler returns; its outcome is still to be recorded.
  lemma EndsWith(p: Params, s: State, w: WorkerId, outcome: Outcome) returns (t: State)
    requires Reachable(p, s) && Tidy(s) && w in s.workers && s.workers[w].phase.Handling?
    requires AtJob(s, s.workers[w].phase) && (outcome.Failing? || (outcome.Completing? && s.workers[w].phase.progress.Done?))
    ensures Reachable(p, t) && Tidy(t)
    ensures var ph := s.workers[w].phase;
      t == s.(workers := s.workers[w := s.workers[w].(phase := Recording(ph.batch, ph.at, ph.lockedAt, s.now, outcome))])
  {
    ReachStep(p, s, HandlerEnds(w, outcome));
    t := Apply(p, s, HandlerEnds(w, outcome));
  }

  // `fail_job` reads the row.
  lemma ReadNow(p: Params, s: State, w: WorkerId) returns (t: State)
    requires Reachable(p, s) && Tidy(s) && RecordsOutcome(s, w) && s.workers[w].phase.outcome.Failing?
    ensures Reachable(p, t) && Tidy(t)
    ensures var job := s.jobs[Current(s, s.workers[w].phase)];
      t == s.(workers := s.workers[w := s.workers[w].(phase :=
                s.workers[w].phase.(outcome := FailureRead(job.attempts, job.maxAttempts)))])
  {
    ReachStep(p, s, ReadFailure(w));
    t := Apply(p, s, ReadFailure(w));
  }

  // The outcome could not be recorded; the worker goes on.
  lemma ErrorsNow(p: Params, s: State, w: WorkerId) returns (t: State)
    requires Reachable(p, s) && Tidy(s) && RecordsOutcome(s, w) && !s.workers[w].phase.outcome.Completing?
    ensures Reachable(p, t) && Tidy(t)
    ensures t == s.(workers := s.workers[w := s.workers[w].(phase := Advance(s.workers[w].phase, s.now))])
  {
    ReachStep(p, s, RecordErrors(w));
    t := Apply(p, s, RecordErrors(w));
  }

  // The outcome is recorded.
  lemma RecordNow(p: Params, s: State, w: WorkerId) returns (t: State)
    requires Reachable(p, s) && Tidy(s) && RecordsOutcome(s, w) && !s.workers[w].phase.outcome.Failing?
    ensures Reachable(p, t) && Tidy(t) && t.now == s.now && t.papers == s.papers && t.spawned == s.spawned
    ensures t.workers == s.workers[w := s.workers[w].(phase := Advance(s.workers[w].phase, s.now))]
    ensures var c := Current(s, s.workers[w].phase);
      t.jobs == s.jobs[c := RecordedRow(s.jobs[c], s.workers[w].phase.outcome, s.now, 0.0)]
  {
    NoLocks(s);
    ReachStep(p, s, Record(w, 0.0));
    t := Apply(p, s, Record(w, 0.0));
  }

  // The job is completed.
  lemma CompleteNow(p: Params, s: State, w: WorkerId) returns (t: State)
    requires Reachable(p, s) && Tidy(s) && Doing(s, w, Done)
    ensures Reachable(p, t) && Tidy(t) && t.now == s.now && t.papers == s.papers && t.spawned == s.spawned
    ensures var ph, c := s.workers[w].phase, Current(s, s.workers[w].phase);
      && t.workers == s.workers[w := s.workers[w].(phase :=
           Advance(Recording(ph.batch, ph.at, ph.lockedAt, s.now, Completing), s.now))]
      && t.jobs == s.jobs[c := Completed(s.jobs[c], s.now)]
  {
    var s1 := EndsWith(p, s, w, Completing);
    t := RecordNow(p, s1, w);
    assert t.workers == s.workers[w := t.workers[w]];
  }

  // ---------- A job of any stage ----------

  // The stage whose handler enqueues jobs of this one, where users cannot.
  function Feeder(stage: Stage): Option<Stage> {
    match stage
    case Acquired => Some(Resolved)
    case CitationsExtracted => Some(Ingested)
    case _ => None
  }

  // No claim of the stage would find a job.
  ghost predicate NothingToTake(p: Params, s: State, stage: Stage) {
    forall u :: !Available(s.jobs, {}, stage, s.now, p.lease, u)
  }

  // A user adds a paper and enqueues a job for it.
  lemma CreateNow(p: Params, s: State, stage: Stage) returns (t: State)
    requires Reachable(p, s) && Tidy(s) && (stage.Resolved? || stage.Ingested?)
    ensures Reachable(p, t) && Tidy(t)
    ensures t == s.(papers := s.papers + [Discovered],
                    jobs := s.jobs + [NewJob(|s.papers|, stage, 0, p.maxAttempts, s.now)])
  {
    ReachStep(p, s, InsertPaper);
    var s1 := Apply(p, s, InsertPaper);
    ReachStep(p, s1, Create(|s.papers|, stage, 0));
    t := Apply(p, s1, Create(|s.papers|, stage, 0));
    assert !HasPending(s.jobs, |s.papers|, stage);
  }

  lemma Join(p: Params, s: State, w: WorkerId, stage: Stage) returns (t: State)
    requires Reachable(p, s) && Tidy(s) && w !in s.workers && JobStage(stage)
    ensures Reachable(p, t) && Tidy(t) && t == s.(workers := s.workers[w := Worker(stage, Idle)])
  {
    ReachStep(p, s, StartWorker(w, stage));
    t := Apply(p, s, StartWorker(w, stage));
  }

  lemma OnlyOneToTake(p: Params, s: State, stage: Stage, j: JobId)
    requires p.batch(stage) >= 1
    requires forall u :: Available(s.jobs, {}, stage, s.now, p.lease, u) <==> u == j
    ensures IsSelection(s.jobs, {}, stage, s.now, p.lease, p.batch(stage), [j])
  {
  }

  // A new worker of the stage takes the one job there is for it.
  lemma OnlyClaim(p: Params, s: State, helper: WorkerId, stage: Stage, j: JobId) returns (t: State)
    requires Reachable(p, s) && Tidy(s) && helper !in s.workers && JobStage(stage)
    requires p.batch(stage) >= 1 && j < |s.jobs|
    requires forall u :: Available(s.jobs, {}, stage, s.now, p.lease, u) <==> u == j
    ensures Reachable(p, t) && Tidy(t) && t.now == s.now && t.papers == s.papers && t.spawned == s.spawned
    ensures t.workers == s.workers[helper := Worker(stage, Handling([j], 0, s.now, s.now, Begun))]
    ensures t.jobs == s.jobs[j := Locked(s.jobs[j], helper, s.now)]
    ensures s.jobs[j].stage == stage
  {
    var s1 := Join(p, s, helper, stage);
    assert Available(s.jobs, {}, stage, s.now, p.lease, j);
    OnlyOneToTake(p, s, stage, j);
    t := ClaimNow(p, s1, helper, [j]);
    OneClaimed(s.jobs, j, helper, s.now);
    assert t.workers == s.workers[helper := Worker(stage, Handling([j], 0, s.now, s.now, Begun))];
  }

  lemma OneClaimed(jobs: seq<Job>, j: JobId, w: WorkerId, at: real)
    requires j < |jobs|
    ensures ClaimRows(jobs, [j], w, at) == jobs[j := Locked(jobs[j], w, at)]
  {
  }

  // And writes its stage and enqueues the next job.
  lemma FeederWrites(p: Params, s: State, helper: WorkerId, stage: Stage, j: JobId) returns (t: State)
    requires Reachable(p, s) && Tidy(s) && helper in s.workers && (stage.Resolved? || stage.Ingested?)
    requires s.workers[helper] == Worker(stage, Handling([j], 0, s.now, s.now, Begun))
    requires j < |s.jobs| && s.jobs[j].stage == stage
    requires forall u :: 0 <= u < |s.jobs| && u != j ==> s.jobs[u].paper != s.jobs[j].paper
    ensures Reachable(p, t) && Tidy(t) && t.now == s.now && |t.papers| == |s.papers| && t.spawned == s.spawned
    ensures t.workers == s.workers[helper := WithProgress(s.workers[helper], Done)]
    ensures t.jobs == s.jobs + [NewJob(s.jobs[j].paper, NextJobStage(stage).value, 0, p.maxAttempts, s.now)]
    ensures Doing(t, helper, Done) && Current(t, t.workers[helper].phase) == j
  {
    assert Doing(s, helper, Begun) && Current(s, s.workers[helper].phase) == j;
    t := WriteAll(p, s, helper);
    assert !HasPending(s.jobs, s.jobs[j].paper, NextJobStage(stage).value);
  }

  // And completes it.
  lemma Feed(p: Params, s: State, helper: WorkerId, stage: Stage, j: JobId) returns (t: State)
    requires Reachable(p, s) && Tidy(s) && helper !in s.workers && (stage.Resolved? || stage.Ingested?)
    requires p.batch(stage) >= 1 && j < |s.jobs|
    requires forall u :: Available(s.jobs, {}, stage, s.now, p.lease, u) <==> u == j
    requires forall u :: 0 <= u < |s.jobs| && u != j ==> s.jobs[u].paper != s.jobs[j].paper
    ensures Reachable(p, t) && Tidy(t) && t.now == s.now && |t.papers| == |s.papers| && t.spawned == s.spawned
    ensures t.workers == s.workers[helper := Worker(stage, Idle)]
    ensures t.jobs == s.jobs[j := Completed(Locked(s.jobs[j], helper, s.now), s.now)]
                      + [NewJob(s.jobs[j].paper, NextJobStage(stage).value, 0, p.maxAttempts, s.now)]
    ensures s.jobs[j].stage == stage
  {
    var claimed := OnlyClaim(p, s, helper, stage, j);
    var written := FeederWrites(p, claimed, helper, stage, j);
    t := CompleteNow(p, written, helper);
    assert t.workers == s.workers[helper := Worker(stage, Idle)];
  }

  // One more paper, with one pending job of the stage; other workers and rows stay.
  lemma AddJob(p: Params, s: State, stage: Stage, helper: WorkerId) returns (t: State, j: JobId)
    requires Reachable(p, s) && Tidy(s) && JobStage(stage) && helper !in s.workers
    requires Feeder(stage).Some? ==> p.batch(Feeder(stage).value) >= 1 && NothingToTake(p, s, Feeder(stage).value)
    ensures Reachable(p, t) && Tidy(t) && t.now == s.now && t.spawned == s.spawned && |t.papers| == |s.papers| + 1
    ensures j == |t.jobs| - 1 && |s.jobs| <= j && s.jobs <= t.jobs
    ensures t.jobs[j] == NewJob(|s.papers|, stage, 0, p.maxAttempts, s.now)
    ensures forall u :: |s.jobs| <= u < j ==> t.jobs[u].status.Succeeded? && t.jobs[u].stage != stage
    ensures forall u :: |s.jobs| <= u < |t.jobs| ==> t.jobs[u].paper == |s.papers|
    ensures t.workers == s.workers ||
      (helper in t.workers && t.workers == s.workers[helper := t.workers[helper]]
       && t.workers[helper].phase.Idle? && t.workers[helper].stage != stage)
  {
    match Feeder(stage)
    case None =>
      t := CreateNow(p, s, stage);
      j := |s.jobs|;
    case Some(before) =>
      var s1 := CreateNow(p, s, before);
      forall u ensures Available(s1.jobs, {}, before, s1.now, p.lease, u) <==> u == |s.jobs| {
        assert !Available(s.jobs, {}, before, s.now, p.lease, u);
      }
      t := Feed(p, s1, helper, before, |s.jobs|);
      j := |s.jobs| + 1;
  }

  // ---------- n jobs of a stage and nothing else to do ----------

  // Nothing else is left to do for the row's paper.
  ghost predicate AloneFor(jobs: seq<Job>, j: JobId)
    requires j < |jobs|
  {
    forall u :: 0 <= u < |jobs| && u != j && jobs[u].paper == jobs[j].paper ==> jobs[u].status.Succeeded?
  }

  ghost predicate Queued(p: Params, s: State, stage: Stage, rows: seq<JobId>) {
    && Tidy(s) && s.now == 0.0 && s.spawned == 0 && Distinct(rows)
    && (forall w :: w in s.workers ==> 2 <= w < 2 + |rows| && s.workers[w].phase.Idle? && s.workers[w].stage != stage)
    && (forall j :: j in rows ==>
          j < |s.jobs| && AloneFor(s.jobs, j) && s.jobs[j] == NewJob(s.jobs[j].paper, stage, 0, p.maxAttempts, 0.0))
    && (forall j :: 0 <= j < |s.jobs| && j !in rows ==> s.jobs[j].status.Succeeded? && s.jobs[j].stage != stage)
  }

  lemma {:induction false} QueueMany(p: Params, stage: Stage, n: nat) returns (s: State, rows: seq<JobId>)
    requires JobStage(stage) && (Feeder(stage).Some? ==> p.batch(Feeder(stage).value) >= 1)
    ensures Reachable(p, s) && Queued(p, s, stage, rows) && |rows| == n
    decreases n
  {
    if n == 0 {
      ReachInit(p);
      s, rows := INIT, [];
    } else {
      var before, fewer := QueueMany(p, stage, n - 1);
      var j;
      s, j := AddJob(p, before, stage, n + 1);
      rows := fewer + [j];
      forall i | 0 <= i < |fewer| ensures rows[i] != j {
        assert fewer[i] in fewer;
      }
    }
  }
}
