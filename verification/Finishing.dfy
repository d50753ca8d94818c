/**
 * No job is stuck: whatever state the pipeline has come to, every job that is pending or in
 * progress can still be carried, by workers alone, to its paper's completion.
 */
module Finishing {
  import opened Wrappers
  import opened Stages
  import opened Jobs
  import opened Pipeline
  import opened Ownership
  import opened Lease
  import opened Stranded

  // ---------- What every row satisfies, in every run ----------

  predicate RowInOrder(s: State, job: Job) {
    job.paper < |s.papers| && JobStage(job.stage) && (job.status.InProgress? ==> job.lockedAt.Some?)
  }

  ghost predicate TableOk(s: State) {
    forall j :: 0 <= j < |s.jobs| ==> RowInOrder(s, s.jobs[j])
  }

  lemma TableStep(p: Params, s: State, l: Label)
    requires TableOk(s) && Enabled(p, s, l)
    ensures TableOk(Apply(p, s, l)) && |s.jobs| <= |Apply(p, s, l).jobs| && |s.papers| <= |Apply(p, s, l).papers|
  {
  }

  lemma {:induction false} TableRun(p: Params, s: State, run: seq<Label>)
    requires TableOk(s) && Exec(p, s, run).Some?
    ensures TableOk(Exec(p, s, run).value)
  {
    if run != [] {
      ExecLast(p, s, run);
      TableRun(p, s, run[..|run| - 1]);
      TableStep(p, Exec(p, s, run[..|run| - 1]).value, run[|run| - 1]);
    }
  }

  // ---------- Runs of workers alone ----------

  // No user acts.
  predicate ByWorkers(l: Label) {
    !l.InsertPaper? && !l.Create? && !l.Retry?
  }

  ghost predicate Leads(p: Params, s: State, run: seq<Label>, t: State) {
    Exec(p, s, run) == Some(t) && forall k :: 0 <= k < |run| ==> ByWorkers(run[k])
  }

  ghost predicate LeadsTo(p: Params, s: State, t: State) {
    exists run :: Leads(p, s, run, t)
  }

  lemma Nowhere(p: Params, s: State)
    ensures LeadsTo(p, s, s)
  {
    assert Leads(p, s, [], s);
  }

  lemma Further(p: Params, s: State, t: State, l: Label)
    requires LeadsTo(p, s, t) && Enabled(p, t, l) && ByWorkers(l)
    ensures LeadsTo(p, s, Apply(p, t, l))
  {
    var run :| Leads(p, s, run, t);
    ExecStep(p, s, run, l);
    assert Leads(p, s, run + [l], Apply(p, t, l));
  }

  lemma Onward(p: Params, s: State, t: State, u: State)
    requires LeadsTo(p, s, t) && LeadsTo(p, t, u)
    ensures LeadsTo(p, s, u)
  {
    var a :| Leads(p, s, a, t);
    var b :| Leads(p, t, b, u);
    ExecConcat(p, s, a, b);
    assert Leads(p, s, a + b, u);
  }

  // ---------- Every worker stops ----------

  ghost predicate AllStopped(s: State) {
    forall w :: w in s.workers ==> s.workers[w].phase.Stopped?
  }

  lemma {:induction false} StopAll(p: Params, s: State, running: set<WorkerId>) returns (t: State)
    requires running <= s.workers.Keys
    requires forall w :: w in s.workers && !s.workers[w].phase.Stopped? ==> w in running
    requires forall w :: w in running ==> !s.workers[w].phase.Stopped?
    ensures LeadsTo(p, s, t) && AllStopped(t) && t.jobs == s.jobs && t.papers == s.papers && t.now == s.now
    decreases |running|
  {
    Nowhere(p, s);
    if running == {} {
      t := s;
    } else {
      var w :| w in running;
      Further(p, s, s, Crash(w));
      var s1 := Apply(p, s, Crash(w));
      t := StopAll(p, s1, running - {w});
      Onward(p, s, s1, t);
    }
  }

  // Then time passes.
  lemma StopAndWait(p: Params, s: State, d: real) returns (t: State)
    requires d >= 0.0
    ensures LeadsTo(p, s, t) && AllStopped(t) && t.jobs == s.jobs && t.papers == s.papers && t.now == s.now + d
  {
    var running := set w | w in s.workers && !s.workers[w].phase.Stopped?;
    var s1 := StopAll(p, s, running);
    Further(p, s, s1, Tick(d));
    t := Apply(p, s1, Tick(d));
  }

  // ---------- The row is claimed ----------

  // A worker id nobody has.
  lemma {:induction false} Unused(ids: set<WorkerId>) returns (w: WorkerId)
    ensures forall v :: v in ids ==> v < w
    decreases |ids|
  {
    if ids == {} {
      w := 0;
    } else {
      var v :| v in ids;
      var rest := Unused(ids - {v});
      w := if v < rest then rest else v + 1;
      forall u | u in ids ensures u < w {
        assert u != v ==> u in ids - {v};
      }
    }
  }

  ghost predicate NoneSelected(s: State) {
    forall w :: w in s.workers ==> !s.workers[w].phase.Selected?
  }

  lemma NoLocks(s: State)
    requires NoneSelected(s)
    ensures LockedByClaims(s) == {}
  {
    forall j ensures !LockedByAny(s, j) {
      forall w ensures !RowLocked(s, w, j) {
      }
    }
  }

  // A new worker of the stage claims a batch, at this instant.
  lemma ClaimBatch(p: Params, s: State, stage: Stage) returns (t: State, w: WorkerId, rows: seq<JobId>)
    requires NoneSelected(s) && JobStage(stage)
    ensures LeadsTo(p, s, t) && NoneSelected(t) && t.papers == s.papers && t.now == s.now
    ensures IsSelection(s.jobs, {}, stage, s.now, p.lease, p.batch(stage), rows)
    ensures t.jobs == ClaimRows(s.jobs, rows, w, s.now)
    ensures rows != [] ==>
      w in t.workers && t.workers[w] == Worker(stage, Handling(rows, 0, s.now, s.now, Begun))
  {
    w := Unused(s.workers.Keys);
    rows := SelectionExists(s.jobs, {}, stage, s.now, p.lease, p.batch(stage));
    Nowhere(p, s);
    Further(p, s, s, StartWorker(w, stage));
    var s1 := Apply(p, s, StartWorker(w, stage));
    Further(p, s, s1, BeginClaim(w));
    var s2 := Apply(p, s1, BeginClaim(w));
    NoLocks(s2);
    Further(p, s, s2, Select(w, rows));
    var s3 := Apply(p, s2, Select(w, rows));
    Further(p, s, s3, Commit(w));
    t := Apply(p, s3, Commit(w));
  }

  ghost predicate HeldNow(s: State, w: WorkerId, j: JobId, i: nat) {
    && w in s.workers && s.workers[w].phase.Handling? && s.workers[w].phase.at <= i < |s.workers[w].phase.batch|
    && s.workers[w].phase.batch[i] == j && s.workers[w].phase.progress.Begun?
    && (forall k :: 0 <= k < |s.workers[w].phase.batch| ==> s.workers[w].phase.batch[k] < |s.jobs|)
    && j < |s.jobs| && s.workers[w].stage == s.jobs[j].stage
  }

  // What a claim has just taken no claim takes at the same instant: fewer rows are left.
  lemma FewerLeft(p: Params, jobs: seq<Job>, stage: Stage, now: real, rows: seq<JobId>, w: WorkerId)
    requires p.lease >= 0.0 && rows != []
    requires forall j: JobId :: j in rows ==> Available(jobs, {}, stage, now, p.lease, j)
    ensures |AvailableSet(ClaimRows(jobs, rows, w, now), {}, stage, now, p.lease)|
          < |AvailableSet(jobs, {}, stage, now, p.lease)|
  {
    var before := AvailableSet(jobs, {}, stage, now, p.lease);
    var after := AvailableSet(ClaimRows(jobs, rows, w, now), {}, stage, now, p.lease);
    assert rows[0] in rows;
    assert rows[0] in before;
    forall j | j in after ensures j in before - {rows[0]} {
    }
    SubsetCount(after, before - {rows[0]});
  }

  // A row that claims may take is taken, once those before it have been.
  lemma {:induction false} TakeRow(p: Params, s: State, j: JobId) returns (t: State, w: WorkerId, i: nat)
    requires p.lease >= 0.0 && NoneSelected(s) && j < |s.jobs| && JobStage(s.jobs[j].stage)
    requires p.batch(s.jobs[j].stage) >= 1 && Available(s.jobs, {}, s.jobs[j].stage, s.now, p.lease, j)
    ensures LeadsTo(p, s, t) && NoneSelected(t) && t.papers == s.papers && t.now == s.now
    ensures |t.jobs| == |s.jobs| && t.jobs[j].paper == s.jobs[j].paper && t.jobs[j].stage == s.jobs[j].stage
    ensures HeldNow(t, w, j, i)
    decreases |AvailableSet(s.jobs, {}, s.jobs[j].stage, s.now, p.lease)|
  {
    var stage := s.jobs[j].stage;
    var s1, v, rows := ClaimBatch(p, s, stage);
    assert rows != [];
    if j in rows {
      t, w := s1, v;
      i :| 0 <= i < |rows| && rows[i] == j;
      forall k | 0 <= k < |rows| ensures rows[k] < |s.jobs| {
        assert rows[k] in rows;
      }
    } else {
      FewerLeft(p, s.jobs, stage, s.now, rows, v);
      assert s1.jobs[j] == s.jobs[j];
      t, w, i := TakeRow(p, s1, j);
      Onward(p, s, s1, t);
    }
  }

  // Jobs before it in the batch are given up, their outcomes not being recorded.
  lemma {:induction false} SkipTo(p: Params, s: State, w: WorkerId, j: JobId, i: nat) returns (t: State)
    requires HeldNow(s, w, j, i) && NoneSelected(s)
    ensures LeadsTo(p, s, t) && HeldNow(t, w, j, i) && t.workers[w].phase.at == i
    ensures t.jobs == s.jobs && t.papers == s.papers && t.now == s.now
    decreases i - s.workers[w].phase.at
  {
    Nowhere(p, s);
    if s.workers[w].phase.at == i {
      t := s;
    } else {
      Further(p, s, s, HandlerEnds(w, Failing));
      var s1 := Apply(p, s, HandlerEnds(w, Failing));
      Further(p, s, s1, RecordErrors(w));
      var s2 := Apply(p, s1, RecordErrors(w));
      t := SkipTo(p, s2, w, j, i);
      Onward(p, s, s2, t);
    }
  }

  // A job that is pending or in progress comes to be run.
  lemma ComesToRun(p: Params, s: State, j: JobId) returns (t: State, w: WorkerId)
    requires p.lease >= 0.0 && TableOk(s) && j < |s.jobs| && p.batch(s.jobs[j].stage) >= 1
    requires s.jobs[j].status.Pending? || s.jobs[j].status.InProgress?
    ensures LeadsTo(p, s, t) && Runs(t, w, Begun) && Current(t, t.workers[w].phase) == j
    ensures t.papers == s.papers && t.jobs[j].paper == s.jobs[j].paper && t.jobs[j].stage == s.jobs[j].stage
    ensures t.workers[w].stage == s.jobs[j].stage
  {
    var job := s.jobs[j];
    assert RowInOrder(s, job);
    var due := if job.status.Pending? then job.scheduledAfter else job.lockedAt.value + p.lease + 1.0;
    var s1 := StopAndWait(p, s, if due > s.now then due - s.now else 0.0);
    var s2, v, i := TakeRow(p, s1, j);
    w := v;
    t := SkipTo(p, s2, w, j, i);
    Onward(p, s, s1, s2);
    Onward(p, s, s2, t);
  }

  // ---------- The paper is carried on ----------

  function Remaining(stage: Stage): nat {
    match stage
    case Resolved => 3
    case Acquired => 2
    case Ingested => 1
    case _ => 0
  }

  ghost predicate CanComplete(p: Params, s: State, paper: PaperId) {
    exists t: State :: LeadsTo(p, s, t) && paper < |t.papers| && t.papers[paper] == Complete
  }

  // The running handler makes its writes.
  lemma WritesNext(p: Params, s: State, w: WorkerId) returns (t: State, next: JobId)
    requires Runs(s, w, Begun) && TableOk(s)
    requires s.jobs[Current(s, s.workers[w].phase)].stage != CitationsExtracted
    ensures var job := s.jobs[Current(s, s.workers[w].phase)];
      && LeadsTo(p, s, t) && next < |t.jobs| && t.jobs[next].paper == job.paper
      && Some(t.jobs[next].stage) == NextJobStage(job.stage) && t.jobs[next].status.Pending?
  {
    var job := s.jobs[Current(s, s.workers[w].phase)];
    assert RowInOrder(s, job);
    Nowhere(p, s);
    Further(p, s, s, WriteStage(w));
    var s1 := Apply(p, s, WriteStage(w));
    Further(p, s, s1, EnqueueNext(w));
    t := Apply(p, s1, EnqueueNext(w));
    if HasPending(s.jobs, job.paper, NextJobStage(job.stage).value) {
      next :| 0 <= next < |s.jobs| && IsPendingFor(s.jobs[next], job.paper, NextJobStage(job.stage).value);
    } else {
      next := |s.jobs|;
    }
  }

  // From every state some run has reached, every job that is pending or in progress can be
  // carried, stage by stage, until its paper is complete, with no help from users.
  lemma {:induction false} EveryJobCanFinish(p: Params, s: State, j: JobId)
    requires p.lease >= 0.0 && forall stage :: JobStage(stage) ==> p.batch(stage) >= 1
    requires TableOk(s) && j < |s.jobs| && (s.jobs[j].status.Pending? || s.jobs[j].status.InProgress?)
    ensures CanComplete(p, s, s.jobs[j].paper)
    decreases Remaining(s.jobs[j].stage)
  {
    var paper, stage := s.jobs[j].paper, s.jobs[j].stage;
    assert RowInOrder(s, s.jobs[j]);
    var s1, w := ComesToRun(p, s, j);
    LeadsInOrder(p, s, s1);
    if stage.CitationsExtracted? {
      Further(p, s, s1, WriteTerminal(w));
      var t := Apply(p, s1, WriteTerminal(w));
      assert t.papers[paper] == Complete;
    } else {
      var s2, next := WritesNext(p, s1, w);
      LeadsInOrder(p, s1, s2);
      EveryJobCanFinish(p, s2, next);
      var t :| LeadsTo(p, s2, t) && paper < |t.papers| && t.papers[paper] == Complete;
      Onward(p, s1, s2, t);
      Onward(p, s, s1, t);
    }
  }

  lemma LeadsInOrder(p: Params, s: State, t: State)
    requires TableOk(s) && LeadsTo(p, s, t)
    ensures TableOk(t)
  {
    var run :| Leads(p, s, run, t);
    TableRun(p, s, run);
  }

  // A job to resolve a paper can also end with it unresolvable.
  lemma CanBeUnresolvable(p: Params, s: State, j: JobId) returns (t: State)
    requires p.lease >= 0.0 && p.batch(Resolved) >= 1
    requires TableOk(s) && j < |s.jobs| && (s.jobs[j].status.Pending? || s.jobs[j].status.InProgress?)
    requires s.jobs[j].stage == Resolved
    ensures LeadsTo(p, s, t) && s.jobs[j].paper < |t.papers| && t.papers[s.jobs[j].paper] == Unresolvable
  {
    var s1, w := ComesToRun(p, s, j);
    Further(p, s, s1, WriteTerminal(w));
    t := Apply(p, s1, WriteTerminal(w));
  }

  // In no state a run reaches is a job that is pending or in progress stuck.
  lemma NoJobIsStuck(p: Params, s: State, j: JobId)
    requires p.lease >= 0.0 && forall stage :: JobStage(stage) ==> p.batch(stage) >= 1
    requires Reachable(p, s) && j < |s.jobs| && (s.jobs[j].status.Pending? || s.jobs[j].status.InProgress?)
    ensures CanComplete(p, s, s.jobs[j].paper)
  {
    var run :| Exec(p, INIT, run) == Some(s);
    TableRun(p, INIT, run);
    EveryJobCanFinish(p, s, j);
  }

  // Nor is a paper that has just been given a job: by a user, or by snowballing.
  lemma NewWorkCanFinish(p: Params, s: State, l: Label)
    requires p.lease >= 0.0 && forall stage :: JobStage(stage) ==> p.batch(stage) >= 1
    requires Reachable(p, s) && Enabled(p, s, l) && (l.Create? || l.Spawn?)
    ensures CanComplete(p, Apply(p, s, l), if l.Create? then l.paper else |s.papers|)
  {
    var run :| Exec(p, INIT, run) == Some(s);
    TableRun(p, INIT, run);
    TableStep(p, s, l);
    var t := Apply(p, s, l);
    var paper, stage := if l.Create? then l.paper else |s.papers|, if l.Create? then l.stage else Resolved;
    var j: JobId :| j < |t.jobs| && IsPendingFor(t.jobs[j], paper, stage);
    EveryJobCanFinish(p, t, j);
  }

  // ---------- A handler under way can complete its job ----------

  ghost predicate RowsFit(s: State, rows: seq<JobId>, stage: Stage) {
    forall j :: j in rows ==> j < |s.jobs| && s.jobs[j].stage == stage
  }

  // The rows are the worker's stage's, and the progress is one its handler makes.
  ghost predicate Fits(s: State, worker: Worker) {
    && JobStage(worker.stage)
    && (worker.phase.Selected? ==> RowsFit(s, worker.phase.rows, worker.stage))
    && (worker.phase.Handling? || worker.phase.Recording? ==> RowsFit(s, worker.phase.batch, worker.stage))
    && (worker.phase.Handling? ==>
          && (worker.phase.progress.Counted? ==> worker.stage == CitationsExtracted)
          && (worker.phase.progress.StageWritten? ==> worker.stage != CitationsExtracted))
  }

  ghost predicate AllFit(s: State) {
    forall w :: w in s.workers ==> Fits(s, s.workers[w])
  }

  lemma RowsStillFit(p: Params, s: State, l: Label, rows: seq<JobId>, stage: Stage)
    requires Enabled(p, s, l) && RowsFit(s, rows, stage)
    ensures RowsFit(Apply(p, s, l), rows, stage)
  {
  }

  // What the acting worker has in hand comes from what it had, or from its selection.
  lemma FitStep(p: Params, s: State, l: Label, w: WorkerId)
    requires AllFit(s) && Enabled(p, s, l) && w in Apply(p, s, l).workers
    ensures Fits(Apply(p, s, l), Apply(p, s, l).workers[w])
  {
    if w in s.workers {
      var worker, after := s.workers[w], Apply(p, s, l).workers[w];
      assert Fits(s, worker);
      if worker.phase.Selected? {
        RowsStillFit(p, s, l, worker.phase.rows, worker.stage);
      } else if worker.phase.Handling? || worker.phase.Recording? {
        RowsStillFit(p, s, l, worker.phase.batch, worker.stage);
        if AtJob(s, worker.phase) {
          assert Current(s, worker.phase) in worker.phase.batch;
        }
      } else if after.phase.Selected? {
        assert RowsFit(s, after.phase.rows, worker.stage);
        RowsStillFit(p, s, l, after.phase.rows, worker.stage);
      }
    }
  }

  lemma {:induction false} FitRun(p: Params, run: seq<Label>)
    requires Exec(p, INIT, run).Some?
    ensures AllFit(Exec(p, INIT, run).value)
  {
    if run != [] {
      var front, l := run[..|run| - 1], run[|run| - 1];
      ExecLast(p, INIT, run);
      FitRun(p, front);
      var s := Exec(p, INIT, front).value;
      forall w | w in Apply(p, s, l).workers ensures Fits(Apply(p, s, l), Apply(p, s, l).workers[w]) {
        FitStep(p, s, l, w);
      }
    }
  }

  // Steps of this worker's handler and of recording its outcome.
  predicate OwnWork(l: Label, w: WorkerId) {
    (l.WriteStage? || l.EnqueueNext? || l.WriteTerminal? || l.HandlerEnds? || l.Record?) && l.w == w
  }

  ghost predicate WorksTo(p: Params, s: State, w: WorkerId, run: seq<Label>, t: State) {
    Exec(p, s, run) == Some(t) && forall k :: 0 <= k < |run| ==> OwnWork(run[k], w)
  }

  lemma WorksOn(p: Params, s: State, w: WorkerId, run: seq<Label>, t: State, l: Label)
    requires WorksTo(p, s, w, run, t) && Enabled(p, t, l) && OwnWork(l, w)
    ensures WorksTo(p, s, w, run + [l], Apply(p, t, l))
  {
    ExecStep(p, s, run, l);
  }

  // The handler makes its last write, where it is next.
  lemma MakesLastWrite(p: Params, s: State, w: WorkerId) returns (l: Label)
    requires Running(s, w) && !s.workers[w].phase.progress.Done?
    requires var stage := s.jobs[Current(s, s.workers[w].phase)].stage;
      if s.workers[w].phase.progress.StageWritten? then NextJobStage(stage).Some? else stage == CitationsExtracted
    ensures OwnWork(l, w) && Enabled(p, s, l) && Runs(Apply(p, s, l), w, Done)
    ensures Current(Apply(p, s, l), Apply(p, s, l).workers[w].phase) == Current(s, s.workers[w].phase)
    ensures Apply(p, s, l).workers == s.workers[w := Apply(p, s, l).workers[w]]
  {
    l := if s.workers[w].phase.progress.StageWritten? then EnqueueNext(w) else WriteTerminal(w);
  }

  // The handler makes the writes it still has to make.
  lemma MakesItsWrites(p: Params, s: State, w: WorkerId) returns (run: seq<Label>, t: State)
    requires Running(s, w) && AllFit(s)
    ensures WorksTo(p, s, w, run, t) && Runs(t, w, Done)
    ensures Current(t, t.workers[w].phase) == Current(s, s.workers[w].phase)
    ensures t.workers == s.workers[w := t.workers[w]]
  {
    assert Fits(s, s.workers[w]);
    assert Current(s, s.workers[w].phase) in s.workers[w].phase.batch;
    run, t := [], s;
    if s.workers[w].phase.progress.Begun? && !s.workers[w].stage.CitationsExtracted? {
      WorksOn(p, s, w, run, t, WriteStage(w));
      run, t := run + [WriteStage(w)], Apply(p, t, WriteStage(w));
    }
    if !t.workers[w].phase.progress.Done? {
      var l := MakesLastWrite(p, t, w);
      WorksOn(p, s, w, run, t, l);
      run, t := run + [l], Apply(p, t, l);
    }
  }

  // Wherever a handler has come to, its worker alone can make the writes that are left and
  // complete the job, unless a claim has just selected its row from under it.
  lemma HandlerCanComplete(p: Params, s: State, w: WorkerId) returns (run: seq<Label>, t: State)
    requires Reachable(p, s) && Running(s, w)
    requires forall v :: !RowLocked(s, v, Current(s, s.workers[w].phase))
    ensures WorksTo(p, s, w, run, t)
    ensures var j := Current(s, s.workers[w].phase); j < |t.jobs| && t.jobs[j].status == Succeeded
  {
    var before :| Exec(p, INIT, before) == Some(s);
    FitRun(p, before);
    var j := Current(s, s.workers[w].phase);
    run, t := MakesItsWrites(p, s, w);
    WorksOn(p, s, w, run, t, HandlerEnds(w, Completing));
    run, t := run + [HandlerEnds(w, Completing)], Apply(p, t, HandlerEnds(w, Completing));
    forall v ensures !RowLocked(t, v, j) {
      assert !RowLocked(s, v, j);
    }
    assert !LockedByAny(t, j);
    WorksOn(p, s, w, run, t, Record(w, 0.0));
    run, t := run + [Record(w, 0.0)], Apply(p, t, Record(w, 0.0));
  }

  // After a retry of one of its failed jobs.
  ghost predicate CanCompleteOnRetry(p: Params, s: State, paper: PaperId) {
    exists i: JobId :: CarriedBy(s, paper, i) && s.jobs[i].status.Failed?
      && Enabled(p, s, Retry({i})) && CanComplete(p, Apply(p, s, Retry({i})), paper)
  }

  // Under the lease premise every paper a job was enqueued for is at an end, or can be
  // carried to completion by workers alone, or once a user has had one of its failed jobs
  // retried.
  lemma EveryPaperCanEnd(p: Params, s: State, j: JobId)
    requires p.Valid() && Premise(p) && forall stage :: JobStage(stage) ==> p.batch(stage) >= 1
    requires Reachable(p, s) && j < |s.jobs|
    ensures var paper := s.jobs[j].paper;
      && paper < |s.papers|
      && (Terminal(s.papers[paper]) || CanComplete(p, s, paper) || CanCompleteOnRetry(p, s, paper))
  {
    var paper := s.jobs[j].paper;
    NoPaperIsStranded(p, s, j);
    LeaseIsPositive(p);
    if !Terminal(s.papers[paper]) {
      var i: JobId :| CarriedBy(s, paper, i);
      if s.jobs[i].status.Failed? {
        var run :| Exec(p, INIT, run) == Some(s);
        TableRun(p, INIT, run);
        var t := Apply(p, s, Retry({i}));
        TableStep(p, s, Retry({i}));
        EveryJobCanFinish(p, t, i);
      } else {
        NoJobIsStuck(p, s, i);
      }
    }
  }

  lemma LeaseIsPositive(p: Params)
    requires p.Valid() && Premise(p)
    ensures p.lease >= 0.0
  {
    var n, d := p.batch(Resolved) as real, p.timeout + p.record;
    assert FitsLease(p, Resolved);
    assert n * d >= 0.0;
  }
}
