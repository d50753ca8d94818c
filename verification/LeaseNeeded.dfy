/**
 * Without the lease premise exclusion fails: a run that ends with one row held by two
 * workers, for any parameters in which some stage's full batch can outlast the lease.
 * The first worker takes the longest permitted time over every job of its batch, and cannot
 * store the outcomes of the earlier ones; when the lease has run out, the second claims
 * them all, the last one included, which the first has not finished yet.
 */
module LeaseNeeded {
  import opened Wrappers
  import opened Stages
  import opened Jobs
  import opened Pipeline
  import opened Ownership
  import opened Lease
  import opened Witness

  // ---------- The slow worker ----------

  // The rows of the batch are as worker 0 claimed them at time 0, and nobody else has a job
  // of the stage.
  ghost predicate SlowRows(p: Params, jobs: seq<Job>, stage: Stage, rows: set<JobId>) {
    && (forall j :: j in rows ==> j < |jobs| && SlowRow(p, jobs[j], stage))
    && (forall j :: 0 <= j < |jobs| && j !in rows ==> jobs[j].stage != stage)
  }

  predicate SlowRow(p: Params, job: Job, stage: Stage) {
    job == Locked(NewJob(job.paper, stage, 0, p.maxAttempts, 0.0), 0, 0.0)
  }

  // All other jobs are done, and row j's paper has no other to do.
  ghost predicate NothingElse(jobs: seq<Job>, rows: set<JobId>, j: JobId) {
    && j in rows && j < |jobs| && AloneFor(jobs, j)
    && forall u :: 0 <= u < |jobs| && u !in rows ==> jobs[u].status.Succeeded?
  }

  function Last(batch: seq<JobId>): JobId
    requires batch != []
  {
    batch[|batch| - 1]
  }

  // Worker 1 is idle, and so is whoever brought the jobs about.
  ghost predicate OthersIdle(s: State, stage: Stage) {
    && 1 in s.workers && s.workers[1] == Worker(stage, Idle)
    && forall w :: w in s.workers && w >= 2 ==> s.workers[w].phase.Idle? && s.workers[w].stage != stage
  }

  // Worker 0 is in the given phase, at the given time.
  ghost predicate Slow(p: Params, s: State, stage: Stage, batch: seq<JobId>, ph: Phase, now: real) {
    Reachable(p, s) && SlowState(p, s, stage, batch, ph, now)
  }

  ghost predicate SlowState(p: Params, s: State, stage: Stage, batch: seq<JobId>, ph: Phase, now: real) {
    && Tidy(s) && s.now == now && Distinct(batch) && |batch| == p.batch(stage)
    && 0 in s.workers && s.workers[0] == Worker(stage, ph) && OthersIdle(s, stage)
    && SlowRows(p, s.jobs, stage, Elements(batch))
  }

  // Only worker 0's phase and the clock have moved.
  lemma Moved(p: Params, s: State, t: State, stage: Stage, batch: seq<JobId>, ph: Phase, after: Phase)
    requires SlowState(p, s, stage, batch, ph, s.now) && !after.Selected?
    requires t.workers == s.workers[0 := Worker(stage, after)] && t.jobs == s.jobs && |t.papers| == |s.papers|
    ensures SlowState(p, t, stage, batch, after, t.now)
  {
  }

  lemma Alone(p: Params, s: State, stage: Stage, batch: seq<JobId>, ph: Phase)
    requires SlowState(p, s, stage, batch, ph, s.now)
    ensures OnlyActive(s, 0)
  {
  }

  lemma AtRow(p: Params, s: State, stage: Stage, batch: seq<JobId>, i: nat, ph: Phase)
    requires SlowState(p, s, stage, batch, ph, s.now) && i < |batch|
    requires (ph.Handling? || ph.Recording?) && ph.batch == batch && ph.at == i
    ensures AtJob(s, ph) && Current(s, ph) == batch[i] && s.jobs[batch[i]].stage == stage
  {
    assert batch[i] in Elements(batch);
  }

  function At(p: Params, batch: seq<JobId>, i: nat, progress: Progress): Phase {
    Handling(batch, i, 0.0, Slot(p, i), progress)
  }

  // Both workers of the stage are there and worker 0 has selected every job.
  lemma ReachSelected(p: Params, stage: Stage) returns (s: State, batch: seq<JobId>)
    requires p.Valid() && JobStage(stage) && p.batch(stage) >= 1
    requires Feeder(stage).Some? ==> p.batch(Feeder(stage).value) >= 1
    ensures Reachable(p, s) && s.now == 0.0 && Distinct(batch) && |batch| == p.batch(stage)
    ensures 0 in s.workers && s.workers[0] == Worker(stage, Selected(0.0, batch)) && OthersIdle(s, stage)
    ensures forall j :: 0 <= j < |s.jobs| ==> s.jobs[j].paper < |s.papers|
    ensures SelectedRows(p, s.jobs, stage, Elements(batch))
  {
    var s0;
    s0, batch := QueueMany(p, stage, p.batch(stage));
    var s1 := Join(p, s0, 0, stage);
    var s2 := Join(p, s1, 1, stage);
    assert IsSelection(s2.jobs, {}, stage, 0.0, p.lease, p.batch(stage), batch);
    s := SelectNow(p, s2, 0, batch);
  }

  ghost predicate SelectedRows(p: Params, jobs: seq<Job>, stage: Stage, rows: set<JobId>) {
    && (forall j :: j in rows ==>
          j < |jobs| && AloneFor(jobs, j) && jobs[j] == NewJob(jobs[j].paper, stage, 0, p.maxAttempts, 0.0))
    && (forall j :: 0 <= j < |jobs| && j !in rows ==> jobs[j].stage != stage && jobs[j].status.Succeeded?)
  }

  lemma ReachFirst(p: Params, stage: Stage) returns (s: State, batch: seq<JobId>)
    requires p.Valid() && JobStage(stage) && p.batch(stage) >= 1
    requires Feeder(stage).Some? ==> p.batch(Feeder(stage).value) >= 1
    ensures batch != [] && Slow(p, s, stage, batch, At(p, batch, 0, Begun), Slot(p, 0))
    ensures NothingElse(s.jobs, Elements(batch), Last(batch))
  {
    var s0;
    s0, batch := ReachSelected(p, stage);
    assert OnlyActive(s0, 0);
    var s1 := TickNow(p, s0, 0, p.latency);
    s := CommitNow(p, s1, 0);
    FirstRows(p, s0.jobs, stage, batch);
    SamePapers(s0.jobs, batch, 0, 0.0, |s.papers|);
    NoneSelected(s0, s, stage);
    FirstState(p, s0, s, stage, batch);
  }

  lemma SamePapers(jobs: seq<Job>, rows: seq<JobId>, w: WorkerId, at: real, papers: nat)
    requires forall j :: 0 <= j < |jobs| ==> jobs[j].paper < papers
    ensures forall j :: 0 <= j < |jobs| ==> ClaimRows(jobs, rows, w, at)[j].paper < papers
  {
    forall j | 0 <= j < |jobs| ensures ClaimRows(jobs, rows, w, at)[j].paper < papers {
      assert ClaimRows(jobs, rows, w, at)[j].paper == jobs[j].paper;
    }
  }

  lemma NoneSelected(s: State, t: State, stage: Stage)
    requires OthersIdle(s, stage) && 0 in t.workers && t.workers == s.workers[0 := t.workers[0]]
    requires t.workers[0].phase.Handling?
    ensures forall w :: w in t.workers ==> !t.workers[w].phase.Selected?
  {
    forall w | w in t.workers ensures !t.workers[w].phase.Selected? {
      if w != 0 {
        assert t.workers[w] == s.workers[w];
      }
    }
  }

  lemma FirstState(p: Params, s: State, t: State, stage: Stage, batch: seq<JobId>)
    requires 0 in s.workers && s.workers[0] == Worker(stage, Selected(0.0, batch)) && OthersIdle(s, stage)
    requires Tidy(t) && t.now == p.latency && Distinct(batch) && |batch| == p.batch(stage)
    requires t.workers == s.workers[0 := Worker(stage, At(p, batch, 0, Begun))]
    requires SlowRows(p, t.jobs, stage, Elements(batch))
    ensures SlowState(p, t, stage, batch, At(p, batch, 0, Begun), Slot(p, 0))
  {
  }

  lemma FirstRows(p: Params, jobs: seq<Job>, stage: Stage, batch: seq<JobId>)
    requires batch != [] && SelectedRows(p, jobs, stage, Elements(batch))
    ensures SlowRows(p, ClaimRows(jobs, batch, 0, 0.0), stage, Elements(batch))
    ensures NothingElse(ClaimRows(jobs, batch, 0, 0.0), Elements(batch), Last(batch))
  {
    var rows, after := Elements(batch), ClaimRows(jobs, batch, 0, 0.0);
    forall u | 0 <= u < |jobs| ensures after[u] == if u in rows then Locked(jobs[u], 0, 0.0) else jobs[u] {
    }
    assert Last(batch) in rows && AloneFor(jobs, Last(batch));
  }

  // The handler has run to its deadline.
  lemma AtDeadline(p: Params, s: State, stage: Stage, batch: seq<JobId>, i: nat) returns (t: State)
    requires p.Valid() && Slow(p, s, stage, batch, At(p, batch, i, Begun), Slot(p, i)) && i < |batch|
    ensures Slow(p, t, stage, batch, At(p, batch, i, Begun), Slot(p, i) + p.timeout)
    ensures JobStage(stage) ==> Doing(t, 0, Begun)
    ensures t.papers == s.papers && t.jobs == s.jobs
  {
    var ph := At(p, batch, i, Begun);
    Alone(p, s, stage, batch, ph);
    t := TickNow(p, s, 0, p.timeout);
    assert t.workers == s.workers[0 := Worker(stage, ph)];
    Moved(p, s, t, stage, batch, ph, ph);
    assert batch[i] in Elements(batch);
  }

  // It ends.
  lemma Ended(p: Params, s: State, stage: Stage, batch: seq<JobId>, i: nat, outcome: Outcome, progress: Progress)
    returns (t: State)
    requires i < |batch| && (outcome.Failing? || (outcome.Completing? && progress.Done?))
    requires Slow(p, s, stage, batch, At(p, batch, i, progress), s.now)
    ensures Slow(p, t, stage, batch, Recording(batch, i, 0.0, s.now, outcome), s.now)
    ensures t.papers == s.papers && t.jobs == s.jobs
  {
    AtRow(p, s, stage, batch, i, At(p, batch, i, progress));
    t := EndsWith(p, s, 0, outcome);
    Moved(p, s, t, stage, batch, At(p, batch, i, progress), Recording(batch, i, 0.0, s.now, outcome));
  }

  // Its outcome is to be recorded, as late as it may be.
  lemma AtRecord(p: Params, s: State, stage: Stage, batch: seq<JobId>, i: nat, outcome: Outcome, progress: Progress)
    returns (t: State)
    requires p.Valid() && i < |batch| && (outcome.Failing? || (outcome.Completing? && progress.Done?))
    requires Slow(p, s, stage, batch, At(p, batch, i, progress), Slot(p, i) + p.timeout)
    ensures Slow(p, t, stage, batch, Recording(batch, i, 0.0, Slot(p, i) + p.timeout, outcome), Slot(p, i + 1))
    ensures t.papers == s.papers && t.jobs == s.jobs && s.now <= t.now
  {
    var ph := Recording(batch, i, 0.0, s.now, outcome);
    var s1 := Ended(p, s, stage, batch, i, outcome, progress);
    Alone(p, s1, stage, batch, ph);
    t := TickNow(p, s1, 0, p.record);
    assert t.workers == s1.workers[0 := Worker(stage, ph)];
    Moved(p, s1, t, stage, batch, ph, ph);
  }

  // That fails, and the next handler starts.
  lemma NotRecorded(p: Params, s: State, stage: Stage, batch: seq<JobId>, i: nat) returns (t: State)
    requires p.Valid() && i + 1 < |batch|
    requires Slow(p, s, stage, batch, Recording(batch, i, 0.0, Slot(p, i) + p.timeout, Failing), Slot(p, i + 1))
    ensures Slow(p, t, stage, batch, At(p, batch, i + 1, Begun), Slot(p, i + 1)) && t.jobs == s.jobs
  {
    var ph := Recording(batch, i, 0.0, Slot(p, i) + p.timeout, Failing);
    AtRow(p, s, stage, batch, i, ph);
    t := ErrorsNow(p, s, 0);
    Moved(p, s, t, stage, batch, ph, At(p, batch, i + 1, Begun));
  }

  // One job of the batch, at the slowest permitted pace.
  lemma SlowTurn(p: Params, s: State, stage: Stage, batch: seq<JobId>, i: nat) returns (t: State)
    requires p.Valid() && JobStage(stage) && i + 1 < |batch|
    requires Slow(p, s, stage, batch, At(p, batch, i, Begun), Slot(p, i))
    ensures Slow(p, t, stage, batch, At(p, batch, i + 1, Begun), Slot(p, i + 1)) && t.jobs == s.jobs
  {
    var s1 := AtDeadline(p, s, stage, batch, i);
    var s2 := AtRecord(p, s1, stage, batch, i, Failing, Begun);
    t := NotRecorded(p, s2, stage, batch, i);
  }

  lemma {:induction false} ReachSlow(p: Params, stage: Stage, i: nat) returns (s: State, batch: seq<JobId>)
    requires p.Valid() && JobStage(stage) && i < p.batch(stage)
    requires Feeder(stage).Some? ==> p.batch(Feeder(stage).value) >= 1
    ensures batch != [] && Slow(p, s, stage, batch, At(p, batch, i, Begun), Slot(p, i))
    ensures NothingElse(s.jobs, Elements(batch), Last(batch))
    decreases i
  {
    if i == 0 {
      s, batch := ReachFirst(p, stage);
    } else {
      var before;
      before, batch := ReachSlow(p, stage, i - 1);
      s := SlowTurn(p, before, stage, batch, i - 1);
    }
  }

  // The last handler of the batch has run to its deadline.
  lemma ReachLast(p: Params, stage: Stage) returns (s: State, batch: seq<JobId>)
    requires p.Valid() && JobStage(stage) && p.batch(stage) >= 1
    requires Feeder(stage).Some? ==> p.batch(Feeder(stage).value) >= 1
    ensures batch != [] && Slow(p, s, stage, batch, At(p, batch, |batch| - 1, Begun), Slot(p, |batch| - 1) + p.timeout)
    ensures NothingElse(s.jobs, Elements(batch), Last(batch)) && Doing(s, 0, Begun)
    ensures Current(s, s.workers[0].phase) == Last(batch)
  {
    var last, s0 := p.batch(stage) - 1, INIT;
    s0, batch := ReachSlow(p, stage, last);
    s := AtDeadline(p, s0, stage, batch, last);
  }

  // ---------- The second worker claims the batch ----------

  // The last row first.
  function LastFirst(batch: seq<JobId>): seq<JobId>
    requires batch != []
  {
    [Last(batch)] + batch[..|batch| - 1]
  }

  lemma SameRows(batch: seq<JobId>)
    requires batch != [] && Distinct(batch)
    ensures |LastFirst(batch)| == |batch| && Distinct(LastFirst(batch))
    ensures forall j: JobId :: j in LastFirst(batch) <==> j in Elements(batch)
  {
    var n := |batch| - 1;
    assert batch == batch[..n] + [batch[n]];
  }

  // Exactly these rows have been claimed by worker 1.
  ghost predicate Reclaimed(jobs: seq<Job>, after: seq<Job>, rows: set<JobId>, at: real) {
    && |after| == |jobs|
    && forall u :: 0 <= u < |jobs| ==> after[u] == if u in rows then Locked(jobs[u], 1, at) else jobs[u]
  }

  // When the lease has run out every row of the batch can be claimed, and no other; the last
  // may come first.
  lemma AllAvailable(p: Params, jobs: seq<Job>, stage: Stage, batch: seq<JobId>, now: real)
    returns (rows: seq<JobId>)
    requires batch != [] && SlowRows(p, jobs, stage, Elements(batch)) && now > p.lease
    requires Distinct(batch) && |batch| == p.batch(stage)
    ensures IsSelection(jobs, {}, stage, now, p.lease, p.batch(stage), rows)
    ensures rows != [] && rows[0] == Last(batch) && Reclaimed(jobs, ClaimRows(jobs, rows, 1, now), Elements(batch), now)
  {
    SameRows(batch);
    rows := LastFirst(batch);
  }

  lemma SecondClaim(p: Params, s: State, stage: Stage, batch: seq<JobId>, ph: Phase)
    returns (t: State, rows: seq<JobId>)
    requires p.Valid() && batch != [] && Slot(p, p.batch(stage)) > p.lease
    requires Slow(p, s, stage, batch, ph, Slot(p, |batch|))
    ensures Reachable(p, t) && Tidy(t) && t.now == s.now && t.papers == s.papers && rows != [] && rows[0] == Last(batch)
    ensures t.workers == s.workers[1 := Worker(stage, Handling(rows, 0, s.now, s.now, Begun))]
    ensures Reclaimed(s.jobs, t.jobs, Elements(batch), s.now)
  {
    rows := AllAvailable(p, s.jobs, stage, batch, s.now);
    t := ClaimNow(p, s, 1, rows);
  }

  // Worker 0 has yet to record the outcome of its handler on row j; worker 1 has just begun
  // on the same row.
  ghost predicate BothAt(p: Params, s: State, stage: Stage, j: JobId, outcome: Outcome) {
    && Tidy(s) && 0 in s.workers && j < |s.jobs| && RecordsOutcome(s, 0) && s.workers[0].stage == stage
    && s.workers[0].phase.outcome == outcome && Current(s, s.workers[0].phase) == j
    && Doing(s, 1, Begun) && s.workers[1].stage == stage && Current(s, s.workers[1].phase) == j
    && s.jobs[j].attempts == 0 && s.jobs[j].maxAttempts == p.maxAttempts
  }

  lemma ClaimedIsBoth(p: Params, s: State, t: State, stage: Stage, rows: set<JobId>, j: JobId,
                      first: Phase, claimed: seq<JobId>)
    requires Tidy(t) && JobStage(stage) && SlowRows(p, s.jobs, stage, rows) && j in rows
    requires 0 in s.workers && s.workers[0] == Worker(stage, first)
    requires first.Recording? && first.at < |first.batch| && first.batch[first.at] == j
    requires claimed != [] && claimed[0] == j && Reclaimed(s.jobs, t.jobs, rows, s.now)
    requires t.workers == s.workers[1 := Worker(stage, Handling(claimed, 0, s.now, s.now, Begun))]
    ensures BothAt(p, t, stage, j, first.outcome)
  {
    assert SlowRow(p, s.jobs[j], stage);
  }

  lemma LastIsIn(batch: seq<JobId>)
    requires batch != []
    ensures Last(batch) in Elements(batch)
  {
  }

  // The last handler's outcome is to be recorded at the last moment; before that, worker 1
  // claims.
  lemma Overtakes(p: Params, s: State, stage: Stage, batch: seq<JobId>, last: nat, outcome: Outcome, progress: Progress)
    returns (t: State)
    requires p.Valid() && |batch| == last + 1 && Slot(p, last + 1) > p.lease && JobStage(stage)
    requires outcome.Failing? || (outcome.Completing? && progress.Done?)
    requires Slow(p, s, stage, batch, At(p, batch, last, progress), Slot(p, last) + p.timeout)
    ensures Reachable(p, t) && BothAt(p, t, stage, Last(batch), outcome) && t.papers == s.papers
    ensures Reclaimed(s.jobs, t.jobs, Elements(batch), t.now) && s.now <= t.now
  {
    var ph := Recording(batch, last, 0.0, Slot(p, last) + p.timeout, outcome);
    var mid := AtRecord(p, s, stage, batch, last, outcome, progress);
    var rows;
    t, rows := SecondClaim(p, mid, stage, batch, ph);
    LastIsIn(batch);
    ClaimedIsBoth(p, mid, t, stage, Elements(batch), Last(batch), ph, rows);
  }

  // Worker 0's handler ran into its deadline, and that is still to be recorded.
  lemma ReachBoth(p: Params, stage: Stage) returns (s: State, j: JobId)
    requires p.Valid() && JobStage(stage) && p.batch(stage) >= 1 && !FitsLease(p, stage)
    requires Feeder(stage).Some? ==> p.batch(Feeder(stage).value) >= 1
    ensures Reachable(p, s) && BothAt(p, s, stage, j, Failing)
  {
    FitsIffSlot(p, stage);
    var s0, batch := ReachLast(p, stage);
    s := Overtakes(p, s0, stage, batch, |batch| - 1, Failing, Begun);
    j := Last(batch);
  }

  // When some stage's full batch can outlast the lease, two workers can come to hold a row.
  lemma SecondHolder(p: Params, stage: Stage) returns (s: State, j: JobId)
    requires p.Valid() && JobStage(stage) && p.batch(stage) >= 1 && !FitsLease(p, stage)
    requires Feeder(stage).Some? ==> p.batch(Feeder(stage).value) >= 1
    ensures Reachable(p, s) && Holds(s, 0, j) && Holds(s, 1, j)
  {
    s, j := ReachBoth(p, stage);
    HoldsCurrent(s, 0);
    HoldsCurrent(s, 1);
  }

  // In no reachable state is a row held twice, or held under another's name.
  ghost predicate AlwaysExclusive(p: Params) {
    forall s :: Reachable(p, s) ==> Exclusive(s)
  }

  // Exclusion over all runs, if and only if every stage's full batch fits the lease.
  lemma ExclusionIffFitsLease(p: Params)
    requires p.Valid() && forall stage :: JobStage(stage) ==> p.batch(stage) >= 1
    ensures Premise(p) <==> AlwaysExclusive(p)
  {
    if Premise(p) {
      forall s | Reachable(p, s) ensures Exclusive(s) {
        var run :| Exec(p, INIT, run) == Some(s);
        LeaseExclusion(p, run);
      }
    } else {
      var stage :| JobStage(stage) && !FitsLease(p, stage);
      var s, j := SecondHolder(p, stage);
      assert !Exclusive(s);
    }
  }

  // The batch sizes the workers are started with.
  function ConfiguredBatch(stage: Stage): nat {
    match stage
    case Resolved => 10
    case Acquired => 5
    case Ingested => 3
    case CitationsExtracted => 2
    case _ => 0
  }

  // With the default deadline (1800 s) and lease (3600 s) exclusion fails, however fast
  // claims and outcome recording are: three jobs of one batch already outlast the lease.
  lemma DefaultsBreakExclusion(p: Params)
    requires p.Valid() && p.batch == ConfiguredBatch
    requires p.timeout == 1800.0 && p.lease == 3600.0
    ensures !AlwaysExclusive(p)
  {
    assert 10.0 * (p.timeout + p.record) >= 10.0 * 1800.0;
    assert !FitsLease(p, Resolved);
    var s, j := SecondHolder(p, Resolved);
    assert !Exclusive(s);
  }
}
