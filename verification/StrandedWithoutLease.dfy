/**
 * That no paper is stranded rests on the lease, whichever stage's batch can outlast it. A
 * worker that claims a job a second time overwrites the end the paper has reached since, and
 * crashes; or, at the last stage, it puts the job back, the paper's new run relies on that
 * job, and the first holder completes it.
 */
module StrandedWithoutLease {
  import opened Wrappers
  import opened Stages
  import opened Jobs
  import opened Pipeline
  import opened Ownership
  import opened Lease
  import opened LeaseNeeded
  import opened Witness
  import opened Stranded

  ghost predicate AlwaysAttended(p: Params) {
    forall s, j: JobId :: Reachable(p, s) && j < |s.jobs| ==> Attended(s, s.jobs[j].paper)
  }

  // All jobs of row j's paper are done, but for row q.
  ghost predicate DoneBut(jobs: seq<Job>, j: JobId, q: JobId)
    requires j < |jobs|
  {
    forall u :: 0 <= u < |jobs| && u != q && jobs[u].paper == jobs[j].paper ==> jobs[u].status.Succeeded?
  }

  // ---------- The end of the first three cases ----------

  // Worker 1 is about to write a stage for a paper that has no job left.
  ghost predicate ToOverwrite(s: State, stage: Stage, j: JobId) {
    && Tidy(s) && Doing(s, 1, Begun) && s.workers[1].stage == stage && Current(s, s.workers[1].phase) == j
    && DoneBut(s.jobs, j, |s.jobs|)
  }

  lemma CrashNow(p: Params, s: State, w: WorkerId) returns (t: State)
    requires Reachable(p, s) && w in s.workers && !s.workers[w].phase.Stopped?
    ensures Reachable(p, t) && t == s.(workers := s.workers[w := s.workers[w].(phase := Stopped)])
  {
    ReachStep(p, s, Crash(w));
    t := Apply(p, s, Crash(w));
  }

  lemma NobodyCarries(s: State, j: JobId)
    requires j < |s.jobs| && DoneBut(s.jobs, j, |s.jobs|)
    requires s.jobs[j].paper < |s.papers| && !Terminal(s.papers[s.jobs[j].paper])
    ensures !Attended(s, s.jobs[j].paper)
  {
    forall u ensures !CarriedBy(s, s.jobs[j].paper, u) {
    }
  }

  lemma Overwrites(p: Params, s: State, stage: Stage, j: JobId) returns (t: State)
    requires Reachable(p, s) && ToOverwrite(s, stage, j) && !stage.CitationsExtracted? && JobStage(stage)
    ensures Reachable(p, t) && j < |t.jobs| && !Attended(t, t.jobs[j].paper)
  {
    var s1 := WriteStageNow(p, s, 1);
    t := CrashNow(p, s1, 1);
    NobodyCarries(t, j);
  }

  // ---------- After the second claim ----------

  // What the second claim and the first holder's success leave of the table.
  ghost predicate Follows(jobs: seq<Job>, after: seq<Job>, rows: set<JobId>, j: JobId) {
    && |after| == |jobs| && j in rows && j < |jobs| && after[j].status.Succeeded?
    && forall u :: 0 <= u < |jobs| ==>
         after[u].paper == jobs[u].paper && after[u].stage == jobs[u].stage && (u !in rows ==> after[u] == jobs[u])
  }

  lemma ClaimFollows(jobs: seq<Job>, after: seq<Job>, rows: set<JobId>, j: JobId, now: real)
    requires Reclaimed(jobs, after, rows, now) && j in rows && j < |jobs|
    ensures Follows(jobs, after[j := Completed(after[j], now)], rows, j)
  {
  }

  // All rows below n of row j's paper are done, but for row j itself.
  ghost predicate DoneBelow(jobs: seq<Job>, j: JobId, n: nat)
    requires j < |jobs| && n <= |jobs|
  {
    forall u :: 0 <= u < n && u != j && jobs[u].paper == jobs[j].paper ==> jobs[u].status.Succeeded?
  }

  lemma AllDoneBelow(p: Params, jobs: seq<Job>, after: seq<Job>, stage: Stage, rows: set<JobId>, j: JobId, n: nat)
    requires SlowRows(p, jobs, stage, rows) && Follows(jobs, after, rows, j) && n <= |jobs| && DoneBelow(jobs, j, n)
    ensures forall u :: 0 <= u < n && after[u].paper == after[j].paper ==> after[u].status.Succeeded?
  {
    forall u | 0 <= u < n && after[u].paper == after[j].paper ensures after[u].status.Succeeded? {
      assert u in rows ==> SlowRow(p, jobs[u], stage);
    }
  }

  lemma StillBegun(p: Params, s: State, t: State, stage: Stage, j: JobId)
    requires BothAt(p, s, stage, j, Completing) && 0 in t.workers && t.workers == s.workers[0 := t.workers[0]]
    requires |t.papers| == |s.papers| && t.jobs == s.jobs[j := Completed(s.jobs[j], s.now)]
    ensures Doing(t, 1, Begun) && t.workers[1].stage == stage && Current(t, t.workers[1].phase) == j
  {
  }

  // The last handler has made its writes and its worker is overtaken; then its success is
  // recorded.
  lemma Finishes(p: Params, s: State, stage: Stage, batch: seq<JobId>, last: nat) returns (t: State)
    requires p.Valid() && |batch| == last + 1 && Slot(p, last + 1) > p.lease && JobStage(stage)
    requires Slow(p, s, stage, batch, At(p, batch, last, Done), Slot(p, last) + p.timeout)
    ensures Reachable(p, t) && Tidy(t) && s.now <= t.now
    ensures Doing(t, 1, Begun) && t.workers[1].stage == stage && Current(t, t.workers[1].phase) == Last(batch)
    ensures Follows(s.jobs, t.jobs, Elements(batch), Last(batch))
  {
    var s1 := Overtakes(p, s, stage, batch, last, Completing, Done);
    LastIsIn(batch);
    ClaimFollows(s.jobs, s1.jobs, Elements(batch), Last(batch), s1.now);
    t := RecordNow(p, s1, 0);
    StillBegun(p, s1, t, stage, Last(batch));
  }

  // ---------- The first stage ----------

  // The slow worker of a stage that can end the pipeline has written the end for the last
  // paper of its batch.
  lemma WroteEnd(p: Params, stage: Stage) returns (s: State, batch: seq<JobId>)
    requires p.Valid() && (stage.Resolved? || stage.CitationsExtracted?) && p.batch(stage) >= 1
    requires Feeder(stage).Some? ==> p.batch(Feeder(stage).value) >= 1
    ensures batch != [] && NothingElse(s.jobs, Elements(batch), Last(batch))
    ensures Slow(p, s, stage, batch, At(p, batch, |batch| - 1, Done), Slot(p, |batch| - 1) + p.timeout)
  {
    var s0;
    s0, batch := ReachLast(p, stage);
    var last: nat := |batch| - 1;
    s := WriteEnd(p, s0, 0);
    Moved(p, s0, s, stage, batch, At(p, batch, last, Begun), At(p, batch, last, Done));
  }

  lemma FirstStage(p: Params) returns (s: State, j: JobId)
    requires p.Valid() && p.batch(Resolved) >= 1 && !FitsLease(p, Resolved)
    ensures Reachable(p, s) && ToOverwrite(s, Resolved, j)
  {
    var s0, batch := WroteEnd(p, Resolved);
    j := Last(batch);
    assert AloneFor(s0.jobs, j);
    FitsIffSlot(p, Resolved);
    s := Finishes(p, s0, Resolved, batch, |batch| - 1);
    AllDoneBelow(p, s0.jobs, s.jobs, Resolved, Elements(batch), j, |s.jobs|);
  }

  // ---------- The second and the third stage ----------

  // The rows when the slow worker has enqueued the next job, the last of them.
  ghost predicate NextQueued(p: Params, jobs: seq<Job>, stage: Stage, rows: set<JobId>, j: JobId, now: real) {
    && SlowRows(p, jobs, stage, rows) && j in rows && 0 <= j < |jobs| - 1 && NextJobStage(stage).Some?
    && jobs[|jobs| - 1] == NewJob(jobs[j].paper, NextJobStage(stage).value, 0, p.maxAttempts, now)
    && DoneBelow(jobs, j, |jobs| - 1)
    && forall u :: 0 <= u < |jobs| - 1 && u !in rows ==> jobs[u].status.Succeeded?
  }

  lemma QueuesNext(p: Params, jobs: seq<Job>, stage: Stage, rows: set<JobId>, j: JobId, now: real)
    requires SlowRows(p, jobs, stage, rows) && NothingElse(jobs, rows, j) && NextJobStage(stage).Some?
    ensures var next := NextJobStage(stage).value;
      && !HasPending(jobs, jobs[j].paper, next)
      && NextQueued(p, jobs + [NewJob(jobs[j].paper, next, 0, p.maxAttempts, now)], stage, rows, j, now)
  {
    assert SlowRow(p, jobs[j], stage) && AloneFor(jobs, j);
  }

  lemma OneMore(p: Params, s: State, t: State, stage: Stage, batch: seq<JobId>, last: nat, job: Job)
    requires |batch| == last + 1 && job.stage != stage && job.paper < |s.papers|
    requires SlowState(p, s, stage, batch, At(p, batch, last, Begun), s.now)
    requires t.workers == s.workers[0 := Worker(stage, At(p, batch, last, Done))]
    requires t.now == s.now && t.jobs == s.jobs + [job] && |t.papers| == |s.papers|
    ensures SlowState(p, t, stage, batch, At(p, batch, last, Done), s.now)
  {
  }

  // The handler writes its stage and enqueues.
  lemma WritesNext(p: Params, s: State, stage: Stage, batch: seq<JobId>, last: nat) returns (t: State)
    requires (stage.Acquired? || stage.Ingested?) && |batch| == last + 1
    requires Slow(p, s, stage, batch, At(p, batch, last, Begun), s.now) && Doing(s, 0, Begun)
    requires Current(s, s.workers[0].phase) == Last(batch)
    requires !HasPending(s.jobs, s.jobs[Last(batch)].paper, NextJobStage(stage).value)
    ensures Slow(p, t, stage, batch, At(p, batch, last, Done), s.now)
    ensures t.jobs == s.jobs + [NewJob(s.jobs[Last(batch)].paper, NextJobStage(stage).value, 0, p.maxAttempts, s.now)]
  {
    var s1 := WriteStageNow(p, s, 0);
    t := EnqueueNow(p, s1, 0);
    assert t.workers == s.workers[0 := Worker(stage, At(p, batch, last, Done))];
    OneMore(p, s, t, stage, batch, last, t.jobs[|s.jobs|]);
  }

  lemma Enqueues(p: Params, stage: Stage) returns (s: State, batch: seq<JobId>)
    requires p.Valid() && (stage.Acquired? || stage.Ingested?) && p.batch(stage) >= 1
    requires Feeder(stage).Some? ==> p.batch(Feeder(stage).value) >= 1
    ensures batch != [] && NextQueued(p, s.jobs, stage, Elements(batch), Last(batch), s.now)
    ensures Slow(p, s, stage, batch, At(p, batch, |batch| - 1, Done), Slot(p, |batch| - 1) + p.timeout)
  {
    var s0;
    s0, batch := ReachLast(p, stage);
    QueuesNext(p, s0.jobs, stage, Elements(batch), Last(batch), s0.now);
    s := WritesNext(p, s0, stage, batch, |batch| - 1);
  }

  // Row q, alone of its stage to be claimed, carries row j's paper on; worker 1 holds row j.
  ghost predicate Carrying(s: State, stage: Stage, j: JobId, q: JobId) {
    && Tidy(s) && Doing(s, 1, Begun) && s.workers[1].stage == stage && Current(s, s.workers[1].phase) == j
    && CarryingRows(s.jobs, stage, j, q, s.now)
  }

  ghost predicate CarryingRows(jobs: seq<Job>, stage: Stage, j: JobId, q: JobId, now: real) {
    && j < |jobs| && q < |jobs| && q != j && DoneBut(jobs, j, q)
    && jobs[q].status.Pending? && jobs[q].scheduledAfter <= now
    && jobs[q].paper == jobs[j].paper && jobs[q].stage != stage
    && forall u :: 0 <= u < |jobs| && u != q ==> jobs[u].stage == stage || jobs[u].status.Succeeded?
  }

  lemma AfterRecord(p: Params, jobs: seq<Job>, after: seq<Job>, stage: Stage, rows: set<JobId>, j: JobId,
                    before: real, now: real)
    requires NextQueued(p, jobs, stage, rows, j, before) && before <= now && Follows(jobs, after, rows, j)
    ensures CarryingRows(after, stage, j, |jobs| - 1, now)
  {
    AllDoneBelow(p, jobs, after, stage, rows, j, |jobs| - 1);
    forall u | 0 <= u < |after| && u != |jobs| - 1 ensures after[u].stage == stage || after[u].status.Succeeded? {
      assert u in rows ==> SlowRow(p, jobs[u], stage);
    }
  }

  lemma ReachCarrying(p: Params, stage: Stage) returns (s: State, j: JobId, q: JobId)
    requires p.Valid() && (stage.Acquired? || stage.Ingested?) && p.batch(stage) >= 1 && !FitsLease(p, stage)
    requires Feeder(stage).Some? ==> p.batch(Feeder(stage).value) >= 1
    ensures Reachable(p, s) && Carrying(s, stage, j, q) && s.jobs[q].stage == NextJobStage(stage).value
  {
    var s0, batch := Enqueues(p, stage);
    FitsIffSlot(p, stage);
    s := Finishes(p, s0, stage, batch, |batch| - 1);
    j, q := Last(batch), |s0.jobs| - 1;
    AfterRecord(p, s0.jobs, s.jobs, stage, Elements(batch), j, s0.now, s.now);
  }

  lemma OnlyCarrier(p: Params, jobs: seq<Job>, stage: Stage, j: JobId, q: JobId, now: real)
    requires CarryingRows(jobs, stage, j, q, now)
    ensures forall u :: Available(jobs, {}, jobs[q].stage, now, p.lease, u) <==> u == q
  {
  }

  // A new worker takes row q.
  lemma TakesCarrier(p: Params, s: State, stage: Stage, j: JobId, q: JobId) returns (t: State, h: WorkerId)
    requires Reachable(p, s) && Carrying(s, stage, j, q) && JobStage(s.jobs[q].stage) && p.batch(s.jobs[q].stage) >= 1
    ensures Reachable(p, t) && Tidy(t) && h !in s.workers && t.now == s.now && t.papers == s.papers
    ensures t.workers == s.workers[h := Worker(s.jobs[q].stage, Handling([q], 0, s.now, s.now, Begun))]
    ensures t.jobs == s.jobs[q := Locked(s.jobs[q], h, s.now)]
  {
    h := AllBelow(s.workers.Keys);
    OnlyCarrier(p, s.jobs, stage, j, q, s.now);
    t := OnlyClaim(p, s, h, s.jobs[q].stage, q);
  }

  // From the third stage's job to the last stage's.
  lemma CarriesOn(p: Params, s: State, stage: Stage, j: JobId, q: JobId) returns (t: State, r: JobId)
    requires Reachable(p, s) && Carrying(s, stage, j, q) && s.jobs[q].stage.Ingested? && stage.Acquired?
    requires p.batch(Ingested) >= 1
    ensures Reachable(p, t) && Carrying(t, stage, j, r) && t.jobs[r].stage.CitationsExtracted?
  {
    var s1, h := TakesCarrier(p, s, stage, j, q);
    var s2 := WriteAll(p, s1, h);
    assert !HasPending(s1.jobs, s1.jobs[q].paper, CitationsExtracted);
    r := |s.jobs|;
    t := CompleteNow(p, s2, h);
    NextCarrier(p, s.jobs, t.jobs, stage, j, q, h, s.now);
  }

  lemma NextCarrier(p: Params, jobs: seq<Job>, after: seq<Job>, stage: Stage, j: JobId, q: JobId, h: WorkerId, now: real)
    requires CarryingRows(jobs, stage, j, q, now) && stage.Acquired?
    requires after == (jobs[q := Locked(jobs[q], h, now)]
                       + [NewJob(jobs[q].paper, CitationsExtracted, 0, p.maxAttempts, now)])
                      [q := Completed(Locked(jobs[q], h, now), now)]
    ensures CarryingRows(after, stage, j, |jobs|, now)
  {
  }

  // The last stage's job takes the paper to its end.
  lemma CarriesHome(p: Params, s: State, stage: Stage, j: JobId, q: JobId) returns (t: State)
    requires Reachable(p, s) && Carrying(s, stage, j, q) && s.jobs[q].stage.CitationsExtracted?
    requires p.batch(CitationsExtracted) >= 1
    ensures Reachable(p, t) && ToOverwrite(t, stage, j)
  {
    var s1, h := TakesCarrier(p, s, stage, j, q);
    var s2 := WriteAll(p, s1, h);
    t := CompleteNow(p, s2, h);
  }

  lemma MiddleStage(p: Params, stage: Stage) returns (s: State, j: JobId)
    requires p.Valid() && (stage.Acquired? || stage.Ingested?) && !FitsLease(p, stage)
    requires forall any :: JobStage(any) ==> p.batch(any) >= 1
    ensures Reachable(p, s) && ToOverwrite(s, stage, j)
  {
    var s1, q;
    s1, j, q := ReachCarrying(p, stage);
    if stage.Acquired? {
      s1, q := CarriesOn(p, s1, stage, j, q);
    }
    s := CarriesHome(p, s1, stage, j, q);
  }

  // ---------- The last stage ----------

  // Both holders have finished: the first successfully, which is still to be recorded, the
  // second not, and that has put row j back to pending.
  ghost predicate PutBack(s: State, j: JobId) {
    && Tidy(s) && 0 in s.workers && RecordsOutcome(s, 0) && s.workers[0].phase.outcome.Completing?
    && Current(s, s.workers[0].phase) == j && j < |s.jobs|
    && s.jobs[j].status.Pending? && s.jobs[j].stage.CitationsExtracted? && DoneBut(s.jobs, j, j)
    && forall u :: 0 <= u < |s.jobs| ==> s.jobs[u].stage.CitationsExtracted? || s.jobs[u].status.Succeeded?
  }

  // The second worker claims the job, fails, and has read the row.
  lemma SecondFails(p: Params) returns (s: State, j: JobId)
    requires p.Valid() && p.batch(CitationsExtracted) >= 1 && p.batch(Ingested) >= 1 && !FitsLease(p, CitationsExtracted)
    ensures Reachable(p, s) && BothAfter(p, s, j)
  {
    var s0, batch := WroteEnd(p, CitationsExtracted);
    FitsIffSlot(p, CitationsExtracted);
    var s1 := Overtakes(p, s0, CitationsExtracted, batch, |batch| - 1, Completing, Done);
    j := Last(batch);
    ClaimedDone(p, s0.jobs, s1.jobs, Elements(batch), j, s1.now);
    var s2 := EndsWith(p, s1, 1, Failing);
    s := ReadNow(p, s2, 1);
  }

  lemma ClaimedDone(p: Params, jobs: seq<Job>, after: seq<Job>, rows: set<JobId>, j: JobId, now: real)
    requires SlowRows(p, jobs, CitationsExtracted, rows) && NothingElse(jobs, rows, j)
    requires Reclaimed(jobs, after, rows, now)
    ensures j < |after| && DoneBut(after, j, j)
    ensures forall u :: 0 <= u < |after| ==> after[u].stage.CitationsExtracted? || after[u].status.Succeeded?
  {
    assert AloneFor(jobs, j);
    forall u | 0 <= u < |after| ensures after[u].stage.CitationsExtracted? || after[u].status.Succeeded? {
      assert u in rows ==> SlowRow(p, jobs[u], CitationsExtracted);
    }
    forall u | 0 <= u < |after| && u != j && after[u].paper == after[j].paper ensures after[u].status.Succeeded? {
      assert u in rows ==> SlowRow(p, jobs[u], CitationsExtracted);
    }
  }

  ghost predicate BothAfter(p: Params, s: State, j: JobId) {
    && Tidy(s) && 0 in s.workers && 1 in s.workers && j < |s.jobs|
    && RecordsOutcome(s, 0) && s.workers[0].phase.outcome.Completing? && Current(s, s.workers[0].phase) == j
    && RecordsOutcome(s, 1) && s.workers[1].phase.outcome == FailureRead(0, p.maxAttempts)
    && Current(s, s.workers[1].phase) == j
    && s.jobs[j].stage.CitationsExtracted? && DoneBut(s.jobs, j, j)
    && forall u :: 0 <= u < |s.jobs| ==> s.jobs[u].stage.CitationsExtracted? || s.jobs[u].status.Succeeded?
  }

  // A user retries the row.
  lemma RetryNow(p: Params, s: State, j: JobId) returns (t: State)
    requires Reachable(p, s) && Tidy(s) && j < |s.jobs| && s.jobs[j].status.Failed?
    ensures Reachable(p, t) && Tidy(t) && t == s.(jobs := s.jobs[j := Retried(s.jobs[j], s.now)])
  {
    assert RetryRows(s.jobs, {j}, s.now) == s.jobs[j := Retried(s.jobs[j], s.now)];
    ReachStep(p, s, Retry({j}));
    t := Apply(p, s, Retry({j}));
  }

  // That leaves the row pending, by itself or after a retry.
  lemma ReachPutBack(p: Params) returns (s: State, j: JobId)
    requires p.Valid() && p.batch(CitationsExtracted) >= 1 && p.batch(Ingested) >= 1 && !FitsLease(p, CitationsExtracted)
    ensures Reachable(p, s) && PutBack(s, j)
  {
    var s0;
    s0, j := SecondFails(p);
    s := RecordNow(p, s0, 1);
    if !s.jobs[j].status.Pending? {
      s := RetryNow(p, s, j);
    }
  }

  // A user imports the paper again, and a new worker ingests it: the job that should follow
  // is there already.
  lemma Reimported(p: Params, s: State, j: JobId) returns (t: State)
    requires Reachable(p, s) && PutBack(s, j) && p.batch(Ingested) >= 1
    ensures Reachable(p, t) && PutBack(t, j) && t.papers[t.jobs[j].paper].Ingested?
  {
    var paper, k := s.jobs[j].paper, |s.jobs|;
    ReachStep(p, s, Create(paper, Ingested, 0));
    var s1 := Apply(p, s, Create(paper, Ingested, 0));
    assert !HasPending(s.jobs, paper, Ingested);
    var h := AllBelow(s1.workers.Keys);
    var s2 := OnlyClaim(p, s1, h, Ingested, k);
    t := IngestedAgain(p, s2, h, j, k);
  }

  lemma IngestedAgain(p: Params, s: State, h: WorkerId, j: JobId, k: JobId) returns (t: State)
    requires Reachable(p, s) && Tidy(s) && h in s.workers && h != 0 && j < |s.jobs| && k == |s.jobs| - 1 && j != k
    requires s.workers[h] == Worker(Ingested, Handling([k], 0, s.now, s.now, Begun))
    requires 0 in s.workers && RecordsOutcome(s, 0) && s.workers[0].phase.outcome.Completing?
    requires Current(s, s.workers[0].phase) == j && s.jobs[j].status.Pending? && s.jobs[j].stage.CitationsExtracted?
    requires s.jobs[k].stage.Ingested? && s.jobs[k].paper == s.jobs[j].paper
    requires forall u :: 0 <= u < k && u != j && s.jobs[u].paper == s.jobs[j].paper ==> s.jobs[u].status.Succeeded?
    requires forall u :: 0 <= u < k ==> s.jobs[u].stage.CitationsExtracted? || s.jobs[u].status.Succeeded?
    ensures Reachable(p, t) && PutBack(t, j) && t.papers[t.jobs[j].paper].Ingested?
  {
    var s1 := WriteStageNow(p, s, h);
    assert IsPendingFor(s1.jobs[j], s.jobs[j].paper, CitationsExtracted);
    var s2 := EnqueueNow(p, s1, h);
    t := CompleteNow(p, s2, h);
  }

  lemma LastStage(p: Params) returns (s: State, j: JobId)
    requires p.Valid() && p.batch(CitationsExtracted) >= 1 && p.batch(Ingested) >= 1 && !FitsLease(p, CitationsExtracted)
    ensures Reachable(p, s) && j < |s.jobs| && !Attended(s, s.jobs[j].paper)
  {
    var s0;
    s0, j := ReachPutBack(p);
    var s1 := Reimported(p, s0, j);
    s := RecordNow(p, s1, 0);
    NobodyCarries(s, j);
  }

  // ---------- Exactly when ----------

  // A state is reached in which a paper some job was enqueued for is at no end and has no job
  // that could carry it on.
  lemma PaperIsStranded(p: Params, stage: Stage) returns (s: State, j: JobId)
    requires p.Valid() && JobStage(stage) && !FitsLease(p, stage)
    requires forall any :: JobStage(any) ==> p.batch(any) >= 1
    ensures Reachable(p, s) && j < |s.jobs| && !Attended(s, s.jobs[j].paper)
  {
    if stage.CitationsExtracted? {
      s, j := LastStage(p);
    } else {
      var s0;
      if stage.Resolved? {
        s0, j := FirstStage(p);
      } else {
        s0, j := MiddleStage(p, stage);
      }
      s := Overwrites(p, s0, stage, j);
    }
  }

  // No paper is ever stranded, in any run, if and only if every stage's full batch fits the
  // lease.
  lemma NoneStrandedIffFitsLease(p: Params)
    requires p.Valid() && forall stage :: JobStage(stage) ==> p.batch(stage) >= 1
    ensures Premise(p) <==> AlwaysAttended(p)
  {
    if Premise(p) {
      forall s, j: JobId | Reachable(p, s) && j < |s.jobs| ensures Attended(s, s.jobs[j].paper) {
        NoPaperIsStranded(p, s, j);
      }
    } else {
      var stage :| JobStage(stage) && !FitsLease(p, stage);
      var s, j := PaperIsStranded(p, stage);
    }
  }
}
