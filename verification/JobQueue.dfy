/** One worker's loop: claim a batch, run each handler, record each outcome. */
module JobQueue {
  import opened Wrappers
  import opened Stages
  import opened Jobs

  const MAX_CLAIM_BACKOFF := 60.0

  // How a handler ended, as `_run_handler` reports it.
  datatype Ended =
    | Returned
    | CircuitOpen(retryAfter: real)
    | DeadlineExceeded
    | TimedOutItself
    | Raised

  // Which statements of the outcome the database accepts. A refused one changes nothing.
  datatype Accepts = Accepts(complete: bool, read: bool, write: bool, deferral: bool)

  // One job's run: its handler's end, the database's mood, the clock, the backoff jitter.
  datatype Turn = Turn(ended: Ended, accepts: Accepts, now: real, jitter: real)

  // ---------- What one job's run leaves behind ----------

  // The row, given what it was when the outcome is recorded.
  function FailStored(job: Job, t: Turn): Job {
    if t.accepts.read && t.accepts.write then FailedOnce(job, job.attempts, job.maxAttempts, t.now, t.jitter)
    else job
  }

  function Stored(job: Job, t: Turn): Job {
    match t.ended
    case CircuitOpen(retryAfter) =>
      if t.accepts.deferral then Deferred(job, t.now, retryAfter + 5.0) else job
    case Returned => if t.accepts.complete then Completed(job, t.now) else FailStored(job, t)
    case _ => FailStored(job, t)
  }

  // The table after a whole batch has been processed in order.
  function BatchStored(jobs: seq<Job>, batch: seq<JobId>, turns: seq<Turn>): (after: seq<Job>)
    requires |batch| == |turns|
    requires forall i :: 0 <= i < |batch| ==> batch[i] < |jobs|
    ensures |after| == |jobs|
  {
    if batch == [] then jobs
    else
      var n := |batch| - 1;
      var before := BatchStored(jobs, batch[..n], turns[..n]);
      before[batch[n] := Stored(before[batch[n]], turns[n])]
  }

  // How many of the turns end with the job completed.
  function CompletedIn(turns: seq<Turn>): nat {
    if turns == [] then 0
    else
      var last := turns[|turns| - 1];
      CompletedIn(turns[..|turns| - 1]) + if last.ended.Returned? && last.accepts.complete then 1 else 0
  }

  // Each of them once.
  lemma {:induction false} CompletedInCounts(turns: seq<Turn>)
    ensures CompletedIn(turns)
         == |set i | 0 <= i < |turns| && turns[i].ended == Returned && turns[i].accepts.complete|
  {
    var done := set i | 0 <= i < |turns| && turns[i].ended == Returned && turns[i].accepts.complete;
    if turns != [] {
      var n := |turns| - 1;
      CompletedInCounts(turns[..n]);
      var before := set i | 0 <= i < n && turns[..n][i].ended == Returned && turns[..n][i].accepts.complete;
      assert done == before + if turns[n].ended == Returned && turns[n].accepts.complete then {n} else {};
    }
  }

  // Rows outside the batch are left alone.
  lemma {:induction false} OthersUntouched(jobs: seq<Job>, batch: seq<JobId>, turns: seq<Turn>, j: JobId)
    requires |batch| == |turns| && forall i :: 0 <= i < |batch| ==> batch[i] < |jobs|
    requires j < |jobs| && j !in batch
    ensures BatchStored(jobs, batch, turns)[j] == jobs[j]
  {
    if batch != [] {
      var n := |batch| - 1;
      assert j !in batch[..n] && j != batch[n];
      OthersUntouched(jobs, batch[..n], turns[..n], j);
    }
  }

  // In a batch of distinct jobs each row gets its own job's outcome, whatever became of the
  // others.
  lemma {:induction false} EachJobItsOwnOutcome(jobs: seq<Job>, batch: seq<JobId>, turns: seq<Turn>, i: nat)
    requires |batch| == |turns| && Distinct(batch) && i < |batch|
    requires forall k :: 0 <= k < |batch| ==> batch[k] < |jobs|
    ensures BatchStored(jobs, batch, turns)[batch[i]] == Stored(jobs[batch[i]], turns[i])
  {
    var n := |batch| - 1;
    if i == n {
      assert batch[n] !in batch[..n];
      OthersUntouched(jobs, batch[..n], turns[..n], batch[n]);
    } else {
      assert batch[..n][i] == batch[i] != batch[n];
      EachJobItsOwnOutcome(jobs, batch[..n], turns[..n], i);
    }
  }

  // The database accepts the statements the outcome needs. When completion is refused the
  // job is failed instead.
  predicate Recorded(t: Turn) {
    match t.ended
    case CircuitOpen(_) => t.accepts.deferral
    case Returned => t.accepts.complete || (t.accepts.read && t.accepts.write)
    case _ => t.accepts.read && t.accepts.write
  }

  // An outcome that was recorded puts the row out of the worker's hands; one that was not
  // leaves it in progress for the lease to bring back. A deferral costs no attempt and lasts
  // five seconds beyond the hint; a failure costs one, is final if it was the last, and
  // otherwise lasts as long as its backoff.
  lemma RecordedOrLeftForTheLease(job: Job, t: Turn)
    requires job.status.InProgress? && job.attempts < job.maxAttempts
    ensures Recorded(t) <==> !Stored(job, t).status.InProgress?
    ensures !Recorded(t) ==> Stored(job, t) == job
    ensures Stored(job, t).status.Succeeded? <==> t.ended.Returned? && t.accepts.complete
    ensures Recorded(t) && t.ended.CircuitOpen? ==>
      && Unlocked(Stored(job, t)) && Stored(job, t).attempts == job.attempts
      && ClaimableExactlyFrom(Stored(job, t), t.now + t.ended.retryAfter + 5.0)
    ensures Recorded(t) && !t.ended.CircuitOpen? && !(t.ended.Returned? && t.accepts.complete) ==>
      && Stored(job, t).attempts == job.attempts + 1
      && (if job.attempts + 1 == job.maxAttempts then Stored(job, t).status.Failed? && NeverClaimable(Stored(job, t))
          else Unlocked(Stored(job, t))
               && ClaimableExactlyFrom(Stored(job, t), t.now + Backoff(job.attempts + 1, t.jitter)))
  {
  }

  // ---------- Claim backoff ----------

  function Min(a: real, b: real): real {
    if a <= b then a else b
  }

  function ClaimDelay(poll: real, failures: nat): real {
    Min(Uncapped(poll, failures), MAX_CLAIM_BACKOFF)
  }

  // The delay without its cap.
  function Uncapped(poll: real, failures: nat): real {
    poll * Pow2(failures) as real
  }

  lemma UncappedDoubles(poll: real, failures: nat)
    requires poll > 0.0
    ensures Uncapped(poll, 0) == poll && Uncapped(poll, failures) > 0.0
    ensures Uncapped(poll, failures + 1) == 2.0 * Uncapped(poll, failures)
  {
    var d := Pow2(failures) as real;
    assert Pow2(failures + 1) as real == 2.0 * d;
    assert poll * (2.0 * d) == 2.0 * (poll * d);
    assert Pow2(0) as real == 1.0;
  }

  // The delay doubles with each failed claim up to 60 seconds, and stays there.
  lemma ClaimDelayGrowsToItsCap(poll: real, failures: nat)
    requires poll > 0.0
    ensures 0.0 < ClaimDelay(poll, failures) <= ClaimDelay(poll, failures + 1) <= 60.0
    ensures ClaimDelay(poll, 0) == if poll <= 60.0 then poll else 60.0
    ensures ClaimDelay(poll, failures + 1)
         == if 2.0 * ClaimDelay(poll, failures) <= 60.0 then 2.0 * ClaimDelay(poll, failures) else 60.0
  {
    UncappedDoubles(poll, failures);
  }

  // ---------- The worker ----------

  datatype Round =
    | ClaimRaises
    | ClaimSucceeds(now: real, locked: set<JobId>, turns: seq<Turn>)   // one turn per claimed job, at most

  class Queue {
    const stage: Stage
    const batchSize: nat
    const pollInterval: real
    const lease: real
    const worker: WorkerId
    var lastClaimFailed: bool
    var claimFailures: nat
    var processed: nat

    constructor (stage: Stage, batchSize: nat, pollInterval: real, lease: real, worker: WorkerId)
      ensures this.stage == stage && this.batchSize == batchSize && this.pollInterval == pollInterval
      ensures this.lease == lease && this.worker == worker
      ensures !lastClaimFailed && claimFailures == processed == 0
    {
      this.stage, this.batchSize, this.pollInterval := stage, batchSize, pollInterval;
      this.lease, this.worker := lease, worker;
      lastClaimFailed, claimFailures, processed := false, 0, 0;
    }

    // `fail_job`, either statement of which may be refused.
    method Fail(table: JobTable, id: JobId, t: Turn) returns (recorded: bool)
      requires id < |table.jobs|
      modifies table`jobs
      ensures table.jobs == old(table.jobs)[id := FailStored(old(table.jobs)[id], t)]
      ensures recorded == (t.accepts.read && t.accepts.write)
    {
      if !t.accepts.read {
        return false;
      }
      var seen := table.ReadAttempts(id);
      if !t.accepts.write {
        return false;
      }
      table.WriteFailure(id, seen.value, t.now, t.jitter);
      recorded := true;
    }

    // Records the outcome of one handler. The error result is the exception that escapes
    // when the outcome could not be stored.
    method ProcessJob(table: JobTable, id: JobId, t: Turn) returns (completed: Result<bool, ()>)
      requires id < |table.jobs|
      modifies table`jobs
      ensures table.jobs == old(table.jobs)[id := Stored(old(table.jobs)[id], t)]
      ensures completed == Ok(true) <==> t.ended.Returned? && t.accepts.complete
      ensures completed.Err? ==> table.jobs == old(table.jobs)
    {
      match t.ended
      case CircuitOpen(retryAfter) =>
        if !t.accepts.deferral {
          return Err(());
        }
        table.DeferJob(id, retryAfter + 5.0, t.now);
        return Ok(false);
      case Returned =>
        if t.accepts.complete {
          table.CompleteJob(id, t.now);
          return Ok(true);
        }
        var recorded := Fail(table, id, t);
        return if recorded then Ok(false) else Err(());
      case _ =>
        var recorded := Fail(table, id, t);
        return if recorded then Ok(false) else Err(());
    }

    // The inner loop of `run`: a job whose outcome could not be stored does not stop the rest.
    method ProcessBatch(table: JobTable, batch: seq<JobId>, turns: seq<Turn>)
      requires |batch| == |turns| && forall i :: 0 <= i < |batch| ==> batch[i] < |table.jobs|
      modifies table`jobs, this`processed
      ensures table.jobs == BatchStored(old(table.jobs), batch, turns)
      ensures processed == old(processed) + CompletedIn(turns)
    {
      assert batch[..0] == [] && turns[..0] == [];
      for i := 0 to |batch|
        invariant table.jobs == BatchStored(old(table.jobs), batch[..i], turns[..i])
        invariant |table.jobs| == |old(table.jobs)|
        invariant processed == old(processed) + CompletedIn(turns[..i])
      {
        assert batch[..i + 1][..i] == batch[..i] && turns[..i + 1][..i] == turns[..i];
        var completed := ProcessJob(table, batch[i], turns[i]);
        if completed == Ok(true) {
          processed := processed + 1;
        }
      }
      assert batch[..|batch|] == batch && turns[..|turns|] == turns;
    }

    // One turn of the outer loop; the result is how long the worker sleeps afterwards. A
    // claim that raises leaves the table alone and lengthens the sleep; an empty claim
    // sleeps for the poll interval; after a batch the worker claims again at once.
    method RunOnce(table: JobTable, round: Round) returns (sleep: real, batch: seq<JobId>)
      modifies this, table`jobs
      ensures round.ClaimRaises? ==>
        && table.jobs == old(table.jobs) && batch == []
        && lastClaimFailed && claimFailures == old(claimFailures) + 1
        && sleep == ClaimDelay(pollInterval, claimFailures) && processed == old(processed)
      ensures round.ClaimSucceeds? ==>
        && !lastClaimFailed && claimFailures == 0
        && IsSelection(old(table.jobs), round.locked, stage, round.now, lease, batchSize, batch)
        && var n := if |batch| <= |round.turns| then |batch| else |round.turns|;
           var claimed := ClaimRows(old(table.jobs), batch, worker, round.now);
           && (forall i :: 0 <= i < n ==> batch[..n][i] < |claimed|)
           && table.jobs == BatchStored(claimed, batch[..n], round.turns[..n])
           && processed == (if batch == [] then 0 else old(processed) + CompletedIn(round.turns[..n]))
      ensures round.ClaimSucceeds? && batch == [] ==> sleep == pollInterval
      ensures round.ClaimSucceeds? && batch != [] ==> sleep == 0.0
    {
      batch := [];
      match round
      case ClaimRaises =>
        claimFailures := claimFailures + 1;
        lastClaimFailed := true;
        sleep := ClaimDelay(pollInterval, claimFailures);
      case ClaimSucceeds(now, locked, turns) =>
        batch := table.ClaimJobs(stage, batchSize, worker, lease, now, locked);
        claimFailures := 0;
        lastClaimFailed := false;
        // The process may end before the batch does: the turns taken are those there are.
        var n := if |batch| <= |turns| then |batch| else |turns|;
        forall i | 0 <= i < n ensures batch[..n][i] < |table.jobs| {
          assert batch[i] in batch;
        }
        if batch == [] {
          processed := 0;
          sleep := pollInterval;
        } else {
          sleep := 0.0;
        }
        ProcessBatch(table, batch[..n], turns[..n]);
    }
  }
}
