/** The `acad_jobs` table and the statements that change it. */
module Jobs {
  import opened Wrappers
  import opened Stages

  // Rows are never deleted, so a row's position stands for its id.
  type JobId = nat
  type PaperId = nat
  type WorkerId = nat

  datatype Status = Pending | InProgress | Succeeded | Failed

  datatype Job = Job(
    paper: PaperId,
    stage: Stage,
    status: Status,
    priority: int,
    attempts: nat,
    maxAttempts: nat,
    lockedBy: Option<WorkerId>,
    lockedAt: Option<real>,
    scheduledAfter: real,
    createdAt: real,
    completedAt: Option<real>)

  // ---------- Effect of each statement on one row ----------

  function NewJob(paper: PaperId, stage: Stage, priority: int, maxAttempts: nat, now: real): Job {
    Job(paper, stage, Pending, priority, 0, maxAttempts, None, None, now, now, None)
  }

  function Locked(job: Job, worker: WorkerId, at: real): Job {
    job.(status := InProgress, lockedAt := Some(at), lockedBy := Some(worker))
  }

  function Completed(job: Job, now: real): Job {
    job.(status := Succeeded, completedAt := Some(now))
  }

  function Deferred(job: Job, now: real, delay: real): Job {
    job.(status := Pending, lockedAt := None, lockedBy := None, scheduledAfter := now + delay)
  }

  function Pow2(n: nat): (r: nat)
    ensures r >= 1
  {
    if n == 0 then 1 else 2 * Pow2(n - 1)
  }

  // Exponential backoff; `jitter` is the random number drawn from [0, 1).
  function Backoff(attempts: nat, jitter: real): real {
    Pow2(attempts) as real * (0.5 + jitter)
  }

  // After a attempts the delay lies in [2^a / 2, 3 * 2^a / 2): the jitter halves it at most
  // and never reaches one and a half.
  lemma BackoffWindow(attempts: nat, jitter: real)
    requires 0.0 <= jitter < 1.0
    ensures Pow2(attempts) as real * 0.5 <= Backoff(attempts, jitter) < Pow2(attempts) as real * 1.5
  {
  }

  // Each further attempt doubles it.
  lemma BackoffDoubles(attempts: nat, jitter: real)
    ensures Backoff(0, jitter) == 0.5 + jitter
    ensures Backoff(attempts + 1, jitter) == 2.0 * Backoff(attempts, jitter)
  {
    assert Pow2(attempts + 1) as real == 2.0 * Pow2(attempts) as real;
  }

  // The write of `fail_job`, given what its earlier read of the row returned.
  function FailedOnce(job: Job, seenAttempts: nat, seenMax: nat, now: real, jitter: real): Job {
    var attempts := seenAttempts + 1;
    if attempts >= seenMax then
      job.(status := Failed, attempts := attempts, completedAt := Some(now))
    else
      job.(status := Pending, attempts := attempts, lockedAt := None, lockedBy := None,
           scheduledAfter := now + Backoff(attempts, jitter))
  }

  function Retried(job: Job, now: real): Job {
    job.(status := Pending, attempts := 0, lockedAt := None, lockedBy := None,
         scheduledAfter := now, completedAt := None)
  }

  // ---------- Effect of each statement on the table ----------

  predicate IsPendingFor(job: Job, paper: PaperId, stage: Stage) {
    job.paper == paper && job.stage == stage && job.status.Pending?
  }

  predicate HasPending(jobs: seq<Job>, paper: PaperId, stage: Stage) {
    exists i :: 0 <= i < |jobs| && IsPendingFor(jobs[i], paper, stage)
  }

  function Enqueued(
    jobs: seq<Job>, paper: PaperId, stage: Stage, priority: int, maxAttempts: nat, now: real): seq<Job>
  {
    if HasPending(jobs, paper, stage) then jobs
    else jobs + [NewJob(paper, stage, priority, maxAttempts, now)]
  }

  function ClaimRows(jobs: seq<Job>, rows: seq<JobId>, worker: WorkerId, at: real): seq<Job> {
    seq(|jobs|, i requires 0 <= i < |jobs| => if i in rows then Locked(jobs[i], worker, at) else jobs[i])
  }

  function RetryRows(jobs: seq<Job>, ids: set<JobId>, now: real): seq<Job> {
    seq(|jobs|, i requires 0 <= i < |jobs| => if i in ids then Retried(jobs[i], now) else jobs[i])
  }

  // ---------- Which rows a claim may take ----------

  // A missing lock time compares as unknown, so such a row is not reclaimable.
  predicate Claimable(job: Job, stage: Stage, now: real, lease: real) {
    && job.stage == stage
    && (|| (job.status.Pending? && job.scheduledAfter <= now)
        || (job.status.InProgress? && job.lockedAt.Some? && job.lockedAt.value < now - lease))
  }

  // No claim ever takes the row, whatever its stage, the time and the lease.
  ghost predicate NeverClaimable(job: Job) {
    forall stage, now, lease :: !Claimable(job, stage, now, lease)
  }

  // Claims of the row's stage may take it at every time from `at` on and at no time before.
  ghost predicate ClaimableExactlyFrom(job: Job, at: real) {
    forall now, lease :: Claimable(job, job.stage, now, lease) <==> at <= now
  }

  predicate Unlocked(job: Job) {
    job.status.Pending? && job.lockedBy.None? && job.lockedAt.None?
  }

  // Only the given rows differ, and they keep their paper, stage and priority.
  ghost predicate SameBut(before: seq<Job>, after: seq<Job>, ids: set<JobId>) {
    && |after| == |before|
    && (forall j :: 0 <= j < |before| && j !in ids ==> after[j] == before[j])
    && (forall j :: 0 <= j < |before| ==>
          after[j].paper == before[j].paper && after[j].stage == before[j].stage
          && after[j].priority == before[j].priority && after[j].createdAt == before[j].createdAt)
  }

  // The failed rows of the stage, if one is given, among those that match, if any are given.
  function FailedRows(jobs: seq<Job>, stage: Option<Stage>, matching: Option<set<JobId>>): set<JobId> {
    set j | 0 <= j < |jobs| && jobs[j].status.Failed?
            && (stage.None? || jobs[j].stage == stage.value)
            && (matching.None? || j in matching.value)
  }

  // Every failed row asked for becomes claimable at once with all its attempts; other rows
  // keep what they hold.
  lemma RetriedRows(jobs: seq<Job>, stage: Option<Stage>, matching: Option<set<JobId>>, now: real)
    ensures var ids := FailedRows(jobs, stage, matching);
      var after := RetryRows(jobs, ids, now);
      && SameBut(jobs, after, ids)
      && (forall j :: j in ids ==> Unlocked(after[j]) && after[j].attempts == 0 && ClaimableExactlyFrom(after[j], now))
  {
  }

  // The failed rows become fewer by the rows retried.
  lemma FewerFailed(jobs: seq<Job>, stage: Option<Stage>, matching: Option<set<JobId>>, now: real)
    ensures var ids := FailedRows(jobs, stage, matching);
      var after := RetryRows(jobs, ids, now);
      && FailedRows(after, stage, matching) == {}
      && |ids| == |FailedRows(jobs, None, None)| - |FailedRows(after, None, None)|
  {
    var ids := FailedRows(jobs, stage, matching);
    var after := RetryRows(jobs, ids, now);
    assert FailedRows(jobs, None, None) == ids + FailedRows(after, None, None);
  }

  // Claimable, and not locked by another open claim transaction (SKIP LOCKED).
  predicate Available(jobs: seq<Job>, locked: set<JobId>, stage: Stage, now: real, lease: real, j: JobId) {
    j < |jobs| && j !in locked && Claimable(jobs[j], stage, now, lease)
  }

  // ORDER BY priority DESC, created_at ASC
  predicate Precedes(a: Job, b: Job) {
    a.priority > b.priority || (a.priority == b.priority && a.createdAt < b.createdAt)
  }

  ghost predicate Distinct(rows: seq<JobId>) {
    forall i, k :: 0 <= i < k < |rows| ==> rows[i] != rows[k]
  }

  // What the sub-select of a claim may return.
  ghost predicate IsSelection(
    jobs: seq<Job>, locked: set<JobId>, stage: Stage, now: real, lease: real, limit: nat, rows: seq<JobId>)
  {
    && Distinct(rows)
    && |rows| <= limit
    && (forall j: JobId :: j in rows ==> Available(jobs, locked, stage, now, lease, j))
    && (forall u: JobId, j: JobId :: j in rows && u !in rows && Available(jobs, locked, stage, now, lease, u)
          ==> !Precedes(jobs[u], jobs[j]))
    && (|rows| < limit ==> forall u: JobId :: Available(jobs, locked, stage, now, lease, u) ==> u in rows)
  }

  ghost function AvailableSet(
    jobs: seq<Job>, locked: set<JobId>, stage: Stage, now: real, lease: real): set<JobId>
  {
    set j | 0 <= j < |jobs| && Available(jobs, locked, stage, now, lease, j)
  }

  function Elements(rows: seq<JobId>): set<JobId> {
    set j | j in rows
  }

  lemma {:induction false} DistinctCount(rows: seq<JobId>)
    requires Distinct(rows)
    ensures |Elements(rows)| == |rows|
  {
    if rows == [] {
    } else {
      var last := rows[|rows| - 1];
      var rest := rows[..|rows| - 1];
      DistinctCount(rest);
      assert rows == rest + [last];
      assert Elements(rows) == Elements(rest) + {last};
      assert last !in Elements(rest);
    }
  }

  lemma SubsetCount(a: set<JobId>, b: set<JobId>)
    requires a <= b
    ensures |a| <= |b|
    ensures |a| == |b| ==> a == b
  {
    assert b == a + (b - a);
    assert |b| == |a| + |b - a|;
  }

  // A claim takes exactly as many rows as the limit and the supply allow.
  lemma SelectionSize(
    jobs: seq<Job>, locked: set<JobId>, stage: Stage, now: real, lease: real, limit: nat, rows: seq<JobId>)
    requires IsSelection(jobs, locked, stage, now, lease, limit, rows)
    ensures var supply := |AvailableSet(jobs, locked, stage, now, lease)|;
            |rows| == if supply < limit then supply else limit
  {
    var all := AvailableSet(jobs, locked, stage, now, lease);
    DistinctCount(rows);
    assert Elements(rows) <= all;
    SubsetCount(Elements(rows), all);
    if |rows| < limit {
      assert all <= Elements(rows);
      assert all == Elements(rows);
    }
  }

  // One of the rows that none of the others precedes.
  lemma {:induction false} Foremost(jobs: seq<Job>, todo: set<JobId>) returns (best: JobId)
    requires todo != {} && forall j :: j in todo ==> j < |jobs|
    ensures best in todo && forall u :: u in todo ==> !Precedes(jobs[u], jobs[best])
    decreases |todo|
  {
    var x :| x in todo;
    if todo == {x} {
      best := x;
    } else {
      assert todo - {x} != {};
      var y := Foremost(jobs, todo - {x});
      best := if Precedes(jobs[x], jobs[y]) then x else y;
    }
  }

  // Every claim has something it may return.
  lemma {:induction false} SelectionExists(
    jobs: seq<Job>, locked: set<JobId>, stage: Stage, now: real, lease: real, limit: nat) returns (rows: seq<JobId>)
    ensures IsSelection(jobs, locked, stage, now, lease, limit, rows)
    decreases limit
  {
    if limit == 0 {
      rows := [];
    } else {
      rows := SelectionExists(jobs, locked, stage, now, lease, limit - 1);
      var left := AvailableSet(jobs, locked, stage, now, lease) - Elements(rows);
      if left != {} {
        var best := Foremost(jobs, left);
        assert |rows| < limit - 1 ==> best in rows;
        rows := OneMoreSelected(jobs, locked, stage, now, lease, limit - 1, rows, best);
      } else {
        forall u: JobId | Available(jobs, locked, stage, now, lease, u) ensures u in rows {
          assert u in AvailableSet(jobs, locked, stage, now, lease);
          assert u !in Elements(rows) <==> u in left;
        }
      }
    }
  }

  lemma OneMoreSelected(
    jobs: seq<Job>, locked: set<JobId>, stage: Stage, now: real, lease: real, n: nat, rows: seq<JobId>, best: JobId)
    returns (more: seq<JobId>)
    requires IsSelection(jobs, locked, stage, now, lease, n, rows) && |rows| == n
    requires best !in rows && Available(jobs, locked, stage, now, lease, best)
    requires forall u: JobId :: u !in rows && Available(jobs, locked, stage, now, lease, u) ==>
      !Precedes(jobs[u], jobs[best])
    ensures IsSelection(jobs, locked, stage, now, lease, n + 1, more)
  {
    more := rows + [best];
    assert forall j :: j in more <==> j in rows || j == best;
  }

  // ---------- The table as an object ----------

  class JobTable {
    var jobs: seq<Job>
    const maxAttempts: nat

    constructor (maxAttempts: nat)
      ensures jobs == [] && this.maxAttempts == maxAttempts
    {
      this.maxAttempts := maxAttempts;
      jobs := [];
    }

    // The advisory lock makes the lookup and the insert one step. A new row has all its
    // attempts, and claims may take it at once.
    method CreateJob(paper: PaperId, stage: Stage, priority: int, now: real) returns (id: JobId)
      modifies this`jobs
      ensures jobs == Enqueued(old(jobs), paper, stage, priority, maxAttempts, now)
      ensures id < |jobs| && jobs[id].paper == paper && jobs[id].stage == stage && jobs[id].status == Pending
      ensures id < |old(jobs)| ==> jobs == old(jobs)
      ensures id >= |old(jobs)| ==>
        && jobs == old(jobs) + [jobs[id]] && Unlocked(jobs[id]) && ClaimableExactlyFrom(jobs[id], now)
        && jobs[id].priority == priority && jobs[id].attempts == 0 && jobs[id].maxAttempts == maxAttempts
        && jobs[id].createdAt == now
        && (forall j :: 0 <= j < |old(jobs)| ==>
              !(old(jobs)[j].paper == paper && old(jobs)[j].stage == stage && old(jobs)[j].status == Pending))
    {
      for i := 0 to |jobs|
        invariant forall k :: 0 <= k < i ==> !IsPendingFor(jobs[k], paper, stage)
        invariant jobs == old(jobs)
      {
        if IsPendingFor(jobs[i], paper, stage) {
          return i;
        }
      }
      id := |jobs|;
      jobs := jobs + [NewJob(paper, stage, priority, maxAttempts, now)];
    }

    // `locked` holds the rows other open claim transactions have locked. What a claim takes,
    // column by column: unlocked rows of its stage that are pending and due, or in progress
    // under a lock older than the lease, all of them while there is room; none before one of
    // higher priority, or of the same and older. Only status and lock of these rows change.
    method ClaimJobs(stage: Stage, limit: nat, worker: WorkerId, lease: real, now: real, locked: set<JobId>)
      returns (rows: seq<JobId>)
      modifies this`jobs
      ensures IsSelection(old(jobs), locked, stage, now, lease, limit, rows)
      ensures jobs == ClaimRows(old(jobs), rows, worker, now)
      ensures forall j: JobId :: j in rows ==> j < |old(jobs)| && j !in locked && old(jobs)[j].stage == stage
      ensures forall j: JobId :: j < |old(jobs)| && j in rows ==>
        var job := old(jobs)[j];
        || (job.status == Pending && job.scheduledAfter <= now)
        || (job.status == InProgress && job.lockedAt.Some? && job.lockedAt.value < now - lease)
      ensures |rows| < limit ==> forall j: JobId ::
        j < |old(jobs)| && j !in locked && j !in rows && old(jobs)[j].stage == stage ==>
          var job := old(jobs)[j];
          && (job.status == Pending ==> job.scheduledAfter > now)
          && (job.status == InProgress && job.lockedAt.Some? ==> job.lockedAt.value >= now - lease)
      ensures forall u: JobId, j: JobId ::
        u < |old(jobs)| && j < |old(jobs)| && j in rows && u !in rows && u !in locked && old(jobs)[u].stage == stage ==>
          var left, taken := old(jobs)[u], old(jobs)[j];
          (|| (left.status == Pending && left.scheduledAfter <= now)
           || (left.status == InProgress && left.lockedAt.Some? && left.lockedAt.value < now - lease)) ==>
            || left.priority < taken.priority
            || (left.priority == taken.priority && taken.createdAt <= left.createdAt)
      ensures |jobs| == |old(jobs)| && forall j :: 0 <= j < |jobs| ==>
        jobs[j] == if j in rows
                   then old(jobs)[j].(status := InProgress, lockedAt := Some(now), lockedBy := Some(worker))
                   else old(jobs)[j]
    {
      rows := [];
      var more := true;
      while more && |rows| < limit
        invariant jobs == old(jobs)
        invariant |rows| <= limit && Distinct(rows)
        invariant forall j: JobId :: j in rows ==> Available(jobs, locked, stage, now, lease, j)
        invariant forall u: JobId, j: JobId :: j in rows && u !in rows && Available(jobs, locked, stage, now, lease, u)
                    ==> !Precedes(jobs[u], jobs[j])
        invariant !more ==> forall u: JobId :: Available(jobs, locked, stage, now, lease, u) ==> u in rows
        decreases limit - |rows|, more
      {
        var best := First(stage, lease, now, locked, rows);
        if best.Some? {
          rows := rows + [best.value];
        } else {
          more := false;
        }
      }
      jobs := ClaimRows(jobs, rows, worker, now);
    }

    // An available row not yet taken that no other such row precedes.
    method First(stage: Stage, lease: real, now: real, locked: set<JobId>, taken: seq<JobId>)
      returns (best: Option<JobId>)
      ensures best.Some? ==>
        && best.value !in taken && Available(jobs, locked, stage, now, lease, best.value)
        && forall u: JobId :: u !in taken && Available(jobs, locked, stage, now, lease, u)
             ==> !Precedes(jobs[u], jobs[best.value])
      ensures best.None? ==> forall u: JobId :: Available(jobs, locked, stage, now, lease, u) ==> u in taken
    {
      best := None;
      for i := 0 to |jobs|
        invariant best.Some? ==> best.value < i && best.value !in taken
        invariant best.Some? ==> Available(jobs, locked, stage, now, lease, best.value)
        invariant best.Some? ==>
          forall u: JobId :: u < i && u !in taken && Available(jobs, locked, stage, now, lease, u)
            ==> !Precedes(jobs[u], jobs[best.value])
        invariant best.None? ==> forall u: JobId :: u < i && Available(jobs, locked, stage, now, lease, u) ==> u in taken
      {
        if i !in taken && Available(jobs, locked, stage, now, lease, i) {
          if best.None? || Precedes(jobs[i], jobs[best.value]) {
            best := Some(i);
          }
        }
      }
    }

    // Whoever holds the row. No claim, at any time, takes a completed job again.
    method CompleteJob(id: JobId, now: real)
      modifies this`jobs
      ensures jobs == if id < |old(jobs)| then old(jobs)[id := Completed(old(jobs)[id], now)] else old(jobs)
      ensures SameBut(old(jobs), jobs, {id})
      ensures id < |jobs| ==>
        && jobs[id] == old(jobs)[id].(status := Succeeded, completedAt := Some(now)) && NeverClaimable(jobs[id])
    {
      if id < |jobs| {
        jobs := jobs[id := Completed(jobs[id], now)];
      }
    }

    // The read half of `fail_job`: nothing when the row does not exist.
    method ReadAttempts(id: JobId) returns (seen: Option<(nat, nat)>)
      ensures seen == if id < |jobs| then Some((jobs[id].attempts, jobs[id].maxAttempts)) else None
    {
      seen := if id < |jobs| then Some((jobs[id].attempts, jobs[id].maxAttempts)) else None;
    }

    // The write half. Other statements may run between the two: the count stored is the one
    // read plus one, whatever the row holds now. The last attempt is final; after any other
    // the job is claimable from the end of its backoff on, and not before.
    method WriteFailure(id: JobId, seen: (nat, nat), now: real, jitter: real)
      requires id < |jobs|
      modifies this`jobs
      ensures jobs == old(jobs)[id := FailedOnce(old(jobs)[id], seen.0, seen.1, now, jitter)]
      ensures SameBut(old(jobs), jobs, {id})
      ensures jobs[id].attempts == seen.0 + 1
      ensures seen.0 + 1 >= seen.1 ==>
        && jobs[id] == old(jobs)[id].(status := Failed, attempts := seen.0 + 1, completedAt := Some(now))
        && NeverClaimable(jobs[id])
      ensures seen.0 + 1 < seen.1 ==>
        && Unlocked(jobs[id]) && ClaimableExactlyFrom(jobs[id], now + Backoff(seen.0 + 1, jitter))
        && jobs[id].completedAt == old(jobs)[id].completedAt && jobs[id].maxAttempts == old(jobs)[id].maxAttempts
    {
      jobs := jobs[id := FailedOnce(jobs[id], seen.0, seen.1, now, jitter)];
    }

    // The job is claimable from the end of the delay on, and not before; no attempt is spent.
    method DeferJob(id: JobId, delay: real, now: real)
      modifies this`jobs
      ensures jobs == if id < |old(jobs)| then old(jobs)[id := Deferred(old(jobs)[id], now, delay)] else old(jobs)
      ensures SameBut(old(jobs), jobs, {id})
      ensures id < |jobs| ==>
        && Unlocked(jobs[id]) && ClaimableExactlyFrom(jobs[id], now + delay)
        && jobs[id].attempts == old(jobs)[id].attempts && jobs[id].maxAttempts == old(jobs)[id].maxAttempts
        && jobs[id].completedAt == old(jobs)[id].completedAt
    {
      if id < |jobs| {
        jobs := jobs[id := Deferred(jobs[id], now, delay)];
      }
    }

    // `matching` holds the rows whose stored error matches the requested pattern. Every
    // failed row asked for is claimable at once with all its attempts, other rows stay as
    // they are, and the count is by how many the failed rows have become fewer.
    method RetryFailedJobs(stage: Option<Stage>, matching: Option<set<JobId>>, now: real) returns (count: nat)
      modifies this`jobs
      ensures var ids := FailedRows(old(jobs), stage, matching);
        && jobs == RetryRows(old(jobs), ids, now)
        && SameBut(old(jobs), jobs, ids)
        && (forall j :: j in ids ==>
              Unlocked(jobs[j]) && jobs[j].attempts == 0 && ClaimableExactlyFrom(jobs[j], now))
      ensures |jobs| == |old(jobs)| && forall j: JobId :: j < |jobs| ==>
        if old(jobs)[j].status == Failed && (stage.None? || old(jobs)[j].stage == stage.value)
           && (matching.None? || j in matching.value)
        then jobs[j] == old(jobs)[j].(status := Pending, attempts := 0, lockedAt := None, lockedBy := None,
                                      scheduledAfter := now, completedAt := None)
        else jobs[j] == old(jobs)[j]
      ensures FailedRows(jobs, stage, matching) == {}
      ensures count == |FailedRows(old(jobs), None, None)| - |FailedRows(jobs, None, None)|
    {
      var ids := FailedRows(jobs, stage, matching);
      RetriedRows(jobs, stage, matching, now);
      FewerFailed(jobs, stage, matching, now);
      jobs := RetryRows(jobs, ids, now);
      count := |ids|;
    }
  }
}
