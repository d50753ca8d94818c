/** Enqueue de-duplication, for any parameters: no lease premise is needed. */
module Dedup {
  import opened Wrappers
  import opened Stages
  import opened Jobs
  import opened Pipeline
  import opened Witness

  predicate SameWork(a: Job, b: Job) {
    a.paper == b.paper && a.stage == b.stage
  }

  ghost predicate UnclaimedUnique(s: State) {
    forall i, j :: 0 <= i < j < |s.jobs| && i !in s.claimed && j !in s.claimed ==> !SameWork(s.jobs[i], s.jobs[j])
  }

  ghost predicate ClaimedInv(s: State) {
    && (forall j: JobId :: j in s.claimed ==> j < |s.jobs|)
    && (forall j :: 0 <= j < |s.jobs| && j !in s.claimed ==> s.jobs[j].status.Pending?)
    && (forall w: WorkerId, j: JobId :: Holds(s, w, j) ==> j in s.claimed)
    && (forall w: WorkerId, j: JobId :: RowLocked(s, w, j) ==> j < |s.jobs|)
  }

  lemma CurrentClaimed(s: State, w: WorkerId)
    requires ClaimedInv(s) && w in s.workers && AtJob(s, s.workers[w].phase)
    ensures Current(s, s.workers[w].phase) in s.claimed
  {
    var ph := s.workers[w].phase;
    assert HeldRows(ph)[0] == Current(s, ph);
    assert Holds(s, w, Current(s, ph));
  }

  // What a worker holds after recording an outcome it held before.
  lemma AdvanceKeeps(ph: Phase, now: real, j: JobId)
    requires ph.Recording? && ph.at < |ph.batch| && j in HeldRows(Advance(ph, now))
    ensures j in HeldRows(ph)
  {
  }

  lemma HoldsStep(p: Params, s: State, l: Label, w: WorkerId, j: JobId)
    requires ClaimedInv(s) && Enabled(p, s, l) && Holds(Apply(p, s, l), w, j)
    ensures j in Apply(p, s, l).claimed
  {
    if l.Commit? && l.w == w {
      var rows := s.workers[w].phase.rows;
      assert rows[0..] == rows;
    } else {
      assert Holds(s, w, j) by {
        if (l.Record? || l.RecordErrors?) && l.w == w {
          AdvanceKeeps(s.workers[w].phase, s.now, j);
        }
      }
    }
  }

  lemma LockedStep(p: Params, s: State, l: Label, w: WorkerId, j: JobId)
    requires ClaimedInv(s) && Enabled(p, s, l) && RowLocked(Apply(p, s, l), w, j)
    ensures j < |Apply(p, s, l).jobs|
  {
    if l.Select? && l.w == w {
      assert Available(s.jobs, LockedByClaims(s), s.workers[w].stage, s.workers[w].phase.began, p.lease, j);
    } else {
      assert RowLocked(s, w, j);
    }
  }

  // A row no claim has taken is changed by no step.
  lemma UnclaimedRowStep(p: Params, s: State, l: Label, j: JobId)
    requires ClaimedInv(s) && Enabled(p, s, l)
    requires j < |s.jobs| && j !in Apply(p, s, l).claimed
    ensures j !in s.claimed && j < |Apply(p, s, l).jobs| && Apply(p, s, l).jobs[j] == s.jobs[j]
  {
    if l.Record? {
      CurrentClaimed(s, l.w);
    }
  }

  lemma ClaimedStep(p: Params, s: State, l: Label)
    requires ClaimedInv(s) && Enabled(p, s, l)
    ensures ClaimedInv(Apply(p, s, l))
  {
    var t := Apply(p, s, l);
    forall j: JobId | j in t.claimed ensures j < |t.jobs| {
      if j !in s.claimed {
        assert RowLocked(s, l.w, j);
      }
    }
    forall j | 0 <= j < |t.jobs| && j !in t.claimed ensures t.jobs[j].status.Pending? {
      if j < |s.jobs| {
        UnclaimedRowStep(p, s, l, j);
      }
    }
    forall w: WorkerId, j: JobId | Holds(t, w, j) ensures j in t.claimed {
      HoldsStep(p, s, l, w, j);
    }
    forall w: WorkerId, j: JobId | RowLocked(t, w, j) ensures j < |t.jobs| {
      LockedStep(p, s, l, w, j);
    }
  }

  // A row added by the step has no unclaimed row for the same work before it.
  lemma AddedRowIsNew(p: Params, s: State, l: Label, i: JobId)
    requires ClaimedInv(s) && Enabled(p, s, l)
    requires |Apply(p, s, l).jobs| > |s.jobs| && i < |s.jobs| && i !in s.claimed
    ensures |Apply(p, s, l).jobs| == |s.jobs| + 1
    ensures !SameWork(s.jobs[i], Apply(p, s, l).jobs[|s.jobs|])
  {
  }

  lemma UniqueStep(p: Params, s: State, l: Label)
    requires ClaimedInv(s) && UnclaimedUnique(s) && Enabled(p, s, l)
    ensures UnclaimedUnique(Apply(p, s, l))
  {
    var t := Apply(p, s, l);
    forall i, j | 0 <= i < j < |t.jobs| && i !in t.claimed && j !in t.claimed
      ensures !SameWork(t.jobs[i], t.jobs[j])
    {
      if j < |s.jobs| {
        UnclaimedRowStep(p, s, l, i);
        UnclaimedRowStep(p, s, l, j);
      } else {
        if i < |s.jobs| {
          UnclaimedRowStep(p, s, l, i);
          AddedRowIsNew(p, s, l, i);
        }
      }
    }
  }

  // However creators, workers and retries interleave, at most one job that was never
  // claimed exists for a paper and a stage.
  lemma {:induction false} AtMostOneUnclaimed(p: Params, run: seq<Label>)
    requires Exec(p, INIT, run).Some?
    ensures ClaimedInv(Exec(p, INIT, run).value) && UnclaimedUnique(Exec(p, INIT, run).value)
    ensures var s := Exec(p, INIT, run).value;
      forall i, j :: 0 <= i < |s.jobs| && 0 <= j < |s.jobs| && i !in s.claimed && j !in s.claimed ==>
        s.jobs[i].paper == s.jobs[j].paper && s.jobs[i].stage == s.jobs[j].stage ==> i == j
  {
    if run == [] {
    } else {
      var front, l := run[..|run| - 1], run[|run| - 1];
      AtMostOneUnclaimed(p, front);
      ClaimedStep(p, Exec(p, INIT, front).value, l);
      UniqueStep(p, Exec(p, INIT, front).value, l);
    }
  }

  // ---------- One pending job ----------

  ghost predicate OnePending(s: State) {
    forall i, j :: 0 <= i < j < |s.jobs| && s.jobs[i].status.Pending? && s.jobs[j].status.Pending?
      ==> !SameWork(s.jobs[i], s.jobs[j])
  }

  // The step may put a claimed row back to pending.
  predicate Requeues(s: State, l: Label) {
    || (l.Retry? && l.ids != {})
    || (l.Record? && RecordsOutcome(s, l.w)
        && var o := s.workers[l.w].phase.outcome;
           o.Deferring? || (o.FailureRead? && o.attempts + 1 < o.max))
  }

  // The rows it puts back.
  ghost function PutBack(s: State, l: Label): set<JobId> {
    if l.Retry? then l.ids
    else if l.Record? && Requeues(s, l) then {Current(s, s.workers[l.w].phase)}
    else {}
  }

  // Some row put back has its work pending already, or put back twice at once.
  ghost predicate Collides(s: State, l: Label) {
    exists i, j :: 0 <= i < |s.jobs| && 0 <= j < |s.jobs| && CollidesAt(s, l, i, j)
  }

  ghost predicate CollidesAt(s: State, l: Label, i: JobId, j: JobId)
    requires i < |s.jobs| && j < |s.jobs|
  {
    && i in PutBack(s, l) && i != j && SameWork(s.jobs[i], s.jobs[j])
    && (s.jobs[j].status.Pending? || j in PutBack(s, l))
  }

  // What is pending after the step.
  lemma PendingAfter(p: Params, s: State, l: Label, i: JobId)
    requires Enabled(p, s, l) && i < |s.jobs|
    ensures var t := Apply(p, s, l);
      && i < |t.jobs| && SameWork(s.jobs[i], t.jobs[i])
      && (i in PutBack(s, l) ==> t.jobs[i].status.Pending?)
      && (t.jobs[i].status.Pending? ==> s.jobs[i].status.Pending? || i in PutBack(s, l))
      && (PutBack(s, l) != {} && s.jobs[i].status.Pending? ==> t.jobs[i].status.Pending?)
  {
  }

  lemma AddedIsAlone(p: Params, s: State, l: Label, i: JobId, j: JobId)
    requires Enabled(p, s, l) && i < |s.jobs| <= j < |Apply(p, s, l).jobs|
    ensures var t := Apply(p, s, l);
      && |t.jobs| == |s.jobs| + 1 && i < |t.jobs|
      && (t.jobs[i].status.Pending? ==> !SameWork(t.jobs[i], t.jobs[j]))
  {
    var job := Apply(p, s, l).jobs[j];
    assert !HasPending(s.jobs, job.paper, job.stage);
    assert s.jobs[i].status.Pending? ==> !IsPendingFor(s.jobs[i], job.paper, job.stage);
  }

  // A step keeps one pending job for each work if and only if nothing it puts back collides.
  lemma StepKeepsOnePendingIff(p: Params, s: State, l: Label)
    requires OnePending(s) && Enabled(p, s, l)
    ensures OnePending(Apply(p, s, l)) <==> !Collides(s, l)
  {
    var t := Apply(p, s, l);
    if !Collides(s, l) {
      forall i, j | 0 <= i < j < |t.jobs| && t.jobs[i].status.Pending? && t.jobs[j].status.Pending?
        ensures !SameWork(t.jobs[i], t.jobs[j])
      {
        if j < |s.jobs| {
          PendingAfter(p, s, l, i);
          PendingAfter(p, s, l, j);
          assert !CollidesAt(s, l, i, j) && !CollidesAt(s, l, j, i);
        } else if i < |s.jobs| {
          AddedIsAlone(p, s, l, i, j);
        }
      }
    } else {
      var i, j :| 0 <= i < |s.jobs| && 0 <= j < |s.jobs| && CollidesAt(s, l, i, j);
      PendingAfter(p, s, l, i);
      PendingAfter(p, s, l, j);
    }
  }

  // One pending job for each work, all along the run.
  ghost predicate OnePendingAlong(p: Params, run: seq<Label>) {
    && (Exec(p, INIT, run).Some? ==> OnePending(Exec(p, INIT, run).value))
    && (run != [] ==> OnePendingAlong(p, run[..|run| - 1]))
  }

  ghost predicate NeverCollides(p: Params, run: seq<Label>) {
    run == [] || (
      var s := Exec(p, INIT, run[..|run| - 1]);
      NeverCollides(p, run[..|run| - 1]) && (s.Some? ==> !Collides(s.value, run[|run| - 1])))
  }

  // Any run has one pending job for each work all along if and only if none of its deferrals,
  // failures and retries puts back a job whose work is pending, or two of one work at once.
  lemma {:induction false} OnePendingIffNoCollision(p: Params, run: seq<Label>)
    requires Exec(p, INIT, run).Some?
    ensures OnePendingAlong(p, run) <==> NeverCollides(p, run)
  {
    if run == [] {
    } else {
      var front := run[..|run| - 1];
      var s := Exec(p, INIT, front).value;
      OnePendingIffNoCollision(p, front);
      if NeverCollides(p, front) {
        assert OnePending(s);
        StepKeepsOnePendingIff(p, s, run[|run| - 1]);
      }
    }
  }

  ghost predicate NeverRequeues(p: Params, run: seq<Label>) {
    run == [] || (
      var s := Exec(p, INIT, run[..|run| - 1]);
      NeverRequeues(p, run[..|run| - 1]) && (s.Some? ==> !Requeues(s.value, run[|run| - 1])))
  }

  lemma {:induction false} NoRequeueNoCollision(p: Params, run: seq<Label>)
    requires NeverRequeues(p, run)
    ensures NeverCollides(p, run)
  {
    if run != [] {
      NoRequeueNoCollision(p, run[..|run| - 1]);
    }
  }

  // In a run that never puts a claimed job back, at most one pending job exists per work.
  lemma OnePendingWithoutRequeues(p: Params, run: seq<Label>)
    requires Exec(p, INIT, run).Some? && NeverRequeues(p, run)
    ensures OnePending(Exec(p, INIT, run).value)
    ensures var s := Exec(p, INIT, run).value;
      forall i, j :: 0 <= i < |s.jobs| && 0 <= j < |s.jobs| && s.jobs[i].status == s.jobs[j].status == Pending ==>
        s.jobs[i].paper == s.jobs[j].paper && s.jobs[i].stage == s.jobs[j].stage ==> i == j
  {
    NoRequeueNoCollision(p, run);
    OnePendingIffNoCollision(p, run);
  }

  // A worker runs its handler on the one job there is, and its work is enqueued again.
  lemma RunsAndAgain(p: Params, stage: Stage) returns (s: State)
    requires p.Valid() && (stage.Resolved? || stage.Ingested?) && p.batch(stage) >= 1
    ensures Reachable(p, s) && Tidy(s) && 0 in s.workers
    ensures s.workers[0] == Worker(stage, Handling([0], 0, 0.0, 0.0, Begun))
    ensures s.jobs == [Locked(NewJob(0, stage, 0, p.maxAttempts, 0.0), 0, 0.0), NewJob(0, stage, 0, p.maxAttempts, 0.0)]
  {
    ReachInit(p);
    var queued := CreateNow(p, INIT, stage);
    var claimed := OnlyClaim(p, queued, 0, stage, 0);
    assert !HasPending(claimed.jobs, 0, stage);
    ReachStep(p, claimed, Create(0, stage, 0));
    s := Apply(p, claimed, Create(0, stage, 0));
  }

  // The handler fails, and `fail_job` has read the row.
  lemma EnqueuedAgain(p: Params, stage: Stage) returns (s: State)
    requires p.Valid() && (stage.Resolved? || stage.Ingested?) && p.batch(stage) >= 1
    ensures Reachable(p, s) && Tidy(s) && 0 in s.workers && RecordsOutcome(s, 0)
    ensures Current(s, s.workers[0].phase) == 0 && s.workers[0].phase.outcome == FailureRead(0, p.maxAttempts)
    ensures |s.jobs| == 2 && SameWork(s.jobs[0], s.jobs[1]) && s.jobs[0].status.InProgress? && s.jobs[1].status.Pending?
  {
    var again := RunsAndAgain(p, stage);
    var failed := EndsWith(p, again, 0, Failing);
    s := ReadNow(p, failed, 0);
  }

  // A failed job put back while its work was enqueued again, by `fail_job` itself if it has
  // attempts left and otherwise by a retry, coexists with the new pending job.
  lemma RequeueBreaksOnePending(p: Params, stage: Stage) returns (s: State, l: Label)
    requires p.Valid() && (stage.Resolved? || stage.Ingested?) && p.batch(stage) >= 1
    ensures Reachable(p, s) && OnePending(s) && Enabled(p, s, l)
    ensures Requeues(s, l) && (l.Record? <==> p.maxAttempts >= 2) && !OnePending(Apply(p, s, l))
  {
    s := EnqueuedAgain(p, stage);
    if p.maxAttempts >= 2 {
      l := Record(0, 0.0);
      NoLocks(s);
    } else {
      s := RecordNow(p, s, 0);
      l := Retry({0});
    }
    var t := Apply(p, s, l);
    assert t.jobs[0].status.Pending? && t.jobs[1].status.Pending? && SameWork(t.jobs[0], t.jobs[1]);
  }
}
