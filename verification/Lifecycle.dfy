/** What every job goes through, over all runs. */
module Lifecycle {
  import opened Wrappers
  import opened Stages
  import opened Jobs
  import opened Pipeline
  import opened Ownership
  import opened Lease

  // ---------- Succeeded is absorbing ----------

  lemma SucceededStep(p: Params, s: State, l: Label, j: JobId)
    requires OwnInv(p, s) && Enabled(p, s, l)
    requires j < |s.jobs| && s.jobs[j].status.Succeeded?
    ensures var t := Apply(p, s, l); j < |t.jobs| && t.jobs[j] == s.jobs[j]
  {
    if l.Commit? {
      assert RowLocked(s, l.w, j) ==> LockedRowOk(p, s, l.w, j);
    } else if l.Record? {
      var c := Current(s, s.workers[l.w].phase);
      HoldsCurrent(s, l.w);
      assert HeldRowOk(s, l.w, c);
    }
  }

  // Once a job has succeeded, nothing in the rest of the run changes its row.
  lemma {:induction false} SucceededIsAbsorbing(p: Params, run: seq<Label>, more: seq<Label>, j: JobId)
    requires p.Valid() && Premise(p)
    requires Exec(p, INIT, run).Some? && Exec(p, INIT, run + more).Some?
    requires var s := Exec(p, INIT, run).value; j < |s.jobs| && s.jobs[j].status.Succeeded?
    ensures var s, t := Exec(p, INIT, run).value, Exec(p, INIT, run + more).value;
            j < |t.jobs| && t.jobs[j] == s.jobs[j]
  {
    if more == [] {
      assert run + more == run;
    } else {
      var front, l := more[..|more| - 1], more[|more| - 1];
      assert run + more == (run + front) + [l];
      ExecStep(p, INIT, run + front, l);
      SucceededIsAbsorbing(p, run, front, j);
      PremiseInv(p, run + front);
      SucceededStep(p, Exec(p, INIT, run + front).value, l, j);
    }
  }

  // ---------- Attempts count recorded failures ----------

  // The step stores a failure of job j.
  predicate RecordsFailure(s: State, l: Label, j: JobId) {
    && l.Record? && RecordsOutcome(s, l.w)
    && Current(s, s.workers[l.w].phase) == j
    && s.workers[l.w].phase.outcome.FailureRead?
  }

  // Failures of job j stored in the run since the job was created or last retried.
  ghost function FailuresSince(p: Params, run: seq<Label>, j: JobId): nat {
    if run == [] then 0
    else
      var l := run[|run| - 1];
      var before := FailuresSince(p, run[..|run| - 1], j);
      match Exec(p, INIT, run[..|run| - 1])
      case None => before
      case Some(s) =>
        if j >= |s.jobs| || (l.Retry? && j in l.ids) then 0
        else if RecordsFailure(s, l, j) then before + 1
        else before
  }

  lemma AttemptsStep(p: Params, s: State, l: Label, j: JobId)
    requires OwnInv(p, s) && Enabled(p, s, l)
    requires j < |Apply(p, s, l).jobs|
    ensures Apply(p, s, l).jobs[j].attempts ==
              if j >= |s.jobs| || (l.Retry? && j in l.ids) then 0
              else if RecordsFailure(s, l, j) then s.jobs[j].attempts + 1
              else s.jobs[j].attempts
  {
    if l.Record? {
      assert PhaseOk(p, s, l.w);
    }
  }

  // The attempt counter of every row is the number of failures stored for it.
  lemma {:induction false} AttemptsCountFailures(p: Params, run: seq<Label>, j: JobId)
    requires p.Valid() && Premise(p) && Exec(p, INIT, run).Some?
    requires j < |Exec(p, INIT, run).value.jobs|
    ensures Exec(p, INIT, run).value.jobs[j].attempts == FailuresSince(p, run, j)
  {
    if run == [] {
    } else {
      var front, l := run[..|run| - 1], run[|run| - 1];
      var s := Exec(p, INIT, front).value;
      PremiseInv(p, front);
      AttemptsStep(p, s, l, j);
      if j < |s.jobs| {
        AttemptsCountFailures(p, front, j);
      }
    }
  }

  // What a row's status says about its other columns, in every reachable state.
  lemma LifecycleInvariant(p: Params, s: State, j: JobId)
    requires p.Valid() && Premise(p) && Reachable(p, s) && j < |s.jobs|
    ensures var job := s.jobs[j];
      && (job.status.Pending? || job.status.InProgress? ==> job.attempts < p.maxAttempts)
      && (job.status.Failed? ==> job.attempts == p.maxAttempts)
      && (job.status.Pending? ==> job.lockedBy.None? && job.lockedAt.None?)
      && (job.status.InProgress? ==> job.lockedBy.Some? && job.lockedAt.Some?)
      && (job.completedAt.Some? <==> job.status.Succeeded? || job.status.Failed?)
  {
    var run :| Exec(p, INIT, run) == Some(s);
    PremiseInv(p, run);
    assert RowOk(p, s.jobs[j]);
  }
}
