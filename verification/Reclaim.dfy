/**
 * What a crash leaves behind is taken up again: a row nobody holds stays as it is until a
 * claim of its stage takes it, and the first such claim with room that begins more than the
 * lease after the row was locked does.
 */
module Reclaim {
  import opened Wrappers
  import opened Stages
  import opened Jobs
  import opened Pipeline
  import opened Ownership
  import opened Lease

  // In progress under a lock of the given time, with no worker running it, having it in its
  // batch, or about to.
  ghost predicate Lost(s: State, j: JobId, at: real) {
    && j < |s.jobs| && s.jobs[j].status == InProgress && s.jobs[j].lockedAt == Some(at)
    && (forall w :: !Holds(s, w, j) && !RowLocked(s, w, j))
  }

  // Every row a worker holds is lost when it crashes.
  lemma CrashLoses(p: Params, s: State, w: WorkerId, j: JobId)
    requires OwnInv(p, s) && Enabled(p, s, Crash(w)) && Holds(s, w, j)
    ensures Lost(Apply(p, s, Crash(w)), j, s.workers[w].phase.lockedAt)
  {
    var t := Apply(p, s, Crash(w));
    assert HeldRowOk(s, w, j);
    OwnExclusive(p, s);
    forall v ensures !Holds(t, v, j) && !RowLocked(t, v, j) {
      assert Holds(t, v, j) ==> Holds(s, v, j) && v != w;
      assert RowLocked(t, v, j) ==> RowLocked(s, v, j);
    }
  }

  // The step is a claim's selection of the row.
  predicate Takes(l: Label, j: JobId) {
    l.Select? && j in l.rows
  }

  // Who holds or has selected a row after a step did so before, or has just selected it.
  lemma HeldBefore(p: Params, s: State, l: Label, w: WorkerId, j: JobId)
    requires Enabled(p, s, l) && !Takes(l, j)
    ensures Holds(Apply(p, s, l), w, j) || RowLocked(Apply(p, s, l), w, j) ==> Holds(s, w, j) || RowLocked(s, w, j)
  {
  }

  // Nothing else touches it.
  lemma LostStays(p: Params, s: State, l: Label, j: JobId, at: real)
    requires Lost(s, j, at) && Enabled(p, s, l) && !Takes(l, j)
    ensures Lost(Apply(p, s, l), j, at) && Apply(p, s, l).jobs[j] == s.jobs[j]
  {
    var t := Apply(p, s, l);
    forall w ensures !Holds(t, w, j) && !RowLocked(t, w, j) {
      HeldBefore(p, s, l, w, j);
    }
    if l.Commit? {
      assert !RowLocked(s, l.w, j);
    } else if l.Record? {
      assert !Holds(s, l.w, j);
    }
  }

  lemma {:induction false} LostUntilTaken(p: Params, s: State, run: seq<Label>, j: JobId, at: real)
    requires Lost(s, j, at) && Exec(p, s, run).Some? && forall k :: 0 <= k < |run| ==> !Takes(run[k], j)
    ensures Lost(Exec(p, s, run).value, j, at) && Exec(p, s, run).value.jobs[j] == s.jobs[j]
  {
    if run != [] {
      var front := run[..|run| - 1];
      ExecLast(p, s, run);
      LostUntilTaken(p, s, front, j, at);
      LostStays(p, Exec(p, s, front).value, run[|run| - 1], j, at);
    }
  }

  // A claim of its stage does not take it while the lease lasts, and takes it after that if
  // it has room.
  lemma ClaimOfLost(p: Params, s: State, w: WorkerId, rows: seq<JobId>, j: JobId, at: real)
    requires Lost(s, j, at) && Enabled(p, s, Select(w, rows)) && s.workers[w].stage == s.jobs[j].stage
    ensures s.workers[w].phase.began <= at + p.lease ==> j !in rows
    ensures s.workers[w].phase.began > at + p.lease && |rows| < p.batch(s.jobs[j].stage) ==> j in rows
  {
    assert !LockedByAny(s, j);
  }

  // Under the lease premise: a job whose worker crashes while it runs it, or has it waiting
  // in its batch, stays exactly as it was until a claim of its stage selects it, whatever
  // else happens; no such claim does within the lease, and the first one with room that
  // begins later does.
  lemma CrashedJobIsReclaimed(
    p: Params, before: seq<Label>, w: WorkerId, j: JobId, more: seq<Label>, v: WorkerId, rows: seq<JobId>)
    requires p.Valid() && Premise(p) && Exec(p, INIT, before).Some?
    requires var s := Exec(p, INIT, before).value; Holds(s, w, j) && Enabled(p, s, Crash(w))
    requires var s := Apply(p, Exec(p, INIT, before).value, Crash(w));
      && Exec(p, s, more).Some? && (forall k :: 0 <= k < |more| ==> !Takes(more[k], j))
      && j < |s.jobs| && Enabled(p, Exec(p, s, more).value, Select(v, rows))
      && Exec(p, s, more).value.workers[v].stage == s.jobs[j].stage
    ensures var s, t := Exec(p, INIT, before).value, Exec(p, Apply(p, Exec(p, INIT, before).value, Crash(w)), more).value;
      var at := s.workers[w].phase.lockedAt;
      && j < |s.jobs| && j < |t.jobs| && t.jobs[j] == s.jobs[j]
      && (t.workers[v].phase.began <= at + p.lease ==> j !in rows)
      && (t.workers[v].phase.began > at + p.lease && |rows| < p.batch(s.jobs[j].stage) ==> j in rows)
  {
    var s := Exec(p, INIT, before).value;
    PremiseInv(p, before);
    var at := s.workers[w].phase.lockedAt;
    CrashLoses(p, s, w, j);
    LostUntilTaken(p, Apply(p, s, Crash(w)), more, j, at);
    ClaimOfLost(p, Exec(p, Apply(p, s, Crash(w)), more).value, v, rows, j, at);
  }
}
