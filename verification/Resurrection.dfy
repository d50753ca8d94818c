/**
 * The lease premise is what makes `succeeded` final. When some stage's batch can outlast
 * the lease, a second worker can complete a job whose handler the first one then records
 * as failed, and the job that had succeeded is pending, or failed, after all.
 */
module Resurrection {
  import opened Wrappers
  import opened Stages
  import opened Jobs
  import opened Pipeline
  import opened Ownership
  import opened Lease
  import opened LeaseNeeded
  import opened Witness
  import Lifecycle

  // In no reachable state does any step change the row of a job that has succeeded.
  ghost predicate SuccessIsFinal(p: Params) {
    forall s, l, j: JobId :: Reachable(p, s) ==> FinalAt(p, s, l, j)
  }

  ghost predicate FinalAt(p: Params, s: State, l: Label, j: JobId) {
    Enabled(p, s, l) && j < |s.jobs| && s.jobs[j].status.Succeeded? ==>
      j < |Apply(p, s, l).jobs| && Apply(p, s, l).jobs[j] == s.jobs[j]
  }

  // Worker 1 completes the job.
  lemma CompletedUnderneath(p: Params, s: State, stage: Stage, j: JobId) returns (t: State)
    requires Reachable(p, s) && BothAt(p, s, stage, j, Failing)
    ensures Reachable(p, t) && Tidy(t) && j < |t.jobs| && t.jobs[j].status.Succeeded?
    ensures 0 in t.workers && t.workers[0] == s.workers[0] && RecordsOutcome(t, 0)
  {
    var written := WriteAll(p, s, 1);
    t := CompleteNow(p, written, 1);
  }

  // When some stage's full batch can outlast the lease, a job one worker has completed can
  // be taken out of `succeeded` by the failure another records.
  lemma SuccessUndone(p: Params, stage: Stage) returns (s: State, l: Label, j: JobId)
    requires p.Valid() && JobStage(stage) && p.batch(stage) >= 1 && !FitsLease(p, stage)
    requires Feeder(stage).Some? ==> p.batch(Feeder(stage).value) >= 1
    ensures Reachable(p, s) && Enabled(p, s, l) && l.Record? && s.workers[l.w].phase.outcome.FailureRead?
    ensures j < |s.jobs| && s.jobs[j].status.Succeeded? && j < |Apply(p, s, l).jobs|
    ensures Apply(p, s, l).jobs[j].status == if s.workers[l.w].phase.outcome.attempts + 1 < s.workers[l.w].phase.outcome.max
                                             then Pending else Failed
  {
    var both, row := ReachBoth(p, stage);
    var done := CompletedUnderneath(p, both, stage, row);
    s := ReadNow(p, done, 0);
    l, j := Record(0, 0.0), row;
    NoLocks(s);
    assert Enabled(p, s, l);
  }

  // Success is final in all runs if and only if every stage's full batch fits the lease.
  lemma SuccessIsFinalIffFitsLease(p: Params)
    requires p.Valid() && forall stage :: JobStage(stage) ==> p.batch(stage) >= 1
    ensures Premise(p) <==> SuccessIsFinal(p)
  {
    if Premise(p) {
      forall s, l, j: JobId | Reachable(p, s) ensures FinalAt(p, s, l, j) {
        var run :| Exec(p, INIT, run) == Some(s);
        PremiseInv(p, run);
        if Enabled(p, s, l) && j < |s.jobs| && s.jobs[j].status.Succeeded? {
          Lifecycle.SucceededStep(p, s, l, j);
        }
      }
    } else {
      var stage :| JobStage(stage) && !FitsLease(p, stage);
      var s, l, j := SuccessUndone(p, stage);
      assert !FinalAt(p, s, l, j);
    }
  }
}
