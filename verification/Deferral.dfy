/** A job deferred because a circuit was open comes back only after the circuit lets it through. */
module Deferral {
  import opened Wrappers
  import opened Stages
  import opened Jobs
  import opened CircuitBreaker

  // `check` refused at monotonic times first <= second; at `stored` the worker deferred the
  // job by the hint plus five seconds. The database clock runs `offset` ahead of the
  // monotonic one. Then no claim takes the job before the recovery time has passed.
  lemma NotClaimedBeforeRecovery(
    b: BreakerState, first: real, second: real, stored: real, offset: real,
    job: Job, stage: Stage, claimed: real, lease: real)
    requires first <= second <= stored && CheckResult(b, first, second).Some?
    requires Claimable(
      Deferred(job, stored + offset, CheckResult(b, first, second).value + 5.0), stage, claimed + offset, lease)
    ensures claimed >= b.lastFailure + b.recovery + 5.0
  {
  }

  // From then on claims of its stage may take it: a deferral lasts until the recovery time
  // after the last failure, five seconds, and the time it took to store it, and no longer.
  lemma ClaimedFromRecoveryOn(
    b: BreakerState, first: real, second: real, stored: real, offset: real, job: Job, claimed: real, lease: real)
    requires CheckResult(b, first, second).Some?
    ensures Claimable(
        Deferred(job, stored + offset, CheckResult(b, first, second).value + 5.0), job.stage, claimed + offset, lease)
      <==> claimed >= b.lastFailure + b.recovery + 5.0 + (stored - second)
  {
  }

  // If the breaker saw no further failure, its check then lets the handler through.
  lemma DeferralOutlastsOpenCircuit(
    threshold: int, recovery: real, h: seq<Event>, start: real,
    first: real, second: real, stored: real, offset: real,
    job: Job, stage: Stage, claimed: real, lease: real,
    more: seq<Event>, again: real, last: real)
    requires threshold >= 1 && Ordered(h, start) && Latest(h, start) <= first
    requires first <= second <= stored
    requires var b := Replay(New(threshold, recovery), h);
      && CheckResult(b, first, second).Some?
      && Claimable(
           Deferred(job, stored + offset, CheckResult(b, first, second).value + 5.0), stage, claimed + offset, lease)
    requires NoFailure(more) && Ordered(h + more, start)
    requires claimed <= again <= last && Latest(h + more, start) <= again
    ensures CheckResult(Replay(New(threshold, recovery), h + more), again, last).None?
  {
    var b := Replay(New(threshold, recovery), h);
    ReplayAgrees(threshold, recovery, h, start);
    NotClaimedBeforeRecovery(b, first, second, stored, offset, job, stage, claimed, lease);
    NoFailureKeepsLast(h, more);
    StateRefinesHistory(threshold, recovery, h + more, start, again);
  }
}
