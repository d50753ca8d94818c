/**
 * Lease exclusion: no job is ever held by two workers exactly when a full batch, taken at
 * the slowest permitted pace, ends within the lease.
 */
module Lease {
  import opened Wrappers
  import opened Stages
  import opened Jobs
  import opened Pipeline
  import opened Ownership

  // The latest start, after the claim's NOW(), of the handler at position `at` of a batch.
  function Slot(p: Params, at: nat): real {
    if at == 0 then p.latency else Slot(p, at - 1) + p.timeout + p.record
  }

  predicate FitsLease(p: Params, stage: Stage) {
    p.latency + p.batch(stage) as real * (p.timeout + p.record) <= p.lease
  }

  ghost predicate Premise(p: Params) {
    forall stage :: JobStage(stage) ==> FitsLease(p, stage)
  }

  lemma {:induction false} SlotClosedForm(p: Params, at: nat)
    ensures Slot(p, at) == p.latency + at as real * (p.timeout + p.record)
  {
    if at == 0 {
    } else {
      SlotClosedForm(p, at - 1);
      var n, d := at as real, p.timeout + p.record;
      assert (at - 1) as real == n - 1.0;
      assert (n - 1.0) * d == n * d - d;
    }
  }

  lemma {:induction false} SlotMonotone(p: Params, a: nat, b: nat)
    requires p.Valid() && a <= b
    ensures Slot(p, a) <= Slot(p, b)
  {
    if a == b {
    } else {
      SlotMonotone(p, a, b - 1);
    }
  }

  // ---------- Timing, in every run ----------

  predicate OnTime(p: Params, now: real, ph: Phase) {
    match ph
    case Idle => true
    case Stopped => true
    case Claiming(began) => began <= now <= began + p.latency
    case Selected(began, _) => began <= now <= began + p.latency
    case Handling(_, at, lockedAt, since, _) =>
      since <= now <= since + p.timeout && since <= lockedAt + Slot(p, at)
    case Recording(_, at, lockedAt, since, _) =>
      since <= now <= since + p.record && since <= lockedAt + Slot(p, at) + p.timeout
  }

  ghost predicate TimeInv(p: Params, s: State) {
    forall w :: w in s.workers ==> OnTime(p, s.now, s.workers[w].phase)
  }

  lemma TimeStep(p: Params, s: State, l: Label)
    requires p.Valid() && TimeInv(p, s) && Enabled(p, s, l)
    ensures TimeInv(p, Apply(p, s, l))
  {
  }

  lemma FitsIffSlot(p: Params, stage: Stage)
    ensures FitsLease(p, stage) <==> Slot(p, p.batch(stage)) <= p.lease
  {
    SlotClosedForm(p, p.batch(stage));
  }

  // A worker on time at any position of a batch that fits is within the lease.
  lemma OnTimeIsFresh(p: Params, now: real, ph: Phase, n: nat)
    requires p.Valid() && OnTime(p, now, ph) && (ph.Handling? || ph.Recording?)
    requires ph.at < |ph.batch| <= n && Slot(p, n) <= p.lease
    ensures now <= ph.lockedAt + p.lease
  {
    SlotMonotone(p, ph.at + 1, n);
  }

  // While a worker holds anything, its lock is not older than the lease.
  lemma HeldIsFresh(p: Params, s: State, w: WorkerId, j: JobId)
    requires p.Valid() && Premise(p) && TimeInv(p, s) && OwnInv(p, s) && Holds(s, w, j)
    ensures s.now <= s.workers[w].phase.lockedAt + p.lease
  {
    assert HeldRowOk(s, w, j) && PhaseOk(p, s, w);
    FitsIffSlot(p, s.workers[w].stage);
    OnTimeIsFresh(p, s.now, s.workers[w].phase, p.batch(s.workers[w].stage));
  }

  lemma PremiseClean(p: Params, s: State, l: Label)
    requires p.Valid() && Premise(p) && TimeInv(p, s) && OwnInv(p, s) && Enabled(p, s, l)
    ensures Clean(s, l)
  {
    if l.Select? {
      forall j: JobId, v: WorkerId | j in l.rows ensures !Holds(s, v, j) {
        var began := s.workers[l.w].phase.began;
        assert Available(s.jobs, LockedByClaims(s), s.workers[l.w].stage, began, p.lease, j);
        assert OnTime(p, s.now, s.workers[l.w].phase);
        if Holds(s, v, j) {
          assert HeldRowOk(s, v, j);
          HeldIsFresh(p, s, v, j);
        }
      }
    }
  }

  // ---------- Runs ----------

  // Every state of a run has correct ownership and timing, and no claim in it took a held row.
  lemma {:induction false} PremiseInv(p: Params, run: seq<Label>)
    requires p.Valid() && Premise(p) && Exec(p, INIT, run).Some?
    ensures OwnInv(p, Exec(p, INIT, run).value) && TimeInv(p, Exec(p, INIT, run).value)
  {
    if run == [] {
    } else {
      var front, l := run[..|run| - 1], run[|run| - 1];
      PremiseInv(p, front);
      var s := Exec(p, INIT, front).value;
      PremiseClean(p, s, l);
      OwnStep(p, s, l);
      TimeStep(p, s, l);
    }
  }

  // Under the premise every run is clean.
  lemma PremiseCleanRun(p: Params, run: seq<Label>)
    requires p.Valid() && Premise(p)
    ensures CleanRun(p, run)
  {
    forall k | 0 <= k < |run| ensures CleanAt(p, run, k) {
      var s := Exec(p, INIT, run[..k]);
      if s.Some? {
        PremiseInv(p, run[..k]);
        if Enabled(p, s.value, run[k]) {
          PremiseClean(p, s.value, run[k]);
        }
      }
    }
  }

  lemma LeaseExclusion(p: Params, run: seq<Label>)
    requires p.Valid() && Premise(p) && Exec(p, INIT, run).Some?
    ensures Exclusive(Exec(p, INIT, run).value)
  {
    PremiseInv(p, run);
    OwnExclusive(p, Exec(p, INIT, run).value);
  }
}
