/**
 * The pipeline together with the circuit breakers its handlers ask. A job whose handler
 * meets an open circuit is deferred and spends no attempt; the pipeline still comes to rest,
 * because a breaker defers a job again only after another failure, and a run of a handler
 * that records a failure is not deferred.
 */
module Circuits {
  import opened Wrappers
  import opened Stages
  import opened Jobs
  import opened Pipeline
  import opened Ownership
  import opened Lease
  import opened Snowball
  import opened Termination
  import opened CircuitBreaker

  // The breaker of one source in one process; numbered by their first failures.
  type Key = nat

  datatype Settings = Settings(threshold: int, recovery: real)

  datatype Joint = Joint(
    base: State,
    breakers: seq<BreakerState>,
    refused: set<(JobId, Key)>,   // history: deferred by that breaker since its last failure
    failed: set<WorkerId>)        // history: workers whose running handler has recorded a failure

  datatype Move =
    | Step(l: Label)
    | ReadCircuit(k: Key)
    | Succeed(k: Key)
    | Fail(w: WorkerId, k: Key)
    | Refuse(w: WorkerId, k: Key, first: real)

  // The handler may still send requests to the sources acquisition uses: it resolves or
  // acquires, and both make their requests before their writes.
  predicate MayRequest(s: Joint, w: WorkerId) {
    Runs(s.base, w, Begun) && (s.base.workers[w].stage.Resolved? || s.base.workers[w].stage.Acquired?)
  }

  // `check` reads the state at `first` and finds the circuit open; its second clock reading,
  // for the hint, is now.
  predicate Refuses(s: Joint, w: WorkerId, k: Key, first: real) {
    && MayRequest(s, w) && s.base.workers[w].stage.Acquired? && w !in s.failed && k < |s.breakers|
    && s.base.workers[w].phase.since <= first <= s.base.now && s.breakers[k].lastFailure <= first
    && AfterRead(s.breakers[k], first).circuit.Open?
  }

  function Delay(s: Joint, k: Key): real
    requires k < |s.breakers|
  {
    RetryAfter(s.breakers[k], s.base.now) + 5.0
  }

  // A run of a handler records at most one failure, since a request that fails ends it or is
  // the only one it makes of these sources, and after that it cannot be deferred.
  ghost predicate Allowed(p: Params, s: Joint, m: Move) {
    match m
    case Step(l) => Enabled(p, s.base, l) && Quiet(s.base, l)
    case ReadCircuit(k) => k < |s.breakers|
    case Succeed(k) => k < |s.breakers|
    case Fail(w, k) => MayRequest(s, w) && w !in s.failed && k <= |s.breakers|
    case Refuse(w, k, first) => Refuses(s, w, k, first)
  }

  function Failing(c: Settings, s: Joint, k: Key): seq<BreakerState>
    requires k <= |s.breakers|
  {
    if k < |s.breakers| then s.breakers[k := AfterFailure(s.breakers[k], s.base.now)]
    else s.breakers + [AfterFailure(New(c.threshold, c.recovery), s.base.now)]
  }

  function RefusedNow(s: Joint, w: WorkerId, k: Key): Label
    requires k < |s.breakers|
  {
    HandlerEnds(w, Deferring(Delay(s, k)))
  }

  // A worker's next handler has recorded no failure yet.
  function StillFailed(failed: set<WorkerId>, l: Label): set<WorkerId> {
    if l.Commit? || l.Record? || l.RecordErrors? then failed - {l.w} else failed
  }

  ghost function After(p: Params, c: Settings, s: Joint, m: Move): Joint
    requires Allowed(p, s, m)
  {
    match m
    case Step(l) => s.(base := Apply(p, s.base, l), failed := StillFailed(s.failed, l))
    case ReadCircuit(k) => s.(breakers := s.breakers[k := AfterRead(s.breakers[k], s.base.now)])
    case Succeed(k) => s.(breakers := s.breakers[k := AfterSuccess(s.breakers[k])])
    case Fail(w, k) =>
      s.(breakers := Failing(c, s, k), failed := s.failed + {w},
         refused := set pair | pair in s.refused && pair.1 != k)
    case Refuse(w, k, first) =>
      s.(base := Apply(p, s.base, RefusedNow(s, w, k)),
         refused := s.refused + {(Current(s.base, s.base.workers[w].phase), k)})
  }

  ghost function Moves(p: Params, c: Settings, s: Joint, run: seq<Move>): Option<Joint> {
    if run == [] then Some(s)
    else
      match Moves(p, c, s, run[..|run| - 1])
      case None => None
      case Some(t) => if Allowed(p, t, run[|run| - 1]) then Some(After(p, c, t, run[|run| - 1])) else None
  }

  // ---------- Clocks ----------

  predicate OnClock(now: real, ph: Phase) {
    match ph
    case Idle => true
    case Stopped => true
    case Claiming(began) => began <= now
    case Selected(began, _) => began <= now
    case Handling(_, _, lockedAt, since, _) => lockedAt <= since <= now
    case Recording(_, _, lockedAt, since, _) => lockedAt <= since <= now
  }

  ghost predicate ClockInv(s: State) {
    forall w :: w in s.workers ==> OnClock(s.now, s.workers[w].phase)
  }

  lemma ClockStep(p: Params, s: State, l: Label)
    requires ClockInv(s) && Enabled(p, s, l)
    ensures ClockInv(Apply(p, s, l))
  {
  }

  lemma {:induction false} ClockRun(p: Params, run: seq<Label>)
    requires Exec(p, INIT, run).Some?
    ensures ClockInv(Exec(p, INIT, run).value)
  {
    if run != [] {
      ClockRun(p, run[..|run| - 1]);
      ClockStep(p, Exec(p, INIT, run[..|run| - 1]).value, run[|run| - 1]);
    }
  }

  // ---------- A deferred job comes back only when the circuit lets it through ----------

  // The holder claimed the row no earlier than `at`, or is deferring it beyond that.
  predicate HolderAfter(s: State, w: WorkerId, j: JobId, at: real)
    requires w in s.workers
  {
    var ph := s.workers[w].phase;
    if ph.Recording? && ph.outcome.Deferring? && AtJob(s, ph) && Current(s, ph) == j then at <= ph.since + ph.outcome.delay
    else (ph.Handling? || ph.Recording?) && at <= ph.lockedAt
  }

  // Nobody's handler runs on the row before `at`.
  ghost predicate NotBefore(s: State, j: JobId, at: real) {
    && j < |s.jobs|
    && (s.jobs[j].status.Pending? ==> at <= s.jobs[j].scheduledAfter)
    && (forall w :: Holds(s, w, j) ==> HolderAfter(s, w, j, at))
  }

  lemma BackoffPositive(attempts: nat, jitter: real)
    requires 0.0 <= jitter
    ensures Backoff(attempts, jitter) > 0.0
  {
    assert Pow2(attempts) as real >= 1.0;
  }

  // What the row's own record leaves behind.
  lemma RecordedAfter(job: Job, outcome: Outcome, now: real, jitter: real, at: real)
    requires !outcome.Failing? && 0.0 <= jitter
    requires if outcome.Deferring? then at <= now + outcome.delay else at <= now
    ensures RecordedRow(job, outcome, now, jitter).status.Pending? && !job.status.Pending? ==>
              at <= RecordedRow(job, outcome, now, jitter).scheduledAfter
  {
    if outcome.FailureRead? {
      BackoffPositive(outcome.attempts + 1, jitter);
    }
  }

  lemma RecordNotBefore(p: Params, s: State, w: WorkerId, jitter: real, j: JobId, at: real)
    requires OwnInv(p, s) && ClockInv(s) && Enabled(p, s, Record(w, jitter)) && NotBefore(s, j, at)
    ensures NotBefore(Apply(p, s, Record(w, jitter)), j, at)
  {
    var t := Apply(p, s, Record(w, jitter));
    var ph := s.workers[w].phase;
    var c := Current(s, ph);
    HoldsCurrent(s, w);
    AdvanceHolds(s, t, w);
    assert HeldRowOk(s, w, c) && PhaseOk(p, s, w);
    if j == c {
      assert HolderAfter(s, w, j, at) && OnClock(s.now, ph);
      RecordedAfter(s.jobs[c], ph.outcome, s.now, jitter, at);
    }
    forall v | Holds(t, v, j) ensures HolderAfter(t, v, j, at) {
      assert Holds(s, v, j) && HolderAfter(s, v, j, at);
      OwnExclusive(p, s);
      if v != w {
        assert HeldRowOk(s, v, j);
      }
    }
  }

  lemma CommitNotBefore(p: Params, s: State, w: WorkerId, j: JobId, at: real)
    requires OwnInv(p, s) && SteadyInv(s) && Enabled(p, s, Commit(w)) && NotBefore(s, j, at)
    ensures NotBefore(Apply(p, s, Commit(w)), j, at)
  {
    var t := Apply(p, s, Commit(w));
    var rows := s.workers[w].phase.rows;
    forall v | Holds(t, v, j) ensures HolderAfter(t, v, j, at) {
      if v == w {
        assert rows[0..] == rows;
        assert RowLocked(s, w, j) && LockedRowOk(p, s, w, j);
      } else {
        assert Holds(s, v, j) && HeldRowOk(s, v, j) && HolderAfter(s, v, j, at);
      }
    }
  }

  // A worker whose outcome could not be stored goes on with the rest of its batch.
  lemma GivenUp(p: Params, s: State, w: WorkerId, j: JobId, at: real)
    requires OwnInv(p, s) && Enabled(p, s, RecordErrors(w)) && NotBefore(s, j, at)
    requires Holds(Apply(p, s, RecordErrors(w)), w, j)
    ensures HolderAfter(Apply(p, s, RecordErrors(w)), w, j, at)
  {
    AdvanceHolds(s, Apply(p, s, RecordErrors(w)), w);
    assert HolderAfter(s, w, j, at) && HeldRowOk(s, w, j) && PhaseOk(p, s, w);
  }

  predicate Busy(ph: Phase) {
    ph.Handling? || ph.Recording?
  }

  // Any other step leaves a busy worker its batch and its place in it.
  lemma SameBatch(p: Params, s: State, l: Label, v: WorkerId)
    requires Enabled(p, s, l) && !l.Record? && !l.Commit? && !(l.RecordErrors? && l.w == v)
    requires v in Apply(p, s, l).workers && Busy(Apply(p, s, l).workers[v].phase)
    ensures v in s.workers && Busy(s.workers[v].phase)
    ensures var ph, after := s.workers[v].phase, Apply(p, s, l).workers[v].phase;
      && after.batch == ph.batch && after.at == ph.at && after.lockedAt == ph.lockedAt
      && (after.Recording? && after.outcome.Deferring? ==>
            after == ph || (l.HandlerEnds? && l.w == v && after.since == s.now && after.outcome == l.outcome && ph.Handling?))
  {
  }

  lemma StillAfter(p: Params, s: State, l: Label, v: WorkerId, j: JobId, at: real)
    requires OwnInv(p, s) && Enabled(p, s, l) && NotBefore(s, j, at) && Holds(Apply(p, s, l), v, j)
    requires !l.Record? && !l.Commit? && !(l.RecordErrors? && l.w == v) && (l.HandlerEnds? ==> EndsAfter(s, l, j, at))
    requires |s.jobs| <= |Apply(p, s, l).jobs|
    ensures HolderAfter(Apply(p, s, l), v, j, at)
  {
    SameBatch(p, s, l, v);
    assert Holds(s, v, j) && HolderAfter(s, v, j, at) && HeldRowOk(s, v, j) && PhaseOk(p, s, v);
    HoldsCurrent(s, v) by {
      assert s.workers[v].phase.batch[s.workers[v].phase.at] == HeldRows(s.workers[v].phase)[0];
      assert Holds(s, v, s.workers[v].phase.batch[s.workers[v].phase.at]);
    }
  }

  // The other steps that keep a worker's row, or give it up.
  lemma OtherNotBefore(p: Params, s: State, l: Label, j: JobId, at: real)
    requires OwnInv(p, s) && Enabled(p, s, l) && Steady(s, l) && NotBefore(s, j, at)
    requires !l.Record? && !l.Commit? && (l.HandlerEnds? ==> EndsAfter(s, l, j, at))
    ensures NotBefore(Apply(p, s, l), j, at)
  {
    forall v | Holds(Apply(p, s, l), v, j) ensures HolderAfter(Apply(p, s, l), v, j, at) {
      if l.RecordErrors? && l.w == v {
        GivenUp(p, s, v, j, at);
      } else {
        StillAfter(p, s, l, v, j, at);
      }
    }
  }

  // If the handler ends in a deferral of this very row, it is deferred beyond `at`.
  predicate EndsAfter(s: State, l: Label, j: JobId, at: real)
    requires l.HandlerEnds?
  {
    (l.outcome.Deferring? && l.w in s.workers && AtJob(s, s.workers[l.w].phase)
     && Current(s, s.workers[l.w].phase) == j) ==> at <= s.now + l.outcome.delay
  }

  lemma NotBeforeStep(p: Params, s: State, l: Label, j: JobId, at: real)
    requires OwnInv(p, s) && ClockInv(s) && SteadyInv(s) && Enabled(p, s, l) && Steady(s, l) && NotBefore(s, j, at)
    requires l.HandlerEnds? ==> EndsAfter(s, l, j, at)
    ensures NotBefore(Apply(p, s, l), j, at)
  {
    if l.Record? {
      RecordNotBefore(p, s, l.w, l.jitter, j, at);
    } else if l.Commit? {
      CommitNotBefore(p, s, l.w, j, at);
    } else {
      OtherNotBefore(p, s, l, j, at);
    }
  }

  // When the breaker's recovery time is over.
  function Reopens(b: BreakerState): real {
    b.lastFailure + b.recovery
  }

  ghost predicate RefusedInv(s: Joint) {
    forall j, k :: (j, k) in s.refused ==> k < |s.breakers| && NotBefore(s.base, j, Reopens(s.breakers[k]))
  }

  // A breaker that refuses a job has not refused it since its last failure.
  lemma RefusedOnce(p: Params, s: Joint, w: WorkerId, k: Key, first: real)
    requires OwnInv(p, s.base) && ClockInv(s.base) && RefusedInv(s) && Refuses(s, w, k, first)
    ensures (Current(s.base, s.base.workers[w].phase), k) !in s.refused
  {
    var j := Current(s.base, s.base.workers[w].phase);
    HoldsCurrent(s.base, w);
    assert OnClock(s.base.now, s.base.workers[w].phase);
    assert (j, k) in s.refused ==> HolderAfter(s.base, w, j, Reopens(s.breakers[k]));
  }

  // The deferral outlasts that breaker's recovery time and that of every other breaker
  // that refused the job before.
  lemma DeferredBeyond(p: Params, s: Joint, w: WorkerId, k: Key, first: real, i: Key)
    requires OwnInv(p, s.base) && ClockInv(s.base) && RefusedInv(s) && Refuses(s, w, k, first)
    requires i == k || (Current(s.base, s.base.workers[w].phase), i) in s.refused
    ensures Reopens(s.breakers[i]) <= s.base.now + Delay(s, k)
    ensures s.base.now + Delay(s, k) == Reopens(s.breakers[k]) + 5.0
  {
    var j := Current(s.base, s.base.workers[w].phase);
    HoldsCurrent(s.base, w);
    assert OnClock(s.base.now, s.base.workers[w].phase);
    if i != k {
      assert HolderAfter(s.base, w, j, Reopens(s.breakers[i]));
    }
  }

  lemma RefuseKeeps(p: Params, c: Settings, s: Joint, w: WorkerId, k: Key, first: real)
    requires OwnInv(p, s.base) && ClockInv(s.base) && SteadyInv(s.base) && RefusedInv(s)
    requires Refuses(s, w, k, first) && Allowed(p, s, Refuse(w, k, first))
    ensures RefusedInv(After(p, c, s, Refuse(w, k, first)))
  {
    var t := After(p, c, s, Refuse(w, k, first));
    var l, c0 := RefusedNow(s, w, k), Current(s.base, s.base.workers[w].phase);
    forall j, i | (j, i) in t.refused ensures i < |t.breakers| && NotBefore(t.base, j, Reopens(t.breakers[i])) {
      if (j, i) in s.refused {
        if j == c0 {
          DeferredBeyond(p, s, w, k, first, i);
        }
        NotBeforeStep(p, s.base, l, j, Reopens(s.breakers[i]));
      } else {
        DeferredBeyond(p, s, w, k, first, k);
        NewlyDeferred(p, s.base, w, Delay(s, k), Reopens(s.breakers[k]));
      }
    }
  }

  lemma NewlyDeferred(p: Params, s: State, w: WorkerId, delay: real, at: real)
    requires OwnInv(p, s) && Enabled(p, s, HandlerEnds(w, Deferring(delay))) && at <= s.now + delay
    ensures var t := Apply(p, s, HandlerEnds(w, Deferring(delay)));
            NotBefore(t, Current(s, s.workers[w].phase), at)
  {
    var t, j := Apply(p, s, HandlerEnds(w, Deferring(delay))), Current(s, s.workers[w].phase);
    HoldsCurrent(s, w);
    assert HeldRowOk(s, w, j);
    forall v | Holds(t, v, j) ensures HolderAfter(t, v, j, at) {
      assert Holds(s, v, j);
      OwnExclusive(p, s);
    }
  }

  lemma RefusedStep(p: Params, c: Settings, s: Joint, m: Move)
    requires OwnInv(p, s.base) && ClockInv(s.base) && SteadyInv(s.base) && RefusedInv(s) && Allowed(p, s, m)
    ensures RefusedInv(After(p, c, s, m))
  {
    var t := After(p, c, s, m);
    match m
    case Refuse(w, k, first) => RefuseKeeps(p, c, s, w, k, first);
    case Step(l) =>
      forall j, k | (j, k) in t.refused ensures k < |t.breakers| && NotBefore(t.base, j, Reopens(t.breakers[k])) {
        NotBeforeStep(p, s.base, l, j, Reopens(s.breakers[k]));
      }
    case _ =>
      forall j, k | (j, k) in t.refused ensures k < |t.breakers| && NotBefore(t.base, j, Reopens(t.breakers[k])) {
        assert (j, k) in s.refused && Reopens(t.breakers[k]) == Reopens(s.breakers[k]);
      }
  }

  // An acquire handler that asks a breaker while it is open is deferred: its row becomes
  // pending, spends no attempt, and may be claimed exactly from five seconds after the end of
  // the recovery time on.
  lemma AskedWhileOpenIsDeferred(p: Params, c: Settings, s: Joint, w: WorkerId, k: Key, jitter: real)
    requires Runs(s.base, w, Begun) && s.base.workers[w].stage == Acquired && w !in s.failed
    requires k < |s.breakers| && s.breakers[k].circuit == Open && s.base.workers[w].phase.since <= s.base.now
    requires s.breakers[k].lastFailure <= s.base.now < s.breakers[k].lastFailure + s.breakers[k].recovery
    requires 0.0 <= jitter < 1.0 && forall v :: !RowLocked(s.base, v, Current(s.base, s.base.workers[w].phase))
    ensures var refuse := Refuse(w, k, s.base.now);
      && Allowed(p, s, refuse) && Allowed(p, After(p, c, s, refuse), Step(Record(w, jitter)))
      && var t := After(p, c, After(p, c, s, refuse), Step(Record(w, jitter))).base;
         var j := Current(s.base, s.base.workers[w].phase);
         && j < |t.jobs| && Unlocked(t.jobs[j]) && t.jobs[j].attempts == s.base.jobs[j].attempts
         && ClaimableExactlyFrom(t.jobs[j], s.breakers[k].lastFailure + s.breakers[k].recovery + 5.0)
  {
    var refuse, j := Refuse(w, k, s.base.now), Current(s.base, s.base.workers[w].phase);
    var mid := After(p, c, s, refuse).base;
    forall v ensures !RowLocked(mid, v, j) {
      assert !RowLocked(s.base, v, j);
    }
    assert !LockedByAny(mid, j);
  }

  // A request of a resolve or acquire handler that fails opens the circuit if it is the one
  // that fills the threshold.
  lemma FailingRequestOpens(p: Params, c: Settings, s: Joint, w: WorkerId, k: Key)
    requires Runs(s.base, w, Begun) && w !in s.failed && k < |s.breakers|
    requires s.base.workers[w].stage == Resolved || s.base.workers[w].stage == Acquired
    ensures Allowed(p, s, Fail(w, k))
    ensures var b, t := s.breakers[k], After(p, c, s, Fail(w, k));
      && t.base == s.base && t.breakers[k].lastFailure == s.base.now && t.breakers[k].failures == b.failures + 1
      && (b.failures + 1 >= b.threshold ==> t.breakers[k].circuit == Open)
  {
  }

  // What any caller of the source hears or reads is told its breaker: a success closes it,
  // and a read once the recovery time is over lets one through.
  lemma BreakersHear(p: Params, c: Settings, s: Joint, k: Key)
    requires k < |s.breakers|
    ensures Allowed(p, s, Succeed(k)) && Allowed(p, s, ReadCircuit(k))
    ensures var t := After(p, c, s, Succeed(k)); t.breakers[k].circuit == Closed && t.breakers[k].failures == 0
    ensures var b, t := s.breakers[k], After(p, c, s, ReadCircuit(k));
      t.breakers[k].circuit
        == if b.circuit == Open && s.base.now >= b.lastFailure + b.recovery then HalfOpen else b.circuit
  {
  }

  // ---------- Every invariant ----------

  ghost predicate JointInv(p: Params, s: Joint) {
    OwnInv(p, s.base) && SteadyInv(s.base) && CopiesOk(s.base) && ClockInv(s.base) && RefusedInv(s)
  }

  lemma BaseStep(p: Params, s: State, l: Label)
    requires p.Valid() && OwnInv(p, s) && SteadyInv(s) && CopiesOk(s) && ClockInv(s)
    requires Enabled(p, s, l) && Steady(s, l)
    ensures var t := Apply(p, s, l); OwnInv(p, t) && SteadyInv(t) && CopiesOk(t) && ClockInv(t)
  {
    SteadyClean(p, s, l);
    OwnStep(p, s, l);
    SteadyStep(p, s, l);
    CopiesStep(p, s, l);
    ClockStep(p, s, l);
  }

  lemma JointStep(p: Params, c: Settings, s: Joint, m: Move)
    requires p.Valid() && JointInv(p, s) && Allowed(p, s, m)
    ensures JointInv(p, After(p, c, s, m))
  {
    RefusedStep(p, c, s, m);
    match m
    case Step(l) => BaseStep(p, s.base, l);
    case Refuse(w, k, first) => BaseStep(p, s.base, RefusedNow(s, w, k));
    case _ =>
  }
}
