/**
 * Runs in which jobs are deferred come to rest as well. What is left to do is counted in
 * three parts: the work that failures and completions use up, which no deferral adds to; the
 * pairs of a job and a breaker that has not refused it since its last failure; and the
 * measure of Termination.dfy, which a deferral raises by no more than a refusal lowers the
 * rest.
 */
module DeferredRuns {
  import opened Wrappers
  import opened Stages
  import opened Jobs
  import opened Pipeline
  import opened Ownership
  import opened Lease
  import opened Snowball
  import opened Termination
  import CircuitBreaker
  import opened Circuits

  // ---------- Work no deferral adds to ----------

  // What twice the measure misses of the attempts a worker's rows may still take: a claim
  // takes one step off the measure for each row, which a deferral puts back.
  function Extra(p: Params, w: Worker, failed: bool): nat {
    var ph := w.phase;
    if ph.Stopped? then 0
    else if ph.Handling? && ph.at < |ph.batch| then
      2 * (|ph.batch| - ph.at - 1) + (if !ph.progress.Begun? then 2 else if failed then 3 else 4)
    else if ph.Recording? && ph.at < |ph.batch| then
      2 * (|ph.batch| - ph.at - 1) + (if ph.outcome.Deferring? then 0 else 2)
    else 2
  }

  function ExtraOf(p: Params, s: Joint, w: WorkerId): nat {
    if w in s.base.workers then Extra(p, s.base.workers[w], w in s.failed) else 0
  }

  function ExtraAll(p: Params, s: Joint, ids: seq<WorkerId>): nat {
    if ids == [] then 0 else ExtraAll(p, s, ids[..|ids| - 1]) + ExtraOf(p, s, ids[|ids| - 1])
  }

  lemma {:induction false} ExtraFalls(p: Params, s: Joint, t: Joint, ids: seq<WorkerId>)
    requires forall w :: ExtraOf(p, t, w) <= ExtraOf(p, s, w)
    ensures ExtraAll(p, t, ids) <= ExtraAll(p, s, ids)
  {
    if ids != [] {
      ExtraFalls(p, s, t, ids[..|ids| - 1]);
    }
  }

  // Only one worker's part changes.
  lemma {:induction false} ExtraChanges(p: Params, s: Joint, t: Joint, ids: seq<WorkerId>, w: WorkerId)
    requires Distinct(ids) && forall v :: v != w ==> ExtraOf(p, t, v) == ExtraOf(p, s, v)
    ensures ExtraAll(p, t, ids) == ExtraAll(p, s, ids) + if w in ids then ExtraOf(p, t, w) - ExtraOf(p, s, w) else 0
  {
    if ids != [] {
      var front, last := ids[..|ids| - 1], ids[|ids| - 1];
      assert ids == front + [last] && last !in front;
      ExtraChanges(p, s, t, front, w);
    }
  }

  ghost function Unspent(p: Params, s: Joint, ids: seq<WorkerId>): nat {
    2 * Measure(p, s.base, ids) + ExtraAll(p, s, ids)
  }

  ghost predicate AllListed(s: Joint, ids: seq<WorkerId>) {
    Distinct(ids) && forall w :: w in s.base.workers ==> w in ids
  }

  // ---------- One move ----------

  lemma SpawnsFall(p: Params, s: State, l: Label, ids: seq<WorkerId>)
    requires CopiesOk(s) && Enabled(p, s, l)
    ensures Measure(p, Apply(p, s, l), ids) - Local(p, Apply(p, s, l), ids) <= Measure(p, s, ids) - Local(p, s, ids)
  {
    LeftToAllStep(p, s, l, ids);
    TimesGrows(LeftToAll(p, Apply(p, s, l), ids), LeftToAll(p, s, ids), 1 + Work(p, Resolved));
  }

  lemma CommitMeasure(p: Params, s: State, w: WorkerId, ids: seq<WorkerId>)
    requires OwnInv(p, s) && SteadyInv(s) && CopiesOk(s) && Enabled(p, s, Commit(w)) && Distinct(ids) && w in ids
    ensures Measure(p, Apply(p, s, Commit(w)), ids) + |s.workers[w].phase.rows| <= Measure(p, s, ids)
  {
    SelectedAreReady(p, s, w);
    CommitLowers(p, s, Apply(p, s, Commit(w)), w, ids);
    SpawnsFall(p, s, Commit(w), ids);
  }

  lemma DeferEffect(p: Params, s: State, w: WorkerId, delay: real)
    requires OwnInv(p, s) && Enabled(p, s, HandlerEnds(w, Deferring(delay)))
    ensures var t := Apply(p, s, HandlerEnds(w, Deferring(delay)));
      && w in t.workers && t.workers == s.workers[w := t.workers[w]] && t.jobs == s.jobs
      && PhaseWeight(p, t.workers[w]) == PhaseWeight(p, s.workers[w]) + 2
  {
  }

  lemma DeferMeasure(p: Params, s: State, w: WorkerId, delay: real, ids: seq<WorkerId>)
    requires OwnInv(p, s) && CopiesOk(s) && Enabled(p, s, HandlerEnds(w, Deferring(delay))) && Distinct(ids) && w in ids
    ensures Measure(p, Apply(p, s, HandlerEnds(w, Deferring(delay))), ids) <= Measure(p, s, ids) + 2
  {
    var l := HandlerEnds(w, Deferring(delay));
    var t := Apply(p, s, l);
    DeferEffect(p, s, w, delay);
    PhasesWeightUpdate(p, s.workers, ids, w, t.workers[w]);
    SpawnsFall(p, s, l, ids);
  }

  lemma DeferredWeight(p: Params, job: Job, now: real, delay: real)
    requires RowOk(p, job) && job.status.InProgress?
    ensures JobWeight(p, Deferred(job, now, delay)) == JobWeight(p, job) + Attempt(p, job.stage)
  {
  }

  lemma DeferralEnds(p: Params, w: Worker, now: real)
    requires w.phase.Recording? && w.phase.at < |w.phase.batch| && w.phase.outcome.Deferring?
    ensures PhaseWeight(p, w.(phase := Advance(w.phase, now))) + Attempt(p, w.stage) + 1 == PhaseWeight(p, w)
  {
  }

  // The row goes back to pending with its attempt; the worker goes on.
  lemma RecordEffect(p: Params, s: State, w: WorkerId, jitter: real)
    requires OwnInv(p, s) && Enabled(p, s, Record(w, jitter)) && DeferringNow(s, w)
    ensures var t := Apply(p, s, Record(w, jitter));
      && w in t.workers && t.workers == s.workers[w := t.workers[w]]
      && JobsWeight(p, t.jobs) == JobsWeight(p, s.jobs) + Attempt(p, s.workers[w].stage)
      && PhaseWeight(p, t.workers[w]) + Attempt(p, s.workers[w].stage) + 1 == PhaseWeight(p, s.workers[w])
  {
    var c := Current(s, s.workers[w].phase);
    HoldsCurrent(s, w);
    assert HeldRowOk(s, w, c) && PhaseOk(p, s, w) && RowOk(p, s.jobs[c]);
    DeferredWeight(p, s.jobs[c], s.now, s.workers[w].phase.outcome.delay);
    JobsWeightUpdate(p, s.jobs, c, Deferred(s.jobs[c], s.now, s.workers[w].phase.outcome.delay));
    DeferralEnds(p, s.workers[w], s.now);
  }

  lemma RecordDeferral(p: Params, s: State, w: WorkerId, jitter: real, ids: seq<WorkerId>)
    requires OwnInv(p, s) && CopiesOk(s) && Enabled(p, s, Record(w, jitter)) && DeferringNow(s, w)
    requires Distinct(ids) && w in ids
    ensures Measure(p, Apply(p, s, Record(w, jitter)), ids) < Measure(p, s, ids)
  {
    RecordEffect(p, s, w, jitter);
    PhasesWeightUpdate(p, s.workers, ids, w, Apply(p, s, Record(w, jitter)).workers[w]);
    SpawnsFall(p, s, Record(w, jitter), ids);
  }

  // Ordinary steps other than a claim and a deferral's record.
  lemma OrdinaryExtra(p: Params, c: Settings, s: Joint, l: Label, w: WorkerId)
    requires OwnInv(p, s.base) && Allowed(p, s, Step(l)) && !l.Commit? && Undeferred(s.base, l)
    requires l.RecordErrors? ==> !DeferringNow(s.base, l.w)
    ensures ExtraOf(p, After(p, c, s, Step(l)), w) <= ExtraOf(p, s, w)
  {
    if w in s.base.workers {
      assert PhaseOk(p, s.base, w);
    }
  }

  function Returned(s: State, l: Label): nat {
    if l.Commit? && l.w in s.workers then 2 * |LockedRows(s.workers[l.w].phase)| else 2
  }

  lemma OthersExtra(p: Params, c: Settings, s: Joint, l: Label, v: WorkerId)
    requires Allowed(p, s, Step(l)) && (l.Commit? || l.Record? || l.RecordErrors?) && v != l.w
    ensures ExtraOf(p, After(p, c, s, Step(l)), v) == ExtraOf(p, s, v)
  {
  }

  // A claim.
  lemma ClaimExtra(p: Params, c: Settings, s: Joint, w: WorkerId)
    requires OwnInv(p, s.base) && Allowed(p, s, Step(Commit(w)))
    ensures ExtraOf(p, After(p, c, s, Step(Commit(w))), w) == ExtraOf(p, s, w) + Returned(s.base, Commit(w))
  {
    assert PhaseOk(p, s.base, w);
  }

  // The end of a deferral, stored or not.
  lemma DeferralExtra(p: Params, c: Settings, s: Joint, l: Label)
    requires OwnInv(p, s.base) && Allowed(p, s, Step(l)) && (l.Record? || l.RecordErrors?) && DeferringNow(s.base, l.w)
    ensures ExtraOf(p, After(p, c, s, Step(l)), l.w) == ExtraOf(p, s, l.w) + Returned(s.base, l)
  {
    assert PhaseOk(p, s.base, l.w);
  }

  lemma UnspentStep(p: Params, c: Settings, s: Joint, l: Label, ids: seq<WorkerId>)
    requires p.Valid() && JointInv(p, s) && AllListed(s, ids) && Allowed(p, s, Step(l))
    ensures var t := After(p, c, s, Step(l));
      && Unspent(p, t, ids) <= Unspent(p, s, ids)
      && Measure(p, t.base, ids) <= Measure(p, s.base, ids)
      && (Working(s.base, l) ==> Measure(p, t.base, ids) < Measure(p, s.base, ids))
      && (Working(s.base, l) && !l.Commit? && !l.Record? && !l.RecordErrors? ==> Unspent(p, t, ids) < Unspent(p, s, ids))
  {
    var t := After(p, c, s, Step(l));
    if l.Commit? || ((l.Record? || l.RecordErrors?) && DeferringNow(s.base, l.w)) {
      forall v | v != l.w ensures ExtraOf(p, t, v) == ExtraOf(p, s, v) {
        OthersExtra(p, c, s, l, v);
      }
      ExtraChanges(p, s, t, ids, l.w);
      if l.Commit? {
        ClaimExtra(p, c, s, l.w);
      } else {
        DeferralExtra(p, c, s, l);
      }
      if l.Commit? {
        CommitMeasure(p, s.base, l.w, ids);
      } else if l.Record? {
        RecordDeferral(p, s.base, l.w, l.jitter, ids);
      } else {
        UndeferredLowers(p, s.base, l, ids);
      }
    } else {
      forall w ensures ExtraOf(p, t, w) <= ExtraOf(p, s, w) {
        OrdinaryExtra(p, c, s, l, w);
      }
      ExtraFalls(p, s, t, ids);
      UndeferredLowers(p, s.base, l, ids);
    }
  }

  lemma UnspentRefuse(p: Params, c: Settings, s: Joint, w: WorkerId, k: Key, first: real, ids: seq<WorkerId>)
    requires p.Valid() && JointInv(p, s) && AllListed(s, ids) && Allowed(p, s, Refuse(w, k, first))
    ensures var t := After(p, c, s, Refuse(w, k, first));
      Unspent(p, t, ids) <= Unspent(p, s, ids) && Measure(p, t.base, ids) <= Measure(p, s.base, ids) + 2
  {
    var t := After(p, c, s, Refuse(w, k, first));
    assert PhaseOk(p, s.base, w);
    DeferMeasure(p, s.base, w, Delay(s, k), ids);
    ExtraChanges(p, s, t, ids, w);
  }

  lemma UnspentFail(p: Params, c: Settings, s: Joint, w: WorkerId, k: Key, ids: seq<WorkerId>)
    requires JointInv(p, s) && AllListed(s, ids) && Allowed(p, s, Fail(w, k))
    ensures var t := After(p, c, s, Fail(w, k)); Unspent(p, t, ids) < Unspent(p, s, ids)
  {
    ExtraChanges(p, s, After(p, c, s, Fail(w, k)), ids, w);
  }

  // ---------- Pairs that may still be refused ----------

  function FreeOf(refused: set<(JobId, Key)>, j: JobId, keys: nat): nat {
    if keys == 0 then 0 else FreeOf(refused, j, keys - 1) + if (j, keys - 1) in refused then 0 else 1
  }

  function Free(refused: set<(JobId, Key)>, jobs: nat, keys: nat): nat {
    if jobs == 0 then 0 else Free(refused, jobs - 1, keys) + FreeOf(refused, jobs - 1, keys)
  }

  lemma {:induction false} FreeOfBound(refused: set<(JobId, Key)>, j: JobId, keys: nat)
    ensures FreeOf(refused, j, keys) <= keys
  {
    if keys > 0 {
      FreeOfBound(refused, j, keys - 1);
    }
  }

  lemma {:induction false} FreeBound(refused: set<(JobId, Key)>, jobs: nat, keys: nat)
    ensures Free(refused, jobs, keys) <= Times(jobs, keys)
  {
    if jobs > 0 {
      FreeBound(refused, jobs - 1, keys);
      FreeOfBound(refused, jobs - 1, keys);
    }
  }

  lemma {:induction false} OneFewerOf(refused: set<(JobId, Key)>, j: JobId, k: Key, i: JobId, keys: nat)
    requires (j, k) !in refused
    ensures FreeOf(refused + {(j, k)}, i, keys) + (if i == j && k < keys then 1 else 0) == FreeOf(refused, i, keys)
  {
    if keys > 0 {
      OneFewerOf(refused, j, k, i, keys - 1);
    }
  }

  lemma {:induction false} OneFewer(refused: set<(JobId, Key)>, j: JobId, k: Key, jobs: nat, keys: nat)
    requires (j, k) !in refused
    ensures Free(refused + {(j, k)}, jobs, keys) + (if j < jobs && k < keys then 1 else 0) == Free(refused, jobs, keys)
  {
    if jobs > 0 {
      OneFewer(refused, j, k, jobs - 1, keys);
      OneFewerOf(refused, j, k, jobs - 1, keys);
    }
  }

  // ---------- Refusals that may still happen ----------

  // With so much work unspent: each unit of it may bring one more job or one more breaker.
  function Later(unspent: nat, jobs: nat, keys: nat): nat {
    if unspent == 0 then 0 else Times(jobs + 1, keys + 1) + Later(unspent - 1, jobs + 1, keys + 1)
  }

  lemma {:induction false} TimesBoth(n: nat, m: nat, a: nat, b: nat)
    requires n <= m && a <= b
    ensures Times(n, a) <= Times(m, b)
  {
    if n > 0 {
      TimesBoth(n - 1, m - 1, a, b);
    }
  }

  lemma {:induction false} LaterGrows(u: nat, v: nat, jobs: nat, more: nat, keys: nat, others: nat)
    requires u <= v && jobs <= more && keys <= others
    ensures Later(u, jobs, keys) <= Later(v, more, others)
    decreases v
  {
    if u > 0 {
      TimesBoth(jobs + 1, more + 1, keys + 1, others + 1);
      LaterGrows(u - 1, v - 1, jobs + 1, more + 1, keys + 1, others + 1);
    }
  }

  ghost function RefusalsLeft(p: Params, s: Joint, ids: seq<WorkerId>): nat {
    Free(s.refused, |s.base.jobs|, |s.breakers|) + Later(Unspent(p, s, ids), |s.base.jobs|, |s.breakers|)
  }

  // Where less is unspent, one more job and one more breaker allow no more refusals, however
  // many pairs have been forgotten.
  lemma SpentPays(p: Params, s: Joint, t: Joint, ids: seq<WorkerId>)
    requires Unspent(p, t, ids) < Unspent(p, s, ids)
    requires |t.base.jobs| <= |s.base.jobs| + 1 && |t.breakers| <= |s.breakers| + 1
    ensures RefusalsLeft(p, t, ids) <= RefusalsLeft(p, s, ids)
  {
    var u, jobs, keys := Unspent(p, s, ids), |s.base.jobs|, |s.breakers|;
    FreeBound(t.refused, |t.base.jobs|, |t.breakers|);
    TimesBoth(|t.base.jobs|, jobs + 1, |t.breakers|, keys + 1);
    LaterGrows(Unspent(p, t, ids), u - 1, |t.base.jobs|, jobs + 1, |t.breakers|, keys + 1);
  }

  lemma JobsGrow(p: Params, s: State, l: Label)
    requires Enabled(p, s, l) && Quiet(s, l)
    ensures |s.jobs| <= |Apply(p, s, l).jobs| <= |s.jobs| + 1
    ensures |Apply(p, s, l).jobs| > |s.jobs| ==> l.EnqueueNext? || l.Spawn?
  {
  }

  lemma RefusalsStep(p: Params, c: Settings, s: Joint, l: Label, ids: seq<WorkerId>)
    requires p.Valid() && JointInv(p, s) && AllListed(s, ids) && Allowed(p, s, Step(l))
    ensures RefusalsLeft(p, After(p, c, s, Step(l)), ids) <= RefusalsLeft(p, s, ids)
  {
    var t := After(p, c, s, Step(l));
    UnspentStep(p, c, s, l, ids);
    JobsGrow(p, s.base, l);
    if |t.base.jobs| > |s.base.jobs| {
      SpentPays(p, s, t, ids);
    } else {
      LaterGrows(Unspent(p, t, ids), Unspent(p, s, ids), |t.base.jobs|, |s.base.jobs|, |t.breakers|, |s.breakers|);
    }
  }

  lemma RefusalCounts(p: Params, c: Settings, s: Joint, w: WorkerId, k: Key, first: real, ids: seq<WorkerId>)
    requires p.Valid() && JointInv(p, s) && AllListed(s, ids) && Allowed(p, s, Refuse(w, k, first))
    ensures RefusalsLeft(p, After(p, c, s, Refuse(w, k, first)), ids) < RefusalsLeft(p, s, ids)
  {
    var t, j := After(p, c, s, Refuse(w, k, first)), Current(s.base, s.base.workers[w].phase);
    RefusedOnce(p, s, w, k, first);
    OneFewer(s.refused, j, k, |s.base.jobs|, |s.breakers|);
    UnspentRefuse(p, c, s, w, k, first, ids);
    LaterGrows(Unspent(p, t, ids), Unspent(p, s, ids), |t.base.jobs|, |s.base.jobs|, |t.breakers|, |s.breakers|);
  }

  // ---------- Everything that is left ----------

  ghost function Total(p: Params, s: Joint, ids: seq<WorkerId>): nat {
    Unspent(p, s, ids) + Measure(p, s.base, ids) + 3 * RefusalsLeft(p, s, ids)
  }

  // A move that does some work: not waiting, polling in vain, crashing, or asking a circuit.
  ghost predicate WorkingMove(s: Joint, m: Move) {
    match m
    case Step(l) => Working(s.base, l)
    case ReadCircuit(_) => false
    case Succeed(_) => false
    case Fail(_, _) => true
    case Refuse(_, _, _) => true
  }

  lemma TotalFalls(p: Params, c: Settings, s: Joint, m: Move, ids: seq<WorkerId>)
    requires p.Valid() && JointInv(p, s) && AllListed(s, ids) && Allowed(p, s, m)
    ensures Total(p, After(p, c, s, m), ids) <= Total(p, s, ids)
    ensures WorkingMove(s, m) ==> Total(p, After(p, c, s, m), ids) < Total(p, s, ids)
  {
    var t := After(p, c, s, m);
    match m
    case Step(l) =>
      UnspentStep(p, c, s, l, ids);
      RefusalsStep(p, c, s, l, ids);
    case Refuse(w, k, first) =>
      UnspentRefuse(p, c, s, w, k, first, ids);
      RefusalCounts(p, c, s, w, k, first, ids);
    case Fail(w, k) =>
      UnspentFail(p, c, s, w, k, ids);
      SpentPays(p, s, t, ids);
    case _ =>
      ExtraFalls(p, s, t, ids);
      LaterGrows(Unspent(p, t, ids), Unspent(p, s, ids), |t.base.jobs|, |s.base.jobs|, |t.breakers|, |s.breakers|);
  }

  ghost function WorkingMoves(p: Params, c: Settings, s: Joint, run: seq<Move>): nat {
    if run == [] then 0
    else
      var t := Moves(p, c, s, run[..|run| - 1]);
      WorkingMoves(p, c, s, run[..|run| - 1]) + if t.Some? && WorkingMove(t.value, run[|run| - 1]) then 1 else 0
  }

  lemma ListedStays(p: Params, c: Settings, s: Joint, m: Move, ids: seq<WorkerId>)
    requires AllListed(s, ids) && Allowed(p, s, m)
    ensures AllListed(After(p, c, s, m), ids)
  {
  }

  // With deferrals too, no run has more working moves than the total its first state has.
  lemma {:induction false} DeferredRunsComeToRest(p: Params, c: Settings, s: Joint, ids: seq<WorkerId>, run: seq<Move>)
    requires p.Valid() && JointInv(p, s) && AllListed(s, ids) && Moves(p, c, s, run).Some?
    ensures WorkingMoves(p, c, s, run) + Total(p, Moves(p, c, s, run).value, ids) <= Total(p, s, ids)
    ensures JointInv(p, Moves(p, c, s, run).value) && AllListed(Moves(p, c, s, run).value, ids)
  {
    if run == [] {
    } else {
      var front, m := run[..|run| - 1], run[|run| - 1];
      DeferredRunsComeToRest(p, c, s, ids, front);
      var t := Moves(p, c, s, front).value;
      JointStep(p, c, t, m);
      ListedStays(p, c, t, m, ids);
      TotalFalls(p, c, t, m, ids);
    }
  }

  // From any state the pipeline has reached under the lease premise with no reclaim under
  // way, whatever the breakers are then, one bound holds for all such runs.
  lemma DeferredWorkIsBounded(p: Params, c: Settings, before: seq<Label>, breakers: seq<CircuitBreaker.BreakerState>, ids: seq<WorkerId>)
    requires p.Valid() && Premise(p) && Exec(p, INIT, before).Some? && SteadyInv(Exec(p, INIT, before).value)
    requires Distinct(ids) && forall w :: w in Exec(p, INIT, before).value.workers ==> w in ids
    ensures var s := Joint(Exec(p, INIT, before).value, breakers, {}, {});
      forall run :: Moves(p, c, s, run).Some? ==> WorkingMoves(p, c, s, run) <= Total(p, s, ids)
  {
    var s := Joint(Exec(p, INIT, before).value, breakers, {}, {});
    PremiseInv(p, before);
    CopiesAlways(p, before);
    ClockRun(p, before);
    forall run | Moves(p, c, s, run).Some? ensures WorkingMoves(p, c, s, run) <= Total(p, s, ids) {
      DeferredRunsComeToRest(p, c, s, ids, run);
    }
  }
}
