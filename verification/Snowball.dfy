/**
 * The snowball budget across workers. A citation handler reads the number of snowballed
 * papers once and then compares its own copy with the budget, so handlers that run at the
 * same time can together go beyond it.
 */
module Snowball {
  import opened Wrappers
  import opened Stages
  import opened Jobs
  import opened Pipeline
  import opened Witness

  function Left(p: Params, spawned: int): nat {
    if spawned < p.budget then p.budget - spawned else 0
  }

  // Papers the worker may still create: what its running handler's copy of the count
  // allows, or what a count made now would allow.
  function SpawnsLeft(p: Params, spawned: int, w: Worker): nat {
    if w.phase.Handling? && w.phase.progress.Counted? then Left(p, w.phase.progress.spawned)
    else if w.stage.CitationsExtracted? && !w.phase.Stopped? then Left(p, spawned)
    else 0
  }

  function LeftTo(p: Params, s: State, w: WorkerId): nat {
    if w in s.workers then SpawnsLeft(p, s.spawned, s.workers[w]) else Left(p, s.spawned)
  }

  function LeftToAll(p: Params, s: State, ids: seq<WorkerId>): nat {
    if ids == [] then 0 else LeftToAll(p, s, ids[..|ids| - 1]) + LeftTo(p, s, ids[|ids| - 1])
  }

  // No handler's copy is ahead of the count it was read from.
  ghost predicate CopiesOk(s: State) {
    && s.spawned >= 0
    && forall w :: w in s.workers && s.workers[w].phase.Handling? && s.workers[w].phase.progress.Counted? ==>
         s.workers[w].phase.progress.spawned <= s.spawned && s.workers[w].stage.CitationsExtracted?
  }

  lemma CopiesStep(p: Params, s: State, l: Label)
    requires CopiesOk(s) && Enabled(p, s, l)
    ensures CopiesOk(Apply(p, s, l))
  {
  }

  lemma {:induction false} CopiesAlways(p: Params, run: seq<Label>)
    requires Exec(p, INIT, run).Some?
    ensures CopiesOk(Exec(p, INIT, run).value)
  {
    if run != [] {
      CopiesAlways(p, run[..|run| - 1]);
      CopiesStep(p, Exec(p, INIT, run[..|run| - 1]).value, run[|run| - 1]);
    }
  }

  lemma LeftToStep(p: Params, s: State, l: Label, w: WorkerId)
    requires CopiesOk(s) && Enabled(p, s, l)
    ensures LeftTo(p, Apply(p, s, l), w) <= LeftTo(p, s, w)
    ensures l == Spawn(w) ==> LeftTo(p, Apply(p, s, l), w) < LeftTo(p, s, w)
  {
  }

  // No step raises what is left to all, and creating a paper lowers it.
  lemma {:induction false} LeftToAllStep(p: Params, s: State, l: Label, ids: seq<WorkerId>)
    requires CopiesOk(s) && Enabled(p, s, l)
    ensures LeftToAll(p, Apply(p, s, l), ids) <= LeftToAll(p, s, ids)
    ensures l.Spawn? && l.w in ids ==> LeftToAll(p, Apply(p, s, l), ids) < LeftToAll(p, s, ids)
  {
    if ids != [] {
      LeftToAllStep(p, s, l, ids[..|ids| - 1]);
      LeftToStep(p, s, l, ids[|ids| - 1]);
      assert ids == ids[..|ids| - 1] + [ids[|ids| - 1]];
    }
  }

  function Times(n: nat, a: nat): nat {
    if n == 0 then 0 else a + Times(n - 1, a)
  }

  lemma {:induction false} TimesIsProduct(n: nat, a: nat)
    ensures Times(n, a) == n * a
  {
    if n > 0 {
      TimesIsProduct(n - 1, a);
    }
  }

  // ---------- At most n citation workers at a time ----------

  // Citation workers that have not stopped.
  function LiveCitation(s: State): set<WorkerId> {
    set w | w in s.workers && s.workers[w].stage.CitationsExtracted? && !s.workers[w].phase.Stopped?
  }

  // At most n of them at a time, all along the run.
  ghost predicate AtMost(p: Params, n: nat, run: seq<Label>) {
    && (Exec(p, INIT, run).Some? ==> |LiveCitation(Exec(p, INIT, run).value)| <= n)
    && (run != [] ==> AtMost(p, n, run[..|run| - 1]))
  }

  predicate HasCopy(s: State, w: WorkerId) {
    w in s.workers && s.workers[w].phase.Handling? && s.workers[w].phase.progress.Counted?
  }

  // What the handler's copy allows beyond what a count made now would.
  function Surplus(p: Params, s: State, w: WorkerId): int {
    if HasCopy(s, w) then Left(p, s.workers[w].phase.progress.spawned) - Left(p, s.spawned) else 0
  }

  function SurplusBelow(p: Params, s: State, m: nat): int {
    if m == 0 then 0 else SurplusBelow(p, s, m - 1) + Surplus(p, s, m - 1)
  }

  function CopiesBelow(s: State, m: nat): nat {
    if m == 0 then 0 else CopiesBelow(s, m - 1) + if HasCopy(s, m - 1) then 1 else 0
  }

  function WithCopy(s: State, m: nat): set<WorkerId> {
    set w: WorkerId | w < m && HasCopy(s, w)
  }

  lemma {:induction false} CopiesAreCounted(s: State, m: nat)
    ensures CopiesBelow(s, m) == |WithCopy(s, m)|
  {
    if m > 0 {
      CopiesAreCounted(s, m - 1);
      assert WithCopy(s, m) == WithCopy(s, m - 1) + if HasCopy(s, m - 1) then {m - 1} else {};
    }
  }

  lemma FewCopies(s: State, m: nat)
    requires CopiesOk(s)
    ensures CopiesBelow(s, m) <= |LiveCitation(s)|
  {
    CopiesAreCounted(s, m);
    SubsetCount(WithCopy(s, m), LiveCitation(s));
  }

  lemma OthersSurplus(p: Params, s: State, l: Label, w: WorkerId)
    requires CopiesOk(s) && Enabled(p, s, l) && !l.Spawn?
    ensures Surplus(p, Apply(p, s, l), w) <= Surplus(p, s, w)
  {
  }

  lemma {:induction false} SurplusFalls(p: Params, s: State, l: Label, m: nat)
    requires CopiesOk(s) && Enabled(p, s, l) && !l.Spawn?
    ensures SurplusBelow(p, Apply(p, s, l), m) <= SurplusBelow(p, s, m)
  {
    if m > 0 {
      SurplusFalls(p, s, l, m - 1);
      OthersSurplus(p, s, l, m - 1);
    }
  }

  // By how much a count made now allows less after one more paper: one, or nothing once the
  // budget is used up.
  function Drop(p: Params, spawned: int): nat {
    Left(p, spawned) - Left(p, spawned + 1)
  }

  lemma SpawnSurplus(p: Params, s: State, v: WorkerId, w: WorkerId)
    requires CopiesOk(s) && Enabled(p, s, Spawn(v))
    ensures Surplus(p, Apply(p, s, Spawn(v)), w)
         == Surplus(p, s, w) + (if HasCopy(s, w) then Drop(p, s.spawned) else 0) - (if w == v then 1 else 0)
  {
  }

  lemma {:induction false} SurplusGrows(p: Params, s: State, v: WorkerId, m: nat)
    requires CopiesOk(s) && Enabled(p, s, Spawn(v))
    ensures SurplusBelow(p, Apply(p, s, Spawn(v)), m)
         <= SurplusBelow(p, s, m) + (if Drop(p, s.spawned) == 1 then CopiesBelow(s, m) else 0) - (if v < m then 1 else 0)
  {
    if m > 0 {
      SurplusGrows(p, s, v, m - 1);
      SpawnSurplus(p, s, v, m - 1);
    }
  }

  // Papers created, what handlers' copies allow beyond a fresh count, and a fresh count for
  // each of n workers.
  function Committed(p: Params, n: nat, s: State, m: nat): int {
    s.spawned + SurplusBelow(p, s, m) + Times(Left(p, s.spawned), n)
  }

  // No step raises it.
  lemma CommittedStep(p: Params, n: nat, s: State, l: Label, m: nat)
    requires CopiesOk(s) && Enabled(p, s, l) && |LiveCitation(s)| <= n
    requires forall w :: w in s.workers ==> w < m
    ensures Committed(p, n, Apply(p, s, l), m) <= Committed(p, n, s, m)
  {
    if l.Spawn? {
      SurplusGrows(p, s, l.w, m);
      FewCopies(s, m);
    } else {
      SurplusFalls(p, s, l, m);
    }
  }

  lemma {:induction false} NoSurplusAtFirst(p: Params, m: nat)
    ensures SurplusBelow(p, INIT, m) == 0
  {
    if m > 0 {
      NoSurplusAtFirst(p, m - 1);
    }
  }

  lemma {:induction false} CommittedRun(p: Params, n: nat, run: seq<Label>, m: nat)
    requires Exec(p, INIT, run).Some? && AtMost(p, n, run)
    requires forall w :: w in Exec(p, INIT, run).value.workers ==> w < m
    ensures CopiesOk(Exec(p, INIT, run).value)
    ensures Committed(p, n, Exec(p, INIT, run).value, m) <= Times(Left(p, 0), n)
  {
    if run == [] {
      NoSurplusAtFirst(p, m);
    } else {
      var front, l := run[..|run| - 1], run[|run| - 1];
      var s := Exec(p, INIT, front).value;
      assert s.workers.Keys <= Apply(p, s, l).workers.Keys;
      CommittedRun(p, n, front, m);
      CopiesStep(p, s, l);
      CommittedStep(p, n, s, l, m);
    }
  }

  lemma {:induction false} NoDeficit(p: Params, s: State, m: nat)
    requires CopiesOk(s)
    ensures SurplusBelow(p, s, m) >= 0
  {
    if m > 0 {
      NoDeficit(p, s, m - 1);
    }
  }

  // In every run with at most n citation workers at a time, however often they are
  // restarted, at most n times the budget of papers are snowballed.
  lemma OvershootIsBounded(p: Params, n: nat, run: seq<Label>)
    requires Exec(p, INIT, run).Some? && AtMost(p, n, run)
    ensures Exec(p, INIT, run).value.spawned <= n * Left(p, 0)
  {
    var s := Exec(p, INIT, run).value;
    var m := AllBelow(s.workers.Keys);
    CommittedRun(p, n, run, m);
    NoDeficit(p, s, m);
    TimesIsProduct(Left(p, 0), n);
  }

  // ---------- The bound is reached ----------

  // n citation handlers run at once, each having read the count before any paper was
  // created. Their workers have the even ids.
  ghost predicate Crowd(s: State, n: nat) {
    && Tidy(s) && s.now == 0.0 && s.spawned == 0
    && (forall w :: w in s.workers ==> w < 2 * n)
    && (forall k :: 0 <= k < n ==> 2 * k in s.workers && Ready(s, 2 * k))
    && (forall w :: w in s.workers && s.workers[w].stage.CitationsExtracted? ==> w % 2 == 0)
    && (forall j :: 0 <= j < |s.jobs| ==> s.jobs[j].status.Succeeded? || IsHeld(s.jobs[j]))
  }

  predicate Ready(s: State, w: WorkerId) {
    Running(s, w) && s.workers[w].phase.progress == Counted(0) && s.workers[w].stage.CitationsExtracted?
  }

  predicate IsHeld(job: Job) {
    job.status.InProgress? && job.lockedAt == Some(0.0)
  }

  // The same with one more citation job, which nobody has claimed yet.
  ghost predicate CrowdPlus(p: Params, s: State, n: nat, j: JobId) {
    && Tidy(s) && s.now == 0.0 && s.spawned == 0 && j == |s.jobs| - 1 && 0 <= j
    && (forall w :: w in s.workers ==> w < 2 * n || w == 2 * n + 1)
    && (forall k :: 0 <= k < n ==> 2 * k in s.workers && Ready(s, 2 * k))
    && (forall w :: w in s.workers && s.workers[w].stage.CitationsExtracted? ==> w % 2 == 0)
    && s.jobs[j] == NewJob(s.jobs[j].paper, CitationsExtracted, 0, p.maxAttempts, 0.0)
    && (forall u :: 0 <= u < j ==> s.jobs[u].status.Succeeded? || IsHeld(s.jobs[u]))
  }

  lemma QueuedIsPlus(p: Params, s: State, t: State, n: nat, j: JobId)
    requires Crowd(s, n) && Tidy(t) && t.now == s.now && t.spawned == s.spawned && |s.papers| <= |t.papers|
    requires j == |t.jobs| - 1 && |s.jobs| <= j && s.jobs <= t.jobs
    requires t.jobs[j] == NewJob(|s.papers|, CitationsExtracted, 0, p.maxAttempts, s.now)
    requires forall u :: |s.jobs| <= u < j ==> t.jobs[u].status.Succeeded?
    requires t.workers == s.workers ||
      (2 * n + 1 in t.workers && t.workers == s.workers[2 * n + 1 := t.workers[2 * n + 1]]
       && !t.workers[2 * n + 1].stage.CitationsExtracted?)
    ensures CrowdPlus(p, t, n, j)
  {
    forall k | 0 <= k < n ensures 2 * k in t.workers && Ready(t, 2 * k) {
      assert Ready(s, 2 * k);
    }
  }

  lemma CrowdQueues(p: Params, s: State, n: nat) returns (t: State, j: JobId)
    requires p.Valid() && p.batch(Ingested) >= 1 && p.lease >= 0.0 && Reachable(p, s) && Crowd(s, n)
    ensures Reachable(p, t) && CrowdPlus(p, t, n, j)
  {
    t, j := AddJob(p, s, CitationsExtracted, 2 * n + 1);
    QueuedIsPlus(p, s, t, n, j);
  }

  lemma CountNow(p: Params, s: State, w: WorkerId) returns (t: State)
    requires Reachable(p, s) && Tidy(s) && Runs(s, w, Begun) && s.workers[w].stage.CitationsExtracted?
    ensures Reachable(p, t) && Tidy(t)
    ensures t == s.(workers := s.workers[w := WithProgress(s.workers[w], Counted(s.spawned))])
  {
    ReachStep(p, s, CountSnowballed(w));
    t := Apply(p, s, CountSnowballed(w));
  }

  lemma CountedIsCrowd(p: Params, s: State, t: State, n: nat, j: JobId)
    requires CrowdPlus(p, s, n, j) && Tidy(t) && t.now == 0.0 && t.papers == s.papers && t.spawned == 0
    requires t.workers == s.workers[2 * n := Worker(CitationsExtracted, Handling([j], 0, 0.0, 0.0, Counted(0)))]
    requires t.jobs == s.jobs[j := Locked(s.jobs[j], 2 * n, 0.0)]
    ensures Crowd(t, n + 1)
  {
    forall k | 0 <= k < n + 1 ensures 2 * k in t.workers && Ready(t, 2 * k) {
      if k < n {
        assert Ready(s, 2 * k);
      }
    }
  }

  // One more worker claims that job and reads the count.
  lemma CrowdJoins(p: Params, s: State, n: nat, j: JobId) returns (t: State)
    requires Reachable(p, s) && CrowdPlus(p, s, n, j) && p.batch(CitationsExtracted) >= 1 && p.lease >= 0.0
    ensures Reachable(p, t) && Crowd(t, n + 1)
  {
    var claimed := OnlyClaim(p, s, 2 * n, CitationsExtracted, j);
    t := CountNow(p, claimed, 2 * n);
    assert t.workers == s.workers[2 * n := t.workers[2 * n]];
    CountedIsCrowd(p, s, t, n, j);
  }

  lemma {:induction false} ReachCrowd(p: Params, n: nat) returns (s: State)
    requires p.Valid() && p.batch(CitationsExtracted) >= 1 && p.batch(Ingested) >= 1 && p.lease >= 0.0
    ensures Reachable(p, s) && Crowd(s, n)
    decreases n
  {
    if n == 0 {
      ReachInit(p);
      s := INIT;
    } else {
      var before := ReachCrowd(p, n - 1);
      var queued, j := CrowdQueues(p, before, n - 1);
      s := CrowdJoins(p, queued, n - 1, j);
    }
  }

  // The handler creates k papers, which its own copy of the count allows.
  lemma {:induction false} CreateMany(p: Params, s: State, w: WorkerId, k: nat) returns (t: State)
    requires Reachable(p, s) && Running(s, w)
    requires s.workers[w].phase.progress.Counted?
    requires k > 0 ==> s.workers[w].phase.progress.spawned + k <= p.budget
    ensures Reachable(p, t) && t.spawned == s.spawned + k && t.workers.Keys == s.workers.Keys
    ensures forall v :: v in s.workers && v != w ==> t.workers[v] == s.workers[v]
    ensures forall v :: v in s.workers ==> t.workers[v].stage == s.workers[v].stage
    ensures s.jobs <= t.jobs && |s.papers| <= |t.papers|
    decreases k
  {
    if k == 0 {
      t := s;
    } else {
      ReachStep(p, s, Spawn(w));
      var next := Apply(p, s, Spawn(w));
      t := CreateMany(p, next, w, k - 1);
    }
  }

  // The first k of them have created all that their copies allow.
  lemma {:induction false} AllCreate(p: Params, s: State, n: nat, k: nat) returns (t: State)
    requires Reachable(p, s) && Crowd(s, n) && k <= n
    ensures Reachable(p, t) && t.spawned == Times(k, Left(p, 0)) && t.workers.Keys == s.workers.Keys
    ensures forall v :: v in s.workers ==> t.workers[v].stage == s.workers[v].stage
    ensures forall i :: k <= i < n ==> Ready(t, 2 * i)
    decreases k
  {
    if k == 0 {
      t := s;
    } else {
      var before := AllCreate(p, s, n, k - 1);
      assert Ready(before, 2 * (k - 1));
      t := CreateMany(p, before, 2 * (k - 1), Left(p, 0));
      forall i | k <= i < n ensures Ready(t, 2 * i) {
        assert Ready(before, 2 * i);
      }
    }
  }

  // Citation workers ever started.
  function AllCitation(s: State): set<WorkerId> {
    set w | w in s.workers && s.workers[w].stage.CitationsExtracted?
  }

  lemma {:induction false} FewStarted(p: Params, n: nat, run: seq<Label>)
    requires Exec(p, INIT, run).Some? && |AllCitation(Exec(p, INIT, run).value)| <= n
    ensures AtMost(p, n, run)
  {
    var s := Exec(p, INIT, run).value;
    SubsetCount(LiveCitation(s), AllCitation(s));
    if run != [] {
      var front, l := run[..|run| - 1], run[|run| - 1];
      var before := Exec(p, INIT, front).value;
      CitationWorkersStay(p, before, l);
      SubsetCount(AllCitation(before), AllCitation(s));
      FewStarted(p, n, front);
    }
  }

  lemma CitationWorkersStay(p: Params, s: State, l: Label)
    requires Enabled(p, s, l)
    ensures AllCitation(s) <= AllCitation(Apply(p, s, l))
  {
    forall w | w in AllCitation(s) ensures w in AllCitation(Apply(p, s, l)) {
      assert w in Apply(p, s, l).workers && Apply(p, s, l).workers[w].stage == s.workers[w].stage;
    }
  }

  function Evens(n: nat): set<WorkerId> {
    set k | 0 <= k < n :: 2 * k
  }

  lemma {:induction false} EvensCount(n: nat)
    ensures |Evens(n)| == n
  {
    if n > 0 {
      EvensCount(n - 1);
      assert Evens(n) == Evens(n - 1) + {2 * (n - 1)};
    }
  }

  lemma CrowdIsSmall(s: State, t: State, n: nat)
    requires Crowd(s, n) && t.workers.Keys == s.workers.Keys
    requires forall v :: v in s.workers ==> t.workers[v].stage == s.workers[v].stage
    ensures |AllCitation(t)| <= n
  {
    forall w | w in AllCitation(t) ensures w in Evens(n) {
      assert w == 2 * (w / 2);
    }
    SubsetCount(AllCitation(t), Evens(n));
    EvensCount(n);
  }

  // For every n that many citation workers can reach that many times the budget.
  lemma OvershootIsReached(p: Params, n: nat) returns (run: seq<Label>)
    requires p.Valid() && p.batch(CitationsExtracted) >= 1 && p.batch(Ingested) >= 1 && p.lease >= 0.0
    ensures Exec(p, INIT, run).Some? && AtMost(p, n, run)
    ensures Exec(p, INIT, run).value.spawned == n * Left(p, 0)
  {
    var s := ReachCrowd(p, n);
    var t := AllCreate(p, s, n, n);
    run :| Exec(p, INIT, run) == Some(t);
    CrowdIsSmall(s, t, n);
    FewStarted(p, n, run);
    TimesIsProduct(n, Left(p, 0));
  }

  ghost predicate BudgetKept(p: Params, n: nat) {
    forall run :: Exec(p, INIT, run).Some? && AtMost(p, n, run) ==> Exec(p, INIT, run).value.spawned <= Left(p, 0)
  }

  // The budget is kept in every run with at most n citation workers at a time if and only
  // if n is at most one or the budget allows no paper at all.
  lemma BudgetKeptIffOneWorker(p: Params, n: nat)
    requires p.Valid() && p.batch(CitationsExtracted) >= 1 && p.batch(Ingested) >= 1 && p.lease >= 0.0
    ensures BudgetKept(p, n) <==> n <= 1 || p.budget <= 0
  {
    if n <= 1 || p.budget <= 0 {
      forall run | Exec(p, INIT, run).Some? && AtMost(p, n, run)
        ensures Exec(p, INIT, run).value.spawned <= Left(p, 0)
      {
        OvershootIsBounded(p, n, run);
      }
    } else {
      var run := OvershootIsReached(p, n);
      assert n * Left(p, 0) >= 2 * Left(p, 0);
    }
  }
}
