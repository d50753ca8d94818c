/** Claim transactions that overlap, for any parameters: no lease premise is needed. */
module Claims {
  import opened Wrappers
  import opened Stages
  import opened Jobs
  import opened Pipeline

  // No row is locked by two open claim transactions, and every locked row exists and is
  // one a claim may take: pending or in progress.
  ghost predicate LocksApart(s: State) {
    && (forall w: WorkerId, v: WorkerId, j: JobId :: RowLocked(s, w, j) && RowLocked(s, v, j) ==> w == v)
    && (forall w: WorkerId, j: JobId :: RowLocked(s, w, j) ==> j < |s.jobs| && Takeable(s.jobs[j]))
  }

  predicate Takeable(job: Job) {
    job.status.Pending? || job.status.InProgress?
  }

  // While a claim transaction is open nobody changes the rows it has selected.
  lemma LockedRowStays(p: Params, s: State, l: Label, w: WorkerId, j: JobId)
    requires LocksApart(s) && Enabled(p, s, l) && RowLocked(s, w, j) && l != Commit(w)
    ensures j < |Apply(p, s, l).jobs| && Apply(p, s, l).jobs[j] == s.jobs[j]
  {
    if l.Commit? {
      assert !RowLocked(s, l.w, j);
    } else if l.Record? {
      assert LockedByAny(s, j);
    }
  }

  // A row locked after the step was locked before it, or has just been selected while no
  // other open transaction had it.
  lemma LockedBefore(p: Params, s: State, l: Label, w: WorkerId, j: JobId)
    requires LocksApart(s) && Enabled(p, s, l) && RowLocked(Apply(p, s, l), w, j)
    ensures j < |Apply(p, s, l).jobs| && Takeable(Apply(p, s, l).jobs[j])
    ensures RowLocked(s, w, j) || (l.Select? && l.w == w && forall v :: !RowLocked(s, v, j))
  {
    if l.Select? && l.w == w {
      assert Available(s.jobs, LockedByClaims(s), s.workers[w].stage, s.workers[w].phase.began, p.lease, j);
      forall v ensures !RowLocked(s, v, j) {
        assert RowLocked(s, v, j) ==> LockedByAny(s, j);
      }
    } else {
      assert RowLocked(s, w, j);
      LockedRowStays(p, s, l, w, j);
    }
  }

  lemma LocksApartStep(p: Params, s: State, l: Label)
    requires LocksApart(s) && Enabled(p, s, l)
    ensures LocksApart(Apply(p, s, l))
  {
    var t := Apply(p, s, l);
    forall w: WorkerId, j: JobId | RowLocked(t, w, j) ensures j < |t.jobs| && Takeable(t.jobs[j]) {
      LockedBefore(p, s, l, w, j);
    }
    forall w: WorkerId, v: WorkerId, j: JobId | RowLocked(t, w, j) && RowLocked(t, v, j) ensures w == v {
      LockedBefore(p, s, l, w, j);
      LockedBefore(p, s, l, v, j);
    }
  }

  // In every run, claim transactions open at the same time have selected disjoint rows.
  lemma {:induction false} OverlappingClaimsAreDisjoint(p: Params, run: seq<Label>)
    requires Exec(p, INIT, run).Some?
    ensures LocksApart(Exec(p, INIT, run).value)
  {
    if run == [] {
    } else {
      OverlappingClaimsAreDisjoint(p, run[..|run| - 1]);
      LocksApartStep(p, Exec(p, INIT, run[..|run| - 1]).value, run[|run| - 1]);
    }
  }

  // The step leaves the worker's claim transaction open.
  predicate LeavesOpen(w: WorkerId, l: Label) {
    l != Commit(w) && l != ClaimFails(w) && l != Crash(w)
  }

  lemma OpenStep(p: Params, s: State, l: Label, w: WorkerId, j: JobId)
    requires LocksApart(s) && Enabled(p, s, l) && RowLocked(s, w, j) && LeavesOpen(w, l)
    ensures var t := Apply(p, s, l); RowLocked(t, w, j) && j < |t.jobs| && t.jobs[j] == s.jobs[j]
  {
    LockedRowStays(p, s, l, w, j);
  }

  lemma OpenOneMore(p: Params, run: seq<Label>, l: Label, w: WorkerId, j: JobId)
    requires Exec(p, INIT, run).Some? && Exec(p, INIT, run + [l]).Some? && LeavesOpen(w, l)
    requires RowLocked(Exec(p, INIT, run).value, w, j)
    ensures var s, t := Exec(p, INIT, run).value, Exec(p, INIT, run + [l]).value;
      RowLocked(t, w, j) && j < |s.jobs| && j < |t.jobs| && t.jobs[j] == s.jobs[j]
  {
    ExecStep(p, INIT, run, l);
    OverlappingClaimsAreDisjoint(p, run);
    OpenStep(p, Exec(p, INIT, run).value, l, w, j);
  }

  // From its selection until its transaction ends, however long the run in between, a
  // selected row stays locked and nobody changes it: what the claim takes is what it saw,
  // a pending job or one in progress.
  lemma {:induction false} SelectedRowsStay(p: Params, run: seq<Label>, more: seq<Label>, w: WorkerId, j: JobId)
    requires Exec(p, INIT, run).Some? && Exec(p, INIT, run + more).Some?
    requires forall l :: l in more ==> LeavesOpen(w, l)
    requires RowLocked(Exec(p, INIT, run).value, w, j)
    ensures var s, t := Exec(p, INIT, run).value, Exec(p, INIT, run + more).value;
      && RowLocked(t, w, j) && j < |s.jobs| && j < |t.jobs|
      && t.jobs[j] == s.jobs[j] && Takeable(s.jobs[j])
  {
    OverlappingClaimsAreDisjoint(p, run);
    if more == [] {
      assert run + more == run;
    } else {
      var front, l := more[..|more| - 1], more[|more| - 1];
      assert more == front + [l] && run + more == (run + front) + [l];
      ExecStep(p, INIT, run + front, l);
      SelectedRowsStay(p, run, front, w, j);
      OpenOneMore(p, run + front, l, w, j);
    }
  }
}
