/**
 * Who holds which row. The facts here hold along every run in which no claim takes a row
 * that some worker still holds; Lease.dfy says when that is so.
 */
module Ownership {
  import opened Wrappers
  import opened Stages
  import opened Jobs
  import opened Pipeline

  // What is true of every row, whoever touches it next.
  predicate RowOk(p: Params, job: Job) {
    && job.maxAttempts == p.maxAttempts
    && job.attempts <= job.maxAttempts
    && (job.status.Pending? || job.status.InProgress? ==> job.attempts < job.maxAttempts)
    && (job.status.Failed? ==> job.attempts == job.maxAttempts)
    && (job.status.Pending? ==> job.lockedBy.None? && job.lockedAt.None?)
    && (job.status.InProgress? ==> job.lockedBy.Some? && job.lockedAt.Some?)
    && (job.completedAt.Some? <==> job.status.Succeeded? || job.status.Failed?)
    && JobStage(job.stage)
  }

  ghost predicate RowsOk(p: Params, s: State) {
    && (forall j :: 0 <= j < |s.jobs| ==> RowOk(p, s.jobs[j]))
    && (forall j :: 0 <= j < |s.jobs| ==> s.jobs[j].paper < |s.papers|)
  }

  // A held row is in progress under its holder's name, with the batch's lock time.
  predicate HeldRowOk(s: State, w: WorkerId, j: JobId)
    requires w in s.workers
  {
    var ph := s.workers[w].phase;
    && j < |s.jobs| && (ph.Handling? || ph.Recording?)
    && s.jobs[j].status.InProgress?
    && s.jobs[j].lockedBy == Some(w)
    && s.jobs[j].lockedAt == Some(ph.lockedAt)
    && s.jobs[j].stage == s.workers[w].stage
  }

  predicate LockedRowOk(p: Params, s: State, w: WorkerId, j: JobId)
    requires w in s.workers
  {
    var ph := s.workers[w].phase;
    && j < |s.jobs| && ph.Selected?
    && Claimable(s.jobs[j], s.workers[w].stage, ph.began, p.lease)
  }

  ghost predicate PhaseOk(p: Params, s: State, w: WorkerId)
    requires w in s.workers
  {
    var ph := s.workers[w].phase;
    && JobStage(s.workers[w].stage)
    && (ph.Selected? ==> Distinct(ph.rows) && |ph.rows| <= p.batch(s.workers[w].stage))
    && (ph.Handling? || ph.Recording? ==>
          ph.at < |ph.batch| <= p.batch(s.workers[w].stage) && Distinct(ph.batch))
    && (ph.Recording? && ph.outcome.FailureRead? && ph.at < |ph.batch| && ph.batch[ph.at] < |s.jobs| ==>
          ph.outcome.attempts == s.jobs[ph.batch[ph.at]].attempts && ph.outcome.max == p.maxAttempts)
  }

  ghost predicate OwnInv(p: Params, s: State) {
    && RowsOk(p, s)
    && (forall w :: w in s.workers ==> PhaseOk(p, s, w))
    && (forall w: WorkerId, j: JobId :: Holds(s, w, j) ==> HeldRowOk(s, w, j))
    && (forall w: WorkerId, j: JobId :: RowLocked(s, w, j) ==> LockedRowOk(p, s, w, j))
    && (forall w: WorkerId, v: WorkerId, j: JobId :: RowLocked(s, w, j) && RowLocked(s, v, j) ==> w == v)
    && (forall w: WorkerId, v: WorkerId, j: JobId :: RowLocked(s, w, j) ==> !Holds(s, v, j))
  }

  // A claim takes no row that some worker is running or has waiting.
  ghost predicate Clean(s: State, l: Label) {
    l.Select? ==> forall j: JobId, v: WorkerId :: j in l.rows ==> !Holds(s, v, j)
  }

  // No row is held by two workers, and a held row is in progress under its holder's name.
  ghost predicate Exclusive(s: State) {
    && (forall w: WorkerId, v: WorkerId, j: JobId :: Holds(s, w, j) && Holds(s, v, j) ==> w == v)
    && (forall w: WorkerId, j: JobId :: Holds(s, w, j) ==>
          j < |s.jobs| && s.jobs[j].status.InProgress? && s.jobs[j].lockedBy == Some(w))
  }

  lemma OwnExclusive(p: Params, s: State)
    requires OwnInv(p, s)
    ensures Exclusive(s)
  {
  }

  // ---------- One step ----------

  // A step that gives worker `w` the phase it has in `t` and changes only rows that no
  // other worker holds or has locked keeps ownership for everyone else.
  lemma OwnFrame(p: Params, s: State, t: State, w: WorkerId)
    requires OwnInv(p, s) && w in s.workers && w in t.workers
    requires t.workers == s.workers[w := t.workers[w]]
    requires |s.jobs| <= |t.jobs|
    requires forall v: WorkerId, j: JobId :: v != w && (Holds(s, v, j) || RowLocked(s, v, j)) ==> t.jobs[j] == s.jobs[j]
    requires RowsOk(p, t) && PhaseOk(p, t, w)
    requires forall j: JobId :: Holds(t, w, j) ==> HeldRowOk(t, w, j)
    requires forall j: JobId :: RowLocked(t, w, j) ==> LockedRowOk(p, t, w, j)
    requires forall v: WorkerId, j: JobId :: v != w && RowLocked(t, w, j) ==> !RowLocked(s, v, j) && !Holds(s, v, j)
    requires forall v: WorkerId, j: JobId :: v != w && Holds(t, w, j) ==> !RowLocked(s, v, j)
    ensures OwnInv(p, t)
  {
    forall v | v in t.workers && v != w
      ensures PhaseOk(p, t, v)
    {
      assert PhaseOk(p, s, v);
      var ph := s.workers[v].phase;
      if ph.Recording? && ph.at < |ph.batch| && ph.batch[ph.at] < |t.jobs| {
        assert ph.batch[ph.at] == HeldRows(ph)[0];
        assert Holds(s, v, ph.batch[ph.at]);
      }
    }
    forall v: WorkerId, j: JobId | v != w && Holds(t, v, j) ensures HeldRowOk(t, v, j) && Holds(s, v, j) {
      assert Holds(s, v, j);
      assert HeldRowOk(s, v, j);
    }
    forall v: WorkerId, j: JobId | v != w && RowLocked(t, v, j) ensures LockedRowOk(p, t, v, j) && RowLocked(s, v, j) {
      assert RowLocked(s, v, j);
      assert LockedRowOk(p, s, v, j);
    }
    forall u: WorkerId, v: WorkerId, j: JobId | RowLocked(t, u, j) ensures !Holds(t, v, j) {
      if u == w && v == w {
      } else if u == w {
      } else if v == w {
      } else {
        assert RowLocked(s, u, j) && !Holds(s, v, j);
      }
    }
  }

  // Enqueueing only adds a row, or nothing.
  lemma EnqueuedRows(p: Params, s: State, paper: PaperId, stage: Stage, priority: int, t: State)
    requires RowsOk(p, s) && p.Valid() && JobStage(stage) && |s.papers| <= |t.papers| && paper < |t.papers|
    requires t.jobs == Enqueued(s.jobs, paper, stage, priority, p.maxAttempts, s.now)
    ensures |s.jobs| <= |t.jobs| <= |s.jobs| + 1
    ensures forall j :: 0 <= j < |s.jobs| ==> t.jobs[j] == s.jobs[j]
    ensures RowsOk(p, t)
  {
  }

  // Steps that leave every row alone and only move worker `w` within its batch or to polling.
  lemma OwnSamePhaseRows(p: Params, s: State, t: State, w: WorkerId)
    requires OwnInv(p, s) && w in s.workers && w in t.workers
    requires t.workers == s.workers[w := t.workers[w]]
    requires t.jobs == s.jobs && |t.papers| == |s.papers|
    requires PhaseOk(p, t, w)
    requires LockedRows(t.workers[w].phase) == []
    requires forall j: JobId :: Holds(t, w, j) ==>
               && Holds(s, w, j) && t.workers[w].stage == s.workers[w].stage
               && (t.workers[w].phase.Handling? || t.workers[w].phase.Recording?)
               && (s.workers[w].phase.Handling? || s.workers[w].phase.Recording?)
               && t.workers[w].phase.lockedAt == s.workers[w].phase.lockedAt
    ensures OwnInv(p, t)
  {
    forall j: JobId | Holds(t, w, j) ensures HeldRowOk(t, w, j) {
      assert HeldRowOk(s, w, j);
    }
    forall v: WorkerId, j: JobId | v != w && Holds(t, w, j) ensures !RowLocked(s, v, j) {
      assert Holds(s, w, j);
    }
    OwnFrame(p, s, t, w);
  }

  // Steps that move no worker and leave alone every row some worker holds or has locked.
  lemma OwnSameWorkers(p: Params, s: State, t: State)
    requires OwnInv(p, s) && t.workers == s.workers && |s.jobs| <= |t.jobs| && RowsOk(p, t)
    requires forall v: WorkerId, j: JobId :: Holds(s, v, j) || RowLocked(s, v, j) ==>
               j < |s.jobs| && t.jobs[j] == s.jobs[j]
    ensures OwnInv(p, t)
  {
    forall w | w in t.workers ensures PhaseOk(p, t, w) {
      assert PhaseOk(p, s, w);
      var ph := s.workers[w].phase;
      if ph.Recording? && ph.at < |ph.batch| && ph.batch[ph.at] < |t.jobs| {
        assert ph.batch[ph.at] == HeldRows(ph)[0];
        assert Holds(s, w, ph.batch[ph.at]);
      }
    }
    forall w: WorkerId, j: JobId | Holds(t, w, j) ensures HeldRowOk(t, w, j) {
      assert Holds(s, w, j) && HeldRowOk(s, w, j);
    }
    forall w: WorkerId, j: JobId | RowLocked(t, w, j) ensures LockedRowOk(p, t, w, j) {
      assert RowLocked(s, w, j) && LockedRowOk(p, s, w, j);
    }
    forall w: WorkerId, v: WorkerId, j: JobId | RowLocked(t, w, j) && RowLocked(t, v, j) ensures w == v {
      assert RowLocked(s, w, j) && RowLocked(s, v, j);
    }
    forall w: WorkerId, v: WorkerId, j: JobId | RowLocked(t, w, j) ensures !Holds(t, v, j) {
      assert RowLocked(s, w, j) && !Holds(s, v, j);
    }
  }

  lemma OwnSelect(p: Params, s: State, w: WorkerId, rows: seq<JobId>)
    requires OwnInv(p, s) && Enabled(p, s, Select(w, rows)) && Clean(s, Select(w, rows))
    ensures OwnInv(p, Apply(p, s, Select(w, rows)))
  {
    var t := Apply(p, s, Select(w, rows));
    forall v: WorkerId, j: JobId | v != w && RowLocked(t, w, j)
      ensures !RowLocked(s, v, j) && !Holds(s, v, j)
    {
      assert j in rows;
      assert Available(s.jobs, LockedByClaims(s), s.workers[w].stage, s.workers[w].phase.began, p.lease, j);
      if RowLocked(s, v, j) {
        assert LockedByAny(s, j);
      }
    }
    forall j: JobId | RowLocked(t, w, j) ensures LockedRowOk(p, t, w, j) {
      assert j in rows;
      assert Available(s.jobs, LockedByClaims(s), s.workers[w].stage, s.workers[w].phase.began, p.lease, j);
    }
    OwnFrame(p, s, t, w);
  }

  lemma OwnCommit(p: Params, s: State, w: WorkerId)
    requires OwnInv(p, s) && Enabled(p, s, Commit(w))
    ensures OwnInv(p, Apply(p, s, Commit(w)))
  {
    var t := Apply(p, s, Commit(w));
    var rows := s.workers[w].phase.rows;
    forall j | 0 <= j < |t.jobs| ensures RowOk(p, t.jobs[j]) {
      assert RowOk(p, s.jobs[j]);
      if j in rows {
        assert RowLocked(s, w, j) && LockedRowOk(p, s, w, j);
      }
    }
    forall v: WorkerId, j: JobId | v != w && (Holds(s, v, j) || RowLocked(s, v, j)) ensures t.jobs[j] == s.jobs[j] {
      assert j in rows ==> RowLocked(s, w, j);
      assert Holds(s, v, j) ==> HeldRowOk(s, v, j);
      assert RowLocked(s, v, j) ==> LockedRowOk(p, s, v, j);
    }
    assert rows[0..] == rows;
    forall j: JobId | Holds(t, w, j) ensures j in rows && HeldRowOk(t, w, j) {
      assert RowLocked(s, w, j) && LockedRowOk(p, s, w, j);
    }
    forall v: WorkerId, j: JobId | v != w && Holds(t, w, j) ensures !RowLocked(s, v, j) {
      assert RowLocked(s, w, j);
    }
    OwnFrame(p, s, t, w);
  }

  lemma HoldsCurrent(s: State, w: WorkerId)
    requires w in s.workers && AtJob(s, s.workers[w].phase)
    ensures Holds(s, w, Current(s, s.workers[w].phase))
  {
  }

  // After the current job, what a worker holds is the rest of its batch.
  lemma AdvanceHolds(s: State, t: State, w: WorkerId)
    requires w in s.workers && s.workers[w].phase.Recording? && AtJob(s, s.workers[w].phase)
    requires Distinct(s.workers[w].phase.batch)
    requires w in t.workers && t.workers[w].phase == Advance(s.workers[w].phase, s.now)
    ensures forall j: JobId :: Holds(t, w, j) ==> Holds(s, w, j) && j != Current(s, s.workers[w].phase)
  {
  }

  lemma RecordedRowOk(p: Params, job: Job, outcome: Outcome, now: real, jitter: real)
    requires RowOk(p, job) && job.status.InProgress? && !outcome.Failing?
    requires outcome.FailureRead? ==> outcome.attempts == job.attempts && outcome.max == p.maxAttempts
    ensures RowOk(p, RecordedRow(job, outcome, now, jitter))
  {
  }

  lemma OwnRecord(p: Params, s: State, w: WorkerId, jitter: real)
    requires OwnInv(p, s) && Enabled(p, s, Record(w, jitter))
    ensures OwnInv(p, Apply(p, s, Record(w, jitter)))
  {
    var t := Apply(p, s, Record(w, jitter));
    var ph := s.workers[w].phase;
    var c := Current(s, ph);
    HoldsCurrent(s, w);
    AdvanceHolds(s, t, w);
    assert HeldRowOk(s, w, c);
    assert PhaseOk(p, s, w);
    RecordedRowOk(p, s.jobs[c], ph.outcome, s.now, jitter);
    forall v: WorkerId, j: JobId | v != w && (Holds(s, v, j) || RowLocked(s, v, j)) ensures t.jobs[j] == s.jobs[j] {
      assert Holds(s, v, j) ==> HeldRowOk(s, v, j);
      assert RowLocked(s, v, j) ==> LockedRowOk(p, s, v, j) && !Holds(s, w, j);
    }
    forall j: JobId | Holds(t, w, j) ensures HeldRowOk(t, w, j) {
      assert HeldRowOk(s, w, j);
    }
    forall v: WorkerId, j: JobId | v != w && Holds(t, w, j) ensures !RowLocked(s, v, j) {
      assert Holds(s, w, j);
    }
    OwnFrame(p, s, t, w);
  }

  lemma OwnAdvance(p: Params, s: State, w: WorkerId)
    requires OwnInv(p, s) && Enabled(p, s, RecordErrors(w))
    ensures OwnInv(p, Apply(p, s, RecordErrors(w)))
  {
    var t := Apply(p, s, RecordErrors(w));
    assert PhaseOk(p, s, w);
    AdvanceHolds(s, t, w);
    OwnSamePhaseRows(p, s, t, w);
  }

  lemma OwnEnqueueNext(p: Params, s: State, w: WorkerId)
    requires p.Valid() && OwnInv(p, s) && Enabled(p, s, EnqueueNext(w))
    ensures OwnInv(p, Apply(p, s, EnqueueNext(w)))
  {
    var t := Apply(p, s, EnqueueNext(w));
    var job := s.jobs[Current(s, s.workers[w].phase)];
    EnqueuedRows(p, s, job.paper, NextJobStage(job.stage).value, 0, t);
    var mid := s.(jobs := t.jobs);
    forall v: WorkerId, j: JobId | Holds(s, v, j) || RowLocked(s, v, j) ensures j < |s.jobs| {
      assert Holds(s, v, j) ==> HeldRowOk(s, v, j);
      assert RowLocked(s, v, j) ==> LockedRowOk(p, s, v, j);
    }
    OwnSameWorkers(p, s, mid);
    assert PhaseOk(p, mid, w);
    OwnSamePhaseRows(p, mid, t, w);
  }

  lemma OwnRetry(p: Params, s: State, ids: set<JobId>)
    requires p.Valid() && OwnInv(p, s) && Enabled(p, s, Retry(ids))
    ensures OwnInv(p, Apply(p, s, Retry(ids)))
  {
    var t := Apply(p, s, Retry(ids));
    forall v: WorkerId, j: JobId | Holds(s, v, j) || RowLocked(s, v, j)
      ensures j < |s.jobs| && t.jobs[j] == s.jobs[j]
    {
      assert Holds(s, v, j) ==> HeldRowOk(s, v, j);
      assert RowLocked(s, v, j) ==> LockedRowOk(p, s, v, j);
    }
    OwnSameWorkers(p, s, t);
  }

  lemma OwnCreate(p: Params, s: State, t: State, paper: PaperId, stage: Stage, priority: int)
    requires p.Valid() && OwnInv(p, s) && JobStage(stage)
    requires t.workers == s.workers && |s.papers| <= |t.papers| && paper < |t.papers|
    requires t.jobs == Enqueued(s.jobs, paper, stage, priority, p.maxAttempts, s.now)
    ensures OwnInv(p, t)
  {
    EnqueuedRows(p, s, paper, stage, priority, t);
    forall v: WorkerId, j: JobId | Holds(s, v, j) || RowLocked(s, v, j) ensures j < |s.jobs| {
      assert Holds(s, v, j) ==> HeldRowOk(s, v, j);
      assert RowLocked(s, v, j) ==> LockedRowOk(p, s, v, j);
    }
    OwnSameWorkers(p, s, t);
  }

  lemma OwnSpawn(p: Params, s: State, w: WorkerId)
    requires p.Valid() && OwnInv(p, s) && Enabled(p, s, Spawn(w))
    ensures OwnInv(p, Apply(p, s, Spawn(w)))
  {
    var t := Apply(p, s, Spawn(w));
    var mid := t.(workers := s.workers);
    OwnCreate(p, s, mid, |s.papers|, Resolved, 0);
    assert PhaseOk(p, mid, w);
    OwnSamePhaseRows(p, mid, t, w);
  }

  lemma OwnStart(p: Params, s: State, w: WorkerId, stage: Stage)
    requires OwnInv(p, s) && Enabled(p, s, StartWorker(w, stage))
    ensures OwnInv(p, Apply(p, s, StartWorker(w, stage)))
  {
    var t := Apply(p, s, StartWorker(w, stage));
    forall v: WorkerId, j: JobId | Holds(t, v, j) ensures HeldRowOk(t, v, j) && Holds(s, v, j) {
      assert Holds(s, v, j) && HeldRowOk(s, v, j);
    }
    forall v: WorkerId, j: JobId | RowLocked(t, v, j) ensures LockedRowOk(p, t, v, j) && RowLocked(s, v, j) {
      assert RowLocked(s, v, j) && LockedRowOk(p, s, v, j);
    }
    forall v | v in t.workers ensures PhaseOk(p, t, v) {
      if v != w {
        assert PhaseOk(p, s, v);
      }
    }
  }

  // The ordinary steps inside a worker: no row changes and the held rows stay held, or all go.
  predicate WithinWorker(l: Label) {
    l.Crash? || l.BeginClaim? || l.ClaimFails? || l.WriteStage? || l.WriteTerminal?
    || l.CountSnowballed? || l.HandlerEnds? || l.CompleteErrors? || l.ReadFailure?
  }

  lemma OwnWithin(p: Params, s: State, l: Label)
    requires OwnInv(p, s) && Enabled(p, s, l) && WithinWorker(l)
    ensures OwnInv(p, Apply(p, s, l))
  {
    var t := Apply(p, s, l);
    assert PhaseOk(p, s, l.w);
    if l.ReadFailure? {
      HoldsCurrent(s, l.w);
      assert HeldRowOk(s, l.w, Current(s, s.workers[l.w].phase));
    }
    OwnSamePhaseRows(p, s, t, l.w);
  }

  lemma OwnStep(p: Params, s: State, l: Label)
    requires p.Valid() && OwnInv(p, s) && Enabled(p, s, l) && Clean(s, l)
    ensures OwnInv(p, Apply(p, s, l))
  {
    if WithinWorker(l) {
      OwnWithin(p, s, l);
    } else {
      var t := Apply(p, s, l);
      match l
      case Tick(_) => OwnSameWorkers(p, s, t);
      case InsertPaper => OwnSameWorkers(p, s, t);
      case StartWorker(w, stage) => OwnStart(p, s, w, stage);
      case Select(w, rows) => OwnSelect(p, s, w, rows);
      case Commit(w) => OwnCommit(p, s, w);
      case EnqueueNext(w) => OwnEnqueueNext(p, s, w);
      case Spawn(w) => OwnSpawn(p, s, w);
      case Record(w, jitter) => OwnRecord(p, s, w, jitter);
      case RecordErrors(w) => OwnAdvance(p, s, w);
      case Create(paper, stage, priority) => OwnCreate(p, s, t, paper, stage, priority);
      case Retry(ids) => OwnRetry(p, s, ids);
    }
  }

  // ---------- Runs in which claims take only rows nobody holds ----------

  ghost predicate CleanRun(p: Params, run: seq<Label>) {
    forall k :: 0 <= k < |run| ==> CleanAt(p, run, k)
  }

  ghost predicate CleanAt(p: Params, run: seq<Label>, k: nat)
    requires k < |run|
  {
    var s := Exec(p, INIT, run[..k]);
    s.Some? && Enabled(p, s.value, run[k]) ==> Clean(s.value, run[k])
  }

  lemma CleanPrefix(p: Params, run: seq<Label>)
    requires run != [] && CleanRun(p, run)
    ensures CleanRun(p, run[..|run| - 1])
    ensures Exec(p, INIT, run).Some? ==>
      var before := Exec(p, INIT, run[..|run| - 1]); before.Some? && Clean(before.value, run[|run| - 1])
  {
    var front := run[..|run| - 1];
    forall k | 0 <= k < |front| ensures CleanAt(p, front, k) {
      assert CleanAt(p, run, k);
      assert front[..k] == run[..k];
    }
    assert CleanAt(p, run, |run| - 1);
    ExecLast(p, INIT, run);
  }

  lemma {:induction false} CleanRunOwns(p: Params, run: seq<Label>)
    requires p.Valid() && CleanRun(p, run) && Exec(p, INIT, run).Some?
    ensures OwnInv(p, Exec(p, INIT, run).value)
  {
    if run == [] {
    } else {
      CleanPrefix(p, run);
      CleanRunOwns(p, run[..|run| - 1]);
      OwnStep(p, Exec(p, INIT, run[..|run| - 1]).value, run[|run| - 1]);
    }
  }
}
