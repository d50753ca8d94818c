/**
 * No paper is stranded. Handlers write a paper's stage, enqueue the next job, and only
 * then does the worker complete the current one, so between any two of these steps a
 * crash, a failure or the deadline leaves some job that will still carry the paper on.
 */
module Stranded {
  import opened Wrappers
  import opened Stages
  import opened Jobs
  import opened Pipeline
  import opened Ownership
  import opened Lease

  // A job whose next run is to come, or whose latest run still has its last write to make.
  predicate Live(s: State, j: JobId) {
    && j < |s.jobs|
    && (|| s.jobs[j].status.Pending?
        || ((s.jobs[j].status.InProgress? || s.jobs[j].status.Failed?) && j !in s.finished))
  }

  predicate CarriedBy(s: State, paper: PaperId, j: JobId) {
    Live(s, j) && s.jobs[j].paper == paper
  }

  ghost predicate Attended(s: State, paper: PaperId) {
    paper < |s.papers| && (Terminal(s.papers[paper]) || exists j: JobId :: CarriedBy(s, paper, j))
  }

  // Every paper some job was ever enqueued for is at its end or has a live job.
  ghost predicate NoneStranded(s: State) {
    forall j :: 0 <= j < |s.jobs| ==> Attended(s, s.jobs[j].paper)
  }

  // ---------- What the history set of finished rows means for a worker ----------

  predicate ProgressOk(s: State, ph: Phase) {
    && (ph.Handling? && ph.at < |ph.batch| ==> (ph.progress.Done? <==> ph.batch[ph.at] in s.finished))
    && (ph.Recording? && ph.at < |ph.batch| && ph.outcome.Completing? ==> ph.batch[ph.at] in s.finished)
    && (ph.Handling? || ph.Recording? ==> forall k :: ph.at < k < |ph.batch| ==> ph.batch[k] !in s.finished)
  }

  ghost predicate ProgressInv(s: State) {
    forall w :: w in s.workers ==> ProgressOk(s, s.workers[w].phase)
  }

  // The finished set changed only at rows the worker does not hold.
  lemma ProgressFrame(s: State, t: State, ph: Phase)
    requires ProgressOk(s, ph)
    requires forall j: JobId :: j in HeldRows(ph) ==> (j in s.finished <==> j in t.finished)
    ensures ProgressOk(t, ph)
  {
  }

  // Only committing a claim and making a handler's last write change the finished set,
  // and then only at rows nobody else holds.
  lemma FinishedOfOthers(p: Params, s: State, l: Label, w: WorkerId, j: JobId)
    requires OwnInv(p, s) && Enabled(p, s, l) && Holds(s, w, j)
    requires l.Commit? || l.EnqueueNext? || l.WriteTerminal?
    requires l.w != w
    ensures j in s.finished <==> j in Apply(p, s, l).finished
  {
    OwnExclusive(p, s);
    if l.Commit? {
      assert RowLocked(s, l.w, j) <==> j in s.workers[l.w].phase.rows;
    } else {
      HoldsCurrent(s, l.w);
    }
  }

  lemma ProgressStep(p: Params, s: State, l: Label)
    requires p.Valid() && OwnInv(p, s) && ProgressInv(s) && Enabled(p, s, l)
    ensures ProgressInv(Apply(p, s, l))
  {
    var t := Apply(p, s, l);
    forall w | w in t.workers ensures ProgressOk(t, t.workers[w].phase) {
      if w in s.workers && t.workers[w] == s.workers[w] {
        var ph := s.workers[w].phase;
        forall j: JobId | j in HeldRows(ph) ensures j in s.finished <==> j in t.finished {
          assert Holds(s, w, j);
          if (l.Commit? || l.EnqueueNext? || l.WriteTerminal?) && l.w != w {
            FinishedOfOthers(p, s, l, w, j);
          }
        }
        assert ProgressOk(s, ph);
        ProgressFrame(s, t, ph);
      } else if w in s.workers {
        ProgressOwnStep(p, s, l, w);
      }
    }
  }

  // The worker the step belongs to.
  lemma ProgressOwnStep(p: Params, s: State, l: Label, w: WorkerId)
    requires OwnInv(p, s) && ProgressInv(s) && Enabled(p, s, l)
    requires w in s.workers && w in Apply(p, s, l).workers && Apply(p, s, l).workers[w] != s.workers[w]
    ensures ProgressOk(Apply(p, s, l), Apply(p, s, l).workers[w].phase)
  {
    var t := Apply(p, s, l);
    assert PhaseOk(p, s, w) && ProgressOk(s, s.workers[w].phase);
    if l.Commit? {
      var rows := s.workers[w].phase.rows;
      forall k | 0 <= k < |rows| ensures rows[k] !in t.finished {
        assert rows[k] in Elements(rows);
      }
    }
  }

  // ---------- Live jobs stay live ----------

  // The step is the last write of job j's handler.
  predicate LastWrite(s: State, l: Label, j: JobId) {
    && (l.EnqueueNext? || l.WriteTerminal?)
    && l.w in s.workers && AtJob(s, s.workers[l.w].phase) && Current(s, s.workers[l.w].phase) == j
  }

  lemma LiveStep(p: Params, s: State, l: Label, j: JobId)
    requires p.Valid() && OwnInv(p, s) && ProgressInv(s) && Enabled(p, s, l)
    requires Live(s, j) && !LastWrite(s, l, j)
    ensures Live(Apply(p, s, l), j)
  {
    if l.Record? {
      HoldsCurrent(s, l.w);
      assert HeldRowOk(s, l.w, Current(s, s.workers[l.w].phase));
      assert ProgressOk(s, s.workers[l.w].phase);
    }
  }

  lemma RunningIsLive(p: Params, s: State, w: WorkerId, progress: Progress)
    requires OwnInv(p, s) && ProgressInv(s) && Runs(s, w, progress) && !progress.Done?
    ensures Live(s, Current(s, s.workers[w].phase))
  {
    HoldsCurrent(s, w);
    assert HeldRowOk(s, w, Current(s, s.workers[w].phase));
    assert ProgressOk(s, s.workers[w].phase);
  }

  lemma EnqueuedIsLive(p: Params, s: State, t: State, paper: PaperId, stage: Stage, priority: int)
    requires t.jobs == Enqueued(s.jobs, paper, stage, priority, p.maxAttempts, s.now)
    ensures exists j: JobId :: CarriedBy(t, paper, j)
  {
    if HasPending(s.jobs, paper, stage) {
      var j :| 0 <= j < |s.jobs| && IsPendingFor(s.jobs[j], paper, stage);
      assert CarriedBy(t, paper, j);
    } else {
      assert CarriedBy(t, paper, |s.jobs|);
    }
  }

  // ---------- Papers stay attended ----------

  // Papers whose stage the step leaves alone.
  lemma AttendedFrame(p: Params, s: State, l: Label, paper: PaperId)
    requires p.Valid() && OwnInv(p, s) && ProgressInv(s) && Enabled(p, s, l)
    requires Attended(s, paper)
    requires Apply(p, s, l).papers[paper] == s.papers[paper]
    requires forall j: JobId :: CarriedBy(s, paper, j) ==> !LastWrite(s, l, j)
    ensures Attended(Apply(p, s, l), paper)
  {
    var t := Apply(p, s, l);
    if !Terminal(s.papers[paper]) {
      var j: JobId :| CarriedBy(s, paper, j);
      LiveStep(p, s, l, j);
      assert t.jobs[j].paper == paper;
      assert CarriedBy(t, paper, j);
    }
  }

  lemma AttendedStep(p: Params, s: State, l: Label, paper: PaperId)
    requires p.Valid() && OwnInv(p, s) && ProgressInv(s) && Enabled(p, s, l)
    requires Attended(s, paper)
    ensures Attended(Apply(p, s, l), paper)
  {
    var t := Apply(p, s, l);
    if (l.WriteStage? || l.EnqueueNext? || l.WriteTerminal?) {
      var c := Current(s, s.workers[l.w].phase);
      if s.jobs[c].paper == paper {
        if l.WriteStage? {
          RunningIsLive(p, s, l.w, Begun);
          assert CarriedBy(t, paper, c);
        } else if l.EnqueueNext? {
          EnqueuedIsLive(p, s, t, paper, NextJobStage(s.jobs[c].stage).value, 0);
        }
      } else {
        AttendedFrame(p, s, l, paper);
      }
    } else {
      AttendedFrame(p, s, l, paper);
    }
  }

  // The paper of a row the step adds.
  lemma AddedAttended(p: Params, s: State, l: Label)
    requires p.Valid() && Enabled(p, s, l) && RowsOk(p, Apply(p, s, l))
    requires |Apply(p, s, l).jobs| > |s.jobs|
    ensures |Apply(p, s, l).jobs| == |s.jobs| + 1
    ensures Attended(Apply(p, s, l), Apply(p, s, l).jobs[|s.jobs|].paper)
  {
    var t := Apply(p, s, l);
    assert t.jobs[|s.jobs|].paper < |t.papers|;
    assert CarriedBy(t, t.jobs[|s.jobs|].paper, |s.jobs|);
  }

  lemma NoneStrandedStep(p: Params, s: State, l: Label)
    requires p.Valid() && OwnInv(p, s) && ProgressInv(s) && NoneStranded(s) && Enabled(p, s, l) && Clean(s, l)
    ensures NoneStranded(Apply(p, s, l))
  {
    var t := Apply(p, s, l);
    OwnStep(p, s, l);
    forall j | 0 <= j < |t.jobs| ensures Attended(t, t.jobs[j].paper) {
      if j < |s.jobs| {
        AttendedStep(p, s, l, s.jobs[j].paper);
      } else {
        AddedAttended(p, s, l);
      }
    }
  }

  lemma {:induction false} CleanRunStrandsNobody(p: Params, run: seq<Label>)
    requires p.Valid() && CleanRun(p, run) && Exec(p, INIT, run).Some?
    ensures ProgressInv(Exec(p, INIT, run).value) && NoneStranded(Exec(p, INIT, run).value)
  {
    if run == [] {
    } else {
      var front, l := run[..|run| - 1], run[|run| - 1];
      CleanPrefix(p, run);
      CleanRunStrandsNobody(p, front);
      CleanRunOwns(p, front);
      ProgressStep(p, Exec(p, INIT, front).value, l);
      NoneStrandedStep(p, Exec(p, INIT, front).value, l);
    }
  }

  // Under the lease premise, whatever fails, is cancelled or crashes between any two
  // steps, every paper a job was enqueued for is complete, unresolvable, or has a job
  // that is pending, in progress or failed with its handler's work not yet done.
  lemma NoPaperIsStranded(p: Params, s: State, j: JobId)
    requires p.Valid() && Premise(p) && Reachable(p, s) && j < |s.jobs|
    ensures Attended(s, s.jobs[j].paper)
  {
    var run :| Exec(p, INIT, run) == Some(s);
    PremiseCleanRun(p, run);
    CleanRunStrandsNobody(p, run);
  }
}
