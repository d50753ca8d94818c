/** What the worker's program does with one job is a run of the pipeline's state machine. */
module QueueRuns {
  import opened Wrappers
  import opened Stages
  import opened Jobs
  import opened Pipeline
  import JobQueue

  // The worker's handler has ended and the outcome is being recorded.
  function Ending(s: State, w: WorkerId, outcome: Outcome): State
    requires w in s.workers && s.workers[w].phase.Handling?
  {
    var ph := s.workers[w].phase;
    WithPhase(s, w, Recording(ph.batch, ph.at, ph.lockedAt, s.now, outcome))
  }

  // The worker has gone on to its next job, the present row being left as given.
  function Moved(s: State, w: WorkerId, row: Job): State
    requires w in s.workers && s.workers[w].phase.Handling? && AtJob(s, s.workers[w].phase)
  {
    var ph := s.workers[w].phase;
    var next := if ph.at + 1 < |ph.batch| then Handling(ph.batch, ph.at + 1, ph.lockedAt, s.now, Pipeline.Begun)
                else Idle;
    WithPhase(s, w, next).(jobs := s.jobs[Current(s, ph) := row])
  }

  ghost predicate InHandler(s: State, w: WorkerId) {
    && w in s.workers && s.workers[w].phase.Handling? && AtJob(s, s.workers[w].phase)
    && forall v :: !RowLocked(s, v, Current(s, s.workers[w].phase))
  }

  lemma OneStep(p: Params, s: State, l: Label)
    requires Enabled(p, s, l)
    ensures Exec(p, s, [l]) == Some(Apply(p, s, l))
  {
    ExecStep(p, s, [], l);
    assert [] + [l] == [l];
  }

  lemma Ends(p: Params, s: State, w: WorkerId, outcome: Outcome)
    requires InHandler(s, w) && !outcome.FailureRead?
    requires outcome.Completing? ==> s.workers[w].phase.progress.Done?
    requires outcome.Deferring? ==> s.workers[w].stage.Acquired? && s.workers[w].phase.progress.Begun?
    ensures Exec(p, s, [HandlerEnds(w, outcome)]) == Some(Ending(s, w, outcome))
  {
    OneStep(p, s, HandlerEnds(w, outcome));
  }

  lemma CompletionRefused(p: Params, s: State, w: WorkerId)
    requires InHandler(s, w)
    ensures Exec(p, Ending(s, w, Completing), [CompleteErrors(w)]) == Some(Ending(s, w, Failing))
  {
    OneStep(p, Ending(s, w, Completing), CompleteErrors(w));
    assert Apply(p, Ending(s, w, Completing), CompleteErrors(w)).workers == Ending(s, w, Failing).workers;
  }

  function Seen(s: State, w: WorkerId): Outcome
    requires w in s.workers && AtJob(s, s.workers[w].phase)
  {
    var job := s.jobs[Current(s, s.workers[w].phase)];
    FailureRead(job.attempts, job.maxAttempts)
  }

  lemma AttemptsRead(p: Params, s: State, w: WorkerId)
    requires InHandler(s, w)
    ensures Exec(p, Ending(s, w, Failing), [ReadFailure(w)]) == Some(Ending(s, w, Seen(s, w)))
  {
    OneStep(p, Ending(s, w, Failing), ReadFailure(w));
    assert Apply(p, Ending(s, w, Failing), ReadFailure(w)).workers == Ending(s, w, Seen(s, w)).workers;
  }

  lemma Stores(p: Params, s: State, w: WorkerId, outcome: Outcome, jitter: real)
    requires InHandler(s, w) && !outcome.Failing? && 0.0 <= jitter < 1.0
    ensures var row := RecordedRow(s.jobs[Current(s, s.workers[w].phase)], outcome, s.now, jitter);
            Exec(p, Ending(s, w, outcome), [Record(w, jitter)]) == Some(Moved(s, w, row))
  {
    var t := Ending(s, w, outcome);
    var c := Current(s, s.workers[w].phase);
    forall v: WorkerId ensures !RowLocked(t, v, c) {
      assert !RowLocked(s, v, c);
    }
    assert !LockedByAny(t, c);
    OneStep(p, t, Record(w, jitter));
    var row := RecordedRow(s.jobs[c], outcome, s.now, jitter);
    assert Apply(p, t, Record(w, jitter)).workers == Moved(s, w, row).workers;
  }

  lemma Refuses(p: Params, s: State, w: WorkerId, outcome: Outcome)
    requires InHandler(s, w) && !outcome.Completing?
    ensures Exec(p, Ending(s, w, outcome), [RecordErrors(w)])
         == Some(Moved(s, w, s.jobs[Current(s, s.workers[w].phase)]))
  {
    var t := Ending(s, w, outcome);
    var row := s.jobs[Current(s, s.workers[w].phase)];
    OneStep(p, t, RecordErrors(w));
    assert Apply(p, t, RecordErrors(w)).workers == Moved(s, w, row).workers;
    assert s.jobs[Current(s, s.workers[w].phase) := row] == s.jobs;
  }

  // ---------- The claim ----------

  function AfterClaim(s: State, w: WorkerId, rows: seq<JobId>): State
    requires w in s.workers
  {
    WithPhase(s, w, if rows == [] then Idle else Handling(rows, 0, s.now, s.now, Pipeline.Begun))
      .(jobs := ClaimRows(s.jobs, rows, w, s.now),
        claimed := s.claimed + Elements(rows), finished := s.finished - Elements(rows))
  }

  // Beginning a claim locks nothing.
  lemma ClaimingLocksNothing(s: State, t: State, w: WorkerId)
    requires w in s.workers && s.workers[w].phase.Idle? && t == WithPhase(s, w, Claiming(s.now))
    ensures LockedByClaims(t) == LockedByClaims(s)
  {
    forall j ensures LockedByAny(t, j) <==> LockedByAny(s, j) {
      forall v ensures RowLocked(t, v, j) <==> RowLocked(s, v, j) {
      }
    }
  }

  // What the claim statement selects, and what it leaves behind when it commits, is a run of
  // the state machine.
  lemma ClaimIsRun(p: Params, s: State, w: WorkerId, rows: seq<JobId>)
    requires w in s.workers && s.workers[w].phase.Idle?
    requires var stage := s.workers[w].stage;
      IsSelection(s.jobs, LockedByClaims(s), stage, s.now, p.lease, p.batch(stage), rows)
    ensures Exec(p, s, [BeginClaim(w), Select(w, rows), Commit(w)]) == Some(AfterClaim(s, w, rows))
  {
    var s1 := Apply(p, s, BeginClaim(w));
    OneStep(p, s, BeginClaim(w));
    ClaimingLocksNothing(s, s1, w);
    ExecStep(p, s, [BeginClaim(w)], Select(w, rows));
    var s2 := Apply(p, s1, Select(w, rows));
    ExecStep(p, s, [BeginClaim(w), Select(w, rows)], Commit(w));
    assert [BeginClaim(w)] + [Select(w, rows)] == [BeginClaim(w), Select(w, rows)];
    assert [BeginClaim(w), Select(w, rows)] + [Commit(w)] == [BeginClaim(w), Select(w, rows), Commit(w)];
    assert Apply(p, s2, Commit(w)).workers == AfterClaim(s, w, rows).workers;
  }

  // A claim that raises, before it has selected its rows or after, leaves everything as it
  // was.
  lemma RaisedClaimIsRun(p: Params, s: State, w: WorkerId, rows: seq<JobId>)
    requires w in s.workers && s.workers[w].phase.Idle?
    requires var stage := s.workers[w].stage;
      IsSelection(s.jobs, LockedByClaims(s), stage, s.now, p.lease, p.batch(stage), rows)
    ensures Exec(p, s, [BeginClaim(w), ClaimFails(w)]) == Some(s)
    ensures Exec(p, s, [BeginClaim(w), Select(w, rows), ClaimFails(w)]) == Some(s)
  {
    var s1 := Apply(p, s, BeginClaim(w));
    OneStep(p, s, BeginClaim(w));
    ClaimingLocksNothing(s, s1, w);
    ExecStep(p, s, [BeginClaim(w)], ClaimFails(w));
    assert [BeginClaim(w)] + [ClaimFails(w)] == [BeginClaim(w), ClaimFails(w)];
    assert Apply(p, s1, ClaimFails(w)).workers == s.workers;
    ExecStep(p, s, [BeginClaim(w)], Select(w, rows));
    var s2 := Apply(p, s1, Select(w, rows));
    ExecStep(p, s, [BeginClaim(w), Select(w, rows)], ClaimFails(w));
    assert [BeginClaim(w)] + [Select(w, rows)] == [BeginClaim(w), Select(w, rows)];
    assert [BeginClaim(w), Select(w, rows)] + [ClaimFails(w)] == [BeginClaim(w), Select(w, rows), ClaimFails(w)];
    assert Apply(p, s2, ClaimFails(w)).workers == s.workers;
  }

  // ---------- One turn ----------

  // `fail_job`'s statements, from the moment it is called.
  function FailLabels(w: WorkerId, t: JobQueue.Turn): seq<Label> {
    if !t.accepts.read then [RecordErrors(w)]
    else [ReadFailure(w)] + if t.accepts.write then [Record(w, t.jitter)] else [RecordErrors(w)]
  }

  function TurnLabels(w: WorkerId, t: JobQueue.Turn): seq<Label> {
    match t.ended
    case CircuitOpen(retryAfter) =>
      [HandlerEnds(w, Deferring(retryAfter + 5.0))]
        + if t.accepts.deferral then [Record(w, t.jitter)] else [RecordErrors(w)]
    case Returned =>
      [HandlerEnds(w, Completing)]
        + if t.accepts.complete then [Record(w, t.jitter)] else [CompleteErrors(w)] + FailLabels(w, t)
    case _ => [HandlerEnds(w, Failing)] + FailLabels(w, t)
  }

  lemma FailIsRun(p: Params, s: State, w: WorkerId, t: JobQueue.Turn)
    requires InHandler(s, w) && t.now == s.now && 0.0 <= t.jitter < 1.0
    ensures Exec(p, Ending(s, w, Failing), FailLabels(w, t))
         == Some(Moved(s, w, JobQueue.FailStored(s.jobs[Current(s, s.workers[w].phase)], t)))
  {
    var r := Ending(s, w, Failing);
    if !t.accepts.read {
      Refuses(p, s, w, Failing);
    } else {
      AttemptsRead(p, s, w);
      if t.accepts.write {
        Stores(p, s, w, Seen(s, w), t.jitter);
        ExecConcat(p, r, [ReadFailure(w)], [Record(w, t.jitter)]);
      } else {
        Refuses(p, s, w, Seen(s, w));
        ExecConcat(p, r, [ReadFailure(w)], [RecordErrors(w)]);
      }
    }
  }

  lemma DeferredIsRun(p: Params, s: State, w: WorkerId, t: JobQueue.Turn)
    requires InHandler(s, w) && t.now == s.now && 0.0 <= t.jitter < 1.0 && t.ended.CircuitOpen?
    requires s.workers[w].stage.Acquired? && s.workers[w].phase.progress.Begun?
    ensures Exec(p, s, TurnLabels(w, t))
         == Some(Moved(s, w, JobQueue.Stored(s.jobs[Current(s, s.workers[w].phase)], t)))
  {
    var outcome := Deferring(t.ended.retryAfter + 5.0);
    Ends(p, s, w, outcome);
    if t.accepts.deferral {
      Stores(p, s, w, outcome, t.jitter);
      ExecConcat(p, s, [HandlerEnds(w, outcome)], [Record(w, t.jitter)]);
    } else {
      Refuses(p, s, w, outcome);
      ExecConcat(p, s, [HandlerEnds(w, outcome)], [RecordErrors(w)]);
    }
  }

  lemma ReturnedIsRun(p: Params, s: State, w: WorkerId, t: JobQueue.Turn)
    requires InHandler(s, w) && t.now == s.now && 0.0 <= t.jitter < 1.0 && t.ended.Returned?
    requires s.workers[w].phase.progress.Done?
    ensures Exec(p, s, TurnLabels(w, t))
         == Some(Moved(s, w, JobQueue.Stored(s.jobs[Current(s, s.workers[w].phase)], t)))
  {
    Ends(p, s, w, Completing);
    if t.accepts.complete {
      Stores(p, s, w, Completing, t.jitter);
      ExecConcat(p, s, [HandlerEnds(w, Completing)], [Record(w, t.jitter)]);
    } else {
      CompletionRefused(p, s, w);
      FailIsRun(p, s, w, t);
      ExecConcat(p, Ending(s, w, Completing), [CompleteErrors(w)], FailLabels(w, t));
      ExecConcat(p, s, [HandlerEnds(w, Completing)], [CompleteErrors(w)] + FailLabels(w, t));
    }
  }

  // From the end of a handler to the start of the next, `_process_job` takes exactly these
  // steps of the state machine, and they leave the row as the program does. A handler that
  // returned normally has made its last write; one that an open circuit ended is an
  // acquisition that has made none.
  lemma TurnIsRun(p: Params, s: State, w: WorkerId, t: JobQueue.Turn)
    requires InHandler(s, w) && t.now == s.now && 0.0 <= t.jitter < 1.0
    requires t.ended.Returned? ==> s.workers[w].phase.progress.Done?
    requires t.ended.CircuitOpen? ==> s.workers[w].stage.Acquired? && s.workers[w].phase.progress.Begun?
    ensures Exec(p, s, TurnLabels(w, t))
         == Some(Moved(s, w, JobQueue.Stored(s.jobs[Current(s, s.workers[w].phase)], t)))
  {
    match t.ended
    case CircuitOpen(_) => DeferredIsRun(p, s, w, t);
    case Returned => ReturnedIsRun(p, s, w, t);
    case _ =>
      Ends(p, s, w, Failing);
      FailIsRun(p, s, w, t);
      ExecConcat(p, s, [HandlerEnds(w, Failing)], FailLabels(w, t));
  }
}
