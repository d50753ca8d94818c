/**
 * How a paper came to the stage it is at, and a job to its stage: in every run, whatever
 * crashes and whoever holds what, a paper is only ever taken through the pipeline by jobs of
 * the right stages.
 */
module Endings {
  import opened Wrappers
  import opened Stages
  import opened Jobs
  import opened Pipeline

  // A claim has taken a job of this stage for the paper.
  ghost predicate Ran(s: State, paper: PaperId, stage: Stage) {
    exists j: JobId :: RanAs(s, paper, stage, j)
  }

  predicate RanAs(s: State, paper: PaperId, stage: Stage, j: JobId) {
    j < |s.jobs| && j in s.claimed && s.jobs[j].paper == paper && s.jobs[j].stage == stage
  }

  // What a paper's stage says of its past: it is complete only after a citation job, and
  // unresolvable only after a resolve job.
  ghost predicate StageEarned(s: State, paper: PaperId)
    requires paper < |s.papers|
  {
    match s.papers[paper]
    case Discovered => true
    case Complete => Ran(s, paper, CitationsExtracted)
    case Unresolvable => Ran(s, paper, Resolved)
    case stage => Ran(s, paper, stage) && stage != CitationsExtracted
  }

  // What a job says of its paper's past: users enqueue jobs to resolve and to ingest, every
  // other job follows one of the stage before it.
  ghost predicate JobEarned(s: State, job: Job) {
    match job.stage
    case Resolved => true
    case Acquired => Ran(s, job.paper, Resolved)
    case Ingested => true
    case CitationsExtracted => Ran(s, job.paper, Ingested)
    case _ => false
  }

  ghost predicate Earned(s: State) {
    && (forall paper :: 0 <= paper < |s.papers| ==> StageEarned(s, paper))
    && (forall j :: 0 <= j < |s.jobs| ==> JobEarned(s, s.jobs[j]))
    && (forall w: WorkerId, j: JobId :: Holds(s, w, j) ==> j in s.claimed)
  }

  // Claimed jobs stay claimed, and keep their paper and stage.
  lemma RanStays(p: Params, s: State, l: Label, paper: PaperId, stage: Stage)
    requires Enabled(p, s, l) && Ran(s, paper, stage)
    ensures Ran(Apply(p, s, l), paper, stage)
  {
    var j: JobId :| RanAs(s, paper, stage, j);
    assert RanAs(Apply(p, s, l), paper, stage, j);
  }

  lemma HeldIsClaimed(p: Params, s: State, l: Label, w: WorkerId, j: JobId)
    requires Enabled(p, s, l) && Earned(s) && Holds(Apply(p, s, l), w, j)
    ensures j in Apply(p, s, l).claimed
  {
    if l.Commit? && l.w == w {
      assert j in Elements(s.workers[w].phase.rows);
    } else {
      assert Holds(s, w, j);
    }
  }

  // The row the worker is at.
  lemma CurrentRan(s: State, w: WorkerId)
    requires Earned(s) && Running(s, w)
    ensures var job := s.jobs[Current(s, s.workers[w].phase)]; Ran(s, job.paper, job.stage)
  {
    var j := Current(s, s.workers[w].phase);
    assert Holds(s, w, j);
    assert RanAs(s, s.jobs[j].paper, s.jobs[j].stage, j);
  }

  // The stage that ran for a paper at this one.
  function Earner(stage: Stage): Stage {
    if stage.Complete? then CitationsExtracted
    else if stage.Unresolvable? then Resolved
    else stage
  }

  lemma StageKept(p: Params, s: State, l: Label, paper: PaperId)
    requires Enabled(p, s, l) && paper < |s.papers| && StageEarned(s, paper)
    requires Apply(p, s, l).papers[paper] == s.papers[paper]
    ensures StageEarned(Apply(p, s, l), paper)
  {
    if !s.papers[paper].Discovered? {
      RanStays(p, s, l, paper, Earner(s.papers[paper]));
    }
  }

  lemma StageStep(p: Params, s: State, l: Label, paper: PaperId)
    requires Enabled(p, s, l) && Earned(s) && paper < |Apply(p, s, l).papers|
    ensures StageEarned(Apply(p, s, l), paper)
  {
    if l.WriteStage? || l.WriteTerminal? {
      CurrentRan(s, l.w);
      var job := s.jobs[Current(s, s.workers[l.w].phase)];
      RanStays(p, s, l, job.paper, job.stage);
      assert JobEarned(s, job);
    }
    if paper < |s.papers| && Apply(p, s, l).papers[paper] == s.papers[paper] {
      StageKept(p, s, l, paper);
    }
  }

  lemma JobStep(p: Params, s: State, l: Label, j: JobId)
    requires Enabled(p, s, l) && Earned(s) && j < |Apply(p, s, l).jobs|
    ensures JobEarned(Apply(p, s, l), Apply(p, s, l).jobs[j])
  {
    var t := Apply(p, s, l);
    if l.EnqueueNext? {
      CurrentRan(s, l.w);
      var job := s.jobs[Current(s, s.workers[l.w].phase)];
      RanStays(p, s, l, job.paper, job.stage);
      assert JobEarned(s, job);
    }
    if j < |s.jobs| {
      assert JobEarned(s, s.jobs[j]);
      match s.jobs[j].stage
      case Acquired => RanStays(p, s, l, s.jobs[j].paper, Resolved);
      case CitationsExtracted => RanStays(p, s, l, s.jobs[j].paper, Ingested);
      case _ =>
    }
  }

  // In every run, with any parameters: a paper is complete only if a claim has taken a
  // citation job for it, unresolvable only if one has taken a resolve job, resolved, acquired
  // or ingested only if one has taken a job of that stage; and an acquire job or a citation
  // job exists only if one has taken a resolve job or an ingest job for the paper before.
  lemma {:induction false} StagesAreEarned(p: Params, run: seq<Label>)
    requires Exec(p, INIT, run).Some?
    ensures Earned(Exec(p, INIT, run).value)
  {
    if run != [] {
      var front, l := run[..|run| - 1], run[|run| - 1];
      ExecLast(p, INIT, run);
      StagesAreEarned(p, front);
      var s := Exec(p, INIT, front).value;
      var t := Apply(p, s, l);
      forall paper | 0 <= paper < |t.papers| ensures StageEarned(t, paper) {
        StageStep(p, s, l, paper);
      }
      forall j | 0 <= j < |t.jobs| ensures JobEarned(t, t.jobs[j]) {
        JobStep(p, s, l, j);
      }
      forall w: WorkerId, j: JobId | Holds(t, w, j) ensures j in t.claimed {
        HeldIsClaimed(p, s, l, w, j);
      }
    }
  }
}
