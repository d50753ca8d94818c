/** Pipeline stages and the table saying which job follows a stage. */
module Stages {
  import opened Wrappers

  datatype Stage =
    | Discovered
    | Resolved
    | Acquired
    | Ingested
    | CitationsExtracted
    | Complete
    | Unresolvable

  // Which stage's job is enqueued when a paper enters a stage.
  function NextJobStage(s: Stage): Option<Stage> {
    match s
    case Discovered => Some(Resolved)
    case Resolved => Some(Acquired)
    case Acquired => Some(Ingested)
    case Ingested => Some(CitationsExtracted)
    case CitationsExtracted => None
    case Complete => None
    case Unresolvable => None
  }

  // The stages a worker exists for.
  predicate JobStage(s: Stage) {
    s.Resolved? || s.Acquired? || s.Ingested? || s.CitationsExtracted?
  }

  // Stages at which the pipeline has nothing left to do for a paper.
  predicate Terminal(s: Stage) {
    s.Complete? || s.Unresolvable?
  }
}
