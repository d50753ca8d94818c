/**
 * Starting and stopping the workers of one process. Starting awaits nothing, so it is one
 * step; stopping cancels the tasks, awaits them, and only then forgets them, and other
 * calls may run while it waits.
 */
module Workers {
  import opened Wrappers
  import opened Stages

  type Task = nat
  type StopCall = nat

  const HANDLERS: seq<Stage> := [Resolved, Acquired, Ingested, CitationsExtracted]

  datatype State = State(
    tasks: map<Stage, Task>,             // the registry
    live: set<Task>,                     // tasks that have not ended
    started: seq<Stage>,                 // history: the stage each task was started for
    waiting: map<StopCall, set<Task>>)   // tasks each unfinished stop awaits

  const EMPTY := State(map[], {}, [], map[])

  datatype Label =
    | Start
    | BeginStop(call: StopCall)
    | TaskEnds(task: Task)
    | FinishStop(call: StopCall)

  predicate Runs(s: State, stage: Stage) {
    stage in s.tasks && s.tasks[stage] in s.live
  }

  function StartOne(s: State, stage: Stage): State {
    if Runs(s, stage) then s
    else s.(tasks := s.tasks[stage := |s.started|], live := s.live + {|s.started|}, started := s.started + [stage])
  }

  function StartEach(s: State, stages: seq<Stage>): State {
    if stages == [] then s else StartOne(StartEach(s, stages[..|stages| - 1]), stages[|stages| - 1])
  }

  function Registered(s: State): set<Task> {
    set stage | stage in s.tasks :: s.tasks[stage]
  }

  predicate Enabled(s: State, l: Label) {
    match l
    case Start => true
    case BeginStop(call) => call !in s.waiting
    case TaskEnds(task) => task in s.live
    case FinishStop(call) => call in s.waiting && s.waiting[call] !! s.live
  }

  function Apply(s: State, l: Label): State
    requires Enabled(s, l)
  {
    match l
    case Start => StartEach(s, HANDLERS)
    case BeginStop(call) => if s.tasks == map[] then s else s.(waiting := s.waiting[call := Registered(s)])
    case TaskEnds(task) => s.(live := s.live - {task})
    case FinishStop(call) => s.(tasks := map[], waiting := s.waiting - {call})
  }

  function Exec(s: State, run: seq<Label>): Option<State> {
    if run == [] then Some(s)
    else
      match Exec(s, run[..|run| - 1])
      case None => None
      case Some(t) => if Enabled(t, run[|run| - 1]) then Some(Apply(t, run[|run| - 1])) else None
  }

  // No stage has two workers that are still running.
  predicate OnePerStage(s: State) {
    forall t, u :: t in s.live && u in s.live && t < |s.started| && u < |s.started| && s.started[t] == s.started[u]
      ==> t == u
  }

  // ---------- Starting ----------

  // Every running task is the one registered for its stage.
  predicate AllRegistered(s: State) {
    && (forall t :: t in s.live ==> t < |s.started| && s.started[t] in s.tasks && s.tasks[s.started[t]] == t)
    && (forall stage :: stage in s.tasks ==> s.tasks[stage] < |s.started| && s.started[s.tasks[stage]] == stage)
  }

  lemma StartOneRuns(s: State, stage: Stage)
    requires AllRegistered(s)
    ensures var t := StartOne(s, stage);
      && AllRegistered(t) && s.live <= t.live && s.started <= t.started && t.waiting == s.waiting
      && Runs(t, stage)
      && (forall other :: Runs(s, other) ==> Runs(t, other) && t.tasks[other] == s.tasks[other])
      && t.started == s.started + if Runs(s, stage) then [] else [stage]
  {
  }

  // Starting leaves every stage of the list with a running task, keeps those that ran, and
  // starts only what did not run.
  lemma {:induction false} StartRunsEach(s: State, stages: seq<Stage>)
    requires AllRegistered(s)
    ensures var t := StartEach(s, stages);
      && AllRegistered(t) && s.live <= t.live && s.started <= t.started && t.waiting == s.waiting
      && (forall stage :: stage in stages ==> Runs(t, stage))
      && (forall stage :: Runs(s, stage) ==> Runs(t, stage) && t.tasks[stage] == s.tasks[stage])
      && (forall k :: |s.started| <= k < |t.started| ==> t.started[k] in stages && !Runs(s, t.started[k]))
  {
    if stages != [] {
      var front, last := stages[..|stages| - 1], stages[|stages| - 1];
      StartRunsEach(s, front);
      StartOneRuns(StartEach(s, front), last);
      assert stages == front + [last];
    }
  }

  lemma {:induction false} NothingToStart(s: State, stages: seq<Stage>)
    requires forall stage :: stage in stages ==> Runs(s, stage)
    ensures StartEach(s, stages) == s
  {
    if stages != [] {
      var front, last := stages[..|stages| - 1], stages[|stages| - 1];
      assert last in stages && forall stage :: stage in front ==> stage in stages;
      NothingToStart(s, front);
    }
  }

  // Starting again starts nothing.
  lemma StartIsIdempotent(s: State)
    requires AllRegistered(s)
    ensures var t := StartEach(s, HANDLERS); StartEach(t, HANDLERS) == t
  {
    StartRunsEach(s, HANDLERS);
    NothingToStart(StartEach(s, HANDLERS), HANDLERS);
  }

  // Starting adds running tasks of its own, whatever the registry was.
  lemma {:induction false} StartAdds(s: State, stages: seq<Stage>)
    ensures var t := StartEach(s, stages);
      && s.live <= t.live && s.started <= t.started && t.waiting == s.waiting
      && (forall stage :: stage in stages ==> Runs(t, stage))
      && (forall stage :: stage in t.tasks && !(stage in s.tasks && t.tasks[stage] == s.tasks[stage]) ==>
            |s.started| <= t.tasks[stage] < |t.started| && t.started[t.tasks[stage]] == stage)
      && (forall task :: task in t.live && task !in s.live ==> |s.started| <= task)
  {
    if stages != [] {
      var front, last := stages[..|stages| - 1], stages[|stages| - 1];
      StartAdds(s, front);
      assert stages == front + [last];
    }
  }

  // ---------- One worker per stage ----------

  predicate Inv(s: State) {
    && AllRegistered(s)
    && (forall call :: call in s.waiting ==> s.live <= s.waiting[call])
    && (forall call, task :: call in s.waiting && task in s.waiting[call] ==> task < |s.started|)
  }

  // The step does not start a worker while a stop is waiting.
  predicate Orderly(s: State, l: Label) {
    l.Start? ==> s.waiting == map[] || forall stage :: stage in HANDLERS ==> Runs(s, stage)
  }

  predicate OrderlyFrom(s: State, run: seq<Label>) {
    run == [] || (
      var t := Exec(s, run[..|run| - 1]);
      OrderlyFrom(s, run[..|run| - 1]) && (t.Some? ==> Orderly(t.value, run[|run| - 1])))
  }

  lemma InvStep(s: State, l: Label)
    requires Inv(s) && Enabled(s, l) && Orderly(s, l)
    ensures Inv(Apply(s, l))
  {
    match l
    case Start =>
      if s.waiting == map[] {
        StartRunsEach(s, HANDLERS);
      } else {
        NothingToStart(s, HANDLERS);
      }
    case BeginStop(call) =>
      forall t | t in s.live ensures t in Registered(s) {
        assert s.started[t] in s.tasks;
      }
    case TaskEnds(_) =>
    case FinishStop(call) =>
      assert s.live == s.live * s.waiting[call];
      assert s.live == {};
  }

  lemma {:induction false} InvRun(s: State, run: seq<Label>)
    requires Inv(s) && Exec(s, run).Some? && OrderlyFrom(s, run)
    ensures Inv(Exec(s, run).value) && OnePerStage(Exec(s, run).value)
  {
    if run == [] {
    } else {
      InvRun(s, run[..|run| - 1]);
      InvStep(Exec(s, run[..|run| - 1]).value, run[|run| - 1]);
    }
  }

  // A process that never starts a worker while it is stopping them runs at most one per stage.
  lemma OneWorkerPerStage(run: seq<Label>)
    requires Exec(EMPTY, run).Some? && OrderlyFrom(EMPTY, run)
    ensures Inv(Exec(EMPTY, run).value) && OnePerStage(Exec(EMPTY, run).value)
  {
    InvRun(EMPTY, run);
  }

  // ---------- Starting while stopping ----------

  lemma Append(s: State, run: seq<Label>, l: Label, t: State)
    requires Exec(s, run) == Some(t) && Enabled(t, l)
    ensures Exec(s, run + [l]) == Some(Apply(t, l))
    ensures OrderlyFrom(s, run) && Orderly(t, l) ==> OrderlyFrom(s, run + [l])
  {
    assert (run + [l])[..|run|] == run;
  }

  lemma {:induction false} Concat(s: State, a: seq<Label>, t: State, b: seq<Label>)
    requires Exec(s, a) == Some(t) && Exec(t, b).Some?
    ensures Exec(s, a + b) == Exec(t, b)
    ensures OrderlyFrom(s, a) && OrderlyFrom(t, b) ==> OrderlyFrom(s, a + b)
  {
    if b == [] {
      assert a + b == a;
    } else {
      var front := b[..|b| - 1];
      Concat(s, a, t, front);
      assert (a + b)[..|a + b| - 1] == a + front;
    }
  }

  lemma OneFewer(a: set<Task>, b: set<Task>, x: Task)
    requires x in b
    ensures a - (b - {x}) - {x} == a - b
  {
  }

  lemma {:induction false} EndAll(s: State, todo: set<Task>) returns (run: seq<Label>)
    requires todo <= s.live
    ensures Exec(s, run) == Some(s.(live := s.live - todo)) && OrderlyFrom(s, run)
    decreases |todo|
  {
    if todo == {} {
      run := [];
      assert s.live - todo == s.live;
    } else {
      var task :| task in todo;
      var rest := EndAll(s, todo - {task});
      OneFewer(s.live, todo, task);
      Append(s, rest, TaskEnds(task), s.(live := s.live - (todo - {task})));
      run := rest + [TaskEnds(task)];
    }
  }

  // Every stop finishes, and the registry is empty.
  lemma {:induction false} FinishAll(s: State, calls: set<StopCall>) returns (run: seq<Label>)
    requires calls <= s.waiting.Keys && forall call :: call in calls ==> s.waiting[call] !! s.live
    ensures OrderlyFrom(s, run)
    ensures Exec(s, run) ==
      Some(if calls == {} then s else s.(tasks := map[], waiting := s.waiting - calls))
    decreases |calls|
  {
    if calls == {} {
      run := [];
    } else {
      var call :| call in calls;
      var others := calls - {call};
      var rest := FinishAll(s, others);
      var t := if others == {} then s else s.(tasks := map[], waiting := s.waiting - others);
      Append(s, rest, FinishStop(call), t);
      run := rest + [FinishStop(call)];
      assert t.waiting - {call} == s.waiting - calls;
    }
  }

  // The task a start adds for a stage that had none running.
  lemma NewTask(s: State, stage: Stage)
    requires AllRegistered(s) && stage in HANDLERS && !Runs(s, stage)
    ensures var t := StartEach(s, HANDLERS);
      && Runs(t, stage) && |s.started| <= t.tasks[stage] < |t.started| && t.started[t.tasks[stage]] == stage
  {
    StartAdds(s, HANDLERS);
    StartRunsEach(s, HANDLERS);
  }

  // The given tasks end, and with them every stop finishes.
  lemma ClearOut(s: State, gone: set<Task>) returns (run: seq<Label>)
    requires gone <= s.live && s.waiting != map[]
    requires forall call :: call in s.waiting ==> s.waiting[call] !! (s.live - gone)
    ensures Exec(s, run) == Some(State(map[], s.live - gone, s.started, map[])) && OrderlyFrom(s, run)
  {
    var ended := EndAll(s, gone);
    var t := s.(live := s.live - gone);
    var finished := FinishAll(t, t.waiting.Keys);
    assert t.waiting - t.waiting.Keys == map[];
    Concat(s, ended, t, finished);
    run := ended + finished;
  }

  // The old workers end, every stop finishes and forgets the new one, and the next start
  // adds another of its stage.
  lemma Breaks(s: State) returns (run: seq<Label>)
    requires Inv(s) && !Orderly(s, Start)
    ensures var t := Apply(s, Start);
      Exec(t, run).Some? && OrderlyFrom(t, run) && !OnePerStage(Exec(t, run).value)
  {
    var stage :| stage in HANDLERS && !Runs(s, stage);
    var t := StartEach(s, HANDLERS);
    NewTask(s, stage);
    StartAdds(s, HANDLERS);
    var cleared := ClearOut(t, s.live);
    var v := State(map[], t.live - s.live, t.started, map[]);
    Append(t, cleared, Start, v);
    run := cleared + [Start];
    TwoOfStage(v, stage, t.tasks[stage]);
  }

  // A running task the registry has forgotten gets a companion.
  lemma TwoOfStage(s: State, stage: Stage, forgotten: Task)
    requires s.tasks == map[] && stage in HANDLERS
    requires forgotten in s.live && forgotten < |s.started| && s.started[forgotten] == stage
    ensures !OnePerStage(StartEach(s, HANDLERS))
  {
    StartAdds(s, HANDLERS);
    var t := StartEach(s, HANDLERS);
    assert t.tasks[stage] in t.live && t.started[forgotten] == t.started[t.tasks[stage]];
  }

  // From every state an orderly run has reached, starting the workers keeps the invariant,
  // and with it one worker per stage in every orderly continuation, if and only if no stop
  // is waiting or every stage's worker still runs.
  lemma StartIsSafeIff(run: seq<Label>)
    requires Exec(EMPTY, run).Some? && OrderlyFrom(EMPTY, run)
    ensures var s := Exec(EMPTY, run).value;
      var t := Apply(s, Start);
      var safe := s.waiting == map[] || forall stage :: stage in HANDLERS ==> Runs(s, stage);
      && (safe <==> Inv(t))
      && (safe <==> forall more :: Exec(t, more).Some? && OrderlyFrom(t, more) ==> OnePerStage(Exec(t, more).value))
  {
    var s := Exec(EMPTY, run).value;
    var t := Apply(s, Start);
    OneWorkerPerStage(run);
    if Orderly(s, Start) {
      InvStep(s, Start);
      forall more | Exec(t, more).Some? && OrderlyFrom(t, more) ensures OnePerStage(Exec(t, more).value) {
        InvRun(t, more);
      }
    } else {
      var more := Breaks(s);
      if Inv(t) {
        InvRun(t, more);
      }
    }
  }

  lemma Unfolded(s: State)
    ensures StartEach(s, HANDLERS)
      == StartOne(StartOne(StartOne(StartOne(s, Resolved), Acquired), Ingested), CitationsExtracted)
  {
    assert HANDLERS[..3][..2] == HANDLERS[..2] && HANDLERS[..2][..1] == HANDLERS[..1] && HANDLERS[..1][..0] == [];
    assert StartEach(s, HANDLERS[..1]) == StartOne(s, Resolved);
    assert StartEach(s, HANDLERS[..2]) == StartOne(StartOne(s, Resolved), Acquired);
    assert StartEach(s, HANDLERS[..3]) == StartOne(StartOne(StartOne(s, Resolved), Acquired), Ingested);
  }

  const FOUR: map<Stage, Task> := map[Resolved := 0, Acquired := 1, Ingested := 2, CitationsExtracted := 3]

  // All four workers started, a stop begun, the first worker ended.
  const STOPPING := State(FOUR, {1, 2, 3}, HANDLERS, map[0 := {0, 1, 2, 3}])

  const STARTED := State(FOUR, {0, 1, 2, 3}, HANDLERS, map[])

  lemma StartFromEmpty()
    ensures StartEach(EMPTY, HANDLERS) == STARTED
  {
    Unfolded(EMPTY);
    var one := StartOne(EMPTY, Resolved);
    assert one == State(map[Resolved := 0], {0}, [Resolved], map[]);
    var two := StartOne(one, Acquired);
    assert two == State(map[Resolved := 0, Acquired := 1], {0, 1}, [Resolved, Acquired], map[]);
    var three := StartOne(two, Ingested);
    assert three == State(map[Resolved := 0, Acquired := 1, Ingested := 2], {0, 1, 2},
                          [Resolved, Acquired, Ingested], map[]);
    assert StartOne(three, CitationsExtracted) == STARTED;
  }

  lemma ReachStopping() returns (run: seq<Label>)
    ensures Exec(EMPTY, run) == Some(STOPPING) && OrderlyFrom(EMPTY, run)
  {
    StartFromEmpty();
    Append(EMPTY, [], Start, EMPTY);
    run := [] + [Start];
    FourRegistered(STARTED);
    Append(EMPTY, run, BeginStop(0), STARTED);
    run := run + [BeginStop(0)];
    var t := STARTED.(waiting := map[0 := {0, 1, 2, 3}]);
    assert Apply(STARTED, BeginStop(0)) == t;
    assert t.live - {0} == STOPPING.live;
    Append(EMPTY, run, TaskEnds(0), t);
    run := run + [TaskEnds(0)];
  }

  lemma FourRegistered(s: State)
    requires s.tasks == FOUR
    ensures Registered(s) == {0, 1, 2, 3}
  {
    assert FOUR[Resolved] == 0 && FOUR[Acquired] == 1 && FOUR[Ingested] == 2 && FOUR[CitationsExtracted] == 3;
  }

  // Starting workers while a stop is waiting can leave a stage with two running workers.
  lemma StartWhileStopping() returns (run: seq<Label>)
    ensures Exec(EMPTY, run).Some? && !OnePerStage(Exec(EMPTY, run).value)
  {
    var before := ReachStopping();
    OneWorkerPerStage(before);
    assert 0 in STOPPING.waiting && HANDLERS[0] in HANDLERS && !Runs(STOPPING, HANDLERS[0]);
    var more := Breaks(STOPPING);
    Append(EMPTY, before, Start, STOPPING);
    Concat(EMPTY, before + [Start], Apply(STOPPING, Start), more);
    run := before + [Start] + more;
  }

  // ---------- The registry as an object ----------

  class Registry {
    var tasks: map<Stage, Task>
    var live: set<Task>
    var started: seq<Stage>
    var waiting: map<StopCall, set<Task>>

    ghost function View(): State
      reads this
    {
      State(tasks, live, started, waiting)
    }

    constructor ()
      ensures View() == EMPTY
    {
      tasks, live, started, waiting := map[], {}, [], map[];
    }

    // Starts a worker for every stage that has none running, and says how many.
    method StartWorkers() returns (n: nat)
      modifies this
      ensures View() == StartEach(old(View()), HANDLERS)
      ensures |started| == |old(started)| + n
    {
      n := 0;
      for i := 0 to |HANDLERS|
        invariant View() == StartEach(old(View()), HANDLERS[..i])
        invariant |started| == |old(started)| + n
      {
        var stage := HANDLERS[i];
        assert HANDLERS[..i + 1][..i] == HANDLERS[..i];
        if stage in tasks && tasks[stage] in live {
          continue;
        }
        var task := |started|;
        started := started + [stage];
        live := live + {task};
        tasks := tasks[stage := task];
        n := n + 1;
      }
      assert HANDLERS[..|HANDLERS|] == HANDLERS;
    }

    // Cancels every running task; the caller then waits for them, if there are any. Says
    // how many ran.
    method BeginStop(call: StopCall) returns (count: nat)
      requires call !in waiting
      modifies this`waiting
      ensures View() == Apply(old(View()), Label.BeginStop(call))
      ensures count == |set stage | stage in tasks && tasks[stage] in live|
    {
      count := |set stage | stage in tasks && tasks[stage] in live|;
      if tasks == map[] {
        return;
      }
      waiting := waiting[call := set stage | stage in tasks :: tasks[stage]];
    }

    // Every task the call waited for has ended: the registry is emptied.
    method FinishStop(call: StopCall)
      requires call in waiting && waiting[call] !! live
      modifies this`tasks, this`waiting
      ensures View() == Apply(old(View()), Label.FinishStop(call))
    {
      tasks := map[];
      waiting := waiting - {call};
    }
  }
}
