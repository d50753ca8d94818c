/**
 * Any number of upgraders at once, each free to crash between any two statements. The
 * session advisory lock serialises them; a crash releases it and rolls back the open
 * transaction, and each file commits together with its ledger row.
 */
module MigrationRuns {
  import opened Wrappers
  import opened Migrate

  type Session = nat

  // What a transaction has done so far and would commit.
  datatype Transaction = NoTransaction | Begun | Ran(sql: string) | Recorded(sql: string, row: Row)

  datatype Upgrader =
    | Connected
    | Locked                                   // holds the advisory lock
    | Prepared                                 // has made sure the ledger table exists
    | Applying(current: nat, next: nat, tx: Transaction)
    | Refused
    | Finished
    | Crashed

  datatype State = State(
    ledger: Option<seq<Row>>,
    schema: seq<string>,
    lock: Option<Session>,
    upgraders: map<Session, Upgrader>,
    commits: seq<int>)                         // history: revisions in the order committed

  datatype Label =
    | Connect(u: Session)
    | Lock(u: Session)
    | CreateLedger(u: Session)
    | Inspect(u: Session)
    | Skip(u: Session)
    | Begin(u: Session)
    | RunFile(u: Session)
    | InsertRow(u: Session)
    | Commit(u: Session)
    | Finish(u: Session)
    | Crash(u: Session)

  // Between locking and unlocking.
  predicate Critical(x: Upgrader) {
    x.Locked? || x.Prepared? || x.Applying?
  }

  predicate At(s: State, u: Session, n: nat, skipping: bool)
  {
    && u in s.upgraders && s.upgraders[u].Applying? && s.upgraders[u].next < n
    && (skipping <==> s.upgraders[u].next < s.upgraders[u].current)
  }

  ghost predicate Enabled(ms: seq<Migration>, s: State, l: Label) {
    match l
    case Connect(u) => u !in s.upgraders
    case Lock(u) => u in s.upgraders && s.upgraders[u].Connected? && s.lock.None?
    case CreateLedger(u) => u in s.upgraders && s.upgraders[u].Locked?
    case Inspect(u) => u in s.upgraders && s.upgraders[u].Prepared?
    case Skip(u) => At(s, u, |ms|, true)
    case Begin(u) => At(s, u, |ms|, false) && s.upgraders[u].tx.NoTransaction?
    case RunFile(u) => At(s, u, |ms|, false) && s.upgraders[u].tx.Begun?
    case InsertRow(u) =>
      && At(s, u, |ms|, false) && s.upgraders[u].tx.Ran?
      && forall i :: 0 <= i < |Rows(s.ledger)| ==>
           Rows(s.ledger)[i].revision != ms[s.upgraders[u].next].revision   // PRIMARY KEY
    case Commit(u) => At(s, u, |ms|, false) && s.upgraders[u].tx.Recorded?
    case Finish(u) => u in s.upgraders && s.upgraders[u].Applying? && s.upgraders[u].next >= |ms|
    case Crash(u) => u in s.upgraders
  }

  function With(s: State, u: Session, x: Upgrader): State {
    s.(upgraders := s.upgraders[u := x])
  }

  function Unlocked(s: State, u: Session): State {
    s.(lock := if s.lock == Some(u) then None else s.lock)
  }

  ghost function Apply(ms: seq<Migration>, s: State, l: Label): State
    requires Enabled(ms, s, l)
  {
    match l
    case Connect(u) => With(s, u, Connected)
    case Lock(u) => With(s, u, Locked).(lock := Some(u))
    case CreateLedger(u) =>
      With(s, u, Prepared).(ledger := if s.ledger.None? then Some([]) else s.ledger)
    case Inspect(u) =>
      if IsPrefix(Rows(s.ledger), ms) then With(s, u, Applying(|Rows(s.ledger)|, 0, NoTransaction))
      else Unlocked(With(s, u, Refused), u)
    case Skip(u) => With(s, u, s.upgraders[u].(next := s.upgraders[u].next + 1))
    case Begin(u) => With(s, u, s.upgraders[u].(tx := Begun))
    case RunFile(u) => With(s, u, s.upgraders[u].(tx := Ran(ms[s.upgraders[u].next].sql)))
    case InsertRow(u) =>
      With(s, u, s.upgraders[u].(tx := Recorded(s.upgraders[u].tx.sql, RowOf(ms[s.upgraders[u].next]))))
    case Commit(u) =>
      var x := s.upgraders[u];
      With(s, u, x.(next := x.next + 1, tx := NoTransaction))
        .(ledger := Some(Rows(s.ledger) + [x.tx.row]), schema := s.schema + [x.tx.sql],
          commits := s.commits + [x.tx.row.revision])
    case Finish(u) => Unlocked(With(s, u, Finished), u)
    case Crash(u) => Unlocked(With(s, u, Crashed), u)
  }

  ghost function Exec(ms: seq<Migration>, s: State, run: seq<Label>): Option<State> {
    if run == [] then Some(s)
    else
      match Exec(ms, s, run[..|run| - 1])
      case None => None
      case Some(t) => if Enabled(ms, t, run[|run| - 1]) then Some(Apply(ms, t, run[|run| - 1])) else None
  }

  // Nobody is connected yet.
  predicate Quiescent(s: State) {
    s.lock.None? && s.upgraders == map[] && s.commits == []
  }

  // ---------- The ledger is a prefix to begin with ----------

  // The lock's holder, and nobody else, is between locking and unlocking.
  ghost predicate Serialised(s: State) {
    && (forall u :: u in s.upgraders && Critical(s.upgraders[u]) ==> s.lock == Some(u))
    && (s.lock.Some? ==> s.lock.value in s.upgraders && Critical(s.upgraders[s.lock.value]))
  }

  // An upgrader in its loop knows how many rows there are, and its open transaction holds
  // the next file and that file's row.
  ghost predicate LoopOk(ms: seq<Migration>, s: State, x: Upgrader) {
    x.Applying? ==>
      && x.next <= |ms| && x.current <= |ms|
      && |Rows(s.ledger)| == (if x.next <= x.current then x.current else x.next)
      && (x.next < x.current ==> x.tx.NoTransaction?)
      && (x.tx.Ran? || x.tx.Recorded? ==> x.next < |ms| && x.tx.sql == ms[x.next].sql)
      && (x.tx.Recorded? ==> x.tx.row == RowOf(ms[x.next]))
      && (!x.tx.NoTransaction? ==> x.next < |ms| && x.current <= x.next)
  }

  // k rows to begin with, the schema being those k files.
  ghost predicate Inv(ms: seq<Migration>, k: nat, s: State) {
    && Serialised(s)
    && IsPrefix(Rows(s.ledger), ms) && k <= |Rows(s.ledger)|
    && s.schema == SqlOf(ms[..|Rows(s.ledger)|])
    && s.commits == Revisions(k + 1, |Rows(s.ledger)|)
    && (forall u :: u in s.upgraders ==> LoopOk(ms, s, s.upgraders[u]))
    && (forall u :: u in s.upgraders && s.upgraders[u].Finished? ==> |Rows(s.ledger)| == |ms|)
    && (forall u :: u in s.upgraders ==> !s.upgraders[u].Refused?)
  }

  lemma CommitStep(ms: seq<Migration>, k: nat, s: State, u: Session)
    requires Packaged(ms) && Inv(ms, k, s) && Enabled(ms, s, Commit(u))
    ensures Inv(ms, k, Apply(ms, s, Commit(u)))
  {
  }

  // The steps that leave ledger and schema alone.
  lemma OtherLoops(ms: seq<Migration>, k: nat, s: State, l: Label, v: Session)
    requires Packaged(ms) && Inv(ms, k, s) && Enabled(ms, s, l) && !l.Commit?
    requires v in Apply(ms, s, l).upgraders
    ensures LoopOk(ms, Apply(ms, s, l), Apply(ms, s, l).upgraders[v])
  {
    assert Rows(Apply(ms, s, l).ledger) == Rows(s.ledger);
    if v in s.upgraders {
      assert LoopOk(ms, s, s.upgraders[v]);
    }
  }

  lemma OtherOutcomes(ms: seq<Migration>, k: nat, s: State, l: Label)
    requires Packaged(ms) && Inv(ms, k, s) && Enabled(ms, s, l) && !l.Commit?
    ensures var t := Apply(ms, s, l);
      && Serialised(t) && Rows(t.ledger) == Rows(s.ledger) && t.schema == s.schema && t.commits == s.commits
      && (forall u :: u in t.upgraders && t.upgraders[u].Finished? ==> |Rows(t.ledger)| == |ms|)
      && (forall u :: u in t.upgraders ==> !t.upgraders[u].Refused?)
  {
    if l.Finish? {
      assert LoopOk(ms, s, s.upgraders[l.u]);
    }
  }

  lemma Step(ms: seq<Migration>, k: nat, s: State, l: Label)
    requires Packaged(ms) && Inv(ms, k, s) && Enabled(ms, s, l)
    ensures Inv(ms, k, Apply(ms, s, l))
  {
    if l.Commit? {
      CommitStep(ms, k, s, l.u);
    } else {
      OtherOutcomes(ms, k, s, l);
      forall v | v in Apply(ms, s, l).upgraders ensures LoopOk(ms, Apply(ms, s, l), Apply(ms, s, l).upgraders[v]) {
        OtherLoops(ms, k, s, l, v);
      }
    }
  }

  // Whatever interleaves and crashes, the ledger stays the first files of the package with
  // matching checksums, the schema is exactly those files in order, every revision beyond
  // the first k commits exactly once and in order, and an upgrader that finishes leaves
  // the database at the last revision.
  lemma {:induction false} ConcurrentUpgradesAreSafe(ms: seq<Migration>, s: State, run: seq<Label>)
    requires Packaged(ms) && Quiescent(s)
    requires IsPrefix(Rows(s.ledger), ms) && s.schema == SqlOf(ms[..|Rows(s.ledger)|])
    requires Exec(ms, s, run).Some?
    ensures Inv(ms, |Rows(s.ledger)|, Exec(ms, s, run).value)
  {
    if run == [] {
    } else {
      ConcurrentUpgradesAreSafe(ms, s, run[..|run| - 1]);
      Step(ms, |Rows(s.ledger)|, Exec(ms, s, run[..|run| - 1]).value, run[|run| - 1]);
    }
  }

  // ---------- Every upgrade gets its turn and reaches the last revision ----------

  // Statements an upgrader left alone still has to run.
  function StepsLeft(ms: seq<Migration>, x: Upgrader): int
  {
    match x
    case Connected => 4 * |ms| + 3
    case Locked => 4 * |ms| + 2
    case Prepared => 4 * |ms| + 1
    case Applying(_, next, tx) =>
      4 * (|ms| - next)
        - (match tx { case NoTransaction => 0 case Begun => 1 case Ran(_) => 2 case Recorded(_, _) => 3 })
    case _ => -1
  }

  // It waits for a lock that is free, or holds it.
  predicate HasTurn(s: State, u: Session) {
    u in s.upgraders && (Critical(s.upgraders[u]) || (s.upgraders[u].Connected? && s.lock.None?))
  }

  // The statement it runs next.
  function NextOf(ms: seq<Migration>, s: State, u: Session): Label
    requires HasTurn(s, u)
  {
    match s.upgraders[u]
    case Connected => Lock(u)
    case Locked => CreateLedger(u)
    case Prepared => Inspect(u)
    case Applying(current, next, tx) =>
      if next >= |ms| then Finish(u)
      else if next < current then Skip(u)
      else
        match tx
        case NoTransaction => Begin(u)
        case Begun => RunFile(u)
        case Ran(_) => InsertRow(u)
        case Recorded(_, _) => Commit(u)
  }

  // Nobody but `u` has moved.
  ghost predicate OnlyMoves(s: State, t: State, u: Session) {
    forall v :: v != u ==> (v in t.upgraders <==> v in s.upgraders) && (v in s.upgraders ==> t.upgraders[v] == s.upgraders[v])
  }

  // It is never blocked: not by another upgrader and not by the table's primary key.
  lemma TurnProgress(ms: seq<Migration>, k: nat, s: State, u: Session)
    requires Packaged(ms) && Inv(ms, k, s) && HasTurn(s, u)
    ensures Enabled(ms, s, NextOf(ms, s, u)) && NextOf(ms, s, u).u == u
    ensures var t := Apply(ms, s, NextOf(ms, s, u));
      && OnlyMoves(s, t, u) && u in t.upgraders
      && (if t.upgraders[u].Finished? then t.lock.None?
          else HasTurn(t, u) && StepsLeft(ms, t.upgraders[u]) < StepsLeft(ms, s.upgraders[u]))
    ensures StepsLeft(ms, s.upgraders[u]) >= 0
  {
    assert LoopOk(ms, s, s.upgraders[u]);
  }

  // The database is at the last revision, and `u` is through and has let go of the lock.
  ghost predicate Through(ms: seq<Migration>, s: State, u: Session) {
    && u in s.upgraders && s.upgraders[u].Finished? && s.lock.None?
    && Rows(s.ledger) == RowsOf(ms) && s.schema == SqlOf(ms)
  }

  lemma FinishedIsThrough(ms: seq<Migration>, k: nat, s: State, u: Session)
    requires Inv(ms, k, s) && u in s.upgraders && s.upgraders[u].Finished? && s.lock.None?
    ensures Through(ms, s, u)
  {
    assert ms[..|ms|] == ms;
    FullPrefix(Rows(s.ledger), ms);
  }

  // Its turn ends with the database at the last revision and the lock free.
  lemma {:induction false} TurnFinishes(ms: seq<Migration>, k: nat, s: State, u: Session) returns (run: seq<Label>)
    requires Packaged(ms) && Inv(ms, k, s) && HasTurn(s, u)
    ensures Exec(ms, s, run).Some? && (forall i :: 0 <= i < |run| ==> run[i].u == u)
    ensures var t := Exec(ms, s, run).value; Inv(ms, k, t) && Through(ms, t, u) && OnlyMoves(s, t, u)
    decreases StepsLeft(ms, s.upgraders[u])
  {
    TurnProgress(ms, k, s, u);
    var l := NextOf(ms, s, u);
    var t := Apply(ms, s, l);
    Step(ms, k, s, l);
    ExecOne(ms, s, l);
    if t.upgraders[u].Finished? {
      run := [l];
      FinishedIsThrough(ms, k, t, u);
    } else {
      TurnProgress(ms, k, t, u);
      var rest := TurnFinishes(ms, k, t, u);
      run := [l] + rest;
      ExecConcat(ms, s, [l], rest);
    }
  }

  lemma ExecOne(ms: seq<Migration>, s: State, l: Label)
    ensures Exec(ms, s, [l]) == if Enabled(ms, s, l) then Some(Apply(ms, s, l)) else None
  {
  }

  lemma {:induction false} ExecConcat(ms: seq<Migration>, s: State, a: seq<Label>, b: seq<Label>)
    requires Exec(ms, s, a).Some?
    ensures Exec(ms, s, a + b) == Exec(ms, Exec(ms, s, a).value, b)
  {
    if b == [] {
      assert a + b == a;
    } else {
      ExecConcat(ms, s, a, b[..|b| - 1]);
      assert (a + b)[..|a + b| - 1] == a + b[..|b| - 1];
    }
  }

  // The holder of the lock crashes, or runs to its end; either way the lock comes free.
  lemma HolderLetsGo(ms: seq<Migration>, k: nat, s: State, v: Session, crash: bool) returns (run: seq<Label>)
    requires Packaged(ms) && Inv(ms, k, s) && s.lock == Some(v)
    ensures Exec(ms, s, run).Some? && (forall i :: 0 <= i < |run| ==> run[i].u == v)
    ensures var t := Exec(ms, s, run).value;
      && Inv(ms, k, t) && t.lock.None? && OnlyMoves(s, t, v)
      && v in t.upgraders && (if crash then t.upgraders[v].Crashed? else t.upgraders[v].Finished?)
  {
    if crash {
      run := [Crash(v)];
      ExecOne(ms, s, Crash(v));
      Step(ms, k, s, Crash(v));
    } else {
      run := TurnFinishes(ms, k, s, v);
    }
  }

  // It waits for the lock, or has yet to connect.
  predicate Waits(s: State, u: Session) {
    u in s.upgraders ==> s.upgraders[u].Connected?
  }

  // It connects, if it has not.
  lemma Connects(ms: seq<Migration>, k: nat, s: State, u: Session) returns (run: seq<Label>)
    requires Packaged(ms) && Inv(ms, k, s) && Waits(s, u)
    ensures Exec(ms, s, run).Some? && (forall i :: 0 <= i < |run| ==> run[i].u == u)
    ensures var t := Exec(ms, s, run).value;
      Inv(ms, k, t) && OnlyMoves(s, t, u) && t.lock == s.lock && u in t.upgraders && t.upgraders[u].Connected?
  {
    if u in s.upgraders {
      run := [];
    } else {
      run := [Connect(u)];
      ExecOne(ms, s, Connect(u));
      Step(ms, k, s, Connect(u));
    }
  }

  // From every state a run from such a ledger reaches, every upgrader that waits or is still
  // to come can bring the database to the last revision: once the present holder of the lock
  // has crashed or has run to its end, whichever it does, and nobody else need do anything.
  lemma EveryUpgraderFinishes(
    ms: seq<Migration>, initial: State, before: seq<Label>, u: Session, crash: bool) returns (run: seq<Label>)
    requires Packaged(ms) && Quiescent(initial)
    requires IsPrefix(Rows(initial.ledger), ms) && initial.schema == SqlOf(ms[..|Rows(initial.ledger)|])
    requires Exec(ms, initial, before).Some? && Waits(Exec(ms, initial, before).value, u)
    ensures var s := Exec(ms, initial, before).value;
      && (forall i :: 0 <= i < |run| ==> run[i].u == u || s.lock == Some(run[i].u))
      && Exec(ms, s, run).Some? && Through(ms, Exec(ms, s, run).value, u)
      && var t := Exec(ms, s, run).value.upgraders;
         (s.lock.Some? ==>
            && s.lock.value in t
            && (if crash then t[s.lock.value].Crashed? else t[s.lock.value].Finished?))
  {
    var s, k := Exec(ms, initial, before).value, |Rows(initial.ledger)|;
    ConcurrentUpgradesAreSafe(ms, initial, before);
    var first: seq<Label> := [];
    if s.lock.Some? {
      first := HolderLetsGo(ms, k, s, s.lock.value, crash);
    }
    var s1 := Exec(ms, s, first).value;
    var second := Connects(ms, k, s1, u);
    var third := TurnFinishes(ms, k, Exec(ms, s1, second).value, u);
    ExecConcat(ms, s1, second, third);
    ExecConcat(ms, s, first, second + third);
    run := first + (second + third);
  }

  // ---------- Any other ledger ----------

  // Every upgrader refuses: none gets into its loop.
  ghost predicate NothingDone(rows: seq<Row>, schema: seq<string>, s: State) {
    && Rows(s.ledger) == rows && s.schema == schema && s.commits == [] && Serialised(s)
    && forall u :: u in s.upgraders ==> !s.upgraders[u].Applying? && !s.upgraders[u].Finished?
  }

  lemma OtherStep(ms: seq<Migration>, rows: seq<Row>, schema: seq<string>, s: State, l: Label)
    requires NothingDone(rows, schema, s) && !IsPrefix(rows, ms) && Enabled(ms, s, l)
    ensures NothingDone(rows, schema, Apply(ms, s, l))
  {
  }

  lemma {:induction false} OtherLedgersAreRefused(ms: seq<Migration>, s: State, run: seq<Label>)
    requires Packaged(ms) && Quiescent(s) && !IsPrefix(Rows(s.ledger), ms)
    requires Exec(ms, s, run).Some?
    ensures NothingDone(Rows(s.ledger), s.schema, Exec(ms, s, run).value)
  {
    if run == [] {
    } else {
      OtherLedgersAreRefused(ms, s, run[..|run| - 1]);
      OtherStep(ms, Rows(s.ledger), s.schema, Exec(ms, s, run[..|run| - 1]).value, run[|run| - 1]);
    }
  }

  // Its turn ends with a refusal and the lock free.
  lemma {:induction false} TurnRefuses(ms: seq<Migration>, rows: seq<Row>, schema: seq<string>, s: State, u: Session)
    returns (run: seq<Label>)
    requires NothingDone(rows, schema, s) && !IsPrefix(rows, ms) && HasTurn(s, u)
    ensures Exec(ms, s, run).Some? && (forall i :: 0 <= i < |run| ==> run[i].u == u)
    ensures var t := Exec(ms, s, run).value;
      NothingDone(rows, schema, t) && OnlyMoves(s, t, u) && u in t.upgraders && t.upgraders[u].Refused? && t.lock.None?
    decreases StepsLeft(ms, s.upgraders[u])
  {
    var l := NextOf(ms, s, u);
    var t := Apply(ms, s, l);
    OtherStep(ms, rows, schema, s, l);
    ExecOne(ms, s, l);
    if l.Inspect? {
      run := [l];
    } else {
      var rest := TurnRefuses(ms, rows, schema, t, u);
      run := [l] + rest;
      ExecConcat(ms, s, [l], rest);
    }
  }

  // And every upgrader that waits can still be told so.
  lemma EveryUpgraderIsRefused(
    ms: seq<Migration>, initial: State, before: seq<Label>, u: Session, crash: bool) returns (run: seq<Label>)
    requires Packaged(ms) && Quiescent(initial) && !IsPrefix(Rows(initial.ledger), ms)
    requires Exec(ms, initial, before).Some? && Waits(Exec(ms, initial, before).value, u)
    ensures var s := Exec(ms, initial, before).value;
      && (forall i :: 0 <= i < |run| ==> run[i].u == u || s.lock == Some(run[i].u))
      && Exec(ms, s, run).Some?
      && var t := Exec(ms, s, run).value.upgraders;
         && u in t && t[u].Refused?
         && (s.lock.Some? ==>
               && s.lock.value in t
               && (if crash then t[s.lock.value].Crashed? else t[s.lock.value].Refused?))
  {
    var s, rows, schema := Exec(ms, initial, before).value, Rows(initial.ledger), initial.schema;
    OtherLedgersAreRefused(ms, initial, before);
    var first: seq<Label> := [];
    if s.lock.Some? {
      first := HolderGivesUp(ms, rows, schema, s, s.lock.value, crash);
    }
    var s1 := Exec(ms, s, first).value;
    var second: seq<Label> := if u in s1.upgraders then [] else [Connect(u)];
    ExecOne(ms, s1, Connect(u));
    if u !in s1.upgraders {
      OtherStep(ms, rows, schema, s1, Connect(u));
    }
    var third := TurnRefuses(ms, rows, schema, Exec(ms, s1, second).value, u);
    ExecConcat(ms, s1, second, third);
    ExecConcat(ms, s, first, second + third);
    run := first + (second + third);
  }

  // The holder of the lock crashes, or is refused.
  lemma HolderGivesUp(ms: seq<Migration>, rows: seq<Row>, schema: seq<string>, s: State, v: Session, crash: bool)
    returns (run: seq<Label>)
    requires NothingDone(rows, schema, s) && !IsPrefix(rows, ms) && s.lock == Some(v)
    ensures Exec(ms, s, run).Some? && (forall i :: 0 <= i < |run| ==> run[i].u == v)
    ensures var t := Exec(ms, s, run).value;
      && NothingDone(rows, schema, t) && t.lock.None? && OnlyMoves(s, t, v)
      && v in t.upgraders && (if crash then t.upgraders[v].Crashed? else t.upgraders[v].Refused?)
  {
    if crash {
      run := [Crash(v)];
      ExecOne(ms, s, Crash(v));
      OtherStep(ms, rows, schema, s, Crash(v));
    } else {
      run := TurnRefuses(ms, rows, schema, s, v);
    }
  }
}
