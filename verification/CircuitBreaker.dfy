/**
 * The circuit breaker, whose stored state is brought up to date only when it is read, and
 * the pure function of its history that it always agrees with.
 */
module CircuitBreaker {
  import opened Wrappers

  datatype Circuit = Closed | Open | HalfOpen

  datatype BreakerState = BreakerState(
    threshold: int, recovery: real, circuit: Circuit, failures: nat, lastFailure: real)

  function New(threshold: int, recovery: real): BreakerState {
    BreakerState(threshold, recovery, Closed, 0, 0.0)
  }

  // ---------- What each method does to the fields ----------

  function AfterRead(b: BreakerState, now: real): BreakerState {
    if b.circuit.Open? && now - b.lastFailure >= b.recovery then b.(circuit := HalfOpen) else b
  }

  function AfterSuccess(b: BreakerState): BreakerState {
    b.(failures := 0, circuit := Closed)
  }

  function AfterFailure(b: BreakerState, now: real): BreakerState {
    var counted := b.(failures := b.failures + 1, lastFailure := now);
    if counted.failures >= b.threshold then counted.(circuit := Open) else counted
  }

  // ---------- History ----------

  datatype Event = Read(at: real) | Success | Failure(at: real)

  function After(b: BreakerState, e: Event): BreakerState {
    match e
    case Read(at) => AfterRead(b, at)
    case Success => AfterSuccess(b)
    case Failure(at) => AfterFailure(b, at)
  }

  function Replay(b: BreakerState, h: seq<Event>): BreakerState {
    if h == [] then b else After(Replay(b, h[..|h| - 1]), h[|h| - 1])
  }

  // The latest clock reading in the history, `start` if there is none.
  function Latest(h: seq<Event>, start: real): real {
    if h == [] then start
    else if h[|h| - 1].Success? then Latest(h[..|h| - 1], start)
    else h[|h| - 1].at
  }

  // Clock readings never decrease.
  predicate Ordered(h: seq<Event>, start: real) {
    h == [] || (
      && Ordered(h[..|h| - 1], start)
      && (!h[|h| - 1].Success? ==> Latest(h[..|h| - 1], start) <= h[|h| - 1].at))
  }

  function FailuresSinceSuccess(h: seq<Event>): nat {
    if h == [] || h[|h| - 1].Success? then 0
    else FailuresSinceSuccess(h[..|h| - 1]) + if h[|h| - 1].Failure? then 1 else 0
  }

  function LastFailure(h: seq<Event>): Option<real> {
    if h == [] then None
    else if h[|h| - 1].Failure? then Some(h[|h| - 1].at)
    else LastFailure(h[..|h| - 1])
  }

  // The circuit as a function of the failures and successes alone.
  function CircuitOf(threshold: int, recovery: real, h: seq<Event>, now: real): Circuit {
    if FailuresSinceSuccess(h) < threshold then Closed
    else
      match LastFailure(h)
      case None => Closed
      case Some(at) => if now - at < recovery then Open else HalfOpen
  }

  // ---------- Refinement ----------

  predicate Agrees(b: BreakerState, h: seq<Event>, start: real) {
    && b.failures == FailuresSinceSuccess(h)
    && (LastFailure(h).Some? ==> b.lastFailure == LastFailure(h).value)
    && (b.failures > 0 ==> LastFailure(h).Some?)
    && (b.circuit.Closed? <==> b.failures < b.threshold)
    && (b.circuit.HalfOpen? ==> Latest(h, start) - b.lastFailure >= b.recovery)
  }

  lemma {:induction false} ReplayAgrees(threshold: int, recovery: real, h: seq<Event>, start: real)
    requires threshold >= 1 && Ordered(h, start)
    ensures var b := Replay(New(threshold, recovery), h);
            b.threshold == threshold && b.recovery == recovery && Agrees(b, h, start)
  {
    if h == [] {
    } else {
      ReplayAgrees(threshold, recovery, h[..|h| - 1], start);
    }
  }

  // Reading the circuit after any history gives the pure function of that history.
  lemma StateRefinesHistory(threshold: int, recovery: real, h: seq<Event>, start: real, now: real)
    requires threshold >= 1 && Ordered(h, start) && Latest(h, start) <= now
    ensures AfterRead(Replay(New(threshold, recovery), h), now).circuit == CircuitOf(threshold, recovery, h, now)
  {
    ReplayAgrees(threshold, recovery, h, start);
  }

  // After this history, a read at `now` gives the pure function's answer.
  predicate RefinesAt(threshold: int, recovery: real, h: seq<Event>, start: real, now: real) {
    Ordered(h, start) && Latest(h, start) <= now ==>
      AfterRead(Replay(New(threshold, recovery), h), now).circuit == CircuitOf(threshold, recovery, h, now)
  }

  // The refinement holds of a breaker if and only if its threshold is at least one: below
  // that, a success closes a circuit that has already failed often enough to be open.
  lemma RefinesIffThresholdPositive(threshold: int, recovery: real)
    ensures threshold >= 1 <==> forall h, start, now :: RefinesAt(threshold, recovery, h, start, now)
  {
    if threshold >= 1 {
      forall h, start, now ensures RefinesAt(threshold, recovery, h, start, now) {
        if Ordered(h, start) && Latest(h, start) <= now {
          StateRefinesHistory(threshold, recovery, h, start, now);
        }
      }
    } else {
      var once := [Failure(0.0)];
      var h := [Failure(0.0), Success];
      assert once[..0] == [] && h[..1] == once;
      assert Latest(once, 0.0) == 0.0 && Ordered(once, 0.0);
      assert LastFailure(h) == LastFailure(once) == Some(0.0);
      assert !RefinesAt(threshold, recovery, h, 0.0, 0.0);
    }
  }

  // The history without its reads.
  function WithoutReads(h: seq<Event>): seq<Event> {
    if h == [] then []
    else WithoutReads(h[..|h| - 1]) + if h[|h| - 1].Read? then [] else [h[|h| - 1]]
  }

  lemma {:induction false} PureOfWithoutReads(h: seq<Event>)
    ensures FailuresSinceSuccess(WithoutReads(h)) == FailuresSinceSuccess(h)
    ensures LastFailure(WithoutReads(h)) == LastFailure(h)
  {
    if h == [] {
    } else {
      var front, e := h[..|h| - 1], h[|h| - 1];
      PureOfWithoutReads(front);
      if e.Read? {
        assert WithoutReads(h) == WithoutReads(front);
      } else {
        assert (WithoutReads(front) + [e])[..|WithoutReads(front)|] == WithoutReads(front);
      }
    }
  }

  // However often, and when, the state was read in between makes no difference.
  lemma ReadsDoNotMatter(threshold: int, recovery: real, h: seq<Event>, k: seq<Event>, start: real, now: real)
    requires threshold >= 1 && WithoutReads(h) == WithoutReads(k)
    requires Ordered(h, start) && Latest(h, start) <= now
    requires Ordered(k, start) && Latest(k, start) <= now
    ensures AfterRead(Replay(New(threshold, recovery), h), now).circuit
         == AfterRead(Replay(New(threshold, recovery), k), now).circuit
  {
    StateRefinesHistory(threshold, recovery, h, start, now);
    StateRefinesHistory(threshold, recovery, k, start, now);
    PureOfWithoutReads(h);
    PureOfWithoutReads(k);
  }

  // ---------- check ----------

  // The circuit is read once to decide and the clock once more for the hint.
  function RetryAfter(b: BreakerState, second: real): real {
    b.recovery - (second - b.lastFailure)
  }

  // `check` lets the caller through, or refuses with how long to wait.
  function CheckResult(b: BreakerState, first: real, second: real): Option<real> {
    if AfterRead(b, first).circuit.Open? then Some(RetryAfter(b, second)) else None
  }

  predicate NoFailure(h: seq<Event>) {
    forall i :: 0 <= i < |h| ==> !h[i].Failure?
  }

  lemma {:induction false} NoFailureKeepsLast(h: seq<Event>, more: seq<Event>)
    requires NoFailure(more)
    ensures LastFailure(h + more) == LastFailure(h)
    ensures FailuresSinceSuccess(h + more) <= FailuresSinceSuccess(h)
  {
    if more == [] {
      assert h + more == h;
    } else {
      var front := more[..|more| - 1];
      NoFailureKeepsLast(h, front);
      assert (h + more)[..|h + more| - 1] == h + front;
    }
  }

  // What comes after a history leaves it no later than it leaves the time it begins at.
  lemma {:induction false} LatestOfBoth(h: seq<Event>, more: seq<Event>, start: real, from: real)
    requires Latest(h, start) <= from && Ordered(h, start) && Ordered(more, from)
    ensures Ordered(h + more, start) && Latest(h + more, start) <= Latest(more, from)
  {
    if more == [] {
      assert h + more == h;
    } else {
      var front := more[..|more| - 1];
      LatestOfBoth(h, front, start, from);
      assert (h + more)[..|h + more| - 1] == h + front;
    }
  }

  // ---------- The breaker as an object ----------

  class Breaker {
    const threshold: int
    const recovery: real
    var circuit: Circuit
    var failures: nat
    var lastFailure: real
    ghost const start: real
    ghost var history: seq<Event>

    ghost function View(): BreakerState
      reads this
    {
      BreakerState(threshold, recovery, circuit, failures, lastFailure)
    }

    ghost predicate Valid()
      reads this
    {
      threshold >= 1 && Ordered(history, start) && View() == Replay(New(threshold, recovery), history)
    }

    // No clock reading so far is later than `now`.
    ghost predicate NotLaterThan(now: real)
      reads this
    {
      Latest(history, start) <= now
    }

    constructor (threshold: int, recovery: real, ghost start: real)
      requires threshold >= 1
      ensures Valid() && history == [] && View() == New(threshold, recovery) && this.start == start
    {
      this.threshold := threshold;
      this.recovery := recovery;
      this.start := start;
      circuit, failures, lastFailure := Closed, 0, 0.0;
      history := [];
    }

    method State(now: real) returns (c: Circuit)
      requires Valid() && NotLaterThan(now)
      modifies this
      ensures Valid() && history == old(history) + [Read(now)]
      ensures c == circuit == CircuitOf(threshold, recovery, old(history), now)
    {
      StateRefinesHistory(threshold, recovery, history, start, now);
      if circuit.Open? {
        var elapsed := now - lastFailure;
        if elapsed >= recovery {
          circuit := HalfOpen;
        }
      }
      c := circuit;
      ghost var before := history;
      history := history + [Read(now)];
      assert history[..|before|] == before;
    }

    method Check(first: real, second: real) returns (refused: Option<real>)
      requires Valid() && NotLaterThan(first) && first <= second
      modifies this
      ensures Valid() && history == old(history) + [Read(first)]
      ensures refused.Some? <==> CircuitOf(threshold, recovery, old(history), first).Open?
      ensures refused == CheckResult(old(View()), first, second)
      ensures refused.Some? ==>
        LastFailure(old(history)).Some? && refused.value == LastFailure(old(history)).value + recovery - second
    {
      ReplayAgrees(threshold, recovery, history, start);
      var current := State(first);
      if current.Open? {
        var elapsed := second - lastFailure;
        refused := Some(recovery - elapsed);
      } else {
        refused := None;
      }
    }

    method RecordSuccess()
      requires Valid()
      modifies this
      ensures Valid() && history == old(history) + [Success]
      ensures circuit.Closed? && failures == 0
    {
      failures := 0;
      circuit := Closed;
      ghost var before := history;
      history := history + [Success];
      assert history[..|before|] == before;
    }

    method RecordFailure(now: real)
      requires Valid() && NotLaterThan(now)
      modifies this
      ensures Valid() && history == old(history) + [Failure(now)]
      ensures failures == old(failures) + 1 && lastFailure == now
      ensures circuit.Open? || circuit == old(circuit)
    {
      failures := failures + 1;
      lastFailure := now;
      if failures >= threshold {
        circuit := Open;
      }
      ghost var before := history;
      history := history + [Failure(now)];
      assert history[..|before|] == before;
    }
  }
}
