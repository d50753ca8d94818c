/** Which outcomes of an HTTP request the breaker hears of. */
module HttpClient {
  import opened Wrappers
  import opened CircuitBreaker

  datatype Reply =
    | Accepted
    | TooManyRequests
    | ServerError     // status 500 and above
    | ClientError     // any other error status
    | Transport       // timeout, refused connection, operating system error
    | Other           // any other exception

  // One attempt: the two clock readings of its check, its reply, and when that is reported.
  // Other callers share the breaker: `during` is what they do to it while this attempt
  // waits for its turn and its reply, `between` what they do before the next check.
  datatype Attempt = Attempt(
    first: real, second: real, during: seq<Event>, reply: Reply, done: real, between: seq<Event>)

  datatype Outcome = Response | Refused(retryAfter: real) | Raised(reply: Reply) | RateLimited

  const MAX_RETRIES := 5

  predicate InOrder(events: seq<Event>, from: real, to: real) {
    Ordered(events, from) && Latest(events, from) <= to
  }

  // The clock only moves forward, within an attempt and from one to the next.
  predicate Timed(attempts: seq<Attempt>) {
    && (forall i :: 0 <= i < |attempts| ==>
          attempts[i].first <= attempts[i].second && InOrder(attempts[i].during, attempts[i].second, attempts[i].done))
    && (forall i :: 0 <= i < |attempts| - 1 ==>
          InOrder(attempts[i].between, attempts[i].done, attempts[i + 1].first))
    && (forall i :: 0 <= i < |attempts| ==> Ordered(attempts[i].between, attempts[i].done))
  }

  // The event a reply becomes, if any.
  function EventOf(reply: Reply, at: real): Option<Event> {
    match reply
    case Accepted => Some(Success)
    case ServerError => Some(Failure(at))
    case Transport => Some(Failure(at))
    case _ => None
  }

  function Reported(a: Attempt): seq<Event> {
    var e := EventOf(a.reply, a.done);
    if e.Some? then [e.value] else []
  }

  // The first n attempts when all of them were rate limited: this request adds only the
  // reads of its checks.
  function LimitedTrace(attempts: seq<Attempt>, n: nat): seq<Event>
    requires n <= |attempts|
  {
    if n == 0 then []
    else
      var a := attempts[n - 1];
      LimitedTrace(attempts, n - 1) + [Read(a.first)] + a.during + a.between
  }

  // The last attempt: its read and, unless it was refused, what its reply reports.
  function LastTrace(a: Attempt, outcome: Outcome): seq<Event> {
    if outcome.Refused? then [Read(a.first)]
    else [Read(a.first)] + a.during + Reported(a) + if outcome.RateLimited? then a.between else []
  }

  // ---------- What the breaker hears ----------

  // What other callers do to it during the first n attempts and the sleeps that follow them.
  function Others(attempts: seq<Attempt>, n: nat): seq<Event>
    requires n <= |attempts|
  {
    if n == 0 then [] else Others(attempts, n - 1) + attempts[n - 1].during + attempts[n - 1].between
  }

  // Nobody else uses the breaker meanwhile.
  predicate Alone(a: Attempt) {
    a.during == [] && a.between == []
  }

  // One failure more than before, at the given time.
  predicate HeardFailure(before: seq<Event>, after: seq<Event>, at: real) {
    FailuresSinceSuccess(after) == FailuresSinceSuccess(before) + 1 && LastFailure(after) == Some(at)
  }

  predicate HeardSuccess(before: seq<Event>, after: seq<Event>) {
    FailuresSinceSuccess(after) == 0 && LastFailure(after) == LastFailure(before)
  }

  predicate HeardNothing(before: seq<Event>, after: seq<Event>) {
    FailuresSinceSuccess(after) == FailuresSinceSuccess(before) && LastFailure(after) == LastFailure(before)
  }

  lemma {:induction false} WithoutReadsConcat(h: seq<Event>, k: seq<Event>)
    ensures WithoutReads(h + k) == WithoutReads(h) + WithoutReads(k)
  {
    if k == [] {
      assert h + k == h;
    } else {
      WithoutReadsConcat(h, k[..|k| - 1]);
      assert (h + k)[..|h + k| - 1] == h + k[..|k| - 1];
    }
  }

  // A read adds nothing, whatever follows it.
  lemma ReadThenEvents(h: seq<Event>, at: real, k: seq<Event>)
    ensures WithoutReads(h + [Read(at)] + k) == WithoutReads(h + k)
  {
    WithoutReadsConcat(h + [Read(at)], k);
    WithoutReadsConcat(h, [Read(at)]);
    WithoutReadsConcat(h, k);
    assert WithoutReads([Read(at)]) == [];
  }

  lemma OneLimited(front: seq<Event>, others: seq<Event>, at: real, rest: seq<Event>)
    requires WithoutReads(front) == WithoutReads(others)
    ensures WithoutReads(front + [Read(at)] + rest) == WithoutReads(others + rest)
  {
    ReadThenEvents(front, at, rest);
    WithoutReadsConcat(front, rest);
    WithoutReadsConcat(others, rest);
  }

  // Rate-limited attempts let the breaker hear of nothing but what others do.
  lemma {:induction false} LimitedIsOthers(attempts: seq<Attempt>, n: nat)
    requires n <= |attempts|
    ensures WithoutReads(LimitedTrace(attempts, n)) == WithoutReads(Others(attempts, n))
  {
    if n > 0 {
      var a, front, others := attempts[n - 1], LimitedTrace(attempts, n - 1), Others(attempts, n - 1);
      LimitedIsOthers(attempts, n - 1);
      OneLimited(front, others, a.first, a.during + a.between);
      assert LimitedTrace(attempts, n) == front + [Read(a.first)] + (a.during + a.between);
      assert Others(attempts, n) == others + (a.during + a.between);
    }
  }

  lemma {:induction false} AloneHearsNothing(attempts: seq<Attempt>, n: nat)
    requires n <= |attempts| && forall i :: 0 <= i < n ==> Alone(attempts[i])
    ensures Others(attempts, n) == []
  {
    if n > 0 {
      AloneHearsNothing(attempts, n - 1);
    }
  }

  // What a history is worth to the circuit depends on its failures and successes alone.
  lemma SameWorth(h: seq<Event>, k: seq<Event>)
    requires WithoutReads(k) == WithoutReads(h)
    ensures HeardNothing(h, k)
  {
    PureOfWithoutReads(k);
    PureOfWithoutReads(h);
  }

  lemma OneMore(h: seq<Event>, e: Event, k: seq<Event>)
    requires !e.Read? && WithoutReads(k) == WithoutReads(h + [e])
    ensures e.Success? ==> HeardSuccess(h, k)
    ensures e.Failure? ==> HeardFailure(h, k, e.at)
  {
    SameWorth(h + [e], k);
    assert (h + [e])[..|h|] == h;
  }

  lemma SuccessThenFailure(h: seq<Event>, at: real, k: seq<Event>)
    requires WithoutReads(k) == WithoutReads(h + [Success, Failure(at)])
    ensures FailuresSinceSuccess(k) == 1 && LastFailure(k) == Some(at)
  {
    assert h + [Success, Failure(at)] == h + [Success] + [Failure(at)];
    OneMore(h + [Success], Failure(at), k);
    OneMore(h, Success, h + [Success]);
  }

  // Requests in a row that end in a server error or do not get through open the circuit with
  // the one that fills the threshold, and not before; it is open until the recovery time
  // after the last of them.
  lemma {:induction false} FailuresOpenTheCircuit(
    threshold: int, recovery: real, hs: seq<seq<Event>>, ats: seq<real>, now: real)
    requires threshold >= 1 && ats != [] && |hs| == |ats| + 1
    requires forall i :: 0 <= i < |ats| ==> HeardFailure(hs[i], hs[i + 1], ats[i])
    ensures FailuresSinceSuccess(hs[|ats|]) == FailuresSinceSuccess(hs[0]) + |ats|
    ensures CircuitOf(threshold, recovery, hs[|ats|], now).Open? <==>
      FailuresSinceSuccess(hs[0]) + |ats| >= threshold && now < ats[|ats| - 1] + recovery
    ensures CircuitOf(threshold, recovery, hs[|ats|], now).Closed? <==>
      FailuresSinceSuccess(hs[0]) + |ats| < threshold
  {
    var n := |ats| - 1;
    assert HeardFailure(hs[n], hs[n + 1], ats[n]);
    if n > 0 {
      FailuresOpenTheCircuit(threshold, recovery, hs[..n + 1], ats[..n], now);
    }
  }

  // Requests of which the breaker hears nothing, however many, never change the circuit.
  lemma {:induction false} OtherRepliesChangeNothing(threshold: int, recovery: real, hs: seq<seq<Event>>, now: real)
    requires hs != [] && forall i :: 0 <= i < |hs| - 1 ==> HeardNothing(hs[i], hs[i + 1])
    ensures CircuitOf(threshold, recovery, hs[|hs| - 1], now) == CircuitOf(threshold, recovery, hs[0], now)
  {
    if |hs| > 1 {
      OtherRepliesChangeNothing(threshold, recovery, hs[..|hs| - 1], now);
      assert HeardNothing(hs[|hs| - 2], hs[|hs| - 2 + 1]);
    }
  }

  // One that is accepted closes it.
  lemma AcceptedCloses(threshold: int, recovery: real, before: seq<Event>, after: seq<Event>, now: real)
    requires threshold >= 1 && HeardSuccess(before, after)
    ensures CircuitOf(threshold, recovery, after, now).Closed?
  {
  }

  // What other callers do to the breaker, from the given time on.
  method OthersAct(breaker: Breaker, events: seq<Event>, ghost from: real)
    requires breaker.Valid() && breaker.NotLaterThan(from) && Ordered(events, from)
    modifies breaker
    ensures breaker.Valid() && breaker.history == old(breaker.history) + events
    ensures breaker.NotLaterThan(Latest(events, from))
  {
    ghost var before := breaker.history;
    for i := 0 to |events|
      invariant breaker.Valid() && breaker.history == before + events[..i]
      invariant Ordered(events[..i], from) && breaker.NotLaterThan(Latest(events[..i], from))
    {
      OrderedPrefix(events, i + 1, from);
      assert events[..i + 1][..i] == events[..i] && before + events[..i + 1] == before + events[..i] + [events[i]];
      match events[i]
      case Read(at) =>
        var c := breaker.State(at);
      case Success =>
        breaker.RecordSuccess();
      case Failure(at) =>
        breaker.RecordFailure(at);
      LatestOfBoth(before, events[..i + 1], breaker.start, from);
    }
    assert events[..|events|] == events;
  }

  lemma {:induction false} OrderedPrefix(events: seq<Event>, n: nat, from: real)
    requires n <= |events| && Ordered(events, from)
    ensures Ordered(events[..n], from)
    decreases |events|
  {
    if n < |events| {
      OrderedPrefix(events[..|events| - 1], n, from);
      assert events[..|events| - 1][..n] == events[..n];
    } else {
      assert events[..n] == events;
    }
  }

  // The circuit is open when the i-th attempt asks, all before it having been rate limited.
  predicate RefusedAt(threshold: int, recovery: real, h: seq<Event>, attempts: seq<Attempt>, i: nat)
    requires i < |attempts|
  {
    CircuitOf(threshold, recovery, h + LimitedTrace(attempts, i), attempts[i].first).Open?
  }

  // The hint a refusal carries: what is left of the recovery time after the last failure.
  predicate WaitsFor(recovery: real, h: seq<Event>, a: Attempt, retryAfter: real) {
    LastFailure(h).Some? && retryAfter == LastFailure(h).value + recovery - a.second
  }

  // What is heard of a request beside what other callers do: a failure when its last reply
  // is a server error or never came, a success when it was accepted, otherwise nothing.
  ghost predicate RequestHeard(h: seq<Event>, attempts: seq<Attempt>, used: nat, outcome: Outcome, k: seq<Event>)
    requires 1 <= used <= |attempts|
  {
    var last, before := attempts[used - 1], h + Others(attempts, used - 1);
    match outcome
    case Refused(_) => WithoutReads(k) == WithoutReads(before)
    case Response => WithoutReads(k) == WithoutReads(before + last.during + [Success])
    case Raised(ServerError) => WithoutReads(k) == WithoutReads(before + last.during + [Failure(last.done)])
    case Raised(Transport) => WithoutReads(k) == WithoutReads(before + last.during + [Failure(last.done)])
    case Raised(_) => WithoutReads(k) == WithoutReads(before + last.during)
    case RateLimited => WithoutReads(k) == WithoutReads(before + last.during + last.between)
  }

  // The same when nobody else uses the breaker meanwhile.
  ghost predicate HeardAlone(h: seq<Event>, last: Attempt, outcome: Outcome, k: seq<Event>) {
    match outcome
    case Response => HeardSuccess(h, k)
    case Raised(ServerError) => HeardFailure(h, k, last.done)
    case Raised(Transport) => HeardFailure(h, k, last.done)
    case _ => HeardNothing(h, k)
  }

  // The outcome is what the reply says, unless the attempt was refused.
  predicate Answers(outcome: Outcome, reply: Reply) {
    && (outcome.Response? ==> reply.Accepted?)
    && (outcome.RateLimited? ==> reply.TooManyRequests?)
    && (outcome.Raised? ==> outcome.reply == reply && !reply.Accepted?)
  }

  lemma TraceIsHeard(h: seq<Event>, attempts: seq<Attempt>, used: nat, outcome: Outcome, k: seq<Event>)
    requires 1 <= used <= |attempts| && Answers(outcome, attempts[used - 1].reply)
    requires k == h + LimitedTrace(attempts, used - 1) + LastTrace(attempts[used - 1], outcome)
    ensures RequestHeard(h, attempts, used, outcome, k)
  {
    var last := attempts[used - 1];
    var limited, before := h + LimitedTrace(attempts, used - 1), h + Others(attempts, used - 1);
    var rest := LastTrace(last, outcome)[1..];
    assert LastTrace(last, outcome) == [Read(last.first)] + rest;
    assert k == limited + [Read(last.first)] + rest;
    ReadThenEvents(limited, last.first, rest);
    WithoutReadsConcat(limited, rest);
    WithoutReadsConcat(h, LimitedTrace(attempts, used - 1));
    LimitedIsOthers(attempts, used - 1);
    WithoutReadsConcat(h, Others(attempts, used - 1));
    WithoutReadsConcat(before, rest);
    assert WithoutReads(k) == WithoutReads(before + rest);
    AsWritten(before, last, outcome, rest);
  }

  // The events after the last check, one after the other.
  lemma AsWritten(before: seq<Event>, last: Attempt, outcome: Outcome, rest: seq<Event>)
    requires [Read(last.first)] + rest == LastTrace(last, outcome) && Answers(outcome, last.reply)
    ensures before + rest ==
      match outcome
      case Refused(_) => before
      case Response => before + last.during + [Success]
      case Raised(ServerError) => before + last.during + [Failure(last.done)]
      case Raised(Transport) => before + last.during + [Failure(last.done)]
      case Raised(_) => before + last.during
      case RateLimited => before + last.during + last.between
  {
    assert rest == ([Read(last.first)] + rest)[1..];
    match outcome
    case Refused(_) =>
      assert before + rest == before;
    case Response =>
      assert rest == last.during + [Success];
      assert before + rest == before + last.during + [Success];
    case RateLimited =>
      assert rest == last.during + last.between;
      assert before + rest == before + last.during + last.between;
    case Raised(reply) =>
      assert rest == last.during + Reported(last);
      assert before + rest == before + last.during + Reported(last);
      assert before + last.during + [] == before + last.during;
  }

  lemma AloneIsHeard(h: seq<Event>, attempts: seq<Attempt>, used: nat, outcome: Outcome, k: seq<Event>)
    requires 1 <= used <= |attempts| && RequestHeard(h, attempts, used, outcome, k)
    requires forall i :: 0 <= i < used ==> Alone(attempts[i])
    ensures HeardAlone(h, attempts[used - 1], outcome, k)
  {
    var last := attempts[used - 1];
    AloneHearsNothing(attempts, used - 1);
    assert h + [] == h;
    HeardIsAlone(h, last, outcome, k);
  }

  // Nothing but what the last reply makes it hear.
  lemma HeardIsAlone(h: seq<Event>, last: Attempt, outcome: Outcome, k: seq<Event>)
    requires match outcome
      case Response => WithoutReads(k) == WithoutReads(h + [Success])
      case Raised(ServerError) => WithoutReads(k) == WithoutReads(h + [Failure(last.done)])
      case Raised(Transport) => WithoutReads(k) == WithoutReads(h + [Failure(last.done)])
      case _ => WithoutReads(k) == WithoutReads(h)
    ensures HeardAlone(h, last, outcome, k)
  {
    match outcome
    case Response => OneMore(h, Success, k);
    case Raised(ServerError) => OneMore(h, Failure(last.done), k);
    case Raised(Transport) => OneMore(h, Failure(last.done), k);
    case _ => SameWorth(h, k);
  }

  // The first n attempts were let through and rate limited.
  ghost predicate LimitedSoFar(
    threshold: int, recovery: real, h: seq<Event>, attempts: seq<Attempt>, n: nat, k: seq<Event>)
  {
    && n <= |attempts| && k == h + LimitedTrace(attempts, n)
    && (forall i :: 0 <= i < n ==> attempts[i].reply.TooManyRequests?)
    && (forall i :: 0 <= i < n ==> !RefusedAt(threshold, recovery, h, attempts, i))
  }

  // One more.
  lemma LimitedOnce(
    threshold: int, recovery: real, h: seq<Event>, attempts: seq<Attempt>, n: nat, k: seq<Event>, mid: seq<Event>)
    requires LimitedSoFar(threshold, recovery, h, attempts, n, k) && n < |attempts|
    requires attempts[n].reply.TooManyRequests? && !CircuitOf(threshold, recovery, k, attempts[n].first).Open?
    requires mid == k + ([Read(attempts[n].first)] + attempts[n].during + [])
    ensures LimitedSoFar(threshold, recovery, h, attempts, n + 1, mid + attempts[n].between)
  {
    assert mid + attempts[n].between
        == h + (LimitedTrace(attempts, n) + [Read(attempts[n].first)] + attempts[n].during + attempts[n].between);
  }

  // A request has gone through `used` attempts: it goes on while it is rate limited, a
  // refusal ends it, and so does any other reply. It reads the circuit before each attempt
  // and reports at most one event, the last one.
  ghost predicate Requested(
    threshold: int, recovery: real, h: seq<Event>, attempts: seq<Attempt>, used: nat, outcome: Outcome, k: seq<Event>)
  {
    && 1 <= used <= |attempts| && Answers(outcome, attempts[used - 1].reply)
    && (forall i :: 0 <= i < used - 1 ==> attempts[i].reply.TooManyRequests?)
    && (forall i :: 0 <= i < used - 1 ==> !RefusedAt(threshold, recovery, h, attempts, i))
    && (outcome.Refused? <==> RefusedAt(threshold, recovery, h, attempts, used - 1))
    && (outcome.Refused? ==>
          WaitsFor(recovery, h + LimitedTrace(attempts, used - 1), attempts[used - 1], outcome.retryAfter))
    && (outcome.RateLimited? ==> used == 5)
    && k == h + LimitedTrace(attempts, used - 1) + LastTrace(attempts[used - 1], outcome)
    && RequestHeard(h, attempts, used, outcome, k)
    && ((forall i :: 0 <= i < used ==> Alone(attempts[i])) ==> HeardAlone(h, attempts[used - 1], outcome, k))
  }

  lemma Told(h: seq<Event>, attempts: seq<Attempt>, used: nat, outcome: Outcome, k: seq<Event>)
    requires 1 <= used <= |attempts| && Answers(outcome, attempts[used - 1].reply)
    requires k == h + LimitedTrace(attempts, used - 1) + LastTrace(attempts[used - 1], outcome)
    ensures RequestHeard(h, attempts, used, outcome, k)
    ensures (forall i :: 0 <= i < used ==> Alone(attempts[i])) ==> HeardAlone(h, attempts[used - 1], outcome, k)
  {
    TraceIsHeard(h, attempts, used, outcome, k);
    if forall i :: 0 <= i < used ==> Alone(attempts[i]) {
      AloneIsHeard(h, attempts, used, outcome, k);
    }
  }

  // An attempt that was not rate limited ends the request.
  lemma RequestEnds(threshold: int, recovery: real, h: seq<Event>, attempts: seq<Attempt>, n: nat,
                    asked: seq<Event>, outcome: Outcome, k: seq<Event>)
    requires LimitedSoFar(threshold, recovery, h, attempts, n, asked) && n < |attempts|
    requires !outcome.RateLimited? && Answers(outcome, attempts[n].reply)
    requires outcome.Refused? <==> CircuitOf(threshold, recovery, asked, attempts[n].first).Open?
    requires outcome.Refused? ==> WaitsFor(recovery, asked, attempts[n], outcome.retryAfter)
    requires k == asked + if outcome.Refused? then [Read(attempts[n].first)]
                          else [Read(attempts[n].first)] + attempts[n].during + Reported(attempts[n])
    ensures Requested(threshold, recovery, h, attempts, n + 1, outcome, k)
  {
    var last := LastTrace(attempts[n], outcome);
    assert last + [] == last;
    Told(h, attempts, n + 1, outcome, k);
  }

  // When every attempt was, it gives up.
  lemma RequestExhausted(threshold: int, recovery: real, h: seq<Event>, attempts: seq<Attempt>, k: seq<Event>)
    requires |attempts| == MAX_RETRIES && LimitedSoFar(threshold, recovery, h, attempts, MAX_RETRIES, k)
    ensures Requested(threshold, recovery, h, attempts, MAX_RETRIES, RateLimited, k)
  {
    var last := LastTrace(attempts[MAX_RETRIES - 1], RateLimited);
    assert LimitedTrace(attempts, MAX_RETRIES) == LimitedTrace(attempts, MAX_RETRIES - 1) + last;
    assert k == h + LimitedTrace(attempts, MAX_RETRIES - 1) + last;
    assert !RefusedAt(threshold, recovery, h, attempts, MAX_RETRIES - 1);
    Told(h, attempts, MAX_RETRIES, RateLimited, k);
  }

  // What else the breaker hears in between comes from other callers. `used` counts the
  // attempts begun.
  method Request(breaker: Breaker, attempts: seq<Attempt>) returns (outcome: Outcome, used: nat)
    requires breaker.Valid() && |attempts| == MAX_RETRIES && Timed(attempts)
    requires breaker.NotLaterThan(attempts[0].first)
    modifies breaker
    ensures breaker.Valid()
    ensures Requested(
      breaker.threshold, breaker.recovery, old(breaker.history), attempts, used, outcome, breaker.history)
  {
    used := 0;
    while used < MAX_RETRIES
      invariant 0 <= used <= MAX_RETRIES && breaker.Valid()
      invariant used < MAX_RETRIES ==> breaker.NotLaterThan(attempts[used].first)
      invariant LimitedSoFar(
        breaker.threshold, breaker.recovery, old(breaker.history), attempts, used, breaker.history)
    {
      ghost var asked := breaker.history;
      var a := attempts[used];
      outcome := OneAttempt(breaker, a);
      used := used + 1;
      if !outcome.RateLimited? {
        RequestEnds(breaker.threshold, breaker.recovery, old(breaker.history), attempts, used - 1,
                    asked, outcome, breaker.history);
        return;
      }
      // The caller sleeps before the next attempt.
      ghost var limited := breaker.history;
      OthersAct(breaker, a.between, a.done);
      LimitedOnce(
        breaker.threshold, breaker.recovery, old(breaker.history), attempts, used - 1, asked, limited);
    }
    outcome := RateLimited;
    RequestExhausted(breaker.threshold, breaker.recovery, old(breaker.history), attempts, breaker.history);
  }

  // One attempt; a rate-limited one is left for the caller to repeat.
  method OneAttempt(breaker: Breaker, a: Attempt) returns (outcome: Outcome)
    requires breaker.Valid() && breaker.NotLaterThan(a.first) && a.first <= a.second
    requires InOrder(a.during, a.second, a.done)
    modifies breaker
    ensures breaker.Valid() && (!outcome.Refused? ==> breaker.NotLaterThan(a.done))
    ensures outcome.Refused? <==> CircuitOf(breaker.threshold, breaker.recovery, old(breaker.history), a.first).Open?
    ensures outcome.Refused? ==> WaitsFor(breaker.recovery, old(breaker.history), a, outcome.retryAfter)
    ensures outcome.RateLimited? <==> !outcome.Refused? && a.reply.TooManyRequests?
    ensures outcome.Response? <==> !outcome.Refused? && a.reply.Accepted?
    ensures outcome.Raised? ==> outcome.reply == a.reply
    ensures breaker.history == old(breaker.history)
      + if outcome.Refused? then [Read(a.first)] else [Read(a.first)] + a.during + Reported(a)
  {
    var refused := breaker.Check(a.first, a.second);
    if refused.Some? {
      return Refused(refused.value);
    }
    OthersAct(breaker, a.during, a.second);
    match a.reply
    case TooManyRequests =>
      return RateLimited;
    case Accepted =>
      breaker.RecordSuccess();
      return Response;
    case ServerError =>
      breaker.RecordFailure(a.done);
      return Raised(ServerError);
    case Transport =>
      breaker.RecordFailure(a.done);
      return Raised(Transport);
    case _ =>
      return Raised(a.reply);
  }

  // What a download reports: its reply, and once more when the file cannot be written
  // after the reply was accepted. A rate-limited download is neither retried nor reported.
  function DownloadReported(a: Attempt, written: bool, after: real): seq<Event> {
    match a.reply
    case Accepted => if written then [Success] else [Success, Failure(after)]
    case _ => Reported(a)
  }

  // What is heard of a download beside what other callers do. `before` includes theirs.
  ghost predicate DownloadHeard(before: seq<Event>, h: seq<Event>, a: Attempt, written: bool, after: real,
                                outcome: Outcome, k: seq<Event>)
  {
    if outcome.Refused? then WithoutReads(k) == WithoutReads(h)
    else
      match a.reply
      case Accepted =>
        WithoutReads(k) == WithoutReads(before + if written then [Success] else [Success, Failure(after)])
      case ServerError => WithoutReads(k) == WithoutReads(before + [Failure(a.done)])
      case Transport => WithoutReads(k) == WithoutReads(before + [Failure(a.done)])
      case _ => WithoutReads(k) == WithoutReads(before)
  }

  lemma DownloadTold(h: seq<Event>, a: Attempt, written: bool, after: real, outcome: Outcome, k: seq<Event>)
    requires !outcome.RateLimited?
    requires outcome.Response? <==> !outcome.Refused? && a.reply.Accepted? && written
    requires outcome.Raised? ==> outcome.reply == if a.reply.Accepted? then Transport else a.reply
    requires k == h + if outcome.Refused? then [Read(a.first)]
                      else [Read(a.first)] + a.during + DownloadReported(a, written, after)
    ensures DownloadHeard(h + a.during, h, a, written, after, outcome, k)
    ensures Alone(a) && !outcome.Refused? && a.reply.Accepted? && !written ==>
      FailuresSinceSuccess(k) == 1 && LastFailure(k) == Some(after)
    ensures Alone(a) && (outcome.Refused? || written || !a.reply.Accepted?) ==> HeardAlone(h, a, outcome, k)
  {
    var own := if outcome.Refused? then [] else DownloadReported(a, written, after);
    var rest := if outcome.Refused? then [] else a.during + own;
    assert k == h + [Read(a.first)] + rest;
    ReadThenEvents(h, a.first, rest);
    assert h + [] == h && h + a.during + [] == h + a.during;
    if !outcome.Refused? {
      assert h + rest == h + a.during + own;
    }
    if Alone(a) {
      assert h + a.during == h;
      if !outcome.Refused? && a.reply.Accepted? && !written {
        SuccessThenFailure(h, after, k);
      } else {
        HeardIsAlone(h, a, outcome, k);
      }
    }
  }

  // One attempt; `written` says whether storing the file succeeds, `after` when it ends.
  method Download(breaker: Breaker, a: Attempt, written: bool, after: real) returns (outcome: Outcome)
    requires breaker.Valid() && breaker.NotLaterThan(a.first) && a.first <= a.second
    requires InOrder(a.during, a.second, a.done) && a.done <= after
    modifies breaker
    ensures breaker.Valid()
    ensures outcome.Refused? <==> CircuitOf(breaker.threshold, breaker.recovery, old(breaker.history), a.first).Open?
    ensures outcome.Refused? ==> WaitsFor(breaker.recovery, old(breaker.history), a, outcome.retryAfter)
    ensures outcome.Response? <==> !outcome.Refused? && a.reply.Accepted? && written
    ensures outcome.Raised? ==> outcome.reply == if a.reply.Accepted? then Transport else a.reply
    ensures !outcome.RateLimited?
    ensures breaker.history == old(breaker.history)
      + if outcome.Refused? then [Read(a.first)] else [Read(a.first)] + a.during + DownloadReported(a, written, after)
    ensures DownloadHeard(old(breaker.history) + a.during, old(breaker.history), a, written, after, outcome, breaker.history)
    ensures Alone(a) && !outcome.Refused? && a.reply.Accepted? && !written ==>
      FailuresSinceSuccess(breaker.history) == 1 && LastFailure(breaker.history) == Some(after)
    ensures Alone(a) && (outcome.Refused? || written || !a.reply.Accepted?) ==>
      HeardAlone(old(breaker.history), a, outcome, breaker.history)
  {
    outcome := OneAttempt(breaker, a);
    if outcome.Response? && !written {
      breaker.RecordFailure(after);
      outcome := Raised(Transport);
    } else if outcome.RateLimited? {
      outcome := Raised(TooManyRequests);
    }
    DownloadTold(old(breaker.history), a, written, after, outcome, breaker.history);
  }

  // A file that cannot be written counts against the host it came from: it leaves the
  // circuit closed exactly when more than one failure is needed to open it.
  lemma FailedWriteKeepsClosed(threshold: int, recovery: real, h: seq<Event>, at: real, now: real)
    ensures CircuitOf(threshold, recovery, h + [Success, Failure(at)], now).Closed? <==> threshold >= 2
  {
    var k := h + [Success, Failure(at)];
    assert k[..|k| - 1] == h + [Success];
    assert FailuresSinceSuccess(h + [Success]) == 0;
  }
}
