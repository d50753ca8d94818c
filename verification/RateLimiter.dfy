/**
 * The per-source token bucket. Its lock makes each `acquire` one step with respect to the
 * others; within it the clock is read, and a caller that must wait sleeps holding the lock.
 * The sleep may last longer than asked, and the job deadline may cancel it.
 */
module RateLimiter {
  import opened Wrappers

  datatype Sleep = Cancelled | Woke(at: real)

  // One call of `acquire`: its first clock reading, and what became of its sleep if it slept.
  datatype Call = Call(now: real, sleep: Sleep)

  datatype Limits = Limits(rate: real, maxTokens: real)

  datatype Bucket = Bucket(limits: Limits, tokens: real, lastRefill: real)

  function Min(a: real, b: real): real {
    if a <= b then a else b
  }

  // Tokens that accrue in the given time.
  function Gain(m: Limits, elapsed: real): real {
    elapsed * m.rate
  }

  function Refill(b: Bucket, now: real): Bucket {
    b.(tokens := Min(b.limits.maxTokens, b.tokens + Gain(b.limits, now - b.lastRefill)), lastRefill := now)
  }

  predicate Waits(b: Bucket, now: real) {
    Refill(b, now).tokens < 1.0
  }

  function WaitTime(b: Bucket, now: real): real
    requires b.limits.rate > 0.0
  {
    (1.0 - Refill(b, now).tokens) / b.limits.rate
  }

  // The bucket after a call, and when the call was granted.
  function AfterCall(b: Bucket, c: Call): (Bucket, Option<real>) {
    var r := Refill(b, c.now);
    if r.tokens < 1.0 then
      match c.sleep
      case Cancelled => (r, None)
      case Woke(at) => (r.(tokens := 0.0, lastRefill := at), Some(at))
    else (r.(tokens := r.tokens - 1.0), Some(c.now))
  }

  // The clock never runs backwards, and a completed sleep lasts at least as long as asked.
  predicate Legal(b: Bucket, c: Call)
    requires b.limits.rate > 0.0
  {
    && b.lastRefill <= c.now
    && (Waits(b, c.now) && c.sleep.Woke? ==> c.now + WaitTime(b, c.now) <= c.sleep.at)
  }

  // A sleep that wastes nothing: it lasts exactly as long as asked, or the burst is a
  // single token, which is all that could have accrued.
  predicate Wasteless(b: Bucket, c: Call)
    requires b.limits.rate > 0.0
  {
    && Legal(b, c)
    && (Waits(b, c.now) && c.sleep.Woke? ==> b.limits.maxTokens == 1.0 || c.sleep.at == c.now + WaitTime(b, c.now))
  }

  // ---------- Runs ----------

  datatype Trace = Trace(bucket: Bucket, grants: seq<real>)

  function Start(rate: real, maxTokens: real, now: real): Trace {
    Trace(Bucket(Limits(rate, maxTokens), maxTokens, now), [])
  }

  function Next(t: Trace, c: Call): Trace {
    var (b, grant) := AfterCall(t.bucket, c);
    Trace(b, if grant.Some? then t.grants + [grant.value] else t.grants)
  }

  function Run(t: Trace, calls: seq<Call>): Trace {
    if calls == [] then t else Next(Run(t, calls[..|calls| - 1]), calls[|calls| - 1])
  }

  lemma {:induction false} RunKeepsLimits(t: Trace, calls: seq<Call>)
    ensures Run(t, calls).bucket.limits == t.bucket.limits
  {
    if calls != [] {
      RunKeepsLimits(t, calls[..|calls| - 1]);
    }
  }

  predicate LegalRun(t: Trace, calls: seq<Call>)
    requires t.bucket.limits.rate > 0.0
  {
    calls == [] || (
      RunKeepsLimits(t, calls[..|calls| - 1]);
      LegalRun(t, calls[..|calls| - 1]) && Legal(Run(t, calls[..|calls| - 1]).bucket, calls[|calls| - 1]))
  }

  predicate WastelessRun(t: Trace, calls: seq<Call>)
    requires t.bucket.limits.rate > 0.0
  {
    calls == [] || (
      RunKeepsLimits(t, calls[..|calls| - 1]);
      WastelessRun(t, calls[..|calls| - 1]) && Wasteless(Run(t, calls[..|calls| - 1]).bucket, calls[|calls| - 1]))
  }

  // ---------- The window bound ----------

  // Grants i..j do not exceed the burst plus what accrues between the first and the last.
  predicate WindowBound(m: Limits, grants: seq<real>) {
    forall i, j :: 0 <= i <= j < |grants| ==>
      (j - i + 1) as real <= m.maxTokens + Gain(m, grants[j] - grants[i])
  }

  // What the window starting at grant i still allows at time t.
  function Slack(m: Limits, grants: seq<real>, i: nat, t: real): real
    requires i < |grants|
  {
    m.maxTokens + Gain(m, t - grants[i]) - (|grants| - i) as real
  }

  // Every window open at time t still allows this much.
  ghost predicate Allows(m: Limits, grants: seq<real>, t: real, amount: real) {
    forall i :: 0 <= i < |grants| ==> amount <= Slack(m, grants, i, t)
  }

  // The tokens never exceed what any open window still allows.
  ghost predicate WithinSlack(b: Bucket, grants: seq<real>) {
    0.0 <= b.tokens <= b.limits.maxTokens && Allows(b.limits, grants, b.lastRefill, b.tokens)
  }

  lemma GainAdds(m: Limits, x: real, y: real)
    ensures Gain(m, x + y) == Gain(m, x) + Gain(m, y)
  {
  }

  lemma GainNonNegative(m: Limits, x: real)
    requires x >= 0.0 && m.rate >= 0.0
    ensures Gain(m, x) >= 0.0
  {
  }

  lemma GainOfWait(m: Limits, need: real)
    requires m.rate > 0.0
    ensures Gain(m, need / m.rate) == need
  {
  }

  // As time passes, every window's allowance grows at the same rate.
  lemma SlackGrows(m: Limits, grants: seq<real>, i: nat, s: real, t: real)
    requires i < |grants|
    ensures Slack(m, grants, i, t) == Slack(m, grants, i, s) + Gain(m, t - s)
  {
  }

  lemma RefillWithinSlack(b: Bucket, grants: seq<real>, now: real)
    requires b.limits.rate > 0.0 && WithinSlack(b, grants) && b.lastRefill <= now
    ensures WithinSlack(Refill(b, now), grants)
  {
    GainNonNegative(b.limits, now - b.lastRefill);
    var tokens := Refill(b, now).tokens;
    forall i | 0 <= i < |grants| ensures tokens <= Slack(b.limits, grants, i, now) {
      SlackGrows(b.limits, grants, i, b.lastRefill, now);
      assert b.tokens <= Slack(b.limits, grants, i, b.lastRefill);
    }
  }

  // A grant that every open window allows keeps the bound.
  lemma GrantKeepsBound(m: Limits, grants: seq<real>, at: real)
    requires m.maxTokens >= 1.0 && WindowBound(m, grants) && Allows(m, grants, at, 1.0)
    ensures WindowBound(m, grants + [at])
  {
    var after := grants + [at];
    forall i, j | 0 <= i <= j < |after|
      ensures (j - i + 1) as real <= m.maxTokens + Gain(m, after[j] - after[i])
    {
      if j == |grants| && i < j {
        assert 1.0 <= Slack(m, grants, i, at);
      }
    }
  }

  lemma SlackAfterGrant(m: Limits, grants: seq<real>, at: real, i: nat)
    requires i <= |grants|
    ensures Slack(m, grants + [at], i, at) ==
      if i < |grants| then Slack(m, grants, i, at) - 1.0 else m.maxTokens - 1.0
  {
  }

  // A grant at `at` that leaves `left` tokens, when every open window allows that much.
  lemma GrantWithinSlack(m: Limits, grants: seq<real>, at: real, left: real)
    requires m.maxTokens >= 1.0 && WindowBound(m, grants) && 0.0 <= left <= m.maxTokens - 1.0
    requires Allows(m, grants, at, left + 1.0)
    ensures Allows(m, grants + [at], at, left) && WindowBound(m, grants + [at])
  {
    assert Allows(m, grants, at, 1.0) by {
      forall i | 0 <= i < |grants| ensures 1.0 <= Slack(m, grants, i, at) {
        assert left + 1.0 <= Slack(m, grants, i, at);
      }
    }
    GrantKeepsBound(m, grants, at);
    forall i | 0 <= i < |grants| + 1 ensures left <= Slack(m, grants + [at], i, at) {
      SlackAfterGrant(m, grants, at, i);
    }
  }

  // After a long enough sleep every open window allows one more grant.
  lemma SleepFreesSlack(b: Bucket, grants: seq<real>, wake: real)
    requires b.limits.rate > 0.0 && WithinSlack(b, grants)
    requires wake >= b.lastRefill + (1.0 - b.tokens) / b.limits.rate
    ensures Allows(b.limits, grants, wake, 1.0)
  {
    var need := (1.0 - b.tokens) / b.limits.rate;
    var slept := wake - b.lastRefill;
    GainOfWait(b.limits, 1.0 - b.tokens);
    GainAdds(b.limits, need, slept - need);
    GainNonNegative(b.limits, slept - need);
    assert need + (slept - need) == slept;
    forall i | 0 <= i < |grants| ensures 1.0 <= Slack(b.limits, grants, i, wake) {
      SlackGrows(b.limits, grants, i, b.lastRefill, wake);
      assert b.tokens <= Slack(b.limits, grants, i, b.lastRefill);
    }
  }

  lemma WindowStep(t: Trace, c: Call)
    requires t.bucket.limits.rate > 0.0 && t.bucket.limits.maxTokens >= 1.0 && Legal(t.bucket, c)
    requires WithinSlack(t.bucket, t.grants) && WindowBound(t.bucket.limits, t.grants)
    ensures WithinSlack(Next(t, c).bucket, Next(t, c).grants)
    ensures WindowBound(Next(t, c).bucket.limits, Next(t, c).grants)
  {
    var r := Refill(t.bucket, c.now);
    RefillWithinSlack(t.bucket, t.grants, c.now);
    if !Waits(t.bucket, c.now) {
      GrantWithinSlack(r.limits, t.grants, c.now, r.tokens - 1.0);
    } else if c.sleep.Woke? {
      SleepFreesSlack(r, t.grants, c.sleep.at);
      GrantWithinSlack(r.limits, t.grants, c.sleep.at, 0.0);
    }
  }

  // In every run, however long callers oversleep and whoever is cancelled mid-sleep, any
  // consecutive grants stay within the burst plus the rate times the time they span.
  lemma {:induction false} GrantsStayWithinRate(rate: real, maxTokens: real, start: real, calls: seq<Call>)
    requires rate > 0.0 && maxTokens >= 1.0 && LegalRun(Start(rate, maxTokens, start), calls)
    ensures var t := Run(Start(rate, maxTokens, start), calls);
            WithinSlack(t.bucket, t.grants) && WindowBound(t.bucket.limits, t.grants)
  {
    var t0 := Start(rate, maxTokens, start);
    if calls == [] {
    } else {
      var front := calls[..|calls| - 1];
      GrantsStayWithinRate(rate, maxTokens, start, front);
      RunKeepsLimits(t0, front);
      WindowStep(Run(t0, front), calls[|calls| - 1]);
    }
  }

  // ---------- Never needlessly slow ----------

  // The value is the least of the burst capacity and what the open windows still allow.
  ghost predicate IsAllowance(m: Limits, grants: seq<real>, t: real, value: real) {
    && value <= m.maxTokens && Allows(m, grants, t, value)
    && (value == m.maxTokens || exists i :: 0 <= i < |grants| && value == Slack(m, grants, i, t))
  }

  lemma RefillIsAllowance(b: Bucket, grants: seq<real>, now: real)
    requires b.limits.rate > 0.0 && b.lastRefill <= now
    requires IsAllowance(b.limits, grants, b.lastRefill, b.tokens)
    ensures IsAllowance(b.limits, grants, now, Refill(b, now).tokens)
  {
    var m, last := b.limits, b.lastRefill;
    GainNonNegative(m, now - last);
    var tokens := Refill(b, now).tokens;
    forall i | 0 <= i < |grants| ensures tokens <= Slack(m, grants, i, now) {
      SlackGrows(m, grants, i, last, now);
      assert b.tokens <= Slack(m, grants, i, last);
    }
    if tokens != m.maxTokens {
      var k :| 0 <= k < |grants| && b.tokens == Slack(m, grants, k, last);
      SlackGrows(m, grants, k, last, now);
      assert tokens == Slack(m, grants, k, now);
    }
  }

  lemma GrantIsAllowance(m: Limits, grants: seq<real>, at: real, value: real)
    requires IsAllowance(m, grants, at, value)
    ensures IsAllowance(m, grants + [at], at, value - 1.0)
  {
    var after := grants + [at];
    forall i | 0 <= i < |after| ensures value - 1.0 <= Slack(m, after, i, at) {
      SlackAfterGrant(m, grants, at, i);
    }
    var k := |grants|;
    if value != m.maxTokens {
      k :| 0 <= k < |grants| && value == Slack(m, grants, k, at);
    }
    SlackAfterGrant(m, grants, at, k);
    assert value - 1.0 == Slack(m, after, k, at);
  }

  // A caller that slept exactly as long as asked finds exactly one token.
  lemma ExactSleepFillsOne(b: Bucket, now: real)
    requires b.limits.rate > 0.0 && b.limits.maxTokens >= 1.0 && Waits(b, now)
    ensures Refill(Refill(b, now), now + WaitTime(b, now)).tokens == 1.0
    ensures WaitTime(b, now) >= 0.0
  {
  }

  // A grant to a caller that slept, exactly as long as asked or not.
  lemma SleptIsAllowance(b: Bucket, grants: seq<real>, now: real, wake: real)
    requires b.limits.rate > 0.0 && b.limits.maxTokens >= 1.0 && b.lastRefill <= now
    requires IsAllowance(b.limits, grants, b.lastRefill, b.tokens) && WithinSlack(b, grants) && Waits(b, now)
    requires wake == now + WaitTime(b, now) || (b.limits.maxTokens == 1.0 && wake >= now + WaitTime(b, now))
    ensures IsAllowance(b.limits, grants + [wake], wake, 0.0)
  {
    var m, r := b.limits, Refill(b, now);
    RefillIsAllowance(b, grants, now);
    RefillWithinSlack(b, grants, now);
    if wake == now + WaitTime(b, now) {
      ExactSleepFillsOne(b, now);
      RefillIsAllowance(r, grants, wake);
      GrantIsAllowance(m, grants, wake, 1.0);
    } else {
      SleepFreesSlack(r, grants, wake);
      forall i | 0 <= i < |grants| + 1 ensures 0.0 <= Slack(m, grants + [wake], i, wake) {
        assert i < |grants| ==> 1.0 <= Slack(m, grants, i, wake);
        SlackAfterGrant(m, grants, wake, i);
      }
      SlackAfterGrant(m, grants, wake, |grants|);
    }
  }

  lemma AllowanceStep(t: Trace, c: Call)
    requires t.bucket.limits.rate > 0.0 && t.bucket.limits.maxTokens >= 1.0 && Wasteless(t.bucket, c)
    requires IsAllowance(t.bucket.limits, t.grants, t.bucket.lastRefill, t.bucket.tokens)
    requires WithinSlack(t.bucket, t.grants)
    ensures var u := Next(t, c); IsAllowance(u.bucket.limits, u.grants, u.bucket.lastRefill, u.bucket.tokens)
  {
    RefillIsAllowance(t.bucket, t.grants, c.now);
    if !Waits(t.bucket, c.now) {
      GrantIsAllowance(t.bucket.limits, t.grants, c.now, Refill(t.bucket, c.now).tokens);
    } else if c.sleep.Woke? {
      SleptIsAllowance(t.bucket, t.grants, c.now, c.sleep.at);
    }
  }

  lemma {:induction false} WastelessIsLegal(t: Trace, calls: seq<Call>)
    requires t.bucket.limits.rate > 0.0 && WastelessRun(t, calls)
    ensures LegalRun(t, calls)
  {
    if calls != [] {
      WastelessIsLegal(t, calls[..|calls| - 1]);
    }
  }

  // When no sleep wastes anything the lazily refilled count is the closed-form minimum over
  // the windows.
  lemma {:induction false} TokensAreTheAllowance(rate: real, maxTokens: real, start: real, calls: seq<Call>, now: real)
    requires rate > 0.0 && maxTokens >= 1.0 && WastelessRun(Start(rate, maxTokens, start), calls)
    requires Run(Start(rate, maxTokens, start), calls).bucket.lastRefill <= now
    ensures var t := Run(Start(rate, maxTokens, start), calls);
            IsAllowance(t.bucket.limits, t.grants, now, Refill(t.bucket, now).tokens)
  {
    var t0 := Start(rate, maxTokens, start);
    RunKeepsLimits(t0, calls);
    AllowanceInvariant(rate, maxTokens, start, calls);
    var t := Run(t0, calls);
    RefillIsAllowance(t.bucket, t.grants, now);
  }

  lemma {:induction false} AllowanceInvariant(rate: real, maxTokens: real, start: real, calls: seq<Call>)
    requires rate > 0.0 && maxTokens >= 1.0 && WastelessRun(Start(rate, maxTokens, start), calls)
    ensures var t := Run(Start(rate, maxTokens, start), calls);
            IsAllowance(t.bucket.limits, t.grants, t.bucket.lastRefill, t.bucket.tokens)
  {
    var t0 := Start(rate, maxTokens, start);
    if calls == [] {
    } else {
      var front := calls[..|calls| - 1];
      AllowanceInvariant(rate, maxTokens, start, front);
      WastelessIsLegal(t0, front);
      GrantsStayWithinRate(rate, maxTokens, start, front);
      RunKeepsLimits(t0, front);
      AllowanceStep(Run(t0, front), calls[|calls| - 1]);
    }
  }

  // One more grant at this instant would break the bound for a window starting at an
  // earlier grant.
  ghost predicate GrantWouldBreak(m: Limits, grants: seq<real>, now: real) {
    exists i :: 0 <= i < |grants| && (|grants| - i + 1) as real > m.maxTokens + Gain(m, now - grants[i])
  }

  lemma AllowanceDecides(m: Limits, grants: seq<real>, now: real, value: real)
    requires m.maxTokens >= 1.0 && IsAllowance(m, grants, now, value)
    ensures value < 1.0 <==> GrantWouldBreak(m, grants, now)
  {
    if value < 1.0 {
      var k :| 0 <= k < |grants| && value == Slack(m, grants, k, now);
      assert (|grants| - k + 1) as real > m.maxTokens + Gain(m, now - grants[k]);
    } else {
      forall i | 0 <= i < |grants|
        ensures (|grants| - i + 1) as real <= m.maxTokens + Gain(m, now - grants[i])
      {
        assert value <= Slack(m, grants, i, now);
      }
    }
  }

  // When no sleep wastes anything a caller waits if and only if granting at once would break the bound.
  lemma WaitsOnlyWhenItMust(rate: real, maxTokens: real, start: real, calls: seq<Call>, now: real)
    requires rate > 0.0 && maxTokens >= 1.0 && WastelessRun(Start(rate, maxTokens, start), calls)
    requires Run(Start(rate, maxTokens, start), calls).bucket.lastRefill <= now
    ensures var t := Run(Start(rate, maxTokens, start), calls);
            Waits(t.bucket, now) <==> GrantWouldBreak(t.bucket.limits, t.grants, now)
  {
    var t0 := Start(rate, maxTokens, start);
    var t := Run(t0, calls);
    RunKeepsLimits(t0, calls);
    TokensAreTheAllowance(rate, maxTokens, start, calls, now);
    AllowanceDecides(t.bucket.limits, t.grants, now, Refill(t.bucket, now).tokens);
  }

  lemma RunOneMore(t: Trace, calls: seq<Call>, c: Call)
    requires t.bucket.limits.rate > 0.0 && LegalRun(t, calls) && Run(t, calls).bucket.limits.rate > 0.0
    requires Legal(Run(t, calls).bucket, c)
    ensures LegalRun(t, calls + [c]) && Run(t, calls + [c]) == Next(Run(t, calls), c)
  {
  }

  // After this run a caller waits at `now` although no window would break.
  ghost predicate NeedlesslySlow(t0: Trace, calls: seq<Call>, now: real)
    requires t0.bucket.limits.rate > 0.0
  {
    && LegalRun(t0, calls)
    && var t := Run(t0, calls);
       t.bucket.lastRefill <= now && Waits(t.bucket, now) && !GrantWouldBreak(t.bucket.limits, t.grants, now)
  }

  // ---------- A burst of one token ----------

  lemma {:induction false} UnitBurstIsWasteless(t: Trace, calls: seq<Call>)
    requires t.bucket.limits.rate > 0.0 && t.bucket.limits.maxTokens == 1.0 && LegalRun(t, calls)
    ensures WastelessRun(t, calls)
  {
    if calls != [] {
      UnitBurstIsWasteless(t, calls[..|calls| - 1]);
      RunKeepsLimits(t, calls[..|calls| - 1]);
    }
  }

  // ---------- A larger burst, and an oversleep ----------

  // k callers at the start, each of whom finds a token.
  function AtOnce(start: real, k: nat): seq<Call> {
    seq(k, _ => Call(start, Cancelled))
  }

  function Grants(start: real, k: nat): seq<real> {
    seq(k, _ => start)
  }

  lemma {:induction false} Drained(m: Limits, start: real, k: nat)
    requires m.rate > 0.0 && k as real <= m.maxTokens
    ensures var t0 := Start(m.rate, m.maxTokens, start);
      && LegalRun(t0, AtOnce(start, k))
      && Run(t0, AtOnce(start, k)) == Trace(Bucket(m, m.maxTokens - k as real, start), Grants(start, k))
  {
    if k > 0 {
      var t0 := Start(m.rate, m.maxTokens, start);
      var c := Call(start, Cancelled);
      Drained(m, start, k - 1);
      assert AtOnce(start, k) == AtOnce(start, k - 1) + [c];
      assert Grants(start, k) == Grants(start, k - 1) + [start];
      var b := Bucket(m, m.maxTokens - (k - 1) as real, start);
      assert Gain(m, 0.0) == 0.0 && b.tokens >= 1.0;
      assert Refill(b, start) == b;
      RunOneMore(t0, AtOnce(start, k - 1), c);
    }
  }

  // How long after the oversleep a caller still waits needlessly.
  function Later(m: Limits): real
    requires m.rate > 0.0
  {
    (if m.maxTokens < 2.0 then 2.0 - m.maxTokens else 0.0) / m.rate
  }

  // The bucket has been drained, and the next caller slept long enough for two tokens.
  lemma Overslept(m: Limits, start: real, k: nat) returns (calls: seq<Call>)
    requires m.rate > 0.0 && k as real <= m.maxTokens < k as real + 1.0
    ensures var t0, wake := Start(m.rate, m.maxTokens, start), start + 2.0 / m.rate;
      LegalRun(t0, calls) && Run(t0, calls) == Trace(Bucket(m, 0.0, wake), Grants(start, k) + [wake])
  {
    var t0, wake := Start(m.rate, m.maxTokens, start), start + 2.0 / m.rate;
    Drained(m, start, k);
    var b := Bucket(m, m.maxTokens - k as real, start);
    assert Refill(b, start) == b by {
      assert Gain(m, 0.0) == 0.0;
    }
    var c := Call(start, Woke(wake));
    assert (1.0 - b.tokens) / m.rate <= 2.0 / m.rate by {
      assert (1.0 - b.tokens) / m.rate + (1.0 + b.tokens) / m.rate == 2.0 / m.rate;
    }
    RunOneMore(t0, AtOnce(start, k), c);
    calls := AtOnce(start, k) + [c];
  }

  // No window breaks if the next caller is granted a token at once.
  lemma WindowsAllow(m: Limits, start: real, k: nat, wake: real, now: real)
    requires m.rate > 0.0 && 1.0 < m.maxTokens && k as real <= m.maxTokens < k as real + 1.0
    requires wake == start + 2.0 / m.rate && now == wake + Later(m)
    ensures !GrantWouldBreak(m, Grants(start, k) + [wake], now)
  {
    var grants := Grants(start, k) + [wake];
    var need := if m.maxTokens < 2.0 then 2.0 - m.maxTokens else 0.0;
    GainOfWait(m, 2.0);
    GainOfWait(m, need);
    GainAdds(m, 2.0 / m.rate, Later(m));
    assert now - start == 2.0 / m.rate + Later(m) && now - wake == Later(m);
    forall i | 0 <= i < |grants| ensures (|grants| - i + 1) as real <= m.maxTokens + Gain(m, now - grants[i]) {
      if i < k {
        assert grants[i] == start;
      }
    }
  }

  // With a burst above one token an oversleep throws away what accrued meanwhile, and a
  // caller then waits although no window would break.
  lemma OversleepIsWasteful(rate: real, maxTokens: real, start: real) returns (calls: seq<Call>, now: real)
    requires rate > 0.0 && maxTokens > 1.0
    ensures NeedlesslySlow(Start(rate, maxTokens, start), calls, now)
  {
    var m, k := Limits(rate, maxTokens), maxTokens.Floor;
    calls := Overslept(m, start, k);
    var wake := start + 2.0 / rate;
    now := wake + Later(m);
    WindowsAllow(m, start, k, wake, now);
    GainOfWait(m, if maxTokens < 2.0 then 2.0 - maxTokens else 0.0);
    assert now - wake == Later(m) >= 0.0;
  }

  // No legal run, however long its callers oversleep, leaves the bucket needlessly slow if
  // and only if the burst is a single token.
  lemma NeverNeedlesslySlowIffUnitBurst(rate: real, maxTokens: real, start: real)
    requires rate > 0.0 && maxTokens >= 1.0
    ensures maxTokens == 1.0 <==>
      forall calls, now :: !NeedlesslySlow(Start(rate, maxTokens, start), calls, now)
  {
    var t0 := Start(rate, maxTokens, start);
    if maxTokens == 1.0 {
      forall calls, now ensures !NeedlesslySlow(t0, calls, now) {
        if LegalRun(t0, calls) && Run(t0, calls).bucket.lastRefill <= now {
          UnitBurstIsWasteless(t0, calls);
          WaitsOnlyWhenItMust(rate, maxTokens, start, calls, now);
        }
      }
    } else {
      var calls, now := OversleepIsWasteful(rate, maxTokens, start);
    }
  }

  // ---------- The bucket as an object ----------

  class TokenBucket {
    const rate: real
    const maxTokens: real
    var tokens: real
    var lastRefill: real
    ghost var grants: seq<real>

    ghost function View(): Trace
      reads this
    {
      Trace(Bucket(Limits(rate, maxTokens), tokens, lastRefill), grants)
    }

    // Every grant so far, and every grant to come, within the rate.
    ghost predicate Valid()
      reads this
    {
      rate > 0.0 && maxTokens >= 1.0 && WithinSlack(View().bucket, grants) && WindowBound(View().bucket.limits, grants)
    }

    constructor (rate: real, maxTokens: real, now: real)
      requires rate > 0.0 && maxTokens >= 1.0
      ensures View() == Start(rate, maxTokens, now) && Valid()
    {
      this.rate := rate;
      this.maxTokens := maxTokens;
      tokens := maxTokens;
      lastRefill := now;
      grants := [];
    }

    // `sleep` is what becomes of the caller's sleep, should it have to wait.
    method Acquire(now: real, sleep: Sleep) returns (granted: Option<real>)
      requires Valid() && Legal(View().bucket, Call(now, sleep))
      modifies this
      ensures Valid()
      ensures View() == Next(old(View()), Call(now, sleep))
      ensures granted == AfterCall(old(View()).bucket, Call(now, sleep)).1
    {
      ghost var after := Next(View(), Call(now, sleep));
      WindowStep(View(), Call(now, sleep));
      var elapsed := now - lastRefill;
      tokens := Min(maxTokens, tokens + Gain(Limits(rate, maxTokens), elapsed));
      lastRefill := now;
      if tokens < 1.0 {
        match sleep
        case Cancelled =>
          granted := None;
        case Woke(at) =>
          tokens := 0.0;
          lastRefill := at;
          granted := Some(at);
      } else {
        tokens := tokens - 1.0;
        granted := Some(now);
      }
      grants := if granted.Some? then grants + [granted.value] else grants;
      assert View() == after;
    }
  }
}
