/** The bounded retry of src/oneops/adapters/nats_resilience.py: `resilient_call` and its helpers. */
module Retry {
  import opened Text
  import opened Wrappers

  datatype Policy = Policy(maxAttempts: int, initialDelay: real, maxDelay: real)

  /** What `fn` does: return, raise NATSUnavailableError, or raise anything else. */
  datatype Reply = Ok(v: string) | Unavailable | OtherError

  /** What one attempt meets: the breaker's admission (its state is shared with other calls, so it is
      an input), the connection, the reply, and the jitter drawn as a share of the capped delay. */
  datatype Attempt = Attempt(admitted: bool, connected: bool, reply: Reply, jitter: real)

  datatype Result = Returned(v: string) | RaisedUnavailable | RaisedOther | BreakerOpen

  /** What a call does to the outside, in order. */
  datatype Effect = Admitted | Called | Recorded(ok: bool) | Slept(delay: real)

  function MinReal(a: real, b: real): real { if a <= b then a else b }

  function Pow2(n: nat): real {
    if n == 0 then 1.0 else 2.0 * Pow2(n - 1)
  }

  function Capped(policy: Policy, attempt: nat): real {
    MinReal(policy.initialDelay * Pow2(attempt), policy.maxDelay)
  }

  function DelayFor(policy: Policy, attempt: nat, jitter: real): real {
    jitter * Capped(policy, attempt)
  }

  // ── the call ─────────────────────────────────────────────────────────────

  predicate Retryable(a: Attempt) {
    a.admitted && (!a.connected || a.reply.Unavailable?)
  }

  function AttemptEffects(a: Attempt): seq<Effect> {
    if !a.admitted then []
    else if !a.connected then [Admitted, Recorded(false)]
    else [Admitted, Called, Recorded(a.reply.Ok?)]
  }

  function AttemptResult(a: Attempt): Result {
    if !a.admitted then BreakerOpen
    else if !a.connected then RaisedUnavailable
    else
      match a.reply
      case Ok(v) => Returned(v)
      case Unavailable => RaisedUnavailable
      case OtherError => RaisedOther
  }

  function EffectsFrom(policy: Policy, env: nat -> Attempt, k: nat): seq<Effect>
    decreases policy.maxAttempts - k
  {
    if k >= policy.maxAttempts then []
    else if Retryable(env(k)) && k < policy.maxAttempts - 1
    then AttemptEffects(env(k)) + [Slept(DelayFor(policy, k, env(k).jitter))] + EffectsFrom(policy, env, k + 1)
    else AttemptEffects(env(k))
  }

  function ResultFrom(policy: Policy, env: nat -> Attempt, k: nat): Result
    decreases policy.maxAttempts - k
  {
    if k >= policy.maxAttempts then RaisedUnavailable
    else if Retryable(env(k)) && k < policy.maxAttempts - 1 then ResultFrom(policy, env, k + 1)
    else AttemptResult(env(k))
  }

  /** `_retry_or_exhaust`: records the failure, then backs off or, on the last attempt, re-raises. */
  method RetryOrExhaust(policy: Policy, attempt: nat, jitter: real) returns (effects: seq<Effect>, raised: bool)
    ensures raised == (attempt >= policy.maxAttempts - 1)
    ensures effects == [Recorded(false)] + if raised then [] else [Slept(DelayFor(policy, attempt, jitter))]
  {
    effects := [Recorded(false)];
    if attempt >= policy.maxAttempts - 1 {
      return effects, true;
    }
    var delay := DelayFor(policy, attempt, jitter);
    return effects + [Slept(delay)], false;
  }

  /** `_run_one_attempt`: None asks the caller to try again. */
  method RunOneAttempt(policy: Policy, attempt: nat, a: Attempt) returns (effects: seq<Effect>, done: Option<Result>)
    ensures done == if Retryable(a) && attempt < policy.maxAttempts - 1 then None else Some(AttemptResult(a))
    ensures effects == AttemptEffects(a) + if done.None? then [Slept(DelayFor(policy, attempt, a.jitter))] else []
  {
    if !a.admitted {
      return [], Some(BreakerOpen);
    }
    effects := [Admitted];
    if !a.connected {
      var more, raised := RetryOrExhaust(policy, attempt, a.jitter);
      return effects + more, if raised then Some(RaisedUnavailable) else None;
    }
    effects := effects + [Called];
    match a.reply {
      case Unavailable =>
        var more, raised := RetryOrExhaust(policy, attempt, a.jitter);
        return effects + more, if raised then Some(RaisedUnavailable) else None;
      case OtherError =>
        return effects + [Recorded(false)], Some(RaisedOther);
      case Ok(v) =>
        return effects + [Recorded(true)], Some(Returned(v));
    }
  }

  method ResilientCall(policy: Policy, env: nat -> Attempt) returns (effects: seq<Effect>, result: Result)
    ensures effects == EffectsFrom(policy, env, 0) && result == ResultFrom(policy, env, 0)
  {
    effects := [];
    var attempt := 0;
    while attempt < policy.maxAttempts
      invariant attempt >= 0 && EffectsFrom(policy, env, 0) == effects + EffectsFrom(policy, env, attempt)
      invariant ResultFrom(policy, env, 0) == ResultFrom(policy, env, attempt)
    {
      var more, done := RunOneAttempt(policy, attempt, env(attempt));
      AppendAssoc(effects, more, EffectsFrom(policy, env, attempt + 1));
      effects := effects + more;
      match done {
        case Some(r) => return effects, r;
        case None =>
      }
      attempt := attempt + 1;
    }
    return effects, RaisedUnavailable;
  }

  // ── accounting ───────────────────────────────────────────────────────────

  function Count(effects: seq<Effect>, e: Effect): nat {
    if effects == [] then 0 else (if effects[0] == e then 1 else 0) + Count(effects[1..], e)
  }

  /** The outcomes the breaker is told, in order. */
  function Records(effects: seq<Effect>): seq<bool> {
    if effects == [] then [] else (if effects[0].Recorded? then [effects[0].ok] else []) + Records(effects[1..])
  }

  function TotalSlept(effects: seq<Effect>): real {
    if effects == [] then 0.0 else (if effects[0].Slept? then effects[0].delay else 0.0) + TotalSlept(effects[1..])
  }

  lemma TallyFirst(a: seq<Effect>, e: Effect)
    requires a != []
    ensures Count(a, e) == (if a[0] == e then 1 else 0) + Count(a[1..], e)
    ensures Records(a) == (if a[0].Recorded? then [a[0].ok] else []) + Records(a[1..])
    ensures TotalSlept(a) == (if a[0].Slept? then a[0].delay else 0.0) + TotalSlept(a[1..])
  {
  }

  /** Each tally is a homomorphism: the first effect of `a` counts, then the rest. */
  lemma {:induction false} Concat(a: seq<Effect>, b: seq<Effect>, e: Effect)
    ensures Count(a + b, e) == Count(a, e) + Count(b, e)
    ensures Records(a + b) == Records(a) + Records(b)
    ensures TotalSlept(a + b) == TotalSlept(a) + TotalSlept(b)
  {
    if a == [] {
      assert a + b == b;
    } else {
      assert (a + b)[1..] == a[1..] + b && (a + b)[0] == a[0];
      TallyFirst(a, e);
      TallyFirst(a + b, e);
      hide Count, Records, TotalSlept;
      Concat(a[1..], b, e);
      AppendAssoc(if a[0].Recorded? then [a[0].ok] else [], Records(a[1..]), Records(b));
    }
  }

  lemma Single(x: Effect, e: Effect)
    ensures Count([x], e) == if x == e then 1 else 0
    ensures Records([x]) == if x.Recorded? then [x.ok] else []
    ensures TotalSlept([x]) == if x.Slept? then x.delay else 0.0
  {
    assert [x][1..] == [];
  }

  lemma Snoc(a: seq<Effect>, x: Effect, e: Effect)
    ensures Count(a + [x], e) == Count(a, e) + if x == e then 1 else 0
    ensures Records(a + [x]) == Records(a) + if x.Recorded? then [x.ok] else []
    ensures TotalSlept(a + [x]) == TotalSlept(a) + if x.Slept? then x.delay else 0.0
  {
    Concat(a, [x], e);
    Single(x, e);
  }

  lemma OneAttempt(a: Attempt, e: Effect)
    requires e == Called || e == Admitted
    ensures Records(AttemptEffects(a)) == if a.admitted then [a.connected && a.reply.Ok?] else []
    ensures Count(AttemptEffects(a), e) <= 1 && (e == Admitted ==> Count(AttemptEffects(a), e) == if a.admitted then 1 else 0)
    ensures TotalSlept(AttemptEffects(a)) == 0.0
  {
    if a.admitted {
      Single(Admitted, e);
      if a.connected {
        Snoc([Admitted], Called, e);
        Snoc([Admitted] + [Called], Recorded(a.reply.Ok?), e);
        assert AttemptEffects(a) == [Admitted] + [Called] + [Recorded(a.reply.Ok?)];
      } else {
        Snoc([Admitted], Recorded(false), e);
        assert AttemptEffects(a) == [Admitted] + [Recorded(false)];
      }
    }
  }

  lemma FailedAttempt(policy: Policy, env: nat -> Attempt, k: nat, e: Effect)
    requires k < policy.maxAttempts - 1 && Retryable(env(k)) && (e == Called || e == Admitted)
    ensures var now, later := EffectsFrom(policy, env, k), EffectsFrom(policy, env, k + 1);
            && Records(now) == [false] + Records(later)
            && Count(now, e) <= 1 + Count(later, e) && (e == Admitted ==> Count(now, e) == 1 + Count(later, e))
            && TotalSlept(now) == DelayFor(policy, k, env(k).jitter) + TotalSlept(later)
  {
    var d := Slept(DelayFor(policy, k, env(k).jitter));
    OneAttempt(env(k), e);
    Snoc(AttemptEffects(env(k)), d, e);
    Concat(AttemptEffects(env(k)) + [d], EffectsFrom(policy, env, k + 1), e);
  }

  /** The attempts a call gets to make: all but the last are retryable failures. */
  ghost predicate Tried(policy: Policy, env: nat -> Attempt, k: nat, n: nat) {
    && k <= n < policy.maxAttempts
    && (forall i: nat :: k <= i < n ==> Retryable(env(i)))
    && (n < policy.maxAttempts - 1 ==> !Retryable(env(n)))
  }

  function Falses(n: nat): seq<bool> {
    if n == 0 then [] else [false] + Falses(n - 1)
  }

  lemma {:induction false} AccountFrom(policy: Policy, env: nat -> Attempt, k: nat) returns (n: nat)
    requires k < policy.maxAttempts
    ensures Tried(policy, env, k, n)
    ensures ResultFrom(policy, env, k) == AttemptResult(env(n))
    ensures Records(EffectsFrom(policy, env, k)) ==
            Falses(n - k) + (if env(n).admitted then [env(n).connected && env(n).reply.Ok?] else [])
    ensures Count(EffectsFrom(policy, env, k), Admitted) == |Records(EffectsFrom(policy, env, k))|
    ensures Count(EffectsFrom(policy, env, k), Called) <= n - k + 1
    decreases policy.maxAttempts - k
  {
    hide Count, Records, AttemptEffects;
    if Retryable(env(k)) && k < policy.maxAttempts - 1 {
      n := AccountFrom(policy, env, k + 1);
      FailedAttempt(policy, env, k, Called);
      FailedAttempt(policy, env, k, Admitted);
      var last := if env(n).admitted then [env(n).connected && env(n).reply.Ok?] else [];
      AppendAssoc([false], Falses(n - k - 1), last);
    } else {
      n := k;
      OneAttempt(env(k), Called);
      OneAttempt(env(k), Admitted);
    }
  }

  /** Retry accounting: with at least one attempt allowed, the call makes attempts 0 to `n`. All before
      the last one were admitted and met a lost connection or NATSUnavailableError; the last one did
      not, unless no more were allowed; an attempt that meets another exception is the last. Every
      admitted attempt tells the breaker exactly one outcome: failures, followed by a success exactly
      when the call returns. The result is that of the last attempt: its reply, the other exception
      exactly if it met one, NATSUnavailableError exactly if NATS was lost, and the breaker's refusal
      exactly if it was not admitted. */
  lemma RetryAccounting(policy: Policy, env: nat -> Attempt) returns (n: nat)
    requires policy.maxAttempts >= 1
    ensures var effects, result := EffectsFrom(policy, env, 0), ResultFrom(policy, env, 0);
            var last := env(n);
            && n < policy.maxAttempts && (n < policy.maxAttempts - 1 ==> !(last.admitted && (!last.connected || last.reply == Unavailable)))
            && (forall i: nat :: i < n ==> env(i).admitted && (!env(i).connected || env(i).reply == Unavailable))
            && (forall i: nat :: i <= n && env(i).admitted && env(i).connected && env(i).reply == OtherError ==> i == n)
            && Count(effects, Called) <= n + 1
            && Count(effects, Admitted) == |Records(effects)|
            && (result.Returned? <==> Records(effects) == Falses(n) + [true])
            && (!result.Returned? ==> Records(effects) == Falses(if last.admitted then n + 1 else n))
            && (result.Returned? <==> last.admitted && last.connected && last.reply.Ok?)
            && (result.Returned? ==> last.reply == Ok(result.v))
            && (result == RaisedOther <==> last.admitted && last.connected && last.reply == OtherError)
            && (result == RaisedUnavailable <==> last.admitted && (!last.connected || last.reply == Unavailable))
            && (result == BreakerOpen <==> !last.admitted)
  {
    n := AccountFrom(policy, env, 0);
    hide EffectsFrom, ResultFrom, Records, Count, Falses;
    FalsesEnd(n);
    FalsesEnd(n + 1);
    assert true in Falses(n) + [true];
  }

  /** What an attempt that loses NATS does when another one is allowed: the backoff comes last. */
  function LosingOne(a: Attempt, delay: real): seq<Effect> {
    if a.connected then [Admitted, Called, Recorded(false), Slept(delay)] else [Admitted, Recorded(false), Slept(delay)]
  }

  function Share(jitter: real, base: real, maxDelay: real): real {
    if base <= maxDelay then jitter * base else jitter * maxDelay
  }

  /** What attempts `k` to `n - 1` do, which lose NATS: each backoff is a share of the base delay, which
      doubles each time, but of `maxDelay` at most. */
  function Losing(env: nat -> Attempt, base: real, maxDelay: real, k: nat, n: nat): seq<Effect>
    decreases n - k
  {
    if k >= n then []
    else LosingOne(env(k), Share(env(k).jitter, base, maxDelay)) + Losing(env, 2.0 * base, maxDelay, k + 1, n)
  }

  /** What the last attempt does: it is followed by no backoff. */
  function LastOne(a: Attempt): seq<Effect> {
    if !a.admitted then [] else if !a.connected then [Admitted, Recorded(false)] else [Admitted, Called, Recorded(a.reply.Ok?)]
  }

  /** All a call does, in order: the attempts that lose NATS and back off, and then the last one, after
      which there is no sleep. */
  lemma {:induction false} CallInOrder(policy: Policy, env: nat -> Attempt, base: real, k: nat) returns (n: nat)
    requires k < policy.maxAttempts && base == policy.initialDelay * Pow2(k)
    ensures Tried(policy, env, k, n)
    ensures EffectsFrom(policy, env, k) == Losing(env, base, policy.maxDelay, k, n) + LastOne(env(n))
    decreases policy.maxAttempts - k
  {
    LastOneIs(env(k));
    hide LastOne;
    if Retryable(env(k)) && k < policy.maxAttempts - 1 {
      assert 2.0 * base == policy.initialDelay * Pow2(k + 1);
      n := CallInOrder(policy, env, 2.0 * base, k + 1);
      var delay := DelayFor(policy, k, env(k).jitter);
      assert delay == Share(env(k).jitter, base, policy.maxDelay);
      LosingOneIs(env(k), delay);
      assert EffectsFrom(policy, env, k) == LosingOne(env(k), delay) + EffectsFrom(policy, env, k + 1);
      hide AttemptEffects, LosingOne, Losing, Pow2, DelayFor, EffectsFrom;
      AppendAssoc(LosingOne(env(k), delay), Losing(env, 2.0 * base, policy.maxDelay, k + 1, n), LastOne(env(n)));
    } else {
      n := k;
      assert Losing(env, base, policy.maxDelay, k, n) + LastOne(env(k)) == LastOne(env(k));
    }
  }

  lemma LosingOneIs(a: Attempt, delay: real)
    requires Retryable(a)
    ensures LosingOne(a, delay) == AttemptEffects(a) + [Slept(delay)]
  {
  }

  lemma LastOneIs(a: Attempt)
    ensures LastOne(a) == AttemptEffects(a)
  {
  }

  /** With no attempt allowed nothing is done, and the call raises. */
  lemma NoAttempts(policy: Policy, env: nat -> Attempt)
    requires policy.maxAttempts <= 0
    ensures EffectsFrom(policy, env, 0) == [] && ResultFrom(policy, env, 0) == RaisedUnavailable
  {
  }

  lemma {:induction false} FalsesEnd(n: nat)
    ensures Falses(n) + [false] == Falses(n + 1) && |Falses(n)| == n
    ensures forall b :: b in Falses(n) ==> !b
  {
    if n > 0 {
      FalsesEnd(n - 1);
      AppendAssoc([false], Falses(n - 1), [false]);
    }
  }

  /** The sum of `n` delays that double from `base` on, each of them at most `maxDelay`. */
  function CapSum(base: real, maxDelay: real, n: nat): real
    decreases n
  {
    if n == 0 then 0.0 else (if base <= maxDelay then base else maxDelay) + CapSum(2.0 * base, maxDelay, n - 1)
  }

  lemma {:induction false} Pow2Positive(n: nat)
    ensures Pow2(n) >= 1.0
  {
    if n > 0 {
      Pow2Positive(n - 1);
    }
  }

  lemma DelayWithinCap(policy: Policy, k: nat, jitter: real)
    requires policy.initialDelay >= 0.0 && policy.maxDelay >= 0.0 && 0.0 <= jitter <= 1.0
    ensures 0.0 <= DelayFor(policy, k, jitter) <= Capped(policy, k)
  {
    Pow2Positive(k);
    var cap := Capped(policy, k);
    assert policy.initialDelay * Pow2(k) >= 0.0;
    assert cap >= 0.0;
    assert (1.0 - jitter) * cap >= 0.0;
  }

  lemma {:induction false} BackoffFrom(policy: Policy, env: nat -> Attempt, k: nat, base: real)
    requires policy.initialDelay >= 0.0 && policy.maxDelay >= 0.0 && k < policy.maxAttempts
    requires forall i: nat :: 0.0 <= env(i).jitter <= 1.0
    requires base == policy.initialDelay * Pow2(k)
    ensures 0.0 <= TotalSlept(EffectsFrom(policy, env, k)) <= CapSum(base, policy.maxDelay, policy.maxAttempts - 1 - k)
    decreases policy.maxAttempts - k
  {
    if k < policy.maxAttempts - 1 {
      assert 2.0 * base == policy.initialDelay * Pow2(k + 1);
      assert Capped(policy, k) == if base <= policy.maxDelay then base else policy.maxDelay;
      assert !Retryable(env(k)) ==> EffectsFrom(policy, env, k) == AttemptEffects(env(k));
      DelayWithinCap(policy, k, env(k).jitter);
      hide Pow2, Capped, DelayFor, Count, Records, TotalSlept, AttemptEffects, EffectsFrom, Retryable;
      BackoffFrom(policy, env, k + 1, 2.0 * base);
      if Retryable(env(k)) {
        FailedAttempt(policy, env, k, Called);
      } else {
        OneAttempt(env(k), Called);
      }
    } else {
      OneAttempt(env(k), Called);
    }
  }

  /** Total backoff never exceeds the sum of min(initialDelay * 2^i, maxDelay) over the allowed retries. */
  lemma BackoffIsBounded(policy: Policy, env: nat -> Attempt)
    requires policy.initialDelay >= 0.0 && policy.maxDelay >= 0.0 && policy.maxAttempts >= 1
    requires forall i: nat :: 0.0 <= env(i).jitter <= 1.0
    ensures 0.0 <= TotalSlept(EffectsFrom(policy, env, 0)) <= CapSum(policy.initialDelay, policy.maxDelay, policy.maxAttempts - 1)
  {
    assert policy.initialDelay * Pow2(0) == policy.initialDelay;
    BackoffFrom(policy, env, 0, policy.initialDelay);
  }
}
