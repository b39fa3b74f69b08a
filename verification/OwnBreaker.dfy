/** `resilient_call` driven through its own circuit breaker: one caller on a fresh key, every attempt
    failing with NATSUnavailableError. The retry loop feeds the breaker that may cut it off. */
module OwnBreaker {
  import opened Resilience
  import opened Retry

  /** Clock readings of one attempt: admission, then recording the outcome, its stats, the opening. */
  datatype Times = Times(admission: real, recorded: real, stats: real, opens: real)

  /** The breaker before attempt `k`, each attempt before having been admitted and having failed. */
  ghost function StateBefore(cfg: Config, times: nat -> Times, k: nat): BreakerState {
    if k == 0 then NEW_STATE
    else
      var t := times(k - 1);
      AfterOutcome(cfg, AfterAdmission(cfg, StateBefore(cfg, times, k - 1), t.admission), false, t.recorded, t.stats, t.opens)
  }

  /** The attempts meet that breaker, and NATS is down. */
  ghost predicate Down(cfg: Config, times: nat -> Times, env: nat -> Attempt, k: nat) {
    && env(k).admitted == Admits(cfg, StateBefore(cfg, times, k), times(k).admission)
    && (!env(k).connected || env(k).reply.Unavailable?)
  }

  /** The clock is monotonic, and the whole call is shorter than the window and the cooldown. */
  ghost predicate Brisk(cfg: Config, times: nat -> Times, k: nat) {
    var t, start := times(k), times(0);
    && start.recorded <= t.recorded <= t.stats <= t.opens && t.opens <= times(k + 1).recorded
    && t.stats - start.recorded <= cfg.windowSeconds
    && times(k + 1).admission - t.opens < cfg.cooldownSeconds
  }

  lemma {:induction false} AllFailures(h: seq<Entry>)
    requires forall e :: e in h ==> !e.ok
    ensures Failures(h) == |h|
  {
    if h != [] {
      AllFailures(h[..|h| - 1]);
    }
  }

  /** A window of `k` failures recorded since `start`. */
  ghost predicate Failing(h: seq<Entry>, k: nat, start: real, end: real) {
    |h| == k && Ascending(h) && forall e :: e in h ==> !e.ok && start <= e.at <= end
  }

  lemma FailuresTrip(cfg: Config, h: seq<Entry>)
    requires h != [] && Failures(h) == |h| && cfg.minRequests >= 1 && cfg.failureRatio <= 1.0
    ensures Trips(cfg, h) <==> |h| >= cfg.minRequests
  {
    assert |h| as real / |h| as real == 1.0;
  }

  lemma Extended(h: seq<Entry>, k: nat, start: real, at: real)
    requires Failing(h, k, start, at) && start <= at
    ensures Failing(h + [Entry(at, false)], k + 1, start, at)
  {
    var longer := h + [Entry(at, false)];
    forall i, j | 0 <= i < j < |longer| ensures longer[i].at <= longer[j].at {
      assert longer[i] in h;
    }
  }

  lemma NothingTrimmed(h: seq<Entry>, k: nat, start: real, end: real, cutoff: real)
    requires Failing(h, k, start, end) && cutoff <= start
    ensures Within(h, cutoff) == h
  {
    assert h != [] ==> h[0] in h;
    AllRecent(h, cutoff);
  }

  lemma OneMoreFailure(cfg: Config, st: BreakerState, k: nat, start: real, t: Times)
    requires st.mode == CLOSED && Failing(st.events, k, start, t.recorded)
    requires start <= t.recorded <= t.stats && t.stats - start <= cfg.windowSeconds
    requires cfg.minRequests >= 1 && cfg.failureRatio <= 1.0
    ensures var after := AfterOutcome(cfg, st, false, t.recorded, t.stats, t.opens);
            && Failing(after.events, k + 1, start, t.recorded)
            && after.mode == (if k + 1 >= cfg.minRequests then OPEN else CLOSED)
            && (after.mode == OPEN ==> after.openedAt == t.opens)
  {
    hide Within, Failures, AfterOutcome, Trips, Ascending;
    var h := st.events + [Entry(t.recorded, false)];
    Extended(st.events, k, start, t.recorded);
    NothingTrimmed(h, k + 1, start, t.recorded, t.recorded - cfg.windowSeconds);
    NothingTrimmed(h, k + 1, start, t.recorded, t.stats - cfg.windowSeconds);
    OutcomeUntrimmed(cfg, st, false, t.recorded, t.stats, t.opens, h);
    assert |h| == k + 1;
    AllFailures(h);
    FailuresTrip(cfg, h);
  }

  /** Below the threshold the breaker stays closed; the failure that reaches it opens it. */
  lemma {:induction false} OpensAtThreshold(cfg: Config, times: nat -> Times, k: nat)
    requires cfg.minRequests >= 1 && cfg.failureRatio <= 1.0 && k <= cfg.minRequests
    requires forall i: nat :: Brisk(cfg, times, i)
    ensures var st := StateBefore(cfg, times, k);
            && Failing(st.events, k, times(0).recorded, times(k).recorded)
            && st.mode == (if k == cfg.minRequests then OPEN else CLOSED)
            && (k > 0 && st.mode == OPEN ==> st.openedAt == times(k - 1).opens)
  {
    hide AfterOutcome, Within;
    if k > 0 {
      OpensAtThreshold(cfg, times, k - 1);
      assert Brisk(cfg, times, k - 1) && Brisk(cfg, times, k);
      OneMoreFailure(cfg, StateBefore(cfg, times, k - 1), k - 1, times(0).recorded, times(k - 1));
    }
  }

  /** A call that meets a dead NATS is cut off by its own breaker exactly when the breaker's
      minimum count is below the attempts allowed; it then makes exactly that many attempts and fails
      fast, and otherwise it exhausts its attempts, every one of them recorded as a failure. */
  lemma CutOffByOwnBreaker(cfg: Config, policy: Policy, times: nat -> Times, env: nat -> Attempt)
    requires cfg.minRequests >= 1 && cfg.failureRatio <= 1.0 && policy.maxAttempts >= 1
    requires forall k: nat :: Brisk(cfg, times, k) && Down(cfg, times, env, k)
    ensures var made := if cfg.minRequests < policy.maxAttempts then cfg.minRequests else policy.maxAttempts;
            && (ResultFrom(policy, env, 0) == BreakerOpen <==> cfg.minRequests < policy.maxAttempts)
            && (ResultFrom(policy, env, 0) != BreakerOpen ==> ResultFrom(policy, env, 0) == RaisedUnavailable)
            && Records(EffectsFrom(policy, env, 0)) == Falses(made)
            && Count(EffectsFrom(policy, env, 0), Admitted) == made
  {
    hide StateBefore, AfterOutcome, Failing, Count, Records, EffectsFrom, ResultFrom;
    forall k: nat | k <= cfg.minRequests ensures env(k).admitted == (k < cfg.minRequests) {
      OpensAtThreshold(cfg, times, k);
      assert Down(cfg, times, env, k);
      if k == cfg.minRequests {
        assert Brisk(cfg, times, k - 1);
      }
    }
    assert !Retryable(env(cfg.minRequests));
    var n := AccountFrom(policy, env, 0);
    assert Down(cfg, times, env, n);
    assert forall k: nat :: k < cfg.minRequests ==> Down(cfg, times, env, k);
    FalsesEnd(n);
    FalsesEnd(n + 1);
  }
}
