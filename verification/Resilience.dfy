/** Circuit breaker and bounded retry of src/oneops/adapters/nats_resilience.py. Clock readings are
    arguments; the clock never runs backwards. */
module Resilience {

  // ── rolling window ───────────────────────────────────────────────────────

  datatype Entry = Entry(at: real, ok: bool)

  /** The outcomes recorded at or after `cutoff`, in order. */
  function Within(h: seq<Entry>, cutoff: real): seq<Entry> {
    if h == [] then []
    else Within(h[..|h| - 1], cutoff) + if h[|h| - 1].at >= cutoff then [h[|h| - 1]] else []
  }

  function Failures(h: seq<Entry>): nat {
    if h == [] then 0 else Failures(h[..|h| - 1]) + if h[|h| - 1].ok then 0 else 1
  }

  ghost predicate Ascending(h: seq<Entry>) {
    forall i, j :: 0 <= i < j < |h| ==> h[i].at <= h[j].at
  }

  /** The window holds every outcome at or after the cutoff as often as the history, and no other one. */
  lemma {:induction false} WithinIs(h: seq<Entry>, cutoff: real, e: Entry)
    ensures multiset(Within(h, cutoff))[e] == if e.at >= cutoff then multiset(h)[e] else 0
  {
    if h != [] {
      var front, last := h[..|h| - 1], h[|h| - 1];
      WithinIs(front, cutoff, e);
      assert h == front + [last];
    }
  }

  /** The outcomes before `k` are too old, and the one at `k`, if there is one, is not. */
  ghost predicate CutAt(h: seq<Entry>, cutoff: real, k: nat) {
    k <= |h| && (forall i :: 0 <= i < k ==> h[i].at < cutoff) && (k < |h| ==> h[k].at >= cutoff)
  }

  lemma CutSnoc(h: seq<Entry>, last: Entry, cutoff: real, k: nat) returns (n: nat)
    requires Ascending(h + [last]) && CutAt(h, cutoff, k)
    ensures CutAt(h + [last], cutoff, n)
    ensures (h + [last])[n..] == h[k..] + if last.at >= cutoff then [last] else []
  {
    var all := h + [last];
    assert all[|h|] == last && forall i :: 0 <= i < |h| ==> all[i] == h[i];
    n := if last.at >= cutoff then k else |all|;
    if last.at >= cutoff {
      assert all[k..] == h[k..] + [last];
    } else {
      forall i | 0 <= i < |h| ensures h[i].at < cutoff {
        assert all[i].at <= all[|h|].at;
      }
      assert all[n..] == [] && h[k..] == [];
    }
  }

  /** In an ascending history it is what follows the outcomes that are too old. */
  lemma {:induction false} WindowIsSuffix(h: seq<Entry>, cutoff: real) returns (k: nat)
    requires Ascending(h)
    ensures CutAt(h, cutoff, k) && Within(h, cutoff) == h[k..]
  {
    if h == [] {
      k := 0;
    } else {
      var front, last := h[..|h| - 1], h[|h| - 1];
      assert front + [last] == h;
      k := WindowIsSuffix(front, cutoff);
      assert Within(h, cutoff) == Within(front, cutoff) + if last.at >= cutoff then [last] else [];
      hide Within, CutAt, Ascending;
      k := CutSnoc(front, last, cutoff, k);
    }
  }

  /** The positions of the failed outcomes. */
  function Failed(h: seq<Entry>): set<int> {
    set i | 0 <= i < |h| && !h[i].ok
  }

  /** `Failures` counts the failed outcomes. */
  lemma {:induction false} FailuresIs(h: seq<Entry>)
    ensures Failures(h) == |Failed(h)|
  {
    if h == [] {
      assert Failed(h) == {};
    } else {
      var front := h[..|h| - 1];
      FailuresIs(front);
      assert Failed(h) == Failed(front) + if h[|h| - 1].ok then {} else {|h| - 1};
    }
  }

  /** The `popleft` loop of the window: drops entries from the left while they are too old. */
  method TrimLeft(events: seq<Entry>, cutoff: real) returns (kept: seq<Entry>)
    requires Ascending(events)
    ensures kept == Within(events, cutoff)
  {
    kept := events;
    while kept != [] && kept[0].at < cutoff
      invariant Ascending(kept) && Within(kept, cutoff) == Within(events, cutoff)
      decreases |kept|
    {
      DropOldHead(kept, cutoff);
      kept := kept[1..];
    }
    AllRecent(kept, cutoff);
  }

  lemma {:induction false} DropOldHead(h: seq<Entry>, cutoff: real)
    requires h != [] && h[0].at < cutoff
    ensures Within(h, cutoff) == Within(h[1..], cutoff)
  {
    if |h| > 1 {
      DropOldHead(h[..|h| - 1], cutoff);
      assert h[1..][..|h| - 2] == h[..|h| - 1][1..];
    }
  }

  lemma {:induction false} AllRecent(h: seq<Entry>, cutoff: real)
    requires Ascending(h) && (h != [] ==> h[0].at >= cutoff)
    ensures Within(h, cutoff) == h
  {
    if h != [] {
      AllRecent(h[..|h| - 1], cutoff);
    }
  }

  /** Trimming a history that was already trimmed less far gives the same window. */
  lemma {:induction false} TrimTwice(h: seq<Entry>, early: real, late: real)
    requires early <= late
    ensures Within(Within(h, early), late) == Within(h, late)
  {
    if h != [] {
      var front, last := h[..|h| - 1], h[|h| - 1];
      TrimTwice(front, early, late);
      if last.at >= early {
        assert (Within(front, early) + [last])[..|Within(front, early)|] == Within(front, early);
      } else {
        assert Within(h, early) == Within(front, early);
      }
    }
  }

  lemma {:induction false} WithinAscends(h: seq<Entry>, cutoff: real)
    requires Ascending(h)
    ensures Ascending(Within(h, cutoff))
    ensures forall e :: e in Within(h, cutoff) ==> e in h
  {
    if h != [] {
      WithinAscends(h[..|h| - 1], cutoff);
      var w := Within(h[..|h| - 1], cutoff);
      forall i | 0 <= i < |w| ensures w[i].at <= h[|h| - 1].at {
        assert w[i] in h[..|h| - 1];
      }
    }
  }

  // ── breaker ──────────────────────────────────────────────────────────────

  datatype Mode = CLOSED | OPEN | HALF_OPEN

  datatype BreakerState = BreakerState(mode: Mode, openedAt: real, events: seq<Entry>)

  const NEW_STATE := BreakerState(CLOSED, 0.0, [])

  datatype Config = Config(failureRatio: real, minRequests: int, windowSeconds: real, cooldownSeconds: real)

  type States = map<string, BreakerState>

  function StateOf(states: States, key: string): BreakerState {
    if key in states then states[key] else NEW_STATE
  }

  function Admits(cfg: Config, st: BreakerState, now: real): bool {
    st.mode != OPEN || now - st.openedAt >= cfg.cooldownSeconds
  }

  function AfterAdmission(cfg: Config, st: BreakerState, now: real): BreakerState {
    if st.mode == OPEN && now - st.openedAt >= cfg.cooldownSeconds then st.(mode := HALF_OPEN) else st
  }

  /** The opening condition; with minRequests at least 1 the division is always defined. */
  predicate Exceeds(cfg: Config, total: nat, failures: nat) {
    total >= cfg.minRequests && total > 0 && failures as real / total as real >= cfg.failureRatio
  }

  /** The opening condition over a window's (total, failures). */
  predicate Trips(cfg: Config, window: seq<Entry>) {
    Exceeds(cfg, |window|, Failures(window))
  }

  /** `record`: readings `t1` when the outcome enters the window, `t2` when the stats are taken, `t3`
      when the breaker opens. */
  function AfterOutcome(cfg: Config, st: BreakerState, ok: bool, t1: real, t2: real, t3: real): BreakerState {
    var events := Within(st.events + [Entry(t1, ok)], t1 - cfg.windowSeconds);
    match st.mode
    case HALF_OPEN => if ok then BreakerState(CLOSED, st.openedAt, events) else BreakerState(OPEN, t3, events)
    case OPEN => st.(events := events)
    case CLOSED =>
      var window := Within(events, t2 - cfg.windowSeconds);
      if Trips(cfg, window) then BreakerState(OPEN, t3, window) else st.(events := window)
  }

  class CircuitBreaker {
    const cfg: Config
    var states: States

    constructor (cfg: Config)
      ensures this.cfg == cfg && states == map[]
    {
      this.cfg := cfg;
      states := map[];
    }

    /** Admission: false stands for the NATSUnavailableError of an open breaker. */
    method BeforeCall(key: string, now: real) returns (admitted: bool)
      modifies this
      ensures admitted == Admits(cfg, StateOf(old(states), key), now)
      ensures states == old(states)[key := AfterAdmission(cfg, StateOf(old(states), key), now)]
    {
      if key !in states {
        states := states[key := NEW_STATE];
      }
      var st := states[key];
      if st.mode == OPEN {
        if now - st.openedAt >= cfg.cooldownSeconds {
          states := states[key := st.(mode := HALF_OPEN)];
        } else {
          return false;
        }
      }
      return true;
    }

    method Record(key: string, ok: bool, t1: real, t2: real, t3: real)
      requires cfg.minRequests >= 1
      requires Ascending(StateOf(states, key).events + [Entry(t1, ok)])
      modifies this
      ensures states == old(states)[key := AfterOutcome(cfg, StateOf(old(states), key), ok, t1, t2, t3)]
    {
      if key !in states {
        states := states[key := NEW_STATE];
      }
      var st := RecordOn(states[key], ok, t1, t2, t3);
      states := states[key := st];
    }

    method RecordOn(before: BreakerState, ok: bool, t1: real, t2: real, t3: real) returns (st: BreakerState)
      requires cfg.minRequests >= 1 && Ascending(before.events + [Entry(t1, ok)])
      ensures st == AfterOutcome(cfg, before, ok, t1, t2, t3)
    {
      var events := TrimLeft(before.events + [Entry(t1, ok)], t1 - cfg.windowSeconds);
      st := before.(events := events);
      if st.mode == HALF_OPEN {
        if ok {
          st := st.(mode := CLOSED);
        } else {
          st := st.(mode := OPEN, openedAt := t3);
        }
        return;
      }
      if st.mode == CLOSED {
        assert Ascending(events) by { WithinAscends(before.events + [Entry(t1, ok)], t1 - cfg.windowSeconds); }
        var window, total, failures := Stats(events, t2 - cfg.windowSeconds);
        st := st.(events := window);
        if Exceeds(cfg, total, failures) {
          st := st.(mode := OPEN, openedAt := t3);
        }
      }
    }
  }

  /** `stats`: trims the deque and counts what is left. */
  method Stats(events: seq<Entry>, cutoff: real) returns (window: seq<Entry>, total: nat, failures: nat)
    requires Ascending(events)
    ensures window == Within(events, cutoff) && total == |window| && failures == Failures(window)
  {
    window := TrimLeft(events, cutoff);
    total, failures := |window|, 0;
    for i := 0 to |window|
      invariant failures == Failures(window[..i])
    {
      assert window[..i + 1][..i] == window[..i];
      if !window[i].ok {
        failures := failures + 1;
      }
    }
    assert window[..|window|] == window;
  }

  // ── runs over all keys ───────────────────────────────────────────────────

  datatype Event =
    | Admission(key: string, at: real)
    | Outcome(key: string, ok: bool, at: real, statsAt: real, openAt: real)

  function EndOf(e: Event): real {
    if e.Admission? then e.at else e.openAt
  }

  /** The clock readings of a run never go back. */
  ghost predicate Timely(evs: seq<Event>) {
    && (forall i :: 0 <= i < |evs| && evs[i].Outcome? ==> evs[i].at <= evs[i].statsAt <= evs[i].openAt)
    && (forall i, j :: 0 <= i < j < |evs| ==> EndOf(evs[i]) <= evs[j].at)
  }

  function Apply(cfg: Config, states: States, e: Event): States {
    match e
    case Admission(key, at) => states[key := AfterAdmission(cfg, StateOf(states, key), at)]
    case Outcome(key, ok, t1, t2, t3) => states[key := AfterOutcome(cfg, StateOf(states, key), ok, t1, t2, t3)]
  }

  function RunFrom(cfg: Config, states: States, evs: seq<Event>): States {
    if evs == [] then states else Apply(cfg, RunFrom(cfg, states, evs[..|evs| - 1]), evs[|evs| - 1])
  }

  function Run(cfg: Config, evs: seq<Event>): States {
    RunFrom(cfg, map[], evs)
  }

  /** Every outcome ever recorded on a key, with its time. */
  function History(evs: seq<Event>, key: string): seq<Entry> {
    if evs == [] then []
    else
      var e := evs[|evs| - 1];
      History(evs[..|evs| - 1], key) + if e.Outcome? && e.key == key then [Entry(e.at, e.ok)] else []
  }

  lemma {:induction false} HistoryIsTimely(evs: seq<Event>, key: string)
    requires Timely(evs)
    ensures Ascending(History(evs, key))
    ensures forall h :: h in History(evs, key) ==> exists i :: 0 <= i < |evs| && h.at <= EndOf(evs[i])
  {
    if evs != [] {
      var front, e := evs[..|evs| - 1], evs[|evs| - 1];
      HistoryIsTimely(front, key);
      forall i, j | 0 <= i < j < |History(evs, key)| ensures History(evs, key)[i].at <= History(evs, key)[j].at {
        if j == |History(front, key)| {
          var h := History(front, key)[i];
          assert h in History(front, key);
          var k :| 0 <= k < |front| && h.at <= EndOf(front[k]);
        }
      }
      forall h | h in History(evs, key) ensures exists i :: 0 <= i < |evs| && h.at <= EndOf(evs[i]) {
        if h in History(front, key) {
          var k :| 0 <= k < |front| && h.at <= EndOf(front[k]);
          assert evs[k] == front[k];
        } else {
          assert h.at <= EndOf(evs[|evs| - 1]);
        }
      }
    }
  }

  /** The trimmed window of a key is the key's full history cut off no later than the window length
      before the last event. */
  ghost predicate Tracks(cfg: Config, st: BreakerState, history: seq<Entry>, end: real) {
    exists cutoff :: cutoff <= end - cfg.windowSeconds && st.events == Within(history, cutoff)
  }

  ghost function LastTime(evs: seq<Event>): real {
    if evs == [] then 0.0 else EndOf(evs[|evs| - 1])
  }

  lemma OutcomeTracks(cfg: Config, st: BreakerState, h: seq<Entry>, ok: bool, t1: real, t2: real, t3: real)
    requires Tracks(cfg, st, h, t1) && t1 <= t2 <= t3
    ensures Tracks(cfg, AfterOutcome(cfg, st, ok, t1, t2, t3), h + [Entry(t1, ok)], t3)
    ensures st.mode == CLOSED ==>
              var window := Within(h + [Entry(t1, ok)], t2 - cfg.windowSeconds);
              AfterOutcome(cfg, st, ok, t1, t2, t3) ==
              if Trips(cfg, window) then BreakerState(OPEN, t3, window) else st.(events := window)
  {
    var c :| c <= t1 - cfg.windowSeconds && st.events == Within(h, c);
    var full, cutoff := h + [Entry(t1, ok)], t1 - cfg.windowSeconds;
    WindowStep(h, c, Entry(t1, ok), cutoff);
    TrimTwice(full, cutoff, t2 - cfg.windowSeconds);
    var after := AfterOutcome(cfg, st, ok, t1, t2, t3);
    if st.mode == CLOSED {
      assert after.events == Within(full, t2 - cfg.windowSeconds) && t2 - cfg.windowSeconds <= t3 - cfg.windowSeconds;
    } else {
      assert after.events == Within(full, cutoff) && cutoff <= t3 - cfg.windowSeconds;
    }
  }

  lemma LaterTracks(cfg: Config, st: BreakerState, h: seq<Entry>, now: real, later: real)
    requires Tracks(cfg, st, h, now) && now <= later
    ensures Tracks(cfg, st, h, later)
  {
    var c :| c <= now - cfg.windowSeconds && st.events == Within(h, c);
    assert c <= later - cfg.windowSeconds;
  }

  lemma HistoryStep(evs: seq<Event>, key: string)
    requires evs != []
    ensures var e := evs[|evs| - 1];
            History(evs, key) ==
            if e.Outcome? && e.key == key then History(evs[..|evs| - 1], key) + [Entry(e.at, e.ok)] else History(evs[..|evs| - 1], key)
  {
  }

  /** The key's deque is its full record history cut off somewhere outside the window; a key never
      recorded on has an empty one. */
  lemma {:induction false} DequeTracksHistory(cfg: Config, evs: seq<Event>, key: string, now: real)
    requires Timely(evs) && (evs != [] ==> LastTime(evs) <= now)
    ensures Tracks(cfg, StateOf(Run(cfg, evs), key), History(evs, key), now)
  {
    if evs == [] {
      assert NEW_STATE.events == Within([], now - cfg.windowSeconds);
    } else {
      hide Within, History, AfterOutcome;
      var front, e := evs[..|evs| - 1], evs[|evs| - 1];
      assert front != [] ==> EndOf(evs[|evs| - 2]) <= e.at;
      DequeTracksHistory(cfg, front, key, e.at);
      HistoryStep(evs, key);
      var st, h := StateOf(Run(cfg, front), key), History(front, key);
      if e.Outcome? && e.key == key {
        OutcomeTracks(cfg, st, h, e.ok, e.at, e.statsAt, e.openAt);
        LaterTracks(cfg, StateOf(Run(cfg, evs), key), History(evs, key), e.openAt, now);
      } else {
        LaterTracks(cfg, st, h, e.at, now);
        var c :| c <= now - cfg.windowSeconds && st.events == Within(h, c);
        assert StateOf(Run(cfg, evs), key).events == Within(h, c);
      }
    }
  }

  /** Refinement, for every key of every run, in any mode, and every later clock reading: trimming the
      key's deque then leaves exactly the outcomes of its full record history of the last
      `windowSeconds`, so (total, failures) are the counts over that history. */
  lemma WindowTracksHistory(cfg: Config, evs: seq<Event>, key: string, now: real)
    requires Timely(evs) && (evs != [] ==> LastTime(evs) <= now)
    ensures var st, recent := StateOf(Run(cfg, evs), key), Within(History(evs, key), now - cfg.windowSeconds);
            && Within(st.events, now - cfg.windowSeconds) == recent
            && |Within(st.events, now - cfg.windowSeconds)| == |recent|
            && Failures(Within(st.events, now - cfg.windowSeconds)) == Failures(recent)
  {
    DequeTracksHistory(cfg, evs, key, now);
    var st, h := StateOf(Run(cfg, evs), key), History(evs, key);
    hide Within, History, Run, Timely, Failures;
    var c :| c <= now - cfg.windowSeconds && st.events == Within(h, c);
    TrimTwice(h, c, now - cfg.windowSeconds);
  }

  /** An outcome on a closed breaker when nothing has left the window yet. */
  lemma OutcomeUntrimmed(cfg: Config, st: BreakerState, ok: bool, t1: real, t2: real, t3: real, h: seq<Entry>)
    requires st.mode == CLOSED && h == st.events + [Entry(t1, ok)]
    requires Within(h, t1 - cfg.windowSeconds) == h == Within(h, t2 - cfg.windowSeconds)
    ensures AfterOutcome(cfg, st, ok, t1, t2, t3) == if Trips(cfg, h) then BreakerState(OPEN, t3, h) else st.(events := h)
  {
  }

  lemma ExceedsIs(cfg: Config, total: nat, failures: nat)
    requires cfg.minRequests >= 1
    ensures Exceeds(cfg, total, failures) <==> total >= cfg.minRequests && failures as real >= cfg.failureRatio * (total as real)
  {
    if total > 0 {
      QuotientAtLeast(failures as real, total as real, cfg.failureRatio);
    }
  }

  lemma QuotientAtLeast(f: real, t: real, r: real)
    requires t > 0.0
    ensures f / t >= r <==> f >= r * t
  {
    var q := f / t;
    assert q * t == f;
    assert q >= r ==> (q - r) * t >= 0.0;
    assert q < r ==> (r - q) * t > 0.0;
  }

  lemma OpensWhenExceeded(cfg: Config, evs: seq<Event>, e: Event)
    requires Timely(evs + [e]) && e.Outcome? && StateOf(Run(cfg, evs), e.key).mode == CLOSED
    ensures var window := Within(History(evs + [e], e.key), e.statsAt - cfg.windowSeconds);
            var after := StateOf(Run(cfg, evs + [e]), e.key);
            && after.events == window
            && (after.mode == OPEN <==> Exceeds(cfg, |window|, Failures(window)))
            && (after.mode == OPEN ==> after.openedAt == e.openAt)
            && (after.mode != OPEN ==> after.mode == CLOSED)
  {
    assert (evs + [e])[..|evs|] == evs && (evs + [e])[|evs|] == e;
    TimelyPrefix(evs, e);
    assert Run(cfg, evs + [e]) == Apply(cfg, Run(cfg, evs), e);
    hide Timely, Tracks, Within, History, Run, RunFrom, AfterOutcome, Failures, Exceeds;
    DequeTracksHistory(cfg, evs, e.key, e.at);
    HistoryStep(evs + [e], e.key);
    OutcomeTracks(cfg, StateOf(Run(cfg, evs), e.key), History(evs, e.key), e.ok, e.at, e.statsAt, e.openAt);
  }

  /** The exact opening condition: an outcome recorded on a closed breaker opens it if and only if, over
      the key's full history of the last `windowSeconds`, there are at least `minRequests` outcomes and
      the failed ones are at least the share `failureRatio` of them. */
  lemma OpensIff(cfg: Config, evs: seq<Event>, e: Event)
    requires cfg.minRequests >= 1
    requires Timely(evs + [e]) && e.Outcome? && StateOf(Run(cfg, evs), e.key).mode == CLOSED
    ensures var window := Within(History(evs + [e], e.key), e.statsAt - cfg.windowSeconds);
            var after := StateOf(Run(cfg, evs + [e]), e.key);
            && after.events == window
            && (after.mode == OPEN <==>
                  |window| >= cfg.minRequests && |Failed(window)| as real >= cfg.failureRatio * (|window| as real))
            && (after.mode == OPEN ==> after.openedAt == e.openAt)
            && (after.mode != OPEN ==> after.mode == CLOSED)
  {
    hide *;
    var window := Within(History(evs + [e], e.key), e.statsAt - cfg.windowSeconds);
    OpensWhenExceeded(cfg, evs, e);
    FailuresIs(window);
    ExceedsIs(cfg, |window|, Failures(window));
  }

  /** A closed breaker whose failures stay below the ratio never opens, however many outcomes there are. */
  lemma BelowRatioStaysClosed(cfg: Config, evs: seq<Event>, e: Event)
    requires cfg.minRequests >= 1
    requires Timely(evs + [e]) && e.Outcome? && StateOf(Run(cfg, evs), e.key).mode == CLOSED
    requires var window := Within(History(evs + [e], e.key), e.statsAt - cfg.windowSeconds);
             Failures(window) as real < cfg.failureRatio * (|window| as real)
    ensures StateOf(Run(cfg, evs + [e]), e.key).mode == CLOSED
  {
    hide *;
    FailuresIs(Within(History(evs + [e], e.key), e.statsAt - cfg.windowSeconds));
    OpensIff(cfg, evs, e);
  }

  /** One failure among a hundred outcomes is not half of them. */
  lemma OneInHundredIsNotHalf()
    ensures !Exceeds(Config(0.5, 20, 30.0, 15.0), 100, 1) && Exceeds(Config(0.5, 20, 30.0, 15.0), 100, 50)
  {
    ExceedsIs(Config(0.5, 20, 30.0, 15.0), 100, 1);
    ExceedsIs(Config(0.5, 20, 30.0, 15.0), 100, 50);
  }

  lemma TimelyPrefix(evs: seq<Event>, e: Event)
    requires Timely(evs + [e]) && e.Outcome?
    ensures Timely(evs) && (evs != [] ==> LastTime(evs) <= e.at) && e.at <= e.statsAt <= e.openAt
  {
    var all := evs + [e];
    assert forall i :: 0 <= i < |evs| ==> evs[i] == all[i];
    assert all[|evs|] == e;
    if evs != [] {
      assert EndOf(all[|evs| - 1]) <= all[|evs|].at;
    }
  }

  /** Appending an outcome to a trimmed window and trimming again equals trimming the full history. */
  lemma WindowStep(h: seq<Entry>, early: real, e: Entry, cutoff: real)
    requires early <= cutoff
    ensures Within(Within(h, early) + [e], cutoff) == Within(h + [e], cutoff)
  {
    assert (Within(h, early) + [e])[..|Within(h, early)|] == Within(h, early);
    assert (h + [e])[..|h|] == h;
    TrimTwice(h, early, cutoff);
  }

  // ── safety over runs ─────────────────────────────────────────────────────

  /** Within the cooldown an open breaker stays open with its opening time, whatever late outcomes
      arrive, and so admits no call on its key. */
  lemma {:induction false} OpenRejects(cfg: Config, states: States, key: string, evs: seq<Event>, at: real)
    requires StateOf(states, key).mode == OPEN
    requires forall i :: 0 <= i < |evs| ==> evs[i].at < StateOf(states, key).openedAt + cfg.cooldownSeconds
    ensures var st := StateOf(RunFrom(cfg, states, evs), key);
            && st.mode == OPEN && st.openedAt == StateOf(states, key).openedAt
            && (at < st.openedAt + cfg.cooldownSeconds ==> !Admits(cfg, st, at))
            && (at >= st.openedAt + cfg.cooldownSeconds ==> Admits(cfg, st, at) && AfterAdmission(cfg, st, at).mode == HALF_OPEN)
  {
    if evs != [] {
      OpenRejects(cfg, states, key, evs[..|evs| - 1], at);
    }
  }

  /** No outcome on `key` among the events. */
  predicate NoOutcomeOn(evs: seq<Event>, key: string) {
    forall i :: 0 <= i < |evs| ==> !(evs[i].Outcome? && evs[i].key == key)
  }

  /** From HALF_OPEN the first outcome on the key decides: success closes, failure reopens, and until
      then every caller is admitted, not just one probe. */
  lemma {:induction false} FirstOutcomeDecides(cfg: Config, states: States, key: string, evs: seq<Event>, at: real, e: Event)
    requires StateOf(states, key).mode == HALF_OPEN && NoOutcomeOn(evs, key)
    requires e.Outcome? && e.key == key
    ensures var st := StateOf(RunFrom(cfg, states, evs), key);
            && st.mode == HALF_OPEN && Admits(cfg, st, at)
            && var after := StateOf(Apply(cfg, RunFrom(cfg, states, evs), e), key);
               after.mode == (if e.ok then CLOSED else OPEN) && (!e.ok ==> after.openedAt == e.openAt)
  {
    if evs != [] {
      FirstOutcomeDecides(cfg, states, key, evs[..|evs| - 1], at, e);
    }
  }

  function OnKey(evs: seq<Event>, key: string): seq<Event> {
    if evs == [] then []
    else OnKey(evs[..|evs| - 1], key) + if evs[|evs| - 1].key == key then [evs[|evs| - 1]] else []
  }

  /** Keys are independent: the state of a key, hence every admission on it, is what the key's own
      events alone would give. */
  lemma {:induction false} KeysAreIndependent(cfg: Config, states: States, evs: seq<Event>, key: string)
    ensures StateOf(RunFrom(cfg, states, evs), key) == StateOf(RunFrom(cfg, states, OnKey(evs, key)), key)
  {
    if evs != [] {
      var front, e := evs[..|evs| - 1], evs[|evs| - 1];
      KeysAreIndependent(cfg, states, front, key);
      if e.key == key {
        assert OnKey(evs, key)[..|OnKey(front, key)|] == OnKey(front, key);
      } else {
        assert OnKey(evs, key) == OnKey(front, key);
      }
    }
  }

  function BreakerKey(subject: string, tenant: string): string {
    if tenant != "" then subject + "|" + tenant else subject
  }

  lemma FirstBar(s1: string, t1: string, s2: string, t2: string)
    requires '|' !in s2 && t1 != "" && BreakerKey(s1, t1) == BreakerKey(s2, t2)
    ensures |s1| >= |s2| && t2 != ""
  {
    var k := BreakerKey(s1, t1);
    assert k[|s1|] == '|' && k[..|s2|] == s2;
    assert forall i :: 0 <= i < |s2| ==> k[i] == s2[i] != '|';
  }

  /** Subjects without '|' never share a breaker with another subject or tenant. */
  lemma BreakerKeyInjective(s1: string, t1: string, s2: string, t2: string)
    requires '|' !in s1 && '|' !in s2 && BreakerKey(s1, t1) == BreakerKey(s2, t2)
    ensures s1 == s2 && t1 == t2
  {
    var k := BreakerKey(s1, t1);
    if t1 != "" {
      FirstBar(s1, t1, s2, t2);
      FirstBar(s2, t2, s1, t1);
      assert s1 == k[..|s1|] == s2 && t1 == k[|s1| + 1..] == t2;
    } else if t2 != "" {
      FirstBar(s2, t2, s1, t1);
    }
  }

  /** With '|' in a subject they can: "a|b" without tenant and "a" of tenant "b". */
  lemma BreakerKeyCollides()
    ensures BreakerKey("a|b", "") == BreakerKey("a", "b")
  {
  }

  /** A breaker closed by a good probe may reopen on the very next success: failures still in the
      window count, in whatever order they came. */
  lemma ClosedMayReopenOnSuccess()
    ensures var cfg := Config(0.5, 2, 30.0, 15.0);
            var st := BreakerState(HALF_OPEN, 0.0, [Entry(0.0, false), Entry(0.0, false), Entry(0.0, false)]);
            var closed := AfterOutcome(cfg, st, true, 16.0, 16.0, 16.0);
            closed.mode == CLOSED && AfterOutcome(cfg, closed, true, 17.0, 17.0, 17.0).mode == OPEN
  {
    var a, b, c := Entry(0.0, false), Entry(16.0, true), Entry(17.0, true);
    var h1, h2 := [a, a, a, b], [a, a, a, b, c];
    var cfg, st := Config(0.5, 2, 30.0, 15.0), BreakerState(HALF_OPEN, 0.0, [a, a, a]);
    assert [a, a, a] + [b] == h1 && h1 + [c] == h2;
    ThreeFailures(a, b, c);
    hide Within, Failures, AfterOutcome;
    AllRecent(h1, -14.0);
    AllRecent(h2, -13.0);
    ProbeCloses(cfg, st, 16.0, h1);
    OutcomeUntrimmed(cfg, BreakerState(CLOSED, 0.0, h1), true, 17.0, 17.0, 17.0, h2);
  }

  lemma ProbeCloses(cfg: Config, st: BreakerState, t: real, h: seq<Entry>)
    requires st.mode == HALF_OPEN && h == st.events + [Entry(t, true)] && Within(h, t - cfg.windowSeconds) == h
    ensures AfterOutcome(cfg, st, true, t, t, t) == BreakerState(CLOSED, st.openedAt, h)
  {
  }

  lemma ThreeFailures(a: Entry, b: Entry, c: Entry)
    requires !a.ok && b.ok && c.ok
    ensures Failures([a, a, a, b, c]) == 3
  {
    assert Failures([]) == 0;
    hide Failures;
    FailuresOf([], a);
    FailuresOf([a], a);
    FailuresOf([a, a], a);
    FailuresOf([a, a, a], b);
    FailuresOf([a, a, a, b], c);
    assert [] + [a] == [a] && [a] + [a] == [a, a] && [a, a] + [a] == [a, a, a];
    assert [a, a, a] + [b] == [a, a, a, b] && [a, a, a, b] + [c] == [a, a, a, b, c];
  }

  lemma FailuresOf(h: seq<Entry>, e: Entry)
    ensures Failures(h + [e]) == Failures(h) + if e.ok then 0 else 1
  {
    assert (h + [e])[..|h|] == h;
  }
}
