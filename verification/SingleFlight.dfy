/** The single-flight cache of src/oneops/adapters/dragonfly_ops.py: N callers of
    `get_or_single_flight` on one key, sharing a value slot and an expiring lock slot. */
module SingleFlight {
  import opened Wrappers

  type Bytes = seq<bv8>

  /** What callers compute and receive. */
  type Value = string

  const MAX_VALUE_BYTES: nat := 256 * 1024

  /** The fixed arguments of the calls; `serialize` and `deserialize` raise where they yield None. */
  datatype Config = Config(
    serialize: Value -> Option<Bytes>, deserialize: Bytes -> Option<Value>,
    ttl: real, lockTtl: real, poll: real, waitMax: real)

  predicate Sane(cfg: Config) {
    cfg.poll > 0.0 && cfg.lockTtl > 0.0 && cfg.ttl > 0.0
  }

  /** What one execution of `compute` does. */
  datatype Computed = Value(v: Value) | NoValue | Raised

  /** What a call ends with. */
  datatype Outcome = FromCache(v: Value) | FromCompute(result: Computed)

  // ── one call as an automaton over the answers it gets ────────────────────

  datatype Pc =
    | FirstGet
    | Locking
    | HeldCompute
    | HeldStore(v: Value)
    | HeldRelease(result: Computed)
    | Waiting
    | OwnCompute
    | Done(outcome: Outcome)

  datatype Client = Client(pc: Pc, waited: real, polls: nat, computes: nat, stores: nat, releases: nat, acquired: bool, acquiredAt: real, alive: bool)

  const FRESH := Client(FirstGet, 0.0, 0, 0, 0, 0, false, 0.0, true)

  /** The answers a client can get: of a GET, of SET NX, and of its `compute`. */
  datatype Answer = Answer(got: Option<Bytes>, locked: bool, computed: Computed, now: real)

  predicate Holding(c: Client) {
    c.pc.HeldCompute? || c.pc.HeldStore? || c.pc.HeldRelease?
  }

  function AfterWait(cfg: Config, waited: real): Pc {
    if waited < cfg.waitMax then Waiting else OwnCompute
  }

  function ClientStep(cfg: Config, c: Client, a: Answer): Client {
    match c.pc
    case FirstGet =>
      if a.got.Some? && cfg.deserialize(a.got.value).Some?
      then c.(pc := Done(FromCache(cfg.deserialize(a.got.value).value)))
      else c.(pc := Locking)
    case Locking =>
      if a.locked then c.(pc := HeldCompute, acquired := true, acquiredAt := a.now) else c.(pc := AfterWait(cfg, c.waited))
    case HeldCompute =>
      (match a.computed
       case Value(v) => c.(pc := HeldStore(v), computes := c.computes + 1)
       case _ => c.(pc := HeldRelease(a.computed), computes := c.computes + 1))
    case HeldStore(v) => c.(pc := HeldRelease(Value(v)), stores := c.stores + 1)
    case HeldRelease(result) => c.(pc := Done(FromCompute(result)), releases := c.releases + 1)
    case Waiting =>
      var w := c.(waited := c.waited + cfg.poll, polls := c.polls + 1);
      if a.got.Some? then
        match cfg.deserialize(a.got.value)
        case Some(v) => w.(pc := Done(FromCache(v)))
        case None => w.(pc := OwnCompute)
      else w.(pc := AfterWait(cfg, w.waited))
    case OwnCompute => c.(pc := Done(FromCompute(a.computed)), computes := c.computes + 1)
    case Done(_) => c
  }

  /** The answer of a GET that yields a value. */
  predicate Readable(cfg: Config, raw: Option<Bytes>) {
    raw.Some? && cfg.deserialize(raw.value).Some?
  }

  // ── the call as the source writes it ─────────────────────────────────────

  /** Number of polls that fit into the waiting time: the ceiling of waitMax / poll. */
  function MaxPolls(cfg: Config): nat
    requires cfg.poll > 0.0
  {
    if cfg.waitMax <= 0.0 then 0 else Ceil(cfg.waitMax / cfg.poll)
  }

  function Ceil(x: real): (n: nat)
    requires x > 0.0
    ensures (n as real) - 1.0 < x <= n as real
  {
    if x.Floor as real == x then x.Floor else x.Floor + 1
  }

  lemma PollsFit(cfg: Config, k: nat)
    requires cfg.poll > 0.0
    ensures (k as real) * cfg.poll < cfg.waitMax <==> k < MaxPolls(cfg)
  {
    if cfg.waitMax > 0.0 {
      var q := cfg.waitMax / cfg.poll;
      Quotient(cfg.waitMax, cfg.poll, q);
      ScaleLess(k as real, q, cfg.poll);
      CeilLess(k, q);
      assert MaxPolls(cfg) == Ceil(q);
    } else {
      ScaleLess(k as real, 0.0, cfg.poll);
    }
  }

  lemma Quotient(w: real, p: real, q: real)
    requires w > 0.0 && p > 0.0 && q == w / p
    ensures q > 0.0 && q * p == w
  {
  }

  lemma CeilLess(k: nat, x: real)
    requires x > 0.0
    ensures k as real < x <==> k < Ceil(x)
  {
    var n := Ceil(x);
    hide Ceil;
    assert k < n ==> k as real <= (n as real) - 1.0;
    assert k >= n ==> k as real >= n as real;
  }

  lemma ScaleLess(a: real, b: real, p: real)
    requires p > 0.0
    ensures a * p < b * p <==> a < b
  {
    if a < b {
      assert (b - a) * p > 0.0;
    } else {
      assert (a - b) * p >= 0.0;
    }
  }

  /** The automaton run to its end, the k-th GET answered by `gets(k)`. */
  function RunClient(cfg: Config, c: Client, gets: nat -> Option<Bytes>, locked: bool, computed: Computed, fuel: nat): Client
    decreases fuel
  {
    if c.pc.Done? || fuel == 0 then c
    else
      var k := if c.pc.FirstGet? then 0 else c.polls + 1;
      RunClient(cfg, ClientStep(cfg, c, Answer(gets(k), locked, computed, 0.0)), gets, locked, computed, fuel - 1)
  }

  /** The automaton needs at most this many steps. */
  function Steps(cfg: Config): nat
    requires cfg.poll > 0.0
  {
    MaxPolls(cfg) + 5
  }

  /** `get_or_single_flight`, statement by statement, for one caller: the k-th GET returns `gets(k)`,
      SET NX returns `locked`, and `compute` does `computed`. It is the automaton above. A first GET that
      can be read is returned, and nothing else is done; otherwise the caller that gets the lock returns
      what its `compute` did, and one that does not returns the first value a poll finds if it can be
      read, and what its own `compute` did if it cannot or no poll finds any. */
  method GetOrSingleFlight(cfg: Config, gets: nat -> Option<Bytes>, locked: bool, computed: Computed)
    returns (outcome: Outcome, polls: nat, computes: nat, stores: nat, releases: nat)
    requires Sane(cfg)
    ensures var c := RunClient(cfg, FRESH, gets, locked, computed, Steps(cfg));
            && c.pc == Done(outcome) && c.polls == polls && c.computes == computes
            && c.stores == stores && c.releases == releases
    ensures Readable(cfg, gets(0)) ==>
              outcome == FromCache(cfg.deserialize(gets(0).value).value) && polls == computes == stores == releases == 0
    ensures !Readable(cfg, gets(0)) && locked ==>
              outcome == FromCompute(computed) && polls == 0 && computes == releases == 1 && stores == if computed.Value? then 1 else 0
    ensures !Readable(cfg, gets(0)) && !locked ==>
              && stores == releases == 0 && (forall k :: 1 <= k < polls ==> gets(k) == None)
              && if polls > 0 && Readable(cfg, gets(polls))
                 then outcome == FromCache(cfg.deserialize(gets(polls).value).value) && computes == 0
                 else outcome == FromCompute(computed) && computes == 1 && ((polls > 0 && gets(polls).Some?) || polls == MaxPolls(cfg))
  {
    polls, computes, stores, releases := 0, 0, 0, 0;
    ghost var c, fuel := FRESH, Steps(cfg);
    hide RunClient, MaxPolls;
    var raw := gets(0);
    c, fuel := Step(cfg, c, gets, locked, computed, fuel);
    if raw.Some? {
      var v := cfg.deserialize(raw.value);
      if v.Some? {
        return FromCache(v.value), polls, computes, stores, releases;
      }
    }
    c, fuel := Step(cfg, c, gets, locked, computed, fuel);
    if locked {
      computes, stores, releases, c := ComputeHeld(cfg, c, gets, computed, fuel);
      return FromCompute(computed), polls, computes, stores, releases;
    }
    var hit;
    hit, polls, c, fuel := Poll(cfg, gets, locked, computed, fuel);
    if hit.Some? {
      return FromCache(hit.value), polls, computes, stores, releases;
    }
    computes := 1;
    c, fuel := Step(cfg, c, gets, locked, computed, fuel);
    outcome := FromCompute(computed);
  }

  /** The holder's branch: compute, store a value, release in any case. */
  method ComputeHeld(cfg: Config, ghost start: Client, gets: nat -> Option<Bytes>, computed: Computed, ghost steps: nat)
    returns (computes: nat, stores: nat, releases: nat, ghost c: Client)
    requires start == FRESH.(pc := HeldCompute, acquired := true) && steps >= 3
    ensures computes == releases == 1 && stores == if computed.Value? then 1 else 0
    ensures c == RunClient(cfg, start, gets, true, computed, steps)
    ensures c == start.(pc := Done(FromCompute(computed)), computes := computes, stores := stores, releases := releases)
  {
    hide RunClient;
    ghost var fuel;
    computes, stores := 1, 0;
    c, fuel := Step(cfg, start, gets, true, computed, steps);
    if computed.Value? {
      stores := 1;
      c, fuel := Step(cfg, c, gets, true, computed, fuel);
    }
    releases := 1;
    c, fuel := Step(cfg, c, gets, true, computed, fuel);
  }

  /** The waiter's loop: polls until a value appears or the waiting time is used up. */
  method Poll(cfg: Config, gets: nat -> Option<Bytes>, locked: bool, computed: Computed, ghost start: nat)
    returns (hit: Option<Value>, polls: nat, ghost c: Client, ghost fuel: nat)
    requires Sane(cfg) && start >= MaxPolls(cfg) + 2
    ensures c.polls == polls && c.computes == c.stores == c.releases == 0 && fuel > 0
    ensures var all := RunClient(cfg, FRESH.(pc := AfterWait(cfg, 0.0)), gets, locked, computed, start);
            && all == RunClient(cfg, c, gets, locked, computed, fuel)
            && c.pc == (if hit.Some? then Done(FromCache(hit.value)) else OwnCompute)
            && (hit.Some? ==> all == c)
    ensures forall k :: 1 <= k < polls ==> gets(k) == None
    ensures if polls > 0 && Readable(cfg, gets(polls)) then hit == cfg.deserialize(gets(polls).value)
            else hit == None && ((polls > 0 && gets(polls).Some?) || polls == MaxPolls(cfg))
  {
    hide RunClient, MaxPolls;
    c, fuel, polls := FRESH.(pc := AfterWait(cfg, 0.0)), start, 0;
    ghost var all := RunClient(cfg, c, gets, locked, computed, fuel);
    var waited := 0.0;
    while waited < cfg.waitMax
      invariant waited == (polls as real) * cfg.poll
      invariant c == FRESH.(pc := AfterWait(cfg, waited), waited := waited, polls := polls)
      invariant polls <= MaxPolls(cfg) && fuel >= MaxPolls(cfg) - polls + 2
      invariant forall k :: 1 <= k <= polls ==> gets(k) == None
      invariant all == RunClient(cfg, c, gets, locked, computed, fuel)
      decreases MaxPolls(cfg) - polls
    {
      PollsFit(cfg, polls);
      c, fuel := Step(cfg, c, gets, locked, computed, fuel);
      waited := waited + cfg.poll;
      polls := polls + 1;
      var raw := gets(polls);
      if raw.Some? {
        var v := cfg.deserialize(raw.value);
        return v, polls, c, fuel;
      }
      assert waited == (polls as real) * cfg.poll;
    }
    PollsFit(cfg, polls);
    hit := None;
  }

  /** One step of the automaton under the fixed answers. */
  ghost method Step(cfg: Config, c: Client, gets: nat -> Option<Bytes>, locked: bool, computed: Computed, fuel: nat)
    returns (next: Client, left: nat)
    requires !c.pc.Done? && fuel > 0
    ensures next == ClientStep(cfg, c, Answer(gets(if c.pc.FirstGet? then 0 else c.polls + 1), locked, computed, 0.0)) && left == fuel - 1
    ensures RunClient(cfg, c, gets, locked, computed, fuel) == RunClient(cfg, next, gets, locked, computed, left)
    ensures next.pc.Done? ==> RunClient(cfg, c, gets, locked, computed, fuel) == next
  {
    next, left := ClientStep(cfg, c, Answer(gets(if c.pc.FirstGet? then 0 else c.polls + 1), locked, computed, 0.0)), fuel - 1;
  }

  // ── the shared store ─────────────────────────────────────────────────────

  datatype Entry = Entry(bytes: Bytes, expiresAt: real)

  /** A Redis key holds its entry until it expires. */
  function Live(slot: Option<Entry>, now: real): Option<Entry> {
    if slot.Some? && now < slot.value.expiresAt then slot else None
  }

  function SetNx(slot: Option<Entry>, now: real, bytes: Bytes, ttl: real): (bool, Option<Entry>) {
    if Live(slot, now).Some? then (false, slot) else (true, Some(Entry(bytes, now + ttl)))
  }

  const LOCK_TOKEN: Bytes := [0x31]

  /** The Dragonfly keys `{key}` and `{key}:lock`, and the helpers of the module on them. */
  class Dragonfly {
    var value: Option<Entry>
    var lock: Option<Entry>

    constructor ()
      ensures value == None && lock == None
    {
      value, lock := None, None;
    }

    method CacheGet(now: real) returns (raw: Option<Bytes>)
      ensures raw == if value.Some? && now < value.value.expiresAt then Some(value.value.bytes) else None
    {
      if value.Some? && now < value.value.expiresAt {
        return Some(value.value.bytes);
      }
      return None;
    }

    /** Refuses oversized values; otherwise `SET key value EX ttl`. */
    method CacheSet(now: real, bytes: Bytes, ttl: real) returns (ok: bool)
      modifies this`value
      ensures ok == (|bytes| <= MAX_VALUE_BYTES)
      ensures value == if ok then Some(Entry(bytes, now + ttl)) else old(value)
    {
      if |bytes| > MAX_VALUE_BYTES {
        return false;
      }
      value := Some(Entry(bytes, now + ttl));
      return true;
    }

    /** `SET key 1 NX EX ttl`. */
    method AcquireLock(now: real, ttl: real) returns (acquired: bool)
      modifies this`lock
      ensures (acquired, lock) == SetNx(old(lock), now, LOCK_TOKEN, ttl)
      ensures acquired <==> !(old(lock).Some? && now < old(lock).value.expiresAt)
      ensures lock == if acquired then Some(Entry(LOCK_TOKEN, now + ttl)) else old(lock)
    {
      if lock.Some? && now < lock.value.expiresAt {
        return false;
      }
      lock := Some(Entry(LOCK_TOKEN, now + ttl));
      return true;
    }

    /** An unconditional delete: it does not ask who holds the lock. */
    method ReleaseLock()
      modifies this`lock
      ensures lock == None
    {
      lock := None;
    }
  }

  // ── all interleavings ────────────────────────────────────────────────────

  datatype State = State(now: real, value: Option<Entry>, lock: Option<Entry>, clients: map<nat, Client>, results: set<Value>)

  const INIT := State(0.0, None, None, map[], {})

  datatype Action =
    | Arrive(id: nat)
    | Act(id: nat, computed: Computed)  // the client's next step; `computed` is used if it computes
    | Stop(id: nat)                     // the client's process dies
    | Tick(d: real)

  function AnswerFor(cfg: Config, s: State, computed: Computed): Answer {
    Answer(
      if Live(s.value, s.now).Some? then Some(s.value.value.bytes) else None,
      SetNx(s.lock, s.now, LOCK_TOKEN, cfg.lockTtl).0, computed, s.now)
  }

  predicate LiveHolder(c: Client) {
    c.alive && Holding(c)
  }

  predicate Possible(s: State, a: Action) {
    match a
    case Arrive(id) => id !in s.clients
    case Act(id, _) => id in s.clients && s.clients[id].alive && !s.clients[id].pc.Done?
    case Stop(id) => id in s.clients
    case Tick(d) => d >= 0.0
  }

  /** The timing assumption: no live holder is carried past the expiry of its lock. */
  predicate Enabled(cfg: Config, s: State, a: Action) {
    && Possible(s, a)
    && (a.Tick? ==>
          forall id :: id in s.clients && LiveHolder(s.clients[id]) ==> s.now + a.d < s.clients[id].acquiredAt + cfg.lockTtl)
  }

  function StoreValue(cfg: Config, s: State, v: Value): Option<Entry> {
    match cfg.serialize(v)
    case Some(bytes) => if |bytes| <= MAX_VALUE_BYTES then Some(Entry(bytes, s.now + cfg.ttl)) else s.value
    case None => s.value
  }

  function Do(cfg: Config, s: State, a: Action): State
    requires Possible(s, a)
  {
    match a
    case Arrive(id) => s.(clients := s.clients[id := FRESH])
    case Stop(id) => s.(clients := s.clients[id := s.clients[id].(alive := false)])
    case Tick(d) => s.(now := s.now + d)
    case Act(id, computed) =>
      var c := s.clients[id];
      s.(clients := s.clients[id := ClientStep(cfg, c, AnswerFor(cfg, s, computed))],
         lock := if c.pc.Locking? then SetNx(s.lock, s.now, LOCK_TOKEN, cfg.lockTtl).1
                 else if c.pc.HeldRelease? then None else s.lock,
         value := if c.pc.HeldStore? then StoreValue(cfg, s, c.pc.v) else s.value,
         results := if (c.pc.HeldCompute? || c.pc.OwnCompute?) && computed.Value? then s.results + {computed.v} else s.results)
  }

  function Run(cfg: Config, acts: seq<Action>): Option<State> {
    if acts == [] then Some(INIT)
    else
      match Run(cfg, acts[..|acts| - 1])
      case Some(s) => if Enabled(cfg, s, acts[|acts| - 1]) then Some(Do(cfg, s, acts[|acts| - 1])) else None
      case None => None
  }

  /** A run under a clock that keeps to no assumption. */
  function LooseRun(cfg: Config, acts: seq<Action>): Option<State> {
    if acts == [] then Some(INIT)
    else
      match LooseRun(cfg, acts[..|acts| - 1])
      case Some(s) => if Possible(s, acts[|acts| - 1]) then Some(Do(cfg, s, acts[|acts| - 1])) else None
      case None => None
  }

  // ── safety ───────────────────────────────────────────────────────────────

  /** A live holder's own lock entry is in the slot and unexpired, so there is only one. */
  ghost predicate LockInv(cfg: Config, s: State) {
    && (forall id :: id in s.clients && LiveHolder(s.clients[id]) ==>
          s.lock == Some(Entry(LOCK_TOKEN, s.clients[id].acquiredAt + cfg.lockTtl)) && s.now < s.clients[id].acquiredAt + cfg.lockTtl)
    && (forall i, j :: i in s.clients && j in s.clients && LiveHolder(s.clients[i]) && LiveHolder(s.clients[j]) ==> i == j)
  }

  ghost predicate Serializes(cfg: Config, results: set<Value>, bytes: Bytes) {
    exists v :: v in results && cfg.serialize(v) == Some(bytes)
  }

  ghost predicate ValueInv(cfg: Config, s: State) {
    && (s.value.Some? ==> Serializes(cfg, s.results, s.value.value.bytes))
    && (forall id :: id in s.clients && s.clients[id].pc.HeldStore? ==> s.clients[id].pc.v in s.results)
  }

  /** A client comes to hold the lock only by acquiring it, and keeps the time it acquired it at. */
  lemma HoldingStep(cfg: Config, c: Client, a: Answer)
    ensures var d := ClientStep(cfg, c, a);
            && d.alive == c.alive
            && (Holding(d) && !Holding(c) ==> c.pc.Locking? && a.locked && d.acquiredAt == a.now)
            && (Holding(d) && Holding(c) ==> d.acquiredAt == c.acquiredAt && !c.pc.HeldRelease?)
            && (c.pc.HeldRelease? ==> Holding(c))
            && (c.pc.Locking? ==> !Holding(c) && (a.locked ==> Holding(d)))
  {
  }

  lemma StepKeepsLockInv(cfg: Config, s: State, a: Action)
    requires Sane(cfg) && LockInv(cfg, s) && Enabled(cfg, s, a)
    ensures LockInv(cfg, Do(cfg, s, a))
  {
    if a.Act? {
      HoldingStep(cfg, s.clients[a.id], AnswerFor(cfg, s, a.computed));
    }
    hide ClientStep, Holding, StoreValue;
  }

  lemma StepKeepsValueInv(cfg: Config, s: State, a: Action)
    requires ValueInv(cfg, s) && Enabled(cfg, s, a)
    ensures ValueInv(cfg, Do(cfg, s, a))
  {
    var s' := Do(cfg, s, a);
    assert s.results <= s'.results;
    if a.Act? && s.clients[a.id].pc.HeldStore? && s'.value != s.value {
      assert s.clients[a.id].pc.v in s'.results;
    } else if s'.value.Some? {
      var v :| v in s.results && cfg.serialize(v) == Some(s.value.value.bytes);
      assert v in s'.results;
    }
  }

  lemma {:induction false} RunKeepsInv(cfg: Config, acts: seq<Action>)
    requires Sane(cfg) && Run(cfg, acts).Some?
    ensures LockInv(cfg, Run(cfg, acts).value) && ValueInv(cfg, Run(cfg, acts).value)
  {
    if acts != [] {
      RunKeepsInv(cfg, acts[..|acts| - 1]);
      StepKeepsLockInv(cfg, Run(cfg, acts[..|acts| - 1]).value, acts[|acts| - 1]);
      StepKeepsValueInv(cfg, Run(cfg, acts[..|acts| - 1]).value, acts[|acts| - 1]);
    }
  }

  /** Safety of every interleaving without store errors in which live holders release before their
      lock expires: at most one live caller is between acquire and release, and the stored bytes
      always serialize some non-None result of `compute`. */
  lemma SingleFlightSafety(cfg: Config, acts: seq<Action>, i: nat, j: nat)
    requires Sane(cfg) && Run(cfg, acts).Some?
    ensures var s := Run(cfg, acts).value;
            && (i in s.clients && j in s.clients && LiveHolder(s.clients[i]) && LiveHolder(s.clients[j]) ==> i == j)
            && (s.value.Some? ==> exists v :: v in s.results && cfg.serialize(v) == Some(s.value.value.bytes))
  {
    RunKeepsInv(cfg, acts);
  }

  /** Only the one live holder writes the value key. */
  lemma OnlyTheHolderWrites(cfg: Config, acts: seq<Action>, a: Action, id: nat)
    requires Sane(cfg) && Run(cfg, acts).Some? && Enabled(cfg, Run(cfg, acts).value, a)
    requires Do(cfg, Run(cfg, acts).value, a).value != Run(cfg, acts).value.value
    ensures a.Act? && LiveHolder(Run(cfg, acts).value.clients[a.id])
    ensures var s := Run(cfg, acts).value; id in s.clients && LiveHolder(s.clients[id]) ==> id == a.id
  {
    RunKeepsInv(cfg, acts);
  }

  // ── what one call does ───────────────────────────────────────────────────

  ghost predicate CallInv(cfg: Config, c: Client) {
    && c.waited == (c.polls as real) * cfg.poll
    && (c.polls > 0 ==> ((c.polls - 1) as real) * cfg.poll < cfg.waitMax)
    && (c.acquired <==> Holding(c) || (c.pc.Done? && c.releases == 1))
    && (match c.pc
        case FirstGet | Locking => c.computes == 0 && c.stores == 0 && c.releases == 0 && c.polls == 0
        case HeldCompute => c.computes == 0 && c.stores == 0 && c.releases == 0 && c.polls == 0
        case HeldStore(_) => c.computes == 1 && c.stores == 0 && c.releases == 0 && c.polls == 0
        case HeldRelease(r) => c.computes == 1 && c.stores == (if r.Value? then 1 else 0) && c.releases == 0 && c.polls == 0
        case Waiting => c.computes == 0 && c.stores == 0 && c.releases == 0 && c.waited < cfg.waitMax
        case OwnCompute => c.computes == 0 && c.stores == 0 && c.releases == 0
        case Done(o) =>
          && c.computes == (if o.FromCache? then 0 else 1)
          && (c.releases == 0 ==> c.stores == 0)
          && (c.polls > 0 ==> c.releases == 0)
          && (c.releases == 1 ==> o.FromCompute? && c.stores == if o.result.Value? then 1 else 0)
          && c.releases <= 1)
  }

  lemma ClientKeepsCallInv(cfg: Config, c: Client, a: Answer)
    requires cfg.poll > 0.0 && CallInv(cfg, c)
    ensures CallInv(cfg, ClientStep(cfg, c, a))
  {
    var c' := ClientStep(cfg, c, a);
    assert c'.polls == c.polls + 1 ==> c'.waited == (c'.polls as real) * cfg.poll;
  }

  lemma {:induction false} RunKeepsCallInv(cfg: Config, acts: seq<Action>, id: nat)
    requires Sane(cfg) && Run(cfg, acts).Some? && id in Run(cfg, acts).value.clients
    ensures CallInv(cfg, Run(cfg, acts).value.clients[id])
  {
    if acts != [] {
      var s, a := Run(cfg, acts[..|acts| - 1]).value, acts[|acts| - 1];
      if id in s.clients {
        RunKeepsCallInv(cfg, acts[..|acts| - 1], id);
        if a.Act? && a.id == id {
          ClientKeepsCallInv(cfg, s.clients[id], AnswerFor(cfg, s, a.computed));
        }
      }
    }
  }

  /** The cost of one call in any interleaving: `compute` runs at most once, and exactly once if the
      call ends without a cached value; at most the ceiling of waitMax / poll polls; a caller that did
      not acquire the lock, whether it polled or not, neither stores nor releases; one that did acquire
      it polls not at all, releases exactly once and stores iff it computed a value. */
  lemma CallBounds(cfg: Config, acts: seq<Action>, id: nat)
    requires Sane(cfg) && Run(cfg, acts).Some? && id in Run(cfg, acts).value.clients
    ensures var c := Run(cfg, acts).value.clients[id];
            && c.computes <= 1 && c.stores <= c.computes && c.releases <= 1
            && c.polls <= MaxPolls(cfg)
            && (!c.acquired ==> c.stores == 0 && c.releases == 0)
            && (c.acquired ==> c.polls == 0)
            && (c.pc.Done? ==> c.computes == if c.pc.outcome.FromCache? then 0 else 1)
            && (c.pc.Done? && c.acquired ==>
                  c.releases == 1 && c.pc.outcome.FromCompute? && (c.stores == 1 <==> c.pc.outcome.result.Value?))
  {
    RunKeepsCallInv(cfg, acts, id);
    var c := Run(cfg, acts).value.clients[id];
    if c.polls > 0 {
      PollsFit(cfg, c.polls - 1);
    }
  }

  // ── what a call returns ──────────────────────────────────────────────────

  /** A value is in the slot, not expired, and can be read as `v`. */
  ghost predicate Serves(cfg: Config, s: State, v: Value) {
    s.value.Some? && s.now < s.value.value.expiresAt && cfg.deserialize(s.value.value.bytes) == Some(v)
  }

  ghost predicate AtGet(s: State, id: nat, first: bool) {
    id in s.clients && s.clients[id].alive && if first then s.clients[id].pc == FirstGet else s.clients[id].pc == Waiting
  }

  /** A call that finds a value it can read at its first GET returns it, whatever the lock and the other
      calls are at, and does nothing else: no lock, no poll, no compute, no store, no release. */
  lemma FastPathReturns(cfg: Config, acts: seq<Action>, id: nat, computed: Computed, v: Value)
    requires Sane(cfg) && Run(cfg, acts).Some? && AtGet(Run(cfg, acts).value, id, true) && Serves(cfg, Run(cfg, acts).value, v)
    ensures var s := Run(cfg, acts).value;
            var s' := Do(cfg, s, Act(id, computed));
            var c := s'.clients[id];
            && c.pc == Done(FromCache(v)) && c.polls == c.computes == c.stores == c.releases == 0 && !c.acquired
            && s' == s.(clients := s.clients[id := c])
  {
    RunKeepsCallInv(cfg, acts, id);
  }

  /** The first poll that finds a value ends the wait: with that value if it can be read, and with the
      call's own `compute` if it cannot. The call has neither computed nor stored nor released. */
  lemma FirstPollEnds(cfg: Config, acts: seq<Action>, id: nat, computed: Computed)
    requires Sane(cfg) && Run(cfg, acts).Some? && AtGet(Run(cfg, acts).value, id, false)
    requires var s := Run(cfg, acts).value; s.value.Some? && s.now < s.value.value.expiresAt
    ensures var s := Run(cfg, acts).value;
            var s' := Do(cfg, s, Act(id, computed));
            var c, read := s'.clients[id], cfg.deserialize(s.value.value.bytes);
            && c.pc == (if read.Some? then Done(FromCache(read.value)) else OwnCompute)
            && c.computes == c.stores == c.releases == 0 && c.polls == s.clients[id].polls + 1
            && s' == s.(clients := s.clients[id := c])
  {
    RunKeepsCallInv(cfg, acts, id);
  }

  /** A call that has returned does nothing more. */
  lemma {:induction false} DoneStays(cfg: Config, acts: seq<Action>, more: seq<Action>, id: nat)
    requires Run(cfg, acts + more).Some?
    requires Run(cfg, acts).Some? && id in Run(cfg, acts).value.clients && Run(cfg, acts).value.clients[id].pc.Done?
    ensures id in Run(cfg, acts + more).value.clients
    ensures Run(cfg, acts + more).value.clients[id] == Run(cfg, acts).value.clients[id].(alive := Run(cfg, acts + more).value.clients[id].alive)
  {
    if more == [] {
      assert acts + more == acts;
    } else {
      assert (acts + more)[..|acts + more| - 1] == acts + more[..|more| - 1];
      DoneStays(cfg, acts, more[..|more| - 1], id);
    }
  }

  /** What the call's own `compute` did, if it has run. */
  function OwnResult(cfg: Config, acts: seq<Action>, id: nat): Option<Computed>
    requires Run(cfg, acts).Some?
  {
    if acts == [] then None
    else
      var front, a := acts[..|acts| - 1], acts[|acts| - 1];
      var s := Run(cfg, front).value;
      if a.Act? && a.id == id && (s.clients[id].pc == HeldCompute || s.clients[id].pc == OwnCompute) then Some(a.computed)
      else OwnResult(cfg, front, id)
  }

  ghost predicate Carries(c: Client, own: Option<Computed>) {
    match c.pc
    case HeldStore(v) => own == Some(Value(v))
    case HeldRelease(r) => own == Some(r)
    case Done(FromCompute(r)) => own == Some(r)
    case _ => own == None
  }

  lemma {:induction false} ComputeIsCarried(cfg: Config, acts: seq<Action>, id: nat)
    requires Run(cfg, acts).Some?
    ensures var s := Run(cfg, acts).value;
            if id in s.clients then Carries(s.clients[id], OwnResult(cfg, acts, id)) else OwnResult(cfg, acts, id) == None
  {
    if acts != [] {
      ComputeIsCarried(cfg, acts[..|acts| - 1], id);
      var s, a := Run(cfg, acts[..|acts| - 1]).value, acts[|acts| - 1];
      if a.Act? && a.id == id {
        CarriedStep(cfg, s.clients[id], AnswerFor(cfg, s, a.computed), OwnResult(cfg, acts[..|acts| - 1], id));
      }
    }
  }

  lemma CarriedStep(cfg: Config, c: Client, a: Answer, own: Option<Computed>)
    requires Carries(c, own)
    ensures Carries(ClientStep(cfg, c, a), if c.pc == HeldCompute || c.pc == OwnCompute then Some(a.computed) else own)
  {
  }

  /** A call that computes, holding the lock or after its wait, returns exactly what its own `compute`
      did, in every interleaving: its value, None, or the exception. */
  lemma ReturnsOwnCompute(cfg: Config, acts: seq<Action>, id: nat)
    requires Run(cfg, acts).Some? && id in Run(cfg, acts).value.clients
    ensures var c := Run(cfg, acts).value.clients[id];
            && (c.pc.Done? && c.pc.outcome.FromCompute? ==> OwnResult(cfg, acts, id) == Some(c.pc.outcome.result))
            && (c.pc.Done? && c.pc.outcome.FromCache? ==> OwnResult(cfg, acts, id) == None)
  {
    ComputeIsCarried(cfg, acts, id);
  }

  /** The holder's store: serialized bytes of at most MAX_VALUE_BYTES go into the slot for `ttl`, anything
      else leaves the slot as it was. */
  lemma HolderStores(cfg: Config, s: State, id: nat, computed: Computed, v: Value)
    requires Possible(s, Act(id, computed)) && s.clients[id].pc == HeldStore(v)
    ensures var s' := Do(cfg, s, Act(id, computed));
            && s'.clients[id].pc == HeldRelease(Value(v)) && s'.lock == s.lock
            && s'.value == if cfg.serialize(v).Some? && |cfg.serialize(v).value| <= 256 * 1024
                           then Some(Entry(cfg.serialize(v).value, s.now + cfg.ttl)) else s.value
  {
  }

  /** What a holder has stored, the next caller gets: within the TTL it returns the stored value from the
      cache without computing. */
  lemma StoredIsServed(cfg: Config, s: State, a: nat, b: nat, v: Value, computed: Computed, d: real)
    requires RoundTrips(cfg) && Possible(s, Act(a, computed)) && s.clients[a].pc == HeldStore(v)
    requires cfg.serialize(v).Some? && |cfg.serialize(v).value| <= MAX_VALUE_BYTES
    requires b !in s.clients && 0.0 <= d < cfg.ttl
    ensures var waited := Do(cfg, Do(cfg, Do(cfg, s, Act(a, computed)), Tick(d)), Arrive(b));
            var c := Do(cfg, waited, Act(b, computed)).clients[b];
            c.pc == Done(FromCache(v)) && c.computes == 0
  {
    HolderStores(cfg, s, a, computed, v);
  }

  // ── agreement ────────────────────────────────────────────────────────────

  ghost predicate RoundTrips(cfg: Config) {
    forall v: Value :: cfg.serialize(v).Some? ==> cfg.deserialize(cfg.serialize(v).value) == Some(v)
  }

  ghost predicate Deterministic(acts: seq<Action>, v: Value) {
    forall i :: 0 <= i < |acts| && acts[i].Act? && acts[i].computed.Value? ==> acts[i].computed.v == v
  }

  ghost predicate Agrees(c: Client, v: Value) {
    match c.pc
    case HeldStore(w) => w == v
    case HeldRelease(r) => r.Value? ==> r.v == v
    case Done(FromCache(w)) => w == v
    case Done(FromCompute(r)) => r.Value? ==> r.v == v
    case _ => true
  }

  lemma {:induction false} RunAgrees(cfg: Config, acts: seq<Action>, v: Value)
    requires Sane(cfg) && RoundTrips(cfg) && Deterministic(acts, v) && Run(cfg, acts).Some?
    ensures var s := Run(cfg, acts).value;
            && (forall w :: w in s.results ==> w == v)
            && (forall id :: id in s.clients ==> Agrees(s.clients[id], v))
  {
    if acts != [] {
      var front, a := acts[..|acts| - 1], acts[|acts| - 1];
      RunAgrees(cfg, front, v);
      RunKeepsInv(cfg, front);
      var s := Run(cfg, front).value;
      if s.value.Some? {
        var w :| w in s.results && cfg.serialize(w) == Some(s.value.value.bytes);
        assert cfg.deserialize(s.value.value.bytes) == Some(v);
      }
      assert a.Act? && a.computed.Value? ==> a.computed.v == v;
    }
  }

  /** With a deterministic `compute` and a codec that round-trips, any two calls that return a value
      return the same one, whether from the cache or from their own computation. */
  lemma ReturnsAgree(cfg: Config, acts: seq<Action>, v: Value, i: nat, j: nat)
    requires Sane(cfg) && RoundTrips(cfg) && Deterministic(acts, v) && Run(cfg, acts).Some?
    requires var s := Run(cfg, acts).value;
             i in s.clients && j in s.clients && Returned(s.clients[i]).Some? && Returned(s.clients[j]).Some?
    ensures var s := Run(cfg, acts).value; Returned(s.clients[i]) == Returned(s.clients[j])
  {
    RunAgrees(cfg, acts, v);
    var s := Run(cfg, acts).value;
    assert Agrees(s.clients[i], v) && Agrees(s.clients[j], v);
  }

  function Returned(c: Client): Option<Value> {
    match c.pc
    case Done(FromCache(w)) => Some(w)
    case Done(FromCompute(Value(w))) => Some(w)
    case _ => None
  }

  // ── past the lock TTL ────────────────────────────────────────────────────

  lemma OneMore(cfg: Config, acts: seq<Action>, a: Action)
    requires LooseRun(cfg, acts).Some? && Possible(LooseRun(cfg, acts).value, a)
    ensures LooseRun(cfg, acts + [a]) == Some(Do(cfg, LooseRun(cfg, acts).value, a))
  {
    assert (acts + [a])[..|acts|] == acts;
  }

  /** How long until neither slot holds anything that is still live. */
  function Remaining(slot: Option<Entry>, now: real): real {
    if Live(slot, now).Some? then slot.value.expiresAt - now else 0.0
  }

  /** Time passes and a client arrives, finds no value and acquires. */
  lemma NewcomerAcquires(cfg: Config, acts: seq<Action>, b: nat) returns (longer: seq<Action>)
    requires Sane(cfg) && LooseRun(cfg, acts).Some? && b !in LooseRun(cfg, acts).value.clients
    ensures LooseRun(cfg, longer).Some?
    ensures var s, t := LooseRun(cfg, acts).value, LooseRun(cfg, longer).value;
            && t.clients == s.clients[b := FRESH.(pc := HeldCompute, acquired := true, acquiredAt := t.now)]
            && Live(t.lock, t.now).Some?
  {
    var s := LooseRun(cfg, acts).value;
    var d := Remaining(s.lock, s.now) + Remaining(s.value, s.now);
    OneMore(cfg, acts, Tick(d));
    var p := acts + [Tick(d)];
    hide LooseRun;
    OneMore(cfg, p, Arrive(b));
    p := p + [Arrive(b)];
    OneMore(cfg, p, Act(b, NoValue));
    p := p + [Act(b, NoValue)];
    OneMore(cfg, p, Act(b, NoValue));
    longer := p + [Act(b, NoValue)];
  }

  /** A live holder runs to the end of its call: its release empties the slot, whoever holds it. */
  lemma HolderFinishes(cfg: Config, acts: seq<Action>, a: nat) returns (longer: seq<Action>)
    requires LooseRun(cfg, acts).Some?
    requires var s := LooseRun(cfg, acts).value; a in s.clients && LiveHolder(s.clients[a])
    ensures LooseRun(cfg, longer).Some?
    ensures var s, t := LooseRun(cfg, acts).value, LooseRun(cfg, longer).value;
            && t.lock == None && a in t.clients && t.clients[a].pc.Done?
            && forall id :: id != a && id in s.clients ==> id in t.clients && t.clients[id] == s.clients[id]
  {
    hide LooseRun;
    longer := acts;
    if LooseRun(cfg, longer).value.clients[a].pc.HeldCompute? {
      OneMore(cfg, longer, Act(a, NoValue));
      longer := longer + [Act(a, NoValue)];
    } else if LooseRun(cfg, longer).value.clients[a].pc.HeldStore? {
      OneMore(cfg, longer, Act(a, NoValue));
      longer := longer + [Act(a, NoValue)];
    }
    OneMore(cfg, longer, Act(a, NoValue));
    longer := longer + [Act(a, NoValue)];
  }

  /** Exclusion needs the timing assumption. From the start on, under a clock that does not keep to
      it: whenever a live client holds, at whatever point between acquire and release, a run goes on in
      which a newcomer acquires too and both hold; and on to the first one's release, which deletes the
      lock of the second one while that one still holds. */
  lemma OverrunBreaksExclusion(cfg: Config, acts: seq<Action>, a: nat, b: nat) returns (both: seq<Action>, freed: seq<Action>)
    requires Sane(cfg) && LooseRun(cfg, acts).Some?
    requires var s := LooseRun(cfg, acts).value; a in s.clients && LiveHolder(s.clients[a]) && b !in s.clients
    ensures LooseRun(cfg, both).Some? && LooseRun(cfg, freed).Some?
    ensures var t := LooseRun(cfg, both).value;
            a != b && a in t.clients && b in t.clients && LiveHolder(t.clients[a]) && LiveHolder(t.clients[b])
    ensures var u := LooseRun(cfg, freed).value; b in u.clients && LiveHolder(u.clients[b]) && u.lock == None
  {
    both := NewcomerAcquires(cfg, acts, b);
    freed := HolderFinishes(cfg, both, a);
  }

  /** Such a client there is: the first one to arrive comes to hold. */
  lemma FirstCallerHolds(cfg: Config, a: nat) returns (acts: seq<Action>)
    requires Sane(cfg)
    ensures LooseRun(cfg, acts).Some?
    ensures var s := LooseRun(cfg, acts).value; s.clients.Keys == {a} && LiveHolder(s.clients[a])
  {
    acts := NewcomerAcquires(cfg, [], a);
  }
}
