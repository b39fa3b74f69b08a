/** The interrupt marker of src/oneops/api/app.py: a turn that pauses leaves a marker naming its
    checkpoint thread; the next answer of the session resumes that thread. The non-streaming chat door
    clears the marker before it resumes, the streaming door does not. */
module InterruptMarker {
  import opened Wrappers

  datatype Key = Key(tenant: string, session: string)

  /** `__interrupt__{session}` in the turn cache: missing, the empty sentinel that stands for a
      deletion, or a paused thread. */
  datatype Marker = Absent | Sentinel | Paused(thread: string)

  datatype Door = Chat | Stream

  /** Where a running turn's thread came from: a turn of its own, or an answer that found that marker. */
  datatype Origin = Own | Resumed(found: Marker)

  datatype Phase = Arrived | Clearing | Running | Done

  /** One request. `answer` says that it carries `interrupt_resume` and an answer. */
  datatype Turn = Turn(key: Key, door: Door, request: string, answer: bool, phase: Phase, origin: Origin, thread: string)

  datatype Event = Recorded(key: Key, thread: string) | Cleared(key: Key) | Expired(key: Key)

  /** `log` is the history of the markers; no step reads it. Turns are named by their request ids. */
  datatype State = State(markers: map<Key, Marker>, turns: map<string, Turn>, log: seq<Event>)

  datatype Action =
    | Arrive(key: Key, door: Door, request: string, answer: bool)
    | Look(request: string)
    | Clear(request: string)
    | Finish(request: string, pauses: bool)
    | Expire(key: Key)

  // ── one step ─────────────────────────────────────────────────────────────

  function MarkerAt(markers: map<Key, Marker>, key: Key): Marker {
    if key in markers then markers[key] else Absent
  }

  /** What a request does once it has read the marker. An answer that finds nothing is an ordinary turn
      at the chat door, and a resume of its own empty thread at the streaming door. */
  function Route(turn: Turn, found: Marker): Turn {
    if !turn.answer then turn.(phase := Running, origin := Own, thread := turn.request)
    else
      match turn.door
      case Chat => (
        match found
        case Absent => turn.(phase := Running, origin := Own, thread := turn.request)
        case Sentinel => turn.(phase := Clearing, origin := Resumed(found), thread := turn.key.session)
        case Paused(t) => turn.(phase := Clearing, origin := Resumed(found), thread := t))
      case Stream =>
        turn.(phase := Running, origin := Resumed(found), thread := if found.Paused? then found.thread else turn.request)
  }

  predicate Enabled(s: State, a: Action) {
    match a
    case Arrive(_, _, request, _) => request !in s.turns
    case Look(r) => r in s.turns && s.turns[r].phase == Arrived
    case Clear(r) => r in s.turns && s.turns[r].phase == Clearing
    case Finish(r, _) => r in s.turns && s.turns[r].phase == Running
    case Expire(key) => key in s.markers
  }

  function Do(s: State, a: Action): State
    requires Enabled(s, a)
  {
    match a
    case Arrive(key, door, request, answer) =>
      s.(turns := s.turns[request := Turn(key, door, request, answer, Arrived, Own, request)])
    case Look(r) => s.(turns := s.turns[r := Route(s.turns[r], MarkerAt(s.markers, s.turns[r].key))])
    case Clear(r) =>
      var turn := s.turns[r];
      State(s.markers[turn.key := Sentinel], s.turns[r := turn.(phase := Running)], s.log + [Cleared(turn.key)])
    case Finish(r, pauses) =>
      var turn := s.turns[r];
      var ended := s.turns[r := turn.(phase := Done)];
      if pauses then State(s.markers[turn.key := Paused(turn.thread)], ended, s.log + [Recorded(turn.key, turn.thread)])
      else s.(turns := ended)
    case Expire(key) => s.(markers := s.markers - {key}, log := s.log + [Expired(key)])
  }

  /** One request served with nothing in between. */
  function Served(markers: map<Key, Marker>, key: Key, door: Door, request: string, answer: bool, pauses: bool): State {
    var arrived := Do(State(markers, map[], []), Arrive(key, door, request, answer));
    var looked := Do(arrived, Look(request));
    var ready := if looked.turns[request].phase == Clearing then Do(looked, Clear(request)) else looked;
    Do(ready, Finish(request, pauses))
  }

  /** The doors over the shared turn cache; `pauses` is what the graph answers. */
  class Doors {
    var markers: map<Key, Marker>

    constructor ()
      ensures markers == map[]
    {
      markers := map[];
    }

    /** `_run`, in process. */
    method RunTurn(key: Key, request: string, answer: bool, pauses: bool) returns (thread: string)
      modifies this
      ensures var s := Served(old(markers), key, Stream, request, answer, pauses);
              markers == s.markers && thread == s.turns[request].thread
    {
      thread := request;
      if answer {
        var pending := MarkerAt(markers, key);
        if pending.Paused? {
          thread := pending.thread;
        }
      }
      if pauses {
        markers := markers[key := Paused(thread)];
      }
    }

    /** `_chat`: its envelope never carries the answer on to `_run`. */
    method ChatTurn(key: Key, request: string, answer: bool, pauses: bool) returns (thread: string)
      modifies this
      ensures var s := Served(old(markers), key, Chat, request, answer, pauses);
              markers == s.markers && thread == s.turns[request].thread
    {
      if answer {
        var pending := MarkerAt(markers, key);
        if pending != Absent {
          thread := if pending.Paused? then pending.thread else key.session;
          markers := markers[key := Sentinel];
          if pauses {
            markers := markers[key := Paused(thread)];
          }
          return;
        }
      }
      thread := RunTurn(key, request, false, pauses);
    }
  }

  const EMPTY: State := State(map[], map[], [])

  /** The state after a run, if every step was enabled. */
  function Run(s: State, run: seq<Action>): Option<State> {
    if run == [] then Some(s)
    else
      match Run(s, run[..|run| - 1])
      case Some(t) => if Enabled(t, run[|run| - 1]) then Some(Do(t, run[|run| - 1])) else None
      case None => None
  }

  // ── the marker follows the history ───────────────────────────────────────

  /** Event `i` is the last one of the key. */
  ghost predicate LastOf(log: seq<Event>, key: Key, i: int) {
    0 <= i < |log| && log[i].key == key && forall j :: i < j < |log| ==> log[j].key != key
  }

  /** The pause most recently recorded for the key, neither cleared nor expired since, was on this thread. */
  ghost predicate Standing(log: seq<Event>, key: Key, thread: string) {
    exists i :: LastOf(log, key, i) && log[i] == Recorded(key, thread)
  }

  /** The last event of the key is that an answer cleared its marker. */
  ghost predicate LastCleared(log: seq<Event>, key: Key) {
    exists i :: LastOf(log, key, i) && log[i] == Cleared(key)
  }

  ghost predicate MarkerAgrees(s: State, key: Key) {
    match MarkerAt(s.markers, key)
    case Paused(t) => Standing(s.log, key, t)
    case Sentinel => LastCleared(s.log, key)
    case Absent => forall i :: LastOf(s.log, key, i) ==> s.log[i] == Expired(key)
  }

  ghost predicate Agrees(s: State) {
    forall key :: MarkerAgrees(s, key)
  }

  lemma LogGrows(log: seq<Event>, e: Event, key: Key)
    ensures e.key == key ==> LastOf(log + [e], key, |log|) && forall i :: LastOf(log + [e], key, i) ==> i == |log|
    ensures e.key != key ==> forall i :: LastOf(log + [e], key, i) <==> LastOf(log, key, i)
  {
    var grown := log + [e];
    assert grown[|log|] == e && forall j :: 0 <= j < |log| ==> grown[j] == log[j];
  }

  lemma StepKeepsAgrees(s: State, a: Action)
    requires Agrees(s) && Enabled(s, a)
    ensures Agrees(Do(s, a))
  {
    var t := Do(s, a);
    forall key ensures MarkerAgrees(t, key) {
      assert MarkerAgrees(s, key);
      if |t.log| > |s.log| {
        LogGrows(s.log, t.log[|s.log|], key);
      }
    }
  }

  lemma {:induction false} RunAgrees(s: State, run: seq<Action>)
    requires Agrees(s) && Run(s, run).Some?
    ensures Agrees(Run(s, run).value)
  {
    if run != [] {
      RunAgrees(s, run[..|run| - 1]);
      StepKeepsAgrees(Run(s, run[..|run| - 1]).value, run[|run| - 1]);
    }
  }

  lemma OneStanding(log: seq<Event>, key: Key, t: string, u: string)
    requires Standing(log, key, t) && Standing(log, key, u)
    ensures t == u
  {
  }

  /** A resume runs on the paused thread. In every run of turns at both doors, interleaved in any way,
      an answer that reads the marker while a pause stands goes on with the thread of that pause: the
      one most recently recorded for its tenant and session and not cleared since. With no pause
      standing it never does: after a clearing the chat door falls back to the session id; otherwise
      both doors go on with the request id, the chat door as a turn of its own. The chat door clears
      the marker first exactly when it resumes. */
  lemma ResumeRunsOnStandingPause(run: seq<Action>, request: string, thread: string)
    requires Run(EMPTY, run + [Look(request)]).Some?
    requires var s := Run(EMPTY, run + [Look(request)]).value; request in s.turns && s.turns[request].answer
    ensures var s := Run(EMPTY, run + [Look(request)]).value;
            var turn := s.turns[request];
            && (Standing(s.log, turn.key, thread) ==> turn.origin == Resumed(Paused(thread)) && turn.thread == thread)
            && (turn.origin == Resumed(Paused(thread)) ==> Standing(s.log, turn.key, thread))
            && ((forall t :: !Standing(s.log, turn.key, t)) ==>
                  && turn.thread == (if turn.door == Chat && LastCleared(s.log, turn.key) then turn.key.session else request)
                  && (turn.origin == Own <==> turn.door == Chat && !LastCleared(s.log, turn.key)))
            && turn.phase == (if turn.door == Chat && turn.origin != Own then Clearing else Running)
  {
    var all := run + [Look(request)];
    assert all[..|all| - 1] == run;
    var before := Run(EMPTY, run).value;
    TurnsKeepTheirNames(run);
    var turn := before.turns[request];
    RunAgrees(EMPTY, run);
    assert MarkerAgrees(before, turn.key);
    if Standing(before.log, turn.key, thread) {
      match MarkerAt(before.markers, turn.key)
      case Paused(t) => OneStanding(before.log, turn.key, t, thread);
      case Sentinel =>
      case Absent =>
    }
  }

  /** A turn without an answer runs on its own thread at both doors, whatever the marker says. */
  lemma OrdinaryTurnIsItsOwn(run: seq<Action>, request: string)
    requires Run(EMPTY, run + [Look(request)]).Some?
    requires var s := Run(EMPTY, run + [Look(request)]).value; request in s.turns && !s.turns[request].answer
    ensures var turn := Run(EMPTY, run + [Look(request)]).value.turns[request];
            turn.origin == Own && turn.thread == request && turn.phase == Running
  {
    var all := run + [Look(request)];
    assert all[..|all| - 1] == run;
    TurnsKeepTheirNames(run);
  }

  /** A turn is stored under its request id, and a turn of its own runs on that thread. */
  ghost predicate Named(s: State) {
    forall r :: r in s.turns ==> s.turns[r].request == r && (s.turns[r].origin == Own ==> s.turns[r].thread == r)
  }

  lemma {:induction false} TurnsKeepTheirNames(run: seq<Action>)
    requires Run(EMPTY, run).Some?
    ensures Named(Run(EMPTY, run).value)
  {
    if run != [] {
      TurnsKeepTheirNames(run[..|run| - 1]);
      StepKeepsNames(Run(EMPTY, run[..|run| - 1]).value, run[|run| - 1]);
    }
  }

  lemma StepKeepsNames(s: State, a: Action)
    requires Named(s) && Enabled(s, a)
    ensures Named(Do(s, a))
  {
  }

  // ── threads do not cross sessions ────────────────────────────────────────

  /** The thread is the session's own id, or was started by a request of that tenant and session. */
  ghost predicate Home(turns: map<string, Turn>, key: Key, thread: string) {
    thread == key.session || (thread in turns && turns[thread].key == key)
  }

  ghost predicate AllHome(s: State) {
    && Named(s)
    && (forall r :: r in s.turns ==> Home(s.turns, s.turns[r].key, s.turns[r].thread))
    && forall key :: key in s.markers && s.markers[key].Paused? ==> Home(s.turns, key, s.markers[key].thread)
  }

  /** Independent turns do not contaminate each other across sessions or tenants: in every run, whatever
      a turn resumes was started in its own tenant and session. */
  lemma {:induction false} ThreadsStayHome(run: seq<Action>)
    requires Run(EMPTY, run).Some?
    ensures AllHome(Run(EMPTY, run).value)
  {
    if run != [] {
      ThreadsStayHome(run[..|run| - 1]);
      StepKeepsHome(Run(EMPTY, run[..|run| - 1]).value, run[|run| - 1]);
    }
  }

  lemma StepKeepsHome(s: State, a: Action)
    requires AllHome(s) && Enabled(s, a)
    ensures AllHome(Do(s, a))
  {
    StepKeepsNames(s, a);
    assert Named(s);
    hide Named;
    assert forall key, thread :: Home(s.turns, key, thread) ==> Home(Do(s, a).turns, key, thread);
  }

  // ── a multi-step flow stays on its first turn's thread ───────────────────

  /** Turn `r` may still record a pause for the key. */
  predicate Open(s: State, key: Key, r: string) {
    r in s.turns && s.turns[r].key == key && s.turns[r].phase != Done
  }

  /** A pause of the key that is not a step of a flow: the turn did not take its thread from a pause. */
  predicate BreaksIn(s: State, key: Key, a: Action) {
    a.Finish? && a.pauses && Open(s, key, a.request)
    && !(s.turns[a.request].origin.Resumed? && s.turns[a.request].origin.found.Paused?)
  }

  /** No step of the run records a pause from outside the flow. */
  ghost predicate NoOtherPause(s: State, key: Key, run: seq<Action>) {
    forall k :: 0 <= k < |run| ==> UndisturbedAt(s, key, run, k)
  }

  ghost predicate UndisturbedAt(s: State, key: Key, run: seq<Action>, k: int)
    requires 0 <= k < |run|
  {
    Run(s, run[..k]).Some? ==> !BreaksIn(Run(s, run[..k]).value, key, run[k])
  }

  /** A turn that goes on with a pause of the key goes on with this thread. */
  ghost predicate FlowsOn(s: State, key: Key, thread: string) {
    && (MarkerAt(s.markers, key).Paused? ==> MarkerAt(s.markers, key).thread == thread)
    && forall r :: Open(s, key, r) && s.turns[r].origin.Resumed? && s.turns[r].origin.found.Paused? ==>
                     s.turns[r].thread == thread
  }

  /** A multi-step flow (pick, fields, confirm) stays on its first turn's thread: start when the first
      turn's pause stands and no earlier answer is in flight; then, however many answers come through
      either door and pause again, and however they interleave, every later pause of the session is
      recorded on that thread and every answer that finds one runs on it. */
  lemma {:induction false} FlowStaysOnItsThread(s: State, key: Key, thread: string, run: seq<Action>)
    requires FlowsOn(s, key, thread)
    requires Run(s, run).Some? && NoOtherPause(s, key, run)
    ensures var t := Run(s, run).value;
            && FlowsOn(t, key, thread) && s.log <= t.log
            && forall i :: |s.log| <= i < |t.log| && t.log[i].Recorded? && t.log[i].key == key ==> t.log[i].thread == thread
  {
    if run != [] {
      var front := run[..|run| - 1];
      forall k | 0 <= k < |front| ensures UndisturbedAt(s, key, front, k) {
        assert front[..k] == run[..k] && UndisturbedAt(s, key, run, k);
      }
      FlowStaysOnItsThread(s, key, thread, front);
      var m, a := Run(s, front).value, run[|run| - 1];
      assert UndisturbedAt(s, key, run, |run| - 1);
      FlowStep(m, key, thread, a);
    }
  }

  /** A flow starts so: the first turn's pause is recorded on its request id, and with no earlier
      answer in flight everything that goes on with it runs there. */
  lemma FlowStartsOnItsRequest(run: seq<Action>, request: string)
    requires Run(EMPTY, run + [Finish(request, true)]).Some?
    requires var s := Run(EMPTY, run).value;
             && s.turns[request].origin == Own
             && forall r :: r in s.turns && Open(s, s.turns[request].key, r) ==> s.turns[r].origin == Own
    ensures var t := Run(EMPTY, run + [Finish(request, true)]).value;
            Standing(t.log, t.turns[request].key, request) && FlowsOn(t, t.turns[request].key, request)
  {
    var all := run + [Finish(request, true)];
    assert all[..|all| - 1] == run;
    TurnsKeepTheirNames(run);
    var s, t := Run(EMPTY, run).value, Run(EMPTY, all).value;
    LogGrows(s.log, Recorded(s.turns[request].key, request), s.turns[request].key);
    assert LastOf(t.log, s.turns[request].key, |s.log|);
  }

  lemma FlowStep(s: State, key: Key, thread: string, a: Action)
    requires FlowsOn(s, key, thread) && Enabled(s, a) && !BreaksIn(s, key, a)
    ensures var t := Do(s, a);
            && FlowsOn(t, key, thread) && s.log <= t.log
            && forall i :: |s.log| <= i < |t.log| && t.log[i].Recorded? && t.log[i].key == key ==> t.log[i].thread == thread
  {
    var t := Do(s, a);
    forall r | Open(t, key, r) && t.turns[r].origin.Resumed? && t.turns[r].origin.found.Paused?
      ensures t.turns[r].thread == thread
    {
      if Open(s, key, r) && a.Look? && a.request == r {
        assert t.turns[r] == Route(s.turns[r], MarkerAt(s.markers, key));
      }
    }
    if a.Finish? && a.pauses && s.turns[a.request].key == key {
      assert Open(s, key, a.request);
    }
  }

  /** The guard is needed: no marker is ever deleted, only overwritten by the sentinel, and a second
      answer at the chat door takes the sentinel for a pause of the thread named by the session. */
  lemma SentinelResumesSessionThread(key: Key)
    ensures var run := [Arrive(key, Chat, "r0", false), Look("r0"), Finish("r0", true),
                        Arrive(key, Chat, "r1", true), Look("r1"), Clear("r1"),
                        Arrive(key, Chat, "r2", true), Look("r2")];
            var s := Run(EMPTY, run);
            s.Some? && s.value.turns["r2"].origin == Resumed(Sentinel) && s.value.turns["r2"].thread == key.session
  {
    var p, t := SentinelLeft(key);
    hide Run;
    t := After(EMPTY, p, Arrive(key, Chat, "r2", true), t);
    p := p + [Arrive(key, Chat, "r2", true)];
    t := After(EMPTY, p, Look("r2"), t);
    p := p + [Look("r2")];
    assert p == [Arrive(key, Chat, "r0", false), Look("r0"), Finish("r0", true),
                 Arrive(key, Chat, "r1", true), Look("r1"), Clear("r1"),
                 Arrive(key, Chat, "r2", true), Look("r2")];
  }

  lemma PausedOnce(key: Key) returns (p: seq<Action>, t: State)
    ensures p == [Arrive(key, Chat, "r0", false), Look("r0"), Finish("r0", true)] && Run(EMPTY, p) == Some(t)
    ensures MarkerAt(t.markers, key) == Paused("r0") && t.turns.Keys == {"r0"}
  {
    p := [];
    assert Run(EMPTY, p) == Some(EMPTY);
    hide Run;
    t := After(EMPTY, p, Arrive(key, Chat, "r0", false), EMPTY);
    p := p + [Arrive(key, Chat, "r0", false)];
    t := After(EMPTY, p, Look("r0"), t);
    p := p + [Look("r0")];
    t := After(EMPTY, p, Finish("r0", true), t);
    p := p + [Finish("r0", true)];
  }

  lemma SentinelLeft(key: Key) returns (p: seq<Action>, t: State)
    ensures p == [Arrive(key, Chat, "r0", false), Look("r0"), Finish("r0", true), Arrive(key, Chat, "r1", true), Look("r1"), Clear("r1")]
    ensures Run(EMPTY, p) == Some(t) && MarkerAt(t.markers, key) == Sentinel && t.turns.Keys == {"r0", "r1"}
  {
    p, t := PausedOnce(key);
    hide Run;
    t := After(EMPTY, p, Arrive(key, Chat, "r1", true), t);
    p := p + [Arrive(key, Chat, "r1", true)];
    t := After(EMPTY, p, Look("r1"), t);
    p := p + [Look("r1")];
    t := After(EMPTY, p, Clear("r1"), t);
    p := p + [Clear("r1")];
  }

  lemma After(s: State, run: seq<Action>, a: Action, t: State) returns (u: State)
    requires Run(s, run) == Some(t) && Enabled(t, a)
    ensures u == Do(t, a) && Run(s, run + [a]) == Some(u)
  {
    u := Do(t, a);
    assert (run + [a])[..|run + [a]| - 1] == run;
  }
}
