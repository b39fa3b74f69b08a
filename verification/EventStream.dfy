/** The NDJSON event stream of src/oneops/api/streaming.py over the queues of
    src/oneops/observability/event_sink.py: a consumer generator racing a producer task. */
module EventStream {
  import opened Wrappers

  // ── tool calls ───────────────────────────────────────────────────────────

  /** How the wrapped `run()` of a tool call ends. */
  datatype RunEnd = Returned | Raised | Cancelled

  datatype Event =
    | ToolStart(call: nat, toolId: string)
    | ToolDone(call: nat, toolId: string, status: string)
    | Other(text: string)

  /** The status `publish_tool` reports: only an Exception turns it into "failed". */
  function Status(end: RunEnd): string {
    match end
    case Raised => "failed"
    case _ => "success"
  }

  /** How far a `publish_tool` call has come. */
  datatype Call = Started(toolId: string) | Ended(toolId: string, end: RunEnd)

  type Calls = map<nat, Call>

  /** The events a call has published so far. */
  function EventsOf(calls: Calls, call: nat): seq<Event> {
    if call !in calls then []
    else
      match calls[call]
      case Started(id) => [ToolStart(call, id)]
      case Ended(id, end) => [ToolStart(call, id), ToolDone(call, id, Status(end))]
  }

  // ── the stream as a step protocol ────────────────────────────────────────

  /** The producer: `run_final` returned, raised an Exception, or was cancelled (CancelledError is not
      an Exception). */
  datatype Task = Running | Succeeded(payload: string) | Failed | Stopped

  datatype Getter = Pending | Got(event: Event)

  datatype Line = TurnStart(requestId: string) | Live(event: Event) | Final(payload: string)

  /** Where the generator is: not started, awaiting {getter, task}, emptying the queue after the producer
      ended, suspended at its last yield, finished, ended by the CancelledError of its producer, or
      closed early by its client. */
  datatype Phase = Opening | Waiting(getter: Getter) | Draining | LastYield | Finished | Broken | Abandoned

  /** How many events were published at some moment, and how far the tool calls were. */
  datatype Moment = Moment(count: nat, calls: Calls)

  /** `published` is every event the sink accepted; `mark` is the moment the producer ended and `seal`
      the moment the generator found the queue empty after that. No step reads these three. */
  datatype State = State(
    requestId: string, phase: Phase, queue: seq<Event>, task: Task, output: seq<Line>, calls: Calls,
    published: seq<Event>, mark: Moment, seal: Moment)

  const NEVER := Moment(0, map[])

  function Init(requestId: string): State {
    State(requestId, Opening, [], Running, [], map[], [], NEVER, NEVER)
  }

  datatype Action =
    | Publish(text: string)                 // any coroutine publishes to the request's sink
    | ToolStarts(call: nat, toolId: string) // a publish_tool call begins
    | ToolEnds(call: nat, end: RunEnd)      // its wrapped run ends
    | TaskEnds(task: Task)                  // run_final returns, raises or is cancelled
    | GetterRuns                            // the pending q.get() takes the head of the queue
    | Resume                                // the generator takes its next step
    | Close                                 // the client goes away

  function FailurePayload(requestId: string): string {
    "stream failed (request_id=" + requestId + ")"
  }

  /** The last line: none when `task.result()` raises what `except Exception` does not catch. */
  function LastLine(requestId: string, task: Task): seq<Line> {
    match task
    case Succeeded(payload) => [Final(payload)]
    case Failed => [Final(FailurePayload(requestId))]
    case _ => []
  }

  predicate SinkOpen(s: State) {
    s.phase != Finished && s.phase != Broken && s.phase != Abandoned
  }

  predicate Enabled(s: State, a: Action) {
    match a
    case Publish(_) => true
    case ToolStarts(c, _) => c !in s.calls
    case ToolEnds(c, _) => c in s.calls && s.calls[c].Started?
    case TaskEnds(t) => s.task.Running? && !t.Running?
    case GetterRuns => s.phase == Waiting(Pending) && s.queue != []
    case Resume =>
      (match s.phase
       case Opening => true
       case Waiting(Got(_)) => true
       case Waiting(Pending) => !s.task.Running?
       case Draining => true
       case LastYield => true
       case _ => false)
    case Close => SinkOpen(s)
  }

  /** `publish`: a no-op once the sink is closed, and always for an empty request id. */
  function Accept(s: State, e: Event): State {
    if s.requestId != "" && SinkOpen(s) then s.(queue := s.queue + [e], published := s.published + [e]) else s
  }

  function Do(s: State, a: Action): State
    requires Enabled(s, a)
  {
    match a
    case Publish(text) => Accept(s, Other(text))
    case ToolStarts(c, id) => Accept(s, ToolStart(c, id)).(calls := s.calls[c := Started(id)])
    case ToolEnds(c, end) =>
      var id := s.calls[c].toolId;
      Accept(s, ToolDone(c, id, Status(end))).(calls := s.calls[c := Ended(id, end)])
    case TaskEnds(t) => s.(task := t, mark := Moment(|s.published|, s.calls))
    case GetterRuns => s.(phase := Waiting(Got(s.queue[0])), queue := s.queue[1..])
    case Close => s.(phase := Abandoned)
    case Resume =>
      match s.phase
      case Opening => s.(phase := Waiting(Pending), output := s.output + [TurnStart(s.requestId)])
      case Waiting(Got(e)) => s.(phase := Waiting(Pending), output := s.output + [Live(e)])
      case Waiting(Pending) => s.(phase := Draining)
      case Draining =>
        if s.queue != [] then s.(queue := s.queue[1..], output := s.output + [Live(s.queue[0])])
        else
          var last := LastLine(s.requestId, s.task);
          s.(phase := if last == [] then Broken else LastYield, output := s.output + last,
             seal := Moment(|s.published|, s.calls))
      case _ => s.(phase := Finished)
  }

  function Run(s: State, acts: seq<Action>): Option<State> {
    if acts == [] then Some(s)
    else
      match Run(s, acts[..|acts| - 1])
      case Some(t) => if Enabled(t, acts[|acts| - 1]) then Some(Do(t, acts[|acts| - 1])) else None
      case None => None
  }

  lemma OneMore(s: State, acts: seq<Action>, a: Action)
    requires Run(s, acts).Some? && Enabled(Run(s, acts).value, a)
    ensures Run(s, acts + [a]) == Some(Do(Run(s, acts).value, a))
  {
    assert (acts + [a])[..|acts|] == acts;
  }

  // ── order ────────────────────────────────────────────────────────────────

  function Lives(events: seq<Event>): seq<Line> {
    seq(|events|, i requires 0 <= i < |events| => Live(events[i]))
  }

  function Held(s: State): seq<Event> {
    match s.phase
    case Waiting(Got(e)) => [e]
    case _ => []
  }

  predicate Sealed(s: State) {
    s.phase == LastYield || s.phase == Finished || s.phase == Broken
  }

  /** Nothing is lost, duplicated or reordered: the output is the start line and a prefix of what was
      published, and the rest is still in the getter's hand or in the queue. */
  ghost predicate Inv(s: State) {
    match s.phase
    case Opening => s.output == [] && s.published == s.queue
    case Waiting(_) => exists k: nat {:trigger s.published[..k]} :: k <= |s.published| && Delivered(s, k)
    case Draining => !s.task.Running? && exists k: nat {:trigger s.published[..k]} :: k <= |s.published| && Delivered(s, k)
    case Abandoned => true
    case _ => Complete(s)
  }

  ghost predicate Delivered(s: State, k: nat)
    requires k <= |s.published|
  {
    && s.output == [TurnStart(s.requestId)] + Lives(s.published[..k])
    && s.published[k..] == Held(s) + s.queue
  }

  ghost predicate Complete(s: State) {
    && !s.task.Running? && (s.phase == Broken <==> s.task == Stopped) && s.seal.count <= |s.published|
    && s.output == [TurnStart(s.requestId)] + Lives(s.published[..s.seal.count]) + LastLine(s.requestId, s.task)
  }

  lemma LivesSnoc(published: seq<Event>, k: nat)
    requires k < |published|
    ensures Lives(published[..k + 1]) == Lives(published[..k]) + [Live(published[k])]
  {
  }

  lemma HeadOfRest(xs: seq<Event>, k: nat, head: Event, tail: seq<Event>)
    requires k <= |xs| && xs[k..] == [head] + tail
    ensures k < |xs| && xs[k] == head && xs[k + 1..] == tail
  {
    assert |xs| - k == 1 + |tail| && xs[k..][0] == head;
    assert xs[k + 1..] == xs[k..][1..];
  }

  lemma DeliverKeeps(s: State, s': State, k: nat, e: Event)
    requires k < |s.published| && s.output == [TurnStart(s.requestId)] + Lives(s.published[..k])
    requires s.published[k] == e
    requires s'.published == s.published && s'.requestId == s.requestId && s'.output == s.output + [Live(e)]
    requires s.published[k + 1..] == Held(s') + s'.queue
    ensures Delivered(s', k + 1)
  {
    LivesSnoc(s.published, k);
  }

  lemma AcceptKeepsInv(s: State, e: Event, calls: Calls)
    requires Inv(s)
    ensures Inv(Accept(s, e).(calls := calls))
  {
    var s' := Accept(s, e).(calls := calls);
    if s.phase.Waiting? || s.phase == Draining {
      var k: nat :| k <= |s.published| && Delivered(s, k);
      assert s'.published[..k] == s.published[..k];
      assert s.requestId != "" ==> s'.published[k..] == s.published[k..] + [e];
      assert Delivered(s', k);
    } else if s.phase == LastYield {
      assert s'.published[..s.seal.count] == s.published[..s.seal.count];
    }
  }

  lemma ResumeKeepsInv(s: State)
    requires Inv(s) && Enabled(s, Resume)
    ensures Inv(Do(s, Resume))
  {
    var s' := Do(s, Resume);
    match s.phase
    case Opening =>
      assert s'.published[..0] == [] && Delivered(s', 0);
    case Waiting(Got(e)) =>
      var k: nat :| k <= |s.published| && Delivered(s, k);
      assert Delivered(s, k);
      HeadOfRest(s.published, k, e, s.queue);
      DeliverKeeps(s, s', k, e);
    case Waiting(Pending) =>
      var k: nat :| k <= |s.published| && Delivered(s, k);
      assert Delivered(s', k);
    case Draining =>
      var k: nat :| k <= |s.published| && Delivered(s, k);
      assert Delivered(s, k);
      if s.queue != [] {
        assert Held(s) + s.queue == [s.queue[0]] + s.queue[1..];
        HeadOfRest(s.published, k, s.queue[0], s.queue[1..]);
        DeliverKeeps(s, s', k, s.queue[0]);
      } else {
        assert |s.published[k..]| == 0 && k == |s.published|;
      }
    case _ =>
  }

  lemma StepKeepsInv(s: State, a: Action)
    requires Inv(s) && Enabled(s, a)
    ensures Inv(Do(s, a))
  {
    match a
    case Publish(text) => AcceptKeepsInv(s, Other(text), s.calls);
    case ToolStarts(c, id) => AcceptKeepsInv(s, ToolStart(c, id), s.calls[c := Started(id)]);
    case ToolEnds(c, end) =>
      var id := s.calls[c].toolId;
      AcceptKeepsInv(s, ToolDone(c, id, Status(end)), s.calls[c := Ended(id, end)]);
    case Resume => ResumeKeepsInv(s);
    case GetterRuns =>
      var k: nat :| k <= |s.published| && Delivered(s, k);
      assert [s.queue[0]] + s.queue[1..] == s.queue;
      assert Delivered(Do(s, a), k);
    case TaskEnds(t) =>
      if s.phase.Waiting? {
        var k: nat :| k <= |s.published| && Delivered(s, k);
        assert Delivered(Do(s, a), k);
      }
    case Close =>
  }

  lemma {:induction false} RunKeepsInv(s: State, acts: seq<Action>)
    requires Inv(s) && Run(s, acts).Some?
    ensures Inv(Run(s, acts).value)
  {
    if acts != [] {
      RunKeepsInv(s, acts[..|acts| - 1]);
      StepKeepsInv(Run(s, acts[..|acts| - 1]).value, acts[|acts| - 1]);
    }
  }

  predicate Closed(s: State) {
    s.phase == Finished || s.phase == Broken
  }

  /** How a stream that has come to its end ends: with one final line, its last, that carries what
      `run_final` returned, or the opaque failure text when it raised; and with no final line at all
      when it was cancelled. */
  ghost predicate EndsAs(requestId: string, task: Task, output: seq<Line>) {
    && output != [] && !task.Running?
    && (task.Succeeded? ==> output[|output| - 1] == Final(task.payload))
    && (task == Failed ==> output[|output| - 1] == Final("stream failed (request_id=" + requestId + ")"))
    && (task == Stopped ==> !output[|output| - 1].Final?)
    && forall i :: 0 <= i < |output| - 1 ==> !output[i].Final?
  }

  lemma LastLineEnds(requestId: string, task: Task, shown: seq<Line>)
    requires !task.Running? && shown != [] && forall i :: 0 <= i < |shown| ==> !shown[i].Final?
    ensures EndsAs(requestId, task, shown + LastLine(requestId, task))
  {
    var output := shown + LastLine(requestId, task);
    assert forall i :: 0 <= i < |shown| ==> output[i] == shown[i];
  }

  /** Every interleaving of producer and consumer whose client stays: the output of a stream that has
      come to its end is the start line, then every event published before the seal, hence every one
      published before `run_final` ended, once each and in publish order; then one final line that
      carries the result, or the opaque failure payload when the producer raised. The final line is
      there if and only if the producer was not cancelled: a cancelled one ends the generator with
      its CancelledError. */
  lemma StreamOrder(requestId: string, acts: seq<Action>)
    requires Run(Init(requestId), acts).Some? && Closed(Run(Init(requestId), acts).value)
    ensures var s := Run(Init(requestId), acts).value;
            && s.mark.count <= s.seal.count <= |s.published|
            && s.output == [TurnStart(requestId)] + Lives(s.published[..s.seal.count]) + LastLine(requestId, s.task)
            && (s.phase == Finished <==> s.task != Stopped)
            && EndsAs(requestId, s.task, s.output)
  {
    RunKeepsInv(Init(requestId), acts);
    RunKeepsCalls(Init(requestId), acts);
    RequestIdFixed(Init(requestId), acts);
    var s := Run(Init(requestId), acts).value;
    LastLineEnds(requestId, s.task, [TurnStart(requestId)] + Lives(s.published[..s.seal.count]));
  }

  predicate IsFirstPublished(a: Action, e: Event, calls: Calls) {
    match a
    case Publish(text) => e == Other(text) && calls == map[]
    case ToolStarts(c, id) => e == ToolStart(c, id) && calls == map[c := Started(id)]
    case _ => false
  }

  function Awaiting(requestId: string): State {
    State(requestId, Waiting(Pending), [], Running, [TurnStart(requestId)], map[], [], NEVER, NEVER)
  }

  function OnePublished(requestId: string, e: Event, calls: Calls): State {
    Awaiting(requestId).(queue := [e], calls := calls, published := [e])
  }

  lemma FirstPublished(requestId: string, a: Action, e: Event, calls: Calls)
    requires requestId != "" && IsFirstPublished(a, e, calls)
    ensures Enabled(Awaiting(requestId), a) && Do(Awaiting(requestId), a) == OnePublished(requestId, e, calls)
  {
    var s := Awaiting(requestId);
    assert s.queue + [e] == [e] && s.published + [e] == [e];
  }

  lemma StartsAwaiting(requestId: string)
    ensures Run(Init(requestId), [Resume]) == Some(Awaiting(requestId))
  {
    var i := Init(requestId);
    assert [Resume][..0] == [] && Run(i, []) == Some(i);
    assert i.output + [TurnStart(requestId)] == [TurnStart(requestId)];
  }

  function ProducerEnded(requestId: string, e: Event, calls: Calls, t: Task): State {
    OnePublished(requestId, e, calls).(task := t, mark := Moment(1, calls))
  }

  lemma OnePublishedThenEnds(requestId: string, a: Action, e: Event, calls: Calls, t: Task)
    requires requestId != "" && IsFirstPublished(a, e, calls) && !t.Running?
    ensures Run(Init(requestId), [Resume, a, TaskEnds(t)]) == Some(ProducerEnded(requestId, e, calls, t))
  {
    StartsAwaiting(requestId);
    FirstPublished(requestId, a, e, calls);
    hide Run, IsFirstPublished;
    var p := NextIs(Init(requestId), [Resume], Awaiting(requestId), a, OnePublished(requestId, e, calls));
    p := NextIs(Init(requestId), p, OnePublished(requestId, e, calls), TaskEnds(t), ProducerEnded(requestId, e, calls, t));
    assert p == [Resume, a, TaskEnds(t)];
  }

  /** One event is published, the producer ends, and the event is delivered. */
  lemma OneDelivered(requestId: string, a: Action, e: Event, calls: Calls, t: Task)
    requires requestId != "" && IsFirstPublished(a, e, calls) && !t.Running?
    ensures Run(Init(requestId), [Resume, a, TaskEnds(t), GetterRuns, Resume, Resume]) ==
            Some(State(requestId, Draining, [], t, [TurnStart(requestId), Live(e)], calls, [e], Moment(1, calls), NEVER))
  {
    var i, s3 := Init(requestId), ProducerEnded(requestId, e, calls, t);
    var s4 := s3.(phase := Waiting(Got(e)), queue := []);
    var s5 := s4.(phase := Waiting(Pending), output := [TurnStart(requestId), Live(e)]);
    OnePublishedThenEnds(requestId, a, e, calls, t);
    assert [e][1..] == [] && s4.output + [Live(e)] == s5.output;
    hide Run, IsFirstPublished;
    var p := NextIs(i, [Resume, a, TaskEnds(t)], s3, GetterRuns, s4);
    p := NextIs(i, p, s4, Resume, s5);
    p := NextIs(i, p, s5, Resume, s5.(phase := Draining));
    assert p == [Resume, a, TaskEnds(t), GetterRuns, Resume, Resume];
  }

  lemma NextIs(i: State, p: seq<Action>, s: State, a: Action, t: State) returns (p': seq<Action>)
    requires Run(i, p) == Some(s) && Enabled(s, a) && Do(s, a) == t
    ensures p' == p + [a] && Run(i, p') == Some(t)
  {
    OneMore(i, p, a);
    p' := p + [a];
  }

  /** A cancelled producer leaves the stream without a final line. */
  lemma CancelledHasNoFinal(requestId: string, text: string)
    requires requestId != ""
    ensures var acts := [Resume, Publish(text), TaskEnds(Stopped), GetterRuns, Resume, Resume, Resume];
            var s := Run(Init(requestId), acts);
            s.Some? && s.value.phase == Broken && s.value.output == [TurnStart(requestId), Live(Other(text))]
  {
    OneDelivered(requestId, Publish(text), Other(text), map[], Stopped);
    var p := [Resume, Publish(text), TaskEnds(Stopped), GetterRuns, Resume, Resume];
    hide Run;
    OneMore(Init(requestId), p, Resume);
    assert p + [Resume] == [Resume, Publish(text), TaskEnds(Stopped), GetterRuns, Resume, Resume, Resume];
  }

  /** Without stragglers the stream carries exactly what was published. */
  lemma StreamIsExact(requestId: string, acts: seq<Action>)
    requires Run(Init(requestId), acts).Some? && Closed(Run(Init(requestId), acts).value)
    requires |Run(Init(requestId), acts).value.published| == Run(Init(requestId), acts).value.mark.count
    ensures var s := Run(Init(requestId), acts).value;
            s.output == [TurnStart(requestId)] + Lives(s.published) + LastLine(requestId, s.task)
  {
    StreamOrder(requestId, acts);
    var s := Run(Init(requestId), acts).value;
    assert s.published[..|s.published|] == s.published;
  }

  lemma {:induction false} RequestIdFixed(s: State, acts: seq<Action>)
    requires Run(s, acts).Some?
    ensures Run(s, acts).value.requestId == s.requestId
  {
    if acts != [] {
      RequestIdFixed(s, acts[..|acts| - 1]);
    }
  }

  // ── tool pairs in the output ─────────────────────────────────────────────

  /** The events of one call, in order. */
  function OfCall(log: seq<Event>, call: nat): seq<Event> {
    if log == [] then []
    else
      var e := log[|log| - 1];
      OfCall(log[..|log| - 1], call) + if !e.Other? && e.call == call then [e] else []
  }

  lemma OfCallSnoc(log: seq<Event>, e: Event, call: nat)
    ensures OfCall(log + [e], call) == OfCall(log, call) + if !e.Other? && e.call == call then [e] else []
  {
    assert (log + [e])[..|log|] == log;
  }

  /** What the sink takes of the events of a call. */
  function Heard(requestId: string, calls: Calls, call: nat): seq<Event> {
    if requestId == "" then [] else EventsOf(calls, call)
  }

  /** What was accepted up to a moment is what the sink takes of its calls. */
  ghost predicate Accounts(requestId: string, published: seq<Event>, m: Moment) {
    m.count <= |published| && forall call: nat :: OfCall(published[..m.count], call) == Heard(requestId, m.calls, call)
  }

  /** Calls only go forward. */
  ghost predicate Forward(before: Calls, after: Calls) {
    forall c :: c in before ==> c in after && after[c].toolId == before[c].toolId && (before[c].Ended? ==> after[c] == before[c])
  }

  ghost predicate CallsInv(s: State) {
    s.phase != Abandoned ==>
      && (SinkOpen(s) ==> Accounts(s.requestId, s.published, Moment(|s.published|, s.calls)))
      && (!s.task.Running? ==> Accounts(s.requestId, s.published, s.mark) && Forward(s.mark.calls, s.calls))
      && (Sealed(s) ==> !s.task.Running? && Accounts(s.requestId, s.published, s.seal) && s.mark.count <= s.seal.count
                        && Forward(s.mark.calls, s.seal.calls) && Forward(s.seal.calls, s.calls))
      && (s.phase == Draining ==> !s.task.Running?)
  }

  lemma AccountsGrow(requestId: string, published: seq<Event>, e: Event, m: Moment)
    requires Accounts(requestId, published, m)
    ensures Accounts(requestId, published + [e], m)
  {
    assert (published + [e])[..m.count] == published[..m.count];
  }

  /** The event is the one by which the calls differ. */
  ghost predicate Adds(e: Event, calls: Calls, calls': Calls) {
    forall c: nat :: EventsOf(calls', c) == EventsOf(calls, c) + if !e.Other? && e.call == c then [e] else []
  }

  lemma AccountsNow(requestId: string, published: seq<Event>, e: Event, calls: Calls, calls': Calls)
    requires requestId != "" && Accounts(requestId, published, Moment(|published|, calls)) && Adds(e, calls, calls')
    ensures Accounts(requestId, published + [e], Moment(|published| + 1, calls'))
  {
    assert (published + [e])[..|published| + 1] == published + [e] && published[..|published|] == published;
    forall c: nat ensures OfCall(published + [e], c) == EventsOf(calls', c) {
      OfCallSnoc(published, e, c);
    }
  }

  lemma PublishKeepsCalls(s: State, e: Event, calls': Calls)
    requires CallsInv(s) && Forward(s.calls, calls') && Adds(e, s.calls, calls')
    ensures CallsInv(Accept(s, e).(calls := calls'))
  {
    if SinkOpen(s) && s.requestId != "" {
      hide Accounts;
      AccountsNow(s.requestId, s.published, e, s.calls, calls');
      if !s.task.Running? {
        AccountsGrow(s.requestId, s.published, e, s.mark);
      }
      if Sealed(s) {
        AccountsGrow(s.requestId, s.published, e, s.seal);
      }
    } else {
      hide OfCall, EventsOf;
    }
  }

  lemma StepKeepsCalls(s: State, a: Action)
    requires CallsInv(s) && Enabled(s, a)
    ensures CallsInv(Do(s, a))
  {
    match a
    case Publish(text) => PublishKeepsCalls(s, Other(text), s.calls);
    case ToolStarts(c, id) => PublishKeepsCalls(s, ToolStart(c, id), s.calls[c := Started(id)]);
    case ToolEnds(c, end) =>
      var id := s.calls[c].toolId;
      PublishKeepsCalls(s, ToolDone(c, id, Status(end)), s.calls[c := Ended(id, end)]);
    case _ =>
      hide Accounts;
  }

  lemma {:induction false} RunKeepsCalls(s: State, acts: seq<Action>)
    requires CallsInv(s) && Run(s, acts).Some?
    ensures CallsInv(Run(s, acts).value)
  {
    if acts != [] {
      RunKeepsCalls(s, acts[..|acts| - 1]);
      StepKeepsCalls(Run(s, acts[..|acts| - 1]).value, acts[|acts| - 1]);
    }
  }

  /** The events shown by a list of lines. */
  function Shown(lines: seq<Line>): seq<Event> {
    if lines == [] then []
    else Shown(lines[..|lines| - 1]) + if lines[|lines| - 1].Live? then [lines[|lines| - 1].event] else []
  }

  lemma {:induction false} ShownLives(start: Line, events: seq<Event>)
    requires !start.Live?
    ensures Shown([start] + Lives(events)) == events
  {
    if events == [] {
      assert [start] + Lives(events) == [start] && [start][..0] == [];
    } else {
      var front, last := events[..|events| - 1], events[|events| - 1];
      ShownLives(start, front);
      LivesSnoc(events, |front|);
      assert events[..|front| + 1] == events;
      assert [start] + Lives(events) == [start] + Lives(front) + [Live(last)];
      hide Lives;
      ShownSnoc([start] + Lives(front), Live(last));
    }
  }

  lemma ShownSnoc(lines: seq<Line>, line: Line)
    ensures Shown(lines + [line]) == Shown(lines) + if line.Live? then [line.event] else []
  {
    assert (lines + [line])[..|lines|] == lines;
  }

  lemma ShownThen(lines: seq<Line>, last: seq<Line>)
    requires |last| <= 1 && (last != [] ==> !last[0].Live?)
    ensures Shown(lines + last) == Shown(lines)
  {
    if last == [] {
      assert lines + last == lines;
    } else {
      assert (lines + last)[..|lines|] == lines;
    }
  }

  /** The events of a call in the output are those the sink took of it up to the seal. */
  lemma ShownIsHeard(requestId: string, acts: seq<Action>, call: nat)
    requires Run(Init(requestId), acts).Some? && Closed(Run(Init(requestId), acts).value)
    ensures var s := Run(Init(requestId), acts).value;
            OfCall(Shown(s.output), call) == Heard(requestId, s.seal.calls, call) && Forward(s.mark.calls, s.seal.calls)
  {
    StreamOrder(requestId, acts);
    RunKeepsCalls(Init(requestId), acts);
    RequestIdFixed(Init(requestId), acts);
    var s := Run(Init(requestId), acts).value;
    assert Accounts(requestId, s.published, s.seal) && Forward(s.mark.calls, s.seal.calls);
    hide Run, EndsAs, Shown, OfCall, Lives, Heard, CallsInv, Forward, LastLine;
    ShownLives(TurnStart(requestId), s.published[..s.seal.count]);
    ShownThen([TurnStart(requestId)] + Lives(s.published[..s.seal.count]), LastLine(requestId, s.task)) by { OneLastLine(requestId, s.task); }
  }

  lemma OneLastLine(requestId: string, task: Task)
    ensures |LastLine(requestId, task)| <= 1 && (LastLine(requestId, task) != [] ==> !LastLine(requestId, task)[0].Live?)
  {
  }

  /** Tool events in the stream, for every interleaving of tool calls, producer and consumer, and every
      call: unless the request id is empty, for which the sink drops every event, the output of a
      stream that has come to its end shows the call's start followed by its one done, with the
      right status, if and only if the call ended before the seal; it shows the start alone if and
      only if the call was still running then; and nothing of it otherwise. A call that ended before
      `run_final` did is always shown in full. */
  lemma ToolEventsPair(requestId: string, acts: seq<Action>, call: nat)
    requires Run(Init(requestId), acts).Some? && Closed(Run(Init(requestId), acts).value)
    ensures var s := Run(Init(requestId), acts).value;
            var shown := OfCall(Shown(s.output), call);
            && (|shown| == 2 <==> requestId != "" && call in s.seal.calls && s.seal.calls[call].Ended?)
            && (|shown| == 1 <==> requestId != "" && call in s.seal.calls && s.seal.calls[call].Started?)
            && shown == Heard(requestId, s.seal.calls, call)
            && (requestId != "" && call in s.mark.calls && s.mark.calls[call].Ended? ==>
                  var id, end := s.mark.calls[call].toolId, s.mark.calls[call].end;
                  shown == [ToolStart(call, id), ToolDone(call, id, if end == Raised then "failed" else "success")])
  {
    ShownIsHeard(requestId, acts, call);
    hide Run, Closed, Shown, OfCall, Init;
  }

  ghost predicate AllShownPaired(lines: seq<Line>) {
    forall c: nat :: |OfCall(Shown(lines), c)| != 1
  }

  ghost predicate NoneRunning(calls: Calls) {
    forall c: nat :: c in calls ==> calls[c].Ended?
  }

  /** Every start in the output has its done if and only if no call was running at the seal (or the
      request id is empty). */
  lemma AllPairedIff(requestId: string, acts: seq<Action>)
    requires Run(Init(requestId), acts).Some? && Closed(Run(Init(requestId), acts).value)
    ensures var s := Run(Init(requestId), acts).value; AllShownPaired(s.output) <==> requestId == "" || NoneRunning(s.seal.calls)
  {
    var s := Run(Init(requestId), acts).value;
    if !AllShownPaired(s.output) {
      var c: nat :| |OfCall(Shown(s.output), c)| == 1;
      ToolEventsPair(requestId, acts, c);
      assert s.seal.calls[c].Started?;
    }
    if c: nat :| requestId != "" && c in s.seal.calls && s.seal.calls[c].Started? {
      ToolEventsPair(requestId, acts, c);
      assert |OfCall(Shown(s.output), c)| == 1;
    }
  }

  /** A call that outlives the producer can lose its done: here it ends after the stream has finished. */
  lemma StragglerLosesDone(requestId: string, id: string)
    requires requestId != ""
    ensures var acts := [Resume, ToolStarts(0, id), TaskEnds(Failed), GetterRuns, Resume, Resume, Resume, Resume, ToolEnds(0, Returned)];
            var s := Run(Init(requestId), acts);
            && s.Some? && s.value.phase == Finished && s.value.calls[0] == Ended(id, Returned)
            && s.value.output == [TurnStart(requestId), Live(ToolStart(0, id)), Final(FailurePayload(requestId))]
  {
    OneDelivered(requestId, ToolStarts(0, id), ToolStart(0, id), map[0 := Started(id)], Failed);
    var i, p := Init(requestId), [Resume, ToolStarts(0, id), TaskEnds(Failed), GetterRuns, Resume, Resume];
    hide Run;
    OneMore(i, p, Resume);
    p := p + [Resume];
    OneMore(i, p, Resume);
    p := p + [Resume];
    OneMore(i, p, ToolEnds(0, Returned));
    p := p + [ToolEnds(0, Returned)];
    assert p == [Resume, ToolStarts(0, id), TaskEnds(Failed), GetterRuns, Resume, Resume, Resume, Resume, ToolEnds(0, Returned)];
  }

  // ── the generator's own loop ─────────────────────────────────────────────

  /** What other coroutines do while the generator is suspended, in a possible order; with `ends` the
      producer ends somewhere among it, unless it has ended already. */
  predicate Playable(moves: seq<Action>, running: bool, calls: Calls, ends: bool) {
    if moves == [] then ends ==> !running
    else match moves[0]
      case Publish(_) => Playable(moves[1..], running, calls, ends)
      case ToolStarts(c, id) => c !in calls && Playable(moves[1..], running, calls[c := Started(id)], ends)
      case ToolEnds(c, end) =>
        c in calls && calls[c].Started? && Playable(moves[1..], running, calls[c := Ended(calls[c].toolId, end)], ends)
      case TaskEnds(t) => running && !t.Running? && Playable(moves[1..], false, calls, ends)
      case _ => false
  }

  /** The moves can be taken one after the other. */
  predicate Possible(s: State, moves: seq<Action>)
    decreases |moves|
  {
    moves == [] || (Enabled(s, moves[0]) && Possible(Do(s, moves[0]), moves[1..]))
  }

  lemma CallKept(s: State, a: Action, call: nat)
    requires Enabled(s, a) && call in s.calls
    ensures call in Do(s, a).calls && Do(s, a).calls[call].toolId == s.calls[call].toolId
  {
  }

  /** One `event_stream` request: the queue, the producer and the lines yielded so far. */
  class Stream {
    const requestId: string
    var queue: seq<Event>
    var task: Task
    var output: seq<Line>
    var closed: bool
    var phase: Phase
    var calls: Calls
    ghost var published: seq<Event>
    ghost var mark: Moment
    ghost var seal: Moment
    ghost var acts: seq<Action>

    ghost function View(): State
      reads this
    {
      State(requestId, phase, queue, task, output, calls, published, mark, seal)
    }

    ghost predicate Valid()
      reads this
    {
      Run(Init(requestId), acts) == Some(View()) && closed == !SinkOpen(View())
    }

    constructor (requestId: string)
      ensures Valid() && this.requestId == requestId && View() == Init(requestId) && acts == []
    {
      this.requestId := requestId;
      queue, task, output, closed := [], Running, [], false;
      phase, calls, published, mark, seal, acts := Opening, map[], [], NEVER, NEVER, [];
    }

    /** `publish`. */
    method Put(event: Event)
      modifies this`queue, this`published
      requires closed == !SinkOpen(View())
      ensures View() == Accept(old(View()), event)
    {
      if requestId != "" && !closed {
        queue := queue + [event];
        published := published + [event];
      }
    }

    method BeginTool(call: nat, toolId: string)
      requires Valid() && call !in calls
      modifies this
      ensures Valid() && View() == Do(old(View()), ToolStarts(call, toolId))
      ensures acts == old(acts) + [ToolStarts(call, toolId)]
    {
      OneMore(Init(requestId), acts, ToolStarts(call, toolId));
      acts := acts + [ToolStarts(call, toolId)];
      Put(ToolStart(call, toolId));
      calls := calls[call := Started(toolId)];
    }

    /** The `except` and `finally` of `publish_tool`. */
    method EndTool(call: nat, toolId: string, end: RunEnd)
      requires Valid() && call in calls && calls[call] == Started(toolId)
      modifies this
      ensures Valid() && View() == Do(old(View()), ToolEnds(call, end))
      ensures acts == old(acts) + [ToolEnds(call, end)]
    {
      OneMore(Init(requestId), acts, ToolEnds(call, end));
      acts := acts + [ToolEnds(call, end)];
      var status := "success";
      if end == Raised {
        status := "failed";
      }
      Put(ToolDone(call, toolId, status));
      calls := calls[call := Ended(toolId, end)];
    }

    /** Some other coroutine runs. */
    method Suspend(m: Action)
      requires Valid() && Enabled(View(), m) && (m.Publish? || m.ToolStarts? || m.ToolEnds? || m.TaskEnds?)
      modifies this
      ensures Valid() && View() == Do(old(View()), m) && acts == old(acts) + [m]
    {
      if m.ToolStarts? {
        BeginTool(m.call, m.toolId);
      } else if m.ToolEnds? {
        EndTool(m.call, calls[m.call].toolId, m.end);
      } else {
        OneMore(Init(requestId), acts, m);
        acts := acts + [m];
        if m.Publish? {
          Put(Other(m.text));
        } else {
          task := m.task;
          mark := Moment(|published|, calls);
        }
      }
    }

    /** `q.get()` hands over the head of the queue. */
    method GetterTakes() returns (event: Event)
      requires Valid() && phase == Waiting(Pending) && queue != []
      modifies this
      ensures Valid() && View() == Do(old(View()), GetterRuns) && phase == Waiting(Got(event)) && acts == old(acts) + [GetterRuns]
    {
      OneMore(Init(requestId), acts, GetterRuns);
      acts := acts + [GetterRuns];
      event := queue[0];
      queue := queue[1..];
      phase := Waiting(Got(event));
    }

    /** The generator yields a line, or moves on without one. */
    method Proceed(lines: seq<Line>, next: Phase, taken: bool)
      requires Valid() && Enabled(View(), Resume) && (taken ==> queue != [])
      requires Do(View(), Resume) == View().(phase := next, output := output + lines, queue := if taken then queue[1..] else queue)
      requires SinkOpen(View().(phase := next))
      modifies this
      ensures Valid() && View() == Do(old(View()), Resume) && phase == next && acts == old(acts) + [Resume]
    {
      OneMore(Init(requestId), acts, Resume);
      acts := acts + [Resume];
      output := output + lines;
      if taken {
        queue := queue[1..];
      }
      phase := next;
    }

    /** `task.result()` and the last `yield`. A CancelledError goes past the handler, so there is no line
        and the `finally` closes the sink at once. */
    method LastLook()
      requires Valid() && phase == Draining && queue == [] && !task.Running?
      modifies this
      ensures Valid() && View() == Do(old(View()), Resume) && acts == old(acts) + [Resume]
      ensures task.Succeeded? ==> output == old(output) + [Final(task.payload)]
      ensures task == Failed ==> output == old(output) + [Final("stream failed (request_id=" + requestId + ")")]
      ensures task == Stopped ==> output == old(output) && closed
    {
      OneMore(Init(requestId), acts, Resume);
      acts, seal := acts + [Resume], Moment(|published|, calls);
      if task == Stopped {
        closed, phase := true, Broken;
        assert output + [] == output;
      } else {
        output := output + [Final(if task.Succeeded? then task.payload else FailurePayload(requestId))];
        phase := LastYield;
      }
    }

    /** Past the last `yield`: the `finally` closes the sink. */
    method Finish()
      requires Valid() && phase == LastYield
      modifies this
      ensures Valid() && View() == Do(old(View()), Resume) && acts == old(acts) + [Resume]
    {
      OneMore(Init(requestId), acts, Resume);
      acts, closed, phase := acts + [Resume], true, Finished;
    }

    /** The end of the `try` block and the `finally`. */
    method Conclude(moves: seq<Action>)
      requires Valid() && phase == Draining && queue == [] && !task.Running? && Playable(moves, false, calls, true)
      modifies this
      ensures Valid() && Closed(View()) && (phase == Finished <==> task != Stopped) && EndsAs(requestId, task, output)
    {
      hide Run, Playable;
      LastLook();
      if phase == LastYield {
        var rest := OthersMove(moves);
        Finish();
      }
      StreamOrder(requestId, acts);
    }

    /** The generator takes its next step, wherever it stands. */
    method Advance()
      requires Valid() && Enabled(View(), Resume)
      modifies this
      ensures Valid() && View() == Do(old(View()), Resume) && acts == old(acts) + [Resume]
    {
      RunKeepsInv(Init(requestId), acts);
      hide Run;
      match phase
      case Opening => Proceed([TurnStart(requestId)], Waiting(Pending), false);
      case Waiting(Got(e)) => Proceed([Live(e)], Waiting(Pending), false);
      case Waiting(Pending) =>
        assert output + [] == output;
        Proceed([], Draining, false);
      case Draining =>
        if queue != [] {
          Proceed([Live(queue[0])], Draining, true);
        } else {
          LastLook();
        }
      case LastYield => Finish();
    }

    /** Any step of the protocol. */
    method Take(m: Action)
      requires Valid() && Enabled(View(), m)
      modifies this
      ensures Valid() && View() == Do(old(View()), m) && acts == old(acts) + [m]
    {
      hide Run;
      if m == Resume {
        Advance();
      } else if m == GetterRuns {
        var event := GetterTakes();
      } else if m == Close {
        OneMore(Init(requestId), acts, Close);
        acts, closed, phase := acts + [Close], true, Abandoned;
      } else {
        Suspend(m);
      }
    }

    /** `publish_tool`: whatever is possible meanwhile, of other coroutines, the producer, the generator
        and its client, lies between its two steps, and the second one is taken however the run ends. */
    method PublishTool(call: nat, toolId: string, during: seq<Action>, end: RunEnd)
      requires Valid() && call !in calls
      requires Possible(Do(View(), ToolStarts(call, toolId)), during + [ToolEnds(call, end)])
      modifies this
      ensures Valid() && acts == old(acts) + [ToolStarts(call, toolId)] + during + [ToolEnds(call, end)]
      ensures call in calls && calls[call] == Ended(toolId, end)
    {
      hide Run, Accept;
      assert call in Do(View(), ToolStarts(call, toolId)).calls && Do(View(), ToolStarts(call, toolId)).calls[call] == Started(toolId);
      hide Do;
      BeginTool(call, toolId);
      var rest := during;
      ghost var start := acts;
      assert start + rest == start + during;
      while rest != []
        invariant Valid() && acts + rest == start + during && Possible(View(), rest + [ToolEnds(call, end)])
        invariant call in calls && calls[call].toolId == toolId
      {
        assert (rest + [ToolEnds(call, end)])[1..] == rest[1..] + [ToolEnds(call, end)];
        assert acts + [rest[0]] + rest[1..] == acts + rest;
        CallKept(View(), rest[0], call);
        Take(rest[0]);
        rest := rest[1..];
      }
      assert rest + [ToolEnds(call, end)] == [ToolEnds(call, end)] && acts + rest == acts;
      assert Enabled(View(), ToolEnds(call, end));
      EndTool(call, toolId, end);
    }

    /** One suspension: the next move of others, if there is one. */
    method OthersMove(moves: seq<Action>) returns (rest: seq<Action>)
      requires Valid() && SinkOpen(View()) && Playable(moves, task.Running?, calls, true)
      modifies this
      ensures Valid() && phase == old(phase) && Playable(rest, task.Running?, calls, true)
      ensures !old(task).Running? ==> task == old(task)
      ensures rest == (if moves == [] then [] else moves[1..]) && (moves == [] ==> View() == old(View()))
    {
      if moves == [] {
        return [];
      }
      Suspend(moves[0]);
      return moves[1..];
    }

    /** Moves of others until the pending getter or the producer can complete. */
    method AwaitFirst(moves: seq<Action>) returns (rest: seq<Action>)
      requires Valid() && phase == Waiting(Pending) && Playable(moves, task.Running?, calls, true)
      modifies this
      ensures Valid() && phase == Waiting(Pending) && Playable(rest, task.Running?, calls, true)
      ensures |rest| <= |moves| && (queue != [] || !task.Running?)
      ensures |rest| == |moves| ==> queue == old(queue)
    {
      rest := moves;
      while queue == [] && task.Running?
        invariant Valid() && phase == Waiting(Pending) && Playable(rest, task.Running?, calls, true)
        invariant |rest| <= |moves| && (|rest| == |moves| ==> queue == old(queue))
        decreases |rest|
      {
        rest := OthersMove(rest);
      }
    }

    /** `event_stream`: `moves` is what happens elsewhere, one move at each suspension point while
        there are any left; the producer ends somewhere among them. The loop is a run of the protocol
        and comes to an end, by its last line or by the exception of a cancelled producer. */
    method Produce(moves: seq<Action>)
      requires Valid() && View() == Init(requestId) && Playable(moves, true, map[], true)
      modifies this
      ensures Valid() && Closed(View()) && (phase == Finished <==> task != Stopped) && EndsAs(requestId, task, output)
    {
      hide Run, EndsAs;
      Proceed([TurnStart(requestId)], Waiting(Pending), false);
      var rest := OthersMove(moves);
      while true
        invariant Valid() && phase == Waiting(Pending) && Playable(rest, task.Running?, calls, true)
        decreases |rest|, |queue|
      {
        rest := AwaitFirst(rest);
        if queue == [] {
          Proceed([], Draining, false);
          break;
        }
        var event := GetterTakes();
        Proceed([Live(event)], Waiting(Pending), false);
        rest := OthersMove(rest);
      }
      rest := Drain(rest);
      Conclude(rest);
    }

    /** `while not q.empty(): yield ..` */
    method Drain(moves: seq<Action>) returns (rest: seq<Action>)
      requires Valid() && phase == Draining && !task.Running? && Playable(moves, false, calls, true)
      modifies this
      ensures Valid() && phase == Draining && !task.Running? && queue == [] && Playable(rest, false, calls, true)
    {
      rest := moves;
      while queue != []
        invariant Valid() && phase == Draining && !task.Running? && Playable(rest, false, calls, true)
        decreases |rest|, |queue|
      {
        Proceed([Live(queue[0])], Draining, true);
        rest := OthersMove(rest);
      }
    }
  }
}
