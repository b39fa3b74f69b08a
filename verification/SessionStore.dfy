/** The session store of src/oneops/adapters/session_store.py: three keyspaces changed by server-side
    scripts, each of them one atomic step, so that any interleaving of clients is a sequence of steps. */
module SessionStore {
  import Decimal

  /** A JSON value as a script sees it after decoding. */
  datatype Value = Null | Number(n: int) | Text(s: string) | Doc(json: string)

  type Fields = map<string, Value>

  datatype Item = Item(role: string, content: string)

  const PENDING: string := "pending_clarification"
  const TURN_INDEX: string := "turn_index"

  datatype Store = Store(history: map<string, seq<Item>>, focus: map<string, Fields>, canonical: map<string, Fields>)

  datatype Op =
    | AppendHistory(sid: string, item: Item)
    | UpdateFocus(sid: string, updates: Fields)
    | SetFocus(sid: string, fields: Fields)
    | ClearPending(sid: string)
    | UpdateCanonical(sid: string, updates: Fields)
    | IncrementTurn(sid: string)
    | Purge(sid: string)

  // ── one step ─────────────────────────────────────────────────────────────

  function Lookup(table: map<string, Fields>, sid: string): Fields {
    if sid in table then table[sid] else map[]
  }

  function HistoryOf(s: Store, sid: string): seq<Item> {
    if sid in s.history then s.history[sid] else []
  }

  /** The last `limit` elements; no limit when it is not positive. */
  function Last<T>(xs: seq<T>, limit: int): seq<T> {
    if 0 < limit < |xs| then xs[|xs| - limit..] else xs
  }

  /** `tonumber(x) or 0`, with a missing field as nil. */
  function NumberIn(fields: Fields, key: string): int {
    if key !in fields then 0
    else
      match fields[key]
      case Number(n) => n
      case Text(s) => if s != "" && Decimal.AllDigits(s) then Decimal.Value(s) else 0
      case _ => 0
  }

  function Merge(table: map<string, Fields>, sid: string, updates: Fields): map<string, Fields> {
    table[sid := Lookup(table, sid) + updates]
  }

  function Do(s: Store, limit: int, op: Op): Store {
    match op
    case AppendHistory(sid, item) => s.(history := s.history[sid := Last(HistoryOf(s, sid) + [item], limit)])
    case UpdateFocus(sid, updates) => if updates == map[] then s else s.(focus := Merge(s.focus, sid, updates))
    case SetFocus(sid, fields) => s.(focus := s.focus[sid := fields])
    case ClearPending(sid) => s.(focus := Merge(s.focus, sid, map[PENDING := Null]))
    case UpdateCanonical(sid, updates) =>
      if updates == map[] then s else s.(canonical := Merge(s.canonical, sid, updates))
    case IncrementTurn(sid) =>
      var turn := NumberIn(Lookup(s.canonical, sid), TURN_INDEX) + 1;
      s.(canonical := Merge(s.canonical, sid, map[TURN_INDEX := Number(turn)]))
    case Purge(sid) => Store(s.history - {sid}, s.focus - {sid}, s.canonical - {sid})
  }

  function Run(limit: int, ops: seq<Op>): Store {
    if ops == [] then Store(map[], map[], map[]) else Do(Run(limit, ops[..|ops| - 1]), limit, ops[|ops| - 1])
  }

  // ── the scripts ──────────────────────────────────────────────────────────

  class SessionStore {
    var history: map<string, seq<Item>>
    var focus: map<string, Fields>
    var canonical: map<string, Fields>
    const maxHistory: int

    constructor (maxHistory: int)
      ensures View() == Store(map[], map[], map[]) && this.maxHistory == maxHistory
    {
      history, focus, canonical := map[], map[], map[];
      this.maxHistory := maxHistory;
    }

    ghost function View(): Store
      reads this
    {
      Store(history, focus, canonical)
    }

    /** The append script, with its trimming loop. */
    method Append(sid: string, item: Item) returns (length: nat)
      modifies this
      ensures View() == Do(old(View()), maxHistory, Op.AppendHistory(sid, item))
      ensures length == |HistoryOf(View(), sid)|
    {
      var current := if sid in history then history[sid] else [];
      current := current + [item];
      ghost var appended := current;
      if maxHistory > 0 && |current| > maxHistory {
        var excess := |current| - maxHistory;
        for i := 0 to excess
          invariant current == appended[i..]
        {
          current := current[1..];
        }
      }
      history := history[sid := current];
      length := |current|;
    }

    method MergeFocus(sid: string, updates: Fields)
      modifies this
      ensures View() == Do(old(View()), maxHistory, Op.UpdateFocus(sid, updates))
    {
      if updates == map[] {
        return;
      }
      var merged := MergeScript(if sid in focus then focus[sid] else map[], updates);
      focus := focus[sid := merged];
    }

    method ReplaceFocus(sid: string, fields: Fields)
      modifies this
      ensures View() == Do(old(View()), maxHistory, Op.SetFocus(sid, fields))
    {
      focus := focus[sid := fields];
    }

    method ClearPendingClarification(sid: string)
      modifies this
      ensures View() == Do(old(View()), maxHistory, Op.ClearPending(sid))
    {
      var merged := MergeScript(if sid in focus then focus[sid] else map[], map[PENDING := Null]);
      focus := focus[sid := merged];
    }

    method MergeCanonical(sid: string, updates: Fields)
      modifies this
      ensures View() == Do(old(View()), maxHistory, Op.UpdateCanonical(sid, updates))
    {
      if updates == map[] {
        return;
      }
      var merged := MergeScript(if sid in canonical then canonical[sid] else map[], updates);
      canonical := canonical[sid := merged];
    }

    method Increment(sid: string) returns (turn: int)
      modifies this
      ensures View() == Do(old(View()), maxHistory, Op.IncrementTurn(sid))
      ensures turn == NumberIn(Lookup(canonical, sid), TURN_INDEX)
    {
      var current := if sid in canonical then canonical[sid] else map[];
      turn := NumberIn(current, TURN_INDEX) + 1;
      assert current + map[TURN_INDEX := Number(turn)] == current[TURN_INDEX := Number(turn)];
      canonical := canonical[sid := current[TURN_INDEX := Number(turn)]];
    }

    method PurgeSession(sid: string)
      modifies this
      ensures View() == Do(old(View()), maxHistory, Op.Purge(sid))
    {
      history, focus, canonical := history - {sid}, focus - {sid}, canonical - {sid};
    }
  }

  /** The merge script: `for k, v in pairs(updates)`, in no particular order. */
  method MergeScript(current: Fields, updates: Fields) returns (merged: Fields)
    ensures merged == current + updates
  {
    merged := current;
    var keys := updates.Keys;
    while keys != {}
      invariant keys <= updates.Keys
      invariant merged.Keys == current.Keys + (updates.Keys - keys)
      invariant forall k :: k in merged ==>
                  merged[k] == if k in updates && k !in keys then updates[k] else current[k]
      decreases |keys|
    {
      var k :| k in keys;
      merged := merged[k := updates[k]];
      keys := keys - {k};
    }
  }

  // ── no append is lost, and only the oldest are trimmed ───────────────────

  /** The items appended to one session since it was last purged, by whatever client. */
  function Appended(ops: seq<Op>, sid: string): seq<Item> {
    if ops == [] then []
    else
      var before, op := Appended(ops[..|ops| - 1], sid), ops[|ops| - 1];
      if op.sid != sid then before
      else if op.AppendHistory? then before + [op.item]
      else if op.Purge? then []
      else before
  }

  /** Trimming after every append is trimming once at the end. */
  lemma TrimOnce<T>(xs: seq<T>, x: T, limit: int)
    ensures Last(Last(xs, limit) + [x], limit) == Last(xs + [x], limit)
  {
  }

  lemma {:induction false} HistoryIsLast(limit: int, ops: seq<Op>, sid: string)
    ensures HistoryOf(Run(limit, ops), sid) == Last(Appended(ops, sid), limit)
  {
    if ops != [] {
      var front, op := ops[..|ops| - 1], ops[|ops| - 1];
      HistoryIsLast(limit, front, sid);
      if op.sid == sid && op.AppendHistory? {
        TrimOnce(Appended(front, sid), op.item, limit);
      }
    }
  }

  /** In every interleaving the history is the last `max_history` of the session's appended items, in order. */
  lemma HistoryIsTail(limit: int, ops: seq<Op>, sid: string)
    ensures var all := Appended(ops, sid);
            HistoryOf(Run(limit, ops), sid) == if 0 < limit < |all| then all[|all| - limit..] else all
  {
    HistoryIsLast(limit, ops, sid);
  }

  // ── no focus update is lost ──────────────────────────────────────────────

  /** The step decides the session's focus field `key`. */
  predicate Decides(op: Op, sid: string, key: string) {
    op.sid == sid &&
    match op
    case UpdateFocus(_, updates) => key in updates
    case ClearPending(_) => key == PENDING
    case SetFocus(_, _) => true
    case Purge(_) => true
    case _ => false
  }

  /** The fields a step leaves in the focus, of those it decides. */
  function Written(op: Op): Fields {
    match op
    case UpdateFocus(_, updates) => updates
    case ClearPending(_) => map[PENDING := Null]
    case SetFocus(_, fields) => fields
    case _ => map[]
  }

  /** Step `i` was the last to decide the field. */
  ghost predicate LastDecision(ops: seq<Op>, sid: string, key: string, i: int) {
    0 <= i < |ops| && Decides(ops[i], sid, key) && forall j :: i < j < |ops| ==> !Decides(ops[j], sid, key)
  }

  lemma FocusStep(s: Store, limit: int, op: Op, sid: string, key: string)
    ensures var before, after := Lookup(s.focus, sid), Lookup(Do(s, limit, op).focus, sid);
            if Decides(op, sid, key)
            then (key in after <==> key in Written(op)) && (key in after ==> after[key] == Written(op)[key])
            else (key in after <==> key in before) && (key in after ==> after[key] == before[key])
  {
  }

  lemma {:induction false} FocusAfter(limit: int, ops: seq<Op>, sid: string, key: string) returns (i: int)
    ensures i < 0 ==> key !in Lookup(Run(limit, ops).focus, sid) && forall j :: 0 <= j < |ops| ==> !Decides(ops[j], sid, key)
    ensures i >= 0 ==>
              && LastDecision(ops, sid, key, i)
              && (key in Lookup(Run(limit, ops).focus, sid) <==> key in Written(ops[i]))
              && (key in Written(ops[i]) ==> Lookup(Run(limit, ops).focus, sid)[key] == Written(ops[i])[key])
  {
    if ops == [] {
      i := -1;
    } else {
      var front, op := ops[..|ops| - 1], ops[|ops| - 1];
      FocusStep(Run(limit, front), limit, op, sid, key);
      hide Do, Lookup, Decides, Written;
      assert forall j :: 0 <= j < |front| ==> ops[j] == front[j];
      if Decides(op, sid, key) {
        i := |ops| - 1;
      } else {
        i := FocusAfter(limit, front, sid, key);
      }
    }
  }

  /** No update is lost: in every interleaving a focus field holds a value exactly when the last step
      that decided the field wrote that value. */
  lemma FocusHoldsLastWrite(limit: int, ops: seq<Op>, sid: string, key: string, v: Value)
    ensures var fields := Lookup(Run(limit, ops).focus, sid);
            (key in fields && fields[key] == v) <==>
            exists i :: LastDecision(ops, sid, key, i) && key in Written(ops[i]) && Written(ops[i])[key] == v
  {
    var i := FocusAfter(limit, ops, sid, key);
    assert forall j :: LastDecision(ops, sid, key, j) ==> i == j;
  }

  // ── the turn counter ─────────────────────────────────────────────────────

  /** The step sets the session's counter other than by incrementing it. */
  predicate Resets(op: Op, sid: string) {
    op.sid == sid && (op.Purge? || (op.UpdateCanonical? && TURN_INDEX in op.updates))
  }

  predicate Increments(op: Op, sid: string) {
    op == Op.IncrementTurn(sid)
  }

  function CountIncrements(ops: seq<Op>, sid: string): nat {
    if ops == [] then 0
    else CountIncrements(ops[..|ops| - 1], sid) + if Increments(ops[|ops| - 1], sid) then 1 else 0
  }

  function Turn(limit: int, ops: seq<Op>, sid: string): int {
    NumberIn(Lookup(Run(limit, ops).canonical, sid), TURN_INDEX)
  }

  lemma CounterStep(s: Store, limit: int, op: Op, sid: string)
    requires !Resets(op, sid)
    ensures NumberIn(Lookup(Do(s, limit, op).canonical, sid), TURN_INDEX) ==
            NumberIn(Lookup(s.canonical, sid), TURN_INDEX) + if Increments(op, sid) then 1 else 0
  {
  }

  /** Over any stretch of steps that does not reset the counter, it grows by the increments made there. */
  lemma {:induction false} TurnCounts(limit: int, before: seq<Op>, ops: seq<Op>, sid: string)
    requires forall j :: 0 <= j < |ops| ==> !Resets(ops[j], sid)
    ensures Turn(limit, before + ops, sid) == Turn(limit, before, sid) + CountIncrements(ops, sid)
  {
    if ops == [] {
      assert before + ops == before;
    } else {
      var front, op := ops[..|ops| - 1], ops[|ops| - 1];
      TurnCounts(limit, before, front, sid);
      CounterStep(Run(limit, before + front), limit, op, sid);
      hide Do, Lookup, NumberIn;
      assert (before + ops)[..|before + ops| - 1] == before + front;
    }
  }

  /** The replies of the session's increments, in order. */
  function Replies(limit: int, ops: seq<Op>, sid: string): seq<int> {
    if ops == [] then []
    else Replies(limit, ops[..|ops| - 1], sid) + if Increments(ops[|ops| - 1], sid) then [Turn(limit, ops, sid)] else []
  }

  /** n increments, from whatever clients, are answered 1, 2, ..., n while nothing else writes the counter. */
  lemma {:induction false} IncrementsAreOneToN(limit: int, ops: seq<Op>, sid: string)
    requires forall j :: 0 <= j < |ops| ==> !Resets(ops[j], sid)
    ensures Replies(limit, ops, sid) == seq(CountIncrements(ops, sid), k => k + 1)
  {
    if ops != [] {
      IncrementsAreOneToN(limit, ops[..|ops| - 1], sid);
      TurnCounts(limit, [], ops, sid);
      assert [] + ops == ops;
    }
  }

  /** The guard is needed: a client that merges its stale copy of the counter makes a turn index repeat. */
  lemma StaleMergeRepeatsTurn(sid: string)
    ensures var stale := Op.UpdateCanonical(sid, map[TURN_INDEX := Number(0)]);
            Replies(50, [Op.IncrementTurn(sid), stale, Op.IncrementTurn(sid)], sid) == [1, 1]
  {
    var one, stale := Op.IncrementTurn(sid), Op.UpdateCanonical(sid, map[TURN_INDEX := Number(0)]);
    var ops := [one, stale, one];
    assert ops[..2] == [one, stale] && [one, stale][..1] == [one] && [one][..0] == [];
    assert Turn(50, [], sid) == 0 && Turn(50, [one], sid) == 1;
    assert Turn(50, [one, stale], sid) == 0 && Turn(50, ops, sid) == 1;
    assert Replies(50, [], sid) == [] && Replies(50, [one], sid) == [1] && Replies(50, [one, stale], sid) == [1];
  }

  /** Sessions are independent: what others do does not change a session's history, focus or counter. */
  lemma OtherSessions(s: Store, limit: int, op: Op, sid: string)
    requires op.sid != sid
    ensures var t := Do(s, limit, op);
            HistoryOf(t, sid) == HistoryOf(s, sid) && Lookup(t.focus, sid) == Lookup(s.focus, sid)
            && Lookup(t.canonical, sid) == Lookup(s.canonical, sid)
  {
  }

  // ── the canonical state ──────────────────────────────────────────────────

  /** The step decides the field of the session's canonical state, other than by counting a turn. */
  predicate DecidesCanonical(op: Op, sid: string, key: string) {
    op.sid == sid && (op.Purge? || (op.UpdateCanonical? && key in op.updates))
  }

  lemma CanonicalStep(s: Store, limit: int, op: Op, sid: string, key: string)
    requires key != TURN_INDEX
    ensures var before, after := Lookup(s.canonical, sid), Lookup(Do(s, limit, op).canonical, sid);
            if DecidesCanonical(op, sid, key)
            then (key in after <==> op.UpdateCanonical?) && (key in after ==> after[key] == op.updates[key])
            else (key in after <==> key in before) && (key in after ==> after[key] == before[key])
  {
  }

  /** No update of the canonical state is lost: in every interleaving a field other than the turn counter
      holds a value exactly when the last update of that field since the last purge wrote that value. */
  lemma {:induction false} CanonicalHoldsLastWrite(limit: int, ops: seq<Op>, sid: string, key: string) returns (i: int)
    requires key != TURN_INDEX
    ensures -1 <= i < |ops| && (i >= 0 ==> DecidesCanonical(ops[i], sid, key))
    ensures forall j :: i < j < |ops| ==> !DecidesCanonical(ops[j], sid, key)
    ensures var fields := Lookup(Run(limit, ops).canonical, sid);
            && (key in fields <==> i >= 0 && ops[i].UpdateCanonical?)
            && (key in fields ==> fields[key] == ops[i].updates[key])
  {
    if ops == [] {
      i := -1;
    } else {
      var front, op := ops[..|ops| - 1], ops[|ops| - 1];
      CanonicalStep(Run(limit, front), limit, op, sid, key);
      hide Do, Lookup, DecidesCanonical;
      assert forall j :: 0 <= j < |front| ==> ops[j] == front[j];
      i := CanonicalHoldsLastWrite(limit, front, sid, key);
      if DecidesCanonical(op, sid, key) {
        i := |ops| - 1;
      }
    }
  }

  /** A purged session is as new. */
  lemma PurgeForgets(s: Store, limit: int, sid: string)
    ensures var t := Do(s, limit, Op.Purge(sid));
            && sid !in t.history && sid !in t.focus && sid !in t.canonical
            && HistoryOf(t, sid) == [] && NumberIn(Lookup(t.canonical, sid), TURN_INDEX) == 0
  {
  }

  /** A counter stored as the decimal text of a number counts on from that number. */
  lemma TextCounterCounts(s: Store, limit: int, sid: string, n: nat)
    requires TURN_INDEX in Lookup(s.canonical, sid) && Lookup(s.canonical, sid)[TURN_INDEX] == Text(Decimal.Text(n))
    ensures NumberIn(Lookup(Do(s, limit, Op.IncrementTurn(sid)).canonical, sid), TURN_INDEX) == n + 1
  {
    Decimal.TextRoundTrip(n);
    CounterStep(s, limit, Op.IncrementTurn(sid), sid);
  }
}
