/** The knowledge-base index synchroniser: trigger, at-least-once queue and worker
    (database/kb/02_embeddings.sql, database/_lib/_worker_base.py, database/kb/worker.py). */
module KbIndexSync {
  import opened Text
  import opened VectorIndex
  import opened KbChunker
  import opened Wrappers

  /** A row of itsm.kb_knowledge; NULL fields read as empty. */
  datatype KbRow = KbRow(title: string, summary: string, content: string, category: string, tags: seq<string>)

  function NonEmpty(parts: seq<string>): seq<string> {
    if parts == [] then [] else (if parts[0] != "" then [parts[0]] else []) + NonEmpty(parts[1..])
  }

  function Field(tag: string, value: string): seq<string> {
    if value != "" then [tag + value] else []
  }

  function AnchorText(row: KbRow): string {
    Join("\n", Field("Title: ", row.title) + Field("Summary: ", row.summary) + Field("Category: ", row.category)
               + Field("Tags: ", Join(", ", NonEmpty(row.tags))))
  }

  /** The text whose digest is the column content_hash_kb; the trigger enqueues when it changes. */
  function Doorbell(row: KbRow): string {
    "Title: " + row.title + "\nSummary: " + row.summary + "\nCategory: " + row.category + "\nContent: " + row.content
  }

  /** The text consists of these lines. */
  ghost predicate HasLine(text: string, line: string) {
    exists lines: seq<string> :: line in lines && text == Join("\n", lines)
  }

  lemma LineOf(text: string, lines: seq<string>, line: string)
    requires text == Join("\n", lines) && line in lines
    ensures HasLine(text, line)
  {
  }

  /** Every field the anchor is built from is in it under its label, and the content is not. */
  lemma AnchorShowsFields(row: KbRow, content: string)
    ensures row.title != "" ==> HasLine(AnchorText(row), "Title: " + row.title)
    ensures row.summary != "" ==> HasLine(AnchorText(row), "Summary: " + row.summary)
    ensures row.category != "" ==> HasLine(AnchorText(row), "Category: " + row.category)
    ensures forall g :: row.tags == [g] && g != "" ==> HasLine(AnchorText(row), "Tags: " + g)
    ensures AnchorText(row.(content := content)) == AnchorText(row)
  {
    var a, b, c := Field("Title: ", row.title), Field("Summary: ", row.summary), Field("Category: ", row.category);
    var d := Field("Tags: ", Join(", ", NonEmpty(row.tags)));
    var lines := a + b + c + d;
    assert AnchorText(row) == Join("\n", lines);
    assert forall l :: l in a || l in b || l in c || l in d ==> l in lines;
    hide Join, HasLine, AnchorText;
    if row.title != "" {
      assert a == ["Title: " + row.title];
      LineOf(AnchorText(row), lines, a[0]);
    }
    if row.summary != "" {
      assert b == ["Summary: " + row.summary];
      LineOf(AnchorText(row), lines, b[0]);
    }
    if row.category != "" {
      assert c == ["Category: " + row.category];
      LineOf(AnchorText(row), lines, c[0]);
    }
    if |row.tags| == 1 && row.tags[0] != "" {
      OneTag(row.tags);
      assert d == ["Tags: " + row.tags[0]];
      LineOf(AnchorText(row), lines, d[0]);
    }
  }

  lemma OneTag(tags: seq<string>)
    requires |tags| == 1 && tags[0] != ""
    ensures Join(", ", NonEmpty(tags)) == tags[0]
  {
    assert NonEmpty(tags) == tags;
  }

  /** The whole anchor text of an article that has every field. */
  lemma AnchorOfFullRow(row: KbRow, g: string, h: string)
    requires row.title != "" && row.summary != "" && row.category != "" && row.tags == [g, "", h] && g != "" && h != ""
    ensures AnchorText(row) == "Title: " + row.title + "\n" + ("Summary: " + row.summary + "\n" + ("Category: " + row.category + "\n" + ("Tags: " + (g + ", " + h))))
  {
    var t, u, v := "Title: " + row.title, "Summary: " + row.summary, "Category: " + row.category;
    assert row.tags[1..] == ["", h] && ["", h][1..] == [h] && [h][1..] == [];
    assert NonEmpty([h]) == [h] && NonEmpty(["", h]) == [h];
    assert NonEmpty(row.tags) == [g, h] && [g, h][1..] == [h];
    var w := "Tags: " + (g + ", " + h);
    assert Join(", ", [g, h]) == g + ", " + h;
    assert Field("Title: ", row.title) + Field("Summary: ", row.summary) + Field("Category: ", row.category) + Field("Tags: ", g + ", " + h)
        == [t, u, v, w];
    JoinFour(t, u, v, w);
  }

  lemma JoinFour(t: string, u: string, v: string, w: string)
    ensures Join("\n", [t, u, v, w]) == t + "\n" + (u + "\n" + (v + "\n" + w))
  {
    assert [t, u, v, w][1..] == [u, v, w] && [u, v, w][1..] == [v, w] && [v, w][1..] == [w];
    assert Join("\n", [v, w]) == v + "\n" + w;
    assert Join("\n", [u, v, w]) == u + "\n" + (v + "\n" + w);
  }

  // ── one worker pass over one row ─────────────────────────────────────────

  function AnchorWrites(embed: string -> Vector, e: Entity, row: KbRow): seq<Write> {
    if Strip(AnchorText(row)) != "" then [Upsert(RowKey(e, Anchor, 0), NewRow(embed, AnchorText(row), ""))] else []
  }

  function BodyWrites(embed: string -> Vector, e: Entity, chunks: seq<string>): seq<Write> {
    seq(|chunks| + 1, i requires 0 <= i <= |chunks| =>
      if i < |chunks| then Upsert(RowKey(e, Body, i), NewRow(embed, chunks[i], "")) else Prune(e, Body, |chunks| - 1))
  }

  function KbPlan(embed: string -> Vector, e: Entity, row: KbRow): seq<Write> {
    AnchorWrites(embed, e, row) + BodyWrites(embed, e, BodyChunks(row.content))
  }

  lemma PlanAt(embed: string -> Vector, e: Entity, row: KbRow, i: nat)
    requires i < |KbPlan(embed, e, row)|
    ensures var a, n := |AnchorWrites(embed, e, row)|, |BodyChunks(row.content)|;
            && |KbPlan(embed, e, row)| == a + n + 1
            && KbPlan(embed, e, row)[i] ==
               if i < a then Upsert(RowKey(e, Anchor, 0), NewRow(embed, AnchorText(row), ""))
               else if i < a + n then Upsert(RowKey(e, Body, i - a), NewRow(embed, BodyChunks(row.content)[i - a], ""))
               else Prune(e, Body, n - 1)
  {
    hide BodyChunks, AnchorText, Strip;
  }

  /** From statement `from` on, the plan upserts the chunks one by one and then prunes. */
  ghost predicate BodyAt(embed: string -> Vector, e: Entity, chunks: seq<string>, plan: seq<Write>, from: nat, i: nat) {
    && i <= |chunks| && from + i < |plan|
    && plan[from + i] ==
       if i < |chunks| then Upsert(RowKey(e, Body, i), NewRow(embed, chunks[i], "")) else Prune(e, Body, |chunks| - 1)
  }

  ghost predicate BodyFrom(embed: string -> Vector, e: Entity, chunks: seq<string>, plan: seq<Write>, from: nat) {
    |plan| == from + |chunks| + 1 && forall i: nat :: i <= |chunks| ==> BodyAt(embed, e, chunks, plan, from, i)
  }

  lemma PlanTail(embed: string -> Vector, e: Entity, row: KbRow)
    ensures BodyFrom(embed, e, BodyChunks(row.content), KbPlan(embed, e, row), |AnchorWrites(embed, e, row)|)
  {
    var plan, from, chunks := KbPlan(embed, e, row), |AnchorWrites(embed, e, row)|, BodyChunks(row.content);
    var body := BodyWrites(embed, e, chunks);
    assert plan == AnchorWrites(embed, e, row) + body;
    hide KbPlan, AnchorWrites, BodyChunks;
    forall i: nat | i <= |chunks| ensures BodyAt(embed, e, chunks, plan, from, i) {
      assert plan[from + i] == body[i];
    }
  }

  /** The body chunks of `process`: upserts from statement `from` on, then the prune. */
  method WriteBody(embed: string -> Vector, table: VectorTable, e: Entity, bodyChunks: seq<string>, failAt: nat,
                   from: nat, ghost rows: Rows, ghost plan: seq<Write>) returns (ok: bool)
    requires BodyFrom(embed, e, bodyChunks, plan, from) && from <= failAt && table.rows == ApplyAll(rows, plan[..from])
    modifies table
    ensures ok == (failAt >= |plan|)
    ensures table.rows == ApplyAll(rows, plan[..Min(failAt, |plan|)])
  {
    hide ApplyAll, Apply;
    var maxBodyIdx := -1;
    for i := 0 to |bodyChunks|
      invariant maxBodyIdx == i - 1 && from + i <= failAt
      invariant table.rows == ApplyAll(rows, plan[..from + i])
    {
      if from + i == failAt {
        return false;
      }
      assert BodyAt(embed, e, bodyChunks, plan, from, i);
      ExtendRun(rows, plan, from + i);
      table.UpsertRow(RowKey(e, Body, i), NewRow(embed, bodyChunks[i], ""));
      maxBodyIdx := i;
    }
    if from + |bodyChunks| == failAt {
      return false;
    }
    assert BodyAt(embed, e, bodyChunks, plan, from, |bodyChunks|);
    ExtendRun(rows, plan, from + |bodyChunks|);
    table.DeleteAbove(e, Body, maxBodyIdx);
    assert plan[..|plan|] == plan[..from + |bodyChunks| + 1];
    return true;
  }

  /** `process` on a row that is present; statement number `failAt`, if there is one, raises. */
  method Process(embed: string -> Vector, table: VectorTable, e: Entity, row: KbRow, failAt: nat) returns (ok: bool)
    modifies table
    ensures ok == (failAt >= |KbPlan(embed, e, row)|)
    ensures table.rows == ApplyAll(old(table.rows), KbPlan(embed, e, row)[..Min(failAt, |KbPlan(embed, e, row)|)])
  {
    ghost var plan := KbPlan(embed, e, row);
    var anchor := AnchorText(row);
    var bodyChunks := SplitBody(row.content);
    assert |AnchorWrites(embed, e, row)| == if Strip(anchor) != "" then 1 else 0;
    assert plan[..0] == [] && ApplyAll(table.rows, []) == table.rows;
    hide BodyChunks, AnchorText, Strip, KbPlan, AnchorWrites, ApplyAll, Apply, NewRow;
    PlanTail(embed, e, row);
    assert |plan| == |AnchorWrites(embed, e, row)| + |bodyChunks| + 1;
    hide BodyFrom;
    var done := 0;
    if Strip(anchor) != "" {
      if failAt == 0 {
        return false;
      }
      PlanAt(embed, e, row, 0);
      ExtendRun(table.rows, plan, 0);
      table.UpsertRow(RowKey(e, Anchor, 0), NewRow(embed, anchor, ""));
      done := 1;
    }
    ok := WriteBody(embed, table, e, bodyChunks, failAt, done, old(table.rows), plan);
  }

  lemma KbPlanFits(embed: string -> Vector, e: Entity, row: KbRow)
    ensures GenuinePlan(embed, KbPlan(embed, e, row)) && Compatible(KbPlan(embed, e, row))
    ensures forall i :: 0 <= i < |KbPlan(embed, e, row)| ==> Touches(KbPlan(embed, e, row)[i], e)
  {
    var plan := KbPlan(embed, e, row);
    forall i | 0 <= i < |plan| ensures GenuineWrite(embed, plan[i]) && Touches(plan[i], e) {
      PlanAt(embed, e, row, i);
    }
    forall i, j | 0 <= i < j < |plan| ensures Survives(plan[i], plan[j]) {
      PlanAt(embed, e, row, i);
      PlanAt(embed, e, row, j);
    }
  }

  /** The kb_body rows of the entity are exactly the body chunks of the content, at 0..N-1. */
  ghost predicate Matches(embed: string -> Vector, rows: Rows, e: Entity, content: string) {
    forall i: nat :: MatchesAt(embed, rows, e, content, i)
  }

  ghost predicate MatchesAt(embed: string -> Vector, rows: Rows, e: Entity, content: string, i: nat) {
    var key := RowKey(e, Body, i);
    && (key in rows <==> i < |BodyChunks(content)|)
    && (key in rows ==> var text := BodyChunks(content)[i]; rows[key] == Row(text, Sha256(text), embed(text), ""))
  }

  /** The anchor row, if the article has an anchor text, is the one of that text. */
  ghost predicate AnchorShown(embed: string -> Vector, rows: Rows, e: Entity, row: KbRow) {
    Strip(AnchorText(row)) != "" ==>
      var text := AnchorText(row);
      RowKey(e, Anchor, 0) in rows && rows[RowKey(e, Anchor, 0)] == Row(text, Sha256(text), embed(text), "")
  }

  lemma LandedMatches(embed: string -> Vector, rows: Rows, e: Entity, row: KbRow)
    requires Landed(rows, KbPlan(embed, e, row), |KbPlan(embed, e, row)|)
    ensures Matches(embed, rows, e, row.content) && AnchorShown(embed, rows, e, row)
  {
    var plan, a, chunks := KbPlan(embed, e, row), |AnchorWrites(embed, e, row)|, BodyChunks(row.content);
    PlanTail(embed, e, row);
    if Strip(AnchorText(row)) != "" {
      assert Shows(rows, plan[0]);
    }
    hide BodyChunks, AnchorText, Strip, KbPlan, AnchorWrites;
    forall i: nat ensures MatchesAt(embed, rows, e, row.content, i) {
      var at := if i < |chunks| then i else |chunks|;
      assert BodyAt(embed, e, chunks, plan, a, at);
      assert Shows(rows, plan[a + at]);
      if i >= |chunks| {
        assert Covers(plan[a + at], RowKey(e, Body, i));
      }
    }
  }

  /** The two parts of the index that are derived from an article. */
  datatype Part = BodyRows | AnchorRow

  ghost predicate UpToDate(part: Part, embed: string -> Vector, rows: Rows, e: Entity, row: KbRow) {
    match part
    case BodyRows => Matches(embed, rows, e, row.content)
    case AnchorRow => AnchorShown(embed, rows, e, row)
  }

  /** The part is the same for both versions of the article. */
  predicate SamePart(part: Part, one: KbRow, other: KbRow) {
    match part
    case BodyRows => BodyChunks(one.content) == BodyChunks(other.content)
    case AnchorRow => AnchorText(one) == AnchorText(other)
  }

  ghost predicate SameRows(before: Rows, after: Rows, e: Entity) {
    forall key: RowKey :: key.entity == e ==> (key in before <==> key in after) && (key in before ==> before[key] == after[key])
  }

  lemma UpToDateKept(part: Part, embed: string -> Vector, before: Rows, after: Rows, e: Entity, one: KbRow, other: KbRow)
    requires UpToDate(part, embed, before, e, one) && SameRows(before, after, e) && SamePart(part, one, other)
    ensures UpToDate(part, embed, after, e, other)
  {
    hide BodyChunks, AnchorText, NewRow;
    if part == BodyRows {
      forall i: nat ensures MatchesAt(embed, after, e, other.content, i) {
        assert MatchesAt(embed, before, e, one.content, i);
        assert RowKey(e, Body, i).entity == e;
      }
    }
  }

  // ── the step protocol ────────────────────────────────────────────────────

  const BATCH: nat := 5

  /** What the worker is doing: nothing, or the message `msg` with the row it fetched turned into
      statements, `pc` of which have been executed. */
  datatype Flight = Idle | Working(msg: nat, entity: Entity, row: KbRow, found: bool, plan: seq<Write>, pc: nat)

  datatype State = State(
    articles: map<Entity, KbRow>, queue: map<nat, Entity>, nextMsg: nat,
    batch: seq<nat>, flight: Flight, rows: Rows)

  const INIT := State(map[], map[], 0, [], Idle, map[])

  datatype Action =
    | Put(entity: Entity, row: KbRow)  // INSERT or UPDATE of an article, trigger included
    | Remove(entity: Entity)           // DELETE of an article, cleanup trigger included
    | Read(ids: seq<nat>)              // pgmq.read: any visible messages, at most BATCH
    | Begin                            // fetch the article of the next message of the batch
    | Write                            // the next statement of `process`
    | Fail                             // `process` raises: the message stays, the batch goes on
    | Ack                              // `process` returned: pgmq.delete
    | Crash                            // the worker stops anywhere; its messages reappear later

  function NewFlight(embed: string -> Vector, s: State): Flight
    requires s.batch != [] && s.batch[0] in s.queue
  {
    var e := s.queue[s.batch[0]];
    if e in s.articles then Working(s.batch[0], e, s.articles[e], true, KbPlan(embed, e, s.articles[e]), 0)
    else Working(s.batch[0], e, KbRow("", "", "", "", []), false, [], 0)
  }

  predicate Enabled(s: State, a: Action) {
    match a
    case Put(e, _) => e.Article?
    case Remove(e) => e in s.articles
    case Read(ids) =>
      && s.flight.Idle? && s.batch == [] && |ids| <= BATCH
      && (forall i :: 0 <= i < |ids| ==> ids[i] in s.queue)
      && (forall i, j :: 0 <= i < j < |ids| ==> ids[i] != ids[j])
    case Begin => s.flight.Idle? && s.batch != [] && s.batch[0] in s.queue
    case Write => s.flight.Working? && s.flight.pc < |s.flight.plan|
    case Fail => s.flight.Working? && s.batch != []
    case Ack => s.flight.Working? && s.flight.pc == |s.flight.plan| && s.batch != []
    case Crash => true
  }

  predicate Rings(s: State, e: Entity, row: KbRow) {
    e !in s.articles || Doorbell(s.articles[e]) != Doorbell(row)
  }

  function Do(embed: string -> Vector, s: State, a: Action): State
    requires Enabled(s, a)
  {
    match a
    case Put(e, row) =>
      if Rings(s, e, row)
      then s.(articles := s.articles[e := row], queue := s.queue[s.nextMsg := e], nextMsg := s.nextMsg + 1)
      else s.(articles := s.articles[e := row])
    case Remove(e) => s.(articles := s.articles - {e}, rows := map key | key in s.rows && key.entity != e :: s.rows[key])
    case Read(ids) => s.(batch := ids)
    case Begin => s.(flight := NewFlight(embed, s))
    case Write => s.(rows := Apply(s.rows, s.flight.plan[s.flight.pc]), flight := s.flight.(pc := s.flight.pc + 1))
    case Fail => s.(flight := Idle, batch := s.batch[1..])
    case Ack => s.(queue := s.queue - {s.flight.msg}, flight := Idle, batch := s.batch[1..])
    case Crash => s.(flight := Idle, batch := [])
  }

  /** The state after a run, if every action of the run is enabled when it is taken. */
  function Run(embed: string -> Vector, s: State, acts: seq<Action>): Option<State> {
    if acts == [] then Some(s)
    else
      var before := Run(embed, s, acts[..|acts| - 1]);
      if before.Some? && Enabled(before.value, acts[|acts| - 1])
      then Some(Do(embed, before.value, acts[|acts| - 1]))
      else None
  }

  predicate ValidRun(embed: string -> Vector, s: State, acts: seq<Action>) {
    Run(embed, s, acts).Some?
  }

  function Final(embed: string -> Vector, s: State, acts: seq<Action>): State
    requires ValidRun(embed, s, acts)
  {
    Run(embed, s, acts).value
  }

  lemma OneMore(embed: string -> Vector, s: State, acts: seq<Action>, a: Action)
    requires ValidRun(embed, s, acts) && Enabled(Final(embed, s, acts), a)
    ensures ValidRun(embed, s, acts + [a]) && Final(embed, s, acts + [a]) == Do(embed, Final(embed, s, acts), a)
  {
    assert (acts + [a])[..|acts|] == acts;
  }

  // ── convergence ──────────────────────────────────────────────────────────

  /** An update that changes the part rings the doorbell. */
  predicate RingsOn(part: Part, s: State, a: Action) {
    a.Put? && a.entity in s.articles && !SamePart(part, s.articles[a.entity], a.row) ==> Rings(s, a.entity, a.row)
  }

  ghost predicate AllRing(part: Part, embed: string -> Vector, s: State, acts: seq<Action>)
    requires ValidRun(embed, s, acts)
  {
    acts == [] || (AllRing(part, embed, s, acts[..|acts| - 1]) && RingsOn(part, Final(embed, s, acts[..|acts| - 1]), acts[|acts| - 1]))
  }

  predicate InFlight(s: State, e: Entity) {
    s.flight.Working? && s.flight.entity == e
  }

  /** A message for the entity is queued, other than the one being processed. */
  ghost predicate Queued(s: State, e: Entity) {
    exists m :: m in s.queue && s.queue[m] == e && !(s.flight.Working? && s.flight.msg == m)
  }

  ghost predicate Current(part: Part, s: State, e: Entity)
    requires InFlight(s, e) && e in s.articles
  {
    s.flight.found && SamePart(part, s.flight.row, s.articles[e]) && Landed(s.rows, s.flight.plan, s.flight.pc)
  }

  ghost predicate InStep(part: Part, embed: string -> Vector, s: State, e: Entity)
    requires e in s.articles
  {
    Queued(s, e) || if InFlight(s, e) then Current(part, s, e) else UpToDate(part, embed, s.rows, e, s.articles[e])
  }

  ghost predicate Bookkeeping(embed: string -> Vector, s: State) {
    && Genuine(embed, s.rows)
    && (forall m :: m in s.queue ==> m < s.nextMsg)
    && (forall i :: 0 <= i < |s.batch| ==> s.batch[i] in s.queue)
    && (forall i, j :: 0 <= i < j < |s.batch| ==> s.batch[i] != s.batch[j])
    && (s.flight.Working? ==>
          && s.batch != [] && s.batch[0] == s.flight.msg && s.queue[s.flight.msg] == s.flight.entity
          && s.flight.pc <= |s.flight.plan|
          && s.flight.plan == (if s.flight.found then KbPlan(embed, s.flight.entity, s.flight.row) else []))
  }

  ghost predicate Inv(part: Part, embed: string -> Vector, s: State) {
    Bookkeeping(embed, s) && forall e :: e in s.articles ==> InStep(part, embed, s, e)
  }

  lemma WriteKeepsInStep(part: Part, embed: string -> Vector, s: State, e: Entity)
    requires Bookkeeping(embed, s) && Enabled(s, Write) && e in s.articles && InStep(part, embed, s, e)
    ensures Genuine(embed, Do(embed, s, Write).rows)
    ensures InStep(part, embed, Do(embed, s, Write), e)
  {
    hide KbPlan, BodyChunks, AnchorText, UpToDate, SamePart;
    var s' := Do(embed, s, Write);
    var w := s.flight.plan[s.flight.pc];
    KbPlanFits(embed, s.flight.entity, s.flight.row);
    assert GenuineWrite(embed, w) && Touches(w, s.flight.entity);
    ApplyKeepsGenuine(embed, s.rows, w);
    assert InStep(part, embed, s, e);
    if Queued(s, e) {
      var m :| m in s.queue && s.queue[m] == e && s.flight.msg != m;
      assert m in s'.queue;
    } else if s.flight.entity == e {
      LandOne(embed, s.rows, s.flight.plan, s.flight.pc);
    } else {
      SameVersion(part, s.articles[e]);
      UpToDateKept(part, embed, s.rows, s'.rows, e, s.articles[e], s.articles[e]);
    }
  }

  lemma SameVersion(part: Part, row: KbRow)
    ensures SamePart(part, row, row)
  {
  }

  lemma DoneKeepsInStep(part: Part, embed: string -> Vector, s: State, a: Action, e: Entity)
    requires Bookkeeping(embed, s) && a in {Begin, Fail, Ack, Crash} && Enabled(s, a)
    requires e in s.articles && InStep(part, embed, s, e)
    ensures InStep(part, embed, Do(embed, s, a), e)
  {
    var s' := Do(embed, s, a);
    assert InStep(part, embed, s, e);
    if Queued(s, e) {
      var m :| m in s.queue && s.queue[m] == e && !(s.flight.Working? && s.flight.msg == m);
      hide KbPlan, BodyChunks, AnchorText, UpToDate;
      assert m in s'.queue;
      SameVersion(part, s.articles[e]);
    } else if InFlight(s, e) {
      if a == Ack {
        LandedMatches(embed, s.rows, e, s.flight.row);
        assert UpToDate(part, embed, s.rows, e, s.flight.row);
        hide KbPlan, BodyChunks, AnchorText, UpToDate, SamePart;
        UpToDateKept(part, embed, s.rows, s.rows, e, s.flight.row, s.articles[e]);
      } else {
        assert s.flight.msg in s'.queue;
      }
    } else {
      hide KbPlan, BodyChunks, AnchorText, UpToDate, SamePart;
      SameVersion(part, s.articles[e]);
    }
  }

  /** Changes of other rows leave the statements of a pass in effect. */
  lemma StillLanded(embed: string -> Vector, before: Rows, after: Rows, e: Entity, row: KbRow, k: nat)
    requires Landed(before, KbPlan(embed, e, row), k) && k <= |KbPlan(embed, e, row)| && SameRows(before, after, e)
    ensures Landed(after, KbPlan(embed, e, row), k)
  {
    var plan := KbPlan(embed, e, row);
    KbPlanFits(embed, e, row);
    hide KbPlan, BodyChunks, AnchorText;
    forall i | 0 <= i < k ensures Shows(after, plan[i]) {
      assert Shows(before, plan[i]) && Touches(plan[i], e);
    }
  }

  lemma ChangeKeepsInStep(part: Part, embed: string -> Vector, s: State, a: Action, e: Entity)
    requires Bookkeeping(embed, s) && (a.Put? || a.Remove? || a.Read?) && Enabled(s, a) && RingsOn(part, s, a)
    requires e in Do(embed, s, a).articles && (e in s.articles ==> InStep(part, embed, s, e))
    ensures InStep(part, embed, Do(embed, s, a), e)
  {
    var s' := Do(embed, s, a);
    ChangeKeepsRest(embed, s, a, e);
    if a.Put? && a.entity == e && Rings(s, e, a.row) {
      assert s'.queue[s.nextMsg] == e && s'.flight == s.flight;
      hide KbPlan, SamePart, UpToDate, Doorbell, Do, SameRows, Current;
      assert Queued(s', e);
    } else {
      SameVersion(part, s.articles[e]);
      assert SamePart(part, s.articles[e], s'.articles[e]);
      assert InFlight(s, e) && SamePart(part, s.flight.row, s.articles[e]) ==> SamePart(part, s.flight.row, s'.articles[e]);
      hide KbPlan, SamePart, UpToDate, Doorbell, Landed, Do, Enabled, RingsOn, SameRows;
      if Queued(s, e) {
        var m :| m in s.queue && s.queue[m] == e && !(s.flight.Working? && s.flight.msg == m);
        assert m in s'.queue;
      } else if !InFlight(s, e) {
        UpToDateKept(part, embed, s.rows, s'.rows, e, s.articles[e], s'.articles[e]);
      } else {
        StillLanded(embed, s.rows, s'.rows, e, s.flight.row, s.flight.pc);
      }
    }
  }

  /** Row changes and reads leave the queued messages, the pass in flight and the article's index rows. */
  lemma ChangeKeepsRest(embed: string -> Vector, s: State, a: Action, e: Entity)
    requires Bookkeeping(embed, s) && (a.Put? || a.Remove? || a.Read?) && Enabled(s, a) && e in Do(embed, s, a).articles
    ensures var s' := Do(embed, s, a);
            && s'.flight == s.flight && SameRows(s.rows, s'.rows, e) && s.nextMsg !in s.queue
            && (forall m :: m in s.queue ==> m in s'.queue && s'.queue[m] == s.queue[m])
            && (s.flight.Working? ==> s.flight.msg in s.queue)
  {
    hide KbPlan, Doorbell;
  }

  /** What every step keeps, for each part of the index: an article that has no other message queued
      either has that part up to date or is being indexed from a snapshot that is still current. */
  lemma StepKeepsInv(part: Part, embed: string -> Vector, s: State, a: Action)
    requires Inv(part, embed, s) && Enabled(s, a) && RingsOn(part, s, a)
    ensures Inv(part, embed, Do(embed, s, a))
  {
    hide KbPlan, BodyChunks, InStep, RingsOn;
    var s' := Do(embed, s, a);
    forall e | e in s'.articles ensures InStep(part, embed, s', e) {
      if a == Write {
        WriteKeepsInStep(part, embed, s, e);
      } else if a in {Begin, Fail, Ack, Crash} {
        DoneKeepsInStep(part, embed, s, a, e);
      } else {
        ChangeKeepsInStep(part, embed, s, a, e);
      }
    }
    if a == Write {
      KbPlanFits(embed, s.flight.entity, s.flight.row);
      assert GenuineWrite(embed, s.flight.plan[s.flight.pc]);
      ApplyKeepsGenuine(embed, s.rows, s.flight.plan[s.flight.pc]);
    }
  }

  lemma {:induction false} RunKeepsInv(part: Part, embed: string -> Vector, s: State, acts: seq<Action>)
    requires Inv(part, embed, s) && ValidRun(embed, s, acts) && AllRing(part, embed, s, acts)
    ensures Inv(part, embed, Final(embed, s, acts))
  {
    if acts != [] {
      RunKeepsInv(part, embed, s, acts[..|acts| - 1]);
      StepKeepsInv(part, embed, Final(embed, s, acts[..|acts| - 1]), acts[|acts| - 1]);
    }
  }

  lemma AtRest(part: Part, embed: string -> Vector, s: State, e: Entity)
    requires Inv(part, embed, s) && e in s.articles && forall m :: m in s.queue ==> s.queue[m] != e
    ensures UpToDate(part, embed, s.rows, e, s.articles[e])
  {
    assert InStep(part, embed, s, e) && !Queued(s, e);
    hide UpToDate;
  }

  /** Convergence over whole runs, provided that the edits which change the body chunks ring: after any
      run of row changes, reads, single writes, failures, crashes, redeliveries and acknowledgements,
      an existing article with no message in the queue has exactly its current body chunks in the
      index. */
  lemma IndexConverges(embed: string -> Vector, acts: seq<Action>, e: Entity)
    requires ValidRun(embed, INIT, acts) && AllRing(BodyRows, embed, INIT, acts)
    requires var s := Final(embed, INIT, acts); e in s.articles && forall m :: m in s.queue ==> s.queue[m] != e
    ensures var s := Final(embed, INIT, acts); Matches(embed, s.rows, e, s.articles[e].content)
  {
    RunKeepsInv(BodyRows, embed, INIT, acts);
    AtRest(BodyRows, embed, Final(embed, INIT, acts), e);
  }

  /** The same for the anchor row, provided that the edits which change the anchor text ring. */
  lemma AnchorConverges(embed: string -> Vector, acts: seq<Action>, e: Entity)
    requires ValidRun(embed, INIT, acts) && AllRing(AnchorRow, embed, INIT, acts)
    requires var s := Final(embed, INIT, acts); e in s.articles && forall m :: m in s.queue ==> s.queue[m] != e
    ensures var s := Final(embed, INIT, acts); AnchorShown(embed, s.rows, e, s.articles[e])
  {
    RunKeepsInv(AnchorRow, embed, INIT, acts);
    AtRest(AnchorRow, embed, Final(embed, INIT, acts), e);
  }

  // ── edits that ring ──────────────────────────────────────────────────────

  lemma Surround(p: string, x: string, y: string, q: string)
    requires p + x + q == p + y + q
    ensures x == y
  {
    var all := p + x + q;
    assert x == all[|p|..|p| + |x|] && y == (p + y + q)[|p|..|p| + |y|];
  }

  /** The edit changes exactly one of title, summary, category and content. */
  predicate OneField(a: KbRow, b: KbRow) {
    || (a.title != b.title && a.summary == b.summary && a.category == b.category && a.content == b.content)
    || (a.title == b.title && a.summary != b.summary && a.category == b.category && a.content == b.content)
    || (a.title == b.title && a.summary == b.summary && a.category != b.category && a.content == b.content)
    || (a.title == b.title && a.summary == b.summary && a.category == b.category && a.content != b.content)
  }

  /** Each field stands in the digest text between a part before it and a part after it. */
  lemma DigestParts(a: KbRow)
    ensures Doorbell(a) == "Title: " + a.title + ("\nSummary: " + a.summary + "\nCategory: " + a.category + "\nContent: " + a.content)
    ensures Doorbell(a) == ("Title: " + a.title + "\nSummary: ") + a.summary + ("\nCategory: " + a.category + "\nContent: " + a.content)
    ensures Doorbell(a) == ("Title: " + a.title + "\nSummary: " + a.summary + "\nCategory: ") + a.category + ("\nContent: " + a.content)
    ensures Doorbell(a) == ("Title: " + a.title + "\nSummary: " + a.summary + "\nCategory: " + a.category + "\nContent: ") + a.content + ""
  {
  }

  lemma OneFieldIsDigested(a: KbRow, b: KbRow)
    requires OneField(a, b)
    ensures Doorbell(a) != Doorbell(b)
  {
    DigestParts(a);
    DigestParts(b);
    hide Doorbell;
    if Doorbell(a) == Doorbell(b) {
      if a.title != b.title {
        Surround("Title: ", a.title, b.title, "\nSummary: " + a.summary + "\nCategory: " + a.category + "\nContent: " + a.content);
      } else if a.summary != b.summary {
        Surround("Title: " + a.title + "\nSummary: ", a.summary, b.summary, "\nCategory: " + a.category + "\nContent: " + a.content);
      } else if a.category != b.category {
        Surround("Title: " + a.title + "\nSummary: " + a.summary + "\nCategory: ", a.category, b.category, "\nContent: " + a.content);
      } else {
        Surround("Title: " + a.title + "\nSummary: " + a.summary + "\nCategory: " + a.category + "\nContent: ", a.content, b.content, "");
      }
    }
  }

  predicate Numbered(s: State) {
    forall m :: m in s.queue ==> m < s.nextMsg
  }

  lemma StepNumbers(embed: string -> Vector, s: State, a: Action)
    requires Numbered(s) && Enabled(s, a)
    ensures Numbered(Do(embed, s, a))
  {
    hide NewFlight, Rings;
  }

  lemma {:induction false} MessagesAreNumbered(embed: string -> Vector, acts: seq<Action>)
    requires ValidRun(embed, INIT, acts)
    ensures Numbered(Final(embed, INIT, acts))
  {
    if acts != [] {
      MessagesAreNumbered(embed, acts[..|acts| - 1]);
      StepNumbers(embed, Final(embed, INIT, acts[..|acts| - 1]), acts[|acts| - 1]);
    }
  }

  /** A message about the entity is queued that was not there before, and none is lost. */
  ghost predicate Enqueued(before: map<nat, Entity>, after: map<nat, Entity>, e: Entity) {
    (exists m :: m !in before && m in after && after[m] == e) && forall m :: m in before ==> m in after && after[m] == before[m]
  }

  /** After any run, the insertion of an article, and every edit that changes exactly one of its title,
      summary, category and content, queues a message about it. */
  lemma EditIsQueued(embed: string -> Vector, acts: seq<Action>, e: Entity, row: KbRow)
    requires ValidRun(embed, INIT, acts) && e.Article?
    requires var s := Final(embed, INIT, acts); e !in s.articles || OneField(s.articles[e], row)
    ensures var s := Final(embed, INIT, acts);
            var s' := Do(embed, s, Put(e, row));
            s'.articles == s.articles[e := row] && Enqueued(s.queue, s'.queue, e)
  {
    var s := Final(embed, INIT, acts);
    MessagesAreNumbered(embed, acts);
    if e in s.articles {
      OneFieldIsDigested(s.articles[e], row);
    }
    hide Doorbell, Run, OneField;
    assert Rings(s, e, row);
    assert s.nextMsg !in s.queue && Do(embed, s, Put(e, row)).queue[s.nextMsg] == e;
  }

  /** Every edit of the run changes at most one field, and no tags. */
  ghost predicate AllPlain(embed: string -> Vector, acts: seq<Action>)
    requires ValidRun(embed, INIT, acts)
  {
    acts == [] || (AllPlain(embed, acts[..|acts| - 1]) && IsPlain(Final(embed, INIT, acts[..|acts| - 1]), acts[|acts| - 1]))
  }

  predicate IsPlain(s: State, a: Action) {
    a.Put? && a.entity in s.articles ==>
      var was := s.articles[a.entity];
      a.row == was || (OneField(was, a.row) && a.row.tags == was.tags)
  }

  lemma {:induction false} PlainEditsRing(part: Part, embed: string -> Vector, acts: seq<Action>)
    requires ValidRun(embed, INIT, acts) && AllPlain(embed, acts)
    ensures AllRing(part, embed, INIT, acts)
  {
    if acts != [] {
      PlainEditsRing(part, embed, acts[..|acts| - 1]);
      var s, a := Final(embed, INIT, acts[..|acts| - 1]), acts[|acts| - 1];
      if a.Put? && a.entity in s.articles {
        if a.row == s.articles[a.entity] {
          SameVersion(part, a.row);
        } else {
          OneFieldIsDigested(s.articles[a.entity], a.row);
        }
      }
    }
  }

  /** Convergence without any assumption about the digest: after any run whose edits change one field at
      a time and leave the tags alone, every existing article without a message in the queue has its
      current body chunks and its current anchor text in the index. */
  lemma PlainEditsConverge(embed: string -> Vector, acts: seq<Action>, e: Entity)
    requires ValidRun(embed, INIT, acts) && AllPlain(embed, acts)
    requires var s := Final(embed, INIT, acts); e in s.articles && forall m :: m in s.queue ==> s.queue[m] != e
    ensures var s := Final(embed, INIT, acts);
            Matches(embed, s.rows, e, s.articles[e].content) && AnchorShown(embed, s.rows, e, s.articles[e])
  {
    PlainEditsRing(BodyRows, embed, acts);
    PlainEditsRing(AnchorRow, embed, acts);
    IndexConverges(embed, acts, e);
    AnchorConverges(embed, acts, e);
  }

  /** An edit of the content alone always rings. */
  lemma ContentEditRings(r: KbRow, content: string)
    requires r.content != content
    ensures Doorbell(r) != Doorbell(r.(content := content))
  {
    OneFieldIsDigested(r, r.(content := content));
  }

  /** A deletion takes the article's rows along, and no others. */
  lemma RemovalCleans(embed: string -> Vector, s: State, e: Entity)
    requires e in s.articles
    ensures var s' := Do(embed, s, Remove(e));
            && e !in s'.articles && (forall key :: key in s'.rows ==> key.entity != e)
            && SameElsewhere(s.rows, s'.rows, e)
  {
  }

  lemma MatchesDeterminesChunks(embed: string -> Vector, rows: Rows, e: Entity, one: string, other: string)
    requires Matches(embed, rows, e, one) && Matches(embed, rows, e, other)
    ensures BodyChunks(one) == BodyChunks(other)
  {
    var a, b := BodyChunks(one), BodyChunks(other);
    assert MatchesAt(embed, rows, e, one, |a|) && MatchesAt(embed, rows, e, other, |a|);
    assert MatchesAt(embed, rows, e, one, |b|) && MatchesAt(embed, rows, e, other, |b|);
    forall i: nat | i < |a| ensures a[i] == b[i] {
      assert MatchesAt(embed, rows, e, one, i) && MatchesAt(embed, rows, e, other, i);
    }
  }

  /** The ringing condition is needed and exact: in a synchronised state with no message for the
      article, an edit that does not ring leaves no message queued, and the index then matches the
      new content if and only if the edit did not change the body chunks. */
  lemma SilentEdit(embed: string -> Vector, s: State, e: Entity, row: KbRow)
    requires Inv(BodyRows, embed, s) && e in s.articles && (forall m :: m in s.queue ==> s.queue[m] != e)
    requires e.Article? && !Rings(s, e, row)
    ensures var s' := Do(embed, s, Put(e, row));
            && (forall m :: m in s'.queue ==> s'.queue[m] != e)
            && (Matches(embed, s'.rows, e, row.content) <==> BodyChunks(row.content) == BodyChunks(s.articles[e].content))
  {
    var before := s.articles[e].content;
    AtRest(BodyRows, embed, s, e);
    if BodyChunks(row.content) == BodyChunks(before) {
      forall i: nat ensures MatchesAt(embed, s.rows, e, row.content, i) {
        assert MatchesAt(embed, s.rows, e, before, i);
      }
    }
    if Matches(embed, s.rows, e, row.content) {
      MatchesDeterminesChunks(embed, s.rows, e, before, row.content);
    }
  }

  /** Such edits exist: the digest runs over unescaped labelled lines, so text can move from the
      category to the content without changing it. */
  lemma SilentEditExists()
    ensures Doorbell(KbRow("", "", "z", "x\nContent: y", [])) == Doorbell(KbRow("", "", "y\nContent: z", "x", []))
  {
  }

  /** Tags are in the anchor text but not under the digest: after a tags-only edit of an article whose
      anchor row is up to date nothing is queued, and the row, which still shows the old tags, is right
      if and only if the edit did not change the anchor text or made it blank. */
  lemma TagsEditIsNotIndexed(embed: string -> Vector, s: State, e: Entity, tags: seq<string>)
    requires Inv(AnchorRow, embed, s) && e.Article? && e in s.articles && (forall m :: m in s.queue ==> s.queue[m] != e)
    requires Strip(AnchorText(s.articles[e])) != ""
    ensures var edited := s.articles[e].(tags := tags);
            var s' := Do(embed, s, Put(e, edited));
            && (forall m :: m in s'.queue ==> s'.queue[m] != e)
            && s'.rows[RowKey(e, Anchor, 0)].text == AnchorText(s.articles[e])
            && (AnchorShown(embed, s'.rows, e, edited) <==> AnchorText(edited) == AnchorText(s.articles[e]) || Strip(AnchorText(edited)) == "")
  {
    AtRest(AnchorRow, embed, s, e);
    hide AnchorText, Strip, Inv;
  }

  // ── two workers ──────────────────────────────────────────────────────────

  /** Two workers on one queue and one table: `base` holds what they share and the first one. */
  datatype Duo = Duo(base: State, batch: seq<nat>, flight: Flight)

  function Seen(d: Duo, second: bool): State {
    if second then d.base.(batch := d.batch, flight := d.flight) else d.base
  }

  function DuoDo(embed: string -> Vector, d: Duo, second: bool, a: Action): Duo
    requires Enabled(Seen(d, second), a)
  {
    var t := Do(embed, Seen(d, second), a);
    if second then Duo(t.(batch := d.base.batch, flight := d.base.flight), t.batch, t.flight) else d.(base := t)
  }

  function DuoRun(embed: string -> Vector, steps: seq<(bool, Action)>): Option<Duo> {
    if steps == [] then Some(Duo(INIT, [], Idle))
    else
      var (second, a) := steps[|steps| - 1];
      match DuoRun(embed, steps[..|steps| - 1])
      case Some(d) => if Enabled(Seen(d, second), a) then Some(DuoDo(embed, d, second, a)) else None
      case None => None
  }

  lemma DuoStep(embed: string -> Vector, steps: seq<(bool, Action)>, d: Duo, second: bool, a: Action) returns (longer: seq<(bool, Action)>)
    requires DuoRun(embed, steps) == Some(d) && Enabled(Seen(d, second), a)
    ensures DuoRun(embed, longer) == Some(DuoDo(embed, d, second, a))
  {
    longer := steps + [(second, a)];
    assert longer[..|steps|] == steps;
  }

  lemma DuoWrite(embed: string -> Vector, d: Duo, second: bool)
    requires Seen(d, second).flight.Working? && Seen(d, second).flight.pc < |Seen(d, second).flight.plan|
    ensures Enabled(Seen(d, second), Write)
    ensures var s, after := Seen(d, second), DuoDo(embed, d, second, Write);
            var rows := Apply(s.rows, s.flight.plan[s.flight.pc]);
            && Seen(after, second) == s.(rows := rows, flight := s.flight.(pc := s.flight.pc + 1))
            && Seen(after, !second) == Seen(d, !second).(rows := rows)
  {
    hide Apply;
  }

  /** The first `n` statements of the worker's pass have been executed since `d`. */
  ghost predicate HasWritten(d: Duo, after: Duo, second: bool, n: nat)
    requires Seen(d, second).flight.Working? && n <= |Seen(d, second).flight.plan|
  {
    var s := Seen(d, second);
    && Seen(after, second) == s.(rows := ApplyAll(s.rows, s.flight.plan[..n]), flight := s.flight.(pc := n))
    && Seen(after, !second) == Seen(d, !second).(rows := ApplyAll(s.rows, s.flight.plan[..n]))
  }

  lemma WriteOneMore(embed: string -> Vector, d: Duo, after: Duo, second: bool, n: nat)
    requires Seen(d, second).flight.Working? && n < |Seen(d, second).flight.plan| && HasWritten(d, after, second, n)
    ensures Enabled(Seen(after, second), Write) && HasWritten(d, DuoDo(embed, after, second, Write), second, n + 1)
  {
    var s := Seen(d, second);
    ExtendRun(s.rows, s.flight.plan, n);
    DuoWrite(embed, after, second);
    hide ApplyAll, Apply, DuoDo, Do, Seen, Enabled;
  }

  /** A worker executes the first `n` statements of the pass it has begun. */
  lemma {:induction false} DuoWrites(embed: string -> Vector, steps: seq<(bool, Action)>, d: Duo, second: bool, n: nat)
    returns (longer: seq<(bool, Action)>, after: Duo)
    requires DuoRun(embed, steps) == Some(d)
    requires var f := Seen(d, second).flight; f.Working? && f.pc == 0 && n <= |f.plan|
    ensures DuoRun(embed, longer) == Some(after)
    ensures HasWritten(d, after, second, n)
  {
    if n == 0 {
      longer, after := steps, d;
    } else {
      hide *;
      longer, after := DuoWrites(embed, steps, d, second, n - 1);
      WriteOneMore(embed, d, after, second, n - 1);
      longer := DuoStep(embed, longer, after, second, Write);
      after := DuoDo(embed, after, second, Write);
    }
  }

  /** A worker acknowledges its message. */
  lemma Acknowledge(embed: string -> Vector, steps: seq<(bool, Action)>, d: Duo, second: bool)
    returns (longer: seq<(bool, Action)>, after: Duo)
    requires DuoRun(embed, steps) == Some(d) && Enabled(Seen(d, second), Ack)
    ensures DuoRun(embed, longer) == Some(after)
    ensures var s := Seen(d, second);
            && Seen(after, second) == s.(queue := s.queue - {s.flight.msg}, flight := Idle, batch := s.batch[1..])
            && Seen(after, !second) == Seen(d, !second).(queue := s.queue - {s.flight.msg})
  {
    hide DuoRun;
    longer := DuoStep(embed, steps, d, second, Ack);
    after := DuoDo(embed, d, second, Ack);
  }

  /** An edit that rings. */
  lemma Edit(embed: string -> Vector, steps: seq<(bool, Action)>, d: Duo, e: Entity, row: KbRow)
    returns (longer: seq<(bool, Action)>, after: Duo)
    requires DuoRun(embed, steps) == Some(d) && e.Article? && Rings(d.base, e, row)
    ensures DuoRun(embed, longer) == Some(after)
    ensures var s := d.base;
            after == d.(base := s.(articles := s.articles[e := row], queue := s.queue[s.nextMsg := e], nextMsg := s.nextMsg + 1))
  {
    hide DuoRun, Rings;
    longer := DuoStep(embed, steps, d, false, Put(e, row));
    after := DuoDo(embed, d, false, Put(e, row));
  }

  /** A worker reads one message and fetches the row it names. */
  lemma Fetch(embed: string -> Vector, steps: seq<(bool, Action)>, d: Duo, second: bool, m: nat)
    returns (longer: seq<(bool, Action)>, after: Duo)
    requires DuoRun(embed, steps) == Some(d) && m in d.base.queue && d.base.queue[m] in d.base.articles
    requires Seen(d, second).flight.Idle? && Seen(d, second).batch == []
    ensures DuoRun(embed, longer) == Some(after)
    ensures var e := d.base.queue[m];
            var f := Working(m, e, d.base.articles[e], true, KbPlan(embed, e, d.base.articles[e]), 0);
            after == if second then d.(batch := [m], flight := f) else d.(base := d.base.(batch := [m], flight := f))
  {
    hide DuoRun, KbPlan;
    longer := DuoStep(embed, steps, d, second, Read([m]));
    after := DuoDo(embed, d, second, Read([m]));
    longer := DuoStep(embed, longer, after, second, Begin);
    after := DuoDo(embed, after, second, Begin);
  }

  ghost predicate FirstHas(embed: string -> Vector, d: Duo, e: Entity, older: KbRow) {
    && d.batch == [] && d.flight == Idle && d.base.rows == map[]
    && d.base.batch == [0] && d.base.flight == Working(0, e, older, true, KbPlan(embed, e, older), 0)
  }

  lemma FirstFetches(embed: string -> Vector, e: Entity, older: KbRow) returns (steps: seq<(bool, Action)>, d: Duo)
    requires e.Article?
    ensures DuoRun(embed, steps) == Some(d) && FirstHas(embed, d, e, older)
    ensures d.base.articles == map[e := older] && d.base.queue == map[0 := e] && d.base.nextMsg == 1
  {
    assert DuoRun(embed, []) == Some(Duo(INIT, [], Idle));
    hide DuoRun, KbPlan, Doorbell, Do, DuoDo, Enabled, NewFlight;
    steps, d := Edit(embed, [], Duo(INIT, [], Idle), e, older);
    steps, d := Fetch(embed, steps, d, false, 0);
  }

  /** The first worker fetches an article, and then it is edited. */
  lemma FetchThenEdit(embed: string -> Vector, e: Entity, older: KbRow, newer: KbRow) returns (steps: seq<(bool, Action)>, d: Duo)
    requires e.Article? && Doorbell(older) != Doorbell(newer)
    ensures DuoRun(embed, steps) == Some(d) && FirstHas(embed, d, e, older)
    ensures d.base.articles == map[e := newer] && d.base.queue == map[0 := e, 1 := e]
  {
    var before;
    hide DuoRun, KbPlan, Doorbell, Do, DuoDo, Enabled, NewFlight;
    steps, before := FirstFetches(embed, e, older);
    assert before.base.articles[e] == older;
    steps, d := Edit(embed, steps, before, e, newer);
    assert map[0 := e][1 := e] == map[0 := e, 1 := e] && map[e := older][e := newer] == map[e := newer];
  }

  /** The second worker fetches the edited article, executes its whole pass and acknowledges. */
  lemma SecondPass(embed: string -> Vector, steps: seq<(bool, Action)>, d: Duo, e: Entity, older: KbRow, newer: KbRow)
    returns (longer: seq<(bool, Action)>, after: Duo)
    requires DuoRun(embed, steps) == Some(d) && FirstHas(embed, d, e, older)
    requires d.base.articles == map[e := newer] && d.base.queue == map[0 := e, 1 := e]
    ensures DuoRun(embed, longer) == Some(after) && after.flight == Idle
    ensures after.base == d.base.(queue := map[0 := e], rows := ApplyAll(map[], KbPlan(embed, e, newer)))
  {
    var p := KbPlan(embed, e, newer);
    hide KbPlan, DuoRun, ApplyAll, Apply, DuoDo, Do, NewFlight, Rings;
    longer, after := Fetch(embed, steps, d, true, 1);
    longer, after := DuoWrites(embed, longer, after, true, |p|);
    longer, after := Acknowledge(embed, longer, after, true);
    assert p[..|p|] == p && d.base.queue - {1} == map[0 := e];
  }

  /** The first worker executes its pass for the older version and acknowledges. */
  lemma FirstPass(embed: string -> Vector, steps: seq<(bool, Action)>, d: Duo, e: Entity, older: KbRow, rows: Rows)
    returns (longer: seq<(bool, Action)>, after: Duo)
    requires DuoRun(embed, steps) == Some(d) && d.flight == Idle && d.base.rows == rows && d.base.queue == map[0 := e]
    requires d.base.batch == [0] && d.base.flight == Working(0, e, older, true, KbPlan(embed, e, older), 0)
    ensures DuoRun(embed, longer) == Some(after) && after.flight == Idle
    ensures after.base.flight == Idle && after.base.queue == map[] && after.base.articles == d.base.articles
    ensures after.base.rows == ApplyAll(rows, KbPlan(embed, e, older))
  {
    var q := KbPlan(embed, e, older);
    hide KbPlan, DuoRun, ApplyAll, Apply, DuoDo, Do, NewFlight, Rings;
    longer, after := DuoWrites(embed, steps, d, false, |q|);
    longer, after := Acknowledge(embed, longer, after, false);
    assert q[..|q|] == q && d.base.queue - {0} == map[];
  }

  /** Two workers on one queue do not converge, for any edit that rings and changes the body chunks:
      there is a run in which both workers finish and acknowledge, the queue is empty, and the index
      holds the chunks of the older content, because the worker that fetched it wrote last. */
  lemma TwoWorkersCanDiverge(embed: string -> Vector, e: Entity, older: KbRow, newer: KbRow) returns (steps: seq<(bool, Action)>)
    requires e.Article? && Doorbell(older) != Doorbell(newer) && BodyChunks(older.content) != BodyChunks(newer.content)
    ensures DuoRun(embed, steps).Some?
    ensures var d := DuoRun(embed, steps).value;
            && d.base.queue == map[] && d.base.flight.Idle? && d.flight.Idle? && d.base.articles == map[e := newer]
            && Matches(embed, d.base.rows, e, older.content) && !Matches(embed, d.base.rows, e, newer.content)
  {
    var p, q := KbPlan(embed, e, newer), KbPlan(embed, e, older);
    KbPlanFits(embed, e, newer);
    KbPlanFits(embed, e, older);
    var d;
    assert p[..|p|] == p;
    steps, d := FetchThenEdit(embed, e, older, newer);
    hide *;
    steps, d := SecondPass(embed, steps, d, e, older, newer);
    steps, d := FirstPass(embed, steps, d, e, older, d.base.rows);
    RedeliveryLands(embed, map[], p, |p|, q);
    LandedMatches(embed, d.base.rows, e, older);
    if Matches(embed, d.base.rows, e, newer.content) {
      MatchesDeterminesChunks(embed, d.base.rows, e, older.content, newer.content);
    }
  }

  // ── the drain loop ───────────────────────────────────────────────────────

  class KbWorker {
    const embed: string -> Vector
    const table: VectorTable
    var articles: map<Entity, KbRow>
    var queue: map<nat, Entity>
    var nextMsg: nat

    constructor (embed: string -> Vector, table: VectorTable, articles: map<Entity, KbRow>, queue: map<nat, Entity>, nextMsg: nat)
      ensures this.embed == embed && this.table == table
      ensures this.articles == articles && this.queue == queue && this.nextMsg == nextMsg
    {
      this.embed, this.table := embed, table;
      this.articles, this.queue, this.nextMsg := articles, queue, nextMsg;
    }

    ghost function Between(batch: seq<nat>): State
      reads this, table
    {
      State(articles, queue, nextMsg, batch, Idle, table.rows)
    }

    /** `_drain_once` on the messages `ids` that pgmq.read returned; statement `failAt[k]` of the k-th
        one raises, if `process` gets that far. The loop is a run of the protocol. */
    method DrainOnce(ids: seq<nat>, failAt: seq<nat>) returns (acked: set<nat>, ghost acts: seq<Action>)
      requires Enabled(Between([]), Read(ids)) && |failAt| == |ids|
      modifies this`queue, table
      ensures ValidRun(embed, old(Between([])), acts) && Between([]) == Final(embed, old(Between([])), acts)
      ensures forall i :: 0 <= i < |acts| ==> !acts[i].Put? && !acts[i].Remove?
      ensures queue == old(queue) - acked
    {
      ghost var s0 := Between([]);
      acts, acked := [Read(ids)], {};
      OneMore(embed, s0, [], Read(ids));
      assert [] + [Read(ids)] == acts;
      hide ValidRun, Final;
      for k := 0 to |ids|
        invariant ValidRun(embed, s0, acts) && Final(embed, s0, acts) == Between(ids[k..])
        invariant forall i :: 0 <= i < |acts| ==> !acts[i].Put? && !acts[i].Remove?
        invariant queue == old(queue) - acked
        invariant forall i :: k <= i < |ids| ==> ids[i] in queue
      {
        var ok;
        ok, acts := DrainMessage(ids, k, failAt[k], s0, acts);
        if ok {
          acked := acked + {ids[k]};
        }
      }
    }

    /** One message: `process`, then the acknowledgement, or nothing but the log line of a failure. */
    method DrainMessage(ids: seq<nat>, k: nat, failAt: nat, ghost s0: State, ghost acts: seq<Action>)
      returns (ok: bool, ghost acts': seq<Action>)
      requires k < |ids| && ids[k] in queue
      requires ValidRun(embed, s0, acts) && Final(embed, s0, acts) == Between(ids[k..])
      requires forall i :: 0 <= i < |acts| ==> !acts[i].Put? && !acts[i].Remove?
      modifies this`queue, table
      ensures ValidRun(embed, s0, acts') && Final(embed, s0, acts') == Between(ids[k + 1..])
      ensures forall i :: 0 <= i < |acts'| ==> !acts'[i].Put? && !acts'[i].Remove?
      ensures queue == if ok then old(queue) - {ids[k]} else old(queue)
    {
      hide ValidRun, Final, KbPlan;
      var e := queue[ids[k]];
      ghost var rows := table.rows;
      OneMore(embed, s0, acts, Begin);
      assert ids[k..][1..] == ids[k + 1..];
      ok := true;
      ghost var written := 0;
      if e in articles {
        var row := articles[e];
        ok := Process(embed, table, e, row, failAt);
        written := Min(failAt, |KbPlan(embed, e, row)|);
      }
      acts' := RunWrites(embed, s0, acts + [Begin], rows, written);
      OneMore(embed, s0, acts', if ok then Ack else Fail);
      acts' := acts' + [if ok then Ack else Fail];
      if ok {
        queue := queue - {ids[k]};
      }
    }
  }

  lemma {:induction false} RunWrites(embed: string -> Vector, s0: State, acts: seq<Action>, rows: Rows, n: nat) returns (acts': seq<Action>)
    requires ValidRun(embed, s0, acts)
    requires var s := Final(embed, s0, acts); s.flight.Working? && s.flight.pc == 0 && s.rows == rows && n <= |s.flight.plan|
    requires forall i :: 0 <= i < |acts| ==> !acts[i].Put? && !acts[i].Remove?
    ensures ValidRun(embed, s0, acts')
    ensures forall i :: 0 <= i < |acts'| ==> !acts'[i].Put? && !acts'[i].Remove?
    ensures var s := Final(embed, s0, acts);
            Final(embed, s0, acts') == s.(rows := ApplyAll(rows, s.flight.plan[..n]), flight := s.flight.(pc := n))
  {
    if n == 0 {
      acts' := acts;
    } else {
      var before := RunWrites(embed, s0, acts, rows, n - 1);
      OneMore(embed, s0, before, Write);
      acts' := before + [Write];
      ExtendRun(rows, Final(embed, s0, acts).flight.plan, n - 1);
    }
  }
}
