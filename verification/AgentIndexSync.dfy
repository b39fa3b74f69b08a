/** The synchroniser of the agent routing index, over whole runs: the trigger on itsm.agent, the queue
    and the worker (database/agent/01_schema.sql, database/agent/02_embeddings.sql,
    database/_lib/_worker_base.py, database/agent/worker.py). */
module AgentIndexSync {
  import opened VectorIndex
  import opened AgentIndex
  import opened Wrappers

  /** A row of itsm.agent. `rest` stands for what the skills hold beyond the embedded texts. */
  datatype Version = Version(active: bool, card: Card, rest: string)

  type Versions = map<int, Version>

  // ── the row the worker fetches ───────────────────────────────────────────

  lemma {:induction false} HasGreatest(s: set<int>)
    requires s != {}
    ensures exists m :: m in s && forall x :: x in s ==> x <= m
  {
    assert (forall y :: y !in s) ==> s == {};
    var y :| y in s;
    var rest := s - {y};
    if rest != {} {
      HasGreatest(rest);
      var m :| m in rest && forall x :: x in rest ==> x <= m;
      assert forall x :: x in s ==> x == y || x in rest;
      assert (if y <= m then m else y) in s;
    } else {
      assert s == {y};
    }
  }

  ghost function Greatest(s: set<int>): (m: int)
    requires s != {}
    ensures m in s && forall x :: x in s ==> x <= m
  {
    HasGreatest(s);
    var m :| m in s && forall x :: x in s ==> x <= m;
    m
  }

  /** The card of the highest active version. */
  ghost function Fetched(vs: Versions): Option<Card> {
    var active := set v | v in vs && vs[v].active;
    if active == {} then None else Some(vs[Greatest(active)].card)
  }

  /** The card the index should show: the fetched one, if it has chunks. */
  ghost function Wanted(vs: Versions): Option<Card> {
    var card := Fetched(vs);
    if card.Some? && AgentChunks(card.value.skills) != [] then card else None
  }

  ghost predicate SameIndex(c: Card, d: Card) {
    Domain(c) == Domain(d) && forall kind :: Texts(c.skills, kind) == Texts(d.skills, kind)
  }

  // ── the step protocol ────────────────────────────────────────────────────

  datatype Flight = Idle | Working(msg: nat, agentId: string, card: Option<Card>, plan: seq<Write>, pc: nat)

  datatype State = State(
    agents: map<string, Versions>, queue: map<nat, string>, nextMsg: nat,
    batch: seq<nat>, flight: Flight, rows: Rows)

  const INIT := State(map[], map[], 0, [], Idle, map[])

  datatype Action =
    | Put(agentId: string, version: int, row: Version) // INSERT or UPDATE, trigger included
    | Remove(agentId: string, version: int)            // DELETE, cleanup trigger included
    | Read(ids: seq<nat>)
    | Begin
    | Write
    | Fail
    | Ack
    | Crash

  function VersionsOf(s: State, agentId: string): Versions {
    if agentId in s.agents then s.agents[agentId] else map[]
  }

  predicate Enabled(s: State, a: Action) {
    match a
    case Put(_, _, _) => true
    case Remove(id, v) => v in VersionsOf(s, id)
    case Read(ids) =>
      && s.flight.Idle? && s.batch == []
      && (forall i :: 0 <= i < |ids| ==> ids[i] in s.queue)
      && (forall i, j :: 0 <= i < j < |ids| ==> ids[i] != ids[j])
    case Begin => s.flight.Idle? && s.batch != [] && s.batch[0] in s.queue
    case Write => s.flight.Working? && s.flight.pc < |s.flight.plan|
    case Fail => s.flight.Working? && s.batch != []
    case Ack => s.flight.Working? && s.flight.pc == |s.flight.plan| && s.batch != []
    case Crash => true
  }

  /** The trigger: an insert, or a change of `body->'skills'`; not of the status, the domain or the rest
      of the body. */
  predicate Rings(s: State, a: Action) {
    a.Put? &&
    var vs := VersionsOf(s, a.agentId);
    a.version !in vs || vs[a.version].card.skills != a.row.card.skills || vs[a.version].rest != a.row.rest
  }

  ghost function NewFlight(embed: string -> Vector, s: State): Flight
    requires s.batch != [] && s.batch[0] in s.queue
  {
    var id := s.queue[s.batch[0]];
    var card := Fetched(VersionsOf(s, id));
    Working(s.batch[0], id, card, if card.Some? then AgentPlan(embed, id, card.value) else [], 0)
  }

  ghost function Do(embed: string -> Vector, s: State, a: Action): State
    requires Enabled(s, a)
  {
    match a
    case Put(id, v, row) =>
      var t := s.(agents := s.agents[id := VersionsOf(s, id)[v := row]]);
      if Rings(s, a) then t.(queue := s.queue[s.nextMsg := id], nextMsg := s.nextMsg + 1) else t
    case Remove(id, v) =>
      var vs := VersionsOf(s, id) - {v};
      if vs != map[] then s.(agents := s.agents[id := vs])
      else s.(agents := s.agents - {id}, rows := map key | key in s.rows && key.entity != Agent(id) :: s.rows[key])
    case Read(ids) => s.(batch := ids)
    case Begin => s.(flight := NewFlight(embed, s))
    case Write => s.(rows := Apply(s.rows, s.flight.plan[s.flight.pc]), flight := s.flight.(pc := s.flight.pc + 1))
    case Fail => s.(flight := Idle, batch := s.batch[1..])
    case Ack => s.(queue := s.queue - {s.flight.msg}, flight := Idle, batch := s.batch[1..])
    case Crash => s.(flight := Idle, batch := [])
  }

  ghost function Run(embed: string -> Vector, acts: seq<Action>): Option<State> {
    if acts == [] then Some(INIT)
    else
      match Run(embed, acts[..|acts| - 1])
      case Some(s) => if Enabled(s, acts[|acts| - 1]) then Some(Do(embed, s, acts[|acts| - 1])) else None
      case None => None
  }

  // ── convergence ──────────────────────────────────────────────────────────

  /** A change after which the index should show something else rings. */
  ghost predicate RingsOnIndex(embed: string -> Vector, s: State, a: Action)
    requires Enabled(s, a)
  {
    a.Put? || a.Remove? ==>
      var before, after := Wanted(VersionsOf(s, a.agentId)), Wanted(VersionsOf(Do(embed, s, a), a.agentId));
      after.Some? && !(before.Some? && SameIndex(before.value, after.value)) ==> Rings(s, a)
  }

  ghost predicate AllRing(embed: string -> Vector, acts: seq<Action>)
    requires Run(embed, acts).Some?
  {
    acts == [] ||
    (AllRing(embed, acts[..|acts| - 1]) && RingsOnIndex(embed, Run(embed, acts[..|acts| - 1]).value, acts[|acts| - 1]))
  }

  predicate InFlight(s: State, agentId: string) {
    s.flight.Working? && s.flight.agentId == agentId
  }

  ghost predicate Queued(s: State, agentId: string) {
    exists m :: m in s.queue && s.queue[m] == agentId && !(s.flight.Working? && s.flight.msg == m)
  }

  /** The pass under way indexes what the card shows, as far as it has come. */
  ghost predicate Current(s: State, card: Card)
    requires s.flight.Working?
  {
    && s.flight.card.Some? && AgentChunks(s.flight.card.value.skills) != [] && SameIndex(s.flight.card.value, card)
    && Landed(s.rows, s.flight.plan, s.flight.pc)
  }

  ghost predicate ShowsCard(embed: string -> Vector, s: State, agentId: string, card: Card) {
    Queued(s, agentId) || if InFlight(s, agentId) then Current(s, card) else Indexes(embed, s.rows, agentId, card)
  }

  ghost predicate InStep(embed: string -> Vector, s: State, agentId: string) {
    var wanted := Wanted(VersionsOf(s, agentId));
    wanted.Some? ==> ShowsCard(embed, s, agentId, wanted.value)
  }

  ghost predicate Bookkeeping(embed: string -> Vector, s: State) {
    && Genuine(embed, s.rows)
    && (forall m :: m in s.queue ==> m < s.nextMsg)
    && (forall i :: 0 <= i < |s.batch| ==> s.batch[i] in s.queue)
    && (forall i, j :: 0 <= i < j < |s.batch| ==> s.batch[i] != s.batch[j])
    && (s.flight.Working? ==>
          && s.batch != [] && s.batch[0] == s.flight.msg && s.queue[s.flight.msg] == s.flight.agentId
          && s.flight.pc <= |s.flight.plan|
          && s.flight.plan ==
             (if s.flight.card.Some? then AgentPlan(embed, s.flight.agentId, s.flight.card.value) else []))
  }

  ghost predicate Inv(embed: string -> Vector, s: State) {
    Bookkeeping(embed, s) && forall id :: InStep(embed, s, id)
  }

  ghost predicate SameRows(before: Rows, after: Rows, agentId: string) {
    forall key: RowKey :: key.entity == Agent(agentId) ==>
      (key in before <==> key in after) && (key in before ==> before[key] == after[key])
  }

  lemma IndexesKept(embed: string -> Vector, before: Rows, after: Rows, agentId: string, c: Card, d: Card)
    requires Indexes(embed, before, agentId, c) && SameRows(before, after, agentId) && SameIndex(c, d)
    ensures Indexes(embed, after, agentId, d)
  {
    hide Texts, Domain, NewRow;
    forall kind, j: nat | kind in AGENT_KINDS ensures IndexesAt(embed, after, agentId, d, kind, j) {
      assert IndexesAt(embed, before, agentId, c, kind, j);
      assert RowKey(Agent(agentId), kind, j).entity == Agent(agentId);
    }
  }

  lemma StillLanded(embed: string -> Vector, before: Rows, after: Rows, agentId: string, card: Card, k: nat)
    requires Landed(before, AgentPlan(embed, agentId, card), k) && SameRows(before, after, agentId)
    requires k <= |AgentPlan(embed, agentId, card)|
    ensures Landed(after, AgentPlan(embed, agentId, card), k)
  {
    var plan := AgentPlan(embed, agentId, card);
    AgentPlanFits(embed, agentId, card);
    hide AgentPlan;
    forall i | 0 <= i < k ensures Shows(after, plan[i]) {
      assert Shows(before, plan[i]) && Touches(plan[i], Agent(agentId));
    }
  }

  lemma SameCard(c: Card)
    ensures SameIndex(c, c)
  {
  }

  lemma WriteKeepsInStep(embed: string -> Vector, s: State, id: string)
    requires Bookkeeping(embed, s) && Enabled(s, Write) && InStep(embed, s, id)
    ensures Genuine(embed, Do(embed, s, Write).rows) && InStep(embed, Do(embed, s, Write), id)
  {
    hide AgentPlan, Wanted, SameIndex, Indexes, Fetched, AgentChunks;
    var s' := Do(embed, s, Write);
    var w := s.flight.plan[s.flight.pc];
    AgentPlanFits(embed, s.flight.agentId, s.flight.card.value);
    assert GenuineWrite(embed, w) && Touches(w, Agent(s.flight.agentId));
    ApplyKeepsGenuine(embed, s.rows, w);
    var wanted := Wanted(VersionsOf(s, id));
    if wanted.Some? {
      if Queued(s, id) {
        var m :| m in s.queue && s.queue[m] == id && s.flight.msg != m;
        assert m in s'.queue;
      } else if s.flight.agentId == id {
        LandOne(embed, s.rows, s.flight.plan, s.flight.pc);
      } else {
        SameCard(wanted.value);
        IndexesKept(embed, s.rows, s'.rows, id, wanted.value, wanted.value);
      }
    }
  }

  lemma DoneKeepsInStep(embed: string -> Vector, s: State, a: Action, id: string)
    requires Bookkeeping(embed, s) && a in {Begin, Fail, Ack, Crash} && Enabled(s, a) && InStep(embed, s, id)
    ensures InStep(embed, Do(embed, s, a), id)
  {
    var s' := Do(embed, s, a);
    var wanted := Wanted(VersionsOf(s, id));
    if wanted.Some? {
      SameCard(wanted.value);
      assert wanted == Fetched(VersionsOf(s, id)) && AgentChunks(wanted.value.skills) != [];
      hide AgentPlan, Wanted, SameIndex, Indexes, Fetched, AgentChunks;
      if Queued(s, id) {
        var m :| m in s.queue && s.queue[m] == id && !(s.flight.Working? && s.flight.msg == m);
        assert m in s'.queue;
      } else if InFlight(s, id) {
        if a == Ack {
          LandedIndexes(embed, s.rows, id, s.flight.card.value);
          assert SameRows(s.rows, s.rows, id);
          IndexesKept(embed, s.rows, s.rows, id, s.flight.card.value, wanted.value);
        } else {
          assert s.flight.msg in s'.queue;
        }
      }
    }
  }

  /** Row changes and reads leave the queued messages, the pass in flight and other agents alone, and
      the rows of an agent that keeps a version. */
  lemma ChangeKeepsRest(embed: string -> Vector, s: State, a: Action, id: string)
    requires Bookkeeping(embed, s) && (a.Put? || a.Remove? || a.Read?) && Enabled(s, a)
    requires VersionsOf(Do(embed, s, a), id) != map[]
    ensures var s' := Do(embed, s, a);
            && s'.flight == s.flight && SameRows(s.rows, s'.rows, id)
            && (forall m :: m in s.queue ==> m in s'.queue && s'.queue[m] == s.queue[m])
            && (s.flight.Working? ==> s.flight.msg in s.queue)
            && (a.Read? || a.agentId != id ==> VersionsOf(s', id) == VersionsOf(s, id))
            && (Rings(s, a) && a.agentId == id ==> s.nextMsg in s'.queue && s'.queue[s.nextMsg] == id && s.nextMsg !in s.queue)
  {
    hide AgentPlan;
  }

  lemma NoVersionsNothingWanted()
    ensures Wanted(map[]) == None
  {
    var none: Versions := map[];
    assert forall v :: v !in none;
  }

  lemma ChangeKeepsInStep(embed: string -> Vector, s: State, a: Action, id: string)
    requires Bookkeeping(embed, s) && (a.Put? || a.Remove? || a.Read?) && Enabled(s, a) && RingsOnIndex(embed, s, a)
    requires InStep(embed, s, id)
    ensures InStep(embed, Do(embed, s, a), id)
  {
    var s' := Do(embed, s, a);
    var before, after := Wanted(VersionsOf(s, id)), Wanted(VersionsOf(s', id));
    NoVersionsNothingWanted();
    if after.Some? {
      ChangeKeepsRest(embed, s, a, id);
      assert (Rings(s, a) && a.agentId == id) || (before.Some? && SameIndex(before.value, after.value)) by {
        if a.Read? || a.agentId != id {
          SameCard(after.value);
        }
      }
      Transitive(s, before, after);
      hide AgentPlan, Wanted, SameIndex, Indexes, Do, Rings, Fetched, AgentChunks, Landed, SameRows;
      if Rings(s, a) && a.agentId == id {
        assert Queued(s', id);
      } else if Queued(s, id) {
        var m :| m in s.queue && s.queue[m] == id && !(s.flight.Working? && s.flight.msg == m);
        assert m in s'.queue;
      } else if InFlight(s, id) {
        StillLanded(embed, s.rows, s'.rows, id, s.flight.card.value, s.flight.pc);
      } else {
        IndexesKept(embed, s.rows, s'.rows, id, before.value, after.value);
      }
    }
  }

  lemma Transitive(s: State, before: Option<Card>, after: Option<Card>)
    ensures s.flight.Working? && s.flight.card.Some? && before.Some? && after.Some?
            && SameIndex(s.flight.card.value, before.value) && SameIndex(before.value, after.value) ==>
            SameIndex(s.flight.card.value, after.value)
  {
  }

  /** What every step keeps: an agent whose card has chunks has a message queued, or is being indexed
      from a card that shows the same, or its rows are exactly the card's. */
  lemma StepKeepsInv(embed: string -> Vector, s: State, a: Action)
    requires Inv(embed, s) && Enabled(s, a) && RingsOnIndex(embed, s, a)
    ensures Inv(embed, Do(embed, s, a))
  {
    var s' := Do(embed, s, a);
    assert Bookkeeping(embed, s') by { StepKeepsBooks(embed, s, a); }
    hide Do, Bookkeeping, RingsOnIndex, Enabled;
    forall id ensures InStep(embed, s', id) {
      assert InStep(embed, s, id);
      hide InStep;
      if a == Write {
        WriteKeepsInStep(embed, s, id);
      } else if a in {Begin, Fail, Ack, Crash} {
        DoneKeepsInStep(embed, s, a, id);
      } else {
        ChangeKeepsInStep(embed, s, a, id);
      }
    }
  }

  lemma StepKeepsBooks(embed: string -> Vector, s: State, a: Action)
    requires Bookkeeping(embed, s) && Enabled(s, a)
    ensures Bookkeeping(embed, Do(embed, s, a))
  {
    hide AgentPlan, Fetched, Rings;
    if a == Write {
      AgentPlanFits(embed, s.flight.agentId, s.flight.card.value);
      assert GenuineWrite(embed, s.flight.plan[s.flight.pc]);
      ApplyKeepsGenuine(embed, s.rows, s.flight.plan[s.flight.pc]);
    }
  }

  lemma {:induction false} RunKeepsInv(embed: string -> Vector, acts: seq<Action>)
    requires Run(embed, acts).Some? && AllRing(embed, acts)
    ensures Inv(embed, Run(embed, acts).value)
  {
    if acts == [] {
      NoVersionsNothingWanted();
    } else {
      RunKeepsInv(embed, acts[..|acts| - 1]);
      StepKeepsInv(embed, Run(embed, acts[..|acts| - 1]).value, acts[|acts| - 1]);
    }
  }

  lemma NothingInFlight(embed: string -> Vector, s: State, id: string)
    requires Bookkeeping(embed, s) && forall m :: m in s.queue ==> s.queue[m] != id
    ensures !InFlight(s, id)
  {
  }

  /** Convergence over whole runs, provided that the changes after which the index should show something
      else ring: after any run of version changes, deletions, reads, single statements, failures,
      crashes, redeliveries and acknowledgements, an agent with no message in the queue whose highest
      active version has chunks has exactly that version's phrases and domain in the index. */
  lemma AgentIndexConverges(embed: string -> Vector, acts: seq<Action>, id: string)
    requires Run(embed, acts).Some? && AllRing(embed, acts)
    requires var s := Run(embed, acts).value;
             Wanted(VersionsOf(s, id)).Some? && forall m :: m in s.queue ==> s.queue[m] != id
    ensures var s := Run(embed, acts).value; Indexes(embed, s.rows, id, Wanted(VersionsOf(s, id)).value)
  {
    RunKeepsInv(embed, acts);
    var s := Run(embed, acts).value;
    assert InStep(embed, s, id) && !Queued(s, id);
    NothingInFlight(embed, s, id);
  }

  // ── changes that ring ────────────────────────────────────────────────────

  predicate Numbered(s: State) {
    forall m :: m in s.queue ==> m < s.nextMsg
  }

  lemma StepNumbers(embed: string -> Vector, s: State, a: Action)
    requires Numbered(s) && Enabled(s, a)
    ensures Numbered(Do(embed, s, a))
  {
    hide NewFlight, Rings;
  }

  lemma {:induction false} MessagesAreNumbered(embed: string -> Vector, acts: seq<Action>)
    requires Run(embed, acts).Some?
    ensures Numbered(Run(embed, acts).value)
  {
    if acts != [] {
      MessagesAreNumbered(embed, acts[..|acts| - 1]);
      StepNumbers(embed, Run(embed, acts[..|acts| - 1]).value, acts[|acts| - 1]);
    }
  }

  /** A message about the agent is queued that was not there before, and none is lost. */
  ghost predicate Enqueued(before: map<nat, string>, after: map<nat, string>, id: string) {
    (exists m :: m !in before && m in after && after[m] == id) && forall m :: m in before ==> m in after && after[m] == before[m]
  }

  /** After any run, the insertion of a version, in whatever status, and every change of anything in a
      version's skills queues a message about the agent. */
  lemma SkillEditIsQueued(embed: string -> Vector, acts: seq<Action>, id: string, v: int, row: Version)
    requires Run(embed, acts).Some?
    requires var vs := VersionsOf(Run(embed, acts).value, id);
             v !in vs || vs[v].card.skills != row.card.skills || vs[v].rest != row.rest
    ensures var s := Run(embed, acts).value;
            var s' := Do(embed, s, Put(id, v, row));
            VersionsOf(s', id) == VersionsOf(s, id)[v := row] && Enqueued(s.queue, s'.queue, id)
  {
    var s := Run(embed, acts).value;
    MessagesAreNumbered(embed, acts);
    assert Do(embed, s, Put(id, v, row)).queue[s.nextMsg] == id && s.nextMsg !in s.queue;
  }

  /** The step changes versions only by inserting them, by editing their skills, or by deleting ones that
      are not active: status and domain stay as inserted. */
  predicate IsPlain(s: State, a: Action) {
    match a
    case Put(id, v, row) =>
      var vs := VersionsOf(s, id);
      v in vs ==> row.active == vs[v].active && row.card.domain == vs[v].card.domain
    case Remove(id, v) => v in VersionsOf(s, id) ==> !VersionsOf(s, id)[v].active
    case _ => true
  }

  ghost predicate AllPlain(embed: string -> Vector, acts: seq<Action>)
    requires Run(embed, acts).Some?
  {
    acts == [] || (AllPlain(embed, acts[..|acts| - 1]) && IsPlain(Run(embed, acts[..|acts| - 1]).value, acts[|acts| - 1]))
  }

  lemma InactiveIsNotFetched(vs: Versions, v: int)
    requires v in vs && !vs[v].active
    ensures Fetched(vs - {v}) == Fetched(vs)
  {
    var rest := vs - {v};
    assert (set w | w in vs && vs[w].active) == (set w | w in rest && rest[w].active);
  }

  lemma PlainStepRings(embed: string -> Vector, s: State, a: Action)
    requires Enabled(s, a) && IsPlain(s, a)
    ensures RingsOnIndex(embed, s, a)
  {
    if (a.Put? || a.Remove?) && !Rings(s, a) {
      var s', id := Do(embed, s, a), a.agentId;
      var before, after := Wanted(VersionsOf(s, id)), Wanted(VersionsOf(s', id));
      if a.Put? {
        assert VersionsOf(s, id)[a.version := a.row] == VersionsOf(s, id);
        assert VersionsOf(s', id) == VersionsOf(s, id);
      } else {
        InactiveIsNotFetched(VersionsOf(s, id), a.version);
        assert VersionsOf(s', id) == VersionsOf(s, id) - {a.version};
      }
      assert before == after;
      if after.Some? {
        SameCard(after.value);
      }
    }
  }

  lemma {:induction false} PlainChangesRing(embed: string -> Vector, acts: seq<Action>)
    requires Run(embed, acts).Some? && AllPlain(embed, acts)
    ensures AllRing(embed, acts)
  {
    if acts != [] {
      PlainChangesRing(embed, acts[..|acts| - 1]);
      PlainStepRings(embed, Run(embed, acts[..|acts| - 1]).value, acts[|acts| - 1]);
    }
  }

  /** Convergence without any assumption about the trigger, for runs that change versions only by
      inserting them, editing their skills and deleting inactive ones. */
  lemma PlainChangesConverge(embed: string -> Vector, acts: seq<Action>, id: string)
    requires Run(embed, acts).Some? && AllPlain(embed, acts)
    requires var s := Run(embed, acts).value;
             Wanted(VersionsOf(s, id)).Some? && forall m :: m in s.queue ==> s.queue[m] != id
    ensures var s := Run(embed, acts).value; Indexes(embed, s.rows, id, Wanted(VersionsOf(s, id)).value)
  {
    PlainChangesRing(embed, acts);
    AgentIndexConverges(embed, acts, id);
  }

  /** The deletion of a version takes the agent's rows along exactly when it was the last one; no other
      agent loses a row. */
  lemma LastRemovalCleans(embed: string -> Vector, s: State, id: string, v: int)
    requires v in VersionsOf(s, id)
    ensures var s' := Do(embed, s, Remove(id, v));
            && SameElsewhere(s.rows, s'.rows, Agent(id))
            && (if exists w :: w in VersionsOf(s, id) && w != v then s'.rows == s.rows
                else id !in s'.agents && forall key :: key in s'.rows ==> key.entity != Agent(id))
  {
    var vs := VersionsOf(s, id) - {v};
    if w :| w in VersionsOf(s, id) && w != v {
      assert w in vs;
    } else {
      assert forall w :: w !in vs;
      assert vs == map[];
    }
  }

  // ── the condition is exact ───────────────────────────────────────────────

  lemma IndexesDetermine(embed: string -> Vector, rows: Rows, agentId: string, c: Card, d: Card)
    requires Indexes(embed, rows, agentId, c) && Indexes(embed, rows, agentId, d) && AgentChunks(c.skills) != []
    ensures SameIndex(c, d)
  {
    forall kind ensures Texts(c.skills, kind) == Texts(d.skills, kind) {
      if kind == Anchor || kind == Body {
        NoTexts(c.skills, kind);
        NoTexts(d.skills, kind);
      } else {
        SameTexts(embed, rows, agentId, c, d, kind);
      }
    }
    var first := AgentChunks(c.skills)[0];
    AgentKind(c.skills, 0);
    ChunksArePhrases(c.skills, first);
    assert IndexesAt(embed, rows, agentId, c, first.kind, first.index) && IndexesAt(embed, rows, agentId, d, first.kind, first.index);
  }

  lemma SameTexts(embed: string -> Vector, rows: Rows, agentId: string, c: Card, d: Card, kind: Kind)
    requires Indexes(embed, rows, agentId, c) && Indexes(embed, rows, agentId, d) && kind != Anchor && kind != Body
    ensures Texts(c.skills, kind) == Texts(d.skills, kind)
  {
    assert AGENT_KINDS[0] == Description && AGENT_KINDS[1] == UseWhen && AGENT_KINDS[2] == Example;
    assert kind in AGENT_KINDS;
    var a, b := Texts(c.skills, kind), Texts(d.skills, kind);
    hide Texts;
    assert IndexesAt(embed, rows, agentId, c, kind, |a|) && IndexesAt(embed, rows, agentId, d, kind, |a|);
    assert IndexesAt(embed, rows, agentId, c, kind, |b|) && IndexesAt(embed, rows, agentId, d, kind, |b|);
    forall i: nat | i < |a| ensures i < |b| && a[i] == b[i] {
      assert IndexesAt(embed, rows, agentId, c, kind, i) && IndexesAt(embed, rows, agentId, d, kind, i);
    }
  }

  /** The condition is exact for an agent that shows something: a change of the status or of metadata
      never rings, and neither does a deletion. When such a change
      of an agent that is in step and has no message makes another card the wanted one, no message is
      queued, and the index is exact if and only if that card shows the same phrases and domain. */
  lemma SilentChange(embed: string -> Vector, s: State, a: Action)
    requires Inv(embed, s) && Enabled(s, a) && (a.Put? || a.Remove?) && !Rings(s, a)
    requires forall m :: m in s.queue ==> s.queue[m] != a.agentId
    requires Wanted(VersionsOf(s, a.agentId)).Some? && Wanted(VersionsOf(Do(embed, s, a), a.agentId)).Some?
    ensures var s' := Do(embed, s, a);
            var before, after := Wanted(VersionsOf(s, a.agentId)).value, Wanted(VersionsOf(s', a.agentId)).value;
            && (forall m :: m in s'.queue ==> s'.queue[m] != a.agentId)
            && (Indexes(embed, s'.rows, a.agentId, after) <==> SameIndex(before, after))
  {
    var s', id := Do(embed, s, a), a.agentId;
    var before, after := Wanted(VersionsOf(s, id)).value, Wanted(VersionsOf(s', id)).value;
    NoVersionsNothingWanted();
    ChangeKeepsRest(embed, s, a, id);
    assert InStep(embed, s, id) && !Queued(s, id);
    NothingInFlight(embed, s, id);
    SameCard(before);
    assert AgentChunks(before.skills) != [];
    hide Wanted, SameIndex, Indexes, Do, SameRows, AgentChunks;
    IndexesKept(embed, s.rows, s'.rows, id, before, before);
    if SameIndex(before, after) {
      IndexesKept(embed, s.rows, s'.rows, id, before, after);
    }
    if Indexes(embed, s'.rows, id, after) {
      IndexesDetermine(embed, s'.rows, id, before, after);
    }
  }

  // ── first activation ─────────────────────────────────────────────────────

  /** At no point of the run did the agent have an active version whose card has chunks. */
  ghost predicate NeverWanted(embed: string -> Vector, acts: seq<Action>, id: string)
    requires Run(embed, acts).Some?
  {
    Wanted(VersionsOf(Run(embed, acts).value, id)) == None && (acts == [] || NeverWanted(embed, acts[..|acts| - 1], id))
  }

  ghost predicate Untouched(s: State, id: string) {
    (forall key :: key in s.rows ==> key.entity != Agent(id)) && (InFlight(s, id) ==> s.flight.plan == [])
  }

  lemma StepKeepsUntouched(embed: string -> Vector, s: State, a: Action, id: string)
    requires Bookkeeping(embed, s) && Enabled(s, a) && Wanted(VersionsOf(s, id)) == None && Untouched(s, id)
    ensures Untouched(Do(embed, s, a), id)
  {
    if a == Write {
      AgentPlanFits(embed, s.flight.agentId, s.flight.card.value);
      hide AgentPlan, Wanted, Fetched;
      var w := s.flight.plan[s.flight.pc];
      assert Touches(w, Agent(s.flight.agentId)) && s.flight.agentId != id;
    } else {
      hide Fetched, Rings;
    }
  }

  lemma {:induction false} RunKeepsBooks(embed: string -> Vector, acts: seq<Action>)
    requires Run(embed, acts).Some?
    ensures Bookkeeping(embed, Run(embed, acts).value)
  {
    if acts != [] {
      RunKeepsBooks(embed, acts[..|acts| - 1]);
      StepKeepsBooks(embed, Run(embed, acts[..|acts| - 1]).value, acts[|acts| - 1]);
    }
  }

  /** An agent that never had anything to show has no rows, and is in step all the same. */
  lemma {:induction false} NeverWantedHasNoRows(embed: string -> Vector, acts: seq<Action>, id: string)
    requires Run(embed, acts).Some? && NeverWanted(embed, acts, id)
    ensures Untouched(Run(embed, acts).value, id)
  {
    if acts != [] {
      var front := acts[..|acts| - 1];
      NeverWantedHasNoRows(embed, front, id);
      RunKeepsBooks(embed, front);
      StepKeepsUntouched(embed, Run(embed, front).value, acts[|acts| - 1], id);
    }
  }

  lemma NoRowsIndexNothing(embed: string -> Vector, rows: Rows, id: string, card: Card)
    requires (forall key :: key in rows ==> key.entity != Agent(id)) && AgentChunks(card.skills) != []
    ensures !Indexes(embed, rows, id, card)
  {
    var first := AgentChunks(card.skills)[0];
    AgentKind(card.skills, 0);
    ChunksArePhrases(card.skills, first);
    assert first.index < |Texts(card.skills, first.kind)|;
    hide Texts, AgentChunks;
    assert !IndexesAt(embed, rows, id, card, first.kind, first.index);
  }

  /** The other half of the condition: when, after any run, a change that does not ring gives an agent
      without messages its first card to show, no message is queued and the index is wrong. */
  lemma FirstCardIsSilent(embed: string -> Vector, acts: seq<Action>, a: Action)
    requires Run(embed, acts).Some? && Enabled(Run(embed, acts).value, a) && (a.Put? || a.Remove?)
    requires var s := Run(embed, acts).value;
             && !Rings(s, a) && NeverWanted(embed, acts, a.agentId) && (forall m :: m in s.queue ==> s.queue[m] != a.agentId)
             && Wanted(VersionsOf(Do(embed, s, a), a.agentId)).Some?
    ensures var s' := Do(embed, Run(embed, acts).value, a);
            && (forall m :: m in s'.queue ==> s'.queue[m] != a.agentId)
            && !Indexes(embed, s'.rows, a.agentId, Wanted(VersionsOf(s', a.agentId)).value)
  {
    var s, id := Run(embed, acts).value, a.agentId;
    var s' := Do(embed, s, a);
    NeverWantedHasNoRows(embed, acts, id);
    RunKeepsBooks(embed, acts);
    StepKeepsUntouched(embed, s, a, id);
    var card := Wanted(VersionsOf(s', id)).value;
    assert AgentChunks(card.skills) != [];
    hide Wanted, AgentChunks, Indexes;
    NoRowsIndexNothing(embed, s'.rows, id, card);
  }

  lemma NextIs(embed: string -> Vector, p: seq<Action>, s: State, a: Action, t: State) returns (p': seq<Action>)
    requires Run(embed, p) == Some(s) && Enabled(s, a) && Do(embed, s, a) == t
    ensures p' == p + [a] && Run(embed, p') == Some(t)
  {
    p' := p + [a];
    assert p'[..|p|] == p;
  }

  lemma OneVersion(v: int, row: Version)
    ensures Fetched(map[v := row]) == if row.active then Some(row.card) else None
  {
    var vs: Versions := map[v := row];
    var active := set x | x in vs && vs[x].active;
    assert active == if row.active then {v} else {};
  }

  function DraftState(id: string, v: int, row: Version): State {
    State(map[id := map[v := row]], map[], 1, [], Idle, map[])
  }

  /** A draft is inserted and its message acknowledged: no row is written. */
  lemma DraftAcknowledged(embed: string -> Vector, id: string, v: int, row: Version)
    requires !row.active
    ensures Run(embed, [Put(id, v, row), Read([0]), Begin, Ack]) == Some(DraftState(id, v, row))
  {
    OneVersion(v, row);
    var s1 := DraftState(id, v, row).(queue := map[0 := id]);
    var s2 := s1.(batch := [0]);
    var s3 := s2.(flight := Working(0, id, None, [], 0));
    assert Run(embed, []) == Some(INIT);
    assert map[0 := id] - {0} == map[];
    assert Do(embed, INIT, Put(id, v, row)) == s1;
    assert Do(embed, s1, Read([0])) == s2;
    assert NewFlight(embed, s2) == s3.flight && Do(embed, s2, Begin) == s3;
    assert Do(embed, s3, Ack) == DraftState(id, v, row);
    hide Run, Fetched, Do;
    var p := NextIs(embed, [], INIT, Put(id, v, row), s1);
    p := NextIs(embed, p, s1, Read([0]), s2);
    p := NextIs(embed, p, s2, Begin, s3);
    p := NextIs(embed, p, s3, Ack, DraftState(id, v, row));
    assert p == [Put(id, v, row), Read([0]), Begin, Ack];
  }

  /** Such a run, for every agent and every card with chunks: the draft is then activated, and nothing is
      left to index it. */
  lemma ActivatedDraftIsNotIndexed(embed: string -> Vector, id: string, v: int, card: Card, rest: string)
    requires AgentChunks(card.skills) != []
    ensures var draft, active := Version(false, card, rest), Version(true, card, rest);
            var run := Run(embed, [Put(id, v, draft), Read([0]), Begin, Ack] + [Put(id, v, active)]);
            && run.Some? && run.value.queue == map[] && Wanted(VersionsOf(run.value, id)) == Some(card)
            && !Indexes(embed, run.value.rows, id, card)
  {
    var draft, active := Version(false, card, rest), Version(true, card, rest);
    var s, t := DraftState(id, v, draft), DraftState(id, v, active);
    ActivateDraft(embed, id, v, card, rest);
    DraftAcknowledged(embed, id, v, draft);
    NoRowsIndexNothing(embed, map[], id, card);
    assert t.queue == map[] && t.rows == map[];
    hide *;
    var p := NextIs(embed, [Put(id, v, draft), Read([0]), Begin, Ack], s, Put(id, v, active), t);
  }

  lemma ActivateDraft(embed: string -> Vector, id: string, v: int, card: Card, rest: string)
    requires AgentChunks(card.skills) != []
    ensures var draft, active := Version(false, card, rest), Version(true, card, rest);
            var s, t := DraftState(id, v, draft), DraftState(id, v, active);
            Enabled(s, Put(id, v, active)) && Do(embed, s, Put(id, v, active)) == t && Wanted(VersionsOf(t, id)) == Some(card)
  {
    var draft, active := Version(false, card, rest), Version(true, card, rest);
    var s, t := DraftState(id, v, draft), DraftState(id, v, active);
    OneVersion(v, active);
    hide Fetched, AgentChunks;
    assert VersionsOf(s, id)[v := active] == map[v := active];
    assert s.agents[id := map[v := active]] == t.agents;
    assert !Rings(s, Put(id, v, active));
  }

  /** The version is active and no active one is higher. */
  ghost predicate IsHighest(vs: Versions, v: int) {
    v in vs && vs[v].active && forall w :: w in vs && vs[w].active ==> w <= v
  }

  lemma HighestIsFetched(vs: Versions, v: int)
    requires IsHighest(vs, v)
    ensures Fetched(vs) == Some(vs[v].card)
  {
    var active := set w | w in vs && vs[w].active;
    assert v in active && Greatest(active) in active;
  }

  /** Edits of the domain, status flips and deletions never ring. */
  lemma OnlySkillsRing(s: State, id: string, version: int, domain: string)
    requires version in VersionsOf(s, id)
    ensures var row := VersionsOf(s, id)[version];
            !Rings(s, Put(id, version, row.(card := row.card.(domain := domain)))) && !Rings(s, Put(id, version, row.(active := !row.active)))
            && !Rings(s, Remove(id, version))
  {
  }

  /** Nor is an edit of the domain of the version shown ever indexed: no message is queued, and the
      index, right before the edit, is wrong after it. */
  lemma DomainEditIsNotIndexed(embed: string -> Vector, s: State, id: string, version: int, domain: string)
    requires Inv(embed, s) && IsHighest(VersionsOf(s, id), version) && forall m :: m in s.queue ==> s.queue[m] != id
    requires var card := VersionsOf(s, id)[version].card;
             AgentChunks(card.skills) != [] && Domain(card.(domain := domain)) != Domain(card)
    ensures var row := VersionsOf(s, id)[version];
            var edited := row.card.(domain := domain);
            var s' := Do(embed, s, Put(id, version, row.(card := edited)));
            && Indexes(embed, s.rows, id, row.card)
            && (forall m :: m in s'.queue ==> s'.queue[m] != id)
            && Wanted(VersionsOf(s', id)) == Some(edited) && !Indexes(embed, s'.rows, id, edited)
  {
    var row := VersionsOf(s, id)[version];
    var edited := row.card.(domain := domain);
    var a := Put(id, version, row.(card := edited));
    var vs' := VersionsOf(s, id)[version := row.(card := edited)];
    assert VersionsOf(Do(embed, s, a), id) == vs' && IsHighest(vs', version) && !Rings(s, a);
    HighestIsFetched(VersionsOf(s, id), version);
    HighestIsFetched(vs', version);
    assert Wanted(VersionsOf(s, id)) == Some(row.card) && Wanted(vs') == Some(edited);
    assert InStep(embed, s, id) && !Queued(s, id);
    NothingInFlight(embed, s, id);
    hide Wanted, Fetched, Do, Indexes, AgentChunks;
    SilentChange(embed, s, a);
  }
}
