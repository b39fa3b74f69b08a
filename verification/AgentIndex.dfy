/** Agent routing vectors: src/oneops/embeddings/agent_input.py and database/agent/worker.py. */
module AgentIndex {
  import opened Text
  import opened VectorIndex

  /** A card's skill; absent or null fields read as empty. */
  datatype Skill = Skill(description: string, useWhen: seq<string>, examples: seq<string>)

  datatype Card = Card(domain: string, skills: seq<Skill>)

  datatype Chunk = Chunk(kind: Kind, index: nat, text: string)

  const AGENT_KINDS: seq<Kind> := [Description, UseWhen, Example]

  // ── reference: the phrases of each kind, in card order ───────────────────

  function Clean(phrases: seq<string>): seq<string> {
    if phrases == [] then []
    else
      var text := Strip(phrases[|phrases| - 1]);
      Clean(phrases[..|phrases| - 1]) + if text != "" then [text] else []
  }

  function SkillTexts(skill: Skill, kind: Kind): seq<string> {
    match kind
    case Description => Clean([skill.description])
    case UseWhen => Clean(skill.useWhen)
    case Example => Clean(skill.examples)
    case _ => []
  }

  /** All phrases of one kind across the skills of a card. */
  function Texts(skills: seq<Skill>, kind: Kind): seq<string> {
    if skills == [] then [] else Texts(skills[..|skills| - 1], kind) + SkillTexts(skills[|skills| - 1], kind)
  }

  // ── the builder ──────────────────────────────────────────────────────────

  function Numbered(kind: Kind, start: nat, texts: seq<string>): seq<Chunk> {
    seq(|texts|, i requires 0 <= i < |texts| => Chunk(kind, start + i, texts[i]))
  }

  /** The chunks of one skill, numbered on from the skills before it. */
  function SkillChunks(before: seq<Skill>, skill: Skill): seq<Chunk> {
    Numbered(Description, |Texts(before, Description)|, SkillTexts(skill, Description))
    + Numbered(UseWhen, |Texts(before, UseWhen)|, SkillTexts(skill, UseWhen))
    + Numbered(Example, |Texts(before, Example)|, SkillTexts(skill, Example))
  }

  function AgentChunks(skills: seq<Skill>): seq<Chunk> {
    if skills == [] then []
    else AgentChunks(skills[..|skills| - 1]) + SkillChunks(skills[..|skills| - 1], skills[|skills| - 1])
  }

  method PhraseChunks(phrases: seq<string>, kind: Kind, startIdx: nat) returns (out: seq<Chunk>, idx: nat)
    ensures out == Numbered(kind, startIdx, Clean(phrases))
    ensures idx == startIdx + |Clean(phrases)|
  {
    out, idx := [], startIdx;
    for k := 0 to |phrases|
      invariant out == Numbered(kind, startIdx, Clean(phrases[..k]))
      invariant idx == startIdx + |Clean(phrases[..k])|
    {
      var text := Strip(phrases[k]);
      assert phrases[..k + 1][..k] == phrases[..k];
      if text != "" {
        out := out + [Chunk(kind, idx, text)];
        idx := idx + 1;
      }
    }
    assert phrases[..|phrases|] == phrases;
  }

  lemma OneMoreSkill(skills: seq<Skill>, k: nat, kind: Kind)
    requires k < |skills|
    ensures AgentChunks(skills[..k + 1]) == AgentChunks(skills[..k]) + SkillChunks(skills[..k], skills[k])
    ensures Texts(skills[..k + 1], kind) == Texts(skills[..k], kind) + SkillTexts(skills[k], kind)
  {
    assert skills[..k + 1][..k] == skills[..k];
  }

  lemma CleanOne(phrase: string)
    ensures Clean([phrase]) == if Strip(phrase) != "" then [Strip(phrase)] else []
  {
    assert [phrase][..0] == [];
  }

  /** One pass of the source's loop over the skills, counters included. */
  method BuildSkill(ghost before: seq<Skill>, skill: Skill, descI: nat, uwI: nat, exI: nat)
    returns (out: seq<Chunk>, descNext: nat, uwNext: nat, exNext: nat)
    requires descI == |Texts(before, Description)| && uwI == |Texts(before, UseWhen)| && exI == |Texts(before, Example)|
    ensures out == SkillChunks(before, skill)
    ensures descNext == descI + |SkillTexts(skill, Description)|
    ensures uwNext == uwI + |SkillTexts(skill, UseWhen)| && exNext == exI + |SkillTexts(skill, Example)|
  {
    hide Strip, Texts, Clean;
    out, descNext := [], descI;
    var desc := Strip(skill.description);
    CleanOne(skill.description);
    if desc != "" {
      out := [Chunk(Description, descI, desc)];
      descNext := descI + 1;
    }
    assert out == Numbered(Description, descI, SkillTexts(skill, Description));
    var uwChunks, exChunks;
    uwChunks, uwNext := PhraseChunks(skill.useWhen, UseWhen, uwI);
    exChunks, exNext := PhraseChunks(skill.examples, Example, exI);
    out := out + uwChunks + exChunks;
  }

  method BuildAgentChunks(skills: seq<Skill>) returns (chunks: seq<Chunk>)
    ensures chunks == AgentChunks(skills)
  {
    chunks := [];
    var descI, uwI, exI := 0, 0, 0;
    for k := 0 to |skills|
      invariant chunks == AgentChunks(skills[..k])
      invariant descI == |Texts(skills[..k], Description)|
      invariant uwI == |Texts(skills[..k], UseWhen)|
      invariant exI == |Texts(skills[..k], Example)|
    {
      OneMoreSkill(skills, k, Description);
      OneMoreSkill(skills, k, UseWhen);
      OneMoreSkill(skills, k, Example);
      var out;
      out, descI, uwI, exI := BuildSkill(skills[..k], skills[k], descI, uwI, exI);
      chunks := chunks + out;
    }
    assert skills[..|skills|] == skills;
  }

  /** The chunk is the phrase its index points at among all the card's phrases of its kind. */
  ghost predicate IsPhrase(c: Chunk, skills: seq<Skill>) {
    c.index < |Texts(skills, c.kind)| && c.text == Texts(skills, c.kind)[c.index]
  }

  ghost predicate DistinctKeys(chunks: seq<Chunk>) {
    forall i, j :: 0 <= i < j < |chunks| ==> chunks[i].kind != chunks[j].kind || chunks[i].index != chunks[j].index
  }

  lemma NumberedMember(c: Chunk, kind: Kind, start: nat, texts: seq<string>)
    ensures c in Numbered(kind, start, texts) <==>
            c.kind == kind && start <= c.index < start + |texts| && c.text == texts[c.index - start]
  {
    if c.kind == kind && start <= c.index < start + |texts| && c.text == texts[c.index - start] {
      assert Numbered(kind, start, texts)[c.index - start] == c;
    }
  }

  lemma SkillChunkMember(c: Chunk, before: seq<Skill>, skill: Skill)
    ensures c in SkillChunks(before, skill) <==>
            var n := |Texts(before, c.kind)|;
            n <= c.index < n + |SkillTexts(skill, c.kind)| && c.text == SkillTexts(skill, c.kind)[c.index - n]
  {
    hide Strip, Texts, Clean, Numbered;
    NumberedMember(c, Description, |Texts(before, Description)|, SkillTexts(skill, Description));
    NumberedMember(c, UseWhen, |Texts(before, UseWhen)|, SkillTexts(skill, UseWhen));
    NumberedMember(c, Example, |Texts(before, Example)|, SkillTexts(skill, Example));
  }

  lemma PhraseStep(c: Chunk, prior: seq<string>, more: seq<string>)
    ensures c.index < |prior + more| && c.text == (prior + more)[c.index] <==>
            || (c.index < |prior| && c.text == prior[c.index])
            || (|prior| <= c.index < |prior| + |more| && c.text == more[c.index - |prior|])
  {
  }

  /** The builder emits exactly the card's phrases: no phrase is lost, none invented, and per kind
      the indices run gap-free across all skills. */
  lemma {:induction false} ChunksArePhrases(skills: seq<Skill>, c: Chunk)
    ensures c in AgentChunks(skills) <==> IsPhrase(c, skills)
  {
    if skills != [] {
      var before, last := skills[..|skills| - 1], skills[|skills| - 1];
      ChunksArePhrases(before, c);
      SkillChunkMember(c, before, last);
      var a, b := AgentChunks(before), SkillChunks(before, last);
      assert c in a + b <==> c in a || c in b;
      PhraseStep(c, Texts(before, c.kind), SkillTexts(last, c.kind));
    }
  }

  /** Stripping one of these phrases gives the text. */
  ghost predicate Holds(phrases: seq<string>, text: string) {
    exists i :: 0 <= i < |phrases| && Strip(phrases[i]) == text
  }

  lemma {:induction false} CleanHolds(phrases: seq<string>, text: string)
    ensures text in Clean(phrases) <==> text != "" && Holds(phrases, text)
  {
    if phrases != [] {
      var front, last := phrases[..|phrases| - 1], phrases[|phrases| - 1];
      CleanHolds(front, text);
      hide Strip;
      assert forall i :: 0 <= i < |front| ==> front[i] == phrases[i];
      assert phrases[|phrases| - 1] == last;
    }
  }

  lemma {:induction false} TextsHold(skills: seq<Skill>, kind: Kind, text: string)
    ensures text in Texts(skills, kind) <==> exists k :: 0 <= k < |skills| && text in SkillTexts(skills[k], kind)
  {
    if skills != [] {
      var front, last := skills[..|skills| - 1], skills[|skills| - 1];
      TextsHold(front, kind, text);
      hide SkillTexts;
      assert forall k :: 0 <= k < |front| ==> front[k] == skills[k];
      assert skills[|skills| - 1] == last;
    }
  }

  ghost predicate HasChunk(skills: seq<Skill>, kind: Kind, text: string) {
    exists i :: 0 <= i < |AgentChunks(skills)| && AgentChunks(skills)[i].kind == kind && AgentChunks(skills)[i].text == text
  }

  lemma HasChunkIff(skills: seq<Skill>, kind: Kind, text: string)
    ensures HasChunk(skills, kind, text) <==> exists k :: 0 <= k < |skills| && text in SkillTexts(skills[k], kind)
  {
    TextsHold(skills, kind, text);
    hide AgentChunks, Texts, SkillTexts;
    if HasChunk(skills, kind, text) {
      var i :| 0 <= i < |AgentChunks(skills)| && AgentChunks(skills)[i].kind == kind && AgentChunks(skills)[i].text == text;
      ChunksArePhrases(skills, AgentChunks(skills)[i]);
    }
    if text in Texts(skills, kind) {
      var j :| 0 <= j < |Texts(skills, kind)| && Texts(skills, kind)[j] == text;
      var c := Chunk(kind, j, text);
      ChunksArePhrases(skills, c);
      var i :| 0 <= i < |AgentChunks(skills)| && AgentChunks(skills)[i] == c;
    }
  }

  /** Which field feeds which kind: a text has a chunk of the kind if and only if it is not blank and is
      what stripping leaves of some skill's description, of one of its use_when phrases, or of one of
      its examples. */
  lemma FieldsAreIndexed(skills: seq<Skill>, text: string)
    ensures HasChunk(skills, Description, text) <==> text != "" && exists k :: 0 <= k < |skills| && Strip(skills[k].description) == text
    ensures HasChunk(skills, UseWhen, text) <==> text != "" && exists k :: 0 <= k < |skills| && Holds(skills[k].useWhen, text)
    ensures HasChunk(skills, Example, text) <==> text != "" && exists k :: 0 <= k < |skills| && Holds(skills[k].examples, text)
  {
    HasChunkIff(skills, Description, text);
    HasChunkIff(skills, UseWhen, text);
    HasChunkIff(skills, Example, text);
    forall k | 0 <= k < |skills|
      ensures text in SkillTexts(skills[k], Description) <==> text != "" && Strip(skills[k].description) == text
      ensures text in SkillTexts(skills[k], UseWhen) <==> text != "" && Holds(skills[k].useWhen, text)
      ensures text in SkillTexts(skills[k], Example) <==> text != "" && Holds(skills[k].examples, text)
    {
      OneSkill(skills[k], text);
    }
  }

  lemma OneSkill(skill: Skill, text: string)
    ensures text in SkillTexts(skill, Description) <==> text != "" && Strip(skill.description) == text
    ensures text in SkillTexts(skill, UseWhen) <==> text != "" && Holds(skill.useWhen, text)
    ensures text in SkillTexts(skill, Example) <==> text != "" && Holds(skill.examples, text)
  {
    CleanOne(skill.description);
    CleanHolds(skill.useWhen, text);
    CleanHolds(skill.examples, text);
    hide Strip, Clean, Holds;
  }

  /** Phrases keep their order. */
  lemma {:induction false} CleanInOrder(a: seq<string>, b: seq<string>)
    ensures Clean(a + b) == Clean(a) + Clean(b)
  {
    if b == [] {
      assert a + b == a;
    } else {
      CleanInOrder(a, b[..|b| - 1]);
      hide Strip;
      assert (a + b)[..|a| + |b| - 1] == a + b[..|b| - 1];
    }
  }

  lemma DistinctAppend(a: seq<Chunk>, b: seq<Chunk>)
    requires DistinctKeys(a) && DistinctKeys(b)
    requires forall c, d :: c in a && d in b ==> c.kind != d.kind || c.index != d.index
    ensures DistinctKeys(a + b)
  {
  }

  lemma SkillChunksDistinct(before: seq<Skill>, skill: Skill)
    ensures DistinctKeys(SkillChunks(before, skill))
  {
    var d := Numbered(Description, |Texts(before, Description)|, SkillTexts(skill, Description));
    var u := Numbered(UseWhen, |Texts(before, UseWhen)|, SkillTexts(skill, UseWhen));
    DistinctAppend(d, u);
    DistinctAppend(d + u, Numbered(Example, |Texts(before, Example)|, SkillTexts(skill, Example)));
  }

  /** No two chunks of a card share the key (kind, index). */
  lemma {:induction false} ChunkKeysDistinct(skills: seq<Skill>)
    ensures DistinctKeys(AgentChunks(skills))
  {
    if skills != [] {
      var before, skill := skills[..|skills| - 1], skills[|skills| - 1];
      ChunkKeysDistinct(before);
      SkillChunksDistinct(before, skill);
      forall c, d | c in AgentChunks(before) && d in SkillChunks(before, skill)
        ensures c.kind != d.kind || c.index != d.index
      {
        ChunksArePhrases(before, c);
        SkillChunkMember(d, before, skill);
      }
      DistinctAppend(AgentChunks(before), SkillChunks(before, skill));
    }
  }

  // ── the worker ───────────────────────────────────────────────────────────

  function UpsertPlan(embed: string -> Vector, agentId: string, domain: string, chunks: seq<Chunk>): seq<Write> {
    seq(|chunks|, i requires 0 <= i < |chunks| =>
      Upsert(RowKey(Agent(agentId), chunks[i].kind, chunks[i].index), NewRow(embed, chunks[i].text, domain)))
  }

  function MaxIndex(chunks: seq<Chunk>, kind: Kind): int {
    if chunks == [] then -1
    else
      var last := chunks[|chunks| - 1];
      var m := MaxIndex(chunks[..|chunks| - 1], kind);
      if last.kind == kind then Max(m, last.index) else m
  }

  function PrunePlan(agentId: string, chunks: seq<Chunk>): seq<Write> {
    seq(3, i requires 0 <= i < 3 => Prune(Agent(agentId), AGENT_KINDS[i], MaxIndex(chunks, AGENT_KINDS[i])))
  }

  function Domain(card: Card): string {
    var d := Strip(if card.domain == "" then "itsm" else card.domain);
    if d == "" then "itsm" else d
  }

  /** The stripped domain of the card, "itsm" when there is none. */
  lemma DomainOrDefault(card: Card)
    ensures Domain(card) == if Strip(card.domain) == "" then "itsm" else Strip(card.domain)
  {
    StripIs("itsm", "", "itsm", "");
    assert "itsm" == "" + "itsm" + "";
  }

  /** The statements `process` issues for an active card; none at all when the card has no chunks. */
  function AgentPlan(embed: string -> Vector, agentId: string, card: Card): seq<Write> {
    var chunks := AgentChunks(card.skills);
    if chunks == [] then []
    else UpsertPlan(embed, agentId, Domain(card), chunks) + PrunePlan(agentId, chunks)
  }

  lemma PlanAt(embed: string -> Vector, agentId: string, card: Card, i: nat)
    requires i < |AgentPlan(embed, agentId, card)|
    ensures var chunks := AgentChunks(card.skills);
            && chunks != [] && |AgentPlan(embed, agentId, card)| == |chunks| + 3
            && AgentPlan(embed, agentId, card)[i] ==
               if i < |chunks|
               then Upsert(RowKey(Agent(agentId), chunks[i].kind, chunks[i].index), NewRow(embed, chunks[i].text, Domain(card)))
               else Prune(Agent(agentId), AGENT_KINDS[i - |chunks|], MaxIndex(chunks, AGENT_KINDS[i - |chunks|]))
  {
    hide AgentChunks, MaxIndex, Strip;
  }

  /** The prune statements of a plan. */
  lemma PruneAt(embed: string -> Vector, agentId: string, card: Card, p: nat)
    requires AgentChunks(card.skills) != [] && p < 3
    ensures var chunks, plan := AgentChunks(card.skills), AgentPlan(embed, agentId, card);
            && |plan| == |chunks| + 3 && AGENT_KINDS[p] in AGENT_KINDS
            && plan[|chunks| + p] == Prune(Agent(agentId), AGENT_KINDS[p], MaxIndex(chunks, AGENT_KINDS[p]))
  {
    PlanLength(embed, agentId, card);
    PlanAt(embed, agentId, card, |AgentChunks(card.skills)| + p);
  }

  lemma PlanLength(embed: string -> Vector, agentId: string, card: Card)
    requires AgentChunks(card.skills) != []
    ensures |AgentPlan(embed, agentId, card)| == |AgentChunks(card.skills)| + 3
  {
    hide AgentChunks, MaxIndex, Strip;
  }

  lemma MaxIndexStep(chunks: seq<Chunk>, k: nat, kind: Kind)
    requires k < |chunks|
    ensures MaxIndex(chunks[..k + 1], kind) ==
            if chunks[k].kind == kind then Max(MaxIndex(chunks[..k], kind), chunks[k].index) else MaxIndex(chunks[..k], kind)
  {
    assert chunks[..k + 1][..k] == chunks[..k];
  }

  method WriteChunks(embed: string -> Vector, table: VectorTable, agentId: string, card: Card, chunks: seq<Chunk>, failAt: nat)
    returns (ok: bool, maxIdx: map<Kind, int>)
    requires chunks == AgentChunks(card.skills) && chunks != []
    modifies table
    ensures ok == (failAt >= |chunks|)
    ensures table.rows == ApplyAll(old(table.rows), AgentPlan(embed, agentId, card)[..Min(failAt, |chunks|)])
    ensures ok ==> forall kind :: kind in AGENT_KINDS ==> kind in maxIdx && maxIdx[kind] == MaxIndex(chunks, kind)
  {
    var domain := Domain(card);
    ghost var plan := AgentPlan(embed, agentId, card);
    maxIdx := map[Description := -1, UseWhen := -1, Example := -1];
    assert plan[..0] == [] && ApplyAll(table.rows, []) == table.rows;
    assert forall kind :: MaxIndex(chunks[..0], kind) == -1;
    hide AgentChunks, AgentPlan, ApplyAll, Apply, MaxIndex, NewRow, Domain;
    for k := 0 to |chunks|
      invariant k <= failAt && table.rows == ApplyAll(old(table.rows), plan[..k])
      invariant forall kind :: kind in AGENT_KINDS ==> kind in maxIdx && maxIdx[kind] == MaxIndex(chunks[..k], kind)
    {
      if k == failAt {
        return false, maxIdx;
      }
      var c := chunks[k];
      var key, row := RowKey(Agent(agentId), c.kind, c.index), NewRow(embed, c.text, domain);
      assert k < |plan| && plan[k] == Upsert(key, row) by { PlanLength(embed, agentId, card); PlanAt(embed, agentId, card, k); }
      assert ApplyAll(old(table.rows), plan[..k + 1]) == Apply(table.rows, plan[k]) by { ExtendRun(old(table.rows), plan, k); }
      table.UpsertRow(key, row);
      AgentKind(card.skills, k);
      forall kind { MaxIndexStep(chunks, k, kind); }
      maxIdx := maxIdx[c.kind := Max(maxIdx[c.kind], c.index)];
    }
    assert chunks[..|chunks|] == chunks;
    ok := true;
  }

  /** The prune loop of `process`, statement `from` of the plan onwards. */
  method PruneKinds(table: VectorTable, agentId: string, maxIdx: map<Kind, int>, failAt: nat,
                    from: nat, ghost rows: Rows, ghost plan: seq<Write>) returns (ok: bool)
    requires |plan| == from + 3 && from <= failAt && table.rows == ApplyAll(rows, plan[..from])
    requires forall p :: 0 <= p < 3 ==> AGENT_KINDS[p] in maxIdx
    requires forall p :: 0 <= p < 3 ==> plan[from + p] == Prune(Agent(agentId), AGENT_KINDS[p], maxIdx[AGENT_KINDS[p]])
    modifies table
    ensures ok == (failAt >= |plan|)
    ensures table.rows == ApplyAll(rows, plan[..Min(failAt, |plan|)])
  {
    hide ApplyAll, Apply;
    for p := 0 to 3
      invariant from + p <= failAt && table.rows == ApplyAll(rows, plan[..from + p])
    {
      if from + p == failAt {
        return false;
      }
      ExtendRun(rows, plan, from + p);
      table.DeleteAbove(Agent(agentId), AGENT_KINDS[p], maxIdx[AGENT_KINDS[p]]);
    }
    return true;
  }

  /** `process` on one card. The statement number `failAt`, if there is one, raises: everything
      before it stays written, and the message will be left in the queue. */
  method Process(embed: string -> Vector, table: VectorTable, agentId: string, card: Card, failAt: nat) returns (ok: bool)
    modifies table
    ensures ok == (failAt >= |AgentPlan(embed, agentId, card)|)
    ensures table.rows == ApplyAll(old(table.rows), AgentPlan(embed, agentId, card)[..Min(failAt, |AgentPlan(embed, agentId, card)|)])
  {
    ghost var plan := AgentPlan(embed, agentId, card);
    var chunks := BuildAgentChunks(card.skills);
    if chunks == [] {
      return true;
    }
    PlanLength(embed, agentId, card);
    hide AgentChunks, AgentPlan, ApplyAll, Apply, MaxIndex;
    var maxIdx;
    ok, maxIdx := WriteChunks(embed, table, agentId, card, chunks, failAt);
    if !ok {
      return;
    }
    forall p | 0 <= p < 3
      ensures AGENT_KINDS[p] in maxIdx && plan[|chunks| + p] == Prune(Agent(agentId), AGENT_KINDS[p], maxIdx[AGENT_KINDS[p]])
    {
      PruneAt(embed, agentId, card, p);
    }
    ok := PruneKinds(table, agentId, maxIdx, failAt, |chunks|, old(table.rows), plan);
  }

  lemma AgentKind(skills: seq<Skill>, i: nat)
    requires i < |AgentChunks(skills)|
    ensures AgentChunks(skills)[i].kind in AGENT_KINDS
  {
    var c := AgentChunks(skills)[i];
    ChunksArePhrases(skills, c);
    assert AGENT_KINDS[0] == Description && AGENT_KINDS[1] == UseWhen && AGENT_KINDS[2] == Example;
    if c.kind == Anchor || c.kind == Body {
      NoTexts(skills, c.kind);
    }
  }

  lemma {:induction false} NoTexts(skills: seq<Skill>, kind: Kind)
    requires kind == Anchor || kind == Body
    ensures Texts(skills, kind) == []
  {
    if skills != [] {
      NoTexts(skills[..|skills| - 1], kind);
    }
  }

  lemma {:induction false} MaxIndexBounds(chunks: seq<Chunk>, kind: Kind)
    ensures forall i :: 0 <= i < |chunks| && chunks[i].kind == kind ==> chunks[i].index <= MaxIndex(chunks, kind)
    ensures MaxIndex(chunks, kind) >= 0 ==>
              exists i :: 0 <= i < |chunks| && chunks[i].kind == kind && chunks[i].index == MaxIndex(chunks, kind)
    ensures MaxIndex(chunks, kind) >= -1
  {
    if chunks != [] {
      var front := chunks[..|chunks| - 1];
      MaxIndexBounds(front, kind);
      assert forall i :: 0 <= i < |front| ==> front[i] == chunks[i];
      if MaxIndex(chunks, kind) >= 0 && MaxIndex(chunks, kind) == MaxIndex(front, kind) {
        var i :| 0 <= i < |front| && front[i].kind == kind && front[i].index == MaxIndex(front, kind);
        assert chunks[i].kind == kind;
      } else if MaxIndex(chunks, kind) >= 0 {
        assert chunks[|chunks| - 1].kind == kind;
      }
    }
  }

  /** The largest index seen is the number of phrases less one, so pruning above it removes exactly
      the leftovers. */
  lemma MaxIndexIsLast(skills: seq<Skill>, kind: Kind)
    ensures MaxIndex(AgentChunks(skills), kind) == |Texts(skills, kind)| - 1
  {
    hide AgentChunks, Texts, MaxIndex;
    var chunks, n := AgentChunks(skills), |Texts(skills, kind)|;
    MaxIndexBounds(chunks, kind);
    if n > 0 {
      ChunksArePhrases(skills, Chunk(kind, n - 1, Texts(skills, kind)[n - 1]));
    }
    if MaxIndex(chunks, kind) >= 0 {
      var i :| 0 <= i < |chunks| && chunks[i].kind == kind && chunks[i].index == MaxIndex(chunks, kind);
      ChunksArePhrases(skills, chunks[i]);
    }
  }

  lemma AgentPlanFits(embed: string -> Vector, agentId: string, card: Card)
    ensures GenuinePlan(embed, AgentPlan(embed, agentId, card)) && Compatible(AgentPlan(embed, agentId, card))
    ensures forall i :: 0 <= i < |AgentPlan(embed, agentId, card)| ==> Touches(AgentPlan(embed, agentId, card)[i], Agent(agentId))
  {
    var chunks, plan := AgentChunks(card.skills), AgentPlan(embed, agentId, card);
    ChunkKeysDistinct(card.skills);
    forall i | 0 <= i < |plan| ensures GenuineWrite(embed, plan[i]) && Touches(plan[i], Agent(agentId)) {
      PlanAt(embed, agentId, card, i);
    }
    forall i, j | 0 <= i < j < |plan| ensures Survives(plan[i], plan[j]) {
      PlanAt(embed, agentId, card, i);
      PlanAt(embed, agentId, card, j);
      if j >= |chunks| {
        MaxIndexBounds(chunks, AGENT_KINDS[j - |chunks|]);
      }
    }
  }

  /** The rows of the agent are exactly the card's phrases, kind by kind and index by index. */
  ghost predicate Indexes(embed: string -> Vector, rows: Rows, agentId: string, card: Card) {
    forall kind, j: nat :: kind in AGENT_KINDS ==> IndexesAt(embed, rows, agentId, card, kind, j)
  }

  ghost predicate IndexesAt(embed: string -> Vector, rows: Rows, agentId: string, card: Card, kind: Kind, j: nat) {
    var key := RowKey(Agent(agentId), kind, j);
    && (key in rows <==> j < |Texts(card.skills, kind)|)
    && (key in rows ==> var text := Texts(card.skills, kind)[j]; rows[key] == Row(text, Sha256(text), embed(text), Domain(card)))
  }

  lemma LandedIndexesAt(embed: string -> Vector, rows: Rows, agentId: string, card: Card, p: nat, j: nat)
    requires AgentChunks(card.skills) != [] && p < 3
    requires Landed(rows, AgentPlan(embed, agentId, card), |AgentPlan(embed, agentId, card)|)
    ensures IndexesAt(embed, rows, agentId, card, AGENT_KINDS[p], j)
  {
    var chunks, plan, kind := AgentChunks(card.skills), AgentPlan(embed, agentId, card), AGENT_KINDS[p];
    PlanAt(embed, agentId, card, 0);
    if j < |Texts(card.skills, kind)| {
      var c := Chunk(kind, j, Texts(card.skills, kind)[j]);
      ChunksArePhrases(card.skills, c);
      var i :| 0 <= i < |chunks| && chunks[i] == c;
      PlanAt(embed, agentId, card, i);
      assert Shows(rows, plan[i]);
    } else {
      MaxIndexIsLast(card.skills, kind);
      PlanAt(embed, agentId, card, |chunks| + p);
      assert Shows(rows, plan[|chunks| + p]);
      assert Covers(plan[|chunks| + p], RowKey(Agent(agentId), kind, j));
    }
  }

  lemma LandedIndexes(embed: string -> Vector, rows: Rows, agentId: string, card: Card)
    requires AgentChunks(card.skills) != []
    requires Landed(rows, AgentPlan(embed, agentId, card), |AgentPlan(embed, agentId, card)|)
    ensures Indexes(embed, rows, agentId, card)
  {
    forall kind, j: nat | kind in AGENT_KINDS ensures IndexesAt(embed, rows, agentId, card, kind, j) {
      var p :| 0 <= p < 3 && AGENT_KINDS[p] == kind;
      LandedIndexesAt(embed, rows, agentId, card, p, j);
    }
  }

  /** Re-indexing an agent whose card has chunks, from any table the workers can have left, and after
      any earlier attempt (with this card or another) cut off at any statement, leaves exactly the
      phrases of the card and touches no other entity. */
  lemma AgentReindex(embed: string -> Vector, rows: Rows, agentId: string, earlier: Card, k: nat, card: Card)
    requires Genuine(embed, rows) && k <= |AgentPlan(embed, agentId, earlier)| && AgentChunks(card.skills) != []
    ensures var after := ApplyAll(ApplyAll(rows, AgentPlan(embed, agentId, earlier)[..k]), AgentPlan(embed, agentId, card));
            Genuine(embed, after) && Indexes(embed, after, agentId, card) && SameElsewhere(rows, after, Agent(agentId))
  {
    var first, plan := AgentPlan(embed, agentId, earlier), AgentPlan(embed, agentId, card);
    AgentPlanFits(embed, agentId, earlier);
    AgentPlanFits(embed, agentId, card);
    RedeliveryLands(embed, rows, first, k, plan);
    LandedIndexes(embed, ApplyAll(ApplyAll(rows, first[..k]), plan), agentId, card);
    OthersUntouched(rows, first[..k], Agent(agentId));
    OthersUntouched(ApplyAll(rows, first[..k]), plan, Agent(agentId));
  }

  /** A card without chunks is acknowledged without touching the table, so the agent's rows agree
      with it exactly when there were none. */
  lemma EmptyCardKeepsRows(embed: string -> Vector, rows: Rows, agentId: string, card: Card)
    requires AgentChunks(card.skills) == []
    ensures Indexes(embed, ApplyAll(rows, AgentPlan(embed, agentId, card)), agentId, card) <==>
            forall kind, j: nat :: kind in AGENT_KINDS ==> RowKey(Agent(agentId), kind, j) !in rows
  {
    forall kind ensures Texts(card.skills, kind) == [] {
      if |Texts(card.skills, kind)| > 0 {
        ChunksArePhrases(card.skills, Chunk(kind, 0, Texts(card.skills, kind)[0]));
        assert false;
      }
    }
    assert forall kind, j: nat :: IndexesAt(embed, rows, agentId, card, kind, j) <==> RowKey(Agent(agentId), kind, j) !in rows;
  }
}
