/** The vector tables the embedding workers keep (database/_lib/_worker_base.py, database/kb/worker.py,
    database/agent/worker.py): hash-guarded upserts and index-based pruning, one statement at a time. */
module VectorIndex {

  /** SHA-256 of a text, taken to be collision-free. */
  datatype Digest = Sha256(text: string)

  datatype Kind = Anchor | Body | Description | UseWhen | Example

  datatype Entity = Article(tenantId: string, kbId: string) | Agent(agentId: string)

  datatype RowKey = RowKey(entity: Entity, kind: Kind, index: nat)

  type Vector = seq<real>

  datatype Row = Row(text: string, contentHash: Digest, embedding: Vector, domain: string)

  type Rows = map<RowKey, Row>

  /** One SQL statement of a worker: a guarded upsert, or the deletion of all rows of one kind whose
      chunk index lies above a bound. */
  datatype Write = Upsert(key: RowKey, row: Row) | Prune(entity: Entity, kind: Kind, above: int)

  function NewRow(embed: string -> Vector, text: string, domain: string): Row {
    Row(text, Sha256(text), embed(text), domain)
  }

  predicate Covers(w: Write, key: RowKey) {
    w.Prune? && key.entity == w.entity && key.kind == w.kind && key.index > w.above
  }

  function Apply(rows: Rows, w: Write): Rows {
    match w
    case Upsert(key, row) =>
      if key in rows && rows[key].contentHash == row.contentHash && rows[key].domain == row.domain
      then rows
      else rows[key := row]
    case Prune(_, _, _) => map key | key in rows && !Covers(w, key) :: rows[key]
  }

  function ApplyAll(rows: Rows, ws: seq<Write>): Rows {
    if ws == [] then rows else Apply(ApplyAll(rows, ws[..|ws| - 1]), ws[|ws| - 1])
  }

  lemma ExtendRun(rows: Rows, plan: seq<Write>, k: nat)
    requires k < |plan|
    ensures ApplyAll(rows, plan[..k + 1]) == Apply(ApplyAll(rows, plan[..k]), plan[k])
  {
    assert plan[..k + 1][..k] == plan[..k];
  }

  /** A table that only the workers' upserts have written: hash and vector belong to the stored text. */
  ghost predicate Genuine(embed: string -> Vector, rows: Rows) {
    forall key :: key in rows ==> rows[key].contentHash == Sha256(rows[key].text) && rows[key].embedding == embed(rows[key].text)
  }

  ghost predicate GenuineWrite(embed: string -> Vector, w: Write) {
    w.Upsert? ==> w.row == NewRow(embed, w.row.text, w.row.domain)
  }

  ghost predicate GenuinePlan(embed: string -> Vector, plan: seq<Write>) {
    forall i :: 0 <= i < |plan| ==> GenuineWrite(embed, plan[i])
  }

  /** The table `UPSERT`s and `DELETE`s go to. */
  class VectorTable {
    var rows: Rows

    constructor ()
      ensures rows == map[]
    {
      rows := map[];
    }

    /** INSERT .. ON CONFLICT DO UPDATE .. WHERE the stored hash (or domain) is distinct. */
    method UpsertRow(key: RowKey, row: Row)
      modifies this
      ensures rows == Apply(old(rows), Upsert(key, row))
    {
      if key !in rows {
        rows := rows[key := row];
      } else if rows[key].contentHash != row.contentHash || rows[key].domain != row.domain {
        rows := rows[key := row];
      }
    }

    /** DELETE .. WHERE entity and kind match AND chunk_index > above. */
    method DeleteAbove(entity: Entity, kind: Kind, above: int)
      modifies this
      ensures rows == Apply(old(rows), Prune(entity, kind, above))
    {
      var leftovers := set key | key in rows && key.entity == entity && key.kind == kind && key.index > above;
      rows := rows - leftovers;
      assert rows == Apply(old(rows), Prune(entity, kind, above));
    }
  }

  // ── what a write leaves behind ───────────────────────────────────────────

  /** The table shows the effect of `w`. */
  ghost predicate Shows(rows: Rows, w: Write) {
    match w
    case Upsert(key, row) => key in rows && rows[key] == row
    case Prune(_, _, _) => forall key :: key in rows ==> !Covers(w, key)
  }

  /** Executing `b` cannot undo the effect of `a`. */
  ghost predicate Survives(a: Write, b: Write) {
    && (a.Upsert? && b.Upsert? && a.key == b.key ==> a.row == b.row)
    && (a.Upsert? ==> !Covers(b, a.key))
    && (b.Upsert? ==> !Covers(a, b.key))
  }

  ghost predicate Compatible(plan: seq<Write>) {
    forall i, j :: 0 <= i < j < |plan| ==> Survives(plan[i], plan[j])
  }

  /** The first `k` writes of the plan have taken effect. */
  ghost predicate Landed(rows: Rows, plan: seq<Write>, k: nat) {
    forall i :: 0 <= i < k && i < |plan| ==> Shows(rows, plan[i])
  }

  lemma ApplyKeepsGenuine(embed: string -> Vector, rows: Rows, w: Write)
    requires Genuine(embed, rows) && GenuineWrite(embed, w)
    ensures Genuine(embed, Apply(rows, w))
  {
  }

  /** The hash guard skips only rows that already are what would be written. */
  lemma GuardSkipsOnlyIdentical(embed: string -> Vector, rows: Rows, w: Write)
    requires Genuine(embed, rows) && GenuineWrite(embed, w)
    ensures Shows(Apply(rows, w), w)
    ensures w.Upsert? && Apply(rows, w) == rows ==> w.key in rows && rows[w.key] == w.row
  {
    if w.Upsert? && Apply(rows, w) == rows {
      assert w.key in Apply(rows, w);
    }
  }

  /** One more write of a plan takes effect and undoes none of the earlier ones. */
  lemma LandOne(embed: string -> Vector, rows: Rows, plan: seq<Write>, k: nat)
    requires Genuine(embed, rows) && GenuinePlan(embed, plan) && Compatible(plan)
    requires k < |plan| && Landed(rows, plan, k)
    ensures Genuine(embed, Apply(rows, plan[k])) && Landed(Apply(rows, plan[k]), plan, k + 1)
  {
    assert GenuineWrite(embed, plan[k]);
    ApplyKeepsGenuine(embed, rows, plan[k]);
    GuardSkipsOnlyIdentical(embed, rows, plan[k]);
    forall i | 0 <= i < k ensures Shows(Apply(rows, plan[k]), plan[i]) {
      assert Survives(plan[i], plan[k]) && Shows(rows, plan[i]);
    }
  }

  lemma {:induction false} PrefixLands(embed: string -> Vector, rows: Rows, plan: seq<Write>, k: nat)
    requires Genuine(embed, rows) && GenuinePlan(embed, plan) && Compatible(plan) && k <= |plan|
    ensures Genuine(embed, ApplyAll(rows, plan[..k])) && Landed(ApplyAll(rows, plan[..k]), plan, k)
  {
    if k > 0 {
      PrefixLands(embed, rows, plan, k - 1);
      LandOne(embed, ApplyAll(rows, plan[..k - 1]), plan, k - 1);
      assert plan[..k][..k - 1] == plan[..k - 1] && plan[..k][k - 1] == plan[k - 1];
    }
  }

  /** Redelivery: any part of an earlier plan, cut off after an arbitrary write, followed by a whole
      plan leaves that whole plan in effect. */
  lemma RedeliveryLands(embed: string -> Vector, rows: Rows, cutOff: seq<Write>, k: nat, plan: seq<Write>)
    requires Genuine(embed, rows) && GenuinePlan(embed, cutOff) && Compatible(cutOff) && k <= |cutOff|
    requires GenuinePlan(embed, plan) && Compatible(plan)
    ensures var after := ApplyAll(ApplyAll(rows, cutOff[..k]), plan);
            Genuine(embed, after) && Landed(after, plan, |plan|)
  {
    PrefixLands(embed, rows, cutOff, k);
    PrefixLands(embed, ApplyAll(rows, cutOff[..k]), plan, |plan|);
    assert plan[..|plan|] == plan;
  }

  ghost predicate Touches(w: Write, entity: Entity) {
    match w
    case Upsert(key, _) => key.entity == entity
    case Prune(e, _, _) => e == entity
  }

  /** Writes of one entity leave every other entity's rows alone. */
  ghost predicate SameElsewhere(before: Rows, after: Rows, entity: Entity) {
    forall key: RowKey :: key.entity != entity ==> (key in before <==> key in after) && (key in before ==> before[key] == after[key])
  }

  lemma {:induction false} OthersUntouched(rows: Rows, plan: seq<Write>, entity: Entity)
    requires forall i :: 0 <= i < |plan| ==> Touches(plan[i], entity)
    ensures SameElsewhere(rows, ApplyAll(rows, plan), entity)
  {
    if plan != [] {
      OthersUntouched(rows, plan[..|plan| - 1], entity);
      assert Touches(plan[|plan| - 1], entity);
    }
  }
}
