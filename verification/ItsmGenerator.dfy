/** The seed-data generator of database/_utils/generate_itsm_data.py, restricted to row identities and
    the references its `validate` checks. A reference of "" is an absent one. */
module ItsmGenerator {
  import opened Decimal
  import opened Sorting
  import Strings = Text

  datatype Key = Key(tenant: string, id: string)

  datatype Problem = Problem(key: Key, relatedIncidents: seq<string>, relatedChanges: seq<string>)

  datatype Change = Change(key: Key, relatedProblem: string, affectedCi: seq<string>)

  datatype Incident = Incident(
    key: Key, reportedBy: string, assignedTo: string, ciId: string,
    linkedCiIds: seq<string>, relatedProblem: string, relatedChange: string)

  datatype Request = Request(key: Key, catalogItemId: string)

  datatype Article = Article(key: Key, relatedIncidents: seq<string>)

  const TENANTS: seq<string> := ["T001", "T002", "T003"]
  const CATALOG_NAMES: seq<string> :=
    ["MONITOR", "DOCKING_STATION", "HEADSET", "MOBILE_PHONE", "TABLET", "SOFTWARE_LICENSE", "DATABASE_ACCESS",
     "VPN_ACCESS", "CLOUD_SANDBOX", "KEYBOARD", "EXTERNAL_SSD", "CONFERENCE_MIC", "GPU_WORKSTATION"]
  const TARGET_USERS: nat := 120
  const TARGET_CIS: nat := 120
  const TARGET_INCIDENTS: nat := 160
  const TARGET_PROBLEMS: nat := 100
  const TARGET_CHANGES: nat := 110
  const TARGET_REQUESTS: nat := 130
  const TARGET_ARTICLES: nat := 110
  const TARGET_CATALOG: nat := 30

  // ── references ───────────────────────────────────────────────────────────

  predicate Resolves(keys: seq<Key>, tenant: string, ref: string) {
    ref == "" || Key(tenant, ref) in keys
  }

  predicate AllResolve(keys: seq<Key>, tenant: string, refs: seq<string>) {
    forall k :: 0 <= k < |refs| ==> Resolves(keys, tenant, refs[k])
  }

  function ProblemKeys(rows: seq<Problem>): seq<Key> { seq(|rows|, i requires 0 <= i < |rows| => rows[i].key) }

  function ChangeKeys(rows: seq<Change>): seq<Key> { seq(|rows|, i requires 0 <= i < |rows| => rows[i].key) }

  function IncidentKeys(rows: seq<Incident>): seq<Key> { seq(|rows|, i requires 0 <= i < |rows| => rows[i].key) }

  /** `by_tenant`: the ids of one tenant's rows. */
  function ByTenant(keys: seq<Key>, tenant: string): (ids: seq<string>)
    ensures forall id :: id in ids ==> Key(tenant, id) in keys
  {
    if keys == [] then []
    else ByTenant(keys[..|keys| - 1], tenant) + if keys[|keys| - 1].tenant == tenant then [keys[|keys| - 1].id] else []
  }

  datatype Tables = Tables(
    users: seq<Key>, cis: seq<Key>, catalog: seq<Key>, problems: seq<Problem>, changes: seq<Change>,
    incidents: seq<Incident>, requests: seq<Request>, articles: seq<Article>)

  ghost predicate ChangeOk(t: Tables, c: Change) {
    Resolves(ProblemKeys(t.problems), c.key.tenant, c.relatedProblem) && AllResolve(t.cis, c.key.tenant, c.affectedCi)
  }

  ghost predicate IncidentOk(t: Tables, i: Incident) {
    && Resolves(t.users, i.key.tenant, i.reportedBy) && Resolves(t.users, i.key.tenant, i.assignedTo)
    && Resolves(t.cis, i.key.tenant, i.ciId) && AllResolve(t.cis, i.key.tenant, i.linkedCiIds)
    && Resolves(ProblemKeys(t.problems), i.key.tenant, i.relatedProblem)
    && Resolves(ChangeKeys(t.changes), i.key.tenant, i.relatedChange)
  }

  ghost predicate RequestOk(t: Tables, r: Request) {
    Resolves(t.catalog, r.key.tenant, r.catalogItemId)
  }

  ghost predicate ArticleOk(t: Tables, a: Article) {
    AllResolve(IncidentKeys(t.incidents), a.key.tenant, a.relatedIncidents)
  }

  ghost predicate ProblemOk(t: Tables, p: Problem) {
    AllResolve(IncidentKeys(t.incidents), p.key.tenant, p.relatedIncidents)
  }

  /** What `validate` checks, except the links of problems, which `backfill` rewrites. */
  ghost predicate RefsOk(t: Tables) {
    && (forall k :: 0 <= k < |t.changes| ==> ChangeOk(t, t.changes[k]))
    && (forall k :: 0 <= k < |t.incidents| ==> IncidentOk(t, t.incidents[k]))
    && (forall k :: 0 <= k < |t.requests| ==> RequestOk(t, t.requests[k]))
    && (forall k :: 0 <= k < |t.articles| ==> ArticleOk(t, t.articles[k]))
  }

  ghost predicate ProblemLinksOk(t: Tables) {
    forall k :: 0 <= k < |t.problems| ==> ProblemOk(t, t.problems[k])
  }

  ghost predicate DistinctIds(problems: seq<Problem>) {
    forall i, j :: 0 <= i < j < |problems| ==> problems[i].key.id != problems[j].key.id
  }

  /** Every table only grows. */
  ghost predicate Extends(t: Tables, u: Tables) {
    && t.users <= u.users && t.cis <= u.cis && t.catalog <= u.catalog && t.problems <= u.problems
    && t.changes <= u.changes && t.incidents <= u.incidents && t.requests <= u.requests && t.articles <= u.articles
  }

  lemma GrowingKeepsResolved(keys: seq<Key>, more: seq<Key>, tenant: string, refs: seq<string>)
    requires keys <= more && AllResolve(keys, tenant, refs)
    ensures AllResolve(more, tenant, refs)
  {
    forall k | 0 <= k < |refs| ensures Resolves(more, tenant, refs[k]) {
      assert Resolves(keys, tenant, refs[k]);
    }
  }

  lemma ExtendsKeepsRows(t: Tables, u: Tables)
    requires Extends(t, u)
    ensures forall c :: ChangeOk(t, c) ==> ChangeOk(u, c)
    ensures forall i :: IncidentOk(t, i) ==> IncidentOk(u, i)
    ensures forall r :: RequestOk(t, r) ==> RequestOk(u, r)
    ensures forall a :: ArticleOk(t, a) ==> ArticleOk(u, a)
  {
    assert ProblemKeys(t.problems) <= ProblemKeys(u.problems);
    assert ChangeKeys(t.changes) <= ChangeKeys(u.changes);
    assert IncidentKeys(t.incidents) <= IncidentKeys(u.incidents);
    forall c | ChangeOk(t, c) ensures ChangeOk(u, c) {
      GrowingKeepsResolved(t.cis, u.cis, c.key.tenant, c.affectedCi);
    }
    forall i | IncidentOk(t, i) ensures IncidentOk(u, i) {
      GrowingKeepsResolved(t.cis, u.cis, i.key.tenant, i.linkedCiIds);
    }
    forall a | ArticleOk(t, a) ensures ArticleOk(u, a) {
      GrowingKeepsResolved(IncidentKeys(t.incidents), IncidentKeys(u.incidents), a.key.tenant, a.relatedIncidents);
    }
  }

  // ── new ids ──────────────────────────────────────────────────────────────

  /** `next_numeric`: the start of the next block of ten thousand above every id number in use. */
  method NextNumeric(ids: seq<Key>) returns (n: nat)
    ensures forall k :: 0 <= k < |ids| ==> IdNumber(ids[k].id) < n
    ensures n % 10_000 == 1
  {
    var mx: nat := 0;
    for k := 0 to |ids|
      invariant forall j :: 0 <= j < k ==> IdNumber(ids[j].id) <= mx
    {
      var digits := DigitsOf(ids[k].id);
      if digits != "" {
        mx := Strings.Max(mx, Value(digits));
      }
    }
    n := (mx / 10_000 + 1) * 10_000 + 1;
  }

  // ── random choices, as nondeterminism ────────────────────────────────────

  method PickTenant() returns (t: string)
    ensures t in TENANTS
  {
    var i :| 0 <= i < 3;
    return TENANTS[i];
  }

  method ChoiceOrNone(pool: seq<string>) returns (x: string)
    ensures pool == [] ==> x == ""
    ensures pool != [] ==> x in pool
  {
    if pool == [] {
      return "";
    }
    var i :| 0 <= i < |pool|;
    return pool[i];
  }

  method Maybe(pool: seq<string>) returns (x: string)
    ensures x == "" || x in pool
  {
    if pool != [] {
      if * {
        x := ChoiceOrNone(pool);
        return;
      }
    }
    return "";
  }

  /** `random.sample(pool, min(len(pool), k))` for some k in [lo, hi]. */
  method SampleOrEmpty(pool: seq<string>, lo: nat, hi: nat) returns (sample: seq<string>)
    requires lo <= hi
    ensures multiset(sample) <= multiset(pool)
    ensures |sample| <= hi && (|pool| >= lo ==> lo <= |sample|)
  {
    sample := [];
    var size: nat :| lo <= size <= hi;
    var left := pool;
    while |sample| < size && left != []
      invariant multiset(sample) + multiset(left) == multiset(pool) && |sample| <= size
      invariant |sample| + |left| == |pool|
      decreases |left|
    {
      var i :| 0 <= i < |left|;
      assert left == left[..i] + [left[i]] + left[i + 1..];
      sample := sample + [left[i]];
      left := left[..i] + left[i + 1..];
    }
  }

  lemma SampleResolves(keys: seq<Key>, tenant: string, sample: seq<string>)
    requires multiset(sample) <= multiset(ByTenant(keys, tenant))
    ensures AllResolve(keys, tenant, sample)
  {
    forall k | 0 <= k < |sample| ensures Resolves(keys, tenant, sample[k]) {
      assert sample[k] in multiset(sample);
      assert sample[k] in multiset(ByTenant(keys, tenant));
    }
  }

  // ── generators ───────────────────────────────────────────────────────────

  /** `gen_users` and `gen_cis`: rows up to the target, each of a random tenant with the next id. */
  method GenPlain(rows: seq<Key>, prefix: string, width: nat, target: nat) returns (out: seq<Key>)
    ensures rows <= out && |out| == Strings.Max(|rows|, target)
  {
    out := rows;
    var n := NextNumeric(rows);
    for i := 0 to Strings.Max(0, target - |rows|)
      invariant rows <= out && |out| == |rows| + i
    {
      var t := PickTenant();
      out := out + [Key(t, FormatId(prefix, n + i, width))];
    }
  }

  method GenCatalog(rows: seq<Key>) returns (out: seq<Key>)
    ensures rows <= out && |out| == Strings.Max(|rows|, TARGET_CATALOG)
  {
    out := rows;
    var n := Strings.Max(1, |rows|);
    for i := 0 to Strings.Max(0, TARGET_CATALOG - |rows|)
      invariant rows <= out && |out| == |rows| + i
    {
      var t := PickTenant();
      var name := ChoiceOrNone(CATALOG_NAMES);
      out := out + [Key(t, "CAT_" + t + "_" + name + "_" + Text(n + i))];
    }
  }

  /** The rows from `from` on have consecutive numbers, above those of all rows before. */
  ghost predicate Numbered(rows: seq<Problem>, from: nat, n: nat) {
    && from <= |rows| && (forall k :: 0 <= k < from ==> IdNumber(rows[k].key.id) < n)
    && (forall k :: from <= k < |rows| ==> IdNumber(rows[k].key.id) == n + k - from)
  }

  lemma NumberedIsDistinct(rows: seq<Problem>, from: nat, n: nat)
    requires Numbered(rows, from, n) && DistinctIds(rows[..from])
    ensures DistinctIds(rows)
  {
    hide IdNumber;
    forall i, j | 0 <= i < j < |rows| ensures rows[i].key.id != rows[j].key.id {
      if j < from {
        assert rows[..from][i] == rows[i] && rows[..from][j] == rows[j];
      }
    }
  }

  /** New problems never reuse the id of another problem, of any tenant. */
  method GenProblems(rows: seq<Problem>) returns (out: seq<Problem>)
    ensures rows <= out && |out| == Strings.Max(|rows|, TARGET_PROBLEMS)
    ensures DistinctIds(rows) ==> DistinctIds(out)
    ensures forall k :: |rows| <= k < |out| ==> out[k].key.id != ""
  {
    hide IdNumber, DistinctIds;
    out := rows;
    var n := NextNumeric(ProblemKeys(rows));
    assert forall k :: 0 <= k < |rows| ==> IdNumber(rows[k].key.id) < n by {
      assert forall k :: 0 <= k < |rows| ==> ProblemKeys(rows)[k].id == rows[k].key.id;
    }
    for i := 0 to Strings.Max(0, TARGET_PROBLEMS - |rows|)
      invariant rows <= out && |out| == |rows| + i && Numbered(out, |rows|, n)
      invariant forall k :: |rows| <= k < |out| ==> out[k].key.id != ""
    {
      var t := PickTenant();
      FormatIdRoundTrip("PBM", n + i, 7);
      var id := FormatId("PBM", n + i, 7);
      assert IdNumber(id) == n + i && |id| >= 3;
      out := out + [Problem(Key(t, id), [], [])];
    }
    if DistinctIds(rows) {
      assert out[..|rows|] == rows;
      NumberedIsDistinct(out, |rows|, n);
    }
  }

  method GenChanges(t: Tables) returns (out: seq<Change>)
    ensures t.changes <= out && |out| == Strings.Max(|t.changes|, TARGET_CHANGES)
    ensures forall k :: |t.changes| <= k < |out| ==> ChangeOk(t, out[k])
  {
    out := t.changes;
    var n := NextNumeric(ChangeKeys(t.changes));
    for i := 0 to Strings.Max(0, TARGET_CHANGES - |t.changes|)
      invariant t.changes <= out && |out| == |t.changes| + i
      invariant forall k :: |t.changes| <= k < |out| ==> ChangeOk(t, out[k])
    {
      var ten := PickTenant();
      var cisT, probsT := ByTenant(t.cis, ten), ByTenant(ProblemKeys(t.problems), ten);
      var relatedProblem := Maybe(probsT);
      var affected := SampleOrEmpty(cisT, 1, 2);
      SampleResolves(t.cis, ten, affected);
      out := out + [Change(Key(ten, FormatId("CHG", n + i, 7)), relatedProblem, affected)];
    }
  }

  method GenIncidents(t: Tables) returns (out: seq<Incident>)
    ensures t.incidents <= out && |out| == Strings.Max(|t.incidents|, TARGET_INCIDENTS)
    ensures forall k :: |t.incidents| <= k < |out| ==> IncidentOk(t, out[k])
  {
    out := t.incidents;
    var n := NextNumeric(IncidentKeys(t.incidents));
    for i := 0 to Strings.Max(0, TARGET_INCIDENTS - |t.incidents|)
      invariant t.incidents <= out && |out| == |t.incidents| + i
      invariant forall k :: |t.incidents| <= k < |out| ==> IncidentOk(t, out[k])
    {
      var ten := PickTenant();
      var usersT, cisT := ByTenant(t.users, ten), ByTenant(t.cis, ten);
      var probsT, chgsT := ByTenant(ProblemKeys(t.problems), ten), ByTenant(ChangeKeys(t.changes), ten);
      var reportedBy := ChoiceOrNone(usersT);
      var assignedTo := ChoiceOrNone(usersT);
      var ciId := ChoiceOrNone(cisT);
      var linked := SampleOrEmpty(cisT, 1, 2);
      var relatedProblem := Maybe(probsT);
      var relatedChange := Maybe(chgsT);
      SampleResolves(t.cis, ten, linked);
      var row := Incident(Key(ten, FormatId("INC", n + i, 7)), reportedBy, assignedTo, ciId, linked, relatedProblem, relatedChange);
      assert IncidentOk(t, row);
      out := out + [row];
    }
  }

  method GenRequests(t: Tables) returns (out: seq<Request>)
    ensures t.requests <= out && |out| == Strings.Max(|t.requests|, TARGET_REQUESTS)
    ensures forall k :: |t.requests| <= k < |out| ==> RequestOk(t, out[k])
  {
    out := t.requests;
    var n := NextNumeric(seq(|t.requests|, i requires 0 <= i < |t.requests| => t.requests[i].key));
    for i := 0 to Strings.Max(0, TARGET_REQUESTS - |t.requests|)
      invariant t.requests <= out && |out| == |t.requests| + i
      invariant forall k :: |t.requests| <= k < |out| ==> RequestOk(t, out[k])
    {
      var ten := PickTenant();
      var item := Maybe(ByTenant(t.catalog, ten));
      out := out + [Request(Key(ten, FormatId("SR", n + i, 7)), item)];
    }
  }

  method GenArticles(t: Tables) returns (out: seq<Article>)
    ensures t.articles <= out && |out| == Strings.Max(|t.articles|, TARGET_ARTICLES)
    ensures forall k :: |t.articles| <= k < |out| ==> ArticleOk(t, out[k])
  {
    out := t.articles;
    var n := NextNumeric(seq(|t.articles|, i requires 0 <= i < |t.articles| => t.articles[i].key));
    for i := 0 to Strings.Max(0, TARGET_ARTICLES - |t.articles|)
      invariant t.articles <= out && |out| == |t.articles| + i
      invariant forall k :: |t.articles| <= k < |out| ==> ArticleOk(t, out[k])
    {
      var ten := PickTenant();
      out := out + [Article(Key(ten, FormatId("KB", n + i, 7)), [])];
    }
  }

  // ── backfill ─────────────────────────────────────────────────────────────

  function Dedup(xs: seq<string>): (r: seq<string>)
    ensures forall x :: x in r <==> x in xs
  {
    if xs == [] then []
    else
      var front, last := xs[..|xs| - 1], xs[|xs| - 1];
      if last in front then Dedup(front) else Dedup(front) + [last]
  }

  function Take(xs: seq<string>, n: nat): (r: seq<string>)
    ensures r <= xs && |r| <= n
  {
    if |xs| <= n then xs else xs[..n]
  }

  /** `sorted({..})[:n]` */
  function SortedSet(xs: seq<string>, n: nat): seq<string> {
    Take(SortBy(StrLe, Dedup(xs)), n)
  }

  lemma SortedSetMembers(xs: seq<string>, n: nat)
    ensures forall x :: x in SortedSet(xs, n) ==> x in xs
  {
    StrLeTotal();
    SortBySorts(StrLe, Dedup(xs));
    forall x | x in SortedSet(xs, n) ensures x in xs {
      assert x in multiset(SortBy(StrLe, Dedup(xs)));
      assert x in multiset(Dedup(xs));
    }
  }

  /** Ids of the incidents that name the problem, whatever their tenant. */
  function IncidentsOf(incidents: seq<Incident>, pid: string): (ids: seq<string>)
    ensures forall id :: id in ids <==> exists k :: 0 <= k < |incidents| && incidents[k].key.id == id && incidents[k].relatedProblem == pid
  {
    if incidents == [] then []
    else
      var front, last := incidents[..|incidents| - 1], incidents[|incidents| - 1];
      assert forall k :: 0 <= k < |front| ==> front[k] == incidents[k];
      IncidentsOf(front, pid) + if last.relatedProblem == pid then [last.key.id] else []
  }

  function ChangesOf(changes: seq<Change>, pid: string): (ids: seq<string>)
    ensures forall id :: id in ids <==> exists k :: 0 <= k < |changes| && changes[k].key.id == id && changes[k].relatedProblem == pid
  {
    if changes == [] then []
    else
      var front, last := changes[..|changes| - 1], changes[|changes| - 1];
      assert forall k :: 0 <= k < |front| ==> front[k] == changes[k];
      ChangesOf(front, pid) + if last.relatedProblem == pid then [last.key.id] else []
  }

  function Linked(t: Tables, p: Problem): Problem {
    p.(relatedIncidents := SortedSet(IncidentsOf(t.incidents, p.key.id), 6),
       relatedChanges := SortedSet(ChangesOf(t.changes, p.key.id), 4))
  }

  /** The first `n` in order of what a list holds: distinct, ascending, no other ids, at most `n`; all of
      them when there are no more than `n`, and otherwise none left out is before one taken. */
  ghost predicate IsFirst(ids: seq<string>, n: nat, link: seq<string>) {
    && |link| <= n && Ordered(StrLe, link) && (forall i, j :: 0 <= i < j < |link| ==> link[i] != link[j])
    && (forall x :: x in link ==> x in ids)
    && (forall x :: x in ids && x !in link ==> |link| == n && forall y :: y in link ==> StrLe(y, x))
  }

  lemma {:induction false} DedupDistinct(xs: seq<string>)
    ensures forall i, j :: 0 <= i < j < |Dedup(xs)| ==> Dedup(xs)[i] != Dedup(xs)[j]
  {
    if xs != [] {
      DedupDistinct(xs[..|xs| - 1]);
    }
  }

  lemma {:induction false} DistinctCounts(xs: seq<string>, x: string)
    requires forall i, j :: 0 <= i < j < |xs| ==> xs[i] != xs[j]
    ensures multiset(xs)[x] <= 1
  {
    if xs != [] {
      var front := xs[..|xs| - 1];
      assert xs == front + [xs[|xs| - 1]];
      DistinctCounts(front, x);
      assert xs[|xs| - 1] !in front;
    }
  }

  lemma CountsDistinct(xs: seq<string>, i: int, j: int)
    requires 0 <= i < j < |xs| && multiset(xs)[xs[i]] <= 1
    ensures xs[i] != xs[j]
  {
    assert xs == xs[..j] + [xs[j]] + xs[j + 1..];
    assert xs[i] in xs[..j];
  }

  lemma SortedSetIsFirst(xs: seq<string>, n: nat)
    ensures IsFirst(xs, n, SortedSet(xs, n))
  {
    var once := Dedup(xs);
    var sorted, link := SortBy(StrLe, once), SortedSet(xs, n);
    StrLeTotal();
    SortBySorts(StrLe, once);
    DedupDistinct(xs);
    forall x ensures x in sorted <==> x in xs {
      assert x in multiset(sorted) <==> x in multiset(once);
    }
    forall i, j | 0 <= i < j < |sorted| ensures sorted[i] != sorted[j] {
      DistinctCounts(once, sorted[i]);
      CountsDistinct(sorted, i, j);
    }
    hide SortBy, Dedup, SortedSet, StrLe;
    FirstOf(sorted, xs, n, link);
  }

  lemma FirstOf(sorted: seq<string>, xs: seq<string>, n: nat, link: seq<string>)
    requires Ordered(StrLe, sorted) && (forall x :: x in sorted <==> x in xs) && link == Take(sorted, n)
    requires forall i, j :: 0 <= i < j < |sorted| ==> sorted[i] != sorted[j]
    ensures IsFirst(xs, n, link)
  {
    hide StrLe;
    assert forall i :: 0 <= i < |link| ==> link[i] == sorted[i];
    forall x, y | x in xs && x !in link && y in link ensures StrLe(y, x) {
      var i :| 0 <= i < |sorted| && sorted[i] == x;
      var j :| 0 <= j < |link| && link[j] == y;
      assert i >= |link|;
    }
  }

  /** Back-fill is complete: a problem is linked to the first six ids, in order, of the incidents that
      name it, and to the first four of the changes that name it. */
  lemma LinkedIsComplete(t: Tables, p: Problem)
    ensures var linked := Linked(t, p);
            && linked.key == p.key
            && IsFirst(IncidentsOf(t.incidents, p.key.id), 6, linked.relatedIncidents)
            && IsFirst(ChangesOf(t.changes, p.key.id), 4, linked.relatedChanges)
  {
    SortedSetIsFirst(IncidentsOf(t.incidents, p.key.id), 6);
    SortedSetIsFirst(ChangesOf(t.changes, p.key.id), 4);
  }

  method BackfillProblems(t: Tables) returns (problems: seq<Problem>)
    ensures |problems| == |t.problems| && forall k :: 0 <= k < |problems| ==> problems[k] == Linked(t, t.problems[k])
  {
    problems := t.problems;
    for k := 0 to |t.problems|
      invariant |problems| == |t.problems|
      invariant forall j :: 0 <= j < k ==> problems[j] == Linked(t, t.problems[j])
      invariant forall j :: k <= j < |problems| ==> problems[j] == t.problems[j]
    {
      problems := problems[k := Linked(t, problems[k])];
    }
  }

  /** The links of the article resolve, or it is the article that was there. */
  ghost predicate Filled(t: Tables, before: Article, after: Article) {
    after == before || (before.relatedIncidents == [] && after.key == before.key && ArticleOk(t, after))
  }

  /** Loaded articles stay where they are, and those with links are not changed. */
  ghost predicate ArticlesKept(before: seq<Article>, after: seq<Article>) {
    |before| <= |after| && forall k :: 0 <= k < |before| ==>
      after[k].key == before[k].key && (before[k].relatedIncidents != [] ==> after[k] == before[k])
  }

  lemma FilledKeeps(t: Tables, before: seq<Article>, after: seq<Article>)
    requires before <= t.articles && |after| == |t.articles| && forall k :: 0 <= k < |after| ==> Filled(t, t.articles[k], after[k])
    ensures ArticlesKept(before, after)
  {
    forall k | 0 <= k < |before|
      ensures after[k].key == before[k].key && (before[k].relatedIncidents != [] ==> after[k] == before[k])
    {
      assert Filled(t, t.articles[k], after[k]) && t.articles[k] == before[k];
    }
  }

  /** Articles that have links keep them; the others draw some of their tenant's incidents. */
  method BackfillArticles(t: Tables) returns (articles: seq<Article>)
    ensures |articles| == |t.articles| && forall k :: 0 <= k < |articles| ==> Filled(t, t.articles[k], articles[k])
  {
    articles := t.articles;
    StrLeTotal();
    for k := 0 to |t.articles|
      invariant |articles| == |t.articles|
      invariant forall j :: 0 <= j < |articles| ==> Filled(t, t.articles[j], articles[j])
      invariant forall j :: k <= j < |articles| ==> articles[j] == t.articles[j]
    {
      var a := articles[k];
      var pool := ByTenant(IncidentKeys(t.incidents), a.key.tenant);
      if pool != [] && a.relatedIncidents == [] {
        var sample := SampleOrEmpty(pool, 0, 4);
        SortBySorts(StrLe, sample);
        SampleResolves(IncidentKeys(t.incidents), a.key.tenant, SortBy(StrLe, sample));
        articles := articles[k := a.(relatedIncidents := SortBy(StrLe, sample))];
      }
    }
  }

  /** What the loaded files must satisfy. */
  ghost predicate Loadable(t: Tables) {
    RefsOk(t) && DistinctIds(t.problems) && forall k :: 0 <= k < |t.problems| ==> t.problems[k].key.id != ""
  }

  ghost predicate ProblemChangesOk(t: Tables, p: Problem) {
    AllResolve(ChangeKeys(t.changes), p.key.tenant, p.relatedChanges)
  }

  /** The tenant-blind joins of `backfill` stay in the tenant, for incidents and for changes, because
      problem ids are globally unique and every related problem resolves in its row's own tenant. */
  lemma LinkedResolves(t: Tables, k: nat)
    requires k < |t.problems| && Loadable(t)
    ensures ProblemOk(t, Linked(t, t.problems[k])) && ProblemChangesOk(t, Linked(t, t.problems[k]))
  {
    var p := t.problems[k];
    var linked := Linked(t, p);
    SortedSetMembers(IncidentsOf(t.incidents, p.key.id), 6);
    SortedSetMembers(ChangesOf(t.changes, p.key.id), 4);
    hide SortedSet;
    forall m | 0 <= m < |linked.relatedIncidents|
      ensures Resolves(IncidentKeys(t.incidents), p.key.tenant, linked.relatedIncidents[m])
    {
      assert linked.relatedIncidents[m] in IncidentsOf(t.incidents, p.key.id);
      var j :| 0 <= j < |t.incidents| && t.incidents[j].key.id == linked.relatedIncidents[m] && t.incidents[j].relatedProblem == p.key.id;
      assert IncidentOk(t, t.incidents[j]);
      SameProblem(t, k, t.incidents[j].key.tenant);
      assert IncidentKeys(t.incidents)[j] == Key(p.key.tenant, linked.relatedIncidents[m]);
    }
    forall m | 0 <= m < |linked.relatedChanges|
      ensures Resolves(ChangeKeys(t.changes), p.key.tenant, linked.relatedChanges[m])
    {
      assert linked.relatedChanges[m] in ChangesOf(t.changes, p.key.id);
      var j :| 0 <= j < |t.changes| && t.changes[j].key.id == linked.relatedChanges[m] && t.changes[j].relatedProblem == p.key.id;
      assert ChangeOk(t, t.changes[j]);
      SameProblem(t, k, t.changes[j].key.tenant);
      assert ChangeKeys(t.changes)[j] == Key(p.key.tenant, linked.relatedChanges[m]);
    }
  }

  lemma SameProblem(t: Tables, k: nat, tenant: string)
    requires k < |t.problems| && DistinctIds(t.problems) && t.problems[k].key.id != ""
    requires Resolves(ProblemKeys(t.problems), tenant, t.problems[k].key.id)
    ensures tenant == t.problems[k].key.tenant
  {
    var q :| 0 <= q < |t.problems| && ProblemKeys(t.problems)[q] == Key(tenant, t.problems[k].key.id);
    assert q == k;
  }

  // ── validation ───────────────────────────────────────────────────────────

  /** `_chk_ref`: an absent reference is never an error. */
  method CheckRef(keys: seq<Key>, tenant: string, ref: string, errors: seq<string>, what: string) returns (out: seq<string>)
    ensures errors <= out && (out == errors <==> Resolves(keys, tenant, ref))
  {
    out := errors;
    if ref != "" && Key(tenant, ref) !in keys {
      out := out + [what + ref + " dangling"];
    }
  }

  method CheckRefs(keys: seq<Key>, tenant: string, refs: seq<string>, errors: seq<string>, what: string) returns (out: seq<string>)
    ensures errors <= out && (out == errors <==> AllResolve(keys, tenant, refs))
  {
    out := errors;
    for k := 0 to |refs|
      invariant errors <= out && (out == errors <==> forall j :: 0 <= j < k ==> Resolves(keys, tenant, refs[j]))
    {
      out := CheckRef(keys, tenant, refs[k], out, what);
    }
  }

  method ValidateIncidents(t: Tables, errors: seq<string>) returns (out: seq<string>)
    ensures errors <= out && (out == errors <==> forall k :: 0 <= k < |t.incidents| ==> IncidentOk(t, t.incidents[k]))
  {
    out := errors;
    for k := 0 to |t.incidents|
      invariant errors <= out && (out == errors <==> forall j :: 0 <= j < k ==> IncidentOk(t, t.incidents[j]))
    {
      var i := t.incidents[k];
      var ten := i.key.tenant;
      var a := CheckRef(t.users, ten, i.reportedBy, out, "reported_by ");
      var b := CheckRef(t.users, ten, i.assignedTo, a, "assigned_to ");
      var c := CheckRef(t.cis, ten, i.ciId, b, "ci_id ");
      var d := CheckRef(ProblemKeys(t.problems), ten, i.relatedProblem, c, "related_problem ");
      var e := CheckRef(ChangeKeys(t.changes), ten, i.relatedChange, d, "related_change ");
      out := CheckRefs(t.cis, ten, i.linkedCiIds, e, "linked_ci ");
    }
  }

  method ValidateChanges(t: Tables, errors: seq<string>) returns (out: seq<string>)
    ensures errors <= out && (out == errors <==> forall k :: 0 <= k < |t.changes| ==> ChangeOk(t, t.changes[k]))
  {
    out := errors;
    for k := 0 to |t.changes|
      invariant errors <= out && (out == errors <==> forall j :: 0 <= j < k ==> ChangeOk(t, t.changes[j]))
    {
      var c := t.changes[k];
      var a := CheckRef(ProblemKeys(t.problems), c.key.tenant, c.relatedProblem, out, "related_problem ");
      out := CheckRefs(t.cis, c.key.tenant, c.affectedCi, a, "affected_ci ");
    }
  }

  method ValidateRequests(t: Tables, errors: seq<string>) returns (out: seq<string>)
    ensures errors <= out && (out == errors <==> forall k :: 0 <= k < |t.requests| ==> RequestOk(t, t.requests[k]))
  {
    out := errors;
    for k := 0 to |t.requests|
      invariant errors <= out && (out == errors <==> forall j :: 0 <= j < k ==> RequestOk(t, t.requests[j]))
    {
      out := CheckRef(t.catalog, t.requests[k].key.tenant, t.requests[k].catalogItemId, out, "catalog_item_id ");
    }
  }

  method ValidateLinks(t: Tables, errors: seq<string>) returns (out: seq<string>)
    ensures errors <= out
    ensures out == errors <==> ProblemLinksOk(t) && forall k :: 0 <= k < |t.articles| ==> ArticleOk(t, t.articles[k])
  {
    out := errors;
    for k := 0 to |t.problems|
      invariant errors <= out && (out == errors <==> forall j :: 0 <= j < k ==> ProblemOk(t, t.problems[j]))
    {
      out := CheckRefs(IncidentKeys(t.incidents), t.problems[k].key.tenant, t.problems[k].relatedIncidents, out, "problem link ");
    }
    ghost var first := out;
    for k := 0 to |t.articles|
      invariant first <= out && (out == first <==> forall j :: 0 <= j < k ==> ArticleOk(t, t.articles[j]))
    {
      out := CheckRefs(IncidentKeys(t.incidents), t.articles[k].key.tenant, t.articles[k].relatedIncidents, out, "kb link ");
    }
  }

  /** `validate` reports no error exactly when every checked reference resolves in its own tenant. */
  method Validate(t: Tables) returns (errors: seq<string>)
    ensures errors == [] <==> RefsOk(t) && ProblemLinksOk(t)
  {
    var a := ValidateIncidents(t, []);
    var b := ValidateChanges(t, a);
    var c := ValidateRequests(t, b);
    errors := ValidateLinks(t, c);
  }

  /** The reference is absent, or names a row of its own tenant. */
  ghost predicate Found(keys: seq<Key>, tenant: string, ref: string) {
    ref != "" ==> exists k :: 0 <= k < |keys| && keys[k].tenant == tenant && keys[k].id == ref
  }

  lemma ResolvesIs(keys: seq<Key>, tenant: string, ref: string)
    ensures Resolves(keys, tenant, ref) <==> Found(keys, tenant, ref)
  {
    if ref != "" && Key(tenant, ref) in keys {
      var k :| 0 <= k < |keys| && keys[k] == Key(tenant, ref);
    }
    if k :| 0 <= k < |keys| && keys[k].tenant == tenant && keys[k].id == ref {
      assert keys[k] == Key(tenant, ref);
    }
  }

  /** What an error-free validation means, field by field: each reference below is absent or names a row
      of the tenant of the row it stands in. */
  lemma EveryReferenceChecked(t: Tables, k: nat, m: nat)
    requires RefsOk(t) && ProblemLinksOk(t)
    ensures k < |t.incidents| ==>
              var i := t.incidents[k];
              && Found(t.users, i.key.tenant, i.reportedBy) && Found(t.users, i.key.tenant, i.assignedTo)
              && Found(t.cis, i.key.tenant, i.ciId) && (m < |i.linkedCiIds| ==> Found(t.cis, i.key.tenant, i.linkedCiIds[m]))
              && Found(ProblemKeys(t.problems), i.key.tenant, i.relatedProblem)
              && Found(ChangeKeys(t.changes), i.key.tenant, i.relatedChange)
    ensures k < |t.changes| ==>
              var c := t.changes[k];
              && Found(ProblemKeys(t.problems), c.key.tenant, c.relatedProblem)
              && (m < |c.affectedCi| ==> Found(t.cis, c.key.tenant, c.affectedCi[m]))
    ensures k < |t.requests| ==> Found(t.catalog, t.requests[k].key.tenant, t.requests[k].catalogItemId)
    ensures k < |t.problems| && m < |t.problems[k].relatedIncidents| ==>
              Found(IncidentKeys(t.incidents), t.problems[k].key.tenant, t.problems[k].relatedIncidents[m])
    ensures k < |t.articles| && m < |t.articles[k].relatedIncidents| ==>
              Found(IncidentKeys(t.incidents), t.articles[k].key.tenant, t.articles[k].relatedIncidents[m])
  {
    forall keys, tenant, ref ensures Resolves(keys, tenant, ref) <==> Found(keys, tenant, ref) {
      ResolvesIs(keys, tenant, ref);
    }
    hide Resolves, Found;
    if k < |t.incidents| {
      assert IncidentOk(t, t.incidents[k]);
    }
    if k < |t.changes| {
      assert ChangeOk(t, t.changes[k]);
    }
    if k < |t.requests| {
      assert RequestOk(t, t.requests[k]);
    }
    if k < |t.problems| {
      assert ProblemOk(t, t.problems[k]);
    }
    if k < |t.articles| {
      assert ArticleOk(t, t.articles[k]);
    }
  }

  // ── the whole run ────────────────────────────────────────────────────────

  class Dataset {
    var t: Tables

    constructor (t: Tables)
      ensures this.t == t
    {
      this.t := t;
    }

    /** All generators in order; whatever is drawn, rows are only added, up to the targets, and the
        references of new rows resolve. */
    method Generate()
      modifies this
      ensures Extends(old(t), t) && Sized(old(t), t)
      ensures RefsOk(old(t)) ==> RefsOk(t)
      ensures Loadable(old(t)) ==> Loadable(t)
    {
      hide RefsOk, DistinctIds, ChangeOk, IncidentOk, RequestOk, ArticleOk;
      ghost var was := t;
      var users := GenPlain(t.users, "USR", 5, TARGET_USERS);
      var cis := GenPlain(t.cis, "CI", 7, TARGET_CIS);
      var catalog := GenCatalog(t.catalog);
      var problems := GenProblems(t.problems);
      ghost var from := t;
      t := t.(users := users, cis := cis, catalog := catalog, problems := problems);
      GrowthKeepsRefs(from, t);
      var changes := GenChanges(t);
      from := t;
      t := t.(changes := changes);
      GrowthKeepsRefs(from, t);
      var incidents := GenIncidents(t);
      from := t;
      t := t.(incidents := incidents);
      GrowthKeepsRefs(from, t);
      var requests := GenRequests(t);
      from := t;
      t := t.(requests := requests);
      GrowthKeepsRefs(from, t);
      var articles := GenArticles(t);
      from := t;
      t := t.(articles := articles);
      GrowthKeepsRefs(from, t);
    }

    /** Problems get the links of the incidents and changes that name them; articles keep their links
        or draw some that resolve. */
    method Backfill()
      modifies this
      ensures t == old(t).(problems := t.problems, articles := t.articles)
      ensures |t.problems| == |old(t).problems| && forall k :: 0 <= k < |t.problems| ==> t.problems[k] == Linked(old(t), old(t).problems[k])
      ensures |t.articles| == |old(t).articles| && forall k :: 0 <= k < |t.articles| ==> Filled(old(t), old(t).articles[k], t.articles[k])
      ensures Loadable(old(t)) ==> RefsOk(t) && ProblemLinksOk(t) && forall k :: 0 <= k < |t.problems| ==> ProblemChangesOk(t, t.problems[k])
    {
      var problems := BackfillProblems(t);
      var articles := BackfillArticles(t);
      ghost var was := t;
      t := t.(problems := problems, articles := articles);
      if Loadable(was) {
        BackfillResolves(was, t);
      }
    }

    /** `main`: `validate` passes if and only if every checked reference resolves after all generators
        and `backfill`. For loaded files whose references resolve and whose problem ids are globally
        unique it passes for every sequence of random choices. No loaded row is lost. */
    method Build() returns (errors: seq<string>)
      modifies this
      ensures errors == [] <==> RefsOk(t) && ProblemLinksOk(t)
      ensures Loadable(old(t)) ==> errors == []
      ensures Sized(old(t), t)
      ensures old(t).incidents <= t.incidents && old(t).changes <= t.changes && old(t).requests <= t.requests
      ensures old(t).users <= t.users && old(t).cis <= t.cis && old(t).catalog <= t.catalog
      ensures ProblemKeys(old(t).problems) <= ProblemKeys(t.problems) && ArticlesKept(old(t).articles, t.articles)
      ensures forall k :: 0 <= k < |t.problems| ==> t.problems[k] == Linked(t, t.problems[k])
    {
      hide RefsOk, DistinctIds, ProblemLinksOk, SortedSet, IncidentsOf, ChangesOf;
      Generate();
      ghost var generated := t;
      Backfill();
      assert ProblemKeys(generated.problems) == ProblemKeys(t.problems);
      assert ProblemKeys(old(t).problems) <= ProblemKeys(generated.problems);
      assert ArticlesKept(old(t).articles, t.articles) by {
        FilledKeeps(generated, old(t).articles, t.articles);
      }
      errors := Validate(t);
    }
  }

  /** Every table is filled up to its target, or left as it is when it is there already. */
  ghost predicate Sized(before: Tables, after: Tables) {
    && |after.users| == Strings.Max(|before.users|, 120) && |after.cis| == Strings.Max(|before.cis|, 120)
    && |after.catalog| == Strings.Max(|before.catalog|, 30)
    && |after.problems| == Strings.Max(|before.problems|, 100)
    && |after.changes| == Strings.Max(|before.changes|, 110)
    && |after.incidents| == Strings.Max(|before.incidents|, 160)
    && |after.requests| == Strings.Max(|before.requests|, 130)
    && |after.articles| == Strings.Max(|before.articles|, 110)
  }

  /** Growing tables keep every reference, when those of the new rows resolve in the tables before. */
  lemma GrowthKeepsRefs(t: Tables, u: Tables)
    requires Extends(t, u)
    requires forall k :: |t.changes| <= k < |u.changes| ==> ChangeOk(t, u.changes[k])
    requires forall k :: |t.incidents| <= k < |u.incidents| ==> IncidentOk(t, u.incidents[k])
    requires forall k :: |t.requests| <= k < |u.requests| ==> RequestOk(t, u.requests[k])
    requires forall k :: |t.articles| <= k < |u.articles| ==> ArticleOk(t, u.articles[k])
    ensures RefsOk(t) ==> RefsOk(u)
  {
    ExtendsKeepsRows(t, u);
    hide ChangeOk, IncidentOk, RequestOk, ArticleOk;
    if RefsOk(t) {
      forall k | 0 <= k < |u.changes| ensures ChangeOk(u, u.changes[k]) {
        assert k < |t.changes| ==> u.changes[k] == t.changes[k];
      }
      forall k | 0 <= k < |u.incidents| ensures IncidentOk(u, u.incidents[k]) {
        assert k < |t.incidents| ==> u.incidents[k] == t.incidents[k];
      }
      forall k | 0 <= k < |u.requests| ensures RequestOk(u, u.requests[k]) {
        assert k < |t.requests| ==> u.requests[k] == t.requests[k];
      }
      forall k | 0 <= k < |u.articles| ensures ArticleOk(u, u.articles[k]) {
        assert k < |t.articles| ==> u.articles[k] == t.articles[k];
      }
    }
  }

  /** Rewriting links leaves every key, hence every other reference check, unchanged. */
  lemma SameKeysSameRefs(t: Tables, u: Tables)
    requires u == t.(problems := u.problems, articles := u.articles) && ProblemKeys(u.problems) == ProblemKeys(t.problems)
    ensures forall c :: ChangeOk(t, c) <==> ChangeOk(u, c)
    ensures forall i :: IncidentOk(t, i) <==> IncidentOk(u, i)
    ensures forall a :: ArticleOk(t, a) <==> ArticleOk(u, a)
    ensures forall p :: (ProblemOk(t, p) <==> ProblemOk(u, p)) && (ProblemChangesOk(t, p) <==> ProblemChangesOk(u, p))
  {
  }

  lemma BackfillResolves(t: Tables, u: Tables)
    requires Loadable(t) && u == t.(problems := u.problems, articles := u.articles)
    requires |u.problems| == |t.problems| && forall k :: 0 <= k < |u.problems| ==> u.problems[k] == Linked(t, t.problems[k])
    requires |u.articles| == |t.articles| && forall k :: 0 <= k < |u.articles| ==> Filled(t, t.articles[k], u.articles[k])
    ensures RefsOk(u) && ProblemLinksOk(u) && forall k :: 0 <= k < |u.problems| ==> ProblemChangesOk(u, u.problems[k])
  {
    assert ProblemKeys(u.problems) == ProblemKeys(t.problems);
    SameKeysSameRefs(t, u);
    hide Linked, ProblemOk, ProblemChangesOk, ArticleOk, IncidentOk, ChangeOk;
    forall k | 0 <= k < |u.problems| ensures ProblemOk(u, u.problems[k]) && ProblemChangesOk(u, u.problems[k]) {
      LinkedResolves(t, k);
    }
    forall k | 0 <= k < |u.articles| ensures ArticleOk(u, u.articles[k]) {
      assert Filled(t, t.articles[k], u.articles[k]) && ArticleOk(t, t.articles[k]);
    }
  }

  // ── shared problem ids ───────────────────────────────────────────────────

  /** Incident `j` alone names the id of problem `k`, whose tenant has no incident of that id: by
      RefsOk another problem, of the incident's tenant, shares the id. */
  ghost predicate Crosses(t: Tables, k: nat, j: nat) {
    && k < |t.problems| && j < |t.incidents|
    && (forall i :: 0 <= i < |t.incidents| ==> (t.incidents[i].relatedProblem == t.problems[k].key.id <==> i == j))
    && t.incidents[j].key.id != "" && Key(t.problems[k].key.tenant, t.incidents[j].key.id) !in IncidentKeys(t.incidents)
  }

  lemma {:induction false} OnlyOneNames(incidents: seq<Incident>, pid: string, j: nat)
    requires forall i :: 0 <= i < |incidents| ==> (incidents[i].relatedProblem == pid <==> i == j)
    ensures IncidentsOf(incidents, pid) == if j < |incidents| then [incidents[j].key.id] else []
  {
    if incidents != [] {
      OnlyOneNames(incidents[..|incidents| - 1], pid, j);
    }
  }

  lemma SingleSorted(id: string)
    ensures SortedSet([id], 6) == [id]
  {
    assert [id][..0] == [] && Dedup([id]) == [id];
    assert [id][1..] == [] && SortBy(StrLe, [id]) == [id];
  }

  lemma CrossingBreaksLink(t: Tables, k: nat, j: nat)
    requires Crosses(t, k, j)
    ensures !ProblemOk(t, Linked(t, t.problems[k]))
  {
    OnlyOneNames(t.incidents, t.problems[k].key.id, j);
    SingleSorted(t.incidents[j].key.id);
    var links := Linked(t, t.problems[k]).relatedIncidents;
    assert links == [t.incidents[j].key.id];
    assert !Resolves(IncidentKeys(t.incidents), t.problems[k].key.tenant, links[0]);
  }

  /** Global uniqueness is needed: from tables that are at their targets and in which an incident
      crosses, `main` always ends with errors, whatever is drawn. */
  method SharedProblemIdFails(d: Dataset, k: nat, j: nat) returns (errors: seq<string>)
    requires Crosses(d.t, k, j) && |d.t.incidents| >= TARGET_INCIDENTS
    modifies d
    ensures errors != []
  {
    ghost var was := d.t;
    errors := d.Build();
    assert d.t.incidents == was.incidents;
    assert ProblemKeys(d.t.problems)[k] == ProblemKeys(was.problems)[k];
    CrossingBreaksLink(d.t, k, j);
    assert !ProblemOk(d.t, d.t.problems[k]);
  }

  /** Such tables there are, with every reference resolved: a problem id shared by two tenants. */
  lemma SharedProblemIdExists() returns (t: Tables)
    ensures RefsOk(t) && Crosses(t, 1, 0) && Sized(t, t)
    ensures t.problems[0].key == Key("T001", "PBM1") && t.problems[1].key == Key("T002", "PBM1")
  {
    var user := Key("T001", "USR1");
    var p1, p2 := Problem(Key("T001", "PBM1"), [], []), Problem(Key("T002", "PBM1"), [], []);
    var problems := [p1, p2] + seq(98, i requires 0 <= i < 98 => Problem(Key("T001", FormatId("PBM", i + 2, 1)), [], []));
    var incidents := seq(160, i requires 0 <= i < 160 =>
      Incident(Key("T001", FormatId("INC", i + 1, 1)), "", "", "", [], if i == 0 then "PBM1" else "", ""));
    t := Tables(
      seq(120, i requires 0 <= i < 120 => user), seq(120, i requires 0 <= i < 120 => user), seq(30, i requires 0 <= i < 30 => user),
      problems, seq(110, i requires 0 <= i < 110 => Change(user, "", [])), incidents,
      seq(130, i requires 0 <= i < 130 => Request(user, "")), seq(110, i requires 0 <= i < 110 => Article(user, [])));
    hide FormatId;
    assert ProblemKeys(problems)[0] == Key("T001", "PBM1");
    assert forall i :: 0 <= i < 160 ==> IncidentKeys(incidents)[i].tenant == "T001";
    assert FormatId("INC", 1, 1) != "";
  }
}
