/** The semantic turn cache of src/oneops/api/semantic_turn_cache.py, over the reals. The square root
    is any function with the defining property of one. */
module SemanticCache {
  import opened Wrappers

  type Vector = seq<real>

  function Dot(a: Vector, b: Vector): real {
    if a == [] || b == [] then 0.0 else a[0] * b[0] + Dot(a[1..], b[1..])
  }

  ghost predicate SquareRoot(sqrt: real -> real) {
    forall x: real :: x >= 0.0 ==> sqrt(x) >= 0.0 && sqrt(x) * sqrt(x) == x
  }

  function Ratio(d: real, na: real, nb: real): real
    requires na != 0.0 && nb != 0.0
  {
    NonZeroProduct(na, nb);
    d / (na * nb)
  }

  function Cosine(sqrt: real -> real, a: Vector, b: Vector): real {
    if a == [] || b == [] || |a| != |b| then 0.0
    else
      var na, nb := sqrt(Dot(a, a)), sqrt(Dot(b, b));
      if na != 0.0 && nb != 0.0 then
        Ratio(Dot(a, b), na, nb)
      else 0.0
  }

  lemma NonZeroProduct(p: real, q: real)
    requires p != 0.0 && q != 0.0
    ensures p * q != 0.0
  {
  }

  /** The dot product is the sum of the products, coordinate by coordinate. */
  lemma {:induction false} DotSnoc(a: Vector, b: Vector, x: real, y: real)
    requires |a| == |b|
    ensures Dot(a + [x], b + [y]) == Dot(a, b) + x * y
  {
    if a == [] {
      assert [x][1..] == [] && a + [x] == [x] && b + [y] == [y];
    } else {
      DotSnoc(a[1..], b[1..], x, y);
      assert (a + [x])[1..] == a[1..] + [x] && (b + [y])[1..] == b[1..] + [y];
    }
  }

  /** The score times both norms is the dot product; vectors of different lengths, and vectors without a
      norm, score 0. */
  lemma ScoreTimesNorms(sqrt: real -> real, a: Vector, b: Vector)
    requires SquareRoot(sqrt)
    ensures var na, nb := sqrt(Dot(a, a)), sqrt(Dot(b, b));
            if |a| == |b| && a != [] && na != 0.0 && nb != 0.0 then Cosine(sqrt, a, b) * (na * nb) == Dot(a, b)
            else Cosine(sqrt, a, b) == 0.0
  {
    var na, nb := sqrt(Dot(a, a)), sqrt(Dot(b, b));
    if na != 0.0 && nb != 0.0 {
      NonZeroProduct(na, nb);
      TimesBack(Dot(a, b), na * nb);
    }
  }

  lemma TimesBack(d: real, m: real)
    requires m != 0.0
    ensures d / m * m == d
  {
  }

  /** Orthogonal vectors score 0. */
  lemma OrthogonalScoresZero(sqrt: real -> real, a: Vector, b: Vector)
    requires SquareRoot(sqrt) && Dot(a, b) == 0.0
    ensures Cosine(sqrt, a, b) == 0.0
  {
    var na, nb := sqrt(Dot(a, a)), sqrt(Dot(b, b));
    if na != 0.0 && nb != 0.0 {
      NonZeroProduct(na, nb);
      ZeroOver(na * nb);
    }
  }

  lemma ZeroOver(m: real)
    requires m != 0.0
    ensures 0.0 / m == 0.0
  {
  }

  // ── Cauchy–Schwarz ───────────────────────────────────────────────────────

  lemma {:induction false} NormNonNegative(a: Vector)
    ensures Dot(a, a) >= 0.0
  {
    if a != [] {
      NormNonNegative(a[1..]);
      assert a[0] * a[0] >= 0.0;
    }
  }

  lemma SquaresGrow(u: real, v: real)
    requires u > v >= 0.0
    ensures u * u > v * v
  {
    assert (u - v) * u > 0.0;
    assert (u - v) * v >= 0.0;
  }

  lemma BoundFromSquares(u: real, v: real)
    requires v >= 0.0 && u * u <= v * v
    ensures u <= v
  {
    if u > v {
      SquaresGrow(u, v);
    }
  }

  /** 2 d x y <= a y^2 + b x^2 whenever d^2 <= a b: the mixed term of the induction step. */
  lemma MixedTerm(d: real, a: real, b: real, x: real, y: real)
    requires a >= 0.0 && b >= 0.0 && d * d <= a * b
    ensures 2.0 * (d * (x * y)) <= a * (y * y) + b * (x * x)
  {
    var p, q, s := a * (y * y), b * (x * x), (x * y) * (x * y);
    var u := 2.0 * (d * (x * y));
    assert p >= 0.0 && q >= 0.0 && s >= 0.0;
    assert u * u == 4.0 * ((d * d) * s) by { Regroup(d, x * y); }
    assert (d * d) * s <= (a * b) * s by { assert (a * b - d * d) * s >= 0.0; }
    assert (a * b) * s == p * q by { RegroupProduct(a, b, x, y); }
    assert 4.0 * (p * q) <= (p + q) * (p + q) by { assert (p - q) * (p - q) >= 0.0; SquareOfSum(p, q); }
    BoundFromSquares(u, p + q);
  }

  lemma Regroup(d: real, z: real)
    ensures (2.0 * (d * z)) * (2.0 * (d * z)) == 4.0 * ((d * d) * (z * z))
  {
    var w := d * z;
    assert w * w == (d * d) * (z * z) by {
      assert w * w == d * (z * w);
      assert z * w == d * (z * z);
    }
  }

  lemma RegroupProduct(a: real, b: real, x: real, y: real)
    ensures (a * b) * ((x * y) * (x * y)) == (a * (y * y)) * (b * (x * x))
  {
    var s, t := x * x, y * y;
    assert (x * y) * (x * y) == s * t;
    assert (a * b) * (s * t) == (a * t) * (b * s);
  }

  lemma SquareOfSum(p: real, q: real)
    ensures (p + q) * (p + q) == (p - q) * (p - q) + 4.0 * (p * q)
  {
  }

  lemma ProductExpand(x: real, y: real, na: real, nb: real)
    ensures (x * x + na) * (y * y + nb) == (x * y) * (x * y) + (na * (y * y) + nb * (x * x)) + na * nb
  {
    var s, t := x * x, y * y;
    assert (s + na) * (t + nb) == s * t + na * t + s * nb + na * nb;
    assert s * t == (x * y) * (x * y) by {
      assert s * t == x * (x * t);
      assert x * t == y * (x * y);
    }
  }

  /** The induction step: one more pair of coordinates keeps the bound. */
  lemma OneMorePair(d: real, na: real, nb: real, x: real, y: real)
    requires na >= 0.0 && nb >= 0.0 && d * d <= na * nb
    ensures (x * y + d) * (x * y + d) <= (x * x + na) * (y * y + nb)
  {
    MixedTerm(d, na, nb, x, y);
    SquareExpand(x * y, d);
    ProductExpand(x, y, na, nb);
  }

  /** dot(a, b)^2 <= |a|^2 |b|^2 for all vectors of equal length. */
  lemma {:induction false} CauchySchwarz(a: Vector, b: Vector)
    requires |a| == |b|
    ensures Dot(a, b) * Dot(a, b) <= Dot(a, a) * Dot(b, b)
  {
    if a != [] {
      CauchySchwarz(a[1..], b[1..]);
      NormNonNegative(a[1..]);
      NormNonNegative(b[1..]);
      OneMorePair(Dot(a[1..], b[1..]), Dot(a[1..], a[1..]), Dot(b[1..], b[1..]), a[0], b[0]);
    }
  }

  lemma SquareExpand(z: real, d: real)
    ensures (z + d) * (z + d) == z * z + 2.0 * (d * z) + d * d
  {
  }

  lemma ProductBound(d: real, na: real, nb: real)
    requires na >= 0.0 && nb >= 0.0 && d * d <= (na * na) * (nb * nb)
    ensures d <= na * nb
  {
    var m := na * nb;
    assert m >= 0.0;
    assert m * m == (na * na) * (nb * nb) by {
      assert m * m == na * (nb * m);
      assert nb * m == na * (nb * nb);
    }
    BoundFromSquares(d, m);
  }

  lemma Scaled(r: real, m: real)
    requires r > 1.0 && m > 0.0
    ensures r * m > m
  {
    assert (r - 1.0) * m > 0.0;
  }

  lemma DivideBound(u: real, m: real)
    requires m > 0.0 && u <= m
    ensures u / m <= 1.0
  {
    var r := u / m;
    assert r * m == u;
    if r > 1.0 {
      Scaled(r, m);
    }
  }

  lemma UnitBound(d: real, na: real, nb: real, p: real, q: real)
    requires na > 0.0 && nb > 0.0 && na * na == p && nb * nb == q && d * d <= p * q
    ensures Ratio(d, na, nb) <= 1.0
  {
    ProductBound(d, na, nb);
    assert na * nb > 0.0;
    DivideBound(d, na * nb);
  }

  lemma CosineAtMostOne(sqrt: real -> real, a: Vector, b: Vector)
    requires SquareRoot(sqrt)
    ensures Cosine(sqrt, a, b) <= 1.0
  {
    hide Ratio;
    var na, nb := sqrt(Dot(a, a)), sqrt(Dot(b, b));
    if a != [] && b != [] && |a| == |b| && na != 0.0 && nb != 0.0 {
      assert Cosine(sqrt, a, b) == Ratio(Dot(a, b), na, nb);
      NormNonNegative(a);
      NormNonNegative(b);
      CauchySchwarz(a, b);
      UnitBound(Dot(a, b), na, nb, Dot(a, a), Dot(b, b));
    }
  }

  lemma CosineOfSelf(sqrt: real -> real, a: Vector)
    requires SquareRoot(sqrt) && Dot(a, a) > 0.0
    ensures Cosine(sqrt, a, a) == 1.0
  {
    var n := sqrt(Dot(a, a));
    assert n * n == Dot(a, a) && n != 0.0;
    SelfQuotient(n * n);
  }

  lemma SelfQuotient(m: real)
    requires m != 0.0
    ensures m / m == 1.0
  {
  }

  // ── the cache ────────────────────────────────────────────────────────────

  datatype Entry = Entry(emb: Vector, resp: string)

  /** A Redis list, newest entry first, with the expiry set by the last write. */
  datatype Bucket = Bucket(entries: seq<Entry>, expiresAt: real)

  type BucketKey = string

  function RoleOf(role: string): string {
    if role == "" then "-" else role
  }

  /** The bucket of a tenant and role, after the fixed prefix: the two are joined by a colon. */
  function KeyOf(tenant: string, role: string): BucketKey {
    tenant + ":" + RoleOf(role)
  }

  /** An empty role and "-" are the same. */
  predicate SameRole(role: string, other: string) {
    role == other || ((role == "" || role == "-") && (other == "" || other == "-"))
  }

  /** Tenants without a colon have buckets of their own, one per role; an empty role reads as "-". */
  lemma KeysSeparate(tenant: string, role: string, other: string, otherRole: string)
    requires ':' !in tenant && ':' !in other
    ensures KeyOf(tenant, role) == KeyOf(other, otherRole) <==>
            tenant == other && SameRole(role, otherRole)
  {
    var k, l := KeyOf(tenant, role), KeyOf(other, otherRole);
    if k == l {
      NoEarlierColon(tenant, RoleOf(role), if |tenant| <= |other| then |tenant| else |other|);
      NoEarlierColon(other, RoleOf(otherRole), if |tenant| <= |other| then |tenant| else |other|);
      assert tenant == k[..|tenant|] && other == l[..|other|];
      assert RoleOf(role) == k[|tenant| + 1..] && RoleOf(otherRole) == l[|other| + 1..];
    }
  }

  lemma NoEarlierColon(tenant: string, rest: string, n: nat)
    requires ':' !in tenant && n <= |tenant|
    ensures (tenant + ":" + rest)[n] == ':' <==> n == |tenant|
  {
  }

  /** With a colon in a tenant they can share one. */
  lemma KeysCollide()
    ensures KeyOf("a:b", "c") == KeyOf("a", "b:c")
  {
    assert KeyOf("a:b", "c") == "a:b:c" == KeyOf("a", "b:c");
  }

  function LiveEntries(buckets: map<BucketKey, Bucket>, key: BucketKey, now: real): seq<Entry> {
    if key in buckets && now < buckets[key].expiresAt then buckets[key].entries else []
  }

  function Front(entries: seq<Entry>, n: nat): seq<Entry> {
    if |entries| <= n then entries else entries[..n]
  }

  /** LPUSH then LTRIM 0 max-1. */
  function Pushed(entries: seq<Entry>, e: Entry, max: nat): seq<Entry> {
    Front([e] + entries, max)
  }

  /** Entry `k` has the highest positive score, and every newer entry scores less. */
  ghost predicate IsBest(sqrt: real -> real, entries: seq<Entry>, qv: Vector, k: nat) {
    && k < |entries| && Cosine(sqrt, qv, entries[k].emb) > 0.0
    && (forall j :: 0 <= j < |entries| ==> Cosine(sqrt, qv, entries[j].emb) <= Cosine(sqrt, qv, entries[k].emb))
    && (forall j :: 0 <= j < k ==> Cosine(sqrt, qv, entries[j].emb) < Cosine(sqrt, qv, entries[k].emb))
  }

  /** The index of the best of the first `n` entries: only a strictly higher score replaces the best. */
  function Best(sqrt: real -> real, entries: seq<Entry>, qv: Vector, n: nat): (k: Option<nat>)
    requires n <= |entries|
    ensures k.Some? ==> k.value < n && IsBest(sqrt, entries[..n], qv, k.value)
    ensures k.None? ==> forall j :: 0 <= j < n ==> Cosine(sqrt, qv, entries[j].emb) <= 0.0
  {
    if n == 0 then None
    else
      assert forall j :: 0 <= j < n - 1 ==> entries[..n][j] == entries[..n - 1][j];
      var best, s := Best(sqrt, entries, qv, n - 1), Cosine(sqrt, qv, entries[n - 1].emb);
      if s > Score(sqrt, entries, qv, best) then Some(n - 1) else best
  }

  function Score(sqrt: real -> real, entries: seq<Entry>, qv: Vector, k: Option<nat>): real
    requires k.Some? ==> k.value < |entries|
  {
    if k.Some? then Cosine(sqrt, qv, entries[k.value].emb) else 0.0
  }

  /** What a lookup over the entries answers. */
  function Lookup(sqrt: real -> real, threshold: real, entries: seq<Entry>, qv: Vector): Option<string> {
    if qv == [] then None
    else
      var k := Best(sqrt, entries, qv, |entries|);
      if k.Some? && Score(sqrt, entries, qv, k) >= threshold then Some(entries[k.value].resp) else None
  }

  /** A lookup answers with the newest among the entries of the highest score, if and only if that
      score is positive and reaches the threshold. */
  lemma LookupIsBest(sqrt: real -> real, threshold: real, entries: seq<Entry>, qv: Vector)
    ensures Lookup(sqrt, threshold, entries, qv).Some? <==>
            qv != [] && exists k: nat {:trigger IsBest(sqrt, entries, qv, k)} ::
              IsBest(sqrt, entries, qv, k) && Cosine(sqrt, qv, entries[k].emb) >= threshold
    ensures forall k: nat {:trigger IsBest(sqrt, entries, qv, k)} :: IsBest(sqrt, entries, qv, k) && Lookup(sqrt, threshold, entries, qv).Some? ==>
              Lookup(sqrt, threshold, entries, qv) == Some(entries[k].resp)
  {
    var best := Best(sqrt, entries, qv, |entries|);
    assert entries[..|entries|] == entries;
    forall k: nat | IsBest(sqrt, entries, qv, k) ensures best == Some(k) {
      if best.Some? {
        OneBest(sqrt, entries, qv, k, best.value);
      }
    }
  }

  /** An answer's query is really similar: with a positive threshold, the dot product of the query and the
      entry answered with is at least that share of the product of their norms, which are not zero. */
  lemma AnswerIsSimilar(sqrt: real -> real, threshold: real, entries: seq<Entry>, qv: Vector) returns (k: nat)
    requires SquareRoot(sqrt) && threshold > 0.0 && Lookup(sqrt, threshold, entries, qv).Some?
    ensures k < |entries| && Lookup(sqrt, threshold, entries, qv) == Some(entries[k].resp) && |entries[k].emb| == |qv|
    ensures var n, m := sqrt(Dot(qv, qv)), sqrt(Dot(entries[k].emb, entries[k].emb));
            n > 0.0 && m > 0.0 && Dot(qv, entries[k].emb) >= threshold * (n * m)
  {
    hide Cosine, Dot, Lookup;
    LookupIsBest(sqrt, threshold, entries, qv);
    k :| IsBest(sqrt, entries, qv, k) && Cosine(sqrt, qv, entries[k].emb) >= threshold;
    hide IsBest;
    SimilarEnough(sqrt, threshold, qv, entries[k].emb);
  }

  lemma ShareBound(d: real, c: real, t: real, n: real, m: real)
    requires n > 0.0 && m > 0.0 && c >= t && c * (n * m) == d
    ensures d >= t * (n * m)
  {
    var q := n * m;
    assert q > 0.0;
    assert (c - t) * q >= 0.0;
  }

  /** A positive score comes from two vectors of one length, both with a norm. */
  lemma PositiveScore(sqrt: real -> real, a: Vector, b: Vector)
    requires SquareRoot(sqrt) && Cosine(sqrt, a, b) > 0.0
    ensures |a| == |b| && sqrt(Dot(a, a)) > 0.0 && sqrt(Dot(b, b)) > 0.0
  {
    NormNonNegative(a);
    NormNonNegative(b);
    hide Dot, Ratio;
    assert sqrt(Dot(a, a)) >= 0.0 && sqrt(Dot(b, b)) >= 0.0;
  }

  lemma SimilarEnough(sqrt: real -> real, threshold: real, a: Vector, b: Vector)
    requires SquareRoot(sqrt) && threshold > 0.0 && Cosine(sqrt, a, b) >= threshold
    ensures var n, m := sqrt(Dot(a, a)), sqrt(Dot(b, b));
            |a| == |b| && n > 0.0 && m > 0.0 && Dot(a, b) >= threshold * (n * m)
  {
    hide *;
    PositiveScore(sqrt, a, b);
    ScoreTimesNorms(sqrt, a, b);
    ShareBound(Dot(a, b), Cosine(sqrt, a, b), threshold, sqrt(Dot(a, a)), sqrt(Dot(b, b)));
  }

  lemma OneBest(sqrt: real -> real, entries: seq<Entry>, qv: Vector, k: nat, l: nat)
    requires IsBest(sqrt, entries, qv, k) && IsBest(sqrt, entries, qv, l)
    ensures k == l
  {
    hide Cosine;
  }

  type Buckets = map<BucketKey, Bucket>

  datatype Put = Put(tenant: string, role: string, query: string, response: string, at: real)

  /** The embedder, the expiry and the bucket bound of a cache. */
  datatype Settings = Settings(embed: (string, string) -> Vector, ttl: real, bucketMax: nat)

  function EntryOf(cfg: Settings, p: Put): Entry {
    Entry(cfg.embed(p.query, p.tenant), p.response)
  }

  /** A put with an empty embedding does nothing; any other one pushes in front and renews the expiry. */
  function AfterPut(cfg: Settings, buckets: Buckets, p: Put): Buckets {
    var key, e := KeyOf(p.tenant, p.role), EntryOf(cfg, p);
    if e.emb == [] then buckets
    else buckets[key := Bucket(Pushed(LiveEntries(buckets, key, p.at), e, cfg.bucketMax), p.at + cfg.ttl)]
  }

  function AfterPuts(cfg: Settings, buckets: Buckets, puts: seq<Put>): Buckets {
    if puts == [] then buckets else AfterPut(cfg, AfterPuts(cfg, buckets, puts[..|puts| - 1]), puts[|puts| - 1])
  }

  class SemanticTurnCache {
    const sqrt: real -> real
    const cfg: Settings
    const threshold: real
    var buckets: Buckets

    constructor (sqrt: real -> real, cfg: Settings, threshold: real)
      requires cfg.bucketMax >= 1
      ensures this.sqrt == sqrt && this.cfg == cfg && this.threshold == threshold && buckets == map[]
    {
      this.sqrt, this.cfg, this.threshold := sqrt, cfg, threshold;
      buckets := map[];
    }

    method Get(tenant: string, role: string, query: string, now: real) returns (hit: Option<string>)
      ensures hit == Lookup(sqrt, threshold, Front(LiveEntries(buckets, KeyOf(tenant, role), now), cfg.bucketMax), cfg.embed(query, tenant))
    {
      var qv := cfg.embed(query, tenant);
      if qv == [] {
        return None;
      }
      var entries := Front(LiveEntries(buckets, KeyOf(tenant, role), now), cfg.bucketMax);
      var best: Option<nat> := None;
      var bestScore := 0.0;
      for j := 0 to |entries|
        invariant best == Best(sqrt, entries, qv, j) && bestScore == Score(sqrt, entries, qv, best)
      {
        var s := Cosine(sqrt, qv, entries[j].emb);
        if s > bestScore {
          bestScore, best := s, Some(j);
        }
      }
      if best.Some? && bestScore >= threshold {
        return Some(entries[best.value].resp);
      }
      return None;
    }

    method Store(tenant: string, role: string, query: string, response: string, now: real)
      modifies this
      ensures buckets == AfterPut(cfg, old(buckets), Put(tenant, role, query, response, now))
    {
      var qv := cfg.embed(query, tenant);
      if qv == [] {
        return;
      }
      var key := KeyOf(tenant, role);
      var list := [Entry(qv, response)] + LiveEntries(buckets, key, now);
      if |list| > cfg.bucketMax {
        list := list[..cfg.bucketMax];
      }
      buckets := buckets[key := Bucket(list, now + cfg.ttl)];
    }
  }

  // ── self-hit ─────────────────────────────────────────────────────────────

  predicate Reaches(cfg: Settings, key: BucketKey, p: Put) {
    KeyOf(p.tenant, p.role) == key && EntryOf(cfg, p).emb != []
  }

  /** The puts that reach a bucket, in order. */
  function PutsTo(cfg: Settings, key: BucketKey, puts: seq<Put>): seq<Put> {
    if puts == [] then []
    else
      var p := puts[|puts| - 1];
      PutsTo(cfg, key, puts[..|puts| - 1]) + if Reaches(cfg, key, p) then [p] else []
  }

  /** Each of these puts comes before the expiry set by the one before it. */
  ghost predicate InTime(cfg: Settings, puts: seq<Put>) {
    forall i :: 0 < i < |puts| ==> puts[i].at < puts[i - 1].at + cfg.ttl
  }

  /** The first of these puts, if there is one, comes before `limit`. */
  predicate StartsBefore(puts: seq<Put>, limit: real) {
    puts != [] ==> puts[0].at < limit
  }

  /** The entries of a bucket after these puts, the last one in front. */
  function PushAll(cfg: Settings, entries: seq<Entry>, puts: seq<Put>): seq<Entry> {
    if puts == [] then entries
    else Pushed(PushAll(cfg, entries, puts[..|puts| - 1]), EntryOf(cfg, puts[|puts| - 1]), cfg.bucketMax)
  }

  /** A bucket after its own puts: all of them in front of what it held, up to the bound, and the expiry
      the last of them set. */
  function After(cfg: Settings, start: Bucket, own: seq<Put>): Bucket {
    if own == [] then start else Bucket(PushAll(cfg, start.entries, own), own[|own| - 1].at + cfg.ttl)
  }

  /** A put to another bucket, or with an empty embedding, changes nothing in a bucket; any other one
      that comes in time pushes in front of what is there and renews the expiry. */
  lemma OnePut(cfg: Settings, buckets: Buckets, key: BucketKey, p: Put)
    requires key in buckets && (Reaches(cfg, key, p) ==> p.at < buckets[key].expiresAt)
    ensures key in AfterPut(cfg, buckets, p)
    ensures AfterPut(cfg, buckets, p)[key] ==
            if Reaches(cfg, key, p) then Bucket(Pushed(buckets[key].entries, EntryOf(cfg, p), cfg.bucketMax), p.at + cfg.ttl)
            else buckets[key]
  {
  }

  lemma PutsSnoc(cfg: Settings, key: BucketKey, puts: seq<Put>)
    requires puts != []
    ensures var front, p := puts[..|puts| - 1], puts[|puts| - 1];
            PutsTo(cfg, key, puts) == if Reaches(cfg, key, p) then PutsTo(cfg, key, front) + [p] else PutsTo(cfg, key, front)
  {
    hide Reaches;
  }

  lemma AfterSnoc(cfg: Settings, start: Bucket, before: seq<Put>, p: Put)
    ensures After(cfg, start, before + [p]) ==
            Bucket(Pushed(After(cfg, start, before).entries, EntryOf(cfg, p), cfg.bucketMax), p.at + cfg.ttl)
  {
    hide Pushed, EntryOf;
    assert (before + [p])[..|before|] == before;
    assert PushAll(cfg, start.entries, []) == start.entries;
  }

  /** If one more put is in time, it comes before the expiry the earlier ones leave behind. */
  lemma InTimeSnoc(cfg: Settings, start: Bucket, before: seq<Put>, p: Put)
    requires InTime(cfg, before + [p]) && StartsBefore(before + [p], start.expiresAt)
    ensures InTime(cfg, before) && StartsBefore(before, start.expiresAt) && p.at < After(cfg, start, before).expiresAt
  {
    hide PushAll;
    var all := before + [p];
    assert forall i :: 0 <= i < |before| ==> all[i] == before[i];
    assert all[|before|] == p;
  }

  /** While the puts that reach a bucket come in time, it holds all of them, whatever other puts come
      between, and expires after the last of them. */
  lemma {:induction false} BucketAfterPuts(cfg: Settings, buckets: Buckets, key: BucketKey, puts: seq<Put>)
    requires key in buckets
    requires InTime(cfg, PutsTo(cfg, key, puts)) && StartsBefore(PutsTo(cfg, key, puts), buckets[key].expiresAt)
    ensures key in AfterPuts(cfg, buckets, puts)
    ensures AfterPuts(cfg, buckets, puts)[key] == After(cfg, buckets[key], PutsTo(cfg, key, puts))
  {
    if puts != [] {
      var front, p := puts[..|puts| - 1], puts[|puts| - 1];
      var before := PutsTo(cfg, key, front);
      assert AfterPuts(cfg, buckets, puts) == AfterPut(cfg, AfterPuts(cfg, buckets, front), p);
      PutsSnoc(cfg, key, puts);
      hide *;
      if Reaches(cfg, key, p) {
        InTimeSnoc(cfg, buckets[key], before, p);
        AfterSnoc(cfg, buckets[key], before, p);
      }
      BucketAfterPuts(cfg, buckets, key, front);
      OnePut(cfg, AfterPuts(cfg, buckets, front), key, p);
    }
  }

  lemma {:induction false} EntrySurvives(cfg: Settings, entries: seq<Entry>, puts: seq<Put>, i: nat)
    requires i < |puts| <= cfg.bucketMax
    ensures var list := PushAll(cfg, entries, puts);
            |puts| <= |list| <= cfg.bucketMax && list[|puts| - 1 - i] == EntryOf(cfg, puts[i])
  {
    if |puts| > 1 {
      var front := puts[..|puts| - 1];
      if i < |front| {
        EntrySurvives(cfg, entries, front, i);
      } else {
        EntrySurvives(cfg, entries, front, 0);
      }
    }
  }

  /** Entry `i` of these puts scores 1 against the query, and no later one does. */
  ghost predicate LastPerfect(sqrt: real -> real, cfg: Settings, puts: seq<Put>, qv: Vector, i: nat) {
    && i < |puts| && Cosine(sqrt, qv, EntryOf(cfg, puts[i]).emb) == 1.0
    && forall j :: i < j < |puts| ==> Cosine(sqrt, qv, EntryOf(cfg, puts[j]).emb) < 1.0
  }

  /** Self-hit, from any state of the cache: after the put of a query with a non-zero embedding, with
      any puts of any tenants, roles and queries after it, fewer than bucket_max of which reach the
      same bucket, each within the expiry the one before it set, a get of the same query hits for any
      threshold up to 1 if and only if it comes before the expiry set by the last of them. It then
      answers with the response of the most recent of these puts that scores 1, which is the query's
      own unless a later one is parallel to it. */
  lemma SelfHit(sqrt: real -> real, cfg: Settings, threshold: real, buckets: Buckets, put: Put, later: seq<Put>, now: real)
    returns (i: nat)
    requires SquareRoot(sqrt) && threshold <= 1.0
    requires var qv := cfg.embed(put.query, put.tenant); Dot(qv, qv) > 0.0
    requires var key := KeyOf(put.tenant, put.role);
             |PutsTo(cfg, key, later)| < cfg.bucketMax && InTime(cfg, [put] + PutsTo(cfg, key, later))
    ensures var key, qv := KeyOf(put.tenant, put.role), cfg.embed(put.query, put.tenant);
            var own, after := [put] + PutsTo(cfg, key, later), AfterPuts(cfg, AfterPut(cfg, buckets, put), later);
            var answer := Lookup(sqrt, threshold, Front(LiveEntries(after, key, now), cfg.bucketMax), qv);
            && LastPerfect(sqrt, cfg, own, qv, i)
            && answer == if now < own[|own| - 1].at + cfg.ttl then Some(own[i].response) else None
  {
    var key, qv := KeyOf(put.tenant, put.role), cfg.embed(put.query, put.tenant);
    var own, before := [put] + PutsTo(cfg, key, later), LiveEntries(buckets, key, put.at);
    assert qv != [] && own[0] == put;
    OwnBucket(cfg, buckets, put, later);
    CosineOfSelf(sqrt, qv);
    hide Cosine, Dot, PutsTo, InTime, PushAll, AfterPuts, AfterPut, SquareRoot, Lookup;
    i := PerfectPut(sqrt, cfg, threshold, before, own, qv);
    EntrySurvives(cfg, before, own, 0);
    EmptyMisses(sqrt, threshold, qv);
  }

  lemma EmptyMisses(sqrt: real -> real, threshold: real, qv: Vector)
    ensures Lookup(sqrt, threshold, [], qv) == None
  {
  }

  lemma OwnBucket(cfg: Settings, buckets: Buckets, put: Put, later: seq<Put>)
    requires EntryOf(cfg, put).emb != []
    requires InTime(cfg, [put] + PutsTo(cfg, KeyOf(put.tenant, put.role), later))
    ensures var key := KeyOf(put.tenant, put.role);
            var own, after := [put] + PutsTo(cfg, key, later), AfterPuts(cfg, AfterPut(cfg, buckets, put), later);
            && key in after
            && after[key] == Bucket(PushAll(cfg, LiveEntries(buckets, key, put.at), own), own[|own| - 1].at + cfg.ttl)
  {
    var key, start := KeyOf(put.tenant, put.role), AfterPut(cfg, buckets, put);
    var mine, entries := PutsTo(cfg, key, later), LiveEntries(buckets, key, put.at);
    assert start[key] == Bucket(Pushed(entries, EntryOf(cfg, put), cfg.bucketMax), put.at + cfg.ttl);
    hide *;
    InTimeTail(cfg, put, mine);
    BucketAfterPuts(cfg, start, key, later);
    AfterFirst(cfg, entries, put, mine);
  }

  lemma InTimeTail(cfg: Settings, put: Put, mine: seq<Put>)
    requires InTime(cfg, [put] + mine)
    ensures InTime(cfg, mine) && StartsBefore(mine, put.at + cfg.ttl)
  {
    var own := [put] + mine;
    assert forall j :: 0 <= j < |mine| ==> mine[j] == own[j + 1];
    assert own[0] == put;
  }

  lemma AfterFirst(cfg: Settings, entries: seq<Entry>, put: Put, mine: seq<Put>)
    ensures var own := [put] + mine;
            After(cfg, Bucket(Pushed(entries, EntryOf(cfg, put), cfg.bucketMax), put.at + cfg.ttl), mine) ==
            Bucket(PushAll(cfg, entries, own), own[|own| - 1].at + cfg.ttl)
  {
    PushFirst(cfg, entries, put, mine);
    assert mine == [] ==> PushAll(cfg, Pushed(entries, EntryOf(cfg, put), cfg.bucketMax), mine) == Pushed(entries, EntryOf(cfg, put), cfg.bucketMax);
  }

  lemma {:induction false} PushFirst(cfg: Settings, entries: seq<Entry>, put: Put, puts: seq<Put>)
    ensures PushAll(cfg, entries, [put] + puts) == PushAll(cfg, Pushed(entries, EntryOf(cfg, put), cfg.bucketMax), puts)
  {
    if puts == [] {
      assert [put] + puts == [put] && [put][..0] == [];
    } else {
      PushFirst(cfg, entries, put, puts[..|puts| - 1]);
      assert ([put] + puts)[..|puts|] == [put] + puts[..|puts| - 1];
    }
  }

  /** The most recent of these puts that scores 1. */
  lemma LatestPerfect(sqrt: real -> real, cfg: Settings, puts: seq<Put>, qv: Vector) returns (i: nat)
    requires SquareRoot(sqrt) && puts != [] && Cosine(sqrt, qv, EntryOf(cfg, puts[0]).emb) == 1.0
    ensures LastPerfect(sqrt, cfg, puts, qv, i)
  {
    i := |puts| - 1;
    hide Cosine, SquareRoot, EntryOf;
    while i > 0 && Cosine(sqrt, qv, EntryOf(cfg, puts[i]).emb) != 1.0
      invariant i < |puts|
      invariant forall j :: i < j < |puts| ==> Cosine(sqrt, qv, EntryOf(cfg, puts[j]).emb) < 1.0
    {
      CosineAtMostOne(sqrt, qv, EntryOf(cfg, puts[i]).emb);
      i := i - 1;
    }
  }

  /** It is the best entry of the bucket. */
  lemma PerfectIsBest(sqrt: real -> real, cfg: Settings, entries: seq<Entry>, puts: seq<Put>, qv: Vector, i: nat)
    requires SquareRoot(sqrt) && |puts| <= cfg.bucketMax && LastPerfect(sqrt, cfg, puts, qv, i)
    ensures var list, k := PushAll(cfg, entries, puts), |puts| - 1 - i;
            IsBest(sqrt, list, qv, k) && list[k] == EntryOf(cfg, puts[i])
  {
    var list, k := PushAll(cfg, entries, puts), |puts| - 1 - i;
    hide Cosine, SquareRoot, PushAll, EntryOf;
    EntrySurvives(cfg, entries, puts, i);
    forall j | 0 <= j < |list| ensures Cosine(sqrt, qv, list[j].emb) <= 1.0 {
      CosineAtMostOne(sqrt, qv, list[j].emb);
    }
    forall j | 0 <= j < k ensures Cosine(sqrt, qv, list[j].emb) < 1.0 {
      EntrySurvives(cfg, entries, puts, |puts| - 1 - j);
    }
  }

  /** With a perfect score among the puts, a lookup over the bucket answers with the latest of them. */
  lemma PerfectPut(sqrt: real -> real, cfg: Settings, threshold: real, entries: seq<Entry>, puts: seq<Put>, qv: Vector)
    returns (i: nat)
    requires SquareRoot(sqrt) && threshold <= 1.0 && qv != [] && 0 < |puts| <= cfg.bucketMax
    requires Cosine(sqrt, qv, EntryOf(cfg, puts[0]).emb) == 1.0
    ensures LastPerfect(sqrt, cfg, puts, qv, i)
    ensures Lookup(sqrt, threshold, PushAll(cfg, entries, puts), qv) == Some(puts[i].response)
  {
    hide Cosine, SquareRoot, PushAll, Lookup, IsBest;
    i := LatestPerfect(sqrt, cfg, puts, qv);
    PerfectIsBest(sqrt, cfg, entries, puts, qv, i);
    LookupIsBest(sqrt, threshold, PushAll(cfg, entries, puts), qv);
    assert IsBest(sqrt, PushAll(cfg, entries, puts), qv, |puts| - 1 - i);
  }

  // ── provenance ───────────────────────────────────────────────────────────

  ghost predicate CameFrom(cfg: Settings, puts: seq<Put>, key: BucketKey, e: Entry) {
    exists i :: 0 <= i < |puts| && KeyOf(puts[i].tenant, puts[i].role) == key && EntryOf(cfg, puts[i]) == e
  }

  ghost predicate AllCameFrom(cfg: Settings, puts: seq<Put>, buckets: Buckets) {
    forall key, e :: key in buckets && e in buckets[key].entries ==> CameFrom(cfg, puts, key, e)
  }

  lemma CameFromMore(cfg: Settings, puts: seq<Put>, p: Put, key: BucketKey, e: Entry)
    requires CameFrom(cfg, puts, key, e) || (KeyOf(p.tenant, p.role) == key && EntryOf(cfg, p) == e)
    ensures CameFrom(cfg, puts + [p], key, e)
  {
    hide KeyOf, EntryOf;
    var more := puts + [p];
    if CameFrom(cfg, puts, key, e) {
      var i :| 0 <= i < |puts| && KeyOf(puts[i].tenant, puts[i].role) == key && EntryOf(cfg, puts[i]) == e;
      assert more[i] == puts[i];
    } else {
      assert more[|puts|] == p;
    }
  }

  lemma PutKeepsOrigin(cfg: Settings, puts: seq<Put>, p: Put, buckets: Buckets)
    requires AllCameFrom(cfg, puts, buckets)
    ensures AllCameFrom(cfg, puts + [p], AfterPut(cfg, buckets, p))
  {
    hide CameFrom, KeyOf, EntryOf;
    var after := AfterPut(cfg, buckets, p);
    forall key, e | key in after && e in after[key].entries ensures CameFrom(cfg, puts + [p], key, e) {
      CameFromMore(cfg, puts, p, key, e);
    }
  }

  lemma {:induction false} PutsKeepOrigin(cfg: Settings, puts: seq<Put>)
    ensures AllCameFrom(cfg, puts, AfterPuts(cfg, map[], puts))
  {
    if puts != [] {
      var front, p := puts[..|puts| - 1], puts[|puts| - 1];
      PutsKeepOrigin(cfg, front);
      PutKeepsOrigin(cfg, front, p, AfterPuts(cfg, map[], front));
      assert front + [p] == puts;
    }
  }

  /** The response of a put into this bucket whose embedding reaches the threshold against the query. */
  ghost predicate AnsweredBy(sqrt: real -> real, cfg: Settings, threshold: real, key: BucketKey, qv: Vector, p: Put, answer: string) {
    KeyOf(p.tenant, p.role) == key && p.response == answer && Cosine(sqrt, qv, EntryOf(cfg, p).emb) >= threshold
  }

  /** Whatever puts an empty cache has seen, an answer is the response of one of them into the same
      bucket that reaches the threshold; if no tenant has a colon in its name, every such put is one of
      the same tenant under the same role. */
  lemma AnswersStayInTenant(sqrt: real -> real, cfg: Settings, threshold: real, puts: seq<Put>, tenant: string, role: string, qv: Vector, now: real)
    requires Lookup(sqrt, threshold, Front(LiveEntries(AfterPuts(cfg, map[], puts), KeyOf(tenant, role), now), cfg.bucketMax), qv).Some?
    ensures var key := KeyOf(tenant, role);
            var answer := Lookup(sqrt, threshold, Front(LiveEntries(AfterPuts(cfg, map[], puts), key, now), cfg.bucketMax), qv).value;
            && (exists i :: 0 <= i < |puts| && AnsweredBy(sqrt, cfg, threshold, key, qv, puts[i], answer))
            && forall i :: 0 <= i < |puts| && AnsweredBy(sqrt, cfg, threshold, key, qv, puts[i], answer) ==>
                 ':' !in tenant && ':' !in puts[i].tenant ==> puts[i].tenant == tenant && SameRole(puts[i].role, role)
  {
    var key, buckets := KeyOf(tenant, role), AfterPuts(cfg, map[], puts);
    var entries := Front(LiveEntries(buckets, key, now), cfg.bucketMax);
    PutsKeepOrigin(cfg, puts);
    hide Lookup, Cosine, KeyOf, AfterPuts, RoleOf, SameRole;
    LookupIsBest(sqrt, threshold, entries, qv);
    var answer := Lookup(sqrt, threshold, entries, qv).value;
    var k: nat :| IsBest(sqrt, entries, qv, k) && Cosine(sqrt, qv, entries[k].emb) >= threshold;
    assert entries[k] in buckets[key].entries;
    assert CameFrom(cfg, puts, key, entries[k]);
    var i :| 0 <= i < |puts| && KeyOf(puts[i].tenant, puts[i].role) == key && EntryOf(cfg, puts[i]) == entries[k];
    assert AnsweredBy(sqrt, cfg, threshold, key, qv, puts[i], answer);
    forall j | 0 <= j < |puts| && AnsweredBy(sqrt, cfg, threshold, key, qv, puts[j], answer) && ':' !in tenant && ':' !in puts[j].tenant
      ensures puts[j].tenant == tenant && SameRole(puts[j].role, role)
    {
      KeysSeparate(puts[j].tenant, puts[j].role, tenant, role);
    }
  }
}
