/** Python's `sorted` over values with a total order: a canonical form of a list. */
module Sorting {

  ghost predicate TotalOrder<T(!new)>(le: (T, T) -> bool) {
    && (forall a, b :: le(a, b) || le(b, a))
    && (forall a, b :: le(a, b) && le(b, a) ==> a == b)
    && (forall a, b, c :: le(a, b) && le(b, c) ==> le(a, c))
  }

  ghost predicate Ordered<T>(le: (T, T) -> bool, xs: seq<T>) {
    forall i, j :: 0 <= i < j < |xs| ==> le(xs[i], xs[j])
  }

  function Insert<T>(le: (T, T) -> bool, x: T, xs: seq<T>): seq<T> {
    if xs == [] then [x]
    else if le(x, xs[0]) then [x] + xs
    else [xs[0]] + Insert(le, x, xs[1..])
  }

  function SortBy<T>(le: (T, T) -> bool, xs: seq<T>): seq<T> {
    if xs == [] then [] else Insert(le, xs[0], SortBy(le, xs[1..]))
  }

  function Filter<T>(p: T -> bool, xs: seq<T>): seq<T> {
    if xs == [] then [] else (if p(xs[0]) then [xs[0]] else []) + Filter(p, xs[1..])
  }

  lemma {:induction false} InsertPermutes<T>(le: (T, T) -> bool, x: T, xs: seq<T>)
    ensures multiset(Insert(le, x, xs)) == multiset{x} + multiset(xs)
  {
    if xs != [] {
      assert xs == [xs[0]] + xs[1..];
      InsertPermutes(le, x, xs[1..]);
    }
  }

  lemma {:induction false} InsertSorts<T(!new)>(le: (T, T) -> bool, x: T, xs: seq<T>)
    requires TotalOrder(le) && Ordered(le, xs)
    ensures Ordered(le, Insert(le, x, xs))
  {
    if xs != [] && !le(x, xs[0]) {
      InsertSorts(le, x, xs[1..]);
      InsertPermutes(le, x, xs[1..]);
      var rest := Insert(le, x, xs[1..]);
      forall j | 0 <= j < |rest| ensures le(xs[0], rest[j]) {
        assert rest[j] in multiset(rest);
        assert rest[j] == x || rest[j] in xs[1..];
      }
    }
  }

  /** The sorted list is ordered and holds the same elements with the same multiplicities. */
  lemma {:induction false} SortBySorts<T(!new)>(le: (T, T) -> bool, xs: seq<T>)
    requires TotalOrder(le)
    ensures Ordered(le, SortBy(le, xs)) && multiset(SortBy(le, xs)) == multiset(xs)
  {
    if xs != [] {
      SortBySorts(le, xs[1..]);
      InsertSorts(le, xs[0], SortBy(le, xs[1..]));
      InsertPermutes(le, xs[0], SortBy(le, xs[1..]));
      assert xs == [xs[0]] + xs[1..];
    }
  }

  lemma RestOf<T>(a: seq<T>)
    requires a != []
    ensures multiset(a[1..]) == multiset(a) - multiset{a[0]}
  {
    assert a == [a[0]] + a[1..];
  }

  lemma LeastIsFirst<T(!new)>(le: (T, T) -> bool, a: seq<T>, x: T)
    requires TotalOrder(le) && Ordered(le, a) && x in multiset(a)
    ensures a != [] && le(a[0], x)
  {
    var i :| 0 <= i < |a| && a[i] == x;
    assert i > 0 ==> le(a[0], a[i]);
    assert le(x, x);
  }

  lemma {:induction false} OrderedUnique<T(!new)>(le: (T, T) -> bool, a: seq<T>, b: seq<T>)
    requires TotalOrder(le) && Ordered(le, a) && Ordered(le, b) && multiset(a) == multiset(b)
    ensures a == b
  {
    if a == [] {
      assert |multiset(b)| == |b|;
    } else {
      LeastIsFirst(le, b, a[0]);
      LeastIsFirst(le, a, b[0]);
      RestOf(a);
      RestOf(b);
      assert Ordered(le, a[1..]) && Ordered(le, b[1..]);
      OrderedUnique(le, a[1..], b[1..]);
      assert a == [a[0]] + a[1..] && b == [b[0]] + b[1..];
    }
  }

  /** Sorting is canonical: two lists sort to the same list exactly when one is a permutation of the other. */
  lemma SortIsCanonical<T(!new)>(le: (T, T) -> bool, a: seq<T>, b: seq<T>)
    requires TotalOrder(le)
    ensures SortBy(le, a) == SortBy(le, b) <==> multiset(a) == multiset(b)
  {
    SortBySorts(le, a);
    SortBySorts(le, b);
    if multiset(a) == multiset(b) {
      OrderedUnique(le, SortBy(le, a), SortBy(le, b));
    }
  }

  /** Lists that sort alike have the same members. */
  lemma SameMembers<T(!new)>(le: (T, T) -> bool, a: seq<T>, b: seq<T>)
    requires TotalOrder(le) && SortBy(le, a) == SortBy(le, b)
    ensures |a| == |b| && forall x :: x in a <==> x in b
  {
    SortIsCanonical(le, a, b);
    assert forall x :: (x in a <==> x in multiset(a)) && (x in b <==> x in multiset(b));
    assert |multiset(a)| == |a| && |multiset(b)| == |b|;
  }

  lemma {:induction false} FilterInsert<T(!new)>(le: (T, T) -> bool, p: T -> bool, x: T, xs: seq<T>)
    requires TotalOrder(le) && Ordered(le, xs)
    ensures Filter(p, Insert(le, x, xs)) == if p(x) then Insert(le, x, Filter(p, xs)) else Filter(p, xs)
  {
    if xs == [] {
      assert [x][1..] == [];
    } else if le(x, xs[0]) {
      assert ([x] + xs)[1..] == xs;
      FilterKeepsLowerBound(le, p, x, xs);
    } else {
      FilterInsert(le, p, x, xs[1..]);
      var rest := Insert(le, x, xs[1..]);
      assert ([xs[0]] + rest)[1..] == rest;
      var kept := Filter(p, xs[1..]);
      if p(xs[0]) {
        assert Filter(p, xs) == [xs[0]] + kept && ([xs[0]] + kept)[1..] == kept;
      } else {
        assert Filter(p, xs) == kept;
      }
    }
  }

  lemma {:induction false} FilterKeepsLowerBound<T(!new)>(le: (T, T) -> bool, p: T -> bool, x: T, xs: seq<T>)
    requires forall i :: 0 <= i < |xs| ==> le(x, xs[i]) || xs[i] == x
    requires TotalOrder(le) && Ordered(le, xs) && (xs != [] ==> le(x, xs[0]))
    ensures Filter(p, xs) != [] ==> le(x, Filter(p, xs)[0])
  {
    if xs != [] && !p(xs[0]) {
      FilterKeepsLowerBound(le, p, x, xs[1..]);
    }
  }

  /** Filtering and sorting commute. */
  lemma {:induction false} SortFilterCommute<T(!new)>(le: (T, T) -> bool, p: T -> bool, xs: seq<T>)
    requires TotalOrder(le)
    ensures SortBy(le, Filter(p, xs)) == Filter(p, SortBy(le, xs))
  {
    if xs != [] {
      SortFilterCommute(le, p, xs[1..]);
      SortBySorts(le, xs[1..]);
      FilterInsert(le, p, xs[0], SortBy(le, xs[1..]));
      if p(xs[0]) {
        assert ([xs[0]] + Filter(p, xs[1..]))[1..] == Filter(p, xs[1..]);
      } else {
        assert [] + Filter(p, xs[1..]) == Filter(p, xs[1..]);
      }
    }
  }

  // ── the order of Python strings ──────────────────────────────────────────

  predicate StrLe(a: string, b: string) {
    if a == "" then true
    else if b == "" then false
    else a[0] < b[0] || (a[0] == b[0] && StrLe(a[1..], b[1..]))
  }

  /** The first position at which the strings differ has the smaller character in `a`. */
  ghost predicate FirstLess(a: string, b: string, k: int) {
    0 <= k < |a| && k < |b| && a[..k] == b[..k] && a[k] < b[k]
  }

  /** The order is lexicographic: `a` is a prefix of `b`, or smaller at the first difference. */
  lemma {:induction false} StrLeIs(a: string, b: string)
    ensures StrLe(a, b) <==> a <= b || exists k :: FirstLess(a, b, k)
  {
    if a != "" && b != "" {
      if a[0] == b[0] {
        StrLeIs(a[1..], b[1..]);
        assert a == [a[0]] + a[1..] && b == [b[0]] + b[1..];
        if k :| FirstLess(a[1..], b[1..], k) {
          assert a[..k + 1] == [a[0]] + a[1..][..k] && b[..k + 1] == [b[0]] + b[1..][..k];
          assert FirstLess(a, b, k + 1);
        }
        if k :| FirstLess(a, b, k) {
          assert k > 0 && a[1..][..k - 1] == a[..k][1..] && b[1..][..k - 1] == b[..k][1..];
          assert FirstLess(a[1..], b[1..], k - 1);
        }
      } else {
        assert a[0] < b[0] ==> FirstLess(a, b, 0);
        forall k | FirstLess(a, b, k) ensures a[0] < b[0] {
          assert k > 0 ==> a[..k][0] == b[..k][0];
        }
      }
    }
  }

  lemma {:induction false} StrLeConnex(a: string, b: string)
    ensures StrLe(a, b) || StrLe(b, a)
    ensures StrLe(a, b) && StrLe(b, a) ==> a == b
  {
    if a != "" && b != "" && a[0] == b[0] {
      StrLeConnex(a[1..], b[1..]);
      assert a == [a[0]] + a[1..] && b == [b[0]] + b[1..];
    }
  }

  lemma {:induction false} StrLeTransitive(a: string, b: string, c: string)
    requires StrLe(a, b) && StrLe(b, c)
    ensures StrLe(a, c)
  {
    if a != "" && a[0] == b[0] && b[0] == c[0] {
      StrLeTransitive(a[1..], b[1..], c[1..]);
    }
  }

  lemma StrLeTotal()
    ensures TotalOrder(StrLe)
  {
    forall a, b ensures (StrLe(a, b) || StrLe(b, a)) && (StrLe(a, b) && StrLe(b, a) ==> a == b) {
      StrLeConnex(a, b);
    }
    forall a, b, c | StrLe(a, b) && StrLe(b, c) ensures StrLe(a, c) {
      StrLeTransitive(a, b, c);
    }
  }

  predicate PairLe(a: (string, string), b: (string, string)) {
    if a.0 == b.0 then StrLe(a.1, b.1) else StrLe(a.0, b.0)
  }

  lemma PairLeTotal()
    ensures TotalOrder(PairLe)
  {
    forall a, b ensures (PairLe(a, b) || PairLe(b, a)) && (PairLe(a, b) && PairLe(b, a) ==> a == b) {
      StrLeConnex(a.0, b.0);
      StrLeConnex(a.1, b.1);
    }
    forall a, b, c | PairLe(a, b) && PairLe(b, c) ensures PairLe(a, c) {
      PairLeTransitive(a, b, c);
    }
  }

  lemma PairLeTransitive(a: (string, string), b: (string, string), c: (string, string))
    requires PairLe(a, b) && PairLe(b, c)
    ensures PairLe(a, c)
  {
    StrLeTotal();
    hide StrLe;
  }
}
