/** Python string primitives the modelled code relies on: `str.strip`, `str.rfind` and slicing
    with clamped bounds. */
module Text {

  function Min(a: int, b: int): int { if a <= b then a else b }

  function Max(a: int, b: int): int { if a >= b then a else b }

  /** The characters `str.strip()` removes: Unicode white space as Python defines it. */
  predicate IsSpace(c: char) {
    var n := c as int;
    || 9 <= n <= 13 || 28 <= n <= 32 || n == 0x85 || n == 0xA0 || n == 0x1680
    || 0x2000 <= n <= 0x200A || n == 0x2028 || n == 0x2029 || n == 0x202F || n == 0x205F || n == 0x3000
  }

  /** The ASCII white space of Python: tab to carriage return, the four separators, and the space. */
  lemma AsciiSpace(c: char)
    requires c as int < 128
    ensures IsSpace(c) <==> c as int in {9, 10, 11, 12, 13, 28, 29, 30, 31, 32}
  {
  }

  ghost predicate AllSpace(s: string) {
    forall i :: 0 <= i < |s| ==> IsSpace(s[i])
  }

  /** The first position from `i` on that is not white space, or the end. */
  function SkipSpace(s: string, i: nat): (j: nat)
    requires i <= |s|
    ensures i <= j <= |s|
    decreases |s| - i
  {
    if i < |s| && IsSpace(s[i]) then SkipSpace(s, i + 1) else i
  }

  /** The end of `s[i..j]` without its trailing white space. */
  function DropSpace(s: string, i: nat, j: nat): (k: nat)
    requires i <= j <= |s|
    ensures i <= k <= j
    decreases j
  {
    if i < j && IsSpace(s[j - 1]) then DropSpace(s, i, j - 1) else j
  }

  function Strip(s: string): string {
    var i := SkipSpace(s, 0);
    s[i..DropSpace(s, i, |s|)]
  }

  lemma {:induction false} SkippedIsSpace(s: string, i: nat)
    requires i <= |s|
    ensures forall k :: i <= k < SkipSpace(s, i) ==> IsSpace(s[k])
    ensures SkipSpace(s, i) < |s| ==> !IsSpace(s[SkipSpace(s, i)])
    decreases |s| - i
  {
    if i < |s| && IsSpace(s[i]) {
      SkippedIsSpace(s, i + 1);
    }
  }

  lemma {:induction false} DroppedIsSpace(s: string, i: nat, j: nat)
    requires i <= j <= |s|
    ensures forall k :: DropSpace(s, i, j) <= k < j ==> IsSpace(s[k])
    ensures DropSpace(s, i, j) > i ==> !IsSpace(s[DropSpace(s, i, j) - 1])
  {
    if i < j && IsSpace(s[j - 1]) {
      DroppedIsSpace(s, i, j - 1);
    }
  }

  lemma Trimmed(s: string, i: nat, j: nat)
    requires i <= j <= |s|
    requires (forall k :: 0 <= k < i ==> IsSpace(s[k])) && (forall k :: j <= k < |s| ==> IsSpace(s[k]))
    ensures s == s[..i] + s[i..j] + s[j..] && AllSpace(s[..i]) && AllSpace(s[j..])
  {
    hide IsSpace;
    assert s[..i] + s[i..j] == s[..j];
  }

  /** Stripping removes exactly the white space at both ends: what is left is a contiguous part of
      the text that neither starts nor ends with white space. */
  lemma StripTrims(s: string) returns (pre: string, post: string)
    ensures s == pre + Strip(s) + post
    ensures AllSpace(pre) && AllSpace(post)
    ensures Strip(s) != [] ==> !IsSpace(Strip(s)[0]) && !IsSpace(Strip(s)[|Strip(s)| - 1])
  {
    hide SkipSpace, DropSpace, IsSpace, AllSpace;
    var i := SkipSpace(s, 0);
    var j := DropSpace(s, i, |s|);
    SkippedIsSpace(s, 0);
    DroppedIsSpace(s, i, |s|);
    Trimmed(s, i, j);
    pre, post := s[..i], s[j..];
  }

  /** A text between white space is what stripping leaves. */
  lemma StripIs(s: string, pre: string, mid: string, post: string)
    requires s == pre + mid + post && AllSpace(pre) && AllSpace(post)
    requires mid != "" && !IsSpace(mid[0]) && !IsSpace(mid[|mid| - 1])
    ensures Strip(s) == mid
  {
    hide SkipSpace, DropSpace, IsSpace;
    var i := SkipSpace(s, 0);
    SkippedIsSpace(s, 0);
    DroppedIsSpace(s, i, |s|);
    assert s[|pre|] == mid[0] && s[|pre| + |mid| - 1] == mid[|mid| - 1];
    assert forall k :: 0 <= k < |pre| ==> s[k] == pre[k];
    assert forall k :: |pre| + |mid| <= k < |s| ==> s[k] == post[k - |pre| - |mid|];
    assert s[|pre|..|pre| + |mid|] == mid;
  }

  ghost predicate OccursAt(w: string, d: string, i: int) {
    0 <= i && i + |d| <= |w| && w[i..i + |d|] == d
  }

  function RFindUpTo(w: string, d: string, i: int): (r: int)
    requires i + |d| <= |w|
    ensures -1 <= r && (r >= 0 ==> r <= i && OccursAt(w, d, r))
    ensures forall j :: OccursAt(w, d, j) && j <= i ==> j <= r
    decreases i + 1
  {
    if i < 0 then -1 else if w[i..i + |d|] == d then i else RFindUpTo(w, d, i - 1)
  }

  /** `w.rfind(d)`: the last occurrence, or -1 exactly when there is none. */
  function RFind(w: string, d: string): (r: int)
    ensures -1 <= r && (r >= 0 ==> OccursAt(w, d, r))
    ensures forall j :: OccursAt(w, d, j) ==> j <= r
  {
    RFindUpTo(w, d, |w| - |d|)
  }

  /** `s[lo:hi]` for non-negative bounds: out-of-range bounds are clamped, never an error. */
  function Slice(s: string, lo: nat, hi: nat): (r: string)
    ensures lo <= hi <= |s| ==> r == s[lo..hi]
    ensures |r| <= Max(0, hi - lo)
  {
    var a, b := Min(lo, |s|), Min(hi, |s|);
    if a <= b then s[a..b] else ""
  }

  function Join(sep: string, parts: seq<string>): string {
    if |parts| == 0 then "" else if |parts| == 1 then parts[0] else parts[0] + sep + Join(sep, parts[1..])
  }

  lemma SliceOfSlice<T>(s: seq<T>, lo: nat, hi: nat, a: nat, b: nat)
    requires lo <= hi <= |s| && a <= b <= hi - lo
    ensures s[lo..hi][a..b] == s[lo + a..lo + b]
  {
    var t := s[lo..hi];
    assert forall i :: 0 <= i < b - a ==> t[a..b][i] == t[a + i] == s[lo + a + i];
  }

  lemma AppendAssoc<T>(a: seq<T>, b: seq<T>, c: seq<T>)
    ensures a + (b + c) == (a + b) + c
  {
  }
}
