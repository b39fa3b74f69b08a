/** The overlapping body chunker of src/oneops/embeddings/kb_chunker.py. */
module KbChunker {
  import opened Text

  const TARGET_CHUNK_CHARS: nat := 2000
  const OVERLAP_CHARS: nat := 200
  const MAX_CHUNK_CHARS: nat := 6000
  const MIN_CHUNK_CHARS: nat := 100
  const MIN_STRIDE: nat := 1800

  const PARAGRAPH_DELIMS: seq<string> := ["\n\n\n", "\n\n"]
  const SENTENCE_DELIMS: seq<string> := [". ", "! ", "? ", ".\n", "!\n", "?\n"]
  const RANKED_DELIMS: seq<string> := PARAGRAPH_DELIMS + SENTENCE_DELIMS + ["\n", " "]

  // ── split point ──────────────────────────────────────────────────────────

  function WindowStart(start: nat, target: nat): (w: nat)
  {
    start + Max(MIN_CHUNK_CHARS, target - 400)
  }

  function Window(text: string, start: nat, target: nat, hardMax: nat): string {
    Slice(text, WindowStart(start, target), Min(|text|, start + hardMax))
  }

  /** Offset just after the last occurrence of the first delimiter from rank `k` on that occurs, or -1. */
  function RankedOffset(w: string, delims: seq<string>, k: nat): int
    decreases |delims| - k
  {
    if k >= |delims| then -1
    else
      var i := RFind(w, delims[k]);
      if i >= 0 then i + |delims[k]| else RankedOffset(w, delims, k + 1)
  }

  function SplitPoint(text: string, start: nat, target: nat, hardMax: nat): nat {
    if start + target >= |text| || Min(|text|, start + hardMax) <= start then |text|
    else
      var off := RankedOffset(Window(text, start, target, hardMax), RANKED_DELIMS, 0);
      if off >= 0 then WindowStart(start, target) + off else start + target
  }

  /** The loop of the source over one group of delimiters, which occupies ranks `from` on. */
  method SearchGroup(w: string, group: seq<string>, ghost delims: seq<string>, ghost from: nat) returns (off: int)
    requires from + |group| <= |delims| && delims[from..from + |group|] == group
    ensures off >= 0 ==> off == RankedOffset(w, delims, from)
    ensures off < 0 ==> RankedOffset(w, delims, from) == RankedOffset(w, delims, from + |group|)
  {
    var k := 0;
    while k < |group|
      invariant 0 <= k <= |group|
      invariant RankedOffset(w, delims, from) == RankedOffset(w, delims, from + k)
    {
      var idx := RFind(w, group[k]);
      assert group[k] == delims[from..from + |group|][k] == delims[from + k];
      if idx >= 0 {
        return idx + |group[k]|;
      }
      k := k + 1;
    }
    return -1;
  }

  /** The delimiter search of the source: paragraphs, sentences, lines, words. */
  method SearchWindow(w: string) returns (off: int)
    ensures RankedOffset(w, RANKED_DELIMS, 0) == if off >= 0 then off else -1
  {
    ghost var delims := RANKED_DELIMS;
    assert |delims| == 10;
    assert delims[0..2] == PARAGRAPH_DELIMS && delims[2..8] == SENTENCE_DELIMS;
    assert delims[8..9] == ["\n"] && delims[9..10] == [" "];
    off := SearchGroup(w, PARAGRAPH_DELIMS, delims, 0);
    if off < 0 {
      off := SearchGroup(w, SENTENCE_DELIMS, delims, 2);
    }
    if off < 0 {
      off := SearchGroup(w, ["\n"], delims, 8);
    }
    if off < 0 {
      off := SearchGroup(w, [" "], delims, 9);
    }
  }

  method FindSplitPoint(text: string, start: nat, target: nat, hardMax: nat) returns (split: nat)
    ensures split == SplitPoint(text, start, target, hardMax)
  {
    if start + target >= |text| {
      return |text|;
    }
    var windowStart := start + Max(MIN_CHUNK_CHARS, target - 400);
    var windowEnd := Min(|text|, start + hardMax);
    if windowEnd <= start {
      return |text|;
    }
    var window := Slice(text, windowStart, windowEnd);
    var off := SearchWindow(window);
    if off >= 0 {
      return windowStart + off;
    }
    return Min(start + target, |text|);
  }

  predicate Blank(c: char) {
    c == '\n' || c == ' '
  }

  /** Every delimiter ends in a newline or a space, and each of the two is itself a delimiter. */
  ghost predicate Separators(delims: seq<string>) {
    && (forall k :: 0 <= k < |delims| ==> delims[k] != "" && Blank(delims[k][|delims[k]| - 1]))
    && "\n" in delims && " " in delims
  }

  lemma RankedAreSeparators()
    ensures Separators(RANKED_DELIMS)
  {
    assert RANKED_DELIMS[8] == "\n" && RANKED_DELIMS[9] == " ";
  }

  ghost predicate NoneOccur(w: string, delims: seq<string>, from: nat, to: nat) {
    forall m, j :: from <= m < to && m < |delims| ==> !OccursAt(w, delims[m], j)
  }

  /** `off` lies just after the last occurrence of `delims[k]`, and no higher-ranked delimiter occurs. */
  ghost predicate AfterBest(w: string, delims: seq<string>, k: nat, off: int) {
    && k < |delims|
    && OccursAt(w, delims[k], off - |delims[k]|)
    && (forall j :: OccursAt(w, delims[k], j) ==> j <= off - |delims[k]|)
    && NoneOccur(w, delims, 0, k)
  }

  ghost predicate AtBest(w: string, delims: seq<string>, off: int) {
    exists k: nat :: AfterBest(w, delims, k, off)
  }

  lemma {:induction false} RankedOffsetIsBest(w: string, delims: seq<string>, from: nat)
    requires from <= |delims| && NoneOccur(w, delims, 0, from)
    ensures RankedOffset(w, delims, from) < 0 ==> NoneOccur(w, delims, 0, |delims|)
    ensures RankedOffset(w, delims, from) >= 0 ==> AtBest(w, delims, RankedOffset(w, delims, from))
    decreases |delims| - from
  {
    if from < |delims| {
      var i := RFind(w, delims[from]);
      if i >= 0 {
        assert AfterBest(w, delims, from, RankedOffset(w, delims, from));
      } else {
        RankedOffsetIsBest(w, delims, from + 1);
      }
    }
  }

  lemma EndsBlank(w: string, delims: seq<string>, off: int)
    requires Separators(delims) && AtBest(w, delims, off)
    ensures 0 < off <= |w| && Blank(w[off - 1])
  {
    var k: nat :| AfterBest(w, delims, k, off);
    var d := delims[k];
    assert w[off - |d|..off][|d| - 1] == w[off - 1];
  }

  /** The search finds a delimiter exactly when the window holds a newline or a space, and what it
      finds ends with one of them. */
  lemma SearchFindsBlank(w: string, delims: seq<string>)
    requires Separators(delims)
    ensures var off := RankedOffset(w, delims, 0);
            if forall i :: 0 <= i < |w| ==> !Blank(w[i]) then off < 0
            else 0 < off <= |w| && AtBest(w, delims, off) && Blank(w[off - 1])
  {
    var off := RankedOffset(w, delims, 0);
    RankedOffsetIsBest(w, delims, 0);
    if off >= 0 {
      EndsBlank(w, delims, off);
    } else {
      forall i | 0 <= i < |w| ensures !Blank(w[i]) {
        NotInWindow(w, delims, i, '\n');
        NotInWindow(w, delims, i, ' ');
      }
    }
  }

  lemma NotInWindow(w: string, delims: seq<string>, i: nat, c: char)
    requires i < |w| && NoneOccur(w, delims, 0, |delims|) && [c] in delims
    ensures w[i] != c
  {
    var m :| 0 <= m < |delims| && delims[m] == [c];
    assert !OccursAt(w, delims[m], i);
    assert w[i..i + 1] == [w[i]];
  }

  /** The delimiter search: before the end of the text the split lies just after the last occurrence
      of the highest-ranked delimiter of the window, and falls back to the bare target exactly when
      the window holds neither a newline nor a space. */
  lemma SplitPointIsBestBoundary(text: string, start: nat, target: nat, hardMax: nat)
    requires start + target < |text| && 0 < hardMax
    ensures var w := Window(text, start, target, hardMax);
            var s := SplitPoint(text, start, target, hardMax);
            if forall i :: 0 <= i < |w| ==> w[i] != '\n' && w[i] != ' '
            then s == start + target
            else AtBest(w, RANKED_DELIMS, s - WindowStart(start, target)) && Blank(text[s - 1])
  {
    hide RankedOffset, AtBest;
    RankedAreSeparators();
    SplitAfterBlank(text, start, target, hardMax, RANKED_DELIMS);
  }

  ghost predicate Occurs(w: string, d: string) {
    exists j :: OccursAt(w, d, j)
  }

  /** `off` lies just after the last occurrence. */
  ghost predicate AfterLast(w: string, d: string, off: int) {
    OccursAt(w, d, off - |d|) && forall j :: OccursAt(w, d, j) ==> j <= off - |d|
  }

  lemma BestIsFirst(w: string, delims: seq<string>, off: int, m: nat)
    requires AtBest(w, delims, off) && m < |delims| && Occurs(w, delims[m])
    requires forall i :: 0 <= i < m ==> !Occurs(w, delims[i])
    ensures AfterLast(w, delims[m], off)
  {
    var k: nat :| AfterBest(w, delims, k, off);
    var j :| OccursAt(w, delims[m], j);
    assert k <= m;
    assert Occurs(w, delims[k]);
  }

  lemma RankedAre()
    ensures RANKED_DELIMS == ["\n\n\n", "\n\n", ". ", "! ", "? ", ".\n", "!\n", "?\n", "\n", " "]
  {
  }

  /** A paragraph break has three or two newlines. */
  ghost predicate HasParagraph(w: string) {
    Occurs(w, "\n\n\n") || Occurs(w, "\n\n")
  }

  /** A sentence ends in one of three marks followed by a space or a newline. */
  ghost predicate IsSentenceEnd(d: string) {
    d in [". ", "! ", "? ", ".\n", "!\n", "?\n"]
  }

  ghost predicate HasSentenceEnd(w: string) {
    exists d :: IsSentenceEnd(d) && Occurs(w, d)
  }

  /** The boundaries in order of preference: a paragraph break, a sentence end, a line end, a word end,
      the bare target; each at its last occurrence between 1600 and 6000 characters past the start. */
  lemma BoundaryOrder(text: string, start: nat)
    requires start + 2000 < |text|
    ensures var w := text[start + 1600..Min(|text|, start + 6000)];
            var off := SplitPoint(text, start, TARGET_CHUNK_CHARS, MAX_CHUNK_CHARS) - start - 1600;
            if HasParagraph(w) then AfterLast(w, if Occurs(w, "\n\n\n") then "\n\n\n" else "\n\n", off)
            else if HasSentenceEnd(w) then exists d :: IsSentenceEnd(d) && AfterLast(w, d, off)
            else if Occurs(w, "\n") then AfterLast(w, "\n", off)
            else if Occurs(w, " ") then AfterLast(w, " ", off)
            else off == 400
  {
    var w := text[start + 1600..Min(|text|, start + 6000)];
    var off := SplitPoint(text, start, TARGET_CHUNK_CHARS, MAX_CHUNK_CHARS) - start - 1600;
    assert Window(text, start, TARGET_CHUNK_CHARS, MAX_CHUNK_CHARS) == w;
    SplitPointIsBestBoundary(text, start, TARGET_CHUNK_CHARS, MAX_CHUNK_CHARS);
    OneChar(w, '\n');
    OneChar(w, ' ');
    RankedAre();
    hide SplitPoint, AtBest, Window, RankedOffset, Occurs, AfterLast;
    if Occurs(w, "\n") || Occurs(w, " ") {
      OrderOf(w, RANKED_DELIMS, off);
    } else {
      NoBlankNoBreak(w);
    }
  }

  lemma OneChar(w: string, c: char)
    ensures Occurs(w, [c]) <==> exists i :: 0 <= i < |w| && w[i] == c
  {
    if j :| OccursAt(w, [c], j) {
      assert w[j..j + 1][0] == w[j];
    }
    if i :| 0 <= i < |w| && w[i] == c {
      assert w[i..i + 1] == [c] && OccursAt(w, [c], i);
    }
  }

  lemma EndOccurs(w: string, d: string)
    requires d != "" && Occurs(w, d)
    ensures Occurs(w, [d[|d| - 1]])
  {
    var j :| OccursAt(w, d, j);
    assert w[j..j + |d|][|d| - 1] == w[j + |d| - 1];
    OneChar(w, d[|d| - 1]);
  }

  lemma NoBlankNoBreak(w: string)
    requires !Occurs(w, "\n") && !Occurs(w, " ")
    ensures !HasParagraph(w) && !HasSentenceEnd(w)
  {
    forall d | d != "" && (d[|d| - 1] == '\n' || d[|d| - 1] == ' ') ensures !Occurs(w, d) {
      if Occurs(w, d) {
        EndOccurs(w, d);
      }
    }
    hide Occurs;
    forall d | IsSentenceEnd(d) ensures d != "" && (d[|d| - 1] == '\n' || d[|d| - 1] == ' ') {
    }
  }

  lemma OrderOf(w: string, delims: seq<string>, off: int)
    requires delims == ["\n\n\n", "\n\n", ". ", "! ", "? ", ".\n", "!\n", "?\n", "\n", " "] && AtBest(w, delims, off)
    requires Occurs(w, "\n") || Occurs(w, " ")
    ensures if HasParagraph(w) then AfterLast(w, if Occurs(w, "\n\n\n") then "\n\n\n" else "\n\n", off)
            else if HasSentenceEnd(w) then exists d :: IsSentenceEnd(d) && AfterLast(w, d, off)
            else if Occurs(w, "\n") then AfterLast(w, "\n", off)
            else AfterLast(w, " ", off)
  {
    hide AtBest, Occurs, AfterLast;
    if !HasParagraph(w) && !HasSentenceEnd(w) {
      forall i | 2 <= i < 8 ensures !Occurs(w, delims[i]) {
        assert IsSentenceEnd(delims[i]);
      }
    }
    if HasSentenceEnd(w) {
      var d :| IsSentenceEnd(d) && Occurs(w, d);
      assert d == delims[2] || d == delims[3] || d == delims[4] || d == delims[5] || d == delims[6] || d == delims[7];
    }
    assert delims[0] == "\n\n\n" && delims[1] == "\n\n" && delims[8] == "\n" && delims[9] == " ";
    var m: nat := 0;
    while m < 9 && !Occurs(w, delims[m])
      invariant m <= 9 && forall i :: 0 <= i < m ==> !Occurs(w, delims[i])
    {
      m := m + 1;
    }
    BestIsFirst(w, delims, off, m);
    if 2 <= m < 8 {
      assert IsSentenceEnd(delims[m]);
    }
  }

  lemma SplitAfterBlank(text: string, start: nat, target: nat, hardMax: nat, delims: seq<string>)
    requires Separators(delims) && start + target < |text|
    ensures var w, ws := Window(text, start, target, hardMax), WindowStart(start, target);
            var off := RankedOffset(w, delims, 0);
            if forall i :: 0 <= i < |w| ==> !Blank(w[i]) then off < 0
            else 0 < off && ws + off <= Min(|text|, start + hardMax) && AtBest(w, delims, off) && Blank(text[ws + off - 1])
  {
    var w := Window(text, start, target, hardMax);
    SearchFindsBlank(w, delims);
    if RankedOffset(w, delims, 0) >= 0 {
      WindowAt(text, start, target, hardMax, RankedOffset(w, delims, 0) - 1);
    }
  }

  lemma WindowAt(text: string, start: nat, target: nat, hardMax: nat, i: nat)
    requires i < |Window(text, start, target, hardMax)|
    ensures WindowStart(start, target) + i < Min(|text|, start + hardMax)
    ensures Window(text, start, target, hardMax)[i] == text[WindowStart(start, target) + i]
  {
  }

  /** Every split makes progress, stays in the text and respects the hard maximum; before the end of
      the text it lies at least MIN_CHUNK_CHARS + 1 or target - 399 characters past its start. */
  lemma SplitPointRange(text: string, start: nat, target: nat, hardMax: nat)
    requires start < |text| && 0 < target <= hardMax
    ensures start < SplitPoint(text, start, target, hardMax) <= Min(|text|, start + hardMax)
    ensures start + target < |text| ==> SplitPoint(text, start, target, hardMax) > start + target - 400
  {
    if start + target < |text| {
      RankedAreSeparators();
      SplitAfterBlank(text, start, target, hardMax, RANKED_DELIMS);
    }
  }

  lemma OneBest(w: string, delims: seq<string>, a: int, b: int)
    requires AtBest(w, delims, a) && AtBest(w, delims, b)
    ensures a == b
  {
    var k: nat :| AfterBest(w, delims, k, a);
    var l: nat :| AfterBest(w, delims, l, b);
    assert OccursAt(w, delims[k], a - |delims[k]|) && OccursAt(w, delims[l], b - |delims[l]|);
    assert k <= l && l <= k;
  }

  /** When a split leaves a gap, in terms of the text: it falls less than MIN_STRIDE past its start if
      and only if the best delimiter of the window ends before window offset 200. */
  lemma ShortSplitIff(text: string, start: nat)
    requires start + TARGET_CHUNK_CHARS < |text|
    ensures var w := Window(text, start, TARGET_CHUNK_CHARS, MAX_CHUNK_CHARS);
            SplitPoint(text, start, TARGET_CHUNK_CHARS, MAX_CHUNK_CHARS) < start + MIN_STRIDE <==>
            exists off: int :: AtBest(w, RANKED_DELIMS, off) && off < OVERLAP_CHARS
  {
    var w := Window(text, start, TARGET_CHUNK_CHARS, MAX_CHUNK_CHARS);
    var s := SplitPoint(text, start, TARGET_CHUNK_CHARS, MAX_CHUNK_CHARS);
    assert WindowStart(start, TARGET_CHUNK_CHARS) == start + 1600;
    SplitPointIsBestBoundary(text, start, TARGET_CHUNK_CHARS, MAX_CHUNK_CHARS);
    hide SplitPoint, AtBest, Window, RankedOffset;
    if exists i :: 0 <= i < |w| && (w[i] == '\n' || w[i] == ' ') {
      forall off: int | AtBest(w, RANKED_DELIMS, off) ensures off == s - start - 1600 {
        OneBest(w, RANKED_DELIMS, off, s - start - 1600);
      }
    } else {
      forall off: int ensures !AtBest(w, RANKED_DELIMS, off) {
        NothingIsBest(w, off);
      }
    }
  }

  lemma NothingIsBest(w: string, off: int)
    requires forall i :: 0 <= i < |w| ==> w[i] != '\n' && w[i] != ' '
    ensures !AtBest(w, RANKED_DELIMS, off)
  {
    if AtBest(w, RANKED_DELIMS, off) {
      RankedAreSeparators();
      EndsBlank(w, RANKED_DELIMS, off);
      assert false;
    }
  }

  // ── body splitting ───────────────────────────────────────────────────────

  datatype Cut = Cut(lo: nat, hi: nat)

  function NextCursor(cursor: nat, end: nat): nat {
    Max(end - OVERLAP_CHARS, cursor + MIN_STRIDE)
  }

  /** The raw slices taken by the splitting loop from `cursor` on. */
  function Cuts(content: string, cursor: nat): seq<Cut>
    decreases |content| - cursor
  {
    if cursor >= |content| then []
    else
      var end := SplitPoint(content, cursor, TARGET_CHUNK_CHARS, MAX_CHUNK_CHARS);
      if end >= |content| then [Cut(cursor, end)]
      else [Cut(cursor, end)] + Cuts(content, NextCursor(cursor, end))
  }

  /** A slice whose stripped text is shorter than MIN_CHUNK_CHARS is dropped. */
  predicate Keeps(content: string, cut: Cut) {
    |Strip(Slice(content, cut.lo, cut.hi))| >= MIN_CHUNK_CHARS
  }

  /** What one slice contributes. */
  function Kept(content: string, cut: Cut): seq<string> {
    if Keeps(content, cut) then [Strip(Slice(content, cut.lo, cut.hi))] else []
  }

  function Emit(content: string, cuts: seq<Cut>): seq<string> {
    if cuts == [] then [] else Kept(content, cuts[0]) + Emit(content, cuts[1..])
  }

  function BodyChunks(content: string): seq<string> {
    if Strip(content) == "" then []
    else if |content| <= TARGET_CHUNK_CHARS then [Strip(content)]
    else Emit(content, Cuts(content, 0))
  }

  function AfterSlice(content: string, cursor: nat, end: nat, chunks: seq<string>): seq<string> {
    var chunk := Strip(Slice(content, cursor, end));
    if |chunk| >= MIN_CHUNK_CHARS then chunks + [chunk] else chunks
  }

  /** One pass of the splitting loop accounts for the slice it takes. */
  lemma EmitStep(content: string, cursor: nat, end: nat, before: seq<string>, later: seq<string>)
    requires cursor < |content| && end == SplitPoint(content, cursor, TARGET_CHUNK_CHARS, MAX_CHUNK_CHARS)
    requires later == if end >= |content| then [] else Emit(content, Cuts(content, NextCursor(cursor, end)))
    ensures before + Emit(content, Cuts(content, cursor)) ==
            AfterSlice(content, cursor, end, before) + later
  {
    var cuts := Cuts(content, cursor);
    assert cuts[0] == Cut(cursor, end);
    assert cuts[1..] == if end >= |content| then [] else Cuts(content, NextCursor(cursor, end));
    AppendAssoc(before, Kept(content, cuts[0]), later);
  }

  /** What the loop returns from `cursor` on, given what it has collected. */
  function Collected(content: string, chunks: seq<string>, cursor: nat): seq<string>
    decreases |content| - cursor
  {
    if cursor >= |content| then chunks
    else
      var end := SplitPoint(content, cursor, TARGET_CHUNK_CHARS, MAX_CHUNK_CHARS);
      var more := AfterSlice(content, cursor, end, chunks);
      if end >= |content| then more else Collected(content, more, NextCursor(cursor, end))
  }

  lemma {:induction false} CollectedEmits(content: string, chunks: seq<string>, cursor: nat)
    ensures Collected(content, chunks, cursor) == chunks + Emit(content, Cuts(content, cursor))
    decreases |content| - cursor
  {
    if cursor < |content| {
      var end := SplitPoint(content, cursor, TARGET_CHUNK_CHARS, MAX_CHUNK_CHARS);
      var more := AfterSlice(content, cursor, end, chunks);
      if end >= |content| {
        EmitStep(content, cursor, end, chunks, []);
        assert more + [] == more;
      } else {
        CollectedEmits(content, more, NextCursor(cursor, end));
        EmitStep(content, cursor, end, chunks, Emit(content, Cuts(content, NextCursor(cursor, end))));
      }
    }
  }

  /** The loop of `split_body`. */
  method SplitLoop(content: string) returns (chunks: seq<string>)
    ensures chunks == Collected(content, [], 0)
  {
    hide SplitPoint, Strip;
    chunks := [];
    var cursor: nat := 0;
    var n := |content|;
    ghost var all := Collected(content, [], 0);
    while cursor < n
      invariant all == Collected(content, chunks, cursor)
      decreases n - cursor
    {
      var end := FindSplitPoint(content, cursor, TARGET_CHUNK_CHARS, MAX_CHUNK_CHARS);
      var chunk := Strip(Slice(content, cursor, end));
      if |chunk| >= MIN_CHUNK_CHARS {
        chunks := chunks + [chunk];
      }
      if end >= n {
        return;
      }
      var nextCursor := end - OVERLAP_CHARS;
      if nextCursor < cursor + MIN_STRIDE {
        nextCursor := cursor + MIN_STRIDE;
      }
      cursor := nextCursor;
    }
  }

  method SplitBody(content: string) returns (chunks: seq<string>)
    ensures chunks == BodyChunks(content)
  {
    if content == "" || Strip(content) == "" {
      return [];
    }
    if |content| <= TARGET_CHUNK_CHARS {
      return [Strip(content)];
    }
    chunks := SplitLoop(content);
    CollectedEmits(content, [], 0);
    assert [] + Emit(content, Cuts(content, 0)) == Emit(content, Cuts(content, 0));
  }

  /** Neighbouring raw slices: the next one starts OVERLAP_CHARS before the split, but never less
      than MIN_STRIDE past the previous start. */
  ghost predicate Linked(a: Cut, b: Cut) {
    a.lo + 1601 <= a.hi && b.lo == Max(a.hi - OVERLAP_CHARS, a.lo + MIN_STRIDE)
  }

  ghost predicate WellCut(cuts: seq<Cut>, n: nat) {
    && (forall i :: 0 <= i < |cuts| ==> 200 < cuts[i].hi - cuts[i].lo <= MAX_CHUNK_CHARS && cuts[i].hi <= n)
    && (forall i :: 0 <= i < |cuts| - 1 ==> Linked(cuts[i], cuts[i + 1]) && cuts[i].hi < n)
  }

  lemma WellCutCons(first: Cut, rest: seq<Cut>, n: nat)
    requires WellCut(rest, n) && rest != []
    requires 200 < first.hi - first.lo <= MAX_CHUNK_CHARS && first.hi < n && Linked(first, rest[0])
    ensures WellCut([first] + rest, n)
  {
    var cuts := [first] + rest;
    forall i | 0 <= i < |cuts| - 1 ensures Linked(cuts[i], cuts[i + 1]) && cuts[i].hi < n {
      if i > 0 {
        assert cuts[i] == rest[i - 1] && cuts[i + 1] == rest[i];
      }
    }
  }

  lemma {:induction false} CutsAreBounded(content: string, cursor: nat)
    requires cursor + 200 < |content|
    ensures var cuts := Cuts(content, cursor);
            && cuts != [] && cuts[0].lo == cursor && cuts[|cuts| - 1].hi == |content|
            && WellCut(cuts, |content|)
            && 1800 * (|cuts| - 1) <= |content| - 201 - cursor
    decreases |content| - cursor
  {
    var n := |content|;
    var end := SplitPoint(content, cursor, TARGET_CHUNK_CHARS, MAX_CHUNK_CHARS);
    assert end < n ==> cursor + TARGET_CHUNK_CHARS < n;
    hide SplitPoint;
    SplitPointRange(content, cursor, TARGET_CHUNK_CHARS, MAX_CHUNK_CHARS);
    var cuts := Cuts(content, cursor);
    if end < n {
      var next := NextCursor(cursor, end);
      CutsAreBounded(content, next);
      var rest := Cuts(content, next);
      WellCutCons(Cut(cursor, end), rest, n);
    }
  }

  /** The bounds of the chunker for every content longer than the target: number of passes, last
      slice, slice lengths, overlap and gap. */
  lemma ChunkerBounds(content: string)
    requires |content| > TARGET_CHUNK_CHARS
    ensures var cuts := Cuts(content, 0);
            && 1 <= |cuts| <= 1 + (|content| - 201) / 1800
            && cuts[0].lo == 0 && cuts[|cuts| - 1].hi == |content|
            && (forall i :: 0 <= i < |cuts| ==> 200 < cuts[i].hi - cuts[i].lo <= MAX_CHUNK_CHARS)
            && (forall i :: 0 <= i < |cuts| - 1 ==>
                  && (cuts[i].hi >= cuts[i].lo + 2000 ==> cuts[i].hi - cuts[i + 1].lo == OVERLAP_CHARS)
                  && (cuts[i + 1].lo > cuts[i].hi <==> cuts[i].hi < cuts[i].lo + 1800)
                  && cuts[i + 1].lo - cuts[i].hi <= 199)
  {
    CutsAreBounded(content, 0);
    var cuts := Cuts(content, 0);
    assert forall i :: 0 <= i < |cuts| - 1 ==> Linked(cuts[i], cuts[i + 1]);
  }

  ghost predicate Covered(cuts: seq<Cut>, p: int) {
    exists i :: 0 <= i < |cuts| && cuts[i].lo <= p < cuts[i].hi
  }

  lemma {:induction false} CutsAdvance(cuts: seq<Cut>, n: nat, i: nat, j: nat)
    requires WellCut(cuts, n) && i < j < |cuts|
    ensures cuts[i].lo < cuts[j].lo && cuts[i].hi < cuts[j].hi && cuts[i + 1].lo <= cuts[j].lo
    decreases j - i
  {
    assert Linked(cuts[i], cuts[i + 1]);
    if i + 1 < j {
      CutsAdvance(cuts, n, i + 1, j);
    } else if j + 1 < |cuts| {
      assert Linked(cuts[j], cuts[j + 1]);
    }
  }

  lemma {:induction false} ReachCovering(cuts: seq<Cut>, n: nat, p: int, i: nat)
    requires WellCut(cuts, n) && i < |cuts| && cuts[i].lo <= p < cuts[|cuts| - 1].hi
    requires forall k :: 0 <= k < |cuts| - 1 ==> cuts[k].hi >= cuts[k].lo + 1800
    ensures Covered(cuts, p)
    decreases |cuts| - i
  {
    if p >= cuts[i].hi {
      assert Linked(cuts[i], cuts[i + 1]);
      ReachCovering(cuts, n, p, i + 1);
    }
  }

  /** The raw slices cover the whole text exactly when no split but the last falls less than
      MIN_STRIDE past its cursor. What of them gets into the chunks is `NothingLostIff`. */
  lemma FullCoverageIff(content: string)
    requires |content| > TARGET_CHUNK_CHARS
    ensures var cuts := Cuts(content, 0);
            (forall p :: 0 <= p < |content| ==> Covered(cuts, p)) <==>
            (forall i :: 0 <= i < |cuts| - 1 ==> cuts[i].hi >= cuts[i].lo + 1800)
  {
    CutsAreBounded(content, 0);
    hide Cuts;
    var cuts := Cuts(content, 0);
    if forall i :: 0 <= i < |cuts| - 1 ==> cuts[i].hi >= cuts[i].lo + 1800 {
      forall p | 0 <= p < |content| ensures Covered(cuts, p) {
        ReachCovering(cuts, |content|, p, 0);
      }
    } else {
      var i :| 0 <= i < |cuts| - 1 && cuts[i].hi < cuts[i].lo + 1800;
      var p := cuts[i].hi;
      assert Linked(cuts[i], cuts[i + 1]);
      forall j | 0 <= j < |cuts| ensures !(cuts[j].lo <= p < cuts[j].hi) {
        if j < i { CutsAdvance(cuts, |content|, j, i); }
        if i + 1 < j { CutsAdvance(cuts, |content|, i + 1, j); }
      }
      assert !Covered(cuts, p);
    }
  }

  const GAP_EXAMPLE: string := seq(2500, i => if i == 1600 then ' ' else 'a')

  lemma GapExampleSplit()
    ensures SplitPoint(GAP_EXAMPLE, 0, TARGET_CHUNK_CHARS, MAX_CHUNK_CHARS) == 1601
  {
    var w := Window(GAP_EXAMPLE, 0, TARGET_CHUNK_CHARS, MAX_CHUNK_CHARS);
    assert w[0] == ' ' && forall i :: 0 < i < |w| ==> w[i] == 'a';
    SplitPointIsBestBoundary(GAP_EXAMPLE, 0, TARGET_CHUNK_CHARS, MAX_CHUNK_CHARS);
    WindowAt(GAP_EXAMPLE, 0, TARGET_CHUNK_CHARS, MAX_CHUNK_CHARS, 0);
  }

  /** Full coverage by the slices is not promised: a lone space 1600 characters in leaves 199 characters between
      the first two slices in no chunk at all. */
  lemma CoverageCanFail()
    ensures forall p :: 1601 <= p < 1800 ==> !Covered(Cuts(GAP_EXAMPLE, 0), p)
  {
    GapExampleSplit();
    CutsAreBounded(GAP_EXAMPLE, 0);
    var cuts := Cuts(GAP_EXAMPLE, 0);
    assert cuts[0] == Cut(0, 1601) && Linked(cuts[0], cuts[1]);
    assert |cuts| == 2;
  }

  // ── what gets into the chunks ────────────────────────────────────────────

  /** Where the stripped text of a slice stands in the content. */
  function Span(content: string, cut: Cut): Cut {
    var piece := Slice(content, cut.lo, cut.hi);
    var i := SkipSpace(piece, 0);
    Cut(cut.lo + i, cut.lo + DropSpace(piece, i, |piece|))
  }

  function EmitSpans(content: string, cuts: seq<Cut>): seq<Cut> {
    if cuts == [] then []
    else (if Keeps(content, cuts[0]) then [Span(content, cuts[0])] else []) + EmitSpans(content, cuts[1..])
  }

  /** Where the chunks of a content stand in it. */
  function Spans(content: string): seq<Cut> {
    if Strip(content) == "" then []
    else if |content| <= TARGET_CHUNK_CHARS then [Span(content, Cut(0, |content|))]
    else EmitSpans(content, Cuts(content, 0))
  }

  ghost predicate InText(cuts: seq<Cut>, n: nat) {
    forall i :: 0 <= i < |cuts| ==> cuts[i].lo <= cuts[i].hi <= n
  }

  ghost predicate StandAt(content: string, chunks: seq<string>, spans: seq<Cut>) {
    |spans| == |chunks| && InText(spans, |content|) && forall k :: 0 <= k < |spans| ==> chunks[k] == content[spans[k].lo..spans[k].hi]
  }

  lemma SpanIsStripped(content: string, cut: Cut)
    requires cut.lo <= cut.hi <= |content|
    ensures var span := Span(content, cut);
            && cut.lo <= span.lo <= span.hi <= cut.hi
            && content[span.lo..span.hi] == Strip(Slice(content, cut.lo, cut.hi))
  {
    var piece := Slice(content, cut.lo, cut.hi);
    hide SkipSpace, DropSpace;
    var i := SkipSpace(piece, 0);
    SliceOfSlice(content, cut.lo, cut.hi, i, DropSpace(piece, i, |piece|));
  }

  lemma {:induction false} EmitStandsAt(content: string, cuts: seq<Cut>)
    requires InText(cuts, |content|)
    ensures StandAt(content, Emit(content, cuts), EmitSpans(content, cuts))
  {
    if cuts != [] {
      EmitStandsAt(content, cuts[1..]);
      SpanIsStripped(content, cuts[0]);
      StandCons(content, Strip(Slice(content, cuts[0].lo, cuts[0].hi)), Span(content, cuts[0]), Emit(content, cuts[1..]), EmitSpans(content, cuts[1..]));
      hide Strip, Span, StandAt;
    }
  }

  lemma StandCons(content: string, chunk: string, span: Cut, chunks: seq<string>, spans: seq<Cut>)
    requires StandAt(content, chunks, spans) && span.lo <= span.hi <= |content| && chunk == content[span.lo..span.hi]
    ensures StandAt(content, [chunk] + chunks, [span] + spans) && StandAt(content, [] + chunks, [] + spans)
  {
    var more, all := [chunk] + chunks, [span] + spans;
    assert [] + chunks == chunks && [] + spans == spans;
    forall k | 0 <= k < |all| ensures all[k].lo <= all[k].hi <= |content| && more[k] == content[all[k].lo..all[k].hi] {
      assert k > 0 ==> all[k] == spans[k - 1] && more[k] == chunks[k - 1];
    }
  }

  /** The chunks stand at their spans. */
  lemma ChunksStandAt(content: string)
    ensures StandAt(content, BodyChunks(content), Spans(content))
  {
    if Strip(content) != "" {
      if |content| <= TARGET_CHUNK_CHARS {
        SpanIsStripped(content, Cut(0, |content|));
        assert content[0..|content|] == content;
      } else {
        CutsAreBounded(content, 0);
        EmitStandsAt(content, Cuts(content, 0));
      }
    }
  }

  predicate Solid(content: string, p: int) {
    0 <= p < |content| && !IsSpace(content[p])
  }

  predicate Holds(cut: Cut, p: int) {
    cut.lo <= p < cut.hi
  }

  /** Stripping a slice takes none of its characters but white space. */
  lemma SpanHoldsSolid(content: string, cut: Cut, p: int)
    requires cut.lo <= cut.hi <= |content| && Solid(content, p)
    ensures Holds(Span(content, cut), p) <==> Holds(cut, p)
  {
    var piece := content[cut.lo..cut.hi];
    var i := SkipSpace(piece, 0);
    hide SkipSpace, DropSpace, IsSpace;
    SkippedIsSpace(piece, 0);
    DroppedIsSpace(piece, i, |piece|);
    if Holds(cut, p) {
      assert piece[p - cut.lo] == content[p];
    }
  }

  ghost predicate InSpans(spans: seq<Cut>, p: int) {
    exists k :: 0 <= k < |spans| && Holds(spans[k], p)
  }

  ghost predicate InKept(content: string, cuts: seq<Cut>, p: int) {
    exists i :: 0 <= i < |cuts| && Holds(cuts[i], p) && Keeps(content, cuts[i])
  }

  /** The character lies in a slice whose stripped text has at least 100 characters. */
  ghost predicate InLongSlice(content: string, cuts: seq<Cut>, p: int) {
    exists i :: 0 <= i < |cuts| && cuts[i].lo <= p < cuts[i].hi && |Strip(Slice(content, cuts[i].lo, cuts[i].hi))| >= 100
  }

  lemma KeptIsLong(content: string, cuts: seq<Cut>, p: int)
    ensures InKept(content, cuts, p) <==> InLongSlice(content, cuts, p)
  {
    hide Strip, Slice;
    forall i | 0 <= i < |cuts|
      ensures Keeps(content, cuts[i]) <==> |Strip(Slice(content, cuts[i].lo, cuts[i].hi))| >= 100
      ensures Holds(cuts[i], p) <==> cuts[i].lo <= p < cuts[i].hi
    {
    }
  }

  lemma {:induction false} SpansHoldKept(content: string, cuts: seq<Cut>, p: int)
    requires InText(cuts, |content|) && Solid(content, p)
    ensures InSpans(EmitSpans(content, cuts), p) <==> InKept(content, cuts, p)
  {
    if cuts != [] {
      var first, rest := cuts[0], cuts[1..];
      var spans := EmitSpans(content, rest);
      SpansHoldKept(content, rest, p);
      SpanHoldsSolid(content, first, p);
      hide Keeps, Span, Solid, Holds;
      if Keeps(content, first) {
        InSpansCons(Span(content, first), spans, p);
      } else {
        assert [] + spans == spans;
      }
      InKeptCons(content, first, rest, p);
      assert [first] + rest == cuts;
    }
  }

  lemma InSpansCons(first: Cut, rest: seq<Cut>, p: int)
    ensures InSpans([first] + rest, p) <==> Holds(first, p) || InSpans(rest, p)
  {
    hide Holds;
    var all := [first] + rest;
    assert all[0] == first && forall k :: 0 <= k < |rest| ==> all[k + 1] == rest[k];
    if k :| 0 <= k < |all| && Holds(all[k], p) {
      assert k > 0 ==> Holds(rest[k - 1], p);
    }
  }

  lemma InKeptCons(content: string, first: Cut, rest: seq<Cut>, p: int)
    ensures InKept(content, [first] + rest, p) <==> (Holds(first, p) && Keeps(content, first)) || InKept(content, rest, p)
  {
    hide Holds, Keeps;
    var all := [first] + rest;
    assert all[0] == first && forall k :: 0 <= k < |rest| ==> all[k + 1] == rest[k];
    if k :| 0 <= k < |all| && Holds(all[k], p) && Keeps(content, all[k]) {
      assert k > 0 ==> Holds(rest[k - 1], p) && Keeps(content, rest[k - 1]);
    }
  }

  lemma SolidNotBlank(content: string, p: int)
    requires Solid(content, p)
    ensures Strip(content) != ""
  {
    assert content[0..|content|] == content;
    hide IsSpace, Strip, Span;
    SpanIsStripped(content, Cut(0, |content|));
    SpanHoldsSolid(content, Cut(0, |content|), p);
  }

  lemma OneSpan(span: Cut, p: int)
    requires Holds(span, p)
    ensures InSpans([span], p)
  {
    assert [span][0] == span;
  }

  lemma ShortIsOneSpan(content: string, p: int)
    requires Solid(content, p) && |content| <= TARGET_CHUNK_CHARS
    ensures InSpans(Spans(content), p)
  {
    SolidNotBlank(content, p);
    SpanHoldsSolid(content, Cut(0, |content|), p);
    hide Strip, Span, EmitSpans, Cuts, InSpans, IsSpace;
    OneSpan(Span(content, Cut(0, |content|)), p);
  }

  lemma LongEmits(content: string, p: int)
    requires Solid(content, p) && |content| > TARGET_CHUNK_CHARS
    ensures Spans(content) == EmitSpans(content, Cuts(content, 0)) && InText(Cuts(content, 0), |content|)
  {
    SolidNotBlank(content, p);
    CutsAreBounded(content, 0);
    hide Cuts, Strip, EmitSpans;
  }

  /** A character that is no white space stands in a chunk if and only if the content is a single chunk
      or the character lies in a slice whose stripped text has at least MIN_CHUNK_CHARS characters. */
  lemma InChunkIff(content: string, p: int)
    requires Solid(content, p)
    ensures InSpans(Spans(content), p) <==> |content| <= 2000 || InLongSlice(content, Cuts(content, 0), p)
  {
    KeptIsLong(content, Cuts(content, 0), p);
    hide *;
    if |content| <= TARGET_CHUNK_CHARS {
      ShortIsOneSpan(content, p);
    } else {
      LongEmits(content, p);
      SpansHoldKept(content, Cuts(content, 0), p);
    }
  }

  lemma {:induction false} CoveredOrGap(cuts: seq<Cut>, n: nat, p: int, i: nat) returns (k: nat)
    requires WellCut(cuts, n) && i < |cuts| && cuts[i].lo <= p < cuts[|cuts| - 1].hi
    ensures k < |cuts| && (Holds(cuts[k], p) || (k + 1 < |cuts| && cuts[k].hi <= p < cuts[k + 1].lo))
    decreases |cuts| - i
  {
    k := i;
    if p >= cuts[i].hi && p >= cuts[i + 1].lo {
      k := CoveredOrGap(cuts, n, p, i + 1);
    }
  }

  /** Only neighbours overlap, and a gap lies in no slice. */
  lemma OnlyNeighbours(cuts: seq<Cut>, n: nat, i: nat, j: nat, p: int)
    requires WellCut(cuts, n) && i < |cuts| && j < |cuts| && Holds(cuts[j], p)
    ensures Holds(cuts[i], p) ==> j <= i + 1 && i <= j + 1
    ensures !(i + 1 < |cuts| && cuts[i].hi <= p < cuts[i + 1].lo)
  {
    if i + 1 < |cuts| {
      assert Linked(cuts[i], cuts[i + 1]);
      if i + 1 < j {
        CutsAdvance(cuts, n, i + 1, j);
        assert Linked(cuts[i + 1], cuts[i + 2]);
      }
    }
    if j < i {
      CutsAdvance(cuts, n, j, i);
      if j + 1 < i {
        assert Linked(cuts[j], cuts[j + 1]) && Linked(cuts[j + 1], cuts[j + 2]);
        CutsAdvance(cuts, n, j + 1, i);
      }
    }
  }

  /** There is nothing but white space between neighbouring slices. */
  ghost predicate GapsAreBlank(content: string, cuts: seq<Cut>) {
    forall i, p {:trigger cuts[i], Solid(content, p)} :: 0 <= i < |cuts| - 1 && cuts[i].hi <= p < cuts[i + 1].lo ==> !Solid(content, p)
  }

  /** The slice before or after slice `i` holds the character and is kept. */
  predicate NeighbourKeeps(content: string, cuts: seq<Cut>, i: nat, p: int)
    requires i < |cuts|
  {
    || (0 < i && Holds(cuts[i - 1], p) && Keeps(content, cuts[i - 1]))
    || (i + 1 < |cuts| && Holds(cuts[i + 1], p) && Keeps(content, cuts[i + 1]))
  }

  /** Whatever a dropped slice holds besides white space, a kept neighbour holds too. */
  ghost predicate DustIsShared(content: string, cuts: seq<Cut>) {
    forall i, p {:trigger Holds(cuts[i], p)} :: 0 <= i < |cuts| && !Keeps(content, cuts[i]) && Holds(cuts[i], p) && Solid(content, p) ==>
      NeighbourKeeps(content, cuts, i, p)
  }

  /** The chunks of a long content hold all of its text but white space if and only if the gaps between
      slices are blank and every slice dropped for its length shares its text with a kept neighbour. */
  lemma NothingLostIff(content: string)
    requires |content| > TARGET_CHUNK_CHARS
    ensures var cuts := Cuts(content, 0);
            (forall p :: Solid(content, p) ==> InSpans(Spans(content), p)) <==>
            GapsAreBlank(content, cuts) && DustIsShared(content, cuts)
  {
    var cuts := Cuts(content, 0);
    CutsAreBounded(content, 0);
    hide *;
    forall p | Solid(content, p)
      ensures InSpans(Spans(content), p) <==> InKept(content, cuts, p)
    {
      InChunkIff(content, p);
      KeptIsLong(content, cuts, p);
    }
    if GapsAreBlank(content, cuts) && DustIsShared(content, cuts) {
      forall p | Solid(content, p) ensures InKept(content, cuts, p) {
        SharedIsKept(content, cuts, p);
      }
    }
    if forall p :: Solid(content, p) ==> InSpans(Spans(content), p) {
      AllKeptShares(content, cuts);
    }
  }

  lemma SharedIsKept(content: string, cuts: seq<Cut>, p: int)
    requires cuts != [] && cuts[0].lo == 0 && cuts[|cuts| - 1].hi == |content| && WellCut(cuts, |content|)
    requires GapsAreBlank(content, cuts) && DustIsShared(content, cuts) && Solid(content, p)
    ensures InKept(content, cuts, p)
  {
    hide Keeps, IsSpace;
    var k := CoveredOrGap(cuts, |content|, p, 0);
    assert Holds(cuts[k], p);
    if !Keeps(content, cuts[k]) {
      assert NeighbourKeeps(content, cuts, k, p);
    }
  }

  lemma AllKeptShares(content: string, cuts: seq<Cut>)
    requires WellCut(cuts, |content|) && forall p :: Solid(content, p) ==> InKept(content, cuts, p)
    ensures GapsAreBlank(content, cuts) && DustIsShared(content, cuts)
  {
    hide Keeps, IsSpace;
    forall i, p {:trigger Holds(cuts[i], p)} | 0 <= i < |cuts| - 1 && cuts[i].hi <= p < cuts[i + 1].lo ensures !Solid(content, p) {
      if Solid(content, p) {
        var j :| 0 <= j < |cuts| && Holds(cuts[j], p) && Keeps(content, cuts[j]);
        OnlyNeighbours(cuts, |content|, i, j, p);
        assert false;
      }
    }
    forall i, p {:trigger Holds(cuts[i], p)} | 0 <= i < |cuts| && !Keeps(content, cuts[i]) && Holds(cuts[i], p) && Solid(content, p)
      ensures NeighbourKeeps(content, cuts, i, p)
    {
      var j :| 0 <= j < |cuts| && Holds(cuts[j], p) && Keeps(content, cuts[j]);
      OnlyNeighbours(cuts, |content|, i, j, p);
    }
  }

  const DUST_EXAMPLE: string := seq(2500, i => if i < 2000 then 'a' else if i < 2499 then ' ' else 'b')

  lemma HeadOccurs(w: string, d: string, j: int)
    requires d != ""
    ensures OccursAt(w, d, j) ==> w[j] == d[0]
  {
    if OccursAt(w, d, j) {
      assert w[j..j + |d|][0] == w[j];
    }
  }

  lemma DustSplit(w: string)
    requires |w| == 900 && forall i :: 0 <= i < 900 ==> w[i] == if i < 400 then 'a' else if i < 899 then ' ' else 'b'
    ensures AtBest(w, RANKED_DELIMS, 899)
  {
    var delims := RANKED_DELIMS;
    assert delims[0][0] == delims[1][0] == delims[8][0] == '\n' && delims[2][0] == delims[5][0] == '.';
    assert delims[3][0] == delims[6][0] == '!' && delims[4][0] == delims[7][0] == '?' && delims[9] == " ";
    forall m, j | 0 <= m < 9 ensures !OccursAt(w, delims[m], j) {
      HeadOccurs(w, delims[m], j);
    }
    assert w[898..899] == " ";
    forall j | OccursAt(w, " ", j) ensures j <= 898 {
      assert w[j..j + 1][0] == w[j];
    }
    assert AfterBest(w, delims, 9, 899);
  }

  lemma DustExampleCuts()
    ensures Cuts(DUST_EXAMPLE, 0) == [Cut(0, 2499), Cut(2299, 2500)]
  {
    var t := DUST_EXAMPLE;
    var w := Window(t, 0, TARGET_CHUNK_CHARS, MAX_CHUNK_CHARS);
    assert t[1600..2500] == w;
    assert w[898] == ' ';
    DustSplit(w);
    SplitPointIsBestBoundary(t, 0, TARGET_CHUNK_CHARS, MAX_CHUNK_CHARS);
    var s := SplitPoint(t, 0, TARGET_CHUNK_CHARS, MAX_CHUNK_CHARS);
    hide AtBest, RankedOffset, Window;
    OneBest(w, RANKED_DELIMS, 899, s - WindowStart(0, TARGET_CHUNK_CHARS));
    assert Cuts(t, 2299) == [Cut(2299, 2500)];
  }

  /** Covered by slices is not yet in a chunk: the last slice of this text strips to one character and
      is dropped, though every character lies in a slice. */
  lemma DustIsLost()
    ensures forall p :: 0 <= p < |DUST_EXAMPLE| ==> Covered(Cuts(DUST_EXAMPLE, 0), p)
    ensures BodyChunks(DUST_EXAMPLE) == [DUST_EXAMPLE[..2000]]
    ensures DUST_EXAMPLE[2499] == 'b' && !InSpans(Spans(DUST_EXAMPLE), 2499)
  {
    var t := DUST_EXAMPLE;
    var spaces := seq(499, i => ' ');
    DustExampleCuts();
    var cuts := Cuts(t, 0);
    hide Strip, SplitPoint, Cuts;
    assert Slice(t, 0, 2499) == "" + t[..2000] + spaces;
    StripIs(Slice(t, 0, 2499), "", t[..2000], spaces);
    assert Slice(t, 2299, 2500) == spaces[..200] + "b" + "";
    StripIs(Slice(t, 2299, 2500), spaces[..200], "b", "");
    assert t == "" + t + "";
    StripIs(t, "", t, "");
    assert Emit(t, cuts[1..]) == [] by { assert cuts[1..] == [Cut(2299, 2500)] && cuts[1..][1..] == []; }
    InChunkIff(t, 2499);
    forall p | 0 <= p < 2500 ensures Covered(cuts, p) {
      assert if p < 2499 then Holds(cuts[0], p) else Holds(cuts[1], p);
    }
  }

  /** Every emitted chunk is at most MAX_CHUNK_CHARS long, has no white space at either end, and
      stands contiguously in the content. */
  ghost predicate GoodChunk(content: string, chunk: string) {
    && 0 < |chunk| <= MAX_CHUNK_CHARS
    && !IsSpace(chunk[0]) && !IsSpace(chunk[|chunk| - 1])
    && exists i :: OccursAt(content, chunk, i)
  }

  lemma StrippedSliceIsGood(content: string, lo: nat, hi: nat)
    requires lo <= hi <= |content| && hi - lo <= MAX_CHUNK_CHARS && Strip(content[lo..hi]) != ""
    ensures GoodChunk(content, Strip(content[lo..hi]))
  {
    var pre, post := StripTrims(content[lo..hi]);
    StrippedOccurs(content, lo, hi, pre, Strip(content[lo..hi]), post);
  }

  lemma StrippedOccurs(content: string, lo: nat, hi: nat, pre: string, chunk: string, post: string)
    requires lo <= hi <= |content| && content[lo..hi] == pre + chunk + post
    ensures OccursAt(content, chunk, lo + |pre|)
  {
    assert (pre + chunk + post)[|pre|..|pre| + |chunk|] == chunk;
    SliceOfSlice(content, lo, hi, |pre|, |pre| + |chunk|);
  }

  lemma {:induction false} EmitIsGood(content: string, cuts: seq<Cut>)
    requires forall i :: 0 <= i < |cuts| ==> cuts[i].lo <= cuts[i].hi <= |content| && cuts[i].hi - cuts[i].lo <= MAX_CHUNK_CHARS
    ensures forall c :: c in Emit(content, cuts) ==> GoodChunk(content, c) && |c| >= MIN_CHUNK_CHARS
    ensures |Emit(content, cuts)| <= |cuts|
  {
    if cuts != [] {
      var piece := Slice(content, cuts[0].lo, cuts[0].hi);
      if |Strip(piece)| >= MIN_CHUNK_CHARS {
        StrippedSliceIsGood(content, cuts[0].lo, cuts[0].hi);
      }
      EmitIsGood(content, cuts[1..]);
    }
  }

  /** What callers get from the splitter: no chunk exactly for blank content at or below the target,
      and otherwise only good chunks, long ones unless the content is a single chunk. */
  lemma BodyChunksAreGood(content: string)
    ensures forall c :: c in BodyChunks(content) ==> GoodChunk(content, c)
    ensures |content| > TARGET_CHUNK_CHARS ==> forall c :: c in BodyChunks(content) ==> |c| >= MIN_CHUNK_CHARS
    ensures |content| <= TARGET_CHUNK_CHARS ==> (BodyChunks(content) == [] <==> Strip(content) == "")
    ensures |BodyChunks(content)| <= 1 + Max(0, |content| - 201) / 1800
  {
    if Strip(content) != "" {
      if |content| <= TARGET_CHUNK_CHARS {
        assert content[0..|content|] == content;
        StrippedSliceIsGood(content, 0, |content|);
      } else {
        ChunkerBounds(content);
        CutsAreBounded(content, 0);
        EmitIsGood(content, Cuts(content, 0));
      }
    }
  }
}
