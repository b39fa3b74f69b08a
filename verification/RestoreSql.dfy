/** The restore script of database/_utils/gen_restore_sql.py: column inference, SQL literals and the
    VALUES lists, read back by the lexical rules of SQL (ISO/IEC 9075-2 section 5.3; PostgreSQL
    documentation section 4.1.2.1). */
module RestoreSql {
  import Decimal
  import opened Wrappers

  /** A JSON value as Python holds it. A float is given by its `repr`, hence in the range of a double, a
      list or dict by its JSON text. */
  datatype Json = Null | Bool(b: bool) | Int(i: int) | Float(repr: string) | Str(s: string) | Doc(text: string)

  datatype PgType = TEXT | BOOLEAN | BIGINT | DOUBLE_PRECISION | JSONB | TIMESTAMPTZ

  const ISO_SHAPE: string := "0000-00-00T00:00:00"

  /** ISO_RE.match: the text starts like a timestamp. */
  predicate IsoPrefix(s: string) {
    |s| >= |ISO_SHAPE| && forall k :: 0 <= k < |ISO_SHAPE| ==> if ISO_SHAPE[k] == '0' then Decimal.IsDigit(s[k]) else s[k] == ISO_SHAPE[k]
  }

  function PgTypeOf(v: Json): PgType {
    match v
    case Null => TEXT
    case Bool(_) => BOOLEAN
    case Int(_) => BIGINT
    case Float(_) => DOUBLE_PRECISION
    case Doc(_) => JSONB
    case Str(s) => if IsoPrefix(s) then TIMESTAMPTZ else TEXT
  }

  // ── column inference ─────────────────────────────────────────────────────

  /** A row: its keys in order, with their values. */
  type Row = seq<(string, Json)>

  /** The type a column has after one more value: TEXT gives way, anything else stays. */
  function Widen(cols: map<string, PgType>, key: string, v: Json): PgType {
    if key in cols && (cols[key] != TEXT || PgTypeOf(v) == TEXT) then cols[key] else PgTypeOf(v)
  }

  function AfterRow(cols: map<string, PgType>, row: Row): map<string, PgType> {
    if row == [] then cols
    else
      var before, (k, v) := AfterRow(cols, row[..|row| - 1]), row[|row| - 1];
      before[k := Widen(before, k, v)]
  }

  function InferredCols(rows: seq<Row>): map<string, PgType> {
    if rows == [] then map[] else AfterRow(InferredCols(rows[..|rows| - 1]), rows[|rows| - 1])
  }

  /** The keys of a dict in insertion order: order of first sight. */
  function SeenInRow(order: seq<string>, row: Row): seq<string> {
    if row == [] then order
    else
      var before, key := SeenInRow(order, row[..|row| - 1]), row[|row| - 1].0;
      if key in before then before else before + [key]
  }

  function SeenOrder(rows: seq<Row>): seq<string> {
    if rows == [] then [] else SeenInRow(SeenOrder(rows[..|rows| - 1]), rows[|rows| - 1])
  }

  /** Keys keep the place they got when first seen, and a new one goes to the end. */
  lemma {:induction false} SeenInRowGrows(order: seq<string>, row: Row, n: nat)
    requires n <= |row|
    ensures SeenInRow(order, row[..n]) <= SeenInRow(order, row)
    decreases |row| - n
  {
    if n == |row| {
      assert row[..n] == row;
    } else {
      SeenInRowGrows(order, row, n + 1);
      assert row[..n + 1][..n] == row[..n];
    }
  }

  /** Order of first sight: what the columns are after any part of the rows is a prefix of what they are
      after all of them. */
  lemma {:induction false} SeenGrows(rows: seq<Row>, n: nat)
    requires n <= |rows|
    ensures SeenOrder(rows[..n]) <= SeenOrder(rows)
    decreases |rows| - n
  {
    if n == |rows| {
      assert rows[..n] == rows;
    } else {
      SeenGrows(rows, n + 1);
      assert rows[..n + 1][..n] == rows[..n];
      SeenInRowGrows(SeenOrder(rows[..n]), rows[n], 0);
      assert rows[n][..0] == [];
    }
  }

  /** `_infer_cols`: `order` is the dict's insertion order. */
  method InferCols(rows: seq<Row>) returns (cols: map<string, PgType>, order: seq<string>)
    ensures cols == InferredCols(rows) && order == SeenOrder(rows)
    ensures forall k :: k in order <==> k in cols
    ensures forall i, j :: 0 <= i < j < |order| ==> order[i] != order[j]
  {
    cols, order := map[], [];
    for r := 0 to |rows|
      invariant cols == InferredCols(rows[..r]) && order == SeenOrder(rows[..r])
      invariant forall k :: k in order <==> k in cols
      invariant forall i, j :: 0 <= i < j < |order| ==> order[i] != order[j]
    {
      var row := rows[r];
      assert rows[..r + 1][..r] == rows[..r];
      ghost var start, seen := cols, order;
      for c := 0 to |row|
        invariant cols == AfterRow(start, row[..c]) && order == SeenInRow(seen, row[..c])
        invariant forall k :: k in order <==> k in cols
        invariant forall i, j :: 0 <= i < j < |order| ==> order[i] != order[j]
      {
        assert row[..c + 1][..c] == row[..c];
        var (k, v) := row[c];
        var inferred := PgTypeOf(v);
        if k !in cols {
          order := order + [k];
          cols := cols[k := inferred];
        } else if cols[k] == TEXT && inferred != TEXT {
          cols := cols[k := inferred];
        } else {
          assert cols[k := cols[k]] == cols;
        }
      }
      assert row[..|row|] == row;
    }
    assert rows[..|rows|] == rows;
  }

  /** All non-null values of the column have type `t`. */
  ghost predicate RowShares(row: Row, key: string, t: PgType) {
    forall c :: 0 <= c < |row| && row[c].0 == key && row[c].1 != Null ==> PgTypeOf(row[c].1) == t
  }

  ghost predicate Shares(rows: seq<Row>, key: string, t: PgType) {
    forall r :: 0 <= r < |rows| ==> RowShares(rows[r], key, t)
  }

  ghost predicate HasValue(row: Row, key: string) {
    exists c :: 0 <= c < |row| && row[c].0 == key && row[c].1 != Null
  }

  /** While only values of type `t` and nulls are seen, the column has type `t`, or still TEXT. */
  ghost predicate TypedAs(cols: map<string, PgType>, key: string, t: PgType, seen: bool) {
    (key in cols ==> cols[key] == t || cols[key] == TEXT) && (seen ==> key in cols && cols[key] == t)
  }

  lemma {:induction false} RowKeepsType(cols: map<string, PgType>, row: Row, key: string, t: PgType, seen: bool)
    requires RowShares(row, key, t) && TypedAs(cols, key, t, seen)
    ensures TypedAs(AfterRow(cols, row), key, t, seen || HasValue(row, key))
  {
    if row != [] {
      var front := row[..|row| - 1];
      assert forall c :: 0 <= c < |front| ==> front[c] == row[c];
      RowKeepsType(cols, front, key, t, seen);
      if HasValue(row, key) && !HasValue(front, key) {
        assert row[|row| - 1].0 == key && row[|row| - 1].1 != Null;
      }
    }
  }

  /** Inference finds the shared type: a column whose non-null values share one type gets that type,
      whatever nulls come before them, and TEXT when it has no other value. */
  lemma {:induction false} InferenceFindsSharedType(rows: seq<Row>, key: string, t: PgType)
    requires Shares(rows, key, t)
    ensures TypedAs(InferredCols(rows), key, t, exists r :: 0 <= r < |rows| && HasValue(rows[r], key))
  {
    if rows != [] {
      var front, last := rows[..|rows| - 1], rows[|rows| - 1];
      InferenceFindsSharedType(front, key, t);
      var seen := exists r :: 0 <= r < |front| && HasValue(front[r], key);
      RowKeepsType(InferredCols(front), last, key, t, seen);
      if exists r :: 0 <= r < |rows| && HasValue(rows[r], key) {
        var r :| 0 <= r < |rows| && HasValue(rows[r], key);
        assert r < |front| ==> HasValue(front[r], key);
      }
    }
  }

  // ── numerals ─────────────────────────────────────────────────────────────

  predicate IsInteger(w: string) {
    var digits := if w != "" && w[0] == '-' then w[1..] else w;
    digits != "" && Decimal.AllDigits(digits)
  }

  /** The first position from `i` on of one of the characters, or the end. */
  function Find(w: string, cs: set<char>, i: nat): (k: nat)
    requires i <= |w|
    ensures i <= k <= |w| && (k < |w| ==> w[k] in cs)
    decreases |w| - i
  {
    if i == |w| || w[i] in cs then i else Find(w, cs, i + 1)
  }

  /** Digits with at most one point among them, and at least one digit. */
  predicate IsMantissa(m: string) {
    var d := Find(m, {'.'}, 0);
    Decimal.AllDigits(m[..d]) && (d < |m| ==> Decimal.AllDigits(m[d + 1..]) && |m| > 1) && m != ""
  }

  predicate IsExponent(x: string) {
    var digits := if x != "" && (x[0] == '+' || x[0] == '-') then x[1..] else x;
    digits != "" && Decimal.AllDigits(digits)
  }

  /** A numeric constant (PostgreSQL documentation section 4.1.2.6). */
  predicate IsUnsigned(u: string) {
    var e := Find(u, {'e', 'E'}, 0);
    IsMantissa(u[..e]) && (e < |u| ==> IsExponent(u[e + 1..]))
  }

  /** A numeric constant with an optional minus sign. */
  predicate IsNumeral(w: string) {
    IsUnsigned(if w != "" && w[0] == '-' then w[1..] else w)
  }

  lemma {:induction false} FindIs(w: string, cs: set<char>, i: nat, n: nat)
    requires i <= n <= |w| && (forall k :: i <= k < n ==> w[k] !in cs) && (n < |w| ==> w[n] in cs)
    ensures Find(w, cs, i) == n
    decreases n - i
  {
    if i < n {
      FindIs(w, cs, i + 1, n);
    }
  }

  predicate SomeDigits(x: string) {
    x != "" && Decimal.AllDigits(x)
  }

  lemma PointIsMantissa(a: string, b: string)
    requires SomeDigits(a) && SomeDigits(b)
    ensures IsMantissa(a + "." + b)
  {
    var m := a + "." + b;
    assert forall k :: 0 <= k < |a| ==> m[k] == a[k] && Decimal.IsDigit(a[k]);
    FindIs(m, {'.'}, 0, |a|);
    assert m[..|a|] == a && m[|a| + 1..] == b;
  }

  lemma PlainMantissa(a: string)
    requires SomeDigits(a)
    ensures IsMantissa(a)
  {
    assert forall k :: 0 <= k < |a| ==> Decimal.IsDigit(a[k]);
    FindIs(a, {'.'}, 0, |a|);
    assert a[..|a|] == a;
  }

  /** Digits, with or without a fraction, with or without an exponent. */
  ghost predicate FloatShape(u: string, a: string, b: string, x: string) {
    && SomeDigits(a) && (b == "" || SomeDigits(b)) && (x == "" || (|x| > 1 && x[0] in {'+', '-'} && SomeDigits(x[1..])))
    && u == a + (if b == "" then "" else "." + b) + (if x == "" then "" else "e" + x)
  }

  lemma MantissaHasNoE(a: string, b: string) returns (m: string)
    requires SomeDigits(a) && (b == "" || SomeDigits(b))
    ensures m == (a + if b == "" then "" else "." + b) && IsMantissa(m) && forall k :: 0 <= k < |m| ==> m[k] !in {'e', 'E'}
  {
    m := a + if b == "" then "" else "." + b;
    if b == "" {
      assert m == a;
      PlainMantissa(a);
    } else {
      assert m == a + "." + b;
      PointIsMantissa(a, b);
    }
    hide IsMantissa;
    assert forall k :: 0 <= k < |a| ==> Decimal.IsDigit(a[k]) && m[k] == a[k];
    assert forall k :: 0 <= k < |b| ==> Decimal.IsDigit(b[k]);
    assert forall k :: |a| < k < |m| ==> m[k] == b[k - |a| - 1];
  }

  lemma ShapeIsUnsigned(u: string, a: string, b: string, x: string)
    requires FloatShape(u, a, b, x)
    ensures IsUnsigned(u)
  {
    var m := MantissaHasNoE(a, b);
    assert x != "" ==> IsExponent(x);
    hide IsMantissa, IsExponent, SomeDigits, Decimal.AllDigits;
    var tail := if x == "" then "" else "e" + x;
    assert u == m + tail;
    assert tail != "" ==> u[|m|] == 'e';
    FindIs(u, {'e', 'E'}, 0, |m|);
    assert u[..|m|] == m && (x != "" ==> u[|m| + 1..] == x);
  }

  /** The texts Python prints for finite floats are numerals: a sign, digits, a fraction, an exponent. */
  lemma FiniteFloatsAreNumerals(u: string, a: string, b: string, x: string)
    requires FloatShape(u, a, b, x)
    ensures IsNumeral(u) && IsNumeral("-" + u)
  {
    ShapeIsUnsigned(u, a, b, x);
    assert Decimal.IsDigit(a[0]) && u[0] == a[0];
    assert ("-" + u)[1..] == u;
    hide IsUnsigned;
  }

  /** The range of BIGINT. */
  predicate InInt64(i: int) {
    -0x8000_0000_0000_0000 <= i < 0x8000_0000_0000_0000
  }

  // ── timestamps ───────────────────────────────────────────────────────────

  /** `len` digits from position `at` on, with a value within the bounds. */
  predicate Field(s: string, at: nat, len: nat, lo: nat, hi: nat) {
    at + len <= |s| && Decimal.AllDigits(s[at..at + len]) && lo <= Decimal.Value(s[at..at + len]) <= hi
  }

  function DaysIn(year: nat, month: nat): nat {
    if month == 2 then (if year % 4 == 0 && (year % 100 != 0 || year % 400 == 0) then 29 else 28)
    else if month in {4, 6, 9, 11} then 30
    else 31
  }

  /** No zone, Z, or an offset in hours and perhaps minutes. */
  predicate IsZone(z: string) {
    || z == "" || z == "Z"
    || (z[0] in {'+', '-'} && Field(z, 1, 2, 0, 15)
        && (|z| == 3 || (|z| == 5 && Field(z, 3, 2, 0, 59)) || (|z| == 6 && z[3] == ':' && Field(z, 4, 2, 0, 59))))
  }

  predicate IsFraction(f: string) {
    f == "" || (f[0] == '.' && |f| > 1 && Decimal.AllDigits(f[1..]))
  }

  predicate IsTail(tail: string) {
    var z := Find(tail, {'Z', '+', '-'}, 0);
    IsFraction(tail[..z]) && IsZone(tail[z..])
  }

  /** A date and time of the ISO 8601 shape, with every field in its range, and nothing after the zone. */
  predicate IsTimestamp(s: string) {
    && IsoPrefix(s) && Field(s, 0, 4, 1, 9999) && Field(s, 5, 2, 1, 12)
    && Field(s, 8, 2, 1, DaysIn(Decimal.Value(s[..4]), Decimal.Value(s[5..7])))
    && Field(s, 11, 2, 0, 23) && Field(s, 14, 2, 0, 59) && Field(s, 17, 2, 0, 59)
    && IsTail(s[19..])
  }

  // ── literals ─────────────────────────────────────────────────────────────

  function IntText(i: int): string {
    if i < 0 then "-" + Decimal.Text(-i) else Decimal.Text(i)
  }

  /** `str(value)` */
  function PyStr(v: Json): string {
    match v
    case Null => "None"
    case Bool(b) => if b then "True" else "False"
    case Int(i) => IntText(i)
    case Float(repr) => repr
    case Str(s) => s
    case Doc(text) => text
  }

  predicate Truthy(v: Json) {
    match v
    case Null => false
    case Bool(b) => b
    case Int(i) => i != 0
    case Float(repr) => repr != "0.0" && repr != "-0.0"
    case Str(s) => s != ""
    case Doc(text) => text != "[]" && text != "{}"
  }

  /** `x.replace("'", "''")` */
  function Escape(x: string): string {
    if x == "" then "" else (if x[0] == '\'' then "''" else [x[0]]) + Escape(x[1..])
  }

  function Quote(x: string): string {
    "'" + Escape(x) + "'"
  }

  /** `json.dumps`, a reader of JSON, and the lists and dicts that hold no NaN and no infinity. */
  datatype Codec = Codec(dumps: Json -> string, loads: string -> Option<Json>, finite: string -> bool)

  /** A value that has a numeral or a JSON text: NaN and the infinities have neither, though Python
      prints them. */
  predicate Printable(json: Codec, v: Json) {
    match v
    case Float(repr) => IsNumeral(repr)
    case Doc(text) => json.finite(text)
    case _ => true
  }

  /** JSON text reads back as what it was written from, and nothing reads as NaN or an infinity. */
  ghost predicate Faithful(json: Codec) {
    && (forall v :: Printable(json, v) ==> json.loads(json.dumps(v)) == Some(v))
    && (forall c :: json.loads(c).Some? ==> Printable(json, json.loads(c).value))
  }

  function SqlLiteral(json: Codec, v: Json, t: PgType): string {
    if v == Null then "NULL"
    else
      match t
      case BOOLEAN => if Truthy(v) then "TRUE" else "FALSE"
      case BIGINT => PyStr(v)
      case DOUBLE_PRECISION => PyStr(v)
      case JSONB => Quote(json.dumps(v)) + "::jsonb"
      case TIMESTAMPTZ => Quote(PyStr(v)) + "::timestamptz"
      case TEXT => Quote(PyStr(v))
  }

  // ── reading SQL ──────────────────────────────────────────────────────────

  /** The tokens of one value: a string literal with its optional cast, or a bare word or number. */
  datatype Group = Quoted(content: string, cast: string) | Word(text: string)

  /** Reads a string literal after its opening quote: a doubled quote is a quote, a single one ends it. */
  function LexQuoted(s: string): (r: Option<(string, string)>)
    ensures r.Some? ==> |r.value.1| < |s|
  {
    if s == "" then None
    else if s[0] != '\'' then
      match LexQuoted(s[1..])
      case Some((c, rest)) => Some(([s[0]] + c, rest))
      case None => None
    else if |s| > 1 && s[1] == '\'' then
      match LexQuoted(s[2..])
      case Some((c, rest)) => Some(("'" + c, rest))
      case None => None
    else Some(("", s[1..]))
  }

  predicate WordChar(c: char) {
    c !in {'\'', ',', ' ', '(', ')', ':', ';'}
  }

  function LexWord(s: string): (r: (string, string))
    ensures |r.0| + |r.1| == |s|
  {
    if s != "" && WordChar(s[0]) then
      var (w, rest) := LexWord(s[1..]);
      ([s[0]] + w, rest)
    else ("", s)
  }

  function LexGroup(s: string): (r: Option<(Group, string)>)
    ensures r.Some? ==> |r.value.1| < |s|
  {
    if s == "" then None
    else if s[0] == '\'' then
      match LexQuoted(s[1..])
      case None => None
      case Some((c, rest)) =>
        if |rest| >= 2 && rest[..2] == "::" then
          var (w, rest') := LexWord(rest[2..]);
          Some((Quoted(c, w), rest'))
        else Some((Quoted(c, ""), rest))
    else
      var (w, rest) := LexWord(s);
      if w == "" then None else Some((Word(w), rest))
  }

  /** The comma-separated values between the parentheses of a VALUES list. */
  function LexValues(s: string): Option<seq<Group>>
    decreases |s|
  {
    match LexGroup(s)
    case None => None
    case Some((g, rest)) =>
      if rest == "" then Some([g])
      else if |rest| >= 2 && rest[..2] == ", " then
        match LexValues(rest[2..])
        case Some(gs) => Some([g] + gs)
        case None => None
      else None
  }

  function IntValue(w: string): int {
    if w != "" && w[0] == '-' then 0 - Decimal.Value(w[1..]) else Decimal.Value(w)
  }

  /** The value a token group stands for in a column of type `t`; none when the server refuses it. */
  function Decode(json: Codec, g: Group, t: PgType): Option<Json> {
    match g
    case Word(w) =>
      if w == "NULL" then Some(Null)
      else if t == BOOLEAN then (if w == "TRUE" then Some(Bool(true)) else if w == "FALSE" then Some(Bool(false)) else None)
      else if t == BIGINT then (if IsInteger(w) && InInt64(IntValue(w)) then Some(Int(IntValue(w))) else None)
      else if t == DOUBLE_PRECISION then (if IsNumeral(w) then Some(Float(w)) else None)
      else None
    case Quoted(c, cast) =>
      if t == JSONB && cast == "jsonb" then json.loads(c)
      else if t == TIMESTAMPTZ && cast == "timestamptz" then (if IsTimestamp(c) then Some(Str(c)) else None)
      else if t == TEXT && cast == "" then Some(Str(c))
      else None
  }

  // ── round trip ───────────────────────────────────────────────────────────

  /** What follows a value in a VALUES list: nothing, or the next comma. */
  predicate Separator(rest: string) {
    rest == "" || rest[0] == ','
  }

  /** A doubled-quote literal reads back as its content, whatever quotes, commas or parentheses it holds. */
  lemma {:induction false} QuoteRoundTrip(x: string, rest: string)
    requires rest == "" || rest[0] != '\''
    ensures LexQuoted(Escape(x) + "'" + rest) == Some((x, rest))
  {
    var s := Escape(x) + "'" + rest;
    if x == "" {
      assert s == "'" + rest && s[1..] == rest;
    } else {
      QuoteRoundTrip(x[1..], rest);
      var tail := Escape(x[1..]) + "'" + rest;
      assert x == [x[0]] + x[1..];
      if x[0] == '\'' {
        assert s == "''" + tail && s[2..] == tail;
      } else {
        assert s == [x[0]] + tail && s[1..] == tail;
      }
    }
  }

  ghost predicate IsWord(w: string) {
    w != "" && forall k :: 0 <= k < |w| ==> WordChar(w[k])
  }

  lemma {:induction false} WordRoundTrip(w: string, rest: string)
    requires forall k :: 0 <= k < |w| ==> WordChar(w[k])
    requires rest == "" || !WordChar(rest[0])
    ensures LexWord(w + rest) == (w, rest)
  {
    if w == "" {
      assert w + rest == rest;
    } else {
      WordRoundTrip(w[1..], rest);
      assert (w + rest)[1..] == w[1..] + rest && w == [w[0]] + w[1..];
    }
  }

  lemma QuotedGroup(x: string, suffix: string, cast: string, rest: string)
    requires Separator(rest) && (suffix == cast == "" || (IsWord(cast) && suffix == "::" + cast))
    ensures LexGroup(Quote(x) + suffix + rest) == Some((Quoted(x, cast), rest))
  {
    hide LexQuoted, LexWord, Escape;
    var tail := suffix + rest;
    var s := Quote(x) + suffix + rest;
    assert s == Quote(x) + tail;
    assert s[1..] == Escape(x) + "'" + tail;
    QuoteRoundTrip(x, tail);
    if cast != "" {
      assert tail[..2] == "::" && tail[2..] == cast + rest;
      WordRoundTrip(cast, rest);
    } else {
      assert tail == rest;
    }
  }

  lemma WordGroup(w: string, rest: string)
    requires Separator(rest) && IsWord(w)
    ensures LexGroup(w + rest) == Some((Word(w), rest))
  {
    WordRoundTrip(w, rest);
  }

  lemma DigitsAreWord(digits: string, sign: string)
    requires digits != "" && Decimal.AllDigits(digits) && (sign == "" || sign == "-")
    ensures IsWord(sign + digits) && sign + digits != "NULL"
    ensures IsInteger(sign + digits)
    ensures IntValue(sign + digits) == if sign == "-" then 0 - Decimal.Value(digits) else Decimal.Value(digits)
  {
    hide Decimal.Value;
    var w := sign + digits;
    assert forall k :: 0 <= k < |digits| ==> w[|sign| + k] == digits[k] && Decimal.IsDigit(digits[k]);
    assert forall k :: |sign| <= k < |w| ==> w[k] == digits[k - |sign|];
    assert w[0] == '-' || Decimal.IsDigit(w[0]);
    assert w[|sign|..] == digits;
    assert sign == "" ==> w == digits && w[0] != '-';
  }

  lemma IntTextReads(json: Codec, i: int)
    ensures IsWord(IntText(i)) && IntText(i) != "NULL"
    ensures Decode(json, Word(IntText(i)), BIGINT) == if InInt64(i) then Some(Int(i)) else None
  {
    var n: nat := if i < 0 then -i else i;
    var digits, sign := Decimal.Text(n), if i < 0 then "-" else "";
    assert IntText(i) == sign + digits;
    Decimal.TextRoundTrip(n);
    hide Decimal.Text, Decimal.Value, IntText, IsWord, IsInteger, IntValue, InInt64;
    DigitsAreWord(digits, sign);
  }

  /** Characters of a numeral. */
  ghost predicate Plain(w: string) {
    forall k :: 0 <= k < |w| ==> WordChar(w[k]) && w[k] != 'N'
  }

  lemma MantissaIsPlain(m: string)
    requires IsMantissa(m)
    ensures Plain(m)
  {
    var d := Find(m, {'.'}, 0);
    hide Find;
    forall k | 0 <= k < |m| ensures WordChar(m[k]) && m[k] != 'N' {
      if k < d {
        assert m[..d][k] == m[k];
      } else if k > d {
        assert m[d + 1..][k - d - 1] == m[k];
      }
    }
  }

  lemma ExponentIsPlain(x: string)
    requires IsExponent(x)
    ensures Plain(x)
  {
    forall k | 0 <= k < |x| ensures WordChar(x[k]) && x[k] != 'N' {
      if k > 0 {
        assert x[1..][k - 1] == x[k];
      }
    }
  }

  lemma UnsignedIsPlain(u: string)
    requires IsUnsigned(u)
    ensures u != "" && Plain(u)
  {
    var e := Find(u, {'e', 'E'}, 0);
    var m := u[..e];
    MantissaIsPlain(m);
    if e < |u| {
      ExponentIsPlain(u[e + 1..]);
    }
    hide Find, IsMantissa, IsExponent;
    forall k | 0 <= k < |u| ensures WordChar(u[k]) && u[k] != 'N' {
      if k < e {
        assert m[k] == u[k];
      } else if k > e {
        assert u[e + 1..][k - e - 1] == u[k];
      }
    }
  }

  lemma NumeralIsWord(w: string)
    requires IsNumeral(w)
    ensures IsWord(w) && w != "NULL"
  {
    var sign := if w != "" && w[0] == '-' then 1 else 0;
    var u := w[sign..];
    UnsignedIsPlain(u) by { assert u == if sign == 1 then w[1..] else w; }
    hide IsUnsigned, IsNumeral;
    forall k | 0 <= k < |w| ensures WordChar(w[k]) && w[k] != 'N' {
      if k >= sign {
        assert u[k - sign] == w[k];
      }
    }
  }

  /** The values a column of type `t` gives back: nulls; in JSONB any value that has a JSON text; in any
      other column values of its own type, integers only within 64 bits, floats only when they are
      finite, texts in a TIMESTAMPTZ column only when they are a full timestamp. */
  predicate Fits(json: Codec, v: Json, t: PgType) {
    v == Null ||
    match t
    case BOOLEAN => v.Bool?
    case BIGINT => v.Int? && InInt64(v.i)
    case DOUBLE_PRECISION => v.Float? && IsNumeral(v.repr)
    case JSONB => Printable(json, v)
    case TIMESTAMPTZ => v.Str? && IsTimestamp(v.s)
    case TEXT => v.Str?
  }

  /** A group of a column never stands for a value that does not fit the column. */
  lemma DecodedFits(json: Codec, g: Group, t: PgType)
    requires Faithful(json) && Decode(json, g, t).Some?
    ensures Fits(json, Decode(json, g, t).value, t)
  {
  }

  lemma WordLiteral(json: Codec, v: Json, t: PgType, rest: string) returns (w: string)
    requires v != Null && Fits(json, v, t) && t in {BOOLEAN, BIGINT, DOUBLE_PRECISION} && Separator(rest)
    ensures SqlLiteral(json, v, t) == w && LexGroup(w + rest) == Some((Word(w), rest)) && Decode(json, Word(w), t) == Some(v)
  {
    hide LexGroup, IntText, IsNumeral, IsInteger, IntValue, InInt64, Separator;
    w := SqlLiteral(json, v, t);
    if t == BIGINT {
      IntTextReads(json, v.i);
    } else if t == DOUBLE_PRECISION {
      NumeralIsWord(v.repr);
    }
    WordGroup(w, rest);
  }

  lemma QuotedLiteral(json: Codec, v: Json, t: PgType, rest: string) returns (g: Group)
    requires Faithful(json) && v != Null && Fits(json, v, t) && t in {JSONB, TIMESTAMPTZ, TEXT} && Separator(rest)
    ensures LexGroup(SqlLiteral(json, v, t) + rest) == Some((g, rest)) && Decode(json, g, t) == Some(v)
  {
    hide LexGroup, Quote, IsTimestamp, Separator;
    if t == JSONB {
      g := Quoted(json.dumps(v), "jsonb");
      QuotedGroup(json.dumps(v), "::jsonb", "jsonb", rest);
    } else if t == TIMESTAMPTZ {
      g := Quoted(v.s, "timestamptz");
      QuotedGroup(v.s, "::timestamptz", "timestamptz", rest);
    } else {
      g := Quoted(v.s, "");
      QuotedGroup(v.s, "", "", rest);
      assert Quote(v.s) + "" + rest == Quote(v.s) + rest;
    }
  }

  /** The literal of a fitting value is one token group, and the group decodes to the value. */
  lemma LiteralRoundTrip(json: Codec, v: Json, t: PgType, rest: string) returns (g: Group)
    requires Faithful(json) && Fits(json, v, t) && Separator(rest)
    ensures LexGroup(SqlLiteral(json, v, t) + rest) == Some((g, rest)) && Decode(json, g, t) == Some(v)
  {
    if v == Null {
      hide LexGroup;
      g := Word("NULL");
      WordGroup("NULL", rest);
    } else {
      hide *;
      if t in {BOOLEAN, BIGINT, DOUBLE_PRECISION} {
        var w := WordLiteral(json, v, t, rest);
        g := Word(w);
      } else {
        g := QuotedLiteral(json, v, t, rest);
      }
    }
  }

  /** The exact condition, cell by cell: the literal of a value in a column of type `t` reads back as
      that value if and only if the value fits the column. */
  lemma LiteralReadsBackIff(json: Codec, v: Json, t: PgType, rest: string)
    requires Faithful(json) && Separator(rest)
    ensures Fits(json, v, t) <==>
            exists g {:trigger Decode(json, g, t)} :: LexGroup(SqlLiteral(json, v, t) + rest) == Some((g, rest)) && Decode(json, g, t) == Some(v)
  {
    if Fits(json, v, t) {
      var g := LiteralRoundTrip(json, v, t, rest);
      assert Decode(json, g, t) == Some(v);
    } else {
      forall g | Decode(json, g, t) == Some(v) ensures false {
        DecodedFits(json, g, t);
      }
    }
  }

  /** `r.get(c)` */
  function GetCell(row: Row, key: string): Json {
    if row == [] then Null
    else if row[|row| - 1].0 == key then row[|row| - 1].1 else GetCell(row[..|row| - 1], key)
  }

  function Values(json: Codec, row: Row, order: seq<string>, cols: map<string, PgType>): string
    requires forall k :: 0 <= k < |order| ==> order[k] in cols
  {
    if order == [] then ""
    else
      SqlLiteral(json, GetCell(row, order[0]), cols[order[0]])
      + if |order| == 1 then "" else ", " + Values(json, row, order[1..], cols)
  }

  lemma {:induction false} ValuesSnoc(json: Codec, row: Row, order: seq<string>, c: string, cols: map<string, PgType>)
    requires order != [] && c in cols && forall k :: 0 <= k < |order| ==> order[k] in cols
    ensures Values(json, row, order + [c], cols) == Values(json, row, order, cols) + ", " + SqlLiteral(json, GetCell(row, c), cols[c])
  {
    hide SqlLiteral, GetCell;
    var longer := order + [c];
    var first, last := SqlLiteral(json, GetCell(row, order[0]), cols[order[0]]), SqlLiteral(json, GetCell(row, c), cols[c]);
    assert longer[1..] == order[1..] + [c];
    if |order| == 1 {
      assert order[1..] + [c] == [c] && Values(json, row, [c], cols) == last + "";
      assert Values(json, row, order, cols) == first + "";
      assert first + (", " + (last + "")) == first + "" + ", " + last;
    } else {
      ValuesSnoc(json, row, order[1..], c, cols);
      var rest := Values(json, row, order[1..], cols);
      assert first + (", " + (rest + ", " + last)) == first + (", " + rest) + ", " + last;
    }
  }

  /** `", ".join(..)` over the columns. */
  method JoinValues(json: Codec, row: Row, order: seq<string>, cols: map<string, PgType>) returns (vals: string)
    requires forall k :: 0 <= k < |order| ==> order[k] in cols
    ensures vals == Values(json, row, order, cols)
  {
    hide SqlLiteral, GetCell;
    vals := "";
    for k := 0 to |order|
      invariant vals == Values(json, row, order[..k], cols)
    {
      var literal := SqlLiteral(json, GetCell(row, order[k]), cols[order[k]]);
      assert order[..k + 1] == order[..k] + [order[k]];
      if k > 0 {
        ValuesSnoc(json, row, order[..k], order[k], cols);
        vals := vals + ", " + literal;
      } else {
        vals := literal;
        assert literal + "" == literal;
      }
    }
    assert order[..|order|] == order;
  }

  /** The VALUES text of every row, as the INSERT loop of `main` builds it. */
  method InsertValues(json: Codec, rows: seq<Row>) returns (lines: seq<string>, cols: map<string, PgType>, order: seq<string>)
    ensures cols == InferredCols(rows) && (forall k :: k in order <==> k in cols) && |lines| == |rows|
    ensures forall k :: 0 <= k < |order| ==> order[k] in cols
    ensures forall r :: 0 <= r < |rows| ==> lines[r] == Values(json, rows[r], order, cols)
  {
    hide Values, InferredCols;
    cols, order := InferCols(rows);
    lines := [];
    for r := 0 to |rows|
      invariant |lines| == r && forall q :: 0 <= q < r ==> lines[q] == Values(json, rows[q], order, cols)
    {
      var vals := JoinValues(json, rows[r], order, cols);
      lines := lines + [vals];
    }
  }

  ghost predicate Recovers(json: Codec, gs: seq<Group>, row: Row, order: seq<string>, cols: map<string, PgType>) {
    && |gs| == |order|
    && forall k :: 0 <= k < |order| ==>
         order[k] in cols && Decode(json, gs[k], cols[order[k]]) == Some(GetCell(row, order[k]))
  }

  ghost predicate AllFit(json: Codec, row: Row, order: seq<string>, cols: map<string, PgType>) {
    forall k :: 0 <= k < |order| ==> order[k] in cols && Fits(json, GetCell(row, order[k]), cols[order[k]])
  }

  lemma {:induction false} ValuesRoundTrip(json: Codec, row: Row, order: seq<string>, cols: map<string, PgType>) returns (gs: seq<Group>)
    requires Faithful(json) && order != [] && AllFit(json, row, order, cols)
    ensures LexValues(Values(json, row, order, cols)) == Some(gs) && Recovers(json, gs, row, order, cols)
  {
    var v, t := GetCell(row, order[0]), cols[order[0]];
    var more := if |order| == 1 then "" else ", " + Values(json, row, order[1..], cols);
    hide Faithful, Fits, SqlLiteral, GetCell, Decode, LexGroup;
    var g := LiteralRoundTrip(json, v, t, more);
    if |order| == 1 {
      gs := [g];
    } else {
      assert forall k :: 0 <= k < |order[1..]| ==> order[1..][k] == order[k + 1];
      var later := ValuesRoundTrip(json, row, order[1..], cols);
      assert more[..2] == ", " && more[2..] == Values(json, row, order[1..], cols);
      gs := [g] + later;
      forall k | 0 <= k < |order| ensures Decode(json, gs[k], cols[order[k]]) == Some(GetCell(row, order[k])) {
        if k > 0 {
          assert gs[k] == later[k - 1] && order[k] == order[1..][k - 1];
        }
      }
    }
  }

  /** The exact condition of a row: its VALUES list lexes into one token group per column, each of which
      decodes to the cell's value, if and only if every cell fits its column. */
  lemma RowReadsBackIff(json: Codec, row: Row, order: seq<string>, cols: map<string, PgType>)
    requires Faithful(json) && order != [] && forall k :: 0 <= k < |order| ==> order[k] in cols
    ensures AllFit(json, row, order, cols) <==>
            var gs := LexValues(Values(json, row, order, cols)); gs.Some? && Recovers(json, gs.value, row, order, cols)
  {
    if AllFit(json, row, order, cols) {
      var gs := ValuesRoundTrip(json, row, order, cols);
    }
    var gs := LexValues(Values(json, row, order, cols));
    if gs.Some? && Recovers(json, gs.value, row, order, cols) {
      forall k | 0 <= k < |order| ensures Fits(json, GetCell(row, order[k]), cols[order[k]]) {
        DecodedFits(json, gs.value[k], cols[order[k]]);
      }
    }
  }

  lemma {:induction false} CellIsInRow(row: Row, key: string)
    requires GetCell(row, key) != Null
    ensures exists c :: 0 <= c < |row| && row[c] == (key, GetCell(row, key))
  {
    if row[|row| - 1].0 != key {
      CellIsInRow(row[..|row| - 1], key);
      var c :| 0 <= c < |row| - 1 && row[..|row| - 1][c] == (key, GetCell(row, key));
      assert row[c] == (key, GetCell(row, key));
    } else {
      assert row[|row| - 1] == (key, GetCell(row, key));
    }
  }

  /** What the restore script can carry in a column of the value's own kind: no integer beyond 64 bits, no
      float or document without a numeral for each of its numbers, no text that only begins like a
      timestamp. */
  predicate Storable(json: Codec, v: Json) {
    match v
    case Null => true
    case Bool(_) => true
    case Int(i) => -9223372036854775808 <= i <= 9223372036854775807
    case Float(repr) => IsNumeral(repr)
    case Str(s) => IsoPrefix(s) ==> IsTimestamp(s)
    case Doc(text) => json.finite(text)
  }

  /** Such a value fits the type it is taken for, and only such a value does. */
  lemma StorableFits(json: Codec, v: Json)
    ensures Storable(json, v) <==> Fits(json, v, PgTypeOf(v))
  {
    hide IsNumeral, IsoPrefix, IsTimestamp;
  }

  /** Round trip of a whole table: if every column's non-null values share one type, and each value can
      be carried at all, each generated VALUES list lexes into exactly one token group per
      column, and each group decodes to the value of that row and column. */
  lemma TableRoundTrip(json: Codec, rows: seq<Row>, order: seq<string>, r: nat) returns (gs: seq<Group>)
    requires Faithful(json)
    requires r < |rows| && order != [] && forall k :: 0 <= k < |order| ==> order[k] in InferredCols(rows)
    requires forall k :: 0 <= k < |order| ==> exists t :: Shares(rows, order[k], t)
    requires forall q, c :: 0 <= q < |rows| && 0 <= c < |rows[q]| ==> Storable(json, rows[q][c].1)
    ensures LexValues(Values(json, rows[r], order, InferredCols(rows))) == Some(gs)
    ensures Recovers(json, gs, rows[r], order, InferredCols(rows))
  {
    forall k | 0 <= k < |order| ensures Fits(json, GetCell(rows[r], order[k]), InferredCols(rows)[order[k]]) {
      var v := GetCell(rows[r], order[k]);
      if v != Null {
        CellIsInRow(rows[r], order[k]);
        var c :| 0 <= c < |rows[r]| && rows[r][c] == (order[k], v);
        var t :| Shares(rows, order[k], t);
        assert RowShares(rows[r], order[k], t) && HasValue(rows[r], order[k]);
        InferenceFindsSharedType(rows, order[k], t);
        StorableFits(json, v);
      }
    }
    gs := ValuesRoundTrip(json, rows[r], order, InferredCols(rows));
  }

  /** A column of booleans and integers loses a value: the integer is printed as TRUE. */
  lemma MixedColumnLosesValue(json: Codec)
    requires Faithful(json)
    ensures var rows := [[("flag", Bool(true))], [("flag", Int(5))]];
            && InferredCols(rows) == map["flag" := BOOLEAN]
            && Values(json, rows[1], ["flag"], InferredCols(rows)) == "TRUE"
            && !AllFit(json, rows[1], ["flag"], InferredCols(rows))
  {
    var a: Row, b: Row := [("flag", Bool(true))], [("flag", Int(5))];
    assert a[..0] == [] && b[..0] == [] && [a, b][..1] == [a];
    assert InferredCols([a]) == AfterRow(map[], a) == map["flag" := BOOLEAN];
    assert AfterRow(map["flag" := BOOLEAN], b) == map["flag" := BOOLEAN];
    assert GetCell(b, "flag") == Int(5) && ["flag"][0] == "flag";
  }

  /** What a BOOLEAN column makes of other values: FALSE of zero and of everything empty, TRUE of the rest. */
  lemma BooleanColumnPrints(json: Codec, v: Json)
    requires v != Null
    ensures SqlLiteral(json, v, BOOLEAN) == "FALSE" || SqlLiteral(json, v, BOOLEAN) == "TRUE"
    ensures SqlLiteral(json, v, BOOLEAN) == "FALSE" <==>
            v in {Bool(false), Int(0), Float("0.0"), Float("-0.0"), Str(""), Doc("[]"), Doc("{}")}
  {
  }

  /** An integer outside 64 bits is printed in full into a BIGINT column, which refuses it. */
  lemma WideIntegerIsRefused(json: Codec, i: int)
    requires !InInt64(i)
    ensures var literal := SqlLiteral(json, Int(i), PgTypeOf(Int(i)));
            LexGroup(literal) == Some((Word(literal), "")) && Decode(json, Word(literal), PgTypeOf(Int(i))) == None
  {
    IntTextReads(json, i);
    hide IntText, IsWord, LexGroup, Decode;
    WordGroup(IntText(i), "");
    assert IntText(i) + "" == IntText(i);
  }

  /** A text that is no full timestamp is refused by a TIMESTAMPTZ column. */
  lemma NoTimestampIsRefused(json: Codec, x: string)
    requires !IsTimestamp(x)
    ensures LexGroup(SqlLiteral(json, Str(x), TIMESTAMPTZ)) == Some((Quoted(x, "timestamptz"), ""))
    ensures Decode(json, Quoted(x, "timestamptz"), TIMESTAMPTZ) == None
  {
    hide IsTimestamp, LexGroup, Quote;
    QuotedGroup(x, "::timestamptz", "timestamptz", "");
    assert Quote(x) + "::timestamptz" + "" == Quote(x) + "::timestamptz";
  }

  function Digit(c: char): int {
    c as int - '0' as int
  }

  lemma TwoDigits(s: string, at: nat)
    requires at + 2 <= |s| && Decimal.IsDigit(s[at]) && Decimal.IsDigit(s[at + 1])
    ensures Decimal.AllDigits(s[at..at + 2]) && Decimal.Value(s[at..at + 2]) == 10 * Digit(s[at]) + Digit(s[at + 1])
  {
    var d := s[at..at + 2];
    assert d[..1] == [s[at]] && [s[at]][..0] == "";
    assert Decimal.Value([s[at]]) == Digit(s[at]);
  }

  lemma YearValue()
    ensures Decimal.Value("2026") == 2026 && Decimal.AllDigits("2026")
  {
    TwoDigits("2026", 0);
    assert "2026"[..3] == "202" && "202"[..2] == "20" && "2026"[0..2] == "20";
    assert Decimal.Value("202") == 202;
  }

  lemma TwoDigitField(s: string, at: nat, lo: nat, hi: nat)
    requires at + 2 <= |s| && Decimal.IsDigit(s[at]) && Decimal.IsDigit(s[at + 1])
    requires lo <= 10 * Digit(s[at]) + Digit(s[at + 1]) <= hi
    ensures Field(s, at, 2, lo, hi)
  {
    TwoDigits(s, at);
  }

  lemma FromFields(x: string)
    requires IsoPrefix(x) && x[19..] == "Z" && Field(x, 0, 4, 1, 9999) && Field(x, 5, 2, 1, 12) && Field(x, 8, 2, 1, 28)
    requires Field(x, 11, 2, 0, 23) && Field(x, 14, 2, 0, 59) && Field(x, 17, 2, 0, 59)
    ensures IsTimestamp(x)
  {
    assert "Z"[..0] == "" && "Z"[0..] == "Z" && IsTail("Z");
    hide IsoPrefix, Decimal.Value, Decimal.AllDigits, IsTail;
    var days := DaysIn(Decimal.Value(x[..4]), Decimal.Value(x[5..7]));
    assert 28 <= days && Field(x, 8, 2, 1, days);
  }

  lemma ExampleYear(x: string)
    requires |x| >= 4 && x[..4] == "2026"
    ensures Field(x, 0, 4, 1, 9999)
  {
    YearValue();
    assert x[0..4] == "2026";
  }

  lemma GoodTimestamp(x: string)
    requires x == "2026-01-01T00:00:00Z"
    ensures IsTimestamp(x)
  {
    assert IsoPrefix(x);
    assert x[..4] == "2026" && x[19..] == "Z";
    MidnightOfFirst(x);
  }

  lemma MidnightOfFirst(x: string)
    requires IsoPrefix(x) && x[..4] == "2026" && x[19..] == "Z"
    requires x[5] == '0' && x[6] == '1' && x[8] == '0' && x[9] == '1'
    requires x[11] == x[12] == x[14] == x[15] == x[17] == x[18] == '0'
    ensures IsTimestamp(x)
  {
    assert |x| == 20;
    hide IsTimestamp, IsoPrefix, Field;
    ExampleYear(x);
    TwoDigitField(x, 5, 1, 12);
    TwoDigitField(x, 8, 1, 28);
    TwoDigitField(x, 11, 0, 23);
    TwoDigitField(x, 14, 0, 59);
    TwoDigitField(x, 17, 0, 59);
    FromFields(x);
  }

  lemma BadTimestamp(x: string)
    requires x == "2026-13-01T00:00:00"
    ensures IsoPrefix(x) && !IsTimestamp(x)
  {
    TwoDigits(x, 5);
  }

  /** Such texts reach one: any text next to one that begins like a timestamp. */
  lemma TextBesideTimestamp(x: string, y: string)
    requires !IsoPrefix(x) && IsoPrefix(y)
    ensures var rows := [[("note", Str(x))], [("note", Str(y))]]; InferredCols(rows) == map["note" := TIMESTAMPTZ]
    ensures !IsTimestamp(x)
  {
    var a: Row, b: Row := [("note", Str(x))], [("note", Str(y))];
    hide IsoPrefix;
    assert a[..0] == [] && b[..0] == [] && [a, b][..1] == [a] && [a][..0] == [];
    assert InferredCols([a]) == AfterRow(map[], a) == map["note" := TEXT];
    assert AfterRow(map["note" := TEXT], b) == map["note" := TIMESTAMPTZ];
  }

  /** To begin like a timestamp is not to be one. */
  lemma PrefixIsNotEnough()
    ensures IsoPrefix("2026-01-01T00:00:00Z") && IsTimestamp("2026-01-01T00:00:00Z") && !IsoPrefix("n/a")
    ensures IsoPrefix("2026-13-01T00:00:00") && !IsTimestamp("2026-13-01T00:00:00")
  {
    GoodTimestamp("2026-01-01T00:00:00Z");
    BadTimestamp("2026-13-01T00:00:00");
    hide Field;
  }

  /** A float printed as a word that is no numeral is lost: its literal lexes into that word, and no
      group of a double column reads back as it. */
  lemma NoNumeralIsLost(json: Codec, repr: string, g: Group)
    requires IsWord(repr) && !IsNumeral(repr)
    ensures SqlLiteral(json, Float(repr), DOUBLE_PRECISION) == repr && LexGroup(repr) == Some((Word(repr), ""))
    ensures Decode(json, g, DOUBLE_PRECISION) != Some(Float(repr))
  {
    hide IsNumeral, IsWord, LexGroup;
    WordGroup(repr, "");
    assert repr + "" == repr;
  }

  /** Such are NaN and the infinities, which `json.loads` yields for the words NaN and Infinity. */
  lemma NotANumber()
    ensures forall repr :: repr in {"nan", "inf", "-inf"} ==> IsWord(repr) && !IsNumeral(repr)
  {
    LetterFirst("nan");
    LetterFirst("inf");
    hide IsUnsigned;
    assert "-inf"[1..] == "inf";
  }

  lemma LetterFirst(u: string)
    requires u != "" && u[0] in {'n', 'i'}
    ensures !IsUnsigned(u)
  {
    var e := Find(u, {'e', 'E'}, 0);
    var m := u[..e];
    assert e > 0 ==> m[0] == u[0];
    var d := Find(m, {'.'}, 0);
    assert d > 0 ==> m[..d][0] == u[0];
  }
}
