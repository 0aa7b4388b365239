/** The lexical scanners of parser.py. Each takes the query text and a cursor
    and returns a token together with the cursor just after it. */
module Scanners {
  import opened Wrappers
  import opened Chars
  import opened Values

  /** The character classes the scanners consume runs of. */
  datatype CharClass = Space | Letter | WordChar | NonSpace | NumChar | NonQuote

  predicate InClass(c: char, k: CharClass) {
    match k
    case Space => IsSpace(c)
    case Letter => IsAlpha(c)
    case WordChar => IsAlnum(c) || c == '_'
    case NonSpace => !IsSpace(c)
    case NumChar => IsDigit(c) || c == '.'
    case NonQuote => !IsQuote(c)
  }

  /** The end of the run of class `k` that starts at `i`. */
  function RunEnd(q: string, i: nat, k: CharClass): (e: nat)
    requires i <= |q|
    ensures i <= e <= |q|
    decreases |q| - i
  {
    if i < |q| && InClass(q[i], k) then RunEnd(q, i + 1, k) else i
  }

  /** `q[i..e]` is a maximal run of class `k`: all of its characters are in the
      class, and the character after it, if there is one, is not. */
  ghost predicate MaximalRun(q: string, i: nat, e: nat, k: CharClass) {
    i <= e <= |q| &&
    (forall j :: i <= j < e ==> InClass(q[j], k)) &&
    (e == |q| || !InClass(q[e], k))
  }

  /** `RunEnd` is exactly the end of the maximal run: the first index at or
      after `i` whose character is outside the class, or the length. */
  lemma {:induction false} RunEndIsMaximalRun(q: string, i: nat, e: nat, k: CharClass)
    requires i <= |q|
    ensures MaximalRun(q, i, e, k) <==> e == RunEnd(q, i, k)
    decreases |q| - i
  {
    if i < |q| && InClass(q[i], k) {
      RunEndIsMaximalRun(q, i + 1, e, k);
      if MaximalRun(q, i, e, k) {
        assert e != i;
        assert MaximalRun(q, i + 1, e, k);
      }
      if MaximalRun(q, i + 1, e, k) {
        assert MaximalRun(q, i, e, k);
      }
    }
  }

  // ---------------------------------------------------------------------
  // Words, column names and table names

  /** `extract_op`: the maximal run of letters at `idx`, upper-cased. */
  method ExtractOp(q: string, idx: nat) returns (token: string, i: nat)
    requires idx <= |q|
    ensures MaximalRun(q, idx, i, Letter)
    ensures token == Upper(q[idx..i])
  {
    var word := "";
    i := idx;
    while i < |q| && IsAlpha(q[i])
      invariant idx <= i <= |q|
      invariant forall j :: idx <= j < i ==> IsAlpha(q[j])
      invariant word == q[idx..i]
    {
      word := word + [q[i]];
      i := i + 1;
    }
    token := Upper(word);
  }

  /** `extract_col_from_expr`: the maximal run of letters, digits and `_` at `idx`. */
  method ExtractColFromExpr(q: string, idx: nat) returns (token: string, i: nat)
    requires idx <= |q|
    ensures MaximalRun(q, idx, i, WordChar)
    ensures token == q[idx..i]
  {
    token := "";
    i := idx;
    while i < |q| && (IsAlnum(q[i]) || q[i] == '_')
      invariant idx <= i <= |q|
      invariant forall j :: idx <= j < i ==> InClass(q[j], WordChar)
      invariant token == q[idx..i]
    {
      token := token + [q[i]];
      i := i + 1;
    }
  }

  /** `extract_table_name`: the maximal run of non-whitespace characters at `idx`, verbatim. */
  method ExtractTableName(q: string, idx: nat) returns (name: string, i: nat)
    requires idx <= |q|
    ensures MaximalRun(q, idx, i, NonSpace)
    ensures name == q[idx..i]
  {
    name := "";
    i := idx;
    while i < |q| && !IsSpace(q[i])
      invariant idx <= i <= |q|
      invariant forall j :: idx <= j < i ==> !IsSpace(q[j])
      invariant name == q[idx..i]
    {
      name := name + [q[i]];
      i := i + 1;
    }
  }

  // ---------------------------------------------------------------------
  // Column lists: `str.split(",")` and `str.strip()`

  /** `s.split(sep)`: the pieces between separators, empty ones included. */
  function Split(s: string, sep: char): (parts: seq<string>)
    ensures |parts| >= 1
    ensures forall p :: p in parts ==> sep !in p
  {
    if s == [] then [""]
    else
      var rest := Split(s[1..], sep);
      if s[0] == sep then [""] + rest
      else [[s[0]] + rest[0]] + rest[1..]
  }

  /** `sep.join(parts)`. */
  function Join(parts: seq<string>, sep: char): string {
    if |parts| == 0 then ""
    else if |parts| == 1 then parts[0]
    else parts[0] + [sep] + Join(parts[1..], sep)
  }

  /** Splitting and joining on the same separator gives back the text. */
  lemma {:induction false} JoinSplit(s: string, sep: char)
    ensures Join(Split(s, sep), sep) == s
  {
    if s != [] {
      var rest := Split(s[1..], sep);
      JoinSplit(s[1..], sep);
      if s[0] == sep {
        assert Split(s, sep) == [""] + rest;
        assert ([""] + rest)[1..] == rest;
      } else {
        var parts := [[s[0]] + rest[0]] + rest[1..];
        assert Split(s, sep) == parts;
        if |rest| > 1 {
          assert parts[1..] == rest[1..];
          assert Join(rest, sep) == rest[0] + [sep] + Join(rest[1..], sep);
        }
      }
    }
  }

  function TrimStart(s: string): string {
    if s != [] && IsSpace(s[0]) then TrimStart(s[1..]) else s
  }

  function TrimEnd(s: string): string {
    if s != [] && IsSpace(s[|s| - 1]) then TrimEnd(s[..|s| - 1]) else s
  }

  /** `s.strip()`: leading and trailing whitespace removed. */
  function Strip(s: string): string {
    TrimEnd(TrimStart(s))
  }

  /** Text without whitespace is left alone by `strip`. */
  lemma StripNoSpace(s: string)
    requires forall j :: 0 <= j < |s| ==> !IsSpace(s[j])
    ensures Strip(s) == s
  {
    assert TrimStart(s) == s;
  }

  /** `[x.strip() for x in parts if x.strip()]`. */
  function NonEmptyStripped(parts: seq<string>): seq<string> {
    if parts == [] then []
    else
      var p := Strip(parts[|parts| - 1]);
      NonEmptyStripped(parts[..|parts| - 1]) + (if p == "" then [] else [p])
  }

  /** The column list that `extract_cols` makes of a non-whitespace run. */
  function ColList(run: string): seq<string> {
    if run == "*" then ["*"] else NonEmptyStripped(Split(run, ','))
  }

  /** A column list entry is never empty and holds no comma and no whitespace. */
  ghost predicate ColEntry(c: string) {
    c != "" && ',' !in c && forall j :: 0 <= j < |c| ==> !IsSpace(c[j])
  }

  /** Pieces without commas or whitespace. */
  ghost predicate CleanPieces(parts: seq<string>) {
    forall p :: p in parts ==> ',' !in p && forall j :: 0 <= j < |p| ==> !IsSpace(p[j])
  }

  /** `NonEmptyStripped` of a list with one more piece at the end. */
  lemma NonEmptyStrippedLast(parts: seq<string>)
    requires parts != [] && CleanPieces(parts)
    ensures var last := parts[|parts| - 1];
      CleanPieces(parts[..|parts| - 1]) &&
      NonEmptyStripped(parts) == NonEmptyStripped(parts[..|parts| - 1]) + (if last == "" then [] else [last])
  {
    var last := parts[|parts| - 1];
    assert last in parts;
    StripNoSpace(last);
    assert forall p :: p in parts[..|parts| - 1] ==> p in parts;
  }

  /** Every extracted column is a non-empty piece without commas or whitespace. */
  lemma {:induction false} NonEmptyStrippedEntries(parts: seq<string>)
    requires CleanPieces(parts)
    ensures forall c :: c in NonEmptyStripped(parts) ==> ColEntry(c)
  {
    if parts != [] {
      var last := parts[|parts| - 1];
      var init := parts[..|parts| - 1];
      NonEmptyStrippedLast(parts);
      NonEmptyStrippedEntries(init);
      assert last in parts;
      var kept := NonEmptyStripped(init);
      forall c | c in NonEmptyStripped(parts)
        ensures ColEntry(c)
      {
        if c !in kept {
          assert c == last;
        }
      }
    }
  }

  /** Without empty pieces nothing is dropped: the pieces come back as they are. */
  lemma {:induction false} NonEmptyStrippedKeepsAll(parts: seq<string>)
    requires forall i :: 0 <= i < |parts| ==> parts[i] != "" && forall j :: 0 <= j < |parts[i]| ==> !IsSpace(parts[i][j])
    ensures NonEmptyStripped(parts) == parts
  {
    if parts != [] {
      var last := parts[|parts| - 1];
      var init := parts[..|parts| - 1];
      NonEmptyStrippedUnfold(parts);
      StripNoSpace(last);
      assert NonEmptyStripped(parts) == NonEmptyStripped(init) + [last];
      assert forall i :: 0 <= i < |init| ==> init[i] == parts[i];
      NonEmptyStrippedKeepsAll(init);
      assert parts == init + [last];
    }
  }

  lemma NonEmptyStrippedUnfold(parts: seq<string>)
    requires parts != []
    ensures var p := Strip(parts[|parts| - 1]);
      NonEmptyStripped(parts) == NonEmptyStripped(parts[..|parts| - 1]) + (if p == "" then [] else [p])
  {
  }

  lemma SplitPiecesNoSpace(s: string, sep: char)
    requires forall j :: 0 <= j < |s| ==> !IsSpace(s[j])
    ensures forall p :: p in Split(s, sep) ==> forall j :: 0 <= j < |p| ==> !IsSpace(p[j])
  {
    if s != [] {
      SplitPiecesNoSpace(s[1..], sep);
    }
  }

  /** Every entry of the column list of a whitespace-free run is non-empty and
      free of commas and whitespace; `*` alone is the wildcard list. */
  lemma ColListEntries(run: string)
    requires forall j :: 0 <= j < |run| ==> !IsSpace(run[j])
    ensures ColList(run) == ["*"] || forall c :: c in ColList(run) ==> ColEntry(c)
  {
    if run != "*" {
      SplitPiecesNoSpace(run, ',');
      NonEmptyStrippedEntries(Split(run, ','));
    }
  }

  /** A well-formed comma-separated list (no empty piece) comes back whole:
      joining the extracted columns with commas gives the run again. */
  lemma ColListRoundTrip(run: string)
    requires run != "*"
    requires forall j :: 0 <= j < |run| ==> !IsSpace(run[j])
    requires forall p :: p in Split(run, ',') ==> p != ""
    ensures Join(ColList(run), ',') == run
  {
    SplitPiecesNoSpace(run, ',');
    var parts := Split(run, ',');
    assert forall i :: 0 <= i < |parts| ==> parts[i] in parts;
    NonEmptyStrippedKeepsAll(parts);
    JoinSplit(run, ',');
  }

  /** `extract_cols`: the maximal non-whitespace run at `idx`, split on commas,
      stripped, empty pieces dropped; the run `*` alone gives `["*"]`. */
  method ExtractCols(q: string, idx: nat) returns (cols: seq<string>, i: nat)
    requires idx <= |q|
    ensures MaximalRun(q, idx, i, NonSpace)
    ensures cols == ColList(q[idx..i])
    ensures cols == ["*"] || forall c :: c in cols ==> ColEntry(c)
  {
    var colsStr := "";
    i := idx;
    while i < |q| && !IsSpace(q[i])
      invariant idx <= i <= |q|
      invariant forall j :: idx <= j < i ==> !IsSpace(q[j])
      invariant colsStr == q[idx..i]
    {
      colsStr := colsStr + [q[i]];
      i := i + 1;
    }
    ColListEntries(colsStr);
    if colsStr != "*" {
      var parts := Split(colsStr, ',');
      cols := [];
      for k := 0 to |parts|
        invariant cols == NonEmptyStripped(parts[..k])
      {
        var p := Strip(parts[k]);
        if p != "" {
          cols := cols + [p];
        }
        assert parts[..k + 1][..k] == parts[..k];
      }
      assert parts[..|parts|] == parts;
    } else {
      cols := [colsStr];
    }
  }

  // ---------------------------------------------------------------------
  // Numbers

  /** The value of a string of decimal digits, as `int()` reads it. */
  function DigitsValue(s: string): nat
    requires forall j :: 0 <= j < |s| ==> IsDigit(s[j])
  {
    if s == [] then 0
    else
      var last := s[|s| - 1];
      assert IsDigit(last);
      DigitsValue(s[..|s| - 1]) * 10 + (last as int - '0' as int)
  }

  function Pow10(n: nat): (p: nat)
    ensures p >= 1
  {
    if n == 0 then 1 else 10 * Pow10(n - 1)
  }

  /** Number of `.` characters in `s`. */
  function Dots(s: string): nat {
    multiset(s)['.']
  }

  /** `float()` of digits with exactly one `.` and at least one digit:
      integer part plus fraction digits over the matching power of ten. */
  function DecimalValue(s: string): real
    requires forall j :: 0 <= j < |s| ==> IsDigit(s[j]) || s[j] == '.'
    requires Dots(s) == 1
  {
    var parts := Split(s, '.');
    var whole := parts[0];
    var frac := if |parts| > 1 then parts[1] else "";
    SplitDigits(s, '.');
    DigitsValue(whole) as real + DigitsValue(frac) as real / Pow10(|frac|) as real
  }

  lemma SplitDigits(s: string, sep: char)
    requires forall j :: 0 <= j < |s| ==> IsDigit(s[j]) || s[j] == sep
    ensures forall p :: p in Split(s, sep) ==> forall j :: 0 <= j < |p| ==> IsDigit(p[j])
  {
    if s != [] {
      SplitDigits(s[1..], sep);
    }
  }

  /** The token `extract_num` reads: the digits-and-dots run at `idx`. A second
      `.` raises; with no `.` the run is read by `int()`, which rejects the
      empty run; with one `.` it is read by `float()`, which rejects `.` alone. */
  function NumScan(q: string, idx: nat): (r: Result<(Value, nat)>)
    requires idx <= |q|
    ensures r.Ok? ==> idx < r.value.1 <= |q|
    ensures r.Ok? ==> IsNumeric(r.value.0) && NumOf(r.value.0) >= 0.0
  {
    var e := RunEnd(q, idx, NumChar);
    var run := q[idx..e];
    RunEndIsMaximalRun(q, idx, e, NumChar);
    if Dots(run) >= 2 then Err
    else
      match if Dots(run) == 0 then IntOf(run) else FloatOf(run)
      case Err => Err
      case Ok(v) => Ok((v, e))
  }

  /** `int()` of a run of digits: the empty run is rejected. */
  function IntOf(run: string): (r: Result<Value>)
    requires forall j :: 0 <= j < |run| ==> IsDigit(run[j])
    ensures r.Ok? <==> run != ""
  {
    if run == "" then Err else Ok(VInt(DigitsValue(run)))
  }

  /** `float()` of digits with one `.`: the `.` alone is rejected. */
  function FloatOf(run: string): (r: Result<Value>)
    requires forall j :: 0 <= j < |run| ==> IsDigit(run[j]) || run[j] == '.'
    requires Dots(run) == 1
    ensures r.Ok? <==> run != "."
  {
    if run == "." then Err else Ok(VFloat(DecimalValue(run)))
  }

  /** `extract_num`. */
  method ExtractNum(q: string, idx: nat) returns (r: Result<(Value, nat)>)
    requires idx <= |q|
    ensures r == NumScan(q, idx)
  {
    var token := "";
    var i := idx;
    var isFloat := false;
    while i < |q| && (IsDigit(q[i]) || q[i] == '.')
      invariant idx <= i <= |q|
      invariant forall j :: idx <= j < i ==> InClass(q[j], NumChar)
      invariant token == q[idx..i]
      invariant Dots(token) <= 1
      invariant isFloat <==> Dots(token) == 1
    {
      assert q[idx..i + 1] == token + [q[i]];
      DotsSnoc(token, q[i]);
      if IsDigit(q[i]) {
        token := token + [q[i]];
      } else if q[i] == '.' {
        if isFloat {
          SecondDotRejected(q, idx, i);
          return Err;
        }
        isFloat := true;
        token := token + [q[i]];
      }
      i := i + 1;
    }
    RunEndIsMaximalRun(q, idx, i, NumChar);
    assert forall j :: 0 <= j < |token| ==> token[j] == q[idx + j];
    var v := if isFloat then FloatOf(token) else IntOf(token);
    if v.Err? {
      return Err;
    }
    return Ok((v.value, i));
  }

  /** An accepted number is the whole digits-and-dots run at `idx`, with at
      most one `.`; without a `.` it is the integer those digits spell. */
  lemma NumScanReadsRun(q: string, idx: nat)
    requires idx <= |q| && NumScan(q, idx).Ok?
    ensures var (v, e) := NumScan(q, idx).value;
      MaximalRun(q, idx, e, NumChar) && Dots(q[idx..e]) <= 1 &&
      (v.VInt? <==> Dots(q[idx..e]) == 0) &&
      (v.VInt? ==> (forall j :: idx <= j < e ==> IsDigit(q[j])) && v.i == DigitsValue(q[idx..e]))
  {
    var e := RunEnd(q, idx, NumChar);
    RunEndIsMaximalRun(q, idx, e, NumChar);
    if Dots(q[idx..e]) == 0 {
      assert forall j :: idx <= j < e ==> q[j] == q[idx..e][j - idx];
      assert forall j :: idx <= j < e ==> q[j] != '.' by {
        forall j | idx <= j < e ensures q[j] != '.' {
          assert q[idx..e][j - idx] in multiset(q[idx..e]);
        }
      }
    }
  }

  /** `str(n)` for a natural number: its decimal digits, most significant first. */
  function DecimalText(n: nat): (s: string)
    ensures |s| >= 1 && forall j :: 0 <= j < |s| ==> IsDigit(s[j])
  {
    var d := ('0' as int + n % 10) as char;
    if n < 10 then [d] else DecimalText(n / 10) + [d]
  }

  /** `int(str(n)) == n`. */
  lemma {:induction false} DecimalTextRoundTrip(n: nat)
    ensures DigitsValue(DecimalText(n)) == n
  {
    if n >= 10 {
      DecimalTextRoundTrip(n / 10);
      var s := DecimalText(n);
      assert s[..|s| - 1] == DecimalText(n / 10);
    }
  }

  /** `extract_num` reads a written-out natural number back: followed by
      anything that is neither a digit nor `.`, the text `str(n)` scans to
      `n` and the cursor stops right after it. */
  lemma NumScanReadsDecimal(n: nat, rest: string)
    requires rest == [] || !InClass(rest[0], NumChar)
    ensures NumScan(DecimalText(n) + rest, 0) == Ok((VInt(n), |DecimalText(n)|))
  {
    var t := DecimalText(n);
    var q := t + rest;
    assert MaximalRun(q, 0, |t|, NumChar) by {
      assert forall j :: 0 <= j < |t| ==> q[j] == t[j];
    }
    RunEndIsMaximalRun(q, 0, |t|, NumChar);
    assert q[0..|t|] == t;
    assert '.' !in t by {
      forall j | 0 <= j < |t| ensures t[j] != '.' {
        assert IsDigit(t[j]);
      }
    }
    assert Dots(t) == 0;
    DecimalTextRoundTrip(n);
  }

  lemma DotsSnoc(s: string, c: char)
    ensures Dots(s + [c]) == Dots(s) + (if c == '.' then 1 else 0)
  {
    assert multiset(s + [c]) == multiset(s) + multiset{c};
  }

  /** A second `.` in the run makes `extract_num` raise. */
  lemma SecondDotRejected(q: string, idx: nat, i: nat)
    requires idx <= i < |q| && q[i] == '.'
    requires forall j :: idx <= j < i ==> InClass(q[j], NumChar)
    requires Dots(q[idx..i]) == 1
    ensures NumScan(q, idx) == Err
  {
    assert q[idx..i + 1] == q[idx..i] + ['.'];
    assert Dots(q[idx..i + 1]) == 2;
    NumRunPrefix(q, idx, i + 1);
  }

  /** A prefix of the number run has no more dots than the whole run. */
  lemma NumRunPrefix(q: string, idx: nat, m: nat)
    requires idx <= m <= |q|
    requires forall j :: idx <= j < m ==> InClass(q[j], NumChar)
    ensures m <= RunEnd(q, idx, NumChar)
    ensures Dots(q[idx..m]) <= Dots(q[idx..RunEnd(q, idx, NumChar)])
  {
    var e := RunEnd(q, idx, NumChar);
    RunEndIsMaximalRun(q, idx, e, NumChar);
    assert q[idx..e] == q[idx..m] + q[m..e];
  }

  // ---------------------------------------------------------------------
  // String literals

  /** `extract_string_literal`: the text after the opening quote at `idx` up to
      the next `'` or `"` (either one closes), and the index after that quote.
      Unterminated text reads to the end and the index is then `len + 1`. */
  method ExtractStringLiteral(q: string, idx: nat) returns (lit: string, next: nat)
    requires idx < |q|
    ensures next == idx + |lit| + 2
    ensures MaximalRun(q, idx + 1, next - 1, NonQuote)
    ensures lit == q[idx + 1..next - 1]
  {
    lit := "";
    var i := idx + 1;
    while i < |q| && !IsQuote(q[i])
      invariant idx + 1 <= i <= |q|
      invariant forall j :: idx + 1 <= j < i ==> !IsQuote(q[j])
      invariant lit == q[idx + 1..i]
    {
      lit := lit + [q[i]];
      i := i + 1;
    }
    next := i + 1;
  }
}
