/** `get_next_expr_token` of parser.py: the tokenizer of the WHERE clause, and
    the stream of tokens `extract_expr` pulls from it. */
module ExprTokens {
  import opened Wrappers
  import opened Chars
  import opened Values
  import opened Scanners

  /** A WHERE-clause token: text (operator, parenthesis, quoted literal or bare
      word) or a number. The tokenizer's `None` is `Option.None`. */
  datatype Token = TStr(s: string) | TNum(v: Value)

  const ReservedKeywords: seq<string> := ["SELECT", "FROM", "WHERE", "LIMIT"]

  /** `while curr_token:` goes on only for a truthy token: not `None`, not the
      empty string, not a numeric zero. */
  predicate IsTruthyToken(t: Option<Token>) {
    match t
    case None => false
    case Some(TStr(s)) => s != ""
    case Some(TNum(v)) => Truthy(v)
  }

  /** `w` is one of `words[k..]`, and no word listed before it occurs in `s`
      at position `i`. */
  ghost predicate ListedFirst(s: string, i: nat, words: seq<string>, k: nat, w: string) {
    exists j :: k <= j < |words| && words[j] == w &&
                forall j' :: k <= j' < j ==> !StartsAt(s, i, words[j'])
  }

  /** The first of `words[k..]` that occurs in `s` at position `i`. */
  function FirstMatch(s: string, i: nat, words: seq<string>, k: nat): (r: Option<string>)
    requires k <= |words|
    ensures r.Some? ==> r.value in words[k..] && StartsAt(s, i, r.value)
    ensures r.None? <==> forall j :: k <= j < |words| ==> !StartsAt(s, i, words[j])
    decreases |words| - k
  {
    if k == |words| then None
    else if StartsAt(s, i, words[k]) then Some(words[k])
    else FirstMatch(s, i, words, k + 1)
  }

  /** `FirstMatch` returns the FIRST listed word that occurs at `i`: no word
      listed before the one it returns occurs there. */
  lemma {:induction false} FirstMatchIsFirst(s: string, i: nat, words: seq<string>, k: nat)
    requires k <= |words| && FirstMatch(s, i, words, k).Some?
    ensures ListedFirst(s, i, words, k, FirstMatch(s, i, words, k).value)
    decreases |words| - k
  {
    if StartsAt(s, i, words[k]) {
      assert words[k] == FirstMatch(s, i, words, k).value;
    } else {
      FirstMatchIsFirst(s, i, words, k + 1);
      var j :| k + 1 <= j < |words| && words[j] == FirstMatch(s, i, words, k).value &&
               forall j' :: k + 1 <= j' < j ==> !StartsAt(s, i, words[j']);
      assert forall j' :: k <= j' < j ==> !StartsAt(s, i, words[j']);
    }
  }

  /** A reserved keyword starts at `p`, compared case-insensitively. */
  predicate KeywordAt(q: string, p: nat) {
    exists w :: w in ReservedKeywords && StartsAt(Upper(q), p, w)
  }

  /** The token at a position `p` that is not whitespace (or is the end). */
  function TokenAt(q: string, p: nat): (r: Result<(Option<Token>, nat)>)
    requires p <= |q|
    ensures r.Ok? ==> p <= r.value.1 <= |q| + 1
    ensures r.Ok? && IsTruthyToken(r.value.0) ==> p < |q| && p < r.value.1
  {
    if p == |q| then Ok((None, p))
    else
      var c := q[p];
      if IsDigit(c) then
        match NumScan(q, p)
        case Err => Err
        case Ok((v, j)) => Ok((Some(TNum(v)), j))
      else if c == '(' || c == ')' then Ok((Some(TStr([c])), p + 1))
      else if IsQuote(c) then
        var e := RunEnd(q, p + 1, NonQuote);
        Ok((Some(TStr(q[p + 1..e])), e + 1))
      else WordAt(q, p)
  }

  /** The last branches at `p`: a reserved keyword ends the clause without
      being consumed; anything else is an operator or a word. */
  function WordAt(q: string, p: nat): (r: Result<(Option<Token>, nat)>)
    requires p < |q|
    ensures r.Ok? && r.value.0.None? ==> r.value.1 == p
    ensures r.Ok? && IsTruthyToken(r.value.0) ==> p < r.value.1 <= |q|
  {
    if FirstMatch(Upper(q), p, ReservedKeywords, 0).Some? then Ok((None, p))
    else OperandAt(q, p)
  }

  /** The first operator of `OPS` that matches at `p`, else the run of
      letters, digits and `_` there (empty, hence falsy, when there is none). */
  function OperandAt(q: string, p: nat): (r: Result<(Option<Token>, nat)>)
    requires p < |q|
    ensures r.Ok? && IsTruthyToken(r.value.0) ==> p < r.value.1 <= |q|
  {
    match FirstMatch(Upper(q), p, OpNames, 0)
    case Some(op) => Ok((Some(TStr(op)), p + |op|))
    case None =>
      var e := RunEnd(q, p, WordChar);
      Ok((Some(TStr(q[p..e])), e))
  }

  /** The token after the whitespace at `i`, and the index after it. A truthy
      token always consumes input, ending at most one past the end. */
  function NextToken(q: string, i: nat): (r: Result<(Option<Token>, nat)>)
    ensures r.Ok? ==> i <= r.value.1
    ensures r.Ok? && IsTruthyToken(r.value.0) ==> i < |q| && i < r.value.1 <= |q| + 1
  {
    if i >= |q| then Ok((None, i)) else TokenAt(q, RunEnd(q, i, Space))
  }

  /** `get_next_expr_token`. */
  method GetNextExprToken(q: string, idx: nat) returns (r: Result<(Option<Token>, nat)>)
    ensures r == NextToken(q, idx)
  {
    var i := idx;
    while i < |q|
      invariant idx >= |q| ==> i == idx
      invariant idx < |q| ==> idx <= i <= |q| && RunEnd(q, i, Space) == RunEnd(q, idx, Space)
      decreases |q| - i
    {
      if IsSpace(q[i]) {
        i := i + 1;
      } else {
        r := ReadToken(q, i);
        return;
      }
    }
    return Ok((None, i));
  }

  /** The branches of the loop of `get_next_expr_token` at a character that
      is not a space. */
  method ReadToken(q: string, i: nat) returns (r: Result<(Option<Token>, nat)>)
    requires i < |q| && !IsSpace(q[i])
    ensures r == TokenAt(q, i)
  {
    var c := q[i];
    if IsDigit(c) {
      var n := ExtractNum(q, i);
      match n
      case Err => return Err;
      case Ok((v, j)) => return Ok((Some(TNum(v)), j));
    } else if c == '(' {
      return Ok((Some(TStr([c])), i + 1));
    } else if c == ')' {
      return Ok((Some(TStr([c])), i + 1));
    } else if IsQuote(c) {
      var lit, next := ExtractStringLiteral(q, i);
      RunEndIsMaximalRun(q, i + 1, next - 1, NonQuote);
      return Ok((Some(TStr(lit)), next));
    } else {
      r := ReadWord(q, i);
    }
  }

  /** The last branches: a reserved keyword ends the clause, then an
      operator, then a column name or bare word. */
  method ReadWord(q: string, i: nat) returns (r: Result<(Option<Token>, nat)>)
    requires i < |q|
    ensures r == WordAt(q, i)
  {
    var upper := Upper(q);
    var keyword := FindWord(upper, i, ReservedKeywords);
    if keyword.Some? {
      return Ok((None, i));
    }
    r := ReadOperand(q, upper, i);
  }

  /** After the keyword check: an operator of `OPS`, else a column name or
      bare word. */
  method ReadOperand(q: string, upper: string, i: nat) returns (r: Result<(Option<Token>, nat)>)
    requires i < |q| && upper == Upper(q)
    ensures r == OperandAt(q, i)
  {
    var op := FindWord(upper, i, OpNames);
    if op.Some? {
      return Ok((Some(TStr(op.value)), i + |op.value|));
    }
    var word, e := ExtractColFromExpr(q, i);
    RunEndIsMaximalRun(q, i, e, WordChar);
    return Ok((Some(TStr(word)), e));
  }

  /** The loops over the reserved keywords and over `OPS`: the first word
      of the list that occurs at `i`. */
  method FindWord(upper: string, i: nat, words: seq<string>) returns (m: Option<string>)
    ensures m == FirstMatch(upper, i, words, 0)
  {
    for k := 0 to |words|
      invariant FirstMatch(upper, i, words, k) == FirstMatch(upper, i, words, 0)
    {
      if StartsAt(upper, i, words[k]) {
        return Some(words[k]);
      }
    }
    return None;
  }

  /** The tokenizer returns `None` exactly when the input after the whitespace
      is exhausted or a reserved keyword starts there (in any letter case); it
      then stops at that position without consuming the keyword. */
  lemma NoneMeansClauseEnd(q: string, i: nat)
    requires i <= |q|
    requires NextToken(q, i).Ok?
    ensures var p := RunEnd(q, i, Space);
      NextToken(q, i).value.0.None? <==> (p == |q| || KeywordAt(q, p))
    ensures var p := RunEnd(q, i, Space);
      NextToken(q, i).value.0.None? ==> NextToken(q, i).value.1 == p
  {
    var p := RunEnd(q, i, Space);
    if i < |q| && p < |q| && KeywordAt(q, p) {
      var w :| w in ReservedKeywords && StartsAt(Upper(q), p, w);
      assert Upper(q)[p] == w[0];
      assert IsAlpha(q[p]);
      assert FirstMatch(Upper(q), p, ReservedKeywords, 0).Some?;
    }
  }

  /** Outside quoted literals, a token whose upper-case form names an operator
      is returned in the canonical spelling of `OPS`, and the cursor moves past
      exactly that many characters: a bare word is never an operator in disguise. */
  lemma OperatorsAreCanonical(q: string, i: nat)
    requires i < |q|
    requires NextToken(q, i).Ok?
    requires NextToken(q, i).value.0.Some? && NextToken(q, i).value.0.value.TStr?
    requires Upper(NextToken(q, i).value.0.value.s) in OpNames
    requires !IsQuote(q[RunEnd(q, i, Space)])
    ensures var t := NextToken(q, i).value.0.value.s;
      t in OpNames && NextToken(q, i).value.1 == RunEnd(q, i, Space) + |t|
  {
    var p := RunEnd(q, i, Space);
    assert NextToken(q, i) == TokenAt(q, p);
    UpperSliceStarts(q, p, RunEnd(q, p, WordChar));
    assert Upper("(") == "(" && Upper(")") == ")";
  }

  /** The upper-cased text of `q[p..e]` occurs at `p` in the upper-cased query. */
  lemma UpperSliceStarts(q: string, p: nat, e: nat)
    requires p <= e <= |q|
    ensures StartsAt(Upper(q), p, Upper(q[p..e]))
  {
    assert Upper(q)[p..e] == Upper(q[p..e]);
  }

  function Measure(q: string, i: nat): nat {
    if i <= |q| then |q| + 1 - i else 0
  }

  /** The tokens `extract_expr` consumes from `i`: every truthy token up to the
      first falsy one, and the index after that falsy token. */
  function LexFrom(q: string, i: nat): (r: Result<(seq<Token>, nat)>)
    ensures r.Ok? ==> i <= r.value.1
    decreases Measure(q, i), 1
  {
    match NextToken(q, i)
    case Err => Err
    case Ok((t, j)) => Resume(q, t, j)
  }

  /** The stream that follows once token `t`, ending at `j`, has been read. */
  function Resume(q: string, t: Option<Token>, j: nat): (r: Result<(seq<Token>, nat)>)
    ensures r.Ok? ==> j <= r.value.1
    decreases if IsTruthyToken(t) then Measure(q, j) + 1 else 0, 0
  {
    if !IsTruthyToken(t) then Ok(([], j))
    else
      match LexFrom(q, j)
      case Err => Err
      case Ok((rest, k)) => Ok(([t.value] + rest, k))
  }

  /** Every token of the stream is truthy: the loop stops at the first falsy one. */
  lemma {:induction false} LexTokensTruthy(q: string, i: nat)
    requires LexFrom(q, i).Ok?
    ensures forall t :: t in LexFrom(q, i).value.0 ==> IsTruthyToken(Some(t))
    decreases Measure(q, i)
  {
    var (t, j) := NextToken(q, i).value;
    if IsTruthyToken(t) {
      LexTokensTruthy(q, j);
    }
  }
}
