/** `parse` of parser.py: the statement state machine. It starts in state
    `START`, reads a keyword into the state, runs that keyword's clause
    scanner, returns to `NEXT_OP`, and stops after the LIMIT value. */
module Statement {
  import opened Wrappers
  import opened Chars
  import opened Values
  import opened ExprTree
  import opened ExprTokens
  import opened Scanners
  import opened ExprCompiler

  /** `ParsedOperation`. A missing column list, table name or filter is
      `None`; a `None` limit stands for `float('inf')`. */
  datatype ParsedOperation = ParsedOperation(
    opType: string,
    cols: Option<seq<string>>,
    tableName: Option<string>,
    limit: Option<real>,
    expr: Option<Node>)

  /** The local variables of `parse` between two iterations of its loop. */
  datatype Parser = Parser(
    state: string,
    idx: nat,
    opType: Option<string>,
    cols: Option<seq<string>>,
    table: Option<string>,
    limit: Option<real>,
    expr: Option<Node>)

  const Start := Parser("START", 0, None, None, None, None, None)

  function Remaining(q: string, idx: nat): nat {
    if idx < |q| then |q| - idx else 0
  }

  /** The WHERE clause may leave the cursor where it was, so the state that
      follows it must rank lower. */
  function Rank(state: string): nat {
    if state == "WHERE" then 1 else 0
  }

  /** One iteration of the loop of `parse` at a character that does not
      end it: the next variables, or the error the iteration raises. Every
      iteration moves forward in the text, or leaves state `WHERE` without
      moving. */
  function Advance(q: string, p: Parser): (r: Result<Parser>)
    requires p.idx < |q| && !(p.state == "END" && !IsSpace(q[p.idx]))
    ensures r.Ok? ==> Remaining(q, r.value.idx) < Remaining(q, p.idx) ||
                      (r.value.idx == p.idx && Rank(r.value.state) < Rank(p.state))
  {
    var c := q[p.idx];
    if IsSpace(c) then Ok(p.(idx := p.idx + 1))
    else if p.state == "START" || p.state == "NEXT_OP" then
      if IsAlpha(c) then
        var e := RunEnd(q, p.idx, Letter);
        var token := Upper(q[p.idx..e]);
        Ok(p.(state := token, idx := e,
              opType := if p.state == "START" then Some(token) else p.opType))
      else Err
    else if p.state == "SELECT" then
      if IsAlnum(c) || c == '*' then
        var e := RunEnd(q, p.idx, NonSpace);
        Ok(p.(state := "NEXT_OP", idx := e, cols := Some(ColList(q[p.idx..e]))))
      else Err
    else if p.state == "FROM" then
      // the debug message joins the column list, which raises on `None`
      if IsAlnum(c) && p.cols.Some? then
        var e := RunEnd(q, p.idx, NonSpace);
        Ok(p.(state := "NEXT_OP", idx := e, table := Some(q[p.idx..e])))
      else Err
    else if p.state == "WHERE" then
      match ExprSpec(q, p.idx)
      case Err => Err
      case Ok((root, j)) => Ok(p.(state := "NEXT_OP", idx := j, expr := root))
    else if p.state == "LIMIT" then
      match NumScan(q, p.idx)
      case Err => Err
      case Ok((v, j)) => Ok(p.(state := "END", idx := j, limit := Some(NumOf(v))))
    else Err
  }

  /** The loop of `parse` from the variables `p` to the end of the text or
      the `break` in state `END`. */
  function ParseFrom(q: string, p: Parser): (r: Result<Parser>)
    ensures r.Ok? ==> p.idx <= r.value.idx
    ensures r.Ok? ==> r.value.idx >= |q| || (r.value.state == "END" && !IsSpace(q[r.value.idx]))
    decreases Remaining(q, p.idx), Rank(p.state)
  {
    if p.idx >= |q| || (p.state == "END" && !IsSpace(q[p.idx])) then Ok(p)
    else
      match Advance(q, p)
      case Err => Err
      case Ok(p') => ParseFrom(q, p')
  }

  /** What `parse(q)` returns: only a statement whose operation is `SELECT`
      is accepted. */
  function ParseSpec(q: string): Result<ParsedOperation> {
    match ParseFrom(q, Start)
    case Err => Err
    case Ok(p) =>
      if p.opType == Some("SELECT") then Ok(ParsedOperation("SELECT", p.cols, p.table, p.limit, p.expr))
      else Err
  }

  /** `parse`. */
  method Parse(q: string) returns (r: Result<ParsedOperation>)
    ensures r == ParseSpec(q)
  {
    var tableName: Option<string> := None;
    var cols: Option<seq<string>> := None;
    var opType: Option<string> := None;
    var expr: Option<Node> := None;
    var limit: Option<real> := None;
    var state := "START";
    var idx: nat := 0;
    while idx < |q|
      invariant ParseFrom(q, Start) == ParseFrom(q, Parser(state, idx, opType, cols, tableName, limit, expr))
      decreases Remaining(q, idx), Rank(state)
    {
      var c := q[idx];
      if IsSpace(c) {
        idx := idx + 1;
      } else if state == "START" || state == "NEXT_OP" {
        if IsAlpha(c) {
          var token, i := ExtractOp(q, idx);
          RunEndIsMaximalRun(q, idx, i, Letter);
          if state == "START" {
            opType := Some(token);
          }
          state := token;
          idx := i;
        } else {
          return Err;
        }
      } else if state == "SELECT" {
        if IsAlnum(c) || c == '*' {
          var cs, i := ExtractCols(q, idx);
          RunEndIsMaximalRun(q, idx, i, NonSpace);
          cols := Some(cs);
          idx := i;
          state := "NEXT_OP";
        } else {
          return Err;
        }
      } else if state == "FROM" {
        if IsAlnum(c) {
          var name, i := ExtractTableName(q, idx);
          RunEndIsMaximalRun(q, idx, i, NonSpace);
          if cols.None? {
            return Err;
          }
          tableName := Some(name);
          idx := i;
          state := "NEXT_OP";
        } else {
          return Err;
        }
      } else if state == "WHERE" {
        var res := ExtractExpr(q, idx);
        if res.Err? {
          return Err;
        }
        expr := res.value.0;
        idx := res.value.1;
        state := "NEXT_OP";
      } else if state == "LIMIT" {
        var res := ExtractNum(q, idx);
        if res.Err? {
          return Err;
        }
        limit := Some(NumOf(res.value.0));
        idx := res.value.1;
        state := "END";
      } else if state == "END" {
        break;
      } else {
        return Err;
      }
    }
    if opType == Some("SELECT") {
      r := Ok(ParsedOperation("SELECT", cols, tableName, limit, expr));
    } else {
      r := Err;
    }
  }

  // ---------------------------------------------------------------------
  // What an accepted statement looks like

  /** A table name: a non-empty run of non-space characters starting with a
      letter or digit. */
  ghost predicate TableName(t: string) {
    t != [] && IsAlnum(t[0]) && forall j :: 0 <= j < |t| ==> !IsSpace(t[j])
  }

  /** What the clause scanners can have stored so far. */
  ghost predicate WellFormed(p: Parser) {
    (p.cols.Some? ==> p.cols.value == ["*"] || forall c :: c in p.cols.value ==> ColEntry(c)) &&
    (p.table.Some? ==> p.cols.Some? && TableName(p.table.value)) &&
    (p.limit.Some? ==> p.limit.value >= 0.0) &&
    (p.expr.Some? ==> Shaped(p.expr.value))
  }

  /** A WHERE clause yields a tree built by the stacks. */
  lemma ExprSpecShaped(q: string, i: nat)
    requires ExprSpec(q, i).Ok? && ExprSpec(q, i).value.0.Some?
    ensures Shaped(ExprSpec(q, i).value.0.value)
  {
    var toks := LexFrom(q, i).value.0;
    CompileShaped(toks);
  }

  /** Every iteration of the loop keeps the stored clauses well formed. */
  lemma AdvanceWellFormed(q: string, p: Parser)
    requires p.idx < |q| && !(p.state == "END" && !IsSpace(q[p.idx]))
    requires WellFormed(p) && Advance(q, p).Ok?
    ensures WellFormed(Advance(q, p).value)
  {
    var c := q[p.idx];
    if IsSpace(c) {
    } else if p.state == "SELECT" {
      var e := RunEnd(q, p.idx, NonSpace);
      RunEndIsMaximalRun(q, p.idx, e, NonSpace);
      ColListEntries(q[p.idx..e]);
    } else if p.state == "FROM" {
      var e := RunEnd(q, p.idx, NonSpace);
      RunEndIsMaximalRun(q, p.idx, e, NonSpace);
    } else if p.state == "WHERE" {
      var (root, j) := ExprSpec(q, p.idx).value;
      if root.Some? {
        ExprSpecShaped(q, p.idx);
      }
    }
  }

  /** ... and so does the whole loop. */
  lemma {:induction false} ParseFromWellFormed(q: string, p: Parser)
    requires WellFormed(p) && ParseFrom(q, p).Ok?
    ensures WellFormed(ParseFrom(q, p).value)
    decreases Remaining(q, p.idx), Rank(p.state)
  {
    if p.idx < |q| && !(p.state == "END" && !IsSpace(q[p.idx])) {
      AdvanceWellFormed(q, p);
      ParseFromWellFormed(q, Advance(q, p).value);
    }
  }

  /** An accepted statement is a SELECT; its column list is `["*"]` or
      non-empty, comma-free, space-free names; a table name only comes after
      a column list; the limit is not negative; and the filter is a tree the
      stacks build. */
  lemma ParsedShape(q: string)
    requires ParseSpec(q).Ok?
    ensures var op := ParseSpec(q).value;
      op.opType == "SELECT" &&
      (op.cols.Some? ==> op.cols.value == ["*"] || forall c :: c in op.cols.value ==> ColEntry(c)) &&
      (op.tableName.Some? ==> op.cols.Some? && TableName(op.tableName.value)) &&
      (op.limit.Some? ==> op.limit.value >= 0.0) &&
      (op.expr.Some? ==> Shaped(op.expr.value))
  {
    ParseFromWellFormed(q, Start);
  }

  // ---------------------------------------------------------------------
  // Which statements are rejected

  /** One space skipped. */
  lemma SpaceStep(q: string, p: Parser)
    requires p.idx < |q| && IsSpace(q[p.idx])
    ensures ParseFrom(q, p) == ParseFrom(q, p.(idx := p.idx + 1))
  {
  }

  /** Spaces are skipped whatever the state. */
  lemma {:induction false} SkipSpaces(q: string, p: Parser, k: nat)
    requires p.idx <= k <= |q|
    requires forall j :: p.idx <= j < k ==> IsSpace(q[j])
    ensures ParseFrom(q, p) == ParseFrom(q, p.(idx := k))
    decreases k - p.idx
  {
    if p.idx < k {
      SpaceStep(q, p);
      SkipSpaces(q, p.(idx := p.idx + 1), k);
    }
  }

  /** A blank statement has no operation and is rejected. */
  lemma BlankRejected(q: string)
    requires forall j :: 0 <= j < |q| ==> IsSpace(q[j])
    ensures ParseSpec(q) == Err
  {
    SkipSpaces(q, Start, |q|);
  }

  /** Where a keyword is expected (state `START` or `NEXT_OP`), a non-space
      character that is not a letter raises. */
  lemma NonLetterKeywordRejected(q: string, p: Parser, k: nat)
    requires p.state == "START" || p.state == "NEXT_OP"
    requires p.idx <= k < |q| && forall j :: p.idx <= j < k ==> IsSpace(q[j])
    requires !IsSpace(q[k]) && !IsAlpha(q[k])
    ensures ParseFrom(q, p) == Err
  {
    SkipSpaces(q, p, k);
  }

  /** A statement whose first non-space character is not a letter is
      rejected. */
  lemma LeadingNonLetterRejected(q: string, k: nat)
    requires k < |q| && !IsSpace(q[k]) && !IsAlpha(q[k])
    requires forall j :: 0 <= j < k ==> IsSpace(q[j])
    ensures ParseSpec(q) == Err
  {
    NonLetterKeywordRejected(q, Start, k);
  }

  /** A keyword that names no state is accepted as a state, and the machine
      only fails when it reads the next non-space character in that state;
      at the end of the text it stops without error. */
  lemma UnknownKeywordState(q: string, p: Parser, k: nat)
    requires p.state != "START" && p.state != "NEXT_OP" && p.state != "SELECT" && p.state != "FROM"
    requires p.state != "WHERE" && p.state != "LIMIT" && p.state != "END"
    requires p.idx <= k <= |q| && forall j :: p.idx <= j < k ==> IsSpace(q[j])
    requires k == |q| || !IsSpace(q[k])
    ensures ParseFrom(q, p) == if k == |q| then Ok(p.(idx := k)) else Err
  {
    SkipSpaces(q, p, k);
  }

  /** `START` does not occur in the text, in any letter case. */
  ghost predicate NoStart(q: string) {
    forall k :: !StartsAt(Upper(q), k, "START")
  }

  /** Outside state `START` an iteration never rewrites the operation type,
      and never enters `START` when no `START` keyword is in the text. */
  lemma AdvanceKeepsOpType(q: string, p: Parser)
    requires p.idx < |q| && !(p.state == "END" && !IsSpace(q[p.idx]))
    requires NoStart(q) && p.state != "START" && Advance(q, p).Ok?
    ensures Advance(q, p).value.opType == p.opType && Advance(q, p).value.state != "START"
  {
    if !IsSpace(q[p.idx]) && p.state == "NEXT_OP" {
      var e := RunEnd(q, p.idx, Letter);
      UpperSliceStarts(q, p.idx, e);
      assert Upper(q[p.idx..e]) != "START";
    }
  }

  /** Outside state `START` the operation type is never rewritten, as long as
      no `START` keyword can put the machine back into that state. */
  lemma {:induction false} OpTypeKept(q: string, p: Parser)
    requires NoStart(q) && p.state != "START" && ParseFrom(q, p).Ok?
    ensures ParseFrom(q, p).value.opType == p.opType
    decreases Remaining(q, p.idx), Rank(p.state)
  {
    if p.idx < |q| && !(p.state == "END" && !IsSpace(q[p.idx])) {
      AdvanceKeepsOpType(q, p);
      OpTypeKept(q, Advance(q, p).value);
    }
  }

  /** `LIMIT` does not occur in the text, in any letter case. */
  ghost predicate NoLimitKeyword(q: string) {
    forall k :: !StartsAt(Upper(q), k, "LIMIT")
  }

  /** Outside state `LIMIT` an iteration never sets the limit, and never
      enters `LIMIT` when no `LIMIT` keyword is in the text. */
  lemma AdvanceKeepsLimit(q: string, p: Parser)
    requires p.idx < |q| && !(p.state == "END" && !IsSpace(q[p.idx]))
    requires NoLimitKeyword(q) && p.state != "LIMIT" && Advance(q, p).Ok?
    ensures Advance(q, p).value.limit == p.limit && Advance(q, p).value.state != "LIMIT"
  {
    if !IsSpace(q[p.idx]) && (p.state == "START" || p.state == "NEXT_OP") {
      var e := RunEnd(q, p.idx, Letter);
      UpperSliceStarts(q, p.idx, e);
      assert Upper(q[p.idx..e]) != "LIMIT";
    }
  }

  /** Outside state `LIMIT`, with no `LIMIT` keyword in the text, the loop
      never sets the limit. */
  lemma {:induction false} LimitKept(q: string, p: Parser)
    requires NoLimitKeyword(q) && p.state != "LIMIT" && ParseFrom(q, p).Ok?
    ensures ParseFrom(q, p).value.limit == p.limit
    decreases Remaining(q, p.idx), Rank(p.state)
  {
    if p.idx < |q| && !(p.state == "END" && !IsSpace(q[p.idx])) {
      AdvanceKeepsLimit(q, p);
      LimitKept(q, Advance(q, p).value);
    }
  }

  /** Without a `LIMIT` keyword the limit stays `float('inf')`. */
  lemma NoLimitUnbounded(q: string)
    requires NoLimitKeyword(q)
    ensures ParseSpec(q).Ok? ==> ParseSpec(q).value.limit.None?
  {
    if ParseFrom(q, Start).Ok? {
      LimitKept(q, Start);
    }
  }

  /** `FROM` does not occur in the text, in any letter case. */
  ghost predicate NoFromKeyword(q: string) {
    forall k :: !StartsAt(Upper(q), k, "FROM")
  }

  /** Outside state `FROM` an iteration never sets the table name, and never
      enters `FROM` when no `FROM` keyword is in the text. */
  lemma AdvanceKeepsTable(q: string, p: Parser)
    requires p.idx < |q| && !(p.state == "END" && !IsSpace(q[p.idx]))
    requires NoFromKeyword(q) && p.state != "FROM" && Advance(q, p).Ok?
    ensures Advance(q, p).value.table == p.table && Advance(q, p).value.state != "FROM"
  {
    if !IsSpace(q[p.idx]) && (p.state == "START" || p.state == "NEXT_OP") {
      var e := RunEnd(q, p.idx, Letter);
      UpperSliceStarts(q, p.idx, e);
      assert Upper(q[p.idx..e]) != "FROM";
    }
  }

  /** Outside state `FROM`, with no `FROM` keyword in the text, the loop
      never sets the table name. */
  lemma {:induction false} TableKept(q: string, p: Parser)
    requires NoFromKeyword(q) && p.state != "FROM" && ParseFrom(q, p).Ok?
    ensures ParseFrom(q, p).value.table == p.table
    decreases Remaining(q, p.idx), Rank(p.state)
  {
    if p.idx < |q| && !(p.state == "END" && !IsSpace(q[p.idx])) {
      AdvanceKeepsTable(q, p);
      TableKept(q, Advance(q, p).value);
    }
  }

  /** A missing FROM clause is not rejected: an accepted statement without a
      `FROM` keyword has no table name. */
  lemma NoFromNoTable(q: string)
    requires NoFromKeyword(q)
    ensures ParseSpec(q).Ok? ==> ParseSpec(q).value.tableName.None?
  {
    if ParseFrom(q, Start).Ok? {
      TableKept(q, Start);
    }
  }

  /** The first word decides the operation: when it is not `SELECT` (and no
      `START` keyword re-enters the first state) the statement is rejected. */
  lemma FirstWordDecides(q: string, k: nat)
    requires NoStart(q)
    requires k < |q| && IsAlpha(q[k])
    requires forall j :: 0 <= j < k ==> IsSpace(q[j])
    requires Upper(q[k..RunEnd(q, k, Letter)]) != "SELECT"
    ensures ParseSpec(q) == Err
  {
    SkipSpaces(q, Start, k);
    var e := RunEnd(q, k, Letter);
    var token := Upper(q[k..e]);
    RunEndIsMaximalRun(q, k, e, Letter);
    UpperSliceStarts(q, k, e);
    assert token != "START";
    var p := Parser(token, e, Some(token), None, None, None, None);
    KeywordStep(q, Start.(idx := k), e, token);
    assert ParseFrom(q, Start) == ParseFrom(q, p);
    if ParseFrom(q, p).Ok? {
      OpTypeKept(q, p);
      assert ParseFrom(q, p).value.opType != Some("SELECT");
    }
  }

  // ---------------------------------------------------------------------
  // Examples

  /** One keyword read in state `START` or `NEXT_OP`. */
  lemma KeywordStep(q: string, p: Parser, e: nat, word: string)
    requires p.state == "START" || p.state == "NEXT_OP"
    requires p.idx < e && MaximalRun(q, p.idx, e, Letter) && Upper(q[p.idx..e]) == word
    ensures ParseFrom(q, p) ==
      ParseFrom(q, p.(state := word, idx := e, opType := if p.state == "START" then Some(word) else p.opType))
  {
    RunEndIsMaximalRun(q, p.idx, e, Letter);
  }

  /** One column list or table name read in state `SELECT` or `FROM`. */
  lemma ClauseStep(q: string, p: Parser, e: nat)
    requires p.state == "SELECT" || (p.state == "FROM" && p.cols.Some?)
    requires p.idx < e && MaximalRun(q, p.idx, e, NonSpace)
    requires IsAlnum(q[p.idx]) || (p.state == "SELECT" && q[p.idx] == '*')
    ensures ParseFrom(q, p) ==
      if p.state == "SELECT" then ParseFrom(q, p.(state := "NEXT_OP", idx := e, cols := Some(ColList(q[p.idx..e]))))
      else ParseFrom(q, p.(state := "NEXT_OP", idx := e, table := Some(q[p.idx..e])))
  {
    RunEndIsMaximalRun(q, p.idx, e, NonSpace);
  }

  /** A falsy first token ends the WHERE clause with no tree. */
  lemma FalsyTokenEndsFilter(q: string, i: nat, t: Option<Token>, j: nat)
    requires NextToken(q, i) == Ok((t, j)) && !IsTruthyToken(t)
    ensures ExprSpec(q, i) == Ok((None, j))
  {
    assert LexFrom(q, i) == Ok(([], j));
  }

  /** A space, then a keyword. */
  lemma SpacedKeyword(q: string, p: Parser, e: nat, word: string)
    requires p.state == "START" || p.state == "NEXT_OP"
    requires p.idx < |q| && IsSpace(q[p.idx])
    requires p.idx + 1 < e && MaximalRun(q, p.idx + 1, e, Letter) && Upper(q[p.idx + 1..e]) == word
    ensures ParseFrom(q, p) ==
      ParseFrom(q, p.(state := word, idx := e, opType := if p.state == "START" then Some(word) else p.opType))
  {
    SpaceStep(q, p);
    KeywordStep(q, p.(idx := p.idx + 1), e, word);
  }

  /** A space, then a column list or table name. */
  lemma SpacedClause(q: string, p: Parser, e: nat)
    requires p.state == "SELECT" || (p.state == "FROM" && p.cols.Some?)
    requires p.idx < |q| && IsSpace(q[p.idx])
    requires p.idx + 1 < e && MaximalRun(q, p.idx + 1, e, NonSpace)
    requires IsAlnum(q[p.idx + 1]) || (p.state == "SELECT" && q[p.idx + 1] == '*')
    ensures ParseFrom(q, p) ==
      if p.state == "SELECT" then ParseFrom(q, p.(state := "NEXT_OP", idx := e, cols := Some(ColList(q[p.idx + 1..e]))))
      else ParseFrom(q, p.(state := "NEXT_OP", idx := e, table := Some(q[p.idx + 1..e])))
  {
    SpaceStep(q, p);
    ClauseStep(q, p.(idx := p.idx + 1), e);
  }

  /** A space, then a WHERE clause. */
  lemma SpacedWhere(q: string, p: Parser, root: Option<Node>, j: nat)
    requires p.state == "WHERE" && p.idx + 1 < |q| && IsSpace(q[p.idx]) && !IsSpace(q[p.idx + 1])
    requires ExprSpec(q, p.idx + 1) == Ok((root, j))
    ensures ParseFrom(q, p) == ParseFrom(q, p.(state := "NEXT_OP", idx := j, expr := root))
  {
    SpaceStep(q, p);
    WhereStep(q, p.(idx := p.idx + 1), root, j);
  }

  /** The four transitions of `SELECT * FROM t`, one lemma each so that each
      proof sees only its own part of the text. */
  lemma SelectStarFromKeyword(q: string)
    requires q == "SELECT * FROM t"
    ensures ParseFrom(q, Start) == ParseFrom(q, Parser("SELECT", 6, Some("SELECT"), None, None, None, None))
  {
    assert q[0..6] == "SELECT" && q[6] == ' ';
    KeywordStep(q, Start, 6, "SELECT");
  }

  lemma SelectStarFromColumns(q: string)
    requires q == "SELECT * FROM t"
    ensures ParseFrom(q, Parser("SELECT", 6, Some("SELECT"), None, None, None, None)) ==
            ParseFrom(q, Parser("NEXT_OP", 8, Some("SELECT"), Some(["*"]), None, None, None))
  {
    var p := Parser("SELECT", 6, Some("SELECT"), None, None, None, None);
    assert q[6] == ' ' && q[7] == '*' && q[8] == ' ';
    assert q[7..8] == "*" && ColList("*") == ["*"];
    SpacedClause(q, p, 8);
  }

  lemma SelectStarFromFrom(q: string)
    requires q == "SELECT * FROM t"
    ensures ParseFrom(q, Parser("NEXT_OP", 8, Some("SELECT"), Some(["*"]), None, None, None)) ==
            ParseFrom(q, Parser("FROM", 13, Some("SELECT"), Some(["*"]), None, None, None))
  {
    var p := Parser("NEXT_OP", 8, Some("SELECT"), Some(["*"]), None, None, None);
    assert q[8] == ' ' && q[13] == ' ';
    assert q[9..13] == "FROM";
    SpacedKeyword(q, p, 13, "FROM");
  }

  lemma SelectStarFromTable(q: string)
    requires q == "SELECT * FROM t"
    ensures ParseFrom(q, Parser("FROM", 13, Some("SELECT"), Some(["*"]), None, None, None)) ==
            Ok(Parser("NEXT_OP", 15, Some("SELECT"), Some(["*"]), Some("t"), None, None))
  {
    var p := Parser("FROM", 13, Some("SELECT"), Some(["*"]), None, None, None);
    assert q[13] == ' ' && q[14] == 't' && |q| == 15;
    assert q[14..15] == "t";
    SpacedClause(q, p, 15);
  }

  /** One WHERE clause compiled in state `WHERE`. */
  lemma WhereStep(q: string, p: Parser, root: Option<Node>, j: nat)
    requires p.state == "WHERE" && p.idx < |q| && !IsSpace(q[p.idx])
    requires ExprSpec(q, p.idx) == Ok((root, j))
    ensures ParseFrom(q, p) == ParseFrom(q, p.(state := "NEXT_OP", idx := j, expr := root))
  {
  }

  /** A plain projection: no filter, and the limit stays unbounded. */
  lemma SelectStarFrom(q: string)
    requires q == "SELECT * FROM t"
    ensures ParseSpec(q) == Ok(ParsedOperation("SELECT", Some(["*"]), Some("t"), None, None))
  {
    SelectStarFromKeyword(q);
    SelectStarFromColumns(q);
    SelectStarFromFrom(q);
    SelectStarFromTable(q);
  }

  /** The two transitions of `SELECT a`. */
  lemma SelectWithoutFromKeyword(q: string)
    requires q == "SELECT a"
    ensures ParseFrom(q, Start) == ParseFrom(q, Parser("SELECT", 6, Some("SELECT"), None, None, None, None))
  {
    assert q[0..6] == "SELECT" && q[6] == ' ';
    KeywordStep(q, Start, 6, "SELECT");
  }

  lemma SingleColumn()
    ensures ColList("a") == ["a"]
  {
    var a := "a";
    assert a[1..] == [] && Split(a[1..], ',') == [""];
    assert a[0] == 'a' && a[0] != ',';
    assert [a[0]] + "" == a && [""][0] == "" && [""][1..] == [];
    assert Split(a, ',') == [a];
    StripNoSpace(a);
    assert NonEmptyStripped([a]) == NonEmptyStripped([]) + [a];
  }

  lemma SelectWithoutFromColumns(q: string)
    requires q == "SELECT a"
    ensures ParseFrom(q, Parser("SELECT", 6, Some("SELECT"), None, None, None, None)) ==
            Ok(Parser("NEXT_OP", 8, Some("SELECT"), Some(["a"]), None, None, None))
  {
    var p := Parser("SELECT", 6, Some("SELECT"), None, None, None, None);
    assert q[6] == ' ' && q[7] == 'a' && |q| == 8;
    assert q[7..8] == "a";
    SingleColumn();
    SpacedClause(q, p, 8);
  }

  /** A statement without FROM is accepted, with no table name. */
  lemma SelectWithoutFrom(q: string)
    requires q == "SELECT a"
    ensures ParseSpec(q) == Ok(ParsedOperation("SELECT", Some(["a"]), None, None, None))
  {
    SelectWithoutFromKeyword(q);
    SelectWithoutFromColumns(q);
  }

  /** The five transitions of `WHERE 0 START SELECT *`. */
  lemma ZeroFilterKeyword(q: string)
    requires q == "WHERE 0 START SELECT *"
    ensures ParseFrom(q, Start) == ParseFrom(q, Parser("WHERE", 5, Some("WHERE"), None, None, None, None))
  {
    assert q[0..5] == "WHERE" && q[5] == ' ';
    KeywordStep(q, Start, 5, "WHERE");
  }

  lemma ZeroFilterNumber(q: string)
    requires q == "WHERE 0 START SELECT *"
    ensures NumScan(q, 6) == Ok((VInt(0), 7))
  {
    assert MaximalRun(q, 6, 7, NumChar);
    RunEndIsMaximalRun(q, 6, 7, NumChar);
    assert q[6..7] == "0" && DigitsValue("0") == 0;
  }

  /** The filter stops at once on the falsy number `0`. */
  lemma ZeroFilterToken(q: string)
    requires q == "WHERE 0 START SELECT *"
    ensures NextToken(q, 6) == Ok((Some(TNum(VInt(0))), 7))
  {
    assert q[6] == '0' && IsDigit(q[6]);
    ZeroFilterNumber(q);
    RunEndIsMaximalRun(q, 6, 6, Space);
  }

  lemma ZeroFilterTree(q: string)
    requires q == "WHERE 0 START SELECT *"
    ensures ExprSpec(q, 6) == Ok((None, 7))
  {
    ZeroFilterToken(q);
    FalsyTokenEndsFilter(q, 6, Some(TNum(VInt(0))), 7);
  }

  lemma ZeroFilterExpr(q: string)
    requires q == "WHERE 0 START SELECT *"
    ensures ParseFrom(q, Parser("WHERE", 5, Some("WHERE"), None, None, None, None)) ==
            ParseFrom(q, Parser("NEXT_OP", 7, Some("WHERE"), None, None, None, None))
  {
    var p := Parser("WHERE", 5, Some("WHERE"), None, None, None, None);
    assert q[5] == ' ';
    assert q[6] == '0';
    ZeroFilterTree(q);
    SpacedWhere(q, p, None, 7);
  }

  /** `START` in state `NEXT_OP` puts the machine back into its first state. */
  lemma ZeroFilterStart(q: string)
    requires q == "WHERE 0 START SELECT *"
    ensures ParseFrom(q, Parser("NEXT_OP", 7, Some("WHERE"), None, None, None, None)) ==
            ParseFrom(q, Parser("START", 13, Some("WHERE"), None, None, None, None))
  {
    var p := Parser("NEXT_OP", 7, Some("WHERE"), None, None, None, None);
    assert q[7] == ' ' && q[13] == ' ';
    assert q[8..13] == "START";
    SpacedKeyword(q, p, 13, "START");
  }

  /** ... where the next keyword rewrites the operation type. */
  lemma ZeroFilterSelect(q: string)
    requires q == "WHERE 0 START SELECT *"
    ensures ParseFrom(q, Parser("START", 13, Some("WHERE"), None, None, None, None)) ==
            ParseFrom(q, Parser("SELECT", 20, Some("SELECT"), None, None, None, None))
  {
    var p := Parser("START", 13, Some("WHERE"), None, None, None, None);
    assert q[13] == ' ' && q[20] == ' ';
    assert q[14..20] == "SELECT";
    SpacedKeyword(q, p, 20, "SELECT");
  }

  lemma ZeroFilterColumns(q: string)
    requires q == "WHERE 0 START SELECT *"
    ensures ParseFrom(q, Parser("SELECT", 20, Some("SELECT"), None, None, None, None)) ==
            Ok(Parser("NEXT_OP", 22, Some("SELECT"), Some(["*"]), None, None, None))
  {
    var p := Parser("SELECT", 20, Some("SELECT"), None, None, None, None);
    assert q[20] == ' ' && q[21] == '*' && |q| == 22;
    assert q[21..22] == "*" && ColList("*") == ["*"];
    SpacedClause(q, p, 22);
  }

  /** A statement that does not begin with SELECT can still be accepted: a
      WHERE clause ends at the falsy number `0`, a `START` keyword re-enters
      the first state, and the SELECT after it overwrites the operation type. */
  lemma StartReentersAfterZeroFilter(q: string)
    requires q == "WHERE 0 START SELECT *"
    ensures ParseSpec(q) == Ok(ParsedOperation("SELECT", Some(["*"]), None, None, None))
  {
    ZeroFilterKeyword(q);
    ZeroFilterExpr(q);
    ZeroFilterStart(q);
    ZeroFilterSelect(q);
    ZeroFilterColumns(q);
  }
}
