/** `execute` of executor.py (duplicated in parser.py): filter the rows with
    the WHERE tree, project the requested columns, and stop once LIMIT rows
    have been emitted. */
module Executor {
  import opened Wrappers
  import opened Values
  import opened ExprTree
  import opened Statement

  /** `count >= operation.limit`; a `None` limit is `float('inf')`. */
  predicate LimitReached(count: nat, limit: Option<real>) {
    limit.Some? && count as real >= limit.value
  }

  /** `operation.expr.evaluate(item) if operation.expr else True`, read as a
      condition. */
  function Include(expr: Option<Node>, row: Row): Result<bool> {
    match expr
    case None => Ok(true)
    case Some(n) =>
      match Eval(n, row)
      case Err => Err
      case Ok(v) => Ok(Truthy(v))
  }

  /** `len(cols) == 1 and cols[0] == "*"`. */
  predicate IsWildcard(cols: seq<string>) {
    |cols| == 1 && cols[0] == "*"
  }

  /** The row restricted to `cols`, filled column by column; a column the row
      lacks raises. It succeeds exactly when every column is a key of the row,
      and then has exactly those keys with the row's values. */
  function Project(cols: seq<string>, row: Row): (r: Result<Row>)
    ensures r.Ok? <==> forall c :: c in cols ==> c in row
    ensures r.Ok? ==> r.value.Keys == set c | c in cols
    ensures r.Ok? ==> forall c :: c in r.value ==> c in row && r.value[c] == row[c]
  {
    if cols == [] then Ok(map[])
    else
      var c := cols[|cols| - 1];
      assert forall x :: x in cols <==> x in cols[..|cols| - 1] || x == c;
      match Project(cols[..|cols| - 1], row)
      case Err => Err
      case Ok(m) => if c in row then Ok(m[c := row[c]]) else Err
  }

  /** The row emitted for an included input row: the row itself for `["*"]`,
      its projection otherwise; `len(None)` raises when no column list was
      parsed. */
  function Emit(cols: Option<seq<string>>, row: Row): Result<Row> {
    match cols
    case None => Err
    case Some(cs) => if IsWildcard(cs) then Ok(row) else Project(cs, row)
  }

  /** The loop of `execute` over `data` with `count` rows already emitted. */
  function ExecFrom(data: seq<Row>, op: ParsedOperation, count: nat): (r: Result<seq<Row>>)
    ensures r.Ok? ==> |r.value| <= |data|
    ensures r.Ok? && LimitReached(count, op.limit) ==> r.value == []
    decreases |data|
  {
    if data == [] || LimitReached(count, op.limit) then Ok([])
    else
      match Include(op.expr, data[0])
      case Err => Err
      case Ok(false) => ExecFrom(data[1..], op, count)
      case Ok(true) =>
        match Emit(op.cols, data[0])
        case Err => Err
        case Ok(out) =>
          match ExecFrom(data[1..], op, count + 1)
          case Err => Err
          case Ok(rest) => Ok([out] + rest)
  }

  /** `results` followed by what the rest of the loop produces. */
  function Glue(results: seq<Row>, r: Result<seq<Row>>): Result<seq<Row>> {
    match r
    case Err => Err
    case Ok(rest) => Ok(results + rest)
  }

  /** Appending one emitted row to `results` before or after the rest of the
      loop gives the same list. */
  lemma GlueCons(results: seq<Row>, out: Row, r: Result<seq<Row>>)
    ensures Glue(results, match r case Err => Err case Ok(rest) => Ok([out] + rest)) == Glue(results + [out], r)
  {
    if r.Ok? {
      assert results + ([out] + r.value) == (results + [out]) + r.value;
    }
  }

  /** The projection loop of `execute`: one `result_item[col] = item[col]` per
      column, raising on the first column the row lacks. */
  method ProjectRow(cols: seq<string>, row: Row) returns (r: Result<Row>)
    ensures r == Project(cols, row)
  {
    var item: Row := map[];
    for k := 0 to |cols|
      invariant Project(cols[..k], row) == Ok(item)
    {
      var c := cols[k];
      assert cols[..k + 1][..k] == cols[..k];
      if c !in row {
        return Err;
      }
      item := item[c := row[c]];
    }
    assert cols[..|cols|] == cols;
    return Ok(item);
  }

  /** `execute`. The data list is only read. */
  method Execute(data: seq<Row>, op: ParsedOperation) returns (r: Result<seq<Row>>)
    ensures r == ExecFrom(data, op, 0)
  {
    var results: seq<Row> := [];
    var count: nat := 0;
    assert data[0..] == data;
    assert forall x: seq<Row> :: [] + x == x;
    for k := 0 to |data|
      invariant ExecFrom(data, op, 0) == Glue(results, ExecFrom(data[k..], op, count))
    {
      assert data[k..][1..] == data[k + 1..];
      if LimitReached(count, op.limit) {
        assert results + [] == results;
        return Ok(results);
      }
      var item := data[k];
      var included := true;
      if op.expr.Some? {
        var v := Eval(op.expr.value, item);
        if v.Err? {
          return Err;
        }
        included := Truthy(v.value);
      }
      if included {
        if op.cols.None? {
          return Err;
        }
        var resultItem: Row;
        if IsWildcard(op.cols.value) {
          resultItem := item;
        } else {
          var projected := ProjectRow(op.cols.value, item);
          if projected.Err? {
            return Err;
          }
          resultItem := projected.value;
        }
        GlueCons(results, resultItem, ExecFrom(data[k + 1..], op, count + 1));
        results := results + [resultItem];
        count := count + 1;
      }
    }
    assert results + [] == results;
    return Ok(results);
  }

  // ---------------------------------------------------------------------
  // A reference without the limit: filter every row, then emit every kept row

  /** The rows whose filter result is truthy, in input order; any evaluation
      error makes the whole filter fail. */
  function FilterRows(data: seq<Row>, expr: Option<Node>): (r: Result<seq<Row>>)
    ensures r.Ok? ==> |r.value| <= |data|
    decreases |data|
  {
    if data == [] then Ok([])
    else
      match Include(expr, data[0])
      case Err => Err
      case Ok(b) =>
        match FilterRows(data[1..], expr)
        case Err => Err
        case Ok(kept) => Ok(if b then [data[0]] + kept else kept)
  }

  /** The filter fails exactly when some row's evaluation fails; otherwise it
      keeps every row whose result is truthy and nothing else. */
  lemma {:induction false} FilterRowsKeeps(data: seq<Row>, expr: Option<Node>)
    ensures FilterRows(data, expr).Ok? <==> forall i :: 0 <= i < |data| ==> Include(expr, data[i]).Ok?
    ensures FilterRows(data, expr).Ok? ==> forall row :: row in FilterRows(data, expr).value ==>
      row in data && Include(expr, row) == Ok(true)
    ensures FilterRows(data, expr).Ok? ==> forall i :: 0 <= i < |data| && Include(expr, data[i]) == Ok(true) ==>
      data[i] in FilterRows(data, expr).value
    decreases |data|
  {
    if data != [] {
      FilterRowsKeeps(data[1..], expr);
      assert forall i :: 1 <= i < |data| ==> data[i] == data[1..][i - 1];
    }
  }

  /** The filter keeps input order: filtering a concatenation concatenates
      the filtered parts. */
  lemma {:induction false} FilterRowsAppend(a: seq<Row>, b: seq<Row>, expr: Option<Node>)
    requires FilterRows(a, expr).Ok? && FilterRows(b, expr).Ok?
    ensures FilterRows(a + b, expr) == Ok(FilterRows(a, expr).value + FilterRows(b, expr).value)
    decreases |a|
  {
    if a == [] {
      assert a + b == b;
      assert [] + FilterRows(b, expr).value == FilterRows(b, expr).value;
    } else {
      assert (a + b)[0] == a[0];
      assert (a + b)[1..] == a[1..] + b;
      FilterRowsAppend(a[1..], b, expr);
      var ka := FilterRows(a[1..], expr).value;
      var kb := FilterRows(b, expr).value;
      var inc := Include(expr, a[0]).value;
      assert FilterRows(a, expr) == Ok(if inc then [a[0]] + ka else ka);
      assert FilterRows(a + b, expr) == Ok(if inc then [a[0]] + (ka + kb) else ka + kb);
      assert [a[0]] + ka + kb == [a[0]] + (ka + kb);
    }
  }

  /** Every row emitted in turn; any failure makes the whole list fail. */
  function EmitAll(cols: Option<seq<string>>, rows: seq<Row>): (r: Result<seq<Row>>)
    ensures r.Ok? <==> forall i :: 0 <= i < |rows| ==> Emit(cols, rows[i]).Ok?
    ensures r.Ok? ==> |r.value| == |rows| && forall i :: 0 <= i < |rows| ==> Emit(cols, rows[i]) == Ok(r.value[i])
    decreases |rows|
  {
    if rows == [] then Ok([])
    else
      var rest := EmitAll(cols, rows[1..]);
      assert forall i :: 1 <= i < |rows| ==> rows[i] == rows[1..][i - 1];
      match Emit(cols, rows[0])
      case Err => Err
      case Ok(out) =>
        match rest
        case Err => Err
        case Ok(outs) => Ok([out] + outs)
  }

  /** What `execute` returns when the limit is never reached. */
  function Matches(data: seq<Row>, op: ParsedOperation): Result<seq<Row>> {
    match FilterRows(data, op.expr)
    case Err => Err
    case Ok(kept) => EmitAll(op.cols, kept)
  }

  /** How many of `n` available rows are emitted when `count` rows already
      were: up to the first count at which the limit is reached. */
  function Taken(n: nat, count: nat, limit: Option<real>): (t: nat)
    ensures t <= n
    ensures forall k :: count <= k < count + t ==> !LimitReached(k, limit)
    ensures t == n || LimitReached(count + t, limit)
    decreases n
  {
    if n == 0 || LimitReached(count, limit) then 0
    else 1 + Taken(n - 1, count + 1, limit)
  }

  /** Without a limit, `execute` is exactly the filter followed by the
      projection of every kept row: it fails if any row's filter fails or any
      kept row lacks a requested column, and otherwise emits every match in
      input order. */
  lemma {:induction false} NoLimitIsMatches(data: seq<Row>, op: ParsedOperation, count: nat)
    requires op.limit.None?
    ensures ExecFrom(data, op, count) == Matches(data, op)
    decreases |data|
  {
    if data != [] {
      NoLimitIsMatches(data[1..], op, count);
      NoLimitIsMatches(data[1..], op, count + 1);
    }
  }

  /** With a limit, when the full match list exists, `execute` returns its
      prefix: the rows up to the point where the count reaches the limit. */
  lemma {:induction false} LimitTakesPrefix(data: seq<Row>, op: ParsedOperation, count: nat)
    requires Matches(data, op).Ok?
    ensures ExecFrom(data, op, count) ==
      Ok(Matches(data, op).value[..Taken(|Matches(data, op).value|, count, op.limit)])
    decreases |data|
  {
    if data != [] && !LimitReached(count, op.limit) {
      var all := Matches(data, op).value;
      var kept := FilterRows(data, op.expr).value;
      var rest := FilterRows(data[1..], op.expr).value;
      if Include(op.expr, data[0]) == Ok(true) {
        assert kept == [data[0]] + rest;
        assert EmitAll(op.cols, rest) == Matches(data[1..], op);
        var tail := Matches(data[1..], op).value;
        assert all == [all[0]] + tail;
        LimitTakesPrefix(data[1..], op, count + 1);
        assert Taken(|all|, count, op.limit) == 1 + Taken(|tail|, count + 1, op.limit);
        assert all[..Taken(|all|, count, op.limit)] == [all[0]] + tail[..Taken(|tail|, count + 1, op.limit)];
      } else {
        assert kept == rest;
        LimitTakesPrefix(data[1..], op, count);
      }
    }
  }

  // ---------------------------------------------------------------------
  // The limit

  /** The limit bounds the output: every row is emitted while the count is
      still below the limit, so the last one leaves at most `limit` rows
      counted before it. */
  lemma {:induction false} OutputWithinLimit(data: seq<Row>, op: ParsedOperation, count: nat)
    requires ExecFrom(data, op, count).Ok? && op.limit.Some?
    ensures var out := ExecFrom(data, op, count).value;
      |out| == 0 || ((count + |out| - 1) as real) < op.limit.value
    decreases |data|
  {
    if data != [] && !LimitReached(count, op.limit) {
      match Include(op.expr, data[0])
      case Ok(false) => OutputWithinLimit(data[1..], op, count);
      case Ok(true) => OutputWithinLimit(data[1..], op, count + 1);
    }
  }

  /** For a whole-number limit `n`, at most `n` rows come out. */
  lemma IntegerLimitBound(data: seq<Row>, op: ParsedOperation, n: nat)
    requires op.limit == Some(n as real) && ExecFrom(data, op, 0).Ok?
    ensures |ExecFrom(data, op, 0).value| <= n
  {
    OutputWithinLimit(data, op, 0);
  }

  /** Once the count has reached the limit the loop stops: rows after that
      point are neither evaluated nor projected, so they cannot change the
      outcome, not even by raising. */
  lemma {:induction false} StopsAtLimit(data: seq<Row>, tail: seq<Row>, op: ParsedOperation, count: nat)
    requires ExecFrom(data, op, count).Ok?
    requires LimitReached(count + |ExecFrom(data, op, count).value|, op.limit)
    ensures ExecFrom(data + tail, op, count) == ExecFrom(data, op, count)
    decreases |data|
  {
    if data == [] {
      assert data + tail == tail;
    } else if !LimitReached(count, op.limit) {
      assert (data + tail)[0] == data[0];
      assert (data + tail)[1..] == data[1..] + tail;
      match Include(op.expr, data[0])
      case Ok(false) => StopsAtLimit(data[1..], tail, op, count);
      case Ok(true) => StopsAtLimit(data[1..], tail, op, count + 1);
    }
  }

  // ---------------------------------------------------------------------
  // Filtering and projection

  /** A row the filter rejects has no effect on the outcome: in particular a
      column it lacks never raises. */
  lemma {:induction false} ExcludedRowIrrelevant(pre: seq<Row>, row: Row, post: seq<Row>, op: ParsedOperation, count: nat)
    requires Include(op.expr, row) == Ok(false)
    ensures ExecFrom(pre + [row] + post, op, count) == ExecFrom(pre + post, op, count)
    decreases |pre|
  {
    if pre == [] {
      assert pre + [row] + post == [row] + post;
      assert ([row] + post)[1..] == post;
      assert pre + post == post;
    } else {
      assert (pre + [row] + post)[0] == pre[0] && (pre + post)[0] == pre[0];
      assert (pre + [row] + post)[1..] == pre[1..] + [row] + post;
      assert (pre + post)[1..] == pre[1..] + post;
      ExcludedRowIrrelevant(pre[1..], row, post, op, count);
      ExcludedRowIrrelevant(pre[1..], row, post, op, count + 1);
    }
  }

  /** With no filter every row is kept, and `["*"]` emits each row as it is. */
  lemma {:induction false} PlainScanMatches(data: seq<Row>, op: ParsedOperation)
    requires op.expr.None? && op.cols == Some(["*"])
    ensures FilterRows(data, op.expr) == Ok(data)
    ensures EmitAll(op.cols, data) == Ok(data)
    ensures Matches(data, op) == Ok(data)
    decreases |data|
  {
    if data != [] {
      PlainScanMatches(data[1..], op);
      assert [data[0]] + data[1..] == data;
    }
  }

  /** `SELECT * FROM t` without WHERE returns the first rows of the data, as
      many as the limit lets through. */
  lemma PlainScanIsPrefix(data: seq<Row>, op: ParsedOperation)
    requires op.expr.None? && op.cols == Some(["*"])
    ensures ExecFrom(data, op, 0) == Ok(data[..Taken(|data|, 0, op.limit)])
  {
    PlainScanMatches(data, op);
    LimitTakesPrefix(data, op, 0);
  }

  /** Every emitted row is an input row (for `["*"]`) or has exactly the
      requested columns (otherwise). */
  lemma {:induction false} EmittedRows(data: seq<Row>, op: ParsedOperation, count: nat)
    requires ExecFrom(data, op, count).Ok? && op.cols.Some?
    ensures forall out :: out in ExecFrom(data, op, count).value ==>
      if IsWildcard(op.cols.value) then out in data
      else out.Keys == (set c | c in op.cols.value) &&
           exists row :: row in data && Project(op.cols.value, row) == Ok(out)
    decreases |data|
  {
    if data != [] && !LimitReached(count, op.limit) {
      assert forall r :: r in data[1..] ==> r in data;
      match Include(op.expr, data[0])
      case Ok(false) =>
        EmittedRows(data[1..], op, count);
      case Ok(true) =>
        EmittedRows(data[1..], op, count + 1);
        assert data[0] in data;
    }
  }
}
