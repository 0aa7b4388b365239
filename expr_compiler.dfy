/** `extract_expr` of parser.py: the WHERE clause compiled into an expression
    tree with an operand stack and an operator stack. Reproduced as written:
    an incoming operator reduces at most ONE pending operator, and only one of
    strictly higher precedence; the final drain is last-in first-out; a bare
    literal popped as a left operand becomes a column reference; the result is
    the BOTTOM element of the operand stack. */
module ExprCompiler {
  import opened Wrappers
  import opened Chars
  import opened Values
  import opened ExprTree
  import opened ExprTokens

  /** `stack` (operands) and `operators` (pending operators and `(` markers). */
  datatype Stacks = Stacks(operands: seq<Node>, operators: seq<string>)

  const Empty: Stacks := Stacks([], [])

  /** `isinstance(t, str) and t.upper() in OPS`: any text token whose upper-case
      form names an operator, a quoted `'or'` included. */
  predicate IsOperatorToken(t: Token) {
    t.TStr? && Upper(t.s) in OpNames
  }

  /** A token pushed as a `Literal`: neither an operator nor a parenthesis. */
  predicate IsOperand(t: Token) {
    !IsOperatorToken(t) && t != TStr("(") && t != TStr(")")
  }

  function TokenValue(t: Token): Value {
    match t
    case TStr(s) => VStr(s)
    case TNum(v) => v
  }

  function Top(ops: seq<string>): string
    requires |ops| > 0
  {
    ops[|ops| - 1]
  }

  /** Pop the right operand, the left operand and the top operator, and push
      their `BinaryOperator`; a `Literal` on the left becomes a `ColName`.
      Popping an operand that is not there raises `IndexError`. */
  function Reduce(st: Stacks): (r: Result<Stacks>)
    requires |st.operators| > 0
    ensures r.Ok? <==> |st.operands| >= 2
    ensures r.Ok? ==> r.value.operators == st.operators[..|st.operators| - 1]
    ensures r.Ok? ==> |r.value.operands| == |st.operands| - 1
    ensures r.Ok? ==> r.value.operands[..|r.value.operands| - 1] == st.operands[..|st.operands| - 2]
  {
    var n := |st.operands|;
    if n < 2 then Err
    else
      var right := st.operands[n - 1];
      var left := st.operands[n - 2];
      var left' := if left.Literal? then ColName(left.value) else left;
      var rest := st.operands[..n - 2];
      assert (rest + [BinOp(Top(st.operators), left', right)])[..n - 2] == rest;
      Ok(Stacks(rest + [BinOp(Top(st.operators), left', right)], st.operators[..|st.operators| - 1]))
  }

  /** The test at parser.py lines 320-321: a pending operator, not `(`, whose
      precedence is strictly higher than the incoming one. */
  predicate ReducesBefore(st: Stacks, op: string) {
    |st.operators| > 0 && Top(st.operators) != "(" && Precedence(op) < Precedence(Top(st.operators))
  }

  /** `)`: reduce every operator above the nearest `(`, then drop that `(` if
      there is one. */
  function CloseParen(st: Stacks): Result<Stacks>
    decreases |st.operators|
  {
    if |st.operators| > 0 && Top(st.operators) != "(" then
      match Reduce(st)
      case Err => Err
      case Ok(st') => CloseParen(st')
    else if |st.operators| > 0 then Ok(Stacks(st.operands, st.operators[..|st.operators| - 1]))
    else Ok(st)
  }

  /** One pass of the token loop. */
  function Step(st: Stacks, t: Token): Result<Stacks> {
    if IsOperatorToken(t) then
      var op := Upper(t.s);
      var reduced := if ReducesBefore(st, op) then Reduce(st) else Ok(st);
      match reduced
      case Err => Err
      case Ok(st') => Ok(Stacks(st'.operands, st'.operators + [op]))
    else if t == TStr("(") then Ok(Stacks(st.operands, st.operators + ["("]))
    else if t == TStr(")") then CloseParen(st)
    else Ok(Stacks(st.operands + [Literal(TokenValue(t))], st.operators))
  }

  /** The token loop over a whole token stream. */
  function RunFrom(st: Stacks, toks: seq<Token>): Result<Stacks>
    decreases |toks|
  {
    if toks == [] then Ok(st)
    else
      match Step(st, toks[0])
      case Err => Err
      case Ok(st') => RunFrom(st', toks[1..])
  }

  /** The final loop: combine the remaining operators, last pushed first
      (a leftover `(` is combined like an operator). */
  function Drain(st: Stacks): (r: Result<Stacks>)
    ensures r.Ok? ==> r.value.operators == [] && |r.value.operands| <= |st.operands|
    decreases |st.operators|
  {
    if |st.operators| == 0 then Ok(st)
    else
      match Reduce(st)
      case Err => Err
      case Ok(st') => Drain(st')
  }

  /** Drain, then return `stack[0]`, or `None` for an empty operand stack. */
  function Finish(st: Stacks): Result<Option<Node>> {
    match Drain(st)
    case Err => Err
    case Ok(d) => Ok(if |d.operands| > 0 then Some(d.operands[0]) else None)
  }

  /** The tree compiled from a token stream. */
  function Compile(toks: seq<Token>): Result<Option<Node>> {
    match RunFrom(Empty, toks)
    case Err => Err
    case Ok(st) => Finish(st)
  }

  /** What `extract_expr(query, i)` returns: the tree (or `None`) and the index
      after the falsy token that ended the clause. */
  function ExprSpec(q: string, i: nat): (r: Result<(Option<Node>, nat)>)
    ensures r.Ok? ==> i <= r.value.1
  {
    match LexFrom(q, i)
    case Err => Err
    case Ok((toks, j)) =>
      match Compile(toks)
      case Err => Err
      case Ok(root) => Ok((root, j))
  }

  /** The rest of `extract_expr` once the stacks are `st` and token `t`, ending
      at `j`, has just been read. */
  function ResumeCompile(q: string, st: Stacks, t: Option<Token>, j: nat): Result<(Option<Node>, nat)> {
    match Resume(q, t, j)
    case Err => Err
    case Ok((toks, k)) =>
      match RunFrom(st, toks)
      case Err => Err
      case Ok(st') =>
        match Finish(st')
        case Err => Err
        case Ok(root) => Ok((root, k))
  }

  lemma ResumeCompileStep(q: string, st: Stacks, t: Token, j: nat)
    requires IsTruthyToken(Some(t))
    ensures Step(st, t).Err? ==> ResumeCompile(q, st, Some(t), j).Err?
    ensures Step(st, t).Ok? ==>
      (ResumeCompile(q, st, Some(t), j) ==
        match NextToken(q, j)
        case Err => Err
        case Ok((t', j')) => ResumeCompile(q, Step(st, t).value, t', j'))
  {
    match LexFrom(q, j)
    case Err =>
    case Ok((rest, k)) =>
      assert ([t] + rest)[0] == t && ([t] + rest)[1..] == rest;
  }

  // ---------------------------------------------------------------------
  // The imperative compiler

  /** The pops and push of one reduction (parser.py lines 322-330, 337-345, 355-362). */
  method Combine(stack: seq<Node>, operators: seq<string>) returns (r: Result<Stacks>)
    requires |operators| > 0
    ensures r == Reduce(Stacks(stack, operators))
  {
    if |stack| < 2 {
      return Err;
    }
    var operands := stack;
    var right := operands[|operands| - 1];
    operands := operands[..|operands| - 1];
    var left := operands[|operands| - 1];
    operands := operands[..|operands| - 1];
    var op := operators[|operators| - 1];
    if left.Literal? {
      left := ColName(left.value);
    }
    assert operands == stack[..|stack| - 2];
    return Ok(Stacks(operands + [BinOp(op, left, right)], operators[..|operators| - 1]));
  }

  /** The body of the token loop (parser.py lines 319-350). */
  method ApplyToken(stack: seq<Node>, operators: seq<string>, t: Token) returns (r: Result<Stacks>)
    ensures r == Step(Stacks(stack, operators), t)
  {
    if t.TStr? && Upper(t.s) in OpNames {
      var op := Upper(t.s);
      var st := Stacks(stack, operators);
      if |operators| > 0 && operators[|operators| - 1] != "(" &&
         Precedence(op) < Precedence(operators[|operators| - 1])
      {
        var reduced := Combine(stack, operators);
        if reduced.Err? {
          return Err;
        }
        st := reduced.value;
      }
      return Ok(Stacks(st.operands, st.operators + [op]));
    } else if t == TStr("(") {
      return Ok(Stacks(stack, operators + ["("]));
    } else if t == TStr(")") {
      var st := Stacks(stack, operators);
      while |st.operators| > 0 && st.operators[|st.operators| - 1] != "("
        invariant CloseParen(st) == CloseParen(Stacks(stack, operators))
        decreases |st.operators|
      {
        var reduced := Combine(st.operands, st.operators);
        if reduced.Err? {
          return Err;
        }
        st := reduced.value;
      }
      if |st.operators| > 0 {
        st := Stacks(st.operands, st.operators[..|st.operators| - 1]);
      }
      return Ok(st);
    } else {
      return Ok(Stacks(stack + [Literal(TokenValue(t))], operators));
    }
  }

  /** `extract_expr`. */
  method ExtractExpr(q: string, i0: nat) returns (r: Result<(Option<Node>, nat)>)
    ensures r == ExprSpec(q, i0)
  {
    var st := Empty;
    var next := GetNextExprToken(q, i0);
    if next.Err? {
      return Err;
    }
    var tok, i := next.value.0, next.value.1;
    while IsTruthyToken(tok)
      invariant ExprSpec(q, i0) == ResumeCompile(q, st, tok, i)
      decreases Measure(q, i) + (if IsTruthyToken(tok) then 1 else 0)
    {
      ResumeCompileStep(q, st, tok.value, i);
      var stepped := ApplyToken(st.operands, st.operators, tok.value);
      if stepped.Err? {
        return Err;
      }
      st := stepped.value;
      next := GetNextExprToken(q, i);
      if next.Err? {
        return Err;
      }
      tok, i := next.value.0, next.value.1;
    }
    ghost var beforeDrain := st;
    while |st.operators| > 0
      invariant Drain(st) == Drain(beforeDrain)
      decreases |st.operators|
    {
      var reduced := Combine(st.operands, st.operators);
      if reduced.Err? {
        return Err;
      }
      st := reduced.value;
    }
    if |st.operands| > 0 {
      return Ok((Some(st.operands[0]), i));
    }
    return Ok((None, i));
  }

  // ---------------------------------------------------------------------
  // The shape of compiled trees

  /** A compiled node: a column reference occurs only as a LEFT child, a bare
      literal never does, right children are literals or operators kept as they
      were pushed, and every operator is a key of `OPS` or a leftover `(`. */
  predicate Shaped(n: Node) {
    match n
    case Literal(_) => true
    case ColName(_) => false
    case BinOp(op, l, r) =>
      (op in OpNames || op == "(") && (l.ColName? || (l.BinOp? && Shaped(l))) && Shaped(r)
  }

  predicate StacksShaped(st: Stacks) {
    (forall n :: n in st.operands ==> Shaped(n)) &&
    (forall o :: o in st.operators ==> o in OpNames || o == "(")
  }

  lemma ReduceShaped(st: Stacks)
    requires |st.operators| > 0 && StacksShaped(st) && Reduce(st).Ok?
    ensures StacksShaped(Reduce(st).value)
  {
    var n := |st.operands|;
    assert st.operands[n - 1] in st.operands && st.operands[n - 2] in st.operands;
    assert Top(st.operators) in st.operators;
    var st' := Reduce(st).value;
    forall x | x in st'.operands ensures Shaped(x) {
      if x != st'.operands[n - 2] {
        var j :| 0 <= j < n - 1 && st'.operands[j] == x;
        assert x == st.operands[j];
      }
    }
    forall o | o in st'.operators ensures o in OpNames || o == "(" {
      var j :| 0 <= j < |st'.operators| && st'.operators[j] == o;
      assert o == st.operators[j];
    }
  }

  lemma {:induction false} CloseParenShaped(st: Stacks)
    requires StacksShaped(st) && CloseParen(st).Ok?
    ensures StacksShaped(CloseParen(st).value)
    decreases |st.operators|
  {
    if |st.operators| > 0 && Top(st.operators) != "(" {
      ReduceShaped(st);
      CloseParenShaped(Reduce(st).value);
    } else if |st.operators| > 0 {
      var ops := st.operators[..|st.operators| - 1];
      forall o | o in ops ensures o in OpNames || o == "(" {
        var j :| 0 <= j < |ops| && ops[j] == o;
        assert o == st.operators[j];
      }
    }
  }

  lemma {:induction false} DrainShaped(st: Stacks)
    requires StacksShaped(st) && Drain(st).Ok?
    ensures StacksShaped(Drain(st).value)
    decreases |st.operators|
  {
    if |st.operators| > 0 {
      ReduceShaped(st);
      DrainShaped(Reduce(st).value);
    }
  }

  lemma StepShaped(st: Stacks, t: Token)
    requires StacksShaped(st) && Step(st, t).Ok?
    ensures StacksShaped(Step(st, t).value)
  {
    if IsOperatorToken(t) {
      if ReducesBefore(st, Upper(t.s)) {
        ReduceShaped(st);
      }
    } else if t == TStr(")") {
      CloseParenShaped(st);
    }
  }

  lemma {:induction false} RunFromShaped(st: Stacks, toks: seq<Token>)
    requires StacksShaped(st) && RunFrom(st, toks).Ok?
    ensures StacksShaped(RunFrom(st, toks).value)
    decreases |toks|
  {
    if toks != [] {
      StepShaped(st, toks[0]);
      RunFromShaped(Step(st, toks[0]).value, toks[1..]);
    }
  }

  /** Every tree `extract_expr` builds is `Shaped`: each bare literal popped as a
      left operand was turned into a column reference, right operands are left
      as they were, and no operator outside `OPS` appears except an unmatched `(`. */
  lemma CompileShaped(toks: seq<Token>)
    requires Compile(toks).Ok? && Compile(toks).value.Some?
    ensures Shaped(Compile(toks).value.value)
  {
    RunFromShaped(Empty, toks);
    var st := RunFrom(Empty, toks).value;
    DrainShaped(st);
    var d := Drain(st).value;
    assert d.operands[0] in d.operands;
  }

  // ---------------------------------------------------------------------
  // Operands keep their order

  /** The operand values at the leaves of a tree, left to right; a column
      reference contributes the token it was made from. */
  function Leaves(n: Node): (vs: seq<Value>)
    ensures |vs| >= 1
  {
    match n
    case Literal(v) => [v]
    case ColName(k) => [k]
    case BinOp(_, l, r) => Leaves(l) + Leaves(r)
  }

  function AllLeaves(ns: seq<Node>): seq<Value> {
    if ns == [] then [] else AllLeaves(ns[..|ns| - 1]) + Leaves(ns[|ns| - 1])
  }

  /** The operand tokens of a stream, in order. */
  function Operands(toks: seq<Token>): seq<Value> {
    if toks == [] then []
    else (if IsOperand(toks[0]) then [TokenValue(toks[0])] else []) + Operands(toks[1..])
  }

  lemma ReduceLeaves(st: Stacks)
    requires |st.operators| > 0 && Reduce(st).Ok?
    ensures AllLeaves(Reduce(st).value.operands) == AllLeaves(st.operands)
  {
    var a := st.operands;
    var n := |a|;
    var b := Reduce(st).value.operands;
    assert b[..n - 2] == a[..n - 2];
    assert b[..|b| - 1] == a[..n - 2];
    assert Leaves(b[n - 2]) == Leaves(a[n - 2]) + Leaves(a[n - 1]);
    assert a[..n - 1][..n - 2] == a[..n - 2];
    assert AllLeaves(a) == AllLeaves(a[..n - 2]) + Leaves(a[n - 2]) + Leaves(a[n - 1]);
  }

  lemma {:induction false} CloseParenLeaves(st: Stacks)
    requires CloseParen(st).Ok?
    ensures AllLeaves(CloseParen(st).value.operands) == AllLeaves(st.operands)
    decreases |st.operators|
  {
    if |st.operators| > 0 && Top(st.operators) != "(" {
      ReduceLeaves(st);
      CloseParenLeaves(Reduce(st).value);
    }
  }

  lemma {:induction false} DrainLeaves(st: Stacks)
    requires Drain(st).Ok?
    ensures AllLeaves(Drain(st).value.operands) == AllLeaves(st.operands)
    decreases |st.operators|
  {
    if |st.operators| > 0 {
      ReduceLeaves(st);
      DrainLeaves(Reduce(st).value);
    }
  }

  lemma StepLeaves(st: Stacks, t: Token)
    requires Step(st, t).Ok?
    ensures AllLeaves(Step(st, t).value.operands) ==
      AllLeaves(st.operands) + (if IsOperand(t) then [TokenValue(t)] else [])
  {
    if IsOperatorToken(t) {
      if ReducesBefore(st, Upper(t.s)) {
        ReduceLeaves(st);
      }
    } else if t == TStr(")") {
      CloseParenLeaves(st);
    } else if t != TStr("(") {
      var ns := st.operands + [Literal(TokenValue(t))];
      assert ns[..|ns| - 1] == st.operands;
    }
  }

  lemma {:induction false} RunFromLeaves(st: Stacks, toks: seq<Token>)
    requires RunFrom(st, toks).Ok?
    ensures AllLeaves(RunFrom(st, toks).value.operands) == AllLeaves(st.operands) + Operands(toks)
    decreases |toks|
  {
    if toks != [] {
      StepLeaves(st, toks[0]);
      RunFromLeaves(Step(st, toks[0]).value, toks[1..]);
    }
  }

  lemma {:induction false} AllLeavesFirst(ns: seq<Node>)
    requires |ns| > 0
    ensures Leaves(ns[0]) <= AllLeaves(ns)
  {
    if |ns| > 1 {
      AllLeavesFirst(ns[..|ns| - 1]);
    }
  }

  lemma {:induction false} AllLeavesEmpty(ns: seq<Node>)
    ensures AllLeaves(ns) == [] <==> ns == []
  {
    if ns != [] {
      AllLeavesEmpty(ns[..|ns| - 1]);
    }
  }

  /** Nothing is reordered: the leaves of the compiled tree, left to right, are
      the first operands of the clause in their order of appearance (all of
      them unless leftover operands are dropped with the rest of the stack),
      and there is no tree exactly when the clause has no operand. */
  lemma CompileKeepsOperandOrder(toks: seq<Token>)
    requires Compile(toks).Ok?
    ensures Compile(toks).value.None? <==> Operands(toks) == []
    ensures Compile(toks).value.Some? ==> Leaves(Compile(toks).value.value) <= Operands(toks)
  {
    var st := RunFrom(Empty, toks).value;
    var d := Drain(st).value;
    assert Compile(toks) == Ok(if |d.operands| > 0 then Some(d.operands[0]) else None);
    RunFromLeaves(Empty, toks);
    assert AllLeaves(Empty.operands) == [];
    DrainLeaves(st);
    assert AllLeaves(d.operands) == Operands(toks);
    AllLeavesEmpty(d.operands);
    if |d.operands| > 0 {
      AllLeavesFirst(d.operands);
    }
  }

  // ---------------------------------------------------------------------
  // Counting reductions

  /** The final drain succeeds exactly when there is one more operand than
      pending operators (or nothing pending); it then leaves no operator and
      one operand fewer per operator combined. */
  lemma {:induction false} DrainCount(st: Stacks)
    ensures Drain(st).Ok? <==> |st.operators| == 0 || |st.operands| > |st.operators|
    ensures Drain(st).Ok? ==>
      Drain(st).value.operators == [] && |Drain(st).value.operands| == |st.operands| - |st.operators|
    decreases |st.operators|
  {
    if |st.operators| > 0 && |st.operands| >= 2 {
      DrainCount(Reduce(st).value);
    }
  }

  /** Number of operators above the nearest `(` (all of them if there is none). */
  function AboveOpen(ops: seq<string>): nat
    ensures AboveOpen(ops) <= |ops|
  {
    if ops == [] || Top(ops) == "(" then 0 else AboveOpen(ops[..|ops| - 1]) + 1
  }

  /** `)` combines exactly the operators above the nearest `(` and removes
      that `(`; with no `(` it combines every pending operator and reports
      nothing. It fails only for want of operands. */
  lemma {:induction false} CloseParenCount(st: Stacks)
    ensures var k := AboveOpen(st.operators);
      CloseParen(st).Ok? <==> k == 0 || |st.operands| > k
    ensures var k := AboveOpen(st.operators);
      var n := |st.operators|;
      CloseParen(st).Ok? ==>
        |CloseParen(st).value.operands| == |st.operands| - k &&
        CloseParen(st).value.operators == st.operators[..if k < n then n - k - 1 else 0]
    decreases |st.operators|
  {
    var n := |st.operators|;
    if n > 0 && Top(st.operators) != "(" && |st.operands| >= 2 {
      var st' := Reduce(st).value;
      assert st'.operators == st.operators[..n - 1];
      CloseParenCount(st');
      var k := AboveOpen(st.operators);
      assert AboveOpen(st'.operators) == k - 1;
      if k < n {
        assert st.operators[..n - 1][..n - k - 1] == st.operators[..n - k - 1];
      }
    }
  }

  /** An incoming operator reduces at most one pending operator, and does so
      exactly when the top of the operator stack is an operator (not `(`) of
      strictly higher precedence; then it is pushed in upper case. */
  lemma OperatorReducesAtMostOnce(st: Stacks, t: Token)
    requires IsOperatorToken(t) && Step(st, t).Ok?
    ensures var st' := Step(st, t).value;
      var below := st'.operators[..|st'.operators| - 1];
      |st'.operators| > 0 && Top(st'.operators) == Upper(t.s) &&
      (ReducesBefore(st, Upper(t.s)) ==>
        below == st.operators[..|st.operators| - 1] && |st'.operands| == |st.operands| - 1) &&
      (!ReducesBefore(st, Upper(t.s)) ==> below == st.operators && st'.operands == st.operands)
  {
  }

  // ---------------------------------------------------------------------
  // Worked examples, at the level of tokens

  /** The canonical operator spellings are operator tokens. */
  lemma CanonicalOperators()
    ensures forall op :: op in OpNames ==> Upper(op) == op
  {
    assert Upper(">") == ">" && Upper("<") == "<" && Upper("=") == "=";
    assert Upper("!=") == "!=" && Upper("AND") == "AND" && Upper("OR") == "OR";
  }

  /** An operand token is pushed as a `Literal`; nothing else moves. */
  lemma StepPushesOperand(st: Stacks, t: Token)
    requires IsOperand(t)
    ensures Step(st, t) == Ok(Stacks(st.operands + [Literal(TokenValue(t))], st.operators))
  {
  }

  /** An operator that does not bind looser than the top operator is pushed
      without combining anything. */
  lemma StepPushesOperator(st: Stacks, op: string)
    requires op in OpNames && !ReducesBefore(st, op)
    ensures Step(st, TStr(op)) == Ok(Stacks(st.operands, st.operators + [op]))
  {
    CanonicalOperators();
  }

  /** Running the loop over `a + b` is running it over `a`, then over `b`. */
  lemma {:induction false} RunFromAppend(st: Stacks, a: seq<Token>, b: seq<Token>)
    ensures RunFrom(st, a + b) ==
      (match RunFrom(st, a)
       case Err => Err
       case Ok(m) => RunFrom(m, b))
    decreases |a|
  {
    if a == [] {
      assert a + b == b;
    } else {
      assert (a + b)[0] == a[0];
      assert (a + b)[1..] == a[1..] + b;
      match Step(st, a[0])
      case Err =>
      case Ok(st') => RunFromAppend(st', a[1..], b);
    }
  }

  /** One step of the loop at the head of a stream. */
  lemma RunFromCons(st: Stacks, t: Token, rest: seq<Token>, st': Stacks)
    requires Step(st, t) == Ok(st')
    ensures RunFrom(st, [t] + rest) == RunFrom(st', rest)
  {
    assert ([t] + rest)[1..] == rest;
  }

  /** `col = v` pushes its two operands and the `=`: `=` binds tightest, so
      nothing pending is combined. The number token `v` may be any value,
      strings included, which covers more than the tokenizer produces. */
  lemma EqualityGroup(st: Stacks, col: string, v: Value)
    requires IsOperand(TStr(col))
    ensures RunFrom(st, [TStr(col), TStr("="), TNum(v)]) ==
      Ok(Stacks(st.operands + [Literal(VStr(col)), Literal(v)], st.operators + ["="]))
  {
    var s1 := Stacks(st.operands + [Literal(VStr(col))], st.operators);
    var s2 := Stacks(s1.operands, st.operators + ["="]);
    var s3 := Stacks(s2.operands + [Literal(TokenValue(TNum(v)))], s2.operators);
    StepPushesOperand(st, TStr(col));
    StepPushesOperator(s1, "=");
    StepPushesOperand(s2, TNum(v));
    RunFromCons(s2, TNum(v), [], s3);
    RunFromCons(s1, TStr("="), [TNum(v)], s2);
    RunFromCons(st, TStr(col), [TStr("=")] + [TNum(v)], s1);
    assert [TStr(col)] + ([TStr("=")] + [TNum(v)]) == [TStr(col), TStr("="), TNum(v)];
    assert [TNum(v)] + [] == [TNum(v)];
    assert s3.operands == st.operands + [Literal(VStr(col)), Literal(v)];
  }

  /** Combining the top two operands under the top operator. */
  lemma ReduceTop(operands: seq<Node>, operators: seq<string>, l: Node, r: Node, op: string)
    ensures Reduce(Stacks(operands + [l, r], operators + [op])) ==
      Ok(Stacks(operands + [BinOp(op, if l.Literal? then ColName(l.value) else l, r)], operators))
  {
    var st := Stacks(operands + [l, r], operators + [op]);
    assert Top(st.operators) == op;
    assert st.operands[|st.operands| - 1] == r && st.operands[|st.operands| - 2] == l;
    assert st.operands[..|st.operands| - 2] == operands;
    assert st.operators[..|st.operators| - 1] == operators;
  }

  /** A looser operator arriving after `col = v` combines that comparison
      (the column name becoming a `ColName`) and is pushed in its place;
      whatever is pending below the `=` is left alone. */
  lemma LooserOperatorCombines(operands: seq<Node>, operators: seq<string>, col: string, v: Value, op: string)
    requires op == "AND" || op == "OR"
    ensures Step(Stacks(operands + [Literal(VStr(col)), Literal(v)], operators + ["="]), TStr(op)) ==
      Ok(Stacks(operands + [BinOp("=", ColName(VStr(col)), Literal(v))], operators + [op]))
  {
    CanonicalOperators();
    var st := Stacks(operands + [Literal(VStr(col)), Literal(v)], operators + ["="]);
    assert Top(st.operators) == "=";
    ReduceTop(operands, operators, Literal(VStr(col)), Literal(v), "=");
  }

  /** `col = v` followed by `AND` or `OR`, at the head of a stream. */
  lemma ComparisonThenLooser(st: Stacks, col: string, v: Value, op: string, rest: seq<Token>)
    requires IsOperand(TStr(col)) && (op == "AND" || op == "OR")
    ensures RunFrom(st, [TStr(col), TStr("="), TNum(v), TStr(op)] + rest) ==
      RunFrom(Stacks(st.operands + [BinOp("=", ColName(VStr(col)), Literal(v))], st.operators + [op]), rest)
  {
    var g := [TStr(col), TStr("="), TNum(v)];
    assert [TStr(col), TStr("="), TNum(v), TStr(op)] + rest == g + ([TStr(op)] + rest);
    EqualityGroup(st, col, v);
    RunFromAppend(st, g, [TStr(op)] + rest);
    LooserOperatorCombines(st.operands, st.operators, col, v, op);
    RunFromCons(Stacks(st.operands + [Literal(VStr(col)), Literal(v)], st.operators + ["="]), TStr(op), rest,
                Stacks(st.operands + [BinOp("=", ColName(VStr(col)), Literal(v))], st.operators + [op]));
  }

  /** The token loop over `a=x AND b=y OR c=z` combines each comparison that
      is followed by a looser operator and leaves `AND`, `OR` and the last `=`
      pending. */
  lemma AndOrStream(a: string, b: string, c: string, x: Value, y: Value, z: Value)
    requires IsOperand(TStr(a)) && IsOperand(TStr(b)) && IsOperand(TStr(c))
    ensures RunFrom(Empty, [TStr(a), TStr("="), TNum(x), TStr("AND"),
                            TStr(b), TStr("="), TNum(y), TStr("OR"),
                            TStr(c), TStr("="), TNum(z)]) ==
      Ok(Stacks([BinOp("=", ColName(VStr(a)), Literal(x)), BinOp("=", ColName(VStr(b)), Literal(y)),
                 Literal(VStr(c)), Literal(z)], ["AND", "OR", "="]))
  {
    var e1 := BinOp("=", ColName(VStr(a)), Literal(x));
    var e2 := BinOp("=", ColName(VStr(b)), Literal(y));
    var g3 := [TStr(c), TStr("="), TNum(z)];
    var rest1 := [TStr(b), TStr("="), TNum(y), TStr("OR")] + g3;
    assert [TStr(a), TStr("="), TNum(x), TStr("AND"),
            TStr(b), TStr("="), TNum(y), TStr("OR"),
            TStr(c), TStr("="), TNum(z)] == [TStr(a), TStr("="), TNum(x), TStr("AND")] + rest1;
    ComparisonThenLooser(Empty, a, x, "AND", rest1);
    var s4 := Stacks([e1], ["AND"]);
    assert Stacks([] + [e1], [] + ["AND"]) == s4;
    ComparisonThenLooser(s4, b, y, "OR", g3);
    var s8 := Stacks([e1, e2], ["AND", "OR"]);
    assert Stacks(s4.operands + [e2], s4.operators + ["OR"]) == s8;
    EqualityGroup(s8, c, z);
    assert s8.operands + [Literal(VStr(c)), Literal(z)] == [e1, e2, Literal(VStr(c)), Literal(z)];
    assert s8.operators + ["="] == ["AND", "OR", "="];
  }

  /** The final drain of the stacks left by `a=x AND b=y OR c=z` nests the
      pending `=` under `OR` under `AND`. */
  lemma AndOrDrain(e1: Node, e2: Node, c: string, z: Value)
    requires e1.BinOp? && e2.BinOp?
    ensures Drain(Stacks([e1, e2, Literal(VStr(c)), Literal(z)], ["AND", "OR", "="])) ==
      Ok(Stacks([BinOp("AND", e1, BinOp("OR", e2, BinOp("=", ColName(VStr(c)), Literal(z))))], []))
  {
    var e3 := BinOp("=", ColName(VStr(c)), Literal(z));
    var o := BinOp("OR", e2, e3);
    var d0 := Stacks([e1, e2, Literal(VStr(c)), Literal(z)], ["AND", "OR", "="]);
    var d1 := Stacks([e1, e2, e3], ["AND", "OR"]);
    var d2 := Stacks([e1, o], ["AND"]);
    var d3 := Stacks([BinOp("AND", e1, o)], []);
    ReduceTop([e1, e2], ["AND", "OR"], Literal(VStr(c)), Literal(z), "=");
    assert [e1, e2] + [Literal(VStr(c)), Literal(z)] == d0.operands;
    assert ["AND", "OR"] + ["="] == d0.operators;
    assert [e1, e2] + [e3] == d1.operands;
    assert Reduce(d0) == Ok(d1);
    ReduceTop([e1], ["AND"], e2, e3, "OR");
    assert [e1] + [e2, e3] == d1.operands;
    assert ["AND"] + ["OR"] == d1.operators;
    assert [e1] + [o] == d2.operands;
    assert Reduce(d1) == Ok(d2);
    ReduceTop([], [], e1, o, "AND");
    assert [] + [e1, o] == d2.operands;
    assert Reduce(d2) == Ok(d3);
    assert Drain(d2) == Drain(d3);
    assert Drain(d1) == Drain(d2);
  }

  /** `a=x AND b=y OR c=z` groups as `a=x AND (b=y OR c=z)`: `OR` combines only
      the `=` under it and leaves `AND` pending, so the final drain nests `OR`
      under `AND`. */
  lemma AndOrGroupsRight(a: string, b: string, c: string, x: Value, y: Value, z: Value)
    requires IsOperand(TStr(a)) && IsOperand(TStr(b)) && IsOperand(TStr(c))
    ensures Compile([TStr(a), TStr("="), TNum(x), TStr("AND"),
                     TStr(b), TStr("="), TNum(y), TStr("OR"),
                     TStr(c), TStr("="), TNum(z)]) ==
      Ok(Some(BinOp("AND", BinOp("=", ColName(VStr(a)), Literal(x)),
                           BinOp("OR", BinOp("=", ColName(VStr(b)), Literal(y)),
                                       BinOp("=", ColName(VStr(c)), Literal(z))))))
  {
    AndOrStream(a, b, c, x, y, z);
    AndOrDrain(BinOp("=", ColName(VStr(a)), Literal(x)), BinOp("=", ColName(VStr(b)), Literal(y)), c, z);
  }

  /** `(` is pushed as a marker on the operator stack; nothing else moves. */
  lemma StepOpen(st: Stacks)
    ensures Step(st, TStr("(")) == Ok(Stacks(st.operands, st.operators + ["("]))
  {
    assert Upper("(") == "(";
  }

  /** An unmatched `(` is not dropped: the final drain combines it like an
      operator. In `(a = 1` the `=` uses up both operands, so combining the
      `(` pops an empty stack and the clause raises. */
  lemma UnmatchedOpenRaises(a: string, v: Value)
    requires IsOperand(TStr(a))
    ensures Compile([TStr("("), TStr(a), TStr("="), TNum(v)]) == Err
  {
    var s1 := Stacks([], ["("]);
    StepOpen(Empty);
    assert Empty.operators + ["("] == s1.operators;
    assert [TStr("("), TStr(a), TStr("="), TNum(v)] == [TStr("(")] + [TStr(a), TStr("="), TNum(v)];
    RunFromCons(Empty, TStr("("), [TStr(a), TStr("="), TNum(v)], s1);
    EqualityGroup(s1, a, v);
    var d0 := Stacks([Literal(VStr(a)), Literal(v)], ["(", "="]);
    var d1 := Stacks([BinOp("=", ColName(VStr(a)), Literal(v))], ["("]);
    assert s1.operands + [Literal(VStr(a)), Literal(v)] == d0.operands;
    assert s1.operators + ["="] == d0.operators;
    ReduceTop([], ["("], Literal(VStr(a)), Literal(v), "=");
    assert [] + [Literal(VStr(a)), Literal(v)] == d0.operands;
    assert Reduce(d0) == Ok(d1);
    assert Reduce(d1) == Err;
    assert Drain(d0) == Drain(d1) == Err;
  }

  /** The token loop over `a ( b` leaves both operands and the `(`. */
  lemma LeftoverOpenStream(a: string, b: string)
    requires IsOperand(TStr(a)) && IsOperand(TStr(b))
    ensures RunFrom(Empty, [TStr(a), TStr("("), TStr(b)]) ==
      Ok(Stacks([Literal(VStr(a)), Literal(VStr(b))], ["("]))
  {
    var s1 := Stacks([Literal(VStr(a))], []);
    var s2 := Stacks([Literal(VStr(a))], ["("]);
    var s3 := Stacks([Literal(VStr(a)), Literal(VStr(b))], ["("]);
    StepPushesOperand(Empty, TStr(a));
    assert Empty.operands + [Literal(VStr(a))] == s1.operands;
    assert [TStr(a), TStr("("), TStr(b)] == [TStr(a)] + [TStr("("), TStr(b)];
    RunFromCons(Empty, TStr(a), [TStr("("), TStr(b)], s1);
    StepOpen(s1);
    assert s1.operators + ["("] == s2.operators;
    assert [TStr("("), TStr(b)] == [TStr("(")] + [TStr(b)];
    RunFromCons(s1, TStr("("), [TStr(b)], s2);
    StepPushesOperand(s2, TStr(b));
    assert s2.operands + [Literal(VStr(b))] == s3.operands;
    assert [TStr(b)] == [TStr(b)] + [];
    RunFromCons(s2, TStr(b), [], s3);
  }

  /** With a spare operand below it, a leftover `(` becomes an operator node:
      `a ( b` compiles to a `(` node, which raises on every row because `(` is
      not a key of `OPS`. */
  lemma LeftoverOpenNode(a: string, b: string, row: Row)
    requires IsOperand(TStr(a)) && IsOperand(TStr(b))
    ensures Compile([TStr(a), TStr("("), TStr(b)]) == Ok(Some(BinOp("(", ColName(VStr(a)), Literal(VStr(b)))))
    ensures Eval(BinOp("(", ColName(VStr(a)), Literal(VStr(b))), row) == Err
  {
    LeftoverOpenStream(a, b);
    ReduceTop([], [], Literal(VStr(a)), Literal(VStr(b)), "(");
    assert [] + [Literal(VStr(a)), Literal(VStr(b))] == [Literal(VStr(a)), Literal(VStr(b))];
    assert [] + ["("] == ["("];
    var d := Stacks([BinOp("(", ColName(VStr(a)), Literal(VStr(b)))], []);
    assert Reduce(Stacks([Literal(VStr(a)), Literal(VStr(b))], ["("])) == Ok(d);
    assert Drain(d) == Ok(d);
  }

  // ---------------------------------------------------------------------
  // The final drain nests to the right

  /** A popped left operand: a bare literal becomes a column reference. */
  function AsLeft(n: Node): Node {
    if n.Literal? then ColName(n.value) else n
  }

  /** The tree the last-in first-out drain builds from operands `ns` and
      pending operators `ops`: the first operator is the root, its left child
      the first operand and its right child the nesting of the rest, so a
      chain groups to the right. */
  function Nest(ns: seq<Node>, ops: seq<string>): Node
    requires |ns| == |ops| + 1
    decreases |ops|
  {
    if ops == [] then ns[0]
    else BinOp(ops[0], AsLeft(ns[0]), Nest(ns[1..], ops[1..]))
  }

  /** Combining the last two operands under the last operator first, then
      nesting the rest, builds the same tree as `Nest`. */
  lemma {:induction false} NestSnoc(ns: seq<Node>, ops: seq<string>)
    requires |ns| == |ops| + 1 && |ops| >= 1
    ensures var k := |ns|;
      Nest(ns[..k - 2] + [BinOp(ops[|ops| - 1], AsLeft(ns[k - 2]), ns[k - 1])], ops[..|ops| - 1]) == Nest(ns, ops)
    decreases |ops|
  {
    var k := |ns|;
    var b := BinOp(ops[|ops| - 1], AsLeft(ns[k - 2]), ns[k - 1]);
    var l := ns[..k - 2] + [b];
    if |ops| == 1 {
      assert l == [b];
      assert ns[1..] == [ns[1]];
    } else {
      var ns' := ns[1..];
      var ops' := ops[1..];
      NestSnoc(ns', ops');
      assert l[0] == ns[0];
      assert l[1..] == ns'[..|ns'| - 2] + [b];
      assert ops[..|ops| - 1][1..] == ops'[..|ops'| - 1];
      assert ops[..|ops| - 1][0] == ops[0];
    }
  }

  /** The final drain of `ops` over the top `|ops| + 1` operands replaces them
      by `Nest(ns, ops)` and leaves the operands below untouched. */
  lemma {:induction false} DrainNests(base: seq<Node>, ns: seq<Node>, ops: seq<string>)
    requires |ns| == |ops| + 1
    ensures Drain(Stacks(base + ns, ops)) == Ok(Stacks(base + [Nest(ns, ops)], []))
    decreases |ops|
  {
    if ops == [] {
      assert ns == [ns[0]];
    } else {
      var k := |ns|;
      var op := ops[|ops| - 1];
      var b := BinOp(op, AsLeft(ns[k - 2]), ns[k - 1]);
      var ns' := ns[..k - 2] + [b];
      var ops' := ops[..|ops| - 1];
      ReduceTop(base + ns[..k - 2], ops', ns[k - 2], ns[k - 1], op);
      assert base + ns[..k - 2] + [ns[k - 2], ns[k - 1]] == base + ns;
      assert ops' + [op] == ops;
      assert base + ns[..k - 2] + [b] == base + ns';
      assert Reduce(Stacks(base + ns, ops)) == Ok(Stacks(base + ns', ops'));
      DrainNests(base, ns', ops');
      NestSnoc(ns, ops);
    }
  }

  /** The token stream `x0 op0 x1 op1 ... xn`. */
  function Interleave(xs: seq<Token>, ops: seq<string>): seq<Token>
    requires |xs| == |ops| + 1
    decreases |ops|
  {
    if ops == [] then [xs[0]]
    else [xs[0], TStr(ops[0])] + Interleave(xs[1..], ops[1..])
  }

  /** The literals the operand tokens `xs` are pushed as. */
  function Lits(xs: seq<Token>): seq<Node> {
    seq(|xs|, i requires 0 <= i < |xs| => Literal(TokenValue(xs[i])))
  }

  /** A last operand is pushed as a literal. */
  lemma ChainLast(st: Stacks, x: Token)
    requires IsOperand(x)
    ensures RunFrom(st, [x]) == Ok(Stacks(st.operands + [Literal(TokenValue(x))], st.operators))
  {
    var s1 := Stacks(st.operands + [Literal(TokenValue(x))], st.operators);
    StepPushesOperand(st, x);
    RunFromCons(st, x, [], s1);
    assert [x] + [] == [x];
    assert RunFrom(s1, []) == Ok(s1);
  }

  /** An operand followed by an operator that does not bind looser than the
      pending top pushes both. */
  lemma ChainHead(st: Stacks, x: Token, op: string, rest: seq<Token>)
    requires IsOperand(x) && op in OpNames
    requires !ReducesBefore(st, op)
    ensures RunFrom(st, [x, TStr(op)] + rest) ==
      RunFrom(Stacks(st.operands + [Literal(TokenValue(x))], st.operators + [op]), rest)
  {
    var s1 := Stacks(st.operands + [Literal(TokenValue(x))], st.operators);
    var s2 := Stacks(s1.operands, st.operators + [op]);
    StepPushesOperand(st, x);
    StepPushesOperator(s1, op);
    assert [x, TStr(op)] + rest == [x] + ([TStr(op)] + rest);
    RunFromCons(st, x, [TStr(op)] + rest, s1);
    RunFromCons(s1, TStr(op), rest, s2);
  }

  /** Every token of `xs` is an operand. */
  predicate AllOperands(xs: seq<Token>) {
    forall i :: 0 <= i < |xs| ==> IsOperand(xs[i])
  }

  /** Every name of `ops` is a key of `OPS` with precedence `p`. */
  predicate AllAtPrecedence(ops: seq<string>, p: nat) {
    forall i :: 0 <= i < |ops| ==> ops[i] in OpNames && Precedence(ops[i]) == p
  }

  /** No operator of precedence `p` combines the top of `st` on arrival. */
  predicate NoTighterTop(st: Stacks, p: nat) {
    st.operators == [] || Top(st.operators) == "(" || Precedence(Top(st.operators)) <= p
  }

  lemma InterleaveCons(xs: seq<Token>, ops: seq<string>)
    requires |xs| == |ops| + 1 && ops != []
    ensures Interleave(xs, ops) == [xs[0], TStr(ops[0])] + Interleave(xs[1..], ops[1..])
  {
  }

  lemma LitsCons(xs: seq<Token>)
    requires xs != []
    ensures Lits(xs) == [Literal(TokenValue(xs[0]))] + Lits(xs[1..])
  {
    assert forall i :: 0 <= i < |xs[1..]| ==> Lits(xs[1..])[i] == Lits(xs)[i + 1];
  }

  lemma ChainTails(xs: seq<Token>, ops: seq<string>, p: nat)
    requires xs != [] && ops != []
    requires AllOperands(xs) && AllAtPrecedence(ops, p)
    ensures AllOperands(xs[1..]) && AllAtPrecedence(ops[1..], p)
    ensures IsOperand(xs[0]) && ops[0] in OpNames && Precedence(ops[0]) == p
  {
    forall i | 0 <= i < |xs[1..]| ensures IsOperand(xs[1..][i]) {
      assert xs[1..][i] == xs[i + 1];
    }
    forall i | 0 <= i < |ops[1..]| ensures ops[1..][i] in OpNames && Precedence(ops[1..][i]) == p {
      assert ops[1..][i] == ops[i + 1];
    }
  }

  lemma SnocThenRest<T>(a: seq<T>, s: seq<T>)
    requires s != []
    ensures (a + [s[0]]) + s[1..] == a + s
  {
    assert [s[0]] + s[1..] == s;
  }

  /** Operators of one precedence never combine on arrival: none binds
      strictly tighter than the one below it, so the token loop only pushes. */
  lemma {:induction false} ChainPushes(st: Stacks, xs: seq<Token>, ops: seq<string>, p: nat)
    requires |xs| == |ops| + 1
    requires AllOperands(xs) && AllAtPrecedence(ops, p) && NoTighterTop(st, p)
    ensures RunFrom(st, Interleave(xs, ops)) == Ok(Stacks(st.operands + Lits(xs), st.operators + ops))
    decreases |ops|
  {
    LitsCons(xs);
    if ops == [] {
      ChainLast(st, xs[0]);
      assert Lits(xs) == [Literal(TokenValue(xs[0]))];
      assert st.operators + ops == st.operators;
    } else {
      var l0 := Literal(TokenValue(xs[0]));
      var s2 := Stacks(st.operands + [l0], st.operators + [ops[0]]);
      ChainTails(xs, ops, p);
      assert !ReducesBefore(st, ops[0]);
      InterleaveCons(xs, ops);
      ChainHead(st, xs[0], ops[0], Interleave(xs[1..], ops[1..]));
      assert NoTighterTop(s2, p);
      ChainPushes(s2, xs[1..], ops[1..], p);
      SnocThenRest(st.operands, Lits(xs));
      SnocThenRest(st.operators, ops);
    }
  }

  /** A chain `x0 op0 x1 ... xn` whose operators share one precedence, such as
      `a AND b AND c`, compiles to `Nest`: it groups to the right,
      `x0 op0 (x1 op1 (... xn))`. */
  lemma ChainGroupsRight(xs: seq<Token>, ops: seq<string>, p: nat)
    requires |xs| == |ops| + 1
    requires AllOperands(xs) && AllAtPrecedence(ops, p)
    ensures Compile(Interleave(xs, ops)) == Ok(Some(Nest(Lits(xs), ops)))
  {
    ChainPushes(Empty, xs, ops, p);
    assert Empty.operands + Lits(xs) == Lits(xs) && Empty.operators + ops == ops;
    DrainNests([], Lits(xs), ops);
    assert [] + Lits(xs) == Lits(xs);
    assert [] + [Nest(Lits(xs), ops)] == [Nest(Lits(xs), ops)];
  }
}
