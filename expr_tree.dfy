/** The expression tree of expr_tree.py (duplicated in parser.py): literals,
    column references and binary operators, evaluated against one row. */
module ExprTree {
  import opened Wrappers
  import opened Values

  /** A row of the dataset: field name to value. */
  type Row = map<string, Value>

  /** The three node kinds. A column reference keeps the token it was made from,
      which is a number when a numeric literal stood on the left of an operator. */
  datatype Node =
    | Literal(value: Value)
    | ColName(name: Value)
    | BinOp(op: string, left: Node, right: Node)

  /** `evaluate(row)`: a literal gives its value; a column gives the row's field
      and raises when the row has no such key; an operator evaluates both
      children, left first, and only then applies `OPS[op]`. There is no
      short-circuit: evaluation succeeds only if every column the tree names,
      on either side of every operator, is a key of the row. */
  function Eval(n: Node, row: Row): (r: Result<Value>)
    ensures r.Ok? ==> forall k :: k in ColNames(n) ==> k.VStr? && k.s in row
    ensures n.BinOp? && n.op !in OpNames ==> r == Err
  {
    match n
    case Literal(v) => Ok(v)
    case ColName(k) => if k.VStr? && k.s in row then Ok(row[k.s]) else Err
    case BinOp(op, l, r) =>
      match Eval(l, row)
      case Err => Err
      case Ok(a) =>
        match Eval(r, row)
        case Err => Err
        case Ok(b) => ApplyOp(op, a, b)
  }

  /** The keys the tree refers to through column references. */
  function ColNames(n: Node): set<Value> {
    match n
    case Literal(_) => {}
    case ColName(k) => {k}
    case BinOp(_, l, r) => ColNames(l) + ColNames(r)
  }

  /** Evaluation reads the row only at the keys the tree names: two rows that
      agree there give the same outcome. */
  lemma {:induction false} EvalReadsOnlyColNames(n: Node, row1: Row, row2: Row)
    requires forall k :: k in ColNames(n) && k.VStr? ==>
      (k.s in row1 <==> k.s in row2) && (k.s in row1 ==> row1[k.s] == row2[k.s])
    ensures Eval(n, row1) == Eval(n, row2)
  {
    match n
    case Literal(_) =>
    case ColName(_) =>
    case BinOp(_, l, r) =>
      EvalReadsOnlyColNames(l, row1, row2);
      EvalReadsOnlyColNames(r, row1, row2);
  }

  /** A tree without column references evaluates the same on every row. */
  lemma EvalClosedTree(n: Node, row1: Row, row2: Row)
    requires ColNames(n) == {}
    ensures Eval(n, row1) == Eval(n, row2)
  {
    EvalReadsOnlyColNames(n, row1, row2);
  }
}
