/** Field values and the operator table `OPS` / `OP_PRECEDENCE` of parser.py.
    Values follow Python: `bool` is a kind of `int`, so numbers and booleans
    compare numerically; floats are modelled as exact reals. */
module Values {
  import opened Wrappers

  datatype Value = VInt(i: int) | VFloat(r: real) | VStr(s: string) | VBool(b: bool)

  /** Python truthiness: zero, `0.0`, the empty string and `False` are false. */
  predicate Truthy(v: Value) {
    match v
    case VInt(n) => n != 0
    case VFloat(x) => x != 0.0
    case VStr(s) => s != ""
    case VBool(b) => b
  }

  predicate IsNumeric(v: Value) {
    !v.VStr?
  }

  function NumOf(v: Value): real
    requires IsNumeric(v)
  {
    match v
    case VInt(n) => n as real
    case VFloat(x) => x
    case VBool(b) => if b then 1.0 else 0.0
  }

  /** `a == b`: numeric equality among numbers, text equality among strings,
      and a string never equals a number. */
  predicate ValueEq(a: Value, b: Value) {
    if IsNumeric(a) && IsNumeric(b) then NumOf(a) == NumOf(b)
    else if a.VStr? && b.VStr? then a.s == b.s
    else false
  }

  /** Python's order on `str`: lexicographic by code point. */
  predicate StrLess(a: string, b: string)
    decreases |a|
  {
    if a == [] then b != []
    else if b == [] then false
    else if a[0] != b[0] then a[0] < b[0]
    else StrLess(a[1..], b[1..])
  }

  /** `a < b`; ordering a string against a number raises `TypeError`. */
  function ValueLess(a: Value, b: Value): (r: Result<bool>)
    ensures r.Ok? <==> IsNumeric(a) == IsNumeric(b)
    ensures r.Ok? && r.value ==> !ValueEq(a, b)
  {
    if IsNumeric(a) && IsNumeric(b) then Ok(NumOf(a) < NumOf(b))
    else if a.VStr? && b.VStr? then
      StrLessTrichotomy(a.s, b.s);
      Ok(StrLess(a.s, b.s))
    else Err
  }

  /** The keys of `OPS`, in the order the tokenizer tries them. */
  const OpNames: seq<string> := [">", "<", "=", "!=", "AND", "OR"]

  /** `OP_PRECEDENCE`; names outside the table get 0 (never looked up). */
  function Precedence(op: string): (p: nat)
    ensures p > 0 <==> op in OpNames
    ensures p <= 4
  {
    if op == "=" || op == "!=" then 4
    else if op == "<" || op == ">" then 3
    else if op == "AND" then 2
    else if op == "OR" then 1
    else 0
  }

  function BoolOf(r: Result<bool>): Result<Value> {
    match r
    case Ok(x) => Ok(VBool(x))
    case Err => Err
  }

  /** `OPS[op](a, b)`; a name that is not a key of `OPS` raises `KeyError`.
      `AND` and `OR` return one of their operands, as Python's `and`/`or` do. */
  function ApplyOp(op: string, a: Value, b: Value): (r: Result<Value>)
    ensures op !in OpNames ==> r == Err
    ensures op == "=" || op == "!=" ==> r.Ok? && r.value.VBool?
    ensures op == "<" || op == ">" ==> (r.Ok? <==> IsNumeric(a) == IsNumeric(b)) && (r.Ok? ==> r.value.VBool?)
    ensures op == "AND" || op == "OR" ==> r.Ok? && (r.value == a || r.value == b)
  {
    if op == ">" then BoolOf(ValueLess(b, a))
    else if op == "<" then BoolOf(ValueLess(a, b))
    else if op == "=" then Ok(VBool(ValueEq(a, b)))
    else if op == "!=" then Ok(VBool(!ValueEq(a, b)))
    else if op == "AND" then Ok(if Truthy(a) then b else a)
    else if op == "OR" then Ok(if Truthy(a) then a else b)
    else Err
  }

  /** Exactly one of `a < b`, `a == b`, `b < a` holds between two strings. */
  lemma {:induction false} StrLessTrichotomy(a: string, b: string)
    ensures StrLess(a, b) || a == b || StrLess(b, a)
    ensures !(StrLess(a, b) && StrLess(b, a))
    ensures !(StrLess(a, b) && a == b)
    decreases |a|
  {
    if a != [] && b != [] && a[0] == b[0] {
      StrLessTrichotomy(a[1..], b[1..]);
      if a[1..] == b[1..] {
        assert a == [a[0]] + a[1..] && b == [b[0]] + b[1..];
      }
    }
  }

  /** Between values of the same kind exactly one of `<`, `=`, `>` is true, so
      `!=` is the union of `<` and `>`; between a string and a number `<` and
      `>` raise and `=` is false. */
  lemma CompareTrichotomy(a: Value, b: Value)
    ensures (IsNumeric(a) == IsNumeric(b)) <==> ValueLess(a, b).Ok?
    ensures ValueLess(a, b).Ok? <==> ValueLess(b, a).Ok?
    ensures ValueLess(a, b).Ok? ==>
      (ValueLess(a, b).value || ValueEq(a, b) || ValueLess(b, a).value) &&
      !(ValueLess(a, b).value && ValueEq(a, b)) &&
      !(ValueLess(a, b).value && ValueLess(b, a).value)
    ensures !ValueLess(a, b).Ok? ==> !ValueEq(a, b)
  {
    if a.VStr? && b.VStr? {
      StrLessTrichotomy(a.s, b.s);
    }
  }

  /** `a > b` is `b < a`, and `!=` is the negation of `=`. */
  lemma ConverseOperators(a: Value, b: Value)
    ensures ApplyOp(">", a, b) == ApplyOp("<", b, a)
    ensures ApplyOp("=", a, b) == ApplyOp("=", b, a)
    ensures ApplyOp("!=", a, b) == Ok(VBool(!ApplyOp("=", a, b).value.b))
  {
  }

  /** `and` is truthy iff both operands are, `or` iff either is (that each
      returns one of its operands is part of `ApplyOp`'s contract). */
  lemma AndOrTruthiness(a: Value, b: Value)
    ensures ApplyOp("AND", a, b).Ok? && ApplyOp("OR", a, b).Ok?
    ensures Truthy(ApplyOp("AND", a, b).value) <==> Truthy(a) && Truthy(b)
    ensures Truthy(ApplyOp("OR", a, b).value) <==> Truthy(a) || Truthy(b)
  {
  }

  /** The names with a precedence (`Precedence`'s contract) are exactly the
      names that can be applied. */
  lemma PrecedenceTable(op: string)
    ensures op in OpNames <==> ApplyOp(op, VInt(0), VInt(0)).Ok?
  {
  }
}
