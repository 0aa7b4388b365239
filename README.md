# sql-parse in Dafny

A model of the query compiler and executor of `sql-parse`, a small engine for
`SELECT <cols> FROM <table> [WHERE <expr>] [LIMIT <n>]` over a list of
dictionaries. The model covers these parts:

- **Scanners.** The lexical scanners of `parser.py`: `extract_op`,
  `extract_col_from_expr`, `extract_num`, `extract_cols`, `extract_table_name`
  and `extract_string_literal`. Each is a method with the source's `while`
  loop, proved equal to a specification over maximal character runs.
- **WHERE tokenizer.** `get_next_expr_token`, as a method. It has its loop and
  its two `for` loops over the reserved keywords and the keys of `OPS`.
- **Expression compiler.** `extract_expr`, reproduced as written. It keeps an
  operand stack and an operator stack. An incoming operator combines at most
  one pending operator, and only one of strictly higher precedence. The final
  drain is last-in first-out. A bare literal popped as a left operand becomes
  a column reference. The result is the bottom of the operand stack.
- **Statement state machine.** `parse`, as a method with the source's loop over
  `state`, `idx` and the clause variables. It is proved equal to `ParseFrom`,
  which repeats a single iteration, `Advance`.
- **Expression tree.** The node classes and their `evaluate`, from
  `expr_tree.py`. The node classes in `parser.py` are the same definition.
- **Executor.** `execute` from `executor.py`, identical to `parser.py:155-179`.
  It is a method with the source's loop and counter, proved equal to a
  recursive specification.
- **Value semantics.** The operator table `OPS`/`OP_PRECEDENCE`, with Python's
  comparison and truthiness rules.

Every Python exception (`ValueError`, `TypeError`, `KeyError`, `IndexError`)
is one outcome, `Err`. `float('inf')` as the default limit is `None`. Numbers
are `int` or exact `real`.

The model keeps the following behaviours of the code as they are written:

- **Operator reduction.** The textbook shunting-yard algorithm reduces with a
  `while` and `>=`, and groups to the left. This code uses an `if` and a strict
  `<` (`parser.py:320-321`), and groups to the right. So `a=1 AND b=2 OR c=3`
  compiles to `a=1 AND (b=2 OR c=3)`; `ExprCompiler.AndOrGroupsRight` states
  this. Operators of equal precedence never combine on arrival, and the final
  drain pops the last operator first, so `x0 op x1 op x2` compiles to
  `x0 op (x1 op x2)`. `ExprCompiler.DrainNests` and
  `ExprCompiler.ChainGroupsRight` state this for chains of any length.
- **Unmatched `(`.** An unmatched `(` is not dropped. The final drain combines
  it like an operator, and that uses up an operand pair. In the ordinary cases
  `(a = 1` and `a = 1 AND (b = 2`, the drain then pops an empty stack and the
  clause raises (`parser.py:355-356`); `ExprCompiler.UnmatchedOpenRaises`
  states this. A node whose operator is `(` is built only when a spare operand
  is left, as in `a ( b`. Evaluating that node raises, because `(` is not a key
  of `OPS`; `ExprCompiler.LeftoverOpenNode` states both.
- **Missing clauses.** A missing column list or table name is not rejected:
  `SELECT a` parses with no table name, and `Statement.NoFromNoTable` states
  that any statement without `FROM` that is accepted has none. Such a statement
  can still be rejected for another reason, as `SELECT a LIMIT x` is. The one
  missing clause that raises is a column list before FROM: the debug message
  joins `None`. In `execute`, a missing column list raises only once a row is
  included (`len(None)`).
- **Keyword states.** `NEXT_OP` accepts any word as the next state, `START`
  included. `START` re-enters the first state and rewrites the operation type.
  A word that names no state fails only when a further non-space character is
  read.
- **`AND` and `OR`.** They return one of their operands, as Python does. They
  are not restricted to booleans.
- **End of a WHERE clause.** The clause ends at the first falsy token: the end
  of the text, a reserved keyword, an empty word, the empty quoted literal
  `''`, or the number zero. Any
  string whose upper-case form is an operator name is an operator, a quoted
  `'or'` included.

## Model

| member | source | states |
|---|---|---|
| Values.StrLessTrichotomy | parser.py:5-6 | `<` on strings is a strict total order: exactly one of `a<b`, `a==b`, `b<a` |
| Values.CompareTrichotomy | parser.py:5-8 | `<` is defined in both directions exactly when both values are numbers or neither is; then exactly one of `<`, `=`, `>` holds; where `<` raises, `=` is false |
| Values.AndOrTruthiness | parser.py:9-10 | `AND` is truthy iff both operands are, `OR` iff either is |
| Values.PrecedenceTable | parser.py:4-20 | a name can be applied exactly when it is a key of `OPS`, the names that have a precedence |
| Values.ValueLess | parser.py:5-6 | `<` raises exactly between a string and a number; where it holds, the values are not equal |
| Values.Precedence | parser.py:13-20 | a name has a positive precedence exactly when it is a key of `OPS`; no precedence exceeds that of `=` and `!=` |
| Values.ApplyOp | parser.py:4-11 | a name outside `OPS` raises (`KeyError`); `=` and `!=` always give a boolean; `<` and `>` give a boolean and raise exactly between a string and a number; `AND` and `OR` never raise and return one of their operands |
| Chars.ToUpper | parser.py:193 | upper-casing maps `a`-`z` to `A`-`Z`, keeps every other character, and preserves being a letter |
| ExprTree.EvalReadsOnlyColNames | expr_tree.py:26-56 | evaluation reads the row only at the columns the tree names |
| ExprTree.Eval | expr_tree.py:26-56 | no short-circuit: a successful evaluation implies every named column, on either side of any operator, is a key of the row; a node whose operator is not a key of `OPS` raises |
| ExprTree.EvalClosedTree | expr_tree.py:41-42 | a tree with no column reference evaluates the same on every row |
| Scanners.RunEnd | parser.py:189-191 | the end of a run lies between its start and the end of the text |
| Scanners.RunEndIsMaximalRun | parser.py:189-191 | `RunEnd` is exactly the maximal run of the class: all inside are in the class, the next character is not |
| Scanners.ExtractOp | parser.py:182-193 | returns the upper-cased maximal run of letters at `idx` and the index just after it |
| Scanners.ExtractColFromExpr | parser.py:196-207 | returns the maximal run of letters, digits and `_` and the index just after it |
| Scanners.ExtractTableName | parser.py:250-256 | returns the maximal non-whitespace run, verbatim, and the index just after it |
| Scanners.Split | parser.py:244 | `split(",")` yields at least one piece, and no piece holds the separator |
| Scanners.JoinSplit | parser.py:244 | joining the pieces of a split with the same separator gives back the text |
| Scanners.StripNoSpace | parser.py:244 | `strip()` leaves text without whitespace unchanged |
| Scanners.NonEmptyStrippedLast | parser.py:244 | for comma-free, whitespace-free pieces, the kept columns are those of the prefix, plus the last piece when it is non-empty |
| Scanners.NonEmptyStrippedEntries | parser.py:244 | from comma-free, whitespace-free pieces, every column kept is non-empty, comma-free and whitespace-free |
| Scanners.NonEmptyStrippedKeepsAll | parser.py:244 | when no piece is empty the comprehension keeps every piece unchanged |
| Scanners.SplitPiecesNoSpace | parser.py:244 | the pieces of whitespace-free text are whitespace-free |
| Scanners.ColListEntries | parser.py:243-246 | a column list is `["*"]` or consists of non-empty, comma-free, whitespace-free names |
| Scanners.ColListRoundTrip | parser.py:243-244 | a whitespace-free run other than `*` whose comma-separated pieces are all non-empty comes back whole: joining its columns with `,` gives the run again |
| Scanners.ExtractCols | parser.py:231-247 | reads the maximal non-whitespace run, returns its column list and the index after it; `*` alone gives `["*"]` |
| Scanners.SplitDigits | parser.py:227 | the pieces of a digits-and-separator text are all digits |
| Scanners.NumScan | parser.py:210-228 | an accepted number consumes at least one character, stays in the text, and is a non-negative number |
| Scanners.IntOf | parser.py:228 | `int()` of a digit run fails exactly on the empty run |
| Scanners.FloatOf | parser.py:227 | `float()` of a run with one `.` fails exactly on `.` alone |
| Scanners.ExtractNum | parser.py:210-228 | the loop returns exactly `NumScan`, including the error at a second `.` |
| Scanners.NumScanReadsRun | parser.py:217-228 | an accepted number is the whole digits-and-dots run with at most one `.`; with none it is the integer its digits spell |
| Scanners.DecimalText | parser.py:228 | the decimal text of a number is non-empty and all digits |
| Scanners.DecimalTextRoundTrip | parser.py:228 | `int(str(n)) == n` |
| Scanners.NumScanReadsDecimal | parser.py:210-228 | `extract_num` reads any written-out natural number back, stopping right after it |
| Scanners.SecondDotRejected | parser.py:220-222 | a second `.` in the run makes the scan fail |
| Scanners.NumRunPrefix | parser.py:217 | a prefix of the number run has no more dots than the run |
| Scanners.ExtractStringLiteral | parser.py:259-268 | returns the text up to the next quote of either kind and an index equal to start + length + 2, also for an unterminated literal |
| ExprTokens.FirstMatch | parser.py:296-302 | the result is a listed word that occurs at the position; `None` iff none does |
| ExprTokens.FirstMatchIsFirst | parser.py:296-302 | the result is the FIRST listed word that occurs there: no word listed before it occurs at the position |
| ExprTokens.FindWord | parser.py:296-302 | the `for` loop returns the first listed word occurring at `i` |
| ExprTokens.TokenAt | parser.py:282-304 | a token ends at most one past the text (an unterminated string literal); a truthy token consumes input |
| ExprTokens.WordAt | parser.py:294-304 | a keyword stop does not move the cursor; a truthy word ends inside the text |
| ExprTokens.OperandAt | parser.py:300-304 | a truthy operator or word consumes input and ends inside the text |
| ExprTokens.NextToken | parser.py:270-307 | the cursor never moves back; a truthy token is read from inside the text and consumes input |
| ExprTokens.GetNextExprToken | parser.py:270-307 | the method, its whitespace loop and its keyword and operator loops return exactly `NextToken` |
| ExprTokens.ReadToken | parser.py:282-304 | the branches at a non-space character return exactly `TokenAt` |
| ExprTokens.ReadWord | parser.py:294-304 | the keyword loop, then the operator loop, then the word scanner return exactly `WordAt` |
| ExprTokens.ReadOperand | parser.py:300-304 | the operator loop, then the word scanner return exactly `OperandAt` |
| ExprTokens.NoneMeansClauseEnd | parser.py:276-307 | the tokenizer returns `None` iff only whitespace remains or a reserved keyword starts after it, in any case; it then stops before the keyword |
| ExprTokens.OperatorsAreCanonical | parser.py:300-302 | an unquoted operator token is one of `OPS` in upper case and advances the cursor by its length |
| ExprTokens.UpperSliceStarts | parser.py:297 | the upper-cased slice of the text occurs at its position in the upper-cased text |
| ExprTokens.LexFrom | parser.py:317-351 | the cursor never moves back over a clause's tokens |
| ExprTokens.Resume | parser.py:351 | the cursor never moves back after a token |
| ExprTokens.LexTokensTruthy | parser.py:318 | every token the compiler consumes is truthy: the loop stops at the first falsy one |
| ExprCompiler.Reduce | parser.py:322-330 | a reduction fails iff fewer than two operands; it pops one operator and replaces the top two operands by one |
| ExprCompiler.ExprSpec | parser.py:310-366 | the WHERE clause never moves the cursor back |
| ExprCompiler.ResumeCompileStep | parser.py:318-351 | one iteration of the token loop: a failing step fails the clause, otherwise the clause continues from the next token |
| ExprCompiler.Combine | parser.py:322-330 | the pops and the push of a reduction compute `Reduce` |
| ExprCompiler.ApplyToken | parser.py:319-350 | the body of the token loop, including the inner `)` loop, computes `Step` |
| ExprCompiler.ExtractExpr | parser.py:310-366 | the method, with its token loop and drain loop, returns exactly `ExprSpec` |
| ExprCompiler.ReduceShaped | parser.py:322-330 | a reduction keeps the stacks shaped |
| ExprCompiler.CloseParenShaped | parser.py:334-348 | `)` keeps the stacks shaped |
| ExprCompiler.DrainShaped | parser.py:354-362 | the final drain keeps the stacks shaped |
| ExprCompiler.StepShaped | parser.py:319-350 | every token keeps the stacks shaped |
| ExprCompiler.RunFromShaped | parser.py:318-351 | the token loop keeps the stacks shaped |
| ExprCompiler.CompileShaped | parser.py:326-327 | in every compiled tree a column reference occurs only as a left child, a bare literal is never a left child, and every operator is a key of `OPS` or a leftover `(` |
| ExprCompiler.ReduceLeaves | parser.py:322-330 | a reduction keeps the operands' leaves in order |
| ExprCompiler.CloseParenLeaves | parser.py:334-348 | `)` keeps the operands' leaves in order |
| ExprCompiler.DrainLeaves | parser.py:354-362 | the drain keeps the operands' leaves in order |
| ExprCompiler.StepLeaves | parser.py:319-350 | an operand token appends its value to the leaves; any other token leaves them as they were |
| ExprCompiler.RunFromLeaves | parser.py:318-351 | the token loop appends the operand tokens' values to the leaves, in stream order |
| ExprCompiler.AllLeavesFirst | parser.py:364-365 | the leaves of the bottom operand come first |
| ExprCompiler.AllLeavesEmpty | parser.py:364-366 | there are no leaves iff the operand stack is empty |
| ExprCompiler.CompileKeepsOperandOrder | parser.py:310-366 | nothing is reordered: the tree's leaves are a prefix of the clause's operands in order, and there is no tree iff the clause has no operand |
| ExprCompiler.Drain | parser.py:354-362 | a successful drain leaves no operator and no more operands than before |
| ExprCompiler.DrainCount | parser.py:354-362 | the drain succeeds iff there is no operator or more operands than operators; it empties the operators and removes one operand per operator |
| ExprCompiler.AboveOpen | parser.py:336 | the operators above the nearest `(` are at most all of them |
| ExprCompiler.CloseParenCount | parser.py:334-348 | `)` combines exactly the operators above the nearest `(`, then drops that `(`; it fails iff operands run out |
| ExprCompiler.OperatorReducesAtMostOnce | parser.py:319-331 | an incoming operator combines at most one pending operator, only one of strictly higher precedence, and is then pushed in upper case |
| ExprCompiler.StepPushesOperator | parser.py:319-331 | an operator that does not bind looser than the top is pushed without combining |
| ExprCompiler.RunFromAppend | parser.py:318-351 | the token loop over `a + b` is the loop over `a`, then over `b` |
| ExprCompiler.EqualityGroup | parser.py:319-350 | `col = v` pushes two literals and `=`, combining nothing pending (for any value `v`, a superset of the number tokens) |
| ExprCompiler.AndOrGroupsRight | parser.py:319-362 | `a=x AND b=y OR c=z` compiles to `a=x AND (b=y OR c=z)` |
| ExprCompiler.DrainNests | parser.py:354-362 | draining `k` pending operators over the top `k + 1` operands replaces them by one tree nested to the right, the first operator at the root (`Nest`), each literal left operand turned into a column, and leaves the operands below untouched |
| ExprCompiler.NestSnoc | parser.py:357-361 | combining the last two operands under the last operator and nesting the rest builds the same right-nested tree |
| ExprCompiler.ChainPushes | parser.py:318-351 | in an operand/operator chain whose operators share one precedence, no arriving operator combines anything: every operand is pushed as a literal and every operator pushed in order |
| ExprCompiler.ChainGroupsRight | parser.py:310-366 | a chain `x0 op0 x1 ... xn` whose operators share one precedence compiles to the right-nested tree `x0 op0 (x1 op1 (... xn))` |
| ExprCompiler.UnmatchedOpenRaises | parser.py:354-356 | `(a = 1` raises: combining the leftover `(` finds fewer than two operands |
| ExprCompiler.LeftoverOpenNode | parser.py:354-362 | `a ( b` compiles to a node whose operator is `(`, and evaluating it raises on every row |
| Statement.Advance | parser.py:99-145 | every iteration moves the cursor forward, or keeps it and passes to a state of lower rank, so the loop ends |
| Statement.ParseFrom | parser.py:99-145 | the cursor never moves back, and the loop stops only at the end of the text or at a non-space character in state `END` |
| Statement.Parse | parser.py:85-152 | the method and its loop return exactly `ParseSpec` |
| Statement.ExprSpecShaped | parser.py:133-135 | a WHERE clause yields a shaped tree |
| Statement.AdvanceWellFormed | parser.py:99-145 | every iteration keeps the stored clauses well formed |
| Statement.ParseFromWellFormed | parser.py:99-145 | the whole loop keeps the stored clauses well formed |
| Statement.ParsedShape | parser.py:85-152 | an accepted statement is a SELECT; its columns are `["*"]` or clean names; a table name only follows a column list and is a non-space run starting with a letter or digit; the limit is non-negative; the filter is shaped |
| Statement.SkipSpaces | parser.py:102-103 | any run of spaces is skipped in any state |
| Statement.BlankRejected | parser.py:146-150 | a blank statement is rejected |
| Statement.NonLetterKeywordRejected | parser.py:105-113 | where a keyword is expected (`START` or `NEXT_OP`), a non-space character that is not a letter raises |
| Statement.LeadingNonLetterRejected | parser.py:105-113 | a first non-space character that is not a letter is rejected |
| Statement.UnknownKeywordState | parser.py:144-145 | in a state named by no keyword the machine fails at the next non-space character and stops without error at the end |
| Statement.AdvanceKeepsOpType | parser.py:105-111 | in a text without `START`, an iteration outside `START` keeps the operation type and does not enter `START` |
| Statement.OpTypeKept | parser.py:105-111 | outside `START`, with no `START` in the text, the operation type is never rewritten |
| Statement.AdvanceKeepsLimit | parser.py:105-140 | in a text without `LIMIT`, an iteration outside `LIMIT` keeps the limit and does not enter `LIMIT` |
| Statement.LimitKept | parser.py:99-145 | in a text without `LIMIT`, the loop never sets the limit |
| Statement.NoLimitUnbounded | parser.py:94-148 | without a `LIMIT` keyword an accepted statement has no limit (`float('inf')`) |
| Statement.AdvanceKeepsTable | parser.py:105-128 | in a text without `FROM`, an iteration outside `FROM` keeps the table name and does not enter `FROM` |
| Statement.TableKept | parser.py:99-145 | in a text without `FROM`, the loop never sets the table name |
| Statement.NoFromNoTable | parser.py:94-152 | a missing FROM clause is not rejected for that reason: without a `FROM` keyword an accepted statement has no table name |
| Statement.FirstWordDecides | parser.py:105-150 | when the first word is not `SELECT` and no `START` occurs, the statement is rejected |
| Statement.FalsyTokenEndsFilter | parser.py:317-318 | a falsy first token ends the WHERE clause with no tree |
| Statement.SelectStarFrom | parser.py:85-152 | `SELECT * FROM t` parses to the wildcard, table `t`, no limit, no filter |
| Statement.SelectWithoutFrom | parser.py:85-152 | `SELECT a` is accepted with no table name |
| Statement.StartReentersAfterZeroFilter | parser.py:105-111 | `WHERE 0 START SELECT *` is accepted as a SELECT with the wildcard |
| Executor.Project | executor.py:16-21 | the projection succeeds iff every requested column is in the row, and has exactly those keys with the row's values |
| Executor.ExecFrom | executor.py:8-23 | the loop emits at most one row per input row, and nothing once the count has reached the limit |
| Executor.ProjectRow | executor.py:16-21 | the column loop returns exactly `Project` |
| Executor.Execute | executor.py:5-25 | the method, its loop, counter and `break`, returns exactly `ExecFrom` |
| Executor.FilterRows | executor.py:11-12 | the filter keeps at most as many rows as there are |
| Executor.FilterRowsKeeps | executor.py:11-12 | the filter fails iff some row's evaluation fails; it keeps exactly the rows whose result is truthy |
| Executor.FilterRowsAppend | executor.py:8-12 | the filter keeps input order |
| Executor.EmitAll | executor.py:13-21 | emitting a list succeeds iff every row can be emitted, and emits each row in place |
| Executor.Taken | executor.py:9-10 | the rows taken are at most those available, all taken below the limit, and taking stops only at the limit or the end |
| Executor.NoLimitIsMatches | executor.py:5-25 | with no limit, `execute` is the filter followed by the projection of every kept row |
| Executor.LimitTakesPrefix | executor.py:8-23 | with a limit, `execute` returns the prefix of all matches that fits under the limit |
| Executor.OutputWithinLimit | executor.py:9-10 | every row is emitted while the count is below the limit |
| Executor.IntegerLimitBound | executor.py:9-10 | with a whole-number limit `n`, at most `n` rows come out |
| Executor.StopsAtLimit | executor.py:9-10 | once the count reaches the limit, later rows are neither evaluated nor projected and cannot change the outcome |
| Executor.ExcludedRowIrrelevant | executor.py:11-20 | a row the filter rejects has no effect: a column it lacks never raises |
| Executor.PlainScanMatches | executor.py:11-15 | with no filter and `["*"]` every row is kept and emitted as it is |
| Executor.PlainScanIsPrefix | executor.py:8-15 | `SELECT *` without WHERE returns the first rows of the data, as many as the limit lets through |
| Executor.EmittedRows | executor.py:13-22 | every emitted row is an input row (for `["*"]`), or has exactly the requested columns and is the projection of an input row |

## Left out

- `json2sql_cli.py`: argument parsing, file reading, `json.load`, the interactive loop, timing and `print` are I/O and are not modelled.
- `logging.debug` has no effect, except that `', '.join(cols)` raises when FROM comes before any column list; that one case is modelled as an error.
- Exception kinds: `ValueError`, `TypeError`, `KeyError` and `IndexError` are the single outcome `Err`.
- Floating point: `float()` and `float('inf')` are exact reals and `None`, so rounding is not modelled.
- Unicode: `isspace`, `isalpha`, `isnumeric`, `isalnum` and `upper` are their ASCII versions.
- `Node.evaluate` of the base class raises `NotImplementedError`; the model has no node kind without an `evaluate`, so that case does not arise.
- Object identity: `execute` with `["*"]` returns the input dictionaries themselves, so later mutation by a caller would be shared. Rows are values in the model, so aliasing is not captured. The model does capture that the data are never modified, because `Execute` modifies nothing.
- `Values.ValueEq`/`Values.ValueLess`: only `int`, `float`, `str` and `bool` values are modelled. Other JSON values, such as lists, dictionaries and `None`, are not.
- Column order of projected rows: Python dictionaries keep insertion order, so a projected row lists its keys in the order of the column list. A `map<string, Value>` has no order, so the model keeps the keys and values but not their order.
- The duplicates `expr_tree.py` and `executor.py` are modelled once, together with their copies in `parser.py:23-73` and `parser.py:155-179`.
