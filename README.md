# Dice expression parser — a verified model

This project models the `DiceParser` class of `DiceParser.py`. The class reads a
dice-roll expression such as `4d6 + 2`, `if(1d20 > 10, 2d6, 0)` or
`ceil(3 * 2)` in four stages:

1. A character-level tokenizer moves a cursor (`index`) over the text (`roll`).
   It produces integer, operator, function, argument-separator and parenthesis
   tokens, each with the offset where it starts.
2. A shunting-yard converter turns the infix tokens into postfix order. It uses
   an output list, a stack, and a stack of remaining-argument counters for the
   function calls that are open. The operator table fixes each operator's
   precedence and associativity, and the function table fixes each function's
   argument count.
3. A stack evaluator computes the postfix form. The `d` operator rolls
   `count` dice of `sides` sides and records one trace line per roll.
4. A report is the text of the trace lines, then `Total: <value>`.

The modules follow that structure:

- `Tables`: the operator and function tables, and the two precedence tests of the
  pop loop (`Chains`, `Yields`).
- `Tokens`: tokens, character classes, the failure outcomes (one `Error`
  constructor per exception the code raises) and decimal text.
- `Lexer`: the tokenizer as pure functions (`SkipSpaces`, `RunEnd`, `NextToken`,
  `LexFrom`).
- `ShuntingYard`: the converter as pure functions over a `Frame` (the output, the
  stack and the counters). There is one function per branch of the main loop.
  `ConvertFrom` and `ToPostfix` drive them. The lemmas say what a conversion keeps.
- `Evaluator`: values, the postfix evaluation as functions (`EvalToken`, `Run`,
  `Report`, `EvalPostfix`) and as methods with the code's loops, and lemmas about them.
- `Parser`: the class `DiceParser`, with the `index` and `roll` fields its
  methods update. Each method is proved to compute the function that specifies
  it. Module-level methods give the converter's pop loops.
- `WorkedExamples`: whole expressions of a given shape, with any one-digit
  operands, traced through the tokenizer and the converter to their postfix
  form or their error.
- `EvaluationExamples`: expressions of a given shape evaluated end to end, to
  the text `evaluateInfix` returns or its error.

Values are `I(int)` or `B(bool)`. A comparison pushes a boolean. Arithmetic reads
a boolean as 1 or 0, and the total is written as `True` or `False`, as Python
does. Randomness is a parameter, `draw: (nat, int) -> int`. The k-th call of
`randint(1, sides)` made by an evaluation returns `draw(k, sides)`. Properties
that need real dice assume `InRange(draw)`.

Where the code and its documentation disagree, the model follows the code:

- An operator token is always one character long, even when a two-character
  name (`==`, `!=`, `>=`, `<=`) occurs at the cursor. So `1==2` fails with
  *Unknown Operator "="* at offset 1: `==` occurs at offset 1, so the operator
  branch is taken, but the token is only its first `=`, which is not in the table.
  `1>=2` fails differently: `>` is read alone, and then no name starts at `=2`,
  so it fails with *Unknown Token at 2*. The two-character table entries can
  never be used.
- Whitespace is skipped only while the cursor is before the last character.
  So input ending in whitespace never tokenizes.
- A die with `count <= 0` rolls nothing and totals 0. One with `count > 0` and
  `sides < 1` fails, as `randint(1, sides)` does.

## Model

| member | source | states |
|---|---|---|
| Tables.SymbolChains | DiceParser.py:113-116 | `d`, `<` and `>` cannot follow themselves: same precedence, both non-associative |
| Tables.PrecedenceOrder | DiceParser.py:113-121 | what `Chains` and `Yields` decide between two operators of the table: one of higher precedence on the stack is always emitted and one of lower never is; at equal precedence a left-associative incoming operator emits it, and two non-associative ones chain; no pair both chains and yields |
| Tables.EqualPrecedenceSameAssoc | DiceParser.py:7-20 | operators of equal precedence in the table have the same associativity |
| Tokens.NatToString | DiceParser.py:55-56 | the decimal text of a number is non-empty, all digits, without a leading zero |
| Tokens.DigitsRoundTrip | DiceParser.py:39 | reading back with `int()` what `str()` wrote gives the number again |
| Lexer.OperatorPrefix | DiceParser.py:143-144 | `MatchesName` over the operator table holds at an offset iff its character is one of `d^*/+-><`, or the text there starts with `==` or `!=` |
| Lexer.FunctionPrefix | DiceParser.py:143-144 | `MatchesName` over the function table holds at an offset iff the text there starts with `ceil`, `floor` or `if` |
| Lexer.NameStart | DiceParser.py:150-166 | a registered name never starts with whitespace, a digit, `,` or a parenthesis, so the branches of the tokenizer do not overlap |
| Lexer.SkipSpaces | DiceParser.py:136-141 | the cursor ends inside the text; only whitespace was skipped; it stops on a non-space or where `BeforeEnd` fails, on the last character |
| Lexer.RunEnd | DiceParser.py:151-153 | the cursor moves past the start over a maximal run of digits (or letters): every character inside is in the class, the next one is not |
| Lexer.ScanRun | DiceParser.py:150-162 | a digit or letter run becomes the token of its kind, covering exactly the run's text at its offset |
| Lexer.NextToken | DiceParser.py:146-171 | a token starts at the first non-skipped character and covers exactly its text. Integers are maximal digit runs. An operator is one character at which a registered operator name occurs. A function is a maximal letter run at which a function name occurs. An error names the offset, where nothing matches |
| Lexer.LexFrom | DiceParser.py:78-79 | every token read up to the end of the text is well-formed and starts inside the text |
| Lexer.TrailingSpaceFails | DiceParser.py:136-141 | input whose last character is whitespace always fails to tokenize, with UnknownToken |
| ShuntingYard.PopToParen | DiceParser.py:93-94 | the loop moves the stack's top entries, reversed, onto the output; what is left is a prefix of the stack, empty or with `(` on top, and nothing popped is `(` |
| ShuntingYard.PopToParenStopsAt | DiceParser.py:93-94 | the converse: with no `(` above offset n and a `(` (or the bottom) just below it, the loop pops exactly the entries above n |
| ShuntingYard.PopOperators | DiceParser.py:111-121 | the operator pop loop moves only operators that `t` yields to, and stops below an entry that is not an operator or does not yield. It fails only on reaching, under operators that yield, one that `t` cannot be chained with; the error names that operator, `t` and `t`'s offset |
| ShuntingYard.PopOperatorsStopsAt | DiceParser.py:111-121 | the converse: when the operators above offset n all yield to `t` and the loop stops below them, it pops exactly those, newest first |
| ShuntingYard.PopOperatorsMeetsChain | DiceParser.py:111-116 | the converse: an operator that `t` cannot be chained with, reached under operators that yield, makes the loop fail with an error naming it |
| ShuntingYard.Drain | DiceParser.py:128-132 | the final loop succeeds iff no `(` is left, then emits the stack reversed after the output; otherwise it names the topmost unclosed `(` |
| ShuntingYard.PushOperand | DiceParser.py:80-81 | an integer goes to the output and keeps the stack invariant |
| ShuntingYard.PushEntry | DiceParser.py:82-85 | a function or `(` goes on top of the stack with no output change; a function also pushes its argument count from the table; the stack invariant is kept |
| ShuntingYard.Flush | DiceParser.py:93-94 | flushing keeps the pending tokens, the integers on the output, the counters and the open parentheses, and leaves `(` or nothing on top |
| ShuntingYard.Separate | DiceParser.py:88-94 | `,` fails (Extra argument, at its offset) iff no call is open. Otherwise it flushes down to the innermost `(`, decrements the innermost counter and leaves the outer ones, and keeps the invariant and the pending tokens |
| ShuntingYard.CountArgument | DiceParser.py:92 | one argument fewer is outstanding for the innermost call; the outer counters are untouched |
| ShuntingYard.SeparateValue | DiceParser.py:88-94 | with a call open, `,` leaves exactly the flushed stacks with the innermost counter decremented |
| ShuntingYard.DropParen | DiceParser.py:101 | popping the `(` removes exactly one open parenthesis and nothing else |
| ShuntingYard.EndCall | DiceParser.py:106-107 | the function on top moves to the end of the output, its counter is popped, and the invariant is kept |
| ShuntingYard.EndGroup | DiceParser.py:102-107 | with a function on top, it fails with Not enough arguments (naming the function and its offset) iff its counter is above 1; otherwise the function is emitted and its counter popped. With no function on top nothing changes |
| ShuntingYard.FlushedEmpty | DiceParser.py:99-101 | the stack is empty after the pop loop of `)` iff no `(` was open |
| ShuntingYard.Close | DiceParser.py:98-107 | `)` fails on the empty stack iff no `(` is open. Otherwise it flushes to the `(`, drops it and ends the group as EndGroup does: a call below the `(` fails iff its counter is above 1, else it is emitted |
| ShuntingYard.CloseAt | DiceParser.py:98-107 | a `)` whose innermost `(` has a function below it pops down to the `(`, drops it and ends that call as EndGroup does |
| ShuntingYard.PushOperator | DiceParser.py:108-124 | an unknown operator fails with Unknown Operator. A known one fails only on reaching an operator it cannot be chained with, named in the error. On success the yielding operators are emitted and `t` is on top |
| ShuntingYard.OperatorStopsAt | DiceParser.py:108-122 | a known operator whose pop loop stops at offset n emits the entries above n, newest first, and is pushed |
| ShuntingYard.Step | DiceParser.py:80-126 | every branch of the main loop keeps the stack invariant, adds an operator or function to the pending tokens and an integer to the output. Integers and `(` never fail; a function fails iff it is not in the table |
| ShuntingYard.StepEffect | DiceParser.py:80-126 | the outcome of every branch: an integer is emitted; a known function (with its argument count) or `(` is pushed; `,` fails iff no call is open, else it flushes and counts one argument; `)` fails on the empty stack iff no `(` is open, else it ends its group; an unknown operator fails; a known one fails iff it reaches an operator it cannot be chained with, else it is pushed above the non-yielding entries |
| ShuntingYard.ConvertFrom | DiceParser.py:78-132 | the converter emits only integers, known operators and known functions |
| ShuntingYard.ToPostfix | DiceParser.py:70-134 | the postfix output consists of integers, known operators and known functions |
| ShuntingYard.ConvertConserves | DiceParser.py:78-132 | a successful conversion emits every integer, operator and function token of the input exactly once |
| ShuntingYard.ConvertKeepsIntOrder | DiceParser.py:78-132 | a successful conversion keeps the integers in input order |
| ShuntingYard.ConvertBalances | DiceParser.py:95-132 | a successful conversion never closes more parentheses than are open, and closes all of them |
| ShuntingYard.PostfixReordersTokens | DiceParser.py:70-134 | the postfix output is a permutation of the input's integers, operators and functions, with the integers in order, and the input's parentheses are balanced |
| ShuntingYard.LexErrorIsConvertError | DiceParser.py:78-79 | input that does not tokenize never converts |
| ShuntingYard.OnlyOneCharacterOperators | DiceParser.py:155-157 | every operator in a postfix output is one character long |
| ShuntingYard.DrainFacts | DiceParser.py:128-132 | the final loop hands every pending token to the output and emits no integer |
| Evaluator.BinaryOp | DiceParser.py:9-19 | the value of each operator on the operands read as integers: sum, difference, product, power for a non-negative exponent, and the six comparisons as booleans. `/`, and `^` with a negative exponent, fail: division by zero (or zero to a negative power), otherwise a non-integer result |
| Evaluator.ApplyFunction | DiceParser.py:24-26 | `ceil` gives the least integer not below its argument and `floor` the greatest not above it; `if` gives its second argument when the first is truthy, else its third |
| Evaluator.Draws | DiceParser.py:52-53 | a roll of n dice is n consecutive draws, numbered from k |
| Evaluator.Dice | DiceParser.py:51-54 | a roll fails iff there are dice but no sides (EmptyRange); otherwise it is max(count, 0) consecutive draws and their sum |
| Evaluator.RollDie | DiceParser.py:47-56 | `d` replaces its two operands by the total, appends one trace line and advances the draw counter by the dice rolled |
| Evaluator.IntTexts | DiceParser.py:56 | each draw is written as its decimal text |
| Evaluator.TokenEffect | DiceParser.py:37-59 | one postfix token fails iff it lacks operands or its value fails. Otherwise it takes Need(t) values, pushes one and keeps the stack below; only `d` adds a trace line and consumes draws |
| Evaluator.TokenValue | DiceParser.py:38-59 | the value each token of `EvalToken` pushes: an integer its digits' value; a function its value on the top arguments, which it pops; an operator other than `d` its BinaryOp value in place of its two operands; `d` exactly RollDie |
| Evaluator.Report | DiceParser.py:60-62 | the evaluation fails iff the final stack does not hold exactly one value |
| Evaluator.SumBounds | DiceParser.py:53-54 | in-range draws sum to between one and `sides` per die |
| Evaluator.DiceTotal | DiceParser.py:51-54 | with in-range draws, a roll totals between max(count, 0) and max(count, 0) * sides |
| Evaluator.RunTrace | DiceParser.py:37-59 | the loop `Run` keeps the trace it starts with, adds exactly one line per `d`, and never un-draws |
| Evaluator.NoDiceNoDraws | DiceParser.py:37-59 | without a `d`, the evaluation does not depend on the dice |
| Evaluator.RunStackDiscipline | DiceParser.py:37-59 | a successful evaluation found the operands of every token, and its stack size is FinalDepth; a stack-underflow failure means some token lacked operands |
| Evaluator.EvalPostfixDiscipline | DiceParser.py:37-62 | a successful evaluation had every operand it needed and ends with one value |
| Evaluator.OutputLines | DiceParser.py:63-66 | `Output` is the trace lines followed by the total line, joined by newlines |
| Evaluator.RunLinesNonEmpty | DiceParser.py:55-56 | every trace line `RollLine` writes is non-empty |
| Evaluator.EvalPostfixReport | DiceParser.py:60-67 | a successful `EvalPostfix` gives the text of one trace line per `d`, then `Total: ` and the one value left |
| Evaluator.RunAt | DiceParser.py:37-59 | `Run` from token i is that token's `EvalToken` step followed by the rest |
| Evaluator.RollDice | DiceParser.py:51-54 | the dice loop computes Dice |
| Evaluator.CallFunction | DiceParser.py:40-45 | a function token computes EvalToken: it applies the function to the top values, pops them and pushes the result |
| Evaluator.ThrowDice | DiceParser.py:47-56 | the `d` branch computes RollDie |
| Evaluator.ApplyOperator | DiceParser.py:46-59 | an operator token computes EvalToken, failing on a stack with fewer than two values |
| Evaluator.EvalStep | DiceParser.py:38-59 | one pass of the evaluation loop computes EvalToken |
| Evaluator.EvaluatePostfix | DiceParser.py:35-67 | the evaluation loop and report compute EvalPostfix |
| Parser.PopToOpenParen | DiceParser.py:93-94 | the loop computes PopToParen |
| Parser.PopYieldingOperators | DiceParser.py:111-121 | the loop computes PopOperators |
| Parser.DrainStack | DiceParser.py:128-132 | the loop computes Drain |
| Parser.HandleSeparator | DiceParser.py:88-94 | the `,` branch computes Separate |
| Parser.HandleClose | DiceParser.py:98-107 | the `)` branch computes Close |
| Parser.HandleOperator | DiceParser.py:108-124 | the operator branch computes PushOperator |
| Parser.HandleToken | DiceParser.py:80-126 | one pass of the main loop computes Step |
| Parser.EvaluationReport | DiceParser.py:33-67 | a successful `Evaluation` converted the expression, found every operand, and gives the text of one trace line per `d` and then the total |
| Parser.EvaluationWithoutDice | DiceParser.py:33-67 | an expression without `d` evaluates the same under any dice |
| Parser.DiceParser.constructor | DiceParser.py:29-31 | a new parser has cursor 0 and empty text |
| Parser.DiceParser.SkipWhitespace | DiceParser.py:139-141 | the cursor moves to SkipSpaces and the text is unchanged |
| Parser.DiceParser.ExtendRun | DiceParser.py:151-153 | the cursor moves to RunEnd and the text is unchanged |
| Parser.DiceParser.GetToken | DiceParser.py:146-171 | returns NextToken's token and leaves the cursor after it, or returns its error |
| Parser.DiceParser.InfixToPostfix | DiceParser.py:70-134 | stores the text and returns ToPostfix of it |
| Parser.DiceParser.EvaluateInfix | DiceParser.py:33-67 | leaves the text field holding the expression, and returns the conversion's error or the evaluation of the postfix form |
| WorkedExamples.OneDigit | DiceParser.py:150-154 | a digit not followed by a digit is an integer token of its own |
| WorkedExamples.OneOperator | DiceParser.py:155-157 | where an operator name occurs, its first character alone is the token |
| WorkedExamples.ConvertStep | DiceParser.py:78-79 | one turn of the main loop reads a token and steps the stacks |
| WorkedExamples.FailingTurn | DiceParser.py:78-126 | a failing step ends the conversion with its error |
| WorkedExamples.ChainStep | DiceParser.py:113-116 | an operator meeting one it chains with fails, naming both |
| WorkedExamples.SmallBinary | DiceParser.py:177 | a one-digit count, `d` and one-digit sides convert to count, sides, `d` |
| WorkedExamples.ChainedOperators | DiceParser.py:113-116 | `a d b d c` (and the same with `<` or `>`) fails at the second operator: it cannot be chained with the first |
| WorkedExamples.DoubleEqualsIsUnknown | DiceParser.py:155-157 | `a==b` fails with Unknown Operator `=` at offset 1 |
| WorkedExamples.GreaterEqualIsUnknownToken | DiceParser.py:155-170 | `a>=b` fails with Unknown Token at offset 2: `>` is read alone and no name starts at `=` before a digit |
| WorkedExamples.Arithmetic | DiceParser.py:178 | `a+b-c*d/e+f` converts to `a b + c d * e / - f +`: `+ -` and `* /` are left-associative and `* /` bind tighter than `+ -` |
| WorkedExamples.PowerGroupsRight | DiceParser.py:117-122 | `a^b^c` converts to `a b c ^ ^`: `^` is right-associative, so the second `^` is pushed above the first |
| WorkedExamples.IfConverts | DiceParser.py:82-107 | `if(a>b,c,e)` converts to `a b > c e if`: the first `,` flushes the condition, and the call is emitted at `)` |
| WorkedExamples.IfMissingArguments | DiceParser.py:102-105 | `if(a)` fails with Not enough arguments for `if` at offset 0 |
| WorkedExamples.CeilOfTwo | DiceParser.py:88-107 | `ceil(a,b)` converts to `a b ceil`: a counter below 1 (too many arguments) is accepted at `)` |
| EvaluationExamples.TotalOnly | DiceParser.py:60-66 | a final stack of one value with no trace lines gives the text `Total: ` and the value alone |
| EvaluationExamples.RunSplit | DiceParser.py:37-59 | the loop over a token sequence is the loop over a prefix, then over the rest from where the prefix left the machine, stopping at the first failure |
| EvaluationExamples.OperatorStep | DiceParser.py:46-59 | an operator other than `d` on a stack of exactly its two operands leaves its BinaryOp value alone on the stack, or fails with its error |
| EvaluationExamples.IfStep | DiceParser.py:40-45 | `if` on a stack of exactly its three arguments leaves the second when the first is truthy, else the third |
| EvaluationExamples.BinaryRun | DiceParser.py:37-67 | the postfix `a b op` of one-digit operands gives the text `Total: ` and the operator's value on the two digits, or fails with its error |
| EvaluationExamples.SmallEvaluation | DiceParser.py:33-67 | `a op b` for one-digit operands and any operator character but `d` evaluates to the operator's value on the two digits, or to its error |
| EvaluationExamples.SmallArithmetic | DiceParser.py:33-67 | `a op b` gives the text `Total: ` followed by a+b, a-b, a*b, a^b, or `True`/`False` for `>` and `<`; `a/b` fails with ZeroDivision when b = 0, else with a non-integer result |
| EvaluationExamples.IfRun | DiceParser.py:37-67 | the postfix `a b > c e if` gives the text `Total: c` when a > b, else `Total: e` |
| EvaluationExamples.IfSelects | DiceParser.py:33-67 | `if(a>b,c,e)` gives the text `Total: c` when a > b, else `Total: e` |
| EvaluationExamples.CeilRun | DiceParser.py:40-62 | the postfix `a b ceil` leaves two values and fails on the final stack size 2 |
| EvaluationExamples.CeilOfTwoFails | DiceParser.py:33-62 | `ceil(a,b)` converts but fails to evaluate: the final stack holds 2 values |
| EvaluationExamples.DieStep | DiceParser.py:47-66 | `d` on a stack of exactly its count and sides fails with an empty range iff there are dice but no sides; otherwise the report is the roll's trace line, then the total of the draws |
| EvaluationExamples.DieRun | DiceParser.py:37-67 | the postfix `a b d` fails with an empty range when a > 0 and b = 0; otherwise it gives the text `adb: total = draws`, then `Total: ` and the sum of the a draws |
| EvaluationExamples.SmallRoll | DiceParser.py:33-67 | `adb` evaluates as DieRun says: the empty-range failure, or the trace line of the roll and then the total of the draws |

## Left out

- Floating point: Python's `/` always gives a float, and so does `^` with a
  negative exponent. The model returns `NonIntegerResult` for these, or
  `ZeroDivision` for a zero divisor or a zero base. So the rest of such an
  expression, and the text of float totals such as `Total: -2.0`, are not
  modelled. For the same reason `ceil` and `floor` act on integer values only.
- Evaluator.BinaryOp: weaker than the source for `/` and negative `^`, for the
  reason above.
- The parse tests of the `__main__` block are not proved as literal strings.
  Proofs about literal inputs make the verifier unfold the definitions without
  bound. They are covered by shapes instead: `1+2-3*4/2+1` is an instance of
  WorkedExamples.Arithmetic, and `4d6` of WorkedExamples.SmallBinary.
- The evaluate test of `1+2-3*4/2+1` expects `Total: -2.0`, a float that comes
  from `/`. The model fails on `/` (see above), so this test is not modelled.
- The `__main__` test harness (lines 173-206) and `print(stack)` (line 61) are
  input/output.
- Randomness: `random.randint` is the parameter `draw`. The number of calls made
  so far is threaded through the evaluation.
- Exceptions become `Error` values carrying the data their messages show, not
  the message text or the exception class. Python's own errors are named after
  their cause: popping an empty list, too few arguments for a function, an
  empty range for `randint`, division by zero.
- The *Unknown Token Type* branch (line 125-126) cannot be reached: the
  tokenizer only produces the five token types, which `Kind` lists.
- Character classes are ASCII: `isdigit`, `isalpha` and `isspace` on other
  Unicode characters, and `int()` of non-ASCII digits, are not modelled.
- Parser.DiceParser.GetToken: after a failure the position of the cursor is not
  stated, and the model's converter never uses it.
- Parser.DiceParser.InfixToPostfix and Parser.DiceParser.EvaluateInfix: the
  final value of the cursor is not stated.
