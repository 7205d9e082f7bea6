/** Expressions worked through the tokenizer, the converter and the evaluator. */
module WorkedExamples {
  import opened Tables
  import opened Tokens
  import opened Lexer
  import opened ShuntingYard
  import opened Evaluator
  import opened Parser

  /** A digit that is not followed by another digit is an integer token of its own. */
  lemma OneDigit(roll: string, i: nat)
    requires i < |roll| && IsDigit(roll[i]) && (i + 1 == |roll| || !IsDigit(roll[i + 1]))
    ensures NextToken(roll, i) == Ok((Token(IntTok, roll[i..i + 1], i), i + 1))
  {
    assert SkipSpaces(roll, i) == i;
    assert RunEnd(roll, i, Digits) == i + 1;
  }

  /** Where a registered operator occurs, its first character alone is an operator token. */
  lemma OneOperator(roll: string, i: nat)
    requires MatchesName(roll, Operators.Keys, i)
    ensures i < |roll| && NextToken(roll, i) == Ok((Token(OpTok, roll[i..i + 1], i), i + 1))
  {
    NameStart(roll, i);
    assert SkipSpaces(roll, i) == i;
  }

  /** An integer goes straight to the output. */
  lemma OperandStep(f: Frame, t: Token)
    requires Valid(f) && t.kind == IntTok && Lexical(t)
    ensures Step(f, t) == Ok(Frame(f.out + [t], f.stack, f.counts))
    ensures Valid(Frame(f.out + [t], f.stack, f.counts))
  {
  }

  /** An operator with no operator on top of the stack is pushed without popping anything. */
  lemma OperatorPushStep(f: Frame, t: Token)
    requires Valid(f) && t.kind == OpTok && Lexical(t) && t.val in Operators
    requires f.stack == [] || Last(f.stack).kind != OpTok
    ensures Step(f, t) == Ok(Frame(f.out, f.stack + [t], f.counts))
    ensures Valid(Frame(f.out, f.stack + [t], f.counts))
  {
  }

  /** One turn of the main loop: the token read at `i` moves the stacks from `f` to `g`. */
  lemma ConvertStep(roll: string, i: nat, f: Frame, t: Token, j: nat, g: Frame)
    requires i < |roll| && j <= |roll| && Valid(f) && Valid(g)
    requires NextToken(roll, i) == Ok((t, j)) && Step(f, t) == Ok(g)
    ensures ConvertFrom(roll, i, f) == ConvertFrom(roll, j, g)
  {
  }

  lemma StartValid()
    ensures Valid(Start)
  {
  }

  /** A lone digit at `i` moves to the output. */
  lemma DigitTurn(roll: string, i: nat, f: Frame, g: Frame)
    requires i < |roll| && IsDigit(roll[i]) && (i + 1 == |roll| || !IsDigit(roll[i + 1])) && Valid(f)
    requires g == Frame(f.out + [Token(IntTok, roll[i..i + 1], i)], f.stack, f.counts)
    ensures Valid(g) && ConvertFrom(roll, i, f) == ConvertFrom(roll, i + 1, g)
  {
    var t := Token(IntTok, roll[i..i + 1], i);
    OneDigit(roll, i);
    OperandStep(f, t);
    ConvertStep(roll, i, f, t, i + 1, g);
  }

  /** A one-character operator at `i` with no operator on top of the stack is pushed. */
  lemma OperatorTurn(roll: string, i: nat, f: Frame, g: Frame)
    requires i < |roll| && Symbol(roll[i]) && Valid(f) && (f.stack == [] || Last(f.stack).kind != OpTok)
    requires g == Frame(f.out, f.stack + [Token(OpTok, roll[i..i + 1], i)], f.counts)
    ensures Valid(g) && ConvertFrom(roll, i, f) == ConvertFrom(roll, i + 1, g)
  {
    var t := Token(OpTok, roll[i..i + 1], i);
    OperatorPrefix(roll, i);
    OneOperator(roll, i);
    assert roll[i..i + 1] == [roll[i]];
    SymbolIsOperator(roll[i]);
    OperatorPushStep(f, t);
    ConvertStep(roll, i, f, t, i + 1, g);
  }

  /** The token read at `i` fails the main loop with the error its step raises. */
  lemma FailingTurn(roll: string, i: nat, f: Frame, t: Token, j: nat)
    requires i < |roll| && Valid(f) && NextToken(roll, i) == Ok((t, j)) && Step(f, t).Err?
    ensures ConvertFrom(roll, i, f) == Err(Step(f, t).error)
  {
  }

  /** An operator meeting a stacked operator it cannot be chained with fails. */
  lemma ChainStep(f: Frame, t: Token)
    requires Valid(f) && t.kind == OpTok && Lexical(t) && t.val in Operators
    requires |f.stack| > 0 && Last(f.stack).kind == OpTok && Chains(t.val, Last(f.stack).val)
    ensures Step(f, t) == Err(CannotChain(t.val, Last(f.stack).val, t.at))
  {
  }

  /** The final loop emits a stack of one operator after the output. */
  lemma DrainOne(out: seq<Token>, t: Token)
    requires t.kind != Paren
    ensures Drain(out, [t]) == Ok(out + [t])
  {
    assert DropLast([t]) == [] && Last([t]) == t;
  }

  /**
   * A one-digit operand, a one-character operator and a one-digit operand
   * convert to the two operands followed by the operator, as "4d6" becomes "4 6 d".
   */
  lemma SmallBinary(roll: string)
    requires |roll| == 3 && IsDigit(roll[0]) && Symbol(roll[1]) && IsDigit(roll[2])
    ensures ToPostfix(roll) == Ok([Token(IntTok, roll[0..1], 0), Token(IntTok, roll[2..3], 2), Token(OpTok, roll[1..2], 1)])
  {
    var count, d, sides := Token(IntTok, roll[0..1], 0), Token(OpTok, roll[1..2], 1), Token(IntTok, roll[2..3], 2);
    var f := Frame([count, sides], [d], []);
    assert [count, sides] + [d] == [count, sides, d];
    OperandOperatorOperand(roll);
    ConvertEnd(roll, f);
    DrainOne([count, sides], d);
  }

  /** At the end of the input the main loop hands over to the final loop. */
  lemma ConvertEnd(roll: string, f: Frame)
    requires Valid(f)
    ensures ConvertFrom(roll, |roll|, f) == Drain(f.out, f.stack)
  {
  }

  /** The first three turns over a digit, an operator symbol and a digit. */
  lemma OperandOperatorOperand(roll: string)
    requires |roll| >= 3 && IsDigit(roll[0]) && Symbol(roll[1]) && IsDigit(roll[2])
    requires |roll| == 3 || !IsDigit(roll[3])
    ensures var f := Frame([Token(IntTok, roll[0..1], 0), Token(IntTok, roll[2..3], 2)], [Token(OpTok, roll[1..2], 1)], []);
      Valid(f) && ToPostfix(roll) == ConvertFrom(roll, 3, f)
  {
    var a, op, b := Token(IntTok, roll[0..1], 0), Token(OpTok, roll[1..2], 1), Token(IntTok, roll[2..3], 2);
    var f1, f2, f3 := Frame([a], [], []), Frame([a], [op], []), Frame([a, b], [op], []);
    assert Start.out + [a] == [a] && f1.stack + [op] == [op] && f2.out + [b] == [a, b];
    StartValid();
    DigitTurn(roll, 0, Start, f1);
    OperatorTurn(roll, 1, f1, f2);
    DigitTurn(roll, 2, f2, f3);
    assert ToPostfix(roll) == ConvertFrom(roll, 0, Start) == ConvertFrom(roll, 2, f2) == ConvertFrom(roll, 3, f3);
  }

  /**
   * Two equal non-associative operators between one-digit operands, as in
   * "1<2<3" or "1d2d3", fail when the second operator meets the first.
   */
  lemma ChainedOperators(roll: string)
    requires |roll| == 5 && IsDigit(roll[0]) && IsDigit(roll[2]) && IsDigit(roll[4])
    requires NonAssocSymbol(roll[1]) && roll[3] == roll[1]
    ensures ToPostfix(roll) == Err(CannotChain(roll[3..4], roll[1..2], 3))
  {
    var op := Token(OpTok, roll[1..2], 1);
    var f := Frame([Token(IntTok, roll[0..1], 0), Token(IntTok, roll[2..3], 2)], [op], []);
    assert Last(f.stack) == op && op.val == [roll[3]];
    OperandOperatorOperand(roll);
    ChainTurn(roll, 3, f);
  }

  /** A non-associative symbol at `i` meeting the same symbol on top of the stack fails the main loop. */
  lemma ChainTurn(roll: string, i: nat, f: Frame)
    requires i < |roll| && NonAssocSymbol(roll[i]) && Valid(f)
    requires |f.stack| > 0 && Last(f.stack).kind == OpTok && Last(f.stack).val == [roll[i]]
    ensures ConvertFrom(roll, i, f) == Err(CannotChain(roll[i..i + 1], Last(f.stack).val, i))
  {
    var t := Token(OpTok, roll[i..i + 1], i);
    assert roll[i..i + 1] == [roll[i]];
    OperatorPrefix(roll, i);
    OneOperator(roll, i);
    SymbolIsOperator(roll[i]);
    SymbolChains(roll[i]);
    ChainStep(f, t);
    FailingTurn(roll, i, f, t, i + 1);
  }

  /**
   * "==" is read as the operator token "=", which is not in the table: an
   * equality test between one-digit operands fails as an unknown operator.
   */
  lemma DoubleEqualsIsUnknown(roll: string)
    requires |roll| == 4 && IsDigit(roll[0]) && roll[1] == '=' && roll[2] == '=' && IsDigit(roll[3])
    ensures ToPostfix(roll) == Err(UnknownOperator("=", 1))
  {
    var a, eq := Token(IntTok, roll[0..1], 0), Token(OpTok, roll[1..2], 1);
    var f := Frame([a], [], []);
    assert Start.out + [a] == f.out && roll[1..2] == "=";
    StartValid();
    DigitTurn(roll, 0, Start, f);
    OperatorPrefix(roll, 1);
    OneOperator(roll, 1);
    HalfOperators();
    FailingTurn(roll, 1, f, eq, 2);
  }

  /** A ',' or a parenthesis is a token of its own. */
  lemma PunctuationToken(roll: string, i: nat)
    requires i < |roll| && (roll[i] == ',' || roll[i] == '(' || roll[i] == ')')
    ensures NextToken(roll, i) == Ok((Token(if roll[i] == ',' then ArgSep else Paren, [roll[i]], i), i + 1))
  {
    assert SkipSpaces(roll, i) == i;
    OperatorPrefix(roll, i);
    FunctionPrefix(roll, i);
    assert roll[i] != "ceil"[0] && roll[i] != "floor"[0] && roll[i] != "if"[0];
  }

  /** Function names are letters, and none starts like an operator. */
  lemma FunctionNameLetters(name: string)
    requires name in Functions
    ensures AllAlpha(name) && !Symbol(name[0]) && name[0] != '=' && name[0] != '!'
  {
    assert name == "ceil" || name == "floor" || name == "if";
    forall k | 0 <= k < |name| ensures IsAlpha(name[k]) {
      if k == 0 {} else if k == 1 {} else if k == 2 {} else if k == 3 {} else {}
    }
  }

  /** A function name at `i`, not followed by another letter, is a function token. */
  lemma FunctionToken(roll: string, i: nat, name: string)
    requires name in Functions && StartsWith(roll, name, i)
    requires i + |name| == |roll| || !IsAlpha(roll[i + |name|])
    ensures i < i + |name| <= |roll| && NextToken(roll, i) == Ok((Token(FuncTok, name, i), i + |name|))
  {
    var j: nat, t := i + |name|, Token(FuncTok, name, i);
    assert roll[i..j] == name;
    assert MatchesName(roll, Functions.Keys, i);
    NameStart(roll, i);
    FunctionNameLetters(name);
    assert roll[i] == name[0];
    OperatorPrefix(roll, i);
    forall k | i < k < j ensures IsAlpha(roll[k]) {
      assert roll[k] == name[k - i];
    }
    assert RunEnd(roll, i, Letters) == j;
    assert SkipSpaces(roll, i) == i;
  }

  /** A function token read at `i` is pushed with its argument count. */
  lemma FunctionTurn(roll: string, i: nat, j: nat, t: Token, f: Frame, g: Frame)
    requires i < j <= |roll| && NextToken(roll, i) == Ok((t, j)) && t.kind == FuncTok && t.val in Functions
    requires Valid(f) && g == Frame(f.out, f.stack + [t], f.counts + [Functions[t.val]])
    ensures Valid(g) && ConvertFrom(roll, i, f) == ConvertFrom(roll, j, g)
  {
    assert StackEntry(t) && PushCounts(f.counts, t) == g.counts;
    PushValid(f, t);
    ConvertStep(roll, i, f, t, j, g);
  }

  /** A '(' at `i` is pushed. */
  lemma OpenTurn(roll: string, i: nat, f: Frame, g: Frame)
    requires i < |roll| && roll[i] == '(' && Valid(f)
    requires g == Frame(f.out, f.stack + [Token(Paren, "(", i)], f.counts)
    ensures Valid(g) && ConvertFrom(roll, i, f) == ConvertFrom(roll, i + 1, g)
  {
    var t := Token(Paren, "(", i);
    PunctuationToken(roll, i);
    assert Step(f, t) == Ok(g);
    ConvertStep(roll, i, f, t, i + 1, g);
  }

  /**
   * A ',' at `i` inside a call emits the entries above the '(' at offset
   * `n` - 1 (or the whole stack) and counts one argument.
   */
  lemma SeparatorTurn(roll: string, i: nat, f: Frame, n: nat, g: Frame)
    requires i < |roll| && roll[i] == ',' && Valid(f) && |f.counts| > 0 && n <= |f.stack|
    requires (n == 0 || f.stack[n - 1].val == "(") && forall k | n <= k < |f.stack| :: f.stack[k].val != "("
    requires g == Frame(f.out + Reversed(f.stack[n..]), f.stack[..n], CountArgument(f.counts))
    ensures Valid(g) && ConvertFrom(roll, i, f) == ConvertFrom(roll, i + 1, g)
  {
    var t := Token(ArgSep, ",", i);
    PunctuationToken(roll, i);
    PopToParenStopsAt(f.out, f.stack, n);
    SeparateValue(f, t);
    ConvertStep(roll, i, f, t, i + 1, g);
  }

  /** What ')' at `i` sees: its '(' at offset `n` - 1 with a function right below it. */
  predicate CallCloses(roll: string, i: nat, f: Frame, n: nat) {
    i < |roll| && roll[i] == ')' && Valid(f) && ClosesCall(f, n) && |f.counts| > 0
  }

  /** A ')' at `i` whose call has all its arguments ends the call: the function goes to the output. */
  lemma CloseCallTurn(roll: string, i: nat, f: Frame, n: nat, g: Frame)
    requires CallCloses(roll, i, f, n) && Last(f.counts) <= 1
    requires g == Frame(f.out + Reversed(f.stack[n..]) + [f.stack[n - 2]], f.stack[..n - 2], DropLast(f.counts))
    ensures Valid(g) && ConvertFrom(roll, i, f) == ConvertFrom(roll, i + 1, g)
  {
    PunctuationToken(roll, i);
    CloseAt(f, Token(Paren, ")", i), n);
    ConvertStep(roll, i, f, Token(Paren, ")", i), i + 1, g);
  }

  /** A ')' at `i` whose call still misses arguments fails, naming the function and its offset. */
  lemma CloseCallFails(roll: string, i: nat, f: Frame, n: nat)
    requires CallCloses(roll, i, f, n) && Last(f.counts) > 1
    ensures ConvertFrom(roll, i, f) == Err(NotEnoughArguments(f.stack[n - 2].val, f.stack[n - 2].at))
  {
    PunctuationToken(roll, i);
    CloseAt(f, Token(Paren, ")", i), n);
    FailingTurn(roll, i, f, Token(Paren, ")", i), i + 1);
  }

  /**
   * A one-character operator at `i` emits the operators above offset `n`, all
   * of which yield to it, stops below them and is pushed.
   */
  lemma OperatorPopTurn(roll: string, i: nat, f: Frame, n: nat, g: Frame)
    requires i < |roll| && Symbol(roll[i]) && Valid(f) && n <= |f.stack|
    requires forall k | n <= k < |f.stack| :: f.stack[k].kind == OpTok && Yields(roll[i..i + 1], f.stack[k].val)
    requires StopsBelow(Token(OpTok, roll[i..i + 1], i), f.stack[..n])
    requires g == Frame(f.out + Reversed(f.stack[n..]), f.stack[..n] + [Token(OpTok, roll[i..i + 1], i)], f.counts)
    ensures Valid(g) && ConvertFrom(roll, i, f) == ConvertFrom(roll, i + 1, g)
  {
    var t := Token(OpTok, roll[i..i + 1], i);
    assert roll[i..i + 1] == [roll[i]];
    OperatorPrefix(roll, i);
    OneOperator(roll, i);
    SymbolIsOperator(roll[i]);
    OperatorStopsAt(f, t, n);
    ConvertStep(roll, i, f, t, i + 1, g);
  }

  lemma ReversedTwo(x: Token, y: Token)
    ensures Reversed([x]) == [x] && Reversed([x, y]) == [y, x]
  {
    assert DropLast([x, y]) == [x] && DropLast([x]) == [];
  }

  /** A one-digit operand at `i` after a one-character operator at `i` - 1 that pops the operators above offset `n`. */
  lemma OperatorDigit(roll: string, i: nat, f: Frame, n: nat, g: Frame)
    requires i + 1 < |roll| && Symbol(roll[i]) && IsDigit(roll[i + 1]) && (i + 2 == |roll| || !IsDigit(roll[i + 2]))
    requires Valid(f) && n <= |f.stack|
    requires forall k | n <= k < |f.stack| :: f.stack[k].kind == OpTok && Yields(roll[i..i + 1], f.stack[k].val)
    requires StopsBelow(Token(OpTok, roll[i..i + 1], i), f.stack[..n])
    requires g == Frame(f.out + Reversed(f.stack[n..]) + [Token(IntTok, roll[i + 1..i + 2], i + 1)],
                        f.stack[..n] + [Token(OpTok, roll[i..i + 1], i)], f.counts)
    ensures Valid(g) && ConvertFrom(roll, i, f) == ConvertFrom(roll, i + 2, g)
  {
    var h := Frame(f.out + Reversed(f.stack[n..]), f.stack[..n] + [Token(OpTok, roll[i..i + 1], i)], f.counts);
    OperatorPopTurn(roll, i, f, n, h);
    DigitTurn(roll, i + 1, h, g);
  }

  /** A ',' at `i` that flushes down to offset `n`, then a one-digit argument. */
  lemma SeparatorDigit(roll: string, i: nat, f: Frame, n: nat, g: Frame)
    requires i + 1 < |roll| && roll[i] == ',' && IsDigit(roll[i + 1]) && (i + 2 == |roll| || !IsDigit(roll[i + 2]))
    requires Valid(f) && |f.counts| > 0 && n <= |f.stack|
    requires (n == 0 || f.stack[n - 1].val == "(") && forall k | n <= k < |f.stack| :: f.stack[k].val != "("
    requires g == Frame(f.out + Reversed(f.stack[n..]) + [Token(IntTok, roll[i + 1..i + 2], i + 1)],
                        f.stack[..n], CountArgument(f.counts))
    ensures Valid(g) && ConvertFrom(roll, i, f) == ConvertFrom(roll, i + 2, g)
  {
    var h := Frame(f.out + Reversed(f.stack[n..]), f.stack[..n], CountArgument(f.counts));
    SeparatorTurn(roll, i, f, n, h);
    DigitTurn(roll, i + 1, h, g);
  }

  /** A function name at the start followed by '(': both are pushed, with the function's argument count. */
  lemma CallOpens(roll: string, name: string)
    requires name in Functions && |name| < |roll| && roll[..|name|] == name && roll[|name|] == '('
    ensures var fn, lp := Token(FuncTok, name, 0), Token(Paren, "(", |name|);
      var f := Frame([], [fn, lp], [Functions[name]]);
      Valid(f) && ToPostfix(roll) == ConvertFrom(roll, |name| + 1, f)
  {
    CallNameTurn(roll, name);
    CallParenTurn(roll, |name|, Token(FuncTok, name, 0), Functions[name]);
  }

  /** The '(' after the name of a call: it is stacked above the call. */
  lemma CallParenTurn(roll: string, i: nat, fn: Token, need: int)
    requires i < |roll| && roll[i] == '(' && Valid(Frame([], [fn], [need]))
    ensures Valid(Frame([], [fn, Token(Paren, "(", i)], [need]))
    ensures ConvertFrom(roll, i, Frame([], [fn], [need])) == ConvertFrom(roll, i + 1, Frame([], [fn, Token(Paren, "(", i)], [need]))
  {
    assert [fn] + [Token(Paren, "(", i)] == [fn, Token(Paren, "(", i)];
    OpenTurn(roll, i, Frame([], [fn], [need]), Frame([], [fn, Token(Paren, "(", i)], [need]));
  }

  /** The name of a call at the start of the input: it is stacked with its argument counter. */
  lemma CallNameTurn(roll: string, name: string)
    requires name in Functions && |name| < |roll| && roll[..|name|] == name && roll[|name|] == '('
    ensures var f := Frame([], [Token(FuncTok, name, 0)], [Functions[name]]);
      Valid(f) && ToPostfix(roll) == ConvertFrom(roll, |name|, f)
  {
    var fn := Token(FuncTok, name, 0);
    var f1 := Frame([], [fn], [Functions[name]]);
    assert roll[0..|name|] == name && StartsWith(roll, name, 0) && !IsAlpha(roll[|name|]);
    assert Start.stack + [fn] == [fn] && Start.counts + [Functions[name]] == f1.counts;
    StartValid();
    FunctionToken(roll, 0, name);
    FunctionTurn(roll, 0, |name|, fn, Start, f1);
  }

  /** `if(a)`: the call is closed with two of its three arguments missing. */
  lemma IfMissingArguments(roll: string)
    requires |roll| == 5 && roll[..2] == "if" && roll[2] == '(' && IsDigit(roll[3]) && roll[4] == ')'
    ensures ToPostfix(roll) == Err(NotEnoughArguments("if", 0))
  {
    var fn, lp, a := Token(FuncTok, "if", 0), Token(Paren, "(", 2), Token(IntTok, roll[3..4], 3);
    var f2, f3 := Frame([], [fn, lp], [3]), Frame([a], [fn, lp], [3]);
    assert f2.out + [a] == f3.out && ClosesCall(f3, 2);
    CallArities();
    CallOpens(roll, "if");
    assert ToPostfix(roll) == ConvertFrom(roll, 3, f2);
    DigitTurn(roll, 3, f2, f3);
    CloseCallFails(roll, 4, f3, 2);
  }

  /** `ceil(a,b)`: a second argument is not refused; it converts to `a b ceil`. */
  lemma CeilOfTwo(roll: string)
    requires |roll| == 9 && roll[..4] == "ceil" && roll[4] == '(' && IsDigit(roll[5]) && roll[6] == ','
    requires IsDigit(roll[7]) && roll[8] == ')'
    ensures ToPostfix(roll) == Ok([Token(IntTok, roll[5..6], 5), Token(IntTok, roll[7..8], 7), Token(FuncTok, "ceil", 0)])
  {
    CeilOpens(roll);
    CeilClose(roll, Token(IntTok, roll[5..6], 5), Token(IntTok, roll[7..8], 7));
  }

  /** `ceil(`: the call and its '(' are stacked with one argument expected. */
  lemma CeilStarts(roll: string)
    requires |roll| == 9 && roll[..4] == "ceil" && roll[4] == '('
    ensures var f5 := Frame([], [Token(FuncTok, "ceil", 0), Token(Paren, "(", 4)], [1]);
      Valid(f5) && ToPostfix(roll) == ConvertFrom(roll, 5, f5)
  {
    CallArities();
    CallOpens(roll, "ceil");
  }

  /** The arities of the two functions the worked examples call. */
  lemma CallArities()
    ensures "ceil" in Functions && Functions["ceil"] == 1 && "if" in Functions && Functions["if"] == 3
  {
  }

  /** `ceil(a,b` up to the ')': both arguments are emitted and counted. */
  lemma CeilOpens(roll: string)
    requires |roll| == 9 && roll[..4] == "ceil" && roll[4] == '(' && IsDigit(roll[5]) && roll[6] == ','
    requires IsDigit(roll[7]) && roll[8] == ')'
    ensures var fn, lp := Token(FuncTok, "ceil", 0), Token(Paren, "(", 4);
      var a, b := Token(IntTok, roll[5..6], 5), Token(IntTok, roll[7..8], 7);
      && Valid(Frame([] + [a] + [b], [fn, lp], [0]))
      && ToPostfix(roll) == ConvertFrom(roll, 8, Frame([] + [a] + [b], [fn, lp], [0]))
  {
    CeilStarts(roll);
    CeilArguments(roll);
  }

  /** The closing ')' of `ceil(a,b)` and the end of the input: the call is emitted after both arguments. */
  lemma CeilClose(roll: string, a: Token, b: Token)
    requires |roll| == 9 && roll[8] == ')'
    requires Valid(Frame([] + [a] + [b], [Token(FuncTok, "ceil", 0), Token(Paren, "(", 4)], [0]))
    ensures ConvertFrom(roll, 8, Frame([] + [a] + [b], [Token(FuncTok, "ceil", 0), Token(Paren, "(", 4)], [0]))
      == Ok([a, b, Token(FuncTok, "ceil", 0)])
  {
    var fn, o := Token(FuncTok, "ceil", 0), [] + [a] + [b];
    CloseOnly(roll, 8, o, fn, 4, 0);
    ConvertEnd(roll, Frame(o + [fn], [], []));
    CallOutput(a, b, fn);
  }

  /** The output of a call on two arguments as the turns build it, flattened. */
  lemma CallOutput(a: Token, b: Token, fn: Token)
    ensures [] + [a] + [b] + [fn] == [a, b, fn]
  {
  }

  /** The two arguments of `ceil(a,b)`: the ',' flushes nothing and counts the first one. */
  lemma CeilArguments(roll: string)
    requires |roll| == 9 && IsDigit(roll[5]) && roll[6] == ',' && IsDigit(roll[7]) && roll[8] == ')'
    requires Valid(Frame([], [Token(FuncTok, "ceil", 0), Token(Paren, "(", 4)], [1]))
    ensures var fn, lp := Token(FuncTok, "ceil", 0), Token(Paren, "(", 4);
      var a, b := Token(IntTok, roll[5..6], 5), Token(IntTok, roll[7..8], 7);
      && Valid(Frame([] + [a] + [b], [fn, lp], [0]))
      && ConvertFrom(roll, 5, Frame([], [fn, lp], [1])) == ConvertFrom(roll, 8, Frame([] + [a] + [b], [fn, lp], [0]))
  {
    var fn, lp := Token(FuncTok, "ceil", 0), Token(Paren, "(", 4);
    var a := Token(IntTok, roll[5..6], 5);
    var f5 := Frame([], [fn, lp], [1]);
    assert CountArgument([1]) == [0];
    DigitTurn(roll, 5, f5, Frame(f5.out + [a], f5.stack, f5.counts));
    ArgumentDigit(roll, 6, [] + [a], [fn, lp], [1]);
  }

  /** The precedence facts the arithmetic examples rely on. */
  lemma ArithmeticPrecedence()
    ensures Yields("-", "+") && Yields("+", "-") && Yields("/", "*") && Yields("+", "/")
    ensures !Yields("*", "-") && !Chains("*", "-") && !Yields("/", "-") && !Chains("/", "-")
    ensures !Yields("^", "^") && !Chains("^", "^") && !Yields(">", "(") && !Chains(">", "(")
  {
    assert Operators["+"] == OpSpec(2, Left) && Operators["-"] == OpSpec(2, Left);
    assert Operators["*"] == OpSpec(3, Left) && Operators["/"] == OpSpec(3, Left);
    assert Operators["^"] == OpSpec(4, Right) && "(" !in Operators;
  }

  /**
   * One operator at `i` that emits the operators `popped` stacked above
   * `below`, then a one-digit operand: the frame is written as its parts so
   * that consecutive turns compose without rearranging sequences.
   */
  lemma PopDigit(roll: string, i: nat, out: seq<Token>, below: seq<Token>, popped: seq<Token>, counts: seq<int>)
    requires i + 1 < |roll| && Symbol(roll[i]) && IsDigit(roll[i + 1]) && (i + 2 == |roll| || !IsDigit(roll[i + 2]))
    requires Valid(Frame(out, below + popped, counts))
    requires forall k | 0 <= k < |popped| :: popped[k].kind == OpTok && Yields(roll[i..i + 1], popped[k].val)
    requires StopsBelow(Token(OpTok, roll[i..i + 1], i), below)
    ensures var g := Frame(out + Reversed(popped) + [Token(IntTok, roll[i + 1..i + 2], i + 1)], below + [Token(OpTok, roll[i..i + 1], i)], counts);
      Valid(g) && ConvertFrom(roll, i, Frame(out, below + popped, counts)) == ConvertFrom(roll, i + 2, g)
  {
    var f := Frame(out, below + popped, counts);
    assert f.stack[|below|..] == popped && f.stack[..|below|] == below;
    OperatorDigit(roll, i, f, |below|,
      Frame(out + Reversed(popped) + [Token(IntTok, roll[i + 1..i + 2], i + 1)], below + [Token(OpTok, roll[i..i + 1], i)], counts));
  }

  /** As PopDigit, when the operator empties the stack. */
  lemma PopAllDigit(roll: string, i: nat, out: seq<Token>, popped: seq<Token>, counts: seq<int>)
    requires i + 1 < |roll| && Symbol(roll[i]) && IsDigit(roll[i + 1]) && (i + 2 == |roll| || !IsDigit(roll[i + 2]))
    requires Valid(Frame(out, popped, counts))
    requires forall k | 0 <= k < |popped| :: popped[k].kind == OpTok && Yields(roll[i..i + 1], popped[k].val)
    ensures var g := Frame(out + Reversed(popped) + [Token(IntTok, roll[i + 1..i + 2], i + 1)], [Token(OpTok, roll[i..i + 1], i)], counts);
      Valid(g) && ConvertFrom(roll, i, Frame(out, popped, counts)) == ConvertFrom(roll, i + 2, g)
  {
    var none: seq<Token> := [];
    assert none + popped == popped && none + [Token(OpTok, roll[i..i + 1], i)] == [Token(OpTok, roll[i..i + 1], i)];
    PopDigit(roll, i, out, none, popped, counts);
  }

  /** As PopDigit, when the operator emits nothing. */
  lemma PushDigit(roll: string, i: nat, out: seq<Token>, below: seq<Token>, counts: seq<int>)
    requires i + 1 < |roll| && Symbol(roll[i]) && IsDigit(roll[i + 1]) && (i + 2 == |roll| || !IsDigit(roll[i + 2]))
    requires Valid(Frame(out, below, counts)) && StopsBelow(Token(OpTok, roll[i..i + 1], i), below)
    ensures var g := Frame(out + [Token(IntTok, roll[i + 1..i + 2], i + 1)], below + [Token(OpTok, roll[i..i + 1], i)], counts);
      Valid(g) && ConvertFrom(roll, i, Frame(out, below, counts)) == ConvertFrom(roll, i + 2, g)
  {
    var none: seq<Token> := [];
    assert below + none == below && Reversed(none) == none && out + none == out;
    PopDigit(roll, i, out, below, none, counts);
  }

  /**
   * `a+b-c*d/e+f`: left-associative operators of equal precedence are emitted
   * in order and `*` and `/` bind tighter, giving `a b + c d * e / - f +`.
   */
  lemma Arithmetic(roll: string)
    requires |roll| == 11 && IsDigit(roll[0]) && IsDigit(roll[2]) && IsDigit(roll[4])
    requires IsDigit(roll[6]) && IsDigit(roll[8]) && IsDigit(roll[10])
    requires roll[1] == '+' && roll[3] == '-' && roll[5] == '*' && roll[7] == '/' && roll[9] == '+'
    ensures ToPostfix(roll) == Ok([
      Token(IntTok, roll[0..1], 0), Token(IntTok, roll[2..3], 2), Token(OpTok, "+", 1),
      Token(IntTok, roll[4..5], 4), Token(IntTok, roll[6..7], 6), Token(OpTok, "*", 5),
      Token(IntTok, roll[8..9], 8), Token(OpTok, "/", 7), Token(OpTok, "-", 3),
      Token(IntTok, roll[10..11], 10), Token(OpTok, "+", 9)])
  {
    var a, b, c, d := Token(IntTok, roll[0..1], 0), Token(IntTok, roll[2..3], 2), Token(IntTok, roll[4..5], 4), Token(IntTok, roll[6..7], 6);
    var e, f := Token(IntTok, roll[8..9], 8), Token(IntTok, roll[10..11], 10);
    var p, m, t, v, q := Token(OpTok, "+", 1), Token(OpTok, "-", 3), Token(OpTok, "*", 5), Token(OpTok, "/", 7), Token(OpTok, "+", 9);
    var o5 := [a, b] + Reversed([p]) + [c];
    var o7 := o5 + [d];
    var o9 := o7 + Reversed([t]) + [e];
    assert roll[1..2] == "+";
    OperandOperatorOperand(roll);
    MinusTurn(roll, [a, b]);
    TimesTurn(roll, o5);
    DivideTurn(roll, o7);
    LastPlusTurn(roll, o9);
    ArithmeticOutput(a, b, p, c, d, t, e, v, m, f, q);
    assert ToPostfix(roll) == ConvertFrom(roll, 3, Frame([a, b], [p], [])) == ConvertFrom(roll, 5, Frame(o5, [m], []))
      == ConvertFrom(roll, 7, Frame(o7, [m] + [t], [])) == ConvertFrom(roll, 9, Frame(o9, [m] + [v], []));
  }

  /** '-' after `a+b` emits the '+'. */
  lemma MinusTurn(roll: string, o: seq<Token>)
    requires |roll| == 11 && IsDigit(roll[4]) && !IsDigit(roll[5]) && roll[3] == '-'
    requires Valid(Frame(o, [Token(OpTok, "+", 1)], []))
    ensures var c, p, m := Token(IntTok, roll[4..5], 4), Token(OpTok, "+", 1), Token(OpTok, "-", 3);
      && Valid(Frame(o + Reversed([p]) + [c], [m], []))
      && ConvertFrom(roll, 3, Frame(o, [p], [])) == ConvertFrom(roll, 5, Frame(o + Reversed([p]) + [c], [m], []))
  {
    var p := Token(OpTok, "+", 1);
    assert roll[3..4] == "-";
    assert Yields("-", "+") by { ArithmeticPrecedence(); }
    assert forall k | 0 <= k < |[p]| :: [p][k].kind == OpTok && Yields(roll[3..4], [p][k].val);
    PopAllDigit(roll, 3, o, [p], []);
  }

  /** '*' after '-' stacks above it. */
  lemma TimesTurn(roll: string, o: seq<Token>)
    requires |roll| == 11 && IsDigit(roll[6]) && !IsDigit(roll[7]) && roll[5] == '*'
    requires Valid(Frame(o, [Token(OpTok, "-", 3)], []))
    ensures var d, m, t := Token(IntTok, roll[6..7], 6), Token(OpTok, "-", 3), Token(OpTok, "*", 5);
      && Valid(Frame(o + [d], [m] + [t], []))
      && ConvertFrom(roll, 5, Frame(o, [m], [])) == ConvertFrom(roll, 7, Frame(o + [d], [m] + [t], []))
  {
    assert roll[5..6] == "*";
    assert !Yields("*", "-") && !Chains("*", "-") by { ArithmeticPrecedence(); }
    PushDigit(roll, 5, o, [Token(OpTok, "-", 3)], []);
  }

  /** '/' after '*' emits the '*' and stacks above '-'. */
  lemma DivideTurn(roll: string, o: seq<Token>)
    requires |roll| == 11 && IsDigit(roll[8]) && !IsDigit(roll[9]) && roll[7] == '/'
    requires Valid(Frame(o, [Token(OpTok, "-", 3)] + [Token(OpTok, "*", 5)], []))
    ensures var e, m, t, v := Token(IntTok, roll[8..9], 8), Token(OpTok, "-", 3), Token(OpTok, "*", 5), Token(OpTok, "/", 7);
      && Valid(Frame(o + Reversed([t]) + [e], [m] + [v], []))
      && ConvertFrom(roll, 7, Frame(o, [m] + [t], [])) == ConvertFrom(roll, 9, Frame(o + Reversed([t]) + [e], [m] + [v], []))
  {
    var m, t := Token(OpTok, "-", 3), Token(OpTok, "*", 5);
    assert roll[7..8] == "/";
    assert Yields("/", "*") && !Yields("/", "-") && !Chains("/", "-") by { ArithmeticPrecedence(); }
    assert forall k | 0 <= k < |[t]| :: [t][k].kind == OpTok && Yields(roll[7..8], [t][k].val);
    PopDigit(roll, 7, o, [m], [t], []);
  }

  /** The final '+' emits '/' and '-'; the end of the input then emits the '+'. */
  lemma LastPlusTurn(roll: string, o: seq<Token>)
    requires |roll| == 11 && IsDigit(roll[10]) && roll[9] == '+'
    requires Valid(Frame(o, [Token(OpTok, "-", 3)] + [Token(OpTok, "/", 7)], []))
    ensures var f, m, v, q := Token(IntTok, roll[10..11], 10), Token(OpTok, "-", 3), Token(OpTok, "/", 7), Token(OpTok, "+", 9);
      ConvertFrom(roll, 9, Frame(o, [m] + [v], [])) == Ok(o + Reversed([m] + [v]) + [f] + [q])
  {
    var f, m, v, q := Token(IntTok, roll[10..11], 10), Token(OpTok, "-", 3), Token(OpTok, "/", 7), Token(OpTok, "+", 9);
    var o11 := o + Reversed([m] + [v]) + [f];
    assert roll[9..10] == "+";
    assert Yields("+", "-") && Yields("+", "/") by { ArithmeticPrecedence(); }
    assert forall k | 0 <= k < |[m] + [v]| :: ([m] + [v])[k].kind == OpTok && Yields(roll[9..10], ([m] + [v])[k].val);
    PopAllDigit(roll, 9, o, [m] + [v], []);
    ConvertEnd(roll, Frame(o11, [q], []));
    DrainOne(o11, q);
  }

  /** The output of `a+b-c*d/e+f` as the turns build it, flattened. */
  lemma ArithmeticOutput(a: Token, b: Token, p: Token, c: Token, d: Token, t: Token, e: Token, v: Token, m: Token, f: Token, q: Token)
    ensures [a, b] + Reversed([p]) + [c] + [d] + Reversed([t]) + [e] + Reversed([m] + [v]) + [f] + [q]
         == [a, b, p, c, d, t, e, v, m, f, q]
  {
    ReversedTwo(p, m);
    ReversedTwo(t, v);
    assert [m] + [v] == [m, v];
  }

  /** `a^b^c`: '^' is right-associative, so the second one stacks above the first, giving `a b c ^ ^`. */
  lemma PowerGroupsRight(roll: string)
    requires |roll| == 5 && IsDigit(roll[0]) && IsDigit(roll[2]) && IsDigit(roll[4]) && roll[1] == '^' && roll[3] == '^'
    ensures ToPostfix(roll) == Ok([Token(IntTok, roll[0..1], 0), Token(IntTok, roll[2..3], 2), Token(IntTok, roll[4..5], 4),
                                   Token(OpTok, "^", 3), Token(OpTok, "^", 1)])
  {
    var a, b, c := Token(IntTok, roll[0..1], 0), Token(IntTok, roll[2..3], 2), Token(IntTok, roll[4..5], 4);
    var p, q := Token(OpTok, "^", 1), Token(OpTok, "^", 3);
    assert roll[1..2] == "^";
    OperandOperatorOperand(roll);
    PowerTurn(roll, [a, b]);
    PowerOutput(a, b, c, p, q);
    assert ToPostfix(roll) == ConvertFrom(roll, 3, Frame([a, b], [p], []));
  }

  /** The second '^' stacks above the first; the end of the input emits both, the second first. */
  lemma PowerTurn(roll: string, o: seq<Token>)
    requires |roll| == 5 && IsDigit(roll[4]) && roll[3] == '^'
    requires Valid(Frame(o, [Token(OpTok, "^", 1)], []))
    ensures var c, p, q := Token(IntTok, roll[4..5], 4), Token(OpTok, "^", 1), Token(OpTok, "^", 3);
      ConvertFrom(roll, 3, Frame(o, [p], [])) == Ok(o + [c] + [q, p])
  {
    var c, p, q := Token(IntTok, roll[4..5], 4), Token(OpTok, "^", 1), Token(OpTok, "^", 3);
    assert roll[3..4] == "^";
    assert !Yields("^", "^") && !Chains("^", "^") by { ArithmeticPrecedence(); }
    PushDigit(roll, 3, o, [p], []);
    ConvertEnd(roll, Frame(o + [c], [p] + [q], []));
    DrainTwo(o + [c], p, q);
  }

  /** The output of `a^b^c` as the turns build it, flattened. */
  lemma PowerOutput(a: Token, b: Token, c: Token, p: Token, q: Token)
    ensures [a, b] + [c] + [q, p] == [a, b, c, q, p]
  {
  }

  /** The final loop emits a stack of two operators top first. */
  lemma DrainTwo(out: seq<Token>, x: Token, y: Token)
    requires x.kind != Paren && y.kind != Paren
    ensures Drain(out, [x] + [y]) == Ok(out + [y, x])
  {
    assert DropLast([x] + [y]) == [x] && Last([x] + [y]) == y && out + [y] + [x] == out + [y, x];
    DrainOne(out + [y], x);
  }

  /**
   * ">=" cannot be reached: the operator scan stops after ">", and the '='
   * left over is no token at all, so `a>=b` fails at offset 2.
   */
  lemma GreaterEqualIsUnknownToken(roll: string)
    requires |roll| == 4 && IsDigit(roll[0]) && roll[1] == '>' && roll[2] == '=' && IsDigit(roll[3])
    ensures ToPostfix(roll) == Err(UnknownToken(2))
  {
    var a, gt := Token(IntTok, roll[0..1], 0), Token(OpTok, roll[1..2], 1);
    var f1, f2 := Frame([a], [], []), Frame([a], [gt], []);
    assert Start.out + [a] == f1.out && f1.stack + [gt] == f2.stack;
    StartValid();
    DigitTurn(roll, 0, Start, f1);
    OperatorTurn(roll, 1, f1, f2);
    UnknownEquals(roll, 2);
    assert ToPostfix(roll) == ConvertFrom(roll, 0, Start) == ConvertFrom(roll, 1, f1) == ConvertFrom(roll, 2, f2);
  }

  /** A lone '=' before a digit starts no number, no operator, no name and no punctuation. */
  lemma UnknownEquals(roll: string, i: nat)
    requires i + 1 < |roll| && roll[i] == '=' && IsDigit(roll[i + 1])
    ensures NextToken(roll, i) == Err(UnknownToken(i))
  {
    assert SkipSpaces(roll, i) == i;
    OperatorPrefix(roll, i);
    FunctionPrefix(roll, i);
    HalfOperators();
    assert roll[i..i + 1] == "=" && roll[i] != "ceil"[0] && roll[i] != "floor"[0] && roll[i] != "if"[0];
  }

  /** A ',' that emits the operators `popped` down to the call's '(' on top of `below`, then a one-digit argument. */
  lemma SepDigit(roll: string, i: nat, out: seq<Token>, below: seq<Token>, popped: seq<Token>, counts: seq<int>)
    requires i + 1 < |roll| && roll[i] == ',' && IsDigit(roll[i + 1]) && (i + 2 == |roll| || !IsDigit(roll[i + 2]))
    requires Valid(Frame(out, below + popped, counts)) && |counts| > 0
    requires (below == [] || Last(below).val == "(") && forall k | 0 <= k < |popped| :: popped[k].val != "("
    ensures var g := Frame(out + Reversed(popped) + [Token(IntTok, roll[i + 1..i + 2], i + 1)], below, CountArgument(counts));
      Valid(g) && ConvertFrom(roll, i, Frame(out, below + popped, counts)) == ConvertFrom(roll, i + 2, g)
  {
    var f, n := Frame(out, below + popped, counts), |below|;
    assert f.stack[n..] == popped && f.stack[..n] == below;
    assert n == 0 || f.stack[n - 1] == Last(below);
    forall k | n <= k < |f.stack| ensures f.stack[k].val != "(" {
      assert f.stack[k] == popped[k - n];
    }
    SeparatorDigit(roll, i, f, n, Frame(out + Reversed(popped) + [Token(IntTok, roll[i + 1..i + 2], i + 1)], below, CountArgument(counts)));
  }

  /** As SepDigit, when the ',' emits nothing. */
  lemma ArgumentDigit(roll: string, i: nat, out: seq<Token>, below: seq<Token>, counts: seq<int>)
    requires i + 1 < |roll| && roll[i] == ',' && IsDigit(roll[i + 1]) && (i + 2 == |roll| || !IsDigit(roll[i + 2]))
    requires Valid(Frame(out, below, counts)) && |counts| > 0 && (below == [] || Last(below).val == "(")
    ensures var g := Frame(out + [Token(IntTok, roll[i + 1..i + 2], i + 1)], below, CountArgument(counts));
      Valid(g) && ConvertFrom(roll, i, Frame(out, below, counts)) == ConvertFrom(roll, i + 2, g)
  {
    var none: seq<Token> := [];
    assert below + none == below && Reversed(none) == none && out + none == out;
    SepDigit(roll, i, out, below, none, counts);
  }

  /** A ')' closing the call `fn` when its counter shows no missing argument: the call is emitted. */
  lemma CloseOnly(roll: string, i: nat, out: seq<Token>, fn: Token, at: nat, c: int)
    requires i < |roll| && roll[i] == ')' && fn.kind == FuncTok && c <= 1
    requires Valid(Frame(out, [fn, Token(Paren, "(", at)], [c]))
    ensures && Valid(Frame(out + [fn], [], []))
            && ConvertFrom(roll, i, Frame(out, [fn, Token(Paren, "(", at)], [c])) == ConvertFrom(roll, i + 1, Frame(out + [fn], [], []))
  {
    var f := Frame(out, [fn, Token(Paren, "(", at)], [c]);
    assert f.stack[2..] == [] && Reversed(f.stack[2..]) == [] && f.stack[..0] == [] && DropLast([c]) == [];
    assert ClosesCall(f, 2) && CallCloses(roll, i, f, 2);
    CloseCallTurn(roll, i, f, 2, Frame(out + [fn], [], []));
  }

  /** `if(a>b,c,e)`: the condition is emitted before the branches and the call last, as `a b > c e if`. */
  lemma IfConverts(roll: string)
    requires |roll| == 11 && roll[..2] == "if" && roll[2] == '(' && IsDigit(roll[3]) && roll[4] == '>'
    requires IsDigit(roll[5]) && roll[6] == ',' && IsDigit(roll[7]) && roll[8] == ',' && IsDigit(roll[9]) && roll[10] == ')'
    ensures ToPostfix(roll) == Ok([Token(IntTok, roll[3..4], 3), Token(IntTok, roll[5..6], 5), Token(OpTok, ">", 4),
                                   Token(IntTok, roll[7..8], 7), Token(IntTok, roll[9..10], 9), Token(FuncTok, "if", 0)])
  {
    var fn, lp := Token(FuncTok, "if", 0), Token(Paren, "(", 2);
    var a, b, gt := Token(IntTok, roll[3..4], 3), Token(IntTok, roll[5..6], 5), Token(OpTok, ">", 4);
    var c, e := Token(IntTok, roll[7..8], 7), Token(IntTok, roll[9..10], 9);
    var o6 := [] + [a] + [b];
    var o8 := o6 + Reversed([gt]) + [c];
    CallArities();
    CallOpens(roll, "if");
    IfCondition(roll);
    IfFirstBranch(roll, o6);
    IfSecondBranch(roll, o8);
    IfClose(roll, a, b, gt, c, e);
    assert ToPostfix(roll) == ConvertFrom(roll, 3, Frame([], [fn, lp], [3])) == ConvertFrom(roll, 6, Frame(o6, [fn, lp] + [gt], [3]))
      == ConvertFrom(roll, 8, Frame(o8, [fn, lp], [2])) == ConvertFrom(roll, 10, Frame(o8 + [e], [fn, lp], [1]));
  }

  /** The output of `if(a>b,c,e)` as the turns build it, flattened. */
  lemma IfOutput(a: Token, b: Token, gt: Token, c: Token, e: Token, fn: Token)
    ensures [] + [a] + [b] + Reversed([gt]) + [c] + [e] + [fn] == [a, b, gt, c, e, fn]
  {
    ReversedTwo(gt, gt);
  }

  /** The condition `a>b` inside `if(`: '>' stacks above the call's '('. */
  lemma IfCondition(roll: string)
    requires |roll| == 11 && IsDigit(roll[3]) && roll[4] == '>' && IsDigit(roll[5]) && !IsDigit(roll[6])
    requires Valid(Frame([], [Token(FuncTok, "if", 0), Token(Paren, "(", 2)], [3]))
    ensures var fn, lp := Token(FuncTok, "if", 0), Token(Paren, "(", 2);
      var a, b, gt := Token(IntTok, roll[3..4], 3), Token(IntTok, roll[5..6], 5), Token(OpTok, ">", 4);
      && Valid(Frame([] + [a] + [b], [fn, lp] + [gt], [3]))
      && ConvertFrom(roll, 3, Frame([], [fn, lp], [3])) == ConvertFrom(roll, 6, Frame([] + [a] + [b], [fn, lp] + [gt], [3]))
  {
    var fn, lp := Token(FuncTok, "if", 0), Token(Paren, "(", 2);
    var a := Token(IntTok, roll[3..4], 3);
    var f3 := Frame([], [fn, lp], [3]);
    assert roll[4..5] == ">";
    DigitTurn(roll, 3, f3, Frame(f3.out + [a], f3.stack, f3.counts));
    PushDigit(roll, 4, [] + [a], [fn, lp], [3]);
  }

  /** The first branch of `if(a>b,c,e)`: its ',' emits '>' and counts the condition. */
  lemma IfFirstBranch(roll: string, o: seq<Token>)
    requires |roll| == 11 && roll[6] == ',' && IsDigit(roll[7]) && roll[8] == ','
    requires Valid(Frame(o, [Token(FuncTok, "if", 0), Token(Paren, "(", 2)] + [Token(OpTok, ">", 4)], [3]))
    ensures var fn, lp, gt := Token(FuncTok, "if", 0), Token(Paren, "(", 2), Token(OpTok, ">", 4);
      var c := Token(IntTok, roll[7..8], 7);
      && Valid(Frame(o + Reversed([gt]) + [c], [fn, lp], [2]))
      && ConvertFrom(roll, 6, Frame(o, [fn, lp] + [gt], [3])) == ConvertFrom(roll, 8, Frame(o + Reversed([gt]) + [c], [fn, lp], [2]))
  {
    var fn, lp, gt := Token(FuncTok, "if", 0), Token(Paren, "(", 2), Token(OpTok, ">", 4);
    assert CountArgument([3]) == [2];
    SepDigit(roll, 6, o, [fn, lp], [gt], [3]);
  }

  /** The second branch of `if(a>b,c,e)`: its ',' flushes nothing and counts the first branch. */
  lemma IfSecondBranch(roll: string, o: seq<Token>)
    requires |roll| == 11 && roll[8] == ',' && IsDigit(roll[9]) && roll[10] == ')'
    requires Valid(Frame(o, [Token(FuncTok, "if", 0), Token(Paren, "(", 2)], [2]))
    ensures var fn, lp := Token(FuncTok, "if", 0), Token(Paren, "(", 2);
      var e := Token(IntTok, roll[9..10], 9);
      && Valid(Frame(o + [e], [fn, lp], [1]))
      && ConvertFrom(roll, 8, Frame(o, [fn, lp], [2])) == ConvertFrom(roll, 10, Frame(o + [e], [fn, lp], [1]))
  {
    var fn, lp := Token(FuncTok, "if", 0), Token(Paren, "(", 2);
    assert CountArgument([2]) == [1];
    ArgumentDigit(roll, 8, o, [fn, lp], [2]);
  }

  /** The closing ')' of `if(a>b,c,e)` and the end of the input: the call is emitted last. */
  lemma IfClose(roll: string, a: Token, b: Token, gt: Token, c: Token, e: Token)
    requires |roll| == 11 && roll[10] == ')'
    requires Valid(Frame([] + [a] + [b] + Reversed([gt]) + [c] + [e], [Token(FuncTok, "if", 0), Token(Paren, "(", 2)], [1]))
    ensures ConvertFrom(roll, 10, Frame([] + [a] + [b] + Reversed([gt]) + [c] + [e], [Token(FuncTok, "if", 0), Token(Paren, "(", 2)], [1]))
      == Ok([a, b, gt, c, e, Token(FuncTok, "if", 0)])
  {
    var fn := Token(FuncTok, "if", 0);
    var o := [] + [a] + [b] + Reversed([gt]) + [c] + [e];
    CloseOnly(roll, 10, o, fn, 2, 1);
    ConvertEnd(roll, Frame(o + [fn], [], []));
    IfOutput(a, b, gt, c, e, fn);
  }
}
