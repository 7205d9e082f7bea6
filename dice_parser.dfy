/**
 * The parser object: a cursor over the expression being read, the tokenizer
 * methods that move it, the shunting-yard loop that drives the tokenizer, and
 * the evaluation of a whole expression. Every method is proved to compute the
 * function of modules Lexer, ShuntingYard and Evaluator that specifies it.
 */
module Parser {
  import opened Tables
  import opened Tokens
  import opened Lexer
  import opened ShuntingYard
  import opened Evaluator

  /** The pop loop of ',' and ')': move stacked entries to the output until a '(' is on top. */
  method PopToOpenParen(out: seq<Token>, stack: seq<Token>) returns (o: seq<Token>, s: seq<Token>)
    ensures (o, s) == PopToParen(out, stack)
  {
    o, s := out, stack;
    while |s| > 0 && Last(s).val != "("
      invariant PopToParen(o, s) == PopToParen(out, stack)
      decreases |s|
    {
      o := o + [Last(s)];
      s := DropLast(s);
    }
  }

  /** The pop loop of an incoming operator. */
  method PopYieldingOperators(t: Token, out: seq<Token>, stack: seq<Token>) returns (r: Result<(seq<Token>, seq<Token>)>)
    ensures r == PopOperators(t, out, stack)
  {
    var o, s := out, stack;
    while |s| > 0 && Last(s).kind == OpTok
      invariant PopOperators(t, o, s) == PopOperators(t, out, stack)
      decreases |s|
    {
      var other := Last(s).val;
      if Chains(t.val, other) {
        return Err(CannotChain(t.val, other, t.at));
      } else if Yields(t.val, other) {
        o := o + [Last(s)];
        s := DropLast(s);
      } else {
        break;
      }
    }
    return Ok((o, s));
  }

  /** The final loop: emit what is left on the stack, failing on an unclosed '('. */
  method DrainStack(out: seq<Token>, stack: seq<Token>) returns (r: Result<seq<Token>>)
    ensures r == Drain(out, stack)
  {
    var o, s := out, stack;
    while |s| > 0
      invariant Drain(o, s) == Drain(out, stack)
      decreases |s|
    {
      if Last(s).kind == Paren {
        return Err(UnmatchedParentheses(Last(s).at));
      }
      o := o + [Last(s)];
      s := DropLast(s);
    }
    return Ok(o);
  }

  /** A ',': count one argument of the innermost call, then flush its pending operators. */
  method HandleSeparator(f: Frame, t: Token) returns (r: Result<Frame>)
    requires Valid(f) && t.kind == ArgSep
    ensures r == Separate(f, t)
  {
    if |f.counts| == 0 {
      return Err(ExtraArgument(t.at));
    }
    var counts := DropLast(f.counts) + [Last(f.counts) - 1];
    assert counts == CountArgument(f.counts);
    var o, s := PopToOpenParen(f.out, f.stack);
    SeparateValue(f, t);
    return Ok(Frame(o, s, counts));
  }

  /** A ')': flush down to the '(', pop it, and complete a function call below it. */
  method HandleClose(f: Frame, t: Token) returns (r: Result<Frame>)
    requires Valid(f) && t.kind == Paren && t.val != "("
    ensures r == Close(f, t)
  {
    var o, s := PopToOpenParen(f.out, f.stack);
    if |s| == 0 {
      return Err(PopFromEmptyList);
    }
    s := DropLast(s);
    var h := Frame(o, s, f.counts);
    assert h == DropParen(Flush(f));
    if |s| > 0 && Last(s).kind == FuncTok {
      TopCallHasCounter(h);
      if Last(f.counts) > 1 {
        return Err(NotEnoughArguments(Last(s).val, Last(s).at));
      }
      var counts := DropLast(f.counts);
      o := o + [Last(s)];
      s := DropLast(s);
      return Ok(Frame(o, s, counts));
    }
    return Ok(h);
  }

  /** An operator: run its pop loop and push it, or fail on an unknown operator. */
  method HandleOperator(f: Frame, t: Token) returns (r: Result<Frame>)
    requires Valid(f) && t.kind == OpTok
    ensures r == PushOperator(f, t)
  {
    if t.val !in Operators {
      return Err(UnknownOperator(t.val, t.at));
    }
    var popped := PopYieldingOperators(t, f.out, f.stack);
    if popped.Err? {
      return Err(popped.error);
    }
    var (o, s) := popped.value;
    PopFacts(f, |s|);
    return Ok(Frame(o, s + [t], f.counts));
  }

  /** One iteration of the main conversion loop, dispatching on the token type. */
  method HandleToken(f: Frame, t: Token) returns (r: Result<Frame>)
    requires Valid(f) && Lexical(t)
    ensures r == Step(f, t)
  {
    match t.kind
    case IntTok =>
      r := Ok(Frame(f.out + [t], f.stack, f.counts));
    case FuncTok =>
      if t.val in Functions {
        r := Ok(Frame(f.out, f.stack + [t], f.counts + [Functions[t.val]]));
      } else {
        r := Err(UnknownFunction(t.val, t.at));
      }
    case ArgSep =>
      r := HandleSeparator(f, t);
    case Paren =>
      if t.val == "(" {
        r := Ok(Frame(f.out, f.stack + [t], f.counts));
      } else {
        r := HandleClose(f, t);
      }
    case OpTok =>
      r := HandleOperator(f, t);
  }

  /** A dice expression read from `roll` and evaluated with the dice source `draw`. */
  function Evaluation(roll: string, draw: Randint): Result<string> {
    match ToPostfix(roll)
    case Err(e) => Err(e)
    case Ok(ts) => EvalPostfix(ts, draw)
  }

  /**
   * A successful evaluation converted the expression, found the operands of
   * every postfix token, and its text is one trace line per die, then the total.
   */
  lemma EvaluationReport(roll: string, draw: Randint)
    requires Evaluation(roll, draw).Ok?
    ensures ToPostfix(roll).Ok?
    ensures var ts := ToPostfix(roll).value;
      var m := Run(ts, Initial, draw).value;
      && Fits(ts, 0) && FinalDepth(ts, 0) == 1
      && |m.stack| == 1 && |m.rolls| == DieCount(ts)
      && Evaluation(roll, draw).value == Join(m.rolls + ["Total: " + Render(m.stack[0])], "\n")
  {
    var ts := ToPostfix(roll).value;
    EvalPostfixDiscipline(ts, draw);
    EvalPostfixReport(ts, draw);
  }

  /** An expression without a die evaluates the same whatever the dice would have shown. */
  lemma EvaluationWithoutDice(roll: string, draw: Randint, other: Randint)
    requires ToPostfix(roll).Ok? && DieCount(ToPostfix(roll).value) == 0
    ensures Evaluation(roll, draw) == Evaluation(roll, other)
  {
    NoDiceNoDraws(ToPostfix(roll).value, Initial, draw, other);
  }

  /** The parser: the expression being read and the cursor into it. */
  class DiceParser {
    var index: nat
    var roll: string

    constructor()
      ensures index == 0 && roll == ""
    {
      index := 0;
      roll := "";
    }

    /** Skip whitespace, but never past the last character. */
    method SkipWhitespace()
      requires index < |roll|
      modifies this
      ensures roll == old(roll) && index == SkipSpaces(roll, old(index))
    {
      while BeforeEnd(roll, index) && IsSpace(roll[index])
        invariant roll == old(roll) && old(index) <= index < |roll|
        invariant SkipSpaces(roll, index) == SkipSpaces(roll, old(index))
        decreases |roll| - index
      {
        index := index + 1;
      }
    }

    /** Move the cursor onto the last character of the run of the class that starts at it, then past it. */
    method ExtendRun(cls: CharClass)
      requires index < |roll|
      modifies this
      ensures roll == old(roll) && index == RunEnd(roll, old(index), cls)
    {
      while BeforeEnd(roll, index) && InClass(roll[index + 1], cls)
        invariant roll == old(roll) && old(index) <= index < |roll|
        invariant RunEnd(roll, index, cls) == RunEnd(roll, old(index), cls)
        decreases |roll| - index
      {
        index := index + 1;
      }
      index := index + 1;
    }

    /** Read the next token and leave the cursor after it. */
    method GetToken() returns (res: Result<Token>)
      requires index < |roll|
      modifies this
      ensures roll == old(roll)
      ensures match NextToken(roll, old(index))
        case Ok((t, j)) => res == Ok(t) && index == j
        case Err(e) => res == Err(e)
    {
      SkipWhitespace();
      var start := index;
      if IsDigit(roll[index]) {
        ExtendRun(Digits);
        res := Ok(Token(IntTok, roll[start..index], start));
      } else if MatchesName(roll, Operators.Keys, start) {
        index := index + 1;
        res := Ok(Token(OpTok, roll[start..index], start));
      } else if MatchesName(roll, Functions.Keys, start) {
        ExtendRun(Letters);
        res := Ok(Token(FuncTok, roll[start..index], start));
      } else if roll[index] == ',' {
        index := index + 1;
        res := Ok(Token(ArgSep, ",", start));
      } else if roll[index] == '(' || roll[index] == ')' {
        index := index + 1;
        res := Ok(Token(Paren, [roll[start]], start));
      } else {
        res := Err(UnknownToken(start));
      }
    }

    /** Convert an infix expression to its postfix tokens, reading it with this parser's cursor. */
    method InfixToPostfix(r: string) returns (res: Result<seq<Token>>)
      modifies this
      ensures roll == r && res == ToPostfix(r)
    {
      index := 0;
      roll := r;
      var f := Start;
      while index < |roll|
        invariant roll == r && index <= |roll| && Valid(f)
        invariant ConvertFrom(roll, index, f) == ToPostfix(r)
        decreases |roll| - index
      {
        var t := GetToken();
        if t.Err? {
          return Err(t.error);
        }
        var next := HandleToken(f, t.value);
        if next.Err? {
          return Err(next.error);
        }
        f := next.value;
      }
      res := DrainStack(f.out, f.stack);
    }

    /** Convert an expression to postfix and evaluate it. */
    method EvaluateInfix(r: string, draw: Randint) returns (res: Result<string>)
      modifies this
      ensures roll == r && res == Evaluation(r, draw)
    {
      var postfix := InfixToPostfix(r);
      if postfix.Err? {
        return Err(postfix.error);
      }
      res := EvaluatePostfix(postfix.value, draw);
    }
  }
}
