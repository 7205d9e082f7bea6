/**
 * The postfix evaluator: a value stack, the dice trace and the final report.
 * EvaluatePostfix runs the pass with local variables and loops; Run and
 * EvalPostfix are the functions it is proved against.
 */
module Evaluator {
  import opened Tables
  import opened Tokens
  import opened ShuntingYard

  /** A stack value: an integer, or a boolean produced by a comparison. */
  datatype Val = I(i: int) | B(b: bool)

  /** The integer a value stands for in arithmetic: a boolean counts as 1 or 0. */
  function AsInt(v: Val): int {
    match v
    case I(i) => i
    case B(b) => if b then 1 else 0
  }

  predicate Truthy(v: Val) { AsInt(v) != 0 }

  /** How the total is written: decimal for an integer, True or False for a boolean. */
  function Render(v: Val): string {
    match v
    case I(i) => IntToString(i)
    case B(b) => if b then "True" else "False"
  }

  function Pow(b: int, e: nat): int {
    if e == 0 then 1 else b * Pow(b, e - 1)
  }

  /**
   * The source of dice results: draw(k, sides) is what the k-th call of
   * randint(1, sides) returns, counting calls from 0.
   */
  type Randint = (nat, int) -> int

  /** Every draw lies between 1 and the number of sides. */
  ghost predicate InRange(draw: Randint) {
    forall k: nat, sides: int | 1 <= sides :: 1 <= draw(k, sides) <= sides
  }

  /**
   * A binary operator other than 'd' applied to its operands. '/' and '^' with
   * a negative exponent produce floating-point numbers, which the evaluation
   * does not carry: they fail, with ZeroDivision where Python raises it.
   */
  function BinaryOp(op: string, a: Val, b: Val): (r: Result<Val>)
    requires op in Operators && op != "d"
    ensures r.Err? <==> op == "/" || (op == "^" && AsInt(b) < 0)
    ensures r.Err? ==> r.error == (if AsInt(if op == "/" then b else a) == 0 then ZeroDivision else NonIntegerResult)
    ensures op == "^" && AsInt(b) >= 0 ==> r == Ok(I(Pow(AsInt(a), AsInt(b))))
    ensures op == "*" ==> r == Ok(I(AsInt(a) * AsInt(b)))
    ensures op == "+" ==> r == Ok(I(AsInt(a) + AsInt(b)))
    ensures op == "-" ==> r == Ok(I(AsInt(a) - AsInt(b)))
    ensures op == ">" ==> r == Ok(B(AsInt(a) > AsInt(b)))
    ensures op == "<" ==> r == Ok(B(AsInt(a) < AsInt(b)))
    ensures op == "==" ==> r == Ok(B(AsInt(a) == AsInt(b)))
    ensures op == "!=" ==> r == Ok(B(AsInt(a) != AsInt(b)))
    ensures op == ">=" ==> r == Ok(B(AsInt(a) >= AsInt(b)))
    ensures op == "<=" ==> r == Ok(B(AsInt(a) <= AsInt(b)))
  {
    var x, y := AsInt(a), AsInt(b);
    if op == "^" then
      if y >= 0 then Ok(I(Pow(x, y)))
      else if x == 0 then Err(ZeroDivision)
      else Err(NonIntegerResult)
    else if op == "*" then Ok(I(x * y))
    else if op == "/" then
      if y == 0 then Err(ZeroDivision) else Err(NonIntegerResult)
    else if op == "+" then Ok(I(x + y))
    else if op == "-" then Ok(I(x - y))
    else if op == ">" then Ok(B(x > y))
    else if op == "<" then Ok(B(x < y))
    else if op == "==" then Ok(B(x == y))
    else if op == "!=" then Ok(B(x != y))
    else if op == ">=" then Ok(B(x >= y))
    else Ok(B(x <= y))
  }

  /**
   * A function of the table applied to exactly as many values as it takes.
   * `ceil` and `floor` of a value that is already integral (a boolean counts as
   * 1 or 0) give that integer: the least integer not below it, and the greatest
   * not above it.
   */
  function ApplyFunction(name: string, args: seq<Val>): (v: Val)
    requires name in Functions && |args| == Functions[name]
    ensures name == "ceil" ==> v.I? && AsInt(args[0]) <= v.i && v.i - 1 < AsInt(args[0])
    ensures name == "floor" ==> v.I? && v.i <= AsInt(args[0]) && AsInt(args[0]) < v.i + 1
    ensures name == "if" ==> v == if Truthy(args[0]) then args[1] else args[2]
  {
    if name == "if" then (if Truthy(args[0]) then args[1] else args[2])
    else I(AsInt(args[0]))
  }

  /** The n draws of one die roll, taken from call number k on. */
  function Draws(draw: Randint, k: nat, n: nat, sides: int): (r: seq<int>)
    ensures |r| == n && forall x | 0 <= x < n :: r[x] == draw(k + x, sides)
  {
    if n == 0 then [] else Draws(draw, k, n - 1, sides) + [draw(k + n - 1, sides)]
  }

  function Sum(s: seq<int>): int {
    if |s| == 0 then 0 else Sum(DropLast(s)) + Last(s)
  }

  /**
   * Rolling `count` dice with `sides` sides from call number k: the total and
   * the draws. No die is drawn for a count of zero or less; a die with fewer
   * than one side cannot be drawn.
   */
  function Dice(count: int, sides: int, draw: Randint, k: nat): (r: Result<(int, seq<int>)>)
    ensures r.Err? <==> count > 0 && sides < 1
    ensures r.Err? ==> r.error == EmptyRange(sides)
    ensures r.Ok? ==> r.value.1 == Draws(draw, k, if count > 0 then count else 0, sides)
    ensures r.Ok? ==> r.value.0 == Sum(r.value.1)
  {
    if count <= 0 then Ok((0, []))
    else if sides < 1 then Err(EmptyRange(sides))
    else
      var r := Draws(draw, k, count, sides);
      Ok((Sum(r), r))
  }

  /** The separator-joined texts: sep.join(parts). */
  function Join(parts: seq<string>, sep: string): string {
    if |parts| == 0 then ""
    else if |parts| == 1 then parts[0]
    else Join(DropLast(parts), sep) + sep + Last(parts)
  }

  function IntTexts(s: seq<int>): (r: seq<string>)
    ensures |r| == |s| && forall k | 0 <= k < |s| :: r[k] == IntToString(s[k])
  {
    if |s| == 0 then [] else IntTexts(DropLast(s)) + [IntToString(Last(s))]
  }

  /** The trace line of one roll: "{count}d{sides}: {total} = {draws joined by ', '}". */
  function RollLine(count: int, sides: int, total: int, draws: seq<int>): string {
    IntToString(count) + "d" + IntToString(sides) + ": " + IntToString(total) + " = " + Join(IntTexts(draws), ", ")
  }

  /** The evaluator's state: the value stack, the trace lines and the number of draws made. */
  datatype Machine = Machine(stack: seq<Val>, rolls: seq<string>, drawn: nat)

  const Initial := Machine([], [], 0)

  /** How many values a postfix token takes off the stack before pushing one. */
  function Need(t: Token): nat
    requires PostfixToken(t)
  {
    if t.kind == IntTok then 0 else if t.kind == FuncTok then Functions[t.val] else 2
  }

  predicate IsDie(t: Token) { t.kind == OpTok && t.val == "d" }

  /**
   * A 'd' with operands `count` and `sides` on top of the stack: it draws
   * max(count, 0) values, the k-th from call number drawn + k, replaces its
   * operands by their total and appends its one trace line.
   */
  function RollDie(m: Machine, draw: Randint): (r: Result<Machine>)
    requires |m.stack| >= 2
    ensures var n := |m.stack|;
      var count, sides := AsInt(m.stack[n - 2]), AsInt(m.stack[n - 1]);
      var dice := if count > 0 then count else 0;
      var draws := Draws(draw, m.drawn, dice, sides);
      && (r.Err? <==> count > 0 && sides < 1)
      && (r.Err? ==> r.error == EmptyRange(sides))
      && (r.Ok? ==> r.value == Machine(m.stack[..n - 2] + [I(Sum(draws))],
                                       m.rolls + [RollLine(count, sides, Sum(draws), draws)],
                                       m.drawn + dice))
  {
    var n := |m.stack|;
    var count, sides := AsInt(m.stack[n - 2]), AsInt(m.stack[n - 1]);
    var d := Dice(count, sides, draw, m.drawn);
    if d.Err? then Err(d.error)
    else
      assert d.value.1 == Draws(draw, m.drawn, if count > 0 then count else 0, sides);
      Ok(Machine(m.stack[..n - 2] + [I(d.value.0)], m.rolls + [RollLine(count, sides, d.value.0, d.value.1)], m.drawn + |d.value.1|))
  }

  /**
   * A token with all its operands can still fail: a die that cannot be rolled,
   * or an operator whose result is not an integer or boolean.
   */
  predicate ValueFails(m: Machine, t: Token, draw: Randint)
    requires PostfixToken(t) && |m.stack| >= Need(t)
  {
    && t.kind == OpTok
    && if t.val == "d" then RollDie(m, draw).Err?
       else BinaryOp(t.val, m.stack[|m.stack| - 2], m.stack[|m.stack| - 1]).Err?
  }

  /**
   * One postfix token: an integer is pushed; a function replaces its arguments
   * by its value; an operator replaces its two operands by its value, and a
   * 'd' also records a trace line and the draws it made.
   */
  function EvalToken(m: Machine, t: Token, draw: Randint): Result<Machine>
    requires PostfixToken(t)
  {
    var n := |m.stack|;
    if t.kind == IntTok then
      Ok(m.(stack := m.stack + [I(DigitsValue(t.val))]))
    else if t.kind == FuncTok then
      var need := Functions[t.val];
      if n < need then Err(MissingArguments(t.val))
      else Ok(m.(stack := m.stack[..n - need] + [ApplyFunction(t.val, m.stack[n - need..])]))
    else if n < 2 then
      Err(PopFromEmptyList)
    else
      var a, b, rest := m.stack[n - 2], m.stack[n - 1], m.stack[..n - 2];
      if t.val == "d" then RollDie(m, draw)
      else
        match BinaryOp(t.val, a, b)
        case Err(e) => Err(e)
        case Ok(v) => Ok(m.(stack := rest + [v]))
  }

  /**
   * What one token does: it fails for want of values exactly when the stack is
   * shorter than what it takes, or for its values; otherwise it replaces the
   * values it takes by one, and only a 'd' adds a trace line and makes draws.
   */
  lemma TokenEffect(m: Machine, t: Token, draw: Randint)
    requires PostfixToken(t)
    ensures var r := EvalToken(m, t, draw); r.Err? <==> |m.stack| < Need(t) || ValueFails(m, t, draw)
    ensures var r := EvalToken(m, t, draw); |m.stack| < Need(t) ==> r == Err(if t.kind == FuncTok then MissingArguments(t.val) else PopFromEmptyList)
    ensures var r := EvalToken(m, t, draw); r.Err? && |m.stack| >= Need(t) ==> r.error.EmptyRange? || r.error == ZeroDivision || r.error == NonIntegerResult
    ensures var r := EvalToken(m, t, draw); r.Ok? ==> |m.stack| >= Need(t) && |r.value.stack| == |m.stack| - Need(t) + 1
    ensures var r := EvalToken(m, t, draw); r.Ok? ==> r.value.stack[..|m.stack| - Need(t)] == m.stack[..|m.stack| - Need(t)]
    ensures var r := EvalToken(m, t, draw); r.Ok? && !IsDie(t) ==> r.value.rolls == m.rolls && r.value.drawn == m.drawn
    ensures var r := EvalToken(m, t, draw); r.Ok? && IsDie(t) ==> |r.value.rolls| == |m.rolls| + 1 && r.value.rolls[..|m.rolls|] == m.rolls && |r.value.rolls[|m.rolls|]| > 0
    ensures var r := EvalToken(m, t, draw); r.Ok? && IsDie(t) ==> m.drawn <= r.value.drawn
  {
  }

  /**
   * The value one successful token pushes: the integer of its digits, the
   * function of the values it took, the operator of its two operands, or the
   * total of the dice.
   */
  lemma TokenValue(m: Machine, t: Token, draw: Randint)
    requires PostfixToken(t)
    ensures var r, n := EvalToken(m, t, draw), |m.stack|;
      t.kind == IntTok ==> r == Ok(m.(stack := m.stack + [I(DigitsValue(t.val))]))
    ensures var r, n := EvalToken(m, t, draw), |m.stack|;
      t.kind == FuncTok && n >= Functions[t.val] ==>
        r == Ok(m.(stack := m.stack[..n - Functions[t.val]] + [ApplyFunction(t.val, m.stack[n - Functions[t.val]..])]))
    ensures var r, n := EvalToken(m, t, draw), |m.stack|;
      t.kind == OpTok && t.val != "d" && n >= 2 && BinaryOp(t.val, m.stack[n - 2], m.stack[n - 1]).Ok? ==>
        r == Ok(m.(stack := m.stack[..n - 2] + [BinaryOp(t.val, m.stack[n - 2], m.stack[n - 1]).value]))
    ensures var r, n := EvalToken(m, t, draw), |m.stack|;
      IsDie(t) && n >= 2 ==> r == RollDie(m, draw)
  {
  }

  predicate AllPostfix(ts: seq<Token>) {
    forall k | 0 <= k < |ts| :: PostfixToken(ts[k])
  }

  /** The evaluation loop over the postfix tokens, stopping at the first failure. */
  function Run(ts: seq<Token>, m: Machine, draw: Randint): Result<Machine>
    requires AllPostfix(ts)
    decreases |ts|
  {
    if |ts| == 0 then Ok(m)
    else match EvalToken(m, ts[0], draw)
      case Err(e) => Err(e)
      case Ok(m') => Run(ts[1..], m', draw)
  }

  /** The report: the trace lines joined by newlines, a newline if that text is not empty, then the total. */
  function Output(rolls: seq<string>, total: Val): string {
    var joined := Join(rolls, "\n");
    (if |joined| > 0 then joined + "\n" else "") + "Total: " + Render(total)
  }

  /** The end of the evaluation: exactly one value must be left. */
  function Report(m: Machine): (r: Result<string>)
    ensures r.Err? <==> |m.stack| != 1
    ensures r.Err? ==> r.error == FinalStackSize(|m.stack|)
  {
    if |m.stack| != 1 then Err(FinalStackSize(|m.stack|)) else Ok(Output(m.rolls, m.stack[0]))
  }

  /** The whole evaluation of a postfix token sequence. */
  function EvalPostfix(ts: seq<Token>, draw: Randint): Result<string>
    requires AllPostfix(ts)
  {
    match Run(ts, Initial, draw)
    case Err(e) => Err(e)
    case Ok(m) => Report(m)
  }

  /** Draws within range add up to at least one and at most `sides` per die. */
  lemma {:induction false} SumBounds(s: seq<int>, sides: int)
    requires forall k | 0 <= k < |s| :: 1 <= s[k] <= sides
    ensures |s| <= Sum(s) <= |s| * sides
    decreases |s|
  {
    if |s| > 0 {
      SumBounds(DropLast(s), sides);
    }
  }

  /** Under draws within range, the total of a roll lies between max(count, 0) and max(count, 0) * sides. */
  lemma DiceTotal(count: int, sides: int, draw: Randint, k: nat)
    requires InRange(draw) && Dice(count, sides, draw, k).Ok?
    ensures var dice := if count > 0 then count else 0;
      dice <= Dice(count, sides, draw, k).value.0 <= dice * sides
  {
    if count > 0 {
      SumBounds(Dice(count, sides, draw, k).value.1, sides);
    }
  }

  /** The number of 'd' operators in a token sequence. */
  function DieCount(ts: seq<Token>): nat {
    if |ts| == 0 then 0 else (if IsDie(ts[0]) then 1 else 0) + DieCount(ts[1..])
  }

  /** The evaluation keeps the trace it started with and adds exactly one line per 'd', in order. */
  lemma {:induction false} RunTrace(ts: seq<Token>, m: Machine, draw: Randint)
    requires AllPostfix(ts) && Run(ts, m, draw).Ok?
    ensures |Run(ts, m, draw).value.rolls| == |m.rolls| + DieCount(ts)
    ensures Run(ts, m, draw).value.rolls[..|m.rolls|] == m.rolls
    ensures m.drawn <= Run(ts, m, draw).value.drawn
    decreases |ts|
  {
    if |ts| > 0 {
      TokenEffect(m, ts[0], draw);
      var m' := EvalToken(m, ts[0], draw).value;
      RunTrace(ts[1..], m', draw);
      var final := Run(ts[1..], m', draw).value;
      assert final.rolls[..|m.rolls|] == final.rolls[..|m'.rolls|][..|m.rolls|];
    }
  }

  /** Without a 'd' the draws are never consulted: any two sources of dice give the same evaluation. */
  lemma {:induction false} NoDiceNoDraws(ts: seq<Token>, m: Machine, draw: Randint, other: Randint)
    requires AllPostfix(ts) && DieCount(ts) == 0
    ensures Run(ts, m, draw) == Run(ts, m, other)
    decreases |ts|
  {
    if |ts| > 0 {
      assert !IsDie(ts[0]);
      assert EvalToken(m, ts[0], draw) == EvalToken(m, ts[0], other);
      if EvalToken(m, ts[0], draw).Ok? {
        NoDiceNoDraws(ts[1..], EvalToken(m, ts[0], draw).value, draw, other);
      }
    }
  }

  /** Every token finds the values it takes on a stack that starts with `n` values. */
  predicate Fits(ts: seq<Token>, n: int)
    requires AllPostfix(ts)
    decreases |ts|
  {
    |ts| == 0 || (n >= Need(ts[0]) && Fits(ts[1..], n - Need(ts[0]) + 1))
  }

  /** The stack size after every token of `ts` has taken its values and pushed one. */
  function FinalDepth(ts: seq<Token>, n: int): int
    requires AllPostfix(ts)
    decreases |ts|
  {
    if |ts| == 0 then n else FinalDepth(ts[1..], n - Need(ts[0]) + 1)
  }

  predicate StackError(e: Error) { e == PopFromEmptyList || e.MissingArguments? }

  /**
   * Stack discipline: a successful evaluation found enough values for every
   * token and ends with the stack size the token arities predict; running out
   * of values happens only when the tokens do not fit the stack.
   */
  lemma {:induction false} RunStackDiscipline(ts: seq<Token>, m: Machine, draw: Randint)
    requires AllPostfix(ts)
    ensures Run(ts, m, draw).Ok? ==> Fits(ts, |m.stack|) && |Run(ts, m, draw).value.stack| == FinalDepth(ts, |m.stack|)
    ensures Run(ts, m, draw).Err? && StackError(Run(ts, m, draw).error) ==> !Fits(ts, |m.stack|)
    decreases |ts|
  {
    if |ts| > 0 {
      var t := ts[0];
      TokenEffect(m, t, draw);
      match EvalToken(m, t, draw)
      case Err(e) =>
      case Ok(m') =>
        RunStackDiscipline(ts[1..], m', draw);
    }
  }

  /** A successful evaluation had every operand it needed and ended with one value. */
  lemma EvalPostfixDiscipline(ts: seq<Token>, draw: Randint)
    requires AllPostfix(ts) && EvalPostfix(ts, draw).Ok?
    ensures Fits(ts, 0) && FinalDepth(ts, 0) == 1
  {
    RunStackDiscipline(ts, Initial, draw);
  }

  lemma {:induction false} JoinNonEmpty(parts: seq<string>, sep: string)
    requires |parts| > 0 && |parts[0]| > 0
    ensures |Join(parts, sep)| > 0
    decreases |parts|
  {
    if |parts| > 1 {
      JoinNonEmpty(DropLast(parts), sep);
    }
  }

  /**
   * The report is the trace lines followed by the total line, one per line:
   * the newline after the trace is there exactly when some roll was made.
   */
  lemma OutputLines(rolls: seq<string>, total: Val)
    requires forall k | 0 <= k < |rolls| :: |rolls[k]| > 0
    ensures Output(rolls, total) == Join(rolls + ["Total: " + Render(total)], "\n")
  {
    var last := "Total: " + Render(total);
    var all := rolls + [last];
    assert DropLast(all) == rolls && Last(all) == last;
    if |rolls| > 0 {
      JoinNonEmpty(rolls, "\n");
    } else {
      assert all == [last];
    }
  }

  /** Every trace line of an evaluation is a non-empty roll line. */
  lemma {:induction false} RunLinesNonEmpty(ts: seq<Token>, m: Machine, draw: Randint)
    requires AllPostfix(ts) && Run(ts, m, draw).Ok?
    requires forall k | 0 <= k < |m.rolls| :: |m.rolls[k]| > 0
    ensures forall k | 0 <= k < |Run(ts, m, draw).value.rolls| :: |Run(ts, m, draw).value.rolls[k]| > 0
    decreases |ts|
  {
    if |ts| > 0 {
      var m' := EvalToken(m, ts[0], draw).value;
      StepLinesNonEmpty(m, ts[0], draw);
      RunLinesNonEmpty(ts[1..], m', draw);
    }
  }

  /** One token keeps every trace line non-empty: the line a 'd' adds names the die. */
  lemma StepLinesNonEmpty(m: Machine, t: Token, draw: Randint)
    requires PostfixToken(t) && EvalToken(m, t, draw).Ok?
    requires forall k | 0 <= k < |m.rolls| :: |m.rolls[k]| > 0
    ensures var m' := EvalToken(m, t, draw).value;
      forall k | 0 <= k < |m'.rolls| :: |m'.rolls[k]| > 0
  {
    TokenEffect(m, t, draw);
    var m' := EvalToken(m, t, draw).value;
    if IsDie(t) {
      forall k | 0 <= k < |m'.rolls| ensures |m'.rolls[k]| > 0 {
        if k < |m.rolls| {
          assert m'.rolls[k] == m'.rolls[..|m.rolls|][k];
        }
      }
    } else {
      assert m'.rolls == m.rolls;
    }
  }

  /** The text of a successful evaluation is its trace lines and then the total, one per line. */
  lemma EvalPostfixReport(ts: seq<Token>, draw: Randint)
    requires AllPostfix(ts) && EvalPostfix(ts, draw).Ok?
    ensures var m := Run(ts, Initial, draw).value;
      && |m.stack| == 1 && |m.rolls| == DieCount(ts)
      && EvalPostfix(ts, draw).value == Join(m.rolls + ["Total: " + Render(m.stack[0])], "\n")
  {
    var m := Run(ts, Initial, draw).value;
    RunTrace(ts, Initial, draw);
    RunLinesNonEmpty(ts, Initial, draw);
    OutputLines(m.rolls, m.stack[0]);
  }

  /** One step of the loop: the evaluation from token i on is the token's step followed by the rest. */
  lemma RunAt(ts: seq<Token>, i: nat, m: Machine, draw: Randint)
    requires AllPostfix(ts) && i < |ts|
    ensures Run(ts[i..], m, draw) == match EvalToken(m, ts[i], draw)
      case Err(e) => Err(e)
      case Ok(m') => Run(ts[i + 1..], m', draw)
  {
    assert ts[i..][0] == ts[i] && ts[i..][1..] == ts[i + 1..];
  }

  /**
   * The dice loop: count calls of randint(1, sides), numbered from k, and
   * their sum. The first call fails when there are no sides.
   */
  method RollDice(count: int, sides: int, draw: Randint, k: nat) returns (res: Result<(int, seq<int>)>)
    ensures res == Dice(count, sides, draw, k)
  {
    var r: seq<int> := [];
    var i := 0;
    while i < count
      invariant 0 <= i && (count > 0 ==> i <= count) && (count <= 0 ==> i == 0)
      invariant r == Draws(draw, k, i, sides)
      invariant i > 0 ==> sides >= 1
    {
      if sides < 1 {
        return Err(EmptyRange(sides));
      }
      r := r + [draw(k + i, sides)];
      i := i + 1;
    }
    return Ok((Sum(r), r));
  }

  /** A function token: apply the function to the top values, pop them one by one and push the result. */
  method CallFunction(m: Machine, t: Token, draw: Randint) returns (res: Result<Machine>)
    requires PostfixToken(t) && t.kind == FuncTok
    ensures res == EvalToken(m, t, draw)
  {
    var stack := m.stack;
    var n := Functions[t.val];
    if |stack| < n {
      return Err(MissingArguments(t.val));
    }
    var val := ApplyFunction(t.val, stack[|stack| - n..]);
    for j := 0 to n
      invariant stack == m.stack[..|m.stack| - j]
    {
      stack := DropLast(stack);
    }
    return Ok(m.(stack := stack + [val]));
  }

  /** A 'd' token with both operands present: pop the sides, then the count, roll and push the sum. */
  method ThrowDice(m: Machine, draw: Randint) returns (res: Result<Machine>)
    requires |m.stack| >= 2
    ensures res == RollDie(m, draw)
  {
    var stack := m.stack;
    var sides := Last(stack);
    stack := DropLast(stack);
    var count := Last(stack);
    stack := DropLast(stack);
    assert stack == m.stack[..|m.stack| - 2] && count == m.stack[|m.stack| - 2] && sides == m.stack[|m.stack| - 1];
    var d := RollDice(AsInt(count), AsInt(sides), draw, m.drawn);
    if d.Err? {
      return Err(d.error);
    }
    res := Ok(Machine(stack + [I(d.value.0)], m.rolls + [RollLine(AsInt(count), AsInt(sides), d.value.0, d.value.1)], m.drawn + |d.value.1|));
    RolledDie(m, draw, d);
  }

  /** The outcome of `d` once its roll `d` is known. */
  lemma RolledDie(m: Machine, draw: Randint, d: Result<(int, seq<int>)>)
    requires |m.stack| >= 2 && d.Ok?
    requires d == Dice(AsInt(m.stack[|m.stack| - 2]), AsInt(m.stack[|m.stack| - 1]), draw, m.drawn)
    ensures var n := |m.stack|;
      RollDie(m, draw) == Ok(Machine(m.stack[..n - 2] + [I(d.value.0)],
        m.rolls + [RollLine(AsInt(m.stack[n - 2]), AsInt(m.stack[n - 1]), d.value.0, d.value.1)], m.drawn + |d.value.1|))
  {
  }

  /** An operator token: pop the second operand, then the first, and push the result. */
  method ApplyOperator(m: Machine, t: Token, draw: Randint) returns (res: Result<Machine>)
    requires PostfixToken(t) && t.kind == OpTok
    ensures res == EvalToken(m, t, draw)
  {
    if |m.stack| < 2 {
      return Err(PopFromEmptyList);
    }
    if t.val == "d" {
      res := ThrowDice(m, draw);
      return;
    }
    var stack := m.stack;
    var arg2 := Last(stack);
    stack := DropLast(stack);
    var arg1 := Last(stack);
    stack := DropLast(stack);
    assert stack == m.stack[..|m.stack| - 2] && arg1 == m.stack[|m.stack| - 2];
    var v := BinaryOp(t.val, arg1, arg2);
    if v.Err? {
      return Err(v.error);
    }
    return Ok(m.(stack := stack + [v.value]));
  }

  /** The body of the evaluation loop for one token. */
  method EvalStep(m: Machine, t: Token, draw: Randint) returns (res: Result<Machine>)
    requires PostfixToken(t)
    ensures res == EvalToken(m, t, draw)
  {
    if t.kind == IntTok {
      res := Ok(m.(stack := m.stack + [I(DigitsValue(t.val))]));
    } else if t.kind == FuncTok {
      res := CallFunction(m, t, draw);
    } else {
      res := ApplyOperator(m, t, draw);
    }
  }

  /**
   * The evaluation pass over the postfix tokens with a value stack and a list
   * of trace lines, then the final report.
   */
  method EvaluatePostfix(ts: seq<Token>, draw: Randint) returns (res: Result<string>)
    requires AllPostfix(ts)
    ensures res == EvalPostfix(ts, draw)
  {
    var m := Initial;
    for i := 0 to |ts|
      invariant Run(ts, Initial, draw) == Run(ts[i..], m, draw)
    {
      RunAt(ts, i, m, draw);
      var step := EvalStep(m, ts[i], draw);
      if step.Err? {
        return Err(step.error);
      }
      m := step.value;
    }
    assert ts[|ts|..] == [];
    if |m.stack| != 1 {
      return Err(FinalStackSize(|m.stack|));
    }
    var output := Join(m.rolls, "\n");
    if |output| > 0 {
      output := output + "\n";
    }
    output := output + "Total: " + Render(m.stack[0]);
    return Ok(output);
  }
}
