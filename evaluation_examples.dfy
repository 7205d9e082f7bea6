/**
 * Whole evaluations of small expressions: the text `evaluateInfix` returns for
 * them, stated in terms of the digits they are made of.
 */
module EvaluationExamples {
  import opened Tables
  import opened Tokens
  import opened ShuntingYard
  import opened Evaluator
  import opened Parser
  import opened WorkedExamples

  /** The value of the digit `c`. */
  function Digit(c: char): int { c as int - '0' as int }

  /** A one-digit token reads as the value of its digit. */
  lemma OneDigitValue(s: string)
    requires |s| == 1 && IsDigit(s[0])
    ensures AllDigits(s) && DigitsValue(s) == Digit(s[0])
  {
    assert DropLast(s) == [] && Last(s) == s[0];
  }

  /** A report with no trace lines is the total alone. */
  lemma TotalOnly(v: Val)
    ensures Report(Machine([v], [], 0)) == Ok("Total: " + Render(v))
  {
    var none: seq<string> := [];
    assert Join(none, "\n") == "";
    assert Output(none, v) == "" + "Total: " + Render(v) == "Total: " + Render(v);
  }

  /** A one-digit integer token pushes the value of its digit. */
  lemma DigitStep(m: Machine, t: Token, draw: Randint)
    requires t.kind == IntTok && |t.val| == 1 && IsDigit(t.val[0])
    ensures PostfixToken(t) && EvalToken(m, t, draw) == Ok(Machine(m.stack + [I(Digit(t.val[0]))], m.rolls, m.drawn))
  {
    OneDigitValue(t.val);
    TokenValue(m, t, draw);
  }

  /** An operator other than 'd' on a stack of exactly its two operands. */
  lemma OperatorStep(x: Val, y: Val, t: Token, rolls: seq<string>, drawn: nat, draw: Randint)
    requires t.kind == OpTok && t.val in Operators && t.val != "d"
    ensures var r := BinaryOp(t.val, x, y);
      EvalToken(Machine([x, y], rolls, drawn), t, draw) == if r.Ok? then Ok(Machine([r.value], rolls, drawn)) else Err(r.error)
  {
    var m := Machine([x, y], rolls, drawn);
    assert m.stack[..0] == [] && m.stack[0] == x && m.stack[1] == y;
    TokenValue(m, t, draw);
    TokenEffect(m, t, draw);
  }

  /** Three tokens of which the first two succeed: the run ends as the third token's step does. */
  lemma RunThree(t1: Token, t2: Token, t3: Token, m0: Machine, m1: Machine, m2: Machine, draw: Randint)
    requires PostfixToken(t1) && PostfixToken(t2) && PostfixToken(t3)
    requires EvalToken(m0, t1, draw) == Ok(m1) && EvalToken(m1, t2, draw) == Ok(m2)
    ensures AllPostfix([t1, t2, t3]) && Run([t1, t2, t3], m0, draw) == EvalToken(m2, t3, draw)
  {
    assert AllPostfix([t1, t2, t3]) by {
      forall k | 0 <= k < 3 ensures PostfixToken([t1, t2, t3][k]) { }
    }
    assert [t1, t2, t3][1..] == [t2, t3] && [t2, t3][1..] == [t3] && [t3][1..] == [];
    assert Run([t1, t2, t3], m0, draw) == Run([t2, t3], m1, draw) == Run([t3], m2, draw);
    match EvalToken(m2, t3, draw)
    case Err(e) =>
    case Ok(m3) => assert Run([t3][1..], m3, draw) == Ok(m3);
  }

  /** The postfix tokens `a b op` of one operator other than 'd' between two one-digit operands. */
  lemma BinaryRun(a: Token, b: Token, op: Token, draw: Randint)
    requires a.kind == IntTok && |a.val| == 1 && IsDigit(a.val[0])
    requires b.kind == IntTok && |b.val| == 1 && IsDigit(b.val[0])
    requires op.kind == OpTok && op.val in Operators && op.val != "d"
    ensures AllPostfix([a, b, op])
    ensures var r := BinaryOp(op.val, I(Digit(a.val[0])), I(Digit(b.val[0])));
      EvalPostfix([a, b, op], draw) == if r.Ok? then Ok("Total: " + Render(r.value)) else Err(r.error)
  {
    var x, y := Digit(a.val[0]), Digit(b.val[0]);
    var m1, m2 := Machine([I(x)], [], 0), Machine([I(x), I(y)], [], 0);
    DigitStep(Initial, a, draw);
    DigitStep(m1, b, draw);
    assert Initial.stack + [I(x)] == m1.stack && m1.stack + [I(y)] == m2.stack;
    RunThree(a, b, op, Initial, m1, m2, draw);
    OperatorStep(I(x), I(y), op, [], 0, draw);
    var r := BinaryOp(op.val, I(x), I(y));
    if r.Ok? {
      TotalOnly(r.value);
    }
  }

  /**
   * `a op b` for one-digit operands: sums, differences, products and powers
   * give their integer total, comparisons give True or False, and '/'
   * fails, as a division by zero when `b` is 0.
   */
  lemma SmallArithmetic(roll: string, draw: Randint)
    requires |roll| == 3 && IsDigit(roll[0]) && Symbol(roll[1]) && roll[1] != 'd' && IsDigit(roll[2])
    ensures var x, y := Digit(roll[0]), Digit(roll[2]);
      && (roll[1] == '+' ==> Evaluation(roll, draw) == Ok("Total: " + IntToString(x + y)))
      && (roll[1] == '-' ==> Evaluation(roll, draw) == Ok("Total: " + IntToString(x - y)))
      && (roll[1] == '*' ==> Evaluation(roll, draw) == Ok("Total: " + IntToString(x * y)))
      && (roll[1] == '^' ==> Evaluation(roll, draw) == Ok("Total: " + IntToString(Pow(x, y))))
      && (roll[1] == '/' ==> Evaluation(roll, draw) == Err(if y == 0 then ZeroDivision else NonIntegerResult))
      && (roll[1] == '>' ==> Evaluation(roll, draw) == Ok("Total: " + if x > y then "True" else "False"))
      && (roll[1] == '<' ==> Evaluation(roll, draw) == Ok("Total: " + if x < y then "True" else "False"))
  {
    SmallEvaluation(roll, draw);
  }

  /** `a op b` evaluates to what the operator makes of the two digits' values. */
  lemma SmallEvaluation(roll: string, draw: Randint)
    requires |roll| == 3 && IsDigit(roll[0]) && Symbol(roll[1]) && roll[1] != 'd' && IsDigit(roll[2])
    ensures [roll[1]] in Operators
    ensures var r := BinaryOp([roll[1]], I(Digit(roll[0])), I(Digit(roll[2])));
      Evaluation(roll, draw) == if r.Ok? then Ok("Total: " + Render(r.value)) else Err(r.error)
  {
    var a, b, op := Token(IntTok, roll[0..1], 0), Token(IntTok, roll[2..3], 2), Token(OpTok, roll[1..2], 1);
    assert a.val[0] == roll[0] && b.val[0] == roll[2] && op.val == [roll[1]];
    SymbolIsOperator(roll[1]);
    SmallBinary(roll);
    BinaryRun(a, b, op, draw);
  }

  /** `if(a>b,c,e)` for one-digit operands gives `Total: c` when a > b and `Total: e` otherwise. */
  lemma IfSelects(roll: string, draw: Randint)
    requires |roll| == 11 && roll[..2] == "if" && roll[2] == '(' && IsDigit(roll[3]) && roll[4] == '>'
    requires IsDigit(roll[5]) && roll[6] == ',' && IsDigit(roll[7]) && roll[8] == ',' && IsDigit(roll[9]) && roll[10] == ')'
    ensures Evaluation(roll, draw) == Ok("Total: " + IntToString(if Digit(roll[3]) > Digit(roll[5]) then Digit(roll[7]) else Digit(roll[9])))
  {
    var a, b, gt := Token(IntTok, roll[3..4], 3), Token(IntTok, roll[5..6], 5), Token(OpTok, ">", 4);
    var c, e := Token(IntTok, roll[7..8], 7), Token(IntTok, roll[9..10], 9);
    assert a.val[0] == roll[3] && b.val[0] == roll[5] && c.val[0] == roll[7] && e.val[0] == roll[9];
    IfConverts(roll);
    IfRun(a, b, gt, c, e, Token(FuncTok, "if", 0), draw);
  }

  /** The postfix tokens `a b > c e if` of one-digit operands. */
  lemma IfRun(a: Token, b: Token, gt: Token, c: Token, e: Token, fn: Token, draw: Randint)
    requires a.kind == IntTok && |a.val| == 1 && IsDigit(a.val[0])
    requires b.kind == IntTok && |b.val| == 1 && IsDigit(b.val[0])
    requires c.kind == IntTok && |c.val| == 1 && IsDigit(c.val[0])
    requires e.kind == IntTok && |e.val| == 1 && IsDigit(e.val[0])
    requires gt == Token(OpTok, ">", gt.at) && fn == Token(FuncTok, "if", fn.at)
    ensures AllPostfix([a, b, gt, c, e, fn])
    ensures var x, y, z, w := Digit(a.val[0]), Digit(b.val[0]), Digit(c.val[0]), Digit(e.val[0]);
      EvalPostfix([a, b, gt, c, e, fn], draw) == Ok("Total: " + IntToString(if x > y then z else w))
  {
    var x, y, z, w := Digit(a.val[0]), Digit(b.val[0]), Digit(c.val[0]), Digit(e.val[0]);
    var ts := [a, b, gt, c, e, fn];
    assert ts[..3] == [a, b, gt] && ts[3..] == [c, e, fn];
    ComparisonRun(a, b, gt, draw);
    CallRun(B(x > y), c, e, fn, draw);
    RunSplit(ts, 3, Initial, draw);
    TotalOnly(if x > y then I(z) else I(w));
  }

  /** The first three tokens of `a b > c e if` leave the comparison's value. */
  lemma ComparisonRun(a: Token, b: Token, gt: Token, draw: Randint)
    requires a.kind == IntTok && |a.val| == 1 && IsDigit(a.val[0])
    requires b.kind == IntTok && |b.val| == 1 && IsDigit(b.val[0])
    requires gt == Token(OpTok, ">", gt.at)
    ensures AllPostfix([a, b, gt])
    ensures Run([a, b, gt], Initial, draw) == Ok(Machine([B(Digit(a.val[0]) > Digit(b.val[0]))], [], 0))
  {
    var x, y := Digit(a.val[0]), Digit(b.val[0]);
    var m1, m2 := Machine([I(x)], [], 0), Machine([I(x), I(y)], [], 0);
    DigitStep(Initial, a, draw);
    DigitStep(m1, b, draw);
    assert Initial.stack + [I(x)] == m1.stack && m1.stack + [I(y)] == m2.stack;
    RunThree(a, b, gt, Initial, m1, m2, draw);
    OperatorStep(I(x), I(y), gt, [], 0, draw);
  }

  /** The last three tokens of `a b > c e if`: the call picks one of its branches by the condition. */
  lemma CallRun(v: Val, c: Token, e: Token, fn: Token, draw: Randint)
    requires c.kind == IntTok && |c.val| == 1 && IsDigit(c.val[0])
    requires e.kind == IntTok && |e.val| == 1 && IsDigit(e.val[0])
    requires fn == Token(FuncTok, "if", fn.at)
    ensures AllPostfix([c, e, fn])
    ensures var z, w := Digit(c.val[0]), Digit(e.val[0]);
      Run([c, e, fn], Machine([v], [], 0), draw) == Ok(Machine([if Truthy(v) then I(z) else I(w)], [], 0))
  {
    var z, w := Digit(c.val[0]), Digit(e.val[0]);
    var m, m1, m2 := Machine([v], [], 0), Machine([v, I(z)], [], 0), Machine([v, I(z), I(w)], [], 0);
    DigitStep(m, c, draw);
    DigitStep(m1, e, draw);
    assert m.stack + [I(z)] == m1.stack && m1.stack + [I(w)] == m2.stack;
    RunThree(c, e, fn, m, m1, m2, draw);
    IfStep(v, I(z), I(w), fn, draw);
  }

  /** `if` on a stack of exactly its three arguments. */
  lemma IfStep(v: Val, z: Val, w: Val, fn: Token, draw: Randint)
    requires fn == Token(FuncTok, "if", fn.at)
    ensures EvalToken(Machine([v, z, w], [], 0), fn, draw) == Ok(Machine([if Truthy(v) then z else w], [], 0))
  {
    var m := Machine([v, z, w], [], 0);
    CallArities();
    assert m.stack[..0] == [] && m.stack[0..] == [v, z, w];
    TokenValue(m, fn, draw);
    var u := ApplyFunction("if", [v, z, w]);
    assert u == if Truthy(v) then z else w;
    assert EvalToken(m, fn, draw) == Ok(m.(stack := [] + [u]));
    assert [] + [u] == [u];
  }

  /** The evaluation of a sequence is that of its first `i` tokens followed by that of the rest. */
  lemma {:induction false} RunSplit(ts: seq<Token>, i: nat, m: Machine, draw: Randint)
    requires AllPostfix(ts) && i <= |ts|
    ensures AllPostfix(ts[..i]) && AllPostfix(ts[i..])
    ensures Run(ts, m, draw) == match Run(ts[..i], m, draw)
      case Err(e) => Err(e)
      case Ok(m') => Run(ts[i..], m', draw)
    decreases i
  {
    assert AllPostfix(ts[..i]) && AllPostfix(ts[i..]) by {
      forall k | 0 <= k < i ensures PostfixToken(ts[..i][k]) { assert ts[..i][k] == ts[k]; }
      forall k | 0 <= k < |ts| - i ensures PostfixToken(ts[i..][k]) { assert ts[i..][k] == ts[i + k]; }
    }
    if i > 0 {
      var rest := ts[1..];
      assert AllPostfix(rest) by {
        forall k | 0 <= k < |rest| ensures PostfixToken(rest[k]) { assert rest[k] == ts[k + 1]; }
      }
      assert ts[..i][0] == ts[0] && ts[..i][1..] == rest[..i - 1] && ts[i..] == rest[i - 1..];
      match EvalToken(m, ts[0], draw)
      case Err(_) =>
      case Ok(m1) => RunSplit(rest, i - 1, m1, draw);
    }
  }

  /**
   * `ceil(a,b)` converts, but `ceil` takes one argument: two values are left
   * and the evaluation fails on the final stack size.
   */
  lemma CeilOfTwoFails(roll: string, draw: Randint)
    requires |roll| == 9 && roll[..4] == "ceil" && roll[4] == '(' && IsDigit(roll[5]) && roll[6] == ','
    requires IsDigit(roll[7]) && roll[8] == ')'
    ensures Evaluation(roll, draw) == Err(FinalStackSize(2))
  {
    var a, b, fn := Token(IntTok, roll[5..6], 5), Token(IntTok, roll[7..8], 7), Token(FuncTok, "ceil", 0);
    CeilOfTwo(roll);
    CeilRun(a, b, fn, draw);
  }

  /** The postfix tokens `a b ceil`: `ceil` consumes only `b`. */
  lemma CeilRun(a: Token, b: Token, fn: Token, draw: Randint)
    requires a.kind == IntTok && |a.val| == 1 && IsDigit(a.val[0])
    requires b.kind == IntTok && |b.val| == 1 && IsDigit(b.val[0])
    requires fn == Token(FuncTok, "ceil", fn.at)
    ensures AllPostfix([a, b, fn]) && EvalPostfix([a, b, fn], draw) == Err(FinalStackSize(2))
  {
    var x, y := Digit(a.val[0]), Digit(b.val[0]);
    var m1, m2 := Machine([I(x)], [], 0), Machine([I(x), I(y)], [], 0);
    DigitStep(Initial, a, draw);
    DigitStep(m1, b, draw);
    assert Initial.stack + [I(x)] == m1.stack && m1.stack + [I(y)] == m2.stack;
    RunThree(a, b, fn, Initial, m1, m2, draw);
    CeilStep(I(x), I(y), fn, draw);
  }

  /** `ceil` on a stack of two values takes only the top one. */
  lemma CeilStep(v: Val, u: Val, fn: Token, draw: Randint)
    requires fn == Token(FuncTok, "ceil", fn.at)
    ensures var r := EvalToken(Machine([v, u], [], 0), fn, draw); r.Ok? && |r.value.stack| == 2
  {
    var m := Machine([v, u], [], 0);
    CallArities();
    assert m.stack[..1] == [v] && m.stack[1..] == [u];
    TokenValue(m, fn, draw);
  }

  /**
   * `adb` rolls `a` dice of `b` sides: with no sides and at least one die it
   * fails; otherwise its text is the roll's trace line, then the total of the draws.
   */
  lemma SmallRoll(roll: string, draw: Randint)
    requires |roll| == 3 && IsDigit(roll[0]) && roll[1] == 'd' && IsDigit(roll[2])
    ensures var x, y := Digit(roll[0]), Digit(roll[2]);
      var ds := Draws(draw, 0, x, y);
      && (x > 0 && y == 0 ==> Evaluation(roll, draw) == Err(EmptyRange(0)))
      && (x == 0 || y > 0 ==>
            Evaluation(roll, draw) == Ok(RollLine(x, y, Sum(ds), ds) + "\n" + "Total: " + IntToString(Sum(ds))))
  {
    var a, b, d := Token(IntTok, roll[0..1], 0), Token(IntTok, roll[2..3], 2), Token(OpTok, roll[1..2], 1);
    assert a.val[0] == roll[0] && b.val[0] == roll[2] && d.val == "d";
    SmallBinary(roll);
    DieRun(a, b, d, draw);
  }

  /** The postfix tokens `a b d` of one-digit operands. */
  lemma DieRun(a: Token, b: Token, d: Token, draw: Randint)
    requires a.kind == IntTok && |a.val| == 1 && IsDigit(a.val[0])
    requires b.kind == IntTok && |b.val| == 1 && IsDigit(b.val[0])
    requires d == Token(OpTok, "d", d.at)
    ensures AllPostfix([a, b, d])
    ensures var x, y := Digit(a.val[0]), Digit(b.val[0]);
      var ds := Draws(draw, 0, x, y);
      && (x > 0 && y == 0 ==> EvalPostfix([a, b, d], draw) == Err(EmptyRange(0)))
      && (x == 0 || y > 0 ==> EvalPostfix([a, b, d], draw) == Ok(RollLine(x, y, Sum(ds), ds) + "\n" + "Total: " + IntToString(Sum(ds))))
  {
    var x, y := Digit(a.val[0]), Digit(b.val[0]);
    var m1, m2 := Machine([I(x)], [], 0), Machine([I(x), I(y)], [], 0);
    DigitStep(Initial, a, draw);
    DigitStep(m1, b, draw);
    assert Initial.stack + [I(x)] == m1.stack && m1.stack + [I(y)] == m2.stack;
    RunThree(a, b, d, Initial, m1, m2, draw);
    DieStep(x, y, d, draw);
  }

  /** 'd' on a stack of exactly its two operands, from the first draw. */
  lemma DieStep(x: int, y: int, d: Token, draw: Randint)
    requires x >= 0 && d == Token(OpTok, "d", d.at)
    ensures var ds := Draws(draw, 0, x, y);
      var r := EvalToken(Machine([I(x), I(y)], [], 0), d, draw);
      && (x > 0 && y < 1 ==> r == Err(EmptyRange(y)))
      && (x == 0 || y >= 1 ==> r.Ok? && Report(r.value) == Ok(RollLine(x, y, Sum(ds), ds) + "\n" + "Total: " + IntToString(Sum(ds))))
  {
    var m := Machine([I(x), I(y)], [], 0);
    var ds := Draws(draw, 0, x, y);
    var line := RollLine(x, y, Sum(ds), ds);
    assert m.stack[..0] == [] && m.stack[0] == I(x) && m.stack[1] == I(y);
    TokenValue(m, d, draw);
    assert Join([line], "\n") == line;
    assert |line| > 0 by { assert line == IntToString(x) + "d" + IntToString(y) + ": " + IntToString(Sum(ds)) + " = " + Join(IntTexts(ds), ", "); }
  }
}
