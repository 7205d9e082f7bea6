/**
 * The tokenizer as functions of the input string and a cursor. The class
 * DiceParser (module Parser) runs the same scan by moving its own index field;
 * its methods are proved to agree with these functions.
 */
module Lexer {
  import opened Tables
  import opened Tokens

  /** The cursor is not yet on the last character. */
  predicate BeforeEnd(roll: string, i: nat) { i + 1 < |roll| }

  predicate StartsWith(roll: string, prefix: string, at: nat) {
    at + |prefix| <= |roll| && roll[at..at + |prefix|] == prefix
  }

  /** Some name of the table occurs in `roll` at offset `at`. */
  predicate MatchesName(roll: string, names: set<string>, at: nat) {
    exists n | n in names :: StartsWith(roll, n, at)
  }

  /** An operator is recognised from its first character, or from the two characters of "==" and "!=". */
  lemma OperatorPrefix(roll: string, at: nat)
    ensures MatchesName(roll, Operators.Keys, at) <==>
      at < |roll| &&
      (Symbol(roll[at]) || ((roll[at] == '=' || roll[at] == '!') && at + 1 < |roll| && roll[at + 1] == '='))
  {
    assert Operators.Keys == {"d", "^", "*", "/", "+", "-", ">", "<", "==", "!=", ">=", "<="};
    if at < |roll| {
      var c := roll[at];
      if Symbol(c) {
        assert StartsWith(roll, [c], at);
        assert [c] in Operators.Keys;
      } else if (c == '=' || c == '!') && at + 1 < |roll| && roll[at + 1] == '=' {
        assert StartsWith(roll, [c, '='], at);
        assert [c, '='] in Operators.Keys;
      }
    }
  }

  /** A function is recognised when "ceil", "floor" or "if" occurs at the offset. */
  lemma FunctionPrefix(roll: string, at: nat)
    ensures MatchesName(roll, Functions.Keys, at) <==>
      StartsWith(roll, "ceil", at) || StartsWith(roll, "floor", at) || StartsWith(roll, "if", at)
  {
    assert Functions.Keys == {"ceil", "floor", "if"};
  }

  /** The first character of a registered name is never whitespace, a digit, ',' or a parenthesis. */
  lemma NameStart(roll: string, at: nat)
    requires MatchesName(roll, Operators.Keys, at) || MatchesName(roll, Functions.Keys, at)
    ensures at < |roll| && !IsSpace(roll[at]) && !IsDigit(roll[at])
    ensures roll[at] != ',' && roll[at] != '(' && roll[at] != ')'
  {
    OperatorPrefix(roll, at);
    FunctionPrefix(roll, at);
    if MatchesName(roll, Functions.Keys, at) && !MatchesName(roll, Operators.Keys, at) {
      if StartsWith(roll, "ceil", at) {
        assert roll[at] == "ceil"[0];
      } else if StartsWith(roll, "floor", at) {
        assert roll[at] == "floor"[0];
      } else {
        assert roll[at] == "if"[0];
      }
    }
  }

  /** Whitespace skipping: stop at the first non-space character, but never move past the last character. */
  function SkipSpaces(roll: string, i: nat): (j: nat)
    requires i < |roll|
    ensures i <= j < |roll|
    ensures forall k | i <= k < j :: IsSpace(roll[k])
    ensures !BeforeEnd(roll, j) || !IsSpace(roll[j])
    decreases |roll| - i
  {
    if BeforeEnd(roll, i) && IsSpace(roll[i]) then SkipSpaces(roll, i + 1) else i
  }

  datatype CharClass = Digits | Letters

  predicate InClass(c: char, cls: CharClass) {
    match cls
    case Digits => IsDigit(c)
    case Letters => IsAlpha(c)
  }

  /**
   * The end of the run that starts at `i` and extends over every following
   * character of the class: the character at `i` is taken whatever it is.
   */
  function RunEnd(roll: string, i: nat, cls: CharClass): (j: nat)
    requires i < |roll|
    ensures i < j <= |roll|
    ensures forall k | i < k < j :: InClass(roll[k], cls)
    ensures j == |roll| || !InClass(roll[j], cls)
    decreases |roll| - i
  {
    if BeforeEnd(roll, i) && InClass(roll[i + 1], cls) then RunEnd(roll, i + 1, cls) else i + 1
  }

  /** A digit run becomes an integer token, a letter run a function token. */
  function RunKind(cls: CharClass): Kind {
    match cls
    case Digits => IntTok
    case Letters => FuncTok
  }

  /** The token made of the maximal run of the class that starts at `s`, with the cursor after it. */
  function ScanRun(roll: string, s: nat, cls: CharClass): (r: (Token, nat))
    requires s < |roll| && InClass(roll[s], cls)
    ensures var (t, j) := r;
      && s < j <= |roll| && (j == |roll| || !InClass(roll[j], cls))
      && t == Token(RunKind(cls), roll[s..j], s)
      && Lexical(t) && (forall k | s <= k < j :: !IsSpace(roll[k]))
  {
    var j := RunEnd(roll, s, cls);
    var t := Token(RunKind(cls), roll[s..j], s);
    assert forall k | s <= k < j :: InClass(roll[k], cls);
    assert Lexical(t) by {
      if cls == Digits {
        assert forall k | 0 <= k < |t.val| :: t.val[k] == roll[s + k] && IsDigit(roll[s + k]);
      } else {
        assert forall k | 0 <= k < |t.val| :: t.val[k] == roll[s + k] && IsAlpha(roll[s + k]);
      }
    }
    (t, j)
  }

  /**
   * The token that starts at or after the cursor `i`, with the cursor after it.
   * Integers are maximal digit runs; an operator is recognised by any registered
   * operator that occurs at the offset but covers exactly one character; a
   * function is recognised by a registered name and extended over all following
   * letters; ',' and the parentheses are single characters; anything else fails.
   */
  function NextToken(roll: string, i: nat): (r: Result<(Token, nat)>)
    requires i < |roll|
    ensures r.Ok? ==> var (t, j) := r.value;
      && t.at == SkipSpaces(roll, i)
      && t.at < j <= |roll|
      && t.val == roll[t.at..j]
      && Lexical(t)
      && (forall k | t.at <= k < j :: !IsSpace(roll[k]))
    ensures r.Ok? && r.value.0.kind == IntTok ==> var (t, j) := r.value;
      AllDigits(t.val) && (j == |roll| || !IsDigit(roll[j]))
    ensures r.Ok? && r.value.0.kind == OpTok ==> var (t, j) := r.value;
      j == t.at + 1 && MatchesName(roll, Operators.Keys, t.at) && !IsDigit(roll[t.at])
    ensures r.Ok? && r.value.0.kind == FuncTok ==> var (t, j) := r.value;
      AllAlpha(t.val) && (j == |roll| || !IsAlpha(roll[j])) && MatchesName(roll, Functions.Keys, t.at)
      && !MatchesName(roll, Operators.Keys, t.at)
    ensures r.Err? ==> var s := SkipSpaces(roll, i);
      && r.error == UnknownToken(s)
      && !IsDigit(roll[s]) && roll[s] != ',' && roll[s] != '(' && roll[s] != ')'
      && !MatchesName(roll, Operators.Keys, s) && !MatchesName(roll, Functions.Keys, s)
  {
    var s := SkipSpaces(roll, i);
    if IsDigit(roll[s]) then
      Ok(ScanRun(roll, s, Digits))
    else if MatchesName(roll, Operators.Keys, s) then
      NameStart(roll, s);
      Ok((Token(OpTok, roll[s..s + 1], s), s + 1))
    else if MatchesName(roll, Functions.Keys, s) then
      NameStart(roll, s);
      FunctionPrefix(roll, s);
      assert IsAlpha(roll[s]) by {
        if StartsWith(roll, "ceil", s) { assert roll[s] == "ceil"[0]; }
        else if StartsWith(roll, "floor", s) { assert roll[s] == "floor"[0]; }
        else { assert roll[s] == "if"[0]; }
      }
      Ok(ScanRun(roll, s, Letters))
    else if roll[s] == ',' then
      Ok((Token(ArgSep, ",", s), s + 1))
    else if roll[s] == '(' || roll[s] == ')' then
      Ok((Token(Paren, [roll[s]], s), s + 1))
    else
      Err(UnknownToken(s))
  }

  /** The whole token sequence from the cursor to the end of the input. */
  function LexFrom(roll: string, i: nat): (r: Result<seq<Token>>)
    requires i <= |roll|
    ensures r.Ok? ==> forall k | 0 <= k < |r.value| :: Lexical(r.value[k]) && i <= r.value[k].at < |roll|
    decreases |roll| - i
  {
    if i == |roll| then Ok([])
    else match NextToken(roll, i)
      case Err(e) => Err(e)
      case Ok((t, j)) =>
        match LexFrom(roll, j)
        case Err(e) => Err(e)
        case Ok(ts) => Ok([t] + ts)
  }

  function Lex(roll: string): Result<seq<Token>> { LexFrom(roll, 0) }

  /** Input that ends in whitespace never tokenizes: tokenizing from any offset fails with UnknownToken. */
  lemma {:induction false} TrailingSpaceFails(roll: string, i: nat)
    requires i < |roll| && IsSpace(roll[|roll| - 1])
    ensures LexFrom(roll, i).Err? && LexFrom(roll, i).error.UnknownToken?
    decreases |roll| - i
  {
    match NextToken(roll, i)
    case Err(_) =>
    case Ok((t, j)) =>
      if j < |roll| {
        TrailingSpaceFails(roll, j);
      }
  }
}
