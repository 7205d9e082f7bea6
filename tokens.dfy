/** Tokens, character classes and the failure outcomes shared by every stage. */
module Tokens {

  /** The five token types the tokenizer produces. */
  datatype Kind = IntTok | OpTok | FuncTok | ArgSep | Paren

  /** A token: its type, the exact text it covers and the offset where that text starts. */
  datatype Token = Token(kind: Kind, val: string, at: nat)

  /** Every way an expression can fail, in the order the stages raise them. */
  datatype Error =
    | UnknownToken(at: nat)                            // no token shape matches
    | UnknownFunction(name: string, at: nat)           // a name not in the function table
    | ExtraArgument(at: nat)                           // a ',' outside any function call
    | NotEnoughArguments(name: string, at: nat)        // ')' closes a call still missing arguments
    | CannotChain(op: string, other: string, at: nat)  // two non-associative operators chained
    | UnknownOperator(name: string, at: nat)           // an operator text not in the table
    | UnmatchedParentheses(at: nat)                    // a '(' never closed
    | PopFromEmptyList                                 // a ')' with no '(' or an operator without operands
    | MissingArguments(name: string)                   // a function applied to too few values
    | EmptyRange(sides: int)                           // a die with fewer than one side is rolled
    | ZeroDivision                                     // '/' by zero or zero to a negative power
    | NonIntegerResult                                 // the result would be a floating-point number
    | FinalStackSize(size: nat)                        // the evaluation did not end with one value

  datatype Result<T> = Ok(value: T) | Err(error: Error)

  predicate IsDigit(c: char) { '0' <= c <= '9' }

  predicate IsAlpha(c: char) { 'a' <= c <= 'z' || 'A' <= c <= 'Z' }

  /** ASCII whitespace as Python's str.isspace sees it: tab to carriage return, 0x1C to 0x1F, space. */
  predicate IsSpace(c: char) { 9 <= c as int <= 13 || 28 <= c as int <= 32 }

  predicate AllDigits(s: string) { forall k | 0 <= k < |s| :: IsDigit(s[k]) }

  predicate AllAlpha(s: string) { forall k | 0 <= k < |s| :: IsAlpha(s[k]) }

  /** The shapes a token produced by the tokenizer can have. */
  predicate Lexical(t: Token) {
    match t.kind
    case IntTok => |t.val| > 0 && AllDigits(t.val)
    case OpTok => |t.val| == 1
    case FuncTok => |t.val| > 0 && AllAlpha(t.val)
    case ArgSep => t.val == ","
    case Paren => t.val == "(" || t.val == ")"
  }

  function Last<T>(s: seq<T>): T
    requires |s| > 0
  {
    s[|s| - 1]
  }

  function DropLast<T>(s: seq<T>): seq<T>
    requires |s| > 0
  {
    s[..|s| - 1]
  }

  /** The value of a run of decimal digits, as Python's int() reads it. */
  function DigitsValue(s: string): nat
    requires AllDigits(s)
  {
    if |s| == 0 then 0 else DigitsValue(DropLast(s)) * 10 + (Last(s) as int - '0' as int)
  }

  /** The decimal text of a natural number, as Python's str() writes it. */
  function NatToString(n: nat): (s: string)
    ensures |s| > 0 && AllDigits(s)
    ensures |s| > 1 ==> s[0] != '0'
    decreases n
  {
    if n < 10 then [('0' as int + n) as char]
    else NatToString(n / 10) + [('0' as int + n % 10) as char]
  }

  /** The decimal text of an integer, with a leading '-' when it is negative. */
  function IntToString(i: int): string
  {
    if i < 0 then "-" + NatToString(-i) else NatToString(i)
  }

  /** Reading back the text str() writes gives the number again. */
  lemma {:induction false} DigitsRoundTrip(n: nat)
    ensures DigitsValue(NatToString(n)) == n
    decreases n
  {
    if n >= 10 {
      DigitsRoundTrip(n / 10);
      var s := NatToString(n);
      assert DropLast(s) == NatToString(n / 10);
    }
  }
}
