/** The static operator and function tables of the dice parser. */
module Tables {

  /** How operators of equal precedence group. */
  datatype Assoc = Left | Right | NonAssoc

  /** Precedence (higher binds tighter) and associativity of one operator symbol. */
  datatype OpSpec = OpSpec(pre: int, assoc: Assoc)

  /** Every registered operator symbol. The evaluation of each one is in module Evaluator. */
  const Operators: map<string, OpSpec> := map[
    "d"  := OpSpec(5, NonAssoc),
    "^"  := OpSpec(4, Right),
    "*"  := OpSpec(3, Left),
    "/"  := OpSpec(3, Left),
    "+"  := OpSpec(2, Left),
    "-"  := OpSpec(2, Left),
    ">"  := OpSpec(1, NonAssoc),
    "<"  := OpSpec(1, NonAssoc),
    "==" := OpSpec(1, NonAssoc),
    "!=" := OpSpec(1, NonAssoc),
    ">=" := OpSpec(1, NonAssoc),
    "<=" := OpSpec(1, NonAssoc)
  ]

  /** Every registered function name with the number of arguments it takes. */
  const Functions: map<string, nat> := map[
    "ceil"  := 1,
    "floor" := 1,
    "if"    := 3
  ]

  /** Two non-associative operators of the same precedence may not follow each other. */
  predicate Chains(op: string, other: string) {
    && op in Operators && other in Operators
    && Operators[op].assoc == NonAssoc && Operators[other].assoc == NonAssoc
    && Operators[op].pre == Operators[other].pre
  }

  /** The stacked operator `other` is emitted before the incoming operator `op` is pushed. */
  predicate Yields(op: string, other: string) {
    && op in Operators && other in Operators
    && if Operators[op].assoc == Left then Operators[op].pre <= Operators[other].pre
       else Operators[op].pre < Operators[other].pre
  }

  /** An opening parenthesis is neither an operator symbol nor a function name. */
  lemma OpenParenIsNoName()
    ensures "(" !in Operators && "(" !in Functions
  {
  }

  /**
   * Between two operators of the table: a stacked operator of higher
   * precedence is always emitted first and one of lower precedence never is;
   * at equal precedence a left-associative incoming operator emits it, a
   * right-associative one does not, and two non-associative ones chain.
   */
  lemma PrecedenceOrder(op: string, other: string)
    requires op in Operators && other in Operators
    ensures Operators[op].pre < Operators[other].pre ==> Yields(op, other) && !Chains(op, other)
    ensures Operators[op].pre > Operators[other].pre ==> !Yields(op, other) && !Chains(op, other)
    ensures Operators[op].pre == Operators[other].pre ==>
      && (Yields(op, other) <==> Operators[op].assoc == Left)
      && (Chains(op, other) <==> Operators[op].assoc == NonAssoc && Operators[other].assoc == NonAssoc)
    ensures !(Yields(op, other) && Chains(op, other))
  {
  }

  /** Operators of equal precedence share their associativity, so a non-associative one only meets its own kind. */
  lemma EqualPrecedenceSameAssoc(op: string, other: string)
    requires op in Operators && other in Operators && Operators[op].pre == Operators[other].pre
    ensures Operators[op].assoc == Operators[other].assoc
  {
  }

  /** The characters that are a whole operator name on their own. */
  predicate Symbol(c: char) {
    c == 'd' || c == '^' || c == '*' || c == '/' || c == '+' || c == '-' || c == '>' || c == '<'
  }

  /** The one-character operators that are not associative. */
  predicate NonAssocSymbol(c: char) { c == 'd' || c == '<' || c == '>' }

  /** Every one-character symbol of the table. */
  lemma SymbolIsOperator(c: char)
    requires Symbol(c)
    ensures [c] in Operators
  {
  }

  /** The non-associative one-character operators chain with themselves. */
  lemma SymbolChains(c: char)
    requires NonAssocSymbol(c)
    ensures Chains([c], [c])
  {
  }

  /** The first character of "==", "!=", ">=" or "<=" is an operator symbol only for '>' and '<'. */
  lemma HalfOperators()
    ensures "=" !in Operators && "!" !in Operators
  {
  }
}
