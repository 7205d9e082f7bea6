/**
 * The shunting-yard conversion from infix tokens to postfix, as functions over
 * the converter's three stacks. DiceParser.InfixToPostfix (module Parser) runs
 * the same algorithm with local variables and is proved to agree with ToPostfix.
 */
module ShuntingYard {
  import opened Tables
  import opened Tokens
  import opened Lexer

  /** The output list, the operator/parenthesis/function stack and the remaining-argument counters. */
  datatype Frame = Frame(out: seq<Token>, stack: seq<Token>, counts: seq<int>)

  const Start := Frame([], [], [])

  /** The token kinds that can reach the output. */
  const EmitKinds: set<Kind> := {IntTok, OpTok, FuncTok}

  /** What the converter ever pushes on its stack. */
  predicate StackEntry(t: Token) {
    || (t.kind == OpTok && t.val in Operators)
    || (t.kind == FuncTok && t.val in Functions)
    || (t.kind == Paren && t.val == "(")
  }

  /** What the converter ever emits: digit runs, registered operators and registered functions. */
  predicate PostfixToken(t: Token) {
    || (t.kind == IntTok && |t.val| > 0 && AllDigits(t.val))
    || (t.kind == OpTok && t.val in Operators)
    || (t.kind == FuncTok && t.val in Functions)
  }

  /** The tokens of `s` whose kind is in `kinds`, in order. */
  function Keep(s: seq<Token>, kinds: set<Kind>): seq<Token>
  {
    if |s| == 0 then [] else (if s[0].kind in kinds then [s[0]] else []) + Keep(s[1..], kinds)
  }

  function Reversed(s: seq<Token>): seq<Token>
  {
    if |s| == 0 then [] else [Last(s)] + Reversed(DropLast(s))
  }

  /** Net parenthesis depth of a token: +1 for '(', -1 for ')'. */
  function Delta(t: Token): int {
    if t.kind == Paren then (if t.val == "(" then 1 else -1) else 0
  }

  function Depth(ts: seq<Token>): int {
    if |ts| == 0 then 0 else Delta(ts[0]) + Depth(ts[1..])
  }

  /** Every prefix opens at least as many parentheses as it closes, and the whole closes them all. */
  ghost predicate Balanced(ts: seq<Token>) {
    Depth(ts) == 0 && forall k | 0 <= k <= |ts| :: Depth(ts[..k]) >= 0
  }

  function OpenCount(s: seq<Token>): nat { |Keep(s, {Paren})| }

  function FuncCount(s: seq<Token>): nat { |Keep(s, {FuncTok})| }

  /** The invariant of the converter's stacks: at least one counter for every stacked function. */
  predicate Valid(f: Frame) {
    && (forall k | 0 <= k < |f.stack| :: StackEntry(f.stack[k]))
    && (forall k | 0 <= k < |f.out| :: PostfixToken(f.out[k]))
    && FuncCount(f.stack) <= |f.counts|
  }

  /** The tokens that are on their way to the output: the output so far and the stacked operators and functions. */
  ghost function Pending(f: Frame): multiset<Token> {
    multiset(f.out) + multiset(Keep(f.stack, EmitKinds))
  }

  lemma {:induction false} KeepAppend(a: seq<Token>, b: seq<Token>, kinds: set<Kind>)
    ensures Keep(a + b, kinds) == Keep(a, kinds) + Keep(b, kinds)
    decreases |a|
  {
    if |a| == 0 {
      assert a + b == b;
    } else {
      var h, rest := if a[0].kind in kinds then [a[0]] else [], a[1..];
      assert a == [a[0]] + rest && a + b == [a[0]] + (rest + b);
      KeepCons(a[0], rest + b, kinds);
      KeepCons(a[0], rest, kinds);
      KeepAppend(rest, b, kinds);
      assert h + (Keep(rest, kinds) + Keep(b, kinds)) == (h + Keep(rest, kinds)) + Keep(b, kinds);
    }
  }

  lemma {:induction false} KeepAll(s: seq<Token>, kinds: set<Kind>)
    requires forall t | t in s :: t.kind in kinds
    ensures Keep(s, kinds) == s
    decreases |s|
  {
    if |s| > 0 {
      KeepAll(s[1..], kinds);
    }
  }

  lemma {:induction false} KeepNone(s: seq<Token>, kinds: set<Kind>)
    requires forall t | t in s :: t.kind !in kinds
    ensures Keep(s, kinds) == []
    decreases |s|
  {
    if |s| > 0 {
      KeepNone(s[1..], kinds);
    }
  }

  lemma {:induction false} ReversedMultiset(s: seq<Token>)
    ensures multiset(Reversed(s)) == multiset(s)
    decreases |s|
  {
    if |s| > 0 {
      ReversedMultiset(DropLast(s));
      assert s == DropLast(s) + [Last(s)];
    }
  }

  lemma KeepSingle(t: Token, kinds: set<Kind>)
    ensures Keep([t], kinds) == if t.kind in kinds then [t] else []
  {
    assert [t][1..] == [];
  }

  /** Appending one token to the stack adds it to every count of its kind. */
  lemma PushFacts(stack: seq<Token>, t: Token)
    ensures Keep(stack + [t], EmitKinds) == Keep(stack, EmitKinds) + (if t.kind in EmitKinds then [t] else [])
    ensures OpenCount(stack + [t]) == OpenCount(stack) + (if t.kind == Paren then 1 else 0)
    ensures FuncCount(stack + [t]) == FuncCount(stack) + (if t.kind == FuncTok then 1 else 0)
  {
    KeepAppend(stack, [t], EmitKinds);
    KeepAppend(stack, [t], {Paren});
    KeepAppend(stack, [t], {FuncTok});
    KeepSingle(t, EmitKinds);
    KeepSingle(t, {Paren});
    KeepSingle(t, {FuncTok});
  }

  lemma {:induction false} KeepEmpty(s: seq<Token>, kinds: set<Kind>)
    requires Keep(s, kinds) == []
    ensures forall k | 0 <= k < |s| :: s[k].kind !in kinds
    decreases |s|
  {
    if |s| > 0 {
      KeepEmpty(s[1..], kinds);
      assert forall k | 1 <= k < |s| :: s[k] == s[1..][k - 1];
    }
  }

  /** The entries above offset `n` are operators and functions, all of them on their way to the output. */
  lemma PoppedEmit(f: Frame, n: nat)
    requires Valid(f) && n <= |f.stack|
    requires forall k | n <= k < |f.stack| :: f.stack[k].kind != Paren
    ensures forall t | t in f.stack[n..] :: t.kind in EmitKinds && PostfixToken(t)
  {
    forall t | t in f.stack[n..] ensures t.kind in EmitKinds && PostfixToken(t) {
      var k :| n <= k < |f.stack| && f.stack[k] == t;
    }
  }

  /**
   * Moving the entries of the stack above offset `n`, none of them a parenthesis,
   * onto the output in reverse order keeps the stacks valid.
   */
  lemma PopValid(f: Frame, n: nat)
    requires Valid(f) && n <= |f.stack|
    requires forall k | n <= k < |f.stack| :: f.stack[k].kind != Paren
    ensures Valid(Frame(f.out + Reversed(f.stack[n..]), f.stack[..n], f.counts))
  {
    var popped := f.stack[n..];
    assert f.stack == f.stack[..n] + popped;
    PoppedEmit(f, n);
    ReversedMultiset(popped);
    KeepAppend(f.stack[..n], popped, {FuncTok});
    var o := f.out + Reversed(popped);
    forall k | 0 <= k < |o| ensures PostfixToken(o[k]) {
      if k >= |f.out| {
        assert o[k] in multiset(Reversed(popped));
      }
    }
  }

  /** ... keeps every pending token exactly once, emits no integer and leaves the parentheses alone. */
  lemma PopFacts(f: Frame, n: nat)
    requires Valid(f) && n <= |f.stack|
    requires forall k | n <= k < |f.stack| :: f.stack[k].kind != Paren
    ensures var f' := Frame(f.out + Reversed(f.stack[n..]), f.stack[..n], f.counts);
      && Valid(f')
      && Pending(f') == Pending(f)
      && Keep(f'.out, {IntTok}) == Keep(f.out, {IntTok})
      && OpenCount(f'.stack) == OpenCount(f.stack)
  {
    PopValid(f, n);
    PoppedEmit(f, n);
    assert f.stack == f.stack[..n] + f.stack[n..];
    PopPending(f.out, f.stack[..n], f.stack[n..]);
    PopOpens(f.stack[..n], f.stack[n..]);
    PopInts(f.out, f.stack[n..]);
  }

  lemma PopOpens(rest: seq<Token>, popped: seq<Token>)
    requires forall t | t in popped :: t.kind in EmitKinds
    ensures OpenCount(rest) == OpenCount(rest + popped)
  {
    KeepAppend(rest, popped, {Paren});
    KeepNone(popped, {Paren});
  }

  lemma PopInts(out: seq<Token>, popped: seq<Token>)
    requires forall t | t in popped :: t.kind != IntTok
    ensures Keep(out + Reversed(popped), {IntTok}) == Keep(out, {IntTok})
  {
    KeepAppend(out, Reversed(popped), {IntTok});
    ReversedMultiset(popped);
    forall t | t in Reversed(popped) ensures t.kind !in {IntTok} {
      assert t in multiset(Reversed(popped));
    }
    KeepNone(Reversed(popped), {IntTok});
  }

  lemma PopPending(out: seq<Token>, rest: seq<Token>, popped: seq<Token>)
    requires forall t | t in popped :: t.kind in EmitKinds
    ensures multiset(out + Reversed(popped)) + multiset(Keep(rest, EmitKinds))
         == multiset(out) + multiset(Keep(rest + popped, EmitKinds))
  {
    ReversedMultiset(popped);
    KeepAppend(rest, popped, EmitKinds);
    KeepAll(popped, EmitKinds);
    calc {
      multiset(out + Reversed(popped)) + multiset(Keep(rest, EmitKinds));
      multiset(out) + multiset(popped) + multiset(Keep(rest, EmitKinds));
      multiset(out) + multiset(Keep(rest, EmitKinds) + popped);
      multiset(out) + multiset(Keep(rest + popped, EmitKinds));
    }
  }

  /** Slicing a stack above `n` before and after taking off its top entry. */
  lemma SliceTop(stack: seq<Token>, n: nat)
    requires n < |stack|
    ensures stack[n..] == DropLast(stack)[n..] + [Last(stack)]
    ensures DropLast(stack[n..]) == DropLast(stack)[n..] && Last(stack[n..]) == Last(stack)
  {
  }

  /** The pop loop of ',' and ')': emit stacked entries until a '(' is on top or the stack is empty. */
  function PopToParen(out: seq<Token>, stack: seq<Token>): (r: (seq<Token>, seq<Token>))
    ensures |r.1| <= |stack| && r.1 == stack[..|r.1|]
    ensures r.0 == out + Reversed(stack[|r.1|..])
    ensures forall k | |r.1| <= k < |stack| :: stack[k].val != "("
    ensures r.1 == [] || Last(r.1).val == "("
    decreases |stack|
  {
    if |stack| > 0 && Last(stack).val != "(" then
      var r := PopToParen(out + [Last(stack)], DropLast(stack));
      SliceTop(stack, |r.1|);
      r
    else (out, stack)
  }

  /**
   * `o` and `s` are what popping the top of `stack` onto `out` leaves, every
   * popped entry being an operator that yields to `t`.
   */
  predicate PoppedYielding(t: Token, out: seq<Token>, stack: seq<Token>, o: seq<Token>, s: seq<Token>) {
    && |s| <= |stack| && s == stack[..|s|]
    && o == out + Reversed(stack[|s|..])
    && (forall k | |s| <= k < |stack| :: stack[k].kind == OpTok && Yields(t.val, stack[k].val))
  }

  /** The pop loop stops below an entry that is not an operator, or one that neither yields to nor chains with `t`. */
  predicate StopsBelow(t: Token, s: seq<Token>) {
    s == [] || Last(s).kind != OpTok || (!Yields(t.val, Last(s).val) && !Chains(t.val, Last(s).val))
  }

  lemma PoppedNothing(t: Token, out: seq<Token>, stack: seq<Token>)
    ensures PoppedYielding(t, out, stack, out, stack)
  {
    assert stack[..|stack|] == stack && stack[|stack|..] == [];
  }

  lemma PoppedOneMore(t: Token, out: seq<Token>, stack: seq<Token>, o: seq<Token>, s: seq<Token>)
    requires |stack| > 0 && Last(stack).kind == OpTok && Yields(t.val, Last(stack).val)
    requires PoppedYielding(t, out + [Last(stack)], DropLast(stack), o, s)
    ensures PoppedYielding(t, out, stack, o, s)
  {
    var d, n := DropLast(stack), |s|;
    assert s == stack[..n] by {
      assert d[..n] == stack[..n];
    }
    assert o == out + Reversed(stack[n..]) by {
      SliceTop(stack, n);
      assert Reversed(stack[n..]) == [Last(stack)] + Reversed(d[n..]);
      assert o == (out + [Last(stack)]) + Reversed(d[n..]);
    }
    forall k | n <= k < |stack| ensures stack[k].kind == OpTok && Yields(t.val, stack[k].val) {
      if k < |d| {
        assert stack[k] == d[k];
      } else {
        assert stack[k] == Last(stack);
      }
    }
  }

  /**
   * Popping the operators above offset `n`, all of which yield to `t`, exposes
   * an operator that `t` cannot be chained with.
   */
  predicate ChainReached(t: Token, stack: seq<Token>, n: int) {
    && 0 < n <= |stack|
    && (forall k | n <= k < |stack| :: stack[k].kind == OpTok && Yields(t.val, stack[k].val))
    && stack[n - 1].kind == OpTok && Chains(t.val, stack[n - 1].val)
  }

  /** A chain failure one entry further down is also one for the stack with one more yielding operator on top. */
  lemma ChainReachedOneMore(t: Token, stack: seq<Token>, n: int)
    requires |stack| > 0 && Last(stack).kind == OpTok && Yields(t.val, Last(stack).val)
    requires ChainReached(t, DropLast(stack), n)
    ensures ChainReached(t, stack, n)
  {
    forall k | n <= k < |stack| ensures stack[k].kind == OpTok && Yields(t.val, stack[k].val) {
      if k < |stack| - 1 {
        assert stack[k] == DropLast(stack)[k];
      }
    }
  }

  /**
   * The pop loop of an incoming operator `t`: while an operator is on top, fail
   * if the two cannot be chained, emit it if it yields to `t`, stop otherwise.
   */
  function PopOperators(t: Token, out: seq<Token>, stack: seq<Token>): (r: Result<(seq<Token>, seq<Token>)>)
    ensures r.Ok? ==> PoppedYielding(t, out, stack, r.value.0, r.value.1) && StopsBelow(t, r.value.1)
    ensures r.Err? ==> exists n :: ChainReached(t, stack, n) && r.error == CannotChain(t.val, stack[n - 1].val, t.at)
    decreases |stack|
  {
    if |stack| > 0 && Last(stack).kind == OpTok then
      var other := Last(stack).val;
      if Chains(t.val, other) then
        assert ChainReached(t, stack, |stack|);
        Err(CannotChain(t.val, other, t.at))
      else if Yields(t.val, other) then
        var r := PopOperators(t, out + [Last(stack)], DropLast(stack));
        if r.Ok? then
          PoppedOneMore(t, out, stack, r.value.0, r.value.1);
          r
        else
          var n :| ChainReached(t, DropLast(stack), n) && r.error == CannotChain(t.val, DropLast(stack)[n - 1].val, t.at);
          ChainReachedOneMore(t, stack, n);
          assert stack[n - 1] == DropLast(stack)[n - 1];
          r
      else
        PoppedNothing(t, out, stack);
        Ok((out, stack))
    else
      PoppedNothing(t, out, stack);
      Ok((out, stack))
  }

  /**
   * The converse of PopOperators' contract: when the operators above offset `n`
   * all yield to `t` and the pop loop stops below them, it pops exactly those.
   */
  lemma {:induction false} PopOperatorsStopsAt(t: Token, out: seq<Token>, stack: seq<Token>, n: nat)
    requires n <= |stack| && StopsBelow(t, stack[..n])
    requires forall k | n <= k < |stack| :: stack[k].kind == OpTok && Yields(t.val, stack[k].val)
    ensures PopOperators(t, out, stack) == Ok((out + Reversed(stack[n..]), stack[..n]))
    decreases |stack|
  {
    if n == |stack| {
      assert stack[..n] == stack && stack[n..] == [] && out + [] == out;
    } else {
      var d := DropLast(stack);
      assert d[..n] == stack[..n];
      forall k | n <= k < |d| ensures d[k].kind == OpTok && Yields(t.val, d[k].val) {
        assert d[k] == stack[k];
      }
      PopOperatorsStopsAt(t, out + [Last(stack)], d, n);
      SliceTop(stack, n);
      assert Reversed(stack[n..]) == [Last(stack)] + Reversed(d[n..]);
      assert out + [Last(stack)] + Reversed(d[n..]) == out + Reversed(stack[n..]);
    }
  }

  /** The converse of PopOperators' failure: an operator it cannot be chained with, reached by popping, fails it. */
  lemma {:induction false} PopOperatorsMeetsChain(t: Token, out: seq<Token>, stack: seq<Token>, n: int)
    requires ChainReached(t, stack, n)
    ensures PopOperators(t, out, stack) == Err(CannotChain(t.val, stack[n - 1].val, t.at))
    decreases |stack|
  {
    if n < |stack| {
      var d := DropLast(stack);
      assert Yields(t.val, Last(stack).val) && Last(stack).kind == OpTok;
      assert ChainReached(t, d, n) by {
        forall k | n <= k < |d| ensures d[k].kind == OpTok && Yields(t.val, d[k].val) {
          assert d[k] == stack[k];
        }
        assert d[n - 1] == stack[n - 1];
      }
      PopOperatorsMeetsChain(t, out + [Last(stack)], d, n);
      assert d[n - 1] == stack[n - 1];
    }
  }

  /** The final loop: emit the rest of the stack, failing on a '(' that was never closed. */
  function Drain(out: seq<Token>, stack: seq<Token>): (r: Result<seq<Token>>)
    ensures r.Ok? <==> OpenCount(stack) == 0
    ensures r.Ok? ==> r.value == out + Reversed(stack)
    ensures r.Err? ==> r.error == UnmatchedParentheses(Last(Keep(stack, {Paren})).at)
    decreases |stack|
  {
    if |stack| == 0 then Ok(out)
    else
      assert stack == DropLast(stack) + [Last(stack)];
      KeepAppend(DropLast(stack), [Last(stack)], {Paren});
      if Last(stack).kind == Paren then Err(UnmatchedParentheses(Last(stack).at))
      else Drain(out + [Last(stack)], DropLast(stack))
  }

  /**
   * What one token does to the stacks: they stay valid, an integer, operator or
   * function joins the pending tokens, an integer is also the newest integer
   * of the output, and the open parentheses move by the token's depth.
   */
  ghost predicate Advances(f: Frame, t: Token, g: Frame) {
    && Valid(g)
    && Pending(g) == (if t.kind in EmitKinds then Pending(f) + multiset{t} else Pending(f))
    && Keep(g.out, {IntTok}) == (if t.kind == IntTok then Keep(f.out, {IntTok}) + [t] else Keep(f.out, {IntTok}))
    && OpenCount(g.stack) == OpenCount(f.stack) + Delta(t)
  }

  /** The stacks stay valid, with the same pending tokens and the same integers on the output. */
  ghost predicate Preserves(f: Frame, g: Frame) {
    Valid(g) && Pending(g) == Pending(f) && Keep(g.out, {IntTok}) == Keep(f.out, {IntTok})
  }

  lemma PreservesTrans(f: Frame, g: Frame, h: Frame)
    requires Preserves(f, g) && Preserves(g, h)
    ensures Preserves(f, h)
  {
  }

  /** Changing the counters, but not their number, preserves the stacks. */
  lemma Recounted(f: Frame, g: Frame, counts: seq<int>)
    requires Preserves(f, g) && |counts| == |g.counts|
    ensures Preserves(f, g.(counts := counts))
  {
  }

  /** A ',' or a parenthesis advances the stacks when it preserves them and only moves the depth. */
  lemma AdvancesWithoutEmitting(f: Frame, t: Token, g: Frame)
    requires t.kind == ArgSep || t.kind == Paren
    requires Preserves(f, g)
    requires OpenCount(g.stack) == OpenCount(f.stack) + Delta(t)
    ensures Advances(f, t, g)
  {
  }

  /** An integer goes straight to the output. */
  function PushOperand(f: Frame, t: Token): (r: Frame)
    requires Valid(f) && t.kind == IntTok && Lexical(t)
    ensures Advances(f, t, r)
    ensures r == Frame(f.out + [t], f.stack, f.counts)
  {
    KeepAppend(f.out, [t], {IntTok});
    EmitValid(f, t);
    Frame(f.out + [t], f.stack, f.counts)
  }

  /** Appending an emittable token to the output keeps the frame valid and makes the token pending. */
  lemma EmitValid(f: Frame, t: Token)
    requires Valid(f) && PostfixToken(t)
    ensures var g := Frame(f.out + [t], f.stack, f.counts);
      Valid(g) && Pending(g) == Pending(f) + multiset{t}
  {
    var o := f.out + [t];
    assert forall k | 0 <= k < |o| :: o[k] == if k < |f.out| then f.out[k] else t;
    assert multiset(o) == multiset(f.out) + multiset{t};
  }

  /** The counters after pushing `t`: a function brings its argument count. */
  function PushCounts(counts: seq<int>, t: Token): seq<int>
    requires StackEntry(t)
  {
    if t.kind == FuncTok then counts + [Functions[t.val]] else counts
  }

  lemma PushValid(f: Frame, t: Token)
    requires Valid(f) && StackEntry(t)
    ensures Valid(Frame(f.out, f.stack + [t], PushCounts(f.counts, t)))
  {
    PushFacts(f.stack, t);
    var s := f.stack + [t];
    assert forall k | 0 <= k < |s| :: s[k] == if k < |f.stack| then f.stack[k] else t;
  }

  lemma PushPending(f: Frame, t: Token)
    requires StackEntry(t)
    ensures var g := Frame(f.out, f.stack + [t], PushCounts(f.counts, t));
      && Pending(g) == (if t.kind in EmitKinds then Pending(f) + multiset{t} else Pending(f))
      && OpenCount(g.stack) == OpenCount(f.stack) + Delta(t)
  {
    PushFacts(f.stack, t);
  }

  /** A known function or a '(' is pushed; a function also pushes its argument count. */
  function PushEntry(f: Frame, t: Token): (r: Frame)
    requires Valid(f) && StackEntry(t)
    ensures Advances(f, t, r) && r.out == f.out && r.stack == f.stack + [t]
    ensures r.counts == if t.kind == FuncTok then f.counts + [Functions[t.val]] else f.counts
  {
    PushValid(f, t);
    PushPending(f, t);
    Frame(f.out, f.stack + [t], PushCounts(f.counts, t))
  }

  /**
   * `g` is what the pop loop of ',' and ')' leaves of `f`: the entries above the
   * innermost '(' (or the whole stack when none is open) moved to the output,
   * newest first, with the counters untouched.
   */
  predicate Flushed(f: Frame, g: Frame) {
    && |g.stack| <= |f.stack| && g.stack == f.stack[..|g.stack|]
    && g.out == f.out + Reversed(f.stack[|g.stack|..])
    && (forall k | |g.stack| <= k < |f.stack| :: f.stack[k].kind != Paren)
    && (g.stack == [] || Last(g.stack).kind == Paren)
    && g.counts == f.counts
  }

  /** The pop loop of ',' and ')' applied to the frame. */
  function Flush(f: Frame): (g: Frame)
    requires Valid(f)
    ensures Flushed(f, g)
    ensures Preserves(f, g) && OpenCount(g.stack) == OpenCount(f.stack)
  {
    var (o, s) := PopToParen(f.out, f.stack);
    FlushFacts(f, o, s);
    PopFlushed(f, o, s);
    Frame(o, s, f.counts)
  }

  lemma FlushFacts(f: Frame, o: seq<Token>, s: seq<Token>)
    requires Valid(f) && (o, s) == PopToParen(f.out, f.stack)
    ensures var g := Frame(o, s, f.counts);
      && Valid(g) && Pending(g) == Pending(f) && Keep(g.out, {IntTok}) == Keep(f.out, {IntTok})
      && OpenCount(g.stack) == OpenCount(f.stack)
      && (g.stack == [] || Last(g.stack).kind == Paren)
  {
    var n := |s|;
    assert s == f.stack[..n] && o == f.out + Reversed(f.stack[n..]);
    assert forall k | n <= k < |f.stack| :: f.stack[k].kind != Paren by {
      forall k | n <= k < |f.stack| ensures f.stack[k].kind != Paren {
        assert StackEntry(f.stack[k]) && f.stack[k].val != "(";
      }
    }
    PopFacts(f, n);
    assert s == [] || Last(s).kind == Paren by {
      if s != [] {
        assert Last(s) == f.stack[n - 1];
        assert StackEntry(f.stack[n - 1]) && f.stack[n - 1].val == "(";
        OpenParenIsNoName();
      }
    }
  }

  /** `r` is `counts` with one argument fewer outstanding for the innermost call, the outer calls untouched. */
  predicate Counted(counts: seq<int>, r: seq<int>) {
    |r| == |counts| > 0 && DropLast(r) == DropLast(counts) && Last(r) == Last(counts) - 1
  }

  /** The converse of PopToParen's contract: it pops exactly the entries above the innermost '('. */
  lemma {:induction false} PopToParenStopsAt(out: seq<Token>, stack: seq<Token>, n: nat)
    requires n <= |stack| && (n == 0 || stack[n - 1].val == "(")
    requires forall k | n <= k < |stack| :: stack[k].val != "("
    ensures PopToParen(out, stack) == (out + Reversed(stack[n..]), stack[..n])
    decreases |stack|
  {
    if n == |stack| {
      assert stack[..n] == stack && stack[n..] == [] && out + [] == out;
    } else {
      var d := DropLast(stack);
      assert d[..n] == stack[..n] && (n == 0 || d[n - 1] == stack[n - 1]);
      forall k | n <= k < |d| ensures d[k].val != "(" {
        assert d[k] == stack[k];
      }
      PopToParenStopsAt(out + [Last(stack)], d, n);
      SliceTop(stack, n);
      assert Reversed(stack[n..]) == [Last(stack)] + Reversed(d[n..]);
      assert out + [Last(stack)] + Reversed(d[n..]) == out + Reversed(stack[n..]);
    }
  }

  /** The pop loop of ',' and ')' flushes the frame. */
  lemma PopFlushed(f: Frame, o: seq<Token>, s: seq<Token>)
    requires Valid(f) && (o, s) == PopToParen(f.out, f.stack)
    ensures Flushed(f, Frame(o, s, f.counts))
  {
    forall k | |s| <= k < |f.stack| ensures f.stack[k].kind != Paren {
      assert StackEntry(f.stack[k]);
    }
    if s != [] {
      assert StackEntry(Last(s)) by {
        assert Last(s) == f.stack[|s| - 1];
      }
      OpenParenIsNoName();
    }
  }

  /** The counters once the innermost call has read one more argument. */
  function CountArgument(counts: seq<int>): (r: seq<int>)
    requires |counts| > 0
    ensures Counted(counts, r)
  {
    DropLast(counts) + [Last(counts) - 1]
  }

  /** A ',' counts one argument of the innermost call and flushes the pending operators of that argument. */
  function Separate(f: Frame, t: Token): (r: Result<Frame>)
    requires Valid(f) && t.kind == ArgSep
    ensures r.Err? <==> f.counts == []
    ensures r.Err? ==> r.error == ExtraArgument(t.at)
    ensures r.Ok? ==> Advances(f, t, r.value)
    ensures r.Ok? ==> Flushed(f, r.value.(counts := f.counts)) && Counted(f.counts, r.value.counts)
  {
    if |f.counts| == 0 then
      Err(ExtraArgument(t.at))
    else
      var p := PopToParen(f.out, f.stack);
      FlushFacts(f, p.0, p.1);
      PopFlushed(f, p.0, p.1);
      var h := Frame(p.0, p.1, CountArgument(f.counts));
      Recounted(f, Frame(p.0, p.1, f.counts), h.counts);
      AdvancesWithoutEmitting(f, t, h);
      Ok(h)
  }

  /** What a ',' leaves when a call is open: the flushed stacks with one argument counted. */
  lemma SeparateValue(f: Frame, t: Token)
    requires Valid(f) && t.kind == ArgSep && |f.counts| > 0
    ensures var p := PopToParen(f.out, f.stack);
      Separate(f, t) == Ok(Frame(p.0, p.1, CountArgument(f.counts)))
  {
  }

  /** Drop the '(' on top of the stack. */
  function DropParen(g: Frame): (h: Frame)
    requires Valid(g) && |g.stack| > 0 && Last(g.stack).kind == Paren
    ensures Preserves(g, h) && h.out == g.out && h.counts == g.counts && h.stack == DropLast(g.stack)
    ensures OpenCount(h.stack) + 1 == OpenCount(g.stack)
  {
    var s := DropLast(g.stack);
    assert OpenCount(s) + 1 == OpenCount(g.stack) && FuncCount(s) == FuncCount(g.stack)
        && Keep(s, EmitKinds) == Keep(g.stack, EmitKinds) by {
      assert g.stack == s + [Last(g.stack)];
      PushFacts(s, Last(g.stack));
    }
    g.(stack := s)
  }

  /** Emit the function on top of the stack and drop its argument counter. */
  function EndCall(h: Frame): (r: Frame)
    requires Valid(h) && |h.stack| > 0 && Last(h.stack).kind == FuncTok
    ensures Preserves(h, r) && OpenCount(r.stack) == OpenCount(h.stack)
    ensures r.out == h.out + [Last(h.stack)] && r.stack == DropLast(h.stack)
    ensures |r.counts| + 1 == |h.counts| && r.counts == h.counts[..|r.counts|]
  {
    var s, fn := DropLast(h.stack), Last(h.stack);
    assert OpenCount(s) == OpenCount(h.stack) && FuncCount(s) + 1 == FuncCount(h.stack)
        && Keep(s, EmitKinds) + [fn] == Keep(h.stack, EmitKinds) by {
      assert h.stack == s + [fn];
      PushFacts(s, fn);
    }
    assert Keep(h.out + [fn], {IntTok}) == Keep(h.out, {IntTok}) by {
      KeepAppend(h.out, [fn], {IntTok});
      KeepSingle(fn, {IntTok});
    }
    Frame(h.out + [fn], s, DropLast(h.counts))
  }

  /** A stacked function always has its argument counter. */
  lemma TopCallHasCounter(h: Frame)
    requires Valid(h) && |h.stack| > 0 && Last(h.stack).kind == FuncTok
    ensures |h.counts| > 0
  {
    assert h.stack == DropLast(h.stack) + [Last(h.stack)];
    PushFacts(DropLast(h.stack), Last(h.stack));
  }

  /** A function is on top of the stack. */
  predicate CallOnTop(h: Frame) {
    |h.stack| > 0 && Last(h.stack).kind == FuncTok
  }

  /**
   * After a ')' has dropped its '(': a function below it completes its call,
   * which fails when its counter says arguments are still missing.
   */
  function EndGroup(h: Frame): (r: Result<Frame>)
    requires Valid(h)
    ensures r.Ok? ==> Preserves(h, r.value) && OpenCount(r.value.stack) == OpenCount(h.stack)
    ensures !CallOnTop(h) ==> r == Ok(h)
    ensures CallOnTop(h) ==> |h.counts| > 0 && (r.Err? <==> Last(h.counts) > 1)
    ensures CallOnTop(h) && r.Err? ==> r.error == NotEnoughArguments(Last(h.stack).val, Last(h.stack).at)
    ensures CallOnTop(h) && r.Ok? ==> r.value == Frame(h.out + [Last(h.stack)], DropLast(h.stack), DropLast(h.counts))
  {
    if CallOnTop(h) then
      TopCallHasCounter(h);
      if Last(h.counts) > 1 then
        Err(NotEnoughArguments(Last(h.stack).val, Last(h.stack).at))
      else
        Ok(EndCall(h))
    else
      Ok(h)
  }

  /** The pop loop of a ')' empties the stack exactly when no '(' is open. */
  lemma FlushedEmpty(f: Frame)
    requires Valid(f)
    ensures |Flush(f).stack| == 0 <==> OpenCount(f.stack) == 0
  {
    var g := Flush(f);
    if |g.stack| > 0 {
      assert OpenCount(DropParen(g).stack) + 1 == OpenCount(f.stack);
    } else {
      assert Keep(g.stack, {Paren}) == [];
    }
  }

  /**
   * What a ')' makes of the flushed frame `g`, whose top is the matching '(':
   * with a function under the '(' the call ends, failing when its counter
   * still exceeds one; otherwise the '(' is simply dropped.
   */
  predicate ClosedGroup(g: Frame, r: Result<Frame>)
    requires |g.stack| > 0
  {
    var s := DropLast(g.stack);
    if |s| > 0 && Last(s).kind == FuncTok then
      && |g.counts| > 0
      && (r.Err? <==> Last(g.counts) > 1)
      && (r.Err? ==> r.error == NotEnoughArguments(Last(s).val, Last(s).at))
      && (r.Ok? ==> r.value == Frame(g.out + [Last(s)], DropLast(s), DropLast(g.counts)))
    else
      r == Ok(Frame(g.out, s, g.counts))
  }

  /** A ')' emits the pending operators down to its '(', drops it and ends the group. */
  function Close(f: Frame, t: Token): (r: Result<Frame>)
    requires Valid(f) && t.kind == Paren && t.val != "("
    ensures r == Err(PopFromEmptyList) <==> OpenCount(f.stack) == 0
    ensures r.Err? ==> r == Err(PopFromEmptyList) || r.error.NotEnoughArguments?
    ensures r.Ok? ==> Advances(f, t, r.value)
    ensures OpenCount(f.stack) > 0 ==> ClosedGroup(Flush(f), r)
  {
    var g := Flush(f);
    FlushedEmpty(f);
    if |g.stack| == 0 then
      Err(PopFromEmptyList)
    else
      var h := DropParen(g);
      var r := EndGroup(h);
      if r.Ok? then
        PreservesTrans(f, g, h);
        PreservesTrans(f, h, r.value);
        AdvancesWithoutEmitting(f, t, r.value);
        r
      else
        r
  }

  /**
   * `g` is `f` after the operator `t` was pushed: the operators that yield to
   * `t` were emitted, newest first, down to one that does not, and `t` is on top.
   */
  predicate PushedOperator(f: Frame, t: Token, g: Frame) {
    && |g.stack| > 0 && Last(g.stack) == t && g.counts == f.counts
    && PoppedYielding(t, f.out, f.stack, g.out, DropLast(g.stack))
    && StopsBelow(t, DropLast(g.stack))
  }

  /** An operator: unknown ones fail, otherwise the operator pop loop runs and the operator is pushed. */
  function PushOperator(f: Frame, t: Token): (r: Result<Frame>)
    requires Valid(f) && t.kind == OpTok
    ensures t.val !in Operators ==> r == Err(UnknownOperator(t.val, t.at))
    ensures r.Err? && t.val in Operators ==>
      exists n :: ChainReached(t, f.stack, n) && r.error == CannotChain(t.val, f.stack[n - 1].val, t.at)
    ensures r.Ok? ==> Advances(f, t, r.value)
    ensures r.Ok? ==> PushedOperator(f, t, r.value)
  {
    if t.val in Operators then
      match PopOperators(t, f.out, f.stack)
      case Err(e) => Err(e)
      case Ok((o, s)) =>
        PopFacts(f, |s|);
        var g := PushEntry(Frame(o, s, f.counts), t);
        assert DropLast(g.stack) == s;
        Ok(g)
    else
      Err(UnknownOperator(t.val, t.at))
  }

  /** The '(' at offset `n` - 1 is the innermost one, with a function right below it. */
  predicate ClosesCall(f: Frame, n: nat) {
    && 2 <= n <= |f.stack| && f.stack[n - 1].val == "(" && f.stack[n - 2].kind == FuncTok
    && forall k | n <= k < |f.stack| :: f.stack[k].val != "("
  }

  lemma TopTwo(s: seq<Token>, n: nat)
    requires 2 <= n <= |s|
    ensures DropLast(s[..n]) == s[..n - 1] && Last(s[..n - 1]) == s[n - 2] && DropLast(s[..n - 1]) == s[..n - 2]
  {
  }

  /** A ')' whose '(' has a function below it flushes down to the '(', drops it and ends that call. */
  lemma CloseAt(f: Frame, t: Token, n: nat)
    requires Valid(f) && t == Token(Paren, ")", t.at) && ClosesCall(f, n)
    ensures var h := Frame(f.out + Reversed(f.stack[n..]), f.stack[..n - 1], f.counts);
      && Valid(h) && CallOnTop(h) && Last(h.stack) == f.stack[n - 2] && DropLast(h.stack) == f.stack[..n - 2]
      && Step(f, t) == EndGroup(h)
  {
    PopToParenStopsAt(f.out, f.stack, n);
    TopTwo(f.stack, n);
    var g := Flush(f);
    assert g.stack == f.stack[..n] && |g.stack| > 0 && Last(g.stack).kind == Paren;
    var h := DropParen(g);
    assert h == Frame(f.out + Reversed(f.stack[n..]), f.stack[..n - 1], f.counts) && Valid(h);
    assert Step(f, t) == Close(f, t) == EndGroup(h);
  }

  /** An operator whose pop loop stops at offset `n` emits the entries above it and is pushed. */
  lemma OperatorStopsAt(f: Frame, t: Token, n: nat)
    requires Valid(f) && t.kind == OpTok && Lexical(t) && t.val in Operators && n <= |f.stack|
    requires forall k | n <= k < |f.stack| :: f.stack[k].kind == OpTok && Yields(t.val, f.stack[k].val)
    requires StopsBelow(t, f.stack[..n])
    ensures Step(f, t) == Ok(Frame(f.out + Reversed(f.stack[n..]), f.stack[..n] + [t], f.counts))
  {
    PopOperatorsStopsAt(t, f.out, f.stack, n);
  }

  /** One token of the main loop. */
  function Step(f: Frame, t: Token): (r: Result<Frame>)
    requires Valid(f) && Lexical(t)
    ensures r.Ok? ==> Advances(f, t, r.value)
    ensures t.kind == IntTok || (t.kind == Paren && t.val == "(") ==> r.Ok?
    ensures t.kind == FuncTok ==> (r.Ok? <==> t.val in Functions)
    ensures t.kind == FuncTok && r.Err? ==> r.error == UnknownFunction(t.val, t.at)
  {
    match t.kind
    case IntTok => Ok(PushOperand(f, t))
    case FuncTok =>
      if t.val in Functions then Ok(PushEntry(f, t))
      else Err(UnknownFunction(t.val, t.at))
    case ArgSep => Separate(f, t)
    case Paren =>
      if t.val == "(" then Ok(PushEntry(f, t))
      else
        // the tokenizer makes every other parenthesis a ')'
        Close(f, t)
    case OpTok => PushOperator(f, t)
  }

  /**
   * What one token of the main loop does to the stacks, branch by branch: an
   * integer is emitted; a known function or '(' is pushed, a function with its
   * argument count; ',' fails with no call open, otherwise flushes to the
   * innermost '(' and counts one argument; ')' fails on an empty stack exactly
   * when no '(' is open, otherwise flushes and ends its group; an unknown
   * operator fails, a known one fails exactly on meeting, below operators that
   * yield to it, an operator it cannot be chained with, and otherwise emits
   * those and is pushed.
   */
  lemma StepEffect(f: Frame, t: Token)
    requires Valid(f) && Lexical(t)
    ensures var r := Step(f, t); t.kind == IntTok ==> r == Ok(Frame(f.out + [t], f.stack, f.counts))
    ensures var r := Step(f, t);
      StackEntry(t) && t.kind != OpTok ==> r == Ok(Frame(f.out, f.stack + [t], PushCounts(f.counts, t)))
    ensures var r := Step(f, t); t.kind == ArgSep ==> (r.Err? <==> f.counts == [])
    ensures var r := Step(f, t);
      t.kind == ArgSep && r.Ok? ==> Flushed(f, r.value.(counts := f.counts)) && Counted(f.counts, r.value.counts)
    ensures var r := Step(f, t);
      t.kind == Paren && t.val != "(" ==> (r == Err(PopFromEmptyList) <==> OpenCount(f.stack) == 0)
    ensures var r := Step(f, t);
      t.kind == Paren && t.val != "(" && OpenCount(f.stack) > 0 ==> ClosedGroup(Flush(f), r)
    ensures var r := Step(f, t); t.kind == OpTok && t.val !in Operators ==> r == Err(UnknownOperator(t.val, t.at))
    ensures var r := Step(f, t); t.kind == OpTok && t.val in Operators && r.Err? ==>
      exists n :: ChainReached(t, f.stack, n) && r.error == CannotChain(t.val, f.stack[n - 1].val, t.at)
    ensures var r := Step(f, t); t.kind == OpTok && t.val in Operators && (exists n :: ChainReached(t, f.stack, n)) ==> r.Err?
    ensures var r := Step(f, t); t.kind == OpTok && r.Ok? ==> PushedOperator(f, t, r.value)
  {
    if t.kind == OpTok && t.val in Operators && exists n :: ChainReached(t, f.stack, n) {
      var n :| ChainReached(t, f.stack, n);
      PopOperatorsMeetsChain(t, f.out, f.stack, n);
    }
  }

  /** The main loop from cursor `i`, then the final drain. */
  function ConvertFrom(roll: string, i: nat, f: Frame): (r: Result<seq<Token>>)
    requires i <= |roll| && Valid(f)
    ensures r.Ok? ==> forall k | 0 <= k < |r.value| :: PostfixToken(r.value[k])
    decreases |roll| - i
  {
    if i == |roll| then
      var r := Drain(f.out, f.stack);
      if r.Ok? then
        KeepEmpty(f.stack, {Paren});
        PopValid(f, 0);
        r
      else r
    else
      match NextToken(roll, i)
      case Err(e) => Err(e)
      case Ok((t, j)) =>
        match Step(f, t)
        case Err(e) => Err(e)
        case Ok(f') => ConvertFrom(roll, j, f')
  }

  /** The postfix form of an expression, or the error the conversion raises. */
  function ToPostfix(roll: string): (r: Result<seq<Token>>)
    ensures r.Ok? ==> forall k | 0 <= k < |r.value| :: PostfixToken(r.value[k])
  {
    ConvertFrom(roll, 0, Start)
  }

  lemma KeepCons(t: Token, ts: seq<Token>, kinds: set<Kind>)
    ensures Keep([t] + ts, kinds) == (if t.kind in kinds then [t] else []) + Keep(ts, kinds)
  {
    assert ([t] + ts)[0] == t && ([t] + ts)[1..] == ts;
  }

  lemma DepthCons(t: Token, ts: seq<Token>)
    ensures Depth([t] + ts) == Delta(t) + Depth(ts)
  {
    assert ([t] + ts)[0] == t && ([t] + ts)[1..] == ts;
  }

  /** The final drain hands every pending token to the output and emits no integer. */
  lemma DrainFacts(f: Frame)
    requires Valid(f) && Drain(f.out, f.stack).Ok?
    ensures multiset(Drain(f.out, f.stack).value) == Pending(f)
    ensures Keep(Drain(f.out, f.stack).value, {IntTok}) == Keep(f.out, {IntTok})
  {
    KeepEmpty(f.stack, {Paren});
    assert f.stack[0..] == f.stack && f.stack[..0] == [];
    PopFacts(f, 0);
  }

  /** A conversion that succeeds has tokenized the whole input. */
  lemma {:induction false} ConvertLexes(roll: string, i: nat, f: Frame)
    requires i <= |roll| && Valid(f) && ConvertFrom(roll, i, f).Ok?
    ensures LexFrom(roll, i).Ok?
    decreases |roll| - i
  {
    if i < |roll| {
      var (t, j) := NextToken(roll, i).value;
      ConvertLexes(roll, j, Step(f, t).value);
    }
  }

  /**
   * A successful conversion outputs exactly the pending tokens and the
   * integers, operators and functions of the rest of the input: no token is
   * lost, duplicated or invented.
   */
  lemma {:induction false} ConvertConserves(roll: string, i: nat, f: Frame)
    requires i <= |roll| && Valid(f) && ConvertFrom(roll, i, f).Ok?
    ensures LexFrom(roll, i).Ok?
    ensures multiset(ConvertFrom(roll, i, f).value)
         == Pending(f) + multiset(Keep(LexFrom(roll, i).value, EmitKinds))
    decreases |roll| - i
  {
    ConvertLexes(roll, i, f);
    if i == |roll| {
      DrainFacts(f);
    } else {
      var (t, j) := NextToken(roll, i).value;
      var g := Step(f, t).value;
      var rest := LexFrom(roll, j).value;
      assert LexFrom(roll, i).value == [t] + rest;
      assert ConvertFrom(roll, i, f) == ConvertFrom(roll, j, g);
      ConvertConserves(roll, j, g);
      ConserveStep(Pending(f), t, Pending(g), rest, multiset(ConvertFrom(roll, j, g).value));
    }
  }

  lemma IntOrderStep(before: seq<Token>, t: Token, after: seq<Token>, rest: seq<Token>, out: seq<Token>)
    requires after == if t.kind == IntTok then before + [t] else before
    requires out == after + Keep(rest, {IntTok})
    ensures out == before + Keep([t] + rest, {IntTok})
  {
    KeepCons(t, rest, {IntTok});
    if t.kind == IntTok {
      assert before + [t] + Keep(rest, {IntTok}) == before + ([t] + Keep(rest, {IntTok}));
    } else {
      assert [] + Keep(rest, {IntTok}) == Keep(rest, {IntTok});
    }
  }

  lemma ConserveStep(before: multiset<Token>, t: Token, after: multiset<Token>, rest: seq<Token>, out: multiset<Token>)
    requires after == if t.kind in EmitKinds then before + multiset{t} else before
    requires out == after + multiset(Keep(rest, EmitKinds))
    ensures out == before + multiset(Keep([t] + rest, EmitKinds))
  {
    KeepCons(t, rest, EmitKinds);
  }

  /** A successful conversion keeps the integers in their input order. */
  lemma {:induction false} ConvertKeepsIntOrder(roll: string, i: nat, f: Frame)
    requires i <= |roll| && Valid(f) && ConvertFrom(roll, i, f).Ok?
    ensures LexFrom(roll, i).Ok?
    ensures Keep(ConvertFrom(roll, i, f).value, {IntTok})
         == Keep(f.out, {IntTok}) + Keep(LexFrom(roll, i).value, {IntTok})
    decreases |roll| - i
  {
    ConvertLexes(roll, i, f);
    if i == |roll| {
      DrainFacts(f);
    } else {
      var (t, j) := NextToken(roll, i).value;
      var g := Step(f, t).value;
      var rest := LexFrom(roll, j).value;
      assert LexFrom(roll, i).value == [t] + rest;
      assert ConvertFrom(roll, i, f) == ConvertFrom(roll, j, g);
      ConvertKeepsIntOrder(roll, j, g);
      IntOrderStep(Keep(f.out, {IntTok}), t, Keep(g.out, {IntTok}), rest, Keep(ConvertFrom(roll, j, g).value, {IntTok}));
    }
  }

  /** A successful conversion closes every parenthesis it opens, and never one more. */
  lemma {:induction false} ConvertBalances(roll: string, i: nat, f: Frame)
    requires i <= |roll| && Valid(f) && ConvertFrom(roll, i, f).Ok?
    ensures LexFrom(roll, i).Ok?
    ensures OpenCount(f.stack) + Depth(LexFrom(roll, i).value) == 0
    ensures forall k | 0 <= k <= |LexFrom(roll, i).value| :: OpenCount(f.stack) + Depth(LexFrom(roll, i).value[..k]) >= 0
    decreases |roll| - i
  {
    ConvertLexes(roll, i, f);
    var ts := LexFrom(roll, i).value;
    if i == |roll| {
      assert Drain(f.out, f.stack).Ok?;
    } else {
      var (t, j) := NextToken(roll, i).value;
      var g := Step(f, t).value;
      var rest := LexFrom(roll, j).value;
      assert ts == [t] + rest;
      assert ConvertFrom(roll, i, f) == ConvertFrom(roll, j, g);
      ConvertBalances(roll, j, g);
      BalanceStep(OpenCount(f.stack), t, OpenCount(g.stack), rest);
    }
  }

  lemma BalanceStep(open: int, t: Token, open': int, rest: seq<Token>)
    requires open' == open + Delta(t) && open >= 0
    requires open' + Depth(rest) == 0
    requires forall k | 0 <= k <= |rest| :: open' + Depth(rest[..k]) >= 0
    ensures open + Depth([t] + rest) == 0
    ensures forall k | 0 <= k <= |[t] + rest| :: open + Depth(([t] + rest)[..k]) >= 0
  {
    var ts := [t] + rest;
    DepthCons(t, rest);
    forall k | 0 <= k <= |ts| ensures open + Depth(ts[..k]) >= 0 {
      if k > 0 {
        assert ts[..k] == [t] + rest[..k - 1];
        DepthCons(t, rest[..k - 1]);
      } else {
        assert ts[..k] == [];
      }
    }
  }

  /**
   * The postfix form is a reordering of the integers, operators and function
   * names of the input (parentheses and commas dropped) that keeps the
   * integers in order, and it exists only for input whose parentheses balance.
   */
  lemma PostfixReordersTokens(roll: string)
    requires ToPostfix(roll).Ok?
    ensures Lex(roll).Ok?
    ensures multiset(ToPostfix(roll).value) == multiset(Keep(Lex(roll).value, EmitKinds))
    ensures Keep(ToPostfix(roll).value, {IntTok}) == Keep(Lex(roll).value, {IntTok})
    ensures Balanced(Lex(roll).value)
  {
    ConvertConserves(roll, 0, Start);
    ConvertKeepsIntOrder(roll, 0, Start);
    ConvertBalances(roll, 0, Start);
    assert Pending(Start) == multiset{};
  }

  /** Input that does not tokenize never converts. */
  lemma LexErrorIsConvertError(roll: string)
    requires Lex(roll).Err?
    ensures ToPostfix(roll).Err?
  {
    if ToPostfix(roll).Ok? {
      ConvertLexes(roll, 0, Start);
    }
  }

  lemma {:induction false} KeepSubset(s: seq<Token>, kinds: set<Kind>)
    ensures forall t | t in Keep(s, kinds) :: t in s
    decreases |s|
  {
    if |s| > 0 {
      KeepSubset(s[1..], kinds);
      assert forall t | t in s[1..] :: t in s;
    }
  }

  /**
   * The two-character comparisons of the operator table never reach the
   * output: the tokenizer cuts every operator to one character.
   */
  lemma OnlyOneCharacterOperators(roll: string)
    requires ToPostfix(roll).Ok?
    ensures forall t | t in ToPostfix(roll).value && t.kind == OpTok :: |t.val| == 1
  {
    PostfixReordersTokens(roll);
    var ts := Lex(roll).value;
    EmittedFromInput(ToPostfix(roll).value, ts);
    forall t | t in ToPostfix(roll).value && t.kind == OpTok ensures |t.val| == 1 {
      var k :| 0 <= k < |ts| && ts[k] == t;
      assert Lexical(ts[k]);
    }
  }

  /** Every token of the output is a token of the input. */
  lemma EmittedFromInput(out: seq<Token>, ts: seq<Token>)
    requires multiset(out) == multiset(Keep(ts, EmitKinds))
    ensures forall t | t in out :: t in ts
  {
    KeepSubset(ts, EmitKinds);
    forall t | t in out ensures t in ts {
      assert t in multiset(Keep(ts, EmitKinds));
    }
  }
}
