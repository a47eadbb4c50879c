/** Concrete lines run through the model of `evaluate` on a fresh evaluator.
    They show the code's own results, including where they differ from
    ordinary arithmetic. */
module Examples {
  import opened Values
  import opened Precedence
  import opened Semantics
  import opened Lines

  /** An open bracket and a number, read where both are allowed, are pushed. */
  lemma OpenThenNumber(open: char, a: real, rest: seq<Token>, c: Config)
    requires IsOpen(open) && !c.prevTokOperand && !IsClose(c.prevTokChar)
    ensures EvaluateFrom([S(open), N(a)] + rest, c) ==
            EvaluateFrom(rest, AfterNumber(c.stacks.operators + [open], c.stacks.operands + [Lit(a)], open))
  {
    var tokens := [S(open), N(a)] + rest;
    var c1 := AfterSymbol(c.stacks.operators + [open], c.stacks.operands, open);
    var c2 := AfterNumber(c.stacks.operators + [open], c.stacks.operands + [Lit(a)], open);
    assert Step(S(open), c) == Ok(c1);
    Next(tokens, c, c1);
    assert Step(N(a), c1) == Ok(c2);
    Next(tokens[1..], c1, c2);
    assert tokens[1..][1..] == rest;
  }

  /** `+b` right after an open bracket and a number: CheckPrec defers `+`
      over the bracket, so both are pushed. */
  lemma SumAfterOpen(open: char, operators: seq<char>, operands: seq<Value>, b: real, rest: seq<Token>)
    requires IsOpen(open)
    ensures EvaluateFrom([S('+'), N(b)] + rest, AfterNumber(operators + [open], operands, open)) ==
            EvaluateFrom(rest, AfterNumber(operators + [open, '+'], operands + [Lit(b)], '+'))
  {
    var tokens := [S('+'), N(b)] + rest;
    var c0 := AfterNumber(operators + [open], operands, open);
    var c1 := AfterSymbol(operators + [open, '+'], operands, '+');
    var c2 := AfterNumber(operators + [open, '+'], operands + [Lit(b)], '+');
    assert (operators + [open]) + ['+'] == operators + [open, '+'];
    assert OperatorStep(c0.stacks, '+', true, open) == Ok(c1.stacks);
    Next(tokens, c0, c1);
    assert Step(N(b), c1) == Ok(c2);
    Next(tokens[1..], c1, c2);
    assert tokens[1..][1..] == rest;
  }

  /** `(a+b)*c`, `{a+b}*c`, `(a+b}*c` and `{a+b)*c` all give (a + b) * c:
      bracket kinds are not matched. */
  lemma BracketedSum(open: char, close: char, a: real, b: real, c: real)
    requires IsOpen(open) && IsClose(close)
    ensures Evaluate([S(open), N(a), S('+'), N(b), S(close), S('*'), N(c), EndOfLine]) ==
            Ok(Apply('*', Apply('+', Lit(a), Lit(b)), Lit(c)))
  {
    var tail := [S(close), S('*'), N(c), EndOfLine];
    assert [S(open), N(a), S('+'), N(b), S(close), S('*'), N(c), EndOfLine] == [S(open), N(a)] + ([S('+'), N(b)] + tail);
    OpenThenNumber(open, a, [S('+'), N(b)] + tail, Start(Stacks([], [])));
    assert [] + [open] == [open] && [] + [Lit(a)] == [Lit(a)];
    SumAfterOpen(open, [], [Lit(a)], b, tail);
    assert [] + [open, '+'] == [open, '+'] && [Lit(a)] + [Lit(b)] == [Lit(a), Lit(b)];
    CloseThenProduct(open, close, a, b, c);
  }

  /** The rest of `(a+b)*c` after `b`: the close bracket reduces the sum and
      pops the open bracket, then `*` is pushed onto the empty operator stack. */
  lemma CloseThenProduct(open: char, close: char, a: real, b: real, c: real)
    requires IsOpen(open) && IsClose(close)
    ensures Step(S(close), AfterNumber([open, '+'], [Lit(a), Lit(b)], '+')) ==
            Ok(AfterSymbol([], [Apply('+', Lit(a), Lit(b))], close))
    ensures EvaluateFrom([S(close), S('*'), N(c), EndOfLine], AfterNumber([open, '+'], [Lit(a), Lit(b)], '+')) ==
            Ok(Apply('*', Apply('+', Lit(a), Lit(b)), Lit(c)))
  {
    var sum := Apply('+', Lit(a), Lit(b));
    var line := [S(close), S('*'), N(c), EndOfLine];
    var c4 := AfterNumber([open, '+'], [Lit(a), Lit(b)], '+');
    var c5 := AfterSymbol([], [sum], close);
    var c6 := AfterSymbol(['*'], [sum], '*');
    var c7 := AfterNumber(['*'], [sum, Lit(c)], '*');
    assert DropLast([open, '+']) == [open] && DropLast([open]) == [];
    assert [Lit(a), Lit(b)][..0] + [sum] == [sum];
    assert Combine(Stacks([open], [Lit(a), Lit(b)]), '+') == Ok(Stacks([open], [sum]));
    assert Unwind(c4.stacks) == Ok(c5.stacks);
    Next(line, c4, c5);
    assert [] + ['*'] == ['*'];
    assert OperatorStep(c5.stacks, '*', false, close) == Ok(c6.stacks);
    Next(line[1..], c5, c6);
    assert [sum] + [Lit(c)] == [sum, Lit(c)];
    Next(line[2..], c6, c7);
  }

  /** `a*(b+c)` gives a * (b + c): the close bracket reduces the sum and pops
      the bracket, leaving `*` over a and b + c. Had it done nothing, the final
      resolution would have applied `*` to b and c. */
  lemma ProductOfBracketedSum(open: char, close: char, a: real, b: real, c: real)
    requires IsOpen(open) && IsClose(close)
    ensures Evaluate([N(a), S('*'), S(open), N(b), S('+'), N(c), S(close), EndOfLine]) ==
            Ok(Apply('*', Lit(a), Apply('+', Lit(b), Lit(c))))
  {
    var tail := [S(close), EndOfLine];
    assert [N(a), S('*'), S(open), N(b), S('+'), N(c), S(close), EndOfLine] ==
           [N(a), S('*'), S(open), N(b), S('+'), N(c)] + tail;
    ProductThenOpenSum(a, open, b, c, tail);
    CloseSumUnderProduct(open, close, a, b, c);
  }

  /** The first six tokens of `a*(b+c)`: `*`, the bracket and `+` are all
      stacked over a, b and c. */
  lemma ProductThenOpenSum(a: real, open: char, b: real, c: real, rest: seq<Token>)
    requires IsOpen(open)
    ensures Evaluate([N(a), S('*'), S(open), N(b), S('+'), N(c)] + rest) ==
            EvaluateFrom(rest, AfterNumber(['*', open, '+'], [Lit(a), Lit(b), Lit(c)], '+'))
  {
    var c2 := AfterSymbol(['*'], [Lit(a)], '*');
    assert [N(a), S('*'), S(open), N(b), S('+'), N(c)] + rest ==
           [N(a), S('*')] + ([S(open), N(b)] + ([S('+'), N(c)] + rest));
    ProductFirst(a, [S(open), N(b)] + ([S('+'), N(c)] + rest));
    OpenThenNumber(open, b, [S('+'), N(c)] + rest, c2);
    assert ['*'] + [open] == ['*', open] && [Lit(a)] + [Lit(b)] == [Lit(a), Lit(b)];
    SumAfterOpen(open, ['*'], [Lit(a), Lit(b)], c, rest);
    assert ['*'] + [open, '+'] == ['*', open, '+'] && [Lit(a), Lit(b)] + [Lit(c)] == [Lit(a), Lit(b), Lit(c)];
  }

  /** `a*` at the start of a line pushes a, then `*`. */
  lemma ProductFirst(a: real, rest: seq<Token>)
    ensures Evaluate([N(a), S('*')] + rest) == EvaluateFrom(rest, AfterSymbol(['*'], [Lit(a)], '*'))
  {
    var line := [N(a), S('*')] + rest;
    var c0 := Start(Stacks([], []));
    var c1 := AfterNumber([], [Lit(a)], ' ');
    var c2 := AfterSymbol(['*'], [Lit(a)], '*');
    assert [] + [Lit(a)] == [Lit(a)] && [] + ['*'] == ['*'];
    assert Step(N(a), c0) == Ok(c1);
    assert Step(S('*'), c1) == Ok(c2);
    Next(line, c0, c1);
    Next(line[1..], c1, c2);
    assert line[1..][1..] == rest;
  }

  /** The rest of `a*(b+c)` after `c`: the close bracket reduces the sum and
      pops the bracket, and the line end applies `*` to a and the sum. */
  lemma CloseSumUnderProduct(open: char, close: char, a: real, b: real, c: real)
    requires IsOpen(open) && IsClose(close)
    ensures Step(S(close), AfterNumber(['*', open, '+'], [Lit(a), Lit(b), Lit(c)], '+')) ==
            Ok(AfterSymbol(['*'], [Lit(a), Apply('+', Lit(b), Lit(c))], close))
    ensures EvaluateFrom([S(close), EndOfLine], AfterNumber(['*', open, '+'], [Lit(a), Lit(b), Lit(c)], '+')) ==
            Ok(Apply('*', Lit(a), Apply('+', Lit(b), Lit(c))))
  {
    var sum := Apply('+', Lit(b), Lit(c));
    var c4 := AfterNumber(['*', open, '+'], [Lit(a), Lit(b), Lit(c)], '+');
    var c5 := AfterSymbol(['*'], [Lit(a), sum], close);
    assert DropLast(['*', open, '+']) == ['*', open] && DropLast(['*', open]) == ['*'];
    assert [Lit(a), Lit(b), Lit(c)][..1] + [sum] == [Lit(a), sum];
    assert Combine(Stacks(['*', open], [Lit(a), Lit(b), Lit(c)]), '+') == Ok(Stacks(['*', open], [Lit(a), sum]));
    assert Unwind(c4.stacks) == Ok(c5.stacks);
    assert Step(S(close), c4) == Ok(c5);
    Next([S(close), EndOfLine], c4, c5);
    assert [S(close), EndOfLine][1..] == [EndOfLine];
    ConcludeOne('*', Lit(a), sum);
  }

  /** `2*3+4` gives 3 * 4, `1+2*3` gives (1 + 2) * 3 and `2*3^2` gives (2 * 3) ^ 2. */
  lemma MixedPrecedence()
    ensures Evaluate([N(2.0), S('*'), N(3.0), S('+'), N(4.0), EndOfLine]) == Ok(Apply('*', Lit(3.0), Lit(4.0)))
    ensures Evaluate([N(1.0), S('+'), N(2.0), S('*'), N(3.0), EndOfLine]) ==
            Ok(Apply('*', Apply('+', Lit(1.0), Lit(2.0)), Lit(3.0)))
    ensures Evaluate([N(2.0), S('*'), N(3.0), S('^'), N(2.0), EndOfLine]) ==
            Ok(Apply('^', Apply('*', Lit(2.0), Lit(3.0)), Lit(2.0)))
  {
    TwoOperatorLine(2.0, '*', 3.0, '+', 4.0);
    TwoOperatorLine(1.0, '+', 2.0, '*', 3.0);
    TwoOperatorLine(2.0, '*', 3.0, '^', 2.0);
  }

  /** After `2*3+4` the operator stack is empty but three operands remain:
      2, 3 + 4 and, on top, the 3 * 4 that is returned. */
  lemma LeftoverOperands()
    ensures LineEnd([N(2.0), S('*'), N(3.0), S('+'), N(4.0), EndOfLine], Start(Stacks([], []))).Ok?
    ensures var e := LineEnd([N(2.0), S('*'), N(3.0), S('+'), N(4.0), EndOfLine], Start(Stacks([], []))).value;
            Finish(e.stacks) == Ok(Stacks([], [Lit(2.0), Apply('+', Lit(3.0), Lit(4.0)), Apply('*', Lit(3.0), Lit(4.0))]))
  {
    DeferredLineStacks(2.0, '*', 3.0, '+', 4.0);
  }

  /** `(a+b` is accepted: the open bracket left at the end pushes the value
      carried from the `+` above it, and the result is a + b. */
  lemma UnclosedBracket(a: real, b: real)
    ensures Evaluate([S('('), N(a), S('+'), N(b), EndOfLine]) == Ok(Apply('+', Lit(a), Lit(b)))
  {
    assert [S('('), N(a), S('+'), N(b), EndOfLine] == [S('('), N(a)] + ([S('+'), N(b)] + [EndOfLine]);
    OpenThenNumber('(', a, [S('+'), N(b)] + [EndOfLine], Start(Stacks([], [])));
    assert [] + ['('] == ['('] && [] + [Lit(a)] == [Lit(a)];
    SumAfterOpen('(', [], [Lit(a)], b, [EndOfLine]);
    assert [] + ['(', '+'] == ['(', '+'] && [Lit(a)] + [Lit(b)] == [Lit(a), Lit(b)];
    ConcludeUnclosedSum(a, b);
  }

  /** The end of the line `(a+b`: `+` is applied to a and b, and the open
      bracket below it pushes that sum again. */
  lemma ConcludeUnclosedSum(a: real, b: real)
    ensures Finish(Stacks(['(', '+'], [Lit(a), Lit(b)])) ==
            Ok(Stacks([], [Apply('+', Lit(a), Lit(b)), Apply('+', Lit(a), Lit(b))]))
    ensures Conclude(Stacks(['(', '+'], [Lit(a), Lit(b)])) == Ok(Apply('+', Lit(a), Lit(b)))
  {
    var sum := Apply('+', Lit(a), Lit(b));
    assert [Lit(a), Lit(b)][..0] == [];
    assert DropLast(['(', '+']) == ['('] && [] + [sum] == [sum];
    assert Drain(['(', '+'], [], Lit(a), Lit(b), Lit(0.0)) == Drain(['('], [sum], Lit(a), Lit(b), sum);
    assert DropLast(['(']) == [] && [sum] + [sum] == [sum, sum];
    assert Drain(['('], [sum], Lit(a), Lit(b), sum) == [sum, sum];
  }

  /** A lone literal `5` underflows in the final resolution, which pops two operands. */
  lemma LoneLiteral()
    ensures Evaluate([N(5.0), EndOfLine]) == Err(Underflow)
  {
  }

  /** `*` resolves an open bracket: `(2*3)` underflows at the `*`, which pops
      two operands when only 2 is there, so the loop never reaches the line end. */
  lemma ProductInBrackets()
    ensures Step(S('*'), AfterNumber(['('], [Lit(2.0)], '(')) == Err(Underflow)
    ensures LineEnd([S('('), N(2.0), S('*'), N(3.0), S(')'), EndOfLine], Start(Stacks([], []))) == Err(Underflow)
    ensures Evaluate([S('('), N(2.0), S('*'), N(3.0), S(')'), EndOfLine]) == Err(Underflow)
  {
    var line := [S('('), N(2.0), S('*'), N(3.0), S(')'), EndOfLine];
    var c1 := AfterSymbol(['('], [], '(');
    var c2 := AfterNumber(['('], [Lit(2.0)], '(');
    assert [] + ['('] == ['('] && [] + [Lit(2.0)] == [Lit(2.0)];
    assert Step(S('('), Start(Stacks([], []))) == Ok(c1);
    Next(line, Start(Stacks([], [])), c1);
    assert Step(N(2.0), c1) == Ok(c2);
    Next(line[1..], c1, c2);
    assert CheckPrec('*', '(') && |c2.stacks.operands| < 2;
    assert OperatorStep(c2.stacks, '*', true, '(') == Err(Underflow);
    assert line[1..][1..] == [S('*'), N(3.0), S(')'), EndOfLine];
  }

  /** The prefix `a+(b` pushes a, `+`, the bracket and b. */
  lemma SumThenOpen(a: real, b: real, rest: seq<Token>)
    ensures LineEnd([N(a), S('+'), S('('), N(b)] + rest, Start(Stacks([], []))) ==
            LineEnd(rest, AfterNumber(['+', '('], [Lit(a), Lit(b)], '('))
    ensures Evaluate([N(a), S('+'), S('('), N(b)] + rest) ==
            EvaluateFrom(rest, AfterNumber(['+', '('], [Lit(a), Lit(b)], '('))
  {
    var line := [N(a), S('+'), S('('), N(b)] + rest;
    var c1 := AfterNumber([], [Lit(a)], ' ');
    var c2 := AfterSymbol(['+'], [Lit(a)], '+');
    var c3 := AfterSymbol(['+', '('], [Lit(a)], '(');
    var c4 := AfterNumber(['+', '('], [Lit(a), Lit(b)], '(');
    assert [] + [Lit(a)] == [Lit(a)] && [] + ['+'] == ['+'];
    Next(line, Start(Stacks([], [])), c1);
    Next(line[1..], c1, c2);
    assert ['+'] + ['('] == ['+', '('];
    Next(line[2..], c2, c3);
    assert [Lit(a)] + [Lit(b)] == [Lit(a), Lit(b)];
    Next(line[3..], c3, c4);
    assert line[4..] == rest;
  }

  /** `*c` after `a+(b`: the `*` resolves the open bracket, replacing a and b
      by 0.0, and stacks itself above `+`; then c is pushed. */
  lemma ProductResolvesBracket(a: real, b: real, c: real, rest: seq<Token>)
    ensures OperatorStep(Stacks(['+', '('], [Lit(a), Lit(b)]), '*', true, '(') == Ok(Stacks(['+', '*'], [Lit(0.0)]))
    ensures LineEnd([S('*'), N(c)] + rest, AfterNumber(['+', '('], [Lit(a), Lit(b)], '(')) ==
            LineEnd(rest, AfterNumber(['+', '*'], [Lit(0.0), Lit(c)], '*'))
    ensures EvaluateFrom([S('*'), N(c)] + rest, AfterNumber(['+', '('], [Lit(a), Lit(b)], '(')) ==
            EvaluateFrom(rest, AfterNumber(['+', '*'], [Lit(0.0), Lit(c)], '*'))
  {
    var line := [S('*'), N(c)] + rest;
    var c4 := AfterNumber(['+', '('], [Lit(a), Lit(b)], '(');
    var c5 := AfterSymbol(['+', '*'], [Lit(0.0)], '*');
    var c6 := AfterNumber(['+', '*'], [Lit(0.0), Lit(c)], '*');
    assert DropLast(['+', '(']) + ['*'] == ['+', '*'];
    assert [Lit(a), Lit(b)][..0] + [Lit(0.0)] == [Lit(0.0)];
    assert OperatorStep(c4.stacks, '*', true, '(') == Ok(c5.stacks);
    Next(line, c4, c5);
    assert [Lit(0.0)] + [Lit(c)] == [Lit(0.0), Lit(c)];
    Next(line[1..], c5, c6);
    assert line[1..][1..] == rest;
  }

  /** The `)` of `a+(b*c)`: it applies `*` to 0.0 and c, then pops `+`
      with only that product left and underflows. */
  lemma CloseAfterZeroProduct(c: real)
    ensures Combine(Stacks(['+'], [Lit(0.0), Lit(c)]), '*') == Ok(Stacks(['+'], [Apply('*', Lit(0.0), Lit(c))]))
    ensures Combine(Stacks([], [Apply('*', Lit(0.0), Lit(c))]), '+') == Err(Underflow)
    ensures Step(S(')'), AfterNumber(['+', '*'], [Lit(0.0), Lit(c)], '*')) == Err(Underflow)
    ensures EvaluateFrom([S(')'), EndOfLine], AfterNumber(['+', '*'], [Lit(0.0), Lit(c)], '*')) == Err(Underflow)
  {
    var c6 := AfterNumber(['+', '*'], [Lit(0.0), Lit(c)], '*');
    var product := Apply('*', Lit(0.0), Lit(c));
    var t := Combine(Stacks(['+'], [Lit(0.0), Lit(c)]), '*');
    assert t.Ok? && t.value.operators == ['+'];
    assert t.value.operands == [Lit(0.0), Lit(c)][..0] + [product] == [product];
    assert Last(['+', '*']) == '*' && DropLast(['+', '*']) == ['+'];
    assert Unwind(c6.stacks) == Unwind(Stacks(['+'], [product]));
    assert Last(['+']) == '+' && DropLast(['+']) == [];
    assert Combine(Stacks([], [product]), '+') == Err(Underflow);
    assert Unwind(Stacks(['+'], [product])) == Err(Underflow);
    assert Step(S(')'), c6) == Err(Underflow);
  }

  /** In `a+(b*c)` (say `1+(2*3)`) the `*` resolves the open bracket,
      pushing 0.0 in place of a and b, so that by the `)` the stacks hold `+`
      and `*` over 0.0 and c. The `)` then applies `*` to 0.0 and c, pops `+`
      and underflows, since only that one product is left to combine it with. */
  lemma ProductInBracketsAfterSum(a: real, b: real, c: real)
    ensures LineEnd([N(a), S('+'), S('('), N(b), S('*'), N(c), EndOfLine], Start(Stacks([], []))) ==
            Ok(AfterNumber(['+', '*'], [Lit(0.0), Lit(c)], '*'))
    ensures Evaluate([N(a), S('+'), S('('), N(b), S('*'), N(c), S(')'), EndOfLine]) == Err(Underflow)
  {
    var open := [N(a), S('+'), S('('), N(b)];
    assert [N(a), S('+'), S('('), N(b), S('*'), N(c), EndOfLine] == open + ([S('*'), N(c)] + [EndOfLine]);
    assert [N(a), S('+'), S('('), N(b), S('*'), N(c), S(')'), EndOfLine] == open + ([S('*'), N(c)] + [S(')'), EndOfLine]);
    SumThenOpen(a, b, [S('*'), N(c)] + [EndOfLine]);
    SumThenOpen(a, b, [S('*'), N(c)] + [S(')'), EndOfLine]);
    ProductResolvesBracket(a, b, c, [EndOfLine]);
    ProductResolvesBracket(a, b, c, [S(')'), EndOfLine]);
    CloseAfterZeroProduct(c);
  }

  /** `2)` underflows: there is no open bracket to stop at. */
  lemma UnopenedBracket()
    ensures Evaluate([N(2.0), S(')'), EndOfLine]) == Err(Underflow)
  {
  }

  /** Two operands in a row: `2 3`. */
  lemma RejectsTwoOperands()
    ensures Evaluate([N(2.0), N(3.0), EndOfLine]) == Err(Invalid(MultipleOperands))
  {
  }

  /** Two operators in a row: `2++3`. */
  lemma RejectsTwoOperators()
    ensures Evaluate([N(2.0), S('+'), S('+'), N(3.0), EndOfLine]) == Err(Invalid(TwoOperators))
  {
  }

  /** An operator right after an open bracket: `(+2)`. */
  lemma RejectsOperatorAfterOpen()
    ensures Evaluate([S('('), S('+'), N(2.0), S(')'), EndOfLine]) == Err(Invalid(OperatorAfterOpen))
  {
  }

  /** A close bracket that does not follow an operand: `()2` and `)2`. */
  lemma RejectsCloseWithoutOperand()
    ensures Evaluate([S('('), S(')'), N(2.0), EndOfLine]) == Err(Invalid(CloseWithoutOperand))
    ensures Evaluate([S(')'), N(2.0), EndOfLine]) == Err(Invalid(CloseWithoutOperand))
  {
    var c1 := AfterSymbol(['('], [], '(');
    assert [] + ['('] == ['('];
    assert Step(S('('), Start(Stacks([], []))) == Ok(c1);
    Next([S('('), S(')'), N(2.0), EndOfLine], Start(Stacks([], [])), c1);
    assert Step(S(')'), c1) == Err(Invalid(CloseWithoutOperand));
    assert [S('('), S(')'), N(2.0), EndOfLine][1..] == [S(')'), N(2.0), EndOfLine];
    assert Step(S(')'), Start(Stacks([], []))) == Err(Invalid(CloseWithoutOperand));
  }

  /** Two close brackets in a row: the second `)` of `((a+b))` does not follow an operand. */
  lemma RejectsDoubleClose(a: real, b: real)
    ensures Evaluate([S('('), S('('), N(a), S('+'), N(b), S(')'), S(')'), EndOfLine]) == Err(Invalid(CloseWithoutOperand))
  {
    var tail := [S(')'), S(')'), EndOfLine];
    assert [S('('), S('('), N(a), S('+'), N(b), S(')'), S(')'), EndOfLine] ==
           [S('('), S('('), N(a), S('+'), N(b)] + tail;
    DoubleOpenSum(a, b, tail);
    CloseTwice(a, b);
  }

  /** The first five tokens of `((a+b`: two open brackets and the sum, all
      still on the stacks. */
  lemma DoubleOpenSum(a: real, b: real, rest: seq<Token>)
    ensures EvaluateFrom([S('('), S('('), N(a), S('+'), N(b)] + rest, Start(Stacks([], []))) ==
            EvaluateFrom(rest, AfterNumber(['(', '(', '+'], [Lit(a), Lit(b)], '+'))
  {
    var line := [S('('), S('('), N(a), S('+'), N(b)] + rest;
    var c1 := AfterSymbol(['('], [], '(');
    assert [] + ['('] == ['('];
    assert Step(S('('), Start(Stacks([], []))) == Ok(c1);
    Next(line, Start(Stacks([], [])), c1);
    assert line[1..] == [S('('), N(a)] + ([S('+'), N(b)] + rest);
    OpenThenNumber('(', a, [S('+'), N(b)] + rest, c1);
    assert ['('] + ['('] == ['(', '('] && [] + [Lit(a)] == [Lit(a)];
    SumAfterOpen('(', ['('], [Lit(a)], b, rest);
    assert ['('] + ['(', '+'] == ['(', '(', '+'] && [Lit(a)] + [Lit(b)] == [Lit(a), Lit(b)];
  }

  /** The last three tokens of `((a+b))`: the first `)` reduces the sum and
      stops at the inner `(`, the second `)` follows a bracket. */
  lemma CloseTwice(a: real, b: real)
    ensures Step(S(')'), AfterNumber(['(', '(', '+'], [Lit(a), Lit(b)], '+')) ==
            Ok(AfterSymbol(['('], [Apply('+', Lit(a), Lit(b))], ')'))
    ensures EvaluateFrom([S(')'), S(')'), EndOfLine], AfterNumber(['(', '(', '+'], [Lit(a), Lit(b)], '+')) ==
            Err(Invalid(CloseWithoutOperand))
  {
    var sum := Apply('+', Lit(a), Lit(b));
    var c5 := AfterNumber(['(', '(', '+'], [Lit(a), Lit(b)], '+');
    var c6 := AfterSymbol(['('], [sum], ')');
    assert DropLast(['(', '(', '+']) == ['(', '('];
    assert DropLast(['(', '(']) == ['('];
    assert [Lit(a), Lit(b)][..0] + [sum] == [sum];
    assert Unwind(c5.stacks) == Unwind(Stacks(['(', '('], [sum]));
    assert Unwind(Stacks(['(', '('], [sum])) == Ok(c6.stacks);
    assert Step(S(')'), c5) == Ok(c6);
    Next([S(')'), S(')'), EndOfLine], c5, c6);
    assert [S(')'), S(')'), EndOfLine][1..] == [S(')'), EndOfLine];
  }

  /** A word is not a symbol of the grammar: `2 x`. */
  lemma RejectsWord()
    ensures Evaluate([N(2.0), Word("x"), EndOfLine]) == Err(Invalid(Unrecognized("x")))
  {
  }

  /** Input that ends before a line end is rejected with the end-of-file character. */
  lemma MissingLineEnd()
    ensures Evaluate([N(2.0), S('+'), N(3.0)]) == Err(Invalid(Unrecognized([EofChar])))
  {
  }
}
