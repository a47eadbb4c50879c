/** Lines of one and two operators between numbers, for every choice of
    operators and numbers: what `evaluate` makes of them as written. */
module Lines {
  import opened Values
  import opened Precedence
  import opened Semantics

  function N(x: real): Token { Number(x) }
  function S(c: char): Token { Symbol(c) }

  /** One pass of the token loop. */
  lemma Next(tokens: seq<Token>, c: Config, next: Config)
    requires |tokens| > 0 && tokens[0] != EndOfLine && Step(tokens[0], c) == Ok(next)
    ensures LineEnd(tokens, c) == LineEnd(tokens[1..], next)
    ensures EvaluateFrom(tokens, c) == EvaluateFrom(tokens[1..], next)
  {
  }

  /** The loop's configuration right after a number, and right after a character `c`. */
  function AfterNumber(operators: seq<char>, operands: seq<Value>, prevTokChar: char): Config {
    Config(Stacks(operators, operands), true, prevTokChar)
  }

  function AfterSymbol(operators: seq<char>, operands: seq<Value>, c: char): Config {
    Config(Stacks(operators, operands), false, c)
  }

  /** `a o b` at the start of a line pushes a, then o, then b. */
  lemma FirstOperation(a: real, o: char, b: real, rest: seq<Token>)
    requires IsArith(o)
    ensures LineEnd([N(a), S(o), N(b)] + rest, Start(Stacks([], []))) == LineEnd(rest, AfterNumber([o], [Lit(a), Lit(b)], o))
    ensures Evaluate([N(a), S(o), N(b)] + rest) == EvaluateFrom(rest, AfterNumber([o], [Lit(a), Lit(b)], o))
  {
    assert !IsClose(o);
    var tokens := [N(a), S(o), N(b)] + rest;
    var c1 := AfterNumber([], [Lit(a)], ' ');
    var c2 := AfterSymbol([o], [Lit(a)], o);
    var c3 := AfterNumber([o], [Lit(a), Lit(b)], o);
    assert [] + [Lit(a)] == [Lit(a)] && [] + [o] == [o];
    assert [Lit(a)] + [Lit(b)] == [Lit(a), Lit(b)];
    assert Step(N(a), Start(Stacks([], []))) == Ok(c1);
    assert Step(S(o), c1) == Ok(c2);
    assert OperandStep(c2.stacks, Lit(b), false, o) == Ok(c3.stacks);
    assert Step(N(b), c2) == Ok(c3);
    Next(tokens, Start(Stacks([], [])), c1);
    Next(tokens[1..], c1, c2);
    Next(tokens[2..], c2, c3);
    assert tokens[1..][1..] == tokens[2..] && tokens[2..][1..] == rest;
  }

  /** At the end of the line, one operator over two operands gives their application. */
  lemma ConcludeOne(o: char, x: Value, y: Value)
    requires IsArith(o)
    ensures Conclude(Stacks([o], [x, y])) == Ok(Apply(o, x, y))
  {
    assert [x, y][..0] == [] && DropLast([o]) == [] && [] + [Apply(o, x, y)] == [Apply(o, x, y)];
    assert Drain([o], [], x, y, Lit(0.0)) == [Apply(o, x, y)];
  }

  /** At the end of the line, two operators over three operands: both are
      applied to the top two, and the lower one's result is left on top. */
  lemma ConcludeTwo(o1: char, o2: char, x: Value, y: Value, z: Value)
    requires IsArith(o1) && IsArith(o2)
    ensures Finish(Stacks([o1, o2], [x, y, z])) == Ok(Stacks([], [x, Apply(o2, y, z), Apply(o1, y, z)]))
    ensures Conclude(Stacks([o1, o2], [x, y, z])) == Ok(Apply(o1, y, z))
  {
    FinishTwo(o1, o2, x, y, z);
    assert Last([x, Apply(o2, y, z), Apply(o1, y, z)]) == Apply(o1, y, z);
  }

  /** A line `a o b` gives a o b, for each of the five operators. */
  lemma OneOperatorLine(a: real, o: char, b: real)
    requires IsArith(o)
    ensures Evaluate([N(a), S(o), N(b), EndOfLine]) == Ok(Apply(o, Lit(a), Lit(b)))
  {
    assert [N(a), S(o), N(b), EndOfLine] == [N(a), S(o), N(b)] + [EndOfLine];
    FirstOperation(a, o, b, [EndOfLine]);
    ConcludeOne(o, Lit(a), Lit(b));
  }

  /** handleOperator resolving `o1` when `o2` arrives after `a o1 b`. */
  lemma ResolveFirst(o1: char, o2: char, x: Value, y: Value)
    requires IsArith(o1) && CheckPrec(o2, o1)
    ensures OperatorStep(Stacks([o1], [x, y]), o2, true, o1) == Ok(Stacks([o2], [Apply(o1, x, y)]))
  {
    assert DropLast([o1]) + [o2] == [o2] && [x, y][..0] + [Apply(o1, x, y)] == [Apply(o1, x, y)];
  }

  /** The rest of `a o1 b o2 c` when CheckPrec resolves o1 first. */
  lemma SecondResolves(a: real, o1: char, b: real, o2: char, c: real)
    requires IsArith(o1) && IsArith(o2) && CheckPrec(o2, o1)
    ensures EvaluateFrom([S(o2), N(c), EndOfLine], AfterNumber([o1], [Lit(a), Lit(b)], o1)) ==
            Ok(Apply(o2, Apply(o1, Lit(a), Lit(b)), Lit(c)))
  {
    assert !IsClose(o2);
    var tokens := [S(o2), N(c), EndOfLine];
    var p := Apply(o1, Lit(a), Lit(b));
    var c3 := AfterNumber([o1], [Lit(a), Lit(b)], o1);
    var c4 := AfterSymbol([o2], [p], o2);
    var c5 := AfterNumber([o2], [p, Lit(c)], o2);
    ResolveFirst(o1, o2, Lit(a), Lit(b));
    assert Step(S(o2), c3) == Ok(c4);
    Next(tokens, c3, c4);
    assert [p] + [Lit(c)] == [p, Lit(c)];
    assert OperandStep(c4.stacks, Lit(c), false, o2) == Ok(c5.stacks);
    assert Step(N(c), c4) == Ok(c5);
    Next(tokens[1..], c4, c5);
    assert tokens[1..][1..] == [EndOfLine];
    ConcludeOne(o2, p, Lit(c));
  }

  /** The tokens `o2 c` and the line end after `a o1 b`, when CheckPrec
      defers: o2 is pushed above o1 and c above b. */
  lemma DeferSecond(a: real, o1: char, b: real, o2: char, c: real)
    requires IsArith(o1) && IsArith(o2) && !CheckPrec(o2, o1)
    ensures LineEnd([S(o2), N(c), EndOfLine], AfterNumber([o1], [Lit(a), Lit(b)], o1)) ==
            Ok(AfterNumber([o1, o2], [Lit(a), Lit(b), Lit(c)], o2))
  {
    assert !IsClose(o2);
    var tokens := [S(o2), N(c), EndOfLine];
    var c3 := AfterNumber([o1], [Lit(a), Lit(b)], o1);
    var c4 := AfterSymbol([o1, o2], [Lit(a), Lit(b)], o2);
    var c5 := AfterNumber([o1, o2], [Lit(a), Lit(b), Lit(c)], o2);
    assert [o1] + [o2] == [o1, o2];
    assert Step(S(o2), c3) == Ok(c4);
    Next(tokens, c3, c4);
    assert [Lit(a), Lit(b)] + [Lit(c)] == [Lit(a), Lit(b), Lit(c)];
    assert OperandStep(c4.stacks, Lit(c), false, o2) == Ok(c5.stacks);
    assert Step(N(c), c4) == Ok(c5);
    Next(tokens[1..], c4, c5);
    assert tokens[1..][1..] == [EndOfLine];
  }

  /** The rest of `a o1 b o2 c` when CheckPrec defers: o2 is pushed above o1. */
  lemma SecondDefers(a: real, o1: char, b: real, o2: char, c: real)
    requires IsArith(o1) && IsArith(o2) && !CheckPrec(o2, o1)
    ensures EvaluateFrom([S(o2), N(c), EndOfLine], AfterNumber([o1], [Lit(a), Lit(b)], o1)) ==
            Ok(Apply(o1, Lit(b), Lit(c)))
  {
    DeferSecond(a, o1, b, o2, c);
    ConcludeTwo(o1, o2, Lit(a), Lit(b), Lit(c));
  }

  /** A line `a o1 b o2 c`. When o2 is `*`, `/` or `^`, or o1 is `+` or `-`,
      it groups from the left, (a o1 b) o2 c, whatever the operators'
      usual precedence: `2+3*4` gives 20 and `2*3^2` gives 36. Otherwise (o1
      is `*`, `/` or `^` and o2 is `+` or `-`) o2 is deferred, both operators
      are finally applied to b and c, and the result is b o1 c: `2*3+4` gives 12
      and a is lost. */
  lemma TwoOperatorLine(a: real, o1: char, b: real, o2: char, c: real)
    requires IsArith(o1) && IsArith(o2)
    ensures Evaluate([N(a), S(o1), N(b), S(o2), N(c), EndOfLine]) ==
            if (o2 != '+' && o2 != '-') || o1 == '+' || o1 == '-' then Ok(Apply(o2, Apply(o1, Lit(a), Lit(b)), Lit(c)))
            else Ok(Apply(o1, Lit(b), Lit(c)))
  {
    assert [N(a), S(o1), N(b), S(o2), N(c), EndOfLine] == [N(a), S(o1), N(b)] + [S(o2), N(c), EndOfLine];
    FirstOperation(a, o1, b, [S(o2), N(c), EndOfLine]);
    if CheckPrec(o2, o1) {
      SecondResolves(a, o1, b, o2, c);
    } else {
      SecondDefers(a, o1, b, o2, c);
    }
  }

  /** The final resolution of two operators over three operands: both
      are applied to the top pair, and the bottom operand stays. */
  lemma FinishTwo(o1: char, o2: char, x: Value, y: Value, z: Value)
    requires IsArith(o1) && IsArith(o2)
    ensures Finish(Stacks([o1, o2], [x, y, z])) == Ok(Stacks([], [x, Apply(o2, y, z), Apply(o1, y, z)]))
  {
    var v2, v1 := Apply(o2, y, z), Apply(o1, y, z);
    assert [x, y, z][..1] == [x] && DropLast([o1, o2]) == [o1] && DropLast([o1]) == [];
    assert [x] + [v2] == [x, v2] && [x, v2] + [v1] == [x, v2, v1];
    assert Drain([o1, o2], [x], y, z, Lit(0.0)) == Drain([o1], [x, v2], y, z, v2);
  }

  /** The stacks `evaluate` leaves after a line `a o1 b o2 c` whose second
      operator is deferred (say `2*3+4`): both operators stay stacked to the
      end of the line, and the final resolution leaves three operands, a
      below b o2 c and b o1 c, of which only the top is returned. */
  lemma DeferredLineStacks(a: real, o1: char, b: real, o2: char, c: real)
    requires IsArith(o1) && IsArith(o2) && !CheckPrec(o2, o1)
    ensures LineEnd([N(a), S(o1), N(b), S(o2), N(c), EndOfLine], Start(Stacks([], []))) ==
            Ok(AfterNumber([o1, o2], [Lit(a), Lit(b), Lit(c)], o2))
    ensures Finish(Stacks([o1, o2], [Lit(a), Lit(b), Lit(c)])) ==
            Ok(Stacks([], [Lit(a), Apply(o2, Lit(b), Lit(c)), Apply(o1, Lit(b), Lit(c))]))
  {
    assert [N(a), S(o1), N(b), S(o2), N(c), EndOfLine] == [N(a), S(o1), N(b)] + [S(o2), N(c), EndOfLine];
    FirstOperation(a, o1, b, [S(o2), N(c), EndOfLine]);
    DeferSecond(a, o1, b, o2, c);
    FinishTwo(o1, o2, Lit(a), Lit(b), Lit(c));
  }
}
