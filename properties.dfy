/** What the handlers and the token loop do, stated against reference
    definitions that do not follow the code's own loops. */
module Properties {
  import opened Values
  import opened Grammar
  import opened Semantics

  // ---------------------------------------------------------------- close bracket

  /** The index of the nearest open bracket from the top of the operator stack, or -1. */
  function NearestOpen(operators: seq<char>): (j: int)
    ensures -1 <= j < |operators|
    ensures j >= 0 ==> IsOpen(operators[j])
    ensures forall i :: j < i < |operators| ==> !IsOpen(operators[i])
  {
    if |operators| == 0 then -1
    else if IsOpen(Last(operators)) then |operators| - 1
    else NearestOpen(DropLast(operators))
  }

  /** handleCloseBracket's loop only pops operators, down to some entry
      below the top, and never leaves more operands than it found. */
  lemma {:induction false} UnwindShrinks(s: Stacks)
    ensures Unwind(s).Ok? ==>
      var t := Unwind(s).value;
      |t.operators| < |s.operators| && t.operators == s.operators[..|t.operators|] &&
      |t.operands| <= |s.operands|
    decreases |s.operators|
  {
    if |s.operators| > 0 && !IsOpen(Last(s.operators)) {
      var below := Stacks(DropLast(s.operators), s.operands);
      if Combine(below, Last(s.operators)).Ok? {
        var next := Combine(below, Last(s.operators)).value;
        UnwindShrinks(next);
        if Unwind(next).Ok? {
          var t := Unwind(next).value;
          assert s.operators[..|t.operators|] == DropLast(s.operators)[..|t.operators|];
        }
      }
    }
  }

  /** The right-nested application `t0 u0 (t1 u1 (... (tk-1 uk-1 tk)))` of the
      operators `u` (bottom first) to the operands `t` (bottom first). */
  function Chain(u: seq<char>, t: seq<Value>): Value
    requires |t| == |u| + 1
  {
    if |u| == 0 then t[0] else Apply(u[0], t[0], Chain(u[1..], t[1..]))
  }

  /** Resolving the last operator of a chain first leaves a chain one shorter. */
  lemma {:induction false} ChainSnoc(u: seq<char>, o: char, t: seq<Value>)
    requires |t| == |u| + 2
    ensures Chain(u + [o], t) == Chain(u, t[..|u|] + [Apply(o, t[|u|], t[|u| + 1])])
  {
    if |u| > 0 {
      ChainSnoc(u[1..], o, t[1..]);
      assert (u + [o])[1..] == u[1..] + [o];
      assert t[1..][..|u| - 1] + [Apply(o, t[|u|], t[|u| + 1])] == (t[..|u|] + [Apply(o, t[|u|], t[|u| + 1])])[1..];
    }
  }

  /** What handleCloseBracket's loop should leave, stated without its loop:
      pop down to and including the nearest open bracket, whatever its kind;
      with k operators above that bracket, replace the top k+1 operands by their
      right-nested chain and keep everything below. It underflows when there
      is no open bracket or fewer than k+1 operands to combine. */
  function Unwound(s: Stacks): Result<Stacks> {
    var j := NearestOpen(s.operators);
    var k := |s.operators| - 1 - j;
    var n := |s.operands|;
    if j < 0 || (k > 0 && n <= k) then Err(Underflow)
    else if k == 0 then Ok(Stacks(s.operators[..j], s.operands))
    else Ok(Stacks(s.operators[..j], s.operands[..n - k - 1] + [Chain(s.operators[j + 1..], s.operands[n - k - 1..])]))
  }

  /** Dropping the top of a well-formed operator stack leaves it well formed. */
  lemma WellFormedDropLast(operators: seq<char>)
    requires |operators| > 0 && WellFormedOperators(operators)
    ensures WellFormedOperators(DropLast(operators))
  {
    forall i | 0 <= i < |operators| - 1 ensures IsArith(DropLast(operators)[i]) || IsOpen(DropLast(operators)[i]) {
      assert DropLast(operators)[i] == operators[i];
    }
  }

  /** The stacks after one pass of handleCloseBracket's loop with an operator on top. */
  function Resolve(s: Stacks): Stacks
    requires |s.operators| > 0 && |s.operands| >= 2
  {
    var n := |s.operands|;
    Stacks(DropLast(s.operators), s.operands[..n - 2] + [Apply(Last(s.operators), s.operands[n - 2], s.operands[n - 1])])
  }

  /** Resolving the only operator above the nearest open bracket. */
  lemma UnwoundResolveLast(s: Stacks)
    requires |s.operators| >= 2 && !IsOpen(Last(s.operators)) && |s.operands| >= 2
    requires NearestOpen(s.operators) == |s.operators| - 2
    ensures Unwound(s) == Unwound(Resolve(s))
  {
    var ops, n := s.operators, |s.operands|;
    var o, j := Last(ops), |ops| - 2;
    var s' := Resolve(s);
    assert NearestOpen(DropLast(ops)) == j;
    assert s'.operators[..j] == ops[..j];
    var top := s.operands[n - 2..];
    assert ops[j + 1..] == [o];
    assert Chain([o], top) == Apply(o, top[0], Chain([], top[1..]));
  }

  /** Splitting an operator stack below its top entry. */
  lemma SplitBelowTop(ops: seq<char>, j: nat)
    requires j + 1 < |ops|
    ensures DropLast(ops)[..j] == ops[..j]
    ensures ops[j + 1..] == DropLast(ops)[j + 1..] + [Last(ops)]
  {
  }

  /** Replacing the top two operands by `v`, seen from the top `m` operands. */
  lemma ReplaceTopTwo(xs: seq<Value>, v: Value, m: nat)
    requires 2 <= m <= |xs|
    ensures var t := xs[..|xs| - 2] + [v];
            t[..|xs| - m] == xs[..|xs| - m] && t[|xs| - m..] == xs[|xs| - m..][..m - 2] + [v]
  {
    var t := xs[..|xs| - 2] + [v];
    assert t[|xs| - m..] == xs[|xs| - m..|xs| - 2] + [v];
  }

  /** Resolving the top one of several operators above the nearest open bracket. */
  lemma UnwoundResolveInner(s: Stacks)
    requires |s.operators| > 0 && !IsOpen(Last(s.operators))
    requires 0 <= NearestOpen(s.operators) < |s.operators| - 2
    requires |s.operands| > |s.operators| - 1 - NearestOpen(s.operators)
    ensures Unwound(s) == Unwound(Resolve(s))
  {
    var ops, n := s.operators, |s.operands|;
    var o, j := Last(ops), NearestOpen(s.operators);
    var k := |ops| - 1 - j;
    var s' := Resolve(s);
    assert NearestOpen(DropLast(ops)) == j;
    SplitBelowTop(ops, j);
    var top := s.operands[n - k - 1..];
    ReplaceTopTwo(s.operands, Apply(o, top[k - 1], top[k]), k + 1);
    ChainSnoc(s'.operators[j + 1..], o, top);
  }

  /** On a stack of operators and open brackets, handleCloseBracket's loop
      does exactly what Unwound describes. */
  lemma {:induction false} UnwindSpec(s: Stacks)
    requires WellFormedOperators(s.operators)
    ensures Unwind(s) == Unwound(s)
    decreases |s.operators|
  {
    var ops, n := s.operators, |s.operands|;
    if |ops| == 0 || IsOpen(Last(ops)) {
      return;
    }
    if n < 2 {
      assert NearestOpen(ops) < |ops| - 1;
      return;
    }
    var o := Last(ops);
    var s' := Resolve(s);
    assert IsArith(o);
    assert Combine(Stacks(DropLast(ops), s.operands), o) == Ok(s');
    WellFormedDropLast(ops);
    UnwindSpec(s');
    var j := NearestOpen(ops);
    assert j == NearestOpen(DropLast(ops));
    if j >= 0 && j == |ops| - 2 {
      UnwoundResolveLast(s);
    } else if j >= 0 && n > |ops| - 1 - j {
      UnwoundResolveInner(s);
    }
  }

  // ---------------------------------------------------------------- remaining operators

  /** The value pushed for the lowest operator among `pending` (bottom first)
      when the same pair is combined: a character that is not an operator
      passes on what was computed for the entries above it, and `fallback`
      stands for the value before the first push. */
  function Carried(pending: seq<char>, operand1: Value, operand2: Value, fallback: Value): Value {
    if |pending| == 0 then fallback
    else if IsArith(pending[0]) then Apply(pending[0], operand1, operand2)
    else Carried(pending[1..], operand1, operand2, fallback)
  }

  lemma {:induction false} CarriedAppend(x: seq<char>, y: seq<char>, operand1: Value, operand2: Value, fallback: Value)
    ensures Carried(x + y, operand1, operand2, fallback) == Carried(x, operand1, operand2, Carried(y, operand1, operand2, fallback))
  {
    if |x| > 0 {
      assert (x + y)[1..] == x[1..] + y;
      CarriedAppend(x[1..], y, operand1, operand2, fallback);
    } else {
      assert x + y == y;
    }
  }

  /** Carrying through a suffix of `rest + [op]` is carrying through the
      suffix of `rest` from what `op` alone carries. */
  lemma CarriedThroughTop(rest: seq<char>, op: char, i: nat, operand1: Value, operand2: Value, carried: Value)
    requires i <= |rest|
    ensures Carried((rest + [op])[i..], operand1, operand2, carried) ==
            Carried(rest[i..], operand1, operand2, Carried([op], operand1, operand2, carried))
  {
    assert (rest + [op])[i..] == rest[i..] + [op];
    CarriedAppend(rest[i..], [op], operand1, operand2, carried);
  }

  /** The drain loop keeps the operands it starts with. */
  lemma {:induction false} DrainPrefix(operators: seq<char>, operands: seq<Value>, operand1: Value, operand2: Value, carried: Value)
    ensures Drain(operators, operands, operand1, operand2, carried)[..|operands|] == operands
    decreases |operators|
  {
    if |operators| > 0 {
      var op := Last(operators);
      var v := if IsArith(op) then Apply(op, operand1, operand2) else carried;
      var r := Drain(operators, operands, operand1, operand2, carried);
      assert r == Drain(DropLast(operators), operands + [v], operand1, operand2, v);
      DrainPrefix(DropLast(operators), operands + [v], operand1, operand2, v);
      assert r[..|operands|] == r[..|operands| + 1][..|operands|];
    }
  }

  /** The first entry the drain loop pushes: the top operator's value. */
  lemma DrainFirst(operators: seq<char>, operands: seq<Value>, operand1: Value, operand2: Value, carried: Value)
    requires |operators| > 0
    ensures Drain(operators, operands, operand1, operand2, carried)[|operands|] ==
            Carried(operators[|operators| - 1..], operand1, operand2, carried)
  {
    var op := Last(operators);
    var v := if IsArith(op) then Apply(op, operand1, operand2) else carried;
    var r := Drain(operators, operands, operand1, operand2, carried);
    assert r == Drain(DropLast(operators), operands + [v], operand1, operand2, v);
    assert operators[|operators| - 1..] == [op];
    assert Carried([op], operand1, operand2, carried) == v;
    DrainPrefix(DropLast(operators), operands + [v], operand1, operand2, v);
    assert r[|operands|] == (operands + [v])[|operands|];
  }

  /** The entry the drain loop pushes at index j: the value carried by the
      operators from the one it popped there down to the bottom. */
  lemma {:induction false} DrainEntry(operators: seq<char>, operands: seq<Value>, operand1: Value, operand2: Value, carried: Value, j: int)
    requires |operands| <= j < |operands| + |operators|
    ensures Drain(operators, operands, operand1, operand2, carried)[j] ==
            Carried(operators[|operands| + |operators| - 1 - j..], operand1, operand2, carried)
    decreases |operators|
  {
    if j == |operands| {
      DrainFirst(operators, operands, operand1, operand2, carried);
    } else {
      var op := Last(operators);
      var v := if IsArith(op) then Apply(op, operand1, operand2) else carried;
      var rest := DropLast(operators);
      assert Drain(operators, operands, operand1, operand2, carried) == Drain(rest, operands + [v], operand1, operand2, v);
      assert operators == rest + [op];
      assert Carried([op], operand1, operand2, carried) == v;
      CarriedThroughTop(rest, op, |operands| + |operators| - 1 - j, operand1, operand2, carried);
      assert |operands + [v]| + |rest| == |operands| + |operators|;
      DrainEntry(rest, operands + [v], operand1, operand2, v, j);
    }
  }

  /** The drain loop keeps what lay below and pushes, for the i-th operator
      popped, the value carried by the operators from it down to the bottom. */
  lemma DrainSpec(operators: seq<char>, operands: seq<Value>, operand1: Value, operand2: Value, carried: Value)
    ensures var r := Drain(operators, operands, operand1, operand2, carried);
            r[..|operands|] == operands &&
            forall j :: |operands| <= j < |r| ==> r[j] == Carried(operators[|r| - 1 - j..], operand1, operand2, carried)
  {
    DrainPrefix(operators, operands, operand1, operand2, carried);
    forall j | |operands| <= j < |operands| + |operators| {
      DrainEntry(operators, operands, operand1, operand2, carried, j);
    }
  }

  /** handleRemainingOperators underflows exactly when fewer than two operands
      are left. Otherwise, with k operators and n operands, it empties the
      operator stack and leaves n-2+k operands: the n-2 below the top pair,
      then one entry per operator, each computed from the same top pair; the
      last, on top, is the one carried from the bottom-most operator. */
  lemma FinishSpec(s: Stacks)
    ensures Finish(s).Err? <==> |s.operands| < 2
    ensures Finish(s).Ok? ==>
      var n, k := |s.operands|, |s.operators|;
      var operand1, operand2 := s.operands[n - 2], s.operands[n - 1];
      var r := Finish(s).value.operands;
      Finish(s).value.operators == [] && |r| == n - 2 + k &&
      r[..n - 2] == s.operands[..n - 2] &&
      (forall j :: n - 2 <= j < |r| ==> r[j] == Carried(s.operators[|r| - 1 - j..], operand1, operand2, Lit(0.0))) &&
      (k > 0 ==> Last(r) == Carried(s.operators, operand1, operand2, Lit(0.0))) &&
      (k > 0 && IsArith(s.operators[0]) ==> Last(r) == Apply(s.operators[0], operand1, operand2))
  {
    var n, k := |s.operands|, |s.operators|;
    if n >= 2 {
      var operand1, operand2 := s.operands[n - 2], s.operands[n - 1];
      var r := Drain(s.operators, s.operands[..n - 2], operand1, operand2, Lit(0.0));
      assert Finish(s) == Ok(Stacks([], r));
      DrainSpec(s.operators, s.operands[..n - 2], operand1, operand2, Lit(0.0));
      if k > 0 {
        assert s.operators[|r| - 1 - (|r| - 1)..] == s.operators;
      }
    }
  }

  /** The value `evaluate` returns at the end of the line, given the stacks
      there: with operators left, the value carried from the bottom-most one,
      applied to the top two operands; with none left, the third operand from
      the top. */
  lemma ConcludeSpec(s: Stacks)
    ensures var n, k := |s.operands|, |s.operators|;
            Conclude(s).Ok? <==> n >= 2 && (k > 0 || n > 2)
    ensures Conclude(s).Ok? && |s.operators| > 0 ==>
      Conclude(s).value == Carried(s.operators, s.operands[|s.operands| - 2], Last(s.operands), Lit(0.0))
    ensures Conclude(s).Ok? && |s.operators| == 0 ==> Conclude(s).value == s.operands[|s.operands| - 3]
  {
    FinishSpec(s);
    var n := |s.operands|;
    if n >= 2 && |s.operators| == 0 {
      var r := Finish(s).value.operands;
      assert r == s.operands[..n - 2];
    }
  }

  // ---------------------------------------------------------------- the token loop

  /** Every handler keeps the operator stack made of operators and open brackets. */
  lemma StepKeepsOperatorsWellFormed(t: Token, c: Config)
    requires t != EndOfLine && WellFormedOperators(c.stacks.operators)
    requires Step(t, c).Ok?
    ensures WellFormedOperators(Step(t, c).value.stacks.operators)
  {
    var ops := c.stacks.operators;
    var ops' := Step(t, c).value.stacks.operators;
    if t.Symbol? && IsClose(t.c) {
      assert Unwind(c.stacks).Ok? && ops' == Unwind(c.stacks).value.operators;
      UnwindShrinks(c.stacks);
      assert ops' == ops[..|ops'|];
      forall i | 0 <= i < |ops'| ensures IsArith(ops'[i]) || IsOpen(ops'[i]) {
        assert ops'[i] == ops[i];
      }
    } else if t.Symbol? && IsArith(t.c) {
      forall i | 0 <= i < |ops'| ensures IsArith(ops'[i]) || IsOpen(ops'[i]) {
        if i < |ops'| - 1 {
          assert ops'[i] == DropLast(ops')[i];
        }
      }
    }
  }

  /** The token loop keeps the operator stack made of operators and open brackets. */
  lemma {:induction false} LineEndKeepsOperatorsWellFormed(tokens: seq<Token>, c: Config)
    requires WellFormedOperators(c.stacks.operators)
    ensures LineEnd(tokens, c).Ok? ==> WellFormedOperators(LineEnd(tokens, c).value.stacks.operators)
    decreases |tokens|
  {
    if |tokens| > 0 && tokens[0] != EndOfLine && Step(tokens[0], c).Ok? {
      StepKeepsOperatorsWellFormed(tokens[0], c);
      LineEndKeepsOperatorsWellFormed(tokens[1..], Step(tokens[0], c).value);
    }
  }

  /** On a fresh evaluator, once the loop has read `prefix`, a close bracket
      that it accepts does exactly what Unwound describes: pop down to and
      including the nearest open bracket and replace the operands above by
      their right-nested chain, or underflow. */
  lemma CloseBracketUnwinds(prefix: seq<Token>, close: char)
    requires IsClose(close)
    ensures var e := LineEnd(prefix + [EndOfLine], Start(Stacks([], [])));
      e.Ok? ==>
        WellFormedOperators(e.value.stacks.operators) &&
        (e.value.prevTokOperand ==>
          (Step(Symbol(close), e.value).Ok? <==> Unwound(e.value.stacks).Ok?) &&
          (Step(Symbol(close), e.value).Ok? ==> Step(Symbol(close), e.value).value.stacks == Unwound(e.value.stacks).value))
  {
    var e := LineEnd(prefix + [EndOfLine], Start(Stacks([], [])));
    LineEndKeepsOperatorsWellFormed(prefix + [EndOfLine], Start(Stacks([], [])));
    if e.Ok? {
      UnwindSpec(e.value.stacks);
    }
  }

  /** The adjacency checks of the handlers are exactly the pairwise rules of
      MayFollow: a run that returns a value has read a well-formed line, and
      on a well-formed line no InvalidExpression is raised (a stack underflow
      may still be). */
  lemma {:induction false} AdjacencyDecidesInvalid(tokens: seq<Token>, c: Config)
    ensures EvaluateFrom(tokens, c).Ok? ==> WellFormedLine(Previous(c.prevTokOperand, c.prevTokChar), tokens)
    ensures WellFormedLine(Previous(c.prevTokOperand, c.prevTokChar), tokens) ==>
      !(EvaluateFrom(tokens, c).Err? && EvaluateFrom(tokens, c).failure.Invalid?)
    decreases |tokens|
  {
    var prev := Previous(c.prevTokOperand, c.prevTokChar);
    if |tokens| > 0 && tokens[0] != EndOfLine {
      var t := tokens[0];
      WellFormedLineCons(prev, tokens);
      match Step(t, c)
      case Err(f) =>
      case Ok(next) =>
        AdjacencyDecidesInvalid(tokens[1..], next);
        var prev' := Previous(next.prevTokOperand, next.prevTokChar);
        if t.Number? {
          WellFormedLineAfterNumber(0.0, t.v, tokens[1..]);
        } else {
          assert prev' == t;
        }
    }
  }

  /** On a fresh evaluator: whatever `evaluate` accepts is a well-formed line
      after the initial adjacency state (no operand yet, last character a
      space), and on such a line only an underflow can make it fail. */
  lemma EvaluateRespectsAdjacency(tokens: seq<Token>)
    ensures Evaluate(tokens).Ok? ==> WellFormedLine(Symbol(' '), tokens)
    ensures WellFormedLine(Symbol(' '), tokens) ==> Evaluate(tokens).Ok? || Evaluate(tokens) == Err(Underflow)
  {
    AdjacencyDecidesInvalid(tokens, Start(Stacks([], [])));
  }
}
