/** The evaluator's handlers and token loop as pure functions on the two
    stacks. Each function follows the Java method of the same role branch for
    branch; a pop or peek on an empty stack yields `Err(Underflow)`. */
module Semantics {
  import opened Values
  import opened Precedence
  import opened Grammar

  /** The operator stack and the operand stack; the top of each is its last element. */
  datatype Stacks = Stacks(operators: seq<char>, operands: seq<Value>)

  /** The stacks together with the adjacency state that `evaluate` threads
      through its token loop. */
  datatype Config = Config(stacks: Stacks, prevTokOperand: bool, prevTokChar: char)

  /** Every entry of the operator stack is an operator or an open bracket:
      the only characters the handlers ever push. */
  predicate WellFormedOperators(operators: seq<char>) {
    forall i :: 0 <= i < |operators| ==> IsArith(operators[i]) || IsOpen(operators[i])
  }

  /** handleOperand: reject a second operand in a row or an operand right
      after a close bracket, otherwise push the operand. */
  function OperandStep(s: Stacks, operand: Value, prevTokOperand: bool, prevTokChar: char): (r: Result<Stacks>)
    ensures r.Err? <==> prevTokOperand || IsClose(prevTokChar)
    ensures r.Err? ==> r.failure.Invalid?
    ensures r.Ok? ==> r.value.operators == s.operators && r.value.operands == s.operands + [operand]
  {
    if prevTokOperand then Err(Invalid(MultipleOperands))
    else if prevTokChar == '}' || prevTokChar == ')' then Err(Invalid(OperandAfterClose))
    else Ok(s.(operands := s.operands + [operand]))
  }

  /** The value handleOperator pushes when it resolves `op`: the switch has no
      default, so a character that is not an operator leaves it at 0.0. */
  function Resolved(op: char, operand1: Value, operand2: Value): (r: Value)
    ensures r.Apply? <==> IsArith(op)
    ensures r.Apply? ==> r.op == op && r.lhs == operand1 && r.rhs == operand2
    ensures !r.Apply? ==> r == Lit(0.0)
  {
    if IsArith(op) then Apply(op, operand1, operand2) else Lit(0.0)
  }

  /** handleOperator. The adjacency checks are made only when the previous
      token was not an operand. Then the operator is pushed straight away when
      the stack is empty or CheckPrec says to defer; otherwise two operands and
      the top operator are popped, the result pushed, and the operator pushed. */
  function OperatorStep(s: Stacks, operator: char, prevTokOperand: bool, prevTokChar: char): (r: Result<Stacks>)
    ensures r == Err(Invalid(OperatorAfterOpen)) <==> !prevTokOperand && IsOpen(prevTokChar)
    ensures r == Err(Invalid(TwoOperators)) <==> !prevTokOperand && IsArith(prevTokChar)
    ensures r.Err? && r.failure.Invalid? ==> !prevTokOperand
  {
    if !prevTokOperand && (prevTokChar == '(' || prevTokChar == '{') then
      Err(Invalid(OperatorAfterOpen))
    else if !prevTokOperand && IsArith(prevTokChar) then
      Err(Invalid(TwoOperators))
    else if |s.operators| == 0 || !CheckPrec(operator, Last(s.operators)) then
      Ok(s.(operators := s.operators + [operator]))
    else if |s.operands| < 2 then
      Err(Underflow)
    else
      var n := |s.operands|;
      var operand2 := s.operands[n - 1];
      var operand1 := s.operands[n - 2];
      var op := Last(s.operators);
      Ok(Stacks(DropLast(s.operators) + [operator], s.operands[..n - 2] + [Resolved(op, operand1, operand2)]))
  }

  /** What handleOperator does to the stacks. It underflows exactly when it
      resolves with fewer than two operands. Otherwise the new operator ends
      up on top: pushed straight away when the stack was empty or CheckPrec
      defers, or else in place of the top operator, which is applied to the
      top two operands and replaced by its result. */
  lemma OperatorStepStacks(s: Stacks, operator: char, prevTokOperand: bool, prevTokChar: char)
    ensures var r := OperatorStep(s, operator, prevTokOperand, prevTokChar);
      r == Err(Underflow) <==>
        (prevTokOperand || (!IsOpen(prevTokChar) && !IsArith(prevTokChar))) &&
        |s.operators| > 0 && CheckPrec(operator, Last(s.operators)) && |s.operands| < 2
    ensures var r := OperatorStep(s, operator, prevTokOperand, prevTokChar);
      r.Ok? ==> |r.value.operators| > 0 && Last(r.value.operators) == operator
    ensures var r := OperatorStep(s, operator, prevTokOperand, prevTokChar);
      r.Ok? && (|s.operators| == 0 || !CheckPrec(operator, Last(s.operators))) ==>
        r.value.operands == s.operands && DropLast(r.value.operators) == s.operators
    ensures var r := OperatorStep(s, operator, prevTokOperand, prevTokChar);
      r.Ok? && |s.operators| > 0 && CheckPrec(operator, Last(s.operators)) ==>
        |r.value.operands| == |s.operands| - 1 && |r.value.operators| == |s.operators| &&
        r.value.operands[..|s.operands| - 2] == s.operands[..|s.operands| - 2] &&
        DropLast(r.value.operators) == DropLast(s.operators) &&
        Last(r.value.operands) == Resolved(Last(s.operators), s.operands[|s.operands| - 2], Last(s.operands))
  {
  }

  /** handleOpenBracket: reject an open bracket right after an operand or a
      close bracket, otherwise push it. */
  function OpenStep(s: Stacks, openBracket: char, prevTokOperand: bool, prevTokChar: char): (r: Result<Stacks>)
    ensures r.Err? <==> prevTokOperand || IsClose(prevTokChar)
    ensures r.Err? ==> r.failure.Invalid?
    ensures r.Ok? ==> r.value.operands == s.operands && r.value.operators == s.operators + [openBracket]
  {
    if prevTokOperand then Err(Invalid(OpenAfterOperand))
    else if prevTokChar == ')' || prevTokChar == '}' then Err(Invalid(OpenAfterClose))
    else Ok(s.(operators := s.operators + [openBracket]))
  }

  /** The body of handleCloseBracket's loop for a popped `operator` that is
      not an open bracket: pop two operands and, when `operator` is an
      operator, push its application to them; any other character pushes nothing. */
  function Combine(s: Stacks, operator: char): (r: Result<Stacks>)
    ensures r.Err? <==> |s.operands| < 2
    ensures r.Err? ==> r.failure == Underflow
    ensures r.Ok? ==> r.value.operators == s.operators
    ensures r.Ok? && IsArith(operator) ==>
      r.value.operands == s.operands[..|s.operands| - 2] + [Apply(operator, s.operands[|s.operands| - 2], Last(s.operands))]
    ensures r.Ok? && !IsArith(operator) ==> r.value.operands == s.operands[..|s.operands| - 2]
  {
    if |s.operands| < 2 then Err(Underflow)
    else
      var n := |s.operands|;
      var operand2 := s.operands[n - 1];
      var operand1 := s.operands[n - 2];
      var rest := s.operands[..n - 2];
      Ok(s.(operands := if IsArith(operator) then rest + [Apply(operator, operand1, operand2)] else rest))
  }

  /** The loop of handleCloseBracket: pop an operator; an open bracket ends
      the loop; anything else is combined with the top two operands. */
  function Unwind(s: Stacks): (r: Result<Stacks>)
    ensures r.Err? ==> r.failure == Underflow
    decreases |s.operators|
  {
    if |s.operators| == 0 then Err(Underflow)
    else
      var operator := Last(s.operators);
      var below := Stacks(DropLast(s.operators), s.operands);
      if IsOpen(operator) then Ok(below)
      else
        match Combine(below, operator)
        case Err(f) => Err(f)
        case Ok(t) => Unwind(t)
  }

  /** One turn of that loop: with `operator` just popped, an open bracket
      ends it, and anything else is combined and the loop goes on. */
  lemma UnwindPopped(s: Stacks, operator: char)
    ensures IsOpen(operator) ==> Unwind(Stacks(s.operators + [operator], s.operands)) == Ok(s)
    ensures !IsOpen(operator) && |s.operands| < 2 ==>
              Unwind(Stacks(s.operators + [operator], s.operands)) == Err(Underflow)
    ensures !IsOpen(operator) && |s.operands| >= 2 ==>
              Unwind(Stacks(s.operators + [operator], s.operands)) == Unwind(Combine(s, operator).value)
  {
    assert Last(s.operators + [operator]) == operator;
    assert DropLast(s.operators + [operator]) == s.operators;
  }

  /** handleCloseBracket: a close bracket must come right after an operand. */
  function CloseStep(s: Stacks, prevTokOperand: bool): (r: Result<Stacks>)
    ensures r.Err? && r.failure.Invalid? <==> !prevTokOperand
  {
    if !prevTokOperand then Err(Invalid(CloseWithoutOperand)) else Unwind(s)
  }

  /** The loop of handleRemainingOperators: pop every operator in turn, top
      first, apply it to the same two operands and push the result; `carried`
      is the last result, which a character that is not an operator pushes again. */
  function Drain(operators: seq<char>, operands: seq<Value>, operand1: Value, operand2: Value, carried: Value): (r: seq<Value>)
    ensures |r| == |operands| + |operators|
    decreases |operators|
  {
    if |operators| == 0 then operands
    else
      var op := Last(operators);
      var operand3 := if IsArith(op) then Apply(op, operand1, operand2) else carried;
      Drain(DropLast(operators), operands + [operand3], operand1, operand2, operand3)
  }

  /** handleRemainingOperators: pop two operands once, then drain the operator stack. */
  function Finish(s: Stacks): (r: Result<Stacks>)
    ensures r.Err? <==> |s.operands| < 2
    ensures r.Err? ==> r.failure == Underflow
    ensures r.Ok? ==> r.value.operators == [] && |r.value.operands| == |s.operands| - 2 + |s.operators|
  {
    if |s.operands| < 2 then Err(Underflow)
    else
      var n := |s.operands|;
      var operand2 := s.operands[n - 1];
      var operand1 := s.operands[n - 2];
      Ok(Stacks([], Drain(s.operators, s.operands[..n - 2], operand1, operand2, Lit(0.0))))
  }

  /** What `evaluate` does at the end of the line: resolve the remaining
      operators, then peek at the operand stack. */
  function Conclude(s: Stacks): (r: Result<Value>)
    ensures r.Err? ==> r.failure == Underflow
  {
    match Finish(s)
    case Err(f) => Err(f)
    case Ok(t) => if |t.operands| == 0 then Err(Underflow) else Ok(Last(t.operands))
  }

  /** One pass of the token loop for a token other than the end of the line:
      the switch of `evaluate`, with the adjacency state it leaves behind. */
  function Step(t: Token, c: Config): (r: Result<Config>)
    requires t != EndOfLine
    ensures r.Ok? ==> r.value.prevTokOperand == t.Number?
    ensures r.Ok? && t.Number? ==> r.value.prevTokChar == c.prevTokChar
    ensures r.Ok? && t.Symbol? ==> r.value.prevTokChar == t.c
    ensures (r.Err? && r.failure.Invalid?) <==> !MayFollow(Previous(c.prevTokOperand, c.prevTokChar), t)
    ensures t.Word? ==> r == Err(Invalid(Unrecognized(t.s)))
    ensures t.Symbol? && !IsArith(t.c) && !IsOpen(t.c) && !IsClose(t.c) ==> r == Err(Invalid(Unrecognized([t.c])))
  {
    match t
    case Number(v) =>
      (match OperandStep(c.stacks, Lit(v), c.prevTokOperand, c.prevTokChar)
       case Err(f) => Err(f)
       case Ok(s) => Ok(Config(s, true, c.prevTokChar)))
    case Symbol(ch) =>
      if IsArith(ch) then
        (match OperatorStep(c.stacks, ch, c.prevTokOperand, c.prevTokChar)
         case Err(f) => Err(f)
         case Ok(s) => Ok(Config(s, false, ch)))
      else if IsOpen(ch) then
        (match OpenStep(c.stacks, ch, c.prevTokOperand, c.prevTokChar)
         case Err(f) => Err(f)
         case Ok(s) => Ok(Config(s, false, ch)))
      else if IsClose(ch) then
        (match CloseStep(c.stacks, c.prevTokOperand)
         case Err(f) => Err(f)
         case Ok(s) => Ok(Config(s, false, ch)))
      else Err(Invalid(Unrecognized([ch])))
    case Word(w) => Err(Invalid(Unrecognized(w)))
  }

  /** The token loop of `evaluate` from configuration `c`: process tokens up
      to the end of the line and give the configuration there. Running out of
      tokens is the tokenizer's end-of-file, which the switch rejects as an
      unrecognized symbol; so the loop only finishes on a line that has its end. */
  function LineEnd(tokens: seq<Token>, c: Config): (r: Result<Config>)
    ensures r.Ok? ==> LineLength(tokens) < |tokens|
    ensures LineLength(tokens) == |tokens| ==> r.Err?
    decreases |tokens|
  {
    if |tokens| == 0 then Err(Invalid(Unrecognized([EofChar])))
    else if tokens[0] == EndOfLine then Ok(c)
    else
      match Step(tokens[0], c)
      case Err(f) => Err(f)
      case Ok(next) => LineEnd(tokens[1..], next)
  }

  /** `evaluate` from configuration `c`: the token loop, then the final
      resolution and the peek. It never returns a value for tokens without a
      line end. */
  function EvaluateFrom(tokens: seq<Token>, c: Config): (r: Result<Value>)
    ensures r.Ok? ==> LineLength(tokens) < |tokens|
  {
    match LineEnd(tokens, c)
    case Err(f) => Err(f)
    case Ok(e) => Conclude(e.stacks)
  }

  /** The adjacency state `evaluate` starts with. */
  function Start(s: Stacks): Config {
    Config(s, false, ' ')
  }

  /** `evaluate` on a fresh evaluator, whose stacks are empty. */
  function Evaluate(tokens: seq<Token>): (r: Result<Value>)
    ensures r.Ok? ==> LineLength(tokens) < |tokens|
  {
    EvaluateFrom(tokens, Start(Stacks([], [])))
  }
}
