/** The evaluator object: two stack fields that the handlers change in place,
    and the token loop of `evaluate`, each proved to do what the functions of
    module Semantics describe. */
module Evaluator {
  import opened Values
  import opened Precedence
  import opened Semantics

  /** How a handler returned: normally, or by throwing. */
  datatype Outcome = Normal | Thrown(failure: Failure)

  /** A handler's outcome and the stacks it left agree with its specification.
      An invalid expression is thrown before any push or pop, so the stacks
      are as they were; after an underflow they are not specified. */
  predicate Agrees(outcome: Outcome, before: Stacks, now: Stacks, spec: Result<Stacks>) {
    match spec
    case Ok(s) => outcome == Normal && now == s
    case Err(f) => outcome == Thrown(f) && (f.Invalid? ==> now == before)
  }

  class InfixExpressionEvaluator {
    var operatorStack: seq<char>   // top at the end
    var operandStack: seq<Value>   // top at the end

    function State(): Stacks
      reads this
    {
      Stacks(operatorStack, operandStack)
    }

    constructor ()
      ensures operatorStack == [] && operandStack == []
    {
      operatorStack := [];
      operandStack := [];
    }

    /** Pop the operand stack; an empty stack underflows. */
    method PopOperand() returns (r: Result<Value>)
      modifies this
      ensures operatorStack == old(operatorStack)
      ensures old(operandStack) == [] ==> r == Err(Underflow) && operandStack == []
      ensures old(operandStack) != [] ==>
        r == Ok(Last(old(operandStack))) && operandStack == DropLast(old(operandStack))
    {
      if operandStack == [] {
        return Err(Underflow);
      }
      r := Ok(Last(operandStack));
      operandStack := DropLast(operandStack);
    }

    /** Pop the operator stack; an empty stack underflows. */
    method PopOperator() returns (r: Result<char>)
      modifies this
      ensures operandStack == old(operandStack)
      ensures old(operatorStack) == [] ==> r == Err(Underflow) && operatorStack == []
      ensures old(operatorStack) != [] ==>
        r == Ok(Last(old(operatorStack))) && operatorStack == DropLast(old(operatorStack))
      ensures r.Ok? ==> old(operatorStack) == operatorStack + [r.value]
    {
      if operatorStack == [] {
        return Err(Underflow);
      }
      r := Ok(Last(operatorStack));
      operatorStack := DropLast(operatorStack);
      assert operatorStack + [r.value] == old(operatorStack);
    }

    /** handleOperand */
    method HandleOperand(operand: Value, prevTokOperand: bool, prevTokChar: char) returns (outcome: Outcome)
      modifies this
      ensures Agrees(outcome, old(State()), State(), OperandStep(old(State()), operand, prevTokOperand, prevTokChar))
    {
      if prevTokOperand {
        return Thrown(Invalid(MultipleOperands));
      }
      if prevTokChar == '}' || prevTokChar == ')' {
        return Thrown(Invalid(OperandAfterClose));
      }
      operandStack := operandStack + [operand];
      return Normal;
    }

    /** handleOperator */
    method HandleOperator(operator: char, prevTokOperand: bool, prevTokChar: char) returns (outcome: Outcome)
      modifies this
      ensures Agrees(outcome, old(State()), State(), OperatorStep(old(State()), operator, prevTokOperand, prevTokChar))
    {
      if !prevTokOperand {
        if prevTokChar == '(' || prevTokChar == '{' {
          return Thrown(Invalid(OperatorAfterOpen));
        }
        if IsArith(prevTokChar) {
          return Thrown(Invalid(TwoOperators));
        }
      }
      var operand3 := Lit(0.0);
      if operatorStack != [] {
        var prevOp := Last(operatorStack);
        var order := CheckPrec(operator, prevOp);
        if !order {
          operatorStack := operatorStack + [operator];
        } else {
          var popped2 := PopOperand();
          if popped2.Err? {
            return Thrown(Underflow);
          }
          var popped1 := PopOperand();
          if popped1.Err? {
            return Thrown(Underflow);
          }
          var operand2, operand1 := popped2.value, popped1.value;
          var op := Last(operatorStack);
          operatorStack := DropLast(operatorStack);
          if IsArith(op) {
            operand3 := Apply(op, operand1, operand2);
          }
          operandStack := operandStack + [operand3];
          operatorStack := operatorStack + [operator];
        }
      } else {
        operatorStack := operatorStack + [operator];
      }
      return Normal;
    }

    /** handleOpenBracket */
    method HandleOpenBracket(openBracket: char, prevTokOperand: bool, prevTokChar: char) returns (outcome: Outcome)
      modifies this
      ensures Agrees(outcome, old(State()), State(), OpenStep(old(State()), openBracket, prevTokOperand, prevTokChar))
    {
      if prevTokOperand {
        return Thrown(Invalid(OpenAfterOperand));
      }
      if prevTokChar == ')' || prevTokChar == '}' {
        return Thrown(Invalid(OpenAfterClose));
      }
      operatorStack := operatorStack + [openBracket];
      return Normal;
    }

    /** handleCloseBracket: the kind of close bracket is not used. */
    method HandleCloseBracket(closeBracket: char, prevTokOperand: bool) returns (outcome: Outcome)
      modifies this
      ensures Agrees(outcome, old(State()), State(), CloseStep(old(State()), prevTokOperand))
    {
      if !prevTokOperand {
        return Thrown(Invalid(CloseWithoutOperand));
      }
      outcome := UnwindToOpen();
    }

    /** The rest of handleCloseBracket: pop the top operator, then combine
        and pop until an open bracket has been popped. */
    method UnwindToOpen() returns (outcome: Outcome)
      modifies this
      ensures Agrees(outcome, old(State()), State(), Unwind(old(State())))
    {
      ghost var target := Unwind(State());
      var popped := PopOperator();
      if popped.Err? {
        return Thrown(Underflow);
      }
      var operator := popped.value;
      while operator != '(' && operator != '{'
        invariant Unwind(Stacks(operatorStack + [operator], operandStack)) == target
        decreases |operatorStack|
      {
        UnwindPopped(State(), operator);
        outcome := CombineTop(operator);
        if outcome.Thrown? {
          return;
        }
        popped := PopOperator();
        if popped.Err? {
          return Thrown(Underflow);
        }
        operator := popped.value;
      }
      UnwindPopped(State(), operator);
      return Normal;
    }

    /** The body of handleCloseBracket's loop: pop two operands and push the
        popped operator's application to them. */
    method CombineTop(operator: char) returns (outcome: Outcome)
      modifies this
      ensures Agrees(outcome, old(State()), State(), Combine(old(State()), operator))
    {
      var popped2 := PopOperand();
      if popped2.Err? {
        return Thrown(Underflow);
      }
      var popped1 := PopOperand();
      if popped1.Err? {
        return Thrown(Underflow);
      }
      var operand2, operand1 := popped2.value, popped1.value;
      assert operandStack == old(operandStack)[..|old(operandStack)| - 2];
      if IsArith(operator) {
        operandStack := operandStack + [Apply(operator, operand1, operand2)];
      }
      return Normal;
    }

    /** handleRemainingOperators: the top two operands are popped once, and
      every remaining operator is applied to that same pair. */
    method HandleRemainingOperators() returns (outcome: Outcome)
      modifies this
      ensures Agrees(outcome, old(State()), State(), Finish(old(State())))
    {
      var popped2 := PopOperand();
      if popped2.Err? {
        return Thrown(Underflow);
      }
      var popped1 := PopOperand();
      if popped1.Err? {
        return Thrown(Underflow);
      }
      var operand2, operand1 := popped2.value, popped1.value;
      assert operandStack == old(operandStack)[..|old(operandStack)| - 2];
      var operand3 := Lit(0.0);
      while operatorStack != []
        invariant Drain(operatorStack, operandStack, operand1, operand2, operand3) ==
                  Finish(old(State())).value.operands
        decreases |operatorStack|
      {
        var op := Last(operatorStack);
        operatorStack := DropLast(operatorStack);
        if IsArith(op) {
          operand3 := Apply(op, operand1, operand2);
        }
        operandStack := operandStack + [operand3];
      }
      return Normal;
    }

    /** evaluate: read tokens up to the end of the line, dispatching each to its
        handler and keeping the adjacency state; then resolve what is left and
        peek at the operand stack. Running out of tokens is end-of-file, which
        falls to the switch's default case. On success the operator stack is
        empty and the operands are those handleRemainingOperators leaves, which
        is in general more than the one value returned. */
    method Evaluate(tokens: seq<Token>) returns (r: Result<Value>)
      modifies this
      ensures r == EvaluateFrom(tokens, Start(old(State())))
      ensures r.Ok? ==>
        LineEnd(tokens, Start(old(State()))).Ok? &&
        Finish(LineEnd(tokens, Start(old(State()))).value.stacks) == Ok(State()) &&
        operatorStack == [] && r.value == Last(operandStack)
    {
      var prevTokOperand := false;
      var prevTokChar := ' ';
      var i := 0;
      while i == |tokens| || tokens[i] != EndOfLine
        invariant i <= |tokens|
        invariant LineEnd(tokens[i..], Config(State(), prevTokOperand, prevTokChar)) ==
                  LineEnd(tokens, Start(old(State())))
        decreases |tokens| - i
      {
        if i == |tokens| {
          return Err(Invalid(Unrecognized([EofChar])));
        }
        var outcome := Normal;
        var token := tokens[i];
        if token.Number? {
          outcome := HandleOperand(Lit(token.v), prevTokOperand, prevTokChar);
          if outcome.Thrown? {
            return Err(outcome.failure);
          }
          prevTokOperand := true;
        } else if token.Symbol? {
          var c := token.c;
          if IsArith(c) {
            outcome := HandleOperator(c, prevTokOperand, prevTokChar);
          } else if IsOpen(c) {
            outcome := HandleOpenBracket(c, prevTokOperand, prevTokChar);
          } else if IsClose(c) {
            outcome := HandleCloseBracket(c, prevTokOperand);
          } else {
            return Err(Invalid(Unrecognized([c])));
          }
          if outcome.Thrown? {
            return Err(outcome.failure);
          }
          prevTokChar := c;
          prevTokOperand := false;
        } else {
          // a word
          return Err(Invalid(Unrecognized(token.s)));
        }
        i := i + 1;
      }
      ghost var atEnd := State();
      assert LineEnd(tokens, Start(old(State()))) == Ok(Config(atEnd, prevTokOperand, prevTokChar));
      var outcome := HandleRemainingOperators();
      if outcome.Thrown? {
        return Err(outcome.failure);
      }
      if operandStack == [] {
        return Err(Underflow);
      }
      return Ok(Last(operandStack));
    }
  }
}
