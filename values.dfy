/** Values, tokens and failures shared by the model of the infix evaluator. */
module Values {

  /** An operand. The evaluator computes with Java doubles and Math.pow; the
      model keeps that arithmetic symbolic, so `Apply(op, a, b)` stands for
      `a op b` and the only number the evaluator invents itself, 0.0, is `Lit(0.0)`. */
  datatype Value = Lit(x: real) | Apply(op: char, lhs: Value, rhs: Value)

  /** A token as the stream tokenizer classifies it: a number, a word, a single
      ordinary character (operator, bracket or anything else), or the end of
      the line. A token sequence that runs out stands for end-of-file. */
  datatype Token = Number(v: real) | Word(s: string) | Symbol(c: char) | EndOfLine

  /** Why an expression was rejected: one constructor per InvalidExpressionException
      that the evaluator throws. */
  datatype Reason =
    | MultipleOperands      // an operand right after an operand
    | OperandAfterClose     // an operand right after `)` or `}`
    | OperatorAfterOpen     // an operator right after `(` or `{`
    | TwoOperators          // an operator right after an operator
    | OpenAfterOperand      // an open bracket right after an operand
    | OpenAfterClose        // an open bracket right after a close bracket
    | CloseWithoutOperand   // a close bracket not right after an operand
    | Unrecognized(symbol: string)

  /** A rejected expression, or a pop/peek on an empty stack. */
  datatype Failure = Invalid(reason: Reason) | Underflow

  datatype Result<T> = Ok(value: T) | Err(failure: Failure)

  /** The five characters the evaluator treats as binary operators. */
  predicate IsArith(c: char) {
    c == '^' || c == '*' || c == '/' || c == '+' || c == '-'
  }

  predicate IsOpen(c: char) {
    c == '(' || c == '{'
  }

  predicate IsClose(c: char) {
    c == ')' || c == '}'
  }

  /** The character `(char) StreamTokenizer.TT_EOF`, which the evaluator
      reports as the unrecognized symbol when the input ends before a line end. */
  const EofChar: char := '\U{FFFF}'

  function Last<T>(s: seq<T>): T
    requires |s| > 0
  {
    s[|s| - 1]
  }

  function DropLast<T>(s: seq<T>): seq<T>
    requires |s| > 0
  {
    s[..|s| - 1]
  }
}
