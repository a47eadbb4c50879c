/** The precedence comparison `checkPrec` of the evaluator, as written. */
module Precedence {

  /** The ranking the ladders' first branches assign before they are
      overwritten: `^` 3, `*` and `/` 2, `+` and `-` 1, anything else -1. */
  function IntendedPrec(c: char): int {
    if c == '^' then 3
    else if c == '*' || c == '/' then 2
    else if c == '+' || c == '-' then 1
    else -1
  }

  /** The precedence ladder that checkPrec runs for each of its two arguments:
      `^` is given 3, then `*`/`/` 2, and then an if/else on `+`/`-` assigns 1
      or -1 unconditionally, overwriting both earlier assignments. It never
      ranks a character above the intended ranking, and it agrees with that
      ranking on every character except `^`, `*` and `/`, which it ranks -1. */
  function Ladder(c: char): (p: int)
    ensures p <= IntendedPrec(c)
    ensures p == IntendedPrec(c) <==> c != '^' && c != '*' && c != '/'
    ensures IntendedPrec(c) >= 2 ==> p == -1
  {
    var afterPow := if c == '^' then 3 else 0;
    var afterMulDiv := if c == '*' || c == '/' then 2 else afterPow;
    // the last test's `else` discards afterMulDiv
    if c == '+' || c == '-' then 1 else -1
  }

  /** True when the operator on top of the stack (`prevOp`) is to be resolved
      before `operator` is pushed: its ladder value is at least the new one's.
      Because of the ladder, this holds exactly when the new operator is not
      additive or the stack top is additive; in particular `*`, `/` and `^`
      resolve whatever is on top, an open bracket included. */
  function CheckPrec(operator: char, prevOp: char): (resolve: bool)
    ensures resolve <==> (operator != '+' && operator != '-') || prevOp == '+' || prevOp == '-'
  {
    Ladder(operator) <= Ladder(prevOp)
  }

  /** Where checkPrec departs from comparing the intended ranking: an
      additive operator is deferred over `*`, `/` and `^`, which it should
      resolve; any other character resolves a stack top ranked below it,
      which it should defer over. */
  lemma CheckPrecVersusIntended(operator: char, prevOp: char)
    ensures CheckPrec(operator, prevOp) != (IntendedPrec(operator) <= IntendedPrec(prevOp)) <==>
      if operator == '+' || operator == '-' then IntendedPrec(prevOp) >= 2
      else IntendedPrec(prevOp) < IntendedPrec(operator)
    ensures CheckPrec('*', '+') && !(IntendedPrec('*') <= IntendedPrec('+'))
    ensures !CheckPrec('+', '*') && IntendedPrec('+') <= IntendedPrec('*')
    ensures CheckPrec('*', '(') && !(IntendedPrec('*') <= IntendedPrec('('))
    ensures CheckPrec('^', '*') && !(IntendedPrec('^') <= IntendedPrec('*'))
  {
  }
}
