# Infix expression evaluator: a Dafny model

This project models `InfixExpressionEvaluator`, a one-pass infix evaluator. It reads a line of
classified tokens and keeps two stacks: an operator stack of characters and an operand stack of values. It
fuses shunting-yard reordering with evaluation. Adjacency state (`prevTokOperand`, `prevTokChar`) is
threaded through its token loop, and the handlers use it to reject ill-formed lines.

The model follows the code as written, including the places where it does not do what its comments say:

- `checkPrec` gives `+` and `-` precedence 1 and every other character -1. Each precedence ladder ends
  in an `if`/`else` that overwrites the earlier assignments. So `*`, `/` and `^` always resolve the
  stack top, even an open bracket. Resolving a bracket pushes 0.0.
- `handleRemainingOperators` pops the top two operands once. It then applies every remaining operator to
  that same pair, pushing each result.
- Bracket kinds are not matched, so `(` may close with `}`.

The code's results differ from the ones an ordinary arithmetic reading would expect:

| line | ordinary reading | as written |
|---|---|---|
| `2+3*4` | 14 | 20, computed as (2+3)*4 |
| `2*3^2` | 18 | 36 |
| `2*3+4` | 10 | 12, computed as 3*4 |
| `5` | 5 | underflow |
| `(2*3)` | 6 | underflow |
| `(2+3` | rejected | accepted, giving 5 |

The model proves these code results, and none of the ordinary ones. A pop or peek on an empty stack is
an explicit `Underflow` failure. It is distinct from `Invalid(reason)`, the model of
`InvalidExpressionException`.

Layout:

- `values.dfy` (module `Values`): values, tokens, failures and character classes. Arithmetic is
  symbolic: `Apply(op, a, b)` stands for `a op b`.
- `precedence.dfy` (module `Precedence`): `checkPrec` as a function.
- `grammar.dfy` (module `Grammar`): the adjacency rules as a relation on neighbouring tokens.
- `semantics.dfy` (module `Semantics`): each handler and the token loop as a pure function on the
  stacks.
- `evaluator.dfy` (module `Evaluator`): the class `InfixExpressionEvaluator`. Its stack fields are
  `seq`s with the top at the end, and its handler methods change them in place. Each method is
  proved to do what the matching `Semantics` function describes.
- `properties.dfy` (module `Properties`): reference definitions that do not follow the code's loops,
  such as the nearest open bracket and the right-nested chain. It also holds the lemmas that tie the
  handlers and the loop to them.
- `lines.dfy` and `examples.dfy` (modules `Lines` and `Examples`): whole lines run through `evaluate`.
  These cover every line `a o b` and `a o1 b o2 c`, and concrete lines with brackets and errors.

## Model

| member | source | states |
|---|---|---|
| Precedence.Ladder | InfixExpressionEvaluator.java:361-394 | measured against the ranking the ladder's first branches assign (`IntendedPrec`: `^` 3, `*` `/` 2, `+` `-` 1, others -1), each ladder never ranks a character higher, and it agrees exactly on the characters other than `^`, `*` and `/`, to which it gives -1 |
| Precedence.CheckPrec | InfixExpressionEvaluator.java:354-404 | checkPrec is true exactly when the new operator is not `+`/`-` or the stack top is `+`/`-` |
| Precedence.CheckPrecVersusIntended | InfixExpressionEvaluator.java:354-404 | checkPrec differs from comparing the intended ranking exactly when an additive operator meets `*`, `/` or `^` on top (it defers instead of resolving), or another character meets a stack top ranked below it (it resolves instead of deferring); for instance (`*`,`+`), (`+`,`*`), (`*`,`(`) and (`^`,`*`) |
| Semantics.OperandStep | InfixExpressionEvaluator.java:135-146 | handleOperand fails, always with an invalid expression, iff the previous token was an operand or a close bracket; otherwise it pushes exactly the operand and leaves the operators alone |
| Semantics.OperatorStep | InfixExpressionEvaluator.java:154-228 | handleOperator raises the open-bracket error iff no operand came before and the previous character was `(`/`{`, and the two-operators error iff no operand came before and it was an operator; when an operand came before, no invalid-expression error is raised |
| Semantics.Resolved | InfixExpressionEvaluator.java:197-217 | the value handleOperator pushes for the popped character is its application to the pair exactly when it is an operator, and otherwise the 0.0 that operand3 starts with |
| Semantics.OperatorStepStacks | InfixExpressionEvaluator.java:168-226 | handleOperator underflows iff it resolves with fewer than two operands; the new operator ends on top; when the stack is empty or checkPrec is false, only the operator is pushed; otherwise the operand stack shrinks by one, its top is the popped operator applied to the top pair (0.0 for a bracket), the entries below are kept and the operator stack keeps its size |
| Semantics.OpenStep | InfixExpressionEvaluator.java:236-250 | handleOpenBracket fails iff the previous token was an operand or a close bracket; otherwise it pushes only the bracket |
| Semantics.Combine | InfixExpressionEvaluator.java:278-303 | one pass of the close-bracket loop underflows iff fewer than two operands are left; otherwise it replaces the top pair by the operator's application, or drops the pair for a character that is not an operator |
| Semantics.CloseStep | InfixExpressionEvaluator.java:259-264 | handleCloseBracket raises an invalid expression iff the previous token was not an operand |
| Semantics.Unwind | InfixExpressionEvaluator.java:269-308 | the close-bracket loop can only fail by underflow |
| Semantics.UnwindPopped | InfixExpressionEvaluator.java:275-307 | one turn of the close-bracket loop: a popped open bracket ends it with the rest of the stacks, any other operator underflows with fewer than two operands and otherwise the loop goes on from the combined stacks |
| Semantics.Drain | InfixExpressionEvaluator.java:325-350 | the remaining-operators loop pushes one entry per operator popped; its contents are stated by `DrainSpec` |
| Semantics.Finish | InfixExpressionEvaluator.java:317-351 | handleRemainingOperators underflows iff fewer than two operands are present; otherwise it empties the operator stack and leaves n-2+k operands |
| Semantics.Conclude | InfixExpressionEvaluator.java:121-126 | the end of `evaluate` can only fail by underflow |
| Semantics.Step | InfixExpressionEvaluator.java:67-110 | one pass of the token loop: an operand sets `prevTokOperand` and keeps `prevTokChar`; an operator or bracket clears `prevTokOperand` and records its character; it raises an invalid expression iff the token may not follow the previous one under the adjacency rules; words and other characters are unrecognized symbols |
| Semantics.LineEnd | InfixExpressionEvaluator.java:65-118 | the token loop runs to the configuration at the end of the line; it reaches one only when the tokens hold a line end, and fails otherwise |
| Semantics.EvaluateFrom | InfixExpressionEvaluator.java:53-127 | `evaluate` from given stacks and adjacency state is the token loop followed by the final resolution and peek; it never returns a value for tokens without a line end |
| Semantics.Evaluate | InfixExpressionEvaluator.java:53-127 | `evaluate` on a fresh evaluator, with empty stacks; it never returns a value for tokens without a line end |
| Properties.UnwindShrinks | InfixExpressionEvaluator.java:269-308 | the close-bracket loop only pops operators, stops below the top, and never leaves more operands than it found |
| Properties.UnwindSpec | InfixExpressionEvaluator.java:259-309 | on a stack of operators and open brackets, the close-bracket loop pops down to and including the nearest open bracket of either kind; it replaces the top k+1 operands by their right-nested application to the k operators above it and keeps everything below; it underflows when there is no open bracket or too few operands |
| Properties.DrainSpec | InfixExpressionEvaluator.java:325-350 | the remaining-operators loop keeps the operands below and pushes one entry per operator, each computed from the same pair; a character that is not an operator repeats the previous entry |
| Properties.FinishSpec | InfixExpressionEvaluator.java:317-351 | handleRemainingOperators underflows iff fewer than two operands; otherwise the operator stack is empty, n-2+k operands remain, those below the pair are unchanged, every pushed entry uses the same top pair, and the top entry comes from the bottom-most operator |
| Properties.ConcludeSpec | InfixExpressionEvaluator.java:121-126 | `evaluate` returns a value at the end of the line iff at least two operands are present and either an operator is left or more than two operands are; the value is the bottom-most operator applied to the top pair, or else the third operand from the top |
| Properties.StepKeepsOperatorsWellFormed | InfixExpressionEvaluator.java:67-99 | every handler keeps the operator stack made only of operators and open brackets |
| Properties.LineEndKeepsOperatorsWellFormed | InfixExpressionEvaluator.java:65-118 | the token loop keeps the operator stack made of operators and open brackets |
| Properties.CloseBracketUnwinds | InfixExpressionEvaluator.java:259-309 | on a fresh evaluator, a close bracket that the loop accepts after any prefix pops down to the nearest open bracket and replaces the operands above by their right-nested chain, exactly as `UnwindSpec` states, or underflows |
| Properties.AdjacencyDecidesInvalid | InfixExpressionEvaluator.java:65-118 | from any adjacency state, a line `evaluate` accepts obeys the adjacency rules, and on a line that obeys them no invalid expression is raised |
| Properties.EvaluateRespectsAdjacency | InfixExpressionEvaluator.java:53-127 | on a fresh evaluator, `evaluate` succeeds only on lines that obey the adjacency rules, and on such a line it either succeeds or underflows |
| Grammar.LineLength | InfixExpressionEvaluator.java:65 | the loop reads exactly the tokens before the first end of line |
| Grammar.WellFormedLineCons | InfixExpressionEvaluator.java:65-118 | a line is well formed iff its first token may follow the previous one and the rest is well formed after it |
| Grammar.WellFormedLineAfterNumber | InfixExpressionEvaluator.java:72 | after an operand, only the fact that one came matters to the adjacency rules, not its value |
| Evaluator.InfixExpressionEvaluator.constructor | InfixExpressionEvaluator.java:43-45 | a new evaluator starts with both stacks empty |
| Evaluator.InfixExpressionEvaluator.PopOperand | InfixExpressionEvaluator.java:192-193 | pop of the operand stack: the top value and the rest, or underflow when empty; the operators are untouched |
| Evaluator.InfixExpressionEvaluator.PopOperator | InfixExpressionEvaluator.java:194 | pop of the operator stack: the top character and the rest, which with it pushed back is the old stack, or underflow when empty; the operands are untouched |
| Evaluator.InfixExpressionEvaluator.HandleOperand | InfixExpressionEvaluator.java:135-146 | handleOperand throws and changes the stacks exactly as `OperandStep` says; when it throws an invalid expression the stacks are unchanged |
| Evaluator.InfixExpressionEvaluator.HandleOperator | InfixExpressionEvaluator.java:154-228 | handleOperator throws and changes the stacks exactly as `OperatorStep` says; when it throws an invalid expression the stacks are unchanged |
| Evaluator.InfixExpressionEvaluator.HandleOpenBracket | InfixExpressionEvaluator.java:236-250 | handleOpenBracket throws and changes the stacks exactly as `OpenStep` says; when it throws an invalid expression the stacks are unchanged |
| Evaluator.InfixExpressionEvaluator.HandleCloseBracket | InfixExpressionEvaluator.java:259-309 | handleCloseBracket's loop throws and changes the stacks exactly as `CloseStep` says, leaving them unchanged when it throws an invalid expression; on a stack of operators and open brackets, which `CloseBracketUnwinds` shows for every stack `evaluate` reaches, that is what `UnwindSpec` states |
| Evaluator.InfixExpressionEvaluator.UnwindToOpen | InfixExpressionEvaluator.java:269-308 | once a close bracket follows an operand, the pops and combinations down to the nearest open bracket throw and change the stacks exactly as `Unwind` says |
| Evaluator.InfixExpressionEvaluator.CombineTop | InfixExpressionEvaluator.java:278-303 | the body of the close-bracket loop does what `Combine` says |
| Evaluator.InfixExpressionEvaluator.HandleRemainingOperators | InfixExpressionEvaluator.java:317-351 | handleRemainingOperators' loop throws and changes the stacks exactly as `Finish` says, and so as `FinishSpec` states |
| Evaluator.InfixExpressionEvaluator.Evaluate | InfixExpressionEvaluator.java:53-127 | the token loop returns what `EvaluateFrom` gives from the initial adjacency state and the current stacks, for every token sequence, including one that ends before a line end; on success it leaves an empty operator stack and exactly the operands `Finish` leaves from the stacks at the line end, and returns the top one |
| Lines.FirstOperation | InfixExpressionEvaluator.java:53-146 | the first three tokens `a o b` of a line push a, o and b |
| Lines.ConcludeOne | InfixExpressionEvaluator.java:317-351 | at the end of a line, one operator over two operands gives their application |
| Lines.ConcludeTwo | InfixExpressionEvaluator.java:317-351 | at the end of a line, two operators over three operands leave the bottom operand, the upper operator applied to the top pair and, on top and returned, the lower operator applied to the same pair |
| Lines.OneOperatorLine | InfixExpressionEvaluator.java:53-127 | every line `a o b` gives a o b, for instance `2+3` gives 5 and `3-2` gives 1 |
| Lines.ResolveFirst | InfixExpressionEvaluator.java:176-218 | when checkPrec is true, the second operator replaces the first, which is applied to the pair |
| Lines.SecondResolves | InfixExpressionEvaluator.java:53-228 | after `a o1 b`, when checkPrec resolves o1, the line `o2 c` ends with (a o1 b) o2 c |
| Lines.SecondDefers | InfixExpressionEvaluator.java:53-228 | after `a o1 b`, when checkPrec defers, the line `o2 c` ends with b o1 c |
| Lines.DeferSecond | InfixExpressionEvaluator.java:53-186 | after `a o1 b`, when checkPrec defers, `o2 c` and the line end leave o2 above o1 and c above b |
| Lines.FinishTwo | InfixExpressionEvaluator.java:317-351 | the final resolution of two operators over three operands applies both to the top pair and keeps the bottom operand below their results |
| Lines.DeferredLineStacks | InfixExpressionEvaluator.java:53-351 | after a line `a o1 b o2 c` whose second operator is deferred, both operators are still stacked at the line end, and the final resolution leaves three operands, a, b o2 c and b o1 c, not one |
| Lines.TwoOperatorLine | InfixExpressionEvaluator.java:53-404 | every line `a o1 b o2 c` groups from the left unless o1 is `*`, `/` or `^` and o2 is `+` or `-`; in that case it gives b o1 c and a is lost |
| Examples.OpenThenNumber | InfixExpressionEvaluator.java:85-91 | an open bracket and a number, where both are allowed, are pushed |
| Examples.SumAfterOpen | InfixExpressionEvaluator.java:176-186 | `+` after an open bracket and a number is deferred over the bracket |
| Examples.BracketedSum | InfixExpressionEvaluator.java:53-309 | `(a+b)*c` gives (a+b)*c with any mix of bracket kinds, so `(2+3)*4` and `(2+3}*4` give 20 |
| Examples.CloseThenProduct | InfixExpressionEvaluator.java:259-309 | the close bracket of `(a+b)*c` leaves no operator and the sum as the only operand, whatever the bracket kinds; `*c` then gives (a+b)*c |
| Examples.ProductOfBracketedSum | InfixExpressionEvaluator.java:53-351 | `a*(b+c)` gives a*(b+c) with any mix of bracket kinds (a close bracket that left the stacks alone would give b*c instead; `CloseSumUnderProduct` states its step) |
| Examples.ProductFirst | InfixExpressionEvaluator.java:53-194 | `a*` at the start of a line pushes a and then `*` onto the empty operator stack |
| Examples.ProductThenOpenSum | InfixExpressionEvaluator.java:53-249 | `a*(b+c` leaves `*`, the open bracket and `+` over a, b and c: the bracket after `*` is pushed and `+` is deferred over it |
| Examples.CloseSumUnderProduct | InfixExpressionEvaluator.java:259-351 | the close bracket of `a*(b+c)` leaves `*` over a and b+c, and the line end then gives a*(b+c) |
| Examples.MixedPrecedence | InfixExpressionEvaluator.java:53-404 | `2*3+4` gives 3*4, `1+2*3` gives (1+2)*3, and `2*3^2` gives (2*3)^2 |
| Examples.LeftoverOperands | InfixExpressionEvaluator.java:53-351 | after `2*3+4` the operator stack is empty and three operands remain: 2, 3+4 and, on top, the returned 3*4 |
| Examples.UnclosedBracket | InfixExpressionEvaluator.java:317-351 | `(a+b` is accepted and gives a+b |
| Examples.ConcludeUnclosedSum | InfixExpressionEvaluator.java:317-351 | at the end of `(a+b`, the final resolution leaves the sum twice, since the bracket below `+` pushes the carried sum again; the sum is returned |
| Examples.LoneLiteral | InfixExpressionEvaluator.java:321-322 | the line `5` underflows in the final resolution |
| Examples.ProductInBrackets | InfixExpressionEvaluator.java:176-194 | in `(2*3)` the `*` underflows when it tries to resolve the bracket with one operand, so the loop never reaches the line end |
| Examples.SumThenOpen | InfixExpressionEvaluator.java:65-250 | the prefix `a+(b` pushes a, `+`, the bracket and b |
| Examples.ProductInBracketsAfterSum | InfixExpressionEvaluator.java:170-303 | in `a+(b*c)`, by the `)` the stacks hold `+` and `*` over 0.0 and c, the bracket having been resolved to 0.0; the whole line underflows |
| Examples.ProductResolvesBracket | InfixExpressionEvaluator.java:170-217 | `*` after `a+(b` resolves the bracket: a and b are replaced by 0.0 and `*` is stacked above `+`; then c is pushed |
| Examples.CloseAfterZeroProduct | InfixExpressionEvaluator.java:269-308 | in the `)` of `a+(b*c)`, `*` combines 0.0 and c into one operand and `+` then finds fewer than two, so the `)` itself underflows, and so does the rest of the line |
| Examples.UnopenedBracket | InfixExpressionEvaluator.java:269 | `2)` underflows |
| Examples.RejectsTwoOperands | InfixExpressionEvaluator.java:137-140 | `2 3` is rejected as two operands in a row |
| Examples.RejectsTwoOperators | InfixExpressionEvaluator.java:162-165 | `2++3` is rejected as two operators in a row |
| Examples.RejectsOperatorAfterOpen | InfixExpressionEvaluator.java:158-161 | `(+2)` is rejected as an operator after an open bracket |
| Examples.RejectsCloseWithoutOperand | InfixExpressionEvaluator.java:261-264 | `()2` and `)2` are rejected at the close bracket, which follows no operand |
| Examples.DoubleOpenSum | InfixExpressionEvaluator.java:53-186 | `((a+b` leaves both open brackets and the `+` on the operator stack over a and b, the `+` deferred since it follows an open bracket |
| Examples.RejectsDoubleClose | InfixExpressionEvaluator.java:93-99 | the second `)` of `((a+b))` is rejected, since the first clears `prevTokOperand` |
| Examples.CloseTwice | InfixExpressionEvaluator.java:259-309 | the first `)` of `((a+b))` reduces the sum and stops at the inner bracket, leaving the outer one; the second `)` is rejected |
| Examples.RejectsWord | InfixExpressionEvaluator.java:101-104 | a word is an unrecognized symbol |
| Examples.MissingLineEnd | InfixExpressionEvaluator.java:105-108 | input that ends before a line end is rejected with the end-of-file character as the unrecognized symbol |

## Left out

- The `StreamTokenizer` setup in the constructor (lines 28-41) and the token reading (lines 59-62, 113-117) are left out. The token stream is a `seq<Token>`, and running out of tokens stands for end-of-file. The constructor's stack initialisation (lines 43-45) is modelled.
- Wrapping an `IOException` into a `RuntimeException` is left out: it is an input failure, not evaluator logic.
- `main` (lines 412-425) is left out: it is console input and printing.
- Double arithmetic and `Math.pow` are left out, along with their NaN and infinity cases. Values are symbolic `Apply` terms, so results are compared as expressions, not numbers.
- `ArrayStack` is not part of this model. Its pop and peek are taken to fail on an empty stack, and that failure is modelled as `Underflow`.
- Exact exception messages are left out. Each `InvalidExpressionException` is a `Reason` constructor, and only the unrecognized symbol keeps its text.
- The stacks left behind after an underflow are not specified, since the Java code may leave them half-popped. An invalid expression is thrown before any push or pop, and the handlers' contracts state that the stacks are then unchanged.
- Semantics.Unwind: its contract states only the failure kind. What the loop leaves is stated by `Properties.UnwindSpec` and `Properties.UnwindShrinks`.
- Semantics.Conclude: its contract states only the failure kind. The value is stated by `Properties.ConcludeSpec`.
- Semantics.Drain: its contract states only how many entries it pushes. Their contents are stated by `Properties.DrainSpec`.
