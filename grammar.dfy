/** The adjacency rules that the evaluator's handlers enforce, stated on
    pairs of neighbouring tokens rather than on the state it threads through
    its loop. */
module Grammar {
  import opened Values

  /** May token `next` come right after token `prev`? Numbers and open
      brackets may not follow a number or a close bracket; an operator may
      not follow an open bracket or another operator; a close bracket must
      follow a number; words, other characters and line ends never qualify. */
  predicate MayFollow(prev: Token, next: Token) {
    match next
    case Number(_) => !prev.Number? && !(prev.Symbol? && IsClose(prev.c))
    case Symbol(c) =>
      if IsArith(c) then prev.Number? || (prev.Symbol? && !IsOpen(prev.c) && !IsArith(prev.c))
      else if IsOpen(c) then !prev.Number? && !(prev.Symbol? && IsClose(prev.c))
      else IsClose(c) && prev.Number?
    case Word(_) => false
    case EndOfLine => false
  }

  /** The token that the adjacency state (`prevTokOperand`, `prevTokChar`)
      stands for: a number, or the last character seen. */
  function Previous(prevTokOperand: bool, prevTokChar: char): Token {
    if prevTokOperand then Number(0.0) else Symbol(prevTokChar)
  }

  /** The number of tokens before the first end of line. */
  function LineLength(tokens: seq<Token>): (n: nat)
    ensures n <= |tokens|
    ensures forall i :: 0 <= i < n ==> tokens[i] != EndOfLine
    ensures n < |tokens| ==> tokens[n] == EndOfLine
  {
    if |tokens| == 0 || tokens[0] == EndOfLine then 0 else 1 + LineLength(tokens[1..])
  }

  /** The tokens form a line (an end of line is present) in which the first
      token may follow `prev` and every other token may follow its predecessor. */
  predicate WellFormedLine(prev: Token, tokens: seq<Token>) {
    var n := LineLength(tokens);
    n < |tokens| &&
    (n > 0 ==> MayFollow(prev, tokens[0])) &&
    forall i :: 0 < i < n ==> MayFollow(tokens[i - 1], tokens[i])
  }

  /** A line that does not start with its end is well formed exactly when its
      first token may follow `prev` and the rest is well formed after it. */
  lemma WellFormedLineCons(prev: Token, tokens: seq<Token>)
    requires |tokens| > 0 && tokens[0] != EndOfLine
    ensures WellFormedLine(prev, tokens) <==> MayFollow(prev, tokens[0]) && WellFormedLine(tokens[0], tokens[1..])
  {
    var rest := tokens[1..];
    var n := LineLength(tokens);
    assert n == 1 + LineLength(rest);
    if MayFollow(prev, tokens[0]) && WellFormedLine(tokens[0], rest) {
      forall i | 0 < i < n
        ensures MayFollow(tokens[i - 1], tokens[i])
      {
        assert tokens[i] == rest[i - 1];
        if i > 1 {
          assert tokens[i - 1] == rest[i - 2];
        }
      }
    }
    if WellFormedLine(prev, tokens) {
      forall i | 0 < i < n - 1
        ensures MayFollow(rest[i - 1], rest[i])
      {
        assert rest[i] == tokens[i + 1] && rest[i - 1] == tokens[i];
      }
      if n > 1 {
        assert rest[0] == tokens[1];
      }
    }
  }

  /** Only whether a number came before matters, not its value. */
  lemma WellFormedLineAfterNumber(x: real, y: real, tokens: seq<Token>)
    ensures WellFormedLine(Number(x), tokens) <==> WellFormedLine(Number(y), tokens)
  {
    if LineLength(tokens) > 0 {
      assert MayFollow(Number(x), tokens[0]) == MayFollow(Number(y), tokens[0]);
    }
  }
}
