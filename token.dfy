/** A lexical unit (app/DTOs/Token.php): an immutable pair of a kind and a value
    that is either a string or a number. */
module Tokens {
  import opened TokenTypes

  /** PHP's `string|float` value of a token. */
  datatype TokenValue = Text(s: string) | Float(x: real)

  /** A datatype value cannot be updated in place, which is what `readonly` promises. */
  datatype Token = Token(kind: TokenType, value: TokenValue) {

    predicate Is(t: TokenType)
    {
      kind == t
    }

    predicate IsNot(t: TokenType)
    {
      kind != t
    }
  }

  /** `isNot` is the negation of `is`, and `is` picks out exactly one kind. */
  lemma IsNotNegatesIs(tok: Token, t: TokenType)
    ensures tok.IsNot(t) == !tok.Is(t)
    ensures tok.Is(t) <==> tok.kind == t
    ensures forall u: TokenType :: tok.Is(t) && tok.Is(u) ==> t == u
  {
  }
}
