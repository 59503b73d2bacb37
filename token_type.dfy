/** The token kinds of the tokenizer (app/Enums/TokenType.php), a string-backed enum. */
module TokenTypes {
  import opened Wrappers

  datatype TokenType = Number | Operator | Function | LeftParen | RightParen

  /** The backing string of each case. */
  function BackingValue(t: TokenType): string
  {
    match t
    case Number => "number"
    case Operator => "operator"
    case Function => "function"
    case LeftParen => "left_paren"
    case RightParen => "right_paren"
  }

  /** PHP's `TokenType::tryFrom`: the case whose backing string is `s`, if any. */
  function TryFrom(s: string): (r: Option<TokenType>)
    ensures r.Some? ==> BackingValue(r.value) == s
  {
    if s == "number" then Some(Number)
    else if s == "operator" then Some(Operator)
    else if s == "function" then Some(Function)
    else if s == "left_paren" then Some(LeftParen)
    else if s == "right_paren" then Some(RightParen)
    else None
  }

  /** Every case is recovered from its backing string, so the backing strings are pairwise distinct. */
  lemma BackingValueRoundTrip(t: TokenType)
    ensures TryFrom(BackingValue(t)) == Some(t)
    ensures forall u: TokenType :: BackingValue(u) == BackingValue(t) ==> u == t
  {
  }

  /** A string that is not one of the five backing strings names no case. */
  lemma TryFromClosed(s: string)
    ensures TryFrom(s).None? <==> forall t: TokenType :: BackingValue(t) != s
  {
  }
}
