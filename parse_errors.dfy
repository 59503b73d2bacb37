/** The parser's exception (app/Exceptions/ExpressionParseException.php). All five factories
    build the same exception class, so the only thing a caller sees is the message; the
    datatype records which factory built it. */
module ParseErrors {

  datatype ParseError =
    | DivisionByZero
    | InvalidSyntax(details: string)
    | NegativeSquareRoot
    | UnknownFunction(name: string)
    | MismatchedParentheses

  /** PHP truthiness of a string: "" and "0" are falsy. */
  predicate Truthy(s: string)
  {
    s != "" && s != "0"
  }

  const InvalidSyntaxPrefix := "Invalid syntax"
  const UnknownFunctionPrefix := "Unknown function: "
  const NegativeSquareRootMessage := "Cannot calculate square root of negative number"

  /** The message each factory gives its exception. */
  function Message(e: ParseError): string
  {
    match e
    case DivisionByZero => "Division by zero"
    case InvalidSyntax(d) => if Truthy(d) then InvalidSyntaxPrefix + ": " + d else InvalidSyntaxPrefix
    case NegativeSquareRoot => NegativeSquareRootMessage
    case UnknownFunction(n) => UnknownFunctionPrefix + n
    case MismatchedParentheses => "Mismatched parentheses"
  }

  /** `invalidSyntax` appends ": details" exactly when the details are truthy. */
  lemma InvalidSyntaxMessage(d: string)
    ensures Message(InvalidSyntax(d)) == "Invalid syntax" <==> !Truthy(d)
    ensures Truthy(d) ==> Message(InvalidSyntax(d))[|InvalidSyntaxPrefix| + 2..] == d
  {
    if Truthy(d) {
      var m := Message(InvalidSyntax(d));
      assert |m| > |InvalidSyntaxPrefix|;
    }
  }

  /** The first letter of each factory's message; only `invalidSyntax` shares it with no other. */
  function Initial(e: ParseError): char
  {
    match e
    case DivisionByZero => 'D'
    case InvalidSyntax(_) => 'I'
    case NegativeSquareRoot => 'C'
    case UnknownFunction(_) => 'U'
    case MismatchedParentheses => 'M'
  }

  lemma MessageInitial(e: ParseError)
    ensures |Message(e)| > 0 && Message(e)[0] == Initial(e)
  {
    match e
    case InvalidSyntax(d) =>
      assert Message(e)[0] == InvalidSyntaxPrefix[0];
    case UnknownFunction(n) =>
      assert Message(e)[0] == UnknownFunctionPrefix[0];
    case NegativeSquareRoot =>
      assert NegativeSquareRootMessage == "Cannot " + NegativeSquareRootMessage[7..];
    case _ =>
  }

  /** The message determines the factory and its argument, except that the falsy details
      "" and "0" both give the bare "Invalid syntax". */
  lemma {:induction false} MessageIdentifiesError(e1: ParseError, e2: ParseError)
    requires Message(e1) == Message(e2)
    ensures e1 == e2 || (e1.InvalidSyntax? && e2.InvalidSyntax? && !Truthy(e1.details) && !Truthy(e2.details))
  {
    MessageInitial(e1);
    MessageInitial(e2);
    var m := Message(e1);
    match e1
    case UnknownFunction(n1) =>
      assert n1 == m[|UnknownFunctionPrefix|..] == e2.name;
    case InvalidSyntax(d1) =>
      var d2 := e2.details;
      if Truthy(d1) && Truthy(d2) {
        assert d1 == m[|InvalidSyntaxPrefix| + 2..] == d2;
      }
    case _ =>
  }
}
