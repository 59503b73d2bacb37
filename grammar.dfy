/** What the recursive-descent methods of app/Services/ExpressionParser.php compute, as
    functions of the token list and a cursor position. Each function returns the value of the
    phrase that starts at `pos` and the position just after it, or the error that the method
    throws. The parser class is proved to compute exactly these. */
module Grammar {
  import opened Wrappers
  import opened TokenTypes
  import opened Tokens
  import opened ParseErrors
  import opened Registries
  import opened Operators
  import opened Functions
  import Numerics
  import OperatorRegistry
  import FunctionRegistry
  import Lexer
  import Normalize

  /** The parser's collaborators: the two registries and the numeric library. */
  datatype Env = Env(operators: Items<OperatorKind>, functions: Items<FunctionKind>, lib: Numerics.Libm)

  /** A phrase's value and the position of the first token after it. */
  datatype Parsed = Parsed(value: real, next: nat)

  /** The parser only ever sees tokens its own tokenizer built. */
  predicate WellFormed(env: Env, toks: seq<Token>)
  {
    Lexer.WellFormedTokens(env.operators.keys, env.functions, toks)
  }

  /** `$this->current()?->is(TokenType::Operator) && in_array($this->current()->value,
      getByPrecedence(p))`: the token at `pos` is an operator of precedence `p`. */
  predicate AtTier(env: Env, toks: seq<Token>, pos: nat, p: int)
  {
    pos < |toks| && toks[pos].Is(Operator) && toks[pos].value.Text? &&
    toks[pos].value.s in OperatorRegistry.GetByPrecedence(env.operators, p)
  }

  /** The token at `pos` is the operator `sym`. */
  predicate AtSign(toks: seq<Token>, pos: nat, sym: string)
  {
    pos < |toks| && toks[pos].Is(Operator) && toks[pos].value == Text(sym)
  }

  /** `$this->current()?->isNot(kind) ?? true`: no token at `pos`, or one of another kind. */
  predicate NotAt(toks: seq<Token>, pos: nat, kind: TokenType)
  {
    pos >= |toks| || toks[pos].IsNot(kind)
  }

  /** Applies the registered operator `sym`, as `$this->operators->get($symbol)->apply(...)`. */
  function ApplyOperator(env: Env, sym: string, left: real, right: real): Result<real, ParseError>
    requires sym in env.operators.entries
  {
    Operators.Apply(env.lib, OperatorRegistry.Get(env.operators, sym), left, right)
  }

  /** `parseExpression`. */
  function Expression(env: Env, toks: seq<Token>, pos: nat): (r: Result<Parsed, ParseError>)
    requires WellFormed(env, toks)
    ensures r.Ok? ==> pos < r.value.next <= |toks|
    decreases |toks| - pos, 7
  {
    Addition(env, toks, pos)
  }

  /** `parseAddition`: one multiplicative phrase, then the loop over `+`/`-`. */
  function Addition(env: Env, toks: seq<Token>, pos: nat): (r: Result<Parsed, ParseError>)
    requires WellFormed(env, toks)
    ensures r.Ok? ==> pos < r.value.next <= |toks|
    decreases |toks| - pos, 6
  {
    var left :- Multiplication(env, toks, pos);
    AdditionLoop(env, toks, left.value, left.next)
  }

  /** The `while` loop of `parseAddition` entered with `left` as the running value. */
  function AdditionLoop(env: Env, toks: seq<Token>, left: real, pos: nat): (r: Result<Parsed, ParseError>)
    requires WellFormed(env, toks) && pos <= |toks|
    ensures r.Ok? ==> pos <= r.value.next <= |toks|
    decreases |toks| - pos, 6
  {
    if AtTier(env, toks, pos, 1) then
      var sym := toks[pos].value.s;
      OperatorRegistry.TierMembers(env.operators, 1, sym);
      var right :- Multiplication(env, toks, pos + 1);
      var v :- ApplyOperator(env, sym, left, right.value);
      AdditionLoop(env, toks, v, right.next)
    else
      Ok(Parsed(left, pos))
  }

  /** `parseMultiplication`: one power phrase, then the loop over `*`, `/`, `%`. */
  function Multiplication(env: Env, toks: seq<Token>, pos: nat): (r: Result<Parsed, ParseError>)
    requires WellFormed(env, toks)
    ensures r.Ok? ==> pos < r.value.next <= |toks|
    decreases |toks| - pos, 5
  {
    var left :- Power(env, toks, pos);
    MultiplicationLoop(env, toks, left.value, left.next)
  }

  /** The `while` loop of `parseMultiplication` entered with `left` as the running value. */
  function MultiplicationLoop(env: Env, toks: seq<Token>, left: real, pos: nat): (r: Result<Parsed, ParseError>)
    requires WellFormed(env, toks) && pos <= |toks|
    ensures r.Ok? ==> pos <= r.value.next <= |toks|
    decreases |toks| - pos, 5
  {
    if AtTier(env, toks, pos, 2) then
      var sym := toks[pos].value.s;
      OperatorRegistry.TierMembers(env.operators, 2, sym);
      var right :- Power(env, toks, pos + 1);
      var v :- ApplyOperator(env, sym, left, right.value);
      MultiplicationLoop(env, toks, v, right.next)
    else
      Ok(Parsed(left, pos))
  }

  /** `parsePower`: a unary phrase as the base, then at most one `^` whose exponent is again
      a power phrase. */
  function Power(env: Env, toks: seq<Token>, pos: nat): (r: Result<Parsed, ParseError>)
    requires WellFormed(env, toks)
    ensures r.Ok? ==> pos < r.value.next <= |toks|
    decreases |toks| - pos, 4
  {
    var base :- Unary(env, toks, pos);
    if AtTier(env, toks, base.next, 3) then
      var sym := toks[base.next].value.s;
      OperatorRegistry.TierMembers(env.operators, 3, sym);
      var exponent :- Power(env, toks, base.next + 1);
      var v :- ApplyOperator(env, sym, base.value, exponent.value);
      Ok(Parsed(v, exponent.next))
    else
      Ok(base)
  }

  /** `parseUnary`: any number of leading `-` and `+` signs, then a factor. */
  function Unary(env: Env, toks: seq<Token>, pos: nat): (r: Result<Parsed, ParseError>)
    requires WellFormed(env, toks)
    ensures r.Ok? ==> pos < r.value.next <= |toks|
    decreases |toks| - pos, 3
  {
    if AtSign(toks, pos, "-") then
      var operand :- Unary(env, toks, pos + 1);
      Ok(Parsed(-operand.value, operand.next))
    else if AtSign(toks, pos, "+") then
      Unary(env, toks, pos + 1)
    else
      Factor(env, toks, pos)
  }

  /** `parseFactor`: a number, a function call `f(expr)` or a group `(expr)`. */
  function Factor(env: Env, toks: seq<Token>, pos: nat): (r: Result<Parsed, ParseError>)
    requires WellFormed(env, toks)
    ensures r.Ok? ==> pos < r.value.next <= |toks|
    decreases |toks| - pos, 2
  {
    if pos >= |toks| then
      Err(InvalidSyntax("Unexpected end of expression"))
    else
      var t := toks[pos];
      assert t in toks;
      if t.Is(Number) then
        Ok(Parsed(t.value.x, pos + 1))
      else if t.Is(Function) then
        var name := t.value.s;
        if NotAt(toks, pos + 1, LeftParen) then
          Err(InvalidSyntax("Expected '(' after function " + name))
        else
          var arg :- Expression(env, toks, pos + 2);
          if NotAt(toks, arg.next, RightParen) then
            Err(MismatchedParentheses)
          else
            var v :- Functions.Apply(env.lib, FunctionRegistry.Get(env.functions, name), arg.value);
            Ok(Parsed(v, arg.next + 1))
      else if t.Is(LeftParen) then
        var inner :- Expression(env, toks, pos + 1);
        if NotAt(toks, inner.next, RightParen) then
          Err(MismatchedParentheses)
        else
          Ok(Parsed(inner.value, inner.next + 1))
      else
        Err(InvalidSyntax("Unexpected token: " + t.value.s))
  }

  /** The body of `parse` after tokenizing: evaluate from position 0 and insist that every
      token was consumed. */
  function ParseTokens(env: Env, toks: seq<Token>): (r: Result<real, ParseError>)
    requires WellFormed(env, toks)
  {
    var result :- Expression(env, toks, 0);
    if result.next < |toks| then Err(InvalidSyntax("Unexpected token")) else Ok(result.value)
  }

  /** `parse($expression)`: normalise, tokenize with the registered symbols and functions,
      then evaluate the tokens. */
  function Parse(env: Env, text: string): Result<real, ParseError>
  {
    var toks :- Lexer.Tokenize(env.operators.keys, env.functions, Normalize.Normalize(text));
    Lexer.ScanWellFormed(env.operators.keys, env.functions, Normalize.Normalize(text), 0);
    ParseTokens(env, toks)
  }
}
