/** The parser object of app/Services/ExpressionParser.php. It keeps the token list and a
    cursor in fields; `parse` overwrites both, and every `parse*` method moves the cursor
    forward while it computes a value. Each method is proved to compute what the matching
    function of module `Grammar` (or `Lexer`) says. */
module Parser {
  import opened Wrappers
  import opened TokenTypes
  import opened Tokens
  import opened ParseErrors
  import opened Registries
  import opened Operators
  import opened Functions
  import Numerics
  import OperatorRegistry
  import FunctionRegistry
  import Lexer
  import Normalize
  import Grammar

  /** A method result agrees with the specification's result: the same value with the
      cursor left just after the phrase, or the same error. */
  predicate Agrees(r: Result<real, ParseError>, spec: Result<Grammar.Parsed, ParseError>, position: nat)
  {
    match spec
    case Ok(p) => r == Ok(p.value) && position == p.next
    case Err(e) => r == Err(e)
  }

  /** The token list `tokens` followed by the outcome of scanning the rest of the text. */
  function Prefixed(tokens: seq<Token>, rest: Result<seq<Token>, ParseError>): Result<seq<Token>, ParseError>
  {
    if rest.Ok? then Ok(tokens + rest.value) else rest
  }

  /** One step of the scan at `start`: a number run that ends at `j` with at most one point
      yields its token and then the scan from `j`. */
  lemma NumberStep(symbols: seq<string>, fns: Items<FunctionKind>, s: string, start: nat, j: nat)
    requires start < |s| && Lexer.InRun(Lexer.NumberRun, s[start])
    requires j == Lexer.RunEnd(s, start, Lexer.NumberRun) && Lexer.CountDots(s[start..j]) <= 1
    ensures Lexer.Scan(symbols, fns, s, start)
         == Prefixed([Token(Number, Float(Lexer.DecimalValue(s[start..j])))], Lexer.Scan(symbols, fns, s, j))
  {
  }

  /** A name run of a registered function yields its token and then the scan from `j`. */
  lemma NameStep(symbols: seq<string>, fns: Items<FunctionKind>, s: string, start: nat, j: nat)
    requires start < |s| && !Lexer.InRun(Lexer.NumberRun, s[start]) && Lexer.InRun(Lexer.NameRun, s[start])
    requires j == Lexer.RunEnd(s, start, Lexer.NameRun) && s[start..j] in fns.entries
    ensures Lexer.Scan(symbols, fns, s, start)
         == Prefixed([Token(Function, Text(s[start..j]))], Lexer.Scan(symbols, fns, s, j))
  {
  }

  /** A parenthesis or an operator symbol yields its one-character token. */
  lemma CharStep(symbols: seq<string>, fns: Items<FunctionKind>, s: string, start: nat, tok: Token)
    requires start < |s| && !Lexer.InRun(Lexer.NumberRun, s[start]) && !Lexer.InRun(Lexer.NameRun, s[start])
    requires if s[start] == '(' then tok == Token(LeftParen, Text("("))
             else if s[start] == ')' then tok == Token(RightParen, Text(")"))
             else [s[start]] in symbols && tok == Token(Operator, Text([s[start]]))
    ensures Lexer.Scan(symbols, fns, s, start) == Prefixed([tok], Lexer.Scan(symbols, fns, s, start + 1))
  {
  }

  class ExpressionParser {
    var tokens: seq<Token>
    var position: nat
    const operators: Registry<OperatorKind>
    const functions: Registry<FunctionKind>
    /** The numeric library `pow`, `sqrt` and the transcendental functions call into. */
    const lib: Numerics.Libm

    ghost predicate Valid()
      reads this, operators, functions
    {
      operators.Valid() && functions.Valid() && Scanned()
    }

    /** What the `parse*` methods rely on: the tokens are ones the tokenizer built with the
        current registries, and the cursor lies within them. */
    ghost predicate Scanned()
      reads this, operators, functions
    {
      position <= |tokens| && Grammar.WellFormed(Env(), tokens)
    }

    /** The registries' current contents and the library, as the specification sees them. */
    function Env(): Grammar.Env
      reads operators, functions
    {
      Grammar.Env(operators.items, functions.items, lib)
    }

    constructor (operators: Registry<OperatorKind>, functions: Registry<FunctionKind>, lib: Numerics.Libm)
      requires operators.Valid() && functions.Valid()
      ensures Valid() && tokens == [] && position == 0
      ensures this.operators == operators && this.functions == functions && this.lib == lib
    {
      this.operators := operators;
      this.functions := functions;
      this.lib := lib;
      tokens := [];
      position := 0;
    }

    /** `parse($expression)`: normalise, tokenize into the `tokens` field, reset the cursor,
        evaluate, and reject leftover tokens. */
    method Parse(expression: string) returns (r: Result<real, ParseError>)
      requires Valid()
      modifies this`tokens, this`position
      ensures Valid()
      ensures r == Grammar.Parse(Env(), expression)
      ensures var scanned := Lexer.Tokenize(operators.items.keys, functions.items, Normalize.Normalize(expression));
              if scanned.Ok? then tokens == scanned.value
              else tokens == old(tokens) && position == old(position)
      ensures r.Ok? ==> position == |tokens|
    {
      var normalized := Normalize.Normalize(expression);
      var toks :- Tokenize(normalized);
      Lexer.ScanWellFormed(operators.items.keys, functions.items, normalized, 0);
      tokens := toks;
      position := 0;
      var result :- ParseExpression();
      if position < |tokens| {
        return Err(InvalidSyntax("Unexpected token"));
      }
      return Ok(result);
    }

    /** `tokenize($expression)`: one left-to-right pass that appends a token per run or
        character, or stops at the first error. */
    method Tokenize(expression: string) returns (r: Result<seq<Token>, ParseError>)
      requires operators.Valid()
      ensures r == Lexer.Tokenize(operators.items.keys, functions.items, expression)
    {
      var symbols := operators.Keys();
      var fns := functions.items;
      var toks: seq<Token> := [];
      var length := |expression|;
      var i := 0;
      assert Prefixed(toks, Lexer.Scan(symbols, fns, expression, i)) == Lexer.Scan(symbols, fns, expression, i) by {
        if Lexer.Scan(symbols, fns, expression, i).Ok? {
          assert toks + Lexer.Scan(symbols, fns, expression, i).value == Lexer.Scan(symbols, fns, expression, i).value;
        }
      }
      while i < length
        invariant i <= length
        invariant Lexer.Tokenize(symbols, fns, expression) == Prefixed(toks, Lexer.Scan(symbols, fns, expression, i))
        decreases length - i
      {
        var c := expression[i];
        ghost var start := i;
        if Lexer.IsDigit(c) || c == '.' {
          var number;
          number, i := CollectRun(expression, i, Lexer.NumberRun);
          if Lexer.CountDots(number) > 1 {
            return Err(InvalidSyntax("Invalid number: " + number));
          }
          var tok := Token(Number, Float(Lexer.DecimalValue(number)));
          NumberStep(symbols, fns, expression, start, i);
          AppendToken(toks, tok, Lexer.Scan(symbols, fns, expression, i));
          toks := toks + [tok];
          continue;
        }
        if Lexer.IsAlpha(c) {
          var func;
          func, i := CollectRun(expression, i, Lexer.NameRun);
          if !functions.Has(func) {
            return Err(UnknownFunction(func));
          }
          var tok := Token(Function, Text(func));
          NameStep(symbols, fns, expression, start, i);
          AppendToken(toks, tok, Lexer.Scan(symbols, fns, expression, i));
          toks := toks + [tok];
          continue;
        }
        var tok;
        if c == '(' {
          tok := Token(LeftParen, Text("("));
        } else if c == ')' {
          tok := Token(RightParen, Text(")"));
        } else if [c] in symbols {
          tok := Token(Operator, Text([c]));
        } else {
          return Err(InvalidSyntax("Unexpected character: " + [c]));
        }
        CharStep(symbols, fns, expression, start, tok);
        i := i + 1;
        AppendToken(toks, tok, Lexer.Scan(symbols, fns, expression, i));
        toks := toks + [tok];
      }
      assert toks + [] == toks;
      return Ok(toks);
    }

    /** The inner `while` loops of `tokenize`: append characters of kind `k` to the run
        until one of another kind or the end of the text. */
    static method CollectRun(expression: string, start: nat, k: Lexer.RunKind) returns (run: string, i: nat)
      requires start < |expression| && Lexer.InRun(k, expression[start])
      ensures i == Lexer.RunEnd(expression, start, k) && start < i
      ensures run == expression[start..i]
    {
      run := "";
      i := start;
      while i < |expression| && Lexer.InRun(k, expression[i])
        invariant start <= i <= |expression|
        invariant run == expression[start..i]
        invariant Lexer.RunEnd(expression, start, k) == Lexer.RunEnd(expression, i, k)
        decreases |expression| - i
      {
        run := run + [expression[i]];
        i := i + 1;
      }
    }

    /** Moving a token from the rest of the scan to the list built so far keeps the outcome. */
    static lemma AppendToken(toks: seq<Token>, tok: Token, rest: Result<seq<Token>, ParseError>)
      ensures Prefixed(toks + [tok], rest) == Prefixed(toks, Prefixed([tok], rest))
    {
      if rest.Ok? {
        assert toks + [tok] + rest.value == toks + ([tok] + rest.value);
      }
    }

    /** `current()`: the token under the cursor, or null past the end. */
    function Current(): (t: Option<Token>)
      reads this
      ensures t.Some? <==> position < |tokens|
      ensures t.Some? ==> t.value == tokens[position]
    {
      if position < |tokens| then Some(tokens[position]) else None
    }

    /** The loop and `if` conditions of the binary tiers: the token under the cursor is an
        operator whose symbol is listed in `tier`. */
    predicate CurrentIn(tier: seq<string>)
      reads this
    {
      Current().Some? && Current().value.Is(Operator) && Current().value.value.Text? && Current().value.value.s in tier
    }

    /** `advance()`. */
    method Advance()
      modifies this`position
      ensures position == old(position) + 1
    {
      position := position + 1;
    }

    method ParseExpression() returns (r: Result<real, ParseError>)
      requires Scanned()
      modifies this`position
      ensures Scanned()
      ensures Agrees(r, Grammar.Expression(Env(), tokens, old(position)), position)
      decreases |tokens| - position, 7
    {
      r := ParseAddition();
    }

    method ParseAddition() returns (r: Result<real, ParseError>)
      requires Scanned()
      modifies this`position
      ensures Scanned()
      ensures Agrees(r, Grammar.Addition(Env(), tokens, old(position)), position)
      decreases |tokens| - position, 6
    {
      var left :- ParseMultiplication();
      var tier := OperatorRegistry.GetByPrecedence(operators.items, 1);
      while CurrentIn(tier)
        invariant Scanned()
        invariant Grammar.Addition(Env(), tokens, old(position)) == Grammar.AdditionLoop(Env(), tokens, left, position)
        decreases |tokens| - position
      {
        ghost var before := position;
        var symbol := Current().value.value.s;
        assert Grammar.AtTier(Env(), tokens, before, 1);
        OperatorRegistry.TierMembers(operators.items, 1, symbol);
        Advance();
        var right :- ParseMultiplication();
        ghost var applied := Grammar.ApplyOperator(Env(), symbol, left, right);
        assert applied.Ok? ==> Grammar.AdditionLoop(Env(), tokens, left, before) == Grammar.AdditionLoop(Env(), tokens, applied.value, position);
        left :- Grammar.ApplyOperator(Env(), symbol, left, right);
      }
      return Ok(left);
    }

    method ParseMultiplication() returns (r: Result<real, ParseError>)
      requires Scanned()
      modifies this`position
      ensures Scanned()
      ensures Agrees(r, Grammar.Multiplication(Env(), tokens, old(position)), position)
      decreases |tokens| - position, 5
    {
      var left :- ParsePower();
      var tier := OperatorRegistry.GetByPrecedence(operators.items, 2);
      while CurrentIn(tier)
        invariant Scanned()
        invariant Grammar.Multiplication(Env(), tokens, old(position)) == Grammar.MultiplicationLoop(Env(), tokens, left, position)
        decreases |tokens| - position
      {
        ghost var before := position;
        var symbol := Current().value.value.s;
        assert Grammar.AtTier(Env(), tokens, before, 2);
        OperatorRegistry.TierMembers(operators.items, 2, symbol);
        Advance();
        var right :- ParsePower();
        ghost var applied := Grammar.ApplyOperator(Env(), symbol, left, right);
        assert applied.Ok? ==> Grammar.MultiplicationLoop(Env(), tokens, left, before) == Grammar.MultiplicationLoop(Env(), tokens, applied.value, position);
        left :- Grammar.ApplyOperator(Env(), symbol, left, right);
      }
      return Ok(left);
    }

    method ParsePower() returns (r: Result<real, ParseError>)
      requires Scanned()
      modifies this`position
      ensures Scanned()
      ensures Agrees(r, Grammar.Power(Env(), tokens, old(position)), position)
      decreases |tokens| - position, 4
    {
      var left :- ParseUnary();
      var tier := OperatorRegistry.GetByPrecedence(operators.items, 3);
      if CurrentIn(tier) {
        var symbol := Current().value.value.s;
        OperatorRegistry.TierMembers(operators.items, 3, symbol);
        Advance();
        var right :- ParsePower();
        r := Grammar.ApplyOperator(Env(), symbol, left, right);
        return;
      }
      return Ok(left);
    }

    method ParseUnary() returns (r: Result<real, ParseError>)
      requires Scanned()
      modifies this`position
      ensures Scanned()
      ensures Agrees(r, Grammar.Unary(Env(), tokens, old(position)), position)
      decreases |tokens| - position, 3
    {
      if Current().Some? && Current().value.Is(Operator) && Current().value.value == Text("-") {
        Advance();
        var operand :- ParseUnary();
        return Ok(-operand);
      }
      if Current().Some? && Current().value.Is(Operator) && Current().value.value == Text("+") {
        Advance();
        r := ParseUnary();
        return;
      }
      r := ParseFactor();
    }

    method ParseFactor() returns (r: Result<real, ParseError>)
      requires Scanned()
      modifies this`position
      ensures Scanned()
      ensures Agrees(r, Grammar.Factor(Env(), tokens, old(position)), position)
      decreases |tokens| - position, 2
    {
      var token := Current();
      if token.None? {
        return Err(InvalidSyntax("Unexpected end of expression"));
      }
      var t := token.value;
      assert t in tokens;
      if t.Is(Number) {
        Advance();
        return Ok(t.value.x);
      }
      if t.Is(Function) {
        var func := t.value.s;
        Advance();
        if Current().None? || Current().value.IsNot(LeftParen) {
          return Err(InvalidSyntax("Expected '(' after function " + func));
        }
        Advance();
        var arg :- ParseExpression();
        if Current().None? || Current().value.IsNot(RightParen) {
          return Err(MismatchedParentheses);
        }
        Advance();
        r := ApplyFunction(func, arg);
        return;
      }
      if t.Is(LeftParen) {
        Advance();
        var result :- ParseExpression();
        if Current().None? || Current().value.IsNot(RightParen) {
          return Err(MismatchedParentheses);
        }
        Advance();
        return Ok(result);
      }
      return Err(InvalidSyntax("Unexpected token: " + t.value.s));
    }

    /** `applyFunction($name, $arg)`: the registered function's result. */
    function ApplyFunction(name: string, arg: real): (r: Result<real, ParseError>)
      reads this, functions
      requires name in functions.items.entries
      ensures functions.Valid() && functions.keyOf == FunctionRegistry.KeyOf ==>
        forall f :: Functions.Name(f) == name ==> r == Functions.Apply(lib, f, arg)
    {
      var g := FunctionRegistry.Get(functions.items, name);
      Functions.NamesAreLowerCaseWords(g);
      Functions.Apply(lib, g, arg)
    }
  }
}
