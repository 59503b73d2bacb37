/** An independent account of what the parser's precedence and associativity mean. An
    expression tree is evaluated directly, operands left to right, and rendered as tokens with
    the fewest parentheses the grammar needs; parsing the rendering of a tree gives the tree's
    value (or the same error). This pins down that `+ -` and `* / %` associate to the left,
    that `^` associates to the right and binds tighter than `* / %`, that a leading sign
    belongs to the base of a power, that a leading `+` leaves its operand's value unchanged,
    and that function calls and groups bind tightest. */
module Reference {
  import opened Wrappers
  import opened TokenTypes
  import opened Tokens
  import opened ParseErrors
  import opened Registries
  import opened Operators
  import opened Functions
  import Numerics
  import OperatorRegistry
  import FunctionRegistry
  import ServiceProvider
  import Lexer
  import Grammar

  datatype Expr =
    | Num(x: real)
    | Neg(operand: Expr)
    | Pos(operand: Expr)
    | Call(f: FunctionKind, arg: Expr)
    | Bin(op: OperatorKind, left: Expr, right: Expr)

  /** Number tokens never carry a sign: a negative number is a negation. */
  predicate Unsigned(e: Expr)
  {
    match e
    case Num(x) => x >= 0.0
    case Neg(a) => Unsigned(a)
    case Pos(a) => Unsigned(a)
    case Call(_, a) => Unsigned(a)
    case Bin(_, l, r) => Unsigned(l) && Unsigned(r)
  }

  /** The value of a tree: operands left to right, then the operator or function. */
  function Eval(lib: Numerics.Libm, e: Expr): Result<real, ParseError>
  {
    match e
    case Num(x) => Ok(x)
    case Neg(a) =>
      var v :- Eval(lib, a);
      Ok(-v)
    case Pos(a) => Eval(lib, a)
    case Call(f, a) =>
      var v :- Eval(lib, a);
      Functions.Apply(lib, f, v)
    case Bin(op, l, r) =>
      var a :- Eval(lib, l);
      var b :- Eval(lib, r);
      Operators.Apply(lib, op, a, b)
  }

  /** A binary operator on two operand results: the first error, else the operator's result. */
  function Combine(lib: Numerics.Libm, op: OperatorKind, a: Result<real, ParseError>, b: Result<real, ParseError>): Result<real, ParseError>
  {
    if a.Err? then a else if b.Err? then b else Operators.Apply(lib, op, a.value, b.value)
  }

  lemma EvalBin(lib: Numerics.Libm, e: Expr)
    requires e.Bin?
    ensures Eval(lib, e) == Combine(lib, e.op, Eval(lib, e.left), Eval(lib, e.right))
  {
  }

  /** The registries `register()` builds, with a numeric library. */
  function StdEnv(lib: Numerics.Libm): Grammar.Env
  {
    Grammar.Env(ServiceProvider.DefaultOperators(), ServiceProvider.DefaultFunctions(), lib)
  }

  /** What the proofs below use of the registries: each operator and each function is
      registered under its own symbol or name. */
  ghost predicate Standard(env: Grammar.Env)
  {
    (forall op: OperatorKind :: Symbol(op) in env.operators.keys) &&
    (forall op: OperatorKind :: Symbol(op) in env.operators.entries && OperatorRegistry.Get(env.operators, Symbol(op)) == op) &&
    (forall f: FunctionKind :: Name(f) in env.functions.entries && FunctionRegistry.Get(env.functions, Name(f)) == f)
  }

  /** The registries `register()` builds are standard. */
  lemma StdEnvStandard(lib: Numerics.Libm)
    ensures Standard(StdEnv(lib))
  {
    ServiceProvider.DefaultOperatorsLookup(Addition, "+");
    forall op: OperatorKind
      ensures Symbol(op) in ServiceProvider.DefaultOperators().entries && OperatorRegistry.Get(ServiceProvider.DefaultOperators(), Symbol(op)) == op
    {
      ServiceProvider.DefaultOperatorsLookup(op, Symbol(op));
    }
    forall f: FunctionKind
      ensures Name(f) in ServiceProvider.DefaultFunctions().entries && FunctionRegistry.Get(ServiceProvider.DefaultFunctions(), Name(f)) == f
    {
      ServiceProvider.DefaultFunctionsLookup(f, Name(f));
    }
  }

  /** Tiers, loosest first: 0 addition, 1 multiplication, 2 power, 3 unary, 4 factor. */
  const FactorTier: nat := 4

  /** The tier at which a tree is written without parentheses. */
  function Home(e: Expr): nat
  {
    match e
    case Bin(op, _, _) => (match op case Addition => 0 case Subtraction => 0 case Power => 2 case _ => 1)
    case Neg(_) => 3
    case Pos(_) => 3
    case _ => 4
  }

  /** How many tier steps separate tier `t` from the home tier of `e`, going round through
      the parentheses of the factor tier. */
  function Dist(e: Expr, t: nat): nat
    requires t <= FactorTier
  {
    (Home(e) + 5 - t) % 5
  }

  function OperatorToken(sym: string): Token
  {
    Token(Operator, Text(sym))
  }

  const LeftParenToken := Token(LeftParen, Text("("))
  const RightParenToken := Token(RightParen, Text(")"))

  /** The tokens of `e` written at tier `t`. */
  function Render(e: Expr, t: nat): seq<Token>
    requires t <= FactorTier
    decreases e, Dist(e, t)
  {
    if Home(e) == t then
      match e
      case Num(x) => [Token(Number, Float(x))]
      case Call(f, a) => [Token(Function, Text(Name(f))), LeftParenToken] + Render(a, 0) + [RightParenToken]
      case Neg(a) => [OperatorToken("-")] + Render(a, 3)
      case Pos(a) => [OperatorToken("+")] + Render(a, 3)
      case Bin(op, l, r) =>
        if t == 0 then Render(l, 0) + [OperatorToken(Symbol(op))] + Render(r, 1)
        else if t == 1 then Render(l, 1) + [OperatorToken(Symbol(op))] + Render(r, 2)
        else Render(l, 3) + [OperatorToken(Symbol(op))] + Render(r, 2)
    else if t < FactorTier then Render(e, t + 1)
    else [LeftParenToken] + Render(e, 0) + [RightParenToken]
  }

  /** `R` occurs in `toks` at `pos`, token by token. */
  predicate At(toks: seq<Token>, pos: nat, R: seq<Token>): (b: bool)
    ensures b ==> pos + |R| <= |toks|
    decreases |R|
  {
    if R == [] then pos <= |toks| else pos < |toks| && toks[pos] == R[0] && At(toks, pos + 1, R[1..])
  }

  lemma {:induction false} AtConcat(toks: seq<Token>, pos: nat, A: seq<Token>, B: seq<Token>)
    requires At(toks, pos, A + B)
    ensures At(toks, pos, A) && At(toks, pos + |A|, B)
    decreases |A|
  {
    if A == [] {
      assert A + B == B;
    } else {
      assert (A + B)[0] == A[0] && (A + B)[1..] == A[1..] + B;
      AtConcat(toks, pos + 1, A[1..], B);
    }
  }

  lemma AtSingle(toks: seq<Token>, pos: nat, t: Token)
    requires At(toks, pos, [t])
    ensures pos < |toks| && toks[pos] == t
  {
  }

  /** The rest of a token list occurs in it where it starts. */
  lemma {:induction false} AtSuffix(toks: seq<Token>, pos: nat)
    requires pos <= |toks|
    ensures At(toks, pos, toks[pos..])
    decreases |toks| - pos
  {
    if pos < |toks| {
      assert toks[pos..][1..] == toks[pos + 1..];
      AtSuffix(toks, pos + 1);
    }
  }

  /** `A`, then the token `x`, then `B` occur at `pos`. */
  lemma AtSplit(toks: seq<Token>, pos: nat, A: seq<Token>, x: Token, B: seq<Token>)
    requires At(toks, pos, A + [x] + B)
    ensures At(toks, pos, A) && pos + |A| < |toks| && toks[pos + |A|] == x && At(toks, pos + |A| + 1, B)
  {
    AtConcat(toks, pos, A + [x], B);
    AtConcat(toks, pos, A, [x]);
    AtSingle(toks, pos + |A|, x);
  }

  /** The token `x`, then `B` occur at `pos`. */
  lemma AtHead(toks: seq<Token>, pos: nat, x: Token, B: seq<Token>)
    requires At(toks, pos, [x] + B)
    ensures pos < |toks| && toks[pos] == x && At(toks, pos + 1, B)
  {
    AtConcat(toks, pos, [x], B);
    AtSingle(toks, pos, x);
  }

  /** `B` enclosed by the tokens `H` and the token `x` occurs at `pos`. */
  lemma AtEnclosed(toks: seq<Token>, pos: nat, H: seq<Token>, B: seq<Token>, x: Token)
    requires At(toks, pos, H + B + [x])
    ensures At(toks, pos, H) && At(toks, pos + |H|, B) && pos + |H| + |B| < |toks| && toks[pos + |H| + |B|] == x
  {
    AtConcat(toks, pos, H + B, [x]);
    AtConcat(toks, pos, H, B);
    AtSingle(toks, pos + |H| + |B|, x);
  }

  /** The two tokens `x`, `y` occur at `pos`. */
  lemma AtPair(toks: seq<Token>, pos: nat, x: Token, y: Token)
    requires At(toks, pos, [x, y])
    ensures pos + 1 < |toks| && toks[pos] == x && toks[pos + 1] == y
  {
    assert [x, y][1..] == [y];
  }

  /** The value of a parse, placed at `end`. */
  function Lift(r: Result<real, ParseError>, end: nat): Result<Grammar.Parsed, ParseError>
  {
    if r.Ok? then Ok(Grammar.Parsed(r.value, end)) else Err(r.error)
  }

  /** Standard registries and a token list the tokenizer could have built. */
  ghost predicate Ready(env: Grammar.Env, toks: seq<Token>)
  {
    Standard(env) && Grammar.WellFormed(env, toks)
  }

  /** The precedence of the registered operator whose token is at `pos`, 0 when there is
      none. */
  function TierAt(env: Grammar.Env, toks: seq<Token>, pos: nat): int
  {
    if pos < |toks| && toks[pos].kind == Operator && toks[pos].value.Text? && toks[pos].value.s in env.operators.entries
    then Precedence(env.operators.entries[toks[pos].value.s])
    else 0
  }

  /** `AtTier` holds of a tier only when the token at `pos` stands at that tier. */
  lemma NotAtTier(env: Grammar.Env, toks: seq<Token>, pos: nat, p: int)
    requires TierAt(env, toks, pos) != p
    ensures !Grammar.AtTier(env, toks, pos, p)
  {
    if pos < |toks| && toks[pos].value.Text? {
      OperatorRegistry.TierMembers(env.operators, p, toks[pos].value.s);
    }
  }

  /** An operator's token stands at the operator's precedence, and `AtTier` sees it there. */
  lemma TierOfToken(env: Grammar.Env, toks: seq<Token>, pos: nat, op: OperatorKind)
    requires Standard(env) && pos < |toks| && toks[pos] == OperatorToken(Symbol(op))
    ensures TierAt(env, toks, pos) == Precedence(op) && Grammar.AtTier(env, toks, pos, Precedence(op))
  {
    OperatorRegistry.TierMembers(env.operators, Precedence(op), Symbol(op));
  }

  /** A rendering at the factor tier starts with a number, a function name or `(`. */
  lemma FactorStart(e: Expr)
    ensures |Render(e, 4)| > 0 && Render(e, 4)[0].kind != Operator
  {
  }

  /** One step of `parseFactor` on a number token. */
  lemma FactorNumber(env: Grammar.Env, toks: seq<Token>, pos: nat, x: real)
    requires Grammar.WellFormed(env, toks) && pos < |toks| && toks[pos] == Token(Number, Float(x))
    ensures Grammar.Factor(env, toks, pos) == Ok(Grammar.Parsed(x, pos + 1))
  {
  }

  /** One step of `parseFactor` on a group whose inside reads as `v` up to `close`. */
  lemma FactorGroup(env: Grammar.Env, toks: seq<Token>, pos: nat, v: Result<real, ParseError>, close: nat)
    requires Grammar.WellFormed(env, toks) && pos < |toks| && toks[pos] == LeftParenToken
    requires close < |toks| && toks[close] == RightParenToken
    requires Grammar.Expression(env, toks, pos + 1) == Lift(v, close)
    ensures Grammar.Factor(env, toks, pos) == Lift(v, close + 1)
  {
  }

  /** One step of `parseFactor` on a call whose argument reads as `v` up to `close`. */
  lemma FactorCall(env: Grammar.Env, toks: seq<Token>, pos: nat, f: FunctionKind, v: Result<real, ParseError>, close: nat)
    requires Ready(env, toks)
    requires pos + 1 < |toks| && toks[pos] == Token(Function, Text(Name(f))) && toks[pos + 1] == LeftParenToken
    requires close < |toks| && toks[close] == RightParenToken
    requires Grammar.Expression(env, toks, pos + 2) == Lift(v, close)
    ensures Grammar.Factor(env, toks, pos) == Lift(if v.Ok? then Functions.Apply(env.lib, f, v.value) else v, close + 1)
  {
    assert FunctionRegistry.Get(env.functions, Name(f)) == f;
  }

  /** One step of `parseUnary` on a minus sign. */
  lemma UnaryMinus(env: Grammar.Env, toks: seq<Token>, pos: nat, v: Result<real, ParseError>, end: nat)
    requires Grammar.WellFormed(env, toks) && pos < |toks| && toks[pos] == OperatorToken("-")
    requires Grammar.Unary(env, toks, pos + 1) == Lift(v, end)
    ensures Grammar.Unary(env, toks, pos) == Lift(if v.Ok? then Ok(-v.value) else v, end)
  {
  }

  /** One step of `parseUnary` on a plus sign: the sign is dropped. */
  lemma UnaryPlus(env: Grammar.Env, toks: seq<Token>, pos: nat, v: Result<real, ParseError>, end: nat)
    requires Grammar.WellFormed(env, toks) && pos < |toks| && toks[pos] == OperatorToken("+")
    requires Grammar.Unary(env, toks, pos + 1) == Lift(v, end)
    ensures Grammar.Unary(env, toks, pos) == Lift(v, end)
  {
  }

  /** `parseUnary` on anything but an operator is `parseFactor`. */
  lemma UnaryFactor(env: Grammar.Env, toks: seq<Token>, pos: nat)
    requires Grammar.WellFormed(env, toks) && pos < |toks| && toks[pos].kind != Operator
    ensures Grammar.Unary(env, toks, pos) == Grammar.Factor(env, toks, pos)
  {
  }

  /** `parsePower` with a base and a `^` exponent. */
  lemma PowerStep(env: Grammar.Env, toks: seq<Token>, pos: nat, a: Result<real, ParseError>, m: nat,
                  b: Result<real, ParseError>, end: nat)
    requires Ready(env, toks)
    requires m < |toks| && toks[m] == OperatorToken(Symbol(Power))
    requires Grammar.Unary(env, toks, pos) == Lift(a, m)
    requires Grammar.Power(env, toks, m + 1) == Lift(b, end)
    ensures Grammar.Power(env, toks, pos) == Lift(Combine(env.lib, Power, a, b), end)
  {
    TierOfToken(env, toks, m, Power);
  }

  /** `parsePower` with a base and no `^` after it. */
  lemma PowerBase(env: Grammar.Env, toks: seq<Token>, pos: nat, a: Result<real, ParseError>, end: nat)
    requires Ready(env, toks)
    requires Grammar.Unary(env, toks, pos) == Lift(a, end) && TierAt(env, toks, end) < 3
    ensures Grammar.Power(env, toks, pos) == Lift(a, end)
  {
    NotAtTier(env, toks, end, 3);
  }

  /** `parseMultiplication` hands its first operand to the loop. */
  lemma MultiplicationStart(env: Grammar.Env, toks: seq<Token>, pos: nat, a: Result<real, ParseError>, end: nat)
    requires Grammar.WellFormed(env, toks) && end <= |toks| && Grammar.Power(env, toks, pos) == Lift(a, end)
    ensures Grammar.Multiplication(env, toks, pos) ==
      if a.Err? then Err(a.error) else Grammar.MultiplicationLoop(env, toks, a.value, end)
  {
  }

  /** One turn of the loop of `parseMultiplication`. */
  lemma MultiplicationTurn(env: Grammar.Env, toks: seq<Token>, x: real, m: nat, op: OperatorKind,
                           b: Result<real, ParseError>, end: nat)
    requires Ready(env, toks) && Precedence(op) == 2
    requires m < |toks| && toks[m] == OperatorToken(Symbol(op))
    requires end <= |toks| && Grammar.Power(env, toks, m + 1) == Lift(b, end)
    ensures Grammar.MultiplicationLoop(env, toks, x, m) ==
      if b.Err? then Err(b.error)
      else
        var v := Operators.Apply(env.lib, op, x, b.value);
        if v.Err? then Err(v.error) else Grammar.MultiplicationLoop(env, toks, v.value, end)
  {
    TierOfToken(env, toks, m, op);
  }

  /** The loop of `parseMultiplication` stops before anything but a tier-2 operator. */
  lemma MultiplicationStop(env: Grammar.Env, toks: seq<Token>, x: real, m: nat)
    requires Ready(env, toks) && m <= |toks| && TierAt(env, toks, m) < 2
    ensures Grammar.MultiplicationLoop(env, toks, x, m) == Ok(Grammar.Parsed(x, m))
  {
    NotAtTier(env, toks, m, 2);
  }

  /** `parseAddition` hands its first operand to the loop. */
  lemma AdditionStart(env: Grammar.Env, toks: seq<Token>, pos: nat, a: Result<real, ParseError>, end: nat)
    requires Grammar.WellFormed(env, toks) && end <= |toks| && Grammar.Multiplication(env, toks, pos) == Lift(a, end)
    ensures Grammar.Addition(env, toks, pos) ==
      if a.Err? then Err(a.error) else Grammar.AdditionLoop(env, toks, a.value, end)
  {
  }

  /** One turn of the loop of `parseAddition`. */
  lemma AdditionTurn(env: Grammar.Env, toks: seq<Token>, x: real, m: nat, op: OperatorKind,
                     b: Result<real, ParseError>, end: nat)
    requires Ready(env, toks) && Precedence(op) == 1
    requires m < |toks| && toks[m] == OperatorToken(Symbol(op))
    requires end <= |toks| && Grammar.Multiplication(env, toks, m + 1) == Lift(b, end)
    ensures Grammar.AdditionLoop(env, toks, x, m) ==
      if b.Err? then Err(b.error)
      else
        var v := Operators.Apply(env.lib, op, x, b.value);
        if v.Err? then Err(v.error) else Grammar.AdditionLoop(env, toks, v.value, end)
  {
    TierOfToken(env, toks, m, op);
  }

  /** The loop of `parseAddition` stops before anything but a tier-1 operator. */
  lemma AdditionStop(env: Grammar.Env, toks: seq<Token>, x: real, m: nat)
    requires Ready(env, toks) && m <= |toks| && TierAt(env, toks, m) < 1
    ensures Grammar.AdditionLoop(env, toks, x, m) == Ok(Grammar.Parsed(x, m))
  {
    NotAtTier(env, toks, m, 1);
  }

  /** `parseMultiplication` from `pos` has read a first value `a` (or failed with its error)
      and its loop stands at `end`. */
  ghost predicate MultiplicationChained(env: Grammar.Env, toks: seq<Token>, pos: nat, a: Result<real, ParseError>, end: nat)
    requires Grammar.WellFormed(env, toks) && end <= |toks|
  {
    if a.Err? then Grammar.Multiplication(env, toks, pos) == Err(a.error)
    else Grammar.Multiplication(env, toks, pos) == Grammar.MultiplicationLoop(env, toks, a.value, end)
  }

  /** One more turn of the loop extends a chain by an operator and a power phrase. */
  lemma MultiplicationJoin(env: Grammar.Env, toks: seq<Token>, pos: nat, a: Result<real, ParseError>, m: nat,
                           op: OperatorKind, b: Result<real, ParseError>, end: nat)
    requires Ready(env, toks) && Precedence(op) == 2
    requires m < |toks| && toks[m] == OperatorToken(Symbol(op)) && MultiplicationChained(env, toks, pos, a, m)
    requires end <= |toks| && Grammar.Power(env, toks, m + 1) == Lift(b, end)
    ensures MultiplicationChained(env, toks, pos, Combine(env.lib, op, a, b), end)
  {
    if a.Ok? {
      MultiplicationTurn(env, toks, a.value, m, op, b, end);
    }
  }

  /** `parseAddition` from `pos` has read a first value `a` (or failed with its error) and
      its loop stands at `end`. */
  ghost predicate AdditionChained(env: Grammar.Env, toks: seq<Token>, pos: nat, a: Result<real, ParseError>, end: nat)
    requires Grammar.WellFormed(env, toks) && end <= |toks|
  {
    if a.Err? then Grammar.Addition(env, toks, pos) == Err(a.error)
    else Grammar.Addition(env, toks, pos) == Grammar.AdditionLoop(env, toks, a.value, end)
  }

  /** One more turn of the loop extends a chain by an operator and a multiplicative phrase. */
  lemma AdditionJoin(env: Grammar.Env, toks: seq<Token>, pos: nat, a: Result<real, ParseError>, m: nat,
                     op: OperatorKind, b: Result<real, ParseError>, end: nat)
    requires Ready(env, toks) && Precedence(op) == 1
    requires m < |toks| && toks[m] == OperatorToken(Symbol(op)) && AdditionChained(env, toks, pos, a, m)
    requires end <= |toks| && Grammar.Multiplication(env, toks, m + 1) == Lift(b, end)
    ensures AdditionChained(env, toks, pos, Combine(env.lib, op, a, b), end)
  {
    if a.Ok? {
      AdditionTurn(env, toks, a.value, m, op, b, end);
    }
  }

  /** The tiers at which the left and right operands of a tree at home at tier `t` are
      rendered. */
  function LeftTier(t: nat): nat
  {
    if t == 2 then 3 else t
  }

  function RightTier(t: nat): nat
  {
    if t == 0 then 1 else 2
  }

  /** The rendering of a binary tree at its home tier. */
  lemma RenderBin(e: Expr, t: nat)
    requires e.Bin? && t <= FactorTier && Home(e) == t
    ensures Render(e, t) == Render(e.left, LeftTier(t)) + [OperatorToken(Symbol(e.op))] + Render(e.right, RightTier(t))
  {
  }

  /** Where the operands and the operator of a binary tree at its home tier lie. */
  lemma BinAt(env: Grammar.Env, toks: seq<Token>, pos: nat, e: Expr, t: nat)
    requires Standard(env) && e.Bin? && t <= 2 && Home(e) == t && At(toks, pos, Render(e, t))
    ensures At(toks, pos, Render(e.left, LeftTier(t)))
    ensures pos + |Render(e.left, LeftTier(t))| < |toks|
    ensures toks[pos + |Render(e.left, LeftTier(t))|] == OperatorToken(Symbol(e.op))
    ensures TierAt(env, toks, pos + |Render(e.left, LeftTier(t))|) == Precedence(e.op)
    ensures At(toks, pos + |Render(e.left, LeftTier(t))| + 1, Render(e.right, RightTier(t)))
    ensures pos + |Render(e.left, LeftTier(t))| + 1 + |Render(e.right, RightTier(t))| == pos + |Render(e, t)|
  {
    BinSplit(toks, pos, e, t);
    assert OperatorRegistry.Get(env.operators, Symbol(e.op)) == e.op;
  }

  lemma BinSplit(toks: seq<Token>, pos: nat, e: Expr, t: nat)
    requires e.Bin? && t <= 2 && Home(e) == t && At(toks, pos, Render(e, t))
    ensures At(toks, pos, Render(e.left, LeftTier(t)))
    ensures pos + |Render(e.left, LeftTier(t))| < |toks|
    ensures toks[pos + |Render(e.left, LeftTier(t))|] == OperatorToken(Symbol(e.op))
    ensures At(toks, pos + |Render(e.left, LeftTier(t))| + 1, Render(e.right, RightTier(t)))
    ensures pos + |Render(e.left, LeftTier(t))| + 1 + |Render(e.right, RightTier(t))| == pos + |Render(e, t)|
  {
    var l := Render(e.left, LeftTier(t));
    var r := Render(e.right, RightTier(t));
    RenderBin(e, t);
    AtSplit(toks, pos, l, OperatorToken(Symbol(e.op)), r);
  }

  /** Away from its home tier a tree is rendered as at the next tier, or in parentheses. */
  lemma RenderAway(e: Expr, t: nat)
    requires t <= FactorTier && Home(e) != t
    ensures t < FactorTier ==> Render(e, t) == Render(e, t + 1)
    ensures t == FactorTier ==> Render(e, t) == [LeftParenToken] + Render(e, 0) + [RightParenToken]
  {
  }

  /** `parseFactor` reads back a tree rendered at the factor tier. */
  lemma {:induction false} ParsesAsFactor(env: Grammar.Env, toks: seq<Token>, pos: nat, e: Expr)
    requires Ready(env, toks) && At(toks, pos, Render(e, 4))
    ensures Grammar.Factor(env, toks, pos) == Lift(Eval(env.lib, e), pos + |Render(e, 4)|)
    decreases e, Dist(e, 4), 1
  {
    if e.Num? {
      assert Render(e, 4) == [Token(Number, Float(e.x))] + [];
      AtHead(toks, pos, Token(Number, Float(e.x)), []);
      FactorNumber(env, toks, pos, e.x);
    } else if e.Call? {
      ParsesAsCall(env, toks, pos, e);
    } else {
      ParsesAsGroup(env, toks, pos, e);
    }
  }

  /** A function call is read back by `parseFactor`. */
  lemma {:induction false} ParsesAsCall(env: Grammar.Env, toks: seq<Token>, pos: nat, e: Expr)
    requires Ready(env, toks) && At(toks, pos, Render(e, 4)) && e.Call?
    ensures Grammar.Factor(env, toks, pos) == Lift(Eval(env.lib, e), pos + |Render(e, 4)|)
    decreases e, Dist(e, 4), 0
  {
    var head := [Token(Function, Text(Name(e.f))), LeftParenToken];
    var inner := Render(e.arg, 0);
    assert Render(e, 4) == head + inner + [RightParenToken];
    AtEnclosed(toks, pos, head, inner, RightParenToken);
    AtPair(toks, pos, head[0], head[1]);
    ParsesAsAddition(env, toks, pos + 2, e.arg);
    FactorCall(env, toks, pos, e.f, Eval(env.lib, e.arg), pos + 2 + |inner|);
  }

  /** A tree of a looser tier is read back by `parseFactor` from its parentheses. */
  lemma {:induction false} ParsesAsGroup(env: Grammar.Env, toks: seq<Token>, pos: nat, e: Expr)
    requires Ready(env, toks) && At(toks, pos, Render(e, 4)) && Home(e) != FactorTier
    ensures Grammar.Factor(env, toks, pos) == Lift(Eval(env.lib, e), pos + |Render(e, 4)|)
    decreases e, Dist(e, 4), 0
  {
    var inner := Render(e, 0);
    RenderAway(e, 4);
    AtEnclosed(toks, pos, [LeftParenToken], inner, RightParenToken);
    AtHead(toks, pos, LeftParenToken, []);
    ParsesAsAddition(env, toks, pos + 1, e);
    FactorGroup(env, toks, pos, Eval(env.lib, e), pos + 1 + |inner|);
  }

  /** `parseUnary` reads back a tree rendered at the unary tier. */
  lemma {:induction false} ParsesAsUnary(env: Grammar.Env, toks: seq<Token>, pos: nat, e: Expr)
    requires Ready(env, toks) && At(toks, pos, Render(e, 3))
    ensures Grammar.Unary(env, toks, pos) == Lift(Eval(env.lib, e), pos + |Render(e, 3)|)
    decreases e, Dist(e, 3), 1
  {
    if e.Neg? {
      ParsesAsNegation(env, toks, pos, e);
    } else if e.Pos? {
      ParsesAsPlus(env, toks, pos, e);
    } else {
      RenderAway(e, 3);
      FactorStart(e);
      AtHead(toks, pos, Render(e, 4)[0], Render(e, 4)[1..]);
      ParsesAsFactor(env, toks, pos, e);
      UnaryFactor(env, toks, pos);
    }
  }

  /** A negation is read back by `parseUnary`. */
  lemma {:induction false} ParsesAsNegation(env: Grammar.Env, toks: seq<Token>, pos: nat, e: Expr)
    requires Ready(env, toks) && At(toks, pos, Render(e, 3)) && e.Neg?
    ensures Grammar.Unary(env, toks, pos) == Lift(Eval(env.lib, e), pos + |Render(e, 3)|)
    decreases e, Dist(e, 3), 0
  {
    assert Render(e, 3) == [OperatorToken("-")] + Render(e.operand, 3);
    AtHead(toks, pos, OperatorToken("-"), Render(e.operand, 3));
    ParsesAsUnary(env, toks, pos + 1, e.operand);
    UnaryMinus(env, toks, pos, Eval(env.lib, e.operand), pos + |Render(e, 3)|);
  }

  /** A leading `+` is read back by `parseUnary` as the value of its operand. */
  lemma {:induction false} ParsesAsPlus(env: Grammar.Env, toks: seq<Token>, pos: nat, e: Expr)
    requires Ready(env, toks) && At(toks, pos, Render(e, 3)) && e.Pos?
    ensures Grammar.Unary(env, toks, pos) == Lift(Eval(env.lib, e), pos + |Render(e, 3)|)
    decreases e, Dist(e, 3), 0
  {
    assert Render(e, 3) == [OperatorToken("+")] + Render(e.operand, 3);
    AtHead(toks, pos, OperatorToken("+"), Render(e.operand, 3));
    ParsesAsUnary(env, toks, pos + 1, e.operand);
    UnaryPlus(env, toks, pos, Eval(env.lib, e.operand), pos + |Render(e, 3)|);
  }

  /** `parsePower` reads back a tree rendered at the power tier, when no `^` follows. */
  lemma {:induction false} ParsesAsPower(env: Grammar.Env, toks: seq<Token>, pos: nat, e: Expr)
    requires Ready(env, toks) && At(toks, pos, Render(e, 2))
    requires TierAt(env, toks, pos + |Render(e, 2)|) < 3
    ensures Grammar.Power(env, toks, pos) == Lift(Eval(env.lib, e), pos + |Render(e, 2)|)
    decreases e, Dist(e, 2), 1
  {
    if Home(e) == 2 {
      ParsesAsExponentiation(env, toks, pos, e);
    } else {
      RenderAway(e, 2);
      ParsesAsUnary(env, toks, pos, e);
      PowerBase(env, toks, pos, Eval(env.lib, e), pos + |Render(e, 2)|);
    }
  }

  /** A `^` is read back by `parsePower`, its exponent by the recursive call. */
  lemma {:induction false} ParsesAsExponentiation(env: Grammar.Env, toks: seq<Token>, pos: nat, e: Expr)
    requires Ready(env, toks) && At(toks, pos, Render(e, 2)) && Home(e) == 2
    requires TierAt(env, toks, pos + |Render(e, 2)|) < 3
    ensures Grammar.Power(env, toks, pos) == Lift(Eval(env.lib, e), pos + |Render(e, 2)|)
    decreases e, Dist(e, 2), 0
  {
    BinAt(env, toks, pos, e, 2);
    var m, end := pos + |Render(e.left, 3)|, pos + |Render(e, 2)|;
    assert e.op == Power && m + 1 + |Render(e.right, 2)| == end;
    ParsesAsUnary(env, toks, pos, e.left);
    ParsesAsPower(env, toks, m + 1, e.right);
    PowerStep(env, toks, pos, Eval(env.lib, e.left), m, Eval(env.lib, e.right), end);
    EvalBin(env.lib, e);
  }

  /** `parseMultiplication` up to its loop: a tree rendered at the multiplication tier is read
      and the loop goes on from the end of the rendering. */
  lemma {:induction false} MultiplicationChain(env: Grammar.Env, toks: seq<Token>, pos: nat, e: Expr)
    requires Ready(env, toks) && At(toks, pos, Render(e, 1))
    requires TierAt(env, toks, pos + |Render(e, 1)|) < 3
    ensures pos + |Render(e, 1)| <= |toks| && MultiplicationChained(env, toks, pos, Eval(env.lib, e), pos + |Render(e, 1)|)
    decreases e, Dist(e, 1), 1
  {
    if Home(e) == 1 {
      MultiplicationLink(env, toks, pos, e);
    } else {
      RenderAway(e, 1);
      ParsesAsPower(env, toks, pos, e);
      MultiplicationStart(env, toks, pos, Eval(env.lib, e), pos + |Render(e, 1)|);
    }
  }

  /** One more `* / %` link of a left-leaning chain. */
  lemma {:induction false} MultiplicationLink(env: Grammar.Env, toks: seq<Token>, pos: nat, e: Expr)
    requires Ready(env, toks) && At(toks, pos, Render(e, 1)) && Home(e) == 1
    requires TierAt(env, toks, pos + |Render(e, 1)|) < 3
    ensures pos + |Render(e, 1)| <= |toks| && MultiplicationChained(env, toks, pos, Eval(env.lib, e), pos + |Render(e, 1)|)
    decreases e, Dist(e, 1), 0
  {
    BinAt(env, toks, pos, e, 1);
    var m, end := pos + |Render(e.left, 1)|, pos + |Render(e, 1)|;
    assert Precedence(e.op) == 2 && m + 1 + |Render(e.right, 2)| == end;
    MultiplicationChain(env, toks, pos, e.left);
    ParsesAsPower(env, toks, m + 1, e.right);
    MultiplicationJoin(env, toks, pos, Eval(env.lib, e.left), m, e.op, Eval(env.lib, e.right), end);
    EvalBin(env.lib, e);
  }

  /** `parseMultiplication` reads back a tree rendered at its tier, when no operator of
      precedence 2 or 3 follows. */
  lemma {:induction false} ParsesAsMultiplication(env: Grammar.Env, toks: seq<Token>, pos: nat, e: Expr)
    requires Ready(env, toks) && At(toks, pos, Render(e, 1))
    requires TierAt(env, toks, pos + |Render(e, 1)|) < 2
    ensures Grammar.Multiplication(env, toks, pos) == Lift(Eval(env.lib, e), pos + |Render(e, 1)|)
    decreases e, Dist(e, 1), 2
  {
    MultiplicationChain(env, toks, pos, e);
    if Eval(env.lib, e).Ok? {
      MultiplicationStop(env, toks, Eval(env.lib, e).value, pos + |Render(e, 1)|);
    }
  }

  /** `parseAddition` up to its loop. */
  lemma {:induction false} AdditionChain(env: Grammar.Env, toks: seq<Token>, pos: nat, e: Expr)
    requires Ready(env, toks) && At(toks, pos, Render(e, 0))
    requires TierAt(env, toks, pos + |Render(e, 0)|) < 2
    ensures pos + |Render(e, 0)| <= |toks| && AdditionChained(env, toks, pos, Eval(env.lib, e), pos + |Render(e, 0)|)
    decreases e, Dist(e, 0), 1
  {
    if Home(e) == 0 {
      AdditionLink(env, toks, pos, e);
    } else {
      RenderAway(e, 0);
      ParsesAsMultiplication(env, toks, pos, e);
      AdditionStart(env, toks, pos, Eval(env.lib, e), pos + |Render(e, 0)|);
    }
  }

  /** One more `+ -` link of a left-leaning chain. */
  lemma {:induction false} AdditionLink(env: Grammar.Env, toks: seq<Token>, pos: nat, e: Expr)
    requires Ready(env, toks) && At(toks, pos, Render(e, 0)) && Home(e) == 0
    requires TierAt(env, toks, pos + |Render(e, 0)|) < 2
    ensures pos + |Render(e, 0)| <= |toks| && AdditionChained(env, toks, pos, Eval(env.lib, e), pos + |Render(e, 0)|)
    decreases e, Dist(e, 0), 0
  {
    BinAt(env, toks, pos, e, 0);
    var m, end := pos + |Render(e.left, 0)|, pos + |Render(e, 0)|;
    assert Precedence(e.op) == 1 && m + 1 + |Render(e.right, 1)| == end;
    AdditionChain(env, toks, pos, e.left);
    ParsesAsMultiplication(env, toks, m + 1, e.right);
    AdditionJoin(env, toks, pos, Eval(env.lib, e.left), m, e.op, Eval(env.lib, e.right), end);
    EvalBin(env.lib, e);
  }

  /** `parseAddition` reads back a tree rendered at its tier, when no operator follows. */
  lemma {:induction false} ParsesAsAddition(env: Grammar.Env, toks: seq<Token>, pos: nat, e: Expr)
    requires Ready(env, toks) && At(toks, pos, Render(e, 0))
    requires TierAt(env, toks, pos + |Render(e, 0)|) < 1
    ensures Grammar.Addition(env, toks, pos) == Lift(Eval(env.lib, e), pos + |Render(e, 0)|)
    decreases e, Dist(e, 0), 2
  {
    AdditionChain(env, toks, pos, e);
    if Eval(env.lib, e).Ok? {
      AdditionStop(env, toks, Eval(env.lib, e).value, pos + |Render(e, 0)|);
    }
  }

  /** Every rendered token is one the tokenizer could have built. */
  lemma {:induction false} RenderWellFormed(env: Grammar.Env, e: Expr, t: nat)
    requires Standard(env) && t <= FactorTier && Unsigned(e)
    ensures Grammar.WellFormed(env, Render(e, t))
    decreases e, Dist(e, t)
  {
    if Home(e) == t {
      match e
      case Num(x) =>
        assert Render(e, t) == [Token(Number, Float(x))];
      case Call(f, a) =>
        RenderWellFormed(env, a, 0);
        CallWellFormed(env, e, t);
      case Neg(a) =>
        RenderWellFormed(env, a, 3);
        NegWellFormed(env, e, t);
      case Pos(a) =>
        RenderWellFormed(env, a, 3);
        PosWellFormed(env, e, t);
      case Bin(op, l, r) =>
        RenderWellFormed(env, l, LeftTier(t));
        RenderWellFormed(env, r, RightTier(t));
        RenderBin(e, t);
        WellFormedBin(env, op, Render(l, LeftTier(t)), Render(r, RightTier(t)));
    } else if t < FactorTier {
      RenderAway(e, t);
      RenderWellFormed(env, e, t + 1);
    } else {
      RenderAway(e, t);
      RenderWellFormed(env, e, 0);
      WellFormedAround(env, [LeftParenToken], Render(e, 0));
    }
  }

  lemma CallWellFormed(env: Grammar.Env, e: Expr, t: nat)
    requires Standard(env) && e.Call? && t <= FactorTier && Home(e) == t
    requires Grammar.WellFormed(env, Render(e.arg, 0))
    ensures Grammar.WellFormed(env, Render(e, t))
  {
    var head := [Token(Function, Text(Name(e.f))), LeftParenToken];
    assert Render(e, t) == head + Render(e.arg, 0) + [RightParenToken];
    WellFormedAround(env, head, Render(e.arg, 0));
  }

  lemma NegWellFormed(env: Grammar.Env, e: Expr, t: nat)
    requires Standard(env) && e.Neg? && t <= FactorTier && Home(e) == t
    requires Grammar.WellFormed(env, Render(e.operand, 3))
    ensures Grammar.WellFormed(env, Render(e, t))
  {
    assert Render(e, t) == [OperatorToken(Symbol(Subtraction))] + Render(e.operand, 3);
    WellFormedJoin(env, [OperatorToken(Symbol(Subtraction))], Render(e.operand, 3));
  }

  lemma PosWellFormed(env: Grammar.Env, e: Expr, t: nat)
    requires Standard(env) && e.Pos? && t <= FactorTier && Home(e) == t
    requires Grammar.WellFormed(env, Render(e.operand, 3))
    ensures Grammar.WellFormed(env, Render(e, t))
  {
    assert Render(e, t) == [OperatorToken(Symbol(Addition))] + Render(e.operand, 3);
    WellFormedJoin(env, [OperatorToken(Symbol(Addition))], Render(e.operand, 3));
  }

  /** Well-formed token lists concatenate to a well-formed list. */
  lemma WellFormedJoin(env: Grammar.Env, A: seq<Token>, B: seq<Token>)
    requires Standard(env) && Grammar.WellFormed(env, A) && Grammar.WellFormed(env, B)
    ensures Grammar.WellFormed(env, A + B)
  {
  }

  /** A well-formed list after an opening head and before `)` stays well formed. */
  lemma WellFormedAround(env: Grammar.Env, H: seq<Token>, B: seq<Token>)
    requires Standard(env) && Grammar.WellFormed(env, H) && Grammar.WellFormed(env, B)
    ensures Grammar.WellFormed(env, H + B + [RightParenToken])
  {
    WellFormedJoin(env, H, B);
    WellFormedJoin(env, H + B, [RightParenToken]);
  }

  /** Two well-formed operands around an operator's token form a well-formed list. */
  lemma WellFormedBin(env: Grammar.Env, op: OperatorKind, A: seq<Token>, B: seq<Token>)
    requires Standard(env) && Grammar.WellFormed(env, A) && Grammar.WellFormed(env, B)
    ensures Grammar.WellFormed(env, A + [OperatorToken(Symbol(op))] + B)
  {
    SymbolIsOneChar(op);
    WellFormedJoin(env, A, [OperatorToken(Symbol(op))]);
    WellFormedJoin(env, A + [OperatorToken(Symbol(op))], B);
  }

  lemma SymbolIsOneChar(op: OperatorKind)
    ensures |Symbol(op)| == 1
  {
  }

  /** Parsing the rendering of a tree gives the tree's value, or the same error. */
  lemma ParseRenderIn(env: Grammar.Env, e: Expr)
    requires Standard(env) && Unsigned(e)
    ensures Grammar.WellFormed(env, Render(e, 0))
    ensures Grammar.ParseTokens(env, Render(e, 0)) == Eval(env.lib, e)
  {
    var toks := Render(e, 0);
    RenderWellFormed(env, e, 0);
    AtSuffix(toks, 0);
    ParsesAsAddition(env, toks, 0, e);
  }

  /** The same with the registries `register()` builds. */
  lemma ParseRender(lib: Numerics.Libm, e: Expr)
    requires Unsigned(e)
    ensures Grammar.WellFormed(StdEnv(lib), Render(e, 0))
    ensures Grammar.ParseTokens(StdEnv(lib), Render(e, 0)) == Eval(lib, e)
  {
    StdEnvStandard(lib);
    ParseRenderIn(StdEnv(lib), e);
  }
}
