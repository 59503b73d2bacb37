/** The calculations the parser's test suites pin down, worked out on the model: each lemma
    follows one input text through normalisation, the tokenizer and the recursive descent
    with the registries `register()` builds. The maths library is a parameter, so where a
    result goes through `pow` or `sqrt` the lemma assumes the value the library gives. */
module Cases {
  import opened Wrappers
  import opened TokenTypes
  import opened Tokens
  import opened ParseErrors
  import opened Operators
  import opened Functions
  import Numerics
  import Normalize
  import Lexer
  import Grammar
  import Reference
  import ServiceProvider
  import CaseTexts
  import opened CaseTokens

  /** The registered operator symbols, in registration order. */
  const Symbols: seq<string> := ["+", "-", "*", "/", "%", "^"]

  /** The tokenizer with the registered symbols and functions, from index `i` on. */
  function ScanStd(s: string, i: nat): Result<seq<Token>, ParseError>
    requires i <= |s|
  {
    Lexer.Scan(Symbols, ServiceProvider.DefaultFunctions(), s, i)
  }

  /** The evaluator with the registered operators and functions. */
  function StdParse(lib: Numerics.Libm, text: string): Result<real, ParseError>
  {
    Grammar.Parse(Reference.StdEnv(lib), text)
  }

  /** A text is evaluated through its tokens. */
  lemma ParseViaTokens(lib: Numerics.Libm, text: string, toks: seq<Token>)
    requires ScanStd(Normalize.Normalize(text), 0) == Ok(toks)
    ensures Grammar.WellFormed(Reference.StdEnv(lib), toks)
    ensures StdParse(lib, text) == Grammar.ParseTokens(Reference.StdEnv(lib), toks)
  {
    ServiceProvider.DefaultOperatorsContents();
    Lexer.ScanWellFormed(Symbols, ServiceProvider.DefaultFunctions(), Normalize.Normalize(text), 0);
  }

  /** A text whose tokens are the rendering of a tree evaluates to the tree's value. */
  lemma ParseViaTree(lib: Numerics.Libm, text: string, e: Reference.Expr, toks: seq<Token>)
    requires Reference.Unsigned(e) && Reference.Render(e, 0) == toks
    requires ScanStd(Normalize.Normalize(text), 0) == Ok(toks)
    ensures StdParse(lib, text) == Reference.Eval(lib, e)
  {
    ParseViaTokens(lib, text, toks);
    Reference.ParseRender(lib, e);
  }

  /** A text the tokenizer rejects is rejected with the tokenizer's error. */
  lemma ParseViaScanError(lib: Numerics.Libm, text: string, err: ParseError)
    requires ScanStd(Normalize.Normalize(text), 0) == Err(err)
    ensures StdParse(lib, text) == Err(err)
  {
    ServiceProvider.DefaultOperatorsContents();
  }

  /** When the first factor fails, the whole evaluation fails with its error. */
  lemma FirstFactorFails(env: Grammar.Env, toks: seq<Token>, err: ParseError)
    requires Grammar.WellFormed(env, toks) && (toks == [] || toks[0].kind != Operator)
    requires Grammar.Factor(env, toks, 0) == Err(err)
    ensures Grammar.ParseTokens(env, toks) == Err(err)
  {
    assert Grammar.Unary(env, toks, 0) == Err(err);
    assert Grammar.Power(env, toks, 0) == Err(err);
    assert Grammar.Multiplication(env, toks, 0) == Err(err);
    assert Grammar.Addition(env, toks, 0) == Err(err);
  }

  // Values, precedence and associativity.

  lemma AddCaseTokens(s: string)
    requires s == "5+3"
    ensures ScanStd(s, 0) == Ok([Num(5.0), Op("+"), Num(3.0)])
  {
    CaseTokens.AddScan(Symbols, ServiceProvider.DefaultFunctions(), s);
  }

  lemma AddCaseTree(lib: Numerics.Libm)
    ensures Reference.Render(Reference.Bin(Addition, Reference.Num(5.0), Reference.Num(3.0)), 0) == [Num(5.0), Op("+"), Num(3.0)]
    ensures Reference.Eval(lib, Reference.Bin(Addition, Reference.Num(5.0), Reference.Num(3.0))) == Ok(8.0)
  {
  }

  /** `5 + 3 = 8`. */
  lemma AddCase(lib: Numerics.Libm)
    ensures StdParse(lib, "5 + 3") == Ok(8.0)
  {
    CaseTexts.AddCaseText("5 + 3");
    AddCaseTokens("5+3");
    AddCaseTree(lib);
    ParseViaTree(lib, "5 + 3", Reference.Bin(Addition, Reference.Num(5.0), Reference.Num(3.0)), [Num(5.0), Op("+"), Num(3.0)]);
  }

  lemma SubtractCaseTokens(s: string)
    requires s == "5-3"
    ensures ScanStd(s, 0) == Ok([Num(5.0), Op("-"), Num(3.0)])
  {
    CaseTokens.SubtractScan(Symbols, ServiceProvider.DefaultFunctions(), s);
  }

  lemma SubtractCaseTree(lib: Numerics.Libm)
    ensures Reference.Render(Reference.Bin(Subtraction, Reference.Num(5.0), Reference.Num(3.0)), 0) == [Num(5.0), Op("-"), Num(3.0)]
    ensures Reference.Eval(lib, Reference.Bin(Subtraction, Reference.Num(5.0), Reference.Num(3.0))) == Ok(2.0)
  {
  }

  /** `5 - 3 = 2`. */
  lemma SubtractCase(lib: Numerics.Libm)
    ensures StdParse(lib, "5 - 3") == Ok(2.0)
  {
    CaseTexts.SubtractCaseText("5 - 3");
    SubtractCaseTokens("5-3");
    SubtractCaseTree(lib);
    ParseViaTree(lib, "5 - 3", Reference.Bin(Subtraction, Reference.Num(5.0), Reference.Num(3.0)), [Num(5.0), Op("-"), Num(3.0)]);
  }

  lemma MultiplyCaseTokens(s: string)
    requires s == "5*3"
    ensures ScanStd(s, 0) == Ok([Num(5.0), Op("*"), Num(3.0)])
  {
    CaseTokens.MultiplyScan(Symbols, ServiceProvider.DefaultFunctions(), s);
  }

  lemma MultiplyCaseTree(lib: Numerics.Libm)
    ensures Reference.Render(Reference.Bin(Multiplication, Reference.Num(5.0), Reference.Num(3.0)), 0) == [Num(5.0), Op("*"), Num(3.0)]
    ensures Reference.Eval(lib, Reference.Bin(Multiplication, Reference.Num(5.0), Reference.Num(3.0))) == Ok(15.0)
  {
  }

  /** `5 * 3 = 15`. */
  lemma MultiplyCase(lib: Numerics.Libm)
    ensures StdParse(lib, "5 * 3") == Ok(15.0)
  {
    CaseTexts.MultiplyCaseText("5 * 3");
    MultiplyCaseTokens("5*3");
    MultiplyCaseTree(lib);
    ParseViaTree(lib, "5 * 3", Reference.Bin(Multiplication, Reference.Num(5.0), Reference.Num(3.0)), [Num(5.0), Op("*"), Num(3.0)]);
  }

  lemma DivideCaseTokens(s: string)
    requires s == "6/3"
    ensures ScanStd(s, 0) == Ok([Num(6.0), Op("/"), Num(3.0)])
  {
    CaseTokens.DivideScan(Symbols, ServiceProvider.DefaultFunctions(), s);
  }

  lemma DivideCaseTree(lib: Numerics.Libm)
    ensures Reference.Render(Reference.Bin(Division, Reference.Num(6.0), Reference.Num(3.0)), 0) == [Num(6.0), Op("/"), Num(3.0)]
    ensures Reference.Eval(lib, Reference.Bin(Division, Reference.Num(6.0), Reference.Num(3.0))) == Ok(2.0)
  {
  }

  /** `6 / 3 = 2`. */
  lemma DivideCase(lib: Numerics.Libm)
    ensures StdParse(lib, "6 / 3") == Ok(2.0)
  {
    CaseTexts.DivideCaseText("6 / 3");
    DivideCaseTokens("6/3");
    DivideCaseTree(lib);
    ParseViaTree(lib, "6 / 3", Reference.Bin(Division, Reference.Num(6.0), Reference.Num(3.0)), [Num(6.0), Op("/"), Num(3.0)]);
  }

  lemma RemainderCaseTokens(s: string)
    requires s == "10%3"
    ensures ScanStd(s, 0) == Ok([Num(10.0), Op("%"), Num(3.0)])
  {
    CaseTokens.RemainderScan(Symbols, ServiceProvider.DefaultFunctions(), s);
  }

  lemma RemainderCaseTree(lib: Numerics.Libm)
    ensures Reference.Render(Reference.Bin(Modulo, Reference.Num(10.0), Reference.Num(3.0)), 0) == [Num(10.0), Op("%"), Num(3.0)]
    ensures Reference.Eval(lib, Reference.Bin(Modulo, Reference.Num(10.0), Reference.Num(3.0))) == Ok(1.0)
  {
    assert Reference.Eval(lib, Reference.Num(10.0)) == Ok(10.0);
  }

  /** `10 % 3 = 1`: the remainder of `fmod`. */
  lemma RemainderCase(lib: Numerics.Libm)
    ensures StdParse(lib, "10 % 3") == Ok(1.0)
  {
    CaseTexts.RemainderCaseText("10 % 3");
    RemainderCaseTokens("10%3");
    RemainderCaseTree(lib);
    ParseViaTree(lib, "10 % 3", Reference.Bin(Modulo, Reference.Num(10.0), Reference.Num(3.0)), [Num(10.0), Op("%"), Num(3.0)]);
  }

  lemma DecimalCaseTokens(s: string)
    requires s == "5.5+2"
    ensures ScanStd(s, 0) == Ok([Num(5.5), Op("+"), Num(2.0)])
  {
    CaseTokens.DecimalScan(Symbols, ServiceProvider.DefaultFunctions(), s);
  }

  lemma DecimalCaseTree(lib: Numerics.Libm)
    ensures Reference.Render(Reference.Bin(Addition, Reference.Num(5.5), Reference.Num(2.0)), 0) == [Num(5.5), Op("+"), Num(2.0)]
    ensures Reference.Eval(lib, Reference.Bin(Addition, Reference.Num(5.5), Reference.Num(2.0))) == Ok(7.5)
  {
  }

  /** `5.5 + 2 = 7.5`: a literal with a point keeps its fraction. */
  lemma DecimalCase(lib: Numerics.Libm)
    ensures StdParse(lib, "5.5 + 2") == Ok(7.5)
  {
    CaseTexts.DecimalCaseText("5.5 + 2");
    DecimalCaseTokens("5.5+2");
    DecimalCaseTree(lib);
    ParseViaTree(lib, "5.5 + 2", Reference.Bin(Addition, Reference.Num(5.5), Reference.Num(2.0)), [Num(5.5), Op("+"), Num(2.0)]);
  }

  lemma PrecedenceCaseTokens(s: string)
    requires s == "5+3*2"
    ensures ScanStd(s, 0) == Ok([Num(5.0), Op("+"), Num(3.0), Op("*"), Num(2.0)])
  {
    CaseTokens.PrecedenceScan(Symbols, ServiceProvider.DefaultFunctions(), s);
  }

  lemma PrecedenceCaseTree(lib: Numerics.Libm)
    ensures Reference.Render(Reference.Bin(Addition, Reference.Num(5.0), Reference.Bin(Multiplication, Reference.Num(3.0), Reference.Num(2.0))), 0) == [Num(5.0), Op("+"), Num(3.0), Op("*"), Num(2.0)]
    ensures Reference.Eval(lib, Reference.Bin(Addition, Reference.Num(5.0), Reference.Bin(Multiplication, Reference.Num(3.0), Reference.Num(2.0)))) == Ok(11.0)
  {
    assert Reference.Eval(lib, Reference.Num(5.0)) == Ok(5.0);
    assert Reference.Eval(lib, Reference.Bin(Multiplication, Reference.Num(3.0), Reference.Num(2.0))) == Ok(6.0);
  }

  /** `5 + 3 * 2 = 11`: `*` binds tighter than `+`. */
  lemma PrecedenceCase(lib: Numerics.Libm)
    ensures StdParse(lib, "5 + 3 * 2") == Ok(11.0)
  {
    var e := Reference.Bin(Addition, Reference.Num(5.0), Reference.Bin(Multiplication, Reference.Num(3.0), Reference.Num(2.0)));
    var toks := [Num(5.0), Op("+"), Num(3.0), Op("*"), Num(2.0)];
    assert Reference.Unsigned(e);
    assert Reference.Render(e, 0) == toks && Reference.Eval(lib, e) == Ok(11.0) by { PrecedenceCaseTree(lib); }
    assert ScanStd(Normalize.Normalize("5 + 3 * 2"), 0) == Ok(toks) by {
      CaseTexts.PrecedenceCaseText("5 + 3 * 2");
      PrecedenceCaseTokens("5+3*2");
    }
    ParseViaTree(lib, "5 + 3 * 2", e, toks);
  }

  lemma GroupingCaseTokens(s: string)
    requires s == "(5+3)*2"
    ensures ScanStd(s, 0) == Ok([LParen, Num(5.0), Op("+"), Num(3.0), RParen, Op("*"), Num(2.0)])
  {
    CaseTokens.GroupingScan(Symbols, ServiceProvider.DefaultFunctions(), s);
  }

  lemma GroupingCaseTree(lib: Numerics.Libm)
    ensures Reference.Render(Reference.Bin(Multiplication, Reference.Bin(Addition, Reference.Num(5.0), Reference.Num(3.0)), Reference.Num(2.0)), 0) == [LParen, Num(5.0), Op("+"), Num(3.0), RParen, Op("*"), Num(2.0)]
    ensures Reference.Eval(lib, Reference.Bin(Multiplication, Reference.Bin(Addition, Reference.Num(5.0), Reference.Num(3.0)), Reference.Num(2.0))) == Ok(16.0)
  {
    assert Reference.Eval(lib, Reference.Bin(Addition, Reference.Num(5.0), Reference.Num(3.0))) == Ok(8.0);
    assert Reference.Eval(lib, Reference.Num(2.0)) == Ok(2.0);
  }

  /** `(5 + 3) * 2 = 16`: parentheses override precedence. */
  lemma GroupingCase(lib: Numerics.Libm)
    ensures StdParse(lib, "(5 + 3) * 2") == Ok(16.0)
  {
    CaseTexts.GroupingCaseText("(5 + 3) * 2");
    GroupingCaseTokens("(5+3)*2");
    GroupingCaseTree(lib);
    ParseViaTree(lib, "(5 + 3) * 2", Reference.Bin(Multiplication, Reference.Bin(Addition, Reference.Num(5.0), Reference.Num(3.0)), Reference.Num(2.0)), [LParen, Num(5.0), Op("+"), Num(3.0), RParen, Op("*"), Num(2.0)]);
  }

  lemma SumOfProductCaseTokens(s: string)
    requires s == "2+3*4"
    ensures ScanStd(s, 0) == Ok([Num(2.0), Op("+"), Num(3.0), Op("*"), Num(4.0)])
  {
    CaseTokens.SumOfProductScan(Symbols, ServiceProvider.DefaultFunctions(), s);
  }

  lemma SumOfProductCaseTree(lib: Numerics.Libm)
    ensures Reference.Render(Reference.Bin(Addition, Reference.Num(2.0), Reference.Bin(Multiplication, Reference.Num(3.0), Reference.Num(4.0))), 0) == [Num(2.0), Op("+"), Num(3.0), Op("*"), Num(4.0)]
    ensures Reference.Eval(lib, Reference.Bin(Addition, Reference.Num(2.0), Reference.Bin(Multiplication, Reference.Num(3.0), Reference.Num(4.0)))) == Ok(14.0)
  {
    assert Reference.Eval(lib, Reference.Num(2.0)) == Ok(2.0);
    assert Reference.Eval(lib, Reference.Bin(Multiplication, Reference.Num(3.0), Reference.Num(4.0))) == Ok(12.0);
  }

  lemma ProductOfSumCaseTokens(s: string)
    requires s == "(2+3)*4"
    ensures ScanStd(s, 0) == Ok([LParen, Num(2.0), Op("+"), Num(3.0), RParen, Op("*"), Num(4.0)])
  {
    CaseTokens.ProductOfSumScan(Symbols, ServiceProvider.DefaultFunctions(), s);
  }

  lemma ProductOfSumCaseTree(lib: Numerics.Libm)
    ensures Reference.Render(Reference.Bin(Multiplication, Reference.Bin(Addition, Reference.Num(2.0), Reference.Num(3.0)), Reference.Num(4.0)), 0) == [LParen, Num(2.0), Op("+"), Num(3.0), RParen, Op("*"), Num(4.0)]
    ensures Reference.Eval(lib, Reference.Bin(Multiplication, Reference.Bin(Addition, Reference.Num(2.0), Reference.Num(3.0)), Reference.Num(4.0))) == Ok(20.0)
  {
    assert Reference.Eval(lib, Reference.Bin(Addition, Reference.Num(2.0), Reference.Num(3.0))) == Ok(5.0);
    assert Reference.Eval(lib, Reference.Num(4.0)) == Ok(4.0);
  }

  /** `2 + 3 * 4 = 14` and `(2 + 3) * 4 = 20`: the same numbers and operators, grouped by
      precedence and then by parentheses. */
  lemma MultipleOperationsCase(lib: Numerics.Libm)
    ensures StdParse(lib, "2 + 3 * 4") == Ok(14.0)
    ensures StdParse(lib, "(2 + 3) * 4") == Ok(20.0)
  {
    var sum := Reference.Bin(Addition, Reference.Num(2.0), Reference.Bin(Multiplication, Reference.Num(3.0), Reference.Num(4.0)));
    var sumToks := [Num(2.0), Op("+"), Num(3.0), Op("*"), Num(4.0)];
    assert Reference.Unsigned(sum);
    assert Reference.Render(sum, 0) == sumToks && Reference.Eval(lib, sum) == Ok(14.0) by { SumOfProductCaseTree(lib); }
    assert ScanStd(Normalize.Normalize("2 + 3 * 4"), 0) == Ok(sumToks) by {
      CaseTexts.SumOfProductCaseText("2 + 3 * 4");
      SumOfProductCaseTokens("2+3*4");
    }
    ParseViaTree(lib, "2 + 3 * 4", sum, sumToks);
    var product := Reference.Bin(Multiplication, Reference.Bin(Addition, Reference.Num(2.0), Reference.Num(3.0)), Reference.Num(4.0));
    var productToks := [LParen, Num(2.0), Op("+"), Num(3.0), RParen, Op("*"), Num(4.0)];
    assert Reference.Unsigned(product);
    assert Reference.Render(product, 0) == productToks && Reference.Eval(lib, product) == Ok(20.0) by { ProductOfSumCaseTree(lib); }
    assert ScanStd(Normalize.Normalize("(2 + 3) * 4"), 0) == Ok(productToks) by {
      CaseTexts.ProductOfSumCaseText("(2 + 3) * 4");
      ProductOfSumCaseTokens("(2+3)*4");
    }
    ParseViaTree(lib, "(2 + 3) * 4", product, productToks);
  }

  lemma LeftAssociativeCaseTokens(s: string)
    requires s == "8-3-2"
    ensures ScanStd(s, 0) == Ok([Num(8.0), Op("-"), Num(3.0), Op("-"), Num(2.0)])
  {
    CaseTokens.LeftAssociativeScan(Symbols, ServiceProvider.DefaultFunctions(), s);
  }

  lemma LeftAssociativeCaseTree(lib: Numerics.Libm)
    ensures Reference.Render(Reference.Bin(Subtraction, Reference.Bin(Subtraction, Reference.Num(8.0), Reference.Num(3.0)), Reference.Num(2.0)), 0) == [Num(8.0), Op("-"), Num(3.0), Op("-"), Num(2.0)]
    ensures Reference.Eval(lib, Reference.Bin(Subtraction, Reference.Bin(Subtraction, Reference.Num(8.0), Reference.Num(3.0)), Reference.Num(2.0))) == Ok(3.0)
  {
    assert Reference.Eval(lib, Reference.Bin(Subtraction, Reference.Num(8.0), Reference.Num(3.0))) == Ok(5.0);
    assert Reference.Eval(lib, Reference.Num(2.0)) == Ok(2.0);
  }

  /** `8 - 3 - 2 = 3`: `-` groups to the left, `(8 - 3) - 2`, not `8 - (3 - 2) = 7`. */
  lemma LeftAssociativeCase(lib: Numerics.Libm)
    ensures StdParse(lib, "8 - 3 - 2") == Ok(3.0)
  {
    CaseTexts.LeftAssociativeCaseText("8 - 3 - 2");
    LeftAssociativeCaseTokens("8-3-2");
    LeftAssociativeCaseTree(lib);
    ParseViaTree(lib, "8 - 3 - 2", Reference.Bin(Subtraction, Reference.Bin(Subtraction, Reference.Num(8.0), Reference.Num(3.0)), Reference.Num(2.0)), [Num(8.0), Op("-"), Num(3.0), Op("-"), Num(2.0)]);
  }

  lemma PowerCaseTokens(s: string)
    requires s == "2^3"
    ensures ScanStd(s, 0) == Ok([Num(2.0), Op("^"), Num(3.0)])
  {
    CaseTokens.PowerScan(Symbols, ServiceProvider.DefaultFunctions(), s);
  }

  lemma PowerCaseTree(lib: Numerics.Libm)
    ensures Reference.Render(Reference.Bin(Power, Reference.Num(2.0), Reference.Num(3.0)), 0) == [Num(2.0), Op("^"), Num(3.0)]
    ensures Reference.Eval(lib, Reference.Bin(Power, Reference.Num(2.0), Reference.Num(3.0))) == Ok(lib.pow(2.0, 3.0))
  {
  }

  /** `2 ^ 3` is `pow(2, 3)`, so 8 where `pow` is exact. */
  lemma PowerCase(lib: Numerics.Libm)
    ensures StdParse(lib, "2 ^ 3") == Ok(lib.pow(2.0, 3.0))
    ensures lib.pow(2.0, 3.0) == 8.0 ==> StdParse(lib, "2 ^ 3") == Ok(8.0)
  {
    CaseTexts.PowerCaseText("2 ^ 3");
    PowerCaseTokens("2^3");
    PowerCaseTree(lib);
    ParseViaTree(lib, "2 ^ 3", Reference.Bin(Power, Reference.Num(2.0), Reference.Num(3.0)), [Num(2.0), Op("^"), Num(3.0)]);
  }

  lemma RightAssociativeCaseTokens(s: string)
    requires s == "2^3^2"
    ensures ScanStd(s, 0) == Ok([Num(2.0), Op("^"), Num(3.0), Op("^"), Num(2.0)])
  {
    CaseTokens.RightAssociativeScan(Symbols, ServiceProvider.DefaultFunctions(), s);
  }

  lemma RightAssociativeCaseTree(lib: Numerics.Libm)
    ensures Reference.Render(Reference.Bin(Power, Reference.Num(2.0), Reference.Bin(Power, Reference.Num(3.0), Reference.Num(2.0))), 0) == [Num(2.0), Op("^"), Num(3.0), Op("^"), Num(2.0)]
    ensures Reference.Eval(lib, Reference.Bin(Power, Reference.Num(2.0), Reference.Bin(Power, Reference.Num(3.0), Reference.Num(2.0)))) == Ok(lib.pow(2.0, lib.pow(3.0, 2.0)))
  {
    assert Reference.Eval(lib, Reference.Num(2.0)) == Ok(2.0);
    assert Reference.Eval(lib, Reference.Bin(Power, Reference.Num(3.0), Reference.Num(2.0))) == Ok(lib.pow(3.0, 2.0));
  }

  /** `2 ^ 3 ^ 2` is `2 ^ (3 ^ 2)`, so 512 where `pow` is exact, not `(2 ^ 3) ^ 2 = 64`. */
  lemma RightAssociativeCase(lib: Numerics.Libm)
    ensures StdParse(lib, "2 ^ 3 ^ 2") == Ok(lib.pow(2.0, lib.pow(3.0, 2.0)))
    ensures lib.pow(3.0, 2.0) == 9.0 && lib.pow(2.0, 9.0) == 512.0 ==> StdParse(lib, "2 ^ 3 ^ 2") == Ok(512.0)
  {
    CaseTexts.RightAssociativeCaseText("2 ^ 3 ^ 2");
    RightAssociativeCaseTokens("2^3^2");
    RightAssociativeCaseTree(lib);
    ParseViaTree(lib, "2 ^ 3 ^ 2", Reference.Bin(Power, Reference.Num(2.0), Reference.Bin(Power, Reference.Num(3.0), Reference.Num(2.0))), [Num(2.0), Op("^"), Num(3.0), Op("^"), Num(2.0)]);
  }

  lemma NegativeCaseTokens(s: string)
    requires s == "-5"
    ensures ScanStd(s, 0) == Ok([Op("-"), Num(5.0)])
  {
    CaseTokens.NegativeScan(Symbols, ServiceProvider.DefaultFunctions(), s);
  }

  lemma NegativeCaseTree(lib: Numerics.Libm)
    ensures Reference.Render(Reference.Neg(Reference.Num(5.0)), 0) == [Op("-"), Num(5.0)]
    ensures Reference.Eval(lib, Reference.Neg(Reference.Num(5.0))) == Ok(-5.0)
  {
  }

  /** `-5 = -5`. */
  lemma NegativeCase(lib: Numerics.Libm)
    ensures StdParse(lib, "-5") == Ok(-5.0)
  {
    CaseTexts.NegativeCaseText("-5");
    NegativeCaseTokens("-5");
    NegativeCaseTree(lib);
    ParseViaTree(lib, "-5", Reference.Neg(Reference.Num(5.0)), [Op("-"), Num(5.0)]);
  }

  lemma SignedBaseCaseTokens(s: string)
    requires s == "-2^2"
    ensures ScanStd(s, 0) == Ok([Op("-"), Num(2.0), Op("^"), Num(2.0)])
  {
    CaseTokens.SignedBaseScan(Symbols, ServiceProvider.DefaultFunctions(), s);
  }

  lemma SignedBaseCaseTree(lib: Numerics.Libm)
    ensures Reference.Render(Reference.Bin(Power, Reference.Neg(Reference.Num(2.0)), Reference.Num(2.0)), 0) == [Op("-"), Num(2.0), Op("^"), Num(2.0)]
    ensures Reference.Eval(lib, Reference.Bin(Power, Reference.Neg(Reference.Num(2.0)), Reference.Num(2.0))) == Ok(lib.pow(-2.0, 2.0))
  {
    assert Reference.Eval(lib, Reference.Neg(Reference.Num(2.0))) == Ok(-2.0);
    assert Reference.Eval(lib, Reference.Num(2.0)) == Ok(2.0);
  }

  /** `-2^2` is `(-2)^2`: `parseUnary` reads the sign as part of the base before `^` is seen. */
  lemma SignedBaseCase(lib: Numerics.Libm)
    ensures StdParse(lib, "-2^2") == Ok(lib.pow(-2.0, 2.0))
  {
    CaseTexts.SignedBaseCaseText("-2^2");
    SignedBaseCaseTokens("-2^2");
    SignedBaseCaseTree(lib);
    ParseViaTree(lib, "-2^2", Reference.Bin(Power, Reference.Neg(Reference.Num(2.0)), Reference.Num(2.0)), [Op("-"), Num(2.0), Op("^"), Num(2.0)]);
  }

  lemma SquareRootCaseTokens(s: string)
    requires s == "sqrt(9)"
    ensures ScanStd(s, 0) == Ok([Fn("sqrt"), LParen, Num(9.0), RParen])
  {
    ServiceProvider.DefaultFunctionsContents();
    CaseTokens.SquareRootScan(Symbols, ServiceProvider.DefaultFunctions(), s);
  }

  lemma SquareRootCaseTree(lib: Numerics.Libm)
    ensures Reference.Render(Reference.Call(Sqrt, Reference.Num(9.0)), 0) == [Fn("sqrt"), LParen, Num(9.0), RParen]
    ensures Reference.Eval(lib, Reference.Call(Sqrt, Reference.Num(9.0))) == Ok(lib.sqrt(9.0))
  {
  }

  /** `SQRT(9)` is `sqrt(9)`: the name is lower-cased first; 3 where `sqrt` is exact. */
  lemma SquareRootCase(lib: Numerics.Libm)
    ensures StdParse(lib, "SQRT(9)") == Ok(lib.sqrt(9.0))
    ensures lib.sqrt(9.0) == 3.0 ==> StdParse(lib, "SQRT(9)") == Ok(3.0)
  {
    CaseTexts.SquareRootCaseText("SQRT(9)");
    SquareRootCaseTokens("sqrt(9)");
    SquareRootCaseTree(lib);
    ParseViaTree(lib, "SQRT(9)", Reference.Call(Sqrt, Reference.Num(9.0)), [Fn("sqrt"), LParen, Num(9.0), RParen]);
  }

  lemma DivideByZeroCaseTokens(s: string)
    requires s == "5/0"
    ensures ScanStd(s, 0) == Ok([Num(5.0), Op("/"), Num(0.0)])
  {
    CaseTokens.DivideByZeroScan(Symbols, ServiceProvider.DefaultFunctions(), s);
  }

  lemma DivideByZeroCaseTree(lib: Numerics.Libm)
    ensures Reference.Render(Reference.Bin(Division, Reference.Num(5.0), Reference.Num(0.0)), 0) == [Num(5.0), Op("/"), Num(0.0)]
    ensures Reference.Eval(lib, Reference.Bin(Division, Reference.Num(5.0), Reference.Num(0.0))) == Err(DivisionByZero)
  {
  }

  /** `5 / 0` fails with "Division by zero". */
  lemma DivideByZeroCase(lib: Numerics.Libm)
    ensures StdParse(lib, "5 / 0") == Err(DivisionByZero) && Message(DivisionByZero) == "Division by zero"
  {
    CaseTexts.DivideByZeroCaseText("5 / 0");
    DivideByZeroCaseTokens("5/0");
    DivideByZeroCaseTree(lib);
    ParseViaTree(lib, "5 / 0", Reference.Bin(Division, Reference.Num(5.0), Reference.Num(0.0)), [Num(5.0), Op("/"), Num(0.0)]);
  }

  lemma NegativeRootCaseTokens(s: string)
    requires s == "sqrt(-1)"
    ensures ScanStd(s, 0) == Ok([Fn("sqrt"), LParen, Op("-"), Num(1.0), RParen])
  {
    ServiceProvider.DefaultFunctionsContents();
    CaseTokens.NegativeRootScan(Symbols, ServiceProvider.DefaultFunctions(), s);
  }

  lemma NegativeRootCaseTree(lib: Numerics.Libm)
    ensures Reference.Render(Reference.Call(Sqrt, Reference.Neg(Reference.Num(1.0))), 0) == [Fn("sqrt"), LParen, Op("-"), Num(1.0), RParen]
    ensures Reference.Eval(lib, Reference.Call(Sqrt, Reference.Neg(Reference.Num(1.0)))) == Err(NegativeSquareRoot)
  {
    assert Reference.Eval(lib, Reference.Neg(Reference.Num(1.0))) == Ok(-1.0);
  }

  /** `sqrt(-1)` fails with "Cannot calculate square root of negative number". */
  lemma NegativeRootCase(lib: Numerics.Libm)
    ensures StdParse(lib, "sqrt(-1)") == Err(NegativeSquareRoot)
    ensures Message(NegativeSquareRoot) == "Cannot calculate square root of negative number"
  {
    var e := Reference.Call(Sqrt, Reference.Neg(Reference.Num(1.0)));
    var toks := [Fn("sqrt"), LParen, Op("-"), Num(1.0), RParen];
    assert Reference.Unsigned(e);
    assert Reference.Render(e, 0) == toks && Reference.Eval(lib, e) == Err(NegativeSquareRoot) by { NegativeRootCaseTree(lib); }
    assert ScanStd(Normalize.Normalize("sqrt(-1)"), 0) == Ok(toks) by {
      CaseTexts.NegativeRootCaseText("sqrt(-1)");
      NegativeRootCaseTokens("sqrt(-1)");
    }
    ParseViaTree(lib, "sqrt(-1)", e, toks);
  }

  // Rejected texts, one per error the parser raises.

  lemma MismatchedCaseTokens(s: string)
    requires s == "(5+3"
    ensures ScanStd(s, 0) == Ok([LParen, Num(5.0), Op("+"), Num(3.0)])
  {
    CaseTokens.MismatchedScan(Symbols, ServiceProvider.DefaultFunctions(), s);
  }

  /** Inside `(5+3` the group's expression runs to the end of the tokens, where `)` is
      missing. */
  lemma MismatchedCaseGroup(env: Grammar.Env, toks: seq<Token>)
    requires Reference.Standard(env) && Grammar.WellFormed(env, toks)
    requires toks == [LParen, Num(5.0), Op("+"), Num(3.0)]
    ensures Grammar.Factor(env, toks, 0) == Err(MismatchedParentheses)
  {
    var e := Reference.Bin(Addition, Reference.Num(5.0), Reference.Num(3.0));
    AddCaseTree(env.lib);
    assert toks[1..] == Reference.Render(e, 0);
    Reference.AtSuffix(toks, 1);
    Reference.ParsesAsAddition(env, toks, 1, e);
    assert Grammar.Expression(env, toks, 1) == Ok(Grammar.Parsed(8.0, 4));
  }

  /** `(5 + 3` fails with "Mismatched parentheses". */
  lemma MismatchedCase(lib: Numerics.Libm)
    ensures StdParse(lib, "(5 + 3") == Err(MismatchedParentheses)
  {
    var toks := [LParen, Num(5.0), Op("+"), Num(3.0)];
    CaseTexts.MismatchedCaseText("(5 + 3");
    MismatchedCaseTokens("(5+3");
    ParseViaTokens(lib, "(5 + 3", toks);
    Reference.StdEnvStandard(lib);
    MismatchedCaseGroup(Reference.StdEnv(lib), toks);
    FirstFactorFails(Reference.StdEnv(lib), toks, MismatchedParentheses);
  }

  lemma UnknownFunctionCaseTokens(s: string)
    requires s == "unknown(5)"
    ensures ScanStd(s, 0) == Err(UnknownFunction("unknown"))
  {
    ServiceProvider.DefaultFunctionsContents();
    CaseTokens.UnknownFunctionScan(Symbols, ServiceProvider.DefaultFunctions(), s);
  }

  /** `unknown(5)` fails with "Unknown function: unknown". */
  lemma UnknownFunctionCase(lib: Numerics.Libm)
    ensures StdParse(lib, "unknown(5)") == Err(UnknownFunction("unknown"))
  {
    CaseTexts.UnknownFunctionCaseText("unknown(5)");
    UnknownFunctionCaseTokens("unknown(5)");
    ParseViaScanError(lib, "unknown(5)", UnknownFunction("unknown"));
  }

  lemma JoinedNamesCaseTokens(s: string)
    requires s == "sqrtabs(4)"
    ensures ScanStd(s, 0) == Err(UnknownFunction("sqrtabs"))
  {
    ServiceProvider.DefaultFunctionsContents();
    CaseTokens.JoinedNamesScan(Symbols, ServiceProvider.DefaultFunctions(), s);
  }

  /** `sqrtabs(4)` is one maximal letter run, not `sqrt` followed by `abs`, and it names no
      function. */
  lemma JoinedNamesCase(lib: Numerics.Libm)
    ensures StdParse(lib, "sqrtabs(4)") == Err(UnknownFunction("sqrtabs"))
  {
    CaseTexts.JoinedNamesCaseText("sqrtabs(4)");
    JoinedNamesCaseTokens("sqrtabs(4)");
    ParseViaScanError(lib, "sqrtabs(4)", UnknownFunction("sqrtabs"));
  }

  lemma TabCaseTokens(s: string)
    requires s == "5\t+3"
    ensures ScanStd(s, 0) == Err(InvalidSyntax("Unexpected character: \t"))
  {
    CaseTokens.TabScan(Symbols, ServiceProvider.DefaultFunctions(), s);
  }

  /** Only ' ' is deleted: a tab between tokens reaches the tokenizer and is rejected. */
  lemma TabCase(lib: Numerics.Libm)
    ensures StdParse(lib, "5\t+3") == Err(InvalidSyntax("Unexpected character: \t"))
  {
    CaseTexts.TabCaseText("5\t+3");
    TabCaseTokens("5\t+3");
    ParseViaScanError(lib, "5\t+3", InvalidSyntax("Unexpected character: \t"));
  }

  lemma TwoPointsCaseTokens(s: string)
    requires s == "1.2.3"
    ensures ScanStd(s, 0) == Err(InvalidSyntax("Invalid number: 1.2.3"))
  {
    CaseTokens.TwoPointsScan(Symbols, ServiceProvider.DefaultFunctions(), s);
  }

  /** `1.2.3` is one run with two points and fails as an invalid number. */
  lemma TwoPointsCase(lib: Numerics.Libm)
    ensures StdParse(lib, "1.2.3") == Err(InvalidSyntax("Invalid number: 1.2.3"))
  {
    CaseTexts.TwoPointsCaseText("1.2.3");
    TwoPointsCaseTokens("1.2.3");
    ParseViaScanError(lib, "1.2.3", InvalidSyntax("Invalid number: 1.2.3"));
  }

  /** A lone `.` has at most one point, so it is accepted as the number 0. */
  lemma LonePointCase(lib: Numerics.Libm)
    ensures StdParse(lib, ".") == Ok(0.0)
  {
    var s := ".";
    CaseTexts.LonePointCaseText(s);
    assert Lexer.CountDots(".") == 1 && Lexer.DecimalValue(".") == 0.0;
    ScanEnd(Symbols, ServiceProvider.DefaultFunctions(), s);
    assert s[0..1] == ".";
    ScanNumber(Symbols, ServiceProvider.DefaultFunctions(), s, 0, 1, 0.0, [], [Num(0.0)]);
    assert Reference.Render(Reference.Num(0.0), 0) == [Num(0.0)];
    ParseViaTree(lib, s, Reference.Num(0.0), [Num(0.0)]);
  }

  /** Blank input leaves no tokens, and the first factor finds the end of the expression. */
  lemma BlankCase(lib: Numerics.Libm)
    ensures StdParse(lib, "   ") == Err(InvalidSyntax("Unexpected end of expression"))
  {
    assert Normalize.Normalize("   ") == "";
    ScanEnd(Symbols, ServiceProvider.DefaultFunctions(), "");
    ParseViaTokens(lib, "   ", []);
    FirstFactorFails(Reference.StdEnv(lib), [], InvalidSyntax("Unexpected end of expression"));
  }

  lemma AdjacentCaseTokens(s: string)
    requires s == "2(3)"
    ensures ScanStd(s, 0) == Ok([Num(2.0), LParen, Num(3.0), RParen])
  {
    CaseTokens.AdjacentScan(Symbols, ServiceProvider.DefaultFunctions(), s);
  }

  /** The expression in `2(3)` ends after `2`. */
  lemma AdjacentCaseHead(env: Grammar.Env, toks: seq<Token>)
    requires Reference.Standard(env) && Grammar.WellFormed(env, toks)
    requires toks == [Num(2.0), LParen, Num(3.0), RParen]
    ensures Grammar.Expression(env, toks, 0) == Ok(Grammar.Parsed(2.0, 1))
  {
    assert Reference.Render(Reference.Num(2.0), 0) == [Num(2.0)];
    assert Reference.At(toks, 0, [Num(2.0)]);
    Reference.ParsesAsAddition(env, toks, 0, Reference.Num(2.0));
  }

  /** There is no implicit multiplication: in `2(3)` the group is left over. */
  lemma AdjacentCase(lib: Numerics.Libm)
    ensures StdParse(lib, "2(3)") == Err(InvalidSyntax("Unexpected token"))
  {
    var toks := [Num(2.0), LParen, Num(3.0), RParen];
    CaseTexts.AdjacentCaseText("2(3)");
    AdjacentCaseTokens("2(3)");
    ParseViaTokens(lib, "2(3)", toks);
    Reference.StdEnvStandard(lib);
    AdjacentCaseHead(Reference.StdEnv(lib), toks);
  }

  lemma CallWithoutParenCaseTokens(s: string)
    requires s == "sqrt9"
    ensures ScanStd(s, 0) == Ok([Fn("sqrt"), Num(9.0)])
  {
    ServiceProvider.DefaultFunctionsContents();
    CaseTokens.CallWithoutParenScan(Symbols, ServiceProvider.DefaultFunctions(), s);
  }

  lemma CallWithoutParenCaseFactor(env: Grammar.Env, toks: seq<Token>)
    requires Grammar.WellFormed(env, toks) && toks == [Fn("sqrt"), Num(9.0)]
    ensures Grammar.Factor(env, toks, 0) == Err(InvalidSyntax("Expected '(' after function sqrt"))
  {
    assert Grammar.NotAt(toks, 1, LeftParen);
    assert toks[0].Is(Function) && toks[0].value.s == "sqrt";
    assert "Expected '(' after function " + "sqrt" == "Expected '(' after function sqrt";
  }

  /** `sqrt 9` becomes `sqrt9`: a function name must be followed by `(`. */
  lemma CallWithoutParenCase(lib: Numerics.Libm)
    ensures StdParse(lib, "sqrt 9") == Err(InvalidSyntax("Expected '(' after function sqrt"))
  {
    var toks := [Fn("sqrt"), Num(9.0)];
    CaseTexts.CallWithoutParenCaseText("sqrt 9");
    CallWithoutParenCaseTokens("sqrt9");
    ParseViaTokens(lib, "sqrt 9", toks);
    CallWithoutParenCaseFactor(Reference.StdEnv(lib), toks);
    FirstFactorFails(Reference.StdEnv(lib), toks, InvalidSyntax("Expected '(' after function sqrt"));
  }

  /** A token that cannot start a factor is rejected with its text. */
  lemma StrayTokenCase(lib: Numerics.Libm)
    ensures StdParse(lib, ")") == Err(InvalidSyntax("Unexpected token: )"))
  {
    CaseTexts.StrayTokenCaseText(")");
    ScanEnd(Symbols, ServiceProvider.DefaultFunctions(), ")");
    ScanParen(Symbols, ServiceProvider.DefaultFunctions(), ")", 0, [], [RParen]);
    ParseViaTokens(lib, ")", [RParen]);
    assert "Unexpected token: " + ")" == "Unexpected token: )";
    FirstFactorFails(Reference.StdEnv(lib), [RParen], InvalidSyntax("Unexpected token: )"));
  }
}
