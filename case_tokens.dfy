/** The token lists of the worked texts, derived one scanner step at a time. The lemmas take
    the operator symbols and the function table as parameters and ask of them only the
    entries the text uses, so each step unfolds the scanner once and nothing else. */
module CaseTokens {
  import opened Wrappers
  import opened TokenTypes
  import opened Tokens
  import opened ParseErrors
  import opened Registries
  import opened Functions
  import Lexer

  function Num(x: real): Token { Token(Number, Float(x)) }
  function Op(s: string): Token { Token(Operator, Text(s)) }
  function Fn(name: string): Token { Token(Function, Text(name)) }
  const LParen := Token(LeftParen, Text("("))
  const RParen := Token(RightParen, Text(")"))

  // Single steps of the scan, one per branch of the tokenizer's loop.

  lemma ScanEnd(sy: seq<string>, fns: Items<FunctionKind>, s: string)
    ensures Lexer.Scan(sy, fns, s, |s|) == Ok([])
  {
  }

  lemma ScanNumber(sy: seq<string>, fns: Items<FunctionKind>, s: string, i: nat, j: nat, x: real, rest: seq<Token>, toks: seq<Token>)
    requires i < j <= |s| && (forall m :: i <= m < j ==> Lexer.InRun(Lexer.NumberRun, s[m]))
    requires j == |s| || !Lexer.InRun(Lexer.NumberRun, s[j])
    requires Lexer.CountDots(s[i..j]) <= 1 && Lexer.DecimalValue(s[i..j]) == x
    requires Lexer.Scan(sy, fns, s, j) == Ok(rest) && toks == [Num(x)] + rest
    ensures Lexer.Scan(sy, fns, s, i) == Ok(toks)
  {
    assert Lexer.RunEnd(s, i, Lexer.NumberRun) == j;
  }

  /** A run of one digit holds no point and stands for that digit's value. */
  lemma SingleDigit(run: string)
    requires |run| == 1 && Lexer.IsDigit(run[0])
    ensures Lexer.CountDots(run) == 0
    ensures Lexer.DecimalValue(run) == (run[0] as int - '0' as int) as real
  {
    assert run[1..] == [];
    assert Lexer.DotIndex(run) == 1;
    assert run[..1] == run && run[..0] == [];
    assert Lexer.DigitsValue(run) == Lexer.DigitValue(run[0]);
  }

  /** A number of one digit. */
  lemma ScanDigit(sy: seq<string>, fns: Items<FunctionKind>, s: string, i: nat, x: real, rest: seq<Token>, toks: seq<Token>)
    requires i < |s| && Lexer.IsDigit(s[i]) && x == (s[i] as int - '0' as int) as real
    requires i + 1 == |s| || !Lexer.InRun(Lexer.NumberRun, s[i + 1])
    requires Lexer.Scan(sy, fns, s, i + 1) == Ok(rest) && toks == [Num(x)] + rest
    ensures Lexer.Scan(sy, fns, s, i) == Ok(toks)
  {
    SingleDigit(s[i..i + 1]);
    ScanNumber(sy, fns, s, i, i + 1, x, rest, toks);
  }

  lemma ScanName(sy: seq<string>, fns: Items<FunctionKind>, s: string, i: nat, j: nat, rest: seq<Token>, toks: seq<Token>)
    requires i < j <= |s| && (forall m :: i <= m < j ==> Lexer.IsAlpha(s[m]))
    requires j == |s| || !Lexer.IsAlpha(s[j])
    requires s[i..j] in fns.entries
    requires Lexer.Scan(sy, fns, s, j) == Ok(rest) && toks == [Fn(s[i..j])] + rest
    ensures Lexer.Scan(sy, fns, s, i) == Ok(toks)
  {
    assert Lexer.RunEnd(s, i, Lexer.NameRun) == j;
    assert !Lexer.IsDigit(s[i]) && s[i] != '.';
  }

  lemma ScanSymbol(sy: seq<string>, fns: Items<FunctionKind>, s: string, i: nat, rest: seq<Token>, toks: seq<Token>)
    requires i < |s| && [s[i]] in sy
    requires !Lexer.IsDigit(s[i]) && s[i] != '.' && !Lexer.IsAlpha(s[i]) && s[i] != '(' && s[i] != ')'
    requires Lexer.Scan(sy, fns, s, i + 1) == Ok(rest) && toks == [Op([s[i]])] + rest
    ensures Lexer.Scan(sy, fns, s, i) == Ok(toks)
  {
  }

  lemma ScanParen(sy: seq<string>, fns: Items<FunctionKind>, s: string, i: nat, rest: seq<Token>, toks: seq<Token>)
    requires i < |s| && (s[i] == '(' || s[i] == ')')
    requires Lexer.Scan(sy, fns, s, i + 1) == Ok(rest)
    requires toks == [if s[i] == '(' then LParen else RParen] + rest
    ensures Lexer.Scan(sy, fns, s, i) == Ok(toks)
  {
  }

  lemma ScanBadNumber(sy: seq<string>, fns: Items<FunctionKind>, s: string, i: nat, j: nat)
    requires i < j <= |s| && (forall m :: i <= m < j ==> Lexer.InRun(Lexer.NumberRun, s[m]))
    requires j == |s| || !Lexer.InRun(Lexer.NumberRun, s[j])
    requires Lexer.CountDots(s[i..j]) > 1
    ensures Lexer.Scan(sy, fns, s, i) == Err(InvalidSyntax("Invalid number: " + s[i..j]))
  {
    assert Lexer.RunEnd(s, i, Lexer.NumberRun) == j;
  }

  lemma ScanUnknownName(sy: seq<string>, fns: Items<FunctionKind>, s: string, i: nat, j: nat)
    requires i < j <= |s| && (forall m :: i <= m < j ==> Lexer.IsAlpha(s[m]))
    requires j == |s| || !Lexer.IsAlpha(s[j])
    requires s[i..j] !in fns.entries
    ensures Lexer.Scan(sy, fns, s, i) == Err(UnknownFunction(s[i..j]))
  {
    assert Lexer.RunEnd(s, i, Lexer.NameRun) == j;
    assert !Lexer.IsDigit(s[i]) && s[i] != '.';
  }

  lemma ScanUnexpected(sy: seq<string>, fns: Items<FunctionKind>, s: string, i: nat)
    requires i < |s| && !Lexer.IsDigit(s[i]) && s[i] != '.' && !Lexer.IsAlpha(s[i])
    requires s[i] != '(' && s[i] != ')' && [s[i]] !in sy
    ensures Lexer.Scan(sy, fns, s, i) == Err(InvalidSyntax("Unexpected character: " + [s[i]]))
  {
  }

  /** A number run followed by text the scan rejects. */
  lemma ScanNumberThenError(sy: seq<string>, fns: Items<FunctionKind>, s: string, i: nat, j: nat, err: ParseError)
    requires i < j <= |s| && (forall m :: i <= m < j ==> Lexer.InRun(Lexer.NumberRun, s[m]))
    requires j == |s| || !Lexer.InRun(Lexer.NumberRun, s[j])
    requires Lexer.CountDots(s[i..j]) <= 1
    requires Lexer.Scan(sy, fns, s, j) == Err(err)
    ensures Lexer.Scan(sy, fns, s, i) == Err(err)
  {
    assert Lexer.RunEnd(s, i, Lexer.NumberRun) == j;
  }

  // Texts the scan rejects.

  /** `unknown(5)` stops at its first run, a name no function has. */
  lemma UnknownFunctionScan(sy: seq<string>, fns: Items<FunctionKind>, s: string)
    requires "unknown" !in fns.entries
    requires s == "unknown(5)"
    ensures Lexer.Scan(sy, fns, s, 0) == Err(UnknownFunction("unknown"))
  {
    assert s[0..7] == "unknown";
    ScanUnknownName(sy, fns, s, 0, 7);
  }

  /** `sqrtabs(4)` is one letter run, and no function has that name. */
  lemma JoinedNamesScan(sy: seq<string>, fns: Items<FunctionKind>, s: string)
    requires "sqrtabs" !in fns.entries
    requires s == "sqrtabs(4)"
    ensures Lexer.Scan(sy, fns, s, 0) == Err(UnknownFunction("sqrtabs"))
  {
    assert s[0..7] == "sqrtabs";
    ScanUnknownName(sy, fns, s, 0, 7);
  }

  /** `5\t+3`: the tab after the first number is no token. */
  lemma TabScan(sy: seq<string>, fns: Items<FunctionKind>, s: string)
    requires "\t" !in sy
    requires s == "5\t+3"
    ensures Lexer.Scan(sy, fns, s, 0) == Err(InvalidSyntax("Unexpected character: \t"))
  {
    ScanUnexpected(sy, fns, s, 1);
    assert "Unexpected character: " + [s[1]] == "Unexpected character: \t";
    assert s[0..1] == "5";
    ScanNumberThenError(sy, fns, s, 0, 1, InvalidSyntax("Unexpected character: \t"));
  }

  /** `1.2.3` is one number run with two points. */
  lemma TwoPointsScan(sy: seq<string>, fns: Items<FunctionKind>, s: string)
    requires s == "1.2.3"
    ensures Lexer.Scan(sy, fns, s, 0) == Err(InvalidSyntax("Invalid number: 1.2.3"))
  {
    assert s[0..5] == "1.2.3" && Lexer.CountDots("1.2.3") == 2;
    ScanBadNumber(sy, fns, s, 0, 5);
    assert "Invalid number: " + s[0..5] == "Invalid number: 1.2.3";
  }

  // Texts the scan accepts.

  lemma AddScanFrom1(sy: seq<string>, fns: Items<FunctionKind>, s: string)
    requires "+" in sy
    requires s == "5+3"
    ensures Lexer.Scan(sy, fns, s, 1) == Ok([Op("+"), Num(3.0)])
  {
    ScanEnd(sy, fns, s);
    ScanDigit(sy, fns, s, 2, 3.0, [], [Num(3.0)]);
    ScanSymbol(sy, fns, s, 1, [Num(3.0)], [Op("+"), Num(3.0)]);
  }

  /** The tokens of `5+3`. */
  lemma AddScan(sy: seq<string>, fns: Items<FunctionKind>, s: string)
    requires "+" in sy
    requires s == "5+3"
    ensures Lexer.Scan(sy, fns, s, 0) == Ok([Num(5.0), Op("+"), Num(3.0)])
  {
    AddScanFrom1(sy, fns, s);
    ScanDigit(sy, fns, s, 0, 5.0, [Op("+"), Num(3.0)], [Num(5.0), Op("+"), Num(3.0)]);
  }

  lemma SubtractScanFrom1(sy: seq<string>, fns: Items<FunctionKind>, s: string)
    requires "-" in sy
    requires s == "5-3"
    ensures Lexer.Scan(sy, fns, s, 1) == Ok([Op("-"), Num(3.0)])
  {
    ScanEnd(sy, fns, s);
    ScanDigit(sy, fns, s, 2, 3.0, [], [Num(3.0)]);
    ScanSymbol(sy, fns, s, 1, [Num(3.0)], [Op("-"), Num(3.0)]);
  }

  /** The tokens of `5-3`. */
  lemma SubtractScan(sy: seq<string>, fns: Items<FunctionKind>, s: string)
    requires "-" in sy
    requires s == "5-3"
    ensures Lexer.Scan(sy, fns, s, 0) == Ok([Num(5.0), Op("-"), Num(3.0)])
  {
    SubtractScanFrom1(sy, fns, s);
    ScanDigit(sy, fns, s, 0, 5.0, [Op("-"), Num(3.0)], [Num(5.0), Op("-"), Num(3.0)]);
  }

  lemma MultiplyScanFrom1(sy: seq<string>, fns: Items<FunctionKind>, s: string)
    requires "*" in sy
    requires s == "5*3"
    ensures Lexer.Scan(sy, fns, s, 1) == Ok([Op("*"), Num(3.0)])
  {
    ScanEnd(sy, fns, s);
    ScanDigit(sy, fns, s, 2, 3.0, [], [Num(3.0)]);
    ScanSymbol(sy, fns, s, 1, [Num(3.0)], [Op("*"), Num(3.0)]);
  }

  /** The tokens of `5*3`. */
  lemma MultiplyScan(sy: seq<string>, fns: Items<FunctionKind>, s: string)
    requires "*" in sy
    requires s == "5*3"
    ensures Lexer.Scan(sy, fns, s, 0) == Ok([Num(5.0), Op("*"), Num(3.0)])
  {
    MultiplyScanFrom1(sy, fns, s);
    ScanDigit(sy, fns, s, 0, 5.0, [Op("*"), Num(3.0)], [Num(5.0), Op("*"), Num(3.0)]);
  }

  lemma DivideScanFrom1(sy: seq<string>, fns: Items<FunctionKind>, s: string)
    requires "/" in sy
    requires s == "6/3"
    ensures Lexer.Scan(sy, fns, s, 1) == Ok([Op("/"), Num(3.0)])
  {
    ScanEnd(sy, fns, s);
    ScanDigit(sy, fns, s, 2, 3.0, [], [Num(3.0)]);
    ScanSymbol(sy, fns, s, 1, [Num(3.0)], [Op("/"), Num(3.0)]);
  }

  /** The tokens of `6/3`. */
  lemma DivideScan(sy: seq<string>, fns: Items<FunctionKind>, s: string)
    requires "/" in sy
    requires s == "6/3"
    ensures Lexer.Scan(sy, fns, s, 0) == Ok([Num(6.0), Op("/"), Num(3.0)])
  {
    DivideScanFrom1(sy, fns, s);
    ScanDigit(sy, fns, s, 0, 6.0, [Op("/"), Num(3.0)], [Num(6.0), Op("/"), Num(3.0)]);
  }

  lemma RemainderScanFrom2(sy: seq<string>, fns: Items<FunctionKind>, s: string)
    requires "%" in sy
    requires s == "10%3"
    ensures Lexer.Scan(sy, fns, s, 2) == Ok([Op("%"), Num(3.0)])
  {
    ScanEnd(sy, fns, s);
    ScanDigit(sy, fns, s, 3, 3.0, [], [Num(3.0)]);
    ScanSymbol(sy, fns, s, 2, [Num(3.0)], [Op("%"), Num(3.0)]);
  }

  /** The tokens of `10%3`. */
  lemma RemainderScan(sy: seq<string>, fns: Items<FunctionKind>, s: string)
    requires "%" in sy
    requires s == "10%3"
    ensures Lexer.Scan(sy, fns, s, 0) == Ok([Num(10.0), Op("%"), Num(3.0)])
  {
    RemainderScanFrom2(sy, fns, s);
    assert s[0..2] == "10";
    assert Lexer.CountDots("10") <= 1 && Lexer.DecimalValue("10") == 10.0;
    ScanNumber(sy, fns, s, 0, 2, 10.0, [Op("%"), Num(3.0)], [Num(10.0), Op("%"), Num(3.0)]);
  }

  lemma DecimalScanFrom3(sy: seq<string>, fns: Items<FunctionKind>, s: string)
    requires "+" in sy
    requires s == "5.5+2"
    ensures Lexer.Scan(sy, fns, s, 3) == Ok([Op("+"), Num(2.0)])
  {
    ScanEnd(sy, fns, s);
    ScanDigit(sy, fns, s, 4, 2.0, [], [Num(2.0)]);
    ScanSymbol(sy, fns, s, 3, [Num(2.0)], [Op("+"), Num(2.0)]);
  }

  /** The tokens of `5.5+2`. */
  lemma DecimalScan(sy: seq<string>, fns: Items<FunctionKind>, s: string)
    requires "+" in sy
    requires s == "5.5+2"
    ensures Lexer.Scan(sy, fns, s, 0) == Ok([Num(5.5), Op("+"), Num(2.0)])
  {
    DecimalScanFrom3(sy, fns, s);
    assert s[0..3] == "5.5";
    assert Lexer.CountDots("5.5") <= 1 && Lexer.DecimalValue("5.5") == 5.5;
    ScanNumber(sy, fns, s, 0, 3, 5.5, [Op("+"), Num(2.0)], [Num(5.5), Op("+"), Num(2.0)]);
  }

  lemma PrecedenceScanFrom3(sy: seq<string>, fns: Items<FunctionKind>, s: string)
    requires "+" in sy && "*" in sy
    requires s == "5+3*2"
    ensures Lexer.Scan(sy, fns, s, 3) == Ok([Op("*"), Num(2.0)])
  {
    ScanEnd(sy, fns, s);
    ScanDigit(sy, fns, s, 4, 2.0, [], [Num(2.0)]);
    ScanSymbol(sy, fns, s, 3, [Num(2.0)], [Op("*"), Num(2.0)]);
  }

  lemma PrecedenceScanFrom1(sy: seq<string>, fns: Items<FunctionKind>, s: string)
    requires "+" in sy && "*" in sy
    requires s == "5+3*2"
    ensures Lexer.Scan(sy, fns, s, 1) == Ok([Op("+"), Num(3.0), Op("*"), Num(2.0)])
  {
    PrecedenceScanFrom3(sy, fns, s);
    ScanDigit(sy, fns, s, 2, 3.0, [Op("*"), Num(2.0)], [Num(3.0), Op("*"), Num(2.0)]);
    ScanSymbol(sy, fns, s, 1, [Num(3.0), Op("*"), Num(2.0)], [Op("+"), Num(3.0), Op("*"), Num(2.0)]);
  }

  /** The tokens of `5+3*2`. */
  lemma PrecedenceScan(sy: seq<string>, fns: Items<FunctionKind>, s: string)
    requires "+" in sy && "*" in sy
    requires s == "5+3*2"
    ensures Lexer.Scan(sy, fns, s, 0) == Ok([Num(5.0), Op("+"), Num(3.0), Op("*"), Num(2.0)])
  {
    PrecedenceScanFrom1(sy, fns, s);
    ScanDigit(sy, fns, s, 0, 5.0, [Op("+"), Num(3.0), Op("*"), Num(2.0)], [Num(5.0), Op("+"), Num(3.0), Op("*"), Num(2.0)]);
  }

  lemma GroupingScanFrom6(sy: seq<string>, fns: Items<FunctionKind>, s: string)
    requires "+" in sy && "*" in sy
    requires s == "(5+3)*2"
    ensures Lexer.Scan(sy, fns, s, 6) == Ok([Num(2.0)])
  {
    ScanEnd(sy, fns, s);
    ScanDigit(sy, fns, s, 6, 2.0, [], [Num(2.0)]);
  }

  lemma GroupingScanFrom5(sy: seq<string>, fns: Items<FunctionKind>, s: string)
    requires "+" in sy && "*" in sy
    requires s == "(5+3)*2"
    ensures Lexer.Scan(sy, fns, s, 5) == Ok([Op("*"), Num(2.0)])
  {
    GroupingScanFrom6(sy, fns, s);
    ScanSymbol(sy, fns, s, 5, [Num(2.0)], [Op("*"), Num(2.0)]);
  }

  lemma GroupingScanFrom4(sy: seq<string>, fns: Items<FunctionKind>, s: string)
    requires "+" in sy && "*" in sy
    requires s == "(5+3)*2"
    ensures Lexer.Scan(sy, fns, s, 4) == Ok([RParen, Op("*"), Num(2.0)])
  {
    GroupingScanFrom5(sy, fns, s);
    ScanParen(sy, fns, s, 4, [Op("*"), Num(2.0)], [RParen, Op("*"), Num(2.0)]);
  }

  lemma GroupingScanFrom3(sy: seq<string>, fns: Items<FunctionKind>, s: string)
    requires "+" in sy && "*" in sy
    requires s == "(5+3)*2"
    ensures Lexer.Scan(sy, fns, s, 3) == Ok([Num(3.0), RParen, Op("*"), Num(2.0)])
  {
    GroupingScanFrom4(sy, fns, s);
    ScanDigit(sy, fns, s, 3, 3.0, [RParen, Op("*"), Num(2.0)], [Num(3.0), RParen, Op("*"), Num(2.0)]);
  }

  lemma GroupingScanFrom2(sy: seq<string>, fns: Items<FunctionKind>, s: string)
    requires "+" in sy && "*" in sy
    requires s == "(5+3)*2"
    ensures Lexer.Scan(sy, fns, s, 2) == Ok([Op("+"), Num(3.0), RParen, Op("*"), Num(2.0)])
  {
    GroupingScanFrom3(sy, fns, s);
    ScanSymbol(sy, fns, s, 2, [Num(3.0), RParen, Op("*"), Num(2.0)], [Op("+"), Num(3.0), RParen, Op("*"), Num(2.0)]);
  }

  lemma GroupingScanFrom1(sy: seq<string>, fns: Items<FunctionKind>, s: string)
    requires "+" in sy && "*" in sy
    requires s == "(5+3)*2"
    ensures Lexer.Scan(sy, fns, s, 1) == Ok([Num(5.0), Op("+"), Num(3.0), RParen, Op("*"), Num(2.0)])
  {
    GroupingScanFrom2(sy, fns, s);
    ScanDigit(sy, fns, s, 1, 5.0, [Op("+"), Num(3.0), RParen, Op("*"), Num(2.0)], [Num(5.0), Op("+"), Num(3.0), RParen, Op("*"), Num(2.0)]);
  }

  /** The tokens of `(5+3)*2`. */
  lemma GroupingScan(sy: seq<string>, fns: Items<FunctionKind>, s: string)
    requires "+" in sy && "*" in sy
    requires s == "(5+3)*2"
    ensures Lexer.Scan(sy, fns, s, 0) == Ok([LParen, Num(5.0), Op("+"), Num(3.0), RParen, Op("*"), Num(2.0)])
  {
    GroupingScanFrom1(sy, fns, s);
    ScanParen(sy, fns, s, 0, [Num(5.0), Op("+"), Num(3.0), RParen, Op("*"), Num(2.0)], [LParen, Num(5.0), Op("+"), Num(3.0), RParen, Op("*"), Num(2.0)]);
  }

  lemma LeftAssociativeScanFrom3(sy: seq<string>, fns: Items<FunctionKind>, s: string)
    requires "-" in sy
    requires s == "8-3-2"
    ensures Lexer.Scan(sy, fns, s, 3) == Ok([Op("-"), Num(2.0)])
  {
    ScanEnd(sy, fns, s);
    ScanDigit(sy, fns, s, 4, 2.0, [], [Num(2.0)]);
    ScanSymbol(sy, fns, s, 3, [Num(2.0)], [Op("-"), Num(2.0)]);
  }

  lemma LeftAssociativeScanFrom1(sy: seq<string>, fns: Items<FunctionKind>, s: string)
    requires "-" in sy
    requires s == "8-3-2"
    ensures Lexer.Scan(sy, fns, s, 1) == Ok([Op("-"), Num(3.0), Op("-"), Num(2.0)])
  {
    LeftAssociativeScanFrom3(sy, fns, s);
    ScanDigit(sy, fns, s, 2, 3.0, [Op("-"), Num(2.0)], [Num(3.0), Op("-"), Num(2.0)]);
    ScanSymbol(sy, fns, s, 1, [Num(3.0), Op("-"), Num(2.0)], [Op("-"), Num(3.0), Op("-"), Num(2.0)]);
  }

  /** The tokens of `8-3-2`. */
  lemma LeftAssociativeScan(sy: seq<string>, fns: Items<FunctionKind>, s: string)
    requires "-" in sy
    requires s == "8-3-2"
    ensures Lexer.Scan(sy, fns, s, 0) == Ok([Num(8.0), Op("-"), Num(3.0), Op("-"), Num(2.0)])
  {
    LeftAssociativeScanFrom1(sy, fns, s);
    ScanDigit(sy, fns, s, 0, 8.0, [Op("-"), Num(3.0), Op("-"), Num(2.0)], [Num(8.0), Op("-"), Num(3.0), Op("-"), Num(2.0)]);
  }

  lemma PowerScanFrom1(sy: seq<string>, fns: Items<FunctionKind>, s: string)
    requires "^" in sy
    requires s == "2^3"
    ensures Lexer.Scan(sy, fns, s, 1) == Ok([Op("^"), Num(3.0)])
  {
    ScanEnd(sy, fns, s);
    ScanDigit(sy, fns, s, 2, 3.0, [], [Num(3.0)]);
    ScanSymbol(sy, fns, s, 1, [Num(3.0)], [Op("^"), Num(3.0)]);
  }

  /** The tokens of `2^3`. */
  lemma PowerScan(sy: seq<string>, fns: Items<FunctionKind>, s: string)
    requires "^" in sy
    requires s == "2^3"
    ensures Lexer.Scan(sy, fns, s, 0) == Ok([Num(2.0), Op("^"), Num(3.0)])
  {
    PowerScanFrom1(sy, fns, s);
    ScanDigit(sy, fns, s, 0, 2.0, [Op("^"), Num(3.0)], [Num(2.0), Op("^"), Num(3.0)]);
  }

  lemma RightAssociativeScanFrom3(sy: seq<string>, fns: Items<FunctionKind>, s: string)
    requires "^" in sy
    requires s == "2^3^2"
    ensures Lexer.Scan(sy, fns, s, 3) == Ok([Op("^"), Num(2.0)])
  {
    ScanEnd(sy, fns, s);
    ScanDigit(sy, fns, s, 4, 2.0, [], [Num(2.0)]);
    ScanSymbol(sy, fns, s, 3, [Num(2.0)], [Op("^"), Num(2.0)]);
  }

  lemma RightAssociativeScanFrom1(sy: seq<string>, fns: Items<FunctionKind>, s: string)
    requires "^" in sy
    requires s == "2^3^2"
    ensures Lexer.Scan(sy, fns, s, 1) == Ok([Op("^"), Num(3.0), Op("^"), Num(2.0)])
  {
    RightAssociativeScanFrom3(sy, fns, s);
    ScanDigit(sy, fns, s, 2, 3.0, [Op("^"), Num(2.0)], [Num(3.0), Op("^"), Num(2.0)]);
    ScanSymbol(sy, fns, s, 1, [Num(3.0), Op("^"), Num(2.0)], [Op("^"), Num(3.0), Op("^"), Num(2.0)]);
  }

  /** The tokens of `2^3^2`. */
  lemma RightAssociativeScan(sy: seq<string>, fns: Items<FunctionKind>, s: string)
    requires "^" in sy
    requires s == "2^3^2"
    ensures Lexer.Scan(sy, fns, s, 0) == Ok([Num(2.0), Op("^"), Num(3.0), Op("^"), Num(2.0)])
  {
    RightAssociativeScanFrom1(sy, fns, s);
    ScanDigit(sy, fns, s, 0, 2.0, [Op("^"), Num(3.0), Op("^"), Num(2.0)], [Num(2.0), Op("^"), Num(3.0), Op("^"), Num(2.0)]);
  }

  /** The tokens of `-5`. */
  lemma NegativeScan(sy: seq<string>, fns: Items<FunctionKind>, s: string)
    requires "-" in sy
    requires s == "-5"
    ensures Lexer.Scan(sy, fns, s, 0) == Ok([Op("-"), Num(5.0)])
  {
    ScanEnd(sy, fns, s);
    ScanDigit(sy, fns, s, 1, 5.0, [], [Num(5.0)]);
    ScanSymbol(sy, fns, s, 0, [Num(5.0)], [Op("-"), Num(5.0)]);
  }

  lemma SignedBaseScanFrom2(sy: seq<string>, fns: Items<FunctionKind>, s: string)
    requires "-" in sy && "^" in sy
    requires s == "-2^2"
    ensures Lexer.Scan(sy, fns, s, 2) == Ok([Op("^"), Num(2.0)])
  {
    ScanEnd(sy, fns, s);
    ScanDigit(sy, fns, s, 3, 2.0, [], [Num(2.0)]);
    ScanSymbol(sy, fns, s, 2, [Num(2.0)], [Op("^"), Num(2.0)]);
  }

  /** The tokens of `-2^2`. */
  lemma SignedBaseScan(sy: seq<string>, fns: Items<FunctionKind>, s: string)
    requires "-" in sy && "^" in sy
    requires s == "-2^2"
    ensures Lexer.Scan(sy, fns, s, 0) == Ok([Op("-"), Num(2.0), Op("^"), Num(2.0)])
  {
    SignedBaseScanFrom2(sy, fns, s);
    ScanDigit(sy, fns, s, 1, 2.0, [Op("^"), Num(2.0)], [Num(2.0), Op("^"), Num(2.0)]);
    ScanSymbol(sy, fns, s, 0, [Num(2.0), Op("^"), Num(2.0)], [Op("-"), Num(2.0), Op("^"), Num(2.0)]);
  }

  lemma SquareRootScanFrom5(sy: seq<string>, fns: Items<FunctionKind>, s: string)
    requires "sqrt" in fns.entries
    requires s == "sqrt(9)"
    ensures Lexer.Scan(sy, fns, s, 5) == Ok([Num(9.0), RParen])
  {
    ScanEnd(sy, fns, s);
    ScanParen(sy, fns, s, 6, [], [RParen]);
    ScanDigit(sy, fns, s, 5, 9.0, [RParen], [Num(9.0), RParen]);
  }

  /** The tokens of `sqrt(9)`. */
  lemma SquareRootScan(sy: seq<string>, fns: Items<FunctionKind>, s: string)
    requires "sqrt" in fns.entries
    requires s == "sqrt(9)"
    ensures Lexer.Scan(sy, fns, s, 0) == Ok([Fn("sqrt"), LParen, Num(9.0), RParen])
  {
    SquareRootScanFrom5(sy, fns, s);
    ScanParen(sy, fns, s, 4, [Num(9.0), RParen], [LParen, Num(9.0), RParen]);
    assert s[0..4] == "sqrt";
    ScanName(sy, fns, s, 0, 4, [LParen, Num(9.0), RParen], [Fn("sqrt"), LParen, Num(9.0), RParen]);
  }

  lemma DivideByZeroScanFrom1(sy: seq<string>, fns: Items<FunctionKind>, s: string)
    requires "/" in sy
    requires s == "5/0"
    ensures Lexer.Scan(sy, fns, s, 1) == Ok([Op("/"), Num(0.0)])
  {
    ScanEnd(sy, fns, s);
    ScanDigit(sy, fns, s, 2, 0.0, [], [Num(0.0)]);
    ScanSymbol(sy, fns, s, 1, [Num(0.0)], [Op("/"), Num(0.0)]);
  }

  /** The tokens of `5/0`. */
  lemma DivideByZeroScan(sy: seq<string>, fns: Items<FunctionKind>, s: string)
    requires "/" in sy
    requires s == "5/0"
    ensures Lexer.Scan(sy, fns, s, 0) == Ok([Num(5.0), Op("/"), Num(0.0)])
  {
    DivideByZeroScanFrom1(sy, fns, s);
    ScanDigit(sy, fns, s, 0, 5.0, [Op("/"), Num(0.0)], [Num(5.0), Op("/"), Num(0.0)]);
  }

  lemma NegativeRootScanFrom6(sy: seq<string>, fns: Items<FunctionKind>, s: string)
    requires "-" in sy
    requires "sqrt" in fns.entries
    requires s == "sqrt(-1)"
    ensures Lexer.Scan(sy, fns, s, 6) == Ok([Num(1.0), RParen])
  {
    ScanEnd(sy, fns, s);
    ScanParen(sy, fns, s, 7, [], [RParen]);
    ScanDigit(sy, fns, s, 6, 1.0, [RParen], [Num(1.0), RParen]);
  }

  lemma NegativeRootScanFrom4(sy: seq<string>, fns: Items<FunctionKind>, s: string)
    requires "-" in sy
    requires "sqrt" in fns.entries
    requires s == "sqrt(-1)"
    ensures Lexer.Scan(sy, fns, s, 4) == Ok([LParen, Op("-"), Num(1.0), RParen])
  {
    NegativeRootScanFrom6(sy, fns, s);
    ScanSymbol(sy, fns, s, 5, [Num(1.0), RParen], [Op("-"), Num(1.0), RParen]);
    ScanParen(sy, fns, s, 4, [Op("-"), Num(1.0), RParen], [LParen, Op("-"), Num(1.0), RParen]);
  }

  /** The tokens of `sqrt(-1)`. */
  lemma NegativeRootScan(sy: seq<string>, fns: Items<FunctionKind>, s: string)
    requires "-" in sy
    requires "sqrt" in fns.entries
    requires s == "sqrt(-1)"
    ensures Lexer.Scan(sy, fns, s, 0) == Ok([Fn("sqrt"), LParen, Op("-"), Num(1.0), RParen])
  {
    NegativeRootScanFrom4(sy, fns, s);
    assert s[0..4] == "sqrt";
    ScanName(sy, fns, s, 0, 4, [LParen, Op("-"), Num(1.0), RParen], [Fn("sqrt"), LParen, Op("-"), Num(1.0), RParen]);
  }

  lemma MismatchedScanFrom2(sy: seq<string>, fns: Items<FunctionKind>, s: string)
    requires "+" in sy
    requires s == "(5+3"
    ensures Lexer.Scan(sy, fns, s, 2) == Ok([Op("+"), Num(3.0)])
  {
    ScanEnd(sy, fns, s);
    ScanDigit(sy, fns, s, 3, 3.0, [], [Num(3.0)]);
    ScanSymbol(sy, fns, s, 2, [Num(3.0)], [Op("+"), Num(3.0)]);
  }

  /** The tokens of `(5+3`. */
  lemma MismatchedScan(sy: seq<string>, fns: Items<FunctionKind>, s: string)
    requires "+" in sy
    requires s == "(5+3"
    ensures Lexer.Scan(sy, fns, s, 0) == Ok([LParen, Num(5.0), Op("+"), Num(3.0)])
  {
    MismatchedScanFrom2(sy, fns, s);
    ScanDigit(sy, fns, s, 1, 5.0, [Op("+"), Num(3.0)], [Num(5.0), Op("+"), Num(3.0)]);
    ScanParen(sy, fns, s, 0, [Num(5.0), Op("+"), Num(3.0)], [LParen, Num(5.0), Op("+"), Num(3.0)]);
  }

  lemma AdjacentScanFrom2(sy: seq<string>, fns: Items<FunctionKind>, s: string)
    requires s == "2(3)"
    ensures Lexer.Scan(sy, fns, s, 2) == Ok([Num(3.0), RParen])
  {
    ScanEnd(sy, fns, s);
    ScanParen(sy, fns, s, 3, [], [RParen]);
    ScanDigit(sy, fns, s, 2, 3.0, [RParen], [Num(3.0), RParen]);
  }

  /** The tokens of `2(3)`. */
  lemma AdjacentScan(sy: seq<string>, fns: Items<FunctionKind>, s: string)
    requires s == "2(3)"
    ensures Lexer.Scan(sy, fns, s, 0) == Ok([Num(2.0), LParen, Num(3.0), RParen])
  {
    AdjacentScanFrom2(sy, fns, s);
    ScanParen(sy, fns, s, 1, [Num(3.0), RParen], [LParen, Num(3.0), RParen]);
    ScanDigit(sy, fns, s, 0, 2.0, [LParen, Num(3.0), RParen], [Num(2.0), LParen, Num(3.0), RParen]);
  }

  /** The tokens of `sqrt9`. */
  lemma CallWithoutParenScan(sy: seq<string>, fns: Items<FunctionKind>, s: string)
    requires "sqrt" in fns.entries
    requires s == "sqrt9"
    ensures Lexer.Scan(sy, fns, s, 0) == Ok([Fn("sqrt"), Num(9.0)])
  {
    ScanEnd(sy, fns, s);
    ScanDigit(sy, fns, s, 4, 9.0, [], [Num(9.0)]);
    assert s[0..4] == "sqrt";
    ScanName(sy, fns, s, 0, 4, [Num(9.0)], [Fn("sqrt"), Num(9.0)]);
  }

  lemma SumOfProductScanFrom3(sy: seq<string>, fns: Items<FunctionKind>, s: string)
    requires "+" in sy && "*" in sy
    requires s == "2+3*4"
    ensures Lexer.Scan(sy, fns, s, 3) == Ok([Op("*"), Num(4.0)])
  {
    ScanEnd(sy, fns, s);
    ScanDigit(sy, fns, s, 4, 4.0, [], [Num(4.0)]);
    ScanSymbol(sy, fns, s, 3, [Num(4.0)], [Op("*"), Num(4.0)]);
  }

  lemma SumOfProductScanFrom1(sy: seq<string>, fns: Items<FunctionKind>, s: string)
    requires "+" in sy && "*" in sy
    requires s == "2+3*4"
    ensures Lexer.Scan(sy, fns, s, 1) == Ok([Op("+"), Num(3.0), Op("*"), Num(4.0)])
  {
    SumOfProductScanFrom3(sy, fns, s);
    ScanDigit(sy, fns, s, 2, 3.0, [Op("*"), Num(4.0)], [Num(3.0), Op("*"), Num(4.0)]);
    ScanSymbol(sy, fns, s, 1, [Num(3.0), Op("*"), Num(4.0)], [Op("+"), Num(3.0), Op("*"), Num(4.0)]);
  }

  /** The tokens of `2+3*4`. */
  lemma SumOfProductScan(sy: seq<string>, fns: Items<FunctionKind>, s: string)
    requires "+" in sy && "*" in sy
    requires s == "2+3*4"
    ensures Lexer.Scan(sy, fns, s, 0) == Ok([Num(2.0), Op("+"), Num(3.0), Op("*"), Num(4.0)])
  {
    SumOfProductScanFrom1(sy, fns, s);
    ScanDigit(sy, fns, s, 0, 2.0, [Op("+"), Num(3.0), Op("*"), Num(4.0)], [Num(2.0), Op("+"), Num(3.0), Op("*"), Num(4.0)]);
  }

  lemma ProductOfSumScanFrom6(sy: seq<string>, fns: Items<FunctionKind>, s: string)
    requires "+" in sy && "*" in sy
    requires s == "(2+3)*4"
    ensures Lexer.Scan(sy, fns, s, 6) == Ok([Num(4.0)])
  {
    ScanEnd(sy, fns, s);
    ScanDigit(sy, fns, s, 6, 4.0, [], [Num(4.0)]);
  }

  lemma ProductOfSumScanFrom5(sy: seq<string>, fns: Items<FunctionKind>, s: string)
    requires "+" in sy && "*" in sy
    requires s == "(2+3)*4"
    ensures Lexer.Scan(sy, fns, s, 5) == Ok([Op("*"), Num(4.0)])
  {
    ProductOfSumScanFrom6(sy, fns, s);
    ScanSymbol(sy, fns, s, 5, [Num(4.0)], [Op("*"), Num(4.0)]);
  }

  lemma ProductOfSumScanFrom4(sy: seq<string>, fns: Items<FunctionKind>, s: string)
    requires "+" in sy && "*" in sy
    requires s == "(2+3)*4"
    ensures Lexer.Scan(sy, fns, s, 4) == Ok([RParen, Op("*"), Num(4.0)])
  {
    ProductOfSumScanFrom5(sy, fns, s);
    ScanParen(sy, fns, s, 4, [Op("*"), Num(4.0)], [RParen, Op("*"), Num(4.0)]);
  }

  lemma ProductOfSumScanFrom3(sy: seq<string>, fns: Items<FunctionKind>, s: string)
    requires "+" in sy && "*" in sy
    requires s == "(2+3)*4"
    ensures Lexer.Scan(sy, fns, s, 3) == Ok([Num(3.0), RParen, Op("*"), Num(4.0)])
  {
    ProductOfSumScanFrom4(sy, fns, s);
    ScanDigit(sy, fns, s, 3, 3.0, [RParen, Op("*"), Num(4.0)], [Num(3.0), RParen, Op("*"), Num(4.0)]);
  }

  lemma ProductOfSumScanFrom2(sy: seq<string>, fns: Items<FunctionKind>, s: string)
    requires "+" in sy && "*" in sy
    requires s == "(2+3)*4"
    ensures Lexer.Scan(sy, fns, s, 2) == Ok([Op("+"), Num(3.0), RParen, Op("*"), Num(4.0)])
  {
    ProductOfSumScanFrom3(sy, fns, s);
    ScanSymbol(sy, fns, s, 2, [Num(3.0), RParen, Op("*"), Num(4.0)], [Op("+"), Num(3.0), RParen, Op("*"), Num(4.0)]);
  }

  lemma ProductOfSumScanFrom1(sy: seq<string>, fns: Items<FunctionKind>, s: string)
    requires "+" in sy && "*" in sy
    requires s == "(2+3)*4"
    ensures Lexer.Scan(sy, fns, s, 1) == Ok([Num(2.0), Op("+"), Num(3.0), RParen, Op("*"), Num(4.0)])
  {
    ProductOfSumScanFrom2(sy, fns, s);
    ScanDigit(sy, fns, s, 1, 2.0, [Op("+"), Num(3.0), RParen, Op("*"), Num(4.0)], [Num(2.0), Op("+"), Num(3.0), RParen, Op("*"), Num(4.0)]);
  }

  /** The tokens of `(2+3)*4`. */
  lemma ProductOfSumScan(sy: seq<string>, fns: Items<FunctionKind>, s: string)
    requires "+" in sy && "*" in sy
    requires s == "(2+3)*4"
    ensures Lexer.Scan(sy, fns, s, 0) == Ok([LParen, Num(2.0), Op("+"), Num(3.0), RParen, Op("*"), Num(4.0)])
  {
    ProductOfSumScanFrom1(sy, fns, s);
    ScanParen(sy, fns, s, 0, [Num(2.0), Op("+"), Num(3.0), RParen, Op("*"), Num(4.0)], [LParen, Num(2.0), Op("+"), Num(3.0), RParen, Op("*"), Num(4.0)]);
  }
}
