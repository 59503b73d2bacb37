/** The normalised forms of the texts the worked cases start from. Each is proved by
    splitting the text at its spaces and upper-case letters rather than by unfolding
    `Normalize` over the whole literal. */
module CaseTexts {
  import Normalize

  /** A text with no trim character at either end is only lower-cased and stripped of spaces. */
  lemma NormalizeUntrimmed(s: string)
    requires s != [] && !Normalize.IsTrimSpace(s[0]) && !Normalize.IsTrimSpace(s[|s| - 1])
    ensures Normalize.Normalize(s) == Normalize.RemoveSpaces(Normalize.Lower(s))
  {
    assert Normalize.TrimStart(s) == s;
    assert Normalize.TrimEnd(s) == s;
  }

  lemma LowerJoin(c: char, b: string, t: string)
    requires Normalize.Lower(b) == t
    ensures Normalize.Lower([c] + b) == [Normalize.LowerChar(c)] + t
  {
    Normalize.LowerConcat([c], b);
  }

  lemma RemoveSpacesJoin(a: string, b: string, t: string)
    requires ' ' !in a && Normalize.RemoveSpaces(b) == t
    ensures Normalize.RemoveSpaces(a + " " + b) == a + t
  {
    Normalize.RemoveSpacesConcat(a + " ", b);
    Normalize.RemoveSpacesConcat(a, " ");
    Normalize.RemoveSpacesFixed(a);
    assert Normalize.RemoveSpaces(" ") == [];
  }

  /** One character of `RemoveSpaces`, at index `i`. */
  lemma SpacesStep(s: string, i: nat, rest: string)
    requires i < |s| && Normalize.RemoveSpaces(s[i + 1..]) == rest
    ensures Normalize.RemoveSpaces(s[i..]) == (if s[i] == ' ' then rest else [s[i]] + rest)
  {
    assert s[i..][1..] == s[i + 1..];
  }

  lemma AddCaseText(s: string)
    requires s == "5 + 3"
    ensures Normalize.Normalize(s) == "5+3"
  {
    NormalizeUntrimmed(s);
    Normalize.LowerFixed(s);
    Normalize.RemoveSpacesFixed("3");
    RemoveSpacesJoin("+", "3", "3");
    assert "+" + " " + "3" == "+ 3";
    RemoveSpacesJoin("5", "+ 3", "+3");
    assert "5" + " " + "+ 3" == "5 + 3";
    assert "5" + "+3" == "5+3";
  }

  lemma SubtractCaseText(s: string)
    requires s == "5 - 3"
    ensures Normalize.Normalize(s) == "5-3"
  {
    NormalizeUntrimmed(s);
    Normalize.LowerFixed(s);
    Normalize.RemoveSpacesFixed("3");
    RemoveSpacesJoin("-", "3", "3");
    assert "-" + " " + "3" == "- 3";
    RemoveSpacesJoin("5", "- 3", "-3");
    assert "5" + " " + "- 3" == "5 - 3";
    assert "5" + "-3" == "5-3";
  }

  lemma MultiplyCaseText(s: string)
    requires s == "5 * 3"
    ensures Normalize.Normalize(s) == "5*3"
  {
    NormalizeUntrimmed(s);
    Normalize.LowerFixed(s);
    Normalize.RemoveSpacesFixed("3");
    RemoveSpacesJoin("*", "3", "3");
    assert "*" + " " + "3" == "* 3";
    RemoveSpacesJoin("5", "* 3", "*3");
    assert "5" + " " + "* 3" == "5 * 3";
    assert "5" + "*3" == "5*3";
  }

  lemma DivideCaseText(s: string)
    requires s == "6 / 3"
    ensures Normalize.Normalize(s) == "6/3"
  {
    NormalizeUntrimmed(s);
    Normalize.LowerFixed(s);
    Normalize.RemoveSpacesFixed("3");
    RemoveSpacesJoin("/", "3", "3");
    assert "/" + " " + "3" == "/ 3";
    RemoveSpacesJoin("6", "/ 3", "/3");
    assert "6" + " " + "/ 3" == "6 / 3";
    assert "6" + "/3" == "6/3";
  }

  lemma RemainderCaseText(s: string)
    requires s == "10 % 3"
    ensures Normalize.Normalize(s) == "10%3"
  {
    NormalizeUntrimmed(s);
    Normalize.LowerFixed(s);
    Normalize.RemoveSpacesFixed("3");
    RemoveSpacesJoin("%", "3", "3");
    assert "%" + " " + "3" == "% 3";
    RemoveSpacesJoin("10", "% 3", "%3");
    assert "10" + " " + "% 3" == "10 % 3";
    assert "10" + "%3" == "10%3";
  }

  lemma DecimalCaseText(s: string)
    requires s == "5.5 + 2"
    ensures Normalize.Normalize(s) == "5.5+2"
  {
    NormalizeUntrimmed(s);
    Normalize.LowerFixed(s);
    Normalize.RemoveSpacesFixed("2");
    RemoveSpacesJoin("+", "2", "2");
    assert "+" + " " + "2" == "+ 2";
    RemoveSpacesJoin("5.5", "+ 2", "+2");
    assert "5.5" + " " + "+ 2" == "5.5 + 2";
    assert "5.5" + "+2" == "5.5+2";
  }

  lemma PrecedenceSpacesFrom6(s: string)
    requires |s| == 9 && s[0] == '5' && s[1] == ' ' && s[2] == '+' && s[3] == ' ' && s[4] == '3'
    requires s[5] == ' ' && s[6] == '*' && s[7] == ' ' && s[8] == '2'
    ensures Normalize.RemoveSpaces(s[6..]) == "*2"
  {
    assert s[9..] == [];
    SpacesStep(s, 8, "");
    SpacesStep(s, 7, "2");
    SpacesStep(s, 6, "2");
  }

  lemma PrecedenceSpacesFrom3(s: string)
    requires |s| == 9 && s[0] == '5' && s[1] == ' ' && s[2] == '+' && s[3] == ' ' && s[4] == '3'
    requires s[5] == ' ' && s[6] == '*' && s[7] == ' ' && s[8] == '2'
    ensures Normalize.RemoveSpaces(s[3..]) == "3*2"
  {
    PrecedenceSpacesFrom6(s);
    SpacesStep(s, 5, "*2");
    SpacesStep(s, 4, "*2");
    SpacesStep(s, 3, "3*2");
  }

  lemma PrecedenceSpaces(s: string)
    requires |s| == 9 && s[0] == '5' && s[1] == ' ' && s[2] == '+' && s[3] == ' ' && s[4] == '3'
    requires s[5] == ' ' && s[6] == '*' && s[7] == ' ' && s[8] == '2'
    ensures Normalize.RemoveSpaces(s[0..]) == "5+3*2"
  {
    PrecedenceSpacesFrom3(s);
    SpacesStep(s, 2, "3*2");
    SpacesStep(s, 1, "+3*2");
    SpacesStep(s, 0, "+3*2");
  }

  lemma PrecedenceCaseText(s: string)
    requires s == "5 + 3 * 2"
    ensures Normalize.Normalize(s) == "5+3*2"
  {
    NormalizeUntrimmed(s);
    Normalize.LowerFixed(s);
    PrecedenceSpaces(s);
    assert s[0..] == s;
  }

  lemma GroupingSpacesFrom8(s: string)
    requires |s| == 11 && s[0] == '(' && s[1] == '5' && s[2] == ' ' && s[3] == '+' && s[4] == ' '
    requires s[5] == '3' && s[6] == ')' && s[7] == ' ' && s[8] == '*' && s[9] == ' ' && s[10] == '2'
    ensures Normalize.RemoveSpaces(s[8..]) == "*2"
  {
    assert s[11..] == [];
    SpacesStep(s, 10, "");
    SpacesStep(s, 9, "2");
    SpacesStep(s, 8, "2");
  }

  lemma GroupingSpacesFrom5(s: string)
    requires |s| == 11 && s[0] == '(' && s[1] == '5' && s[2] == ' ' && s[3] == '+' && s[4] == ' '
    requires s[5] == '3' && s[6] == ')' && s[7] == ' ' && s[8] == '*' && s[9] == ' ' && s[10] == '2'
    ensures Normalize.RemoveSpaces(s[5..]) == "3)*2"
  {
    GroupingSpacesFrom8(s);
    SpacesStep(s, 7, "*2");
    SpacesStep(s, 6, "*2");
    SpacesStep(s, 5, ")*2");
  }

  lemma GroupingSpacesFrom2(s: string)
    requires |s| == 11 && s[0] == '(' && s[1] == '5' && s[2] == ' ' && s[3] == '+' && s[4] == ' '
    requires s[5] == '3' && s[6] == ')' && s[7] == ' ' && s[8] == '*' && s[9] == ' ' && s[10] == '2'
    ensures Normalize.RemoveSpaces(s[2..]) == "+3)*2"
  {
    GroupingSpacesFrom5(s);
    SpacesStep(s, 4, "3)*2");
    SpacesStep(s, 3, "3)*2");
    SpacesStep(s, 2, "+3)*2");
  }

  lemma GroupingSpaces(s: string)
    requires |s| == 11 && s[0] == '(' && s[1] == '5' && s[2] == ' ' && s[3] == '+' && s[4] == ' '
    requires s[5] == '3' && s[6] == ')' && s[7] == ' ' && s[8] == '*' && s[9] == ' ' && s[10] == '2'
    ensures Normalize.RemoveSpaces(s[0..]) == "(5+3)*2"
  {
    GroupingSpacesFrom2(s);
    SpacesStep(s, 1, "+3)*2");
    SpacesStep(s, 0, "5+3)*2");
  }

  lemma GroupingCaseText(s: string)
    requires s == "(5 + 3) * 2"
    ensures Normalize.Normalize(s) == "(5+3)*2"
  {
    NormalizeUntrimmed(s);
    Normalize.LowerFixed(s);
    GroupingSpaces(s);
    assert s[0..] == s;
  }

  lemma LeftAssociativeSpacesFrom6(s: string)
    requires |s| == 9 && s[0] == '8' && s[1] == ' ' && s[2] == '-' && s[3] == ' ' && s[4] == '3'
    requires s[5] == ' ' && s[6] == '-' && s[7] == ' ' && s[8] == '2'
    ensures Normalize.RemoveSpaces(s[6..]) == "-2"
  {
    assert s[9..] == [];
    SpacesStep(s, 8, "");
    SpacesStep(s, 7, "2");
    SpacesStep(s, 6, "2");
  }

  lemma LeftAssociativeSpacesFrom3(s: string)
    requires |s| == 9 && s[0] == '8' && s[1] == ' ' && s[2] == '-' && s[3] == ' ' && s[4] == '3'
    requires s[5] == ' ' && s[6] == '-' && s[7] == ' ' && s[8] == '2'
    ensures Normalize.RemoveSpaces(s[3..]) == "3-2"
  {
    LeftAssociativeSpacesFrom6(s);
    SpacesStep(s, 5, "-2");
    SpacesStep(s, 4, "-2");
    SpacesStep(s, 3, "3-2");
  }

  lemma LeftAssociativeSpaces(s: string)
    requires |s| == 9 && s[0] == '8' && s[1] == ' ' && s[2] == '-' && s[3] == ' ' && s[4] == '3'
    requires s[5] == ' ' && s[6] == '-' && s[7] == ' ' && s[8] == '2'
    ensures Normalize.RemoveSpaces(s[0..]) == "8-3-2"
  {
    LeftAssociativeSpacesFrom3(s);
    SpacesStep(s, 2, "3-2");
    SpacesStep(s, 1, "-3-2");
    SpacesStep(s, 0, "-3-2");
  }

  lemma LeftAssociativeCaseText(s: string)
    requires s == "8 - 3 - 2"
    ensures Normalize.Normalize(s) == "8-3-2"
  {
    NormalizeUntrimmed(s);
    Normalize.LowerFixed(s);
    LeftAssociativeSpaces(s);
    assert s[0..] == s;
  }

  lemma PowerCaseText(s: string)
    requires s == "2 ^ 3"
    ensures Normalize.Normalize(s) == "2^3"
  {
    NormalizeUntrimmed(s);
    Normalize.LowerFixed(s);
    Normalize.RemoveSpacesFixed("3");
    RemoveSpacesJoin("^", "3", "3");
    assert "^" + " " + "3" == "^ 3";
    RemoveSpacesJoin("2", "^ 3", "^3");
    assert "2" + " " + "^ 3" == "2 ^ 3";
    assert "2" + "^3" == "2^3";
  }

  lemma RightAssociativeSpacesFrom6(s: string)
    requires |s| == 9 && s[0] == '2' && s[1] == ' ' && s[2] == '^' && s[3] == ' ' && s[4] == '3'
    requires s[5] == ' ' && s[6] == '^' && s[7] == ' ' && s[8] == '2'
    ensures Normalize.RemoveSpaces(s[6..]) == "^2"
  {
    assert s[9..] == [];
    SpacesStep(s, 8, "");
    SpacesStep(s, 7, "2");
    SpacesStep(s, 6, "2");
  }

  lemma RightAssociativeSpacesFrom3(s: string)
    requires |s| == 9 && s[0] == '2' && s[1] == ' ' && s[2] == '^' && s[3] == ' ' && s[4] == '3'
    requires s[5] == ' ' && s[6] == '^' && s[7] == ' ' && s[8] == '2'
    ensures Normalize.RemoveSpaces(s[3..]) == "3^2"
  {
    RightAssociativeSpacesFrom6(s);
    SpacesStep(s, 5, "^2");
    SpacesStep(s, 4, "^2");
    SpacesStep(s, 3, "3^2");
  }

  lemma RightAssociativeSpaces(s: string)
    requires |s| == 9 && s[0] == '2' && s[1] == ' ' && s[2] == '^' && s[3] == ' ' && s[4] == '3'
    requires s[5] == ' ' && s[6] == '^' && s[7] == ' ' && s[8] == '2'
    ensures Normalize.RemoveSpaces(s[0..]) == "2^3^2"
  {
    RightAssociativeSpacesFrom3(s);
    SpacesStep(s, 2, "3^2");
    SpacesStep(s, 1, "^3^2");
    SpacesStep(s, 0, "^3^2");
  }

  lemma RightAssociativeCaseText(s: string)
    requires s == "2 ^ 3 ^ 2"
    ensures Normalize.Normalize(s) == "2^3^2"
  {
    NormalizeUntrimmed(s);
    Normalize.LowerFixed(s);
    RightAssociativeSpaces(s);
    assert s[0..] == s;
  }

  lemma NegativeCaseText(s: string)
    requires s == "-5"
    ensures Normalize.Normalize(s) == "-5"
  {
    NormalizeUntrimmed(s);
    Normalize.LowerFixed(s);
    Normalize.RemoveSpacesFixed(s);
  }

  lemma SignedBaseCaseText(s: string)
    requires s == "-2^2"
    ensures Normalize.Normalize(s) == "-2^2"
  {
    NormalizeUntrimmed(s);
    Normalize.LowerFixed(s);
    Normalize.RemoveSpacesFixed(s);
  }

  lemma SquareRootCaseText(s: string)
    requires s == "SQRT(9)"
    ensures Normalize.Normalize(s) == "sqrt(9)"
  {
    NormalizeUntrimmed(s);
    var low := Normalize.Lower(s);
    Normalize.LowerShape(s);
    assert low[0] == 's' && low[1] == 'q' && low[2] == 'r' && low[3] == 't';
    assert low == "sqrt(9)";
    Normalize.RemoveSpacesFixed(low);
  }

  lemma DivideByZeroCaseText(s: string)
    requires s == "5 / 0"
    ensures Normalize.Normalize(s) == "5/0"
  {
    NormalizeUntrimmed(s);
    Normalize.LowerFixed(s);
    Normalize.RemoveSpacesFixed("0");
    RemoveSpacesJoin("/", "0", "0");
    assert "/" + " " + "0" == "/ 0";
    RemoveSpacesJoin("5", "/ 0", "/0");
    assert "5" + " " + "/ 0" == "5 / 0";
    assert "5" + "/0" == "5/0";
  }

  lemma NegativeRootCaseText(s: string)
    requires s == "sqrt(-1)"
    ensures Normalize.Normalize(s) == "sqrt(-1)"
  {
    NormalizeUntrimmed(s);
    Normalize.LowerFixed(s);
    Normalize.RemoveSpacesFixed(s);
  }

  lemma MismatchedCaseText(s: string)
    requires s == "(5 + 3"
    ensures Normalize.Normalize(s) == "(5+3"
  {
    NormalizeUntrimmed(s);
    Normalize.LowerFixed(s);
    Normalize.RemoveSpacesFixed("3");
    RemoveSpacesJoin("+", "3", "3");
    assert "+" + " " + "3" == "+ 3";
    RemoveSpacesJoin("(5", "+ 3", "+3");
    assert "(5" + " " + "+ 3" == "(5 + 3";
    assert "(5" + "+3" == "(5+3";
  }

  lemma UnknownFunctionCaseText(s: string)
    requires s == "unknown(5)"
    ensures Normalize.Normalize(s) == "unknown(5)"
  {
    NormalizeUntrimmed(s);
    Normalize.LowerFixed(s);
    Normalize.RemoveSpacesFixed(s);
  }

  lemma JoinedNamesCaseText(s: string)
    requires s == "sqrtabs(4)"
    ensures Normalize.Normalize(s) == "sqrtabs(4)"
  {
    NormalizeUntrimmed(s);
    Normalize.LowerFixed(s);
    Normalize.RemoveSpacesFixed(s);
  }

  lemma TabCaseText(s: string)
    requires s == "5\t+3"
    ensures Normalize.Normalize(s) == "5\t+3"
  {
    NormalizeUntrimmed(s);
    Normalize.LowerFixed(s);
    Normalize.RemoveSpacesFixed(s);
  }

  lemma TwoPointsCaseText(s: string)
    requires s == "1.2.3"
    ensures Normalize.Normalize(s) == "1.2.3"
  {
    NormalizeUntrimmed(s);
    Normalize.LowerFixed(s);
    Normalize.RemoveSpacesFixed(s);
  }

  lemma LonePointCaseText(s: string)
    requires s == "."
    ensures Normalize.Normalize(s) == "."
  {
    NormalizeUntrimmed(s);
    Normalize.LowerFixed(s);
    Normalize.RemoveSpacesFixed(".");
  }

  lemma AdjacentCaseText(s: string)
    requires s == "2(3)"
    ensures Normalize.Normalize(s) == "2(3)"
  {
    NormalizeUntrimmed(s);
    Normalize.LowerFixed(s);
    Normalize.RemoveSpacesFixed(s);
  }

  lemma CallWithoutParenCaseText(s: string)
    requires s == "sqrt 9"
    ensures Normalize.Normalize(s) == "sqrt9"
  {
    NormalizeUntrimmed(s);
    Normalize.LowerFixed(s);
    Normalize.RemoveSpacesFixed("9");
    RemoveSpacesJoin("sqrt", "9", "9");
    assert "sqrt" + " " + "9" == "sqrt 9";
    assert "sqrt" + "9" == "sqrt9";
  }

  lemma StrayTokenCaseText(s: string)
    requires s == ")"
    ensures Normalize.Normalize(s) == ")"
  {
    NormalizeUntrimmed(s);
    Normalize.LowerFixed(s);
    Normalize.RemoveSpacesFixed(")");
  }

  lemma SumOfProductSpacesFrom6(s: string)
    requires |s| == 9 && s[0] == '2' && s[1] == ' ' && s[2] == '+' && s[3] == ' ' && s[4] == '3'
    requires s[5] == ' ' && s[6] == '*' && s[7] == ' ' && s[8] == '4'
    ensures Normalize.RemoveSpaces(s[6..]) == "*4"
  {
    assert s[9..] == [];
    SpacesStep(s, 8, "");
    SpacesStep(s, 7, "4");
    SpacesStep(s, 6, "4");
  }

  lemma SumOfProductSpacesFrom3(s: string)
    requires |s| == 9 && s[0] == '2' && s[1] == ' ' && s[2] == '+' && s[3] == ' ' && s[4] == '3'
    requires s[5] == ' ' && s[6] == '*' && s[7] == ' ' && s[8] == '4'
    ensures Normalize.RemoveSpaces(s[3..]) == "3*4"
  {
    SumOfProductSpacesFrom6(s);
    SpacesStep(s, 5, "*4");
    SpacesStep(s, 4, "*4");
    SpacesStep(s, 3, "3*4");
  }

  lemma SumOfProductSpaces(s: string)
    requires |s| == 9 && s[0] == '2' && s[1] == ' ' && s[2] == '+' && s[3] == ' ' && s[4] == '3'
    requires s[5] == ' ' && s[6] == '*' && s[7] == ' ' && s[8] == '4'
    ensures Normalize.RemoveSpaces(s[0..]) == "2+3*4"
  {
    SumOfProductSpacesFrom3(s);
    SpacesStep(s, 2, "3*4");
    SpacesStep(s, 1, "+3*4");
    SpacesStep(s, 0, "+3*4");
  }

  lemma SumOfProductCaseText(s: string)
    requires s == "2 + 3 * 4"
    ensures Normalize.Normalize(s) == "2+3*4"
  {
    NormalizeUntrimmed(s);
    Normalize.LowerFixed(s);
    SumOfProductSpaces(s);
    assert s[0..] == s;
  }

  lemma ProductOfSumSpacesFrom8(s: string)
    requires |s| == 11 && s[0] == '(' && s[1] == '2' && s[2] == ' ' && s[3] == '+' && s[4] == ' '
    requires s[5] == '3' && s[6] == ')' && s[7] == ' ' && s[8] == '*' && s[9] == ' ' && s[10] == '4'
    ensures Normalize.RemoveSpaces(s[8..]) == "*4"
  {
    assert s[11..] == [];
    SpacesStep(s, 10, "");
    SpacesStep(s, 9, "4");
    SpacesStep(s, 8, "4");
  }

  lemma ProductOfSumSpacesFrom5(s: string)
    requires |s| == 11 && s[0] == '(' && s[1] == '2' && s[2] == ' ' && s[3] == '+' && s[4] == ' '
    requires s[5] == '3' && s[6] == ')' && s[7] == ' ' && s[8] == '*' && s[9] == ' ' && s[10] == '4'
    ensures Normalize.RemoveSpaces(s[5..]) == "3)*4"
  {
    ProductOfSumSpacesFrom8(s);
    SpacesStep(s, 7, "*4");
    SpacesStep(s, 6, "*4");
    SpacesStep(s, 5, ")*4");
  }

  lemma ProductOfSumSpacesFrom2(s: string)
    requires |s| == 11 && s[0] == '(' && s[1] == '2' && s[2] == ' ' && s[3] == '+' && s[4] == ' '
    requires s[5] == '3' && s[6] == ')' && s[7] == ' ' && s[8] == '*' && s[9] == ' ' && s[10] == '4'
    ensures Normalize.RemoveSpaces(s[2..]) == "+3)*4"
  {
    ProductOfSumSpacesFrom5(s);
    SpacesStep(s, 4, "3)*4");
    SpacesStep(s, 3, "3)*4");
    SpacesStep(s, 2, "+3)*4");
  }

  lemma ProductOfSumSpaces(s: string)
    requires |s| == 11 && s[0] == '(' && s[1] == '2' && s[2] == ' ' && s[3] == '+' && s[4] == ' '
    requires s[5] == '3' && s[6] == ')' && s[7] == ' ' && s[8] == '*' && s[9] == ' ' && s[10] == '4'
    ensures Normalize.RemoveSpaces(s[0..]) == "(2+3)*4"
  {
    ProductOfSumSpacesFrom2(s);
    SpacesStep(s, 1, "+3)*4");
    SpacesStep(s, 0, "2+3)*4");
  }

  lemma ProductOfSumCaseText(s: string)
    requires s == "(2 + 3) * 4"
    ensures Normalize.Normalize(s) == "(2+3)*4"
  {
    NormalizeUntrimmed(s);
    Normalize.LowerFixed(s);
    ProductOfSumSpaces(s);
    assert s[0..] == s;
  }
}
