/** The token stream `tokenize` produces (app/Services/ExpressionParser.php:59-123), as a
    function of the normalised text. The parser's `Tokenize` method computes it with the
    source's loops and is proved equal to `Tokenize` here. */
module Lexer {
  import opened Wrappers
  import opened TokenTypes
  import opened Tokens
  import opened ParseErrors
  import opened Registries
  import opened Functions

  /** `ctype_digit` on one character. */
  predicate IsDigit(c: char)
  {
    '0' <= c <= '9'
  }

  /** `ctype_alpha` on one character in the C locale: an ASCII letter of either case. */
  predicate IsAlpha(c: char)
  {
    'a' <= c <= 'z' || 'A' <= c <= 'Z'
  }

  /** The two kinds of run the scanner collects character by character. */
  datatype RunKind = NumberRun | NameRun

  predicate InRun(k: RunKind, c: char)
  {
    match k
    case NumberRun => IsDigit(c) || c == '.'
    case NameRun => IsAlpha(c)
  }

  /** Where the run of kind `k` starting at `i` stops: the first index at or after `i` whose
      character does not belong to the run. */
  function RunEnd(s: string, i: nat, k: RunKind): (j: nat)
    requires i <= |s|
    ensures i <= j <= |s|
    ensures forall m :: i <= m < j ==> InRun(k, s[m])
    ensures j == |s| || !InRun(k, s[j])
    decreases |s| - i
  {
    if i < |s| && InRun(k, s[i]) then RunEnd(s, i + 1, k) else i
  }

  function CountDots(s: string): (n: nat)
    ensures n <= |s|
  {
    if s == [] then 0 else (if s[0] == '.' then 1 else 0) + CountDots(s[1..])
  }

  function DigitValue(c: char): nat
  {
    if IsDigit(c) then c as nat - '0' as nat else 0
  }

  /** The value of a string of decimal digits. */
  function DigitsValue(ds: string): nat
  {
    if ds == [] then 0 else 10 * DigitsValue(ds[..|ds| - 1]) + DigitValue(ds[|ds| - 1])
  }

  function Pow10(k: nat): (r: nat)
    ensures r >= 1
  {
    if k == 0 then 1 else 10 * Pow10(k - 1)
  }

  /** Index of the first '.' in `s`, or `|s|` when there is none. */
  function DotIndex(s: string): (d: nat)
    ensures d <= |s|
    ensures forall m :: 0 <= m < d ==> s[m] != '.'
    ensures d < |s| ==> s[d] == '.'
  {
    if s == [] || s[0] == '.' then 0 else 1 + DotIndex(s[1..])
  }

  /** `(float) $number` for a run of digits with at most one '.', taken exactly: the digits
      before the point plus the digits after it over the matching power of ten. A lone "."
      is 0. */
  function DecimalValue(run: string): (x: real)
    ensures x >= 0.0
  {
    var d := DotIndex(run);
    var frac := if d < |run| then run[d + 1..] else [];
    DigitsValue(run[..d]) as real + DigitsValue(frac) as real / Pow10(|frac|) as real
  }

  /** A token as the scanner builds it: numbers carry a float, every other kind carries its
      text; function names are registered and operators are registered symbols. */
  predicate WellFormedToken(symbols: seq<string>, functions: Items<FunctionKind>, t: Token)
  {
    match t.kind
    case Number => t.value.Float? && t.value.x >= 0.0
    case Function => t.value.Text? && t.value.s in functions.entries
    case Operator => t.value.Text? && t.value.s in symbols && |t.value.s| == 1
    case LeftParen => t.value == Text("(")
    case RightParen => t.value == Text(")")
  }

  predicate WellFormedTokens(symbols: seq<string>, functions: Items<FunctionKind>, ts: seq<Token>)
  {
    forall t :: t in ts ==> WellFormedToken(symbols, functions, t)
  }

  /** The tokens of `s` from index `i` on, or the error the scan stops at. The branches are
      tried in the order of the source's loop body. */
  function Scan(symbols: seq<string>, functions: Items<FunctionKind>, s: string, i: nat): Result<seq<Token>, ParseError>
    requires i <= |s|
    decreases |s| - i
  {
    if i == |s| then Ok([])
    else
      var c := s[i];
      if InRun(NumberRun, c) then
        var j := RunEnd(s, i, NumberRun);
        var run := s[i..j];
        if CountDots(run) > 1 then Err(InvalidSyntax("Invalid number: " + run))
        else
          var rest :- Scan(symbols, functions, s, j);
          Ok([Token(Number, Float(DecimalValue(run)))] + rest)
      else if InRun(NameRun, c) then
        var j := RunEnd(s, i, NameRun);
        var run := s[i..j];
        if run !in functions.entries then Err(UnknownFunction(run))
        else
          var rest :- Scan(symbols, functions, s, j);
          Ok([Token(Function, Text(run))] + rest)
      else if c == '(' then
        var rest :- Scan(symbols, functions, s, i + 1);
        Ok([Token(LeftParen, Text("("))] + rest)
      else if c == ')' then
        var rest :- Scan(symbols, functions, s, i + 1);
        Ok([Token(RightParen, Text(")"))] + rest)
      else if [c] in symbols then
        var rest :- Scan(symbols, functions, s, i + 1);
        Ok([Token(Operator, Text([c]))] + rest)
      else
        Err(InvalidSyntax("Unexpected character: " + [c]))
  }

  /** `tokenize($expression)` with the registry's symbols and functions. */
  function Tokenize(symbols: seq<string>, functions: Items<FunctionKind>, s: string): Result<seq<Token>, ParseError>
  {
    Scan(symbols, functions, s, 0)
  }

  /** The error a scan can stop at, at index `k` of `s`: a run with two or more points, a
      letter run that names no registered function, or a character no branch accepts. */
  ghost predicate ErrorAt(symbols: seq<string>, functions: Items<FunctionKind>, s: string, k: nat, e: ParseError)
    requires k < |s|
  {
    var c := s[k];
    if InRun(NumberRun, c) then
      var run := s[k..RunEnd(s, k, NumberRun)];
      CountDots(run) > 1 && e == InvalidSyntax("Invalid number: " + run)
    else if InRun(NameRun, c) then
      var run := s[k..RunEnd(s, k, NameRun)];
      run !in functions.entries && e == UnknownFunction(run)
    else
      c != '(' && c != ')' && [c] !in symbols && e == InvalidSyntax("Unexpected character: " + [c])
  }

  /** Index `k` is where a token can start in a scan begun at `i`: no run spans `k - 1`
      and `k`. */
  predicate TokenStart(s: string, i: nat, k: nat)
    requires i <= k < |s|
  {
    k == i || !((InRun(NumberRun, s[k - 1]) && InRun(NumberRun, s[k])) || (InRun(NameRun, s[k - 1]) && InRun(NameRun, s[k])))
  }

  /** Every token the scan emits is well formed. */
  lemma {:induction false} ScanWellFormed(symbols: seq<string>, functions: Items<FunctionKind>, s: string, i: nat)
    requires i <= |s|
    ensures Scan(symbols, functions, s, i).Ok? ==> WellFormedTokens(symbols, functions, Scan(symbols, functions, s, i).value)
    decreases |s| - i
  {
    if i < |s| {
      var c := s[i];
      if InRun(NumberRun, c) {
        ScanWellFormed(symbols, functions, s, RunEnd(s, i, NumberRun));
      } else if InRun(NameRun, c) {
        ScanWellFormed(symbols, functions, s, RunEnd(s, i, NameRun));
      } else {
        ScanWellFormed(symbols, functions, s, i + 1);
      }
    }
  }

  /** No token start from `i` up to `k` (exclusive) carries a scan error. */
  ghost predicate NoErrorBefore(symbols: seq<string>, functions: Items<FunctionKind>, s: string, i: nat, k: nat)
    requires k <= |s|
  {
    forall m, e :: i <= m < k && TokenStart(s, i, m) ==> !ErrorAt(symbols, functions, s, m, e)
  }

  /** An error at the scan's own start is the error the scan reports. */
  lemma ErrorAtStart(symbols: seq<string>, functions: Items<FunctionKind>, s: string, i: nat, e: ParseError)
    requires i < |s| && ErrorAt(symbols, functions, s, i, e)
    ensures Scan(symbols, functions, s, i) == Err(e)
  {
  }

  /** Inside a run no token starts: the next token start after `i` is at or after the end
      of the run that begins at `i`. */
  lemma NoStartInsideRun(s: string, i: nat, k: RunKind, m: nat)
    requires i < |s| && InRun(k, s[i]) && i < m < RunEnd(s, i, k)
    ensures !TokenStart(s, i, m)
  {
    assert InRun(k, s[m - 1]) && InRun(k, s[m]);
  }

  /** The index where the scan resumes after the token that starts at `i`. */
  function NextStart(s: string, i: nat): (j: nat)
    requires i < |s|
    ensures i < j <= |s|
  {
    var c := s[i];
    if InRun(NumberRun, c) then RunEnd(s, i, NumberRun)
    else if InRun(NameRun, c) then RunEnd(s, i, NameRun)
    else i + 1
  }

  /** A failed scan failed for one of the three reasons, at a place where a token starts,
      and at the first such place: a run error is reported for the whole maximal run. */
  lemma {:induction false} ScanError(symbols: seq<string>, functions: Items<FunctionKind>, s: string, i: nat)
    requires i <= |s|
    ensures Scan(symbols, functions, s, i).Err? ==>
      exists k :: i <= k < |s| && TokenStart(s, i, k) && ErrorAt(symbols, functions, s, k, Scan(symbols, functions, s, i).error)
        && NoErrorBefore(symbols, functions, s, i, k)
    decreases |s| - i
  {
    var r := Scan(symbols, functions, s, i);
    if i < |s| && r.Err? {
      var j := NextStart(s, i);
      if ErrorAt(symbols, functions, s, i, r.error) {
        assert TokenStart(s, i, i);
      } else {
        assert r == Scan(symbols, functions, s, j);
        ScanError(symbols, functions, s, j);
        var k :| j <= k < |s| && TokenStart(s, j, k) && ErrorAt(symbols, functions, s, k, r.error)
          && NoErrorBefore(symbols, functions, s, j, k);
        assert TokenStart(s, i, k);
        forall m, e | i <= m < k && TokenStart(s, i, m)
          ensures !ErrorAt(symbols, functions, s, m, e)
        {
          if m == i {
            if ErrorAt(symbols, functions, s, i, e) {
              ErrorAtStart(symbols, functions, s, i, e);
            }
          } else if m < j {
            NoStartInsideRun(s, i, if InRun(NumberRun, s[i]) then NumberRun else NameRun, m);
          } else {
            assert TokenStart(s, j, m);
          }
        }
      }
    }
  }

  /** Conversely, an error at any place where a token starts makes the scan fail. */
  lemma {:induction false} ScanReachesError(symbols: seq<string>, functions: Items<FunctionKind>, s: string, i: nat, k: nat, e: ParseError)
    requires i <= k < |s| && TokenStart(s, i, k) && ErrorAt(symbols, functions, s, k, e)
    ensures Scan(symbols, functions, s, i).Err?
    decreases |s| - i
  {
    if k == i {
      ErrorAtStart(symbols, functions, s, i, e);
    } else {
      var j := NextStart(s, i);
      if k < j {
        NoStartInsideRun(s, i, if InRun(NumberRun, s[i]) then NumberRun else NameRun, k);
      }
      assert TokenStart(s, j, k);
      ScanReachesError(symbols, functions, s, j, k, e);
    }
  }

  /** An "Unexpected character" failure names a character of the text that is no digit,
      point, ASCII letter, parenthesis or registered symbol. */
  lemma UnexpectedCharacterOnly(symbols: seq<string>, functions: Items<FunctionKind>, s: string, c: char)
    requires Tokenize(symbols, functions, s) == Err(InvalidSyntax("Unexpected character: " + [c]))
    ensures c in s && !IsDigit(c) && c != '.' && !IsAlpha(c) && c != '(' && c != ')' && [c] !in symbols
  {
    ScanError(symbols, functions, s, 0);
    var e := Tokenize(symbols, functions, s).error;
    var k :| 0 <= k < |s| && TokenStart(s, 0, k) && ErrorAt(symbols, functions, s, k, e);
    var d := s[k];
    if InRun(NumberRun, d) {
      DetailsDiffer(s[k..RunEnd(s, k, NumberRun)], c);
    } else if !InRun(NameRun, d) {
      assert ("Unexpected character: " + [d])[22] == d;
      assert ("Unexpected character: " + [c])[22] == c;
    }
  }

  /** The details of the two scan errors reported through `invalidSyntax` never coincide. */
  lemma DetailsDiffer(run: string, c: char)
    ensures "Invalid number: " + run != "Unexpected character: " + [c]
  {
    assert ("Invalid number: " + run)[0] == 'I';
  }

  /** Every token consumes at least one character, so a scan never emits more tokens than
      there are characters left. */
  lemma {:induction false} ScanLength(symbols: seq<string>, functions: Items<FunctionKind>, s: string, i: nat, ts: seq<Token>)
    requires i <= |s| && Scan(symbols, functions, s, i) == Ok(ts)
    ensures |ts| <= |s| - i
    decreases |s| - i
  {
    if i < |s| {
      var c := s[i];
      if InRun(NumberRun, c) {
        var j := RunEnd(s, i, NumberRun);
        ScanLength(symbols, functions, s, j, Scan(symbols, functions, s, j).value);
      } else if InRun(NameRun, c) {
        var j := RunEnd(s, i, NameRun);
        ScanLength(symbols, functions, s, j, Scan(symbols, functions, s, j).value);
      } else {
        ScanLength(symbols, functions, s, i + 1, Scan(symbols, functions, s, i + 1).value);
      }
    }
  }
}
