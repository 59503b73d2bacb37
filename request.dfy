/** The validation of a new calculation (app/Http/Requests/StoreCalculationRequest.php): the
    `expression` field is `required`, a `string`, at most 500 characters (`max:500`) and
    matches `^[\d\s\+\-\*\/\^\%\.\(\)a-zA-Z]+$`. The rule list is read the way the framework
    applies it: a missing or blank field fails `required` alone; any other string is checked
    against `max` and `regex`, and every rule that fails is reported. */
module Request {
  import opened Wrappers
  import opened ParseErrors
  import Lexer
  import Normalize
  import ServiceProvider

  /** The submitted value of `expression`: not sent at all, or a string. */
  datatype Field = Absent | Text(s: string)

  /** The rules of `rules()`, in their order. */
  datatype Rule = Required | IsString | Max | Regex

  /** The `max:500` bound. */
  const MaxLength: nat := 500

  /** `authorize()`: every caller may submit a calculation. */
  function Authorize(): (allowed: bool)
    ensures allowed
  {
    true
  }

  /** `messages()`: only the `regex` rule has a custom message; the others use the
      framework's default wording. */
  function CustomMessage(rule: Rule): (m: Option<string>)
    ensures m.Some? <==> rule == Regex
    ensures rule == Regex ==> m.value == "Expression contains invalid characters"
  {
    if rule == Regex then Some("Expression contains invalid characters") else None
  }

  /** The characters PHP's `trim` strips: space, tab, newline, carriage return, NUL and
      vertical tab. */
  predicate IsPhpTrimSpace(c: char)
  {
    c == ' ' || c == '\t' || c == '\n' || c == '\r' || c == '\0' || c == '\U{0B}'
  }

  /** `trim($value) === ''`: the string is empty or made only of trim characters. */
  predicate Blank(s: string)
  {
    forall i :: 0 <= i < |s| ==> IsPhpTrimSpace(s[i])
  }

  /** `\s` of PCRE on ASCII text: space, tab, newline, vertical tab, form feed, return. */
  predicate IsRegexSpace(c: char)
  {
    c == ' ' || c == '\t' || c == '\n' || c == '\U{0B}' || c == '\U{0C}' || c == '\r'
  }

  /** One character of the class `[\d\s\+\-\*\/\^\%\.\(\)a-zA-Z]`. */
  predicate Allowed(c: char)
  {
    Lexer.IsDigit(c) || IsRegexSpace(c) || c in "+-*/^%.()" || Lexer.IsAlpha(c)
  }

  /** The whole pattern, anchored and with `+`: one or more allowed characters. */
  predicate MatchesPattern(s: string)
  {
    |s| > 0 && forall i :: 0 <= i < |s| ==> Allowed(s[i])
  }

  /** The rules that fail for a value, in rule order; the empty list means it passes. */
  function Failures(f: Field): seq<Rule>
  {
    match f
    case Absent => [Required]
    case Text(s) =>
      if Blank(s) then [Required]
      else (if |s| > MaxLength then [Max] else []) + (if MatchesPattern(s) then [] else [Regex])
  }

  predicate Passes(f: Field)
  {
    Failures(f) == []
  }

  /** A value passes exactly when it is a string with a non-blank character, at most 500
      characters long, and made only of allowed characters. */
  lemma PassesIff(f: Field)
    ensures Passes(f) <==>
      f.Text? && !Blank(f.s) && |f.s| <= MaxLength && forall i :: 0 <= i < |f.s| ==> Allowed(f.s[i])
  {
    if f.Text? && !Blank(f.s) {
      assert |f.s| > 0;
    }
  }

  /** A missing field and a blank one are reported as missing, and only as missing. */
  lemma RequiredOnly(f: Field)
    requires f.Absent? || Blank(f.s)
    ensures Failures(f) == [Required] && !Passes(f)
  {
  }

  /** A non-blank string with a character outside the class fails the pattern, whatever
      its length, and the failure carries the custom message. */
  lemma ForeignCharacterFails(s: string, i: nat)
    requires !Blank(s) && i < |s| && !Allowed(s[i])
    ensures Regex in Failures(Text(s)) && !Passes(Text(s))
    ensures CustomMessage(Regex) == Some("Expression contains invalid characters")
  {
  }

  /** Validation and the tokenizer agree on every visible character: a text that passed
      validation can only stop the tokenizer at an "Unexpected character" that is a tab,
      a newline, a vertical tab, a form feed or a return; the pattern lets that whitespace
      through, while normalisation trims it from the ends only. */
  lemma ValidatedUnexpectedIsWhitespace(s: string, c: char)
    requires Passes(Text(s))
    requires Lexer.Tokenize(ServiceProvider.DefaultOperators().keys, ServiceProvider.DefaultFunctions(), Normalize.Normalize(s))
             == Err(InvalidSyntax("Unexpected character: " + [c]))
    ensures c == '\t' || c == '\n' || c == '\U{0B}' || c == '\U{0C}' || c == '\r'
  {
    var symbols := ServiceProvider.DefaultOperators().keys;
    Lexer.UnexpectedCharacterOnly(symbols, ServiceProvider.DefaultFunctions(), Normalize.Normalize(s), c);
    Normalize.NormalizedFrom(s, c);
    var j :| 0 <= j < |s| && c == Normalize.LowerChar(s[j]);
    PassesIff(Text(s));
    ServiceProvider.DefaultOperatorsContents();
    LeftoverWhitespace(s[j], c);
  }

  /** An allowed character whose lower-case form is neither a space nor anything the
      tokenizer accepts is pattern whitespace. */
  lemma LeftoverWhitespace(d: char, c: char)
    requires Allowed(d) && c == Normalize.LowerChar(d) && c != ' '
    requires !Lexer.IsDigit(c) && c != '.' && !Lexer.IsAlpha(c) && c != '(' && c != ')'
    requires [c] !in ["+", "-", "*", "/", "%", "^"]
    ensures c == '\t' || c == '\n' || c == '\U{0B}' || c == '\U{0C}' || c == '\r'
  {
  }
}
