# A verified model of the calculator's expression engine

This project models the evaluation core of a small web calculator written in PHP. The
core has six parts:

- the recursive-descent `ExpressionParser` with its tokenizer;
- the keyed `Registry` and its two subclasses, `OperatorRegistry` and `FunctionRegistry`;
- the operator and function catalogue (`+ - * / % ^` and `sqrt abs sin cos tan log ln`);
- the `ExpressionParseException` factories;
- the service provider's `register()`, which builds both registries;
- the `StoreCalculationRequest` validator that guards what the API accepts.

One Dafny module stands for each source file or family of files:

- `TokenTypes` and `Tokens`: the token enum and the read-only token record.
- `ParseErrors`: the five exception factories and their messages.
- `Numerics`: `abs` and `fmod`, exactly. `pow`, `sqrt` and the transcendental functions are
  a `Libm` parameter.
- `Operators` and `Functions`: the catalogue, as two closed datatypes.
- `Registries`: the generic registry.
  - `Items` is the PHP array value: a map plus the key insertion order.
  - `Registry` is a class whose `items` field `register` updates in place.
- `OperatorRegistry` and `FunctionRegistry`: the symbol- and name-keyed queries.
- `ServiceProvider`: the two chained registrations, and what they leave in the registries.
- `Normalize`: the trim / lower-case / delete-spaces pipeline that `parse` applies first.
- `Lexer`: the token stream `tokenize` produces, as a function. It also holds what every
  scan produces and where a scan can fail.
- `Grammar`: what each `parse*` method computes, as a function of the token list and a
  cursor position.
- `Parser`: the class `ExpressionParser`, whose fields `tokens` and `position` are changed
  in place by imperative methods. Each method is proved to compute what the matching
  `Lexer` or `Grammar` function says.
- `Reference`: an independent expression tree with its own evaluator and a renderer that
  writes the fewest parentheses. Parsing the rendering of any tree gives that tree's value
  or the same error. This pins down precedence and associativity:
  - `+ -` and `* / %` group to the left;
  - `^` groups to the right and binds tighter than `* / %`;
  - a leading sign is part of the base of `^`, and a leading `+` keeps its operand's value;
  - calls and parentheses bind tightest.
- `Cases`: the unit-test inputs, each evaluated end to end from the raw text, plus a few
  edge cases the code decides. The helper modules `CaseTokens` and `CaseTexts` work out the
  scan and the normalisation of those texts step by step.
- `Request`: the validation rules of a new calculation, and how they fit the tokenizer.

Both the code and its precedence table put the unary sign above `^`, so `-2^2` is `(-2)^2`,
which is 4 wherever `pow` is exact, not -4. The model follows the code (`Cases.SignedBaseCase`).

## Model

| member | source | states |
|---|---|---|
| TokenTypes.TryFrom | app/Enums/TokenType.php:5-12 | a case found by `tryFrom` has the given backing string |
| TokenTypes.BackingValueRoundTrip | app/Enums/TokenType.php:7-11 | `tryFrom` of a case's backing string gives that case back; no two cases share a backing string |
| TokenTypes.TryFromClosed | app/Enums/TokenType.php:5-12 | `tryFrom` gives nothing exactly when no case has that backing string |
| Tokens.IsNotNegatesIs | app/DTOs/Token.php:14-22 | `isNot(t)` is the negation of `is(t)`, and `is` holds of the token's own kind only |
| ParseErrors.InvalidSyntaxMessage | app/Exceptions/ExpressionParseException.php:14-23 | the message is the bare "Invalid syntax" exactly when the details are falsy ("" or "0"); otherwise the details follow ": " |
| ParseErrors.MessageInitial | app/Exceptions/ExpressionParseException.php:9-38 | every message is non-empty, and its first letter tells which factory built it |
| ParseErrors.MessageIdentifiesError | app/Exceptions/ExpressionParseException.php:9-38 | equal messages come from the same factory with the same argument; the one exception is two falsy `invalidSyntax` details |
| Numerics.Abs | app/Services/Functions/AbsFunction.php:14-17 | `abs` is not negative and equals the argument or its negation |
| Numerics.Trunc | app/Services/Operators/ModuloOperator.php:31 | rounding toward zero: the result lies between 0 and the quotient, within 1 of it |
| Numerics.Fmod | app/Services/Operators/ModuloOperator.php:31 | `fmod`'s remainder is smaller than the divisor in magnitude, is zero or has the dividend's sign, and leaves a truncated whole quotient |
| Numerics.FmodRemainder | app/Services/Operators/ModuloOperator.php:31 | `x - trunc(x/y)*y` has those three properties |
| Numerics.FmodBounds | app/Services/Operators/ModuloOperator.php:31 | the bound and sign facts behind the remainder's properties |
| Numerics.FmodTenThree | tests/Unit/ExpressionParserTest.php:69-73 | `fmod(10, 3) = 1` |
| Operators.Apply | app/Services/Operators/ModuloOperator.php:25-32 | `apply` fails only for `/` and `%` on a zero divisor, with "Division by zero"; a quotient times the divisor is the dividend; a remainder is smaller than the divisor and is zero or has the dividend's sign |
| Operators.CatalogueShape | app/Services/Operators/PowerOperator.php:9-22 | each symbol is one character and names one operator; precedences lie in 1..3; only the precedence-3 operator `^` is right-associative |
| Functions.Apply | app/Services/Functions/SqrtFunction.php:15-22 | only `sqrt` fails, exactly on a negative argument, with the negative-square-root error; `abs` returns the non-negative one of the argument and its negation |
| Functions.NamesAreLowerCaseWords | app/Services/Functions/SqrtFunction.php:10-13 | every name is a non-empty word of lower-case letters and names one function |
| Registries.Items.Put | app/Services/Registry.php:24 | assigning a key replaces its entry and keeps its place in the key order, or appends a new key; nothing else changes |
| Registries.Items.Lookup | app/Services/Registry.php:34 | `$items[$key] ?? null` gives the entry exactly when the key is present |
| Registries.PutValid | app/Services/Registry.php:24 | assigning keeps every key listed exactly once, and the listed keys the entries' keys |
| Registries.LaterRegistrationWins | app/Services/Registry.php:22-27 | registering a second item, distinct or not, under a key already taken makes the lookup of that key return the second item, keeps the key list unchanged (the key stays once, where it was first put), keeps the store valid, and leaves every other key's lookup as it was |
| Registries.Empty | app/Services/Registry.php:11 | a registry starts with no keys and no entries |
| Registries.RegisterAll | app/Services/Registry.php:22-27 | any sequence of registrations keeps the store well formed |
| Registries.KeysOf | app/Services/Registry.php:24 | the keys of the registered items, position by position |
| Registries.RegisterAllKeys | app/Services/Registry.php:22-27 | after a run of registrations, `keys()` lists each key once, in order of first registration |
| Registries.RegisterAllLookup | app/Services/Registry.php:22-27 | after a run of registrations, `get` finds the last item registered under a key, and nothing for a key never registered |
| Registries.RegisterAllKeepsKeys | app/Services/Registry.php:22-27 | registering never removes a key |
| Registries.Registry.constructor | app/Services/Registry.php:11 | a new registry is empty and well formed |
| Registries.Registry.Register | app/Services/Registry.php:22-27 | `register` stores the item under its key (replacing any earlier one), changes nothing else, keeps every item under its own key, and returns the registry itself |
| Registries.Registry.Get | app/Services/Registry.php:32-35 | `get` returns an item exactly when `has` holds; the item is stored under that key and carries it as its own key |
| Registries.Registry.Keys | app/Services/Registry.php:43-46 | `keys()` lists each registered key once and nothing else |
| Registries.Registry.All | app/Services/Registry.php:49-52 | `all()` maps exactly the registered keys |
| OperatorRegistry.New | app/Services/Operators/OperatorRegistry.php:11-16 | a new operator registry is empty, keyed by symbol |
| OperatorRegistry.Get | app/Services/Operators/OperatorRegistry.php:18-21 | in a symbol-keyed registry, `get($s)` is an operator whose symbol is `s` |
| OperatorRegistry.Symbols | app/Services/Operators/OperatorRegistry.php:24-27 | `symbols()` lists each registered symbol once and nothing else |
| OperatorRegistry.TierMembers | app/Services/Operators/OperatorRegistry.php:30-38 | a symbol is in `getByPrecedence($p)` exactly when it is registered with an operator of precedence `p` |
| OperatorRegistry.TierDistinct | app/Services/Operators/OperatorRegistry.php:30-38 | a tier lists each symbol once |
| OperatorRegistry.FilterMembers | app/Services/Operators/OperatorRegistry.php:32-37 | filtering keeps exactly the keys of the precedence and never repeats one |
| OperatorRegistry.FilterCons | app/Services/Operators/OperatorRegistry.php:32-37 | the filter keeps the first key exactly when its operator has the precedence, then filters the rest |
| OperatorRegistry.TiersPartitionSymbols | app/Services/Operators/OperatorRegistry.php:30-38 | tiers hold only registered symbols, never share one, and every symbol is in the tier of its own precedence |
| FunctionRegistry.New | app/Services/Functions/FunctionRegistry.php:11-16 | a new function registry is empty, keyed by name |
| FunctionRegistry.Get | app/Services/Functions/FunctionRegistry.php:18-21 | in a name-keyed registry, `get($n)` is a function named `n` |
| FunctionRegistry.Names | app/Services/Functions/FunctionRegistry.php:24-27 | `names()` lists each registered name once and nothing else |
| ServiceProvider.RegisterOperators | app/Providers/AppServiceProvider.php:34-41 | the chained registrations leave a new, well-formed, symbol-keyed registry holding the default operators |
| ServiceProvider.RegisterFunctions | app/Providers/AppServiceProvider.php:43-51 | the chained registrations leave a new, well-formed, name-keyed registry holding the default functions |
| ServiceProvider.Register | app/Providers/AppServiceProvider.php:32-52 | `register()` builds both registries as two new objects with those contents |
| ServiceProvider.DefaultOperatorsContents | app/Providers/AppServiceProvider.php:34-41 | the operator registry lists `+ - * / % ^` in that order and maps each symbol to its operator |
| ServiceProvider.DefaultOperatorsValid | app/Providers/AppServiceProvider.php:34-41 | the operator registry lists each key once |
| ServiceProvider.DefaultOperatorsLookup | app/Providers/AppServiceProvider.php:34-41 | every operator is found under its own symbol, and only the six symbols are registered |
| ServiceProvider.StandardOperators | app/Providers/AppServiceProvider.php:34-41 | the same lookups hold in any registry with those six entries |
| ServiceProvider.DefaultTiers | app/Providers/AppServiceProvider.php:34-41 | the precedence tiers are `+ -`, then `* / %`, then `^`, each in registration order; every other precedence is empty |
| ServiceProvider.StandardTiers | app/Providers/AppServiceProvider.php:34-41 | the same tiers in any registry with the six entries in that order |
| ServiceProvider.DefaultFunctionsContents | app/Providers/AppServiceProvider.php:43-51 | the function registry lists `sqrt abs sin cos tan log ln` in that order and maps each name to its function |
| ServiceProvider.DefaultFunctionsValid | app/Providers/AppServiceProvider.php:43-51 | the function registry lists each key once |
| ServiceProvider.DefaultFunctionsLookup | app/Providers/AppServiceProvider.php:43-51 | every function is found under its own name, and a letter run is registered exactly when it is one of the seven names |
| ServiceProvider.StandardFunctions | app/Providers/AppServiceProvider.php:43-51 | the same lookups hold in any registry with those seven entries |
| Normalize.LowerChar | app/Services/ExpressionParser.php:44 | lower-casing shifts an upper-case ASCII letter by 32 and keeps every other character |
| Normalize.TrimStartShape | app/Services/ExpressionParser.php:44 | the leading trim drops the longest prefix of whitespace and nothing more |
| Normalize.TrimEndShape | app/Services/ExpressionParser.php:44 | the trailing trim drops the longest suffix of whitespace and nothing more |
| Normalize.LowerShape | app/Services/ExpressionParser.php:44 | `lower()` maps each character in place |
| Normalize.RemoveSpacesShape | app/Services/ExpressionParser.php:44 | `replace(' ', '')` keeps exactly the characters other than ' ' |
| Normalize.NormalizeShape | app/Services/ExpressionParser.php:44 | the normalised text has no space, no upper-case letter, and no whitespace at either end |
| Normalize.NormalizedFrom | app/Services/ExpressionParser.php:44 | every character of the normalised text is the lower-case form of some character of the input |
| Normalize.NormalizeEnds | app/Services/ExpressionParser.php:44 | deleting spaces from a text without whitespace at its ends leaves none there |
| Normalize.NormalizeAsTrim | app/Services/ExpressionParser.php:44 | trimming first and trimming last give the same text |
| Normalize.SpaceInsensitive | app/Services/ExpressionParser.php:44 | inserting a space anywhere never changes what the parser sees |
| Normalize.CaseInsensitive | app/Services/ExpressionParser.php:44 | texts that differ only in letter case normalise alike |
| Normalize.NormalizeIdempotent | app/Services/ExpressionParser.php:44 | normalising twice is normalising once |
| Lexer.RunEnd | app/Services/ExpressionParser.php:72-75 | a run ends at the first character of another kind, or at the end of the text |
| Lexer.DecimalValue | app/Services/ExpressionParser.php:81 | a number literal's value is never negative |
| Lexer.ScanWellFormed | app/Services/ExpressionParser.php:59-123 | every token `tokenize` emits is well formed: a number token carries a float, and a name is a registered function, a paren its own character, and an operator a registered symbol |
| Lexer.ScanError | app/Services/ExpressionParser.php:66-120 | a failed scan failed where a token starts, and for one of three reasons: a run with two or more points, an unregistered name, or an unexpected character; no earlier token start carries any of these errors, so the reported error is the first one |
| Lexer.ScanReachesError | app/Services/ExpressionParser.php:66-120 | conversely, any of those three errors at a place where a token starts makes the scan fail |
| Lexer.UnexpectedCharacterOnly | app/Services/ExpressionParser.php:113-119 | "Unexpected character: c" is reported only for a character of the text that is no digit, point, letter, paren or registered symbol |
| Lexer.DetailsDiffer | app/Services/ExpressionParser.php:77-79 | an "Invalid number" detail never equals an "Unexpected character" detail |
| Lexer.ScanLength | app/Services/ExpressionParser.php:66-120 | a scan emits at most one token per character |
| Grammar.Expression | app/Services/ExpressionParser.php:135-138 | a successful `parseExpression` consumes at least one token and stays within the list |
| Grammar.Addition | app/Services/ExpressionParser.php:140-154 | a successful `parseAddition` consumes at least one token and stays within the list |
| Grammar.AdditionLoop | app/Services/ExpressionParser.php:145-151 | the additive loop never moves the cursor back or past the end |
| Grammar.Multiplication | app/Services/ExpressionParser.php:156-170 | a successful `parseMultiplication` consumes at least one token |
| Grammar.MultiplicationLoop | app/Services/ExpressionParser.php:161-167 | the multiplicative loop never moves the cursor back or past the end |
| Grammar.Power | app/Services/ExpressionParser.php:172-186 | a successful `parsePower` consumes at least one token |
| Grammar.Unary | app/Services/ExpressionParser.php:188-203 | a successful `parseUnary` consumes at least one token |
| Grammar.Factor | app/Services/ExpressionParser.php:205-253 | a successful `parseFactor` consumes at least one token |
| Parser.ExpressionParser.constructor | app/Services/ExpressionParser.php:36-39 | a new parser holds the two registries, no tokens and the cursor at 0 |
| Parser.ExpressionParser.Parse | app/Services/ExpressionParser.php:42-56 | `parse` returns the specified value or error of normalising, tokenizing, evaluating and rejecting leftover tokens; `tokens` holds the scan of the normalised text, or, when the scan fails, both fields keep their old values; on success the cursor sits at the end of the tokens; the parser stays ready for the next call |
| Parser.ExpressionParser.Tokenize | app/Services/ExpressionParser.php:59-123 | the loop's token list, or its first error, is the scan of the whole text |
| Parser.ExpressionParser.CollectRun | app/Services/ExpressionParser.php:72-75 | the inner loop collects exactly the maximal run of one kind |
| Parser.ExpressionParser.Current | app/Services/ExpressionParser.php:125-128 | `current()` is the token under the cursor, or null past the end |
| Parser.ExpressionParser.Advance | app/Services/ExpressionParser.php:130-133 | `advance()` moves the cursor by one |
| Parser.ExpressionParser.ParseExpression | app/Services/ExpressionParser.php:135-138 | the value and the new cursor, or the error, are those of the `Expression` specification |
| Parser.ExpressionParser.ParseAddition | app/Services/ExpressionParser.php:140-154 | the loop over `+ -` computes the `Addition` specification |
| Parser.ExpressionParser.ParseMultiplication | app/Services/ExpressionParser.php:156-170 | the loop over `* / %` computes the `Multiplication` specification |
| Parser.ExpressionParser.ParsePower | app/Services/ExpressionParser.php:172-186 | the base and the optional recursive exponent compute the `Power` specification |
| Parser.ExpressionParser.ParseUnary | app/Services/ExpressionParser.php:188-203 | the leading signs and the factor compute the `Unary` specification |
| Parser.ExpressionParser.ParseFactor | app/Services/ExpressionParser.php:205-253 | numbers, calls, groups and their four errors follow the `Factor` specification |
| Parser.ExpressionParser.ApplyFunction | app/Services/ExpressionParser.php:255-258 | `applyFunction` applies the function registered under the name |
| Reference.StdEnvStandard | app/Providers/AppServiceProvider.php:32-52 | the registries `register()` builds hold each operator under its symbol and each function under its name |
| Reference.RenderWellFormed | app/Services/ExpressionParser.php:97-117 | every rendered token is one the tokenizer could build |
| Reference.ParsesAsFactor | app/Services/ExpressionParser.php:205-253 | `parseFactor` reads a number, a call or a parenthesised tree back as its value |
| Reference.ParsesAsUnary | app/Services/ExpressionParser.php:188-203 | `parseUnary` reads a tree rendered at its tier back as its value, a negation as the negated value and a unary `+` as its operand's value |
| Reference.ParsesAsPlus | app/Services/ExpressionParser.php:196-200 | a `+` before an operand is skipped: the value is the operand's value, and the cursor ends after the operand |
| Reference.ParsesAsPower | app/Services/ExpressionParser.php:172-186 | `parsePower` reads a tree rendered at its tier back as its value, with a `^` exponent grouped to the right |
| Reference.ParsesAsMultiplication | app/Services/ExpressionParser.php:156-170 | `parseMultiplication` reads a chain of `* / %` back grouped to the left |
| Reference.ParsesAsAddition | app/Services/ExpressionParser.php:140-154 | `parseAddition` reads a chain of `+ -` back grouped to the left |
| Reference.ParseRenderIn | app/Services/ExpressionParser.php:15-27 | with any registries holding the catalogue, parsing a rendered tree gives the tree's value or its error |
| Reference.ParseRender | app/Services/ExpressionParser.php:15-27 | with the registries `register()` builds, parsing a rendered tree gives the tree's value or its error: the precedence table holds |
| Cases.AddCase | tests/Unit/ExpressionParserTest.php:21-25 | `5 + 3` evaluates to 8 |
| Cases.SubtractCase | tests/Unit/ExpressionParserTest.php:27-31 | `5 - 3` evaluates to 2 |
| Cases.MultiplyCase | tests/Unit/ExpressionParserTest.php:33-37 | `5 * 3` evaluates to 15 |
| Cases.DivideCase | tests/Unit/ExpressionParserTest.php:39-43 | `6 / 3` evaluates to 2 |
| Cases.PrecedenceCase | tests/Unit/ExpressionParserTest.php:45-49 | `5 + 3 * 2` evaluates to 11 |
| Cases.GroupingCase | tests/Unit/ExpressionParserTest.php:51-55 | `(5 + 3) * 2` evaluates to 16 |
| Cases.PowerCase | tests/Unit/ExpressionParserTest.php:57-61 | `2 ^ 3` evaluates to `pow(2, 3)` |
| Cases.SquareRootCase | tests/Unit/ExpressionParserTest.php:63-67 | `SQRT(9)`, upper case, evaluates to `sqrt(9)` |
| Cases.RemainderCase | tests/Unit/ExpressionParserTest.php:69-73 | `10 % 3` evaluates to 1 |
| Cases.DecimalCase | tests/Unit/ExpressionParserTest.php:75-79 | `5.5 + 2` evaluates to exactly 7.5 |
| Cases.NegativeCase | tests/Unit/ExpressionParserTest.php:81-85 | `-5` evaluates to -5 |
| Cases.DivideByZeroCase | tests/Unit/ExpressionParserTest.php:100-106 | `5 / 0` fails with "Division by zero" |
| Cases.NegativeRootCase | tests/Unit/ExpressionParserTest.php:108-114 | `sqrt(-1)` fails with "Cannot calculate square root of negative number" |
| Cases.MismatchedCase | tests/Unit/ExpressionParserTest.php:116-121 | `(5 + 3` fails with "Mismatched parentheses" |
| Cases.UnknownFunctionCase | tests/Unit/ExpressionParserTest.php:123-129 | `unknown(5)` fails with "Unknown function: unknown" |
| Cases.MultipleOperationsCase | tests/Unit/ExpressionParserTest.php:131-136 | `2 + 3 * 4` evaluates to 14 and `(2 + 3) * 4` to 20 |
| Cases.RightAssociativeCase | tests/Unit/ExpressionParserTest.php:138-142 | `2 ^ 3 ^ 2` evaluates to `pow(2, pow(3, 2))` |
| Cases.LeftAssociativeCase | app/Services/ExpressionParser.php:145-151 | `8 - 3 - 2` evaluates to 3 |
| Cases.SignedBaseCase | app/Services/ExpressionParser.php:188-194 | `-2^2` evaluates to `pow(-2, 2)` |
| Cases.JoinedNamesCase | app/Services/ExpressionParser.php:85-95 | `sqrtabs(4)` is one letter run and fails as an unknown function |
| Cases.TabCase | app/Services/ExpressionParser.php:113-119 | a tab between tokens survives normalisation and fails as an unexpected character |
| Cases.TwoPointsCase | app/Services/ExpressionParser.php:77-79 | `1.2.3` fails with "Invalid number: 1.2.3" |
| Cases.LonePointCase | app/Services/ExpressionParser.php:69-81 | a lone `.` is accepted as the number 0 |
| Cases.BlankCase | app/Services/ExpressionParser.php:209-211 | blank input fails with "Unexpected end of expression" |
| Cases.AdjacentCase | app/Services/ExpressionParser.php:51-53 | `2(3)` fails with "Unexpected token": there is no implicit multiplication |
| Cases.CallWithoutParenCase | app/Services/ExpressionParser.php:223-225 | `sqrt 9` fails with "Expected '(' after function sqrt" |
| Cases.StrayTokenCase | app/Services/ExpressionParser.php:252 | `)` fails with "Unexpected token: )" |
| Request.Authorize | app/Http/Requests/StoreCalculationRequest.php:9-12 | every caller is authorised |
| Request.CustomMessage | app/Http/Requests/StoreCalculationRequest.php:21-26 | only the `regex` rule has a custom message, "Expression contains invalid characters" |
| Request.PassesIff | app/Http/Requests/StoreCalculationRequest.php:14-19 | a value passes exactly when it is a non-blank string of at most 500 allowed characters |
| Request.RequiredOnly | app/Http/Requests/StoreCalculationRequest.php:17 | a missing or blank value fails `required` and nothing else |
| Request.ForeignCharacterFails | app/Http/Requests/StoreCalculationRequest.php:17 | a non-blank value with a character outside the class fails the pattern, with the custom message |
| Request.ValidatedUnexpectedIsWhitespace | app/Http/Requests/StoreCalculationRequest.php:17 | a validated text can stop the tokenizer only at an interior tab, newline, vertical tab, form feed or return |
| Request.LeftoverWhitespace | app/Http/Requests/StoreCalculationRequest.php:17 | the only allowed characters the tokenizer cannot use are those five whitespace characters |

## Left out

- Floating point: numbers are exact reals. A number literal is its exact decimal value, not the nearest double. Overflow to infinity, NaN and signed zero are not modelled.
- `pow`, `sqrt`, `sin`, `cos`, `tan`, `log10` and `log` are calls into the platform's maths library. They are the fields of a `Libm` parameter, so the cases about `^` and `sqrt` state their results in terms of it.
- Strings are sequences of characters, not bytes. `ctype_digit` and `ctype_alpha` are taken in the C locale, on ASCII. A multi-byte character, which PHP would split into bytes, is treated as one character.
- The trim step is modelled as stripping the ASCII members of PCRE's `\s` (space, tab, line feed, vertical tab, form feed, carriage return) and NUL, which PHP's own `trim` strips. The non-ASCII characters the framework's trim also strips (Unicode white space, U+FEFF, U+200B and U+200E) are not modelled. Lower-casing is modelled as ASCII only; the framework's Unicode case mapping is not.
- The validation rules are read as the framework applies them: a missing or blank value fails only `required`, and `max:500` counts characters. The framework's rule engine itself is not part of this model, nor is the `string` rule's handling of non-string JSON values.
- app/Services/Operators/SubtractionOperator.php and DivisionOperator.php are not part of this model. By analogy with the other operators, `-` is taken as precedence 1, left-associative, `a - b`, and `/` as precedence 2, left-associative, with the same zero check as `%`.
- The operator and function interfaces and their classes are folded into the datatypes `OperatorKind` and `FunctionKind`. `Registry::getKey`, which is abstract, is the `keyOf` field of the registry class.
- OperatorRegistry.Get: the source declares a non-nullable return type, so a missing symbol would raise a type error there. The model excludes a missing symbol by its precondition; the parser only asks for symbols of a tier.
- FunctionRegistry.Get: the same as `OperatorRegistry.Get`, for names. The tokenizer only emits registered names.
- Cases.PowerCase: states the result as `pow(2, 3)`, not 8, because the library is a parameter.
- Cases.RightAssociativeCase: states the result as `pow(2, pow(3, 2))`, not 512, for the same reason.
- Cases.SquareRootCase: states the result as `sqrt(9)`, not 3, for the same reason.
- The nested-parentheses test (tests/Unit/ExpressionParserTest.php:94-98) and the complex-expression test (87-92) are not worked as cases. Both contain parentheses that the minimal renderer would not write. `Reference.ParseRender` covers their trees only in the minimal spelling; a round trip through redundant parentheses is not proved.
- The HTTP controller, the resource, the models and persistence, the routes and the Vue front end are outside the core. So are `boot()` and `configureDefaults()` in the service provider, which configure dates, JSON wrapping, database safety and password rules.
- The container's singleton binding is modelled as building each registry once in `ServiceProvider.Register`. Lazy resolution and sharing across requests are not modelled.
