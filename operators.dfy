/** The binary operator catalogue (the classes in app/Services/Operators and the operator
    interface they implement), as one closed datatype. Subtraction and Division are registered
    by the service provider but their classes are not part of this model; their entries are
    assumed by analogy with Addition and Modulo (see README). */
module Operators {
  import opened Wrappers
  import opened ParseErrors
  import opened Numerics

  datatype Associativity = Left | Right

  datatype OperatorKind = Addition | Subtraction | Multiplication | Division | Modulo | Power

  /** `symbol()`: the one-character key under which the operator is registered. */
  function Symbol(op: OperatorKind): string
  {
    match op
    case Addition => "+"
    case Subtraction => "-"
    case Multiplication => "*"
    case Division => "/"
    case Modulo => "%"
    case Power => "^"
  }

  /** `precedence()`: the grammar tier whose loop consumes the operator. */
  function Precedence(op: OperatorKind): int
  {
    match op
    case Addition => 1
    case Subtraction => 1
    case Multiplication => 2
    case Division => 2
    case Modulo => 2
    case Power => 3
  }

  /** `associativity()`. */
  function AssociativityOf(op: OperatorKind): Associativity
  {
    if op == Power then Right else Left
  }

  /** The string `associativity()` returns. */
  function AssociativityName(a: Associativity): string
  {
    match a
    case Left => "left"
    case Right => "right"
  }

  /** `apply(left, right)`. Only division and modulo can fail, and only on a zero divisor;
      a quotient times the divisor gives back the dividend, and a remainder is smaller than
      the divisor. */
  function Apply(lib: Libm, op: OperatorKind, left: real, right: real): (r: Result<real, ParseError>)
    ensures r.Err? <==> (op == Division || op == Modulo) && right == 0.0
    ensures r.Err? ==> r.error == DivisionByZero
    ensures op == Division && r.Ok? ==> r.value * right == left
    ensures op == Modulo && r.Ok? ==> Abs(r.value) < Abs(right) && (r.value == 0.0 || (r.value < 0.0 <==> left < 0.0))
  {
    match op
    case Addition => Ok(left + right)
    case Subtraction => Ok(left - right)
    case Multiplication => Ok(left * right)
    case Division => if right == 0.0 then Err(DivisionByZero) else Ok(left / right)
    case Modulo => if right == 0.0 then Err(DivisionByZero) else Ok(Fmod(left, right))
    case Power => Ok(lib.pow(left, right))
  }

  /** Every symbol is one character and names exactly one operator; precedences lie in 1..3;
      only `^` is right-associative. */
  lemma CatalogueShape(op: OperatorKind)
    ensures |Symbol(op)| == 1
    ensures forall other: OperatorKind :: Symbol(other) == Symbol(op) ==> other == op
    ensures 1 <= Precedence(op) <= 3
    ensures AssociativityOf(op) == Right <==> Precedence(op) == 3
    ensures AssociativityName(AssociativityOf(op)) == (if op == Power then "right" else "left")
  {
  }
}
