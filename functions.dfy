/** The function catalogue (the classes in app/Services/Functions and the function interface),
    as one closed datatype of single-argument functions. */
module Functions {
  import opened Wrappers
  import opened ParseErrors
  import Numerics

  datatype FunctionKind = Sqrt | Abs | Sin | Cos | Tan | Log | Ln

  /** `name()`: the key under which the function is registered. */
  function Name(f: FunctionKind): string
  {
    match f
    case Sqrt => "sqrt"
    case Abs => "abs"
    case Sin => "sin"
    case Cos => "cos"
    case Tan => "tan"
    case Log => "log"
    case Ln => "ln"
  }

  /** `apply(arg)`. Only `sqrt` can fail, exactly on a negative argument (zero is accepted);
      `abs` returns the argument or its negation, whichever is not negative. */
  function Apply(lib: Numerics.Libm, f: FunctionKind, arg: real): (r: Result<real, ParseError>)
    ensures r.Err? <==> f == Sqrt && arg < 0.0
    ensures r.Err? ==> r.error == NegativeSquareRoot
    ensures f == Abs ==> r.Ok? && r.value >= 0.0 && (arg >= 0.0 ==> r.value == arg) && (arg < 0.0 ==> r.value == -arg)
  {
    match f
    case Sqrt => if arg < 0.0 then Err(NegativeSquareRoot) else Ok(lib.sqrt(arg))
    case Abs => Ok(Numerics.Abs(arg))
    case Sin => Ok(lib.sin(arg))
    case Cos => Ok(lib.cos(arg))
    case Tan => Ok(lib.tan(arg))
    case Log => Ok(lib.log10(arg))
    case Ln => Ok(lib.ln(arg))
  }

  /** Every name is a non-empty run of lower-case letters and names exactly one function. */
  lemma NamesAreLowerCaseWords(f: FunctionKind)
    ensures |Name(f)| > 0 && forall i :: 0 <= i < |Name(f)| ==> 'a' <= Name(f)[i] <= 'z'
    ensures forall g: FunctionKind :: Name(g) == Name(f) ==> g == f
  {
  }
}
