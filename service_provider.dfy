/** The application's service registrations (app/Providers/AppServiceProvider.php, `register`
    only): the two catalogue registries, each built once by chained `register` calls. */
module ServiceProvider {
  import opened Registries
  import opened Operators
  import opened Functions
  import OperatorRegistry
  import FunctionRegistry

  /** The operators in registration order. */
  const OperatorCatalogue: seq<OperatorKind> :=
    [Addition, Subtraction, Multiplication, Division, Modulo, Power]

  /** The functions in registration order. */
  const FunctionCatalogue: seq<FunctionKind> := [Sqrt, Abs, Sin, Cos, Tan, Log, Ln]

  /** The contents of the operator registry singleton: each catalogue entry put under its key. */
  function DefaultOperators(): Items<OperatorKind>
  {
    Empty()
      .Put(Symbol(Addition), Addition)
      .Put(Symbol(Subtraction), Subtraction)
      .Put(Symbol(Multiplication), Multiplication)
      .Put(Symbol(Division), Division)
      .Put(Symbol(Modulo), Modulo)
      .Put(Symbol(Power), Power)
  }

  /** The contents of the function registry singleton. */
  function DefaultFunctions(): Items<FunctionKind>
  {
    Empty()
      .Put(Name(Sqrt), Sqrt)
      .Put(Name(Abs), Abs)
      .Put(Name(Sin), Sin)
      .Put(Name(Cos), Cos)
      .Put(Name(Tan), Tan)
      .Put(Name(Log), Log)
      .Put(Name(Ln), Ln)
  }

  /** Builds the operator registry: `(new OperatorRegistry)->register(new AdditionOperator)->...`. */
  method RegisterOperators() returns (operators: Registry<OperatorKind>)
    ensures fresh(operators) && operators.Valid()
    ensures operators.keyOf == OperatorRegistry.KeyOf && operators.items == DefaultOperators()
  {
    operators := OperatorRegistry.New();
    operators := operators.Register(Addition);
    operators := operators.Register(Subtraction);
    operators := operators.Register(Multiplication);
    operators := operators.Register(Division);
    operators := operators.Register(Modulo);
    operators := operators.Register(Power);
  }

  /** Builds the function registry: `(new FunctionRegistry)->register(new SqrtFunction)->...`. */
  method RegisterFunctions() returns (functions: Registry<FunctionKind>)
    ensures fresh(functions) && functions.Valid()
    ensures functions.keyOf == FunctionRegistry.KeyOf && functions.items == DefaultFunctions()
  {
    functions := FunctionRegistry.New();
    functions := functions.Register(Sqrt);
    functions := functions.Register(Abs);
    functions := functions.Register(Sin);
    functions := functions.Register(Cos);
    functions := functions.Register(Tan);
    functions := functions.Register(Log);
    functions := functions.Register(Ln);
  }

  /** `register()`: both singletons, two distinct objects. */
  method Register() returns (operators: Registry<OperatorKind>, functions: Registry<FunctionKind>)
    ensures fresh(operators) && fresh(functions)
    ensures operators.Valid() && operators.keyOf == OperatorRegistry.KeyOf && operators.items == DefaultOperators()
    ensures functions.Valid() && functions.keyOf == FunctionRegistry.KeyOf && functions.items == DefaultFunctions()
  {
    operators := RegisterOperators();
    functions := RegisterFunctions();
  }

  /** The operator registry maps each of the six symbols to its operator and lists the
      symbols in registration order. */
  lemma DefaultOperatorsContents()
    ensures DefaultOperators().keys == ["+", "-", "*", "/", "%", "^"]
    ensures DefaultOperators().entries == map["+" := Addition, "-" := Subtraction, "*" := Multiplication,
                                              "/" := Division, "%" := Modulo, "^" := Power]
  {
    var i1 := Empty().Put("+", Addition);
    var i2 := i1.Put("-", Subtraction);
    var i3 := i2.Put("*", Multiplication);
    var i4 := i3.Put("/", Division);
    var i5 := i4.Put("%", Modulo);
    var i6 := i5.Put("^", Power);
    assert i6 == DefaultOperators();
  }

  /** Registering one operator after another keeps every key listed exactly once. */
  lemma DefaultOperatorsValid()
    ensures DefaultOperators().Valid()
  {
    var i0 := Empty<OperatorKind>();
    PutValid(i0, "+", Addition);
    var i1 := i0.Put("+", Addition);
    PutValid(i1, "-", Subtraction);
    var i2 := i1.Put("-", Subtraction);
    PutValid(i2, "*", Multiplication);
    var i3 := i2.Put("*", Multiplication);
    PutValid(i3, "/", Division);
    var i4 := i3.Put("/", Division);
    PutValid(i4, "%", Modulo);
    var i5 := i4.Put("%", Modulo);
    PutValid(i5, "^", Power);
  }

  /** Each operator is found under its own symbol, and nothing else is registered. */
  lemma DefaultOperatorsLookup(op: OperatorKind, s: string)
    ensures DefaultOperators().Valid() && OperatorRegistry.KeyedBySymbol(DefaultOperators())
    ensures Symbol(op) in DefaultOperators().entries
    ensures OperatorRegistry.Get(DefaultOperators(), Symbol(op)) == op
    ensures s in DefaultOperators().entries <==> s in ["+", "-", "*", "/", "%", "^"]
  {
    DefaultOperatorsValid();
    DefaultOperatorsContents();
    StandardOperators(DefaultOperators(), op, s);
  }

  /** Lookups in any registry holding the six operators under their symbols. */
  lemma StandardOperators(items: Items<OperatorKind>, op: OperatorKind, s: string)
    requires items.entries == map["+" := Addition, "-" := Subtraction, "*" := Multiplication,
                                  "/" := Division, "%" := Modulo, "^" := Power]
    ensures OperatorRegistry.KeyedBySymbol(items)
    ensures Symbol(op) in items.entries && OperatorRegistry.Get(items, Symbol(op)) == op
    ensures s in items.entries <==> s in ["+", "-", "*", "/", "%", "^"]
  {
    assert OperatorRegistry.KeyedBySymbol(items) by {
      forall k | k in items.entries
        ensures Symbol(items.entries[k]) == k
      {
      }
    }
  }

  /** The precedence tiers are `+ -`, `* / %` and `^`, each in registration order, and no
      other precedence has any operator. */
  lemma DefaultTiers(p: int)
    ensures OperatorRegistry.GetByPrecedence(DefaultOperators(), p) ==
      if p == 1 then ["+", "-"] else if p == 2 then ["*", "/", "%"] else if p == 3 then ["^"] else []
  {
    DefaultOperatorsContents();
    StandardTiers(DefaultOperators(), p);
  }

  /** The tiers of any registry holding the six operators in the default order. */
  lemma StandardTiers(items: Items<OperatorKind>, p: int)
    requires items.keys == ["+", "-", "*", "/", "%", "^"]
    requires items.entries == map["+" := Addition, "-" := Subtraction, "*" := Multiplication,
                                  "/" := Division, "%" := Modulo, "^" := Power]
    ensures OperatorRegistry.Filter(items, items.keys, p) ==
      if p == 1 then ["+", "-"] else if p == 2 then ["*", "/", "%"] else if p == 3 then ["^"] else []
  {
    OperatorRegistry.FilterCons(items, "^", [], p);
    OperatorRegistry.FilterCons(items, "%", ["^"], p);
    OperatorRegistry.FilterCons(items, "/", ["%", "^"], p);
    OperatorRegistry.FilterCons(items, "*", ["/", "%", "^"], p);
    OperatorRegistry.FilterCons(items, "-", ["*", "/", "%", "^"], p);
    OperatorRegistry.FilterCons(items, "+", ["-", "*", "/", "%", "^"], p);
  }

  /** The function registry holds exactly the seven names, in registration order. */
  lemma DefaultFunctionsContents()
    ensures DefaultFunctions().keys == ["sqrt", "abs", "sin", "cos", "tan", "log", "ln"]
    ensures DefaultFunctions().entries == map["sqrt" := Sqrt, "abs" := Abs, "sin" := Sin, "cos" := Cos,
                                              "tan" := Tan, "log" := Log, "ln" := Ln]
  {
    var i1 := Empty().Put("sqrt", Sqrt);
    var i2 := i1.Put("abs", Abs);
    var i3 := i2.Put("sin", Sin);
    var i4 := i3.Put("cos", Cos);
    var i5 := i4.Put("tan", Tan);
    var i6 := i5.Put("log", Log);
    var i7 := i6.Put("ln", Ln);
    assert i7 == DefaultFunctions();
  }

  /** Registering one function after another keeps every key listed exactly once. */
  lemma DefaultFunctionsValid()
    ensures DefaultFunctions().Valid()
  {
    var i0 := Empty<FunctionKind>();
    PutValid(i0, "sqrt", Sqrt);
    var i1 := i0.Put("sqrt", Sqrt);
    PutValid(i1, "abs", Abs);
    var i2 := i1.Put("abs", Abs);
    PutValid(i2, "sin", Sin);
    var i3 := i2.Put("sin", Sin);
    PutValid(i3, "cos", Cos);
    var i4 := i3.Put("cos", Cos);
    PutValid(i4, "tan", Tan);
    var i5 := i4.Put("tan", Tan);
    PutValid(i5, "log", Log);
    var i6 := i5.Put("log", Log);
    PutValid(i6, "ln", Ln);
  }

  /** Each function is found under its own name, and a name is registered exactly when some
      function has it: the seven names are the only letter runs the tokenizer accepts. */
  lemma DefaultFunctionsLookup(f: FunctionKind, n: string)
    ensures DefaultFunctions().Valid() && FunctionRegistry.KeyedByName(DefaultFunctions())
    ensures Name(f) in DefaultFunctions().entries
    ensures FunctionRegistry.Get(DefaultFunctions(), Name(f)) == f
    ensures n in DefaultFunctions().entries <==> n in ["sqrt", "abs", "sin", "cos", "tan", "log", "ln"]
  {
    DefaultFunctionsValid();
    DefaultFunctionsContents();
    StandardFunctions(DefaultFunctions(), f, n);
  }

  /** Lookups in any registry holding the seven functions under their names. */
  lemma StandardFunctions(items: Items<FunctionKind>, f: FunctionKind, n: string)
    requires items.entries == map["sqrt" := Sqrt, "abs" := Abs, "sin" := Sin, "cos" := Cos,
                                  "tan" := Tan, "log" := Log, "ln" := Ln]
    ensures FunctionRegistry.KeyedByName(items)
    ensures Name(f) in items.entries && FunctionRegistry.Get(items, Name(f)) == f
    ensures n in items.entries <==> n in ["sqrt", "abs", "sin", "cos", "tan", "log", "ln"]
  {
    assert FunctionRegistry.KeyedByName(items) by {
      forall k | k in items.entries
        ensures Name(items.entries[k]) == k
      {
      }
    }
  }
}
