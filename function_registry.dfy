/** The function registry (app/Services/Functions/FunctionRegistry.php): a `Registry` of
    functions keyed by their name. */
module FunctionRegistry {
  import opened Registries
  import opened Functions

  /** `getKey`: a function is registered under its name. */
  function KeyOf(f: FunctionKind): string
  {
    Name(f)
  }

  ghost predicate KeyedByName(items: Items<FunctionKind>)
  {
    forall n :: n in items.entries ==> Name(items.entries[n]) == n
  }

  /** `new FunctionRegistry`. */
  method New() returns (r: Registry<FunctionKind>)
    ensures fresh(r) && r.Valid() && r.keyOf == KeyOf && r.items == Empty()
  {
    r := new Registry(KeyOf);
  }

  /** `get($name)`: its return type is not nullable, so the name must be registered. */
  function Get(items: Items<FunctionKind>, name: string): (f: FunctionKind)
    requires name in items.entries
    ensures KeyedByName(items) ==> Name(f) == name
  {
    items.entries[name]
  }

  /** `names()`: the registered keys. */
  function Names(items: Items<FunctionKind>): (names: seq<string>)
    requires items.Valid()
    ensures NoDuplicates(names) && forall n :: n in names <==> n in items.entries
  {
    items.keys
  }
}
