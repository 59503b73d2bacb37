/** The operator registry (app/Services/Operators/OperatorRegistry.php): a `Registry` of
    operators keyed by their symbol, with a filter by precedence. Its queries only read the
    stored items, so they are functions of an `Items` value. */
module OperatorRegistry {
  import opened Registries
  import opened Operators

  /** `getKey`: an operator is registered under its symbol. */
  function KeyOf(op: OperatorKind): string
  {
    Symbol(op)
  }

  /** Every entry is stored under its own symbol. */
  ghost predicate KeyedBySymbol(items: Items<OperatorKind>)
  {
    forall s :: s in items.entries ==> Symbol(items.entries[s]) == s
  }

  /** `new OperatorRegistry`. */
  method New() returns (r: Registry<OperatorKind>)
    ensures fresh(r) && r.Valid() && r.keyOf == KeyOf && r.items == Empty()
  {
    r := new Registry(KeyOf);
  }

  /** `get($symbol)`: its return type is not nullable, so the symbol must be registered. */
  function Get(items: Items<OperatorKind>, symbol: string): (op: OperatorKind)
    requires symbol in items.entries
    ensures KeyedBySymbol(items) ==> Symbol(op) == symbol
  {
    items.entries[symbol]
  }

  /** `symbols()`: the registered keys. */
  function Symbols(items: Items<OperatorKind>): (syms: seq<string>)
    requires items.Valid()
    ensures NoDuplicates(syms) && forall s :: s in syms <==> s in items.entries
  {
    items.keys
  }

  /** `getByPrecedence($p)`: the registered symbols whose operator has precedence `p`,
      in registration order. */
  function GetByPrecedence(items: Items<OperatorKind>, p: int): seq<string>
  {
    Filter(items, items.keys, p)
  }

  /** A symbol is in the tier of precedence `p` exactly when it is registered with an
      operator of that precedence. */
  lemma TierMembers(items: Items<OperatorKind>, p: int, s: string)
    ensures s in GetByPrecedence(items, p) <==> s in items.keys && s in items.entries && Precedence(items.entries[s]) == p
  {
    FilterMembers(items, items.keys, p);
  }

  /** A tier lists each of its symbols once. */
  lemma TierDistinct(items: Items<OperatorKind>, p: int)
    requires items.Valid()
    ensures NoDuplicates(GetByPrecedence(items, p))
  {
    FilterMembers(items, items.keys, p);
  }

  /** The keys among `ks` whose entry has precedence `p`, order kept. */
  function Filter(items: Items<OperatorKind>, ks: seq<string>, p: int): seq<string>
    decreases |ks|
  {
    if ks == [] then []
    else
      var rest := Filter(items, ks[1..], p);
      if ks[0] in items.entries && Precedence(items.entries[ks[0]]) == p then [ks[0]] + rest else rest
  }

  /** `Filter` keeps exactly the keys of precedence `p`, and never repeats one. */
  lemma {:induction false} FilterMembers(items: Items<OperatorKind>, ks: seq<string>, p: int)
    ensures forall s :: s in Filter(items, ks, p) <==> s in ks && s in items.entries && Precedence(items.entries[s]) == p
    ensures NoDuplicates(ks) ==> NoDuplicates(Filter(items, ks, p))
    decreases |ks|
  {
    if ks != [] {
      FilterMembers(items, ks[1..], p);
      assert ks == [ks[0]] + ks[1..];
    }
  }

  /** One step of `Filter`: the head is kept exactly when its precedence is `p`. */
  lemma FilterCons(items: Items<OperatorKind>, k: string, ks: seq<string>, p: int)
    requires k in items.entries
    ensures Filter(items, [k] + ks, p) ==
      (if Precedence(items.entries[k]) == p then [k] else []) + Filter(items, ks, p)
  {
    assert ([k] + ks)[1..] == ks;
  }

  /** Tiers never share a symbol, and every tier lists only registered symbols. */
  lemma TiersPartitionSymbols(items: Items<OperatorKind>, p: int, q: int, s: string)
    requires items.Valid()
    ensures s in GetByPrecedence(items, p) ==> s in Symbols(items)
    ensures s in GetByPrecedence(items, p) && s in GetByPrecedence(items, q) ==> p == q
    ensures s in Symbols(items) ==> s in GetByPrecedence(items, Precedence(Get(items, s)))
  {
    TierMembers(items, p, s);
    TierMembers(items, q, s);
    if s in Symbols(items) {
      TierMembers(items, Precedence(Get(items, s)), s);
    }
  }
}
