/** The generic keyed store behind both catalogues (app/Services/Registry.php).
    Its `$items` field is a PHP array: a map from string keys to items that also remembers
    the order in which keys were first inserted. `Items` is that array as a value, and the
    class `Registry` holds one and updates it in place. */
module Registries {
  import opened Wrappers

  predicate NoDuplicates(s: seq<string>)
  {
    forall i, j :: 0 <= i < j < |s| ==> s[i] != s[j]
  }

  /** A PHP array with string keys: its entries and its keys in insertion order. */
  datatype Items<T> = Items(entries: map<string, T>, keys: seq<string>) {

    ghost predicate Valid()
    {
      NoDuplicates(keys) && forall k :: k in entries <==> k in keys
    }

    /** `$items[$key] = $item`: replaces the entry under `key` and keeps its place in the key
        order, or appends `key` if it is new. Nothing else changes. */
    function Put(key: string, item: T): (r: Items<T>)
      ensures r.entries == entries[key := item]
      ensures key in entries ==> r.keys == keys
      ensures key !in entries ==> r.keys == keys + [key]
    {
      Items(entries[key := item], if key in entries then keys else keys + [key])
    }

    /** `$items[$key] ?? null`. */
    function Lookup(key: string): (r: Option<T>)
      ensures r.Some? <==> key in entries
      ensures r.Some? ==> r.value == entries[key]
    {
      if key in entries then Some(entries[key]) else None
    }
  }

  /** Putting keeps every key listed exactly once. */
  lemma PutValid<T>(items: Items<T>, key: string, item: T)
    requires items.Valid()
    ensures items.Put(key, item).Valid()
  {
  }

  /** Registering a second item under a key already taken replaces the first item and
      keeps the key once, in the place it was first given. */
  lemma LaterRegistrationWins<T>(items: Items<T>, keyOf: T -> string, x: T, y: T)
    requires items.Valid() && keyOf(x) == keyOf(y)
    ensures items.Put(keyOf(x), x).Put(keyOf(y), y).Lookup(keyOf(x)) == Some(y)
    ensures items.Put(keyOf(x), x).Put(keyOf(y), y).keys == items.Put(keyOf(x), x).keys
    ensures items.Put(keyOf(x), x).Put(keyOf(y), y).Valid()
    ensures forall k :: k != keyOf(x) ==> items.Put(keyOf(x), x).Put(keyOf(y), y).Lookup(k) == items.Lookup(k)
  {
    PutValid(items, keyOf(x), x);
    PutValid(items.Put(keyOf(x), x), keyOf(y), y);
  }

  /** The empty array a registry starts with. */
  function Empty<T>(): (r: Items<T>)
    ensures r.Valid() && r.keys == [] && forall k :: k !in r.entries
  {
    Items(map[], [])
  }

  /** The effect of calling `register` on each of `xs` in turn. */
  function RegisterAll<T>(items: Items<T>, keyOf: T -> string, xs: seq<T>): (r: Items<T>)
    requires items.Valid()
    ensures r.Valid()
    decreases |xs|
  {
    if xs == [] then items
    else
      var last := xs[|xs| - 1];
      var earlier := RegisterAll(items, keyOf, xs[..|xs| - 1]);
      PutValid(earlier, keyOf(last), last);
      earlier.Put(keyOf(last), last)
  }

  /** The distinct keys of `ks`, each once, in order of first occurrence. */
  function FirstOccurrences(ks: seq<string>): seq<string>
  {
    if ks == [] then []
    else
      var earlier := FirstOccurrences(ks[..|ks| - 1]);
      var k := ks[|ks| - 1];
      if k in earlier then earlier else earlier + [k]
  }

  /** The keys of `xs`, in order. */
  function KeysOf<T>(keyOf: T -> string, xs: seq<T>): (ks: seq<string>)
    ensures |ks| == |xs| && forall i :: 0 <= i < |xs| ==> ks[i] == keyOf(xs[i])
  {
    if xs == [] then [] else KeysOf(keyOf, xs[..|xs| - 1]) + [keyOf(xs[|xs| - 1])]
  }

  /** The last of `xs` whose key is `key`, if any. */
  function LastWithKey<T>(keyOf: T -> string, xs: seq<T>, key: string): Option<T>
  {
    if xs == [] then None
    else if keyOf(xs[|xs| - 1]) == key then Some(xs[|xs| - 1])
    else LastWithKey(keyOf, xs[..|xs| - 1], key)
  }

  /** Registering `xs` into an empty store lists each key once, in first-registration order. */
  lemma {:induction false} RegisterAllKeys<T>(keyOf: T -> string, xs: seq<T>)
    ensures RegisterAll(Empty(), keyOf, xs).keys == FirstOccurrences(KeysOf(keyOf, xs))
  {
    if xs != [] {
      var init := xs[..|xs| - 1];
      RegisterAllKeys(keyOf, init);
      assert KeysOf(keyOf, xs)[..|xs| - 1] == KeysOf(keyOf, init);
    }
  }

  /** The last registration for a key wins; a key never registered is absent. */
  lemma {:induction false} RegisterAllLookup<T>(keyOf: T -> string, xs: seq<T>, key: string)
    ensures RegisterAll(Empty(), keyOf, xs).Lookup(key) == LastWithKey(keyOf, xs, key)
  {
    if xs != [] {
      RegisterAllLookup(keyOf, xs[..|xs| - 1], key);
    }
  }

  /** Registering never removes a key: once present, a key stays present. */
  lemma {:induction false} RegisterAllKeepsKeys<T>(items: Items<T>, keyOf: T -> string, xs: seq<T>, key: string)
    requires items.Valid() && key in items.entries
    ensures key in RegisterAll(items, keyOf, xs).entries
    decreases |xs|
  {
    if xs != [] {
      RegisterAllKeepsKeys(items, keyOf, xs[..|xs| - 1], key);
    }
  }

  /** A registry object. `keyOf` stands for the subclass's `getKey`. */
  class Registry<T> {
    var items: Items<T>
    const keyOf: T -> string

    /** Every item is stored under its own key. */
    ghost predicate Valid()
      reads this
    {
      items.Valid() && forall k :: k in items.entries ==> keyOf(items.entries[k]) == k
    }

    constructor (keyOf: T -> string)
      ensures Valid() && this.keyOf == keyOf && items == Empty()
    {
      this.keyOf := keyOf;
      items := Empty();
    }

    /** `register($item)`: stores the item under its key, replacing any earlier item with
        that key, and returns the registry itself so that calls can be chained. */
    method Register(item: T) returns (self: Registry<T>)
      requires Valid()
      modifies this
      ensures Valid() && self == this
      ensures items == old(items).Put(keyOf(item), item)
    {
      PutValid(items, keyOf(item), item);
      items := items.Put(keyOf(item), item);
      self := this;
    }

    /** `get($key)`: the item stored under `key`, or nothing. */
    function Get(key: string): (r: Option<T>)
      reads this
      requires Valid()
      ensures r.Some? <==> Has(key)
      ensures r.Some? ==> keyOf(r.value) == key && r.value == All()[key]
    {
      items.Lookup(key)
    }

    /** `has($key)`. */
    predicate Has(key: string)
      reads this
    {
      key in items.entries
    }

    /** `keys()`: every registered key once, in registration order. */
    function Keys(): (ks: seq<string>)
      reads this
      requires Valid()
      ensures NoDuplicates(ks) && forall k :: k in ks <==> Has(k)
    {
      items.keys
    }

    /** `all()`: the whole mapping. */
    function All(): (m: map<string, T>)
      reads this
      ensures forall k :: k in m <==> Has(k)
    {
      items.entries
    }
  }
}
