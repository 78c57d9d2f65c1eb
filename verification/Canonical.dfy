/** The canonical form of a JSON-like value: equal content always has equal text. */
module Canonical {
  datatype Value =
    | Undefined | Null | Bool(b: bool) | Number(n: real) | Str(s: string)
    | Array(items: Values) | Object(entries: Entries)

  datatype Values = Nil | Cons(head: Value, tail: Values)

  /** The entries of an object, in the order they are listed in. */
  datatype Entries = End | Entry(key: string, value: Value, rest: Entries)

  /** The order the keys of a rebuilt object are listed in. An object lists integer keys first, in
      numeric order, then the others as they were added, here sorted: whatever it is exactly, it is
      a strict total order on keys. */
  type KeyOrder = (string, string) -> bool

  ghost predicate TotalOrder(before: KeyOrder) {
    && (forall a, b :: before(a, b) ==> !before(b, a))
    && (forall a, b :: a != b ==> before(a, b) || before(b, a))
    && (forall a, b, c :: before(a, b) && before(b, c) ==> before(a, c))
  }

  // ---------------------------------------------------------------- sortKeys

  function SortKeys(v: Value, before: KeyOrder): Value {
    match v
    case Array(items) => Array(SortItems(items, before))
    case Object(entries) => Object(SortEntries(entries, before))
    case _ => v
  }

  function SortItems(items: Values, before: KeyOrder): Values {
    match items
    case Nil => Nil
    case Cons(head, tail) => Cons(SortKeys(head, before), SortItems(tail, before))
  }

  /** Drops what is undefined, and puts the rest in key order. */
  function SortEntries(entries: Entries, before: KeyOrder): Entries {
    match entries
    case End => End
    case Entry(key, value, rest) =>
      if value == Undefined then SortEntries(rest, before)
      else Insert(key, SortKeys(value, before), SortEntries(rest, before), before)
  }

  function Insert(key: string, value: Value, entries: Entries, before: KeyOrder): Entries {
    if entries.End? || before(key, entries.key) then Entry(key, value, entries)
    else Entry(entries.key, entries.value, Insert(key, value, entries.rest, before))
  }

  function CanonicalJson(v: Value, before: KeyOrder, stringify: Value -> string): string {
    stringify(SortKeys(v, before))
  }

  // ---------------------------------------------------------------- equal content

  function Size(v: Value): (n: nat)
    ensures n > 0
  {
    match v
    case Array(items) => 1 + ItemsSize(items)
    case Object(entries) => 2 + EntriesSize(entries)
    case _ => 1
  }

  function ItemsSize(items: Values): nat {
    match items
    case Nil => 0
    case Cons(head, tail) => Size(head) + ItemsSize(tail)
  }

  function EntriesSize(entries: Entries): nat {
    match entries
    case End => 0
    case Entry(_, value, rest) => Size(value) + EntriesSize(rest)
  }

  /** Reading a property: `undefined` when there is none. */
  function Lookup(entries: Entries, key: string): (v: Value)
    ensures Size(v) <= 1 + EntriesSize(entries)
  {
    match entries
    case End => Undefined
    case Entry(k, value, rest) => if k == key then value else Lookup(rest, key)
  }

  /** Equal content: the same arrays, item by item, and objects with the same properties, where
      neither the order of keys nor an undefined property counts. */
  ghost predicate Same(v: Value, w: Value)
    decreases Size(v), 0
  {
    match (v, w)
    case (Array(a), Array(b)) => SameItems(a, b)
    case (Object(e), Object(f)) => forall key :: Same(Lookup(e, key), Lookup(f, key))
    case _ => v == w
  }

  ghost predicate SameItems(a: Values, b: Values)
    decreases ItemsSize(a), 1
  {
    match (a, b)
    case (Nil, Nil) => true
    case (Cons(v, s), Cons(w, t)) => Same(v, w) && SameItems(s, t)
    case _ => false
  }

  predicate HasKey(entries: Entries, key: string) {
    entries.Entry? && (entries.key == key || HasKey(entries.rest, key))
  }

  /** No object lists a key twice. */
  predicate WellFormed(v: Value) {
    match v
    case Array(items) => WellFormedItems(items)
    case Object(entries) => WellFormedEntries(entries)
    case _ => true
  }

  predicate WellFormedItems(items: Values) {
    items.Cons? ==> WellFormed(items.head) && WellFormedItems(items.tail)
  }

  predicate WellFormedEntries(entries: Entries) {
    entries.Entry? ==>
      !HasKey(entries.rest, entries.key) && WellFormed(entries.value) && WellFormedEntries(entries.rest)
  }

  // ---------------------------------------------------------------- sorted entries

  ghost predicate Sorted(entries: Entries, before: KeyOrder) {
    entries.Entry? ==>
      && entries.value != Undefined && Sorted(entries.rest, before)
      && (forall key :: HasKey(entries.rest, key) ==> before(entries.key, key))
  }

  lemma {:induction false} NoKeyNoValue(entries: Entries, key: string)
    requires !HasKey(entries, key)
    ensures Lookup(entries, key) == Undefined
  {
    if entries.Entry? { NoKeyNoValue(entries.rest, key); }
  }

  lemma {:induction false} SortedHasValues(entries: Entries, before: KeyOrder, key: string)
    requires Sorted(entries, before)
    ensures HasKey(entries, key) <==> Lookup(entries, key) != Undefined
  {
    if entries.Entry? { SortedHasValues(entries.rest, before, key); }
  }

  lemma {:induction false} Inserted(key: string, value: Value, entries: Entries, before: KeyOrder)
    requires TotalOrder(before) && Sorted(entries, before) && !HasKey(entries, key) && value != Undefined
    ensures var r := Insert(key, value, entries, before);
            && Sorted(r, before)
            && (forall k :: HasKey(r, k) <==> k == key || HasKey(entries, k))
            && (forall k :: Lookup(r, k) == if k == key then value else Lookup(entries, k))
  {
    if entries.Entry? && !before(key, entries.key) {
      Inserted(key, value, entries.rest, before);
    } else {
      NoKeyNoValue(entries, key);
    }
  }

  lemma {:induction false} SortDefined(v: Value, before: KeyOrder)
    ensures SortKeys(v, before) == Undefined <==> v == Undefined
  {
  }

  /** Sorting keeps every property and its sorted value. */
  lemma {:induction false} SortedEntries(entries: Entries, before: KeyOrder)
    requires TotalOrder(before) && WellFormedEntries(entries)
    ensures var r := SortEntries(entries, before);
            && Sorted(r, before)
            && (forall k :: Lookup(r, k) == SortKeys(Lookup(entries, k), before))
            && (forall k :: HasKey(r, k) ==> HasKey(entries, k))
  {
    if entries.Entry? {
      SortedEntries(entries.rest, before);
      NoKeyNoValue(entries.rest, entries.key);
      SortDefined(entries.value, before);
      if entries.value != Undefined {
        Inserted(entries.key, SortKeys(entries.value, before), SortEntries(entries.rest, before), before);
      }
    }
  }

  lemma FirstKeyFirst(entries: Entries, key: string, before: KeyOrder)
    requires entries.Entry? && Sorted(entries, before) && HasKey(entries, key)
    ensures entries.key == key || before(entries.key, key)
  {
  }

  lemma SameFirstKey(a: Entries, b: Entries, before: KeyOrder)
    requires TotalOrder(before) && a.Entry? && b.Entry? && Sorted(a, before) && Sorted(b, before)
    requires HasKey(a, b.key) && HasKey(b, a.key)
    ensures a.key == b.key
  {
    FirstKeyFirst(a, b.key, before);
    FirstKeyFirst(b, a.key, before);
  }

  /** Sorted entries are determined by their properties. */
  lemma {:induction false} SortedUnique(a: Entries, b: Entries, before: KeyOrder)
    requires TotalOrder(before) && Sorted(a, before) && Sorted(b, before)
    requires forall key :: Lookup(a, key) == Lookup(b, key)
    ensures a == b
  {
    forall key ensures HasKey(a, key) <==> HasKey(b, key) {
      SortedHasValues(a, before, key);
      SortedHasValues(b, before, key);
    }
    if a.Entry? {
      assert HasKey(a, a.key) && HasKey(b, a.key);
      assert HasKey(b, b.key) && HasKey(a, b.key);
      SameFirstKey(a, b, before);
      assert Lookup(a, a.key) == Lookup(b, a.key);
      forall key ensures Lookup(a.rest, key) == Lookup(b.rest, key) {
        if key == a.key {
          assert !before(key, key);
          NoKeyNoValue(a.rest, key);
          NoKeyNoValue(b.rest, key);
        } else {
          assert Lookup(a, key) == Lookup(b, key);
        }
      }
      SortedUnique(a.rest, b.rest, before);
    } else {
      assert b.Entry? ==> HasKey(b, b.key);
    }
  }

  lemma {:induction false} LookupWellFormed(entries: Entries, key: string)
    requires WellFormedEntries(entries)
    ensures WellFormed(Lookup(entries, key))
  {
    if entries.Entry? && entries.key != key { LookupWellFormed(entries.rest, key); }
  }

  // ---------------------------------------------------------------- the canonical form

  /** Two values have the same canonical form exactly when their content is equal, at every depth. */
  lemma {:induction false} CanonicalForm(v: Value, w: Value, before: KeyOrder)
    requires TotalOrder(before) && WellFormed(v) && WellFormed(w)
    ensures SortKeys(v, before) == SortKeys(w, before) <==> Same(v, w)
    decreases Size(v), 0
  {
    match (v, w)
    case (Array(a), Array(b)) => CanonicalItems(a, b, before);
    case (Object(e), Object(f)) =>
      SortedEntries(e, before);
      SortedEntries(f, before);
      forall key
        ensures SortKeys(Lookup(e, key), before) == SortKeys(Lookup(f, key), before) <==>
                Same(Lookup(e, key), Lookup(f, key))
      {
        LookupWellFormed(e, key);
        LookupWellFormed(f, key);
        CanonicalForm(Lookup(e, key), Lookup(f, key), before);
      }
      var r, s := SortEntries(e, before), SortEntries(f, before);
      if forall key :: Same(Lookup(e, key), Lookup(f, key)) {
        forall key ensures Lookup(r, key) == Lookup(s, key) {}
        SortedUnique(r, s, before);
      }
      if r == s {
        forall key ensures Same(Lookup(e, key), Lookup(f, key)) { assert Lookup(r, key) == Lookup(s, key); }
      }
    case _ =>
  }

  lemma {:induction false} CanonicalItems(a: Values, b: Values, before: KeyOrder)
    requires TotalOrder(before) && WellFormedItems(a) && WellFormedItems(b)
    ensures SortItems(a, before) == SortItems(b, before) <==> SameItems(a, b)
    decreases ItemsSize(a), 1
  {
    if a.Cons? && b.Cons? {
      CanonicalForm(a.head, b.head, before);
      CanonicalItems(a.tail, b.tail, before);
    }
  }

  /** The canonical form has the same content as the value. */
  lemma {:induction false} SortKeepsContent(v: Value, before: KeyOrder)
    requires TotalOrder(before) && WellFormed(v)
    ensures Same(SortKeys(v, before), v) && WellFormed(SortKeys(v, before))
    decreases Size(v), 0
  {
    match v
    case Array(items) => SortKeepsItems(items, before);
    case Object(entries) =>
      SortedEntries(entries, before);
      var r := SortEntries(entries, before);
      forall key ensures Same(Lookup(r, key), Lookup(entries, key)) && WellFormed(Lookup(r, key)) {
        LookupWellFormed(entries, key);
        SortKeepsContent(Lookup(entries, key), before);
      }
      SortedWellFormed(r, before);
    case _ =>
  }

  lemma {:induction false} SortKeepsItems(items: Values, before: KeyOrder)
    requires TotalOrder(before) && WellFormedItems(items)
    ensures SameItems(SortItems(items, before), items) && WellFormedItems(SortItems(items, before))
    decreases ItemsSize(items), 1
  {
    if items.Cons? {
      SortKeepsContent(items.head, before);
      SortKeepsItems(items.tail, before);
    }
  }

  lemma {:induction false} SortedWellFormed(entries: Entries, before: KeyOrder)
    requires TotalOrder(before) && Sorted(entries, before)
    requires forall key :: WellFormed(Lookup(entries, key))
    ensures WellFormedEntries(entries)
  {
    if entries.Entry? {
      assert !before(entries.key, entries.key);
      assert WellFormed(Lookup(entries, entries.key));
      forall key ensures WellFormed(Lookup(entries.rest, key)) {
        if key == entries.key { NoKeyNoValue(entries.rest, key); } else { assert WellFormed(Lookup(entries, key)); }
      }
      SortedWellFormed(entries.rest, before);
    }
  }

  /** Sorting twice is sorting once. */
  lemma SortIdempotent(v: Value, before: KeyOrder)
    requires TotalOrder(before) && WellFormed(v)
    ensures SortKeys(SortKeys(v, before), before) == SortKeys(v, before)
  {
    SortKeepsContent(v, before);
    CanonicalForm(SortKeys(v, before), v, before);
  }

  /** Equal content has equal text, and so equal fingerprints. */
  lemma EqualContentEqualText(v: Value, w: Value, before: KeyOrder, stringify: Value -> string)
    requires TotalOrder(before) && WellFormed(v) && WellFormed(w) && Same(v, w)
    ensures CanonicalJson(v, before, stringify) == CanonicalJson(w, before, stringify)
  {
    CanonicalForm(v, w, before);
  }
}
