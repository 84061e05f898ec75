// Lazily assigned, dense per-type indices.
//
// Both `Resources` and `Permission` keep, for every C++ type T, a static
// `TypeIndex<T>::ms_index` (0 until first use) and one shared static counter
// in `gen_type_index` that hands out 1, 2, 3, ... . The two families are
// independent; each is modelled as one `TypeIds` object.
module TypeIndex {

  /** Identity of a C++ type. Types are compared for identity only. */
  type TypeId = nat

  /** True when every index recorded in `m` is also recorded, unchanged, in `m'`. */
  ghost predicate Extends(m: map<TypeId, nat>, m': map<TypeId, nat>) {
    forall t :: t in m ==> t in m' && m'[t] == m[t]
  }

  /** Growing a table twice grows it once. */
  lemma ExtendsTransitive(m: map<TypeId, nat>, m': map<TypeId, nat>, m'': map<TypeId, nat>)
    requires Extends(m, m') && Extends(m', m'')
    ensures Extends(m, m'')
  {
  }

  /** A table grown by nothing is the table it was. */
  lemma ExtendsSameKeys(m: map<TypeId, nat>, m': map<TypeId, nat>)
    requires Extends(m, m') && m'.Keys == m.Keys
    ensures m' == m
  {
  }

  /** No two types share an index. */
  ghost predicate Injective(m: map<TypeId, nat>) {
    forall t, u :: t in m && u in m && t != u ==> m[t] != m[u]
  }

  class TypeIds {
    /** The static counter of `gen_type_index`: the last index handed out. */
    var last: nat
    /** `TypeIndex<T>::ms_index` for every T that has been assigned one. */
    var index: map<TypeId, nat>

    /** Every index handed out lies in 1..last and no two types share one. */
    ghost predicate Valid()
      reads this
    {
      && (forall t :: t in index ==> 1 <= index[t] <= last)
      && Injective(index)
    }

    /** Start of a process run: no type has an index yet. */
    constructor ()
      ensures Valid() && last == 0 && index == map[]
    {
      last := 0;
      index := map[];
    }

    /** `TypeIndex<T>::ms_index`: 0 means "unassigned". */
    function IndexOf(t: TypeId): (i: nat)
      reads this
      requires Valid()
      ensures i == 0 <==> t !in index
      ensures i != 0 ==> i <= last
    {
      if t in index then index[t] else 0
    }

    /** `gen_type_index`: bump the counter and return its new value. */
    method GenTypeIndex() returns (i: nat)
      modifies this`last
      ensures i == last == old(last) + 1
    {
      last := last + 1;
      i := last;
    }

    /**
     * The lazy fetch-or-assign that starts `set_ptr`, `set_read_permission`
     * and `set_write_permission`: an unassigned type gets the next counter
     * value, an assigned one keeps its index.
     */
    method IndexFor(t: TypeId) returns (i: nat)
      requires Valid()
      modifies this
      ensures Valid() && i >= 1 && i == IndexOf(t)
      ensures Extends(old(index), index) && index.Keys == old(index.Keys) + {t}
      ensures t in old(index) ==> index == old(index) && last == old(last)
      ensures t !in old(index) ==> index == old(index)[t := i] && i == last == old(last) + 1
    {
      if t in index {
        i := index[t];
      } else {
        i := GenTypeIndex();
        index := index[t := i];
      }
    }
  }

  /** The types a type list names. */
  ghost function Elems(ts: seq<TypeId>): set<TypeId> {
    set t | t in ts
  }

  /** The indices that `index` gives to the types of `ts`. */
  function Indices(index: map<TypeId, nat>, ts: set<TypeId>): (r: set<nat>)
    requires ts <= index.Keys
  {
    set t | t in ts :: index[t]
  }

  lemma ElemsAppend(a: seq<TypeId>, b: seq<TypeId>)
    ensures Elems(a + b) == Elems(a) + Elems(b)
  {
  }

  /** The image of a union is the union of the images. */
  lemma IndicesUnion(m: map<TypeId, nat>, a: set<TypeId>, b: set<TypeId>)
    requires a <= m.Keys && b <= m.Keys
    ensures Indices(m, a + b) == Indices(m, a) + Indices(m, b)
  {
  }

  /** Indices already recorded keep their value when the table grows. */
  lemma IndicesExtend(m: map<TypeId, nat>, m': map<TypeId, nat>, ts: set<TypeId>)
    requires ts <= m.Keys && Extends(m, m')
    ensures ts <= m'.Keys && Indices(m', ts) == Indices(m, ts)
  {
  }

  /** With no index shared, a type's index is in the image of a set exactly when the type is. */
  lemma IndicesInjective(m: map<TypeId, nat>, ts: set<TypeId>, t: TypeId)
    requires ts <= m.Keys && t in m
    requires Injective(m)
    ensures m[t] in Indices(m, ts) <==> t in ts
  {
  }

  /**
   * How many new indices assigning the types of `ts` in order hands out,
   * when the types in `keys` already have one: each type met for the first
   * time takes the next counter value.
   */
  function FreshCount(ts: seq<TypeId>, keys: set<TypeId>): nat
  {
    if ts == [] then 0
    else if ts[0] in keys then FreshCount(ts[1..], keys)
    else 1 + FreshCount(ts[1..], keys + {ts[0]})
  }

  /** A single type needs a fresh index exactly when it has none. */
  lemma FreshCountOne(t: TypeId, keys: set<TypeId>)
    ensures Elems([t]) == {t}
    ensures FreshCount([t], keys) == if t in keys then 0 else 1
  {
    assert [t][1..] == [];
  }

  /** Types that all have an index already take no fresh one. */
  lemma {:induction false} FreshCountAssigned(ts: seq<TypeId>, keys: set<TypeId>)
    requires Elems(ts) <= keys
    ensures FreshCount(ts, keys) == 0
  {
    if ts != [] {
      assert ts[0] in Elems(ts) && Elems(ts[1..]) <= Elems(ts);
      FreshCountAssigned(ts[1..], keys);
    }
  }

  /** The counter advances once per distinct listed type that had no index. */
  lemma {:induction false} FreshCountDistinct(ts: seq<TypeId>, keys: set<TypeId>)
    ensures FreshCount(ts, keys) == |Elems(ts) - keys|
  {
    if ts != [] {
      assert Elems(ts) == {ts[0]} + Elems(ts[1..]);
      if ts[0] in keys {
        FreshCountDistinct(ts[1..], keys);
        assert Elems(ts) - keys == Elems(ts[1..]) - keys;
      } else {
        FreshCountDistinct(ts[1..], keys + {ts[0]});
        assert Elems(ts) - keys == (Elems(ts[1..]) - (keys + {ts[0]})) + {ts[0]};
      }
    }
  }

  /** Assigning two lists in a row hands out the first's fresh indices, then the second's. */
  lemma {:induction false} FreshCountAppend(a: seq<TypeId>, b: seq<TypeId>, keys: set<TypeId>)
    ensures FreshCount(a + b, keys) == FreshCount(a, keys) + FreshCount(b, keys + Elems(a))
  {
    if a == [] {
      assert a + b == b;
      assert keys + Elems(a) == keys;
    } else {
      assert (a + b)[1..] == a[1..] + b;
      assert Elems(a) == {a[0]} + Elems(a[1..]);
      if a[0] in keys {
        FreshCountAppend(a[1..], b, keys);
        assert keys + Elems(a) == keys + Elems(a[1..]);
      } else {
        FreshCountAppend(a[1..], b, keys + {a[0]});
        assert keys + Elems(a) == keys + {a[0]} + Elems(a[1..]);
      }
    }
  }
}
