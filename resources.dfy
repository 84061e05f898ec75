// The type-indexed resource registry `Resources`: one pointer per type,
// looked up through the type's lazily assigned index, plus an append-only
// list of values the registry owns and destroys back to front.
module Registry {
  import opened TypeIndex

  /**
   * A value of resource type `ty` living at a fixed address (the object's
   * identity). `payload` stands for the constructor arguments it was built
   * from; the registry never looks at it.
   */
  class ResourceValue {
    const ty: TypeId
    const payload: int

    constructor (ty: TypeId, payload: int)
      ensures this.ty == ty && this.payload == payload
    {
      this.ty := ty;
      this.payload := payload;
    }
  }

  /**
   * Every non-null slot of the pointer table holds a value of the type whose
   * index is that slot, and slot 0 (the "unassigned" index) is never used:
   * so the `static_cast<T*>` in `get_ptr<T>` is always right.
   */
  ghost predicate WellTyped(pointers: seq<ResourceValue?>, index: map<TypeId, nat>) {
    && (|pointers| > 0 ==> pointers[0] == null)
    && forall i :: 0 < i < |pointers| && pointers[i] != null ==>
         pointers[i].ty in index && index[pointers[i].ty] == i
  }

  /** New indices handed out elsewhere never make a table ill-typed. */
  lemma WellTypedExtend(pointers: seq<ResourceValue?>, m: map<TypeId, nat>, m': map<TypeId, nat>)
    requires WellTyped(pointers, m) && Extends(m, m')
    ensures WellTyped(pointers, m')
  {
  }

  /**
   * The table after `set_ptr` wrote `p` at slot `i`: first grown with null
   * slots up to `i` (`m_pointers.resize(index + 1)`) when too short, then
   * overwritten at `i`.
   */
  function Store(pointers: seq<ResourceValue?>, i: nat, p: ResourceValue?): (r: seq<ResourceValue?>)
    ensures |r| == if i < |pointers| then |pointers| else i + 1
    ensures r[i] == p
    ensures forall j :: 0 <= j < |r| && j != i ==> r[j] == if j < |pointers| then pointers[j] else null
  {
    var grown := if i < |pointers| then pointers else pointers + seq(i + 1 - |pointers|, _ => null);
    grown[i := p]
  }

  /** The order in which `~Resources` destroys a list of owned values: last first. */
  function Reversed<T>(s: seq<T>): (r: seq<T>)
  {
    if s == [] then [] else [s[|s| - 1]] + Reversed(s[..|s| - 1])
  }

  /** The k-th value destroyed is the k-th from the end of the list. */
  lemma {:induction false} ReversedAt<T>(s: seq<T>, k: nat)
    requires k < |s|
    ensures |Reversed(s)| == |s| && Reversed(s)[k] == s[|s| - 1 - k]
  {
    if k > 0 {
      ReversedAt(s[..|s| - 1], k - 1);
    } else {
      ReversedLength(s);
    }
  }

  lemma {:induction false} ReversedLength<T>(s: seq<T>)
    ensures |Reversed(s)| == |s|
  {
    if s != [] {
      ReversedLength(s[..|s| - 1]);
    }
  }

  /** Every owned value is destroyed exactly once: the trace is a permutation of the list. */
  lemma {:induction false} ReversedPermutes<T>(s: seq<T>)
    ensures multiset(Reversed(s)) == multiset(s)
  {
    if s != [] {
      var n := |s| - 1;
      ReversedPermutes(s[..n]);
      assert s == s[..n] + [s[n]];
    }
  }

  /**
   * The destruction order of an owned list built in two stretches, `s` then
   * `t`: the values appended later (`t`) are destroyed first, each stretch
   * back to front.
   */
  lemma {:induction false} ReversedAppend<T>(s: seq<T>, t: seq<T>)
    ensures Reversed(s + t) == Reversed(t) + Reversed(s)
    decreases |t|
  {
    if t == [] {
      assert s + t == s;
    } else {
      var n := |t| - 1;
      assert (s + t)[..|s + t| - 1] == s + t[..n];
      ReversedAppend(s, t[..n]);
    }
  }

  /** The pointer table read through `index`, as `get_ptr<T>` reads it. */
  function Lookup(pointers: seq<ResourceValue?>, index: map<TypeId, nat>, t: TypeId): (p: ResourceValue?)
    requires WellTyped(pointers, index) && Injective(index)
    ensures p != null ==> p.ty == t
  {
    var i := if t in index then index[t] else 0;
    if i == 0 || i >= |pointers| then null else pointers[i]
  }

  /**
   * Writing `p` at the slot of `t` (an index possibly just assigned) keeps the
   * table well typed, makes `t` resolve to `p` and leaves every other type
   * resolving as before.
   */
  lemma StoreLookup(pointers: seq<ResourceValue?>, m: map<TypeId, nat>, m': map<TypeId, nat>,
                    t: TypeId, p: ResourceValue?)
    requires WellTyped(pointers, m) && Extends(m, m')
    requires Injective(m) && Injective(m')
    requires t in m' && m'[t] >= 1 && (p != null ==> p.ty == t)
    requires forall u :: u in m' && u !in m ==> u == t
    ensures WellTyped(Store(pointers, m'[t], p), m')
    ensures Lookup(Store(pointers, m'[t], p), m', t) == p
    ensures forall u :: u != t ==> Lookup(Store(pointers, m'[t], p), m', u) == Lookup(pointers, m, u)
  {
    var r := Store(pointers, m'[t], p);
    forall u | u != t
      ensures Lookup(r, m', u) == Lookup(pointers, m, u)
    {
      if u in m' {
        assert u in m && m'[u] != m'[t];
      }
    }
  }

  class Resources {
    /** `m_pointers`: slot i holds the pointer registered for the type with index i. */
    var pointers: seq<ResourceValue?>
    /** `m_resources`: the values the registry owns, in construction order. */
    var owned: seq<ResourceValue>

    ghost predicate Valid(ids: TypeIds)
      reads this, ids
    {
      ids.Valid() && WellTyped(pointers, ids.index)
    }

    /** `Resources(allocator)`: an empty table and nothing owned. */
    constructor ()
      ensures pointers == [] && owned == []
    {
      pointers := [];
      owned := [];
    }

    /** `get_ptr<T>`: null when T has no index yet or its slot lies beyond the table. */
    function GetPtr(ids: TypeIds, t: TypeId): (p: ResourceValue?)
      reads this, ids
      requires Valid(ids)
      ensures p != null ==> p.ty == t
      ensures p != null <==> 0 < ids.IndexOf(t) < |pointers| && pointers[ids.IndexOf(t)] != null
    {
      Lookup(pointers, ids.index, t)
    }

    /**
     * `set_ptr<T>`: assign T an index if it has none, grow the table to
     * reach it and overwrite the slot. Borrowed: nothing becomes owned.
     */
    method SetPtr(ids: TypeIds, t: TypeId, p: ResourceValue?) returns (r: ResourceValue?)
      requires Valid(ids)
      requires p != null ==> p.ty == t
      modifies this`pointers, ids
      ensures Valid(ids) && r == p
      ensures ids.IndexOf(t) >= 1 && Extends(old(ids.index), ids.index)
      ensures t in old(ids.index) ==> ids.index == old(ids.index) && ids.last == old(ids.last)
      ensures t !in old(ids.index) ==> ids.index == old(ids.index)[t := ids.last] && ids.last == old(ids.last) + 1
      ensures pointers == Store(old(pointers), ids.IndexOf(t), p)
      ensures |pointers| > ids.IndexOf(t)
      ensures GetPtr(ids, t) == p
      ensures forall u :: u != t ==> GetPtr(ids, u) == old(GetPtr(ids, u))
    {
      ghost var before := ids.index;
      var i := ids.IndexFor(t);
      if i >= |pointers| {
        pointers := pointers + seq(i + 1 - |pointers|, _ => null);
      }
      pointers := pointers[i := p];
      r := p;
      StoreLookup(old(pointers), before, ids.index, t, p);
    }

    /**
     * `emplace<T>(args...)`: construct a new T owned by the registry, append
     * it to the owned list and publish it through `set_ptr`. A value it
     * replaces in T's slot stays owned and alive.
     */
    method Emplace(ids: TypeIds, t: TypeId, args: int) returns (r: ResourceValue)
      requires Valid(ids)
      modifies this, ids
      ensures Valid(ids) && fresh(r) && r.ty == t && r.payload == args
      ensures owned == old(owned) + [r]
      ensures ids.IndexOf(t) >= 1 && Extends(old(ids.index), ids.index)
      ensures t in old(ids.index) ==> ids.index == old(ids.index) && ids.last == old(ids.last)
      ensures t !in old(ids.index) ==> ids.index == old(ids.index)[t := ids.last] && ids.last == old(ids.last) + 1
      ensures pointers == Store(old(pointers), ids.IndexOf(t), r)
      ensures GetPtr(ids, t) == r
      ensures forall u :: u != t ==> GetPtr(ids, u) == old(GetPtr(ids, u))
    {
      r := new ResourceValue(t, args);
      owned := owned + [r];
      var _ := SetPtr(ids, t, r);
    }

    /**
     * `set<T>(value)`: move `value` into a new registry-owned T. Building the
     * owned copy from the value is constructing it in place from that value.
     */
    method Set(ids: TypeIds, t: TypeId, value: int) returns (r: ResourceValue)
      requires Valid(ids)
      modifies this, ids
      ensures Valid(ids) && fresh(r) && r.ty == t && r.payload == value
      ensures owned == old(owned) + [r]
      ensures ids.IndexOf(t) >= 1 && Extends(old(ids.index), ids.index)
      ensures t in old(ids.index) ==> ids.index == old(ids.index) && ids.last == old(ids.last)
      ensures t !in old(ids.index) ==> ids.index == old(ids.index)[t := ids.last] && ids.last == old(ids.last) + 1
      ensures pointers == Store(old(pointers), ids.IndexOf(t), r)
      ensures GetPtr(ids, t) == r
      ensures forall u :: u != t ==> GetPtr(ids, u) == old(GetPtr(ids, u))
    {
      r := Emplace(ids, t, value);
    }

    /**
     * `~Resources`: pop the owned list from the back until it is empty. The
     * returned trace lists the destroyed values in the order destroyed.
     */
    method Destroy() returns (destroyed: seq<ResourceValue>)
      modifies this`owned
      ensures owned == []
      ensures destroyed == Reversed(old(owned))
    {
      destroyed := [];
      while owned != []
        invariant Reversed(old(owned)) == destroyed + Reversed(owned)
        decreases |owned|
      {
        var last := owned[|owned| - 1];
        ghost var before := owned;
        owned := owned[..|owned| - 1];
        assert Reversed(before) == [last] + Reversed(owned);
        destroyed := destroyed + [last];
      }
    }

    /** Move constructor: steal both vectors; the source is left empty. */
    constructor MoveFrom(other: Resources)
      modifies other
      ensures pointers == old(other.pointers) && owned == old(other.owned)
      ensures other.pointers == [] && other.owned == []
    {
      pointers := other.pointers;
      owned := other.owned;
      other.pointers := [];
      other.owned := [];
    }

    /** `swap`: exchange both vectors with `other`. */
    method Swap(other: Resources)
      modifies this, other
      ensures pointers == old(other.pointers) && owned == old(other.owned)
      ensures other.pointers == old(pointers) && other.owned == old(owned)
    {
      pointers, other.pointers := other.pointers, pointers;
      owned, other.owned := other.owned, owned;
    }

    /**
     * Move assignment `*this = std::move(other)`: move `other` into a
     * temporary, swap it with this registry, and destroy the temporary, which
     * now holds this registry's previous values. Returns what that
     * destruction destroyed. Moving a registry into itself keeps its content
     * and destroys nothing.
     */
    method MoveAssign(ids: TypeIds, other: Resources) returns (destroyed: seq<ResourceValue>)
      requires Valid(ids) && other.Valid(ids)
      modifies this, other
      ensures Valid(ids) && other.Valid(ids)
      ensures pointers == old(other.pointers) && owned == old(other.owned)
      ensures forall t :: GetPtr(ids, t) == old(other.GetPtr(ids, t))
      ensures other != this ==> other.pointers == [] && other.owned == []
      ensures destroyed == if other == this then [] else Reversed(old(owned))
    {
      var temporary := new Resources.MoveFrom(other);
      temporary.Swap(this);
      destroyed := temporary.Destroy();
    }
  }
}
