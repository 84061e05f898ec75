// `Permission`: a task's read and write footprint over resource types, as
// two 128-bit sets indexed by a type index of its own, with the conflict
// test that a scheduler uses, and `make_permission`, which derives the
// footprint from a parameter list.
module Access {
  import opened TypeIndex
  import opened Traits

  /** Size of both bit sets: indices must stay below it. */
  const BIT_N: nat := 128

  /** The permission index allocator never handed out an index that does not fit the bit sets. */
  ghost predicate Capacity(ids: TypeIds)
    reads ids
  {
    ids.Valid() && ids.last < BIT_N
  }

  /** A set of indices that stays within a bit set and never uses the unassigned index 0. */
  ghost predicate Bits(s: set<nat>, last: nat) {
    forall i :: i in s ==> 0 < i <= last
  }

  /**
   * The conflict test on raw bit sets: a reader of one side against a writer
   * of the other, or two writers, on a common index.
   */
  predicate Conflicting(lRead: set<nat>, lWrite: set<nat>, rRead: set<nat>, rWrite: set<nat>)
  {
    lRead * rWrite != {} || lWrite * rRead != {} || lWrite * rWrite != {}
  }

  /**
   * Conflict is a per-index matter: some index is written by one side and
   * read or written by the other.
   */
  lemma ConflictingAt(lRead: set<nat>, lWrite: set<nat>, rRead: set<nat>, rWrite: set<nat>)
    ensures Conflicting(lRead, lWrite, rRead, rWrite) <==>
      exists i :: (i in lWrite && (i in rRead || i in rWrite)) || (i in rWrite && i in lRead)
  {
    if Conflicting(lRead, lWrite, rRead, rWrite) {
      var i :| i in lRead * rWrite || i in lWrite * rRead || i in lWrite * rWrite;
      assert (i in lWrite && (i in rRead || i in rWrite)) || (i in rWrite && i in lRead);
    }
    if exists i :: (i in lWrite && (i in rRead || i in rWrite)) || (i in rWrite && i in lRead) {
      var i :| (i in lWrite && (i in rRead || i in rWrite)) || (i in rWrite && i in lRead);
      assert i in lRead * rWrite || i in lWrite * rRead || i in lWrite * rWrite;
    }
  }

  /** `is_conflict` does not depend on the order of its arguments. */
  lemma ConflictingSymmetric(lRead: set<nat>, lWrite: set<nat>, rRead: set<nat>, rWrite: set<nat>)
    ensures Conflicting(lRead, lWrite, rRead, rWrite) == Conflicting(rRead, rWrite, lRead, lWrite)
  {
    ConflictingAt(lRead, lWrite, rRead, rWrite);
    ConflictingAt(rRead, rWrite, lRead, lWrite);
  }

  class Permission {
    /** `m_read_permission`, as the set of its one bits. */
    var read: set<nat>
    /** `m_write_permission`, as the set of its one bits. */
    var write: set<nat>

    /** Every bit set belongs to an index already handed out by `ids`, which fits the bit sets. */
    ghost predicate Valid(ids: TypeIds)
      reads this, ids
    {
      Capacity(ids) && Bits(read, ids.last) && Bits(write, ids.last)
    }

    /** A default-constructed permission: both bit sets clear, so no type may be read or written. */
    constructor ()
      ensures read == {} && write == {}
    {
      read := {};
      write := {};
    }

    /** `test_read_permission<T>`: an unassigned type is never readable. */
    function TestReadPermission(ids: TypeIds, t: TypeId): (b: bool)
      reads this, ids
      requires ids.Valid()
      ensures b ==> t in ids.index
    {
      var i := ids.IndexOf(t);
      i != 0 && i in read
    }

    /** `test_write_permission<T>`: an unassigned type is never writable. */
    function TestWritePermission(ids: TypeIds, t: TypeId): (b: bool)
      reads this, ids
      requires ids.Valid()
      ensures b ==> t in ids.index
    {
      var i := ids.IndexOf(t);
      i != 0 && i in write
    }

    /**
     * `set_read_permission<T>`: give T an index if it has none (that index
     * must fit the bit set) and set T's read bit, and nothing else. Setting
     * a bit already set changes nothing.
     */
    method SetReadPermission(ids: TypeIds, t: TypeId)
      requires Valid(ids)
      requires t in ids.index || ids.last + 1 < BIT_N
      modifies this`read, ids
      ensures Valid(ids) && Extends(old(ids.index), ids.index)
      ensures ids.index.Keys == old(ids.index.Keys) + {t}
      ensures t in old(ids.index) ==> ids.index == old(ids.index) && ids.last == old(ids.last)
      ensures t !in old(ids.index) ==> ids.index == old(ids.index)[t := ids.last] && ids.last == old(ids.last) + 1
      ensures read == old(read) + {ids.IndexOf(t)}
      ensures TestReadPermission(ids, t) && TestWritePermission(ids, t) == old(TestWritePermission(ids, t))
      ensures forall u :: u != t ==>
        TestReadPermission(ids, u) == old(TestReadPermission(ids, u)) &&
        TestWritePermission(ids, u) == old(TestWritePermission(ids, u))
      ensures old(TestReadPermission(ids, t)) ==> read == old(read) && ids.index == old(ids.index) && ids.last == old(ids.last)
    {
      var i := ids.IndexFor(t);
      read := read + {i};
    }

    /**
     * `set_write_permission<T>`: give T an index if it has none (that index
     * must fit the bit set) and set T's write bit, and nothing else. Setting
     * a bit already set changes nothing.
     */
    method SetWritePermission(ids: TypeIds, t: TypeId)
      requires Valid(ids)
      requires t in ids.index || ids.last + 1 < BIT_N
      modifies this`write, ids
      ensures Valid(ids) && Extends(old(ids.index), ids.index)
      ensures ids.index.Keys == old(ids.index.Keys) + {t}
      ensures t in old(ids.index) ==> ids.index == old(ids.index) && ids.last == old(ids.last)
      ensures t !in old(ids.index) ==> ids.index == old(ids.index)[t := ids.last] && ids.last == old(ids.last) + 1
      ensures write == old(write) + {ids.IndexOf(t)}
      ensures TestWritePermission(ids, t) && TestReadPermission(ids, t) == old(TestReadPermission(ids, t))
      ensures forall u :: u != t ==>
        TestReadPermission(ids, u) == old(TestReadPermission(ids, u)) &&
        TestWritePermission(ids, u) == old(TestWritePermission(ids, u))
      ensures old(TestWritePermission(ids, t)) ==> write == old(write) && ids.index == old(ids.index) && ids.last == old(ids.last)
    {
      var i := ids.IndexFor(t);
      write := write + {i};
    }
  }

  /** A default-constructed permission, with both bit sets clear, grants nothing on any type. */
  lemma EmptyPermissionDenies(p: Permission, ids: TypeIds)
    requires ids.Valid() && p.read == {} && p.write == {}
    ensures forall t :: !p.TestReadPermission(ids, t) && !p.TestWritePermission(ids, t)
  {
  }

  /**
   * `is_conflict(lhs, rhs)`: the two tasks must not run at the same time,
   * because some type is written by one and read or written by the other.
   */
  predicate IsConflict(lhs: Permission, rhs: Permission)
    reads lhs, rhs
    ensures IsConflict(lhs, rhs) <==>
      exists i :: (i in lhs.write && (i in rhs.read || i in rhs.write)) || (i in rhs.write && i in lhs.read)
  {
    ConflictingAt(lhs.read, lhs.write, rhs.read, rhs.write);
    Conflicting(lhs.read, lhs.write, rhs.read, rhs.write)
  }

  /** All the types a parameter list reads: the concatenated `read_permission` lists. */
  function ReadTypes(shapes: seq<ParamShape>): (r: seq<TypeId>)
  {
    if shapes == [] then [] else ReadPermission(shapes[0]) + ReadTypes(shapes[1..])
  }

  /** All the types a parameter list writes: the concatenated `write_permission` lists. */
  function WriteTypes(shapes: seq<ParamShape>): (r: seq<TypeId>)
  {
    if shapes == [] then [] else WritePermission(shapes[0]) + WriteTypes(shapes[1..])
  }

  /**
   * Lazily indexing a list's first type leaves the rest's fresh indices to
   * come: together they are the whole list's.
   */
  lemma CountFirst(keys0: set<TypeId>, last0: nat, keys1: set<TypeId>, last1: nat, ts: seq<TypeId>)
    requires ts != [] && keys1 == keys0 + {ts[0]}
    requires last1 == if ts[0] in keys0 then last0 else last0 + 1
    ensures last1 + FreshCount(ts[1..], keys1) == last0 + FreshCount(ts, keys0)
    ensures keys1 + Elems(ts[1..]) == keys0 + Elems(ts)
  {
    assert Elems(ts) == {ts[0]} + Elems(ts[1..]);
    if ts[0] in keys0 {
      assert keys1 == keys0;
    }
  }

  /**
   * Setting the bit of a list's first type, then the bits of the rest (which
   * may assign further indices), sets the bits of the whole list.
   */
  lemma BitsAccumulate(bits0: set<nat>, bits1: set<nat>, bits2: set<nat>,
                       m1: map<TypeId, nat>, m2: map<TypeId, nat>, ts: seq<TypeId>)
    requires ts != [] && ts[0] in m1 && Extends(m1, m2) && Elems(ts[1..]) <= m2.Keys
    requires bits1 == bits0 + {m1[ts[0]]} && bits2 == bits1 + Indices(m2, Elems(ts[1..]))
    ensures Elems(ts) <= m2.Keys && bits2 == bits0 + Indices(m2, Elems(ts))
  {
    assert Elems(ts) == {ts[0]} + Elems(ts[1..]);
    IndicesUnion(m2, {ts[0]}, Elems(ts[1..]));
  }

  /** A single parameter's lists are its trait's lists. */
  lemma TypesOne(s: ParamShape)
    ensures ReadTypes([s]) == [s.t]
    ensures WriteTypes([s]) == if s.Mut? then [s.t] else []
  {
    assert [s][1..] == [];
  }

  /** Marks accumulate over parameters: the lists of a joined parameter list are the joined lists. */
  lemma {:induction false} TypesAppend(a: seq<ParamShape>, b: seq<ParamShape>)
    ensures ReadTypes(a + b) == ReadTypes(a) + ReadTypes(b)
    ensures WriteTypes(a + b) == WriteTypes(a) + WriteTypes(b)
  {
    if a != [] {
      assert (a + b)[1..] == a[1..] + b;
      TypesAppend(a[1..], b);
    } else {
      assert a + b == b;
    }
  }

  /** Every parameter reads its type; a type is written exactly when some parameter is a mutable pointer to it. */
  lemma {:induction false} TypesMembers(shapes: seq<ParamShape>, t: TypeId)
    ensures t in ReadTypes(shapes) <==> exists i :: 0 <= i < |shapes| && shapes[i].t == t
    ensures t in WriteTypes(shapes) <==> exists i :: 0 <= i < |shapes| && shapes[i] == Mut(t)
  {
    if shapes != [] {
      TypesMembers(shapes[1..], t);
      if t in ReadTypes(shapes[1..]) {
        var i :| 0 <= i < |shapes[1..]| && shapes[1..][i].t == t;
        assert shapes[i + 1].t == t;
      }
      if t in WriteTypes(shapes[1..]) {
        var i :| 0 <= i < |shapes[1..]| && shapes[1..][i] == Mut(t);
        assert shapes[i + 1] == Mut(t);
      }
      forall i | 0 < i < |shapes|
        ensures shapes[i] == shapes[1..][i - 1]
      {
      }
    }
  }

  /** A type a parameter list writes is one it also reads. */
  lemma {:induction false} WritesAreRead(shapes: seq<ParamShape>)
    ensures Elems(WriteTypes(shapes)) <= Elems(ReadTypes(shapes))
  {
    if shapes != [] {
      WritesAreRead(shapes[1..]);
      ElemsAppend(ReadPermission(shapes[0]), ReadTypes(shapes[1..]));
      ElemsAppend(WritePermission(shapes[0]), WriteTypes(shapes[1..]));
    }
  }

  /**
   * `detail::set_read_permission(permission, TypeList<Ts...>)`: set the
   * read bit of every listed type, in order. Each listed type without an
   * index gets the next one, and the last of them must still fit the bit set.
   */
  method SetReadPermissions(permission: Permission, ids: TypeIds, ts: seq<TypeId>)
    requires permission.Valid(ids)
    requires ids.last + FreshCount(ts, ids.index.Keys) < BIT_N
    modifies permission`read, ids
    ensures permission.Valid(ids) && Extends(old(ids.index), ids.index)
    ensures ids.index.Keys == old(ids.index.Keys) + Elems(ts)
    ensures ids.last == old(ids.last) + FreshCount(ts, old(ids.index.Keys))
    ensures permission.read == old(permission.read) + Indices(ids.index, Elems(ts))
    decreases |ts|
  {
    if ts != [] {
      permission.SetReadPermission(ids, ts[0]);
      ghost var between, bits, lastBetween := ids.index, permission.read, ids.last;
      CountFirst(old(ids.index.Keys), old(ids.last), between.Keys, lastBetween, ts);
      SetReadPermissions(permission, ids, ts[1..]);
      ExtendsTransitive(old(ids.index), between, ids.index);
      BitsAccumulate(old(permission.read), bits, permission.read, between, ids.index, ts);
    }
  }

  /**
   * `detail::set_write_permission(permission, TypeList<Ts...>)`: set the
   * write bit of every listed type, in order. Each listed type without an
   * index gets the next one, and the last of them must still fit the bit set.
   */
  method SetWritePermissions(permission: Permission, ids: TypeIds, ts: seq<TypeId>)
    requires permission.Valid(ids)
    requires ids.last + FreshCount(ts, ids.index.Keys) < BIT_N
    modifies permission`write, ids
    ensures permission.Valid(ids) && Extends(old(ids.index), ids.index)
    ensures ids.index.Keys == old(ids.index.Keys) + Elems(ts)
    ensures ids.last == old(ids.last) + FreshCount(ts, old(ids.index.Keys))
    ensures permission.write == old(permission.write) + Indices(ids.index, Elems(ts))
    decreases |ts|
  {
    if ts != [] {
      permission.SetWritePermission(ids, ts[0]);
      ghost var between, bits, lastBetween := ids.index, permission.write, ids.last;
      CountFirst(old(ids.index.Keys), old(ids.last), between.Keys, lastBetween, ts);
      SetWritePermissions(permission, ids, ts[1..]);
      ExtendsTransitive(old(ids.index), between, ids.index);
      BitsAccumulate(old(permission.write), bits, permission.write, between, ids.index, ts);
    }
  }


  /**
   * The bits of `p` are exactly those `make_permission` derives from
   * `shapes` under the index table `index`.
   */
  ghost predicate Derived(p: Permission, index: map<TypeId, nat>, shapes: seq<ParamShape>)
    reads p
  {
    && Elems(ReadTypes(shapes)) <= index.Keys
    && Elems(WriteTypes(shapes)) <= Elems(ReadTypes(shapes))
    && p.read == Indices(index, Elems(ReadTypes(shapes)))
    && p.write == Indices(index, Elems(WriteTypes(shapes)))
  }

  /**
   * What a derived permission answers: read exactly on the types some
   * parameter points to, write exactly on those some `T*` parameter points to.
   */
  lemma DerivedTests(p: Permission, ids: TypeIds, shapes: seq<ParamShape>)
    requires ids.Valid() && Derived(p, ids.index, shapes)
    ensures forall t :: p.TestReadPermission(ids, t) <==> t in ReadTypes(shapes)
    ensures forall t :: p.TestWritePermission(ids, t) <==> t in WriteTypes(shapes)
  {
    forall t
      ensures p.TestReadPermission(ids, t) <==> t in ReadTypes(shapes)
      ensures p.TestWritePermission(ids, t) <==> t in WriteTypes(shapes)
    {
      if t in ids.index {
        IndicesInjective(ids.index, Elems(ReadTypes(shapes)), t);
        IndicesInjective(ids.index, Elems(WriteTypes(shapes)), t);
      }
    }
  }

  /**
   * The read half of `make_permission<Ts...>()`: for each parameter in order,
   * `detail::set_read_permission` on the types its `read_permission` lists.
   */
  method SetReadPermissionsOf(p: Permission, ids: TypeIds, shapes: seq<ParamShape>)
    requires p.Valid(ids)
    requires ids.last + FreshCount(ReadTypes(shapes), ids.index.Keys) < BIT_N
    modifies p`read, ids
    ensures p.Valid(ids) && Extends(old(ids.index), ids.index)
    ensures ids.index.Keys == old(ids.index.Keys) + Elems(ReadTypes(shapes))
    ensures ids.last == old(ids.last) + FreshCount(ReadTypes(shapes), old(ids.index.Keys))
    ensures p.read == old(p.read) + Indices(ids.index, Elems(ReadTypes(shapes)))
    decreases |shapes|
  {
    if shapes != [] {
      var ts := ReadPermission(shapes[0]);
      FreshCountAppend(ts, ReadTypes(shapes[1..]), ids.index.Keys);
      ElemsAppend(ts, ReadTypes(shapes[1..]));
      SetReadPermissions(p, ids, ts);
      ghost var between := ids.index;
      SetReadPermissionsOf(p, ids, shapes[1..]);
      ExtendsTransitive(old(ids.index), between, ids.index);
      IndicesExtend(between, ids.index, Elems(ts));
      IndicesUnion(ids.index, Elems(ts), Elems(ReadTypes(shapes[1..])));
    }
  }

  /**
   * The write half of `make_permission<Ts...>()`: for each parameter in order,
   * `detail::set_write_permission` on the types its `write_permission` lists.
   */
  method SetWritePermissionsOf(p: Permission, ids: TypeIds, shapes: seq<ParamShape>)
    requires p.Valid(ids)
    requires ids.last + FreshCount(WriteTypes(shapes), ids.index.Keys) < BIT_N
    modifies p`write, ids
    ensures p.Valid(ids) && Extends(old(ids.index), ids.index)
    ensures ids.index.Keys == old(ids.index.Keys) + Elems(WriteTypes(shapes))
    ensures ids.last == old(ids.last) + FreshCount(WriteTypes(shapes), old(ids.index.Keys))
    ensures p.write == old(p.write) + Indices(ids.index, Elems(WriteTypes(shapes)))
    decreases |shapes|
  {
    if shapes != [] {
      var ts := WritePermission(shapes[0]);
      FreshCountAppend(ts, WriteTypes(shapes[1..]), ids.index.Keys);
      ElemsAppend(ts, WriteTypes(shapes[1..]));
      SetWritePermissions(p, ids, ts);
      ghost var between := ids.index;
      SetWritePermissionsOf(p, ids, shapes[1..]);
      ExtendsTransitive(old(ids.index), between, ids.index);
      IndicesExtend(between, ids.index, Elems(ts));
      IndicesUnion(ids.index, Elems(ts), Elems(WriteTypes(shapes[1..])));
    }
  }

  /**
   * `make_permission<Ts...>()`: starting from an empty permission, set the
   * read bits of every parameter in order, then the write bits of every
   * parameter in order. The result grants read exactly on the types some
   * parameter points to, and write exactly on those some `T*` parameter
   * points to. Each of those types without an index gets the next one, and
   * the last of them must fit the bit sets.
   */
  method MakePermission(ids: TypeIds, shapes: seq<ParamShape>) returns (p: Permission)
    requires Capacity(ids)
    requires ids.last + FreshCount(ReadTypes(shapes), ids.index.Keys) < BIT_N
    modifies ids
    ensures fresh(p) && p.Valid(ids) && Extends(old(ids.index), ids.index)
    ensures ids.index.Keys == old(ids.index.Keys) + Elems(ReadTypes(shapes))
    ensures ids.last == old(ids.last) + FreshCount(ReadTypes(shapes), old(ids.index.Keys))
    ensures Derived(p, ids.index, shapes)
  {
    p := new Permission();
    SetReadPermissionsOf(p, ids, shapes);
    ghost var indexAfterReads := ids.index;
    WritesAreRead(shapes);
    FreshCountAssigned(WriteTypes(shapes), ids.index.Keys);
    SetWritePermissionsOf(p, ids, shapes);
    ExtendsSameKeys(indexAfterReads, ids.index);
  }
}
