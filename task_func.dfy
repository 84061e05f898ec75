// Task bindings: a callable together with the shapes of its parameters, the
// permission derived from those shapes once at construction, and a private
// local registry. Executing a binding resolves one argument per parameter
// against the caller's registry and calls the callable once with them.
module Tasks {
  import opened TypeIndex
  import opened Registry
  import opened Traits
  import opened Access

  /** The function pointer a binding holds; `NullFunc` is `nullptr`. */
  datatype FuncRef = NullFunc | Callable(id: nat)

  /** One call of a bound callable: which callable, and the arguments it received. */
  datatype Call = Call(func: FuncRef, args: seq<ResourceValue?>)

  /**
   * The pack expansion `ResourceTraits<Args>::get_ptr(resources, local_resources)...`:
   * one argument per parameter, in parameter order, each the global
   * registry's pointer for that parameter's type, null when unregistered.
   */
  function ResolveArgs(shapes: seq<ParamShape>, ids: TypeIds, resources: Resources, local: Resources): (args: seq<ResourceValue?>)
    reads resources, ids
    requires resources.Valid(ids)
    ensures |args| == |shapes|
    ensures forall i :: 0 <= i < |shapes| ==> args[i] == resources.GetPtr(ids, shapes[i].t)
    ensures forall i :: 0 <= i < |shapes| && args[i] != null ==> args[i].ty == shapes[i].t
    ensures forall i :: 0 <= i < |shapes| && shapes[i].t !in ids.index ==> args[i] == null
  {
    if shapes == [] then []
    else [GetPtr(shapes[0], ids, resources, local)] + ResolveArgs(shapes[1..], ids, resources, local)
  }

  /** Indices assigned later, for other bindings, leave a derived permission derived. */
  lemma DerivedExtend(p: Permission, m: map<TypeId, nat>, m': map<TypeId, nat>, shapes: seq<ParamShape>)
    requires Derived(p, m, shapes) && Extends(m, m')
    ensures Derived(p, m', shapes)
  {
    IndicesExtend(m, m', Elems(ReadTypes(shapes)));
    IndicesExtend(m, m', Elems(WriteTypes(shapes)));
  }

  /** A bit set in two images under an injective table comes from one type in both sets. */
  lemma CommonIndex(m: map<TypeId, nat>, a: set<TypeId>, b: set<TypeId>, i: nat) returns (t: TypeId)
    requires a <= m.Keys && b <= m.Keys && Injective(m)
    requires i in Indices(m, a) && i in Indices(m, b)
    ensures t in a && t in b && m[t] == i
  {
    t :| t in a && m[t] == i;
    IndicesInjective(m, b, t);
  }

  /** A conflict between two derived permissions comes from a type one writes and the other reads. */
  lemma ConflictShared(l: Permission, r: Permission, ids: TypeIds, ls: seq<ParamShape>, rs: seq<ParamShape>)
    returns (t: TypeId)
    requires ids.Valid()
    requires Derived(l, ids.index, ls) && Derived(r, ids.index, rs)
    requires IsConflict(l, r)
    ensures (t in WriteTypes(ls) && t in ReadTypes(rs)) || (t in WriteTypes(rs) && t in ReadTypes(ls))
  {
    var m := ids.index;
    var i :| (i in l.write && (i in r.read || i in r.write)) || (i in r.write && i in l.read);
    if i in l.write && i in r.read {
      t := CommonIndex(m, Elems(WriteTypes(ls)), Elems(ReadTypes(rs)), i);
    } else if i in l.write {
      t := CommonIndex(m, Elems(WriteTypes(ls)), Elems(WriteTypes(rs)), i);
    } else {
      t := CommonIndex(m, Elems(WriteTypes(rs)), Elems(ReadTypes(ls)), i);
    }
  }

  /** A type one derived permission writes and the other reads makes them conflict. */
  lemma SharedConflicts(l: Permission, r: Permission, ids: TypeIds, ls: seq<ParamShape>, rs: seq<ParamShape>, t: TypeId)
    requires Derived(l, ids.index, ls) && Derived(r, ids.index, rs)
    requires (t in WriteTypes(ls) && t in ReadTypes(rs)) || (t in WriteTypes(rs) && t in ReadTypes(ls))
    ensures IsConflict(l, r)
  {
    var m := ids.index;
    if t in WriteTypes(ls) && t in ReadTypes(rs) {
      assert t in Elems(WriteTypes(ls)) && t in Elems(ReadTypes(rs));
      assert m[t] in l.write && m[t] in r.read;
    } else {
      assert t in Elems(WriteTypes(rs)) && t in Elems(ReadTypes(ls));
      assert m[t] in r.write && m[t] in l.read;
    }
  }

  /**
   * Two derived permissions conflict exactly when some type is written by
   * one binding and read (or written, which implies read) by the other.
   */
  lemma ConflictIffShared(l: Permission, r: Permission, ids: TypeIds, ls: seq<ParamShape>, rs: seq<ParamShape>)
    requires ids.Valid()
    requires Derived(l, ids.index, ls) && Derived(r, ids.index, rs)
    ensures IsConflict(l, r) <==>
      exists t :: (t in WriteTypes(ls) && t in ReadTypes(rs)) || (t in WriteTypes(rs) && t in ReadTypes(ls))
  {
    if IsConflict(l, r) {
      var t := ConflictShared(l, r, ids, ls, rs);
    }
    forall t | (t in WriteTypes(ls) && t in ReadTypes(rs)) || (t in WriteTypes(rs) && t in ReadTypes(ls))
      ensures IsConflict(l, r)
    {
      SharedConflicts(l, r, ids, ls, rs, t);
    }
  }

  class TaskFunc {
    /** The parameter list `Args...` of the bound callable. */
    const shapes: seq<ParamShape>
    /** `mp_func`. */
    const func: FuncRef
    /** `m_permission`: fixed at construction, returned by `permission()`. */
    const permission: Permission
    /** `m_local_resources`: a registry private to this binding, empty at construction. */
    const localResources: Resources

    /**
     * `TaskFunc(allocator, func)`, through `ITaskFunc(allocator, make_permission<Args...>())`:
     * the binding's permission is the one `make_permission` derives from its
     * parameters, and its local registry starts empty. Deriving it may assign
     * permission indices to the parameter types, which must fit the bit sets.
     */
    constructor (pids: TypeIds, shapes: seq<ParamShape>, func: FuncRef)
      requires Capacity(pids)
      requires pids.last + FreshCount(ReadTypes(shapes), pids.index.Keys) < BIT_N
      modifies pids
      ensures this.shapes == shapes && this.func == func
      ensures fresh(permission) && fresh(localResources)
      ensures localResources.pointers == [] && localResources.owned == []
      ensures permission.Valid(pids) && Extends(old(pids.index), pids.index)
      ensures Derived(permission, pids.index, shapes)
      ensures forall t :: permission.TestReadPermission(pids, t) <==> t in ReadTypes(shapes)
      ensures forall t :: permission.TestWritePermission(pids, t) <==> t in WriteTypes(shapes)
    {
      this.shapes := shapes;
      this.func := func;
      WritesAreRead(shapes);
      var p := MakePermission(pids, shapes);
      DerivedTests(p, pids, shapes);
      permission := p;
      localResources := new Resources();
    }

    /**
     * `TaskFunc::on_exec(resources, local_resources)`: the function pointer
     * must be set; the callable is called once, with the arguments its
     * parameter traits fetch, in parameter order.
     */
    method OnExec(ids: TypeIds, resources: Resources, local: Resources) returns (call: Call)
      requires func != NullFunc
      requires resources.Valid(ids)
      ensures call.func == func
      ensures call.args == ResolveArgs(shapes, ids, resources, local)
    {
      call := Call(func, ResolveArgs(shapes, ids, resources, local));
    }

    /**
     * `ITaskFunc::exec(resources)`: run `on_exec` against the caller's
     * registry and this binding's own local registry. Each argument is the
     * caller's registered value for that parameter's type, null when the
     * type is not registered there.
     */
    method Exec(ids: TypeIds, resources: Resources) returns (call: Call)
      requires func != NullFunc
      requires resources.Valid(ids)
      ensures call.func == func && |call.args| == |shapes|
      ensures forall i :: 0 <= i < |shapes| ==> call.args[i] == resources.GetPtr(ids, shapes[i].t)
      ensures forall i :: 0 <= i < |shapes| && shapes[i].t !in ids.index ==> call.args[i] == null
    {
      call := OnExec(ids, resources, localResources);
    }
  }

  /**
   * A binding over `(const T1*, T2*)` may read T1 but not write it, and may
   * read and write T2.
   */
  method MixedPermissions(t1: TypeId, t2: TypeId) returns (read1: bool, write1: bool, read2: bool, write2: bool)
    requires t1 != t2
    ensures read1 && !write1 && read2 && write2
  {
    var pids := new TypeIds();
    var shapes := [Const(t1), Mut(t2)];
    assert ReadTypes(shapes) == [t1, t2] && WriteTypes(shapes) == [t2] by {
      TypesOne(Const(t1));
      TypesOne(Mut(t2));
      assert shapes == [Const(t1)] + [Mut(t2)];
      TypesAppend([Const(t1)], [Mut(t2)]);
    }
    assert FreshCount([t1, t2], pids.index.Keys) == 2 by {
      assert pids.index.Keys == {} && [t1, t2] == [t1] + [t2];
      FreshCountAppend([t1], [t2], {});
      FreshCountOne(t1, {});
      FreshCountOne(t2, {} + Elems([t1]));
    }
    var task := new TaskFunc(pids, shapes, Callable(0));
    read1 := task.permission.TestReadPermission(pids, t1);
    write1 := task.permission.TestWritePermission(pids, t1);
    read2 := task.permission.TestReadPermission(pids, t2);
    write2 := task.permission.TestWritePermission(pids, t2);
  }

  /**
   * Two bindings that write the same type conflict, two that only read it
   * do not, and a writer conflicts with a reader.
   */
  method PermissionConflict(t: TypeId) returns (writers: bool, readers: bool, writerReader: bool)
    ensures writers && !readers && writerReader
  {
    var pids := new TypeIds();
    var writer, reader := [Mut(t)], [Const(t)];
    TypesOne(Mut(t));
    TypesOne(Const(t));
    FreshCountOne(t, pids.index.Keys);
    var task1 := new TaskFunc(pids, writer, Callable(1));
    ghost var m1 := pids.index;
    var task2 := new TaskFunc(pids, writer, Callable(1));
    ghost var m2 := pids.index;
    var task3 := new TaskFunc(pids, reader, Callable(2));
    ghost var m3 := pids.index;
    var task4 := new TaskFunc(pids, reader, Callable(2));
    ExtendsTransitive(m1, m2, m3);
    ExtendsTransitive(m1, m3, pids.index);
    ExtendsTransitive(m2, m3, pids.index);
    DerivedExtend(task1.permission, m1, pids.index, writer);
    DerivedExtend(task2.permission, m2, pids.index, writer);
    DerivedExtend(task3.permission, m3, pids.index, reader);
    writers := IsConflict(task1.permission, task2.permission);
    readers := IsConflict(task3.permission, task4.permission);
    writerReader := IsConflict(task1.permission, task3.permission);
    ConflictIffShared(task1.permission, task2.permission, pids, writer, writer);
    ConflictIffShared(task3.permission, task4.permission, pids, reader, reader);
    ConflictIffShared(task1.permission, task3.permission, pids, writer, reader);
  }
}
