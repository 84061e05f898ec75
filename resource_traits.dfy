// `ResourceTraits`: what a task parameter of shape `T*` or `const T*`
// contributes to the task's permission, and how its argument is fetched.
module Traits {
  import opened TypeIndex
  import opened Registry

  /** The shape of one task parameter: `T*` (mutable) or `const T*` (shared). */
  datatype ParamShape = Mut(t: TypeId) | Const(t: TypeId)

  /** `resource_type_list`: the resource types a parameter names. */
  function ResourceTypeList(s: ParamShape): (r: seq<TypeId>)
    ensures |r| == 1 && r[0] == s.t
  {
    [s.t]
  }

  /** `read_permission`: both shapes read the type they point to. */
  function ReadPermission(s: ParamShape): (r: seq<TypeId>)
    ensures r == ResourceTypeList(s)
  {
    [s.t]
  }

  /**
   * `write_permission`: only a mutable pointer writes; whatever a parameter
   * writes, it also reads.
   */
  function WritePermission(s: ParamShape): (r: seq<TypeId>)
    ensures r <= ReadPermission(s)
    ensures r != [] <==> s.Mut?
  {
    match s
    case Mut(t) => [t]
    case Const(_) => []
  }

  /**
   * `get_ptr(resources, local_resources)`: the argument for a parameter is
   * the global registry's pointer for its type, null when that type is not
   * registered. The local registry is passed but not read: `local` is not in
   * the reads clause.
   */
  function GetPtr(s: ParamShape, ids: TypeIds, resources: Resources, local: Resources): (p: ResourceValue?)
    reads resources, ids
    requires resources.Valid(ids)
    ensures p != null ==> p.ty == s.t
    ensures p == null <==> !(0 < ids.IndexOf(s.t) < |resources.pointers|) || resources.pointers[ids.IndexOf(s.t)] == null
  {
    resources.GetPtr(ids, s.t)
  }
}
