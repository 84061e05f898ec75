# s6i_task core, modelled in Dafny

s6i_task is a small task library. This model covers its four core pieces.

- **Resource registry (`Resources`).** It holds one pointer per C++ type, found through an index the type gets lazily on first use. Index 0 means "unassigned", and a process-wide counter hands out 1, 2, 3, ... . The registry also keeps an append-only list of the values it owns, and its destructor destroys them back to front.
- **Access permission (`Permission`).** It is a pair of 128-bit sets, read and write, indexed by a second counter that is independent of the registry's. `is_conflict` tells a scheduler whether two tasks may run together. `make_permission` derives a permission from a parameter list.
- **Parameter traits (`ResourceTraits`).** A parameter `T*` reads and writes T. A parameter `const T*` only reads T. Both fetch their argument from the global registry.
- **Task bindings (`ITaskFunc` / `TaskFunc`).** A binding is a callable together with the permission of its parameter list, fixed at construction, and a private local registry. `exec` resolves one argument per parameter, in order, and calls the callable once.

Modules, one per header:

- `TypeIndex` (type_index.dfy) models the lazily assigned indices.
  - The class `TypeIds` stands for the static counter (`last`) and every `TypeIndex<T>::ms_index` (`index`, one entry per assigned type).
  - The registry and the permission each get their own `TypeIds` object, because the source has two independent counters.
  - `FreshCount` counts how many new indices assigning a type list in order hands out.
- `Registry` (resources.dfy) models the class `Resources`.
  - It holds the pointer table (`pointers`) and the owned list (`owned`).
  - Resource values are objects of class `ResourceValue`, so pointer identity is object identity.
  - The destructor returns the destruction trace.
- `Traits` (resource_traits.dfy) models the parameter shape as `Mut(t)` (`T*`) or `Const(t)` (`const T*`), its permission lists, and `get_ptr`.
- `Access` (permission.dfy) models the class `Permission`.
  - Each bit set is the set of its one bits.
  - It includes the `detail::set_*_permission` folds and `make_permission`, written as recursive methods over the type list.
- `Tasks` (task_func.dfy) models the class `TaskFunc`.
  - Executing a binding returns the `Call` it makes: which callable, and with which arguments.
  - It includes the two binding scenarios of the task tests, with their expected outcomes proved.

## Model

| member | source | states |
|---|---|---|
| TypeIndex.TypeIds.constructor | include/s6i_task/permission.h:34-35 | the counter starts at 0 and no type has an index |
| TypeIndex.TypeIds.IndexOf | include/s6i_task/permission.h:25-27 | `ms_index` is 0 exactly for an unassigned type; an assigned one is at most the counter |
| TypeIndex.TypeIds.GenTypeIndex | include/s6i_task/resources.h:44-47 | `gen_type_index` pre-increments the counter and returns its new value |
| TypeIndex.TypeIds.IndexFor | include/s6i_task/resources.h:220-223 | an assigned type keeps its index and the counter is untouched; an unassigned one gets counter+1 and nothing else changes; indices stay at least 1, within the counter and unshared |
| TypeIndex.FreshCountDistinct | include/s6i_task/permission.h:52-53 | assigning a list in order advances the counter once per distinct listed type that had no index |
| TypeIndex.FreshCountAppend | include/s6i_task/permission.h:162-167 | the number of fresh indices two lists take in a row is the first list's count plus the second's, counted after the first list's types have indices |
| TypeIndex.FreshCountAssigned | include/s6i_task/permission.h:66-70 | types that all have an index already take no fresh one (so the write pass of `make_permission` never moves the counter) |
| TypeIndex.ExtendsSameKeys | include/s6i_task/permission.h:66-68 | a table that gained no key is unchanged, since assigned indices never change |
| Registry.ResourceValue.constructor | include/s6i_task/resources.h:80-81 | a resource is built with the type and the arguments it is given |
| Registry.WellTypedExtend | include/s6i_task/resources.h:44-47 | indices handed out for other types never make a pointer table resolve to a value of the wrong type |
| Registry.Store | include/s6i_task/resources.h:224-227 | the table is grown with null slots to length index+1 when too short, then only the slot at the index is overwritten |
| Registry.StoreLookup | include/s6i_task/resources.h:218-229 | storing at T's (possibly new) slot keeps every non-null slot well typed, makes T resolve to the stored pointer and leaves every other type resolving as before |
| Registry.Lookup | include/s6i_task/resources.h:157-164 | a pointer found for T is a value of type T (the `static_cast` is sound) |
| Registry.ReversedAt | include/s6i_task/resources.h:117-121 | the k-th value destroyed is the k-th from the end of the owned list |
| Registry.ReversedPermutes | include/s6i_task/resources.h:117-121 | every owned value is destroyed exactly once |
| Registry.ReversedAppend | include/s6i_task/resources.h:117-121 | for an owned list built in two stretches, the values of the later stretch are destroyed first, each stretch back to front |
| Registry.Resources.constructor | include/s6i_task/resources.h:107-110 | a new registry has an empty pointer table and owns nothing |
| Registry.Resources.GetPtr | include/s6i_task/resources.h:157-164 | null exactly when T has index 0, the index is at least the table size, or the slot is null; a non-null result has type T (so an empty registry returns null for every type) |
| Registry.Resources.SetPtr | include/s6i_task/resources.h:218-229 | returns `ptr`; an assigned T keeps its index and the index table and counter are unchanged, and an unassigned T alone gets counter+1; the table becomes `Store` of the old one and is longer than T's index; `get_ptr<T>` then returns `ptr` and every other type resolves as before; nothing becomes owned |
| Registry.Resources.Emplace | include/s6i_task/resources.h:197-205 | appends exactly one new owned value of type T built from the arguments, publishes it through `set_ptr` and returns it; the index table changes as in `set_ptr` (only an unassigned T gets counter+1); other types resolve as before |
| Registry.Resources.Set | include/s6i_task/resources.h:176-184 | appends exactly one new owned value of type T holding the value, publishes it and returns it; the index table changes as in `set_ptr`; a repeated `set` makes `get_ptr<T>` return the newer value |
| Registry.Resources.Destroy | include/s6i_task/resources.h:117-121 | the owned list ends empty and the values are destroyed in reverse order of construction |
| Registry.Resources.MoveFrom | include/s6i_task/resources.h:130-133 | the new registry takes both vectors of the source, and the source is left empty (so destroying it destroys nothing) |
| Registry.Resources.Swap | include/s6i_task/resources.h:236-241 | both vectors are exchanged |
| Registry.Resources.MoveAssign | include/s6i_task/resources.h:143-146 | the target's old owned values are destroyed at once, in reverse order; the target then holds the source's table and owned list, and every type resolves as it did in the source (a type set only in the old target resolves to null); the source is left empty; a self-move keeps the content and destroys nothing |
| Traits.ResourceTypeList | include/s6i_task/resource_traits.h:29 | both shapes name exactly one resource type, T |
| Traits.ReadPermission | include/s6i_task/resource_traits.h:30 | both `T*` and `const T*` read exactly T |
| Traits.WritePermission | include/s6i_task/resource_traits.h:27-60 | `T*` writes T, `const T*` writes nothing, and a written type is always read |
| Traits.GetPtr | include/s6i_task/resource_traits.h:42-74 | the argument is the global registry's pointer for T, null exactly when T is unregistered there; the local registry is not read |
| Access.ConflictingAt | include/s6i_task/permission.h:116-120 | the three-intersection test holds iff some index is written by one side and read or written by the other |
| Access.ConflictingSymmetric | include/s6i_task/permission.h:116-120 | `is_conflict(l, r) == is_conflict(r, l)` |
| Access.IsConflict | include/s6i_task/permission.h:116-120 | two permissions conflict iff some index is written by one and read or written by the other |
| Access.Permission.constructor | include/s6i_task/permission.h:41-42 | a default permission has both bit sets clear |
| Access.EmptyPermissionDenies | include/s6i_task/permission.h:80-102 | a default permission tests false for reading and writing every type |
| Access.Permission.TestReadPermission | include/s6i_task/permission.h:80-87 | a type with index 0 is never readable |
| Access.Permission.TestWritePermission | include/s6i_task/permission.h:95-102 | a type with index 0 is never writable |
| Access.Permission.SetReadPermission | include/s6i_task/permission.h:49-57 | T gets an index if it has none, which must stay below 128; T's read bit becomes set, and T's write bit and every other type's bits are unchanged; setting it again changes nothing |
| Access.Permission.SetWritePermission | include/s6i_task/permission.h:64-72 | T gets an index if it has none, which must stay below 128; T's write bit becomes set, and T's read bit and every other type's bits are unchanged; setting it again changes nothing |
| Access.TypesOne | include/s6i_task/resource_traits.h:27-31 | a single parameter contributes its trait's lists |
| Access.TypesAppend | include/s6i_task/permission.h:162-167 | the lists of a joined parameter list are the joined lists: marks accumulate parameter by parameter |
| Access.TypesMembers | include/s6i_task/permission.h:159-169 | every parameter's type is read; a type is written iff some parameter is a mutable pointer to it |
| Access.WritesAreRead | include/s6i_task/resource_traits.h:55-60 | whatever a parameter list writes, it also reads |
| Access.SetReadPermissions | include/s6i_task/permission.h:131-134 | adds exactly the read bits of the listed types; every listed type ends with an index, earlier indices are kept, and the counter advances by the number of fresh types, which must stay below 128 |
| Access.SetWritePermissions | include/s6i_task/permission.h:143-146 | adds exactly the write bits of the listed types; every listed type ends with an index, earlier indices are kept, and the counter advances by the number of fresh types, which must stay below 128 |
| Access.SetReadPermissionsOf | include/s6i_task/permission.h:162-164 | the read fold over every parameter's `read_permission` sets exactly the bits of the types the list reads |
| Access.SetWritePermissionsOf | include/s6i_task/permission.h:165-167 | the write fold over every parameter's `write_permission` sets exactly the bits of the types the list writes |
| Access.MakePermission | include/s6i_task/permission.h:159-169 | the result's read bits are the indices of the types the list reads and its write bits those of the types it writes; only the read pass assigns indices |
| Access.DerivedTests | include/s6i_task/permission.h:80-102 | a derived permission tests readable exactly the types its parameters read, and writable exactly those they write |
| Tasks.ResolveArgs | include/s6i_task/task_func.h:108 | one argument per parameter, in parameter order, each the global registry's pointer for that parameter's type; null, passed on unchanged, when the type is unregistered |
| Tasks.DerivedExtend | include/s6i_task/task_func.h:45-47 | a binding's permission stays the one derived from its parameters when other bindings later assign indices |
| Tasks.ConflictShared | include/s6i_task/permission.h:116-120 | a conflict between two bindings yields a type one writes and the other reads |
| Tasks.SharedConflicts | include/s6i_task/permission.h:116-120 | a type one binding writes and the other reads makes them conflict |
| Tasks.ConflictIffShared | include/s6i_task/permission.h:116-120 | two bindings conflict iff one writes a type the other reads (reader against reader, or disjoint types, never conflict) |
| Tasks.TaskFunc.constructor | include/s6i_task/task_func.h:94-95 | the permission is `make_permission` over the parameter list: read exactly the read types, write exactly the written types; the local registry starts empty |
| Tasks.TaskFunc.OnExec | include/s6i_task/task_func.h:106-109 | requires a non-null function; calls it once with the arguments the traits resolve, in order |
| Tasks.TaskFunc.Exec | include/s6i_task/task_func.h:56-58 | runs `on_exec` with the caller's registry and the binding's own local registry; the i-th argument is the caller's registered pointer for the i-th parameter type, or null |
| Tasks.MixedPermissions | tests/task_func_test.cpp:226-241 | for `(const T1*, T2*)`, T1 is readable and not writable, and T2 is readable and writable |
| Tasks.PermissionConflict | tests/task_func_test.cpp:243-267 | two writers of a type conflict, two readers do not, and a writer conflicts with a reader |

## Left out

- The allocator layer (`IAllocator`, `StlAllocator`, `make_unique`, `UniquePtr`) is a separate library. Allocation always succeeds, so the `assert(resource)` checks in `set` and `emplace` always hold.
- The type-level mechanism (`TypeList`, `FuncTraits`, `std::decay_t`, `make_task_func`) is not modelled, only its effect: a binding is built directly from a `seq<ParamShape>`. The fold expressions of `make_permission` and the pack expansion in `on_exec` are modelled, as `SetReadPermissions`, `SetWritePermissions`, `SetReadPermissionsOf`, `SetWritePermissionsOf` and `ResolveArgs`.
- Access.SetReadPermissions: states which bits are set, the key set and the counter. It does not state which counter value each fresh type receives; with several fresh types, that depends on the order of the calls.
- Access.SetWritePermissions: the same as `Access.SetReadPermissions`.
- `ITaskFunc` and `TaskFunc` are merged into one class because the model has no virtual dispatch. `permission()` is the field `permission`. The reference is constant and no method of the model modifies the object it points to, so the bits stay as construction left them.
- Copy deletion is not modelled. Dafny objects are not copied.
- The callable's body and its side effects are not run. Executing a binding returns the `Call`: the callable and the arguments it receives.
- Resource payloads are opaque integers. String and floating-point values are not modelled, because the registry never inspects them.
- Dereferencing a null argument is undefined behaviour in the callable, outside this code. The model shows only that the null is passed through.
- Concurrency is not modelled. The code is sequential.
- The second free function `swap(lhs, rhs)` is not modelled separately. It only forwards to the member `swap`.
- TypeIndex.TypeIds.Valid: states that assigned indices are unique and lie in 1..counter. It does not state that they are dense (exactly one type for each value up to the counter). No operation depends on density, and map cardinality proofs are costly.
- Access.Permission.SetReadPermission: the `assert(index < BIT_N)` is a precondition (a newly assigned index must be below 128), not a run-time failure.
- Access.Permission.SetWritePermission: the `assert(index < BIT_N)` is likewise a precondition.
- Access.MakePermission: the 128-bit limit is a precondition on the whole parameter list (the counter plus its fresh types stays below 128). `Tasks.TaskFunc.constructor` inherits it.
