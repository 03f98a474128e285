# boost::any in Dafny

This project models `boost::any` from `include/boost/any.hpp`. `boost::any` is a container
that holds at most one value, of any copy-constructible type, on the heap. It has two fields,
and the model keeps both:

- `interface` (`iface`): the nullable address of the held type's dispatch table.
- `storage.pointer` (`ptr`): the storage pointer.

The model has four modules:

- `Types` (types.dfy): a small universe of C++ type expressions. It defines
  `boost::remove_reference`, `boost::remove_cv`, `boost::decay` (used by `holds`, the
  constructors, `emplace` and `unsafe_any_cast`) and `detail::any_decay` (used by
  `any_cast`). Arrays are part of the universe, with their bound, because that is where the
  two decays differ. `WellFormed` admits exactly one spelling per C++ type of the universe,
  and distinct types have distinct spellings, so types can be compared by equality.
- `Dispatch` (dispatch.dfy): the heap object `Box` and the table `Interface`.
  - There is one table per decayed type, so comparing table addresses is comparing tags.
  - It also holds the static members of `dispatcher<T>` (`instance`, `holds`, `cast`,
    `create`, `copy`, `destroy`, `type`) and `dispatcher<void>::holds`.
  - Allocation produces `fresh` boxes. Deletion clears the ghost flag `live`.
- `BoostAny` (any.dfy): the class `Any`, with its constructors, assignments, `emplace`,
  `swap`, `reset`/`clear`, its queries and its destructor. It also holds the free
  functions: the pointer, value and rvalue `any_cast`s and `unsafe_any_cast`.
  - `Valid()` states the invariant: a non-null table implies a live owned object of the
    table's type.
  - `Owned()` states ownership, and ownership follows the table, not the pointer. A
    moved-from container keeps its pointer but owns nothing.
- `Wrappers` (wrappers.dfy): `Option` and `Result`.

There are five further modelling choices:

- A null pointer from a pointer cast is `None`.
- `bad_any_cast` is `Failure(BadAnyCast)`.
- The destructor is the method `Destruct`. The assignments and `reset` call it on their
  temporary, where C++ ends the temporary's scope.
- A `Box` records its dynamic type. The model does not check that a `Value` belongs to that
  type: C++'s static typing guarantees it.
- The arguments of `emplace` are given as the value the constructor makes from them.

## Model

| member | source | states |
|---|---|---|
| Types.RemoveCvBare | include/boost/any.hpp:51 | remove_cv leaves no top-level qualifier, keeps a reference-free type reference-free, and is idempotent |
| Types.Decay | include/boost/any.hpp:177 | boost::decay maps every C++ type to a C++ type with no top-level reference, qualifier or array |
| Types.AnyDecay | include/boost/any.hpp:48-52 | detail::any_decay leaves no top-level qualifier and maps every C++ type to a non-reference C++ type |
| Types.DecayIdempotent | include/boost/any.hpp:99-106 | decaying a decayed type changes nothing, so the tag stored by construction is a fixed point of decay |
| Types.AnyDecayAgreesOffArrays | include/boost/any.hpp:48-52 | any_decay differs from decay exactly when the unreferenced, unqualified type is an array; otherwise holds<any_decay<T>> asks the same as holds<T> |
| Types.AnyDecayIdempotent | include/boost/any.hpp:352-387 | any_decay is idempotent and yields no reference, so the value casts may pass their decayed type back to the pointer cast |
| Types.QualifiersIgnored | include/boost/any.hpp:48-52 | adding const, volatile or a reference to a non-array type changes neither its decay nor its any_decay |
| Dispatch.Instance | include/boost/any.hpp:299-303 | the table handed out for a type belongs to that type and to no other type |
| Dispatch.InstanceIdentity | include/boost/any.hpp:265-268 | two tables are equal exactly when their types are equal, so table identity is type identity |
| BoostAny.DispatcherHoldsOwned | include/boost/any.hpp:265-268 | on a valid container, dispatcher<T>::holds is true exactly when the owned object has type T |
| BoostAny.VoidDispatcherHoldsEmpty | include/boost/any.hpp:306-313 | on a valid container, dispatcher<void>::holds is true exactly when nothing is owned |
| BoostAny.CastOfHeld | include/boost/any.hpp:255-263 | when the table is T's, casting the storage yields a T* to the owned, live object, which has type T |
| BoostAny.TableTypeOfHeld | include/boost/any.hpp:294-297 | the held table's type operation reports the descriptor of the owned object's type |
| Dispatch.Create | include/boost/any.hpp:277-281 | create allocates a fresh, live object of the dispatcher's type with the given value |
| Dispatch.Copy | include/boost/any.hpp:289-292 | copy allocates a fresh, live object of the dispatcher's type equal to the source object |
| Dispatch.Destroy | include/boost/any.hpp:284-287 | destroy deletes the object |
| BoostAny.Any.constructor | include/boost/any.hpp:59 | a default container is empty: no table, null pointer, owns nothing, has_value false, empty true, holds<void> true, holds<T> false for every non-void T, type() is void's descriptor |
| BoostAny.Any.FromValue | include/boost/any.hpp:99-106 | the table is decay<T>'s; the storage owns a fresh object of type decay<T> equal to the value; holds<T> is true; type() reports decay<T>; off arrays any_cast<T>, as written and corrected, returns the value |
| BoostAny.Any.Copy | include/boost/any.hpp:69-76 | the copy shares the source's table; a non-empty source yields a fresh object with an equal value, an empty source an empty copy; the two never own a common object |
| BoostAny.Any.Move | include/boost/any.hpp:85-89 | the new container takes the source's table and pointer; the source's table is nulled, its pointer left as it was; ownership passes entirely to the new container |
| BoostAny.Any.Destruct | include/boost/any.hpp:61-67 | the destructor deletes the owned object when there is one and touches nothing otherwise |
| BoostAny.Any.HasValue | include/boost/any.hpp:160-163 | has_value is true exactly when the container owns an object |
| BoostAny.Any.Empty | include/boost/any.hpp:165-168 | empty is holds<void>, true exactly when nothing is owned |
| BoostAny.Any.Holds | include/boost/any.hpp:174-179 | holds<T> for a T that decays to void means nothing is owned; for any other T it means the owned object has type decay<T> |
| BoostAny.Any.TypeOf | include/boost/any.hpp:199-206 | type() is void's descriptor exactly when the container is empty, otherwise the descriptor of the owned object's type |
| BoostAny.Any.Swap | include/boost/any.hpp:181-187 | table and pointer are exchanged between the two containers, and so is ownership; both stay valid |
| BoostAny.Any.Reset | include/boost/any.hpp:189-192 | afterwards the container is empty with a null pointer, the previously owned object is deleted, and no other object changes |
| BoostAny.Any.Clear | include/boost/any.hpp:194-197 | clear has the same effect as reset, with the same frame |
| BoostAny.Any.AssignCopy | include/boost/any.hpp:78-82 | the target takes the source's table and a fresh copy of its object, the old content is deleted, and a distinct source keeps its table, pointer and object and shares nothing with the target; only the old owned object changes |
| BoostAny.Any.AssignMove | include/boost/any.hpp:91-95 | the target takes the source's table, pointer and ownership; a distinct source is left empty and the old content is deleted; self-move-assignment leaves the table, the pointer and the object unchanged; only the old owned object changes |
| BoostAny.Any.AssignValue | include/boost/any.hpp:108-115 | the target holds a fresh object of type decay<T> equal to the value, the old content is deleted, and no other object changes |
| BoostAny.Any.EmplaceAsWritten | include/boost/any.hpp:131-141 | emplace sets decay<T>'s table and a fresh object, and returns that object; a previously owned object stays live and is owned no more |
| BoostAny.Any.Emplace | include/boost/any.hpp:131-141 | corrected emplace: the same new state and returned object, holds<T> is true whatever was held, and the previous object is deleted; no other object changes |
| BoostAny.AnyCastPtrAsWritten | include/boost/any.hpp:330-350 | the pointer cast as written is null exactly when holds<any_decay<T>> is false; otherwise it points to the owned object with pointee type T |
| BoostAny.AnyCastPtr | include/boost/any.hpp:330-339 | corrected pointer cast: non-null exactly when the owned object has type any_decay<T>; then it points to that object and is well typed; off arrays it is null exactly when holds<T> is false |
| BoostAny.AnyCastConstPtrAsWritten | include/boost/any.hpp:341-350 | the const pointer cast as written is null exactly when holds<any_decay<T>> is false; otherwise it points to the owned object with pointee const T |
| BoostAny.AnyCastConstPtr | include/boost/any.hpp:341-350 | corrected const pointer cast: non-null exactly when the owned object has type any_decay<T>; it then points to that object with pointee const T |
| BoostAny.AnyCastAsWritten | include/boost/any.hpp:352-374 | the value casts as written fail with bad_any_cast exactly when holds<any_decay<T>> is false, and otherwise return the owned object's value |
| BoostAny.AnyCast | include/boost/any.hpp:352-374 | corrected value cast: fails with bad_any_cast exactly when the owned object is not of type any_decay<T> (off arrays: exactly when holds<T> is false), otherwise returns that object's value |
| BoostAny.AnyCastRvalueAsWritten | include/boost/any.hpp:376-387 | the rvalue cast as written returns what the value cast as written returns; a by-value success leaves the moved-from state in the object, while a reference result or a failure leaves it unchanged; only the owned object may change |
| BoostAny.AnyCastRvalue | include/boost/any.hpp:376-387 | corrected rvalue cast: returns what the corrected lvalue cast returns; a by-value success leaves the moved-from state in the object, while a reference result or a failure leaves it unchanged; only the owned object may change |
| BoostAny.UnsafeAnyCast | include/boost/any.hpp:395-400 | when holds<T> holds, the unchecked cast points to the owned object, which has type decay<T>, with pointee T |
| BoostAny.UnsafeAnyCastConst | include/boost/any.hpp:402-406 | when holds<T> holds, the const unchecked cast points to the owned object, which has type decay<T>, with pointee const T |
| BoostAny.HoldsIgnoresQualifiers | include/boost/any.hpp:174-179 | holds<const volatile T&> and its other qualified forms agree with holds<T> for non-array T |
| BoostAny.HoldsUnique | include/boost/any.hpp:265-268 | two holds queries that both succeed ask about the same decayed type |
| BoostAny.PtrCastsAgreeOffArrays | include/boost/any.hpp:330-339 | for non-array T the pointer cast as written and the corrected one return the same result |
| BoostAny.AsWrittenArrayCastMistyped | include/boost/any.hpp:330-350 | with an E* held, the pointer casts as written to E[N], non-const and const, return non-null pointers typed E[N] and const E[N] to an object of type E*; the corrected casts return null |
| BoostAny.AsWrittenRefArrayCastSucceeds | include/boost/any.hpp:352-374 | with an E* held, the value casts as written to E(&)[N] (the any& cast) and to const E(&)[N] (both lvalue casts) succeed with the E* object's value, while the corrected value casts throw |
| BoostAny.ArrayCastWitness | include/boost/any.hpp:330-339 | concrete case: an any holding an int*, cast as written to int[3], yields a non-null int(*)[3] aimed at the int* object |
| BoostAny.RvalueArrayCastWitness | include/boost/any.hpp:376-387 | concrete case: any_cast<const int(&)[3]> of an rvalue any holding an int* succeeds as written with the int* object's value, which stays in place; the corrected cast throws |
| BoostAny.EmplaceLeakWitness | include/boost/any.hpp:136-141 | concrete case: any a = 42; a.emplace<std::string>(...) leaves the int object live and owned by no container |
| BoostAny.CastScenario | include/boost/any.hpp:355-362 | with 42 held, any_cast<int> and any_cast<const volatile int&> return 42; any_cast<float> and any_cast<const int*> throw; the pointer cast to int* is null; the casts as written and the corrected casts agree on each |
| BoostAny.SwapTwice | include/boost/any.hpp:181-187 | swapping twice restores both containers |
| BoostAny.MutateCopy | include/boost/any.hpp:69-76 | writing through a pointer into a copy does not change the original's object |

## Left out

- `type()` yields an abstract descriptor `TypeId(t)`. Boost.TypeIndex's `type_info`, its `name()` and its comparison are not part of this model.
- The model states only some compile-time constraints, as preconditions: no void cast (`dispatcher<void>` has no `cast`), no pointer to a reference (an ill-formed type), no array returned by value (an `enable_if` on `is_constructible`). A reference to an array may be returned. In the source `const E(&)[N]` passes all three value casts but `E(&)[N]` only the `any&` cast at line 367, because `is_constructible` rejects binding it to a `const` or an rvalue array; the model does not make that distinction. It omits the others (copy-constructibility, not-`any`, `is_constructible` of the cast result). The cast overload that a pointer argument selects through conversion to `any` (`any_cast<const int&>(&value)`) is therefore not modelled.
- The type universe has no rvalue-reference types and no function types, and no `any` among the stored types.
- The C++03 single-argument `emplace` and the other `BOOST_NO_*` branches are not modelled. The `initializer_list` `emplace` overload differs only in how the value is built, and like the variadic one it skips destroy: `EmplaceAsWritten` models it as written and `Emplace` corrected.
- The model leaves out the unused inline `buffer` alternative of `storage_type`, because the dispatcher never uses it.
- Exceptions from the stored type's constructors or from the allocator, and strong exception safety, are not modelled.
- Memory is not reclaimed: deletion only clears the ghost flag `live`.
- A null `any*` passed to the pointer casts is not modelled. The source dereferences the operand without a check.
- AnyCast: for a reference `T` the C++ result aliases the stored object. The model returns the object's value, so that aliasing is not captured. The pointer casts do return the object.
- AnyCastRvalue: the moved-from state a move leaves behind depends on the stored type, so it is the parameter `residue`.
- BoostAny.Any.AssignCopy: requires `ExclusiveWith(other)`, the library's invariant that two containers never own the same object.
- BoostAny.Any.AssignMove: requires `ExclusiveWith(other)` for the same reason.
- BoostAny.UnsafeAnyCast: requires `holds<T>()`. With the wrong type the source's behaviour is undefined.
- The `any&` results of `swap` and the assignment operators are not modelled. They only allow call chaining.
- Thread safety, static-initialisation races, the MSVC pragma, symbol visibility and `bad_any_cast::what()`'s text are not modelled.

## Findings

| source | as written | input that shows it | evidently intended | confidence | as-written member | corrected member |
|---|---|---|---|---|---|---|
| include/boost/any.hpp:136-141 | `emplace` overwrites `interface` and `storage.pointer` without calling `destroy` on the previous content | `any a = 42; a.emplace<std::string>("x");` leaves the `int` object allocated and owned by no container | destroy the current content first, as `reset` and the assignments do | high, not executed | BoostAny.Any.EmplaceAsWritten | BoostAny.Any.Emplace |
| include/boost/any.hpp:330-350 | the pointer `any_cast<T>` checks `holds<any_decay<T>>()`, which applies `boost::decay` again, but casts with `dispatcher<any_decay<T>>`; for an array `T` the two types differ. The const overload at line 345 runs the same test, and the value casts at lines 357, 369 and 382 call the pointer cast, so `any_cast<int(&)[3]>(a)` on an `any&` (line 369) and `any_cast<const int(&)[3]>` on any operand (lines 357, 369, 382) succeed the same way | `any a = (int*)p; any_cast<int[3]>(&a)` yields a non-null `int(*)[3]` pointing at an `int*` object | a non-null result only when the held type is the type being cast to | medium, not executed | BoostAny.AnyCastPtrAsWritten, BoostAny.AnyCastConstPtrAsWritten, BoostAny.AnyCastAsWritten, BoostAny.AnyCastRvalueAsWritten (shown by BoostAny.AsWrittenArrayCastMistyped, BoostAny.AsWrittenRefArrayCastSucceeds) | BoostAny.AnyCastPtr, BoostAny.AnyCastConstPtr, BoostAny.AnyCast, BoostAny.AnyCastRvalue |
