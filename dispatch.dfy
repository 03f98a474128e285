/**
 * The per-type dispatch mechanism of boost::any: heap objects, the `interface` table that
 * `dispatcher<T>::instance()` hands out, and the static members of `dispatcher<T>` and
 * `dispatcher<void>`.
 */
module Dispatch {
  import opened Wrappers
  import opened Types

  /** Values a stored object can carry. */
  datatype Value = IntVal(i: int) | FloatVal(f: real) | TextVal(s: string) | AddrVal(addr: nat)

  /**
   * One heap object, the target of `storage.pointer`. Its dynamic type `ty` is fixed at
   * allocation; `live` is false once the object has been deleted.
   */
  class Box {
    const ty: Type
    var val: Value
    ghost var live: bool

    constructor (ty: Type, val: Value)
      ensures this.ty == ty && this.val == val && live
    {
      this.ty := ty;
      this.val := val;
      live := true;
    }
  }

  /**
   * The dispatch table `interface` of one decayed type. There is one table per type, so
   * comparing table addresses is comparing the types the tables were made for.
   */
  datatype Interface = Interface(tag: Type)

  /** The type descriptor `type_info` that Boost.TypeIndex gives for a type. */
  datatype TypeInfo = TypeId(of: Type)

  /** A `T*` obtained by casting `storage.pointer`: the object it points to and its static pointee type. */
  datatype TypedPtr = TypedPtr(target: Box, pointee: Type)

  /** `dispatcher<T>::instance()`: the table of `t`, which no other type shares. */
  function Instance(t: Type): (i: Interface)
    ensures i.tag == t
    ensures forall u :: u != t ==> i != Interface(u)
  {
    Interface(t)
  }

  /** Two tables are the same table exactly when they were made for the same type. */
  lemma InstanceIdentity(t: Type, u: Type)
    ensures Instance(t) == Instance(u) <==> t == u
  {
  }

  /** `dispatcher<T>::holds`: the container's table is the address of `t`'s table. */
  function DispatcherHolds(t: Type, iface: Option<Interface>): bool {
    iface == Some(Instance(t))
  }

  /** `dispatcher<void>::holds`: the container has no content. */
  function VoidDispatcherHolds(iface: Option<Interface>): bool {
    iface.None?
  }

  /** `dispatcher<T>::cast`: reinterpret the storage pointer as a `T*`. */
  function Cast(t: Type, p: Box): TypedPtr {
    TypedPtr(p, t)
  }

  /** `dispatcher<T>::type` applied through the table. */
  function TableType(i: Interface): TypeInfo {
    TypeId(i.tag)
  }

  /** `dispatcher<T>::create`: allocates a new `t` holding `v`. */
  method Create(t: Type, v: Value) returns (b: Box)
    ensures fresh(b) && b.live && b.ty == t && b.val == v
  {
    b := new Box(t, v);
  }

  /** `dispatcher<T>::copy`: allocates a new `t` equal to the object `src` points to. */
  method Copy(t: Type, src: Box) returns (b: Box)
    ensures fresh(b) && b.live && b.ty == t && b.val == src.val
  {
    b := Create(t, Cast(t, src).target.val);
  }

  /** `dispatcher<T>::destroy`: deletes the object the storage points to. */
  method Destroy(t: Type, b: Box)
    modifies b
    ensures !b.live && b.val == old(b.val)
  {
    b.live := false;
  }
}
