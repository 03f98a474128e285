/**
 * `boost::any`: a single-slot, type-erased value container, and the free `any_cast`
 * functions that read it.
 *
 * The container has two fields: `iface`, the nullable address of the dispatch table of the
 * held type, and `ptr`, the storage pointer. The table, not the pointer, decides ownership:
 * a moved-from container keeps its pointer but owns nothing.
 */
module BoostAny {
  import opened Wrappers
  import opened Types
  import opened Dispatch

  /** The only error a cast reports: `bad_any_cast`. */
  datatype BadAnyCast = BadAnyCast

  /** A type a container can hold: a well-formed, non-void type that decay leaves alone. */
  predicate Storable(t: Type) {
    WellFormed(t) && t != Void && Decay(t) == t
  }

  class Any {
    var iface: Option<Interface>
    var ptr: Box?

    /**
     * The representation invariant: with a table, the storage points to one live object
     * whose dynamic type is the table's type.
     */
    ghost predicate Valid()
      reads this, ptr
    {
      iface.Some? ==> ptr != null && ptr.live && ptr.ty == iface.value.tag && Storable(iface.value.tag)
    }

    /** The objects this container owns: the storage target, but only while a table is set. */
    ghost function Owned(): set<Box>
      reads this
    {
      if iface.Some? && ptr != null then {ptr} else {}
    }

    /** No object is owned by both containers (trivially so for one container). */
    ghost predicate ExclusiveWith(other: Any)
      reads this, other
    {
      this == other || Owned() !! other.Owned()
    }

    /** `any()`: an empty container. */
    constructor ()
      ensures Valid() && iface == None && ptr == null && Owned() == {}
      ensures !HasValue() && Empty() && Holds(Void)
      ensures forall t :: WellFormed(t) && Decay(t) != Void ==> !Holds(t)
      ensures TypeOf() == TypeId(Void)
    {
      iface := None;
      ptr := null;
    }

    /** `any(ValueType&&)`: holds a new object of type `decay<t>` equal to `v`. */
    constructor FromValue(t: Type, v: Value)
      requires WellFormed(t) && Decay(t) != Void
      ensures Valid() && iface == Some(Instance(Decay(t)))
      ensures fresh(ptr) && ptr.ty == Decay(t) && ptr.val == v && Owned() == {ptr}
      ensures Holds(t) && TypeOf() == TypeId(Decay(t))
      ensures !AnyDecay(t).Array? ==> AnyCast(t, this) == Success(v)
      ensures !AnyDecay(t).Array? ==> AnyCastAsWritten(t, this) == Success(v)
    {
      AnyDecayAgreesOffArrays(t);
      DecayIdempotent(t);
      iface := Some(Instance(Decay(t)));
      ptr := null;
      new;
      ptr := Create(Decay(t), v);
    }

    /** `any(const any&)`: shares the table and deep-copies the object, if any. */
    constructor Copy(other: Any)
      requires other.Valid()
      ensures Valid() && iface == other.iface
      ensures other.iface.Some? ==> fresh(ptr) && ptr.val == other.ptr.val
      ensures other.iface.None? ==> ptr == null
      ensures Owned() !! other.Owned()
    {
      iface := other.iface;
      ptr := null;
      new;
      if other.iface.Some? {
        ptr := Dispatch.Copy(other.iface.value.tag, other.ptr);
      }
    }

    /**
     * `any(any&&)`: takes the source's pointer and table; only the source's table is
     * cleared, so the source keeps a pointer it no longer owns.
     */
    constructor Move(other: Any)
      requires other.Valid()
      modifies other
      ensures Valid() && other.Valid()
      ensures iface == old(other.iface) && ptr == old(other.ptr)
      ensures other.iface == None && other.ptr == old(other.ptr)
      ensures Owned() == old(other.Owned()) && other.Owned() == {}
    {
      ptr := other.ptr;
      iface := other.iface;
      new;
      other.iface := None;
    }

    /** `~any()`: destroys the owned object, if any. */
    method Destruct()
      requires Valid()
      modifies Owned()
      ensures iface.Some? ==> !ptr.live
      ensures iface.None? && ptr != null ==> unchanged(ptr)
    {
      if HasValue() {
        Dispatch.Destroy(iface.value.tag, ptr);
      }
    }

    /** `has_value()`: whether the container owns an object. */
    function HasValue(): (r: bool)
      reads this, ptr
      requires Valid()
      ensures r <==> Owned() != {}
    {
      iface.Some?
    }

    /** `empty()`: the canonical empty check `holds<void>()`. */
    function Empty(): (r: bool)
      reads this, ptr
      requires Valid()
      ensures r <==> Holds(Void)
      ensures r <==> Owned() == {}
    {
      !HasValue()
    }

    /**
     * `holds<T>()`: compares the table with the table of `decay<T>`; `holds<void>()` asks
     * whether the container is empty. So it holds exactly when the owned object has the
     * decayed type of `t`.
     */
    function Holds(t: Type): (r: bool)
      reads this, ptr
      requires Valid() && WellFormed(t)
      ensures Decay(t) == Void ==> (r <==> Owned() == {})
      ensures Decay(t) != Void ==> (r <==> exists b :: b in Owned() && b.ty == Decay(t))
    {
      var d := Decay(t);
      if d == Void then VoidDispatcherHolds(iface) else DispatcherHolds(d, iface)
    }

    /** `type()`: the descriptor of the held type, or of `void` when empty. */
    function TypeOf(): (r: TypeInfo)
      reads this, ptr
      requires Valid()
      ensures r.of == Void <==> Owned() == {}
      ensures forall b :: b in Owned() ==> r == TypeId(b.ty)
    {
      if HasValue() then TableType(iface.value) else TypeId(Void)
    }

    /** `swap(any&)`: exchanges table and storage in both directions. */
    method Swap(other: Any)
      requires Valid() && other.Valid()
      modifies this, other
      ensures Valid() && other.Valid()
      ensures iface == old(other.iface) && ptr == old(other.ptr)
      ensures other.iface == old(iface) && other.ptr == old(ptr)
      ensures Owned() == old(other.Owned()) && other.Owned() == old(Owned())
    {
      var i, p := iface, ptr;
      iface, ptr := other.iface, other.ptr;
      other.iface, other.ptr := i, p;
    }

    /** `reset()`: swaps with a new empty container, which then destroys the old content. */
    method Reset()
      requires Valid()
      modifies this, Owned()
      ensures Valid() && iface == None && ptr == null && Owned() == {}
      ensures old(iface).Some? ==> !old(ptr).live
    {
      var tmp := new Any();
      tmp.Swap(this);
      tmp.Destruct();
    }

    /** `clear()`: the same as `reset()`. */
    method Clear()
      requires Valid()
      modifies this, Owned()
      ensures Valid() && iface == None && ptr == null && Owned() == {}
      ensures old(iface).Some? ==> !old(ptr).live
    {
      Reset();
    }

    /**
     * `operator=(const any&)`: copies `other` into a temporary, swaps, and lets the
     * temporary destroy the previous content. `other` is left as it was.
     */
    method AssignCopy(other: Any)
      requires Valid() && other.Valid() && ExclusiveWith(other)
      modifies this, Owned()
      ensures Valid() && other.Valid()
      ensures iface == old(other.iface)
      ensures iface.Some? ==> fresh(ptr) && ptr.val == old(other.ptr.val)
      ensures iface.None? ==> ptr == null
      ensures old(iface).Some? ==> !old(ptr).live
      ensures other != this ==> other.iface == old(other.iface) && other.ptr == old(other.ptr)
      ensures other != this ==> Owned() !! other.Owned()
    {
      var tmp := new Any.Copy(other);
      tmp.Swap(this);
      tmp.Destruct();
    }

    /**
     * `operator=(any&&)`: moves `other` into a temporary, swaps, and lets the temporary
     * destroy the previous content. Self-move-assignment leaves the container as it was.
     */
    method AssignMove(other: Any)
      requires Valid() && other.Valid() && ExclusiveWith(other)
      modifies this, other, Owned()
      ensures Valid() && other.Valid()
      ensures iface == old(other.iface) && ptr == old(other.ptr)
      ensures Owned() == old(other.Owned())
      ensures other == this && ptr != null ==> unchanged(ptr)
      ensures other != this ==> other.iface == None && other.ptr == old(other.ptr)
      ensures other != this && old(iface).Some? ==> !old(ptr).live
    {
      var tmp := new Any.Move(other);
      tmp.Swap(this);
      tmp.Destruct();
    }

    /** `operator=(ValueType&&)`: builds a container from the value, swaps, destroys the old content. */
    method AssignValue(t: Type, v: Value)
      requires Valid() && WellFormed(t) && Decay(t) != Void
      modifies this, Owned()
      ensures Valid() && iface == Some(Instance(Decay(t)))
      ensures fresh(ptr) && ptr.ty == Decay(t) && ptr.val == v && Owned() == {ptr}
      ensures old(iface).Some? ==> !old(ptr).live
    {
      var tmp := new Any.FromValue(t, v);
      tmp.Swap(this);
      tmp.Destruct();
    }

    /**
     * `emplace<T>(args...)` as the source writes it: it sets the table and allocates the
     * new object without destroying the previous one, which stays alive and unowned.
     */
    method EmplaceAsWritten(t: Type, v: Value) returns (r: Box)
      requires Valid() && WellFormed(t) && Decay(t) != Void
      modifies this
      ensures Valid() && iface == Some(Instance(Decay(t)))
      ensures fresh(ptr) && ptr.ty == Decay(t) && ptr.val == v && r == ptr && Owned() == {r}
      ensures old(iface).Some? ==> old(ptr).live && old(ptr) !in Owned()
    {
      DecayIdempotent(t);
      iface := Some(Instance(Decay(t)));
      ptr := Create(Decay(t), v);
      r := Cast(Decay(t), ptr).target;
    }

    /**
     * `emplace<T>(args...)` destroying the previous content first: it replaces whatever
     * was held and returns the new stored object.
     */
    method Emplace(t: Type, v: Value) returns (r: Box)
      requires Valid() && WellFormed(t) && Decay(t) != Void
      modifies this, Owned()
      ensures Valid() && iface == Some(Instance(Decay(t)))
      ensures fresh(ptr) && ptr.ty == Decay(t) && ptr.val == v && r == ptr && Owned() == {r}
      ensures Holds(t)
      ensures old(iface).Some? ==> !old(ptr).live
    {
      Destruct();
      DecayIdempotent(t);
      iface := Some(Instance(Decay(t)));
      ptr := Create(Decay(t), v);
      r := Cast(Decay(t), ptr).target;
    }
  }

  /**
   * `any_cast<T>(any*)` as the source writes it: it checks `holds<any_decay<T>>()`, which
   * decays again, but casts with `dispatcher<any_decay<T>>`.
   */
  function AnyCastPtrAsWritten(t: Type, operand: Any): (p: Option<TypedPtr>)
    reads operand, operand.ptr
    requires operand.Valid() && WellFormed(t) && !t.Ref? && AnyDecay(t) != Void
    ensures p.None? <==> !operand.Holds(AnyDecay(t))
    ensures p.Some? ==> p.value.target in operand.Owned() && p.value.pointee == t
  {
    AnyDecayAgreesOffArrays(t);
    if operand.Holds(AnyDecay(t)) then Some(Cast(t, operand.ptr)) else None
  }

  /**
   * `any_cast<T>(any*)` and `any_cast<T>(const any*)`: null unless the container holds
   * exactly `any_decay<T>`; otherwise a `T*` to the owned object, which then has that type.
   */
  function AnyCastPtr(t: Type, operand: Any): (p: Option<TypedPtr>)
    reads operand, operand.ptr
    requires operand.Valid() && WellFormed(t) && !t.Ref? && AnyDecay(t) != Void
    ensures p.Some? <==> exists b :: b in operand.Owned() && b.ty == AnyDecay(t)
    ensures p.Some? ==> p.value.target in operand.Owned() && p.value.pointee == t
    ensures p.Some? ==> AnyDecay(p.value.pointee) == p.value.target.ty
    ensures !AnyDecay(t).Array? ==> (p.None? <==> !operand.Holds(t))
  {
    AnyDecayAgreesOffArrays(t);
    if DispatcherHolds(AnyDecay(t), operand.iface) then Some(Cast(t, operand.ptr)) else None
  }

  /**
   * `any_cast<T>(const any*)` as the source writes it: the same `holds<any_decay<T>>()` test
   * as the pointer cast as written, but the result is a `const T*`.
   */
  function AnyCastConstPtrAsWritten(t: Type, operand: Any): (p: Option<TypedPtr>)
    reads operand, operand.ptr
    requires operand.Valid() && WellFormed(t) && !t.Ref? && AnyDecay(t) != Void
    ensures p.None? <==> !operand.Holds(AnyDecay(t))
    ensures p.Some? ==> p.value.target in operand.Owned() && p.value.pointee == AddConst(t)
  {
    match AnyCastPtrAsWritten(t, operand)
    case Some(q) => Some(TypedPtr(q.target, AddConst(t)))
    case None => None
  }

  /**
   * `any_cast<T>(const any*)`, over the corrected test: the same test as the corrected
   * `any_cast<T>(any*)`, but the result is a `const T*`.
   */
  function AnyCastConstPtr(t: Type, operand: Any): (p: Option<TypedPtr>)
    reads operand, operand.ptr
    requires operand.Valid() && WellFormed(t) && !t.Ref? && AnyDecay(t) != Void
    ensures p.Some? <==> exists b :: b in operand.Owned() && b.ty == AnyDecay(t)
    ensures p.Some? ==> p.value.target in operand.Owned() && p.value.pointee == AddConst(t)
    ensures p.Some? ==> AnyDecay(p.value.pointee) == p.value.target.ty
  {
    match AnyCastPtr(t, operand)
    case Some(q) => Some(TypedPtr(q.target, AddConst(t)))
    case None => None
  }

  /**
   * `any_cast<T>(any&)` and `any_cast<T>(const any&)` as the source writes them: they go
   * through the pointer cast as written, so for a reference-to-array `T` they inherit its
   * mistyped success.
   */
  function AnyCastAsWritten(t: Type, operand: Any): (r: Result<Value, BadAnyCast>)
    reads operand, operand.ptr
    requires operand.Valid() && WellFormed(t) && AnyDecay(t) != Void && (AnyDecay(t).Array? ==> t.Ref?)
    ensures r.Failure? <==> !operand.Holds(AnyDecay(t))
    ensures r.Success? ==> exists b :: b in operand.Owned() && r.value == b.val
  {
    AnyDecayIdempotent(t);
    match AnyCastPtrAsWritten(AnyDecay(t), operand)
    case Some(p) => Success(p.target.val)
    case None => Failure(BadAnyCast)
  }

  /**
   * `any_cast<T>(any&)` and `any_cast<T>(const any&)`, over the corrected pointer cast: the
   * stored value, or `bad_any_cast` when the owned object is not of type `any_decay<T>`
   * (in particular when the container is empty). Off arrays that is exactly when
   * `holds<T>()` is false; a reference to an array always fails.
   */
  function AnyCast(t: Type, operand: Any): (r: Result<Value, BadAnyCast>)
    reads operand, operand.ptr
    requires operand.Valid() && WellFormed(t) && AnyDecay(t) != Void && (AnyDecay(t).Array? ==> t.Ref?)
    ensures r.Failure? <==> !exists b :: b in operand.Owned() && b.ty == AnyDecay(t)
    ensures !AnyDecay(t).Array? ==> (r.Failure? <==> !operand.Holds(t))
    ensures r.Success? ==> exists b :: b in operand.Owned() && b.ty == AnyDecay(t) && r.value == b.val
  {
    AnyDecayIdempotent(t);
    AnyDecayAgreesOffArrays(t);
    match AnyCastPtr(AnyDecay(t), operand)
    case Some(p) => Success(p.target.val)
    case None => Failure(BadAnyCast)
  }

  /**
   * `any_cast<T>(any&&)` as the source writes it: it goes through the pointer cast as
   * written, so for a reference-to-array `T` it inherits its mistyped success. A by-value
   * result is move-constructed, leaving `residue` in the stored object.
   */
  method AnyCastRvalueAsWritten(t: Type, operand: Any, residue: Value) returns (r: Result<Value, BadAnyCast>)
    requires operand.Valid() && WellFormed(t) && AnyDecay(t) != Void && (AnyDecay(t).Array? ==> t.Ref?)
    modifies operand.Owned()
    ensures operand.Valid()
    ensures r == old(AnyCastAsWritten(t, operand))
    ensures r.Success? ==> operand.ptr.val == if t.Ref? then old(operand.ptr.val) else residue
    ensures r.Failure? ==> operand.ptr == null || operand.ptr.val == old(operand.ptr.val)
  {
    AnyDecayIdempotent(t);
    var p := AnyCastPtrAsWritten(AnyDecay(t), operand);
    match p
    case Some(q) =>
      r := Success(q.target.val);
      if !t.Ref? {
        q.target.val := residue;
      }
    case None =>
      r := Failure(BadAnyCast);
  }

  /**
   * `any_cast<T>(any&&)`, over the corrected pointer cast: like the lvalue cast, but a by-value result is move-constructed,
   * leaving `residue` (the moved-from state) in the stored object; a reference result moves nothing.
   */
  method AnyCastRvalue(t: Type, operand: Any, residue: Value) returns (r: Result<Value, BadAnyCast>)
    requires operand.Valid() && WellFormed(t) && AnyDecay(t) != Void && (AnyDecay(t).Array? ==> t.Ref?)
    modifies operand.Owned()
    ensures operand.Valid()
    ensures r == old(AnyCast(t, operand))
    ensures r.Success? ==> operand.ptr.val == if t.Ref? then old(operand.ptr.val) else residue
    ensures r.Failure? ==> operand.ptr == null || operand.ptr.val == old(operand.ptr.val)
  {
    AnyDecayIdempotent(t);
    var p := AnyCastPtr(AnyDecay(t), operand);
    match p
    case Some(q) =>
      r := Success(q.target.val);
      if !t.Ref? {
        q.target.val := residue;
      }
    case None =>
      r := Failure(BadAnyCast);
  }

  /**
   * `unsafe_any_cast<T>(any*)`, for callers who know the type: a `T*` to the owned object.
   */
  function UnsafeAnyCast(t: Type, operand: Any): (p: TypedPtr)
    reads operand, operand.ptr
    requires operand.Valid() && WellFormed(t) && !t.Ref? && !RemoveCv(t).Array? && Decay(t) != Void
    requires operand.Holds(t)
    ensures p.target in operand.Owned() && p.target.ty == Decay(t) && p.pointee == t
  {
    Cast(t, operand.ptr)
  }

  /** `unsafe_any_cast<T>(const any*)`: the non-const unchecked cast, with a `const T*` result. */
  function UnsafeAnyCastConst(t: Type, operand: Any): (p: TypedPtr)
    reads operand, operand.ptr
    requires operand.Valid() && WellFormed(t) && !t.Ref? && !RemoveCv(t).Array? && Decay(t) != Void
    requires operand.Holds(t)
    ensures p.target in operand.Owned() && p.target.ty == Decay(t) && p.pointee == AddConst(t)
  {
    var q := UnsafeAnyCast(t, operand);
    TypedPtr(q.target, AddConst(t))
  }

  /**
   * `holds<int&>()`, `holds<const int&>()` and `holds<const volatile int&>()` all agree
   * with `holds<int>()`.
   */
  lemma HoldsIgnoresQualifiers(a: Any, t: Type, c: bool, v: bool, r: bool)
    requires a.Valid() && NonRefType(t) && WellFormed(Qualified(t, c, v, r)) && !RemoveCv(t).Array?
    ensures a.Holds(Qualified(t, c, v, r)) == a.Holds(t)
  {
    QualifiersIgnored(t, c, v, r);
  }

  /** At most one decayed type is held at a time. */
  lemma HoldsUnique(a: Any, t: Type, u: Type)
    requires a.Valid() && WellFormed(t) && WellFormed(u) && a.Holds(t) && a.Holds(u)
    ensures Decay(t) == Decay(u)
  {
  }

  /** Off arrays the pointer cast as written and the corrected one return the same pointer. */
  lemma PtrCastsAgreeOffArrays(t: Type, a: Any)
    requires a.Valid() && WellFormed(t) && !t.Ref? && AnyDecay(t) != Void && !AnyDecay(t).Array?
    ensures AnyCastPtrAsWritten(t, a) == AnyCastPtr(t, a)
  {
    AnyDecayAgreesOffArrays(t);
  }

  /**
   * With an `E*` held, the pointer casts as written to the array type `E[N]`, non-const and
   * const, are not null, yet the object they point to is an `E*`, not an `E[N]`; the
   * corrected casts give null.
   */
  lemma AsWrittenArrayCastMistyped(a: Any, e: Type, n: nat)
    requires a.Valid() && NonRefType(e) && Unqualified(e) && e != Void && n > 0 && a.Holds(Ptr(e))
    ensures AnyCastPtrAsWritten(Array(e, n), a).Some?
    ensures var p := AnyCastPtrAsWritten(Array(e, n), a).value;
      p.target.ty == Ptr(e) && AnyDecay(p.pointee) == Array(e, n)
    ensures AnyCastPtr(Array(e, n), a).None?
    ensures AnyCastConstPtrAsWritten(Array(e, n), a).Some?
    ensures var p := AnyCastConstPtrAsWritten(Array(e, n), a).value;
      p.target.ty == Ptr(e) && p.pointee == Const(Array(e, n))
    ensures AnyCastConstPtr(Array(e, n), a).None?
  {
  }

  /**
   * With an `E*` held, the value casts as written to `E(&)[N]` (the `any&` cast) and to
   * `const E(&)[N]` (all three value casts) succeed, handing out the `E*` object as an
   * array; the corrected value casts throw `bad_any_cast`.
   */
  lemma AsWrittenRefArrayCastSucceeds(a: Any, e: Type, n: nat)
    requires a.Valid() && NonRefType(e) && Unqualified(e) && e != Void && n > 0 && a.Holds(Ptr(e))
    ensures AnyCastAsWritten(Ref(Array(e, n)), a) == Success(a.ptr.val)
    ensures AnyCast(Ref(Array(e, n)), a) == Failure(BadAnyCast)
    ensures AnyCastAsWritten(Ref(Const(Array(e, n))), a) == Success(a.ptr.val)
    ensures AnyCast(Ref(Const(Array(e, n))), a) == Failure(BadAnyCast)
  {
    AsWrittenArrayCastMistyped(a, e, n);
  }

  /** `dispatcher<T>::holds` on a valid container: the owned object has type `t`. */
  lemma DispatcherHoldsOwned(a: Any, t: Type)
    requires a.Valid()
    ensures DispatcherHolds(t, a.iface) <==> exists b :: b in a.Owned() && b.ty == t
  {
  }

  /** `dispatcher<void>::holds` on a valid container: nothing is owned. */
  lemma VoidDispatcherHoldsEmpty(a: Any)
    requires a.Valid()
    ensures VoidDispatcherHolds(a.iface) <==> a.Owned() == {}
  {
  }

  /**
   * When the table is `t`'s, `dispatcher<T>::cast` of the storage yields a `T*` to the
   * owned, live object, which is a `t`.
   */
  lemma CastOfHeld(a: Any, t: Type)
    requires a.Valid() && DispatcherHolds(t, a.iface)
    ensures a.ptr != null
    ensures Cast(t, a.ptr).target in a.Owned() && Cast(t, a.ptr).target.live
    ensures Cast(t, a.ptr).target.ty == t && Cast(t, a.ptr).pointee == t
  {
  }

  /** The held table's type operation reports the owned object's type. */
  lemma TableTypeOfHeld(a: Any, i: Interface)
    requires a.Valid() && a.iface == Some(i)
    ensures a.ptr != null && TableType(i) == TypeId(a.ptr.ty)
  {
  }

  /** `any a = (int*)p; any_cast<int[3]>(&a)` as written: a non-null, mistyped pointer. */
  method ArrayCastWitness() returns (a: Any, p: TypedPtr)
    ensures a.Valid() && p.target in a.Owned()
    ensures p.target.ty == Ptr(Int) && p.pointee == Array(Int, 3)
  {
    a := new Any.FromValue(Ptr(Int), AddrVal(7));
    AsWrittenArrayCastMistyped(a, Int, 3);
    p := AnyCastPtrAsWritten(Array(Int, 3), a).value;
  }

  /**
   * `any a = (int*)p; any_cast<const int(&)[3]>(std::move(a))` as written: it succeeds with
   * the `int*` object's value, which it leaves in place; the corrected rvalue cast throws.
   */
  method RvalueArrayCastWitness() returns (a: Any, r: Result<Value, BadAnyCast>)
    ensures a.Valid() && a.HasValue() && a.ptr.val == AddrVal(7)
    ensures r == Success(AddrVal(7))
    ensures AnyCast(Ref(Const(Array(Int, 3))), a) == Failure(BadAnyCast)
  {
    a := new Any.FromValue(Ptr(Int), AddrVal(7));
    AsWrittenRefArrayCastSucceeds(a, Int, 3);
    r := AnyCastRvalueAsWritten(Ref(Const(Array(Int, 3))), a, IntVal(0));
    AsWrittenRefArrayCastSucceeds(a, Int, 3);
  }

  /** `any a = 42; a.emplace<std::string>(...)` as written: the `int` object is never deleted. */
  method EmplaceLeakWitness() returns (a: Any, leaked: Box)
    ensures a.Valid() && a.Holds(Str) && leaked !in a.Owned()
    ensures leaked.live && leaked.ty == Int && leaked.val == IntVal(42)
  {
    a := new Any.FromValue(Int, IntVal(42));
    leaked := a.ptr;
    var _ := a.EmplaceAsWritten(Str, TextVal("test message"));
  }

  /** `any value = 42`: the `int` casts yield 42; the `float` and `int*` casts throw. */
  method CastScenario() returns (a: Any)
    ensures a.Valid()
    ensures AnyCastAsWritten(Int, a) == AnyCast(Int, a) == Success(IntVal(42))
    ensures AnyCastAsWritten(Ref(Const(Volatile(Int))), a) == Success(IntVal(42))
    ensures AnyCast(Ref(Const(Volatile(Int))), a) == Success(IntVal(42))
    ensures AnyCastAsWritten(Float, a) == AnyCast(Float, a) == Failure(BadAnyCast)
    ensures AnyCastAsWritten(Ptr(Const(Int)), a) == AnyCast(Ptr(Const(Int)), a) == Failure(BadAnyCast)
    ensures AnyCastPtrAsWritten(Ptr(Int), a) == AnyCastPtr(Ptr(Int), a) == None
  {
    a := new Any.FromValue(Int, IntVal(42));
  }

  /** Swapping twice restores both containers. */
  method SwapTwice(a: Any, b: Any)
    requires a.Valid() && b.Valid()
    modifies a, b
    ensures a.Valid() && b.Valid()
    ensures a.iface == old(a.iface) && a.ptr == old(a.ptr)
    ensures b.iface == old(b.iface) && b.ptr == old(b.ptr)
  {
    a.Swap(b);
    a.Swap(b);
  }

  /** Writing through a pointer into a copy leaves the original's object untouched. */
  method MutateCopy(a: Any, v: Value) returns (b: Any)
    requires a.Valid() && a.HasValue()
    ensures b.Valid() && b.Holds(a.ptr.ty) && b.ptr.val == v
    ensures a.Valid() && a.ptr.val == old(a.ptr.val)
  {
    b := new Any.Copy(a);
    var p := AnyCastPtrAsWritten(b.ptr.ty, b);
    p.value.target.val := v;
  }
}
