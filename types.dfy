/**
 * A small universe of C++ type expressions and the two type transformations boost::any
 * applies before it compares types: `boost::decay` (used by `holds`, the constructors and
 * `emplace`) and `detail::any_decay` (remove_reference then remove_cv, used by `any_cast`).
 *
 * Every C++ type of the universe has exactly one spelling accepted by `WellFormed`, and
 * distinct types have distinct spellings: an array carries its bound, so `int[3]` and
 * `int[4]` differ; a reference appears only at the top (C++ has no pointers to, arrays of,
 * or cv-qualified references); at each level `const` is written at most once and outside
 * `volatile`, written at most once; and the qualifiers of an array type are written outside
 * it, so `const int[3]` is `Const(Array(Int, 3))` and never `Array(Const(Int), 3)`.
 */
module Types {

  datatype Type =
    | Void
    | Int
    | Float
    | Str
    | Ptr(pointee: Type)
    | Array(elem: Type, bound: nat)
    | Const(base: Type)
    | Volatile(base: Type)
    | Ref(referent: Type)

  /** `t` carries no top-level qualifier. */
  predicate Unqualified(t: Type) {
    !t.Const? && !t.Volatile?
  }

  /**
   * `t` is the canonical spelling of a non-reference C++ type: no reference anywhere,
   * qualifiers in the order described above, and arrays of a positive number of
   * unqualified, non-void elements.
   */
  predicate NonRefType(t: Type) {
    match t
    case Ref(_) => false
    case Const(u) => !u.Const? && NonRefType(u)
    case Volatile(u) => Unqualified(u) && NonRefType(u)
    case Ptr(u) => NonRefType(u)
    case Array(u, n) => n > 0 && Unqualified(u) && u != Void && NonRefType(u)
    case _ => true
  }

  /** `t` is the canonical spelling of a C++ type: at most one reference, at the top, and not to void. */
  predicate WellFormed(t: Type) {
    match t
    case Ref(u) => NonRefType(u) && RemoveCv(u) != Void
    case _ => NonRefType(t)
  }

  /** `boost::remove_reference` */
  function RemoveReference(t: Type): Type {
    if t.Ref? then t.referent else t
  }

  /** `boost::remove_cv`: strips the top-level const and volatile qualifiers. */
  function RemoveCv(t: Type): Type {
    match t
    case Const(u) => RemoveCv(u)
    case Volatile(u) => RemoveCv(u)
    case _ => t
  }

  /** Re-applies the top-level qualifiers of `q` to `e`. */
  function Requalify(q: Type, e: Type): Type {
    match q
    case Const(u) => Const(Requalify(u, e))
    case Volatile(u) => Volatile(Requalify(u, e))
    case _ => e
  }

  /**
   * `boost::decay`: drops a reference; an array (of qualified elements) becomes a pointer
   * to its element; any other type loses its top-level cv qualifiers. A C++ type decays
   * to a C++ type with no top-level reference, qualifier or array.
   */
  function Decay(t: Type): (r: Type)
    ensures WellFormed(t) ==> Decayed(r) && WellFormed(r)
  {
    var u := RemoveReference(t);
    RemoveCvBare(u);
    match RemoveCv(u)
    case Array(e, _) => RequalifyCanonical(u, e); Ptr(Requalify(u, e))
    case bare => bare
  }

  /**
   * `detail::any_decay`: remove_reference, then remove_cv. Arrays stay arrays. The result
   * has no top-level qualifier and, for a C++ type, is a non-reference C++ type.
   */
  function AnyDecay(t: Type): (r: Type)
    ensures Unqualified(r)
    ensures WellFormed(t) ==> NonRefType(r) && WellFormed(r)
  {
    RemoveCvBare(RemoveReference(t));
    RemoveCv(RemoveReference(t))
  }

  /** A type that decay leaves alone at the top: no reference, qualifier or array. */
  predicate Decayed(t: Type) {
    !t.Ref? && !t.Const? && !t.Volatile? && !t.Array?
  }

  /** The innermost type under the top-level qualifiers. */
  lemma {:induction false} RemoveCvBare(t: Type)
    ensures Unqualified(RemoveCv(t))
    ensures NonRefType(t) ==> NonRefType(RemoveCv(t))
    ensures RemoveCv(RemoveCv(t)) == RemoveCv(t)
  {
    match t
    case Const(u) => RemoveCvBare(u);
    case Volatile(u) => RemoveCvBare(u);
    case _ =>
  }

  /** Qualifiers moved onto an unqualified array element keep it canonical. */
  lemma {:induction false} RequalifyCanonical(q: Type, e: Type)
    ensures NonRefType(q) && NonRefType(e) && Unqualified(e) ==> NonRefType(Requalify(q, e))
    ensures RemoveCv(Requalify(q, e)) == RemoveCv(e)
    ensures !q.Const? && Unqualified(e) ==> !Requalify(q, e).Const?
  {
    match q
    case Const(u) => RequalifyCanonical(u, e);
    case Volatile(u) => RequalifyCanonical(u, e);
    case _ =>
  }

  /** Decaying twice is decaying once: stored types are fixed points of Decay. */
  lemma DecayIdempotent(t: Type)
    requires WellFormed(t)
    ensures Decay(Decay(t)) == Decay(t)
  {
  }

  /**
   * Off arrays the two decays coincide, so `holds<any_decay<T>>` is `holds<T>`; they differ
   * exactly when the unqualified, unreferenced type is an array.
   */
  lemma AnyDecayAgreesOffArrays(t: Type)
    requires WellFormed(t)
    ensures AnyDecay(t).Array? <==> Decay(t) != AnyDecay(t)
    ensures !AnyDecay(t).Array? ==> Decay(AnyDecay(t)) == Decay(t)
  {
    RemoveCvBare(RemoveReference(t));
  }

  /** `detail::any_decay` is idempotent and never yields a reference. */
  lemma AnyDecayIdempotent(t: Type)
    requires WellFormed(t)
    ensures AnyDecay(AnyDecay(t)) == AnyDecay(t)
    ensures WellFormed(AnyDecay(t)) && !AnyDecay(t).Ref?
  {
    RemoveCvBare(RemoveReference(t));
  }

  /**
   * `holds<int&>`, `holds<const int&>` and `holds<const volatile int&>` ask the same
   * question as `holds<int>`: top-level qualifiers and a reference do not change the
   * decayed type of a non-array type.
   */
  lemma {:induction false} QualifiersIgnored(t: Type, c: bool, v: bool, r: bool)
    requires NonRefType(t) && !RemoveCv(t).Array?
    ensures Decay(Qualified(t, c, v, r)) == Decay(t)
    ensures AnyDecay(Qualified(t, c, v, r)) == AnyDecay(t)
  {
    var q := Qualified(t, c, v, r);
    assert RemoveCv(RemoveReference(q)) == RemoveCv(t);
    RemoveCvBare(t);
  }

  /** `t` with optional top-level `volatile`, `const` and a reference added. */
  function Qualified(t: Type, c: bool, v: bool, r: bool): Type {
    var q1 := if v then Volatile(t) else t;
    var q2 := if c then Const(q1) else q1;
    if r then Ref(q2) else q2
  }

  /** `t` with `const` added at the top, as `const T*` does to its pointee `T`. */
  function AddConst(t: Type): (r: Type)
    ensures NonRefType(t) ==> NonRefType(r) && r.Const? && RemoveCv(r) == RemoveCv(t)
  {
    if t.Const? then t else Const(t)
  }
}
