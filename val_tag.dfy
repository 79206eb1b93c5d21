/**
 * The type-tag macros of `src/ma_val.h`: building a tag from a base kind
 * and a variant, masking the variant and collectable bits, the kind and
 * variant constants, and the `is_*` tests built from them.
 *
 * The macros read only the `type` byte of a value, so each is modelled as
 * a function of that byte. Every contract is stated in the fields of
 * `TypeByte.Decode`, the documented bit distribution.
 */
module ValTag {
  import opened TypeByte

  // ---------------------------------------------------------------- masks

  /** `vary(t, v)`: put variant `v` into bits 5-6 next to base kind `t`. */
  function Vary(t: Ubyte, v: Ubyte): (r: Ubyte)
    ensures Decode(r).base == Decode(t).base
    ensures t < 32 && v < 4 ==> Decode(r) == Fields(t as int, v as int, false)
  {
    VaryWeight(t, v);
    FieldsAsBits(t);
    FieldsAsBits(t | (v << 5));
    t | (v << 5)
  }

  /** Below the field limits, `t | (v << 5)` is `t + 32 * v`. */
  lemma VaryWeight(t: Ubyte, v: Ubyte)
    ensures t < 32 && v < 4 ==> (t | (v << 5)) as int == t as int + 32 * v as int
  {
  }

  /** `with_variant`: the tag without its collectable bit. */
  function WithVariant(x: Ubyte): (r: Ubyte)
    ensures Decode(r) == Fields(Decode(x).base, Decode(x).variant, false)
  {
    FieldsAsBits(x);
    FieldsAsBits(x & 0x7F);
    x & 0x7F
  }

  /** `without_variant`: the base kind alone. */
  function WithoutVariant(x: Ubyte): (r: Ubyte)
    ensures Decode(r) == Fields(Decode(x).base, 0, false)
  {
    FieldsAsBits(x);
    FieldsAsBits(x & 0x1F);
    x & 0x1F
  }

  /** `check_type(v, t)`: the base kind of `x` is `t`. */
  function CheckType(x: Ubyte, t: Ubyte): (b: bool)
    ensures b <==> t as int == Decode(x).base
  {
    WithoutVariant(x) == t
  }

  /** `check_vartype(v, t)`: base kind and variant of `x` are those of `t`, and `t` has no collectable bit. */
  function CheckVartype(x: Ubyte, t: Ubyte): (b: bool)
    ensures b <==> Decode(t) == Fields(Decode(x).base, Decode(x).variant, false)
  {
    DecodeInjective(WithVariant(x), t);
    WithVariant(x) == t
  }

  /** `check_rtype(v, t)`: all three fields of `x` are those of `t`. */
  function CheckRtype(x: Ubyte, t: Ubyte): (b: bool)
    ensures b <==> Decode(x) == Decode(t)
  {
    DecodeInjective(x, t);
    x == t
  }

  /** `IS_COLLECTABLE_BIT`, `0b1 << 7`. */
  const IS_COLLECTABLE_BIT: Ubyte := 0x80

  /** `ctb`: the tag with its collectable bit set. */
  function Ctb(x: Ubyte): (r: Ubyte)
    ensures Decode(r) == Fields(Decode(x).base, Decode(x).variant, true)
  {
    FieldsAsBits(x);
    FieldsAsBits(x | IS_COLLECTABLE_BIT);
    x | IS_COLLECTABLE_BIT
  }

  /** `is_ctb`: the tag's collectable bit is set. */
  function IsCtb(x: Ubyte): (b: bool)
    ensures b <==> Decode(x).collectable
  {
    x & IS_COLLECTABLE_BIT != 0
  }

  // ------------------------------------------------- non-collectable kinds

  const V_NIL: Ubyte := 0
  const V_BOOL: Ubyte := 1
  const V_NUM: Ubyte := 2
  const V_CFUNC: Ubyte := 3
  const V_CDATA: Ubyte := 4

  function IsNum(x: Ubyte): (b: bool)
    ensures b <==> Decode(x).base == 2
  {
    CheckType(x, V_NUM)
  }

  function IsNil(x: Ubyte): (b: bool)
    ensures b <==> Decode(x).base == 0
  {
    CheckType(x, V_NIL)
  }

  function IsBool(x: Ubyte): (b: bool)
    ensures b <==> Decode(x).base == 1
  {
    CheckType(x, V_BOOL)
  }

  function IsCfunc(x: Ubyte): (b: bool)
    ensures b <==> Decode(x).base == 3
  {
    CheckType(x, V_CFUNC)
  }

  function IsCdata(x: Ubyte): (b: bool)
    ensures b <==> Decode(x).base == 4
  {
    CheckType(x, V_CDATA)
  }

  /** The nil variants: plain nil, a free map slot, an absent key. */
  const V_VNIL: Ubyte := Vary(V_NIL, 0)
  const V_VFREE: Ubyte := Vary(V_NIL, 1)
  const V_VABSKEY: Ubyte := Vary(V_NIL, 2)

  /** `iss_nil`: strictly the plain nil tag. */
  function IssNil(x: Ubyte): (b: bool)
    ensures b <==> Decode(x) == Fields(0, 0, false)
  {
    CheckRtype(x, V_VNIL)
  }

  /** `is_free` (its `V_VNILKEY` is read as `V_VFREE`). */
  function IsFree(x: Ubyte): (b: bool)
    ensures b <==> Decode(x) == Fields(0, 1, false)
  {
    CheckRtype(x, V_VFREE)
  }

  function IsAbskey(x: Ubyte): (b: bool)
    ensures b <==> Decode(x) == Fields(0, 2, false)
  {
    CheckRtype(x, V_VABSKEY)
  }

  /** The bool variants. */
  const V_VFALSE: Ubyte := Vary(V_BOOL, 0)
  const V_VTRUE: Ubyte := Vary(V_BOOL, 1)

  /** `is_false` on a value that is already a bool. */
  function IsFalse(x: Ubyte): (b: bool)
    requires IsBool(x)
    ensures b <==> Decode(x).variant == 0 && !Decode(x).collectable
  {
    CheckRtype(x, V_VFALSE)
  }

  /** `is_true` on a value that is already a bool. */
  function IsTrue(x: Ubyte): (b: bool)
    requires IsBool(x)
    ensures b <==> Decode(x).variant == 1 && !Decode(x).collectable
  {
    CheckRtype(x, V_VTRUE)
  }

  /** `as_bool`: asserts a bool, then reads it as true or false. */
  function AsBool(x: Ubyte): (b: bool)
    requires IsBool(x)
    ensures b <==> x == V_VTRUE
    ensures b ==> !IsFalse(x)
  {
    IsTrue(x)
  }

  // ------------------------------------------------------ collectable kinds

  /** `o_check_type(v, t)`: a collectable value whose base kind is `t`. */
  function OCheckType(x: Ubyte, t: Ubyte): (b: bool)
    ensures b <==> Decode(x).collectable && Decode(x).base == t as int
  {
    IsCtb(x) && CheckType(x, t)
  }

  /**
   * `o_check_rtype(v, t)`: a collectable value whose whole tag is `t`
   * (its `is_obj`, undefined in this header, is read as `is_ctb`).
   */
  function OCheckRtype(x: Ubyte, t: Ubyte): (b: bool)
    ensures b <==> Decode(t).collectable && Decode(x) == Decode(t)
  {
    IsCtb(x) && CheckRtype(x, t)
  }

  /**
   * `co_type(o, t)`: the collectable bit of `o` is set and its whole tag is
   * `t`; so it can only hold for a `t` that has the collectable bit.
   */
  function CoType(x: Ubyte, t: Ubyte): (b: bool)
    ensures b ==> Decode(t).collectable
    ensures b <==> Decode(x).collectable && x == t
  {
    IsCtb(x) && x == t
  }

  const O_CLASS: Ubyte := 5
  const O_INSTANCE: Ubyte := 6
  const O_STR: Ubyte := 7
  const O_U8STR: Ubyte := 8
  const O_RANGE: Ubyte := 9
  const O_ARRAY: Ubyte := 10
  const O_MAP: Ubyte := 11
  const O_RBQ: Ubyte := 13
  const O_FUN: Ubyte := 14
  const O_UPVAL: Ubyte := 15
  const O_STATE: Ubyte := 16
  const O_MA: Ubyte := 17
  const O_WORK: Ubyte := 18
  const O_NS: Ubyte := 19
  const O_TERM: Ubyte := 20

  /** The non-collectable base kinds and the object base kinds, in order. */
  const VALUE_KINDS: seq<Ubyte> := [V_NIL, V_BOOL, V_NUM, V_CFUNC, V_CDATA]
  const OBJECT_KINDS: seq<Ubyte> :=
    [O_CLASS, O_INSTANCE, O_STR, O_U8STR, O_RANGE, O_ARRAY, O_MAP, O_RBQ,
     O_FUN, O_UPVAL, O_STATE, O_MA, O_WORK, O_NS, O_TERM]

  /** A thread-safe channel and the scheduler queue. */
  const O_VCHAN: Ubyte := Vary(O_RBQ, 1)
  const O_VSCHEDQ: Ubyte := Vary(O_RBQ, 2)

  /**
   * `is_chan` as written: `o_check_type` compares the 5-bit base kind with
   * `O_VCHAN`, which carries variant bits, so no tag passes.
   */
  function IsChanAsWritten(x: Ubyte): (b: bool)
    ensures !b
  {
    OCheckType(x, O_VCHAN)
  }

  /** `is_schedq` as written; no tag passes, for the same reason. */
  function IsSchedqAsWritten(x: Ubyte): (b: bool)
    ensures !b
  {
    OCheckType(x, O_VSCHEDQ)
  }

  /** `is_chan` as intended: the collectable channel tag. */
  function IsChan(x: Ubyte): (b: bool)
    ensures b <==> Decode(x) == Fields(13, 1, true)
  {
    OCheckRtype(x, Ctb(O_VCHAN))
  }

  /** `is_schedq` as intended: the collectable scheduler-queue tag. */
  function IsSchedq(x: Ubyte): (b: bool)
    ensures b <==> Decode(x) == Fields(13, 2, true)
  {
    OCheckRtype(x, Ctb(O_VSCHEDQ))
  }

  /** The string variants: ASCII long/short, UTF-8 short/long. */
  const O_VLNGSTR: Ubyte := Vary(O_STR, 0)
  const O_VSHTSTR: Ubyte := Vary(O_STR, 1)
  const O_VUSHTSTR: Ubyte := Vary(O_U8STR, 0)
  const O_VULNGSTR: Ubyte := Vary(O_U8STR, 1)

  function IsAstr(x: Ubyte): (b: bool)
    ensures b <==> Decode(x).collectable && Decode(x).base == 7
  {
    OCheckType(x, O_STR)
  }

  function IsUstr(x: Ubyte): (b: bool)
    ensures b <==> Decode(x).collectable && Decode(x).base == 8
  {
    OCheckType(x, O_U8STR)
  }

  function IsStr(x: Ubyte): (b: bool)
    ensures b <==> Decode(x).collectable && (Decode(x).base == 7 || Decode(x).base == 8)
  {
    IsAstr(x) || IsUstr(x)
  }

  function IsShtstr(x: Ubyte): (b: bool)
    ensures b <==> Decode(x) == Fields(7, 1, true) || Decode(x) == Fields(8, 0, true)
  {
    OCheckRtype(x, Ctb(O_VSHTSTR)) || OCheckRtype(x, Ctb(O_VUSHTSTR))
  }

  function IsLngstr(x: Ubyte): (b: bool)
    ensures b <==> Decode(x) == Fields(7, 0, true) || Decode(x) == Fields(8, 1, true)
  {
    OCheckRtype(x, Ctb(O_VLNGSTR)) || OCheckRtype(x, Ctb(O_VULNGSTR))
  }

  function IsRange(x: Ubyte): (b: bool)
    ensures b <==> Decode(x) == Fields(9, 0, true)
  {
    OCheckRtype(x, Ctb(O_RANGE))
  }

  function IsMap(x: Ubyte): (b: bool)
    ensures b <==> Decode(x) == Fields(11, 0, true)
  {
    OCheckRtype(x, Ctb(O_MAP))
  }

  /** The list variant of an array. */
  const O_VLIST: Ubyte := Vary(O_ARRAY, 1)

  /** `iss_array`: strictly a plain array. */
  function IssArray(x: Ubyte): (b: bool)
    ensures b <==> Decode(x) == Fields(10, 0, true)
  {
    OCheckRtype(x, Ctb(O_ARRAY))
  }

  /** `is_array`: an array of any variant. */
  function IsArray(x: Ubyte): (b: bool)
    ensures b <==> Decode(x).collectable && Decode(x).base == 10
  {
    OCheckType(x, O_ARRAY)
  }

  function IsList(x: Ubyte): (b: bool)
    ensures b <==> Decode(x) == Fields(10, 1, true)
  {
    OCheckRtype(x, Ctb(O_VLIST))
  }

  /** The role and C-class variants of a class. */
  const O_VROLE: Ubyte := Vary(O_CLASS, 1)
  const O_VCCLASS: Ubyte := Vary(O_CLASS, 2)

  function IssClass(x: Ubyte): (b: bool)
    ensures b <==> Decode(x) == Fields(5, 0, true)
  {
    OCheckRtype(x, Ctb(O_CLASS))
  }

  function IsClass(x: Ubyte): (b: bool)
    ensures b <==> Decode(x).collectable && Decode(x).base == 5
  {
    OCheckType(x, O_CLASS)
  }

  function IsRole(x: Ubyte): (b: bool)
    ensures b <==> Decode(x) == Fields(5, 1, true)
  {
    OCheckRtype(x, Ctb(O_VROLE))
  }

  function IsCclass(x: Ubyte): (b: bool)
    ensures b <==> Decode(x) == Fields(5, 2, true)
  {
    OCheckRtype(x, Ctb(O_VCCLASS))
  }

  function IsInstance(x: Ubyte): (b: bool)
    ensures b <==> Decode(x) == Fields(6, 0, true)
  {
    OCheckRtype(x, Ctb(O_INSTANCE))
  }

  function IsNs(x: Ubyte): (b: bool)
    ensures b <==> Decode(x) == Fields(19, 0, true)
  {
    OCheckRtype(x, Ctb(O_NS))
  }

  function IsFun(x: Ubyte): (b: bool)
    ensures b <==> Decode(x) == Fields(14, 0, true)
  {
    OCheckRtype(x, Ctb(O_FUN))
  }

  /** The closure variant of a function. */
  const O_VCLOSURE: Ubyte := Vary(O_FUN, 1)

  function IsClosure(x: Ubyte): (b: bool)
    ensures b <==> Decode(x) == Fields(14, 1, true)
  {
    OCheckRtype(x, Ctb(O_VCLOSURE))
  }

  /** The coroutine variant of a state. */
  const O_VCO: Ubyte := Vary(O_STATE, 1)

  function IssState(x: Ubyte): (b: bool)
    ensures b <==> Decode(x) == Fields(16, 0, true)
  {
    OCheckRtype(x, Ctb(O_STATE))
  }

  function IsState(x: Ubyte): (b: bool)
    ensures b <==> Decode(x).collectable && Decode(x).base == 16
  {
    OCheckType(x, O_STATE)
  }

  function IsCo(x: Ubyte): (b: bool)
    ensures b <==> Decode(x) == Fields(16, 1, true)
  {
    OCheckRtype(x, Ctb(O_VCO))
  }

  function IsWork(x: Ubyte): (b: bool)
    ensures b <==> Decode(x) == Fields(18, 0, true)
  {
    OCheckRtype(x, Ctb(O_WORK))
  }

  function IsMa(x: Ubyte): (b: bool)
    ensures b <==> Decode(x) == Fields(17, 0, true)
  {
    OCheckRtype(x, Ctb(O_MA))
  }

  // ------------------------------------------------------ values, in place

  /** An object header: its `type` byte and its GC `mark`. */
  class Object {
    var tag: Ubyte
    var mark: Ubyte
  }

  /** The `val` union of a value; the number payload is an opaque token. */
  datatype Payload = Num(n: int) | CFunc(f: nat) | CData(p: nat) | Obj(obj: Object)

  /** A `Value`: the type byte and the payload it selects. */
  class Value {
    var tag: Ubyte
    var val: Payload

    /** A value literal `(Value){ t, { 0 } }`, as `FREE`, `ABSKEY`, `FALSE`, `TRUE` are built. */
    constructor Literal(t: Ubyte)
      ensures tag == t && val == Num(0)
    {
      tag := t;
      val := Num(0);
    }

    /** `set_type`: overwrite the type byte; the payload stays. */
    method SetType(t: Ubyte)
      modifies this`tag
      ensures tag == t
    {
      tag := t;
    }

    /**
     * `set_cval`: store a reference to `o`, tagged with the collectable
     * form of the object's type.
     */
    method SetCval(o: Object)
      modifies this
      ensures tag == Ctb(o.tag) && val == Obj(o)
      ensures IsCtb(tag) && WithVariant(tag) == WithVariant(o.tag)
    {
      SetType(Ctb(o.tag));
      val := Obj(o);
    }
  }

  // ---------------------------------------------------------------- lemmas

  /** Kind and variant put in by `vary` come back out of the masks. */
  lemma VaryRoundTrip(t: Ubyte, v: Ubyte)
    requires t < 32 && v < 4
    ensures WithoutVariant(Vary(t, v)) == t
    ensures WithVariant(Vary(t, v)) == Vary(t, v)
    ensures !IsCtb(Vary(t, v))
  {
  }

  /** Every tag is rebuilt from its base kind, its variant and its collectable bit. */
  lemma VaryRebuilds(x: Ubyte)
    ensures Vary(WithoutVariant(x), WithVariant(x) >> 5) == WithVariant(x)
    ensures x == if IsCtb(x) then Ctb(WithVariant(x)) else WithVariant(x)
  {
  }

  /** Setting the collectable bit leaves kind and variant alone. */
  lemma CtbKeepsKindAndVariant(x: Ubyte)
    ensures WithoutVariant(Ctb(x)) == WithoutVariant(x)
    ensures WithVariant(Ctb(x)) == WithVariant(x)
    ensures IsCtb(Ctb(x))
  {
  }

  /** No variant of a non-collectable base kind has the collectable bit. */
  lemma ValueKindsNotCollectable(t: Ubyte, v: Ubyte)
    requires t <= V_CDATA && v < 4
    ensures !IsCtb(Vary(t, v))
    ensures CheckType(Vary(t, v), t)
  {
  }

  /** The nil variants are distinct tags, each of base kind nil. */
  lemma NilVariants()
    ensures V_VNIL != V_VFREE && V_VNIL != V_VABSKEY && V_VFREE != V_VABSKEY
    ensures IsNil(V_VNIL) && IsNil(V_VFREE) && IsNil(V_VABSKEY)
    ensures IssNil(V_VNIL) && IsFree(V_VFREE) && IsAbskey(V_VABSKEY)
  {
  }

  /** The bool variants are distinct tags of base kind bool, and read as false and true. */
  lemma BoolVariants()
    ensures V_VFALSE != V_VTRUE
    ensures IsBool(V_VFALSE) && IsBool(V_VTRUE)
    ensures !AsBool(V_VFALSE) && AsBool(V_VTRUE)
  {
  }

  /** A bool tag is never both true and false. */
  lemma TrueFalseExclusive(x: Ubyte)
    requires IsBool(x)
    ensures !(IsTrue(x) && IsFalse(x))
  {
  }

  /** The object kinds are distinct, fit in bits 0-4, and none is a value kind. */
  lemma ObjectKindsFit()
    ensures forall i :: 0 <= i < |OBJECT_KINDS| ==> V_CDATA < OBJECT_KINDS[i] < 32
    ensures forall i, j :: 0 <= i < j < |OBJECT_KINDS| ==> OBJECT_KINDS[i] != OBJECT_KINDS[j]
    ensures forall i, j :: 0 <= i < |OBJECT_KINDS| && 0 <= j < |VALUE_KINDS| ==> OBJECT_KINDS[i] != VALUE_KINDS[j]
  {
  }

  /** Matching the whole byte implies matching it with fewer bits. */
  lemma CheckRtypeRefines(x: Ubyte, t: Ubyte)
    requires CheckRtype(x, t)
    ensures CheckVartype(x, t & 0x7F)
    ensures CheckType(x, t & 0x1F)
  {
  }

  /** The four string variants are distinct; short and long exclude each other. */
  lemma StringVariants(x: Ubyte)
    ensures O_VLNGSTR != O_VSHTSTR && O_VLNGSTR != O_VUSHTSTR && O_VLNGSTR != O_VULNGSTR
    ensures O_VSHTSTR != O_VUSHTSTR && O_VSHTSTR != O_VULNGSTR && O_VUSHTSTR != O_VULNGSTR
    ensures !(IsShtstr(x) && IsLngstr(x))
    ensures IsShtstr(x) || IsLngstr(x) ==> IsStr(x)
    ensures IsStr(x) && Decode(x).variant < 2 ==> IsShtstr(x) || IsLngstr(x)
  {
  }

  /** The tag of a channel shows the `is_chan` discrepancy. */
  lemma ChanCounterexample()
    ensures IsChan(Ctb(O_VCHAN)) && !IsChanAsWritten(Ctb(O_VCHAN))
    ensures IsSchedq(Ctb(O_VSCHEDQ)) && !IsSchedqAsWritten(Ctb(O_VSCHEDQ))
  {
  }

  /** `co_type` with a tag constant that lacks the collectable bit never holds. */
  lemma CoTypeNeedsCollectableConstant(x: Ubyte, t: Ubyte)
    requires t < 0x80
    ensures !CoType(x, t)
  {
  }
}
