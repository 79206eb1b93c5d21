/**
 * The earlier draft of the value and object tags, `src/ma_obj.h`: the same
 * bit distribution as `src/ma_val.h` under other constant names and values,
 * the `OBJ_BIT` test, variant tests built on `check_vartype`, and the
 * in-place `set_type`, `set_val`, `set_valo` and `copy` on a value.
 *
 * Its constants conflict with those of `src/ma_val.h` (see module
 * HeaderConflicts), so it is a module of its own.
 */
module ObjTag {
  import opened TypeByte

  // ---------------------------------------------------------------- masks

  /** `vary(t, v)`: put variant `v` into bits 5-6 next to base kind `t`. */
  function Vary(t: Ubyte, v: Ubyte): (r: Ubyte)
    ensures Decode(r).base == Decode(t).base
    ensures t < 32 && v < 4 ==> Decode(r) == Fields(t as int, v as int, false)
  {
    VaryWeight(t, v);
    FieldsAsBits(t);
    FieldsAsBits(t | (v << 5));
    t | (v << 5)
  }

  /** Below the field limits, `t | (v << 5)` is `t + 32 * v`. */
  lemma VaryWeight(t: Ubyte, v: Ubyte)
    ensures t < 32 && v < 4 ==> (t | (v << 5)) as int == t as int + 32 * v as int
  {
  }

  /**
   * `with_variant`: the tag without its top bit. `vtype` is the same
   * expression, and the self-referential `type(v)` is read as it.
   */
  function WithVariant(x: Ubyte): (r: Ubyte)
    ensures Decode(r) == Fields(Decode(x).base, Decode(x).variant, false)
  {
    FieldsAsBits(x);
    FieldsAsBits(x & 0x7F);
    x & 0x7F
  }

  /** `without_variant`: the base kind alone. */
  function WithoutVariant(x: Ubyte): (r: Ubyte)
    ensures Decode(r) == Fields(Decode(x).base, 0, false)
  {
    FieldsAsBits(x);
    FieldsAsBits(x & 0x1F);
    x & 0x1F
  }

  /** `check_type(v, t)`: the base kind of `x` is `t`. */
  function CheckType(x: Ubyte, t: Ubyte): (b: bool)
    ensures b <==> t as int == Decode(x).base
  {
    WithoutVariant(x) == t
  }

  /** `check_vartype(v, t)`: base kind and variant of `x` are those of `t`, and `t` has no top bit. */
  function CheckVartype(x: Ubyte, t: Ubyte): (b: bool)
    ensures b <==> Decode(t) == Fields(Decode(x).base, Decode(x).variant, false)
  {
    DecodeInjective(WithVariant(x), t);
    WithVariant(x) == t
  }

  /** `OBJ_BIT`, `0b1 << 7`: the mark of a value holding an object. */
  const OBJ_BIT: Ubyte := 0x80

  /**
   * `is_obj`, read on the raw type byte (`is_ctb` is the same test). Through
   * `with_variant` the bit would always be masked away.
   */
  function IsObj(x: Ubyte): (b: bool)
    ensures b <==> Decode(x).collectable
    ensures b <==> x >= 0x80
  {
    x & OBJ_BIT != 0
  }

  // ---------------------------------------------------- standard value kinds

  const V_TYPE_NIL: Ubyte := 0
  const V_TYPE_BOOL: Ubyte := 1
  const V_TYPE_NUM: Ubyte := 2
  const V_TYPE_CFUNC: Ubyte := 3
  const V_TYPE_CDATA: Ubyte := 4

  function IsNum(x: Ubyte): (b: bool)
    ensures b <==> Decode(x).base == 2
  {
    CheckType(x, V_TYPE_NUM)
  }

  function IsNil(x: Ubyte): (b: bool)
    ensures b <==> Decode(x).base == 0
  {
    CheckType(x, V_TYPE_NIL)
  }

  function IsBool(x: Ubyte): (b: bool)
    ensures b <==> Decode(x).base == 1
  {
    CheckType(x, V_TYPE_BOOL)
  }

  function IsCfunc(x: Ubyte): (b: bool)
    ensures b <==> Decode(x).base == 3
  {
    CheckType(x, V_TYPE_CFUNC)
  }

  function IsCdata(x: Ubyte): (b: bool)
    ensures b <==> Decode(x).base == 4
  {
    CheckType(x, V_TYPE_CDATA)
  }

  /** Nil variants: a free hash-table slot, an absent key. */
  const V_TYPEV_FREE: Ubyte := Vary(V_TYPE_NIL, 1)
  const V_TYPEV_ABSKEY: Ubyte := Vary(V_TYPE_NIL, 2)

  /** `is_strict_nil`: base kind nil with variant 0, whatever the top bit. */
  function IsStrictNil(x: Ubyte): (b: bool)
    ensures b <==> Decode(x).base == 0 && Decode(x).variant == 0
  {
    CheckVartype(x, V_TYPE_NIL)
  }

  /** `is_free` (its `V_TYPEV_NILKEY` is read as `V_TYPEV_FREE`). */
  function IsFree(x: Ubyte): (b: bool)
    ensures b <==> Decode(x).base == 0 && Decode(x).variant == 1
  {
    CheckVartype(x, V_TYPEV_FREE)
  }

  function IsAbskey(x: Ubyte): (b: bool)
    ensures b <==> Decode(x).base == 0 && Decode(x).variant == 2
  {
    CheckVartype(x, V_TYPEV_ABSKEY)
  }

  /** Bool variants; the bare `BOOL` value carries `V_TYPE_BOOL` itself. */
  const V_TYPEV_TRUE: Ubyte := Vary(V_TYPE_BOOL, 1)
  const V_TYPEV_FALSE: Ubyte := Vary(V_TYPE_BOOL, 2)

  /** `is_false` on a value that is already a bool. */
  function IsFalse(x: Ubyte): (b: bool)
    requires IsBool(x)
    ensures b <==> Decode(x).variant == 2
  {
    CheckVartype(x, V_TYPEV_FALSE)
  }

  /** `is_true` on a value that is already a bool. */
  function IsTrue(x: Ubyte): (b: bool)
    requires IsBool(x)
    ensures b <==> Decode(x).variant == 1
  {
    CheckVartype(x, V_TYPEV_TRUE)
  }

  /** `as_bool`: the bool read as true or false. */
  function AsBool(x: Ubyte): (b: bool)
    requires IsBool(x)
    ensures b <==> WithVariant(x) == V_TYPEV_TRUE
    ensures b ==> !IsFalse(x)
  {
    IsTrue(x)
  }

  // ------------------------------------------------------------ object kinds

  /** `o_check_type(v, t)`: an object whose base kind is `t`. */
  function OCheckType(x: Ubyte, t: Ubyte): (b: bool)
    ensures b ==> IsObj(x)
    ensures b <==> Decode(x).collectable && Decode(x).base == t as int
  {
    IsObj(x) && CheckType(x, t)
  }

  /** `o_check_vartype(v, t)`: an object whose base kind and variant are those of `t`. */
  function OCheckVartype(x: Ubyte, t: Ubyte): (b: bool)
    ensures b ==> IsObj(x)
    ensures b <==> Decode(x).collectable && Decode(t) == Fields(Decode(x).base, Decode(x).variant, false)
  {
    IsObj(x) && CheckVartype(x, t)
  }

  const O_TYPE_CLASS: Ubyte := 5
  const O_TYPE_STR: Ubyte := 6
  const O_TYPE_RANGE: Ubyte := 7
  const O_TYPE_ARRAY: Ubyte := 8
  const O_TYPE_MAP: Ubyte := 9
  const O_TYPE_FUN: Ubyte := 10
  const O_TYPE_CO: Ubyte := 12
  const O_TYPE_RBQ: Ubyte := 13
  const O_TYPE_REGEX: Ubyte := 14
  const O_TYPE_SOCKET: Ubyte := 15
  const O_TYPE_PIPE: Ubyte := 16
  const O_TYPE_FILE: Ubyte := 17
  const O_TYPE_DIR: Ubyte := 18
  const O_TYPE_PROC: Ubyte := 19
  const O_TYPE_SYS: Ubyte := 20
  const O_TYPE_DATE: Ubyte := 21
  const O_TYPE_TERM: Ubyte := 22
  const O_DEADKEY: Ubyte := 31

  /** The object base kinds, in order, and the standard value kinds. */
  const OBJECT_KINDS: seq<Ubyte> :=
    [O_TYPE_CLASS, O_TYPE_STR, O_TYPE_RANGE, O_TYPE_ARRAY, O_TYPE_MAP, O_TYPE_FUN,
     O_TYPE_CO, O_TYPE_RBQ, O_TYPE_REGEX, O_TYPE_SOCKET, O_TYPE_PIPE, O_TYPE_FILE,
     O_TYPE_DIR, O_TYPE_PROC, O_TYPE_SYS, O_TYPE_DATE, O_TYPE_TERM, O_DEADKEY]
  const VALUE_KINDS: seq<Ubyte> := [V_TYPE_NIL, V_TYPE_BOOL, V_TYPE_NUM, V_TYPE_CFUNC, V_TYPE_CDATA]

  function IsClass(x: Ubyte): (b: bool)
    ensures b <==> Decode(x).collectable && Decode(x).base == 5
  {
    OCheckType(x, O_TYPE_CLASS)
  }

  function IsStr(x: Ubyte): (b: bool)
    ensures b <==> Decode(x).collectable && Decode(x).base == 6
  {
    OCheckType(x, O_TYPE_STR)
  }

  function IsRange(x: Ubyte): (b: bool)
    ensures b <==> Decode(x).collectable && Decode(x).base == 7
  {
    OCheckType(x, O_TYPE_RANGE)
  }

  function IsArray(x: Ubyte): (b: bool)
    ensures b <==> Decode(x).collectable && Decode(x).base == 8
  {
    OCheckType(x, O_TYPE_ARRAY)
  }

  function IsMap(x: Ubyte): (b: bool)
    ensures b <==> Decode(x).collectable && Decode(x).base == 9
  {
    OCheckType(x, O_TYPE_MAP)
  }

  function IsFun(x: Ubyte): (b: bool)
    ensures b <==> Decode(x).collectable && Decode(x).base == 10
  {
    OCheckType(x, O_TYPE_FUN)
  }

  function IsRbq(x: Ubyte): (b: bool)
    ensures b <==> Decode(x).collectable && Decode(x).base == 13
  {
    OCheckType(x, O_TYPE_RBQ)
  }

  function IsRegex(x: Ubyte): (b: bool)
    ensures b <==> Decode(x).collectable && Decode(x).base == 14
  {
    OCheckType(x, O_TYPE_REGEX)
  }

  function IsSocket(x: Ubyte): (b: bool)
    ensures b <==> Decode(x).collectable && Decode(x).base == 15
  {
    OCheckType(x, O_TYPE_SOCKET)
  }

  function IsPipe(x: Ubyte): (b: bool)
    ensures b <==> Decode(x).collectable && Decode(x).base == 16
  {
    OCheckType(x, O_TYPE_PIPE)
  }

  function IsFile(x: Ubyte): (b: bool)
    ensures b <==> Decode(x).collectable && Decode(x).base == 17
  {
    OCheckType(x, O_TYPE_FILE)
  }

  function IsDir(x: Ubyte): (b: bool)
    ensures b <==> Decode(x).collectable && Decode(x).base == 18
  {
    OCheckType(x, O_TYPE_DIR)
  }

  function IsProc(x: Ubyte): (b: bool)
    ensures b <==> Decode(x).collectable && Decode(x).base == 19
  {
    OCheckType(x, O_TYPE_PROC)
  }

  function IsDate(x: Ubyte): (b: bool)
    ensures b <==> Decode(x).collectable && Decode(x).base == 21
  {
    OCheckType(x, O_TYPE_DATE)
  }

  function IsTerm(x: Ubyte): (b: bool)
    ensures b <==> Decode(x).collectable && Decode(x).base == 22
  {
    OCheckType(x, O_TYPE_TERM)
  }

  /** Immutable and mutable bags, variants of a map. */
  const O_TYPEV_BAG: Ubyte := Vary(O_TYPE_MAP, 1)
  const O_TYPEV_MBAG: Ubyte := Vary(O_TYPE_MAP, 2)

  function IsBag(x: Ubyte): (b: bool)
    ensures b <==> Decode(x).collectable && Decode(x).base == 9 && Decode(x).variant == 1
  {
    OCheckVartype(x, O_TYPEV_BAG)
  }

  function IsMbag(x: Ubyte): (b: bool)
    ensures b <==> Decode(x).collectable && Decode(x).base == 9 && Decode(x).variant == 2
  {
    OCheckVartype(x, O_TYPEV_MBAG)
  }

  /** A comma-separated list, immutable and mutable sets: variants of an array. */
  const O_TYPEV_LIST: Ubyte := Vary(O_TYPE_ARRAY, 1)
  const O_TYPEV_SET: Ubyte := Vary(O_TYPE_ARRAY, 2)
  const O_TYPEV_MSET: Ubyte := Vary(O_TYPE_ARRAY, 3)

  /** `is_list` (its undefined `O_TYPE_LIST` is read as the `O_TYPEV_LIST` variant). */
  function IsList(x: Ubyte): (b: bool)
    ensures b <==> Decode(x).collectable && Decode(x).base == 8 && Decode(x).variant == 1
  {
    OCheckVartype(x, O_TYPEV_LIST)
  }

  function IsSet(x: Ubyte): (b: bool)
    ensures b <==> Decode(x).collectable && Decode(x).base == 8 && Decode(x).variant == 2
  {
    OCheckVartype(x, O_TYPEV_SET)
  }

  function IsMset(x: Ubyte): (b: bool)
    ensures b <==> Decode(x).collectable && Decode(x).base == 8 && Decode(x).variant == 3
  {
    OCheckVartype(x, O_TYPEV_MSET)
  }

  /** A closure, the variant of a function that carries upvalues. */
  const O_TYPEV_CLOSURE: Ubyte := Vary(O_TYPE_FUN, 1)

  function IsClosure(x: Ubyte): (b: bool)
    ensures b <==> Decode(x).collectable && Decode(x).base == 10 && Decode(x).variant == 1
  {
    OCheckVartype(x, O_TYPEV_CLOSURE)
  }

  /** A thread-safe channel and the scheduler queue. */
  const O_TYPEV_CHAN: Ubyte := Vary(O_TYPE_RBQ, 1)
  const O_TYPEV_SCHEDQ: Ubyte := Vary(O_TYPE_RBQ, 2)

  /**
   * `is_chan` as written: `o_check_type` compares the 5-bit base kind with
   * `O_TYPEV_CHAN`, which carries variant bits, so no tag passes.
   */
  function IsChanAsWritten(x: Ubyte): (b: bool)
    ensures !b
  {
    OCheckType(x, O_TYPEV_CHAN)
  }

  /** `is_schedq` as written; no tag passes, for the same reason. */
  function IsSchedqAsWritten(x: Ubyte): (b: bool)
    ensures !b
  {
    OCheckType(x, O_TYPEV_SCHEDQ)
  }

  /** `is_chan` as intended, with `o_check_vartype` like the other variant tests. */
  function IsChan(x: Ubyte): (b: bool)
    ensures b <==> Decode(x).collectable && Decode(x).base == 13 && Decode(x).variant == 1
  {
    OCheckVartype(x, O_TYPEV_CHAN)
  }

  /** `is_schedq` as intended. */
  function IsSchedq(x: Ubyte): (b: bool)
    ensures b <==> Decode(x).collectable && Decode(x).base == 13 && Decode(x).variant == 2
  {
    OCheckVartype(x, O_TYPEV_SCHEDQ)
  }

  // ------------------------------------------------------ values, in place

  /** The object `Header`: its `type` byte and its GC `mark`. */
  class Header {
    var tag: Ubyte
    var mark: Ubyte
  }

  /** The `val` union; its first arm, the object pointer, may be null. */
  datatype Payload = Obj(obj: Header?) | Num(n: int) | CFunc(f: nat) | CData(cdata: nat)

  /** A `Value`: the type byte and the payload it selects. */
  class Value {
    var tag: Ubyte
    var val: Payload

    /** A value literal `(Value){ t, { 0 } }`, as `FREE`, `ABSKEY`, `BOOL`, `TRUE`, `FALSE` are built. */
    constructor Literal(t: Ubyte)
      ensures tag == t && val == Obj(null)
    {
      tag := t;
      val := Obj(null);
    }

    /** `set_type`: overwrite the type byte; the payload stays. */
    method SetType(t: Ubyte)
      modifies this`tag
      ensures tag == t
    {
      tag := t;
    }

    /** `set_val(v, val, t)`: overwrite type byte and payload. */
    method SetVal(p: Payload, t: Ubyte)
      modifies this
      ensures tag == t && val == p
    {
      SetType(t);
      val := p;
    }

    /**
     * `set_valo`: store a reference to `o` under the object's own type byte,
     * so the value is an object exactly when that byte says so.
     */
    method SetValo(o: Header)
      modifies this
      ensures tag == o.tag && val == Obj(o)
    {
      SetVal(Obj(o), o.tag);
    }
  }

  /**
   * `copy(v1, v2)`: `v1` takes the type byte and payload of `v2`. A number,
   * C function or C data pointer is copied by value; an object is shared,
   * never duplicated: both values then refer to the same header, since the
   * payload `Obj(o)` holds the reference itself.
   */
  method Copy(v1: Value, v2: Value)
    modifies v1
    ensures v1.tag == old(v2.tag) && v1.val == old(v2.val)
    ensures v1 != v2 ==> v2.tag == old(v2.tag) && v2.val == old(v2.val)
  {
    v1.SetVal(v2.val, v2.tag);
  }

  // ---------------------------------------------------------------- lemmas

  /** Kind and variant put in by `vary` come back out of the masks. */
  lemma VaryRoundTrip(t: Ubyte, v: Ubyte)
    requires t < 32 && v < 4
    ensures WithoutVariant(Vary(t, v)) == t
    ensures WithVariant(Vary(t, v)) == Vary(t, v)
    ensures !IsObj(Vary(t, v))
  {
  }

  /** FREE and ABSKEY are nils, distinct from each other and from plain nil. */
  lemma NilVariants()
    ensures IsNil(V_TYPEV_FREE) && IsNil(V_TYPEV_ABSKEY)
    ensures V_TYPEV_FREE != V_TYPEV_ABSKEY
    ensures V_TYPEV_FREE != V_TYPE_NIL && V_TYPEV_ABSKEY != V_TYPE_NIL
    ensures IsStrictNil(V_TYPE_NIL) && !IsStrictNil(V_TYPEV_FREE) && !IsStrictNil(V_TYPEV_ABSKEY)
    ensures IsFree(V_TYPEV_FREE) && IsAbskey(V_TYPEV_ABSKEY)
  {
  }

  /** TRUE, FALSE and the bare BOOL tag are three distinct bools; BOOL is neither true nor false. */
  lemma BoolVariants()
    ensures IsBool(V_TYPEV_TRUE) && IsBool(V_TYPEV_FALSE) && IsBool(V_TYPE_BOOL)
    ensures V_TYPEV_TRUE != V_TYPEV_FALSE && V_TYPEV_TRUE != V_TYPE_BOOL && V_TYPEV_FALSE != V_TYPE_BOOL
    ensures AsBool(V_TYPEV_TRUE) && IsFalse(V_TYPEV_FALSE) && !AsBool(V_TYPEV_FALSE)
    ensures !IsTrue(V_TYPE_BOOL) && !IsFalse(V_TYPE_BOOL)
  {
  }

  /** The object kinds, O_DEADKEY included, are distinct, fit in 5 bits and are no value kind. */
  lemma ObjectKindsFit()
    ensures forall i :: 0 <= i < |OBJECT_KINDS| ==> V_TYPE_CDATA < OBJECT_KINDS[i] <= 31
    ensures forall i, j :: 0 <= i < j < |OBJECT_KINDS| ==> OBJECT_KINDS[i] != OBJECT_KINDS[j]
    ensures forall i, j :: 0 <= i < |OBJECT_KINDS| && 0 <= j < |VALUE_KINDS| ==> OBJECT_KINDS[i] != VALUE_KINDS[j]
  {
  }

  /** The array and map variants stay within the 3 variants and are distinct. */
  lemma ArrayAndMapVariants()
    ensures 1 <= O_TYPEV_LIST >> 5 <= 3 && 1 <= O_TYPEV_SET >> 5 <= 3 && 1 <= O_TYPEV_MSET >> 5 <= 3
    ensures O_TYPEV_LIST != O_TYPEV_SET && O_TYPEV_LIST != O_TYPEV_MSET && O_TYPEV_SET != O_TYPEV_MSET
    ensures CheckType(O_TYPEV_LIST, O_TYPE_ARRAY) && CheckType(O_TYPEV_SET, O_TYPE_ARRAY) && CheckType(O_TYPEV_MSET, O_TYPE_ARRAY)
    ensures O_TYPEV_BAG != O_TYPEV_MBAG
    ensures CheckType(O_TYPEV_BAG, O_TYPE_MAP) && CheckType(O_TYPEV_MBAG, O_TYPE_MAP)
  {
  }

  /** The variant tests of one base kind exclude each other. */
  lemma VariantTestsExclusive(x: Ubyte)
    ensures !(IsList(x) && IsSet(x)) && !(IsList(x) && IsMset(x)) && !(IsSet(x) && IsMset(x))
    ensures !(IsBag(x) && IsMbag(x))
    ensures IsList(x) || IsSet(x) || IsMset(x) ==> IsArray(x)
    ensures IsBag(x) || IsMbag(x) ==> IsMap(x)
  {
  }

  /** The tag of a channel object shows the `is_chan` discrepancy. */
  lemma ChanCounterexample()
    ensures IsChan(O_TYPEV_CHAN | OBJ_BIT) && !IsChanAsWritten(O_TYPEV_CHAN | OBJ_BIT)
    ensures IsSchedq(O_TYPEV_SCHEDQ | OBJ_BIT) && !IsSchedqAsWritten(O_TYPEV_SCHEDQ | OBJ_BIT)
  {
  }
}
