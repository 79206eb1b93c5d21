/**
 * Where the two drafts of the type tags, `src/ma_val.h` and `src/ma_obj.h`,
 * agree and where they conflict.
 */
module HeaderConflicts {
  import opened TypeByte
  import ValTag
  import ObjTag

  /** Both drafts cut the byte the same way. */
  lemma SameLayout(x: Ubyte)
    ensures ValTag.WithVariant(x) == ObjTag.WithVariant(x)
    ensures ValTag.WithoutVariant(x) == ObjTag.WithoutVariant(x)
    ensures ValTag.IsCtb(x) == ObjTag.IsObj(x)
    ensures forall v: Ubyte :: ValTag.Vary(x, v) == ObjTag.Vary(x, v)
  {
  }

  /** The nil variants and the value kinds agree. */
  lemma NilConstantsAgree()
    ensures ValTag.V_VFREE == ObjTag.V_TYPEV_FREE && ValTag.V_VABSKEY == ObjTag.V_TYPEV_ABSKEY
    ensures ValTag.VALUE_KINDS == ObjTag.VALUE_KINDS
  {
  }

  /**
   * The bool variants conflict: the false of `src/ma_val.h` is the bare
   * BOOL tag of `src/ma_obj.h`, which that header reads as neither true nor
   * false, and the false of `src/ma_obj.h` is no bool constant of `src/ma_val.h`.
   */
  lemma BoolConstantsConflict()
    ensures ValTag.V_VFALSE == ObjTag.V_TYPE_BOOL
    ensures ValTag.V_VTRUE == ObjTag.V_TYPEV_TRUE
    ensures ObjTag.V_TYPEV_FALSE != ValTag.V_VFALSE && ObjTag.V_TYPEV_FALSE != ValTag.V_VTRUE
    ensures ValTag.IsBool(ObjTag.V_TYPEV_FALSE) && !ValTag.IsFalse(ObjTag.V_TYPEV_FALSE) && !ValTag.IsTrue(ObjTag.V_TYPEV_FALSE)
    ensures !ObjTag.IsFalse(ValTag.V_VFALSE) && !ObjTag.IsTrue(ValTag.V_VFALSE)
  {
  }

  /** The object kinds conflict: the string kind of one header is another kind in the other. */
  lemma ObjectKindsConflict()
    ensures ObjTag.O_TYPE_STR == ValTag.O_INSTANCE
    ensures ValTag.O_STR == ObjTag.O_TYPE_RANGE
    ensures ValTag.O_ARRAY == ObjTag.O_TYPE_FUN
  {
  }
}
