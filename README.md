# Maat type tags and string headers, in Dafny

This project models the bit-level core of the Maat runtime's value
representation: the one-byte `type` tag that every value and every object
header carries, and the `sl`/`u.len` fields of a string object.

A tag byte holds a base kind in bits 0-4 (nil, bool, number, C function,
C data, or an object kind from 5 to 31), a variant in bits 5-6, and the
collectable ("is an object") flag in bit 7. The header `src/ma_val.h` builds
tags with `vary`, takes them apart with `with_variant` and `without_variant`,
and tests them with `check_type`, `check_vartype`, `check_rtype`, `ctb` and
`is_ctb` and the `is_*` tests built from those. `src/ma_obj.h` is an earlier
draft of the same layout, with other constant names and some conflicting
values. `src/ma_str.c` packs a short string's 7-bit length and its reserved
flag into `sl`, keeps a long string's length in `u.len`, and reuses `sl` as
a long string's "hash computed" flag.

Modules:

- `TypeByte` (`type_byte.dfy`): the documented layout as a reference. It
  reads a byte arithmetically into its three fields (`Decode`) and packs
  fields back into a byte (`Encode`), with both round trips proved. Every
  mask macro below is specified in these fields, not by its own mask.
- `ValTag` (`val_tag.dfy`): `src/ma_val.h`. The macros read only the
  `type` byte, so each is a function of that byte. `Value` is a class whose
  `tag` and `val` fields `set_type` and `set_cval` update in place. The C
  field `type` is called `tag` because `type` is a Dafny keyword.
- `ObjTag` (`obj_tag.dfy`): `src/ma_obj.h`. It has the same functions under
  that header's constants. A `Value` class has `set_type`, `set_val`,
  `set_valo` and `copy`.
- `StrHeader` (`str_header.dfy`): `src/ma_str.c`. Pure functions give the
  new `sl` byte each writer stores. Class `Str` has the fields `tag`,
  `mark`, `sl`, `ulen` (`u.len`, the field `lnglen` reads, which `Len`
  returns for a string that is not short) and `hash`, readers as functions,
  and writers as methods specified by those functions.
- `HeaderConflicts` (`header_conflicts.dfy`): where the two header drafts
  agree (the masks) and where their constants conflict.

Names in the source that were never defined are read as follows. In
`src/ma_val.h`:

- `V_VNILKEY` is read as `V_VFREE`.
- `is_obj` is read as `is_ctb`.
- `ctb(CONST)` is ill-formed, since `ctb` takes a value pointer. It is read
  as `CONST | IS_COLLECTABLE_BIT`.
- `is_co(c)` uses `v` in its body. It is read with parameter `v`.

In `src/ma_obj.h`:

- `V_TYPEV_NILKEY` is read as `V_TYPEV_FREE`.
- `O_TYPE_LIST` is read as the `O_TYPEV_LIST` variant, tested with
  `o_check_vartype` like `is_set`.
- The self-referential `type(v)` is read as `with_variant`.
- `is_obj` reads the raw type byte, as the comment at lines 86-88 says.
  Through `with_variant` the top bit would always be masked away.
- `set_val(v, val, t)` names its parameter `val`, so the parameter also
  replaces the field name in `(v)->val`. `copy` would then expand to
  `(v1)->v2->val = v2->val` and `set_valo` to `(v)->o = o`, neither of which
  writes a field. The three macros are read as `(v)->val = val`, with
  `set_valo` storing `o` in the `obj` arm of the union.

In `src/ma_str.c`:

- `O_VLNG2STR` is read as `O_VULNGSTR`.
- The `slen` field of `mark_hash`/`is_hashed` is read as `sl`.
- `slnglen` is read as `slgnlen`.

`ma_assert` checks are internal-consistency failures, which are fatal and
never a recoverable error. They become `requires` clauses.

## Model

| member | source | states |
|---|---|---|
| `TypeByte.Decode` | src/ma_val.h:44-56 | a byte splits into base kind < 32, variant < 4 and collectable flag, whose weights 1, 32 and 128 add back up to the byte |
| `TypeByte.Encode` | src/ma_val.h:44-56 | packing well-formed fields into a byte and decoding it gives back the fields |
| `TypeByte.EncodeDecode` | src/ma_val.h:44-56 | every byte is the packing of its own fields, so the layout is a bijection between bytes and well-formed fields |
| `TypeByte.DecodeInjective` | src/ma_val.h:44-56 | two bytes are equal exactly when their three fields are |
| `ValTag.Vary` | src/ma_val.h:19 | the result keeps the base kind of `t`; for `t` < 32 and `v` < 4 it has base `t`, variant `v` and a clear collectable bit |
| `ValTag.WithVariant` | src/ma_val.h:23 | the result has the base kind and variant of the tag, with a clear collectable bit |
| `ValTag.WithoutVariant` | src/ma_val.h:24 | the result is the base kind alone, with variant 0 and a clear collectable bit |
| `ValTag.CheckType` | src/ma_val.h:25 | true exactly when `t` equals the tag's base kind |
| `ValTag.CheckVartype` | src/ma_val.h:26 | true exactly when `t` has the tag's base kind and variant and no collectable bit |
| `ValTag.CheckRtype` | src/ma_val.h:27 | true exactly when all three fields of the tag and `t` agree |
| `ValTag.Ctb` | src/ma_val.h:91-95 | the result has the tag's base kind and variant, with the collectable bit set |
| `ValTag.IsCtb` | src/ma_val.h:94 | true exactly when the collectable field is set |
| `ValTag.IsNum` | src/ma_val.h:85 | true exactly when the base kind is 2, whatever the variant and flag |
| `ValTag.IsNil` | src/ma_val.h:86 | true exactly when the base kind is 0 |
| `ValTag.IsBool` | src/ma_val.h:87 | true exactly when the base kind is 1 |
| `ValTag.IsCfunc` | src/ma_val.h:88 | true exactly when the base kind is 3 |
| `ValTag.IsCdata` | src/ma_val.h:89 | true exactly when the base kind is 4 |
| `ValTag.IssNil` | src/ma_val.h:123 | true exactly for nil, variant 0, not collectable |
| `ValTag.IsFree` | src/ma_val.h:124 | true exactly for nil, variant 1 (the free-slot marker), not collectable |
| `ValTag.IsAbskey` | src/ma_val.h:125 | true exactly for nil, variant 2 (the absent-key marker), not collectable |
| `ValTag.IsFalse` | src/ma_val.h:134 | on a bool tag: true exactly for variant 0 without the collectable bit |
| `ValTag.IsTrue` | src/ma_val.h:135 | on a bool tag: true exactly for variant 1 without the collectable bit |
| `ValTag.AsBool` | src/ma_val.h:97 | on a bool tag: true exactly for `V_VTRUE`, and never for a false tag |
| `ValTag.OCheckType` | src/ma_val.h:167 | needs both the collectable bit and base kind `t` |
| `ValTag.OCheckRtype` | src/ma_val.h:207 | needs `t` to be collectable and the tag to equal it in all fields |
| `ValTag.CoType` | src/ma_val.h:582 | can only hold when `t` has the collectable bit, and then exactly when the tag is `t` |
| `ValTag.IsChanAsWritten` | src/ma_val.h:213 | as written, no tag passes `is_chan` |
| `ValTag.IsSchedqAsWritten` | src/ma_val.h:214 | as written, no tag passes `is_schedq` |
| `ValTag.IsChan` | src/ma_val.h:210-213 | as intended: true exactly for the collectable ring-buffer-queue kind with variant 1 |
| `ValTag.IsSchedq` | src/ma_val.h:211-214 | as intended: true exactly for the collectable ring-buffer-queue kind with variant 2 |
| `ValTag.IsAstr` | src/ma_val.h:229 | true exactly for a collectable tag of base kind 7, any variant |
| `ValTag.IsUstr` | src/ma_val.h:230 | true exactly for a collectable tag of base kind 8, any variant |
| `ValTag.IsStr` | src/ma_val.h:228 | true exactly for a collectable tag of base kind 7 or 8 |
| `ValTag.IsShtstr` | src/ma_val.h:232-233 | true exactly for the collectable short ASCII (7, variant 1) or short UTF-8 (8, variant 0) tag |
| `ValTag.IsLngstr` | src/ma_val.h:234-235 | true exactly for the collectable long ASCII (7, variant 0) or long UTF-8 (8, variant 1) tag |
| `ValTag.IsRange` | src/ma_val.h:273 | true exactly for the collectable range tag, variant 0 |
| `ValTag.IsMap` | src/ma_val.h:311 | true exactly for the collectable map tag, variant 0 |
| `ValTag.IssArray` | src/ma_val.h:333 | true exactly for the collectable plain array tag, variant 0 |
| `ValTag.IsArray` | src/ma_val.h:334 | true exactly for a collectable array of any variant |
| `ValTag.IsList` | src/ma_val.h:335 | true exactly for the collectable array tag with variant 1 |
| `ValTag.IssClass` | src/ma_val.h:381 | true exactly for the collectable plain class tag, variant 0 |
| `ValTag.IsClass` | src/ma_val.h:382 | true exactly for a collectable class of any variant (class, role, C class) |
| `ValTag.IsRole` | src/ma_val.h:383 | true exactly for the collectable class tag with variant 1 |
| `ValTag.IsCclass` | src/ma_val.h:401 | true exactly for the collectable class tag with variant 2 |
| `ValTag.IsInstance` | src/ma_val.h:429 | true exactly for the collectable instance tag |
| `ValTag.IsNs` | src/ma_val.h:471 | true exactly for the collectable namespace tag |
| `ValTag.IsFun` | src/ma_val.h:491 | true exactly for the collectable function tag, variant 0 |
| `ValTag.IsClosure` | src/ma_val.h:540 | true exactly for the collectable function tag with variant 1 |
| `ValTag.IssState` | src/ma_val.h:557 | true exactly for the collectable state tag, variant 0 |
| `ValTag.IsState` | src/ma_val.h:558 | true exactly for a collectable state of any variant |
| `ValTag.IsCo` | src/ma_val.h:559 | true exactly for the collectable state tag with variant 1 (a coroutine) |
| `ValTag.IsWork` | src/ma_val.h:565 | true exactly for the collectable work tag |
| `ValTag.IsMa` | src/ma_val.h:569 | true exactly for the collectable maatine tag |
| `ValTag.Value.Literal` | src/ma_val.h:119-132 | a value literal has the given tag and a zero number payload, as `FREE`, `ABSKEY`, `FALSE` and `TRUE` are built |
| `ValTag.Value.SetType` | src/ma_val.h:70 | the tag becomes `t` and nothing else changes |
| `ValTag.Value.SetCval` | src/ma_val.h:71-72 | the value refers to `o` and is tagged with the collectable form of the object's type, with kind and variant kept |
| `ValTag.VaryRoundTrip` | src/ma_val.h:19-24 | for `t` < 32 and `v` < 4, `without_variant` gives back `t`, `with_variant` gives back the whole tag, and the tag is not collectable |
| `ValTag.VaryRebuilds` | src/ma_val.h:19-24 | every tag is rebuilt by `vary` from its base kind and variant, plus `ctb` when it is collectable |
| `ValTag.CtbKeepsKindAndVariant` | src/ma_val.h:91-95 | `ctb` changes neither `without_variant` nor `with_variant`, and `is_ctb` holds after it |
| `ValTag.ValueKindsNotCollectable` | src/ma_val.h:79-95 | nil, bool, num, cfunc and cdata with any variant have bit 7 clear and keep their base kind |
| `ValTag.NilVariants` | src/ma_val.h:115-125 | the three nil variants are distinct tags, all of base kind nil, each passing its own test |
| `ValTag.BoolVariants` | src/ma_val.h:128-135 | false and true are distinct bool tags that read as false and true |
| `ValTag.TrueFalseExclusive` | src/ma_val.h:134-135 | no bool tag is both true and false |
| `ValTag.ObjectKindsFit` | src/ma_val.h:172-204 | the object kinds are pairwise distinct, lie between 5 and 31, and none is a value kind |
| `ValTag.CheckRtypeRefines` | src/ma_val.h:25-27 | a whole-byte match implies the `check_vartype` match on `t & 0x7F` and the `check_type` match on `t & 0x1F` |
| `ValTag.StringVariants` | src/ma_val.h:223-235 | the four string variants are distinct; no tag is both short and long; both are strings; a string with variant 0 or 1 is short or long |
| `ValTag.ChanCounterexample` | src/ma_val.h:210-214 | the collectable channel and scheduler-queue tags pass the intended tests and fail the written ones |
| `ValTag.CoTypeNeedsCollectableConstant` | src/ma_val.h:582 | `co_type` with a constant below 0x80 never holds |
| `ObjTag.Vary` | src/ma_obj.h:18 | the result keeps the base kind of `t`; for `t` < 32 and `v` < 4 it has base `t`, variant `v` and a clear object bit |
| `ObjTag.WithVariant` | src/ma_obj.h:20 | the result has the tag's base kind and variant, with a clear object bit |
| `ObjTag.WithoutVariant` | src/ma_obj.h:21 | the result is the base kind alone |
| `ObjTag.CheckType` | src/ma_obj.h:22 | true exactly when `t` equals the base kind |
| `ObjTag.CheckVartype` | src/ma_obj.h:23 | true exactly when `t` has the tag's base kind and variant and no object bit |
| `ObjTag.IsObj` | src/ma_obj.h:96-98 | true exactly when bit 7 (`OBJ_BIT`) is set, i.e. the byte is 0x80 or above |
| `ObjTag.IsNum` | src/ma_obj.h:99 | true exactly when the base kind is 2 |
| `ObjTag.IsNil` | src/ma_obj.h:100 | true exactly when the base kind is 0 |
| `ObjTag.IsBool` | src/ma_obj.h:101 | true exactly when the base kind is 1 |
| `ObjTag.IsCfunc` | src/ma_obj.h:102 | true exactly when the base kind is 3 |
| `ObjTag.IsCdata` | src/ma_obj.h:103 | true exactly when the base kind is 4 |
| `ObjTag.IsStrictNil` | src/ma_obj.h:130 | true exactly for base kind nil with variant 0 |
| `ObjTag.IsFree` | src/ma_obj.h:131 | true exactly for base kind nil with variant 1 |
| `ObjTag.IsAbskey` | src/ma_obj.h:132 | true exactly for base kind nil with variant 2 |
| `ObjTag.IsFalse` | src/ma_obj.h:142 | on a bool tag: true exactly for variant 2 |
| `ObjTag.IsTrue` | src/ma_obj.h:143 | on a bool tag: true exactly for variant 1 |
| `ObjTag.AsBool` | src/ma_obj.h:108 | on a bool tag: true exactly when the tag without its top bit is `V_TYPEV_TRUE`, and never for a false tag |
| `ObjTag.OCheckType` | src/ma_obj.h:171 | needs the object bit and base kind `t`, and implies `is_obj` |
| `ObjTag.OCheckVartype` | src/ma_obj.h:212 | needs the object bit and the base kind and variant of `t`, and implies `is_obj` |
| `ObjTag.IsClass` | src/ma_obj.h:194 | true exactly for an object of base kind 5 |
| `ObjTag.IsStr` | src/ma_obj.h:195 | true exactly for an object of base kind 6 |
| `ObjTag.IsRange` | src/ma_obj.h:196 | true exactly for an object of base kind 7 |
| `ObjTag.IsArray` | src/ma_obj.h:197 | true exactly for an object of base kind 8 |
| `ObjTag.IsMap` | src/ma_obj.h:198 | true exactly for an object of base kind 9 |
| `ObjTag.IsFun` | src/ma_obj.h:199 | true exactly for an object of base kind 10 |
| `ObjTag.IsRbq` | src/ma_obj.h:201 | true exactly for an object of base kind 13 |
| `ObjTag.IsRegex` | src/ma_obj.h:202 | true exactly for an object of base kind 14 |
| `ObjTag.IsSocket` | src/ma_obj.h:203 | true exactly for an object of base kind 15 |
| `ObjTag.IsPipe` | src/ma_obj.h:204 | true exactly for an object of base kind 16 |
| `ObjTag.IsFile` | src/ma_obj.h:205 | true exactly for an object of base kind 17 |
| `ObjTag.IsDir` | src/ma_obj.h:206 | true exactly for an object of base kind 18 |
| `ObjTag.IsProc` | src/ma_obj.h:207 | true exactly for an object of base kind 19 |
| `ObjTag.IsDate` | src/ma_obj.h:208 | true exactly for an object of base kind 21 |
| `ObjTag.IsTerm` | src/ma_obj.h:209 | true exactly for an object of base kind 22 |
| `ObjTag.IsBag` | src/ma_obj.h:220 | true exactly for a map object with variant 1 |
| `ObjTag.IsMbag` | src/ma_obj.h:221 | true exactly for a map object with variant 2 |
| `ObjTag.IsList` | src/ma_obj.h:228 | true exactly for an array object with variant 1 |
| `ObjTag.IsSet` | src/ma_obj.h:229 | true exactly for an array object with variant 2 |
| `ObjTag.IsMset` | src/ma_obj.h:230 | true exactly for an array object with variant 3 |
| `ObjTag.IsClosure` | src/ma_obj.h:235 | true exactly for a function object with variant 1 |
| `ObjTag.IsChanAsWritten` | src/ma_obj.h:245 | as written, no tag passes `is_chan` |
| `ObjTag.IsSchedqAsWritten` | src/ma_obj.h:246 | as written, no tag passes `is_schedq` |
| `ObjTag.IsChan` | src/ma_obj.h:242-245 | as intended: true exactly for a ring-buffer-queue object with variant 1 |
| `ObjTag.IsSchedq` | src/ma_obj.h:243-246 | as intended: true exactly for a ring-buffer-queue object with variant 2 |
| `ObjTag.Value.Literal` | src/ma_obj.h:127-140 | a value literal has the given tag and a null object payload, as `FREE`, `ABSKEY`, `BOOL`, `TRUE` and `FALSE` are built |
| `ObjTag.Value.SetType` | src/ma_obj.h:75 | the tag becomes `t` and nothing else changes |
| `ObjTag.Value.SetVal` | src/ma_obj.h:76 | tag and payload become `t` and `val` |
| `ObjTag.Value.SetValo` | src/ma_obj.h:77 | the value refers to `o` under the object's own type byte, so it is an object exactly when that byte says so |
| `ObjTag.Copy` | src/ma_obj.h:79-83 | `v1` gets the type byte and payload of `v2`; an object payload is the same reference, not a copy; `v2` is unchanged |
| `ObjTag.VaryRoundTrip` | src/ma_obj.h:18-23 | for `t` < 32 and `v` < 4, `without_variant` gives back `t`, `with_variant` the whole tag, and the tag is no object |
| `ObjTag.NilVariants` | src/ma_obj.h:124-132 | FREE and ABSKEY are nils, distinct from each other and from plain nil, and only plain nil is strictly nil |
| `ObjTag.BoolVariants` | src/ma_obj.h:135-143 | TRUE, FALSE and BOOL are three distinct bool tags; BOOL is neither true nor false |
| `ObjTag.ObjectKindsFit` | src/ma_obj.h:174-191 | the object kinds and `O_DEADKEY` are pairwise distinct, lie between 5 and 31, and none is a value kind |
| `ObjTag.ArrayAndMapVariants` | src/ma_obj.h:217-226 | LIST, SET and MSET use variants 1 to 3, are distinct and are arrays; BAG and MBAG are distinct maps |
| `ObjTag.VariantTestsExclusive` | src/ma_obj.h:217-230 | no tag passes two of the list, set and mset tests, or both bag tests; each variant test implies its base test |
| `ObjTag.ChanCounterexample` | src/ma_obj.h:242-246 | channel and scheduler-queue object tags pass the intended tests and fail the written ones |
| `StrHeader.IsShtAsWritten` | src/ma_str.c:21 | as written, no type byte passes `is_sht` |
| `StrHeader.IsSht` | src/ma_str.c:21 | `is_sht` as intended: the header byte is `O_VSHTSTR` or `O_VUSHTSTR`; its field meaning is stated by `StrHeader.ShtFields` |
| `StrHeader.IsLng` | src/ma_str.c:47 | `is_lng`: the header byte is `O_VLNGSTR` or `O_VULNGSTR`; its field meaning is stated by `StrHeader.LngFields` |
| `StrHeader.ShtFields` | src/ma_str.c:21 | `is_sht` as intended holds exactly for the short ASCII (7, variant 1) or short UTF-8 (8, variant 0) header byte |
| `StrHeader.LngFields` | src/ma_str.c:47 | `is_lng` holds exactly for the long ASCII (7, variant 0) or long UTF-8 (8, variant 1) header byte, and never for a short one |
| `StrHeader.StoreShtLen` | src/ma_str.c:15 | after `sshtlen` the length field reads `rl` modulo 128; the reserved bit is the old one, and is also set when `rl` modulo 256 is 128 or more |
| `StrHeader.RevBitAsWritten` | src/ma_str.c:29 | as written, `set_revbit` sets all seven length bits and leaves the reserved bit as it was |
| `StrHeader.RevBit` | src/ma_str.c:27-29 | as documented, `set_revbit` sets the reserved bit and keeps the length |
| `StrHeader.Str.ShtLen` | src/ma_str.c:11-19 | `shtlen` is bits 0-6 of `sl`, never above 0x7F |
| `StrHeader.Str.Len` | src/ma_str.c:18-22 | with `is_sht` as intended, `len` is the short length for a short string and `u.len` for any other, a long string included |
| `StrHeader.Str.IsRev` | src/ma_str.c:25-28 | with `is_sht` as intended, `is_rev` holds exactly for a short string whose `sl` has bit 7, so never for a non-short string |
| `StrHeader.Str.IsHashed` | src/ma_str.c:52 | `is_hashed` holds exactly for a long string whose `sl` is 1, so never for a short string |
| `StrHeader.Str.SetShtLen` | src/ma_str.c:15 | `sl` becomes the byte `StoreShtLen` gives; `shtlen` then reads `rl` modulo 128; below 128 `is_rev` is unchanged and, with `is_sht` as intended, a short string's `len` reads `rl`; nothing else changes |
| `StrHeader.Str.SetLngLen` | src/ma_str.c:14 | `u.len` becomes `rl`, so `len` of a string not short under the intended `is_sht` reads `rl` |
| `StrHeader.Str.SetLen` | src/ma_str.c:23 | with `is_sht` as intended, a short string gets its `sl` length and a long one its `u.len`; `len` then reads `rl` for a long string, and for a short one when `rl` < 128 |
| `StrHeader.Str.SetRevBitAsWritten` | src/ma_str.c:29 | the OR as written, on a string short under the intended `is_sht`: the length becomes 0x7F and `is_rev` is unchanged |
| `StrHeader.Str.SetRevBit` | src/ma_str.c:27-29 | as documented, on a string short under the intended `is_sht`: `is_rev` holds afterwards and the length is kept |
| `StrHeader.Str.MarkHash` | src/ma_str.c:51 | on a long string: `sl` becomes 1 and `is_hashed` holds |
| `StrHeader.ShtLenRoundTrip` | src/ma_str.c:11-19 | a length below 128 stored by `sshtlen` reads back from `shtlen`, and the reserved bit is kept |
| `StrHeader.ShtLenLastWins` | src/ma_str.c:15 | storing a short length below 128 and then another equals storing only the second |
| `StrHeader.ShtLenOverflowSetsReserved` | src/ma_str.c:15 | a length of 128 stored into a clear `sl` gives 0x80: length 0, reserved |
| `StrHeader.RevBitCounterexample` | src/ma_str.c:25-29 | on `sl` = 0x05, `set_revbit` as written gives 0x7F, where the documented intent gives 0x85 |
| `StrHeader.ShtCounterexample` | src/ma_str.c:21 | the short-string header bytes pass `is_sht` as intended, and fail it as written in either collectable form |
| `StrHeader.HeaderTagsMatchValueTags` | src/ma_str.c:21-47 | a header byte is short (long) exactly when it has no collectable bit and its collectable form passes `is_shtstr` (`is_lngstr`) |
| `HeaderConflicts.SameLayout` | src/ma_obj.h:18-23 | the masks, the collectable test and `vary` of the two drafts agree on every byte |
| `HeaderConflicts.NilConstantsAgree` | src/ma_obj.h:90-125 | the nil variants and value kinds of the two drafts are the same |
| `HeaderConflicts.BoolConstantsConflict` | src/ma_obj.h:135-140 | the false of `src/ma_val.h` is the bare BOOL of `src/ma_obj.h`, which is neither true nor false there; the false of `src/ma_obj.h` is neither bool of `src/ma_val.h` |
| `HeaderConflicts.ObjectKindsConflict` | src/ma_obj.h:174-179 | the string kind of `src/ma_obj.h` is the instance kind of `src/ma_val.h`; the string kind of `src/ma_val.h` is the range kind of `src/ma_obj.h`; the array kind of `src/ma_val.h` is the function kind of `src/ma_obj.h` |

## Findings

| source | as written | input that shows it | evidently intended | confidence | as-written member | corrected member |
|---|---|---|---|---|---|---|
| src/ma_str.c:21 | `is_sht` uses `co_type` (src/ma_val.h:582), which needs the collectable bit AND the whole byte equal to `O_VSHTSTR`/`O_VUSHTSTR`, constants without that bit; so `is_sht` is always false, `len` always reads `u.len`, `is_rev` never holds and the assertion in `set_revbit` always fails | header byte 0x27 (`O_VSHTSTR`) or 0xA7: both fail (`StrHeader.ShtCounterexample`) | a header byte of a short-string variant passes, compared the way `is_lng` compares its long variants (proved in `StrHeader.ShtFields`); the other reading, a header byte that carries bit 7, is what the `is_ctb` half of `co_type` and the assertion of `x2o` (src/ma_val.h:601) point to, but then `type(o) == t` still fails against these constants | not executed | `StrHeader.IsShtAsWritten` | `StrHeader.IsSht` |
| src/ma_str.c:29 | `s->sl \|= ~SL_MSB` ORs 0x7F into `sl`: the length becomes 127 and the reserved bit is not set | `sl` = 0x05 gives 0x7F (`StrHeader.RevBitCounterexample`) | `s->sl \|= SL_MSB`, as the comment at line 27 says | not executed | `StrHeader.RevBitAsWritten` | `StrHeader.RevBit` |
| src/ma_val.h:213-214 | `is_chan`/`is_schedq` use `o_check_type`, which compares the 5-bit base kind with `O_VCHAN`/`O_VSCHEDQ`, constants that carry variant bits; no tag passes | tag 0xAD, a collectable channel, fails (`ValTag.ChanCounterexample`) | `o_check_rtype(v, ctb(O_VCHAN))`, like the other variant tests of this header | not executed | `ValTag.IsChanAsWritten` | `ValTag.IsChan` |
| src/ma_obj.h:245-246 | the same `o_check_type` on variant constants in the earlier draft; no tag passes | tag 0xAD fails (`ObjTag.ChanCounterexample`) | `o_check_vartype(v, O_TYPEV_CHAN)`, like `is_set` and `is_bag` | not executed | `ObjTag.IsChanAsWritten` | `ObjTag.IsChan` |

Every member of `StrHeader.Str` that reads `is_sht` (`Len`, `IsRev`,
`SetShtLen`, `SetLngLen`, `SetLen`, `SetRevBitAsWritten`, `SetRevBit`) uses the corrected
`StrHeader.IsSht`, not the `is_sht` as written. The source as written
behaves differently. Take tag 0x27, `sl` = 0x05 and `u.len` = 9: `len`
returns 9 and `slen(s, 3)` writes `u.len`, where the model's `Len` returns 5
and `SetLen(3)` writes `sl`. `SetRevBitAsWritten` thus isolates the OR
discrepancy; with the `is_sht` as written, no string could reach it.

## Left out

- ValTag.IsTrue: requires a bool tag, because `to_bool` hands any other value to `coerce_to_bool`, which is not defined in these files.
- ValTag.IsFalse: requires a bool tag, for the same reason.
- ValTag.AsBool: requires a bool tag, for the same reason (here it is also the macro's own assertion).
- ObjTag.IsTrue: requires a bool tag, for the same reason.
- ObjTag.IsFalse: requires a bool tag, for the same reason.
- ObjTag.AsBool: requires a bool tag, for the same reason.
- The `as_*` accessors of both headers, the `o2*`/`x2o`/`a2u8`/`u82a` casts and the `Ounion`/`Sunion` unions: they reinterpret pointers and union arms. The model keeps the payload as a tagged datatype and has no memory to reinterpret.
- ValTag.Value.SetCval: drops the `ma_assert(is_obj(o))` of `x2o` (src/ma_val.h:601). Read as `is_ctb`, that assertion would demand that `o.tag` already carry bit 7, which `set_cval` then sets again with `ctb`.
- The NaN-tagging representation: both headers leave it as a TODO (`typedef uint64_t Value`).
- The `Num` payload: its width is chosen at build time and it is floating point. Here it is an opaque integer token.
- C function and C data pointers are opaque numbers. An object pointer is a Dafny reference, so sharing is reference equality.
- `otype`, `vtype` and the self-referential `type(v)` of `src/ma_obj.h`: `vtype` is `with_variant`, and `type(v)` is read as it. `otype` dereferences an object header, which is not modelled.
- `is_ctb` of `src/ma_obj.h` is literally `is_obj`, so it is `ObjTag.IsObj`.
- `O_TYPEV_MA` and `O_TYPEV_GFUN` of `src/ma_obj.h`: they are built from the undefined `O_TYPE_CMA`, and `O_TYPEV_MA` is defined twice. Its `is_ma` uses the undefined `O_TYPE_MA`.
- `hval` and `next_str` of `src/ma_str.c`: plain reads of the `hash` field and of the pointer arm of `u`. The short-string hash chain is not modelled.
- `svlen`, `vlen`, `is_cached`, `cache_vl`, `in_cache`, `va_cache` and `a_isus` of `src/ma_str.c`: they use fields and helpers that exist nowhere (`vlen`, `cache`, `a_iss2`, `o_check` with no arguments).
- The rest of the object header (`class` and `next` links, the GC meaning of `mark`) and the string's bytes, `next_nsobj` and the UTF-8 `ngraph` count: they are layout with no logic in these files.
- `u.len` is a `size_t`, modelled as an integer below 2^64. Each writer takes its length at that width, so no write wraps.
- The garbage collector, the shared object space, execution states, maatines and tasks: their headers hold struct layouts only, with no transition code.
