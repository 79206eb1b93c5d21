/**
 * The string-header field layer of `src/ma_str.c`.
 *
 * A string object carries a byte `sl` and a word `u.len`. For a short
 * string, bits 0-6 of `sl` hold the length and bit 7 says whether the
 * string is reserved. For a long string, `u.len` holds the length and `sl`
 * serves as the "hash already computed" flag.
 *
 * The new `sl` byte each writer stores is given by a function of the old
 * byte, and the in-place writers of class `Str` are specified by those.
 */
module StrHeader {
  import opened TypeByte
  import opened ValTag

  /** `size_t`, the type of `u.len`. */
  const SIZE_LIMIT: int := 0x1_0000_0000_0000_0000
  type Size = n: int | 0 <= n < SIZE_LIMIT

  /** The `Uint` that holds a string's hash. */
  type Uint = bv32

  /** Bits 0-6 of `sl`: the length of a short string. */
  const SHT_LEN_BITS: Ubyte := 0x7F

  /** Bit 7 of `sl`: the reserved flag of a short string. */
  const SL_MSB: Ubyte := 0x80

  // ------------------------------------------------------- string kinds

  /**
   * `is_sht` as written: `co_type` wants the collectable bit set and the
   * whole byte equal to `O_VSHTSTR` or `O_VUSHTSTR`, neither of which has
   * that bit, so no type byte passes.
   */
  function IsShtAsWritten(tag: Ubyte): (b: bool)
    ensures !b
  {
    CoType(tag, O_VSHTSTR) || CoType(tag, O_VUSHTSTR)
  }

  /**
   * `is_sht` as intended: the header's type byte is one of the two short
   * string variants, compared the way `is_lng` compares its long ones.
   */
  predicate IsSht(tag: Ubyte) {
    tag == O_VSHTSTR || tag == O_VUSHTSTR
  }

  /** `is_lng` (its undefined `O_VLNG2STR` is read as `O_VULNGSTR`). */
  predicate IsLng(tag: Ubyte) {
    tag == O_VLNGSTR || tag == O_VULNGSTR
  }

  /** The short string tags are short ASCII (7, variant 1) and short UTF-8 (8, variant 0). */
  lemma ShtFields(tag: Ubyte)
    ensures IsSht(tag) <==> Decode(tag) == Fields(7, 1, false) || Decode(tag) == Fields(8, 0, false)
  {
    DecodeInjective(tag, O_VSHTSTR);
    DecodeInjective(tag, O_VUSHTSTR);
  }

  /** The long string tags are long ASCII (7, variant 0) and long UTF-8 (8, variant 1); none is short. */
  lemma LngFields(tag: Ubyte)
    ensures IsLng(tag) <==> Decode(tag) == Fields(7, 0, false) || Decode(tag) == Fields(8, 1, false)
    ensures IsLng(tag) ==> !IsSht(tag)
  {
    DecodeInjective(tag, O_VLNGSTR);
    DecodeInjective(tag, O_VULNGSTR);
  }

  // --------------------------------------------------- the `sl` byte, pure

  /**
   * The byte `sshtlen(s, rl)` stores: the old reserved bit, OR the length
   * truncated to a byte. The length field then reads `rl` modulo 128, and
   * a length of 128 or more also sets the reserved bit.
   */
  function StoreShtLen(sl: Ubyte, rl: Size): (r: Ubyte)
    ensures (r & SHT_LEN_BITS) as int == rl % 128
    ensures r & SL_MSB != 0 <==> sl & SL_MSB != 0 || rl % 256 >= 128
  {
    StoreShtLenFields(sl, rl);
    (sl & !SHT_LEN_BITS) | ByteOf(rl % 256)
  }

  /** The length and reserved fields of the byte `sshtlen` stores. */
  lemma StoreShtLenFields(sl: Ubyte, rl: Size)
    ensures (((sl & !SHT_LEN_BITS) | ByteOf(rl % 256)) & SHT_LEN_BITS) as int == rl % 128
    ensures ((sl & !SHT_LEN_BITS) | ByteOf(rl % 256)) & SL_MSB != 0 <==> sl & SL_MSB != 0 || rl % 256 >= 128
  {
    StoreValues(sl, ByteOf(rl % 256));
    LowByteLowBits(rl);
  }

  /** The low seven bits of a number are those of its low byte. */
  lemma LowByteLowBits(n: nat)
    ensures n % 256 % 128 == n % 128
  {
  }

  /** OR-ing a byte into the cleared length field, read as numbers. */
  lemma StoreValues(sl: Ubyte, low: Ubyte)
    ensures (((sl & !SHT_LEN_BITS) | low) & SHT_LEN_BITS) as int == low as int % 128
    ensures ((sl & !SHT_LEN_BITS) | low) & SL_MSB != 0 <==> sl & SL_MSB != 0 || low as int >= 128
  {
    StoreBits(sl, low);
    TopAndLowBits(low);
  }

  /** OR-ing a byte into the cleared length field: its low seven bits land there, its top bit joins the old one. */
  lemma StoreBits(sl: Ubyte, low: Ubyte)
    ensures ((sl & !SHT_LEN_BITS) | low) & SHT_LEN_BITS == low & SHT_LEN_BITS
    ensures ((sl & !SHT_LEN_BITS) | low) & SL_MSB != 0 <==> sl & SL_MSB != 0 || low & SL_MSB != 0
  {
  }

  /**
   * The byte `set_revbit` stores as written: `sl |= ~SL_MSB` sets the seven
   * length bits and leaves the reserved bit as it was.
   */
  function RevBitAsWritten(sl: Ubyte): (r: Ubyte)
    ensures r & SHT_LEN_BITS == SHT_LEN_BITS
    ensures r & SL_MSB == sl & SL_MSB
  {
    sl | !SL_MSB
  }

  /** The byte `set_revbit` is documented to store: reserved bit set, length kept. */
  function RevBit(sl: Ubyte): (r: Ubyte)
    ensures r & SL_MSB != 0
    ensures r & SHT_LEN_BITS == sl & SHT_LEN_BITS
  {
    sl | SL_MSB
  }

  // -------------------------------------------------- the string, in place

  /** The fields of a `Str` this layer reads and writes. */
  class Str {
    var tag: Ubyte
    var mark: Ubyte
    var sl: Ubyte
    var ulen: Size  // `u.len`
    var hash: Uint

    /** `shtlen`: the length field of `sl`, never above 0x7F. */
    function ShtLen(): (n: nat)
      reads this
      ensures n <= 0x7F
      ensures n == sl as int % 128
    {
      (sl & SHT_LEN_BITS) as int
    }

    /** `len`: the short length for a short string, `u.len` otherwise. */
    function Len(): (n: nat)
      reads this
      ensures IsSht(tag) ==> n == ShtLen() && n <= 0x7F
      ensures !IsSht(tag) ==> n == ulen
      ensures IsLng(tag) ==> n == ulen
    {
      if IsSht(tag) then ShtLen() else ulen
    }

    /** `is_rev`: a short string whose `sl` has the reserved bit. */
    function IsRev(): (b: bool)
      reads this
      ensures b ==> IsSht(tag)
      ensures b <==> IsSht(tag) && sl as int >= 128
    {
      IsSht(tag) && sl & SL_MSB != 0
    }

    /** `is_hashed`: a long string whose `sl` flag is 1; never a short string. */
    function IsHashed(): (b: bool)
      reads this
      ensures b ==> IsLng(tag) && !IsSht(tag)
      ensures b <==> IsLng(tag) && sl == 1
    {
      IsLng(tag) && sl == 1
    }

    /** `sshtlen`: replace the short length, keeping the reserved bit. */
    method SetShtLen(rl: Size)
      modifies this`sl
      ensures sl == StoreShtLen(old(sl), rl)
      ensures ShtLen() == rl % 128
      ensures rl < 128 ==> IsRev() == old(IsRev())
      ensures rl < 128 && IsSht(tag) ==> Len() == rl
    {
      if rl < 128 {
        ShtLenRoundTrip(sl, rl);
      }
      sl := StoreShtLen(sl, rl);
    }

    /** `slgnlen`: store the length of a long string in `u.len`. */
    method SetLngLen(rl: Size)
      modifies this`ulen
      ensures ulen == rl
      ensures !IsSht(tag) ==> Len() == rl
    {
      ulen := rl;
    }

    /** `slen`: store a length where `len` reads it (its `slnglen` is read as `slgnlen`). */
    method SetLen(rl: Size)
      modifies this`sl, this`ulen
      ensures IsSht(tag) ==> sl == StoreShtLen(old(sl), rl) && ulen == old(ulen)
      ensures !IsSht(tag) ==> ulen == rl && sl == old(sl)
      ensures rl < 128 || !IsSht(tag) ==> Len() == rl
    {
      if IsSht(tag) {
        SetShtLen(rl);
      } else {
        SetLngLen(rl);
      }
    }

    /** `set_revbit` as written, on a short string: the length becomes 0x7F. */
    method SetRevBitAsWritten()
      requires IsSht(tag)
      modifies this`sl
      ensures sl == RevBitAsWritten(old(sl))
      ensures ShtLen() == 0x7F && IsRev() == old(IsRev())
    {
      sl := sl | !SL_MSB;
    }

    /** `set_revbit` as documented: the short string becomes reserved, its length stays. */
    method SetRevBit()
      requires IsSht(tag)
      modifies this`sl
      ensures sl == RevBit(old(sl))
      ensures IsRev() && ShtLen() == old(ShtLen())
    {
      sl := sl | SL_MSB;
    }

    /** `mark_hash` (its undefined `slen` field is read as `sl`): flag a long string as hashed. */
    method MarkHash()
      requires IsLng(tag)
      modifies this`sl
      ensures sl == 1
      ensures IsHashed()
    {
      sl := 1;
    }
  }

  // ---------------------------------------------------------------- lemmas

  /** A short length below 128 reads back as stored. */
  lemma ShtLenRoundTrip(sl: Ubyte, rl: Size)
    requires rl < 128
    ensures (StoreShtLen(sl, rl) & SHT_LEN_BITS) as int == rl
    ensures StoreShtLen(sl, rl) & SL_MSB == sl & SL_MSB
  {
  }

  /** Of two short lengths stored in a row, the second wins. */
  lemma ShtLenLastWins(sl: Ubyte, rl1: Size, rl2: Size)
    requires rl1 < 128
    ensures StoreShtLen(StoreShtLen(sl, rl1), rl2) == StoreShtLen(sl, rl2)
  {
    var low := ByteOf(rl1 % 256);
    TopAndLowBits(low);
    ClearTwice(sl, low, ByteOf(rl2 % 256));
  }

  /** A length below 128 leaves no trace once the length field is cleared again. */
  lemma ClearTwice(sl: Ubyte, low1: Ubyte, low2: Ubyte)
    requires low1 & SL_MSB == 0
    ensures (((sl & !SHT_LEN_BITS) | low1) & !SHT_LEN_BITS) | low2 == (sl & !SHT_LEN_BITS) | low2
  {
  }

  /** A length of 128 or more leaks into the reserved bit. */
  lemma ShtLenOverflowSetsReserved()
    ensures StoreShtLen(0x00, 128) == 0x80
  {
  }

  /** Setting the reserved bit as written clobbers a length of 5. */
  lemma RevBitCounterexample()
    ensures RevBitAsWritten(0x05) == 0x7F
    ensures RevBit(0x05) == 0x85
  {
  }

  /** A short string's type byte passes `is_sht` as intended and fails it as written. */
  lemma ShtCounterexample()
    ensures IsSht(O_VSHTSTR) && IsSht(O_VUSHTSTR)
    ensures !IsShtAsWritten(O_VSHTSTR) && !IsShtAsWritten(Ctb(O_VSHTSTR))
  {
  }

  /** The object-side string tags and the value-side string tests agree. */
  lemma HeaderTagsMatchValueTags(tag: Ubyte)
    ensures IsSht(tag) <==> IsShtstr(Ctb(tag)) && !IsCtb(tag)
    ensures IsLng(tag) <==> IsLngstr(Ctb(tag)) && !IsCtb(tag)
  {
    ShtFields(tag);
    LngFields(tag);
  }
}
