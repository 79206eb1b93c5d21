/**
 * The documented layout of the one-byte `type` tag that every Maat value and
 * object header carries: bits 0-4 hold the base kind, bits 5-6 a variant,
 * bit 7 the collectable ("is an object") flag.
 *
 * This module reads a byte arithmetically, as digits in base 32/4/2, and so
 * gives an independent reference against which the mask macros of the two
 * value headers are specified.
 */
module TypeByte {

  /** The C `Ubyte`. */
  type Ubyte = bv8

  /** The three fields of a type byte. */
  datatype Fields = Fields(base: nat, variant: nat, collectable: bool)

  /** The ranges the layout gives each field: 32 base kinds, 4 variants. */
  predicate WellFormed(f: Fields) {
    f.base < 32 && f.variant < 4
  }

  /** Numeric weight of the fields in the byte. */
  function Weight(f: Fields): nat {
    f.base + 32 * f.variant + (if f.collectable then 128 else 0)
  }

  /** Split a byte into its fields; the fields weigh exactly the byte. */
  function Decode(x: Ubyte): (f: Fields)
    ensures WellFormed(f)
    ensures Weight(f) == x as int
  {
    Fields(x as int % 32, x as int / 32 % 4, x as int >= 128)
  }

  /** The fields are the masked bit groups of the byte. */
  lemma FieldsAsBits(x: Ubyte)
    ensures Decode(x) == Fields((x & 0x1F) as int, ((x >> 5) & 3) as int, x & 0x80 != 0)
  {
  }

  /** Bits 0-6 of a byte weigh its value modulo 128; bit 7 is set from 128 up. */
  lemma TopAndLowBits(x: Ubyte)
    ensures (x & 0x7F) as int == x as int % 128
    ensures x & 0x80 != 0 <==> x as int >= 128
  {
  }

  /** The byte whose value is `n`, counted up from zero. */
  function ByteOf(n: nat): (x: Ubyte)
    requires n < 256
    ensures x as int == n
  {
    if n == 0 then 0 else ByteOf(n - 1) + 1
  }

  /** Pack well-formed fields into a byte; decoding gives them back. */
  function Encode(f: Fields): (x: Ubyte)
    requires WellFormed(f)
    ensures Decode(x) == f
  {
    ByteOf(Weight(f))
  }

  /** Every byte is the encoding of its own fields. */
  lemma EncodeDecode(x: Ubyte)
    ensures Encode(Decode(x)) == x
  {
    ValueInjective(Encode(Decode(x)), x);
  }

  /** Two bytes of the same value are the same byte. */
  lemma ValueInjective(x: Ubyte, y: Ubyte)
    requires x as int == y as int
    ensures x == y
  {
  }

  /** Two bytes with the same fields are the same byte. */
  lemma DecodeInjective(x: Ubyte, y: Ubyte)
    ensures Decode(x) == Decode(y) <==> x == y
  {
    if Decode(x) == Decode(y) {
      EncodeDecode(x);
      EncodeDecode(y);
    }
  }
}
