/** Octets and the numbers they carry. */
module Bytes {
  import opened Types

  function Val(b: Byte): U8 {
    b as nat
  }

  lemma Increment(b: Byte)
    requires Val(b) < 0xFF
    ensures Val(b + 1) == Val(b) + 1
  {
    assert b != 0xFF;
    assert (b + 1) as nat == b as nat + 1;
  }

  /** The octet with a given value. */
  function ByteOf(n: U8): (b: Byte)
    ensures Val(b) == n
  {
    if n == 0 then 0
    else
      var p := ByteOf(n - 1);
      Increment(p);
      p + 1
  }

  lemma ByteOfVal(b: Byte)
    ensures ByteOf(Val(b)) == b
  {
    SameVal(ByteOf(Val(b)), b);
  }

  lemma SameVal(a: Byte, b: Byte)
    requires Val(a) == Val(b)
    ensures a == b
  {
  }

  /** Two octets, low first. */
  function Put16(v: U16): (s: seq<Byte>)
    ensures |s| == 2
  {
    [ByteOf(v % 0x100), ByteOf(v / 0x100)]
  }

  function Get16(lo: Byte, hi: Byte): U16 {
    Val(lo) + 0x100 * Val(hi)
  }

  lemma PutGet16(v: U16)
    ensures Get16(Put16(v)[0], Put16(v)[1]) == v
  {
    hide Val, ByteOf;
  }

  lemma GetPut16(lo: Byte, hi: Byte)
    ensures Put16(Get16(lo, hi)) == [lo, hi]
  {
    hide Val, ByteOf;
    ByteOfVal(lo);
    ByteOfVal(hi);
  }

  /** A 16-bit register as two octets, low first. */
  function PutWord(c: bv16): (s: seq<Byte>)
    ensures |s| == 2
  {
    [(c & 0xFF) as bv8, (c >> 8) as bv8]
  }

  function GetWord(lo: Byte, hi: Byte): bv16 {
    (lo as bv16) | ((hi as bv16) << 8)
  }

  lemma PutGetWord(c: bv16)
    ensures GetWord(PutWord(c)[0], PutWord(c)[1]) == c
  {
  }

  lemma GetPutWord(lo: Byte, hi: Byte)
    ensures PutWord(GetWord(lo, hi)) == [lo, hi]
  {
  }

  /** The low 32 bits of a 64-bit tag as four octets, low first. */
  function PutTag(m: bv64): (s: seq<Byte>)
    ensures |s| == 4
  {
    [(m & 0xFF) as bv8, ((m >> 8) & 0xFF) as bv8, ((m >> 16) & 0xFF) as bv8, ((m >> 24) & 0xFF) as bv8]
  }
}
