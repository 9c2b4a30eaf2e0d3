/** The line-noise check of a frame: CRC-16/CCITT-FALSE, one bit at a time. */
module Crc16 {
  import opened Types

  const INIT: bv16 := 0xFFFF
  const POLY: bv16 := 0x1021

  // The word operations have names so that proofs above them can hide the bits.

  function Xor(a: bv16, b: bv16): bv16 {
    a ^ b
  }

  function Shl(c: bv16): bv16 {
    c << 1
  }

  predicate Top(c: bv16) {
    c & 0x8000 != 0
  }

  function Wide(b: Byte): bv16 {
    (b as bv16) << 8
  }

  function BitStep(c: bv16): bv16 {
    if Top(c) then Xor(Shl(c), POLY) else Shl(c)
  }

  function Bits(c: bv16, n: nat): bv16 {
    if n == 0 then c else BitStep(Bits(c, n - 1))
  }

  function ByteStep(c: bv16, b: Byte): bv16 {
    Bits(Xor(c, Wide(b)), 8)
  }

  /** The register after a string of bytes. */
  function Crc(c: bv16, data: seq<Byte>): bv16 {
    if data == [] then c else ByteStep(Crc(c, data[..|data| - 1]), data[|data| - 1])
  }

  /** dhp_crc16_update. */
  method Update(crc: bv16, data: seq<Byte>) returns (r: bv16)
    ensures r == Crc(crc, data)
  {
    hide Xor, Shl, Top, Wide;
    r := crc;
    for i := 0 to |data|
      invariant r == Crc(crc, data[..i])
    {
      assert data[..i + 1][..i] == data[..i];
      r := Xor(r, Wide(data[i]));
      ghost var loaded := r;
      for bit := 0 to 8
        invariant r == Bits(loaded, bit)
      {
        if Top(r) {
          r := Xor(Shl(r), POLY);
        } else {
          r := Shl(r);
        }
      }
    }
    assert data[..|data|] == data;
  }

  // ---- The register is linear and reversible ----

  lemma XorBoth(a: bv16, b: bv16, m: bv16)
    ensures Xor(Xor(a, m), Xor(b, m)) == Xor(a, b)
  {
    assert (a ^ m) ^ (b ^ m) == a ^ b;
  }

  lemma XorLeft(a: bv16, b: bv16, m: bv16)
    ensures Xor(Xor(a, m), b) == Xor(Xor(a, b), m)
  {
    assert (a ^ m) ^ b == (a ^ b) ^ m;
  }

  lemma XorRight(a: bv16, b: bv16, m: bv16)
    ensures Xor(a, Xor(b, m)) == Xor(Xor(a, b), m)
  {
    assert a ^ (b ^ m) == (a ^ b) ^ m;
  }

  lemma XorCancels(a: bv16, b: bv16, m: bv16)
    ensures Xor(a, m) == Xor(b, m) ==> a == b
  {
  }

  lemma ShlSplits(a: bv16, b: bv16)
    ensures Shl(Xor(a, b)) == Xor(Shl(a), Shl(b))
  {
  }

  lemma TopSplits(a: bv16, b: bv16)
    ensures Top(Xor(a, b)) <==> (Top(a) != Top(b))
  {
  }

  lemma BitStepLinear(a: bv16, b: bv16)
    ensures BitStep(Xor(a, b)) == Xor(BitStep(a), BitStep(b))
  {
    hide Xor, Shl, Top;
    TopSplits(a, b);
    ShlSplits(a, b);
    XorBoth(Shl(a), Shl(b), POLY);
    XorLeft(Shl(a), Shl(b), POLY);
    XorRight(Shl(a), Shl(b), POLY);
  }

  lemma {:induction false} BitsLinear(a: bv16, b: bv16, n: nat)
    ensures Bits(Xor(a, b), n) == Xor(Bits(a, n), Bits(b, n))
  {
    hide Xor, BitStep;
    if n > 0 {
      BitsLinear(a, b, n - 1);
      BitStepLinear(Bits(a, n - 1), Bits(b, n - 1));
    }
  }

  /** The step undone: the low bit tells which branch was taken. */
  function BitUnstep(c: bv16): bv16 {
    if Odd(c) then (Xor(c, POLY) >> 1) | 0x8000 else c >> 1
  }

  predicate Odd(c: bv16) {
    c & 1 != 0
  }

  lemma ShiftedParity(c: bv16)
    ensures Odd(Xor(Shl(c), POLY)) && !Odd(Shl(c))
  {
  }

  lemma ShiftBackTop(c: bv16)
    requires Top(c)
    ensures (Xor(Xor(Shl(c), POLY), POLY) >> 1) | 0x8000 == c
  {
  }

  lemma ShiftBack(c: bv16)
    requires !Top(c)
    ensures Shl(c) >> 1 == c
  {
  }

  lemma BitStepReverses(c: bv16)
    ensures BitUnstep(BitStep(c)) == c
  {
    hide Xor, Shl, Top, Odd;
    ShiftedParity(c);
    if Top(c) {
      ShiftBackTop(c);
    } else {
      ShiftBack(c);
    }
  }

  lemma {:induction false} BitsInjective(a: bv16, b: bv16, n: nat)
    requires Bits(a, n) == Bits(b, n)
    ensures a == b
  {
    hide BitStep, BitUnstep;
    if n > 0 {
      BitStepReverses(Bits(a, n - 1));
      BitStepReverses(Bits(b, n - 1));
      BitsInjective(a, b, n - 1);
    }
  }

  /** The same byte never merges two registers. */
  lemma ByteStepInjective(a: bv16, b: bv16, x: Byte)
    requires ByteStep(a, x) == ByteStep(b, x)
    ensures a == b
  {
    hide Xor, Bits, Wide;
    BitsInjective(Xor(a, Wide(x)), Xor(b, Wide(x)), 8);
    XorCancels(a, b, Wide(x));
  }

  // ---- Bursts of up to sixteen bits ----

  predicate LowClear(c: bv16) {
    c & 0xFF == 0
  }

  /** Eight shifts of a non-zero byte in the high half leave something in the low half. */
  lemma LowHalfRemembers(d: Byte)
    requires LowClear(Bits(Wide(d), 8))
    ensures d == 0
  {
    var c := Wide(d);
    var c1 := BitStep(c);
    var c2 := BitStep(c1);
    var c3 := BitStep(c2);
    var c4 := BitStep(c3);
    var c5 := BitStep(c4);
    var c6 := BitStep(c5);
    var c7 := BitStep(c6);
    var c8 := BitStep(c7);
    assert Bits(c, 1) == c1 && Bits(c, 2) == c2;
    assert Bits(c, 3) == c3 && Bits(c, 4) == c4;
    assert Bits(c, 5) == c5 && Bits(c, 6) == c6;
    assert Bits(c, 7) == c7 && Bits(c, 8) == c8;
  }

  lemma WideDifference(c: bv16, x: Byte, y: Byte)
    ensures Xor(Xor(c, Wide(x)), Xor(c, Wide(y))) == Wide(x ^ y)
    ensures x ^ y == 0 ==> x == y
  {
  }

  lemma WideClash(a: bv16, b: bv16, x: Byte, y: Byte)
    requires Xor(a, Wide(x)) == Xor(b, Wide(y))
    ensures LowClear(Xor(a, b)) && (a == b ==> x == y)
  {
  }

  /** The update is injective in each 16-bit word it takes in. */
  lemma WordInjective(c: bv16, x1: Byte, x2: Byte, y1: Byte, y2: Byte)
    requires ByteStep(ByteStep(c, x1), x2) == ByteStep(ByteStep(c, y1), y2)
    ensures x1 == y1 && x2 == y2
  {
    hide Xor, Bits, Wide, LowClear;
    var a, b := ByteStep(c, x1), ByteStep(c, y1);
    BitsInjective(Xor(a, Wide(x2)), Xor(b, Wide(y2)), 8);
    WideClash(a, b, x2, y2);
    BitsLinear(Xor(c, Wide(x1)), Xor(c, Wide(y1)), 8);
    WideDifference(c, x1, y1);
    LowHalfRemembers(x1 ^ y1);
  }

  /** Different registers stay different over any common tail. */
  lemma {:induction false} TailInjective(a: bv16, b: bv16, tail: seq<Byte>)
    requires Crc(a, tail) == Crc(b, tail)
    ensures a == b
  {
    hide ByteStep;
    if tail != [] {
      var front := tail[..|tail| - 1];
      ByteStepInjective(Crc(a, front), Crc(b, front), tail[|tail| - 1]);
      TailInjective(a, b, front);
    }
  }

  lemma {:induction false} CrcConcat(c: bv16, x: seq<Byte>, y: seq<Byte>)
    ensures Crc(c, x + y) == Crc(Crc(c, x), y)
  {
    hide ByteStep;
    if y == [] {
      assert x + y == x;
    } else {
      CrcConcat(c, x, y[..|y| - 1]);
      assert (x + y)[..|x + y| - 1] == x + y[..|y| - 1];
    }
  }

  lemma TwoBytes(c: bv16, x: Byte, y: Byte)
    ensures Crc(c, [x, y]) == ByteStep(ByteStep(c, x), y)
  {
    hide ByteStep;
    assert [x, y][..1] == [x] && [x][..0] == [];
    assert Crc(c, [x]) == ByteStep(Crc(c, []), x);
  }

  lemma AroundWord(c: bv16, s: seq<Byte>, k: nat)
    requires k + 1 < |s|
    ensures Crc(c, s) == Crc(ByteStep(ByteStep(Crc(c, s[..k]), s[k]), s[k + 1]), s[k + 2..])
  {
    hide ByteStep;
    assert s == s[..k] + [s[k], s[k + 1]] + s[k + 2..];
    CrcConcat(c, s[..k], [s[k], s[k + 1]]);
    CrcConcat(c, s[..k] + [s[k], s[k + 1]], s[k + 2..]);
    TwoBytes(Crc(c, s[..k]), s[k], s[k + 1]);
  }

  /** Any change confined to two adjacent bytes changes the check, wherever they are and
      however long the string is. */
  lemma BurstDetected(c: bv16, x: seq<Byte>, y: seq<Byte>, k: nat)
    requires |x| == |y| && k + 1 < |x|
    requires x[..k] == y[..k] && x[k + 2..] == y[k + 2..]
    requires Crc(c, x) == Crc(c, y)
    ensures x == y
  {
    hide ByteStep, Crc;
    AroundWord(c, x, k);
    AroundWord(c, y, k);
    var reg := Crc(c, x[..k]);
    TailInjective(ByteStep(ByteStep(reg, x[k]), x[k + 1]), ByteStep(ByteStep(reg, y[k]), y[k + 1]), x[k + 2..]);
    WordInjective(reg, x[k], x[k + 1], y[k], y[k + 1]);
    assert x == x[..k] + [x[k], x[k + 1]] + x[k + 2..];
    assert y == y[..k] + [y[k], y[k + 1]] + y[k + 2..];
  }

  predicate HighClear(c: bv16) {
    c >> 8 == 0
  }

  /** Of all the non-zero bytes exactly one leaves the high half clear. */
  lemma HighHalfForgets(d: Byte)
    ensures HighClear(Bits(Wide(d), 8)) ==> d == 0 || d == 0x89
    ensures d == 0x89 ==> Bits(Wide(d), 8) == 0xA1
    ensures d == 0 ==> Bits(Wide(d), 8) == 0
  {
    var c := Wide(d);
    var c1 := BitStep(c);
    var c2 := BitStep(c1);
    var c3 := BitStep(c2);
    var c4 := BitStep(c3);
    var c5 := BitStep(c4);
    var c6 := BitStep(c5);
    var c7 := BitStep(c6);
    var c8 := BitStep(c7);
    assert Bits(c, 1) == c1 && Bits(c, 2) == c2;
    assert Bits(c, 3) == c3 && Bits(c, 4) == c4;
    assert Bits(c, 5) == c5 && Bits(c, 6) == c6;
    assert Bits(c, 7) == c7 && Bits(c, 8) == c8;
  }

  /** What a change of the last byte does to the register. */
  lemma LastByteChange(c: bv16, s: seq<Byte>, x: Byte, y: Byte)
    ensures Xor(Crc(c, s + [x]), Crc(c, s + [y])) == Bits(Wide(x ^ y), 8)
  {
    hide Xor, Bits, Wide;
    var reg := Crc(c, s);
    assert (s + [x])[..|s|] == s && (s + [y])[..|s|] == s;
    BitsLinear(Xor(reg, Wide(x)), Xor(reg, Wide(y)), 8);
    WideDifference(reg, x, y);
  }

  // ---- A known answer ----

  /** One octet, bit by bit. */
  function Unrolled(c: bv16): bv16 {
    BitStep(BitStep(BitStep(BitStep(BitStep(BitStep(BitStep(BitStep(c))))))))
  }

  lemma EightBits(c: bv16)
    ensures Bits(c, 8) == Unrolled(c)
  {
    hide BitStep;
    forall n: nat ensures Bits(c, n + 1) == BitStep(Bits(c, n)) {
    }
    assert Bits(c, 0 + 1) == BitStep(c);
    assert Bits(c, 1 + 1) == BitStep(BitStep(c));
    assert Bits(c, 2 + 1) == BitStep(BitStep(BitStep(c)));
    assert Bits(c, 3 + 1) == BitStep(BitStep(BitStep(BitStep(c))));
    assert Bits(c, 4 + 1) == BitStep(Bits(c, 4)) && Bits(c, 5 + 1) == BitStep(Bits(c, 5));
    assert Bits(c, 6 + 1) == BitStep(Bits(c, 6)) && Bits(c, 7 + 1) == BitStep(Bits(c, 7));
  }

  /** The register one octet further. */
  lemma OneMore(data: seq<Byte>, b: Byte, was: bv16, now: bv16)
    requires Crc(INIT, data) == was && Unrolled(Xor(was, Wide(b))) == now
    ensures Crc(INIT, data + [b]) == now
  {
    hide BitStep, Xor, Wide;
    assert (data + [b])[..|data|] == data;
    EightBits(Xor(was, Wide(b)));
  }

  /** "123", "123456" and "123456789". */
  function Digits(n: nat): seq<Byte> {
    if n == 0 then [] else if n == 1 then [] + [0x31] + [0x32] + [0x33]
    else if n == 2 then Digits(1) + [0x34] + [0x35] + [0x36]
    else Digits(2) + [0x37] + [0x38] + [0x39]
  }

  lemma ThreeDigits()
    ensures Crc(INIT, Digits(1)) == 0x5BCE
  {
    OneMore([], 0x31, 0xFFFF, 0xC782);
    OneMore([] + [0x31], 0x32, 0xC782, 0x3DBA);
    OneMore([] + [0x31] + [0x32], 0x33, 0x3DBA, 0x5BCE);
  }

  lemma SixDigits()
    ensures Crc(INIT, Digits(2)) == 0x2EF4
  {
    hide Crc;
    ThreeDigits();
    OneMore(Digits(1), 0x34, 0x5BCE, 0x5349);
    OneMore(Digits(1) + [0x34], 0x35, 0x5349, 0x4560);
    OneMore(Digits(1) + [0x34] + [0x35], 0x36, 0x4560, 0x2EF4);
  }

  /** The register over the nine digits, the usual way to tell this check from its relatives. */
  lemma CheckValue()
    ensures Crc(INIT, Digits(3)) == 0x29B1
    ensures Digits(3) == [0x31, 0x32, 0x33, 0x34, 0x35, 0x36, 0x37, 0x38, 0x39]
  {
    hide Crc;
    SixDigits();
    OneMore(Digits(2), 0x37, 0x2EF4, 0x7718);
    OneMore(Digits(2) + [0x37], 0x38, 0x7718, 0xA12B);
    OneMore(Digits(2) + [0x37] + [0x38], 0x39, 0xA12B, 0x29B1);
  }
}
