/** The end-to-end checksum of a transfer: Adler-32 as section 2.2 of RFC 1950 defines
    it, and the one-subtraction loop that computes it a chunk at a time. */
module Adler {
  import opened Types

  const MOD := 65521

  /** A checksum word, as its two 16-bit halves. */
  datatype Sum = Sum(low: U16, high: U16)

  const INIT := Sum(1, 0)

  /** s1 of RFC 1950: the start value plus all bytes, not reduced. */
  function S1(a: nat, data: seq<Byte>): nat {
    if data == [] then a else S1(a, data[..|data| - 1]) + data[|data| - 1] as nat
  }

  /** s2 of RFC 1950: the start value plus every intermediate s1, not reduced. */
  function S2(a: nat, b: nat, data: seq<Byte>): nat {
    if data == [] then b else S2(a, b, data[..|data| - 1]) + S1(a, data)
  }

  /** Both halves of a word are residues modulo 65521. */
  predicate Reduced(s: Sum) {
    s.low < MOD && s.high < MOD
  }

  /** Continuing from a word over more data, by the modular definition. */
  function Continue(s: Sum, data: seq<Byte>): (r: Sum)
    ensures Reduced(r)
  {
    Sum(S1(s.low, data) % MOD, S2(s.low, s.high, data) % MOD)
  }

  /** The checksum of a content. */
  function Checksum(data: seq<Byte>): (r: Sum)
    ensures Reduced(r)
  {
    Continue(INIT, data)
  }

  /** Adding two residues, subtracting the modulus at most once. */
  function AddOnce(x: nat, y: nat): nat
    requires x < MOD && y < MOD
  {
    if x + y >= MOD then x + y - MOD else x + y
  }

  lemma AddOnceReduces(x: nat, y: nat)
    ensures AddOnce(x % MOD, y % MOD) == (x + y) % MOD
  {
    var r := AddOnce(x % MOD, y % MOD);
    var q := x / MOD + y / MOD + if x % MOD + y % MOD >= MOD then 1 else 0;
    assert x + y == MOD * q + r;
    Remainder(x + y, q, r);
  }

  lemma Remainder(z: nat, q: nat, r: nat)
    requires z == MOD * q + r && r < MOD
    ensures z % MOD == r
  {
  }

  /** One byte more moves each residue by one conditional subtraction. */
  lemma S1Step(a: nat, data: seq<Byte>, i: nat)
    requires i < |data|
    ensures S1(a, data[..i + 1]) % MOD == AddOnce(S1(a, data[..i]) % MOD, data[i] as nat)
  {
    assert data[..i + 1][..i] == data[..i];
    assert S1(a, data[..i + 1]) == S1(a, data[..i]) + data[i] as nat;
    AddByte(S1(a, data[..i]), data[i] as nat);
  }

  lemma AddByte(x: nat, d: nat)
    requires d < 256
    ensures (x + d) % MOD == AddOnce(x % MOD, d)
  {
    AddOnceReduces(x, d);
  }

  lemma S2Step(a: nat, b: nat, data: seq<Byte>, i: nat)
    requires i < |data|
    ensures S2(a, b, data[..i + 1]) % MOD == AddOnce(S2(a, b, data[..i]) % MOD, S1(a, data[..i + 1]) % MOD)
  {
    assert data[..i + 1][..i] == data[..i];
    AddOnceReduces(S2(a, b, data[..i]), S1(a, data[..i + 1]));
  }

  /** adler32_update: one conditional subtraction per addition is a full reduction. */
  method Update(s: Sum, data: seq<Byte>) returns (r: Sum)
    requires Reduced(s)
    ensures r == Continue(s, data)
  {
    var a: nat, b: nat := s.low, s.high;
    for i := 0 to |data|
      invariant a < MOD && b < MOD
      invariant a == S1(s.low, data[..i]) % MOD
      invariant b == S2(s.low, s.high, data[..i]) % MOD
    {
      S1Step(s.low, data, i);
      S2Step(s.low, s.high, data, i);
      a := a + data[i] as nat;
      if a >= MOD {
        a := a - MOD;
      }
      b := b + a;
      if b >= MOD {
        b := b - MOD;
      }
    }
    assert data[..|data|] == data;
    r := Sum(a, b);
  }

  /** Only the residues of the start values matter. */
  lemma {:induction false} Congruence(a: nat, b: nat, data: seq<Byte>)
    ensures S1(a % MOD, data) % MOD == S1(a, data) % MOD
    ensures S2(a % MOD, b % MOD, data) % MOD == S2(a, b, data) % MOD
  {
    if data != [] {
      var front, d := data[..|data| - 1], data[|data| - 1] as nat;
      Congruence(a, b, front);
      AddOnceReduces(S1(a % MOD, front), d);
      AddOnceReduces(S1(a, front), d);
      AddOnceReduces(S2(a % MOD, b % MOD, front), S1(a % MOD, data));
      AddOnceReduces(S2(a, b, front), S1(a, data));
    }
  }

  lemma {:induction false} Concatenation(a: nat, b: nat, x: seq<Byte>, y: seq<Byte>)
    ensures S1(a, x + y) == S1(S1(a, x), y)
    ensures S2(a, b, x + y) == S2(S1(a, x), S2(a, b, x), y)
  {
    if y == [] {
      assert x + y == x;
    } else {
      Concatenation(a, b, x, y[..|y| - 1]);
      assert (x + y)[..|x + y| - 1] == x + y[..|y| - 1];
    }
  }

  /** Folding a content in piece by piece gives the checksum of the whole: the
      receiver, which never holds the content, computes what the sender declared. */
  lemma ChunkwiseIsWhole(s: Sum, done: seq<Byte>, chunk: seq<Byte>)
    ensures Continue(Continue(s, done), chunk) == Continue(s, done + chunk)
  {
    Congruence(S1(s.low, done), S2(s.low, s.high, done), chunk);
    Concatenation(s.low, s.high, done, chunk);
  }

  // ---- Known answers ----

  lemma {:induction false} S1OfRun(a: nat, v: Byte, n: nat)
    ensures S1(a, seq(n, _ => v)) == a + n * (v as nat)
  {
    var run := seq(n, _ => v);
    if n > 0 {
      assert run[..n - 1] == seq(n - 1, _ => v);
      S1OfRun(a, v, n - 1);
      OneTermMore(n, v as nat);
    }
  }

  lemma OneTermMore(n: nat, v: nat)
    requires n > 0
    ensures n * v == (n - 1) * v + v
  {
  }

  /** The low half of 257 octets of all ones, the shortest such run that wraps it. */
  lemma LowCheckValue()
    ensures Checksum(seq(257, _ => 0xFF)).low == 15
  {
    S1OfRun(1, 0xFF, 257);
  }

  /** And a whole word: "abc". */
  lemma CheckValue()
    ensures Checksum([0x61, 0x62, 0x63]) == Sum(0x127, 0x24D)
  {
    var abc: seq<Byte> := [0x61, 0x62, 0x63];
    assert abc[..2] == [0x61, 0x62] && abc[..2][..1] == [0x61] && abc[..2][..1][..0] == [];
    assert S1(1, abc[..2][..1]) == 98 && S1(1, abc[..2]) == 196 && S1(1, abc) == 295;
    assert S2(1, 0, abc[..2][..1]) == 98 && S2(1, 0, abc[..2]) == 294;
  }
}
