/** Link frames: the body layout with its tag and its check, decoding, and forwarding. */
module Frame {
  import opened Types
  import opened Bytes
  import Crc16

  const VERSION := 1
  const HDR := 9
  const MAC_BYTES := 4
  const CRC_BYTES := 2
  const OVERHEAD := 15
  const BODY_MAX := 79
  const TTL_DEFAULT: U8 := 20

  const OFF_TTL := 1
  const OFF_LEN := 8

  /** The keyed hash, with the key already in it. */
  type Mac = seq<Byte> -> bv64

  datatype Frame = Frame(typ: U8, ttl: U8, src: U16, dst: U16, seqNo: U16, payload: seq<Byte>)

  /** Why a completed body is refused, or why an operation fails. */
  datatype Error = Trunc | CrcError | Version | Auth | Ttl | Invalid | NoSpace

  datatype Decoded = Good(frame: Frame, body: seq<Byte>) | Bad(why: Error)

  /** What the encoder accepts. */
  predicate Encodable(f: Frame) {
    |f.payload| <= MAX_PAYLOAD && f.typ <= 0x0F
  }

  function Header(f: Frame): (h: seq<Byte>)
    requires Encodable(f)
    ensures |h| == HDR
  {
    [ByteOf(VERSION * 16 + f.typ), ByteOf(f.ttl)]
      + Put16(f.src) + Put16(f.dst) + Put16(f.seqNo) + [ByteOf(|f.payload|)]
  }

  /** What the tag is computed over: everything but the hop limit. */
  function MacInput(covered: seq<Byte>): seq<Byte>
    requires |covered| >= 2
  {
    [covered[0]] + covered[2..]
  }

  function TagOf(covered: seq<Byte>, mac: Mac): (t: seq<Byte>)
    requires |covered| >= 2
    ensures |t| == MAC_BYTES
  {
    PutTag(mac(MacInput(covered)))
  }

  function Sealed(tagged: seq<Byte>): (b: seq<Byte>)
    ensures |b| == |tagged| + CRC_BYTES
  {
    tagged + PutWord(Crc16.Crc(Crc16.INIT, tagged))
  }

  function Covered(f: Frame): (c: seq<Byte>)
    requires Encodable(f)
    ensures |c| == HDR + |f.payload|
  {
    Header(f) + f.payload
  }

  /** The unstuffed body of a frame, its hop limit as given. */
  function Body(f: Frame, mac: Mac): (b: seq<Byte>)
    requires Encodable(f)
    ensures |b| == OVERHEAD + |f.payload| <= BODY_MAX
  {
    Sealed(Covered(f) + TagOf(Covered(f), mac))
  }

  /** What the encoder puts on the wire for a frame: hop limit 0 means the default. */
  function Outgoing(f: Frame): (r: Frame)
    ensures Encodable(f) ==> Encodable(r)
  {
    if f.ttl == 0 then f.(ttl := TTL_DEFAULT) else f
  }

  /** Nothing leaves a board without a hop: a limit of its own is kept, none means twenty. */
  lemma LeavesWithHops(f: Frame)
    ensures Outgoing(f).ttl > 0 && (f.ttl > 0 ==> Outgoing(f) == f) && (f.ttl == 0 ==> Outgoing(f) == f.(ttl := 20))
  {
  }

  predicate CrcHolds(body: seq<Byte>)
    requires |body| >= OVERHEAD
  {
    var n := |body| - CRC_BYTES;
    GetWord(body[n], body[n + 1]) == Crc16.Crc(Crc16.INIT, body[..n])
  }

  function FieldsOf(body: seq<Byte>): Frame
    requires |body| >= OVERHEAD
  {
    Frame(Val(body[0]) % 16, Val(body[OFF_TTL]), Get16(body[2], body[3]), Get16(body[4], body[5]),
          Get16(body[6], body[7]), body[HDR..|body| - MAC_BYTES - CRC_BYTES])
  }

  /** finish: validate a completed body. Without a key the tag is not looked at. */
  function Decode(body: seq<Byte>, key: Option<Mac>): Decoded {
    if |body| < OVERHEAD then Bad(Trunc)
    else if !CrcHolds(body) then Bad(CrcError)
    else if Val(body[OFF_LEN]) > MAX_PAYLOAD || OVERHEAD + Val(body[OFF_LEN]) != |body| then Bad(Trunc)
    else if Val(body[0]) / 16 != VERSION then Bad(Version)
    else
      var n := |body| - MAC_BYTES - CRC_BYTES;
      if key.Some? && TagOf(body[..n], key.value) != body[n..n + MAC_BYTES] then Bad(Auth)
      else Good(FieldsOf(body), body)
  }

  /** dhp_frame_forward_prepare. */
  function Forward(body: seq<Byte>): Decoded {
    if |body| < OVERHEAD then Bad(Trunc)
    else if Val(body[OFF_TTL]) <= 1 then Bad(Ttl)
    else
      var b := body[OFF_TTL := ByteOf(Val(body[OFF_TTL]) - 1)];
      Good(FieldsOf(b), Sealed(b[..|b| - CRC_BYTES]))
  }

  // ---- Encoding and decoding are inverse ----

  lemma HeaderFields(f: Frame, rest: seq<Byte>)
    requires Encodable(f) && |rest| >= MAC_BYTES + CRC_BYTES
    ensures var b := Header(f) + rest;
            && Val(b[0]) / 16 == VERSION && Val(b[0]) % 16 == f.typ && Val(b[OFF_TTL]) == f.ttl
            && Get16(b[2], b[3]) == f.src && Get16(b[4], b[5]) == f.dst && Get16(b[6], b[7]) == f.seqNo
            && Val(b[OFF_LEN]) == |f.payload|
  {
    hide Val, ByteOf, Get16, Put16;
    PutGet16(f.src);
    PutGet16(f.dst);
    PutGet16(f.seqNo);
  }

  /** Where everything is: numbers low octet first, the check over all before it. */
  lemma Layout(f: Frame, mac: Mac)
    requires Encodable(f)
    ensures var b, n := Body(f, mac), 9 + |f.payload|;
            && |b| == n + 6
            && Val(b[0]) == 0x10 + f.typ && Val(b[1]) == f.ttl
            && Val(b[2]) == f.src % 256 && Val(b[3]) == f.src / 256
            && Val(b[4]) == f.dst % 256 && Val(b[5]) == f.dst / 256
            && Val(b[6]) == f.seqNo % 256 && Val(b[7]) == f.seqNo / 256
            && Val(b[8]) == |f.payload| && b[9..n] == f.payload
            && b[n + 4..] == PutWord(Crc16.Crc(0xFFFF, b[..n + 4]))
  {
    hide Val, PutWord, Crc16.Crc, TagOf;
    var b, n := Body(f, mac), 9 + |f.payload|;
    assert b[..n + 4] == Covered(f) + TagOf(Covered(f), mac);
    assert b == Header(f) + (f.payload + TagOf(Covered(f), mac) + b[n + 4..]);
  }

  /** A body decodes to the frame it was built from, with or without the key. */
  lemma RoundTrip(f: Frame, mac: Mac)
    requires Encodable(f)
    ensures Decode(Body(f, mac), Some(mac)) == Good(f, Body(f, mac))
    ensures Decode(Body(f, mac), None) == Good(f, Body(f, mac))
  {
    hide Val, ByteOf, Get16, Put16, Header, PutWord, GetWord, Crc16.Crc, TagOf;
    var c, b := Covered(f), Body(f, mac);
    var tagged := c + TagOf(c, mac);
    PutGetWord(Crc16.Crc(Crc16.INIT, tagged));
    assert b[..|b| - CRC_BYTES] == tagged;
    var n := |b| - MAC_BYTES - CRC_BYTES;
    assert b[..n] == c && b[n..n + MAC_BYTES] == TagOf(c, mac);
    assert b == Header(f) + (f.payload + TagOf(c, mac) + PutWord(Crc16.Crc(Crc16.INIT, tagged)));
    HeaderFields(f, f.payload + TagOf(c, mac) + PutWord(Crc16.Crc(Crc16.INIT, tagged)));
    assert b[HDR..n] == f.payload;
  }

  lemma HeaderRebuilt(body: seq<Byte>)
    requires |body| >= OVERHEAD && Val(body[0]) / 16 == VERSION
    requires Val(body[OFF_LEN]) <= MAX_PAYLOAD && OVERHEAD + Val(body[OFF_LEN]) == |body|
    ensures Encodable(FieldsOf(body)) && Header(FieldsOf(body)) == body[..HDR]
  {
    hide Val, ByteOf, Get16, Put16;
    ByteOfVal(body[0]);
    ByteOfVal(body[OFF_TTL]);
    ByteOfVal(body[OFF_LEN]);
    GetPut16(body[2], body[3]);
    GetPut16(body[4], body[5]);
    GetPut16(body[6], body[7]);
  }

  /** What decodes under the key is a body the key's holders built, byte for byte. */
  lemma DecodeIsCanonical(body: seq<Byte>, mac: Mac)
    requires Decode(body, Some(mac)).Good?
    ensures var f := Decode(body, Some(mac)).frame; Encodable(f) && body == Body(f, mac)
  {
    hide Val, ByteOf, Get16, Put16, Header, PutWord, GetWord, Crc16.Crc, TagOf;
    var f := FieldsOf(body);
    HeaderRebuilt(body);
    var n := |body| - MAC_BYTES - CRC_BYTES;
    assert body[..n] == Covered(f);
    assert body[..n + MAC_BYTES] == Covered(f) + TagOf(Covered(f), mac);
    GetPutWord(body[n + MAC_BYTES], body[n + MAC_BYTES + 1]);
    assert body == body[..n + MAC_BYTES] + [body[n + MAC_BYTES], body[n + MAC_BYTES + 1]];
  }

  /** Damage confined to two adjacent octets before the check itself is always refused,
      and refused as line noise. */
  lemma BurstIsCrcError(f: Frame, mac: Mac, damaged: seq<Byte>, k: nat, key: Option<Mac>)
    requires Encodable(f) && |damaged| == |Body(f, mac)| && k + 1 < |damaged| - CRC_BYTES
    requires damaged[..k] == Body(f, mac)[..k] && damaged[k + 2..] == Body(f, mac)[k + 2..]
    requires damaged != Body(f, mac)
    ensures Decode(damaged, key) == Bad(CrcError)
  {
    hide Val, ByteOf, Get16, Put16, Header, PutWord, GetWord, Crc16.Crc, TagOf;
    var b := Body(f, mac);
    var n := |b| - CRC_BYTES;
    var tagged := Covered(f) + TagOf(Covered(f), mac);
    PutGetWord(Crc16.Crc(Crc16.INIT, tagged));
    assert b[..n] == tagged;
    assert damaged[n] == damaged[k + 2..][n - k - 2] && damaged[n + 1] == damaged[k + 2..][n + 1 - k - 2];
    var x, y := damaged[..n], b[..n];
    assert x[..k] == damaged[..k] && y[..k] == b[..k];
    assert x[k + 2..] == damaged[k + 2..][..n - k - 2] && y[k + 2..] == b[k + 2..][..n - k - 2];
    assert damaged == x + [damaged[n], damaged[n + 1]] && b == y + [b[n], b[n + 1]];
    if CrcHolds(damaged) {
      Crc16.BurstDetected(Crc16.INIT, x, y, k);
    }
  }

  /** The one burst that the check lets through: it straddles the end of what is covered, and
      is two fixed octets. The check is computed high bit first but stored low octet first. */
  predicate Slips(body: seq<Byte>, damaged: seq<Byte>, k: nat)
    requires |damaged| == |body| && k + 1 < |body|
  {
    k + 3 == |body| && Flips(body[k], damaged[k], body[k + 1], damaged[k + 1])
  }

  predicate Flips(x: Byte, x': Byte, y: Byte, y': Byte) {
    x' == x ^ 0x89 && y' == y ^ 0xA1
  }

  /** The first stored octet only reaches the low half. */
  lemma StoredLow(lo: Byte, lo': Byte, hi: Byte)
    ensures Crc16.HighClear(Crc16.Xor(GetWord(lo, hi), GetWord(lo', hi)))
  {
  }

  lemma StoredFlip(lo: Byte, hi: Byte)
    ensures GetWord(lo ^ 0xA1, hi) == Crc16.Xor(GetWord(lo, hi), 0xA1)
    ensures Crc16.Xor(GetWord(lo, hi), 0) == GetWord(lo, hi)
  {
  }

  lemma XorSwaps(a: bv16, b: bv16, d: bv16)
    requires Crc16.Xor(a, b) == d
    ensures a == Crc16.Xor(b, d)
  {
  }

  lemma OctetDifference(x: Byte, y: Byte)
    ensures x ^ y == 0 <==> x == y
    ensures x ^ y == 0x89 <==> x == y ^ 0x89
  {
  }

  /** Damage to the last covered octet and the first of the check. */
  lemma StraddlingBurst(good: seq<Byte>, last: Byte, last': Byte, lo: Byte, lo': Byte, hi: Byte)
    requires GetWord(lo, hi) == Crc16.Crc(Crc16.INIT, good + [last])
    ensures GetWord(lo', hi) == Crc16.Crc(Crc16.INIT, good + [last']) <==>
              (last' == last && lo' == lo) || Flips(last, last', lo, lo')
  {
    hide GetWord, Crc16.Crc, Crc16.Bits, Crc16.Wide, Crc16.Xor;
    var c, c' := Crc16.Crc(Crc16.INIT, good + [last]), Crc16.Crc(Crc16.INIT, good + [last']);
    var d := Crc16.Bits(Crc16.Wide(last' ^ last), 8);
    Crc16.LastByteChange(Crc16.INIT, good, last', last);
    XorSwaps(c', c, d);
    StoredLow(lo', lo, hi);
    StoredFlip(lo, hi);
    StoredIsExact(lo', hi, lo, hi);
    StoredIsExact(lo', hi, lo ^ 0xA1, hi);
    Crc16.HighHalfForgets(last' ^ last);
    OctetDifference(last', last);
  }

  lemma StoredIsExact(lo: Byte, hi: Byte, lo': Byte, hi': Byte)
    ensures GetWord(lo, hi) == GetWord(lo', hi') <==> lo == lo' && hi == hi'
  {
    hide GetWord, PutWord;
    GetPutWord(lo, hi);
    GetPutWord(lo', hi');
  }

  /** Any two adjacent octets of the whole body, check included: the damage is refused as line
      noise, but for the one burst that slips through. That one has hit the tag: a board with
      the key refuses it all the same, and a board without takes the frame as it was sent. */
  lemma BurstAnywhere(f: Frame, mac: Mac, damaged: seq<Byte>, k: nat, key: Option<Mac>)
    requires Encodable(f) && |damaged| == |Body(f, mac)| && k + 1 < |damaged|
    requires damaged[..k] == Body(f, mac)[..k] && damaged[k + 2..] == Body(f, mac)[k + 2..]
    requires damaged != Body(f, mac)
    ensures !Slips(Body(f, mac), damaged, k) <==> Decode(damaged, key) == Bad(CrcError)
    ensures Slips(Body(f, mac), damaged, k) ==>
              Decode(damaged, Some(mac)) == Bad(Auth) && Decode(damaged, None) == Good(f, damaged)
  {
    hide Body, Decode, CrcHolds;
    var b := Body(f, mac);
    if k + 1 < |b| - CRC_BYTES {
      BurstIsCrcError(f, mac, damaged, k, key);
    } else {
      BodyFront(f, mac);
      TrailerBurst(b, damaged, k);
      CrcDecides(damaged, key);
      if Slips(b, damaged, k) {
        SlipIsDamage(b[k]);
        SlippedBurst(f, mac, damaged);
      }
    }
  }

  lemma SlipIsDamage(x: Byte)
    ensures x ^ 0x89 != x
  {
  }

  lemma CrcDecides(body: seq<Byte>, key: Option<Mac>)
    requires |body| >= OVERHEAD
    ensures Decode(body, key) == Bad(CrcError) <==> !CrcHolds(body)
  {
    hide CrcHolds, TagOf, FieldsOf, Val;
  }

  /** What the check is computed over. */
  lemma BodyFront(f: Frame, mac: Mac)
    requires Encodable(f)
    ensures var b := Body(f, mac); b[..|b| - CRC_BYTES] == Covered(f) + TagOf(Covered(f), mac) && CrcHolds(b)
  {
    hide PutWord, GetWord, Crc16.Crc, TagOf, Covered;
    var tagged := Covered(f) + TagOf(Covered(f), mac);
    PutGetWord(Crc16.Crc(Crc16.INIT, tagged));
    assert Body(f, mac)[..|tagged|] == tagged;
  }

  lemma TrailerBurst(b: seq<Byte>, damaged: seq<Byte>, k: nat)
    requires |damaged| == |b| >= OVERHEAD && CrcHolds(b) && |b| - 3 <= k < |b| - 1
    requires damaged[..k] == b[..k] && damaged[k + 2..] == b[k + 2..] && damaged != b
    ensures CrcHolds(damaged) <==> Slips(b, damaged, k)
  {
    hide CrcHolds;
    if k + 2 == |b| {
      CheckBurst(b, damaged);
    } else {
      EdgeBurst(b, damaged);
    }
  }

  /** Both octets of the check. */
  lemma CheckBurst(b: seq<Byte>, damaged: seq<Byte>)
    requires |damaged| == |b| >= OVERHEAD && CrcHolds(b) && damaged != b
    requires damaged[..|b| - 2] == b[..|b| - 2]
    ensures !CrcHolds(damaged)
  {
    hide GetWord, Crc16.Crc;
    var n := |b| - CRC_BYTES;
    StoredIsExact(damaged[n], damaged[n + 1], b[n], b[n + 1]);
    assert damaged == damaged[..n] + [damaged[n], damaged[n + 1]] && b == b[..n] + [b[n], b[n + 1]];
  }

  /** One octet on each side of where the check begins. */
  lemma EdgeBurst(b: seq<Byte>, damaged: seq<Byte>)
    requires |damaged| == |b| >= OVERHEAD && CrcHolds(b) && damaged != b
    requires damaged[..|b| - 3] == b[..|b| - 3] && damaged[|b| - 1..] == b[|b| - 1..]
    ensures CrcHolds(damaged) <==> Slips(b, damaged, |b| - 3)
  {
    hide GetWord, Crc16.Crc, CrcHolds, Flips;
    var n, k := |b| - CRC_BYTES, |b| - 3;
    var good := b[..k];
    TailOf(b);
    TailOf(damaged);
    assert damaged[n + 1] == damaged[n + 1..][0] && b[n + 1] == b[n + 1..][0];
    StraddlingBurst(good, b[k], damaged[k], b[n], damaged[n], b[n + 1]);
  }

  /** A body by its last three octets. */
  lemma TailOf(b: seq<Byte>)
    requires |b| >= OVERHEAD
    ensures var n, k := |b| - CRC_BYTES, |b| - 3;
            && b == b[..k] + [b[k], b[n], b[n + 1]]
            && (CrcHolds(b) <==> GetWord(b[n], b[n + 1]) == Crc16.Crc(Crc16.INIT, b[..k] + [b[k]]))
  {
    hide GetWord, Crc16.Crc;
    assert b[..|b| - CRC_BYTES] == b[..|b| - 3] + [b[|b| - 3]];
  }

  /** The slipped burst has damaged the last octet of the tag and nothing the frame is read from. */
  lemma SlippedBurst(f: Frame, mac: Mac, damaged: seq<Byte>)
    requires Encodable(f) && |damaged| == |Body(f, mac)|
    requires damaged[..|damaged| - 3] == Body(f, mac)[..|damaged| - 3]
    requires damaged[|damaged| - 3] != Body(f, mac)[|damaged| - 3] && CrcHolds(damaged)
    ensures Decode(damaged, Some(mac)) == Bad(Auth) && Decode(damaged, None) == Good(f, damaged)
  {
    hide Val, ByteOf, Get16, Put16, Header, PutWord, GetWord, Crc16.Crc, TagOf, CrcHolds;
    var b := Body(f, mac);
    RoundTrip(f, mac);
    var n := |b| - MAC_BYTES - CRC_BYTES;
    var front := |b| - 3;
    assert forall i :: 0 <= i < front ==> damaged[i] == damaged[..front][i] == b[..front][i] == b[i];
    assert damaged[..n] == b[..n] == Covered(f);
    assert FieldsOf(damaged) == FieldsOf(b) by { assert damaged[HDR..n] == b[HDR..n]; }
    assert b[n..n + MAC_BYTES] == TagOf(Covered(f), mac);
    assert damaged[n..n + MAC_BYTES][3] == damaged[front] && b[n..n + MAC_BYTES][3] == b[front];
  }

  // ---- Forwarding ----

  /** Forwarding a genuine body is exactly rebuilding it with one hop fewer: the tag, which
      never covered the hop limit, is the originator's. The last hop is refused. */
  lemma ForwardCountsDown(f: Frame, mac: Mac)
    requires Encodable(f)
    ensures f.ttl <= 1 ==> Forward(Body(f, mac)) == Bad(Ttl)
    ensures f.ttl > 1 ==> Forward(Body(f, mac)) == Good(f.(ttl := f.ttl - 1), Body(f.(ttl := f.ttl - 1), mac))
  {
    hide Val, ByteOf, Get16, Put16, PutWord, GetWord, Crc16.Crc, TagOf, Covered, CrcHolds, FieldsOf, Sealed;
    RoundTrip(f, mac);
    TtlIsRead(f, mac);
    if f.ttl > 1 {
      var g := f.(ttl := f.ttl - 1);
      FrontChanges(f, g, mac);
      RoundTrip(g, mac);
      BodyFront(g, mac);
      SameFields(Body(f, mac)[OFF_TTL := ByteOf(g.ttl)], Body(g, mac));
    }
  }

  lemma TtlIsRead(f: Frame, mac: Mac)
    requires Encodable(f)
    ensures Val(Body(f, mac)[OFF_TTL]) == f.ttl
  {
    hide Val, ByteOf, Get16, Put16, PutWord, GetWord, Crc16.Crc, TagOf, CrcHolds;
    RoundTrip(f, mac);
  }

  /** All that is covered is rebuilt by changing the one octet. */
  lemma FrontChanges(f: Frame, g: Frame, mac: Mac)
    requires Encodable(f) && g == f.(ttl := g.ttl)
    ensures var b := Body(f, mac)[OFF_TTL := ByteOf(g.ttl)];
            b[..|b| - CRC_BYTES] == Covered(g) + TagOf(Covered(g), mac)
  {
    hide Val, ByteOf, PutWord, Crc16.Crc, TagOf, Covered, CrcHolds, Sealed;
    BodyFront(f, mac);
    OnlyTtlChanges(f, g, mac);
    var b, n := Body(f, mac), |Body(f, mac)| - CRC_BYTES;
    assert b[OFF_TTL := ByteOf(g.ttl)][..n] == b[..n][OFF_TTL := ByteOf(g.ttl)];
    assert (Covered(f) + TagOf(Covered(f), mac))[OFF_TTL := ByteOf(g.ttl)] ==
      Covered(f)[OFF_TTL := ByteOf(g.ttl)] + TagOf(Covered(f), mac);
  }

  lemma OnlyTtlChanges(f: Frame, g: Frame, mac: Mac)
    requires Encodable(f) && g == f.(ttl := g.ttl)
    ensures Covered(f)[OFF_TTL := ByteOf(g.ttl)] == Covered(g)
    ensures TagOf(Covered(f), mac) == TagOf(Covered(g), mac)
  {
    hide ByteOf, Put16, PutTag;
    assert Covered(f)[OFF_TTL := ByteOf(g.ttl)] == Covered(g);
    assert MacInput(Covered(g)) == MacInput(Covered(f));
  }

  lemma SameFields(x: seq<Byte>, y: seq<Byte>)
    requires |x| == |y| >= OVERHEAD && x[..|x| - CRC_BYTES] == y[..|y| - CRC_BYTES]
    ensures FieldsOf(x) == FieldsOf(y)
  {
    hide Val, Get16;
    var n := |x| - CRC_BYTES;
    assert forall i :: 0 <= i < n ==> x[i] == x[..n][i] == y[..n][i] == y[i];
    assert x[HDR..n - MAC_BYTES] == x[..n][HDR..n - MAC_BYTES] == y[HDR..n - MAC_BYTES];
  }

  /** k forwards in a row. */
  function ForwardTimes(body: seq<Byte>, k: nat): Decoded {
    if k == 0 then Decode(body, None)
    else
      var d := ForwardTimes(body, k - 1);
      if d.Bad? then d else Forward(d.body)
  }

  /** After any k < ttl hops everything but the hop limit has survived, tag included, and
      hop number ttl is refused, so every relay chain ends. */
  lemma {:induction false} ForwardingEnds(f: Frame, mac: Mac, k: nat)
    requires Encodable(f) && f.ttl > 0
    ensures k < f.ttl ==>
              var g := f.(ttl := f.ttl - k);
              && ForwardTimes(Body(f, mac), k) == Good(g, Body(g, mac))
              && Decode(Body(g, mac), Some(mac)) == Good(g, Body(g, mac))
    ensures k >= f.ttl ==> ForwardTimes(Body(f, mac), k) == Bad(Ttl)
  {
    hide Body, Decode, Forward;
    if k == 0 {
      RoundTrip(f, mac);
    } else {
      ForwardingEnds(f, mac, k - 1);
      if k <= f.ttl {
        ForwardCountsDown(f.(ttl := f.ttl - (k - 1)), mac);
      }
      if k < f.ttl {
        RoundTrip(f.(ttl := f.ttl - k), mac);
      }
    }
  }

  // ---- What the tag protects ----

  /** All but the hop limit: the octet at index 1 is passed over, nothing else is. */
  function AllButHops(covered: seq<Byte>): seq<Byte>
    requires |covered| >= HDR
  {
    covered[..OFF_TTL] + covered[OFF_TTL + 1..]
  }

  predicate SameButHops(x: seq<Byte>, y: seq<Byte>)
    requires |x| == |y|
  {
    forall i :: 0 <= i < |x| && i != OFF_TTL ==> x[i] == y[i]
  }

  lemma SameInput(x: seq<Byte>, y: seq<Byte>)
    requires |x| == |y| >= HDR
    ensures AllButHops(x) == AllButHops(y) <==> SameButHops(x, y)
  {
    var p, q := AllButHops(x), AllButHops(y);
    if p == q {
      forall i | 0 <= i < |x| && i != OFF_TTL ensures x[i] == y[i] {
        assert x[i] == p[if i < OFF_TTL then i else i - 1] && y[i] == q[if i < OFF_TTL then i else i - 1];
      }
    }
  }

  /** The tag is the low half of the hash of exactly those octets, low octet first. */
  lemma TagIsOfAllButHops(covered: seq<Byte>, mac: Mac)
    requires |covered| >= HDR
    ensures TagOf(covered, mac) == PutTag(mac(AllButHops(covered)))
  {
    assert MacInput(covered) == AllButHops(covered);
  }

  /** A hash that tells one input from all others. */
  function Telling(input: seq<Byte>): Mac {
    (x: seq<Byte>) => if x == input then 1 else 0
  }

  /** Two frames of one length share their tag under every hash if and only if they differ in
      nothing but the hop limit. */
  lemma TagBindsAllButHops(x: seq<Byte>, y: seq<Byte>)
    requires |x| == |y| >= HDR
    ensures (forall mac: Mac :: TagOf(x, mac) == TagOf(y, mac)) <==> SameButHops(x, y)
  {
    hide PutTag;
    SameInput(x, y);
    forall mac: Mac ensures TagOf(x, mac) == PutTag(mac(AllButHops(x))) && TagOf(y, mac) == PutTag(mac(AllButHops(y))) {
      TagIsOfAllButHops(x, mac);
      TagIsOfAllButHops(y, mac);
    }
    if !SameButHops(x, y) {
      assert TagOf(x, Telling(AllButHops(x))) != TagOf(y, Telling(AllButHops(x))) by { TagsDiffer(); }
    }
  }

  lemma TagsDiffer()
    ensures PutTag(1) != PutTag(0)
  {
    assert PutTag(1)[0] != PutTag(0)[0];
  }

  function Low32(m: bv64): bv64 {
    m & 0xFFFF_FFFF
  }

  lemma TagIsLow32(m: bv64, n: bv64)
    requires PutTag(m) == PutTag(n)
    ensures Low32(m) == Low32(n)
  {
    var s, t := PutTag(m), PutTag(n);
    assert s[0] == t[0] && s[1] == t[1] && s[2] == t[2] && s[3] == t[3];
  }

  /** Forging needs a collision: a body that decodes under the key with the tag of a genuine frame,
      but is not that frame with another hop limit, shows two inputs that the keyed hash cannot
      tell apart in its low half. */
  lemma ForgeryNeedsCollision(f: Frame, mac: Mac, body: seq<Byte>)
    requires Encodable(f) && Decode(body, Some(mac)).Good?
    requires var b := Body(f, mac);
             && body[|body| - 6..|body| - 2] == b[|b| - 6..|b| - 2]
             && (|body| == |b| ==> !SameButHops(body[..|body| - 6], b[..|b| - 6]))
    ensures var b := Body(f, mac);
            var p, q := AllButHops(body[..|body| - 6]), AllButHops(b[..|b| - 6]);
            p != q && Low32(mac(p)) == Low32(mac(q))
  {
    hide Val, ByteOf, Get16, Put16, Header, PutWord, GetWord, Crc16.Crc, TagOf, PutTag, Low32;
    var b := Body(f, mac);
    RoundTrip(f, mac);
    var x, y := body[..|body| - 6], b[..|b| - 6];
    if |x| == |y| {
      SameInput(x, y);
    }
    TagIsOfAllButHops(x, mac);
    TagIsOfAllButHops(y, mac);
    TagIsLow32(mac(AllButHops(x)), mac(AllButHops(y)));
  }

  /** With an intact check and layout, the key's holders accept exactly the tag of those octets. */
  lemma AcceptedIffTagged(body: seq<Byte>, mac: Mac)
    requires Decode(body, None).Good?
    ensures var n := |body| - 6;
            Decode(body, Some(mac)).Good? <==> body[n..n + 4] == PutTag(mac(AllButHops(body[..n])))
  {
    hide Val, Get16, GetWord, Crc16.Crc, TagOf, PutTag;
    TagIsOfAllButHops(body[..|body| - 6], mac);
  }
}
