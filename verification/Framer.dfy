/** The encoder and the per-port decoder as they run: buffers filled and edited in place. */
module Framer {
  import opened Types
  import opened Bytes
  import opened Frame
  import opened Framing
  import Crc16

  datatype Written = Wrote(n: nat) | Refused(why: Error)

  /** emit: one octet, stuffed, if it fits. */
  method Emit(out: array<Byte>, n: nat, b: Byte) returns (ok: bool, m: nat)
    requires n <= out.Length
    modifies out
    ensures ok <==> n + |StuffOne(b)| <= out.Length
    ensures ok ==> m == n + |StuffOne(b)| && out[..m] == old(out[..n]) + StuffOne(b)
    ensures !ok ==> m == n && out[..] == old(out[..])
  {
    hide Flip;
    if Special(b) {
      if n + 2 > out.Length {
        return false, n;
      }
      out[n] := ESC;
      out[n + 1] := Flip(b);
      return true, n + 2;
    }
    if n + 1 > out.Length {
      return false, n;
    }
    out[n] := b;
    return true, n + 1;
  }

  /** dhp_frame_encode: the stuffed frame fits the buffer or the call says so. */
  method Encode(f: Frame, mac: Mac, out: array<Byte>) returns (r: Written)
    modifies out
    ensures r == Refused(Invalid) <==> !Encodable(f)
    ensures Encodable(f) ==>
              var wire := Wire(Body(Outgoing(f), mac));
              && (out.Length < |wire| ==> r == Refused(NoSpace))
              && (out.Length >= |wire| ==> r == Wrote(|wire|) && out[..|wire|] == wire)
  {
    hide Body, Stuff, StuffOne, Outgoing;
    if |f.payload| > MAX_PAYLOAD || f.typ > 0x0F {
      return Refused(Invalid);
    }
    var body := BuildBody(Outgoing(f), mac);
    if out.Length < 1 {
      return Refused(NoSpace);
    }
    out[0] := FLAG;
    var n := 1;
    StuffEnds(body);
    for i := 0 to |body|
      invariant n <= out.Length && n == 1 + |Stuff(body[..i])|
      invariant out[..n] == [FLAG] + Stuff(body[..i])
    {
      StuffGrows(body, i);
      var ok, m := Emit(out, n, body[i]);
      if !ok {
        return Refused(NoSpace);
      }
      n := m;
    }
    if n + 1 > out.Length {
      return Refused(NoSpace);
    }
    out[n] := FLAG;
    n := n + 1;
    return Wrote(n);
  }

  lemma StuffEnds(body: seq<Byte>)
    ensures Stuff(body[..0]) == [] && Stuff(body[..|body|]) == Stuff(body)
  {
    assert body[..|body|] == body;
  }

  /** A longer body never stuffs shorter. */
  lemma {:induction false} StuffGrows(body: seq<Byte>, i: nat)
    requires i < |body|
    ensures Stuff(body[..i + 1]) == Stuff(body[..i]) + StuffOne(body[i])
    ensures |Stuff(body[..i + 1])| <= |Stuff(body)|
    decreases |body| - i
  {
    assert body[..i + 1][..i] == body[..i];
    if i + 1 == |body| {
      assert body[..i + 1] == body;
    } else {
      StuffGrows(body, i + 1);
    }
  }

  method BuildBody(f: Frame, mac: Mac) returns (body: seq<Byte>)
    requires Encodable(f)
    ensures body == Body(f, mac)
  {
    hide Header, TagOf, PutWord, Crc16.Crc;
    body := Header(f) + f.payload;
    body := body + TagOf(body, mac);
    var crc := Crc16.Update(Crc16.INIT, body);
    body := body + PutWord(crc);
  }

  /** The re-stuffing of a relay: the body goes back on the wire as it is. */
  method Restuff(body: seq<Byte>) returns (wire: seq<Byte>)
    ensures wire == Wire(body)
  {
    wire := [FLAG];
    for i := 0 to |body|
      invariant wire == [FLAG] + Stuff(body[..i])
    {
      assert body[..i + 1][..i] == body[..i];
      if Special(body[i]) {
        wire := wire + [ESC, Flip(body[i])];
      } else {
        wire := wire + [body[i]];
      }
    }
    assert body[..|body|] == body;
    wire := wire + [FLAG];
  }

  /** dhp_frame_forward_prepare, in place. */
  method ForwardPrepare(body: array<Byte>) returns (r: Option<Error>)
    modifies body
    ensures r.None? <==> Forward(old(body[..])).Good?
    ensures r.None? ==> body[..] == Forward(old(body[..])).body
    ensures r.Some? ==> r.value == Forward(old(body[..])).why
    ensures r.Some? ==>
              body[..] == if |old(body[..])| >= OVERHEAD && Val(old(body[..])[OFF_TTL]) > 0
                          then old(body[..])[OFF_TTL := ByteOf(Val(old(body[..])[OFF_TTL]) - 1)] else old(body[..])
  {
    hide Val, ByteOf, PutWord, Crc16.Crc, FieldsOf;
    if body.Length < OVERHEAD {
      return Some(Trunc);
    }
    var ttl := Val(body[OFF_TTL]);
    if ttl == 0 {
      return Some(Ttl);
    }
    body[OFF_TTL] := ByteOf(ttl - 1);
    if Val(body[OFF_TTL]) == 0 {
      return Some(Ttl);
    }
    var n := body.Length - CRC_BYTES;
    ghost var b := old(body[..])[OFF_TTL := ByteOf(ttl - 1)];
    assert body[..] == b;
    assert body[..n] == b[..n];
    var crc := Crc16.Update(Crc16.INIT, body[..n]);
    var two := PutWord(crc);
    body[n] := two[0];
    body[n + 1] := two[1];
    assert body[..] == b[..n] + two;
    return None;
  }

  /** dhp_framer_t. */
  class Framer {
    const body: array<Byte>
    var bodyLen: nat
    var inFrame: bool
    var escaped: bool
    var overflow: bool
    var nOk: nat
    var nCrcErr: nat
    var nAuthErr: nat
    var nOverflow: nat

    ghost predicate Valid()
      reads this
    {
      body.Length == BODY_MAX && bodyLen <= BODY_MAX
    }

    ghost function Abs(): (d: Dec)
      requires Valid()
      reads this, body
      ensures Sane(d)
    {
      Dec(body[..bodyLen], inFrame, escaped, overflow)
    }

    constructor ()
      ensures Valid() && fresh(body) && Abs() == FRESH
      ensures nOk == nCrcErr == nAuthErr == nOverflow == 0
    {
      body := new Byte[BODY_MAX];
      bodyLen, inFrame, escaped, overflow := 0, false, false, false;
      nOk, nCrcErr, nAuthErr, nOverflow := 0, 0, 0, 0;
    }

    /** dhp_framer_init on a port that has gone quiet. */
    method Reset()
      requires Valid()
      modifies this
      ensures Valid() && Abs() == FRESH && nOk == nCrcErr == nAuthErr == nOverflow == 0
    {
      bodyLen, inFrame, escaped, overflow := 0, false, false, false;
      nOk, nCrcErr, nAuthErr, nOverflow := 0, 0, 0, 0;
    }

    /** finish. */
    method Finish(key: Option<Mac>) returns (r: Decoded)
      requires Valid()
      modifies this`nOk, this`nCrcErr, this`nAuthErr
      ensures r == Decode(body[..bodyLen], key)
      ensures nOk == old(nOk) + (if r.Good? then 1 else 0)
      ensures nCrcErr == old(nCrcErr) + (if r == Bad(CrcError) then 1 else 0)
      ensures nAuthErr == old(nAuthErr) + (if r == Bad(Auth) then 1 else 0)
    {
      hide Val, Get16, GetWord, Crc16.Crc, TagOf;
      var b := body[..bodyLen];
      if bodyLen < OVERHEAD {
        return Bad(Trunc);
      }
      var n := bodyLen - CRC_BYTES;
      var crc := Crc16.Update(Crc16.INIT, b[..n]);
      if GetWord(b[n], b[n + 1]) != crc {
        nCrcErr := nCrcErr + 1;
        return Bad(CrcError);
      }
      var len := Val(b[OFF_LEN]);
      if len > MAX_PAYLOAD || HDR + len + MAC_BYTES + CRC_BYTES != bodyLen {
        return Bad(Trunc);
      }
      if Val(b[0]) / 16 != VERSION {
        return Bad(Version);
      }
      if key.Some? {
        var covered := bodyLen - MAC_BYTES - CRC_BYTES;
        if TagOf(b[..covered], key.value) != b[covered..covered + MAC_BYTES] {
          nAuthErr := nAuthErr + 1;
          return Bad(Auth);
        }
      }
      nOk := nOk + 1;
      return Good(FieldsOf(b), b);
    }

    /** dhp_framer_push. */
    method Push(byte: Byte, key: Option<Mac>) returns (r: Option<Decoded>)
      requires Valid()
      modifies this, body
      ensures Valid()
      ensures Abs() == Framing.Push(old(Abs()), byte) && r == Report(old(Abs()), byte, key)
      ensures nOk == old(nOk) + (if r.Some? && r.value.Good? then 1 else 0)
      ensures nCrcErr == old(nCrcErr) + (if r == Some(Bad(CrcError)) then 1 else 0)
      ensures nAuthErr == old(nAuthErr) + (if r == Some(Bad(Auth)) then 1 else 0)
      ensures nOverflow == old(nOverflow) + (if byte == FLAG && old(overflow) then 1 else 0)
    {
      hide Decode, Flip;
      if byte == FLAG {
        r := None;
        if inFrame && !overflow && bodyLen > 0 {
          var d := Finish(key);
          r := Some(d);
        } else if overflow {
          nOverflow := nOverflow + 1;
        }
        inFrame, escaped, overflow, bodyLen := true, false, false, 0;
        return;
      }
      if !inFrame || overflow {
        return None;
      }
      if byte == ESC {
        escaped := true;
        return None;
      }
      var b := byte;
      if escaped {
        escaped := false;
        b := Flip(byte);
      }
      if bodyLen >= BODY_MAX {
        overflow := true;
        return None;
      }
      body[bodyLen] := b;
      bodyLen := bodyLen + 1;
      return None;
    }
  }
}
