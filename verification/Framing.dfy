/** Octet stuffing (section 4.2 of RFC 1662) and the streaming decoder, as functions of
    the decoder's state. */
module Framing {
  import opened Types
  import opened Bytes
  import opened Frame

  const FLAG: Byte := 0x7E
  const ESC: Byte := 0x7D

  function Flip(b: Byte): Byte {
    b ^ 0x20
  }

  predicate Special(b: Byte) {
    b == FLAG || b == ESC
  }

  /** One body octet as the wire carries it. */
  function StuffOne(b: Byte): seq<Byte> {
    if Special(b) then [ESC, Flip(b)] else [b]
  }

  function Stuff(body: seq<Byte>): (s: seq<Byte>)
    ensures |s| <= 2 * |body|
  {
    if body == [] then [] else Stuff(body[..|body| - 1]) + StuffOne(body[|body| - 1])
  }

  /** A body between its two flags. */
  function Wire(body: seq<Byte>): (w: seq<Byte>)
    ensures |w| <= 2 * |body| + 2
  {
    [FLAG] + Stuff(body) + [FLAG]
  }

  /** The decoder's state, counters aside. */
  datatype Dec = Dec(body: seq<Byte>, inFrame: bool, escaped: bool, overflow: bool)

  const FRESH := Dec([], false, false, false)
  const SYNCED := Dec([], true, false, false)

  predicate Sane(d: Dec) {
    |d.body| <= BODY_MAX
  }

  /** What one flag makes of the octets collected so far. */
  function Close(d: Dec, key: Option<Mac>): Option<Decoded> {
    if d.inFrame && !d.overflow && |d.body| > 0 then Some(Decode(d.body, key)) else None
  }

  /** dhp_framer_push, the state. */
  function Push(d: Dec, b: Byte): (r: Dec)
    requires Sane(d)
    ensures Sane(r)
  {
    if b == FLAG then SYNCED
    else if !d.inFrame || d.overflow then d
    else if b == ESC then d.(escaped := true)
    else
      var c := if d.escaped then Flip(b) else b;
      if |d.body| >= BODY_MAX then d.(escaped := false, overflow := true)
      else d.(escaped := false, body := d.body + [c])
  }

  /** dhp_framer_push, what it reports. */
  function Report(d: Dec, b: Byte, key: Option<Mac>): Option<Decoded> {
    if b == FLAG then Close(d, key) else None
  }

  function Feed(d: Dec, bytes: seq<Byte>): (r: Dec)
    requires Sane(d)
    ensures Sane(r)
  {
    if bytes == [] then d else Push(Feed(d, bytes[..|bytes| - 1]), bytes[|bytes| - 1])
  }

  function OrNothing(r: Option<Decoded>): seq<Decoded> {
    if r.Some? then [r.value] else []
  }

  /** Everything reported while feeding a string, accepted or refused. */
  function Reports(d: Dec, bytes: seq<Byte>, key: Option<Mac>): seq<Decoded>
    requires Sane(d)
  {
    if bytes == [] then []
    else
      var n := |bytes| - 1;
      Reports(d, bytes[..n], key) + OrNothing(Report(Feed(d, bytes[..n]), bytes[n], key))
  }

  lemma FlipFacts(b: Byte)
    ensures Flip(Flip(b)) == b
    ensures Special(b) ==> !Special(Flip(b))
  {
  }

  /** Between its flags a wire image holds none, and the two special octets travel as the standard
      has them. */
  lemma {:induction false} NoFlagInside(body: seq<Byte>)
    ensures 0x7E !in Stuff(body)
    ensures Wire(body)[0] == 0x7E == Wire(body)[|Wire(body)| - 1]
    ensures StuffOne(0x7E) == [0x7D, 0x5E] && StuffOne(0x7D) == [0x7D, 0x5D]
  {
    if body != [] {
      NoFlagInside(body[..|body| - 1]);
      FlipFacts(body[|body| - 1]);
    }
  }

  lemma {:induction false} FeedConcat(d: Dec, x: seq<Byte>, y: seq<Byte>, key: Option<Mac>)
    requires Sane(d)
    ensures Feed(d, x + y) == Feed(Feed(d, x), y)
    ensures Reports(d, x + y, key) == Reports(d, x, key) + Reports(Feed(d, x), y, key)
  {
    hide Push, Report, OrNothing;
    if y == [] {
      assert x + y == x;
    } else {
      FeedConcat(d, x, y[..|y| - 1], key);
      assert (x + y)[..|x + y| - 1] == x + y[..|y| - 1];
    }
  }

  lemma FeedOne(d: Dec, b: Byte, key: Option<Mac>)
    requires Sane(d)
    ensures Feed(d, [b]) == Push(d, b) && Reports(d, [b], key) == OrNothing(Report(d, b, key))
  {
    assert [b][..0] == [];
  }

  lemma FeedNone(d: Dec, key: Option<Mac>)
    requires Sane(d)
    ensures Feed(d, []) == d && Reports(d, [], key) == []
  {
  }

  lemma OneStuffed(d: Dec, b: Byte, key: Option<Mac>)
    requires Sane(d) && d.inFrame && !d.escaped && !d.overflow && |d.body| < BODY_MAX
    ensures Feed(d, StuffOne(b)) == d.(body := d.body + [b]) && Reports(d, StuffOne(b), key) == []
  {
    hide Flip;
    FlipFacts(b);
    if Special(b) {
      assert [ESC, Flip(b)] == [ESC] + [Flip(b)];
      FeedConcat(d, [ESC], [Flip(b)], key);
      FeedOne(d, ESC, key);
      FeedOne(d.(escaped := true), Flip(b), key);
    } else {
      FeedOne(d, b, key);
    }
  }

  /** A synchronised decoder collects exactly what was stuffed, and reports nothing. */
  lemma {:induction false} StuffedIsCollected(body: seq<Byte>, key: Option<Mac>)
    requires |body| <= BODY_MAX
    ensures Feed(SYNCED, Stuff(body)) == SYNCED.(body := body) && Reports(SYNCED, Stuff(body), key) == []
  {
    hide StuffOne, Feed, Reports;
    if body == [] {
      FeedNone(SYNCED, key);
    } else {
      var n := |body| - 1;
      StuffedIsCollected(body[..n], key);
      FeedConcat(SYNCED, Stuff(body[..n]), StuffOne(body[n]), key);
      OneStuffed(SYNCED.(body := body[..n]), body[n], key);
      assert body[..n] + [body[n]] == body;
    }
  }

  /** From any state: the opening flag settles whatever was there before, and the body is
      then reported exactly once, by its closing flag. */
  lemma WireFromAnyState(d: Dec, body: seq<Byte>, key: Option<Mac>)
    requires Sane(d) && 0 < |body| <= BODY_MAX
    ensures Feed(d, Wire(body)) == SYNCED
    ensures Reports(d, Wire(body), key) == OrNothing(Close(d, key)) + [Decode(body, key)]
  {
    hide Stuff, Decode;
    FeedConcat(d, [FLAG] + Stuff(body), [FLAG], key);
    FeedConcat(d, [FLAG], Stuff(body), key);
    FeedOne(d, FLAG, key);
    StuffedIsCollected(body, key);
    FeedOne(SYNCED.(body := body), FLAG, key);
  }

  function Flags(k: nat): seq<Byte> {
    if k == 0 then [] else Flags(k - 1) + [FLAG]
  }

  /** Idle flags are not seen by a synchronised decoder. */
  lemma {:induction false} IdleIsSilent(k: nat, key: Option<Mac>)
    ensures Feed(SYNCED, Flags(k)) == SYNCED && Reports(SYNCED, Flags(k), key) == []
  {
    hide Feed, Reports, Decode;
    if k == 0 {
      FeedNone(SYNCED, key);
    } else {
      IdleIsSilent(k - 1, key);
      FeedConcat(SYNCED, Flags(k - 1), [FLAG], key);
      FeedOne(SYNCED, FLAG, key);
    }
  }

  // ---- A busy line ----

  /** Frames on a line, each followed by any number of idle flags. */
  datatype Item = Item(frame: Frame, idle: nat)

  predicate Sendable(items: seq<Item>) {
    forall i :: 0 <= i < |items| ==> Encodable(items[i].frame)
  }

  function Line(items: seq<Item>, mac: Mac): seq<Byte>
    requires Sendable(items)
  {
    if items == [] then []
    else
      var n := |items| - 1;
      Line(items[..n], mac) + (Wire(Body(Outgoing(items[n].frame), mac)) + Flags(items[n].idle))
  }

  /** The frames of a line as their receiver should see them, in order. */
  function Expected(items: seq<Item>, mac: Mac): seq<Decoded>
    requires Sendable(items)
  {
    if items == [] then []
    else
      var n := |items| - 1;
      var f := Outgoing(items[n].frame);
      Expected(items[..n], mac) + [Good(f, Body(f, mac))]
  }

  lemma ItemFromAnyState(d: Dec, item: Item, mac: Mac)
    requires Sane(d) && Encodable(item.frame)
    ensures var f := Outgoing(item.frame);
            var bytes := Wire(Body(f, mac)) + Flags(item.idle);
            && Feed(d, bytes) == SYNCED
            && Reports(d, bytes, Some(mac)) == OrNothing(Close(d, Some(mac))) + [Good(f, Body(f, mac))]
  {
    hide Body, Decode, Wire, Close;
    var f := Outgoing(item.frame);
    WireFromAnyState(d, Body(f, mac), Some(mac));
    RoundTrip(f, mac);
    FeedConcat(d, Wire(Body(f, mac)), Flags(item.idle), Some(mac));
    IdleIsSilent(item.idle, Some(mac));
  }

  /** Resynchronisation, from any decoder state after any garbage: nothing sent after the
      garbage is lost. Whatever the garbage itself led to is settled by the first flag;
      from there the decoder reports exactly the frames sent, in order. */
  lemma {:induction false} LineIsDecoded(d: Dec, garbage: seq<Byte>, items: seq<Item>, mac: Mac)
    requires Sane(d) && Sendable(items) && items != []
    ensures Feed(d, garbage + Line(items, mac)) == SYNCED
    ensures Reports(d, garbage + Line(items, mac), Some(mac)) ==
              Reports(d, garbage + [FLAG], Some(mac)) + Expected(items, mac)
  {
    hide Body, Decode, Wire, Close, Reports, Feed, Outgoing;
    var n, key := |items| - 1, Some(mac);
    var last := Wire(Body(Outgoing(items[n].frame), mac)) + Flags(items[n].idle);
    if n == 0 {
      assert Line(items, mac) == [] + last;
      assert garbage + Line(items, mac) == garbage + last;
      FeedConcat(d, garbage, last, key);
      ItemFromAnyState(Feed(d, garbage), items[0], mac);
      FeedConcat(d, garbage, [FLAG], key);
      FeedOne(Feed(d, garbage), FLAG, key);
    } else {
      LineIsDecoded(d, garbage, items[..n], mac);
      var before := garbage + Line(items[..n], mac);
      assert garbage + Line(items, mac) == before + last;
      FeedConcat(d, before, last, key);
      ItemFromAnyState(SYNCED, items[n], mac);
      NothingPending(key);
    }
  }

  lemma NothingPending(key: Option<Mac>)
    ensures OrNothing(Close(SYNCED, key)) == []
  {
  }

  // ---- Frames that are too long, or empty ----

  /** How many octets a flag-free string stands for. */
  function Octets(bytes: seq<Byte>): nat {
    if bytes == [] then 0 else Octets(bytes[..|bytes| - 1]) + if bytes[|bytes| - 1] == ESC then 0 else 1
  }

  lemma {:induction false} Collecting(bytes: seq<Byte>)
    requires FLAG !in bytes
    ensures var d := Feed(SYNCED, bytes);
            && d.inFrame && (d.overflow <==> Octets(bytes) > BODY_MAX)
            && (!d.overflow ==> |d.body| == Octets(bytes))
  {
    if bytes != [] {
      Collecting(bytes[..|bytes| - 1]);
    }
  }

  lemma {:induction false} QuietInside(bytes: seq<Byte>, key: Option<Mac>)
    requires FLAG !in bytes
    ensures Reports(SYNCED, bytes, key) == []
  {
    hide Feed, Push;
    if bytes != [] {
      QuietInside(bytes[..|bytes| - 1], key);
    }
  }

  /** Whatever stands between two flags is reported, once, at the second of them, if and only if it is
      not empty and not longer than the longest body: a frame that is too long is dropped whole. */
  lemma ReportedIffItFits(bytes: seq<Byte>, key: Option<Mac>)
    requires FLAG !in bytes
    ensures |Reports(SYNCED, bytes + [FLAG], key)| == if 0 < Octets(bytes) <= BODY_MAX then 1 else 0
    ensures Feed(SYNCED, bytes + [FLAG]) == SYNCED
  {
    hide Decode, Octets;
    Collecting(bytes);
    QuietInside(bytes, key);
    assert (bytes + [FLAG])[..|bytes|] == bytes;
  }
}
