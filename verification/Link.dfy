/** One board's link: two ports, the replay window and store-and-forward relaying. */
module Link {
  import opened Types
  import opened Frame
  import opened Framing
  import Framer

  const MSG_PAIR: U8 := 8
  const NEIGHBOUR_TIMEOUT_MS := 500

  datatype Port = Up | Down

  function Opposite(p: Port): Port {
    if p == Up then Down else Up
  }

  // ---- Replay window ----

  /** dhp_link_seen_t. */
  datatype Seen = Seen(used: bool, primed: bool, addr: Addr, high: U16)

  const UNSEEN := Seen(false, false, 0, 0)

  /** The slot a source is looked up in: its own, or else the first unused one. */
  function SlotFor(t: seq<Seen>, addr: Addr): (r: Option<nat>)
    ensures r.Some? ==> r.value < |t| && (!t[r.value].used || t[r.value].addr == addr)
    ensures (exists k :: 0 <= k < |t| && t[k].used && t[k].addr == addr) ==>
              r.Some? && t[r.value].used && t[r.value].addr == addr
    ensures r.None? ==> forall k :: 0 <= k < |t| ==> t[k].used && t[k].addr != addr
  {
    var own := FirstOf(t, addr, true, 0);
    if own.Some? then own else FirstOf(t, addr, false, 0)
  }

  /** The first slot at or after i that is used for addr, or that is unused. */
  function FirstOf(t: seq<Seen>, addr: Addr, used: bool, i: nat): (r: Option<nat>)
    requires i <= |t|
    ensures r.Some? ==>
              && i <= r.value < |t|
              && (if used then t[r.value].used && t[r.value].addr == addr else !t[r.value].used)
    ensures r.None? ==> forall k :: i <= k < |t| ==> if used then !(t[k].used && t[k].addr == addr) else t[k].used
    decreases |t| - i
  {
    if i == |t| then None
    else if (if used then t[i].used && t[i].addr == addr else !t[i].used) then Some(i)
    else FirstOf(t, addr, used, i + 1)
  }

  /** The distance from the high-water mark, as a signed 16-bit number. */
  function Delta(high: U16, seqNo: U16): int {
    var d := (seqNo - high) % 0x1_0000;
    if d < 0x8000 then d else d - 0x1_0000
  }

  /** Ahead of the mark, or so far behind that the source must have restarted. */
  predicate Ahead(high: U16, seqNo: U16) {
    Delta(high, seqNo) > 0 || Delta(high, seqNo) < -1024
  }

  /** seq_is_fresh: the verdict. */
  predicate Fresh(t: seq<Seen>, src: Addr, seqNo: U16) {
    var k := SlotFor(t, src);
    k.None? || !t[k.value].used || !t[k.value].primed || Ahead(t[k.value].high, seqNo)
  }

  /** seq_is_fresh: the table afterwards. */
  function Noted(t: seq<Seen>, src: Addr, seqNo: U16): (r: seq<Seen>)
    ensures |r| == |t|
  {
    var k := SlotFor(t, src);
    if k.None? then t
    else if !t[k.value].used then t[k.value := Seen(true, true, src, seqNo)]
    else if !t[k.value].primed then t[k.value := t[k.value].(primed := true, high := seqNo)]
    else if Ahead(t[k.value].high, seqNo) then t[k.value := t[k.value].(high := seqNo)]
    else t
  }

  /** With unbounded counters behind the 16-bit ones: a later frame is taken for new except
      when the gap, modulo 65536, is zero or within 1024 of a full turn. */
  lemma AheadOfCounter(a: nat, b: nat)
    requires a < b
    ensures Ahead(a % 0x1_0000, b % 0x1_0000) <==> 0 < (b - a) % 0x1_0000 < 0x1_0000 - 1024
  {
    assert (b % 0x1_0000 - a % 0x1_0000) % 0x1_0000 == (b - a) % 0x1_0000;
  }

  /** The whole window is needed: 65536 frames that a board does not get to see make it
      take the next one for a replay. */
  lemma WindowTurns()
    ensures !Ahead(7 % 0x1_0000, (7 + 0x1_0000) % 0x1_0000)
  {
  }

  // ---- What happens to a frame ----

  datatype Fate = Fate(seen: seq<Seen>, replay: bool, delivered: bool, relayed: Option<Frame>, dropped: bool)

  /** dhp_link_rx_byte, once the port's decoder has produced a frame, on a keyed board. */
  function Arrives(self: Addr, seen: seq<Seen>, f: Frame): Fate {
    if f.src == self then Fate(seen, false, false, None, false)
    else if !Fresh(seen, f.src, f.seqNo) then Fate(Noted(seen, f.src, f.seqNo), true, false, None, false)
    else
      var t := Noted(seen, f.src, f.seqNo);
      var forUs := f.dst == self || f.dst == ADDR_BROADCAST;
      if f.dst == self then Fate(t, false, forUs, None, false)
      else if f.ttl <= 1 then Fate(t, false, forUs, None, true)
      else Fate(t, false, forUs, Some(f.(ttl := f.ttl - 1)), false)
  }

  /** What happens to a frame, whatever it is: nothing to one of the board's own that comes back, and
      nothing to one that is not fresh; else it is delivered exactly if it is for this board or for
      all, and passed on exactly if it is not for this board alone and has a hop left. */
  lemma FateOf(self: Addr, seen: seq<Seen>, f: Frame)
    ensures var fate := Arrives(self, seen, f);
            var taken := f.src != self && Fresh(seen, f.src, f.seqNo);
            && (fate.delivered <==> taken && (f.dst == self || f.dst == ADDR_BROADCAST))
            && (fate.relayed.Some? <==> taken && f.dst != self && f.ttl > 1)
            && (fate.relayed.Some? ==> fate.relayed.value == f.(ttl := f.ttl - 1))
            && (fate.dropped <==> taken && f.dst != self && f.ttl <= 1)
            && (fate.replay <==> f.src != self && !taken)
            && (f.src == self ==> fate.seen == seen)
  {
    hide Fresh, Noted;
  }

  /** The frames delivered by a board that is handed these, one after another. */
  function Deliveries(self: Addr, seen: seq<Seen>, fs: seq<Frame>): seq<Frame>
    decreases |fs|
  {
    if fs == [] then []
    else
      var fate := Arrives(self, seen, fs[0]);
      (if fate.delivered then [fs[0]] else []) + Deliveries(self, fate.seen, fs[1..])
  }

  /** Whatever a board is handed, it never delivers a frame that claims to be its own, nor one that is
      for somebody else. */
  lemma {:induction false} NothingOfItsOwn(self: Addr, seen: seq<Seen>, fs: seq<Frame>, i: nat)
    requires i < |Deliveries(self, seen, fs)|
    ensures var f := Deliveries(self, seen, fs)[i];
            f in fs && f.src != self && (f.dst == self || f.dst == ADDR_BROADCAST)
    decreases |fs|
  {
    hide Arrives;
    FateOf(self, seen, fs[0]);
    var fate := Arrives(self, seen, fs[0]);
    var k := if fate.delivered then 1 else 0;
    if i >= k {
      NothingOfItsOwn(self, fate.seen, fs[1..], i - k);
    }
  }

  /** The frame a send puts on both ports. */
  function Originated(self: Addr, typ: U8, dst: Addr, seqNo: U16, payload: seq<Byte>): Frame {
    Frame(typ, TTL_DEFAULT, self, dst, seqNo, payload)
  }

  datatype Answer = Again | Delivered(frame: Frame) | Replay | Unauthorised | Damaged(why: Error)

  /** dhp_link_t. `wire` is everything handed to the transmit hook, in order; `heardUp` and
      `heardDown` are the neighbour flag and the time of the last frame, together. */
  class Node {
    const self: Addr
    const up: Framer.Framer
    const down: Framer.Framer
    var key: Option<Mac>
    var txSeq: U16
    var seen: seq<Seen>
    var heardUp: Option<Time>
    var heardDown: Option<Time>
    var wire: seq<(Port, seq<Byte>)>
    var nReplay: nat
    var nTtlDrop: nat

    ghost predicate Valid()
      reads this, up, down
    {
      && up.Valid() && down.Valid() && up != down && up.body != down.body
      && |seen| == MAX_BOARDS
    }

    function At(port: Port): Framer.Framer {
      if port == Up then up else down
    }

    constructor (addr: Addr)
      ensures Valid() && self == addr && key.None? && txSeq == 0 && wire == []
      ensures fresh(up) && fresh(down) && fresh(up.body) && fresh(down.body)
      ensures up.Abs() == FRESH && down.Abs() == FRESH && seen == seq(MAX_BOARDS, _ => UNSEEN)
    {
      self := addr;
      up := new Framer.Framer();
      down := new Framer.Framer();
      key := None;
      txSeq := 0;
      seen := seq(MAX_BOARDS, _ => UNSEEN);
      heardUp, heardDown := None, None;
      wire := [];
      nReplay, nTtlDrop := 0, 0;
    }

    /** seen_get. */
    method SeenGet(addr: Addr) returns (r: Option<nat>)
      ensures r == SlotFor(seen, addr)
    {
      var i := 0;
      while i < |seen|
        invariant 0 <= i <= |seen|
        invariant FirstOf(seen, addr, true, 0) == FirstOf(seen, addr, true, i)
      {
        if seen[i].used && seen[i].addr == addr {
          return Some(i);
        }
        i := i + 1;
      }
      i := 0;
      while i < |seen|
        invariant 0 <= i <= |seen|
        invariant FirstOf(seen, addr, false, 0) == FirstOf(seen, addr, false, i)
      {
        if !seen[i].used {
          return Some(i);
        }
        i := i + 1;
      }
      return None;
    }

    /** seq_is_fresh. */
    method SeqIsFresh(src: Addr, seqNo: U16) returns (ok: bool)
      modifies this`seen
      ensures ok == Fresh(old(seen), src, seqNo) && seen == Noted(old(seen), src, seqNo)
    {
      hide SlotFor;
      var slot := SeenGet(src);
      if slot.None? {
        return true;
      }
      var k := slot.value;
      if !seen[k].used {
        seen := seen[k := Seen(true, false, src, 0)];
      }
      if !seen[k].primed {
        seen := seen[k := seen[k].(primed := true, high := seqNo)];
        return true;
      }
      var delta := Delta(seen[k].high, seqNo);
      if delta > 0 || delta < -1024 {
        seen := seen[k := seen[k].(high := seqNo)];
        return true;
      }
      return false;
    }

    /** emit_frame. */
    method EmitFrame(port: Port, f: Frame) returns (ok: bool)
      modifies this`wire
      ensures ok <==> key.Some? && Encodable(f)
      ensures wire == old(wire) + if ok then [(port, Wire(Body(Outgoing(f), key.value)))] else []
    {
      hide Body, Wire, Outgoing;
      if key.None? {
        return false;
      }
      var buffer := new Byte[2 * BODY_MAX + 2];
      var r := Framer.Encode(f, key.value, buffer);
      if !r.Wrote? {
        return false;
      }
      wire := wire + [(port, buffer[..r.n])];
      return true;
    }

    /** dhp_link_send: one sequence number for the copies on both ports. */
    method Send(typ: U8, dst: Addr, payload: seq<Byte>) returns (ok: bool)
      modifies this`wire, this`txSeq
      ensures txSeq == (old(txSeq) + 1) % 0x1_0000
      ensures var f := Originated(self, typ, dst, old(txSeq), payload);
              && (ok <==> key.Some? && Encodable(f))
              && (ok ==> wire == old(wire) + [(Up, Wire(Body(f, key.value))), (Down, Wire(Body(f, key.value)))])
              && (!ok ==> wire == old(wire))
    {
      hide Body, Wire;
      var f := Originated(self, typ, dst, txSeq, payload);
      var a := EmitFrame(Up, f);
      var b := EmitFrame(Down, f);
      txSeq := (txSeq + 1) % 0x1_0000;
      return a && b;
    }

    /** relay. */
    method Relay(port: Port, f: Frame, body: seq<Byte>)
      requires OVERHEAD <= |body| <= BODY_MAX
      modifies this`wire, this`nTtlDrop
      ensures Forward(body).Good? ==>
                wire == old(wire) + [(Opposite(port), Wire(Forward(body).body))] && nTtlDrop == old(nTtlDrop)
      ensures Forward(body).Bad? ==> wire == old(wire) && nTtlDrop == old(nTtlDrop) + 1
    {
      hide Forward, Wire;
      var copy := new Byte[|body|](i requires 0 <= i < |body| => body[i]);
      assert copy[..] == body;
      var failed := Framer.ForwardPrepare(copy);
      if failed.Some? {
        nTtlDrop := nTtlDrop + 1;
        return;
      }
      var bytes := Framer.Restuff(copy[..]);
      wire := wire + [(Opposite(port), bytes)];
    }

    /** The rest of dhp_link_rx_byte, on a frame the decoder has accepted. */
    method Handle(port: Port, f: Frame, body: seq<Byte>) returns (r: Answer)
      requires OVERHEAD <= |body| <= BODY_MAX
      modifies this`wire, this`nTtlDrop, this`seen, this`nReplay
      ensures |seen| == |old(seen)|
      ensures key.None? && f.typ != MSG_PAIR ==> r == Unauthorised && seen == old(seen) && wire == old(wire)
      ensures key.Some? || f.typ == MSG_PAIR ==>
                var fate := Arrives(self, old(seen), f);
                && seen == fate.seen
                && (r == Replay <==> fate.replay)
                && (r == Delivered(f) <==> fate.delivered)
                && (r == Again || r == Replay || r == Delivered(f))
                && wire == old(wire) +
                     (if f.src != self && !fate.replay && f.dst != self && Forward(body).Good?
                      then [(Opposite(port), Wire(Forward(body).body))] else [])
    {
      hide Forward, Wire, Fresh, Noted;
      if key.None? && f.typ != MSG_PAIR {
        return Unauthorised;
      }
      if f.src == self {
        return Again;
      }
      var ok := SeqIsFresh(f.src, f.seqNo);
      if !ok {
        nReplay := nReplay + 1;
        return Replay;
      }
      if f.dst != self {
        Relay(port, f, body);
      }
      if f.dst == self || f.dst == ADDR_BROADCAST {
        return Delivered(f);
      }
      return Again;
    }

    /** dhp_link_rx_byte. */
    method RxByte(port: Port, byte: Byte, now: Time) returns (r: Answer)
      requires Valid()
      modifies this, up, down, up.body, down.body
      ensures Valid() && key == old(key) && txSeq == old(txSeq)
      ensures At(port).Abs() == Framing.Push(old(At(port).Abs()), byte)
      ensures At(Opposite(port)).Abs() == old(At(Opposite(port)).Abs())
      ensures var d := Report(old(At(port).Abs()), byte, key);
              var heard := d.Some? && d.value.Good?;
              && heardUp == (if heard && port == Up then Some(now) else old(heardUp))
              && heardDown == (if heard && port == Down then Some(now) else old(heardDown))
      ensures var d := Report(old(At(port).Abs()), byte, key);
              && (d.None? ==> r == Again && seen == old(seen) && wire == old(wire))
              && (d.Some? && d.value.Bad? ==> r == Damaged(d.value.why) && seen == old(seen) && wire == old(wire))
              && (d.Some? && d.value.Good? && key.None? && d.value.frame.typ != MSG_PAIR ==>
                    r == Unauthorised && seen == old(seen) && wire == old(wire))
              && (d.Some? && d.value.Good? && (key.Some? || d.value.frame.typ == MSG_PAIR) ==>
                    var f, body := d.value.frame, d.value.body;
                    var fate := Arrives(self, old(seen), f);
                    && seen == fate.seen
                    && (r == Replay <==> fate.replay) && (r == Delivered(f) <==> fate.delivered)
                    && (r == Again || r == Replay || r == Delivered(f))
                    && wire == old(wire) +
                         (if f.src != self && !fate.replay && f.dst != self && Forward(body).Good?
                          then [(Opposite(port), Wire(Forward(body).body))] else []))
    {
      hide Forward, Wire, Fresh, Noted, Arrives, Decode, Framing.Push;
      ReportIsWhole(At(port).Abs(), byte, key);
      var d := At(port).Push(byte, key);
      if d.None? {
        return Again;
      }
      if d.value.Bad? {
        return Damaged(d.value.why);
      }
      if port == Up {
        heardUp := Some(now);
      } else {
        heardDown := Some(now);
      }
      r := Handle(port, d.value.frame, d.value.body);
    }

    /** dhp_link_tick: a neighbour that has gone quiet is forgotten with its half frame. */
    method Tick(now: Time)
      requires Valid()
      modifies this`heardUp, this`heardDown, up, down
      ensures Valid()
      ensures var lost := old(heardUp).Some? && TimeAfter(now, Add32(old(heardUp).value, NEIGHBOUR_TIMEOUT_MS));
              heardUp == (if lost then None else old(heardUp)) && up.Abs() == (if lost then FRESH else old(up.Abs()))
      ensures var lost := old(heardDown).Some? && TimeAfter(now, Add32(old(heardDown).value, NEIGHBOUR_TIMEOUT_MS));
              && heardDown == (if lost then None else old(heardDown))
              && down.Abs() == (if lost then FRESH else old(down.Abs()))
    {
      if heardUp.Some? && TimeAfter(now, Add32(heardUp.value, NEIGHBOUR_TIMEOUT_MS)) {
        heardUp := None;
        up.Reset();
      }
      if heardDown.Some? && TimeAfter(now, Add32(heardDown.value, NEIGHBOUR_TIMEOUT_MS)) {
        heardDown := None;
        down.Reset();
      }
    }
  }

  /** A body the decoder accepts is whole. */
  lemma ReportIsWhole(d: Dec, byte: Byte, key: Option<Mac>)
    requires Sane(d)
    ensures var r := Report(d, byte, key); r.Some? && r.value.Good? ==> OVERHEAD <= |r.value.body| <= BODY_MAX
  {
    hide FieldsOf, CrcHolds, TagOf;
  }

  /** Frame for frame and byte for byte: fed the wire image of a frame, whatever the decoder
      was in the middle of, a keyed board reports that frame with its last byte, and what it
      relays is the wire image of the frame with one hop fewer. */
  lemma WireCarriesFrame(d: Dec, f: Frame, mac: Mac, self: Addr, seen: seq<Seen>)
    requires Sane(d) && Encodable(f) && f.ttl > 0
    ensures Reports(d, Wire(Body(f, mac)), Some(mac)) ==
              OrNothing(Close(d, Some(mac))) + [Good(f, Body(f, mac))]
    ensures var fate := Arrives(self, seen, f);
            && (fate.relayed.Some? ==> Forward(Body(f, mac)) == Good(fate.relayed.value, Body(fate.relayed.value, mac)))
            && (f.src != self && !fate.replay && f.dst != self ==>
                  (fate.relayed.Some? <==> Forward(Body(f, mac)).Good?))
  {
    hide Body, Decode, Forward, Close, Reports, Feed, Wire, Fresh, Noted;
    WireFromAnyState(d, Body(f, mac), Some(mac));
    RoundTrip(f, mac);
    ForwardCountsDown(f, mac);
  }
}
