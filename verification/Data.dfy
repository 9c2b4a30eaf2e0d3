/** The bulk transport endpoint: a table of transfer slots changed in place, whose every
    entry point is one of the slot functions applied to the slot it belongs to. */
module Data {
  import opened Types
  import opened Stream
  import Adler

  const MAX_STREAMS := 4

  /** A DATA frame handed to the link. */
  datatype Sent = Sent(to: Addr, id: U8, op: Op)

  /** A hook call, with the public handle of the stream it is about. */
  datatype Call = Call(handle: nat, event: Event)

  function Tag(to: Addr, id: U8, ops: seq<Op>): (r: seq<Sent>) {
    seq(|ops|, i requires 0 <= i < |ops| => Sent(to, id, ops[i]))
  }

  function Calls(handle: nat, events: seq<Event>): (r: seq<Call>) {
    seq(|events|, i requires 0 <= i < |events| => Call(handle, events[i]))
  }

  function Base(outbound: bool): nat {
    if outbound then 0 else MAX_STREAMS
  }

  predicate Matches(s: Slot, peer: Addr, id: U8) {
    s.phase != Free && s.id == id && s.peer == peer
  }

  /** The first slot at or after i, below limit, that satisfies the match. */
  function FirstMatch(s: seq<Slot>, peer: Addr, id: U8, i: nat, limit: nat): (r: Option<nat>)
    requires i <= limit <= |s|
    ensures r.Some? ==> i <= r.value < limit && Matches(s[r.value], peer, id)
    ensures r.None? ==> forall k :: i <= k < limit ==> !Matches(s[k], peer, id)
    decreases limit - i
  {
    if i == limit then None
    else if Matches(s[i], peer, id) then Some(i)
    else FirstMatch(s, peer, id, i + 1, limit)
  }

  function FindIn(s: seq<Slot>, peer: Addr, id: U8, outbound: bool): (r: Option<nat>)
    requires |s| == 2 * MAX_STREAMS
  {
    FirstMatch(s, peer, id, Base(outbound), Base(outbound) + MAX_STREAMS)
  }

  predicate Answers(op: Op) {
    op.Accept? || op.Ack? || op.Done? || op == Junk(true)
  }

  /** The slot a non-offer operation is applied to. */
  function Target(s: seq<Slot>, from: Addr, id: U8, op: Op): (r: Option<nat>)
    requires |s| == 2 * MAX_STREAMS
  {
    if Answers(op) then FindIn(s, from, id, true)
    else if FindIn(s, from, id, false).Some? then FindIn(s, from, id, false)
    else FindIn(s, from, id, true)
  }

  /** Each half of the table only ever holds streams of its own direction. */
  ghost predicate Halves(s: seq<Slot>) {
    && |s| == 2 * MAX_STREAMS
    && forall i :: 0 <= i < |s| ==> Sound(s[i]) && (s[i].phase != Free ==> s[i].outbound == (i < MAX_STREAMS))
  }

  /** Answers to our sends never touch an inbound stream. A REJECT or ABORT for an outbound
      stream reaches it exactly when no inbound stream shares its peer and id. */
  lemma TargetIsolation(s: seq<Slot>, from: Addr, id: U8, op: Op)
    requires Halves(s)
    ensures Answers(op) && Target(s, from, id, op).Some? ==> s[Target(s, from, id, op).value].outbound
    ensures op.Chunk? && FindIn(s, from, id, false).Some? ==> !s[Target(s, from, id, op).value].outbound
    ensures (op.Reject? || op.Abort?) && FindIn(s, from, id, true).Some? ==>
              (Target(s, from, id, op) == FindIn(s, from, id, true) <==> FindIn(s, from, id, false).None?)
  {
  }

  class Endpoint {
    var s: seq<Slot>
    var nextId: U8
    const cfg: Config
    var sent: seq<Sent>
    var calls: seq<Call>
    var nSent: nat
    var nReceived: nat
    var nRetransmits: nat
    var nRefused: nat

    ghost predicate Valid()
      reads this
    {
      Halves(s)
    }

    constructor (c: Config)
      ensures Valid() && cfg == c && nextId == 1 && sent == [] && calls == []
      ensures s == seq(2 * MAX_STREAMS, _ => EMPTY)
      ensures nSent == nReceived == nRetransmits == nRefused == 0
    {
      cfg := c;
      s := seq(2 * MAX_STREAMS, _ => EMPTY);
      nextId := 1;
      sent, calls := [], [];
      nSent, nReceived, nRetransmits, nRefused := 0, 0, 0, 0;
    }

    /** Slot i, and only it, has undergone e. */
    twostate predicate Did(i: nat, e: Effect)
      requires i < |old(s)|
      reads this
    {
      var was := old(s)[i];
      && s == old(s)[i := e.slot]
      && sent == old(sent) + Tag(was.peer, was.id, e.ops)
      && calls == old(calls) + Calls(i, e.events)
      && nRetransmits == old(nRetransmits) + e.rewinds
      && nSent == old(nSent) + (if OnSent(OK) in e.events then 1 else 0)
      && nReceived == old(nReceived) + (if OnReceived(OK) in e.events then 1 else 0)
    }

    method SendOp(i: nat, op: Op, now: Time)
      requires i < |s|
      modifies this`sent, this`s
      ensures s == old(s)[i := old(s)[i].(lastTx := now)]
      ensures sent == old(sent) + [Sent(old(s)[i].peer, old(s)[i].id, op)]
    {
      sent := sent + [Sent(s[i].peer, s[i].id, op)];
      s := s[i := s[i].(lastTx := now)];
    }

    method Finish(i: nat, result: U8)
      requires i < |s|
      modifies this`s, this`calls, this`nSent, this`nReceived
      ensures s == old(s)[i := EMPTY]
      ensures calls == old(calls) + Calls(i, Finished(old(s)[i], result, []).events)
      ensures nSent == old(nSent) + (if old(s)[i].outbound && result == OK then 1 else 0)
      ensures nReceived == old(nReceived) + (if !old(s)[i].outbound && result == OK then 1 else 0)
    {
      var outbound := s[i].outbound;
      s := s[i := EMPTY];
      if outbound {
        if result == OK {
          nSent := nSent + 1;
        }
        calls := calls + [Call(i, OnSent(result))];
      } else {
        if result == OK {
          nReceived := nReceived + 1;
        }
        calls := calls + [Call(i, OnReceived(result))];
      }
    }

    method SlotFree(outbound: bool) returns (r: Option<nat>)
      requires |s| == 2 * MAX_STREAMS
      ensures r.Some? ==>
                && Base(outbound) <= r.value < Base(outbound) + MAX_STREAMS && s[r.value].phase == Free
                && forall k :: Base(outbound) <= k < r.value ==> s[k].phase != Free
      ensures r.None? ==> forall k :: Base(outbound) <= k < Base(outbound) + MAX_STREAMS ==> s[k].phase != Free
    {
      var i := Base(outbound);
      while i < Base(outbound) + MAX_STREAMS
        invariant Base(outbound) <= i <= Base(outbound) + MAX_STREAMS
        invariant forall k :: Base(outbound) <= k < i ==> s[k].phase != Free
      {
        if s[i].phase == Free {
          return Some(i);
        }
        i := i + 1;
      }
      return None;
    }

    method SlotFind(peer: Addr, id: U8, outbound: bool) returns (r: Option<nat>)
      requires |s| == 2 * MAX_STREAMS
      ensures r == FindIn(s, peer, id, outbound)
    {
      var i := Base(outbound);
      while i < Base(outbound) + MAX_STREAMS
        invariant Base(outbound) <= i <= Base(outbound) + MAX_STREAMS
        invariant FindIn(s, peer, id, outbound) == FirstMatch(s, peer, id, i, Base(outbound) + MAX_STREAMS)
      {
        if Matches(s[i], peer, id) {
          return Some(i);
        }
        i := i + 1;
      }
      return None;
    }

    /** pump_sender. */
    method PumpSender(i: nat, now: Time)
      requires i < |s| && |s[i].src| == s[i].total
      modifies this`s, this`sent
      ensures s == old(s)[i := Pumped(old(s)[i], now)]
      ensures sent == old(sent) + Tag(old(s)[i].peer, old(s)[i].id, PumpedOps(old(s)[i], now))
    {
      hide Pumped, PumpedOps, CanPump, ChunksFor, ChunkAt;
      ghost var done: seq<Op> := [];
      while CanPump(s[i])
        invariant |s| == |old(s)| && s == old(s)[i := s[i]]
        invariant |s[i].src| == s[i].total && s[i].peer == old(s)[i].peer && s[i].id == old(s)[i].id
        invariant sent == old(sent) + Tag(old(s)[i].peer, old(s)[i].id, done)
        invariant Pumped(s[i], now) == Pumped(old(s)[i], now)
        invariant done + PumpedOps(s[i], now) == PumpedOps(old(s)[i], now)
        decreases ChunksFor(s[i].total) - s[i].nextSeq
      {
        PumpUnfolds(s[i], now);
        var before := s[i];
        var op := Chunk(before.nextSeq, ChunkAt(before.src, before.nextSeq));
        SendOp(i, op, now);
        s := s[i := s[i].(nextSeq := s[i].nextSeq + 1)];
        assert s[i] == PumpOne(before, now);
        assert Tag(before.peer, before.id, done + [op]) ==
          Tag(before.peer, before.id, done) + [Sent(before.peer, before.id, op)];
        assert (done + [op]) + PumpedOps(s[i], now) == done + PumpedOps(before, now);
        done := done + [op];
      }
      PumpUnfolds(s[i], now);
      if s[i].nextSeq >= ChunksFor(s[i].total) && s[i].phase == Sending {
        s := s[i := s[i].(phase := Draining)];
      }
      assert done == PumpedOps(old(s)[i], now);
    }

    /** dhp_data_send. */
    method Send(to: Addr, kind: U8, name: seq<Byte>, data: seq<Byte>, now: Time) returns (r: Opening)
      requires Valid() && |data| < 0x1_0000_0000
      modifies this`s, this`sent, this`nextId
      ensures Valid()
      ensures data == [] ==> r == Failed(CORRUPT)
      ensures r.Failed? ==>
                && s == old(s) && sent == old(sent) && nextId == old(nextId)
                && (data != [] ==> r.why == NO_STREAM && forall k :: 0 <= k < MAX_STREAMS ==> s[k].phase != Free)
      ensures r.Handle? ==>
                var e := Opened(old(nextId), to, kind, name, data, cfg, now);
                && r.handle < MAX_STREAMS && old(s)[r.handle].phase == Free
                && (forall k :: 0 <= k < r.handle ==> old(s)[k].phase != Free)
                && s == old(s)[r.handle := e.slot]
                && sent == old(sent) + Tag(to, old(nextId), e.ops)
                && nextId == if old(nextId) == 0xFF then 1 else old(nextId) + 1
    {
      if data == [] {
        return Failed(CORRUPT);
      }
      var slot := SlotFree(true);
      if slot.None? {
        return Failed(NO_STREAM);
      }
      var i := slot.value;
      var crc := Adler.Update(Adler.INIT, data);
      var kept := if |name| > NAME_MAX then name[..NAME_MAX] else name;
      s := s[i := EMPTY.(phase := Offering, outbound := true, id := nextId, peer := to, kind := kind, name := kept,
                         total := |data|, src := data, crc := crc, window := cfg.window,
                         rewoundTo := NO_REWIND, lastRx := now)];
      nextId := if nextId == 0xFF then 1 else nextId + 1;
      SendOp(i, OfferOf(s[i]), now);
      return Handle(i);
    }

    /** dhp_data_accept. */
    method Accept(h: nat, now: Time)
      requires Valid()
      modifies this`s, this`sent
      ensures Valid()
      ensures h < |s| ==> Did(h, Accepted(old(s)[h], cfg, now))
      ensures h >= |s| ==> s == old(s) && sent == old(sent)
    {
      if h >= 2 * MAX_STREAMS || s[h].phase != Offered {
        return;
      }
      s := s[h := s[h].(phase := Receiving, lastRx := now)];
      SendOp(h, Op.Accept(Some(cfg.window)), now);
    }

    /** dhp_data_reject. */
    method Reject(h: nat, now: Time)
      requires Valid()
      modifies this`s, this`sent, this`nRefused
      ensures Valid()
      ensures h < |s| ==>
                && Did(h, Rejected(old(s)[h]))
                && nRefused == old(nRefused) + if old(s)[h].phase == Offered then 1 else 0
      ensures h >= |s| ==> s == old(s) && sent == old(sent) && nRefused == old(nRefused)
    {
      if h >= 2 * MAX_STREAMS || s[h].phase != Offered {
        return;
      }
      SendOp(h, Op.Reject(Some(REFUSED)), now);
      nRefused := nRefused + 1;
      s := s[h := EMPTY];
    }

    /** dhp_data_cancel. */
    method Cancel(h: nat, now: Time)
      requires Valid()
      modifies this`s, this`sent, this`calls, this`nSent, this`nReceived
      ensures Valid()
      ensures h < |s| ==> Did(h, Cancelled(old(s)[h]))
      ensures h >= |s| ==> s == old(s) && sent == old(sent) && calls == old(calls)
    {
      if h >= 2 * MAX_STREAMS || s[h].phase == Free {
        return;
      }
      SendOp(h, Abort(Some(CANCELLED)), now);
      Finish(h, CANCELLED);
    }

    /** rx_offer. */
    method RxOffer(from: Addr, id: U8, op: Op, now: Time)
      requires Valid() && op.Offer? && |op.name| <= NAME_MAX
      modifies this`s, this`sent, this`calls
      ensures Valid()
      ensures FindIn(old(s), from, id, false).Some? ==>
                var i := FindIn(old(s), from, id, false).value; Did(i, OfferRepeated(old(s)[i], now))
      ensures FindIn(old(s), from, id, false).None?
                && (forall k :: MAX_STREAMS <= k < |s| ==> old(s)[k].phase != Free) ==>
                s == old(s) && calls == old(calls) && sent == old(sent) + [Sent(from, id, Op.Reject(Some(NO_STREAM)))]
      ensures FindIn(old(s), from, id, false).None?
                && (exists k :: MAX_STREAMS <= k < |s| && old(s)[k].phase == Free) ==>
                exists k ::
                  && MAX_STREAMS <= k < |s| && old(s)[k].phase == Free
                  && (forall m :: MAX_STREAMS <= m < k ==> old(s)[m].phase != Free)
                  && var e := OfferTaken(op, id, from, cfg, now);
                     && s == old(s)[k := e.slot]
                     && sent == old(sent) + Tag(from, id, e.ops) && calls == old(calls) + Calls(k, e.events)
    {
      var existing := SlotFind(from, id, false);
      if existing.Some? {
        var i := existing.value;
        if s[i].phase == Receiving {
          SendOp(i, AckOf(s[i]), now);
        }
        return;
      }
      var slot := SlotFree(false);
      if slot.None? {
        sent := sent + [Sent(from, id, Op.Reject(Some(NO_STREAM)))];
        return;
      }
      var k := slot.value;
      ghost var e := OfferTaken(op, id, from, cfg, now);
      ghost var free := s[k];
      s := s[k := EMPTY.(phase := Offered, id := id, peer := from, kind := op.kind, total := op.total, crc := op.crc,
                         window := cfg.window, running := Adler.INIT, lastRx := now, name := op.name)];
      if op.total == 0 || op.total > cfg.maxInbound {
        SendOp(k, Op.Reject(Some(TOO_BIG)), now);
        s := s[k := EMPTY];
      } else {
        calls := calls + [Call(k, OnOffer(from, op.kind, op.total, op.name))];
      }
      assert s == old(s)[k := e.slot];
      assert MAX_STREAMS <= k < |s| && old(s)[k].phase == Free;
    }

    /** rx_chunk: the chunk the receiver waits for, which fits the declared total. */
    method TakeNext(i: nat, data: seq<Byte>, now: Time)
      requires i < |s| && Sound(s[i]) && s[i].phase == Receiving && s[i].nextSeq * CHUNK + |data| <= s[i].total
      modifies this`s, this`sent, this`calls, this`nSent, this`nReceived
      ensures Did(i, TakeChunk(old(s)[i], old(s)[i].nextSeq, data, now))
    {
      var was := s[i];
      ghost var e := TakeChunk(was, was.nextSeq, data, now);
      var running := Adler.Update(was.running, data);
      calls := calls + [Call(i, OnChunk(was.nextSeq * CHUNK, data))];
      s := s[i := was.(lastRx := now, running := running, nextSeq := was.nextSeq + 1, acked := was.nextSeq + 1)];
      if s[i].nextSeq >= ChunksFor(s[i].total) {
        var verdict := if s[i].running == s[i].crc then OK else CORRUPT;
        SendOp(i, Done(Some(verdict)), now);
        Finish(i, verdict);
        assert Calls(i, e.events) == [Call(i, e.events[0])] + Calls(i, [e.events[1]]);
      } else if s[i].nextSeq % (if s[i].window / 2 == 0 then 1 else s[i].window / 2) == 0 {
        SendOp(i, AckOf(s[i]), now);
      }
    }

    /** rx_chunk. */
    method RxChunk(i: nat, index: U16, data: seq<Byte>, now: Time)
      requires i < |s| && Sound(s[i]) && s[i].phase == Receiving
      modifies this`s, this`sent, this`calls, this`nSent, this`nReceived
      ensures Did(i, TakeChunk(old(s)[i], index, data, now))
    {
      if index != s[i].nextSeq {
        s := s[i := s[i].(lastRx := now)];
        if TimeAfter(now, Add32(s[i].lastTx, 20)) {
          SendOp(i, AckOf(s[i]), now);
        }
      } else if index * CHUNK + |data| > s[i].total {
        SendOp(i, Abort(Some(CORRUPT)), now);
        Finish(i, CORRUPT);
      } else {
        TakeNext(i, data, now);
      }
    }

    /** dhp_data_rx, for everything but an offer. */
    method Rx(from: Addr, id: U8, op: Op, now: Time)
      requires Valid() && !op.Offer?
      modifies this`s, this`sent, this`calls, this`nSent, this`nReceived, this`nRetransmits
      ensures Valid()
      ensures Target(old(s), from, id, op).Some? ==>
                var i := Target(old(s), from, id, op).value; Did(i, Received(old(s)[i], op, now))
      ensures Target(old(s), from, id, op).None? ==>
                s == old(s) && sent == old(sent) && calls == old(calls) && nRetransmits == old(nRetransmits)
    {
      var slot := SlotFind(from, id, Answers(op));
      if slot.None? && !Answers(op) {
        slot := SlotFind(from, id, true);
      }
      if slot.None? {
        return;
      }
      Dispatch(slot.value, op, now);
    }

    /** The switch of dhp_data_rx on the slot found. */
    method Dispatch(i: nat, op: Op, now: Time)
      requires i < |s| && Sound(s[i]) && !op.Offer? && s[i].phase != Free
      modifies this`s, this`sent, this`calls, this`nSent, this`nReceived, this`nRetransmits
      ensures Did(i, Received(old(s)[i], op, now))
    {
      hide Pumped, PumpedOps, TakeChunk, Acked;
      s := s[i := s[i].(lastRx := now, retries := 0)];
      match op
      case Accept(grant) =>
        if s[i].phase == Offering {
          Start(i, Granted(s[i], grant), now);
        }
      case Reject(why) =>
        Finish(i, if why.Some? then why.value else REFUSED);
      case Chunk(index, data) =>
        if s[i].phase == Receiving {
          RxChunk(i, index, data, now);
        }
      case Ack(next, grant) =>
        if s[i].phase == Sending || s[i].phase == Draining {
          RxAck(i, next, grant, now);
        }
      case Done(verdict) =>
        Finish(i, if verdict.Some? then verdict.value else OK);
      case Abort(why) =>
        Finish(i, if why.Some? then why.value else CANCELLED);
      case Junk(_) =>
    }

    /** The slot becomes d, sending, and is pumped. */
    method Start(i: nat, d: Slot, now: Time)
      requires i < |s| && |d.src| == d.total && d.peer == s[i].peer && d.id == s[i].id
      modifies this`s, this`sent
      ensures s == old(s)[i := Pumped(d.(phase := Sending), now)]
      ensures sent == old(sent) + Tag(d.peer, d.id, PumpedOps(d.(phase := Sending), now))
    {
      s := s[i := d.(phase := Sending)];
      PumpSender(i, now);
    }

    /** The ACK arm of dhp_data_rx. */
    method RxAck(i: nat, next: U16, grant: Option<U8>, now: Time)
      requires i < |s| && |s[i].src| == s[i].total
      modifies this`s, this`sent, this`nRetransmits
      ensures var (d, rewinds) := Acked(old(s)[i], next);
              && s == old(s)[i := Pumped(Granted(d, grant).(phase := Sending), now)]
              && sent == old(sent) + Tag(old(s)[i].peer, old(s)[i].id,
                                         PumpedOps(Granted(d, grant).(phase := Sending), now))
              && nRetransmits == old(nRetransmits) + rewinds
    {
      hide Pumped, PumpedOps;
      if next > s[i].acked {
        s := s[i := s[i].(acked := next, rewoundTo := NO_REWIND)];
      }
      if next < s[i].nextSeq && s[i].rewoundTo != next {
        s := s[i := s[i].(nextSeq := next, rewoundTo := next)];
        nRetransmits := nRetransmits + 1;
      }
      Start(i, Granted(s[i], grant), now);
    }

    /** One round of the loop of dhp_data_tick. */
    method TickSlot(i: nat, now: Time)
      requires i < |s| && Sound(s[i])
      modifies this`s, this`sent, this`calls, this`nSent, this`nReceived, this`nRetransmits
      ensures Did(i, Ticked(old(s)[i], cfg, now))
    {
      hide Pumped, PumpedOps, TimeAfter, Add32;
      if s[i].phase == Free {
        return;
      }
      if TimeAfter(now, Add32(s[i].lastRx, cfg.idleTimeout)) {
        Finish(i, TIMEOUT);
        return;
      }
      if !s[i].outbound {
        return;
      }
      var offering := s[i].phase == Offering;
      if !TimeAfter(now, Add32(s[i].lastTx, if offering then cfg.offerTimeout else cfg.ackTimeout)) {
        return;
      }
      s := s[i := s[i].(retries := (s[i].retries + 1) % 0x100)];
      if s[i].retries > (if offering then cfg.offerRetries else cfg.maxRetries) {
        SendOp(i, Abort(Some(TIMEOUT)), now);
        Finish(i, TIMEOUT);
      } else if offering {
        SendOp(i, OfferOf(s[i]), now);
      } else {
        nRetransmits := nRetransmits + 1;
        Start(i, s[i].(nextSeq := s[i].acked, rewoundTo := NO_REWIND), now);
      }
    }

    /** dhp_data_tick: every slot, each on its own. */
    method Tick(now: Time)
      requires Valid()
      modifies this`s, this`sent, this`calls, this`nSent, this`nReceived, this`nRetransmits
      ensures Valid()
      ensures forall i :: 0 <= i < |s| ==> s[i] == Ticked(old(s)[i], cfg, now).slot
      ensures sent == old(sent) + TickSent(old(s), cfg, now, |old(s)|)
      ensures calls == old(calls) + TickCalls(old(s), cfg, now, |old(s)|)
      ensures nRetransmits == old(nRetransmits) + TickRewinds(old(s), cfg, now, |old(s)|)
      ensures nSent == old(nSent) && nReceived == old(nReceived)
    {
      hide Ticked;
      for i := 0 to 2 * MAX_STREAMS
        invariant Valid()
        invariant forall k :: 0 <= k < i ==> s[k] == Ticked(old(s)[k], cfg, now).slot
        invariant forall k :: i <= k < |s| ==> s[k] == old(s)[k]
        invariant sent == old(sent) + TickSent(old(s), cfg, now, i)
        invariant calls == old(calls) + TickCalls(old(s), cfg, now, i)
        invariant nRetransmits == old(nRetransmits) + TickRewinds(old(s), cfg, now, i)
        invariant nSent == old(nSent) && nReceived == old(nReceived)
      {
        TickSlot(i, now);
      }
    }
  }

  /** What the first n slots put on the link in one tick. */
  function TickSent(s: seq<Slot>, c: Config, now: Time, n: nat): seq<Sent>
    requires n <= |s| && forall i :: 0 <= i < |s| ==> Sound(s[i])
  {
    if n == 0 then []
    else TickSent(s, c, now, n - 1) + Tag(s[n - 1].peer, s[n - 1].id, Ticked(s[n - 1], c, now).ops)
  }

  /** The hooks the first n slots call in one tick. */
  function TickCalls(s: seq<Slot>, c: Config, now: Time, n: nat): seq<Call>
    requires n <= |s| && forall i :: 0 <= i < |s| ==> Sound(s[i])
  {
    if n == 0 then [] else TickCalls(s, c, now, n - 1) + Calls(n - 1, Ticked(s[n - 1], c, now).events)
  }

  /** How many of the first n slots go back to their last acknowledged chunk in one tick. */
  function TickRewinds(s: seq<Slot>, c: Config, now: Time, n: nat): nat
    requires n <= |s| && forall i :: 0 <= i < |s| ==> Sound(s[i])
  {
    if n == 0 then 0 else TickRewinds(s, c, now, n - 1) + Ticked(s[n - 1], c, now).rewinds
  }

  datatype Opening = Handle(handle: nat) | Failed(why: U8)
}
