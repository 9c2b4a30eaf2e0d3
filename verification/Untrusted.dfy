/** One stream against a peer that may send anything: what the application can rely on all the same. */
module Untrusted {
  import opened Types
  import opened Stream
  import Adler

  /** Everything that can happen to an open slot. */
  datatype Cue =
    | Hear(op: Op, now: Time)
    | Consent(now: Time)
    | Decline
    | Cancel
    | Pass(now: Time)

  function React(s: Slot, c: Config, cue: Cue): (e: Effect)
    requires Sound(s)
    ensures Sound(e.slot)
  {
    if s.phase == Free then Quiet(s)
    else
      match cue
      case Hear(op, now) => if op.Offer? then OfferRepeated(s, now) else Received(s, op, now)
      case Consent(now) => Accepted(s, c, now)
      case Decline => Rejected(s)
      case Cancel => Cancelled(s)
      case Pass(now) => Ticked(s, c, now)
  }

  /** A slot with all it has told the application and put on the link so far. */
  datatype History = History(slot: Slot, events: seq<Event>, ops: seq<Op>)

  function Run(e: Effect, c: Config, cues: seq<Cue>): (h: History)
    requires Sound(e.slot)
    ensures Sound(h.slot)
  {
    if cues == [] then History(e.slot, e.events, e.ops)
    else
      var h := Run(e, c, cues[..|cues| - 1]);
      var f := React(h.slot, c, cues[|cues| - 1]);
      History(f.slot, h.events + f.events, h.ops + f.ops)
  }

  // ---- Receiving ----

  /** The chunks handed over. */
  function Pieces(events: seq<Event>): seq<seq<Byte>> {
    if events == [] then []
    else
      var last := events[|events| - 1];
      Pieces(events[..|events| - 1]) + if last.OnChunk? then [last.data] else []
  }

  function Joined(pieces: seq<seq<Byte>>): seq<Byte> {
    if pieces == [] then [] else Joined(pieces[..|pieces| - 1]) + pieces[|pieces| - 1]
  }

  /** The application's log of one stream: an offer, then chunks one after another at their places
      inside the announced size, then perhaps one verdict. */
  predicate Orderly(events: seq<Event>, total: U32) {
    && |events| > 0 && events[0].OnOffer? && events[0].total == total
    && forall i :: 1 <= i < |events| ==>
         || (events[i].OnChunk? && events[i].offset == (i - 1) * CHUNK && events[i].offset + |events[i].data| <= total)
         || (events[i].OnReceived? && i == |events| - 1)
  }

  /** No verdict has been given. */
  predicate Undecided(events: seq<Event>) {
    |events| > 0 && !events[|events| - 1].OnReceived?
  }

  /** What has happened so far: the application has agreed, the peer has sent a refusal with the
      code that stands for success, the application has declined. */
  datatype Past = Past(consented: bool, zeroed: bool, declined: bool)

  predicate Zero(cue: Cue) {
    && cue.Hear?
    && ((cue.op.Reject? && cue.op.why == Some(OK)) || (cue.op.Abort? && cue.op.why == Some(OK)))
  }

  function PastOf(cues: seq<Cue>): Past {
    Past(exists i :: 0 <= i < |cues| && cues[i].Consent?, exists i :: 0 <= i < |cues| && Zero(cues[i]),
         exists i :: 0 <= i < |cues| && cues[i].Decline?)
  }

  /** All chunks of the announced size have been handed over and match the announced checksum. */
  predicate Whole(events: seq<Event>, total: U32, crc: Adler.Sum) {
    |Pieces(events)| >= ChunksFor(total) && Adler.Checksum(Joined(Pieces(events))) == crc
  }

  /** The slot of a stream that is still open agrees with the log. */
  ghost predicate InStep(d: Slot, events: seq<Event>, total: U32, crc: Adler.Sum) {
    && d.phase in {Offered, Receiving} && d.total == total && d.crc == crc
    && Undecided(events) && |events| == d.nextSeq + 1 == |Pieces(events)| + 1
    && d.running == Adler.Checksum(Joined(Pieces(events)))
    && (d.phase == Offered ==> d.nextSeq == 0)
  }

  ghost predicate Faithful(d: Slot, events: seq<Event>, total: U32, crc: Adler.Sum, past: Past) {
    && Orderly(events, total)
    && (d.phase == Free ==> d == EMPTY && (!Undecided(events) || past.declined))
    && (d.phase != Free ==> InStep(d, events, total, crc))
    && (d.phase == Receiving || Pieces(events) != [] ==> past.consented)
    && (OnReceived(OK) in events ==> Whole(events, total, crc) || past.zeroed)
  }

  lemma PiecesOne(events: seq<Event>, e: Event)
    ensures Pieces(events + [e]) == Pieces(events) + if e.OnChunk? then [e.data] else []
  {
    assert (events + [e])[..|events|] == events;
  }

  lemma JoinedOne(pieces: seq<seq<Byte>>, p: seq<Byte>)
    ensures Joined(pieces + [p]) == Joined(pieces) + p
  {
    assert (pieces + [p])[..|pieces|] == pieces;
  }

  lemma NoVerdictYet(events: seq<Event>, total: U32)
    requires Orderly(events, total) && Undecided(events)
    ensures forall r :: OnReceived(r) !in events
  {
    forall i | 0 <= i < |events| ensures !events[i].OnReceived? {
    }
  }

  /** A verdict ends the log. */
  lemma EndedKeeps(d: Slot, events: seq<Event>, total: U32, crc: Adler.Sum, past: Past, result: U8)
    requires Faithful(d, events, total, crc, past) && d.phase != Free
    requires result == OK ==> Whole(events, total, crc) || past.zeroed
    ensures Faithful(EMPTY, events + [OnReceived(result)], total, crc, past)
  {
    hide Adler.Checksum, ChunksFor, Pieces, Joined;
    PiecesOne(events, OnReceived(result));
    NoVerdictYet(events, total);
    var all := events + [OnReceived(result)];
    assert Pieces(all) == Pieces(events);
    assert all[|all| - 1] == OnReceived(result);
    assert forall i :: 0 <= i < |events| ==> all[i] == events[i];
  }

  /** A chunk at its place goes into the log. */
  lemma TakenKeeps(d: Slot, d': Slot, events: seq<Event>, total: U32, crc: Adler.Sum, past: Past, data: seq<Byte>)
    requires Faithful(d, events, total, crc, past) && d.phase == Receiving && d.nextSeq * CHUNK + |data| <= total
    requires d'.phase == Receiving && d'.total == d.total && d'.crc == d.crc && d'.nextSeq == d.nextSeq + 1
    requires d'.running == Adler.Continue(d.running, data)
    ensures Faithful(d', events + [OnChunk(d.nextSeq * CHUNK, data)], total, crc, past)
  {
    hide Adler.Checksum, ChunksFor, Pieces, Joined, Whole;
    var event := OnChunk(d.nextSeq * CHUNK, data);
    var all := events + [event];
    PiecesOne(events, event);
    JoinedOne(Pieces(events), data);
    Folded(Joined(Pieces(events)), data);
    NoVerdictYet(events, total);
    assert all[|all| - 1] == event;
    assert forall i :: 0 <= i < |events| ==> all[i] == events[i];
  }

  lemma Folded(x: seq<Byte>, y: seq<Byte>)
    ensures Adler.Continue(Adler.Checksum(x), y) == Adler.Checksum(x + y)
  {
    hide Adler.Continue;
    Adler.ChunkwiseIsWhole(Adler.INIT, x, y);
  }

  /** What rx_chunk does on any chunk at all. */
  lemma ChunkKeeps(d: Slot, events: seq<Event>, total: U32, crc: Adler.Sum, past: Past, index: U16, data: seq<Byte>,
                   now: Time)
    requires Faithful(d, events, total, crc, past) && Sound(d) && d.phase == Receiving
    ensures var e := TakeChunk(d, index, data, now); Faithful(e.slot, events + e.events, total, crc, past)
  {
    hide Faithful, ChunksFor, Adler.Continue, TimeAfter, Add32;
    SlotIs(d, events, total, crc, past);
    var e := TakeChunk(d, index, data, now);
    if index != d.nextSeq {
      SilentKeeps(d, e.slot, events, total, crc, past);
    } else if index * CHUNK + |data| > total {
      EndedKeeps(d, events, total, crc, past, CORRUPT);
    } else {
      var event := OnChunk(index * CHUNK, data);
      var d' := d.(lastRx := now, running := Adler.Continue(d.running, data), nextSeq := index + 1, acked := index + 1);
      TakenKeeps(d, d', events, total, crc, past, data);
      if index + 1 >= ChunksFor(total) {
        LastIsWhole(d', events + [event], total, crc, past);
        EndedKeeps(d', events + [event], total, crc, past, if d'.running == crc then OK else CORRUPT);
        assert events + e.events == events + [event] + [e.events[1]];
      } else {
        assert e.events == [event];
        SilentKeeps(d', e.slot, events + [event], total, crc, past);
        assert events + [event] + [] == events + e.events;
      }
    }
  }

  lemma SlotIs(d: Slot, events: seq<Event>, total: U32, crc: Adler.Sum, past: Past)
    requires Faithful(d, events, total, crc, past) && d.phase != Free
    ensures d.phase in {Offered, Receiving} && d.total == total && d.crc == crc && d != EMPTY
  {
  }

  lemma LastIsWhole(d: Slot, events: seq<Event>, total: U32, crc: Adler.Sum, past: Past)
    requires Faithful(d, events, total, crc, past) && d.phase == Receiving
    requires d.nextSeq >= ChunksFor(total)
    ensures d.running == crc ==> Whole(events, total, crc)
  {
    hide Adler.Checksum, ChunksFor;
  }

  lemma SilentKeeps(d: Slot, d': Slot, events: seq<Event>, total: U32, crc: Adler.Sum, past: Past)
    requires Faithful(d, events, total, crc, past) && d.phase != Free
    requires d'.phase == d.phase && d'.total == d.total && d'.crc == d.crc
    requires d'.nextSeq == d.nextSeq && d'.running == d.running
    ensures Faithful(d', events + [], total, crc, past)
  {
    hide Adler.Checksum, ChunksFor, Pieces, Orderly, Whole;
    assert events + [] == events;
  }

  lemma MorePast(d: Slot, events: seq<Event>, total: U32, crc: Adler.Sum, past: Past, more: Past)
    requires Faithful(d, events, total, crc, past)
    requires (past.consented ==> more.consented) && (past.zeroed ==> more.zeroed) && (past.declined ==> more.declined)
    ensures Faithful(d, events, total, crc, more)
  {
    hide InStep, Whole, Orderly;
  }

  /** Inbound streams are only ever handed these. */
  predicate Inbound(cue: Cue) {
    cue.Hear? ==> cue.op.Offer? || cue.op.Chunk? || cue.op.Reject? || cue.op.Abort? || cue.op.Junk?
  }

  lemma ConsentKeeps(d: Slot, events: seq<Event>, total: U32, crc: Adler.Sum, past: Past, c: Config, now: Time)
    requires Faithful(d, events, total, crc, past) && d.phase != Free
    ensures var e := Accepted(d, c, now);
            Faithful(e.slot, events + e.events, total, crc, past.(consented := true))
  {
    hide Adler.Checksum, ChunksFor, Pieces, Orderly, Whole;
    assert events + [] == events;
  }

  lemma ClosedKeeps(d: Slot, events: seq<Event>, total: U32, crc: Adler.Sum, past: Past)
    requires Faithful(d, events, total, crc, past) && d.phase != Free && past.declined
    ensures Faithful(EMPTY, events + [], total, crc, past)
  {
    hide Adler.Checksum, ChunksFor, Pieces, Orderly, Whole;
    assert events + [] == events;
  }

  function Further(past: Past, cue: Cue): Past {
    Past(past.consented || cue.Consent?, past.zeroed || Zero(cue), past.declined || cue.Decline?)
  }

  lemma HearKeeps(d: Slot, events: seq<Event>, total: U32, crc: Adler.Sum, past: Past, op: Op, now: Time)
    requires Faithful(d, events, total, crc, past) && d.phase != Free && Sound(d)
    requires Inbound(Hear(op, now)) && !op.Offer?
    requires Zero(Hear(op, now)) ==> past.zeroed
    ensures var e := Received(d, op, now); Faithful(e.slot, events + e.events, total, crc, past)
  {
    hide Faithful, TakeChunk;
    SlotIs(d, events, total, crc, past);
    var d' := d.(lastRx := now, retries := 0);
    SilentKeeps(d, d', events, total, crc, past);
    assert events + [] == events;
    match op
    case Chunk(index, data) =>
      if d.phase == Receiving {
        ChunkKeeps(d', events, total, crc, past, index, data, now);
      }
    case Reject(why) => EndedKeeps(d', events, total, crc, past, if why.Some? then why.value else REFUSED);
    case Abort(why) => EndedKeeps(d', events, total, crc, past, if why.Some? then why.value else CANCELLED);
    case Junk(_) =>
  }

  lemma ReactKeeps(d: Slot, events: seq<Event>, total: U32, crc: Adler.Sum, past: Past, c: Config, cue: Cue)
    requires Faithful(d, events, total, crc, past) && Sound(d) && Inbound(cue)
    ensures var e := React(d, c, cue); Faithful(e.slot, events + e.events, total, crc, Further(past, cue))
  {
    hide Faithful, Received, TimeAfter, Add32;
    var more := Further(past, cue);
    MorePast(d, events, total, crc, past, more);
    assert events + [] == events;
    if d.phase != Free {
      SlotIs(d, events, total, crc, past);
      match cue
      case Hear(op, now) =>
        if op.Offer? {
          SilentKeeps(d, d.(lastTx := now), events, total, crc, more);
        } else {
          HearKeeps(d, events, total, crc, more, op, now);
        }
      case Consent(now) => ConsentKeeps(d, events, total, crc, past, c, now);
      case Decline =>
        ClosedKeeps(d, events, total, crc, more);
      case Cancel => EndedKeeps(d, events, total, crc, more, CANCELLED);
      case Pass(now) => EndedKeeps(d, events, total, crc, more, TIMEOUT);
    }
  }

  lemma PastGrows(cues: seq<Cue>, cue: Cue)
    ensures PastOf(cues + [cue]) == Further(PastOf(cues), cue)
  {
    var all := cues + [cue];
    assert forall i :: 0 <= i < |cues| ==> all[i] == cues[i];
    assert all[|cues|] == cue;
  }

  lemma OfferIsFaithful(op: Op, id: U8, from: Addr, c: Config, now: Time)
    requires op.Offer? && |op.name| <= NAME_MAX && OfferTaken(op, id, from, c, now).slot.phase != Free
    ensures var e := OfferTaken(op, id, from, c, now);
            Faithful(e.slot, e.events, op.total, op.crc, Past(false, false, false))
  {
    var e := OfferTaken(op, id, from, c, now);
    PiecesOne([], e.events[0]);
    assert [] + [e.events[0]] == e.events;
    assert Pieces([]) == [] && Joined([]) == [];
    EmptyChecksum();
  }

  lemma EmptyChecksum()
    ensures Adler.Checksum([]) == Adler.INIT
  {
  }

  /** Whatever a peer sends, in whatever order, and whatever the clock and the application do
      meanwhile, the log of one inbound stream is orderly: an offer, consent before the first chunk,
      chunks at their places inside the announced size, one verdict at the end unless the
      application has declined, and nothing after it. */
  lemma {:induction false} IntakeIsFaithful(op: Op, id: U8, from: Addr, c: Config, now: Time, cues: seq<Cue>)
    requires op.Offer? && |op.name| <= NAME_MAX && OfferTaken(op, id, from, c, now).slot.phase != Free
    requires forall i :: 0 <= i < |cues| ==> Inbound(cues[i])
    ensures var h := Run(OfferTaken(op, id, from, c, now), c, cues);
            Faithful(h.slot, h.events, op.total, op.crc, PastOf(cues))
  {
    hide Faithful, React, OfferTaken;
    if cues == [] {
      OfferIsFaithful(op, id, from, c, now);
    } else {
      var pre, cue := cues[..|cues| - 1], cues[|cues| - 1];
      IntakeIsFaithful(op, id, from, c, now, pre);
      var h := Run(OfferTaken(op, id, from, c, now), c, pre);
      ReactKeeps(h.slot, h.events, op.total, op.crc, PastOf(pre), c, cue);
      PastGrows(pre, cue);
      assert cues == pre + [cue];
    }
  }

  /** An application told OK has the whole content, with the announced checksum, unless the peer has
      sent a refusal with code zero. */
  lemma SuccessMeansWhole(op: Op, id: U8, from: Addr, c: Config, now: Time, cues: seq<Cue>)
    requires op.Offer? && |op.name| <= NAME_MAX && OfferTaken(op, id, from, c, now).slot.phase != Free
    requires forall i :: 0 <= i < |cues| ==> Inbound(cues[i]) && !Zero(cues[i])
    ensures var h := Run(OfferTaken(op, id, from, c, now), c, cues);
            OnReceived(OK) in h.events ==> Whole(h.events, op.total, op.crc)
  {
    hide OfferTaken, Run, Whole;
    IntakeIsFaithful(op, id, from, c, now, cues);
  }

  /** Any refusal of the peer ends the stream, is handed on with the code it carries, and is not
      answered; so one with code zero is reported as success. */
  lemma RefusalIsHandedOn(d: Slot, op: Op, why: U8, now: Time)
    requires Sound(d) && d.phase != Free && (op == Reject(Some(why)) || op == Abort(Some(why)))
    ensures Received(d, op, now) == Effect(EMPTY, [], [if d.outbound then OnSent(why) else OnReceived(why)], 0)
  {
  }

  // ---- Sending ----

  /** What a sender of this content may put on the link. */
  predicate Genuine(op: Op, data: seq<Byte>) {
    match op
    case Offer(_, total, crc, _) => total == |data| && crc == Adler.Checksum(data)
    case Chunk(index, part) =>
      |data| < 0x1_0000_0000 && index < ChunksFor(|data|) && index * CHUNK <= |data| && part == ChunkAt(data, index)
    case Abort(why) => why.Some? && why.value != OK
    case _ => false
  }

  predicate AllGenuine(ops: seq<Op>, data: seq<Byte>) {
    forall i :: 0 <= i < |ops| ==> Genuine(ops[i], data)
  }

  predicate NoChunks(ops: seq<Op>) {
    forall i :: 0 <= i < |ops| ==> !ops[i].Chunk?
  }

  /** The peer has said yes, and has said that it is well. */
  datatype Heard = Heard(yes: bool, well: bool)

  predicate SaysYes(cue: Cue) {
    cue.Hear? && cue.op.Accept?
  }

  predicate SaysWell(cue: Cue) {
    Zero(cue) || (cue.Hear? && cue.op.Done? && (cue.op.verdict == None || cue.op.verdict == Some(OK)))
  }

  function HeardOf(cues: seq<Cue>): Heard {
    Heard(exists i :: 0 <= i < |cues| && SaysYes(cues[i]), exists i :: 0 <= i < |cues| && SaysWell(cues[i]))
  }

  function HeardMore(was: Heard, cue: Cue): Heard {
    Heard(was.yes || SaysYes(cue), was.well || SaysWell(cue))
  }

  /** A sender's slot, log and output: one report to the application at most, nothing but its own
      content on the link, no chunk before the peer's consent, no success before the peer's word. */
  ghost predicate Honest(d: Slot, events: seq<Event>, ops: seq<Op>, data: seq<Byte>, was: Heard) {
    && AllGenuine(ops, data)
    && (d.phase == Free ==> d == EMPTY && |events| == 1 && events[0].OnSent?)
    && (d.phase != Free ==>
          && d.phase in {Offering, Sending, Draining} && events == []
          && d.src == data && d.total == |data| && d.crc == Adler.Checksum(data))
    && ((d.phase in {Sending, Draining} || !NoChunks(ops)) ==> was.yes)
    && (events == [OnSent(OK)] ==> was.well)
  }

  lemma {:induction false} PumpIsGenuine(d: Slot, now: Time)
    requires |d.src| == d.total && d.phase == Sending
    ensures AllGenuine(PumpedOps(d, now), d.src)
    ensures var r := Pumped(d, now);
            r.phase in {Sending, Draining} && r.src == d.src && r.total == d.total && r.crc == d.crc
    decreases ChunksFor(d.total) - d.nextSeq
  {
    hide ChunksFor, Adler.Checksum, ChunkAt;
    PumpUnfolds(d, now);
    if CanPump(d) {
      PumpIsGenuine(PumpOne(d, now), now);
    }
  }

  lemma PumpIsHonest(d: Slot, d': Slot, events: seq<Event>, ops: seq<Op>, data: seq<Byte>, was: Heard, now: Time,
                     n: nat)
    requires Honest(d, events, ops, data, was) && d.phase != Free && was.yes
    requires d'.phase == Sending && d'.src == d.src && d'.total == d.total && d'.crc == d.crc
    ensures var e := Pump(d', now, n); Honest(e.slot, events + e.events, ops + e.ops, data, was)
  {
    hide Pumped, PumpedOps, Genuine, Adler.Checksum;
    PumpIsGenuine(d', now);
  }

  lemma EndIsHonest(d: Slot, events: seq<Event>, ops: seq<Op>, data: seq<Byte>, was: Heard, result: U8, more: seq<Op>)
    requires Honest(d, events, ops, data, was) && d.phase != Free && (result == OK ==> was.well)
    requires more == [] || (more == [Abort(Some(result))] && result != OK)
    ensures Honest(EMPTY, events + [OnSent(result)], ops + more, data, was)
  {
    hide Adler.Checksum;
  }

  lemma RestIsHonest(d: Slot, d': Slot, events: seq<Event>, ops: seq<Op>, data: seq<Byte>, was: Heard, more: seq<Op>)
    requires Honest(d, events, ops, data, was) && d.phase != Free
    requires d' == d.(lastRx := d'.lastRx, lastTx := d'.lastTx, retries := d'.retries)
    requires more == [] || more == [OfferOf(d)]
    ensures Honest(d', events + [], ops + more, data, was)
  {
    hide Adler.Checksum, ChunkAt, ChunksFor;
  }

  lemma WiserIsHonest(d: Slot, events: seq<Event>, ops: seq<Op>, data: seq<Byte>, was: Heard, more: Heard)
    requires Honest(d, events, ops, data, was) && (was.yes ==> more.yes) && (was.well ==> more.well)
    ensures Honest(d, events, ops, data, more)
  {
    hide AllGenuine, NoChunks, Adler.Checksum;
  }

  lemma SenderHearsHonestly(d: Slot, events: seq<Event>, ops: seq<Op>, data: seq<Byte>, was: Heard, op: Op, now: Time)
    requires Honest(d, events, ops, data, was) && d.phase != Free && Sound(d) && !op.Offer?
    requires (op.Accept? ==> was.yes) && (SaysWell(Hear(op, now)) ==> was.well)
    ensures var e := Received(d, op, now); Honest(e.slot, events + e.events, ops + e.ops, data, was)
  {
    hide Honest, Pumped, PumpedOps, TakeChunk;
    var d1 := d.(lastRx := now, retries := 0);
    SenderPhase(d, events, ops, data, was);
    RestIsHonest(d, d1, events, ops, data, was, []);
    match op
    case Accept(grant) =>
      if d.phase == Offering {
        PumpIsHonest(d, Granted(d1, grant).(phase := Sending), events, ops, data, was, now, 0);
      }
    case Ack(next, grant) =>
      if d.phase != Offering {
        var (d2, n) := Acked(d1, next);
        PumpIsHonest(d, Granted(d2, grant).(phase := Sending), events, ops, data, was, now, n);
      }
    case Reject(why) => EndIsHonest(d, events, ops, data, was, if why.Some? then why.value else REFUSED, []);
    case Done(verdict) => EndIsHonest(d, events, ops, data, was, if verdict.Some? then verdict.value else OK, []);
    case Abort(why) => EndIsHonest(d, events, ops, data, was, if why.Some? then why.value else CANCELLED, []);
    case Chunk(_, _) =>
    case Junk(_) =>
  }

  lemma SenderPhase(d: Slot, events: seq<Event>, ops: seq<Op>, data: seq<Byte>, was: Heard)
    requires Honest(d, events, ops, data, was) && d.phase != Free && Sound(d)
    ensures d.phase in {Offering, Sending, Draining} && d.outbound && (d.phase != Offering ==> was.yes)
  {
  }

  lemma TickIsHonest(d: Slot, events: seq<Event>, ops: seq<Op>, data: seq<Byte>, was: Heard, c: Config, now: Time)
    requires Honest(d, events, ops, data, was) && d.phase != Free && Sound(d)
    ensures var e := Ticked(d, c, now); Honest(e.slot, events + e.events, ops + e.ops, data, was)
  {
    hide Honest, Pumped, PumpedOps, TimeAfter, Add32;
    SenderPhase(d, events, ops, data, was);
    var tried := (d.retries + 1) % 0x100;
    RestIsHonest(d, d, events, ops, data, was, []);
    RestIsHonest(d, d.(retries := tried, lastTx := now), events, ops, data, was, [OfferOf(d)]);
    EndIsHonest(d, events, ops, data, was, TIMEOUT, []);
    EndIsHonest(d, events, ops, data, was, TIMEOUT, [Abort(Some(TIMEOUT))]);
    if d.phase != Offering {
      var d1 := d.(retries := tried, nextSeq := d.acked, rewoundTo := NO_REWIND, phase := Sending);
      PumpIsHonest(d, d1, events, ops, data, was, now, 1);
    }
  }

  lemma SenderReactsHonestly(d: Slot, events: seq<Event>, ops: seq<Op>, data: seq<Byte>, was: Heard, c: Config,
                             cue: Cue)
    requires Honest(d, events, ops, data, was) && Sound(d)
    ensures var e := React(d, c, cue);
            Honest(e.slot, events + e.events, ops + e.ops, data, HeardMore(was, cue))
  {
    hide Honest, Received, Ticked;
    var more := HeardMore(was, cue);
    WiserIsHonest(d, events, ops, data, was, more);
    assert events + [] == events && ops + [] == ops;
    if d.phase != Free {
      SenderPhase(d, events, ops, data, more);
      match cue
      case Hear(op, now) =>
        if !op.Offer? {
          SenderHearsHonestly(d, events, ops, data, more, op, now);
        }
      case Cancel => EndIsHonest(d, events, ops, data, more, CANCELLED, [Abort(Some(CANCELLED))]);
      case Pass(now) => TickIsHonest(d, events, ops, data, more, c, now);
      case _ =>
    }
  }

  lemma HeardGrows(cues: seq<Cue>, cue: Cue)
    ensures HeardOf(cues + [cue]) == HeardMore(HeardOf(cues), cue)
  {
    hide SaysYes, SaysWell;
    var all := cues + [cue];
    assert forall i :: 0 <= i < |cues| ==> all[i] == cues[i];
    assert all[|cues|] == cue;
  }

  lemma OpenedIsHonest(id: U8, to: Addr, kind: U8, name: seq<Byte>, data: seq<Byte>, c: Config, now: Time)
    requires 0 < |data| < 0x1_0000_0000
    ensures var e := Opened(id, to, kind, name, data, c, now);
            Honest(e.slot, e.events, e.ops, data, Heard(false, false))
  {
    hide Adler.Checksum;
  }

  /** Whatever comes back, a sender only ever puts its own offer and its own chunks on the link, the
      chunks only after a consent, tells its application once, and tells it OK only on the peer's
      word. */
  lemma {:induction false} SenderIsHonest(id: U8, to: Addr, kind: U8, name: seq<Byte>, data: seq<Byte>, c: Config,
                                          now: Time, cues: seq<Cue>)
    requires 0 < |data| < 0x1_0000_0000
    ensures var h := Run(Opened(id, to, kind, name, data, c, now), c, cues);
            Honest(h.slot, h.events, h.ops, data, HeardOf(cues))
  {
    hide Honest, React, Opened;
    if cues == [] {
      OpenedIsHonest(id, to, kind, name, data, c, now);
    } else {
      var pre, cue := cues[..|cues| - 1], cues[|cues| - 1];
      SenderIsHonest(id, to, kind, name, data, c, now, pre);
      var h := Run(Opened(id, to, kind, name, data, c, now), c, pre);
      SenderReactsHonestly(h.slot, h.events, h.ops, data, HeardOf(pre), c, cue);
      HeardGrows(pre, cue);
      assert cues == pre + [cue];
    }
  }
}
