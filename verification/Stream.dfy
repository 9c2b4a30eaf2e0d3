/** One transfer slot of the bulk transport: what each incoming operation, the clock and
    the application do to a single stream, as functions from the slot to the slot. */
module Stream {
  import opened Types
  import Adler

  const CHUNK := 60
  const NAME_MAX := 48
  const NO_REWIND: U16 := 0xFFFF

  // Verdicts carried by REJECT, DONE and ABORT.
  const OK: U8 := 0
  const REFUSED: U8 := 1
  const TIMEOUT: U8 := 2
  const CORRUPT: U8 := 3
  const TOO_BIG: U8 := 4
  const CANCELLED: U8 := 5
  const NO_STREAM: U8 := 6

  /** The operations of a DATA payload. An optional field is one the receiver defaults
      when the payload is too short for it; Junk is an unknown opcode or a CHUNK or ACK
      too short to act on, which still counts as a sign of life. */
  datatype Op =
    | Offer(kind: U8, total: U32, crc: Adler.Sum, name: seq<Byte>)
    | Accept(grant: Option<U8>)
    | Reject(why: Option<U8>)
    | Chunk(index: U16, data: seq<Byte>)
    | Ack(next: U16, grant: Option<U8>)
    | Done(verdict: Option<U8>)
    | Abort(why: Option<U8>)
    | Junk(answer: bool)

  datatype Phase = Free | Offering | Sending | Draining | Offered | Receiving

  /** dhp_data_stream_t. */
  datatype Slot = Slot(
    phase: Phase, id: U8, outbound: bool, peer: Addr, kind: U8, name: seq<Byte>,
    total: U32, crc: Adler.Sum, running: Adler.Sum,
    nextSeq: U16, acked: U16, rewoundTo: U16, window: U8,
    src: seq<Byte>, lastRx: Time, lastTx: Time, retries: U8)

  const EMPTY: Slot :=
    Slot(Free, 0, false, 0, 0, [], 0, Adler.Sum(0, 0), Adler.Sum(0, 0), 0, 0, 0, 0, [], 0, 0, 0)

  /** The tunables of dhp_data_t. */
  datatype Config = Config(
    window: U8, ackTimeout: U16, maxRetries: U8, offerTimeout: U16, offerRetries: U8,
    idleTimeout: U16, maxInbound: U32)

  datatype Event =
    | OnOffer(from: Addr, kind: U8, total: U32, name: seq<Byte>)
    | OnChunk(offset: nat, data: seq<Byte>)
    | OnReceived(result: U8)
    | OnSent(result: U8)

  /** What handling something does: the slot afterwards, the operations put on the link,
      the hooks called, and whether the retransmission counter moved. */
  datatype Effect = Effect(slot: Slot, ops: seq<Op>, events: seq<Event>, rewinds: nat)

  function Quiet(s: Slot): Effect {
    Effect(s, [], [], 0)
  }

  /** chunks_for: the number of chunks, truncated to 16 bits as the code does. */
  function ChunksFor(total: U32): U16 {
    (Add32(total, CHUNK - 1) / CHUNK) % 0x1_0000
  }

  /** The bytes of chunk k of a content. */
  function ChunkAt(src: seq<Byte>, k: nat): seq<Byte>
    requires k * CHUNK <= |src|
  {
    src[k * CHUNK .. if k * CHUNK + CHUNK <= |src| then k * CHUNK + CHUNK else |src|]
  }

  /** The whole content fits the 16-bit chunk counter. */
  predicate Countable(total: U32) {
    total <= 65535 * CHUNK
  }

  /** Truncation only ever loses chunks, and loses none exactly when the content is
      countable: 8 MB, the default inbound limit, is not. */
  lemma ChunksCover(total: U32)
    ensures ChunksFor(total) * CHUNK < total + CHUNK
    ensures ChunksFor(total) * CHUNK >= total <==> Countable(total)
    ensures !Countable(8 * 1024 * 1024)
  {
  }

  /** A slot that the sending side can read its content through. */
  predicate Sound(s: Slot) {
    && |s.name| <= NAME_MAX
    && (s.phase in {Offering, Sending, Draining} ==> s.outbound && |s.src| == s.total)
    && (s.phase in {Offered, Receiving} ==> !s.outbound && Adler.Reduced(s.running) && s.nextSeq < 0xFFFF)
  }

  function OfferOf(s: Slot): Op {
    Offer(s.kind, s.total, s.crc, s.name)
  }

  /** dhp_data_send, once a slot is found. */
  function Opened(id: U8, to: Addr, kind: U8, name: seq<Byte>, data: seq<Byte>, c: Config, now: Time): (e: Effect)
    requires 0 < |data| < 0x1_0000_0000
    ensures Sound(e.slot)
  {
    var kept := if |name| > NAME_MAX then name[..NAME_MAX] else name;
    var s := Slot(Offering, id, true, to, kind, kept, |data|, Adler.Checksum(data), Adler.Sum(0, 0),
                  0, 0, NO_REWIND, c.window, data, now, now, 0);
    Effect(s, [OfferOf(s)], [], 0)
  }

  /** finish: the slot is cleared before the application is told. */
  function Finished(s: Slot, result: U8, ops: seq<Op>): Effect {
    Effect(EMPTY, ops, [if s.outbound then OnSent(result) else OnReceived(result)], 0)
  }

  /** The guard of the pump loop, with its unsigned 16-bit subtraction. */
  predicate CanPump(s: Slot) {
    s.nextSeq < ChunksFor(s.total) && (s.nextSeq - s.acked) % 0x1_0000 < s.window
  }

  function PumpOne(s: Slot, now: Time): Slot
    requires s.nextSeq < 0xFFFF
  {
    s.(nextSeq := s.nextSeq + 1, lastTx := now)
  }

  /** pump_sender: the slot after pushing chunks until the window or the content ends. */
  function Pumped(s: Slot, now: Time): (r: Slot)
    decreases ChunksFor(s.total) - s.nextSeq
  {
    if CanPump(s) then Pumped(PumpOne(s, now), now)
    else if s.nextSeq >= ChunksFor(s.total) && s.phase == Sending then s.(phase := Draining)
    else s
  }

  /** pump_sender: the chunks it puts on the link. */
  function PumpedOps(s: Slot, now: Time): (ops: seq<Op>)
    requires |s.src| == s.total
    decreases ChunksFor(s.total) - s.nextSeq
  {
    if CanPump(s) then
      ChunksCover(s.total);
      [Chunk(s.nextSeq, ChunkAt(s.src, s.nextSeq))] + PumpedOps(PumpOne(s, now), now)
    else []
  }

  lemma PumpUnfolds(s: Slot, now: Time)
    requires |s.src| == s.total
    ensures CanPump(s) ==>
              && s.nextSeq < ChunksFor(s.total) && s.nextSeq * CHUNK <= |s.src|
              && Pumped(s, now) == Pumped(PumpOne(s, now), now)
              && PumpedOps(s, now) == [Chunk(s.nextSeq, ChunkAt(s.src, s.nextSeq))] + PumpedOps(PumpOne(s, now), now)
    ensures !CanPump(s) ==>
              && PumpedOps(s, now) == []
              && Pumped(s, now) ==
                 if s.nextSeq >= ChunksFor(s.total) && s.phase == Sending then s.(phase := Draining) else s
  {
    ChunksCover(s.total);
  }

  /** The slot and the chunks after an event that lets the sender go on. */
  function Pump(s: Slot, now: Time, rewinds: nat): Effect
    requires |s.src| == s.total
  {
    Effect(Pumped(s, now), PumpedOps(s, now), [], rewinds)
  }

  function Granted(s: Slot, grant: Option<U8>): Slot {
    if grant.Some? && grant.value > 0 then s.(window := grant.value) else s
  }

  /** What an ACK at `next` does to the send position, before pumping. */
  function Acked(s: Slot, next: U16): (Slot, nat) {
    var s1 := if next > s.acked then s.(acked := next, rewoundTo := NO_REWIND) else s;
    if next < s1.nextSeq && s1.rewoundTo != next
    then (s1.(nextSeq := next, rewoundTo := next), 1)
    else (s1, 0)
  }

  function AckOf(s: Slot): Op {
    Ack(s.nextSeq, Some(s.window))
  }

  /** rx_chunk on a receiving slot. */
  function TakeChunk(s: Slot, index: U16, data: seq<Byte>, now: Time): Effect
    requires Sound(s) && s.phase == Receiving
  {
    if index != s.nextSeq then
      if TimeAfter(now, Add32(s.lastTx, 20))
      then Effect(s.(lastRx := now, lastTx := now), [AckOf(s)], [], 0)
      else Quiet(s.(lastRx := now))
    else if index * CHUNK + |data| > s.total then
      Finished(s, CORRUPT, [Abort(Some(CORRUPT))])
    else
      var event := OnChunk(index * CHUNK, data);
      var s1 := s.(lastRx := now, running := Adler.Continue(s.running, data),
                   nextSeq := s.nextSeq + 1, acked := s.nextSeq + 1);
      if s1.nextSeq >= ChunksFor(s.total) then
        var verdict := if s1.running == s.crc then OK else CORRUPT;
        Effect(EMPTY, [Done(Some(verdict))], [event, OnReceived(verdict)], 0)
      else if s1.nextSeq % (if s.window / 2 == 0 then 1 else s.window / 2) == 0 then
        Effect(s1.(lastTx := now), [AckOf(s1)], [event], 0)
      else
        Effect(s1, [], [event], 0)
  }

  /** dhp_data_rx, once the slot an operation belongs to is found. */
  function Received(s0: Slot, op: Op, now: Time): (e: Effect)
    requires Sound(s0) && s0.phase != Free && !op.Offer?
    ensures Sound(e.slot) && (e.slot == EMPTY || e.slot.outbound == s0.outbound)
  {
    var s := s0.(lastRx := now, retries := 0);
    match op
    case Accept(grant) =>
      if s.phase == Offering
      then PumpedIsSound(Granted(s, grant).(phase := Sending), now);
           Pump(Granted(s, grant).(phase := Sending), now, 0)
      else Quiet(s)
    case Reject(why) => Finished(s, if why.Some? then why.value else REFUSED, [])
    case Chunk(index, data) =>
      if s.phase == Receiving then TakeChunk(s, index, data, now) else Quiet(s)
    case Ack(next, grant) =>
      if s.phase == Sending || s.phase == Draining then
        var (s1, rewinds) := Acked(s, next);
        PumpedIsSound(Granted(s1, grant).(phase := Sending), now);
        Pump(Granted(s1, grant).(phase := Sending), now, rewinds)
      else Quiet(s)
    case Done(verdict) => Finished(s, if verdict.Some? then verdict.value else OK, [])
    case Abort(why) => Finished(s, if why.Some? then why.value else CANCELLED, [])
    case Junk(_) => Quiet(s)
  }

  lemma {:induction false} PumpedIsSound(s: Slot, now: Time)
    requires Sound(s) && s.phase == Sending
    ensures Sound(Pumped(s, now)) && Pumped(s, now).outbound == s.outbound
    decreases ChunksFor(s.total) - s.nextSeq
  {
    if CanPump(s) {
      PumpedIsSound(PumpOne(s, now), now);
    }
  }

  /** rx_offer into a free slot: either a new offered stream or an outright refusal. */
  function OfferTaken(op: Op, id: U8, from: Addr, c: Config, now: Time): (e: Effect)
    requires op.Offer? && |op.name| <= NAME_MAX
    ensures Sound(e.slot)
  {
    if op.total == 0 || op.total > c.maxInbound then
      Effect(EMPTY, [Reject(Some(TOO_BIG))], [], 0)
    else
      Effect(Slot(Offered, id, false, from, op.kind, op.name, op.total, op.crc, Adler.INIT,
                  0, 0, 0, c.window, [], now, 0, 0),
             [], [OnOffer(from, op.kind, op.total, op.name)], 0)
  }

  /** rx_offer when the stream is already open: the answer is repeated, not reopened. */
  function OfferRepeated(s: Slot, now: Time): Effect {
    if s.phase == Receiving then Effect(s.(lastTx := now), [AckOf(s)], [], 0) else Quiet(s)
  }

  /** dhp_data_accept. */
  function Accepted(s: Slot, c: Config, now: Time): Effect {
    if s.phase == Offered
    then Effect(s.(phase := Receiving, lastRx := now, lastTx := now), [Accept(Some(c.window))], [], 0)
    else Quiet(s)
  }

  /** dhp_data_reject. */
  function Rejected(s: Slot): Effect {
    if s.phase == Offered then Effect(EMPTY, [Reject(Some(REFUSED))], [], 0) else Quiet(s)
  }

  /** dhp_data_cancel. */
  function Cancelled(s: Slot): Effect {
    if s.phase == Free then Quiet(s) else Finished(s, CANCELLED, [Abort(Some(CANCELLED))])
  }

  /** One slot of dhp_data_tick. */
  function Ticked(s: Slot, c: Config, now: Time): (e: Effect)
    requires Sound(s)
    ensures Sound(e.slot) && (e.slot == EMPTY || e.slot.outbound == s.outbound) && (s.phase == Free ==> e.slot == s)
    ensures OnSent(OK) !in e.events && OnReceived(OK) !in e.events
  {
    if s.phase == Free then Quiet(s)
    else if TimeAfter(now, Add32(s.lastRx, c.idleTimeout)) then Finished(s, TIMEOUT, [])
    else if !s.outbound then Quiet(s)
    else
      var offering := s.phase == Offering;
      if !TimeAfter(now, Add32(s.lastTx, if offering then c.offerTimeout else c.ackTimeout)) then Quiet(s)
      else
        var retries := (s.retries + 1) % 0x100;
        if retries > (if offering then c.offerRetries else c.maxRetries) then
          Finished(s, TIMEOUT, [Abort(Some(TIMEOUT))])
        else if offering then
          Effect(s.(retries := retries, lastTx := now), [OfferOf(s)], [], 0)
        else
          var s1 := s.(retries := retries, nextSeq := s.acked, rewoundTo := NO_REWIND, phase := Sending);
          PumpedIsSound(s1, now);
          Pump(s1, now, 1)
  }
}
