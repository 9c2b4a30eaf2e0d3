/** One transfer end to end: a sender, a receiver and two FIFO channels that may lose any
    frame, under every schedule of deliveries, losses, clock ticks and application calls. */
module Transfer {
  import opened Types
  import opened Stream
  import Adler

  /** What is fixed for the length of a run. */
  datatype World = World(
    content: seq<Byte>, kind: U8, name: seq<Byte>, id: U8, sender: Addr, receiver: Addr,
    sc: Config, rc: Config)
  {
    predicate Valid() {
      0 < |content| < 0x1_0000_0000
    }

    /** The number of chunks the two ends agree on. */
    function Chunks(): U16
      requires Valid()
    {
      ChunksFor(|content|)
    }

    /** The window in force once the receiver has accepted. */
    function Window(): U8 {
      if rc.window > 0 then rc.window else sc.window
    }
  }

  /** The state of a run. `taken`, `sent`, `log`, `outcome`, `timeouts` and `rewinds` are
      history: chunks the inbound stream has taken, the furthest send position, the chunks
      handed to the application, what the sender's application was told, and the counters. */
  datatype State = State(
    snd: Slot, rcv: Slot, toRcv: seq<Op>, toSnd: seq<Op>,
    taken: nat, sent: nat, log: seq<Event>, outcome: Option<U8>,
    timeouts: nat, rewinds: nat)

  datatype Step =
    | SenderHears(now: Time)
    | ReceiverHears(now: Time, slotFree: bool)
    | LoseToReceiver(at: nat)
    | LoseToSender(at: nat)
    | SenderTicks(now: Time)
    | ReceiverTicks(now: Time)
    | AppAccepts(now: Time)
    | AppRejects
    | SenderCancels
    | ReceiverCancels

  function Initial(w: World, now: Time): State
    requires w.Valid()
  {
    var e := Opened(w.id, w.receiver, w.kind, w.name, w.content, w.sc, now);
    State(e.slot, EMPTY, e.ops, [], 0, 0, [], None, 0, 0)
  }

  function ChunkEvents(events: seq<Event>): seq<Event> {
    if events == [] then []
    else (if events[0].OnChunk? then [events[0]] else []) + ChunkEvents(events[1..])
  }

  function SentResult(events: seq<Event>, before: Option<U8>): Option<U8> {
    if events != [] && events[0].OnSent? then Some(events[0].result) else before
  }

  /** The sender's slot did something. */
  function SenderDid(s: State, e: Effect, timeouts: nat): State {
    s.(snd := e.slot, toRcv := s.toRcv + e.ops,
       sent := if e.slot.nextSeq > s.sent then e.slot.nextSeq else s.sent,
       outcome := SentResult(e.events, s.outcome), timeouts := s.timeouts + timeouts,
       rewinds := s.rewinds + e.rewinds)
  }

  /** The receiver's slot did something. */
  function ReceiverDid(s: State, e: Effect): State {
    var chunks := ChunkEvents(e.events);
    s.(rcv := e.slot, toSnd := s.toSnd + e.ops, log := s.log + chunks, taken := s.taken + |chunks|)
  }

  /** A new inbound stream starts a new delivery. */
  function ReceiverOpened(s: State, e: Effect): State {
    if e.slot.phase == Free then s.(toSnd := s.toSnd + e.ops)
    else s.(rcv := e.slot, toSnd := s.toSnd + e.ops, log := [], taken := 0)
  }

  predicate Healthy(s: State) {
    && Sound(s.snd) && Sound(s.rcv)
    && forall i :: 0 <= i < |s.toRcv| ==> s.toRcv[i].Offer? ==> |s.toRcv[i].name| <= NAME_MAX
  }

  /** One step; a step that is not enabled changes nothing. */
  function Next(w: World, s: State, step: Step): State
    requires w.Valid() && Healthy(s)
  {
    match step
    case SenderHears(now) =>
      if s.toSnd == [] then s
      else
        var op, t := s.toSnd[0], s.(toSnd := s.toSnd[1..]);
        if s.snd.phase == Free || op.Offer? then t else SenderDid(t, Received(s.snd, op, now), 0)
    case ReceiverHears(now, slotFree) =>
      if s.toRcv == [] then s
      else
        var op, t := s.toRcv[0], s.(toRcv := s.toRcv[1..]);
        if op.Offer? then
          if s.rcv.phase != Free then ReceiverDid(t, OfferRepeated(s.rcv, now))
          else if slotFree then ReceiverOpened(t, OfferTaken(op, w.id, w.sender, w.rc, now))
          else t.(toSnd := t.toSnd + [Reject(Some(NO_STREAM))])
        else if s.rcv.phase == Free then t
        else ReceiverDid(t, Received(s.rcv, op, now))
    case LoseToReceiver(at) => s.(toRcv := Without(s.toRcv, at))
    case LoseToSender(at) => s.(toSnd := Without(s.toSnd, at))
    case SenderTicks(now) =>
      var e := Ticked(s.snd, w.sc, now);
      SenderDid(s, e, e.rewinds)
    case ReceiverTicks(now) => ReceiverDid(s, Ticked(s.rcv, w.rc, now))
    case AppAccepts(now) => ReceiverDid(s, Accepted(s.rcv, w.rc, now))
    case AppRejects => ReceiverDid(s, Rejected(s.rcv))
    case SenderCancels => SenderDid(s, Cancelled(s.snd), 0)
    case ReceiverCancels => ReceiverDid(s, Cancelled(s.rcv))
  }

  function Min(a: int, b: int): int {
    if a < b then a else b
  }

  // ---- What every run keeps ----

  /** The sender's slot belongs to this transfer. Once accepted, its send position is
      exactly a window past the acknowledged one, or the end of the content. */
  ghost predicate SenderInv(w: World, s: State)
    requires w.Valid()
  {
    var t, d := w.Chunks(), s.snd;
    && d.phase in {Free, Offering, Sending, Draining}
    && (d.phase == Free ==> d == EMPTY)
    && (d.phase != Free ==>
          && Sound(d) && d.src == w.content && d.crc == Adler.Checksum(w.content)
          && s.outcome.None?)
    && (d.phase == Offering ==>
          && d.nextSeq == d.acked == 0 && d.rewoundTo == NO_REWIND && s.sent == 0
          && s.rewinds == s.timeouts == 0 && (w.rc.window == 0 ==> d.window == w.Window()))
    && (d.phase in {Sending, Draining} ==>
          && d.window == w.Window()
          && d.nextSeq == s.sent == Min(t, d.acked + w.Window())
          && d.acked <= s.taken
          && (d.phase == Draining <==> d.nextSeq == t)
          && d.rewoundTo in {NO_REWIND, d.acked})
  }

  /** The receiver's slot has folded exactly the chunks it has taken. */
  ghost predicate ReceiverInv(w: World, s: State)
    requires w.Valid()
  {
    var t, d := w.Chunks(), s.rcv;
    && d.phase in {Free, Offered, Receiving}
    && (d.phase == Free ==> d == EMPTY)
    && s.taken <= s.sent <= t
    && s.taken * CHUNK < |w.content| + CHUNK
    && s.log == ChunkLog(w.content, s.taken)
    && (d.phase != Free ==>
          && Sound(d) && d.total == |w.content| && d.crc == Adler.Checksum(w.content)
          && d.window == w.rc.window && d.nextSeq == s.taken
          && d.running == Adler.Checksum(Prefix(w.content, s.taken))
          && (s.taken > 0 ==> s.taken < t))
    && (d.phase == Offered ==> s.taken == 0)
  }

  /** Everything on its way to the receiver is genuine, and no offer is behind a chunk. */
  ghost predicate ToReceiverInv(w: World, s: State)
    requires w.Valid()
  {
    forall i :: 0 <= i < |s.toRcv| ==> GenuineToReceiver(w, s, i)
  }

  ghost predicate GenuineToReceiver(w: World, s: State, i: nat)
    requires w.Valid() && i < |s.toRcv|
  {
    var op := s.toRcv[i];
    && (op.Offer? || op.Chunk? || op.Abort?)
    && (op.Chunk? ==>
          op.index < s.sent && op.index * CHUNK <= |w.content| && op.data == ChunkAt(w.content, op.index))
    && (op.Offer? ==>
          && op.total == |w.content| && op.crc == Adler.Checksum(w.content) && |op.name| <= NAME_MAX
          && s.taken == 0
          && forall j :: 0 <= j < i ==> s.toRcv[j].Offer?)
    && (op.Abort? ==> op.why.Some? && op.why.value != OK && s.snd.phase == Free)
  }

  /** Everything on its way to the sender is true of the receiver; acknowledgements arrive
      in order, never behind what the sender already knows, never at the sentinel. */
  ghost predicate ToSenderInv(w: World, s: State)
    requires w.Valid()
  {
    && (forall i :: 0 <= i < |s.toSnd| ==> GenuineToSender(w, s, s.toSnd[i]))
    && (forall i, j :: 0 <= i < j < |s.toSnd| && s.toSnd[i].Ack? && s.toSnd[j].Ack? ==>
          s.toSnd[i].next <= s.toSnd[j].next)
  }

  ghost predicate GenuineToSender(w: World, s: State, op: Op)
    requires w.Valid()
  {
    && (op.Accept? || op.Reject? || op.Ack? || op.Done? || op.Abort?)
    && (op.Accept? ==> op.grant == Some(w.rc.window))
    && (op.Ack? ==>
          && op.grant == Some(w.rc.window) && op.next <= s.taken
          && (op.next == 0 || op.next < w.Chunks())
          && (s.snd.phase in {Sending, Draining} ==> s.snd.acked <= op.next))
    && (op.Done? ==> op.verdict == Some(Verdict(w, s)) && s.taken == w.Chunks() > 0)
    && ((op.Reject? || op.Abort?) ==> op.why.Some? && op.why.value != OK)
  }

  /** The receiver's verdict over what it has taken. */
  ghost function Verdict(w: World, s: State): U8 {
    if Adler.Checksum(Prefix(w.content, s.taken)) == Adler.Checksum(w.content) then OK else CORRUPT
  }

  /** Each chunk position draws at most one rewind, each timeout at most one more. */
  ghost predicate CountersInv(w: World, s: State)
    requires w.Valid()
  {
    && s.rewinds <= w.Chunks() + 2 * s.timeouts
    && (s.snd.phase in {Sending, Draining} ==>
          && s.rewinds <= s.snd.acked + 2 * s.timeouts + (if s.snd.rewoundTo == NO_REWIND then 0 else 1)
          && (s.snd.rewoundTo != NO_REWIND ==> s.snd.acked < w.Chunks()))
  }

  /** An application told that its transfer succeeded was told so by the verdict. */
  ghost predicate OutcomeInv(w: World, s: State)
    requires w.Valid()
  {
    s.outcome == Some(OK) ==> s.taken == w.Chunks() > 0 && Verdict(w, s) == OK
  }

  ghost predicate Invariant(w: World, s: State)
    requires w.Valid()
  {
    && SenderInv(w, s) && ReceiverInv(w, s) && ToReceiverInv(w, s) && ToSenderInv(w, s)
    && CountersInv(w, s) && OutcomeInv(w, s)
  }

  /** The first k chunks of a content. */
  function Prefix(content: seq<Byte>, k: nat): seq<Byte> {
    content[..if k * CHUNK <= |content| then k * CHUNK else |content|]
  }

  /** The hook calls that deliver the first k chunks once each, in order. */
  function ChunkLog(content: seq<Byte>, k: nat): seq<Event>
    requires k * CHUNK < |content| + CHUNK
  {
    if k == 0 then [] else ChunkLog(content, k - 1) + [OnChunk((k - 1) * CHUNK, ChunkAt(content, k - 1))]
  }

  // ---- Proofs ----

  /** The pump fills the window: every chunk from the send position up to a window past
      the acknowledged one, once each, genuine. */
  lemma {:induction false} PumpFillsWindow(s: Slot, now: Time)
    requires |s.src| == s.total
    requires s.acked <= s.nextSeq <= Min(ChunksFor(s.total), s.acked + s.window)
    ensures var r := Pumped(s, now);
            && r.nextSeq == Min(ChunksFor(s.total), s.acked + s.window)
            && r == s.(nextSeq := r.nextSeq, lastTx := r.lastTx, phase := r.phase)
            && r.phase == (if s.phase == Sending && r.nextSeq == ChunksFor(s.total) then Draining else s.phase)
    ensures var ops := PumpedOps(s, now);
            && |ops| == Pumped(s, now).nextSeq - s.nextSeq
            && forall i :: 0 <= i < |ops| ==>
                 && ops[i].Chunk? && ops[i].index == s.nextSeq + i
                 && ops[i].index * CHUNK <= |s.src| && ops[i].data == ChunkAt(s.src, ops[i].index)
    decreases ChunksFor(s.total) - s.nextSeq
  {
    ChunksCover(s.total);
    if CanPump(s) {
      PumpFillsWindow(PumpOne(s, now), now);
    }
  }

  /** Sending chunks below the new send position keeps both channels sound. */
  lemma SenderAdvances(w: World, s: State, t: State, d: Slot, now: Time, rewinds: nat, timeouts: nat)
    requires w.Valid() && Invariant(w, s)
    requires s.snd.phase != Free && Sound(d) && d.phase == Sending && d.src == w.content && d.crc == s.snd.crc
    requires d.window == w.Window()
    requires d.acked <= s.taken && d.acked <= d.nextSeq <= Min(w.Chunks(), d.acked + w.Window())
    requires s.sent <= Min(w.Chunks(), d.acked + w.Window())
    requires d.rewoundTo in {NO_REWIND, d.acked}
    requires s.rewinds + rewinds <= d.acked + 2 * (s.timeouts + timeouts) + (if d.rewoundTo == NO_REWIND then 0 else 1)
    requires d.rewoundTo != NO_REWIND ==> d.acked < w.Chunks()
    requires forall i :: 0 <= i < |t.toSnd| && t.toSnd[i].Ack? ==> d.acked <= t.toSnd[i].next
    requires t == s.(toSnd := t.toSnd) && ToSenderInv(w, t)
    ensures Invariant(w, SenderDid(t, Pump(d, now, rewinds), timeouts))
  {
    PumpFillsWindow(d, now);
    PumpedIsSound(d, now);
    var u := SenderDid(t, Pump(d, now, rewinds), timeouts);
    forall i | 0 <= i < |u.toRcv| ensures GenuineToReceiver(w, u, i) {
      if i < |s.toRcv| {
        assert GenuineToReceiver(w, s, i);
      }
    }
    forall i | 0 <= i < |u.toSnd| ensures GenuineToSender(w, u, u.toSnd[i]) {
      assert GenuineToSender(w, t, t.toSnd[i]);
    }
  }

  /** The sender's slot is finished and an abort may have been sent. */
  lemma SenderStops(w: World, s: State, t: State, result: U8, ops: seq<Op>)
    requires w.Valid() && Invariant(w, s) && s.snd.phase != Free
    requires t == s.(toSnd := t.toSnd) && ToSenderInv(w, t)
    requires ops == [] || (ops == [Abort(Some(result))] && result != OK)
    requires result == OK ==> s.taken == w.Chunks() > 0 && Verdict(w, s) == OK
    ensures Invariant(w, SenderDid(t, Finished(s.snd, result, ops), 0))
  {
    var u := SenderDid(t, Finished(s.snd, result, ops), 0);
    forall i | 0 <= i < |u.toRcv| ensures GenuineToReceiver(w, u, i) {
      if i < |s.toRcv| {
        assert GenuineToReceiver(w, s, i);
      }
    }
    forall i | 0 <= i < |u.toSnd| ensures GenuineToSender(w, u, u.toSnd[i]) {
      assert GenuineToSender(w, t, t.toSnd[i]);
    }
  }

  /** Taking something off a channel, or losing it, leaves what remains sound. */
  lemma ToSenderShrinks(w: World, s: State, at: nat)
    requires w.Valid() && Invariant(w, s)
    ensures Invariant(w, s.(toSnd := Without(s.toSnd, at)))
  {
    var t := s.(toSnd := Without(s.toSnd, at));
    forall i | 0 <= i < |t.toSnd| ensures GenuineToSender(w, t, t.toSnd[i]) {
      assert GenuineToSender(w, s, s.toSnd[if i < at then i else i + 1]);
    }
    forall i | 0 <= i < |t.toRcv| ensures GenuineToReceiver(w, t, i) {
      assert GenuineToReceiver(w, s, i);
    }
  }

  lemma ToReceiverShrinks(w: World, s: State, at: nat)
    requires w.Valid() && Invariant(w, s)
    ensures Invariant(w, s.(toRcv := Without(s.toRcv, at)))
  {
    var t := s.(toRcv := Without(s.toRcv, at));
    forall i | 0 <= i < |t.toRcv| ensures GenuineToReceiver(w, t, i) {
      if at < |s.toRcv| {
        WithoutAt(s.toRcv, at, i);
        forall j | 0 <= j < i ensures t.toRcv[j] == s.toRcv[if j < at then j else j + 1] {
          WithoutAt(s.toRcv, at, j);
        }
      }
      assert GenuineToReceiver(w, s, if i < at then i else i + 1);
    }
    forall i | 0 <= i < |t.toSnd| ensures GenuineToSender(w, t, t.toSnd[i]) {
      assert GenuineToSender(w, s, s.toSnd[i]);
    }
  }

  /** The only thing that changed is bookkeeping the invariant does not mention. */
  lemma SenderIdles(w: World, s: State, d: Slot, ops: seq<Op>)
    requires w.Valid() && Invariant(w, s) && s.snd.phase != Free
    requires d == s.snd.(lastRx := d.lastRx, lastTx := d.lastTx, retries := d.retries)
    requires ops == [] || (s.snd.phase == Offering && ops == [OfferOf(s.snd)])
    ensures Invariant(w, SenderDid(s, Effect(d, ops, [], 0), 0))
  {
    forall i | 0 <= i < |s.toRcv| && s.snd.phase == Offering ensures s.toRcv[i].Offer? {
      assert GenuineToReceiver(w, s, i);
    }
    var u := SenderDid(s, Effect(d, ops, [], 0), 0);
    forall i | 0 <= i < |u.toRcv| ensures GenuineToReceiver(w, u, i) {
      if i < |s.toRcv| {
        assert GenuineToReceiver(w, s, i);
      }
    }
    forall i | 0 <= i < |u.toSnd| ensures GenuineToSender(w, u, u.toSnd[i]) {
      assert GenuineToSender(w, s, s.toSnd[i]);
    }
  }

  /** ACCEPT opens the window; ACK moves it, and never moves it back. */
  lemma AcceptKeeps(w: World, s: State, t: State, op: Op, now: Time)
    requires w.Valid() && Invariant(w, s) && s.snd.phase == Offering && op.Accept? && GenuineToSender(w, s, op)
    requires t == s.(toSnd := t.toSnd) && ToSenderInv(w, t)
    ensures Invariant(w, SenderDid(t, Received(s.snd, op, now), 0))
  {
    var d := Granted(s.snd.(lastRx := now, retries := 0), op.grant).(phase := Sending);
    SenderAdvances(w, s, t, d, now, 0, 0);
  }

  lemma AckKeeps(w: World, s: State, t: State, op: Op, now: Time)
    requires w.Valid() && Invariant(w, s) && s.snd.phase in {Sending, Draining} && op.Ack? && GenuineToSender(w, s, op)
    requires t == s.(toSnd := t.toSnd) && ToSenderInv(w, t)
    requires forall i :: 0 <= i < |t.toSnd| && t.toSnd[i].Ack? ==> op.next <= t.toSnd[i].next
    ensures Invariant(w, SenderDid(t, Received(s.snd, op, now), 0))
  {
    var (d1, rewinds) := Acked(s.snd.(lastRx := now, retries := 0), op.next);
    var d := Granted(d1, op.grant).(phase := Sending);
    SenderAdvances(w, s, t, d, now, rewinds, 0);
  }

  lemma SenderHearsKeeps(w: World, s: State, now: Time)
    requires w.Valid() && Invariant(w, s) && Healthy(s)
    ensures Invariant(w, Next(w, s, SenderHears(now)))
  {
    if s.toSnd != [] {
      var op, t := s.toSnd[0], s.(toSnd := s.toSnd[1..]);
      ToSenderShrinks(w, s, 0);
      assert Without(s.toSnd, 0) == s.toSnd[1..];
      assert GenuineToSender(w, s, op);
      if s.snd.phase != Free {
        AcksAhead(s);
        SenderHandles(w, s, t, op, now);
      }
    }
  }

  lemma AcksAhead(s: State)
    requires s.toSnd != []
    requires forall i, j :: 0 <= i < j < |s.toSnd| && s.toSnd[i].Ack? && s.toSnd[j].Ack? ==>
               s.toSnd[i].next <= s.toSnd[j].next
    ensures s.toSnd[0].Ack? ==>
              forall i :: 0 <= i < |s.toSnd[1..]| && s.toSnd[1..][i].Ack? ==> s.toSnd[0].next <= s.toSnd[1..][i].next
  {
  }

  lemma SenderHandles(w: World, s: State, t: State, op: Op, now: Time)
    requires w.Valid() && Invariant(w, s) && s.snd.phase != Free && GenuineToSender(w, s, op)
    requires t == s.(toSnd := t.toSnd) && Invariant(w, t)
    requires op.Ack? ==> forall i :: 0 <= i < |t.toSnd| && t.toSnd[i].Ack? ==> op.next <= t.toSnd[i].next
    ensures Invariant(w, SenderDid(t, Received(s.snd, op, now), 0))
  {
    var d := s.snd.(lastRx := now, retries := 0);
    if op.Accept? && s.snd.phase == Offering {
      AcceptKeeps(w, s, t, op, now);
    } else if op.Ack? && s.snd.phase != Offering {
      AckKeeps(w, s, t, op, now);
    } else if op.Reject? || op.Abort? {
      SenderStops(w, s, t, op.why.value, []);
    } else if op.Done? {
      SenderStops(w, s, t, op.verdict.value, []);
    } else {
      SenderIdles(w, t, d, []);
    }
  }

  lemma TimeoutKeeps(w: World, s: State, retries: U8, now: Time)
    requires w.Valid() && Invariant(w, s) && s.snd.phase in {Sending, Draining}
    ensures var d := s.snd.(retries := retries, nextSeq := s.snd.acked, rewoundTo := NO_REWIND, phase := Sending);
            Invariant(w, SenderDid(s, Pump(d, now, 1), 1))
  {
    var d := s.snd.(retries := retries, nextSeq := s.snd.acked, rewoundTo := NO_REWIND, phase := Sending);
    forall i | 0 <= i < |s.toSnd| && s.toSnd[i].Ack? ensures d.acked <= s.toSnd[i].next {
      assert GenuineToSender(w, s, s.toSnd[i]);
    }
    SenderAdvances(w, s, s, d, now, 1, 1);
  }

  /** What the clock can do to a sending slot. */
  lemma TickShape(d: Slot, c: Config, now: Time) returns (retries: U8)
    requires Sound(d) && d.phase in {Offering, Sending, Draining}
    ensures var e := Ticked(d, c, now);
            || e == Finished(d, TIMEOUT, []) || e == Finished(d, TIMEOUT, [Abort(Some(TIMEOUT))]) || e == Quiet(d)
            || (d.phase == Offering && e == Effect(d.(retries := retries, lastTx := now), [OfferOf(d)], [], 0))
            || (d.phase != Offering &&
                e == Pump(d.(retries := retries, nextSeq := d.acked, rewoundTo := NO_REWIND, phase := Sending), now, 1))
  {
    retries := (d.retries + 1) % 0x100;
  }

  lemma SenderTicksKeeps(w: World, s: State, now: Time)
    requires w.Valid() && Invariant(w, s)
    ensures Healthy(s) && Invariant(w, Next(w, s, SenderTicks(now)))
  {
    InvariantIsHealthy(w, s);
    if s.snd.phase == Free {
      assert SenderDid(s, Quiet(s.snd), 0) == s;
    } else {
      var e := Ticked(s.snd, w.sc, now);
      var retries := TickShape(s.snd, w.sc, now);
      if e == Finished(s.snd, TIMEOUT, []) || e == Finished(s.snd, TIMEOUT, [Abort(Some(TIMEOUT))]) {
        SenderStops(w, s, s, TIMEOUT, e.ops);
      } else if e.rewinds == 0 {
        SenderIdles(w, s, e.slot, e.ops);
      } else {
        TimeoutKeeps(w, s, retries, now);
      }
    }
  }

  lemma InvariantIsHealthy(w: World, s: State)
    requires w.Valid() && Invariant(w, s)
    ensures Healthy(s)
  {
    forall i | 0 <= i < |s.toRcv| && s.toRcv[i].Offer? ensures |s.toRcv[i].name| <= NAME_MAX {
      assert GenuineToReceiver(w, s, i);
    }
  }

  /** The receiver says at most one more thing, true of its new position. */
  lemma ToSenderGrows(w: World, s: State, u: State, ops: seq<Op>)
    requires w.Valid() && ToSenderInv(w, s)
    requires u.snd == s.snd && u.toSnd == s.toSnd + ops && |ops| <= 1 && s.taken <= u.taken
    requires |ops| == 1 ==> GenuineToSender(w, u, ops[0]) && (ops[0].Ack? ==> ops[0].next == u.taken)
    requires s.taken == u.taken || forall i :: 0 <= i < |s.toSnd| ==> !s.toSnd[i].Done?
    ensures ToSenderInv(w, u)
  {
    forall i | 0 <= i < |u.toSnd| ensures GenuineToSender(w, u, u.toSnd[i]) {
      if i < |s.toSnd| {
        assert GenuineToSender(w, s, s.toSnd[i]);
      }
    }
    forall i, j | 0 <= i < j < |u.toSnd| && u.toSnd[i].Ack? && u.toSnd[j].Ack?
      ensures u.toSnd[i].next <= u.toSnd[j].next
    {
      assert GenuineToSender(w, s, s.toSnd[i]);
    }
  }

  /** The receiver's side moves, to the same position or past one more chunk. */
  lemma ReceiverMoves(w: World, s: State, u: State, ops: seq<Op>)
    requires w.Valid() && Invariant(w, s) && ReceiverInv(w, u)
    requires u == s.(rcv := u.rcv, taken := u.taken, log := u.log, toSnd := s.toSnd + ops)
    requires |ops| <= 1 && s.taken <= u.taken
    requires |ops| == 1 ==> GenuineToSender(w, u, ops[0]) && (ops[0].Ack? ==> ops[0].next == u.taken)
    requires s.taken == u.taken || (
               && (forall i :: 0 <= i < |s.toRcv| ==> !s.toRcv[i].Offer?)
               && (forall i :: 0 <= i < |s.toSnd| ==> !s.toSnd[i].Done?)
               && s.outcome != Some(OK))
    ensures Invariant(w, u)
  {
    ToSenderGrows(w, s, u, ops);
    forall i | 0 <= i < |u.toRcv| ensures GenuineToReceiver(w, u, i) {
      assert GenuineToReceiver(w, s, i);
    }
  }

  /** The next chunk in order extends the delivered prefix by exactly one chunk. */
  lemma PrefixGrows(content: seq<Byte>, k: nat)
    requires k * CHUNK <= |content|
    ensures Prefix(content, k) + ChunkAt(content, k) == Prefix(content, k + 1)
  {
  }

  /** What taking the chunk it waits for does to a receiving slot. */
  lemma TakeShape(d: Slot, content: seq<Byte>, now: Time)
    requires Sound(d) && d.phase == Receiving && |content| == d.total && d.nextSeq < ChunksFor(d.total)
    requires d.running == Adler.Checksum(Prefix(content, d.nextSeq))
    ensures d.nextSeq * CHUNK <= |content|
    ensures var e := TakeChunk(d, d.nextSeq, ChunkAt(content, d.nextSeq), now);
            var folded := Adler.Checksum(Prefix(content, d.nextSeq + 1));
            && ChunkEvents(e.events) == [OnChunk(d.nextSeq * CHUNK, ChunkAt(content, d.nextSeq))]
            && (d.nextSeq + 1 == ChunksFor(d.total) ==>
                  e.slot == EMPTY && e.ops == [Done(Some(if folded == d.crc then OK else CORRUPT))])
            && (d.nextSeq + 1 < ChunksFor(d.total) ==>
                  && e.slot == d.(running := folded, nextSeq := d.nextSeq + 1, acked := d.nextSeq + 1,
                                  lastRx := now, lastTx := e.slot.lastTx)
                  && (e.ops == [] || e.ops == [AckOf(e.slot)]))
  {
    ChunksCover(d.total);
    PrefixGrows(content, d.nextSeq);
    Adler.ChunkwiseIsWhole(Adler.INIT, Prefix(content, d.nextSeq), ChunkAt(content, d.nextSeq));
    var e := TakeChunk(d, d.nextSeq, ChunkAt(content, d.nextSeq), now);
    assert ChunkEvents(e.events[1..]) == [];
  }

  /** After the chunk it waited for, the receiver is where the invariant says. */
  lemma TakenPosition(w: World, s: State, d: Slot, now: Time)
    requires w.Valid() && ReceiverInv(w, s) && s.rcv.phase == Receiving && s.taken < s.sent
    requires d == s.rcv.(lastRx := now, retries := 0)
    ensures s.taken * CHUNK <= |w.content|
    ensures var e := TakeChunk(d, s.taken, ChunkAt(w.content, s.taken), now);
            var u := ReceiverDid(s, e);
            && u.taken == s.taken + 1
            && ReceiverInv(w, u)
            && |e.ops| <= 1
            && (|e.ops| == 1 ==>
                  || (e.ops[0] == Ack(u.taken, Some(w.rc.window)) && u.taken < w.Chunks())
                  || (e.ops[0] == Done(Some(Verdict(w, u))) && u.taken == w.Chunks()))
  {
    ChunksCover(|w.content|);
    hide TakeChunk, ChunkAt, ChunksFor, Prefix, Adler.Checksum, ChunkEvents;
    TakeShape(d, w.content, now);
  }

  lemma InOrderKeeps(w: World, s: State, d: Slot, now: Time)
    requires w.Valid() && Invariant(w, s) && s.rcv.phase == Receiving && s.taken < s.sent
    requires d == s.rcv.(lastRx := now, retries := 0)
    requires forall i :: 0 <= i < |s.toRcv| ==> !s.toRcv[i].Offer?
    requires s.taken * CHUNK <= |w.content|
    ensures Invariant(w, ReceiverDid(s, TakeChunk(d, s.taken, ChunkAt(w.content, s.taken), now)))
  {
    var e := TakeChunk(d, s.taken, ChunkAt(w.content, s.taken), now);
    TakenPosition(w, s, d, now);
    forall i | 0 <= i < |s.toSnd| ensures !s.toSnd[i].Done? {
      assert GenuineToSender(w, s, s.toSnd[i]);
    }
    ReceiverMoves(w, s, ReceiverDid(s, e), e.ops);
  }

  lemma OutOfOrderKeeps(w: World, s: State, d: Slot, op: Op, now: Time)
    requires w.Valid() && Invariant(w, s) && s.rcv.phase == Receiving
    requires d == s.rcv.(lastRx := now, retries := 0)
    requires op.Chunk? && op.index != s.taken
    ensures Invariant(w, ReceiverDid(s, TakeChunk(d, op.index, op.data, now)))
  {
    var e := TakeChunk(d, op.index, op.data, now);
    ReceiverMoves(w, s, ReceiverDid(s, e), e.ops);
  }

  lemma ChunkKeeps(w: World, s: State, op: Op, now: Time)
    requires w.Valid() && Invariant(w, s) && s.rcv.phase == Receiving
    requires op.Chunk? && op.index < s.sent
    requires op.index * CHUNK <= |w.content| && op.data == ChunkAt(w.content, op.index)
    requires forall i :: 0 <= i < |s.toRcv| ==> !s.toRcv[i].Offer?
    ensures Invariant(w, ReceiverDid(s, Received(s.rcv, op, now)))
  {
    var d := s.rcv.(lastRx := now, retries := 0);
    assert Received(s.rcv, op, now) == TakeChunk(d, op.index, op.data, now);
    if op.index != s.taken {
      OutOfOrderKeeps(w, s, d, op, now);
    } else {
      InOrderKeeps(w, s, d, now);
    }
  }

  /** The inbound stream is over; nothing more was delivered. */
  lemma ReceiverStops(w: World, s: State, result: U8, ops: seq<Op>)
    requires w.Valid() && Invariant(w, s) && s.rcv.phase != Free
    requires ops == [] || (result != OK && (ops == [Abort(Some(result))] || ops == [Reject(Some(result))]))
    ensures Invariant(w, ReceiverDid(s, Finished(s.rcv, result, ops)))
    ensures Invariant(w, ReceiverDid(s, Effect(EMPTY, ops, [], 0)))
  {
    var e := Finished(s.rcv, result, ops);
    assert ChunkEvents(e.events[1..]) == [];
    var u := ReceiverDid(s, e);
    ReceiverMoves(w, s, u, ops);
    assert u == ReceiverDid(s, Effect(EMPTY, ops, [], 0));
  }

  lemma OfferKeeps(w: World, t: State, op: Op, now: Time)
    requires w.Valid() && Invariant(w, t) && op.Offer? && |op.name| <= NAME_MAX
    requires op.total == |w.content| && op.crc == Adler.Checksum(w.content) && t.taken == 0
    ensures t.rcv.phase != Free ==> Invariant(w, ReceiverDid(t, OfferRepeated(t.rcv, now)))
    ensures t.rcv.phase == Free ==>
              && Invariant(w, ReceiverOpened(t, OfferTaken(op, w.id, w.sender, w.rc, now)))
              && Invariant(w, t.(toSnd := t.toSnd + [Reject(Some(NO_STREAM))]))
  {
    if t.rcv.phase != Free {
      var e := OfferRepeated(t.rcv, now);
      ReceiverMoves(w, t, ReceiverDid(t, e), e.ops);
    } else {
      var e := OfferTaken(op, w.id, w.sender, w.rc, now);
      ReceiverMoves(w, t, ReceiverOpened(t, e), e.ops);
      ReceiverMoves(w, t, t.(toSnd := t.toSnd + [Reject(Some(NO_STREAM))]), [Reject(Some(NO_STREAM))]);
    }
  }

  /** The receiver handles something other than an offer. */
  lemma ReceiverHandles(w: World, t: State, op: Op, now: Time)
    requires w.Valid() && Invariant(w, t) && t.rcv.phase != Free
    requires op.Abort? || (op.Chunk? && op.index < t.sent && op.index * CHUNK <= |w.content| &&
                           op.data == ChunkAt(w.content, op.index))
    requires op.Abort? ==> op.why.Some?
    requires forall i :: 0 <= i < |t.toRcv| ==> !t.toRcv[i].Offer?
    ensures Invariant(w, ReceiverDid(t, Received(t.rcv, op, now)))
  {
    if op.Abort? {
      ReceiverStops(w, t, op.why.value, []);
    } else if t.rcv.phase == Receiving {
      ChunkKeeps(w, t, op, now);
    } else {
      var e := Quiet(t.rcv.(lastRx := now, retries := 0));
      ReceiverMoves(w, t, ReceiverDid(t, e), []);
    }
  }

  lemma ReceiverHearsKeeps(w: World, s: State, now: Time, slotFree: bool)
    requires w.Valid() && Invariant(w, s) && Healthy(s)
    ensures Invariant(w, Next(w, s, ReceiverHears(now, slotFree)))
  {
    if s.toRcv != [] {
      var op, t := s.toRcv[0], s.(toRcv := s.toRcv[1..]);
      ToReceiverShrinks(w, s, 0);
      assert Without(s.toRcv, 0) == s.toRcv[1..];
      assert GenuineToReceiver(w, s, 0);
      if op.Offer? {
        OfferKeeps(w, t, op, now);
      } else if s.rcv.phase != Free {
        forall i | 0 <= i < |t.toRcv| ensures !t.toRcv[i].Offer? {
          assert GenuineToReceiver(w, s, i + 1);
        }
        ReceiverHandles(w, t, op, now);
      }
    }
  }

  lemma ReceiverTicksKeeps(w: World, s: State, now: Time)
    requires w.Valid() && Invariant(w, s) && Healthy(s)
    ensures Invariant(w, Next(w, s, ReceiverTicks(now)))
  {
    assert ReceiverDid(s, Quiet(s.rcv)) == s;
    if s.rcv.phase != Free {
      ReceiverStops(w, s, TIMEOUT, []);
    }
  }

  lemma AppDecides(w: World, s: State, now: Time)
    requires w.Valid() && Invariant(w, s) && s.rcv.phase == Offered
    ensures Invariant(w, ReceiverDid(s, Accepted(s.rcv, w.rc, now)))
    ensures Invariant(w, ReceiverDid(s, Rejected(s.rcv)))
  {
    ReceiverStops(w, s, REFUSED, [Reject(Some(REFUSED))]);
    var e := Accepted(s.rcv, w.rc, now);
    ReceiverMoves(w, s, ReceiverDid(s, e), e.ops);
  }

  lemma AppCancels(w: World, s: State)
    requires w.Valid() && Invariant(w, s)
    ensures Invariant(w, ReceiverDid(s, Cancelled(s.rcv)))
    ensures Invariant(w, SenderDid(s, Cancelled(s.snd), 0))
  {
    if s.rcv.phase == Free {
      assert ReceiverDid(s, Quiet(s.rcv)) == s;
    } else {
      ReceiverStops(w, s, CANCELLED, [Abort(Some(CANCELLED))]);
    }
    if s.snd.phase == Free {
      assert SenderDid(s, Quiet(s.snd), 0) == s;
    } else {
      SenderStops(w, s, s, CANCELLED, [Abort(Some(CANCELLED))]);
    }
  }

  lemma NextKeeps(w: World, s: State, step: Step)
    requires w.Valid() && Invariant(w, s)
    ensures Healthy(s) && Invariant(w, Next(w, s, step))
  {
    InvariantIsHealthy(w, s);
    match step
    case SenderHears(now) => SenderHearsKeeps(w, s, now);
    case ReceiverHears(now, slotFree) => ReceiverHearsKeeps(w, s, now, slotFree);
    case LoseToReceiver(at) => ToReceiverShrinks(w, s, at);
    case LoseToSender(at) => ToSenderShrinks(w, s, at);
    case SenderTicks(now) => SenderTicksKeeps(w, s, now);
    case ReceiverTicks(now) => ReceiverTicksKeeps(w, s, now);
    case AppAccepts(now) => AppKeeps(w, s, step, now);
    case AppRejects => AppKeeps(w, s, step, 0);
    case SenderCancels => AppCancels(w, s);
    case ReceiverCancels => AppCancels(w, s);
  }

  lemma AppKeeps(w: World, s: State, step: Step, now: Time)
    requires w.Valid() && Invariant(w, s) && Healthy(s) && (step == AppAccepts(now) || step == AppRejects)
    ensures Invariant(w, Next(w, s, step))
  {
    if s.rcv.phase == Offered {
      AppDecides(w, s, now);
    } else {
      assert ReceiverDid(s, Quiet(s.rcv)) == s;
    }
  }

  lemma InitialKeeps(w: World, now: Time)
    requires w.Valid()
    ensures Invariant(w, Initial(w, now))
  {
    var s := Initial(w, now);
    assert GenuineToReceiver(w, s, 0);
  }

  // ---- Main results ----

  /** The state after any schedule. */
  ghost function Reach(w: World, start: Time, steps: seq<Step>): (s: State)
    requires w.Valid()
    ensures Invariant(w, s)
  {
    if steps == [] then
      InitialKeeps(w, start);
      Initial(w, start)
    else
      var s := Reach(w, start, steps[..|steps| - 1]);
      NextKeeps(w, s, steps[|steps| - 1]);
      Next(w, s, steps[|steps| - 1])
  }

  ghost predicate Reachable(w: World, s: State)
    requires w.Valid()
  {
    exists start, steps :: s == Reach(w, start, steps)
  }

  lemma ReachableKeeps(w: World, s: State)
    requires w.Valid() && Reachable(w, s)
    ensures Invariant(w, s)
  {
  }

  /** The bytes a sequence of chunk deliveries hands over. */
  function Delivered(log: seq<Event>): seq<Byte> {
    if log == [] then []
    else Delivered(log[..|log| - 1]) + (if log[|log| - 1].OnChunk? then log[|log| - 1].data else [])
  }

  lemma {:induction false} ChunkLogIsPrefix(content: seq<Byte>, k: nat)
    requires k * CHUNK < |content| + CHUNK
    ensures |ChunkLog(content, k)| == k
    ensures Delivered(ChunkLog(content, k)) == Prefix(content, k)
  {
    if k > 0 {
      ChunkLogIsPrefix(content, k - 1);
      PrefixGrows(content, k - 1);
      assert ChunkLog(content, k)[..k - 1] == ChunkLog(content, k - 1);
    }
  }

  /** Entry i of a log is chunk i, and what precedes it is the log of the first i chunks. */
  lemma {:induction false} ChunkLogAt(content: seq<Byte>, i: nat, k: nat)
    requires i < k && k * CHUNK < |content| + CHUNK
    ensures |ChunkLog(content, k)| == k && i * CHUNK <= |content|
    ensures ChunkLog(content, k)[i] == OnChunk(i * CHUNK, ChunkAt(content, i))
    ensures ChunkLog(content, k)[..i] == ChunkLog(content, i)
  {
    ChunkLogIsPrefix(content, k - 1);
    var log := ChunkLog(content, k);
    if i < k - 1 {
      ChunkLogAt(content, i, k - 1);
      assert log[..i] == ChunkLog(content, k - 1)[..i];
    } else {
      assert log[..i] == ChunkLog(content, i);
    }
  }

  /** Chunks are delivered once each, in order, each where the previous one ended. */
  predicate InOrder(log: seq<Event>) {
    forall i :: 0 <= i < |log| ==> log[i].OnChunk? && log[i].offset == |Delivered(log[..i])|
  }

  lemma LogIsInOrder(content: seq<Byte>, k: nat)
    requires k * CHUNK < |content| + CHUNK
    ensures InOrder(ChunkLog(content, k))
  {
    var log := ChunkLog(content, k);
    ChunkLogIsPrefix(content, k);
    forall i | 0 <= i < |log| ensures log[i].OnChunk? && log[i].offset == |Delivered(log[..i])| {
      ChunkLogAt(content, i, k);
      ChunkLogIsPrefix(content, i);
    }
  }

  /** Go-back-N safety, in every run: the three positions stay ordered a window apart, and
      the application has been handed exactly a prefix of the content, chunk by chunk. */
  lemma DeliveryIsPrefix(w: World, s: State)
    requires w.Valid() && Reachable(w, s)
    ensures Delivered(s.log) == Prefix(w.content, s.taken) && |s.log| == s.taken && InOrder(s.log)
    ensures s.rcv.phase == Receiving ==> s.rcv.nextSeq == s.taken
    ensures s.snd.phase in {Sending, Draining} ==>
              s.snd.acked <= s.taken <= s.snd.nextSeq == Min(w.Chunks(), s.snd.acked + w.Window())
  {
    ReachableKeeps(w, s);
    ChunkLogIsPrefix(w.content, s.taken);
    LogIsInOrder(w.content, s.taken);
  }

  /** A sender told OK is told the truth exactly when the content fits the 16-bit chunk
      counter: then the whole content has been delivered. Past it, what was delivered is a
      proper prefix, so OK means the checksum collided. */
  lemma SuccessMeansDelivered(w: World, s: State)
    requires w.Valid() && Reachable(w, s) && s.outcome == Some(OK)
    ensures Delivered(s.log) == w.content <==> Countable(|w.content|)
    ensures Adler.Checksum(Delivered(s.log)) == Adler.Checksum(w.content)
  {
    ReachableKeeps(w, s);
    ChunkLogIsPrefix(w.content, s.taken);
    ChunksCover(|w.content|);
  }

  /** Past the counter the promise fails: a content of 65536 chunks is counted as none, so
      no byte of it is ever delivered and no run reports it sent. */
  lemma OverflowingContentNeverMoves(w: World, s: State)
    requires w.Valid() && Reachable(w, s) && |w.content| == 0x1_0000 * CHUNK
    ensures !Countable(|w.content|)
    ensures Delivered(s.log) == [] && s.outcome != Some(OK)
  {
    ReachableKeeps(w, s);
    NoChunksAtOverflow();
    ChunkLogIsPrefix(w.content, s.taken);
  }

  lemma NoChunksAtOverflow()
    ensures ChunksFor(0x1_0000 * CHUNK) == 0
  {
  }

  /** A receiver that is handed genuine chunks of a countable content never rules it
      corrupt, whatever was lost or repeated on the way. */
  lemma GenuineContentPasses(w: World, s: State, i: nat)
    requires w.Valid() && Reachable(w, s) && Countable(|w.content|)
    requires i < |s.toSnd| && s.toSnd[i].Done?
    ensures s.toSnd[i] == Done(Some(OK)) && Delivered(s.log) == w.content
  {
    ReachableKeeps(w, s);
    ChunksCover(|w.content|);
    ChunkLogIsPrefix(w.content, s.taken);
    assert GenuineToSender(w, s, s.toSnd[i]);
    assert Prefix(w.content, s.taken) == w.content;
  }

  /** Retransmission is bounded: with T chunks and K timeouts the counter never passes
      T + 2K, and no acknowledgement on the wire is the sentinel that marks "no rewind". */
  lemma RewindsAreBounded(w: World, s: State)
    requires w.Valid() && Reachable(w, s)
    ensures s.rewinds <= w.Chunks() + 2 * s.timeouts
    ensures forall i :: 0 <= i < |s.toSnd| && s.toSnd[i].Ack? ==> s.toSnd[i].next != NO_REWIND
  {
    ReachableKeeps(w, s);
    forall i | 0 <= i < |s.toSnd| && s.toSnd[i].Ack? ensures s.toSnd[i].next != NO_REWIND {
      assert GenuineToSender(w, s, s.toSnd[i]);
    }
  }
}
