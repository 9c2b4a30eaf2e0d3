/** Transfers do finish: as long as nothing is lost, refused or timed out, every schedule carries
    every content the chunk counter can count to a successful end. */
module Progress {
  import opened Types
  import opened Stream
  import opened Transfer
  import Adler

  /** The state after a schedule that goes on from s. */
  ghost function From(w: World, s: State, steps: seq<Step>): (u: State)
    requires w.Valid() && Invariant(w, s)
    ensures Invariant(w, u)
  {
    if steps == [] then s
    else
      var u := From(w, s, steps[..|steps| - 1]);
      NextKeeps(w, u, steps[|steps| - 1]);
      Next(w, u, steps[|steps| - 1])
  }

  /** A transfer that has just been offered. */
  ghost function Fresh(w: World, start: Time): (s: State)
    requires w.Valid()
    ensures Invariant(w, s)
  {
    InitialKeeps(w, start);
    Initial(w, start)
  }

  lemma {:induction false} ReachIsFrom(w: World, start: Time, steps: seq<Step>)
    requires w.Valid()
    ensures Reach(w, start, steps) == From(w, Fresh(w, start), steps)
  {
    hide Invariant, Next;
    if steps != [] {
      ReachIsFrom(w, start, steps[..|steps| - 1]);
    }
  }

  /** Only deliveries, the application's consent, and ticks at which no timer has run out, in any
      order and at any time. */
  ghost predicate Smooth(w: World, s: State, steps: seq<Step>)
    requires w.Valid() && Invariant(w, s)
  {
    forall i :: 0 <= i < |steps| ==> Delivers(steps[i]) || TooEarly(w, From(w, s, steps[..i]), steps[i])
  }

  ghost predicate TooEarly(w: World, s: State, step: Step)
    requires w.Valid() && Invariant(w, s)
  {
    InvariantIsHealthy(w, s);
    (step.SenderTicks? || step.ReceiverTicks?) && Next(w, s, step) == s
  }

  predicate Delivers(step: Step) {
    step.SenderHears? || (step.ReceiverHears? && step.slotFree) || step.AppAccepts?
  }

  /** The step finds something to deliver, or consent to give. */
  predicate Effective(s: State, step: Step) {
    || (step.SenderHears? && s.toSnd != [])
    || (step.ReceiverHears? && s.toRcv != [])
    || (step.AppAccepts? && s.rcv.phase == Offered)
  }

  // ---- What is on the way to the receiver ----

  /** The position a receiver at t gets to by hearing these operations. */
  function Consumed(t: nat, ops: seq<Op>): nat
    decreases |ops|
  {
    if ops == [] then t
    else Consumed(if ops[0].Chunk? && ops[0].index == t then t + 1 else t, ops[1..])
  }

  lemma {:induction false} ConsumedGrows(t: nat, ops: seq<Op>)
    ensures Consumed(t, ops) >= t
    decreases |ops|
  {
    if ops != [] {
      ConsumedGrows(if ops[0].Chunk? && ops[0].index == t then t + 1 else t, ops[1..]);
    }
  }

  lemma {:induction false} ConsumedConcat(t: nat, x: seq<Op>, y: seq<Op>)
    ensures Consumed(t, x + y) == Consumed(Consumed(t, x), y)
    decreases |x|
  {
    if x == [] {
      assert x + y == y;
    } else {
      assert (x + y)[1..] == x[1..] + y;
      ConsumedConcat(if x[0].Chunk? && x[0].index == t then t + 1 else t, x[1..], y);
    }
  }

  predicate RunFrom(a: nat, ops: seq<Op>) {
    forall i :: 0 <= i < |ops| ==> ops[i].Chunk? && ops[i].index == a + i
  }

  /** A run of chunks that starts where the receiver is or before carries it to its end. */
  lemma {:induction false} RunIsConsumed(t: nat, a: nat, ops: seq<Op>)
    requires a <= t && RunFrom(a, ops)
    ensures Consumed(t, ops) >= a + |ops|
    decreases |ops|
  {
    if ops != [] {
      RunIsConsumed(if ops[0].index == t then t + 1 else t, a + 1, ops[1..]);
    }
  }

  predicate AllChunks(ops: seq<Op>) {
    forall i :: 0 <= i < |ops| ==> ops[i].Chunk?
  }

  predicate AllOffers(ops: seq<Op>) {
    forall i :: 0 <= i < |ops| ==> ops[i].Offer?
  }

  /** Chunks, and offers that were repeated before. */
  predicate Forth(ops: seq<Op>) {
    forall i :: 0 <= i < |ops| ==> ops[i].Chunk? || ops[i].Offer?
  }

  /** Something is on the way that the receiver will answer with its position. */
  ghost predicate Prompted(s: State) {
    exists i :: 0 <= i < |s.toRcv| && s.toRcv[i].Chunk? && s.toRcv[i].index < s.taken
  }

  // ---- What is on the way to the sender ----

  /** The receiver acknowledges every half window. */
  function Half(window: U8): (h: nat)
    ensures h > 0
  {
    if window / 2 == 0 then 1 else window / 2
  }

  predicate Multiple(x: nat, half: nat)
    requires half > 0
  {
    x % half == 0
  }

  predicate AllAcks(ops: seq<Op>) {
    forall i :: 0 <= i < |ops| ==> ops[i].Ack?
  }

  /** Acknowledgements, and consents that were repeated. */
  predicate Answers(ops: seq<Op>) {
    forall i :: 0 <= i < |ops| ==> ops[i].Ack? || ops[i].Accept?
  }

  predicate HasAccept(ops: seq<Op>) {
    exists i :: 0 <= i < |ops| && ops[i].Accept?
  }

  /** How far the sender knows, or is about to be told, that the receiver has got. */
  function Told(s: State): nat {
    if s.toSnd == [] || !s.toSnd[|s.toSnd| - 1].Ack? then s.snd.acked else s.toSnd[|s.toSnd| - 1].next
  }

  /** The last half window that is full has been told. */
  ghost predicate Covered(told: nat, taken: nat, half: nat)
    requires half > 0
  {
    exists m: nat :: Multiple(m, half) && m <= told && taken < m + half
  }

  lemma QuotientIs(x: nat, h: nat, q: int, r: nat)
    requires h > 0 && x == h * q + r && r < h
    ensures r == x % h
  {
    var k := q - x / h;
    assert h * k == x % h - r;
    AtLeastOne(h, k);
  }

  lemma AtLeastOne(h: int, k: int)
    requires h > 0
    ensures k > 0 ==> h * k >= h
    ensures k < 0 ==> h * k <= -h
  {
  }

  lemma MultipleNext(x: nat, half: nat)
    requires half > 0 && Multiple(x, half)
    ensures Multiple(x + half, half)
  {
    assert x == half * (x / half);
    assert half * (x / half + 1) == half * (x / half) + half;
    QuotientIs(x + half, half, x / half + 1, 0);
  }

  /** One chunk more: told when it fills a half window, and else not needed. */
  lemma CoveredNext(told: nat, taken: nat, half: nat)
    requires half > 0 && Covered(told, taken, half)
    ensures Multiple(taken + 1, half) ==> Covered(taken + 1, taken + 1, half)
    ensures !Multiple(taken + 1, half) ==> Covered(told, taken + 1, half)
  {
    hide Multiple;
    var m: nat :| Multiple(m, half) && m <= told && taken < m + half;
    MultipleNext(m, half);
  }

  /** A receiver that has told its position has told enough. */
  lemma CoveredIfTold(told: nat, taken: nat, half: nat)
    requires half > 0 && told >= taken
    ensures Covered(told, taken, half)
  {
    var m := taken - taken % half;
    assert taken == half * (taken / half) + taken % half;
    QuotientIs(m, half, taken / half, 0);
    assert Multiple(m, half);
  }

  lemma CoveredMore(told: nat, told': nat, taken: nat, half: nat)
    requires half > 0 && Covered(told, taken, half) && told <= told'
    ensures Covered(told', taken, half)
  {
    hide Multiple;
    var m: nat :| Multiple(m, half) && m <= told && taken < m + half;
  }

  lemma CoveredAtStart(half: nat)
    requires half > 0
    ensures Covered(0, 0, half)
  {
    assert Multiple(0, half);
  }

  // ---- The stages of a transfer ----

  /** A content that both ends take on. */
  predicate Acceptable(w: World) {
    w.Valid() && Countable(|w.content|) && |w.content| <= w.rc.maxInbound && w.Window() > 0
  }

  /** The handshake, with offers, answers and consents repeated: an offer is on the way, or the
      application is being asked, or its consent is on the way. */
  ghost predicate Opening(w: World, s: State) {
    && s.snd.phase == Offering && AllOffers(s.toRcv)
    && (s.rcv.phase == Free ==> s.toRcv != [] && AllAcks(s.toSnd))
    && (s.rcv.phase == Offered ==> AllAcks(s.toSnd))
    && (s.rcv.phase == Receiving ==> Answers(s.toSnd) && HasAccept(s.toSnd))
  }

  ghost predicate Caught(w: World, s: State) {
    Covered(Told(s), s.taken, Half(w.rc.window))
  }

  /** Both ends are at it: what the sender has sent is enough to carry the receiver to the send
      position, and every half window taken has been acknowledged or soon will be. */
  ghost predicate Flowing(w: World, s: State) {
    && s.snd.phase in {Sending, Draining} && s.rcv.phase == Receiving
    && Forth(s.toRcv) && Answers(s.toSnd)
    && Consumed(s.taken, s.toRcv) >= s.snd.nextSeq
    && (Caught(w, s) || Prompted(s))
  }

  /** The receiver has everything, and its verdict is on the way. */
  ghost predicate Closing(w: World, s: State) {
    && s.snd.phase in {Sending, Draining} && s.rcv.phase == Free && AllChunks(s.toRcv)
    && s.toSnd != [] && s.toSnd[|s.toSnd| - 1] == Done(Some(OK)) && Answers(s.toSnd[..|s.toSnd| - 1])
  }

  ghost predicate Active(w: World, s: State) {
    && w.Valid() && Invariant(w, s)
    && (Opening(w, s) || Flowing(w, s) || Closing(w, s))
  }

  // ---- What is left to do ----

  /** What the sender may still put on the wire: a window for each position not yet acknowledged,
      twice, and one more if the present position has not been sent again yet. */
  function Ahead(w: World, d: Slot): int
    requires w.Valid()
  {
    (w.Chunks() - d.acked) * (4 * w.Window() + 3) + (if d.rewoundTo != d.acked then 2 * w.Window() + 1 else 0)
  }

  function Most(w: World): int
    requires w.Valid()
  {
    w.Chunks() * (4 * w.Window() + 3) + (2 * w.Window() + 1) + 2 * w.Window()
  }

  /** How many deliveries there can be at most until the transfer is over. */
  function Weight(w: World, s: State): int
    requires w.Valid()
  {
    2 * |s.toRcv| + |s.toSnd| +
    if s.snd.phase == Offering then
      Most(w) + (if s.rcv.phase == Free then 1 else if s.rcv.phase == Offered then 2 else 0)
    else Ahead(w, s.snd)
  }

  lemma AheadDrops(t: int, acked: int, next: int, window: int, before: int, after: int, sent: int)
    requires 0 <= acked < next && window >= 0 && sent <= window
    requires before >= 0 && after <= 2 * window + 1
    ensures (t - next) * (4 * window + 3) + after + 2 * sent <= (t - acked) * (4 * window + 3) + before
  {
    assert (t - acked) * (4 * window + 3) == (t - next) * (4 * window + 3) + (next - acked) * (4 * window + 3);
    AtLeastOne(4 * window + 3, next - acked);
  }

  lemma ProductIsPositive(a: int, b: int)
    requires a >= 0 && b >= 0
    ensures a * b >= 0
  {
  }

  lemma AckedIsChunk(w: World, s: State)
    requires w.Valid() && Invariant(w, s) && s.snd.phase in {Sending, Draining}
    ensures s.snd.acked <= w.Chunks()
  {
  }

  lemma AheadIsPositive(w: World, s: State)
    requires w.Valid() && Invariant(w, s) && s.snd.phase in {Sending, Draining}
    ensures Ahead(w, s.snd) >= 0
  {
    hide Invariant;
    AckedIsChunk(w, s);
    ProductIsPositive(w.Chunks() - s.snd.acked, 4 * w.Window() + 3);
  }

  // ---- The receiver hears ----

  lemma SomeChunks(w: World)
    requires Acceptable(w)
    ensures w.Chunks() > 0 && w.Chunks() * CHUNK >= |w.content|
  {
    ChunksCover(|w.content|);
  }

  /** A chunk the receiver does not wait for changes nothing, and at most tells where it is. */
  lemma StaleChunk(d: Slot, index: U16, data: seq<Byte>, now: Time)
    requires Sound(d) && d.phase == Receiving && index != d.nextSeq
    ensures var e := Received(d, Chunk(index, data), now);
            && e.slot == d.(lastRx := now, retries := 0, lastTx := e.slot.lastTx) && e.events == []
            && (TimeAfter(now, Add32(d.lastTx, 20)) ==> e.ops == [Ack(d.nextSeq, Some(d.window))])
            && (!TimeAfter(now, Add32(d.lastTx, 20)) ==> e.ops == [] && e.slot.lastTx == d.lastTx)
  {
    hide TimeAfter, Add32;
  }

  /** The chunk it waits for, short of the last: an acknowledgement exactly each half window. */
  lemma NextChunk(d: Slot, content: seq<Byte>, now: Time)
    requires Sound(d) && d.phase == Receiving && |content| == d.total && d.nextSeq + 1 < ChunksFor(d.total)
    requires d.running == Adler.Checksum(Prefix(content, d.nextSeq))
    ensures d.nextSeq * CHUNK <= |content|
    ensures var e := Received(d, Chunk(d.nextSeq, ChunkAt(content, d.nextSeq)), now);
            && e.slot.phase == Receiving && e.slot.nextSeq == d.nextSeq + 1 && |ChunkEvents(e.events)| == 1
            && e.ops == (if Multiple(d.nextSeq + 1, Half(d.window)) then [Ack(d.nextSeq + 1, Some(d.window))] else [])
            && (!Multiple(d.nextSeq + 1, Half(d.window)) ==> e.slot.lastTx == d.lastTx)
  {
    TakeShape(d.(lastRx := now, retries := 0), content, now);
  }

  lemma LastChunk(d: Slot, content: seq<Byte>, now: Time)
    requires Sound(d) && d.phase == Receiving && |content| == d.total && d.nextSeq + 1 == ChunksFor(d.total)
    requires d.running == Adler.Checksum(Prefix(content, d.nextSeq)) && d.crc == Adler.Checksum(content)
    requires ChunksFor(d.total) * CHUNK >= |content|
    ensures d.nextSeq * CHUNK <= |content|
    ensures var e := Received(d, Chunk(d.nextSeq, ChunkAt(content, d.nextSeq)), now);
            e.slot == EMPTY && e.ops == [Done(Some(OK))] && |ChunkEvents(e.events)| == 1
  {
    TakeShape(d.(lastRx := now, retries := 0), content, now);
    assert Prefix(content, d.nextSeq + 1) == content;
  }

  /** What the receiver is and what it hears. */
  lemma ReceiverFacts(w: World, s: State)
    requires w.Valid() && Invariant(w, s) && s.rcv.phase == Receiving && s.toRcv != [] && s.toRcv[0].Chunk?
    ensures var d, op := s.rcv, s.toRcv[0];
            && Sound(d) && d.nextSeq == s.taken && d.window == w.rc.window && d.total == |w.content|
            && d.crc == Adler.Checksum(w.content) && d.running == Adler.Checksum(Prefix(w.content, s.taken))
            && op.index * CHUNK <= |w.content| && op == Chunk(op.index, ChunkAt(w.content, op.index))
            && s.taken < 0xFFFF
  {
    assert GenuineToReceiver(w, s, 0);
  }

  lemma ReceiverHeard(w: World, s: State, now: Time)
    requires w.Valid() && Healthy(s) && s.toRcv != [] && s.toRcv[0].Chunk? && s.rcv.phase == Receiving
    ensures Next(w, s, ReceiverHears(now, true)) ==
              ReceiverDid(s.(toRcv := s.toRcv[1..]), Received(s.rcv, s.toRcv[0], now))
  {
    hide Received, Sound;
  }

  /** The transfer goes on, with less to do, and a receiver that was caught up with stays so. */
  ghost predicate Onward(w: World, s: State, u: State) {
    && w.Valid() && Flowing(w, u) && Weight(w, u) < Weight(w, s)
    && (!Caught(w, u) ==> !Caught(w, s) && u.rcv.lastTx == s.rcv.lastTx)
  }

  /** A receiver that has not been caught up with is listened to only after it has been silent for
      long enough to answer a stale chunk. */
  ghost predicate Patient(w: World, s: State, step: Step) {
    step.ReceiverHears? && s.snd.phase != Offering && s.rcv.phase == Receiving && !Caught(w, s) ==>
      TimeAfter(step.now, Add32(s.rcv.lastTx, 20))
  }

  lemma StaleStep(w: World, s: State, now: Time)
    requires w.Valid() && Invariant(w, s) && Flowing(w, s) && Healthy(s) && Patient(w, s, ReceiverHears(now, true))
    requires s.toRcv != [] && s.toRcv[0].Chunk? && s.toRcv[0].index != s.taken
    ensures Onward(w, s, Next(w, s, ReceiverHears(now, true)))
  {
    hide Invariant, Received, Sound, ChunkAt, Multiple, Next, Healthy, Covered, Ahead, TimeAfter, Add32, Prompted;
    ReceiverFacts(w, s);
    ReceiverHeard(w, s, now);
    StaleChunk(s.rcv, s.toRcv[0].index, s.toRcv[0].data, now);
    CoveredIfTold(s.taken, s.taken, Half(w.rc.window));
  }

  lemma StillPrompted(s: State, u: State)
    requires Prompted(s) && s.toRcv[0].Chunk? && s.toRcv[0].index == s.taken
    requires s.toRcv[1..] <= u.toRcv && u.taken >= s.taken
    ensures Prompted(u)
  {
    var i :| 0 <= i < |s.toRcv| && s.toRcv[i].Chunk? && s.toRcv[i].index < s.taken;
    assert s.toRcv[1..][i - 1] == s.toRcv[i] == u.toRcv[i - 1];
  }

  lemma NextStep(w: World, s: State, now: Time)
    requires w.Valid() && Invariant(w, s) && Flowing(w, s) && Healthy(s)
    requires s.toRcv != [] && s.toRcv[0].Chunk? && s.toRcv[0].index == s.taken && s.taken + 1 < w.Chunks()
    ensures Onward(w, s, Next(w, s, ReceiverHears(now, true)))
  {
    hide Invariant, Received, Sound, ChunkAt, Multiple, Next, Healthy, Covered, Ahead, Prompted;
    ReceiverFacts(w, s);
    ReceiverHeard(w, s, now);
    NextChunk(s.rcv, w.content, now);
    CoveredIfTold(s.taken + 1, s.taken + 1, Half(w.rc.window));
    if Caught(w, s) {
      CoveredNext(Told(s), s.taken, Half(w.rc.window));
    } else {
      StillPrompted(s, Next(w, s, ReceiverHears(now, true)));
    }
  }

  lemma LastStep(w: World, s: State, now: Time)
    requires Acceptable(w) && Invariant(w, s) && Flowing(w, s) && Healthy(s)
    requires s.toRcv != [] && s.toRcv[0].Chunk? && s.toRcv[0].index == s.taken && s.taken + 1 == w.Chunks()
    ensures var u := Next(w, s, ReceiverHears(now, true)); Closing(w, u) && Weight(w, u) < Weight(w, s)
  {
    hide Invariant, Received, Sound, ChunkAt, Multiple, Next, Healthy, Covered, Ahead, Prompted;
    SomeChunks(w);
    ReceiverFacts(w, s);
    ReceiverHeard(w, s, now);
    LastChunk(s.rcv, w.content, now);
    var u := Next(w, s, ReceiverHears(now, true));
    HealthyStill(w, s, ReceiverHears(now, true));
    NoLateOffers(w, u);
    assert u.toSnd[..|s.toSnd|] == s.toSnd;
  }

  /** Once a chunk has been taken, no offer is on the way any more. */
  lemma NoLateOffers(w: World, s: State)
    requires w.Valid() && Invariant(w, s) && s.taken > 0
    ensures forall i :: 0 <= i < |s.toRcv| ==> !s.toRcv[i].Offer?
  {
    forall i | 0 <= i < |s.toRcv| ensures !s.toRcv[i].Offer? {
      assert GenuineToReceiver(w, s, i);
    }
  }

  /** A repeated offer is answered with the receiver's position. */
  lemma OfferStep(w: World, s: State, now: Time)
    requires w.Valid() && Invariant(w, s) && Flowing(w, s) && Healthy(s) && s.toRcv != [] && s.toRcv[0].Offer?
    ensures Onward(w, s, Next(w, s, ReceiverHears(now, true)))
  {
    hide Invariant, Sound, Multiple, Healthy, Covered, Ahead, Prompted;
    AtItsPosition(w, s);
    CoveredIfTold(s.taken, s.taken, Half(w.rc.window));
  }

  lemma AtItsPosition(w: World, s: State)
    requires w.Valid() && Invariant(w, s) && s.rcv.phase == Receiving
    ensures s.rcv.nextSeq == s.taken
  {
  }

  lemma NotYetAll(w: World, s: State)
    requires w.Valid() && Invariant(w, s) && s.rcv.phase == Receiving && w.Chunks() > 0
    ensures s.taken < w.Chunks()
  {
  }

  lemma ReceiverStep(w: World, s: State, now: Time)
    requires Acceptable(w) && Invariant(w, s) && Flowing(w, s) && Healthy(s) && s.toRcv != []
    requires Patient(w, s, ReceiverHears(now, true))
    ensures var u := Next(w, s, ReceiverHears(now, true));
            Onward(w, s, u) || (Closing(w, u) && Weight(w, u) < Weight(w, s))
  {
    hide Invariant, Next, Healthy, Weight, Caught, Prompted;
    SomeChunks(w);
    NotYetAll(w, s);
    if s.toRcv[0].Offer? {
      OfferStep(w, s, now);
    } else if s.toRcv[0].index != s.taken {
      StaleStep(w, s, now);
    } else if s.taken + 1 < w.Chunks() {
      NextStep(w, s, now);
    } else {
      LastStep(w, s, now);
    }
  }

  // ---- The sender hears ----

  /** An acknowledgement moves the window to it; what is sent again starts at it or where sending
      stopped, and has been counted as still to be sent. */
  lemma AckShape(w: World, s: State, op: Op, now: Time) returns (a: nat)
    requires w.Valid() && SenderInv(w, s) && Sound(s.snd) && s.snd.phase in {Sending, Draining} && s.taken <= s.sent
    requires op.Ack? && op.grant == Some(w.rc.window) && s.snd.acked <= op.next <= s.taken
    ensures var e := Received(s.snd, op, now);
            && e.slot.phase in {Sending, Draining} && e.slot.acked == op.next && e.events == []
            && (a <= op.next || a == s.snd.nextSeq) && RunFrom(a, e.ops) && e.slot.nextSeq == a + |e.ops|
            && Ahead(w, e.slot) + 2 * |e.ops| <= Ahead(w, s.snd)
  {
    var (d1, rewinds) := Acked(s.snd.(lastRx := now, retries := 0), op.next);
    var d := Granted(d1, op.grant).(phase := Sending);
    hide Pumped, PumpedOps, ChunksFor, ChunkAt, Adler.Checksum, Ahead;
    PumpFillsWindow(d, now);
    a := d.nextSeq;
    var e := Received(s.snd, op, now);
    assert e == Pump(d, now, rewinds);
    assert |e.ops| <= w.Window();
    assert e.slot.rewoundTo == d.rewoundTo && e.slot.acked == op.next;
    AckCost(w, s.snd, e.slot, |e.ops|);
  }

  /** A new position costs a window; the same one costs nothing, or the one time it is sent again. */
  lemma AckCost(w: World, d: Slot, d': Slot, sent: nat)
    requires w.Valid() && d.acked <= d'.acked && sent <= w.Window()
    requires d'.acked == d.acked ==>
               || (d'.rewoundTo == d.rewoundTo && sent == 0)
               || (d.rewoundTo != d.acked && d'.rewoundTo == d'.acked)
    ensures Ahead(w, d') + 2 * sent <= Ahead(w, d)
  {
    if d'.acked > d.acked {
      AheadDrops(w.Chunks(), d.acked, d'.acked, w.Window(),
                 if d.rewoundTo != d.acked then 2 * w.Window() + 1 else 0,
                 if d'.rewoundTo != d'.acked then 2 * w.Window() + 1 else 0, sent);
    }
  }

  lemma SenderHeard(w: World, s: State, now: Time)
    requires w.Valid() && Healthy(s) && s.toSnd != [] && !s.toSnd[0].Offer? && s.snd.phase != Free
    ensures Next(w, s, SenderHears(now)) == SenderDid(s.(toSnd := s.toSnd[1..]), Received(s.snd, s.toSnd[0], now), 0)
  {
    hide Received, Sound;
  }

  /** What is sent now carries the receiver from where it will be to the new send position. */
  lemma CarriedOn(t: nat, ops: seq<Op>, position: nat, next: nat, a: nat, more: seq<Op>)
    requires Consumed(t, ops) >= position && next <= t && (a <= next || a == position) && RunFrom(a, more)
    ensures Consumed(t, ops + more) >= a + |more|
  {
    hide Consumed;
    ConsumedGrows(t, ops);
    ConsumedConcat(t, ops, more);
    RunIsConsumed(Consumed(t, ops), a, more);
  }

  lemma SenderFacts(w: World, s: State)
    requires w.Valid() && Invariant(w, s) && s.snd.phase in {Sending, Draining} && s.toSnd != [] && s.toSnd[0].Ack?
    ensures SenderInv(w, s) && Sound(s.snd) && s.taken <= s.sent
    ensures s.toSnd[0].grant == Some(w.rc.window) && s.snd.acked <= s.toSnd[0].next <= s.taken
  {
    assert GenuineToSender(w, s, s.toSnd[0]);
  }

  lemma AckStep(w: World, s: State, now: Time)
    requires w.Valid() && Invariant(w, s) && Flowing(w, s) && Healthy(s) && s.toSnd != [] && s.toSnd[0].Ack?
    ensures Onward(w, s, Next(w, s, SenderHears(now)))
  {
    hide Invariant, Received, Sound, SenderInv, Multiple, Next, Healthy, Covered, Ahead, Prompted;
    SenderFacts(w, s);
    SenderHeard(w, s, now);
    var op := s.toSnd[0];
    var a := AckShape(w, s, op, now);
    CarriedOn(s.taken, s.toRcv, s.snd.nextSeq, op.next, a, Received(s.snd, op, now).ops);
    var u := Next(w, s, SenderHears(now));
    MorePrompted(s, u);
    assert Told(u) >= Told(s);
    if Caught(w, s) {
      CoveredMore(Told(s), Told(u), s.taken, Half(w.rc.window));
    }
  }

  lemma MorePrompted(s: State, u: State)
    requires s.toRcv <= u.toRcv && u.taken == s.taken
    ensures Prompted(s) ==> Prompted(u)
  {
    if Prompted(s) {
      var i :| 0 <= i < |s.toRcv| && s.toRcv[i].Chunk? && s.toRcv[i].index < s.taken;
      assert u.toRcv[i] == s.toRcv[i];
    }
  }

  /** A sender that is sending takes no notice of another consent. */
  lemma ConsentIgnored(w: World, s: State, now: Time)
    requires w.Valid() && Healthy(s) && s.toSnd != [] && s.toSnd[0].Accept? && s.snd.phase in {Sending, Draining}
    ensures var u := Next(w, s, SenderHears(now));
            u == s.(snd := s.snd.(lastRx := now, retries := 0), toSnd := s.toSnd[1..], sent := u.sent)
  {
    hide Sound;
    assert s.toRcv + [] == s.toRcv;
  }

  lemma ConsentStep(w: World, s: State, now: Time)
    requires w.Valid() && Invariant(w, s) && Flowing(w, s) && Healthy(s) && s.toSnd != [] && s.toSnd[0].Accept?
    ensures Onward(w, s, Next(w, s, SenderHears(now)))
  {
    hide Invariant, Sound, Multiple, Next, Healthy, Covered, Prompted;
    ConsentIgnored(w, s, now);
    MorePrompted(s, Next(w, s, SenderHears(now)));
  }

  lemma SenderStep(w: World, s: State, now: Time)
    requires w.Valid() && Invariant(w, s) && Flowing(w, s) && Healthy(s) && s.toSnd != []
    ensures Onward(w, s, Next(w, s, SenderHears(now)))
  {
    hide Invariant, Next, Healthy, Onward, Caught, Prompted, Consumed;
    if s.toSnd[0].Ack? {
      AckStep(w, s, now);
    } else {
      ConsentStep(w, s, now);
    }
  }

  /** It never stalls: with both wires empty the window would have to be full of chunks that
      the receiver has taken and, a half window being no more than a window, acknowledged. */
  lemma NeverStalls(w: World, s: State)
    requires Acceptable(w) && Invariant(w, s) && Flowing(w, s)
    ensures s.toRcv != [] || s.toSnd != []
  {
    hide Multiple;
    SomeChunks(w);
    if s.toRcv == [] {
      assert !Prompted(s);
    }
  }

  // ---- Closing ----

  lemma CloseBySender(w: World, s: State, now: Time)
    requires w.Valid() && Invariant(w, s) && Closing(w, s) && Healthy(s)
    ensures var u := Next(w, s, SenderHears(now));
            u.outcome == Some(OK) || (Closing(w, u) && Weight(w, u) < Weight(w, s))
  {
    var n := |s.toSnd| - 1;
    if n == 0 {
      assert s.toSnd[0] == Done(Some(OK));
    } else {
      hide Invariant, Received, Sound, SenderInv, Next, Healthy, Ahead;
      assert s.toSnd[0] == s.toSnd[..n][0];
      var u := Next(w, s, SenderHears(now));
      if s.toSnd[0].Ack? {
        SenderFacts(w, s);
        SenderHeard(w, s, now);
        var _ := AckShape(w, s, s.toSnd[0], now);
      } else {
        ConsentIgnored(w, s, now);
        AheadIgnores(w, s.snd, u.snd);
      }
      assert u.toSnd[..n - 1] == s.toSnd[..n][1..];
    }
  }

  lemma AheadIgnores(w: World, d: Slot, d': Slot)
    requires w.Valid() && d'.acked == d.acked && d'.rewoundTo == d.rewoundTo
    ensures Ahead(w, d') == Ahead(w, d)
  {
  }

  lemma CloseByReceiver(w: World, s: State, now: Time)
    requires w.Valid() && Closing(w, s) && Healthy(s) && s.toRcv != []
    ensures var u := Next(w, s, ReceiverHears(now, true)); Closing(w, u) && Weight(w, u) < Weight(w, s)
  {
    hide Sound, Ahead;
  }

  // ---- The handshake ----

  lemma OfferIsHeard(w: World, s: State, now: Time)
    requires Acceptable(w) && Invariant(w, s) && Opening(w, s) && Healthy(s) && s.toRcv != []
    ensures var u := Next(w, s, ReceiverHears(now, true)); Opening(w, u) && Weight(w, u) < Weight(w, s)
  {
    assert GenuineToReceiver(w, s, 0);
    hide Invariant, Sound, Most, Adler.Checksum;
    var u := Next(w, s, ReceiverHears(now, true));
    if s.rcv.phase == Receiving {
      KeepsAccept(s.toSnd, u.toSnd);
    }
  }

  lemma KeepsAccept(ops: seq<Op>, ops': seq<Op>)
    requires HasAccept(ops) && ops <= ops'
    ensures HasAccept(ops')
  {
    var i :| 0 <= i < |ops| && ops[i].Accept?;
    assert ops'[i].Accept?;
  }

  lemma ConsentIsSent(w: World, s: State, now: Time)
    requires w.Valid() && Opening(w, s) && Healthy(s) && s.rcv.phase == Offered
    ensures var u := Next(w, s, AppAccepts(now)); Opening(w, u) && Weight(w, u) < Weight(w, s)
  {
    hide Sound, Most;
    var u := Next(w, s, AppAccepts(now));
    assert u.toSnd[|s.toSnd|].Accept?;
  }

  lemma FirstPump(w: World, s: State, now: Time)
    requires w.Valid() && SenderInv(w, s) && Sound(s.snd) && s.snd.phase == Offering
    ensures var e := Received(s.snd, Accept(Some(w.rc.window)), now);
            && e.slot.phase in {Sending, Draining} && e.slot.acked == 0 && e.slot.nextSeq == |e.ops| <= w.Window()
            && RunFrom(0, e.ops) && e.events == [] && e.slot.rewoundTo == NO_REWIND
  {
    var d := Granted(s.snd.(lastRx := now, retries := 0), Some(w.rc.window)).(phase := Sending);
    hide Pumped, PumpedOps, ChunksFor, ChunkAt;
    PumpFillsWindow(d, now);
    assert Received(s.snd, Accept(Some(w.rc.window)), now) == Pump(d, now, 0);
  }

  lemma OpeningFacts(w: World, s: State)
    requires w.Valid() && Invariant(w, s) && Opening(w, s)
    ensures SenderInv(w, s) && Sound(s.snd) && s.taken == 0
    ensures s.toSnd != [] && s.toSnd[0].Accept? ==> s.toSnd[0] == Accept(Some(w.rc.window))
  {
    if s.toSnd != [] {
      assert GenuineToSender(w, s, s.toSnd[0]);
    }
  }

  lemma SendingBegins(w: World, s: State, now: Time)
    requires w.Valid() && Invariant(w, s) && Opening(w, s) && Healthy(s)
    requires s.rcv.phase == Receiving && s.toSnd != [] && s.toSnd[0].Accept?
    ensures var u := Next(w, s, SenderHears(now)); Flowing(w, u) && Caught(w, u) && Weight(w, u) < Weight(w, s)
  {
    hide Invariant, Received, Sound, SenderInv, Multiple, Next, Healthy, Covered, Prompted, HasAccept;
    OpeningFacts(w, s);
    SenderHeard(w, s, now);
    FirstPump(w, s, now);
    var e := Received(s.snd, s.toSnd[0], now);
    CarriedOn(0, s.toRcv, 0, 0, 0, e.ops) by { ConsumedGrows(0, s.toRcv); }
    CoveredIfTold(Told(Next(w, s, SenderHears(now))), 0, Half(w.rc.window));
  }

  /** A sender that offers takes no notice of acknowledgements. */
  lemma AckIgnored(w: World, s: State, now: Time)
    requires w.Valid() && Invariant(w, s) && Opening(w, s) && Healthy(s) && s.toSnd != [] && s.toSnd[0].Ack?
    ensures var u := Next(w, s, SenderHears(now)); Opening(w, u) && Weight(w, u) < Weight(w, s)
  {
    hide Invariant, Sound, Most;
    var u := Next(w, s, SenderHears(now));
    assert u.toRcv == s.toRcv && u.toSnd == s.toSnd[1..];
    if s.rcv.phase == Receiving {
      var i :| 0 <= i < |s.toSnd| && s.toSnd[i].Accept?;
      assert u.toSnd[i - 1].Accept?;
    }
  }

  // ---- Every schedule ----

  lemma HealthyStill(w: World, s: State, step: Step)
    requires w.Valid() && Invariant(w, s)
    ensures Healthy(s) && Invariant(w, Next(w, s, step))
  {
    NextKeeps(w, s, step);
  }

  /** Every delivery, in whatever order, either ends the transfer well or leaves less to do. */
  lemma DeliveryHelps(w: World, s: State, step: Step)
    requires Acceptable(w) && Active(w, s) && Delivers(step) && Effective(s, step) && Healthy(s) && Patient(w, s, step)
    ensures var u := Next(w, s, step);
            u.outcome == Some(OK) || (Active(w, u) && Weight(w, u) < Weight(w, s) && StillBehind(w, s, u))
  {
    hide Invariant, Next, Healthy, Weight, Caught, Prompted, Consumed;
    HealthyStill(w, s, step);
    if Opening(w, s) {
      OpeningHelped(w, s, step);
    } else if Flowing(w, s) {
      if step.SenderHears? {
        SenderStep(w, s, step.now);
      } else {
        ReceiverStep(w, s, step.now);
      }
    } else if step.SenderHears? {
      CloseBySender(w, s, step.now);
    } else {
      CloseByReceiver(w, s, step.now);
    }
  }

  /** Data is flowing and the receiver has not been caught up with. */
  ghost predicate Behind(w: World, s: State) {
    s.snd.phase in {Sending, Draining} && s.rcv.phase == Receiving && !Caught(w, s)
  }

  ghost predicate StillBehind(w: World, s: State, u: State) {
    Behind(w, u) ==> Behind(w, s) && u.rcv.lastTx == s.rcv.lastTx
  }

  lemma OpeningHelped(w: World, s: State, step: Step)
    requires Acceptable(w) && Invariant(w, s) && Opening(w, s) && Delivers(step) && Effective(s, step) && Healthy(s)
    ensures var u := Next(w, s, step);
            && Weight(w, u) < Weight(w, s)
            && (Opening(w, u) || (Flowing(w, u) && Caught(w, u)))
  {
    hide Invariant, Next, Healthy, Weight, Caught, Flowing, HasAccept;
    if step.ReceiverHears? {
      OfferIsHeard(w, s, step.now);
    } else if step.AppAccepts? {
      ConsentIsSent(w, s, step.now);
    } else if s.toSnd[0].Ack? {
      AckIgnored(w, s, step.now);
    } else {
      PhasesOf(w, s);
      SendingBegins(w, s, step.now);
    }
  }

  lemma PhasesOf(w: World, s: State)
    requires w.Valid() && Invariant(w, s)
    ensures s.rcv.phase in {Free, Offered, Receiving}
  {
  }

  /** A step with nothing to deliver changes nothing. */
  lemma IdleStep(w: World, s: State, step: Step)
    requires w.Valid() && Healthy(s) && Delivers(step) && !Effective(s, step)
    ensures Next(w, s, step) == s
  {
    hide Received, Sound, Ticked;
    assert s.toSnd + [] == s.toSnd && s.log + [] == s.log;
  }

  /** A sender that has been told stays told. */
  lemma ToldForGood(w: World, s: State, step: Step)
    requires w.Valid() && Invariant(w, s) && Healthy(s) && Delivers(step) && s.outcome == Some(OK)
    ensures Next(w, s, step).outcome == Some(OK)
  {
    hide Received, Sound;
  }

  /** How many steps of a schedule deliver something. */
  ghost function Deliveries(w: World, s: State, steps: seq<Step>): nat
    requires w.Valid() && Invariant(w, s)
  {
    if steps == [] then 0
    else
      var pre, step := steps[..|steps| - 1], steps[|steps| - 1];
      Deliveries(w, s, pre) + if Effective(From(w, s, pre), step) then 1 else 0
  }

  lemma StartsActive(w: World, start: Time)
    requires w.Valid()
    ensures var s := Fresh(w, start); Active(w, s) && Weight(w, s) == Most(w) + 3 && !Behind(w, s)
  {
    hide Most, Adler.Checksum;
    InitialKeeps(w, start);
  }

  lemma WeightIsPositive(w: World, s: State)
    requires Active(w, s)
    ensures Weight(w, s) >= 0
  {
    hide Invariant, Ahead, Caught, Prompted;
    if s.snd.phase == Offering {
      ProductIsPositive(w.Chunks(), 4 * w.Window() + 3);
    } else {
      AheadIsPositive(w, s);
    }
  }

  /** If the receiver has not been caught up with, everything reaches it only after it has been
      silent for long enough to answer a stale chunk. */
  ghost predicate Unhurried(w: World, s: State, steps: seq<Step>) {
    forall i :: 0 <= i < |steps| && steps[i].ReceiverHears? && Behind(w, s) ==>
      TimeAfter(steps[i].now, Add32(s.rcv.lastTx, 20))
  }

  lemma UnhurriedIsPatient(w: World, s: State, u: State, steps: seq<Step>, step: Step)
    requires Unhurried(w, s, steps) && step in steps && StillBehind(w, s, u)
    requires u.snd.phase in {Free, Offering, Sending, Draining}
    ensures u.snd.phase == Free || Patient(w, u, step)
  {
    hide Caught, TimeAfter, Add32;
    var i :| 0 <= i < |steps| && steps[i] == step;
  }

  lemma ActivePhase(w: World, s: State)
    requires Active(w, s)
    ensures s.snd.phase in {Offering, Sending, Draining}
  {
    hide Caught, Prompted, Consumed;
  }

  lemma {:induction false} SmoothRun(w: World, s: State, steps: seq<Step>)
    requires Acceptable(w) && Active(w, s) && Smooth(w, s, steps) && Unhurried(w, s, steps)
    ensures var u := From(w, s, steps);
            || u.outcome == Some(OK)
            || (Active(w, u) && StillBehind(w, s, u) && Weight(w, u) + Deliveries(w, s, steps) <= Weight(w, s))
  {
    hide Invariant, Next, Active, Weight, Healthy, Acceptable, Behind, TooEarly, Delivers, Effective;
    ActiveIs(w, s);
    if steps != [] {
      var pre, step := steps[..|steps| - 1], steps[|steps| - 1];
      assert forall i :: 0 <= i <= |pre| ==> pre[..i] == steps[..i];
      assert steps[..|pre|] == pre;
      SmoothRun(w, s, pre);
      OneSmoothStep(w, s, From(w, s, pre), steps, step);
    }
  }

  lemma ActiveIs(w: World, s: State)
    requires Active(w, s)
    ensures w.Valid() && Invariant(w, s)
  {
  }

  lemma OneSmoothStep(w: World, s: State, u: State, steps: seq<Step>, step: Step)
    requires Acceptable(w) && w.Valid() && Invariant(w, u) && step in steps && Unhurried(w, s, steps)
    requires u.outcome == Some(OK) || (Active(w, u) && StillBehind(w, s, u))
    requires Delivers(step) || TooEarly(w, u, step)
    ensures Healthy(u)
    ensures var v := Next(w, u, step);
            || v.outcome == Some(OK)
            || (&& u.outcome != Some(OK) && Active(w, v) && StillBehind(w, s, v)
                && Weight(w, v) + (if Effective(u, step) then 1 else 0) <= Weight(w, u))
  {
    hide Invariant, Next, Weight, Caught, Healthy, Effective, Opening, Flowing, Closing, Unhurried;
    HealthyStill(w, u, step);
    if TooEarly(w, u, step) {
      TickIsNoDelivery(u, step);
    } else if u.outcome == Some(OK) {
      ToldForGood(w, u, step);
    } else if Effective(u, step) {
      ActivePhase(w, u);
      UnhurriedIsPatient(w, s, u, steps, step);
      DeliveryHelps(w, u, step);
    } else {
      IdleStep(w, u, step);
    }
  }

  lemma TickIsNoDelivery(s: State, step: Step)
    requires step.SenderTicks? || step.ReceiverTicks?
    ensures !Effective(s, step)
  {
  }

  /** As long as the sender has not been told, there is something to deliver or to consent to. */
  lemma ActiveCanGoOn(w: World, s: State, now: Time)
    requires Acceptable(w) && Active(w, s)
    ensures exists step :: Delivers(step) && Effective(s, step) && (step.ReceiverHears? ==> step.now == now)
  {
    hide Weight, Most, Caught, Invariant;
    if Flowing(w, s) {
      NeverStalls(w, s);
    }
    if s.toRcv != [] {
      assert Effective(s, ReceiverHears(now, true));
    } else if s.toSnd != [] {
      assert Effective(s, SenderHears(now));
    } else {
      PhasesOf(w, s);
      assert Effective(s, AppAccepts(now));
    }
  }

  lemma SmoothRunCanGoOn(w: World, start: Time, steps: seq<Step>)
    requires Acceptable(w) && Smooth(w, Fresh(w, start), steps)
    requires Reach(w, start, steps).outcome != Some(OK)
    ensures exists step :: Delivers(step) && Effective(Reach(w, start, steps), step)
  {
    hide Reach, Active, Weight, Most, Invariant, Smooth, From, Fresh, Behind;
    StartsActive(w, start);
    SmoothRun(w, Fresh(w, start), steps);
    ReachIsFrom(w, start, steps);
    ActiveCanGoOn(w, Reach(w, start, steps), start);
  }

  lemma OutcomeIsTrue(w: World, s: State)
    requires Acceptable(w) && Invariant(w, s) && s.outcome == Some(OK)
    ensures Delivered(s.log) == w.content
  {
    ChunkLogIsPrefix(w.content, s.taken);
    ChunksCover(|w.content|);
  }

  /** From any stage of a transfer: whatever the order of the deliveries and whenever they come,
      after more of them than there is left to do the sender has been told of success and the
      receiver's application has been handed the whole content. */
  lemma EnoughDeliveriesSucceed(w: World, s: State, steps: seq<Step>)
    requires Acceptable(w) && Active(w, s) && Smooth(w, s, steps) && Unhurried(w, s, steps)
    requires Deliveries(w, s, steps) > Weight(w, s)
    ensures var u := From(w, s, steps); u.outcome == Some(OK) && Delivered(u.log) == w.content
  {
    hide From, Weight, Active, Invariant, Smooth, Unhurried, Behind;
    ActiveIs(w, s);
    SmoothRun(w, s, steps);
    var u := From(w, s, steps);
    if u.outcome != Some(OK) {
      WeightIsPositive(w, u);
    }
    OutcomeIsTrue(w, u);
  }

  /** Every schedule: whatever the order of the deliveries and whenever they come, after a number
      of them that depends only on the content and the window, at most
      chunks * (4 * window + 3) + 4 * window + 4, the sender has been told of success and the
      receiver's application has been handed the whole content. */
  lemma EverySmoothScheduleSucceeds(w: World, start: Time, steps: seq<Step>)
    requires Acceptable(w) && Smooth(w, Fresh(w, start), steps)
    requires Deliveries(w, Fresh(w, start), steps) > Most(w) + 3
    ensures var s := Reach(w, start, steps); s.outcome == Some(OK) && Delivered(s.log) == w.content
  {
    hide Reach, Weight, Most, Active, Invariant, Smooth, From, Fresh, Behind;
    StartsActive(w, start);
    ReachIsFrom(w, start, steps);
    EnoughDeliveriesSucceed(w, Fresh(w, start), steps);
  }

  /** And there are such schedules: any that goes on while it can. */
  lemma {:induction false} GoesOn(w: World, s: State, steps: seq<Step>, now: Time) returns (all: seq<Step>)
    requires Acceptable(w) && Active(w, s) && Smooth(w, s, steps) && Unhurried(w, s, steps)
    requires Behind(w, s) ==> TimeAfter(now, Add32(s.rcv.lastTx, 20))
    ensures Smooth(w, s, all) && Unhurried(w, s, all) && From(w, s, all).outcome == Some(OK)
    decreases Weight(w, s) + 1 - Deliveries(w, s, steps)
  {
    hide Weight, Active, Invariant, Behind, Smooth, Unhurried, Next, Acceptable;
    ActiveIs(w, s);
    var u := From(w, s, steps);
    if u.outcome == Some(OK) {
      return steps;
    }
    SmoothRun(w, s, steps);
    WeightIsPositive(w, u);
    ActiveCanGoOn(w, u, now);
    var step :| Delivers(step) && Effective(u, step) && (step.ReceiverHears? ==> step.now == now);
    OneMore(w, s, steps, step, now);
    all := GoesOn(w, s, steps + [step], now);
  }

  lemma OneMore(w: World, s: State, steps: seq<Step>, step: Step, now: Time)
    requires w.Valid() && Invariant(w, s) && Smooth(w, s, steps) && Unhurried(w, s, steps)
    requires Delivers(step) && Effective(From(w, s, steps), step) && (step.ReceiverHears? ==> step.now == now)
    requires Behind(w, s) ==> TimeAfter(now, Add32(s.rcv.lastTx, 20))
    ensures Smooth(w, s, steps + [step]) && Unhurried(w, s, steps + [step])
    ensures Deliveries(w, s, steps + [step]) == Deliveries(w, s, steps) + 1
  {
    hide Invariant, Delivers, Effective, Behind, TooEarly, From, TimeAfter, Add32;
    var more := steps + [step];
    assert more[..|steps|] == steps;
    forall i | 0 <= i < |more| ensures Delivers(more[i]) || TooEarly(w, From(w, s, more[..i]), more[i]) {
      assert i < |steps| ==> more[..i] == steps[..i];
    }
  }

  /** Every content of at most 65535 chunks that the receiver's limit admits, over any non-zero
      window, does reach the receiver, and its sender is told. */
  lemma TransferSucceeds(w: World, start: Time) returns (steps: seq<Step>)
    requires Acceptable(w)
    ensures Smooth(w, Fresh(w, start), steps)
    ensures var s := Reach(w, start, steps); s.outcome == Some(OK) && Delivered(s.log) == w.content
  {
    hide Reach, From, Active, Invariant, Fresh, Behind, Smooth, Weight, Most;
    StartsActive(w, start);
    var s := Fresh(w, start);
    assert Smooth(w, s, []) && Unhurried(w, s, []) by { NothingYet(w, s); }
    steps := GoesOn(w, s, [], start);
    ReachIsFrom(w, start, steps);
    OutcomeIsTrue(w, Reach(w, start, steps));
  }

  lemma NothingYet(w: World, s: State)
    requires w.Valid() && Invariant(w, s)
    ensures Smooth(w, s, []) && Unhurried(w, s, [])
  {
  }
}
