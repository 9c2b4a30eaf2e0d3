/** Losses are repaired: what exactly a tick of the clock does to a transfer, why one timeout mends
    whatever was lost on the way, and which two losses nothing mends. */
module Recovery {
  import opened Types
  import opened Stream
  import opened Transfer
  import opened Progress
  import Adler

  // ---- What a tick does ----

  /** Nothing has been heard for the idle time. */
  predicate Idle(d: Slot, c: Config, now: Time) {
    TimeAfter(now, Add32(d.lastRx, c.idleTimeout))
  }

  /** The answer to what was sent last is overdue. */
  predicate Overdue(d: Slot, c: Config, now: Time) {
    TimeAfter(now, Add32(d.lastTx, if d.phase == Offering then c.offerTimeout else c.ackTimeout))
  }

  /** There is another try. */
  predicate BudgetLeft(d: Slot, c: Config) {
    (d.retries + 1) % 0x100 <= if d.phase == Offering then c.offerRetries else c.maxRetries
  }

  predicate Resends(d: Slot, c: Config, now: Time) {
    d.phase in {Offering, Sending, Draining} && !Idle(d, c, now) && Overdue(d, c, now) && BudgetLeft(d, c)
  }

  /** Chunks a to b of the content. */
  function Resent(content: seq<Byte>, a: nat, b: nat): seq<Op>
    requires a <= b <= 0xFFFF && (a < b ==> (b - 1) * CHUNK <= |content|)
  {
    seq(b - a, k requires 0 <= k < b - a => ResentAt(content, a, b, k))
  }

  function ResentAt(content: seq<Byte>, a: nat, b: nat, k: nat): Op
    requires a <= b <= 0xFFFF && k < b - a && (b - 1) * CHUNK <= |content|
  {
    Chunk(a + k, ChunkAt(content, a + k))
  }

  lemma WindowFits(w: World, a: nat)
    requires w.Valid() && a <= w.Chunks()
    ensures var b := Min(w.Chunks(), a + w.Window()); a <= b <= 0xFFFF && (a < b ==> (b - 1) * CHUNK <= |w.content|)
  {
    ChunksCover(|w.content|);
  }

  /** A window of chunks from number a on, or as many as there are. */
  function WindowFrom(w: World, a: nat): seq<Op>
    requires w.Valid() && a <= w.Chunks()
  {
    WindowFits(w, a);
    Resent(w.content, a, Min(w.Chunks(), a + w.Window()))
  }

  lemma TickOfSending(w: World, s: State, now: Time)
    requires w.Valid() && SenderInv(w, s) && s.snd.phase in {Sending, Draining} && Resends(s.snd, w.sc, now)
    requires s.snd.acked <= w.Chunks()
    ensures var d, b := s.snd, Min(w.Chunks(), s.snd.acked + w.Window());
            Ticked(d, w.sc, now) ==
              Effect(d.(retries := (d.retries + 1) % 0x100, rewoundTo := NO_REWIND,
                        lastTx := if d.acked < b then now else d.lastTx),
                     WindowFrom(w, d.acked), [], 1)
  {
    var d, b := s.snd, Min(w.Chunks(), s.snd.acked + w.Window());
    WindowFits(w, d.acked);
    hide Pumped, PumpedOps, ChunksFor, ChunkAt, Resends, Ticked, Adler.Checksum, Rewound;
    TickPumps(d, w.sc, now);
    PumpedAgain(d, now);
  }

  lemma PumpedAgain(d: Slot, now: Time)
    requires |d.src| == d.total && d.phase in {Sending, Draining} && d.acked <= ChunksFor(d.total)
    requires d.nextSeq == Min(ChunksFor(d.total), d.acked + d.window)
    requires d.phase == Draining <==> d.nextSeq == ChunksFor(d.total)
    requires d.acked < d.nextSeq ==> (d.nextSeq - 1) * CHUNK <= |d.src|
    ensures Pumped(Rewound(d), now) ==
              d.(retries := (d.retries + 1) % 0x100, rewoundTo := NO_REWIND,
                 lastTx := if d.acked < d.nextSeq then now else d.lastTx)
    ensures PumpedOps(Rewound(d), now) == Resent(d.src, d.acked, d.nextSeq)
  {
    hide Pumped, PumpedOps, ChunksFor, ChunkAt;
    PumpFillsWindow(Rewound(d), now);
    PumpStamps(Rewound(d), now);
  }

  /** Back at the first chunk not acknowledged, one try further. */
  function Rewound(d: Slot): Slot {
    d.(retries := (d.retries + 1) % 0x100, nextSeq := d.acked, rewoundTo := NO_REWIND, phase := Sending)
  }

  lemma TickPumps(d: Slot, c: Config, now: Time)
    requires Sound(d) && d.phase in {Sending, Draining} && Resends(d, c, now)
    ensures Ticked(d, c, now) == Pump(Rewound(d), now, 1)
  {
    hide Pumped, PumpedOps, ChunksFor, TimeAfter, Add32;
  }

  /** Pumping stamps the time exactly if it sends anything. */
  lemma {:induction false} PumpStamps(s: Slot, now: Time)
    requires |s.src| == s.total
    ensures Pumped(s, now).lastTx == if PumpedOps(s, now) == [] then s.lastTx else now
    decreases ChunksFor(s.total) - s.nextSeq
  {
    hide ChunksFor, ChunkAt;
    PumpUnfolds(s, now);
    if CanPump(s) {
      PumpStamps(PumpOne(s, now), now);
    }
  }

  lemma SendingFacts(w: World, s: State)
    requires w.Valid() && Invariant(w, s) && s.snd.phase in {Sending, Draining}
    ensures SenderInv(w, s) && Sound(s.snd) && s.snd.acked <= s.taken <= s.sent == s.snd.nextSeq <= w.Chunks()
  {
  }

  /** A timeout with another try left sends everything from the first chunk not acknowledged to the
      end of the window again, in order and once each, and changes nothing else but the timer and
      the retry count. */
  lemma TimeoutResends(w: World, s: State, now: Time)
    requires w.Valid() && Invariant(w, s) && s.snd.phase in {Sending, Draining} && Resends(s.snd, w.sc, now)
    ensures Healthy(s) && s.snd.acked <= w.Chunks()
    ensures var d, b := s.snd, Min(w.Chunks(), s.snd.acked + w.Window());
            Next(w, s, SenderTicks(now)) ==
              s.(snd := d.(retries := (d.retries + 1) % 0x100, rewoundTo := NO_REWIND,
                           lastTx := if d.acked < b then now else d.lastTx),
                 toRcv := s.toRcv + WindowFrom(w, d.acked),
                 timeouts := s.timeouts + 1, rewinds := s.rewinds + 1)
  {
    hide Invariant, Ticked, WindowFrom, Healthy;
    InvariantIsHealthy(w, s);
    SendingFacts(w, s);
    TickOfSending(w, s, now);
    TickStep(w, s, now);
  }

  lemma TickStep(w: World, s: State, now: Time)
    requires w.Valid() && Healthy(s)
    ensures Next(w, s, SenderTicks(now)) == SenderDid(s, Ticked(s.snd, w.sc, now), Ticked(s.snd, w.sc, now).rewinds)
  {
    hide Ticked;
  }

  /** Before its consent, the offer is what is sent again. */
  lemma TimeoutOffersAgain(w: World, s: State, now: Time)
    requires w.Valid() && Invariant(w, s) && s.snd.phase == Offering && Resends(s.snd, w.sc, now)
    ensures Healthy(s)
    ensures var d := s.snd;
            Next(w, s, SenderTicks(now)) ==
              s.(snd := d.(retries := (d.retries + 1) % 0x100, lastTx := now),
                 toRcv := s.toRcv + [Offer(d.kind, |w.content|, Adler.Checksum(w.content), d.name)])
  {
    hide Adler.Checksum, TimeAfter, Add32;
    InvariantIsHealthy(w, s);
  }

  /** Otherwise a tick gives up or does nothing: after the idle time without a word; with word,
      but no try left, after telling the receiver; and before the timer has run out not at all. */
  lemma TickGivesUpOrWaits(w: World, s: State, now: Time)
    requires w.Valid() && Invariant(w, s) && !Resends(s.snd, w.sc, now)
    ensures Healthy(s)
    ensures var u := Next(w, s, SenderTicks(now));
            if s.snd.phase == Free then u == s
            else if Idle(s.snd, w.sc, now) then u == s.(snd := EMPTY, outcome := Some(TIMEOUT))
            else if Overdue(s.snd, w.sc, now) then
              u == s.(snd := EMPTY, toRcv := s.toRcv + [Abort(Some(TIMEOUT))], outcome := Some(TIMEOUT))
            else u == s
  {
    hide Adler.Checksum, TimeAfter, Add32;
    InvariantIsHealthy(w, s);
    assert s.toRcv + [] == s.toRcv;
    SentCoversPosition(w, s);
  }

  lemma SentCoversPosition(w: World, s: State)
    requires w.Valid() && Invariant(w, s)
    ensures s.snd.nextSeq <= s.sent
  {
  }

  /** The receiver's clock only ever ends a stream that has been silent for the idle time. */
  lemma ReceiverTickIs(w: World, s: State, now: Time)
    requires w.Valid() && Invariant(w, s)
    ensures Healthy(s)
    ensures Next(w, s, ReceiverTicks(now)) ==
              if s.rcv.phase != Free && Idle(s.rcv, w.rc, now) then s.(rcv := EMPTY) else s
  {
    hide Adler.Checksum, TimeAfter, Add32;
    InvariantIsHealthy(w, s);
    assert s.toSnd + [] == s.toSnd && s.log + [] == s.log;
    var told := [OnReceived(TIMEOUT)];
    assert told[1..] == [] && ChunkEvents(told) == [];
  }

  // ---- One timeout mends what was lost ----

  predicate NoRefusal(ops: seq<Op>) {
    forall i :: 0 <= i < |ops| ==> !ops[i].Reject? && !ops[i].Abort?
  }

  /** The receiver has the stream open, or can still open it: no refusal is under way, and either
      data is flowing, or the handshake has not lost its consent. */
  ghost predicate Repairable(s: State) {
    && NoRefusal(s.toSnd)
    && (s.snd.phase in {Sending, Draining} ==> s.rcv.phase == Receiving)
    && (s.snd.phase == Offering ==> (s.rcv.phase == Receiving <==> HasAccept(s.toSnd)))
  }

  lemma WiresOf(w: World, s: State)
    requires w.Valid() && Invariant(w, s) && NoRefusal(s.toSnd) && s.snd.phase != Free
    requires s.rcv.phase == Receiving || s.snd.phase == Offering
    requires w.Chunks() > 0
    ensures Forth(s.toRcv) && Answers(s.toSnd)
    ensures s.snd.phase == Offering ==> AllOffers(s.toRcv)
  {
    forall i | 0 <= i < |s.toRcv|
      ensures s.toRcv[i].Chunk? || s.toRcv[i].Offer?
      ensures s.snd.phase == Offering ==> s.toRcv[i].Offer?
    {
      assert GenuineToReceiver(w, s, i);
    }
    forall i | 0 <= i < |s.toSnd| ensures s.toSnd[i].Ack? || s.toSnd[i].Accept? {
      assert GenuineToSender(w, s, s.toSnd[i]);
    }
  }

  lemma ToldAtLeast(w: World, s: State)
    requires w.Valid() && Invariant(w, s) && s.snd.phase in {Sending, Draining}
    ensures Told(s) >= s.snd.acked
  {
    if s.toSnd != [] {
      assert GenuineToSender(w, s, s.toSnd[|s.toSnd| - 1]);
    }
  }

  lemma ResentRuns(content: seq<Byte>, a: nat, b: nat)
    requires a <= b <= 0xFFFF && (a < b ==> (b - 1) * CHUNK <= |content|)
    ensures |Resent(content, a, b)| == b - a && RunFrom(a, Resent(content, a, b))
  {
    hide ChunkAt;
  }

  /** With the window sent again, the transfer flows, whatever had been lost before. */
  lemma ResendingFlows(w: World, s: State, now: Time)
    requires Acceptable(w) && Invariant(w, s) && Repairable(s) && s.snd.phase in {Sending, Draining}
    requires Resends(s.snd, w.sc, now)
    ensures Healthy(s)
    ensures var u := Next(w, s, SenderTicks(now)); Flowing(w, u) && u.rcv == s.rcv
  {
    hide Invariant, Resent, Healthy, Next, SenderInv, Sound, Covered, Consumed, Resends, ChunksFor;
    SomeChunks(w);
    SendingFacts(w, s);
    WiresOf(w, s);
    TimeoutResends(w, s, now);
    var u, a, b := Next(w, s, SenderTicks(now)), s.snd.acked, Min(w.Chunks(), s.snd.acked + w.Window());
    WindowFits(w, a);
    ResentRuns(w.content, a, b);
    ConsumedGrows(s.taken, s.toRcv);
    CarriedOn(s.taken, s.toRcv, s.taken, a, a, Resent(w.content, a, b));
    assert b == s.snd.nextSeq by { PositionIs(w, s); }
    if a < s.taken {
      assert u.toRcv[|s.toRcv|] == Resent(w.content, a, b)[0];
    } else {
      ToldAtLeast(w, s);
      assert Told(u) == Told(s);
      CoveredIfTold(Told(u), u.taken, Half(w.rc.window));
    }
  }

  /** And what is left to do is bounded by the content, the window and what was on the way. */
  lemma ResendingWeighs(w: World, s: State, now: Time)
    requires w.Valid() && Invariant(w, s) && s.snd.phase in {Sending, Draining} && Resends(s.snd, w.sc, now)
    ensures Healthy(s)
    ensures Weight(w, Next(w, s, SenderTicks(now))) <= Most(w) + 2 * |s.toRcv| + |s.toSnd|
  {
    hide Invariant, Resent, Healthy, Next, SenderInv, Sound, Resends, ChunksFor;
    SendingFacts(w, s);
    TimeoutResends(w, s, now);
    var a := s.snd.acked;
    WindowFits(w, a);
    ResentRuns(w.content, a, Min(w.Chunks(), a + w.Window()));
    LessAhead(w.Chunks(), a, 4 * w.Window() + 3);
  }

  lemma PositionIs(w: World, s: State)
    requires w.Valid() && Invariant(w, s) && s.snd.phase in {Sending, Draining}
    ensures s.snd.nextSeq == Min(w.Chunks(), s.snd.acked + w.Window())
  {
  }

  lemma LessAhead(t: int, a: int, k: int)
    requires 0 <= a <= t && k >= 0
    ensures (t - a) * k <= t * k
  {
    ProductIsPositive(a, k);
    assert (t - a) * k == t * k - a * k;
  }

  /** With the offer sent again, the handshake is on its way. */
  lemma OfferingAgainOpens(w: World, s: State, now: Time)
    requires Acceptable(w) && Invariant(w, s) && Repairable(s) && s.snd.phase == Offering
    requires Resends(s.snd, w.sc, now)
    ensures Healthy(s)
    ensures var u := Next(w, s, SenderTicks(now));
            Opening(w, u) && Weight(w, u) <= Most(w) + 2 * |s.toRcv| + |s.toSnd| + 4 && u.rcv == s.rcv
  {
    hide Invariant, Healthy, Next, Most, Adler.Checksum;
    SomeChunks(w);
    WiresOf(w, s);
    TimeoutOffersAgain(w, s, now);
    PhasesOf(w, s);
    assert !HasAccept(s.toSnd) && Answers(s.toSnd) ==> AllAcks(s.toSnd);
  }

  /** The state right after the timeout. */
  ghost function AfterTimeout(w: World, s: State, now: Time): (u: State)
    requires w.Valid() && Invariant(w, s)
    ensures Invariant(w, u)
  {
    NextKeeps(w, s, SenderTicks(now));
    Next(w, s, SenderTicks(now))
  }

  lemma TimeoutActivates(w: World, s: State, now: Time)
    requires Acceptable(w) && Invariant(w, s) && Repairable(s) && Resends(s.snd, w.sc, now)
    ensures var u := AfterTimeout(w, s, now);
            Active(w, u) && Weight(w, u) <= Most(w) + 2 * |s.toRcv| + |s.toSnd| + 4 && u.rcv == s.rcv
  {
    hide Invariant, Next, Most, Weight, Flowing, Opening, Healthy, Repairable;
    if s.snd.phase == Offering {
      OfferingAgainOpens(w, s, now);
    } else {
      ResendingFlows(w, s, now);
      ResendingWeighs(w, s, now);
    }
  }

  /** The main result. In any state a run can reach, whatever has been lost, with the stream open at
      the receiver, no refusal under way and another try left: once the timer has run out, every
      schedule of deliveries that loses nothing more, in any order and at any times at which the
      receiver has been silent for 20 ms, carries the whole content over and tells the sender. */
  lemma LossesAreRepaired(w: World, s: State, now: Time, steps: seq<Step>)
    requires Acceptable(w) && Invariant(w, s) && Repairable(s) && Resends(s.snd, w.sc, now)
    requires var u := AfterTimeout(w, s, now);
             && Smooth(w, u, steps) && Deliveries(w, u, steps) > Most(w) + 2 * |s.toRcv| + |s.toSnd| + 4
             && forall i :: 0 <= i < |steps| && steps[i].ReceiverHears? ==>
                  TimeAfter(steps[i].now, Add32(s.rcv.lastTx, 20))
    ensures var v := From(w, AfterTimeout(w, s, now), steps);
            v.outcome == Some(OK) && Delivered(v.log) == w.content
  {
    hide Invariant, Most, Weight, Active, AfterTimeout, From, Smooth, Repairable, Resends, Behind;
    hide TimeAfter, Add32, Deliveries;
    TimeoutActivates(w, s, now);
    EnoughDeliveriesSucceed(w, AfterTimeout(w, s, now), steps);
  }

  /** And there is always such a schedule. */
  lemma LossesCanBeRepaired(w: World, s: State, now: Time) returns (steps: seq<Step>)
    requires Acceptable(w) && Invariant(w, s) && Repairable(s) && Resends(s.snd, w.sc, now)
    ensures steps != [] && steps[0] == SenderTicks(now)
    ensures forall i :: 1 <= i < |steps| ==>
              Delivers(steps[i]) || TooEarly(w, From(w, AfterTimeout(w, s, now), steps[1..i]), steps[i])
    ensures From(w, s, steps).outcome == Some(OK) && Delivered(From(w, s, steps).log) == w.content
  {
    hide Invariant, Most, Weight, Active, Repairable, Resends, Behind, TooEarly, Delivers, Next, Unhurried;
    TimeoutActivates(w, s, now);
    var u := AfterTimeout(w, s, now);
    NothingYet(w, u);
    var later := Add32(u.rcv.lastTx, 20);
    assert TimeAfter(later, later);
    var rest := GoesOn(w, u, [], later);
    steps := [SenderTicks(now)] + rest;
    FromStep(w, s, SenderTicks(now), rest);
    OutcomeIsTrue(w, From(w, s, steps));
    forall i | 1 <= i < |steps|
      ensures Delivers(steps[i]) || TooEarly(w, From(w, AfterTimeout(w, s, now), steps[1..i]), steps[i])
    {
      assert steps[1..i] == rest[..i - 1] && steps[i] == rest[i - 1];
    }
  }

  lemma {:induction false} FromStep(w: World, s: State, step: Step, rest: seq<Step>)
    requires w.Valid() && Invariant(w, s)
    ensures Healthy(s) && Invariant(w, Next(w, s, step))
    ensures From(w, s, [step] + rest) == From(w, Next(w, s, step), rest)
  {
    hide Invariant, Next, Healthy;
    NextKeeps(w, s, step);
    var all := [step] + rest;
    if rest == [] {
      assert all[..0] == [] && From(w, s, []) == s;
      assert all == [step];
    } else {
      var pre := rest[..|rest| - 1];
      FromStep(w, s, step, pre);
      assert all[..|all| - 1] == [step] + pre;
    }
  }

  // ---- What nothing mends ----

  predicate NoDone(ops: seq<Op>) {
    forall i :: 0 <= i < |ops| ==> !ops[i].Done?
  }

  predicate NoOffer(ops: seq<Op>) {
    forall i :: 0 <= i < |ops| ==> !ops[i].Offer?
  }

  /** The receiver is through with the stream and its verdict is not on the way. */
  ghost predicate Orphaned(s: State) {
    && s.outcome != Some(OK)
    && (s.snd.phase != Free ==>
          && s.snd.phase in {Sending, Draining} && s.rcv.phase == Free
          && NoDone(s.toSnd) && NoOffer(s.toRcv))
  }

  /** A sender that has ended keeps what it was told. */
  lemma EndedStays(w: World, s: State, step: Step)
    requires w.Valid() && Healthy(s) && s.snd.phase == Free
    ensures Next(w, s, step).snd == s.snd && Next(w, s, step).outcome == s.outcome
  {
    hide Sound, Received;
  }

  lemma OrphanHears(w: World, s: State, now: Time)
    requires w.Valid() && Invariant(w, s) && Healthy(s) && Orphaned(s) && s.snd.phase != Free
    ensures Orphaned(Next(w, s, SenderHears(now)))
  {
    if s.toSnd != [] {
      assert GenuineToSender(w, s, s.toSnd[0]);
      hide Invariant, Sound;
      if s.toSnd[0].Ack? {
        hide Next, Received;
        SenderHeard(w, s, now);
        SendingFacts(w, s);
        SenderFacts(w, s);
        var _ := AckShape(w, s, s.toSnd[0], now);
      }
    }
  }

  lemma OrphanTicks(w: World, s: State, now: Time)
    requires w.Valid() && Invariant(w, s) && Healthy(s) && Orphaned(s) && s.snd.phase != Free
    ensures Orphaned(Next(w, s, SenderTicks(now)))
  {
    hide Invariant, Next, Healthy, Sound, Resends, WindowFrom;
    if Resends(s.snd, w.sc, now) {
      TimeoutResends(w, s, now);
      WindowIsChunks(w, s.snd.acked);
    } else {
      TickGivesUpOrWaits(w, s, now);
    }
  }

  lemma WindowIsChunks(w: World, a: nat)
    requires w.Valid() && a <= w.Chunks()
    ensures NoOffer(WindowFrom(w, a))
  {
    hide ChunkAt;
  }

  lemma OrphanStep(w: World, s: State, step: Step)
    requires w.Valid() && Invariant(w, s) && Healthy(s) && Orphaned(s)
    ensures Orphaned(Next(w, s, step))
  {
    if s.snd.phase == Free {
      EndedStays(w, s, step);
    } else {
      match step
      case SenderHears(now) => OrphanHears(w, s, now);
      case SenderTicks(now) => OrphanTicks(w, s, now);
      case _ => OrphanIgnores(w, s, step);
    }
  }

  lemma OrphanIgnores(w: World, s: State, step: Step)
    requires w.Valid() && Healthy(s) && Orphaned(s) && s.snd.phase != Free
    requires !step.SenderHears? && !step.SenderTicks?
    ensures Orphaned(Next(w, s, step))
  {
    hide Sound;
    assert s.toSnd + [] == s.toSnd;
  }

  /** A verdict that is lost is never repeated: whatever happens then, the sender will not be told
      of success, although the receiver may have the whole content. */
  lemma {:induction false} LostVerdictIsFinal(w: World, s: State, steps: seq<Step>)
    requires w.Valid() && Invariant(w, s) && Orphaned(s)
    ensures From(w, s, steps).outcome != Some(OK) && Orphaned(From(w, s, steps))
  {
    hide Invariant, Next, Healthy, Orphaned;
    if steps != [] {
      var pre := steps[..|steps| - 1];
      LostVerdictIsFinal(w, s, pre);
      HealthyStill(w, From(w, s, pre), steps[|steps| - 1]);
      OrphanStep(w, From(w, s, pre), steps[|steps| - 1]);
    }
    assert From(w, s, steps).outcome != Some(OK) by { OrphanIsUntold(From(w, s, steps)); }
  }

  lemma OrphanIsUntold(s: State)
    requires Orphaned(s)
    ensures s.outcome != Some(OK)
  {
  }

  /** Only a verdict turns into success. */
  lemma OnlyAVerdictTells(w: World, s: State, step: Step)
    requires w.Valid() && Invariant(w, s) && Healthy(s)
    requires s.outcome != Some(OK) && Next(w, s, step).outcome == Some(OK)
    ensures step.SenderHears? && s.toSnd != [] && s.toSnd[0].Done?
  {
    if s.toSnd != [] {
      assert GenuineToSender(w, s, s.toSnd[0]);
    }
    hide Invariant, Sound, Pumped, PumpedOps;
  }

  lemma LastIsTheVerdict(w: World, s: State)
    requires Active(w, s) && s.toSnd != [] && s.toSnd[0].Done?
    ensures Closing(w, s) && s.toSnd == [Done(Some(OK))]
  {
    hide Invariant, Consumed, Caught, Prompted;
    PhasesOf(w, s);
    FrontOf(s.toSnd);
  }

  lemma FrontOf(ops: seq<Op>)
    ensures |ops| > 1 ==> ops[..|ops| - 1][0] == ops[0]
  {
  }

  /** The last moment before a sender is told. */
  lemma {:induction false} VerdictOnItsWay(w: World, s: State, steps: seq<Step>) returns (k: nat)
    requires Acceptable(w) && Active(w, s) && s.outcome != Some(OK) && Smooth(w, s, steps) && Unhurried(w, s, steps)
    requires From(w, s, steps).outcome == Some(OK)
    ensures k < |steps| && var u := From(w, s, steps[..k]); Closing(w, u) && u.toSnd == [Done(Some(OK))]
  {
    hide Invariant, Next, Active, Closing, Behind, TooEarly, Delivers, Acceptable;
    ActiveIs(w, s);
    var pre, step := steps[..|steps| - 1], steps[|steps| - 1];
    assert forall i :: 0 <= i <= |pre| ==> pre[..i] == steps[..i];
    assert steps[..|pre|] == pre;
    var u := From(w, s, pre);
    if u.outcome == Some(OK) {
      k := VerdictOnItsWay(w, s, pre);
    } else {
      k := |pre|;
      HealthyStill(w, u, step);
      OnlyAVerdictTells(w, u, step);
      SmoothRun(w, s, pre);
      LastIsTheVerdict(w, u);
    }
  }

  lemma VerdictLost(w: World, s: State)
    requires Acceptable(w) && Invariant(w, s) && Closing(w, s) && s.toSnd == [Done(Some(OK))] && s.outcome != Some(OK)
    ensures Healthy(s)
    ensures var u := Next(w, s, LoseToSender(0)); Orphaned(u) && Delivered(u.log) == w.content
  {
    hide Invariant, Healthy;
    InvariantIsHealthy(w, s);
    VerdictMeansAll(w, s);
    assert Without(s.toSnd, 0) == [];
  }

  lemma VerdictMeansAll(w: World, s: State)
    requires Acceptable(w) && Invariant(w, s) && s.toSnd != [] && s.toSnd[0].Done?
    ensures Delivered(s.log) == w.content
  {
    assert GenuineToSender(w, s, s.toSnd[0]);
    ChunkLogIsPrefix(w.content, s.taken);
    ChunksCover(|w.content|);
  }

  /** There is such a run: every content gets over whole, its verdict is lost, and the sender will
      never know. */
  lemma DeliveredButNeverTold(w: World, start: Time) returns (steps: seq<Step>)
    requires Acceptable(w)
    ensures var s := Reach(w, start, steps); Delivered(s.log) == w.content && Orphaned(s)
  {
    hide Active, Invariant, Closing, Smooth, From, Fresh, Orphaned, Behind, Reach, Healthy, Next, Unhurried;
    StartsActive(w, start);
    var s := Fresh(w, start);
    NothingYet(w, s);
    var all := GoesOn(w, s, [], start);
    FreshIsUntold(w, start);
    var k := VerdictOnItsWay(w, s, all);
    var u := From(w, s, all[..k]);
    ClosingIsUntold(w, u);
    VerdictLost(w, u);
    ReachIsFrom(w, start, all[..k]);
    steps := all[..k] + [LoseToSender(0)];
    ReachOne(w, start, all[..k], LoseToSender(0));
  }

  lemma ReachOne(w: World, start: Time, steps: seq<Step>, step: Step)
    requires w.Valid()
    ensures Healthy(Reach(w, start, steps)) && Reach(w, start, steps + [step]) == Next(w, Reach(w, start, steps), step)
  {
    hide Invariant, Next, Healthy;
    NextKeeps(w, Reach(w, start, steps), step);
    assert (steps + [step])[..|steps|] == steps;
  }

  lemma FreshIsUntold(w: World, start: Time)
    requires w.Valid()
    ensures Fresh(w, start).outcome.None?
  {
    hide Adler.Checksum;
  }

  lemma ClosingIsUntold(w: World, s: State)
    requires w.Valid() && Invariant(w, s) && Closing(w, s)
    ensures s.outcome.None?
  {
  }

  // ---- Exactly what can still end well ----

  /** The receiver has the stream, is asked about it or will be, or has sent its verdict. */
  ghost predicate Hopeful(s: State) {
    s.rcv.phase != Free || !NoOffer(s.toRcv) || !NoDone(s.toSnd)
  }

  lemma FromPrefix(w: World, s: State, step: Step, rest: seq<Step>)
    requires w.Valid() && Invariant(w, s)
    ensures Healthy(s) && Invariant(w, Next(w, s, step))
    ensures From(w, Next(w, s, step), rest).outcome == Some(OK) ==>
              exists steps :: From(w, s, steps).outcome == Some(OK)
  {
    hide From, Next, Invariant, Healthy;
    FromStep(w, s, step, rest);
  }

  /** The verdict is heard once all before it has been. */
  lemma {:induction false} VerdictIsHeard(w: World, s: State) returns (steps: seq<Step>)
    requires Acceptable(w) && Invariant(w, s) && s.snd.phase in {Sending, Draining}
    requires NoRefusal(s.toSnd) && !NoDone(s.toSnd)
    ensures From(w, s, steps).outcome == Some(OK)
    decreases |s.toSnd|
  {
    var hear := SenderHears(0);
    HealthyStill(w, s, hear);
    var u := Next(w, s, hear);
    if s.toSnd[0].Done? {
      VerdictHeard(w, s);
      FromStep(w, s, hear, []);
      steps := [hear] + [];
    } else {
      BeforeVerdict(w, s);
      var rest := VerdictIsHeard(w, u);
      FromStep(w, s, hear, rest);
      steps := [hear] + rest;
    }
  }

  lemma VerdictHeard(w: World, s: State)
    requires Acceptable(w) && Invariant(w, s) && Healthy(s) && s.snd.phase in {Sending, Draining}
    requires s.toSnd != [] && s.toSnd[0].Done?
    ensures Next(w, s, SenderHears(0)).outcome == Some(OK)
  {
    assert GenuineToSender(w, s, s.toSnd[0]);
    ChunksCover(|w.content|);
    assert Prefix(w.content, s.taken) == w.content;
  }

  lemma BeforeVerdict(w: World, s: State)
    requires w.Valid() && Invariant(w, s) && Healthy(s) && s.snd.phase in {Sending, Draining}
    requires NoRefusal(s.toSnd) && !NoDone(s.toSnd) && !s.toSnd[0].Done?
    ensures var u := Next(w, s, SenderHears(0));
            u.snd.phase in {Sending, Draining} && u.toSnd == s.toSnd[1..] && NoRefusal(u.toSnd) && !NoDone(u.toSnd)
  {
    hide Sound, Received, Next, SenderInv;
    assert GenuineToSender(w, s, s.toSnd[0]);
    if s.toSnd[0].Ack? {
      SenderHeard(w, s, 0);
      SenderFacts(w, s);
      var _ := AckShape(w, s, s.toSnd[0], 0);
    } else {
      ConsentIgnored(w, s, 0);
    }
    var i :| 0 <= i < |s.toSnd| && s.toSnd[i].Done?;
    assert s.toSnd[1..][i - 1].Done?;
  }

  lemma OpenIsRecovered(w: World, s: State, now: Time)
    requires Acceptable(w) && Invariant(w, s) && s.snd.phase in {Sending, Draining} && NoRefusal(s.toSnd)
    requires Resends(s.snd, w.sc, now) && s.rcv.phase == Receiving
    ensures exists steps :: From(w, s, steps).outcome == Some(OK)
  {
    hide Invariant, Resends, From, Next;
    var _ := LossesCanBeRepaired(w, s, now);
  }

  lemma AskedIsRecovered(w: World, s: State, now: Time)
    requires Acceptable(w) && Invariant(w, s) && s.snd.phase in {Sending, Draining} && NoRefusal(s.toSnd)
    requires Resends(s.snd, w.sc, now) && s.rcv.phase == Offered
    ensures exists steps :: From(w, s, steps).outcome == Some(OK)
  {
    hide Invariant, Resends, From, Sound;
    HealthyStill(w, s, AppAccepts(now));
    var u := Next(w, s, AppAccepts(now));
    OpenIsRecovered(w, u, now);
    var rest :| From(w, u, rest).outcome == Some(OK);
    FromPrefix(w, s, AppAccepts(now), rest);
  }

  lemma OfferedAgainIsRecovered(w: World, s: State, now: Time)
    requires Acceptable(w) && Invariant(w, s) && s.snd.phase in {Sending, Draining} && NoRefusal(s.toSnd)
    requires Resends(s.snd, w.sc, now) && s.rcv.phase == Free && !NoOffer(s.toRcv)
    ensures exists steps :: From(w, s, steps).outcome == Some(OK)
  {
    var i :| 0 <= i < |s.toRcv| && s.toRcv[i].Offer?;
    assert GenuineToReceiver(w, s, i);
    assert GenuineToReceiver(w, s, 0);
    assert s.toRcv[0].Offer?;
    hide Invariant, Resends, From, Sound, Adler.Checksum;
    HealthyStill(w, s, ReceiverHears(now, true));
    var u := Next(w, s, ReceiverHears(now, true));
    assert u.rcv.phase == Offered && u.snd == s.snd && u.toSnd == s.toSnd;
    AskedIsRecovered(w, u, now);
    var rest :| From(w, u, rest).outcome == Some(OK);
    FromPrefix(w, s, ReceiverHears(now, true), rest);
  }

  /** A sender that is sending and has another try, with no refusal under way, can still be told of
      success if and only if the receiver has the stream, is asked about it or will be, or has sent
      its verdict. */
  lemma RecoverableIff(w: World, s: State, now: Time)
    requires Acceptable(w) && Invariant(w, s) && s.snd.phase in {Sending, Draining} && NoRefusal(s.toSnd)
    requires Resends(s.snd, w.sc, now)
    ensures (exists steps :: From(w, s, steps).outcome == Some(OK)) <==> Hopeful(s)
  {
    hide Invariant, Resends, From, Next;
    PhasesOf(w, s);
    if s.rcv.phase == Receiving {
      OpenIsRecovered(w, s, now);
    } else if s.rcv.phase == Offered {
      AskedIsRecovered(w, s, now);
    } else if !NoOffer(s.toRcv) {
      OfferedAgainIsRecovered(w, s, now);
    } else if !NoDone(s.toSnd) {
      var _ := VerdictIsHeard(w, s);
    } else {
      SendingIsUntold(w, s);
      forall steps ensures From(w, s, steps).outcome != Some(OK) {
        LostVerdictIsFinal(w, s, steps);
      }
    }
  }

  lemma SendingIsUntold(w: World, s: State)
    requires w.Valid() && Invariant(w, s) && s.snd.phase != Free
    ensures s.outcome.None?
  {
  }

  // ---- A lost consent ----

  /** The receiver waits for data and the sender for a consent that is not on the way. */
  ghost predicate Stranded(s: State) {
    && s.outcome != Some(OK)
    && (s.snd.phase != Free ==>
          && s.snd.phase == Offering && s.rcv.phase == Receiving
          && !HasAccept(s.toSnd) && NoDone(s.toSnd))
  }

  /** The receiver does not give the stream up. */
  predicate HoldsOn(w: World, s: State, step: Step) {
    !step.ReceiverCancels? && (step.ReceiverTicks? ==> !Idle(s.rcv, w.rc, step.now))
  }

  lemma StrandedHears(w: World, s: State, now: Time)
    requires w.Valid() && Invariant(w, s) && Healthy(s) && Stranded(s) && s.snd.phase != Free
    ensures Stranded(Next(w, s, SenderHears(now)))
  {
    if s.toSnd != [] {
      assert GenuineToSender(w, s, s.toSnd[0]);
      hide Invariant, Sound, Pumped, PumpedOps;
      assert s.toSnd[0].Ack? || s.toSnd[0].Reject? || s.toSnd[0].Abort?;
    }
  }

  lemma StrandedIsAsked(w: World, s: State, now: Time, slotFree: bool)
    requires w.Valid() && Invariant(w, s) && Healthy(s) && Stranded(s) && s.snd.phase != Free
    ensures Stranded(Next(w, s, ReceiverHears(now, slotFree)))
  {
    if s.toRcv != [] {
      assert GenuineToReceiver(w, s, 0);
      hide Invariant, Sound, Received;
      assert s.toRcv[0].Offer?;
    }
  }

  lemma StrandedTicks(w: World, s: State, now: Time)
    requires w.Valid() && Invariant(w, s) && Healthy(s) && Stranded(s) && s.snd.phase != Free
    ensures Stranded(Next(w, s, SenderTicks(now)))
  {
    hide Invariant, Next, Healthy, Sound, Resends, Adler.Checksum;
    if Resends(s.snd, w.sc, now) {
      TimeoutOffersAgain(w, s, now);
    } else {
      TickGivesUpOrWaits(w, s, now);
    }
  }

  lemma StrandedStep(w: World, s: State, step: Step)
    requires w.Valid() && Invariant(w, s) && Healthy(s) && Stranded(s) && HoldsOn(w, s, step)
    ensures Stranded(Next(w, s, step))
  {
    if s.snd.phase == Free {
      EndedStays(w, s, step);
    } else {
      match step
      case SenderHears(now) => StrandedHears(w, s, now);
      case ReceiverHears(now, slotFree) => StrandedIsAsked(w, s, now, slotFree);
      case SenderTicks(now) => StrandedTicks(w, s, now);
      case ReceiverTicks(now) => ReceiverTickIs(w, s, now);
      case _ => StrandedIgnores(w, s, step);
    }
  }

  lemma StrandedIgnores(w: World, s: State, step: Step)
    requires w.Valid() && Healthy(s) && Stranded(s) && s.snd.phase != Free
    requires step.LoseToReceiver? || step.LoseToSender? || step.AppAccepts? || step.AppRejects? || step.SenderCancels?
    ensures Stranded(Next(w, s, step))
  {
    hide Sound;
    assert s.toSnd + [] == s.toSnd;
  }

  /** A consent that is lost is never repeated either: the offer is, and is answered by an
      acknowledgement that a sender without consent ignores. As long as the receiver holds on to
      the stream the sender is not told of success. */
  lemma {:induction false} LostConsentStalls(w: World, s: State, steps: seq<Step>)
    requires w.Valid() && Invariant(w, s) && Stranded(s)
    requires forall i :: 0 <= i < |steps| ==> HoldsOn(w, From(w, s, steps[..i]), steps[i])
    ensures Stranded(From(w, s, steps)) && From(w, s, steps).outcome != Some(OK)
  {
    hide Invariant, Next, Healthy, HoldsOn;
    if steps != [] {
      var pre := steps[..|steps| - 1];
      assert forall i :: 0 <= i <= |pre| ==> pre[..i] == steps[..i];
      assert steps[..|pre|] == pre;
      LostConsentStalls(w, s, pre);
      HealthyStill(w, From(w, s, pre), steps[|steps| - 1]);
      StrandedStep(w, From(w, s, pre), steps[|steps| - 1]);
    }
  }

  /** It takes the loss of one frame. */
  lemma ConsentCanBeLost(w: World, start: Time, now: Time)
    requires Acceptable(w)
    ensures Stranded(Reach(w, start, [ReceiverHears(now, true), AppAccepts(now), LoseToSender(0)]))
  {
    hide Adler.Checksum, Invariant;
    var a, b, c := ReceiverHears(now, true), AppAccepts(now), LoseToSender(0);
    assert [a, b, c] == ([] + [a] + [b]) + [c];
    ReachOne(w, start, [], a);
    ReachOne(w, start, [] + [a], b);
    ReachOne(w, start, [] + [a] + [b], c);
    var s := Reach(w, start, [] + [a] + [b]);
    assert Without(s.toSnd, 0) == [];
  }

  // ---- Signs of life ----

  /** Whatever a sender hears, if it goes on at all, gives it its idle time and all its tries back. */
  lemma HearingRefills(w: World, s: State, now: Time)
    requires w.Valid() && Invariant(w, s) && s.snd.phase != Free && s.toSnd != []
    ensures Healthy(s)
    ensures var d := Next(w, s, SenderHears(now)).snd; d.phase != Free ==> d.lastRx == now && d.retries == 0
  {
    InvariantIsHealthy(w, s);
    assert GenuineToSender(w, s, s.toSnd[0]);
    hide Invariant, Sound;
    var op, d := s.toSnd[0], s.snd.(lastRx := now, retries := 0);
    if op.Accept? && d.phase == Offering {
      PumpKeepsClock(Granted(d, op.grant).(phase := Sending), now);
    } else if op.Ack? && d.phase != Offering {
      PumpKeepsClock(Granted(Acked(d, op.next).0, op.grant).(phase := Sending), now);
    }
  }

  lemma {:induction false} PumpKeepsClock(d: Slot, now: Time)
    ensures Pumped(d, now).lastRx == d.lastRx && Pumped(d, now).retries == d.retries
    decreases ChunksFor(d.total) - d.nextSeq
  {
    if CanPump(d) {
      PumpKeepsClock(PumpOne(d, now), now);
    }
  }

  /** A receiver counts as alive from any chunk, and from its application's consent. */
  lemma ReceiverIsAlive(w: World, s: State, now: Time)
    requires w.Valid() && Invariant(w, s)
    ensures Healthy(s)
    ensures s.rcv.phase == Receiving && s.toRcv != [] && s.toRcv[0].Chunk? ==>
              var d := Next(w, s, ReceiverHears(now, true)).rcv; d.phase != Free ==> d.lastRx == now
    ensures s.rcv.phase == Offered ==>
              var d := Next(w, s, AppAccepts(now)).rcv; d.phase == Receiving && d.lastRx == d.lastTx == now
  {
    InvariantIsHealthy(w, s);
    hide Invariant, Adler.Continue, ChunksFor;
  }

  // ---- Other endings ----

  /** What the sender's application is told is what the receiver said. */
  lemma SenderIsToldWhy(w: World, s: State, why: U8, now: Time)
    requires w.Valid() && Invariant(w, s) && s.snd.phase != Free && s.toSnd != []
    requires s.toSnd[0] in {Reject(Some(why)), Abort(Some(why)), Done(Some(why))}
    ensures Healthy(s)
    ensures Next(w, s, SenderHears(now)) == s.(snd := EMPTY, toSnd := s.toSnd[1..], outcome := Some(why))
  {
    InvariantIsHealthy(w, s);
    SentCoversPosition(w, s);
    hide Invariant;
    assert s.toRcv + [] == s.toRcv;
  }

  /** An application that declines ends both sides. */
  lemma DecliningEnds(w: World, s: State, now: Time)
    requires w.Valid() && Invariant(w, s) && s.snd.phase != Free && s.rcv.phase == Offered && s.toSnd == []
    ensures var u := From(w, s, [AppRejects, SenderHears(now)]);
            u.snd == u.rcv == EMPTY && u.outcome == Some(REFUSED)
  {
    hide Invariant, Sound, From;
    TwoSteps(w, s, AppRejects, SenderHears(now));
    var u := Next(w, s, AppRejects);
    assert u.toSnd == [Reject(Some(REFUSED))];
    SenderIsToldWhy(w, u, REFUSED, now);
  }

  lemma TwoSteps(w: World, s: State, a: Step, b: Step)
    requires w.Valid() && Invariant(w, s)
    ensures Healthy(s) && Invariant(w, Next(w, s, a)) && Healthy(Next(w, s, a))
    ensures From(w, s, [a, b]) == Next(w, Next(w, s, a), b)
  {
    hide Invariant, Next, Healthy;
    NextKeeps(w, s, a);
    NextKeeps(w, Next(w, s, a), b);
    assert [a, b][..1] == [a] && [a][..0] == [];
    assert From(w, s, [a]) == Next(w, From(w, s, []), a);
  }

  /** A receiver that cancels ends both sides, once all it had said before has been heard. */
  lemma ReceiverCancelEnds(w: World, s: State, now: Time)
    requires w.Valid() && Invariant(w, s) && s.snd.phase != Free && s.rcv.phase != Free && s.toSnd == []
    ensures var u := From(w, s, [ReceiverCancels, SenderHears(now)]);
            u.snd == u.rcv == EMPTY && u.outcome == Some(CANCELLED)
  {
    hide Invariant, Sound, From;
    TwoSteps(w, s, ReceiverCancels, SenderHears(now));
    SenderIs(w, s);
    var u := Next(w, s, ReceiverCancels);
    assert u.toSnd == [Abort(Some(CANCELLED))];
    SenderIsToldWhy(w, u, CANCELLED, now);
  }

  /** And so does a sender that cancels. */
  lemma SenderCancelEnds(w: World, s: State, now: Time)
    requires w.Valid() && Invariant(w, s) && s.snd.phase != Free && s.rcv.phase != Free && s.toRcv == []
    ensures var u := From(w, s, [SenderCancels, ReceiverHears(now, true)]);
            u.snd == u.rcv == EMPTY && u.outcome == Some(CANCELLED)
  {
    hide Invariant, Sound, From;
    TwoSteps(w, s, SenderCancels, ReceiverHears(now, true));
    SenderIs(w, s);
    var u := Next(w, s, SenderCancels);
    assert u.toRcv == [Abort(Some(CANCELLED))];
    AbortEnds(w, u, CANCELLED, now);
  }

  lemma SenderIs(w: World, s: State)
    requires w.Valid() && Invariant(w, s)
    ensures s.snd.phase != Free ==> s.snd.outbound
    ensures s.rcv.phase != Free ==> !s.rcv.outbound
  {
  }

  lemma AbortEnds(w: World, s: State, why: U8, now: Time)
    requires w.Valid() && Invariant(w, s) && Healthy(s) && s.rcv.phase != Free && s.toRcv != []
    requires s.toRcv[0] == Abort(Some(why))
    ensures var u := Next(w, s, ReceiverHears(now, true)); u.rcv == EMPTY && u.snd == s.snd && u.outcome == s.outcome
  {
    hide Invariant, Sound, TakeChunk;
  }

  // ---- Contents past the limit ----

  /** The receiver has never opened a stream. */
  ghost predicate Unopened(s: State) {
    && s.rcv.phase == Free && s.taken == 0 && s.outcome != Some(OK)
    && (forall i :: 0 <= i < |s.toSnd| ==> s.toSnd[i].Reject?)
  }

  lemma UnopenedStep(w: World, s: State, step: Step)
    requires w.Valid() && Invariant(w, s) && Healthy(s) && Unopened(s) && |w.content| > w.rc.maxInbound
    ensures Unopened(Next(w, s, step))
  {
    if step.SenderHears? && s.toSnd != [] {
      assert GenuineToSender(w, s, s.toSnd[0]);
    }
    if step.ReceiverHears? && s.toRcv != [] {
      assert GenuineToReceiver(w, s, 0);
    }
    hide Invariant, Sound, Pumped, PumpedOps, Adler.Checksum;
    assert s.toSnd + [] == s.toSnd && s.log + [] == s.log;
  }

  /** A content past the receiver's limit is never let in: in every run, no byte of it is delivered,
      the application is never asked, and the sender is never told of success. */
  lemma {:induction false} OversizedIsNeverLetIn(w: World, start: Time, steps: seq<Step>)
    requires w.Valid() && |w.content| > w.rc.maxInbound
    ensures Unopened(Reach(w, start, steps))
  {
    hide Invariant, Next, Healthy, Unopened;
    if steps == [] {
      FreshIsUnopened(w, start);
    } else {
      var s := Reach(w, start, steps[..|steps| - 1]);
      OversizedIsNeverLetIn(w, start, steps[..|steps| - 1]);
      HealthyStill(w, s, steps[|steps| - 1]);
      UnopenedStep(w, s, steps[|steps| - 1]);
    }
  }

  lemma FreshIsUnopened(w: World, start: Time)
    requires w.Valid()
    ensures Unopened(Reach(w, start, []))
  {
    hide Adler.Checksum;
  }

  /** And the sender is told why. */
  lemma OversizedIsTold(w: World, start: Time, now: Time)
    requires w.Valid() && |w.content| > w.rc.maxInbound
    ensures Reach(w, start, [ReceiverHears(now, true), SenderHears(now)]).outcome == Some(TOO_BIG)
  {
    hide Adler.Checksum;
    var s := Fresh(w, start);
    ReachIsFrom(w, start, [ReceiverHears(now, true), SenderHears(now)]);
    TwoSteps(w, s, ReceiverHears(now, true), SenderHears(now));
    var u := Next(w, s, ReceiverHears(now, true));
    assert u.toSnd == [Reject(Some(TOO_BIG))];
    hide Invariant;
    SenderIsToldWhy(w, u, TOO_BIG, now);
  }

  /** What the receiver's application is asked about is what the sender's application offered: kind,
      size and the first 48 octets of the name. */
  lemma AskedAboutWhatIsOffered(w: World, start: Time, now: Time)
    requires Acceptable(w)
    ensures var s := Fresh(w, start);
            && |s.toRcv| == 1 && s.toRcv[0].Offer? && |s.toRcv[0].name| <= NAME_MAX
            && var name := if |w.name| > 48 then w.name[..48] else w.name;
               OfferTaken(s.toRcv[0], w.id, w.sender, w.rc, now).events ==
                 [OnOffer(w.sender, w.kind, |w.content|, name)]
  {
    hide Adler.Checksum;
  }
}
