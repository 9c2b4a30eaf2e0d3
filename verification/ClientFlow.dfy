/** The proxy between a machine's client and the chain: what reaches the client, for every
    schedule of deliveries and drains, and what the client can make reach the chain. */
module ClientFlow {
  import opened Types
  import opened Bytes
  import opened Frame
  import opened Framing

  const RING := 2048
  const REPORT_BYTES := 64
  const MSG_CAP: U8 := 7
  const MSG_DATA: U8 := 10

  // ---- Toward the client ----

  /** The bytes waiting in the ring, the bytes already sent in reports, and as history what
      each push managed to queue. */
  datatype Flow = Flow(queue: seq<Byte>, stream: seq<Byte>, items: seq<seq<Byte>>)

  const IDLE := Flow([], [], [])

  /** tx_push keeps what fits; a full ring holds one byte less than its size. */
  function Fitting(queue: seq<Byte>, d: seq<Byte>): seq<Byte> {
    if |queue| + |d| < RING then d
    else if |queue| < RING then d[..RING - 1 - |queue|]
    else []
  }

  function Pushed(f: Flow, d: seq<Byte>): Flow {
    var kept := Fitting(f.queue, d);
    f.(queue := f.queue + kept, items := f.items + [kept])
  }

  /** One report: up to 64 queued bytes, then flags. */
  function ReportOf(queue: seq<Byte>): (r: seq<Byte>)
  {
    if |queue| >= REPORT_BYTES then queue[..REPORT_BYTES]
    else queue + Flags(REPORT_BYTES - |queue|)
  }

  function Drained(f: Flow): Flow {
    if f.queue == [] then f
    else
      var n := if |f.queue| < REPORT_BYTES then |f.queue| else REPORT_BYTES;
      f.(queue := f.queue[n..], stream := f.stream + ReportOf(f.queue))
  }

  datatype Step = Deliver(frame: Frame) | Drain

  predicate AllEncodable(steps: seq<Step>) {
    forall i :: 0 <= i < |steps| ==> steps[i].Deliver? ==> Encodable(steps[i].frame)
  }

  /** The state after any schedule, from the moment the client attached. */
  function Run(steps: seq<Step>, mac: Mac): Flow
    requires AllEncodable(steps)
  {
    if steps == [] then IDLE
    else
      var n := |steps| - 1;
      var f := Run(steps[..n], mac);
      match steps[n]
      case Deliver(frame) => Pushed(f, Wire(Body(Outgoing(frame), mac)))
      case Drain => Drained(f)
  }

  /** What one queued item makes a synchronised decoder report, once a flag follows it. */
  function ItemReports(item: seq<Byte>, key: Option<Mac>): seq<Decoded> {
    if item == [] then [] else Reports(SYNCED, item[1..] + [FLAG], key)
  }

  function AllReports(items: seq<seq<Byte>>, key: Option<Mac>): seq<Decoded> {
    if items == [] then []
    else AllReports(items[..|items| - 1], key) + ItemReports(items[|items| - 1], key)
  }

  /** A queued item is a leading part of a wire image. */
  predicate FlagFirst(item: seq<Byte>) {
    item == [] || (item[0] == FLAG)
  }

  /** The client's decoder, started in state d, is owed exactly the items queued so far. */
  ghost predicate Owed(d: Dec, f: Flow, key: Option<Mac>)
    requires Sane(d)
  {
    var all := f.stream + f.queue + [FLAG];
    && (forall i :: 0 <= i < |f.items| ==> FlagFirst(f.items[i]))
    && Feed(d, all) == SYNCED
    && Reports(d, all, key) == Reports(d, [FLAG], key) + AllReports(f.items, key)
  }

  lemma SyncedAfterFlag(d: Dec, bytes: seq<Byte>, key: Option<Mac>)
    requires Sane(d)
    ensures Feed(d, bytes + [FLAG]) == SYNCED
  {
    hide Decode;
    FeedConcat(d, bytes, [FLAG], key);
    FeedOne(Feed(d, bytes), FLAG, key);
  }

  lemma PushKeepsOwed(d: Dec, f: Flow, item: seq<Byte>, key: Option<Mac>)
    requires Sane(d) && Owed(d, f, key) && FlagFirst(item)
    ensures Owed(d, f.(queue := f.queue + item, items := f.items + [item]), key)
  {
    hide Feed, Reports;
    var g := f.(queue := f.queue + item, items := f.items + [item]);
    var all := f.stream + f.queue + [FLAG];
    assert g.items[..|g.items| - 1] == f.items;
    if item == [] {
      assert g.stream + g.queue + [FLAG] == all;
    } else {
      assert item == [FLAG] + item[1..];
      assert g.stream + g.queue + [FLAG] == all + (item[1..] + [FLAG]);
      FeedConcat(d, all, item[1..] + [FLAG], key);
      SyncedAfterFlag(SYNCED, item[1..], key);
    }
  }

  lemma {:induction false} FlagsCommute(k: nat)
    ensures |Flags(k)| == k && Flags(k) + [FLAG] == [FLAG] + Flags(k)
  {
    if k > 0 {
      FlagsCommute(k - 1);
      assert Flags(k) + [FLAG] == ([FLAG] + Flags(k - 1)) + [FLAG];
      assert [FLAG] + Flags(k) == [FLAG] + (Flags(k - 1) + [FLAG]);
    }
  }

  /** Padding falls between items only, where it is idle filler. */
  lemma DrainKeepsOwed(d: Dec, f: Flow, key: Option<Mac>)
    requires Sane(d) && Owed(d, f, key)
    ensures Owed(d, Drained(f), key)
  {
    hide Feed, Reports;
    var g := Drained(f);
    var all := f.stream + f.queue + [FLAG];
    if f.queue == [] {
    } else if |f.queue| >= REPORT_BYTES {
      assert f.queue[..REPORT_BYTES] + f.queue[REPORT_BYTES..] == f.queue;
      assert g.stream + g.queue + [FLAG] == all;
    } else {
      var k := REPORT_BYTES - |f.queue|;
      FlagsCommute(k);
      assert g.stream + g.queue + [FLAG] == f.stream + f.queue + (Flags(k) + [FLAG]);
      assert f.stream + f.queue + ([FLAG] + Flags(k)) == all + Flags(k);
      FeedConcat(d, all, Flags(k), key);
      IdleIsSilent(k, key);
    }
  }

  /** The ring and its padded reports refine a plain queue of frames: whatever the schedule
      and whatever state the client's decoder started in, the stream reports the items
      queued, in order, and nothing else. */
  lemma {:induction false} ScheduleIsFaithful(d: Dec, steps: seq<Step>, mac: Mac)
    requires Sane(d) && AllEncodable(steps)
    ensures Owed(d, Run(steps, mac), Some(mac))
    ensures |Run(steps, mac).queue| < RING
  {
    hide Body, Owed, Stuff;
    var key := Some(mac);
    if steps == [] {
      OwedNothing(d, key);
    } else {
      var n := |steps| - 1;
      ScheduleIsFaithful(d, steps[..n], mac);
      var f := Run(steps[..n], mac);
      match steps[n]
      case Deliver(frame) =>
        PushKeepsOwed(d, f, Fitting(f.queue, Wire(Body(Outgoing(frame), mac))), key);
      case Drain => DrainKeepsOwed(d, f, key);
    }
  }

  lemma OwedNothing(d: Dec, key: Option<Mac>)
    requires Sane(d)
    ensures Owed(d, IDLE, key)
  {
    assert IDLE.stream + IDLE.queue + [FLAG] == [FLAG];
    FeedOne(d, FLAG, key);
  }

  /** A frame queued whole, or lacking only its closing flag, is reported as sent. */
  lemma WholeItemIsReported(f: Frame, mac: Mac, item: seq<Byte>)
    requires Encodable(f)
    requires var w := Wire(Body(Outgoing(f), mac)); item == w || item == w[..|w| - 1]
    ensures ItemReports(item, Some(mac)) == [Good(Outgoing(f), Body(Outgoing(f), mac))]
  {
    hide Body, Decode, Stuff, Feed, Reports, Outgoing;
    var body, key := Body(Outgoing(f), mac), Some(mac);
    RoundTrip(Outgoing(f), mac);
    StuffedIsCollected(body, key);
    var once := Stuff(body) + [FLAG];
    FeedConcat(SYNCED, Stuff(body), [FLAG], key);
    FeedOne(SYNCED.(body := body), FLAG, key);
    var w := Wire(body);
    if item == w {
      assert item[1..] + [FLAG] == once + [FLAG];
      FeedConcat(SYNCED, once, [FLAG], key);
      FeedOne(SYNCED, FLAG, key);
    } else {
      assert item[1..] + [FLAG] == once;
    }
  }

  predicate NoFlags(s: seq<Byte>) {
    forall i :: 0 <= i < |s| ==> s[i] != FLAG
  }

  lemma {:induction false} StuffedHasNoFlags(body: seq<Byte>)
    ensures NoFlags(Stuff(body))
  {
    if body != [] {
      StuffedHasNoFlags(body[..|body| - 1]);
      FlipFacts(body[|body| - 1]);
    }
  }

  lemma {:induction false} SilentWithoutFlags(d: Dec, s: seq<Byte>, key: Option<Mac>)
    requires Sane(d) && NoFlags(s)
    ensures Reports(d, s, key) == []
  {
    if s != [] {
      SilentWithoutFlags(d, s[..|s| - 1], key);
    }
  }

  /** A frame the ring cut short costs itself only: at most one report stands in for it. */
  lemma CutItemReportsOnce(f: Frame, mac: Mac, item: seq<Byte>)
    requires Encodable(f)
    requires var w := Wire(Body(Outgoing(f), mac)); |item| < |w| && item == w[..|item|]
    ensures |ItemReports(item, Some(mac))| <= 1
  {
    hide Body, Decode, Stuff, Feed, Reports, Outgoing;
    var body, key := Body(Outgoing(f), mac), Some(mac);
    StuffedHasNoFlags(body);
    if item != [] {
      var inner := item[1..];
      assert inner == Stuff(body)[..|inner|];
      SilentWithoutFlags(SYNCED, inner, key);
      FeedConcat(SYNCED, inner, [FLAG], key);
      FeedOne(Feed(SYNCED, inner), FLAG, key);
    }
  }

  /** The frames delivered over a schedule, in order. */
  function Delivered(steps: seq<Step>, mac: Mac): seq<Decoded>
    requires AllEncodable(steps)
  {
    if steps == [] then []
    else
      var n := |steps| - 1;
      Delivered(steps[..n], mac) +
        (match steps[n]
         case Deliver(frame) => [Good(Outgoing(frame), Body(Outgoing(frame), mac))]
         case Drain => [])
  }

  /** No push over the schedule was cut. */
  ghost predicate NothingCut(steps: seq<Step>, mac: Mac)
    requires AllEncodable(steps)
  {
    forall n :: 0 <= n < |steps| && steps[n].Deliver? ==>
      var w := Wire(Body(Outgoing(steps[n].frame), mac));
      |Run(steps[..n], mac).queue| + |w| < RING
  }

  lemma {:induction false} UncutItems(steps: seq<Step>, mac: Mac)
    requires AllEncodable(steps) && NothingCut(steps, mac)
    ensures AllReports(Run(steps, mac).items, Some(mac)) == Delivered(steps, mac)
  {
    hide Body, Wire, Outgoing, ItemReports;
    if steps != [] {
      var n := |steps| - 1;
      forall m | 0 <= m < n && steps[..n][m].Deliver?
        ensures var w := Wire(Body(Outgoing(steps[..n][m].frame), mac)); |Run(steps[..n][..m], mac).queue| + |w| < RING
      {
        assert steps[..n][..m] == steps[..m];
      }
      UncutItems(steps[..n], mac);
      var f, g := Run(steps[..n], mac), Run(steps, mac);
      if steps[n].Deliver? {
        var w := Wire(Body(Outgoing(steps[n].frame), mac));
        assert g.items == f.items + [w];
        assert g.items[..|g.items| - 1] == f.items;
        WholeItemIsReported(steps[n].frame, mac, w);
      } else {
        assert g.items == f.items;
      }
    }
  }

  /** When the client keeps up, it sees exactly the delivered frames, in order: those its
      reports have carried so far are a prefix, and draining the ring completes the list. */
  lemma ClientSeesFrames(d: Dec, steps: seq<Step>, mac: Mac)
    requires Sane(d) && AllEncodable(steps) && NothingCut(steps, mac)
    ensures var f := Run(steps, mac);
            && Reports(d, f.stream + f.queue + [FLAG], Some(mac)) ==
               Reports(d, [FLAG], Some(mac)) + Delivered(steps, mac)
            && Reports(d, f.stream, Some(mac)) <= Reports(d, [FLAG], Some(mac)) + Delivered(steps, mac)
  {
    hide Feed, Reports, Run, Delivered, AllReports;
    var f := Run(steps, mac);
    ScheduleIsFaithful(d, steps, mac);
    UncutItems(steps, mac);
    FeedConcat(d, f.stream, f.queue + [FLAG], Some(mac));
    assert f.stream + (f.queue + [FLAG]) == f.stream + f.queue + [FLAG];
  }

  // ---- Room and pace ----

  /** What is pushed is kept whole exactly as long as no more than 2047 octets wait, and the part that
      fits otherwise. */
  lemma KeptWholeIffItFits(queue: seq<Byte>, d: seq<Byte>)
    requires |queue| <= 2047
    ensures var kept := Fitting(queue, d);
            kept <= d && |queue| + |kept| <= 2047 && (kept == d <==> |queue| + |d| <= 2047)
  {
  }

  function Drains(f: Flow, k: nat): Flow {
    if k == 0 then f else Drained(Drains(f, k - 1))
  }

  /** Every drain sends the client 64 octets, the oldest that wait first: after k of them the first 64k
      are gone, and once none waits nothing more is sent. */
  lemma {:induction false} DrainingEmpties(f: Flow, k: nat)
    ensures var g := Drains(f, k);
            && g.queue == (if 64 * k < |f.queue| then f.queue[64 * k..] else [])
            && (64 * k <= |f.queue| ==> |g.stream| == |f.stream| + 64 * k)
            && (f.queue == [] ==> g == f)
  {
    hide Drained;
    if k > 0 {
      DrainingEmpties(f, k - 1);
      OneDrain(Drains(f, k - 1));
    }
  }

  lemma OneDrain(f: Flow)
    ensures var g := Drained(f);
            && g.queue == (if 64 < |f.queue| then f.queue[64..] else [])
            && (if f.queue == [] then g == f else |g.stream| == |f.stream| + 64)
  {
    hide ReportOf;
    ReportLength(f.queue);
  }

  lemma ReportLength(queue: seq<Byte>)
    ensures |ReportOf(queue)| == 64
  {
    if |queue| < 64 {
      FlagsLength(64 - |queue|);
    }
  }

  lemma {:induction false} FlagsLength(k: nat)
    ensures |Flags(k)| == k
  {
    if k > 0 {
      FlagsLength(k - 1);
    }
  }

  // ---- From the client ----

  /** What the client has achieved: attachment, advertised capabilities, and the frames put
      on the chain for it. */
  datatype Gate = Gate(attached: bool, caps: U16, proxied: seq<(U16, seq<Byte>)>, refused: nat)

  /** The four level 3 capability bits of a bitmap. */
  function LevelThree(caps: U16): (r: U16)
    ensures r <= 0xF0 && r % 16 == 0
  {
    (caps / 16 % 16) * 16
  }

  /** ATTACH: a zero octet and a capability bitmap. */
  function AttachCaps(payload: seq<Byte>): Option<U16> {
    if |payload| < 3 || payload[0] != 0 then None else Some(Get16(payload[1], payload[2]))
  }

  /** handle_from_client. */
  function Admit(g: Gate, f: Frame): Gate {
    if f.typ == MSG_CAP then
      var caps := AttachCaps(f.payload);
      if caps.Some? then g.(caps := LevelThree(caps.value), attached := true) else g
    else if f.typ != MSG_DATA then g.(refused := g.refused + 1)
    else if !g.attached then g
    else g.(proxied := g.proxied + [(f.dst, f.payload)])
  }

  function AdmitAll(g: Gate, reports: seq<Decoded>): Gate {
    if reports == [] then g
    else
      var h := AdmitAll(g, reports[..|reports| - 1]);
      if reports[|reports| - 1].Good? then Admit(h, reports[|reports| - 1].frame) else h
  }

  function DataFrames(reports: seq<Decoded>, attached: bool): seq<(U16, seq<Byte>)> {
    if reports == [] then []
    else
      var r := reports[0];
      if r.Good? && r.frame.typ == MSG_DATA && attached then
        [(r.frame.dst, r.frame.payload)] + DataFrames(reports[1..], attached)
      else DataFrames(reports[1..],
                      attached || (r.Good? && r.frame.typ == MSG_CAP && AttachCaps(r.frame.payload).Some?))
  }

  lemma {:induction false} AdmitFront(g: Gate, r: Decoded, rest: seq<Decoded>)
    ensures AdmitAll(g, [r] + rest) == AdmitAll(if r.Good? then Admit(g, r.frame) else g, rest)
  {
    if rest == [] {
      assert [r] + rest == [r] && [r][..0] == [];
    } else {
      AdmitFront(g, r, rest[..|rest| - 1]);
      assert ([r] + rest)[..|rest|] == [r] + rest[..|rest| - 1];
    }
  }

  lemma NothingAdmitted(g: Gate)
    ensures AdmitAll(g, []) == g
  {
  }

  lemma MaskedTwice(caps: U16)
    ensures LevelThree(LevelThree(caps)) == LevelThree(caps)
  {
  }

  /** Whatever bytes a client sends, all it puts on the chain are the DATA frames it sent
      once attached, in order, and all it advertises are level 3 capabilities. */
  lemma {:induction false} GateAdmitsDataOnly(g: Gate, reports: seq<Decoded>)
    requires g.caps == LevelThree(g.caps)
    ensures var h := AdmitAll(g, reports);
            && h.proxied == g.proxied + DataFrames(reports, g.attached)
            && h.caps == LevelThree(h.caps)
    decreases |reports|
  {
    hide AdmitAll, AttachCaps, LevelThree;
    if reports == [] {
      NothingAdmitted(g);
    } else {
      var r := reports[0];
      assert reports == [r] + reports[1..];
      AdmitFront(g, r, reports[1..]);
      MaskedTwice(if r.Good? && AttachCaps(r.frame.payload).Some? then AttachCaps(r.frame.payload).value else 0);
      GateAdmitsDataOnly(if r.Good? then Admit(g, r.frame) else g, reports[1..]);
    }
  }

  // ---- What a client may advertise ----

  /** A capability bitmap: the eight high bits, then clipboard, files, images and share, which are
      bits 4 to 7, and the four low bits. */
  datatype Bitmap = Bitmap(high: U8, share: bool, images: bool, files: bool, clipboard: bool, low: nat)

  function If(b: bool, weight: nat): nat {
    if b then weight else 0
  }

  function Word(m: Bitmap): nat {
    256 * m.high + If(m.share, 128) + If(m.images, 64) + If(m.files, 32) + If(m.clipboard, 16) + m.low
  }

  /** Exactly those four bits are honoured. */
  lemma OnlyLevelThreeBits(m: Bitmap)
    requires m.low < 16
    ensures Word(m) < 0x1_0000 && LevelThree(Word(m)) == Word(m.(high := 0, low := 0))
  {
    var four := If(m.share, 8) + If(m.images, 4) + If(m.files, 2) + If(m.clipboard, 1);
    assert Word(m) == 256 * m.high + 16 * four + m.low && Word(m.(high := 0, low := 0)) == 16 * four;
    hide Word, If;
    MiddleOf(m.high, four, m.low);
  }

  lemma MiddleOf(high: U8, four: nat, low: nat)
    requires four < 16 && low < 16
    ensures LevelThree(256 * high + 16 * four + low) == 16 * four
  {
    var n := 256 * high + 16 * four + low;
    assert n / 16 == 16 * high + four;
  }

  /** An ATTACH, first or repeated, leaves the client attached with exactly those bits of the bitmap
      it carries, and puts nothing on the chain. */
  lemma AttachIsMasked(g: Gate, f: Frame, m: Bitmap)
    requires f.typ == MSG_CAP && |f.payload| >= 3 && f.payload[0] == 0
    requires m.low < 16 && Val(f.payload[1]) + 256 * Val(f.payload[2]) == Word(m)
    ensures var h := Admit(g, f); h.attached && h.proxied == g.proxied && h.caps == Word(m.(high := 0, low := 0))
  {
    hide Word, LevelThree, Val;
    OnlyLevelThreeBits(m);
  }
}
