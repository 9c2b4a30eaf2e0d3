/** A line of boards joined by FIFO wires, under every interleaving of sends, arrivals and
    losses: who receives what, how often, and from how far. */
module Line {
  import opened Types
  import opened Frame
  import opened Link

  datatype Heading = Tailward | Headward

  function Dir(h: Heading): int {
    if h == Tailward then 1 else -1
  }

  /** A frame heading for the tail arrives on the port that faces the head. */
  function ArrivalPort(h: Heading): Port {
    if h == Tailward then Up else Down
  }

  /** A frame on a wire. `from` and `number` are history: which board sent it, as its
      how-manieth frame. */
  datatype Packet = Packet(frame: Frame, from: nat, number: nat)

  /** The wire out of a board in one direction. */
  datatype Hop = Hop(at: nat, heading: Heading)

  datatype Board = Board(addr: Addr, seen: seq<Seen>, got: seq<Packet>)

  /** `sent` holds every frame each board ever sent; `mark[j][i]` is the number of the last
      frame of board i that board j accepted, or -1. Both are history. */
  datatype Net = Net(boards: seq<Board>, wires: map<Hop, seq<Packet>>, sent: seq<seq<Frame>>, mark: seq<seq<int>>)
  {
    ghost predicate Shaped() {
      && |sent| == |mark| == |boards|
      && (forall j :: 0 <= j < |mark| ==> |mark[j]| == |boards|)
      && (forall hop: Hop :: hop in wires <==> hop.at < |boards|)
    }

    ghost predicate Addressed() {
      && (forall i :: 0 <= i < |boards| ==> boards[i].addr != ADDR_BROADCAST)
      && (forall i, j :: 0 <= i < j < |boards| ==> boards[i].addr != boards[j].addr)
    }
  }

  datatype Step =
    | Send(who: nat, typ: U8, dst: Addr, payload: seq<Byte>)
    | Arrive(hop: Hop)
    | Lose(hop: Hop, at: nat)

  lemma TwoHeadings()
    ensures forall hop: Hop :: hop == Hop(hop.at, Tailward) || hop == Hop(hop.at, Headward)
  {
    forall hop: Hop ensures hop == Hop(hop.at, Tailward) || hop == Hop(hop.at, Headward) {
      match hop.heading
      case Tailward =>
      case Headward =>
    }
  }

  function NoTraffic(n: nat): (w: map<Hop, seq<Packet>>)
    ensures forall hop: Hop :: hop in w <==> hop.at < n
    ensures forall hop: Hop :: hop in w ==> w[hop] == []
  {
    if n == 0 then map[]
    else
      TwoHeadings();
      NoTraffic(n - 1)[Hop(n - 1, Tailward) := []][Hop(n - 1, Headward) := []]
  }

  function Initial(addrs: seq<Addr>): Net {
    var n := |addrs|;
    Net(seq(n, i requires 0 <= i < n => Board(addrs[i], seq(MAX_BOARDS, _ => UNSEEN), [])),
        NoTraffic(n),
        seq(n, _ => []), seq(n, _ => seq(n, _ => -1)))
  }

  function Queued(net: Net, hop: Hop, p: Packet): Net
    requires hop in net.wires
  {
    net.(wires := net.wires[hop := net.wires[hop] + [p]])
  }

  function Sending(net: Net, i: nat, typ: U8, dst: Addr, payload: seq<Byte>): Net
    requires net.Shaped() && i < |net.boards|
  {
    var f := Originated(net.boards[i].addr, typ, dst, |net.sent[i]| % 0x1_0000, payload);
    var p := Packet(f, i, |net.sent[i]|);
    Queued(Queued(net, Hop(i, Headward), p), Hop(i, Tailward), p).(sent := net.sent[i := net.sent[i] + [f]])
  }

  /** Board j takes in p, which came heading h. */
  function Taking(net: Net, j: nat, h: Heading, p: Packet): Net
    requires net.Shaped() && j < |net.boards| && p.from < |net.boards|
  {
    var b := net.boards[j];
    var fate := Arrives(b.addr, b.seen, p.frame);
    var c := b.(seen := fate.seen, got := if fate.delivered then b.got + [p] else b.got);
    var accepted := p.frame.src != b.addr && !fate.replay;
    var net1 := net.(boards := net.boards[j := c],
                     mark := if accepted then net.mark[j := net.mark[j][p.from := p.number]] else net.mark);
    if fate.relayed.Some? then Queued(net1, Hop(j, h), p.(frame := fate.relayed.value)) else net1
  }

  function Next(net: Net, step: Step): Net
    requires net.Shaped() && Labelled(net)
  {
    match step
    case Send(i, typ, dst, payload) => if i < |net.boards| then Sending(net, i, typ, dst, payload) else net
    case Arrive(hop) =>
      if hop !in net.wires || net.wires[hop] == [] then net
      else
        var p, j := net.wires[hop][0], hop.at + Dir(hop.heading);
        var net1 := net.(wires := net.wires[hop := net.wires[hop][1..]]);
        if 0 <= j < |net.boards| then Taking(net1, j, hop.heading, p) else net1
    case Lose(hop, at) =>
      if hop in net.wires && at < |net.wires[hop]|
      then net.(wires := net.wires[hop := Without(net.wires[hop], at)]) else net
  }

  ghost predicate Labelled(net: Net) {
    forall hop: Hop, x :: hop in net.wires && 0 <= x < |net.wires[hop]| ==> net.wires[hop][x].from < |net.boards|
  }

  // ---- What every run keeps ----

  /** Moving on from k with heading h leads away from i. */
  predicate Away(i: nat, k: nat, h: Heading) {
    if h == Tailward then i <= k else k <= i
  }

  function Distance(i: nat, k: nat): nat {
    if i <= k then k - i else i - k
  }

  /** The last frame of i that has passed through k. */
  function Passed(net: Net, k: nat, i: nat): int
    requires net.Shaped() && k < |net.boards| && i < |net.boards|
  {
    if k == i then |net.sent[i]| - 1 else net.mark[k][i]
  }

  /** A packet on the wire out of k: it is the frame that was sent, has lost one hop per
      board passed, has been through k and has not been through the next board. */
  ghost predicate OnWire(net: Net, hop: Hop, p: Packet)
    requires net.Shaped() && hop.at < |net.boards|
  {
    var j := hop.at + Dir(hop.heading);
    && p.from < |net.boards| && Away(p.from, hop.at, hop.heading)
    && Distance(p.from, hop.at) < TTL_DEFAULT
    && p.number < |net.sent[p.from]|
    && p.frame == net.sent[p.from][p.number].(ttl := TTL_DEFAULT - Distance(p.from, hop.at))
    && p.number <= Passed(net, hop.at, p.from)
    && (0 <= j < |net.boards| ==> net.mark[j][p.from] < p.number)
  }

  /** Frames of one source are on a wire in the order they were sent. */
  predicate Ordered(q: seq<Packet>) {
    forall x, y :: 0 <= x < y < |q| && q[x].from == q[y].from ==> q[x].number < q[y].number
  }

  ghost predicate WireOk(net: Net, hop: Hop)
    requires net.Shaped() && hop in net.wires
  {
    && Ordered(net.wires[hop])
    && forall x :: 0 <= x < |net.wires[hop]| ==> OnWire(net, hop, net.wires[hop][x])
  }

  ghost predicate WiresInv(net: Net)
    requires net.Shaped()
  {
    forall hop: Hop :: hop in net.wires ==> WireOk(net, hop)
  }

  ghost predicate SentOk(net: Net, i: nat)
    requires net.Shaped() && i < |net.sent|
  {
    forall n :: 0 <= n < |net.sent[i]| ==>
      var f := net.sent[i][n];
      f.src == net.boards[i].addr && f.seqNo == n % 0x1_0000 && f.ttl == TTL_DEFAULT
  }

  ghost predicate SentInv(net: Net)
    requires net.Shaped()
  {
    forall i :: 0 <= i < |net.sent| ==> SentOk(net, i)
  }

  /** A farther board never knows more of a source than a nearer one. */
  ghost predicate MarkOk(net: Net, j: nat, i: nat)
    requires net.Shaped() && j < |net.boards| && i < |net.boards|
  {
    && -1 <= net.mark[j][i] < |net.sent[i]|
    && (i <= j && j + 1 < |net.boards| ==> net.mark[j + 1][i] <= Passed(net, j, i))
    && (j <= i && j >= 1 ==> net.mark[j - 1][i] <= Passed(net, j, i))
  }

  ghost predicate MarksInv(net: Net)
    requires net.Shaped()
  {
    forall j, i :: 0 <= j < |net.boards| && 0 <= i < |net.boards| ==> MarkOk(net, j, i)
  }

  /** What a board has handed to its owner: real frames, in order, with the hop limit they
      arrived with. */
  ghost predicate GotOk(net: Net, j: nat)
    requires net.Shaped() && j < |net.boards|
  {
    && Ordered(net.boards[j].got)
    && forall x :: 0 <= x < |net.boards[j].got| ==> Received(net, j, net.boards[j].got[x])
  }

  ghost predicate GotInv(net: Net)
    requires net.Shaped()
  {
    forall j :: 0 <= j < |net.boards| ==> GotOk(net, j)
  }

  ghost predicate Received(net: Net, j: nat, p: Packet)
    requires net.Shaped() && j < |net.boards|
  {
    && p.from < |net.boards| && p.from != j
    && 0 < Distance(p.from, j) <= TTL_DEFAULT
    && p.number <= net.mark[j][p.from]
    && p.number < |net.sent[p.from]|
    && p.frame == net.sent[p.from][p.number].(ttl := TTL_DEFAULT + 1 - Distance(p.from, j))
    && (p.frame.dst == net.boards[j].addr || p.frame.dst == ADDR_BROADCAST)
  }

  ghost predicate Invariant(net: Net) {
    net.Shaped() && net.Addressed() && WiresInv(net) && SentInv(net) && MarksInv(net) && GotInv(net)
  }

  lemma InvariantIsLabelled(net: Net)
    requires Invariant(net)
    ensures Labelled(net)
  {
    forall hop: Hop, x | hop in net.wires && 0 <= x < |net.wires[hop]| ensures net.wires[hop][x].from < |net.boards| {
      assert WireOk(net, hop);
    }
  }

  // ---- Each step keeps it ----

  /** What was on a wire before a send is still right. */
  lemma SendKeepsOld(net: Net, i: nat, typ: U8, dst: Addr, payload: seq<Byte>, hop: Hop, x: nat)
    requires Invariant(net) && i < |net.boards| && hop in net.wires && x < |net.wires[hop]|
    ensures OnWire(Sending(net, i, typ, dst, payload), hop, net.wires[hop][x])
  {
    hide Ordered, MarksInv, GotInv, SentInv;
    assert WireOk(net, hop);
    assert OnWire(net, hop, net.wires[hop][x]);
  }

  /** And so is what the send puts there. */
  lemma SendPuts(net: Net, i: nat, typ: U8, dst: Addr, payload: seq<Byte>, hop: Hop) returns (p: Packet)
    requires Invariant(net) && i < |net.boards| && hop in net.wires && hop.at == i
    ensures var r := Sending(net, i, typ, dst, payload);
            && r.wires[hop] == net.wires[hop] + [p] && OnWire(r, hop, p)
            && p.from == i && p.number == |net.sent[i]|
  {
    hide Ordered, WiresInv, GotInv, SentInv;
    p := Packet(Originated(net.boards[i].addr, typ, dst, |net.sent[i]| % 0x1_0000, payload), i, |net.sent[i]|);
    NextIsUnmarked(net, i, hop);
    match hop.heading
    case Headward => assert hop == Hop(i, Headward);
    case Tailward => assert hop == Hop(i, Tailward);
  }

  /** No board has heard of the next frame of board i, which is about to leave it. */
  lemma NextIsUnmarked(net: Net, i: nat, hop: Hop)
    requires Invariant(net) && i < |net.boards|
    ensures var j := i + Dir(hop.heading); 0 <= j < |net.boards| ==> net.mark[j][i] < |net.sent[i]|
  {
    hide Ordered, WiresInv, GotInv, SentInv;
    var j := i + Dir(hop.heading);
    if 0 <= j < |net.boards| {
      assert MarkOk(net, j, i);
    }
  }

  /** No frame of board i on a wire is numbered as high as the next. */
  lemma OlderOnWire(net: Net, i: nat, hop: Hop)
    requires Invariant(net) && i < |net.boards| && hop in net.wires
    ensures Ordered(net.wires[hop])
    ensures forall x :: 0 <= x < |net.wires[hop]| && net.wires[hop][x].from == i ==>
              net.wires[hop][x].number < |net.sent[i]|
  {
    hide MarksInv, GotInv, SentInv;
    assert WireOk(net, hop);
    forall x | 0 <= x < |net.wires[hop]| && net.wires[hop][x].from == i
      ensures net.wires[hop][x].number < |net.sent[i]|
    {
      assert OnWire(net, hop, net.wires[hop][x]);
    }
  }

  lemma SendKeepsWire(net: Net, i: nat, typ: U8, dst: Addr, payload: seq<Byte>, hop: Hop)
    requires Invariant(net) && i < |net.boards| && hop in net.wires
    ensures WireOk(Sending(net, i, typ, dst, payload), hop)
  {
    hide OnWire, WiresInv, MarksInv, GotInv, SentInv;
    var q := net.wires[hop];
    forall x | 0 <= x < |q| ensures OnWire(Sending(net, i, typ, dst, payload), hop, q[x]) {
      SendKeepsOld(net, i, typ, dst, payload, hop, x);
    }
    OlderOnWire(net, i, hop);
    if hop.at == i {
      var _ := SendPuts(net, i, typ, dst, payload, hop);
    }
  }

  lemma SendKeeps(net: Net, i: nat, typ: U8, dst: Addr, payload: seq<Byte>)
    requires Invariant(net) && i < |net.boards|
    ensures Invariant(Sending(net, i, typ, dst, payload))
  {
    var r := Sending(net, i, typ, dst, payload);
    forall hop: Hop | hop in r.wires ensures WireOk(r, hop) {
      SendKeepsWire(net, i, typ, dst, payload, hop);
    }
    forall a | 0 <= a < |r.sent| ensures SentOk(r, a) {
      assert SentOk(net, a);
    }
    forall j, a | 0 <= j < |r.boards| && 0 <= a < |r.boards| ensures MarkOk(r, j, a) {
      assert MarkOk(net, j, a);
    }
    forall j | 0 <= j < |r.boards| ensures GotOk(r, j) {
      assert GotOk(net, j);
      forall x | 0 <= x < |r.boards[j].got| ensures Received(r, j, r.boards[j].got[x]) {
        assert Received(net, j, net.boards[j].got[x]);
      }
    }
  }

  lemma OrderedWithout(q: seq<Packet>, at: nat)
    requires Ordered(q) && at < |q|
    ensures Ordered(Without(q, at)) && |Without(q, at)| == |q| - 1
    ensures forall x :: 0 <= x < |Without(q, at)| ==> Without(q, at)[x] == q[if x < at then x else x + 1]
  {
    assert |Without(q, at)| == |q| - 1;
    hide Without;
    var r := Without(q, at);
    forall x | 0 <= x < |r| ensures r[x] == q[if x < at then x else x + 1] {
      WithoutAt(q, at, x);
    }
    forall x, y | 0 <= x < y < |r| && r[x].from == r[y].from ensures r[x].number < r[y].number {
      WithoutAt(q, at, x);
      WithoutAt(q, at, y);
    }
  }

  /** The same net with other wires. */
  lemma OnlyWires(net: Net, r: Net)
    requires Invariant(net) && r == net.(wires := r.wires) && r.wires.Keys == net.wires.Keys
    requires forall hop: Hop :: hop in r.wires ==> WireOk(r, hop)
    ensures Invariant(r)
  {
    forall a | 0 <= a < |r.sent| ensures SentOk(r, a) {
      assert SentOk(net, a);
    }
    forall j, a | 0 <= j < |r.boards| && 0 <= a < |r.boards| ensures MarkOk(r, j, a) {
      assert MarkOk(net, j, a);
    }
    forall j | 0 <= j < |r.boards| ensures GotOk(r, j) {
      assert GotOk(net, j);
      forall x | 0 <= x < |r.boards[j].got| ensures Received(r, j, r.boards[j].got[x]) {
        assert Received(net, j, net.boards[j].got[x]);
      }
    }
  }

  lemma LoseKeeps(net: Net, hop: Hop, at: nat)
    requires Invariant(net) && hop in net.wires && at < |net.wires[hop]|
    ensures Invariant(net.(wires := net.wires[hop := Without(net.wires[hop], at)]))
  {
    var r := net.(wires := net.wires[hop := Without(net.wires[hop], at)]);
    forall o: Hop | o in r.wires ensures WireOk(r, o) {
      assert WireOk(net, o);
      if o == hop {
        OrderedWithout(net.wires[hop], at);
      }
      forall x | 0 <= x < |r.wires[o]| ensures OnWire(r, o, r.wires[o][x]) {
        assert OnWire(net, o, net.wires[o][if o == hop && x >= at then x + 1 else x]);
      }
    }
    OnlyWires(net, r);
  }

  /** Board j raises its mark for source i to number n; nothing else about who knows what
      has changed. */
  ghost predicate Raised(net: Net, r: Net, j: nat, i: nat, n: nat)
    requires net.Shaped() && j < |net.boards| && i < |net.boards|
  {
    && r.Shaped() && |r.boards| == |net.boards| && r.sent == net.sent
    && (forall k :: 0 <= k < |net.boards| ==> r.boards[k].addr == net.boards[k].addr)
    && r.mark == net.mark[j := net.mark[j][i := n]]
  }

  /** Board k is the one before j on the way out from i. */
  predicate Before(i: nat, k: nat, h: Heading, j: nat) {
    Away(i, k, h) && k + Dir(h) == j
  }

  lemma MarksRaised(net: Net, r: Net, j: nat, i: nat, n: nat, k: nat, h: Heading)
    requires Invariant(net) && j < |net.boards| && i < |net.boards| && k < |net.boards| && Raised(net, r, j, i, n)
    requires Before(i, k, h, j) && net.mark[j][i] < n <= Passed(net, k, i)
    ensures MarksInv(r) && SentInv(r)
  {
    assert MarkOk(net, k, i) && MarkOk(net, j, i);
    forall a, b | 0 <= a < |r.boards| && 0 <= b < |r.boards| ensures MarkOk(r, a, b) {
      assert MarkOk(net, a, b);
    }
    forall a | 0 <= a < |r.sent| ensures SentOk(r, a) {
      assert SentOk(net, a);
    }
  }

  /** Packets elsewhere do not notice the raised mark. */
  lemma OthersUnaffected(net: Net, r: Net, j: nat, i: nat, n: nat, k: nat, h: Heading, o: Hop, p: Packet)
    requires net.Shaped() && j < |net.boards| && i < |net.boards| && Raised(net, r, j, i, n)
    requires k < |net.boards| && Before(i, k, h, j) && net.mark[j][i] < n
    requires o.at < |net.boards| && OnWire(net, o, p)
    requires o == Hop(k, h) && p.from == i ==> n < p.number
    ensures OnWire(r, o, p)
  {
  }

  lemma GotRaised(net: Net, r: Net, j: nat, p: Packet)
    requires Invariant(net) && j < |net.boards| && p.from < |net.boards| && p.from != j
    requires Raised(net, r, j, p.from, p.number) && net.mark[j][p.from] < p.number
    requires forall k :: 0 <= k < |net.boards| && k != j ==> r.boards[k].got == net.boards[k].got
    requires r.boards[j].got == net.boards[j].got || (r.boards[j].got == net.boards[j].got + [p] && Received(r, j, p))
    ensures GotInv(r)
  {
    forall a | 0 <= a < |r.boards| ensures GotOk(r, a) {
      assert GotOk(net, a);
      forall x | 0 <= x < |r.boards[a].got| ensures Received(r, a, r.boards[a].got[x]) {
        if x < |net.boards[a].got| {
          assert Received(net, a, net.boards[a].got[x]);
        }
      }
      if a == j {
        forall x | 0 <= x < |net.boards[j].got|
          ensures net.boards[j].got[x].from == p.from ==> net.boards[j].got[x].number < p.number
        {
          assert Received(net, j, net.boards[j].got[x]);
        }
      }
    }
  }

  /** A frame the replay window refuses changes nothing but that window. */
  lemma SeenKeeps(net: Net, r: Net)
    requires Invariant(net) && r == net.(boards := r.boards) && |r.boards| == |net.boards|
    requires forall k :: 0 <= k < |net.boards| ==> r.boards[k] == net.boards[k].(seen := r.boards[k].seen)
    ensures Invariant(r)
  {
    forall hop: Hop | hop in r.wires ensures WireOk(r, hop) {
      assert WireOk(net, hop);
      forall x | 0 <= x < |r.wires[hop]| ensures OnWire(r, hop, r.wires[hop][x]) {
        assert OnWire(net, hop, net.wires[hop][x]);
      }
    }
    forall a | 0 <= a < |r.sent| ensures SentOk(r, a) {
      assert SentOk(net, a);
    }
    forall j, a | 0 <= j < |r.boards| && 0 <= a < |r.boards| ensures MarkOk(r, j, a) {
      assert MarkOk(net, j, a);
    }
    forall j | 0 <= j < |r.boards| ensures GotOk(r, j) {
      assert GotOk(net, j);
      forall x | 0 <= x < |r.boards[j].got| ensures Received(r, j, r.boards[j].got[x]) {
        assert Received(net, j, net.boards[j].got[x]);
      }
    }
  }

  /** The head of a wire, seen from the board it is about to reach. */
  ghost predicate AtDoor(net: Net, k: nat, h: Heading, j: nat, p: Packet)
    requires net.Shaped()
  {
    && k < |net.boards| && j < |net.boards| && k + Dir(h) == j && OnWire(net, Hop(k, h), p)
    && forall x :: 0 <= x < |net.wires[Hop(k, h)]| && net.wires[Hop(k, h)][x].from == p.from ==>
         p.number < net.wires[Hop(k, h)][x].number
  }

  lemma RelayFits(net: Net, r: Net, k: nat, h: Heading, j: nat, p: Packet)
    requires Invariant(net) && AtDoor(net, k, h, j, p) && Raised(net, r, j, p.from, p.number) && p.frame.ttl > 1
    ensures OnWire(r, Hop(j, h), p.(frame := p.frame.(ttl := p.frame.ttl - 1)))
    ensures forall x :: 0 <= x < |net.wires[Hop(j, h)]| && net.wires[Hop(j, h)][x].from == p.from ==>
              net.wires[Hop(j, h)][x].number < p.number
  {
    assert MarkOk(net, j, p.from);
    assert WireOk(net, Hop(j, h));
    forall x | 0 <= x < |net.wires[Hop(j, h)]| && net.wires[Hop(j, h)][x].from == p.from
      ensures net.wires[Hop(j, h)][x].number < p.number
    {
      assert OnWire(net, Hop(j, h), net.wires[Hop(j, h)][x]);
    }
  }

  lemma AcceptKeepsWire(net: Net, r: Net, k: nat, h: Heading, j: nat, p: Packet, o: Hop)
    requires Invariant(net) && AtDoor(net, k, h, j, p) && Raised(net, r, j, p.from, p.number) && o in net.wires
    requires r.wires[o] == net.wires[o] ||
             (o == Hop(j, h) && p.frame.ttl > 1 &&
              r.wires[o] == net.wires[o] + [p.(frame := p.frame.(ttl := p.frame.ttl - 1))])
    ensures WireOk(r, o)
  {
    assert WireOk(net, o);
    if p.frame.ttl > 1 {
      RelayFits(net, r, k, h, j, p);
    }
    forall x | 0 <= x < |net.wires[o]| ensures OnWire(r, o, net.wires[o][x]) {
      OthersUnaffected(net, r, j, p.from, p.number, k, h, o, net.wires[o][x]);
    }
  }

  lemma TakeKeeps(net: Net, k: nat, h: Heading, j: nat, p: Packet)
    requires Invariant(net) && AtDoor(net, k, h, j, p)
    ensures Invariant(Taking(net, j, h, p))
  {
    hide Arrives;
    var r := Taking(net, j, h, p);
    var b := net.boards[j];
    var fate := Arrives(b.addr, b.seen, p.frame);
    assert SentOk(net, p.from);
    FateShape(b.addr, b.seen, p.frame);
    if fate.replay {
      SeenKeeps(net, r);
    } else {
      assert Raised(net, r, j, p.from, p.number);
      hide WireOk, MarkOk, SentOk, GotOk, Received;
      MarksRaised(net, r, j, p.from, p.number, k, h);
      DeliveredFits(net, r, k, h, j, p);
      GotRaised(net, r, j, p);
      forall o: Hop | o in r.wires ensures WireOk(r, o) {
        AcceptKeepsWire(net, r, k, h, j, p, o);
      }
    }
  }

  lemma DeliveredFits(net: Net, r: Net, k: nat, h: Heading, j: nat, p: Packet)
    requires net.Shaped() && AtDoor(net, k, h, j, p) && Raised(net, r, j, p.from, p.number)
    ensures p.frame.dst == net.boards[j].addr || p.frame.dst == ADDR_BROADCAST ==> Received(r, j, p)
  {
  }

  lemma FateShape(self: Addr, seen: seq<Seen>, f: Frame)
    ensures var fate := Arrives(self, seen, f);
            && (fate.replay ==> !fate.delivered && fate.relayed.None?)
            && (fate.delivered ==> f.dst == self || f.dst == ADDR_BROADCAST)
            && (fate.relayed.Some? ==> f.ttl > 1 && fate.relayed.value == f.(ttl := f.ttl - 1))
  {
  }

  lemma NextKeeps(net: Net, step: Step)
    requires Invariant(net)
    ensures Labelled(net) && Invariant(Next(net, step))
  {
    InvariantIsLabelled(net);
    match step
    case Send(i, typ, dst, payload) =>
      if i < |net.boards| {
        SendKeeps(net, i, typ, dst, payload);
      }
    case Lose(hop, at) =>
      if hop in net.wires && at < |net.wires[hop]| {
        LoseKeeps(net, hop, at);
      }
    case Arrive(hop) =>
      if hop in net.wires && net.wires[hop] != [] {
        ArriveKeeps(net, hop);
      }
  }

  /** Off its wire, the head stands at the next board's door. */
  lemma HeadAtDoor(net: Net, net1: Net, hop: Hop)
    requires net.Shaped() && hop in net.wires && net.wires[hop] != [] && WireOk(net, hop)
    requires 0 <= hop.at + Dir(hop.heading) < |net.boards|
    requires net1 == net.(wires := net.wires[hop := net.wires[hop][1..]])
    ensures AtDoor(net1, hop.at, hop.heading, hop.at + Dir(hop.heading), net.wires[hop][0])
  {
    assert OnWire(net, hop, net.wires[hop][0]);
  }

  lemma ArriveKeeps(net: Net, hop: Hop)
    requires Invariant(net) && hop in net.wires && net.wires[hop] != [] && Labelled(net)
    ensures Invariant(Next(net, Arrive(hop)))
  {
    hide Taking, OnWire, AtDoor;
    var q := net.wires[hop];
    var p, j := q[0], hop.at + Dir(hop.heading);
    var net1 := net.(wires := net.wires[hop := q[1..]]);
    LoseKeeps(net, hop, 0);
    assert Without(q, 0) == q[1..];
    if 0 <= j < |net.boards| {
      assert WireOk(net, hop);
      HeadAtDoor(net, net1, hop);
      TakeKeeps(net1, hop.at, hop.heading, j, p);
    }
  }

  ghost predicate Distinct(addrs: seq<Addr>) {
    && (forall i :: 0 <= i < |addrs| ==> addrs[i] != ADDR_BROADCAST)
    && (forall i, j :: 0 <= i < j < |addrs| ==> addrs[i] != addrs[j])
  }

  lemma InitialKeeps(addrs: seq<Addr>)
    requires Distinct(addrs)
    ensures Invariant(Initial(addrs))
  {
  }

  /** The line after any schedule. */
  ghost function Reach(addrs: seq<Addr>, steps: seq<Step>): (net: Net)
    requires Distinct(addrs)
    ensures Invariant(net)
  {
    if steps == [] then
      InitialKeeps(addrs);
      Initial(addrs)
    else
      var net := Reach(addrs, steps[..|steps| - 1]);
      NextKeeps(net, steps[|steps| - 1]);
      Next(net, steps[|steps| - 1])
  }

  // ---- Main results ----

  /** rel_pos_from_frame. */
  function RelPos(ttl: U8, port: Port): int {
    var d := TTL_DEFAULT as int - ttl as int + 1;
    var clamped := if d < 1 then 1 else if d > 127 then 127 else d;
    if port == Up then -clamped else clamped
  }

  ghost predicate Reachable(net: Net) {
    exists addrs: seq<Addr>, steps :: Distinct(addrs) && net == Reach(addrs, steps)
  }

  lemma ReachableKeeps(net: Net)
    requires Reachable(net)
    ensures Invariant(net)
  {
  }

  /** In every run, with any losses: whatever a board's owner is handed was really sent by
      another board, to this one or to all, and only its hop limit has changed. */
  lemma DeliveredIsGenuine(net: Net, j: nat, x: nat)
    requires Reachable(net) && j < |net.boards| && x < |net.boards[j].got|
    ensures var p := net.boards[j].got[x];
            && p.from < |net.sent| && p.from != j && p.number < |net.sent[p.from]|
            && p.frame == net.sent[p.from][p.number].(ttl := p.frame.ttl)
            && p.frame.ttl == TTL_DEFAULT + 1 - Distance(p.from, j)
            && (p.frame.dst == net.boards[j].addr || p.frame.dst == ADDR_BROADCAST)
  {
    ReachableKeeps(net);
    assert GotOk(net, j);
    assert Received(net, j, net.boards[j].got[x]);
  }

  /** And no frame is handed over twice: frames of one source come in the order sent. */
  lemma DeliveredAtMostOnce(net: Net, j: nat, x: nat, y: nat)
    requires Reachable(net) && j < |net.boards| && x < y < |net.boards[j].got|
    requires net.boards[j].got[x].from == net.boards[j].got[y].from
    ensures net.boards[j].got[x].number < net.boards[j].got[y].number
  {
    ReachableKeeps(net);
    assert GotOk(net, j);
  }

  /** No numbering protocol: for every frame about to arrive anywhere, the arrival port and
      the hops it has left give exactly the sender's position relative to the receiver. */
  lemma PositionIsTrue(net: Net, hop: Hop, x: nat)
    requires Reachable(net) && hop in net.wires && x < |net.wires[hop]|
    ensures var p := net.wires[hop][x];
            RelPos(p.frame.ttl, ArrivalPort(hop.heading)) == p.from - (hop.at + Dir(hop.heading))
  {
    ReachableKeeps(net);
    assert WireOk(net, hop);
    assert OnWire(net, hop, net.wires[hop][x]);
  }
}
