/** A line that loses nothing: which frames get where, and how long a source may go unheard
    before its next frame is taken for an old one. */
module Delivery {
  import opened Types
  import opened Frame
  import opened Link
  import opened Line

  /** How far a frame reaches: the hop limit outlasts a line of 21 boards and no longer. */
  const REACH := TTL_DEFAULT + 1

  predicate Lossless(steps: seq<Step>) {
    forall i :: 0 <= i < |steps| ==> !steps[i].Lose?
  }

  predicate Between(i: nat, k: nat, j: nat) {
    i < k < j || j < k < i
  }

  /** Frame n of board i is meant to come by board j: no board on the way keeps it. */
  predicate Due(net: Net, i: nat, n: nat, j: nat) {
    && i < |net.sent| && n < |net.sent[i]| && j != i
    && forall k :: 0 <= k < |net.boards| && Between(i, k, j) ==> net.boards[k].addr != net.sent[i][n].dst
  }

  /** It is also meant for board j itself. */
  predicate ForBoard(net: Net, i: nat, n: nat, j: nat) {
    && i < |net.sent| && n < |net.sent[i]| && j < |net.boards|
    && (net.sent[i][n].dst == ADDR_BROADCAST || net.sent[i][n].dst == net.boards[j].addr)
  }

  /** Frame b is the next one after a that comes by board j. */
  ghost predicate Follows(net: Net, i: nat, j: nat, a: nat, b: nat) {
    && a < b && Due(net, i, a, j) && Due(net, i, b, j)
    && forall m: nat :: a < m < b ==> !Due(net, i, m, j)
  }

  /** A gap in a source's numbers that the replay window takes in its stride. */
  predicate GoodGap(d: nat) {
    0 < d % 0x1_0000 < 0x1_0000 - 1024
  }

  /** Between two frames that come by a board, no source sends so many that do not that its
      16-bit counter seems to stand still or to run back. */
  ghost predicate Spaced(net: Net) {
    forall i, j, a: nat, b: nat :: 0 <= i < |net.boards| && 0 <= j < |net.boards| && Follows(net, i, j, a, b) ==>
      GoodGap(b - a)
  }

  predicate Holds(q: seq<Packet>, i: nat, n: nat) {
    exists x :: 0 <= x < |q| && q[x].from == i && q[x].number == n
  }

  // ---- What a run without losses or refusals keeps ----

  /** Whatever has passed one board, is meant to come by the next and has not, is on the wire. */
  ghost predicate DenseWire(net: Net, hop: Hop, i: nat)
    requires net.Shaped() && hop in net.wires && i < |net.boards|
  {
    var j := hop.at + Dir(hop.heading);
    Away(i, hop.at, hop.heading) && 0 <= j < |net.boards| ==>
      forall n: nat {:trigger Holds(net.wires[hop], i, n)} ::
        net.mark[j][i] < n <= Passed(net, hop.at, i) && Due(net, i, n, j) ==> Holds(net.wires[hop], i, n)
  }

  /** Everything for a board up to its mark has been handed to the board's owner. */
  ghost predicate DenseGot(net: Net, j: nat, i: nat)
    requires net.Shaped() && j < |net.boards| && i < |net.boards|
  {
    forall n: nat {:trigger Holds(net.boards[j].got, i, n)} ::
      n <= net.mark[j][i] && Due(net, i, n, j) && ForBoard(net, i, n, j) ==> Holds(net.boards[j].got, i, n)
  }

  /** What is on a wire is meant to come by the board at its end. */
  ghost predicate WireDue(net: Net, hop: Hop)
    requires net.Shaped() && hop in net.wires
  {
    var j := hop.at + Dir(hop.heading);
    0 <= j < |net.boards| ==>
      forall x :: 0 <= x < |net.wires[hop]| ==> Due(net, net.wires[hop][x].from, net.wires[hop][x].number, j)
  }

  ghost predicate MarkDue(net: Net, j: nat, i: nat)
    requires net.Shaped() && j < |net.boards| && i < |net.boards|
  {
    i != j && net.mark[j][i] >= 0 ==> Due(net, i, net.mark[j][i], j)
  }

  /** The replay window remembers exactly the marks, for the sources it has room for. */
  ghost predicate WindowOk(net: Net, j: nat)
    requires net.Shaped() && j < |net.boards|
  {
    var t := net.boards[j].seen;
    && (forall a, b :: 0 <= a < b < |t| && t[a].used && t[b].used ==> t[a].addr != t[b].addr)
    && (forall a :: 0 <= a < |t| && t[a].used ==> t[a].primed)
    && (forall a, i :: 0 <= a < |t| && 0 <= i < |net.boards| && i != j && t[a].used
                       && t[a].addr == net.boards[i].addr ==>
          net.mark[j][i] >= 0 && t[a].high == net.mark[j][i] % 0x1_0000)
  }

  ghost predicate WiresComplete(net: Net)
    requires net.Shaped()
  {
    && (forall hop: Hop, i :: hop in net.wires && 0 <= i < |net.boards| ==> DenseWire(net, hop, i))
    && (forall hop: Hop :: hop in net.wires ==> WireDue(net, hop))
  }

  ghost predicate BoardsComplete(net: Net)
    requires net.Shaped()
  {
    && (forall j, i :: 0 <= j < |net.boards| && 0 <= i < |net.boards| ==> DenseGot(net, j, i) && MarkDue(net, j, i))
    && (forall j :: 0 <= j < |net.boards| ==> WindowOk(net, j))
  }

  ghost predicate Complete(net: Net) {
    Invariant(net) && |net.boards| <= REACH && WiresComplete(net) && BoardsComplete(net)
  }

  // ---- Frames that are due ----

  /** The same boards, and at least the same frames sent. */
  ghost predicate SameFrames(net: Net, r: Net) {
    && |r.boards| == |net.boards| && |r.sent| == |net.sent|
    && (forall k :: 0 <= k < |net.boards| ==> r.boards[k].addr == net.boards[k].addr)
    && (forall i :: 0 <= i < |net.sent| ==> net.sent[i] <= r.sent[i])
  }

  lemma DueStays(net: Net, r: Net, i: nat, n: nat, j: nat)
    requires SameFrames(net, r) && i < |net.sent| && n < |net.sent[i]|
    ensures Due(r, i, n, j) <==> Due(net, i, n, j)
  {
    assert r.sent[i][n] == net.sent[i][n];
  }

  /** What comes by the next board on came by this one, which did not keep it; and back. */
  lemma DueNext(net: Net, i: nat, n: nat, j: nat, h: Heading)
    requires j < |net.boards| && i < |net.sent| && n < |net.sent[i]| && Away(i, j, h) && i != j && j + Dir(h) >= 0
    ensures Due(net, i, n, j + Dir(h)) <==> Due(net, i, n, j) && net.boards[j].addr != net.sent[i][n].dst
  {
    var jj := j + Dir(h);
    assert Between(i, j, jj);
    assert forall k: nat :: Between(i, k, jj) <==> Between(i, k, j) || k == j;
  }

  /** Neighbours are always due. */
  lemma DueNear(net: Net, i: nat, n: nat, j: nat)
    requires i < |net.sent| && n < |net.sent[i]| && (j == i + 1 || i == j + 1)
    ensures Due(net, i, n, j)
  {
  }

  lemma HoldsGrows(q: seq<Packet>, p: Packet, i: nat, n: nat)
    ensures Holds(q, i, n) ==> Holds(q + [p], i, n)
    ensures p.from == i && p.number == n ==> Holds(q + [p], i, n)
  {
    if Holds(q, i, n) {
      var x :| 0 <= x < |q| && q[x].from == i && q[x].number == n;
      assert (q + [p])[x] == q[x];
    }
    assert (q + [p])[|q|] == p;
  }

  lemma HoldsTail(q: seq<Packet>, i: nat, n: nat)
    requires Holds(q, i, n) && (q[0].from != i || q[0].number != n)
    ensures Holds(q[1..], i, n)
  {
    var x :| 0 <= x < |q| && q[x].from == i && q[x].number == n;
    assert q[1..][x - 1] == q[x];
  }

  /** What arrives next is past the mark, and everything it skips was not meant to come by. */
  lemma HeadSkipsNothingDue(net: Net, hop: Hop, m: nat)
    requires Complete(net) && hop in net.wires && net.wires[hop] != [] && 0 <= hop.at + Dir(hop.heading) < |net.boards|
    ensures var p, j := net.wires[hop][0], hop.at + Dir(hop.heading);
            && p.from < |net.boards| && p.from != j && net.mark[j][p.from] < p.number && Due(net, p.from, p.number, j)
            && (net.mark[j][p.from] < m < p.number ==> !Due(net, p.from, m, j))
  {
    var q := net.wires[hop];
    var p, j := q[0], hop.at + Dir(hop.heading);
    assert WireOk(net, hop);
    assert OnWire(net, hop, p);
    assert WireDue(net, hop);
    assert DenseWire(net, hop, p.from);
    assert Holds(q, p.from, m) ==> p.number <= m;
  }

  // ---- Sending ----

  lemma SendIsSame(net: Net, a: nat, typ: U8, dst: Addr, payload: seq<Byte>)
    requires net.Shaped() && a < |net.boards|
    ensures SameFrames(net, Sending(net, a, typ, dst, payload))
  {
  }

  lemma SendKeepsDense(net: Net, a: nat, typ: U8, dst: Addr, payload: seq<Byte>, hop: Hop, i: nat)
    requires Complete(net) && a < |net.boards| && hop in net.wires && i < |net.boards|
    ensures DenseWire(Sending(net, a, typ, dst, payload), hop, i)
  {
    hide Due, Holds;
    var r := Sending(net, a, typ, dst, payload);
    SendIsSame(net, a, typ, dst, payload);
    assert DenseWire(net, hop, i);
    var q, j := net.wires[hop], hop.at + Dir(hop.heading);
    if Away(i, hop.at, hop.heading) && 0 <= j < |net.boards| {
      assert hop.at != i ==> MarkOk(net, hop.at, i);
      forall n: nat | net.mark[j][i] < n <= Passed(r, hop.at, i) && Due(r, i, n, j) ensures Holds(r.wires[hop], i, n) {
        if n < |net.sent[i]| {
          DueStays(net, r, i, n, j);
          assert Holds(q, i, n);
        }
        if hop.at == a {
          var p := r.wires[hop][|q|];
          assert r.wires[hop] == q + [p];
          HoldsGrows(q, p, i, n);
        }
      }
    }
  }

  lemma SendKeepsDue(net: Net, a: nat, typ: U8, dst: Addr, payload: seq<Byte>, hop: Hop)
    requires Complete(net) && a < |net.boards| && hop in net.wires
    ensures WireDue(Sending(net, a, typ, dst, payload), hop)
  {
    hide Due;
    var r := Sending(net, a, typ, dst, payload);
    SendIsSame(net, a, typ, dst, payload);
    assert WireDue(net, hop) && WireOk(net, hop);
    var q, j := net.wires[hop], hop.at + Dir(hop.heading);
    if 0 <= j < |net.boards| {
      forall x | 0 <= x < |r.wires[hop]| ensures Due(r, r.wires[hop][x].from, r.wires[hop][x].number, j) {
        if x < |q| {
          assert OnWire(net, hop, q[x]);
          DueStays(net, r, q[x].from, q[x].number, j);
        } else {
          DueNear(r, a, |net.sent[a]|, j);
        }
      }
    }
  }

  lemma SendKeepsBoards(net: Net, r: Net)
    requires Complete(net) && r.Shaped() && SameFrames(net, r) && r.boards == net.boards && r.mark == net.mark
    ensures BoardsComplete(r)
  {
    hide Due, Holds;
    forall j, i | 0 <= j < |r.boards| && 0 <= i < |r.boards| ensures DenseGot(r, j, i) && MarkDue(r, j, i) {
      assert DenseGot(net, j, i) && MarkDue(net, j, i) && MarkOk(net, j, i);
      forall n: nat | n <= r.mark[j][i] ensures Due(r, i, n, j) <==> Due(net, i, n, j) {
        DueStays(net, r, i, n, j);
      }
    }
    forall j | 0 <= j < |r.boards| ensures WindowOk(r, j) {
      assert WindowOk(net, j);
    }
  }

  lemma SendCompletes(net: Net, a: nat, typ: U8, dst: Addr, payload: seq<Byte>)
    requires Complete(net) && a < |net.boards|
    ensures Complete(Sending(net, a, typ, dst, payload))
  {
    hide DenseWire, WireDue, BoardsComplete;
    var r := Sending(net, a, typ, dst, payload);
    SendKeeps(net, a, typ, dst, payload);
    SendIsSame(net, a, typ, dst, payload);
    forall hop: Hop, i | hop in r.wires && 0 <= i < |r.boards| ensures DenseWire(r, hop, i) {
      SendKeepsDense(net, a, typ, dst, payload, hop, i);
    }
    forall hop: Hop | hop in r.wires ensures WireDue(r, hop) {
      SendKeepsDue(net, a, typ, dst, payload, hop);
    }
    SendKeepsBoards(net, r);
  }

  // ---- Arriving ----

  /** A board and something for it on a wire. */
  ghost predicate AtEnd(net: Net, hop: Hop) {
    net.Shaped() && hop in net.wires && net.wires[hop] != [] && net.wires[hop][0].from < |net.boards|
    && 0 <= hop.at + Dir(hop.heading) < |net.boards|
  }

  /** The board at the end of the wire does not take the next frame for an old one. */
  ghost predicate Accepts(net: Net, hop: Hop)
    requires AtEnd(net, hop)
  {
    Fresh(net.boards[hop.at + Dir(hop.heading)].seen, net.wires[hop][0].frame.src, net.wires[hop][0].frame.seqNo)
  }

  /** What an accepted arrival does. */
  ghost predicate Took(net: Net, r: Net, hop: Hop)
    requires AtEnd(net, hop)
  {
    var p, j := net.wires[hop][0], hop.at + Dir(hop.heading);
    var b, onward := net.boards[j], Hop(j, hop.heading);
    && Raised(net, r, j, p.from, p.number)
    && r.boards == net.boards[j := r.boards[j]]
    && r.boards[j].got == (if p.frame.dst == b.addr || p.frame.dst == ADDR_BROADCAST then b.got + [p] else b.got)
    && r.boards[j].seen == Noted(b.seen, p.frame.src, p.frame.seqNo)
    && (p.frame.dst == b.addr || p.frame.ttl <= 1 ==> r.wires == net.wires[hop := net.wires[hop][1..]])
    && (p.frame.dst != b.addr && p.frame.ttl > 1 ==>
          var relayed := p.(frame := p.frame.(ttl := p.frame.ttl - 1));
          r.wires == net.wires[hop := net.wires[hop][1..]][onward := net.wires[onward] + [relayed]])
  }

  lemma AcceptedIsTaken(net: Net, hop: Hop)
    requires AtEnd(net, hop) && Labelled(net) && Accepts(net, hop)
    requires net.wires[hop][0].frame.src != net.boards[hop.at + Dir(hop.heading)].addr
    ensures Took(net, Next(net, Arrive(hop)), hop)
  {
    hide Fresh, Noted;
  }

  /** What the head of a wire carries. */
  ghost predicate Genuine(net: Net, hop: Hop)
    requires AtEnd(net, hop)
  {
    var p, j := net.wires[hop][0], hop.at + Dir(hop.heading);
    && p.from != j && net.mark[j][p.from] < p.number < |net.sent[p.from]| && Due(net, p.from, p.number, j)
    && p.number <= Passed(net, hop.at, p.from)
    && p.frame.dst == net.sent[p.from][p.number].dst
    && p.frame.src == net.boards[p.from].addr && p.frame.seqNo == p.number % 0x1_0000
    && Away(p.from, hop.at, hop.heading) && p.frame.ttl == TTL_DEFAULT - Distance(p.from, hop.at)
    && (forall m: nat :: net.mark[j][p.from] < m < p.number ==> !Due(net, p.from, m, j))
  }

  lemma HeadIsGenuine(net: Net, hop: Hop)
    requires Complete(net) && AtEnd(net, hop)
    ensures Genuine(net, hop) && net.wires[hop][0].frame.src != net.boards[hop.at + Dir(hop.heading)].addr
  {
    hide Due, DenseWire, WireDue;
    var p, j := net.wires[hop][0], hop.at + Dir(hop.heading);
    assert WireOk(net, hop);
    assert OnWire(net, hop, p);
    assert SentOk(net, p.from);
    assert SentIs(net, p.from, p.number);
    HeadSkipsNothingDue(net, hop, 0);
    forall m: nat | net.mark[j][p.from] < m < p.number ensures !Due(net, p.from, m, j) {
      HeadSkipsNothingDue(net, hop, m);
    }
  }

  ghost predicate SentIs(net: Net, i: nat, n: nat)
    requires net.Shaped() && i < |net.sent| && n < |net.sent[i]|
  {
    net.sent[i][n].src == net.boards[i].addr && net.sent[i][n].seqNo == n % 0x1_0000
  }

  lemma TookShape(net: Net, r: Net, hop: Hop)
    requires AtEnd(net, hop) && Took(net, r, hop)
    ensures r.Shaped() && |r.boards| == |net.boards| && r.wires.Keys == net.wires.Keys && SameFrames(net, r)
    ensures var p, j := net.wires[hop][0], hop.at + Dir(hop.heading);
            && r.sent == net.sent && r.mark == net.mark[j := net.mark[j][p.from := p.number]]
  {
  }

  lemma DueSame(net: Net, r: Net)
    requires SameFrames(net, r) && r.sent == net.sent
    ensures forall i: nat, n: nat, j: nat :: Due(r, i, n, j) <==> Due(net, i, n, j)
  {
    forall i: nat, n: nat, j: nat ensures Due(r, i, n, j) <==> Due(net, i, n, j) {
      if i < |net.sent| && n < |net.sent[i]| {
        DueStays(net, r, i, n, j);
      }
    }
  }

  /** The wire that carried the frame has only lost it. */
  lemma HeldOnSameWire(net: Net, r: Net, hop: Hop, i: nat, n: nat)
    requires AtEnd(net, hop) && Took(net, r, hop) && i < |net.boards|
    requires Holds(net.wires[hop], i, n) && r.mark[hop.at + Dir(hop.heading)][i] < n
    ensures Holds(r.wires[hop], i, n)
  {
    hide Holds, Noted;
    HoldsTail(net.wires[hop], i, n);
  }

  lemma HeldElsewhere(net: Net, r: Net, hop: Hop, o: Hop, i: nat, n: nat)
    requires AtEnd(net, hop) && Took(net, r, hop) && o in net.wires && o != hop
    requires Holds(net.wires[o], i, n)
    ensures Holds(r.wires[o], i, n)
  {
    hide Holds, Noted;
    var p := net.wires[hop][0];
    if p.frame.ttl > 1 {
      HoldsGrows(net.wires[o], p.(frame := p.frame.(ttl := p.frame.ttl - 1)), i, n);
    }
  }

  /** A frame that goes on is on the wire onward. */
  lemma HeldOnward(net: Net, r: Net, hop: Hop)
    requires AtEnd(net, hop) && Genuine(net, hop) && Took(net, r, hop) && |net.boards| <= REACH
    requires var p, j := net.wires[hop][0], hop.at + Dir(hop.heading);
             0 <= j + Dir(hop.heading) < |net.boards| && p.frame.dst != net.boards[j].addr
    ensures var p, j := net.wires[hop][0], hop.at + Dir(hop.heading);
            Hop(j, hop.heading) in r.wires && Holds(r.wires[Hop(j, hop.heading)], p.from, p.number)
  {
    hide Holds, Noted, Due;
    var p, j := net.wires[hop][0], hop.at + Dir(hop.heading);
    HoldsGrows(net.wires[Hop(j, hop.heading)], p.(frame := p.frame.(ttl := p.frame.ttl - 1)), p.from, p.number);
  }

  /** Of what the arrival let pass, only the frame itself is meant for boards further on. */
  lemma OnlyThisOnward(net: Net, r: Net, hop: Hop, n: nat)
    requires AtEnd(net, hop) && Genuine(net, hop) && Took(net, r, hop) && |net.boards| <= REACH
    requires var p, j := net.wires[hop][0], hop.at + Dir(hop.heading);
             && 0 <= j + Dir(hop.heading) < |net.boards|
             && net.mark[j][p.from] < n <= p.number && Due(net, p.from, n, j + Dir(hop.heading))
    ensures var p, j := net.wires[hop][0], hop.at + Dir(hop.heading);
            Hop(j, hop.heading) in r.wires && Holds(r.wires[Hop(j, hop.heading)], p.from, n)
  {
    hide Holds, Due, Took;
    var p, j := net.wires[hop][0], hop.at + Dir(hop.heading);
    DueNext(net, p.from, n, j, hop.heading);
    HeldOnward(net, r, hop);
  }

  /** Everything else had passed before. */
  lemma PassedBefore(net: Net, r: Net, hop: Hop, o: Hop, i: nat, n: nat)
    requires AtEnd(net, hop) && Genuine(net, hop) && Took(net, r, hop) && o.at < |net.boards| && i < |net.boards|
    requires 0 <= o.at + Dir(o.heading) < |net.boards| && Away(i, o.at, o.heading)
    requires r.Shaped() && |r.boards| == |net.boards|
    requires r.mark[o.at + Dir(o.heading)][i] < n <= Passed(r, o.at, i)
    requires !(o == Hop(hop.at + Dir(hop.heading), hop.heading) && i == net.wires[hop][0].from && net.mark[o.at][i] < n)
    ensures net.mark[o.at + Dir(o.heading)][i] < n <= Passed(net, o.at, i)
    ensures r.mark[o.at + Dir(o.heading)][i] < n
  {
    TookShape(net, r, hop);
    hide Due, Took, SameFrames;
  }

  /** Each wire is still dense after the arrival. */
  lemma StillHeld(net: Net, r: Net, hop: Hop, o: Hop, i: nat, n: nat)
    requires AtEnd(net, hop) && Genuine(net, hop) && Took(net, r, hop) && |net.boards| <= REACH
    requires o in net.wires && i < |net.boards| && r.Shaped()
    requires |r.boards| == |net.boards| && r.wires.Keys == net.wires.Keys
    requires Away(i, o.at, o.heading) && 0 <= o.at + Dir(o.heading) < |net.boards|
    requires net.mark[o.at + Dir(o.heading)][i] < n <= Passed(net, o.at, i) ==> Holds(net.wires[o], i, n)
    requires r.mark[o.at + Dir(o.heading)][i] < n <= Passed(r, o.at, i)
    requires Due(net, i, n, o.at + Dir(o.heading))
    ensures Holds(r.wires[o], i, n)
  {
    var p, j := net.wires[hop][0], hop.at + Dir(hop.heading);
    if o == Hop(j, hop.heading) && i == p.from && net.mark[j][i] < n {
      NotPast(net, r, hop, n);
      OnlyThisOnward(net, r, hop, n);
    } else {
      hide Holds, Due, Took, Genuine, Passed;
      PassedBefore(net, r, hop, o, i, n);
      if o == hop {
        HeldOnSameWire(net, r, hop, i, n);
      } else {
        HeldElsewhere(net, r, hop, o, i, n);
      }
    }
  }

  lemma NotPast(net: Net, r: Net, hop: Hop, n: nat)
    requires AtEnd(net, hop) && Genuine(net, hop) && Took(net, r, hop) && r.Shaped() && |r.boards| == |net.boards|
    requires n <= Passed(r, hop.at + Dir(hop.heading), net.wires[hop][0].from)
    ensures n <= net.wires[hop][0].number
  {
    TookShape(net, r, hop);
    hide Due, Took, SameFrames;
  }

  lemma ArrivalKeepsDense(net: Net, r: Net, hop: Hop, o: Hop, i: nat)
    requires Complete(net) && AtEnd(net, hop) && Genuine(net, hop) && Took(net, r, hop)
    requires o in net.wires && i < |net.boards| && r.Shaped()
    ensures o in r.wires && DenseWire(r, o, i)
  {
    hide Genuine, Holds, Due, Complete, Took, SameFrames, Passed;
    TookShape(net, r, hop);
    DueSame(net, r);
    CompleteIsDense(net, o, i);
    var next := o.at + Dir(o.heading);
    if Away(i, o.at, o.heading) && 0 <= next < |net.boards| {
      forall n: nat | r.mark[next][i] < n <= Passed(r, o.at, i) && Due(r, i, n, next) ensures Holds(r.wires[o], i, n) {
        DueIsSent(r, i, n, next);
        StillHeld(net, r, hop, o, i, n);
      }
    }
  }

  lemma CompleteIsDense(net: Net, o: Hop, i: nat)
    requires Complete(net) && o in net.wires && i < |net.boards|
    ensures net.Shaped() && |net.boards| <= REACH && DenseWire(net, o, i)
  {
    hide DenseWire, BoardsComplete;
  }

  lemma DueIsSent(net: Net, i: nat, n: nat, j: nat)
    requires Due(net, i, n, j)
    ensures i < |net.sent| && n < |net.sent[i]| && i != j
  {
  }

  /** What the arrival leaves on each wire. */
  lemma WiresAfter(net: Net, r: Net, hop: Hop, o: Hop, x: nat)
    requires AtEnd(net, hop) && Took(net, r, hop) && o in net.wires && o in r.wires && x < |r.wires[o]|
    ensures var p, j := net.wires[hop][0], hop.at + Dir(hop.heading);
            || (o == Hop(j, hop.heading) && r.wires[o][x].from == p.from && r.wires[o][x].number == p.number
                && p.frame.dst != net.boards[j].addr)
            || r.wires[o][x] in net.wires[o]
  {
    hide Noted;
  }

  lemma ArrivalKeepsDue(net: Net, r: Net, hop: Hop, o: Hop)
    requires AtEnd(net, hop) && Genuine(net, hop) && Took(net, r, hop)
    requires o in net.wires && WireDue(net, o) && r.Shaped()
    ensures o in r.wires && WireDue(r, o)
  {
    hide Due;
    TookShape(net, r, hop);
    DueSame(net, r);
    hide Took, SameFrames;
    var p, j, next := net.wires[hop][0], hop.at + Dir(hop.heading), o.at + Dir(o.heading);
    if 0 <= next < |net.boards| {
      forall x | 0 <= x < |r.wires[o]| ensures Due(r, r.wires[o][x].from, r.wires[o][x].number, next) {
        WiresAfter(net, r, hop, o, x);
        if o == Hop(j, hop.heading) {
          DueNext(net, p.from, p.number, j, hop.heading);
        }
      }
    }
  }

  lemma ArrivalKeepsGot(net: Net, r: Net, hop: Hop, a: nat, i: nat)
    requires Complete(net) && AtEnd(net, hop) && Genuine(net, hop) && Took(net, r, hop) && r.Shaped()
    requires a < |net.boards| && i < |net.boards|
    ensures a < |r.boards| && i < |r.boards| && DenseGot(r, a, i)
  {
    hide Due, Noted, Holds;
    TookShape(net, r, hop);
    DueSame(net, r);
    assert DenseGot(net, a, i);
    forall n: nat | n <= r.mark[a][i] && Due(r, i, n, a) && ForBoard(r, i, n, a) ensures Holds(r.boards[a].got, i, n) {
      GotStays(net, r, hop, a, i, n);
    }
  }

  lemma GotStays(net: Net, r: Net, hop: Hop, a: nat, i: nat, n: nat)
    requires AtEnd(net, hop) && Genuine(net, hop) && Took(net, r, hop) && a < |net.boards| && i < |net.boards|
    requires Due(net, i, n, a) && ForBoard(net, i, n, a)
    requires n <= net.mark[a][i] ==> Holds(net.boards[a].got, i, n)
    requires n <= r.mark[a][i]
    ensures Holds(r.boards[a].got, i, n)
  {
    hide Due, Noted, Holds;
    HoldsGrows(net.boards[a].got, net.wires[hop][0], i, n);
  }

  lemma ArrivalKeepsMark(net: Net, r: Net, hop: Hop, a: nat, i: nat)
    requires Complete(net) && AtEnd(net, hop) && Genuine(net, hop) && Took(net, r, hop) && r.Shaped()
    requires a < |net.boards| && i < |net.boards|
    ensures a < |r.boards| && i < |r.boards| && MarkDue(r, a, i)
  {
    hide Due;
    TookShape(net, r, hop);
    hide Took;
    DueSame(net, r);
    assert MarkDue(net, a, i);
  }

  /** Noting the frame keeps the window in step with the raised mark. */
  lemma WindowKeeps(net: Net, r: Net, j: nat, p: Packet)
    requires net.Shaped() && net.Addressed() && j < |net.boards| && WindowOk(net, j)
    requires p.from < |net.boards| && p.from != j
    requires Raised(net, r, j, p.from, p.number)
    requires p.frame.src == net.boards[p.from].addr && p.frame.seqNo == p.number % 0x1_0000
    requires Fresh(net.boards[j].seen, p.frame.src, p.frame.seqNo)
    requires r.boards[j].seen == Noted(net.boards[j].seen, p.frame.src, p.frame.seqNo)
    ensures WindowOk(r, j)
  {
    var t := net.boards[j].seen;
    var k := SlotFor(t, p.frame.src);
    forall i | 0 <= i < |net.boards| && i != p.from ensures net.boards[i].addr != p.frame.src {
    }
  }

  lemma ArrivalKeepsWindow(net: Net, r: Net, hop: Hop, a: nat)
    requires Complete(net) && AtEnd(net, hop) && Genuine(net, hop) && Took(net, r, hop) && Accepts(net, hop)
    requires a < |net.boards| && r.Shaped()
    ensures a < |r.boards| && WindowOk(r, a)
  {
    hide Fresh, Noted, Due;
    var p, j := net.wires[hop][0], hop.at + Dir(hop.heading);
    assert WindowOk(net, a);
    if a == j {
      WindowKeeps(net, r, j, p);
    }
  }

  lemma ArriveCompletes(net: Net, hop: Hop)
    requires Complete(net) && Labelled(net) && AtEnd(net, hop) && Accepts(net, hop)
    ensures Complete(Next(net, Arrive(hop))) && Took(net, Next(net, Arrive(hop)), hop)
  {
    hide Next, Accepts, DenseWire, WireDue, DenseGot, MarkDue, WindowOk, Genuine;
    var r := Next(net, Arrive(hop));
    NextKeeps(net, Arrive(hop));
    HeadIsGenuine(net, hop);
    AcceptedIsTaken(net, hop);
    TookShape(net, r, hop);
    hide Took;
    forall o: Hop, i | o in r.wires && 0 <= i < |r.boards| ensures DenseWire(r, o, i) {
      ArrivalKeepsDense(net, r, hop, o, i);
    }
    forall o: Hop | o in r.wires ensures WireDue(r, o) {
      ArrivalKeepsDue(net, r, hop, o);
    }
    forall a, i | 0 <= a < |r.boards| && 0 <= i < |r.boards| ensures DenseGot(r, a, i) && MarkDue(r, a, i) {
      ArrivalKeepsGot(net, r, hop, a, i);
      ArrivalKeepsMark(net, r, hop, a, i);
    }
    forall a | 0 <= a < |r.boards| ensures WindowOk(r, a) {
      ArrivalKeepsWindow(net, r, hop, a);
    }
  }

  /** A frame that runs off the end of the line was wanted by nobody further on. */
  lemma EndOfLineCompletes(net: Net, hop: Hop)
    requires Complete(net) && Labelled(net) && hop in net.wires && net.wires[hop] != []
    requires !(0 <= hop.at + Dir(hop.heading) < |net.boards|)
    ensures Complete(Next(net, Arrive(hop)))
  {
    hide Holds;
    var r := Next(net, Arrive(hop));
    NextKeeps(net, Arrive(hop));
    assert r == net.(wires := net.wires[hop := net.wires[hop][1..]]);
    DueSame(net, r);
    hide Due, Next;
    forall o: Hop, i | o in r.wires && 0 <= i < |r.boards| ensures DenseWire(r, o, i) {
      assert DenseWire(net, o, i);
    }
    forall o: Hop | o in r.wires ensures WireDue(r, o) {
      assert WireDue(net, o);
    }
    SendKeepsBoards(net, r);
  }

  // ---- Runs ----

  /** The step is an arrival, and the frame is taken for an old one. */
  ghost predicate Refuses(net: Net, step: Step) {
    step.Arrive? && AtEnd(net, step.hop) && !Accepts(net, step.hop)
  }

  ghost predicate NeverRefused(addrs: seq<Addr>, steps: seq<Step>)
    requires Distinct(addrs)
  {
    forall n :: 0 <= n < |steps| ==> !Refuses(Reach(addrs, steps[..n]), steps[n])
  }

  lemma StepCompletes(net: Net, step: Step)
    requires Complete(net) && Labelled(net) && !step.Lose? && !Refuses(net, step)
    ensures Complete(Next(net, step))
  {
    hide Complete, Sending, Taking, Accepts;
    match step
    case Send(i, typ, dst, payload) =>
      if i < |net.boards| {
        SendCompletes(net, i, typ, dst, payload);
      }
    case Arrive(hop) =>
      if hop in net.wires && net.wires[hop] != [] {
        CompleteShape(net, hop);
        if 0 <= hop.at + Dir(hop.heading) < |net.boards| {
          ArriveCompletes(net, hop);
        } else {
          EndOfLineCompletes(net, hop);
        }
      }
  }

  lemma CompleteShape(net: Net, hop: Hop)
    requires Complete(net) && hop in net.wires && net.wires[hop] != []
    ensures net.Shaped() && net.wires[hop][0].from < |net.boards|
  {
    InvariantIsLabelled(net);
  }

  lemma StartsComplete(addrs: seq<Addr>)
    requires Distinct(addrs) && |addrs| <= REACH
    ensures Complete(Initial(addrs))
  {
    InitialKeeps(addrs);
  }

  lemma {:induction false} AcceptedIsComplete(addrs: seq<Addr>, steps: seq<Step>)
    requires Distinct(addrs) && |addrs| <= REACH && Lossless(steps) && NeverRefused(addrs, steps)
    ensures Complete(Reach(addrs, steps))
  {
    hide Next, Complete, Refuses;
    if steps == [] {
      StartsComplete(addrs);
    } else {
      var pre, step := steps[..|steps| - 1], steps[|steps| - 1];
      NeverRefusedPrefix(addrs, steps, |steps| - 1);
      AcceptedIsComplete(addrs, pre);
      InvariantIsLabelled(Reach(addrs, pre));
      StepCompletes(Reach(addrs, pre), step);
    }
  }

  lemma NeverRefusedPrefix(addrs: seq<Addr>, steps: seq<Step>, k: nat)
    requires Distinct(addrs) && NeverRefused(addrs, steps) && k <= |steps|
    ensures NeverRefused(addrs, steps[..k])
  {
    hide Refuses, Reach;
    forall n | 0 <= n < k ensures !Refuses(Reach(addrs, steps[..k][..n]), steps[..k][n]) {
      assert steps[..k][..n] == steps[..n];
    }
  }

  /** A source heard often enough is never taken for an old one. */
  lemma SpacedIsAccepted(net: Net, hop: Hop)
    requires Complete(net) && AtEnd(net, hop) && Spaced(net)
    ensures Accepts(net, hop)
  {
    hide Due, DenseWire, WireDue, DenseGot, Noted;
    HeadIsGenuine(net, hop);
    var p, j := net.wires[hop][0], hop.at + Dir(hop.heading);
    assert WindowOk(net, j) && MarkDue(net, j, p.from) && MarkOk(net, j, p.from);
    var t := net.boards[j].seen;
    var k := SlotFor(t, p.frame.src);
    if k.Some? && t[k.value].used {
      var a := net.mark[j][p.from];
      assert Follows(net, p.from, j, a, p.number);
      AheadOfCounter(a, p.number);
    }
  }

  lemma SpacedBefore(net: Net, r: Net)
    requires Spaced(r) && SameFrames(net, r) && |net.sent| == |net.boards|
    ensures Spaced(net)
  {
    hide Due;
    forall i, j, a: nat, b: nat | 0 <= i < |net.boards| && 0 <= j < |net.boards| && Follows(net, i, j, a, b)
      ensures GoodGap(b - a)
    {
      DueIsSent(net, i, a, j);
      DueIsSent(net, i, b, j);
      forall m: nat | a <= m <= b ensures Due(r, i, m, j) <==> Due(net, i, m, j) {
        DueStays(net, r, i, m, j);
      }
      assert Follows(r, i, j, a, b);
    }
  }

  /** Steps only ever add frames. */
  lemma NextIsSame(net: Net, step: Step)
    requires net.Shaped() && Labelled(net)
    ensures SameFrames(net, Next(net, step))
  {
    hide Arrives;
  }

  /** Spacing is all it takes: without losses and with every source heard often enough,
      nothing is ever refused and nothing goes missing. */
  lemma {:induction false} SpacedIsComplete(addrs: seq<Addr>, steps: seq<Step>)
    requires Distinct(addrs) && |addrs| <= REACH && Lossless(steps) && Spaced(Reach(addrs, steps))
    ensures NeverRefused(addrs, steps) && Complete(Reach(addrs, steps))
  {
    hide Next, Complete, Refuses, Spaced, SameFrames;
    if steps != [] {
      var pre, step := steps[..|steps| - 1], steps[|steps| - 1];
      var net := Reach(addrs, pre);
      InvariantIsLabelled(net);
      NextIsSame(net, step);
      ReachShape(addrs, pre);
      SpacedBefore(net, Next(net, step));
      SpacedIsComplete(addrs, pre);
      SpacedStep(net, step);
      forall n | 0 <= n < |steps| ensures !Refuses(Reach(addrs, steps[..n]), steps[n]) {
        assert n < |pre| ==> pre[..n] == steps[..n] && pre[n] == steps[n];
      }
    }
    AcceptedIsComplete(addrs, steps);
  }

  lemma ReachShape(addrs: seq<Addr>, steps: seq<Step>)
    requires Distinct(addrs)
    ensures |Reach(addrs, steps).sent| == |Reach(addrs, steps).boards|
  {
    hide Reach;
  }

  lemma SpacedStep(net: Net, step: Step)
    requires Complete(net) && Spaced(net)
    ensures !Refuses(net, step)
  {
    hide Complete, Spaced, Accepts;
    if step.Arrive? && AtEnd(net, step.hop) {
      SpacedIsAccepted(net, step.hop);
    }
  }

  // ---- Main results ----

  /** A frame of board i numbered n, on some wire. */
  ghost predicate UnderWay(net: Net, i: nat, n: nat) {
    exists hop: Hop :: hop in net.wires && Holds(net.wires[hop], i, n)
  }

  /** A frame has come by every board it is meant to come by, or is on its way. */
  lemma {:induction false} Whereabouts(net: Net, i: nat, n: nat, j: nat)
    requires Complete(net) && i < |net.boards| && j < |net.boards| && Due(net, i, n, j)
    ensures n <= net.mark[j][i] || UnderWay(net, i, n)
    decreases Distance(i, j)
  {
    hide Due, Holds;
    DueIsSent(net, i, n, j);
    var h := if i < j then Tailward else Headward;
    var k := j - Dir(h);
    if k != i {
      DueNext(net, i, n, k, h);
      Whereabouts(net, i, n, k);
    }
    assert DenseWire(net, Hop(k, h), i);
    assert Hop(k, h) in net.wires;
    assert net.mark[j][i] < n <= Passed(net, k, i) ==> Holds(net.wires[Hop(k, h)], i, n);
  }

  lemma DueArrives(net: Net, i: nat, n: nat, j: nat)
    requires Complete(net) && i < |net.boards| && j < |net.boards| && Due(net, i, n, j) && ForBoard(net, i, n, j)
    ensures Holds(net.boards[j].got, i, n) || UnderWay(net, i, n)
  {
    hide Due, Holds;
    Whereabouts(net, i, n, j);
    assert DenseGot(net, j, i);
  }

  /** When nothing is lost, on up to 21 boards, whatever else is sent to whomever: every
      broadcast is at every moment either handed to each other board or still on a wire. Once
      the wires are silent it has been handed over, and by DeliveredAtMostOnce exactly once. */
  lemma BroadcastReachesEveryone(addrs: seq<Addr>, steps: seq<Step>, i: nat, n: nat, j: nat)
    requires Distinct(addrs) && |addrs| <= 21 && Lossless(steps) && Spaced(Reach(addrs, steps))
    requires var net := Reach(addrs, steps);
             i < |net.boards| && j < |net.boards| && i != j && n < |net.sent[i]| && net.sent[i][n].dst == ADDR_BROADCAST
    ensures var net := Reach(addrs, steps); Holds(net.boards[j].got, i, n) || UnderWay(net, i, n)
  {
    hide Reach;
    SpacedIsComplete(addrs, steps);
    DueArrives(Reach(addrs, steps), i, n, j);
  }

  /** Likewise every frame for one board reaches that board. */
  lemma UnicastReachesItsBoard(addrs: seq<Addr>, steps: seq<Step>, i: nat, n: nat, j: nat)
    requires Distinct(addrs) && |addrs| <= 21 && Lossless(steps) && Spaced(Reach(addrs, steps))
    requires var net := Reach(addrs, steps);
             && i < |net.boards| && j < |net.boards| && i != j && n < |net.sent[i]|
             && net.sent[i][n].dst == net.boards[j].addr
    ensures var net := Reach(addrs, steps); Holds(net.boards[j].got, i, n) || UnderWay(net, i, n)
  {
    hide Reach;
    SpacedIsComplete(addrs, steps);
    var net := Reach(addrs, steps);
    assert Due(net, i, n, j);
    DueArrives(net, i, n, j);
  }

  /** Sources that broadcast at least once in any 64511 frames running are heard often enough:
      with a hello every 50 ms, that is more than a million frames a second. */
  lemma OftenBroadcastIsSpaced(net: Net)
    requires net.Shaped() && net.Addressed()
    requires forall i, m: nat :: 0 <= i < |net.sent| && m + 64511 <= |net.sent[i]| ==> Broadcasts(net, i, m)
    ensures Spaced(net)
  {
    forall i, j, a: nat, b: nat | 0 <= i < |net.boards| && 0 <= j < |net.boards| && Follows(net, i, j, a, b)
      ensures GoodGap(b - a)
    {
      if b - a > 64511 {
        assert a + 1 + 64511 <= |net.sent[i]|;
        assert Broadcasts(net, i, a + 1);
        var x :| a + 1 <= x < a + 1 + 64511 && net.sent[i][x].dst == ADDR_BROADCAST;
        assert Due(net, i, x, j);
      }
    }
  }

  ghost predicate Broadcasts(net: Net, i: nat, m: nat)
    requires i < |net.sent| && m + 64511 <= |net.sent[i]|
  {
    exists x :: m <= x < m + 64511 && net.sent[i][x].dst == ADDR_BROADCAST
  }

  // ---- The spacing is exactly what it takes ----

  /** The window has an entry for every source that has been heard, and for no one else. */
  ghost predicate Remembers(net: Net, j: nat)
    requires net.Shaped() && j < |net.boards|
  {
    var t := net.boards[j].seen;
    && |t| == MAX_BOARDS
    && (forall a :: 0 <= a < |t| && t[a].used ==>
          exists i :: 0 <= i < |net.boards| && i != j && net.boards[i].addr == t[a].addr)
    && (forall i :: 0 <= i < |net.boards| && i != j && net.mark[j][i] >= 0 ==>
          FirstOf(t, net.boards[i].addr, true, 0).Some?)
  }

  /** Among the frames that have come by, the spacing held. */
  ghost predicate SpacedSoFar(net: Net, i: nat, j: nat)
    requires net.Shaped() && i < |net.boards| && j < |net.boards|
  {
    forall a: nat, b: nat :: Follows(net, i, j, a, b) && b <= net.mark[j][i] ==> GoodGap(b - a)
  }

  ghost predicate Judged(net: Net)
    requires net.Shaped()
  {
    && (forall j :: 0 <= j < |net.boards| ==> Remembers(net, j))
    && (forall i, j :: 0 <= i < |net.boards| && 0 <= j < |net.boards| ==> SpacedSoFar(net, i, j))
  }

  function AddrSet(addrs: seq<Addr>): set<Addr> {
    set x | x in addrs
  }

  lemma {:induction false} DistinctCount(addrs: seq<Addr>)
    requires forall i, j :: 0 <= i < j < |addrs| ==> addrs[i] != addrs[j]
    ensures |AddrSet(addrs)| == |addrs|
  {
    if addrs != [] {
      var n := |addrs| - 1;
      DistinctCount(addrs[..n]);
      assert AddrSet(addrs) == AddrSet(addrs[..n]) + {addrs[n]};
      assert addrs[n] !in addrs[..n];
    }
  }

  /** With at most 16 others to hear from, a source not yet heard finds a free slot. */
  lemma RoomForAll(net: Net, j: nat, i: nat)
    requires net.Shaped() && net.Addressed() && |net.boards| <= MAX_BOARDS + 1
    requires j < |net.boards| && i < |net.boards| && i != j
    requires WindowOk(net, j) && Remembers(net, j)
    requires FirstOf(net.boards[j].seen, net.boards[i].addr, true, 0).None?
    ensures FirstOf(net.boards[j].seen, net.boards[i].addr, false, 0).Some?
  {
    hide FirstOf;
    var t := net.boards[j].seen;
    if FirstOf(t, net.boards[i].addr, false, 0).None? {
      var names := seq(|t|, a requires 0 <= a < |t| => t[a].addr);
      var all := seq(|net.boards|, k requires 0 <= k < |net.boards| => net.boards[k].addr);
      forall x | x in names ensures x in all && x != all[i] && x != all[j] {
        var a :| 0 <= a < |t| && t[a].addr == x;
        assert t[a].used;
        var k :| 0 <= k < |net.boards| && k != j && net.boards[k].addr == t[a].addr;
        assert all[k] == x;
      }
      TwoMore(names, all, i, j);
    }
  }

  /** Distinct names from a list, two of its entries not among them, are at least two fewer. */
  lemma TwoMore(names: seq<Addr>, all: seq<Addr>, i: nat, j: nat)
    requires forall a, b :: 0 <= a < b < |names| ==> names[a] != names[b]
    requires forall a, b :: 0 <= a < b < |all| ==> all[a] != all[b]
    requires i < |all| && j < |all| && i != j
    requires forall x :: x in names ==> x in all && x != all[i] && x != all[j]
    ensures |names| + 2 <= |all|
  {
    DistinctCount(names);
    DistinctCount(all);
    var some := AddrSet(names) + {all[i], all[j]};
    assert |some| == |AddrSet(names)| + 2;
    Subset(some, AddrSet(all));
  }

  lemma {:induction false} Subset(a: set<Addr>, b: set<Addr>)
    requires a <= b
    ensures |a| <= |b|
  {
    if a != {} {
      var x :| x in a;
      Subset(a - {x}, b - {x});
    }
  }

  lemma SpacingLearned(net: Net, hop: Hop, a: nat, b: nat)
    requires Complete(net) && AtEnd(net, hop) && Genuine(net, hop) && Accepts(net, hop)
    requires Remembers(net, hop.at + Dir(hop.heading))
    requires SpacedSoFar(net, net.wires[hop][0].from, hop.at + Dir(hop.heading))
    requires Follows(net, net.wires[hop][0].from, hop.at + Dir(hop.heading), a, b) && b <= net.wires[hop][0].number
    ensures GoodGap(b - a)
  {
    hide Due, DenseWire, WireDue, DenseGot, FirstOf;
    var p, j := net.wires[hop][0], hop.at + Dir(hop.heading);
    var m := net.mark[j][p.from];
    assert MarkDue(net, j, p.from) && MarkOk(net, j, p.from) && WindowOk(net, j);
    if b > m {
      assert b == p.number && a == m;
      assert SlotFor(net.boards[j].seen, p.frame.src).Some?;
      AheadOfCounter(m, p.number);
    }
  }

  lemma NotedRemembers(t: seq<Seen>, src: Addr, seqNo: U16, addr: Addr)
    requires SlotFor(t, src).Some?
    ensures FirstOf(Noted(t, src, seqNo), src, true, 0).Some?
    ensures FirstOf(t, addr, true, 0).Some? ==> FirstOf(Noted(t, src, seqNo), addr, true, 0).Some?
    ensures forall a :: 0 <= a < |t| && Noted(t, src, seqNo)[a].used ==>
              Noted(t, src, seqNo)[a].addr == src || (t[a].used && t[a].addr == Noted(t, src, seqNo)[a].addr)
  {
    hide FirstOf;
    var t' := Noted(t, src, seqNo);
    var k := SlotFor(t, src).value;
    assert t'[k].used && t'[k].addr == src;
    if FirstOf(t, addr, true, 0).Some? {
      var x := FirstOf(t, addr, true, 0).value;
      assert t'[x].used && t'[x].addr == addr;
    }
  }

  lemma ArrivalRemembers(net: Net, r: Net, hop: Hop, j: nat)
    requires AtEnd(net, hop) && Genuine(net, hop) && Took(net, r, hop)
    requires |net.boards| <= MAX_BOARDS + 1 && net.Addressed()
    requires j < |net.boards| && Remembers(net, j) && WindowOk(net, j) && r.Shaped()
    ensures j < |r.boards| && Remembers(r, j)
  {
    hide Due, FirstOf, Noted;
    var p := net.wires[hop][0];
    if j == hop.at + Dir(hop.heading) {
      var t, t' := net.boards[j].seen, r.boards[j].seen;
      var own := FirstOf(t, p.frame.src, true, 0);
      if own.None? {
        RoomForAll(net, j, p.from);
      }
      assert SlotFor(t, p.frame.src).Some?;
      forall i | 0 <= i < |r.boards| && i != j && r.mark[j][i] >= 0
        ensures FirstOf(t', r.boards[i].addr, true, 0).Some?
      {
        NotedRemembers(t, p.frame.src, p.frame.seqNo, net.boards[i].addr);
      }
      NotedRemembers(t, p.frame.src, p.frame.seqNo, p.frame.src);
      forall a | 0 <= a < |t'| && t'[a].used
        ensures exists i :: 0 <= i < |r.boards| && i != j && r.boards[i].addr == t'[a].addr
      {
        if t'[a].addr == p.frame.src {
          assert r.boards[p.from].addr == t'[a].addr;
        } else {
          var i :| 0 <= i < |net.boards| && i != j && net.boards[i].addr == t[a].addr;
          assert r.boards[i].addr == t'[a].addr;
        }
      }
    }
  }

  lemma ArrivalSpaced(net: Net, r: Net, hop: Hop, i: nat, j: nat)
    requires Complete(net) && AtEnd(net, hop) && Genuine(net, hop) && Took(net, r, hop) && Accepts(net, hop)
    requires i < |net.boards| && j < |net.boards| && SpacedSoFar(net, i, j) && r.Shaped()
    requires Remembers(net, hop.at + Dir(hop.heading))
    ensures i < |r.boards| && j < |r.boards| && SpacedSoFar(r, i, j)
  {
    hide Complete, Genuine, Accepts, Remembers, Due;
    TookShape(net, r, hop);
    hide Took;
    DueSame(net, r);
    var p := net.wires[hop][0];
    forall a: nat, b: nat | Follows(r, i, j, a, b) && b <= r.mark[j][i] ensures GoodGap(b - a) {
      assert Follows(net, i, j, a, b);
      if j == hop.at + Dir(hop.heading) && i == p.from {
        SpacingLearned(net, hop, a, b);
      }
    }
  }

  lemma ArriveJudges(net: Net, hop: Hop)
    requires Complete(net) && Labelled(net) && AtEnd(net, hop) && Accepts(net, hop)
    requires Judged(net) && |net.boards| <= MAX_BOARDS + 1
    ensures Next(net, Arrive(hop)).Shaped() && Judged(Next(net, Arrive(hop)))
  {
    hide Next, Accepts, Genuine, Took, SpacedSoFar, Remembers;
    var r := Next(net, Arrive(hop));
    HeadIsGenuine(net, hop);
    ArriveCompletes(net, hop);
    TookShape(net, r, hop);
    forall j | 0 <= j < |r.boards| ensures Remembers(r, j) {
      assert WindowOk(net, j);
      ArrivalRemembers(net, r, hop, j);
    }
    forall i, j | 0 <= i < |r.boards| && 0 <= j < |r.boards| ensures SpacedSoFar(r, i, j) {
      ArrivalSpaced(net, r, hop, i, j);
    }
  }

  lemma QuietJudges(net: Net, r: Net)
    requires Invariant(net) && Judged(net) && r.Shaped() && SameFrames(net, r)
    requires r.boards == net.boards && r.mark == net.mark
    ensures Judged(r)
  {
    hide Due, FirstOf;
    forall j | 0 <= j < |r.boards| ensures Remembers(r, j) {
      assert Remembers(net, j);
    }
    forall i, j | 0 <= i < |r.boards| && 0 <= j < |r.boards| ensures SpacedSoFar(r, i, j) {
      assert SpacedSoFar(net, i, j) && MarkOk(net, j, i);
      forall a: nat, b: nat | Follows(r, i, j, a, b) && b <= r.mark[j][i] ensures GoodGap(b - a) {
        forall m: nat | a <= m <= b ensures Due(r, i, m, j) <==> Due(net, i, m, j) {
          DueStays(net, r, i, m, j);
        }
        assert Follows(net, i, j, a, b);
      }
    }
  }

  lemma StepJudges(net: Net, step: Step)
    requires Complete(net) && Labelled(net) && !step.Lose? && !Refuses(net, step)
    requires Judged(net) && |net.boards| <= MAX_BOARDS + 1
    ensures Next(net, step).Shaped() && Judged(Next(net, step))
  {
    hide Judged, Taking, Accepts, WiresComplete, BoardsComplete, SameFrames;
    NextIsSame(net, step);
    NextKeeps(net, step);
    match step
    case Send(i, typ, dst, payload) => QuietJudges(net, Next(net, step));
    case Arrive(hop) =>
      if hop in net.wires && net.wires[hop] != [] && 0 <= hop.at + Dir(hop.heading) < |net.boards| {
        CompleteShape(net, hop);
        ArriveJudges(net, hop);
      } else {
        QuietJudges(net, Next(net, step));
      }
  }

  lemma StartsJudged(addrs: seq<Addr>)
    requires Distinct(addrs)
    ensures Initial(addrs).Shaped() && Judged(Initial(addrs))
  {
    hide Due;
    InitialKeeps(addrs);
    var net := Initial(addrs);
    forall i, j | 0 <= i < |net.boards| && 0 <= j < |net.boards| ensures SpacedSoFar(net, i, j) {
    }
  }

  lemma {:induction false} AcceptedIsJudged(addrs: seq<Addr>, steps: seq<Step>)
    requires Distinct(addrs) && |addrs| <= MAX_BOARDS + 1 && Lossless(steps) && NeverRefused(addrs, steps)
    ensures Complete(Reach(addrs, steps)) && Judged(Reach(addrs, steps)) && |Reach(addrs, steps).boards| == |addrs|
  {
    hide Next, Complete, Refuses, Judged;
    AcceptedIsComplete(addrs, steps);
    if steps == [] {
      StartsJudged(addrs);
    } else {
      var pre, step := steps[..|steps| - 1], steps[|steps| - 1];
      NeverRefusedPrefix(addrs, steps, |steps| - 1);
      AcceptedIsJudged(addrs, pre);
      InvariantIsLabelled(Reach(addrs, pre));
      NextIsSame(Reach(addrs, pre), step);
      StepJudges(Reach(addrs, pre), step);
    }
  }

  ghost predicate Silent(net: Net) {
    forall hop: Hop :: hop in net.wires ==> net.wires[hop] == []
  }

  lemma SilentIsSpaced(net: Net)
    requires Complete(net) && Judged(net) && Silent(net)
    ensures Spaced(net)
  {
    hide Due;
    forall i, j, a: nat, b: nat | 0 <= i < |net.boards| && 0 <= j < |net.boards| && Follows(net, i, j, a, b)
      ensures GoodGap(b - a)
    {
      Whereabouts(net, i, b, j);
      assert SpacedSoFar(net, i, j);
    }
  }

  /** Exactly that: on up to 17 boards, once the wires are silent after a run without losses,
      no frame was ever refused if and only if the sources were heard often enough. */
  lemma NothingRefusedIffSpaced(addrs: seq<Addr>, steps: seq<Step>)
    requires Distinct(addrs) && |addrs| <= MAX_BOARDS + 1 && Lossless(steps) && Silent(Reach(addrs, steps))
    ensures NeverRefused(addrs, steps) <==> Spaced(Reach(addrs, steps))
  {
    hide Reach, Spaced, NeverRefused, Complete, Judged;
    if NeverRefused(addrs, steps) {
      AcceptedIsJudged(addrs, steps);
      SilentIsSpaced(Reach(addrs, steps));
    }
    if Spaced(Reach(addrs, steps)) {
      SpacedIsComplete(addrs, steps);
    }
  }

  // ---- A lull that is too long ----

  const THREE: seq<Addr> := [1, 2, 3]

  /** The first board of three sends one frame, and it goes all the way. */
  function Whole(dst: Addr): seq<Step> {
    [Send(0, 2, dst, []), Arrive(Hop(0, Tailward)), Arrive(Hop(1, Tailward)), Arrive(Hop(2, Tailward)),
     Arrive(Hop(0, Headward))]
  }

  /** After one broadcast, k frames for the second board only. */
  function Lull(k: nat): seq<Step> {
    if k == 0 then Whole(ADDR_BROADCAST) else Lull(k - 1) + Whole(2)
  }

  function Five(net: Net, dst: Addr): Net
    requires Invariant(net)
  {
    var steps := Whole(dst);
    NextKeeps(net, steps[0]);
    var n1 := Next(net, steps[0]);
    NextKeeps(n1, steps[1]);
    var n2 := Next(n1, steps[1]);
    NextKeeps(n2, steps[2]);
    var n3 := Next(n2, steps[2]);
    NextKeeps(n3, steps[3]);
    var n4 := Next(n3, steps[3]);
    NextKeeps(n4, steps[4]);
    Next(n4, steps[4])
  }

  lemma ReachOne(addrs: seq<Addr>, steps: seq<Step>, step: Step)
    requires Distinct(addrs)
    ensures Labelled(Reach(addrs, steps)) && Reach(addrs, steps + [step]) == Next(Reach(addrs, steps), step)
  {
    hide Next;
    NextKeeps(Reach(addrs, steps), step);
    assert (steps + [step])[..|steps|] == steps;
  }

  lemma ReachFive(addrs: seq<Addr>, steps: seq<Step>, dst: Addr)
    requires Distinct(addrs)
    ensures Reach(addrs, steps + Whole(dst)) == Five(Reach(addrs, steps), dst)
  {
    hide Next, Reach;
    var w := Whole(dst);
    var s1 := steps + [w[0]];
    var s2 := s1 + [w[1]];
    var s3 := s2 + [w[2]];
    var s4 := s3 + [w[3]];
    assert steps + w == s4 + [w[4]];
    ReachOne(addrs, steps, w[0]);
    ReachOne(addrs, s1, w[1]);
    ReachOne(addrs, s2, w[2]);
    ReachOne(addrs, s3, w[3]);
    ReachOne(addrs, s4, w[4]);
  }

  /** The window's first entry is for the first board, at this number. */
  predicate At(t: seq<Seen>, high: U16) {
    |t| == MAX_BOARDS && t[0] == Seen(true, true, 1, high)
  }

  /** After a lull of k frames: the second board has heard them all, the third only the first. */
  ghost predicate Lulled(net: Net, k: nat) {
    && net.Shaped() && |net.boards| == 3 && Silent(net)
    && net.boards[0].addr == 1 && net.boards[1].addr == 2 && net.boards[2].addr == 3
    && |net.sent[0]| == k + 1
    && At(net.boards[1].seen, k % 0x1_0000) && At(net.boards[2].seen, 0)
    && |net.boards[2].got| == 1 && net.boards[2].got[0].number == 0
  }

  lemma KnownFirst(t: seq<Seen>, high: U16, seqNo: U16)
    requires At(t, high)
    ensures Fresh(t, 1, seqNo) <==> Ahead(high, seqNo)
    ensures Ahead(high, seqNo) ==> At(Noted(t, 1, seqNo), seqNo)
    ensures !Ahead(high, seqNo) ==> Noted(t, 1, seqNo) == t
  {
    assert FirstOf(t, 1, true, 0) == Some(0);
  }

  lemma OneAhead(k: nat)
    ensures Ahead(k % 0x1_0000, (k + 1) % 0x1_0000)
  {
    AheadOfCounter(k, k + 1);
  }

  lemma LullGoesOn(net: Net, k: nat)
    requires Invariant(net) && Lulled(net, k)
    ensures Lulled(Five(net, 2), k + 1)
  {
    hide Fresh, Noted, Ahead, Invariant;
    OneAhead(k);
    KnownFirst(net.boards[1].seen, k % 0x1_0000, (k + 1) % 0x1_0000);
  }

  /** Three boards that have said nothing yet. */
  ghost predicate Unheard(net: Net) {
    && net.Shaped() && |net.boards| == 3 && Silent(net) && net.sent[0] == []
    && net.boards[0].addr == 1 && net.boards[1].addr == 2 && net.boards[2].addr == 3
    && net.boards[1].seen == net.boards[2].seen == seq(MAX_BOARDS, _ => UNSEEN) && net.boards[2].got == []
  }

  lemma ThreeAreUnheard()
    ensures Distinct(THREE) && Invariant(Initial(THREE)) && Unheard(Initial(THREE))
  {
    InitialKeeps(THREE);
  }

  lemma LullStarts(net: Net)
    requires Invariant(net) && Unheard(net)
    ensures Lulled(Five(net, ADDR_BROADCAST), 0)
  {
    hide Noted, Fresh, Invariant;
    FirstHeard(net.boards[1].seen);
  }

  lemma FirstHeard(t: seq<Seen>)
    requires t == seq(MAX_BOARDS, _ => UNSEEN)
    ensures Fresh(t, 1, 0) && At(Noted(t, 1, 0), 0)
  {
    assert FirstOf(t, 1, true, 0).None?;
    assert FirstOf(t, 1, false, 0) == Some(0);
  }

  lemma {:induction false} LullIsLossless(k: nat)
    ensures Lossless(Lull(k)) && Lossless(Lull(k) + Whole(ADDR_BROADCAST))
  {
    if k > 0 {
      LullIsLossless(k - 1);
    }
  }

  lemma {:induction false} LullHolds(k: nat)
    ensures Distinct(THREE) && Lulled(Reach(THREE, Lull(k)), k)
  {
    hide Five, Lulled, Reach, Whole, Invariant;
    ThreeAreUnheard();
    if k == 0 {
      ReachNone(THREE);
      ReachFive(THREE, [], ADDR_BROADCAST);
      assert [] + Whole(ADDR_BROADCAST) == Whole(ADDR_BROADCAST);
      LullStarts(Initial(THREE));
    } else {
      LullHolds(k - 1);
      ReachFive(THREE, Lull(k - 1), 2);
      LullGoesOn(Reach(THREE, Lull(k - 1)), k - 1);
    }
  }

  lemma ReachNone(addrs: seq<Addr>)
    requires Distinct(addrs)
    ensures Reach(addrs, []) == Initial(addrs)
  {
  }

  /** A refused frame is gone, and nobody has noticed. */
  lemma RefusedIsDropped(net: Net, hop: Hop)
    requires AtEnd(net, hop) && Labelled(net) && !Accepts(net, hop)
    requires net.wires[hop][0].frame.src != net.boards[hop.at + Dir(hop.heading)].addr
    ensures var r, j := Next(net, Arrive(hop)), hop.at + Dir(hop.heading);
            && r == net.(wires := net.wires[hop := net.wires[hop][1..]], boards := r.boards)
            && r.boards == net.boards[j := net.boards[j].(seen := r.boards[j].seen)]
  {
    hide Fresh, Noted;
  }

  lemma SendFromSilence(net: Net, dst: Addr)
    requires net.Shaped() && Labelled(net) && |net.boards| == 3 && Silent(net)
    ensures var f := Originated(net.boards[0].addr, 2, dst, |net.sent[0]| % 0x1_0000, []);
            var p := Packet(f, 0, |net.sent[0]|);
            Next(net, Send(0, 2, dst, [])) ==
              net.(wires := net.wires[Hop(0, Headward) := [p]][Hop(0, Tailward) := [p]],
                   sent := net.sent[0 := net.sent[0] + [f]])
  {
    var f := Originated(net.boards[0].addr, 2, dst, |net.sent[0]| % 0x1_0000, []);
    var p := Packet(f, 0, |net.sent[0]|);
    assert net.wires[Hop(0, Headward)] + [p] == [p] && net.wires[Hop(0, Tailward)] + [p] == [p];
  }

  lemma OffTheEnd(net: Net, hop: Hop)
    requires net.Shaped() && Labelled(net) && hop in net.wires
    requires net.wires[hop] == [] || (|net.wires[hop]| == 1 && !(0 <= hop.at + Dir(hop.heading) < |net.boards|))
    ensures Next(net, Arrive(hop)) == net.(wires := net.wires[hop := []])
  {
    if net.wires[hop] != [] {
      assert net.wires[hop][1..] == [];
    } else {
      assert net.wires[hop := []] == net.wires;
    }
  }

  /** The last broadcast has been taken by the second board and is on the wire to the third. */
  ghost predicate AtThird(net: Net, r: Net, p: Packet, q: Packet) {
    && r.Shaped() && |r.boards| == |net.boards| == 3 && r.boards[2] == net.boards[2]
    && |r.sent[0]| == 65537 && r.sent[0][65536].dst == ADDR_BROADCAST
    && r.wires == net.wires[Hop(0, Headward) := [p]][Hop(0, Tailward) := []][Hop(1, Tailward) := [q]]
    && q.frame.src == 1 && q.frame.seqNo == 0 && q.from == 0
  }

  lemma SecondTakes(net: Net, n1: Net) returns (p: Packet, q: Packet)
    requires Lulled(net, 65535) && Labelled(net) && n1 == Next(net, Whole(ADDR_BROADCAST)[0])
    requires Labelled(n1) && n1.Shaped()
    ensures AtThird(net, Next(n1, Whole(ADDR_BROADCAST)[1]), p, q)
  {
    SendFromSilence(net, ADDR_BROADCAST);
    hide Next, Fresh, Noted, Ahead;
    OneAhead(65535);
    KnownFirst(net.boards[1].seen, 65535, 0);
    var hop := Hop(0, Tailward);
    AcceptedIsTaken(n1, hop);
    p := n1.wires[hop][0];
    q := p.(frame := p.frame.(ttl := p.frame.ttl - 1));
    assert n1.wires[hop][1..] == [];
    assert n1.wires[Hop(1, Tailward)] + [q] == [q];
  }

  lemma ThirdRefuses(net: Net, n2: Net, p: Packet, q: Packet)
    requires Lulled(net, 65535) && AtThird(net, n2, p, q) && Labelled(n2)
    ensures var n3 := Next(n2, Whole(ADDR_BROADCAST)[2]);
            && n3.Shaped() && |n3.boards| == 3 && n3.boards[2].got == net.boards[2].got && n3.sent == n2.sent
            && n3.wires == net.wires[Hop(0, Headward) := [p]][Hop(0, Tailward) := []][Hop(1, Tailward) := []]
  {
    hide Next, Fresh, Noted, Ahead;
    KnownFirst(net.boards[2].seen, 0, 0);
    NotAheadOfItself(0);
    var hop := Hop(1, Tailward);
    assert n2.wires[hop] == [q];
    RefusedIsDropped(n2, hop);
    assert [q][1..] == [];
  }

  lemma LullEnds(net: Net)
    requires Invariant(net) && Lulled(net, 65535)
    ensures var r := Five(net, ADDR_BROADCAST);
            && r.Shaped() && |r.boards| == 3 && Silent(r)
            && |r.sent[0]| == 65537 && r.sent[0][65536].dst == ADDR_BROADCAST
            && r.boards[2].got == net.boards[2].got
  {
    hide Next, Invariant;
    var w := Whole(ADDR_BROADCAST);
    NextKeeps(net, w[0]);
    var n1 := Next(net, w[0]);
    NextKeeps(n1, w[1]);
    InvariantIsShaped(n1);
    var p, q := SecondTakes(net, n1);
    var n2 := Next(n1, w[1]);
    NextKeeps(n2, w[2]);
    ThirdRefuses(net, n2, p, q);
    var n3 := Next(n2, w[2]);
    NextKeeps(n3, w[3]);
    OffTheEnd(n3, Hop(2, Tailward));
    var n4 := Next(n3, w[3]);
    NextKeeps(n4, w[4]);
    InvariantIsShaped(n4);
    OffTheEnd(n4, Hop(0, Headward));
  }

  lemma InvariantIsShaped(net: Net)
    requires Invariant(net)
    ensures net.Shaped()
  {
  }

  lemma NotAheadOfItself(high: U16)
    ensures !Ahead(high, high)
  {
  }

  /** A run past the bound: nothing is lost, and yet after 65535 frames that stop short of it
      the third board takes the next broadcast for the first one, and never gets it. */
  lemma LullDropsABroadcast()
    ensures Distinct(THREE) && Lossless(Lull(65535) + Whole(ADDR_BROADCAST))
    ensures var net := Reach(THREE, Lull(65535) + Whole(ADDR_BROADCAST));
            && Silent(net) && |net.boards| == 3 && |net.sent| == 3 && |net.sent[0]| == 65537
            && net.sent[0][65536].dst == ADDR_BROADCAST && !Holds(net.boards[2].got, 0, 65536)
  {
    hide Five, Reach, Lull;
    LullIsLossless(65535);
    LullHolds(65535);
    ReachFive(THREE, Lull(65535), ADDR_BROADCAST);
    LullEnds(Reach(THREE, Lull(65535)));
  }
}
