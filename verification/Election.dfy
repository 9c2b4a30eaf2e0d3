/** A chain of boards that has settled on one holder of the role and one standby, and why it
    stays settled. */
module Election {
  import opened Types
  import opened Uhrp

  /** A hello on its way. Messages are never used up, so each may be lost, repeated and
      overtaken by others. */
  datatype Message = Message(src: Addr, hello: Hello)

  datatype Chain = Chain(boards: seq<State>, wire: set<Message>)

  datatype Step =
    | Tick(i: nat, now: Time)
    | Announce(i: nat)
    | Deliver(i: nat, m: Message, now: Time)
    | Keys(i: nat, held: bool)
    | Drain(i: nat)

  function Next(c: Chain, step: Step): Chain {
    if step.i >= |c.boards| then c
    else
      var u := c.boards[step.i];
      match step
      case Tick(i, now) => c.(boards := c.boards[i := Ticked(u, now)])
      case Announce(i) => c.(wire := c.wire + {Message(u.cfg.addr, Announcement(u))})
      case Deliver(i, m, now) =>
        if m in c.wire then c.(boards := c.boards[i := HelloHeard(u, m.src, m.hello, now)]) else c
      case Keys(i, held) => c.(boards := c.boards[i := u.(keysHeld := held)])
      case Drain(i) => c.(boards := c.boards[i := Drained(u)])
  }

  /** At this step no peer has been silent for the hold time, but for the one speaking. */
  ghost predicate Timely(c: Chain, step: Step) {
    (step.Tick? || step.Deliver?) && step.i < |c.boards| ==>
      var u := c.boards[step.i];
      forall p: Peer :: Some(p) in u.peers && (step.Deliver? ==> p.addr != step.m.src) ==>
        Live(u.cfg.timing, p, step.now)
  }

  // ---- Settled ----

  predicate Describes(p: Peer, b: State) {
    && p.addr == b.cfg.addr && p.rank == b.cfg.rank && p.preempt == b.cfg.preempt
    && (p.role == Active <==> b.role == Active)
  }

  ghost predicate OneEntryEach(peers: Table) {
    forall x, y :: 0 <= x < y < |peers| && peers[x].Some? && peers[y].Some? ==>
      peers[x].value.addr != peers[y].value.addr
  }

  /** Every entry describes another board as it is. */
  ghost predicate TrueOf(boards: seq<State>, i: nat, peers: Table) {
    forall p: Peer :: Some(p) in peers ==> exists j :: 0 <= j < |boards| && j != i && Describes(p, boards[j])
  }

  /** Every other board has an entry. */
  ghost predicate Covers(boards: seq<State>, i: nat, peers: Table) {
    forall j :: 0 <= j < |boards| && j != i ==> Find(peers, boards[j].cfg.addr).Some?
  }

  /** Board i's table has one entry for every other board and describes them all as they are. */
  ghost predicate Knows(boards: seq<State>, i: nat, peers: Table) {
    TrueOf(boards, i, peers) && Covers(boards, i, peers) && OneEntryEach(peers)
  }

  ghost predicate Distinct(boards: seq<State>) {
    && (forall i, j :: 0 <= i < j < |boards| ==> boards[i].cfg.addr != boards[j].cfg.addr)
    && (forall i :: 0 <= i < |boards| ==> boards[i].cfg.rank.priority > 0)
  }

  /** s is the best board that does not hold the role. */
  ghost predicate Second(boards: seq<State>, a: nat, s: nat) {
    if |boards| == 1 then s == a
    else
      && s < |boards| && s != a
      && forall j :: 0 <= j < |boards| && j != a && j != s ==> Better(boards[s].cfg.rank, boards[j].cfg.rank)
  }

  /** No board is both the best of all, better than a, and asking for the role. */
  ghost predicate Unchallenged(boards: seq<State>, a: nat)
    requires a < |boards|
  {
    forall j :: 0 <= j < |boards| && boards[j].cfg.preempt && Better(boards[j].cfg.rank, boards[a].cfg.rank) ==>
      exists k :: 0 <= k < |boards| && Better(boards[k].cfg.rank, boards[j].cfg.rank)
  }

  function StandbyAddr(boards: seq<State>, a: nat, s: nat): Addr
    requires s < |boards|
  {
    if s == a then ADDR_NONE else boards[s].cfg.addr
  }

  ghost predicate InPlace(boards: seq<State>, a: nat, s: nat, i: nat)
    requires a < |boards| && s < |boards| && i < |boards|
  {
    var u := boards[i];
    && u.started && u.cfg.timing.holdMs > 0 && u.standby == StandbyAddr(boards, a, s)
    && (i == a ==> u.role == Active && !u.resignPending)
    && (i != a ==> u.role == (if i == s then Standby else Listen) && u.active == boards[a].cfg.addr && u.activeValid)
  }

  ghost predicate Settled(boards: seq<State>, a: nat, s: nat) {
    && a < |boards| && s < |boards|
    && Distinct(boards) && Second(boards, a, s) && Unchallenged(boards, a)
    && (forall i :: 0 <= i < |boards| ==> InPlace(boards, a, s, i))
    && (forall i :: 0 <= i < |boards| ==> Knows(boards, i, boards[i].peers))
  }

  ghost predicate Truthful(boards: seq<State>, m: Message) {
    exists j :: 0 <= j < |boards| && Describes(HeardFrom(m.src, m.hello, 0), boards[j])
  }

  ghost predicate Converged(c: Chain, a: nat, s: nat) {
    && Settled(c.boards, a, s)
    && forall m :: m in c.wire ==> Truthful(c.boards, m)
  }

  // ---- One board's judgement ----

  lemma AllLiveStay(t: Timing, peers: Table, now: Time)
    requires forall p: Peer :: Some(p) in peers ==> Live(t, p, now)
    ensures Aged(t, peers, now) == peers
  {
    hide Live;
    forall i | 0 <= i < |peers| ensures Kept(t, peers[i], now) == peers[i] {
      if peers[i].Some? {
        assert Some(peers[i].value) in peers;
      }
    }
  }

  /** The entry of the holder is the only active one. */
  lemma HolderIsFound(boards: seq<State>, a: nat, s: nat, i: nat, peers: Table)
    requires a < |boards| && s < |boards| && i < |boards|
    requires forall k :: 0 <= k < |boards| ==> InPlace(boards, a, s, k)
    requires Distinct(boards) && Knows(boards, i, peers)
    ensures i == a ==> FirstActive(peers).None?
    ensures i != a ==> FirstActive(peers).Some? && FirstActive(peers).value.addr == boards[a].cfg.addr
  {
    hide Find, FirstActive;
    if i != a {
      var k := Find(peers, boards[a].cfg.addr).value;
      assert Some(peers[k].value) in peers;
      var j :| 0 <= j < |boards| && j != i && Describes(peers[k].value, boards[j]);
      assert j == a && InPlace(boards, a, s, a);
      assert FirstActive(peers).Some?;
    }
    var act := FirstActive(peers);
    if act.Some? {
      assert Some(act.value) in peers;
      var j :| 0 <= j < |boards| && j != i && Describes(act.value, boards[j]);
      assert InPlace(boards, a, s, j);
    }
  }

  lemma BetterIsAsymmetric(x: Rank, y: Rank)
    requires Better(x, y)
    ensures !Better(y, x) && x != y
  {
  }

  /** Every board elects the same standby. */
  lemma StandbyIsElected(boards: seq<State>, a: nat, s: nat, i: nat, peers: Table, first: Choice)
    requires a < |boards| && s < |boards| && i < |boards| && Second(boards, a, s) && Distinct(boards)
    requires forall k :: 0 <= k < |boards| ==> InPlace(boards, a, s, k)
    requires Knows(boards, i, peers)
    requires first == if i == a then Choice(Rank(0, 0), ADDR_NONE, false)
                      else Choice(boards[i].cfg.rank, boards[i].cfg.addr, true)
    ensures Backup(first, peers).addr == StandbyAddr(boards, a, s)
    ensures i != a ==> Backup(first, peers).isSelf == (i == s)
  {
    hide Find, Backup, Better;
    var r := Backup(first, peers);
    var j := ChosenBoard(boards, a, s, i, peers, first);
    if |boards| > 1 {
      NotBeaten(boards, a, s, i, peers, first);
      if i == a && r == first {
        ZeroIsBeaten(boards[s].cfg.rank);
      }
    }
  }

  lemma ZeroIsBeaten(x: Rank)
    requires x.priority > 0
    ensures Better(x, Rank(0, 0))
  {
  }

  /** The choice is a board that does not hold the role, if it is not the empty choice. */
  lemma ChosenBoard(boards: seq<State>, a: nat, s: nat, i: nat, peers: Table, first: Choice) returns (j: nat)
    requires a < |boards| && s < |boards| && i < |boards|
    requires forall k :: 0 <= k < |boards| ==> InPlace(boards, a, s, k)
    requires Knows(boards, i, peers)
    requires first == if i == a then Choice(Rank(0, 0), ADDR_NONE, false)
                      else Choice(boards[i].cfg.rank, boards[i].cfg.addr, true)
    ensures var r := Backup(first, peers);
            || (r == first && j == i)
            || (r != first && !r.isSelf && j < |boards| && j != a && j != i && r.rank == boards[j].cfg.rank
                  && r.addr == boards[j].cfg.addr)
  {
    hide Find, Backup, Better;
    var r := Backup(first, peers);
    j := i;
    if r != first {
      var k :| 0 <= k < |peers| && peers[k].Some? && peers[k].value.role != Active
               && r == Choice(peers[k].value.rank, peers[k].value.addr, false);
      assert Some(peers[k].value) in peers;
      j :| 0 <= j < |boards| && j != i && Describes(peers[k].value, boards[j]);
      assert InPlace(boards, a, s, a);
    }
  }

  /** Nothing chosen is beaten by the true standby. */
  lemma NotBeaten(boards: seq<State>, a: nat, s: nat, i: nat, peers: Table, first: Choice)
    requires a < |boards| && s < |boards| && i < |boards| && s != a && Distinct(boards)
    requires forall k :: 0 <= k < |boards| ==> InPlace(boards, a, s, k)
    requires Knows(boards, i, peers)
    requires i != a ==> first.rank == boards[i].cfg.rank
    ensures !Better(boards[s].cfg.rank, Backup(first, peers).rank)
  {
    hide Find, Backup;
    if s != i {
      var k := Find(peers, boards[s].cfg.addr).value;
      assert Some(peers[k].value) in peers;
      var j :| 0 <= j < |boards| && j != i && Describes(peers[k].value, boards[j]);
      assert j == s && InPlace(boards, a, s, s);
      assert !Challenges(peers[k], Backup(first, peers));
    }
  }

  /** Nobody in the table makes the holder yield. */
  lemma HolderStays(boards: seq<State>, a: nat, s: nat, u: State)
    requires a < |boards| && s < |boards| && Unchallenged(boards, a) && Distinct(boards)
    requires forall k :: 0 <= k < |boards| ==> InPlace(boards, a, s, k)
    requires Knows(boards, a, u.peers) && u.cfg == boards[a].cfg
    ensures !MustYield(u)
  {
    hide Find, FirstActive, Strongest;
    HolderIsFound(boards, a, s, a, u.peers);
    var own := u.cfg.rank;
    var best := Strongest(own, u.peers);
    if best != own && Asks(u.peers, best) {
      var k :| 0 <= k < |u.peers| && u.peers[k].Some? && u.peers[k].value.rank == best && u.peers[k].value.preempt;
      assert Some(u.peers[k].value) in u.peers;
      var j :| 0 <= j < |boards| && j != a && Describes(u.peers[k].value, boards[j]);
      var b :| 0 <= b < |boards| && Better(boards[b].cfg.rank, best);
      if b == a {
        BetterIsAsymmetric(best, own);
      } else {
        EntryOf(boards, a, b, u.peers);
      }
      assert false;
    }
  }

  lemma EntryOf(boards: seq<State>, i: nat, b: nat, peers: Table)
    requires i < |boards| && b < |boards| && b != i && Distinct(boards) && Knows(boards, i, peers)
    ensures exists k :: 0 <= k < |peers| && peers[k].Some? && peers[k].value.rank == boards[b].cfg.rank
  {
    hide Find;
    var k := Find(peers, boards[b].cfg.addr).value;
    assert Some(peers[k].value) in peers;
    var j :| 0 <= j < |boards| && j != i && Describes(peers[k].value, boards[j]);
    assert j == b;
    assert peers[k].value.rank == boards[b].cfg.rank;
  }

  /** In a settled chain, a board whose table is live and true judges nothing differently. */
  lemma Undisturbed(boards: seq<State>, a: nat, s: nat, i: nat, u: State, now: Time)
    requires Settled(boards, a, s) && i < |boards|
    requires u == boards[i].(peers := u.peers, clean := u.clean)
    requires Knows(boards, i, u.peers)
    requires forall p: Peer :: Some(p) in u.peers ==> Live(u.cfg.timing, p, now)
    ensures Evaluated(u, now) == u
  {
    hide Knows, Live, Aged, Backup, FirstActive, Strongest, MustYield, Distinct, Second, Unchallenged;
    assert InPlace(boards, a, s, i);
    AllLiveStay(u.cfg.timing, u.peers, now);
    HolderIsFound(boards, a, s, i, u.peers);
    StandbyIsElected(boards, a, s, i, u.peers, FirstChoice(u));
    assert Surveyed(u, now) == u;
    if i == a {
      HolderStays(boards, a, s, u);
    }
  }

  // ---- The chain ----

  /** Nothing about the role, the standby or the board itself has changed. */
  predicate Same(u: State, v: State) {
    v == u.(peers := v.peers, clean := v.clean, nextHello := v.nextHello, keysHeld := v.keysHeld, ev := v.ev)
  }

  /** No action but a hello has been asked for. */
  predicate OnlyHello(u: State, v: State) {
    v.ev == u.ev.(sendHello := v.ev.sendHello)
  }

  lemma KnowsFrame(boards: seq<State>, boards': seq<State>, i: nat, peers: Table)
    requires |boards'| == |boards| && Knows(boards, i, peers)
    requires forall k :: 0 <= k < |boards| ==> Same(boards[k], boards'[k])
    ensures Knows(boards', i, peers)
  {
    hide Find;
    forall p: Peer | Some(p) in peers ensures exists j :: 0 <= j < |boards'| && j != i && Describes(p, boards'[j]) {
      var j :| 0 <= j < |boards| && j != i && Describes(p, boards[j]);
      assert Describes(p, boards'[j]);
    }
  }

  lemma SettledFrame(boards: seq<State>, boards': seq<State>, a: nat, s: nat)
    requires |boards'| == |boards| && Settled(boards, a, s)
    requires forall k :: 0 <= k < |boards| ==> Same(boards[k], boards'[k])
    requires forall k :: 0 <= k < |boards| ==> Knows(boards, k, boards'[k].peers)
    ensures Settled(boards', a, s)
  {
    hide Knows;
    forall k | 0 <= k < |boards| ensures InPlace(boards', a, s, k) && Knows(boards', k, boards'[k].peers) {
      assert InPlace(boards, a, s, k);
      KnowsFrame(boards, boards', k, boards'[k].peers);
    }
    UnchallengedFrame(boards, boards', a);
  }

  lemma UnchallengedFrame(boards: seq<State>, boards': seq<State>, a: nat)
    requires a < |boards'| == |boards| && Unchallenged(boards, a)
    requires forall k :: 0 <= k < |boards| ==> Same(boards[k], boards'[k])
    ensures Unchallenged(boards', a)
  {
    forall j | 0 <= j < |boards| && boards'[j].cfg.preempt && Better(boards'[j].cfg.rank, boards'[a].cfg.rank)
      ensures exists k :: 0 <= k < |boards| && Better(boards'[k].cfg.rank, boards'[j].cfg.rank)
    {
      assert boards[j].cfg == boards'[j].cfg && boards[a].cfg == boards'[a].cfg;
      var k :| 0 <= k < |boards| && Better(boards[k].cfg.rank, boards[j].cfg.rank);
      assert boards'[k].cfg == boards[k].cfg;
    }
  }

  lemma TruthFrame(boards: seq<State>, boards': seq<State>, m: Message)
    requires |boards'| == |boards| && Truthful(boards, m)
    requires forall k :: 0 <= k < |boards| ==> Same(boards[k], boards'[k])
    ensures Truthful(boards', m)
  {
    var j :| 0 <= j < |boards| && Describes(HeardFrom(m.src, m.hello, 0), boards[j]);
    assert Describes(HeardFrom(m.src, m.hello, 0), boards'[j]);
  }

  /** A hello from another board lands on that board's entry and keeps the table true. */
  lemma HelloKeepsTable(boards: seq<State>, a: nat, s: nat, i: nat, m: Message, now: Time)
    requires Settled(boards, a, s) && i < |boards| && Truthful(boards, m) && m.src != boards[i].cfg.addr
    ensures Place(boards[i].peers, m.src) == Find(boards[i].peers, m.src) && Find(boards[i].peers, m.src).Some?
    ensures Knows(boards, i,
                  boards[i].peers[Find(boards[i].peers, m.src).value := Some(HeardFrom(m.src, m.hello, now))])
  {
    hide InPlace, Second, Unchallenged, Distinct;
    var peers := boards[i].peers;
    var e := HeardFrom(m.src, m.hello, now);
    var j :| 0 <= j < |boards| && Describes(HeardFrom(m.src, m.hello, 0), boards[j]);
    assert Describes(e, boards[j]);
    assert Knows(boards, i, peers);
    EntryReplaced(boards, i, j, peers, Find(peers, m.src).value, e);
  }

  lemma EntryReplaced(boards: seq<State>, i: nat, j: nat, peers: Table, at: nat, e: Peer)
    requires Knows(boards, i, peers) && j < |boards| && j != i && Describes(e, boards[j])
    requires at < |peers| && peers[at].Some? && peers[at].value.addr == e.addr
    ensures Knows(boards, i, peers[at := Some(e)])
  {
    hide TrueOf, Covers, OneEntryEach, Describes;
    StillTrue(boards, i, j, peers, at, e);
    StillCovers(boards, i, peers, at, e);
    StillOneEach(peers, at, e);
  }

  lemma StillTrue(boards: seq<State>, i: nat, j: nat, peers: Table, at: nat, e: Peer)
    requires TrueOf(boards, i, peers) && j < |boards| && j != i && Describes(e, boards[j]) && at < |peers|
    ensures TrueOf(boards, i, peers[at := Some(e)])
  {
    hide Describes;
    forall p: Peer | Some(p) in peers[at := Some(e)]
      ensures exists k :: 0 <= k < |boards| && k != i && Describes(p, boards[k])
    {
      WasThere(peers, at, e, p);
    }
  }

  lemma WasThere(peers: Table, at: nat, e: Peer, p: Peer)
    requires at < |peers| && Some(p) in peers[at := Some(e)]
    ensures p == e || Some(p) in peers
  {
    var x :| 0 <= x < |peers| && peers[at := Some(e)][x] == Some(p);
    assert x != at ==> peers[x] == Some(p);
  }

  lemma StillCovers(boards: seq<State>, i: nat, peers: Table, at: nat, e: Peer)
    requires Covers(boards, i, peers) && at < |peers| && peers[at].Some? && peers[at].value.addr == e.addr
    ensures Covers(boards, i, peers[at := Some(e)])
  {
    hide Find;
    forall k | 0 <= k < |boards| && k != i ensures Find(peers[at := Some(e)], boards[k].cfg.addr).Some? {
      StillFound(peers, at, e, boards[k].cfg.addr);
    }
  }

  lemma StillOneEach(peers: Table, at: nat, e: Peer)
    requires OneEntryEach(peers) && at < |peers| && peers[at].Some? && peers[at].value.addr == e.addr
    ensures OneEntryEach(peers[at := Some(e)])
  {
  }

  lemma StillFound(peers: Table, at: nat, e: Peer, addr: Addr)
    requires at < |peers| && peers[at].Some? && peers[at].value.addr == e.addr && Find(peers, addr).Some?
    ensures Find(peers[at := Some(e)], addr).Some?
  {
    hide Find;
    var x := Find(peers, addr).value;
    assert peers[at := Some(e)][x].Some? && peers[at := Some(e)][x].value.addr == addr;
  }

  lemma JustHeardIsLive(t: Timing, p: Peer, now: Time)
    requires t.holdMs > 0 && p.lastSeen == now
    ensures Live(t, p, now)
  {
  }

  /** Hearing a true hello disturbs nothing. */
  lemma DeliverKeeps(boards: seq<State>, a: nat, s: nat, i: nat, m: Message, now: Time)
    requires Settled(boards, a, s) && i < |boards| && Truthful(boards, m)
    requires forall p: Peer :: Some(p) in boards[i].peers && p.addr != m.src ==> Live(boards[i].cfg.timing, p, now)
    ensures var v := HelloHeard(boards[i], m.src, m.hello, now);
            Same(boards[i], v) && OnlyHello(boards[i], v) && Knows(boards, i, v.peers)
  {
    hide Evaluated, Knows, Live, Find, Place, Second, Unchallenged, Distinct, OneEntryEach;
    var u := boards[i];
    assert InPlace(boards, a, s, i);
    if m.src != u.cfg.addr {
      HelloKeepsTable(boards, a, s, i, m, now);
      var at := Find(u.peers, m.src).value;
      var n := HelloNoted(u, at, m.src, m.hello, now);
      OneEach(boards, i, u.peers);
      AllHeard(u, at, m, now);
      Undisturbed(boards, a, s, i, n, now);
    }
  }

  lemma OneEach(boards: seq<State>, i: nat, peers: Table)
    requires Knows(boards, i, peers)
    ensures OneEntryEach(peers)
  {
  }

  lemma AllHeard(u: State, at: nat, m: Message, now: Time)
    requires u.cfg.timing.holdMs > 0 && Find(u.peers, m.src) == Some(at)
    requires forall p: Peer :: Some(p) in u.peers && p.addr != m.src ==> Live(u.cfg.timing, p, now)
    requires OneEntryEach(u.peers)
    ensures forall p: Peer :: Some(p) in HelloNoted(u, at, m.src, m.hello, now).peers ==> Live(u.cfg.timing, p, now)
  {
    hide Live, Find;
    var peers := HelloNoted(u, at, m.src, m.hello, now).peers;
    JustHeardIsLive(u.cfg.timing, HeardFrom(m.src, m.hello, now), now);
    forall p: Peer | Some(p) in peers ensures Live(u.cfg.timing, p, now) {
      var k :| 0 <= k < |peers| && peers[k] == Some(p);
      if k != at {
        assert u.peers[k] == Some(p);
      }
    }
  }

  lemma TickKeeps(boards: seq<State>, a: nat, s: nat, i: nat, now: Time)
    requires Settled(boards, a, s) && i < |boards|
    requires forall p: Peer :: Some(p) in boards[i].peers ==> Live(boards[i].cfg.timing, p, now)
    ensures var v := Ticked(boards[i], now);
            Same(boards[i], v) && OnlyHello(boards[i], v) && Knows(boards, i, v.peers)
  {
    hide Evaluated, Knows, Live, Find, Lost, Second, Unchallenged, Distinct, TimeAfter, Add32;
    var u := boards[i];
    assert InPlace(boards, a, s, i);
    Undisturbed(boards, a, s, i, u.(clean := u.clean && !Lost(u, now)), now);
  }

  ghost predicate Unmoved(c: Chain, c': Chain) {
    |c'.boards| == |c.boards| && forall k :: 0 <= k < |c.boards| ==> Same(c.boards[k], c'.boards[k])
  }

  ghost predicate NothingAsked(c: Chain, c': Chain)
    requires |c'.boards| == |c.boards|
  {
    forall k :: 0 <= k < |c.boards| ==> OnlyHello(c.boards[k], c'.boards[k])
  }

  /** Putting v in board i's place, with nothing changed that matters, keeps the chain converged. */
  lemma PlacedKeeps(c: Chain, a: nat, s: nat, i: nat, v: State)
    requires Converged(c, a, s) && i < |c.boards| && Same(c.boards[i], v) && Knows(c.boards, i, v.peers)
    ensures Converged(c.(boards := c.boards[i := v]), a, s) && Unmoved(c, c.(boards := c.boards[i := v]))
  {
    hide Knows, Distinct, Second, Unchallenged, InPlace, Truthful;
    var boards' := c.boards[i := v];
    SettledFrame(c.boards, boards', a, s);
    forall m | m in c.wire ensures Truthful(boards', m) {
      TruthFrame(c.boards, boards', m);
    }
  }

  lemma AnnouncementIsTruthful(c: Chain, i: nat)
    requires i < |c.boards|
    ensures Truthful(c.boards, Message(c.boards[i].cfg.addr, Announcement(c.boards[i])))
  {
    assert Describes(HeardFrom(c.boards[i].cfg.addr, Announcement(c.boards[i]), 0), c.boards[i]);
  }

  lemma NextKeeps(c: Chain, a: nat, s: nat, step: Step)
    requires Converged(c, a, s) && Timely(c, step)
    ensures Converged(Next(c, step), a, s) && Unmoved(c, Next(c, step))
    ensures !step.Drain? ==> NothingAsked(c, Next(c, step))
  {
    hide Settled, Truthful, Ticked, HelloHeard, Knows, Live, Announcement;
    if step.i < |c.boards| {
      var i := step.i;
      var u := c.boards[i];
      KnowsOf(c, a, s, i);
      match step
      case Tick(_, now) =>
        TickKeeps(c.boards, a, s, i, now);
        PlacedKeeps(c, a, s, i, Ticked(u, now));
      case Announce(_) => AnnouncementIsTruthful(c, i);
      case Deliver(_, m, now) =>
        if m in c.wire {
          DeliverKeeps(c.boards, a, s, i, m, now);
          PlacedKeeps(c, a, s, i, HelloHeard(u, m.src, m.hello, now));
        }
      case Keys(_, held) => PlacedKeeps(c, a, s, i, u.(keysHeld := held));
      case Drain(_) => PlacedKeeps(c, a, s, i, Drained(u));
    }
  }

  lemma KnowsOf(c: Chain, a: nat, s: nat, i: nat)
    requires Converged(c, a, s) && i < |c.boards|
    ensures Knows(c.boards, i, c.boards[i].peers)
  {
    hide Knows;
  }

  function After(c: Chain, steps: seq<Step>): Chain {
    if steps == [] then c else Next(After(c, steps[..|steps| - 1]), steps[|steps| - 1])
  }

  ghost predicate AllTimely(c: Chain, steps: seq<Step>) {
    forall n :: 0 <= n < |steps| ==> Timely(After(c, steps[..n]), steps[n])
  }

  /** However ticks, announcements and deliveries interleave, as long as no peer is silent for
      the hold time a converged chain stays converged: the same board holds the role, the same
      board stands by, and every board knows it. */
  lemma {:induction false} ConvergedStays(c: Chain, a: nat, s: nat, steps: seq<Step>)
    requires Converged(c, a, s) && AllTimely(c, steps)
    ensures Converged(After(c, steps), a, s) && Unmoved(c, After(c, steps))
  {
    hide Converged, Timely, Next;
    if steps == [] {
      assert forall k :: 0 <= k < |c.boards| ==> Same(c.boards[k], c.boards[k]);
    } else {
      var pre := steps[..|steps| - 1];
      forall n | 0 <= n < |pre| ensures Timely(After(c, pre[..n]), pre[n]) {
        assert pre[..n] == steps[..n];
      }
      ConvergedStays(c, a, s, pre);
      NextKeeps(After(c, pre), a, s, steps[|steps| - 1]);
      assert forall k :: 0 <= k < |c.boards| ==> Same(c.boards[k], After(c, steps).boards[k]);
    }
  }

  /** Read off: in such a run no role and no standby choice ever changes, and at no step does
      any board ask for a resignation, a release or a promotion. */
  lemma NothingEverChanges(c: Chain, a: nat, s: nat, steps: seq<Step>, n: nat, i: nat)
    requires Converged(c, a, s) && AllTimely(c, steps) && n < |steps| && i < |c.boards|
    ensures |After(c, steps[..n]).boards| == |After(c, steps[..n + 1]).boards| == |c.boards|
    ensures var before, after := After(c, steps[..n]).boards[i], After(c, steps[..n + 1]).boards[i];
            && after.role == before.role == c.boards[i].role && (after.role == Active <==> i == a)
            && after.standby == c.boards[i].standby == StandbyAddr(c.boards, a, s)
            && (!steps[n].Drain? ==>
                  && after.ev.sendResign == before.ev.sendResign
                  && after.ev.release == before.ev.release
                  && after.ev.changed == before.ev.changed)
  {
    hide Next, Timely, Knows, Distinct, Second, Unchallenged;
    var pre, upto := steps[..n], steps[..n + 1];
    assert upto[..n] == pre;
    assert AllTimely(c, pre) by {
      forall k | 0 <= k < |pre| ensures Timely(After(c, pre[..k]), pre[k]) {
        assert pre[..k] == steps[..k];
      }
    }
    ConvergedStays(c, a, s, pre);
    NextKeeps(After(c, pre), a, s, steps[n]);
    assert InPlace(c.boards, a, s, i);
    assert Same(c.boards[i], After(c, pre).boards[i]);
    assert Same(After(c, pre).boards[i], After(c, upto).boards[i]);
  }

  // ---- Such chains exist ----

  function Alone(p: Peer): Table {
    [Some(p)] + seq(MAX_BOARDS - 1, _ => None)
  }

  /** A holder and a standby that have just heard each other. */
  function Pair(now: Time): seq<State> {
    var a := Config(1, Rank(200, 1), {}, false, DEFAULT_TIMING);
    var b := Config(2, Rank(100, 2), {}, true, DEFAULT_TIMING);
    [State(a, Active, 1, 2, now, now, false, false, 0, true, true, true,
           Alone(Peer(2, b.rank, Standby, true, {}, now)), NO_EVENTS),
     State(b, Standby, 1, 2, now, now, false, false, 0, true, true, true,
           Alone(Peer(1, a.rank, Active, false, {}, now)), NO_EVENTS)]
  }

  lemma AloneKnows(boards: seq<State>, i: nat, j: nat, p: Peer)
    requires |boards| == 2 && i < 2 && j < 2 && i != j && Describes(p, boards[j])
    ensures Knows(boards, i, Alone(p))
  {
    hide Find, Describes;
    var t := Alone(p);
    assert t[0] == Some(p);
    forall q: Peer | Some(q) in t ensures q == p {
    }
    assert p.addr == boards[j].cfg.addr by { DescribesAddr(p, boards[j]); }
    assert Find(t, p.addr).Some?;
  }

  lemma DescribesAddr(p: Peer, b: State)
    requires Describes(p, b)
    ensures p.addr == b.cfg.addr
  {
  }

  /** The two of them are a converged chain, so the results above are about something. */
  lemma PairIsConverged(now: Time)
    ensures Converged(Chain(Pair(now), {}), 0, 1)
  {
    hide Knows, Alone;
    var boards := Pair(now);
    AloneKnows(boards, 0, 1, Peer(2, Rank(100, 2), Standby, true, {}, now));
    AloneKnows(boards, 1, 0, Peer(1, Rank(200, 1), Active, false, {}, now));
  }
}
