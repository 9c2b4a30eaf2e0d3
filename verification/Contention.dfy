/** The election ends: what makes a board change its role, and why a chain without a holder of
    the role soon has one. */
module Contention {
  import opened Types
  import opened Uhrp
  import opened Handover
  import Election

  // ---- What a board sees ----

  ghost predicate Sees(u: State, p: Peer, now: Time) {
    Some(p) in u.peers && Live(u.cfg.timing, p, now)
  }

  /** Somebody who is heard holds the role. */
  ghost predicate Held(u: State, now: Time) {
    exists p: Peer :: Sees(u, p, now) && p.role == Active
  }

  /** Somebody who is heard is better than this board. */
  ghost predicate Outranked(u: State, now: Time) {
    exists p: Peer :: Sees(u, p, now) && Better(p.rank, u.cfg.rank)
  }

  /** Somebody better is heard who does not hold the role: this board is not the next in line. */
  ghost predicate Preceded(u: State, now: Time) {
    exists p: Peer :: Sees(u, p, now) && p.role != Active && Better(p.rank, u.cfg.rank)
  }

  lemma AgedIff(t: Timing, peers: Table, now: Time, p: Peer)
    ensures Some(p) in Aged(t, peers, now) <==> Some(p) in peers && Live(t, p, now)
  {
    hide Live;
    if Some(p) in peers && Live(t, p, now) {
      var i :| 0 <= i < |peers| && peers[i] == Some(p);
      assert Aged(t, peers, now)[i] == Kept(t, peers[i], now) == Some(p);
    }
    if Some(p) in Aged(t, peers, now) {
      AgedHolds(t, peers, now, Some(p));
    }
  }

  lemma HeldIsFound(u: State, now: Time)
    ensures var act := FirstActive(Aged(u.cfg.timing, u.peers, now));
            && (act.Some? <==> Held(u, now))
            && (act.Some? ==> Sees(u, act.value, now) && act.value.role == Active)
  {
    hide Live, Aged, FirstActive;
    var peers := Aged(u.cfg.timing, u.peers, now);
    var act := FirstActive(peers);
    if act.Some? {
      AgedIff(u.cfg.timing, u.peers, now, act.value);
    }
    if Held(u, now) {
      var p: Peer :| Sees(u, p, now) && p.role == Active;
      AgedIff(u.cfg.timing, u.peers, now, p);
      var i :| 0 <= i < |peers| && peers[i] == Some(p);
    }
  }

  lemma OutrankedIsFound(u: State, now: Time)
    ensures Strongest(u.cfg.rank, Aged(u.cfg.timing, u.peers, now)) != u.cfg.rank <==> Outranked(u, now)
  {
    hide Live, Aged, Strongest;
    var peers := Aged(u.cfg.timing, u.peers, now);
    var best := Strongest(u.cfg.rank, peers);
    if best != u.cfg.rank {
      var i :| 0 <= i < |peers| && peers[i].Some? && peers[i].value.rank == best;
      AgedIff(u.cfg.timing, u.peers, now, peers[i].value);
      assert peers[i] == Some(peers[i].value);
      assert Sees(u, peers[i].value, now);
    }
    if Outranked(u, now) {
      var p: Peer :| Sees(u, p, now) && Better(p.rank, u.cfg.rank);
      AgedIff(u.cfg.timing, u.peers, now, p);
      var i :| 0 <= i < |peers| && peers[i] == Some(p);
      assert !Better(peers[i].value.rank, best);
    }
  }

  lemma PrecededIsFound(u: State, now: Time)
    requires u.role != Active
    ensures Backup(FirstChoice(u), Aged(u.cfg.timing, u.peers, now)).isSelf <==> !Preceded(u, now)
  {
    hide Live, Aged, Backup, Better;
    var peers := Aged(u.cfg.timing, u.peers, now);
    var r := Backup(FirstChoice(u), peers);
    if !r.isSelf {
      var i :| 0 <= i < |peers| && peers[i].Some? && peers[i].value.role != Active
               && r == Choice(peers[i].value.rank, peers[i].value.addr, false);
      AgedIff(u.cfg.timing, u.peers, now, peers[i].value);
      assert peers[i] == Some(peers[i].value);
      assert Sees(u, peers[i].value, now);
    }
    if Preceded(u, now) {
      var p: Peer :| Sees(u, p, now) && p.role != Active && Better(p.rank, u.cfg.rank);
      AgedIff(u.cfg.timing, u.peers, now, p);
      var i :| 0 <= i < |peers| && peers[i] == Some(p);
      assert !Challenges(peers[i], r);
    }
  }

  // ---- What it makes of it ----

  /** The board may take the role if nobody stands in the way. */
  predicate Ripe(u: State, now: Time) {
    || u.role == Standby
    || (u.role == Speak && TimeAfter(now, Add32(u.entered, u.cfg.timing.holdMs)))
    || (u.role == Learn && TimeAfter(now, Add32(u.entered, u.cfg.timing.learnMs)))
  }

  /** The next role of a board that does not hold it. A board that learns waits out its time unless
      it hears a holder; a board that is in nobody's way takes the role when it is ripe, and until
      then contends; every other board follows, the best of them on standby. */
  ghost function NextRole(u: State, n: State, now: Time): Role {
    if u.role == Learn && !Held(n, now) && !Ripe(u, now) then Learn
    else if Held(n, now) || Outranked(n, now) then if Preceded(n, now) then Listen else Standby
    else if Ripe(u, now) then Active
    else Speak
  }

  /** What a decision leaves alone, and when the role was entered. */
  predicate Decided(s: State, v: State, now: Time) {
    && v.entered == (if v.role == s.role then s.entered else now)
    && v.cfg == s.cfg && v.peers == s.peers
    && (v.role == Active ==> !v.resignPending)
  }

  lemma EnteredDecides(s: State, role: Role, now: Time)
    requires role != Active
    ensures Decided(s, Entered(s, role, now), now) && Entered(s, role, now).role == role
  {
  }

  lemma PromotedDecides(s: State, now: Time, clean: bool)
    requires s.role != Active
    ensures Decided(s, Promoted(s, now, clean), now) && Promoted(s, now, clean).role == Active
  {
    hide Add32, PromotionEvents;
  }

  lemma AdoptedDecides(s: State, act: Peer, b: Choice, now: Time)
    ensures var v := Adopted(s, act, b, now);
            Decided(s, v, now) && v.role == (if b.isSelf then Standby else Listen) && v.active == act.addr
  {
    hide Decided;
    EnteredDecides(s.(active := act.addr, activeValid := true), Following(b), now);
    SameDecision(s, s.(active := act.addr, activeValid := true), Adopted(s, act, b, now), now);
    EnteredLeaves(s.(active := act.addr, activeValid := true), Following(b), now);
  }

  lemma EnteredLeaves(s: State, role: Role, now: Time)
    ensures Entered(s, role, now).active == s.active
  {
  }

  lemma SameDecision(s: State, s': State, v: State, now: Time)
    requires Decided(s', v, now) && s' == s.(active := s'.active, activeValid := s'.activeValid)
    ensures Decided(s, v, now)
  {
  }

  lemma JudgedRole(s: State, b: Choice, now: Time)
    requires s.role != Active && s.role != Init
    ensures var act, best := FirstActive(s.peers), Strongest(s.cfg.rank, s.peers);
            var v := Judged(s, b, now);
            && v.role == (if s.role == Learn && act.None? && !Ripe(s, now) then Learn
                          else if act.Some? || best != s.cfg.rank then if b.isSelf then Standby else Listen
                          else if Ripe(s, now) then Active
                          else Speak)
            && Decided(s, v, now) && (act.Some? ==> v.active == act.value.addr)
  {
    hide FirstActive, Strongest, Adopted, Decided, Ripe, Learning, Vacant, Serviced;
    var act := FirstActive(s.peers);
    if act.Some? {
      AdoptedDecides(s, act.value, b, now);
      if s.role == Learn {
        LearningAdopts(s, b, now);
      }
    } else if s.role == Learn {
      LearningRole(s, b, now);
    } else {
      VacantRole(s.(active := ADDR_NONE), b, now);
      SameDecision(s, s.(active := ADDR_NONE), Judged(s, b, now), now);
      SameRipe(s, now);
    }
  }

  lemma SameRipe(s: State, now: Time)
    ensures Ripe(s.(active := ADDR_NONE), now) == Ripe(s, now)
  {
    hide TimeAfter, Add32;
  }

  lemma LearningAdopts(s: State, b: Choice, now: Time)
    requires FirstActive(s.peers).Some?
    ensures Learning(s, b, now) == Adopted(s, FirstActive(s.peers).value, b, now)
  {
    hide FirstActive, Adopted;
  }

  lemma LearningRole(s: State, b: Choice, now: Time)
    requires s.role == Learn && FirstActive(s.peers).None?
    ensures var v := Learning(s, b, now);
            && Decided(s, v, now)
            && v.role == (if !Ripe(s, now) then Learn
                          else if Strongest(s.cfg.rank, s.peers) != s.cfg.rank then if b.isSelf then Standby else Listen
                          else Active)
  {
    hide FirstActive, Strongest, TimeAfter, Add32, Entered, Promoted, Decided;
    EnteredDecides(s, Following(b), now);
    PromotedDecides(s, now, true);
    Undecided(s, now);
  }

  lemma VacantRole(s: State, b: Choice, now: Time)
    requires s.role != Active && s.role != Init && s.role != Learn
    ensures var v := Vacant(s, b, now);
            && Decided(s, v, now)
            && v.role == (if Strongest(s.cfg.rank, s.peers) != s.cfg.rank then if b.isSelf then Standby else Listen
                          else if Ripe(s, now) then Active
                          else Speak)
  {
    hide Strongest, TimeAfter, Add32, Entered, Promoted, Decided;
    EnteredDecides(s, Following(b), now);
    EnteredDecides(s, Speak, now);
    PromotedDecides(s, now, s.clean);
    Undecided(s, now);
  }

  lemma Undecided(s: State, now: Time)
    requires s.role != Active
    ensures Decided(s, s, now)
  {
  }

  /** What every entry point that judges does to the role of a board that does not hold it, told
      by what the board hears. */
  lemma RoleDecision(u: State, step: Step)
    requires Sound(u) && u.role != Active && Noted(u, step).Some?
    ensures Timed(step)
    ensures var n, v := Noted(u, step).value, Next(u, step);
            && v.role == NextRole(u, n, step.now)
            && v.entered == (if v.role == u.role then u.entered else step.now)
            && (Held(n, step.now) ==>
                  exists p: Peer :: Sees(n, p, step.now) && p.role == Active && v.active == p.addr)
            && v.cfg == u.cfg && (v.role == Active ==> !v.resignPending)
            && (forall p: Peer :: Some(p) in v.peers ==> Some(p) in n.peers)
  {
    hide Noted, Next, Judged, Backup, Aged, FirstActive, Strongest, Held, Outranked, Preceded, Sees, TimeAfter, Add32;
    JudgingShape(u, step);
    NotedShape(u, step);
    var n, now := Noted(u, step).value, step.now;
    var s := Surveyed(n, now);
    HeldIsFound(n, now);
    OutrankedIsFound(n, now);
    PrecededIsFound(n, now);
    JudgedRole(s, Backup(FirstChoice(n), s.peers), now);
    forall p: Peer | Some(p) in s.peers ensures Some(p) in n.peers {
      AgedIff(n.cfg.timing, n.peers, now, p);
    }
  }

  lemma HolderStaysUnopposed(u: State, step: Step)
    requires Sound(u) && u.role == Active && !u.resignPending && Noted(u, step).Some?
    requires Timed(step) && !Held(Noted(u, step).value, step.now) && !Outranked(Noted(u, step).value, step.now)
    ensures Next(u, step).role == Active && !Next(u, step).resignPending && Next(u, step).cfg == u.cfg
    ensures forall p: Peer :: Some(p) in Next(u, step).peers ==> Some(p) in Noted(u, step).value.peers
  {
    hide Noted, Next, Backup, Aged, FirstActive, Strongest, Held, Outranked, TimeAfter, Add32;
    JudgingShape(u, step);
    NotedShape(u, step);
    var n, now := Noted(u, step).value, step.now;
    HeldIsFound(n, now);
    OutrankedIsFound(n, now);
    forall p: Peer | Some(p) in Surveyed(n, now).peers ensures Some(p) in n.peers {
      AgedIff(n.cfg.timing, n.peers, now, p);
    }
  }

  // ---- One board's runs ----

  /** If the step judges, nobody the board hears holds the role or is better. */
  ghost predicate Unopposed(u: State, step: Step) {
    Noted(u, step).Some? && Timed(step) ==>
      !Held(Noted(u, step).value, step.now) && !Outranked(Noted(u, step).value, step.now)
  }

  ghost predicate AllUnopposed(u: State, steps: seq<Step>) {
    forall k :: 0 <= k < |steps| ==> Unopposed(After(u, steps[..k]), steps[k])
  }

  function Earliest(first: Option<Time>, u: State, step: Step): Option<Time> {
    if first.Some? then first
    else if Noted(u, step).Some? && Timed(step) then Some(step.now)
    else None
  }

  /** When the run first judged. */
  function FirstJudged(u: State, steps: seq<Step>): Option<Time> {
    if steps == [] then None
    else
      var pre := steps[..|steps| - 1];
      Earliest(FirstJudged(u, pre), After(u, pre), steps[|steps| - 1])
  }

  /** How far an unopposed board has got: it holds the role, or waits as it did at first, or has
      contended since it first judged. */
  ghost predicate OnItsWay(u: State, v: State, first: Option<Time>) {
    && Sound(v) && v.cfg.timing == u.cfg.timing
    && (|| (v.role == Active && !v.resignPending)
        || (v.role == u.role && v.entered == u.entered && (u.role in {Listen, Standby} ==> first.None?))
        || (u.role == Listen && v.role == Speak && first == Some(v.entered)))
  }

  lemma OneStepOn(u: State, v: State, first: Option<Time>, step: Step)
    requires Sound(u) && u.role != Active && OnItsWay(u, v, first) && Unopposed(v, step)
    ensures OnItsWay(u, Next(v, step), Earliest(first, v, step))
  {
    hide Noted, Next, Held, Outranked, Preceded, TimeAfter, Add32;
    PendingStep(v, step);
    StepShape(v, step);
    if Noted(v, step).Some? {
      if v.role == Active {
        HolderStaysUnopposed(v, step);
      } else {
        RoleDecision(v, step);
      }
    }
  }

  lemma {:induction false} RunIsOnItsWay(u: State, steps: seq<Step>)
    requires Sound(u) && u.role != Active && AllUnopposed(u, steps)
    ensures OnItsWay(u, After(u, steps), FirstJudged(u, steps))
  {
    hide OnItsWay, Next, Unopposed, Noted;
    if steps == [] {
      NotYetOnItsWay(u);
    } else {
      var pre := steps[..|steps| - 1];
      assert forall k :: 0 <= k <= |pre| ==> pre[..k] == steps[..k];
      assert steps[..|pre|] == pre;
      RunIsOnItsWay(u, pre);
      OneStepOn(u, After(u, pre), FirstJudged(u, pre), steps[|steps| - 1]);
    }
  }

  lemma NotYetOnItsWay(u: State)
    requires Sound(u) && u.role != Active
    ensures OnItsWay(u, u, None)
  {
  }

  /** The instant from which an unopposed board counts, and how long it waits. */
  ghost predicate WaitedLongEnough(u: State, steps: seq<Step>, now: Time) {
    match u.role
    case Standby => true
    case Learn => TimeAfter(now, Add32(u.entered, u.cfg.timing.learnMs))
    case Speak => TimeAfter(now, Add32(u.entered, u.cfg.timing.holdMs))
    case _ =>
      FirstJudged(u, steps).Some? && TimeAfter(now, Add32(FirstJudged(u, steps).value, u.cfg.timing.holdMs))
  }

  /** Contention ends. A started board that does not hold the role, and at no step of a run hears
      anybody who holds it or is better, holds it after any tick, hello or resignation that finds
      it on standby, past its learning time, past the hold time of contending, or, if it was
      listening, a hold time after the run first judged. */
  lemma UnopposedBoardTakesTheRole(u: State, steps: seq<Step>, step: Step)
    requires Sound(u) && u.role != Active && AllUnopposed(u, steps) && Unopposed(After(u, steps), step)
    requires Timed(step) && Noted(After(u, steps), step).Some? && WaitedLongEnough(u, steps, step.now)
    ensures After(u, steps + [step]).role == Active && !After(u, steps + [step]).resignPending
  {
    hide Next, Noted, AllUnopposed, Unopposed, TimeAfter, Add32, After, FirstJudged;
    RunIsOnItsWay(u, steps);
    TakesItNow(After(u, steps), step);
    AfterOne(u, steps, step);
  }

  lemma AfterOne(u: State, steps: seq<Step>, step: Step)
    ensures After(u, steps + [step]) == Next(After(u, steps), step)
  {
    hide Next;
    assert (steps + [step])[..|steps|] == steps;
  }

  /** And from then on it keeps the role, for as long as nobody who holds it or is better is heard. */
  lemma {:induction false} UnopposedBoardKeepsTheRole(u: State, steps: seq<Step>)
    requires Sound(u) && u.role == Active && !u.resignPending && AllUnopposed(u, steps)
    ensures Sound(After(u, steps)) && After(u, steps).role == Active && !After(u, steps).resignPending
  {
    hide Next, Noted, Unopposed, Sound;
    if steps != [] {
      var pre, step := steps[..|steps| - 1], steps[|steps| - 1];
      assert forall k :: 0 <= k <= |pre| ==> pre[..k] == steps[..k];
      assert steps[..|pre|] == pre;
      UnopposedBoardKeepsTheRole(u, pre);
      var v := After(u, pre);
      PendingStep(v, step);
      StepShape(v, step);
      if Noted(v, step).Some? {
        TakesItNow(v, step);
      }
    }
  }

  lemma TakesItNow(v: State, step: Step)
    requires Sound(v) && Noted(v, step).Some? && Timed(step) && Unopposed(v, step)
    requires v.role == Active ==> !v.resignPending
    requires v.role != Active ==> Ripe(v, step.now)
    ensures Next(v, step).role == Active && !Next(v, step).resignPending
  {
    hide Noted, Next, Held, Outranked, Preceded;
    if v.role == Active {
      HolderStaysUnopposed(v, step);
    } else {
      RoleDecision(v, step);
    }
  }

  // ---- A chain without a holder ----

  /** The step as the board it happens to sees it. */
  function Felt(c: Election.Chain, step: Election.Step): Option<Step> {
    if step.i >= |c.boards| then None
    else
      match step
      case Tick(_, now) => Some(Step.Tick(now))
      case Deliver(_, m, now) => if m in c.wire then Some(HearHello(m.src, m.hello, now)) else None
      case Keys(_, held) => Some(Step.Keys(held))
      case Drain(_) => Some(Step.Drain)
      case Announce(_) => None
  }

  lemma StepIsFelt(c: Election.Chain, step: Election.Step)
    ensures var c' := Election.Next(c, step);
            && (Felt(c, step).Some? ==>
                  c'.boards == c.boards[step.i := Next(c.boards[step.i], Felt(c, step).value)] && c'.wire == c.wire)
            && (Felt(c, step).None? ==> c'.boards == c.boards)
            && (step.Announce? && step.i < |c.boards| ==>
                  var u := c.boards[step.i];
                  c'.wire == c.wire + {Election.Message(u.cfg.addr, Announcement(u))})
            && (!step.Announce? ==> c'.wire == c.wire)
            && (step.i >= |c.boards| ==> c' == c)
  {
    hide HelloHeard, Ticked;
  }

  /** What is said is true of a board other than number i, and only board b may be said to hold the
      role. */
  ghost predicate OfChain(boards: seq<State>, b: nat, i: nat, addr: Addr, rank: Rank, role: Role) {
    exists k :: 0 <= k < |boards| && k != i && boards[k].cfg.addr == addr && boards[k].cfg.rank == rank
                && (role == Active ==> k == b)
  }

  /** An address of none of these boards: one that is gone. */
  ghost predicate Gone(boards: seq<State>, addr: Addr) {
    forall k :: 0 <= k < |boards| ==> boards[k].cfg.addr != addr
  }

  ghost predicate FairTable(boards: seq<State>, b: nat, i: nat, peers: Table) {
    forall p: Peer :: Some(p) in peers ==> Gone(boards, p.addr) || OfChain(boards, b, i, p.addr, p.rank, p.role)
  }

  ghost predicate FairWire(boards: seq<State>, b: nat, wire: set<Election.Message>) {
    forall m :: m in wire ==> OfChain(boards, b, |boards|, m.src, m.hello.rank, m.hello.role)
  }

  /** Board b is the best, and nobody but b holds the role or is said to; what the tables say of
      boards that are gone may be anything. */
  ghost predicate Contending(c: Election.Chain, b: nat) {
    && b < |c.boards|
    && (forall i, j :: 0 <= i < j < |c.boards| ==> c.boards[i].cfg.addr != c.boards[j].cfg.addr)
    && (forall i :: 0 <= i < |c.boards| ==> Sound(c.boards[i]) && FairTable(c.boards, b, i, c.boards[i].peers))
    && (forall i :: 0 <= i < |c.boards| && i != b ==>
          Better(c.boards[b].cfg.rank, c.boards[i].cfg.rank) && c.boards[i].role != Active)
    && (c.boards[b].role == Active ==> !c.boards[b].resignPending)
    && FairWire(c.boards, b, c.wire)
  }

  /** At this step the board hears nobody who is gone, and if it is ripe for the role it does hear
      the best board. */
  ghost predicate Hears(c: Election.Chain, b: nat, step: Election.Step) {
    Felt(c, step).Some? && b < |c.boards| ==>
      var u, h := c.boards[step.i], Felt(c, step).value;
      Timed(h) && Noted(u, h).Some? ==>
        var n := Noted(u, h).value;
        && (forall p: Peer :: Sees(n, p, h.now) ==> !Gone(c.boards, p.addr))
        && (step.i != b && Ripe(u, h.now) ==>
              exists p: Peer :: Sees(n, p, h.now) && p.addr == c.boards[b].cfg.addr)
  }

  lemma NotedTable(u: State, h: Step)
    requires Noted(u, h).Some? && !h.HearResign?
    ensures var n := Noted(u, h).value;
            && n.cfg == u.cfg
            && forall p: Peer :: Some(p) in n.peers ==>
                 Some(p) in u.peers || (h.HearHello? && h.src != u.cfg.addr && p == HeardFrom(h.src, h.hello, h.now))
  {
    hide Place, Lost;
  }

  /** The board's table is still fair once it has noted what it hears. */
  lemma NotedIsFair(c: Election.Chain, b: nat, step: Election.Step)
    requires Contending(c, b) && Felt(c, step).Some? && Noted(c.boards[step.i], Felt(c, step).value).Some?
    ensures var n := Noted(c.boards[step.i], Felt(c, step).value).value;
            n.cfg == c.boards[step.i].cfg && FairTable(c.boards, b, step.i, n.peers)
  {
    hide Noted, Sound;
    var u, h := c.boards[step.i], Felt(c, step).value;
    NotedTable(u, h);
    if h.HearHello? {
      var m := step.m;
      var k :| 0 <= k < |c.boards| && c.boards[k].cfg.addr == m.src && c.boards[k].cfg.rank == m.hello.rank
               && (m.hello.role == Active ==> k == b);
      if m.src != u.cfg.addr {
        assert OfChain(c.boards, b, step.i, m.src, m.hello.rank, m.hello.role);
      }
    }
  }

  /** Nobody stands in the way of the best board. */
  lemma BestIsUnopposed(c: Election.Chain, b: nat, step: Election.Step)
    requires Contending(c, b) && Hears(c, b, step) && Felt(c, step).Some? && step.i == b
    ensures Unopposed(c.boards[b], Felt(c, step).value)
  {
    hide Noted, Sound, Live, Better;
    var u, h := c.boards[b], Felt(c, step).value;
    if Noted(u, h).Some? && Timed(h) {
      var n := Noted(u, h).value;
      NotedIsFair(c, b, step);
      forall p: Peer | Sees(n, p, h.now) ensures p.role != Active && !Better(p.rank, n.cfg.rank) {
        assert OfChain(c.boards, b, b, p.addr, p.rank, p.role);
        var k :| 0 <= k < |c.boards| && k != b && c.boards[k].cfg.addr == p.addr && c.boards[k].cfg.rank == p.rank
                 && (p.role == Active ==> k == b);
        Election.BetterIsAsymmetric(u.cfg.rank, p.rank);
      }
    }
  }

  /** Every other board that is ripe hears one that is better. */
  lemma OthersAreOutranked(c: Election.Chain, b: nat, step: Election.Step)
    requires Contending(c, b) && Hears(c, b, step) && Felt(c, step).Some? && step.i != b
    requires Timed(Felt(c, step).value) && Noted(c.boards[step.i], Felt(c, step).value).Some?
    requires Ripe(c.boards[step.i], Felt(c, step).value.now)
    ensures Outranked(Noted(c.boards[step.i], Felt(c, step).value).value, Felt(c, step).value.now)
  {
    hide Noted, Sound, Live, Better, Ripe;
    var u, h := c.boards[step.i], Felt(c, step).value;
    var n := Noted(u, h).value;
    NotedIsFair(c, b, step);
    var p: Peer :| Sees(n, p, h.now) && p.addr == c.boards[b].cfg.addr;
    var k :| 0 <= k < |c.boards| && c.boards[k].cfg.addr == p.addr && c.boards[k].cfg.rank == p.rank;
    assert k == b;
  }

  /** What one board may become. */
  ghost predicate Fit(c: Election.Chain, b: nat, i: nat, v: State)
    requires i < |c.boards|
  {
    && Sound(v) && v.cfg == c.boards[i].cfg && FairTable(c.boards, b, i, v.peers)
    && (if i == b then v.role == Active ==> !v.resignPending else v.role != Active)
  }

  lemma JudgedFits(c: Election.Chain, b: nat, step: Election.Step)
    requires Contending(c, b) && Hears(c, b, step) && Felt(c, step).Some?
    requires Noted(c.boards[step.i], Felt(c, step).value).Some?
    ensures Fit(c, b, step.i, Next(c.boards[step.i], Felt(c, step).value))
  {
    hide Noted, Next, FairWire, Gone, OfChain, Hears, Outranked, Held, Preceded, Ripe;
    var i, u, h := step.i, c.boards[step.i], Felt(c, step).value;
    PendingStep(u, h);
    StepShape(u, h);
    NotedIsFair(c, b, step);
    if i == b {
      BestIsUnopposed(c, b, step);
    } else if Ripe(u, h.now) {
      OthersAreOutranked(c, b, step);
    }
    if u.role == Active {
      HolderStaysUnopposed(u, h);
    } else {
      RoleDecision(u, h);
    }
  }

  lemma OtherFits(c: Election.Chain, b: nat, step: Election.Step)
    requires Contending(c, b) && Felt(c, step).Some?
    requires Noted(c.boards[step.i], Felt(c, step).value).None?
    ensures Fit(c, b, step.i, Next(c.boards[step.i], Felt(c, step).value))
  {
    hide Noted, Next, FairWire, FairTable;
    var u, h := c.boards[step.i], Felt(c, step).value;
    PendingStep(u, h);
    StepShape(u, h);
    SameConfig(u, h);
  }

  lemma SameConfig(u: State, h: Step)
    requires Noted(u, h).None? && !h.SetCaps?
    ensures Next(u, h).cfg == u.cfg && Next(u, h).peers == u.peers
  {
    hide Evaluated, HelloNoted, ResignNoted, Place, HelloDue;
  }

  lemma SameNames(boards: seq<State>, boards': seq<State>, b: nat, i: nat, addr: Addr, rank: Rank, role: Role)
    requires |boards'| == |boards| && forall k :: 0 <= k < |boards| ==> boards'[k].cfg == boards[k].cfg
    ensures OfChain(boards, b, i, addr, rank, role) ==> OfChain(boards', b, i, addr, rank, role)
    ensures Gone(boards, addr) ==> Gone(boards', addr)
  {
    if OfChain(boards, b, i, addr, rank, role) {
      var k :| 0 <= k < |boards| && k != i && boards[k].cfg.addr == addr && boards[k].cfg.rank == rank
               && (role == Active ==> k == b);
      assert boards'[k].cfg == boards[k].cfg;
    }
  }

  lemma FitKeeps(c: Election.Chain, b: nat, i: nat, v: State)
    requires Contending(c, b) && i < |c.boards| && Fit(c, b, i, v)
    ensures Contending(c.(boards := c.boards[i := v]), b)
  {
    hide Sound, OfChain, Gone, Better;
    var boards' := c.boards[i := v];
    forall k, addr, rank, role
      ensures OfChain(c.boards, b, k, addr, rank, role) ==> OfChain(boards', b, k, addr, rank, role)
      ensures Gone(c.boards, addr) ==> Gone(boards', addr)
    {
      SameNames(c.boards, boards', b, k, addr, rank, role);
    }
  }

  /** Among boards that hear each other, nobody but the best ever takes the role. */
  lemma ContendingStep(c: Election.Chain, b: nat, step: Election.Step)
    requires Contending(c, b) && Hears(c, b, step)
    ensures Contending(Election.Next(c, step), b)
  {
    hide Contending, Hears, Fit, Next, Noted;
    StepIsFelt(c, step);
    if Felt(c, step).Some? {
      var v := Next(c.boards[step.i], Felt(c, step).value);
      if Noted(c.boards[step.i], Felt(c, step).value).Some? {
        JudgedFits(c, b, step);
      } else {
        OtherFits(c, b, step);
      }
      FitKeeps(c, b, step.i, v);
      assert Election.Next(c, step) == c.(boards := c.boards[step.i := v]);
    } else if step.Announce? && step.i < |c.boards| {
      AnnouncingIsFair(c, b, step.i);
    }
  }

  lemma AnnouncingIsFair(c: Election.Chain, b: nat, i: nat)
    requires Contending(c, b) && i < |c.boards|
    ensures var m := Election.Message(c.boards[i].cfg.addr, Announcement(c.boards[i]));
            Contending(c.(wire := c.wire + {m}), b)
  {
    hide Sound, FairTable, Better;
    var u := c.boards[i];
    assert OfChain(c.boards, b, |c.boards|, u.cfg.addr, u.cfg.rank, u.role);
  }

  /** Boards switched on together, with nothing heard yet. */
  function SwitchedOn(cfgs: seq<Config>, start: Time): Election.Chain {
    Election.Chain(seq(|cfgs|, i requires 0 <= i < |cfgs| => Started(Initial(cfgs[i]), start)), {})
  }

  lemma SwitchedOnContends(cfgs: seq<Config>, start: Time, b: nat)
    requires b < |cfgs| && forall i, j :: 0 <= i < j < |cfgs| ==> cfgs[i].addr != cfgs[j].addr
    requires forall i :: 0 <= i < |cfgs| && i != b ==> Better(Configured(cfgs[b]).rank, Configured(cfgs[i]).rank)
    ensures Contending(SwitchedOn(cfgs, start), b) && SwitchedOn(cfgs, start).boards[b].role == Learn
  {
    hide Configured, Better;
    var boards := SwitchedOn(cfgs, start).boards;
    forall i | 0 <= i < |cfgs|
      ensures boards[i].role == Learn && Sound(boards[i]) && FairTable(boards, b, i, boards[i].peers)
      ensures boards[i].cfg == Configured(cfgs[i]) && boards[i].cfg.addr == cfgs[i].addr
    {
      SwitchedOnBoard(cfgs[i], start);
    }
  }

  lemma SwitchedOnBoard(cfg: Config, start: Time)
    ensures var u := Started(Initial(cfg), start);
            && u.role == Learn && Sound(u) && u.cfg == Configured(cfg) && u.cfg.addr == cfg.addr
            && forall p: Peer :: Some(p) !in u.peers
  {
  }

  // ---- Runs of the chain ----

  ghost predicate AllHear(c: Election.Chain, b: nat, steps: seq<Election.Step>) {
    forall k :: 0 <= k < |steps| ==> Hears(Election.After(c, steps[..k]), b, steps[k])
  }

  /** The run as board b sees it. */
  function Seen(c: Election.Chain, b: nat, steps: seq<Election.Step>): seq<Step> {
    if steps == [] then []
    else
      var pre, step := steps[..|steps| - 1], steps[|steps| - 1];
      var h := Felt(Election.After(c, pre), step);
      Seen(c, b, pre) + if step.i == b && h.Some? then [h.value] else []
  }

  /** Over every run in which the boards hear each other, the best board has nobody in its way, and
      no other board ever holds the role. */
  lemma {:induction false} OnlyTheBestEverHolds(c: Election.Chain, b: nat, steps: seq<Election.Step>)
    requires Contending(c, b) && AllHear(c, b, steps)
    ensures var c' := Election.After(c, steps);
            && Contending(c', b) && |c'.boards| == |c.boards|
            && c'.boards[b] == After(c.boards[b], Seen(c, b, steps)) && AllUnopposed(c.boards[b], Seen(c, b, steps))
  {
    hide Contending, Hears, Unopposed, Next, Election.Next, Felt;
    assert b < |c.boards| by { BestIsThere(c, b); }
    if steps != [] {
      var pre, step := steps[..|steps| - 1], steps[|steps| - 1];
      assert forall k :: 0 <= k <= |pre| ==> pre[..k] == steps[..k];
      assert steps[..|pre|] == pre;
      OnlyTheBestEverHolds(c, b, pre);
      var d := Election.After(c, pre);
      ContendingStep(d, b, step);
      StepIsFelt(d, step);
      if step.i == b && Felt(d, step).Some? {
        BestIsUnopposed(d, b, step);
        OneMoreUnopposed(c.boards[b], Seen(c, b, pre), Felt(d, step).value);
        AfterOne(c.boards[b], Seen(c, b, pre), Felt(d, step).value);
      } else {
        assert Seen(c, b, steps) == Seen(c, b, pre);
      }
    }
  }

  lemma BestIsThere(c: Election.Chain, b: nat)
    requires Contending(c, b)
    ensures b < |c.boards| && Sound(c.boards[b]) && (c.boards[b].role == Active ==> !c.boards[b].resignPending)
  {
  }

  lemma OneMoreUnopposed(u: State, steps: seq<Step>, step: Step)
    requires AllUnopposed(u, steps) && Unopposed(After(u, steps), step)
    ensures AllUnopposed(u, steps + [step])
  {
    hide Unopposed, After;
    var all := steps + [step];
    forall k | 0 <= k < |all| ensures Unopposed(After(u, all[..k]), all[k]) {
      assert all[..k] == if k < |steps| then steps[..k] else steps;
    }
  }

  /** And the best board does take it: whatever the order of ticks, hellos and announcements, after
      any tick of that board at which it has been on standby, or has learned, contended or, having
      listened, judged for its time, it holds the role and nobody else does. */
  lemma BestBoardWins(c: Election.Chain, b: nat, steps: seq<Election.Step>, now: Time)
    requires Contending(c, b) && c.boards[b].role != Active
    requires AllHear(c, b, steps) && Hears(Election.After(c, steps), b, Election.Tick(b, now))
    requires WaitedLongEnough(c.boards[b], Seen(c, b, steps), now)
    ensures var c' := Election.After(c, steps + [Election.Tick(b, now)]);
            && |c'.boards| == |c.boards|
            && forall i :: 0 <= i < |c'.boards| ==> (c'.boards[i].role == Active <==> i == b)
  {
    hide Contending, Hears, Unopposed, AllUnopposed, WaitedLongEnough, After, Next, Election.Next, AllHear, Seen;
    hide Noted, Sound;
    var tick := Election.Tick(b, now);
    BestIsThere(c, b);
    OnlyTheBestEverHolds(c, b, steps);
    var d := Election.After(c, steps);
    BestIsThere(d, b);
    TickJudges(d.boards[b], now);
    BestIsUnopposed(d, b, tick);
    ContendingStep(d, b, tick);
    StepIsFelt(d, tick);
    UnopposedBoardTakesTheRole(c.boards[b], Seen(c, b, steps), Step.Tick(now));
    AfterOne(c.boards[b], Seen(c, b, steps), Step.Tick(now));
    assert (steps + [tick])[..|steps|] == steps;
    NobodyElse(Election.Next(d, tick), b);
  }

  lemma TickJudges(u: State, now: Time)
    requires Sound(u)
    ensures Noted(u, Step.Tick(now)).Some?
  {
  }

  lemma NobodyElse(c: Election.Chain, b: nat)
    requires Contending(c, b)
    ensures forall i :: 0 <= i < |c.boards| && i != b ==> c.boards[i].role != Active
  {
  }

  /** A board that hears the best board hold the role follows it. */
  lemma OthersFollow(c: Election.Chain, b: nat, step: Election.Step)
    requires Contending(c, b) && Hears(c, b, step) && Felt(c, step).Some? && step.i != b
    requires Timed(Felt(c, step).value) && Noted(c.boards[step.i], Felt(c, step).value).Some?
    requires Held(Noted(c.boards[step.i], Felt(c, step).value).value, Felt(c, step).value.now)
    ensures var v := Election.Next(c, step).boards[step.i];
            v.role in {Standby, Listen} && v.active == c.boards[b].cfg.addr
  {
    hide Noted, Next, Live, Sound, Better, Preceded, Outranked;
    var u, h := c.boards[step.i], Felt(c, step).value;
    var n := Noted(u, h).value;
    StepIsFelt(c, step);
    NotedIsFair(c, b, step);
    RoleDecision(u, h);
    var p: Peer :| Sees(n, p, h.now) && p.role == Active && Next(u, h).active == p.addr;
    assert OfChain(c.boards, b, step.i, p.addr, p.rank, p.role);
  }

  // ---- What a rank is made of ----

  function Has(caps: Caps, cap: Cap): nat {
    if cap in caps then 1 else 0
  }

  /** The capabilities that count, the most important first, read as a binary number. */
  function Standing(caps: Caps): nat {
    8 * Has(caps, Coordinator) + 4 * Has(caps, HidIn) + 2 * Has(caps, Display) + Has(caps, Settings)
  }

  /** A coordinator outranks any board; among the others a plugged-in keyboard or mouse decides, then
      a display, then settings; nothing else counts. */
  lemma CapabilitiesDecide(a: Caps, b: Caps)
    ensures PriorityFromCaps(a) > PriorityFromCaps(b) <==> Standing(a) > Standing(b)
  {
  }

  // ---- A resignation is a sign of life ----

  /** A board that stands down is heard doing so: it stays in the table as a follower, and counts as
      live for another hold time. */
  lemma ResigningIsHeard(u: State, src: Addr, now: Time, later: Time)
    requires Sound(u) && Find(u.peers, src).Some? && u.role != Active
    requires !TimeAfter(later, Add32(now, u.cfg.timing.holdMs))
    ensures var n := Noted(u, HearResign(src, now)).value;
            && Find(u.peers, src).value < |n.peers|
            && var e := n.peers[Find(u.peers, src).value];
               e.Some? && e.value.addr == src && e.value.role != Active && Live(u.cfg.timing, e.value, later)
  {
    hide Find, TimeAfter, Add32;
  }

  // ---- Defaults ----

  /** No board runs without a hello interval: one that is configured without is given the defaults, in
      which a peer may miss two hellos before it counts as gone, and learning lasts as long. */
  lemma DefaultsFillIn(cfg: Config)
    ensures var c := Initial(cfg).cfg;
            && c.timing.helloMs > 0
            && (cfg.timing.helloMs > 0 ==> c.timing == cfg.timing)
            && (cfg.timing.helloMs == 0 ==>
                  c.timing.helloMs == 50 && c.timing.holdMs == c.timing.learnMs == 3 * 50 && c.timing.deferMs == 2000)
            && c.rank.uid == cfg.rank.uid && c.caps == cfg.caps && c.preempt == cfg.preempt && c.addr == cfg.addr
            && c.rank.priority == (if cfg.rank.priority == 0 then PriorityFromCaps(cfg.caps) else cfg.rank.priority)
  {
  }
}
