/** Boards that speak for the chain and know whom they serve: when that is so over whole runs,
    and what goes wrong when it is not. */
module Anchors {
  import opened Types
  import opened Hid
  import opened Router
  import opened Ledger
  import Uhrp
  import Handover
  import Pointer
  import Link

  lemma PickedIsKnown(chain: Chain, i: nat)
    requires i < |chain| && chain[i].Some?
    ensures InChain(chain, chain[i].value.addr)
  {
    hide Find;
  }

  lemma TargetsAreKnown(r: State, from: Addr, direction: int)
    ensures NeighbourOf(r, from, direction) != ADDR_NONE ==> InChain(r.chain, NeighbourOf(r, from, direction))
    ensures ButtonTarget(r) != ADDR_NONE ==> InChain(r.chain, ButtonTarget(r))
  {
    hide Nearest, NextScreen, FirstScreen, InChain, Find, FocusPos;
    forall i | 0 <= i < |r.chain| && r.chain[i].Some? ensures InChain(r.chain, r.chain[i].value.addr) {
      PickedIsKnown(r.chain, i);
    }
  }

  // ---- Promotions ----

  /** Some other board is known to be a screen. */
  predicate KnowsScreen(r: State) {
    exists i :: 0 <= i < |r.chain| && IsScreen(r.chain[i]) && r.chain[i].value.addr != r.self
  }

  /** It has a machine of its own, knows another screen, or remembers a focus it knows. */
  predicate CanServe(r: State) {
    Uhrp.HidOut in r.caps || KnowsScreen(r) || (r.focus != ADDR_NONE && InChain(r.chain, r.focus))
  }

  lemma InheritingAnchorsIff(r: State)
    requires Named(r.chain) && InChain(r.chain, r.self) && Speaking(r)
    ensures Anchored(Inheriting(r)) <==> CanServe(r)
  {
    hide Find, ClosestScreen;
    var p := ClosestScreen(r, r.chain);
    if p.addr != ADDR_NONE {
      var i :| 0 <= i < |r.chain| && IsScreen(r.chain[i]) && r.chain[i].value.addr != r.self
               && p == Pick(r.chain[i].value.addr, Far(r.chain[i].value.pos));
      PickedIsKnown(r.chain, i);
    }
  }

  /** What no step but SetCaps touches. */
  predicate SameBoard(r: State, r': State) {
    r'.self == r.self && r'.caps == r.caps
  }

  lemma DrainedInherits(r: State) returns (r4: State)
    requires Speaking(r) && r.uhrp.ev.changed
    ensures Drained(r) == Inheriting(r4) && Speaking(r4)
    ensures r4.chain == r.chain && SameBoard(r, r4) && r4.focus == r.focus
  {
    hide Inheriting, Forgotten, Uhrp.Announcement;
    var ev := r.uhrp.ev;
    var r1 := r.(uhrp := Uhrp.Drained(r.uhrp));
    var r2 := if ev.release then ReleasedAll(r1) else r1;
    var r3 := if ev.sendResign then Says(r2, [Resign]) else r2;
    r4 := if ev.sendHello then Says(r3, [SayHello(Uhrp.Announcement(r3.uhrp))]) else r3;
  }

  /** Exactly when a promotion leaves a board serving a machine it knows. */
  lemma PromotionAnchorsIff(r: State)
    requires Named(r.chain) && InChain(r.chain, r.self) && Speaking(r) && r.uhrp.ev.changed
    ensures Anchored(Drained(r)) <==> CanServe(r)
  {
    hide Inheriting, Drained, Find;
    var r4 := DrainedInherits(r);
    InheritingAnchorsIff(r4);
  }

  /** If these events promote the board, it has somebody to serve. */
  predicate WillServe(r: State) {
    Speaking(r) && r.uhrp.ev.changed ==>
      (Uhrp.HidOut in r.caps && r.self != ADDR_NONE) || (Named(r.chain) && CanServe(r))
  }

  lemma OwnMachineAnchors(r: State)
    requires InChain(r.chain, r.self) && r.self != ADDR_NONE && Uhrp.HidOut in r.caps
    requires Speaking(r) && !r.uhrp.ev.changed ==> InChain(r.chain, r.focus)
    ensures Anchored(Drained(r))
  {
    hide Find, Forgotten, Uhrp.Announcement;
  }

  lemma UnchangedAnchors(r: State)
    requires Speaking(r) ==> !r.uhrp.ev.changed && InChain(r.chain, r.focus)
    ensures Anchored(Drained(r))
  {
    hide Find, Forgotten, Uhrp.Announcement, Inheriting;
  }

  lemma DrainedAnchors(r: State)
    requires InChain(r.chain, r.self) && WillServe(r)
    requires Speaking(r) && !r.uhrp.ev.changed ==> InChain(r.chain, r.focus)
    ensures Anchored(Drained(r))
  {
    hide Find, Drained, CanServe;
    if Uhrp.HidOut in r.caps && r.self != ADDR_NONE {
      OwnMachineAnchors(r);
    } else if Speaking(r) && r.uhrp.ev.changed {
      PromotionAnchorsIff(r);
    } else {
      UnchangedAnchors(r);
    }
  }

  lemma ElectionAnchors(r: State, step: Handover.Step)
    requires Invariant(r) && Anchored(r) && Handover.Timed(step) && WillServe(r.(uhrp := Handover.Next(r.uhrp, step)))
    ensures Anchored(Drained(r.(uhrp := Handover.Next(r.uhrp, step))))
  {
    hide Find, Drained, Handover.Next, Tracked, ResignedEmptyHanded, AnyHeld, Handover.Sound, WillServe;
    Handover.AskedByStep(r.uhrp, step);
    PickedIsKnown(r.chain, r.selfSlot);
    DrainedAnchors(r.(uhrp := Handover.Next(r.uhrp, step)));
  }

  // ---- Steps ----

  lemma FocusedAnchors(r: State, target: Addr, reason: Reason, edge: Pointer.Edge, now: Time)
    requires Anchored(r) && (Speaking(r) && target != ADDR_NONE ==> InChain(r.chain, target))
    ensures Anchored(Focused(r, target, reason, edge, now))
  {
    hide InChain, Released, Pointer.Arrived;
    ReleasedShape(r, r.focus);
  }

  lemma InputAnchors(r: State, k: Kbd, m: Mouse, now: Time)
    requires Invariant(r) && Anchored(r)
    ensures Anchored(KbdIn(r, k, now)) && Anchored(MouseIn(r, m, now))
  {
    assert r.uhrp.ev == Uhrp.NO_EVENTS;
    hide Invariant, InChain, NeighbourOf, Pointer.Moved, Pointer.Crossing, Focused, NoteKbd, NoteMouse;
    hide SlotOf, AnyHeld, Drained;
    if Speaking(r) {
      IdleDrain(KeysNoted(KbdSent(r, r.focus, k)));
      var r1 := Stepped(r, m, now);
      IdleDrain(KeysNoted(MouseSent(r1, r.focus, m)));
      var edge := Pointer.Crossing(r.gesture, r.pointer, Pointer.Report(m.dx, m.dy, now));
      TargetsAreKnown(r1, r.focus, Heading(edge));
      var target := NeighbourOf(r1, r.focus, Heading(edge));
      if target != ADDR_NONE {
        FocusedAnchors(r1, target, ByEdge, edge, now);
      }
    }
  }

  /** A hello once its sender has been noted in the table. */
  function Introduced(r: State, src: Addr, h: Uhrp.Hello): State {
    r.(chain := Described(Joined(r.chain, src), src, h.rank.uid, h.caps))
  }

  /** The state in which a message hands what the election asks for over to be carried out. */
  function Asked(r: State, m: Message, now: Time): Option<State> {
    match m.body
    case Hello(h) =>
      var r1 := Introduced(r, m.src, h);
      Some(r1.(uhrp := Uhrp.HelloHeard(r1.uhrp, m.src, h, now)))
    case Resigning => Some(r.(uhrp := Uhrp.ResignHeard(r.uhrp, m.src, now)))
    case _ => None
  }

  function Pending(r: State, step: Step): Option<State> {
    match step
    case Tick(now) => Some(r.(uhrp := Uhrp.Ticked(r.uhrp, now)))
    case Receive(m, now) => Asked(Sighted(r, m, now), m, now)
    case _ => None
  }

  lemma HandledAnchors(r: State, m: Message, now: Time)
    requires Invariant(r) && Anchored(r) && (Asked(r, m, now).Some? ==> WillServe(Asked(r, m, now).value))
    ensures Anchored(Handled(r, m, now))
  {
    hide Invariant, InChain, Drained, KbdIn, MouseIn, Joined, Described, Forget, MayType, Released, WillServe;
    hide Uhrp.HelloHeard, Uhrp.ResignHeard;
    match m.body
    case Hello(h) =>
      DescribedKeeps(r, m.src, h);
      ElectionAnchors(Introduced(r, m.src, h), Handover.HearHello(m.src, h, now));
    case Resigning => ElectionAnchors(r, Handover.HearResign(m.src, now));
    case InputKbd(k) => InputAnchors(r, k, STILL, now);
    case InputMouse(k) => InputAnchors(r, LIFTED, k, now);
    case Focus(target) => ReleasedShape(Says(r.(focus := target), [FocusChanged(target)]), r.self);
    case _ =>
  }

  /** Whoever sets the focus names a board in the table, and a board that is promoted has
      somebody to serve. */
  predicate Considerate(r: State, step: Step) {
    && (step.SetFocus? && Speaking(r) && step.target != ADDR_NONE ==> InChain(r.chain, step.target))
    && (Pending(r, step).Some? ==> WillServe(Pending(r, step).value))
  }

  lemma ConsiderateStep(r: State, step: Step)
    requires Invariant(r) && Anchored(r) && Considerate(r, step)
    ensures Anchored(Next(r, step))
  {
    hide Invariant, InChain, KbdIn, MouseIn, Focused, Handled, Drained, Recapped, Sighted, Uhrp.Ticked, ButtonTarget;
    hide WillServe, Asked;
    match step
    case Typed(k, now) => InputAnchors(r, k, STILL, now);
    case Moved(m, now) => InputAnchors(r, LIFTED, m, now);
    case Button(now) =>
      TargetsAreKnown(r, r.focus, 1);
      FocusedAnchors(r, ButtonTarget(r), ByButton, Pointer.NoEdge, now);
    case SetFocus(target, reason, now) => FocusedAnchors(r, target, reason, Pointer.NoEdge, now);
    case Receive(m, now) =>
      SightedKeeps(r, m, now);
      HandledAnchors(Sighted(r, m, now), m, now);
    case Tick(now) => ElectionAnchors(r, Handover.Tick(now));
    case SetCaps(caps) => RecappedKeeps(r, caps);
  }

  // ---- Runs ----

  /** At every point of the run, a board that speaks serves a machine it knows. */
  ghost predicate AlwaysAnchored(r: State, steps: seq<Step>) {
    forall n :: 0 <= n <= |steps| ==> Anchored(After(r, steps[..n]))
  }

  lemma AnchoredAims(r: State, step: Step)
    requires Invariant(r) && Anchored(r)
    ensures Aimed(r, step)
  {
    hide Invariant, InChain, Crosses, SendsOn, Sighted;
    if step.Receive? {
      SightedKeeps(r, step.m, step.now);
      SightedOnlyChain(r, step.m, step.now);
    }
  }

  predicate AllConsiderate(r: State, steps: seq<Step>) {
    forall n :: 0 <= n < |steps| ==> Considerate(After(r, steps[..n]), steps[n])
  }

  lemma {:induction false} ConsiderateRun(r: State, steps: seq<Step>)
    requires Invariant(r) && Anchored(r) && AllConsiderate(r, steps)
    ensures Invariant(After(r, steps)) && Anchored(After(r, steps)) && AlwaysAnchored(r, steps) && AllAimed(r, steps)
  {
    hide Invariant, Anchored, Next, Considerate, Aimed;
    assert steps[..|steps|] == steps;
    if steps != [] {
      var pre, step := steps[..|steps| - 1], steps[|steps| - 1];
      forall n | 0 <= n < |pre| ensures Considerate(After(r, pre[..n]), pre[n]) {
        assert pre[..n] == steps[..n];
      }
      ConsiderateRun(r, pre);
      AnchoredAims(After(r, pre), step);
      NextKeeps(After(r, pre), step);
      ConsiderateStep(After(r, pre), step);
      forall n | 0 <= n <= |steps| ensures Anchored(After(r, steps[..n])) {
        assert n < |steps| ==> pre[..n] == steps[..n];
      }
      forall n | 0 <= n < |steps| ensures Aimed(After(r, steps[..n]), steps[n]) {
        assert steps[..n] == pre[..n];
      }
    }
  }

  /** Any board, over every run from its start: if each promotion finds it with somebody to serve
      and its focus is set with care, it always serves a machine it knows, so that all the
      results about what it has told the machines hold of it. */
  lemma ConsiderateRunsAreAnchored(b: Setup, steps: seq<Step>)
    requires AllConsiderate(Boot(b), steps)
    ensures AlwaysAnchored(Boot(b), steps) && Reachable(After(Boot(b), steps))
  {
    hide Invariant, Anchored, Drained, After, AlwaysAnchored, AllAimed, AllConsiderate;
    BootKeeps(b);
    ConsiderateRun(Boot(b), steps);
  }

  // ---- Boards with a machine of their own ----

  lemma DrainedSameBoard(r: State)
    ensures SameBoard(r, Drained(r))
  {
    hide Forgotten, Inherited, Uhrp.Announcement;
  }

  lemma InputSameBoard(r: State, k: Kbd, m: Mouse, target: Addr, reason: Reason, edge: Pointer.Edge, now: Time)
    ensures SameBoard(r, KbdIn(r, k, now)) && SameBoard(r, MouseIn(r, m, now))
    ensures SameBoard(r, Focused(r, target, reason, edge, now))
    ensures SameBoard(r, ButtonPressed(r, now)) && SameBoard(r, FocusHeard(r, target))
  {
    hide Drained, NoteKbd, NoteMouse, SlotOf, AnyHeld, NeighbourOf, ButtonTarget, Pointer.Moved, Pointer.Crossing;
    hide Pointer.Arrived, Lift, SlotHeld;
    DrainedSameBoard(KeysNoted(KbdSent(r, r.focus, k)));
    DrainedSameBoard(KeysNoted(MouseSent(Stepped(r, m, now), r.focus, m)));
  }

  lemma HandledSameBoard(r: State, m: Message, now: Time)
    ensures SameBoard(r, Handled(r, m, now))
  {
    hide Drained, KbdIn, MouseIn, FocusHeard, Joined, Described, Forget, Uhrp.HelloHeard, Uhrp.ResignHeard, MayType;
    match m.body
    case Hello(h) =>
      var r1 := r.(chain := Described(Joined(r.chain, m.src), m.src, h.rank.uid, h.caps));
      DrainedSameBoard(r1.(uhrp := Uhrp.HelloHeard(r1.uhrp, m.src, h, now)));
    case Resigning => DrainedSameBoard(r.(uhrp := Uhrp.ResignHeard(r.uhrp, m.src, now)));
    case InputKbd(k) => InputSameBoard(r, k, STILL, r.focus, ByEdge, Pointer.NoEdge, now);
    case InputMouse(k) => InputSameBoard(r, LIFTED, k, r.focus, ByEdge, Pointer.NoEdge, now);
    case Focus(target) => InputSameBoard(r, LIFTED, STILL, target, ByEdge, Pointer.NoEdge, now);
    case _ =>
  }

  lemma NextSameBoard(r: State, step: Step)
    ensures Next(r, step).self == r.self
    ensures Next(r, step).caps == if step.SetCaps? then step.caps else r.caps
  {
    hide KbdIn, MouseIn, Focused, ButtonPressed, Handled, Drained, Sighted, Uhrp.Ticked, Uhrp.Recapped, Find;
    match step
    case Typed(k, now) => InputSameBoard(r, k, STILL, r.focus, ByEdge, Pointer.NoEdge, now);
    case Moved(m, now) => InputSameBoard(r, LIFTED, m, r.focus, ByEdge, Pointer.NoEdge, now);
    case Button(now) => InputSameBoard(r, LIFTED, STILL, r.focus, ByEdge, Pointer.NoEdge, now);
    case SetFocus(target, reason, now) => InputSameBoard(r, LIFTED, STILL, target, reason, Pointer.NoEdge, now);
    case Receive(m, now) =>
      SightedOnlyChain(r, m, now);
      HandledSameBoard(Sighted(r, m, now), m, now);
    case Tick(now) => DrainedSameBoard(r.(uhrp := Uhrp.Ticked(r.uhrp, now)));
    case SetCaps(_) =>
  }

  lemma PendingSameBoard(r: State, step: Step)
    ensures Pending(r, step).Some? ==> SameBoard(r, Pending(r, step).value)
  {
    hide Joined, Described, Uhrp.HelloHeard, Uhrp.ResignHeard, Uhrp.Ticked, Sighted;
    if step.Receive? {
      SightedOnlyChain(r, step.m, step.now);
    }
  }

  /** The board keeps its machine, and whoever sets the focus names a board in the table. */
  predicate Careful(r: State, steps: seq<Step>) {
    forall n :: 0 <= n < |steps| ==>
      var v, step := After(r, steps[..n]), steps[n];
      && (step.SetCaps? ==> Uhrp.HidOut in step.caps)
      && (step.SetFocus? && Speaking(v) && step.target != ADDR_NONE ==> InChain(v.chain, step.target))
  }

  lemma {:induction false} KeepsItsMachine(r: State, steps: seq<Step>)
    requires r.self != ADDR_NONE && Uhrp.HidOut in r.caps && Careful(r, steps)
    ensures After(r, steps).self == r.self && Uhrp.HidOut in After(r, steps).caps
  {
    hide Next, InChain, Speaking;
    if steps != [] {
      var pre := steps[..|steps| - 1];
      assert forall n :: 0 <= n < |pre| ==> pre[..n] == steps[..n];
      KeepsItsMachine(r, pre);
      NextSameBoard(After(r, pre), steps[|steps| - 1]);
    }
  }

  lemma CarefulIsConsiderate(r: State, steps: seq<Step>)
    requires r.self != ADDR_NONE && Uhrp.HidOut in r.caps && Careful(r, steps)
    ensures AllConsiderate(r, steps)
  {
    hide Next, InChain, Speaking, After, Pending, CanServe;
    forall n | 0 <= n < |steps| ensures Considerate(After(r, steps[..n]), steps[n]) {
      var pre := steps[..n];
      assert forall k :: 0 <= k < n ==> pre[..k] == steps[..k];
      KeepsItsMachine(r, pre);
      PendingSameBoard(After(r, pre), steps[n]);
    }
  }

  /** A board with a machine of its own always serves a machine it knows: over every run from
      its start, whatever arrives. */
  lemma OwnMachineIsAlwaysAnchored(b: Setup, steps: seq<Step>)
    requires Uhrp.HidOut in b.caps && b.self != ADDR_NONE && Careful(Boot(b), steps)
    ensures AlwaysAnchored(Boot(b), steps) && Reachable(After(Boot(b), steps))
  {
    hide Drained, After, AlwaysAnchored, AllConsiderate, Careful;
    BootSameBoard(b);
    CarefulIsConsiderate(Boot(b), steps);
    ConsiderateRunsAreAnchored(b, steps);
  }

  lemma BootSameBoard(b: Setup)
    ensures Boot(b).self == b.self && Boot(b).caps == b.caps
  {
    hide Drained, Uhrp.Started, Pointer.Arrived;
    var r0 := Initial(b.self, b.uid, b.caps, b.preempt, b.timing, b.gesture);
    DrainedSameBoard(r0.(uhrp := Uhrp.Started(r0.uhrp, b.now),
                         pointer := Pointer.Arrived(r0.gesture, r0.pointer, Pointer.NoEdge, b.now)));
  }

  // ---- A board with nobody to serve ----

  /** A coordinator alone on the chain: no machine, and nobody to serve. */
  const LONELY :=
    Setup(1, 7, {Uhrp.Coordinator}, false, Uhrp.DEFAULT_TIMING, Pointer.DEFAULT, 0)

  /** Learning ends with nobody heard. */
  lemma LoneLearner(u: Uhrp.State, now: Time)
    requires u.started && u.role == Uhrp.Learn && u.peers == seq(MAX_BOARDS, _ => None) && u.active == ADDR_NONE
    requires TimeAfter(now, Add32(u.entered, u.cfg.timing.learnMs))
    ensures var v := Uhrp.Ticked(u, now); v.role == Uhrp.Active && v.ev.changed
  {
    hide TimeAfter, Add32;
    assert !Uhrp.Lost(u, now);
    assert Uhrp.Aged(u.cfg.timing, u.peers, now) == u.peers;
    assert Uhrp.FirstActive(u.peers).None?;
    assert Uhrp.Strongest(u.cfg.rank, u.peers) == u.cfg.rank;
  }

  lemma LonelyBoots()
    ensures var r := Boot(LONELY);
            && r.self == 1 && r.caps == {Uhrp.Coordinator} && r.focus == ADDR_NONE
            && r.chain == [Some(Entry(1, 7, {Uhrp.Coordinator}, 0, 0))] + seq(MAX_BOARDS - 1, _ => None)
            && r.uhrp.started && r.uhrp.role == Uhrp.Learn && r.uhrp.peers == seq(MAX_BOARDS, _ => None)
            && r.uhrp.active == ADDR_NONE && r.uhrp.entered == 0 && r.uhrp.cfg.timing == Uhrp.DEFAULT_TIMING
  {
    hide Pointer.Arrived, Find;
  }

  /** It does happen: booted alone and promoted when learning ends, a coordinator speaks with
      no machine to serve. */
  lemma LonelyCoordinatorIsUnanchored()
    ensures var r := Next(Boot(LONELY), Tick(150));
            && Speaking(r) && !InChain(r.chain, r.focus)
            && r.self == 1 && r.focus == ADDR_NONE && r.chain == Boot(LONELY).chain
  {
    hide Boot, Uhrp.Ticked, Find, Drained, TimeAfter, Add32, Inheriting;
    LonelyBoots();
    var r := Boot(LONELY);
    assert TimeAfter(150, Add32(0, 150)) by { LearningIsOver(); }
    LoneLearner(r.uhrp, 150);
    var r1 := r.(uhrp := Uhrp.Ticked(r.uhrp, 150));
    assert r1.chain[0].value.addr == 1;
    PickedIsKnown(r1.chain, 0);
    assert !CanServe(r1) by { NoneIsUnknown(r1.chain); }
    PromotionAnchorsIff(r1);
    DrainedSpeaks(r1);
    var r4 := DrainedInherits(r1);
    NobodyIsInherited(r4);
  }

  lemma NobodyIsInherited(r: State)
    requires r.focus == ADDR_NONE && Uhrp.HidOut !in r.caps && !KnowsScreen(r)
    ensures Inheriting(r) == r
  {
    hide ClosestScreen;
  }

  lemma LearningIsOver()
    ensures TimeAfter(150, Add32(0, 150))
  {
  }

  lemma NoneIsUnknown(chain: Chain)
    requires Named(chain)
    ensures !InChain(chain, ADDR_NONE)
  {
    hide Find;
  }

  lemma DrainedSpeaks(r: State)
    ensures Speaking(Drained(r)) <==> Speaking(r)
  {
    hide Inherited, Forgotten, Uhrp.Announcement;
  }

  // ---- What an unknown focus does ----

  /** Why the focus must be known: typing at an unknown address is booked on this board's own
      slot. The books stay true of the machines in the table exactly if the report repeats
      what this board's own machine was last told. */
  lemma UnknownFocusConfusesOwnSlot(r: State, k: Kbd, now: Time)
    requires Invariant(r) && Speaking(r) && !InChain(r.chain, r.focus)
    ensures var r1 := KbdIn(r, k, now);
            (forall addr :: InChain(r.chain, addr) ==> r1.hid[SlotOf(r, addr)].pressed == Told(r1.out, addr))
            <==> k == Told(r.out, r.self).kbd
  {
    hide Told, AnyHeld, Handover.Sound, ResignedEmptyHanded, Find, Honest;
    var r1 := KbdIn(r, k, now);
    IdleDrain(KeysNoted(KbdSent(r, r.focus, k)));
    SlotIs(r, r.focus);
    PickedIsKnown(r.chain, r.selfSlot);
    SlotIs(r, r.self);
    var own := r.selfSlot;
    assert r1.hid == r.hid[own := Sent(true, r.hid[own].pressed.(kbd := k))] && r1.out == r.out + [TellKbd(r.focus, k)];
    forall addr: Addr | InChain(r.chain, addr)
      ensures SlotOf(r, addr) < |r.hid| && Told(r1.out, addr) == Told(r.out, addr) == r.hid[SlotOf(r, addr)].pressed
    {
      SlotIs(r, addr);
      ToldOne(r.out, TellKbd(r.focus, k), addr);
    }
  }

  /** Nothing is held, and one address the board does not know has been told nothing. */
  lemma FreshFocus(r: State, x: Addr, reason: Reason, now: Time)
    requires Invariant(r) && Speaking(r) && !InChain(r.chain, x) && x != ADDR_NONE && x != r.focus
    ensures var r1 := Focused(r, x, reason, Pointer.NoEdge, now);
            && Invariant(r1) && Speaking(r1) && r1.focus == x && r1.chain == r.chain && r1.self == r.self
            && NothingHeld(r1.hid) && Told(r1.out, x) == NOTHING
  {
    hide Invariant, Find, Told, NothingHeld, Released, Pointer.Arrived;
    FocusedKeeps(r, x, reason, Pointer.NoEdge, now);
    ReleasedShape(r, r.focus);
    var r1 := Focused(r, x, reason, Pointer.NoEdge, now);
    UntoldStranger(r1, x);
  }

  lemma UntoldStranger(r: State, x: Addr)
    requires Invariant(r) && !InChain(r.chain, x)
    ensures Told(r.out, x) == NOTHING
  {
    hide InChain, Told, Handover.Sound, ResignedEmptyHanded;
  }

  /** The report goes to the unknown address and into this board's own slot. */
  lemma TypedAtNobody(r: State, k: Kbd, now: Time)
    requires Invariant(r) && Speaking(r) && !InChain(r.chain, r.focus) && NothingHeld(r.hid)
    requires Told(r.out, r.focus) == NOTHING
    ensures var r1 := KbdIn(r, k, now);
            && r1.focus == r.focus && r1.chain == r.chain && r1.self == r.self && |r1.hid| == |r1.chain|
            && r1.selfSlot == r.selfSlot < |r.chain| && r.chain[r.selfSlot].Some?
            && (forall i :: 0 <= i < |r1.hid| && i != r1.selfSlot ==> r1.hid[i].pressed == NOTHING)
            && Told(r1.out, r.focus) == NOTHING.(kbd := k)
  {
    hide Told, AnyHeld, Handover.Sound, ResignedEmptyHanded, Find, Tracked, Unique;
    IdleDrain(KeysNoted(KbdSent(r, r.focus, k)));
    SlotIs(r, r.focus);
    ToldOne(r.out, TellKbd(r.focus, k), r.focus);
  }

  /** The sender gets a free slot, with whatever that slot holds. */
  lemma SightedTakesFreeSlot(r: State, m: Message, now: Time)
    requires !InChain(r.chain, m.src) && m.src != r.self && m.port.Some? && FirstFree(r.chain).Some?
    ensures var r1 := Sighted(r, m, now);
            && r1 == r.(chain := r1.chain) && InChain(r1.chain, m.src)
            && SlotOf(r1, m.src) < |r.chain| && r.chain[SlotOf(r1, m.src)].None?
  {
    hide Find, FirstFree;
    var chain := Joined(r.chain, m.src);
    assert chain[FirstFree(r.chain).value].value.addr == m.src;
    assert InChain(chain, m.src);
    var at := Find(chain, m.src).value;
    assert Sighted(r, m, now).chain[at].value.addr == m.src;
  }

  lemma FocusWithoutRelease(r: State, y: Addr, reason: Reason, now: Time)
    requires SlotOf(r, r.focus) < |r.hid| && r.hid[SlotOf(r, r.focus)].pressed == NOTHING
    requires y != ADDR_NONE && y != r.focus
    ensures var r1 := Focused(r, y, reason, Pointer.NoEdge, now);
            && r1.focus == y && r1.chain == r.chain
            && forall addr :: Told(r1.out, addr) == Told(r.out, addr)
  {
    hide SlotOf, Told, Pointer.Arrived;
    assert !SlotHeld(r.hid, SlotOf(r, r.focus));
    var o, o' := SayFocus(y, reason, Pointer.NoEdge), FocusChanged(y);
    assert r.out + [o, o'] == (r.out + [o]) + [o'];
    ToldSilent(r.out, o);
    ToldSilent(r.out + [o], o');
  }

  /** The run that leaves a key held for good: an unknown address gets the focus, a key goes down,
      the board appears in the table, the focus moves on. The release looks in the slot the board
      has now, not in the one the key was booked on: whatever was typed stays pressed. */
  lemma UnknownFocusLeavesKeyStuck(r: State, x: Addr, k: Kbd, m: Message, y: Addr, reason: Reason,
                                   t: (Time, Time, Time, Time))
    requires Invariant(r) && Speaking(r) && !InChain(r.chain, x) && x !in {ADDR_NONE, r.self, r.focus}
    requires m.src == x && m.port.Some? && m.body == Other && FirstFree(r.chain).Some? && y !in {ADDR_NONE, x}
    ensures var v := After(r, [SetFocus(x, reason, t.0), Typed(k, t.1), Receive(m, t.2), SetFocus(y, reason, t.3)]);
            v.focus == y && InChain(v.chain, x) && Told(v.out, x) == NOTHING.(kbd := k)
  {
    hide Invariant, Speaking, Find, Told, NothingHeld, Focused, KbdIn, Sighted, SlotOf, FirstFree;
    FourSteps(r, SetFocus(x, reason, t.0), Typed(k, t.1), Receive(m, t.2), SetFocus(y, reason, t.3));
    var r1 := Focused(r, x, reason, Pointer.NoEdge, t.0);
    FreshFocus(r, x, reason, t.0);
    var r2 := KbdIn(r1, k, t.1);
    TypedAtNobody(r1, k, t.1);
    var r3 := Sighted(r2, m, t.2);
    SightedTakesFreeSlot(r2, m, t.2);
    FocusWithoutRelease(r3, y, reason, t.3);
  }

  /** For instance on the lonely coordinator. */
  lemma LonelyCoordinatorLeavesKeyStuck(k: Kbd, ttl: U8, port: Link.Port)
    ensures var v := After(Next(Boot(LONELY), Tick(150)),
                           [SetFocus(2, ByConfig, 200), Typed(k, 300),
                            Receive(Message(2, ttl, Some(port), Other), 400), SetFocus(1, ByConfig, 500)]);
            v.focus == 1 && InChain(v.chain, 2) && Told(v.out, 2) == NOTHING.(kbd := k)
  {
    hide Boot, Next, After, Told, Find, Invariant, FirstFree;
    LonelyBoots();
    LonelyCoordinatorIsUnanchored();
    BootKeeps(LONELY);
    NextKeeps(Boot(LONELY), Tick(150));
    var r := Next(Boot(LONELY), Tick(150));
    assert r.chain[1].None?;
    UnknownFocusLeavesKeyStuck(r, 2, k, Message(2, ttl, Some(port), Other), 1, ByConfig, (200, 300, 400, 500));
  }

  lemma FourSteps(r: State, a: Step, b: Step, c: Step, d: Step)
    ensures After(r, [a, b, c, d]) == Next(Next(Next(Next(r, a), b), c), d)
  {
    hide Next;
    assert [a, b, c, d][..3] == [a, b, c] && [a, b, c][..2] == [a, b] && [a, b][..1] == [a] && [a][..0] == [];
    assert After(r, [a]) == Next(r, a);
    assert After(r, [a, b]) == Next(After(r, [a]), b);
    assert After(r, [a, b, c]) == Next(After(r, [a, b]), c);
  }
}
