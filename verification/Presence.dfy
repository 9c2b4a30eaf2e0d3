/** How the boards of a chain come to know each other: hellos, resignations, capabilities, and the
    map of who sits where. */
module Presence {
  import opened Types
  import opened Hid
  import opened Router
  import opened Ledger
  import Uhrp
  import Handover
  import Pointer
  import Line
  import Link
  import Anchors
  import Arrival
  import Steering

  // ---- What is said when ----

  /** Among the outputs since r. */
  predicate Said(r: State, r1: State, o: Output) {
    r.out <= r1.out && o in r1.out[|r.out|..]
  }

  lemma SaidStill(r: State, r1: State, r2: State, o: Output)
    requires Said(r, r1, o) && r1.out <= r2.out
    ensures Said(r, r2, o)
  {
    var i :| 0 <= i < |r1.out[|r.out|..]| && r1.out[|r.out|..][i] == o;
    assert r2.out[|r.out|..][i] == o;
  }

  lemma SaysIt(r: State, r1: State, o: Output)
    requires r.out <= r1.out
    ensures Said(r, Says(r1, [o]), o)
  {
    var out := Says(r1, [o]).out;
    assert out[|r.out|..][|r1.out| - |r.out|] == o;
  }

  lemma InheritingAdds(r: State)
    ensures r.out <= Inheriting(r).out && Inheriting(r).uhrp == r.uhrp
  {
    hide Inherited;
  }

  /** Whatever the election asks for is said: a release, a resignation, a hello. */
  lemma DrainSays(r: State)
    ensures r.out <= Drained(r).out && Drained(r).uhrp == Uhrp.Drained(r.uhrp)
    ensures r.uhrp.ev.release ==> Said(r, Drained(r), ReleaseAll)
    ensures r.uhrp.ev.sendResign ==> Said(r, Drained(r), Resign)
    ensures r.uhrp.ev.sendHello ==> Said(r, Drained(r), SayHello(Uhrp.Announcement(r.uhrp)))
  {
    hide Said, Forgotten, Inheriting, Uhrp.Announcement;
    var ev := r.uhrp.ev;
    var r1 := r.(uhrp := Uhrp.Drained(r.uhrp));
    var r2 := if ev.release then ReleasedAll(r1) else r1;
    var r3 := if ev.sendResign then Says(r2, [Resign]) else r2;
    var hello := SayHello(Uhrp.Announcement(r3.uhrp));
    var r4 := if ev.sendHello then Says(r3, [hello]) else r3;
    SameAnnouncement(r.uhrp);
    InheritingAdds(r4);
    if ev.release {
      SaysIt(r, r1, ReleaseAll);
      SaidStill(r, Says(r1, [ReleaseAll]), Drained(r), ReleaseAll);
    }
    if ev.sendResign {
      SaysIt(r, r2, Resign);
      SaidStill(r, r3, Drained(r), Resign);
    }
    if ev.sendHello {
      SaysIt(r, r3, hello);
      SaidStill(r, r4, Drained(r), hello);
    }
  }

  lemma SameAnnouncement(u: Uhrp.State)
    ensures Uhrp.Announcement(Uhrp.Drained(u)) == Uhrp.Announcement(u)
  {
  }

  lemma PromotedHello(u: Uhrp.State, now: Time, clean: bool)
    ensures Uhrp.Promoted(u, now, clean).nextHello == Add32(now, u.cfg.timing.helloMs)
  {
    hide Add32;
  }

  predicate HelloAsIs(u: Uhrp.State, v: Uhrp.State) {
    v.cfg == u.cfg && v.nextHello == u.nextHello && v.ev.sendHello == u.ev.sendHello
  }

  lemma ServicedHello(u: Uhrp.State, now: Time)
    ensures HelloAsIs(u, Uhrp.Serviced(u, now)) && HelloAsIs(u, Uhrp.Scheduled(u, now))
  {
    hide TimeAfter, Add32;
  }

  lemma FollowsHello(u: Uhrp.State, v: Uhrp.State)
    requires Handover.Follows(u, v)
    ensures HelloAsIs(u, v)
  {
  }

  /** Judging leaves the hello timer alone, or promotes and restarts it. */
  lemma JudgedHello(u: Uhrp.State, now: Time)
    requires Handover.Sound(u)
    ensures var v := Uhrp.Evaluated(u, now);
            || HelloAsIs(u, v)
            || (v.cfg == u.cfg && v.nextHello == Add32(now, u.cfg.timing.helloMs) && v.ev.sendHello)
  {
    hide Uhrp.Judged, Uhrp.Backup, Uhrp.Promoted, Uhrp.Aged, Handover.Follows, Add32;
    var s := Uhrp.Surveyed(u, now);
    var b := Uhrp.Backup(Uhrp.FirstChoice(u), s.peers);
    if u.role == Uhrp.Active {
      HolderHello(s, b, now);
    } else {
      Handover.FollowerJudged(s, b, now);
      PromotedHello(s.(active := ADDR_NONE), now, s.clean || s.role == Uhrp.Learn);
      if Handover.Follows(s, Uhrp.Judged(s, b, now)) {
        FollowsHello(s, Uhrp.Judged(s, b, now));
      }
    }
  }

  lemma HolderHello(s: Uhrp.State, b: Uhrp.Choice, now: Time)
    requires s.role == Uhrp.Active
    ensures HelloAsIs(s, Uhrp.Judged(s, b, now))
  {
    hide Uhrp.MustYield, Uhrp.Serviced, Uhrp.Scheduled, Uhrp.FirstActive;
    ServicedHello(s, now);
    ServicedHello(Uhrp.Scheduled(s, now), now);
  }

  lemma TickAsksHello(u: Uhrp.State, now: Time)
    requires Handover.Sound(u) && TimeAfter(now, u.nextHello)
    ensures var v := Uhrp.Ticked(u, now);
            v.ev.sendHello && v.nextHello == Add32(now, u.cfg.timing.helloMs)
  {
    hide Uhrp.Evaluated, TimeAfter, Add32, Uhrp.Lost;
    JudgedHello(u.(clean := u.clean && !Uhrp.Lost(u, now)), now);
  }

  /** A hello falls due every hello interval, and a tick that finds it due says it: role, rank and
      capabilities as they are after the tick. */
  lemma DueHelloIsSaid(r: State, now: Time)
    requires Invariant(r) && TimeAfter(now, r.uhrp.nextHello)
    ensures var r1 := Next(r, Tick(now));
            && Said(r, r1, SayHello(Uhrp.Announcement(r1.uhrp)))
            && r1.uhrp.nextHello == Add32(now, r.uhrp.cfg.timing.helloMs)
  {
    hide Invariant, Said, Drained, Uhrp.Ticked, Uhrp.Announcement, TimeAfter, Add32;
    NoEvents(r);
    var r0 := r.(uhrp := Uhrp.Ticked(r.uhrp, now));
    TickAsksHello(r.uhrp, now);
    DrainSays(r0);
    SameAnnouncement(r0.uhrp);
    SaidFrom(r, r0, Drained(r0), SayHello(Uhrp.Announcement(r0.uhrp)));
  }

  lemma SaidFrom(r: State, r0: State, r1: State, o: Output)
    requires r0.out == r.out && Said(r0, r1, o)
    ensures Said(r, r1, o)
  {
  }

  lemma PromotionAsksHello(u: Uhrp.State, step: Handover.Step)
    requires Handover.Sound(u) && u.role != Uhrp.Active && Handover.Next(u, step).role == Uhrp.Active
    ensures Handover.Next(u, step).ev.sendHello
  {
    hide Uhrp.Judged, Handover.Noted, Handover.Next, Uhrp.Backup, Uhrp.FirstChoice, Uhrp.Aged, Uhrp.Promoted;
    Handover.StepShape(u, step);
    if Handover.Noted(u, step).Some? {
      Handover.NotedShape(u, step);
      Handover.JudgingShape(u, step);
      var n := Handover.Noted(u, step).value;
      var s := Uhrp.Surveyed(n, step.now);
      Handover.FollowerJudged(s, Uhrp.Backup(Uhrp.FirstChoice(n), s.peers), step.now);
      HelloKept(u, step);
    }
  }

  lemma HelloKept(u: Uhrp.State, step: Handover.Step)
    requires Handover.Noted(u, step).Some? && Handover.Timed(step)
    ensures Uhrp.Evaluated(Handover.Noted(u, step).value, step.now).ev.sendHello ==> Handover.Next(u, step).ev.sendHello
  {
    hide Uhrp.Evaluated, Uhrp.HelloNoted, Uhrp.ResignNoted, Uhrp.Place, Uhrp.Lost, TimeAfter, Add32;
  }

  lemma ElectionSays(r: State, step: Handover.Step)
    requires Invariant(r) && Handover.Timed(step)
    ensures var r1 := Drained(r.(uhrp := Handover.Next(r.uhrp, step)));
            && (!Speaking(r) && Speaking(r1) ==> Said(r, r1, SayHello(Uhrp.Announcement(r1.uhrp))))
            && (Speaking(r) && !Speaking(r1) ==> Said(r, r1, Resign))
  {
    hide Invariant, Said, Drained, Handover.Next, Uhrp.Announcement;
    NoEvents(r);
    var r0 := r.(uhrp := Handover.Next(r.uhrp, step));
    DrainSays(r0);
    SameAnnouncement(r0.uhrp);
    if !Speaking(r) && Speaking(r0) {
      PromotionAsksHello(r.uhrp, step);
      SaidFrom(r, r0, Drained(r0), SayHello(Uhrp.Announcement(r0.uhrp)));
    } else if Speaking(r) && !Speaking(r0) {
      Handover.LeavingResigns(r.uhrp, step);
      SaidFrom(r, r0, Drained(r0), Resign);
    }
  }

  /** The role never changes hands in silence: a board that takes it says a hello with it at once,
      and one that gives it up says so. */
  lemma RoleChangeIsSaid(r: State, step: Step)
    requires Invariant(r)
    ensures var r1 := Next(r, step);
            && (!Speaking(r) && Speaking(r1) ==> Said(r, r1, SayHello(Uhrp.Announcement(r1.uhrp))))
            && (Speaking(r) && !Speaking(r1) ==> Said(r, r1, Resign))
  {
    hide Invariant, Said, Uhrp.Announcement, KbdIn, MouseIn, Focused, Handled, Drained, Sighted, Uhrp.Ticked;
    match step
    case Typed(k, now) => InputKeepsRole(r, k, STILL, now);
    case Moved(m, now) => InputKeepsRole(r, LIFTED, m, now);
    case Button(now) => FocusedFlag(r, ButtonTarget(r), ByButton, Pointer.NoEdge, now);
    case SetFocus(target, reason, now) => FocusedFlag(r, target, reason, Pointer.NoEdge, now);
    case Receive(m, now) =>
      SightedKeeps(r, m, now);
      SightedOnlyChain(r, m, now);
      HandledSays(Sighted(r, m, now), m, now);
      var r1 := Next(r, step);
      if !Speaking(r) && Speaking(r1) {
        SaidFrom(r, Sighted(r, m, now), r1, SayHello(Uhrp.Announcement(r1.uhrp)));
      } else if Speaking(r) && !Speaking(r1) {
        SaidFrom(r, Sighted(r, m, now), r1, Resign);
      }
    case Tick(now) => ElectionSays(r, Handover.Tick(now));
    case SetCaps(_) => RecapsKeepRole(r, step);
  }

  lemma RecapsKeepRole(r: State, step: Step)
    requires step.SetCaps?
    ensures Speaking(Next(r, step)) == Speaking(r)
  {
    hide Find;
  }

  lemma InputKeepsRole(r: State, k: Kbd, m: Mouse, now: Time)
    requires Invariant(r)
    ensures Speaking(KbdIn(r, k, now)) == Speaking(r) && Speaking(MouseIn(r, m, now)) == Speaking(r)
  {
    NoEvents(r);
    hide Invariant, AnyHeld, NoteKbd, NoteMouse, SlotOf, Drained, NeighbourOf, Pointer.Crossing, Pointer.Moved, Focused;
    var r1 := Stepped(r, m, now);
    IdleDrain(KeysNoted(KbdSent(r, r.focus, k)));
    IdleDrain(KeysNoted(MouseSent(r1, r.focus, m)));
    var edge := Pointer.Crossing(r.gesture, r.pointer, Pointer.Report(m.dx, m.dy, now));
    FocusedFlag(r1, NeighbourOf(r1, r.focus, Heading(edge)), ByEdge, edge, now);
  }

  lemma HandledSays(r: State, m: Message, now: Time)
    requires Invariant(r)
    ensures var r1 := Handled(r, m, now);
            && (!Speaking(r) && Speaking(r1) ==> Said(r, r1, SayHello(Uhrp.Announcement(r1.uhrp))))
            && (Speaking(r) && !Speaking(r1) ==> Said(r, r1, Resign))
  {
    hide Invariant, Said, Uhrp.Announcement, KbdIn, MouseIn, Drained, Joined, Described, Forget, Released, Find;
    hide Uhrp.HelloHeard, Uhrp.ResignHeard;
    match m.body
    case Hello(h) =>
      DescribedKeeps(r, m.src, h);
      var r0 := Anchors.Introduced(r, m.src, h);
      ElectionSays(r0, Handover.HearHello(m.src, h, now));
      var r1 := Handled(r, m, now);
      if !Speaking(r) && Speaking(r1) {
        SaidFrom(r, r0, r1, SayHello(Uhrp.Announcement(r1.uhrp)));
      } else if Speaking(r) && !Speaking(r1) {
        SaidFrom(r, r0, r1, Resign);
      }
    case Resigning => ElectionSays(r, Handover.HearResign(m.src, now));
    case InputKbd(k) => InputKeepsRole(r, k, STILL, now);
    case InputMouse(k) => InputKeepsRole(r, LIFTED, k, now);
    case Focus(target) => ReleasedShape(Says(r.(focus := target), [FocusChanged(target)]), r.self);
    case _ =>
  }

  // ---- What a board says of itself stays true ----

  /** A board's rank and its own entry follow its capabilities. */
  predicate InSync(r: State) {
    && r.uhrp.cfg.caps == r.caps && r.uhrp.cfg.rank.priority == Uhrp.PriorityFromCaps(r.caps)
    && r.selfSlot < |r.chain| && r.chain[r.selfSlot].Some? && r.chain[r.selfSlot].value.addr == r.self
    && r.chain[r.selfSlot].value.caps == r.caps
  }

  /** The same board as far as its capabilities go. */
  predicate SameSelf(r: State, r1: State) {
    && Anchors.SameBoard(r, r1) && r1.uhrp.cfg == r.uhrp.cfg && r1.selfSlot == r.selfSlot
    && r1.chain == r.chain
  }

  lemma DrainedSelf(r: State)
    ensures SameSelf(r, Drained(r))
  {
    hide Forgotten, Inherited, Uhrp.Announcement;
  }

  lemma InputSelf(r: State, k: Kbd, m: Mouse, now: Time)
    ensures SameSelf(r, KbdIn(r, k, now)) && SameSelf(r, MouseIn(r, m, now))
  {
    hide AnyHeld, NoteKbd, NoteMouse, SlotOf, Drained, NeighbourOf, Pointer.Crossing, Pointer.Moved, Focused;
    var r1 := Stepped(r, m, now);
    DrainedSelf(KeysNoted(KbdSent(r, r.focus, k)));
    DrainedSelf(KeysNoted(MouseSent(r1, r.focus, m)));
    var edge := Pointer.Crossing(r.gesture, r.pointer, Pointer.Report(m.dx, m.dy, now));
    FocusedSelf(r1, NeighbourOf(r1, r.focus, Heading(edge)), ByEdge, edge, now);
  }

  lemma FocusedSelf(r: State, target: Addr, reason: Reason, edge: Pointer.Edge, now: Time)
    ensures SameSelf(r, Focused(r, target, reason, edge, now))
  {
    hide Released, Pointer.Arrived;
    ReleasedShape(r, r.focus);
  }

  lemma InSyncFrame(r: State, r1: State)
    requires InSync(r) && SameSelf(r, r1)
    ensures InSync(r1)
  {
  }

  lemma ElectionInSync(r: State, step: Handover.Step)
    requires Invariant(r) && InSync(r) && Handover.Timed(step)
    ensures InSync(Drained(r.(uhrp := Handover.Next(r.uhrp, step))))
  {
    hide Invariant, Drained, Handover.Next, InSync;
    NoEvents(r);
    Handover.AskedByStep(r.uhrp, step);
    var r0 := r.(uhrp := Handover.Next(r.uhrp, step));
    InSyncFrame(r, r0);
    DrainedSelf(r0);
    InSyncFrame(r0, Drained(r0));
  }

  /** Hearing another board leaves the own entry alone. */
  lemma OthersInSync(r: State, m: Message, now: Time)
    requires InSync(r) && m.src != r.self
    ensures InSync(Sighted(r, m, now))
    ensures forall h: Uhrp.Hello :: InSync(Anchors.Introduced(r, m.src, h))
  {
    hide Find, FirstFree, Uhrp.PriorityFromCaps;
  }

  lemma HandledInSync(r: State, m: Message, now: Time)
    requires Invariant(r) && InSync(r) && m.src != r.self
    ensures InSync(Handled(r, m, now))
  {
    hide Invariant, InSync, KbdIn, MouseIn, Drained, Joined, Described, Forget, Released, Find;
    hide Uhrp.HelloHeard, Uhrp.ResignHeard;
    var r1 := Handled(r, m, now);
    match m.body
    case Hello(h) =>
      DescribedKeeps(r, m.src, h);
      OthersInSync(r, m, now);
      ElectionInSync(Anchors.Introduced(r, m.src, h), Handover.HearHello(m.src, h, now));
    case Resigning => ElectionInSync(r, Handover.HearResign(m.src, now));
    case InputKbd(k) =>
      InputSelf(r, k, STILL, now);
      InSyncFrame(r, KbdIn(r, k, now));
    case InputMouse(k) =>
      InputSelf(r, LIFTED, k, now);
      InSyncFrame(r, MouseIn(r, k, now));
    case Focus(target) =>
      ReleasedShape(Says(r.(focus := target), [FocusChanged(target)]), r.self);
      InSyncFrame(r, r1);
    case _ => InSyncFrame(r, r1);
  }

  /** No frame of its own comes back to a board: the link drops those. */
  predicate Foreign(r: State, step: Step) {
    step.Receive? ==> step.m.src != r.self
  }

  lemma NextInSync(r: State, step: Step)
    requires Invariant(r) && InSync(r) && Foreign(r, step)
    ensures InSync(Next(r, step))
  {
    hide Invariant, InSync, KbdIn, MouseIn, Focused, Handled, Drained, Sighted, Uhrp.Ticked, ButtonTarget, Recapped;
    match step
    case Typed(k, now) =>
      InputSelf(r, k, STILL, now);
      InSyncFrame(r, KbdIn(r, k, now));
    case Moved(m, now) =>
      InputSelf(r, LIFTED, m, now);
      InSyncFrame(r, MouseIn(r, m, now));
    case Button(now) =>
      FocusedSelf(r, ButtonTarget(r), ByButton, Pointer.NoEdge, now);
      InSyncFrame(r, Next(r, step));
    case SetFocus(target, reason, now) =>
      FocusedSelf(r, target, reason, Pointer.NoEdge, now);
      InSyncFrame(r, Next(r, step));
    case Receive(m, now) =>
      SightedKeeps(r, m, now);
      SightedOnlyChain(r, m, now);
      OthersInSync(r, m, now);
      HandledInSync(Sighted(r, m, now), m, now);
    case Tick(now) => ElectionInSync(r, Handover.Tick(now));
    case SetCaps(caps) => RecappedInSync(r, caps);
  }

  lemma RecappedInSync(r: State, caps: Uhrp.Caps)
    requires Invariant(r) && InSync(r)
    ensures InSync(Recapped(r, caps))
  {
    hide Tracked, ResignedEmptyHanded, AnyHeld, Find, Uhrp.PriorityFromCaps, Handover.Sound;
    FindIs(r.chain, r.selfSlot);
  }

  lemma {:induction false} RunInSync(r: State, steps: seq<Step>)
    requires Invariant(r) && InSync(r) && AllAimed(r, steps)
    requires forall n :: 0 <= n < |steps| ==> Foreign(After(r, steps[..n]), steps[n])
    ensures Invariant(After(r, steps)) && InSync(After(r, steps))
  {
    hide Invariant, InSync, Aimed, Next, Foreign;
    if steps != [] {
      var pre, step := steps[..|steps| - 1], steps[|steps| - 1];
      assert forall n :: 0 <= n <= |pre| ==> pre[..n] == steps[..n];
      assert steps[..|pre|] == pre;
      RunInSync(r, pre);
      NextKeeps(After(r, pre), step);
      NextInSync(After(r, pre), step);
    }
  }

  lemma BootInSync(b: Setup)
    ensures InSync(Boot(b))
  {
    hide Pointer.Arrived, Find, Uhrp.PriorityFromCaps;
  }

  /** Over every run, whatever capabilities are plugged in and out: what a board announces is what
      it has, its rank is the one those capabilities earn, and its own entry says the same. */
  lemma AnnouncesWhatItHas(b: Setup, steps: seq<Step>)
    requires AllAimed(Boot(b), steps)
    requires forall n :: 0 <= n < |steps| ==> Foreign(After(Boot(b), steps[..n]), steps[n])
    ensures var r := After(Boot(b), steps);
            var h := Uhrp.Announcement(r.uhrp);
            InSync(r) && h.caps == r.caps && h.rank.priority == Uhrp.PriorityFromCaps(r.caps) && h.role == r.uhrp.role
  {
    hide Invariant, Boot, After, AllAimed, Foreign, Uhrp.PriorityFromCaps;
    BootKeeps(b);
    BootInSync(b);
    RunInSync(Boot(b), steps);
  }

  // ---- What others make of it ----

  /** There is an entry for addr, or room for one. */
  predicate Listable(r: State, addr: Addr) {
    InChain(r.chain, addr) || FirstFree(r.chain).Some?
  }

  lemma IntroducedIs(r: State, src: Addr, h: Uhrp.Hello)
    requires Listable(r, src)
    ensures exists i :: 0 <= i < |r.chain| && var e := Anchors.Introduced(r, src, h).chain[i];
              e.Some? && e.value.addr == src && e.value.caps == h.caps && e.value.uid == h.rank.uid
  {
    hide Find, FirstFree;
    var joined := Joined(r.chain, src);
    if Find(r.chain, src).None? {
      assert joined[FirstFree(r.chain).value].value.addr == src;
    }
    var at := Find(joined, src);
    assert at.Some?;
    assert Anchors.Introduced(r, src, h).chain[at.value].value.caps == h.caps;
  }

  lemma StillListable(r: State, m: Message, now: Time)
    requires Listable(r, m.src)
    ensures Listable(Sighted(r, m, now), m.src)
  {
    hide Find, FirstFree;
    if m.src != r.self && m.port.Some? {
      var joined := Joined(r.chain, m.src);
      assert Find(r.chain, m.src).None? ==> joined[FirstFree(r.chain).value].value.addr == m.src;
      var at := Find(joined, m.src);
      assert at.Some?;
      assert Sighted(r, m, now).chain[at.value].value.addr == m.src;
    }
  }

  /** A board that hears the hello of another one knows what it can do: whether it may type, and
      whether it is somewhere the user can go. */
  lemma HelloIntroduces(a: State, b: State, m: Message, now: Time)
    requires Invariant(a) && InSync(b) && m.src == b.self && m.body == Hello(Uhrp.Announcement(b.uhrp))
    requires Listable(a, b.self)
    ensures var a1 := Next(a, Receive(m, now));
            && (Arrival.KnownTypist(a1, b.self) <==> Uhrp.HidIn in b.caps)
            && (exists i :: Goes(a1, i, b.self) && a1.chain[i].value.caps == b.caps)
  {
    hide Invariant, Sighted, Drained, Joined, Described, Listable, Uhrp.HelloHeard, Uhrp.PriorityFromCaps;
    var h := Uhrp.Announcement(b.uhrp);
    var a0 := Sighted(a, m, now);
    SightedKeeps(a, m, now);
    SightedOnlyChain(a, m, now);
    StillListable(a, m, now);
    IntroducedIs(a0, m.src, h);
    DescribedKeeps(a0, m.src, h);
    var a1 := Anchors.Introduced(a0, m.src, h);
    Arrival.DrainedChain(a1.(uhrp := Uhrp.HelloHeard(a1.uhrp, m.src, h, now)));
    OneOfAName(a1, b.self);
    var i :| 0 <= i < |a0.chain| && var e := a1.chain[i]; e.Some? && e.value.addr == b.self && e.value.caps == h.caps;
    assert Goes(a1, i, b.self);
    var a2 := Next(a, Receive(m, now));
    assert forall k :: Goes(a2, k, b.self) ==> Goes(a1, k, b.self);
    KnownByEntry(a2, i, b.self);
  }

  lemma KnownByEntry(r: State, i: int, addr: Addr)
    requires Goes(r, i, addr) && forall k :: Goes(r, k, addr) ==> k == i
    ensures Arrival.KnownTypist(r, addr) <==> Uhrp.HidIn in r.chain[i].value.caps
  {
    if Arrival.KnownTypist(r, addr) {
      var k :| 0 <= k < |r.chain| && r.chain[k].Some? && r.chain[k].value.addr == addr
               && Uhrp.HidIn in r.chain[k].value.caps;
      assert Goes(r, k, addr);
    }
  }

  lemma OneOfAName(r: State, addr: Addr)
    requires Invariant(r)
    ensures forall i, j :: Goes(r, i, addr) && Goes(r, j, addr) ==> i == j
  {
    hide Tracked, ResignedEmptyHanded;
  }

  /** Entry i goes by this address. */
  predicate Goes(r: State, i: int, addr: Addr) {
    0 <= i < |r.chain| && r.chain[i].Some? && r.chain[i].value.addr == addr
  }

  // ---- The map ----

  /** Every other board in the table stands where it is, seen from board j of the line. */
  ghost predicate Charted(chain: Chain, self: Addr, addrs: seq<Addr>, j: nat) {
    forall k :: 0 <= k < |chain| && chain[k].Some? && chain[k].value.addr != self ==> Placed(chain[k].value, addrs, j)
  }

  ghost predicate Placed(e: Entry, addrs: seq<Addr>, j: nat) {
    exists i :: 0 <= i < |addrs| && addrs[i] == e.addr && e.pos == i - j
  }

  /** A frame that came over the line from another board, as the line delivers it. */
  ghost predicate Surveyed(step: Step, addrs: seq<Addr>, j: nat) {
    step.Receive? ==>
      && step.m.port.Some?
      && exists i :: 0 <= i < |addrs| && i != j && addrs[i] == step.m.src
                     && Line.RelPos(step.m.ttl, step.m.port.value) == i - j
  }

  /** That is how every frame arrives. */
  lemma LineSurveys(net: Line.Net, hop: Line.Hop, x: nat, addrs: seq<Addr>, body: Body, now: Time)
    requires Line.Reachable(net) && hop in net.wires && x < |net.wires[hop]|
    requires |addrs| == |net.boards| && forall i :: 0 <= i < |addrs| ==> addrs[i] == net.boards[i].addr
    requires 0 <= hop.at + Line.Dir(hop.heading) < |net.boards|
    ensures var f := net.wires[hop][x].frame;
            Surveyed(Receive(Message(f.src, f.ttl, Some(Line.ArrivalPort(hop.heading)), body), now), addrs,
                     hop.at + Line.Dir(hop.heading))
  {
    Line.PositionIsTrue(net, hop, x);
    Line.ReachableKeeps(net);
    var p := net.wires[hop][x];
    assert Line.WireOk(net, hop);
    assert Line.OnWire(net, hop, p);
    assert Line.SentOk(net, p.from);
  }

  lemma SightedCharts(r: State, m: Message, now: Time, addrs: seq<Addr>, j: nat)
    requires Charted(r.chain, r.self, addrs, j) && Unique(r.chain) && Surveyed(Receive(m, now), addrs, j)
    ensures Charted(Sighted(r, m, now).chain, r.self, addrs, j)
  {
    hide Find, FirstFree, Line.RelPos;
    if m.src != r.self {
      var joined := Joined(r.chain, m.src);
      var chain := Sighted(r, m, now).chain;
      forall k | 0 <= k < |chain| && chain[k].Some? && chain[k].value.addr != r.self
        ensures Placed(chain[k].value, addrs, j)
      {
        if chain[k].value.addr != m.src {
          assert chain[k] == r.chain[k];
        } else {
          JoinedOnce(r.chain, m.src, k);
        }
      }
    }
  }

  lemma JoinedOnce(chain: Chain, addr: Addr, k: nat)
    requires Unique(chain) && k < |chain|
    ensures var joined := Joined(chain, addr);
            joined[k].Some? && joined[k].value.addr == addr ==> Find(joined, addr) == Some(k)
  {
    hide Find, FirstFree;
    var joined := Joined(chain, addr);
    assert Find(joined, addr).Some? ==> joined[Find(joined, addr).value].value.addr == addr;
  }

  /** The board has its entry, unless the table has no room for it. */
  predicate ListedOrFull(chain: Chain, addr: Addr) {
    InChain(chain, addr) || FirstFree(chain).None?
  }

  lemma SightedIsListed(r: State, m: Message, now: Time)
    requires m.src != r.self && m.port.Some?
    ensures ListedOrFull(Sighted(r, m, now).chain, m.src)
  {
    hide Find, FirstFree;
    var joined := Joined(r.chain, m.src);
    if Find(r.chain, m.src).None? && FirstFree(r.chain).Some? {
      assert joined[FirstFree(r.chain).value].value.addr == m.src;
    }
    var at := Find(joined, m.src);
    if at.Some? {
      assert Sighted(r, m, now).chain[at.value].value.addr == m.src;
    } else {
      assert Sighted(r, m, now).chain == r.chain;
    }
  }

  /** Nothing else a message does moves anybody on the map. */
  lemma HandledCharts(r: State, m: Message, now: Time, addrs: seq<Addr>, j: nat)
    requires Charted(r.chain, r.self, addrs, j) && (m.body.Hello? ==> ListedOrFull(r.chain, m.src))
    ensures Charted(Handled(r, m, now).chain, r.self, addrs, j) && Handled(r, m, now).self == r.self
  {
    hide Find, KbdIn, MouseIn, Drained, Forget, Released, Placed, Uhrp.HelloHeard, Uhrp.ResignHeard;
    match m.body
    case Hello(h) =>
      var r0 := Anchors.Introduced(r, m.src, h);
      DrainedSelf(r0.(uhrp := Uhrp.HelloHeard(r0.uhrp, m.src, h, now)));
      DescribedCharts(r, m.src, h, addrs, j);
    case Resigning => DrainedSelf(r.(uhrp := Uhrp.ResignHeard(r.uhrp, m.src, now)));
    case InputKbd(k) => InputSelf(r, k, STILL, now);
    case InputMouse(k) => InputSelf(r, LIFTED, k, now);
    case Focus(target) => ReleasedShape(Says(r.(focus := target), [FocusChanged(target)]), r.self);
    case _ =>
  }

  lemma DescribedCharts(r: State, src: Addr, h: Uhrp.Hello, addrs: seq<Addr>, j: nat)
    requires Charted(r.chain, r.self, addrs, j) && ListedOrFull(r.chain, src)
    ensures Charted(Anchors.Introduced(r, src, h).chain, r.self, addrs, j)
  {
    hide Find, FirstFree;
    var chain := Anchors.Introduced(r, src, h).chain;
    forall k | 0 <= k < |chain| && chain[k].Some? && chain[k].value.addr != r.self
      ensures Placed(chain[k].value, addrs, j)
    {
      var e, was := chain[k].value, r.chain[k].value;
      assert e.addr == was.addr && e.pos == was.pos;
      assert Placed(was, addrs, j);
    }
  }

  lemma NextCharts(r: State, step: Step, addrs: seq<Addr>, j: nat)
    requires Invariant(r) && Charted(r.chain, r.self, addrs, j) && Surveyed(step, addrs, j) && Foreign(r, step)
    ensures Charted(Next(r, step).chain, r.self, addrs, j) && Next(r, step).self == r.self
  {
    assert Unique(r.chain);
    hide Invariant, KbdIn, MouseIn, Focused, Handled, Drained, Sighted, Uhrp.Ticked, ButtonTarget, Find, Placed;
    match step
    case Typed(k, now) => InputSelf(r, k, STILL, now);
    case Moved(m, now) => InputSelf(r, LIFTED, m, now);
    case Button(now) => FocusedSelf(r, ButtonTarget(r), ByButton, Pointer.NoEdge, now);
    case SetFocus(target, reason, now) => FocusedSelf(r, target, reason, Pointer.NoEdge, now);
    case Receive(m, now) =>
      SightedOnlyChain(r, m, now);
      SightedCharts(r, m, now, addrs, j);
      SightedIsListed(r, m, now);
      HandledCharts(Sighted(r, m, now), m, now, addrs, j);
    case Tick(now) => DrainedSelf(r.(uhrp := Uhrp.Ticked(r.uhrp, now)));
    case SetCaps(caps) => RecappedCharts(r, caps, addrs, j);
  }

  lemma RecappedCharts(r: State, caps: Uhrp.Caps, addrs: seq<Addr>, j: nat)
    requires Charted(r.chain, r.self, addrs, j)
    ensures Charted(Recapped(r, caps).chain, r.self, addrs, j) && Recapped(r, caps).self == r.self
  {
    hide Find, Placed;
  }

  lemma {:induction false} ChartedRun(r: State, steps: seq<Step>, addrs: seq<Addr>, j: nat)
    requires Invariant(r) && Charted(r.chain, r.self, addrs, j) && AllAimed(r, steps)
    requires forall n :: 0 <= n < |steps| ==>
               Surveyed(steps[n], addrs, j) && Foreign(After(r, steps[..n]), steps[n])
    ensures var r1 := After(r, steps); Invariant(r1) && Charted(r1.chain, r.self, addrs, j) && r1.self == r.self
  {
    hide Invariant, Charted, Aimed, Next, Surveyed, Foreign;
    if steps != [] {
      var pre, step := steps[..|steps| - 1], steps[|steps| - 1];
      assert forall n :: 0 <= n <= |pre| ==> pre[..n] == steps[..n];
      assert steps[..|pre|] == pre;
      ChartedRun(r, pre, addrs, j);
      NextKeeps(After(r, pre), step);
      NextCharts(After(r, pre), step, addrs, j);
    }
  }

  lemma BootCharts(b: Setup, addrs: seq<Addr>, j: nat)
    ensures Charted(Boot(b).chain, b.self, addrs, j) && Boot(b).self == b.self
  {
    hide Pointer.Arrived, Find, Uhrp.Configured;
  }

  /** Over every run on a line of boards, each board's table is a true map: every other board it
      lists is the distance away that its entry says, up-chain negative. */
  lemma TableIsATrueMap(b: Setup, steps: seq<Step>, addrs: seq<Addr>, j: nat)
    requires AllAimed(Boot(b), steps)
    requires forall n :: 0 <= n < |steps| ==>
               Surveyed(steps[n], addrs, j) && Foreign(After(Boot(b), steps[..n]), steps[n])
    ensures Charted(After(Boot(b), steps).chain, b.self, addrs, j)
  {
    hide Invariant, Boot, After, AllAimed, Charted, Surveyed, Foreign;
    BootKeeps(b);
    BootCharts(b, addrs, j);
    ChartedRun(Boot(b), steps, addrs, j);
  }

  /** So no two boards seem to sit in the same place, which is what steering relies on. */
  lemma TrueMapIsMapped(r: State, addrs: seq<Addr>, j: nat)
    requires Invariant(r) && Charted(r.chain, r.self, addrs, j) && j < |addrs| && addrs[j] == r.self
    requires forall i, k :: 0 <= i < k < |addrs| ==> addrs[i] != addrs[k]
    requires forall i :: 0 <= i < |addrs| ==> addrs[i] != ADDR_NONE
    ensures Steering.Mapped(r)
  {
    hide Tracked, ResignedEmptyHanded, AnyHeld, Handover.Sound;
    forall k | 0 <= k < |r.chain| && r.chain[k].Some?
      ensures exists i :: 0 <= i < |addrs| && addrs[i] == r.chain[k].value.addr && PosOf(r, r.chain[k].value) == i - j
    {
      if r.chain[k].value.addr == r.self {
        assert addrs[j] == r.chain[k].value.addr;
      } else {
        assert Placed(r.chain[k].value, addrs, j);
      }
    }
  }

  // ---- The first focus ----

  /** Screen t is as close to this board as any other. */
  ghost predicate Closest(r: State, t: nat) {
    && t < |r.chain| && IsScreen(r.chain[t]) && r.chain[t].value.addr != r.self
    && forall i :: 0 <= i < |r.chain| && IsScreen(r.chain[i]) && r.chain[i].value.addr != r.self ==>
         Far(r.chain[t].value.pos) <= Far(r.chain[i].value.pos)
  }

  /** A board that takes the role without knowing where the user is sends them to its own machine,
      if it has one, or else to the closest screen. */
  lemma FirstFocus(r: State)
    requires Named(r.chain) && Speaking(r) && r.uhrp.ev.changed && !InChain(r.chain, r.focus) && r.self != ADDR_NONE
    ensures var focus := Drained(r).focus;
            if Uhrp.HidOut in r.caps then focus == r.self
            else if Anchors.KnowsScreen(r) then exists t: nat :: Closest(r, t) && focus == r.chain[t].value.addr
            else focus == r.focus
  {
    hide Drained, Inheriting, ClosestScreen, Find;
    var r4 := Anchors.DrainedInherits(r);
    FirstFocusIs(r4);
    SameClosest(r, r4);
  }

  lemma FirstFocusIs(r: State)
    requires Named(r.chain) && !InChain(r.chain, r.focus) && r.self != ADDR_NONE
    ensures var focus := Inheriting(r).focus;
            if Uhrp.HidOut in r.caps then focus == r.self
            else if Anchors.KnowsScreen(r) then exists t: nat :: Closest(r, t) && focus == r.chain[t].value.addr
            else focus == r.focus
  {
    hide ClosestScreen, Find;
    var p := ClosestScreen(r, r.chain);
    if p.addr != ADDR_NONE {
      var t :| 0 <= t < |r.chain| && IsScreen(r.chain[t]) && r.chain[t].value.addr != r.self
               && p == Pick(r.chain[t].value.addr, Far(r.chain[t].value.pos));
      assert Closest(r, t);
    }
  }

  lemma SameClosest(r: State, r': State)
    requires r'.chain == r.chain && r'.self == r.self
    ensures forall t: nat :: Closest(r', t) <==> Closest(r, t)
    ensures Anchors.KnowsScreen(r') <==> Anchors.KnowsScreen(r)
  {
  }
}
