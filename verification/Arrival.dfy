/** What reaches the machines: from the board where something is typed, over the board that speaks
    for the chain, to the machine that has the focus. */
module Arrival {
  import opened Types
  import opened Hid
  import opened Router
  import opened Ledger
  import Uhrp
  import Handover
  import Pointer
  import Anchors

  /** What a board hands over on its USB side: reports to its machine, data to its client. */
  datatype Item = Keys(kbd: Kbd) | Motion(mouse: Mouse) | Bulk

  /** Reports for this board's own machine are handed over, and so is all it passes on. */
  function HandedBy(o: Output, self: Addr): seq<Item> {
    match o
    case TellKbd(to, k) => if to == self then [Keys(k)] else []
    case TellMouse(to, m) => if to == self then [Motion(m)] else []
    case PassKbd(k) => [Keys(k)]
    case PassMouse(m) => [Motion(m)]
    case PassData => [Bulk]
    case _ => []
  }

  /** Everything a board has handed over, in order. */
  function Handed(out: seq<Output>, self: Addr): seq<Item> {
    if out == [] then [] else Handed(out[..|out| - 1], self) + HandedBy(out[|out| - 1], self)
  }

  /** What a delivered frame carries for the machine of the board it is delivered to. */
  function Carried(b: Body): seq<Item> {
    match b
    case Keyboard(k) => [Keys(k)]
    case Movement(m) => [Motion(m)]
    case Release => [Keys(LIFTED), Motion(STILL)]
    case Data => [Bulk]
    case _ => []
  }

  lemma HandedOne(out: seq<Output>, o: Output, self: Addr)
    ensures Handed(out + [o], self) == Handed(out, self) + HandedBy(o, self)
  {
    assert (out + [o])[..|out|] == out;
  }

  lemma HandedTwo(out: seq<Output>, o: Output, o': Output, self: Addr)
    ensures Handed(out + [o, o'], self) == Handed(out, self) + HandedBy(o, self) + HandedBy(o', self)
  {
    assert out + [o, o'] == (out + [o]) + [o'];
    HandedOne(out, o, self);
    HandedOne(out + [o], o', self);
  }

  /** Outputs that concern no machine of this board. */
  predicate Elsewhere(o: Output) {
    o.SayHello? || o.SayFocus? || o.FocusChanged? || o.Resign? || o.ForwardKbd? || o.ForwardMouse?
  }

  lemma SaidElsewhere(r: State, o: Output)
    requires Elsewhere(o)
    ensures Handed(Says(r, [o]).out, r.self) == Handed(r.out, r.self)
  {
    hide Handed;
    HandedOne(r.out, o, r.self);
  }

  // ---- One step of a board that follows ----

  /** Draining hands nothing over unless a release or the role is in it. */
  lemma QuietDrain(r: State)
    requires !r.uhrp.ev.release && !Speaking(r)
    ensures Handed(Drained(r).out, r.self) == Handed(r.out, r.self) && Drained(r).self == r.self
  {
    hide Handed, Uhrp.Announcement, Inheriting;
    var r1 := r.(uhrp := Uhrp.Drained(r.uhrp));
    SaidElsewhere(r1, Resign);
    var r3 := if r.uhrp.ev.sendResign then Says(r1, [Resign]) else r1;
    SaidElsewhere(r3, SayHello(Uhrp.Announcement(r3.uhrp)));
  }

  lemma QuietElection(r: State, step: Handover.Step)
    requires Invariant(r) && !Speaking(r) && Handover.Timed(step)
    requires Handover.Next(r.uhrp, step).role != Uhrp.Active
    ensures var r1 := Drained(r.(uhrp := Handover.Next(r.uhrp, step)));
            Handed(r1.out, r1.self) == Handed(r.out, r.self) && r1.self == r.self
  {
    hide Handed, Tracked, ResignedEmptyHanded, AnyHeld, Unique, Handover.Next, Drained;
    Handover.FollowerAsksNothing(r.uhrp, step);
    QuietDrain(r.(uhrp := Handover.Next(r.uhrp, step)));
  }

  lemma NothingToRelease(r: State, addr: Addr)
    requires Invariant(r) && !Speaking(r)
    ensures Released(r, addr) == r
  {
    hide Tracked, ResignedEmptyHanded, Unique, Handover.Sound;
    HonestSlots(r);
    NothingMeansNotHeld(r.hid);
    SlotIs(r, addr);
  }

  lemma QuietFocus(r: State, target: Addr, reason: Reason, now: Time)
    requires Invariant(r) && !Speaking(r)
    ensures var r1 := Focused(r, target, reason, Pointer.NoEdge, now);
            Handed(r1.out, r1.self) == Handed(r.out, r.self) && r1.self == r.self
  {
    hide Invariant, Handed, Released, Pointer.Arrived;
    NothingToRelease(r, r.focus);
    HandedTwo(r.out, SayFocus(target, reason, Pointer.NoEdge), FocusChanged(target), r.self);
  }

  lemma FocusArmHandsNothing(r: State, target: Addr)
    requires Invariant(r) && !Speaking(r)
    ensures var r1 := FocusHeard(r, target); Handed(r1.out, r1.self) == Handed(r.out, r.self) && r1.self == r.self
  {
    hide Invariant, Handed, Released;
    NothingToReleaseAfter(r, target);
    HandedOne(r.out, FocusChanged(target), r.self);
  }

  lemma NothingToReleaseAfter(r: State, target: Addr)
    requires Invariant(r) && !Speaking(r)
    ensures var r1 := Says(r.(focus := target), [FocusChanged(target)]); Released(r1, r.self) == r1
  {
    hide Tracked, ResignedEmptyHanded, Unique, Handover.Sound;
    HonestSlots(r);
    NothingMeansNotHeld(r.hid);
    SlotIs(r, r.self);
  }

  /** Whatever its role, a board hands its machine exactly what a frame delivered to it carries. */
  lemma FrameIsHandedOver(r: State, m: Message, now: Time)
    requires Carried(m.body) != []
    ensures var r1 := Received(r, m, now);
            Handed(r1.out, r1.self) == Handed(r.out, r.self) + Carried(m.body) && r1.self == r.self
  {
    hide Handed, Sighted, Forget;
    SightedOnlyChain(r, m, now);
    match m.body
    case Keyboard(k) => HandedOne(r.out, PassKbd(k), r.self);
    case Movement(k) => HandedOne(r.out, PassMouse(k), r.self);
    case Data => HandedOne(r.out, PassData, r.self);
    case Release => HandedTwo(r.out, TellKbd(r.self, LIFTED), TellMouse(r.self, STILL), r.self);
  }

  lemma OtherFrame(r: State, m: Message, now: Time)
    requires Invariant(r) && !Speaking(r) && Carried(m.body) == [] && !Speaking(Handled(r, m, now))
    ensures var r1 := Handled(r, m, now); Handed(r1.out, r1.self) == Handed(r.out, r.self) && r1.self == r.self
  {
    hide Invariant, Handed, Drained, Joined, Described, FocusHeard, Find, Uhrp.HelloHeard, Uhrp.ResignHeard;
    match m.body
    case Hello(h) =>
      DescribedKeeps(r, m.src, h);
      var r1 := r.(chain := Described(Joined(r.chain, m.src), m.src, h.rank.uid, h.caps));
      RoleAfterDrain(r1.(uhrp := Uhrp.HelloHeard(r1.uhrp, m.src, h, now)));
      QuietElection(r1, Handover.HearHello(m.src, h, now));
    case Resigning =>
      RoleAfterDrain(r.(uhrp := Uhrp.ResignHeard(r.uhrp, m.src, now)));
      QuietElection(r, Handover.HearResign(m.src, now));
    case Focus(target) => FocusArmHandsNothing(r, target);
    case _ =>
  }

  lemma RoleAfterDrain(r: State)
    ensures Drained(r).uhrp.role == r.uhrp.role
  {
    hide Forgotten, Inherited, Uhrp.Announcement;
  }

  /** What the step brings for the machine. */
  function Brought(step: Step): seq<Item> {
    if step.Receive? then Carried(step.m.body) else []
  }

  /** A board that follows hands over exactly what is delivered to it. */
  lemma FollowerHandsOver(r: State, step: Step)
    requires Invariant(r) && !Speaking(r) && !Speaking(Next(r, step))
    ensures var r1 := Next(r, step);
            Handed(r1.out, r1.self) == Handed(r.out, r.self) + Brought(step) && r1.self == r.self
  {
    hide Invariant, Handed, Focused, Drained, Handled, Sighted, Uhrp.Ticked, Find;
    match step
    case Typed(k, now) => SaidElsewhere(r, ForwardKbd(r.uhrp.active, k));
    case Moved(m, now) => SaidElsewhere(r, ForwardMouse(r.uhrp.active, m));
    case Button(now) =>
    case SetFocus(target, reason, now) => QuietFocus(r, target, reason, now);
    case Receive(m, now) =>
      if Carried(m.body) != [] {
        FrameIsHandedOver(r, m, now);
      } else {
        SightedKeeps(r, m, now);
        SightedOnlyChain(r, m, now);
        OtherFrame(Sighted(r, m, now), m, now);
      }
    case Tick(now) =>
      RoleAfterDrain(r.(uhrp := Uhrp.Ticked(r.uhrp, now)));
      QuietElection(r, Handover.Tick(now));
    case SetCaps(_) =>
  }

  // ---- Runs of a board that follows ----

  function AllBrought(steps: seq<Step>): seq<Item> {
    if steps == [] then [] else AllBrought(steps[..|steps| - 1]) + Brought(steps[|steps| - 1])
  }

  ghost predicate NeverSpeaks(r: State, steps: seq<Step>) {
    forall n :: 0 <= n <= |steps| ==> !Speaking(After(r, steps[..n]))
  }

  lemma SilentIsAimed(r: State, step: Step)
    requires !Speaking(r)
    ensures Aimed(r, step)
  {
    hide Crosses, SendsOn, InChain, Sighted;
  }

  lemma {:induction false} FollowerRun(r: State, steps: seq<Step>)
    requires Invariant(r) && NeverSpeaks(r, steps)
    ensures Invariant(After(r, steps)) && After(r, steps).self == r.self
    ensures Handed(After(r, steps).out, r.self) == Handed(r.out, r.self) + AllBrought(steps)
  {
    hide Invariant, Next, Handed, Speaking, Brought, Aimed;
    if steps != [] {
      var pre, step := steps[..|steps| - 1], steps[|steps| - 1];
      assert forall n :: 0 <= n <= |pre| ==> pre[..n] == steps[..n];
      assert steps[..|steps|] == steps && steps[..|pre|] == pre;
      FollowerRun(r, pre);
      SilentIsAimed(After(r, pre), step);
      NextKeeps(After(r, pre), step);
      FollowerHandsOver(After(r, pre), step);
    }
  }

  lemma BootHandsNothing(b: Setup)
    ensures Handed(Boot(b).out, b.self) == [] && Boot(b).self == b.self && !Speaking(Boot(b))
  {
    hide Pointer.Arrived, Find, Uhrp.Configured;
  }

  /** From its start and for as long as it follows, a board has handed its machine the reports
      delivered to it, all of them, in order, and nothing else. */
  lemma FollowerIsTransparent(b: Setup, steps: seq<Step>)
    requires NeverSpeaks(Boot(b), steps)
    ensures Handed(After(Boot(b), steps).out, b.self) == AllBrought(steps)
  {
    hide Invariant, Boot, Handed, NeverSpeaks;
    BootKeeps(b);
    BootHandsNothing(b);
    FollowerRun(Boot(b), steps);
  }

  // ---- From the board that speaks to the machine ----

  /** The frames that what a board says puts on the chain for the board at addr. */
  function FramesBy(o: Output, addr: Addr): seq<Body> {
    match o
    case TellKbd(to, k) => if to == addr then [Keyboard(k)] else []
    case TellMouse(to, m) => if to == addr then [Movement(m)] else []
    case ReleaseAll => [Release]
    case _ => []
  }

  function FramesFor(out: seq<Output>, addr: Addr): seq<Body> {
    if out == [] then [] else FramesFor(out[..|out| - 1], addr) + FramesBy(out[|out| - 1], addr)
  }

  /** The reports in a sequence of frames, in order. */
  function AllCarried(bs: seq<Body>): seq<Item> {
    if bs == [] then [] else AllCarried(bs[..|bs| - 1]) + Carried(bs[|bs| - 1])
  }

  /** What a machine takes for pressed after these reports. */
  function Feels(items: seq<Item>): Pressed {
    if items == [] then NOTHING
    else
      var was, last := Feels(items[..|items| - 1]), items[|items| - 1];
      match last
      case Keys(k) => was.(kbd := k)
      case Motion(m) => was.(buttons := m.buttons)
      case Bulk => was
  }

  lemma FeelsOne(items: seq<Item>, last: Item)
    ensures Feels(items + [last]) ==
              match last
              case Keys(k) => Feels(items).(kbd := k)
              case Motion(m) => Feels(items).(buttons := m.buttons)
              case Bulk => Feels(items)
  {
    assert (items + [last])[..|items|] == items;
  }

  lemma AllCarriedOne(bs: seq<Body>, b: Body)
    ensures AllCarried(bs + [b]) == AllCarried(bs) + Carried(b)
  {
    assert (bs + [b])[..|bs|] == bs;
  }

  /** What a board has told a machine is what the frames it sent there make the machine feel. */
  lemma {:induction false} FramesCarryWhatIsTold(out: seq<Output>, addr: Addr)
    ensures Feels(AllCarried(FramesFor(out, addr))) == Told(out, addr)
  {
    hide Feels, Heard, Carried, FramesBy, AllCarried;
    if out == [] {
      NothingIsFelt();
    } else {
      var pre, o := out[..|out| - 1], out[|out| - 1];
      FramesCarryWhatIsTold(pre, addr);
      var bs := FramesFor(pre, addr);
      OneFrameEach(o, addr);
      if FramesBy(o, addr) != [] {
        AllCarriedOne(bs, FramesBy(o, addr)[0]);
        assert bs + FramesBy(o, addr) == bs + [FramesBy(o, addr)[0]];
      } else {
        assert bs + [] == bs;
      }
      LastFrameFelt(AllCarried(bs), o, addr);
    }
  }

  lemma NothingIsFelt()
    ensures Feels(AllCarried([])) == NOTHING
  {
  }

  lemma OneFrameEach(o: Output, addr: Addr)
    ensures |FramesBy(o, addr)| <= 1
  {
  }

  lemma LastFrameFelt(items: seq<Item>, o: Output, addr: Addr)
    ensures FramesBy(o, addr) != [] ==>
              Feels(items + Carried(FramesBy(o, addr)[0])) == Heard(Feels(items), o, addr)
    ensures FramesBy(o, addr) == [] ==> Heard(Feels(items), o, addr) == Feels(items)
  {
    hide Feels;
    match o
    case TellKbd(to, k) => FeelsOne(items, Keys(k));
    case TellMouse(to, m) => FeelsOne(items, Motion(m));
    case ReleaseAll =>
      FeelsOne(items, Keys(LIFTED));
      FeelsOne(items + [Keys(LIFTED)], Motion(STILL));
      assert items + [Keys(LIFTED), Motion(STILL)] == items + [Keys(LIFTED)] + [Motion(STILL)];
    case _ =>
  }

  /** End to end: if the frames a speaking board has sent to another board are what that board was
      delivered, in order and none lost, then the other board's machine feels exactly what the
      speaking board has told it; so if it feels anything pressed, it has the focus. */
  lemma MachineFeelsWhatItWasTold(a: State, b: Setup, steps: seq<Step>)
    requires Reachable(a) && NeverSpeaks(Boot(b), steps)
    requires AllBrought(steps) == AllCarried(FramesFor(a.out, b.self))
    ensures var felt := Feels(Handed(After(Boot(b), steps).out, b.self));
            felt == Told(a.out, b.self) && (felt != NOTHING ==> Speaking(a) && a.focus == b.self)
  {
    hide Reachable, NeverSpeaks, Handed, Feels, Told, After, Boot;
    FollowerIsTransparent(b, steps);
    FramesCarryWhatIsTold(a.out, b.self);
    if Told(a.out, b.self) != NOTHING {
      OnlyTheFocusedMachineHolds(a, b.self);
    }
  }

  // ---- From where it is typed to the board that speaks ----

  lemma FramesOne(out: seq<Output>, o: Output, addr: Addr)
    ensures FramesFor(out + [o], addr) == FramesFor(out, addr) + FramesBy(o, addr)
  {
    assert (out + [o])[..|out|] == out;
  }

  /** The report the step brings, if it brings one. */
  function Typing(step: Step): Option<Kbd> {
    if step.Typed? then Some(step.kbd)
    else if step.Receive? && step.m.body.InputKbd? then Some(step.m.body.kbd)
    else None
  }

  function Moving(step: Step): Option<Mouse> {
    if step.Moved? then Some(step.mouse)
    else if step.Receive? && step.m.body.InputMouse? then Some(step.m.body.mouse)
    else None
  }

  lemma KbdIsSentOn(r: State, k: Kbd, now: Time)
    requires r.uhrp.ev == Uhrp.NO_EVENTS && Speaking(r)
    ensures KbdIn(r, k, now).out == r.out + [TellKbd(r.focus, k)] && KbdIn(r, k, now).self == r.self
  {
    hide AnyHeld, NoteKbd, SlotOf, Drained;
    IdleDrain(KeysNoted(KbdSent(r, r.focus, k)));
  }

  lemma MouseIsSentOn(r: State, m: Mouse, now: Time)
    requires r.uhrp.ev == Uhrp.NO_EVENTS && Speaking(r) && !Crosses(r, m, now)
    ensures MouseIn(r, m, now).out == r.out + [TellMouse(r.focus, m)] && MouseIn(r, m, now).self == r.self
  {
    hide AnyHeld, NoteMouse, SlotOf, Drained, NeighbourOf, Pointer.Crossing, Pointer.Moved, Focused;
    IdleDrain(KeysNoted(MouseSent(Stepped(r, m, now), r.focus, m)));
  }

  /** All that input makes a speaking board say is that one report, to the focused machine. */
  lemma InputIsSaid(r: State, step: Step)
    requires Invariant(r) && TakesInput(r, step)
    ensures Typing(step).Some? || Moving(step).Some?
    ensures var o := if Typing(step).Some? then TellKbd(r.focus, Typing(step).value)
                     else TellMouse(r.focus, Moving(step).value);
            Next(r, step).out == r.out + [o] && Next(r, step).self == r.self
  {
    hide Invariant, KbdIn, MouseIn, Crosses, Sighted, Handled, SendsOn;
    NoEvents(r);
    match step
    case Typed(k, now) => KbdIsSentOn(r, k, now);
    case Moved(m, now) => MouseIsSentOn(r, m, now);
    case Receive(m, now) =>
      SightedOnlyChain(r, m, now);
      InputFrameIsSaid(Sighted(r, m, now), m, now);
  }

  lemma InputFrameIsSaid(r: State, m: Message, now: Time)
    requires r.uhrp.ev == Uhrp.NO_EVENTS && SendsOn(r, m, now)
    ensures m.body.InputKbd? || m.body.InputMouse?
    ensures var o := if m.body.InputKbd? then TellKbd(r.focus, m.body.kbd) else TellMouse(r.focus, m.body.mouse);
            Handled(r, m, now).out == r.out + [o] && Handled(r, m, now).self == r.self
  {
    hide KbdIn, MouseIn, Crosses, Find;
    if m.body.InputKbd? {
      KbdIsSentOn(r, m.body.kbd, now);
    } else {
      MouseIsSentOn(r, m.body.mouse, now);
    }
  }

  /** The focused machine gets the report, over the chain or directly, and no other machine gets
      anything. */
  lemma InputGoesToTheFocusOnly(r: State, step: Step, addr: Addr)
    requires Invariant(r) && TakesInput(r, step)
    ensures var b := if Typing(step).Some? then Keyboard(Typing(step).value) else Movement(Moving(step).value);
            var r1 := Next(r, step);
            && FramesFor(r1.out, addr) == FramesFor(r.out, addr) + (if addr == r.focus then [b] else [])
            && Handed(r1.out, r.self) == Handed(r.out, r.self) + (if r.self == r.focus then Carried(b) else [])
  {
    hide Invariant, TakesInput, Next, FramesFor, Handed;
    InputIsSaid(r, step);
    var o := if Typing(step).Some? then TellKbd(r.focus, Typing(step).value)
             else TellMouse(r.focus, Moving(step).value);
    FramesOne(r.out, o, addr);
    HandedOne(r.out, o, r.self);
  }

  /** The board at src is known to have a keyboard or mouse plugged in. */
  predicate KnownTypist(r: State, src: Addr) {
    exists i :: 0 <= i < |r.chain| && r.chain[i].Some? && r.chain[i].value.addr == src
                && Uhrp.HidIn in r.chain[i].value.caps
  }

  lemma TypistMayType(r: State, src: Addr)
    requires Unique(r.chain)
    ensures MayType(r, src) <==> Speaking(r) && KnownTypist(r, src)
  {
    hide Find;
    if KnownTypist(r, src) {
      var i :| 0 <= i < |r.chain| && r.chain[i].Some? && r.chain[i].value.addr == src
               && Uhrp.HidIn in r.chain[i].value.caps;
      FindIs(r.chain, i);
    }
    if Find(r.chain, src).Some? {
      assert r.chain[Find(r.chain, src).value].value.addr == src;
    }
  }

  /** A keystroke on a board that follows goes to the board it takes for the speaker, from there to
      the machine in focus, and from that machine's board into the machine: unchanged, and only
      there. */
  lemma KeystrokeArrives(c: State, a: State, b: State, k: Kbd, via: Message, last: Message, t: (Time, Time, Time))
    requires !Speaking(c) && Uhrp.HidIn in c.caps && c.uhrp.active == a.self != ADDR_NONE
    requires Invariant(a) && Speaking(a) && via.src == c.self && KnownTypist(Sighted(a, via, t.1), c.self)
    requires via.body == InputKbd(k) && last.body == Keyboard(k)
    ensures var c1, a1, b1 := Next(c, Typed(k, t.0)), Next(a, Receive(via, t.1)), Next(b, Receive(last, t.2));
            && c1 == c.(out := c.out + [ForwardKbd(a.self, k)])
            && (forall addr ::
                  FramesFor(a1.out, addr) == FramesFor(a.out, addr) + if addr == a.focus then [Keyboard(k)] else [])
            && (a.focus == a.self ==> Handed(a1.out, a.self) == Handed(a.out, a.self) + [Keys(k)])
            && Handed(b1.out, b.self) == Handed(b.out, b.self) + [Keys(k)]
  {
    hide Invariant, KnownTypist, FramesFor, Handed, Sighted, Find, KbdIn, Received;
    assert Next(c, Typed(k, t.0)) == c.(out := c.out + [ForwardKbd(a.self, k)]) by { ForwardedOn(c, k, STILL, t.0); }
    TypistIsHeard(a, via, t.1);
    forall addr: Addr
      ensures FramesFor(Next(a, Receive(via, t.1)).out, addr) ==
                FramesFor(a.out, addr) + if addr == a.focus then [Keyboard(k)] else []
    {
      InputGoesToTheFocusOnly(a, Receive(via, t.1), addr);
    }
    InputGoesToTheFocusOnly(a, Receive(via, t.1), a.focus);
    FrameIsHandedOver(b, last, t.2);
  }

  lemma ForwardedOn(c: State, k: Kbd, m: Mouse, now: Time)
    requires !Speaking(c) && Uhrp.HidIn in c.caps && c.uhrp.active != ADDR_NONE
    ensures KbdIn(c, k, now) == c.(out := c.out + [ForwardKbd(c.uhrp.active, k)])
    ensures MouseIn(c, m, now) == c.(out := c.out + [ForwardMouse(c.uhrp.active, m)])
  {
  }

  /** And so does a movement, unless it leads over the edge of the screen. */
  lemma MotionArrives(c: State, a: State, b: State, k: Mouse, via: Message, last: Message, t: (Time, Time, Time))
    requires !Speaking(c) && Uhrp.HidIn in c.caps && c.uhrp.active == a.self != ADDR_NONE
    requires Invariant(a) && Speaking(a) && via.src == c.self && KnownTypist(Sighted(a, via, t.1), c.self)
    requires via.body == InputMouse(k) && last.body == Movement(k) && !Crosses(Sighted(a, via, t.1), k, t.1)
    ensures var c1, a1, b1 := Next(c, Moved(k, t.0)), Next(a, Receive(via, t.1)), Next(b, Receive(last, t.2));
            && c1 == c.(out := c.out + [ForwardMouse(a.self, k)])
            && (forall addr ::
                  FramesFor(a1.out, addr) == FramesFor(a.out, addr) + if addr == a.focus then [Movement(k)] else [])
            && (a.focus == a.self ==> Handed(a1.out, a.self) == Handed(a.out, a.self) + [Motion(k)])
            && Handed(b1.out, b.self) == Handed(b.out, b.self) + [Motion(k)]
  {
    hide Invariant, KnownTypist, FramesFor, Handed, Sighted, Find, MouseIn, Received, Crosses;
    assert Next(c, Moved(k, t.0)) == c.(out := c.out + [ForwardMouse(a.self, k)]) by { ForwardedOn(c, LIFTED, k, t.0); }
    TypistIsHeard(a, via, t.1);
    forall addr: Addr
      ensures FramesFor(Next(a, Receive(via, t.1)).out, addr) ==
                FramesFor(a.out, addr) + if addr == a.focus then [Movement(k)] else []
    {
      InputGoesToTheFocusOnly(a, Receive(via, t.1), addr);
    }
    InputGoesToTheFocusOnly(a, Receive(via, t.1), a.focus);
    FrameIsHandedOver(b, last, t.2);
  }

  lemma TypistIsHeard(a: State, via: Message, now: Time)
    requires Invariant(a) && Speaking(a) && KnownTypist(Sighted(a, via, now), via.src)
    requires via.body.InputKbd? || (via.body.InputMouse? && !Crosses(Sighted(a, via, now), via.body.mouse, now))
    ensures TakesInput(a, Receive(via, now))
  {
    hide KnownTypist, Sighted, Find, Tracked, ResignedEmptyHanded, Crosses;
    SightedKeeps(a, via, now);
    SightedOnlyChain(a, via, now);
    TypistMayType(Sighted(a, via, now), via.src);
  }

  /** Input frames of any other board, or on a board that does not speak, do nothing at all. */
  lemma StrangersCannotType(a: State, m: Message, now: Time)
    requires Invariant(a) && (m.body.InputKbd? || m.body.InputMouse?)
    requires !Speaking(a) || !KnownTypist(Sighted(a, m, now), m.src)
    ensures Next(a, Receive(m, now)) == Sighted(a, m, now)
  {
    hide KnownTypist, Sighted, Find, Tracked, ResignedEmptyHanded, KbdIn, MouseIn;
    SightedKeeps(a, m, now);
    SightedOnlyChain(a, m, now);
    TypistMayType(Sighted(a, m, now), m.src);
  }

  // ---- The focus is shared, and survives the speaker ----

  /** The focus this board has last announced. */
  function SaidFocus(out: seq<Output>): Option<Addr> {
    if out == [] then None
    else if out[|out| - 1].SayFocus? then Some(out[|out| - 1].target)
    else SaidFocus(out[..|out| - 1])
  }

  lemma SaidOne(out: seq<Output>, o: Output)
    ensures SaidFocus(out + [o]) == if o.SayFocus? then Some(o.target) else SaidFocus(out)
  {
    assert (out + [o])[..|out|] == out;
  }

  lemma SaidTwo(out: seq<Output>, o: Output, o': Output)
    requires !o'.SayFocus?
    ensures SaidFocus(out + [o, o']) == if o.SayFocus? then Some(o.target) else SaidFocus(out)
  {
    hide SaidFocus;
    assert out + [o, o'] == (out + [o]) + [o'];
    SaidOne(out, o);
    SaidOne(out + [o], o');
  }

  /** A speaking board has announced the focus it has. */
  predicate Announced(r: State) {
    Speaking(r) ==> SaidFocus(r.out) == Some(r.focus)
  }

  lemma ReleasedSays(r: State, addr: Addr)
    ensures SaidFocus(Released(r, addr).out) == SaidFocus(r.out)
  {
    hide SaidFocus, SlotOf, Lift, SlotHeld;
    SaidTwo(r.out, TellKbd(addr, LIFTED), TellMouse(addr, STILL));
  }

  lemma FocusedAnnounces(r: State, target: Addr, reason: Reason, edge: Pointer.Edge, now: Time)
    requires Announced(r)
    ensures Announced(Focused(r, target, reason, edge, now))
  {
    hide SaidFocus, Released, Pointer.Arrived;
    var r1 := Released(r, r.focus);
    SaidTwo(r1.out, SayFocus(target, reason, edge), FocusChanged(target));
  }

  lemma LiftedSays(r: State)
    ensures SaidFocus(ReleasedAll(r).out) == SaidFocus(r.out)
  {
    hide SaidFocus, Forgotten;
    var os := [ReleaseAll, TellKbd(r.self, LIFTED), TellMouse(r.self, STILL)];
    assert r.out + os == (r.out + [ReleaseAll]) + [TellKbd(r.self, LIFTED), TellMouse(r.self, STILL)];
    SaidOne(r.out, ReleaseAll);
    SaidTwo(r.out + [ReleaseAll], TellKbd(r.self, LIFTED), TellMouse(r.self, STILL));
  }

  lemma InheritingAnnounces(r: State)
    requires Named(r.chain)
    ensures InChain(r.chain, Inheriting(r).focus) ==> SaidFocus(Inheriting(r).out) == Some(Inheriting(r).focus)
  {
    hide SaidFocus, Find, ClosestScreen;
    var f := Inherited(r);
    Anchors.NoneIsUnknown(r.chain);
    if f != ADDR_NONE {
      var o := SayFocus(f, ByFailover, Pointer.NoEdge);
      SaidOne(r.out, o);
      SaidTwo(r.out, o, FocusChanged(f));
      assert [o] + [FocusChanged(f)] == [o, FocusChanged(f)] && [o] + [] == [o];
    }
  }

  lemma DrainedAnnounces(r: State)
    requires Named(r.chain) && (Speaking(r) && !r.uhrp.ev.changed ==> SaidFocus(r.out) == Some(r.focus))
    ensures InChain(r.chain, Drained(r).focus) ==> Announced(Drained(r))
  {
    hide SaidFocus, InChain, Inheriting, ReleasedAll, Uhrp.Announcement;
    var ev := r.uhrp.ev;
    var r1 := r.(uhrp := Uhrp.Drained(r.uhrp));
    LiftedSays(r1);
    var r2 := if ev.release then ReleasedAll(r1) else r1;
    assert r2 == r1.(hid := r2.hid, out := r2.out) by { LiftedShape(r1); }
    SaidOne(r2.out, Resign);
    var r3 := if ev.sendResign then Says(r2, [Resign]) else r2;
    SaidOne(r3.out, SayHello(Uhrp.Announcement(r3.uhrp)));
    var r4 := if ev.sendHello then Says(r3, [SayHello(Uhrp.Announcement(r3.uhrp))]) else r3;
    InheritingAnnounces(r4);
    if ev.changed && r4.uhrp.role == Uhrp.Active {
      InheritingShape(r4);
    }
  }

  lemma LiftedShape(r: State)
    ensures ReleasedAll(r) == r.(hid := ReleasedAll(r).hid, out := ReleasedAll(r).out)
  {
    hide Forgotten;
  }

  lemma InheritingShape(r: State)
    ensures Inheriting(r) == r.(focus := Inheriting(r).focus, out := Inheriting(r).out)
  {
    hide Inherited;
  }

  /** No frame claims to come from the address that stands for none. */
  predicate Signed(step: Step) {
    step.Receive? ==> step.m.src != ADDR_NONE
  }

  lemma SightedNamed(r: State, m: Message, now: Time)
    requires Named(r.chain) && m.src != ADDR_NONE
    ensures Named(Sighted(r, m, now).chain)
    ensures forall h: Uhrp.Hello :: Named(Described(Joined(r.chain, m.src), m.src, h.rank.uid, h.caps))
  {
    hide Find, FirstFree;
  }

  lemma ElectionAnnounces(r: State, step: Handover.Step)
    requires Invariant(r) && Announced(r) && Named(r.chain) && Handover.Timed(step)
    ensures var r1 := Drained(r.(uhrp := Handover.Next(r.uhrp, step)));
            r1.chain == r.chain && (Anchored(r1) ==> Announced(r1))
  {
    hide Invariant, SaidFocus, InChain, Drained, Handover.Next, Handover.Sound;
    NoEvents(r);
    Handover.AskedByStep(r.uhrp, step);
    var r0 := r.(uhrp := Handover.Next(r.uhrp, step));
    DrainedAnnounces(r0);
    DrainedChain(r0);
    RoleAfterDrain(r0);
  }

  lemma DrainedChain(r: State)
    ensures Drained(r).chain == r.chain
  {
    hide Forgotten, Inherited, Uhrp.Announcement;
  }

  lemma InputAnnounces(r: State, k: Kbd, m: Mouse, now: Time)
    requires r.uhrp.ev == Uhrp.NO_EVENTS && Announced(r)
    ensures Announced(KbdIn(r, k, now)) && KbdIn(r, k, now).chain == r.chain
    ensures Announced(MouseIn(r, m, now)) && MouseIn(r, m, now).chain == r.chain
  {
    hide SaidFocus, NoteKbd, NoteMouse, SlotOf, AnyHeld, Drained, Focused, NeighbourOf, Pointer.Crossing, Pointer.Moved;
    var r1 := Stepped(r, m, now);
    IdleDrain(KeysNoted(KbdSent(r, r.focus, k)));
    IdleDrain(KeysNoted(MouseSent(r1, r.focus, m)));
    SaidOne(r.out, TellKbd(r.focus, k));
    SaidOne(r.out, TellMouse(r.focus, m));
    var edge := Pointer.Crossing(r.gesture, r.pointer, Pointer.Report(m.dx, m.dy, now));
    var target := NeighbourOf(r1, r.focus, Heading(edge));
    FocusedAnnounces(r1, target, ByEdge, edge, now);
    FocusedChain(r1, target, ByEdge, edge, now);
  }

  lemma FocusedChain(r: State, target: Addr, reason: Reason, edge: Pointer.Edge, now: Time)
    ensures Focused(r, target, reason, edge, now).chain == r.chain
  {
    hide Released, Pointer.Arrived;
    ReleasedShape(r, r.focus);
  }

  lemma HandledAnnounces(r: State, m: Message, now: Time)
    requires Invariant(r) && Announced(r) && Named(r.chain) && m.src != ADDR_NONE && Anchored(Handled(r, m, now))
    ensures Announced(Handled(r, m, now)) && Named(Handled(r, m, now).chain)
  {
    hide Invariant, SaidFocus, InChain, Drained, KbdIn, MouseIn, Joined, Described, Released, MayType, Forget;
    hide Uhrp.HelloHeard, Uhrp.ResignHeard;
    NoEvents(r);
    match m.body
    case Hello(h) =>
      DescribedKeeps(r, m.src, h);
      SightedNamed(r, m, now);
      var r1 := r.(chain := Described(Joined(r.chain, m.src), m.src, h.rank.uid, h.caps));
      ElectionAnnounces(r1, Handover.HearHello(m.src, h, now));
    case Resigning => ElectionAnnounces(r, Handover.HearResign(m.src, now));
    case InputKbd(k) => InputAnnounces(r, k, STILL, now);
    case InputMouse(k) => InputAnnounces(r, LIFTED, k, now);
    case Focus(target) => ReleasedShape(Says(r.(focus := target), [FocusChanged(target)]), r.self);
    case Keyboard(k) => SaidOne(r.out, PassKbd(k));
    case Movement(k) => SaidOne(r.out, PassMouse(k));
    case Data => SaidOne(r.out, PassData);
    case Release => SaidTwo(r.out, TellKbd(r.self, LIFTED), TellMouse(r.self, STILL));
    case Other =>
  }

  lemma NextAnnounces(r: State, step: Step)
    requires Invariant(r) && Announced(r) && Named(r.chain) && Signed(step) && Anchored(Next(r, step))
    ensures Announced(Next(r, step)) && Named(Next(r, step).chain)
  {
    hide Invariant, Announced, Anchored, Drained, KbdIn, MouseIn, Focused, Handled, Sighted, ButtonTarget, Recapped;
    hide Uhrp.Ticked;
    NoEvents(r);
    match step
    case Typed(k, now) => InputAnnounces(r, k, STILL, now);
    case Moved(m, now) => InputAnnounces(r, LIFTED, m, now);
    case Button(now) =>
      FocusedAnnounces(r, ButtonTarget(r), ByButton, Pointer.NoEdge, now);
      FocusedChain(r, ButtonTarget(r), ByButton, Pointer.NoEdge, now);
    case SetFocus(target, reason, now) =>
      FocusedAnnounces(r, target, reason, Pointer.NoEdge, now);
      FocusedChain(r, target, reason, Pointer.NoEdge, now);
    case Receive(m, now) =>
      SightedKeeps(r, m, now);
      SightedOnlyChain(r, m, now);
      SightedNamed(r, m, now);
      SameAnnounced(r, Sighted(r, m, now));
      HandledAnnounces(Sighted(r, m, now), m, now);
    case Tick(now) => ElectionAnnounces(r, Handover.Tick(now));
    case SetCaps(caps) => RecappedAnnounces(r, caps);
  }

  lemma SameAnnounced(r: State, r1: State)
    requires Announced(r) && r1.uhrp.role == r.uhrp.role && r1.out == r.out && r1.focus == r.focus
    ensures Announced(r1)
  {
    hide SaidFocus;
  }

  lemma RecappedAnnounces(r: State, caps: Uhrp.Caps)
    requires Announced(r) && Named(r.chain)
    ensures Announced(Recapped(r, caps)) && Named(Recapped(r, caps).chain)
  {
    hide SaidFocus, Find, Uhrp.PriorityFromCaps;
  }

  lemma {:induction false} AnnouncingRun(r: State, steps: seq<Step>)
    requires Invariant(r) && Anchored(r) && Announced(r) && Named(r.chain)
    requires Anchors.AllConsiderate(r, steps)
    requires forall n :: 0 <= n < |steps| ==> Signed(steps[n])
    ensures Announced(After(r, steps)) && Named(After(r, steps).chain)
  {
    hide Invariant, Anchored, Announced, Named, Next, Signed, Anchors.Considerate;
    if steps != [] {
      var pre, step := steps[..|steps| - 1], steps[|steps| - 1];
      assert forall n :: 0 <= n <= |pre| ==> pre[..n] == steps[..n];
      assert steps[..|pre|] == pre;
      AnnouncingRun(r, pre);
      Anchors.ConsiderateRun(r, pre);
      Anchors.ConsiderateStep(After(r, pre), step);
      NextAnnounces(After(r, pre), step);
    }
  }

  /** Over every run in which its promotions find it with somebody to serve, the focus a speaking
      board has last announced is the focus it has. */
  lemma SpeakerAnnouncesItsFocus(b: Setup, steps: seq<Step>)
    requires b.self != ADDR_NONE && Anchors.AllConsiderate(Boot(b), steps)
    requires forall n :: 0 <= n < |steps| ==> Signed(steps[n])
    ensures Announced(After(Boot(b), steps))
  {
    hide Invariant, Announced, After, Anchors.AllConsiderate, Signed;
    BootKeeps(b);
    BootIsNamed(b);
    AnnouncingRun(Boot(b), steps);
  }

  lemma BootIsNamed(b: Setup)
    requires b.self != ADDR_NONE
    ensures Named(Boot(b).chain) && Announced(Boot(b))
  {
    hide Pointer.Arrived, Find, Uhrp.Configured;
  }

  /** A board that follows takes the focus it hears announced, and keeps it. */
  lemma FollowerHearsFocus(r: State, step: Step)
    requires !Speaking(r) && !Speaking(Next(r, step)) && !step.SetFocus?
    ensures Next(r, step).focus == if step.Receive? && step.m.body.Focus? then step.m.body.target else r.focus
  {
    hide Find, Joined, Located, Described, Uhrp.HelloHeard, Uhrp.ResignHeard, Uhrp.Ticked, Drained, KbdIn, MouseIn;
    hide Released;
    if step.Receive? {
      var m, now := step.m, step.now;
      var r1 := Sighted(r, m, now);
      SightedOnlyChain(r, m, now);
      if Anchors.Asked(r1, m, now).Some? {
        FollowerDrains(Anchors.Asked(r1, m, now).value);
      } else if m.body.Focus? {
        ReleasedShape(Says(r1.(focus := m.body.target), [FocusChanged(m.body.target)]), r1.self);
      }
    } else if step.Tick? {
      FollowerDrains(r.(uhrp := Uhrp.Ticked(r.uhrp, step.now)));
    } else if step.Typed? || step.Moved? {
      HandedOnShape(r, step);
    }
  }

  lemma FollowerDrains(r: State)
    requires !Speaking(Drained(r))
    ensures Drained(r).focus == r.focus
  {
    hide Drained, Find;
    RoleAfterDrain(r);
    DrainKeepsFocus(r);
  }

  lemma HandedOnShape(r: State, step: Step)
    requires !Speaking(r) && (step.Typed? || step.Moved?)
    ensures Next(r, step).focus == r.focus
  {
  }

  /** Only a promotion without a known focus makes draining choose another one. */
  lemma DrainKeepsFocus(r: State)
    requires !Speaking(r) || (r.focus != ADDR_NONE && InChain(r.chain, r.focus))
    ensures Drained(r).focus == r.focus
  {
    hide Forgotten, Uhrp.Announcement, Find;
  }

  /** A role is only ever gained by draining what the election asks for. */
  lemma PromotedByElection(r: State, step: Step)
    requires Invariant(r) && !Speaking(r) && Speaking(Next(r, step)) && InChain(r.chain, r.focus)
    ensures Anchors.Pending(r, step).Some?
    ensures var r0 := Anchors.Pending(r, step).value;
            Next(r, step) == Drained(r0) && r0.focus == r.focus && InChain(r0.chain, r.focus)
  {
    hide Invariant, InChain, Joined, Described, Uhrp.HelloHeard, Uhrp.ResignHeard, Uhrp.Ticked, Drained, Sighted, Find;
    hide Released, Focused;
    match step
    case SetFocus(target, reason, now) => FocusedFlag(r, target, reason, Pointer.NoEdge, now);
    case Receive(m, now) =>
      var r1 := Sighted(r, m, now);
      SightedOnlyChain(r, m, now);
      SightedKeeps(r, m, now);
      AnchoredIfSpeaking(r, m, now);
      if m.body.Hello? {
        AnchoredIfIntroduced(r1, m.src, m.body.hello);
      } else if m.body.Focus? {
        ReleasedShape(Says(r1.(focus := m.body.target), [FocusChanged(m.body.target)]), r1.self);
      }
    case _ =>
  }

  lemma AnchoredIfSpeaking(r: State, m: Message, now: Time)
    requires InChain(r.chain, r.focus)
    ensures InChain(Sighted(r, m, now).chain, r.focus)
  {
    hide Find, FirstFree;
    KnownStays(r.chain, Sighted(r, m, now).chain, r.focus);
  }

  lemma AnchoredIfIntroduced(r: State, src: Addr, h: Uhrp.Hello)
    requires InChain(r.chain, r.focus)
    ensures InChain(Anchors.Introduced(r, src, h).chain, r.focus)
  {
    hide Find, FirstFree;
    KnownStays(r.chain, Anchors.Introduced(r, src, h).chain, r.focus);
  }

  /** When the speaker is gone and another board takes over, the user stays where they are: a
      board that knows the focus keeps it, whatever made it take the role, and announces it. */
  lemma FailoverKeepsTheFocus(r: State, step: Step)
    requires Invariant(r) && !Speaking(r) && Speaking(Next(r, step)) && InChain(r.chain, r.focus)
    requires Named(r.chain) && Signed(step)
    ensures Next(r, step).focus == r.focus && SaidFocus(Next(r, step).out) == Some(r.focus)
  {
    hide Invariant, SaidFocus, Find, Next, Drained, Signed, Anchors.Pending;
    Anchors.NoneIsUnknown(r.chain);
    PromotedByElection(r, step);
    var r0 := Anchors.Pending(r, step).value;
    DrainKeepsFocus(r0);
    DrainedChain(r0);
    NextAnnounces(r, step);
  }
}
