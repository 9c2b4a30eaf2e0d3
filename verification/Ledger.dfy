/** No key is ever left held: what a board has told each machine, over every run of its
    router, tracker and election together. */
module Ledger {
  import opened Types
  import opened Hid
  import opened Router
  import Uhrp
  import Handover
  import Pointer
  import Line

  /** One machine's view after one more output of this board. */
  function Heard(was: Pressed, o: Output, addr: Addr): Pressed {
    if o == ReleaseAll then NOTHING
    else if o.TellKbd? && o.to == addr then was.(kbd := o.kbd)
    else if o.TellMouse? && o.to == addr then was.(buttons := o.mouse.buttons)
    else was
  }

  /** What the machine at addr believes is pressed, by all this board has ever told it. */
  function Told(out: seq<Output>, addr: Addr): Pressed {
    if out == [] then NOTHING else Heard(Told(out[..|out| - 1], addr), out[|out| - 1], addr)
  }

  /** Outputs that tell no machine anything. */
  predicate Silent(o: Output) {
    !o.TellKbd? && !o.TellMouse? && !o.ReleaseAll?
  }

  lemma ToldOne(out: seq<Output>, o: Output, addr: Addr)
    ensures Told(out + [o], addr) == Heard(Told(out, addr), o, addr)
  {
    assert (out + [o])[..|out|] == out;
  }

  lemma ToldSilent(out: seq<Output>, o: Output)
    requires Silent(o)
    ensures forall addr :: Told(out + [o], addr) == Told(out, addr)
  {
    forall addr ensures Told(out + [o], addr) == Told(out, addr) {
      ToldOne(out, o, addr);
    }
  }

  lemma ToldLift(out: seq<Output>, to: Addr)
    ensures Told(out + [TellKbd(to, LIFTED), TellMouse(to, STILL)], to) == NOTHING
    ensures forall addr :: addr != to ==>
              Told(out + [TellKbd(to, LIFTED), TellMouse(to, STILL)], addr) == Told(out, addr)
  {
    var k, m := TellKbd(to, LIFTED), TellMouse(to, STILL);
    assert out + [k, m] == (out + [k]) + [m];
    forall addr: Addr ensures Told(out + [k, m], addr) == if addr == to then NOTHING else Told(out, addr) {
      ToldOne(out, k, addr);
      ToldOne(out + [k], m, addr);
    }
  }

  lemma ToldReleaseAll(out: seq<Output>, self: Addr)
    ensures forall addr :: Told(out + [ReleaseAll, TellKbd(self, LIFTED), TellMouse(self, STILL)], addr) == NOTHING
  {
    var os := [ReleaseAll, TellKbd(self, LIFTED), TellMouse(self, STILL)];
    assert out + os == (out + [ReleaseAll]) + [TellKbd(self, LIFTED), TellMouse(self, STILL)];
    forall addr: Addr ensures Told(out + os, addr) == NOTHING {
      ToldOne(out, ReleaseAll, addr);
      ToldLift(out + [ReleaseAll], self);
    }
  }

  // ---- The invariant ----

  /** The tables fit each other. */
  ghost predicate Shaped(r: State) {
    && |r.hid| == |r.chain| == MAX_BOARDS && r.selfSlot < MAX_BOARDS
    && r.chain[r.selfSlot].Some? && r.chain[r.selfSlot].value.addr == r.self
    && Unique(r.chain)
    && r.uhrp.ev == Uhrp.NO_EVENTS && Handover.Sound(r.uhrp)
  }

  ghost predicate Unique(chain: Chain) {
    forall i, j :: 0 <= i < j < |chain| && chain[i].Some? && chain[j].Some? ==>
      chain[i].value.addr != chain[j].value.addr
  }

  predicate InChain(chain: Chain, addr: Addr) {
    Find(chain, addr).Some?
  }

  /** The tracker slot of every machine is exactly what the machine has been told; slots and
      addresses that belong together with nobody have heard nothing. */
  ghost predicate Tracked(chain: Chain, hid: Slots, out: seq<Output>)
    requires |hid| == |chain|
  {
    && (forall i :: 0 <= i < |hid| ==> Honest(hid[i]))
    && (forall i :: 0 <= i < |hid| ==>
          if chain[i].Some? then Told(out, chain[i].value.addr) == hid[i].pressed else hid[i].pressed == NOTHING)
    && (forall addr :: !InChain(chain, addr) ==> Told(out, addr) == NOTHING)
  }

  predicate NothingHeld(hid: Slots) {
    forall i :: 0 <= i < |hid| ==> hid[i].pressed == NOTHING
  }

  /** Only the machine with the focus may hold anything. */
  predicate OnlyFocusHolds(chain: Chain, hid: Slots, focus: Addr)
    requires |hid| == |chain|
  {
    forall i :: 0 <= i < |hid| && hid[i].pressed != NOTHING ==> chain[i].Some? && chain[i].value.addr == focus
  }

  /** Each resignation so far came when no machine at all had anything held. */
  ghost predicate ResignedEmptyHanded(out: seq<Output>) {
    forall p, addr :: 0 <= p < |out| && out[p] == Resign ==> Told(out[..p], addr) == NOTHING
  }

  ghost predicate Invariant(r: State) {
    && Shaped(r)
    && Tracked(r.chain, r.hid, r.out)
    && (if Speaking(r) then OnlyFocusHolds(r.chain, r.hid, r.focus) else NothingHeld(r.hid))
    && (AnyHeld(r.hid) ==> r.uhrp.keysHeld)
    && ResignedEmptyHanded(r.out)
  }

  /** A board that speaks for the chain serves a machine it knows. */
  predicate Anchored(r: State) {
    Speaking(r) ==> InChain(r.chain, r.focus)
  }

  // ---- Tables ----

  lemma SlotIs(r: State, addr: Addr)
    requires Shaped(r)
    ensures SlotOf(r, addr) < |r.hid|
    ensures InChain(r.chain, addr) ==>
              r.chain[SlotOf(r, addr)].Some? && r.chain[SlotOf(r, addr)].value.addr == addr
    ensures !InChain(r.chain, addr) ==> SlotOf(r, addr) == r.selfSlot
  {
    hide Find;
  }

  lemma FindIs(chain: Chain, i: nat)
    requires Unique(chain) && i < |chain| && chain[i].Some?
    ensures Find(chain, chain[i].value.addr) == Some(i)
  {
    hide Find;
    var at := Find(chain, chain[i].value.addr);
    assert at.Some?;
  }

  lemma NothingMeansNotHeld(hid: Slots)
    requires forall i :: 0 <= i < |hid| ==> Honest(hid[i])
    ensures AnyHeld(hid) <==> !NothingHeld(hid)
  {
    forall i | 0 <= i < |hid| ensures Held(hid[i]) <==> hid[i].pressed != NOTHING {
      HeldMeansPressed(hid[i]);
    }
  }

  /** When nothing is held, nobody has been told anything. */
  lemma NothingToldToAnyone(chain: Chain, hid: Slots, out: seq<Output>)
    requires |hid| == |chain| && Tracked(chain, hid, out) && NothingHeld(hid)
    ensures forall addr :: Told(out, addr) == NOTHING
  {
    hide Find, Told;
    forall addr: Addr ensures Told(out, addr) == NOTHING {
      if InChain(chain, addr) {
        assert chain[Find(chain, addr).value].value.addr == addr;
      }
    }
  }

  /** Same bookkeeping after outputs that tell nobody anything. */
  lemma TrackedSilent(chain: Chain, hid: Slots, out: seq<Output>, o: Output)
    requires |hid| == |chain| && Tracked(chain, hid, out) && Silent(o)
    ensures Tracked(chain, hid, out + [o])
  {
    hide Told, InChain, Honest;
    ToldSilent(out, o);
  }

  lemma ResignKept(out: seq<Output>, o: Output)
    requires ResignedEmptyHanded(out)
    requires o == Resign ==> forall addr :: Told(out, addr) == NOTHING
    ensures ResignedEmptyHanded(out + [o])
  {
    hide Told;
    var out' := out + [o];
    forall p, addr | 0 <= p < |out'| && out'[p] == Resign ensures Told(out'[..p], addr) == NOTHING {
      assert out'[..p] == out[..p];
      assert p == |out| ==> out[..p] == out;
    }
  }

  /** The same boards in the same slots. */
  predicate SameNames(chain: Chain, chain': Chain) {
    && |chain'| == |chain|
    && forall i :: 0 <= i < |chain| ==>
         (chain'[i].Some? <==> chain[i].Some?) && (chain[i].Some? ==> chain'[i].value.addr == chain[i].value.addr)
  }

  lemma SameNamesFind(chain: Chain, chain': Chain, addr: Addr)
    requires SameNames(chain, chain')
    ensures InChain(chain', addr) <==> InChain(chain, addr)
  {
    hide Find;
  }

  lemma SameNamesKeep(chain: Chain, chain': Chain, hid: Slots, out: seq<Output>)
    requires |hid| == |chain| && Tracked(chain, hid, out) && SameNames(chain, chain') && Unique(chain)
    ensures Tracked(chain', hid, out) && Unique(chain')
  {
    hide Told, InChain, Honest;
    forall addr: Addr ensures InChain(chain', addr) <==> InChain(chain, addr) {
      SameNamesFind(chain, chain', addr);
    }
  }

  lemma JoinedKeeps(chain: Chain, addr: Addr, hid: Slots, out: seq<Output>)
    requires |hid| == |chain| && Tracked(chain, hid, out) && Unique(chain)
    ensures Tracked(Joined(chain, addr), hid, out) && Unique(Joined(chain, addr))
    ensures forall i :: 0 <= i < |chain| && chain[i].Some? ==> Joined(chain, addr)[i] == chain[i]
  {
    hide Told, Honest, Find, FirstFree;
    var at := FirstFree(chain);
    if Find(chain, addr).None? && at.Some? {
      var chain' := Joined(chain, addr);
      assert chain'[at.value].Some? && chain'[at.value].value.addr == addr;
      forall a: Addr | InChain(chain, a) ensures InChain(chain', a) {
        assert chain'[Find(chain, a).value] == chain[Find(chain, a).value];
      }
      assert Told(out, addr) == NOTHING;
    }
  }

  lemma KnownStays(chain: Chain, chain': Chain, addr: Addr)
    requires |chain'| == |chain| && InChain(chain, addr)
    requires forall i :: 0 <= i < |chain| && chain[i].Some? ==>
              chain'[i].Some? && chain'[i].value.addr == chain[i].value.addr
    ensures InChain(chain', addr)
  {
    hide Find;
    assert chain'[Find(chain, addr).value].Some?;
  }

  // ---- What each output does to the books ----

  /** The bookkeeping part of the invariant. */
  ghost predicate Books(r: State) {
    |r.hid| == |r.chain| && Tracked(r.chain, r.hid, r.out) && ResignedEmptyHanded(r.out)
  }

  lemma SayKeeps(r: State, o: Output)
    requires Books(r) && Silent(o) && o != Resign
    ensures Books(Says(r, [o]))
  {
    hide Tracked, ResignedEmptyHanded;
    TrackedSilent(r.chain, r.hid, r.out, o);
    ResignKept(r.out, o);
  }

  lemma SayResign(r: State)
    requires Books(r) && NothingHeld(r.hid)
    ensures Books(Says(r, [Resign]))
  {
    hide Tracked, ResignedEmptyHanded;
    NothingToldToAnyone(r.chain, r.hid, r.out);
    TrackedSilent(r.chain, r.hid, r.out, Resign);
    ResignKept(r.out, Resign);
  }

  lemma ResignKeptTwice(out: seq<Output>, o: Output, o': Output)
    requires ResignedEmptyHanded(out) && o != Resign && o' != Resign
    ensures ResignedEmptyHanded(out + [o, o'])
  {
    hide ResignedEmptyHanded;
    assert out + [o, o'] == (out + [o]) + [o'];
    ResignKept(out, o);
    ResignKept(out + [o], o');
  }

  /** Slot i now holds what the one machine it belongs to was just told. */
  lemma OneTold(chain: Chain, hid: Slots, out: seq<Output>, out': seq<Output>, i: nat, s: Sent)
    requires |hid| == |chain| && Tracked(chain, hid, out) && Unique(chain) && i < |chain| && chain[i].Some?
    requires Told(out', chain[i].value.addr) == s.pressed && Honest(s)
    requires forall addr :: addr != chain[i].value.addr ==> Told(out', addr) == Told(out, addr)
    ensures Tracked(chain, hid[i := s], out')
  {
    hide Told, Honest, Find;
    assert InChain(chain, chain[i].value.addr);
  }

  lemma KbdSentKeeps(r: State, to: Addr, k: Kbd)
    requires Shaped(r) && Books(r) && InChain(r.chain, to)
    ensures Books(KbdSent(r, to, k))
    ensures OnlyFocusHolds(r.chain, r.hid, to) ==> OnlyFocusHolds(r.chain, KbdSent(r, to, k).hid, to)
  {
    hide Told, Find, ResignedEmptyHanded, InChain;
    SlotIs(r, to);
    var i := SlotOf(r, to);
    forall addr: Addr ensures Told(r.out + [TellKbd(to, k)], addr) == Heard(Told(r.out, addr), TellKbd(to, k), addr) {
      ToldOne(r.out, TellKbd(to, k), addr);
    }
    OneTold(r.chain, r.hid, r.out, r.out + [TellKbd(to, k)], i, Sent(true, r.hid[i].pressed.(kbd := k)));
    ResignKept(r.out, TellKbd(to, k));
  }

  lemma MouseSentKeeps(r: State, to: Addr, m: Mouse)
    requires Shaped(r) && Books(r) && InChain(r.chain, to)
    ensures Books(MouseSent(r, to, m))
    ensures OnlyFocusHolds(r.chain, r.hid, to) ==> OnlyFocusHolds(r.chain, MouseSent(r, to, m).hid, to)
  {
    hide Told, Find, ResignedEmptyHanded, InChain;
    SlotIs(r, to);
    var i := SlotOf(r, to);
    forall addr: Addr
      ensures Told(r.out + [TellMouse(to, m)], addr) == Heard(Told(r.out, addr), TellMouse(to, m), addr)
    {
      ToldOne(r.out, TellMouse(to, m), addr);
    }
    OneTold(r.chain, r.hid, r.out, r.out + [TellMouse(to, m)], i, Sent(true, r.hid[i].pressed.(buttons := m.buttons)));
    ResignKept(r.out, TellMouse(to, m));
  }

  /** Releasing the one machine that may hold anything leaves nothing held. */
  lemma ReleasedKeeps(r: State, addr: Addr)
    requires Shaped(r) && Books(r)
    requires NothingHeld(r.hid) || (InChain(r.chain, addr) && OnlyFocusHolds(r.chain, r.hid, addr))
    ensures Books(Released(r, addr)) && NothingHeld(Released(r, addr).hid)
  {
    hide Told, Find, ResignedEmptyHanded, InChain, Held;
    SlotIs(r, addr);
    var i := SlotOf(r, addr);
    HeldMeansPressed(r.hid[i]);
    if SlotHeld(r.hid, i) {
      ToldLift(r.out, addr);
      OneTold(r.chain, r.hid, r.out, r.out + [TellKbd(addr, LIFTED), TellMouse(addr, STILL)], i,
              r.hid[i].(pressed := NOTHING));
      ResignKeptTwice(r.out, TellKbd(addr, LIFTED), TellMouse(addr, STILL));
      OthersHoldNothing(r, addr, i);
    } else if !NothingHeld(r.hid) {
      OthersHoldNothing(r, addr, i);
    }
  }

  lemma OthersHoldNothing(r: State, addr: Addr, i: nat)
    requires Shaped(r) && OnlyFocusHolds(r.chain, r.hid, addr) && i < |r.chain|
    requires r.chain[i].Some? && r.chain[i].value.addr == addr
    ensures forall k :: 0 <= k < |r.hid| && k != i ==> r.hid[k].pressed == NOTHING
  {
  }

  lemma ReleasedAllKeeps(r: State)
    requires Books(r)
    ensures Books(ReleasedAll(r)) && NothingHeld(ReleasedAll(r).hid)
  {
    hide Told, InChain, ResignedEmptyHanded;
    var os := [ReleaseAll, TellKbd(r.self, LIFTED), TellMouse(r.self, STILL)];
    ToldReleaseAll(r.out, r.self);
    ResignKept(r.out, ReleaseAll);
    ResignKeptTwice(r.out + [ReleaseAll], TellKbd(r.self, LIFTED), TellMouse(r.self, STILL));
    assert r.out + os == (r.out + [ReleaseAll]) + [TellKbd(r.self, LIFTED), TellMouse(r.self, STILL)];
  }

  lemma NoEvents(r: State)
    requires Invariant(r)
    ensures r.uhrp.ev == Uhrp.NO_EVENTS && Handover.Sound(r.uhrp)
  {
    hide Tracked, ResignedEmptyHanded, AnyHeld, Unique;
  }

  // ---- Draining the election ----

  /** Shaped, with events still waiting. */
  ghost predicate Loaded(r: State) {
    Shaped(r.(uhrp := Uhrp.Drained(r.uhrp)))
  }

  /** Whoever may hold something keeps its keys only if the drain leaves the focus alone. */
  predicate Safe(r: State)
    requires |r.hid| == |r.chain|
  {
    || NothingHeld(r.hid) || r.uhrp.ev.release
    || (Speaking(r) && !r.uhrp.ev.changed && !r.uhrp.ev.sendResign && OnlyFocusHolds(r.chain, r.hid, r.focus))
  }

  ghost predicate Ready(r: State) {
    Loaded(r) && Books(r) && Safe(r) && (AnyHeld(r.hid) ==> r.uhrp.keysHeld)
  }

  function Lifting(r: State): State {
    var r1 := r.(uhrp := Uhrp.Drained(r.uhrp));
    if r.uhrp.ev.release then ReleasedAll(r1) else r1
  }

  lemma LiftingKeeps(r: State)
    requires Ready(r)
    ensures var r1 := Lifting(r);
            && Shaped(r1) && Books(r1) && (AnyHeld(r1.hid) ==> r1.uhrp.keysHeld) && r1.focus == r.focus
            && r1.chain == r.chain
            && r1.uhrp == Uhrp.Drained(r.uhrp)
            && (NothingHeld(r1.hid)
                || (Speaking(r1) && !r.uhrp.ev.changed && !r.uhrp.ev.sendResign
                      && OnlyFocusHolds(r1.chain, r1.hid, r1.focus)))
  {
    hide Told, InChain, ResignedEmptyHanded, AnyHeld, Handover.Sound;
    var r1 := r.(uhrp := Uhrp.Drained(r.uhrp));
    assert Books(r1);
    if r.uhrp.ev.release {
      ReleasedAllKeeps(r1);
      NothingMeansNotHeld(ReleasedAll(r1).hid);
    }
  }

  /** Saying something that concerns no machine. */
  lemma SayKeepsAll(r: State, o: Output)
    requires Invariant(r) && Silent(o) && o != Resign
    ensures Invariant(Says(r, [o]))
  {
    hide Tracked, ResignedEmptyHanded, OnlyFocusHolds, NothingHeld, AnyHeld, Handover.Sound, Unique;
    SayKeeps(r, o);
  }

  lemma InheritingKeeps(r: State)
    requires Invariant(r) && NothingHeld(r.hid)
    ensures Invariant(Inheriting(r))
  {
    hide Tracked, ResignedEmptyHanded, AnyHeld, Handover.Sound, Unique, DefaultFocus, Find;
    var f := Inherited(r);
    if f != ADDR_NONE {
      var r1 := r.(focus := f);
      var o := SayFocus(f, ByFailover, Pointer.NoEdge);
      assert Invariant(r1);
      SayKeepsAll(r1, o);
      SayKeepsAll(Says(r1, [o]), FocusChanged(f));
      assert r.out + [o, FocusChanged(f)] == (r.out + [o]) + [FocusChanged(f)];
      assert r.out + ([o] + [FocusChanged(f)]) == (r.out + [o]) + [FocusChanged(f)];
      assert r.out + ([o] + []) == r.out + [o];
    }
  }

  lemma DrainedKeeps(r: State)
    requires Ready(r)
    ensures Invariant(Drained(r))
  {
    hide Shaped, Books, Safe, AnyHeld, NothingHeld, OnlyFocusHolds, Inheriting, ReleasedAll;
    var ev := r.uhrp.ev;
    LiftingKeeps(r);
    var r2 := Lifting(r);
    var r3 := if ev.sendResign then Says(r2, [Resign]) else r2;
    LiftedInvariant(r, r2, r3);
    var r4 := if ev.sendHello then Says(r3, [SayHello(Uhrp.Announcement(r3.uhrp))]) else r3;
    SayKeepsAll(r3, SayHello(Uhrp.Announcement(r3.uhrp)));
    if ev.changed && Speaking(r4) {
      assert r4.hid == r2.hid;
      InheritingKeeps(r4);
    }
  }

  lemma LiftedInvariant(r: State, r2: State, r3: State)
    requires Shaped(r2) && Books(r2) && (AnyHeld(r2.hid) ==> r2.uhrp.keysHeld)
    requires || NothingHeld(r2.hid)
             || (Speaking(r2) && !r.uhrp.ev.sendResign && OnlyFocusHolds(r2.chain, r2.hid, r2.focus))
    requires r3 == if r.uhrp.ev.sendResign then Says(r2, [Resign]) else r2
    ensures Invariant(r3)
  {
    hide Tracked, ResignedEmptyHanded, AnyHeld, Handover.Sound, Unique;
    if r.uhrp.ev.sendResign {
      SayResign(r2);
    }
  }

  // ---- Entry points ----

  lemma ElectionReady(r: State, r1: State, step: Handover.Step)
    requires Invariant(r) && Handover.Timed(step)
    requires r1 == r.(uhrp := Handover.Next(r.uhrp, step))
    ensures Ready(r1)
  {
    hide Tracked, ResignedEmptyHanded, AnyHeld, Handover.Sound, Unique, Handover.Next;
    Handover.AskedByStep(r.uhrp, step);
    SoundDrained(r1.uhrp);
    HonestSlots(r);
    NothingMeansNotHeld(r.hid);
  }

  lemma HonestSlots(r: State)
    requires Invariant(r)
    ensures forall i :: 0 <= i < |r.hid| ==> Honest(r.hid[i])
  {
    hide Told, InChain, Honest;
  }

  lemma SoundDrained(u: Uhrp.State)
    requires Handover.Sound(u)
    ensures Handover.Sound(Uhrp.Drained(u))
  {
  }

  lemma IdleDrain(r: State)
    requires r.uhrp.ev == Uhrp.NO_EVENTS
    ensures Drained(r) == r
  {
    assert r.uhrp.(ev := Uhrp.NO_EVENTS) == r.uhrp;
  }

  lemma KbdInKeeps(r: State, k: Kbd, now: Time)
    requires Invariant(r) && Anchored(r)
    ensures Invariant(KbdIn(r, k, now))
  {
    assert |r.hid| == |r.chain| && r.uhrp.ev == Uhrp.NO_EVENTS;
    hide Shaped, Tracked, ResignedEmptyHanded, AnyHeld, SlotOf, InChain;
    if Speaking(r) {
      KbdSentKeeps(r, r.focus, k);
      var r1 := KeysNoted(KbdSent(r, r.focus, k));
      NotedShaped(r, r1);
      IdleDrain(r1);
    } else {
      SayKeepsAll(r, ForwardKbd(r.uhrp.active, k));
    }
  }

  lemma MouseIsSent(r: State, m: Mouse)
    requires Invariant(r) && InChain(r.chain, r.focus) && Speaking(r)
    ensures Invariant(Drained(KeysNoted(MouseSent(r, r.focus, m))))
  {
    assert |r.hid| == |r.chain| && r.uhrp.ev == Uhrp.NO_EVENTS;
    hide Shaped, Tracked, ResignedEmptyHanded, AnyHeld, SlotOf, InChain;
    MouseSentKeeps(r, r.focus, m);
    var r1 := KeysNoted(MouseSent(r, r.focus, m));
    NotedShaped(r, r1);
    IdleDrain(r1);
  }

  /** Moving the focus first lets go of the machine that loses it. */
  lemma FocusedKeeps(r: State, target: Addr, reason: Reason, edge: Pointer.Edge, now: Time)
    requires Invariant(r)
    ensures Invariant(Focused(r, target, reason, edge, now))
    ensures target != ADDR_NONE && target != r.focus ==> NothingHeld(Focused(r, target, reason, edge, now).hid)
  {
    hide Invariant, Shaped, Books, NothingHeld, InChain, Pointer.Arrived, Released;
    if target != ADDR_NONE && target != r.focus {
      CanLetGo(r);
      ReleasedKeeps(r, r.focus);
      ReleasedShape(r, r.focus);
      var r1 := Released(r, r.focus);
      var r2 := r1.(focus := target, switches := r.switches + 1,
                    pointer := Pointer.Arrived(r.gesture, r.pointer, edge, now));
      Reseated(r, r1, target, r.switches + 1, Pointer.Arrived(r.gesture, r.pointer, edge, now));
      AnnouncedKeeps(r2, SayFocus(target, reason, edge), FocusChanged(target));
    }
  }

  lemma CanLetGo(r: State)
    requires Invariant(r)
    ensures Shaped(r) && Books(r)
    ensures NothingHeld(r.hid) || (InChain(r.chain, r.focus) && OnlyFocusHolds(r.chain, r.hid, r.focus))
  {
    hide Tracked, ResignedEmptyHanded, AnyHeld, Find, Handover.Sound, Unique;
  }

  lemma Reseated(r: State, r1: State, target: Addr, switches: nat, pointer: Pointer.State)
    requires Shaped(r) && Books(r1) && NothingHeld(r1.hid) && |r1.hid| == |r.hid|
    requires r1 == r.(hid := r1.hid, out := r1.out, releases := r1.releases)
    ensures Invariant(r1.(focus := target, switches := switches, pointer := pointer))
  {
    hide Shaped, Books, NothingHeld;
    var r2 := r1.(focus := target, switches := switches, pointer := pointer);
    SameBooks(r1, r2);
    NotedShaped(r, r2);
    NothingIsSafe(r2);
  }

  lemma SameBooks(r: State, r1: State)
    requires Books(r) && r1.chain == r.chain && r1.hid == r.hid && r1.out == r.out
    ensures Books(r1)
  {
  }

  lemma AnnouncedKeeps(r: State, o: Output, o': Output)
    requires Invariant(r) && Silent(o) && Silent(o') && o != Resign && o' != Resign
    ensures Invariant(Says(r, [o, o']))
  {
    hide Invariant, Silent;
    SayKeepsAll(r, o);
    SayKeepsAll(Says(r, [o]), o');
    assert r.out + [o, o'] == (r.out + [o]) + [o'];
  }

  lemma ReleasedShape(r: State, addr: Addr)
    ensures var r1 := Released(r, addr);
            r1 == r.(hid := r1.hid, out := r1.out, releases := r1.releases) && |r1.hid| == |r.hid|
  {
    hide SlotOf;
  }

  lemma NothingIsSafe(r: State)
    requires Shaped(r) && Books(r) && NothingHeld(r.hid)
    ensures Invariant(r)
  {
    hide Told, InChain, ResignedEmptyHanded, Handover.Sound, Unique;
    NothingMeansNotHeld(r.hid);
  }

  /** The mouse report leads over to another machine. */
  predicate Crosses(r: State, m: Mouse, now: Time) {
    var edge := Pointer.Crossing(r.gesture, r.pointer, Pointer.Report(m.dx, m.dy, now));
    edge != Pointer.NoEdge && NeighbourOf(Stepped(r, m, now), r.focus, Heading(edge)) != ADDR_NONE
  }

  lemma MouseInKeeps(r: State, m: Mouse, now: Time)
    requires Invariant(r) && (Speaking(r) && !Crosses(r, m, now) ==> InChain(r.chain, r.focus))
    ensures Invariant(MouseIn(r, m, now))
  {
    assert |r.hid| == |r.chain|;
    hide Shaped, Tracked, ResignedEmptyHanded, AnyHeld, Pointer.Moved, Pointer.Crossing, NeighbourOf;
    hide Focused, KeysNoted, MouseSent, Drained;
    if Speaking(r) {
      var r1 := Stepped(r, m, now);
      NotedShaped(r, r1);
      assert Invariant(r1);
      var edge := Pointer.Crossing(r.gesture, r.pointer, Pointer.Report(m.dx, m.dy, now));
      FocusedKeeps(r1, NeighbourOf(r1, r.focus, Heading(edge)), ByEdge, edge, now);
      MouseIsSent(r1, m);
    } else {
      SayKeepsAll(r, ForwardMouse(r.uhrp.active, m));
    }
  }

  lemma ButtonKeeps(r: State, now: Time)
    requires Invariant(r)
    ensures Invariant(ButtonPressed(r, now))
  {
    hide Invariant, ButtonTarget, Focused;
    FocusedKeeps(r, ButtonTarget(r), ByButton, Pointer.NoEdge, now);
  }

  /** A table in which every board keeps its slot. */
  lemma RechainedKeeps(r: State, chain: Chain)
    requires Invariant(r) && |chain| == |r.chain| && Tracked(chain, r.hid, r.out) && Unique(chain)
    requires forall i :: 0 <= i < |chain| && r.chain[i].Some? ==>
              chain[i].Some? && chain[i].value.addr == r.chain[i].value.addr
    ensures Invariant(r.(chain := chain))
    ensures Anchored(r) ==> Anchored(r.(chain := chain))
  {
    hide Tracked, ResignedEmptyHanded, Handover.Sound, Unique, AnyHeld, Find;
    if Anchored(r) && Speaking(r) {
      KnownStays(r.chain, chain, r.focus);
    }
  }

  lemma RenamedNothing(chain: Chain, addr: Addr, pos: int, now: Time, uid: U64, caps: Uhrp.Caps)
    ensures SameNames(chain, Located(chain, addr, pos, now)) && SameNames(chain, Described(chain, addr, uid, caps))
  {
    hide Find;
  }

  lemma SightedKeeps(r: State, m: Message, now: Time)
    requires Invariant(r)
    ensures Invariant(Sighted(r, m, now)) && (Anchored(r) ==> Anchored(Sighted(r, m, now)))
  {
    hide Tracked, ResignedEmptyHanded, Handover.Sound, Unique, AnyHeld, Joined, Located;
    if m.src != r.self && m.port.Some? {
      JoinedKeeps(r.chain, m.src, r.hid, r.out);
      var joined := Joined(r.chain, m.src);
      var pos := Line.RelPos(m.ttl, m.port.value);
      RenamedNothing(joined, m.src, pos, now, 0, {});
      SameNamesKeep(joined, Located(joined, m.src, pos, now), r.hid, r.out);
      RechainedKeeps(r, Located(joined, m.src, pos, now));
    }
  }

  lemma DescribedKeeps(r: State, src: Addr, h: Uhrp.Hello)
    requires Invariant(r)
    ensures var r1 := r.(chain := Described(Joined(r.chain, src), src, h.rank.uid, h.caps));
            Invariant(r1) && (Anchored(r) ==> Anchored(r1))
  {
    hide Tracked, ResignedEmptyHanded, Handover.Sound, Unique, AnyHeld, Joined, Described;
    JoinedKeeps(r.chain, src, r.hid, r.out);
    var joined := Joined(r.chain, src);
    RenamedNothing(joined, src, 0, 0, h.rank.uid, h.caps);
    SameNamesKeep(joined, Described(joined, src, h.rank.uid, h.caps), r.hid, r.out);
    RechainedKeeps(r, Described(joined, src, h.rank.uid, h.caps));
  }

  lemma FocusHeardKeeps(r: State, target: Addr)
    requires Invariant(r)
    ensures Invariant(FocusHeard(r, target))
  {
    hide Shaped, Tracked, ResignedEmptyHanded, AnyHeld, SlotOf, Released;
    if !Speaking(r) {
      var r1 := r.(focus := target);
      NotedShaped(r, r1);
      assert Invariant(r1);
      SayKeepsAll(r1, FocusChanged(target));
      var r2 := Says(r1, [FocusChanged(target)]);
      ReleasedKeeps(r2, r.self);
      ReleasedShape(r2, r.self);
      NotedShaped(r2, Released(r2, r.self));
      NothingIsSafe(Released(r2, r.self));
    }
  }

  /** Told to let go by the chain. */
  lemma ReleaseHeardKeeps(r: State)
    requires Invariant(r)
    ensures Invariant(Says(r.(hid := Forget(r.hid, r.selfSlot)), [TellKbd(r.self, LIFTED), TellMouse(r.self, STILL)]))
  {
    hide Told, ResignedEmptyHanded, Handover.Sound, InChain;
    var out := r.out + [TellKbd(r.self, LIFTED), TellMouse(r.self, STILL)];
    ToldLift(r.out, r.self);
    OneTold(r.chain, r.hid, r.out, out, r.selfSlot, UNTOLD);
    ResignKeptTwice(r.out, TellKbd(r.self, LIFTED), TellMouse(r.self, STILL));
    FewerHeld(r.hid, r.selfSlot);
  }

  lemma FewerHeld(hid: Slots, slot: nat)
    requires slot < |hid|
    ensures AnyHeld(Forget(hid, slot)) ==> AnyHeld(hid)
  {
    var t := Forget(hid, slot);
    if AnyHeld(t) {
      var i :| 0 <= i < |t| && Held(t[i]);
      assert Held(hid[i]);
    }
  }

  lemma ElectionKeeps(r: State, step: Handover.Step)
    requires Invariant(r) && Handover.Timed(step)
    ensures Invariant(Drained(r.(uhrp := Handover.Next(r.uhrp, step))))
  {
    hide Tracked, ResignedEmptyHanded, AnyHeld, Handover.Sound, Unique, Handover.Next, Drained;
    ElectionReady(r, r.(uhrp := Handover.Next(r.uhrp, step)), step);
    DrainedKeeps(r.(uhrp := Handover.Next(r.uhrp, step)));
  }

  /** The message carries input that is sent on to the focused machine. */
  predicate SendsOn(r: State, m: Message, now: Time) {
    MayType(r, m.src) && (m.body.InputKbd? || (m.body.InputMouse? && !Crosses(r, m.body.mouse, now)))
  }

  lemma HandledKeeps(r: State, m: Message, now: Time)
    requires Invariant(r) && (SendsOn(r, m, now) ==> InChain(r.chain, r.focus))
    ensures Invariant(Handled(r, m, now))
  {
    hide Invariant, InChain, Crosses, Drained, KbdIn, MouseIn, FocusHeard, Joined, Described, Forget;
    hide Uhrp.HelloHeard, Uhrp.ResignHeard;
    match m.body
    case Hello(h) =>
      DescribedKeeps(r, m.src, h);
      ElectionKeeps(r.(chain := Described(Joined(r.chain, m.src), m.src, h.rank.uid, h.caps)),
                    Handover.HearHello(m.src, h, now));
    case Resigning => ElectionKeeps(r, Handover.HearResign(m.src, now));
    case Keyboard(k) => SayKeepsAll(r, PassKbd(k));
    case Movement(k) => SayKeepsAll(r, PassMouse(k));
    case Focus(target) => FocusHeardKeeps(r, target);
    case Data => SayKeepsAll(r, PassData);
    case InputKbd(k) => if MayType(r, m.src) { KbdInKeeps(r, k, now); }
    case InputMouse(k) => if MayType(r, m.src) { MouseInKeeps(r, k, now); }
    case Release => ReleaseHeardKeeps(r);
    case Other =>
  }

  lemma RecappedKeeps(r: State, caps: Uhrp.Caps)
    requires Invariant(r)
    ensures Invariant(Recapped(r, caps)) && (Anchored(r) ==> Anchored(Recapped(r, caps)))
  {
    hide Tracked, ResignedEmptyHanded, Unique, AnyHeld, Find, Uhrp.PriorityFromCaps;
    if caps != r.caps {
      var chain := Recapped(r, caps).chain;
      SameNamesKeep(r.chain, chain, r.hid, r.out);
      RechainedKeeps(r, chain);
    }
  }

  lemma NotedShaped(r: State, r1: State)
    requires Shaped(r) && |r1.hid| == |r.hid|
    requires r1 == r.(hid := r1.hid, out := r1.out, pointer := r1.pointer, focus := r1.focus, switches := r1.switches,
                      releases := r1.releases, uhrp := r.uhrp.(keysHeld := r1.uhrp.keysHeld))
    ensures Shaped(r1)
  {
  }

  // ---- Runs ----

  datatype Step =
    | Typed(kbd: Kbd, now: Time)
    | Moved(mouse: Mouse, now: Time)
    | Button(now: Time)
    | SetFocus(target: Addr, reason: Reason, now: Time)
    | Receive(m: Message, now: Time)
    | Tick(now: Time)
    | SetCaps(caps: Uhrp.Caps)

  function Next(r: State, step: Step): State {
    match step
    case Typed(k, now) => KbdIn(r, k, now)
    case Moved(m, now) => MouseIn(r, m, now)
    case Button(now) => ButtonPressed(r, now)
    case SetFocus(target, reason, now) => Focused(r, target, reason, Pointer.NoEdge, now)
    case Receive(m, now) => Received(r, m, now)
    case Tick(now) => Ticked(r, now)
    case SetCaps(caps) => Recapped(r, caps)
  }

  /** The step sends a report on to the focused machine. */
  predicate TakesInput(r: State, step: Step) {
    && Speaking(r)
    && match step
       case Typed(_, _) => true
       case Moved(m, now) => !Crosses(r, m, now)
       case Receive(m, now) => SendsOn(Sighted(r, m, now), m, now)
       case _ => false
  }

  /** Whatever the step sends on goes to a machine the board knows. */
  predicate Aimed(r: State, step: Step) {
    TakesInput(r, step) ==>
      InChain(if step.Receive? then Sighted(r, step.m, step.now).chain else r.chain, r.focus)
  }

  lemma NextKeeps(r: State, step: Step)
    requires Invariant(r) && Aimed(r, step)
    ensures Invariant(Next(r, step))
  {
    hide Invariant, InChain, Crosses, KbdIn, MouseIn, ButtonPressed, Focused, Handled, Drained, Recapped;
    hide Sighted, Uhrp.Ticked;
    hide Find;
    match step
    case Typed(k, now) => KbdInKeeps(r, k, now);
    case Moved(m, now) => MouseInKeeps(r, m, now);
    case Button(now) => ButtonKeeps(r, now);
    case SetFocus(target, reason, now) => FocusedKeeps(r, target, reason, Pointer.NoEdge, now);
    case Receive(m, now) =>
      SightedKeeps(r, m, now);
      SightedOnlyChain(r, m, now);
      HandledKeeps(Sighted(r, m, now), m, now);
    case Tick(now) => ElectionKeeps(r, Handover.Tick(now));
    case SetCaps(caps) => RecappedKeeps(r, caps);
  }

  /** How a board is set up, and when it starts. */
  datatype Setup = Setup(self: Addr, uid: U64, caps: Uhrp.Caps, preempt: bool, timing: Uhrp.Timing,
                         gesture: Pointer.Config, now: Time)

  function Boot(b: Setup): State {
    Started(Initial(b.self, b.uid, b.caps, b.preempt, b.timing, b.gesture), b.now)
  }

  function After(r: State, steps: seq<Step>): State {
    if steps == [] then r else Next(After(r, steps[..|steps| - 1]), steps[|steps| - 1])
  }

  /** All input of the run is sent on to machines the board knows. */
  ghost predicate AllAimed(r: State, steps: seq<Step>) {
    forall n :: 0 <= n < |steps| ==> Aimed(After(r, steps[..n]), steps[n])
  }

  /** A state of a run from the start of some board, with all its input going to known machines. */
  ghost predicate Reachable(r: State) {
    exists b: Setup, steps :: AllAimed(Boot(b), steps) && r == After(Boot(b), steps)
  }

  lemma BootKeeps(b: Setup)
    ensures Invariant(Boot(b)) && Anchored(Boot(b))
  {
    hide Pointer.Arrived, Uhrp.Configured, Find;
    var r0 := Initial(b.self, b.uid, b.caps, b.preempt, b.timing, b.gesture);
    var r := Boot(b);
    assert r == r0.(uhrp := r.uhrp, pointer := r.pointer);
    forall i | 0 <= i < |r.hid| ensures r.hid[i] == UNTOLD && !Held(r.hid[i]) {
    }
  }

  lemma {:induction false} RunKeeps(r: State, steps: seq<Step>)
    requires Invariant(r) && AllAimed(r, steps)
    ensures Invariant(After(r, steps))
  {
    hide Invariant, Aimed, Next;
    if steps != [] {
      var pre := steps[..|steps| - 1];
      forall n | 0 <= n < |pre| ensures Aimed(After(r, pre[..n]), pre[n]) {
        assert pre[..n] == steps[..n];
      }
      RunKeeps(r, pre);
      NextKeeps(After(r, pre), steps[|steps| - 1]);
    }
  }

  lemma ReachableKeeps(r: State)
    requires Reachable(r)
    ensures Invariant(r)
  {
    hide Invariant, After, Boot, AllAimed;
    var b: Setup, steps :| AllAimed(Boot(b), steps) && r == After(Boot(b), steps);
    BootKeeps(b);
    RunKeeps(Boot(b), steps);
  }

  // ---- Main results ----

  /** The tracker is the truth: in every run whose input goes to known machines, the slot of each
      known machine is exactly what that machine has been told, and counts as held exactly when
      something is pressed there. */
  lemma TrackerIsTruth(r: State, addr: Addr)
    requires Reachable(r) && InChain(r.chain, addr)
    ensures SlotOf(r, addr) < |r.hid| && r.hid[SlotOf(r, addr)].pressed == Told(r.out, addr)
    ensures Held(r.hid[SlotOf(r, addr)]) <==> Told(r.out, addr) != NOTHING
  {
    hide Reachable, InChain, Told, ResignedEmptyHanded;
    ReachableKeeps(r);
    SlotIs(r, addr);
    HeldMeansPressed(r.hid[SlotOf(r, addr)]);
  }

  /** No key is left held: in every run, a machine that believes anything is pressed because
      of this board has the focus, this board speaks for the chain, and its election knows. */
  lemma OnlyTheFocusedMachineHolds(r: State, addr: Addr)
    requires Reachable(r) && Told(r.out, addr) != NOTHING
    ensures Speaking(r) && addr == r.focus && r.uhrp.keysHeld
  {
    hide Reachable, Find, Told, ResignedEmptyHanded;
    ReachableKeeps(r);
    assert InChain(r.chain, addr);
    var i := Find(r.chain, addr).value;
    assert r.hid[i].pressed == Told(r.out, addr);
    HeldMeansPressed(r.hid[i]);
  }

  /** Whenever a run emits a resignation, every machine has been released before it. */
  lemma ResignsEmptyHanded(r: State, p: nat, addr: Addr)
    requires Reachable(r) && p < |r.out| && r.out[p] == Resign
    ensures Told(r.out[..p], addr) == NOTHING
  {
    hide Reachable, Told, Shaped, Tracked;
    ReachableKeeps(r);
  }

  /** And if the election had to give up with keys held, a release of the whole chain stands
      right before the resignation. */
  lemma ForcedResignationIsPrecededByRelease(r: State, step: Handover.Step)
    requires Reachable(r) && Handover.Timed(step)
    requires Speaking(r) && Handover.Next(r.uhrp, step).role != Uhrp.Active
    ensures var out := Drained(r.(uhrp := Handover.Next(r.uhrp, step))).out;
            && (r.uhrp.keysHeld ==>
                  r.out + [ReleaseAll, TellKbd(r.self, LIFTED), TellMouse(r.self, STILL), Resign] <= out)
            && (!r.uhrp.keysHeld ==> !AnyHeld(r.hid))
  {
    hide Reachable, Told, Tracked, ResignedEmptyHanded, Handover.Next, AnyHeld, Handover.Sound, Unique;
    ReachableKeeps(r);
    Handover.AskedByStep(r.uhrp, step);
    Handover.LeavingResigns(r.uhrp, step);
  }

  /** On a board that does not speak, the release in the FOCUS arm never finds anything to
      release: all a focus change does is to be reported. */
  lemma FocusArmReleasesNothing(r: State, target: Addr)
    requires Reachable(r) && !Speaking(r)
    ensures FocusHeard(r, target) == r.(focus := target, out := r.out + [FocusChanged(target)])
  {
    hide Reachable, Tracked, ResignedEmptyHanded;
    ReachableKeeps(r);
    HonestSlots(r);
    NothingMeansNotHeld(r.hid);
    SlotIs(r, r.self);
  }

  // ---- What the election is told about held keys ----

  predicate FlagExact(r: State) {
    r.uhrp.keysHeld == AnyHeld(r.hid)
  }

  lemma DrainedFlag(r: State)
    ensures Drained(r).uhrp.keysHeld == r.uhrp.keysHeld
  {
    hide Forgotten, Inherited, Uhrp.Announcement;
  }

  lemma KbdFlag(r: State, k: Kbd, now: Time)
    requires r.uhrp.ev == Uhrp.NO_EVENTS
    ensures if Speaking(r) then FlagExact(KbdIn(r, k, now)) else KbdIn(r, k, now).uhrp == r.uhrp
  {
    hide AnyHeld, NoteKbd, SlotOf, Drained;
    IdleDrain(KeysNoted(KbdSent(r, r.focus, k)));
  }

  lemma MouseFlag(r: State, m: Mouse, now: Time)
    requires r.uhrp.ev == Uhrp.NO_EVENTS
    ensures if Speaking(r) && !Crosses(r, m, now) then FlagExact(MouseIn(r, m, now))
            else MouseIn(r, m, now).uhrp == r.uhrp
  {
    hide AnyHeld, NoteMouse, SlotOf, Drained, NeighbourOf, Pointer.Crossing, Pointer.Moved, Focused;
    var r1 := Stepped(r, m, now);
    IdleDrain(KeysNoted(MouseSent(r1, r.focus, m)));
    var edge := Pointer.Crossing(r.gesture, r.pointer, Pointer.Report(m.dx, m.dy, now));
    FocusedFlag(r1, NeighbourOf(r1, r.focus, Heading(edge)), ByEdge, edge, now);
  }

  lemma FocusedFlag(r: State, target: Addr, reason: Reason, edge: Pointer.Edge, now: Time)
    ensures Focused(r, target, reason, edge, now).uhrp == r.uhrp
  {
    hide Released, Pointer.Arrived;
    ReleasedShape(r, r.focus);
  }

  lemma HandledFlag(r: State, m: Message, now: Time)
    requires Invariant(r)
    ensures var r' := Handled(r, m, now);
            if SendsOn(r, m, now) then FlagExact(r') else r'.uhrp.keysHeld == r.uhrp.keysHeld
  {
    hide Invariant, AnyHeld, Drained, KbdIn, MouseIn, Joined, Described, Forget, Released, Find, Crosses;
    hide Handover.Sound;
    hide Uhrp.HelloHeard, Uhrp.ResignHeard;
    NoEvents(r);
    match m.body
    case Hello(h) =>
      Handover.AskedByStep(r.uhrp, Handover.HearHello(m.src, h, now));
      var r1 := r.(chain := Described(Joined(r.chain, m.src), m.src, h.rank.uid, h.caps));
      DrainedFlag(r1.(uhrp := Uhrp.HelloHeard(r1.uhrp, m.src, h, now)));
    case Resigning =>
      Handover.AskedByStep(r.uhrp, Handover.HearResign(m.src, now));
      DrainedFlag(r.(uhrp := Uhrp.ResignHeard(r.uhrp, m.src, now)));
    case Focus(target) => ReleasedShape(Says(r.(focus := target), [FocusChanged(target)]), r.self);
    case InputKbd(k) => KbdFlag(r, k, now);
    case InputMouse(k) => MouseFlag(r, k, now);
    case _ =>
  }

  /** The flag that defers a handover is brought up to date by input sent on, and by nothing else. */
  lemma FlagMovesWithInputOnly(r: State, step: Step)
    requires Invariant(r)
    ensures if TakesInput(r, step) then FlagExact(Next(r, step)) else Next(r, step).uhrp.keysHeld == r.uhrp.keysHeld
  {
    hide Invariant, AnyHeld, KbdIn, MouseIn, Focused, Handled, Drained, Sighted, Crosses, ButtonTarget, Find;
    hide Uhrp.Ticked, Handover.Sound, FlagExact;
    NoEvents(r);
    match step
    case Typed(k, now) => KbdFlag(r, k, now);
    case Moved(m, now) => MouseFlag(r, m, now);
    case Button(now) => FocusedFlag(r, ButtonTarget(r), ByButton, Pointer.NoEdge, now);
    case SetFocus(target, reason, now) => FocusedFlag(r, target, reason, Pointer.NoEdge, now);
    case Receive(m, now) =>
      SightedKeeps(r, m, now);
      SightedOnlyChain(r, m, now);
      HandledFlag(Sighted(r, m, now), m, now);
    case Tick(now) =>
      Handover.AskedByStep(r.uhrp, Handover.Tick(now));
      DrainedFlag(r.(uhrp := Uhrp.Ticked(r.uhrp, now)));
    case SetCaps(_) =>
  }

  lemma SightedOnlyChain(r: State, m: Message, now: Time)
    ensures Sighted(r, m, now) == r.(chain := Sighted(r, m, now).chain)
  {
    hide Joined, Located;
  }

  /** So in every run the flag is exact after a step if and only if the step was input sent on, or
      the flag was down, or something is still held. */
  lemma FlagExactIff(r: State, step: Step)
    requires Reachable(r)
    ensures FlagExact(Next(r, step)) <==>
              TakesInput(r, step) || !r.uhrp.keysHeld || AnyHeld(Next(r, step).hid)
  {
    hide Reachable, Aimed, TakesInput, Next, AnyHeld, Shaped, Tracked, ResignedEmptyHanded;
    ReachableKeeps(r);
    FlagMovesWithInputOnly(r, step);
    if !TakesInput(r, step) {
      assert Aimed(r, step) by { IdleIsAimed(r, step); }
      NextKeeps(r, step);
    }
  }

  lemma IdleIsAimed(r: State, step: Step)
    requires !TakesInput(r, step)
    ensures Aimed(r, step)
  {
    hide TakesInput;
  }

  /** Switching away with a key down leaves the flag up although nothing is held any more. A
      handover then waits for its deadline, and ends in a release that has nothing to release. */
  lemma SwitchLeavesFlagUp(r: State, target: Addr, reason: Reason, now: Time, step: Handover.Step)
    requires Reachable(r) && Speaking(r) && AnyHeld(r.hid) && target != ADDR_NONE && target != r.focus
    requires r.uhrp.resignPending && Handover.Noted(r.uhrp, step).Some? && Handover.Timed(step)
    ensures var r1 := Focused(r, target, reason, Pointer.NoEdge, now);
            var v := Handover.Next(r1.uhrp, step);
            && !AnyHeld(r1.hid) && r1.uhrp.keysHeld
            && (v.role == Uhrp.Active <==> !TimeAfter(step.now, r.uhrp.deadline))
            && (v.role != Uhrp.Active ==> v.ev.release)
  {
    hide Reachable, Handover.Next, Handover.Noted, TimeAfter, Pointer.Arrived, Released;
    ReachableKeeps(r);
    FocusedKeeps(r, target, reason, Pointer.NoEdge, now);
    FocusedFlag(r, target, reason, Pointer.NoEdge, now);
    HonestSlots(Focused(r, target, reason, Pointer.NoEdge, now));
    NothingMeansNotHeld(Focused(r, target, reason, Pointer.NoEdge, now).hid);
    Handover.PendingHandoverIsBounded(r.uhrp, step);
    Handover.AskedByStep(r.uhrp, step);
  }
}
