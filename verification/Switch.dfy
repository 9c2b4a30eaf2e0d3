/** The router's own state, changed in place: every entry point is proved to be the function
    of the same step in Router. */
module Switch {
  import opened Types
  import opened Hid
  import opened Router
  import Uhrp
  import Pointer
  import Line

  class Board {
    const self: Addr
    const uhrp: Uhrp.Speaker
    const pointer: Pointer.Integrator
    const hid: Tracker
    var caps: Uhrp.Caps
    var chain: Chain
    var selfSlot: nat
    var focus: Addr
    var switches: nat
    var releases: nat
    var out: seq<Output>

    function Abs(): State
      reads this, uhrp, pointer, hid
    {
      State(self, caps, uhrp.Abs(), pointer.cfg, pointer.Abs(), hid.target, chain, selfSlot, focus, switches,
            releases, out)
    }

    constructor (addr: Addr, uid: U64, c: Uhrp.Caps, preempt: bool, timing: Uhrp.Timing, gesture: Pointer.Config)
      ensures fresh(uhrp) && fresh(pointer) && fresh(hid)
      ensures Abs() == Initial(addr, uid, c, preempt, timing, gesture)
    {
      self, caps := addr, c;
      uhrp := new Uhrp.Speaker(Uhrp.Config(addr, Uhrp.Rank(0, uid), c, preempt, timing));
      pointer := new Pointer.Integrator(Some(gesture));
      hid := new Tracker();
      chain := [Some(Entry(addr, uid, c, 0, 0))] + seq(MAX_BOARDS - 1, _ => None);
      selfSlot, focus, switches, releases, out := 0, ADDR_NONE, 0, 0, [];
    }

    // ---- The chain table ----

    method ChainFind(addr: Addr) returns (at: Option<nat>)
      ensures at == Find(chain, addr)
    {
      for i := 0 to |chain|
        invariant Find(chain, addr) == var r := Find(chain[i..], addr); if r.Some? then Some(r.value + i) else None
      {
        if chain[i].Some? && chain[i].value.addr == addr {
          return Some(i);
        }
      }
      return None;
    }

    method ChainGet(addr: Addr) returns (at: Option<nat>)
      modifies this`chain
      ensures chain == Joined(old(chain), addr) && at == Find(chain, addr)
    {
      at := ChainFind(addr);
      if at.Some? {
        return;
      }
      for i := 0 to |chain|
        invariant chain == old(chain)
        invariant FirstFree(chain) == var r := FirstFree(chain[i..]); if r.Some? then Some(r.value + i) else None
      {
        if chain[i].None? {
          chain := chain[i := Some(Entry(addr, 0, {}, 0, 0))];
          OnlyEntry(old(chain), chain, i, addr);
          return Some(i);
        }
      }
      return None;
    }

    method Slot(addr: Addr) returns (slot: nat)
      ensures slot == SlotOf(Abs(), addr)
    {
      if addr == self {
        return selfSlot;
      }
      var at := ChainFind(addr);
      if at.None? {
        return selfSlot;
      }
      return at.value;
    }

    method Neighbour(from: Addr, direction: int) returns (best: Addr)
      ensures best == NeighbourOf(Abs(), from, direction)
    {
      var fromPos := 0;
      var at := ChainFind(from);
      if from != self {
        if at.None? {
          return ADDR_NONE;
        }
        fromPos := chain[at.value].value.pos;
      }
      hide Nearest;
      ghost var r := Abs();
      var pick := NO_PICK;
      NoStep(r, from, fromPos, direction);
      for i := 0 to |chain|
        invariant pick == Nearest(r, chain[..i], from, fromPos, direction)
      {
        OneMoreStep(r, chain, i, from, fromPos, direction);
        if chain[i].None? || chain[i].value.addr == from {
          continue;
        }
        var e := chain[i].value;
        if Uhrp.HidOut !in e.caps && e.addr != self {
          continue;
        }
        var pos := if e.addr == self then 0 else e.pos;
        if direction > 0 && pos > fromPos && (pick.addr == ADDR_NONE || pos < pick.pos) {
          pick := Pick(e.addr, pos);
        } else if direction < 0 && pos < fromPos && (pick.addr == ADDR_NONE || pos > pick.pos) {
          pick := Pick(e.addr, pos);
        }
      }
      assert chain[..|chain|] == chain;
      return pick.addr;
    }

    method NextOnButton() returns (target: Addr)
      ensures target == ButtonTarget(Abs())
    {
      hide NextScreen, FirstScreen;
      var at := ChainFind(focus);
      var pos := if focus == self then 0 else if at.Some? then chain[at.value].value.pos else 0;
      ghost var r := Abs();
      assert pos == FocusPos(r);
      var next, wrap := NO_PICK, NO_PICK;
      NoScreens(r, pos);
      for i := 0 to |chain|
        invariant next == NextScreen(r, chain[..i], pos) && wrap == FirstScreen(r, chain[..i])
      {
        OneMoreScreen(r, chain, i, pos);
        if chain[i].None? || Uhrp.HidOut !in chain[i].value.caps {
          continue;
        }
        var e := chain[i].value;
        var p := if e.addr == self then 0 else e.pos;
        if p > pos && (next.addr == ADDR_NONE || p < next.pos) {
          next := Pick(e.addr, p);
        }
        if wrap.addr == ADDR_NONE || p < wrap.pos {
          wrap := Pick(e.addr, p);
        }
      }
      assert chain[..|chain|] == chain;
      return if next.addr == ADDR_NONE then wrap.addr else next.addr;
    }

    method PickDefaultFocus() returns (target: Addr)
      ensures target == DefaultFocus(Abs())
    {
      if Uhrp.HidOut in caps {
        return self;
      }
      var best := NO_PICK;
      for i := 0 to |chain|
        invariant best == ClosestScreen(Abs(), chain[..i])
      {
        assert chain[..i + 1][..i] == chain[..i];
        if chain[i].None? || chain[i].value.addr == self || Uhrp.HidOut !in chain[i].value.caps {
          continue;
        }
        var e := chain[i].value;
        var dist := if e.pos < 0 then -e.pos else e.pos;
        if best.addr == ADDR_NONE || dist < best.pos {
          best := Pick(e.addr, dist);
        }
      }
      assert chain[..|chain|] == chain;
      return best.addr;
    }

    // ---- Telling the machines ----

    method SendKbdTo(dst: Addr, k: Kbd)
      modifies hid, this`out
      ensures Abs() == KbdSent(old(Abs()), dst, k)
    {
      var slot := Slot(dst);
      hid.Note(slot, k);
      out := out + [TellKbd(dst, k)];
    }

    method SendMouseTo(dst: Addr, m: Mouse)
      modifies hid, this`out
      ensures Abs() == MouseSent(old(Abs()), dst, m)
    {
      var slot := Slot(dst);
      hid.NoteButtons(slot, m.buttons);
      out := out + [TellMouse(dst, m)];
    }

    method ReleaseMachine(addr: Addr)
      modifies hid, this`out, this`releases
      ensures Abs() == Released(old(Abs()), addr)
    {
      var slot := Slot(addr);
      var due, k, m := hid.BuildRelease(slot);
      if !due {
        return;
      }
      releases := releases + 1;
      out := out + [TellKbd(addr, k), TellMouse(addr, m)];
    }

    method ApplyFocus(target: Addr, reason: Reason, edge: Pointer.Edge, now: Time)
      modifies this, pointer, hid
      ensures Abs() == Focused(old(Abs()), target, reason, edge, now)
    {
      if target == ADDR_NONE || target == focus {
        return;
      }
      ReleaseMachine(focus);
      focus := target;
      switches := switches + 1;
      pointer.Arrive(edge, now);
      out := out + [SayFocus(target, reason, edge), FocusChanged(target)];
    }

    method BroadcastReleaseAll()
      modifies hid, this`out
      ensures Abs() == ReleasedAll(old(Abs()))
    {
      ghost var was := hid.target;
      out := out + [ReleaseAll];
      for i := 0 to |chain|
        invariant out == old(out) + [ReleaseAll]
        invariant |hid.target| == |was|
        invariant forall k :: 0 <= k < |was| && k < i ==> hid.target[k] == if chain[k].Some? then UNTOLD else was[k]
        invariant forall k :: i <= k < |was| ==> hid.target[k] == was[k]
      {
        if chain[i].Some? {
          hid.ForgetSlot(i);
        }
      }
      assert hid.target == Forgotten(was, chain);
      out := out + [TellKbd(self, LIFTED), TellMouse(self, STILL)];
      assert out == old(out) + [ReleaseAll, TellKbd(self, LIFTED), TellMouse(self, STILL)];
    }

    // ---- Carrying out the election ----

    method Inherit()
      modifies this`focus, this`out
      ensures Abs() == Inheriting(old(Abs()))
    {
      hide DefaultFocus;
      var f := focus;
      var at := ChainFind(f);
      if f == ADDR_NONE || at.None? {
        f := PickDefaultFocus();
      }
      if f != ADDR_NONE {
        out := out + [SayFocus(f, ByFailover, Pointer.NoEdge)];
        if f != focus {
          focus := f;
          out := out + [FocusChanged(f)];
        }
      }
    }

    method DrainUhrp()
      modifies this`focus, this`out, uhrp`ev, hid
      ensures Abs() == Drained(old(Abs()))
    {
      hide Inheriting, ReleasedAll;
      var ev := uhrp.TakeEvents();
      if ev.release {
        BroadcastReleaseAll();
      }
      if ev.sendResign {
        out := out + [Resign];
      }
      if ev.sendHello {
        out := out + [SayHello(Uhrp.Announcement(uhrp.Abs()))];
      }
      if ev.changed && uhrp.role == Uhrp.Active {
        Inherit();
      }
    }

    // ---- Entry points ----

    method Start(now: Time)
      modifies this, uhrp, pointer, hid
      ensures Abs() == Started(old(Abs()), now)
    {
      hide Drained, Uhrp.Started, Pointer.Arrived;
      uhrp.Start(now);
      pointer.Arrive(Pointer.NoEdge, now);
      DrainUhrp();
    }

    /** Whether the input was handed on, or is not this board's to send. */
    method ForwardInput(o: Output) returns (done: bool)
      modifies this`out
      ensures done == !Speaking(old(Abs()))
      ensures Abs() == if done then HandedOn(old(Abs()), o) else old(Abs())
    {
      if uhrp.role == Uhrp.Active {
        return false;
      }
      if Uhrp.HidIn !in caps {
        return true;
      }
      if uhrp.active == ADDR_NONE {
        return true;
      }
      out := out + [o];
      return true;
    }

    method NoteHeld()
      modifies uhrp`keysHeld
      ensures Abs() == KeysNoted(old(Abs()))
    {
      var held := hid.AnythingHeld();
      uhrp.SetKeysHeld(held);
    }

    method LocalKbd(k: Kbd, now: Time)
      modifies this, uhrp, hid
      ensures Abs() == KbdIn(old(Abs()), k, now)
    {
      hide Drained, KbdSent, KeysNoted, HandedOn;
      var done := ForwardInput(ForwardKbd(uhrp.active, k));
      if done {
        return;
      }
      SendKbdTo(focus, k);
      NoteHeld();
      DrainUhrp();
    }

    method LocalMouse(m: Mouse, now: Time)
      modifies this, uhrp, pointer, hid
      ensures Abs() == MouseIn(old(Abs()), m, now)
    {
      hide Drained, MouseSent, KeysNoted, HandedOn, Focused, NeighbourOf, Pointer.Crossing, Pointer.Moved;
      var done := ForwardInput(ForwardMouse(uhrp.active, m));
      if done {
        return;
      }
      var edge := pointer.Feed(m.dx, m.dy, now);
      assert Abs() == Stepped(old(Abs()), m, now);
      if edge != Pointer.NoEdge {
        var direction := if edge == Pointer.Left || edge == Pointer.Above then -1 else 1;
        var target := Neighbour(focus, direction);
        if target != ADDR_NONE {
          ApplyFocus(target, ByEdge, edge, now);
          return;
        }
      }
      SendMouseTo(focus, m);
      NoteHeld();
      DrainUhrp();
    }

    method Button(now: Time)
      modifies this, pointer, hid
      ensures Abs() == ButtonPressed(old(Abs()), now)
    {
      hide Focused, ButtonTarget;
      if uhrp.role != Uhrp.Active {
        return;
      }
      var target := NextOnButton();
      ApplyFocus(target, ByButton, Pointer.NoEdge, now);
    }

    method SetFocus(target: Addr, reason: Reason, now: Time)
      modifies this, pointer, hid
      ensures Abs() == Focused(old(Abs()), target, reason, Pointer.NoEdge, now)
    {
      ApplyFocus(target, reason, Pointer.NoEdge, now);
    }

    method Sight(m: Message, now: Time)
      modifies this`chain
      ensures Abs() == Sighted(old(Abs()), m, now)
    {
      hide Joined, Find;
      if m.src != self && m.port.Some? {
        var at := ChainGet(m.src);
        if at.Some? {
          var pos := Line.RelPos(m.ttl, m.port.value);
          chain := chain[at.value := Some(chain[at.value].value.(pos := pos, lastSeen := now))];
        }
      }
    }

    method RxHello(src: Addr, h: Uhrp.Hello, now: Time)
      modifies this, uhrp, hid
      ensures Abs() == Handled(old(Abs()), Message(src, 0, None, Hello(h)), now)
    {
      hide Joined, Find, Drained, Uhrp.HelloHeard;
      var at := ChainGet(src);
      if at.Some? {
        chain := chain[at.value := Some(chain[at.value].value.(uid := h.rank.uid, caps := h.caps))];
      }
      uhrp.RxHello(src, h, now);
      DrainUhrp();
    }

    method RxFocus(target: Addr)
      modifies this, hid
      ensures Abs() == FocusHeard(old(Abs()), target)
    {
      hide Released;
      if uhrp.role != Uhrp.Active {
        var wasSelf := focus == self;
        focus := target;
        out := out + [FocusChanged(target)];
        if wasSelf && target != self {
          ReleaseMachine(self);
        }
      }
    }

    method RxInput(src: Addr, b: Body, now: Time)
      requires b.InputKbd? || b.InputMouse?
      modifies this, uhrp, pointer, hid
      ensures Abs() == Handled(old(Abs()), Message(src, 0, None, b), now)
    {
      hide KbdIn, MouseIn, Find;
      if uhrp.role != Uhrp.Active {
        return;
      }
      var at := ChainFind(src);
      if at.None? || Uhrp.HidIn !in chain[at.value].value.caps {
        return;
      }
      if b.InputKbd? {
        LocalKbd(b.kbd, now);
      } else {
        LocalMouse(b.mouse, now);
      }
    }

    method Rx(m: Message, now: Time)
      modifies this, uhrp, pointer, hid
      ensures Abs() == Received(old(Abs()), m, now)
    {
      hide KbdIn, MouseIn, Find, Sighted, Drained, FocusHeard, Described, Joined, Uhrp.HelloHeard, Uhrp.ResignHeard;
      Sight(m, now);
      match m.body
      case Hello(h) => RxHello(m.src, h, now);
      case Resigning =>
        uhrp.RxResign(m.src, now);
        DrainUhrp();
      case Keyboard(k) => out := out + [PassKbd(k)];
      case Movement(k) => out := out + [PassMouse(k)];
      case Focus(target) => RxFocus(target);
      case Data => out := out + [PassData];
      case InputKbd(_) => RxInput(m.src, m.body, now);
      case InputMouse(_) => RxInput(m.src, m.body, now);
      case Release =>
        hid.ForgetSlot(selfSlot);
        out := out + [TellKbd(self, LIFTED), TellMouse(self, STILL)];
      case Other =>
    }

    method SetCaps(c: Uhrp.Caps)
      modifies this, uhrp
      ensures Abs() == Recapped(old(Abs()), c)
    {
      hide Find, Uhrp.PriorityFromCaps;
      if c == caps {
        return;
      }
      caps := c;
      uhrp.SetCaps(c);
      var at := ChainFind(self);
      if at.Some? {
        chain := chain[at.value := Some(chain[at.value].value.(caps := c))];
      }
    }

    method Tick(now: Time)
      modifies this, uhrp, hid
      ensures Abs() == Ticked(old(Abs()), now)
    {
      hide Drained, Uhrp.Ticked;
      uhrp.Tick(now);
      DrainUhrp();
    }
  }

  lemma NoStep(r: State, from: Addr, fromPos: int, direction: int)
    ensures Nearest(r, [], from, fromPos, direction) == NO_PICK
  {
  }

  lemma OneMoreStep(r: State, chain: Chain, i: nat, from: Addr, fromPos: int, direction: int)
    requires i < |chain|
    ensures var e, best := chain[i], Nearest(r, chain[..i], from, fromPos, direction);
            Nearest(r, chain[..i + 1], from, fromPos, direction) ==
              if IsStep(r, e, from, fromPos, direction) && Nearer(PosOf(r, e.value), best, direction)
              then Pick(e.value.addr, PosOf(r, e.value)) else best
  {
    assert chain[..i + 1][..i] == chain[..i];
  }

  lemma NoScreens(r: State, pos: int)
    ensures NextScreen(r, [], pos) == NO_PICK && FirstScreen(r, []) == NO_PICK
  {
  }

  lemma OneMoreScreen(r: State, chain: Chain, i: nat, pos: int)
    requires i < |chain|
    ensures var e, next, first := chain[i], NextScreen(r, chain[..i], pos), FirstScreen(r, chain[..i]);
            && NextScreen(r, chain[..i + 1], pos) ==
                 (if IsScreen(e) && PosOf(r, e.value) > pos && (next.addr == ADDR_NONE || PosOf(r, e.value) < next.pos)
                  then Pick(e.value.addr, PosOf(r, e.value)) else next)
            && FirstScreen(r, chain[..i + 1]) ==
                 (if IsScreen(e) && (first.addr == ADDR_NONE || PosOf(r, e.value) < first.pos)
                  then Pick(e.value.addr, PosOf(r, e.value)) else first)
  {
    assert chain[..i + 1][..i] == chain[..i];
  }

  lemma OnlyEntry(was: Chain, now: Chain, i: nat, addr: Addr)
    requires i < |was| && Find(was, addr).None? && now == was[i := Some(Entry(addr, 0, {}, 0, 0))]
    ensures Find(now, addr) == Some(i)
  {
    hide Find;
    assert now[i].Some? && now[i].value.addr == addr;
    assert Find(now, addr).Some?;
  }
}
