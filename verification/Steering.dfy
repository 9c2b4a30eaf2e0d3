/** Where the user ends up: stepping across screens with the pointer and with the button. */
module Steering {
  import opened Types
  import opened Router
  import Ledger
  import Uhrp
  import Hid
  import Pointer

  /** A table as the chain keeps it: distinct named boards at distinct positions. */
  ghost predicate Mapped(r: State) {
    && Named(r.chain) && Ledger.Unique(r.chain)
    && r.self != ADDR_NONE
    && forall i, j :: 0 <= i < j < |r.chain| && r.chain[i].Some? && r.chain[j].Some? ==>
         PosOf(r, r.chain[i].value) != PosOf(r, r.chain[j].value)
  }

  /** Entry i is somewhere the pointer can be. */
  predicate Reaches(r: State, i: nat) {
    i < |r.chain| && r.chain[i].Some? && (Uhrp.HidOut in r.chain[i].value.caps || r.chain[i].value.addr == r.self)
  }

  lemma NeighbourIsNearest(r: State, f: nat, direction: int)
    requires Mapped(r) && f < |r.chain| && r.chain[f].Some? && direction != 0
    ensures NeighbourOf(r, r.chain[f].value.addr, direction)
         == Nearest(r, r.chain, r.chain[f].value.addr, PosOf(r, r.chain[f].value), direction).addr
  {
    hide Nearest;
    Ledger.FindIs(r.chain, f);
  }

  /** Crossing one way and straight back leads home, for any two neighbouring screens. */
  lemma ThereAndBack(r: State, f: nat, direction: int)
    requires Mapped(r) && Reaches(r, f) && direction != 0
    requires NeighbourOf(r, r.chain[f].value.addr, direction) != ADDR_NONE
    ensures NeighbourOf(r, NeighbourOf(r, r.chain[f].value.addr, direction), -direction) == r.chain[f].value.addr
  {
    hide NeighbourOf, Nearest;
    var home := r.chain[f].value;
    NeighbourIsNearest(r, f, direction);
    var p := Nearest(r, r.chain, home.addr, PosOf(r, home), direction);
    var t :| 0 <= t < |r.chain| && IsStep(r, r.chain[t], home.addr, PosOf(r, home), direction)
      && IsPick(r, r.chain[t], p);
    var away := r.chain[t].value;
    NeighbourIsNearest(r, t, -direction);
    var q := Nearest(r, r.chain, away.addr, PosOf(r, away), -direction);
    assert IsStep(r, r.chain[f], away.addr, PosOf(r, away), -direction);
    var b :| 0 <= b < |r.chain| && IsStep(r, r.chain[b], away.addr, PosOf(r, away), -direction)
      && IsPick(r, r.chain[b], q);
    var back := r.chain[b];
    assert IsStep(r, back, home.addr, PosOf(r, home), direction) || b == f;
  }

  // ---- The end of the chain ----

  lemma FocusedMoves(r: State, target: Addr, edge: Pointer.Edge, now: Time)
    requires target != ADDR_NONE && target != r.focus
    ensures var r1 := Focused(r, target, ByEdge, edge, now);
            r1.focus == target && r1.pointer == Pointer.Arrived(r.gesture, r.pointer, edge, now)
  {
    hide Released, Pointer.Arrived;
    Ledger.ReleasedShape(r, r.focus);
  }

  lemma NeighbourIsOther(r: State, from: Addr, direction: int)
    ensures NeighbourOf(r, from, direction) != ADDR_NONE ==> NeighbourOf(r, from, direction) != from
  {
    hide Nearest, Find;
  }

  /** Whether the shove led anywhere or not, the integrator is re-seated as if it had; the focus
      moves if and only if there is a board that way. */
  lemma ShoveReseats(r: State, m: Hid.Mouse, now: Time)
    requires Speaking(r) && r.uhrp.ev == Uhrp.NO_EVENTS
    requires Pointer.Crossing(r.gesture, r.pointer, Pointer.Report(m.dx, m.dy, now)) != Pointer.NoEdge
    ensures var edge := Pointer.Crossing(r.gesture, r.pointer, Pointer.Report(m.dx, m.dy, now));
            var target, r1 := NeighbourOf(r, r.focus, Heading(edge)), MouseIn(r, m, now);
            && r1.pointer == Pointer.Arrived(r.gesture, r.pointer, edge, now)
            && r1.focus == (if target == ADDR_NONE then r.focus else target)
            && (r1.focus == r.focus <==> target == ADDR_NONE)
  {
    hide Pointer.Crossing, Pointer.Arrived, Focused, NeighbourOf, Drained, Hid.AnyHeld, Hid.NoteMouse, SlotOf, Find;
    var report := Pointer.Report(m.dx, m.dy, now);
    var edge := Pointer.Crossing(r.gesture, r.pointer, report);
    var r1 := Stepped(r, m, now);
    SameNeighbour(r, r1, r.focus, Heading(edge));
    NeighbourIsOther(r, r.focus, Heading(edge));
    var target := NeighbourOf(r, r.focus, Heading(edge));
    ArrivedIgnoresState(r.gesture, r.pointer, r1.pointer, edge, now);
    if target == ADDR_NONE {
      Ledger.IdleDrain(KeysNoted(MouseSent(r1, r.focus, m)));
    } else {
      FocusedMoves(r1, target, edge, now);
    }
  }

  lemma ArrivedIgnoresState(c: Pointer.Config, p: Pointer.State, q: Pointer.State, edge: Pointer.Edge, now: Time)
    ensures Pointer.Arrived(c, p, edge, now) == Pointer.Arrived(c, q, edge, now)
  {
  }

  lemma SameNeighbour(r: State, r1: State, from: Addr, direction: int)
    requires r1 == r.(pointer := r1.pointer)
    ensures NeighbourOf(r1, from, direction) == NeighbourOf(r, from, direction)
  {
    hide Nearest, Find;
    var at := Find(r.chain, from);
    if from == r.self || at.Some? {
      SameNearest(r, r1, r.chain, from, if from == r.self then 0 else r.chain[at.value].value.pos, direction);
    }
  }

  lemma {:induction false} SameNearest(r: State, r1: State, chain: Chain, from: Addr, pos: int, direction: int)
    requires r1 == r.(pointer := r1.pointer)
    ensures Nearest(r1, chain, from, pos, direction) == Nearest(r, chain, from, pos, direction)
  {
    if chain != [] {
      SameNearest(r, r1, chain[..|chain| - 1], from, pos, direction);
    }
  }

  /** So a shove at the last screen does not do nothing. Before it, the whole clamp and the
      threshold lay between the pointer and the way back; after it, only the guard and the
      threshold, although the user has not left the edge. */
  lemma ShoveAtTheEndIsRemembered(r: State, m: Hid.Mouse, now: Time)
    requires Speaking(r) && r.uhrp.ev == Uhrp.NO_EVENTS && Pointer.Sane(r.gesture)
    requires Pointer.Contained(r.gesture, r.pointer)
    requires Pointer.Crossing(r.gesture, r.pointer, Pointer.Report(m.dx, m.dy, now)) != Pointer.NoEdge
    ensures var c := r.gesture;
            var edge := Pointer.Crossing(c, r.pointer, Pointer.Report(m.dx, m.dy, now));
            var back, r1 := Pointer.Opposite(edge), MouseIn(r, m, now);
            && Pointer.Short(c, Pointer.Facing(r.pointer, back)) == 2 * c.span + c.threshold
            && Pointer.Short(c, Pointer.Facing(r1.pointer, back)) == c.guard + c.threshold
            && (NeighbourOf(r, r.focus, Heading(edge)) == ADDR_NONE ==> r1.focus == r.focus)
  {
    hide Pointer.Crossing, MouseIn, NeighbourOf;
    ShoveReseats(r, m, now);
    Pointer.CrossingIsAtTheClamp(r.gesture, r.pointer, Pointer.Report(m.dx, m.dy, now));
  }

  // ---- Which way an edge leads ----

  /** Entry t is the nearest place up-chain of entry f: the greatest position below. */
  ghost predicate NextAbove(r: State, f: nat, t: nat) {
    && Reaches(r, t) && At(r, t) < At(r, f)
    && forall i: nat :: Reaches(r, i) && At(r, i) < At(r, f) ==> At(r, i) <= At(r, t)
  }

  /** Entry t is the nearest place down-chain of entry f: the least position above. */
  ghost predicate NextBelow(r: State, f: nat, t: nat) {
    && Reaches(r, t) && At(r, t) > At(r, f)
    && forall i: nat :: Reaches(r, i) && At(r, i) > At(r, f) ==> At(r, i) >= At(r, t)
  }

  lemma NeighbourIsNext(r: State, f: nat, direction: int)
    requires Mapped(r) && f < |r.chain| && r.chain[f].Some? && direction != 0
    ensures var to := NeighbourOf(r, Name(r, f), direction);
            && (to != ADDR_NONE ==>
                  exists t: nat :: Name(r, t) == to && if direction < 0 then NextAbove(r, f, t) else NextBelow(r, f, t))
            && (to == ADDR_NONE ==>
                  forall i: nat :: Reaches(r, i) ==>
                    if direction < 0 then At(r, i) >= At(r, f) else At(r, i) <= At(r, f))
  {
    hide NeighbourOf, Nearest, Ledger.Unique;
    NeighbourIsNearest(r, f, direction);
    var e := r.chain[f].value;
    var p := Nearest(r, r.chain, e.addr, PosOf(r, e), direction);
    forall i: nat | Reaches(r, i) && (if direction < 0 then At(r, i) < At(r, f) else At(r, i) > At(r, f))
      ensures IsStep(r, r.chain[i], e.addr, PosOf(r, e), direction)
    {
      OtherPlace(r, f, i);
    }
    if p.addr != ADDR_NONE {
      var t :| 0 <= t < |r.chain| && IsStep(r, r.chain[t], e.addr, PosOf(r, e), direction) && IsPick(r, r.chain[t], p);
      assert if direction < 0 then NextAbove(r, f, t) else NextBelow(r, f, t);
    }
  }

  lemma OtherPlace(r: State, f: nat, i: nat)
    requires Ledger.Unique(r.chain) && f < |r.chain| && r.chain[f].Some? && i < |r.chain| && r.chain[i].Some?
    requires At(r, i) != At(r, f)
    ensures Name(r, i) != Name(r, f)
  {
  }

  /** A shove over the left or upper edge leads up-chain and one over the right or lower edge
      down-chain, each to the nearest place there; the focus stays exactly if there is none. */
  lemma EdgeLeads(r: State, f: nat, m: Hid.Mouse, now: Time)
    requires Speaking(r) && r.uhrp.ev == Uhrp.NO_EVENTS && Mapped(r)
    requires f < |r.chain| && r.chain[f].Some? && r.focus == Name(r, f)
    requires Pointer.Crossing(r.gesture, r.pointer, Pointer.Report(m.dx, m.dy, now)) != Pointer.NoEdge
    ensures var edge := Pointer.Crossing(r.gesture, r.pointer, Pointer.Report(m.dx, m.dy, now));
            var focus := MouseIn(r, m, now).focus;
            && (edge == Pointer.Left || edge == Pointer.Above ==>
                  || (exists t: nat :: Name(r, t) == focus && NextAbove(r, f, t))
                  || (focus == r.focus && forall i: nat :: Reaches(r, i) ==> At(r, i) >= At(r, f)))
            && (edge == Pointer.Right || edge == Pointer.Below ==>
                  || (exists t: nat :: Name(r, t) == focus && NextBelow(r, f, t))
                  || (focus == r.focus && forall i: nat :: Reaches(r, i) ==> At(r, i) <= At(r, f)))
  {
    hide Pointer.Crossing, MouseIn, NeighbourOf, Mapped, NextAbove, NextBelow, At, Reaches;
    ShoveReseats(r, m, now);
    NeighbourIsNext(r, f, -1);
    NeighbourIsNext(r, f, 1);
  }

  // ---- The button ----

  /** The entry at i: its position and its address. */
  function At(r: State, i: nat): int {
    if i < |r.chain| && r.chain[i].Some? then PosOf(r, r.chain[i].value) else 0
  }

  function Name(r: State, i: nat): Addr {
    if i < |r.chain| && r.chain[i].Some? then r.chain[i].value.addr else ADDR_NONE
  }

  predicate Screen(r: State, i: nat) {
    i < |r.chain| && IsScreen(r.chain[i])
  }

  /** Where the button leads from f. */
  function Press(r: State, f: Addr): Addr {
    ButtonTarget(r.(focus := f))
  }

  function Presses(r: State, f: Addr, n: nat): Addr {
    if n == 0 then f else Press(r, Presses(r, f, n - 1))
  }

  lemma {:induction false} SameView(r: State, s: State, chain: Chain, pos: int)
    requires s.self == r.self
    ensures NextScreen(s, chain, pos) == NextScreen(r, chain, pos) && FirstScreen(s, chain) == FirstScreen(r, chain)
  {
    if chain != [] {
      SameView(r, s, chain[..|chain| - 1], pos);
    }
  }

  lemma PressIs(r: State, f: nat)
    requires Mapped(r) && Screen(r, f)
    ensures Press(r, Name(r, f)) ==
              (var next := NextScreen(r, r.chain, At(r, f)).addr;
               if next == ADDR_NONE then FirstScreen(r, r.chain).addr else next)
  {
    hide NextScreen, FirstScreen, Find;
    Ledger.FindIs(r.chain, f);
    SameView(r, r.(focus := Name(r, f)), r.chain, At(r, f));
  }

  /** t is the nearest screen after f. */
  ghost predicate Follows(r: State, f: nat, t: nat) {
    Screen(r, t) && At(r, t) > At(r, f) && forall i: nat :: Screen(r, i) && At(r, i) > At(r, f) ==> At(r, t) <= At(r, i)
  }

  /** t is the first screen of all. */
  ghost predicate Leads(r: State, t: nat) {
    Screen(r, t) && forall i: nat :: Screen(r, i) ==> At(r, t) <= At(r, i)
  }

  ghost predicate Last(r: State, f: nat) {
    Screen(r, f) && forall i: nat :: Screen(r, i) ==> At(r, i) <= At(r, f)
  }

  /** The button moves to the nearest screen after the focus, and from the last to the first. */
  lemma PressLeads(r: State, f: nat) returns (t: nat)
    requires Mapped(r) && Screen(r, f)
    ensures Press(r, Name(r, f)) == Name(r, t) && Screen(r, t)
    ensures if Last(r, f) then Leads(r, t) else Follows(r, f, t)
  {
    hide NextScreen, FirstScreen, Press, Ledger.Unique;
    PressIs(r, f);
    var next, first := NextScreen(r, r.chain, At(r, f)), FirstScreen(r, r.chain);
    if next.addr != ADDR_NONE {
      t :| 0 <= t < |r.chain| && IsScreen(r.chain[t]) && next.pos > At(r, f) && IsPick(r, r.chain[t], next);
    } else {
      t :| 0 <= t < |r.chain| && IsScreen(r.chain[t]) && IsPick(r, r.chain[t], first);
    }
  }

  lemma {:induction false} PressesOne(r: State, f: Addr, n: nat)
    ensures Presses(r, Press(r, f), n) == Presses(r, f, n + 1)
  {
    hide Press;
    if n > 0 {
      PressesOne(r, f, n - 1);
    }
  }

  lemma {:induction false} PressesMore(r: State, f: Addr, m: nat, n: nat)
    ensures Presses(r, Presses(r, f, m), n) == Presses(r, f, m + n)
  {
    hide Press;
    if n > 0 {
      PressesMore(r, f, m, n - 1);
    }
  }

  lemma SamePlace(r: State, f: nat, g: nat)
    requires Mapped(r) && Screen(r, f) && Screen(r, g) && At(r, f) == At(r, g)
    ensures f == g
  {
  }

  /** Down the chain, every screen further on is reached. */
  lemma {:induction false} ReachedFurtherOn(r: State, f: nat, g: nat) returns (n: nat)
    requires Mapped(r) && Screen(r, f) && Screen(r, g) && At(r, f) <= At(r, g)
    ensures Presses(r, Name(r, f), n) == Name(r, g)
    decreases At(r, g) - At(r, f)
  {
    hide Press, Screen, Mapped, At, Name;
    if f == g {
      return 0;
    }
    if At(r, f) == At(r, g) {
      SamePlace(r, f, g);
    }
    var t := PressLeads(r, f);
    var m := ReachedFurtherOn(r, t, g);
    n := m + 1;
    PressesOne(r, Name(r, f), m);
  }

  lemma Furthest(r: State, f: nat) returns (l: nat)
    requires Screen(r, f)
    ensures Last(r, l)
  {
    hide IsScreen, At;
    l := f;
    for k := 0 to |r.chain|
      invariant Screen(r, l)
      invariant forall i: nat :: i < k && Screen(r, i) ==> At(r, i) <= At(r, l)
    {
      if Screen(r, k) && At(r, k) > At(r, l) {
        l := k;
      }
    }
  }

  /** From any screen, enough presses of the button reach any other: none is ever cut off. */
  lemma ButtonReachesEveryScreen(r: State, f: nat, g: nat) returns (n: nat)
    requires Mapped(r) && Screen(r, f) && Screen(r, g)
    ensures Presses(r, Name(r, f), n) == Name(r, g)
  {
    hide Press, Screen, Mapped, At, Name, Presses;
    var l := Furthest(r, f);
    var toLast := ReachedFurtherOn(r, f, l);
    var first := PressLeads(r, l);
    var toGoal := ReachedFurtherOn(r, first, g);
    n := toLast + (toGoal + 1);
    PressesOne(r, Name(r, l), toGoal);
    PressesMore(r, Name(r, f), toLast, toGoal + 1);
  }

  // ---- Pressing it ----

  function Pressing(n: nat, now: Time): seq<Ledger.Step> {
    seq(n, _ => Ledger.Button(now))
  }

  /** One press moves the focus where the button leads, and nothing else about whom it may lead to. */
  lemma PressMoves(r: State, now: Time)
    requires Speaking(r) && Press(r, r.focus) != ADDR_NONE
    ensures var r1 := Ledger.Next(r, Ledger.Button(now));
            r1.focus == Press(r, r.focus) && Speaking(r1) && r1.chain == r.chain && r1.self == r.self
  {
    hide Released, Pointer.Arrived, ButtonTarget;
    assert r.(focus := r.focus) == r;
    Ledger.ReleasedShape(r, r.focus);
  }

  lemma SamePress(r: State, r1: State, f: Addr)
    requires r1.chain == r.chain && r1.self == r.self
    ensures Press(r1, f) == Press(r, f)
  {
    hide NextScreen, FirstScreen, Find;
    SameView(r.(focus := f), r1.(focus := f), r.chain, FocusPos(r.(focus := f)));
  }

  /** From a screen, the button leads to a screen. */
  lemma PressesStay(r: State, f: nat, n: nat) returns (g: nat)
    requires Mapped(r) && Screen(r, f)
    ensures Screen(r, g) && Presses(r, Name(r, f), n) == Name(r, g) && Name(r, g) != ADDR_NONE
  {
    hide Press, Ledger.Unique;
    if n == 0 {
      g := f;
    } else {
      var h := PressesStay(r, f, n - 1);
      g := PressLeads(r, h);
    }
  }

  lemma {:induction false} PressingMoves(r: State, f: nat, n: nat, now: Time)
    requires Mapped(r) && Screen(r, f) && Speaking(r) && r.focus == Name(r, f)
    ensures var r1 := Ledger.After(r, Pressing(n, now));
            r1.focus == Presses(r, r.focus, n) && Speaking(r1) && r1.chain == r.chain && r1.self == r.self
  {
    hide Press, Mapped, Screen, Speaking, Ledger.Next;
    if n > 0 {
      var steps := Pressing(n, now);
      assert steps[..n - 1] == Pressing(n - 1, now);
      PressingMoves(r, f, n - 1, now);
      var r1 := Ledger.After(r, Pressing(n - 1, now));
      SamePress(r, r1, r1.focus);
      var _ := PressesStay(r, f, n);
      PressMoves(r1, now);
    }
  }

  /** On a board that speaks, pressing its button often enough takes the user from any screen to any
      other. */
  lemma PressingReachesEveryScreen(r: State, f: nat, g: nat, now: Time) returns (n: nat)
    requires Mapped(r) && Screen(r, f) && Screen(r, g) && Speaking(r) && r.focus == Name(r, f)
    ensures Ledger.After(r, Pressing(n, now)).focus == Name(r, g)
  {
    hide Mapped, Screen, Presses;
    n := ButtonReachesEveryScreen(r, f, g);
    PressingMoves(r, f, n, now);
  }

  /** On any other board the button does nothing. */
  lemma PressElsewhere(r: State, now: Time)
    requires !Speaking(r)
    ensures Ledger.Next(r, Ledger.Button(now)) == r
  {
  }
}
