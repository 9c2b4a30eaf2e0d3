/** The sent-state tracker: what each machine has been told is pressed. */
module Hid {
  import opened Types

  type Keys = s: seq<Byte> | |s| == 6 witness [0, 0, 0, 0, 0, 0]

  const NO_KEY: Keys := [0, 0, 0, 0, 0, 0]

  datatype Kbd = Kbd(modifiers: Byte, keys: Keys)
  datatype Mouse = Mouse(dx: int, dy: int, wheel: int, pan: int, buttons: Byte)

  /** The reports that undo everything. */
  const LIFTED := Kbd(0, NO_KEY)
  const STILL := Mouse(0, 0, 0, 0, 0)

  /** Everything that sticks on a machine until it is told otherwise. */
  datatype Pressed = Pressed(kbd: Kbd, buttons: Byte)

  const NOTHING := Pressed(LIFTED, 0)

  datatype Sent = Sent(used: bool, pressed: Pressed)

  const UNTOLD := Sent(false, NOTHING)

  type Slots = seq<Sent>

  predicate AnyKey(keys: Keys) {
    exists k :: 0 <= k < 6 && keys[k] != 0
  }

  predicate Held(s: Sent) {
    s.used && (s.pressed.kbd.modifiers != 0 || s.pressed.buttons != 0 || AnyKey(s.pressed.kbd.keys))
  }

  /** A slot that was never told anything holds nothing. */
  predicate Honest(s: Sent) {
    !s.used ==> s.pressed == NOTHING
  }

  /** Being held is exactly having been told something that is not yet undone. */
  lemma HeldMeansPressed(s: Sent)
    requires Honest(s)
    ensures Held(s) <==> s.pressed != NOTHING
  {
    var keys := s.pressed.kbd.keys;
    if !AnyKey(keys) {
      assert keys[0] == keys[1] == keys[2] == keys[3] == keys[4] == keys[5] == 0;
      assert keys == NO_KEY;
    }
  }

  predicate AnyHeld(t: Slots) {
    exists i :: 0 <= i < |t| && Held(t[i])
  }

  function NoteKbd(t: Slots, slot: nat, r: Kbd): (t': Slots)
    ensures |t'| == |t|
  {
    if slot < |t| then t[slot := Sent(true, t[slot].pressed.(kbd := r))] else t
  }

  function NoteMouse(t: Slots, slot: nat, buttons: Byte): (t': Slots)
    ensures |t'| == |t|
  {
    if slot < |t| then t[slot := Sent(true, t[slot].pressed.(buttons := buttons))] else t
  }

  predicate SlotHeld(t: Slots, slot: nat) {
    slot < |t| && Held(t[slot])
  }

  /** Everything outstanding on the slot is undone. */
  function Lift(t: Slots, slot: nat): (t': Slots)
    ensures |t'| == |t|
  {
    if SlotHeld(t, slot) then t[slot := t[slot].(pressed := NOTHING)] else t
  }

  function Forget(t: Slots, slot: nat): (t': Slots)
    ensures |t'| == |t|
  {
    if slot < |t| then t[slot := UNTOLD] else t
  }

  /** A machine receiving the lifting reports, or none when none are due, has nothing pressed. */
  lemma LiftLeavesNothing(t: Slots, slot: nat)
    requires slot < |t| && Honest(t[slot])
    ensures Lift(t, slot)[slot].pressed == NOTHING && !SlotHeld(Lift(t, slot), slot)
    ensures forall i :: 0 <= i < |t| && i != slot ==> Lift(t, slot)[i] == t[i]
  {
    HeldMeansPressed(t[slot]);
    HeldMeansPressed(Lift(t, slot)[slot]);
  }

  class Tracker {
    var target: Slots

    constructor ()
      ensures target == seq(MAX_BOARDS, _ => UNTOLD)
    {
      target := seq(MAX_BOARDS, _ => UNTOLD);
    }

    method Note(slot: nat, r: Kbd)
      modifies this
      ensures target == NoteKbd(old(target), slot, r)
    {
      if slot >= |target| {
        return;
      }
      target := target[slot := Sent(true, target[slot].pressed.(kbd := r))];
    }

    method NoteButtons(slot: nat, buttons: Byte)
      modifies this
      ensures target == NoteMouse(old(target), slot, buttons)
    {
      if slot >= |target| {
        return;
      }
      target := target[slot := Sent(true, target[slot].pressed.(buttons := buttons))];
    }

    static method IsHeld(s: Sent) returns (held: bool)
      ensures held == Held(s)
    {
      if !s.used {
        return false;
      }
      if s.pressed.kbd.modifiers != 0 || s.pressed.buttons != 0 {
        return true;
      }
      for k := 0 to 6
        invariant forall j :: 0 <= j < k ==> s.pressed.kbd.keys[j] == 0
      {
        if s.pressed.kbd.keys[k] != 0 {
          return true;
        }
      }
      return false;
    }

    method AnythingHeld() returns (held: bool)
      ensures held == AnyHeld(target)
    {
      for i := 0 to |target|
        invariant forall j :: 0 <= j < i ==> !Held(target[j])
      {
        var h := IsHeld(target[i]);
        if h {
          return true;
        }
      }
      return false;
    }

    method BuildRelease(slot: nat) returns (due: bool, kbd: Kbd, mouse: Mouse)
      modifies this
      ensures due == SlotHeld(old(target), slot) && target == Lift(old(target), slot)
      ensures kbd == LIFTED && mouse == STILL
    {
      due, kbd, mouse := false, LIFTED, STILL;
      if slot >= |target| {
        return;
      }
      due := IsHeld(target[slot]);
      if !due {
        return;
      }
      target := target[slot := Sent(target[slot].used, NOTHING)];
    }

    method ForgetSlot(slot: nat)
      modifies this
      ensures target == Forget(old(target), slot)
    {
      if slot >= |target| {
        return;
      }
      target := target[slot := UNTOLD];
    }
  }
}
