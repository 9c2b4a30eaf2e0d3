/** Shared vocabulary of the protocol stack: machine integers, wrapping time and results. */
module Types {

  type Byte = bv8
  type U8 = x: nat | x < 0x100
  type U16 = x: nat | x < 0x1_0000
  type U32 = x: nat | x < 0x1_0000_0000
  type U64 = x: nat | x < 0x1_0000_0000_0000_0000

  type Time = U32
  type Addr = U16

  const ADDR_BROADCAST: Addr := 0xFFFF
  const ADDR_NONE: Addr := 0
  const MAX_BOARDS := 16
  const MAX_PAYLOAD := 64

  datatype Option<+T> = None | Some(value: T)

  /** The first entry of a table that goes by this address. */
  function FindBy<T>(t: seq<Option<T>>, name: T -> Addr, addr: Addr): (r: Option<nat>)
    ensures r.Some? ==> r.value < |t| && t[r.value].Some? && name(t[r.value].value) == addr
    ensures r.None? ==> forall i :: 0 <= i < |t| && t[i].Some? ==> name(t[i].value) != addr
  {
    if t == [] then None
    else if t[0].Some? && name(t[0].value) == addr then Some(0)
    else
      var r := FindBy(t[1..], name, addr);
      if r.Some? then Some(r.value + 1) else None
  }

  /** The first free entry of a table. */
  function FirstFree<T>(t: seq<Option<T>>): (r: Option<nat>)
    ensures r.Some? ==> r.value < |t| && t[r.value].None?
    ensures r.None? ==> forall i :: 0 <= i < |t| ==> t[i].Some?
  {
    if t == [] then None
    else if t[0].None? then Some(0)
    else
      var r := FirstFree(t[1..]);
      if r.Some? then Some(r.value + 1) else None
  }

  /** A queue that has lost the element at `at`. */
  function Without<T>(q: seq<T>, at: nat): seq<T> {
    if at < |q| then q[..at] + q[at + 1..] else q
  }

  lemma WithoutAt<T>(q: seq<T>, at: nat, x: nat)
    requires at < |q| && x < |q| - 1
    ensures |Without(q, at)| == |q| - 1 && Without(q, at)[x] == q[if x < at then x else x + 1]
  {
  }

  /** Unsigned 32-bit addition. */
  function Add32(a: U32, b: nat): U32 {
    (a + b) % 0x1_0000_0000
  }

  /** The difference of two timestamps, read as a signed 32-bit number. */
  function TimeDiff(a: Time, b: Time): int {
    var d := (a - b) % 0x1_0000_0000;
    if d < 0x8000_0000 then d else d - 0x1_0000_0000
  }

  /** At or after, across the wrap of the millisecond counter. */
  predicate TimeAfter(a: Time, b: Time) {
    TimeDiff(a, b) >= 0
  }

  /** The wrapped order is the true order exactly as long as the two instants are
      less than half the counter's range apart. */
  lemma TimeAfterIsTrueOrder(x: nat, y: nat)
    requires -0x8000_0000 <= x - y < 0x8000_0000
    ensures TimeAfter(x % 0x1_0000_0000, y % 0x1_0000_0000) <==> x >= y
    ensures TimeDiff(x % 0x1_0000_0000, y % 0x1_0000_0000) == x - y
  {
    WrappedDifference(x, y);
  }

  lemma WrappedDifference(x: nat, y: nat)
    ensures (x % 0x1_0000_0000 - y % 0x1_0000_0000) % 0x1_0000_0000 == (x - y) % 0x1_0000_0000
  {
  }
}
