/** The router: one board's decision which machine receives the input, and everything it
    tells the machines, the chain and its own host on the way. */
module Router {
  import opened Types
  import opened Hid
  import opened Link
  import Uhrp
  import Pointer
  import Line

  datatype Entry = Entry(addr: Addr, uid: U64, caps: Uhrp.Caps, pos: int, lastSeen: Time)

  type Chain = seq<Option<Entry>>

  datatype Reason = ByButton | ByEdge | ByHotkey | ByConfig | ByFailover

  /** Everything that leaves the router: reports for a machine, frames for the chain, and
      reports another board sent for this board's machine, which are passed on untracked. */
  datatype Output =
    | TellKbd(to: Addr, kbd: Kbd)
    | TellMouse(to: Addr, mouse: Mouse)
    | ReleaseAll
    | Resign
    | SayHello(hello: Uhrp.Hello)
    | SayFocus(target: Addr, reason: Reason, edge: Pointer.Edge)
    | ForwardKbd(to: Addr, kbd: Kbd)
    | ForwardMouse(to: Addr, mouse: Mouse)
    | PassKbd(kbd: Kbd)
    | PassMouse(mouse: Mouse)
    | PassData
    | FocusChanged(target: Addr)

  datatype State = State(self: Addr, caps: Uhrp.Caps, uhrp: Uhrp.State, gesture: Pointer.Config, pointer: Pointer.State,
                         hid: Slots, chain: Chain, selfSlot: nat, focus: Addr, switches: nat, releases: nat,
                         out: seq<Output>)

  datatype Body =
    | Hello(hello: Uhrp.Hello)
    | Resigning
    | Keyboard(kbd: Kbd)
    | Movement(mouse: Mouse)
    | Focus(target: Addr)
    | Data
    | InputKbd(kbd: Kbd)
    | InputMouse(mouse: Mouse)
    | Release
    | Other

  /** A delivered frame: `port` is absent for one that did not come over the chain. */
  datatype Message = Message(src: Addr, ttl: U8, port: Option<Port>, body: Body)

  // ---- The chain table ----

  function NameOf(e: Entry): Addr {
    e.addr
  }

  function Find(chain: Chain, addr: Addr): (r: Option<nat>)
    ensures r.Some? ==> r.value < |chain| && chain[r.value].Some? && chain[r.value].value.addr == addr
    ensures r.None? ==> forall i :: 0 <= i < |chain| && chain[i].Some? ==> chain[i].value.addr != addr
  {
    FindBy(chain, NameOf, addr)
  }

  /** The table with an entry for addr, if there is room for one. */
  function Joined(chain: Chain, addr: Addr): (c: Chain)
    ensures |c| == |chain|
  {
    var at := FirstFree(chain);
    if Find(chain, addr).Some? || at.None? then chain
    else chain[at.value := Some(Entry(addr, 0, {}, 0, 0))]
  }

  function Located(chain: Chain, addr: Addr, pos: int, now: Time): (c: Chain)
    ensures |c| == |chain|
  {
    var at := Find(chain, addr);
    if at.None? then chain else chain[at.value := Some(chain[at.value].value.(pos := pos, lastSeen := now))]
  }

  function Described(chain: Chain, addr: Addr, uid: U64, caps: Uhrp.Caps): (c: Chain)
    ensures |c| == |chain|
  {
    var at := Find(chain, addr);
    if at.None? then chain else chain[at.value := Some(chain[at.value].value.(uid := uid, caps := caps))]
  }

  /** The tracker slot of a machine; an unknown address shares this board's own slot. */
  function SlotOf(r: State, addr: Addr): nat {
    var at := Find(r.chain, addr);
    if addr == r.self || at.None? then r.selfSlot else at.value
  }

  function PosOf(r: State, e: Entry): int {
    if e.addr == r.self then 0 else e.pos
  }

  /** The best candidate so far while scanning the table; ADDR_NONE is no candidate. */
  datatype Pick = Pick(addr: Addr, pos: int)

  const NO_PICK := Pick(ADDR_NONE, 0)

  predicate IsStep(r: State, e: Option<Entry>, from: Addr, fromPos: int, direction: int) {
    && e.Some? && e.value.addr != from && (Uhrp.HidOut in e.value.caps || e.value.addr == r.self)
    && (if direction > 0 then PosOf(r, e.value) > fromPos else direction < 0 && PosOf(r, e.value) < fromPos)
  }

  predicate Nearer(pos: int, best: Pick, direction: int) {
    best.addr == ADDR_NONE || (if direction > 0 then pos < best.pos else pos > best.pos)
  }

  /** No board goes by the address that stands for none. */
  predicate Named(chain: Chain) {
    forall i :: 0 <= i < |chain| && chain[i].Some? ==> chain[i].value.addr != ADDR_NONE
  }

  predicate IsPick(r: State, e: Option<Entry>, p: Pick) {
    e.Some? && p == Pick(e.value.addr, PosOf(r, e.value))
  }

  function Nearest(r: State, chain: Chain, from: Addr, fromPos: int, direction: int): (p: Pick)
    ensures p != NO_PICK ==>
              exists i :: 0 <= i < |chain| && IsStep(r, chain[i], from, fromPos, direction) && IsPick(r, chain[i], p)
    ensures Named(chain) ==> forall i :: 0 <= i < |chain| && IsStep(r, chain[i], from, fromPos, direction) ==>
              && p.addr != ADDR_NONE
              && (if direction > 0 then p.pos <= PosOf(r, chain[i].value) else p.pos >= PosOf(r, chain[i].value))
  {
    if chain == [] then NO_PICK
    else
      var e, best := chain[|chain| - 1], Nearest(r, chain[..|chain| - 1], from, fromPos, direction);
      if IsStep(r, e, from, fromPos, direction) && Nearer(PosOf(r, e.value), best, direction)
      then Pick(e.value.addr, PosOf(r, e.value)) else best
  }

  /** The machine one step from `from`, or ADDR_NONE at the end of the chain. */
  function NeighbourOf(r: State, from: Addr, direction: int): Addr {
    var at := Find(r.chain, from);
    if from != r.self && at.None? then ADDR_NONE
    else Nearest(r, r.chain, from, if from == r.self then 0 else r.chain[at.value].value.pos, direction).addr
  }

  predicate IsScreen(e: Option<Entry>) {
    e.Some? && Uhrp.HidOut in e.value.caps
  }

  /** The nearest screen after position `pos`. */
  function NextScreen(r: State, chain: Chain, pos: int): (p: Pick)
    ensures p != NO_PICK ==> exists i :: 0 <= i < |chain| && IsScreen(chain[i]) && p.pos > pos && IsPick(r, chain[i], p)
    ensures Named(chain) ==> forall i :: 0 <= i < |chain| && IsScreen(chain[i]) && PosOf(r, chain[i].value) > pos ==>
              p.addr != ADDR_NONE && p.pos <= PosOf(r, chain[i].value)
  {
    if chain == [] then NO_PICK
    else
      var e, best := chain[|chain| - 1], NextScreen(r, chain[..|chain| - 1], pos);
      if IsScreen(e) && PosOf(r, e.value) > pos && (best.addr == ADDR_NONE || PosOf(r, e.value) < best.pos)
      then Pick(e.value.addr, PosOf(r, e.value)) else best
  }

  /** The screen furthest towards the head. */
  function FirstScreen(r: State, chain: Chain): (p: Pick)
    ensures p != NO_PICK ==> exists i :: 0 <= i < |chain| && IsScreen(chain[i]) && IsPick(r, chain[i], p)
    ensures Named(chain) ==> forall i :: 0 <= i < |chain| && IsScreen(chain[i]) ==>
              p.addr != ADDR_NONE && p.pos <= PosOf(r, chain[i].value)
  {
    if chain == [] then NO_PICK
    else
      var e, best := chain[|chain| - 1], FirstScreen(r, chain[..|chain| - 1]);
      if IsScreen(e) && (best.addr == ADDR_NONE || PosOf(r, e.value) < best.pos)
      then Pick(e.value.addr, PosOf(r, e.value)) else best
  }

  function FocusPos(r: State): int {
    var at := Find(r.chain, r.focus);
    if r.focus == r.self || at.None? then 0 else r.chain[at.value].value.pos
  }

  function ButtonTarget(r: State): Addr {
    var next := NextScreen(r, r.chain, FocusPos(r)).addr;
    if next == ADDR_NONE then FirstScreen(r, r.chain).addr else next
  }

  function Far(pos: int): nat {
    if pos < 0 then -pos else pos
  }

  function ClosestScreen(r: State, chain: Chain): (p: Pick)
    ensures p != NO_PICK ==> exists i :: 0 <= i < |chain| && IsScreen(chain[i]) && chain[i].value.addr != r.self
                                        && p == Pick(chain[i].value.addr, Far(chain[i].value.pos))
    ensures Named(chain) ==> forall i :: 0 <= i < |chain| && IsScreen(chain[i]) && chain[i].value.addr != r.self ==>
              p.addr != ADDR_NONE && p.pos <= Far(chain[i].value.pos)
  {
    if chain == [] then NO_PICK
    else
      var e, best := chain[|chain| - 1], ClosestScreen(r, chain[..|chain| - 1]);
      if IsScreen(e) && e.value.addr != r.self && (best.addr == ADDR_NONE || Far(e.value.pos) < best.pos)
      then Pick(e.value.addr, Far(e.value.pos)) else best
  }

  function DefaultFocus(r: State): Addr {
    if Uhrp.HidOut in r.caps then r.self else ClosestScreen(r, r.chain).addr
  }

  // ---- Telling the machines ----

  function Says(r: State, os: seq<Output>): State {
    r.(out := r.out + os)
  }

  function KbdSent(r: State, to: Addr, k: Kbd): State {
    Says(r.(hid := NoteKbd(r.hid, SlotOf(r, to), k)), [TellKbd(to, k)])
  }

  function MouseSent(r: State, to: Addr, m: Mouse): State {
    Says(r.(hid := NoteMouse(r.hid, SlotOf(r, to), m.buttons)), [TellMouse(to, m)])
  }

  function Released(r: State, addr: Addr): State {
    if !SlotHeld(r.hid, SlotOf(r, addr)) then r
    else
      Says(r.(hid := Lift(r.hid, SlotOf(r, addr)), releases := r.releases + 1),
           [TellKbd(addr, LIFTED), TellMouse(addr, STILL)])
  }

  function Focused(r: State, target: Addr, reason: Reason, edge: Pointer.Edge, now: Time): State {
    if target == ADDR_NONE || target == r.focus then r
    else
      var r1 := Released(r, r.focus);
      Says(r1.(focus := target, switches := r.switches + 1,
               pointer := Pointer.Arrived(r.gesture, r.pointer, edge, now)),
           [SayFocus(target, reason, edge), FocusChanged(target)])
  }

  function Forgotten(hid: Slots, chain: Chain): (t: Slots)
    ensures |t| == |hid|
  {
    seq(|hid|, i requires 0 <= i < |hid| => if i < |chain| && chain[i].Some? then UNTOLD else hid[i])
  }

  function ReleasedAll(r: State): State {
    Says(r.(hid := Forgotten(r.hid, r.chain)), [ReleaseAll, TellKbd(r.self, LIFTED), TellMouse(r.self, STILL)])
  }

  /** Whom a newly promoted board should serve. */
  function Inherited(r: State): Addr {
    if r.focus == ADDR_NONE || Find(r.chain, r.focus).None? then DefaultFocus(r) else r.focus
  }

  function Inheriting(r: State): State {
    var f := Inherited(r);
    if f == ADDR_NONE then r
    else
      Says(r.(focus := f), [SayFocus(f, ByFailover, Pointer.NoEdge)] + (if f != r.focus then [FocusChanged(f)] else []))
  }

  /** Carries out what the election asked for. */
  function Drained(r: State): State {
    var ev := r.uhrp.ev;
    var r1 := r.(uhrp := Uhrp.Drained(r.uhrp));
    var r2 := if ev.release then ReleasedAll(r1) else r1;
    var r3 := if ev.sendResign then Says(r2, [Resign]) else r2;
    var r4 := if ev.sendHello then Says(r3, [SayHello(Uhrp.Announcement(r3.uhrp))]) else r3;
    if ev.changed && r4.uhrp.role == Uhrp.Active then Inheriting(r4) else r4
  }

  // ---- Entry points ----

  predicate Speaking(r: State) {
    r.uhrp.role == Uhrp.Active
  }

  function Initial(self: Addr, uid: U64, caps: Uhrp.Caps, preempt: bool, timing: Uhrp.Timing,
                   gesture: Pointer.Config): State {
    State(self, caps, Uhrp.Initial(Uhrp.Config(self, Uhrp.Rank(0, uid), caps, preempt, timing)),
          if gesture.span > 0 then gesture else Pointer.DEFAULT, Pointer.START,
          seq(MAX_BOARDS, _ => UNTOLD),
          [Some(Entry(self, uid, caps, 0, 0))] + seq(MAX_BOARDS - 1, _ => None), 0, ADDR_NONE, 0, 0, [])
  }

  function Started(r: State, now: Time): State {
    Drained(r.(uhrp := Uhrp.Started(r.uhrp, now),
               pointer := Pointer.Arrived(r.gesture, r.pointer, Pointer.NoEdge, now)))
  }

  /** Input on a board that does not hold the role goes to the one that does. */
  function HandedOn(r: State, o: Output): State {
    if Uhrp.HidIn !in r.caps || r.uhrp.active == ADDR_NONE then r else Says(r, [o])
  }

  function KeysNoted(r: State): State {
    r.(uhrp := r.uhrp.(keysHeld := AnyHeld(r.hid)))
  }

  function KbdIn(r: State, k: Kbd, now: Time): State {
    if !Speaking(r) then HandedOn(r, ForwardKbd(r.uhrp.active, k))
    else Drained(KeysNoted(KbdSent(r, r.focus, k)))
  }

  function Heading(edge: Pointer.Edge): int {
    if edge == Pointer.Left || edge == Pointer.Above then -1 else 1
  }

  function Stepped(r: State, m: Mouse, now: Time): State {
    r.(pointer := Pointer.Moved(r.gesture, r.pointer, Pointer.Report(m.dx, m.dy, now)))
  }

  function MouseIn(r: State, m: Mouse, now: Time): State {
    if !Speaking(r) then HandedOn(r, ForwardMouse(r.uhrp.active, m))
    else
      var edge := Pointer.Crossing(r.gesture, r.pointer, Pointer.Report(m.dx, m.dy, now));
      var r1 := Stepped(r, m, now);
      var target := NeighbourOf(r1, r.focus, Heading(edge));
      if edge != Pointer.NoEdge && target != ADDR_NONE then Focused(r1, target, ByEdge, edge, now)
      else Drained(KeysNoted(MouseSent(r1, r.focus, m)))
  }

  function ButtonPressed(r: State, now: Time): State {
    if !Speaking(r) then r else Focused(r, ButtonTarget(r), ByButton, Pointer.NoEdge, now)
  }

  function Sighted(r: State, m: Message, now: Time): State {
    if m.src == r.self || m.port.None? then r
    else r.(chain := Located(Joined(r.chain, m.src), m.src, Line.RelPos(m.ttl, m.port.value), now))
  }

  function FocusHeard(r: State, target: Addr): State {
    if Speaking(r) then r
    else
      var r1 := Says(r.(focus := target), [FocusChanged(target)]);
      if r.focus == r.self && target != r.self then Released(r1, r.self) else r1
  }

  predicate MayType(r: State, src: Addr) {
    Speaking(r) && Find(r.chain, src).Some? && Uhrp.HidIn in r.chain[Find(r.chain, src).value].value.caps
  }

  function Handled(r: State, m: Message, now: Time): State {
    match m.body
    case Hello(h) =>
      var r1 := r.(chain := Described(Joined(r.chain, m.src), m.src, h.rank.uid, h.caps));
      Drained(r1.(uhrp := Uhrp.HelloHeard(r1.uhrp, m.src, h, now)))
    case Resigning => Drained(r.(uhrp := Uhrp.ResignHeard(r.uhrp, m.src, now)))
    case Keyboard(k) => Says(r, [PassKbd(k)])
    case Movement(k) => Says(r, [PassMouse(k)])
    case Focus(target) => FocusHeard(r, target)
    case Data => Says(r, [PassData])
    case InputKbd(k) => if MayType(r, m.src) then KbdIn(r, k, now) else r
    case InputMouse(k) => if MayType(r, m.src) then MouseIn(r, k, now) else r
    case Release => Says(r.(hid := Forget(r.hid, r.selfSlot)), [TellKbd(r.self, LIFTED), TellMouse(r.self, STILL)])
    case Other => r
  }

  function Received(r: State, m: Message, now: Time): State {
    Handled(Sighted(r, m, now), m, now)
  }

  function Recapped(r: State, caps: Uhrp.Caps): State {
    if caps == r.caps then r
    else
      var at := Find(r.chain, r.self);
      r.(caps := caps, uhrp := Uhrp.Recapped(r.uhrp, caps),
         chain := if at.None? then r.chain else r.chain[at.value := Some(r.chain[at.value].value.(caps := caps))])
  }

  function Ticked(r: State, now: Time): State {
    Drained(r.(uhrp := Uhrp.Ticked(r.uhrp, now)))
  }
}
