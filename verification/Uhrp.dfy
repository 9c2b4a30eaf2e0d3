/** The role election: who speaks for the chain, who stands by, and when the role moves. */
module Uhrp {
  import opened Types

  datatype Role = Init | Learn | Listen | Speak | Standby | Active

  datatype Cap = HidOut | HidIn | Display | Settings | Clipboard | Files | Images | Share | Coordinator

  type Caps = set<Cap>

  datatype Rank = Rank(priority: U8, uid: U64)

  /** The most capable wins; the unique id breaks ties. */
  predicate Better(a: Rank, b: Rank) {
    if a.priority != b.priority then a.priority > b.priority else a.uid > b.uid
  }

  datatype Timing = Timing(helloMs: U16, holdMs: U16, learnMs: U16, deferMs: U16)

  const DEFAULT_TIMING := Timing(50, 150, 150, 2000)

  datatype Config = Config(addr: Addr, rank: Rank, caps: Caps, preempt: bool, timing: Timing)

  datatype Hello = Hello(role: Role, rank: Rank, preempt: bool, keysHeld: bool, caps: Caps)

  datatype Peer = Peer(addr: Addr, rank: Rank, role: Role, preempt: bool, caps: Caps, lastSeen: Time)

  /** Actions waiting for the caller to drain them. */
  datatype Events = Events(sendHello: bool, sendResign: bool, release: bool, changed: bool,
                           promotedByTimeout: bool, prev: Role)

  const NO_EVENTS := Events(false, false, false, false, false, Init)

  type Table = seq<Option<Peer>>

  datatype State = State(cfg: Config, role: Role, active: Addr, standby: Addr, entered: Time, nextHello: Time,
                         keysHeld: bool, resignPending: bool, deadline: Time, activeValid: bool, started: bool,
                         clean: bool, peers: Table, ev: Events)

  function Contribution(caps: Caps, cap: Cap, points: nat): nat {
    if cap in caps then points else 0
  }

  function PriorityFromCaps(caps: Caps): (p: U8)
    ensures 50 <= p
    ensures Coordinator in caps <==> p >= 150
  {
    50 + Contribution(caps, Coordinator, 100) + Contribution(caps, HidIn, 40) + Contribution(caps, Display, 10)
    + Contribution(caps, Settings, 5)
  }

  function Configured(cfg: Config): Config {
    cfg.(rank := if cfg.rank.priority == 0 then cfg.rank.(priority := PriorityFromCaps(cfg.caps)) else cfg.rank,
         timing := if cfg.timing.helloMs == 0 then DEFAULT_TIMING else cfg.timing)
  }

  function Initial(cfg: Config): State {
    State(Configured(cfg), Init, ADDR_NONE, ADDR_NONE, 0, 0, false, false, 0, false, false, false,
          seq(MAX_BOARDS, _ => None), NO_EVENTS)
  }

  // ---- The peer table ----

  predicate Live(t: Timing, p: Peer, now: Time) {
    !TimeAfter(now, Add32(p.lastSeen, t.holdMs))
  }

  function Kept(t: Timing, entry: Option<Peer>, now: Time): Option<Peer> {
    if entry.Some? && !Live(t, entry.value, now) then None else entry
  }

  function Aged(t: Timing, peers: Table, now: Time): (r: Table)
    ensures |r| == |peers|
  {
    seq(|peers|, i requires 0 <= i < |peers| => Kept(t, peers[i], now))
  }

  function NameOf(p: Peer): Addr {
    p.addr
  }

  /** The first entry of addr. */
  function Find(peers: Table, addr: Addr): (r: Option<nat>)
    ensures r.Some? ==> r.value < |peers| && peers[r.value].Some? && peers[r.value].value.addr == addr
    ensures r.None? ==> forall i :: 0 <= i < |peers| && peers[i].Some? ==> peers[i].value.addr != addr
  {
    FindBy(peers, NameOf, addr)
  }

  /** The entry of addr, or the one it would be given. */
  function Place(peers: Table, addr: Addr): (r: Option<nat>)
    ensures r.Some? ==> r.value < |peers|
  {
    if Find(peers, addr).Some? then Find(peers, addr) else FirstFree(peers)
  }

  function FirstActive(peers: Table): (r: Option<Peer>)
    ensures r.Some? ==> r in peers && r.value.role == Active
    ensures r.None? ==> forall i :: 0 <= i < |peers| && peers[i].Some? ==> peers[i].value.role != Active
  {
    if peers == [] then None
    else if peers[0].Some? && peers[0].value.role == Active then peers[0]
    else FirstActive(peers[1..])
  }

  // ---- Choosing among the candidates ----

  function Stronger(entry: Option<Peer>, best: Rank): Rank {
    if entry.Some? && Better(entry.value.rank, best) then entry.value.rank else best
  }

  /** The highest rank among `own` and the table. */
  function Strongest(own: Rank, peers: Table): (r: Rank)
    ensures r == own || Better(r, own)
    ensures r != own ==> exists i :: 0 <= i < |peers| && peers[i].Some? && peers[i].value.rank == r
    ensures forall i :: 0 <= i < |peers| && peers[i].Some? ==> !Better(peers[i].value.rank, r)
  {
    if peers == [] then own
    else Stronger(peers[|peers| - 1], Strongest(own, peers[..|peers| - 1]))
  }

  /** A candidate for standby. */
  datatype Choice = Choice(rank: Rank, addr: Addr, isSelf: bool)

  predicate Challenges(entry: Option<Peer>, c: Choice) {
    entry.Some? && entry.value.role != Active && Better(entry.value.rank, c.rank)
  }

  function Preferred(entry: Option<Peer>, c: Choice): Choice {
    if Challenges(entry, c) then Choice(entry.value.rank, entry.value.addr, false) else c
  }

  /** The best of `first` and the entries that do not hold the role. */
  function Backup(first: Choice, peers: Table): (r: Choice)
    ensures r == first || Better(r.rank, first.rank)
    ensures r != first ==> exists i :: 0 <= i < |peers| && peers[i].Some? && peers[i].value.role != Active
                                      && r == Choice(peers[i].value.rank, peers[i].value.addr, false)
    ensures forall i :: 0 <= i < |peers| ==> !Challenges(peers[i], r)
  {
    if peers == [] then first
    else Preferred(peers[|peers| - 1], Backup(first, peers[..|peers| - 1]))
  }

  /** A board that holds the role is not its own standby. */
  function FirstChoice(u: State): Choice {
    if u.role != Active then Choice(u.cfg.rank, u.cfg.addr, true) else Choice(Rank(0, 0), ADDR_NONE, false)
  }

  /** An entry of this rank asks for the role. */
  predicate Asks(peers: Table, rank: Rank) {
    exists i :: 0 <= i < |peers| && peers[i].Some? && peers[i].value.rank == rank && peers[i].value.preempt
  }

  // ---- Transitions ----

  function Entered(u: State, role: Role, now: Time): (v: State)
    ensures v == u.(role := role, entered := v.entered, ev := u.ev.(prev := v.ev.prev, changed := v.ev.changed))
  {
    if u.role == role then u
    else u.(role := role, entered := now, ev := u.ev.(prev := u.role, changed := true))
  }

  function PromotionEvents(ev: Events, dirty: bool): Events {
    ev.(sendHello := true, release := ev.release || dirty, promotedByTimeout := ev.promotedByTimeout || dirty)
  }

  function Promoted(u: State, now: Time, clean: bool): (v: State)
    ensures v == u.(role := Active, entered := v.entered, active := u.cfg.addr, activeValid := true,
                    resignPending := false, nextHello := v.nextHello, ev := v.ev)
    ensures v.ev.sendHello && v.ev.sendResign == u.ev.sendResign && (u.role != Active ==> v.ev.changed)
    ensures v.ev.release == (u.ev.release || (u.activeValid && !clean))
    ensures v.ev.promotedByTimeout == (u.ev.promotedByTimeout || (u.activeValid && !clean))
  {
    var v := Entered(u, Active, now);
    var dirty := u.activeValid && !clean;
    v.(active := u.cfg.addr, activeValid := true, resignPending := false,
       nextHello := Add32(now, u.cfg.timing.helloMs), ev := PromotionEvents(v.ev, dirty))
  }

  function Scheduled(u: State, now: Time): State {
    if u.resignPending then u
    else u.(resignPending := true, deadline := Add32(now, u.cfg.timing.deferMs))
  }

  function Serviced(u: State, now: Time): State {
    if !u.resignPending || (u.keysHeld && !TimeAfter(now, u.deadline)) then u
    else
      Entered(u.(resignPending := false, active := ADDR_NONE,
                 ev := u.ev.(release := u.ev.release || u.keysHeld, sendResign := true)), Listen, now)
  }

  function Following(b: Choice): Role {
    if b.isSelf then Standby else Listen
  }

  function Adopted(u: State, act: Peer, b: Choice, now: Time): State {
    Entered(u.(active := act.addr, activeValid := true), Following(b), now)
  }

  /** The holder of the role stands down for a better holder, or for the best board if it asks. */
  predicate MustYield(u: State) {
    var act, best := FirstActive(u.peers), Strongest(u.cfg.rank, u.peers);
    (act.Some? && Better(act.value.rank, u.cfg.rank)) || (best != u.cfg.rank && Asks(u.peers, best))
  }

  function Vacant(u: State, b: Choice, now: Time): State {
    if Strongest(u.cfg.rank, u.peers) != u.cfg.rank then Entered(u, Following(b), now)
    else if u.role == Standby then Promoted(u, now, u.clean)
    else if u.role != Speak then Entered(u, Speak, now)
    else if TimeAfter(now, Add32(u.entered, u.cfg.timing.holdMs)) then Promoted(u, now, u.clean)
    else u
  }

  function Learning(u: State, b: Choice, now: Time): State {
    var act := FirstActive(u.peers);
    if act.Some? then Adopted(u, act.value, b, now)
    else if !TimeAfter(now, Add32(u.entered, u.cfg.timing.learnMs)) then u
    else if Strongest(u.cfg.rank, u.peers) == u.cfg.rank then Promoted(u, now, true)
    else Entered(u, Following(b), now)
  }

  /** The table after ageing, and the standby it elects. */
  function Surveyed(u: State, now: Time): State {
    var peers := Aged(u.cfg.timing, u.peers, now);
    u.(peers := peers, standby := Backup(FirstChoice(u), peers).addr)
  }

  function Judged(u: State, b: Choice, now: Time): State {
    var act := FirstActive(u.peers);
    match u.role
    case Learn => Learning(u, b, now)
    case Active => Serviced(if MustYield(u) then Scheduled(u, now) else u, now)
    case _ => if act.Some? then Adopted(u, act.value, b, now) else Vacant(u.(active := ADDR_NONE), b, now)
  }

  function Evaluated(u: State, now: Time): State {
    if !u.started then u
    else
      var v := Surveyed(u, now);
      Judged(v, Backup(FirstChoice(u), v.peers), now)
  }

  // ---- Entry points ----

  function Started(u: State, now: Time): State {
    Entered(u.(started := true, clean := true), Learn, now).(entered := now, nextHello := now)
  }

  function HeardFrom(src: Addr, h: Hello, now: Time): Peer {
    Peer(src, h.rank, h.role, h.preempt, h.caps, now)
  }

  /** An announced role ends any earlier vacancy. */
  function HelloNoted(u: State, at: nat, src: Addr, h: Hello, now: Time): State
    requires at < |u.peers|
  {
    u.(clean := u.clean || (h.role == Active && u.active != src), peers := u.peers[at := Some(HeardFrom(src, h, now))])
  }

  function HelloHeard(u: State, src: Addr, h: Hello, now: Time): State {
    var at := Place(u.peers, src);
    if !u.started || src == u.cfg.addr || at.None? then u
    else Evaluated(HelloNoted(u, at.value, src, h, now), now)
  }

  function Demoted(peers: Table, at: Option<nat>, now: Time): Table
    requires at.Some? ==> at.value < |peers| && peers[at.value].Some?
  {
    if at.Some? then peers[at.value := Some(peers[at.value].value.(role := Listen, lastSeen := now))] else peers
  }

  function ResignNoted(u: State, src: Addr, now: Time): State {
    u.(peers := Demoted(u.peers, Find(u.peers, src), now),
       clean := u.clean || src == u.active,
       active := if src == u.active then ADDR_NONE else u.active)
  }

  function ResignHeard(u: State, src: Addr, now: Time): State {
    if !u.started then u else Evaluated(ResignNoted(u, src, now), now)
  }

  /** The tracked active board is gone or silent for the hold time. */
  predicate Lost(u: State, now: Time) {
    && u.role != Active && u.active != ADDR_NONE
    && var at := Find(u.peers, u.active); at.None? || !Live(u.cfg.timing, u.peers[at.value].value, now)
  }

  function HelloDue(u: State, now: Time): State {
    if TimeAfter(now, u.nextHello)
    then u.(nextHello := Add32(now, u.cfg.timing.helloMs), ev := u.ev.(sendHello := true)) else u
  }

  function Ticked(u: State, now: Time): State {
    if !u.started then u
    else HelloDue(Evaluated(u.(clean := u.clean && !Lost(u, now)), now), now)
  }

  function Drained(u: State): State {
    u.(ev := NO_EVENTS)
  }

  function Announcement(u: State): Hello {
    Hello(u.role, u.cfg.rank, u.cfg.preempt, u.keysHeld, u.cfg.caps)
  }

  /** Capabilities changed at run time change the rank. */
  function Recapped(u: State, caps: Caps): State {
    u.(cfg := u.cfg.(caps := caps, rank := u.cfg.rank.(priority := PriorityFromCaps(caps))))
  }

  // ---- The board's own state, changed in place ----

  class Speaker {
    var cfg: Config
    var role: Role
    var active: Addr
    var standby: Addr
    var entered: Time
    var nextHello: Time
    var keysHeld: bool
    var resignPending: bool
    var deadline: Time
    var activeValid: bool
    var started: bool
    var clean: bool
    var peers: Table
    var ev: Events

    function Abs(): State
      reads this
    {
      State(cfg, role, active, standby, entered, nextHello, keysHeld, resignPending, deadline, activeValid, started,
            clean, peers, ev)
    }

    constructor (c: Config)
      ensures Abs() == Initial(c)
    {
      cfg := Configured(c);
      role, active, standby, entered, nextHello := Init, ADDR_NONE, ADDR_NONE, 0, 0;
      keysHeld, resignPending, deadline, activeValid, started, clean := false, false, 0, false, false, false;
      peers, ev := seq(MAX_BOARDS, _ => None), NO_EVENTS;
    }

    method PeerFind(addr: Addr) returns (at: Option<nat>)
      ensures at == Find(peers, addr)
    {
      for i := 0 to |peers|
        invariant Find(peers, addr) == var r := Find(peers[i..], addr); if r.Some? then Some(r.value + i) else None
      {
        if peers[i].Some? && peers[i].value.addr == addr {
          return Some(i);
        }
      }
      return None;
    }

    method PeerPlace(addr: Addr) returns (at: Option<nat>)
      ensures at == Place(peers, addr)
    {
      at := PeerFind(addr);
      if at.Some? {
        return;
      }
      for i := 0 to |peers|
        invariant FirstFree(peers) == var r := FirstFree(peers[i..]); if r.Some? then Some(r.value + i) else None
      {
        if peers[i].None? {
          return Some(i);
        }
      }
      return None;
    }

    method PeerAge(now: Time)
      modifies this`peers
      ensures peers == Aged(cfg.timing, old(peers), now)
    {
      for i := 0 to |peers|
        invariant |peers| == |old(peers)|
        invariant forall k :: 0 <= k < i ==> peers[k] == Kept(cfg.timing, old(peers)[k], now)
        invariant forall k :: i <= k < |peers| ==> peers[k] == old(peers)[k]
      {
        if peers[i].Some? && TimeAfter(now, Add32(peers[i].value.lastSeen, cfg.timing.holdMs)) {
          peers := peers[i := None];
        }
      }
    }

    method FindActive() returns (p: Option<Peer>)
      ensures p == FirstActive(peers)
    {
      for i := 0 to |peers|
        invariant FirstActive(peers) == FirstActive(peers[i..])
      {
        if peers[i].Some? && peers[i].value.role == Active {
          return peers[i];
        }
      }
      return None;
    }

    /** The best candidate overall, and the best that does not hold the role. */
    method Survey() returns (best: Rank, bestIsSelf: bool, backup: Choice)
      ensures best == Strongest(cfg.rank, peers) && (bestIsSelf <==> best == cfg.rank)
      ensures backup == Backup(FirstChoice(Abs()), peers)
    {
      best, bestIsSelf := cfg.rank, true;
      backup := Choice(Rank(0, 0), ADDR_NONE, false);
      if role != Active {
        backup := Choice(cfg.rank, cfg.addr, true);
      }
      for i := 0 to |peers|
        invariant best == Strongest(cfg.rank, peers[..i]) && (bestIsSelf <==> best == cfg.rank)
        invariant backup == Backup(FirstChoice(Abs()), peers[..i])
      {
        assert peers[..i + 1][..i] == peers[..i];
        if peers[i].None? {
          continue;
        }
        var p := peers[i].value;
        if Better(p.rank, best) {
          best, bestIsSelf := p.rank, false;
        }
        if p.role != Active && Better(p.rank, backup.rank) {
          backup := Choice(p.rank, p.addr, false);
        }
      }
      assert peers[..|peers|] == peers;
    }

    method AskedFor(best: Rank) returns (asked: bool)
      ensures asked == Asks(peers, best)
    {
      for i := 0 to |peers|
        invariant forall k :: 0 <= k < i && peers[k].Some? && peers[k].value.rank == best ==> !peers[k].value.preempt
      {
        if peers[i].Some? && peers[i].value.rank == best && peers[i].value.preempt {
          return true;
        }
      }
      return false;
    }

    method EnterState(r: Role, now: Time)
      modifies this`role, this`entered, this`ev
      ensures Abs() == Entered(old(Abs()), r, now)
    {
      if role == r {
        return;
      }
      ev := ev.(prev := role, changed := true);
      role, entered := r, now;
    }

    method BecomeActive(now: Time, isClean: bool)
      modifies this
      ensures Abs() == Promoted(old(Abs()), now, isClean)
    {
      hide Add32, Entered, Configured;
      var succeeded := activeValid;
      EnterState(Active, now);
      active, activeValid, resignPending := cfg.addr, true, false;
      if succeeded && !isClean {
        ev := ev.(promotedByTimeout := true, release := true);
      }
      ev := ev.(sendHello := true);
      assert ev == PromotionEvents(Entered(old(Abs()), Active, now).ev, succeeded && !isClean);
      hide PromotionEvents;
      nextHello := Add32(now, cfg.timing.helloMs);
    }

    method ScheduleResign(now: Time)
      modifies this`resignPending, this`deadline
      ensures Abs() == Scheduled(old(Abs()), now)
    {
      if resignPending {
        return;
      }
      resignPending, deadline := true, Add32(now, cfg.timing.deferMs);
    }

    method ServiceResign(now: Time)
      modifies this
      ensures Abs() == Serviced(old(Abs()), now)
    {
      hide TimeAfter, Entered;
      if !resignPending {
        return;
      }
      var passed := TimeAfter(now, deadline);
      if keysHeld && !passed {
        return;
      }
      if keysHeld {
        ev := ev.(release := true);
      }
      ev := ev.(sendResign := true);
      resignPending, active := false, ADDR_NONE;
      EnterState(Listen, now);
    }

    method Learned(act: Option<Peer>, bestIsSelf: bool, backup: Choice, now: Time)
      requires act == FirstActive(peers) && (bestIsSelf <==> Strongest(cfg.rank, peers) == cfg.rank)
      modifies this
      ensures Abs() == Learning(old(Abs()), backup, now)
    {
      hide Entered, Promoted, TimeAfter, Add32;
      if act.Some? {
        active, activeValid := act.value.addr, true;
        EnterState(if backup.isSelf then Standby else Listen, now);
        return;
      }
      if !TimeAfter(now, Add32(entered, cfg.timing.learnMs)) {
        return;
      }
      if bestIsSelf {
        BecomeActive(now, true);
      } else {
        EnterState(if backup.isSelf then Standby else Listen, now);
      }
    }

    method Holding(act: Option<Peer>, best: Rank, bestIsSelf: bool, now: Time)
      requires act == FirstActive(peers) && best == Strongest(cfg.rank, peers) && (bestIsSelf <==> best == cfg.rank)
      modifies this
      ensures Abs() == Serviced(if MustYield(old(Abs())) then Scheduled(old(Abs()), now) else old(Abs()), now)
    {
      if act.Some? && Better(act.value.rank, cfg.rank) {
        ScheduleResign(now);
      } else if !bestIsSelf {
        var asked := AskedFor(best);
        if asked {
          ScheduleResign(now);
        }
      }
      ServiceResign(now);
    }

    method NobodyHolds(bestIsSelf: bool, backup: Choice, now: Time)
      requires bestIsSelf <==> Strongest(cfg.rank, peers) == cfg.rank
      modifies this
      ensures Abs() == Vacant(old(Abs()).(active := ADDR_NONE), backup, now)
    {
      active := ADDR_NONE;
      if !bestIsSelf {
        EnterState(if backup.isSelf then Standby else Listen, now);
        return;
      }
      if role == Standby {
        BecomeActive(now, clean);
        return;
      }
      if role != Speak {
        EnterState(Speak, now);
        return;
      }
      if TimeAfter(now, Add32(entered, cfg.timing.holdMs)) {
        BecomeActive(now, clean);
      }
    }

    method Refresh(now: Time) returns (act: Option<Peer>, best: Rank, bestIsSelf: bool, backup: Choice)
      modifies this`peers, this`standby
      ensures Abs() == Surveyed(old(Abs()), now)
      ensures act == FirstActive(peers) && best == Strongest(cfg.rank, peers) && (bestIsSelf <==> best == cfg.rank)
      ensures backup == Backup(FirstChoice(old(Abs())), peers)
    {
      hide Strongest, Backup, Aged, FirstActive;
      PeerAge(now);
      act := FindActive();
      best, bestIsSelf, backup := Survey();
      standby := backup.addr;
    }

    method Decide(act: Option<Peer>, best: Rank, bestIsSelf: bool, backup: Choice, now: Time)
      requires act == FirstActive(peers) && best == Strongest(cfg.rank, peers) && (bestIsSelf <==> best == cfg.rank)
      modifies this
      ensures Abs() == Judged(old(Abs()), backup, now)
    {
      hide Learning, Serviced, MustYield, Scheduled, Vacant, Strongest, Entered, FirstActive;
      if role == Learn {
        Learned(act, bestIsSelf, backup, now);
        return;
      }
      if role == Active {
        Holding(act, best, bestIsSelf, now);
        return;
      }
      if act.Some? {
        active, activeValid := act.value.addr, true;
        EnterState(if backup.isSelf then Standby else Listen, now);
        return;
      }
      NobodyHolds(bestIsSelf, backup, now);
    }

    method Reevaluate(now: Time)
      modifies this
      ensures Abs() == Evaluated(old(Abs()), now)
    {
      hide Judged, Strongest, Backup, FirstActive, Surveyed;
      if !started {
        return;
      }
      var act, best, bestIsSelf, backup := Refresh(now);
      Decide(act, best, bestIsSelf, backup, now);
    }

    method Start(now: Time)
      modifies this
      ensures Abs() == Started(old(Abs()), now)
    {
      hide Entered;
      started, clean := true, true;
      EnterState(Learn, now);
      entered, nextHello := now, now;
    }

    method RxHello(src: Addr, h: Hello, now: Time)
      modifies this
      ensures Abs() == HelloHeard(old(Abs()), src, h, now)
    {
      hide Evaluated, Place;
      if !started || src == cfg.addr {
        return;
      }
      var at := PeerPlace(src);
      if at.None? {
        return;
      }
      if h.role == Active && active != src {
        clean := true;
      }
      peers := peers[at.value := Some(Peer(src, h.rank, h.role, h.preempt, h.caps, now))];
      Reevaluate(now);
    }

    method RxResign(src: Addr, now: Time)
      modifies this
      ensures Abs() == ResignHeard(old(Abs()), src, now)
    {
      hide Evaluated, Find;
      if !started {
        return;
      }
      var at := PeerFind(src);
      if at.Some? {
        peers := peers[at.value := Some(peers[at.value].value.(role := Listen, lastSeen := now))];
      }
      if src == active {
        clean, active := true, ADDR_NONE;
      }
      Reevaluate(now);
    }

    method SetKeysHeld(held: bool)
      modifies this`keysHeld
      ensures Abs() == old(Abs()).(keysHeld := held)
    {
      keysHeld := held;
    }

    method Tick(now: Time)
      modifies this
      ensures Abs() == Ticked(old(Abs()), now)
    {
      hide Evaluated, TimeDiff, Add32, Find;
      if !started {
        return;
      }
      if role != Active && active != ADDR_NONE {
        var at := PeerFind(active);
        if at.None? || TimeAfter(now, Add32(peers[at.value].value.lastSeen, cfg.timing.holdMs)) {
          clean := false;
        }
      }
      Reevaluate(now);
      if TimeAfter(now, nextHello) {
        ev := ev.(sendHello := true);
        nextHello := Add32(now, cfg.timing.helloMs);
      }
    }

    method TakeEvents() returns (out: Events)
      modifies this`ev
      ensures out == old(ev) && Abs() == Drained(old(Abs()))
    {
      out := ev;
      ev := NO_EVENTS;
    }

    method SetCaps(caps: Caps)
      modifies this`cfg
      ensures Abs() == Recapped(old(Abs()), caps)
    {
      cfg := cfg.(caps := caps, rank := cfg.rank.(priority := PriorityFromCaps(caps)));
    }
  }
}
