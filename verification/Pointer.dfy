/** Crossing between machines by gesture: mouse motion is integrated up to a clamp, and only
    a sustained shove against the clamp crosses. Signed 32-bit overflow, which C leaves
    undefined, is not modelled. */
module Pointer {
  import opened Types

  datatype Edge = NoEdge | Left | Right | Above | Below

  datatype Config = Config(span: int, threshold: int, decayPerMs: int, guard: int, vertical: bool)

  const DEFAULT := Config(8000, 600, 4, 1500, false)

  /** Integrated motion, and how hard the clamp is being pushed: positive is right or down. */
  datatype Axis = Axis(travel: int, push: int)

  datatype State = State(x: Axis, y: Axis, last: Time, haveTime: bool)

  const START := State(Axis(0, 0), Axis(0, 0), 0, false)

  datatype Report = Report(dx: int, dy: int, now: Time)

  function Clamp(v: int, lo: int, hi: int): int {
    if v < lo then lo else if v > hi then hi else v
  }

  /** Push bleeds towards zero. */
  function Bled(push: int, bleed: int): int {
    if bleed <= 0 then push
    else if push > 0 then (if push > bleed then push - bleed else 0)
    else if push < 0 then (if -push > bleed then push + bleed else 0)
    else push
  }

  function Rested(a: Axis, bleed: int): Axis {
    a.(push := Bled(a.push, bleed))
  }

  function Elapsed(s: State, now: Time): int {
    if s.haveTime && TimeDiff(now, s.last) > 0 then TimeDiff(now, s.last) else 0
  }

  function Decayed(c: Config, s: State, now: Time): State {
    var bleed := Elapsed(s, now) * c.decayPerMs;
    State(Rested(s.x, bleed), Rested(s.y, bleed), now, true)
  }

  function Fed(c: Config, a: Axis, d: int): Axis {
    Axis(Clamp(a.travel + d, -c.span, c.span),
         if (a.travel >= c.span && d > 0) || (a.travel <= -c.span && d < 0) then a.push + d
         else if (a.push > 0 && d < 0) || (a.push < 0 && d > 0) then 0
         else a.push)
  }

  function Hit(c: Config, a: Axis): int {
    if a.push >= c.threshold then 1 else if a.push <= -c.threshold then -1 else 0
  }

  function Arrived(c: Config, s: State, edge: Edge, now: Time): State {
    var low, high, middle := Axis(-c.span + c.guard, 0), Axis(c.span - c.guard, 0), Axis(0, 0);
    match edge
    case Right => State(low, middle, now, true)
    case Left => State(high, middle, now, true)
    case Below => State(middle, low, now, true)
    case Above => State(middle, high, now, true)
    case NoEdge => State(middle, middle, now, true)
  }

  function FedY(c: Config, a: Axis, dy: int): Axis {
    if c.vertical then Fed(c, a, dy) else a.(travel := Clamp(a.travel + dy, -c.span, c.span))
  }

  /** The state in which a report is judged, before any arrival. */
  function Pressed(c: Config, s: State, r: Report): State {
    var s1 := Decayed(c, s, r.now);
    var s2 := s1.(x := Fed(c, s1.x, r.dx));
    if Hit(c, s2.x) != 0 then s2 else s2.(y := FedY(c, s1.y, r.dy))
  }

  function Crossing(c: Config, s: State, r: Report): Edge {
    var p := Pressed(c, s, r);
    if Hit(c, p.x) > 0 then Right else if Hit(c, p.x) < 0 then Left
    else if !c.vertical then NoEdge
    else if Hit(c, p.y) > 0 then Below else if Hit(c, p.y) < 0 then Above
    else NoEdge
  }

  function Moved(c: Config, s: State, r: Report): State {
    var edge := Crossing(c, s, r);
    if edge != NoEdge then Arrived(c, s, edge, r.now) else Pressed(c, s, r)
  }

  class Integrator {
    var cfg: Config
    var travelX: int
    var travelY: int
    var pushX: int
    var pushY: int
    var lastUpdate: Time
    var haveTime: bool

    function Abs(): State
      reads this
    {
      State(Axis(travelX, pushX), Axis(travelY, pushY), lastUpdate, haveTime)
    }

    constructor (c: Option<Config>)
      ensures cfg == if c.Some? && c.value.span > 0 then c.value else DEFAULT
      ensures Abs() == START
    {
      cfg := if c.Some? then c.value else DEFAULT;
      travelX, travelY, pushX, pushY, lastUpdate, haveTime := 0, 0, 0, 0, 0, false;
      new;
      if cfg.span <= 0 {
        cfg := DEFAULT;
      }
    }

    method Decay(now: Time)
      modifies this
      ensures cfg == old(cfg) && Abs() == Decayed(cfg, old(Abs()), now)
    {
      if !haveTime {
        lastUpdate, haveTime := now, true;
        return;
      }
      var dt := TimeDiff(now, lastUpdate);
      lastUpdate := now;
      if dt <= 0 {
        return;
      }
      var bleed := dt * cfg.decayPerMs;
      if bleed <= 0 {
        return;
      }
      if pushX > 0 {
        pushX := if pushX > bleed then pushX - bleed else 0;
      } else if pushX < 0 {
        pushX := if -pushX > bleed then pushX + bleed else 0;
      }
      if pushY > 0 {
        pushY := if pushY > bleed then pushY - bleed else 0;
      } else if pushY < 0 {
        pushY := if -pushY > bleed then pushY + bleed else 0;
      }
    }

    /** Moves one axis and says which of its two edges, if any, the push has broken through. */
    method AxisFeed(d: int, before: int, was: int) returns (hit: int, travel: int, push: int)
      ensures Axis(travel, push) == Fed(cfg, Axis(before, was), d)
      ensures hit == Hit(cfg, Axis(travel, push))
    {
      travel := Clamp(before + d, -cfg.span, cfg.span);
      push := was;
      if before >= cfg.span && d > 0 {
        push := push + d;
      } else if before <= -cfg.span && d < 0 {
        push := push + d;
      } else if d != 0 {
        if (push > 0 && d < 0) || (push < 0 && d > 0) {
          push := 0;
        }
      }
      if push >= cfg.threshold {
        return 1, travel, push;
      }
      if push <= -cfg.threshold {
        return -1, travel, push;
      }
      return 0, travel, push;
    }

    method Arrive(edge: Edge, now: Time)
      modifies this
      ensures cfg == old(cfg) && Abs() == Arrived(cfg, old(Abs()), edge, now)
    {
      pushX, pushY, lastUpdate, haveTime := 0, 0, now, true;
      match edge
      case Right => travelX, travelY := -cfg.span + cfg.guard, 0;
      case Left => travelX, travelY := cfg.span - cfg.guard, 0;
      case Below => travelY, travelX := -cfg.span + cfg.guard, 0;
      case Above => travelY, travelX := cfg.span - cfg.guard, 0;
      case NoEdge => travelX, travelY := 0, 0;
    }

    method Feed(dx: int, dy: int, now: Time) returns (edge: Edge)
      modifies this
      ensures cfg == old(cfg)
      ensures edge == Crossing(cfg, old(Abs()), Report(dx, dy, now))
      ensures Abs() == Moved(cfg, old(Abs()), Report(dx, dy, now))
    {
      Decay(now);
      var hx, hy: int;
      hx, travelX, pushX := AxisFeed(dx, travelX, pushX);
      if hx > 0 {
        Arrive(Right, now);
        return Right;
      }
      if hx < 0 {
        Arrive(Left, now);
        return Left;
      }
      if cfg.vertical {
        hy, travelY, pushY := AxisFeed(dy, travelY, pushY);
        if hy > 0 {
          Arrive(Below, now);
          return Below;
        }
        if hy < 0 {
          Arrive(Above, now);
          return Above;
        }
      } else {
        travelY := Clamp(travelY + dy, -cfg.span, cfg.span);
      }
      return NoEdge;
    }
  }

  // ---- What every sequence of reports keeps ----

  predicate Sane(c: Config) {
    c.span > 0 && c.threshold > 0 && 0 <= c.guard <= 2 * c.span
  }

  predicate Inside(c: Config, a: Axis) {
    && -c.span <= a.travel <= c.span
    && -c.threshold < a.push < c.threshold
    && (a.push > 0 ==> a.travel == c.span)
    && (a.push < 0 ==> a.travel == -c.span)
  }

  /** Travel is clamped, push is short of a crossing, and there is push only at the clamp. */
  predicate Contained(c: Config, s: State) {
    && Inside(c, s.x) && Inside(c, s.y)
    && (!s.haveTime ==> s.x == s.y == Axis(0, 0))
    && (!c.vertical ==> s.y.push == 0)
  }

  function Play(c: Config, s: State, rs: seq<Report>): State {
    if rs == [] then s else Moved(c, Play(c, s, rs[..|rs| - 1]), rs[|rs| - 1])
  }

  lemma BledKeeps(c: Config, a: Axis, bleed: int)
    requires Inside(c, a)
    ensures Inside(c, Rested(a, bleed))
  {
  }

  /** A fed axis either crosses or stays inside. */
  lemma FedKeeps(c: Config, a: Axis, d: int)
    requires Sane(c) && Inside(c, a)
    ensures Hit(c, Fed(c, a, d)) == 0 ==> Inside(c, Fed(c, a, d))
  {
  }

  lemma PressedKeeps(c: Config, s: State, r: Report)
    requires Sane(c) && Contained(c, s)
    ensures Crossing(c, s, r) == NoEdge ==> Contained(c, Pressed(c, s, r))
  {
    hide Bled, Rested, Fed, TimeDiff;
    var bleed := Elapsed(s, r.now) * c.decayPerMs;
    BledKeeps(c, s.x, bleed);
    BledKeeps(c, s.y, bleed);
    var s1 := Decayed(c, s, r.now);
    FedKeeps(c, s1.x, r.dx);
    FedKeeps(c, s1.y, r.dy);
    if c.vertical {
      assert Crossing(c, s, r) == NoEdge ==> Pressed(c, s, r).y == Fed(c, s1.y, r.dy);
    } else {
      LevelKeeps(c, s, r);
    }
  }

  lemma LevelKeeps(c: Config, s: State, r: Report)
    requires Sane(c) && Contained(c, s) && !c.vertical
    ensures Crossing(c, s, r) == NoEdge ==> Inside(c, Pressed(c, s, r).y) && Pressed(c, s, r).y.push == 0
  {
  }

  /** The configuration bounds are what containment takes: an arrival lands inside the clamp
      exactly for such a guard, and without a positive threshold rest itself crosses. */
  lemma ArrivalIsContained(c: Config, s: State, edge: Edge, now: Time)
    requires c.span > 0 && c.threshold > 0
    ensures edge == NoEdge ==> Contained(c, Arrived(c, s, edge, now))
    ensures edge != NoEdge ==> (Contained(c, Arrived(c, s, edge, now)) <==> 0 <= c.guard <= 2 * c.span)
  {
  }

  lemma RestCrossesExactlyWithoutThreshold(c: Config, now: Time)
    ensures Crossing(c, START, Report(0, 0, now)) != NoEdge <==> c.threshold <= 0
  {
  }

  /** Between reports travel never leaves the clamp and push never reaches the threshold. */
  lemma {:induction false} AlwaysContained(c: Config, s: State, rs: seq<Report>)
    requires Sane(c) && Contained(c, s)
    ensures Contained(c, Play(c, s, rs))
  {
    hide Crossing, Pressed, Arrived, Contained;
    if rs != [] {
      var s1, r := Play(c, s, rs[..|rs| - 1]), rs[|rs| - 1];
      AlwaysContained(c, s, rs[..|rs| - 1]);
      PressedKeeps(c, s1, r);
      ArrivalIsContained(c, s1, Crossing(c, s1, r), r.now);
    }
  }

  // ---- The price of a crossing ----

  function Flip(a: Axis): Axis {
    Axis(-a.travel, -a.push)
  }

  /** The axis through edge e, counted towards e. */
  function Facing(s: State, e: Edge): Axis {
    match e
    case Right => s.x
    case Left => Flip(s.x)
    case Below => s.y
    case Above => Flip(s.y)
    case NoEdge => Axis(0, 0)
  }

  function Positive(d: int): nat {
    if d > 0 then d else 0
  }

  function Along(r: Report, e: Edge): int {
    match e
    case Right => r.dx
    case Left => -r.dx
    case Below => r.dy
    case Above => -r.dy
    case NoEdge => 0
  }

  /** All motion towards e in a sequence of reports; motion back is not subtracted. */
  function Motion(rs: seq<Report>, e: Edge): nat {
    if rs == [] then 0 else Motion(rs[..|rs| - 1], e) + Positive(Along(rs[|rs| - 1], e))
  }

  predicate Quiet(c: Config, s: State, rs: seq<Report>) {
    rs == [] || (Quiet(c, s, rs[..|rs| - 1]) && Crossing(c, Play(c, s, rs[..|rs| - 1]), rs[|rs| - 1]) == NoEdge)
  }

  /** How far an axis is from crossing. */
  function Short(c: Config, a: Axis): int {
    c.span - a.travel + c.threshold - Positive(a.push)
  }

  lemma AxisPays(c: Config, a: Axis, bleed: int, d: int)
    requires Sane(c) && Inside(c, a)
    ensures var b := Fed(c, Rested(a, bleed), d);
            && Short(c, b) >= Short(c, a) - Positive(d)
            && Short(c, Flip(b)) >= Short(c, Flip(a)) - Positive(-d)
            && (Hit(c, b) > 0 ==> Short(c, b) <= 0)
            && (Hit(c, b) < 0 ==> Short(c, Flip(b)) <= 0)
  {
  }

  lemma LevelPays(c: Config, a: Axis, bleed: int, d: int)
    requires Sane(c) && Inside(c, a) && a.push == 0 && !c.vertical
    ensures var b := FedY(c, Rested(a, bleed), d);
            && Short(c, b) >= Short(c, a) - Positive(d)
            && Short(c, Flip(b)) >= Short(c, Flip(a)) - Positive(-d)
  {
  }

  /** One report brings the crossing through e nearer by no more than its motion towards e,
      and crosses only when nothing is left to go. */
  lemma ReportPays(c: Config, s: State, r: Report, e: Edge)
    requires Sane(c) && Contained(c, s) && e != NoEdge
    requires Crossing(c, s, r) == e || Crossing(c, s, r) == NoEdge
    ensures Short(c, Facing(Pressed(c, s, r), e)) >= Short(c, Facing(s, e)) - Positive(Along(r, e))
    ensures Crossing(c, s, r) == e ==> Short(c, Facing(Pressed(c, s, r), e)) <= 0
  {
    hide Bled, Rested, Fed, Hit, Short, Inside, Elapsed, Positive, Flip;
    var bleed := Elapsed(s, r.now) * c.decayPerMs;
    if e == Right || e == Left {
      AxisPays(c, s.x, bleed, r.dx);
    } else if c.vertical {
      AxisPays(c, s.y, bleed, r.dy);
    } else {
      LevelPays(c, s.y, bleed, r.dy);
    }
  }

  /** From any contained state the first crossing, if it is through e, took at least the
      travel that was missing to e's clamp plus the push that was missing to the threshold. */
  lemma {:induction false} CrossingIsPaidFor(c: Config, s: State, rs: seq<Report>, r: Report, e: Edge)
    requires Sane(c) && Contained(c, s) && e != NoEdge
    requires Quiet(c, s, rs) && Crossing(c, Play(c, s, rs), r) == e
    ensures Motion(rs + [r], e) >= Short(c, Facing(s, e))
  {
    hide Contained, Crossing, Pressed, Short, Facing, Along, Sane;
    QuietPays(c, s, rs, e);
    AlwaysContained(c, s, rs);
    ReportPays(c, Play(c, s, rs), r, e);
    assert (rs + [r])[..|rs|] == rs;
  }

  lemma {:induction false} QuietPays(c: Config, s: State, rs: seq<Report>, e: Edge)
    requires Sane(c) && Contained(c, s) && e != NoEdge && Quiet(c, s, rs)
    ensures Short(c, Facing(Play(c, s, rs), e)) >= Short(c, Facing(s, e)) - Motion(rs, e)
  {
    hide Contained, Crossing, Pressed, Short, Facing, Along, Sane;
    if rs != [] {
      var rs1 := rs[..|rs| - 1];
      QuietPays(c, s, rs1, e);
      AlwaysContained(c, s, rs1);
      ReportPays(c, Play(c, s, rs1), rs[|rs| - 1], e);
    }
  }

  function Opposite(e: Edge): Edge {
    match e
    case Right => Left
    case Left => Right
    case Below => Above
    case Above => Below
    case NoEdge => NoEdge
  }

  /** After a crossing through `out`, crossing straight back costs at least the guard band and
      the whole threshold in motion the other way, whatever else the mouse did meanwhile. */
  lemma GoingBackCosts(c: Config, s: State, out: Edge, now: Time, rs: seq<Report>, r: Report)
    requires Sane(c) && out != NoEdge
    requires Quiet(c, Arrived(c, s, out, now), rs)
    requires Crossing(c, Play(c, Arrived(c, s, out, now), rs), r) == Opposite(out)
    ensures Motion(rs + [r], Opposite(out)) >= c.guard + c.threshold
  {
    hide Quiet, Crossing, Play, Motion;
    ArrivalIsContained(c, s, out, now);
    CrossingIsPaidFor(c, Arrived(c, s, out, now), rs, r, Opposite(out));
  }

  /** The report that moves d counts towards e and nowhere else. */
  function Nudge(e: Edge, d: int, now: Time): Report {
    match e
    case Right => Report(d, 0, now)
    case Left => Report(-d, 0, now)
    case Below => Report(0, d, now)
    case Above => Report(0, -d, now)
    case NoEdge => Report(0, 0, now)
  }

  /** The price is exact, at all four edges: that much motion at once does cross back. */
  lemma GoingBackCostsNoMore(c: Config, s: State, out: Edge, now: Time)
    requires Sane(c) && out != NoEdge && (out == Above || out == Below ==> c.vertical)
    ensures var a, back := Arrived(c, s, out, now), Opposite(out);
            && Quiet(c, a, [Nudge(back, c.guard, now)])
            && Crossing(c, Play(c, a, [Nudge(back, c.guard, now)]), Nudge(back, c.threshold, now)) == back
  {
    var a, back := Arrived(c, s, out, now), Opposite(out);
    var band, shove := Nudge(back, c.guard, now), Nudge(back, c.threshold, now);
    assert [band][..0] == [];
    assert Play(c, a, []) == a && Quiet(c, a, []);
    BandCrossed(c, s, out, now);
    assert Play(c, a, [band]) == Moved(c, a, band);
    ShoveCrossesBack(c, Moved(c, a, band), back, now);
  }

  /** The guard band brings the pointer to the clamp and no further. */
  lemma BandCrossed(c: Config, s: State, out: Edge, now: Time)
    requires Sane(c) && out != NoEdge && (out == Above || out == Below ==> c.vertical)
    ensures var a, back := Arrived(c, s, out, now), Opposite(out);
            var t := Moved(c, a, Nudge(back, c.guard, now));
            && Crossing(c, a, Nudge(back, c.guard, now)) == NoEdge && Facing(t, back) == Axis(c.span, 0)
            && t.x.push == t.y.push == 0 && t.haveTime && t.last == now
  {
    var a, back := Arrived(c, s, out, now), Opposite(out);
    assert Elapsed(a, now) == 0;
    assert Decayed(c, a, now) == a;
    hide Decayed;
  }

  lemma ShoveCrossesBack(c: Config, t: State, back: Edge, now: Time)
    requires Sane(c) && back != NoEdge && (back == Above || back == Below ==> c.vertical)
    requires Facing(t, back) == Axis(c.span, 0) && t.x.push == t.y.push == 0 && t.haveTime && t.last == now
    ensures Crossing(c, t, Nudge(back, c.threshold, now)) == back
  {
    assert Elapsed(t, now) == 0;
    assert Decayed(c, t, now) == t;
    hide Decayed;
  }

  /** A crossing is only ever made from the clamp of its edge. */
  lemma CrossingIsAtTheClamp(c: Config, s: State, r: Report)
    requires Sane(c) && Contained(c, s) && Crossing(c, s, r) != NoEdge
    ensures Facing(s, Crossing(c, s, r)).travel == c.span
    ensures Facing(s, Opposite(Crossing(c, s, r))).travel == -c.span && Facing(s, Opposite(Crossing(c, s, r))).push <= 0
  {
    hide Crossing, Rested, Fed, Hit, Inside, Elapsed;
    var bleed := Elapsed(s, r.now) * c.decayPerMs;
    CrossingHits(c, s, r);
    HitIsAtTheClamp(c, s.x, bleed, r.dx);
    HitIsAtTheClamp(c, s.y, bleed, r.dy);
  }

  /** Each edge is crossed by a hit on its axis. */
  lemma CrossingHits(c: Config, s: State, r: Report)
    ensures var bleed, edge := Elapsed(s, r.now) * c.decayPerMs, Crossing(c, s, r);
            var x, y := Fed(c, Rested(s.x, bleed), r.dx), Fed(c, Rested(s.y, bleed), r.dy);
            && (edge == Right ==> Hit(c, x) > 0) && (edge == Left ==> Hit(c, x) < 0)
            && (edge == Below ==> Hit(c, y) > 0) && (edge == Above ==> Hit(c, y) < 0)
  {
    hide Rested, Fed, Hit, Elapsed;
  }

  lemma HitIsAtTheClamp(c: Config, a: Axis, bleed: int, d: int)
    requires Sane(c) && Inside(c, a)
    ensures Hit(c, Fed(c, Rested(a, bleed), d)) > 0 ==> a.travel == c.span && a.push >= 0
    ensures Hit(c, Fed(c, Rested(a, bleed), d)) < 0 ==> a.travel == -c.span && a.push <= 0
  {
  }

  // ---- The speed floor ----

  function Magnitude(d: int): nat {
    if d < 0 then -d else d
  }

  /** A report no faster than the decay rate and smaller than the threshold. */
  predicate Gentle(c: Config, s: State, r: Report) {
    && (s.haveTime ==>
          && Magnitude(r.dx) <= c.decayPerMs * Elapsed(s, r.now)
          && Magnitude(r.dy) <= c.decayPerMs * Elapsed(s, r.now))
    && Magnitude(r.dx) < c.threshold && Magnitude(r.dy) < c.threshold
  }

  predicate AllGentle(c: Config, s: State, rs: seq<Report>) {
    rs == [] || (AllGentle(c, s, rs[..|rs| - 1]) && Gentle(c, Play(c, s, rs[..|rs| - 1]), rs[|rs| - 1]))
  }

  lemma GentleAxis(c: Config, a: Axis, bleed: int, d: int)
    requires Sane(c) && Inside(c, a) && Magnitude(d) < c.threshold
    requires Magnitude(d) <= bleed || a == Axis(0, 0)
    ensures Hit(c, Fed(c, Rested(a, bleed), d)) == 0
  {
  }

  lemma GentleReport(c: Config, s: State, r: Report)
    requires Sane(c) && Contained(c, s) && Gentle(c, s, r)
    ensures Crossing(c, s, r) == NoEdge
  {
    hide Bled, Rested, Fed, Hit, TimeDiff;
    var bleed := Elapsed(s, r.now) * c.decayPerMs;
    GentleAxis(c, s.x, bleed, r.dx);
    GentleAxis(c, s.y, bleed, r.dy);
  }

  /** Motion at or below the decay rate never crosses, however long it lasts and whatever
      push had already built up. */
  lemma {:induction false} SlowMotionNeverCrosses(c: Config, s: State, rs: seq<Report>)
    requires Sane(c) && Contained(c, s) && AllGentle(c, s, rs)
    ensures Quiet(c, s, rs)
  {
    hide Crossing, Contained, Gentle, Sane;
    if rs != [] {
      var rs1 := rs[..|rs| - 1];
      SlowMotionNeverCrosses(c, s, rs1);
      AlwaysContained(c, s, rs1);
      GentleReport(c, Play(c, s, rs1), rs[|rs| - 1]);
    }
  }

  // ---- A steady shove ----

  function CeilDiv(a: nat, b: int): nat {
    if b <= 0 then 0 else (a + b - 1) / b
  }

  /** The time k milliseconds later. */
  function Later(t: Time, k: nat): Time {
    if k == 0 then t else Add32(Later(t, k - 1), 1)
  }

  /** One such nudge each millisecond. */
  function Steady(e: Edge, d: int, start: Time, n: nat): (rs: seq<Report>)
    ensures |rs| == n
  {
    if n == 0 then [] else Steady(e, d, start, n - 1) + [Nudge(e, d, Later(start, n - 1))]
  }

  /** The edge is one the configuration lets the pointer cross, and d beats the decay. */
  predicate Shove(c: Config, e: Edge, d: int) {
    && e != NoEdge && (e == Above || e == Below ==> c.vertical)
    && 0 <= c.decayPerMs < d
  }

  /** What a millisecond of shoving does to the axis that is shoved. */
  predicate Advances(c: Config, a: Axis, b: Axis, d: int) {
    && b.travel == Clamp(a.travel + d, -c.span, c.span)
    && b.push >= 0
    && (a.travel == c.span ==> b.push >= a.push + d - c.decayPerMs)
  }

  lemma FlipCommutes(c: Config, a: Axis, bleed: int, d: int)
    requires c.span > 0 && c.threshold > 0
    ensures Rested(Flip(a), bleed) == Flip(Rested(a, bleed))
    ensures Fed(c, Flip(a), d) == Flip(Fed(c, a, -d))
    ensures Hit(c, Flip(a)) == -Hit(c, a)
    ensures Inside(c, Flip(a)) <==> Inside(c, a)
  {
  }

  lemma AxisAdvances(c: Config, a: Axis, bleed: int, d: int)
    requires Sane(c) && Inside(c, a) && 0 <= c.decayPerMs < d
    requires bleed == c.decayPerMs || a == Axis(0, 0)
    ensures Advances(c, a, Fed(c, Rested(a, bleed), d), d)
    ensures Hit(c, Fed(c, Rested(a, bleed), d)) >= 0
  {
  }

  /** The other way is the mirror image. */
  lemma AxisAdvancesBack(c: Config, a: Axis, bleed: int, d: int)
    requires Sane(c) && Inside(c, a) && 0 <= c.decayPerMs < d
    requires bleed == c.decayPerMs || a == Axis(0, 0)
    ensures Advances(c, Flip(a), Flip(Fed(c, Rested(a, bleed), -d)), d)
    ensures Hit(c, Fed(c, Rested(a, bleed), -d)) <= 0
  {
    hide Rested, Fed, Hit, Inside, Advances;
    var b := Rested(a, bleed);
    FlipCommutes(c, a, bleed, d);
    FlipCommutes(c, b, bleed, d);
    FlipCommutes(c, Fed(c, b, -d), bleed, d);
    AxisAdvances(c, Flip(a), bleed, d);
  }

  lemma StillAxis(c: Config, a: Axis, bleed: int)
    requires Sane(c) && Inside(c, a)
    ensures Hit(c, Fed(c, Rested(a, bleed), 0)) == 0
  {
  }

  lemma ShoveSideways(c: Config, s: State, e: Edge, d: int, now: Time)
    requires Sane(c) && Inside(c, s.x) && Inside(c, s.y) && 0 <= c.decayPerMs < d && (e == Right || e == Left)
    requires !s.haveTime ==> s.x == Axis(0, 0)
    requires Decayed(c, s, now) == Bleeding(c, s, now)
    ensures Advances(c, Facing(s, e), Facing(Pressed(c, s, Nudge(e, d, now)), e), d)
    ensures Crossing(c, s, Nudge(e, d, now)) == e || Crossing(c, s, Nudge(e, d, now)) == NoEdge
  {
    hide Inside, Advances, Sane, Rested, Fed, Hit, Decayed, FedY, Pressed, Crossing, Flip, Nudge;
    var bleed := if s.haveTime then c.decayPerMs else 0;
    var x, y := Rested(s.x, bleed), Rested(s.y, bleed);
    if e == Right {
      AxisAdvances(c, s.x, bleed, d);
    } else {
      AxisAdvancesBack(c, s.x, bleed, d);
    }
    StillY(c, s.y, bleed);
    Sideways(c, s, x, y, e, d, now);
  }

  lemma ShoveUpright(c: Config, s: State, e: Edge, d: int, now: Time)
    requires Sane(c) && Inside(c, s.x) && Inside(c, s.y) && 0 <= c.decayPerMs < d
    requires (e == Above || e == Below) && c.vertical
    requires !s.haveTime ==> s.y == Axis(0, 0)
    requires Decayed(c, s, now) == Bleeding(c, s, now)
    ensures Advances(c, Facing(s, e), Facing(Pressed(c, s, Nudge(e, d, now)), e), d)
    ensures Crossing(c, s, Nudge(e, d, now)) == e || Crossing(c, s, Nudge(e, d, now)) == NoEdge
  {
    hide Inside, Advances, Sane, Rested, Fed, Hit, Decayed, FedY, Pressed, Crossing, Flip, Nudge;
    var bleed := if s.haveTime then c.decayPerMs else 0;
    var x, y := Rested(s.x, bleed), Rested(s.y, bleed);
    if e == Below {
      AxisAdvances(c, s.y, bleed, d);
    } else {
      AxisAdvancesBack(c, s.y, bleed, d);
    }
    StillAxis(c, s.x, bleed);
    Upright(c, s, x, y, e, d, now);
  }

  lemma ShoveStep(c: Config, s: State, e: Edge, d: int, now: Time)
    requires Sane(c) && Contained(c, s) && Shove(c, e, d)
    requires Decayed(c, s, now) == Bleeding(c, s, now)
    ensures Advances(c, Facing(s, e), Facing(Pressed(c, s, Nudge(e, d, now)), e), d)
    ensures Crossing(c, s, Nudge(e, d, now)) == e || Crossing(c, s, Nudge(e, d, now)) == NoEdge
  {
    hide Inside, Advances, Sane, Decayed, Bleeding, Pressed, Crossing, Facing, Nudge;
    if e == Right || e == Left {
      ShoveSideways(c, s, e, d, now);
    } else {
      ShoveUpright(c, s, e, d, now);
    }
  }

  lemma Sideways(c: Config, s: State, x: Axis, y: Axis, e: Edge, d: int, now: Time)
    requires Decayed(c, s, now) == State(x, y, now, true) && (e == Right || e == Left)
    ensures var b := Fed(c, x, if e == Right then d else -d);
            && Facing(Pressed(c, s, Nudge(e, d, now)), e) == (if e == Right then b else Flip(b))
            && (Hit(c, FedY(c, y, 0)) == 0 ==>
                  Crossing(c, s, Nudge(e, d, now)) ==
                  if Hit(c, b) > 0 then Right else if Hit(c, b) < 0 then Left else NoEdge)
  {
    hide Decayed, Fed, Hit, FedY;
  }

  lemma Upright(c: Config, s: State, x: Axis, y: Axis, e: Edge, d: int, now: Time)
    requires Decayed(c, s, now) == State(x, y, now, true) && (e == Above || e == Below) && c.vertical
    requires Hit(c, Fed(c, x, 0)) == 0
    ensures var b := Fed(c, y, if e == Below then d else -d);
            && Facing(Pressed(c, s, Nudge(e, d, now)), e) == (if e == Below then b else Flip(b))
            && Crossing(c, s, Nudge(e, d, now)) ==
               if Hit(c, b) > 0 then Below else if Hit(c, b) < 0 then Above else NoEdge
  {
    hide Decayed, Fed, Hit;
  }

  /** A millisecond of decay. */
  function Bleeding(c: Config, s: State, now: Time): State {
    var bleed := if s.haveTime then c.decayPerMs else 0;
    State(Rested(s.x, bleed), Rested(s.y, bleed), now, true)
  }

  lemma DecayByOne(c: Config, s: State, now: Time)
    requires s.haveTime ==> Elapsed(s, now) == 1
    ensures Decayed(c, s, now) == Bleeding(c, s, now)
  {
  }

  lemma StillY(c: Config, a: Axis, bleed: int)
    requires Sane(c) && Inside(c, a)
    ensures Hit(c, FedY(c, Rested(a, bleed), 0)) == 0
  {
  }

  /** Reports it takes to be certainly at the clamp. */
  function Approach(c: Config, a: Axis, d: int): nat {
    CeilDiv(Positive(c.span - a.travel), d)
  }

  /** Reports within which a shove of d counts per millisecond must cross. */
  function Bound(c: Config, a: Axis, d: int): nat {
    Approach(c, a, d) + CeilDiv(Positive(c.threshold), d - c.decayPerMs)
  }

  /** n reports of d into the shove that began at a, the axis is at b. */
  predicate Underway(c: Config, a: Axis, b: Axis, d: int, n: nat) {
    && b.travel == Clamp(a.travel + n * d, -c.span, c.span)
    && (n >= Approach(c, a, d) ==> b.travel == c.span && b.push >= (n - Approach(c, a, d)) * (d - c.decayPerMs))
  }

  lemma CeilDivIsLeast(m: nat, d: int, n: nat)
    requires d > 0
    ensures n >= CeilDiv(m, d) <==> n * d >= m
  {
    var q := m + d - 1;
    var k := q / d;
    assert q == d * k + q % d;
    if n >= k {
      Scaled(k, n, d);
    } else {
      Scaled(n + 1, k, d);
    }
  }

  lemma Scaled(a: nat, b: nat, d: int)
    requires a <= b && d > 0
    ensures a * d <= b * d
  {
  }

  lemma ClampsAt(c: Config, a: Axis, d: int, n: nat)
    requires d > 0 && Inside(c, a) && c.span > 0
    ensures n >= Approach(c, a, d) <==> a.travel + n * d >= c.span
  {
    CeilDivIsLeast(c.span - a.travel, d, n);
  }

  lemma UnderwayStep(c: Config, a: Axis, b: Axis, b': Axis, d: int, n: nat)
    requires Sane(c) && Inside(c, a) && 0 <= c.decayPerMs < d
    requires Underway(c, a, b, d, n) && Advances(c, b, b', d)
    ensures Underway(c, a, b', d, n + 1)
  {
    hide Approach;
    ClampsAt(c, a, d, n);
    ClampsAt(c, a, d, n + 1);
    assert (n + 1) * d == n * d + d && n * d >= 0;
    if n >= Approach(c, a, d) {
      var k := n - Approach(c, a, d);
      assert (k + 1) * (d - c.decayPerMs) == k * (d - c.decayPerMs) + (d - c.decayPerMs);
    } else if n + 1 >= Approach(c, a, d) {
      assert n + 1 == Approach(c, a, d);
    }
  }

  lemma FacingInside(c: Config, s: State, e: Edge)
    requires Contained(c, s) && e != NoEdge
    ensures Inside(c, Facing(s, e))
  {
  }

  lemma ShoveBegins(c: Config, a: Axis, d: int)
    requires Sane(c) && Inside(c, a) && d > 0
    ensures Underway(c, a, a, d, 0)
  {
    ClampsAt(c, a, d, 0);
    assert 0 * d == 0;
  }

  /** The clock agrees with the n-th report of a shove from s. */
  predicate OnTime(s: State, t: State, start: Time, n: nat) {
    if n == 0 then t == s && (s.haveTime ==> start == Add32(s.last, 1))
    else t.haveTime && t.last == Later(start, n - 1)
  }

  lemma OneMillisecond(t: Time)
    ensures TimeDiff(Add32(t, 1), t) == 1
  {
  }

  lemma NextMillisecond(s: State, t: State, start: Time, n: nat)
    requires OnTime(s, t, start, n)
    ensures t.haveTime ==> Elapsed(t, Later(start, n)) == 1
  {
    hide Add32, TimeDiff;
    assert Later(start, n) == if n == 0 then start else Add32(Later(start, n - 1), 1);
    OneMillisecond(t.last);
  }

  /** As long as it has not crossed, a shove of n reports is exactly as far as it should be. */
  predicate Progress(c: Config, s: State, t: State, e: Edge, d: int, start: Time, n: nat) {
    OnTime(s, t, start, n) && Underway(c, Facing(s, e), Facing(t, e), d, n)
  }

  lemma ProgressBegins(c: Config, s: State, e: Edge, d: int, start: Time)
    requires Sane(c) && Contained(c, s) && Shove(c, e, d)
    requires s.haveTime ==> start == Add32(s.last, 1)
    ensures Progress(c, s, s, e, d, start, 0)
    ensures Steady(e, d, start, 0) == []
  {
    hide Underway, Add32, Inside, Facing, Sane, Contained;
    FacingInside(c, s, e);
    ShoveBegins(c, Facing(s, e), d);
  }

  lemma ProgressStep(c: Config, s: State, t: State, e: Edge, d: int, start: Time, n: nat)
    requires Sane(c) && Contained(c, s) && Contained(c, t) && Shove(c, e, d)
    requires Progress(c, s, t, e, d, start, n)
    ensures Crossing(c, t, Nudge(e, d, Later(start, n))) == e || Crossing(c, t, Nudge(e, d, Later(start, n))) == NoEdge
    ensures Crossing(c, t, Nudge(e, d, Later(start, n))) == NoEdge ==>
              Progress(c, s, Moved(c, t, Nudge(e, d, Later(start, n))), e, d, start, n + 1)
  {
    hide Contained, Crossing, Inside, Facing, Sane, Advances, Approach, Elapsed, Later, Underway;
    var r := Nudge(e, d, Later(start, n));
    NextMillisecond(s, t, start, n);
    DecayByOne(c, t, r.now);
    ShoveStep(c, t, e, d, r.now);
    FacingInside(c, s, e);
    UnderwayStep(c, Facing(s, e), Facing(t, e), Facing(Pressed(c, t, r), e), d, n);
  }

  lemma SteadyPrefix(e: Edge, d: int, start: Time, n: nat)
    requires n > 0
    ensures Steady(e, d, start, n)[..n - 1] == Steady(e, d, start, n - 1)
    ensures Steady(e, d, start, n)[n - 1] == Nudge(e, d, Later(start, n - 1))
  {
  }

  lemma {:induction false} ShoveProgress(c: Config, s: State, e: Edge, d: int, start: Time, n: nat)
    requires Sane(c) && Contained(c, s) && Shove(c, e, d)
    requires s.haveTime ==> start == Add32(s.last, 1)
    requires Quiet(c, s, Steady(e, d, start, n))
    ensures Progress(c, s, Play(c, s, Steady(e, d, start, n)), e, d, start, n)
  {
    hide Contained, Crossing, Facing, Sane, Advances, Underway, Progress, Steady, Moved, Later, Add32;
    if n == 0 {
      ProgressBegins(c, s, e, d, start);
    } else {
      SteadyPrefix(e, d, start, n);
      ShoveProgress(c, s, e, d, start, n - 1);
      AlwaysContained(c, s, Steady(e, d, start, n - 1));
      ProgressStep(c, s, Play(c, s, Steady(e, d, start, n - 1)), e, d, start, n - 1);
    }
  }

  lemma {:induction false} FirstCrossing(c: Config, s: State, e: Edge, d: int, start: Time, n: nat) returns (k: nat)
    requires Sane(c) && Contained(c, s) && Shove(c, e, d)
    requires s.haveTime ==> start == Add32(s.last, 1)
    requires !Quiet(c, s, Steady(e, d, start, n))
    ensures k < n && Quiet(c, s, Steady(e, d, start, k))
    ensures Crossing(c, Play(c, s, Steady(e, d, start, k)), Nudge(e, d, Later(start, k))) == e
  {
    hide Contained, Crossing, Progress, Steady, Moved, Later, Add32, Shove, Sane;
    if Quiet(c, s, Steady(e, d, start, n - 1)) {
      k := n - 1;
      SteadyPrefix(e, d, start, n);
      ShoveProgress(c, s, e, d, start, k);
      AlwaysContained(c, s, Steady(e, d, start, k));
      ProgressStep(c, s, Play(c, s, Steady(e, d, start, k)), e, d, start, k);
    } else {
      k := FirstCrossing(c, s, e, d, start, n - 1);
    }
  }

  lemma BoundIsEnough(c: Config, a: Axis, b: Axis, d: int)
    requires Sane(c) && 0 <= c.decayPerMs < d && Underway(c, a, b, d, Bound(c, a, d))
    ensures b.push >= c.threshold
  {
    CeilDivIsLeast(c.threshold, d - c.decayPerMs, CeilDiv(c.threshold, d - c.decayPerMs));
  }

  /** A steady shove towards an edge, from any contained state, crosses that edge within
      ceil((span - travel) / d) + ceil(threshold / (d - decay)) reports. */
  lemma SteadyShoveCrosses(c: Config, s: State, e: Edge, d: int, start: Time) returns (k: nat)
    requires Sane(c) && Contained(c, s) && Shove(c, e, d)
    requires s.haveTime ==> start == Add32(s.last, 1)
    ensures k < Bound(c, Facing(s, e), d)
    ensures Quiet(c, s, Steady(e, d, start, k))
    ensures Crossing(c, Play(c, s, Steady(e, d, start, k)), Nudge(e, d, Later(start, k))) == e
  {
    hide Contained, Crossing, Steady, Later, Add32, Sane, Inside, Underway, Facing, Bound;
    var n := Bound(c, Facing(s, e), d);
    if Quiet(c, s, Steady(e, d, start, n)) {
      ShoveProgress(c, s, e, d, start, n);
      var t := Play(c, s, Steady(e, d, start, n));
      BoundIsEnough(c, Facing(s, e), Facing(t, e), d);
      AlwaysContained(c, s, Steady(e, d, start, n));
      FacingInside(c, t, e);
      StillShort(c, Facing(t, e));
    }
    k := FirstCrossing(c, s, e, d, start, n);
  }

  lemma StillShort(c: Config, a: Axis)
    requires Inside(c, a)
    ensures a.push < c.threshold
  {
  }

  // ---- Rest ----

  /** What is left of a push after bleeding by `amount` towards zero. */
  function Remaining(push: int, amount: int): int {
    if push >= 0 then (if push > amount then push - amount else 0)
    else (if -push > amount then push + amount else 0)
  }

  /** A push bleeds at a steady rate: by the milliseconds that have really passed, across the wrap of
      the counter, times the rate, and never past zero. */
  lemma PushBleedsByTime(c: Config, s: State, since: nat, dt: nat)
    requires s.haveTime && s.last == since % 0x1_0000_0000 && dt < 0x8000_0000 && c.decayPerMs >= 0
    ensures var v := Decayed(c, s, (since + dt) % 0x1_0000_0000);
            && v.x == s.x.(push := Remaining(s.x.push, dt * c.decayPerMs))
            && v.y == s.y.(push := Remaining(s.y.push, dt * c.decayPerMs))
  {
    hide TimeDiff;
    TimeAfterIsTrueOrder(since + dt, since);
    if dt == 0 {
      assert dt * c.decayPerMs == 0;
    }
  }
}
