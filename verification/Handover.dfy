/** Whole runs of one board's election: when the role is given up, and when taking it over
    must first release every machine. */
module Handover {
  import opened Types
  import opened Uhrp

  datatype Step =
    | HearHello(src: Addr, hello: Hello, now: Time)
    | HearResign(src: Addr, now: Time)
    | Tick(now: Time)
    | Keys(held: bool)
    | SetCaps(caps: Caps)
    | Drain

  predicate Timed(step: Step) {
    step.HearHello? || step.HearResign? || step.Tick?
  }

  function Next(u: State, step: Step): State {
    match step
    case HearHello(src, h, now) => HelloHeard(u, src, h, now)
    case HearResign(src, now) => ResignHeard(u, src, now)
    case Tick(now) => Ticked(u, now)
    case Keys(held) => u.(keysHeld := held)
    case SetCaps(caps) => Recapped(u, caps)
    case Drain => Drained(u)
  }

  function After(u: State, steps: seq<Step>): State {
    if steps == [] then u else Next(After(u, steps[..|steps| - 1]), steps[|steps| - 1])
  }

  function Run(cfg: Config, start: Time, steps: seq<Step>): State {
    After(Started(Initial(cfg), start), steps)
  }

  /** What a step writes down before it judges, when it judges at all. */
  function Noted(u: State, step: Step): Option<State> {
    if !u.started then None
    else
      match step
      case HearHello(src, h, now) =>
        if src == u.cfg.addr || Place(u.peers, src).None? then None
        else Some(HelloNoted(u, Place(u.peers, src).value, src, h, now))
      case HearResign(src, now) => Some(ResignNoted(u, src, now))
      case Tick(now) => Some(u.(clean := u.clean && !Lost(u, now)))
      case _ => None
  }

  /** Everything but the hello timer. */
  predicate AlikeButHello(u: State, v: State) {
    v == u.(nextHello := v.nextHello, ev := u.ev.(sendHello := v.ev.sendHello))
  }

  lemma HelloDueShape(u: State, now: Time)
    ensures AlikeButHello(u, HelloDue(u, now)) && AlikeButHello(u, u)
  {
    hide TimeAfter, Add32;
  }

  /** A step that judges is an evaluation of what it noted. */
  lemma JudgingStep(u: State, step: Step)
    requires Noted(u, step).Some?
    ensures Timed(step) && AlikeButHello(Evaluated(Noted(u, step).value, step.now), Next(u, step))
  {
    hide Evaluated, HelloNoted, ResignNoted, Place, Lost, HelloDue, AlikeButHello, Recapped, Drained;
    assert Timed(step);
    HelloDueShape(Evaluated(Noted(u, step).value, step.now), step.now);
  }

  /** Any other step leaves the role alone. */
  lemma OtherStep(u: State, step: Step)
    requires Noted(u, step).None?
    ensures var v := Next(u, step);
            && v == u.(keysHeld := v.keysHeld, cfg := v.cfg, ev := v.ev)
            && v.cfg.timing == u.cfg.timing && (!step.Drain? ==> v.ev == u.ev)
  {
    hide Evaluated, HelloNoted, ResignNoted, Place, HelloDue, PriorityFromCaps;
  }

  lemma StepShape(u: State, step: Step)
    ensures Noted(u, step).Some? ==>
              Timed(step) && AlikeButHello(Evaluated(Noted(u, step).value, step.now), Next(u, step))
    ensures Noted(u, step).None? ==>
              var v := Next(u, step);
              && v == u.(keysHeld := v.keysHeld, cfg := v.cfg, ev := v.ev)
              && v.cfg.timing == u.cfg.timing && (!step.Drain? ==> v.ev == u.ev)
  {
    hide Noted, Next, AlikeButHello, Evaluated;
    if Noted(u, step).Some? {
      JudgingStep(u, step);
    } else {
      OtherStep(u, step);
    }
  }

  lemma NotedShape(u: State, step: Step)
    requires Noted(u, step).Some?
    ensures var n := Noted(u, step).value;
            n == u.(peers := n.peers, clean := n.clean, active := n.active) && n.started
            && (n.active == u.active || (step.HearResign? && n.active == ADDR_NONE))
            && (n.clean && !u.clean ==> Reassures(u, step))
  {
    hide Place, Find, Lost;
  }

  /** The holder of the role has made itself known, or the tracked holder stood down. */
  predicate Reassures(u: State, step: Step) {
    || (step.HearHello? && step.hello.role == Active && step.src != u.active)
    || (step.HearResign? && step.src == u.active)
  }

  lemma SurveyShape(u: State, now: Time)
    ensures var v := Surveyed(u, now); v == u.(peers := Aged(u.cfg.timing, u.peers, now), standby := v.standby)
  {
  }

  // ---- Giving the role up ----

  /** A step that finds a live and strictly better peer in the table. */
  ghost predicate SawBetter(u: State, step: Step) {
    Noted(u, step).Some? && Timed(step) &&
    exists p: Peer :: Some(p) in Noted(u, step).value.peers && Live(u.cfg.timing, p, step.now)
      && Better(p.rank, u.cfg.rank)
  }

  lemma AgedHolds(t: Timing, peers: Table, now: Time, e: Option<Peer>)
    requires e in Aged(t, peers, now) && e.Some?
    ensures e in peers && Live(t, e.value, now)
  {
    hide Live;
    var i :| 0 <= i < |peers| && Aged(t, peers, now)[i] == e;
    assert e == Kept(t, peers[i], now);
  }

  lemma YieldsToBetter(u: State) returns (p: Peer)
    requires MustYield(u)
    ensures Some(p) in u.peers && Better(p.rank, u.cfg.rank)
  {
    var act, best := FirstActive(u.peers), Strongest(u.cfg.rank, u.peers);
    if act.Some? && Better(act.value.rank, u.cfg.rank) {
      p := act.value;
    } else {
      var i :| 0 <= i < |u.peers| && u.peers[i].Some? && u.peers[i].value.rank == best;
      p := u.peers[i].value;
      assert u.peers[i] == Some(p);
    }
  }

  lemma YieldMeansSawBetter(u: State, step: Step)
    requires Noted(u, step).Some? && Timed(step)
    requires MustYield(Surveyed(Noted(u, step).value, step.now))
    ensures SawBetter(u, step)
  {
    hide MustYield, Backup, Noted, Live;
    var n := Noted(u, step).value;
    NotedShape(u, step);
    var s := Surveyed(n, step.now);
    var p := YieldsToBetter(s);
    AgedHolds(n.cfg.timing, n.peers, step.now, Some(p));
  }

  function Due(u: State, now: Time): Time {
    if u.resignPending then u.deadline else Add32(now, u.cfg.timing.deferMs)
  }

  /** What judging does to the holder of the role. */
  lemma HolderJudged(u: State, b: Choice, now: Time)
    requires u.role == Active
    ensures var v := Judged(u, b, now);
            var pending := u.resignPending || MustYield(u);
            && v.cfg == u.cfg && v.started == u.started
            && (v.role == Active <==> !pending || (u.keysHeld && !TimeAfter(now, Due(u, now))))
            && (v.role == Active ==> v.resignPending == pending && (pending ==> v.deadline == Due(u, now)))
            && v.keysHeld == u.keysHeld && v.clean == u.clean
            && (v.role == Active ==> v.active == u.active && v.activeValid == u.activeValid && v.ev == u.ev)
            && (v.role != Active ==>
                  && v.role == Listen && !v.resignPending && v.active == ADDR_NONE && v.ev.sendResign
                  && v.ev.release == (u.ev.release || u.keysHeld))
  {
    hide MustYield, FirstActive, Strongest, TimeAfter, Add32, Entered;
  }

  /** Judging left the board a follower: only its role and whom it follows may have changed. */
  predicate Follows(u: State, v: State) {
    && v.role != Active && v.role != Learn && v.role != Init
    && v == u.(role := v.role, entered := v.entered, active := v.active, activeValid := v.activeValid,
               ev := u.ev.(prev := v.ev.prev, changed := v.ev.changed))
    && (u.activeValid ==> v.activeValid) && (v.active != ADDR_NONE ==> v.activeValid)
  }

  lemma VacantShape(u: State, b: Choice, now: Time)
    requires u.role != Active && u.role != Learn && u.role != Init && u.active == ADDR_NONE
    ensures var v := Vacant(u, b, now);
            v == Promoted(u, now, u.clean) || (Follows(u, v) && v.active == ADDR_NONE)
  {
    hide Strongest, TimeAfter, Add32, Entered, Promoted, Follows;
    EnteredFollows(u, Following(b), now);
    EnteredFollows(u, Speak, now);
    SelfFollows(u);
  }

  lemma SelfFollows(u: State)
    requires u.role != Active && u.role != Learn && u.role != Init && u.active == ADDR_NONE
    ensures Follows(u, u)
  {
  }

  lemma EnteredFollows(u: State, role: Role, now: Time)
    requires role != Active && role != Learn && role != Init && u.active == ADDR_NONE
    ensures Follows(u, Entered(u, role, now)) && Entered(u, role, now).active == ADDR_NONE
  {
    hide Entered;
  }

  lemma LearningShape(u: State, b: Choice, now: Time)
    requires u.role == Learn && u.active == ADDR_NONE
    ensures var v := Learning(u, b, now); v == u || v == Promoted(u, now, true) || Follows(u, v)
  {
    hide Strongest, TimeAfter, Add32, Entered, Promoted, FirstActive, Follows;
    EnteredFollows(u, Following(b), now);
    var act := FirstActive(u.peers);
    if act.Some? {
      AdoptedFollows(u, act.value, b, now);
    }
  }

  lemma AdoptedFollows(u: State, act: Peer, b: Choice, now: Time)
    ensures Follows(u, Adopted(u, act, b, now))
  {
    hide Entered;
  }

  lemma FollowsFrom(u: State, v: State)
    requires Follows(u.(active := ADDR_NONE), v)
    ensures Follows(u, v)
  {
  }

  /** What judging does to any other board. */
  lemma FollowerJudged(u: State, b: Choice, now: Time)
    requires u.role != Active && u.role != Init && (u.role == Learn ==> u.active == ADDR_NONE)
    ensures var v := Judged(u, b, now);
            || v == Promoted(u.(active := ADDR_NONE), now, u.clean || u.role == Learn)
            || Follows(u, v)
            || (u.role == Learn && v == u)
  {
    hide FirstActive, Vacant, Learning, Promoted, Adopted, Follows;
    if u.role == Learn {
      LearningShape(u, b, now);
      assert u.(active := ADDR_NONE) == u;
    } else if FirstActive(u.peers).None? {
      var w := u.(active := ADDR_NONE);
      VacantShape(w, b, now);
      if Follows(w, Vacant(w, b, now)) {
        FollowsFrom(u, Vacant(w, b, now));
      }
    } else {
      AdoptedFollows(u, FirstActive(u.peers).value, b, now);
    }
  }

  /** What every run keeps about whom a board follows. */
  predicate Sound(u: State) {
    && u.started && u.role != Init
    && (u.resignPending ==> u.role == Active)
    && (u.role == Learn ==> u.active == ADDR_NONE)
    && (u.active != ADDR_NONE ==> u.activeValid)
  }

  lemma PendingStep(u: State, step: Step)
    requires Sound(u)
    ensures var v := Next(u, step);
            && Sound(v) && v.cfg.timing == u.cfg.timing
            && (v.resignPending ==> v.role == u.role == Active)
            && (v.resignPending && u.resignPending ==> v.deadline == u.deadline)
            && (v.resignPending && !u.resignPending ==>
                  SawBetter(u, step) && v.deadline == Add32(step.now, u.cfg.timing.deferMs))
  {
    hide Judged, MustYield, SawBetter, Noted, Next, Backup, FirstChoice, Aged;
    StepShape(u, step);
    if Noted(u, step).Some? {
      var n := Noted(u, step).value;
      NotedShape(u, step);
      SurveyShape(n, step.now);
      var s, b := Surveyed(n, step.now), Backup(FirstChoice(n), Surveyed(n, step.now).peers);
      assert Evaluated(n, step.now) == Judged(s, b, step.now);
      if u.role == Active {
        HolderJudged(s, b, step.now);
        if MustYield(s) {
          YieldMeansSawBetter(u, step);
        }
      } else {
        FollowerJudged(s, b, step.now);
      }
    }
  }

  /** What a drained board's next step can ask for: a resignation only when it gives the role
      up, and then with a release if keys are held. */
  lemma AskedByStep(u: State, step: Step)
    requires Sound(u) && u.ev == NO_EVENTS && Timed(step)
    ensures var v := Next(u, step);
            && Sound(v) && v.keysHeld == u.keysHeld && v.cfg == u.cfg
            && (v.ev.sendResign ==> u.role == Active && v.role != Active)
            && (u.role == Active && v.role != Active && u.keysHeld ==> v.ev.release)
            && (v.role == Active ==> (v.ev.changed <==> u.role != Active))
  {
    hide Judged, MustYield, Noted, Next, Backup, FirstChoice, Aged, Promoted;
    StepShape(u, step);
    PendingStep(u, step);
    if Noted(u, step).Some? {
      var n := Noted(u, step).value;
      NotedShape(u, step);
      JudgingShape(u, step);
      var s, b := Surveyed(n, step.now), Backup(FirstChoice(n), Surveyed(n, step.now).peers);
      if u.role == Active {
        HolderJudged(s, b, step.now);
      } else {
        FollowerJudged(s, b, step.now);
      }
    } else {
      TimedOther(u, step);
    }
  }

  /** A board that follows before and after asks for no release and no resignation. */
  lemma FollowerAsksNothing(u: State, step: Step)
    requires Sound(u) && u.role != Active && Timed(step) && Next(u, step).role != Active
    ensures Next(u, step).ev.release == u.ev.release && Next(u, step).ev.sendResign == u.ev.sendResign
  {
    hide Judged, Noted, Next, Backup, FirstChoice, Aged;
    StepShape(u, step);
    if Noted(u, step).Some? {
      NotedShape(u, step);
      JudgingShape(u, step);
      var s := Surveyed(Noted(u, step).value, step.now);
      FollowerJudged(s, Backup(FirstChoice(Noted(u, step).value), s.peers), step.now);
    } else {
      TimedOther(u, step);
    }
  }

  lemma LeavingResigns(u: State, step: Step)
    requires Sound(u) && u.role == Active && Timed(step) && Next(u, step).role != Active
    ensures Next(u, step).ev.sendResign
  {
    hide Judged, MustYield, Noted, Next, Backup, FirstChoice, Aged;
    StepShape(u, step);
    if Noted(u, step).Some? {
      var n := Noted(u, step).value;
      NotedShape(u, step);
      JudgingShape(u, step);
      HolderJudged(Surveyed(n, step.now), Backup(FirstChoice(n), Surveyed(n, step.now).peers), step.now);
    }
  }

  lemma TimedOther(u: State, step: Step)
    requires Noted(u, step).None? && Timed(step)
    ensures Next(u, step) == u
  {
    hide Evaluated, HelloNoted, ResignNoted, Place, HelloDue;
  }

  /** Step j of the run saw a better live peer, and the board has held the role ever since. */
  ghost predicate Cause(u: State, steps: seq<Step>, j: nat) {
    && j < |steps| && SawBetter(After(u, steps[..j]), steps[j])
    && forall k :: j <= k <= |steps| ==> After(u, steps[..k]).role == Active
  }

  lemma CauseExtends(u: State, steps: seq<Step>, j: nat)
    requires |steps| > 0 && Cause(u, steps[..|steps| - 1], j) && After(u, steps).role == Active
    ensures Cause(u, steps, j)
  {
    hide SawBetter, After;
    var pre := steps[..|steps| - 1];
    assert steps[..|steps|] == steps && pre[..j] == steps[..j];
    forall k | j <= k <= |steps| ensures After(u, steps[..k]).role == Active {
      if k < |steps| {
        assert pre[..k] == steps[..k];
      }
    }
  }

  lemma CauseHere(u: State, steps: seq<Step>)
    requires |steps| > 0 && SawBetter(After(u, steps[..|steps| - 1]), steps[|steps| - 1])
    requires After(u, steps[..|steps| - 1]).role == After(u, steps).role == Active
    ensures Cause(u, steps, |steps| - 1)
  {
    hide SawBetter, After;
    var n := |steps| - 1;
    assert steps[..|steps|] == steps;
    forall k | n <= k <= |steps| ensures After(u, steps[..k]).role == Active {
      assert k == n || k == |steps|;
    }
  }

  lemma {:induction false} AlwaysPending(u: State, steps: seq<Step>)
    requires Sound(u) && !u.resignPending
    ensures var v := After(u, steps);
            Sound(v) && v.cfg.timing == u.cfg.timing
  {
    hide Next, SawBetter;
    if steps != [] {
      AlwaysPending(u, steps[..|steps| - 1]);
      PendingStep(After(u, steps[..|steps| - 1]), steps[|steps| - 1]);
    }
  }

  lemma {:induction false} PendingHasCause(u: State, steps: seq<Step>) returns (j: nat)
    requires Sound(u) && !u.resignPending
    requires After(u, steps).resignPending
    ensures j < |steps| && Cause(u, steps, j) && After(u, steps).role == Active
    ensures After(u, steps).deadline == Add32(steps[j].now, u.cfg.timing.deferMs)
    ensures After(u, steps).cfg.timing == u.cfg.timing
  {
    hide Next, Cause, SawBetter;
    if steps == [] {
      assert false;
    }
    var n := |steps| - 1;
    var pre := steps[..n];
    AlwaysPending(u, pre);
    PendingStep(After(u, pre), steps[n]);
    if After(u, pre).resignPending {
      j := PendingHasCause(u, pre);
      CauseExtends(u, steps, j);
    } else {
      j := n;
      CauseHere(u, steps);
    }
  }

  /** A board leaves the role only by resigning, because of a strictly better live peer it has
      seen since it was promoted; with keys held, only once the deadline set at that sighting
      has passed, and with a release of every machine. */
  lemma LeavesOnlyByResigning(cfg: Config, start: Time, steps: seq<Step>) returns (j: nat)
    requires |steps| > 0
    requires Run(cfg, start, steps[..|steps| - 1]).role == Active && Run(cfg, start, steps).role != Active
    ensures var u, v := Run(cfg, start, steps[..|steps| - 1]), Run(cfg, start, steps);
            && v.role == Listen && v.ev.sendResign
            && j < |steps| && SawBetter(Run(cfg, start, steps[..j]), steps[j])
            && (forall k :: j <= k < |steps| ==> Run(cfg, start, steps[..k]).role == Active)
            && Timed(steps[|steps| - 1])
            && (u.keysHeld ==>
                  v.ev.release && TimeAfter(steps[|steps| - 1].now, Add32(steps[j].now, u.cfg.timing.deferMs)))
  {
    hide Next, SawBetter, Judged, MustYield, Noted, Backup, FirstChoice, Aged, TimeAfter, Add32;
    var u0 := Started(Initial(cfg), start);
    var n := |steps| - 1;
    var pre, step := steps[..n], steps[n];
    var u := After(u0, pre);
    AlwaysPending(u0, pre);
    StepShape(u, step);
    NotedShape(u, step);
    var noted := Noted(u, step).value;
    SurveyShape(noted, step.now);
    var s, b := Surveyed(noted, step.now), Backup(FirstChoice(noted), Surveyed(noted, step.now).peers);
    assert Evaluated(noted, step.now) == Judged(s, b, step.now);
    HolderJudged(s, b, step.now);
    if u.resignPending {
      j := PendingHasCause(u0, pre);
      forall k | j <= k < |steps| ensures After(u0, steps[..k]).role == Active {
        assert pre[..k] == steps[..k];
      }
      assert pre[..j] == steps[..j];
    } else {
      j := n;
      YieldMeansSawBetter(u, step);
    }
  }

  /** The state a judging step arrives at, before the hello timer. */
  lemma JudgingShape(u: State, step: Step)
    requires u.started && Noted(u, step).Some?
    ensures Timed(step)
    ensures var n := Noted(u, step).value;
            var s := Surveyed(n, step.now);
            && s == u.(peers := s.peers, clean := n.clean, active := n.active, standby := s.standby)
            && s.peers == Aged(u.cfg.timing, n.peers, step.now)
            && AlikeButHello(Judged(s, Backup(FirstChoice(n), s.peers), step.now), Next(u, step))
  {
    hide Judged, Noted, Next, Backup, FirstChoice, Aged, AlikeButHello;
    StepShape(u, step);
    NotedShape(u, step);
    SurveyShape(Noted(u, step).value, step.now);
  }

  /** A board asked to resign keeps the role exactly while keys are held and the deadline is
      ahead, so a stuck key cannot hold the handover up for ever. */
  lemma PendingHandoverIsBounded(u: State, step: Step)
    requires Sound(u) && u.resignPending && Noted(u, step).Some?
    ensures Next(u, step).role == Active <==> u.keysHeld && !TimeAfter(step.now, u.deadline)
    ensures Next(u, step).role != Active ==> Next(u, step).ev.sendResign
  {
    hide Judged, MustYield, Noted, Next, Backup, FirstChoice, Aged, TimeAfter;
    JudgingShape(u, step);
    var s := Surveyed(Noted(u, step).value, step.now);
    HolderJudged(s, Backup(FirstChoice(Noted(u, step).value), s.peers), step.now);
  }

  // ---- Two boards that both hold the role ----

  ghost predicate Speaks(peers: Table, rank: Rank) {
    exists p: Peer :: Some(p) in peers && p.role == Active && p.rank == rank
  }

  /** Board i hears exactly the other boards hold the role. */
  ghost predicate HearsOthers(boards: seq<State>, i: nat, now: Time)
    requires i < |boards|
  {
    var peers := Aged(boards[i].cfg.timing, boards[i].peers, now);
    && (forall j :: 0 <= j < |boards| && i != j ==> Speaks(peers, boards[j].cfg.rank))
    && (forall p: Peer :: Some(p) in peers && p.role == Active ==>
          exists j :: 0 <= j < |boards| && j != i && boards[j].cfg.rank == p.rank)
  }

  /** All of these boards hold the role, and each hears every other do so. */
  ghost predicate SplitBrain(boards: seq<State>, now: Time) {
    forall i :: 0 <= i < |boards| ==> boards[i].started && boards[i].role == Active && HearsOthers(boards, i, now)
  }

  /** Resigning, now or as soon as the keys are up. */
  predicate Yielding(v: State) {
    if v.role == Active then v.resignPending else v.role == Listen && v.ev.sendResign
  }

  lemma HolderEvaluated(u: State, now: Time)
    requires u.started && u.role == Active
    ensures var s := Surveyed(u, now);
            && s.peers == Aged(u.cfg.timing, u.peers, now) && s.cfg == u.cfg
            && (!u.resignPending ==> (Yielding(Evaluated(u, now)) <==> MustYield(s)))
            && (MustYield(s) ==> Yielding(Evaluated(u, now)))
  {
    hide Judged, MustYield, Backup, FirstChoice, Aged, TimeAfter;
    SurveyShape(u, now);
    HolderJudged(Surveyed(u, now), Backup(FirstChoice(u), Surveyed(u, now).peers), now);
  }

  /** Among boards that hear each other hold the role, the weakest always yields. */
  lemma WeakestYields(boards: seq<State>, w: nat, now: Time)
    requires SplitBrain(boards, now) && w < |boards| && |boards| > 1
    requires forall j :: 0 <= j < |boards| && j != w ==> Better(boards[j].cfg.rank, boards[w].cfg.rank)
    ensures Yielding(Evaluated(boards[w], now))
  {
    hide Evaluated, Yielding, Aged, MustYield, Better;
    var u := boards[w];
    assert HearsOthers(boards, w, now);
    HolderEvaluated(u, now);
    assert Speaks(Aged(u.cfg.timing, u.peers, now), boards[if w == 0 then 1 else 0].cfg.rank);
    OutrankedYields(Surveyed(u, now));
  }

  lemma OutrankedYields(u: State)
    requires exists p: Peer :: Some(p) in u.peers && p.role == Active
    requires forall p: Peer :: Some(p) in u.peers && p.role == Active ==> Better(p.rank, u.cfg.rank)
    ensures MustYield(u)
  {
    var p: Peer :| Some(p) in u.peers && p.role == Active;
    var k :| 0 <= k < |u.peers| && u.peers[k] == Some(p);
    assert FirstActive(u.peers).Some? && Some(FirstActive(u.peers).value) in u.peers;
  }

  /** The strongest yields exactly to the best live peer, and only if that one is better
      still and asks for the role. */
  lemma StrongestYieldsOnlyToPreemption(boards: seq<State>, m: nat, now: Time)
    requires SplitBrain(boards, now) && m < |boards| && !boards[m].resignPending
    requires forall j :: 0 <= j < |boards| && j != m ==> Better(boards[m].cfg.rank, boards[j].cfg.rank)
    ensures Yielding(Evaluated(boards[m], now)) <==>
              exists p: Peer :: Preempts(Aged(boards[m].cfg.timing, boards[m].peers, now), p, boards[m].cfg.rank)
  {
    hide Evaluated, Yielding, Aged, MustYield, Preempts;
    var u := boards[m];
    assert HearsOthers(boards, m, now);
    HolderEvaluated(u, now);
    UnlessAsked(Surveyed(u, now));
  }

  lemma UnlessAsked(u: State)
    requires forall p: Peer :: Some(p) in u.peers && p.role == Active ==> !Better(p.rank, u.cfg.rank)
    ensures MustYield(u) <==> exists p: Peer :: Preempts(u.peers, p, u.cfg.rank)
  {
    hide Preempts, Asks, Strongest;
    AsksMeansPreempts(u.peers, u.cfg.rank);
    var act := FirstActive(u.peers);
    if act.Some? {
      assert Some(act.value) in u.peers;
    }
  }

  /** p is the best entry of the table, beats own, and asks for the role. */
  ghost predicate Preempts(peers: Table, p: Peer, own: Rank) {
    && Some(p) in peers && Better(p.rank, own) && p.preempt
    && forall q: Peer :: Some(q) in peers ==> !Better(q.rank, p.rank)
  }

  lemma AsksMeansPreempts(peers: Table, own: Rank)
    ensures (Strongest(own, peers) != own && Asks(peers, Strongest(own, peers))) <==>
              exists p: Peer :: Preempts(peers, p, own)
  {
    var best := Strongest(own, peers);
    if best != own && Asks(peers, best) {
      var i :| 0 <= i < |peers| && peers[i].Some? && peers[i].value.rank == best && peers[i].value.preempt;
      assert peers[i] == Some(peers[i].value);
      assert Preempts(peers, peers[i].value, own);
    }
    if p: Peer :| Preempts(peers, p, own) {
      var i :| 0 <= i < |peers| && peers[i] == Some(p);
      if best != own {
        var k :| 0 <= k < |peers| && peers[k].Some? && peers[k].value.rank == best;
        assert Some(peers[k].value) in peers;
      }
      assert p.rank == best;
    }
  }

  // ---- Taking the role over ----

  /** The last holder vanished without a word and nobody has filled its place. */
  predicate Unclean(u: State) {
    Sound(u) && !u.clean && u.activeValid && u.role != Active && u.role != Learn
  }

  /** Took the role over with a release. */
  predicate Released(v: State) {
    v.role == Active && v.ev.release && v.ev.promotedByTimeout
  }

  lemma UncleanStep(u: State, step: Step)
    requires Sound(u) && u.role != Active && u.role != Learn && u.activeValid
    requires if Noted(u, step).Some? then !Noted(u, step).value.clean else !u.clean
    ensures Unclean(Next(u, step)) || Released(Next(u, step))
  {
    hide Judged, Noted, Next, Backup, FirstChoice, Aged, Promoted;
    StepShape(u, step);
    PendingStep(u, step);
    if Noted(u, step).Some? {
      var n := Noted(u, step).value;
      JudgingShape(u, step);
      var s := Surveyed(n, step.now);
      FollowerJudged(s, Backup(FirstChoice(n), s.peers), step.now);
    }
  }

  /** No step reassures, and until the last the role is not taken. */
  predicate Unanswered(u: State, steps: seq<Step>) {
    steps == [] ||
    var v := After(u, steps[..|steps| - 1]);
    Unanswered(u, steps[..|steps| - 1]) && v.role != Active && !Reassures(v, steps[|steps| - 1])
  }

  lemma {:induction false} UncleanUntilReleased(u: State, steps: seq<Step>)
    requires Unclean(u) && Unanswered(u, steps)
    ensures Unclean(After(u, steps)) || Released(After(u, steps))
  {
    hide Unclean, Released, Next, Reassures;
    if steps != [] {
      var pre, step := steps[..|steps| - 1], steps[|steps| - 1];
      var v := After(u, pre);
      UncleanUntilReleased(u, pre);
      ReleasedHoldsRole(v);
      UncleanUnlessReassured(v, step);
    }
  }

  lemma ReleasedHoldsRole(v: State)
    ensures Released(v) ==> v.role == Active
  {
  }

  lemma UncleanUnlessReassured(u: State, step: Step)
    requires Unclean(u) && !Reassures(u, step)
    ensures Unclean(Next(u, step)) || Released(Next(u, step))
  {
    hide Noted, Next, Reassures;
    if Noted(u, step).Some? {
      NotedShape(u, step);
    }
    UncleanStep(u, step);
  }

  /** If a tick is the first to see the tracked holder of the role vanish, then whoever takes
      the role over, on that tick or later, before another holder speaks up or the tracked
      one resigns, releases every machine and reports a promotion by timeout. */
  lemma TimeoutPromotionReleases(u: State, now: Time, steps: seq<Step>)
    requires Sound(u) && Lost(u, now)
    requires Ticked(u, now).role != Active ==> Unanswered(Ticked(u, now), steps)
    requires Ticked(u, now).role == Active ==> steps == []
    ensures After(Ticked(u, now), steps).role == Active ==> Released(After(Ticked(u, now), steps))
  {
    hide Next, Lost, Evaluated;
    assert Next(u, Tick(now)) == Ticked(u, now) by { TickIsNext(u, now); }
    assert Noted(u, Tick(now)) == Some(u.(clean := u.clean && !Lost(u, now)));
    LostFollows(u, now);
    UncleanStep(u, Tick(now));
    if Ticked(u, now).role != Active {
      UncleanUntilReleased(Ticked(u, now), steps);
    }
  }

  lemma TickIsNext(u: State, now: Time)
    ensures Next(u, Tick(now)) == Ticked(u, now)
  {
    hide Ticked;
  }

  lemma LostFollows(u: State, now: Time)
    requires Sound(u) && Lost(u, now)
    ensures u.role != Active && u.role != Learn && u.active != ADDR_NONE && u.activeValid
  {
    hide Find;
  }

  /** A standby that is the best board left takes over on the very tick that sees the loss. */
  lemma StandbyTakesOverAtOnce(u: State, now: Time)
    requires Sound(u) && u.role == Standby && Lost(u, now)
    requires forall p: Peer :: Some(p) in Aged(u.cfg.timing, u.peers, now) ==>
              p.role != Active && !Better(p.rank, u.cfg.rank)
    ensures Released(Ticked(u, now)) && Ticked(u, now).ev.sendHello && Ticked(u, now).active == u.cfg.addr
  {
    hide Backup, FirstChoice, Aged, Promoted, TimeAfter, Add32, Lost;
    var n := u.(clean := u.clean && !Lost(u, now));
    SurveyShape(n, now);
    var s := Surveyed(n, now);
    NobodyBetter(s);
    LostFollows(u, now);
    assert Evaluated(n, now) == Promoted(s.(active := ADDR_NONE), now, false);
  }

  lemma NobodyBetter(u: State)
    requires forall p: Peer :: Some(p) in u.peers ==> p.role != Active && !Better(p.rank, u.cfg.rank)
    ensures FirstActive(u.peers).None? && Strongest(u.cfg.rank, u.peers) == u.cfg.rank
  {
    forall i | 0 <= i < |u.peers| && u.peers[i].Some?
      ensures u.peers[i].value.role != Active && !Better(u.peers[i].value.rank, u.cfg.rank)
    {
      assert Some(u.peers[i].value) in u.peers;
    }
  }

  /** A vacancy its last holder left in good order. */
  predicate LeftClean(u: State) {
    Sound(u) && u.clean && u.role != Active && u.active == ADDR_NONE
  }

  /** Step after step, the vacancy stays open. */
  predicate StaysOpen(u: State, steps: seq<Step>) {
    steps == [] ||
    var v := After(u, steps[..|steps| - 1]);
    StaysOpen(u, steps[..|steps| - 1]) && v.role != Active && v.active == ADDR_NONE
  }

  lemma LeftCleanStep(u: State, step: Step)
    requires Sound(u) && u.role != Active
    requires if Noted(u, step).Some? then Noted(u, step).value.clean else LeftClean(u)
    ensures var v := Next(u, step);
            && (v.role != Active && v.active == ADDR_NONE ==> LeftClean(v))
            && (v.role == Active ==> v.ev.release == u.ev.release && v.ev.promotedByTimeout == u.ev.promotedByTimeout)
  {
    hide Judged, Noted, Next, Backup, FirstChoice, Aged, Promoted;
    StepShape(u, step);
    PendingStep(u, step);
    if Noted(u, step).Some? {
      var n := Noted(u, step).value;
      NotedShape(u, step);
      JudgingShape(u, step);
      var s := Surveyed(n, step.now);
      FollowerJudged(s, Backup(FirstChoice(n), s.peers), step.now);
    }
  }

  lemma StaysClean(u: State, step: Step)
    requires LeftClean(u)
    ensures Noted(u, step).Some? ==> Noted(u, step).value.clean
  {
    hide Find, Place;
  }

  lemma {:induction false} OpenStaysClean(u: State, steps: seq<Step>)
    requires LeftClean(u) && StaysOpen(u, steps)
    requires After(u, steps).role != Active && After(u, steps).active == ADDR_NONE
    ensures LeftClean(After(u, steps))
  {
    hide Next, LeftClean, Noted;
    if steps != [] {
      var pre, step := steps[..|steps| - 1], steps[|steps| - 1];
      OpenStaysClean(u, pre);
      CleanStep(After(u, pre), step);
    }
  }

  lemma CleanStep(u: State, step: Step)
    requires LeftClean(u)
    ensures var v := Next(u, step);
            && (v.role != Active && v.active == ADDR_NONE ==> LeftClean(v))
            && (v.role == Active ==> v.ev.release == u.ev.release && v.ev.promotedByTimeout == u.ev.promotedByTimeout)
  {
    hide Next, Noted;
    StaysClean(u, step);
    LeftCleanStep(u, step);
  }

  /** After the tracked holder resigned, the promotion that fills its vacancy, on that step or
      on any later one, asks for no release. */
  lemma CleanHandoverReleasesNothing(u: State, now: Time, steps: seq<Step>)
    requires Sound(u) && u.role != Active
    requires steps != [] ==> StaysOpen(ResignHeard(u, u.active, now), steps)
    ensures var v := ResignHeard(u, u.active, now);
            && (v.role == Active ==> v.ev.release == u.ev.release && v.ev.promotedByTimeout == u.ev.promotedByTimeout)
            && (steps != [] && After(v, steps).role == Active ==>
                  var w := After(v, steps[..|steps| - 1]);
                  && After(v, steps).ev.release == w.ev.release
                  && After(v, steps).ev.promotedByTimeout == w.ev.promotedByTimeout)
  {
    hide Next, Evaluated, LeftClean;
    var step := HearResign(u.active, now);
    ResignIsNext(u, u.active, now);
    LeftCleanStep(u, step);
    if steps != [] {
      var v, pre := ResignHeard(u, u.active, now), steps[..|steps| - 1];
      OpenFromStart(v, steps);
      OpenStaysClean(v, pre);
      CleanStep(After(v, pre), steps[|steps| - 1]);
    }
  }

  lemma ResignIsNext(u: State, src: Addr, now: Time)
    ensures Next(u, HearResign(src, now)) == ResignHeard(u, src, now)
  {
    hide ResignHeard;
  }

  lemma {:induction false} OpenFromStart(u: State, steps: seq<Step>)
    requires steps != [] && StaysOpen(u, steps)
    ensures u.role != Active && u.active == ADDR_NONE
  {
    hide Next;
    if |steps| > 1 {
      OpenFromStart(u, steps[..|steps| - 1]);
    }
  }

  /** At the step that notices the loss of the tracked holder, this is what makes the vacancy
      unclean: a tick noticed, or an earlier loss is still unanswered. */
  predicate LeavesUnclean(u: State, step: Step) {
    step.Tick? || (!u.clean && !Reassures(u, step))
  }

  lemma NotedClean(u: State, step: Step)
    requires Noted(u, step).Some? && Lost(u, step.now)
    ensures Noted(u, step).value.clean <==> !LeavesUnclean(u, step)
  {
    hide Place, Find, Lost;
  }

  /** The step that notices, when it does not fill the vacancy itself, leaves it as it is. */
  lemma LossNoticed(u: State, step: Step)
    requires Sound(u) && Timed(step) && Lost(u, step.now) && Noted(u, step).Some?
    ensures LeavesUnclean(u, step) ==> Unclean(Next(u, step)) || Released(Next(u, step))
    ensures !LeavesUnclean(u, step) ==>
              var v := Next(u, step);
              && (v.role != Active && v.active == ADDR_NONE ==> LeftClean(v))
              && (v.role == Active ==> v.ev.release == u.ev.release)
  {
    hide Next, Lost, Noted, LeavesUnclean, Unclean, Released, LeftClean;
    LostFollows(u, step.now);
    NotedClean(u, step);
    if LeavesUnclean(u, step) {
      UncleanStep(u, step);
    } else {
      LeftCleanStep(u, step);
    }
  }

  /** The board as it was before the step that promoted it. */
  function BeforePromotion(u: State, step: Step, steps: seq<Step>): State {
    if steps == [] then u else After(Next(u, step), steps[..|steps| - 1])
  }

  /** The step notices the loss; if it does not fill the vacancy at once, the vacancy stays
      open and unanswered until the last of `steps` does. */
  predicate FilledAfter(u: State, step: Step, steps: seq<Step>) {
    var v := Next(u, step);
    && (v.role == Active ==> steps == [])
    && (v.role != Active ==> steps != [] && StaysOpen(v, steps) && Unanswered(v, steps))
    && After(v, steps).role == Active
  }

  /** Exactly when a failover releases: whether the vacancy is filled on the step that notices
      the loss or any number of steps later, the promotion asks for a release if and only if
      that step was a tick, or an earlier loss was still unanswered and this step did not
      answer it. */
  lemma FailoverReleasesIff(u: State, step: Step, steps: seq<Step>)
    requires Sound(u) && Timed(step) && Lost(u, step.now) && FilledAfter(u, step, steps)
    requires !BeforePromotion(u, step, steps).ev.release
    ensures After(Next(u, step), steps).ev.release <==> LeavesUnclean(u, step)
  {
    hide Next, Lost, Noted, LeavesUnclean, Unclean, LeftClean, StaysOpen, Unanswered;
    LostFollows(u, step.now);
    var v := Next(u, step);
    if Noted(u, step).None? {
      TimedOther(u, step);
      OpenFromStart(v, steps);
    } else {
      LossNoticed(u, step);
      if steps != [] {
        var pre := steps[..|steps| - 1];
        OpenFromStart(v, steps);
        if LeavesUnclean(u, step) {
          UncleanUntilReleased(v, steps);
          UncleanFollows(After(v, steps));
        } else {
          OpenBeforeLast(v, steps);
          OpenStaysClean(v, pre);
          CleanStep(After(v, pre), steps[|steps| - 1]);
        }
      } else {
        UncleanFollows(v);
      }
    }
  }

  lemma UncleanFollows(u: State)
    ensures Unclean(u) ==> u.role != Active
  {
  }

  lemma OpenBeforeLast(u: State, steps: seq<Step>)
    requires steps != [] && StaysOpen(u, steps)
    ensures var v := After(u, steps[..|steps| - 1]);
            StaysOpen(u, steps[..|steps| - 1]) && v.role != Active && v.active == ADDR_NONE
  {
    hide Next;
  }

  /** Only noting changes whether the vacancy counts as clean. */
  lemma CleanIsNoted(u: State, step: Step)
    requires Sound(u)
    ensures Next(u, step).clean == if Noted(u, step).Some? then Noted(u, step).value.clean else u.clean
  {
    hide Judged, MustYield, Noted, Next, Backup, FirstChoice, Aged, Promoted;
    StepShape(u, step);
    if Noted(u, step).Some? {
      var n := Noted(u, step).value;
      NotedShape(u, step);
      JudgingShape(u, step);
      var s, b := Surveyed(n, step.now), Backup(FirstChoice(n), Surveyed(n, step.now).peers);
      if u.role == Active {
        HolderJudged(s, b, step.now);
      } else {
        FollowerJudged(s, b, step.now);
      }
    }
  }

  /** The step is taken in and answers the loss. */
  predicate Answers(u: State, step: Step) {
    Noted(u, step).Some? && Reassures(u, step)
  }

  lemma NotedUnclean(u: State, step: Step)
    requires Noted(u, step).Some?
    ensures !Noted(u, step).value.clean <==> (step.Tick? && Lost(u, step.now)) || (!u.clean && !Reassures(u, step))
  {
    hide Place, Find, Lost;
  }

  /** Step j was a tick that saw a loss, and no step since has answered it. */
  predicate LostAt(u: State, steps: seq<Step>, j: nat) {
    && j < |steps| && steps[j].Tick? && Lost(After(u, steps[..j]), steps[j].now)
    && forall k :: j < k < |steps| ==> !Answers(After(u, steps[..k]), steps[k])
  }

  /** An earlier loss: in every run a vacancy is unclean if and only if some tick saw a tracked
      holder vanish and nothing has answered that since. */
  lemma {:induction false} UncleanIffLost(u: State, steps: seq<Step>)
    requires Sound(u) && !u.resignPending && u.clean
    ensures !After(u, steps).clean <==> exists j: nat :: LostAt(u, steps, j)
  {
    hide Next, Lost, Noted, Reassures;
    if steps != [] {
      var pre, step := steps[..|steps| - 1], steps[|steps| - 1];
      var v := After(u, pre);
      AlwaysPending(u, pre);
      CleanIsNoted(v, step);
      UncleanIffLost(u, pre);
      if Noted(v, step).Some? {
        NotedUnclean(v, step);
      }
      if step.Tick? {
        TickIsNoted(v, step);
      }
      LostCarries(u, steps);
    }
  }

  lemma TickIsNoted(u: State, step: Step)
    requires Sound(u) && step.Tick?
    ensures Noted(u, step).Some? && !Reassures(u, step)
  {
    hide Lost;
  }

  /** The last step is the loss itself, or an earlier loss it did not answer. */
  lemma LostCarries(u: State, steps: seq<Step>)
    requires steps != []
    ensures var pre, step := steps[..|steps| - 1], steps[|steps| - 1];
            var v := After(u, pre);
            (exists j: nat :: LostAt(u, steps, j)) <==>
              (step.Tick? && Lost(v, step.now)) || ((exists j: nat :: LostAt(u, pre, j)) && !Answers(v, step))
  {
    hide After, Lost, Answers;
    var n := |steps| - 1;
    var pre := steps[..n];
    assert forall k :: 0 <= k <= n ==> pre[..k] == steps[..k];
    if j: nat :| LostAt(u, steps, j) && j < n {
      assert LostAt(u, pre, j);
    }
    if steps[n].Tick? && Lost(After(u, pre), steps[n].now) {
      assert LostAt(u, steps, n);
    }
    if (exists j: nat :: LostAt(u, pre, j)) && !Answers(After(u, pre), steps[n]) {
      var j: nat :| LostAt(u, pre, j);
      assert LostAt(u, steps, j);
    }
  }

  /** The whole family in which the release is missed: any third board's hello that comes
      after the hold time but before the tick makes the standby take over without one. */
  lemma HelloHidesTheLoss(u: State, src: Addr, h: Hello, now: Time)
    requires Sound(u) && u.role == Standby && u.clean && Lost(u, now)
    requires src != u.cfg.addr && Place(u.peers, src).Some?
    requires var peers := u.peers[Place(u.peers, src).value := Some(HeardFrom(src, h, now))];
             forall p: Peer :: Some(p) in Aged(u.cfg.timing, peers, now) ==>
               p.role != Active && !Better(p.rank, u.cfg.rank)
    ensures var v := HelloHeard(u, src, h, now);
            v.role == Active && v.ev.release == u.ev.release && v.ev.promotedByTimeout == u.ev.promotedByTimeout
  {
    hide Backup, FirstChoice, Aged, Promoted, TimeAfter, Add32, Lost, Place;
    var n := HelloNoted(u, Place(u.peers, src).value, src, h, now);
    SurveyShape(n, now);
    var s := Surveyed(n, now);
    NobodyBetter(s);
    assert Evaluated(n, now) == Promoted(s.(active := ADDR_NONE), now, true);
  }

  /** Every run is sound. */
  lemma RunIsSound(cfg: Config, start: Time, steps: seq<Step>)
    ensures Sound(Run(cfg, start, steps))
  {
    AlwaysPending(Started(Initial(cfg), start), steps);
  }

  const OWN := Config(2, Rank(100, 2), {}, false, DEFAULT_TIMING)
  const HOLDER := Hello(Active, Rank(200, 1), false, false, {})
  const THIRD := Hello(Listen, Rank(50, 3), false, false, {})
  const EMPTY: Table := seq(MAX_BOARDS, _ => None)
  const JOINED := EMPTY[0 := Some(HeardFrom(1, HOLDER, 1000))]

  lemma JoinedTable()
    ensures Place(EMPTY, 1) == Some(0) && Aged(DEFAULT_TIMING, JOINED, 1000) == JOINED
    ensures FirstActive(JOINED) == JOINED[0]
    ensures forall c: Choice :: Backup(c, JOINED) == c
  {
    assert Aged(DEFAULT_TIMING, JOINED, 1000) == JOINED;
  }

  /** A board that starts and hears the holder stands by. */
  lemma ExampleJoins()
    ensures var u := HelloHeard(Started(Initial(OWN), 1000), 1, HOLDER, 1000);
            && u.role == Standby && u.active == 1 && u.peers == JOINED && u.cfg == OWN && Sound(u)
            && u.clean && !u.ev.release
  {
    hide Aged, FirstActive, Backup, Place, TimeAfter, Add32;
    JoinedTable();
    var u0 := Started(Initial(OWN), 1000);
    assert u0.peers == EMPTY && u0.cfg == OWN;
    var n := HelloNoted(u0, 0, 1, HOLDER, 1000);
    assert Surveyed(n, 1000).peers == JOINED;
  }

  lemma LostTable(u: State)
    requires u.role == Standby && u.active == 1 && u.peers == JOINED && u.cfg == OWN
    ensures Lost(u, 1150) && Place(u.peers, 3) == Some(1)
    ensures forall p: Peer :: Some(p) in Aged(DEFAULT_TIMING, JOINED[1 := Some(HeardFrom(3, THIRD, 1150))], 1150)
              ==> p.role != Active && !Better(p.rank, OWN.rank)
  {
    var peers := JOINED[1 := Some(HeardFrom(3, THIRD, 1150))];
    assert Find(JOINED, 1) == Some(0);
    assert FirstFree(JOINED) == Some(1) by {
      assert FirstFree(JOINED[1..]) == Some(0);
    }
    forall p: Peer | Some(p) in Aged(DEFAULT_TIMING, peers, 1150) ensures p == HeardFrom(3, THIRD, 1150) {
      var i :| 0 <= i < |peers| && Aged(DEFAULT_TIMING, peers, 1150)[i] == Some(p);
      assert i == 1;
    }
  }

  /** The family is not empty: the holder falls silent at 1000 ms, a third board speaks at
      1150 ms, and the standby takes over without releasing anything. */
  lemma ExampleMissesRelease()
    ensures var u := HelloHeard(Started(Initial(OWN), 1000), 1, HOLDER, 1000);
            var v := HelloHeard(u, 3, THIRD, 1150);
            Lost(u, 1150) && v.role == Active && !v.ev.release
  {
    hide HelloHeard, Lost, Aged, Place, Sound;
    ExampleJoins();
    var u := HelloHeard(Started(Initial(OWN), 1000), 1, HOLDER, 1000);
    LostTable(u);
    HelloHidesTheLoss(u, 3, THIRD, 1150);
  }
}
