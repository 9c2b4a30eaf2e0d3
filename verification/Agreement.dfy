/** Two genuine boards pairing over a channel that loses, repeats and reorders: whatever
    happens, they never end up with different keys. */
module Agreement {
  import opened Types
  import opened Pairing

  datatype Side = Left | Right

  function Other(w: Side): Side {
    if w == Left then Right else Left
  }

  /** Sent messages stay available for ever, to either board, so that they may be lost,
      repeated, reordered and echoed. The secrets are history: what each board began with. */
  datatype Net = Net(left: State, right: State, sent: set<Message>, leftSecret: Blob, rightSecret: Blob)

  function At(n: Net, w: Side): State {
    if w == Left then n.left else n.right
  }

  function Secret(n: Net, w: Side): Blob {
    if w == Left then n.leftSecret else n.rightSecret
  }

  function Put(n: Net, w: Side, s: State): Net {
    if w == Left then n.(left := s) else n.(right := s)
  }

  function Remember(n: Net, w: Side, secret: Blob): Net {
    if w == Left then n.(leftSecret := secret) else n.(rightSecret := secret)
  }

  datatype Step =
    | Begin(who: Side, now: Time, window: U16, secret: Blob, nonce: Blob)
    | Deliver(who: Side, m: Message, now: Time)
    | Tick(who: Side, now: Time)
    | Drain(who: Side)

  function Sending(c: Crypto, s: State): set<Message> {
    set m | m in Outbox(c, s)
  }

  /** Each board begins once. */
  function Next(c: Crypto, n: Net, step: Step): Net {
    var s := At(n, step.who);
    match step
    case Begin(w, now, window, secret, nonce) =>
      if s.phase == Idle then Remember(Put(n, w, Begun(c, s, now, window, secret, nonce)), w, secret) else n
    case Deliver(w, m, now) => if m in n.sent then Put(n, w, Received(c, s, m, now)) else n
    case Tick(w, now) => Put(n, w, Ticked(s, now))
    case Drain(w) => Put(n, w, Drained(s)).(sent := n.sent + Sending(c, s))
  }

  function Start(left: Uid, right: Uid): Net {
    Net(Initial(left), Initial(right), {}, NO_SECRET, NO_SECRET)
  }

  /** The caller sends a waiting confirmation before anything aborts the exchange. */
  predicate Prompt(n: Net, step: Step) {
    step.Drain? ==> !(At(n, step.who).phase == Aborted && At(n, step.who).ev.confirm)
  }

  // ---- The invariant ----

  /** The confirmation of the board that began with `secret`. */
  function Genuine(c: Crypto, secret: Blob, own: Party, peer: Party): Option<Blob> {
    var shared := c.shared(secret, peer.public);
    if shared.None? then None else Some(c.derive(shared.value, Confirmation(own.uid), Exchange(own, peer)))
  }

  predicate Agreed(c: Crypto, s: State, secret: Blob, peer: Party) {
    var shared := c.shared(secret, peer.public);
    && shared.Some?
    && var t := Exchange(Own(s), peer);
       && s.key == c.derive(shared.value, ChainKey, t) && s.sas == c.derive(shared.value, ShortString, t)
       && s.expected == c.derive(shared.value, Confirmation(peer.uid), t)
  }

  /** One board's state, given what it began with and what the other one offers. */
  predicate Good(c: Crypto, s: State, secret: Blob, other: State) {
    && (s.phase == Idle ==> s == Initial(s.uid))
    && (s.phase != Idle ==> s.public == c.public(secret))
    && (s.phase != Idle && s.phase != Aborted ==> s.secret == secret)
    && (s.phase == Aborted ==> s.secret == NO_SECRET && s.key == NO_KEY)
    && (s.phase == Waiting ==> s.peer.None? && !s.ev.confirm)
    && (s.peer.Some? ==> other.phase != Idle && s.peer.value == Own(other))
    && (s.phase == ConfirmWait || s.phase == Done ==> s.peer.Some? && Agreed(c, s, secret, Own(other)))
    && (s.reason == BadConfirm ==> s.phase == Aborted)
  }

  /** A confirmation carries the tag of the secret its board began with, or, if that board has
      aborted meanwhile, the tag that zeros make. */
  predicate TagOk(c: Crypto, tag: Blob, s: State, secret: Blob, other: State) {
    || Genuine(c, secret, Own(s), Own(other)) == Some(tag)
    || (s.phase == Aborted && Genuine(c, NO_SECRET, Own(s), Own(other)) == Some(tag))
  }

  predicate MessageOk(c: Crypto, m: Message, s: State, secret: Blob, other: State) {
    match m
    case Offer(p) => s.phase != Idle && p == Own(s)
    case Confirm(uid, tag) => s.phase != Idle && other.phase != Idle && uid == s.uid && TagOk(c, tag, s, secret, other)
    case Refuse(why) => true
    case _ => false
  }

  ghost predicate Invariant(c: Crypto, n: Net) {
    && n.left.uid != n.right.uid
    && Good(c, n.left, n.leftSecret, n.right) && Good(c, n.right, n.rightSecret, n.left)
    && forall m :: m in n.sent ==>
         MessageOk(c, m, n.left, n.leftSecret, n.right) || MessageOk(c, m, n.right, n.rightSecret, n.left)
  }

  lemma ExchangeIsCommon(p: Party, q: Party)
    requires p.uid != q.uid
    ensures Exchange(p, q) == Exchange(q, p)
  {
  }

  /** The confirmation one board expects is the one the other sends. */
  lemma ExpectedIsGenuine(c: Crypto, s: State, secret: Blob, other: State, otherSecret: Blob)
    requires Symmetric(c) && s.uid != other.uid
    requires s.public == c.public(secret) && other.public == c.public(otherSecret)
    requires Agreed(c, s, secret, Own(other))
    ensures Genuine(c, otherSecret, Own(other), Own(s)) == Some(s.expected)
  {
    ExchangeIsCommon(Own(s), Own(other));
    assert c.shared(secret, other.public) == c.shared(otherSecret, s.public);
  }

  /** The other board's view only depends on what this one offers, whether it has begun and
      whether it has aborted. */
  predicate SameOffer(s: State, s': State) {
    && Own(s') == Own(s) && (s'.phase == Idle <==> s.phase == Idle)
    && (s.phase == Aborted ==> s'.phase == Aborted)
  }

  /** A message of the other board, or an echo, leaves the board good. */
  lemma ReceiveKeeps(c: Crypto, s: State, secret: Blob, other: State, otherSecret: Blob, m: Message, now: Time)
    requires Symmetric(c) && s.uid != other.uid
    requires Good(c, s, secret, other) && Good(c, other, otherSecret, s)
    requires MessageOk(c, m, s, secret, other) || MessageOk(c, m, other, otherSecret, s)
    ensures Good(c, Received(c, s, m, now), secret, other) && SameOffer(s, Received(c, s, m, now))
  {
    hide TimeAfter, Add32, TagOk, Symmetric, Zeros;
  }

  lemma OtherStaysGood(c: Crypto, s: State, secret: Blob, other: State, other': State)
    requires Good(c, s, secret, other) && SameOffer(other, other')
    ensures Good(c, s, secret, other')
  {
  }

  lemma MessageStaysOk(c: Crypto, m: Message, s: State, secret: Blob, other: State, s': State, other': State)
    requires MessageOk(c, m, s, secret, other) && SameOffer(s, s') && SameOffer(other, other')
    ensures MessageOk(c, m, s', secret, other')
  {
  }

  /** Replacing one board by a good one with the same offer. */
  lemma PutKeeps(c: Crypto, n: Net, w: Side, s: State)
    requires Invariant(c, n) && Good(c, s, Secret(n, w), At(n, Other(w))) && SameOffer(At(n, w), s)
    ensures Invariant(c, Put(n, w, s))
  {
    hide Good, MessageOk;
    var n' := Put(n, w, s);
    OtherStaysGood(c, At(n, Other(w)), Secret(n, Other(w)), At(n, w), s);
    forall m | m in n.sent
      ensures MessageOk(c, m, n'.left, n.leftSecret, n'.right) || MessageOk(c, m, n'.right, n.rightSecret, n'.left)
    {
      if MessageOk(c, m, n.left, n.leftSecret, n.right) {
        MessageStaysOk(c, m, n.left, n.leftSecret, n.right, n'.left, n'.right);
      } else {
        MessageStaysOk(c, m, n.right, n.rightSecret, n.left, n'.right, n'.left);
      }
    }
  }

  lemma TickGood(c: Crypto, s: State, secret: Blob, other: State, now: Time)
    requires Good(c, s, secret, other)
    ensures Good(c, Ticked(s, now), secret, other) && SameOffer(s, Ticked(s, now))
  {
    hide WindowOpen, Agreed;
  }

  lemma DrainGood(c: Crypto, s: State, secret: Blob, other: State)
    requires Good(c, s, secret, other)
    ensures Good(c, Drained(s), secret, other) && SameOffer(s, Drained(s))
    ensures forall m :: m in Sending(c, s) ==> MessageOk(c, m, s, secret, other)
    ensures !(s.phase == Aborted && s.ev.confirm) ==>
              forall m :: m in Sending(c, s) && m.Confirm? ==> Genuine(c, secret, Own(s), Own(other)) == Some(m.tag)
  {
  }

  lemma BeginGood(c: Crypto, s: State, other: State, now: Time, window: U16, secret: Blob, nonce: Blob)
    requires s.phase == Idle
    ensures Good(c, Begun(c, s, now, window, secret, nonce), secret, other)
  {
    hide Zeros;
  }

  /** Beginning spoils nothing the other board holds or has sent. */
  lemma BeginKeeps(c: Crypto, n: Net, w: Side, s: State, secret: Blob)
    requires Invariant(c, n) && At(n, w).phase == Idle && s.phase != Idle && s.uid == At(n, w).uid
    requires Good(c, s, secret, At(n, Other(w)))
    ensures Invariant(c, Remember(Put(n, w, s), w, secret))
  {
    hide Agreed, Zeros, Genuine;
  }

  lemma SentKeeps(c: Crypto, n: Net, w: Side, ms: set<Message>)
    requires Invariant(c, n)
    requires forall m :: m in ms ==> MessageOk(c, m, At(n, w), Secret(n, w), At(n, Other(w)))
    ensures Invariant(c, n.(sent := n.sent + ms))
  {
    hide Good, MessageOk;
  }

  lemma NextKeeps(c: Crypto, n: Net, step: Step)
    requires Symmetric(c) && Invariant(c, n)
    ensures Invariant(c, Next(c, n, step))
  {
    hide Symmetric, Good, MessageOk, Received, Ticked, Begun, Drained, Sending;
    var w := step.who;
    var s, t := At(n, w), At(n, Other(w));
    match step
    case Begin(_, now, window, secret, nonce) =>
      if s.phase == Idle {
        BeginGood(c, s, t, now, window, secret, nonce);
        BegunShape(c, s, now, window, secret, nonce);
        BeginKeeps(c, n, w, Begun(c, s, now, window, secret, nonce), secret);
      }
    case Deliver(_, m, now) =>
      if m in n.sent {
        ReceiveKeeps(c, s, Secret(n, w), t, Secret(n, Other(w)), m, now);
        PutKeeps(c, n, w, Received(c, s, m, now));
      }
    case Tick(_, now) =>
      TickGood(c, s, Secret(n, w), t, now);
      PutKeeps(c, n, w, Ticked(s, now));
    case Drain(_) =>
      DrainGood(c, s, Secret(n, w), t);
      SentKeeps(c, n, w, Sending(c, s));
      PutKeeps(c, n.(sent := n.sent + Sending(c, s)), w, Drained(s));
  }

  lemma BegunShape(c: Crypto, s: State, now: Time, window: U16, secret: Blob, nonce: Blob)
    ensures var b := Begun(c, s, now, window, secret, nonce); b.phase != Idle && b.uid == s.uid
  {
    hide Zeros;
  }

  // ---- Runs ----

  function After(c: Crypto, n: Net, steps: seq<Step>): Net {
    if steps == [] then n else Next(c, After(c, n, steps[..|steps| - 1]), steps[|steps| - 1])
  }

  lemma StartIsGood(c: Crypto, left: Uid, right: Uid)
    requires left != right
    ensures Invariant(c, Start(left, right))
  {
    hide Zeros;
  }

  lemma {:induction false} RunKeeps(c: Crypto, left: Uid, right: Uid, steps: seq<Step>)
    requires Symmetric(c) && left != right
    ensures Invariant(c, After(c, Start(left, right), steps))
  {
    hide Symmetric, Invariant, Next;
    if steps == [] {
      StartIsGood(c, left, right);
    } else {
      RunKeeps(c, left, right, steps[..|steps| - 1]);
      NextKeeps(c, After(c, Start(left, right), steps[..|steps| - 1]), steps[|steps| - 1]);
    }
  }

  /** In every run, whatever is lost, repeated, reordered or sent late: two boards that have
      heard each other hold the same chain key and show the same string, in particular when
      both are done, and a board that has aborted holds no key. */
  lemma PairedBoardsAgree(c: Crypto, left: Uid, right: Uid, steps: seq<Step>)
    requires Symmetric(c) && left != right
    ensures var n := After(c, Start(left, right), steps);
            && (n.left.phase in {ConfirmWait, Done} && n.right.phase in {ConfirmWait, Done} ==>
                  n.left.key == n.right.key && n.left.sas == n.right.sas)
            && (n.left.phase == Aborted ==> n.left.key == NO_KEY)
            && (n.right.phase == Aborted ==> n.right.key == NO_KEY)
  {
    hide Zeros, TagOk;
    RunKeeps(c, left, right, steps);
    var n := After(c, Start(left, right), steps);
    ExchangeIsCommon(Own(n.left), Own(n.right));
    assert c.shared(n.leftSecret, c.public(n.rightSecret)) == c.shared(n.rightSecret, c.public(n.leftSecret));
  }

  // ---- When a genuine board's confirmation is called bad ----

  /** The genuine tag of the board on side w, and the one that zeros make in its place. */
  function Due(c: Crypto, n: Net, w: Side): Option<Blob> {
    Genuine(c, Secret(n, w), Own(At(n, w)), Own(At(n, Other(w))))
  }

  function Zeroed(c: Crypto, n: Net, w: Side): Option<Blob> {
    Genuine(c, NO_SECRET, Own(At(n, w)), Own(At(n, Other(w))))
  }

  /** The step hands board w, while it has a peer, a tag its peer sent after it had aborted and
      which is not the genuine one. */
  predicate Spoils(c: Crypto, n: Net, step: Step, w: Side) {
    && step.Deliver? && step.who == w && step.m in n.sent && step.m.Confirm? && step.m.uid == At(n, Other(w)).uid
    && At(n, w).phase in {ConfirmWait, Done} && At(n, Other(w)).phase == Aborted
    && Zeroed(c, n, Other(w)) == Some(step.m.tag) && Zeroed(c, n, Other(w)) != Due(c, n, Other(w))
  }

  /** What a confirmation does to a board that expects one. */
  lemma ConfirmJudged(c: Crypto, s: State, secret: Blob, other: State, otherSecret: Blob, m: Message, now: Time)
    requires Symmetric(c) && s.uid != other.uid
    requires Good(c, s, secret, other) && Good(c, other, otherSecret, s) && s.reason != BadConfirm
    requires MessageOk(c, m, s, secret, other) || MessageOk(c, m, other, otherSecret, s)
    ensures Received(c, s, m, now).reason == BadConfirm <==>
              && m.Confirm? && m.uid == other.uid && s.phase in {ConfirmWait, Done}
              && Genuine(c, otherSecret, Own(other), Own(s)) != Some(m.tag)
  {
    hide TimeAfter, Add32, Zeros;
    if m.Confirm? && m.uid == other.uid && s.phase in {ConfirmWait, Done} {
      ExpectedIsGenuine(c, s, secret, other, otherSecret);
    }
  }

  /** One step makes a board call its peer's confirmation bad if and only if it spoils it. */
  lemma SpoiledStep(c: Crypto, n: Net, step: Step, w: Side)
    requires Symmetric(c) && Invariant(c, n)
    ensures At(Next(c, n, step), w).reason == BadConfirm <==>
              At(n, w).reason == BadConfirm || Spoils(c, n, step, w)
  {
    var s, t := At(n, w), At(n, Other(w));
    if step.who == w && step.Deliver? && step.m in n.sent && s.reason != BadConfirm {
      hide Zeros, Symmetric, Agreed;
      ConfirmJudged(c, s, Secret(n, w), t, Secret(n, Other(w)), step.m, step.now);
      if step.m.Confirm? && step.m.uid == t.uid {
        TagsOf(c, n, w, step.m);
      }
    } else {
      hide Symmetric, Agreed, Genuine, TagOk, WindowOpen, Zeros, MessageOk;
    }
  }

  lemma TagsOf(c: Crypto, n: Net, w: Side, m: Message)
    requires Invariant(c, n) && m in n.sent && m.Confirm? && m.uid == At(n, Other(w)).uid
    ensures || Due(c, n, Other(w)) == Some(m.tag)
            || (At(n, Other(w)).phase == Aborted && Zeroed(c, n, Other(w)) == Some(m.tag))
  {
    hide Good, Genuine;
  }

  /** Step j spoils board w's pairing. */
  predicate SpoiledAt(c: Crypto, n: Net, steps: seq<Step>, j: nat, w: Side) {
    j < |steps| && Spoils(c, After(c, n, steps[..j]), steps[j], w)
  }

  /** Exactly when: over every run of two genuine boards, one of them ends with a bad
      confirmation if and only if it was once handed a tag that its peer had sent only after
      aborting, and zeros in place of the peer's secret make another tag. */
  lemma {:induction false} BadConfirmIffSpoiled(c: Crypto, left: Uid, right: Uid, steps: seq<Step>, w: Side)
    requires Symmetric(c) && left != right
    ensures At(After(c, Start(left, right), steps), w).reason == BadConfirm <==>
              exists j: nat :: SpoiledAt(c, Start(left, right), steps, j, w)
  {
    hide Symmetric, Invariant, Next, Spoils;
    var n0 := Start(left, right);
    if steps != [] {
      var k := |steps| - 1;
      var pre := steps[..k];
      RunKeeps(c, left, right, pre);
      BadConfirmIffSpoiled(c, left, right, pre, w);
      SpoiledStep(c, After(c, n0, pre), steps[k], w);
      assert forall j :: 0 <= j < k ==> pre[..j] == steps[..j] && pre[j] == steps[j];
      if j: nat :| SpoiledAt(c, n0, pre, j, w) {
        assert SpoiledAt(c, n0, steps, j, w);
      }
      if j: nat :| SpoiledAt(c, n0, steps, j, w) && j < k {
        assert SpoiledAt(c, n0, pre, j, w);
      }
      assert Spoils(c, After(c, n0, pre), steps[k], w) ==> SpoiledAt(c, n0, steps, k, w);
    }
  }

  // ---- Promptness ----

  predicate AllPrompt(c: Crypto, n: Net, steps: seq<Step>) {
    forall k :: 0 <= k < |steps| ==> Prompt(After(c, n, steps[..k]), steps[k])
  }

  /** Every confirmation sent is the genuine one of the board it names. */
  ghost predicate AllGenuine(c: Crypto, n: Net) {
    forall m :: m in n.sent && m.Confirm? ==>
      && n.left.phase != Idle && n.right.phase != Idle
      && (m.uid == n.left.uid ==> Due(c, n, Left) == Some(m.tag))
      && (m.uid == n.right.uid ==> Due(c, n, Right) == Some(m.tag))
  }

  lemma PromptKeepsGenuine(c: Crypto, n: Net, step: Step)
    requires Symmetric(c) && Invariant(c, n) && AllGenuine(c, n) && Prompt(n, step)
    ensures AllGenuine(c, Next(c, n, step))
  {
    hide Symmetric, Good, TagOk, Genuine, Received, Ticked, Begun, Drained, Sending;
    var w := step.who;
    var s, t := At(n, w), At(n, Other(w));
    match step
    case Begin(_, _, _, _, _) =>
    case Deliver(_, m, now) =>
      if m in n.sent {
        ReceiveKeeps(c, s, Secret(n, w), t, Secret(n, Other(w)), m, now);
      }
    case Tick(_, now) => TickGood(c, s, Secret(n, w), t, now);
    case Drain(_) => DrainGood(c, s, Secret(n, w), t);
  }

  lemma {:induction false} PromptRunIsGenuine(c: Crypto, left: Uid, right: Uid, steps: seq<Step>)
    requires Symmetric(c) && left != right && AllPrompt(c, Start(left, right), steps)
    ensures AllGenuine(c, After(c, Start(left, right), steps))
  {
    hide Symmetric, Invariant, Next, Prompt, Due;
    if steps != [] {
      var n0, k := Start(left, right), |steps| - 1;
      var pre := steps[..k];
      forall i | 0 <= i < k ensures Prompt(After(c, n0, pre[..i]), pre[i]) {
        assert pre[..i] == steps[..i];
      }
      PromptRunIsGenuine(c, left, right, pre);
      RunKeeps(c, left, right, pre);
      PromptKeepsGenuine(c, After(c, n0, pre), steps[k]);
    }
  }

  lemma GenuineDoesNotSpoil(c: Crypto, n: Net, step: Step, w: Side)
    requires AllGenuine(c, n)
    ensures !Spoils(c, n, step, w)
  {
    hide Due, Zeroed;
  }

  /** If every caller sends a waiting confirmation before anything aborts the exchange, no
      genuine board's confirmation is ever called bad. */
  lemma PromptRunsNeverCallItBad(c: Crypto, left: Uid, right: Uid, steps: seq<Step>, w: Side)
    requires Symmetric(c) && left != right && AllPrompt(c, Start(left, right), steps)
    ensures At(After(c, Start(left, right), steps), w).reason != BadConfirm
  {
    hide Symmetric, Next, After, AllGenuine, Spoils, Prompt;
    var n0 := Start(left, right);
    BadConfirmIffSpoiled(c, left, right, steps, w);
    if j: nat :| SpoiledAt(c, n0, steps, j, w) {
      var pre := steps[..j];
      forall i | 0 <= i < j ensures Prompt(After(c, n0, pre[..i]), pre[i]) {
        assert pre[..i] == steps[..i];
      }
      PromptRunIsGenuine(c, left, right, pre);
      GenuineDoesNotSpoil(c, After(c, n0, pre), steps[j], w);
    }
  }

  /** A confirmation still waiting when the exchange aborts is built from the wiped secret. The
      other board, whether it waits or has finished, calls it bad exactly if zeros in place of
      the secret this board began with make another tag: a finished pairing is then revoked and
      its key wiped. */
  lemma LateConfirmIsRefusedIff(c: Crypto, n: Net, w: Side, now: Time)
    requires Symmetric(c) && Invariant(c, n)
    requires At(n, w).phase == Aborted && At(n, w).ev.confirm && At(n, w).peer.Some?
    requires At(n, Other(w)).phase in {ConfirmWait, Done}
    ensures var late, due := Zeroed(c, n, w), Due(c, n, w);
            && due.Some?
            && (late.Some? ==>
                  var m := Confirm(At(n, w).uid, late.value);
                  var n' := Next(c, Next(c, n, Drain(w)), Deliver(Other(w), m, now));
                  var t := At(n', Other(w));
                  && m in Next(c, n, Drain(w)).sent
                  && (t.reason == BadConfirm && t.phase == Aborted && t.key == NO_KEY <==> late != due)
                  && (t.phase == Done && t.key == At(n, Other(w)).key <==> late == due))
            && (late.None? ==> forall m :: m in Sending(c, At(n, w)) ==> !m.Confirm?)
  {
    hide Zeros, Symmetric, TagOk;
    var s, t := At(n, w), At(n, Other(w));
    ExpectedIsGenuine(c, t, Secret(n, Other(w)), s, Secret(n, w));
    assert ConfirmOf(c, s).Some? ==> ConfirmOf(c, s).value in Outbox(c, s);
  }

  /** Both boards have begun, the left one 50 ms earlier, and sent their offers. */
  function Offered(c: Crypto, sl: Blob, sr: Blob, nl: Blob, nr: Blob): Net {
    var n := Next(c, Next(c, Start(1, 2), Begin(Left, 0, 100, sl, nl)), Begin(Right, 50, 100, sr, nr));
    Next(c, Next(c, n, Drain(Left)), Drain(Right))
  }

  /** Each hears the other's, the left one at the very end of its window, and then a tick. */
  function CutShort(c: Crypto, sl: Blob, sr: Blob, nl: Blob, nr: Blob): Net {
    var l, r := Party(1, c.public(sl), nl), Party(2, c.public(sr), nr);
    var n := Next(c, Offered(c, sl, sr, nl, nr), Deliver(Right, Offer(l), 60));
    Next(c, Next(c, n, Deliver(Left, Offer(r), 99)), Tick(Left, 100))
  }

  lemma OfferedIs(c: Crypto, sl: Blob, sr: Blob, nl: Blob, nr: Blob)
    ensures var n := Offered(c, sl, sr, nl, nr);
            var l, r := Party(1, c.public(sl), nl), Party(2, c.public(sr), nr);
            && n.left == Initial(1).(phase := Waiting, started := 0, window := 100, secret := sl,
                                       public := l.public, nonce := nl)
            && n.right == Initial(2).(phase := Waiting, started := 50, window := 100, secret := sr,
                                        public := r.public, nonce := nr)
            && Offer(l) in n.sent && Offer(r) in n.sent
  {
    hide Zeros;
    var n := Next(c, Next(c, Start(1, 2), Begin(Left, 0, 100, sl, nl)), Begin(Right, 50, 100, sr, nr));
    assert n.left == Begun(c, Initial(1), 0, 100, sl, nl) && n.right == Begun(c, Initial(2), 50, 100, sr, nr);
    assert Offer(Own(n.left)) in Sending(c, n.left) && Offer(Own(n.right)) in Sending(c, n.right);
  }

  lemma CutShortIs(c: Crypto, sl: Blob, sr: Blob, nl: Blob, nr: Blob)
    requires c.shared(sl, c.public(sr)).Some? && c.shared(sr, c.public(sl)).Some?
    ensures var n := CutShort(c, sl, sr, nl, nr);
            var l, r := Party(1, c.public(sl), nl), Party(2, c.public(sr), nr);
            && n.left.phase == Aborted && n.left.reason == Timeout && n.left.ev.confirm
            && n.left.secret == NO_SECRET && Own(n.left) == l && n.left.peer == Some(r)
            && n.right.phase == ConfirmWait && n.right.peer == Some(l)
            && n.right.expected == c.derive(c.shared(sr, l.public).value, Confirmation(1), Exchange(r, l))
  {
    hide Zeros, Offered;
    OfferedIs(c, sl, sr, nl, nr);
    var n := Offered(c, sl, sr, nl, nr);
    var l, r := Party(1, c.public(sl), nl), Party(2, c.public(sr), nr);
    assert Received(c, n.right, Offer(l), 60).phase == ConfirmWait;
    var left := Received(c, n.left, Offer(r), 99);
    assert left.phase == ConfirmWait && left.ev.confirm;
    assert TimeAfter(100, Add32(0, 100));
  }

  /** It does happen: the left board times out with its confirmation unsent, and the right
      board, still open, is then sent a tag made from nothing and calls the pairing bad. */
  lemma LateDrainBreaksPairing(c: Crypto, sl: Blob, sr: Blob, nl: Blob, nr: Blob)
    requires c.shared(sl, c.public(sr)).Some? && c.shared(sr, c.public(sl)).Some?
    requires var l, r := Party(1, c.public(sl), nl), Party(2, c.public(sr), nr);
             var late := Genuine(c, NO_SECRET, l, r);
             late.Some? && late.value != c.derive(c.shared(sr, l.public).value, Confirmation(1), Exchange(r, l))
    ensures var n := CutShort(c, sl, sr, nl, nr);
            ConfirmOf(c, n.left).Some? &&
            var n' := Next(c, Next(c, n, Drain(Left)), Deliver(Right, ConfirmOf(c, n.left).value, 101));
            n'.right.phase == Aborted && n'.right.reason == BadConfirm
  {
    hide Zeros, CutShort;
    CutShortIs(c, sl, sr, nl, nr);
    var n := CutShort(c, sl, sr, nl, nr);
    assert ConfirmOf(c, n.left).value in Sending(c, n.left);
  }

  /** The same two boards, but the right one is done before its repeated offer makes the left
      one ask for another confirmation, just ahead of its time-out. */
  function CutShortAfter(c: Crypto, sl: Blob, sr: Blob, nl: Blob, nr: Blob, tag: Blob): Net {
    var l, r := Party(1, c.public(sl), nl), Party(2, c.public(sr), nr);
    var n := Next(c, Next(c, Offered(c, sl, sr, nl, nr), Deliver(Right, Offer(l), 60)), Deliver(Left, Offer(r), 70));
    var n1 := Next(c, Next(c, n, Drain(Left)), Deliver(Right, Confirm(1, tag), 80));
    Next(c, Next(c, n1, Deliver(Left, Offer(r), 99)), Tick(Left, 100))
  }

  lemma HeardEachOther(c: Crypto, sl: Blob, sr: Blob, nl: Blob, nr: Blob)
    requires Symmetric(c) && c.shared(sl, c.public(sr)).Some?
    ensures var l, r := Party(1, c.public(sl), nl), Party(2, c.public(sr), nr);
            var n := Next(c, Next(c, Offered(c, sl, sr, nl, nr), Deliver(Right, Offer(l), 60)),
                          Deliver(Left, Offer(r), 70));
            && n.left.phase == n.right.phase == ConfirmWait && n.left.peer == Some(r) && n.right.peer == Some(l)
            && n.left.ev.confirm && n.left.started == 0 && n.left.window == 100 && n.left.secret == sl
            && Own(n.left) == l && Own(n.right) == r && Offer(r) in n.sent
            && Genuine(c, sl, l, r) == Some(n.right.expected)
  {
    hide Zeros, Offered, Sending;
    OfferedIs(c, sl, sr, nl, nr);
    var n := Offered(c, sl, sr, nl, nr);
    var l, r := Party(1, c.public(sl), nl), Party(2, c.public(sr), nr);
    assert c.shared(sl, c.public(sr)) == c.shared(sr, c.public(sl));
    ExchangeIsCommon(l, r);
    assert Received(c, n.right, Offer(l), 60).phase == ConfirmWait;
    assert Received(c, n.left, Offer(r), 70).phase == ConfirmWait;
  }

  /** The left board confirms, and that is enough for the right one. */
  lemma RightIsDone(c: Crypto, n: Net, tag: Blob)
    requires n.left.ev.confirm && ConfirmOf(c, n.left) == Some(Confirm(1, tag))
    requires n.right.phase == ConfirmWait && n.right.peer.Some?
    requires n.right.peer.value.uid == 1 && n.right.expected == tag
    ensures var n1 := Next(c, Next(c, n, Drain(Left)), Deliver(Right, Confirm(1, tag), 80));
            && n1.left == Drained(n.left) && n.sent <= n1.sent
            && n1.right == n.right.(phase := Done, ev := n1.right.ev)
  {
    hide ConfirmOf, Zeros;
    assert Confirm(1, tag) in Outbox(c, n.left);
  }

  /** A repeated offer and the end of the window. */
  lemma AskedAgain(c: Crypto, n: Net, r: Party)
    requires n.left.phase == ConfirmWait && n.left.peer == Some(r) && n.left.uid != r.uid && Offer(r) in n.sent
    requires n.left.started == 0 && n.left.window == 100
    ensures var n2 := Next(c, Next(c, n, Deliver(Left, Offer(r), 99)), Tick(Left, 100));
            && n2.left.phase == Aborted && n2.left.ev.confirm && n2.left.secret == NO_SECRET
            && Own(n2.left) == Own(n.left) && n2.left.peer == Some(r) && n2.right == n.right
  {
    hide Zeros, Outbox;
    assert !WindowOpen(n.left, 100);
  }

  lemma CutShortAfterIs(c: Crypto, sl: Blob, sr: Blob, nl: Blob, nr: Blob, tag: Blob)
    requires Symmetric(c) && c.shared(sl, c.public(sr)).Some?
    requires Genuine(c, sl, Party(1, c.public(sl), nl), Party(2, c.public(sr), nr)) == Some(tag)
    ensures var n := CutShortAfter(c, sl, sr, nl, nr, tag);
            && n.left.phase == Aborted && n.left.ev.confirm && n.left.secret == NO_SECRET
            && Own(n.left) == Party(1, c.public(sl), nl) && n.left.peer == Some(Party(2, c.public(sr), nr))
            && n.right.phase == Done && n.right.peer == Some(Party(1, c.public(sl), nl)) && n.right.expected == tag
  {
    HeardEachOther(c, sl, sr, nl, nr);
    hide Zeros, Offered, Symmetric, Genuine, Next, ConfirmOf;
    var l, r := Party(1, c.public(sl), nl), Party(2, c.public(sr), nr);
    var n := Next(c, Next(c, Offered(c, sl, sr, nl, nr), Deliver(Right, Offer(l), 60)), Deliver(Left, Offer(r), 70));
    OwnConfirm(c, n.left, r);
    RightIsDone(c, n, tag);
    AskedAgain(c, Next(c, Next(c, n, Drain(Left)), Deliver(Right, Confirm(1, tag), 80)), r);
  }

  lemma OwnConfirm(c: Crypto, s: State, peer: Party)
    requires s.peer == Some(peer)
    ensures ConfirmOf(c, s) == match Genuine(c, s.secret, Own(s), peer)
                               case Some(tag) => Some(Confirm(s.uid, tag))
                               case None => None
  {
  }

  /** And it can undo what was finished: a right board that is done, with a genuine key, loses
      it to the left board's late confirmation. */
  lemma LateDrainRevokesPairing(c: Crypto, sl: Blob, sr: Blob, nl: Blob, nr: Blob, tag: Blob, zero: Blob)
    requires Symmetric(c) && c.shared(sl, c.public(sr)).Some?
    requires var l, r := Party(1, c.public(sl), nl), Party(2, c.public(sr), nr);
             Genuine(c, sl, l, r) == Some(tag) && Genuine(c, NO_SECRET, l, r) == Some(zero) && zero != tag
    ensures var n := CutShortAfter(c, sl, sr, nl, nr, tag);
            var n' := Next(c, Next(c, n, Drain(Left)), Deliver(Right, Confirm(1, zero), 101));
            && n.right.phase == Done
            && n'.right.phase == Aborted && n'.right.reason == BadConfirm && n'.right.key == NO_KEY
  {
    CutShortAfterIs(c, sl, sr, nl, nr, tag);
    hide Zeros, CutShortAfter, Genuine, Symmetric, Next, ConfirmOf;
    var n := CutShortAfter(c, sl, sr, nl, nr, tag);
    OwnConfirm(c, n.left, Party(2, c.public(sr), nr));
    Revoked(c, n, zero);
  }

  lemma Revoked(c: Crypto, n: Net, zero: Blob)
    requires n.left.ev.confirm && ConfirmOf(c, n.left) == Some(Confirm(1, zero))
    requires n.right.phase == Done && n.right.peer.Some? && n.right.peer.value.uid == 1 && n.right.expected != zero
    ensures var n' := Next(c, Next(c, n, Drain(Left)), Deliver(Right, Confirm(1, zero), 101));
            n'.right.phase == Aborted && n'.right.reason == BadConfirm && n'.right.key == NO_KEY
  {
    hide ConfirmOf, Zeros;
    assert Confirm(1, zero) in Outbox(c, n.left);
  }

  // ---- A third party ----

  datatype Event = Hear(m: Message, at: Time) | Pass(at: Time) | Take

  /** A board's own run between two presses of its button. */
  function React(c: Crypto, s: State, e: Event): State {
    match e
    case Hear(m, now) => Received(c, s, m, now)
    case Pass(now) => Ticked(s, now)
    case Take => Drained(s)
  }

  function Reacting(c: Crypto, s: State, es: seq<Event>): State {
    if es == [] then s else React(c, Reacting(c, s, es[..|es| - 1]), es[|es| - 1])
  }

  predicate Sane(s: State) {
    && s.phase != Idle
    && (s.phase == Waiting ==> s.peer.None?)
    && (s.phase == ConfirmWait || s.phase == Done ==> s.peer.Some?)
    && (s.phase == Aborted ==> s.key == NO_KEY)
  }

  predicate SameWindow(s: State, s': State) {
    s'.uid == s.uid && s'.started == s.started && s'.window == s.window
  }

  /** The board is with this peer, or with nobody any more. */
  predicate Committed(s: State, uid: Uid) {
    Sane(s) && s.phase != Waiting && (s.phase != Aborted ==> s.peer.value.uid == uid)
  }

  lemma ReactKeeps(c: Crypto, s: State, e: Event)
    requires Sane(s)
    ensures var s' := React(c, s, e);
            && Sane(s') && SameWindow(s, s')
            && (s.phase == Aborted ==> s'.phase == Aborted)
            && forall uid :: Committed(s, uid) ==> Committed(s', uid)
  {
    hide WindowOpen, Zeros;
  }

  lemma OfferCommits(c: Crypto, s: State, p: Party, now: Time)
    requires Sane(s) && p.uid != s.uid && WindowOpen(s, now)
    ensures Committed(Received(c, s, Offer(p), now), p.uid)
    ensures forall uid :: Committed(s, uid) && uid != p.uid ==> Received(c, s, Offer(p), now).phase == Aborted
  {
    hide WindowOpen, Zeros;
  }

  lemma {:induction false} ReactingKeeps(c: Crypto, s: State, es: seq<Event>, k: nat)
    requires Sane(s) && k <= |es|
    ensures Sane(Reacting(c, s, es)) && SameWindow(s, Reacting(c, s, es))
    ensures Reacting(c, s, es[..k]).phase == Aborted ==> Reacting(c, s, es).phase == Aborted
    ensures forall uid :: Committed(Reacting(c, s, es[..k]), uid) ==> Committed(Reacting(c, s, es), uid)
  {
    hide React, Sane, Committed;
    if k == |es| {
      assert es[..k] == es;
    }
    if es != [] {
      var pre := es[..|es| - 1];
      ReactingKeeps(c, s, pre, if k < |es| then k else |es| - 1);
      ReactKeeps(c, Reacting(c, s, pre), es[|es| - 1]);
      assert k < |es| ==> pre[..k] == es[..k];
    }
  }

  /** Two different boards offering within the window always end in refusal, whatever else
      happens before, between and after, and no key is left behind until the next begin. */
  lemma SecondOffererForcesAbort(c: Crypto, s: State, es: seq<Event>, i: nat, j: nat, p: Party, q: Party,
                                 now: Time, later: Time)
    requires Sane(s) && i < j < |es| && es[i] == Hear(Offer(p), now) && es[j] == Hear(Offer(q), later)
    requires p.uid != q.uid && p.uid != s.uid && q.uid != s.uid
    requires WindowOpen(s, now) && WindowOpen(s, later)
    ensures Reacting(c, s, es).phase == Aborted && Reacting(c, s, es).key == NO_KEY
  {
    hide React, WindowOpen, Committed, Zeros, Received;
    ReactingKeeps(c, s, es[..i], 0);
    HearOffer(c, s, es, i, p, now);
    ReactingKeeps(c, s, es[..j], i + 1);
    assert es[..j][..i + 1] == es[..i + 1];
    HearOffer(c, s, es, j, q, later);
    ReactingKeeps(c, s, es, j + 1);
  }

  lemma HearOffer(c: Crypto, s: State, es: seq<Event>, i: nat, p: Party, now: Time)
    requires i < |es| && es[i] == Hear(Offer(p), now) && p.uid != s.uid && WindowOpen(s, now) && Sane(s)
    ensures Committed(Reacting(c, s, es[..i + 1]), p.uid)
    ensures forall uid :: Committed(Reacting(c, s, es[..i]), uid) && uid != p.uid ==>
              Reacting(c, s, es[..i + 1]).phase == Aborted
  {
    hide Committed, Received, Sane;
    ReactingKeeps(c, s, es[..i], 0);
    var t := Reacting(c, s, es[..i]);
    assert es[..i + 1][..i] == es[..i];
    OfferCommits(c, t, p, now);
  }
}
