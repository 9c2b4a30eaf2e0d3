/** Trust establishment: two boards whose buttons are held agree on a chain key, or refuse. */
module Pairing {
  import opened Types

  type Uid = U64
  type Blob = seq<Byte>

  function Zeros(n: nat): Blob {
    seq(n, _ => 0)
  }

  const NO_SECRET := Zeros(32)
  const NO_KEY := Zeros(16)

  datatype Party = Party(uid: Uid, public: Blob, nonce: Blob)

  /** Both offers, the smaller uid first. */
  datatype Transcript = Transcript(first: Party, second: Party)

  datatype Purpose = ChainKey | ShortString | Confirmation(whose: Uid)

  /** The primitives, which are foreign code: the public half of a secret, the shared value
      of a secret and a foreign public half (absent for a degenerate one), and the key
      derivation. */
  datatype Crypto = Crypto(public: Blob -> Blob, shared: (Blob, Blob) -> Option<Blob>,
                           derive: (Blob, Purpose, Transcript) -> Blob)

  /** Both ends of an exchange compute the same shared value. */
  ghost predicate Symmetric(c: Crypto) {
    forall s, t :: c.shared(s, c.public(t)) == c.shared(t, c.public(s))
  }

  datatype Phase = Idle | Waiting | ConfirmWait | Done | Aborted

  datatype Abort = NoAbort | ThirdParty | Timeout | BadConfirm | BadKey | ByPeer

  datatype Events = Events(offer: bool, confirm: bool, abort: bool, completed: bool, aborted: bool)

  const NO_EVENTS := Events(false, false, false, false, false)

  datatype State = State(uid: Uid, phase: Phase, started: Time, window: U16, secret: Blob, public: Blob, nonce: Blob,
                         peer: Option<Party>, key: Blob, expected: Blob, sas: Blob, reason: Abort, ev: Events)

  /** A pairing payload; a stub is an offer cut off after its uid. */
  datatype Message =
    | Offer(from: Party)
    | Stub(uid: Uid)
    | Confirm(uid: Uid, tag: Blob)
    | Refuse(why: Abort)
    | Junk

  function Initial(uid: Uid): State {
    State(uid, Idle, 0, 0, NO_SECRET, Zeros(32), Zeros(8), None, NO_KEY, Zeros(16), Zeros(3), NoAbort, NO_EVENTS)
  }

  function Begun(c: Crypto, s: State, now: Time, window: U16, secret: Blob, nonce: Blob): State {
    Initial(s.uid).(phase := Waiting, started := now, window := if window != 0 then window else 30000,
                    secret := secret, public := c.public(secret), nonce := nonce, ev := NO_EVENTS.(offer := true))
  }

  function Aborting(s: State, why: Abort): State {
    if s.phase == Aborted then s
    else s.(phase := Aborted, reason := why, key := NO_KEY, secret := NO_SECRET,
              ev := s.ev.(abort := true, aborted := true))
  }

  function Own(s: State): Party {
    Party(s.uid, s.public, s.nonce)
  }

  function Exchange(own: Party, peer: Party): Transcript {
    if own.uid < peer.uid then Transcript(own, peer) else Transcript(peer, own)
  }

  /** The key, the string to compare and the tag to wait for, from the two parties and the shared value. */
  function Derived(c: Crypto, s: State, peer: Party, shared: Blob): State {
    var t := Exchange(Own(s), peer);
    s.(key := c.derive(shared, ChainKey, t), sas := c.derive(shared, ShortString, t),
       expected := c.derive(shared, Confirmation(peer.uid), t))
  }

  function OfferHeard(c: Crypto, s: State, from: Party): State {
    if from.uid == s.uid then s
    else if s.peer.Some? && from.uid == s.peer.value.uid then
      (if s.phase == ConfirmWait then s.(ev := s.ev.(confirm := true)) else s)
    else if s.peer.Some? then Aborting(s, ThirdParty)
    else
      var s1 := s.(peer := Some(from));
      var shared := c.shared(s.secret, from.public);
      if shared.None? then Aborting(s1, BadKey)
      else Derived(c, s1, from, shared.value).(phase := ConfirmWait, ev := s.ev.(confirm := true, offer := true))
  }

  function ConfirmHeard(s: State, uid: Uid, tag: Blob): State {
    if s.peer.None? || uid != s.peer.value.uid then s
    else if tag != s.expected then Aborting(s, BadConfirm)
    else if s.phase == ConfirmWait then s.(phase := Done, ev := s.ev.(completed := true))
    else s
  }

  predicate WindowOpen(s: State, now: Time) {
    !TimeAfter(now, Add32(s.started, s.window))
  }

  /** An offer that comes after the pairing is done: a late third party revokes it. */
  function LateOffer(s: State, uid: Uid, now: Time): State {
    if WindowOpen(s, now) && (s.peer.None? || uid != s.peer.value.uid) && uid != s.uid
    then Aborting(s, ThirdParty) else s
  }

  function Received(c: Crypto, s: State, m: Message, now: Time): State {
    if s.phase == Idle || s.phase == Aborted then s
    else
      match m
      case Offer(from) => if s.phase == Done then LateOffer(s, from.uid, now) else OfferHeard(c, s, from)
      case Stub(uid) => if s.phase == Done then LateOffer(s, uid, now) else s
      case Confirm(uid, tag) => ConfirmHeard(s, uid, tag)
      case Refuse(_) => Aborting(s, ByPeer)
      case Junk => s
  }

  function Ticked(s: State, now: Time): State {
    if (s.phase == Waiting || s.phase == ConfirmWait) && !WindowOpen(s, now) then Aborting(s, Timeout) else s
  }

  function Drained(s: State): State {
    s.(ev := NO_EVENTS)
  }

  /** Our confirmation, computed afresh from the secret at the moment it is sent. */
  function ConfirmOf(c: Crypto, s: State): Option<Message> {
    if s.peer.None? then None
    else
      var shared := c.shared(s.secret, s.peer.value.public);
      if shared.None? then None
      else Some(Confirm(s.uid, c.derive(shared.value, Confirmation(s.uid), Exchange(Own(s), s.peer.value))))
  }

  /** What the caller sends for the waiting events, in order. */
  function Outbox(c: Crypto, s: State): seq<Message> {
    (if s.ev.offer then [Offer(Own(s))] else [])
    + (if s.ev.confirm && ConfirmOf(c, s).Some? then [ConfirmOf(c, s).value] else [])
    + (if s.ev.abort then [Refuse(s.reason)] else [])
  }

  // ---- One board's exchange, changed in place ----

  class Exchanger {
    const crypto: Crypto
    const uid: Uid
    var phase: Phase
    var started: Time
    var window: U16
    var secret: Blob
    var public: Blob
    var nonce: Blob
    var peer: Option<Party>
    var key: Blob
    var expected: Blob
    var sas: Blob
    var reason: Abort
    var ev: Events

    function Abs(): State
      reads this
    {
      State(uid, phase, started, window, secret, public, nonce, peer, key, expected, sas, reason, ev)
    }

    constructor (c: Crypto, u: Uid)
      ensures crypto == c && Abs() == Initial(u)
    {
      crypto, uid := c, u;
      phase, started, window, secret, public, nonce := Idle, 0, 0, NO_SECRET, Zeros(32), Zeros(8);
      peer, key, expected, sas := None, NO_KEY, Zeros(16), Zeros(3);
      reason, ev := NoAbort, NO_EVENTS;
    }

    method AbortWith(why: Abort)
      modifies this
      ensures Abs() == Aborting(old(Abs()), why)
    {
      if phase == Aborted {
        return;
      }
      phase, reason := Aborted, why;
      ev := ev.(abort := true, aborted := true);
      key, secret := NO_KEY, NO_SECRET;
    }

    /** Secret and nonce are drawn anew each time. */
    method Begin(now: Time, ms: U16, freshSecret: Blob, freshNonce: Blob)
      modifies this
      ensures Abs() == Begun(crypto, old(Abs()), now, ms, freshSecret, freshNonce)
    {
      hide Zeros;
      Clear();
      phase, started := Waiting, now;
      window := if ms != 0 then ms else 30000;
      secret, public := freshSecret, crypto.public(freshSecret);
      nonce := freshNonce;
      ev := ev.(offer := true);
    }

    method Clear()
      modifies this
      ensures Abs() == Initial(uid)
    {
      hide Zeros;
      phase := Idle;
      started := 0;
      window := 0;
      secret := NO_SECRET;
      public := Zeros(32);
      nonce := Zeros(8);
      peer := None;
      key := NO_KEY;
      expected := Zeros(16);
      sas := Zeros(3);
      reason := NoAbort;
      ev := NO_EVENTS;
    }

    method Derive() returns (ok: bool)
      requires peer.Some?
      modifies this`key, this`sas, this`expected
      ensures ok == crypto.shared(secret, peer.value.public).Some?
      ensures Abs() == if ok
                       then Derived(crypto, old(Abs()), peer.value, crypto.shared(secret, peer.value.public).value)
                       else old(Abs())
    {
      var shared := crypto.shared(secret, peer.value.public);
      if shared.None? {
        return false;
      }
      var t := Exchange(Party(uid, public, nonce), peer.value);
      key := crypto.derive(shared.value, ChainKey, t);
      sas := crypto.derive(shared.value, ShortString, t);
      expected := crypto.derive(shared.value, Confirmation(peer.value.uid), t);
      return true;
    }

    method RxOffer(from: Party)
      modifies this
      ensures Abs() == OfferHeard(crypto, old(Abs()), from)
    {
      if from.uid == uid {
        return;
      }
      if peer.Some? && from.uid == peer.value.uid {
        if phase == ConfirmWait {
          ev := ev.(confirm := true);
        }
        return;
      }
      if peer.Some? {
        AbortWith(ThirdParty);
        return;
      }
      peer := Some(from);
      var ok := Derive();
      if !ok {
        AbortWith(BadKey);
        return;
      }
      phase := ConfirmWait;
      ev := ev.(confirm := true, offer := true);
    }

    method RxConfirm(from: Uid, tag: Blob)
      modifies this
      ensures Abs() == ConfirmHeard(old(Abs()), from, tag)
    {
      if peer.None? {
        return;
      }
      if from != peer.value.uid {
        return;
      }
      if tag != expected {
        AbortWith(BadConfirm);
        return;
      }
      if phase == ConfirmWait {
        phase := Done;
        ev := ev.(completed := true);
      }
    }

    method RxLate(from: Uid, now: Time)
      modifies this
      ensures Abs() == LateOffer(old(Abs()), from, now)
    {
      hide TimeAfter, Add32;
      var open := !TimeAfter(now, Add32(started, window));
      if open && (peer.None? || from != peer.value.uid) && from != uid {
        AbortWith(ThirdParty);
      }
    }

    method Rx(m: Message, now: Time)
      modifies this
      ensures Abs() == Received(crypto, old(Abs()), m, now)
    {
      hide OfferHeard, ConfirmHeard, LateOffer;
      if phase == Idle || phase == Aborted {
        return;
      }
      match m
      case Offer(from) =>
        if phase == Done {
          RxLate(from.uid, now);
        } else {
          RxOffer(from);
        }
      case Stub(from) =>
        if phase == Done {
          RxLate(from, now);
        }
      case Confirm(from, tag) => RxConfirm(from, tag);
      case Refuse(_) => AbortWith(ByPeer);
      case Junk =>
    }

    method Tick(now: Time)
      modifies this
      ensures Abs() == Ticked(old(Abs()), now)
    {
      if phase != Waiting && phase != ConfirmWait {
        return;
      }
      if TimeAfter(now, Add32(started, window)) {
        AbortWith(Timeout);
      }
    }

    /** Drains the events and builds what they ask for, offer before confirmation. */
    method TakeAndBuild() returns (ms: seq<Message>)
      modifies this`ev
      ensures Abs() == Drained(old(Abs()))
      ensures ms == Outbox(crypto, old(Abs()))
    {
      var was := ev;
      ev := NO_EVENTS;
      ms := [];
      if was.offer {
        ms := ms + [Offer(Party(uid, public, nonce))];
      }
      var confirm := ConfirmOf(crypto, Abs());
      if was.confirm && confirm.Some? {
        ms := ms + [confirm.value];
      }
      if was.abort {
        ms := ms + [Refuse(reason)];
      }
    }
  }
}
