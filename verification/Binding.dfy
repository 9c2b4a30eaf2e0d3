/** Pairing against a network that may say anything: what two boards can conclude from equal
    strings, keys or confirmations. */
module Binding {
  import opened Types
  import opened Pairing
  import Agreement

  /** The transcript is the two offers, whoever asks, and nothing else makes the same one. */
  lemma TranscriptBindsBoth(p: Party, q: Party, p': Party, q': Party)
    requires p.uid != q.uid && p'.uid != q'.uid
    ensures Exchange(p, q) == Exchange(p', q') <==> {p, q} == {p', q'}
  {
    var t, t' := Exchange(p, q), Exchange(p', q');
    if t == t' {
      assert {p, q} == {t.first, t.second} && {p', q'} == {t'.first, t'.second};
    }
    if {p, q} == {p', q'} {
      assert p in {p', q'} && q in {p', q'} && p' in {p, q} && q' in {p, q};
    }
  }

  // ---- A board's life ----

  /** A press of the button, or anything that happens in between; messages are arbitrary. */
  datatype Act = Press(now: Time, window: U16, secret: Blob, nonce: Blob) | Happens(e: Agreement.Event)

  function Acted(c: Crypto, s: State, a: Act): State {
    match a
    case Press(now, window, secret, nonce) => Begun(c, s, now, window, secret, nonce)
    case Happens(e) => Agreement.React(c, s, e)
  }

  function Life(c: Crypto, uid: Uid, acts: seq<Act>): State {
    if acts == [] then Initial(uid) else Acted(c, Life(c, uid, acts[..|acts| - 1]), acts[|acts| - 1])
  }

  predicate Past(s: State) {
    s.phase == ConfirmWait || s.phase == Done
  }

  /** What a board that has heard an offer has made of it: everything it holds comes from the
      value it shares with that offer, a purpose, and both offers. */
  predicate Bound(c: Crypto, s: State) {
    && (s.phase == Waiting ==> s.peer.None?)
    && (s.phase == Waiting || Past(s) ==> s.public == c.public(s.secret))
    && (Past(s) ==>
          && s.peer.Some? && s.peer.value.uid != s.uid
          && var shared := c.shared(s.secret, s.peer.value.public);
             && shared.Some?
             && s.key == c.derive(shared.value, ChainKey, Exchange(Own(s), s.peer.value))
             && s.sas == c.derive(shared.value, ShortString, Exchange(Own(s), s.peer.value))
             && s.expected == c.derive(shared.value, Confirmation(s.peer.value.uid), Exchange(Own(s), s.peer.value)))
  }

  lemma ActedKeeps(c: Crypto, s: State, a: Act)
    requires Bound(c, s)
    ensures Bound(c, Acted(c, s, a)) && Acted(c, s, a).uid == s.uid
  {
    hide WindowOpen, Exchange, Zeros;
  }

  lemma InitialIsBound(c: Crypto, uid: Uid)
    ensures Bound(c, Initial(uid))
  {
    hide Zeros;
  }

  lemma {:induction false} LifeIsBound(c: Crypto, uid: Uid, acts: seq<Act>)
    ensures Bound(c, Life(c, uid, acts)) && Life(c, uid, acts).uid == uid
  {
    hide Bound, Acted;
    if acts == [] {
      InitialIsBound(c, uid);
    } else {
      LifeIsBound(c, uid, acts[..|acts| - 1]);
      ActedKeeps(c, Life(c, uid, acts[..|acts| - 1]), acts[|acts| - 1]);
    }
  }

  // ---- Equal strings, equal keys, matching confirmations ----

  /** The arguments of one derivation. */
  datatype Source = Source(shared: Blob, purpose: Purpose, transcript: Transcript)

  function Yield(c: Crypto, x: Source): Blob {
    c.derive(x.shared, x.purpose, x.transcript)
  }

  /** Two different derivations with one result. */
  predicate Collides(c: Crypto, x: Source, y: Source) {
    x != y && Yield(c, x) == Yield(c, y)
  }

  ghost predicate CollisionFree(c: Crypto) {
    forall x, y :: !Collides(c, x, y)
  }

  /** Where a board's values for a purpose come from. */
  function SourceOf(c: Crypto, s: State, purpose: Purpose): Source
    requires Bound(c, s) && Past(s)
  {
    Source(c.shared(s.secret, s.peer.value.public).value, purpose, Exchange(Own(s), s.peer.value))
  }

  /** Each board's peer is exactly what the other one offers. */
  predicate EachOther(s: State, t: State) {
    s.peer == Some(Own(t)) && t.peer == Some(Own(s))
  }

  lemma SameSource(c: Crypto, s: State, t: State, purpose: Purpose)
    requires Bound(c, s) && Past(s) && Bound(c, t) && Past(t) && s.uid != t.uid
    ensures SourceOf(c, s, purpose) == SourceOf(c, t, purpose) ==> EachOther(s, t)
    ensures Symmetric(c) && EachOther(s, t) ==> SourceOf(c, s, purpose) == SourceOf(c, t, purpose)
  {
    TranscriptBindsBoth(Own(s), s.peer.value, Own(t), t.peer.value);
    if SourceOf(c, s, purpose) == SourceOf(c, t, purpose) {
      assert Own(s) in {Own(t), t.peer.value} && Own(t) in {Own(s), s.peer.value};
    }
    if EachOther(s, t) {
      assert {Own(s), s.peer.value} == {Own(t), t.peer.value};
    }
  }

  /** Whatever the network has injected, swapped or replayed into two lives: if the two boards show
      the same string, or hold the same key, each has heard exactly the other's genuine offer, or
      else the derivation has given one result for two different arguments, which are these. */
  lemma EqualStringsBindOffers(c: Crypto, left: Uid, right: Uid, la: seq<Act>, ra: seq<Act>)
    requires left != right && Past(Life(c, left, la)) && Past(Life(c, right, ra))
    ensures var s, t := Life(c, left, la), Life(c, right, ra);
            && Bound(c, s) && Bound(c, t)
            && (s.sas == t.sas ==>
                  EachOther(s, t) || Collides(c, SourceOf(c, s, ShortString), SourceOf(c, t, ShortString)))
            && (s.key == t.key ==>
                  EachOther(s, t) || Collides(c, SourceOf(c, s, ChainKey), SourceOf(c, t, ChainKey)))
  {
    hide Life, Exchange;
    LifeIsBound(c, left, la);
    LifeIsBound(c, right, ra);
    SameSource(c, Life(c, left, la), Life(c, right, ra), ShortString);
    SameSource(c, Life(c, left, la), Life(c, right, ra), ChainKey);
  }

  /** So with a derivation free of collisions, the strings agree if and only if nobody came
      between the two offers, and so do the keys. */
  lemma StringsAgreeIffGenuine(c: Crypto, left: Uid, right: Uid, la: seq<Act>, ra: seq<Act>)
    requires Symmetric(c) && CollisionFree(c) && left != right
    requires Past(Life(c, left, la)) && Past(Life(c, right, ra))
    ensures var s, t := Life(c, left, la), Life(c, right, ra);
            && (s.sas == t.sas <==> EachOther(s, t))
            && (s.key == t.key <==> EachOther(s, t))
  {
    hide Life, Exchange, Symmetric;
    LifeIsBound(c, left, la);
    LifeIsBound(c, right, ra);
    EqualStringsBindOffers(c, left, right, la, ra);
    SameSource(c, Life(c, left, la), Life(c, right, ra), ShortString);
    SameSource(c, Life(c, left, la), Life(c, right, ra), ChainKey);
  }

  /** The same for confirmations: the one a board builds is the one the other waits for if and only
      if they have heard each other. */
  lemma ConfirmationsMatchIffGenuine(c: Crypto, left: Uid, right: Uid, la: seq<Act>, ra: seq<Act>)
    requires Symmetric(c) && CollisionFree(c) && left != right
    requires Past(Life(c, left, la)) && Past(Life(c, right, ra))
    ensures var s, t := Life(c, left, la), Life(c, right, ra);
            && ConfirmOf(c, t).Some?
            && (ConfirmOf(c, t) == Some(Confirm(right, s.expected)) <==> EachOther(s, t))
  {
    hide Life, Exchange, Symmetric;
    LifeIsBound(c, left, la);
    LifeIsBound(c, right, ra);
    var s, t := Life(c, left, la), Life(c, right, ra);
    var x, y := SourceOf(c, s, Confirmation(s.peer.value.uid)), SourceOf(c, t, Confirmation(right));
    assert s.expected == Yield(c, x);
    assert ConfirmOf(c, t).value.tag == Yield(c, y);
    assert !Collides(c, x, y);
    SameSource(c, s, t, Confirmation(right));
  }

  /** No value does for another: the key, the string, the confirmation sent and the one waited for
      are four different things. */
  lemma PurposesAreSeparate(c: Crypto, uid: Uid, acts: seq<Act>)
    requires CollisionFree(c) && Past(Life(c, uid, acts))
    ensures var s := Life(c, uid, acts);
            && ConfirmOf(c, s).Some?
            && var own := ConfirmOf(c, s).value.tag;
               s.key != s.sas && s.key != s.expected && s.sas != s.expected && own !in {s.key, s.sas, s.expected}
  {
    hide Life, Exchange;
    LifeIsBound(c, uid, acts);
    var s := Life(c, uid, acts);
    var k, m := SourceOf(c, s, ChainKey), SourceOf(c, s, ShortString);
    var e, o := SourceOf(c, s, Confirmation(s.peer.value.uid)), SourceOf(c, s, Confirmation(s.uid));
    assert !Collides(c, k, m) && !Collides(c, k, e) && !Collides(c, m, e);
    assert !Collides(c, o, k) && !Collides(c, o, m) && !Collides(c, o, e);
  }

  // ---- Done means confirmed ----

  /** The board was handed, at this point of its life, the tag it expects of its peer. */
  predicate ConfirmedAt(acts: seq<Act>, k: nat, s: State) {
    && k < |acts| && s.peer.Some?
    && acts[k].Happens? && acts[k].e.Hear? && acts[k].e.m == Confirm(s.peer.value.uid, s.expected)
  }

  lemma DoneStep(c: Crypto, s: State, a: Act)
    requires Bound(c, s) && Acted(c, s, a).phase == Done
    ensures var v := Acted(c, s, a);
            && v.peer == s.peer && v.expected == s.expected
            && (s.phase == Done || ConfirmedAt([a], 0, v))
  {
    hide WindowOpen, Exchange, Zeros;
  }

  /** No board is ever done without having been handed the confirmation it expects. */
  lemma {:induction false} DoneMeansConfirmed(c: Crypto, uid: Uid, acts: seq<Act>) returns (k: nat)
    requires Life(c, uid, acts).phase == Done
    ensures ConfirmedAt(acts, k, Life(c, uid, acts))
  {
    hide Acted, Bound, Zeros;
    var pre := acts[..|acts| - 1];
    LifeIsBound(c, uid, pre);
    DoneStep(c, Life(c, uid, pre), acts[|acts| - 1]);
    if Life(c, uid, pre).phase == Done {
      k := DoneMeansConfirmed(c, uid, pre);
    } else {
      k := |acts| - 1;
    }
  }

  // ---- How an exchange ends ----

  /** Two boards that hear each other's offer and then each other's confirmation are done, with the
      same key and string. Each answers the first offer with its own offer again as well as its
      confirmation, so it does not matter which of them began first. */
  lemma PairingCompletes(c: Crypto, l: State, r: State, t: (Time, Time, Time, Time))
    requires Symmetric(c) && l.uid != r.uid && l.phase == r.phase == Waiting && Bound(c, l) && Bound(c, r)
    requires c.shared(l.secret, r.public).Some?
    ensures var l1, r1 := Received(c, l, Offer(Own(r)), t.0), Received(c, r, Offer(Own(l)), t.1);
            && ConfirmOf(c, l1).Some? && ConfirmOf(c, r1).Some?
            && Outbox(c, l1)[..2] == [Offer(Own(l)), ConfirmOf(c, l1).value]
            && Outbox(c, r1)[..2] == [Offer(Own(r)), ConfirmOf(c, r1).value]
            && var l2, r2 := Received(c, l1, ConfirmOf(c, r1).value, t.2), Received(c, r1, ConfirmOf(c, l1).value, t.3);
               && l2.phase == r2.phase == Done && l2.key == r2.key && l2.sas == r2.sas
               && l2.ev.completed && r2.ev.completed
  {
    hide WindowOpen, Zeros;
    TranscriptBindsBoth(Own(l), Own(r), Own(r), Own(l));
    assert {Own(l), Own(r)} == {Own(r), Own(l)};
    hide Exchange;
    assert c.shared(l.secret, r.public) == c.shared(r.secret, l.public);
    var l1, r1 := Received(c, l, Offer(Own(r)), t.0), Received(c, r, Offer(Own(l)), t.1);
    assert Own(l1) == Own(l) && Own(r1) == Own(r);
  }

  /** No exchange outlives its window: the first tick after it has closed ends it without a key, and
      a tick within it changes nothing. */
  lemma WindowCloses(s: State, now: Time)
    ensures WindowOpen(s, now) ==> Ticked(s, now) == s
    ensures !WindowOpen(s, now) && s.phase in {Waiting, ConfirmWait} ==>
              var v := Ticked(s, now);
              v.phase == Aborted && v.reason == Timeout && v.key == NO_KEY && v.secret == NO_SECRET && v.ev.abort
    ensures s.phase in {Idle, Done, Aborted} ==> Ticked(s, now) == s
  {
    hide WindowOpen, Zeros;
  }

  /** Over a board's whole life, an abort is always to be told. */
  lemma AbortIsToBeTold(c: Crypto, s: State, a: Act)
    requires s.phase != Aborted && Acted(c, s, a).phase == Aborted
    ensures var v := Acted(c, s, a); v.ev.abort && Refuse(v.reason) in Outbox(c, v) && v.key == NO_KEY
  {
    hide WindowOpen, Zeros, ConfirmOf, Exchange;
    var v := Acted(c, s, a);
    var out := Outbox(c, v);
    assert v.ev.abort;
    assert out[|out| - 1] == Refuse(v.reason);
  }

  /** And a board that is told gives up what it has, whatever it was at. */
  lemma AbortSpreads(c: Crypto, s: State, why: Abort, now: Time)
    requires s.phase != Idle && s.phase != Aborted
    ensures var v := Received(c, s, Refuse(why), now);
            v.phase == Aborted && v.reason == ByPeer && v.key == NO_KEY && v.secret == NO_SECRET
  {
    hide Zeros;
  }

  /** A board that begins without a window of its own has half a minute. */
  lemma DefaultWindow(c: Crypto, s: State, now: Time, secret: Blob, nonce: Blob, later: Time)
    ensures var v := Begun(c, s, now, 0, secret, nonce);
            v.phase == Waiting && (WindowOpen(v, later) <==> !TimeAfter(later, Add32(now, 30000)))
  {
    hide Zeros, TimeAfter, Add32;
  }

  /** A third board that offers to one that is done, be it with an offer cut off after its uid, revokes
      the pairing if and only if the window is still open. */
  lemma LateOfferRevokesIff(c: Crypto, s: State, from: Party, now: Time)
    requires s.phase == Done && s.peer.Some? && from.uid != s.uid && from.uid != s.peer.value.uid
    ensures forall m :: m == Offer(from) || m == Stub(from.uid) ==>
              var v := Received(c, s, m, now);
              && (WindowOpen(s, now) ==> v.phase == Aborted && v.reason == ThirdParty && v.key == NO_KEY)
              && (!WindowOpen(s, now) ==> v == s)
  {
    hide WindowOpen, Zeros;
  }
}
