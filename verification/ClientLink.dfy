/** The client proxy as it runs: a byte ring, 64-byte reports and the gate to the chain. */
module ClientLink {
  import opened Types
  import opened Bytes
  import opened Frame
  import opened Framing
  import opened ClientFlow
  import Framer

  const TIMEOUT_MS := 5000

  /** The bytes between two indices of the ring, oldest first. */
  ghost function Ring(bytes: seq<Byte>, tail: nat, head: nat): seq<Byte>
    requires |bytes| == RING && tail < RING && head < RING
  {
    if tail <= head then bytes[tail..head] else bytes[tail..] + bytes[..head]
  }

  lemma FirstOf(bytes: seq<Byte>, i: nat, j: nat)
    requires i < j <= |bytes|
    ensures bytes[i..j] == [bytes[i]] + bytes[i + 1..j]
  {
  }

  lemma FirstOfTail(bytes: seq<Byte>, i: nat, rest: seq<Byte>)
    requires i < |bytes|
    ensures bytes[i..] + rest == [bytes[i]] + (bytes[i + 1..] + rest)
  {
    assert bytes[i..] == [bytes[i]] + bytes[i + 1..];
  }

  lemma RingTakes(bytes: seq<Byte>, tail: nat, next: nat, head: nat)
    requires |bytes| == RING && tail < RING && head < RING && tail != head
    requires next == if tail + 1 == RING then 0 else tail + 1
    ensures Ring(bytes, tail, head) == [bytes[tail]] + Ring(bytes, next, head)
  {
    var rest := Ring(bytes, next, head);
    if tail < head {
      assert rest == bytes[tail + 1..head];
      FirstOf(bytes, tail, head);
    } else {
      FirstOfTail(bytes, tail, bytes[..head]);
      if next == 0 {
        assert bytes[tail + 1..] == [];
        assert bytes[tail + 1..] + bytes[..head] == bytes[..head] == bytes[0..head] == rest;
      } else {
        assert rest == bytes[tail + 1..] + bytes[..head];
      }
    }
  }

  /** clientlink_t. `out` is what has been sent to the client in reports, ever, and `chain` what
      has been handed to the chain link. `stream` and `items` are history: what has been sent and
      what has been pushed in the present session, which a detachment ends. */
  class Proxy {
    const mac: Mac
    const framer: Framer.Framer
    const tx: array<Byte>
    var head: nat
    var tail: nat
    var txSeq: U16
    var attached: bool
    var caps: U16
    var lastRx: Time
    var nextStatus: Time
    var nProxied: nat
    var nToClient: nat
    var nRefused: nat
    var out: seq<Byte>
    var chain: seq<(U16, seq<Byte>)>
    ghost var stream: seq<Byte>
    ghost var items: seq<seq<Byte>>

    /** Between sessions the flow is idle; the session's bytes are the last that were sent. */
    ghost predicate Valid()
      reads this, framer, tx
    {
      && tx.Length == RING && head < RING && tail < RING
      && framer.Valid() && framer.body != tx
      && (!attached ==> Flowing() == IDLE)
      && EndsWith(out, stream)
    }

    /** The bytes in the ring, oldest first. */
    ghost function Queue(): seq<Byte>
      requires tx.Length == RING && head < RING && tail < RING
      reads this`head, this`tail, tx
    {
      if tail <= head then tx[tail..head] else tx[tail..] + tx[..head]
    }

    ghost function Flowing(): Flow
      requires tx.Length == RING && head < RING && tail < RING
      reads this`head, this`tail, this`stream, this`items, tx
    {
      Flow(Queue(), stream, items)
    }

    ghost function Gated(): Gate
      reads this
    {
      Gate(attached, caps, chain, nRefused)
    }

    constructor (m: Mac)
      ensures Valid() && fresh(tx) && fresh(framer) && fresh(framer.body)
      ensures mac == m && Flowing() == IDLE && Gated() == Gate(false, 0, [], 0) && framer.Abs() == FRESH
    {
      mac := m;
      tx := new Byte[RING];
      framer := new Framer.Framer();
      head, tail, txSeq := 0, 0, 0;
      attached, caps, lastRx, nextStatus := false, 0, 0, 0;
      nProxied, nToClient, nRefused := 0, 0, 0;
      out, chain, stream, items := [], [], [], [];
      new;
      hide Queue;
      EmptyRing();
    }

    /** One byte into a ring that has room. */
    method PutByte(b: Byte)
      requires tx.Length == RING && head < RING && tail < RING && |Queue()| < RING - 1
      modifies this`head, tx
      ensures head < RING && Queue() == old(Queue()) + [b]
    {
      tx[head] := b;
      head := (head + 1) % RING;
    }

    /** tx_push. */
    method TxPush(d: seq<Byte>)
      requires tx.Length == RING && head < RING && tail < RING
      modifies this`head, this`items, tx
      ensures head < RING && tail < RING
      ensures Flowing() == Pushed(old(Flowing()), d)
    {
      hide Queue;
      ghost var kept := Fitting(Queue(), d);
      items := items + [kept];
      for i := 0 to |d|
        invariant head < RING && i <= |kept|
        invariant Queue() == old(Queue()) + d[..i]
        invariant items == old(items) + [kept]
      {
        FullRing();
        if (head + 1) % RING == tail {
          assert d[..i] == kept;
          return;
        }
        PutByte(d[i]);
        assert d[..i + 1] == d[..i] + [d[i]];
      }
      assert d[..|d|] == d;
    }

    /** The ring is full exactly when one more byte would make its indices meet. */
    lemma FullRing()
      requires tx.Length == RING && head < RING && tail < RING
      ensures |Queue()| <= RING - 1
      ensures (head + 1) % RING == tail <==> |Queue()| == RING - 1
    {
    }

    /** tx_pending. */
    method TxPending() returns (n: nat)
      requires tx.Length == RING && head < RING && tail < RING
      ensures n == |Queue()|
    {
      n := (head + RING - tail) % RING;
    }

    /** send_local. */
    method SendLocal(f: Frame)
      requires tx.Length == RING && head < RING && tail < RING
      modifies this`head, this`items, tx
      ensures head < RING
      ensures Encodable(f) ==> Flowing() == Pushed(old(Flowing()), Wire(Body(Outgoing(f), mac)))
      ensures !Encodable(f) ==> Flowing() == old(Flowing())
    {
      hide Body, Wire, Outgoing, Queue;
      var wire := new Byte[2 * BODY_MAX + 2];
      var r := Framer.Encode(f, mac, wire);
      if r.Wrote? {
        var bytes := wire[..r.n];
        TxPush(bytes);
      }
    }

    /** clientlink_deliver. */
    method Deliver(f: Frame) returns (ok: bool)
      requires tx.Length == RING && head < RING && tail < RING
      modifies this`head, this`items, this`nToClient, tx
      ensures head < RING && ok == attached
      ensures !ok ==> Flowing() == old(Flowing())
      ensures ok && Encodable(f) ==>
                Flowing() == Pushed(old(Flowing()), Wire(Body(f.(ttl := TTL_DEFAULT), mac)))
      ensures old(Valid()) ==> Valid()
    {
      hide Body, Wire, Queue;
      if !attached {
        return false;
      }
      SendLocal(f.(ttl := TTL_DEFAULT));
      nToClient := nToClient + 1;
      return true;
    }

    /** One byte out of a ring that has one. */
    method TakeByte() returns (b: Byte)
      requires tx.Length == RING && head < RING && tail < RING && Queue() != []
      modifies this`tail
      ensures tail < RING && [b] + Queue() == old(Queue())
    {
      hide Queue, Ring;
      QueueIsRing();
      var next := (tail + 1) % RING;
      RingTakes(tx[..], tail, next, head);
      b := tx[tail];
      tail := next;
      QueueIsRing();
    }

    lemma QueueIsRing()
      requires tx.Length == RING && head < RING && tail < RING
      ensures Queue() == Ring(tx[..], tail, head)
      ensures Ring(tx[..], tail, head) == [] <==> tail == head
    {
    }

    /** The ring is empty exactly when its two indices meet. */
    lemma EmptyRing()
      requires tx.Length == RING && head < RING && tail < RING
      ensures Queue() == [] <==> tail == head
    {
    }

    /** The drain of clientlink_task: one full report, padded with flags. */
    method DrainReport() returns (report: seq<Byte>)
      requires tx.Length == RING && head < RING && tail < RING && Queue() != []
      modifies this`tail, this`out, this`stream
      ensures tail < RING && |report| == REPORT_BYTES && report == ReportOf(old(Queue()))
      ensures Flowing() == Drained(old(Flowing())) && out == old(out) + report && stream == old(stream) + report
    {
      hide Queue;
      report := [];
      EmptyRing();
      while |report| < REPORT_BYTES && tail != head
        invariant tail < RING && |report| <= REPORT_BYTES && out == old(out) && stream == old(stream)
        invariant report + Queue() == old(Queue())
        invariant Queue() == [] <==> tail == head
        decreases REPORT_BYTES - |report|
      {
        var b := TakeByte();
        EmptyRing();
        report := report + [b];
      }
      ghost var taken, q := report, old(Queue());
      ghost var left := Queue();
      Split(taken, left, q);
      assert |taken| == if |q| < REPORT_BYTES then |q| else REPORT_BYTES;
      while |report| < REPORT_BYTES
        invariant |taken| <= |report| <= REPORT_BYTES
        invariant report == taken + Flags(|report| - |taken|)
      {
        report := report + [FLAG];
      }
      out := out + report;
      stream := stream + report;
      assert Queue() == left == q[|taken|..];
    }

    static lemma Split(x: seq<Byte>, y: seq<Byte>, q: seq<Byte>)
      requires x + y == q
      ensures x == q[..|x|] && y == q[|x|..]
      ensures y == [] ==> x == q && Flags(0) == []
      ensures x + Flags(0) == x
    {
    }

    /** clientlink_task. The status line and the endpoint's readiness come from outside. */
    method Task(now: Time, self: U16, status: seq<Byte>, ready: bool)
      requires Valid() && |status| <= MAX_PAYLOAD
      modifies this, tx, framer
      ensures Valid()
      ensures old(attached) && TimeAfter(now, Add32(old(lastRx), TIMEOUT_MS)) ==>
                && !attached && caps == 0 && Flowing() == IDLE && framer.Abs() == FRESH
                && out == old(out) && chain == old(chain)
      ensures !old(attached) ==> Flowing() == old(Flowing()) && Gated() == old(Gated())
      ensures old(attached) && !TimeAfter(now, Add32(old(lastRx), TIMEOUT_MS)) ==>
                && Gated() == old(Gated())
                && var line := Frame(MSG_CAP, TTL_DEFAULT, self, 0xFF, old(txSeq), status);
                   var queued := if TimeAfter(now, old(nextStatus))
                                 then Pushed(old(Flowing()), Wire(Body(line, mac))) else old(Flowing());
                   Flowing() == if ready then Drained(queued) else queued
      ensures var alive := old(attached) && !TimeAfter(now, Add32(old(lastRx), TIMEOUT_MS));
              var due := alive && TimeAfter(now, old(nextStatus));
              && nextStatus == (if due then Add32(now, 1000) else old(nextStatus))
              && txSeq == (if due then (old(txSeq) + 1) % 0x1_0000 else old(txSeq))
    {
      hide Body, Wire, TimeAfter, Add32, Queue;
      if attached && TimeAfter(now, Add32(lastRx, TIMEOUT_MS)) {
        attached, caps, head, tail := false, 0, 0, 0;
        stream, items := [], [];
        framer.Reset();
        EmptyRing();
        return;
      }
      if !attached {
        return;
      }
      if TimeAfter(now, nextStatus) {
        SendStatus(now, self, status);
      }
      DrainIfReady(ready);
    }

    /** send_status. */
    method SendStatus(now: Time, self: U16, status: seq<Byte>)
      requires tx.Length == RING && head < RING && tail < RING && |status| <= MAX_PAYLOAD
      modifies this`head, this`items, this`txSeq, this`nextStatus, tx
      ensures head < RING && nextStatus == Add32(now, 1000) && txSeq == (old(txSeq) + 1) % 0x1_0000
      ensures Flowing() ==
                Pushed(old(Flowing()), Wire(Body(Frame(MSG_CAP, TTL_DEFAULT, self, 0xFF, old(txSeq), status), mac)))
    {
      hide Body, Wire, Queue;
      SendLocal(Frame(MSG_CAP, TTL_DEFAULT, self, 0xFF, txSeq, status));
      txSeq := (txSeq + 1) % 0x1_0000;
      nextStatus := Add32(now, 1000);
    }

    /** The last part of clientlink_task. */
    method DrainIfReady(ready: bool)
      requires tx.Length == RING && head < RING && tail < RING
      modifies this`tail, this`out, this`stream
      ensures tail < RING && Flowing() == if ready then Drained(old(Flowing())) else old(Flowing())
      ensures EndsWith(old(out), old(stream)) ==> EndsWith(out, stream)
    {
      var pending := TxPending();
      if pending == 0 || !ready {
        return;
      }
      var report := DrainReport();
      if EndsWith(old(out), old(stream)) {
        EndsLonger(old(out), old(stream), report);
      }
    }

    /** handle_from_client. */
    method Handle(f: Frame, now: Time)
      modifies this`lastRx, this`caps, this`attached, this`nextStatus, this`nRefused, this`chain, this`nProxied
      ensures Gated() == Admit(old(Gated()), f) && lastRx == now
      ensures nextStatus == if attached && !old(attached) then 0 else old(nextStatus)
    {
      hide Get16;
      lastRx := now;
      if f.typ == MSG_CAP {
        var a := AttachCaps(f.payload);
        if a.Some? {
          caps := LevelThree(a.value);
          if !attached {
            attached := true;
            nextStatus := 0;
          }
        }
        return;
      }
      if f.typ != MSG_DATA {
        nRefused := nRefused + 1;
        return;
      }
      if !attached {
        return;
      }
      chain := chain + [(f.dst, f.payload)];
      nProxied := nProxied + 1;
    }

    /** clientlink_rx_report. */
    method RxReport(data: seq<Byte>, now: Time)
      requires Valid()
      modifies this`lastRx, this`caps, this`attached, this`nextStatus, this`nRefused, this`chain, this`nProxied
      modifies framer, framer.body
      ensures Valid()
      ensures framer.Abs() == Feed(old(framer.Abs()), data)
      ensures Gated() == AdmitAll(old(Gated()), Reports(old(framer.Abs()), data, Some(mac)))
      ensures lastRx == if AnyGood(Reports(old(framer.Abs()), data, Some(mac))) then now else old(lastRx)
      ensures nextStatus == if attached && !old(attached) then 0 else old(nextStatus)
    {
      hide Admit, Framing.Push, Report, Feed, Reports, AdmitAll;
      ghost var d0, g0 := framer.Abs(), Gated();
      NothingFed(d0, g0, Some(mac));
      for i := 0 to |data|
        invariant Valid()
        invariant framer.Abs() == Feed(d0, data[..i])
        invariant Gated() == AdmitAll(g0, Reports(d0, data[..i], Some(mac)))
        invariant lastRx == if AnyGood(Reports(d0, data[..i], Some(mac))) then now else old(lastRx)
        invariant nextStatus == if attached && !old(attached) then 0 else old(nextStatus)
        invariant old(attached) ==> attached
      {
        OneMoreByte(d0, g0, data, i, Some(mac));
        var r := framer.Push(data[i], Some(mac));
        if r.Some? && r.value.Good? {
          AdmitKeepsAttached(Gated(), r.value.frame);
          Handle(r.value.frame, now);
        }
      }
      assert data[..|data|] == data;
    }
  }

  predicate EndsWith(all: seq<Byte>, last: seq<Byte>) {
    |last| <= |all| && all[|all| - |last|..] == last
  }

  lemma EndsLonger(all: seq<Byte>, last: seq<Byte>, more: seq<Byte>)
    requires EndsWith(all, last)
    ensures EndsWith(all + more, last + more)
  {
  }

  /** Some frame got through. */
  predicate AnyGood(reports: seq<Decoded>) {
    exists i :: 0 <= i < |reports| && reports[i].Good?
  }

  lemma AdmitKeepsAttached(g: Gate, f: Frame)
    ensures g.attached ==> Admit(g, f).attached
  {
  }

  lemma NothingFed(d: Dec, g: Gate, key: Option<Mac>)
    requires Framing.Sane(d)
    ensures Feed(d, []) == d && AdmitAll(g, Reports(d, [], key)) == g && !AnyGood(Reports(d, [], key))
  {
  }

  /** What the next byte of a report adds. */
  lemma OneMoreByte(d: Dec, g: Gate, data: seq<Byte>, i: nat, key: Option<Mac>)
    requires Framing.Sane(d) && i < |data|
    ensures var r := Report(Feed(d, data[..i]), data[i], key);
            var h := AdmitAll(g, Reports(d, data[..i], key));
            && Feed(d, data[..i + 1]) == Framing.Push(Feed(d, data[..i]), data[i])
            && AdmitAll(g, Reports(d, data[..i + 1], key)) ==
               (if r.Some? && r.value.Good? then Admit(h, r.value.frame) else h)
            && (AnyGood(Reports(d, data[..i + 1], key)) <==>
                  AnyGood(Reports(d, data[..i], key)) || (r.Some? && r.value.Good?))
  {
    hide Admit, Framing.Push, Report;
    assert data[..i + 1][..i] == data[..i];
    var before := Reports(d, data[..i], key);
    var r := Report(Feed(d, data[..i]), data[i], key);
    assert Reports(d, data[..i + 1], key) == before + OrNothing(r);
    if r.Some? {
      assert (before + [r.value])[..|before|] == before;
    } else {
      assert before + OrNothing(r) == before;
    }
  }
}
