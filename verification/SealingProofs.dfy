/**
 Counter discipline: a frame's counter is the number of messages its session had sealed, so counters
 never repeat and rise in wire order; and the other end reads a session's whole stream exactly when
 no sealed message was lost before one that was sent.
 */
module SealingProofs {
  import opened SealingSpec

  // ---- Invariants ----

  predicate Well(f: Frame, nonces: map<SessionId, nat>) {
    match f
    case Handshake(s) => s in nonces
    case Cipher(s, m, c, box) => s in nonces && box == Box(s, c, m, c, box.text) && 1 <= c < nonces[s]
  }

  /** The current session counts what its cipher has sealed, and one more while a counter is taken. */
  ghost predicate InStep(e: Endpoint) {
    && (e.session.Some? ==>
          && e.session.id in e.nonces && e.session.id !in e.openings
          && e.counter == e.nonces[e.session.id] +
               (if e.sending.Taken? && e.sending.session == e.session.id then 1 else 0))
    && (e.sending.Taken? ==>
          e.sending.session in e.nonces && e.sending.session !in e.openings
              && e.sending.counter == e.nonces[e.sending.session])
    && (e.sending.Sealed? ==> e.sending.frame.Cipher? && Well(e.sending.frame, e.nonces))
    && (forall s :: s in e.openings ==> s in e.nonces && e.nonces[s] == 1)
    && (forall s :: s in e.nonces ==> e.nonces[s] >= 1)
  }

  /** Two ciphertext frames of one session, in order. */
  predicate Rises(a: Frame, b: Frame) {
    a.Cipher? && b.Cipher? && a.session == b.session ==> a.counter < b.counter
  }

  ghost predicate WireSound(wire: seq<Frame>, nonces: map<SessionId, nat>) {
    && (forall k :: 0 <= k < |wire| ==> Well(wire[k], nonces))
    && (forall i, j :: 0 <= i < j < |wire| ==> Rises(wire[i], wire[j]))
  }

  /** The frame in hand comes after all of its session. */
  ghost predicate HandAfter(e: Endpoint) {
    e.sending.Sealed? ==> forall k :: 0 <= k < |e.wire| ==> Rises(e.wire[k], e.sending.frame)
  }

  ghost predicate HandshakeFirst(wire: seq<Frame>) {
    forall j :: 0 <= j < |wire| && wire[j].Cipher? ==> HandshakeBefore(wire, j, wire[j].session)
  }

  ghost predicate HandshakeBefore(wire: seq<Frame>, j: nat, s: SessionId) {
    exists i :: 0 <= i < j && i < |wire| && wire[i] == Handshake(s)
  }

  /** Whatever may still be sent is under a session whose handshake is on the wire. */
  ghost predicate Announced(e: Endpoint) {
    && (forall s :: s in e.openings ==> Handshake(s) in e.wire)
    && (e.session.Some? ==> Handshake(e.session.id) in e.wire)
    && (e.sending.Taken? ==> Handshake(e.sending.session) in e.wire)
    && (e.sending.Sealed? && e.sending.frame.Cipher? ==> Handshake(e.sending.frame.session) in e.wire)
  }

  ghost predicate OnWire(wire: seq<Frame>, s: SessionId, n: nat) {
    exists k :: 0 <= k < |wire| && wire[k].Cipher? && wire[k].session == s && wire[k].counter == n
  }

  predicate InHand(sending: Sending, s: SessionId, n: nat) {
    sending.Sealed? && sending.frame.Cipher? && sending.frame.session == s && sending.frame.counter == n
  }

  /** Every message sealed after the handshake is on the wire, in hand or lost, and a lost one is not on the wire. */
  ghost predicate Placed(e: Endpoint) {
    && (forall s, n: nat :: s in e.nonces && 1 <= n < e.nonces[s] ==>
         OnWire(e.wire, s, n) || InHand(e.sending, s, n) || (s, n) in e.lost)
    && (forall s, n: nat :: (s, n) in e.lost ==>
         s in e.nonces && 1 <= n < e.nonces[s] && !OnWire(e.wire, s, n) && !InHand(e.sending, s, n))
  }

  ghost predicate Inv(e: Endpoint) {
    InStep(e) && WireSound(e.wire, e.nonces) && HandAfter(e) && HandshakeFirst(e.wire) && Announced(e) && Placed(e)
  }

  // ---- Steps ----

  lemma WellGrows(f: Frame, nonces: map<SessionId, nat>, more: map<SessionId, nat>)
    requires Well(f, nonces) && forall s :: s in nonces ==> s in more && nonces[s] <= more[s]
    ensures Well(f, more)
  {
  }

  lemma WireGrows(wire: seq<Frame>, nonces: map<SessionId, nat>, more: map<SessionId, nat>)
    requires WireSound(wire, nonces) && forall s :: s in nonces ==> s in more && nonces[s] <= more[s]
    ensures WireSound(wire, more)
  {
    hide Rises, Well;
    forall k | 0 <= k < |wire| ensures Well(wire[k], more) { WellGrows(wire[k], nonces, more); }
  }

  lemma WireAppend(wire: seq<Frame>, nonces: map<SessionId, nat>, f: Frame)
    requires WireSound(wire, nonces) && HandshakeFirst(wire) && Well(f, nonces)
    requires forall k :: 0 <= k < |wire| ==> Rises(wire[k], f)
    requires f.Cipher? ==> Handshake(f.session) in wire
    ensures WireSound(wire + [f], nonces) && HandshakeFirst(wire + [f])
  {
    hide Rises, Well;
    var longer := wire + [f];
    forall j | 0 <= j < |longer| && longer[j].Cipher? ensures HandshakeBefore(longer, j, longer[j].session) {
      if j < |wire| {
        var i :| 0 <= i < j && i < |wire| && wire[i] == Handshake(wire[j].session);
        assert longer[i] == Handshake(longer[j].session);
      } else {
        var i :| 0 <= i < |wire| && wire[i] == Handshake(f.session);
        assert longer[i] == Handshake(f.session);
      }
    }
  }

  lemma OnWireAppend(wire: seq<Frame>, f: Frame, s: SessionId, n: nat)
    ensures OnWire(wire + [f], s, n) <==> OnWire(wire, s, n) || (f.Cipher? && f.session == s && f.counter == n)
  {
    var longer := wire + [f];
    if OnWire(wire, s, n) {
      var k :| 0 <= k < |wire| && wire[k].Cipher? && wire[k].session == s && wire[k].counter == n;
      assert longer[k] == wire[k];
    }
    if f.Cipher? && f.session == s && f.counter == n { assert longer[|wire|] == f; }
  }

  lemma OpenInv(e: Endpoint, s: SessionId, sent: bool)
    requires Inv(e) && s !in e.nonces
    ensures Inv(Open(e, s, sent))
  {
    var more := e.nonces[s := 1];
    WireGrows(e.wire, e.nonces, more);
    if sent {
      WireAppend(e.wire, more, Handshake(s));
      forall t, n: nat ensures OnWire(e.wire + [Handshake(s)], t, n) <==> OnWire(e.wire, t, n) {
        OnWireAppend(e.wire, Handshake(s), t, n);
      }
    }
    hide WireSound, HandshakeFirst, OnWire;
  }

  lemma SealInv(e: Endpoint)
    requires Inv(e) && e.sending.Taken? && e.sending.session in e.nonces
    ensures Inv(Seal(e))
  {
    var t := e.sending;
    var more := e.nonces[t.session := e.nonces[t.session] + 1];
    WireGrows(e.wire, e.nonces, more);
    assert forall k :: 0 <= k < |e.wire| ==> Well(e.wire[k], e.nonces);
    var f := Seal(e).sending.frame;
    forall k | 0 <= k < |e.wire| ensures Rises(e.wire[k], f) { }
    assert InStep(Seal(e)) && Announced(Seal(e)) && HandAfter(Seal(e));
    SealPlaced(e);
    hide WireSound, HandshakeFirst, OnWire, InStep, Announced, HandAfter, Placed;
  }

  lemma SealPlaced(e: Endpoint)
    requires Placed(e) && e.sending.Taken? && e.sending.session in e.nonces
             && e.sending.counter == e.nonces[e.sending.session] >= 1
    ensures Placed(Seal(e))
  {
    hide OnWire;
  }

  lemma TransmitInv(e: Endpoint)
    requires Inv(e) && e.sending.Sealed?
    ensures Inv(Transmit(e))
  {
    var f := e.sending.frame;
    WireAppend(e.wire, e.nonces, f);
    forall s, n: nat ensures OnWire(e.wire + [f], s, n) <==> OnWire(e.wire, s, n) || InHand(e.sending, s, n) {
      OnWireAppend(e.wire, f, s, n);
    }
    hide WireSound, HandshakeFirst, OnWire, Well, Rises;
  }

  lemma LoseInv(e: Endpoint)
    requires Inv(e) && e.sending.Sealed? && e.sending.frame.Cipher?
    ensures Inv(Lose(e))
  {
    var f := e.sending.frame;
    assert f.box.nonce == f.counter;
    assert forall k :: 0 <= k < |e.wire| ==> Rises(e.wire[k], f);
    assert !OnWire(e.wire, f.session, f.counter);
    hide WireSound, HandshakeFirst, OnWire, Rises;
  }

  lemma OtherInv(e: Endpoint, step: Step)
    requires Inv(e) && (step.DoPublish? || step.DoAbandon? || step.DoDrop? || step.DoEnd? || step.DoTake?)
    ensures Inv(Apply(e, step))
  {
    hide WireSound, HandshakeFirst, OnWire, Well, Rises;
  }

  lemma {:induction false} EveryRun(e: Endpoint, steps: seq<Step>)
    requires Inv(e)
    ensures Inv(Run(e, steps))
    decreases |steps|
  {
    if steps != [] {
      StepInv(e, steps[0]);
      hide Inv, Apply;
      EveryRun(Apply(e, steps[0]), steps[1..]);
    }
  }

  lemma StepInv(e: Endpoint, step: Step)
    requires Inv(e)
    ensures Inv(Apply(e, step))
  {
    hide Inv, Open, Seal, Lose, Transmit, Passes;
    match step
    case DoOpen(s, sent) => if s !in e.nonces { OpenInv(e, s, sent); }
    case DoSeal => if e.sending.Taken? && e.sending.session in e.nonces { SealInv(e); }
    case DoHandOver(stale) =>
      if e.sending.Sealed? && e.sending.frame.Cipher? {
        TransmitInv(e);
        LoseInv(e);
      }
    case _ => OtherInv(e, step);
  }

  lemma InitInv(role: Role)
    ensures Inv(Init(role))
  {
  }

  /**
   Over every interleaving of sends, re-sends, reconnects and refused frames: the counter of a
   ciphertext frame is its nonce, the number of messages its session had already sealed; counters of
   one session rise in wire order; and no ciphertext precedes its session's handshake frame.
   */
  lemma CounterDiscipline(role: Role, steps: seq<Step>)
    ensures var e := Run(Init(role), steps);
            && (forall k :: 0 <= k < |e.wire| && e.wire[k].Cipher? ==> e.wire[k].counter == e.wire[k].box.nonce)
            && (forall i, j :: 0 <= i < j < |e.wire| ==> Rises(e.wire[i], e.wire[j]))
            && HandshakeFirst(e.wire)
  {
    InitInv(role);
    EveryRun(Init(role), steps);
    var e := Run(Init(role), steps);
    hide Run;
    forall k | 0 <= k < |e.wire| && e.wire[k].Cipher? ensures e.wire[k].counter == e.wire[k].box.nonce {
      assert Well(e.wire[k], e.nonces);
    }
  }

  // ---- What the other end can read ----

  /** Where a session's stream frames are on the wire, in order. */
  function Places(wire: seq<Frame>, s: SessionId, at: nat): seq<nat>
    requires at <= |wire|
    decreases |wire| - at
  {
    if at == |wire| then []
    else (if wire[at].Cipher? && wire[at].session == s then [at] else []) + Places(wire, s, at + 1)
  }

  lemma {:induction false} StreamAt(wire: seq<Frame>, s: SessionId, at: nat)
    requires at <= |wire|
    ensures var places, stream := Places(wire, s, at), Stream(wire[at..], s);
            && |places| == |stream|
            && (forall k :: 0 <= k < |places| ==> at <= places[k] < |wire| && wire[places[k]] == stream[k])
            && (forall k :: 0 <= k < |places| ==> stream[k].Cipher? && stream[k].session == s)
            && (forall i, j :: 0 <= i < j < |places| ==> places[i] < places[j])
            && (forall m :: at <= m < |wire| && wire[m].Cipher? && wire[m].session == s ==> wire[m] in stream)
    decreases |wire| - at
  {
    if at < |wire| {
      StreamAt(wire, s, at + 1);
      assert wire[at..][0] == wire[at] && wire[at..][1..] == wire[at + 1..];
    }
  }

  /** The frame at one place of a session's stream. */
  lemma StreamFrame(e: Endpoint, s: SessionId, k: nat)
    requires Inv(e) && k < |Stream(e.wire, s)|
    ensures var f := Stream(e.wire, s)[k];
            f.Cipher? && f.session == s && Well(f, e.nonces) && f in e.wire && OnWire(e.wire, s, f.counter)
  {
    StreamAt(e.wire, s, 0);
    assert e.wire[0..] == e.wire;
    var at := Places(e.wire, s, 0)[k];
    assert e.wire[at] == Stream(e.wire, s)[k];
    hide Places, Stream, HandshakeFirst, Placed;
  }

  lemma StreamPair(e: Endpoint, s: SessionId, i: nat, j: nat)
    requires Inv(e) && i < j < |Stream(e.wire, s)|
    ensures Stream(e.wire, s)[i].Cipher? && Stream(e.wire, s)[j].Cipher?
    ensures Stream(e.wire, s)[i].counter < Stream(e.wire, s)[j].counter
  {
    StreamAt(e.wire, s, 0);
    assert e.wire[0..] == e.wire;
    var places := Places(e.wire, s, 0);
    assert e.wire[places[i]] == Stream(e.wire, s)[i] && e.wire[places[j]] == Stream(e.wire, s)[j];
    hide Places, Stream, HandshakeFirst, Placed, Well;
    assert Rises(e.wire[places[i]], e.wire[places[j]]);
  }

  /** A frame of the session on the wire is in its stream. */
  lemma InStream(e: Endpoint, s: SessionId, m: nat) returns (k: nat)
    requires m < |e.wire| && e.wire[m].Cipher? && e.wire[m].session == s
    ensures k < |Stream(e.wire, s)| && Stream(e.wire, s)[k] == e.wire[m]
  {
    StreamAt(e.wire, s, 0);
    assert e.wire[0..] == e.wire;
    hide Places, Stream;
    k :| 0 <= k < |Stream(e.wire, s)| && Stream(e.wire, s)[k] == e.wire[m];
  }

  /** No message of the session was lost before one that was sent. */
  ghost predicate NoneLostBefore(e: Endpoint, s: SessionId) {
    forall n: nat, k :: (s, n) in e.lost && 0 <= k < |e.wire| && e.wire[k].Cipher? && e.wire[k].session == s ==>
        e.wire[k].counter < n
  }

  /**
   The other end, receiving a session's frames in wire order, reads all of them exactly when no sealed
   message of the session was lost before one that was sent.
   */
  lemma ReadsAllIffNoneLost(role: Role, steps: seq<Step>, s: SessionId)
    ensures var e := Run(Init(role), steps);
            ReadsAll(Stream(e.wire, s), s, 1) <==> NoneLostBefore(e, s)
  {
    InitInv(role);
    EveryRun(Init(role), steps);
    hide Run;
    ReadableIff(Run(Init(role), steps), s);
  }

  lemma ReadableIff(e: Endpoint, s: SessionId)
    requires Inv(e)
    ensures ReadsAll(Stream(e.wire, s), s, 1) <==> NoneLostBefore(e, s)
  {
    var stream := Stream(e.wire, s);
    hide Inv, Stream;
    if ReadsAll(stream, s, 1) {
      LostAfterAll(e, s);
    }
    if NoneLostBefore(e, s) {
      forall k | 0 <= k < |stream| ensures Opens(stream[k], s, 1 + k) {
        NoGap(e, s, k);
        StreamFrame(e, s, k);
      }
    }
  }

  lemma LostAfterAll(e: Endpoint, s: SessionId)
    requires Inv(e) && ReadsAll(Stream(e.wire, s), s, 1)
    ensures NoneLostBefore(e, s)
  {
    hide Inv, Stream, ReadsAll;
    forall n: nat, k | (s, n) in e.lost && 0 <= k < |e.wire| && e.wire[k].Cipher? && e.wire[k].session == s
      ensures e.wire[k].counter < n
    {
      var at := InStream(e, s, k);
      LostNotSent(e, s, n);
      ReadCovers(e, s, n, at);
    }
  }

  lemma LostNotSent(e: Endpoint, s: SessionId, n: nat)
    requires Inv(e) && (s, n) in e.lost
    ensures n >= 1 && !OnWire(e.wire, s, n)
  {
  }

  /** A stream that was read whole has every counter up to its last one. */
  lemma ReadCovers(e: Endpoint, s: SessionId, n: nat, at: nat)
    requires Inv(e) && ReadsAll(Stream(e.wire, s), s, 1) && at < |Stream(e.wire, s)| && n >= 1
    ensures Stream(e.wire, s)[at].Cipher?
    ensures n <= Stream(e.wire, s)[at].counter ==> OnWire(e.wire, s, n)
  {
    var stream := Stream(e.wire, s);
    StreamFrame(e, s, at);
    assert Opens(stream[at], s, 1 + at);
    hide Inv, Stream;
    if n <= stream[at].counter {
      StreamFrame(e, s, n - 1);
      assert Opens(stream[n - 1], s, 1 + (n - 1));
    }
  }

  /** With nothing lost before it, the k-th frame of the stream carries counter k + 1. */
  lemma {:induction false} NoGap(e: Endpoint, s: SessionId, k: nat)
    requires Inv(e) && NoneLostBefore(e, s) && k < |Stream(e.wire, s)|
    ensures Stream(e.wire, s)[k].Cipher? && Stream(e.wire, s)[k].counter == k + 1
    decreases k
  {
    hide *;
    StreamFrame(e, s, k);
    if k > 0 {
      NoGap(e, s, k - 1);
      StreamPair(e, s, k - 1, k);
    } else {
      FirstCounter(e, s);
    }
    if Stream(e.wire, s)[k].counter > k + 1 {
      Covered(e, s, k + 1, Stream(e.wire, s)[k].counter);
      Between(e, s, k);
    }
  }

  lemma FirstCounter(e: Endpoint, s: SessionId)
    requires Inv(e) && 0 < |Stream(e.wire, s)|
    ensures Stream(e.wire, s)[0].Cipher? && Stream(e.wire, s)[0].counter >= 1
  {
    StreamFrame(e, s, 0);
    hide Inv, Stream;
  }

  /** No counter lies between two neighbours of the stream, nor below its first. */
  lemma Between(e: Endpoint, s: SessionId, k: nat)
    requires Inv(e) && k < |Stream(e.wire, s)| && Stream(e.wire, s)[k].Cipher? && OnWire(e.wire, s, k + 1)
    requires k > 0 ==> Stream(e.wire, s)[k - 1].Cipher? && Stream(e.wire, s)[k - 1].counter == k
    ensures Stream(e.wire, s)[k].counter <= k + 1
  {
    hide Inv, Stream;
    var m :| 0 <= m < |e.wire| && e.wire[m].Cipher? && e.wire[m].session == s && e.wire[m].counter == k + 1;
    var j := InStream(e, s, m);
    if j < k - 1 {
      StreamPair(e, s, j, k - 1);
    } else if j > k {
      StreamPair(e, s, k, j);
    }
  }

  /** A message sealed before one on the wire is itself on the wire, unless it was lost. */
  lemma Covered(e: Endpoint, s: SessionId, n: nat, c: nat)
    requires Inv(e) && NoneLostBefore(e, s) && OnWire(e.wire, s, c) && 1 <= n < c
    ensures OnWire(e.wire, s, n)
  {
    var k :| 0 <= k < |e.wire| && e.wire[k].Cipher? && e.wire[k].session == s && e.wire[k].counter == c;
    assert Well(e.wire[k], e.nonces);
    assert e.sending.Sealed? ==> Rises(e.wire[k], e.sending.frame);
    assert OnWire(e.wire, s, n) || InHand(e.sending, s, n) || (s, n) in e.lost;
  }
}
