/**
 What a session carries: the frames on the wire hold the messages that were taken under the session,
 id and text, in the order they were taken; so the other end reads exactly those.
 */
module SealingTexts {
  import opened SealingSpec
  import opened SealingProofs

  type Message = (MessageId, string)

  /** The messages sends have taken under a session, read off the steps of a run. */
  function TakenUnder(e: Endpoint, steps: seq<Step>, s: SessionId): seq<Message>
    decreases |steps|
  {
    if steps == [] then []
    else TakenBy(e, steps[0], s) + TakenUnder(Apply(e, steps[0]), steps[1..], s)
  }

  function TakenBy(e: Endpoint, step: Step, s: SessionId): seq<Message> {
    if step.DoTake? && e.sending.Free? && e.session == Some(s) then [(step.message, step.text)] else []
  }

  /** A counter of the session belongs to this message. */
  ghost predicate Holds(taken: seq<Message>, counter: nat, message: MessageId, text: string) {
    1 <= counter <= |taken| && taken[counter - 1] == (message, text)
  }

  ghost predicate FrameHolds(f: Frame, s: SessionId, taken: seq<Message>) {
    f.Cipher? && f.session == s ==> Holds(taken, f.counter, f.message, f.box.text)
  }

  ghost predicate SendingHolds(sending: Sending, s: SessionId, taken: seq<Message>) {
    match sending
    case Free => true
    case Taken(t, message, counter, text, _) => t == s ==> Holds(taken, counter, message, text)
    case Sealed(f, _) => FrameHolds(f, s, taken)
  }

  /** Everything of the session agrees with the messages taken under it so far. */
  ghost predicate Texts(e: Endpoint, s: SessionId, taken: seq<Message>) {
    && (forall k :: 0 <= k < |e.wire| ==> FrameHolds(e.wire[k], s, taken))
    && SendingHolds(e.sending, s, taken)
    && (e.session == Some(s) ==> s in e.nonces && s !in e.openings && e.counter == |taken| + 1)
    && (s in e.openings || s !in e.nonces ==> taken == [])
    && (s in e.openings ==> s in e.nonces)
  }

  lemma HoldsMore(taken: seq<Message>, m: Message, counter: nat, message: MessageId, text: string)
    requires Holds(taken, counter, message, text)
    ensures Holds(taken + [m], counter, message, text)
  {
  }

  lemma TakeTexts(e: Endpoint, message: MessageId, text: string, size: nat, s: SessionId, taken: seq<Message>)
    requires Texts(e, s, taken) && e.sending.Free?
    ensures var step := DoTake(message, text, size);
            Texts(Apply(e, step), s, taken + TakenBy(e, step, s))
  {
    var out, m := Take(e, message, text, size), (message, text);
    if e.session == Some(s) {
      forall k | 0 <= k < |e.wire| ensures FrameHolds(e.wire[k], s, taken + [m]) {
        assert FrameHolds(e.wire[k], s, taken);
        if e.wire[k].Cipher? && e.wire[k].session == s {
          HoldsMore(taken, m, e.wire[k].counter, e.wire[k].message, e.wire[k].box.text);
        }
      }
      assert (taken + [m])[|taken|] == m;
    } else {
      assert taken + [] == taken;
    }
  }

  lemma WireTexts(wire: seq<Frame>, f: Frame, s: SessionId, taken: seq<Message>)
    requires (forall k :: 0 <= k < |wire| ==> FrameHolds(wire[k], s, taken)) && FrameHolds(f, s, taken)
    ensures forall k :: 0 <= k < |wire + [f]| ==> FrameHolds((wire + [f])[k], s, taken)
  {
    hide FrameHolds;
  }

  lemma OtherTexts(e: Endpoint, step: Step, s: SessionId, taken: seq<Message>)
    requires Texts(e, s, taken) && !step.DoTake?
    ensures Texts(Apply(e, step), s, taken)
  {
    match step
    case DoOpen(t, sent) =>
      WireTexts(e.wire, Handshake(t), s, taken);
      hide FrameHolds, SendingHolds;
    case DoHandOver(stale) =>
      if e.sending.Sealed? {
        WireTexts(e.wire, e.sending.frame, s, taken);
        hide FrameHolds, Passes;
      }
    case DoSeal => SealTexts(e, s, taken);
    case DoPublish(t) => hide FrameHolds, SendingHolds;
    case DoAbandon(t) => hide FrameHolds, SendingHolds;
    case DoDrop => hide FrameHolds, SendingHolds;
    case DoEnd(t) => hide FrameHolds, SendingHolds;
  }

  /** What is sealed is the text that was taken. */
  lemma SealTexts(e: Endpoint, s: SessionId, taken: seq<Message>)
    requires Texts(e, s, taken)
    ensures Texts(Apply(e, DoSeal), s, taken)
  {
    if e.sending.Taken? && e.sending.session in e.nonces {
      assert SendingHolds(Seal(e).sending, s, taken);
    }
    hide FrameHolds, SendingHolds;
  }

  lemma StepTexts(e: Endpoint, step: Step, s: SessionId, taken: seq<Message>)
    requires Texts(e, s, taken)
    ensures Texts(Apply(e, step), s, taken + TakenBy(e, step, s))
  {
    assert taken + [] == taken;
    if step.DoTake? {
      if e.sending.Free? { TakeTexts(e, step.message, step.text, step.size, s, taken); }
    } else {
      hide Texts, Apply;
      OtherTexts(e, step, s, taken);
    }
  }

  lemma {:induction false} RunTexts(e: Endpoint, steps: seq<Step>, s: SessionId, taken: seq<Message>)
    requires Texts(e, s, taken)
    ensures Texts(Run(e, steps), s, taken + TakenUnder(e, steps, s))
    decreases |steps|
  {
    if steps == [] {
      assert taken + [] == taken;
    } else {
      var more := TakenBy(e, steps[0], s);
      StepTexts(e, steps[0], s, taken);
      hide Texts, Apply, TakenBy;
      RunTexts(Apply(e, steps[0]), steps[1..], s, taken + more);
      var rest := TakenUnder(Apply(e, steps[0]), steps[1..], s);
      assert (taken + more) + rest == taken + (more + rest);
    }
  }

  /** The messages of a session that a run from the start has taken. */
  function Sent(role: Role, steps: seq<Step>, s: SessionId): seq<Message> {
    TakenUnder(Init(role), steps, s)
  }

  lemma EveryRunTexts(role: Role, steps: seq<Step>, s: SessionId)
    ensures Texts(Run(Init(role), steps), s, Sent(role, steps, s))
  {
    RunTexts(Init(role), steps, s, []);
    assert [] + Sent(role, steps, s) == Sent(role, steps, s);
  }

  /**
   Over every run: a ciphertext frame on the wire with counter n carries the id and the text of the
   n-th message taken under its session.
   */
  lemma FramesCarryMessages(role: Role, steps: seq<Step>, k: nat)
    requires k < |Run(Init(role), steps).wire| && Run(Init(role), steps).wire[k].Cipher?
    ensures var f := Run(Init(role), steps).wire[k];
            var taken := Sent(role, steps, f.session);
            1 <= f.counter <= |taken| && taken[f.counter - 1] == (f.message, f.box.text)
  {
    var e := Run(Init(role), steps);
    EveryRunTexts(role, steps, e.wire[k].session);
    assert FrameHolds(e.wire[k], e.wire[k].session, Sent(role, steps, e.wire[k].session));
    hide Run, Sent;
  }

  /** What the other end gets from a stream of frames it can open. */
  function Read(stream: seq<Frame>): seq<Message>
    requires forall k :: 0 <= k < |stream| ==> stream[k].Cipher?
  {
    if stream == [] then []
    else Read(stream[..|stream| - 1]) + [(stream[|stream| - 1].message, stream[|stream| - 1].box.text)]
  }

  lemma {:induction false} ReadAt(stream: seq<Frame>)
    requires forall k :: 0 <= k < |stream| ==> stream[k].Cipher?
    ensures |Read(stream)| == |stream|
    ensures forall k :: 0 <= k < |stream| ==> Read(stream)[k] == (stream[k].message, stream[k].box.text)
  {
    if stream != [] { ReadAt(stream[..|stream| - 1]); }
  }

  /**
   The other end, receiving a session in wire order, reads the first `n` frames as long as they open
   under its own nonces: what it reads is exactly the first `n` messages taken under the session, id and
   text, in order. So up to the first loss nothing is missing, added, changed or out of order.
   */
  lemma ReadsWhatWasTaken(role: Role, steps: seq<Step>, s: SessionId, n: nat)
    requires var stream := Stream(Run(Init(role), steps).wire, s);
             n <= |stream| && ReadsAll(stream[..n], s, 1)
    ensures var stream := Stream(Run(Init(role), steps).wire, s);
            && (forall k :: 0 <= k < n ==> stream[k].Cipher?)
            && n <= |Sent(role, steps, s)| && Read(stream[..n]) == Sent(role, steps, s)[..n]
  {
    var e, taken := Run(Init(role), steps), Sent(role, steps, s);
    var stream := Stream(e.wire, s);
    InitInv(role);
    EveryRun(Init(role), steps);
    EveryRunTexts(role, steps, s);
    hide Run, Sent, Inv, Stream;
    forall k | 0 <= k < n ensures stream[k].Cipher? && Holds(taken, k + 1, stream[k].message, stream[k].box.text) {
      assert Opens(stream[..n][k], s, 1 + k);
      StreamFrame(e, s, k);
      InWire(e, s, taken, stream[k]);
    }
    ReadAt(stream[..n]);
    if n > 0 { assert Holds(taken, n, stream[n - 1].message, stream[n - 1].box.text); }
    assert forall k :: 0 <= k < n ==> Read(stream[..n])[k] == taken[k];
  }

  lemma InWire(e: Endpoint, s: SessionId, taken: seq<Message>, f: Frame)
    requires Texts(e, s, taken) && f in e.wire && f.Cipher? && f.session == s
    ensures Holds(taken, f.counter, f.message, f.box.text)
  {
  }

  // ---- Ended links and dropped sessions ----

  lemma {:induction false} StreamMore(wire: seq<Frame>, f: Frame, s: SessionId)
    ensures Stream(wire + [f], s) == Stream(wire, s) + if f.Cipher? && f.session == s then [f] else []
  {
    if wire == [] {
      assert [f][1..] == [] && wire + [f] == [f];
      assert Stream([f], s) == (if f.Cipher? && f.session == s then [f] else []) + Stream([], s);
    } else {
      assert (wire + [f])[1..] == wire[1..] + [f];
      StreamMore(wire[1..], f, s);
    }
  }

  lemma EndedStep(e: Endpoint, step: Step, s: SessionId)
    requires s in e.ended
    ensures s in Apply(e, step).ended && Stream(Apply(e, step).wire, s) == Stream(e.wire, s)
  {
    if step.DoOpen? { StreamMore(e.wire, Handshake(step.session), s); }
    if step.DoHandOver? && e.sending.Sealed? { StreamMore(e.wire, e.sending.frame, s); }
    hide Stream;
  }

  lemma {:induction false} EndedRun(e: Endpoint, steps: seq<Step>, s: SessionId)
    requires s in e.ended
    ensures Stream(Run(e, steps).wire, s) == Stream(e.wire, s)
    decreases |steps|
  {
    if steps != [] {
      EndedStep(e, steps[0], s);
      hide Apply, Stream;
      EndedRun(Apply(e, steps[0]), steps[1..], s);
    }
  }

  /** Once the link of a session has ended, nothing more of the session is sent. */
  lemma EndedIsFinal(e: Endpoint, steps: seq<Step>, s: SessionId)
    ensures Stream(Run(Apply(e, DoEnd(s)), steps).wire, s) == Stream(e.wire, s)
  {
    EndedRun(Apply(e, DoEnd(s)), steps, s);
  }

  /** Once the session is dropped, no message is taken under any session until one is published. */
  lemma {:induction false} DroppedTakesNothing(e: Endpoint, steps: seq<Step>, s: SessionId)
    requires forall k :: 0 <= k < |steps| ==> !steps[k].DoPublish?
    ensures TakenUnder(Apply(e, DoDrop), steps, s) == []
    decreases |steps|
  {
    NoSessionTakesNothing(Apply(e, DoDrop), steps, s);
  }

  lemma {:induction false} NoSessionTakesNothing(e: Endpoint, steps: seq<Step>, s: SessionId)
    requires e.session.None? && forall k :: 0 <= k < |steps| ==> !steps[k].DoPublish?
    ensures TakenUnder(e, steps, s) == []
    decreases |steps|
  {
    if steps != [] {
      assert Apply(e, steps[0]).session.None?;
      hide Apply;
      NoSessionTakesNothing(Apply(e, steps[0]), steps[1..], s);
    }
  }
}
