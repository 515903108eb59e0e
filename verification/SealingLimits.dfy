/**
 What loses a message, and what a lost message costs: a frame over the payload limit of the wire, or
 one handed to a link that is gone, takes its nonce with it, and the rest of its session cannot be read.
 */
module SealingLimits {
  import Wire
  import opened SealingSpec
  import opened SealingProofs

  const LIMIT: nat := Wire.PayloadMax(Wire.FRAME_CIPHERTEXT)

  // ---- Messages within the limit ----

  /** Every message taken encodes within the limit, and none is handed to a link left over from before. */
  ghost predicate Clean(steps: seq<Step>) {
    forall k :: 0 <= k < |steps| ==> CleanStep(steps[k])
  }

  predicate CleanStep(step: Step) {
    (step.DoTake? ==> step.size <= LIMIT) && (step.DoHandOver? ==> !step.stale)
  }

  /** What is lost was lost with its link, after everything its session sent. */
  ghost predicate LostLast(e: Endpoint) {
    && (e.sending.Taken? ==> e.sending.size <= LIMIT)
    && (e.sending.Sealed? ==> e.sending.size <= LIMIT)
    && forall s, n: nat :: (s, n) in e.lost ==> s in e.ended && LastOf(e.wire, s, n)
  }

  ghost predicate LastOf(wire: seq<Frame>, s: SessionId, n: nat) {
    forall k :: 0 <= k < |wire| && wire[k].Cipher? && wire[k].session == s ==> wire[k].counter < n
  }

  lemma LastOfMore(wire: seq<Frame>, f: Frame, s: SessionId, n: nat)
    requires LastOf(wire, s, n) && !(f.Cipher? && f.session == s)
    ensures LastOf(wire + [f], s, n)
  {
  }

  lemma HandOverKeeps(e: Endpoint)
    requires Inv(e) && LostLast(e) && e.sending.Sealed? && e.sending.frame.Cipher?
    ensures LostLast(Apply(e, DoHandOver(false)))
  {
    var f := e.sending.frame;
    assert Passes(e, false) <==> f.session !in e.ended;
    assert LastOf(e.wire, f.session, f.counter) by {
      assert forall k :: 0 <= k < |e.wire| ==> Rises(e.wire[k], f);
    }
    assert f.box.nonce == f.counter;
    hide Inv, LastOf;
    if f.session !in e.ended {
      forall s, n: nat | (s, n) in e.lost ensures LastOf(e.wire + [f], s, n) {
        LastOfMore(e.wire, f, s, n);
      }
    }
  }

  lemma OpenKeeps(e: Endpoint, s: SessionId, sent: bool)
    requires LostLast(e)
    ensures LostLast(Open(e, s, sent))
  {
    hide LastOf;
    forall t, n: nat | (t, n) in e.lost ensures LastOf(e.wire + [Handshake(s)], t, n) {
      LastOfMore(e.wire, Handshake(s), t, n);
    }
  }

  lemma CleanKeeps(e: Endpoint, step: Step)
    requires Inv(e) && LostLast(e) && CleanStep(step)
    ensures LostLast(Apply(e, step))
  {
    match step
    case DoOpen(s, sent) => OpenKeeps(e, s, sent);
    case DoHandOver(stale) =>
      if e.sending.Sealed? && e.sending.frame.Cipher? { HandOverKeeps(e); }
    case _ => hide Inv, LastOf;
  }

  lemma {:induction false} CleanRun(e: Endpoint, steps: seq<Step>)
    requires Inv(e) && LostLast(e) && Clean(steps)
    ensures Inv(Run(e, steps)) && LostLast(Run(e, steps))
    decreases |steps|
  {
    if steps != [] {
      StepInv(e, steps[0]);
      CleanKeeps(e, steps[0]);
      hide Inv, LostLast, Apply, CleanStep;
      CleanRun(Apply(e, steps[0]), steps[1..]);
    }
  }

  /**
   While every message taken encodes within the limit and goes to its own link, the other end reads
   all that any session sent, however sessions and links come and go.
   */
  lemma WithinLimitReadsAll(role: Role, steps: seq<Step>, s: SessionId)
    requires Clean(steps)
    ensures ReadsAll(Stream(Run(Init(role), steps).wire, s), s, 1)
  {
    InitInv(role);
    CleanRun(Init(role), steps);
    hide Run, Inv, Clean;
    ReadableIff(Run(Init(role), steps), s);
  }

  // ---- One message decides ----

  function SendOne(message: MessageId, text: string, size: nat, stale: bool): seq<Step> {
    [DoTake(message, text, size), DoSeal, DoHandOver(stale)]
  }

  /** A live session with nobody sending. */
  ghost predicate Ready(e: Endpoint, s: SessionId) {
    Inv(e) && e.sending.Free? && e.session == Some(s) && s !in e.ended
  }

  ghost predicate SentOne(e: Endpoint, out: Endpoint, s: SessionId, passes: bool) {
    if passes then
      && |out.wire| == |e.wire| + 1 && out.wire[..|e.wire|] == e.wire && out.lost == e.lost
      && out.wire[|e.wire|].Cipher? && out.wire[|e.wire|].session == s && out.wire[|e.wire|].counter == e.counter
    else
      out.wire == e.wire && out.lost == e.lost + {(s, e.counter)}
  }

  lemma RunThree(e: Endpoint, a: Step, b: Step, c: Step)
    ensures Run(e, [a, b, c]) == Apply(Apply(Apply(e, a), b), c)
  {
    hide Apply;
    assert [a, b, c][1..] == [b, c] && [b, c][1..] == [c] && [c][1..] == [];
    var x := Apply(Apply(Apply(e, a), b), c);
    assert Run(x, []) == x;
    assert Run(Apply(Apply(e, a), b), [c]) == x;
    assert Run(Apply(e, a), [b, c]) == x;
  }

  lemma SendOneIs(e: Endpoint, s: SessionId, message: MessageId, text: string, size: nat, stale: bool)
    requires Ready(e, s)
    ensures var out := Run(e, SendOne(message, text, size, stale));
            Ready(out, s) && out.counter == e.counter + 1 && SentOne(e, out, s, size <= LIMIT && !stale)
  {
    var taken := Apply(e, DoTake(message, text, size));
    StepInv(e, DoTake(message, text, size));
    assert taken.sending == Taken(s, message, e.counter, text, size) && s in taken.nonces;
    var sealed := Apply(taken, DoSeal);
    StepInv(taken, DoSeal);
    assert sealed.sending.Sealed? && sealed.sending.frame.Cipher? && sealed.sending.frame.session == s;
    assert sealed.sending.frame.counter == e.counter == sealed.sending.frame.box.nonce;
    hide Inv;
    StepInv(sealed, DoHandOver(stale));
    RunThree(e, DoTake(message, text, size), DoSeal, DoHandOver(stale));
  }

  ghost predicate NothingLost(lost: set<(SessionId, nat)>, s: SessionId) {
    forall n: nat :: (s, n) !in lost
  }

  /** Once something of a session is sent, the session can be read exactly when it has lost nothing. */
  lemma SentSettles(e: Endpoint, out: Endpoint, s: SessionId)
    requires Ready(e, s) && Inv(out) && SentOne(e, out, s, true)
    ensures ReadsAll(Stream(out.wire, s), s, 1) <==> NothingLost(e.lost, s)
  {
    ReadableIff(out, s);
    var f := out.wire[|e.wire|];
    assert e.counter == e.nonces[s];
    forall n: nat | (s, n) in e.lost ensures n < f.counter {
      assert (s, n) in e.lost ==> 1 <= n < e.nonces[s];
    }
    hide Inv, ReadsAll, Stream;
  }

  /**
   In every reachable state with a live session: send one message and then one within the limit. The
   other end reads the whole session if and only if it had lost nothing before, the first message's
   frame is within the limit, and it was handed to the session's own link.
   */
  lemma OneMessageDecides(role: Role, steps: seq<Step>, s: SessionId,
                          message: MessageId, text: string, size: nat, stale: bool,
                          next: MessageId, nextText: string, nextSize: nat)
    requires var e := Run(Init(role), steps); e.sending.Free? && e.session == Some(s) && s !in e.ended
    requires nextSize <= LIMIT
    ensures var e := Run(Init(role), steps);
            var out := Run(Run(e, SendOne(message, text, size, stale)), SendOne(next, nextText, nextSize, false));
            ReadsAll(Stream(out.wire, s), s, 1) <==> NothingLost(e.lost, s) && size <= LIMIT && !stale
  {
    var e := Run(Init(role), steps);
    InitInv(role);
    EveryRun(Init(role), steps);
    hide Run, Inv, SendOne, ReadsAll, Stream;
    SendOneIs(e, s, message, text, size, stale);
    var mid := Run(e, SendOne(message, text, size, stale));
    SendOneIs(mid, s, next, nextText, nextSize, false);
    var out := Run(mid, SendOne(next, nextText, nextSize, false));
    SentSettles(mid, out, s);
    assert (s, e.counter) in mid.lost || mid.lost == e.lost;
  }

  /** For one: a first message over the limit, and the second cannot be read. */
  lemma OverLimitUnreadable(role: Role, size: nat)
    ensures var e := Run(Init(role), [DoOpen(0, true), DoPublish(0)]);
            var out := Run(Run(e, SendOne("m-1", "first", size, false)), SendOne("m-2", "second", 1, false));
            ReadsAll(Stream(out.wire, 0), 0, 1) <==> size <= LIMIT
  {
    var steps := [DoOpen(0, true), DoPublish(0)];
    var e := Run(Init(role), steps);
    assert steps[1..] == [DoPublish(0)] && steps[1..][1..] == [];
    assert e.sending.Free? && e.session == Some(0) && e.ended == {} && e.lost == {};
    hide Run, SendOne, ReadsAll, Stream;
    OneMessageDecides(role, steps, 0, "m-1", "first", size, false, "m-2", "second", 1);
  }
}
