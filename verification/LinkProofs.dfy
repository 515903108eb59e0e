/**
 Backpressure of the paced writer: the byte count is exact and bounded, data frames keep their
 order, and no parked sender is ever left without something that will wake it.
 */
module LinkProofs {
  import opened Wire
  import opened LinkSpec

  // ---- Sums ----

  function Size(frames: seq<Bytes>): nat {
    if frames == [] then 0 else |frames[0]| + Size(frames[1..])
  }

  lemma {:induction false} SizeAppend(frames: seq<Bytes>, frame: Bytes)
    ensures Size(frames + [frame]) == Size(frames) + |frame|
  {
    if frames == [] {
      assert [] + [frame] == [frame] && [frame][1..] == [];
    } else {
      SizeAppend(frames[1..], frame);
      assert (frames + [frame])[1..] == frames[1..] + [frame];
    }
  }

  /** The bytes sender s has reserved and not yet entered. */
  function Held(s: Sender): nat {
    if s.place.Entering? && !IsControl(s.frame) then |s.frame| else 0
  }

  function Total(senders: seq<Sender>, weight: Sender -> nat): nat {
    if senders == [] then 0 else weight(senders[0]) + Total(senders[1..], weight)
  }

  lemma {:induction false} TotalUpdate(senders: seq<Sender>, i: nat, s: Sender, weight: Sender -> nat)
    requires i < |senders|
    ensures Total(senders[i := s], weight) == Total(senders, weight) - weight(senders[i]) + weight(s)
    ensures weight(senders[i]) <= Total(senders, weight)
  {
    if i == 0 {
      assert senders[0 := s][1..] == senders[1..];
    } else {
      TotalUpdate(senders[1..], i - 1, s, weight);
      assert senders[i := s][1..] == senders[1..][i - 1 := s];
    }
  }

  lemma {:induction false} TotalAppend(senders: seq<Sender>, s: Sender, weight: Sender -> nat)
    ensures Total(senders + [s], weight) == Total(senders, weight) + weight(s)
  {
    if senders == [] {
      assert [] + [s] == [s] && [s][1..] == [];
    } else {
      TotalAppend(senders[1..], s, weight);
      assert (senders + [s])[1..] == senders[1..] + [s];
    }
  }

  // ---- The invariant ----

  /** The bytes of the data frame the writer has taken and not yet accounted. */
  function InHand(w: Writer): nat {
    match w
    case Writing(frame, data) => if data then |frame| else 0
    case Accounting(frame) => |frame|
    case _ => 0
  }

  /** Reserved and not yet accounted as written. */
  function Outstanding(l: Link): nat {
    Total(l.senders, Held) + Size(l.data) + InHand(l.writer)
  }

  /** What the link took down with it stays reserved. */
  ghost predicate Counted(l: Link) {
    l.queuedBytes == Outstanding(l) + Size(l.abandoned) && (l.abandoned != [] ==> l.done)
  }

  ghost predicate FramesEncoded(senders: seq<Sender>) {
    forall i :: 0 <= i < |senders| ==> Encoded(senders[i].frame)
  }

  ghost predicate PlacesRight(senders: seq<Sender>) {
    forall i :: 0 <= i < |senders| && (senders[i].place.Checking? || senders[i].place.Parked?) ==>
        !IsControl(senders[i].frame)
  }

  ghost predicate InOrder(l: Link) {
    l.entered == l.left + l.data
  }

  ghost predicate SomeAt(senders: seq<Sender>, place: Place) {
    exists i :: 0 <= i < |senders| && senders[i].place == place
  }

  /** Whoever is parked will hear: bytes are out, a token is there or coming, or somebody has just taken it. */
  ghost predicate Heard(l: Link) {
    SomeAt(l.senders, Parked) && !l.done ==>
      l.queuedBytes > 0 || l.drained || l.writer.Posting? || SomeAt(l.senders, Checking)
  }

  ghost predicate Queues(l: Link) {
    |l.control| <= MAX_QUEUED_FRAMES && |l.data| <= MAX_QUEUED_FRAMES && 0 <= l.queuedBytes <= MAX_QUEUED_BYTES
  }

  ghost predicate Inv(l: Link) {
    && Counted(l) && Queues(l) && InOrder(l) && Heard(l)
    && FramesEncoded(l.senders) && PlacesRight(l.senders)
    && (l.writer.Ended? ==> l.done)
  }

  lemma MovedTotal(l: Link, i: nat, place: Place)
    requires i < |l.senders|
    ensures Total(Move(l, i, place).senders, Held) ==
            Total(l.senders, Held) - Held(l.senders[i]) + Held(l.senders[i].(place := place))
    ensures Held(l.senders[i]) <= Total(l.senders, Held)
  {
    TotalUpdate(l.senders, i, l.senders[i].(place := place), Held);
  }

  lemma MovedFrames(l: Link, i: nat, place: Place)
    requires i < |l.senders| && FramesEncoded(l.senders) && PlacesRight(l.senders)
    requires (place.Checking? || place.Parked?) ==> !IsControl(l.senders[i].frame)
    ensures FramesEncoded(Move(l, i, place).senders) && PlacesRight(Move(l, i, place).senders)
  {
    hide IsControl, Encoded;
  }

  /** Who is parked or checking after a move. */
  lemma MovedPlaces(l: Link, i: nat, place: Place, other: Place)
    requires i < |l.senders|
    ensures var after := Move(l, i, place).senders;
            && (SomeAt(after, other) ==> place == other || SomeAt(l.senders, other))
            && (place == other ==> SomeAt(after, other))
            && (SomeAt(l.senders, other) && l.senders[i].place != other ==> SomeAt(after, other))
  {
    var after := Move(l, i, place).senders;
    if SomeAt(after, other) && place != other {
      var k :| 0 <= k < |after| && after[k].place == other;
      assert l.senders[k].place == other;
    }
    if place == other { assert after[i].place == other; }
    if SomeAt(l.senders, other) && l.senders[i].place != other {
      var k :| 0 <= k < |l.senders| && l.senders[k].place == other;
      assert after[k].place == other;
    }
  }

  lemma BeginInv(l: Link, frame: Bytes)
    requires Inv(l) && Encoded(frame)
    ensures Inv(Apply(l, DoBegin(frame)))
  {
    var s := Sender(frame, if IsControl(frame) then Entering else Checking);
    TotalAppend(l.senders, s, Held);
    var after := l.senders + [s];
    if SomeAt(after, Parked) {
      var k :| 0 <= k < |after| && after[k].place == Parked;
      assert l.senders[k].place == Parked;
    }
    if SomeAt(l.senders, Checking) {
      var k :| 0 <= k < |l.senders| && l.senders[k].place == Checking;
      assert after[k].place == Checking;
    }
    assert FramesEncoded(after) && PlacesRight(after);
    hide FramesEncoded, PlacesRight, SomeAt, Total, Encoded, IsControl;
  }

  lemma CheckInv(l: Link, i: nat)
    requires Inv(l) && At(l, i, Checking)
    ensures Inv(Check(l, i))
  {
    var frame := l.senders[i].frame;
    assert !IsControl(frame) && Encoded(frame);
    var place := if Fits(l.queuedBytes, frame) then Entering else Parked;
    MovedTotal(l, i, place);
    MovedFrames(l, i, place);
    MovedPlaces(l, i, place, Parked);
    MovedPlaces(l, i, place, Checking);
    assert Held(l.senders[i]) == 0;
    assert Held(l.senders[i].(place := place)) == if Fits(l.queuedBytes, frame) then |frame| else 0;
    hide FramesEncoded, PlacesRight, SomeAt, Total, Held, IsControl;
  }

  lemma TokenInv(l: Link, i: nat)
    requires Inv(l) && At(l, i, Parked)
    ensures Inv(Move(l.(drained := false), i, Checking))
  {
    MovedTotal(l, i, Checking);
    MovedFrames(l, i, Checking);
    MovedPlaces(l, i, Checking, Checking);
    hide FramesEncoded, PlacesRight, SomeAt, Total, IsControl;
  }

  lemma EnterInv(l: Link, i: nat)
    requires Inv(l) && At(l, i, Entering)
    ensures Inv(Enter(l, i))
  {
    if IsControl(l.senders[i].frame) { EnterControlInv(l, i); } else { EnterDataInv(l, i); }
  }

  lemma EnterControlInv(l: Link, i: nat)
    requires Inv(l) && At(l, i, Entering) && IsControl(l.senders[i].frame)
    ensures Inv(Enter(l, i))
  {
    MovedTotal(l, i, Sent);
    MovedFrames(l, i, Sent);
    MovedPlaces(l, i, Sent, Parked);
    MovedPlaces(l, i, Sent, Checking);
    assert Held(l.senders[i]) == 0 && Held(l.senders[i].(place := Sent)) == 0;
    hide FramesEncoded, PlacesRight, SomeAt, Total, Held, Size, IsControl;
  }

  lemma EnterDataInv(l: Link, i: nat)
    requires Inv(l) && At(l, i, Entering) && !IsControl(l.senders[i].frame)
    ensures Inv(Enter(l, i))
  {
    var frame := l.senders[i].frame;
    MovedTotal(l, i, Sent);
    MovedFrames(l, i, Sent);
    MovedPlaces(l, i, Sent, Parked);
    MovedPlaces(l, i, Sent, Checking);
    SizeAppend(l.data, frame);
    assert Held(l.senders[i]) == |frame| && Held(l.senders[i].(place := Sent)) == 0;
    assert (l.left + l.data) + [frame] == l.left + (l.data + [frame]);
    hide FramesEncoded, PlacesRight, SomeAt, Total, Held, Size, IsControl;
  }

  lemma GiveUpInv(l: Link, i: nat)
    requires Inv(l) && l.done && (At(l, i, Parked) || At(l, i, Entering))
    ensures Inv(GiveUp(l, i))
  {
    MovedTotal(l, i, Failed);
    MovedFrames(l, i, Failed);
    SizeAppend(l.abandoned, l.senders[i].frame);
    hide FramesEncoded, PlacesRight, SomeAt, Total, Size, IsControl;
  }

  lemma WriterInv(l: Link, step: Step)
    requires Inv(l)
    requires step in {DoPick, DoTakeControl, DoTakeData, DoWritten, DoWriteError, DoAccount, DoPost, DoPace, DoStop,
             DoEnd}
    ensures Inv(Apply(l, step))
  {
    hide FramesEncoded, PlacesRight, SomeAt, Total;
    if step.DoTakeData? {
      if l.writer.Choosing? && l.data != [] { TakeDataInv(l); }
    } else {
      if l.writer.Writing? { SizeAppend(l.abandoned, l.writer.frame); }
      hide Size;
    }
  }

  lemma TakeDataInv(l: Link)
    requires Inv(l) && l.writer.Choosing? && l.data != []
    ensures Inv(TakeData(l))
  {
    assert Size(l.data) == |l.data[0]| + Size(l.data[1..]);
    assert l.left + l.data == (l.left + [l.data[0]]) + l.data[1..];
    hide FramesEncoded, PlacesRight, SomeAt, Total, Size;
  }

  lemma StepInv(l: Link, step: Step)
    requires Inv(l) && (step.DoBegin? ==> Encoded(step.frame))
    ensures Inv(Apply(l, step))
  {
    hide Inv, Check, Enter, GiveUp, Move, IsControl, Encoded;
    match step
    case DoBegin(frame) => BeginInv(l, frame);
    case DoCheck(i) => if At(l, i, Checking) { CheckInv(l, i); }
    case DoToken(i) => if At(l, i, Parked) && l.drained { TokenInv(l, i); }
    case DoEnter(i) => if At(l, i, Entering) { EnterInv(l, i); }
    case DoGiveUp(i) => if l.done && (At(l, i, Parked) || At(l, i, Entering)) { GiveUpInv(l, i); }
    case _ => WriterInv(l, step);
  }

  lemma {:induction false} EveryRun(l: Link, steps: seq<Step>)
    requires Inv(l) && AllEncoded(steps)
    ensures Inv(Run(l, steps))
    decreases |steps|
  {
    hide Inv, Apply, Encoded;
    if steps != [] {
      StepInv(l, steps[0]);
      EveryRun(Apply(l, steps[0]), steps[1..]);
    }
  }

  /**
   In every reachable state the byte count is exactly the bytes reserved and not yet accounted as
   written, those of frames the link took down with it included; it is within 16 MiB, and data
   frames have left in the order they entered.
   */
  lemma Backpressure(steps: seq<Step>)
    requires AllEncoded(steps)
    ensures var l := Run(INIT, steps);
            && l.queuedBytes == Outstanding(l) + Size(l.abandoned)
            && (l.abandoned != [] ==> l.done)
            && 0 <= l.queuedBytes <= 16 * 1024 * 1024
            && l.left <= l.entered && l.entered == l.left + l.data
  {
    InitInv();
    EveryRun(INIT, steps);
  }

  lemma InitInv()
    ensures Inv(INIT)
  {
  }

  /** A parked sender of a live link has a frame out, a token, the writer about to post one, or somebody holding it. */
  lemma NobodyForgotten(steps: seq<Step>)
    requires AllEncoded(steps)
    ensures var l := Run(INIT, steps);
            SomeAt(l.senders, Parked) && !l.done ==>
              Outstanding(l) > 0 || l.drained || l.writer.Posting? || SomeAt(l.senders, Checking)
  {
    InitInv();
    EveryRun(INIT, steps);
  }
}
