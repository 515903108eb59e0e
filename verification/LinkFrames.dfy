/**
 Every frame handed to the paced writer, control and data alike: what was entered, taken and written,
 and how long a control frame may be kept waiting.
 */
module LinkFrames {
  import opened Wire
  import opened LinkSpec
  import LinkProofs
  import LinkProgress

  // ---- Who has sent what ----

  /** A sender's frame, once its Send has returned, in the account of its kind. */
  function SentFrame(s: Sender, control: bool): multiset<Bytes> {
    if s.place.Sent? && IsControl(s.frame) == control then multiset{s.frame} else multiset{}
  }

  function SentFrames(senders: seq<Sender>, control: bool): multiset<Bytes> {
    if senders == [] then multiset{}
    else SentFrames(senders[..|senders| - 1], control) + SentFrame(senders[|senders| - 1], control)
  }

  lemma {:induction false} SentMoved(senders: seq<Sender>, i: nat, place: Place, control: bool)
    requires i < |senders| && !senders[i].place.Sent?
    ensures SentFrames(senders[i := senders[i].(place := place)], control) ==
            SentFrames(senders, control) + SentFrame(senders[i].(place := place), control)
  {
    hide *;
    var moved, n := senders[i := senders[i].(place := place)], |senders| - 1;
    SentStep(moved, control);
    SentStep(senders, control);
    NotSent(senders[i], control);
    if i < n {
      MovedFront(senders, i, senders[i].(place := place));
      SentMoved(senders[..n], i, place, control);
      Swap(SentFrames(senders[..n], control), SentFrame(senders[i].(place := place), control),
          SentFrame(senders[n], control));
    } else {
      assert moved[..n] == senders[..n];
      AddNothing(SentFrames(senders[..n], control));
    }
  }

  lemma MovedFront(senders: seq<Sender>, i: nat, s: Sender)
    requires i < |senders| - 1
    ensures var n := |senders| - 1;
            senders[i := s][..n] == senders[..n][i := s] && senders[i := s][n] == senders[n]
                && senders[..n][i] == senders[i]
  {
  }

  lemma NotSent(s: Sender, control: bool)
    requires !s.place.Sent?
    ensures SentFrame(s, control) == multiset{}
  {
  }

  lemma AddNothing<T>(a: multiset<T>)
    ensures a + multiset{} == a
  {
  }

  lemma SentStep(senders: seq<Sender>, control: bool)
    requires senders != []
    ensures var n := |senders| - 1;
            SentFrames(senders, control) == SentFrames(senders[..n], control) + SentFrame(senders[n], control)
  {
  }

  lemma Swap<T>(a: multiset<T>, b: multiset<T>, c: multiset<T>)
    ensures a + b + c == a + c + b
  {
  }

  lemma SentLonger(senders: seq<Sender>, s: Sender, control: bool)
    ensures SentFrames(senders + [s], control) == SentFrames(senders, control) + SentFrame(s, control)
  {
    assert (senders + [s])[..|senders|] == senders;
  }

  /** The frames written, of one kind, in order. */
  function WrittenOf(written: seq<Out>, data: bool): seq<Bytes> {
    if written == [] then []
    else
      var o := written[|written| - 1];
      WrittenOf(written[..|written| - 1], data) + if o.data == data then [o.frame] else []
  }

  lemma WrittenMore(written: seq<Out>, o: Out, data: bool)
    ensures WrittenOf(written + [o], data) == WrittenOf(written, data) + if o.data == data then [o.frame] else []
  {
    assert (written + [o])[..|written|] == written;
  }

  // ---- The accounts ----

  /** Frames leave a queue in the order they entered it, and none is dropped on the way. */
  ghost predicate InLine(entered: seq<Bytes>, left: seq<Bytes>, queue: seq<Bytes>) {
    entered == left + queue
  }

  /** What was entered is exactly what the senders that returned have handed over. */
  ghost predicate HandedBy(entered: seq<Bytes>, senders: seq<Sender>, control: bool) {
    multiset(entered) == SentFrames(senders, control)
  }

  /** What was written is what was taken, but for the frame in hand or the one the link ended on. */
  ghost predicate Written(taken: seq<Bytes>, written: seq<Bytes>, writer: Writer, data: bool) {
    match writer
    case Writing(frame, d) => taken == written + if d == data then [frame] else []
    case Ended => written <= taken && |taken| <= |written| + 1
    case _ => taken == written
  }

  ghost predicate Accounts(l: Link) {
    && InLine(l.entered, l.left, l.data) && InLine(l.enteredControl, l.leftControl, l.control)
    && HandedBy(l.entered, l.senders, false) && HandedBy(l.enteredControl, l.senders, true)
    && Written(l.left, WrittenOf(l.written, true), l.writer, true)
    && Written(l.leftControl, WrittenOf(l.written, false), l.writer, false)
  }

  lemma InLineAdd(entered: seq<Bytes>, left: seq<Bytes>, queue: seq<Bytes>, frame: Bytes)
    requires InLine(entered, left, queue)
    ensures InLine(entered + [frame], left, queue + [frame])
  {
    assert (left + queue) + [frame] == left + (queue + [frame]);
  }

  lemma InLineTake(entered: seq<Bytes>, left: seq<Bytes>, queue: seq<Bytes>)
    requires InLine(entered, left, queue) && queue != []
    ensures InLine(entered, left + [queue[0]], queue[1..])
  {
    assert left + queue == (left + [queue[0]]) + queue[1..];
  }

  /** A sender moves on: its frame is accounted exactly when it has been entered. */
  lemma HandedMoved(entered: seq<Bytes>, senders: seq<Sender>, i: nat, place: Place, control: bool)
    requires HandedBy(entered, senders, control) && i < |senders| && !senders[i].place.Sent?
    ensures var moved := senders[i := senders[i].(place := place)];
            if place.Sent? && IsControl(senders[i].frame) == control
                then HandedBy(entered + [senders[i].frame], moved, control)
            else HandedBy(entered, moved, control)
  {
    SentMoved(senders, i, place, control);
    hide SentFrames, IsControl;
  }

  lemma HandedLonger(entered: seq<Bytes>, senders: seq<Sender>, s: Sender, control: bool)
    requires HandedBy(entered, senders, control) && !s.place.Sent?
    ensures HandedBy(entered, senders + [s], control)
  {
    SentLonger(senders, s, control);
    hide SentFrames, IsControl;
  }

  lemma EnterAccounts(l: Link, i: nat)
    requires Accounts(l) && At(l, i, Entering)
    ensures Accounts(Enter(l, i))
  {
    var frame := l.senders[i].frame;
    hide IsControl, InLine, HandedBy, Written, WrittenOf;
    HandedMoved(l.entered, l.senders, i, Sent, false);
    HandedMoved(l.enteredControl, l.senders, i, Sent, true);
    InLineAdd(l.entered, l.left, l.data, frame);
    InLineAdd(l.enteredControl, l.leftControl, l.control, frame);
  }

  /** A sender that does not enter a frame changes nothing of the accounts. */
  lemma MoveAccounts(l: Link, i: nat, place: Place)
    requires Accounts(l) && i < |l.senders| && !l.senders[i].place.Sent? && !place.Sent?
    ensures Accounts(Move(l, i, place))
  {
    hide IsControl, InLine, HandedBy, Written, WrittenOf;
    HandedMoved(l.entered, l.senders, i, place, false);
    HandedMoved(l.enteredControl, l.senders, i, place, true);
  }

  lemma BeginAccounts(l: Link, frame: Bytes)
    requires Accounts(l)
    ensures Accounts(Apply(l, DoBegin(frame)))
  {
    hide IsControl, InLine, HandedBy, Written, WrittenOf;
    var s := Sender(frame, if IsControl(frame) then Entering else Checking);
    HandedLonger(l.entered, l.senders, s, false);
    HandedLonger(l.enteredControl, l.senders, s, true);
  }

  lemma TakeControlAccounts(l: Link)
    requires Accounts(l) && (l.writer.Picking? || l.writer.Choosing?) && l.control != []
    ensures Accounts(TakeControl(l))
  {
    InLineTake(l.enteredControl, l.leftControl, l.control);
    TakenInHand(l.left, WrittenOf(l.written, true), l.writer, l.control[0], false, true);
    TakenInHand(l.leftControl, WrittenOf(l.written, false), l.writer, l.control[0], false, false);
    hide InLine, HandedBy, Written, WrittenOf;
  }

  lemma TakeDataAccounts(l: Link)
    requires Accounts(l) && l.writer.Choosing? && l.data != []
    ensures Accounts(TakeData(l))
  {
    InLineTake(l.entered, l.left, l.data);
    TakenInHand(l.left, WrittenOf(l.written, true), l.writer, l.data[0], true, true);
    TakenInHand(l.leftControl, WrittenOf(l.written, false), l.writer, l.data[0], true, false);
    hide InLine, HandedBy, Written, WrittenOf;
  }

  lemma TakenInHand(taken: seq<Bytes>, written: seq<Bytes>, writer: Writer, frame: Bytes, kind: bool, data: bool)
    requires Written(taken, written, writer, data) && (writer.Picking? || writer.Choosing?)
    ensures Written(if kind == data then taken + [frame] else taken, written, Writing(frame, kind), data)
  {
    assert taken + [] == taken;
  }

  lemma WrittenAccounts(l: Link)
    requires Accounts(l) && l.writer.Writing?
    ensures Accounts(LinkSpec.Written(l)) && Accounts(FailWrite(l))
  {
    HandedOn(l, true);
    HandedOn(l, false);
    hide InLine, HandedBy, Written, WrittenOf;
  }

  lemma HandedOn(l: Link, data: bool)
    requires l.writer.Writing?
    requires Written(if data then l.left else l.leftControl, WrittenOf(l.written, data), l.writer, data)
    ensures var taken, out := if data then l.left else l.leftControl, LinkSpec.Written(l);
            && Written(taken, WrittenOf(out.written, data), out.writer, data)
            && Written(taken, WrittenOf(l.written, data), Ended, data)
  {
    WrittenMore(l.written, Out(l.writer.frame, l.writer.data), data);
    hide WrittenOf;
  }

  lemma StepAccounts(l: Link, step: Step)
    requires Accounts(l)
    ensures Accounts(Apply(l, step))
  {
    hide IsControl, InLine, HandedBy, WrittenOf, Enter, TakeControl, TakeData, LinkSpec.Written, FailWrite, Fits;
    match step
    case DoBegin(frame) => BeginAccounts(l, frame);
    case DoCheck(i) =>
      if At(l, i, Checking) {
        MoveAccounts(l, i, Entering);
        MoveAccounts(l, i, Parked);
      }
    case DoToken(i) => if At(l, i, Parked) { MoveAccounts(l, i, Checking); }
    case DoEnter(i) => if At(l, i, Entering) { EnterAccounts(l, i); }
    case DoGiveUp(i) => if At(l, i, Parked) || At(l, i, Entering) { MoveAccounts(l, i, Failed); }
    case DoPick => if l.writer.Picking? && l.control != [] { TakeControlAccounts(l); }
    case DoTakeControl => if l.writer.Choosing? && l.control != [] { TakeControlAccounts(l); }
    case DoTakeData => if l.writer.Choosing? && l.data != [] { TakeDataAccounts(l); }
    case DoWritten => if l.writer.Writing? { WrittenAccounts(l); }
    case DoWriteError => if l.writer.Writing? { WrittenAccounts(l); }
    case DoAccount =>
    case DoPost =>
    case DoPace =>
    case DoStop =>
    case DoEnd =>
  }

  lemma InitAccounts()
    ensures Accounts(INIT)
  {
  }

  lemma {:induction false} RunAccounts(l: Link, steps: seq<Step>)
    requires Accounts(l)
    ensures Accounts(Run(l, steps))
    decreases |steps|
  {
    if steps != [] {
      hide Accounts, Apply;
      StepAccounts(l, steps[0]);
      RunAccounts(Apply(l, steps[0]), steps[1..]);
    }
  }

  /**
   In every reachable state, for data and control frames alike: what has entered a queue is exactly
   what the senders that returned handed over, each in the queue of its kind; it leaves in the order it
   entered; and what the connection was given is what left, but for the one frame in hand.
   */
  lemma EveryFrameAccounted(steps: seq<Step>)
    ensures var l := Run(INIT, steps);
            && multiset(l.entered) == SentFrames(l.senders, false)
            && multiset(l.enteredControl) == SentFrames(l.senders, true)
            && l.entered == l.left + l.data && l.enteredControl == l.leftControl + l.control
            && (!l.writer.Writing? && !l.writer.Ended? ==>
                  l.left == WrittenOf(l.written, true) && l.leftControl == WrittenOf(l.written, false))
            && WrittenOf(l.written, true) <= l.left && WrittenOf(l.written, false) <= l.leftControl
  {
    InitAccounts();
    RunAccounts(INIT, steps);
    hide Run, SentFrames, WrittenOf;
  }

  // ---- Control frames first ----

  /** The data frames the writer may still take before it looks at the control queue again. */
  function Ahead(l: Link): nat { if l.writer.Choosing? then 1 else 0 }

  lemma StepAhead(l: Link, step: Step)
    requires l.control != []
    ensures var next := Apply(l, step); |next.left| + Ahead(next) <= |l.left| + Ahead(l)
  {
    hide IsControl;
  }

  /**
   While a control frame waits, the writer takes at most one data frame, and none unless it was already
   in its inner select.
   */
  lemma {:induction false} ControlGoesFirst(l: Link, steps: seq<Step>)
    requires forall k :: 0 <= k < |steps| ==> Run(l, steps[..k]).control != []
    ensures |Run(l, steps).left| <= |l.left| + (if l.writer.Choosing? then 1 else 0)
    decreases |steps|
  {
    AheadAlong(l, steps);
  }

  lemma {:induction false} AheadAlong(l: Link, steps: seq<Step>)
    requires forall k :: 0 <= k < |steps| ==> Run(l, steps[..k]).control != []
    ensures |Run(l, steps).left| + Ahead(Run(l, steps)) <= |l.left| + Ahead(l)
    decreases |steps|
  {
    if steps != [] {
      assert steps[..0] == [] && Run(l, steps[..0]) == l;
      StepAhead(l, steps[0]);
      var next, rest := Apply(l, steps[0]), steps[1..];
      forall k | 0 <= k < |rest| ensures Run(next, rest[..k]).control != [] {
        assert steps[..k + 1][1..] == rest[..k] && steps[..k + 1][0] == steps[0];
        assert Run(l, steps[..k + 1]).control != [];
      }
      hide Apply, Ahead;
      AheadAlong(next, rest);
    }
  }

  // ---- Everything entered can be written ----

  function Work(l: Link): nat { 6 * (|l.control| + |l.data|) + LinkProgress.Rank(l.writer) }

  lemma WriterWorks(l: Link)
    requires LinkProofs.Inv(l) && !l.done && !LinkProgress.Idle(l)
    ensures var step := LinkProgress.WriterStep(l);
            var next := Apply(l, step);
            && LinkProgress.Inside(step) && LinkProofs.Inv(next) && !next.done && Work(next) < Work(l)
            && next.entered == l.entered && next.enteredControl == l.enteredControl
  {
    LinkProofs.StepInv(l, LinkProgress.WriterStep(l));
    assert !l.writer.Ended?;
    hide LinkProofs.Inv;
  }

  lemma {:induction false} WriteOut(l: Link) returns (more: seq<Step>)
    requires LinkProofs.Inv(l) && !l.done
    ensures LinkProgress.AllInside(more)
    ensures var out := Run(l, more);
            LinkProgress.Idle(out) && out.entered == l.entered && out.enteredControl == l.enteredControl
    decreases Work(l)
  {
    hide LinkProofs.Inv, Apply, Work;
    if LinkProgress.Idle(l) {
      more := [];
    } else {
      WriterWorks(l);
      var step := LinkProgress.WriterStep(l);
      var rest := WriteOut(Apply(l, step));
      more := [step] + rest;
      assert more[1..] == rest;
    }
  }

  lemma {:induction false} RunBoth(l: Link, a: seq<Step>, b: seq<Step>)
    ensures Run(l, a + b) == Run(Run(l, a), b)
    decreases |a|
  {
    hide Apply;
    if a == [] {
      assert a + b == b;
    } else {
      assert (a + b)[1..] == a[1..] + b;
      RunBoth(Apply(l, a[0]), a[1..], b);
    }
  }

  /**
   From every reachable state of a live link the writer, by itself, can write every frame that has
   entered either queue, each kind in the order it entered.
   */
  lemma EveryFrameCanBeWritten(steps: seq<Step>)
    requires AllEncoded(steps) && !Run(INIT, steps).done
    ensures var l := Run(INIT, steps);
            exists more :: LinkProgress.AllInside(more)
              && WrittenOf(Run(l, more).written, true) == l.entered
              && WrittenOf(Run(l, more).written, false) == l.enteredControl
  {
    var l := Run(INIT, steps);
    LinkProofs.InitInv();
    LinkProofs.EveryRun(INIT, steps);
    hide LinkProofs.Inv, LinkProgress.AllInside, SentFrames, WrittenOf;
    var more := WriteOut(l);
    RunBoth(INIT, steps, more);
    EveryFrameAccounted(steps + more);
    hide Run;
    var out := Run(l, more);
    assert out.left + [] == out.left && out.leftControl + [] == out.leftControl;
  }

  /**
   In every reachable state a sender that looks goes on exactly when nothing is reserved, or its frame
   and all that is reserved are within 16 MiB; and a sender that goes on has sent exactly when the queue
   of its kind, acknowledgements and pongs being control frames, holds fewer than 2048 frames.
   */
  lemma AdmittedExactly(steps: seq<Step>, i: nat)
    requires AllEncoded(steps) && i < |Run(INIT, steps).senders|
    ensures var l := Run(INIT, steps);
            var s, reserved := l.senders[i], LinkProofs.Outstanding(l) + LinkProofs.Size(l.abandoned);
            var control := |s.frame| > 1 && (s.frame[1] == 0x21 || s.frame[1] == 0x41);
            && (s.place.Checking? ==>
                  Apply(l, DoCheck(i)).senders[i].place ==
                  if reserved == 0 || reserved + |s.frame| <= 16 * 1024 * 1024 then Entering else Parked)
            && (s.place.Entering? ==>
                  (Apply(l, DoEnter(i)).senders[i].place.Sent? <==>
                   |if control then l.control else l.data| < 2048))
  {
    LinkProofs.Backpressure(steps);
    hide Run, LinkProofs.Outstanding, LinkProofs.Size;
  }
}
