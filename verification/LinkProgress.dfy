/**
 No parked sender of a live link is stuck: from every reachable state the writer and the senders
 already there can get its frame into the queue, without a new sender and without the link ending.
 */
module LinkProgress {
  import opened Wire
  import opened LinkSpec
  import opened LinkProofs

  /** What is left for a sender that is past its wait. */
  function Weight(s: Sender): nat {
    match s.place
    case Checking => 8
    case Entering => 7
    case _ => 0
  }

  function Rank(w: Writer): nat {
    match w
    case Writing(_, _) => 5
    case Accounting(_) => 4
    case Posting => 3
    case Pacing => 2
    case Picking => 1
    case _ => 0
  }

  function Potential(l: Link, i: nat): nat
    requires i < |l.senders|
  {
    Total(l.senders, Weight) + (if l.senders[i].place.Parked? then 9 else 0)
      + 6 * (|l.control| + |l.data|) + Rank(l.writer)
  }

  /** Steps of the writer and of senders already there, on a link that does not fail. */
  predicate Inside(step: Step) {
    !step.DoBegin? && !step.DoGiveUp? && !step.DoWriteError? && !step.DoStop? && !step.DoEnd?
  }

  ghost predicate AllInside(steps: seq<Step>) {
    forall k :: 0 <= k < |steps| ==> Inside(steps[k])
  }

  ghost predicate Underway(l: Link, i: nat) {
    Inv(l) && !l.done && i < |l.senders| && !l.senders[i].place.Failed?
  }

  lemma MovedWeight(l: Link, k: nat, place: Place)
    requires k < |l.senders|
    ensures Total(Move(l, k, place).senders, Weight) ==
            Total(l.senders, Weight) - Weight(l.senders[k]) + Weight(l.senders[k].(place := place))
    ensures Weight(l.senders[k]) <= Total(l.senders, Weight)
  {
    TotalUpdate(l.senders, k, l.senders[k].(place := place), Weight);
  }

  /** With nobody entering, nothing queued and nothing in hand, every byte has been accounted. */
  lemma {:induction false} NobodyEntering(senders: seq<Sender>)
    requires !SomeAt(senders, Entering)
    ensures Total(senders, Held) == 0
  {
    if senders != [] {
      assert senders[0].place != Entering;
      assert forall k :: 0 <= k < |senders[1..]| ==> senders[1..][k] == senders[k + 1];
      NobodyEntering(senders[1..]);
    }
  }

  /** The writer's own next step, unless it has nothing to take. */
  function WriterStep(l: Link): Step {
    match l.writer
    case Writing(_, _) => DoWritten
    case Accounting(_) => DoAccount
    case Posting => DoPost
    case Pacing => DoPace
    case Picking => DoPick
    case _ => if l.control != [] then DoTakeControl else DoTakeData
  }

  predicate Idle(l: Link) {
    l.writer.Choosing? && l.control == [] && l.data == []
  }

  lemma WriterMoves(l: Link, i: nat)
    requires Underway(l, i) && !Idle(l)
    ensures var next := Apply(l, WriterStep(l));
            Underway(next, i) && Potential(next, i) < Potential(l, i) && next.senders == l.senders
  {
    StepInv(l, WriterStep(l));
    hide Inv, Total;
  }

  lemma EnteringMoves(l: Link, i: nat, k: nat)
    requires Underway(l, i) && Idle(l) && At(l, k, Entering)
    ensures var next := Apply(l, DoEnter(k)); Underway(next, i) && Potential(next, i) < Potential(l, i)
  {
    StepInv(l, DoEnter(k));
    MovedWeight(l, k, Sent);
    hide *;
    EnterEffect(l, i, k);
  }

  lemma EnterEffect(l: Link, i: nat, k: nat)
    requires Underway(l, i) && Idle(l) && At(l, k, Entering) && Inv(Apply(l, DoEnter(k)))
    requires Total(Move(l, k, Sent).senders, Weight) ==
             Total(l.senders, Weight) - Weight(l.senders[k]) + Weight(l.senders[k].(place := Sent))
    requires Weight(l.senders[k]) <= Total(l.senders, Weight)
    ensures var next := Apply(l, DoEnter(k)); Underway(next, i) && Potential(next, i) < Potential(l, i)
  {
    assert Weight(l.senders[k].(place := Sent)) == 0 && Weight(l.senders[k]) == 7;
    var next := Apply(l, DoEnter(k));
    assert next.senders == Move(l, k, Sent).senders && next.writer == l.writer && next.done == l.done;
    assert |next.control| + |next.data| == 1;
    hide Inv, Total, IsControl, Weight, Rank, Enter;
  }

  lemma CheckingMoves(l: Link, i: nat, k: nat)
    requires Underway(l, i) && Idle(l) && l.queuedBytes == 0 && At(l, k, Checking)
    ensures var next := Apply(l, DoCheck(k)); Underway(next, i) && Potential(next, i) < Potential(l, i)
  {
    StepInv(l, DoCheck(k));
    MovedWeight(l, k, Entering);
    hide Inv, Total;
  }

  lemma TokenMoves(l: Link, i: nat)
    requires Underway(l, i) && Idle(l) && l.drained && At(l, i, Parked)
    ensures var next := Apply(l, DoToken(i)); Underway(next, i) && Potential(next, i) < Potential(l, i)
  {
    StepInv(l, DoToken(i));
    MovedWeight(l, i, Checking);
    hide Inv, Total;
  }

  /** When the writer is idle and nobody is entering or checking, the parked sender finds a token. */
  lemma TokenIsThere(l: Link, i: nat)
    requires Underway(l, i) && Idle(l) && !SomeAt(l.senders, Entering)
    ensures l.queuedBytes == 0
    ensures At(l, i, Parked) && !SomeAt(l.senders, Checking) ==> l.drained
  {
    NobodyEntering(l.senders);
    hide Total, FramesEncoded, PlacesRight;
  }

  /** The step that serves sender i next. */
  lemma NextMove(l: Link, i: nat) returns (step: Step)
    requires Underway(l, i) && !l.senders[i].place.Sent?
    ensures Inside(step) && Underway(Apply(l, step), i) && Potential(Apply(l, step), i) < Potential(l, i)
  {
    hide Apply, Underway, Potential;
    if !Idle(l) {
      WriterMoves(l, i);
      step := WriterStep(l);
    } else if SomeAt(l.senders, Entering) {
      var k :| 0 <= k < |l.senders| && l.senders[k].place == Entering;
      EnteringMoves(l, i, k);
      step := DoEnter(k);
    } else {
      TokenIsThere(l, i);
      if SomeAt(l.senders, Checking) {
        var k :| 0 <= k < |l.senders| && l.senders[k].place == Checking;
        CheckingMoves(l, i, k);
        step := DoCheck(k);
      } else {
        StillParked(l, i);
        TokenMoves(l, i);
        step := DoToken(i);
      }
    }
  }

  lemma StillParked(l: Link, i: nat)
    requires Underway(l, i) && !l.senders[i].place.Sent?
    requires !SomeAt(l.senders, Entering) && !SomeAt(l.senders, Checking)
    ensures At(l, i, Parked)
  {
  }

  lemma {:induction false} Serve(l: Link, i: nat)
    requires Underway(l, i)
    ensures exists steps :: AllInside(steps) && i < |Run(l, steps).senders| && Run(l, steps).senders[i].place.Sent?
    decreases if i < |l.senders| then Potential(l, i) else 0
  {
    if l.senders[i].place.Sent? {
      assert AllInside([]) && Run(l, []) == l;
    } else {
      var step := NextMove(l, i);
      var next := Apply(l, step);
      Serve(next, i);
      hide Apply, Underway, Potential, Inside;
      var rest :| AllInside(rest) && i < |Run(next, rest).senders| && Run(next, rest).senders[i].place.Sent?;
      var steps := [step] + rest;
      assert steps[1..] == rest;
      assert Run(l, steps) == Run(next, rest);
      assert AllInside(steps);
    }
  }

  /** In every reachable state of a live link, every sender that has not failed can still be served. */
  lemma NoSenderStuck(steps: seq<Step>, i: nat)
    requires AllEncoded(steps)
    requires var l := Run(INIT, steps); !l.done && i < |l.senders| && !l.senders[i].place.Failed?
    ensures var l := Run(INIT, steps);
            exists more :: AllInside(more) && i < |Run(l, more).senders| && Run(l, more).senders[i].place.Sent?
  {
    InitInv();
    EveryRun(INIT, steps);
    Serve(Run(INIT, steps), i);
  }
}
