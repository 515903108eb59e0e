/**
 The transport object: the byte count, the two bounded queues, the token and the end of the link,
 with Send's and write's atomic actions as methods, each proved to be its step of `LinkSpec`.
 */
module LinkObject {
  import opened Wire
  import opened LinkSpec
  import Proofs = LinkProofs
  import Frames = LinkFrames

  class SocketTransport {
    var queuedBytes: int
    var control: seq<Bytes>
    var data: seq<Bytes>
    var drained: bool
    var done: bool
    var senders: seq<Sender>
    var writer: Writer
    var entered: seq<Bytes>
    var left: seq<Bytes>
    var enteredControl: seq<Bytes>
    var leftControl: seq<Bytes>
    var written: seq<Out>
    var abandoned: seq<Bytes>

    function St(): Link
      reads this
    {
      Link(queuedBytes, control, data, drained, done, senders, writer, entered, left, enteredControl,
           leftControl, written, abandoned)
    }

    /**
     The byte count exact and bounded, every frame accounted for in the queue of its kind, and nobody
     parked without something to wake it.
     */
    ghost predicate Valid()
      reads this
    {
      Proofs.Inv(St()) && Frames.Accounts(St())
    }

    constructor ()
      ensures Valid() && St() == INIT
    {
      hide Proofs.Inv, Frames.Accounts;
      Proofs.InitInv();
      Frames.InitAccounts();
      queuedBytes, control, data, drained, done := 0, [], [], false, false;
      senders, writer, entered, left, abandoned := [], Picking, [], [], [];
      enteredControl, leftControl, written := [], [], [];
    }

    /** Send is called: an ACK or a PONG goes straight to its queue, any other frame asks for room. */
    method Send(frame: Bytes) returns (sender: nat)
      requires Valid()
      modifies this`senders
      ensures Encoded(frame) ==> Valid()
      ensures St() == Apply(old(St()), DoBegin(frame)) && sender == |old(senders)|
    {
      hide Proofs.Inv, Frames.Accounts;
      if Encoded(frame) { Proofs.StepInv(St(), DoBegin(frame)); }
      Frames.StepAccounts(St(), DoBegin(frame));
      sender := |senders|;
      var place := Checking;
      if |frame| > 1 && (frame[1] == FRAME_ACK || frame[1] == FRAME_PONG) {
        place := Entering;
      }
      senders := senders + [Sender(frame, place)];
    }

    /** The locked check of Send's loop. */
    method Reserve(i: nat)
      requires At(St(), i, Checking)
      requires Valid()
      modifies this`senders, this`queuedBytes
      ensures Valid() && St() == Apply(old(St()), DoCheck(i))
    {
      hide Proofs.Inv, Frames.Accounts;
      Proofs.StepInv(St(), DoCheck(i));
      Frames.StepAccounts(St(), DoCheck(i));
      var frame := senders[i].frame;
      if queuedBytes == 0 || queuedBytes + |frame| <= MAX_QUEUED_BYTES {
        queuedBytes := queuedBytes + |frame|;
        senders := senders[i := senders[i].(place := Entering)];
      } else {
        senders := senders[i := senders[i].(place := Parked)];
      }
    }

    method TakeToken(i: nat)
      requires At(St(), i, Parked) && drained
      requires Valid()
      modifies this`senders, this`drained
      ensures Valid() && St() == Apply(old(St()), DoToken(i))
    {
      hide Proofs.Inv, Frames.Accounts;
      Proofs.StepInv(St(), DoToken(i));
      Frames.StepAccounts(St(), DoToken(i));
      drained := false;
      senders := senders[i := senders[i].(place := Checking)];
    }

    /** The last select of Send; a full queue leaves the sender where it is. */
    method EnterQueue(i: nat) returns (entered': bool)
      requires At(St(), i, Entering)
      requires Valid()
      modifies this
      ensures |senders| == |old(senders)| && entered' == senders[i].place.Sent?
      ensures Valid() && St() == Apply(old(St()), DoEnter(i))
    {
      hide Proofs.Inv, Frames.Accounts;
      Proofs.StepInv(St(), DoEnter(i));
      Frames.StepAccounts(St(), DoEnter(i));
      var frame := senders[i].frame;
      if IsControl(frame) {
        if |control| >= MAX_QUEUED_FRAMES { return false; }
        control := control + [frame];
        enteredControl := enteredControl + [frame];
      } else {
        if |data| >= MAX_QUEUED_FRAMES { return false; }
        data := data + [frame];
        entered := entered + [frame];
      }
      senders := senders[i := senders[i].(place := Sent)];
      return true;
    }

    /** The done arm of either select. */
    method GiveUp(i: nat)
      requires done && (At(St(), i, Parked) || At(St(), i, Entering))
      requires Valid()
      modifies this`senders, this`abandoned
      ensures Valid() && St() == Apply(old(St()), DoGiveUp(i))
    {
      hide Proofs.Inv, Frames.Accounts;
      Proofs.StepInv(St(), DoGiveUp(i));
      Frames.StepAccounts(St(), DoGiveUp(i));
      var s := senders[i];
      if s.place.Entering? && !IsControl(s.frame) {
        abandoned := abandoned + [s.frame];
      }
      senders := senders[i := s.(place := Failed)];
    }

    /** The writer's outer select. */
    method PickFrame()
      requires writer.Picking?
      requires Valid()
      modifies this
      ensures Valid() && St() == Apply(old(St()), DoPick)
    {
      hide Proofs.Inv, Frames.Accounts;
      Proofs.StepInv(St(), DoPick);
      Frames.StepAccounts(St(), DoPick);
      if control != [] {
        leftControl := leftControl + [control[0]];
        writer, control := Writing(control[0], false), control[1..];
      } else {
        writer := Choosing;
      }
    }

    /** The inner select; `fromControl` is the choice it makes when both queues have frames. */
    method ChooseFrame(fromControl: bool)
      requires writer.Choosing? && (if fromControl then control != [] else data != [])
      requires Valid()
      modifies this
      ensures Valid() && St() == Apply(old(St()), if fromControl then DoTakeControl else DoTakeData)
    {
      hide Proofs.Inv, Frames.Accounts;
      Proofs.StepInv(St(), if fromControl then DoTakeControl else DoTakeData);
      Frames.StepAccounts(St(), if fromControl then DoTakeControl else DoTakeData);
      if fromControl {
        leftControl := leftControl + [control[0]];
        writer, control := Writing(control[0], false), control[1..];
      } else {
        left := left + [data[0]];
        writer, data := Writing(data[0], true), data[1..];
      }
    }

    method WriteFrame(failed: bool)
      requires writer.Writing?
      requires Valid()
      modifies this`writer, this`done, this`abandoned, this`written
      ensures Valid() && St() == Apply(old(St()), if failed then DoWriteError else DoWritten)
    {
      hide Proofs.Inv, Frames.Accounts;
      Proofs.StepInv(St(), if failed then DoWriteError else DoWritten);
      Frames.StepAccounts(St(), if failed then DoWriteError else DoWritten);
      if failed {
        done := true;
        if writer.data {
          abandoned := abandoned + [writer.frame];
        }
        writer := Ended;
      } else {
        written := written + [Out(writer.frame, writer.data)];
        writer := if writer.data then Accounting(writer.frame) else Pacing;
      }
    }

    method AccountWritten()
      requires writer.Accounting?
      requires Valid()
      modifies this`queuedBytes, this`writer
      ensures Valid() && St() == Apply(old(St()), DoAccount)
    {
      hide Proofs.Inv, Frames.Accounts;
      Proofs.StepInv(St(), DoAccount);
      Frames.StepAccounts(St(), DoAccount);
      queuedBytes := queuedBytes - |writer.frame|;
      writer := Posting;
    }

    method PostDrained()
      requires writer.Posting?
      requires Valid()
      modifies this`drained, this`writer
      ensures Valid() && St() == Apply(old(St()), DoPost)
    {
      hide Proofs.Inv, Frames.Accounts;
      Proofs.StepInv(St(), DoPost);
      Frames.StepAccounts(St(), DoPost);
      drained := true;
      writer := Pacing;
    }

    /** The pacing select, when the ticker fires. */
    method Pace()
      requires writer.Pacing?
      requires Valid()
      modifies this`writer
      ensures Valid() && St() == Apply(old(St()), DoPace)
    {
      hide Proofs.Inv, Frames.Accounts;
      Proofs.StepInv(St(), DoPace);
      Frames.StepAccounts(St(), DoPace);
      writer := Picking;
    }

    /** The done arm of either of the writer's selects. */
    method StopWriter()
      requires done && (writer.Choosing? || writer.Pacing?)
      requires Valid()
      modifies this`writer
      ensures Valid() && St() == Apply(old(St()), DoStop)
    {
      hide Proofs.Inv, Frames.Accounts;
      Proofs.StepInv(St(), DoStop);
      Frames.StepAccounts(St(), DoStop);
      writer := Ended;
    }

    method End()
      requires Valid()
      modifies this`done
      ensures Valid() && St() == Apply(old(St()), DoEnd)
    {
      hide Proofs.Inv, Frames.Accounts;
      Proofs.StepInv(St(), DoEnd);
      Frames.StepAccounts(St(), DoEnd);
      done := true;
    }
  }
}
