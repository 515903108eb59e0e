/**
 The paced writer of internal/broker/dial.go. Any number of senders reserve room, enter their frame
 in a bounded queue and leave; one writer takes frames out, control frames first. Each locked
 section, channel operation and select is a step, so senders and writer interleave freely.
 */
module LinkSpec {
  import opened Wire

  const MAX_QUEUED_BYTES := 0x100_0000    // 16 << 20
  const MAX_QUEUED_FRAMES := 2048

  datatype Place =
    | Checking    // about to take the lock and look at queuedBytes
    | Parked      // waits for the drained token or the end of the link
    | Entering    // past the check (or a control frame), about to enter its queue
    | Sent
    | Failed

  datatype Sender = Sender(frame: Bytes, place: Place)

  datatype Writer =
    | Picking                            // the outer select
    | Choosing                           // the inner select
    | Writing(frame: Bytes, data: bool)
    | Accounting(frame: Bytes)           // written, about to subtract its bytes
    | Posting                            // about to post the drained token
    | Pacing
    | Ended

  /** A frame the connection has taken. */
  datatype Out = Out(frame: Bytes, data: bool)

  datatype Link = Link(
    queuedBytes: int,
    control: seq<Bytes>,
    data: seq<Bytes>,
    drained: bool,
    done: bool,
    senders: seq<Sender>,
    writer: Writer,
    entered: seq<Bytes>,      // every data frame that ever entered its queue
    left: seq<Bytes>,         // every data frame the writer ever took
    enteredControl: seq<Bytes>,
    leftControl: seq<Bytes>,
    written: seq<Out>,        // every frame written to the connection, in order
    abandoned: seq<Bytes>)    // data frames still reserved when the link ended under them

  const INIT := Link(0, [], [], false, false, [], Picking, [], [], [], [], [], [])

  predicate IsControl(frame: Bytes) {
    |frame| > 1 && (frame[1] == FRAME_ACK || frame[1] == FRAME_PONG)
  }

  predicate Fits(queuedBytes: int, frame: Bytes) {
    queuedBytes == 0 || queuedBytes + |frame| <= MAX_QUEUED_BYTES
  }

  function Move(l: Link, i: nat, place: Place): Link
    requires i < |l.senders|
  {
    l.(senders := l.senders[i := l.senders[i].(place := place)])
  }

  predicate At(l: Link, i: nat, place: Place) {
    i < |l.senders| && l.senders[i].place == place
  }

  // ---- A sender's steps ----

  function Check(l: Link, i: nat): Link
    requires i < |l.senders|
  {
    var frame := l.senders[i].frame;
    if Fits(l.queuedBytes, frame) then Move(l.(queuedBytes := l.queuedBytes + |frame|), i, Entering)
        else Move(l, i, Parked)
  }

  function Enter(l: Link, i: nat): Link
    requires i < |l.senders|
  {
    var frame := l.senders[i].frame;
    if IsControl(frame) then
      if |l.control| < MAX_QUEUED_FRAMES then
        Move(l.(control := l.control + [frame], enteredControl := l.enteredControl + [frame]), i, Sent)
      else l
    else if |l.data| < MAX_QUEUED_FRAMES
        then Move(l.(data := l.data + [frame], entered := l.entered + [frame]), i, Sent)
    else l
  }

  function GiveUp(l: Link, i: nat): Link
    requires i < |l.senders|
  {
    var s := l.senders[i];
    var rest := if s.place.Entering? && !IsControl(s.frame) then l.(abandoned := l.abandoned + [s.frame]) else l;
    Move(rest, i, Failed)
  }

  // ---- The writer's steps ----

  function TakeControl(l: Link): Link
    requires l.control != []
  {
    l.(writer := Writing(l.control[0], false), control := l.control[1..], leftControl := l.leftControl + [l.control[0]])
  }

  function TakeData(l: Link): Link
    requires l.data != []
  {
    l.(writer := Writing(l.data[0], true), data := l.data[1..], left := l.left + [l.data[0]])
  }

  function Written(l: Link): Link
    requires l.writer.Writing?
  {
    l.(writer := if l.writer.data then Accounting(l.writer.frame) else Pacing,
       written := l.written + [Out(l.writer.frame, l.writer.data)])
  }

  /** A frame that could not be written is never accounted. */
  function FailWrite(l: Link): Link
    requires l.writer.Writing?
  {
    l.(done := true, writer := Ended, abandoned := if l.writer.data then l.abandoned + [l.writer.frame]
        else l.abandoned)
  }

  function Account(l: Link): Link
    requires l.writer.Accounting?
  {
    l.(queuedBytes := l.queuedBytes - |l.writer.frame|, writer := Posting)
  }

  datatype Step =
    | DoBegin(frame: Bytes)
    | DoCheck(sender: nat)
    | DoToken(sender: nat)
    | DoEnter(sender: nat)
    | DoGiveUp(sender: nat)
    | DoPick            // the outer select: a control frame if there is one
    | DoTakeControl     // the inner select
    | DoTakeData
    | DoWritten
    | DoWriteError
    | DoAccount
    | DoPost
    | DoPace
    | DoStop            // the writer sees the link ended
    | DoEnd             // Close, or an error elsewhere

  function Apply(l: Link, step: Step): Link {
    match step
    case DoBegin(frame) => l.(senders := l.senders + [Sender(frame, if IsControl(frame) then Entering else Checking)])
    case DoCheck(i) => if At(l, i, Checking) then Check(l, i) else l
    case DoToken(i) => if At(l, i, Parked) && l.drained then Move(l.(drained := false), i, Checking) else l
    case DoEnter(i) => if At(l, i, Entering) then Enter(l, i) else l
    case DoGiveUp(i) => if l.done && (At(l, i, Parked) || At(l, i, Entering)) then GiveUp(l, i) else l
    case DoPick => if !l.writer.Picking? then l else if l.control != [] then TakeControl(l) else l.(writer := Choosing)
    case DoTakeControl => if l.writer.Choosing? && l.control != [] then TakeControl(l) else l
    case DoTakeData => if l.writer.Choosing? && l.data != [] then TakeData(l) else l
    case DoWritten => if l.writer.Writing? then Written(l) else l
    case DoWriteError => if l.writer.Writing? then FailWrite(l) else l
    case DoAccount => if l.writer.Accounting? then Account(l) else l
    case DoPost => if l.writer.Posting? then l.(drained := true, writer := Pacing) else l
    case DoPace => if l.writer.Pacing? then l.(writer := Picking) else l
    case DoStop => if l.done && (l.writer.Choosing? || l.writer.Pacing?) then l.(writer := Ended) else l
    case DoEnd => l.(done := true)
  }

  function Run(l: Link, steps: seq<Step>): Link
    decreases |steps|
  {
    if steps == [] then l else Run(Apply(l, steps[0]), steps[1..])
  }

  /** Every frame offered was spelled by Encode. */
  predicate Encoded(frame: Bytes) {
    HEADER <= |frame| <= HEADER + CIPHERTEXT_PAYLOAD_MAX
  }

  ghost predicate AllEncoded(steps: seq<Step>) {
    forall k :: 0 <= k < |steps| && steps[k].DoBegin? ==> Encoded(steps[k].frame)
  }
}
