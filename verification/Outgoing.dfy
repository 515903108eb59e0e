/**
 An endpoint and the link it sends on, together. Send holds its lock until the frame is in the link's
 queue, so handing a frame over and entering it is one step; everything else of the two machines
 interleaves freely, and other frames enter the queue in between.
 */
module Outgoing {
  import opened Wire
  import Seal = SealingSpec
  import SealProofs = SealingProofs
  import Line = LinkSpec
  import LineProofs = LinkProofs

  /** `marks` runs beside the link's entered frames: which of the endpoint's frames each is, or -1. */
  datatype State = State(e: Seal.Endpoint, l: Line.Link, marks: seq<int>)

  datatype Step =
    | Sealing(seal: Seal.Step)            // any step of the endpoint but a successful hand-over
    | Linking(link: Line.Step)            // any step of the link, by anybody else
    | Handing(sender: nat)                // the endpoint's sealed frame enters the queue as this sender's

  function Init(role: Seal.Role): State { State(Seal.Init(role), Line.INIT, []) }

  predicate HandsOver(e: Seal.Endpoint, step: Seal.Step) {
    step.DoHandOver? && e.sending.Sealed? && e.sending.frame.Cipher? && Seal.Passes(e, step.stale)
  }

  /** The sender holds the bytes of the endpoint's sealed frame and finds a place in the data queue. */
  predicate MayHand(st: State, i: nat, spell: Seal.Frame -> Bytes) {
    && HandsOver(st.e, Seal.DoHandOver(false))
    && Line.At(st.l, i, Line.Entering) && !Line.IsControl(st.l.senders[i].frame) && |st.l.data| < Line.MAX_QUEUED_FRAMES
    && st.l.senders[i].frame == spell(st.e.sending.frame)
  }

  function Apply(st: State, step: Step, spell: Seal.Frame -> Bytes): State {
    match step
    case Sealing(seal) => if HandsOver(st.e, seal) then st else st.(e := Seal.Apply(st.e, seal))
    case Linking(link) =>
      var l := Line.Apply(st.l, link);
      st.(l := l, marks := if |l.entered| > |st.l.entered| then st.marks + [-1] else st.marks)
    case Handing(i) =>
      if !MayHand(st, i, spell) then st
      else State(Seal.Apply(st.e, Seal.DoHandOver(false)), Line.Apply(st.l, Line.DoEnter(i)), st.marks + [|st.e.wire|])
  }

  function Run(st: State, steps: seq<Step>, spell: Seal.Frame -> Bytes): State
    decreases |steps|
  {
    if steps == [] then st else Run(Apply(st, steps[0], spell), steps[1..], spell)
  }

  ghost predicate AllEncoded(steps: seq<Step>) {
    forall k :: 0 <= k < |steps| && steps[k].Linking? && steps[k].link.DoBegin? ==> Line.Encoded(steps[k].link.frame)
  }

  /** Each mark names a frame of the endpoint, in order, and the bytes entered are that frame's. */
  ghost predicate Marked(wire: seq<Seal.Frame>, entered: seq<Bytes>, marks: seq<int>, spell: Seal.Frame -> Bytes) {
    && |marks| == |entered|
    && (forall k :: 0 <= k < |marks| ==> -1 <= marks[k] < |wire|)
    && (forall k :: 0 <= k < |marks| && marks[k] >= 0 ==> entered[k] == spell(wire[marks[k]]))
    && (forall i, j :: 0 <= i < j < |marks| && marks[i] >= 0 && marks[j] >= 0 ==> marks[i] < marks[j])
  }

  ghost predicate Inv(st: State, spell: Seal.Frame -> Bytes) {
    && SealProofs.Inv(st.e) && LineProofs.Inv(st.l)
    && Marked(st.e.wire, st.l.entered, st.marks, spell)
  }

  lemma WireGrows(e: Seal.Endpoint, step: Seal.Step)
    ensures e.wire <= Seal.Apply(e, step).wire
  {
  }

  lemma EnteredGrows(l: Line.Link, step: Line.Step)
    ensures Line.Apply(l, step).entered == l.entered ||
            exists frame :: Line.Apply(l, step).entered == l.entered + [frame]
  {
    hide Line.IsControl;
  }

  lemma MarkedLonger(wire: seq<Seal.Frame>, more: seq<Seal.Frame>, entered: seq<Bytes>, marks: seq<int>,
                     spell: Seal.Frame -> Bytes)
    requires Marked(wire, entered, marks, spell) && wire <= more
    ensures Marked(more, entered, marks, spell)
  {
  }

  lemma MarkedOther(wire: seq<Seal.Frame>, entered: seq<Bytes>, frame: Bytes, marks: seq<int>,
                    spell: Seal.Frame -> Bytes)
    requires Marked(wire, entered, marks, spell)
    ensures Marked(wire, entered + [frame], marks + [-1], spell)
  {
  }

  lemma MarkedOwn(wire: seq<Seal.Frame>, f: Seal.Frame, entered: seq<Bytes>, marks: seq<int>,
                  spell: Seal.Frame -> Bytes)
    requires Marked(wire, entered, marks, spell)
    ensures Marked(wire + [f], entered + [spell(f)], marks + [|wire|], spell)
  {
  }

  lemma HandingIs(st: State, i: nat, spell: Seal.Frame -> Bytes)
    requires MayHand(st, i, spell)
    ensures st.e.sending.Sealed?
    ensures var out, f := Apply(st, Handing(i), spell), st.e.sending.frame;
            && out.e == Seal.Apply(st.e, Seal.DoHandOver(false)) && out.l == Line.Apply(st.l, Line.DoEnter(i))
            && out.e.wire == st.e.wire + [f] && out.l.entered == st.l.entered + [spell(f)]
            && out.marks == st.marks + [|st.e.wire|]
  {
    hide Seal.Passes, Line.IsControl;
  }

  lemma StepInv(st: State, step: Step, spell: Seal.Frame -> Bytes)
    requires Inv(st, spell) && (step.Linking? && step.link.DoBegin? ==> Line.Encoded(step.link.frame))
    ensures Inv(Apply(st, step, spell), spell)
  {
    hide SealProofs.Inv, LineProofs.Inv, Marked, Seal.Apply, Line.Apply, Seal.Passes, MayHand;
    match step
    case Sealing(seal) =>
      SealProofs.StepInv(st.e, seal);
      WireGrows(st.e, seal);
      MarkedLonger(st.e.wire, Seal.Apply(st.e, seal).wire, st.l.entered, st.marks, spell);
    case Linking(link) =>
      LineProofs.StepInv(st.l, link);
      EnteredGrows(st.l, link);
      var l := Line.Apply(st.l, link);
      if frame :| l.entered == st.l.entered + [frame] {
        MarkedOther(st.e.wire, st.l.entered, frame, st.marks, spell);
      }
    case Handing(i) =>
      if MayHand(st, i, spell) {
        HandingIs(st, i, spell);
        SealProofs.StepInv(st.e, Seal.DoHandOver(false));
        LineProofs.StepInv(st.l, Line.DoEnter(i));
        MarkedOwn(st.e.wire, st.e.sending.frame, st.l.entered, st.marks, spell);
      }
  }

  lemma {:induction false} EveryRun(st: State, steps: seq<Step>, spell: Seal.Frame -> Bytes)
    requires Inv(st, spell) && AllEncoded(steps)
    ensures Inv(Run(st, steps, spell), spell)
    decreases |steps|
  {
    if steps != [] {
      hide Inv, Apply, Line.Encoded;
      StepInv(st, steps[0], spell);
      EveryRun(Apply(st, steps[0], spell), steps[1..], spell);
    }
  }

  lemma LeftIsPrefix(l: Line.Link)
    requires LineProofs.Inv(l)
    ensures l.left <= l.entered
  {
  }

  lemma WireRises(e: Seal.Endpoint, i: nat, j: nat)
    requires SealProofs.Inv(e) && i < j < |e.wire|
    ensures SealProofs.Rises(e.wire[i], e.wire[j])
  {
  }

  /** Two of the endpoint's frames among those that have left the link. */
  lemma SocketPair(st: State, spell: Seal.Frame -> Bytes, i: nat, j: nat)
    requires Inv(st, spell) && i < j < |st.l.left|
    ensures |st.l.left| <= |st.marks|
    ensures st.marks[i] >= 0 && st.marks[j] >= 0 ==>
              && st.marks[i] < st.marks[j] < |st.e.wire|
              && st.l.left[i] == spell(st.e.wire[st.marks[i]]) && st.l.left[j] == spell(st.e.wire[st.marks[j]])
              && SealProofs.Rises(st.e.wire[st.marks[i]], st.e.wire[st.marks[j]])
  {
    hide SealProofs.Inv, LineProofs.Inv, SealProofs.Rises;
    LeftIsPrefix(st.l);
    if st.marks[i] >= 0 && st.marks[j] >= 0 {
      WireRises(st.e, st.marks[i], st.marks[j]);
    }
  }

  lemma InitInv(role: Seal.Role, spell: Seal.Frame -> Bytes)
    ensures Inv(Init(role), spell)
  {
    SealProofs.InitInv(role);
    LineProofs.InitInv();
    hide SealProofs.Inv, LineProofs.Inv;
  }

  /**
   On the socket: what leaves the link and was the endpoint's leaves in the order it was sealed, byte
   for byte, so the counters of a session rise in the order its frames are written.
   */
  lemma RisesOnTheSocket(role: Seal.Role, steps: seq<Step>, spell: Seal.Frame -> Bytes, i: nat, j: nat)
    requires AllEncoded(steps) && i < j < |Run(Init(role), steps, spell).l.left|
    ensures var st := Run(Init(role), steps, spell);
            && |st.l.left| <= |st.marks|
            && (st.marks[i] >= 0 && st.marks[j] >= 0 ==>
                  && st.marks[i] < st.marks[j] < |st.e.wire|
                  && st.l.left[i] == spell(st.e.wire[st.marks[i]]) && st.l.left[j] == spell(st.e.wire[st.marks[j]])
                  && SealProofs.Rises(st.e.wire[st.marks[i]], st.e.wire[st.marks[j]]))
  {
    hide *;
    InitInv(role, spell);
    EveryRun(Init(role), steps, spell);
    SocketPair(Run(Init(role), steps, spell), spell, i, j);
  }
}
