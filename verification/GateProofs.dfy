/**
 Every card gets exactly one ApprovalDecided, its channel one signal at most; and a session has one
 registered card, the one it names, exactly as long as no two open cards of it share a call id.
 */
module GateProofs {
  import opened GateSpec

  // ---- One card ----

  /** Everything a card's fields can be together. */
  ghost predicate WaitOk(w: Wait) {
    match w.debt
    case OwesEvent => w.decided && w.sent == 0 && w.channel == [] && w.published == []
        && (w.place.Selecting? || w.place.Draining?)
    case OwesSignal => w.decided && w.sent == 0 && w.channel == [] && |w.published| == 1
        && (w.place.Selecting? || w.place.Draining?)
    case Settled =>
      if !w.decided then w.place.Selecting? && w.sent == 0 && w.channel == [] && w.published == []
      else match w.place
        case Selecting => Signalled(w)
        case Draining => Signalled(w)
        case Dismissing => w.sent == 0 && w.channel == [] && w.published == []
        case Announcing(_, _) => w.sent == 1 && w.channel == [] && w.published == []
        case Returned(_) => w.sent <= 1 && w.channel == [] && |w.published| == 1
        case Closed => w.sent <= 1 && w.channel == [] && |w.published| == 1
  }

  ghost predicate Signalled(w: Wait) {
    w.sent == 1 && |w.channel| == 1 && |w.published| == if w.channel[0].logged then 1 else 0
  }

  ghost predicate AllOk(st: State) {
    && (forall i :: 0 <= i < |st.waits| ==> WaitOk(st.waits[i]))
    && (forall k :: k in st.waiting ==> st.waiting[k] < |st.waits|)
  }

  lemma OwnStepOk(w: Wait)
    requires WaitOk(w)
    ensures WaitOk(Announce(w)) && WaitOk(Cancel(w)) && WaitOk(Receive(w)) && WaitOk(Publish(w))
    ensures w.place.Returned? ==> WaitOk(w.(place := Closed))
    ensures !w.decided ==> WaitOk(Supersede(w)) && forall signal: Signal :: !signal.logged ==>
            WaitOk(Deliver(w, signal))
  {
    forall signal: Signal | !w.decided && !signal.logged ensures WaitOk(Deliver(w, signal)) {
      assert Deliver(w, signal).channel == [signal];
    }
  }

  lemma UpdateOk(st: State, i: nat, w: Wait)
    requires AllOk(st) && i < |st.waits| && WaitOk(w)
    ensures AllOk(Update(st, i, w))
  {
    hide WaitOk;
  }

  lemma BeginOk(st: State, card: Card)
    requires AllOk(st)
    ensures AllOk(Begin(st, card))
  {
    var prior := Superseded(st, (card.session, card.call));
    if prior >= 0 { OwnStepOk(st.waits[prior]); }
    NewWaitOk(card);
    hide WaitOk, Superseded, Supersede, NewWait;
  }

  lemma CloseOk(st: State, i: nat)
    requires AllOk(st) && i < |st.waits| && st.waits[i].place.Returned?
    ensures AllOk(Close(st, i))
  {
    OwnStepOk(st.waits[i]);
    hide WaitOk, KeyOf;
  }

  lemma StepOk(st: State, step: Step)
    requires AllOk(st)
    ensures AllOk(Apply(st, step))
  {
    forall i | 0 <= i < |st.waits| ensures WaitOk(st.waits[i]) { }
    hide AllOk, WaitOk, Announce, Cancel, Receive, Publish, DecideReply, AnswerReply, Begin, Close, Update;
    match step
    case DoBegin(card) => BeginOk(st, card);
    case DoAnnounce(i) => if i < |st.waits| { OwnStepOk(st.waits[i]); UpdateOk(st, i, Announce(st.waits[i])); }
    case DoCancel(i) => if i < |st.waits| { OwnStepOk(st.waits[i]); UpdateOk(st, i, Cancel(st.waits[i])); }
    case DoReceive(i) => if i < |st.waits| { OwnStepOk(st.waits[i]); UpdateOk(st, i, Receive(st.waits[i])); }
    case DoPublish(i) => if i < |st.waits| { OwnStepOk(st.waits[i]); UpdateOk(st, i, Publish(st.waits[i])); }
    case DoClose(i) => if i < |st.waits| && st.waits[i].place.Returned? { CloseOk(st, i); }
    case DoDecide(s, c, decision, saved) =>
      AcceptedOpen(st, (s, c), decision, saved, "");
      if DecideReply(st, (s, c), decision, saved).Accepted? { SignalOk(st, (s, c), Signal(decision, "", false)); }
    case DoAnswer(s, c, answer) =>
      AcceptedOpen(st, (s, c), "", true, answer);
      if AnswerReply(st, (s, c), answer).Accepted? { SignalOk(st, (s, c), Signal("answered", answer, false)); }
  }

  lemma SignalOk(st: State, key: Key, signal: Signal)
    requires AllOk(st) && key in st.waiting && st.waiting[key] < |st.waits|
    requires !st.waits[st.waiting[key]].decided && !signal.logged
    ensures AllOk(SignalAt(st, key, signal))
  {
    var i := st.waiting[key];
    OwnStepOk(st.waits[i]);
    UpdateOk(st, i, Deliver(st.waits[i], signal));
    hide WaitOk, AllOk;
  }

  lemma NewWaitOk(card: Card)
    ensures WaitOk(NewWait(card))
  {
  }

  /** An accepted decision or answer meets a registered, undecided card. */
  lemma AcceptedOpen(st: State, key: Key, decision: string, saved: bool, answer: string)
    ensures DecideReply(st, key, decision, saved).Accepted? || AnswerReply(st, key, answer).Accepted? ==>
            key in st.waiting && st.waiting[key] < |st.waits| && !st.waits[st.waiting[key]].decided
  {
  }

  /**
   However the four ways of settling a card race: its channel holds and ever receives at most one
   signal, at most one ApprovalDecided is published, and exactly one by the time its wait returns.
   */
  lemma {:induction false} EveryCardDecidedOnce(st: State, steps: seq<Step>)
    requires AllOk(st)
    ensures AllOk(Run(st, steps))
    ensures forall w :: w in Run(st, steps).waits ==>
              && w.sent <= 1 && |w.channel| <= 1 && |w.published| <= 1
              && (w.place.Returned? || w.place.Closed? ==> |w.published| == 1)
              && (|w.published| == 1 ==> w.decided)
    decreases |steps|
  {
    if steps == [] {
      forall w | w in st.waits ensures WaitOk(w) { }
    } else {
      StepOk(st, steps[0]);
      EveryCardDecidedOnce(Apply(st, steps[0]), steps[1..]);
    }
  }

  // ---- A settled card always gets home ----

  /** The step that takes a decided card further. */
  function NextStep(w: Wait, i: nat): Step {
    if !w.debt.Settled? then DoAnnounce(i)
    else if w.place.Selecting? || w.place.Draining? then DoReceive(i)
    else DoPublish(i)
  }

  /** How many such steps it needs. */
  function StepsLeft(w: Wait): nat {
    match w.debt
    case OwesEvent => 3
    case OwesSignal => 2
    case Settled =>
      match w.place
      case Selecting => if w.channel != [] && !w.channel[0].logged then 2 else 1
      case Draining => if w.channel != [] && !w.channel[0].logged then 2 else 1
      case Dismissing => 1
      case Announcing(_, _) => 1
      case _ => 0
  }

  /** A decided card's own next step, on the card alone. */
  function Advance(w: Wait): Wait {
    if !w.debt.Settled? then Announce(w) else if w.place.Selecting? || w.place.Draining? then Receive(w) else Publish(w)
  }

  lemma AdvanceCounts(w: Wait)
    requires WaitOk(w) && w.decided && StepsLeft(w) > 0
    ensures Advance(w).decided && StepsLeft(Advance(w)) == StepsLeft(w) - 1
    ensures KeyOf(Advance(w)) == KeyOf(w) && (w.place.Closed? <==> Advance(w).place.Closed?)
  {
  }

  lemma NextStepCounts(st: State, i: nat)
    requires AllOk(st) && i < |st.waits| && st.waits[i].decided && StepsLeft(st.waits[i]) > 0
    ensures var next := Apply(st, NextStep(st.waits[i], i));
            && |next.waits| == |st.waits| && next.waits[i].decided
            && StepsLeft(next.waits[i]) == StepsLeft(st.waits[i]) - 1
            && next.waiting == st.waiting && next.named == st.named
            && KeyOf(next.waits[i]) == KeyOf(st.waits[i])
            && (st.waits[i].place.Closed? <==> next.waits[i].place.Closed?)
  {
    assert WaitOk(st.waits[i]);
    AdvanceCounts(st.waits[i]);
    hide AllOk, WaitOk, StepsLeft, Announce, Receive, Publish, KeyOf;
  }

  /** No step of a card lengthens what is left of it, once it is decided. */
  lemma OwnStepShortens(w: Wait)
    requires WaitOk(w) && w.decided
    ensures Announce(w).decided && StepsLeft(Announce(w)) <= StepsLeft(w)
    ensures Cancel(w).decided && StepsLeft(Cancel(w)) <= StepsLeft(w)
    ensures Receive(w).decided && StepsLeft(Receive(w)) <= StepsLeft(w)
    ensures Publish(w).decided && StepsLeft(Publish(w)) <= StepsLeft(w)
    ensures w.place.Returned? ==> StepsLeft(w.(place := Closed)) <= StepsLeft(w)
  {
  }


  /** Steps of others never put a decided card back. */
  lemma OthersDoNotDelay(st: State, step: Step, i: nat)
    requires AllOk(st) && i < |st.waits| && st.waits[i].decided
    ensures var next := Apply(st, step);
            i < |next.waits| && next.waits[i].decided && StepsLeft(next.waits[i]) <= StepsLeft(st.waits[i])
  {
    assert WaitOk(st.waits[i]);
    OwnStepShortens(st.waits[i]);
    StepOnCard(st, step, i);
    hide *;
  }

  /** A step leaves a decided card alone, or is one of the card's own. */
  lemma StepOnCard(st: State, step: Step, i: nat)
    requires AllOk(st) && i < |st.waits| && st.waits[i].decided
    ensures var next, w := Apply(st, step), st.waits[i];
            && i < |next.waits|
            && (next.waits[i] in {w, Announce(w), Cancel(w), Receive(w), Publish(w)} ||
                (w.place.Returned? && next.waits[i] == w.(place := Closed)))
  {
    hide AllOk, StepsLeft, Announce, Cancel, Receive, Publish, Deliver, Supersede, NewWait, DecideReply, AnswerReply,
        KeyOf;
    match step
    case DoBegin(card) => BeginLeaves(st, card, i);
    case DoDecide(s, c, decision, saved) => AcceptedOpen(st, (s, c), decision, saved, "");
    case DoAnswer(s, c, answer) => AcceptedOpen(st, (s, c), "", true, answer);
    case _ =>
  }

  lemma BeginLeaves(st: State, card: Card, i: nat)
    requires i < |st.waits| && st.waits[i].decided
    ensures i < |Begin(st, card).waits| && Begin(st, card).waits[i] == st.waits[i]
  {
  }

  /** The steps that bring a decided card home. */
  function HomeSteps(st: State, i: nat, left: nat): seq<Step>
    requires i < |st.waits|
    decreases left
  {
    if left == 0 then []
    else
      var step := NextStep(st.waits[i], i);
      if i < |Apply(st, step).waits| then [step] + HomeSteps(Apply(st, step), i, left - 1) else []
  }

  /** From any reachable state a decided card's own steps end its wait, with its one event published. */
  lemma {:induction false} DecidedCardReturns(st: State, i: nat)
    requires AllOk(st) && i < |st.waits| && st.waits[i].decided
    ensures var out := Run(st, HomeSteps(st, i, StepsLeft(st.waits[i])));
            && AllOk(out) && |out.waits| == |st.waits|
            && (out.waits[i].place.Returned? || out.waits[i].place.Closed?) && |out.waits[i].published| == 1
            && out.waiting == st.waiting && out.named == st.named && KeyOf(out.waits[i]) == KeyOf(st.waits[i])
            && (st.waits[i].place.Closed? <==> out.waits[i].place.Closed?)
    decreases StepsLeft(st.waits[i])
  {
    var left := StepsLeft(st.waits[i]);
    if left == 0 {
      assert WaitOk(st.waits[i]);
    } else {
      var step := NextStep(st.waits[i], i);
      NextStepCounts(st, i);
      StepOk(st, step);
      var next := Apply(st, step);
      DecidedCardReturns(next, i);
      hide AllOk, Apply, NextStep, StepsLeft, KeyOf;
      assert HomeSteps(st, i, left) == [step] + HomeSteps(next, i, left - 1);
      assert ([step] + HomeSteps(next, i, left - 1))[1..] == HomeSteps(next, i, left - 1);
    }
  }

  // ---- One registered card for each session ----

  /** No open card of the session has this call id. */
  ghost predicate Fresh(st: State, key: Key) {
    forall i :: 0 <= i < |st.waits| && Open(st.waits[i]) ==> KeyOf(st.waits[i]) != key
  }

  ghost predicate CallsDistinct(st: State) {
    forall i, j :: 0 <= i < j < |st.waits| && Open(st.waits[i]) && Open(st.waits[j]) ==>
        KeyOf(st.waits[i]) != KeyOf(st.waits[j])
  }

  /** What is registered under a key is an open card with that key. */
  ghost predicate Points(waits: seq<Wait>, waiting: map<Key, nat>) {
    forall k :: k in waiting ==> waiting[k] < |waits| && KeyOf(waits[waiting[k]]) == k && Open(waits[waiting[k]])
  }

  /** The registered keys are the named ones, so one for a session. */
  ghost predicate NamesRegistered(waiting: map<Key, nat>, named: map<SessionId, Key>) {
    && (forall k :: k in waiting ==> k.0 in named && named[k.0] == k)
    && (forall s :: s in named ==> named[s] in waiting && named[s].0 == s)
  }

  /** A card still to be decided is registered, so a decision reaches it. */
  ghost predicate Decidable(waits: seq<Wait>, waiting: map<Key, nat>) {
    forall i :: 0 <= i < |waits| && !waits[i].decided ==> KeyOf(waits[i]) in waiting && waiting[KeyOf(waits[i])] == i
  }

  ghost predicate Registered(st: State) {
    Points(st.waits, st.waiting) && NamesRegistered(st.waiting, st.named) && Decidable(st.waits, st.waiting)
  }

  ghost predicate Sound(st: State) {
    AllOk(st) && CallsDistinct(st) && Registered(st)
  }

  lemma RegisteredCardsOfOneSession(st: State, k1: Key, k2: Key)
    requires Registered(st) && k1 in st.waiting && k2 in st.waiting && k1.0 == k2.0
    ensures k1 == k2
  {
    assert st.named[k1.0] == k1 && st.named[k2.0] == k2;
  }

  lemma BeginSound(st: State, card: Card)
    requires Sound(st) && Fresh(st, (card.session, card.call))
    ensures Sound(Begin(st, card))
  {
    BeginOk(st, card);
    BeginRegistered(st, card);
    BeginWaits(st, card);
    assert KeyOf(NewWait(card)) == (card.session, card.call);
    hide AllOk, Registered, Superseded, Begin, NewWait, KeyOf, Open;
  }

  /** After a fresh Begin the session has just the new card registered; other sessions are as before. */
  lemma BeginKeys(st: State, card: Card)
    requires Registered(st) && Fresh(st, (card.session, card.call))
    ensures var key, out := (card.session, card.call), Begin(st, card);
            && (forall k :: k in out.waiting <==> k == key || (k in st.waiting && k.0 != card.session))
            && out.waiting[key] == |st.waits|
            && (forall k :: k in st.waiting && k.0 != card.session ==> out.waiting[k] == st.waiting[k])
            && out.named == st.named[card.session := key]
  {
    var key := (card.session, card.call);
    assert key !in st.waiting;
    forall k | k in st.waiting && k.0 == card.session ensures st.named[card.session] == k { }
    hide Superseded, NewWait, Supersede, KeyOf;
  }

  lemma BeginWaits(st: State, card: Card)
    ensures var out := Begin(st, card);
            && |out.waits| == |st.waits| + 1 && out.waits[|st.waits|] == NewWait(card)
            && forall i :: 0 <= i < |st.waits| ==>
                 && KeyOf(out.waits[i]) == KeyOf(st.waits[i]) && Open(out.waits[i]) == Open(st.waits[i])
                 && (out.waits[i].decided <==> st.waits[i].decided || i == Superseded(st, (card.session, card.call)))
  {
    hide Superseded;
  }

  lemma BeginPoints(st: State, card: Card)
    requires Registered(st) && Fresh(st, (card.session, card.call))
    ensures Points(Begin(st, card).waits, Begin(st, card).waiting)
  {
    BeginKeys(st, card);
    BeginWaits(st, card);
    assert KeyOf(NewWait(card)) == (card.session, card.call) && Open(NewWait(card));
    hide Fresh, Begin, Superseded, NewWait, KeyOf, Open, NamesRegistered, Decidable;
  }

  lemma BeginNames(st: State, card: Card)
    requires Registered(st) && Fresh(st, (card.session, card.call))
    ensures NamesRegistered(Begin(st, card).waiting, Begin(st, card).named)
  {
    BeginKeys(st, card);
    hide Fresh, Begin, Points, Decidable;
  }

  lemma BeginDecidable(st: State, card: Card)
    requires AllOk(st) && Registered(st) && Fresh(st, (card.session, card.call))
    ensures Decidable(Begin(st, card).waits, Begin(st, card).waiting)
  {
    var out := Begin(st, card);
    BeginKeys(st, card);
    BeginWaits(st, card);
    assert KeyOf(NewWait(card)) == (card.session, card.call);
    hide Registered, Begin, AllOk, Fresh, Superseded, NewWait, KeyOf, Open;
    forall i | 0 <= i < |out.waits| && !out.waits[i].decided
      ensures KeyOf(out.waits[i]) in out.waiting && out.waiting[KeyOf(out.waits[i])] == i
    {
      if i < |st.waits| { StillRegistered(st, card, i); }
    }
  }

  lemma BeginRegistered(st: State, card: Card)
    requires AllOk(st) && Registered(st) && Fresh(st, (card.session, card.call))
    ensures Registered(Begin(st, card))
  {
    hide Points, NamesRegistered, Decidable, Begin, Fresh, AllOk;
    BeginPoints(st, card);
    BeginNames(st, card);
    BeginDecidable(st, card);
  }

  /** A card left undecided by a fresh Begin belongs to another session. */
  lemma StillRegistered(st: State, card: Card, i: nat)
    requires Registered(st) && Fresh(st, (card.session, card.call)) && AllOk(st)
    requires i < |st.waits| && !st.waits[i].decided && i != Superseded(st, (card.session, card.call))
    ensures KeyOf(st.waits[i]) in Begin(st, card).waiting && Begin(st, card).waiting[KeyOf(st.waits[i])] == i
  {
    assert WaitOk(st.waits[i]);
    assert Open(st.waits[i]);
    var k := KeyOf(st.waits[i]);
    assert k in st.waiting && st.waiting[k] == i && st.named[k.0] == k;
    assert k != (card.session, card.call);
    assert k.0 == card.session ==> Superseded(st, (card.session, card.call)) == i;
  }

  lemma OneOpenCard(st: State, i: nat, j: nat)
    requires CallsDistinct(st) && i < |st.waits| && j < |st.waits|
    requires Open(st.waits[i]) && Open(st.waits[j]) && KeyOf(st.waits[i]) == KeyOf(st.waits[j])
    ensures i == j
  {
  }

  lemma CloseSound(st: State, i: nat)
    requires Sound(st) && i < |st.waits| && st.waits[i].place.Returned?
    ensures Sound(Close(st, i))
  {
    CloseOk(st, i);
    var key := KeyOf(st.waits[i]);
    assert WaitOk(st.waits[i]);
    if key in st.waiting { OneOpenCard(st, st.waiting[key], i); }
    hide AllOk, WaitOk;
    ClosePoints(st, i);
    CloseNames(st, i);
    CloseWaits(st, i);
  }

  lemma ClosePoints(st: State, i: nat)
    requires Points(st.waits, st.waiting) && i < |st.waits|
    requires KeyOf(st.waits[i]) in st.waiting ==> st.waiting[KeyOf(st.waits[i])] == i
    ensures Points(Close(st, i).waits, Close(st, i).waiting)
  {
  }

  lemma CloseNames(st: State, i: nat)
    requires NamesRegistered(st.waiting, st.named) && i < |st.waits|
    requires KeyOf(st.waits[i]) in st.waiting ==> st.waiting[KeyOf(st.waits[i])] == i
    ensures NamesRegistered(Close(st, i).waiting, Close(st, i).named)
  {
  }

  lemma CloseWaits(st: State, i: nat)
    requires CallsDistinct(st) && Decidable(st.waits, st.waiting) && i < |st.waits| && st.waits[i].decided
    ensures CallsDistinct(Close(st, i)) && Decidable(Close(st, i).waits, Close(st, i).waiting)
  {
    var out := Close(st, i);
    assert forall j :: 0 <= j < |st.waits| ==>
           KeyOf(out.waits[j]) == KeyOf(st.waits[j]) && (Open(out.waits[j]) ==> Open(st.waits[j]));
  }

  /** A step of one card that keeps its name and never reopens it keeps the registration. */
  lemma UpdateSound(st: State, i: nat, w: Wait)
    requires Sound(st) && i < |st.waits| && KeyOf(w) == KeyOf(st.waits[i]) && AllOk(Update(st, i, w))
    requires Open(w) == Open(st.waits[i]) && (st.waits[i].decided ==> w.decided)
    ensures Sound(Update(st, i, w))
  {
    var out := Update(st, i, w);
    assert AlikeWaits(st.waits, out.waits) && out.waiting == st.waiting && out.named == st.named;
    hide AllOk, Update, AlikeWaits, Points, NamesRegistered, Decidable;
    AlikeDistinct(st, out);
    AlikePoints(st.waits, out.waits, st.waiting);
    AlikeDecidable(st.waits, out.waits, st.waiting);
  }

  /** The same cards by name, open or not, and no decision undone. */
  ghost predicate AlikeWaits(a: seq<Wait>, b: seq<Wait>) {
    |a| == |b| && forall j :: 0 <= j < |a| ==>
      KeyOf(b[j]) == KeyOf(a[j]) && Open(b[j]) == Open(a[j]) && (a[j].decided ==> b[j].decided)
  }

  lemma AlikeDistinct(st: State, out: State)
    requires AlikeWaits(st.waits, out.waits) && CallsDistinct(st)
    ensures CallsDistinct(out)
  {
    hide KeyOf, Open;
  }

  lemma AlikePoints(a: seq<Wait>, b: seq<Wait>, waiting: map<Key, nat>)
    requires AlikeWaits(a, b) && Points(a, waiting)
    ensures Points(b, waiting)
  {
    hide KeyOf, Open;
  }

  lemma AlikeDecidable(a: seq<Wait>, b: seq<Wait>, waiting: map<Key, nat>)
    requires AlikeWaits(a, b) && Decidable(a, waiting)
    ensures Decidable(b, waiting)
  {
    hide KeyOf, Open;
  }

  lemma OwnStepKeepsName(w: Wait)
    ensures KeyOf(Announce(w)) == KeyOf(w) && Open(Announce(w)) == Open(w) && (w.decided ==> Announce(w).decided)
    ensures KeyOf(Cancel(w)) == KeyOf(w) && Open(Cancel(w)) == Open(w) && (w.decided ==> Cancel(w).decided)
    ensures KeyOf(Receive(w)) == KeyOf(w) && Open(Receive(w)) == Open(w) && (w.decided ==> Receive(w).decided)
    ensures KeyOf(Publish(w)) == KeyOf(w) && Open(Publish(w)) == Open(w) && (w.decided ==> Publish(w).decided)
  {
  }

  lemma SignalSound(st: State, key: Key, signal: Signal)
    requires Sound(st) && key in st.waiting && st.waiting[key] < |st.waits|
    requires AllOk(SignalAt(st, key, signal))
    ensures Sound(SignalAt(st, key, signal))
  {
    var i := st.waiting[key];
    UpdateSound(st, i, Deliver(st.waits[i], signal));
    hide Sound, AllOk;
  }

  ghost predicate BeginsFresh(st: State, step: Step) {
    step.DoBegin? ==> Fresh(st, (step.card.session, step.card.call))
  }

  lemma StepSound(st: State, step: Step)
    requires Sound(st) && BeginsFresh(st, step)
    ensures Sound(Apply(st, step))
  {
    StepOk(st, step);
    hide Sound, Update, SignalAt, Deliver, Announce, Cancel, Receive, Publish, Close, Begin, DecideReply, AnswerReply,
        AllOk;
    match step
    case DoBegin(card) => BeginSound(st, card);
    case DoAnnounce(i) =>
      if i < |st.waits| { OwnStepKeepsName(st.waits[i]); UpdateSound(st, i, Announce(st.waits[i])); }
    case DoCancel(i) => if i < |st.waits| { OwnStepKeepsName(st.waits[i]); UpdateSound(st, i, Cancel(st.waits[i])); }
    case DoReceive(i) => if i < |st.waits| { OwnStepKeepsName(st.waits[i]); UpdateSound(st, i, Receive(st.waits[i])); }
    case DoPublish(i) => if i < |st.waits| { OwnStepKeepsName(st.waits[i]); UpdateSound(st, i, Publish(st.waits[i])); }
    case DoClose(i) => if i < |st.waits| && st.waits[i].place.Returned? { CloseSound(st, i); }
    case DoDecide(s, c, decision, saved) =>
      AcceptedOpen(st, (s, c), decision, saved, "");
      if DecideReply(st, (s, c), decision, saved).Accepted? {
        SignalSound(st, (s, c), Signal(decision, "", false));
      }
    case DoAnswer(s, c, answer) =>
      AcceptedOpen(st, (s, c), "", true, answer);
      if AnswerReply(st, (s, c), answer).Accepted? {
        SignalSound(st, (s, c), Signal("answered", answer, false));
      }
  }

  /** Every card of the history is opened with a call id no open card of its session has. */
  ghost predicate AllFresh(st: State, steps: seq<Step>)
    decreases |steps|
  {
    steps == [] || (BeginsFresh(st, steps[0]) && AllFresh(Apply(st, steps[0]), steps[1..]))
  }

  lemma {:induction false} EveryHistoryRegistered(st: State, steps: seq<Step>)
    requires Sound(st) && AllFresh(st, steps)
    ensures Sound(Run(st, steps))
    decreases |steps|
  {
    if steps != [] {
      StepSound(st, steps[0]);
      EveryHistoryRegistered(Apply(st, steps[0]), steps[1..]);
    }
  }

  // ---- What a repeated call id breaks ----

  lemma {:induction false} RunConcat(st: State, a: seq<Step>, b: seq<Step>)
    ensures Run(st, a + b) == Run(Run(st, a), b)
    decreases |a|
  {
    if a == [] {
      assert a + b == b;
    } else {
      RunConcat(Apply(st, a[0]), a[1..], b);
      assert (a + b)[1..] == a[1..] + b;
    }
  }

  ghost predicate NoBegin(steps: seq<Step>) {
    forall k :: 0 <= k < |steps| ==> !steps[k].DoBegin?
  }

  lemma {:induction false} NoBeginFresh(st: State, steps: seq<Step>)
    requires NoBegin(steps)
    ensures AllFresh(st, steps)
    decreases |steps|
  {
    if steps != [] { NoBeginFresh(Apply(st, steps[0]), steps[1..]); }
  }

  lemma {:induction false} HomeStepsDoNotBegin(st: State, i: nat, left: nat)
    requires i < |st.waits|
    ensures NoBegin(HomeSteps(st, i, left))
    decreases left
  {
    if left > 0 && i < |Apply(st, NextStep(st.waits[i], i)).waits| {
      HomeStepsDoNotBegin(Apply(st, NextStep(st.waits[i], i)), i, left - 1);
    }
  }

  /** The steps after which a card sharing its call id with an open one is no longer registered as it should. */
  function Breaking(st: State, card: Card, prior: nat): seq<Step>
    requires prior < |st.waits|
  {
    if !st.waits[prior].decided then []
    else
      var begun := Begin(st, card);
      if prior < |begun.waits| then HomeSteps(begun, prior, StepsLeft(begun.waits[prior])) + [DoClose(prior)] else []
  }

  /** The open card with the repeated call id is untouched by the Begin if it was decided. */
  lemma BeginLeavesDecided(st: State, card: Card, i: nat)
    requires i < |st.waits| && st.waits[i].decided
    ensures Begin(st, card).waits[i] == st.waits[i]
  {
  }

  lemma RepeatedCallBreaks(st: State, card: Card, i: nat)
    requires Sound(st) && i < |st.waits| && Open(st.waits[i]) && KeyOf(st.waits[i]) == (card.session, card.call)
    ensures NoBegin(Breaking(st, card, i)) && !Registered(Run(Begin(st, card), Breaking(st, card, i)))
  {
    var begun, key := Begin(st, card), (card.session, card.call);
    BeginWaits(st, card);
    if !st.waits[i].decided {
      assert st.waiting[key] == i && st.named[card.session] == key;
      assert Superseded(st, key) == -1;
      assert begun.waits[i] == st.waits[i] && begun.waiting[key] == |st.waits|;
    } else {
      StepOk(st, DoBegin(card));
      BeginLeavesDecided(st, card, i);
      var home := HomeSteps(begun, i, StepsLeft(begun.waits[i]));
      assert begun.waiting[key] == |st.waits| && begun.named[card.session] == key;
      hide Begin, Sound, StepsLeft, Registered;
      DecidedCardReturns(begun, i);
      HomeStepsDoNotBegin(begun, i, StepsLeft(begun.waits[i]));
      var back := Run(begun, home);
      RunConcat(begun, home, [DoClose(i)]);
      assert Run(back, [DoClose(i)]) == Close(back, i);
      Unnamed(back, i, |st.waits|);
    }
  }

  /** Closing a card whose key another wait holds takes the session's name away from that wait. */
  lemma Unnamed(st: State, i: nat, holder: nat)
    requires i < |st.waits| && i != holder
    requires var key := KeyOf(st.waits[i]);
             && key in st.waiting && st.waiting[key] == holder
             && key.0 in st.named && st.named[key.0] == key
    ensures !Registered(Close(st, i))
  {
    var key := KeyOf(st.waits[i]);
    assert key in Close(st, i).waiting && key.0 !in Close(st, i).named;
  }

  /**
   Opening a card keeps one named, decidable card for each session, whatever the open cards do next,
   exactly when no open card of the session has the same call id.
   */
  lemma FreshCallIffRegistered(st: State, card: Card)
    requires Sound(st)
    ensures Fresh(st, (card.session, card.call)) <==>
            forall more :: NoBegin(more) ==> Registered(Run(Begin(st, card), more))
  {
    hide Sound, Registered, Begin;
    if Fresh(st, (card.session, card.call)) {
      forall more | NoBegin(more) ensures Registered(Run(Begin(st, card), more)) {
        BeginSound(st, card);
        NoBeginFresh(Begin(st, card), more);
        EveryHistoryRegistered(Begin(st, card), more);
        SoundIsRegistered(Run(Begin(st, card), more));
      }
    } else {
      var i :| 0 <= i < |st.waits| && Open(st.waits[i]) && KeyOf(st.waits[i]) == (card.session, card.call);
      RepeatedCallBreaks(st, card, i);
    }
  }

  lemma SoundIsRegistered(st: State)
    requires Sound(st)
    ensures Registered(st)
  {
  }

  /** The empty gate is where every history starts. */
  lemma InitSound()
    ensures Sound(INIT)
  {
  }

  // ---- From the empty gate ----

  /** However decisions, answers, supersession and cancellation race, from the first card on. */
  lemma EveryCardOfAnyHistory(steps: seq<Step>)
    ensures forall w :: w in Run(INIT, steps).waits ==>
              && w.sent <= 1 && |w.channel| <= 1 && |w.published| <= 1
              && (w.place.Returned? || w.place.Closed? ==> |w.published| == 1)
              && (|w.published| == 1 ==> w.decided)
  {
    InitSound();
    EveryCardDecidedOnce(INIT, steps);
  }

  /**
   In any history in which no card repeats the call id of an open card of its session, a session has
   at most one registered card, the one it names, and every card still to be decided is registered.
   */
  lemma OneCardPerSession(steps: seq<Step>)
    requires AllFresh(INIT, steps)
    ensures var st := Run(INIT, steps);
            && (forall j, k :: j in st.waiting && k in st.waiting && j.0 == k.0 ==> j == k)
            && (forall k :: k in st.waiting ==> k.0 in st.named && st.named[k.0] == k)
            && (forall i :: 0 <= i < |st.waits| && !st.waits[i].decided ==>
                  KeyOf(st.waits[i]) in st.waiting && st.waiting[KeyOf(st.waits[i])] == i)
  {
    InitSound();
    EveryHistoryRegistered(INIT, steps);
    var st := Run(INIT, steps);
    hide Run, AllFresh, AllOk, CallsDistinct, Points;
    forall j, k | j in st.waiting && k in st.waiting && j.0 == k.0 ensures j == k {
      RegisteredCardsOfOneSession(st, j, k);
    }
  }

  /** So in such a history any decision in a card's scope still reaches it while it is undecided. */
  lemma UndecidedCardCanBeDecided(steps: seq<Step>, i: nat, decision: string)
    requires AllFresh(INIT, steps)
    requires var st := Run(INIT, steps); i < |st.waits| && !st.waits[i].decided && InScope(st.waits[i], decision)
    requires ValidDecision(decision)
    ensures var st := Run(INIT, steps);
            var w := st.waits[i];
            var out := Apply(st, DoDecide(w.session, w.call, decision, true));
            && DecideReply(st, KeyOf(w), decision, true).Accepted?
            && out.waits == st.waits[i := Deliver(w, Signal(decision, "", false))]
  {
    OneCardPerSession(steps);
    hide Run, AllFresh, InScope, ValidDecision;
  }
}
