/**
 What a card's one event says and what its run gets back: the decision of the step that decided it,
 over every history of the gate.
 */
module GateEvents {
  import opened GateSpec
  import opened GateProofs

  /** The event of a card that this step decides. */
  function Says(step: Step): string {
    match step
    case DoDecide(_, _, decision, _) => decision
    case DoAnswer(_, _, _) => "answered"
    case DoBegin(_) => "superseded"
    case DoCancel(_) => "dismissed"
    case _ => ""
  }

  /** What the run of a card that this step decides gets back: an answer's own text. */
  function Gives(step: Step): string {
    if step.DoAnswer? then step.answer else Says(step)
  }

  /** The step is about this card. */
  predicate Concerns(step: Step, i: nat, w: Wait) {
    match step
    case DoDecide(s, c, _, _) => w.session == s && w.call == c
    case DoAnswer(s, c, _) => w.session == s && w.call == c && w.scope.Question?
    case DoBegin(card) => w.session == card.session
    case DoCancel(j) => j == i
    case _ => false
  }

  ghost predicate SignalSays(signal: Signal, scope: Scope, step: Step) {
    if signal.logged then step.DoBegin? && signal.decision == "superseded" && signal.answer == ""
    else match step
      case DoDecide(_, _, decision, _) => signal.decision == decision && signal.answer == ""
      case DoAnswer(_, _, answer) =>
        signal.decision == "answered" && signal.answer == answer && answer != "" && scope.Question?
      case _ => false
  }

  /** Everything a decided card holds agrees with the step that decided it. */
  ghost predicate CardSays(w: Wait, step: Step) {
    && (w.published == [] || w.published == [Says(step)])
    && (!w.debt.Settled? ==> step.DoBegin?)
    && (w.place.Dismissing? ==> step.DoCancel?)
    && (w.place.Announcing? ==> w.place.decision == Says(step) && w.place.value == Gives(step))
    && (w.place.Returned? ==> w.place.value == Gives(step))
    && (w.channel != [] ==> SignalSays(w.channel[0], w.scope, step))
  }

  // ---- Keys ----

  /** A key is registered for a card of that name, and a session names its own. */
  ghost predicate KeysOwn(st: State) {
    && (forall k :: k in st.waiting ==> st.waiting[k] < |st.waits| && KeyOf(st.waits[st.waiting[k]]) == k)
    && (forall s :: s in st.named ==> st.named[s].0 == s)
  }

  lemma UpdateKeys(st: State, i: nat, w: Wait)
    requires KeysOwn(st) && i < |st.waits| && KeyOf(w) == KeyOf(st.waits[i])
    ensures KeysOwn(Update(st, i, w))
  {
    hide KeyOf;
  }

  lemma BeginKeysOwn(st: State, card: Card)
    requires KeysOwn(st)
    ensures KeysOwn(Begin(st, card))
  {
    BeginWaits(st, card);
    assert KeyOf(NewWait(card)) == (card.session, card.call);
    var out := Begin(st, card);
    assert forall k :: k in out.waiting && k != (card.session, card.call) ==>
      k in st.waiting && out.waiting[k] == st.waiting[k];
    hide KeyOf, Superseded, NewWait;
  }

  lemma CloseKeysOwn(st: State, i: nat)
    requires KeysOwn(st) && i < |st.waits|
    ensures KeysOwn(Close(st, i))
  {
    var out := Close(st, i);
    assert forall j :: 0 <= j < |st.waits| ==> KeyOf(out.waits[j]) == KeyOf(st.waits[j]);
  }

  lemma StepKeys(st: State, step: Step)
    requires KeysOwn(st)
    ensures KeysOwn(Apply(st, step))
  {
    hide KeysOwn, Update, Announce, Cancel, Receive, Publish, Deliver, Close, Begin, DecideReply, AnswerReply;
    match step
    case DoBegin(card) => BeginKeysOwn(st, card);
    case DoAnnounce(i) => if i < |st.waits| { SameName(st.waits[i]); UpdateKeys(st, i, Announce(st.waits[i])); }
    case DoCancel(i) => if i < |st.waits| { SameName(st.waits[i]); UpdateKeys(st, i, Cancel(st.waits[i])); }
    case DoReceive(i) => if i < |st.waits| { SameName(st.waits[i]); UpdateKeys(st, i, Receive(st.waits[i])); }
    case DoPublish(i) => if i < |st.waits| { SameName(st.waits[i]); UpdateKeys(st, i, Publish(st.waits[i])); }
    case DoClose(i) => if i < |st.waits| { CloseKeysOwn(st, i); }
    case DoDecide(s, c, decision, saved) =>
      AcceptedThere(st, (s, c), decision, saved, "");
      if DecideReply(st, (s, c), decision, saved).Accepted? { SignalKeys(st, (s, c), Signal(decision, "", false)); }
    case DoAnswer(s, c, answer) =>
      AcceptedThere(st, (s, c), "", true, answer);
      if AnswerReply(st, (s, c), answer).Accepted? { SignalKeys(st, (s, c), Signal("answered", answer, false)); }
  }

  lemma SameName(w: Wait)
    ensures KeyOf(Announce(w)) == KeyOf(w) && KeyOf(Cancel(w)) == KeyOf(w)
    ensures KeyOf(Receive(w)) == KeyOf(w) && KeyOf(Publish(w)) == KeyOf(w)
    ensures forall signal :: KeyOf(Deliver(w, signal)) == KeyOf(w)
  {
  }

  lemma AcceptedThere(st: State, key: Key, decision: string, saved: bool, answer: string)
    ensures DecideReply(st, key, decision, saved).Accepted? ==>
              key in st.waiting && st.waiting[key] < |st.waits| && !st.waits[st.waiting[key]].decided
    ensures AnswerReply(st, key, answer).Accepted? ==>
              && key in st.waiting && st.waiting[key] < |st.waits| && !st.waits[st.waiting[key]].decided
              && st.waits[st.waiting[key]].scope.Question? && answer != ""
  {
  }

  lemma SignalKeys(st: State, key: Key, signal: Signal)
    requires KeysOwn(st) && key in st.waiting && st.waiting[key] < |st.waits|
    ensures KeysOwn(SignalAt(st, key, signal))
  {
    var i := st.waiting[key];
    SameName(st.waits[i]);
    hide KeysOwn, Deliver;
    UpdateKeys(st, i, Deliver(st.waits[i], signal));
  }

  // ---- One card ----

  /** The card's own steps keep it saying what decided it. */
  lemma OwnStepSays(w: Wait, step: Step)
    requires WaitOk(w) && w.decided && CardSays(w, step)
    ensures CardSays(Announce(w), step) && CardSays(Cancel(w), step) && CardSays(Receive(w), step)
            && CardSays(Publish(w), step)
    ensures CardSays(w.(place := Closed), step)
  {
  }

  /** The step that decides a card is about it, and the card holds what the step says. */
  lemma DecidingStep(st: State, step: Step, i: nat)
    requires AllOk(st) && KeysOwn(st) && i < |st.waits| && !st.waits[i].decided
    requires i < |Apply(st, step).waits| && Apply(st, step).waits[i].decided
    ensures Concerns(step, i, st.waits[i]) && CardSays(Apply(st, step).waits[i], step)
  {
    var w := st.waits[i];
    assert WaitOk(w);
    hide AllOk;
    match step
    case DoBegin(card) => SupersededIs(st, card, i);
    case DoDecide(s, c, decision, saved) =>
      AcceptedThere(st, (s, c), decision, saved, "");
      hide DecideReply;
      assert st.waiting[(s, c)] == i;
      DecidedBy(w, step, Signal(decision, "", false));
    case DoAnswer(s, c, answer) =>
      AcceptedThere(st, (s, c), "", true, answer);
      hide AnswerReply;
      assert st.waiting[(s, c)] == i;
      DecidedBy(w, step, Signal("answered", answer, false));
    case DoCancel(j) =>
    case DoAnnounce(j) =>
    case DoReceive(j) =>
    case DoPublish(j) =>
    case DoClose(j) =>
  }

  lemma DecidedBy(w: Wait, step: Step, signal: Signal)
    requires WaitOk(w) && !w.decided && !signal.logged && SignalSays(signal, w.scope, step)
    ensures CardSays(Deliver(w, signal), step)
  {
    assert Deliver(w, signal).channel == [signal];
  }

  lemma SupersededIs(st: State, card: Card, i: nat)
    requires KeysOwn(st) && i < |st.waits| && !st.waits[i].decided && WaitOk(st.waits[i])
    requires Begin(st, card).waits[i].decided
    ensures st.waits[i].session == card.session && CardSays(Begin(st, card).waits[i], DoBegin(card))
  {
    assert Begin(st, card).waits[i] == Supersede(st.waits[i]);
    assert i == Superseded(st, (card.session, card.call));
  }

  // ---- Histories ----

  /** The step at k decided the card, and is about it. */
  ghost predicate DecidedAt(steps: seq<Step>, i: nat, k: nat) {
    && k < |steps|
    && var before, after := Run(INIT, steps[..k]), Run(INIT, steps[..k + 1]);
       && i < |before.waits| && !before.waits[i].decided && Concerns(steps[k], i, before.waits[i])
       && i < |after.waits| && after.waits[i].decided
  }

  lemma RunOne(steps: seq<Step>)
    requires steps != []
    ensures Run(INIT, steps) == Apply(Run(INIT, steps[..|steps| - 1]), steps[|steps| - 1])
  {
    hide Apply;
    var n := |steps| - 1;
    assert steps == steps[..n] + [steps[n]];
    RunConcat(INIT, steps[..n], [steps[n]]);
    var st := Run(INIT, steps[..n]);
    assert [steps[n]][1..] == [];
    assert Run(st, [steps[n]]) == Apply(st, steps[n]);
  }

  lemma {:induction false} EveryHistoryKeys(steps: seq<Step>)
    ensures AllOk(Run(INIT, steps)) && KeysOwn(Run(INIT, steps))
    decreases |steps|
  {
    if steps != [] {
      var n := |steps| - 1;
      EveryHistoryKeys(steps[..n]);
      RunOne(steps);
      hide *;
      StepOk(Run(INIT, steps[..n]), steps[n]);
      StepKeys(Run(INIT, steps[..n]), steps[n]);
    }
  }

  lemma DecidedLonger(steps: seq<Step>, i: nat, k: nat)
    requires steps != [] && DecidedAt(steps[..|steps| - 1], i, k)
    ensures DecidedAt(steps, i, k) && steps[k] == steps[..|steps| - 1][k]
  {
    var front := steps[..|steps| - 1];
    assert front[..k] == steps[..k] && front[..k + 1] == steps[..k + 1];
    hide Run;
  }

  lemma {:induction false} DecidedSays(steps: seq<Step>, i: nat) returns (k: nat)
    requires i < |Run(INIT, steps).waits| && Run(INIT, steps).waits[i].decided
    ensures DecidedAt(steps, i, k) && CardSays(Run(INIT, steps).waits[i], steps[k])
    decreases |steps|
  {
    assert steps != [];
    var n := |steps| - 1;
    var st := Run(INIT, steps[..n]);
    RunOne(steps);
    EveryHistoryKeys(steps[..n]);
    NewCardUndecided(st, steps[n], i);
    assert steps[..n + 1] == steps;
    hide Run, Apply, KeysOwn, CardSays;
    if st.waits[i].decided {
      k := DecidedSays(steps[..n], i);
      DecidedLonger(steps, i, k);
      StillSays(st, steps[n], i, steps[k]);
    } else {
      k := n;
      DecidingStep(st, steps[n], i);
      assert steps[..k] == steps[..n] && steps[..k + 1] == steps;
    }
  }

  lemma NewCardUndecided(st: State, step: Step, i: nat)
    requires i < |Apply(st, step).waits| && Apply(st, step).waits[i].decided
    ensures i < |st.waits|
  {
    if step.DoBegin? {
      BeginWaits(st, step.card);
      assert !NewWait(step.card).decided;
      hide Begin;
    } else {
      AcceptedThere(st, if step.DoDecide? || step.DoAnswer? then (step.session, step.call) else ("", ""),
                    if step.DoDecide? then step.decision else "", step.DoDecide? && step.saved,
                    if step.DoAnswer? then step.answer else "");
      hide Announce, Cancel, Receive, Publish, Deliver, DecideReply, AnswerReply;
    }
  }

  lemma StillSays(st: State, next: Step, i: nat, step: Step)
    requires AllOk(st) && i < |st.waits| && st.waits[i].decided && CardSays(st.waits[i], step)
    ensures i < |Apply(st, next).waits| && CardSays(Apply(st, next).waits[i], step)
  {
    assert WaitOk(st.waits[i]);
    OwnStepSays(st.waits[i], step);
    StepOnCard(st, next, i);
    hide *;
  }

  /**
   Over every history: a decided card was decided by one step, which was about it. The card's event is
   that step's decision as it was sent, "answered" for an answer, "superseded" when a newer card of its
   session took its place and "dismissed" when its run was cancelled first; and its run gets back the
   same, or an answer's own text.
   */
  lemma EventSaysDecision(steps: seq<Step>, i: nat) returns (k: nat)
    requires i < |Run(INIT, steps).waits| && Run(INIT, steps).waits[i].decided
    ensures DecidedAt(steps, i, k)
    ensures var w, step := Run(INIT, steps).waits[i], steps[k];
            && (step.DoDecide? || step.DoAnswer? || step.DoBegin? || step.DoCancel?)
            && (w.published == [] || w.published == [Says(step)])
            && (w.place.Returned? || w.place.Closed? ==> w.published == [Says(step)])
            && (w.place.Returned? ==> w.place.value == Gives(step))
  {
    k := DecidedSays(steps, i);
    EveryCardOfAnyHistory(steps);
    assert Run(INIT, steps).waits[i] in Run(INIT, steps).waits;
    hide Run;
  }

  // ---- What may be decided ----

  /** The decisions a card takes, by its kind. */
  function Offered(scope: Scope, folder: bool): set<string> {
    var once := {"approve", "once", "deny"} + (if folder then {"folder"} else {});
    match scope
    case NoScopes => once
    case ShellScopes => once + {"run", "session", "operator_mode"}
    case FileScopes => once + {"run", "session"}
    case PolicyScopes => once + {"session"}
    case Question => once + {"session"}
    case Cycle => {"continue", "stop"}
  }

  /**
   A decision is accepted exactly when its card is registered and undecided, offers the decision, and
   an approval that grants for good could be saved.
   */
  lemma AcceptedIffOffered(st: State, s: SessionId, c: CallId, decision: string, saved: bool)
    ensures DecideReply(st, (s, c), decision, saved).Accepted? <==>
              && (s, c) in st.waiting && st.waiting[(s, c)] < |st.waits|
              && var w := st.waits[st.waiting[(s, c)]];
                 !w.decided && decision in Offered(w.scope, w.folder) && (decision == "approve" && w.grant ==> saved)
  {
  }

  /** An answer is accepted exactly when it has one to 4000 characters and its card is an undecided question. */
  lemma AnswerAcceptedIff(st: State, s: SessionId, c: CallId, answer: string)
    ensures AnswerReply(st, (s, c), answer).Accepted? <==>
              && 1 <= |answer| <= 4000
              && (s, c) in st.waiting && st.waiting[(s, c)] < |st.waits|
              && var w := st.waits[st.waiting[(s, c)]]; !w.decided && w.scope.Question?
  {
  }
}
