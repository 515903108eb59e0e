/**
 The approval gate of internal/agent/gate.go. A card is one wait: a decided flag, a one-slot
 channel and a goroutine that selects on it. Every locked section, channel operation and publish
 is its own step, so decisions, answers, supersession and cancellation may interleave freely.
 */
module GateSpec {

  type SessionId = string
  type CallId = string
  type Key = (SessionId, CallId)

  datatype Scope = NoScopes | ShellScopes | FileScopes | PolicyScopes | Cycle | Question

  datatype Signal = Signal(decision: string, answer: string, logged: bool)

  /** Where the goroutine of awaitDecision is. */
  datatype Place =
    | Selecting                       // in its select
    | Draining                        // cancelled, found the card decided, receives the signal
    | Dismissing                      // cancelled first, about to publish the dismissal
    | Announcing(decision: string, value: string)    // holds an unlogged signal, about to publish it
    | Returned(value: string)         // has handed this back to its run
    | Closed                          // cleanup has run

  /** What the wait that superseded this one still has to do for it. */
  datatype Debt = Settled | OwesEvent | OwesSignal

  datatype Wait = Wait(
    session: SessionId, call: CallId, scope: Scope, folder: bool, grant: bool,
    decided: bool, channel: seq<Signal>, place: Place, debt: Debt,
    sent: nat,                 // signals ever put into the channel
    published: seq<string>)    // the ApprovalDecided events of this card

  datatype State = State(waits: seq<Wait>, waiting: map<Key, nat>, named: map<SessionId, Key>)

  const INIT := State([], map[], map[])

  function KeyOf(w: Wait): Key { (w.session, w.call) }

  predicate Open(w: Wait) { !w.place.Closed? }

  // ---- Opening and closing ----

  datatype Card = Card(session: SessionId, call: CallId, scope: Scope, folder: bool, grant: bool)

  function NewWait(card: Card): Wait {
    Wait(card.session, card.call, card.scope, card.folder, card.grant, false, [], Selecting, Settled, 0, [])
  }

  /** The wait whose card the new one replaces, if it is still to be decided. */
  function Superseded(st: State, key: Key): (prior: int)
    ensures prior >= 0 ==> prior < |st.waits| && !st.waits[prior].decided
  {
    if key.0 in st.named && st.named[key.0] != key && st.named[key.0] in st.waiting then
      var prior := st.waiting[st.named[key.0]];
      if prior < |st.waits| && !st.waits[prior].decided then prior else -1
    else -1
  }

  function Supersede(w: Wait): Wait { w.(decided := true, debt := OwesEvent) }

  /** beginWait's locked section. */
  function Begin(st: State, card: Card): State {
    var key := (card.session, card.call);
    var prior := Superseded(st, key);
    var waits := if prior >= 0 then st.waits[prior := Supersede(st.waits[prior])] else st.waits;
    var kept :=
      if card.session in st.named && st.named[card.session] != key then st.waiting - {st.named[card.session]}
          else st.waiting;
    State(waits + [NewWait(card)], kept[key := |st.waits|], st.named[card.session := key])
  }

  /** The cleanup closure. */
  function Close(st: State, i: nat): State
    requires i < |st.waits|
  {
    var w := st.waits[i];
    var key := KeyOf(w);
    State(st.waits[i := w.(place := Closed)],
          if key in st.waiting && st.waiting[key] == i then st.waiting - {key} else st.waiting,
          if w.session in st.named && st.named[w.session] == key then st.named - {w.session} else st.named)
  }

  // ---- Steps of one wait ----

  function Announce(w: Wait): Wait {
    match w.debt
    case OwesEvent => w.(published := w.published + ["superseded"], debt := OwesSignal)
    case OwesSignal => w.(channel := w.channel + [Signal("superseded", "", true)], sent := w.sent + 1, debt := Settled)
    case Settled => w
  }

  function Cancel(w: Wait): Wait {
    if !w.place.Selecting? then w
    else if w.decided then w.(place := Draining)
    else w.(decided := true, place := Dismissing)
  }

  /** The text an unlogged signal is published as. */
  function Heading(scope: Scope, signal: Signal): string {
    if scope.Question? && signal.answer != "" then "answered" else signal.decision
  }

  /** What the run gets back: an answer's text, or the decision. */
  function Handed(scope: Scope, signal: Signal): string {
    if scope.Question? && signal.answer != "" then signal.answer else signal.decision
  }

  function Receive(w: Wait): Wait {
    if !(w.place.Selecting? || w.place.Draining?) || w.channel == [] then w
    else
      var signal := w.channel[0];
      var value := Handed(w.scope, signal);
      w.(channel := w.channel[1..],
         place := if signal.logged then Returned(value) else Announcing(Heading(w.scope, signal), value))
  }

  function Publish(w: Wait): Wait {
    match w.place
    case Dismissing => w.(published := w.published + ["dismissed"], place := Returned("dismissed"))
    case Announcing(decision, value) => w.(published := w.published + [decision], place := Returned(value))
    case _ => w
  }

  // ---- Deciding ----

  datatype Reply = Accepted | NotFound | Invalid | NotThisScope | AlreadyDecided | GrantFailed

  predicate ValidDecision(decision: string) {
    decision in {"approve", "once", "run", "session", "folder", "operator_mode", "deny", "continue", "stop"}
  }

  /** DecideWith's scope checks. */
  predicate InScope(w: Wait, decision: string) {
    && (decision == "run" ==> w.scope.ShellScopes? || w.scope.FileScopes?)
    && (decision == "session" ==> !w.scope.NoScopes?)
    && (decision == "operator_mode" ==> w.scope.ShellScopes?)
    && (decision == "folder" ==> w.folder)
    && (decision in {"continue", "stop"} <==> w.scope.Cycle?)
  }

  function DecideReply(st: State, key: Key, decision: string, saved: bool): Reply {
    if !ValidDecision(decision) then Invalid
    else if key !in st.waiting || st.waiting[key] >= |st.waits| then NotFound
    else
      var w := st.waits[st.waiting[key]];
      if !InScope(w, decision) then NotThisScope
      else if w.decided then AlreadyDecided
      else if decision == "approve" && w.grant && !saved then GrantFailed
      else Accepted
  }

  function AnswerReply(st: State, key: Key, answer: string): Reply {
    if answer == "" || |answer| > 4000 then Invalid
    else if key !in st.waiting || st.waiting[key] >= |st.waits| then NotFound
    else
      var w := st.waits[st.waiting[key]];
      if !w.scope.Question? then NotThisScope else if w.decided then AlreadyDecided else Accepted
  }

  function Deliver(w: Wait, signal: Signal): Wait {
    w.(decided := true, channel := w.channel + [signal], sent := w.sent + 1)
  }

  function SignalAt(st: State, key: Key, signal: Signal): State
    requires key in st.waiting && st.waiting[key] < |st.waits|
  {
    var i := st.waiting[key];
    st.(waits := st.waits[i := Deliver(st.waits[i], signal)])
  }

  // ---- Steps and histories ----

  datatype Step =
    | DoBegin(card: Card)
    | DoAnnounce(wait: nat)
    | DoCancel(wait: nat)
    | DoReceive(wait: nat)
    | DoPublish(wait: nat)
    | DoClose(wait: nat)
    | DoDecide(session: SessionId, call: CallId, decision: string, saved: bool)
    | DoAnswer(session: SessionId, call: CallId, answer: string)

  function Update(st: State, i: nat, w: Wait): State
    requires i < |st.waits|
  {
    st.(waits := st.waits[i := w])
  }

  function Apply(st: State, step: Step): State {
    match step
    case DoBegin(card) => Begin(st, card)
    case DoAnnounce(i) => if i < |st.waits| then Update(st, i, Announce(st.waits[i])) else st
    case DoCancel(i) => if i < |st.waits| then Update(st, i, Cancel(st.waits[i])) else st
    case DoReceive(i) => if i < |st.waits| then Update(st, i, Receive(st.waits[i])) else st
    case DoPublish(i) => if i < |st.waits| then Update(st, i, Publish(st.waits[i])) else st
    case DoClose(i) => if i < |st.waits| && st.waits[i].place.Returned? then Close(st, i) else st
    case DoDecide(s, c, decision, saved) =>
      if DecideReply(st, (s, c), decision, saved).Accepted? then SignalAt(st, (s, c), Signal(decision, "", false))
          else st
    case DoAnswer(s, c, answer) =>
      if AnswerReply(st, (s, c), answer).Accepted? then SignalAt(st, (s, c), Signal("answered", answer, false)) else st
  }

  function Run(st: State, steps: seq<Step>): State
    decreases |steps|
  {
    if steps == [] then st else Run(Apply(st, steps[0]), steps[1..])
  }
}
