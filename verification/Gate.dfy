/**
 The gate object: the maps and the cards its mutex guards, one method for each locked section or
 channel operation, each proved to be the step of `GateSpec` it stands for.
 */
module GateObject {
  import opened GateSpec
  import Proofs = GateProofs

  class Gate {
    var waits: seq<Wait>
    var waiting: map<Key, nat>
    var pendingBySession: map<SessionId, Key>

    function St(): State
      reads this
    {
      State(waits, waiting, pendingBySession)
    }

    /** One signal and one event at most for each card, and exactly one event once its wait is over. */
    ghost predicate Valid()
      reads this
    {
      Proofs.AllOk(St())
    }

    /** Besides: each session has at most one registered card, the one it names, and it can be decided. */
    ghost predicate Registered()
      reads this
    {
      Proofs.Sound(St())
    }

    constructor ()
      ensures Valid() && Registered() && St() == INIT
    {
      waits, waiting, pendingBySession := [], map[], map[];
    }

    /** beginWait under the lock: the new wait and, if a card was superseded, the prior one. */
    method BeginWait(card: Card) returns (wait: nat, superseded: int)
      requires Valid()
      modifies this
      ensures Valid() && St() == Apply(old(St()), DoBegin(card))
      ensures old(Registered()) && Proofs.Fresh(old(St()), (card.session, card.call)) ==> Registered()
      ensures wait == |old(waits)| && superseded == Superseded(old(St()), (card.session, card.call))
    {
      hide Proofs.AllOk, Proofs.Sound;
      Proofs.StepOk(St(), DoBegin(card));
      if Registered() && Proofs.Fresh(St(), (card.session, card.call)) { Proofs.StepSound(St(), DoBegin(card)); }
      var key := (card.session, card.call);
      superseded := -1;
      if card.session in pendingBySession && pendingBySession[card.session] != key {
        var priorKey := pendingBySession[card.session];
        if priorKey in waiting {
          var prior := waiting[priorKey];
          if prior < |waits| && !waits[prior].decided {
            waits := waits[prior := Supersede(waits[prior])];
            superseded := prior;
          }
        }
        waiting := waiting - {priorKey};
      }
      wait := |waits|;
      waits := waits + [NewWait(card)];
      waiting := waiting[key := wait];
      pendingBySession := pendingBySession[card.session := key];
    }

    /** After the lock: the superseded event first, then its signal. */
    method AnnounceSuperseded(i: nat)
      requires i < |waits|
      requires Valid()
      modifies this`waits
      ensures Valid() && St() == Apply(old(St()), DoAnnounce(i))
      ensures old(Registered()) ==> Registered()
    {
      hide Proofs.AllOk, Proofs.Sound;
      Proofs.StepOk(St(), DoAnnounce(i));
      if Registered() { Proofs.StepSound(St(), DoAnnounce(i)); }
      var w := waits[i];
      if w.debt == OwesEvent {
        waits := waits[i := w.(published := w.published + ["superseded"], debt := OwesSignal)];
      } else if w.debt == OwesSignal {
        waits := waits[i := w.(channel := w.channel + [Signal("superseded", "", true)], sent := w.sent + 1,
            debt := Settled)];
      }
    }

    /** The ctx.Done arm of awaitDecision. */
    method OnCancelled(i: nat)
      requires i < |waits|
      requires Valid()
      modifies this`waits
      ensures Valid() && St() == Apply(old(St()), DoCancel(i))
      ensures old(Registered()) ==> Registered()
    {
      hide Proofs.AllOk, Proofs.Sound;
      Proofs.StepOk(St(), DoCancel(i));
      if Registered() { Proofs.StepSound(St(), DoCancel(i)); }
      var w := waits[i];
      if w.place.Selecting? {
        if w.decided {
          waits := waits[i := w.(place := Draining)];
        } else {
          waits := waits[i := w.(decided := true, place := Dismissing)];
        }
      }
    }

    /** Receiving the signal, in the select or after a late cancellation. */
    method OnSignal(i: nat)
      requires i < |waits|
      requires Valid()
      modifies this`waits
      ensures Valid() && St() == Apply(old(St()), DoReceive(i))
      ensures old(Registered()) ==> Registered()
    {
      hide Proofs.AllOk, Proofs.Sound;
      Proofs.StepOk(St(), DoReceive(i));
      if Registered() { Proofs.StepSound(St(), DoReceive(i)); }
      var w := waits[i];
      if (w.place.Selecting? || w.place.Draining?) && w.channel != [] {
        var signal := w.channel[0];
        var decision := signal.decision;
        if w.scope.Question? && signal.answer != "" {
          decision := "answered";
        }
        var value := if w.scope.Question? && signal.answer != "" then signal.answer else signal.decision;
        var place := if signal.logged then Returned(value) else Announcing(decision, value);
        waits := waits[i := w.(channel := w.channel[1..], place := place)];
      }
    }

    method PublishDecision(i: nat)
      requires i < |waits|
      requires Valid()
      modifies this`waits
      ensures Valid() && St() == Apply(old(St()), DoPublish(i))
      ensures old(Registered()) ==> Registered()
    {
      hide Proofs.AllOk, Proofs.Sound;
      Proofs.StepOk(St(), DoPublish(i));
      if Registered() { Proofs.StepSound(St(), DoPublish(i)); }
      var w := waits[i];
      if w.place.Dismissing? {
        waits := waits[i := w.(published := w.published + ["dismissed"], place := Returned("dismissed"))];
      } else if w.place.Announcing? {
        waits := waits[i := w.(published := w.published + [w.place.decision], place := Returned(w.place.value))];
      }
    }

    method Cleanup(i: nat)
      requires i < |waits| && waits[i].place.Returned?
      requires Valid()
      modifies this
      ensures Valid() && St() == Apply(old(St()), DoClose(i))
      ensures old(Registered()) ==> Registered()
    {
      hide Proofs.AllOk, Proofs.Sound;
      Proofs.StepOk(St(), DoClose(i));
      if Registered() { Proofs.StepSound(St(), DoClose(i)); }
      var w := waits[i];
      var key := KeyOf(w);
      if key in waiting && waiting[key] == i {
        waiting := waiting - {key};
      }
      if w.session in pendingBySession && pendingBySession[w.session] == key {
        pendingBySession := pendingBySession - {w.session};
      }
      waits := waits[i := w.(place := Closed)];
    }

    /** `saved` is whether the standing grant of an approval could be stored. */
    method DecideWith(s: SessionId, c: CallId, decision: string, saved: bool) returns (reply: Reply)
      requires Valid()
      modifies this`waits
      ensures Valid() && St() == Apply(old(St()), DoDecide(s, c, decision, saved))
      ensures old(Registered()) ==> Registered()
      ensures reply == DecideReply(old(St()), (s, c), decision, saved)
    {
      hide Proofs.AllOk, Proofs.Sound;
      Proofs.StepOk(St(), DoDecide(s, c, decision, saved));
      if Registered() { Proofs.StepSound(St(), DoDecide(s, c, decision, saved)); }
      if !ValidDecision(decision) { return Invalid; }
      if (s, c) !in waiting || waiting[(s, c)] >= |waits| { return NotFound; }
      var i := waiting[(s, c)];
      var w := waits[i];
      if decision == "run" && !w.scope.ShellScopes? && !w.scope.FileScopes? { return NotThisScope; }
      if decision == "session" && w.scope.NoScopes? { return NotThisScope; }
      if decision == "operator_mode" && !w.scope.ShellScopes? { return NotThisScope; }
      if decision == "folder" && !w.folder { return NotThisScope; }
      if (decision == "continue" || decision == "stop") && !w.scope.Cycle? { return NotThisScope; }
      if w.scope.Cycle? && decision != "continue" && decision != "stop" { return NotThisScope; }
      assert InScope(w, decision);
      if w.decided { return AlreadyDecided; }
      if decision == "approve" && w.grant && !saved { return GrantFailed; }
      waits := waits[i := w.(decided := true, channel := w.channel + [Signal(decision, "", false)],
          sent := w.sent + 1)];
      return Accepted;
    }

    /** `answer` is already trimmed. */
    method AnswerQuestion(s: SessionId, c: CallId, answer: string) returns (reply: Reply)
      requires Valid()
      modifies this`waits
      ensures Valid() && St() == Apply(old(St()), DoAnswer(s, c, answer))
      ensures old(Registered()) ==> Registered()
      ensures reply == AnswerReply(old(St()), (s, c), answer)
    {
      hide Proofs.AllOk, Proofs.Sound;
      Proofs.StepOk(St(), DoAnswer(s, c, answer));
      if Registered() { Proofs.StepSound(St(), DoAnswer(s, c, answer)); }
      if answer == "" || |answer| > 4000 { return Invalid; }
      if (s, c) !in waiting || waiting[(s, c)] >= |waits| { return NotFound; }
      var i := waiting[(s, c)];
      var w := waits[i];
      if !w.scope.Question? { return NotThisScope; }
      if w.decided { return AlreadyDecided; }
      waits := waits[i := w.(decided := true, channel := w.channel + [Signal("answered", answer, false)],
          sent := w.sent + 1)];
      return Accepted;
    }
  }
}
