/**
 The endpoint object: the session, its counter and the cipher's nonce, edited by the sections of
 Send, establish and serve, each proved to be its step of `SealingSpec` and to keep what every run keeps.
 */
module SealingObject {
  import Wire
  import opened SealingSpec
  import Proofs = SealingProofs

  class SealingEndpoint {
    const role: Role
    var session: Current
    var counter: nat
    var nonces: map<SessionId, nat>
    var openings: set<SessionId>
    var sending: Sending
    var ended: set<SessionId>
    var wire: seq<Frame>
    var lost: set<(SessionId, nat)>

    function St(): Endpoint
      reads this
    {
      Endpoint(role, session, counter, nonces, openings, sending, ended, wire, lost)
    }

    /** Counters are nonces, rise on the wire and follow the handshake; nothing sealed is unaccounted for. */
    ghost predicate Valid()
      reads this
    {
      Proofs.Inv(St())
    }

    constructor (role: Role)
      ensures Valid() && St() == Init(role)
    {
      this.role := role;
      session, counter, nonces, openings := None, 0, map[], {};
      sending, ended, wire, lost := Free, {}, [], {};
      new;
      hide Proofs.Inv;
      Proofs.InitInv(role);
    }

    /** The handshake's own sealed message; `sent` is whether the link took its frame. */
    method OpenSession(s: SessionId, sent: bool)
      requires s !in nonces
      requires Valid()
      modifies this
      ensures Valid() && St() == Apply(old(St()), DoOpen(s, sent))
    {
      hide Proofs.Inv;
      Proofs.StepInv(St(), DoOpen(s, sent));
      nonces := nonces[s := 1];
      if sent {
        openings := openings + {s};
        wire := wire + [Handshake(s)];
      }
    }

    /** The session is published with its counter at one: the handshake's message was counter 0. */
    method PublishSession(s: SessionId)
      requires s in openings
      requires Valid()
      modifies this`session, this`counter, this`openings
      ensures Valid() && St() == Apply(old(St()), DoPublish(s))
    {
      hide Proofs.Inv;
      Proofs.StepInv(St(), DoPublish(s));
      session, counter := Some(s), 1;
      openings := openings - {s};
    }

    method DropSession()
      requires Valid()
      modifies this`session
      ensures Valid() && St() == Apply(old(St()), DoDrop)
    {
      hide Proofs.Inv;
      Proofs.StepInv(St(), DoDrop);
      session := None;
    }

    /** The link the session was opened on ends. */
    method EndLink(s: SessionId)
      requires Valid()
      modifies this`ended
      ensures Valid() && St() == Apply(old(St()), DoEnd(s))
    {
      hide Proofs.Inv;
      Proofs.StepInv(St(), DoEnd(s));
      ended := ended + {s};
    }

    /** Under sendMu, the locked section that reads the session and takes a counter. */
    method TakeCounter(message: MessageId, text: string, size: nat) returns (ok: bool)
      requires sending.Free?
      requires Valid()
      modifies this`counter, this`sending
      ensures Valid() && St() == Apply(old(St()), DoTake(message, text, size)) && ok == session.Some?
    {
      hide Proofs.Inv;
      Proofs.StepInv(St(), DoTake(message, text, size));
      var current, taken := session, counter;
      if role.Agent? || current.Some? {
        counter := counter + 1;
      }
      if current.None? { return false; }
      sending := Taken(current.id, message, taken, text, size);
      return true;
    }

    /** SealMessage advances the cipher of the session read above, whatever session is current now. */
    method SealTaken()
      requires sending.Taken? && sending.session in nonces
      requires Valid()
      modifies this`nonces, this`sending
      ensures Valid() && St() == Apply(old(St()), DoSeal)
    {
      hide Proofs.Inv;
      Proofs.StepInv(St(), DoSeal);
      var s, nonce := sending.session, nonces[sending.session];
      var box := Box(s, nonce, sending.message, sending.counter, sending.text);
      nonces := nonces[s := nonce + 1];
      sending := Sealed(Cipher(s, sending.message, sending.counter, box), sending.size);
    }

    /** Encode and the link: a frame over its limit, or a link that is gone, loses the message. */
    method HandOver(stale: bool) returns (sent: bool)
      requires sending.Sealed? && sending.frame.Cipher?
      requires Valid()
      modifies this`wire, this`lost, this`sending
      ensures Valid() && St() == Apply(old(St()), DoHandOver(stale))
      ensures sent <==>
                && old(sending).size <= Wire.PayloadMax(Wire.FRAME_CIPHERTEXT)
                && !stale && old(sending).frame.session !in ended
    {
      hide Proofs.Inv;
      Proofs.StepInv(St(), DoHandOver(stale));
      var frame := sending.frame;
      sent := false;
      if sending.size <= Wire.PayloadMax(Wire.FRAME_CIPHERTEXT) && !stale && frame.session !in ended {
        wire := wire + [frame];
        sent := true;
      } else {
        lost := lost + {(frame.session, frame.box.nonce)};
      }
      sending := Free;
    }
  }
}
