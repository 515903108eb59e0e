/**
 How an endpoint of internal/broker/client.go or device.go numbers and seals its messages. The
 cipher is ideal: a box is the session, the nonce, the authenticated header fields and the text.
 Send holds sendMu from taking a counter to handing the frame to the link, but a session may be
 opened, published or dropped at any point in between.
 */
module SealingSpec {
  import Wire

  type SessionId = nat
  type MessageId = string

  /** The agent counts a send that finds no session; the device does not. */
  datatype Role = Agent | Device

  datatype Box = Box(session: SessionId, nonce: nat, message: MessageId, counter: nat, text: string)

  datatype Frame =
    | Handshake(session: SessionId)      // the agent's SESSION_FINISH or the device's SESSION_READY
    | Cipher(session: SessionId, message: MessageId, counter: nat, box: Box)

  /** The holder of sendMu. */
  datatype Sending =
    | Free
    | Taken(session: SessionId, message: MessageId, counter: nat, text: string, size: nat)
    | Sealed(frame: Frame, size: nat)

  datatype Current = None | Some(id: SessionId)

  datatype Endpoint = Endpoint(
    role: Role,
    session: Current,
    counter: nat,
    nonces: map<SessionId, nat>,     // what each session's cipher has sealed so far
    openings: set<SessionId>,        // handshake sent, not published
    sending: Sending,
    ended: set<SessionId>,           // the link the session was opened on has ended
    wire: seq<Frame>,                // every frame handed to a link, in order
    lost: set<(SessionId, nat)>)     // sealed and never handed over

  function Init(role: Role): Endpoint {
    Endpoint(role, None, 0, map[], {}, Free, {}, [], {})
  }

  datatype Step =
    | DoOpen(session: SessionId, sent: bool)
    | DoPublish(session: SessionId)
    | DoAbandon(session: SessionId)
    | DoDrop
    | DoEnd(session: SessionId)
    | DoTake(message: MessageId, text: string, size: nat)    // `size` is the payload its frame will have
    | DoSeal
    | DoHandOver(stale: bool)                                // `stale`: to a link left over from before a reconnect

  /** A new session seals its first handshake message under nonce 0. */
  function Open(e: Endpoint, s: SessionId, sent: bool): Endpoint {
    var sealed := e.(nonces := e.nonces[s := 1]);
    if sent then sealed.(openings := e.openings + {s}, wire := e.wire + [Handshake(s)]) else sealed
  }

  function Publish(e: Endpoint, s: SessionId): Endpoint {
    e.(session := Some(s), counter := 1, openings := e.openings - {s})
  }

  function Take(e: Endpoint, message: MessageId, text: string, size: nat): Endpoint {
    match e.session
    case None => if e.role.Agent? then e.(counter := e.counter + 1) else e
    case Some(s) => e.(counter := e.counter + 1, sending := Taken(s, message, e.counter, text, size))
  }

  function Seal(e: Endpoint): Endpoint
    requires e.sending.Taken? && e.sending.session in e.nonces
  {
    var t := e.sending;
    var nonce := e.nonces[t.session];
    e.(nonces := e.nonces[t.session := nonce + 1],
       sending := Sealed(Cipher(t.session, t.message, t.counter, Box(t.session, nonce, t.message, t.counter, t.text)),
           t.size))
  }

  /** Encode takes the frame, and the link it is handed to is alive. */
  predicate Passes(e: Endpoint, stale: bool)
    requires e.sending.Sealed?
  {
    e.sending.size <= Wire.PayloadMax(Wire.FRAME_CIPHERTEXT) && !stale && e.sending.frame.session !in e.ended
  }

  function Transmit(e: Endpoint): Endpoint
    requires e.sending.Sealed?
  {
    e.(wire := e.wire + [e.sending.frame], sending := Free)
  }

  function Lose(e: Endpoint): Endpoint
    requires e.sending.Sealed? && e.sending.frame.Cipher?
  {
    e.(sending := Free, lost := e.lost + {(e.sending.frame.session, e.sending.frame.box.nonce)})
  }

  function Apply(e: Endpoint, step: Step): Endpoint {
    match step
    case DoOpen(s, sent) => if s !in e.nonces then Open(e, s, sent) else e
    case DoPublish(s) => if s in e.openings then Publish(e, s) else e
    case DoAbandon(s) => e.(openings := e.openings - {s})
    case DoDrop => e.(session := None)
    case DoEnd(s) => e.(ended := e.ended + {s})
    case DoTake(message, text, size) => if e.sending.Free? then Take(e, message, text, size) else e
    case DoSeal => if e.sending.Taken? && e.sending.session in e.nonces then Seal(e) else e
    case DoHandOver(stale) =>
      if !e.sending.Sealed? || !e.sending.frame.Cipher? then e else if Passes(e, stale) then Transmit(e) else Lose(e)
  }

  function Run(e: Endpoint, steps: seq<Step>): Endpoint
    decreases |steps|
  {
    if steps == [] then e else Run(Apply(e, steps[0]), steps[1..])
  }

  // ---- The other end ----

  /** OpenMessage: the box opens under the receiver's own nonce and the header as it arrived. */
  predicate Opens(f: Frame, s: SessionId, next: nat) {
    && f.Cipher? && f.session == s
    && f.box == Box(s, next, f.message, f.counter, f.box.text)
  }

  /** The ciphertext of one session, in wire order. */
  function Stream(wire: seq<Frame>, s: SessionId): seq<Frame> {
    if wire == [] then []
    else (if wire[0].Cipher? && wire[0].session == s then [wire[0]] else []) + Stream(wire[1..], s)
  }

  /** The receiver reads every frame of the stream, its nonce starting after the handshake's. */
  predicate ReadsAll(stream: seq<Frame>, s: SessionId, next: nat) {
    forall k :: 0 <= k < |stream| ==> Opens(stream[k], s, next + k)
  }
}
