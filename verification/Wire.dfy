/**
 The frame layer of internal/broker/wire.go: version, type, big-endian payload length, payload.
 JSON is not part of this model: a payload is the bytes it marshals to.
 */
module Wire {

  newtype byte = x: int | 0 <= x < 0x100

  type Bytes = seq<byte>

  const WIRE_VERSION: byte := 0x02
  const FRAME_CIPHERTEXT: byte := 0x20
  const FRAME_ACK: byte := 0x21
  const FRAME_PONG: byte := 0x41
  const HEADER := 6
  const CONTROL_PAYLOAD_MAX := 0x1_0000        // 64 << 10
  const CIPHERTEXT_PAYLOAD_MAX := 0x80_0000    // 8 << 20

  datatype Frame = Frame(kind: byte, payload: Bytes)

  datatype Error = Short | UnsupportedVersion | WrongLength | OverLimit

  datatype Decoded = Accepted(frame: Frame) | Refused(error: Error)

  function PayloadMax(kind: byte): nat {
    if kind == FRAME_CIPHERTEXT then CIPHERTEXT_PAYLOAD_MAX else CONTROL_PAYLOAD_MAX
  }

  function BigEndian(n: nat): (bytes: Bytes)
    requires n < 0x1_0000_0000
    ensures |bytes| == 4
  {
    [(n / 0x100_0000) as byte, (n / 0x1_0000 % 0x100) as byte, (n / 0x100 % 0x100) as byte, (n % 0x100) as byte]
  }

  function FromBigEndian(bytes: Bytes): (n: nat)
    requires |bytes| == 4
    ensures n < 0x1_0000_0000
  {
    bytes[0] as nat * 0x100_0000 + bytes[1] as nat * 0x1_0000 + bytes[2] as nat * 0x100 + bytes[3] as nat
  }

  lemma BigEndianRoundTrip(n: nat)
    requires n < 0x1_0000_0000
    ensures FromBigEndian(BigEndian(n)) == n
  {
    assert n == n / 0x100 * 0x100 + n % 0x100;
    assert n / 0x100 == n / 0x1_0000 * 0x100 + n / 0x100 % 0x100;
    assert n / 0x1_0000 == n / 0x100_0000 * 0x100 + n / 0x1_0000 % 0x100;
  }

  lemma BigEndianUnique(bytes: Bytes)
    requires |bytes| == 4
    ensures BigEndian(FromBigEndian(bytes)) == bytes
  {
    var a, b, c, d := bytes[0] as nat, bytes[1] as nat, bytes[2] as nat, bytes[3] as nat;
    LowByte(a, b);
    LowByte(a * 0x100 + b, c);
    LowByte((a * 0x100 + b) * 0x100 + c, d);
    Shifts(FromBigEndian(bytes));
  }

  lemma LowByte(q: nat, d: nat)
    requires d < 0x100
    ensures (q * 0x100 + d) / 0x100 == q && (q * 0x100 + d) % 0x100 == d
  {
  }

  lemma Shifts(n: nat)
    ensures n / 0x1_0000 == n / 0x100 / 0x100 && n / 0x100_0000 == n / 0x100 / 0x100 / 0x100
  {
  }

  /** Every check of Decode, in its order. */
  function Decode(message: Bytes): Decoded {
    if |message| < HEADER then Refused(Short)
    else if message[0] != WIRE_VERSION then Refused(UnsupportedVersion)
    else
      var length := FromBigEndian(message[2..6]);
      if length != |message| - HEADER then Refused(WrongLength)
      else if length > PayloadMax(message[1]) then Refused(OverLimit)
      else Accepted(Frame(message[1], message[6..]))
  }

  /** The message a frame is spelled as. */
  function Spell(frame: Frame): Bytes
    requires |frame.payload| < 0x1_0000_0000
  {
    [WIRE_VERSION, frame.kind] + BigEndian(|frame.payload|) + frame.payload
  }

  /** A message byte by byte: version 2, the type, four bytes of length with the highest first, the body. */
  ghost predicate ByPosition(message: Bytes, kind: byte, body: Bytes) {
    && |message| == 6 + |body|
    && message[0] == 2 && message[1] == kind
    && message[2] as nat * 0x100_0000 + message[3] as nat * 0x1_0000 + message[4] as nat * 0x100 +
         message[5] as nat == |body|
    && forall i :: 0 <= i < |body| ==> message[6 + i] == body[i]
  }

  lemma SpelledByPosition(frame: Frame)
    requires |frame.payload| <= PayloadMax(frame.kind)
    ensures ByPosition(Spell(frame), frame.kind, frame.payload)
  {
    var message := Spell(frame);
    BigEndianRoundTrip(|frame.payload|);
    assert message[2..6] == BigEndian(|frame.payload|);
    assert message[2] == message[2..6][0] && message[3] == message[2..6][1];
    assert message[4] == message[2..6][2] && message[5] == message[2..6][3];
  }

  /** The limits: eight MiB for a ciphertext frame, 64 KiB for any other. */
  lemma Limits(kind: byte)
    ensures PayloadMax(kind) == if kind == 0x20 then 8 * 1024 * 1024 else 64 * 1024
  {
  }

  /**
   A message is accepted as a frame if and only if it is that frame byte by byte and its body is within
   the limit of its type.
   */
  lemma AcceptedByPosition(message: Bytes, frame: Frame)
    ensures Decode(message) == Accepted(frame) <==>
              ByPosition(message, frame.kind, frame.payload) && |frame.payload| <= PayloadMax(frame.kind)
  {
    if Decode(message) == Accepted(frame) {
      assert message[2..6][0] == message[2] && message[2..6][1] == message[3];
      assert message[2..6][2] == message[4] && message[2..6][3] == message[5];
    }
    if ByPosition(message, frame.kind, frame.payload) && |frame.payload| <= PayloadMax(frame.kind) {
      assert message[6..] == frame.payload;
      assert message[2..6][0] == message[2] && message[2..6][1] == message[3];
      assert message[2..6][2] == message[4] && message[2..6][3] == message[5];
    }
  }

  /** Encode: the header is written into the buffer before the body is appended. */
  method Encode(kind: byte, body: Bytes) returns (ok: bool, message: Bytes)
    ensures ok <==> |body| <= PayloadMax(kind)
    ensures ok ==> message == Spell(Frame(kind, body)) && Decode(message) == Accepted(Frame(kind, body))
    ensures ok ==> HEADER <= |message| <= HEADER + CIPHERTEXT_PAYLOAD_MAX
    ensures ok ==> ByPosition(message, kind, body)
  {
    message := [];
    if |body| > PayloadMax(kind) { return false, message; }
    var out := new byte[6];
    out[0] := WIRE_VERSION;
    out[1] := kind;
    var length := BigEndian(|body|);
    for i := 0 to 4
      invariant out[0] == WIRE_VERSION && out[1] == kind
      invariant forall k :: 0 <= k < i ==> out[2 + k] == length[k]
    {
      out[2 + i] := length[i];
    }
    assert out[..] == [WIRE_VERSION, kind] + length;
    message := out[..] + body;
    DecodeSpelled(Frame(kind, body));
    SpelledByPosition(Frame(kind, body));
    return true, message;
  }

  /** What is spelled within its limit is read back as it was. */
  lemma DecodeSpelled(frame: Frame)
    requires |frame.payload| <= PayloadMax(frame.kind)
    ensures Decode(Spell(frame)) == Accepted(frame)
  {
    BigEndianRoundTrip(|frame.payload|);
    var message := Spell(frame);
    assert message[2..6] == BigEndian(|frame.payload|);
    assert message[6..] == frame.payload;
  }

  /** What is accepted is exactly what is spelled: no two messages read as one frame. */
  lemma AcceptedIsSpelled(message: Bytes)
    ensures Decode(message).Accepted? <==>
            exists frame: Frame :: |frame.payload| <= PayloadMax(frame.kind) && Spell(frame) == message
  {
    if Decode(message).Accepted? {
      var frame := Decode(message).frame;
      BigEndianUnique(message[2..6]);
      assert message == message[..2] + message[2..6] + message[6..];
      assert message[..2] == [WIRE_VERSION, frame.kind];
      assert Spell(frame) == message;
    } else if exists frame: Frame :: |frame.payload| <= PayloadMax(frame.kind) && Spell(frame) == message {
      var frame: Frame :| |frame.payload| <= PayloadMax(frame.kind) && Spell(frame) == message;
      DecodeSpelled(frame);
    }
  }
}
