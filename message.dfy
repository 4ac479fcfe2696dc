/**
 * The general message of the protocol (Message.java): its type codes, the
 * combined type/urgency byte, the 16-bit length field, the message value itself,
 * Message.equals, and the generic body writer and reader.
 */
module Messages {
  import opened Wrappers
  import opened Addresses

  /** MessageType */
  datatype MessageType = Register | Query | Letter

  /** MessageType.toByte: the type code of each kind. */
  function ToByte(t: MessageType): (r: byte)
    ensures 1 <= r <= 3
  {
    match t
    case Register => 1
    case Query => 2
    case Letter => 3
  }

  /** MessageType.fromByte: defined exactly on the codes 1, 2 and 3; None stands for the thrown IllegalArgumentException. */
  function FromByte(code: int): (r: Option<MessageType>)
    ensures r.Some? <==> 1 <= code <= 3
    ensures r.Some? ==> ToByte(r.value) == code
  {
    if code == 1 then Some(Register)
    else if code == 2 then Some(Query)
    else if code == 3 then Some(Letter)
    else None
  }

  /** Every type survives toByte followed by fromByte. */
  lemma TypeCodeRoundTrip(t: MessageType)
    ensures FromByte(ToByte(t)) == Some(t)
  {
  }

  /** The urgency flag occupies bit 7 of the type byte. */
  const UrgentBit := 128

  /**
   * The byte toStream writes after the two addresses: the type code with bit 7
   * set when the message is urgent. The code is below 128, so the bitwise or of
   * the source is an addition here.
   */
  function TypeByte(t: MessageType, urgent: bool): (r: byte)
    ensures (r >= UrgentBit) == urgent && r % UrgentBit == ToByte(t)
  {
    ToByte(t) + if urgent then UrgentBit else 0
  }

  /** (type & 128) != 0 */
  function UrgentOf(b: byte): (r: bool)
    ensures r == (b / UrgentBit == 1)
  {
    b >= UrgentBit
  }

  /** type & 127 */
  function CodeOf(b: byte): (r: int)
    ensures 0 <= r < UrgentBit && b == r + (if UrgentOf(b) then UrgentBit else 0)
  {
    b % UrgentBit
  }

  /** Unpacking the type byte recovers both the type and the urgency flag. */
  lemma TypeByteUnpacks(t: MessageType, urgent: bool)
    ensures UrgentOf(TypeByte(t, urgent)) == urgent
    ensures CodeOf(TypeByte(t, urgent)) == ToByte(t)
    ensures FromByte(CodeOf(TypeByte(t, urgent))) == Some(t)
  {
  }

  /** DataOutput.writeShort: the low 16 bits of v, high byte first. */
  function ShortBytes(v: nat): (r: seq<byte>)
    ensures |r| == 2
  {
    [(v / 256) % 256, v % 256]
  }

  /** DataInput.readUnsignedShort on a high and a low byte. */
  function UnsignedShort(hi: byte, lo: byte): (r: nat)
    ensures r < 65536
  {
    hi as int * 256 + lo as int
  }

  /** DataInput.readShort: the same 16 bits read as a two's-complement value. */
  function SignedShort(hi: byte, lo: byte): (r: int)
    ensures -32768 <= r < 32768
  {
    var u := UnsignedShort(hi, lo);
    if u < 32768 then u else u - 65536
  }

  /** writeShort keeps the value modulo 65536. */
  lemma {:induction false} ShortUnsignedRoundTrip(v: nat)
    ensures UnsignedShort(ShortBytes(v)[0], ShortBytes(v)[1]) == v % 65536
  {
    var q, r := v / 256, v % 256;
    assert v == 256 * q + r;
    var q1, q0 := q / 256, q % 256;
    assert q == 256 * q1 + q0;
    assert v == 65536 * q1 + (256 * q0 + r);
    assert 0 <= 256 * q0 + r < 65536;
    assert v % 65536 == 256 * q0 + r;
  }

  /** Read back as a signed short, a written length is itself up to 32767 and 65536 less from 32768 to 65535. */
  lemma ShortSignedRoundTrip(v: nat)
    ensures v % 65536 < 32768 ==> SignedShort(ShortBytes(v)[0], ShortBytes(v)[1]) == v % 65536
    ensures v % 65536 >= 32768 ==> SignedShort(ShortBytes(v)[0], ShortBytes(v)[1]) == v % 65536 - 65536
  {
    ShortUnsignedRoundTrip(v);
  }

  /** The body of a QUERY message: the type subscribed to and the payload pattern. */
  datatype QueryBody = QueryBody(queryType: MessageType, pattern: seq<byte>)

  /** The Java class of a message object: Message, RegisterMessage or QueryMessage. */
  datatype Kind = Plain | RegisterKind | QueryKind(query: QueryBody)

  /**
   * A message: source, destination, type, urgency and the payload, which is
   * None where the Java field is null (a RegisterMessage never sets it).
   */
  datatype Message = Message(kind: Kind, src: Address, dest: Address, mtype: MessageType, urgent: bool, data: Option<seq<byte>>)

  /** The class a message of each type decodes to. */
  predicate KindMatchesType(m: Message) {
    && (m.kind.RegisterKind? <==> m.mtype == Register)
    && (m.kind.QueryKind? <==> m.mtype == Query)
  }

  /** Message.equals: source, destination, type and payload contents; urgency is not compared. */
  predicate BaseEquals(a: Message, b: Message)
    ensures BaseEquals(a, b) ==> a.(kind := b.kind, urgent := b.urgent) == b
  {
    a.src == b.src && a.dest == b.dest && a.mtype == b.mtype && a.data == b.data
  }

  /** Message.equals ignores the urgency flag on either side. */
  lemma BaseEqualsIgnoresUrgent(a: Message, b: Message, u: bool, v: bool)
    ensures BaseEquals(a.(urgent := u), b.(urgent := v)) == BaseEquals(a, b)
  {
  }

  /** Why decoding a frame can fail. */
  datatype DecodeError =
    | EndOfStream              // EOFException: fewer bytes than a field needs
    | UnknownType(code: int)   // IllegalArgumentException from MessageType.fromByte
    | NegativeArraySize(length: int)  // new byte[length] with a negative length
    | MalformedQuery           // the QUERY body decoder rejected the body

  /** Message.dataToStream: the 16-bit length field, then the payload. */
  function DataToStream(data: seq<byte>): (r: seq<byte>)
    ensures |r| == 2 + |data| && r[2..] == data
  {
    ShortBytes(|data|) + data
  }

  /** Message.dataFromStream: allocate len bytes and fill them from the input; returns the payload and what is left. */
  function DataFromStream(input: seq<byte>, len: int): (r: Result<(seq<byte>, seq<byte>), DecodeError>)
    ensures r.Success? <==> 0 <= len <= |input|
    ensures r.Success? ==> |r.value.0| == len && r.value.0 + r.value.1 == input
    ensures len < 0 ==> r == Failure(NegativeArraySize(len))
    ensures 0 <= len && |input| < len ==> r == Failure(EndOfStream)
  {
    if len < 0 then Failure(NegativeArraySize(len))
    else if |input| < len then Failure(EndOfStream)
    else Success((input[..len], input[len..]))
  }
}
