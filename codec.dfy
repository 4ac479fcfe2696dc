/**
 * The frame codec of Message.java: toStream/toByteArray and
 * fromStream/fromByteArray with the body writer and reader chosen by the
 * message class, and the round-trip properties of the pair.
 *
 * A frame is the destination GID, the source GID, the type byte, a 16-bit
 * big-endian body length and the body.
 */
module Codec {
  import opened Wrappers
  import opened Addresses
  import opened Messages
  import opened RegisterMessages

  /**
   * QueryMessage.java is not part of this model, so the QUERY body writer and
   * reader are a parameter: any pair of functions. Its body is taken to be
   * framed like the generic one, a length field and then that many bytes.
   */
  datatype QueryCodec = QueryCodec(encode: QueryBody -> seq<byte>, decode: seq<byte> -> Option<QueryBody>)

  /** The assumption the QUERY round trip rests on: the reader inverts the writer. */
  ghost predicate Sound(qc: QueryCodec) {
    forall q :: qc.decode(qc.encode(q)) == Some(q)
  }

  /** Bytes before the body: two addresses, the type byte and the length field. */
  const HeaderLength := 2 * AddressLength + 1 + 2

  /** A message toStream can write: a plain Message needs its payload (a null one throws NullPointerException). */
  predicate Encodable(m: Message) {
    m.kind.Plain? ==> m.data.Some?
  }

  /** dataToStream, dispatched on the class of the message. */
  function BodyToStream(qc: QueryCodec, m: Message): (r: seq<byte>)
    requires Encodable(m)
    ensures |r| >= 2
    ensures m.kind.RegisterKind? ==> r == [0, 0]
    ensures m.kind.Plain? ==> r[2..] == m.data.value
  {
    match m.kind
    case Plain => DataToStream(m.data.value)
    case RegisterKind => RegisterDataToStream()
    case QueryKind(q) => DataToStream(qc.encode(q))
  }

  /** Message.toStream: the bytes it writes for m. */
  function ToStream(qc: QueryCodec, m: Message): (r: seq<byte>)
    requires Encodable(m)
    ensures |r| >= HeaderLength && r[6] == TypeByte(m.mtype, m.urgent)
  {
    Gid(m.dest) + Gid(m.src) + [TypeByte(m.mtype, m.urgent)] + BodyToStream(qc, m)
  }

  /**
   * Message.toByteArray: toStream on a byte-array stream whose initial
   * capacity is computed from data.length, so a message without a payload
   * (every RegisterMessage and QueryMessage) throws NullPointerException.
   */
  function ToByteArray(qc: QueryCodec, m: Message): (r: Option<seq<byte>>)
    ensures r.Some? <==> m.data.Some?
    ensures r.Some? ==> Encodable(m) && r.value == ToStream(qc, m)
  {
    if m.data.Some? then Some(ToStream(qc, m)) else None
  }

  /** toByteArray as evidently intended: the frame of every message toStream can write. */
  function ToByteArrayCorrected(qc: QueryCodec, m: Message): (r: seq<byte>)
    requires Encodable(m)
    ensures m.data.Some? ==> ToByteArray(qc, m) == Some(r)
    ensures |r| >= HeaderLength && r[6] == TypeByte(m.mtype, m.urgent)
  {
    ToStream(qc, m)
  }

  /** The layout of a generic frame: 2 * addressLength + 3 + |data| bytes, the fields in order. */
  lemma PlainFrameLayout(qc: QueryCodec, m: Message)
    requires m.kind.Plain? && m.data.Some?
    ensures var f := ToStream(qc, m);
      && |f| == 2 * AddressLength + 3 + |m.data.value|
      && f[..3] == Gid(m.dest) && f[3..6] == Gid(m.src)
      && f[6] == TypeByte(m.mtype, m.urgent)
      && f[7..9] == ShortBytes(|m.data.value|)
      && f[9..] == m.data.value
  {
    var f := ToStream(qc, m);
    assert f == Gid(m.dest) + Gid(m.src) + [TypeByte(m.mtype, m.urgent)] + ShortBytes(|m.data.value|) + m.data.value;
  }

  /** A registration frame is the server's GID, the client's GID, byte 129 and a zero length. */
  lemma RegisterFrameLayout(qc: QueryCodec, address: Address)
    ensures ToStream(qc, RegisterMessageFor(address)) == Gid(ServerAddress) + Gid(address) + [129, 0, 0]
  {
  }

  /** The fields fromStream reads before the body length. */
  datatype Header = Header(dest: Address, src: Address, mtype: MessageType, urgent: bool)

  /** A decoded message and the input that follows its frame. */
  datatype Decoded = Decoded(msg: Message, rest: seq<byte>)

  /** fromStream up to the type: both GIDs, then the type byte split into urgency and code. */
  function ReadHeader(s: seq<byte>): (r: Result<Header, DecodeError>)
    ensures |s| < 2 * AddressLength + 1 ==> r == Failure(EndOfStream)
    ensures |s| >= 2 * AddressLength + 1 && FromByte(CodeOf(s[6])).None? ==> r == Failure(UnknownType(CodeOf(s[6])))
    ensures r.Success? ==> FromByte(CodeOf(s[6])) == Some(r.value.mtype) && r.value.urgent == UrgentOf(s[6])
  {
    if |s| < 2 * AddressLength + 1 then Failure(EndOfStream)
    else
      match FromByte(CodeOf(s[6]))
      case None => Failure(UnknownType(CodeOf(s[6])))
      case Some(t) => Success(Header(ParseGid(s[..3]), ParseGid(s[3..6]), t, UrgentOf(s[6])))
  }

  /** The class chosen by the type, its fields set from the header, then its dataFromStream. */
  function ReadBody(qc: QueryCodec, h: Header, len: int, input: seq<byte>): (r: Result<Decoded, DecodeError>)
    ensures r.Success? ==> KindMatchesType(r.value.msg) && r.value.msg.mtype == h.mtype
    ensures r.Success? ==> r.value.msg.src == h.src && r.value.msg.dest == h.dest && r.value.msg.urgent == h.urgent
    ensures r.Success? ==> |r.value.rest| <= |input| && r.value.rest == input[|input| - |r.value.rest|..]
  {
    match h.mtype
    case Register =>
      Success(Decoded(Message(RegisterKind, h.src, h.dest, Register, h.urgent, None), RegisterDataFromStream(input, len)))
    case Query =>
      (match DataFromStream(input, len)
       case Failure(e) => Failure(e)
       case Success((body, rest)) =>
         (match qc.decode(body)
          case None => Failure(MalformedQuery)
          case Some(q) => Success(Decoded(Message(QueryKind(q), h.src, h.dest, Query, h.urgent, None), rest))))
    case Letter =>
      match DataFromStream(input, len)
      case Failure(e) => Failure(e)
      case Success((body, rest)) => Success(Decoded(Message(Plain, h.src, h.dest, Letter, h.urgent, Some(body)), rest))
  }

  /** Message.fromStream as written: the body length is read with readShort, as a signed value. */
  function FromStream(qc: QueryCodec, s: seq<byte>): (r: Result<Decoded, DecodeError>)
    ensures r.Success? ==> KindMatchesType(r.value.msg)
    ensures r.Success? ==> |r.value.rest| <= |s| - HeaderLength && r.value.rest == s[|s| - |r.value.rest|..]
  {
    match ReadHeader(s)
    case Failure(e) => Failure(e)
    case Success(h) =>
      if |s| < HeaderLength then Failure(EndOfStream)
      else ReadBody(qc, h, SignedShort(s[7], s[8]), s[HeaderLength..])
  }

  /** fromStream with the body length read as the unsigned 16-bit value `writeShort(data.length)` writes. */
  function FromStreamUnsigned(qc: QueryCodec, s: seq<byte>): (r: Result<Decoded, DecodeError>)
    ensures r.Success? ==> KindMatchesType(r.value.msg)
    ensures r.Success? ==> |r.value.rest| <= |s| - HeaderLength && r.value.rest == s[|s| - |r.value.rest|..]
  {
    match ReadHeader(s)
    case Failure(e) => Failure(e)
    case Success(h) =>
      if |s| < HeaderLength then Failure(EndOfStream)
      else ReadBody(qc, h, UnsignedShort(s[7], s[8]), s[HeaderLength..])
  }

  /** How the 16-bit length field is read: as written (readShort, signed) or as the corrected reader does (unsigned). */
  datatype LengthReader = SignedLength | UnsignedLength

  /** fromStream with the chosen length reader. */
  function Decode(qc: QueryCodec, reader: LengthReader, s: seq<byte>): (r: Result<Decoded, DecodeError>)
    ensures r.Success? ==> KindMatchesType(r.value.msg)
    ensures r.Success? ==> |r.value.rest| <= |s| - HeaderLength && r.value.rest == s[|s| - |r.value.rest|..]
  {
    match reader
    case SignedLength => FromStream(qc, s)
    case UnsignedLength => FromStreamUnsigned(qc, s)
  }

  /** Message.fromByteArray: an EOFException becomes null (None); other exceptions propagate. */
  function FromByteArray(qc: QueryCodec, s: seq<byte>): (r: Result<Option<Message>, DecodeError>)
    ensures r == Success(None) <==> FromStream(qc, s) == Failure(EndOfStream)
    ensures r.Success? && r.value.Some? <==> FromStream(qc, s).Success?
    ensures FromStream(qc, s).Success? ==> r.value.value == FromStream(qc, s).value.msg
    ensures r.Failure? ==> r.error != EndOfStream && FromStream(qc, s) == Failure(r.error)
  {
    match FromStream(qc, s)
    case Success(d) => Success(Some(d.msg))
    case Failure(EndOfStream) => Success(None)
    case Failure(e) => Failure(e)
  }

  /** Once the header is read, fromStream goes on with the body reader at the declared length. */
  lemma FromStreamAfterHeader(qc: QueryCodec, s: seq<byte>, h: Header)
    requires ReadHeader(s) == Success(h) && |s| >= HeaderLength
    ensures FromStream(qc, s) == ReadBody(qc, h, SignedShort(s[7], s[8]), s[HeaderLength..])
    ensures FromStreamUnsigned(qc, s) == ReadBody(qc, h, UnsignedShort(s[7], s[8]), s[HeaderLength..])
  {
  }

  /** The header of any encoded message reads back as its destination, source, type and urgency. */
  lemma {:induction false} HeaderRoundTrip(qc: QueryCodec, m: Message, rest: seq<byte>)
    requires Encodable(m)
    ensures var s := ToStream(qc, m) + rest;
      && |s| >= HeaderLength
      && ReadHeader(s) == Success(Header(m.dest, m.src, m.mtype, m.urgent))
      && s[7..9] == BodyToStream(qc, m)[..2]
      && s[HeaderLength..] == BodyToStream(qc, m)[2..] + rest
  {
    var s := ToStream(qc, m) + rest;
    var b := BodyToStream(qc, m);
    assert |b| >= 2;
    assert s == Gid(m.dest) + Gid(m.src) + [TypeByte(m.mtype, m.urgent)] + b + rest;
    assert s[..3] == Gid(m.dest);
    assert s[3..6] == Gid(m.src);
    assert s[6] == TypeByte(m.mtype, m.urgent);
    GidRoundTrip(m.dest);
    GidRoundTrip(m.src);
    TypeByteUnpacks(m.mtype, m.urgent);
  }

  /** Under either length reader, a frame bearing payload d declares the 16-bit length written from |d|. */
  lemma {:induction false} DeclaredLength(qc: QueryCodec, m: Message, d: seq<byte>, rest: seq<byte>)
    requires Encodable(m) && BodyToStream(qc, m) == DataToStream(d)
    ensures var s := ToStream(qc, m) + rest;
      && UnsignedShort(s[7], s[8]) == |d| % 65536
      && (|d| % 65536 < 32768 ==> SignedShort(s[7], s[8]) == |d| % 65536)
      && (|d| % 65536 >= 32768 ==> SignedShort(s[7], s[8]) == |d| % 65536 - 65536)
      && s[HeaderLength..] == d + rest
  {
    HeaderRoundTrip(qc, m, rest);
    ShortUnsignedRoundTrip(|d|);
    ShortSignedRoundTrip(|d|);
  }

  /** A LETTER of at most 32767 bytes decodes to itself, leaving exactly the input that followed it. */
  lemma {:induction false} LetterRoundTrip(qc: QueryCodec, m: Message, rest: seq<byte>)
    requires m.kind == Plain && m.mtype == Letter && m.data.Some? && |m.data.value| <= 32767
    ensures FromStream(qc, ToStream(qc, m) + rest) == Success(Decoded(m, rest))
  {
    var d := m.data.value;
    var s := ToStream(qc, m) + rest;
    HeaderRoundTrip(qc, m, rest);
    DeclaredLength(qc, m, d, rest);
    FromStreamAfterHeader(qc, s, Header(m.dest, m.src, m.mtype, m.urgent));
    assert (d + rest)[..|d|] == d && (d + rest)[|d|..] == rest;
  }

  /** fromByteArray of toByteArray returns a message equal to the one encoded, urgency included. */
  lemma LetterFromByteArray(qc: QueryCodec, m: Message)
    requires m.kind == Plain && m.mtype == Letter && m.data.Some? && |m.data.value| <= 32767
    ensures ToByteArray(qc, m).Some? && FromByteArray(qc, ToByteArray(qc, m).value) == Success(Some(m))
  {
    LetterRoundTrip(qc, m, []);
    assert ToStream(qc, m) + [] == ToStream(qc, m);
  }

  /**
   * As written, a LETTER whose body has 32768 to 65535 bytes is encoded, but its
   * length reads back negative and decoding throws NegativeArraySizeException.
   */
  lemma {:induction false} LongLetterRejected(qc: QueryCodec, m: Message, rest: seq<byte>)
    requires m.kind == Plain && m.mtype == Letter && m.data.Some? && 32768 <= |m.data.value| <= 65535
    ensures FromStream(qc, ToStream(qc, m) + rest) == Failure(NegativeArraySize(|m.data.value| - 65536))
  {
    var s := ToStream(qc, m) + rest;
    var h := Header(m.dest, m.src, m.mtype, m.urgent);
    HeaderRoundTrip(qc, m, rest);
    DeclaredLength(qc, m, m.data.value, rest);
    FromStreamAfterHeader(qc, s, h);
  }

  /** With the length read unsigned, every LETTER of at most 65535 bytes round-trips. */
  lemma {:induction false} LetterRoundTripUnsigned(qc: QueryCodec, m: Message, rest: seq<byte>)
    requires m.kind == Plain && m.mtype == Letter && m.data.Some? && |m.data.value| <= 65535
    ensures FromStreamUnsigned(qc, ToStream(qc, m) + rest) == Success(Decoded(m, rest))
  {
    var d := m.data.value;
    HeaderRoundTrip(qc, m, rest);
    DeclaredLength(qc, m, d, rest);
    FromStreamAfterHeader(qc, ToStream(qc, m) + rest, Header(m.dest, m.src, m.mtype, m.urgent));
    assert (d + rest)[..|d|] == d && (d + rest)[|d|..] == rest;
  }

  /**
   * A body longer than 65535 bytes is not rejected: writeShort keeps the low
   * 16 bits, so the decoder takes that many bytes as the body and leaves the
   * remainder of the payload in the input.
   */
  lemma {:induction false} OversizeLetterTruncated(qc: QueryCodec, m: Message, rest: seq<byte>)
    requires m.kind == Plain && m.mtype == Letter && m.data.Some?
    requires |m.data.value| >= 65536 && |m.data.value| % 65536 < 32768
    ensures var d, k := m.data.value, |m.data.value| % 65536;
      FromStream(qc, ToStream(qc, m) + rest) == Success(Decoded(m.(data := Some(d[..k])), d[k..] + rest))
  {
    var d, k := m.data.value, |m.data.value| % 65536;
    HeaderRoundTrip(qc, m, rest);
    DeclaredLength(qc, m, d, rest);
    FromStreamAfterHeader(qc, ToStream(qc, m) + rest, Header(m.dest, m.src, m.mtype, m.urgent));
    assert (d + rest)[..k] == d[..k] && (d + rest)[k..] == d[k..] + rest;
  }

  /**
   * A body of 65536 bytes or more whose length wraps into the upper half reads
   * back negative: decoding throws NegativeArraySizeException.
   */
  lemma {:induction false} OversizeLetterRejected(qc: QueryCodec, m: Message, rest: seq<byte>)
    requires m.kind == Plain && m.mtype == Letter && m.data.Some?
    requires |m.data.value| >= 65536 && |m.data.value| % 65536 >= 32768
    ensures FromStream(qc, ToStream(qc, m) + rest) == Failure(NegativeArraySize(|m.data.value| % 65536 - 65536))
  {
    HeaderRoundTrip(qc, m, rest);
    DeclaredLength(qc, m, m.data.value, rest);
    FromStreamAfterHeader(qc, ToStream(qc, m) + rest, Header(m.dest, m.src, m.mtype, m.urgent));
  }

  /** A REGISTER frame round-trips destination, source, type and urgency; the payload stays unset. */
  lemma {:induction false} RegisterRoundTrip(qc: QueryCodec, m: Message, rest: seq<byte>)
    requires m.kind == RegisterKind && m.mtype == Register
    ensures FromStream(qc, ToStream(qc, m) + rest) == Success(Decoded(m.(data := None), rest))
  {
    HeaderRoundTrip(qc, m, rest);
    FromStreamAfterHeader(qc, ToStream(qc, m) + rest, Header(m.dest, m.src, m.mtype, m.urgent));
  }

  /**
   * Decoding a REGISTER consumes none of the declared body bytes, whatever the
   * length field holds, negative values included.
   */
  lemma RegisterIgnoresBodyLength(qc: QueryCodec, s: seq<byte>)
    requires |s| >= HeaderLength && CodeOf(s[6]) == ToByte(Register)
    ensures FromStream(qc, s) == Success(Decoded(Message(RegisterKind, ParseGid(s[3..6]), ParseGid(s[..3]), Register, UrgentOf(s[6]), None), s[HeaderLength..]))
  {
  }

  /** A QUERY round-trips its descriptor, given a sound body codec and a body of at most 32767 bytes. */
  lemma {:induction false} QueryRoundTrip(qc: QueryCodec, m: Message, rest: seq<byte>)
    requires Sound(qc) && m.kind.QueryKind? && m.mtype == Query && |qc.encode(m.kind.query)| <= 32767
    ensures FromStream(qc, ToStream(qc, m) + rest) == Success(Decoded(m.(data := None), rest))
  {
    var body, q := qc.encode(m.kind.query), m.kind.query;
    var s, h := ToStream(qc, m) + rest, Header(m.dest, m.src, m.mtype, m.urgent);
    HeaderRoundTrip(qc, m, rest);
    DeclaredLength(qc, m, body, rest);
    FromStreamAfterHeader(qc, s, h);
    assert SignedShort(s[7], s[8]) == |body| && s[HeaderLength..] == body + rest;
    assert qc.decode(body) == Some(q);
    QueryBodyReads(qc, h, body, rest, q);
    assert m.(data := None) == Message(QueryKind(q), h.src, h.dest, Query, h.urgent, None);
  }

  /** The body of a QUERY frame whose declared length covers a decodable descriptor. */
  lemma QueryBodyReads(qc: QueryCodec, h: Header, body: seq<byte>, rest: seq<byte>, q: QueryBody)
    requires h.mtype == Query && qc.decode(body) == Some(q)
    ensures ReadBody(qc, h, |body|, body + rest) == Success(Decoded(Message(QueryKind(q), h.src, h.dest, Query, h.urgent, None), rest))
  {
    assert (body + rest)[..|body|] == body && (body + rest)[|body|..] == rest;
  }

  /** An unknown type code is not caught: it propagates from fromByteArray as an exception. */
  lemma UnknownTypeRejected(qc: QueryCodec, s: seq<byte>)
    requires |s| >= 2 * AddressLength + 1 && !(1 <= CodeOf(s[6]) <= 3)
    ensures FromStream(qc, s) == Failure(UnknownType(CodeOf(s[6])))
    ensures FromByteArray(qc, s) == Failure(UnknownType(CodeOf(s[6])))
  {
  }

  /** Decoding a LETTER reads exactly the header and the declared body, and copies the body verbatim. */
  lemma LetterReadsExactly(qc: QueryCodec, s: seq<byte>)
    requires FromStream(qc, s).Success? && FromStream(qc, s).value.msg.mtype == Letter
    ensures var d := FromStream(qc, s).value;
      && d.msg.data.Some?
      && |s| == HeaderLength + |d.msg.data.value| + |d.rest|
      && |d.msg.data.value| == SignedShort(s[7], s[8])
      && s[HeaderLength..] == d.msg.data.value + d.rest
  {
  }

  /** Every strict prefix of a LETTER frame is truncated input: fromByteArray returns null. */
  lemma {:induction false} TruncatedLetterIsNull(qc: QueryCodec, m: Message, k: nat)
    requires m.kind == Plain && m.mtype == Letter && m.data.Some? && |m.data.value| <= 32767
    requires k < |ToStream(qc, m)|
    ensures FromByteArray(qc, ToStream(qc, m)[..k]) == Success(None)
  {
    var f := ToStream(qc, m);
    var d := m.data.value;
    var p := f[..k];
    if k >= 2 * AddressLength + 1 {
      HeaderRoundTrip(qc, m, []);
      assert f + [] == f;
      assert p[6] == f[6];
      assert FromByte(CodeOf(p[6])) == Some(Letter);
      assert ReadHeader(p) == Success(Header(m.dest, m.src, m.mtype, m.urgent)) by {
        assert p[..3] == f[..3] && p[3..6] == f[3..6];
      }
      if k >= HeaderLength {
        DeclaredLength(qc, m, d, []);
        assert p[7] == f[7] && p[8] == f[8];
        assert |p[HeaderLength..]| < |d|;
        FromStreamAfterHeader(qc, p, Header(m.dest, m.src, m.mtype, m.urgent));
      }
    }
  }

  /**
   * A RegisterMessage has a frame (toStream writes it) but no byte array:
   * toByteArray throws. The corrected toByteArray gives the frame, and
   * fromByteArray reads the message back.
   */
  lemma RegisterByteArray(qc: QueryCodec, address: Address)
    ensures ToByteArray(qc, RegisterMessageFor(address)) == None
    ensures FromByteArray(qc, ToByteArrayCorrected(qc, RegisterMessageFor(address))) == Success(Some(RegisterMessageFor(address)))
  {
    var m := RegisterMessageFor(address);
    RegisterRoundTrip(qc, m, []);
    assert ToStream(qc, m) + [] == ToStream(qc, m);
  }

  /**
   * The two readers part on a LETTER with a 32768 to 65535-byte body: the
   * code as written rejects it, the corrected reader returns it.
   */
  lemma LongLetterReaders(qc: QueryCodec, m: Message, rest: seq<byte>)
    requires m.kind == Plain && m.mtype == Letter && m.data.Some? && 32768 <= |m.data.value| <= 65535
    ensures Decode(qc, SignedLength, ToStream(qc, m) + rest) == Failure(NegativeArraySize(|m.data.value| - 65536))
    ensures Decode(qc, UnsignedLength, ToStream(qc, m) + rest) == Success(Decoded(m, rest))
  {
    LongLetterRejected(qc, m, rest);
    LetterRoundTripUnsigned(qc, m, rest);
  }
}
