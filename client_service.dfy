/**
 * The client side (ClientMsgService.java): validation of the client's
 * configuration, including the server address check, the static node-ID
 * counter, and the operations that put messages into the client's outbound
 * TimeoutBuffer: send, register and the counted query.
 */
module Clients {
  import opened Wrappers
  import opened Addresses
  import opened Messages
  import opened Settings
  import opened Codec
  import opened RegisterMessages
  import opened TimeoutBuffers

  // ---------------------------------------------------------------------
  // Numeric parameters
  // ---------------------------------------------------------------------

  /**
   * getNumericProperty(properties, name, bottom, top). An absent key reaches
   * Integer.parseInt as null and is reported like a malformed number.
   */
  function NumericProperty(name: string, s: Setting, bottom: int, top: int): (r: Result<int, ConfigError>)
    ensures r.Success? <==> s.Number? && bottom <= s.value <= top
    ensures r.Success? ==> r.value == s.value
    ensures !s.Number? ==> r == Failure(NotAnInteger(name))
    ensures s.Number? && !(bottom <= s.value <= top) ==> r == Failure(OutOfRange(name))
  {
    match s
    case Number(v) => if v < bottom || v > top then Failure(OutOfRange(name)) else Success(v)
    case _ => Failure(NotAnInteger(name))
  }

  /** getNumericProperty(properties, name, bottom): the same check with no upper bound. */
  function NumericPropertyAtLeast(name: string, s: Setting, bottom: int): (r: Result<int, ConfigError>)
    ensures r.Success? <==> s.Number? && bottom <= s.value
    ensures r.Success? ==> r.value == s.value
    ensures !s.Number? ==> r == Failure(NotAnInteger(name))
    ensures s.Number? && s.value < bottom ==> r == Failure(OutOfRange(name))
  {
    match s
    case Number(v) => if v < bottom then Failure(OutOfRange(name)) else Success(v)
    case _ => Failure(NotAnInteger(name))
  }

  /** The one-bound overload is the two-bound one with any upper bound the value does not exceed. */
  lemma AtLeastIsUnbounded(name: string, s: Setting, bottom: int, top: int)
    requires s.Number? ==> s.value <= top
    ensures NumericPropertyAtLeast(name, s, bottom) == NumericProperty(name, s, bottom, top)
  {
  }

  // ---------------------------------------------------------------------
  // The server address check
  // ---------------------------------------------------------------------

  /** The fields of s between the '.' characters, empty ones included. */
  function SplitFields(s: string): (r: seq<string>)
    ensures |r| >= 1
  {
    if s == [] then [[]]
    else
      var rest := SplitFields(s[1..]);
      if s[0] == '.' then [[]] + rest else [[s[0]] + rest[0]] + rest[1..]
  }

  /** Joining fields with '.' between them. */
  function JoinDots(fs: seq<string>): string
    requires |fs| >= 1
  {
    if |fs| == 1 then fs[0] else fs[0] + "." + JoinDots(fs[1..])
  }

  /** Splitting loses nothing: the fields joined by dots give back the string, and no field holds a dot. */
  lemma {:induction false} SplitFieldsJoin(s: string)
    ensures JoinDots(SplitFields(s)) == s
    ensures forall i :: 0 <= i < |SplitFields(s)| ==> '.' !in SplitFields(s)[i]
  {
    if s != [] {
      var rest := SplitFields(s[1..]);
      SplitFieldsJoin(s[1..]);
      if s[0] == '.' {
        assert SplitFields(s) == [[]] + rest;
        assert ([[]] + rest)[1..] == rest;
        assert s == [] + "." + s[1..];
      } else {
        var r := [[s[0]] + rest[0]] + rest[1..];
        assert SplitFields(s) == r;
        if |rest| == 1 {
          assert s == [s[0]] + rest[0];
        } else {
          assert r[1..] == rest[1..];
          assert JoinDots(rest) == rest[0] + "." + JoinDots(rest[1..]);
          assert s == [s[0]] + s[1..];
        }
        forall i | 0 <= i < |r| ensures '.' !in r[i] {
          if i > 0 { assert r[i] == rest[i]; }
        }
      }
    }
  }

  /** A field without a dot, then a dot: the first field is split off. */
  lemma {:induction false} SplitFieldsConcat(x: string, rest: string)
    requires '.' !in x
    ensures SplitFields(x + "." + rest) == [x] + SplitFields(rest)
    decreases |x|
  {
    if x == [] {
      assert x + "." + rest == "." + rest;
      assert ("." + rest)[1..] == rest;
    } else {
      var s := x + "." + rest;
      assert s[0] == x[0] && s[1..] == x[1..] + "." + rest;
      SplitFieldsConcat(x[1..], rest);
      assert [x[0]] + x[1..] == x;
    }
  }

  /** A string without dots is a single field. */
  lemma {:induction false} SplitFieldsNoDot(s: string)
    requires '.' !in s
    ensures SplitFields(s) == [s]
  {
    if s != [] {
      SplitFieldsNoDot(s[1..]);
      assert [s[0]] + s[1..] == s;
    }
  }

  /** String.split with limit 0 removes the empty fields at the end. */
  function DropTrailingEmpty(fs: seq<string>): (r: seq<string>)
    ensures |r| <= |fs| && r == fs[..|r|]
    ensures |r| > 0 ==> r[|r| - 1] != []
    ensures forall i :: |r| <= i < |fs| ==> fs[i] == []
  {
    if fs != [] && fs[|fs| - 1] == [] then DropTrailingEmpty(fs[..|fs| - 1]) else fs
  }

  /**
   * IP.split("\\."): a string with no dot is its own single field (even the
   * empty string); otherwise the fields between dots with the trailing empty
   * ones removed.
   */
  function JavaSplitDot(s: string): (r: seq<string>)
    ensures forall i :: 0 <= i < |r| ==> '.' !in r[i]
    ensures '.' in s ==> |r| <= |SplitFields(s)| && r == SplitFields(s)[..|r|] && forall i :: |r| <= i < |SplitFields(s)| ==> SplitFields(s)[i] == []
    ensures '.' in s ==> |r| == 0 || r[|r| - 1] != []
  {
    if '.' !in s then [s] else SplitFieldsJoin(s); DropTrailingEmpty(SplitFields(s))
  }

  predicate IsDigit(c: char) {
    '0' <= c <= '9'
  }

  /** The value of a decimal digit. */
  function DigitValue(c: char): (r: nat)
    requires IsDigit(c)
    ensures r < 10
  {
    c as int - '0' as int
  }

  /** The value of a string of decimal digits. */
  function DigitsValue(s: string): nat
    requires forall i :: 0 <= i < |s| ==> IsDigit(s[i])
  {
    if s == [] then 0 else DigitsValue(s[..|s| - 1]) * 10 + DigitValue(s[|s| - 1])
  }

  const MinInt := -0x8000_0000
  const MaxInt := 0x7fff_ffff

  /**
   * Integer.parseInt over ASCII digits: an optional sign, at least one digit,
   * and a value that fits in 32 bits; None stands for NumberFormatException.
   */
  function ParseInt(s: string): (r: Option<int>)
    ensures r.Some? ==> MinInt <= r.value <= MaxInt
    ensures r.Some? ==> |s| > 0
    ensures (exists i :: 0 <= i < |s| && !IsDigit(s[i]) && !(i == 0 && (s[0] == '-' || s[0] == '+'))) ==> r.None?
    ensures |s| == 1 && (s[0] == '-' || s[0] == '+') ==> r.None?
  {
    if |s| == 0 then None
    else
      var digits := if s[0] == '-' || s[0] == '+' then s[1..] else s;
      if |digits| == 0 || exists i :: 0 <= i < |digits| && !IsDigit(digits[i]) then None
      else
        var n: int := DigitsValue(digits);
        var v := if s[0] == '-' then -n else n;
        if v < MinInt || v > MaxInt then None else Some(v)
  }

  /** Decimal notation of n, without leading zeros. */
  function NatToDecimal(n: nat): (r: string)
    ensures |r| > 0 && forall i :: 0 <= i < |r| ==> IsDigit(r[i])
  {
    var d := [('0' as int + n % 10) as char];
    if n < 10 then d else NatToDecimal(n / 10) + d
  }

  lemma {:induction false} DigitsOfDecimal(n: nat)
    ensures DigitsValue(NatToDecimal(n)) == n
  {
    var d := [('0' as int + n % 10) as char];
    if n < 10 {
      assert NatToDecimal(n) == d && d[..0] == [];
    } else {
      var s := NatToDecimal(n / 10) + d;
      assert s[..|s| - 1] == NatToDecimal(n / 10);
      DigitsOfDecimal(n / 10);
    }
  }

  /** parseInt reads back the decimal notation of every int-sized natural. */
  lemma ParseDecimal(n: nat)
    requires n <= MaxInt
    ensures ParseInt(NatToDecimal(n)) == Some(n)
  {
    DigitsOfDecimal(n);
  }

  /** parseInt reads back a signed decimal numeral whose value fits in 32 bits. */
  lemma ParseSignedDecimal(n: nat)
    ensures n <= MaxInt ==> ParseInt("+" + NatToDecimal(n)) == Some(n)
    ensures n <= -MinInt ==> ParseInt("-" + NatToDecimal(n)) == Some(-(n as int))
  {
    var d := NatToDecimal(n);
    DigitsOfDecimal(n);
    assert ("+" + d)[1..] == d && ("-" + d)[1..] == d;
  }

  /** Field i of the split address is a number from 0 to 255. */
  predicate OctetOk(fields: seq<string>, i: int)
    requires 0 <= i < |fields|
  {
    ParseInt(fields[i]).Some? && 0 <= ParseInt(fields[i]).value <= 255
  }

  /** The addresses isValidIP accepts: four fields, each parsing to an integer from 0 to 255. */
  predicate AcceptedIP(ip: string)
    ensures AcceptedIP(ip) ==> '.' in ip
  {
    var fields := JavaSplitDot(ip);
    |fields| == 4 && forall i :: 0 <= i < 4 ==> OctetOk(fields, i)
  }

  /** isValidIP */
  method IsValidIP(ip: string) returns (valid: bool)
    ensures valid == AcceptedIP(ip)
  {
    var fields := JavaSplitDot(ip);
    if |fields| != 4 {
      return false;
    }
    for i := 0 to 4
      invariant forall j :: 0 <= j < i ==> OctetOk(fields, j)
    {
      var part := ParseInt(fields[i]);
      if part.None? {
        assert !OctetOk(fields, i);
        return false;
      }
      if part.value < 0 || part.value > 255 {
        assert !OctetOk(fields, i);
        return false;
      }
    }
    return true;
  }

  /** The dotted quad of four octets. */
  function DottedQuad(a: nat, b: nat, c: nat, d: nat): string {
    NatToDecimal(a) + "." + NatToDecimal(b) + "." + NatToDecimal(c) + "." + NatToDecimal(d)
  }

  lemma DecimalHasNoDot(n: nat)
    ensures '.' !in NatToDecimal(n)
  {
  }

  /** Four dot-free fields joined by dots split back into those four fields. */
  lemma SplitFour(w: string, x: string, y: string, z: string)
    requires '.' !in w && '.' !in x && '.' !in y && '.' !in z
    ensures SplitFields(w + "." + x + "." + y + "." + z) == [w, x, y, z]
  {
    var t3 := z;
    var t2 := y + "." + t3;
    var t1 := x + "." + t2;
    assert w + "." + x + "." + y + "." + z == w + "." + t1;
    SplitFieldsNoDot(t3);
    SplitFieldsConcat(y, t3);
    SplitFieldsConcat(x, t2);
    SplitFieldsConcat(w, t1);
  }

  /** The fields of a dotted quad are the four decimal numbers. */
  lemma DottedQuadFields(a: nat, b: nat, c: nat, d: nat)
    ensures JavaSplitDot(DottedQuad(a, b, c, d)) == [NatToDecimal(a), NatToDecimal(b), NatToDecimal(c), NatToDecimal(d)]
  {
    var sa, sb, sc, sd := NatToDecimal(a), NatToDecimal(b), NatToDecimal(c), NatToDecimal(d);
    DecimalHasNoDot(a); DecimalHasNoDot(b); DecimalHasNoDot(c); DecimalHasNoDot(d);
    SplitFour(sa, sb, sc, sd);
    var s := DottedQuad(a, b, c, d);
    assert s[|sa|] == '.';
  }

  /** Every dotted quad of octets is accepted. */
  lemma DottedQuadAccepted(a: nat, b: nat, c: nat, d: nat)
    requires a <= 255 && b <= 255 && c <= 255 && d <= 255
    ensures AcceptedIP(DottedQuad(a, b, c, d))
  {
    DottedQuadFields(a, b, c, d);
    ParseDecimal(a); ParseDecimal(b); ParseDecimal(c); ParseDecimal(d);
  }

  /** A dotted quad with an octet above 255 is rejected. */
  lemma DottedQuadOutOfRange(a: nat, b: nat, c: nat, d: nat)
    requires a > 255 && a <= MaxInt
    ensures !AcceptedIP(DottedQuad(a, b, c, d))
  {
    DottedQuadFields(a, b, c, d);
    ParseDecimal(a);
    assert !OctetOk(JavaSplitDot(DottedQuad(a, b, c, d)), 0);
  }

  /** Trailing dots vanish in the split, so a dotted quad followed by dots is still accepted. */
  lemma TrailingDotsAccepted(a: nat, b: nat, c: nat, d: nat, dots: nat)
    requires a <= 255 && b <= 255 && c <= 255 && d <= 255
    ensures AcceptedIP(DottedQuad(a, b, c, d) + Dots(dots))
  {
    TrailingDotsFields(a, b, c, d, dots);
    ParseDecimal(a); ParseDecimal(b); ParseDecimal(c); ParseDecimal(d);
  }

  /** The fields of a dotted quad followed by dots are the four decimal numbers. */
  lemma TrailingDotsFields(a: nat, b: nat, c: nat, d: nat, dots: nat)
    ensures JavaSplitDot(DottedQuad(a, b, c, d) + Dots(dots)) == [NatToDecimal(a), NatToDecimal(b), NatToDecimal(c), NatToDecimal(d)]
  {
    var sa, sb, sc, sd := NatToDecimal(a), NatToDecimal(b), NatToDecimal(c), NatToDecimal(d);
    DecimalHasNoDot(a); DecimalHasNoDot(b); DecimalHasNoDot(c); DecimalHasNoDot(d);
    var s := DottedQuad(a, b, c, d) + Dots(dots);
    assert s == sa + "." + sb + "." + sc + "." + (sd + Dots(dots));
    SplitFourThenDots(sa, sb, sc, sd, dots);
    DropEmptyTail([sa, sb, sc, sd], dots);
    assert s[|sa|] == '.';
  }

  lemma SplitFourThenDots(w: string, x: string, y: string, z: string, n: nat)
    requires '.' !in w && '.' !in x && '.' !in y && '.' !in z
    ensures SplitFields(w + "." + x + "." + y + "." + (z + Dots(n))) == [w, x, y, z] + Empties(n)
  {
    var t3 := z + Dots(n);
    var t2 := y + "." + t3;
    var t1 := x + "." + t2;
    assert w + "." + x + "." + y + "." + t3 == w + "." + t1;
    SplitTrailingDots(z, n);
    SplitFieldsConcat(y, t3);
    SplitFieldsConcat(x, t2);
    SplitFieldsConcat(w, t1);
  }

  /** n dots. */
  function Dots(n: nat): string {
    seq(n, _ => '.')
  }

  /** n empty fields. */
  function Empties(n: nat): seq<string> {
    seq(n, _ => "")
  }

  /** A dot-free field followed by n dots splits into the field and n empty ones. */
  lemma {:induction false} SplitTrailingDots(x: string, n: nat)
    requires '.' !in x
    ensures SplitFields(x + Dots(n)) == [x] + Empties(n)
    decreases n
  {
    if n == 0 {
      assert x + Dots(n) == x;
      SplitFieldsNoDot(x);
    } else {
      var rest: string := Dots(n - 1);
      assert x + Dots(n) == x + "." + rest;
      SplitFieldsConcat(x, rest);
      assert rest == [] + rest;
      SplitTrailingDots([], n - 1);
      assert [] + rest == rest;
      assert [[]] + Empties(n - 1) == Empties(n);
    }
  }

  lemma {:induction false} DropEmptyTail(fs: seq<string>, n: nat)
    requires |fs| > 0 && fs[|fs| - 1] != []
    ensures DropTrailingEmpty(fs + Empties(n)) == fs
    decreases n
  {
    if n > 0 {
      var t := fs + Empties(n);
      assert t[..|t| - 1] == fs + Empties(n - 1);
      DropEmptyTail(fs, n - 1);
    } else {
      assert fs + Empties(n) == fs;
    }
  }

  // ---------------------------------------------------------------------
  // Client parameters
  // ---------------------------------------------------------------------

  datatype ClientParameters = ClientParameters(
    serverPort: int, bufferSize: int, bufferTimeout: int, socketTimeout: int, clientID: int, serverIP: string)

  /**
   * The ClientParameters constructor: the numeric keys in its order, then
   * server.address, whose absence surfaces as the NullPointerException of
   * isValidIP(null).
   */
  function NewClientParameters(serverPort: Setting, bufferSize: Setting, bufferTimeout: Setting, socketTimeout: Setting,
                               clientID: Setting, serverAddress: Option<string>): (r: Result<ClientParameters, ConfigError>)
    ensures r.Success? <==>
              && NumericProperty("server.port", serverPort, 0, 65535).Success?
              && NumericPropertyAtLeast("buffer.size", bufferSize, 0).Success?
              && NumericPropertyAtLeast("buffer.timeout", bufferTimeout, 0).Success?
              && NumericPropertyAtLeast("socket.timeout", socketTimeout, 0).Success?
              && NumericPropertyAtLeast("client.ID", clientID, 0).Success?
              && serverAddress.Some? && AcceptedIP(serverAddress.value)
    ensures r.Success? ==>
              && 0 <= r.value.serverPort <= 65535 && r.value.bufferSize >= 0 && r.value.bufferTimeout >= 0
              && r.value.socketTimeout >= 0 && r.value.clientID >= 0 && r.value.serverIP == serverAddress.value
    ensures var sp, bs, bt, st, id := NumericProperty("server.port", serverPort, 0, 65535),
                                      NumericPropertyAtLeast("buffer.size", bufferSize, 0),
                                      NumericPropertyAtLeast("buffer.timeout", bufferTimeout, 0),
                                      NumericPropertyAtLeast("socket.timeout", socketTimeout, 0),
                                      NumericPropertyAtLeast("client.ID", clientID, 0);
            && (sp.Failure? ==> r == Failure(sp.error))
            && (sp.Success? && bs.Failure? ==> r == Failure(bs.error))
            && (sp.Success? && bs.Success? && bt.Failure? ==> r == Failure(bt.error))
            && (sp.Success? && bs.Success? && bt.Success? && st.Failure? ==> r == Failure(st.error))
            && (sp.Success? && bs.Success? && bt.Success? && st.Success? && id.Failure? ==> r == Failure(id.error))
            && (sp.Success? && bs.Success? && bt.Success? && st.Success? && id.Success? ==>
                  && (serverAddress.None? ==> r == Failure(MissingParameter))
                  && (serverAddress.Some? && !AcceptedIP(serverAddress.value) ==> r == Failure(InvalidServerAddress)))
            && (r.Success? ==> r.value == ClientParameters(sp.value, bs.value, bt.value, st.value, id.value, serverAddress.value))
  {
    match NumericProperty("server.port", serverPort, 0, 65535)
    case Failure(e) => Failure(e)
    case Success(port) =>
      match NumericPropertyAtLeast("buffer.size", bufferSize, 0)
      case Failure(e) => Failure(e)
      case Success(size) =>
        match NumericPropertyAtLeast("buffer.timeout", bufferTimeout, 0)
        case Failure(e) => Failure(e)
        case Success(time) =>
          match NumericPropertyAtLeast("socket.timeout", socketTimeout, 0)
          case Failure(e) => Failure(e)
          case Success(socket) =>
            match NumericPropertyAtLeast("client.ID", clientID, 0)
            case Failure(e) => Failure(e)
            case Success(id) =>
              if serverAddress.None? then Failure(MissingParameter)
              else if !AcceptedIP(serverAddress.value) then Failure(InvalidServerAddress)
              else Success(ClientParameters(port, size, time, socket, id, serverAddress.value))
  }

  /** With every number valid, the server address alone decides, and a missing one is reported as such. */
  lemma ServerAddressDecides(port: nat, size: nat, time: nat, socket: nat, id: nat, serverAddress: Option<string>)
    requires port <= 65535
    ensures var r := NewClientParameters(Number(port), Number(size), Number(time), Number(socket), Number(id), serverAddress);
            && (serverAddress.None? ==> r == Failure(MissingParameter))
            && (serverAddress.Some? && !AcceptedIP(serverAddress.value) ==> r == Failure(InvalidServerAddress))
            && (serverAddress.Some? && AcceptedIP(serverAddress.value) ==> r.Success? && r.value.clientID == id)
  {
  }

  // ---------------------------------------------------------------------
  // The node-ID counter and the client service
  // ---------------------------------------------------------------------

  /** The static nextNodeID of ClientMsgService, shared by all instances. */
  class NodeIdCounter {
    var next: int
    /** The node IDs handed out so far. */
    ghost var issued: set<int>

    ghost predicate Valid()
      reads this
    {
      next >= 1 && forall id :: id in issued ==> 1 <= id < next
    }

    /** nextNodeID = 1 */
    constructor ()
      ensures Valid() && next == 1 && issued == {}
    {
      next := 1;
      issued := {};
    }

    /** nextNodeID++ : the current value, never handed out before. */
    method Take() returns (id: int)
      requires Valid()
      modifies this
      ensures Valid()
      ensures id == old(next) && next == old(next) + 1
      ensures id !in old(issued) && issued == old(issued) + {id}
    {
      id := next;
      next := next + 1;
      issued := issued + {id};
    }
  }

  /** The client-side failures that the model distinguishes. */
  datatype ServiceError =
    | InvalidConfig(error: ConfigError)
    | InvalidAddress(clientID: int, nodeID: int)  // new Address(clientID, nodeID) rejected the parts
    | MessageNotSent(from: Address)
    | UnableToRegister(from: Address)

  /** The bytes sent n times over. */
  function Repeat(frame: seq<byte>, n: nat): (r: seq<byte>)
    ensures |r| == n * |frame|
  {
    if n == 0 then [] else Repeat(frame, n - 1) + frame
  }

  /** One more send extends the stream by one more copy of the frame. */
  lemma RepeatStep(start: seq<byte>, frame: seq<byte>, n: nat)
    ensures start + Repeat(frame, n) + frame == start + Repeat(frame, n + 1)
  {
  }

  class ClientMsgService {
    /** adresa: this client's unique address. */
    const address: Address
    var isRegistered: bool
    /** The outbound buffer that start() attaches to the connection. */
    const buffer: TimeoutBuffer

    ghost predicate Valid()
      reads this, buffer
    {
      buffer.Valid()
    }

    constructor (address: Address, buffer: TimeoutBuffer)
      requires buffer.Valid()
      ensures Valid() && this.address == address && this.buffer == buffer && !isRegistered
    {
      this.address := address;
      this.buffer := buffer;
      isRegistered := false;
    }

    /**
     * send: stamp the message with this client's address and add it to the
     * buffer; an IOException of the buffer becomes MessageNotSent. Whether the
     * frame leaves at once or waits is the buffer's decision.
     */
    method Send(m: Message) returns (r: Outcome<ServiceError>)
      requires Valid() && Encodable(m)
      modifies buffer
      ensures Valid()
      ensures buffer.Stream() == old(buffer.Stream()) + ToStream(buffer.qc, m.(src := address))
      ensures r.Pass? <==> !(old(buffer.FlushesOn(m)) && buffer.outputBroken)
      ensures r.Fail? ==> r.error == MessageNotSent(address)
      ensures buffer.active == old(buffer.active) && buffer.outputBroken == old(buffer.outputBroken)
      ensures !old(buffer.FlushesOn(m)) ==>
                buffer.queue == old(buffer.queue) + [m.(src := address)] && buffer.timer && buffer.output == old(buffer.output)
      ensures old(buffer.FlushesOn(m)) && r.Pass? ==>
                buffer.queue == [] && !buffer.timer && buffer.output == old(buffer.output) + EncodeAll(buffer.qc, old(buffer.queue) + [m.(src := address)])
      ensures old(buffer.FlushesOn(m)) && r.Fail? ==>
                buffer.queue == old(buffer.queue) + [m.(src := address)] && !buffer.timer && buffer.output == old(buffer.output)
    {
      var stamped := m.(src := address);
      var ok := buffer.AddMessage(stamped);
      if !ok {
        return Fail(MessageNotSent(address));
      }
      return Pass;
    }

    /**
     * register: the first successful call sends one urgent RegisterMessage; a
     * registered client sends nothing. Either way the answer is this client's
     * address, and a failed send is UnableToRegister.
     */
    method Register() returns (r: Result<Address, ServiceError>)
      requires Valid()
      modifies this, buffer
      ensures Valid()
      ensures r.Success? ==> r.value == address && isRegistered
      ensures r.Failure? ==> r.error == UnableToRegister(address) && !isRegistered
      ensures old(isRegistered) ==> r.Success? && unchanged(buffer)
      ensures !old(isRegistered) ==>
                && buffer.Stream() == old(buffer.Stream()) + ToStream(buffer.qc, RegisterMessageFor(address))
                && (r.Success? <==> !buffer.outputBroken)
      ensures !old(isRegistered) && r.Success? ==>
                buffer.queue == [] && !buffer.timer && buffer.output == old(buffer.output) + EncodeAll(buffer.qc, old(buffer.queue) + [RegisterMessageFor(address)])
      ensures !old(isRegistered) && r.Failure? ==>
                buffer.queue == old(buffer.queue) + [RegisterMessageFor(address)] && !buffer.timer && buffer.output == old(buffer.output)
    {
      if !isRegistered {
        var reg := RegisterMessageFor(address);
        assert reg.(src := address) == reg;
        var sent := Send(reg);
        if sent.Fail? {
          return Failure(UnableToRegister(address));
        }
        isRegistered := true;
      }
      return Success(address);
    }

    /**
     * query(type, count): send the same QueryMessage count times, stopping at
     * the first MessageNotSent. QueryMessage.java is not part of this model;
     * the message its one-argument constructor builds is the parameter q.
     */
    method QueryCount(q: Message, count: int) returns (r: Outcome<ServiceError>)
      requires Valid() && q.kind.QueryKind? && q.mtype == Query
      modifies buffer
      ensures Valid()
      ensures buffer.outputBroken == old(buffer.outputBroken)
      ensures r.Pass? ==> buffer.Stream() == old(buffer.Stream()) + Repeat(ToStream(buffer.qc, q.(src := address)), if count < 0 then 0 else count)
      ensures r.Fail? ==> r.error == MessageNotSent(address) && buffer.outputBroken && exists k ::
                1 <= k <= count && buffer.Stream() == old(buffer.Stream()) + Repeat(ToStream(buffer.qc, q.(src := address)), k)
      ensures r.Fail? ==> |buffer.queue| >= 1 && buffer.queue[|buffer.queue| - 1] == q.(src := address) && !buffer.timer
    {
      ghost var frame := ToStream(buffer.qc, q.(src := address));
      ghost var start := buffer.Stream();
      r := Pass;
      var i := 1;
      while i <= count && r.Pass?
        invariant Valid()
        invariant 1 <= i && (i <= count + 1 || i == 1)
        invariant buffer.outputBroken == old(buffer.outputBroken)
        invariant r.Fail? ==> 2 <= i && r.error == MessageNotSent(address) && buffer.outputBroken
        invariant r.Fail? ==> |buffer.queue| >= 1 && buffer.queue[|buffer.queue| - 1] == q.(src := address) && !buffer.timer
        invariant buffer.Stream() == start + Repeat(frame, i - 1)
        decreases count - i
      {
        r := Send(q);
        RepeatStep(start, frame, i - 1);
        i := i + 1;
      }
      assert r.Fail? ==> 1 <= i - 1 <= count;
    }
  }

  /**
   * The ClientMsgService constructor: validate the parameters, take the next
   * node ID (only once the parameters are valid), then build the address,
   * which fails when the node ID or client ID does not fit its field.
   */
  method NewClientMsgService(counter: NodeIdCounter, serverPort: Setting, bufferSize: Setting, bufferTimeout: Setting,
                             socketTimeout: Setting, clientID: Setting, serverAddress: Option<string>, buffer: TimeoutBuffer)
    returns (r: Result<ClientMsgService, ServiceError>)
    requires counter.Valid() && buffer.Valid()
    modifies counter
    ensures counter.Valid()
    ensures var p := NewClientParameters(serverPort, bufferSize, bufferTimeout, socketTimeout, clientID, serverAddress);
            && (p.Failure? ==> r == Failure(InvalidConfig(p.error)) && counter.next == old(counter.next) && counter.issued == old(counter.issued))
            && (p.Success? ==> counter.next == old(counter.next) + 1 && counter.issued == old(counter.issued) + {old(counter.next)})
            && (p.Success? ==> (r.Success? <==> NewAddress(p.value.clientID, old(counter.next)).Some?))
            && (p.Success? && r.Failure? ==> r.error == InvalidAddress(p.value.clientID, old(counter.next)))
            && (r.Success? ==> && fresh(r.value) && r.value.Valid() && !r.value.isRegistered && r.value.buffer == buffer
                               && r.value.address == Address(p.value.clientID, old(counter.next)))
  {
    var p := NewClientParameters(serverPort, bufferSize, bufferTimeout, socketTimeout, clientID, serverAddress);
    if p.Failure? {
      return Failure(InvalidConfig(p.error));
    }
    var nodeId := counter.Take();
    var a := NewAddress(p.value.clientID, nodeId);
    if a.None? {
      return Failure(InvalidAddress(p.value.clientID, nodeId));
    }
    var service := new ClientMsgService(a.value, buffer);
    return Success(service);
  }
}
