/**
 * Participant identities and their 3-byte binary form (GID).
 * Address.java is not part of this model: the address is a big-endian 16-bit
 * client ID followed by an 8-bit node ID.
 */
module Addresses {
  import opened Wrappers

  /** A wire byte, as an unsigned value. */
  type byte = b: int | 0 <= b < 256

  type ClientId = c: int | 0 <= c < 65536
  type NodeId = n: int | 0 <= n < 256

  /** Number of bytes of an encoded address (Address.addressLength). */
  const AddressLength := 3

  datatype Address = Address(clientID: ClientId, nodeID: NodeId)

  /** The well-known address (0,0) of the server, destination of REGISTER frames. */
  const ServerAddress := Address(0, 0)

  /** new Address(clientID, nodeID): both parts must fit their field widths. */
  function NewAddress(clientID: int, nodeID: int): (r: Option<Address>)
    ensures r.Some? <==> 0 <= clientID < 65536 && 0 <= nodeID < 256
    ensures r.Some? ==> r.value.clientID == clientID && r.value.nodeID == nodeID
  {
    if 0 <= clientID < 65536 && 0 <= nodeID < 256 then Some(Address(clientID, nodeID)) else None
  }

  /** Address.getGID */
  function Gid(a: Address): (g: seq<byte>)
    ensures |g| == AddressLength
  {
    [a.clientID / 256, a.clientID % 256, a.nodeID]
  }

  /** Address.parseGID: total on 3-byte input. */
  function ParseGid(g: seq<byte>): (r: Address)
    requires |g| == AddressLength
    ensures r.clientID / 256 == g[0] && r.clientID % 256 == g[1] && r.nodeID == g[2]
  {
    var c := g[0] as int * 256 + g[1] as int;
    assert c / 256 == g[0] && c % 256 == g[1];
    Address(c, g[2])
  }

  /** Decoding an encoded address gives the address back. */
  lemma GidRoundTrip(a: Address)
    ensures ParseGid(Gid(a)) == a
  {
  }

  /** Every 3-byte string is the encoding of exactly the address it decodes to. */
  lemma GidOnto(g: seq<byte>)
    requires |g| == AddressLength
    ensures Gid(ParseGid(g)) == g
  {
    var c := g[0] as int * 256 + g[1] as int;
    assert c / 256 == g[0] && c % 256 == g[1];
  }

  /** Distinct addresses have distinct encodings. */
  lemma GidInjective(a: Address, b: Address)
    requires Gid(a) == Gid(b)
    ensures a == b
  {
    GidRoundTrip(a);
    GidRoundTrip(b);
  }
}
