/**
 * The registration message (RegisterMessage.java): its constructor, its body
 * writer and reader, and its equals, together with the virtual dispatch of
 * equals between the message classes.
 */
module RegisterMessages {
  import opened Wrappers
  import opened Addresses
  import opened Messages

  /** new RegisterMessage(address): an urgent REGISTER from the given address to the server. */
  function RegisterMessageFor(address: Address): (r: Message)
    ensures KindMatchesType(r) && r.mtype == Register && r.urgent
    ensures r.src == address && r.dest == ServerAddress && r.data.None?
  {
    Message(RegisterKind, address, ServerAddress, Register, true, None)
  }

  /** RegisterMessage.dataToStream: only a zero length field. */
  function RegisterDataToStream(): (r: seq<byte>)
    ensures r == [0, 0]
  {
    ShortBytes(0)
  }

  /** RegisterMessage.dataFromStream: reads nothing, whatever length was declared. */
  function RegisterDataFromStream(input: seq<byte>, len: int): (rest: seq<byte>)
    ensures rest == input
  {
    input
  }

  /**
   * RegisterMessage.equals: false unless the other object is a RegisterMessage;
   * then equal when destination, source and type agree, or when Message.equals
   * holds.
   */
  predicate RegisterEquals(a: Message, b: Message)
    ensures RegisterEquals(a, b) ==> b.kind.RegisterKind? && a.dest == b.dest && a.src == b.src && a.mtype == b.mtype
  {
    b.kind.RegisterKind? && ((a.dest == b.dest && a.src == b.src && a.mtype == b.mtype) || BaseEquals(a, b))
  }

  /**
   * a.equals(b) with Java's dynamic dispatch on the class of a. QueryMessage.java
   * is not part of this model; a QueryMessage is compared by Message.equals.
   */
  predicate Equals(a: Message, b: Message)
    ensures Equals(a, b) ==> a.dest == b.dest && a.src == b.src && a.mtype == b.mtype
  {
    if a.kind.RegisterKind? then RegisterEquals(a, b) else BaseEquals(a, b)
  }

  /** A RegisterMessage equals exactly the RegisterMessages with the same destination, source and type. */
  lemma RegisterEqualsByHeader(a: Message, b: Message)
    requires a.kind.RegisterKind?
    ensures Equals(a, b) <==> b.kind.RegisterKind? && a.dest == b.dest && a.src == b.src && a.mtype == b.mtype
  {
  }

  /**
   * equals is not symmetric between the classes: a plain Message with the
   * fields of a RegisterMessage equals it, while the RegisterMessage does not
   * equal the plain Message.
   */
  lemma EqualsAsymmetric(address: Address)
    ensures var r := RegisterMessageFor(address);
            var p := r.(kind := Plain);
            Equals(p, r) && !Equals(r, p)
  {
  }

  /** Equality ignores the urgency flag, for every class. */
  lemma EqualsIgnoresUrgent(a: Message, b: Message, u: bool)
    ensures Equals(a.(urgent := u), b) == Equals(a, b)
    ensures Equals(a, b.(urgent := u)) == Equals(a, b)
  {
  }
}
