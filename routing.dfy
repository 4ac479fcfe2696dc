/**
 * The server's routing engine (SocketMessageServer.java): payload pattern
 * matching, the per-connection subscription check, one step of a
 * connection's receive loop over the shared client directory and
 * subscription table, the bounded-retry dispatcher, and the validation of
 * the server's configuration.
 *
 * A connection handler is named by a HandlerId. Its outbound TimeoutBuffer
 * is not modelled here: handing a message to it (addMessage, which queues the
 * message before anything can throw) is recorded as a Delivery, and the
 * handlers whose addMessage throws IOException on the message at hand form
 * the set `broken`. TimeoutBuffer.addMessage throws only when the add flushes
 * (the message is urgent or fills the queue) and the output stream fails.
 */
module Routing {
  import opened Wrappers
  import opened Addresses
  import opened Messages
  import opened Settings
  import opened Codec

  /** Identity of a ClientHandler (one per accepted connection). */
  type HandlerId = nat

  /** The ASCII character '0': a pattern starting with it matches every payload. */
  const Wildcard: byte := 48

  /** Unchecked exceptions and I/O errors that end a receive loop while it notifies subscribers. */
  datatype Fault =
    | IndexOutOfBounds  // pattern[0] on an empty pattern
    | NullPointer       // iterating the payload of a message whose data is null
    | SendFailed        // sendMessage on a subscriber whose buffer throws IOException

  // ---------------------------------------------------------------------
  // patternMatch and matchesQueryType
  // ---------------------------------------------------------------------

  /** p occurs in s starting at index i. */
  predicate OccursAt(s: seq<byte>, p: seq<byte>, i: int) {
    0 <= i && i + |p| <= |s| && s[i..i + |p|] == p
  }

  /** The least index at or after i where p occurs in s, or -1. */
  function IndexFrom(s: seq<byte>, p: seq<byte>, i: nat): (r: int)
    ensures r == -1 || (i <= r && OccursAt(s, p, r))
    ensures r == -1 ==> forall j :: i <= j ==> !OccursAt(s, p, j)
    ensures r != -1 ==> forall j :: i <= j < r ==> !OccursAt(s, p, j)
    decreases |s| - i + 1
  {
    if i + |p| > |s| then -1
    else if s[i..i + |p|] == p then i
    else IndexFrom(s, p, i + 1)
  }

  /** Collections.indexOfSubList: the first index at which p occurs in s, -1 if there is none. */
  function IndexOfSubList(s: seq<byte>, p: seq<byte>): (r: int)
    ensures r == -1 <==> forall j :: !OccursAt(s, p, j)
    ensures r != -1 ==> OccursAt(s, p, r) && forall j :: 0 <= j < r ==> !OccursAt(s, p, j)
  {
    IndexFrom(s, p, 0)
  }

  /**
   * patternMatch(data, pattern): a pattern starting with '0' matches anything;
   * otherwise the pattern must occur contiguously in the payload. An empty
   * pattern and a null payload throw.
   */
  function PatternMatch(data: Option<seq<byte>>, pattern: seq<byte>): (r: Result<bool, Fault>)
    ensures |pattern| == 0 ==> r == Failure(IndexOutOfBounds)
    ensures |pattern| > 0 && pattern[0] == Wildcard ==> r == Success(true)
    ensures |pattern| > 0 && pattern[0] != Wildcard && data.None? ==> r == Failure(NullPointer)
    ensures |pattern| > 0 && pattern[0] != Wildcard && data.Some? ==>
              r == Success(exists i :: OccursAt(data.value, pattern, i))
  {
    if |pattern| == 0 then Failure(IndexOutOfBounds)
    else if pattern[0] == Wildcard then Success(true)
    else if data.None? then Failure(NullPointer)
    else Success(IndexOfSubList(data.value, pattern) != -1)
  }

  /** A payload always matches a non-wildcard pattern equal to itself. */
  lemma PatternMatchesItself(d: seq<byte>)
    requires |d| > 0
    ensures PatternMatch(Some(d), d) == Success(true)
  {
    assert OccursAt(d, d, 0) by { assert d[0..|d|] == d; }
  }

  /** A payload containing the pattern in the middle matches it. */
  lemma {:induction false} PatternMatchesInside(before: seq<byte>, p: seq<byte>, after: seq<byte>)
    requires |p| > 0
    ensures PatternMatch(Some(before + p + after), p) == Success(true)
  {
    var s := before + p + after;
    assert s[|before|..|before| + |p|] == p;
    assert OccursAt(s, p, |before|);
  }

  /**
   * ClientHandler.matchesQueryType: false when this handler holds no pattern
   * for the message's type, and the outcome of patternMatch against that
   * pattern otherwise.
   */
  function MatchesQueryType(patterns: map<MessageType, seq<byte>>, m: Message): (r: Result<bool, Fault>)
    ensures m.mtype !in patterns ==> r == Success(false)
    ensures r == Success(true) <==>
              && m.mtype in patterns && |patterns[m.mtype]| > 0
              && (|| patterns[m.mtype][0] == Wildcard
                  || (m.data.Some? && exists i :: OccursAt(m.data.value, patterns[m.mtype], i)))
    ensures r.Failure? <==>
              && m.mtype in patterns
              && (|patterns[m.mtype]| == 0 || (patterns[m.mtype][0] != Wildcard && m.data.None?))
  {
    if m.mtype in patterns then PatternMatch(m.data, patterns[m.mtype]) else Success(false)
  }

  // ---------------------------------------------------------------------
  // Routing tables
  // ---------------------------------------------------------------------

  /** queries.get(t), with an absent key read as the empty set. */
  function Subscribers(queries: map<MessageType, set<HandlerId>>, t: MessageType): set<HandlerId> {
    if t in queries then queries[t] else {}
  }

  /** A handler's queryPatterns; a handler that never subscribed has none. */
  function PatternsOf(patterns: map<HandlerId, map<MessageType, seq<byte>>>, h: HandlerId): map<MessageType, seq<byte>> {
    if h in patterns then patterns[h] else map[]
  }

  /** The QUERY branch on the subscription table: create queries[t] if absent, then add h. */
  function Subscribe(queries: map<MessageType, set<HandlerId>>, t: MessageType, h: HandlerId): (r: map<MessageType, set<HandlerId>>)
    ensures forall u :: u in r <==> u in queries || u == t
    ensures forall u, g :: g in Subscribers(r, u) <==> g in Subscribers(queries, u) || (u == t && g == h)
  {
    queries[t := Subscribers(queries, t) + {h}]
  }

  /** Subscribing the same handler to the same type twice changes nothing the second time. */
  lemma SubscribeIdempotent(queries: map<MessageType, set<HandlerId>>, t: MessageType, h: HandlerId)
    ensures Subscribe(Subscribe(queries, t, h), t, h) == Subscribe(queries, t, h)
  {
    var once := Subscribe(queries, t, h);
    assert Subscribers(once, t) + {h} == Subscribers(once, t);
  }

  /** order lists the members of hs, each once: an iteration order of the hash set. */
  predicate Enumerates(order: seq<HandlerId>, hs: set<HandlerId>) {
    && (forall i :: 0 <= i < |order| ==> order[i] in hs)
    && (forall h :: h in hs ==> h in order)
    && (forall i, j :: 0 <= i < j < |order| ==> order[i] != order[j])
  }

  // ---------------------------------------------------------------------
  // Query fan-out
  // ---------------------------------------------------------------------

  /** The fan-out calls sendMessage on h, which queues the message in h's buffer: h's pattern for the type matches. */
  predicate Handed(patterns: map<HandlerId, map<MessageType, seq<byte>>>, h: HandlerId, m: Message) {
    MatchesQueryType(PatternsOf(patterns, h), m) == Success(true)
  }

  /**
   * What the fan-out loop does with subscriber h: Success(true) when the message
   * is handed to h, Success(false) when h's pattern does not match, and the
   * fault that ends the receive loop otherwise. SendFailed comes after the
   * message was handed over.
   */
  function Notice(patterns: map<HandlerId, map<MessageType, seq<byte>>>, broken: set<HandlerId>, h: HandlerId, m: Message): Result<bool, Fault> {
    match MatchesQueryType(PatternsOf(patterns, h), m)
    case Failure(f) => Failure(f)
    case Success(b) => if b && h in broken then Failure(SendFailed) else Success(b)
  }

  /** The members of order that are handed the message, in order. */
  function Matching(patterns: map<HandlerId, map<MessageType, seq<byte>>>, m: Message, order: seq<HandlerId>): seq<HandlerId> {
    if order == [] then []
    else
      var last := order[|order| - 1];
      Matching(patterns, m, order[..|order| - 1]) + (if Handed(patterns, last, m) then [last] else [])
  }

  /** No subscriber in order makes the fan-out throw. */
  predicate NoFault(patterns: map<HandlerId, map<MessageType, seq<byte>>>, broken: set<HandlerId>, m: Message, order: seq<HandlerId>) {
    forall i :: 0 <= i < |order| ==> Notice(patterns, broken, order[i], m).Success?
  }

  /** Exactly the members of order whose pattern matches are handed the message. */
  lemma {:induction false} MatchingMembers(patterns: map<HandlerId, map<MessageType, seq<byte>>>, m: Message, order: seq<HandlerId>, h: HandlerId)
    ensures h in Matching(patterns, m, order) <==> h in order && Handed(patterns, h, m)
    decreases |order|
  {
    if order != [] {
      var init := order[..|order| - 1];
      assert order == init + [order[|order| - 1]];
      MatchingMembers(patterns, m, init, h);
    }
  }

  /** Each subscriber is handed the message at most once. */
  lemma {:induction false} MatchingDistinct(patterns: map<HandlerId, map<MessageType, seq<byte>>>, m: Message, order: seq<HandlerId>)
    requires forall i, j :: 0 <= i < j < |order| ==> order[i] != order[j]
    ensures var r := Matching(patterns, m, order);
            forall i, j :: 0 <= i < j < |r| ==> r[i] != r[j]
    decreases |order|
  {
    if order != [] {
      var init, last := order[..|order| - 1], order[|order| - 1];
      assert order == init + [last];
      MatchingDistinct(patterns, m, init);
      MatchingMembers(patterns, m, init, last);
    }
  }

  /**
   * The fan-out loop of the receive step: every subscriber in iteration order
   * whose pattern matches is handed the message, until one of them throws;
   * a subscriber whose addMessage throws has been handed the message first.
   */
  method FanOut(patterns: map<HandlerId, map<MessageType, seq<byte>>>, broken: set<HandlerId>, m: Message, order: seq<HandlerId>)
    returns (notified: seq<HandlerId>, fault: Option<Fault>)
    ensures fault.None? <==> NoFault(patterns, broken, m, order)
    ensures fault.None? ==> notified == Matching(patterns, m, order)
    ensures fault.Some? ==> exists k ::
              && 0 <= k < |order| && NoFault(patterns, broken, m, order[..k])
              && Notice(patterns, broken, order[k], m) == Failure(fault.value)
              && notified == Matching(patterns, m, order[..k + 1])
  {
    notified := [];
    var i := 0;
    while i < |order|
      invariant 0 <= i <= |order|
      invariant NoFault(patterns, broken, m, order[..i])
      invariant notified == Matching(patterns, m, order[..i])
    {
      assert order[..i + 1][..i] == order[..i];
      match Notice(patterns, broken, order[i], m)
      case Failure(f) =>
        if f == SendFailed {
          notified := notified + [order[i]];
        }
        return notified, Some(f);
      case Success(b) =>
        if b {
          notified := notified + [order[i]];
        }
      i := i + 1;
    }
    assert order[..|order|] == order;
    return notified, None;
  }

  /**
   * The fan-out over order threw fault f at some subscriber, after every
   * earlier one passed, and the buffers were handed the message of every
   * matching subscriber up to and including that one: `after` is `before`
   * extended by those deliveries.
   */
  predicate StoppedAt(patterns: map<HandlerId, map<MessageType, seq<byte>>>, broken: set<HandlerId>, m: Message, order: seq<HandlerId>,
                      f: Fault, before: seq<Delivery>, after: seq<Delivery>)
  {
    exists k ::
      && 0 <= k < |order| && NoFault(patterns, broken, m, order[..k])
      && Notice(patterns, broken, order[k], m) == Failure(f)
      && after == before + Deliveries(Matching(patterns, m, order[..k + 1]), m)
  }

  /** A fan-out that threw f after handing the message to `handed` extends any delivery record by exactly those. */
  lemma StoppedAtExtends(patterns: map<HandlerId, map<MessageType, seq<byte>>>, broken: set<HandlerId>, m: Message, order: seq<HandlerId>,
                         f: Fault, handed: seq<HandlerId>, before: seq<Delivery>)
    requires exists k ::
      && 0 <= k < |order| && NoFault(patterns, broken, m, order[..k])
      && Notice(patterns, broken, order[k], m) == Failure(f)
      && handed == Matching(patterns, m, order[..k + 1])
    ensures StoppedAt(patterns, broken, m, order, f, before, before + Deliveries(handed, m))
  {
  }

  /** A fan-out that runs to the end hands the message to exactly the subscribers of its type whose pattern matches. */
  lemma FanOutComplete(queries: map<MessageType, set<HandlerId>>, patterns: map<HandlerId, map<MessageType, seq<byte>>>, m: Message, order: seq<HandlerId>, h: HandlerId)
    requires Enumerates(order, Subscribers(queries, m.mtype))
    ensures h in Matching(patterns, m, order) <==>
              h in Subscribers(queries, m.mtype) && MatchesQueryType(PatternsOf(patterns, h), m) == Success(true)
  {
    MatchingMembers(patterns, m, order, h);
  }

  /**
   * A subscriber is handed the message exactly when its pattern matches; the
   * fan-out goes on past it exactly when its addMessage does not throw, and a
   * pattern fault ends the loop before anything is handed over.
   */
  lemma NoticeMeaning(patterns: map<HandlerId, map<MessageType, seq<byte>>>, broken: set<HandlerId>, h: HandlerId, m: Message)
    ensures Handed(patterns, h, m) <==>
              Notice(patterns, broken, h, m) == Success(true) || Notice(patterns, broken, h, m) == Failure(SendFailed)
    ensures Notice(patterns, broken, h, m) == Success(true) <==>
              MatchesQueryType(PatternsOf(patterns, h), m) == Success(true) && h !in broken
    ensures Notice(patterns, broken, h, m) == Failure(SendFailed) <==>
              MatchesQueryType(PatternsOf(patterns, h), m) == Success(true) && h in broken
    ensures Notice(patterns, broken, h, m) == Success(false) <==> MatchesQueryType(PatternsOf(patterns, h), m) == Success(false)
    ensures (Notice(patterns, broken, h, m).Failure? && Notice(patterns, broken, h, m) != Failure(SendFailed)) <==>
              MatchesQueryType(PatternsOf(patterns, h), m).Failure?
  {
  }

  /** The message handed to a handler's outbound buffer. */
  datatype Delivery = Delivery(to: HandlerId, msg: Message)

  /** A dispatcher started by the receive loop of `origin` for a point-to-point message. */
  datatype Pending = Pending(origin: HandlerId, msg: Message)

  function Deliveries(hs: seq<HandlerId>, m: Message): (r: seq<Delivery>)
    ensures |r| == |hs| && forall i :: 0 <= i < |hs| ==> r[i] == Delivery(hs[i], m)
  {
    seq(|hs|, i requires 0 <= i < |hs| => Delivery(hs[i], m))
  }

  /** Why a receive loop ended. */
  datatype Stop =
    | Undecodable(error: DecodeError)  // fromStream threw
    | Notifying(fault: Fault)          // the fan-out threw

  // ---------------------------------------------------------------------
  // The dispatcher
  // ---------------------------------------------------------------------

  /** What a dispatcher sees after a wait: the directory and whether its handler is still active. */
  datatype Snapshot = Snapshot(clients: map<Address, HandlerId>, active: bool)

  /** How a dispatcher ends, with the number of waits it made. */
  datatype DispatchOutcome =
    | Delivered(to: HandlerId, waits: nat)  // handed to the destination's handler
    | Dropped(waits: nat)                   // its handler became inactive
    | Abandoned(waits: nat)                 // the retry budget ran out

  /** The destination was missing at every look before the w-th, and the handler was active after each of those waits. */
  predicate StillSearching(dest: Address, snaps: seq<Snapshot>, w: nat)
    requires w < |snaps|
  {
    && (forall j :: 0 <= j < w ==> dest !in snaps[j].clients)
    && (forall j :: 1 <= j < w ==> snaps[j].active)
  }

  /**
   * The meaning of a dispatcher run with budget `retries`, where snaps[k] is
   * what it sees after k waits. It looks the destination up before every
   * wait; it delivers at the first look that finds the destination while the
   * handler is active; after each wait it first gives up if the handler is
   * inactive, and after the retries-th wait it gives up without looking again.
   */
  predicate DispatchSpec(dest: Address, retries: nat, snaps: seq<Snapshot>, o: DispatchOutcome)
    requires retries < |snaps|
  {
    o.waits <= retries && StillSearching(dest, snaps, o.waits) &&
    var s := snaps[o.waits];
    match o
    case Delivered(to, w) => w < retries && dest in s.clients && s.active && to == s.clients[dest]
    case Dropped(w) => !s.active && (w == 0 ==> dest in s.clients)
    case Abandoned(w) => w == retries && s.active
  }

  /** DispatchSpec leaves no choice: every run has at most one outcome. */
  lemma DispatchSpecUnique(dest: Address, retries: nat, snaps: seq<Snapshot>, o1: DispatchOutcome, o2: DispatchOutcome)
    requires retries < |snaps|
    requires DispatchSpec(dest, retries, snaps, o1) && DispatchSpec(dest, retries, snaps, o2)
    ensures o1 == o2
  {
  }

  /**
   * Dispatcher.run: wait while the destination is not in the directory,
   * spending one retry per wait, and hand the message to the destination's
   * handler once it is there.
   */
  method RunDispatcher(dest: Address, retries: int, snaps: seq<Snapshot>) returns (o: DispatchOutcome)
    requires 1 <= retries < |snaps|
    ensures DispatchSpec(dest, retries, snaps, o)
  {
    var left := retries;
    var k := 0;
    while dest !in snaps[k].clients
      invariant 0 <= k < retries && left == retries - k
      invariant StillSearching(dest, snaps, k)
      invariant k >= 1 ==> snaps[k].active
      decreases left
    {
      k := k + 1;
      if !snaps[k].active {
        return Dropped(k);
      }
      left := left - 1;
      if left == 0 {
        return Abandoned(k);
      }
    }
    if !snaps[k].active {
      return Dropped(k);
    }
    return Delivered(snaps[k].clients[dest], k);
  }

  /** A destination that never registers while the handler stays up costs the whole budget and the message. */
  lemma NeverRegisteredAbandoned(dest: Address, retries: nat, snaps: seq<Snapshot>, o: DispatchOutcome)
    requires 1 <= retries < |snaps|
    requires forall k :: 0 <= k <= retries ==> dest !in snaps[k].clients && snaps[k].active
    requires DispatchSpec(dest, retries, snaps, o)
    ensures o == Abandoned(retries)
  {
  }

  /** A destination registered before the first look gets the message at once. */
  lemma RegisteredDeliveredAtOnce(dest: Address, retries: nat, snaps: seq<Snapshot>, o: DispatchOutcome)
    requires 1 <= retries < |snaps|
    requires dest in snaps[0].clients && snaps[0].active
    requires DispatchSpec(dest, retries, snaps, o)
    ensures o == Delivered(snaps[0].clients[dest], 0)
  {
  }

  /** A registration that lands during the last wait comes too late: the budget is spent and the directory is not read again. */
  lemma LastWaitRegistrationIgnored(dest: Address, retries: nat, snaps: seq<Snapshot>, o: DispatchOutcome)
    requires 1 <= retries < |snaps|
    requires forall k :: 0 <= k < retries ==> dest !in snaps[k].clients
    requires forall k :: 0 <= k <= retries ==> snaps[k].active
    requires dest in snaps[retries].clients
    requires DispatchSpec(dest, retries, snaps, o)
    ensures o == Abandoned(retries)
  {
  }

  // ---------------------------------------------------------------------
  // The routing state and the receive step
  // ---------------------------------------------------------------------

  class Router {
    /** The client directory: address to the handler of its connection. */
    var clients: map<Address, HandlerId>
    /** The subscription table: message type to subscribed handlers. */
    var queries: map<MessageType, set<HandlerId>>
    /** Each handler's queryPatterns: message type to its latest pattern. */
    var patterns: map<HandlerId, map<MessageType, seq<byte>>>
    /** Handlers whose addMessage throws IOException on the message at hand, after queueing it (the add flushes and the stream fails). */
    var broken: set<HandlerId>
    /** Every message handed to a handler's outbound buffer so far, whether or not the add then threw. */
    var delivered: seq<Delivery>
    /** Dispatchers started and not yet run. */
    var pending: seq<Pending>
    const dispatcherRetries: int
    const qc: QueryCodec

    /** A server with empty tables. */
    constructor (dispatcherRetries: int, qc: QueryCodec)
      ensures clients == map[] && queries == map[] && patterns == map[]
      ensures broken == {} && delivered == [] && pending == []
      ensures this.dispatcherRetries == dispatcherRetries && this.qc == qc
    {
      clients := map[];
      queries := map[];
      patterns := map[];
      broken := {};
      delivered := [];
      pending := [];
      this.dispatcherRetries := dispatcherRetries;
      this.qc := qc;
    }

    /**
     * The type switch of Receiver.run after the fan-out: REGISTER records the
     * source in the directory, QUERY subscribes handler h and records its
     * pattern, and anything else starts a dispatcher.
     */
    method Apply(h: HandlerId, m: Message)
      requires KindMatchesType(m)
      modifies this
      ensures delivered == old(delivered) && broken == old(broken)
      ensures m.mtype == Register ==> clients == old(clients)[m.src := h]
      ensures m.mtype != Register ==> clients == old(clients)
      ensures m.mtype == Query ==>
                && queries == Subscribe(old(queries), m.kind.query.queryType, h)
                && patterns == old(patterns)[h := PatternsOf(old(patterns), h)[m.kind.query.queryType := m.kind.query.pattern]]
      ensures m.mtype != Query ==> queries == old(queries) && patterns == old(patterns)
      ensures m.mtype == Letter ==> pending == old(pending) + [Pending(h, m)]
      ensures m.mtype != Letter ==> pending == old(pending)
    {
      match m.mtype {
        case Register =>
          clients := clients[m.src := h];
        case Query =>
          var q := m.kind.query;
          queries := Subscribe(queries, q.queryType, h);
          patterns := patterns[h := PatternsOf(patterns, h)[q.queryType := q.pattern]];
        case Letter =>
          pending := pending + [Pending(h, m)];
      }
    }

    /**
     * The body of Receiver.run for a decoded message received on the
     * connection of handler h: the query fan-out first, then the type switch
     * (Apply) unless the fan-out threw. `order` is the iteration order of the
     * subscriber set.
     */
    method Route(h: HandlerId, m: Message, order: seq<HandlerId>) returns (fault: Option<Fault>)
      requires KindMatchesType(m)
      requires Enumerates(order, Subscribers(queries, m.mtype))
      modifies this
      ensures broken == old(broken)
      ensures fault.None? <==> NoFault(old(patterns), broken, m, order)
      ensures fault.None? ==> delivered == old(delivered) + Deliveries(Matching(old(patterns), m, order), m)
      ensures fault.Some? ==> StoppedAt(old(patterns), broken, m, order, fault.value, old(delivered), delivered)
      ensures fault.Some? || m.mtype != Register ==> clients == old(clients)
      ensures fault.None? && m.mtype == Register ==> clients == old(clients)[m.src := h]
      ensures fault.Some? || m.mtype != Query ==> queries == old(queries) && patterns == old(patterns)
      ensures fault.None? && m.mtype == Query ==>
                && queries == Subscribe(old(queries), m.kind.query.queryType, h)
                && patterns == old(patterns)[h := PatternsOf(old(patterns), h)[m.kind.query.queryType := m.kind.query.pattern]]
      ensures fault.Some? || m.mtype != Letter ==> pending == old(pending)
      ensures fault.None? && m.mtype == Letter ==> pending == old(pending) + [Pending(h, m)]
    {
      var notified, f := FanOut(patterns, broken, m, order);
      if f.Some? {
        StoppedAtExtends(patterns, broken, m, order, f.value, notified, delivered);
        delivered := delivered + Deliveries(notified, m);
        return f;
      }
      delivered := delivered + Deliveries(notified, m);
      Apply(h, m);
      return None;
    }

    /**
     * One iteration of Receiver.run on the bytes still to arrive on h's
     * connection: decode one frame, reading its length field with `reader`
     * (SignedLength is the code as written), and route it. A frame that
     * cannot be decoded ends the loop (EOFException by returning, the
     * unchecked exceptions by ending the thread) and changes nothing.
     */
    method Receive(h: HandlerId, reader: LengthReader, input: seq<byte>, orders: map<MessageType, seq<HandlerId>>)
      returns (stop: Option<Stop>, rest: seq<byte>)
      requires forall t :: t in queries ==> t in orders && Enumerates(orders[t], queries[t])
      modifies this
      ensures broken == old(broken)
      ensures Decode(qc, reader, input).Failure? ==>
                && stop == Some(Undecodable(Decode(qc, reader, input).error)) && rest == input
                && clients == old(clients) && queries == old(queries) && patterns == old(patterns)
                && delivered == old(delivered) && pending == old(pending)
      ensures Decode(qc, reader, input).Success? ==>
                var m := Decode(qc, reader, input).value.msg;
                var seqOrder := if m.mtype in old(queries) then orders[m.mtype] else [];
                && rest == Decode(qc, reader, input).value.rest
                && (stop.None? <==> NoFault(old(patterns), broken, m, seqOrder))
                && (stop.Some? ==> stop.value.Notifying?)
                && (stop.None? ==> delivered == old(delivered) + Deliveries(Matching(old(patterns), m, seqOrder), m))
                && (stop.Some? ==> StoppedAt(old(patterns), broken, m, seqOrder, stop.value.fault, old(delivered), delivered))
                && (stop.None? && m.mtype == Register ==> clients == old(clients)[m.src := h])
                && (stop.None? && m.mtype == Query ==>
                      && queries == Subscribe(old(queries), m.kind.query.queryType, h)
                      && patterns == old(patterns)[h := PatternsOf(old(patterns), h)[m.kind.query.queryType := m.kind.query.pattern]])
                && (stop.None? && m.mtype == Letter ==> pending == old(pending) + [Pending(h, m)])
                && (stop.Some? || m.mtype != Register ==> clients == old(clients))
                && (stop.Some? || m.mtype != Query ==> queries == old(queries) && patterns == old(patterns))
                && (stop.Some? || m.mtype != Letter ==> pending == old(pending))
    {
      var d := Decode(qc, reader, input);
      if d.Failure? {
        return Some(Undecodable(d.error)), input;
      }
      var m := d.value.msg;
      var order: seq<HandlerId> := if m.mtype in queries then orders[m.mtype] else [];
      assert Enumerates(order, Subscribers(queries, m.mtype));
      var f := Route(h, m, order);
      rest := d.value.rest;
      stop := if f.Some? then Some(Notifying(f.value)) else None;
    }

    /**
     * Run the i-th pending dispatcher against the snapshots it sees, its first
     * look being at the current directory. A Delivered outcome hands the
     * message to the destination's buffer; an IOException from that
     * addMessage comes after the message is queued, and the dispatcher prints
     * and swallows it.
     */
    method Dispatch(i: nat, snaps: seq<Snapshot>) returns (o: DispatchOutcome)
      requires i < |pending| && 1 <= dispatcherRetries < |snaps|
      requires snaps[0].clients == clients
      modifies this
      ensures pending == old(pending[..i] + pending[i + 1..])
      ensures DispatchSpec(old(pending[i]).msg.dest, dispatcherRetries, snaps, o)
      ensures o.Delivered? ==> delivered == old(delivered) + [Delivery(o.to, old(pending[i]).msg)]
      ensures !o.Delivered? ==> delivered == old(delivered)
      ensures clients == old(clients) && queries == old(queries) && patterns == old(patterns) && broken == old(broken)
    {
      var p := pending[i];
      pending := pending[..i] + pending[i + 1..];
      o := RunDispatcher(p.msg.dest, dispatcherRetries, snaps);
      if o.Delivered? {
        delivered := delivered + [Delivery(o.to, p.msg)];
      }
    }
  }

  // ---------------------------------------------------------------------
  // Server configuration
  // ---------------------------------------------------------------------

  /** The validated parameters of a SocketMessageServer. */
  datatype ServerConfig = ServerConfig(
    port: int, packetSize: int, bufferTimeout: int, bufferSize: int,
    socketTimeout: int, dispatcherTimeout: int, dispatcherRetries: int)

  /**
   * listen.port, read with the default 0 and checked against [0, 65535]. The
   * NumberFormatException of a malformed value is not caught here; it is an
   * IllegalArgumentException all the same.
   */
  function ListenPort(s: Setting): (r: Result<int, ConfigError>)
    ensures r.Success? <==> s.Missing? || (s.Number? && 0 <= s.value <= 65535)
    ensures r.Success? ==> 0 <= r.value <= 65535 && (s.Missing? ==> r.value == 0) && (s.Number? ==> r.value == s.value)
    ensures s.Malformed? ==> r == Failure(NotAnInteger("listen.port"))
    ensures s.Number? && !(0 <= s.value <= 65535) ==> r == Failure(OutOfRange("listen.port"))
  {
    match s
    case Missing => Success(0)
    case Malformed => Failure(NotAnInteger("listen.port"))
    case Number(v) => if v < 0 || v > 65535 then Failure(OutOfRange("listen.port")) else Success(v)
  }

  /** parsePositive: the value of the key, or the default when it is absent, which must be greater than 0. */
  function ParsePositive(name: string, s: Setting, default: int): (r: Result<int, ConfigError>)
    ensures r.Success? <==> (s.Missing? && default > 0) || (s.Number? && s.value > 0)
    ensures r.Success? ==> r.value > 0 && r.value == (if s.Missing? then default else s.value)
    ensures s.Malformed? ==> r == Failure(NotAnInteger(name))
    ensures r.Failure? && !s.Malformed? ==> r == Failure(OutOfRange(name))
  {
    var v := match s
      case Missing => Some(default)
      case Number(v) => Some(v)
      case Malformed => None;
    if v.None? then Failure(NotAnInteger(name))
    else if v.value <= 0 then Failure(OutOfRange(name))
    else Success(v.value)
  }

  /** The SocketMessageServer constructor's checks, in its order, with its defaults. */
  function NewServerConfig(port: Setting, packetSize: Setting, bufferTimeout: Setting, bufferSize: Setting,
                           socketTimeout: Setting, dispatcherTimeout: Setting, dispatcherRetries: Setting): (r: Result<ServerConfig, ConfigError>)
    ensures r.Success? <==>
              && ListenPort(port).Success? && ParsePositive("packet.size", packetSize, 512).Success?
              && ParsePositive("buffer.timeout", bufferTimeout, 1000).Success?
              && ParsePositive("buffer.size", bufferSize, 3).Success?
              && ParsePositive("socket.timeout", socketTimeout, 2000).Success?
              && ParsePositive("dispatcher.timeout", dispatcherTimeout, 1000).Success?
              && ParsePositive("dispatcher.retries", dispatcherRetries, 3).Success?
    ensures r.Success? ==>
              var c := r.value;
              && 0 <= c.port <= 65535 && c.packetSize > 0 && c.bufferTimeout > 0 && c.bufferSize > 0
              && c.socketTimeout > 0 && c.dispatcherTimeout > 0 && c.dispatcherRetries > 0
    ensures var lp, ps, bt, bs := ListenPort(port), ParsePositive("packet.size", packetSize, 512),
                                  ParsePositive("buffer.timeout", bufferTimeout, 1000), ParsePositive("buffer.size", bufferSize, 3);
            var st, dt, dr := ParsePositive("socket.timeout", socketTimeout, 2000),
                              ParsePositive("dispatcher.timeout", dispatcherTimeout, 1000),
                              ParsePositive("dispatcher.retries", dispatcherRetries, 3);
            && (lp.Failure? ==> r == Failure(lp.error))
            && (lp.Success? && ps.Failure? ==> r == Failure(ps.error))
            && (lp.Success? && ps.Success? && bt.Failure? ==> r == Failure(bt.error))
            && (lp.Success? && ps.Success? && bt.Success? && bs.Failure? ==> r == Failure(bs.error))
            && (lp.Success? && ps.Success? && bt.Success? && bs.Success? && st.Failure? ==> r == Failure(st.error))
            && (lp.Success? && ps.Success? && bt.Success? && bs.Success? && st.Success? && dt.Failure? ==> r == Failure(dt.error))
            && (lp.Success? && ps.Success? && bt.Success? && bs.Success? && st.Success? && dt.Success? && dr.Failure? ==> r == Failure(dr.error))
            && (r.Success? ==> r.value == ServerConfig(lp.value, ps.value, bt.value, bs.value, st.value, dt.value, dr.value))
  {
    match ListenPort(port)
    case Failure(e) => Failure(e)
    case Success(p) =>
      match ParsePositive("packet.size", packetSize, 512)
      case Failure(e) => Failure(e)
      case Success(ps) =>
        match ParsePositive("buffer.timeout", bufferTimeout, 1000)
        case Failure(e) => Failure(e)
        case Success(bt) =>
          match ParsePositive("buffer.size", bufferSize, 3)
          case Failure(e) => Failure(e)
          case Success(bs) =>
            match ParsePositive("socket.timeout", socketTimeout, 2000)
            case Failure(e) => Failure(e)
            case Success(st) =>
              match ParsePositive("dispatcher.timeout", dispatcherTimeout, 1000)
              case Failure(e) => Failure(e)
              case Success(dt) =>
                match ParsePositive("dispatcher.retries", dispatcherRetries, 3)
                case Failure(e) => Failure(e)
                case Success(dr) => Success(ServerConfig(p, ps, bt, bs, st, dt, dr))
  }

  /** With every key absent, the server listens on an ephemeral port with the documented defaults. */
  lemma DefaultServerConfig()
    ensures NewServerConfig(Missing, Missing, Missing, Missing, Missing, Missing, Missing)
            == Success(ServerConfig(0, 512, 1000, 3, 2000, 1000, 3))
  {
  }

  /** A negative packet.size is rejected with the message for packet.size, whatever follows it. */
  lemma NegativePacketSizeRejected(port: Setting, bufferTimeout: Setting, bufferSize: Setting,
                                   socketTimeout: Setting, dispatcherTimeout: Setting, dispatcherRetries: Setting)
    requires ListenPort(port).Success?
    ensures NewServerConfig(port, Number(-1), bufferTimeout, bufferSize, socketTimeout, dispatcherTimeout, dispatcherRetries)
            == Failure(OutOfRange("packet.size"))
  {
  }
}
