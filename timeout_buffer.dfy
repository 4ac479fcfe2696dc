/**
 * The outbound batching buffer (TimeoutBuffer.java): a queue of pending
 * messages written to a byte sink when an urgent message arrives, when the
 * queue reaches its size bound, or when the flush loop's timer fires.
 *
 * The sink is the sequence of bytes written so far plus a flag, set by the
 * environment, that makes every later write of the sink fail.
 */
module TimeoutBuffers {
  import opened Wrappers
  import opened Addresses
  import opened Messages
  import opened Codec
  import opened Seqs

  predicate AllEncodable(q: seq<Message>) {
    forall i :: 0 <= i < |q| ==> Encodable(q[i])
  }

  /**
   * The frame toStream writes for m. A plain message without a body has no
   * frame (writing it throws); the buffer never holds one.
   */
  function Frame(qc: QueryCodec, m: Message): seq<byte> {
    if Encodable(m) then ToStream(qc, m) else []
  }

  function FrameOf(qc: QueryCodec): Message -> seq<byte> {
    m => Frame(qc, m)
  }

  /** The bytes toStream writes for each message of q, oldest first. */
  function EncodeAll(qc: QueryCodec, q: seq<Message>): seq<byte> {
    Flatten(Map(FrameOf(qc), q))
  }

  /** Concatenating two encodable batches gives an encodable batch. */
  lemma AllEncodableAppend(a: seq<Message>, b: seq<Message>)
    requires AllEncodable(a) && AllEncodable(b)
    ensures AllEncodable(a + b)
  {
    forall i | 0 <= i < |a + b| ensures Encodable((a + b)[i]) {
      if i < |a| { assert (a + b)[i] == a[i]; } else { assert (a + b)[i] == b[i - |a|]; }
    }
  }

  /** Writing two batches one after the other writes their concatenation. */
  lemma EncodeAllAppend(qc: QueryCodec, a: seq<Message>, b: seq<Message>)
    ensures EncodeAll(qc, a + b) == EncodeAll(qc, a) + EncodeAll(qc, b)
  {
    MapAppend(FrameOf(qc), a, b);
    FlattenAppend(Map(FrameOf(qc), a), Map(FrameOf(qc), b));
  }

  /** A batch of one message is its frame. */
  lemma EncodeOne(qc: QueryCodec, m: Message)
    requires Encodable(m)
    ensures EncodeAll(qc, [m]) == ToStream(qc, m)
  {
    assert [m][..0] == [];
    var fs := Map(FrameOf(qc), [m]);
    assert fs == [Frame(qc, m)];
    assert fs[..0] == [];
    assert Flatten(fs) == Flatten(fs[..0]) + fs[0];
  }

  /** Queueing one more encodable message adds its frame to the end of the batch. */
  lemma EnqueueOne(qc: QueryCodec, output: seq<byte>, q: seq<Message>, m: Message)
    requires AllEncodable(q) && Encodable(m)
    ensures AllEncodable(q + [m])
    ensures EncodeAll(qc, q + [m]) == EncodeAll(qc, q) + ToStream(qc, m)
    ensures output + EncodeAll(qc, q + [m]) == output + EncodeAll(qc, q) + ToStream(qc, m)
  {
    AllEncodableAppend(q, [m]);
    EncodeOne(qc, m);
    EncodeAllAppend(qc, q, [m]);
  }

  /** The write loop of flush: every queued frame, oldest first, into the stream's buffer. */
  method EncodeQueue(qc: QueryCodec, q: seq<Message>) returns (written: seq<byte>)
    requires AllEncodable(q)
    ensures written == EncodeAll(qc, q)
  {
    written := [];
    assert q[..0] == [];
    for i := 0 to |q|
      invariant written == EncodeAll(qc, q[..i])
    {
      assert q[..i + 1] == q[..i] + [q[i]];
      EncodeOne(qc, q[i]);
      EncodeAllAppend(qc, q[..i], [q[i]]);
      written := written + ToStream(qc, q[i]);
    }
    assert q[..|q|] == q;
  }

  /** The default buffer size of java.io.BufferedOutputStream, used by the three-argument constructor. */
  const DefaultPacketSize := 8192

  class TimeoutBuffer {
    /** True while the flush loop is counting down towards a forced flush. */
    var timer: bool
    /** True while the flush loop runs; stop() and a failed timed flush clear it. */
    var active: bool
    const bufferTimeout: int
    const bufferSize: int
    /** Target packet size of the buffered output stream; packet sizing is not modelled. */
    const packetSize: int
    /** sendBuffer: the queued messages, oldest first. */
    var queue: seq<Message>
    /** Every byte written to the output stream so far. */
    var output: seq<byte>
    /** Once set, every write to the output stream throws IOException. */
    var outputBroken: bool
    /** How QUERY bodies are written. */
    const qc: QueryCodec

    ghost predicate Valid()
      reads this
    {
      AllEncodable(queue)
    }

    /** What the sink will have received once the queue is flushed: nothing accepted is lost or reordered. */
    ghost function Stream(): seq<byte>
      reads this
    {
      output + EncodeAll(qc, queue)
    }

    /** Whether addMessage(m) flushes: m is urgent, or the queue reaches the size bound with it. */
    predicate FlushesOn(m: Message)
      reads this
    {
      m.urgent || |queue| + 1 == bufferSize
    }

    /** TimeoutBuffer(bufferTimeout, bufferSize, output) */
    constructor (bufferTimeout: int, bufferSize: int, qc: QueryCodec)
      ensures Valid()
      ensures queue == [] && !timer && active
      ensures output == [] && !outputBroken
      ensures this.bufferTimeout == bufferTimeout && this.bufferSize == bufferSize
      ensures packetSize == DefaultPacketSize && this.qc == qc
    {
      timer := false;
      this.bufferTimeout := bufferTimeout;
      this.bufferSize := bufferSize;
      packetSize := DefaultPacketSize;
      queue := [];
      output := [];
      outputBroken := false;
      active := true;
      this.qc := qc;
    }

    /** TimeoutBuffer(bufferTimeout, bufferSize, packetSize, output) */
    constructor WithPacketSize(bufferTimeout: int, bufferSize: int, packetSize: int, qc: QueryCodec)
      ensures Valid()
      ensures queue == [] && !timer && active
      ensures output == [] && !outputBroken
      ensures this.bufferTimeout == bufferTimeout && this.bufferSize == bufferSize
      ensures this.packetSize == packetSize && this.qc == qc
    {
      timer := false;
      this.bufferTimeout := bufferTimeout;
      this.bufferSize := bufferSize;
      this.packetSize := packetSize;
      queue := [];
      output := [];
      outputBroken := false;
      active := true;
      this.qc := qc;
    }

    /**
     * flush: disarm the timer, write every queued frame in queue order, flush
     * the stream and clear the queue. The frames pass through the buffered
     * stream, so on an I/O failure none of them reaches the sink and the
     * queue is kept.
     */
    method Flush() returns (ok: bool)
      requires Valid()
      modifies this
      ensures Valid()
      ensures !timer && active == old(active) && outputBroken == old(outputBroken)
      ensures ok == !outputBroken
      ensures ok ==> output == old(output) + EncodeAll(qc, old(queue)) && queue == []
      ensures !ok ==> output == old(output) && queue == old(queue)
      ensures Stream() == old(Stream())
    {
      timer := false;
      var written := EncodeQueue(qc, queue);
      if outputBroken {
        return false;
      }
      output := output + written;
      queue := [];
      return true;
    }

    /**
     * addMessage: append, then flush at once if the message is urgent or the
     * queue just reached bufferSize; otherwise arm the timer. The return value
     * is false where the flush threw IOException.
     */
    method AddMessage(m: Message) returns (ok: bool)
      requires Valid() && Encodable(m)
      modifies this
      ensures Valid()
      ensures active == old(active) && outputBroken == old(outputBroken)
      ensures Stream() == old(Stream()) + ToStream(qc, m)
      ensures ok == !(old(FlushesOn(m)) && outputBroken)
      ensures old(FlushesOn(m)) && ok ==> queue == [] && !timer && output == old(output) + EncodeAll(qc, old(queue) + [m])
      ensures old(FlushesOn(m)) && !ok ==> queue == old(queue) + [m] && !timer && output == old(output)
      ensures !old(FlushesOn(m)) ==> queue == old(queue) + [m] && timer && output == old(output)
      ensures 1 <= bufferSize && |old(queue)| < bufferSize && ok ==> |queue| < bufferSize
    {
      var flushes := FlushesOn(m);
      EnqueueOne(qc, output, queue, m);
      queue := queue + [m];
      if flushes {
        ok := Flush();
      } else {
        timer := true;
        ok := true;
      }
    }

    /** stop: the flush loop ends; the queue is not drained. */
    method Stop()
      modifies this
      ensures !active
      ensures queue == old(queue) && timer == old(timer) && output == old(output) && outputBroken == old(outputBroken)
    {
      active := false;
    }

    /**
     * One pass of the run loop: when the loop is active and the timer is armed,
     * the timeout elapses and the buffer is flushed; an I/O failure of that
     * flush ends the loop. Otherwise the loop is waiting or finished, and
     * nothing changes.
     */
    method TimerFires() returns (flushed: bool)
      requires Valid()
      modifies this
      ensures Valid()
      ensures outputBroken == old(outputBroken)
      ensures !(old(active) && old(timer)) ==> !flushed && timer == old(timer) && active == old(active) && queue == old(queue) && output == old(output)
      ensures old(active) && old(timer) ==> !timer && flushed == !outputBroken && active == flushed
      ensures old(active) && old(timer) && flushed ==> output == old(output) + EncodeAll(qc, old(queue)) && queue == []
      ensures old(active) && old(timer) && !flushed ==> output == old(output) && queue == old(queue)
      ensures Stream() == old(Stream())
    {
      flushed := false;
      if active && timer {
        flushed := Flush();
        if !flushed {
          active := false;
        }
      }
    }
  }
}
