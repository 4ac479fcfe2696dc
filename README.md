# message-service in Dafny

A model of the core of message-service, a small message broker written in
Java. Clients connect to a server over TCP, register an address, subscribe to
message types with a byte pattern, and send letters to one another. Every
message travels as a frame: the destination and source addresses (three bytes
each), a type byte whose top bit is the urgency flag, a 16-bit length and the
body.

The model covers:

- the frame codec (`Message.java`, `RegisterMessage.java`): the type byte,
  the length field, the body writers and readers chosen by the message class,
  `equals` under dynamic dispatch, and the round trips of `toStream` and
  `fromStream` (modules `Addresses`, `Messages`, `RegisterMessages`, `Codec`);
- the outbound batching buffer (`TimeoutBuffer.java`) as a class whose
  methods update its queue, timer and output; its invariant is that the bytes
  eventually written (`Stream()`) grow by exactly one frame per accepted
  message and no flush loses or reorders them (`TimeoutBuffers`, with the
  generic sequence lemmas in `Seqs`);
- the server (`SocketMessageServer.java`): the pattern match, the query fan-out
  and the type switch of one receive step, the dispatcher's retry loop, and
  the configuration checks (`Routing`);
- the client (`ClientMsgService.java`): the numeric settings, the IP check
  with Java's `String.split` and `Integer.parseInt`, the node-ID counter,
  `send`, `register` and `query(type, count)` (`Clients`).

Environment inputs are parameters: the text of a configuration key reaches the
model as a `Setting` (absent, a number, or text `Integer.parseInt` rejects);
a connection's pending input is a byte sequence; whether a buffer's output
stream throws is a flag (`outputBroken`), and on the server `broken` is the set
of handlers whose `addMessage` throws on the message at hand, which Java does
only when that add flushes, after queueing the message; what a dispatcher sees after each
wait is a sequence of snapshots; the iteration order of a subscriber set is a
sequence that enumerates it.

The Javadoc of `TimeoutBuffer.stop()` says it stops and shuts down the buffer;
the model follows the code instead: `stop()` only ends the flush loop, and
`addMessage` does not look at `active`, so a stopped buffer still accepts
messages and still flushes urgent ones.

## Model

| member | source | states |
|---|---|---|
| Addresses.NewAddress | src/client/hr/fer/zemris/java/nescume/messages/client/ClientMsgService.java:71 | An address exists exactly when the client ID fits 16 bits and the node ID 8 bits, and it carries those two values. |
| Addresses.Gid | src/common/hr/fer/zemris/java/nescume/messages/Message.java:244-245 | Every address is written as exactly addressLength (3) bytes. |
| Addresses.GidRoundTrip | tests/common/hr/fer/zemris/java/nescume/messages/common/tests/AddressTest.java:42-43 | parseGID(getGID(a)) gives back a, for every address. |
| Addresses.ParseGid | src/common/hr/fer/zemris/java/nescume/messages/Message.java:331-337 | The three bytes read for an address yield its client ID from the first two, high byte first, and its node ID from the third. |
| Addresses.GidOnto | src/common/hr/fer/zemris/java/nescume/messages/Message.java:331-337 | Every 3 bytes read for an address are the GID of the address parsed from them. |
| Addresses.GidInjective | src/common/hr/fer/zemris/java/nescume/messages/Message.java:244-245 | Two addresses with the same GID are the same address. |
| Messages.ToByte | src/common/hr/fer/zemris/java/nescume/messages/Message.java:64-66 | Every message type has a code in 1..3. |
| Messages.FromByte | src/common/hr/fer/zemris/java/nescume/messages/Message.java:73-79 | A type code is accepted exactly when it is 1, 2 or 3, and the type found encodes back to that code. |
| Messages.TypeCodeRoundTrip | src/common/hr/fer/zemris/java/nescume/messages/Message.java:55-66 | fromByte(t.toByte()) is t for every message type. |
| Messages.TypeByte | src/common/hr/fer/zemris/java/nescume/messages/Message.java:248 | Bit 7 of the written type byte is set exactly when the message is urgent, and the low 7 bits are the type code. |
| Messages.UrgentOf | src/common/hr/fer/zemris/java/nescume/messages/Message.java:342 | A type byte marks urgency exactly when its bit 7 is set. |
| Messages.CodeOf | src/common/hr/fer/zemris/java/nescume/messages/Message.java:345 | Masking with 127 leaves a code below 128, and the byte is that code plus 128 exactly when it marks urgency. |
| Messages.TypeByteUnpacks | src/common/hr/fer/zemris/java/nescume/messages/Message.java:339-347 | The type byte written at line 248 yields back the urgency from bit 7 and the type from the low 7 bits. |
| Messages.ShortBytes | src/common/hr/fer/zemris/java/nescume/messages/Message.java:264 | writeShort always writes two bytes. |
| Messages.SignedShort | src/common/hr/fer/zemris/java/nescume/messages/Message.java:349 | readShort yields a value in -32768..32767. |
| Messages.UnsignedShort | src/common/hr/fer/zemris/java/nescume/messages/Message.java:349 | The unsigned reading of two bytes is in 0..65535. |
| Messages.ShortUnsignedRoundTrip | src/common/hr/fer/zemris/java/nescume/messages/Message.java:264 | Reading back what writeShort(v) wrote as unsigned gives v mod 65536: writeShort keeps only the low 16 bits. |
| Messages.ShortSignedRoundTrip | src/common/hr/fer/zemris/java/nescume/messages/Message.java:349 | readShort of what writeShort(v) wrote gives v mod 65536 below 32768 and that value minus 65536 from 32768 up. |
| Messages.BaseEquals | src/common/hr/fer/zemris/java/nescume/messages/Message.java:282-291 | Two messages are equal under Message.equals only when they differ at most in class and urgency. |
| Messages.BaseEqualsIgnoresUrgent | src/common/hr/fer/zemris/java/nescume/messages/Message.java:282-291 | Message.equals does not depend on the urgency flag of either side. |
| Messages.DataToStream | src/common/hr/fer/zemris/java/nescume/messages/Message.java:263-266 | The generic body is two length bytes followed by the payload itself. |
| Messages.DataFromStream | src/common/hr/fer/zemris/java/nescume/messages/Message.java:276-279 | Reading len bytes succeeds exactly when 0 <= len <= available bytes and splits the input there; a negative len fails with NegativeArraySizeException, a short input with EOFException. |
| RegisterMessages.RegisterMessageFor | src/common/hr/fer/zemris/java/nescume/messages/RegisterMessage.java:16-21 | new RegisterMessage(a) is an urgent REGISTER of the RegisterMessage class from a to the server address, without payload. |
| RegisterMessages.RegisterDataToStream | src/common/hr/fer/zemris/java/nescume/messages/RegisterMessage.java:41-43 | A RegisterMessage body is the two bytes of a zero length. |
| RegisterMessages.RegisterDataFromStream | src/common/hr/fer/zemris/java/nescume/messages/RegisterMessage.java:36-38 | Reading a RegisterMessage body consumes nothing, whatever length was declared. |
| RegisterMessages.RegisterEquals | src/common/hr/fer/zemris/java/nescume/messages/RegisterMessage.java:46-55 | A RegisterMessage equals only a RegisterMessage, and only one with the same destination, source and type. |
| RegisterMessages.Equals | src/common/hr/fer/zemris/java/nescume/messages/RegisterMessage.java:46-55 | Equality under dynamic dispatch, from either class, implies the same destination, source and type. |
| RegisterMessages.RegisterEqualsByHeader | src/common/hr/fer/zemris/java/nescume/messages/RegisterMessage.java:46-55 | A RegisterMessage equals exactly the RegisterMessages with the same destination, source and type. |
| RegisterMessages.EqualsAsymmetric | src/common/hr/fer/zemris/java/nescume/messages/RegisterMessage.java:46-55 | A plain Message with the fields of a RegisterMessage equals it, but the RegisterMessage does not equal the plain Message. |
| RegisterMessages.EqualsIgnoresUrgent | src/common/hr/fer/zemris/java/nescume/messages/RegisterMessage.java:46-55 | Equality under dynamic dispatch ignores the urgency flag on either side. |
| Codec.ToStream | src/common/hr/fer/zemris/java/nescume/messages/Message.java:241-251 | Every frame is at least the 9 header bytes long, and its seventh byte is the type code with bit 7 set when urgent. |
| Codec.BodyToStream | src/common/hr/fer/zemris/java/nescume/messages/Message.java:263-266 | Every body starts with a 2-byte length; the RegisterMessage body is that length alone, zero; a plain message's payload follows the length verbatim. |
| Codec.ToByteArray | src/common/hr/fer/zemris/java/nescume/messages/Message.java:209-219 | toByteArray returns exactly when the payload is non-null, and then returns the bytes toStream writes. |
| Codec.PlainFrameLayout | src/common/hr/fer/zemris/java/nescume/messages/Message.java:241-251 | A generic frame has 2*addressLength+3+|data| bytes: destination GID, source GID, type byte, length, payload. |
| Codec.RegisterFrameLayout | src/common/hr/fer/zemris/java/nescume/messages/RegisterMessage.java:16-21 | new RegisterMessage(a) is written to the server address (0,0) as urgent REGISTER (type byte 129) with a zero length. |
| Codec.ReadHeader | src/common/hr/fer/zemris/java/nescume/messages/Message.java:331-347 | Fewer than 7 bytes is end of stream; an unknown type code is rejected; a header read carries the type and urgency packed in byte 6. |
| Codec.ReadBody | src/common/hr/fer/zemris/java/nescume/messages/Message.java:353-370 | A decoded message gets the class its type selects, the header fields, and consumes a prefix of the remaining input. |
| Codec.FromStream | src/common/hr/fer/zemris/java/nescume/messages/Message.java:328-373 | A decoded message has the class its type selects and leaves a suffix of the input after at least the 9 header bytes. |
| Codec.FromStreamUnsigned | src/common/hr/fer/zemris/java/nescume/messages/Message.java:349 | The same as FromStream for the corrected reader, which reads the length unsigned. |
| Codec.Decode | src/server/hr/fer/zemris/java/nescume/messages/server/SocketMessageServer.java:88 | Under either length reader, a decoded message has the class its type selects and leaves a suffix of the input after at least the 9 header bytes. |
| Codec.FromByteArray | src/common/hr/fer/zemris/java/nescume/messages/Message.java:312-318 | fromByteArray returns null exactly when fromStream reaches the end of the input, otherwise fromStream's message; every other failure propagates unchanged. |
| Codec.HeaderRoundTrip | src/common/hr/fer/zemris/java/nescume/messages/Message.java:241-249 | Reading the header of any written frame (followed by anything) gives back its destination, source, type and urgency. |
| Codec.DeclaredLength | src/common/hr/fer/zemris/java/nescume/messages/Message.java:264 | The length field of a written frame reads back as |body| mod 65536 unsigned, and signed as that value or that value minus 65536. |
| Codec.LetterRoundTrip | src/common/hr/fer/zemris/java/nescume/messages/Message.java:328-373 | A LETTER whose body has at most 32767 bytes decodes back to exactly itself and leaves the following bytes untouched. |
| Codec.LetterFromByteArray | src/common/hr/fer/zemris/java/nescume/messages/Message.java:312-318 | For a LETTER whose body has at most 32767 bytes, fromByteArray(m.toByteArray()) returns a message equal to m, urgency included. |
| Codec.LongLetterRejected | src/common/hr/fer/zemris/java/nescume/messages/Message.java:349 | As written, a LETTER body of 32768..65535 bytes reads back with a negative length and decoding throws NegativeArraySizeException. |
| Codec.LetterRoundTripUnsigned | src/common/hr/fer/zemris/java/nescume/messages/Message.java:349 | With the length read unsigned, every LETTER body up to 65535 bytes decodes back to exactly the letter. |
| Codec.OversizeLetterTruncated | src/common/hr/fer/zemris/java/nescume/messages/Message.java:264 | A body of 65536 bytes or more whose length wraps to 0..32767 is read back as that shorter length, so it decodes as a shorter letter and its tail is read as following input. |
| Codec.OversizeLetterRejected | src/common/hr/fer/zemris/java/nescume/messages/Message.java:264 | A body of 65536 bytes or more whose length wraps to 32768..65535 is read back with a negative length, so decoding throws NegativeArraySizeException. |
| Codec.LongLetterReaders | src/common/hr/fer/zemris/java/nescume/messages/Message.java:349 | For a LETTER body of 32768..65535 bytes, the signed reader of the code fails with NegativeArraySizeException and the unsigned reader gives the letter back. |
| Codec.RegisterRoundTrip | src/common/hr/fer/zemris/java/nescume/messages/RegisterMessage.java:36-43 | A written RegisterMessage decodes back to the same registration with no payload, consuming exactly its frame. |
| Codec.RegisterIgnoresBodyLength | src/common/hr/fer/zemris/java/nescume/messages/RegisterMessage.java:36-38 | A REGISTER frame is decoded from its 9 header bytes whatever length it declares; the declared body stays in the stream. |
| Codec.QueryRoundTrip | src/common/hr/fer/zemris/java/nescume/messages/Message.java:353-356 | Given a QUERY body reader that inverts its writer and a body of at most 32767 bytes, a written QueryMessage decodes back to itself with a null payload. |
| Codec.QueryBodyReads | src/common/hr/fer/zemris/java/nescume/messages/Message.java:353-356 | A QUERY body whose declared length covers a decodable descriptor yields a QueryMessage with the header fields and leaves the following bytes. |
| Codec.UnknownTypeRejected | src/common/hr/fer/zemris/java/nescume/messages/Message.java:73-79 | A type code other than 1, 2 or 3 is rejected by fromStream and propagates out of fromByteArray. |
| Codec.LetterReadsExactly | src/common/hr/fer/zemris/java/nescume/messages/Message.java:276-279 | A decoded LETTER consumes exactly the header, its payload and nothing more. |
| Codec.TruncatedLetterIsNull | src/common/hr/fer/zemris/java/nescume/messages/Message.java:312-318 | For a LETTER whose body has at most 32767 bytes, fromByteArray of every strict prefix of its frame returns null. |
| Codec.ToByteArrayCorrected | src/common/hr/fer/zemris/java/nescume/messages/Message.java:209-219 | The corrected toByteArray agrees with toByteArray wherever the latter returns, and always gives a frame of at least 9 bytes carrying the type byte. |
| Codec.RegisterByteArray | src/common/hr/fer/zemris/java/nescume/messages/Message.java:210 | As written, toByteArray throws for a RegisterMessage; the corrected one returns a frame that fromByteArray reads back as that registration. |
| TimeoutBuffers.EncodeAllAppend | src/common/hr/fer/zemris/java/nescume/messages/TimeoutBuffer.java:137-139 | Writing two batches in turn writes the concatenation of their frames. |
| TimeoutBuffers.EncodeQueue | src/common/hr/fer/zemris/java/nescume/messages/TimeoutBuffer.java:137-139 | The write loop produces the frames of every queued message, oldest first. |
| TimeoutBuffers.TimeoutBuffer.constructor | src/common/hr/fer/zemris/java/nescume/messages/TimeoutBuffer.java:53-60 | A new buffer is active, its timer is off, its queue empty, and nothing has been written. |
| TimeoutBuffers.TimeoutBuffer.WithPacketSize | src/common/hr/fer/zemris/java/nescume/messages/TimeoutBuffer.java:70-77 | As the three-argument constructor, with the given packet size. |
| TimeoutBuffers.TimeoutBuffer.Flush | src/common/hr/fer/zemris/java/nescume/messages/TimeoutBuffer.java:134-144 | Flush disarms the timer; on success it appends the queued frames to the output and empties the queue; on an I/O failure nothing reaches the output and the queue stays. No accepted byte is lost either way. |
| TimeoutBuffers.TimeoutBuffer.AddMessage | src/common/hr/fer/zemris/java/nescume/messages/TimeoutBuffer.java:84-93 | Every added message extends the eventual stream by exactly its frame; it flushes exactly when it is urgent or fills the queue to bufferSize, otherwise arms the timer; it fails only when that flush fails; a successful add keeps the queue below bufferSize. |
| TimeoutBuffers.TimeoutBuffer.Stop | src/common/hr/fer/zemris/java/nescume/messages/TimeoutBuffer.java:122-126 | stop ends the flush loop and changes nothing else; the queue is not drained. |
| TimeoutBuffers.TimeoutBuffer.TimerFires | src/common/hr/fer/zemris/java/nescume/messages/TimeoutBuffer.java:95-117 | When the loop is active and the timer armed, the queue is flushed and an I/O failure ends the loop; otherwise nothing changes. |
| Routing.IndexFrom | src/server/hr/fer/zemris/java/nescume/messages/server/SocketMessageServer.java:313 | The result is -1 when no occurrence starts at or after i, otherwise the least such index. |
| Routing.IndexOfSubList | src/server/hr/fer/zemris/java/nescume/messages/server/SocketMessageServer.java:313 | Collections.indexOfSubList returns -1 exactly when the pattern occurs nowhere, otherwise the first index where it occurs. |
| Routing.PatternMatch | src/server/hr/fer/zemris/java/nescume/messages/server/SocketMessageServer.java:300-314 | An empty pattern throws ArrayIndexOutOfBounds; a pattern starting with '0' matches anything; otherwise null data throws NullPointerException and other data matches exactly when the pattern occurs in it. |
| Routing.PatternMatchesItself | src/server/hr/fer/zemris/java/nescume/messages/server/SocketMessageServer.java:300-314 | A non-empty payload matches itself as a pattern. |
| Routing.PatternMatchesInside | src/server/hr/fer/zemris/java/nescume/messages/server/SocketMessageServer.java:313 | A non-empty pattern matches any payload that contains it. |
| Routing.MatchesQueryType | src/server/hr/fer/zemris/java/nescume/messages/server/SocketMessageServer.java:283-292 | A handler with no pattern for the type is not notified; it is notified exactly when its pattern is a wildcard or occurs in the payload; it fails exactly on an empty pattern or a non-wildcard pattern against null data. |
| Routing.Subscribe | src/server/hr/fer/zemris/java/nescume/messages/server/SocketMessageServer.java:116-120 | After subscribing h to t, the subscribers of every type are the old ones plus h for t. |
| Routing.SubscribeIdempotent | src/server/hr/fer/zemris/java/nescume/messages/server/SocketMessageServer.java:116-120 | Subscribing the same handler to the same type twice is the same as once. |
| Routing.MatchingMembers | src/server/hr/fer/zemris/java/nescume/messages/server/SocketMessageServer.java:90-98 | A handler is handed the message by the fan-out exactly when it is in the iteration order and its pattern accepts the message, whether or not its addMessage then throws. |
| Routing.MatchingDistinct | src/server/hr/fer/zemris/java/nescume/messages/server/SocketMessageServer.java:90-98 | No handler is handed the message twice by one fan-out. |
| Routing.FanOut | src/server/hr/fer/zemris/java/nescume/messages/server/SocketMessageServer.java:90-98 | Without a fault, the handlers handed the message are exactly the matching ones in iteration order; a fault stops the loop at the first failing subscriber, after handing the message to the matching ones before it and, when its addMessage threw, to that subscriber too. |
| Routing.FanOutComplete | src/server/hr/fer/zemris/java/nescume/messages/server/SocketMessageServer.java:90-98 | A fan-out that runs to the end hands the message to exactly the subscribers of the message type whose pattern accepts it. |
| Routing.NoticeMeaning | src/server/hr/fer/zemris/java/nescume/messages/server/SocketMessageServer.java:92-93 | A subscriber is handed the message exactly when its pattern matches; the loop goes on past it exactly when its addMessage does not throw; a SendFailed stop comes after the message was queued, and a pattern fault stops the loop before anything is handed over. |
| Routing.DispatchSpecUnique | src/server/hr/fer/zemris/java/nescume/messages/server/SocketMessageServer.java:188-219 | The dispatcher's outcome is determined by what it observes, with at most one outcome per run. |
| Routing.RunDispatcher | src/server/hr/fer/zemris/java/nescume/messages/server/SocketMessageServer.java:188-219 | The dispatcher loop waits while the destination is unknown, spending one retry per wait, gives up when its handler stops or the retries run out, and otherwise delivers to the destination's handler. |
| Routing.NeverRegisteredAbandoned | src/server/hr/fer/zemris/java/nescume/messages/server/SocketMessageServer.java:189-203 | A destination that never registers while the handler stays up uses every retry and the message is lost. |
| Routing.RegisteredDeliveredAtOnce | src/server/hr/fer/zemris/java/nescume/messages/server/SocketMessageServer.java:189-215 | A destination already registered receives the message without any wait. |
| Routing.LastWaitRegistrationIgnored | src/server/hr/fer/zemris/java/nescume/messages/server/SocketMessageServer.java:200-203 | A destination that registers during the last wait is not looked up again: the message is lost. |
| Routing.Router.constructor | src/server/hr/fer/zemris/java/nescume/messages/server/SocketMessageServer.java:45 | A new server has empty directory, subscription and pattern tables. |
| Routing.Router.Apply | src/server/hr/fer/zemris/java/nescume/messages/server/SocketMessageServer.java:100-141 | REGISTER maps the source to this handler, QUERY subscribes it to the queried type and records its pattern, and every other type starts a dispatcher; nothing else changes. |
| Routing.Router.Route | src/server/hr/fer/zemris/java/nescume/messages/server/SocketMessageServer.java:90-141 | The fan-out comes first and records every message it handed over, the failing subscriber's included; without a fault, the type switch follows; a fault leaves the tables unchanged. |
| Routing.Router.Receive | src/server/hr/fer/zemris/java/nescume/messages/server/SocketMessageServer.java:84-155 | An undecodable frame stops the receiver, changes nothing and leaves the input as it was. Otherwise the input after the frame remains; the fan-out over the subscriber order records exactly the matching deliveries, or, when a subscriber throws and stops the receiver, those up to and including that subscriber if it was handed the message; without a fault, REGISTER maps the source to this handler, QUERY subscribes it and records its pattern, and LETTER queues a dispatcher; everything else is unchanged. |
| Routing.Router.Dispatch | src/server/hr/fer/zemris/java/nescume/messages/server/SocketMessageServer.java:178-219 | A pending letter is run by the dispatcher and removed from the pending list; a Delivered outcome queues the letter in the destination's buffer even when that addMessage throws, since the exception comes after the message is queued; the tables do not change. |
| Routing.ListenPort | src/server/hr/fer/zemris/java/nescume/messages/server/SocketMessageServer.java:402-406 | listen.port is accepted exactly when absent (port 0) or within 0..65535. |
| Routing.ParsePositive | src/server/hr/fer/zemris/java/nescume/messages/server/SocketMessageServer.java:425-437 | A setting is accepted exactly when its value, or the default when absent, is positive; a non-number is reported as not an integer, a non-positive number as out of range. |
| Routing.NewServerConfig | src/server/hr/fer/zemris/java/nescume/messages/server/SocketMessageServer.java:402-413 | The configuration is accepted exactly when every key passes its check, and then holds exactly the values those checks returned, each in range; otherwise the first key, in source order, whose check fails gives the error. |
| Routing.DefaultServerConfig | src/server/hr/fer/zemris/java/nescume/messages/server/SocketMessageServer.java:408-413 | With no keys set, the server uses port 0 and the defaults 512, 1000, 3, 2000, 1000, 3. |
| Routing.NegativePacketSizeRejected | tests/server/hr/fer/zemris/java/nescume/messages/server/tests/ServerTests.java:72-80 | packet.size = -1 is rejected with IllegalArgumentException whatever the later settings are. |
| Clients.NumericProperty | src/client/hr/fer/zemris/java/nescume/messages/client/ClientMsgService.java:274-290 | A value is accepted exactly when it is a number within bottom..top; a missing or non-numeric value is reported as not a number, one outside the bounds as out of range. |
| Clients.NumericPropertyAtLeast | src/client/hr/fer/zemris/java/nescume/messages/client/ClientMsgService.java:305-321 | A value is accepted exactly when it is a number at least bottom, with the same two errors. |
| Clients.AtLeastIsUnbounded | src/client/hr/fer/zemris/java/nescume/messages/client/ClientMsgService.java:305-321 | The one-bound check is the two-bound check with any top that no value exceeds. |
| Clients.SplitFields | src/client/hr/fer/zemris/java/nescume/messages/client/ClientMsgService.java:397 | Splitting at every dot gives at least one field. |
| Clients.SplitFieldsJoin | src/client/hr/fer/zemris/java/nescume/messages/client/ClientMsgService.java:397 | Joining the split fields with dots gives the input back, and no field contains a dot. |
| Clients.SplitFieldsNoDot | src/client/hr/fer/zemris/java/nescume/messages/client/ClientMsgService.java:397 | A string without a dot splits into itself alone. |
| Clients.DropTrailingEmpty | src/client/hr/fer/zemris/java/nescume/messages/client/ClientMsgService.java:397 | Removing trailing empty fields keeps a prefix that ends in a non-empty field and drops only empty fields. |
| Clients.JavaSplitDot | src/client/hr/fer/zemris/java/nescume/messages/client/ClientMsgService.java:397 | No field of the split contains a dot; for input with a dot, the fields are the dot-separated fields with every trailing empty one dropped, so the last field left, if any, is non-empty. |
| Clients.ParseInt | src/client/hr/fer/zemris/java/nescume/messages/client/ClientMsgService.java:405 | Integer.parseInt succeeds only on non-empty input and only with a value in the 32-bit range; a lone sign, or any character other than a digit after the optional leading sign, gives NumberFormatException. |
| Clients.DigitsOfDecimal | src/client/hr/fer/zemris/java/nescume/messages/client/ClientMsgService.java:405 | The decimal digits of n denote n. |
| Clients.ParseSignedDecimal | src/client/hr/fer/zemris/java/nescume/messages/client/ClientMsgService.java:405 | Integer.parseInt reads "+n" as n up to 2^31-1 and "-n" as -n down to -2^31. |
| Clients.ParseDecimal | src/client/hr/fer/zemris/java/nescume/messages/client/ClientMsgService.java:405 | Integer.parseInt reads back every decimal numeral up to 2^31-1. |
| Clients.IsValidIP | src/client/hr/fer/zemris/java/nescume/messages/client/ClientMsgService.java:396-414 | The loop returns true exactly when the split has four fields and each parses as a number in 0..255. |
| Clients.AcceptedIP | src/client/hr/fer/zemris/java/nescume/messages/client/ClientMsgService.java:396-414 | An accepted server address contains a dot. |
| Clients.DottedQuadFields | src/client/hr/fer/zemris/java/nescume/messages/client/ClientMsgService.java:397-401 | A dotted quad of numbers splits into exactly its four numerals. |
| Clients.DottedQuadAccepted | src/client/hr/fer/zemris/java/nescume/messages/client/ClientMsgService.java:396-414 | Every dotted quad of values 0..255 is accepted. |
| Clients.DottedQuadOutOfRange | src/client/hr/fer/zemris/java/nescume/messages/client/ClientMsgService.java:406-407 | A dotted quad whose first value is from 256 up to 2^31-1 is rejected. |
| Clients.TrailingDotsAccepted | src/client/hr/fer/zemris/java/nescume/messages/client/ClientMsgService.java:397-401 | Because split drops trailing empty fields, a valid dotted quad followed by any number of dots is still accepted. |
| Clients.TrailingDotsFields | src/client/hr/fer/zemris/java/nescume/messages/client/ClientMsgService.java:397 | A dotted quad followed by any number of dots splits into exactly its four numerals. |
| Clients.SplitTrailingDots | src/client/hr/fer/zemris/java/nescume/messages/client/ClientMsgService.java:397 | A field followed by n dots splits into the field and n empty fields. |
| Clients.DropEmptyTail | src/client/hr/fer/zemris/java/nescume/messages/client/ClientMsgService.java:397 | Dropping trailing empties removes exactly the appended empty fields. |
| Clients.NewClientParameters | src/client/hr/fer/zemris/java/nescume/messages/client/ClientMsgService.java:237-257 | The parameters are accepted exactly when every numeric key passes its check and server.address is present and valid, and then hold exactly the checked values and that address; otherwise the first numeric key whose check fails gives the error, and after them a missing server.address is MissingParameter and an invalid one InvalidServerAddress. |
| Clients.ServerAddressDecides | src/client/hr/fer/zemris/java/nescume/messages/client/ClientMsgService.java:247-255 | With valid numbers, a missing server.address is reported as missing parameters, an invalid one as an invalid IP, and a valid one is accepted. |
| Clients.NodeIdCounter.constructor | src/client/hr/fer/zemris/java/nescume/messages/client/ClientMsgService.java:28 | The node-ID counter starts at 1 and has issued nothing. |
| Clients.NodeIdCounter.Take | src/client/hr/fer/zemris/java/nescume/messages/client/ClientMsgService.java:69 | Taking a node ID returns the current value, advances the counter by one and never returns an ID issued before. |
| Clients.ClientMsgService.constructor | src/client/hr/fer/zemris/java/nescume/messages/client/ClientMsgService.java:72 | A new client is not registered. |
| Clients.ClientMsgService.Send | src/client/hr/fer/zemris/java/nescume/messages/client/ClientMsgService.java:184-192 | The message is stamped with this client's address and its frame extends the buffer's eventual stream; without a flush it is queued and the timer armed; a successful flush writes the queue and empties it; it fails, as MessageNotSent, exactly when the flush it triggers fails, and then the message stays queued, the output is unchanged and the timer is off. |
| Clients.ClientMsgService.Register | src/client/hr/fer/zemris/java/nescume/messages/client/ClientMsgService.java:168-182 | An unregistered client sends one RegisterMessage for its address, which always flushes, and becomes registered exactly when that send succeeds; on failure (UnableToRegister) the RegisterMessage stays queued and nothing is written; a registered client sends nothing and returns its address. |
| Clients.ClientMsgService.QueryCount | src/client/hr/fer/zemris/java/nescume/messages/client/ClientMsgService.java:161-166 | On success the query's frame extends the buffer's eventual stream count times (none for count <= 0); a failed send stops the loop with MessageNotSent after k copies, 1 <= k <= count, the failed copy last in the queue and the timer off. |
| Clients.NewClientMsgService | src/client/hr/fer/zemris/java/nescume/messages/client/ClientMsgService.java:64-73 | Invalid parameters throw before a node ID is taken; valid ones take exactly one node ID, and the client exists exactly when that ID forms a valid address, unregistered, with that address. |

## Left out

- Address.java is not part of this model: the address layout is taken as a big-endian 16-bit client ID followed by an 8-bit node ID.
- QueryMessage.java is not part of this model: the QUERY body writer and reader are a parameter (`QueryCodec`), assumed to use a length field like the generic body; `Codec.QueryRoundTrip` assumes the reader inverts the writer (`Sound`). A decoded QueryMessage is taken to have no payload, and `query(type)` builds its message outside the model (`QueryCount` receives it).
- Sockets, threads, `wait`/`notifyAll`, `Thread.sleep`, the busy-wait on `available()` and logging are left out; each thread's step is a method, and timing is reduced to which snapshot a dispatcher sees.
- `query(type)` and `query(type, data)` are not modelled; `start()` and `stop()` of the client are left out, and the client's buffer is a parameter of `NewClientMsgService`.
- The default constructor `RegisterMessage()` is left out: its null addresses cannot be represented, and a message's source is always set (the null source before `send` is not modelled).
- Messages are values: aliasing of one mutable message object between a sender and the buffer, and `send` overwriting the source of a message already queued, are not modelled.
- A plain message with a null payload cannot be queued (`Send` requires `Encodable`), so the NullPointerException it would raise inside `flush` is not modelled.
- `BufferedOutputStream` partial writes are not modelled: a flush writes all queued frames or, on an I/O failure, none; packet sizing is kept only as a field.
- `stop()` arriving during the timer's sleep is not modelled separately; `TimerFires` checks `active` once.
- The Dispatcher's second `if(!active)` check after the wait is merged with the first one; the handler's `active` flag is read from each snapshot, and snapshots are not written back to the directory.
- Routing.Router.Dispatch requires `dispatcherRetries >= 1`, which `parsePositive` guarantees for every server.
- `listen.address` (a DNS lookup) is not modelled.
- Routing.ListenPort: a non-numeric `listen.port` throws `NumberFormatException` itself rather than a message from `parsePositive`; the model reports it as `NotAnInteger("listen.port")`.
- Clients.ParseInt accepts ASCII digits only; Java also accepts other Unicode digits.
- Hash codes and `toString` are left out.
- Clients.ClientMsgService.QueryCount: the loop counter of ClientMsgService.java:163 is a 32-bit `int`; with `count` equal to Integer.MAX_VALUE, `i++` wraps to -2^31, which is still at most `count`, so Java sends forever while the sends succeed. The model stops after `count` sends.
- RegisterMessages.RegisterEquals: the first test of RegisterMessage.java:53 compares the addresses and the type with `==`, by reference; on values the model compares them structurally, so two distinct but equal Address objects compare equal here.
- Routing.Router.Receive: the length reader is a parameter; `SignedLength` is the code as written (`Message.fromStream` at SocketMessageServer.java:88, which reads the length with `readShort`), `UnsignedLength` the corrected reader of the first finding below.

## Findings

| source | as written | input that shows it | evidently intended | confidence | as-written member | corrected member |
|---|---|---|---|---|---|---|
| src/common/hr/fer/zemris/java/nescume/messages/Message.java:349 | the body length is read with `readShort`, which is signed | a LETTER with a 32768-byte body: the length reads back as -32768 and `new byte[-32768]` throws NegativeArraySizeException | bodies up to 65535 bytes, the range `writeShort` can express, decode back | not executed | Codec.LongLetterRejected | Codec.LetterRoundTripUnsigned |
| src/common/hr/fer/zemris/java/nescume/messages/Message.java:210 | `toByteArray` sizes its stream with `data.length` | `new RegisterMessage(a).toByteArray()`: `data` is null, so NullPointerException, although `toStream` writes the frame | `toByteArray` returns the frame `toStream` writes | not executed | Codec.RegisterByteArray | Codec.ToByteArrayCorrected |

The server's receive step (`Routing.Router.Receive`) takes the length reader
as a parameter (`Codec.Decode`): `SignedLength` is the code as written, and
`UnsignedLength` the corrected reader; `Codec.LongLetterReaders` sets the two
side by side. `Codec.FromStream` and `Codec.FromByteArray` keep the code as
written.
