# dicedb-js protocol core in Dafny

A model of the sequential core of the dicedb-js client, the TypeScript
client of the DiceDB key-value server, with proofs about it. The client
sends protobuf-serialized commands over TCP and reads protobuf responses
back. The model covers four parts:

- **Framing** (`src/io/io.ts`, `src/internals/tcp_wire.ts`). A message
  is its length as a 4-byte big-endian unsigned integer followed by the
  payload. The tcp wire frames behind an open/closed status gate.
- **Error mapping** (`src/internals/protobuf_wire.ts`, `src/wire/error.ts`,
  legacy `io/io.ts`). Codec failures become `CorruptMessage` wire errors,
  transport errors pass through, and the legacy reader lifts a response's
  `err` field into an `Error`.
- **Client state** (`src/index.ts` and its legacy copy `index.ts`). This
  is the single pending-response slot `data`, the FIFO watch queue
  `watchCh`, the memoised watch iterator and the two handshakes.
- **Command lines** (`FireString`). The line is trimmed and split on
  single spaces, then validated against the `src/cmd.ts` table.

The protobuf library is an abstract `Codec`: a pair of total functions
that return a response or the error the library throws. A JavaScript
exception is a `Completion` (`Returned(v)` or `Threw(e)`). An untyped
`{ response, error }` pair is a `Reply`, with `ExactlyOne()` saying that
exactly one side is non-null. Socket `data` events are explicit method
calls (`OnCommandData`, `OnWatchData`). The polling wait in `fire` is
given the events of each 100 ms sleep. It handles all of one sleep's
events before it looks at the slot again, and running out of sleeps is
the time-out. Bytes written to a socket are appended to ghost logs
(`commandSent`, `watchSent`, `written`).

Two behaviours of the code are kept as written:

- `createProtobufTcpWire` passes its arguments to `newTcpWire` in the
  opposite order. The tcp wire's `conn` is therefore a number, so `send`
  throws a `TypeError` for every command that serializes
  (`ProtobufWire.SwappedWireSendThrows`).
- The framed `read` does no bounds check on the prefix. It reads at most
  the declared length and at most what the buffer holds
  (`FrameIo.BodyBounded`).

Module layout:

| file | module | models |
|---|---|---|
| outcomes.dfy | `Outcomes` | `Option`, `Result`, `Completion` |
| wire_error.dfy | `WireErrors` | src/wire/error.ts and the JS `Error` |
| messages.dfy | `Messages` | bytes, `Command`, `Response`, `Reply`, `Codec` |
| big_endian.dfy | `BigEndian` | big-endian encoding of unsigned integers |
| frame_io.dfy | `FrameIo` | src/io/io.ts |
| tcp_wire.dfy | `TcpWire` | src/internals/tcp_wire.ts |
| protobuf_wire.dfy | `ProtobufWire` | src/internals/protobuf_wire.ts |
| cmd.dfy | `Cmd` | src/cmd.ts |
| command_line.dfy | `CommandLine` | `String.prototype.trim` and `split(" ")` |
| client_state.dfy | `ClientState` | the slot and queue shared by both clients |
| dice_client.dfy | `DiceClient` | src/index.ts |
| legacy_io.dfy | `LegacyIo` | io/io.ts |
| legacy_client.dfy | `LegacyClient` | index.ts |

## Model

| member | source | states |
|---|---|---|
| WireErrors.Code | src/wire/error.ts:1-6 | each kind's code lies in 1..4 |
| WireErrors.KindOf | src/wire/error.ts:1-6 | a number names a kind exactly when it lies in 1..4 |
| WireErrors.CodesDistinct | src/wire/error.ts:1-6 | the codes are pairwise distinct and each code maps back to its kind |
| WireErrors.NewWireError | src/wire/error.ts:10-25 | the result is a wire error that keeps kind and cause as given; `getCause()` and `unwrap()` return the cause; its message is the cause's message |
| WireErrors.Error.ToString | src/internals/protobuf_wire.ts:30 | an error concatenated to a string shows its name first and its message last, and is empty only when both are |
| WireErrors.MessageIsRootMessage | src/wire/error.ts:13-15 | a chain of wire errors carries the message of the plain error at its bottom |
| WireErrors.WireErrorFieldsKept | src/wire/error.ts:11-14 | two wire errors are equal exactly when built from the same kind and cause |
| BigEndian.DecodeEncode | src/io/io.ts:25-26 | decoding the k-byte big-endian encoding of n < 256^k gives back n |
| BigEndian.EncodeDecode | src/io/io.ts:11 | encoding the value read from a byte string to the same width gives back the bytes |
| FrameIo.EncodeUInt32BE | src/io/io.ts:25-26 | `writeUInt32BE` yields exactly 4 bytes for a length below 2^32 |
| FrameIo.ReadUInt32BE | src/io/io.ts:11 | `readUInt32BE(0)` yields a value below 2^32 |
| FrameIo.Frame | src/io/io.ts:24-27 | the buffer `write` builds is 4 bytes longer than the payload and ends with exactly the payload |
| FrameIo.Body | src/io/io.ts:12 | the body is a prefix of the bytes after the 4-byte length, as long as the length declares or as the buffer holds, whichever is fewer |
| FrameIo.Read | src/io/io.ts:8-18 | exactly one of response and error; a buffer shorter than 4 bytes gives the out-of-bounds RangeError; otherwise a response exactly when the body decodes |
| FrameIo.Write | src/io/io.ts:20-40 | a serializer failure is returned and nothing is written; a payload of 2^32 bytes or more gives the out-of-range RangeError; otherwise the frame is written and the socket's fault, or null, is returned |
| FrameIo.FrameLayout | src/io/io.ts:24-27 | the frame starts with the 4-byte big-endian length, which reads back as the payload's length |
| FrameIo.ReadIgnoresTrailing | src/io/io.ts:11-13 | bytes after the declared length do not change what `read` returns |
| FrameIo.WriteThenRead | src/io/io.ts:8-40 | reading a written frame, followed by anything, hands exactly the serialized payload to the deserializer |
| FrameIo.BodyBounded | src/io/io.ts:11-12 | the body never exceeds the declared length, and matches it exactly when the buffer is long enough (no bounds check) |
| TcpWire.MaxMsgSizeOf | src/internals/tcp_wire.ts:22 | a missing `maxMsgSize` becomes 32·1024·1024; a given one is kept |
| TcpWire.TcpWire.constructor | src/internals/tcp_wire.ts:22-32 | a new wire is open, keeps `conn`, takes `maxMsgSize` or its default, and has written nothing |
| TcpWire.SendResult | src/internals/tcp_wire.ts:34-42 | `send` returns an error value only on a closed wire; every other failure is a thrown RangeError or TypeError |
| TcpWire.SendFrames | src/internals/tcp_wire.ts:38-41 | at most one frame is written, exactly when `send` returns null |
| TcpWire.TcpWire.Send | src/internals/tcp_wire.ts:34-42 | returns the closed-wire error, the prefix RangeError, the `write` failure or null, per `SendResult`; appends exactly the frames of `SendFrames`; status and `maxMsgSize` are unchanged |
| TcpWire.TcpWire.Write | src/internals/tcp_wire.ts:44-51 | on a socket it writes the buffer and returns null, whatever the callback later reports; on anything else it throws the TypeError and writes nothing |
| TcpWire.TcpWire.Receive | src/internals/tcp_wire.ts:54-56 | always throws "Function not implemented." |
| TcpWire.SendOnClosedWire | src/internals/tcp_wire.ts:35-37 | a closed wire returns a `Terminated` wire error and writes nothing |
| TcpWire.SendOnOpenWire | src/internals/tcp_wire.ts:38-41 | an open wire over a socket returns null and writes one frame of 4 bytes more than the data, whose prefix reads back as the data's length and whose rest is the data |
| ProtobufWire.SerializeFailed | src/internals/protobuf_wire.ts:29-31 | a serializer failure becomes a `CorruptMessage` wire error |
| ProtobufWire.DeserializeFailed | src/internals/protobuf_wire.ts:43-45 | a deserializer failure becomes a `CorruptMessage` wire error |
| ProtobufWire.Send | src/internals/protobuf_wire.ts:25-33 | a serializer failure is reported as `CorruptMessage` without calling the tcp wire; otherwise the result is exactly the tcp wire's `send` of the serialized bytes |
| ProtobufWire.Receive | src/internals/protobuf_wire.ts:35-47 | a response comes back only when the tcp wire returned bytes that decode to it, and `receive` throws exactly when the tcp wire throws |
| ProtobufWire.ReceiveCases | src/internals/protobuf_wire.ts:35-47 | a transport exception or error passes through unchanged and the decoder has no influence; a decoder failure becomes `CorruptMessage` with no response; otherwise the decoded response is returned |
| ProtobufWire.ProtobufTcpWire.constructor | src/internals/protobuf_wire.ts:18-23 | the tcp wire is open, with the number as its `conn` and the socket as its `maxMsgSize` (the swapped call) |
| ProtobufWire.ProtobufTcpWire.SendCommand | src/internals/protobuf_wire.ts:25-33 | the result is `Send` over this tcp wire; nothing is written when serialization fails, otherwise exactly the tcp wire's frames |
| ProtobufWire.ProtobufTcpWire.ReceiveResponse | src/internals/protobuf_wire.ts:35-47 | the result is `Receive` over a tcp `receive` that throws |
| ProtobufWire.SwappedWireSendThrows | src/internals/protobuf_wire.ts:20 | on the wire built with swapped arguments, every command that serializes makes `send` throw the TypeError, and nothing is written |
| ProtobufWire.ReceiveAlwaysThrows | src/internals/protobuf_wire.ts:35-39 | `receive` throws "Function not implemented." whatever the bytes and decoder |
| Cmd.KeysAreValues | src/cmd.ts:1-27 | every entry's value equals its key |
| Cmd.TableDistinct | src/cmd.ts:2-26 | 25 names, pairwise distinct, none empty |
| Cmd.TableNames | src/cmd.ts:2-26 | `HANDSHAKE`, `GET`, `GET.WATCH`, `HGETALL.WATCH` and `UNWATCH` are commands; the empty string is not |
| CommandLine.SkipForward | src/index.ts:193 | the index returned is the first at or after the start that is not white space, or the end |
| CommandLine.SkipForwardWhiteSpace | src/index.ts:193 | every character skipped forward is white space |
| CommandLine.SkipBackward | src/index.ts:193 | the index returned follows the last character before the end, and not before the lower bound, that is not white space |
| CommandLine.SkipBackwardWhiteSpace | src/index.ts:193 | every character skipped backward is white space |
| CommandLine.Trim | src/index.ts:193 | the trimmed line neither begins nor ends with white space |
| CommandLine.TrimSurround | src/index.ts:193 | only white space lies before and after the trimmed part of the line |
| CommandLine.TrimUntrimmed | src/index.ts:193 | a string that neither begins nor ends with white space trims to itself |
| CommandLine.TrimIdempotent | src/index.ts:193 | trimming twice is trimming once |
| CommandLine.Split | src/index.ts:194 | at least one token, and no token contains a space |
| CommandLine.JoinSplit | src/index.ts:194 | joining the tokens with single spaces gives back the string |
| CommandLine.SplitJoin | src/index.ts:194 | splitting space-free tokens joined by single spaces gives back the tokens |
| CommandLine.SplitSpaceFree | src/index.ts:194 | a string without a space is its only token |
| CommandLine.SplitPrefixed | src/index.ts:194 | a space-free first token is split off at the first space |
| CommandLine.Tokenize | src/index.ts:193-194 | at least one token, and the tokens joined by single spaces are the trimmed line |
| ClientState.SimpleData | src/index.ts:28-35 | a `read` error leaves slot and queue unchanged; otherwise the slot takes `read`'s response; the queue is never touched |
| ClientState.Pushed | src/index.ts:40-44 | at most one response is queued, exactly when `read` gave a response and no error, and it is that response |
| ClientState.SimpleWatch | src/index.ts:37-45 | the slot always takes `read`'s response, null on error; the queue becomes the old queue followed by `Pushed` |
| ClientState.Next | src/index.ts:51-64 | on a non-empty queue, yields the front and leaves the rest; on an empty queue, yields nothing and leaves it empty |
| ClientState.AwaitPending | src/index.ts:177-183 | a response already in the slot ends the wait at once |
| ClientState.ReadChunk | src/index.ts:110-112 | a `data` event reaches the handler of the connection it came on, with `read` of its bytes |
| ClientState.DeliverAll | src/index.ts:182 | every event of one 100 ms sleep is handled in order, and the watch queue only grows |
| ClientState.Await | src/index.ts:177-182 | the slot is checked only between sleeps, and waiting only appends to the watch queue |
| ClientState.AwaitAnswer | src/index.ts:177-183 | with the slot empty, a sleep whose last event is a decodable command response ends the wait with that response, whatever came before it in the sleep |
| ClientState.ClearedWithinWindow | src/index.ts:177-182 | a command response followed in the same sleep by a failed watch read is overwritten with null before `fire` looks, so the wait goes on |
| ClientState.AwaitTimeout | src/index.ts:177-179 | a wait that ends with an empty slot started empty and handled every event of every sleep, in order |
| ClientState.Fired | src/index.ts:170-186 | `fire` returns exactly one of response and error; a write error is returned with nothing waited for; otherwise the response is the one the wait left in the slot, or the time-out error when it left none; handing out a response empties the slot; the watch queue only grows |
| ClientState.WatchFifo | src/index.ts:37-69 | what `next` has yielded followed by the queue equals the initial queue followed by everything the watch handler queued |
| ClientState.YieldedInArrivalOrder | src/index.ts:37-69 | from an empty queue, `next` yields a prefix of the watch responses in arrival order |
| DiceClient.ParseCommandLine | src/index.ts:193-211 | a line is accepted exactly when its first token is a command; otherwise the "Invalid command" error names that token |
| DiceClient.ParseCommandLineSpec | src/index.ts:192-213 | an accepted command's name and args joined by single spaces are the trimmed line, and no arg contains a space |
| DiceClient.BlankLineRejected | src/index.ts:195-197 | a blank line, the empty one included, is rejected with the empty token |
| DiceClient.ParseJoined | src/index.ts:193-197 | a line of space-free tokens joined by single spaces, with no white space at either end, parses back into those tokens, or is rejected naming its first token |
| DiceClient.RepeatedSpacesKeepEmptyArgs | src/index.ts:193-194 | `"GET  k"` parses as `GET` with args `["", "k"]` |
| DiceClient.IncludesByLoop | src/index.ts:198-207 | the loop finds the name exactly when `includes` does, so its error return is unreachable |
| DiceClient.Client.constructor | src/index.ts:131-144 | a new client has no connections, no iterator, an empty slot and queue, and has sent nothing |
| DiceClient.Client.OnCommandData | src/index.ts:28-35 | the new state is `SimpleData` of the framed `read` |
| DiceClient.Client.OnWatchData | src/index.ts:37-45 | the new state is `SimpleWatch` of the framed `read` |
| DiceClient.Client.Sleep | src/index.ts:182 | the handlers of the events of one sleep run in order: the new state is `DeliverAll` of the old one |
| DiceClient.Client.Wait | src/index.ts:177-182 | while the slot is empty, one sleep's events are handled at a time until the sleeps run out: the new state is `Await` of the old one |
| DiceClient.Client.FireOn | src/index.ts:170-186 | without a connection: "Client not connected", nothing written or changed; otherwise the framed write goes to that connection's log and reply and state are `Fired` |
| DiceClient.Client.Fire | src/index.ts:188-190 | `fire` on the command connection: without a connection "Client not connected" with nothing written or changed; the watch log is untouched |
| DiceClient.Client.FireString | src/index.ts:192-213 | an invalid first token throws before anything is written or changed; otherwise the parsed command is fired, and without a connection nothing is written or changed |
| DiceClient.Client.WatchChGetter | src/index.ts:71-96 | a stored iterator is returned with nothing changed; a connect error is returned with nothing changed; otherwise the `[id, "watch"]` handshake is written on the watch connection, and a new iterator is stored and returned exactly when it succeeds |
| DiceClient.Client.NewClient | src/index.ts:130-167 | a connect error is returned; otherwise the `[id, "command"]` handshake is sent on the command connection with the option id or the generated one, and a fresh connected client is returned exactly when it succeeds |
| DiceClient.WatchIterator.constructor | src/index.ts:47-50 | the iterator reads its client's queue |
| DiceClient.WatchIterator.Next | src/index.ts:51-64 | queue and yielded value are `ClientState.Next` of the old queue |
| LegacyIo.Read | io/io.ts:9-30 | a deserializer failure gives no response and that error; otherwise the response, with an Error carrying its `err` exactly when `err` is non-empty |
| LegacyIo.Write | io/io.ts:33-53 | a serializer failure is returned and nothing is written; otherwise the bytes are written with no prefix and the socket's fault, or null, is returned |
| LegacyIo.WriteThenRead | io/io.ts:9-53 | the bytes written are exactly the serialized command: reading them gives the deserializer's failure, or its response, together with an Error carrying the response's `err` exactly when `err` is non-empty |
| LegacyIo.BothSidesOnServerError | io/io.ts:15-23 | the pair has exactly one side unless the response reports a server error |
| LegacyIo.ServerErrorDropped | index.ts:32-49 | a response carrying a server error never reaches the slot through `simpleData` and is not queued by `simpleWatch` |
| LegacyClient.TimedOut | index.ts:191-193 | the time-out message names the command |
| LegacyClient.ParseCommandLine | index.ts:209-214 | name and args joined by single spaces are the trimmed line, and none contains a space |
| LegacyClient.ParseAgreesWithValidated | index.ts:205-216 | the unvalidated parse builds the same command as the validated one whenever that one succeeds; the validated one fails exactly when the name is not a command |
| LegacyClient.BlankLineFired | index.ts:209-214 | a blank line becomes the command with the empty name and no args |
| LegacyClient.Client.constructor | index.ts:143-155 | a new client has no connections, no iterator, an empty slot and queue, and has sent nothing |
| LegacyClient.Client.OnCommandData | index.ts:32-39 | the new state is `SimpleData` of the unframed `read` |
| LegacyClient.Client.OnWatchData | index.ts:41-49 | the new state is `SimpleWatch` of the unframed `read` |
| LegacyClient.Client.Sleep | index.ts:195 | the handlers of the events of one sleep run in order: the new state is `DeliverAll` of the old one |
| LegacyClient.Client.Wait | index.ts:190-195 | while the slot is empty, one sleep's events are handled at a time until the sleeps run out: the new state is `Await` of the old one |
| LegacyClient.Client.FireOn | index.ts:179-199 | as in src/index.ts, but with the unframed write and a time-out naming the command |
| LegacyClient.Client.Fire | index.ts:201-203 | `fire` on the command connection: without a connection "Client not connected" with nothing written or changed; the watch log is untouched |
| LegacyClient.Client.FireString | index.ts:205-216 | every line is fired unvalidated as its parsed command; without a connection nothing is written or changed |
| LegacyClient.Client.WatchChGetter | index.ts:82-107 | a stored iterator is returned unchanged; a connect error or an empty id gives no iterator and changes nothing; otherwise, with the handshake name corrected, the `[id, "watch"]` handshake is written on the watch connection and an iterator stored exactly when it succeeds |
| LegacyClient.Client.WatchChGetterAsWritten | index.ts:86-98 | as written, once the watch connection is open and the id is set, evaluating the handshake throws a ReferenceError, so no iterator is ever created |
| LegacyClient.Client.NewClient | index.ts:137-177 | with the handshake name corrected, the `[id, "watch"]` handshake is sent on the command connection and a fresh connected client is returned exactly when it succeeds |
| LegacyClient.Client.NewClientAsWritten | index.ts:156-171 | as written, no call returns a client: a connect error is returned, and any connected client is lost to a ReferenceError |
| LegacyClient.WatchIterator.constructor | index.ts:58-61 | the iterator reads its client's queue |
| LegacyClient.WatchIterator.Next | index.ts:62-76 | queue and yielded value are `ClientState.Next` of the old queue |

## Left out

- Sockets and `newConn` (`connect`, `setKeepAlive`, the `close` and `drain` handlers) are network I/O. A failed connection is the `connectFault` parameter and a `data` event is an explicit method call. Bytes written to a socket go to ghost logs.
- Timers: the 5-second `Date.now()` limit, the 100 ms sleep in `fire`, and the 50 ms `setInterval` in the iterator. The wait is given the events of each sleep, one sequence per sleep, and times out when the sleeps run out; how many sleeps fit in 5 seconds is not modelled.
- The AsyncIterable and Promise machinery. A `next` on an empty queue stays pending and is modelled as yielding nothing.
- The protobuf library (`toBinary`, `fromBinary`, `create`, `serializeBinary`, `deserializeBinary`, `getCmd`) is the abstract `Codec`. The legacy files call the google-protobuf instance API on objects built with `@bufbuild/protobuf`; the model treats both as that same serializer and `getCmd()` as the command's name.
- `randomUUID` is the `generatedId` parameter.
- Logging (`console.*`) is left out.
- The option overrides of `conn`, `watchConn`, `Fire` and `FireString` in `NewClient` are left out; only the `id` override is modelled.
- The content of a handshake's reply is not checked by the client and is not modelled beyond its presence.
- The types-only files (`src/client.ts`, `src/internals/wire.ts`, `src/result.ts`, `result.ts`), the thin `wire.command` wrappers (`src/wire.ts`, `wire.ts`), the root `cmd.ts` (never consulted), and the examples and tests are not part of this model.
- The commented-out size checks after `receive` in `src/internals/tcp_wire.ts` are not live code and are not modelled.
- TcpWire.TcpWire.Write: the error the socket later reports to the `write` callback is not modelled, since the callback's value is discarded.
- FrameIo.Write: Node's RangeErrors, raised here, in `TcpWire.TcpWire.Send` and in `FrameIo.Read`, are abbreviated to name and message (no `code` property).
- LegacyIo.Read: the normalisation of non-`Error` throw values (`new Error(String(error))`) is not modelled, since the abstract decoder always fails with an error object.
- CommandLine.Trim: white space is the ECMAScript WhiteSpace and LineTerminator set as listed code points; no Unicode database is consulted.

## Findings

| source | as written | input that shows it | evidently intended | confidence | as-written member | corrected member |
|---|---|---|---|---|---|---|
| index.ts:168 | `NewClient` builds its handshake with `CommandName.HANDSHAKE`, a name index.ts neither declares nor imports | any `NewClient` call whose socket connects throws a ReferenceError | the `HANDSHAKE` command name, as src/index.ts:158 uses | not executed | LegacyClient.Client.NewClientAsWritten | LegacyClient.Client.NewClient |
| index.ts:96 | `WatchChGetter` builds its handshake the same way | any call with no stored iterator, a working watch connection and a non-empty id throws a ReferenceError | the `HANDSHAKE` command name, as src/index.ts:84 uses | not executed | LegacyClient.Client.WatchChGetterAsWritten | LegacyClient.Client.WatchChGetter |
