/** The values the client moves around: bytes, commands, responses, the
    `{ response, error }` pair its functions return, and the abstract
    serializer that stands for the protobuf library. */
module Messages {
  import opened Outcomes
  import opened WireErrors

  /** One octet of a `Buffer` or `Uint8Array`. */
  type byte = x: int | 0 <= x < 256

  type Bytes = seq<byte>

  /** A command: its name and its ordered arguments. */
  datatype Command = Command(cmd: string, args: seq<string>)

  /** The value a response carries. */
  datatype Value =
    | VNil
    | VBool(b: bool)
    | VInt(i: int)
    | VFloat(f: real)
    | VStr(s: string)
    | VBytes(bytes: Bytes)
    | VList(items: seq<Value>)
    | VMap(entries: map<string, string>)

  /** A decoded response; `err` is the server-reported error, empty when
      there is none. */
  datatype Response = Response(err: string, value: Value)

  /** The untyped `{ response, error }` pair: each side may be null. */
  datatype Reply<+T> = Reply(response: Option<T>, error: Option<Error>)
  {
    /** Exactly one of the two sides is present. */
    predicate ExactlyOne()
    {
      response.Some? != error.Some?
    }
  }

  /** The serialization library: `encode` serializes a command or throws,
      `decode` parses bytes into a response or throws. */
  datatype Codec = Codec(encode: Command -> Result<Bytes, Error>,
                         decode: Bytes -> Result<Response, Error>)

  /** What a `write(conn, cmd)` call of an io module does: the bytes it
      hands to `conn.write`, if it gets that far, and what it returns. */
  datatype WriteEffect = WriteEffect(sent: Option<Bytes>, result: Option<Error>)

  /** The handshake command both connections open with (the `HANDSHAKE`
      name with the client id and the role). */
  function Handshake(id: string, role: string): Command
  {
    Command("HANDSHAKE", [id, role])
  }
}
