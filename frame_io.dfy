/** src/io/io.ts: length-prefixed framing of serialized commands and
    responses. A frame is the payload's length as a 4-byte big-endian
    unsigned integer, followed by the payload. */
module FrameIo {
  import opened Outcomes
  import opened WireErrors
  import opened Messages
  import opened BigEndian

  /** Width of the length prefix, in bytes. */
  const PrefixSize: nat := 4

  /** The first length `writeUInt32BE` refuses. */
  const UInt32Limit: nat := 0x1_0000_0000

  /** `readUInt32BE(0)` on a buffer shorter than four bytes. */
  const BufferOutOfBounds: Error := JsError("RangeError", "Attempt to access memory outside buffer bounds")

  /** `writeUInt32BE(v, 0)` with v above 0xFFFF_FFFF. */
  const ValueOutOfRange: Error := JsError("RangeError", "The value of \"value\" is out of range.")

  /** The 4-byte big-endian encoding of a 32-bit length. */
  function EncodeUInt32BE(n: nat): (r: Bytes)
    requires n < UInt32Limit
    ensures |r| == PrefixSize
  {
    EncodeBE(n, PrefixSize)
  }

  /** The 32-bit length stored big-endian in the first four bytes. */
  function ReadUInt32BE(data: Bytes): (n: nat)
    requires |data| >= PrefixSize
    ensures n < UInt32Limit
  {
    DecodeBE(data[..PrefixSize])
  }

  /** The frame `write` builds for a payload: prefix, then payload. */
  function Frame(payload: Bytes): (f: Bytes)
    requires |payload| < UInt32Limit
    ensures |f| == PrefixSize + |payload|
    ensures f[PrefixSize..] == payload
  {
    EncodeUInt32BE(|payload|) + payload
  }

  function Min(a: nat, b: nat): nat
  {
    if a <= b then a else b
  }

  /** The bytes `read` hands to the deserializer: `subarray(4, 4 + size)`,
      which stops at the end of the buffer when the prefix claims more. */
  function Body(data: Bytes): (body: Bytes)
    requires |data| >= PrefixSize
    ensures body <= data[PrefixSize..]
    ensures |body| == Min(ReadUInt32BE(data), |data| - PrefixSize)
  {
    data[PrefixSize..Min(PrefixSize + ReadUInt32BE(data), |data|)]
  }

  /** `read(data)`: decode the prefix, slice the body, deserialize it. Any
      exception in the try block becomes a null response with the error. */
  function Read(decode: Bytes -> Result<Response, Error>, data: Bytes): (r: Reply<Response>)
    ensures r.ExactlyOne()
    ensures |data| < PrefixSize ==> r == Reply(None, Some(BufferOutOfBounds))
    ensures |data| >= PrefixSize ==> (r.response.Some? <==> decode(Body(data)).Success?)
  {
    if |data| < PrefixSize then Reply(None, Some(BufferOutOfBounds))
    else
      match decode(Body(data))
      case Success(resp) => Reply(Some(resp), None)
      case Failure(e) => Reply(None, Some(e))
  }

  /** `write(conn, cmd)`: serialize, prefix with the length, hand the frame
      to the socket. `socketFault` is what `conn.write` throws, if anything. */
  function Write(encode: Command -> Result<Bytes, Error>, cmd: Command, socketFault: Option<Error>): (w: WriteEffect)
    ensures encode(cmd).Failure? ==> w == WriteEffect(None, Some(encode(cmd).error))
    ensures encode(cmd).Success? && |encode(cmd).value| >= UInt32Limit ==>
              w == WriteEffect(None, Some(ValueOutOfRange))
    ensures encode(cmd).Success? && |encode(cmd).value| < UInt32Limit ==>
              w == WriteEffect(Some(Frame(encode(cmd).value)), socketFault)
  {
    match encode(cmd)
    case Failure(e) => WriteEffect(None, Some(e))
    case Success(payload) =>
      if |payload| >= UInt32Limit then WriteEffect(None, Some(ValueOutOfRange))
      else WriteEffect(Some(Frame(payload)), socketFault)
  }

  /** The frame starts with the 4-byte big-endian length, and that
      prefix reads back as the payload's length. */
  lemma FrameLayout(payload: Bytes)
    requires |payload| < UInt32Limit
    ensures Frame(payload)[..PrefixSize] == EncodeUInt32BE(|payload|)
    ensures ReadUInt32BE(Frame(payload)) == |payload|
  {
    var f := Frame(payload);
    assert f[..PrefixSize] == EncodeUInt32BE(|payload|);
    DecodeEncode(|payload|, PrefixSize);
  }

  /** Bytes after the declared length are never read: `read` sees the
      same body whatever follows the frame. */
  lemma ReadIgnoresTrailing(decode: Bytes -> Result<Response, Error>, payload: Bytes, rest: Bytes)
    requires |payload| < UInt32Limit
    ensures Body(Frame(payload) + rest) == payload
    ensures Read(decode, Frame(payload) + rest) == Read(decode, Frame(payload))
  {
    FrameLayout(payload);
    var f := Frame(payload);
    assert (f + rest)[..PrefixSize] == f[..PrefixSize];
    assert Body(f + rest) == (f + rest)[PrefixSize..PrefixSize + |payload|];
    assert (f + rest)[PrefixSize..PrefixSize + |payload|] == f[PrefixSize..];
    assert Body(f) == f[PrefixSize..];
  }

  /** Round trip: reading the frame `write` sent hands exactly the
      serialized payload to the deserializer, whatever follows it. */
  lemma WriteThenRead(codec: Codec, cmd: Command, socketFault: Option<Error>, rest: Bytes)
    requires Write(codec.encode, cmd, socketFault).sent.Some?
    ensures codec.encode(cmd).Success?
    ensures var payload := codec.encode(cmd).value;
            Read(codec.decode, Write(codec.encode, cmd, socketFault).sent.value + rest)
              == match codec.decode(payload)
                 case Success(resp) => Reply(Some(resp), None)
                 case Failure(e) => Reply(None, Some(e))
  {
    var payload := codec.encode(cmd).value;
    ReadIgnoresTrailing(codec.decode, payload, rest);
  }

  /** A buffer with a 4-byte prefix is read through `Body`, which is never
      longer than the prefix declares: no bounds check, only truncation. */
  lemma BodyBounded(data: Bytes)
    requires |data| >= PrefixSize
    ensures |Body(data)| <= ReadUInt32BE(data)
    ensures |Body(data)| == ReadUInt32BE(data) <==> |data| >= PrefixSize + ReadUInt32BE(data)
  {
  }
}
