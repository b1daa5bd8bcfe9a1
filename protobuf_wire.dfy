/** src/internals/protobuf_wire.ts: serializes commands and deserializes
    responses around a tcp wire, reporting codec failures as
    `CorruptMessage` wire errors. */
module ProtobufWire {
  import opened Outcomes
  import opened WireErrors
  import opened Messages
  import TcpWire

  /** The error `send` returns when serialization throws `e`. */
  function SerializeFailed(e: Error): (w: Error)
    ensures w.WireError? && w.kind == CorruptMessage
  {
    NewWireError(CorruptMessage, NewError("Failed to serialize command: " + e.ToString()))
  }

  /** The error `receive` returns when deserialization throws `e`. */
  function DeserializeFailed(e: Error): (w: Error)
    ensures w.WireError? && w.kind == CorruptMessage
  {
    NewWireError(CorruptMessage, NewError("Failed to deserialize result: " + e.ToString()))
  }

  /** `send(protobufWire, cmd)` over any tcp wire `tcpSend`. */
  function Send(encode: Command -> Result<Bytes, Error>,
                tcpSend: Bytes -> Completion<Option<Error>, Error>,
                cmd: Command): (r: Completion<Option<Error>, Error>)
    ensures encode(cmd).Failure? ==> r == Returned(Some(SerializeFailed(encode(cmd).error)))
    ensures encode(cmd).Success? ==> r == tcpSend(encode(cmd).value)
  {
    match encode(cmd)
    case Failure(e) => Returned(Some(SerializeFailed(e)))
    case Success(bytes) => tcpSend(bytes)
  }

  /** `receive(protobufTcpWire, data)` over any tcp wire `tcpReceive`. */
  function Receive(tcpReceive: Bytes -> Completion<Result<Bytes, Error>, Error>,
                   decode: Bytes -> Result<Response, Error>,
                   data: Bytes): (r: Completion<Result<Response, Error>, Error>)
    ensures r.Returned? && r.value.Success? ==>
              && tcpReceive(data).Returned? && tcpReceive(data).value.Success?
              && decode(tcpReceive(data).value.value) == Success(r.value.value)
    ensures tcpReceive(data).Threw? <==> r.Threw?
  {
    match tcpReceive(data)
    case Threw(x) => Threw(x)
    case Returned(Failure(e)) => Returned(Failure(e))
    case Returned(Success(bytes)) =>
      match decode(bytes)
      case Failure(e) => Returned(Failure(DeserializeFailed(e)))
      case Success(resp) => Returned(Success(resp))
  }

  /** The error paths of `receive`: a transport error passes through
      unchanged and the decoder is never consulted; a decoder failure
      becomes `CorruptMessage`; otherwise the decoded response is returned. */
  lemma ReceiveCases(tcpReceive: Bytes -> Completion<Result<Bytes, Error>, Error>,
                     decode: Bytes -> Result<Response, Error>,
                     decode': Bytes -> Result<Response, Error>,
                     data: Bytes)
    ensures tcpReceive(data).Threw? ==>
              Receive(tcpReceive, decode, data) == Threw(tcpReceive(data).exception)
              && Receive(tcpReceive, decode, data) == Receive(tcpReceive, decode', data)
    ensures tcpReceive(data).Returned? && tcpReceive(data).value.Failure? ==>
              Receive(tcpReceive, decode, data) == Returned(Failure(tcpReceive(data).value.error))
              && Receive(tcpReceive, decode, data) == Receive(tcpReceive, decode', data)
    ensures tcpReceive(data).Returned? && tcpReceive(data).value.Success? ==>
              var bytes := tcpReceive(data).value.value;
              Receive(tcpReceive, decode, data)
                == Returned(if decode(bytes).Success? then Success(decode(bytes).value)
                            else Failure(DeserializeFailed(decode(bytes).error)))
  {
  }

  /** `createProtobufTcpWire(maxMsgSize, conn)` with the tcp wire the
      source builds, and `send` and `receive` bound to it. */
  class ProtobufTcpWire {
    const tcpWire: TcpWire.TcpWire

    /** The source passes its arguments to `newTcpWire` in the opposite
        order to that function's parameters: the wire's `conn` is the
        number and its `maxMsgSize` is the socket. */
    constructor (maxMsgSize: int, conn: nat)
      ensures fresh(tcpWire)
      ensures tcpWire.status == TcpWire.Open
      ensures tcpWire.conn == TcpWire.Number(maxMsgSize)
      ensures tcpWire.maxMsgSize == TcpWire.Socket(conn)
      ensures tcpWire.written == []
    {
      tcpWire := new TcpWire.TcpWire(TcpWire.Number(maxMsgSize), TcpWire.Socket(conn));
    }

    method SendCommand(encode: Command -> Result<Bytes, Error>, cmd: Command)
      returns (r: Completion<Option<Error>, Error>)
      modifies tcpWire`written
      ensures var status, conn := tcpWire.status, tcpWire.conn;
              r == Send(encode, b => TcpWire.SendResult(status, conn, b), cmd)
      ensures encode(cmd).Failure? ==> tcpWire.written == old(tcpWire.written)
      ensures encode(cmd).Success? ==>
                tcpWire.written == old(tcpWire.written)
                                   + TcpWire.SendFrames(tcpWire.status, tcpWire.conn, encode(cmd).value)
    {
      match encode(cmd)
      case Failure(e) =>
        r := Returned(Some(SerializeFailed(e)));
      case Success(bytes) =>
        r := tcpWire.Send(bytes);
    }

    method ReceiveResponse(decode: Bytes -> Result<Response, Error>, data: Bytes)
      returns (r: Completion<Result<Response, Error>, Error>)
      ensures r == Receive(_ => Threw(TcpWire.NotImplemented), decode, data)
    {
      var received := tcpWire.Receive();
      match received
      case Threw(x) =>
        r := Threw(x);
      case Returned(Failure(e)) =>
        r := Returned(Failure(e));
      case Returned(Success(bytes)) =>
        match decode(bytes)
        case Failure(e) =>
          r := Returned(Failure(DeserializeFailed(e)));
        case Success(resp) =>
          r := Returned(Success(resp));
    }
  }

  /** Because of the swapped arguments, every command that serializes is
      sent to a number rather than a socket: `send` throws a `TypeError`
      and nothing is written. */
  lemma SwappedWireSendThrows(encode: Command -> Result<Bytes, Error>, maxMsgSize: int, cmd: Command)
    requires encode(cmd).Success? && |encode(cmd).value| < 0x1_0000_0000
    ensures Send(encode, b => TcpWire.SendResult(TcpWire.Open, TcpWire.Number(maxMsgSize), b), cmd)
              == Threw(TcpWire.NotAFunction)
    ensures TcpWire.SendFrames(TcpWire.Open, TcpWire.Number(maxMsgSize), encode(cmd).value) == []
  {
  }

  /** Since the tcp wire's `receive` only throws, so does `receive` here,
      whatever the bytes and the decoder. */
  lemma ReceiveAlwaysThrows(decode: Bytes -> Result<Response, Error>, data: Bytes)
    ensures Receive(_ => Threw(TcpWire.NotImplemented), decode, data) == Threw(TcpWire.NotImplemented)
  {
  }
}
