/** src/internals/tcp_wire.ts: a wire over one socket that frames every
    payload with its 4-byte length before writing it. */
module TcpWire {
  import opened Outcomes
  import opened WireErrors
  import opened Messages
  import FrameIo

  /** `defaultMaxMsgSize`: 32 MiB. */
  const DefaultMaxMsgSize: int := 32 * 1024 * 1024

  datatype Status = Open | Closed

  /** A dynamically typed argument: `newTcpWire` is called with its two
      arguments in either order, so each slot can hold a number, a socket
      or nothing. */
  datatype JsValue = Undefined | Number(n: int) | Socket(id: nat)

  /** What `send` on a closed wire returns. */
  const ClosedWire: Error := WireError(Terminated, NewError("trying to use closed wire"))

  /** What calling `.write` on a `conn` that is not a socket throws. */
  const NotAFunction: Error := JsError("TypeError", "wire.conn.write is not a function")

  /** What `receive` throws. */
  const NotImplemented: Error := NewError("Function not implemented.")

  /** The `maxMsgSize` a wire keeps: the default parameter replaces only a
      missing argument. */
  function MaxMsgSizeOf(arg: JsValue): (v: JsValue)
    ensures arg.Undefined? ==> v == Number(DefaultMaxMsgSize)
    ensures !arg.Undefined? ==> v == arg
  {
    if arg.Undefined? then Number(DefaultMaxMsgSize) else arg
  }

  /** The frames `send(data)` passes to the socket: one frame exactly
      when `send` returns null, none otherwise. */
  function SendFrames(status: Status, conn: JsValue, data: Bytes): (fs: seq<Bytes>)
    ensures |fs| <= 1
    ensures fs != [] <==> SendResult(status, conn, data) == Returned(None)
  {
    if status == Open && |data| < FrameIo.UInt32Limit && conn.Socket? then [FrameIo.Frame(data)] else []
  }

  /** How `send(data)` ends: the closed-status gate, the prefix encoding
      (which throws beyond 32 bits), and the call to `write`. */
  function SendResult(status: Status, conn: JsValue, data: Bytes): (r: Completion<Option<Error>, Error>)
    ensures (r.Returned? && r.value.Some?) <==> status == Closed
    ensures r.Threw? ==> r.exception.Name() in {"RangeError", "TypeError"}
  {
    if status == Closed then Returned(Some(ClosedWire))
    else if |data| >= FrameIo.UInt32Limit then Threw(FrameIo.ValueOutOfRange)
    else if !conn.Socket? then Threw(NotAFunction)
    else Returned(None)
  }

  class TcpWire {
    var status: Status
    var maxMsgSize: JsValue
    const conn: JsValue
    /** The buffers handed to `conn.write`, oldest first. */
    ghost var written: seq<Bytes>

    /** `newTcpWire(conn, maxMsgSize)`. */
    constructor (conn: JsValue, maxMsgSize: JsValue)
      ensures status == Open
      ensures this.conn == conn && this.maxMsgSize == MaxMsgSizeOf(maxMsgSize)
      ensures written == []
    {
      status := Open;
      this.maxMsgSize := MaxMsgSizeOf(maxMsgSize);
      this.conn := conn;
      written := [];
    }

    /** `send(wire, data)`. */
    method Send(data: Bytes) returns (r: Completion<Option<Error>, Error>)
      modifies this`written
      ensures r == SendResult(status, conn, data)
      ensures written == old(written) + SendFrames(status, conn, data)
      ensures status == old(status) && maxMsgSize == old(maxMsgSize)
    {
      if status == Closed {
        return Returned(Some(ClosedWire));
      }
      if |data| >= FrameIo.UInt32Limit {
        return Threw(FrameIo.ValueOutOfRange);
      }
      var prefix := FrameIo.EncodeUInt32BE(|data|);
      var resp := prefix + data;
      r := Write(resp);
    }

    /** `write(wire, data)`: the socket reports failures only to a callback
        whose value is dropped, so a socket always yields null here. */
    method Write(data: Bytes) returns (r: Completion<Option<Error>, Error>)
      modifies this`written
      ensures conn.Socket? ==> r == Returned(None) && written == old(written) + [data]
      ensures !conn.Socket? ==> r == Threw(NotAFunction) && written == old(written)
    {
      if !conn.Socket? {
        return Threw(NotAFunction);
      }
      written := written + [data];
      r := Returned(None);
    }

    /** `receive(wire)`: not implemented, it always throws. */
    method Receive() returns (r: Completion<Result<Bytes, Error>, Error>)
      ensures r == Threw(NotImplemented)
    {
      r := Threw(NotImplemented);
    }
  }

  /** A closed wire answers `Terminated` and writes nothing. */
  lemma SendOnClosedWire(conn: JsValue, data: Bytes)
    ensures SendResult(Closed, conn, data).Returned?
    ensures SendResult(Closed, conn, data).value.Some?
    ensures SendResult(Closed, conn, data).value.value.kind == Terminated
    ensures SendFrames(Closed, conn, data) == []
  {
  }

  /** An open wire over a socket returns null and writes one frame: the
      4-byte big-endian length of the data, then the data. */
  lemma {:induction false} SendOnOpenWire(id: nat, data: Bytes)
    requires |data| < FrameIo.UInt32Limit
    ensures SendResult(Open, Socket(id), data) == Returned(None)
    ensures |SendFrames(Open, Socket(id), data)| == 1
    ensures var f := SendFrames(Open, Socket(id), data)[0];
            |f| == FrameIo.PrefixSize + |data| && FrameIo.ReadUInt32BE(f) == |data| && f[FrameIo.PrefixSize..] == data
  {
    FrameIo.FrameLayout(data);
  }
}
