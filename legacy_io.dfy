/** io/io.ts: the older io module. A message is the serialized bytes alone,
    with no length prefix, and a response whose `err` field is set is
    lifted into an `Error` returned beside the response. */
module LegacyIo {
  import opened Outcomes
  import opened WireErrors
  import opened Messages
  import ClientState

  /** `read(data)`: deserialize the whole buffer. A deserializer exception
      becomes a null response with the error; a response carrying a
      server error comes back together with `new Error(err)`. */
  function Read(decode: Bytes -> Result<Response, Error>, data: Bytes): (r: Reply<Response>)
    ensures r.response.Some? || r.error.Some?
    ensures r.response.None? <==> decode(data).Failure?
    ensures decode(data).Failure? ==> r.error == Some(decode(data).error)
    ensures decode(data).Success? ==>
              && r.response == Some(decode(data).value)
              && (decode(data).value.err == "" <==> r.error.None?)
              && (r.error.Some? ==> r.error.value.Message() == decode(data).value.err)
  {
    match decode(data)
    case Failure(e) => Reply(None, Some(e))
    case Success(resp) =>
      if resp.err != "" then Reply(Some(resp), Some(NewError(resp.err)))
      else Reply(Some(resp), None)
  }

  /** `write(conn, cmd)`: serialize and hand the bytes, unprefixed, to the
      socket. `socketFault` is what `conn.write` throws, if anything. */
  function Write(encode: Command -> Result<Bytes, Error>, cmd: Command, socketFault: Option<Error>): (w: WriteEffect)
    ensures encode(cmd).Failure? ==> w == WriteEffect(None, Some(encode(cmd).error))
    ensures encode(cmd).Success? ==> w == WriteEffect(Some(encode(cmd).value), socketFault)
  {
    match encode(cmd)
    case Failure(e) => WriteEffect(None, Some(e))
    case Success(payload) => WriteEffect(Some(payload), socketFault)
  }

  /** Round trip: reading the bytes `write` sent hands exactly the
      serialized command to the deserializer, with no framing around it;
      the reply is its failure, its response, or its response together
      with the server error it carries. */
  lemma WriteThenRead(codec: Codec, cmd: Command, socketFault: Option<Error>)
    requires Write(codec.encode, cmd, socketFault).sent.Some?
    ensures codec.encode(cmd).Success?
    ensures var payload := codec.encode(cmd).value;
            Read(codec.decode, Write(codec.encode, cmd, socketFault).sent.value)
              == match codec.decode(payload)
                 case Failure(e) => Reply(None, Some(e))
                 case Success(resp) => Reply(Some(resp), if resp.err == "" then None else Some(NewError(resp.err)))
  {
  }

  /** Unlike the framed `read`, both sides can be present: exactly when
      the response reports a server error. */
  lemma BothSidesOnServerError(decode: Bytes -> Result<Response, Error>, data: Bytes)
    ensures Read(decode, data).ExactlyOne() <==> decode(data).Failure? || decode(data).value.err == ""
  {
  }

  /** The command handler treats the lifted error as a failed read, so a
      response reporting a server error never reaches the pending slot. */
  lemma {:induction false} ServerErrorDropped(s: ClientState.Slots, decode: Bytes -> Result<Response, Error>, data: Bytes)
    requires decode(data).Success? && decode(data).value.err != ""
    ensures ClientState.SimpleData(s, Read(decode, data)) == s
    ensures ClientState.SimpleWatch(s, Read(decode, data)) == ClientState.Slots(Some(decode(data).value), s.watchCh)
  {
    assert ClientState.Pushed(Read(decode, data)) == [];
  }
}
