/** index.ts: the older copy of the client. Its state and handlers are
    those of src/index.ts, but it reads and writes unframed messages
    (io/io.ts), fires any command line without validating its name,
    gives up on an empty client id when opening the watch connection, and
    performs the `[id, "watch"]` handshake on both connections. */
module LegacyClient {
  import opened Outcomes
  import opened WireErrors
  import opened Messages
  import opened ClientState
  import CommandLine
  import Cmd
  import LegacyIo
  import DiceClient

  /** The time-out error of `fire`, which names the command. */
  function TimedOut(c: Command): (e: Error)
    ensures e.Message() == "Timeout waiting for response to command: " + c.cmd
  {
    NewError("Timeout waiting for response to command: " + c.cmd)
  }

  /** The exception evaluating `CommandName.HANDSHAKE` raises: the name is
      neither declared nor imported in index.ts. */
  const CommandNameUndefined: Error := JsError("ReferenceError", "CommandName is not defined")

  /** The `read` both socket handlers call: the unframed reader of
      io/io.ts over the client's codec. */
  function Reader(codec: Codec): Bytes -> Reply<Response>
  {
    b => LegacyIo.Read(codec.decode, b)
  }

  /** `FireString`'s tokenising: the trimmed line split on single spaces;
      the first token is the name, whatever it is, and the rest are the
      arguments. */
  function ParseCommandLine(line: string): (c: Command)
    ensures CommandLine.Join([c.cmd] + c.args) == CommandLine.Trim(line)
    ensures forall k :: 0 <= k < |c.args| ==> ' ' !in c.args[k]
    ensures ' ' !in c.cmd
  {
    var tokens := CommandLine.Tokenize(line);
    assert [tokens[0]] + tokens[1..] == tokens;
    Command(tokens[0], if |tokens| > 1 then tokens[1..] else [])
  }

  /** The older `FireString` accepts every line the validating one
      accepts and builds the same command from it; the lines it accepts
      in addition are exactly those whose first token names no command. */
  lemma {:induction false} ParseAgreesWithValidated(line: string)
    ensures DiceClient.ParseCommandLine(line).Success? ==>
              DiceClient.ParseCommandLine(line).value == ParseCommandLine(line)
    ensures DiceClient.ParseCommandLine(line).Failure? <==> !Cmd.IsCmd(ParseCommandLine(line).cmd)
  {
    var tokens := CommandLine.Tokenize(line);
    assert |tokens| <= 1 ==> tokens[1..] == [];
  }

  /** A blank line is not rejected: it is fired as a command with the
      empty name and no arguments. */
  lemma BlankLineFired(line: string)
    requires CommandLine.AllWhiteSpace(line)
    ensures ParseCommandLine(line) == Command("", [])
  {
  }

  class Client {
    var id: string
    const host: string
    const port: int
    const codec: Codec
    var conn: bool
    var watchConn: bool
    var watchCh: seq<Response>
    var watchIterator: WatchIterator?
    var data: Option<Response>
    /** The messages written to the command and watch sockets, oldest first. */
    ghost var commandSent: seq<Bytes>
    ghost var watchSent: seq<Bytes>

    function State(): Slots
      reads this
    {
      Slots(data, watchCh)
    }

    function HasConn(role: DiceClient.Role): bool
      reads this
    {
      if role == DiceClient.CommandRole then conn else watchConn
    }

    /** The client record `NewClient` builds before connecting. */
    constructor (host: string, port: int, codec: Codec, id: string)
      ensures this.id == id && this.host == host && this.port == port && this.codec == codec
      ensures !conn && !watchConn && watchIterator == null
      ensures State() == Slots(None, [])
      ensures commandSent == [] && watchSent == []
    {
      this.id := id;
      this.host := host;
      this.port := port;
      this.codec := codec;
      conn, watchConn := false, false;
      watchCh := [];
      watchIterator := null;
      data := None;
      commandSent, watchSent := [], [];
    }

    /** `simpleData`: any error from `read`, a server error included,
        leaves the slot as it was. */
    method OnCommandData(bytes: Bytes)
      modifies this`data
      ensures State() == SimpleData(old(State()), LegacyIo.Read(codec.decode, bytes))
    {
      var rd := LegacyIo.Read(codec.decode, bytes);
      if rd.error.Some? {
        return;
      }
      data := rd.response;
    }

    /** `simpleWatch`: the slot takes the response; the queue grows only
        when `read` reported no error. */
    method OnWatchData(bytes: Bytes)
      modifies this`data, this`watchCh
      ensures State() == SimpleWatch(old(State()), LegacyIo.Read(codec.decode, bytes))
    {
      var rd := LegacyIo.Read(codec.decode, bytes);
      data := rd.response;
      if rd.error.Some? || rd.response.None? {
        return;
      }
      watchCh := watchCh + [rd.response.value];
    }

    /** One 100 ms sleep of `fire`: the handler of every `data` event
        that comes in during it runs, in order. */
    method Sleep(window: seq<Chunk>)
      modifies this`data, this`watchCh
      ensures State() == DeliverAll(old(State()), ReadWindow(Reader(codec), window))
    {
      ghost var start := State();
      ghost var rds := ReadWindow(Reader(codec), window);
      for j := 0 to |window|
        invariant DeliverAll(State(), rds[j..]) == DeliverAll(start, rds)
      {
        assert rds[j..][0] == rds[j] && rds[j..][1..] == rds[j + 1..];
        match window[j] {
          case OnCommand(b) => OnCommandData(b);
          case OnWatch(b) => OnWatchData(b);
        }
      }
      assert rds[|window|..] == [];
    }

    /** The polling loop of `fire`: while the slot is empty, sleep through
        the next window of events; running out of windows is the time-out. */
    method Wait(polls: seq<seq<Chunk>>)
      modifies this`data, this`watchCh
      ensures State() == Await(old(State()), ReadPolls(Reader(codec), polls))
    {
      ghost var start := State();
      ghost var rds := ReadPolls(Reader(codec), polls);
      var i := 0;
      while data.None? && i < |polls|
        invariant 0 <= i <= |polls|
        invariant Await(State(), rds[i..]) == Await(start, rds)
        decreases |polls| - i
      {
        assert rds[i..][0] == rds[i] && rds[i..][1..] == rds[i + 1..];
        Sleep(polls[i]);
        i := i + 1;
      }
    }

    /** `fire(client, cmd, conn)` on the connection of `role`, with the
        same reading of `writeFault` and `polls` as in src/index.ts. */
    method FireOn(c: Command, role: DiceClient.Role, writeFault: Option<Error>, polls: seq<seq<Chunk>>)
      returns (r: Reply<Response>)
      modifies this`data, this`watchCh, this`commandSent, this`watchSent
      ensures !HasConn(role) ==>
                r == Reply(None, Some(DiceClient.NotConnected)) && State() == old(State())
                && commandSent == old(commandSent) && watchSent == old(watchSent)
      ensures HasConn(role) ==>
                var w := LegacyIo.Write(codec.encode, c, writeFault);
                && (r, State()) == Fired(old(State()), w, ReadPolls(Reader(codec), polls), TimedOut(c))
                && commandSent == old(commandSent) + (if role == DiceClient.CommandRole then DiceClient.SentOf(w) else [])
                && watchSent == old(watchSent) + (if role == DiceClient.WatchRole then DiceClient.SentOf(w) else [])
    {
      if !HasConn(role) {
        return Reply(None, Some(DiceClient.NotConnected));
      }
      var w := LegacyIo.Write(codec.encode, c, writeFault);
      if role == DiceClient.CommandRole {
        commandSent := commandSent + DiceClient.SentOf(w);
      } else {
        watchSent := watchSent + DiceClient.SentOf(w);
      }
      if w.result.Some? {
        return Reply(None, w.result);
      }
      Wait(polls);
      if data.None? {
        return Reply(None, Some(TimedOut(c)));
      }
      r := Reply(data, None);
      data := None;
    }

    /** `Fire(client, cmd)`: `fire` on the command connection. */
    method Fire(c: Command, writeFault: Option<Error>, polls: seq<seq<Chunk>>)
      returns (r: Reply<Response>)
      modifies this`data, this`watchCh, this`commandSent, this`watchSent
      ensures !conn ==>
                r == Reply(None, Some(DiceClient.NotConnected)) && State() == old(State())
                && commandSent == old(commandSent)
      ensures conn ==>
                var w := LegacyIo.Write(codec.encode, c, writeFault);
                && (r, State()) == Fired(old(State()), w, ReadPolls(Reader(codec), polls), TimedOut(c))
                && commandSent == old(commandSent) + DiceClient.SentOf(w)
      ensures watchSent == old(watchSent)
    {
      r := FireOn(c, DiceClient.CommandRole, writeFault, polls);
    }

    /** `FireString(client, line)`: the parsed line is fired as it is. */
    method FireString(line: string, writeFault: Option<Error>, polls: seq<seq<Chunk>>)
      returns (r: Reply<Response>)
      modifies this`data, this`watchCh, this`commandSent, this`watchSent
      ensures !conn ==>
                r == Reply(None, Some(DiceClient.NotConnected)) && State() == old(State())
                && commandSent == old(commandSent)
      ensures conn ==>
                var c := ParseCommandLine(line);
                var w := LegacyIo.Write(codec.encode, c, writeFault);
                && (r, State()) == Fired(old(State()), w, ReadPolls(Reader(codec), polls), TimedOut(c))
                && commandSent == old(commandSent) + DiceClient.SentOf(w)
      ensures watchSent == old(watchSent)
    {
      var tokens := CommandLine.Tokenize(line);
      var command := Command(tokens[0], if |tokens| > 1 then tokens[1..] else []);
      r := Fire(command, writeFault, polls);
    }

    /** `WatchChGetter(client)` with the handshake name it evidently
        means: the stored iterator if there is one; otherwise open the
        watch connection, give up (with the socket's error, or with
        neither side when the id is empty) if that fails, and store a new
        iterator only after the `[id, "watch"]` handshake succeeds. */
    method WatchChGetter(connectFault: Option<Error>, writeFault: Option<Error>, polls: seq<seq<Chunk>>)
      returns (r: Reply<WatchIterator>)
      modifies this
      ensures old(watchIterator) != null ==> r == Reply(Some(old(watchIterator)), None) && unchanged(this)
      ensures old(watchIterator) == null && (connectFault.Some? || id == "") ==>
                r == Reply(None, connectFault) && unchanged(this)
      ensures old(watchIterator) == null && connectFault.None? && id != "" ==>
                var c := Handshake(id, "watch");
                var w := LegacyIo.Write(codec.encode, c, writeFault);
                var (reply, after) := Fired(old(State()), w, ReadPolls(Reader(codec), polls), TimedOut(c));
                && watchConn && conn == old(conn) && id == old(id)
                && State() == after
                && commandSent == old(commandSent) && watchSent == old(watchSent) + DiceClient.SentOf(w)
                && r.ExactlyOne()
                && (r.response.Some? <==> reply.error.None?)
                && (r.error.Some? ==> r.error == reply.error && watchIterator == null)
                && (r.response.Some? ==> fresh(r.response.value) && r.response.value.client == this
                                         && watchIterator == r.response.value)
    {
      if watchIterator != null {
        return Reply(Some(watchIterator), None);
      }
      if connectFault.Some? || id == "" {
        return Reply(None, connectFault);
      }
      watchConn := true;
      var reply := FireOn(Handshake(id, "watch"), DiceClient.WatchRole, writeFault, polls);
      if reply.error.Some? {
        return Reply(None, reply.error);
      }
      var it := new WatchIterator(this);
      watchIterator := it;
      r := Reply(Some(it), None);
    }

    /** `WatchChGetter(client)` as written: once the watch connection is
        open and the id is set, building the handshake command throws, so
        nothing is sent and no iterator is ever created. */
    method WatchChGetterAsWritten(connectFault: Option<Error>)
      returns (r: Completion<Reply<WatchIterator>, Error>)
      modifies this`watchConn
      ensures old(watchIterator) != null ==>
                r == Returned(Reply(Some(watchIterator), None)) && watchConn == old(watchConn)
      ensures watchIterator == null && (connectFault.Some? || id == "") ==>
                r == Returned(Reply(None, connectFault)) && watchConn == old(watchConn)
      ensures watchIterator == null && connectFault.None? && id != "" ==>
                r == Threw(CommandNameUndefined) && watchConn
    {
      if watchIterator != null {
        return Returned(Reply(Some(watchIterator), None));
      }
      if connectFault.Some? || id == "" {
        return Returned(Reply(None, connectFault));
      }
      watchConn := true;
      r := Threw(CommandNameUndefined);
    }

    /** `NewClient(host, port, option)` with the handshake name it
        evidently means: connect the command socket, then send the
        `[id, "watch"]` handshake on it; the client is returned only when
        both succeed. */
    static method NewClient(host: string, port: int, codec: Codec, generatedId: string,
                            optionId: Option<string>, connectFault: Option<Error>,
                            writeFault: Option<Error>, polls: seq<seq<Chunk>>)
      returns (r: Reply<Client>)
      ensures connectFault.Some? ==> r == Reply(None, connectFault)
      ensures connectFault.None? ==>
                var id := if optionId.Some? then optionId.value else generatedId;
                var c := Handshake(id, "watch");
                var w := LegacyIo.Write(codec.encode, c, writeFault);
                var (reply, after) := Fired(Slots(None, []), w, ReadPolls(Reader(codec), polls), TimedOut(c));
                && r.ExactlyOne()
                && (r.response.Some? <==> reply.error.None?)
                && (r.error.Some? ==> r.error == reply.error)
                && (r.response.Some? ==>
                      var client := r.response.value;
                      && fresh(client)
                      && client.id == id && client.host == host && client.port == port
                      && client.codec == codec
                      && client.conn && !client.watchConn && client.watchIterator == null
                      && client.State() == after
                      && client.commandSent == DiceClient.SentOf(w) && client.watchSent == [])
    {
      var client := new Client(host, port, codec, generatedId);
      if connectFault.Some? {
        return Reply(None, connectFault);
      }
      client.conn := true;
      client.data := None;
      client.id := if optionId.Some? then optionId.value else client.id;
      var reply := client.Fire(Handshake(client.id, "watch"), writeFault, polls);
      if reply.error.Some? {
        return Reply(None, reply.error);
      }
      r := Reply(Some(client), None);
    }

    /** `NewClient(host, port, option)` as written: every client whose
        socket connects is lost to the exception building the handshake
        throws, so no call ever returns a client. */
    static method NewClientAsWritten(host: string, port: int, codec: Codec, generatedId: string,
                                     connectFault: Option<Error>)
      returns (r: Completion<Reply<Client>, Error>)
      ensures r.Returned? ==> r.value.response.None?
      ensures connectFault.Some? ==> r == Returned(Reply(None, connectFault))
      ensures connectFault.None? ==> r == Threw(CommandNameUndefined)
    {
      var client := new Client(host, port, codec, generatedId);
      if connectFault.Some? {
        return Returned(Reply(None, connectFault));
      }
      client.conn := true;
      client.data := None;
      r := Threw(CommandNameUndefined);
    }
  }

  /** The iterator `createWatchIterator` returns; `next` shifts the queue. */
  class WatchIterator {
    const client: Client

    constructor (client: Client)
      ensures this.client == client
    {
      this.client := client;
    }

    /** `next()`: the front of the queue, removed from it; on an empty
        queue the promise stays pending, modelled as no value. */
    method Next() returns (v: Option<Response>)
      modifies client`watchCh
      ensures (v, client.watchCh) == ClientState.Next(old(client.watchCh))
    {
      if |client.watchCh| > 0 {
        v := Some(client.watchCh[0]);
        client.watchCh := client.watchCh[1..];
      } else {
        v := None;
      }
    }
  }
}
