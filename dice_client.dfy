/** src/index.ts: the client. It owns a command connection and, once
    asked for, a watch connection; every `data` event on either runs a
    handler that updates the client's pending-response slot and watch
    queue, and `fire` writes a framed command and waits for the slot. */
module DiceClient {
  import opened Outcomes
  import opened WireErrors
  import opened Messages
  import opened ClientState
  import CommandLine
  import Cmd
  import FrameIo

  datatype Role = CommandRole | WatchRole

  const NotConnected: Error := NewError("Client not connected")

  const TimedOut: Error := NewError("Timeout waiting for response to command")

  function InvalidCommand(token: string): Error
  {
    NewError("Invalid command: " + token)
  }

  /** The `read` both socket handlers call: the framed reader of
      src/io/io.ts over the client's codec. */
  function Reader(codec: Codec): Bytes -> Reply<Response>
  {
    b => FrameIo.Read(codec.decode, b)
  }

  /** The frames a `write` call handed to its socket. */
  function SentOf(w: WriteEffect): seq<Bytes>
  {
    if w.sent.Some? then [w.sent.value] else []
  }

  /** `FireString`'s tokenising and validation: the first token of the
      trimmed line must be a value of `cmd`, otherwise it throws; the
      command is that token with the remaining tokens as arguments. */
  function ParseCommandLine(line: string): (r: Result<Command, Error>)
    ensures r.Success? <==> Cmd.IsCmd(CommandLine.Tokenize(line)[0])
    ensures r.Failure? ==> r.error == InvalidCommand(CommandLine.Tokenize(line)[0])
  {
    var tokens := CommandLine.Tokenize(line);
    if !Cmd.IsCmd(tokens[0]) then Failure(InvalidCommand(tokens[0]))
    else Success(Command(tokens[0], tokens[1..]))
  }

  /** An accepted line's name and arguments, joined by single spaces,
      give back the trimmed line, and no argument holds a space. */
  lemma {:induction false} ParseCommandLineSpec(line: string)
    ensures ParseCommandLine(line).Success? ==>
              var c := ParseCommandLine(line).value;
              && Cmd.IsCmd(c.cmd)
              && CommandLine.Join([c.cmd] + c.args) == CommandLine.Trim(line)
              && forall k :: 0 <= k < |c.args| ==> ' ' !in c.args[k]
  {
    var tokens := CommandLine.Tokenize(line);
    assert [tokens[0]] + tokens[1..] == tokens;
  }

  /** A line of white space only, the empty line included, is rejected:
      its one token is the empty string, which names no command. */
  lemma {:induction false} BlankLineRejected(line: string)
    requires CommandLine.AllWhiteSpace(line)
    ensures ParseCommandLine(line) == Failure(InvalidCommand(""))
  {
    Cmd.TableNames();
  }

  /** A line made of space-free tokens joined by single spaces, with no
      white space at either end, parses back into those tokens. */
  lemma {:induction false} ParseJoined(tokens: seq<string>)
    requires |tokens| >= 1
    requires forall k :: 0 <= k < |tokens| ==> ' ' !in tokens[k]
    requires var line := CommandLine.Join(tokens);
             line == [] || (!CommandLine.IsJsWhiteSpace(line[0]) && !CommandLine.IsJsWhiteSpace(line[|line| - 1]))
    ensures ParseCommandLine(CommandLine.Join(tokens))
              == if Cmd.IsCmd(tokens[0]) then Success(Command(tokens[0], tokens[1..]))
                 else Failure(InvalidCommand(tokens[0]))
  {
    var line := CommandLine.Join(tokens);
    CommandLine.TrimUntrimmed(line);
    CommandLine.SplitJoin(tokens);
    assert CommandLine.Tokenize(line) == tokens;
  }

  /** Repeated spaces are not collapsed: they yield empty arguments. */
  lemma RepeatedSpacesKeepEmptyArgs()
    ensures ParseCommandLine("GET  k") == Success(Command("GET", ["", "k"]))
  {
    var tokens := ["GET", "", "k"];
    assert CommandLine.Join(tokens[2..]) == "k";
    assert CommandLine.Join(tokens[1..]) == " k";
    assert CommandLine.Join(tokens) == "GET  k";
    ParseJoined(tokens);
    Cmd.TableNames();
    assert tokens[1..] == ["", "k"];
  }

  /** The second validation in `FireString`: a loop over the values of
      `cmd` that stops at the first match. It agrees with the `includes`
      check, which is why its error return can never be taken. */
  method IncludesByLoop(name: string) returns (isValid: bool)
    ensures isValid <==> Cmd.IsCmd(name)
  {
    var values := Cmd.Values();
    isValid := false;
    var i := 0;
    while i < |values|
      invariant 0 <= i <= |values|
      invariant !isValid && name !in values[..i]
    {
      if name == values[i] {
        isValid := true;
        break;
      }
      i := i + 1;
      assert values[..i] == values[..i - 1] + [values[i - 1]];
    }
    assert !isValid ==> values[..i] == values;
  }

  class Client {
    var id: string
    const host: string
    const port: int
    /** The serialization library. */
    const codec: Codec
    /** Whether `conn` / `watchConn` hold a socket. */
    var conn: bool
    var watchConn: bool
    var watchCh: seq<Response>
    var watchIterator: WatchIterator?
    var data: Option<Response>
    /** The frames written to the command and watch sockets, oldest first. */
    ghost var commandSent: seq<Bytes>
    ghost var watchSent: seq<Bytes>

    function State(): Slots
      reads this
    {
      Slots(data, watchCh)
    }

    function HasConn(role: Role): bool
      reads this
    {
      if role == CommandRole then conn else watchConn
    }

    /** The client record `NewClient` builds before connecting. */
    constructor (host: string, port: int, codec: Codec, id: string)
      ensures this.id == id && this.host == host && this.port == port && this.codec == codec
      ensures !conn && !watchConn && watchIterator == null
      ensures State() == Slots(None, [])
      ensures commandSent == [] && watchSent == []
    {
      this.id := id;
      this.host := host;
      this.port := port;
      this.codec := codec;
      conn, watchConn := false, false;
      watchCh := [];
      watchIterator := null;
      data := None;
      commandSent, watchSent := [], [];
    }

    /** `simpleData`, run for each `data` event of the command socket. */
    method OnCommandData(bytes: Bytes)
      modifies this`data
      ensures State() == SimpleData(old(State()), FrameIo.Read(codec.decode, bytes))
    {
      var rd := FrameIo.Read(codec.decode, bytes);
      if rd.error.Some? {
        return;
      }
      data := rd.response;
    }

    /** `simpleWatch`, run for each `data` event of the watch socket. */
    method OnWatchData(bytes: Bytes)
      modifies this`data, this`watchCh
      ensures State() == SimpleWatch(old(State()), FrameIo.Read(codec.decode, bytes))
    {
      var rd := FrameIo.Read(codec.decode, bytes);
      data := rd.response;
      if rd.error.Some? || rd.response.None? {
        return;
      }
      watchCh := watchCh + [rd.response.value];
    }

    /** One 100 ms sleep of `fire`: the handler of every `data` event
        that comes in during it runs, in order. */
    method Sleep(window: seq<Chunk>)
      modifies this`data, this`watchCh
      ensures State() == DeliverAll(old(State()), ReadWindow(Reader(codec), window))
    {
      ghost var start := State();
      ghost var rds := ReadWindow(Reader(codec), window);
      for j := 0 to |window|
        invariant DeliverAll(State(), rds[j..]) == DeliverAll(start, rds)
      {
        assert rds[j..][0] == rds[j] && rds[j..][1..] == rds[j + 1..];
        match window[j] {
          case OnCommand(b) => OnCommandData(b);
          case OnWatch(b) => OnWatchData(b);
        }
      }
      assert rds[|window|..] == [];
    }

    /** The polling loop of `fire`: while the slot is empty, sleep through
        the next window of events; running out of windows is the time-out. */
    method Wait(polls: seq<seq<Chunk>>)
      modifies this`data, this`watchCh
      ensures State() == Await(old(State()), ReadPolls(Reader(codec), polls))
    {
      ghost var start := State();
      ghost var rds := ReadPolls(Reader(codec), polls);
      var i := 0;
      while data.None? && i < |polls|
        invariant 0 <= i <= |polls|
        invariant Await(State(), rds[i..]) == Await(start, rds)
        decreases |polls| - i
      {
        assert rds[i..][0] == rds[i] && rds[i..][1..] == rds[i + 1..];
        Sleep(polls[i]);
        i := i + 1;
      }
    }

    /** `fire(client, cmd, conn)` on the connection of `role`. `writeFault`
        is what the socket's `write` throws, if anything; `polls` are the
        `data` events that come in during each 100 ms sleep while `fire`
        polls the slot, and running out of them is the time-out. */
    method FireOn(c: Command, role: Role, writeFault: Option<Error>, polls: seq<seq<Chunk>>)
      returns (r: Reply<Response>)
      modifies this`data, this`watchCh, this`commandSent, this`watchSent
      ensures !HasConn(role) ==>
                r == Reply(None, Some(NotConnected)) && State() == old(State())
                && commandSent == old(commandSent) && watchSent == old(watchSent)
      ensures HasConn(role) ==>
                var w := FrameIo.Write(codec.encode, c, writeFault);
                && (r, State()) == Fired(old(State()), w, ReadPolls(Reader(codec), polls), TimedOut)
                && commandSent == old(commandSent) + (if role == CommandRole then SentOf(w) else [])
                && watchSent == old(watchSent) + (if role == WatchRole then SentOf(w) else [])
    {
      if !HasConn(role) {
        return Reply(None, Some(NotConnected));
      }
      var w := FrameIo.Write(codec.encode, c, writeFault);
      if role == CommandRole {
        commandSent := commandSent + SentOf(w);
      } else {
        watchSent := watchSent + SentOf(w);
      }
      if w.result.Some? {
        return Reply(None, w.result);
      }
      Wait(polls);
      if data.None? {
        return Reply(None, Some(TimedOut));
      }
      r := Reply(data, None);
      data := None;
    }

    /** `Fire(client, cmd)`: `fire` on the command connection. */
    method Fire(c: Command, writeFault: Option<Error>, polls: seq<seq<Chunk>>)
      returns (r: Reply<Response>)
      modifies this`data, this`watchCh, this`commandSent, this`watchSent
      ensures !conn ==>
                r == Reply(None, Some(NotConnected)) && State() == old(State())
                && commandSent == old(commandSent)
      ensures conn ==>
                var w := FrameIo.Write(codec.encode, c, writeFault);
                && (r, State()) == Fired(old(State()), w, ReadPolls(Reader(codec), polls), TimedOut)
                && commandSent == old(commandSent) + SentOf(w)
      ensures watchSent == old(watchSent)
    {
      r := FireOn(c, CommandRole, writeFault, polls);
    }

    /** `FireString(client, line)`: an invalid first token throws before
        anything is written; otherwise the parsed command is fired. */
    method FireString(line: string, writeFault: Option<Error>, polls: seq<seq<Chunk>>)
      returns (r: Completion<Reply<Response>, Error>)
      modifies this`data, this`watchCh, this`commandSent, this`watchSent
      ensures ParseCommandLine(line).Failure? ==>
                r == Threw(ParseCommandLine(line).error)
                && State() == old(State()) && commandSent == old(commandSent)
      ensures ParseCommandLine(line).Success? && !conn ==>
                r == Returned(Reply(None, Some(NotConnected))) && State() == old(State())
                && commandSent == old(commandSent)
      ensures ParseCommandLine(line).Success? && conn ==>
                var w := FrameIo.Write(codec.encode, ParseCommandLine(line).value, writeFault);
                && r.Returned?
                && (r.value, State()) == Fired(old(State()), w, ReadPolls(Reader(codec), polls), TimedOut)
                && commandSent == old(commandSent) + SentOf(w)
      ensures watchSent == old(watchSent)
    {
      var tokens := CommandLine.Tokenize(line);
      var name := tokens[0];
      if !Cmd.IsCmd(name) {
        return Threw(InvalidCommand(name));
      }
      var isValid := IncludesByLoop(name);
      if !isValid {
        assert false;
        return Returned(Reply(None, Some(InvalidCommand(name))));
      }
      var command := Command(name, if |tokens| > 1 then tokens[1..] else []);
      var reply := Fire(command, writeFault, polls);
      r := Returned(reply);
    }

    /** `WatchChGetter(client)`: the stored iterator if there is one;
        otherwise open the watch connection (`connectFault` is the socket's
        error, if it fails), send the `[id, "watch"]` handshake on it, and
        only when that succeeds store and return a new iterator. */
    method WatchChGetter(connectFault: Option<Error>, writeFault: Option<Error>, polls: seq<seq<Chunk>>)
      returns (r: Result<WatchIterator, Error>)
      modifies this
      ensures old(watchIterator) != null ==> r == Success(old(watchIterator)) && unchanged(this)
      ensures old(watchIterator) == null && connectFault.Some? ==>
                r == Failure(connectFault.value) && unchanged(this)
      ensures old(watchIterator) == null && connectFault.None? ==>
                var w := FrameIo.Write(codec.encode, Handshake(id, "watch"), writeFault);
                var (reply, after) := Fired(old(State()), w, ReadPolls(Reader(codec), polls), TimedOut);
                && watchConn && conn == old(conn) && id == old(id)
                && State() == after
                && commandSent == old(commandSent) && watchSent == old(watchSent) + SentOf(w)
                && (r.Success? <==> reply.error.None?)
                && (r.Failure? ==> r.error == reply.error.value && watchIterator == null)
                && (r.Success? ==> fresh(r.value) && r.value.client == this && watchIterator == r.value)
    {
      if watchIterator != null {
        return Success(watchIterator);
      }
      if connectFault.Some? {
        return Failure(connectFault.value);
      }
      watchConn := true;
      var reply := FireOn(Handshake(id, "watch"), WatchRole, writeFault, polls);
      if reply.error.Some? {
        return Failure(reply.error.value);
      }
      var it := new WatchIterator(this);
      watchIterator := it;
      r := Success(it);
    }

    /** `NewClient(host, port, option)`: build the client with the generated
        id (or `optionId`), connect the command socket, then send the
        `[id, "command"]` handshake on it. The client is returned only when
        the connection and the handshake succeed. */
    static method NewClient(host: string, port: int, codec: Codec, generatedId: string,
                            optionId: Option<string>, connectFault: Option<Error>,
                            writeFault: Option<Error>, polls: seq<seq<Chunk>>)
      returns (r: Result<Client, Error>)
      ensures connectFault.Some? ==> r == Failure(connectFault.value)
      ensures connectFault.None? ==>
                var id := if optionId.Some? then optionId.value else generatedId;
                var w := FrameIo.Write(codec.encode, Handshake(id, "command"), writeFault);
                var (reply, after) := Fired(Slots(None, []), w, ReadPolls(Reader(codec), polls), TimedOut);
                && (r.Success? <==> reply.error.None?)
                && (r.Failure? ==> r.error == reply.error.value)
                && (r.Success? ==>
                      && fresh(r.value)
                      && r.value.id == id && r.value.host == host && r.value.port == port
                      && r.value.codec == codec
                      && r.value.conn && !r.value.watchConn && r.value.watchIterator == null
                      && r.value.State() == after
                      && r.value.commandSent == SentOf(w) && r.value.watchSent == [])
    {
      var client := new Client(host, port, codec, generatedId);
      if connectFault.Some? {
        return Failure(connectFault.value);
      }
      client.conn := true;
      client.data := None;
      client.id := if optionId.Some? then optionId.value else client.id;
      var reply := client.Fire(Handshake(client.id, "command"), writeFault, polls);
      if reply.error.Some? {
        return Failure(reply.error.value);
      }
      r := Success(client);
    }
  }

  /** The async iterator `createWatchIterator` returns; its `next` reads
      and shifts the client's watch queue. */
  class WatchIterator {
    const client: Client

    constructor (client: Client)
      ensures this.client == client
    {
      this.client := client;
    }

    /** `next()`: the front of the queue, removed from it; on an empty
        queue the promise stays pending, modelled as no value. */
    method Next() returns (v: Option<Response>)
      modifies client`watchCh
      ensures (v, client.watchCh) == ClientState.Next(old(client.watchCh))
    {
      if |client.watchCh| > 0 {
        v := Some(client.watchCh[0]);
        client.watchCh := client.watchCh[1..];
      } else {
        v := None;
      }
    }
  }
}
