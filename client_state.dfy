/** The state both clients (src/index.ts and the older index.ts) keep per
    client and change from their socket handlers: the single
    pending-response slot `data` and the watch queue `watchCh`. The
    handlers are the same in both files; they differ only in the `read`
    they call, so they are stated here over the pair `read` returned. */
module ClientState {
  import opened Outcomes
  import opened WireErrors
  import opened Messages

  datatype Slots = Slots(data: Option<Response>, watchCh: seq<Response>)

  /** `simpleData`: the command connection's data handler. An error from
      `read` leaves everything as it was; otherwise the slot takes the
      response. */
  function SimpleData(s: Slots, rd: Reply<Response>): (t: Slots)
    ensures t.watchCh == s.watchCh
    ensures rd.error.Some? ==> t == s
    ensures rd.error.None? ==> t.data == rd.response
  {
    if rd.error.Some? then s else s.(data := rd.response)
  }

  /** The responses `simpleWatch` appends for one `read` result: the
      response, when `read` reported no error. */
  function Pushed(rd: Reply<Response>): (p: seq<Response>)
    ensures |p| <= 1
    ensures p != [] <==> rd.error.None? && rd.response.Some?
    ensures p != [] ==> p[0] == rd.response.value
  {
    if rd.error.None? && rd.response.Some? then [rd.response.value] else []
  }

  /** `simpleWatch`: the watch connection's data handler. The slot always
      takes the response, null when `read` failed; the queue grows at
      its end only when `read` succeeded. */
  function SimpleWatch(s: Slots, rd: Reply<Response>): (t: Slots)
    ensures t.data == rd.response
    ensures t.watchCh == s.watchCh + Pushed(rd)
  {
    Slots(rd.response, s.watchCh + Pushed(rd))
  }

  /** One step of the watch iterator's `next`: the front of the queue and
      the rest, or nothing yet (the promise is still pending). */
  function Next(q: seq<Response>): (r: (Option<Response>, seq<Response>))
    ensures q == [] ==> r == (None, q)
    ensures q != [] ==> r.0 == Some(q[0]) && [q[0]] + r.1 == q
  {
    if q == [] then (None, q) else (Some(q[0]), q[1..])
  }

  /** A `data` event as the socket delivers it: the bytes, and on which
      connection. */
  datatype Chunk = OnCommand(bytes: Bytes) | OnWatch(bytes: Bytes)

  /** A `data` event on one of the two connections, with what `read`
      made of its bytes. */
  datatype Arrival = CommandData(rd: Reply<Response>) | WatchData(rd: Reply<Response>)

  /** What the handler of a connection receives: the event's bytes run
      through the client's `read`. */
  function ReadChunk(read: Bytes -> Reply<Response>, c: Chunk): (a: Arrival)
    ensures a.rd == read(c.bytes)
    ensures a.CommandData? <==> c.OnCommand?
  {
    match c
    case OnCommand(b) => CommandData(read(b))
    case OnWatch(b) => WatchData(read(b))
  }

  /** The events of one poll window, read. */
  function ReadWindow(read: Bytes -> Reply<Response>, window: seq<Chunk>): (r: seq<Arrival>)
    ensures |r| == |window|
    ensures forall j :: 0 <= j < |window| ==> r[j] == ReadChunk(read, window[j])
  {
    seq(|window|, j requires 0 <= j < |window| => ReadChunk(read, window[j]))
  }

  /** The events of every poll window, read. */
  function ReadPolls(read: Bytes -> Reply<Response>, polls: seq<seq<Chunk>>): (r: seq<seq<Arrival>>)
    ensures |r| == |polls|
    ensures forall i :: 0 <= i < |polls| ==> r[i] == ReadWindow(read, polls[i])
  {
    seq(|polls|, i requires 0 <= i < |polls| => ReadWindow(read, polls[i]))
  }

  function Deliver(s: Slots, a: Arrival): (t: Slots)
    ensures s.watchCh <= t.watchCh
  {
    match a
    case CommandData(rd) => SimpleData(s, rd)
    case WatchData(rd) => SimpleWatch(s, rd)
  }

  /** The handlers run for every event of one poll window, in order; the
      slot is not looked at in between. */
  function DeliverAll(s: Slots, window: seq<Arrival>): (t: Slots)
    ensures s.watchCh <= t.watchCh
    decreases |window|
  {
    if window == [] then s else DeliverAll(Deliver(s, window[0]), window[1..])
  }

  /** Handling two runs of events one after the other is handling their
      concatenation. */
  lemma {:induction false} DeliverAllAppend(s: Slots, a: seq<Arrival>, b: seq<Arrival>)
    ensures DeliverAll(s, a + b) == DeliverAll(DeliverAll(s, a), b)
    decreases |a|
  {
    if a != [] {
      assert (a + b)[0] == a[0] && (a + b)[1..] == a[1..] + b;
      DeliverAllAppend(Deliver(s, a[0]), a[1..], b);
    } else {
      assert a + b == b;
    }
  }

  /** The wait in `fire`: the slot is checked, and while it is empty the
      events of the next 100 ms window are all handled before it is
      checked again; when the windows run out the wait times out. Waiting
      only ever appends to the watch queue. */
  function Await(s: Slots, polls: seq<seq<Arrival>>): (t: Slots)
    ensures s.watchCh <= t.watchCh
    decreases |polls|
  {
    if s.data.Some? || polls == [] then s
    else Await(DeliverAll(s, polls[0]), polls[1..])
  }

  /** A response already pending when `fire` starts waiting is returned
      at once, and no event is handled. */
  lemma AwaitPending(s: Slots, polls: seq<seq<Arrival>>)
    requires s.data.Some?
    ensures Await(s, polls) == s
  {
  }

  /** With the slot empty, a window whose last event is a command
      response that decodes ends the wait with that response, whatever
      came before it in the window and whatever windows follow. */
  lemma {:induction false} AwaitAnswer(s: Slots, before: seq<Arrival>, resp: Response, later: seq<seq<Arrival>>)
    requires s.data.None?
    ensures Await(s, [before + [CommandData(Reply(Some(resp), None))]] + later).data == Some(resp)
  {
    var last := CommandData(Reply(Some(resp), None));
    var polls := [before + [last]] + later;
    DeliverAllAppend(s, before, [last]);
    var t := DeliverAll(s, before + [last]);
    assert DeliverAll(DeliverAll(s, before), [last]) == Deliver(DeliverAll(s, before), last);
    assert t.data == Some(resp);
    assert polls[0] == before + [last];
  }

  /** The slot is checked only between windows: a decoded command
      response followed, in the same window, by a watch event that fails
      to read is overwritten with null and never seen by `fire`. */
  lemma {:induction false} ClearedWithinWindow(s: Slots, resp: Response, e: Error)
    requires s.data.None?
    ensures Await(s, [[CommandData(Reply(Some(resp), None)), WatchData(Reply(None, Some(e)))]]).data.None?
  {
    var w := [CommandData(Reply(Some(resp), None)), WatchData(Reply(None, Some(e)))];
    var t := Deliver(Deliver(s, w[0]), w[1]);
    assert DeliverAll(s, w) == DeliverAll(Deliver(s, w[0]), w[1..]);
    assert w[1..][1..] == [];
    assert DeliverAll(s, w) == t;
    var polls: seq<seq<Arrival>> := [w];
    assert polls[1..] == [];
  }

  /** All the events of a list of windows, in order. */
  function Flatten(polls: seq<seq<Arrival>>): seq<Arrival>
    decreases |polls|
  {
    if polls == [] then [] else polls[0] + Flatten(polls[1..])
  }

  /** A wait that times out started with an empty slot and handled every
      event of every window, in order. */
  lemma {:induction false} AwaitTimeout(s: Slots, polls: seq<seq<Arrival>>)
    requires Await(s, polls).data.None?
    ensures s.data.None?
    ensures Await(s, polls) == DeliverAll(s, Flatten(polls))
    decreases |polls|
  {
    if polls != [] {
      AwaitTimeout(DeliverAll(s, polls[0]), polls[1..]);
      DeliverAllAppend(s, polls[0], Flatten(polls[1..]));
    }
  }

  /** `fire` once its write has been attempted: a write error is returned
      as it is, with nothing waited for; otherwise the wait runs and either
      hands out the response it found in the slot, emptying the slot, or
      gives up with `timeout`. Either way exactly one side is set and the
      watch queue has only grown. */
  function Fired(s: Slots, w: WriteEffect, polls: seq<seq<Arrival>>, timeout: Error): (r: (Reply<Response>, Slots))
    ensures r.0.ExactlyOne()
    ensures w.result.Some? ==> r == (Reply(None, w.result), s)
    ensures w.result.None? ==> r.0.response == Await(s, polls).data
    ensures w.result.None? && r.0.response.None? ==> r.0.error == Some(timeout)
    ensures r.0.response.Some? ==> r.1.data.None?
    ensures s.watchCh <= r.1.watchCh
  {
    if w.result.Some? then (Reply(None, w.result), s)
    else
      var after := Await(s, polls);
      if after.data.Some? then (Reply(after.data, None), after.(data := None))
      else (Reply(None, Some(timeout)), after)
  }

  /** What happens to a client over time: data events on either
      connection, and calls to the iterator's `next`. */
  datatype Event = Arrive(a: Arrival) | Pull

  datatype Trace = Trace(final: Slots, yielded: seq<Response>)

  /** The state after a run of events, and the responses `next` yielded. */
  function Run(s: Slots, events: seq<Event>): Trace
    decreases |events|
  {
    if events == [] then Trace(s, [])
    else
      var t := Run(s, events[..|events| - 1]);
      match events[|events| - 1]
      case Arrive(a) => Trace(Deliver(t.final, a), t.yielded)
      case Pull =>
        var (v, q) := Next(t.final.watchCh);
        Trace(t.final.(watchCh := q), t.yielded + (if v.Some? then [v.value] else []))
  }

  /** The responses the watch handler queued during a run, in arrival order. */
  function Delivered(events: seq<Event>): seq<Response>
    decreases |events|
  {
    if events == [] then []
    else
      Delivered(events[..|events| - 1])
      + match events[|events| - 1]
        case Arrive(WatchData(rd)) => Pushed(rd)
        case _ => []
  }

  /** The watch queue is first-in first-out: what `next` has yielded,
      followed by what is still queued, is exactly what was queued at the
      start followed by what the watch handler queued, in order. */
  lemma {:induction false} WatchFifo(s: Slots, events: seq<Event>)
    ensures Run(s, events).yielded + Run(s, events).final.watchCh == s.watchCh + Delivered(events)
  {
    if events != [] {
      var init := events[..|events| - 1];
      WatchFifo(s, init);
      var t := Run(s, init);
      match events[|events| - 1] {
        case Arrive(a) =>
          if a.WatchData? {
            var p := Pushed(a.rd);
            assert t.yielded + (t.final.watchCh + p) == (t.yielded + t.final.watchCh) + p;
          }
        case Pull =>
          if t.final.watchCh != [] {
            var q := t.final.watchCh;
            assert (t.yielded + [q[0]]) + q[1..] == t.yielded + q;
          }
      }
    }
  }

  /** Hence `next` yields responses in the order the watch connection
      delivered them: the yielded sequence is a prefix of the deliveries. */
  lemma YieldedInArrivalOrder(events: seq<Event>, data: Option<Response>)
    ensures Run(Slots(data, []), events).yielded <= Delivered(events)
  {
    WatchFifo(Slots(data, []), events);
    var t := Run(Slots(data, []), events);
    assert Delivered(events) == t.yielded + t.final.watchCh;
    assert Delivered(events)[..|t.yielded|] == t.yielded;
  }
}
