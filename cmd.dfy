/** src/cmd.ts: the table of command names a command line may start with. */
module Cmd {

  /** The entries of `cmd`, key and value, in declaration order. */
  const Entries: seq<(string, string)> := [
    ("HANDSHAKE", "HANDSHAKE"),
    ("SET", "SET"),
    ("GET", "GET"),
    ("DECR", "DECR"),
    ("DECRBY", "DECRBY"),
    ("DEL", "DEL"),
    ("ECHO", "ECHO"),
    ("EXISTS", "EXISTS"),
    ("EXPIRE", "EXPIRE"),
    ("EXPIREAT", "EXPIREAT"),
    ("EXPIRETIME", "EXPIRETIME"),
    ("FLUSHDB", "FLUSHDB"),
    ("GETDEL", "GETDEL"),
    ("GETEX", "GETEX"),
    ("GET.WATCH", "GET.WATCH"),
    ("HGET", "HGET"),
    ("HGETALL", "HGETALL"),
    ("HGETALL.WATCH", "HGETALL.WATCH"),
    ("HSET", "HSET"),
    ("INCR", "INCR"),
    ("INCRBY", "INCRBY"),
    ("PING", "PING"),
    ("TTL", "TTL"),
    ("TYPE", "TYPE"),
    ("UNWATCH", "UNWATCH")
  ]

  /** `Object.values(cmd)`. */
  function Values(): (vs: seq<string>)
    ensures |vs| == |Entries|
    ensures forall i :: 0 <= i < |vs| ==> vs[i] == Entries[i].1
  {
    seq(|Entries|, i requires 0 <= i < |Entries| => Entries[i].1)
  }

  /** A name the table holds. */
  predicate IsCmd(name: string)
  {
    name in Values()
  }

  /** Every key is its own value, so keys and values name the same set. */
  lemma KeysAreValues()
    ensures forall i :: 0 <= i < |Entries| ==> Entries[i].0 == Entries[i].1
  {
  }

  /** The table holds 25 distinct, non-empty names. */
  lemma {:induction false} TableDistinct()
    ensures |Values()| == 25
    ensures forall i, j :: 0 <= i < j < |Values()| ==> Values()[i] != Values()[j]
    ensures forall i :: 0 <= i < |Values()| ==> Values()[i] != ""
  {
  }

  /** Among the names are the handshake and the watch-related commands;
      the empty name is not one of them. */
  lemma TableNames()
    ensures !IsCmd("")
    ensures IsCmd("HANDSHAKE") && IsCmd("GET")
    ensures IsCmd("GET.WATCH") && IsCmd("HGETALL.WATCH") && IsCmd("UNWATCH")
  {
    TableDistinct();
    assert Values()[0] == "HANDSHAKE";
    assert Values()[2] == "GET";
    assert Values()[14] == "GET.WATCH";
    assert Values()[17] == "HGETALL.WATCH";
    assert Values()[24] == "UNWATCH";
  }
}
