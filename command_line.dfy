/** Tokenising of a command line as `FireString` does it:
    `String.prototype.trim`, then `split(" ")`. */
module CommandLine {

  /** The characters `trim` removes: ECMAScript's WhiteSpace and
      LineTerminator code points. */
  predicate IsJsWhiteSpace(c: char)
  {
    || c == '\U{0009}' || c == '\U{000B}' || c == '\U{000C}' || c == '\U{0020}'
    || c == '\U{00A0}' || c == '\U{FEFF}'
    || c == '\U{1680}' || ('\U{2000}' <= c <= '\U{200A}')
    || c == '\U{202F}' || c == '\U{205F}' || c == '\U{3000}'
    || c == '\U{000A}' || c == '\U{000D}' || c == '\U{2028}' || c == '\U{2029}'
  }

  predicate AllWhiteSpace(s: string)
  {
    forall i :: 0 <= i < |s| ==> IsJsWhiteSpace(s[i])
  }

  /** The index of the first character at or after i that is not white
      space, or |s|. */
  function SkipForward(s: string, i: nat): (j: nat)
    requires i <= |s|
    ensures i <= j <= |s|
    ensures j == |s| || !IsJsWhiteSpace(s[j])
    decreases |s| - i
  {
    if i < |s| && IsJsWhiteSpace(s[i]) then SkipForward(s, i + 1) else i
  }

  /** The index just after the last character before j, and not before
      lo, that is not white space, or lo. */
  function SkipBackward(s: string, lo: nat, j: nat): (k: nat)
    requires lo <= j <= |s|
    ensures lo <= k <= j
    ensures k == lo || !IsJsWhiteSpace(s[k - 1])
    decreases j
  {
    if j > lo && IsJsWhiteSpace(s[j - 1]) then SkipBackward(s, lo, j - 1) else j
  }

  /** Everything `SkipForward` passes over is white space. */
  lemma {:induction false} SkipForwardWhiteSpace(s: string, i: nat)
    requires i <= |s|
    ensures forall k :: i <= k < SkipForward(s, i) ==> IsJsWhiteSpace(s[k])
    decreases |s| - i
  {
    if i < |s| && IsJsWhiteSpace(s[i]) {
      SkipForwardWhiteSpace(s, i + 1);
    }
  }

  /** Everything `SkipBackward` passes over is white space. */
  lemma {:induction false} SkipBackwardWhiteSpace(s: string, lo: nat, j: nat)
    requires lo <= j <= |s|
    ensures forall k :: SkipBackward(s, lo, j) <= k < j ==> IsJsWhiteSpace(s[k])
    decreases j
  {
    if j > lo && IsJsWhiteSpace(s[j - 1]) {
      SkipBackwardWhiteSpace(s, lo, j - 1);
    }
  }

  /** Where the trimmed part of s starts and ends. */
  function TrimStartIndex(s: string): nat
    ensures TrimStartIndex(s) <= |s|
  {
    SkipForward(s, 0)
  }

  function TrimEndIndex(s: string): nat
    ensures TrimStartIndex(s) <= TrimEndIndex(s) <= |s|
  {
    SkipBackward(s, TrimStartIndex(s), |s|)
  }

  /** `s.trim()`: s without its leading and trailing white space. */
  function Trim(s: string): (r: string)
    ensures r == [] || (!IsJsWhiteSpace(r[0]) && !IsJsWhiteSpace(r[|r| - 1]))
  {
    s[TrimStartIndex(s)..TrimEndIndex(s)]
  }

  /** Only white space lies before and after the trimmed part. */
  lemma TrimSurround(s: string)
    ensures AllWhiteSpace(s[..TrimStartIndex(s)]) && AllWhiteSpace(s[TrimEndIndex(s)..])
  {
    var i, j := TrimStartIndex(s), TrimEndIndex(s);
    SkipForwardWhiteSpace(s, 0);
    SkipBackwardWhiteSpace(s, i, |s|);
    forall k | 0 <= k < i
      ensures IsJsWhiteSpace(s[..i][k])
    {
      assert s[..i][k] == s[k];
    }
    forall k | 0 <= k < |s| - j
      ensures IsJsWhiteSpace(s[j..][k])
    {
      assert s[j..][k] == s[j + k];
    }
  }

  /** A line that neither starts nor ends with white space is its own
      trim. */
  lemma TrimUntrimmed(s: string)
    requires s == [] || (!IsJsWhiteSpace(s[0]) && !IsJsWhiteSpace(s[|s| - 1]))
    ensures Trim(s) == s
  {
    assert TrimStartIndex(s) == 0;
    assert TrimEndIndex(s) == |s|;
  }

  /** Trimming twice is trimming once. */
  lemma TrimIdempotent(s: string)
    ensures Trim(Trim(s)) == Trim(s)
  {
    TrimUntrimmed(Trim(s));
  }

  /** `s.split(" ")`: the pieces between single spaces, so a run of n
      spaces yields n - 1 empty pieces and the empty string yields [""]. */
  function Split(s: string): (tokens: seq<string>)
    ensures |tokens| >= 1
    ensures forall k :: 0 <= k < |tokens| ==> ' ' !in tokens[k]
  {
    if s == [] then [""]
    else
      var rest := Split(s[1..]);
      if s[0] == ' ' then [""] + rest
      else [[s[0]] + rest[0]] + rest[1..]
  }

  /** `tokens.join(" ")`. */
  function Join(tokens: seq<string>): string
    requires |tokens| >= 1
  {
    if |tokens| == 1 then tokens[0] else tokens[0] + " " + Join(tokens[1..])
  }

  /** Prepending a character to the first token prepends it to the join. */
  lemma {:induction false} JoinConsFirst(c: char, tokens: seq<string>)
    requires |tokens| >= 1
    ensures Join([[c] + tokens[0]] + tokens[1..]) == [c] + Join(tokens)
  {
    var ts := [[c] + tokens[0]] + tokens[1..];
    assert |ts| == |tokens| && ts[0] == [c] + tokens[0];
    if |tokens| > 1 {
      assert ts[1..] == tokens[1..];
      var rest := Join(tokens[1..]);
      assert Join(ts) == ([c] + tokens[0]) + " " + rest;
      assert ([c] + tokens[0]) + " " + rest == [c] + (tokens[0] + " " + rest);
    }
  }

  /** Splitting loses nothing: the pieces joined with single spaces give
      the line back. */
  lemma {:induction false} JoinSplit(s: string)
    ensures Join(Split(s)) == s
  {
    if s != [] {
      var rest := Split(s[1..]);
      JoinSplit(s[1..]);
      if s[0] == ' ' {
        assert ([""] + rest)[1..] == rest;
      } else {
        JoinConsFirst(s[0], rest);
      }
      assert s == [s[0]] + s[1..];
    }
  }

  /** Splitting a join of space-free pieces gives the pieces back. */
  lemma {:induction false} SplitJoin(tokens: seq<string>)
    requires |tokens| >= 1
    requires forall k :: 0 <= k < |tokens| ==> ' ' !in tokens[k]
    ensures Split(Join(tokens)) == tokens
  {
    if |tokens| == 1 {
      SplitSpaceFree(tokens[0]);
    } else {
      SplitJoin(tokens[1..]);
      SplitPrefixed(tokens[0], Join(tokens[1..]));
      assert [tokens[0]] + tokens[1..] == tokens;
    }
  }

  /** A space-free string is one piece. */
  lemma {:induction false} SplitSpaceFree(t: string)
    requires ' ' !in t
    ensures Split(t) == [t]
  {
    if t != [] {
      SplitSpaceFree(t[1..]);
      assert t == [t[0]] + t[1..];
    }
  }

  /** Splitting `t + " " + u` for a space-free t gives t, then u's pieces. */
  lemma {:induction false} SplitPrefixed(t: string, u: string)
    requires ' ' !in t
    ensures Split(t + " " + u) == [t] + Split(u)
  {
    if t == [] {
      assert t + " " + u == [' '] + u;
      assert ([' '] + u)[1..] == u;
    } else {
      var s := t + " " + u;
      assert s[1..] == t[1..] + " " + u;
      SplitPrefixed(t[1..], u);
      assert [t[0]] + t[1..] == t;
    }
  }

  /** `trim().split(" ")`: every line yields at least one token. */
  function Tokenize(line: string): (tokens: seq<string>)
    ensures |tokens| >= 1
    ensures Join(tokens) == Trim(line)
  {
    JoinSplit(Trim(line));
    Split(Trim(line))
  }
}
