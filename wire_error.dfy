/** The error kinds and the `WireError` class of src/wire/error.ts,
    together with the plain JavaScript `Error` it extends. */
module WireErrors {
  import opened Outcomes

  /** The four error kinds of a wire. */
  datatype ErrKind = NotEstablished | Empty | Terminated | CorruptMessage

  /** The numeric code the source assigns to each kind. */
  function Code(k: ErrKind): (c: int)
    ensures 1 <= c <= 4
  {
    match k
    case NotEstablished => 1
    case Empty => 2
    case Terminated => 3
    case CorruptMessage => 4
  }

  /** The kind a numeric code stands for, if any. */
  function KindOf(c: int): (k: Option<ErrKind>)
    ensures k.Some? <==> 1 <= c <= 4
  {
    if c == 1 then Some(NotEstablished)
    else if c == 2 then Some(Empty)
    else if c == 3 then Some(Terminated)
    else if c == 4 then Some(CorruptMessage)
    else None
  }

  /** An error object: either a plain JavaScript error (`Error`,
      `RangeError`, `TypeError`, ...) with its name and message, or a
      `WireError` built from a kind and a cause. */
  datatype Error =
    | JsError(name: string, message: string)
    | WireError(kind: ErrKind, cause: Error)
  {
    /** The `message` property: a `WireError` passes its cause's message
        to the `Error` constructor. */
    function Message(): string
    {
      match this
      case JsError(_, m) => m
      case WireError(_, c) => c.Message()
    }

    /** The `name` property: `WireError` does not set one, so it inherits
        "Error" from `Error.prototype`. */
    function Name(): string
    {
      match this
      case JsError(n, _) => n
      case WireError(_, _) => "Error"
    }

    /** `Error.prototype.toString`, which is what `"..." + error` produces. */
    function ToString(): (s: string)
      ensures Name() <= s
      ensures |Message()| <= |s| && s[|s| - |Message()|..] == Message()
      ensures s == "" <==> Name() == "" && Message() == ""
    {
      var n, m := Name(), Message();
      if n == "" then m else if m == "" then n else n + ": " + m
    }

    /** `getCause()`. */
    function GetCause(): Error
      requires WireError?
    {
      cause
    }

    /** `unwrap()`. */
    function Unwrap(): Error
      requires WireError?
    {
      cause
    }

    /** The innermost plain error of a chain of wire errors. */
    function Root(): (r: Error)
      ensures r.JsError?
    {
      match this
      case JsError(_, _) => this
      case WireError(_, c) => c.Root()
    }
  }

  /** `new Error(message)`. */
  function NewError(message: string): (e: Error)
  {
    JsError("Error", message)
  }

  /** `new WireError(kind, cause)`. */
  function NewWireError(kind: ErrKind, cause: Error): (e: Error)
    ensures e.WireError?
    ensures e.kind == kind && e.GetCause() == cause && e.Unwrap() == cause
    ensures e.Message() == cause.Message()
  {
    WireError(kind, cause)
  }

  /** The four codes are pairwise distinct, and each code names its kind
      back. */
  lemma CodesDistinct(k1: ErrKind, k2: ErrKind)
    ensures Code(k1) == Code(k2) <==> k1 == k2
    ensures KindOf(Code(k1)) == Some(k1)
  {
  }

  /** A wire error, however deeply it wraps other wire errors, carries
      the message of the plain error at the bottom of the chain. */
  lemma {:induction false} MessageIsRootMessage(e: Error)
    ensures e.Message() == e.Root().message
  {
    match e
    case JsError(_, _) =>
    case WireError(_, c) => MessageIsRootMessage(c);
  }

  /** Two wire errors are equal exactly when they were built from the
      same kind and the same cause: the kind and the cause are kept as
      given. */
  lemma WireErrorFieldsKept(k1: ErrKind, c1: Error, k2: ErrKind, c2: Error)
    ensures NewWireError(k1, c1) == NewWireError(k2, c2) <==> k1 == k2 && c1 == c2
  {
  }
}
