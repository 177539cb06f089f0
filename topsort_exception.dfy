/** The SDK's single error type and its string rendering. */
module TopsortExceptions {
  import opened Wrappers
  import opened Transfer

  /** The fully qualified class name, as `__CLASS__` yields it. */
  const ClassName: string := "Topsort\\TopsortException"

  /** An exception with its message, its code and the transport error it
      wraps (PHP's "previous" exception), if any. */
  datatype TopsortException = TopsortException(message: string, code: int, previous: Option<TransferError>)

  /** The previous exception's message, or "" when there is none. */
  function PreviousMessage(e: TopsortException): (m: string)
    ensures e.previous.None? ==> m == ""
    ensures e.previous.Some? ==> m == e.previous.value.message
  {
    match e.previous
    case Some(p) => p.message
    case None => ""
  }

  /** `TopsortException::__toString`: the class name, a space, the message,
      then ": " and the previous exception's message. */
  function ToString(e: TopsortException): (s: string)
    ensures |s| == |ClassName| + 1 + |e.message| + 2 + |PreviousMessage(e)|
    ensures s[..|ClassName| + 1] == ClassName + " "
    ensures s[|ClassName| + 1..|ClassName| + 1 + |e.message|] == e.message
    ensures s[|ClassName| + 1 + |e.message|..] == ": " + PreviousMessage(e)
  {
    var s := ClassName + " " + e.message + ": " + PreviousMessage(e);
    assert s[..|ClassName| + 1] == ClassName + " ";
    assert s[|ClassName| + 1..|ClassName| + 1 + |e.message|] == e.message;
    s
  }

  /** The rendering determines the previous message, given the message. */
  lemma ToStringRecoversPrevious(a: TopsortException, b: TopsortException)
    requires a.message == b.message && ToString(a) == ToString(b)
    ensures PreviousMessage(a) == PreviousMessage(b)
  {
    var n := |ClassName| + 1 + |a.message| + 2;
    assert PreviousMessage(a) == ToString(a)[n..];
    assert PreviousMessage(b) == ToString(b)[n..];
  }
}
