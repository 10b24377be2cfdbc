/** The error value thrown by every fallible operation, and the curated context reasons. */
module Errors {
  import opened Wrappers
  import opened Libzmq

  /** `EFAULT` and `EINTR` from the C library's errno.h; their values are platform-defined. */
  const EFAULT: Int32
  const EINTR: Int32

  /** `ZeroMQError`: an immutable value holding only its description. */
  datatype ZeroMQError = ZeroMQError(localizedDescription: string)

  /** The error number `init(code:)` looks up: the explicit one, else the live errno. */
  function LookedUpCode(code: Option<Int32>, native: Native): Int32
  {
    match code
    case Some(c) => c
    case None => native.errno
  }

  /**
   * `ZeroMQError(code:)`: the description libzmq gives for the looked-up code,
   * or the empty string when `zmq_strerror` yields NULL.
   */
  function FromCode(code: Option<Int32>, native: Native): (e: ZeroMQError)
    ensures var c := if code.Some? then code.value else native.errno;
            native.strerror(c).None? ==> e.localizedDescription == ""
    ensures var c := if code.Some? then code.value else native.errno;
            native.strerror(c).Some? ==> e.localizedDescription == native.strerror(c).value
  {
    match native.strerror(LookedUpCode(code, native))
    case Some(s) => ZeroMQError(s)
    case None => ZeroMQError("")
  }

  /** `ZeroMQError.underlyError`: the error described by the current errno. */
  function UnderlyError(native: Native): (e: ZeroMQError)
    ensures e == FromCode(Some(native.errno), native)
  {
    FromCode(None, native)
  }

  datatype ContextReason = InvalidContext | Interrupted
  {
    /** The fixed errno value of each reason. */
    function Code(): (c: Int32)
      ensures InvalidContext? ==> c == EFAULT
      ensures Interrupted? ==> c == EINTR
    {
      match this
      case InvalidContext => EFAULT
      case Interrupted => EINTR
    }

    /** The error built from the reason's fixed code. */
    function UnderlyError(native: Native): (e: ZeroMQError)
      ensures e == FromCode(None, native.(errno := Code()))
    {
      FromCode(Some(Code()), native)
    }

    /** The fixed human-readable text of each reason. */
    function LocalizedDescription(): (d: string)
      ensures d != ""
    {
      match this
      case InvalidContext => "The provided context was invalid."
      case Interrupted => "Termination was interrupted by a signal. It can be restarted if needed."
    }
  }

  /** An explicit code is what gets described: the live errno plays no part. */
  lemma ExplicitCodeIgnoresErrno(code: Int32, n1: Native, n2: Native)
    requires n1.strerror == n2.strerror
    ensures FromCode(Some(code), n1) == FromCode(Some(code), n2)
    ensures FromCode(Some(code), n1) == FromCode(None, n1.(errno := code))
  {
  }

  /** Without an explicit code the error is the one for the current errno. */
  lemma MissingCodeReadsErrno(native: Native)
    ensures UnderlyError(native) == FromCode(Some(native.errno), native)
    ensures forall c: Int32 :: FromCode(None, native.(errno := c)) == FromCode(Some(c), native)
  {
  }

  /** The description is what `zmq_strerror` returns, and empty exactly when it returns NULL. */
  lemma DescriptionFromStrerror(code: Option<Int32>, native: Native)
    ensures var c := if code.Some? then code.value else native.errno;
            native.strerror(c).None? ==> FromCode(code, native).localizedDescription == ""
    ensures var c := if code.Some? then code.value else native.errno;
            native.strerror(c).Some? ==> FromCode(code, native).localizedDescription == native.strerror(c).value
  {
  }

  /** `invalidContext` is EFAULT and `interrupted` is EINTR. */
  lemma ReasonCodes()
    ensures InvalidContext.Code() == EFAULT
    ensures Interrupted.Code() == EINTR
  {
  }

  /** A reason's error never depends on the errno slot, whatever other calls left there. */
  lemma ReasonErrorIgnoresErrno(reason: ContextReason, n1: Native, n2: Native)
    requires n1.strerror == n2.strerror
    ensures reason.UnderlyError(n1) == reason.UnderlyError(n2)
    ensures reason.UnderlyError(n1) == FromCode(None, n1.(errno := reason.Code()))
  {
  }

  /** Each reason has its own fixed, non-empty description. */
  lemma ReasonDescriptionsDiffer(r1: ContextReason, r2: ContextReason)
    ensures r1.LocalizedDescription() != ""
    ensures r1.LocalizedDescription() == r2.LocalizedDescription() <==> r1 == r2
  {
  }
}
