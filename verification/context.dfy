/** `ZeroMQ.Context`: the owner of one libzmq context handle. */
module ZeroMQContext {
  import opened Wrappers
  import opened Libzmq
  import opened Errors
  import opened ContextOptions

  /**
   * One `destroy()` applied to the handle `h`: the handle it leaves and what it
   * throws. A nil handle fails with `invalidContext`; otherwise the handle is
   * cleared exactly when the native release reports 0.
   */
  function DestroyStep(h: Option<Handle>, native: Native): (step: (Option<Handle>, Outcome<ZeroMQError>))
    ensures h.None? ==> step == (None, Fail(InvalidContext.UnderlyError(native)))
    ensures h.Some? ==> (step.1.Pass? <==> native.ctxDestroy(h.value) == 0)
    ensures h.Some? && step.1.Fail? ==> step.1.error == UnderlyError(native)
    ensures step.0 == if step.1.Pass? then None else h
  {
    match h
    case None => (None, Fail(InvalidContext.UnderlyError(native)))
    case Some(c) =>
      if native.ctxDestroy(c) == 0 then (None, Pass) else (h, Fail(UnderlyError(native)))
  }

  /** What a sequence of `destroy()` calls throws, the i-th answered by `natives[i]`. */
  function DestroyRun(h: Option<Handle>, natives: seq<Native>): (outcomes: seq<Outcome<ZeroMQError>>)
    ensures |outcomes| == |natives|
    decreases |natives|
  {
    if natives == [] then []
    else
      var step := DestroyStep(h, natives[0]);
      [step.1] + DestroyRun(step.0, natives[1..])
  }

  /** How many calls in `outcomes` succeeded. */
  function Passes(outcomes: seq<Outcome<ZeroMQError>>): nat
    decreases |outcomes|
  {
    if outcomes == [] then 0
    else (if outcomes[0].Pass? then 1 else 0) + Passes(outcomes[1..])
  }

  /** Once the handle is gone, every later `destroy()` throws `invalidContext`. */
  lemma {:induction false} ReleasedStaysInvalid(natives: seq<Native>)
    ensures forall i :: 0 <= i < |natives| ==>
      DestroyRun(None, natives)[i] == Fail(InvalidContext.UnderlyError(natives[i]))
    decreases |natives|
  {
    if natives != [] {
      ReleasedStaysInvalid(natives[1..]);
      var run := DestroyRun(None, natives);
      assert run == [Fail(InvalidContext.UnderlyError(natives[0]))] + DestroyRun(None, natives[1..]);
      forall i | 0 < i < |natives|
        ensures run[i] == Fail(InvalidContext.UnderlyError(natives[i]))
      {
        assert run[i] == DestroyRun(None, natives[1..])[i - 1];
        assert natives[1..][i - 1] == natives[i];
      }
    }
  }

  /** A run that starts from a nil handle never succeeds. */
  lemma {:induction false} NoPassFromNil(natives: seq<Native>)
    ensures Passes(DestroyRun(None, natives)) == 0
    decreases |natives|
  {
    if natives != [] {
      NoPassFromNil(natives[1..]);
      var run := DestroyRun(None, natives);
      assert run[1..] == DestroyRun(None, natives[1..]);
    }
  }

  /** The context is released at most once, however often `destroy()` is called. */
  lemma {:induction false} ReleasedAtMostOnce(h: Option<Handle>, natives: seq<Native>)
    ensures Passes(DestroyRun(h, natives)) <= if h.Some? then 1 else 0
    decreases |natives|
  {
    if natives != [] {
      var step := DestroyStep(h, natives[0]);
      var run := DestroyRun(h, natives);
      assert run[1..] == DestroyRun(step.0, natives[1..]);
      if step.1.Pass? {
        NoPassFromNil(natives[1..]);
      } else {
        ReleasedAtMostOnce(step.0, natives[1..]);
      }
    }
  }

  /**
   * Starting from a live handle, call i succeeds exactly when libzmq accepts
   * the release at call i and refused it at every earlier call: a failed
   * release leaves the handle in place, so a retry can still succeed.
   */
  lemma {:induction false} FirstAcceptedReleaseWins(c: Handle, natives: seq<Native>)
    ensures forall i :: 0 <= i < |natives| ==>
      (DestroyRun(Some(c), natives)[i].Pass? <==>
        natives[i].ctxDestroy(c) == 0 && forall j :: 0 <= j < i ==> natives[j].ctxDestroy(c) != 0)
    decreases |natives|
  {
    if natives != [] {
      var step := DestroyStep(Some(c), natives[0]);
      var run := DestroyRun(Some(c), natives);
      var rest := natives[1..];
      assert run == [step.1] + DestroyRun(step.0, rest);
      if step.1.Pass? {
        ReleasedStaysInvalid(rest);
        forall i | 0 < i < |natives|
          ensures !run[i].Pass?
        {
          assert run[i] == DestroyRun(None, rest)[i - 1];
        }
      } else {
        FirstAcceptedReleaseWins(c, rest);
        forall i | 0 < i < |natives|
          ensures run[i].Pass? <==>
            natives[i].ctxDestroy(c) == 0 && forall j :: 0 <= j < i ==> natives[j].ctxDestroy(c) != 0
        {
          assert run[i] == DestroyRun(Some(c), rest)[i - 1];
          assert rest[i - 1] == natives[i];
          assert forall j :: 0 <= j < i - 1 ==> rest[j] == natives[j + 1];
        }
      }
    }
  }

  /**
   * The wrapper. `handle` is the pointer Swift keeps in `context`; the ghost
   * fields record the handle libzmq allocated, every handle passed to
   * `zmq_ctx_destroy`, and how many of those calls succeeded.
   */
  class Context {
    var handle: Option<Handle>
    ghost const origin: Handle
    ghost var releaseCalls: seq<Handle>
    ghost var releases: nat

    /** The handle is never replaced, only cleared, and it is cleared by exactly one successful release. */
    ghost predicate Valid()
      reads this
    {
      (handle.Some? ==> handle.value == origin) &&
      (forall i :: 0 <= i < |releaseCalls| ==> releaseCalls[i] == origin) &&
      releases == (if handle.None? then 1 else 0)
    }

    /** The part of `init()` that runs once `zmq_ctx_new` has produced a handle. */
    constructor (h: Handle)
      ensures Valid()
      ensures handle == Some(h) && origin == h
      ensures releaseCalls == [] && releases == 0
    {
      handle := Some(h);
      origin := h;
      releaseCalls := [];
      releases := 0;
    }

    /** `init()`: succeeds only when `zmq_ctx_new` returns a non-nil handle, which it then holds. */
    static method New(native: Native) returns (r: Result<Context, ZeroMQError>)
      ensures r.Success? <==> native.ctxNew.Some?
      ensures r.Success? ==>
        fresh(r.value) && r.value.Valid() && r.value.handle == native.ctxNew && r.value.releaseCalls == []
      ensures r.Failure? ==> r.error == UnderlyError(native)
    {
      var pointer := native.ctxNew;
      if pointer.None? {
        return Failure(UnderlyError(native));
      }
      var context := new Context(pointer.value);
      r := Success(context);
    }

    /**
     * `destroy()`: a nil handle throws `invalidContext` without any native call;
     * otherwise the handle is released and cleared only when libzmq returns 0,
     * and left in place, with the current errno thrown, when it does not.
     */
    method Destroy(native: Native) returns (outcome: Outcome<ZeroMQError>)
      requires Valid()
      modifies this
      ensures Valid()
      ensures (handle, outcome) == DestroyStep(old(handle), native)
      ensures releaseCalls == if old(handle).Some? then old(releaseCalls) + [old(handle).value] else old(releaseCalls)
      ensures releases == old(releases) + (if outcome.Pass? then 1 else 0) && releases <= 1
    {
      if handle.None? {
        return Fail(InvalidContext.UnderlyError(native));
      }
      var context := handle.value;
      releaseCalls := releaseCalls + [context];
      if native.ctxDestroy(context) != 0 {
        return Fail(UnderlyError(native));
      }
      handle := None;
      releases := releases + 1;
      outcome := Pass;
    }

    /** `deinit`: a best-effort `destroy()` whose error, if any, is discarded. */
    method Deinit(native: Native)
      requires Valid()
      modifies this
      ensures Valid()
      ensures handle == DestroyStep(old(handle), native).0
      ensures releaseCalls == if old(handle).Some? then old(releaseCalls) + [old(handle).value] else old(releaseCalls)
      ensures releases == old(releases) + (if old(handle).Some? && handle.None? then 1 else 0) && releases <= 1
    {
      var _ := Destroy(native);
    }

    /**
     * `get(_:)`: queries the option's code on the current handle, nil or not.
     * A result <= 0 throws and leaves the option as it was; otherwise the
     * option keeps its tag and takes the queried value.
     */
    method Get(option: ContextOption, native: Native) returns (updated: ContextOption, outcome: Outcome<ZeroMQError>)
      ensures var value := native.ctxGet(handle, option.Code());
        (outcome.Pass? <==> value > 0) &&
        (outcome.Pass? ==> updated == option.WithQueried(value)) &&
        (outcome.Fail? ==> updated == option && outcome.error == UnderlyError(native))
      ensures outcome.Pass? ==> SameTag(updated, option)
      ensures outcome.Pass? && !updated.IsBool() ==> updated.IntPayload() > 0
    {
      var value := native.ctxGet(handle, option.Code());
      if value <= 0 {
        return option, Fail(UnderlyError(native));
      }
      match option {
        case IoThreads(_) => updated := IoThreads(value);
        case MaxSockets(_) => updated := MaxSockets(value);
        case MaxMessageSize(_) => updated := MaxMessageSize(value);
        case SocketLimit(_) => updated := SocketLimit(value);
        case Ipv6(_) => updated := Ipv6(value == 1);
        case Blocky(_) => updated := Blocky(value == 1);
        case ThreadSchedPolicy(_) => updated := ThreadSchedPolicy(value);
        case ThreadNamePrefix(_) => updated := ThreadNamePrefix(value);
        case RuntimeMessageSize(_) => updated := RuntimeMessageSize(value);
      }
      outcome := Pass;
    }

    /**
     * `set(for:)`: writes the option's native value under its code on the
     * current handle, nil or not, and throws exactly when libzmq returns nonzero.
     */
    method Set(option: ContextOption, native: Native) returns (outcome: Outcome<ZeroMQError>)
      requires option.FitsInt32()
      ensures outcome.Pass? <==> native.ctxSet(handle, option.Code(), option.NativeValue()) == 0
      ensures outcome.Fail? ==> outcome.error == UnderlyError(native)
    {
      var code: Int32;
      match option {
        case IoThreads(num) => code := native.ctxSet(handle, option.Code(), num);
        case MaxSockets(max) => code := native.ctxSet(handle, option.Code(), max);
        case MaxMessageSize(size) => code := native.ctxSet(handle, option.Code(), size);
        case SocketLimit(limit) => code := native.ctxSet(handle, option.Code(), limit);
        case Ipv6(enabled) => code := native.ctxSet(handle, option.Code(), if enabled then 1 else 0);
        case Blocky(enabled) => code := native.ctxSet(handle, option.Code(), if enabled then 1 else 0);
        case ThreadSchedPolicy(policy) => code := native.ctxSet(handle, option.Code(), policy);
        case ThreadNamePrefix(num) => code := native.ctxSet(handle, option.Code(), num);
        case RuntimeMessageSize(size) => code := native.ctxSet(handle, option.Code(), size);
      }
      if code != 0 {
        return Fail(UnderlyError(native));
      }
      outcome := Pass;
    }
  }
}
