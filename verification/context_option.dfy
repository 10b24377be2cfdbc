/** `ContextOption`: the nine context options that `get()` and `set()` accept. */
module ContextOptions {
  import opened Libzmq

  /** The `ZMQ_*` option names from zmq.h; their numeric values belong to libzmq. */
  const ZMQ_IO_THREADS: Int32
  const ZMQ_MAX_SOCKETS: Int32
  const ZMQ_MAX_MSGSZ: Int32
  const ZMQ_SOCKET_LIMIT: Int32
  const ZMQ_IPV6: Int32
  const ZMQ_BLOCKY: Int32
  const ZMQ_THREAD_SCHED_POLICY: Int32
  const ZMQ_THREAD_NAME_PREFIX: Int32
  const ZMQ_MSG_T_SIZE: Int32

  datatype ContextOption =
    | IoThreads(num: Int64)
    | MaxSockets(max: Int64)
    | MaxMessageSize(size: Int64)
    | SocketLimit(limit: Int64)
    | Ipv6(enabled: bool)
    | Blocky(enabled: bool)
    | ThreadSchedPolicy(policy: Int64)
    | ThreadNamePrefix(num: Int64)
    | RuntimeMessageSize(size: Int64)
  {
    /** The two options whose payload is a Swift `Bool`. */
    predicate IsBool()
    {
      Ipv6? || Blocky?
    }

    /** The `Int` payload of the seven integer options. */
    function IntPayload(): Int64
      requires !IsBool()
    {
      match this
      case IoThreads(n) => n
      case MaxSockets(n) => n
      case MaxMessageSize(n) => n
      case SocketLimit(n) => n
      case ThreadSchedPolicy(n) => n
      case ThreadNamePrefix(n) => n
      case RuntimeMessageSize(n) => n
    }

    /** `code`: the libzmq option name for this option's tag. */
    function Code(): (c: Int32)
      ensures c in {ZMQ_IO_THREADS, ZMQ_MAX_SOCKETS, ZMQ_MAX_MSGSZ, ZMQ_SOCKET_LIMIT, ZMQ_IPV6,
                    ZMQ_BLOCKY, ZMQ_THREAD_SCHED_POLICY, ZMQ_THREAD_NAME_PREFIX, ZMQ_MSG_T_SIZE}
    {
      match this
      case IoThreads(_) => ZMQ_IO_THREADS
      case MaxSockets(_) => ZMQ_MAX_SOCKETS
      case MaxMessageSize(_) => ZMQ_MAX_MSGSZ
      case SocketLimit(_) => ZMQ_SOCKET_LIMIT
      case Ipv6(_) => ZMQ_IPV6
      case Blocky(_) => ZMQ_BLOCKY
      case ThreadSchedPolicy(_) => ZMQ_THREAD_SCHED_POLICY
      case ThreadNamePrefix(_) => ZMQ_THREAD_NAME_PREFIX
      case RuntimeMessageSize(_) => ZMQ_MSG_T_SIZE
    }

    /** `Int32(...)` on the payload does not trap. */
    predicate FitsInt32()
    {
      IsBool() || -0x8000_0000 <= IntPayload() < 0x8000_0000
    }

    /**
     * The value `set()` passes to `zmq_ctx_set`: a boolean as 1 or 0, an
     * integer narrowed to `Int32` unchanged.
     */
    function NativeValue(): (v: Int32)
      requires FitsInt32()
      ensures IsBool() ==> (v == 1 <==> enabled) && (v == 0 <==> !enabled)
      ensures !IsBool() ==> v == IntPayload()
    {
      match this
      case Ipv6(b) => if b then 1 else 0
      case Blocky(b) => if b then 1 else 0
      case _ => IntPayload()
    }

    /**
     * The option `get()` stores on success: the same tag with the queried
     * value, a boolean decoded as `value == 1`.
     */
    function WithQueried(value: Int32): (r: ContextOption)
      ensures SameTag(r, this)
      ensures r.IsBool() ==> (r.enabled <==> value == 1)
      ensures !r.IsBool() ==> r.IntPayload() == value
    {
      match this
      case IoThreads(_) => IoThreads(value)
      case MaxSockets(_) => MaxSockets(value)
      case MaxMessageSize(_) => MaxMessageSize(value)
      case SocketLimit(_) => SocketLimit(value)
      case Ipv6(_) => Ipv6(value == 1)
      case Blocky(_) => Blocky(value == 1)
      case ThreadSchedPolicy(_) => ThreadSchedPolicy(value)
      case ThreadNamePrefix(_) => ThreadNamePrefix(value)
      case RuntimeMessageSize(_) => RuntimeMessageSize(value)
    }
  }

  /** Two options with the same case, whatever their payloads. */
  predicate SameTag(a: ContextOption, b: ContextOption)
  {
    match (a, b)
    case (IoThreads(_), IoThreads(_)) => true
    case (MaxSockets(_), MaxSockets(_)) => true
    case (MaxMessageSize(_), MaxMessageSize(_)) => true
    case (SocketLimit(_), SocketLimit(_)) => true
    case (Ipv6(_), Ipv6(_)) => true
    case (Blocky(_), Blocky(_)) => true
    case (ThreadSchedPolicy(_), ThreadSchedPolicy(_)) => true
    case (ThreadNamePrefix(_), ThreadNamePrefix(_)) => true
    case (RuntimeMessageSize(_), RuntimeMessageSize(_)) => true
    case _ => false
  }

  /** An option whose value `get()` can report back: `true`, or a positive integer. */
  predicate Positive(option: ContextOption)
  {
    if option.IsBool() then option.enabled else option.IntPayload() > 0
  }

  /** `code` is a function of the tag alone: the payload never matters. */
  lemma CodeIgnoresPayload(a: ContextOption, b: ContextOption)
    requires SameTag(a, b)
    ensures a.Code() == b.Code()
    ensures a.IsBool() == b.IsBool()
  {
  }

  /**
   * Reading back what `set()` wrote: the native value passes the `> 0` guard of
   * `get()` exactly when the option is positive, and then `get()` rebuilds the
   * very option that was set. So `false` and integers <= 0 never round-trip.
   */
  lemma SetThenGet(option: ContextOption)
    requires option.FitsInt32()
    ensures option.NativeValue() > 0 <==> Positive(option)
    ensures Positive(option) ==> option.WithQueried(option.NativeValue()) == option
  {
  }

  /**
   * Writing back what a successful `get()` read: for an integer option the
   * queried value is sent unchanged; for a boolean only the value 1 survives,
   * every other value becomes 0.
   */
  lemma GetThenSet(option: ContextOption, value: Int32)
    requires value > 0
    ensures option.WithQueried(value).FitsInt32()
    ensures option.WithQueried(value).NativeValue() == value <==> (!option.IsBool() || value == 1)
    ensures option.IsBool() && value != 1 ==> option.WithQueried(value).NativeValue() == 0
  {
  }

  /**
   * What a successful `get()` can report: the tag it was given, and a value
   * that is `true`, `false` only for a queried value of at least 2, or a
   * positive integer.
   */
  lemma QueriedPositive(option: ContextOption, value: Int32)
    requires value > 0
    ensures SameTag(option.WithQueried(value), option)
    ensures !option.IsBool() ==> option.WithQueried(value).IntPayload() > 0
    ensures option.IsBool() ==> (!option.WithQueried(value).enabled <==> value >= 2)
  {
  }

  /** The queried value replaces the old payload: the payload `get()` is given plays no part. */
  lemma QueriedIgnoresPayload(a: ContextOption, b: ContextOption, value: Int32)
    requires SameTag(a, b)
    ensures a.WithQueried(value) == b.WithQueried(value)
  {
  }
}
