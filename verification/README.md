# ZeroMQ.swift context core, modelled in Dafny

ZeroMQ.swift is a thin Swift wrapper over the C library libzmq. This project models its core, which covers three things:

- **`ZeroMQ.Context`** (`context.dfy`, module `ZeroMQContext`) is a class that owns one optional libzmq context pointer. `init` succeeds only when `zmq_ctx_new` returns a non-nil pointer. `destroy` throws `invalidContext` on a nil pointer and never calls `zmq_ctx_destroy` in that case; building that error still calls `zmq_strerror(EFAULT)`. Otherwise it clears the pointer only when `zmq_ctx_destroy` returns 0, and on a nonzero result it keeps the pointer so the caller can retry. `deinit` is a best-effort `destroy` that discards any error. `get` and `set` read and write one option.
- **`ContextOption`** (`context_option.dfy`, module `ContextOptions`) is the closed set of nine options. Each tag has a fixed libzmq option name. `set` sends a `Bool` as 1/0 and an `Int` narrowed to `Int32`. `get` treats a native result ≤ 0 as failure. On success it rebuilds the same tag with the queried value, and a `Bool` decodes as `value == 1`.
- **`ZeroMQError` and `ContextReason`** (`errors.dfy`, module `Errors`). An error holds only a description. That description is `zmq_strerror` of the explicit code, or of the current `zmq_errno()` when no code is given. It is empty when `zmq_strerror` yields NULL. The two curated reasons have fixed codes (`EFAULT`, `EINTR`) and fixed texts.

libzmq itself (`libzmq.dfy`, module `Libzmq`) is an oracle. The datatype `Native` records what `zmq_ctx_new`, `zmq_ctx_destroy`, `zmq_ctx_get`, `zmq_ctx_set`, `zmq_errno` and `zmq_strerror` answer during one operation. Each wrapper operation takes one `Native` value. The four calls that take arguments (`zmq_ctx_destroy`, `zmq_ctx_get`, `zmq_ctx_set` and `zmq_strerror`) are total functions of those arguments. So a contract can say which handle, option code, value and error number the wrapper passed.

The class `Context` keeps the Swift field `context` as `handle: Option<Handle>`. It also keeps three ghost fields:

- `origin`: the allocated handle;
- `releaseCalls`: every handle passed to `zmq_ctx_destroy`;
- `releases`: the number of releases that succeeded.

`Valid()` states that the handle is never replaced, only cleared. It also states that the handle is cleared exactly when one release has succeeded. `DestroyStep` is the specification of one `destroy`, and `Context.Destroy` is proved against it. `DestroyRun` chains `DestroyStep` over a sequence of calls. The lemmas about `DestroyRun` state the lifecycle guarantees: at most one release, later calls throw `invalidContext`, and retry after a failed release.

Two behaviours of the code differ from what one might expect of a wrapper. The model follows the code in both cases:

- `get` and `set` do **not** check for a nil handle. They pass whatever the context holds, nil included, to libzmq (ZeroMQ/Source/ZeroMQ+Context.swift:65, 85-101). So after `destroy` their outcome is whatever libzmq answers for a NULL context, not `invalidContext`.
- `get` cannot report a zero or negative value. Because of that, `set(.ipv6(false))` or `set(.blocky(false))` followed by `get` always throws, and so does any integer option set to a value ≤ 0 (`ContextOptions.SetThenGet`). A successful `get` reports `false` only for a native value ≥ 2 (`ContextOptions.QueriedPositive`).

## Model

| member | source | states |
|---|---|---|
| `ZeroMQContext.Context.New` | ZeroMQ/Source/ZeroMQ+Context.swift:41-46 | succeeds exactly when `zmq_ctx_new` returns a non-nil pointer; the new context is valid, holds that pointer and has made no release call; a nil allocation throws the errno error and yields no context |
| `ZeroMQContext.Context.constructor` | ZeroMQ/Source/ZeroMQ+Context.swift:42 | the context holds the allocated handle, has not released it and satisfies the lifecycle invariant |
| `ZeroMQContext.Context.Destroy` | ZeroMQ/Source/ZeroMQ+Context.swift:50-59 | keeps the lifecycle invariant; handle and outcome are those of `DestroyStep`; a native release is attempted (and logged) only for a non-nil handle; the success counter grows only on success and never exceeds 1 |
| `ZeroMQContext.Context.Deinit` | ZeroMQ/Source/ZeroMQ+Context.swift:48 | performs exactly the state change of one `destroy`: the handle `DestroyStep` leaves, the release call logged only for a live handle, the success counter raised only when the handle was cleared and never above 1; it returns no error at all |
| `ZeroMQContext.Context.Get` | ZeroMQ/Source/ZeroMQ+Context.swift:64-79 | queries the option's code on the current (possibly nil) handle; succeeds iff the result is > 0; on failure the option is unchanged and the errno error is thrown; on success the tag is kept, the payload becomes the queried value, and an integer payload is positive |
| `ZeroMQContext.Context.Set` | ZeroMQ/Source/ZeroMQ+Context.swift:81-105 | sends the option's code and native value on the current (possibly nil) handle; succeeds iff libzmq returns 0, otherwise throws the errno error |
| `ZeroMQContext.DestroyStep` | ZeroMQ/Source/ZeroMQ+Context.swift:50-59 | nil handle: stays nil and throws `invalidContext`; live handle: succeeds iff the release returns 0; the handle is cleared exactly on success and is otherwise left as it was; a failed release throws the errno error |
| `ZeroMQContext.ReleasedStaysInvalid` | ZeroMQ/Source/ZeroMQ+Context.swift:50-53 | once the handle is nil, every later `destroy` throws `invalidContext` |
| `ZeroMQContext.NoPassFromNil` | ZeroMQ/Source/ZeroMQ+Context.swift:50-53 | no `destroy` succeeds on a nil handle, however often it is called |
| `ZeroMQContext.ReleasedAtMostOnce` | ZeroMQ/Source/ZeroMQ+Context.swift:50-59 | over any sequence of `destroy` calls at most one succeeds, and none does when starting from nil |
| `ZeroMQContext.FirstAcceptedReleaseWins` | ZeroMQ/Source/ZeroMQ+Context.swift:55-58 | from a live handle, call i succeeds iff libzmq accepts the release at call i and refused it at every earlier call: failures leave the handle for a retry |
| `ContextOptions.ContextOption.NativeValue` | ZeroMQ/Source/ZeroMQ+Context.swift:84-101 | the value `set` sends: `true` as 1, `false` as 0, an integer payload unchanged |
| `ContextOptions.ContextOption.WithQueried` | ZeroMQ/Source/ZeroMQ+Context.swift:68-78 | the option `get` rebuilds: same tag, boolean true iff the value is 1, integer payload equal to the value |
| `ContextOptions.ContextOption.Code` | ZeroMQ/Source/ZeroMQ+Context.swift:134-166 | the code is always one of the nine libzmq option names of the catalog; that it depends on the tag alone is `CodeIgnoresPayload` |
| `ContextOptions.CodeIgnoresPayload` | ZeroMQ/Source/ZeroMQ+Context.swift:134-166 | two options with the same tag have the same code, whatever their payloads |
| `ContextOptions.SetThenGet` | ZeroMQ/Source/ZeroMQ+Context.swift:64-105 | the value `set` sends passes `get`'s guard iff the option is `true` or a positive integer, and then `get` rebuilds exactly the option that was set |
| `ContextOptions.GetThenSet` | ZeroMQ/Source/ZeroMQ+Context.swift:64-105 | a value a successful `get` read is sent back unchanged by `set` iff the option is an integer or the value is 1; other boolean values come back as 0 |
| `ContextOptions.QueriedPositive` | ZeroMQ/Source/ZeroMQ+Context.swift:65-78 | a successful `get` keeps the tag, never yields an integer ≤ 0, and yields `false` exactly for values ≥ 2 |
| `ContextOptions.QueriedIgnoresPayload` | ZeroMQ/Source/ZeroMQ+Context.swift:68-78 | the payload given to `get` is ignored: options with the same tag rebuild to the same result |
| `Errors.FromCode` | ZeroMQ/Source/ZeroMQ+Error.swift:33-39 | the description is `zmq_strerror` of the explicit code, or of errno when none is given, and empty when `zmq_strerror` yields NULL |
| `Errors.UnderlyError` | ZeroMQ/Source/ZeroMQ+Error.swift:41-43 | `underlyError` is the error for an explicit code equal to the current `zmq_errno()` |
| `Errors.ContextReason.Code` | ZeroMQ/Source/ZeroMQ+Error.swift:54-59 | `invalidContext` has code EFAULT and `interrupted` has code EINTR |
| `Errors.ContextReason.UnderlyError` | ZeroMQ/Source/ZeroMQ+Error.swift:61-63 | a reason's error is the one for errno equal to its fixed code, whatever errno actually holds |
| `Errors.ContextReason.LocalizedDescription` | ZeroMQ/Source/ZeroMQ+Error.swift:65-72 | each reason's fixed description is non-empty; that the two differ is `ReasonDescriptionsDiffer` |
| `Errors.ExplicitCodeIgnoresErrno` | ZeroMQ/Source/ZeroMQ+Error.swift:33-39 | an error built from an explicit code does not depend on errno and equals the error for errno set to that code |
| `Errors.MissingCodeReadsErrno` | ZeroMQ/Source/ZeroMQ+Error.swift:33-43 | without an explicit code (`underlyError`), the error is the one for the current errno |
| `Errors.DescriptionFromStrerror` | ZeroMQ/Source/ZeroMQ+Error.swift:34-38 | the description is empty when `zmq_strerror` yields NULL and otherwise is the returned string |
| `Errors.ReasonCodes` | ZeroMQ/Source/ZeroMQ+Error.swift:54-59 | `invalidContext` has code EFAULT and `interrupted` has code EINTR |
| `Errors.ReasonErrorIgnoresErrno` | ZeroMQ/Source/ZeroMQ+Error.swift:61-63 | a reason's error is built from its fixed code and never from the live errno |
| `Errors.ReasonDescriptionsDiffer` | ZeroMQ/Source/ZeroMQ+Error.swift:65-72 | each reason's description is fixed and non-empty, and the two descriptions differ |

## Left out

- The bodies of libzmq's functions are foreign C code. They appear only as the oracle `Libzmq.Native`, with one snapshot of their answers per wrapper operation.
- The numeric values of the `ZMQ_*` option names and of `EFAULT`/`EINTR` come from zmq.h and errno.h, which are not part of this model. They are declared as constants with unspecified values, so no property depends on them being distinct.
- Thread safety is not modelled: libzmq's claim that a context may be shared across threads, the per-thread `errno` slot, and `errno` being overwritten between the failing call and `zmq_errno()`. The model reads `errno` as the value left by the failing call of the same operation.
- `ZeroMQContext.Context.Set`: Swift's `Int32(...)` conversion traps on an integer payload outside the 32-bit range. The model makes that a precondition (`FitsInt32`) and does not model the trap itself.
- Swift's failing `init` cannot hand back a half-built object. The model uses a static `New` that returns a `Result`, and the constructor runs only once allocation has succeeded. A context whose `init` failed holds nil, so its `deinit` would do nothing; that path is not modelled.
- Object lifetime is not modelled: the model cannot say when Swift calls `deinit`, so `Deinit` is an ordinary method.
- Version strings and bundle metadata (ZeroMQ/Source/ZeroMQ.swift) and the umbrella header (ZeroMQ/Header/ZeroMQ.h) contain no logic and are not part of this model.
