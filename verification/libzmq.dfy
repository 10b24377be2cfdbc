/**
 * The part of the C library libzmq that the wrapper calls. Its functions are
 * foreign code, so they appear here only as an oracle: a record of what each
 * call answers during one operation of the wrapper.
 */
module Libzmq {
  import opened Wrappers

  /** C `int`, the type of every libzmq return value and option code. */
  type Int32 = x: int | -0x8000_0000 <= x < 0x8000_0000

  /** Swift `Int` on the 64-bit platforms the library targets. */
  type Int64 = x: int | -0x8000_0000_0000_0000 <= x < 0x8000_0000_0000_0000

  /** A non-nil `void *` context pointer handed out by `zmq_ctx_new`. */
  datatype Handle = Handle(address: nat)

  /**
   * What libzmq answers during one wrapper operation:
   *  - ctxNew:     the result of `zmq_ctx_new()` (None is a NULL pointer);
   *  - ctxDestroy: `zmq_ctx_destroy(handle)`, 0 on success;
   *  - ctxGet:     `zmq_ctx_get(context, option)`, the context possibly NULL;
   *  - ctxSet:     `zmq_ctx_set(context, option, value)`, 0 on success;
   *  - errno:      what `zmq_errno()` returns right after the failing call;
   *  - strerror:   `zmq_strerror(code)`, None for a NULL C string.
   */
  datatype Native = Native(
    ctxNew: Option<Handle>,
    ctxDestroy: Handle -> Int32,
    ctxGet: (Option<Handle>, Int32) -> Int32,
    ctxSet: (Option<Handle>, Int32, Int32) -> Int32,
    errno: Int32,
    strerror: Int32 -> Option<string>)
}
