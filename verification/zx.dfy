/** Kernel vocabulary the launcher uses: status codes and handles. */
module Zx {

  /** A zx_status_t: zero is success, every error code is negative. */
  type Status = int

  type ErrorStatus = s: Status | s < 0 witness -1

  const Ok: Status := 0
  const ErrNotSupported: ErrorStatus := -2
  const ErrInvalidArgs: ErrorStatus := -10
  const ErrShouldWait: ErrorStatus := -22
  const ErrPeerClosed: ErrorStatus := -24

  /** A handle value. Handles are opaque here; absence (ZX_HANDLE_INVALID) is an Option. */
  type Handle = nat

  type Uint32 = n: nat | n < 0x1_0000_0000

  datatype Option<+T> = None | Some(value: T)
}
