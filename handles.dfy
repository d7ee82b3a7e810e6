/**
  The wallet handle of libindy's C API (`libindy/src/api/mod.rs`).

  `WalletHandle` is a `#[repr(transparent)]` wrapper around an `i32`: across
  the C boundary it is exactly that integer, and its derived equality is the
  equality of the wrapped integer. The value 0 is the reserved
  "invalid/uninitialised" handle.
 */
module Handles {
  import opened CTypes

  /** An opaque reference to a wallet owned by the library. */
  datatype WalletHandle = WalletHandle(raw: i32)

  /** The sentinel handle: it names no wallet. */
  const INVALID_WALLET_HANDLE: WalletHandle := WalletHandle(0)

  /** The handle a foreign caller receives: the wrapped integer, unchanged. */
  function ToRaw(h: WalletHandle): (r: i32)
    ensures WalletHandle(r) == h
  {
    h.raw
  }

  /** The handle a foreign caller passes in: any `i32` is accepted as is. */
  function FromRaw(x: i32): (h: WalletHandle)
    ensures ToRaw(h) == x
  {
    WalletHandle(x)
  }

  /** Whether `h` is the sentinel. */
  predicate IsInvalid(h: WalletHandle) {
    h == INVALID_WALLET_HANDLE
  }

  /** The sentinel is the handle whose integer is 0, and no other. */
  lemma InvalidIsZero(h: WalletHandle)
    ensures ToRaw(INVALID_WALLET_HANDLE) == 0
    ensures IsInvalid(h) <==> ToRaw(h) == 0
  {
  }

  /**
    The derived equality: two handles are equal exactly when their integers
    are, so the wrapper adds no identity of its own.
   */
  lemma HandleEquality(a: WalletHandle, b: WalletHandle)
    ensures a == b <==> ToRaw(a) == ToRaw(b)
  {
  }

  /** Wrapping is injective on integers: distinct integers give distinct handles. */
  lemma FromRawInjective(x: i32, y: i32)
    ensures FromRaw(x) == FromRaw(y) <==> x == y
  {
  }
}
