# libindy C API boundary: error codes, wallet handle, runtime config

This project models the core of `libindy/src/api/mod.rs`, the module that
defines what libindy's C-callable interface hands back to foreign callers:

- **`ErrorCode`** is a `#[repr(i32)]` enum with 71 variants and explicit
  discriminants. Every entry point that reports a result returns one of
  these codes by value, so the numbers are a wire contract
  (`indy_get_current_error` returns nothing). They are grouped into subsystem bands:
  - `Success` is 0;
  - the common band is 100-129, where 27 positional `CommonInvalidParamN`
    codes surround the three general codes 112-114;
  - wallet is 200-214 and pool/ledger is 300-309;
  - anoncreds is 400-407, with 402 and 403 unassigned;
  - crypto is 500 and DID is 600;
  - payment is 700-706.
- **`WalletHandle`** is a `#[repr(transparent)]` wrapper around an `i32`.
  The sentinel `INVALID_WALLET_HANDLE` wraps 0.
- **`indy_set_runtime_config`** returns a result code. The model gives the
  code for each outcome of the argument check.

Everything here is pure, so the model is datatypes, functions and lemmas:

- `ctypes.dfy` (module `CTypes`) holds the Rust `i32` as a bounded `newtype`, and an `Option`.
- `error_codes.dfy` (module `ErrorCodes`) holds the following:
  - the `ErrorCode` datatype;
  - its discriminant table `Code`;
  - the positional numbering `InvalidParam` / `ParamPosition`;
  - a decoder `FromCode` from wire values back to variants;
  - the bands, as `Band`, `BandOf` and `BandOfValue`.
- `handles.dfy` (module `Handles`) holds `WalletHandle`, its sentinel, and its raw representation at the boundary.
- `runtime_config.dfy` (module `RuntimeConfig`) holds the result code of `indy_set_runtime_config`.

The source has no decoder. `FromCode` is the independent partner of `Code`:
the two round-trip, and that is how the model proves that the discriminants
are pairwise distinct. `BandOf` records the group each variant is declared
in. The groups come from the enum's group comments ("Common errors", "Wallet errors",
"Ledger errors", "Crypto errors") and, where there is no comment, from the
variant names (anoncreds, DID, payment). `BandOfValue` classifies raw values by
range. The lemmas tie the two together.

`indy_set_runtime_config` passes `ErrorCode::CommonInvalidParam1` to
`check_useful_json!` as the error to report (`libindy/src/api/mod.rs:272`).
The model assumes the macro reports every failure it detects with that
error; see `RuntimeConfig.SetRuntimeConfig` under "## Left out".

## Model

| member | source | states |
|---|---|---|
| ErrorCodes.Code | libindy/src/api/mod.rs:35-254 | The discriminant of every variant, exactly as declared. Decoding it with `FromCode` gives the variant back. |
| ErrorCodes.CodeInjective | libindy/src/api/mod.rs:35-254 | Two variants have the same discriminant exactly when they are the same variant, so the numbers are pairwise distinct. |
| ErrorCodes.FromCodeSound | libindy/src/api/mod.rs:35-254 | Whatever `FromCode(c)` decodes carries the discriminant `c`, so decoding never invents a variant. |
| ErrorCodes.AssignedIff | libindy/src/api/mod.rs:35-254 | The decoder answers for a value exactly when some variant carries that value. |
| ErrorCodes.CodeRange | libindy/src/api/mod.rs:39-252 | `Success` is the only variant with value 0. Every other variant lies between 100 and 706. |
| ErrorCodes.InvalidParam | libindy/src/api/mod.rs:43-131 | The variant reporting an invalid `n`-th argument, for positions 1-27. Its value is given by `InvalidParamCode` and its position is recovered by `InvalidParamPosition`. |
| ErrorCodes.ParamPosition | libindy/src/api/mod.rs:41-131 | A positional variant names a position between 1 and 27, and `InvalidParam` of that position gives the variant back. |
| ErrorCodes.InvalidParamPosition | libindy/src/api/mod.rs:41-131 | `ParamPosition(InvalidParam(n)) == Some(n)` for positions 1-27. |
| ErrorCodes.InvalidParamCode | libindy/src/api/mod.rs:43-131 | `CommonInvalidParamN` has value 99+N for N ≤ 12 and 102+N for 13 ≤ N ≤ 27. |
| ErrorCodes.InvalidParamIncreasing | libindy/src/api/mod.rs:43-131 | Positional codes strictly increase with the position. |
| ErrorCodes.PositionalIff | libindy/src/api/mod.rs:41-131 | A variant is positional exactly when its value is in 100-129 and outside 112-114. |
| ErrorCodes.CommonGap | libindy/src/api/mod.rs:79-86 | 112, 113 and 114 decode to `CommonInvalidState`, `CommonInvalidStructure` and `CommonIOError`. None of the three is positional. |
| ErrorCodes.FromCommonCodeSound | libindy/src/api/mod.rs:41-131 | Every value the common-band decoder yields for a value in 100-129 carries that value. |
| ErrorCodes.FromWalletCodeSound | libindy/src/api/mod.rs:133-177 | Every value the wallet-band decoder yields for a value in 200-214 carries that value. |
| ErrorCodes.FromLedgerCodeSound | libindy/src/api/mod.rs:179-209 | Every value the pool/ledger decoder yields for a value in 300-309 carries that value. |
| ErrorCodes.FromAnoncredsCodeSound | libindy/src/api/mod.rs:211-224 | Every value the anoncreds decoder yields for a value in 400-407 carries that value. |
| ErrorCodes.FromPaymentCodeSound | libindy/src/api/mod.rs:233-252 | Every value the payment decoder yields for a value in 700-706 carries that value. |
| ErrorCodes.BandOfValue | libindy/src/api/mod.rs:39-252 | A raw value is classified into band `b` exactly when it lies in `b`'s range, so at most one band matches. |
| ErrorCodes.BandsDisjoint | libindy/src/api/mod.rs:39-252 | No value lies in the ranges of two different bands. |
| ErrorCodes.BandOf | libindy/src/api/mod.rs:39-252 | The group each variant is declared in. Every variant's value lies in the range reserved for its group. `BandMembership` and `BandOfCode` state the converse. |
| ErrorCodes.BandMembership | libindy/src/api/mod.rs:39-252 | A variant's value lies in band `b`'s range exactly when the variant is declared under `b`. |
| ErrorCodes.BandOfCode | libindy/src/api/mod.rs:39-252 | Classifying a variant's value gives the band the variant is declared under. |
| ErrorCodes.BandsAreFilled | libindy/src/api/mod.rs:39-252 | A value is assigned exactly when it lies in some band's range and is neither 402 nor 403. So wallet, ledger and payment are contiguous and anoncreds has its two holes. |
| ErrorCodes.SingletonBands | libindy/src/api/mod.rs:39-231 | The success, crypto and DID bands each hold exactly one variant. |
| Handles.ToRaw | libindy/src/api/mod.rs:24-26 | The boundary representation of a handle is the wrapped `i32`, and rewrapping it gives the same handle, so passing a handle out and back in yields it unchanged. |
| Handles.FromRaw | libindy/src/api/mod.rs:24-26 | Any `i32` a caller passes in is taken as a handle whose raw value is that integer. |
| Handles.InvalidIsZero | libindy/src/api/mod.rs:27 | `INVALID_WALLET_HANDLE` wraps 0, and it is the only handle whose raw value is 0. |
| Handles.HandleEquality | libindy/src/api/mod.rs:25-26 | The derived equality: two handles are equal exactly when their wrapped integers are equal. |
| Handles.FromRawInjective | libindy/src/api/mod.rs:24-26 | Distinct integers give distinct handles. |
| RuntimeConfig.SetRuntimeConfig | libindy/src/api/mod.rs:269-281 | The result is `Success` exactly when the configuration passes the check. Otherwise it is the position-1 invalid-parameter code. The wire value is 0 or 100. |
| RuntimeConfig.SetRuntimeConfigOutcomes | libindy/src/api/mod.rs:269-281 | Given that the check reports failures with the error it is passed, the entry point returns only `Success` or `CommonInvalidParam1`, so never `CommonInvalidStructure`, and always a code in the success or common band. |

## Left out

- RuntimeConfig.SetRuntimeConfig: the body of `check_useful_json!` and the `IndyConfig` deserialisation (`libindy/src/api/mod.rs:272`) are not part of this model. The model takes the check's pass/fail outcome as the parameter `configPassesCheck`. It assumes that every failure the macro detects (a null pointer, an empty or non-UTF-8 string, JSON that does not deserialise) is reported with the error argument `CommonInvalidParam1`. The macro's own code could report some failures differently, and the model does not capture that.
- `::commands::indy_set_runtime_config` (`libindy/src/api/mod.rs:274`) is not part of this model. It updates process-wide configuration in another module. The "4 by default" thread-pool size appears only in a doc comment.
- The `trace!` logging calls are left out. They are I/O with no effect on results.
- `indy_get_current_error` (`libindy/src/api/mod.rs:304-311`) is left out. It reads a per-thread error store defined elsewhere and writes through a raw out-pointer, so it is I/O and foreign memory.
- The submodules declared at lines 1-12 are left out. Their code is not in this module.
- The plain `i32` handle aliases at lines 21 and 29-33 are left out. Their allocation and liveness bookkeeping live in other modules.
- Hashing and `Debug` formatting from the derives are left out. Only equality has an observable contract here.
- `Handles.FromRaw` accepts every `i32`, including 0, as the source does. Whether a handle is live is decided by the wallet subsystem, which is not part of this model.
