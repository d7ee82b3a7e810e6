/**
  The result code of `indy_set_runtime_config` (`libindy/src/api/mod.rs`).

  The entry point validates its single argument, a C string holding the JSON
  configuration, with `check_useful_json!`, passing it
  `ErrorCode::CommonInvalidParam1` as the error to report. If the check
  passes, the entry point hands the configuration to the command layer and
  returns `Success`. The macro's own code is not part of this model: the
  model assumes that whatever failure the macro detects is reported with the
  error it is given, and it represents the validation by its outcome,
  `configPassesCheck`.
 */
module RuntimeConfig {
  import opened CTypes
  import opened ErrorCodes

  /** The code `indy_set_runtime_config` returns. */
  function SetRuntimeConfig(configPassesCheck: bool): (r: ErrorCode)
    ensures r == Success <==> configPassesCheck
    ensures !configPassesCheck ==> ParamPosition(r) == Some(1)
    ensures Code(r) == 0 || Code(r) == 100
  {
    if !configPassesCheck then CommonInvalidParam1
    else Success
  }

  /**
    Under the assumption that the check reports every failure with the error
    it is given, the entry point has exactly two outcomes: `Success`, or the
    first (and only) argument being invalid. In particular it does not then
    answer a malformed configuration with `CommonInvalidStructure`.
   */
  lemma SetRuntimeConfigOutcomes(configPassesCheck: bool)
    ensures SetRuntimeConfig(configPassesCheck) == Success
         || SetRuntimeConfig(configPassesCheck) == InvalidParam(1)
    ensures SetRuntimeConfig(configPassesCheck) != CommonInvalidStructure
    ensures BandOf(SetRuntimeConfig(configPassesCheck)) in {SuccessBand, Common}
  {
  }
}
