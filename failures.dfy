/** HRESULT codes and the engine's one error-handling rule: every checked call goes
    through ThrowIfFailed, which raises exactly when the code is negative. A raised
    exception is modelled as an explicit outcome that the caller returns at once,
    keeping whatever state had already been changed (C++ unwinding rolls nothing back). */
module Failures {

  /** HRESULT is a signed 32-bit integer. */
  newtype HResult = x: int | -0x8000_0000 <= x < 0x8000_0000

  const S_OK: HResult := 0
  /** E_FAIL is 0x80004005 read as a signed 32-bit value. */
  const E_FAIL: HResult := -0x7FFF_BFFB

  /** The FAILED macro: the severity bit (the sign bit) is set. */
  predicate Failed(hr: HResult) { hr < 0 }

  datatype Outcome = Ok | Thrown

  datatype Result<T> = Success(value: T) | Failure

  datatype Option<T> = None | Some(value: T)

  /** ThrowIfFailed: raises std::exception exactly when FAILED(hr). */
  function ThrowIfFailed(hr: HResult): (o: Outcome)
    ensures o == Thrown <==> hr < 0
    ensures o == Ok <==> 0 <= hr
  {
    if Failed(hr) then Thrown else Ok
  }
}
