/** The errors the build configuration raises and the wrappers that carry them. */
module Outcomes {

  /** Every exception the configuration pass can raise, one constructor per raise site. */
  datatype Error =
    | NoSupportedArch(envValue: string)   // RuntimeError: no token of TORCH_CUDA_ARCH_LIST is supported
    | CapabilityBelow80                   // RuntimeError: a probed GPU has major version below 8
    | NoReleaseToken                      // ValueError: nvcc output has no "release" token
    | NoTokenAfterRelease                 // IndexError: "release" is the last token of the nvcc output
    | InvalidVersion(token: string)       // the version token is not a release version
    | NoGpusFound                         // RuntimeError: no capability after the override and the probe
    | CudaTooOld                          // RuntimeError: CUDA below 12.0
    | CudaTooOldForArch(arch: string)     // RuntimeError: CUDA below 12.4 with capability 8.9 or 9.0

  datatype Option<+T> = None | Some(value: T)

  /** A value, or the error that aborted the pass. */
  datatype Result<+T> = Ok(value: T) | Err(error: Error) {
    predicate IsFailure() { Err? }
    function PropagateFailure<U>(): Result<U> requires Err? { Err(error) }
    function Extract(): T requires Ok? { value }
  }

  /** A check that either passes or fails with an error. */
  datatype Outcome = Pass | Fail(error: Error)
}
