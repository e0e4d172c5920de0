/** Status values that cross the copy engine's boundary: the CUDA runtime's
    `cudaError_t` answers and the `common::Status` the engine returns. */
module CudaStatus {

  /** A `cudaError_t` as the runtime returns it; 0 is `cudaSuccess`. */
  type ErrorCode = nat

  const CudaSuccess: ErrorCode := 0

  /** The engine's result: OK, or the failure carrying the runtime's code. */
  datatype Status = Ok | Fail(code: ErrorCode)

  /** What `CUDA_RETURN_IF_ERROR` makes of one runtime answer. */
  function FromRuntime(rc: ErrorCode): Status
  {
    if rc == CudaSuccess then Ok else Fail(rc)
  }
}
