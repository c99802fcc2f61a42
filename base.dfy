/** Small value types shared by every component of the client model. */
module Base {

  /** A slot that is either empty or holds one value (a nullable pointer in the C code). */
  datatype Option<+T> = None | Some(value: T)

  /** Whether the process keeps running after an operation, or has aborted
      through `panic` or a failed `assert` (both end the process). */
  datatype Status = Running | Halted(reason: string)
}
