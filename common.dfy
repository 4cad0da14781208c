/** Values shared by the whole model: paths, bytes, errors and Go's
    "value or error" shapes. */
module Common {

  /** A slash-separated path, kept as its segments; `path.Join` is `+`. */
  type Path = seq<string>

  type Bytes = seq<bv8>

  /** Why an operating-system call failed. */
  datatype Reason = NotADirectory | IsADirectory | NoSuchFile | PermissionDenied | NoSpace

  datatype Error =
    | ApiError(message: string)                        // reported by the API client (transport, non-2xx status)
    | PathError(op: string, path: Path, reason: Reason) // reported by the operating system

  datatype Option<+T> = None | Some(value: T)

  datatype Result<+T> = Success(value: T) | Failure(error: Error)

  /** Go's `error` return: nil (`Ok`) or an error value. */
  datatype Outcome = Ok | Fail(error: Error)
}
