/** Return conventions of the driver: 0 or a value on success, a negative errno on failure. */
module Outcomes {

  /** A negative error number, as the bus layer and the driver return it. */
  type Errno = e: int | e < 0 witness -1

  /** Invalid argument, the code the option decoder rejects a value with. */
  const EINVAL: int := 22

  datatype Option<+T> = None | Some(value: T)

  /** Status of an operation that returns 0 on success and a negative errno otherwise. */
  datatype Outcome = Pass | Fail(errno: Errno)

  /** Result of an operation that returns a non-negative value on success. */
  datatype Result<+T> = Ok(value: T) | Err(errno: Errno) {

    /** The status part of the result, forgetting the value. */
    function Status(): Outcome {
      if Ok? then Pass else Fail(errno)
    }
  }
}
