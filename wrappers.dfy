/** Small result types shared by the whole model. */
module Wrappers {

  /** A value that may be missing, as a Python dict lookup or a `None` default. */
  datatype Option<+T> = None | Some(value: T)

  /** The outcome of a call whose I/O is not modelled: its value, a timeout
      (`asyncio.TimeoutError`), or any other exception. */
  datatype Outcome<+T> = Ok(value: T) | Timeout | Error
}
