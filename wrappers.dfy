/** Small value wrappers shared by the whole model. */
module Wrappers {

  /** A possibly absent value; `None` also stands for a nil Go pointer or slice. */
  datatype Option<+T> = None | Some(value: T)

  /** The error kinds that the bot distinguishes: the service's `ErrAlreadyExists`
      and every other storage or transport failure. */
  datatype Error = AlreadyExists | Failure

  /** A storage call that either yields a value or fails. */
  datatype Result<+T> = Ok(value: T) | Err(error: Error)
}
