/** Outcome types shared by the model: an optional value, a value-or-error
    result and a done-or-raised outcome. An error carries the text that the
    source's exception would print (`str(e)`). */
module Wrappers {

  datatype Option<+T> = None | Some(value: T)

  datatype Result<+T> = Ok(value: T) | Err(message: string)

  datatype Outcome = Done | Raised(message: string)
}
