/** Failure-carrying values shared by every module of the model. The Python
    code signals failure by raising; the model returns the exception kind
    instead, so that each error path can be stated in a contract. */
module Wrappers {

  datatype Option<+T> = None | Some(value: T)

  /** The Python exceptions the modelled code can raise. */
  datatype PyError =
    | ValueError      // an unsupported keyboard size or an unknown scale name
    | IndexError      // a list index out of range, or args[k] of too short a tuple
    | AttributeError  // a call to a method the class does not define

  datatype Result<+T> = Ok(value: T) | Err(error: PyError)
}
