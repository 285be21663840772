/** Optional values and results, used for the fields the document may lack and for
    the operations that can fail. */
module Wrappers {

  /** `None` stands for a JavaScript `undefined` or `null`. */
  datatype Option<+T> = None | Some(value: T)

  datatype Result<+R, +E> = Ok(value: R) | Err(error: E)
}
