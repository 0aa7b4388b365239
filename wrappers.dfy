/** Optional values and results that carry a failure. The query engine raises
    several kinds of Python exception; the model folds them into one `Err`. */
module Wrappers {

  datatype Option<+T> = None | Some(value: T)

  datatype Result<+T> = Ok(value: T) | Err
}
