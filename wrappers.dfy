/** The optional value used throughout the model: a JavaScript `null`/`undefined`
    result, an absent cache entry or a rejected network fetch. */
module Wrappers {

  datatype Option<+T> = None | Some(value: T)
}
