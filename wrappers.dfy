/** An optional value: `None` stands for JavaScript's `undefined` (a missing
    record key, an absent optional property). */
module Wrappers {

  datatype Option<+T> = None | Some(value: T)
}
