/** Rust's `Option`, as used for the stored and the fetched screen dimensions
    and for the optional clear value of an image. */
module Wrappers {

  datatype Option<+T> = None | Some(value: T)
}
