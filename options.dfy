/** Rust's `Option`, used for the trigger axes that are unset until the
    operator first picks a value, and for partial lookups. */
module Options {

  datatype Option<+T> = None | Some(value: T)
}
