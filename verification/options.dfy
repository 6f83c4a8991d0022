/** An optional value: the model's stand-in for a key that may be absent
    from the session state, or for an input widget that may have delivered
    nothing. */
module Options {

  datatype Option<+T> = None | Some(value: T)
}
