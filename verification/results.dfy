/** Failure-carrying result types shared by the renderer model. Where the
    Rust code panics (an out-of-range index, an integer overflow in a debug
    build), the model returns the failure branch instead. */
module Results {

  /** A value that may be absent. */
  datatype Option<+T> = None | Some(value: T)

  /** Either the computed value or the reason the computation stopped. */
  datatype Result<+T, +E> = Ok(value: T) | Err(error: E)
}
