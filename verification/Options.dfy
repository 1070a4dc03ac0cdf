/** The two result shapes the source uses: a nullable value and a value-or-error. */
module Options {

  datatype Option<+T> = None | Some(value: T)

  /** Go's `(value, error)`; the error text is not modelled. */
  datatype Result<+T> = Ok(value: T) | Err
}
