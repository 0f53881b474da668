/** Small value types shared by every module of the model. */
module Base {

  /** A value that may be missing: JavaScript's `null`/`undefined` versus a present value. */
  datatype Option<+T> = None | Some(value: T)

  /** One byte of an encoded media fragment. */
  newtype byte = x: int | 0 <= x < 256
}
