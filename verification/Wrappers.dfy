/** Small value types shared by every component of the model. */
module Wrappers {
  /** One octet. */
  type Byte = b: int | 0 <= b < 256

  type Bytes = seq<Byte>

  datatype Option<+T> = None | Some(value: T)
}
