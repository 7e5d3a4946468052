/** Small types shared by every module of the model. */
module Prelude {
  datatype Option<+T> = None | Some(value: T)

  datatype Result<+T, +E> = Ok(value: T) | Err(error: E)

  /** Go's `uint32`: machine ids and bin counts. */
  type U32 = x: int | 0 <= x < 0x1_0000_0000

  /** Go's `uint8`: the `is_deleted` column. */
  type U8 = x: int | 0 <= x < 0x100
}
