/** What several modules share. */
module Basics {

  datatype Option<T> = None | Some(value: T)

  type Byte = x: int | 0 <= x < 256
}
