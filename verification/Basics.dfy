/** Types shared by the models. */
module Basics {

  newtype byte = x: int | 0 <= x < 256

  type Fd = int

  datatype Option<+T> = None | Some(value: T)
}
