/** The values that pipes move around. */
module Buffers {

  /** Identity of a user buffer: the pointer the library moves from pool to FIFO and back. */
  type Buffer = int

  /** A possibly NULL buffer. */
  datatype Option<+T> = None | Some(value: T)
}
