/** The optional value returned by the key mapping functions. */
module Chip8Option {

  datatype Option<T> = None | Some(value: T)
}
