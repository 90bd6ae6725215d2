/** Fixed-width integers and the optional-value wrapper shared by the disk model. */
module Types {

  /** An unsigned 8-bit value: one byte of a command descriptor block. */
  type byte = x: nat | x < 0x100

  /** C++ `uint32_t`. */
  type uint32 = x: nat | x < 0x1_0000_0000

  /** C++ `uint64_t`. */
  type uint64 = x: nat | x < 0x1_0000_0000_0000_0000

  datatype Option<+T> = None | Some(value: T)
}
