/** Machine types and small wrappers shared by the whole model. */
module Types {

  /** C's uint8_t. */
  newtype uint8 = x: int | 0 <= x < 0x100

  /** C's uint32_t. */
  newtype uint32 = x: int | 0 <= x < 0x1_0000_0000

  datatype Option<+T> = None | Some(value: T)

  /** The implicit conversion of an integer to an 8-bit unsigned field: reduction modulo 2^8. */
  function LowByte(x: int): (b: uint8)
    ensures (x - b as int) % 0x100 == 0
    ensures 0 <= x < 0x100 ==> b as int == x
  {
    (x % 0x100) as uint8
  }

  /** The implicit conversion of an integer to a 32-bit unsigned field: reduction modulo 2^32. */
  function ToU32(x: int): (w: uint32)
    ensures (x - w as int) % 0x1_0000_0000 == 0
    ensures 0 <= x < 0x1_0000_0000 ==> w as int == x
  {
    (x % 0x1_0000_0000) as uint32
  }
}
