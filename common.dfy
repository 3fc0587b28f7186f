/** Fixed-width C integer types used by the three programs. Arithmetic on them is done in
    unbounded `int` and brought back into range explicitly where the C code can wrap. */
module Integers {
  type UInt8 = x: int | 0 <= x < 0x100
  type UInt16 = x: int | 0 <= x < 0x1_0000
  type UInt32 = x: int | 0 <= x < 0x1_0000_0000
  type Int8 = x: int | -0x80 <= x < 0x80
  type Int16 = x: int | -0x8000 <= x < 0x8000

  /** Conversion of any C integer value to `uint8_t` (reduction modulo 2^8). */
  function ToUInt8(x: int): UInt8 { x % 0x100 }

  /** Conversion of any C integer value to `uint16_t` (reduction modulo 2^16). */
  function ToUInt16(x: int): UInt16 { x % 0x1_0000 }

  /** Conversion of any C integer value to `uint32_t` (reduction modulo 2^32). */
  function ToUInt32(x: int): UInt32 { x % 0x1_0000_0000 }

  /** `x++` on a `uint8_t`: 255 wraps to 0. */
  function Inc8(x: UInt8): UInt8 { if x == 0xFF then 0 else x + 1 }

  /** `x--` on a `uint8_t`: 0 wraps to 255. */
  function Dec8(x: UInt8): UInt8 { if x == 0 then 0xFF else x - 1 }

  /** `x++` on an `int8_t`: 127 wraps to -128. */
  function IncInt8(x: Int8): Int8 { if x == 0x7F then -0x80 else x + 1 }

  /** `x++` on a `uint32_t`: 2^32 - 1 wraps to 0. */
  function Inc32(x: UInt32): UInt32 { if x == 0xFFFF_FFFF then 0 else x + 1 }

  /** The increments are the conversions of `x + 1`. */
  lemma IncIsConversion(x: UInt8, y: UInt32)
    ensures Inc8(x) == ToUInt8(x + 1) && Inc32(y) == ToUInt32(y + 1)
  {
  }
}

/** The touch panel of the lab board: 320 x 240 pixels (landscape). */
module Board {
  const DisplayWidth: int := 320
  const DisplayHeight: int := 240
}
