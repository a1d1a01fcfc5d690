/** Go's fixed-width integer types, as ranges of Dafny's unbounded integers. */
module Types {

  type uint8 = x: int | 0 <= x < 0x100

  type uint16 = x: int | 0 <= x < 0x1_0000

  type uint64 = x: int | 0 <= x < 0x1_0000_0000_0000_0000

  type int64 = x: int | -0x8000_0000_0000_0000 <= x < 0x8000_0000_0000_0000

  type byte = uint8

  /** time.Duration: a signed 64-bit count of nanoseconds. */
  type Duration = int64
}
