/** Shared vocabulary: an optional value and the fixed-width integer ranges of the firmware. */
module Common {

  datatype Option<T> = None | Some(value: T)

  const U8_LIMIT: int := 0x100
  const U16_LIMIT: int := 0x1_0000
  const U32_LIMIT: int := 0x1_0000_0000

  /** uint8_t */
  type u8 = x: int | 0 <= x < U8_LIMIT
  /** uint16_t */
  type u16 = x: int | 0 <= x < U16_LIMIT
  /** uint32_t and, on the ESP32, unsigned long */
  type u32 = x: int | 0 <= x < U32_LIMIT

  /** 2 to the power k. */
  function Pow2(k: nat): (r: nat)
    ensures r >= 1
  {
    if k == 0 then 1 else 2 * Pow2(k - 1)
  }
}
