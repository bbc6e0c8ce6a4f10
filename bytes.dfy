/** Byte-level helpers shared by every component: the byte type, powers of two,
    single-bit tests and an optional value. */
module Bytes {

  /** An unsigned 8-bit value (C `uint8_t`). */
  type byte = x: int | 0 <= x < 256

  datatype Option<T> = None | Some(value: T)

  /** 2^k. */
  function Pow2(k: nat): (r: nat)
    ensures r >= 1
  {
    if k == 0 then 1 else 2 * Pow2(k - 1)
  }

  /** Bit k of a non-negative integer, i.e. C's `(v & (1 << k)) != 0`. */
  predicate Bit(v: nat, k: nat)
  {
    (v / Pow2(k)) % 2 == 1
  }

  /** The low nibble `v & 0x0F` and high nibble `v >> 4` of a byte. */
  function LowNibble(v: byte): (r: int)
    ensures 0 <= r < 16
  {
    v % 16
  }

  function HighNibble(v: byte): (r: int)
    ensures 0 <= r < 16
  {
    v / 16
  }
}
