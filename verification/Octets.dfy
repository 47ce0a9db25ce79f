/** Octets and 16-bit words. */
module Octets {
  type Byte = n: nat | n < 256

  type U16 = n: nat | n < 0x10000

  function U16At(d: seq<Byte>, i: nat): U16
    requires i + 2 <= |d|
  {
    256 * d[i] as int + d[i + 1]
  }

  function U16Octets(n: U16): (r: seq<Byte>)
    ensures |r| == 2 && U16At(r, 0) == n
  {
    [n / 256, n % 256]
  }

  /** The word with its octets exchanged. */
  function Swap(n: U16): U16 {
    256 * (n % 256) + n / 256
  }
}
