/** The integer conversions between a request, the SMALLINT and BIGINT columns and the values compared or reported. */
module Confirmations {
  import opened Domain

  const TWO15 := 0x8000
  const TWO16 := 0x1_0000
  const TWO32 := 0x1_0000_0000
  const TWO63 := 0x8000_0000_0000_0000
  const TWO64 := 0x1_0000_0000_0000_0000

  /** int16(c) for a uint32 c. */
  function Int16(c: nat): (r: SmallInt)
    requires c < TWO32
    ensures (r - c) % TWO16 == 0
  {
    var low := c % TWO16;
    if low < TWO15 then low else low - TWO16
  }

  /** uint64(x) for an int16 or int64 x: two's complement. */
  function Uint64(x: int): (r: nat)
    requires -TWO63 <= x < TWO63
    ensures r < TWO64 && (r - x) % TWO64 == 0
  {
    if x < 0 then x + TWO64 else x
  }

  /** uint32(x) for an int16 or int32 x. */
  function Uint32(x: int): (r: nat)
    requires -0x8000_0000 <= x < 0x8000_0000
    ensures r < TWO32 && (r - x) % TWO32 == 0
  {
    if x < 0 then x + TWO32 else x
  }

  /** int64(h) for a uint64 h. */
  function Int64(h: nat): (r: int)
    requires h < TWO64
    ensures -TWO63 <= r < TWO63 && (r - h) % TWO64 == 0
  {
    if h < TWO63 then h else h - TWO64
  }

  /** A height survives the trip through the signed column, whatever its size. */
  lemma HeightRoundTrip(h: nat)
    requires h < TWO64
    ensures Uint64(Int64(h)) == h
  {
  }

  /** The number of confirmations a processor waits for when a caller requested c of them. */
  function Threshold(c: nat): (t: nat)
    requires c < TWO32
    ensures t == c <==> c < TWO15
    ensures c <= t <==> c < TWO15 || c % TWO16 >= TWO15
  {
    Uint64(Int16(c))
  }

  /** The number of confirmations reported back to that caller. */
  function Reported(c: nat): (t: nat)
    requires c < TWO32
    ensures t == c <==> c < TWO15 || c >= TWO32 - TWO15
  {
    Uint32(Int16(c))
  }
}
