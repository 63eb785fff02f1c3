/**
 * Go's fixed-width integers, the conversions between them that the
 * converters use, and the opaque scalar values (floating point numbers,
 * durations and instants) that are only ever copied.
 */
module GoInts {

  type Uint8 = x: int | 0 <= x < 0x100
  type Uint16 = x: int | 0 <= x < 0x1_0000
  type Uint32 = x: int | 0 <= x < 0x1_0000_0000
  type Uint64 = x: int | 0 <= x < 0x1_0000_0000_0000_0000
  type Int32 = x: int | -0x8000_0000 <= x < 0x8000_0000
  type Int64 = x: int | -0x8000_0000_0000_0000 <= x < 0x8000_0000_0000_0000

  /** Go's `int`, which is 64 bits wide on the platforms the program is built for. */
  type GoInt = Int64

  /** `time.Duration`: a count of nanoseconds. */
  type Duration = Int64

  /** A `float64`, kept as its bit pattern: the converters only copy it. */
  datatype Float64 = Float64(bits: bv64)

  /** A `time.Time`, kept opaque: the converters only copy it. */
  datatype Time = Time(unixNanos: int)

  /** What `(*timestamppb.Timestamp)(nil).AsTime()` yields: the Unix epoch. */
  const UnixEpoch: Time := Time(0)

  /** The zero `time.Time` (January 1 of year 1, UTC), as nanoseconds from the Unix epoch. */
  const ZeroTimeNanos: int := -62_135_596_800 * 1_000_000_000

  /** `int32(u)` for a `uint32` u: the same 32 bits read as two's complement. */
  function Int32FromUint32(u: Uint32): (r: Int32)
    ensures (u - r) % 0x1_0000_0000 == 0
    ensures r >= 0 <==> u < 0x8000_0000
  {
    if u < 0x8000_0000 then u else u - 0x1_0000_0000
  }

  /** `uint32(i)` for an `int32` i: the same 32 bits read as unsigned. */
  function Uint32FromInt32(i: Int32): (r: Uint32)
    ensures (r - i) % 0x1_0000_0000 == 0
    ensures Int32FromUint32(r) == i
  {
    if i >= 0 then i else i + 0x1_0000_0000
  }

  /** `uint16(u)` for a `uint32` u: keeps the low 16 bits. */
  function Uint16FromUint32(u: Uint32): (r: Uint16)
    ensures r <= u && (u - r) % 0x1_0000 == 0
    ensures u < 0x1_0000 ==> r == u
  {
    u % 0x1_0000
  }

  /** `uint8(n)` for an `int32` n: keeps the low 8 bits. */
  function Uint8FromInt32(n: Int32): (r: Uint8)
    ensures (n - r) % 0x100 == 0
    ensures 0 <= n < 0x100 ==> r == n
  {
    n % 0x100
  }

  /** `int64` arithmetic: the result keeps the low 64 bits, read as two's complement. */
  function Wrap64(x: int): (r: Int64)
    ensures (x - r) % 0x1_0000_0000_0000_0000 == 0
    ensures -0x8000_0000_0000_0000 <= x < 0x8000_0000_0000_0000 ==> r == x
  {
    (x + 0x8000_0000_0000_0000) % 0x1_0000_0000_0000_0000 - 0x8000_0000_0000_0000
  }

  /** Go's integer division by a positive divisor, which truncates toward zero. */
  function TruncDiv(a: int, d: int): (q: int)
    requires d > 0
    ensures a >= 0 ==> q * d <= a < q * d + d
    ensures a < 0 ==> q * d - d < a <= q * d
  {
    if a >= 0 then a / d else -((-a) / d)
  }

  /** The bit cast `uint32 -> int32 -> uint32` loses nothing. */
  lemma {:induction false} Uint32BitCastRoundTrip(u: Uint32)
    ensures Uint32FromInt32(Int32FromUint32(u)) == u
  {
  }
}
