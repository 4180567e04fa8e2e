/** Go's fixed-width integer types, as ranges of the unbounded `int`. The
    modelled code only compares and prints these values, so no wrap-around
    arithmetic is needed. */
module GoInts {

  const MinInt32: int := -0x8000_0000
  const MaxInt32: int := 0x7fff_ffff
  const MinInt64: int := -0x8000_0000_0000_0000
  const MaxInt64: int := 0x7fff_ffff_ffff_ffff

  /** Go `int32`, used by Kubernetes for replica counts. */
  type Int32 = x: int | MinInt32 <= x <= MaxInt32

  /** Go `int64` (and `int` on 64-bit targets), used for generations and ports. */
  type Int64 = x: int | MinInt64 <= x <= MaxInt64
}
