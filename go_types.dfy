/** The Go built-in types and run-time panics that both packages rely on. */
module GoTypes {

  /** Go's `int64`. */
  newtype int64 = x: int | -0x8000_0000_0000_0000 <= x < 0x8000_0000_0000_0000

  /** Go's `byte`. */
  newtype byte = b: int | 0 <= b < 0x100

  /** The run-time panics the modelled code can raise. */
  datatype Panic =
    | SliceBoundsOutOfRange(high: int, capacity: int)  // s[low:high] with high > cap(s)
    | MakeSliceLenOutOfRange(len: int)                 // make([]T, n) with n < 0
}
