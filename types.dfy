/** Small value types shared by the whole model: an Option, and the fixed-width
    integers that the program's `short` and `int` fields and variables hold. */
module Types {

  datatype Option<+T> = None | Some(value: T)

  const MinInt16: int := -0x8000
  const MaxInt16: int := 0x7FFF
  const MinInt32: int := -0x8000_0000
  const MaxInt32: int := 0x7FFF_FFFF

  /** A C# `short`. */
  newtype int16 = x: int | MinInt16 <= x <= MaxInt16

  /** A C# `int`. */
  newtype int32 = x: int | MinInt32 <= x <= MaxInt32
}
