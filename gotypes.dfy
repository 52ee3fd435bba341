/** The Go scalar types the registry supports, as Dafny types over unbounded
    integers. The platform is a 64-bit one: `int`, `uint` and `uintptr` are
    64 bits wide, as `strconv.IntSize` is 64. Floating-point values are kept
    opaque, as their IEEE 754 bit patterns. */
module GoTypes {

  /** strconv.IntSize on the modelled platform. */
  const IntSize: nat := 64

  /** The integer widths Go's sized types have. */
  type Width = w: nat | w == 8 || w == 16 || w == 32 || w == 64 witness 8

  /** 2 to the power `w`, written out for each width. */
  function TwoTo(w: Width): nat
  {
    match w
    case 8 => 0x100
    case 16 => 0x1_0000
    case 32 => 0x1_0000_0000
    case 64 => 0x1_0000_0000_0000_0000
  }

  /** The smallest and one past the largest value of the signed type of width `w`. */
  function SignedMin(w: Width): int { -(TwoTo(w) / 2) }
  function SignedLimit(w: Width): nat { TwoTo(w) / 2 }

  type int8 = x: int | -0x80 <= x < 0x80
  type int16 = x: int | -0x8000 <= x < 0x8000
  type int32 = x: int | -0x8000_0000 <= x < 0x8000_0000
  type int64 = x: int | -0x8000_0000_0000_0000 <= x < 0x8000_0000_0000_0000
  /** Go's `int`, 64 bits wide on the modelled platform. */
  type goint = int64

  type uint8 = x: int | 0 <= x < 0x100
  type uint16 = x: int | 0 <= x < 0x1_0000
  type uint32 = x: int | 0 <= x < 0x1_0000_0000
  type uint64 = x: int | 0 <= x < 0x1_0000_0000_0000_0000
  /** Go's `uint` and `uintptr`, 64 bits wide on the modelled platform. */
  type gouint = uint64
  type uintptr = uint64

  type byte = uint8
  type rune = int32

  /** float32 and float64 values, kept opaque as their bit patterns; the zero
      bit pattern is +0.0, the zero value of both types. */
  type float32 = bv32
  type float64 = bv64
}
