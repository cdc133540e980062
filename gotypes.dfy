/** Go's fixed-width integer types as the parser sees them (with
    `strconv.IntSize == 64`, so `int` and `uint` are 64 bits wide), the
    two's-complement conversions between them, and nil-able values. */
module GoTypes {

  datatype Option<T> = None | Some(value: T)

  const MinInt32: int := -0x8000_0000
  const MaxInt32: int := 0x7FFF_FFFF
  const MaxUint32: int := 0xFFFF_FFFF
  const MinInt64: int := -0x8000_0000_0000_0000
  const MaxInt64: int := 0x7FFF_FFFF_FFFF_FFFF
  const MaxUint64: int := 0xFFFF_FFFF_FFFF_FFFF

  const Two32: int := 0x1_0000_0000
  const Two64: int := 0x1_0000_0000_0000_0000

  type I32 = n: int | MinInt32 <= n <= MaxInt32
  type U32 = n: int | 0 <= n <= MaxUint32
  type I64 = n: int | MinInt64 <= n <= MaxInt64
  type U64 = n: int | 0 <= n <= MaxUint64

  /** The integer types a dynamically typed value may carry. */
  datatype IntType = Int | Int32 | Int64 | Uint | Uint32 | Uint64
  {
    predicate Signed() {
      this == Int || this == Int32 || this == Int64
    }

    function Min(): int {
      match this
      case Int32 => MinInt32
      case Int | Int64 => MinInt64
      case Uint | Uint32 | Uint64 => 0
    }

    function Max(): int {
      match this
      case Int32 => MaxInt32
      case Int | Int64 => MaxInt64
      case Uint32 => MaxUint32
      case Uint | Uint64 => MaxUint64
    }

    /** `n` is a value of this type. */
    predicate Holds(n: int) {
      Min() <= n <= Max()
    }
  }

  /** `uint32(x)`: keep the low 32 bits. */
  function WrapUint32(x: int): (r: U32)
    ensures (r - x) % Two32 == 0
    ensures 0 <= x <= MaxUint32 ==> r == x
  {
    x % Two32
  }

  /** `int32(x)`: keep the low 32 bits and read them as two's complement. */
  function WrapInt32(x: int): (r: I32)
    ensures (r - x) % Two32 == 0
    ensures MinInt32 <= x <= MaxInt32 ==> r == x
  {
    var m := x % Two32;
    if m > MaxInt32 then m - Two32 else m
  }

  /** `int64(x)`: keep the low 64 bits and read them as two's complement. */
  function WrapInt64(x: int): (r: I64)
    ensures (r - x) % Two64 == 0
    ensures MinInt64 <= x <= MaxInt64 ==> r == x
  {
    var m := x % Two64;
    if m > MaxInt64 then m - Two64 else m
  }
}
