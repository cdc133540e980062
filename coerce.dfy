/** The converters `getInt64`, `getUInt64`, `getInt32`, `getUInt32`, `getInt`
    and `getString`: each is a type switch from a dynamically typed raw value
    to one target type, returning a value and an error together. */
module Coerce {
  import opened GoTypes
  import opened Strconv
  import opened DecimalText

  /** A dynamically typed raw value (Go's `interface{}`): a string, one of
      the integer types with its payload, or a value of any other type
      without a case in the converters' switches, carried as its `%v` text. */
  datatype Dyn = DString(s: string) | DInt(t: IntType, n: int) | DOther(text: string)
  {
    predicate WellTyped() {
      DInt? ==> t.Holds(n)
    }
  }

  /** Raw values whose integer payload fits their type. */
  type Raw = d: Dyn | d.WellTyped() witness DString("")

  /** The errors a converter reports. */
  datatype ConvError = BelowZero | OutOfRange | CannotConvert | Strconv(cause: NumError)
  {
    /** `err.Error()`. */
    function Text(): (r: string)
      ensures |r| > 0
    {
      match this
      case BelowZero => "< 0"
      case OutOfRange => "out range"
      case CannotConvert => "Can't convert to int"
      case Strconv(e) => NumErrorText(e)
    }
  }

  /** A converter's two results: the value (always written by the caller)
      and the error. */
  datatype Conv<T> = Conv(val: T, err: Option<ConvError>)

  function FromParsed(p: Parsed): (r: Conv<int>)
    ensures r.val == p.val && (r.err.None? <==> p.err.None?)
  {
    Conv(p.val, if p.err.Some? then Some(Strconv(p.err.value)) else None)
  }

  /** `getInt64`. */
  function GetInt64(x: Raw): (r: Conv<int>)
    ensures Int64.Holds(r.val)
    ensures x == DString("") ==> r == Conv(0, None)
    ensures x.DOther? ==> r == Conv(0, Some(CannotConvert))
    ensures x.DInt? ==> r.err.None? && (r.val - x.n) % Two64 == 0
    ensures x.DInt? && x.n <= MaxInt64 ==> r.val == x.n
  {
    match x
    case DInt(t, n) =>
      (match t
       case Int64 | Int32 | Int | Uint32 => Conv(n, None)
       case Uint64 | Uint => Conv(WrapInt64(n), None))
    case DString(s) =>
      if s == "" then Conv(0, None) else FromParsed(ParseInt(s, 0, 64))
    case DOther(_) => Conv(0, Some(CannotConvert))
  }

  /** `getUInt64`. */
  function GetUInt64(x: Raw): (r: Conv<int>)
    ensures Uint64.Holds(r.val)
    ensures x == DString("") ==> r == Conv(0, None)
    ensures x.DOther? ==> r == Conv(0, Some(CannotConvert))
    ensures x.DInt? && x.n < 0 ==> r == Conv(0, Some(BelowZero))
    ensures x.DInt? && x.n >= 0 ==> r == Conv(x.n, None)
  {
    match x
    case DInt(t, n) =>
      if t.Signed() && n < 0 then Conv(0, Some(BelowZero)) else Conv(n, None)
    case DString(s) =>
      if s == "" then Conv(0, None) else FromParsed(ParseUint(s, 0, 64))
    case DOther(_) => Conv(0, Some(CannotConvert))
  }

  /** The decimal round trip `ParseInt(FormatInt(n, 10), 0, 32)` by which
      `getInt32` narrows 64-bit sources. */
  function ReparseInt32(s: string): (r: Conv<int>)
    requires s != []
    ensures Int32.Holds(r.val)
  {
    FromParsed(ParseInt(s, 0, 32))
  }

  /** `getInt32`. */
  function GetInt32(x: Raw): (r: Conv<int>)
    ensures Int32.Holds(r.val)
    ensures x == DString("") ==> r == Conv(0, None)
    ensures x.DOther? ==> r == Conv(0, Some(CannotConvert))
    ensures x.DInt? && (x.t == Int32 || x.t == Int) ==> r.err.None? && (r.val - x.n) % Two32 == 0
  {
    match x
    case DInt(t, n) =>
      (match t
       case Int32 => Conv(n, None)
       case Int => Conv(WrapInt32(n), None)
       case Int64 => ReparseInt32(FormatInt(n))
       case Uint64 | Uint32 | Uint => ReparseInt32(FormatUint(n)))
    case DString(s) =>
      if s == "" then Conv(0, None) else ReparseInt32(s)
    case DOther(_) => Conv(0, Some(CannotConvert))
  }

  /** The decimal round trip `ParseUint(s, 0, 32)` by which `getUInt32`
      narrows; the parse error is dropped, the (clamped or zero) value kept. */
  function ReparseUint32(s: string): (r: Conv<int>)
    ensures Uint32.Holds(r.val) && r.err.None?
  {
    if s == [] then Conv(0, None) else Conv(ParseUint(s, 0, 32).val, None)
  }

  /** `getUInt32`. */
  function GetUInt32(x: Raw): (r: Conv<int>)
    ensures Uint32.Holds(r.val)
    ensures x == DString("") ==> r == Conv(0, None)
    ensures x.DOther? ==> r == Conv(0, Some(CannotConvert))
    ensures x.DInt? && x.n < 0 ==> r == Conv(0, Some(BelowZero))
    ensures x.DString? ==> r.err.None?
    ensures x.DInt? && x.n >= 0 ==> r.err.None?
    ensures x.DInt? && x.t == Uint ==> (r.val - x.n) % Two32 == 0
  {
    match x
    case DInt(t, n) =>
      (match t
       case Int64 | Int => if n < 0 then Conv(0, Some(BelowZero)) else ReparseUint32(FormatInt(n))
       case Int32 => if n < 0 then Conv(0, Some(BelowZero)) else Conv(n, None)
       case Uint64 => ReparseUint32(FormatUint(n))
       case Uint32 => Conv(n, None)
       case Uint => Conv(WrapUint32(n), None))
    case DString(s) => ReparseUint32(s)
    case DOther(_) => Conv(0, Some(CannotConvert))
  }

  /** The decimal round trip `ParseInt(FormatInt(n, 10), 0, 64)` by which
      `getInt` passes 64-bit and 32-bit sources. */
  function ReparseInt(n: int): (r: Conv<int>)
    ensures Int.Holds(r.val)
  {
    FromParsed(ParseInt(FormatInt(n), 0, 64))
  }

  /** `getInt`. */
  function GetInt(x: Raw): (r: Conv<int>)
    ensures Int.Holds(r.val)
    ensures x == DString("") ==> r == Conv(0, None)
    ensures x.DOther? ==> r == Conv(0, Some(CannotConvert))
    ensures x.DInt? && (x.t == Int || x.t == Int32) ==> r == Conv(x.n, None)
  {
    match x
    case DInt(t, n) =>
      (match t
       case Int | Int32 => Conv(n, None)
       case Int64 | Uint32 => ReparseInt(n)
       case Uint64 => if n > MaxInt64 then Conv(0, Some(OutOfRange)) else ReparseInt(n)
       case Uint => if n > MaxInt64 then Conv(0, Some(OutOfRange)) else Conv(n, None))
    case DString(s) =>
      if s == "" then Conv(0, None) else FromParsed(Atoi(s))
    case DOther(_) => Conv(0, Some(CannotConvert))
  }

  /** `getString`: `fmt.Sprintf("%v", x)`, which never fails. */
  function GetString(x: Raw): (r: Conv<string>)
    ensures r.err.None?
    ensures x.DString? ==> r.val == x.s
    ensures x.DInt? ==> IsDecimalText(r.val, 10) && DecimalValue(r.val) == x.n
  {
    match x
    case DString(s) => Conv(s, None)
    case DInt(_, n) =>
      FormatIntIsDecimal(n);
      Conv(FormatInt(n), None)
    case DOther(text) => Conv(text, None)
  }

  // ------------------------------------------------------------ properties

  /** Every integer converter maps the empty string to 0 without error. */
  lemma EmptyStringIsZero()
    ensures GetInt64(DString("")) == Conv(0, None) && GetUInt64(DString("")) == Conv(0, None)
    ensures GetInt32(DString("")) == Conv(0, None) && GetUInt32(DString("")) == Conv(0, None)
    ensures GetInt(DString("")) == Conv(0, None)
  {
  }

  /** A negative signed source is refused by both unsigned targets, whatever
      its magnitude. */
  lemma NegativeToUnsigned(x: Raw)
    requires x.DInt? && x.t.Signed() && x.n < 0
    ensures GetUInt64(x) == Conv(0, Some(BelowZero))
    ensures GetUInt32(x) == Conv(0, Some(BelowZero))
    ensures GetUInt64(x).err.value.Text() == "< 0"
  {
  }

  /** `getInt32` on a 64-bit or unsigned integer source: the decimal round
      trip succeeds exactly when the value fits 32 bits, and otherwise
      reports `ParseInt`'s range error with the clamped bound. */
  lemma Int32NarrowingIsChecked(x: Raw)
    requires x.DInt? && x.t in {Int64, Uint64, Uint32, Uint}
    ensures GetInt32(x) == FromParsed(RangeChecked(x.n, MinInt32, MaxInt32, "ParseInt", FormatInt(x.n)))
    ensures GetInt32(x).err.None? <==> MinInt32 <= x.n <= MaxInt32
    ensures GetInt32(x).err.None? ==> GetInt32(x).val == x.n
  {
    var s := FormatInt(x.n);
    var checked := RangeChecked(x.n, MinInt32, MaxInt32, "ParseInt", s);
    assert GetInt32(x) == ReparseInt32(s) by {
      if !x.t.Signed() {
        assert FormatUint(x.n) == s;
      }
    }
    assert ParseInt(s, 0, 32) == checked by {
      ParseIntFormatInt(x.n, 0, 32);
    }
  }

  /** `getInt32` on `int` wraps silently: no error, the low 32 bits. */
  lemma Int32WrapsInt(x: Raw)
    requires x.DInt? && x.t == Int
    ensures GetInt32(x) == Conv(WrapInt32(x.n), None)
    ensures GetInt32(x).val == x.n <==> MinInt32 <= x.n <= MaxInt32
  {
  }

  /** `getInt64` on `uint64` and `uint` wraps silently past 2^63-1. */
  lemma Int64WrapsUnsigned(x: Raw)
    requires x.DInt? && (x.t == Uint64 || x.t == Uint)
    ensures GetInt64(x) == Conv(WrapInt64(x.n), None)
    ensures x.n > MaxInt64 ==> GetInt64(x).val == x.n - Two64
  {
  }

  /** `getUInt32` on a non-negative integer: `uint32` and `int32` pass, `uint`
      keeps the low 32 bits, and the 64-bit sources are clamped to
      4294967295, because the `ParseUint` range error is dropped. */
  lemma UInt32FromIntegers(x: Raw)
    requires x.DInt? && x.n >= 0
    ensures GetUInt32(x).err.None?
    ensures x.t == Uint ==> GetUInt32(x).val == WrapUint32(x.n)
    ensures x.t != Uint ==> GetUInt32(x).val == if x.n > MaxUint32 then MaxUint32 else x.n
  {
    if x.t in {Int64, Int, Uint64} {
      assert FormatUint(x.n) == FormatInt(x.n);
      ParseUintFormatUint(x.n, 0, 32);
    }
  }

  /** `getInt` on an integer source: everything up to 2^63-1 passes
      unchanged, larger unsigned values fail with "out range". */
  lemma IntFromIntegers(x: Raw)
    requires x.DInt?
    ensures GetInt(x) == if x.n > MaxInt64 then Conv(0, Some(OutOfRange)) else Conv(x.n, None)
  {
    if x.t in {Int64, Uint32, Uint64} && x.n <= MaxInt64 {
      ParseIntFormatInt(x.n, 0, 64);
    }
  }

  /** `getInt64` on a decimal text: the value when it fits 64 bits, else the
      range error with the clamped bound. */
  lemma Int64OfDecimalText(s: string)
    requires IsDecimalText(s, 0)
    ensures GetInt64(DString(s)) == FromParsed(RangeChecked(DecimalValue(s), MinInt64, MaxInt64, "ParseInt", s))
  {
    ParseIntDecimal(s, 0, 64);
  }

  /** `getInt32` on a decimal text: the value when it fits 32 bits, else the
      range error with the clamped bound. */
  lemma Int32OfDecimalText(s: string)
    requires IsDecimalText(s, 0)
    ensures GetInt32(DString(s)) == FromParsed(RangeChecked(DecimalValue(s), MinInt32, MaxInt32, "ParseInt", s))
  {
    ParseIntDecimal(s, 0, 32);
  }

  /** `getInt` on a decimal text, through `Atoi`. */
  lemma IntOfDecimalText(s: string)
    requires IsDecimalText(s, 10)
    ensures GetInt(DString(s)) == FromParsed(RangeChecked(DecimalValue(s), MinInt64, MaxInt64, "Atoi", s))
  {
    AtoiDecimal(s);
  }

  /** `getInt` refuses every non-empty text that is not a decimal integer,
      such as "abc" or "0x10". */
  lemma IntRejectsNonDecimal(s: string)
    requires s != "" && !IsDecimalText(s, 10)
    ensures GetInt(DString(s)).err.Some?
  {
    AtoiOnlyDecimal(s);
  }

  /** `getUInt64` on an unsigned decimal text: the value when it fits 64
      bits, else the range error with 18446744073709551615. */
  lemma UInt64OfDecimalText(s: string)
    requires IsDecimalText(s, 0) && s[0] != '+' && s[0] != '-'
    ensures GetUInt64(DString(s)) == FromParsed(RangeChecked(DecimalValue(s), 0, MaxUint64, "ParseUint", s))
  {
    ParseUintDecimal(s, 0, 64);
  }

  /** `getUInt32` on an unsigned decimal text never fails: the value,
      clamped to 4294967295. */
  lemma UInt32OfDecimalText(s: string)
    requires IsDecimalText(s, 0) && s[0] != '+' && s[0] != '-'
    ensures GetUInt32(DString(s)) == Conv(if DecimalValue(s) > MaxUint32 then MaxUint32 else DecimalValue(s), None)
  {
    ParseUintDecimal(s, 0, 32);
  }

  /** `getInt64` on a lone sign, or on a text whose digits after the sign
      are malformed at `i` (such as "12x4"), reports `ParseInt`'s error:
      a range error with the clamped bound when the digits before `i`
      already overflow, otherwise a syntax error with 0. */
  lemma Int64RejectsMalformed(s: string, i: nat)
    requires s != [] && (Unsigned(s) == [] || MalformedAt(Unsigned(s), i))
    ensures var kind := if Unsigned(s) == [] then ErrSyntax else StopKind(Unsigned(s), i, MaxUint64);
            GetInt64(DString(s)).err == Some(Strconv(NumError("ParseInt", s, kind)))
            && (kind == ErrSyntax ==> GetInt64(DString(s)).val == 0)
  {
    ParseIntMalformed(s, i, 0, 64);
  }

  /** `getInt32` on such a text reports `ParseInt`'s error at 32 bits. */
  lemma Int32RejectsMalformed(s: string, i: nat)
    requires s != [] && (Unsigned(s) == [] || MalformedAt(Unsigned(s), i))
    ensures var kind := if Unsigned(s) == [] then ErrSyntax else StopKind(Unsigned(s), i, MaxUint32);
            GetInt32(DString(s)).err == Some(Strconv(NumError("ParseInt", s, kind)))
            && (kind == ErrSyntax ==> GetInt32(DString(s)).val == 0)
  {
    ParseIntMalformed(s, i, 0, 32);
  }

  /** `getUInt64` on a text malformed at `i` (a sign counts as malformed)
      reports `ParseUint`'s error: 18446744073709551615 with a range error
      when the digits before `i` overflow, 0 with a syntax error otherwise. */
  lemma UInt64RejectsMalformed(s: string, i: nat)
    requires MalformedAt(s, i)
    ensures var kind := StopKind(s, i, MaxUint64);
            GetUInt64(DString(s)) == Conv(if kind == ErrRange then MaxUint64 else 0,
                                          Some(Strconv(NumError("ParseUint", s, kind))))
  {
    ParseUintMalformed(s, i, 0, 64);
  }

  /** `getUInt32` on a text malformed at `i` drops `ParseUint`'s error: the
      result is 4294967295 when the digits before `i` already overflow 32
      bits (as for "99999999999x"), and 0 otherwise, without error. */
  lemma UInt32OfMalformed(s: string, i: nat)
    requires MalformedAt(s, i)
    ensures GetUInt32(DString(s)) == Conv(if Horner(0, s[..i]) > MaxUint32 then MaxUint32 else 0, None)
  {
    ParseUintMalformed(s, i, 0, 32);
  }

  /** A signed text is malformed for the unsigned parser: `getUInt64`
      reports a syntax error, `getUInt32` drops it and yields 0. */
  lemma UnsignedRejectsSign(s: string)
    requires s != [] && (s[0] == '+' || s[0] == '-')
    ensures GetUInt64(DString(s)) == Conv(0, Some(Strconv(NumError("ParseUint", s, ErrSyntax))))
    ensures GetUInt32(DString(s)) == Conv(0, None)
  {
    assert DigitValue(s[0]).None?;
  }

  /** Formatting a signed integer with `getString` and converting the text
      back gives what converting the integer directly gives. */
  lemma StringPathAgrees(x: Raw)
    requires x.DInt? && x.t.Signed()
    ensures GetInt64(DString(GetString(x).val)) == GetInt64(x)
    ensures GetInt(DString(GetString(x).val)) == GetInt(x)
  {
    var s := FormatInt(x.n);
    FormatIntIsDecimal(x.n);
    Int64OfDecimalText(s);
    IntOfDecimalText(s);
    IntFromIntegers(x);
  }
}
