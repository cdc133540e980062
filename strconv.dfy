/** The part of Go's `strconv` package the parameter parser relies on:
    `ParseUint`, `ParseInt` and `Atoi` for bases 0 and 2..36 and bit sizes
    32 and 64, and decimal formatting (`FormatInt`, `FormatUint`).
    Errors are `*NumError` values; as Go documents, a syntax error comes with
    the value 0 and a range error with the clamped bound. */
module Strconv {
  import opened GoTypes

  datatype NumErrorKind = ErrSyntax | ErrRange

  /** `strconv.NumError`: the failing function, the input and the cause. */
  datatype NumError = NumError(func: string, num: string, kind: NumErrorKind)

  /** `(*NumError).Error()`; Go quotes `num` with `strconv.Quote`, which
      escapes non-printable characters: here it is only put in quotes. */
  function NumErrorText(e: NumError): (r: string)
    ensures |r| > 0
  {
    "strconv." + e.func + ": parsing \"" + e.num + "\": "
    + (if e.kind == ErrSyntax then "invalid syntax" else "value out of range")
  }

  /** A parse result: Go returns a value and an error together. */
  datatype Parsed = Parsed(val: int, err: Option<NumError>)

  predicate IsBitSize(bitSize: nat) {
    bitSize == 32 || bitSize == 64
  }

  function MaxUnsigned(bitSize: nat): nat
    requires IsBitSize(bitSize)
  {
    if bitSize == 32 then MaxUint32 else MaxUint64
  }

  /** 2^(bitSize-1): the least positive value that does not fit the signed width. */
  function SignedCutoff(bitSize: nat): int
    requires IsBitSize(bitSize)
  {
    if bitSize == 32 then MaxInt32 + 1 else MaxInt64 + 1
  }

  predicate IsBase(base: nat) {
    base == 0 || 2 <= base <= 36
  }

  /** The outcome strconv documents for a value `v` checked against [lo, hi]. */
  function RangeChecked(v: int, lo: int, hi: int, func: string, num: string): Parsed
  {
    if v < lo then Parsed(lo, Some(NumError(func, num, ErrRange)))
    else if v > hi then Parsed(hi, Some(NumError(func, num, ErrRange)))
    else Parsed(v, None)
  }

  // ---------------------------------------------------------------- digits

  predicate IsDecDigit(c: char) {
    '0' <= c <= '9'
  }

  predicate AllDecimal(s: string) {
    forall i :: 0 <= i < |s| ==> IsDecDigit(s[i])
  }

  /** The digit a character stands for in bases up to 36 (either letter case). */
  function DigitValue(c: char): (d: Option<nat>)
    ensures d.Some? ==> d.value < 36
    ensures IsDecDigit(c) <==> d.Some? && d.value < 10
  {
    if '0' <= c <= '9' then Some(c as int - '0' as int)
    else if 'a' <= c <= 'z' then Some(c as int - 'a' as int + 10)
    else if 'A' <= c <= 'Z' then Some(c as int - 'A' as int + 10)
    else None
  }

  /** How the digit loop of `ParseUint` ends. */
  datatype Scan = Scanned(n: nat) | BadDigit | TooBig

  /** The digit loop of `ParseUint`: accumulates `acc * base + d` from the
      left, skips '_' when the base was 0, stops at the first character that
      is not a digit of `base`, and stops with a range error as soon as the
      accumulated value exceeds `maxVal` (even if a bad character follows). */
  function ScanDigits(s: string, base: nat, base0: bool, maxVal: nat, acc: nat): (r: Scan)
    requires acc <= maxVal
    ensures r.Scanned? ==> r.n <= maxVal
    decreases |s|
  {
    if s == [] then Scanned(acc)
    else if s[0] == '_' && base0 then ScanDigits(s[1..], base, base0, maxVal, acc)
    else match DigitValue(s[0])
      case None => BadDigit
      case Some(d) =>
        if d >= base then BadDigit
        else if acc * base + d > maxVal then TooBig
        else ScanDigits(s[1..], base, base0, maxVal, acc * base + d)
  }

  /** Base selection for base 0: "0b", "0o", "0x" (either case) followed by
      at least one more character select 2, 8 and 16; any other leading '0'
      selects octal; everything else is decimal. Returns the base and the
      digits after the prefix. */
  function SplitPrefix(s: string): (r: (nat, string))
    requires s != []
    ensures r.0 == 2 || r.0 == 8 || r.0 == 10 || r.0 == 16
    ensures |r.1| <= |s| && r.1 == s[|s| - |r.1|..]
    ensures r.0 == 10 <==> s[0] != '0'
    ensures r.0 == 10 ==> r.1 == s
  {
    if s[0] != '0' then (10, s)
    else if |s| >= 3 && (s[1] == 'b' || s[1] == 'B') then (2, s[2..])
    else if |s| >= 3 && (s[1] == 'o' || s[1] == 'O') then (8, s[2..])
    else if |s| >= 3 && (s[1] == 'x' || s[1] == 'X') then (16, s[2..])
    else (8, s[1..])
  }

  // ----------------------------------------------------------- underscores

  /** What `underscoreOK` last saw: the start, a digit or base prefix, an underscore, anything else. */
  datatype Saw = Begin | Digit | Underscore | Other

  function UnderscoreScan(s: string, saw: Saw, hex: bool): (r: bool)
    ensures '_' !in s && saw != Underscore ==> r
    ensures |s| > 0 && s[|s| - 1] == '_' ==> !r
    decreases |s|
  {
    if s == [] then saw != Underscore
    else if IsDecDigit(s[0]) || (hex && ('a' <= s[0] <= 'f' || 'A' <= s[0] <= 'F')) then
      UnderscoreScan(s[1..], Digit, hex)
    else if s[0] == '_' then saw == Digit && UnderscoreScan(s[1..], Underscore, hex)
    else saw != Underscore && UnderscoreScan(s[1..], Other, hex)
  }

  /** Underscores may only separate digits (or follow a base prefix). */
  function UnderscoreOK(s: string): bool
  {
    var t := if |s| >= 1 && (s[0] == '-' || s[0] == '+') then s[1..] else s;
    if |t| >= 2 && t[0] == '0' && t[1] in "bBoOxX" then
      UnderscoreScan(t[2..], Digit, t[1] == 'x' || t[1] == 'X')
    else UnderscoreScan(t, Begin, false)
  }

  /** A text without underscores passes `UnderscoreOK`. */
  lemma NoUnderscorePasses(s: string)
    requires '_' !in s
    ensures UnderscoreOK(s)
  {
    var t := if |s| >= 1 && (s[0] == '-' || s[0] == '+') then s[1..] else s;
    assert forall k :: 0 <= k < |t| ==> t[k] == s[|s| - |t| + k];
    if |t| >= 2 && t[0] == '0' && t[1] in "bBoOxX" {
      var rest := t[2..];
      assert forall k :: 0 <= k < |rest| ==> rest[k] == t[k + 2];
      assert UnderscoreOK(s) == UnderscoreScan(rest, Digit, t[1] == 'x' || t[1] == 'X');
    } else {
      assert UnderscoreOK(s) == UnderscoreScan(t, Begin, false);
    }
  }

  /** A text that ends in an underscore fails `UnderscoreOK`. */
  lemma TrailingUnderscoreFails(s: string)
    requires |s| > 0 && s[|s| - 1] == '_'
    ensures !UnderscoreOK(s)
  {
    var t := if |s| >= 1 && (s[0] == '-' || s[0] == '+') then s[1..] else s;
    assert |t| > 0 && t[|t| - 1] == s[|s| - 1];
    if |t| >= 2 && t[0] == '0' && t[1] in "bBoOxX" {
      var rest := t[2..];
      assert t[1] != '_';
      assert |rest| > 0 && rest[|rest| - 1] == '_';
      assert UnderscoreOK(s) == UnderscoreScan(rest, Digit, t[1] == 'x' || t[1] == 'X');
    } else {
      assert UnderscoreOK(s) == UnderscoreScan(t, Begin, false);
    }
  }

  /** A text whose first character after the sign is an underscore fails
      `UnderscoreOK`. */
  lemma LeadingUnderscoreFails(s: string)
    requires |Unsigned(s)| > 0 && Unsigned(s)[0] == '_'
    ensures !UnderscoreOK(s)
  {
    var t := if |s| >= 1 && (s[0] == '-' || s[0] == '+') then s[1..] else s;
    assert t == Unsigned(s);
    assert UnderscoreOK(s) == UnderscoreScan(t, Begin, false);
  }

  // --------------------------------------------------------------- parsing

  /** `strconv.ParseUint(s, base, bitSize)`. */
  function ParseUint(s: string, base: nat, bitSize: nat): (r: Parsed)
    requires IsBase(base) && IsBitSize(bitSize)
    ensures 0 <= r.val <= MaxUnsigned(bitSize)
    ensures r.err.Some? ==> r.err.value.func == "ParseUint" && r.err.value.num == s
    ensures r.err.Some? ==> r.val == if r.err.value.kind == ErrRange then MaxUnsigned(bitSize) else 0
    ensures s == [] ==> r.err.Some? && r.err.value.kind == ErrSyntax
  {
    if s == [] then Parsed(0, Some(NumError("ParseUint", s, ErrSyntax)))
    else
      var split := if base == 0 then SplitPrefix(s) else (base, s);
      var maxVal := MaxUnsigned(bitSize);
      match ScanDigits(split.1, split.0, base == 0, maxVal, 0)
      case BadDigit => Parsed(0, Some(NumError("ParseUint", s, ErrSyntax)))
      case TooBig => Parsed(maxVal, Some(NumError("ParseUint", s, ErrRange)))
      case Scanned(n) =>
        if base == 0 && '_' in split.1 && !UnderscoreOK(s) then
          Parsed(0, Some(NumError("ParseUint", s, ErrSyntax)))
        else Parsed(n, None)
  }

  /** `s` without one leading sign. */
  function Unsigned(s: string): (r: string)
    ensures |r| <= |s| && r == s[|s| - |r|..]
  {
    if |s| > 0 && (s[0] == '+' || s[0] == '-') then s[1..] else s
  }

  /** `strconv.ParseInt(s, base, bitSize)`: an optional sign, then `ParseUint`
      of the rest, then the signed range check. */
  function ParseInt(s: string, base: nat, bitSize: nat): (r: Parsed)
    requires IsBase(base) && IsBitSize(bitSize)
    ensures -SignedCutoff(bitSize) <= r.val < SignedCutoff(bitSize)
    ensures r.err.Some? ==> r.err.value.func == "ParseInt" && r.err.value.num == s
    ensures r.err.Some? && r.err.value.kind == ErrSyntax ==> r.val == 0
    ensures r.err.Some? && r.err.value.kind == ErrRange ==>
              r.val == -SignedCutoff(bitSize) || r.val == SignedCutoff(bitSize) - 1
  {
    if s == [] then Parsed(0, Some(NumError("ParseInt", s, ErrSyntax)))
    else SignedRange(s, ParseUint(Unsigned(s), base, bitSize), bitSize)
  }

  /** The second half of `ParseInt`: a syntax error of `ParseUint` becomes
      ParseInt's own, a magnitude `u` beyond the signed width becomes a range
      error with the clamped bound, and otherwise the sign is applied. */
  function SignedRange(s: string, u: Parsed, bitSize: nat): Parsed
    requires s != [] && IsBitSize(bitSize)
  {
    var neg := s[0] == '-';
    var cutoff := SignedCutoff(bitSize);
    if u.err.Some? && u.err.value.kind == ErrSyntax then Parsed(0, Some(NumError("ParseInt", s, ErrSyntax)))
    else if !neg && u.val >= cutoff then Parsed(cutoff - 1, Some(NumError("ParseInt", s, ErrRange)))
    else if neg && u.val > cutoff then Parsed(-cutoff, Some(NumError("ParseInt", s, ErrRange)))
    else Parsed(if neg then -u.val else u.val, None)
  }

  /** `strconv.Atoi(s)` with a 64-bit `int`: `ParseInt(s, 10, 64)` reporting
      itself as "Atoi" (its fast path for short inputs has the same outcome). */
  function Atoi(s: string): (r: Parsed)
    ensures MinInt64 <= r.val <= MaxInt64
    ensures r.err.Some? ==> r.err.value.func == "Atoi" && r.err.value.num == s
    ensures r.err.Some? && r.err.value.kind == ErrSyntax ==> r.val == 0
    ensures r.err.Some? && r.err.value.kind == ErrRange ==> r.val == MinInt64 || r.val == MaxInt64
  {
    var p := ParseInt(s, 10, 64);
    Parsed(p.val, if p.err.Some? then Some(p.err.value.(func := "Atoi")) else None)
  }

  // ------------------------------------------------------------ formatting

  function DigitChar(k: nat): (c: char)
    requires k < 10
    ensures IsDecDigit(c) && c as int - '0' as int == k
  {
    ('0' as int + k) as char
  }

  /** The decimal digits of `n`, most significant first, without leading zeros. */
  function FormatUint(n: nat): (s: string)
    ensures |s| > 0 && AllDecimal(s)
    decreases n
  {
    if n < 10 then [DigitChar(n)] else FormatUint(n / 10) + [DigitChar(n % 10)]
  }

  /** `strconv.FormatInt(v, 10)`. */
  function FormatInt(v: int): (s: string)
    ensures |s| > 0
    ensures s[0] == '-' <==> v < 0
    ensures AllDecimal(if v < 0 then s[1..] else s)
  {
    if v < 0 then "-" + FormatUint(-v) else FormatUint(v)
  }
}
