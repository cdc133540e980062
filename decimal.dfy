/** Decimal texts (an optional sign and a run of decimal digits): their
    value, and how `strconv` parses and formats them. These are the facts
    the parameter converters rely on. */
module DecimalText {
  import opened GoTypes
  import opened Strconv

  /** The value of the decimal digits `d` written after an accumulated `acc`. */
  function Horner(acc: nat, d: string): nat
    requires AllDecimal(d)
    decreases |d|
  {
    if d == [] then acc else Horner(acc * 10 + (d[0] as int - '0' as int), d[1..])
  }

  /** `s` is an optionally signed, non-empty run of decimal digits; for base 0
      it also must not start with '0' unless it is a lone "0" (a leading zero
      would select octal). */
  predicate IsDecimalText(s: string, base: nat) {
    var d := Unsigned(s);
    |d| > 0 && AllDecimal(d) && (base == 0 && d[0] == '0' ==> |d| == 1)
  }

  /** The integer a decimal text denotes. */
  function DecimalValue(s: string): int
    requires AllDecimal(Unsigned(s))
  {
    var magnitude: int := Horner(0, Unsigned(s));
    if |s| > 0 && s[0] == '-' then -magnitude else magnitude
  }

  lemma {:induction false} HornerGrows(acc: nat, d: string)
    requires AllDecimal(d)
    ensures Horner(acc, d) >= acc
    decreases |d|
  {
    if d != [] {
      HornerGrows(acc * 10 + (d[0] as int - '0' as int), d[1..]);
    }
  }

  lemma {:induction false} HornerSnoc(acc: nat, d: string, c: char)
    requires AllDecimal(d) && IsDecDigit(c)
    ensures AllDecimal(d + [c])
    ensures Horner(acc, d + [c]) == Horner(acc, d) * 10 + (c as int - '0' as int)
    decreases |d|
  {
    if d != [] {
      assert (d + [c])[1..] == d[1..] + [c];
      HornerSnoc(acc * 10 + (d[0] as int - '0' as int), d[1..], c);
    }
  }

  /** Reading back the digits `FormatUint` writes gives the number, and they
      start with '0' only for zero. */
  lemma {:induction false} FormatUintValue(n: nat)
    ensures Horner(0, FormatUint(n)) == n
    ensures FormatUint(n)[0] == '0' <==> n == 0
    ensures n == 0 ==> FormatUint(n) == "0"
    decreases n
  {
    if n >= 10 {
      FormatUintValue(n / 10);
      HornerSnoc(0, FormatUint(n / 10), DigitChar(n % 10));
    }
  }

  /** `FormatInt` writes a decimal text that every base accepted here reads as `v`. */
  lemma FormatIntIsDecimal(v: int)
    ensures IsDecimalText(FormatInt(v), 0) && IsDecimalText(FormatInt(v), 10)
    ensures DecimalValue(FormatInt(v)) == v
  {
    var s := FormatInt(v);
    if v < 0 {
      FormatUintValue(-v);
      assert Unsigned(s) == FormatUint(-v);
    } else {
      FormatUintValue(v);
      assert Unsigned(s) == FormatUint(v);
    }
  }

  /** On decimal digits the digit loop computes the value, and fails with a
      range error exactly when that value exceeds `maxVal`. */
  lemma {:induction false} ScanDecimal(d: string, base0: bool, maxVal: nat, acc: nat)
    requires AllDecimal(d) && acc <= maxVal
    ensures ScanDigits(d, 10, base0, maxVal, acc)
            == if Horner(acc, d) > maxVal then TooBig else Scanned(Horner(acc, d))
    decreases |d|
  {
    if d != [] {
      var next := acc * 10 + (d[0] as int - '0' as int);
      assert DigitValue(d[0]) == Some(d[0] as int - '0' as int);
      if next > maxVal {
        HornerGrows(next, d[1..]);
      } else {
        ScanDecimal(d[1..], base0, maxVal, next);
      }
    }
  }

  /** In a fixed base of 10 the digit loop never completes on a character
      that is not a decimal digit. */
  lemma {:induction false} ScanRejectsNonDecimal(d: string, maxVal: nat, acc: nat)
    requires !AllDecimal(d) && acc <= maxVal
    ensures !ScanDigits(d, 10, false, maxVal, acc).Scanned?
    decreases |d|
  {
    if IsDecDigit(d[0]) {
      var next := acc * 10 + (d[0] as int - '0' as int);
      assert DigitValue(d[0]) == Some(d[0] as int - '0' as int);
      if next <= maxVal {
        assert !AllDecimal(d[1..]) by {
          var i :| 0 <= i < |d| && !IsDecDigit(d[i]);
          assert d[1..][i - 1] == d[i];
        }
        ScanRejectsNonDecimal(d[1..], maxVal, next);
      }
    }
  }

  /** `d` is malformed at `i`: it does not start with '0' (so base 0 reads it
      as decimal), its characters before `i` are decimal digits, and the one
      at `i` is neither a digit nor an underscore. */
  predicate MalformedAt(d: string, i: nat) {
    i < |d| && d[0] != '0' && AllDecimal(d[..i]) && !IsDecDigit(d[i]) && d[i] != '_'
  }

  /** The error `ParseUint` reports for a text malformed at `i`: a range
      error when the digits before `i` already exceed `maxVal`, otherwise a
      syntax error. */
  function StopKind(d: string, i: nat, maxVal: nat): NumErrorKind
    requires i <= |d| && AllDecimal(d[..i])
  {
    if Horner(0, d[..i]) > maxVal then ErrRange else ErrSyntax
  }

  /** The decimal digit loop stops at the first character that is neither a
      digit nor an underscore: with a range error if the digits before it
      have already grown past `maxVal`, with a bad digit otherwise. */
  lemma {:induction false} ScanStopsAt(d: string, i: nat, base0: bool, maxVal: nat, acc: nat)
    requires i < |d| && AllDecimal(d[..i]) && !IsDecDigit(d[i]) && d[i] != '_' && acc <= maxVal
    ensures ScanDigits(d, 10, base0, maxVal, acc) == if Horner(acc, d[..i]) > maxVal then TooBig else BadDigit
    decreases i
  {
    if i == 0 {
      assert d[..0] == [];
    } else {
      assert IsDecDigit(d[..i][0]);
      var next := acc * 10 + (d[0] as int - '0' as int);
      assert DigitValue(d[0]) == Some(d[0] as int - '0' as int);
      assert d[..i][1..] == d[1..][..i - 1];
      if next > maxVal {
        HornerGrows(next, d[1..][..i - 1]);
      } else {
        ScanStopsAt(d[1..], i - 1, base0, maxVal, next);
      }
    }
  }

  /** `ParseUint` in base 0 or 10 on a text malformed at `i`: the range
      error with the maximum when the digits before `i` overflow, otherwise
      the syntax error with 0. */
  lemma ParseUintMalformed(d: string, i: nat, base: nat, bitSize: nat)
    requires (base == 0 || base == 10) && IsBitSize(bitSize) && MalformedAt(d, i)
    ensures var kind := StopKind(d, i, MaxUnsigned(bitSize));
            ParseUint(d, base, bitSize)
            == Parsed(if kind == ErrRange then MaxUnsigned(bitSize) else 0, Some(NumError("ParseUint", d, kind)))
  {
    ParseUintInBaseTen(d, base, bitSize);
    ScanStopsAt(d, i, base == 0, MaxUnsigned(bitSize), 0);
  }

  /** `ParseInt` in base 0 or 10 on a lone sign, or on a text whose digits
      after the sign are malformed at `i`, always fails: with a range error
      exactly when the digits before `i` overflow the unsigned width. */
  lemma ParseIntMalformed(s: string, i: nat, base: nat, bitSize: nat)
    requires (base == 0 || base == 10) && IsBitSize(bitSize) && s != []
    requires Unsigned(s) == [] || MalformedAt(Unsigned(s), i)
    ensures ParseInt(s, base, bitSize).err
            == Some(NumError("ParseInt", s,
                             if Unsigned(s) == [] then ErrSyntax else StopKind(Unsigned(s), i, MaxUnsigned(bitSize))))
  {
    ParseIntIsSignedRange(s, base, bitSize);
    if Unsigned(s) != [] {
      ParseUintMalformed(Unsigned(s), i, base, bitSize);
    }
  }

  /** `ParseUint` on unsigned decimal digits: the value, or the documented
      range error with the clamped maximum. */
  lemma ParseUintDecimal(d: string, base: nat, bitSize: nat)
    requires (base == 0 || base == 10) && IsBitSize(bitSize)
    requires IsDecimalText(d, base) && d[0] != '+' && d[0] != '-'
    ensures ParseUint(d, base, bitSize) == RangeChecked(Horner(0, d), 0, MaxUnsigned(bitSize), "ParseUint", d)
  {
    assert Unsigned(d) == d;
    var maxVal := MaxUnsigned(bitSize);
    if base == 0 && d[0] == '0' {
      assert d == "0";
      ParseUintZero(bitSize);
    } else {
      ParseUintInBaseTen(d, base, bitSize);
      ScanDecimal(d, base == 0, maxVal, 0);
      assert '_' !in d by {
        assert !IsDecDigit('_');
      }
    }
  }

  /** With base 0, "0" selects octal and leaves no digits: the value is 0. */
  lemma ParseUintZero(bitSize: nat)
    requires IsBitSize(bitSize)
    ensures ParseUint("0", 0, bitSize) == Parsed(0, None)
  {
    var split := SplitPrefix("0");
    assert split == (8, []);
    assert ScanDigits(split.1, split.0, true, MaxUnsigned(bitSize), 0) == Scanned(0);
  }

  /** When the base is 10, or base 0 meets no leading '0', `ParseUint` is the
      decimal digit loop over the whole input. */
  lemma ParseUintInBaseTen(d: string, base: nat, bitSize: nat)
    requires (base == 0 || base == 10) && IsBitSize(bitSize) && d != [] && (base == 0 ==> d[0] != '0')
    ensures ParseUint(d, base, bitSize) ==
      match ScanDigits(d, 10, base == 0, MaxUnsigned(bitSize), 0)
      case BadDigit => Parsed(0, Some(NumError("ParseUint", d, ErrSyntax)))
      case TooBig => Parsed(MaxUnsigned(bitSize), Some(NumError("ParseUint", d, ErrRange)))
      case Scanned(n) =>
        if base == 0 && '_' in d && !UnderscoreOK(d) then Parsed(0, Some(NumError("ParseUint", d, ErrSyntax)))
        else Parsed(n, None)
  {
  }

  /** `ParseInt` on a signed decimal text: the value when it fits the width,
      otherwise the documented range error with the clamped bound. */
  lemma ParseIntDecimal(s: string, base: nat, bitSize: nat)
    requires (base == 0 || base == 10) && IsBitSize(bitSize)
    requires IsDecimalText(s, base)
    ensures ParseInt(s, base, bitSize)
            == RangeChecked(DecimalValue(s), -SignedCutoff(bitSize), SignedCutoff(bitSize) - 1, "ParseInt", s)
  {
    var d := Unsigned(s);
    var h := Horner(0, d);
    ParseIntOfMagnitude(s, base, bitSize);
    SignedRangeOfMagnitude(s, h, d, bitSize);
    SignedDecimalValue(s);
  }

  /** `ParseInt` on a signed decimal text is the signed range check of the
      checked magnitude `ParseUint` computes for its digits. */
  lemma ParseIntOfMagnitude(s: string, base: nat, bitSize: nat)
    requires (base == 0 || base == 10) && IsBitSize(bitSize)
    requires IsDecimalText(s, base)
    ensures ParseInt(s, base, bitSize)
            == SignedRange(s, RangeChecked(Horner(0, Unsigned(s)), 0, MaxUnsigned(bitSize), "ParseUint", Unsigned(s)), bitSize)
  {
    MagnitudeIsDecimal(s, base);
    ParseUintDecimal(Unsigned(s), base, bitSize);
    ParseIntIsSignedRange(s, base, bitSize);
  }

  /** A decimal text's value is its magnitude, negated after a '-'. */
  lemma SignedDecimalValue(s: string)
    requires s != [] && AllDecimal(Unsigned(s))
    ensures DecimalValue(s) == if s[0] == '-' then -(Horner(0, Unsigned(s)) as int) else Horner(0, Unsigned(s))
  {
  }

  /** The digits after the sign of a decimal text are themselves a decimal
      text with no sign. */
  lemma MagnitudeIsDecimal(s: string, base: nat)
    requires IsDecimalText(s, base)
    ensures IsDecimalText(Unsigned(s), base)
    ensures Unsigned(s)[0] != '+' && Unsigned(s)[0] != '-'
  {
    assert IsDecDigit(Unsigned(s)[0]);
  }

  /** `ParseInt` is the signed range check of `ParseUint` on the digits
      after the sign. */
  lemma ParseIntIsSignedRange(s: string, base: nat, bitSize: nat)
    requires IsBase(base) && IsBitSize(bitSize) && s != []
    ensures ParseInt(s, base, bitSize) == SignedRange(s, ParseUint(Unsigned(s), base, bitSize), bitSize)
  {
  }

  /** The signed range check applied to a checked magnitude `h`. */
  lemma SignedRangeOfMagnitude(s: string, h: nat, d: string, bitSize: nat)
    requires s != [] && IsBitSize(bitSize)
    ensures SignedRange(s, RangeChecked(h, 0, MaxUnsigned(bitSize), "ParseUint", d), bitSize)
            == RangeChecked(if s[0] == '-' then -(h as int) else h,
                            -SignedCutoff(bitSize), SignedCutoff(bitSize) - 1, "ParseInt", s)
  {
  }

  /** The decimal round trip behind the parser's narrowings: formatting `v`
      and parsing it back at a width succeeds exactly when `v` fits. */
  lemma ParseIntFormatInt(v: int, base: nat, bitSize: nat)
    requires (base == 0 || base == 10) && IsBitSize(bitSize)
    ensures ParseInt(FormatInt(v), base, bitSize)
            == RangeChecked(v, -SignedCutoff(bitSize), SignedCutoff(bitSize) - 1, "ParseInt", FormatInt(v))
  {
    FormatIntIsDecimal(v);
    ParseIntDecimal(FormatInt(v), base, bitSize);
  }

  /** The unsigned counterpart: `ParseUint(FormatUint(n))` succeeds exactly when `n` fits. */
  lemma ParseUintFormatUint(n: nat, base: nat, bitSize: nat)
    requires (base == 0 || base == 10) && IsBitSize(bitSize)
    ensures ParseUint(FormatUint(n), base, bitSize)
            == RangeChecked(n, 0, MaxUnsigned(bitSize), "ParseUint", FormatUint(n))
  {
    FormatIntIsDecimal(n);
    assert FormatInt(n) == FormatUint(n);
    FormatUintValue(n);
    ParseUintDecimal(FormatUint(n), base, bitSize);
  }

  /** `Atoi` accepts nothing but an optionally signed run of decimal digits. */
  lemma AtoiOnlyDecimal(s: string)
    requires !IsDecimalText(s, 10)
    ensures Atoi(s).err.Some?
  {
    var d := Unsigned(s);
    if s != [] && d != [] {
      ScanRejectsNonDecimal(d, MaxUint64, 0);
    }
  }

  /** `Atoi` on a decimal text: the value when it fits 64 bits, otherwise a range error. */
  lemma AtoiDecimal(s: string)
    requires IsDecimalText(s, 10)
    ensures Atoi(s).err.None? <==> MinInt64 <= DecimalValue(s) <= MaxInt64
    ensures Atoi(s).err.None? ==> Atoi(s).val == DecimalValue(s)
    ensures Atoi(s).err.Some? ==> Atoi(s).err.value == NumError("Atoi", s, ErrRange)
  {
    ParseIntDecimal(s, 10, 64);
  }
}
