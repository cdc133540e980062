# paramParse in Dafny

A model of `paramParse`, a small Go package that binds HTTP request
parameters to typed Go variables. A program declares parameters by name on a
`Parser`. Each declaration records a type tag, an optional default and a pointer
to an output variable, either allocated by the parser (`String`, `Int`, …) or
supplied by the caller (`StringVal`, `IntVal`, …). Raw request values sit in
the map `mData`. `DoParse` walks the declarations. For each one it:

1. looks up the raw value, falling back to the default;
2. converts it with the converter for the declared type (`getInt64`,
   `getUInt64`, `getInt32`, `getUInt32`, `getInt`, `getString`);
3. writes the result into the variable.

It stops at the first failure and records it in `Err`.

The project has six modules:

- `GoTypes` (gotypes.dfy): Go's fixed-width integer ranges (`int` and `uint`
  are 64 bits wide) and the two's-complement conversions `int32(x)`,
  `int64(x)` and `uint32(x)`.
- `Strconv` (strconv.dfy): the part of Go's `strconv` that the converters call.
  - `ParseUint` and `ParseInt` handle base 0, the `0b`/`0o`/`0x` prefixes, a
    leading `0` meaning octal, and digit-separating underscores. Overflow is
    detected inside the digit loop.
  - `Atoi` and decimal `FormatInt`/`FormatUint`.
  - Errors are `NumError` values: a syntax error comes with 0 and a range
    error with the clamped bound.
- `DecimalText` (decimal.dfy): what these functions do on decimal texts. The
  main facts are that parsing gives the value or the documented range error,
  and that `ParseInt(FormatInt(v))` succeeds exactly when `v` fits.
- `Coerce` (coerce.dfy): the six converters as functions on a closed
  datatype of raw values, each with its edge cases, plus lemmas about them:
  - empty strings give 0;
  - negative sources are refused by unsigned targets;
  - checked and silent narrowings;
  - errors that `getUInt32` drops: a malformed text gives 0, or 4294967295
    when its digits overflow before the bad character is reached;
  - malformed texts: the other base-0 converters report `ParseInt`'s or
    `ParseUint`'s error.
- `ParamParse` (parser.dfy): the registry and the resolution driver.
  - `Parser` is a class with `mData`, `mParam` and `err`, the declaration
    methods and `DoParse`.
  - `DoParse` is a loop whose postcondition relates the outcome to
    `FirstFailure`, the number of keys that resolve before the first that
    fails. It relates the variables to `Writes`, the log of writes the
    visited keys perform.
- `ParamParseScenarios` (scenarios.dfy): the package's unit tests as methods.
  Their postconditions state the expected outcome for every iteration order
  of the declarations.

Output variables are `Slot` objects with a fixed Go type (`kind`) and a
mutable `value`. Several declarations may share a variable, as Go pointers
may. `DoParse` takes the map iteration order as a parameter `order`: a
sequence listing every declared name exactly once.

## Model

| member | source | states |
|---|---|---|
| GoTypes.WrapInt32 | paramParse.go:307-308 | `int32(i)` keeps the value congruent mod 2^32 and in the int32 range, and is the identity on int32 values |
| GoTypes.WrapInt64 | paramParse.go:238-243 | `int64(i)` from an unsigned source is congruent mod 2^64, in range, and the identity up to 2^63-1 |
| GoTypes.WrapUint32 | paramParse.go:366-367 | `uint32(i)` keeps the low 32 bits: congruent mod 2^32, in range, identity on uint32 values |
| Strconv.SplitPrefix | paramParse.go:248 | base 0 selects 10 exactly when the text does not start with '0'; otherwise 2, 8 or 16; the digits are a suffix of the text |
| Strconv.NoUnderscorePasses | paramParse.go:248 | UnderscoreOK (strconv's `underscoreOK`, reached by every base-0 parse) accepts every text without underscores |
| Strconv.TrailingUnderscoreFails | paramParse.go:248 | UnderscoreOK refuses a text that ends in an underscore |
| Strconv.LeadingUnderscoreFails | paramParse.go:248 | UnderscoreOK refuses a text whose first character after the sign is an underscore |
| Strconv.ScanDigits | paramParse.go:287 | the digit loop never completes with a value above the width's maximum |
| Strconv.ParseUint | paramParse.go:287 | the result is within the unsigned width; an error names ParseUint and the input, and comes with the maximum (range) or 0 (syntax); empty input is a syntax error |
| Strconv.ParseInt | paramParse.go:248 | the result is within the signed width; a syntax error comes with 0, a range error with one of the two clamped bounds |
| Strconv.Atoi | paramParse.go:415 | the result is a 64-bit int; errors name Atoi and the input, with 0 for syntax and the clamped bound for range errors |
| Strconv.FormatUint | paramParse.go:310 | writes a non-empty run of decimal digits |
| Strconv.FormatInt | paramParse.go:302 | a non-empty text that starts with '-' exactly for negative numbers, with decimal digits after the sign (its value in `FormatIntIsDecimal`) |
| DecimalText.FormatUintValue | paramParse.go:310 | reading FormatUint's digits back gives the number; they start with '0' only for zero |
| DecimalText.FormatIntIsDecimal | paramParse.go:302 | FormatInt writes a decimal text whose value is the number, acceptable to base 0 and base 10 |
| DecimalText.ScanDecimal | paramParse.go:287 | on decimal digits the digit loop yields the value, or a range error exactly when the value exceeds the maximum |
| DecimalText.ScanRejectsNonDecimal | paramParse.go:415 | in base 10 the digit loop never completes on a text with a non-digit |
| DecimalText.ScanStopsAt | paramParse.go:287 | the decimal digit loop stops at the first character that is neither a digit nor an underscore: a range error iff the digits before it already exceed the maximum, else a bad digit |
| DecimalText.ParseUintMalformed | paramParse.go:287 | ParseUint of a text malformed at i is the range error with the maximum when the digits before i overflow, else the syntax error with 0 |
| DecimalText.ParseIntMalformed | paramParse.go:248 | ParseInt of a lone sign, or of a text whose digits after the sign are malformed at i, always fails: a range error exactly when the digits before i overflow |
| DecimalText.ParseUintZero | paramParse.go:287 | with base 0, "0" parses as 0 |
| DecimalText.ParseUintDecimal | paramParse.go:287 | ParseUint on unsigned decimal digits is the range check of their value against [0, max] |
| DecimalText.ParseIntDecimal | paramParse.go:248 | ParseInt on a signed decimal text is the range check of its value against the signed width |
| DecimalText.ParseIntFormatInt | paramParse.go:302-303 | ParseInt(FormatInt(v), 0, w) returns v exactly when v fits w bits, else the range error with the clamped bound |
| DecimalText.ParseUintFormatUint | paramParse.go:361-362 | ParseUint(FormatUint(n), 0, w) returns n exactly when n fits, else the range error with the maximum |
| DecimalText.AtoiOnlyDecimal | paramParse.go:415 | Atoi fails on every text that is not an optionally signed run of decimal digits |
| DecimalText.AtoiDecimal | paramParse.go:415 | Atoi on a decimal text succeeds iff its value fits 64 bits, with that value; otherwise it reports a range error |
| Coerce.ConvError.Text | paramParse.go:263-264 | the converters' own error texts are non-empty |
| Coerce.GetInt64 | paramParse.go:225-253 | int64 result; "" gives 0; other types give "Can't convert to int"; integers never fail, are congruent mod 2^64 and pass unchanged up to 2^63-1 |
| Coerce.GetUInt64 | paramParse.go:255-292 | uint64 result; "" gives 0; a negative integer gives "< 0" and 0; a non-negative integer passes unchanged |
| Coerce.ReparseInt32 | paramParse.go:302-304 | the format-and-reparse narrowing always yields an int32 value |
| Coerce.GetInt32 | paramParse.go:294-331 | int32 result; "" gives 0; `int32` and `int` sources never fail and keep the value mod 2^32 |
| Coerce.ReparseUint32 | paramParse.go:345-346 | the unsigned reparse yields a uint32 value and no error |
| Coerce.GetUInt32 | paramParse.go:333-378 | uint32 result; a negative integer gives "< 0"; strings and non-negative integers never fail; `uint` keeps the low 32 bits |
| Coerce.ReparseInt | paramParse.go:388-390 | the 64-bit reparse yields an int value |
| Coerce.GetInt | paramParse.go:380-420 | int result; "" gives 0; `int` and `int32` pass unchanged |
| Coerce.GetString | paramParse.go:422-426 | never fails; a string passes unchanged; an integer becomes a decimal text with its value |
| Coerce.EmptyStringIsZero | paramParse.go:244-247 | every integer converter maps "" to 0 without error |
| Coerce.NegativeToUnsigned | paramParse.go:262-276 | a negative int64/int32/int is refused by getUInt64 and getUInt32 with "< 0" and 0 |
| Coerce.Int32NarrowingIsChecked | paramParse.go:301-320 | for int64/uint64/uint32/uint sources getInt32 succeeds iff the value is in [-2^31, 2^31-1], with that value, else ParseInt's range error with the clamped bound |
| Coerce.Int32WrapsInt | paramParse.go:307-308 | getInt32 of an `int` is its low 32 bits with no error; the value survives iff it fits |
| Coerce.Int64WrapsUnsigned | paramParse.go:238-243 | getInt64 of a uint64/uint wraps with no error; above 2^63-1 it becomes value - 2^64 |
| Coerce.UInt32FromIntegers | paramParse.go:340-367 | getUInt32 of a non-negative integer never fails; `uint` wraps, other sources clamp to 4294967295 |
| Coerce.IntFromIntegers | paramParse.go:387-410 | getInt of an integer above 2^63-1 fails with "out range"; every other integer passes unchanged |
| Coerce.Int64OfDecimalText | paramParse.go:244-248 | getInt64 of a decimal text is its value if it fits 64 bits, else the range error with the clamped bound |
| Coerce.Int32OfDecimalText | paramParse.go:321-326 | getInt32 of a decimal text is its value if it fits 32 bits, else the range error with the clamped bound |
| Coerce.IntOfDecimalText | paramParse.go:411-415 | getInt of a decimal text is Atoi's value if it fits 64 bits, else Atoi's range error |
| Coerce.IntRejectsNonDecimal | paramParse.go:411-415 | getInt fails on every non-empty text that is not a decimal integer |
| Coerce.UInt64OfDecimalText | paramParse.go:283-287 | getUInt64 of an unsigned decimal text is its value if it fits, else the range error with 2^64-1 |
| Coerce.UInt32OfDecimalText | paramParse.go:368-373 | getUInt32 of an unsigned decimal text never fails and clamps to 4294967295 |
| Coerce.UnsignedRejectsSign | paramParse.go:283-287 | a signed text is a ParseUint syntax error for getUInt64, and a silent 0 for getUInt32 |
| Coerce.Int64RejectsMalformed | paramParse.go:244-248 | getInt64 of a malformed non-empty text reports ParseInt's error, a range error exactly when the digits before the bad character overflow, and 0 with a syntax error |
| Coerce.Int32RejectsMalformed | paramParse.go:321-326 | getInt32 of a malformed non-empty text reports ParseInt's error at 32 bits, a range error exactly when the digits before the bad character overflow |
| Coerce.UInt64RejectsMalformed | paramParse.go:283-287 | getUInt64 of a malformed text (a sign included) reports ParseUint's error: 2^64-1 with a range error when the digits before the bad character overflow, else 0 with a syntax error |
| Coerce.UInt32OfMalformed | paramParse.go:368-373 | getUInt32 of a malformed text never fails: 4294967295 when the digits before the bad character already overflow 32 bits, else 0 |
| Coerce.StringPathAgrees | paramParse.go:422-426 | formatting a signed integer with getString and converting the text gives what converting the integer directly gives |
| ParamParse.Zero | paramParse.go:116-120 | the zero value of a declared variable fits its type |
| ParamParse.Stored | paramParse.go:162-164 | a write through a compatible pointer leaves a value of the variable's type; an int32 written into a uint32 variable keeps its bits (mod 2^32) |
| ParamParse.Slot.constructor | paramParse.go:117-119 | a new variable has the given type and holds its zero value |
| ParamParse.ParamError.Error | paramParse.go:84-86 | the text is "key:" + key + " -- msg:" + msg, of the matching length, ending with the message |
| ParamParse.FromConv | paramParse.go:452-462 | an integer converter's value is always written, and the error is kept |
| ParamParse.Convert | paramParse.go:450-466 | every supported tag writes a value of its type; strings never fail; the `uint` tag writes nothing and reports "uint not support" |
| ParamParse.Lookup | paramParse.go:440-447 | a value is found unless the key is absent from the data and has no default |
| ParamParse.Resolve | paramParse.go:440-471 | an absent key without default gives "[key] not found" and no write; success always writes a value of the tag's type; a present key writes the converter's value |
| ParamParse.DefaultAsValue | paramParse.go:446-447 | a default is resolved exactly as the same value present in the request would be |
| ParamParse.FirstFailure | paramParse.go:430-472 | the keys before the result resolve without error, and the key at the result fails |
| ParamParse.WritesElsewhere | paramParse.go:430-471 | a variable that no resolved key is bound to keeps its value |
| ParamParse.WritesOwnSlot | paramParse.go:450-463 | a variable that only one resolved key is bound to ends up holding that key's converted value |
| ParamParse.Parser.constructor | paramParse.go:88-93 | a new parser has empty maps and no error |
| ParamParse.Parser.SetMData | paramParse.go:95-97 | mData[name] becomes the value and nothing else changes |
| ParamParse.Parser.Declare | paramParse.go:122-124 | the map update shared by every declaration: mParam[name] becomes a Param with that name, variable, tag and default, replacing an earlier one; nothing else changes |
| ParamParse.Parser.DeclareFresh | paramParse.go:116-120 | the shared body of the declarations that allocate: a fresh zero variable of the tag's type, bound under name |
| ParamParse.Parser.ParseData | paramParse.go:108-112 | the first value of every non-empty list in the form is stored as a string under its key, and other entries are kept |
| ParamParse.Parser.String | paramParse.go:116-120 | binds a fresh zero string variable under name with tag STR and the default |
| ParamParse.Parser.StringVal | paramParse.go:122-124 | binds the caller's variable under name with tag STR and the default; other names unchanged |
| ParamParse.Parser.Int64 | paramParse.go:126-130 | binds a fresh zero int64 variable with tag INT64 |
| ParamParse.Parser.Int64Val | paramParse.go:132-134 | binds the caller's int64 variable with tag INT64 |
| ParamParse.Parser.Uint64 | paramParse.go:136-140 | binds a fresh zero uint64 variable with tag UINT64 |
| ParamParse.Parser.Uint64Val | paramParse.go:142-144 | binds the caller's uint64 variable with tag UINT64 |
| ParamParse.Parser.Int32 | paramParse.go:146-150 | binds a fresh zero int32 variable with tag INT32 |
| ParamParse.Parser.Int32Val | paramParse.go:152-154 | binds the caller's int32 variable with tag INT32 |
| ParamParse.Parser.Uint32 | paramParse.go:156-160 | binds a fresh zero uint32 variable with tag UINT32 |
| ParamParse.Parser.Uint32Val | paramParse.go:162-164 | binds the caller's uint32 variable with tag INT32, not UINT32 |
| ParamParse.Parser.Int | paramParse.go:166-170 | binds a fresh zero int variable with tag INT |
| ParamParse.Parser.IntVal | paramParse.go:172-174 | binds the caller's int variable with tag INT |
| ParamParse.Parser.ParseOne | paramParse.go:431-471 | one iteration: fails iff the key resolves with an error, records "[key] …" in Err, and performs the key's write |
| ParamParse.Parser.DoParse | paramParse.go:428-474 | with an error already recorded and a parameter declared, returns false and changes nothing; otherwise returns true iff every key converts, records the first failure, and leaves every variable with the writes of the keys visited up to and including the failing one |
| ParamParseScenarios.ConvertAbcAsInt | paramParse.go:411-415 | getInt("abc") reports Atoi's syntax error |
| ParamParseScenarios.AbcAsInt32AndUint32 | paramParse.go:321-326 | getInt32("abc") is ParseInt's syntax error with 0, while getUInt32("abc") is 0 with no error |
| ParamParseScenarios.OnesThenLetterAsUint32 | paramParse.go:368-373 | getUInt32 of eleven or more ones followed by a letter is 4294967295 with no error, not 0 |
| ParamParseScenarios.Uint32ValOfMinusTwenty | paramParse.go:162-164 | a Uint32Val variable given "-20" ends up holding 4294967276 |
| ParamParseScenarios.ConvertOnesAsInt32 | paramParse_test.go:93-111 | getInt32 of eleven or more ones is ParseInt's range error with MaxInt32 |
| ParamParseScenarios.ParserTest | paramParse_test.go:8-53 | "abc", "10", "-20", "30" for string, int, int32 and a Uint32Val variable: DoParse succeeds and stores them, in every order |
| ParamParseScenarios.DefaultsTest | paramParse_test.go:55-74 | with no request values the defaults "abc" and "10" are converted and stored, in every order |
| ParamParseScenarios.DefaultErrorTest | paramParse_test.go:76-91 | an int parameter without value or default makes DoParse fail with "[int] not found", in every order |
| ParamParseScenarios.ErrorOutTest | paramParse_test.go:93-111 | a run of ones for an int32 parameter fails with ParseInt's range error and leaves MaxInt32 in the variable |
| ParamParseScenarios.StringToIntTest | paramParse_test.go:113-131 | "abc" for an int parameter fails with Atoi's syntax error under key "int" |

## Left out

- Floating point: `getFloat64`, the `Float64`/`Float64Val` declarations, the
  `float64`/`float32` branches of every converter and the `FLOAT64` tag. Raw
  values have no float variant. The first unit test's `float64` parameter is
  therefore dropped from `ParserTest`.
- HTTP handling: `ParseForm`, `ParseMultipartForm` and `request.Form` are
  I/O. `ParseData` is modelled only as its loop over an already parsed form.
  `DoParse` does not call it, so `mData` is an input of `DoParse`.
- Map iteration order: `DoParse` takes the order as a parameter that lists
  every declared name exactly once. Properties that hold in every order are
  stated for all such orders.
- `unsafe.Pointer`: output variables are `Slot` objects with a type tag. The
  `Uint32Val` write of an `int32` into a `uint32` variable is modelled as a
  mod-2^32 reinterpretation.
- `fmt.Sprintf("%v")` of values other than strings and integers: such values
  are carried as their text (`DOther`). Their converters only give "Can't
  convert to int".
- `strconv.Quote` in `NumError` messages: the input is only put in quotes,
  without escaping non-printable characters.
- Strings are sequences of characters, not UTF-8 bytes. Texts with
  multi-byte characters are outside the model.
- `Atoi`'s fast path for short inputs is not modelled separately. It is
  `ParseInt(s, 10, 64)` renamed, which gives the same outcome with a 64-bit
  `int`.
- `strconv.IntSize` is fixed at 64.
- The `UINT` tag: no declaration produces it. It is kept only so that
  `Convert` models the "not support" branch.
- The embedded `Parse` interface and `ParseRequest`'s request field are not
  part of this model.
- Strconv.ScanDigits: for bases other than 10 only the upper bound of a
  completed scan is stated. The decimal lemmas give the value for base 10 and
  for base 0 without a prefix, and the error for a text whose first
  non-digit is not an underscore. Texts with a base prefix (a leading '0'),
  and texts whose first non-digit is an underscore, have no value or error
  lemma.
