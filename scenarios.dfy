/** The parser's unit tests, as methods whose postconditions state the
    expected outcome for every iteration order of the declarations. */
module ParamParseScenarios {
  import opened GoTypes
  import opened Strconv
  import opened DecimalText
  import opened Coerce
  import opened ParamParse

  // ------------------------------------------------------------ conversions

  /** `Atoi("abc")` is a syntax error. */
  lemma AtoiAbc()
    ensures Atoi("abc") == Parsed(0, Some(NumError("Atoi", "abc", ErrSyntax)))
  {
    assert Unsigned("abc") == "abc";
    assert DigitValue('a') == Some(10);
    assert ScanDigits("abc", 10, false, MaxUint64, 0) == BadDigit;
  }

  /** `getInt("abc")` reports `Atoi`'s syntax error. */
  lemma ConvertAbcAsInt()
    ensures Convert(INT, DString("abc")) == Outcome(Some(VInt(0)), Some(NumErrorText(NumError("Atoi", "abc", ErrSyntax))))
  {
    var c := GetInt(DString("abc"));
    assert c == Conv(0, Some(Strconv(NumError("Atoi", "abc", ErrSyntax)))) by {
      AtoiAbc();
    }
    assert Convert(INT, DString("abc")) == FromConv(c);
  }

  /** "abc" is malformed at its first character: `getInt32` reports
      `ParseInt`'s syntax error, `getUInt32` silently yields 0. */
  lemma AbcAsInt32AndUint32()
    ensures GetInt32(DString("abc")) == Conv(0, Some(Strconv(NumError("ParseInt", "abc", ErrSyntax))))
    ensures GetUInt32(DString("abc")) == Conv(0, None)
  {
    var s := "abc";
    assert Unsigned(s) == s && s[..0] == [] && MalformedAt(s, 0);
    Int32RejectsMalformed(s, 0);
    UInt32OfMalformed(s, 0);
  }

  /** A decimal text whose value fits 64 bits converts for an `int` parameter. */
  lemma ConvertDecimalAsInt(s: string, v: int)
    requires IsDecimalText(s, 10) && DecimalValue(s) == v && MinInt64 <= v <= MaxInt64
    ensures Convert(INT, DString(s)) == Outcome(Some(VInt(v)), None)
  {
    var c := GetInt(DString(s));
    assert c == Conv(v, None) by {
      IntOfDecimalText(s);
    }
    assert Convert(INT, DString(s)) == FromConv(c);
  }

  /** A decimal text whose value fits 32 bits converts for an `int32` parameter. */
  lemma ConvertDecimalAsInt32(s: string, v: int)
    requires IsDecimalText(s, 0) && DecimalValue(s) == v && MinInt32 <= v <= MaxInt32
    ensures Convert(INT32, DString(s)) == Outcome(Some(VInt(v)), None)
  {
    var c := GetInt32(DString(s));
    assert c == Conv(v, None) by {
      Int32OfDecimalText(s);
    }
    assert Convert(INT32, DString(s)) == FromConv(c);
  }

  lemma ConvertTenAsInt()
    ensures Convert(INT, DString("10")) == Outcome(Some(VInt(10)), None)
  {
    assert Unsigned("10") == "10";
    assert Horner(0, "10") == 10;
    ConvertDecimalAsInt("10", 10);
  }

  lemma ConvertMinusTwentyAsInt32()
    ensures Convert(INT32, DString("-20")) == Outcome(Some(VInt(-20)), None)
  {
    var s := "-20";
    assert IsDecimalText(s, 0) && DecimalValue(s) == -20 by {
      assert Unsigned(s) == "20";
      assert Horner(0, "20") == 20;
    }
    ConvertDecimalAsInt32(s, -20);
  }

  lemma ConvertThirtyAsInt32()
    ensures Convert(INT32, DString("30")) == Outcome(Some(VInt(30)), None)
  {
    assert Unsigned("30") == "30";
    assert Horner(0, "30") == 30;
    ConvertDecimalAsInt32("30", 30);
  }

  /** A `Uint32Val` variable given "-20" is parsed as an `int32` and ends up
      holding the same 32 bits read as unsigned: 4294967276. */
  lemma Uint32ValOfMinusTwenty()
    ensures Stored(UINT32, Convert(INT32, DString("-20")).write.value) == VInt(4294967276)
  {
    ConvertMinusTwentyAsInt32();
  }

  /** `n` ones; the overflow test sends thirty. */
  function OnesOf(n: nat): (s: string)
    ensures |s| == n && AllDecimal(s)
    ensures n > 0 ==> s[0] == '1'
  {
    if n == 0 then "" else OnesOf(n - 1) + "1"
  }

  /** The number written as `n` ones. */
  function OnesValue(n: nat): nat {
    if n == 0 then 0 else OnesValue(n - 1) * 10 + 1
  }

  lemma {:induction false} OnesRead(n: nat)
    ensures Horner(0, OnesOf(n)) == OnesValue(n)
  {
    if n > 0 {
      OnesRead(n - 1);
      HornerSnoc(0, OnesOf(n - 1), '1');
    }
  }

  lemma {:induction false} OnesValueGrows(n: nat)
    requires n >= 11
    ensures OnesValue(n) >= 11111111111
  {
    if n > 11 {
      OnesValueGrows(n - 1);
    }
  }

  /** Eleven or more ones are beyond the 32-bit range. */
  lemma OnesTooBig(n: nat)
    requires n >= 11
    ensures IsDecimalText(OnesOf(n), 0) && DecimalValue(OnesOf(n)) > MaxInt32
  {
    assert Unsigned(OnesOf(n)) == OnesOf(n);
    OnesRead(n);
    OnesValueGrows(n);
  }

  /** `getUInt32` of eleven or more ones followed by a letter: the digits
      overflow before the letter is reached, so the dropped error is a
      range error and the result is 4294967295, not 0. */
  lemma OnesThenLetterAsUint32(n: nat)
    requires n >= 11
    ensures GetUInt32(DString(OnesOf(n) + "x")) == Conv(MaxUint32, None)
  {
    var s := OnesOf(n) + "x";
    assert s[..n] == OnesOf(n) && s[n] == 'x';
    OnesRead(n);
    OnesValueGrows(n);
    UInt32OfMalformed(s, n);
  }

  /** `getInt32` of eleven or more ones (the test sends thirty): a range
      error and the clamped `MaxInt32`. */
  lemma ConvertOnesAsInt32(n: nat)
    requires n >= 11
    ensures Convert(INT32, DString(OnesOf(n)))
            == Outcome(Some(VInt(MaxInt32)), Some(NumErrorText(NumError("ParseInt", OnesOf(n), ErrRange))))
  {
    OnesTooBig(n);
    Int32OfDecimalText(OnesOf(n));
  }

  // ------------------------------------------------------------- resolution

  /** Every key of `order` resolves without error: `DoParse` visits them all. */
  lemma AllSucceed(order: seq<string>, params: map<string, Param>, data: map<string, Raw>)
    requires forall k :: k in order ==> k in params && Resolve(k, params[k], data).err.None?
    ensures FirstFailure(order, params, data) == |order|
  {
  }

  /** A value that converts without error is written as is. */
  lemma ResolveValue(key: string, p: Param, data: map<string, Raw>, raw: Raw, v: Value)
    requires Lookup(key, p, data) == Some(raw) && Convert(p.tag, raw) == Outcome(Some(v), None)
    ensures Resolve(key, p, data) == Outcome(Some(v), None)
  {
  }

  /** No two declarations share a variable. */
  predicate Exclusive(params: map<string, Param>) {
    forall k, k' :: k in params && k' in params && params[k].slot == params[k'].slot ==> k == k'
  }

  /** With exclusive variables, the variable of a key that was visited and
      wrote holds that write once `DoParse` is done. */
  lemma OwnValue(order: seq<string>, key: string, params: map<string, Param>, data: map<string, Raw>, v: Value, init: Value)
    requires forall k :: k in order ==> k in params
    requires key in order && Exclusive(params)
    requires Resolve(key, params[key], data).write == Some(v)
    ensures LastWrite(params[key].slot, Writes(order, params, data), init) == Stored(params[key].slot.kind, v)
  {
    WritesOwnSlot(order, key, params, data, init);
  }

  /** Every key of an order that lists `keys` is one of them, and each of
      them occurs in it. */
  lemma OrderOf(order: seq<string>, keys: multiset<string>)
    requires multiset(order) == keys
    ensures forall k :: k in order <==> k in keys
  {
    forall k ensures k in order <==> k in keys {
      assert k in order <==> k in multiset(order);
    }
  }

  // ------------------------------------------------------------ first test

  function FirstTestData(): map<string, Raw> {
    map["s1" := DString("abc"), "int" := DString("10"), "int32" := DString("-20"), "uint32" := DString("30")]
  }

  function FirstTestParams(vs1: Slot, vi: Slot, vi32: Slot, vui32: Slot): map<string, Param> {
    map["s1" := Param("s1", vs1, STR, None), "int" := Param("int", vi, INT, None),
        "int32" := Param("int32", vi32, INT32, None), "uint32" := Param("uint32", vui32, INT32, None)]
  }

  /** The set-up of the first test: the request values and the four
      declarations (`s1`, `int`, `int32`, and `uint32` through `Uint32Val`). */
  method FirstTestParser() returns (p: Parser, vs1: Slot, vi: Slot, vi32: Slot, vui32: Slot)
    ensures fresh(p) && p.Valid() && p.err == ParamError("", "")
    ensures p.mData == FirstTestData() && p.mParam == FirstTestParams(vs1, vi, vi32, vui32)
    ensures vs1.kind == STR && vi.kind == INT && vi32.kind == INT32 && vui32.kind == UINT32
    ensures vs1 != vi && vs1 != vi32 && vs1 != vui32 && vi != vi32 && vi != vui32 && vi32 != vui32
    ensures p.Repr == {vs1, vi, vi32, vui32} && fresh(p.Repr)
  {
    p := new Parser();
    p.SetMData("s1", DString("abc"));
    p.SetMData("int", DString("10"));
    p.SetMData("int32", DString("-20"));
    p.SetMData("uint32", DString("30"));
    vs1 := new Slot(STR);
    vi := new Slot(INT);
    vi32 := new Slot(INT32);
    vui32 := new Slot(UINT32);
    p.StringVal(vs1, "s1", None);
    p.IntVal(vi, "int", None);
    p.Int32Val(vi32, "int32", None);
    p.Uint32Val(vui32, "uint32", None);
  }

  lemma FirstTestFacts(order: seq<string>, vs1: Slot, vi: Slot, vi32: Slot, vui32: Slot)
    requires multiset(order) == multiset{"s1", "int", "int32", "uint32"}
    requires vs1 != vi && vs1 != vi32 && vs1 != vui32 && vi != vi32 && vi != vui32 && vi32 != vui32
    ensures var params := FirstTestParams(vs1, vi, vi32, vui32);
            && (forall k :: k in order ==> k in params)
            && multiset(order) == multiset(params.Keys)
            && Exclusive(params)
            && "s1" in order && "int" in order && "int32" in order && "uint32" in order
  {
    var params := FirstTestParams(vs1, vi, vi32, vui32);
    OrderOf(order, multiset{"s1", "int", "int32", "uint32"});
    assert multiset(params.Keys) == multiset{"s1", "int", "int32", "uint32"};
  }

  /** What the conversions of the first test depend on. */
  predicate FirstTestState(params: map<string, Param>, data: map<string, Raw>) {
    && "s1" in data && "int" in data && "int32" in data && "uint32" in data
    && data["s1"] == DString("abc") && data["int"] == DString("10")
    && data["int32"] == DString("-20") && data["uint32"] == DString("30")
    && "s1" in params && "int" in params && "int32" in params && "uint32" in params
    && params["s1"].tag == STR && params["int"].tag == INT
    && params["int32"].tag == INT32 && params["uint32"].tag == INT32
  }

  lemma FirstTestStateHolds(vs1: Slot, vi: Slot, vi32: Slot, vui32: Slot)
    ensures FirstTestState(FirstTestParams(vs1, vi, vi32, vui32), FirstTestData())
  {
  }

  lemma FirstTestResolves(params: map<string, Param>, data: map<string, Raw>)
    requires FirstTestState(params, data)
    ensures Resolve("s1", params["s1"], data) == Outcome(Some(VString("abc")), None)
    ensures Resolve("int", params["int"], data) == Outcome(Some(VInt(10)), None)
    ensures Resolve("int32", params["int32"], data) == Outcome(Some(VInt(-20)), None)
    ensures Resolve("uint32", params["uint32"], data) == Outcome(Some(VInt(30)), None)
  {
    ConvertTenAsInt();
    ConvertMinusTwentyAsInt32();
    ConvertThirtyAsInt32();
    ResolveValue("s1", params["s1"], data, DString("abc"), VString("abc"));
    ResolveValue("int", params["int"], data, DString("10"), VInt(10));
    ResolveValue("int32", params["int32"], data, DString("-20"), VInt(-20));
    ResolveValue("uint32", params["uint32"], data, DString("30"), VInt(30));
  }

  lemma FirstTestSucceeds(order: seq<string>, params: map<string, Param>, data: map<string, Raw>)
    requires FirstTestState(params, data)
    requires forall k :: k in order ==> k in {"s1", "int", "int32", "uint32"}
    ensures forall k :: k in order ==> k in params
    ensures FirstFailure(order, params, data) == |order|
  {
    FirstTestResolves(params, data);
    AllSucceed(order, params, data);
  }

  /** After all four keys resolved, each variable holds its own key's value. */
  lemma FirstTestWrites(order: seq<string>, params: map<string, Param>, data: map<string, Raw>,
                        init1: Value, init2: Value, init3: Value, init4: Value)
    requires FirstTestState(params, data) && Exclusive(params)
    requires params["int32"].slot.kind == INT32
    requires forall k :: k in order ==> k in params
    requires "s1" in order && "int" in order && "int32" in order && "uint32" in order
    ensures var ws := Writes(order, params, data);
            && LastWrite(params["s1"].slot, ws, init1) == VString("abc")
            && LastWrite(params["int"].slot, ws, init2) == VInt(10)
            && LastWrite(params["int32"].slot, ws, init3) == VInt(-20)
            && LastWrite(params["uint32"].slot, ws, init4) == VInt(30)
  {
    FirstTestResolves(params, data);
    OwnValue(order, "s1", params, data, VString("abc"), init1);
    OwnValue(order, "int", params, data, VInt(10), init2);
    OwnValue(order, "int32", params, data, VInt(-20), init3);
    OwnValue(order, "uint32", params, data, VInt(30), init4);
  }

  /** Everything the first test needs to know about `DoParse`'s run. */
  lemma FirstTestPlan(order: seq<string>, vs1: Slot, vi: Slot, vi32: Slot, vui32: Slot,
                      init1: Value, init2: Value, init3: Value, init4: Value)
    requires multiset(order) == multiset{"s1", "int", "int32", "uint32"}
    requires vs1 != vi && vs1 != vi32 && vs1 != vui32 && vi != vi32 && vi != vui32 && vi32 != vui32
    requires vi32.kind == INT32
    ensures var params, data := FirstTestParams(vs1, vi, vi32, vui32), FirstTestData();
            && (forall k :: k in order ==> k in params)
            && multiset(order) == multiset(params.Keys)
            && FirstFailure(order, params, data) == |order|
            && LastWrite(vs1, Writes(order, params, data), init1) == VString("abc")
            && LastWrite(vi, Writes(order, params, data), init2) == VInt(10)
            && LastWrite(vi32, Writes(order, params, data), init3) == VInt(-20)
            && LastWrite(vui32, Writes(order, params, data), init4) == VInt(30)
  {
    var params, data := FirstTestParams(vs1, vi, vi32, vui32), FirstTestData();
    FirstTestFacts(order, vs1, vi, vi32, vui32);
    OrderOf(order, multiset{"s1", "int", "int32", "uint32"});
    FirstTestStateHolds(vs1, vi, vi32, vui32);
    FirstTestSucceeds(order, params, data);
    FirstTestWrites(order, params, data, init1, init2, init3, init4);
  }

  /** `DoParse` over a parser none of whose parameters fails, in the
      order `order`: the run succeeds and each slot holds the last value
      written to it. */
  method RunAll(p: Parser, order: seq<string>) returns (ok: bool)
    requires p.Valid() && p.err == ParamError("", "")
    requires (forall k :: k in order ==> k in p.mParam) && multiset(order) == multiset(p.mParam.Keys)
    requires FirstFailure(order, p.mParam, p.mData) == |order|
    modifies p, p.Repr
    ensures ok && p.mParam == old(p.mParam) && p.mData == old(p.mData) && p.Repr == old(p.Repr)
    ensures forall c :: c in p.Repr ==> c.value == LastWrite(c, Writes(order, p.mParam, p.mData), old(c.value))
  {
    ok := p.DoParse(order);
    assert order[..|order|] == order;
  }

  /** The first test (paramParse_test.go `TestParser`): "abc", "10", "-20"
      and "30" for a string, an `int`, an `int32` and a `Uint32Val`
      parameter all convert, whatever the iteration order. */
  method ParserTest(order: seq<string>) returns (ok: bool, s1: Value, i: Value, i32: Value, ui32: Value)
    requires multiset(order) == multiset{"s1", "int", "int32", "uint32"}
    ensures ok
    ensures s1 == VString("abc") && i == VInt(10) && i32 == VInt(-20) && ui32 == VInt(30)
  {
    var p, vs1, vi, vi32, vui32 := FirstTestParser();
    FirstTestPlan(order, vs1, vi, vi32, vui32, vs1.value, vi.value, vi32.value, vui32.value);
    ok := RunAll(p, order);
    s1, i, i32, ui32 := vs1.value, vi.value, vi32.value, vui32.value;
  }

  // ------------------------------------------------------------- defaults

  /** The set-up of the two default tests: `s1` defaults to "abc" and `int`
      to `intDefault`; there are no request values. */
  method DefaultsParser(intDefault: Option<Raw>) returns (p: Parser, vs1: Slot, vi: Slot)
    ensures fresh(p) && p.Valid() && p.err == ParamError("", "") && p.mData == map[]
    ensures p.mParam == map["s1" := Param("s1", vs1, STR, Some(DString("abc"))), "int" := Param("int", vi, INT, intDefault)]
    ensures vs1 != vi && p.Repr == {vs1, vi} && fresh(p.Repr)
  {
    p := new Parser();
    vs1 := new Slot(STR);
    vi := new Slot(INT);
    p.StringVal(vs1, "s1", Some(DString("abc")));
    p.IntVal(vi, "int", intDefault);
  }

  /** paramParse_test.go `TestParser_defaultVal`: no request values, and
      the defaults "abc" and "10" are converted and stored. */
  method DefaultsTest(order: seq<string>) returns (ok: bool, s1: Value, i: Value)
    requires multiset(order) == multiset{"s1", "int"}
    ensures ok && s1 == VString("abc") && i == VInt(10)
  {
    var p, vs1, vi := DefaultsParser(Some(DString("10")));
    ghost var params, data := p.mParam, p.mData;
    ghost var init1, init2 := vs1.value, vi.value;
    DefaultsFacts(order, params, data, init1, init2);
    ok := RunAll(p, order);
    s1, i := vs1.value, vi.value;
  }

  lemma DefaultsFacts(order: seq<string>, params: map<string, Param>, data: map<string, Raw>, init1: Value, init2: Value)
    requires multiset(order) == multiset{"s1", "int"} && data == map[]
    requires params.Keys == {"s1", "int"} && params["s1"].slot != params["int"].slot
    requires params["s1"].tag == STR && params["s1"].default.Some? && params["s1"].default.value == DString("abc")
    requires params["int"].tag == INT && params["int"].default.Some? && params["int"].default.value == DString("10")
    ensures forall k :: k in order ==> k in params
    ensures multiset(order) == multiset(params.Keys)
    ensures FirstFailure(order, params, data) == |order|
    ensures LastWrite(params["s1"].slot, Writes(order, params, data), init1) == VString("abc")
    ensures LastWrite(params["int"].slot, Writes(order, params, data), init2) == VInt(10)
  {
    OrderOf(order, multiset{"s1", "int"});
    assert multiset(params.Keys) == multiset{"s1", "int"};
    ConvertTenAsInt();
    ResolveValue("s1", params["s1"], data, DString("abc"), VString("abc"));
    ResolveValue("int", params["int"], data, DString("10"), VInt(10));
    AllSucceed(order, params, data);
    OwnValue(order, "s1", params, data, VString("abc"), init1);
    OwnValue(order, "int", params, data, VInt(10), init2);
  }

  /** paramParse_test.go `TestParser_defaultValError`: `int` has neither a
      request value nor a default, so `DoParse` fails with
      `[int] not found`, whatever the order. */
  method DefaultErrorTest(order: seq<string>) returns (ok: bool, e: ParamError)
    requires multiset(order) == multiset{"s1", "int"}
    ensures !ok && e == ParamError("int", NotFound("int"))
  {
    var p, vs1, vi := DefaultsParser(None);
    DefaultErrorFacts(order, p.mParam, p.mData);
    ok := p.DoParse(order);
    e := p.err;
  }

  lemma DefaultErrorFacts(order: seq<string>, params: map<string, Param>, data: map<string, Raw>)
    requires multiset(order) == multiset{"s1", "int"} && data == map[]
    requires params.Keys == {"s1", "int"}
    requires params["s1"].tag == STR && params["s1"].default.Some? && params["s1"].default.value == DString("abc")
    requires params["int"].default == None
    ensures forall k :: k in order ==> k in params
    ensures multiset(order) == multiset(params.Keys)
    ensures var f := FirstFailure(order, params, data);
            f < |order| && order[f] == "int"
            && Resolve(order[f], params[order[f]], data).err == Some(NotFound("int"))
  {
    OrderOf(order, multiset{"s1", "int"});
    assert multiset(params.Keys) == multiset{"s1", "int"};
    ResolveValue("s1", params["s1"], data, DString("abc"), VString("abc"));
    var f := FirstFailure(order, params, data);
    var j :| 0 <= j < |order| && order[j] == "int";
    assert f <= j;
  }

  // ------------------------------------------------------------- failures

  /** What `DoParse` meets when the only parameter is an `int32` given a
      text `raw` whose conversion writes `v` and fails with `msg`. */
  lemma SingleFailure(order: seq<string>, key: string, params: map<string, Param>, data: map<string, Raw>,
                      raw: Raw, v: Value, msg: string, init: Value)
    requires order == [key] && params.Keys == {key} && data == map[key := raw]
    requires Convert(params[key].tag, raw) == Outcome(Some(v), Some(msg))
    requires params[key].slot.kind != UINT32
    ensures forall k :: k in order ==> k in params
    ensures multiset(order) == multiset(params.Keys)
    ensures FirstFailure(order, params, data) == 0
    ensures Resolve(key, params[key], data).err == Some(Failed(key, msg))
    ensures LastWrite(params[key].slot, Writes(order[..1], params, data), init) == v
  {
    assert multiset(params.Keys)[key] == 1;
    assert order[..1] == order;
    assert Writes(order, params, data) == Writes([], params, data) + WriteOf(key, params[key], data);
  }

  /** `DoParse` over a parser whose one parameter `key` is bound to `slot`
      and fails first, with `msg`, after writing `v`: the run fails, reports
      `msg` under `key` and leaves `v` in the slot. */
  method RunSingleFailure(p: Parser, order: seq<string>, key: string, slot: Slot,
                          v: Value, msg: string) returns (ok: bool)
    requires p.Valid() && p.err == ParamError("", "") && p.Repr == {slot}
    requires order == [key] && key in p.mParam && p.mParam[key].slot == slot
    requires (forall k :: k in order ==> k in p.mParam) && multiset(order) == multiset(p.mParam.Keys)
    requires FirstFailure(order, p.mParam, p.mData) == 0
    requires Resolve(key, p.mParam[key], p.mData).err == Some(Failed(key, msg))
    requires LastWrite(slot, Writes(order[..1], p.mParam, p.mData), slot.value) == v
    modifies p, p.Repr
    ensures !ok && p.err == ParamError(key, Failed(key, msg)) && slot.value == v
  {
    assert slot in p.Repr;
    ok := p.DoParse(order);
  }

  /** The set-up of the overflow test: `n` ones for an `int32` parameter. */
  method ErrorOutParser(n: nat) returns (p: Parser, vi32: Slot)
    ensures fresh(p) && p.Valid() && p.err == ParamError("", "")
    ensures p.mData == map["int32" := DString(OnesOf(n))]
    ensures p.mParam == map["int32" := Param("int32", vi32, INT32, None)]
    ensures vi32.kind == INT32 && p.Repr == {vi32} && fresh(p.Repr)
  {
    p := new Parser();
    p.SetMData("int32", DString(OnesOf(n)));
    vi32 := new Slot(INT32);
    p.Int32Val(vi32, "int32", None);
  }

  /** paramParse_test.go `TestParser_errorOut` (thirty ones for an `int32`
      parameter; here any run of eleven or more): `DoParse` fails with
      `ParseInt`'s range error, and the variable is left at `MaxInt32`. */
  method ErrorOutTest(n: nat, order: seq<string>) returns (ok: bool, e: ParamError, i32: Value)
    requires n >= 11 && order == ["int32"]
    ensures !ok && i32 == VInt(MaxInt32)
    ensures e == ParamError("int32", Failed("int32", NumErrorText(NumError("ParseInt", OnesOf(n), ErrRange))))
  {
    var p, vi32 := ErrorOutParser(n);
    var msg := NumErrorText(NumError("ParseInt", OnesOf(n), ErrRange));
    ConvertOnesAsInt32(n);
    SingleFailure(order, "int32", p.mParam, p.mData, DString(OnesOf(n)), VInt(MaxInt32), msg, vi32.value);
    ok := RunSingleFailure(p, order, "int32", vi32, VInt(MaxInt32), msg);
    e, i32 := p.err, vi32.value;
  }

  /** paramParse_test.go `TestParser_errorStringtoInt`: "abc" for an `int`
      parameter; `Atoi` fails and `DoParse` reports it under the key, as
      `[int] strconv.Atoi: parsing "abc": invalid syntax:`. */
  method StringToIntTest(order: seq<string>) returns (ok: bool, e: ParamError)
    requires order == ["int"]
    ensures !ok
    ensures e == ParamError("int", Failed("int", NumErrorText(NumError("Atoi", "abc", ErrSyntax))))
  {
    var p := new Parser();
    p.SetMData("int", DString("abc"));
    var vi := new Slot(INT);
    p.IntVal(vi, "int", None);
    var msg := NumErrorText(NumError("Atoi", "abc", ErrSyntax));
    ConvertAbcAsInt();
    SingleFailure(order, "int", p.mParam, p.mData, DString("abc"), VInt(0), msg, vi.value);
    ok := RunSingleFailure(p, order, "int", vi, VInt(0), msg);
    e := p.err;
  }
}
