/** The parameter parser: a registry of declared parameters, each bound to a
    typed output variable, a map of raw request values, and `DoParse`, which
    converts every declared parameter into its variable and stops at the
    first failure, recording it in `Err`. */
module ParamParse {
  import opened GoTypes
  import opened Coerce

  /** The type tags a declaration records (`STR`, `INT`, … in the source),
      also used for the Go type of an output variable. `UINT` is a tag no
      declaration produces; `DoParse` reports it as not supported. */
  datatype Tag = STR | INT | UINT | INT32 | UINT32 | INT64 | UINT64
  {
    /** The tag's text, as the source's string constants spell it. */
    function Name(): string {
      match this
      case STR => "string"
      case INT => "int"
      case UINT => "uint"
      case INT32 => "int32"
      case UINT32 => "uint32"
      case INT64 => "int64"
      case UINT64 => "uint64"
    }
  }

  /** What an output variable holds. */
  datatype Value = VString(s: string) | VInt(n: int)

  /** `v` is a value of the Go type `kind`. */
  predicate Fits(kind: Tag, v: Value) {
    match kind
    case STR => v.VString?
    case INT | INT64 => v.VInt? && MinInt64 <= v.n <= MaxInt64
    case INT32 => v.VInt? && MinInt32 <= v.n <= MaxInt32
    case UINT32 => v.VInt? && 0 <= v.n <= MaxUint32
    case UINT64 => v.VInt? && 0 <= v.n <= MaxUint64
    case UINT => false
  }

  /** The zero value of the Go type `kind`. */
  function Zero(kind: Tag): (v: Value)
    ensures kind != UINT ==> Fits(kind, v)
  {
    if kind == STR then VString("") else VInt(0)
  }

  /** A converter writes through a pointer of its tag's type into a variable
      of type `kind`. The two agree except for `Uint32Val`, which records
      `INT32` for a `uint32` variable: the `int32` written there is read
      back as the `uint32` with the same 32 bits. */
  predicate Compatible(tag: Tag, kind: Tag) {
    tag != UINT && (tag == kind || (tag == INT32 && kind == UINT32))
  }

  /** The value variable `kind` holds after a write of `v`. */
  function Stored(kind: Tag, v: Value): (r: Value)
    ensures kind != UINT32 ==> r == v
    ensures forall tag :: Compatible(tag, kind) && Fits(tag, v) ==> Fits(kind, r)
    ensures kind == UINT32 && v.VInt? ==> r.VInt? && (r.n - v.n) % Two32 == 0
  {
    if kind == UINT32 && v.VInt? then VInt(WrapUint32(v.n)) else v
  }

  /** An output variable (the target of a declaration's pointer). */
  class Slot {
    const kind: Tag
    var value: Value

    predicate Valid()
      reads this
    {
      Fits(kind, value)
    }

    /** `var x T`: a fresh variable holding the zero value. */
    constructor(kind: Tag)
      requires kind != UINT
      ensures this.kind == kind && value == Zero(kind)
      ensures Valid()
    {
      this.kind := kind;
      value := Zero(kind);
    }
  }

  /** A declaration: the name, the bound variable, the tag and the default
      (`nil` is `None`). */
  datatype Param = Param(name: string, slot: Slot, tag: Tag, default: Option<Raw>)

  /** `ParamError`: the failing key and the message. */
  datatype ParamError = ParamError(key: string, msg: string)
  {
    /** `(*ParamError).Error()`. */
    function Error(): (r: string)
      ensures |r| == |key| + |msg| + 12
      ensures r[..4] == "key:" && r[|r| - |msg|..] == msg
    {
      "key:" + key + " -- msg:" + msg
    }
  }

  /** What resolving one parameter does: the value written into its
      variable, if any, and the error, if any. */
  datatype Outcome = Outcome(write: Option<Value>, err: Option<string>)

  function FromConv(c: Conv<int>): (r: Outcome)
    ensures r.write == Some(VInt(c.val)) && (r.err.None? <==> c.err.None?)
  {
    Outcome(Some(VInt(c.val)), if c.err.Some? then Some(c.err.value.Text()) else None)
  }

  /** The switch on the tag: the converter it selects and the value written
      through the pointer. */
  function Convert(tag: Tag, raw: Raw): (r: Outcome)
    ensures r.write.Some? <==> tag != UINT
    ensures r.write.Some? ==> Fits(tag, r.write.value)
    ensures tag == STR ==> r.err.None?
    ensures tag == UINT ==> r.err == Some("uint not support")
  {
    match tag
    case STR => Outcome(Some(VString(GetString(raw).val)), None)
    case INT => FromConv(GetInt(raw))
    case INT32 => FromConv(GetInt32(raw))
    case UINT32 => FromConv(GetUInt32(raw))
    case INT64 => FromConv(GetInt64(raw))
    case UINT64 => FromConv(GetUInt64(raw))
    case UINT =>
      assert UINT.Name() + " not support" == "uint not support";
      Outcome(None, Some(UINT.Name() + " not support"))
  }

  function NotFound(key: string): string {
    "[" + key + "] not found"
  }

  /** The message `DoParse` records for a converter error `e`. */
  function Failed(key: string, e: string): string {
    "[" + key + "] " + e + ":"
  }

  /** The raw value for the parameter `p` declared as `key`: the request's,
      else the default, else none. */
  function Lookup(key: string, p: Param, data: map<string, Raw>): (r: Option<Raw>)
    ensures r.None? <==> key !in data && p.default.None?
  {
    if key in data then Some(data[key]) else p.default
  }

  /** One iteration of `DoParse` for the parameter `p` declared as `key`:
      the looked-up value goes through the converter selected by the tag,
      and its error is prefixed with the key; with no value the key is
      reported not found. */
  function Resolve(key: string, p: Param, data: map<string, Raw>): (r: Outcome)
    ensures key !in data && p.default.None? ==> r == Outcome(None, Some(NotFound(key)))
    ensures r.err.None? ==> r.write.Some? && Fits(p.tag, r.write.value)
    ensures key in data ==> r.write == Convert(p.tag, data[key]).write
  {
    match Lookup(key, p, data)
    case None => Outcome(None, Some(NotFound(key)))
    case Some(raw) =>
      var o := Convert(p.tag, raw);
      Outcome(o.write, if o.err.Some? then Some(Failed(key, o.err.value)) else None)
  }

  /** A default is converted exactly as a request value would be. */
  lemma DefaultAsValue(key: string, p: Param, data: map<string, Raw>)
    requires key !in data && p.default.Some?
    ensures Resolve(key, p, data) == Resolve(key, p, data[key := p.default.value])
  {
  }

  /** The number of `keys` that resolve without error before the first that
      fails (all of them when none fails). */
  function FirstFailure(keys: seq<string>, params: map<string, Param>, data: map<string, Raw>): (f: nat)
    requires forall k :: k in keys ==> k in params
    ensures f <= |keys|
    ensures forall j :: 0 <= j < f ==> Resolve(keys[j], params[keys[j]], data).err.None?
    ensures f < |keys| ==> Resolve(keys[f], params[keys[f]], data).err.Some?
  {
    if keys == [] then 0
    else if Resolve(keys[0], params[keys[0]], data).err.Some? then 0
    else 1 + FirstFailure(keys[1..], params, data)
  }

  /** The writes resolving `keys` in order performs: each variable with the
      value it holds afterwards. */
  function Writes(keys: seq<string>, params: map<string, Param>, data: map<string, Raw>): seq<(Slot, Value)>
    requires forall k :: k in keys ==> k in params
  {
    if keys == [] then []
    else
      var last := keys[|keys| - 1];
      Writes(keys[..|keys| - 1], params, data) + WriteOf(last, params[last], data)
  }

  /** The write resolving one parameter performs, if any. */
  function WriteOf(key: string, p: Param, data: map<string, Raw>): seq<(Slot, Value)>
  {
    match Resolve(key, p, data).write
    case Some(v) => [(p.slot, Stored(p.slot.kind, v))]
    case None => []
  }

  lemma WritesSnoc(keys: seq<string>, i: nat, params: map<string, Param>, data: map<string, Raw>)
    requires i < |keys| && forall k :: k in keys ==> k in params
    ensures Writes(keys[..i + 1], params, data) == Writes(keys[..i], params, data) + WriteOf(keys[i], params[keys[i]], data)
  {
    assert keys[..i + 1][..i] == keys[..i];
  }

  /** The value `c` holds after the writes `ws`, starting from `init`. */
  function LastWrite(c: Slot, ws: seq<(Slot, Value)>, init: Value): Value
  {
    if ws == [] then init
    else if ws[|ws| - 1].0 == c then ws[|ws| - 1].1
    else LastWrite(c, ws[..|ws| - 1], init)
  }

  /** Replaying a log in two parts: the second part starts from the value
      the first leaves. */
  lemma {:induction false} LastWriteConcat(c: Slot, ws: seq<(Slot, Value)>, more: seq<(Slot, Value)>, init: Value)
    ensures LastWrite(c, ws + more, init) == LastWrite(c, more, LastWrite(c, ws, init))
    decreases |more|
  {
    if more == [] {
      assert ws + more == ws;
    } else {
      var front := more[..|more| - 1];
      assert (ws + more)[..|ws + more| - 1] == ws + front;
      LastWriteConcat(c, ws, front, init);
    }
  }

  /** A variable no resolved key is bound to keeps its value. */
  lemma {:induction false} WritesElsewhere(c: Slot, keys: seq<string>, params: map<string, Param>, data: map<string, Raw>, init: Value)
    requires forall k :: k in keys ==> k in params && params[k].slot != c
    ensures LastWrite(c, Writes(keys, params, data), init) == init
    decreases |keys|
  {
    if keys != [] {
      var front := keys[..|keys| - 1];
      var last := keys[|keys| - 1];
      WritesElsewhere(c, front, params, data, init);
      LastWriteConcat(c, Writes(front, params, data), WriteOf(last, params[last], data), init);
    }
  }

  /** A variable that, among the resolved keys, only `key` is bound to ends
      up holding what resolving `key` wrote. */
  lemma {:induction false} WritesOwnSlot(keys: seq<string>, key: string, params: map<string, Param>, data: map<string, Raw>, init: Value)
    requires key in keys && forall k :: k in keys ==> k in params
    requires forall k :: k in keys && params[k].slot == params[key].slot ==> k == key
    requires Resolve(key, params[key], data).write.Some?
    ensures var p := params[key];
            LastWrite(p.slot, Writes(keys, params, data), init)
            == Stored(p.slot.kind, Resolve(key, p, data).write.value)
    decreases |keys|
  {
    var c := params[key].slot;
    var front := keys[..|keys| - 1];
    var last := keys[|keys| - 1];
    assert keys == front + [last];
    LastWriteConcat(c, Writes(front, params, data), WriteOf(last, params[last], data), init);
    if last != key {
      WritesOwnSlot(front, key, params, data, init);
    }
  }

  /** `Parser` (the embedded struct of `ParseRequest`). */
  class Parser {
    var err: ParamError
    var mData: map<string, Raw>
    var mParam: map<string, Param>
    /** The variables declarations have bound. */
    ghost var Repr: set<Slot>

    /** Every declaration is filed under its own name, its tag can write
        its variable, and every bound variable holds a value of its type. */
    ghost predicate Valid()
      reads this, Repr
    {
      (forall k :: k in mParam ==>
         mParam[k].name == k && Compatible(mParam[k].tag, mParam[k].slot.kind) && mParam[k].slot in Repr)
      && (forall c :: c in Repr ==> c.Valid())
    }

    /** `NewParseRequest`: empty maps and no error. */
    constructor()
      ensures mData == map[] && mParam == map[] && err == ParamError("", "") && Repr == {}
      ensures Valid()
    {
      err := ParamError("", "");
      mData := map[];
      mParam := map[];
      Repr := {};
    }

    /** `SetMData`: the last write of a name wins. */
    method SetMData(name: string, val: Raw)
      modifies this
      ensures mData == old(mData)[name := val]
      ensures mParam == old(mParam) && err == old(err) && Repr == old(Repr)
    {
      mData := mData[name := val];
    }

    /** The loop of `ParseData` over an already parsed form: the first value
        of every non-empty value list is stored as a string under its key. */
    method ParseData(form: map<string, seq<string>>)
      modifies this
      ensures mData == old(mData) + map k | k in form && |form[k]| > 0 :: DString(form[k][0])
      ensures mParam == old(mParam) && err == old(err) && Repr == old(Repr)
    {
      var todo := form.Keys;
      while todo != {}
        invariant todo <= form.Keys
        invariant mData == old(mData) + map k | k in form && k !in todo && |form[k]| > 0 :: DString(form[k][0])
        invariant mParam == old(mParam) && err == old(err) && Repr == old(Repr)
        decreases todo
      {
        var k :| k in todo;
        if |form[k]| > 0 {
          SetMData(k, DString(form[k][0]));
        }
        todo := todo - {k};
      }
    }

    /** Files a declaration under its name, replacing an earlier one. */
    method Declare(name: string, slot: Slot, tag: Tag, default: Option<Raw>)
      requires Valid() && Compatible(tag, slot.kind) && slot.Valid()
      modifies this
      ensures mParam == old(mParam)[name := Param(name, slot, tag, default)]
      ensures mData == old(mData) && err == old(err) && Repr == old(Repr) + {slot}
      ensures Valid()
    {
      mParam := mParam[name := Param(name, slot, tag, default)];
      Repr := Repr + {slot};
    }

    /** Declares `name` with a fresh variable of type `kind`. */
    method DeclareFresh(name: string, kind: Tag, default: Option<Raw>) returns (slot: Slot)
      requires Valid() && kind != UINT
      modifies this
      ensures fresh(slot) && slot.kind == kind && slot.value == Zero(kind)
      ensures mParam == old(mParam)[name := Param(name, slot, kind, default)]
      ensures mData == old(mData) && err == old(err) && Repr == old(Repr) + {slot}
      ensures Valid()
    {
      slot := new Slot(kind);
      Declare(name, slot, kind, default);
    }

    method String(name: string, default: Option<Raw>) returns (slot: Slot)
      requires Valid()
      modifies this
      ensures fresh(slot) && slot.kind == STR && slot.value == VString("")
      ensures mParam == old(mParam)[name := Param(name, slot, STR, default)]
      ensures mData == old(mData) && err == old(err) && Repr == old(Repr) + {slot}
      ensures Valid()
    {
      slot := DeclareFresh(name, STR, default);
    }

    method StringVal(ptr: Slot, name: string, default: Option<Raw>)
      requires Valid() && ptr.kind == STR && ptr.Valid()
      modifies this
      ensures mParam == old(mParam)[name := Param(name, ptr, STR, default)]
      ensures mData == old(mData) && err == old(err) && Repr == old(Repr) + {ptr}
      ensures Valid()
    {
      Declare(name, ptr, STR, default);
    }

    method Int64(name: string, default: Option<Raw>) returns (slot: Slot)
      requires Valid()
      modifies this
      ensures fresh(slot) && slot.kind == INT64 && slot.value == VInt(0)
      ensures mParam == old(mParam)[name := Param(name, slot, INT64, default)]
      ensures mData == old(mData) && err == old(err) && Repr == old(Repr) + {slot}
      ensures Valid()
    {
      slot := DeclareFresh(name, INT64, default);
    }

    method Int64Val(ptr: Slot, name: string, default: Option<Raw>)
      requires Valid() && ptr.kind == INT64 && ptr.Valid()
      modifies this
      ensures mParam == old(mParam)[name := Param(name, ptr, INT64, default)]
      ensures mData == old(mData) && err == old(err) && Repr == old(Repr) + {ptr}
      ensures Valid()
    {
      Declare(name, ptr, INT64, default);
    }

    method Uint64(name: string, default: Option<Raw>) returns (slot: Slot)
      requires Valid()
      modifies this
      ensures fresh(slot) && slot.kind == UINT64 && slot.value == VInt(0)
      ensures mParam == old(mParam)[name := Param(name, slot, UINT64, default)]
      ensures mData == old(mData) && err == old(err) && Repr == old(Repr) + {slot}
      ensures Valid()
    {
      slot := DeclareFresh(name, UINT64, default);
    }

    method Uint64Val(ptr: Slot, name: string, default: Option<Raw>)
      requires Valid() && ptr.kind == UINT64 && ptr.Valid()
      modifies this
      ensures mParam == old(mParam)[name := Param(name, ptr, UINT64, default)]
      ensures mData == old(mData) && err == old(err) && Repr == old(Repr) + {ptr}
      ensures Valid()
    {
      Declare(name, ptr, UINT64, default);
    }

    method Int32(name: string, default: Option<Raw>) returns (slot: Slot)
      requires Valid()
      modifies this
      ensures fresh(slot) && slot.kind == INT32 && slot.value == VInt(0)
      ensures mParam == old(mParam)[name := Param(name, slot, INT32, default)]
      ensures mData == old(mData) && err == old(err) && Repr == old(Repr) + {slot}
      ensures Valid()
    {
      slot := DeclareFresh(name, INT32, default);
    }

    method Int32Val(ptr: Slot, name: string, default: Option<Raw>)
      requires Valid() && ptr.kind == INT32 && ptr.Valid()
      modifies this
      ensures mParam == old(mParam)[name := Param(name, ptr, INT32, default)]
      ensures mData == old(mData) && err == old(err) && Repr == old(Repr) + {ptr}
      ensures Valid()
    {
      Declare(name, ptr, INT32, default);
    }

    method Uint32(name: string, default: Option<Raw>) returns (slot: Slot)
      requires Valid()
      modifies this
      ensures fresh(slot) && slot.kind == UINT32 && slot.value == VInt(0)
      ensures mParam == old(mParam)[name := Param(name, slot, UINT32, default)]
      ensures mData == old(mData) && err == old(err) && Repr == old(Repr) + {slot}
      ensures Valid()
    {
      slot := DeclareFresh(name, UINT32, default);
    }

    /** Records the tag `INT32`, not `UINT32`, for the `uint32` variable. */
    method Uint32Val(ptr: Slot, name: string, default: Option<Raw>)
      requires Valid() && ptr.kind == UINT32 && ptr.Valid()
      modifies this
      ensures mParam == old(mParam)[name := Param(name, ptr, INT32, default)]
      ensures mData == old(mData) && err == old(err) && Repr == old(Repr) + {ptr}
      ensures Valid()
    {
      Declare(name, ptr, INT32, default);
    }

    method Int(name: string, default: Option<Raw>) returns (slot: Slot)
      requires Valid()
      modifies this
      ensures fresh(slot) && slot.kind == INT && slot.value == VInt(0)
      ensures mParam == old(mParam)[name := Param(name, slot, INT, default)]
      ensures mData == old(mData) && err == old(err) && Repr == old(Repr) + {slot}
      ensures Valid()
    {
      slot := DeclareFresh(name, INT, default);
    }

    method IntVal(ptr: Slot, name: string, default: Option<Raw>)
      requires Valid() && ptr.kind == INT && ptr.Valid()
      modifies this
      ensures mParam == old(mParam)[name := Param(name, ptr, INT, default)]
      ensures mData == old(mData) && err == old(err) && Repr == old(Repr) + {ptr}
      ensures Valid()
    {
      Declare(name, ptr, INT, default);
    }

    /** One iteration of `DoParse` for the parameter declared as `name`:
        look up the value (else the default), convert it through the tag's
        converter, write the variable, and record an error in `err`. */
    method ParseOne(name: string) returns (failed: bool)
      requires Valid() && name in mParam
      modifies this, mParam[name].slot
      ensures mParam == old(mParam) && mData == old(mData)
      ensures Valid()
      ensures var r := Resolve(name, mParam[name], mData);
              (failed <==> r.err.Some?)
              && err == (if failed then ParamError(name, r.err.value) else old(err))
      ensures Repr == old(Repr)
      ensures forall c :: c in Repr ==>
                c.value == LastWrite(c, WriteOf(name, mParam[name], mData), old(c.value))
    {
      var p := mParam[name];
      var val: Raw;
      if name in mData {
        val := mData[name];
      } else if p.default.None? {
        err := ParamError(name, NotFound(name));
        return true;
      } else {
        val := p.default.value;
      }
      var o := Convert(p.tag, val);
      if o.write.Some? {
        p.slot.value := Stored(p.slot.kind, o.write.value);
      }
      if o.err.Some? {
        err := ParamError(name, Failed(name, o.err.value));
        return true;
      }
      return false;
    }

    /** `DoParse` visiting the declarations in the map iteration order
        `order`. Unless an error was already recorded, it resolves the
        parameters in turn, writing each variable, and stops at the first
        failure, which it records in `err`; the variables then hold the
        writes of the parameters visited, the failing one included. */
    method DoParse(order: seq<string>) returns (ok: bool)
      requires Valid()
      requires forall k :: k in order ==> k in mParam
      requires multiset(order) == multiset(mParam.Keys)
      modifies this, Repr
      ensures mParam == old(mParam) && mData == old(mData) && Repr == old(Repr)
      ensures Valid()
      ensures old(err.msg) != "" && order != [] ==>
                !ok && err == old(err) && forall c :: c in Repr ==> c.value == old(c.value)
      ensures old(err.msg) == "" || order == [] ==>
                var f := FirstFailure(order, mParam, mData);
                var visited := if f < |order| then f + 1 else f;
                (ok <==> f == |order|)
                && (ok ==> err == old(err))
                && (!ok ==> err == ParamError(order[f], Resolve(order[f], mParam[order[f]], mData).err.value))
                && forall c :: c in Repr ==>
                     c.value == LastWrite(c, Writes(order[..visited], mParam, mData), old(c.value))
    {
      var i := 0;
      while i < |order|
        invariant 0 <= i <= |order|
        invariant mParam == old(mParam) && mData == old(mData) && err == old(err) && Repr == old(Repr)
        invariant i > 0 ==> old(err.msg) == ""
        invariant i <= FirstFailure(order, mParam, mData)
        invariant Valid()
        invariant forall c :: c in Repr ==>
                    c.value == LastWrite(c, Writes(order[..i], mParam, mData), old(c.value))
      {
        if err.msg != "" {
          return false;
        }
        ghost var before := Writes(order[..i], mParam, mData);
        ghost var step := WriteOf(order[i], mParam[order[i]], mData);
        var failed := ParseOne(order[i]);
        WritesSnoc(order, i, mParam, mData);
        forall c | c in Repr
          ensures c.value == LastWrite(c, Writes(order[..i + 1], mParam, mData), old(c.value))
        {
          LastWriteConcat(c, before, step, old(c.value));
        }
        if failed {
          return false;
        }
        i := i + 1;
      }
      assert order[..i] == order;
      return true;
    }
  }
}
