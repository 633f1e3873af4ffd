/**
  The MessagePack hooks of `async_cache/serialization.py` as transformations of finite trees.

  A `PyValue` is what the cache is asked to store and a `Wire` is the tree MessagePack
  writes: its byte format, ISO dates and UUID text are taken as trusted inverses.
*/
module Serialization {
  import opened Common

  datatype Wire =
    | WNil
    | WBool(b: bool)
    | WInt(i: int)
    | WFloat(r: real)
    | WStr(s: string)
    | WBin(bytes: seq<bv8>)
    | WArr(items: seq<Wire>)
    | WMap(entries: seq<WireField>)

  datatype WireField = WireField(key: string, value: Wire)

  datatype Failure = SerializationError

  /** Python's `str()`, which the string fallback calls on whole values. */
  type Printer = PyValue -> string

  const TYPE_DATETIME := 1
  const TYPE_CUSTOM_OBJECT := 2
  const TYPE_UUID := 3
  const TYPE_STRING_FALLBACK := 99

  /** The integers MessagePack packs itself; a larger one goes to the hook. */
  predicate Packable(i: int) {
    -0x8000_0000_0000_0000 <= i < 0x1_0000_0000_0000_0000
  }

  function TypeName(v: PyValue): string {
    match v
    case PNone => "NoneType"
    case PBool(_) => "bool"
    case PInt(_) => "int"
    case PFloat(_) => "float"
    case PStr(_) => "str"
    case PBytes(_) => "bytes"
    case PList(_) => "list"
    case PTuple(_) => "tuple"
    case PDict(_) => "dict"
    case PDateTime(_) => "datetime"
    case PUuid(_) => "UUID"
    case PFunction(_) => "function"
    case PObject(cls, _, _) => cls
    case POpaque(name, _) => name
  }

  // ---------------------------------------------------------------- encoding

  function FallbackWire(v: PyValue, str: Printer): Wire {
    WMap([WireField("__type_code", WInt(TYPE_STRING_FALLBACK)),
          WireField("type", WStr(TypeName(v))),
          WireField("data", WStr(str(v)))])
  }

  /** `packb(v, default=_encode_hook)`: natives are packed as they are, the rest go to the hook. */
  function Encode(v: PyValue, fallback: bool, str: Printer): Result<Wire, Failure>
    decreases v, 1
  {
    match v
    case PNone => Ok(WNil)
    case PBool(b) => Ok(WBool(b))
    case PInt(i) =>
      if Packable(i) then Ok(WInt(i)) else Unsupported(v, fallback, str)
    case PFloat(r) => Ok(WFloat(r))
    case PStr(s) => Ok(WStr(s))
    case PBytes(bytes) => Ok(WBin(bytes))
    case PList(items) => ArrayOf(EncodeItems(items, fallback, str))
    case PTuple(items) => ArrayOf(EncodeItems(items, fallback, str))
    case PDict(entries) => MapOf(EncodeEntries(entries, fallback, str))
    case PDateTime(iso) => Ok(WMap([WireField("__type_code", WInt(TYPE_DATETIME)), WireField("data", WStr(iso))]))
    case PUuid(text) => Ok(WMap([WireField("__type_code", WInt(TYPE_UUID)), WireField("data", WStr(text))]))
    case PFunction(_) => Unsupported(v, fallback, str)
    case PObject(cls, modname, attrs) =>
      (match EncodeAttributes(attrs, fallback, str)
       case Ok(data) => Ok(ObjectWire(cls, modname, data))
       case Err(e) => Err(e))
    case POpaque(_, _) => Unsupported(v, fallback, str)
  }

  function Unsupported(v: PyValue, fallback: bool, str: Printer): Result<Wire, Failure> {
    if fallback then Ok(FallbackWire(v, str)) else Err(SerializationError)
  }

  function ObjectWire(cls: string, modname: string, data: seq<WireField>): Wire {
    WMap([WireField("__type_code", WInt(TYPE_CUSTOM_OBJECT)),
          WireField("type", WStr(cls)),
          WireField("module", WStr(modname)),
          WireField("data", WMap(data))])
  }

  function ArrayOf(r: Result<seq<Wire>, Failure>): Result<Wire, Failure> {
    match r
    case Ok(items) => Ok(WArr(items))
    case Err(e) => Err(e)
  }

  function MapOf(r: Result<seq<WireField>, Failure>): Result<Wire, Failure> {
    match r
    case Ok(entries) => Ok(WMap(entries))
    case Err(e) => Err(e)
  }

  function EncodeItems(items: seq<PyValue>, fallback: bool, str: Printer): (r: Result<seq<Wire>, Failure>)
    ensures r.Ok? ==> |r.value| == |items|
    decreases items, 0
  {
    if items == [] then Ok([]) else
    match Encode(items[0], fallback, str)
    case Err(e) => Err(e)
    case Ok(first) =>
      match EncodeItems(items[1..], fallback, str)
      case Err(e) => Err(e)
      case Ok(rest) => Ok([first] + rest)
  }

  function EncodeEntries(entries: seq<Field>, fallback: bool, str: Printer)
    : (r: Result<seq<WireField>, Failure>)
    ensures r.Ok? ==> |r.value| == |entries| && forall i | 0 <= i < |entries| :: r.value[i].key == entries[i].key
    decreases entries, 0
  {
    if entries == [] then Ok([]) else
    match Encode(entries[0].value, fallback, str)
    case Err(e) => Err(e)
    case Ok(first) =>
      match EncodeEntries(entries[1..], fallback, str)
      case Err(e) => Err(e)
      case Ok(rest) => Ok([WireField(entries[0].key, first)] + rest)
  }

  /** One attribute of an object: tried on its own without the fallback, then replaced by its
      text as a whole if that fails and the fallback is on. */
  function EncodeAttribute(v: PyValue, fallback: bool, str: Printer): Result<Wire, Failure>
    decreases v, 2
  {
    if Encode(v, false, str).Ok? then Encode(v, fallback, str) else Unsupported(v, fallback, str)
  }

  function EncodeAttributes(attrs: seq<Field>, fallback: bool, str: Printer)
    : (r: Result<seq<WireField>, Failure>)
    ensures r.Ok? ==> |r.value| == |attrs| && forall i | 0 <= i < |attrs| :: r.value[i].key == attrs[i].key
    decreases attrs, 0
  {
    if attrs == [] then Ok([]) else
    match EncodeAttribute(attrs[0].value, fallback, str)
    case Err(e) => Err(e)
    case Ok(first) =>
      match EncodeAttributes(attrs[1..], fallback, str)
      case Err(e) => Err(e)
      case Ok(rest) => Ok([WireField(attrs[0].key, first)] + rest)
  }

  /** The loop of the hook over an object's attributes, filling the dictionary to serialize. */
  method SerializableAttributes(attrs: seq<Field>, fallback: bool, str: Printer)
    returns (r: Result<seq<WireField>, Failure>)
    ensures r == EncodeAttributes(attrs, fallback, str)
  {
    var serializable: seq<WireField> := [];
    var i := 0;
    assert attrs[0..] == attrs;
    if EncodeAttributes(attrs, fallback, str).Ok? {
      assert [] + EncodeAttributes(attrs, fallback, str).value == EncodeAttributes(attrs, fallback, str).value;
    }
    while i < |attrs|
      invariant 0 <= i <= |attrs|
      invariant EncodeAttributes(attrs, fallback, str) ==
        Prepend(serializable, EncodeAttributes(attrs[i..], fallback, str))
    {
      var Field(key, value) := attrs[i];
      var attempt := Encode(value, false, str);
      var rest := EncodeAttributes(attrs[i + 1..], fallback, str);
      assert attrs[i..][1..] == attrs[i + 1..];
      if rest.Ok? {
        var wire := if attempt.Ok? then attempt.value else FallbackWire(value, str);
        ConcatAssociates(serializable, WireField(key, wire), rest.value);
      }
      if attempt.Ok? {
        FallbackKeepsEncodings(value, str);
        serializable := serializable + [WireField(key, attempt.value)];
      } else if fallback {
        serializable := serializable + [WireField(key, FallbackWire(value, str))];
      } else {
        return Err(SerializationError);
      }
      i := i + 1;
    }
    assert attrs[i..] == [] && serializable + [] == serializable;
    r := Ok(serializable);
  }

  lemma {:induction false} ConcatAssociates(a: seq<WireField>, f: WireField, b: seq<WireField>)
    ensures a + ([f] + b) == (a + [f]) + b
  {
  }

  function Prepend(done: seq<WireField>, rest: Result<seq<WireField>, Failure>)
    : Result<seq<WireField>, Failure>
  {
    match rest
    case Ok(entries) => Ok(done + entries)
    case Err(e) => Err(e)
  }

  // ---------------------------------------------------------------- dictionaries

  predicate HasKey(d: seq<Field>, key: string) {
    exists i | 0 <= i < |d| :: d[i].key == key
  }

  function Lookup(d: seq<Field>, key: string): (r: Option<PyValue>)
    ensures r.Some? <==> HasKey(d, key)
    ensures r.Some? ==> exists i | 0 <= i < |d| :: d[i] == Field(key, r.value)
  {
    if d == [] then None
    else if d[0].key == key then assert d[0] == Field(key, d[0].value); Some(d[0].value)
    else
      var r := Lookup(d[1..], key);
      assert HasKey(d[1..], key) ==> HasKey(d, key);
      assert HasKey(d, key) ==> HasKey(d[1..], key) by {
        if i :| 0 <= i < |d| && d[i].key == key { assert d[1..][i - 1].key == key; }
      }
      assert r.Some? ==> exists i | 0 <= i < |d| :: d[i] == Field(key, r.value) by {
        if r.Some? {
          var i :| 0 <= i < |d[1..]| && d[1..][i] == Field(key, r.value);
          assert d[i + 1] == Field(key, r.value);
        }
      }
      r
  }

  /** `d[key] = v`: an existing key keeps its place. */
  function Assign(d: seq<Field>, key: string, v: PyValue): seq<Field> {
    if d == [] then [Field(key, v)]
    else if d[0].key == key then [Field(key, v)] + d[1..]
    else [d[0]] + Assign(d[1..], key, v)
  }

  /** `{**base, **more}`. */
  function Merge(base: seq<Field>, more: seq<Field>): seq<Field>
    decreases |more|
  {
    if more == [] then base else Merge(Assign(base, more[0].key, more[0].value), more[1..])
  }

  // ---------------------------------------------------------------- decoding

  /** Python's `==` between a decoded type code and one of the integer constants, under which
      `True` and `1.0` equal 1. */
  predicate CodeIs(code: PyValue, n: int) {
    || (code.PInt? && code.i == n)
    || (code.PBool? && (if code.b then 1 else 0) == n)
    || (code.PFloat? && code.r == n as real)
  }

  function DecodeHook(d: seq<Field>): Result<PyValue, Failure> {
    var code := Lookup(d, "__type_code");
    if code.None? then Ok(PDict(d))
    else if CodeIs(code.value, TYPE_DATETIME) then AsDateTime(Lookup(d, "data"))
    else if CodeIs(code.value, TYPE_UUID) then AsUuid(Lookup(d, "data"))
    else if CodeIs(code.value, TYPE_STRING_FALLBACK) then AsFallback(Lookup(d, "type"), Lookup(d, "data"))
    else if CodeIs(code.value, TYPE_CUSTOM_OBJECT) then
      AsObject(Lookup(d, "type"), Lookup(d, "module"), Lookup(d, "data"))
    else Ok(PDict(d))
  }

  function AsDateTime(data: Option<PyValue>): Result<PyValue, Failure> {
    match data
    case Some(PStr(iso)) => Ok(PDateTime(iso))
    case _ => Err(SerializationError)
  }

  function AsUuid(data: Option<PyValue>): Result<PyValue, Failure> {
    match data
    case Some(PStr(text)) => Ok(PUuid(text))
    case _ => Err(SerializationError)
  }

  function AsFallback(typeName: Option<PyValue>, data: Option<PyValue>): Result<PyValue, Failure> {
    if typeName.Some? && data.Some? then
      Ok(PDict([Field("__serialized_string_of_type", typeName.value), Field("value", data.value)]))
    else Err(SerializationError)
  }

  function AsObject(cls: Option<PyValue>, modname: Option<PyValue>, data: Option<PyValue>): Result<PyValue, Failure> {
    if cls.Some? && modname.Some? && data.Some? && data.value.PDict? then
      Ok(PDict(Merge([Field("__type", cls.value), Field("__module", modname.value)], data.value.entries)))
    else Err(SerializationError)
  }

  /** `unpackb(w, object_hook=_decode_hook)`: children first, then the hook on each map. */
  function Decode(w: Wire): Result<PyValue, Failure>
    decreases w, 1
  {
    match w
    case WNil => Ok(PNone)
    case WBool(b) => Ok(PBool(b))
    case WInt(i) => Ok(PInt(i))
    case WFloat(r) => Ok(PFloat(r))
    case WStr(s) => Ok(PStr(s))
    case WBin(bytes) => Ok(PBytes(bytes))
    case WArr(items) =>
      (match DecodeItems(items)
       case Ok(values) => Ok(PList(values))
       case Err(e) => Err(e))
    case WMap(entries) =>
      (match DecodeEntries(entries)
       case Ok(d) => DecodeHook(Merge([], d))
       case Err(e) => Err(e))
  }

  function DecodeItems(items: seq<Wire>): Result<seq<PyValue>, Failure>
    decreases items, 0
  {
    if items == [] then Ok([]) else
    match Decode(items[0])
    case Err(e) => Err(e)
    case Ok(first) =>
      match DecodeItems(items[1..])
      case Err(e) => Err(e)
      case Ok(rest) => Ok([first] + rest)
  }

  function DecodeEntries(entries: seq<WireField>): (r: Result<seq<Field>, Failure>)
    ensures r.Ok? ==> |r.value| == |entries| && forall i | 0 <= i < |entries| :: r.value[i].key == entries[i].key
    decreases entries, 0
  {
    if entries == [] then Ok([]) else
    match Decode(entries[0].value)
    case Err(e) => Err(e)
    case Ok(first) =>
      match DecodeEntries(entries[1..])
      case Err(e) => Err(e)
      case Ok(rest) => Ok([Field(entries[0].key, first)] + rest)
  }

  // ---------------------------------------------------------------- the normal form

  function FallbackDict(v: PyValue, str: Printer): PyValue {
    PDict([Field("__serialized_string_of_type", PStr(TypeName(v))), Field("value", PStr(str(v)))])
  }

  /** What a value is expected to come back as: tuples as lists, objects as tagged
      dictionaries, anything the fallback replaced as a dictionary holding its text. */
  function Normal(v: PyValue, str: Printer): PyValue
    decreases v, 1
  {
    match v
    case PInt(i) => if Packable(i) then v else FallbackDict(v, str)
    case PList(items) => PList(NormalItems(items, str))
    case PTuple(items) => PList(NormalItems(items, str))
    case PDict(entries) => PDict(NormalEntries(entries, str))
    case PFunction(_) => FallbackDict(v, str)
    case PObject(cls, modname, attrs) =>
      PDict(Merge([Field("__type", PStr(cls)), Field("__module", PStr(modname))], NormalAttributes(attrs, str)))
    case POpaque(_, _) => FallbackDict(v, str)
    case _ => v
  }

  function NormalItems(items: seq<PyValue>, str: Printer): (r: seq<PyValue>)
    ensures |r| == |items|
    decreases items, 0
  {
    if items == [] then [] else [Normal(items[0], str)] + NormalItems(items[1..], str)
  }

  function NormalEntries(entries: seq<Field>, str: Printer): (r: seq<Field>)
    ensures |r| == |entries| && forall i | 0 <= i < |r| :: r[i].key == entries[i].key
    decreases entries, 0
  {
    if entries == [] then []
    else [Field(entries[0].key, Normal(entries[0].value, str))] + NormalEntries(entries[1..], str)
  }

  function NormalAttributes(attrs: seq<Field>, str: Printer): (r: seq<Field>)
    ensures |r| == |attrs| && forall i | 0 <= i < |r| :: r[i].key == attrs[i].key
    decreases attrs, 0
  {
    if attrs == [] then [] else
      var v := attrs[0].value;
      var kept := if Encode(v, false, str).Ok? then Normal(v, str) else FallbackDict(v, str);
      [Field(attrs[0].key, kept)] + NormalAttributes(attrs[1..], str)
  }

  // ---------------------------------------------------------------- hypotheses

  predicate UniqueKeys(d: seq<Field>) {
    forall i, j | 0 <= i < j < |d| :: d[i].key != d[j].key
  }

  /** Every dictionary in the tree is one: it has no key twice. */
  predicate WellFormed(v: PyValue)
    decreases v
  {
    match v
    case PList(items) => forall i | 0 <= i < |items| :: WellFormed(items[i])
    case PTuple(items) => forall i | 0 <= i < |items| :: WellFormed(items[i])
    case PDict(entries) => UniqueKeys(entries) && forall i | 0 <= i < |entries| :: WellFormed(entries[i].value)
    case PObject(_, _, attrs) => UniqueKeys(attrs) && forall i | 0 <= i < |attrs| :: WellFormed(attrs[i].value)
    case _ => true
  }

  predicate IsTypeCode(code: PyValue) {
    CodeIs(code, TYPE_DATETIME) || CodeIs(code, TYPE_UUID) || CodeIs(code, TYPE_STRING_FALLBACK) ||
    CodeIs(code, TYPE_CUSTOM_OBJECT)
  }

  /** A dictionary the decoding hook would take for one of its own. */
  predicate Hijacked(d: seq<Field>) {
    var code := Lookup(d, "__type_code");
    code.Some? && IsTypeCode(code.value)
  }

  // ---------------------------------------------------------------- the fallback is conservative

  /** Turning the fallback on never changes how an encodable value is encoded. */
  lemma {:induction false} FallbackKeepsEncodings(v: PyValue, str: Printer)
    ensures Encode(v, false, str).Ok? ==> Encode(v, true, str) == Encode(v, false, str)
    decreases v, 1
  {
    match v
    case PList(items) => FallbackKeepsItems(items, str);
    case PTuple(items) => FallbackKeepsItems(items, str);
    case PDict(entries) => FallbackKeepsEntries(entries, str);
    case PObject(_, _, attrs) => FallbackKeepsAttributes(attrs, str);
    case _ =>
  }

  lemma {:induction false} FallbackKeepsItems(items: seq<PyValue>, str: Printer)
    ensures EncodeItems(items, false, str).Ok? ==> EncodeItems(items, true, str) == EncodeItems(items, false, str)
    decreases items, 0
  {
    if items != [] {
      FallbackKeepsEncodings(items[0], str);
      FallbackKeepsItems(items[1..], str);
    }
  }

  lemma {:induction false} FallbackKeepsEntries(entries: seq<Field>, str: Printer)
    ensures EncodeEntries(entries, false, str).Ok? ==>
      EncodeEntries(entries, true, str) == EncodeEntries(entries, false, str)
    decreases entries, 0
  {
    if entries != [] {
      FallbackKeepsEncodings(entries[0].value, str);
      FallbackKeepsEntries(entries[1..], str);
    }
  }

  lemma {:induction false} FallbackKeepsAttributes(attrs: seq<Field>, str: Printer)
    ensures EncodeAttributes(attrs, false, str).Ok? ==>
      EncodeAttributes(attrs, true, str) == EncodeAttributes(attrs, false, str)
    decreases attrs, 0
  {
    if attrs != [] {
      FallbackKeepsEncodings(attrs[0].value, str);
      FallbackKeepsAttributes(attrs[1..], str);
    }
  }

  /** With the fallback on nothing is refused. */
  lemma {:induction false} FallbackIsTotal(v: PyValue, str: Printer)
    ensures Encode(v, true, str).Ok?
    decreases v, 1
  {
    match v
    case PList(items) => FallbackIsTotalOnItems(items, str);
    case PTuple(items) => FallbackIsTotalOnItems(items, str);
    case PDict(entries) => FallbackIsTotalOnEntries(entries, str);
    case PObject(_, _, attrs) => FallbackIsTotalOnAttributes(attrs, str);
    case _ =>
  }

  lemma {:induction false} FallbackIsTotalOnItems(items: seq<PyValue>, str: Printer)
    ensures EncodeItems(items, true, str).Ok?
    decreases items, 0
  {
    if items != [] {
      FallbackIsTotal(items[0], str);
      FallbackIsTotalOnItems(items[1..], str);
    }
  }

  lemma {:induction false} FallbackIsTotalOnEntries(entries: seq<Field>, str: Printer)
    ensures EncodeEntries(entries, true, str).Ok?
    decreases entries, 0
  {
    if entries != [] {
      FallbackIsTotal(entries[0].value, str);
      FallbackIsTotalOnEntries(entries[1..], str);
    }
  }

  lemma {:induction false} FallbackIsTotalOnAttributes(attrs: seq<Field>, str: Printer)
    ensures EncodeAttributes(attrs, true, str).Ok?
    decreases attrs, 0
  {
    if attrs != [] {
      FallbackIsTotal(attrs[0].value, str);
      FallbackIsTotalOnAttributes(attrs[1..], str);
    }
  }

  // ---------------------------------------------------------------- round trip

  lemma {:induction false} LookupAt(d: seq<Field>, i: nat)
    requires i < |d| && UniqueKeys(d)
    ensures Lookup(d, d[i].key) == Some(d[i].value)
  {
    if i > 0 {
      assert d[0].key != d[i].key;
      assert UniqueKeys(d[1..]);
      LookupAt(d[1..], i - 1);
    }
  }

  lemma {:induction false} AssignNew(d: seq<Field>, key: string, v: PyValue)
    requires !HasKey(d, key)
    ensures Assign(d, key, v) == d + [Field(key, v)]
  {
    if d != [] {
      assert d[0].key != key;
      assert forall i | 0 <= i < |d[1..]| :: d[1..][i] == d[i + 1];
      AssignNew(d[1..], key, v);
    }
  }

  /** Merging dictionaries that share no key is concatenation. */
  lemma {:induction false} MergeDisjoint(base: seq<Field>, more: seq<Field>)
    requires UniqueKeys(base + more)
    ensures Merge(base, more) == base + more
    decreases |more|
  {
    if more == [] {
      assert base + more == base;
    } else {
      assert (base + more)[|base|] == more[0];
      assert !HasKey(base, more[0].key) by {
        forall i | 0 <= i < |base| ensures base[i].key != more[0].key {
          assert (base + more)[i] == base[i];
        }
      }
      AssignNew(base, more[0].key, more[0].value);
      var base' := base + [Field(more[0].key, more[0].value)];
      assert base' + more[1..] == base + more;
      MergeDisjoint(base', more[1..]);
    }
  }

  lemma {:induction false} DecodeEntriesCons(key: string, w: Wire, rest: seq<WireField>)
    ensures DecodeEntries([WireField(key, w)] + rest) ==
      match Decode(w)
      case Err(e) => Err(e)
      case Ok(first) =>
        match DecodeEntries(rest)
        case Err(e) => Err(e)
        case Ok(tail) => Ok([Field(key, first)] + tail)
  {
    assert ([WireField(key, w)] + rest)[1..] == rest;
  }

  lemma {:induction false} DecodesFieldwise(entries: seq<WireField>, d: seq<Field>)
    requires |entries| == |d|
    requires forall i | 0 <= i < |d| :: entries[i].key == d[i].key && Decode(entries[i].value) == Ok(d[i].value)
    ensures DecodeEntries(entries) == Ok(d)
  {
    if entries != [] {
      DecodesFieldwise(entries[1..], d[1..]);
      assert d == [Field(entries[0].key, d[0].value)] + d[1..];
    }
  }

  /** A map whose keys are distinct is decoded field by field before the hook sees it. */
  lemma {:induction false} MapDecodes(entries: seq<WireField>, d: seq<Field>)
    requires DecodeEntries(entries) == Ok(d)
    requires UniqueKeys(d)
    ensures Decode(WMap(entries)) == DecodeHook(d)
  {
    MergeWithNothing(d);
  }

  lemma {:induction false} MergeWithNothing(d: seq<Field>)
    requires UniqueKeys(d)
    ensures Merge([], d) == d
  {
    assert [] + d == d;
    MergeDisjoint([], d);
  }

  lemma {:induction false} DateTimeDecodes(iso: string)
    ensures Decode(WMap([WireField("__type_code", WInt(TYPE_DATETIME)), WireField("data", WStr(iso))])) ==
              Ok(PDateTime(iso))
  {
    var d := [Field("__type_code", PInt(TYPE_DATETIME)), Field("data", PStr(iso))];
    DecodesFieldwise([WireField("__type_code", WInt(TYPE_DATETIME)), WireField("data", WStr(iso))], d);
    MapDecodes([WireField("__type_code", WInt(TYPE_DATETIME)), WireField("data", WStr(iso))], d);
    LookupAt(d, 0);
    LookupAt(d, 1);
  }

  lemma {:induction false} UuidDecodes(text: string)
    ensures Decode(WMap([WireField("__type_code", WInt(TYPE_UUID)), WireField("data", WStr(text))])) == Ok(PUuid(text))
  {
    var d := [Field("__type_code", PInt(TYPE_UUID)), Field("data", PStr(text))];
    DecodesFieldwise([WireField("__type_code", WInt(TYPE_UUID)), WireField("data", WStr(text))], d);
    MapDecodes([WireField("__type_code", WInt(TYPE_UUID)), WireField("data", WStr(text))], d);
    LookupAt(d, 0);
    LookupAt(d, 1);
  }

  lemma {:induction false} FallbackDecodes(v: PyValue, str: Printer)
    ensures Decode(FallbackWire(v, str)) == Ok(FallbackDict(v, str))
  {
    var d := FallbackFields(TypeName(v), str(v));
    var entries := FallbackWire(v, str).entries;
    assert DecodeEntries(entries) == Ok(d) by {
      DecodesFieldwise(entries, d);
    }
    FallbackFieldsHook(TypeName(v), str(v));
    MapDecodes(entries, d);
  }

  function FallbackFields(typeName: string, text: string): seq<Field> {
    [Field("__type_code", PInt(TYPE_STRING_FALLBACK)), Field("type", PStr(typeName)), Field("data", PStr(text))]
  }

  lemma {:induction false} FallbackFieldsHook(typeName: string, text: string)
    ensures UniqueKeys(FallbackFields(typeName, text))
    ensures DecodeHook(FallbackFields(typeName, text)) ==
      Ok(PDict([Field("__serialized_string_of_type", PStr(typeName)), Field("value", PStr(text))]))
  {
    var d := FallbackFields(typeName, text);
    assert |d[0].key| == 11 && d[1].key[0] == 't' && d[2].key[0] == 'd';
    LookupAt(d, 0);
    LookupAt(d, 1);
    LookupAt(d, 2);
  }

  /** An object's map is read field by field and then rebuilt from its type, module and data. */
  lemma {:induction false} ObjectDecodes(cls: string, modname: string, data: seq<WireField>)
    ensures Decode(ObjectWire(cls, modname, data)) ==
      match Decode(WMap(data))
      case Err(e) => Err(e)
      case Ok(x) => AsObject(Some(PStr(cls)), Some(PStr(modname)), Some(x))
  {
    var entries := ObjectWire(cls, modname, data).entries;
    match Decode(WMap(data))
    case Err(e) =>
      assert e == SerializationError;
      DecodeFails(entries, 3);
      assert DecodeEntries(entries).error == SerializationError;
    case Ok(x) =>
      var d := ObjectFields(cls, modname, x);
      assert DecodeEntries(entries) == Ok(d) by {
        ObjectDecodesFieldwise(cls, modname, data, x);
      }
      assert UniqueKeys(d) by {
        ObjectFieldsLookup(cls, modname, x);
      }
      MapDecodes(entries, d);
      assert DecodeHook(d) == AsObject(Some(PStr(cls)), Some(PStr(modname)), Some(x)) by {
        ObjectFieldsHook(cls, modname, x);
      }
  }

  lemma {:induction false} DecodeFails(entries: seq<WireField>, i: nat)
    requires i < |entries| && Decode(entries[i].value).Err?
    ensures DecodeEntries(entries).Err?
  {
    if i > 0 {
      DecodeFails(entries[1..], i - 1);
    }
  }

  lemma {:induction false} ObjectDecodesFieldwise(cls: string, modname: string, data: seq<WireField>, x: PyValue)
    requires Decode(WMap(data)) == Ok(x)
    ensures DecodeEntries(ObjectWire(cls, modname, data).entries) == Ok(ObjectFields(cls, modname, x))
  {
    DecodesFieldwise(ObjectWire(cls, modname, data).entries, ObjectFields(cls, modname, x));
  }

  lemma {:induction false} ObjectFieldsHook(cls: string, modname: string, x: PyValue)
    ensures DecodeHook(ObjectFields(cls, modname, x)) == AsObject(Some(PStr(cls)), Some(PStr(modname)), Some(x))
  {
    ObjectFieldsLookup(cls, modname, x);
  }

  function ObjectFields(cls: string, modname: string, x: PyValue): seq<Field> {
    [Field("__type_code", PInt(TYPE_CUSTOM_OBJECT)), Field("type", PStr(cls)), Field("module", PStr(modname)),
     Field("data", x)]
  }

  lemma {:induction false} ObjectFieldsLookup(cls: string, modname: string, x: PyValue)
    ensures var d := ObjectFields(cls, modname, x);
      && UniqueKeys(d)
      && Lookup(d, "__type_code") == Some(PInt(TYPE_CUSTOM_OBJECT))
      && Lookup(d, "type") == Some(PStr(cls))
      && Lookup(d, "module") == Some(PStr(modname))
      && Lookup(d, "data") == Some(x)
  {
    var d := ObjectFields(cls, modname, x);
    assert |d[0].key| == 11 && |d[2].key| == 6 && d[1].key[0] == 't' && d[3].key[0] == 'd';
    LookupAt(d, 0);
    LookupAt(d, 1);
    LookupAt(d, 2);
    LookupAt(d, 3);
  }

  lemma {:induction false} LookupInEntries(entries: seq<Field>, key: string, str: Printer)
    ensures match Lookup(entries, key)
      case None => Lookup(NormalEntries(entries, str), key) == None
      case Some(v) => Lookup(NormalEntries(entries, str), key) == Some(Normal(v, str))
  {
    if entries != [] && entries[0].key != key {
      LookupInEntries(entries[1..], key, str);
    }
  }

  lemma {:induction false} LookupInAttributes(attrs: seq<Field>, key: string, str: Printer)
    ensures match Lookup(attrs, key)
      case None => Lookup(NormalAttributes(attrs, str), key) == None
      case Some(v) =>
        Lookup(NormalAttributes(attrs, str), key) ==
        Some(if Encode(v, false, str).Ok? then Normal(v, str) else FallbackDict(v, str))
  {
    if attrs != [] && attrs[0].key != key {
      LookupInAttributes(attrs[1..], key, str);
    }
  }

  lemma {:induction false} NormalKeepsTypeCode(v: PyValue, str: Printer)
    ensures IsTypeCode(Normal(v, str)) == IsTypeCode(v)
    ensures Encode(v, false, str).Err? ==> !IsTypeCode(v)
  {
  }

  /** Normalizing a dictionary neither adds nor removes one of the hooks' codes. */
  lemma {:induction false} NormalEntriesKeepTags(entries: seq<Field>, str: Printer)
    ensures Hijacked(NormalEntries(entries, str)) == Hijacked(entries)
  {
    LookupInEntries(entries, "__type_code", str);
    var code := Lookup(entries, "__type_code");
    if code.Some? {
      NormalKeepsTypeCode(code.value, str);
    }
  }

  lemma {:induction false} NormalAttributesKeepTags(attrs: seq<Field>, str: Printer)
    ensures Hijacked(NormalAttributes(attrs, str)) == Hijacked(attrs)
  {
    LookupInAttributes(attrs, "__type_code", str);
    var code := Lookup(attrs, "__type_code");
    if code.Some? {
      NormalKeepsTypeCode(code.value, str);
    }
  }

  // ---------------------------------------------------------------- the normal form is final

  predicate AllNormal(d: seq<Field>, str: Printer) {
    forall i | 0 <= i < |d| :: Normal(d[i].value, str) == d[i].value
  }

  lemma {:induction false} AllNormalIsFixed(d: seq<Field>, str: Printer)
    requires AllNormal(d, str)
    ensures NormalEntries(d, str) == d
  {
    if d != [] {
      AllNormalIsFixed(d[1..], str);
      assert d == [Field(d[0].key, d[0].value)] + d[1..];
    }
  }

  lemma {:induction false} AssignKeepsNormal(d: seq<Field>, key: string, v: PyValue, str: Printer)
    requires AllNormal(d, str) && Normal(v, str) == v
    ensures AllNormal(Assign(d, key, v), str)
  {
    if d != [] {
      AssignKeepsNormal(d[1..], key, v, str);
    }
  }

  lemma {:induction false} MergeKeepsNormal(base: seq<Field>, more: seq<Field>, str: Printer)
    requires AllNormal(base, str) && AllNormal(more, str)
    ensures AllNormal(Merge(base, more), str)
    decreases |more|
  {
    if more != [] {
      AssignKeepsNormal(base, more[0].key, more[0].value, str);
      MergeKeepsNormal(Assign(base, more[0].key, more[0].value), more[1..], str);
    }
  }

  lemma {:induction false} FallbackDictIsNormal(v: PyValue, str: Printer)
    ensures Normal(FallbackDict(v, str), str) == FallbackDict(v, str)
  {
    AllNormalIsFixed([Field("__serialized_string_of_type", PStr(TypeName(v))), Field("value", PStr(str(v)))], str);
  }

  lemma {:induction false} TaggedDictIsNormal(cls: string, modname: string, fields: seq<Field>, str: Printer)
    requires AllNormal(fields, str)
    ensures var d := PDict(Merge([Field("__type", PStr(cls)), Field("__module", PStr(modname))], fields));
      Normal(d, str) == d
  {
    var base := [Field("__type", PStr(cls)), Field("__module", PStr(modname))];
    MergeKeepsNormal(base, fields, str);
    AllNormalIsFixed(Merge(base, fields), str);
  }

  lemma {:induction false} DictOfNormalIsFixed(d: seq<Field>, str: Printer)
    requires AllNormal(d, str)
    ensures Normal(PDict(d), str) == PDict(d)
  {
    AllNormalIsFixed(d, str);
  }

  /** Storing what was read back changes nothing more: the normal form is a fixed point. */
  lemma {:induction false} NormalIsFixed(v: PyValue, str: Printer)
    ensures Normal(Normal(v, str), str) == Normal(v, str)
    decreases v, 1
  {
    match v
    case PList(items) => NormalItemsAreFixed(items, str);
    case PTuple(items) => NormalItemsAreFixed(items, str);
    case PDict(entries) =>
      NormalEntriesAreFixed(entries, str);
      DictOfNormalIsFixed(NormalEntries(entries, str), str);
    case PObject(cls, modname, attrs) =>
      NormalAttributesAreFixed(attrs, str);
      TaggedDictIsNormal(cls, modname, NormalAttributes(attrs, str), str);
    case _ => NormalLeafIsFixed(v, str);
  }

  lemma {:induction false} NormalLeafIsFixed(v: PyValue, str: Printer)
    requires !v.PList? && !v.PTuple? && !v.PDict? && !v.PObject?
    ensures Normal(Normal(v, str), str) == Normal(v, str)
  {
    FallbackDictIsNormal(v, str);
  }

  lemma {:induction false} NormalItemsAreFixed(items: seq<PyValue>, str: Printer)
    ensures NormalItems(NormalItems(items, str), str) == NormalItems(items, str)
    decreases items, 0
  {
    if items != [] {
      NormalIsFixed(items[0], str);
      NormalItemsAreFixed(items[1..], str);
      assert ([Normal(items[0], str)] + NormalItems(items[1..], str))[1..] == NormalItems(items[1..], str);
    }
  }

  lemma {:induction false} NormalEntriesAreFixed(entries: seq<Field>, str: Printer)
    ensures AllNormal(NormalEntries(entries, str), str)
    decreases entries, 0
  {
    if entries != [] {
      NormalIsFixed(entries[0].value, str);
      NormalEntriesAreFixed(entries[1..], str);
    }
  }

  lemma {:induction false} NormalAttributesAreFixed(attrs: seq<Field>, str: Printer)
    ensures AllNormal(NormalAttributes(attrs, str), str)
    decreases attrs, 0
  {
    if attrs != [] {
      NormalIsFixed(attrs[0].value, str);
      FallbackDictIsNormal(attrs[0].value, str);
      NormalAttributesAreFixed(attrs[1..], str);
    }
  }
}
