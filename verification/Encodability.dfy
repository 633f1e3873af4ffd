/**
  Which values MessagePack and its hook can write, and which come back as they were.
*/
module Encodability {
  import opened Common
  import opened Serialization
  import SerializationExactness
  import AsyncCaching

  /** Nowhere in the value is there a function, an opaque value or an integer beyond 64 bits. */
  predicate Plain(v: PyValue)
    decreases v
  {
    match v
    case PInt(i) => -0x8000_0000_0000_0000 <= i <= 0xffff_ffff_ffff_ffff
    case PFunction(_) => false
    case POpaque(_, _) => false
    case PList(items) => forall i | 0 <= i < |items| :: Plain(items[i])
    case PTuple(items) => forall i | 0 <= i < |items| :: Plain(items[i])
    case PDict(entries) => forall i | 0 <= i < |entries| :: Plain(entries[i].value)
    case PObject(_, _, attrs) => forall i | 0 <= i < |attrs| :: Plain(attrs[i].value)
    case _ => true
  }

  /** Without the fallback exactly the plain values can be written. */
  lemma {:induction false} EncodesExactly(v: PyValue, str: Printer)
    ensures Encode(v, false, str).Ok? <==> Plain(v)
    decreases v, 1
  {
    match v
    case PList(items) => ItemsEncodeExactly(items, str);
    case PTuple(items) => ItemsEncodeExactly(items, str);
    case PDict(entries) => EntriesEncodeExactly(entries, str);
    case PObject(_, _, attrs) => AttributesEncodeExactly(attrs, str);
    case _ =>
  }

  lemma {:induction false} ItemsEncodeExactly(items: seq<PyValue>, str: Printer)
    ensures EncodeItems(items, false, str).Ok? <==> forall i | 0 <= i < |items| :: Plain(items[i])
    decreases items, 0
  {
    if items != [] {
      EncodesExactly(items[0], str);
      ItemsEncodeExactly(items[1..], str);
      assert forall i | 0 < i < |items| :: items[i] == items[1..][i - 1];
    }
  }

  lemma {:induction false} EntriesEncodeExactly(entries: seq<Field>, str: Printer)
    ensures EncodeEntries(entries, false, str).Ok? <==> forall i | 0 <= i < |entries| :: Plain(entries[i].value)
    decreases entries, 0
  {
    if entries != [] {
      EncodesExactly(entries[0].value, str);
      EntriesEncodeExactly(entries[1..], str);
      assert forall i | 0 < i < |entries| :: entries[i] == entries[1..][i - 1];
    }
  }

  lemma {:induction false} AttributesEncodeExactly(attrs: seq<Field>, str: Printer)
    ensures EncodeAttributes(attrs, false, str).Ok? <==> forall i | 0 <= i < |attrs| :: Plain(attrs[i].value)
    decreases attrs, 0
  {
    if attrs != [] {
      EncodesExactly(attrs[0].value, str);
      AttributesEncodeExactly(attrs[1..], str);
      assert forall i | 0 < i < |attrs| :: attrs[i] == attrs[1..][i - 1];
    }
  }

  /** The cache stores what can be written, or is replaced by its text, in no more bytes than it allows. */
  lemma {:induction false} StorableExactly(config: AsyncCaching.Config, v: PyValue, packer: AsyncCaching.Packer)
    ensures AsyncCaching.Storable(config, v, packer) <==>
      exists w :: Encode(v, config.fallbackToStr, packer.str) == Ok(w) && packer.size(w) <= config.maxSerializedSize
    ensures AsyncCaching.Storable(config, v, packer) ==> config.fallbackToStr || Plain(v)
    ensures (config.fallbackToStr || Plain(v)) && (forall w :: packer.size(w) <= config.maxSerializedSize) ==>
              AsyncCaching.Storable(config, v, packer)
  {
    EncodesExactly(v, packer.str);
    if config.fallbackToStr {
      FallbackIsTotal(v, packer.str);
    }
  }

  // ---------------------------------------------------------------- what comes back unchanged

  /** Nothing in the value is a tuple or an object, or has to be replaced by its text. */
  predicate Native(v: PyValue)
    decreases v
  {
    match v
    case PInt(i) => -0x8000_0000_0000_0000 <= i <= 0xffff_ffff_ffff_ffff
    case PFunction(_) => false
    case POpaque(_, _) => false
    case PTuple(_) => false
    case PObject(_, _, _) => false
    case PList(items) => forall i | 0 <= i < |items| :: Native(items[i])
    case PDict(entries) => forall i | 0 <= i < |entries| :: Native(entries[i].value)
    case _ => true
  }

  /** Exactly the native values are their own normal form. */
  lemma {:induction false} NormalIsSameExactly(v: PyValue, str: Printer)
    ensures Normal(v, str) == v <==> Native(v)
    decreases v, 1
  {
    match v
    case PList(items) => ItemsAreSameExactly(items, str);
    case PDict(entries) => EntriesAreSameExactly(entries, str);
    case _ =>
  }

  lemma {:induction false} ItemsAreSameExactly(items: seq<PyValue>, str: Printer)
    ensures NormalItems(items, str) == items <==> forall i | 0 <= i < |items| :: Native(items[i])
    decreases items, 0
  {
    if items != [] {
      NormalIsSameExactly(items[0], str);
      ItemsAreSameExactly(items[1..], str);
      assert items == [items[0]] + items[1..];
      assert NormalItems(items, str)[1..] == NormalItems(items[1..], str);
      assert forall i | 0 < i < |items| :: items[i] == items[1..][i - 1];
    }
  }

  lemma {:induction false} EntriesAreSameExactly(entries: seq<Field>, str: Printer)
    ensures NormalEntries(entries, str) == entries <==> forall i | 0 <= i < |entries| :: Native(entries[i].value)
    decreases entries, 0
  {
    if entries != [] {
      NormalIsSameExactly(entries[0].value, str);
      EntriesAreSameExactly(entries[1..], str);
      assert entries == [entries[0]] + entries[1..];
      assert NormalEntries(entries, str)[1..] == NormalEntries(entries[1..], str);
      assert forall i | 0 < i < |entries| :: entries[i] == entries[1..][i - 1];
    }
  }

  /** So a native value that is written comes back as itself if and only if none of its dictionaries carries a
      type code. */
  lemma {:induction false} NativeComesBackExactly(v: PyValue, fallback: bool, str: Printer)
    requires WellFormed(v) && Native(v) && Encode(v, fallback, str).Ok?
    ensures Decode(Encode(v, fallback, str).value) == Ok(v) <==> SerializationExactness.Untagged(v, str)
  {
    NormalIsSameExactly(v, str);
    SerializationExactness.RoundTripExactly(v, fallback, str);
  }

  /** A tuple comes back as the list of its items, and a list item by item. */
  lemma {:induction false} NormalItemwise(items: seq<PyValue>, str: Printer, i: nat)
    requires i < |items|
    ensures Normal(PTuple(items), str) == Normal(PList(items), str) == PList(NormalItems(items, str))
    ensures NormalItems(items, str)[i] == Normal(items[i], str)
  {
    if i > 0 {
      NormalItemwise(items[1..], str, i - 1);
    }
  }

  lemma {:induction false} NormalEntrywise(entries: seq<Field>, str: Printer, i: nat)
    requires i < |entries|
    ensures Normal(PDict(entries), str) == PDict(NormalEntries(entries, str))
    ensures NormalEntries(entries, str)[i] == Field(entries[i].key, Normal(entries[i].value, str))
  {
    if i > 0 {
      NormalEntrywise(entries[1..], str, i - 1);
    }
  }

  /** An attribute that cannot be written is replaced, as a whole, by the name of its type and its text. */
  lemma {:induction false} AttributeBecomesText(key: string, v: PyValue, str: Printer)
    requires !Plain(v)
    ensures NormalAttributes([Field(key, v)], str) == [Field(key, PDict([
              Field("__serialized_string_of_type", PStr(
                match v
                case PInt(_) => "int"
                case PList(_) => "list"
                case PTuple(_) => "tuple"
                case PDict(_) => "dict"
                case PFunction(_) => "function"
                case PObject(cls, _, _) => cls
                case POpaque(name, _) => name
                case _ => "")),
              Field("value", PStr(str(v)))]))]
  {
    EncodesExactly(v, str);
    assert [Field(key, v)][1..] == [];
  }

  // ---------------------------------------------------------------- the wire

  /** The type codes other readers of the cache see: 1 for dates, 2 for objects, 3 for UUIDs, 99 for text. */
  lemma {:induction false} WireCodes(text: string, cls: string, modname: string, fallback: bool, str: Printer)
    ensures Encode(PDateTime(text), fallback, str) ==
      Ok(WMap([WireField("__type_code", WInt(1)), WireField("data", WStr(text))]))
    ensures Encode(PUuid(text), fallback, str) ==
      Ok(WMap([WireField("__type_code", WInt(3)), WireField("data", WStr(text))]))
    ensures Encode(PObject(cls, modname, []), fallback, str) ==
      Ok(WMap([WireField("__type_code", WInt(2)), WireField("type", WStr(cls)), WireField("module", WStr(modname)),
               WireField("data", WMap([]))]))
    ensures Encode(PFunction(text), true, str) ==
      Ok(WMap([WireField("__type_code", WInt(99)), WireField("type", WStr("function")),
               WireField("data", WStr(str(PFunction(text))))]))
  {
  }

  /** Python's `==` takes `True` and `1.0` for the code 1, and `False` for none of the codes. */
  lemma {:induction false} EqualCodesDecode(code: Wire, text: string)
    requires code == WInt(1) || code == WBool(true) || code == WFloat(1.0) || code == WBool(false)
    ensures Decode(WMap([WireField("__type_code", code), WireField("data", WStr(text))])) ==
      if code == WBool(false) then Ok(PDict([Field("__type_code", PBool(false)), Field("data", PStr(text))]))
      else Ok(PDateTime(text))
  {
    TwoFieldsDecode(code, text);
    CodedHook(Decode(code).value, text);
  }

  lemma {:induction false} TwoFieldsDecode(code: Wire, text: string)
    requires code.WInt? || code.WBool? || code.WFloat?
    ensures Decode(WMap([WireField("__type_code", code), WireField("data", WStr(text))])) ==
      DecodeHook([Field("__type_code", Decode(code).value), Field("data", PStr(text))])
  {
    var entries := [WireField("__type_code", code), WireField("data", WStr(text))];
    var d := [Field("__type_code", Decode(code).value), Field("data", PStr(text))];
    assert |"data"| == 4 && |"__type_code"| == 11;
    DecodesFieldwise(entries, d);
    MapDecodes(entries, d);
  }

  lemma {:induction false} CodedHook(code: PyValue, text: string)
    requires code == PInt(1) || code == PBool(true) || code == PFloat(1.0) || code == PBool(false)
    ensures var d := [Field("__type_code", code), Field("data", PStr(text))];
      DecodeHook(d) == if code == PBool(false) then Ok(PDict(d)) else Ok(PDateTime(text))
  {
    var d := [Field("__type_code", code), Field("data", PStr(text))];
    assert |"data"| == 4 && |"__type_code"| == 11;
    LookupAt(d, 0);
    LookupAt(d, 1);
  }
}
