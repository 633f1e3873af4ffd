/**
  Exactly when the cache's serializer round-trips, with the string fallback off or on: a value comes
  back as its normal form if and only if none of its own dictionaries that are written out carries one
  of the hooks' type codes.
*/
module SerializationExactness {
  import opened Common
  import opened Serialization

  // ---------------------------------------------------------------- what merging keeps

  lemma {:induction false} AssignMembers(d: seq<Field>, key: string, v: PyValue)
    ensures forall f | f in Assign(d, key, v) :: f in d || f == Field(key, v)
    ensures Field(key, v) in Assign(d, key, v)
    ensures forall f | f in d && f.key != key :: f in Assign(d, key, v)
    ensures forall k :: HasKey(Assign(d, key, v), k) ==> HasKey(d, k) || k == key
  {
    if d == [] {
    } else {
      AssignMembers(d[1..], key, v);
      assert d == [d[0]] + d[1..];
      assert forall f | f in d :: f == d[0] || f in d[1..];
      assert forall f | f in d[1..] :: f in d;
      forall k | HasKey(Assign(d, key, v), k) ensures HasKey(d, k) || k == key {
        var i :| 0 <= i < |Assign(d, key, v)| && Assign(d, key, v)[i].key == k;
        var f := Assign(d, key, v)[i];
        assert f in Assign(d, key, v);
        if f in d {
          var j :| 0 <= j < |d| && d[j] == f;
          assert d[j].key == k;
        }
      }
    }
  }

  /** Every field of `{**base, **more}` comes from one of the two. */
  lemma {:induction false} MergeMembers(base: seq<Field>, more: seq<Field>, f: Field)
    requires f in Merge(base, more)
    ensures f in base || f in more
    decreases |more|
  {
    if more != [] {
      var base' := Assign(base, more[0].key, more[0].value);
      MergeMembers(base', more[1..], f);
      AssignMembers(base, more[0].key, more[0].value);
      assert more[0] == Field(more[0].key, more[0].value);
    }
  }

  /** A field of the second dictionary is in the merged one, if its key is there once. */
  lemma {:induction false} MergeKeeps(base: seq<Field>, more: seq<Field>, f: Field)
    requires UniqueKeys(more)
    requires f in more || (f in base && !HasKey(more, f.key))
    ensures f in Merge(base, more)
    decreases |more|
  {
    if more != [] {
      var base' := Assign(base, more[0].key, more[0].value);
      AssignMembers(base, more[0].key, more[0].value);
      if f in more {
        var i :| 0 <= i < |more| && more[i] == f;
        if i == 0 {
          assert !HasKey(more[1..], f.key);
        } else {
          assert more[1..][i - 1] == f;
        }
      } else {
        assert more[0].key != f.key;
        assert !HasKey(more[1..], f.key) by {
          forall i | 0 <= i < |more[1..]| ensures more[1..][i].key != f.key {
            assert more[i + 1].key != f.key;
          }
        }
      }
      MergeKeeps(base', more[1..], f);
    }
  }

  lemma {:induction false} LookupAssigned(d: seq<Field>, key: string, v: PyValue, k: string)
    ensures Lookup(Assign(d, key, v), k) == if k == key then Some(v) else Lookup(d, k)
  {
    if d != [] && d[0].key != key {
      LookupAssigned(d[1..], key, v, k);
    }
  }

  /** The second dictionary wins. */
  lemma {:induction false} LookupMerged(base: seq<Field>, more: seq<Field>, k: string)
    requires UniqueKeys(more)
    ensures Lookup(Merge(base, more), k) == if Lookup(more, k).Some? then Lookup(more, k) else Lookup(base, k)
    decreases |more|
  {
    if more != [] {
      LookupAssigned(base, more[0].key, more[0].value, k);
      LookupMerged(Assign(base, more[0].key, more[0].value), more[1..], k);
      assert more[0].key == k ==> Lookup(more[1..], k).None? by {
        forall i | 0 <= i < |more[1..]| ensures more[1..][i].key != more[0].key {
          assert more[i + 1].key != more[0].key;
        }
      }
    }
  }

  lemma {:induction false} KeyedMember(d: seq<Field>, key: string)
    requires HasKey(d, key)
    ensures Field(key, Lookup(d, key).value) in d
  {
  }

  // ---------------------------------------------------------------- depth

  /** The tree is at most `n` containers deep. */
  predicate Within(v: PyValue, n: nat)
    decreases v
  {
    match v
    case PList(items) => n > 0 && forall i | 0 <= i < |items| :: Within(items[i], n - 1)
    case PTuple(items) => n > 0 && forall i | 0 <= i < |items| :: Within(items[i], n - 1)
    case PDict(entries) => n > 0 && forall i | 0 <= i < |entries| :: Within(entries[i].value, n - 1)
    case PObject(_, _, attrs) => n > 0 && forall i | 0 <= i < |attrs| :: Within(attrs[i].value, n - 1)
    case _ => true
  }

  predicate FieldsWithin(d: seq<Field>, n: nat) {
    forall i | 0 <= i < |d| :: Within(d[i].value, n)
  }

  lemma {:induction false} WithinMore(v: PyValue, n: nat, m: nat)
    requires Within(v, n) && n <= m
    ensures Within(v, m)
    decreases v
  {
    match v
    case PList(items) =>
      forall i | 0 <= i < |items| ensures Within(items[i], m - 1) { WithinMore(items[i], n - 1, m - 1); }
    case PTuple(items) =>
      forall i | 0 <= i < |items| ensures Within(items[i], m - 1) { WithinMore(items[i], n - 1, m - 1); }
    case PDict(entries) =>
      forall i | 0 <= i < |entries| ensures Within(entries[i].value, m - 1) {
        WithinMore(entries[i].value, n - 1, m - 1);
      }
    case PObject(_, _, attrs) =>
      forall i | 0 <= i < |attrs| ensures Within(attrs[i].value, m - 1) { WithinMore(attrs[i].value, n - 1, m - 1); }
    case _ =>
  }

  ghost function Depth(v: PyValue): (n: nat)
    ensures Within(v, n)
    decreases v, 1
  {
    match v
    case PList(items) => 1 + ItemsDepth(items)
    case PTuple(items) => 1 + ItemsDepth(items)
    case PDict(entries) => 1 + FieldsDepth(entries)
    case PObject(_, _, attrs) => 1 + FieldsDepth(attrs)
    case _ => 0
  }

  ghost function ItemsDepth(items: seq<PyValue>): (n: nat)
    ensures forall i | 0 <= i < |items| :: Within(items[i], n)
    decreases items, 0
  {
    if items == [] then 0 else
      var n := Depth(items[0]);
      var m := ItemsDepth(items[1..]);
      assert forall i | 0 <= i < |items| :: Within(items[i], n + m) by {
        forall i | 0 <= i < |items| ensures Within(items[i], n + m) {
          if i == 0 { WithinMore(items[0], n, n + m); } else {
            assert items[1..][i - 1] == items[i];
            WithinMore(items[i], m, n + m);
          }
        }
      }
      n + m
  }

  ghost function FieldsDepth(d: seq<Field>): (n: nat)
    ensures FieldsWithin(d, n)
    decreases d, 0
  {
    if d == [] then 0 else
      var n := Depth(d[0].value);
      var m := FieldsDepth(d[1..]);
      assert FieldsWithin(d, n + m) by {
        forall i | 0 <= i < |d| ensures Within(d[i].value, n + m) {
          if i == 0 { WithinMore(d[0].value, n, n + m); } else {
            assert d[1..][i - 1] == d[i];
            WithinMore(d[i].value, m, n + m);
          }
        }
      }
      n + m
  }

  lemma {:induction false} MergeWithin(base: seq<Field>, more: seq<Field>, n: nat)
    requires FieldsWithin(base, n) && FieldsWithin(more, n)
    ensures FieldsWithin(Merge(base, more), n)
  {
    var r := Merge(base, more);
    forall i | 0 <= i < |r| ensures Within(r[i].value, n) {
      MergeMembers(base, more, r[i]);
    }
  }

  lemma {:induction false} AsObjectWithin(cls: Option<PyValue>, modname: Option<PyValue>, data: PyValue, n: nat)
    requires cls.Some? && Within(cls.value, n)
    requires modname.Some? && Within(modname.value, n)
    requires Within(data, n) && AsObject(cls, modname, Some(data)).Ok?
    ensures Within(AsObject(cls, modname, Some(data)).value, n + 1)
  {
    FieldsWithinMore(data.entries, n - 1, n);
    MergeWithin([Field("__type", cls.value), Field("__module", modname.value)], data.entries, n);
  }

  lemma {:induction false} FieldsWithinMore(d: seq<Field>, n: nat, m: nat)
    requires FieldsWithin(d, n) && n <= m
    ensures FieldsWithin(d, m)
  {
    forall i | 0 <= i < |d| ensures Within(d[i].value, m) {
      WithinMore(d[i].value, n, m);
    }
  }

  lemma {:induction false} AsFallbackWithin(typeName: Option<PyValue>, data: Option<PyValue>, n: nat)
    requires typeName.Some? ==> Within(typeName.value, n)
    requires data.Some? ==> Within(data.value, n)
    requires AsFallback(typeName, data).Ok?
    ensures Within(AsFallback(typeName, data).value, n + 1)
  {
  }

  lemma {:induction false} LookupWithin(d: seq<Field>, key: string, n: nat)
    requires FieldsWithin(d, n)
    ensures Lookup(d, key).Some? ==> Within(Lookup(d, key).value, n)
  {
  }

  /** The hook never makes a dictionary deeper. */
  lemma {:induction false} HookWithin(d: seq<Field>, n: nat)
    requires FieldsWithin(d, n)
    requires DecodeHook(d).Ok?
    ensures Within(DecodeHook(d).value, n + 1)
  {
    LookupWithin(d, "type", n);
    LookupWithin(d, "module", n);
    LookupWithin(d, "data", n);
    var t, m, data := Lookup(d, "type"), Lookup(d, "module"), Lookup(d, "data");
    if DecodeHook(d) == AsFallback(t, data) {
      AsFallbackWithin(t, data, n);
    } else if DecodeHook(d) == AsObject(t, m, data) {
      AsObjectWithin(t, m, data.value, n);
    }
  }

  // ---------------------------------------------------------------- what decoding keeps

  ghost predicate NoDeeper(x: PyValue, y: PyValue) {
    forall n: nat | Within(y, n) :: Within(x, n)
  }

  /** What is known of a decoded value beside the normal form, whether or not they are equal. */
  ghost predicate Resembles(x: PyValue, y: PyValue) {
    NoDeeper(x, y) && IsTypeCode(x) == IsTypeCode(y)
  }

  ghost predicate FieldsResemble(d: seq<Field>, n: seq<Field>) {
    |d| == |n| && forall i | 0 <= i < |n| :: d[i].key == n[i].key && Resembles(d[i].value, n[i].value)
  }

  lemma {:induction false} LookupResembles(d: seq<Field>, n: seq<Field>, key: string)
    requires FieldsResemble(d, n)
    ensures Lookup(d, key).Some? <==> Lookup(n, key).Some?
    ensures Lookup(n, key).Some? ==> Resembles(Lookup(d, key).value, Lookup(n, key).value)
    decreases |n|
  {
    if n != [] && n[0].key != key {
      LookupResembles(d[1..], n[1..], key);
    }
  }

  lemma {:induction false} HijackedAlike(d: seq<Field>, n: seq<Field>)
    requires FieldsResemble(d, n)
    ensures Hijacked(d) == Hijacked(n)
  {
    LookupResembles(d, n, "__type_code");
  }

  lemma {:induction false} FieldsNoDeeper(d: seq<Field>, n: seq<Field>, m: nat)
    requires FieldsResemble(d, n) && FieldsWithin(n, m)
    ensures FieldsWithin(d, m)
  {
  }

  /** No value is a field of what resembles it. */
  lemma {:induction false} NotItsOwnField(x: seq<Field>, y: PyValue, f: Field, n: nat)
    requires NoDeeper(PDict(x), y) && f in x && f.value == y
    ensures !Within(y, n)
    decreases n
  {
    if Within(y, n) {
      assert Within(PDict(x), n);
      var i :| 0 <= i < |x| && x[i] == f;
      NotItsOwnField(x, y, f, n - 1);
    }
  }

  lemma {:induction false} FallbackHasNoTag(typeName: Option<PyValue>, data: Option<PyValue>, x: seq<Field>)
    requires AsFallback(typeName, data) == Ok(PDict(x))
    ensures !HasKey(x, "__type_code")
  {
    assert |"__type_code"| == 11 && |x[0].key| == 27 && |x[1].key| == 5;
  }

  /** A dictionary that carries a code never turns into one with both that tag and, under "data", what
      the original data resembles. */
  lemma {:induction false} HijackingShows(d: seq<Field>, n: seq<Field>, x: seq<Field>)
    requires FieldsResemble(d, n) && Hijacked(d) && DecodeHook(d) == Ok(PDict(x)) && HasKey(x, "__type_code")
    ensures Lookup(n, "data").Some? && Field("data", Lookup(n, "data").value) !in x
  {
    var t, m, data := Lookup(d, "type"), Lookup(d, "module"), Lookup(d, "data");
    assert AsFallback(t, data) != Ok(PDict(x)) by {
      if AsFallback(t, data) == Ok(PDict(x)) {
        FallbackHasNoTag(t, data, x);
      }
    }
    assert AsObject(t, m, data) == Ok(PDict(x));
    LookupResembles(d, n, "data");
    ObjectHoldsNoSelf(t.value, m.value, data.value.entries, Lookup(n, "data").value);
  }

  lemma {:induction false} ObjectHoldsNoSelf(t: PyValue, m: PyValue, inner: seq<Field>, y: PyValue)
    requires NoDeeper(PDict(inner), y)
    ensures Field("data", y) !in Merge([Field("__type", t), Field("__module", m)], inner)
  {
    var base := [Field("__type", t), Field("__module", m)];
    var f := Field("data", y);
    if f in Merge(base, inner) {
      MergeMembers(base, inner, f);
      assert |f.key| == 4 && |base[0].key| == 6 && |base[1].key| == 8;
      NotItsOwnField(inner, y, f, Depth(y));
    }
  }

  /** Whatever a dictionary decodes to, it is the normal one exactly when all its values are and it
      carries none of the codes. */
  lemma {:induction false} DictExactly(d: seq<Field>, n: seq<Field>)
    requires FieldsResemble(d, n)
    ensures DecodeHook(d) == Ok(PDict(n)) <==> d == n && !Hijacked(n)
    ensures DecodeHook(d).Ok? ==> Resembles(DecodeHook(d).value, PDict(n))
  {
    HijackedAlike(d, n);
    if Hijacked(d) && DecodeHook(d) == Ok(PDict(n)) {
      HijackingShows(d, n, n);
      KeyedMember(n, "data");
    }
    if DecodeHook(d).Ok? {
      HookResembles(d, n);
    }
  }

  lemma {:induction false} HookResembles(d: seq<Field>, n: seq<Field>)
    requires FieldsResemble(d, n) && DecodeHook(d).Ok?
    ensures Resembles(DecodeHook(d).value, PDict(n))
  {
    forall m: nat | Within(PDict(n), m) ensures Within(DecodeHook(d).value, m) {
      FieldsNoDeeper(d, n, m - 1);
      HookWithin(d, m - 1);
    }
  }

  // ---------------------------------------------------------------- objects

  /** The merged dictionary of an object holds each attribute, so bounds their depth. */
  lemma {:induction false} MergedFieldsWithin(base: seq<Field>, more: seq<Field>, n: nat)
    requires UniqueKeys(more) && FieldsWithin(Merge(base, more), n)
    ensures FieldsWithin(more, n)
  {
    forall i | 0 <= i < |more| ensures Within(more[i].value, n) {
      MergeKeeps(base, more, more[i]);
    }
  }

  lemma {:induction false} ObjectOfDictWithin(cls: string, modname: string, x: seq<Field>, n: nat)
    requires Within(PDict(x), n)
    ensures Within(PDict(Merge([Field("__type", PStr(cls)), Field("__module", PStr(modname))], x)), n)
  {
    MergeWithin([Field("__type", PStr(cls)), Field("__module", PStr(modname))], x, n - 1);
  }

  /** A field of one dictionary whose key the base lacks is in every other dictionary that
      merges with that base to the same effect. */
  lemma {:induction false} MergeDetermines(base: seq<Field>, n: seq<Field>, x: seq<Field>, f: Field)
    requires UniqueKeys(n) && Merge(base, n) == Merge(base, x)
    requires f in n && (f.key == "__type_code" || f.key == "data")
    requires forall b | b in base :: b.key == "__type" || b.key == "__module"
    ensures f in x
  {
    assert |"__type_code"| == 11 && |"data"| == 4 && |"__type"| == 6 && |"__module"| == 8;
    MergeKeeps(base, n, f);
    MergeMembers(base, x, f);
  }

  /** With the same keys in the same order, equal merges mean equal fields. */
  lemma {:induction false} SameMergeSameFields(base: seq<Field>, n: seq<Field>, d: seq<Field>)
    requires UniqueKeys(n) && |n| == |d| && forall i | 0 <= i < |n| :: n[i].key == d[i].key
    requires Merge(base, n) == Merge(base, d)
    ensures n == d
  {
    forall i | 0 <= i < |n| ensures n[i] == d[i] {
      LookupMerged(base, n, n[i].key);
      LookupAt(n, i);
      LookupMerged(base, d, d[i].key);
      LookupAt(d, i);
    }
  }

  function ObjectBase(cls: string, modname: string): seq<Field> {
    [Field("__type", PStr(cls)), Field("__module", PStr(modname))]
  }

  /** What an object's map decodes to, once its data `d` has been read. */
  function ObjectOf(cls: string, modname: string, d: seq<Field>): Result<PyValue, Failure> {
    match DecodeHook(d)
    case Err(e) => Err(e)
    case Ok(x) => AsObject(Some(PStr(cls)), Some(PStr(modname)), Some(x))
  }

  lemma {:induction false} ObjectExactly(cls: string, modname: string, d: seq<Field>, n: seq<Field>)
    requires UniqueKeys(n) && FieldsResemble(d, n)
    ensures ObjectOf(cls, modname, d) == Ok(PDict(Merge(ObjectBase(cls, modname), n))) <==> d == n && !Hijacked(n)
    ensures ObjectOf(cls, modname, d).Ok? ==>
              Resembles(ObjectOf(cls, modname, d).value, PDict(Merge(ObjectBase(cls, modname), n)))
  {
    HijackedAlike(d, n);
    var base := ObjectBase(cls, modname);
    if ObjectOf(cls, modname, d).Ok? {
      var x := DecodeHook(d).value.entries;
      ObjectResembles(cls, modname, d, n, x);
      if Merge(base, x) == Merge(base, n) {
        SameObjectSameDict(base, d, n, x);
      }
    }
  }

  lemma {:induction false} ObjectResembles(cls: string, modname: string, d: seq<Field>, n: seq<Field>, x: seq<Field>)
    requires UniqueKeys(n) && FieldsResemble(d, n) && DecodeHook(d) == Ok(PDict(x))
    ensures Resembles(PDict(Merge(ObjectBase(cls, modname), x)), PDict(Merge(ObjectBase(cls, modname), n)))
  {
    var base := ObjectBase(cls, modname);
    HookResembles(d, n);
    forall m: nat | Within(PDict(Merge(base, n)), m) ensures Within(PDict(Merge(base, x)), m) {
      MergedFieldsWithin(base, n, m - 1);
      assert Within(PDict(n), m);
      ObjectOfDictWithin(cls, modname, x, m);
    }
  }

  lemma {:induction false} SameObjectSameDict(base: seq<Field>, d: seq<Field>, n: seq<Field>, x: seq<Field>)
    requires UniqueKeys(n) && FieldsResemble(d, n)
    requires DecodeHook(d) == Ok(PDict(x)) && Merge(base, n) == Merge(base, x)
    requires forall b | b in base :: b.key == "__type" || b.key == "__module"
    ensures !Hijacked(d) && d == n
  {
    if Hijacked(d) {
      LookupResembles(d, n, "__type_code");
      KeyedMember(n, "__type_code");
      MergeDetermines(base, n, x, Field("__type_code", Lookup(n, "__type_code").value));
      HijackingShows(d, n, x);
      KeyedMember(n, "data");
      MergeDetermines(base, n, x, Field("data", Lookup(n, "data").value));
    } else {
      SameMergeSameFields(base, n, d);
    }
  }

  // ---------------------------------------------------------------- the exact condition

  /** No dictionary the caller put in the tree carries one of the hooks' type codes, other than inside
      an attribute that is replaced by its text as a whole. */
  predicate Untagged(v: PyValue, str: Printer)
    decreases v
  {
    match v
    case PList(items) => forall i | 0 <= i < |items| :: Untagged(items[i], str)
    case PTuple(items) => forall i | 0 <= i < |items| :: Untagged(items[i], str)
    case PDict(entries) => !Hijacked(entries) && forall i | 0 <= i < |entries| :: Untagged(entries[i].value, str)
    case PObject(_, _, attrs) =>
      !Hijacked(attrs) &&
      forall i | 0 <= i < |attrs| :: Encode(attrs[i].value, false, str).Ok? ==> Untagged(attrs[i].value, str)
    case _ => true
  }

  /** What a decoded value is to the value it came from. */
  ghost predicate Comes(r: Result<PyValue, Failure>, v: PyValue, str: Printer) {
    && (r == Ok(Normal(v, str)) <==> Untagged(v, str))
    && (r.Ok? ==> Resembles(r.value, Normal(v, str)))
  }

  /** With the fallback off or on, a value that encodes comes back as its normal form if and only if
      none of its own dictionaries that are written out carries one of the hooks' type codes. */
  lemma {:induction false} RoundTripExactly(v: PyValue, fallback: bool, str: Printer)
    requires WellFormed(v) && Encode(v, fallback, str).Ok?
    ensures Decode(Encode(v, fallback, str).value) == Ok(Normal(v, str)) <==> Untagged(v, str)
    ensures Comes(Decode(Encode(v, fallback, str).value), v, str)
    decreases v, 1
  {
    match v
    case PInt(_) => if fallback { FallbackDecodes(v, str); }
    case PList(items) => ListExactly(items, fallback, str);
    case PTuple(items) => ListExactly(items, fallback, str);
    case PDict(entries) => EntriesAsDict(entries, fallback, str);
    case PDateTime(iso) => DateTimeDecodes(iso);
    case PUuid(text) => UuidDecodes(text);
    case PFunction(_) => FallbackDecodes(v, str);
    case PObject(cls, modname, attrs) => AttributesAsObject(cls, modname, attrs, fallback, str);
    case POpaque(_, _) => FallbackDecodes(v, str);
    case _ =>
  }

  lemma {:induction false} ListExactly(items: seq<PyValue>, fallback: bool, str: Printer)
    requires forall i | 0 <= i < |items| :: WellFormed(items[i])
    requires EncodeItems(items, fallback, str).Ok?
    ensures var r := Decode(WArr(EncodeItems(items, fallback, str).value));
      && (r == Ok(PList(NormalItems(items, str))) <==> forall i | 0 <= i < |items| :: Untagged(items[i], str))
      && (r.Ok? ==> Resembles(r.value, PList(NormalItems(items, str))))
    decreases items, 1
  {
    ItemsExactly(items, fallback, str);
    var r := DecodeItems(EncodeItems(items, fallback, str).value);
    if r.Ok? {
      ListResembles(r.value, NormalItems(items, str));
    }
  }

  ghost predicate ItemsResemble(xs: seq<PyValue>, ys: seq<PyValue>) {
    |xs| == |ys| && forall i | 0 <= i < |ys| :: Resembles(xs[i], ys[i])
  }

  lemma {:induction false} ListResembles(xs: seq<PyValue>, ys: seq<PyValue>)
    requires ItemsResemble(xs, ys)
    ensures Resembles(PList(xs), PList(ys))
  {
    forall n: nat | Within(PList(ys), n) ensures Within(PList(xs), n) {
      assert forall i | 0 <= i < |ys| :: NoDeeper(xs[i], ys[i]);
    }
  }

  lemma {:induction false} ItemsExactly(items: seq<PyValue>, fallback: bool, str: Printer)
    requires forall i | 0 <= i < |items| :: WellFormed(items[i])
    requires EncodeItems(items, fallback, str).Ok?
    ensures var r := DecodeItems(EncodeItems(items, fallback, str).value);
      && (r == Ok(NormalItems(items, str)) <==> forall i | 0 <= i < |items| :: Untagged(items[i], str))
      && (r.Ok? ==> ItemsResemble(r.value, NormalItems(items, str)))
    decreases items, 0
  {
    if items != [] {
      var w, rest := Encode(items[0], fallback, str).value, EncodeItems(items[1..], fallback, str).value;
      RoundTripExactly(items[0], fallback, str);
      ItemsExactly(items[1..], fallback, str);
      OneMoreItem(w, rest, Normal(items[0], str), NormalItems(items[1..], str));
    }
  }

  lemma {:induction false} OneMoreItem(w: Wire, rest: seq<Wire>, y: PyValue, ys: seq<PyValue>)
    requires Decode(w).Ok? ==> Resembles(Decode(w).value, y)
    requires DecodeItems(rest).Ok? ==> ItemsResemble(DecodeItems(rest).value, ys)
    ensures var r := DecodeItems([w] + rest);
      && (r == Ok([y] + ys) <==> Decode(w) == Ok(y) && DecodeItems(rest) == Ok(ys))
      && (r.Ok? ==> ItemsResemble(r.value, [y] + ys))
  {
    assert ([w] + rest)[1..] == rest;
    if Decode(w).Ok? && DecodeItems(rest).Ok? {
      ConsEqual(Decode(w).value, DecodeItems(rest).value, y, ys);
    }
  }

  lemma {:induction false} ConsEqual<T>(x: T, xs: seq<T>, y: T, ys: seq<T>)
    ensures [x] + xs == [y] + ys <==> x == y && xs == ys
  {
    assert ([x] + xs)[1..] == xs && ([y] + ys)[1..] == ys;
  }

  lemma {:induction false} EntriesAsDict(entries: seq<Field>, fallback: bool, str: Printer)
    requires UniqueKeys(entries) && forall i | 0 <= i < |entries| :: WellFormed(entries[i].value)
    requires EncodeEntries(entries, fallback, str).Ok?
    ensures Comes(Decode(WMap(EncodeEntries(entries, fallback, str).value)), PDict(entries), str)
    decreases entries, 1
  {
    var w, n := EncodeEntries(entries, fallback, str).value, NormalEntries(entries, str);
    EntriesExactly(entries, fallback, str);
    NormalEntriesKeepTags(entries, str);
    DictWireExactly(w, n);
  }

  lemma {:induction false} DictWireExactly(w: seq<WireField>, n: seq<Field>)
    requires UniqueKeys(n) && (DecodeEntries(w).Ok? ==> FieldsResemble(DecodeEntries(w).value, n))
    ensures var r := Decode(WMap(w));
      && (r == Ok(PDict(n)) <==> DecodeEntries(w) == Ok(n) && !Hijacked(n))
      && (r.Ok? ==> Resembles(r.value, PDict(n)))
  {
    if DecodeEntries(w).Ok? {
      MapDecodes(w, DecodeEntries(w).value);
      DictExactly(DecodeEntries(w).value, n);
    }
  }

  lemma {:induction false} EntriesExactly(entries: seq<Field>, fallback: bool, str: Printer)
    requires forall i | 0 <= i < |entries| :: WellFormed(entries[i].value)
    requires EncodeEntries(entries, fallback, str).Ok?
    ensures var r := DecodeEntries(EncodeEntries(entries, fallback, str).value);
      && (r == Ok(NormalEntries(entries, str)) <==> forall i | 0 <= i < |entries| :: Untagged(entries[i].value, str))
      && (r.Ok? ==> FieldsResemble(r.value, NormalEntries(entries, str)))
    decreases entries, 0
  {
    if entries != [] {
      var key, v, tail := entries[0].key, entries[0].value, entries[1..];
      var w, rest := Encode(v, fallback, str).value, EncodeEntries(tail, fallback, str).value;
      RoundTripExactly(v, fallback, str);
      EntriesExactly(tail, fallback, str);
      OneMoreEntry(key, w, rest, Normal(v, str), NormalEntries(tail, str));
    }
  }

  lemma {:induction false} OneMoreEntry(key: string, w: Wire, rest: seq<WireField>, y: PyValue, ys: seq<Field>)
    requires Decode(w).Ok? ==> Resembles(Decode(w).value, y)
    requires DecodeEntries(rest).Ok? ==> FieldsResemble(DecodeEntries(rest).value, ys)
    ensures var r := DecodeEntries([WireField(key, w)] + rest);
      && (r == Ok([Field(key, y)] + ys) <==> Decode(w) == Ok(y) && DecodeEntries(rest) == Ok(ys))
      && (r.Ok? ==> FieldsResemble(r.value, [Field(key, y)] + ys))
  {
    DecodeEntriesCons(key, w, rest);
    if Decode(w).Ok? && DecodeEntries(rest).Ok? {
      ConsEqual(Field(key, Decode(w).value), DecodeEntries(rest).value, Field(key, y), ys);
    }
  }

  predicate AttributesUntagged(attrs: seq<Field>, str: Printer) {
    forall i | 0 <= i < |attrs| :: Encode(attrs[i].value, false, str).Ok? ==> Untagged(attrs[i].value, str)
  }

  lemma {:induction false} AttributesAsObject(
      cls: string, modname: string, attrs: seq<Field>, fallback: bool, str: Printer)
    requires UniqueKeys(attrs) && forall i | 0 <= i < |attrs| :: WellFormed(attrs[i].value)
    requires EncodeAttributes(attrs, fallback, str).Ok?
    ensures var r := Decode(ObjectWire(cls, modname, EncodeAttributes(attrs, fallback, str).value));
      var n := PDict(Merge(ObjectBase(cls, modname), NormalAttributes(attrs, str)));
      && (r == Ok(n) <==> !Hijacked(attrs) && AttributesUntagged(attrs, str))
      && (r.Ok? ==> Resembles(r.value, n))
    decreases attrs, 1
  {
    var w, n := EncodeAttributes(attrs, fallback, str).value, NormalAttributes(attrs, str);
    AttributesExactly(attrs, fallback, str);
    NormalAttributesKeepTags(attrs, str);
    ObjectWireExactly(cls, modname, w, n);
  }

  lemma {:induction false} ObjectWireExactly(cls: string, modname: string, w: seq<WireField>, n: seq<Field>)
    requires UniqueKeys(n) && (DecodeEntries(w).Ok? ==> FieldsResemble(DecodeEntries(w).value, n))
    ensures var r := Decode(ObjectWire(cls, modname, w));
      && (r == Ok(PDict(Merge(ObjectBase(cls, modname), n))) <==> DecodeEntries(w) == Ok(n) && !Hijacked(n))
      && (r.Ok? ==> Resembles(r.value, PDict(Merge(ObjectBase(cls, modname), n))))
  {
    ObjectDecodes(cls, modname, w);
    if DecodeEntries(w).Ok? {
      MapDecodes(w, DecodeEntries(w).value);
      ObjectExactly(cls, modname, DecodeEntries(w).value, n);
    }
  }

  /** An attribute is written out if it encodes on its own, and else replaced by its text. */
  lemma {:induction false} AttributeExactly(v: PyValue, fallback: bool, str: Printer)
    requires WellFormed(v) && EncodeAttribute(v, fallback, str).Ok?
    ensures var kept := if Encode(v, false, str).Ok? then Normal(v, str) else FallbackDict(v, str);
      var r := Decode(EncodeAttribute(v, fallback, str).value);
      && (r == Ok(kept) <==> (Encode(v, false, str).Ok? ==> Untagged(v, str)))
      && (r.Ok? ==> Resembles(r.value, kept))
    decreases v, 2
  {
    if Encode(v, false, str).Ok? {
      FallbackKeepsEncodings(v, str);
      RoundTripExactly(v, fallback, str);
    } else {
      FallbackDecodes(v, str);
    }
  }

  lemma {:induction false} AttributesExactly(attrs: seq<Field>, fallback: bool, str: Printer)
    requires forall i | 0 <= i < |attrs| :: WellFormed(attrs[i].value)
    requires EncodeAttributes(attrs, fallback, str).Ok?
    ensures var r := DecodeEntries(EncodeAttributes(attrs, fallback, str).value);
      && (r == Ok(NormalAttributes(attrs, str)) <==> AttributesUntagged(attrs, str))
      && (r.Ok? ==> FieldsResemble(r.value, NormalAttributes(attrs, str)))
    decreases attrs, 0
  {
    if attrs != [] {
      var key, v, tail := attrs[0].key, attrs[0].value, attrs[1..];
      var w, rest := EncodeAttribute(v, fallback, str).value, EncodeAttributes(tail, fallback, str).value;
      AttributeExactly(v, fallback, str);
      AttributesExactly(tail, fallback, str);
      var kept := if Encode(v, false, str).Ok? then Normal(v, str) else FallbackDict(v, str);
      OneMoreEntry(key, w, rest, kept, NormalAttributes(tail, str));
    }
  }
}
