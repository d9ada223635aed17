/**
 * What `toJSON` and `fromJSON` promise: the shape of the document written
 * for each kind of object, the rule applied to each kind of field, and the
 * round trip of records through both.
 */
module MapperLaws {
  import opened Wrappers
  import opened JsonValue
  import opened Mapper

  /** Distinct field names, none of them the `"$class"` tag. */
  predicate PlainNames(fs: seq<FieldDesc>)
  {
    (forall i, j :: 0 <= i < j < |fs| ==> fs[i].name != fs[j].name) &&
    forall i :: 0 <= i < |fs| ==> fs[i].name != "$class"
  }

  // ---------------------------------------------------------------------
  // toJSON

  /** null, strings, numbers and maps: the four direct cases of `toJSON`. */
  lemma EncodeDirect(reg: Registry, v: Value)
    ensures v.Nil? ==> Encode(reg, v) == Ok(Null)
    ensures v.Text? && reg.describe("String").name == "String" ==> Encode(reg, v) == Ok(String(v.s))
    ensures v.Num? && IsNumberName(reg.describe(KindName(v.kind)).name) ==> Encode(reg, v) == Ok(Number(v.n))
    ensures v.Pairs? && reg.describe(v.cls).name == "Map" ==> Encode(reg, v) == Ok(Object([]))
  {
  }

  /** A list encodes item by item: same length, item `i` is `toJSON(list[i])`. */
  lemma EncodeListShape(reg: Registry, v: Value)
    requires v.Items? && reg.describe(v.cls).name == "List"
    ensures Encode(reg, v).Ok? <==> forall i :: 0 <= i < |v.elems| ==> Encode(reg, v.elems[i]).Ok?
    ensures Encode(reg, v).Ok? ==>
      var d := Encode(reg, v).value;
      d.List? && |d.items| == |v.elems| &&
      forall i :: 0 <= i < |v.elems| ==> Encode(reg, v.elems[i]) == Ok(d.items[i])
  {
    var rs := ItemResults(reg, v);
    assert forall i :: 0 <= i < |rs| ==> rs[i] == Encode(reg, v.elems[i]);
    CollectOkIff(rs);
    if Collect(rs).Ok? {
      CollectOkValues(rs);
    }
  }

  lemma TaggedShape(cls: string)
    ensures Tagged(cls) == Object([("$class", String(cls))])
  {
    assert KeysOf(Fresh.ObjectView()) == [];
  }

  /** Writing fresh keys one after the other appends them in that order. */
  lemma {:induction false} FillAppends(base: seq<Entry>, kvs: seq<Entry>)
    requires UniqueKeys(base + kvs)
    ensures Fill(Object(base), kvs) == Object(base + kvs)
  {
    if kvs != [] {
      var n := |kvs| - 1;
      var es := base + kvs[..n];
      UniqueKeysLast(base, kvs, n, es);
      FillAppends(base, kvs[..n]);
      AppendFresh(es, kvs[n]);
    }
  }

  /** Dropping the last of `kvs` keeps the keys unique, and that last key is new to the rest. */
  lemma UniqueKeysLast(base: seq<Entry>, kvs: seq<Entry>, n: nat, es: seq<Entry>)
    requires UniqueKeys(base + kvs) && n + 1 == |kvs| && es == base + kvs[..n]
    ensures UniqueKeys(es) && base + kvs == es + [kvs[n]]
    ensures forall i :: 0 <= i < |es| ==> es[i].0 != kvs[n].0
  {
    assert base + kvs == es + [kvs[n]];
    assert kvs[n] == (base + kvs)[|es|];
    forall i | 0 <= i < |es| ensures es[i].0 != kvs[n].0 {
      assert es[i] == (base + kvs)[i];
    }
    forall i, j | 0 <= i < j < |es| ensures es[i].0 != es[j].0 {
      assert es[i] == (base + kvs)[i] && es[j] == (base + kvs)[j];
    }
  }

  /** Setting a key no entry has appends it. */
  lemma AppendFresh(es: seq<Entry>, kv: Entry)
    requires forall i :: 0 <= i < |es| ==> es[i].0 != kv.0
    ensures Object(es).SetObjectItem(kv.0, kv.1) == Object(es + [kv])
  {
    assert kv.0 !in KeysOf(es);
  }

  /** The object of a record: the tag, then the fields in order. */
  lemma FilledRecord(cls: string, fs: seq<FieldDesc>, vals: seq<Json>)
    requires PlainNames(fs) && |vals| == |fs|
    ensures Fill(Tagged(cls), Zip(fs, vals)) == Object([("$class", String(cls))] + Zip(fs, vals))
    ensures UniqueKeys([("$class", String(cls))] + Zip(fs, vals))
  {
    TaggedShape(cls);
    var kvs := Zip(fs, vals);
    var base: seq<Entry> := [("$class", String(cls))];
    assert UniqueKeys(base + kvs) by {
      forall i, j | 0 <= i < j < |base + kvs| ensures (base + kvs)[i].0 != (base + kvs)[j].0 {
        assert (base + kvs)[j] == kvs[j - 1];
        if i > 0 {
          assert (base + kvs)[i] == kvs[i - 1];
        }
      }
    }
    FillAppends(base, kvs);
  }

  /**
   * A record encodes as an object whose first key is `"$class"`, holding the
   * class id, followed by exactly one key per declared field, in declaration
   * order, each holding `toJSON` of that field.
   */
  lemma EncodeRecordShape(reg: Registry, v: Value, fs: seq<FieldDesc>)
    requires v.Record? && IsRecordName(reg.describe(v.cls).name)
    requires reg.fields(v.cls) == Some(fs) && PlainNames(fs)
    ensures Encode(reg, v).Ok? <==> forall i :: 0 <= i < |fs| ==> Encode(reg, GetField(v, fs[i].name)).Ok?
    ensures Encode(reg, v).Ok? ==>
      var d := Encode(reg, v).value;
      d.Object? && |d.entries| == |fs| + 1 && d.entries[0] == ("$class", String(v.cls)) && UniqueKeys(d.entries) &&
      forall i :: 0 <= i < |fs| ==>
        d.entries[i + 1].0 == fs[i].name && Encode(reg, GetField(v, fs[i].name)) == Ok(d.entries[i + 1].1)
  {
    EncodeRecord(reg, v, fs);
    var rs := FieldResults(reg, v, fs);
    assert forall i :: 0 <= i < |fs| ==> rs[i] == Encode(reg, GetField(v, fs[i].name));
    CollectOkIff(rs);
    if fs == [] {
      TaggedShape(v.cls);
    } else if Collect(rs).Ok? {
      EncodeRecordEntries(reg, v, fs);
    }
  }

  /**
   * An object of a record class that is not a record: with no declared
   * field it is written as the bare `"$class"` tag, otherwise the cast to
   * `QObject` fails.
   */
  lemma EncodeNonRecord(reg: Registry, v: Value, fs: seq<FieldDesc>)
    requires !v.Nil? && !v.Record? && IsRecordName(reg.describe(ClassIdOf(v)).name)
    requires reg.fields(ClassIdOf(v)) == Some(fs)
    ensures fs == [] ==> Encode(reg, v) == Ok(Object([("$class", String(ClassIdOf(v)))]))
    ensures fs != [] ==> Encode(reg, v) == Err(CastFailure)
  {
    EncodeRecord(reg, v, fs);
    TaggedShape(ClassIdOf(v));
  }

  /**
   * When field `k` is the first declared field that fails to encode, the
   * record fails with that field's error: the fields are written in
   * declaration order and the first exception escapes.
   */
  lemma EncodeRecordFirstError(reg: Registry, v: Value, fs: seq<FieldDesc>, k: nat)
    requires v.Record? && IsRecordName(reg.describe(v.cls).name) && reg.fields(v.cls) == Some(fs)
    requires k < |fs| && Encode(reg, GetField(v, fs[k].name)).Err?
    requires forall j :: 0 <= j < k ==> Encode(reg, GetField(v, fs[j].name)).Ok?
    ensures Encode(reg, v) == Err(Encode(reg, GetField(v, fs[k].name)).error)
  {
    var rs := FieldResults(reg, v, fs);
    FieldResultsAre(reg, v, fs);
    CollectFirstError(rs, k);
    EncodeRecord(reg, v, fs);
  }

  /** Result `j` of the field loop is `toJSON` of field `j`. */
  lemma FieldResultsAre(reg: Registry, v: Value, fs: seq<FieldDesc>)
    requires v.Record?
    ensures forall j :: 0 <= j < |fs| ==> FieldResults(reg, v, fs)[j] == Encode(reg, GetField(v, fs[j].name))
  {
  }

  /** The object written for a record whose fields all encode. */
  lemma EncodeRecordEntries(reg: Registry, v: Value, fs: seq<FieldDesc>)
    requires v.Record? && IsRecordName(reg.describe(v.cls).name)
    requires reg.fields(v.cls) == Some(fs) && PlainNames(fs) && fs != []
    requires Collect(FieldResults(reg, v, fs)).Ok?
    ensures Encode(reg, v).Ok?
    ensures var d := Encode(reg, v).value;
      d.Object? && |d.entries| == |fs| + 1 && d.entries[0] == ("$class", String(v.cls)) && UniqueKeys(d.entries) &&
      forall i :: 0 <= i < |fs| ==>
        d.entries[i + 1].0 == fs[i].name && Encode(reg, GetField(v, fs[i].name)) == Ok(d.entries[i + 1].1)
  {
    EncodeRecord(reg, v, fs);
    var rs := FieldResults(reg, v, fs);
    var vals := Collect(rs).value;
    CollectOkValues(rs);
    FilledRecord(v.cls, fs, vals);
    var d := Object([("$class", String(v.cls))] + Zip(fs, vals));
    assert Encode(reg, v) == Ok(d);
    forall i | 0 <= i < |fs|
      ensures d.entries[i + 1].0 == fs[i].name && Encode(reg, GetField(v, fs[i].name)) == Ok(d.entries[i + 1].1)
    {
      assert rs[i] == Encode(reg, GetField(v, fs[i].name));
      assert d.entries[i + 1] == Zip(fs, vals)[i] == (fs[i].name, vals[i]);
    }
  }

  // ---------------------------------------------------------------------
  // fromJSON

  /** `fromJSON` of an absent or null document is null, whatever the class. */
  lemma DecodeAbsent(reg: Registry, cls: string)
    requires Ranked(reg)
    ensures DecodeDocument(reg, cls, None) == Ok(Nil)
    ensures DecodeDocument(reg, cls, Some(Null)) == Ok(Nil)
  {
  }

  lemma {:induction false} DecodeItemsFrom(reg: Registry, cls: string, doc: Json, elem: string, i: nat, c: string, acc: seq<Value>)
    requires Ranked(reg) && i <= doc.Size()
    ensures DecodeItems(reg, cls, doc, elem, i, Items(c, acc)).Ok? <==>
      forall j :: i <= j < doc.Size() ==> Decode(reg, elem, doc.GetListItem(j)).Ok?
    ensures DecodeItems(reg, cls, doc, elem, i, Items(c, acc)).Ok? ==>
      var r := DecodeItems(reg, cls, doc, elem, i, Items(c, acc)).value;
      r.Items? && r.cls == c && |r.elems| == |acc| + doc.Size() - i && r.elems[..|acc|] == acc &&
      forall j :: i <= j < doc.Size() ==> Decode(reg, elem, doc.GetListItem(j)) == Ok(r.elems[|acc| + j - i])
    decreases doc.Size() - i
  {
    if i < doc.Size() {
      var x := Decode(reg, elem, doc.GetListItem(i));
      if x.Ok? {
        DecodeItemsFrom(reg, cls, doc, elem, i + 1, c, acc + [x.value]);
        var r := DecodeItems(reg, cls, doc, elem, i, Items(c, acc));
        if r.Ok? {
          assert r.value.elems[..|acc|] == (r.value.elems[..|acc| + 1])[..|acc|];
        }
      }
    }
  }

  /**
   * For a `List` class whose constructor gives an empty list, `fromJSON`
   * gives exactly `size()` elements, element `i` decoded from item `i` with
   * the class's type parameter.
   */
  lemma DecodeListShape(reg: Registry, cls: string, doc: Json, c: string)
    requires Ranked(reg) && !doc.IsNull()
    requires reg.describe(cls).name == "List" && reg.describe(cls).parameters != []
    requires reg.construct(cls, []) == Ok(Items(c, []))
    ensures var p := reg.describe(cls).parameters[0];
      Decode(reg, cls, doc).Ok? <==> forall j :: 0 <= j < doc.Size() ==> Decode(reg, p, doc.GetListItem(j)).Ok?
    ensures var p := reg.describe(cls).parameters[0];
      Decode(reg, cls, doc).Ok? ==>
        var r := Decode(reg, cls, doc).value;
        r.Items? && r.cls == c && |r.elems| == doc.Size() &&
        forall j :: 0 <= j < doc.Size() ==> Decode(reg, p, doc.GetListItem(j)) == Ok(r.elems[j])
  {
    var p := reg.describe(cls).parameters[0];
    var r := DecodeItems(reg, cls, doc, p, 0, Items(c, []));
    DecodeListIsItems(reg, cls, doc, c);
    DecodeItemsFrom(reg, cls, doc, p, 0, c, []);
    if r.Ok? {
      forall j | 0 <= j < doc.Size() ensures Decode(reg, p, doc.GetListItem(j)) == Ok(r.value.elems[j]) {
        assert Decode(reg, p, doc.GetListItem(j)) == Ok(r.value.elems[0 + j - 0]);
      }
    }
  }

  /** `fromJSON` of a list class fills the object `_construct` gives, from item 0 on. */
  lemma DecodeListIsItems(reg: Registry, cls: string, doc: Json, c: string)
    requires Ranked(reg) && !doc.IsNull()
    requires reg.describe(cls).name == "List" && reg.describe(cls).parameters != []
    requires reg.construct(cls, []) == Ok(Items(c, []))
    ensures Decode(reg, cls, doc) == DecodeItems(reg, cls, doc, reg.describe(cls).parameters[0], 0, Items(c, []))
  {
  }

  /**
   * What `fromJSON` stores into field `f`, read from `item`, when the field
   * holds `current`: strings and floats directly, ints rounded half up and
   * cut to 32 bits, ints and bools left alone on a null item, anything else
   * decoded with the field's class.
   */
  function DecodeField(reg: Registry, f: FieldDesc, item: Json, current: Value): Result<Value, MapError>
    requires Ranked(reg)
  {
    var kind := reg.describe(f.typeId).name;
    if kind == "String" then
      var s :- Lift(item.GetString());
      Ok(Text(s))
    else if kind == "float" then
      var x :- Lift(item.GetNumber());
      Ok(Num(Float, x))
    else if kind == "int" then
      if item.IsNull() then Ok(current)
      else
        var x :- Lift(item.GetNumber());
        Ok(Num(Int, ToInt32(JavaRound(x)) as real))
    else if kind == "bool" then
      if item.IsNull() then Ok(current)
      else
        var b :- Lift(item.GetBool());
        Ok(Flag(b))
    else Decode(reg, f.typeId, item)
  }

  lemma DecodeFieldsStep(reg: Registry, cls: string, doc: Json, fs: seq<FieldDesc>, i: nat, obj: Value)
    requires Ranked(reg) && reg.fields(cls) == Some(fs) && i < |fs| && !doc.Null?
    requires obj.Record? && fs[i].name in obj.fields
    ensures var r := DecodeField(reg, fs[i], doc.GetObjectItem(fs[i].name), obj.fields[fs[i].name]);
      DecodeFields(reg, cls, doc, fs, i, obj) ==
        if r.Err? then Err(r.error)
        else DecodeFields(reg, cls, doc, fs, i + 1, Record(obj.cls, obj.fields[fs[i].name := r.value]))
  {
    assert obj.fields[fs[i].name := obj.fields[fs[i].name]] == obj.fields;
  }

  lemma {:induction false} DecodeFieldsOk(reg: Registry, cls: string, doc: Json, fs: seq<FieldDesc>, i: nat, obj: Value)
    requires Ranked(reg) && reg.fields(cls) == Some(fs) && i <= |fs| && !doc.Null?
    requires PlainNames(fs) && obj.Record? && forall j :: 0 <= j < |fs| ==> fs[j].name in obj.fields
    ensures DecodeFields(reg, cls, doc, fs, i, obj).Ok? <==>
      forall j :: i <= j < |fs| ==>
        DecodeField(reg, fs[j], doc.GetObjectItem(fs[j].name), obj.fields[fs[j].name]).Ok?
    decreases |fs| - i
  {
    if i < |fs| {
      var r := DecodeField(reg, fs[i], doc.GetObjectItem(fs[i].name), obj.fields[fs[i].name]);
      if r.Ok? {
        var obj' := Record(obj.cls, obj.fields[fs[i].name := r.value]);
        OtherFieldsKept(fs, i, obj, r.value);
        DecodeFieldsOk(reg, cls, doc, fs, i + 1, obj');
        DecodeFieldsOkStep(reg, cls, doc, fs, i, obj, r.value, obj');
      } else {
        DecodeFieldsErrStep(reg, cls, doc, fs, i, obj);
      }
    }
  }

  /** The step of `DecodeFieldsOk` when field `i` fails: the loop fails there. */
  lemma DecodeFieldsErrStep(reg: Registry, cls: string, doc: Json, fs: seq<FieldDesc>, i: nat, obj: Value)
    requires Ranked(reg) && reg.fields(cls) == Some(fs) && i < |fs| && !doc.Null?
    requires obj.Record? && fs[i].name in obj.fields
    requires DecodeField(reg, fs[i], doc.GetObjectItem(fs[i].name), obj.fields[fs[i].name]).Err?
    ensures DecodeFields(reg, cls, doc, fs, i, obj).Err?
  {
    DecodeFieldsStep(reg, cls, doc, fs, i, obj);
  }

  /** The step of `DecodeFieldsOk` when field `i` decodes to `x`. */
  lemma DecodeFieldsOkStep(reg: Registry, cls: string, doc: Json, fs: seq<FieldDesc>, i: nat, obj: Value, x: Value, obj': Value)
    requires Ranked(reg) && reg.fields(cls) == Some(fs) && i < |fs| && !doc.Null?
    requires PlainNames(fs) && obj.Record? && forall j :: 0 <= j < |fs| ==> fs[j].name in obj.fields
    requires DecodeField(reg, fs[i], doc.GetObjectItem(fs[i].name), obj.fields[fs[i].name]) == Ok(x)
    requires obj' == Record(obj.cls, obj.fields[fs[i].name := x])
    requires DecodeFields(reg, cls, doc, fs, i + 1, obj').Ok? <==>
      forall j :: i + 1 <= j < |fs| ==> DecodeField(reg, fs[j], doc.GetObjectItem(fs[j].name), obj'.fields[fs[j].name]).Ok?
    ensures DecodeFields(reg, cls, doc, fs, i, obj).Ok? <==>
      forall j :: i <= j < |fs| ==> DecodeField(reg, fs[j], doc.GetObjectItem(fs[j].name), obj.fields[fs[j].name]).Ok?
  {
    DecodeFieldsStep(reg, cls, doc, fs, i, obj);
    FieldsOkStep(reg, doc, fs, i, obj, x);
    ResultStep(DecodeFields(reg, cls, doc, fs, i, obj), Ok(x), DecodeFields(reg, cls, doc, fs, i + 1, obj'));
  }

  /** A step that fails with `r`'s error, or else goes on to `y`, succeeds exactly when both succeed. */
  lemma ResultStep(x: Result<Value, MapError>, r: Result<Value, MapError>, y: Result<Value, MapError>)
    requires x == if r.Err? then Err(r.error) else y
    ensures x.Ok? <==> r.Ok? && y.Ok?
  {
  }

  /** Once field `i` decodes, the later fields decode against the updated record as against the old one. */
  lemma FieldsOkStep(reg: Registry, doc: Json, fs: seq<FieldDesc>, i: nat, obj: Value, x: Value)
    requires Ranked(reg) && PlainNames(fs) && i < |fs| && obj.Record? && forall j :: 0 <= j < |fs| ==> fs[j].name in obj.fields
    requires DecodeField(reg, fs[i], doc.GetObjectItem(fs[i].name), obj.fields[fs[i].name]) == Ok(x)
    ensures var obj' := Record(obj.cls, obj.fields[fs[i].name := x]);
      (forall j :: i <= j < |fs| ==> DecodeField(reg, fs[j], doc.GetObjectItem(fs[j].name), obj.fields[fs[j].name]).Ok?) <==>
      (forall j :: i + 1 <= j < |fs| ==> DecodeField(reg, fs[j], doc.GetObjectItem(fs[j].name), obj'.fields[fs[j].name]).Ok?)
  {
    OtherFieldsKept(fs, i, obj, x);
  }

  /** Setting field `i` keeps every field and the values of the fields after it. */
  lemma OtherFieldsKept(fs: seq<FieldDesc>, i: nat, obj: Value, x: Value)
    requires PlainNames(fs) && i < |fs| && obj.Record? && forall j :: 0 <= j < |fs| ==> fs[j].name in obj.fields
    ensures var obj' := Record(obj.cls, obj.fields[fs[i].name := x]);
      obj'.Record? && (forall j :: 0 <= j < |fs| ==> fs[j].name in obj'.fields) &&
      forall j :: i < j < |fs| ==> obj'.fields[fs[j].name] == obj.fields[fs[j].name]
  {
    forall j | i < j < |fs| ensures fs[i].name != fs[j].name {
    }
  }

  lemma {:induction false} DecodeFieldsKeep(reg: Registry, cls: string, doc: Json, fs: seq<FieldDesc>, i: nat, obj: Value)
    requires Ranked(reg) && reg.fields(cls) == Some(fs) && i <= |fs| && !doc.Null?
    requires obj.Record? && forall j :: 0 <= j < |fs| ==> fs[j].name in obj.fields
    requires DecodeFields(reg, cls, doc, fs, i, obj).Ok?
    ensures var r := DecodeFields(reg, cls, doc, fs, i, obj).value;
      r.Record? && r.cls == obj.cls && r.fields.Keys == obj.fields.Keys &&
      forall n :: n in obj.fields && (forall j :: i <= j < |fs| ==> fs[j].name != n) ==> r.fields[n] == obj.fields[n]
    decreases |fs| - i
  {
    if i < |fs| {
      DecodeFieldsStep(reg, cls, doc, fs, i, obj);
      var x := DecodeField(reg, fs[i], doc.GetObjectItem(fs[i].name), obj.fields[fs[i].name]);
      DecodeFieldsKeep(reg, cls, doc, fs, i + 1, Record(obj.cls, obj.fields[fs[i].name := x.value]));
    }
  }

  lemma {:induction false} DecodeFieldsSet(reg: Registry, cls: string, doc: Json, fs: seq<FieldDesc>, i: nat, obj: Value)
    requires Ranked(reg) && reg.fields(cls) == Some(fs) && i <= |fs| && !doc.Null?
    requires PlainNames(fs) && obj.Record? && forall j :: 0 <= j < |fs| ==> fs[j].name in obj.fields
    requires DecodeFields(reg, cls, doc, fs, i, obj).Ok?
    ensures var r := DecodeFields(reg, cls, doc, fs, i, obj).value;
      r.Record? && forall j :: i <= j < |fs| ==>
        fs[j].name in r.fields && Ok(r.fields[fs[j].name]) == DecodeField(reg, fs[j], doc.GetObjectItem(fs[j].name), obj.fields[fs[j].name])
    decreases |fs| - i
  {
    if i == |fs| {
      DecodeFieldsKeep(reg, cls, doc, fs, i, obj);
    } else {
      DecodeFieldsStep(reg, cls, doc, fs, i, obj);
      var x := DecodeField(reg, fs[i], doc.GetObjectItem(fs[i].name), obj.fields[fs[i].name]);
      var obj' := Record(obj.cls, obj.fields[fs[i].name := x.value]);
      OtherFieldsKept(fs, i, obj, x.value);
      DecodeFieldsSet(reg, cls, doc, fs, i + 1, obj');
      DecodeFieldsKeep(reg, cls, doc, fs, i + 1, obj');
    }
  }

  /**
   * The record rules of `fromJSON`: every declared field is set by its own
   * rule from the item under its name, and fails only if that rule fails;
   * the fields it does not list keep their constructed values.
   */
  lemma DecodeRecord(reg: Registry, cls: string, doc: Json, fs: seq<FieldDesc>, c: string, init: map<string, Value>)
    requires Ranked(reg) && !doc.IsNull() && reg.describe(cls).name != "List"
    requires reg.fields(cls) == Some(fs) && PlainNames(fs)
    requires reg.construct(cls, []) == Ok(Record(c, init))
    requires forall j :: 0 <= j < |fs| ==> fs[j].name in init
    ensures Decode(reg, cls, doc).Ok? <==>
      forall j :: 0 <= j < |fs| ==> DecodeField(reg, fs[j], doc.GetObjectItem(fs[j].name), init[fs[j].name]).Ok?
    ensures Decode(reg, cls, doc).Ok? ==>
      var r := Decode(reg, cls, doc).value;
      r.Record? && r.cls == c && r.fields.Keys == init.Keys &&
      (forall j :: 0 <= j < |fs| ==>
        Ok(r.fields[fs[j].name]) == DecodeField(reg, fs[j], doc.GetObjectItem(fs[j].name), init[fs[j].name])) &&
      forall n :: n in init && (forall j :: 0 <= j < |fs| ==> fs[j].name != n) ==> r.fields[n] == init[n]
  {
    DecodeFieldsOk(reg, cls, doc, fs, 0, Record(c, init));
    if Decode(reg, cls, doc).Ok? {
      DecodeFieldsKeep(reg, cls, doc, fs, 0, Record(c, init));
      DecodeFieldsSet(reg, cls, doc, fs, 0, Record(c, init));
    }
  }

  /** One field step of `fromJSON` reads only that field's item and the steps after it. */
  lemma DecodeFieldsStepAgree(reg: Registry, cls: string, d1: Json, d2: Json, fs: seq<FieldDesc>, i: nat, next: nat, obj: Value)
    requires Ranked(reg) && reg.fields(cls) == Some(fs) && i < |fs| && next == i + 1 && !d1.Null? && !d2.Null?
    requires d1.GetObjectItem(fs[i].name) == d2.GetObjectItem(fs[i].name)
    requires forall o :: DecodeFields(reg, cls, d1, fs, next, o) == DecodeFields(reg, cls, d2, fs, next, o)
    ensures DecodeFields(reg, cls, d1, fs, i, obj) == DecodeFields(reg, cls, d2, fs, i, obj)
  {
  }

  lemma {:induction false} DecodeFieldsSameItems(reg: Registry, cls: string, d1: Json, d2: Json, fs: seq<FieldDesc>, i: nat, obj: Value)
    requires Ranked(reg) && reg.fields(cls) == Some(fs) && i <= |fs| && !d1.Null? && !d2.Null?
    requires forall j :: 0 <= j < |fs| ==> d1.GetObjectItem(fs[j].name) == d2.GetObjectItem(fs[j].name)
    ensures DecodeFields(reg, cls, d1, fs, i, obj) == DecodeFields(reg, cls, d2, fs, i, obj)
    decreases |fs| - i
  {
    if i < |fs| {
      var next := i + 1;
      forall o ensures DecodeFields(reg, cls, d1, fs, next, o) == DecodeFields(reg, cls, d2, fs, next, o) {
        DecodeFieldsSameItems(reg, cls, d1, d2, fs, next, o);
      }
      DecodeFieldsStepAgree(reg, cls, d1, d2, fs, i, next, obj);
    }
  }

  /**
   * `fromJSON` of a record reads nothing but the keys of its declared
   * fields: two documents that agree on those decode alike.  In particular
   * the `"$class"` tag is never read.
   */
  lemma DecodeReadsOnlyFields(reg: Registry, cls: string, d1: Json, d2: Json, fs: seq<FieldDesc>)
    requires Ranked(reg) && !d1.IsNull() && !d2.IsNull() && reg.describe(cls).name != "List"
    requires reg.fields(cls) == Some(fs)
    requires forall j :: 0 <= j < |fs| ==> d1.GetObjectItem(fs[j].name) == d2.GetObjectItem(fs[j].name)
    ensures Decode(reg, cls, d1) == Decode(reg, cls, d2)
  {
    if reg.construct(cls, []).Ok? {
      DecodeFieldsSameItems(reg, cls, d1, d2, fs, 0, reg.construct(cls, []).value);
    }
  }

  lemma DecodeIgnoresTag(reg: Registry, cls: string, doc: Json, fs: seq<FieldDesc>, tag: Json)
    requires Ranked(reg) && !doc.IsNull() && reg.describe(cls).name != "List"
    requires reg.fields(cls) == Some(fs) && PlainNames(fs)
    ensures Decode(reg, cls, doc.SetObjectItem("$class", tag)) == Decode(reg, cls, doc)
  {
    var d2 := doc.SetObjectItem("$class", tag);
    assert forall j :: 0 <= j < |fs| ==> d2.GetObjectItem(fs[j].name) == Lookup(doc.ObjectView(), fs[j].name);
    assert forall j :: 0 <= j < |fs| ==> doc.GetObjectItem(fs[j].name) == Lookup(doc.ObjectView(), fs[j].name);
    DecodeReadsOnlyFields(reg, cls, doc, d2, fs);
  }

  // ---------------------------------------------------------------------
  // Round trip

  /** The scalar class ids name themselves, as in every table that does not list them. */
  predicate StandardScalars(reg: Registry)
  {
    reg.describe("String").name == "String" && reg.describe("float").name == "float" &&
    reg.describe("int").name == "int"
  }

  function Names(fs: seq<FieldDesc>): set<string>
  {
    set f | f in fs :: f.name
  }

  /** Every declared field null, as a generated constructor leaves them. */
  function Blank(fs: seq<FieldDesc>): (m: map<string, Value>)
    ensures m.Keys == Names(fs)
  {
    map n | n in Names(fs) :: Nil
  }

  /** A record class with a field table of plain names whose constructor needs no argument. */
  predicate BlankRecordClass(reg: Registry, t: string)
  {
    var name := reg.describe(t).name;
    IsRecordName(name) && !IsScalarName(name) &&
    reg.fields(t).Some? && PlainNames(reg.fields(t).value) &&
    reg.construct(t, []) == Ok(Record(t, Blank(reg.fields(t).value)))
  }

  /** An integral value within the range of a Java `int`. */
  predicate IsInt32(n: real)
  {
    n == n.Floor as real && -0x8000_0000 <= n.Floor < 0x8000_0000
  }

  /** A list class with a type parameter whose constructor needs no argument and gives an empty list. */
  predicate BlankListClass(reg: Registry, t: string)
  {
    reg.describe(t).name == "List" && reg.describe(t).parameters != [] &&
    reg.construct(t, []) == Ok(Items(t, []))
  }

  /**
   * The values a field of class `t` can hold and get back from
   * `fromJSON(toJSON(...))`.  A bool field only fits null: `toJSON` has no
   * case for class "bool" and fails on it.
   */
  ghost predicate FieldFits(reg: Registry, t: string, v: Value)
    decreases v, 3
  {
    var kind := reg.describe(t).name;
    if kind == "String" then v.Text?
    else if kind == "float" then v.Num? && v.kind == Float
    else if kind == "int" then v.Nil? || (v.Num? && v.kind == Int && IsInt32(v.n))
    else if kind == "bool" then v.Nil?
    else ValueFits(reg, t, v)
  }

  /**
   * The values `fromJSON(t, toJSON(v))` gives back as they were: null, a
   * record that fits `t`, or a list that fits `t`.  `fromJSON` has no case
   * for a scalar class, so a scalar is never one of them.
   */
  ghost predicate ValueFits(reg: Registry, t: string, v: Value)
    decreases v, 2
  {
    v.Nil? || RecordFits(reg, t, v) || ListFits(reg, t, v)
  }

  /** A list of class `t` whose every element fits the class's type parameter. */
  ghost predicate ListFits(reg: Registry, t: string, v: Value)
    decreases v, 1
  {
    v.Items? && v.cls == t && BlankListClass(reg, t) &&
    forall i :: 0 <= i < |v.elems| ==> ValueFits(reg, reg.describe(t).parameters[0], v.elems[i])
  }

  /** A record of class `t` whose every declared field fits its class. */
  ghost predicate RecordFits(reg: Registry, t: string, v: Value)
    decreases v, 0
  {
    v.Record? && v.cls == t && BlankRecordClass(reg, t) &&
    var fs := reg.fields(t).value;
    v.fields.Keys == Names(fs) &&
    forall i :: 0 <= i < |fs| ==> fs[i] in fs && FieldFits(reg, fs[i].typeId, v.fields[fs[i].name])
  }

  lemma RoundIntegral(n: real)
    requires IsInt32(n)
    ensures ToInt32(JavaRound(n)) as real == n
  {
    assert (n + 0.5).Floor == n.Floor;
  }

  /** A field that fits its class is written without failure and read back into a blank field equal. */
  lemma {:induction false} FieldRoundTrip(reg: Registry, f: FieldDesc, v: Value)
    requires Ranked(reg) && StandardScalars(reg) && FieldFits(reg, f.typeId, v)
    ensures Encode(reg, v).Ok? && DecodeField(reg, f, Encode(reg, v).value, Nil) == Ok(v)
    decreases v, 3
  {
    var kind := reg.describe(f.typeId).name;
    if !IsScalarName(kind) {
      ValueRoundTrip(reg, f.typeId, v);
    } else if v.Num? && kind == "int" {
      RoundIntegral(v.n);
    }
  }

  /** A value that fits class `t` is written without failure and read back with `t` equal. */
  lemma {:induction false} ValueRoundTrip(reg: Registry, t: string, v: Value)
    requires Ranked(reg) && StandardScalars(reg) && ValueFits(reg, t, v)
    ensures Encode(reg, v).Ok? && Decode(reg, t, Encode(reg, v).value) == Ok(v)
    decreases v, 2
  {
    if RecordFits(reg, t, v) {
      RecordRoundTrip(reg, t, v);
    } else if ListFits(reg, t, v) {
      ListRoundTrip(reg, t, v);
    }
  }

  /**
   * A list that fits its class is written as a JSON list, item by item, and
   * read back with its class into a list equal to it.
   */
  lemma {:induction false} ListRoundTrip(reg: Registry, t: string, v: Value)
    requires Ranked(reg) && StandardScalars(reg) && ListFits(reg, t, v)
    ensures Encode(reg, v).Ok? && Decode(reg, t, Encode(reg, v).value) == Ok(v)
    decreases v, 1
  {
    var p := reg.describe(t).parameters[0];
    forall i | 0 <= i < |v.elems|
      ensures Encode(reg, v.elems[i]).Ok? && Decode(reg, p, Encode(reg, v.elems[i]).value) == Ok(v.elems[i])
    {
      ValueRoundTrip(reg, p, v.elems[i]);
    }
    EncodeListShape(reg, v);
    var d := Encode(reg, v).value;
    forall j | 0 <= j < d.Size() ensures Decode(reg, p, d.GetListItem(j)).Ok? {
      assert d.GetListItem(j) == Encode(reg, v.elems[j]).value;
    }
    DecodeListShape(reg, t, d, t);
    var r := Decode(reg, t, d).value;
    forall j | 0 <= j < |v.elems| ensures r.elems[j] == v.elems[j] {
      assert d.GetListItem(j) == Encode(reg, v.elems[j]).value;
    }
    assert r.elems == v.elems;
  }

  /** A record whose fields all encode is written as an object holding each under its name. */
  lemma RecordEncodes(reg: Registry, v: Value, fs: seq<FieldDesc>)
    requires v.Record? && IsRecordName(reg.describe(v.cls).name)
    requires reg.fields(v.cls) == Some(fs) && PlainNames(fs)
    requires forall i :: 0 <= i < |fs| ==> Encode(reg, GetField(v, fs[i].name)).Ok?
    ensures Encode(reg, v).Ok? && Encode(reg, v).value.Object?
    ensures forall i :: 0 <= i < |fs| ==>
      Encode(reg, v).value.GetObjectItem(fs[i].name) == Encode(reg, GetField(v, fs[i].name)).value
  {
    EncodeRecordShape(reg, v, fs);
    var d := Encode(reg, v).value;
    forall i | 0 <= i < |fs| ensures d.GetObjectItem(fs[i].name) == Encode(reg, GetField(v, fs[i].name)).value {
      assert d.entries[i + 1].0 == fs[i].name && Encode(reg, GetField(v, fs[i].name)) == Ok(d.entries[i + 1].1);
      LookupUnique(d.entries, i + 1);
    }
  }

  /** Two records with the same keys, equal under every field name, are equal. */
  lemma SameRecord(r: Value, v: Value, fs: seq<FieldDesc>)
    requires r.Record? && v.Record? && r.cls == v.cls
    requires r.fields.Keys == Names(fs) == v.fields.Keys
    requires forall j :: 0 <= j < |fs| ==> r.fields[fs[j].name] == v.fields[fs[j].name]
    ensures r == v
  {
    forall n | n in r.fields ensures r.fields[n] == v.fields[n] {
      var j :| 0 <= j < |fs| && fs[j].name == n;
    }
    assert r.fields == v.fields;
  }

  /**
   * The round trip of `toJSON` and `fromJSON`: a record that fits its class
   * is written without failure and read back equal.
   */
  lemma {:induction false} RecordRoundTrip(reg: Registry, t: string, v: Value)
    requires Ranked(reg) && StandardScalars(reg) && RecordFits(reg, t, v)
    ensures Encode(reg, v).Ok? && Decode(reg, t, Encode(reg, v).value) == Ok(v)
    decreases v, 1
  {
    var fs := reg.fields(t).value;
    forall i | 0 <= i < |fs|
      ensures Encode(reg, GetField(v, fs[i].name)).Ok?
      ensures DecodeField(reg, fs[i], Encode(reg, GetField(v, fs[i].name)).value, Nil) == Ok(v.fields[fs[i].name])
    {
      assert fs[i].name in Names(fs);
      FieldRoundTrip(reg, fs[i], v.fields[fs[i].name]);
    }
    RecordEncodes(reg, v, fs);
    var d := Encode(reg, v).value;
    var init := Blank(fs);
    forall j | 0 <= j < |fs| ensures fs[j].name in init {
      assert fs[j] in fs;
    }
    DecodeRecord(reg, t, d, fs, t, init);
    SameRecord(Decode(reg, t, d).value, v, fs);
  }
}
