/**
 * The generic mapper of the generated `json_tests_lib.Functions` class:
 * `toJSON` walks a host object graph and builds a document value,
 * `fromJSON` rebuilds an object from a document and a target class.  Both
 * dispatch on the descriptor *name* that the class tables give to a class id.
 *
 * The tables are a `Registry`: `describe` is `_class` (name and type
 * parameters of a class id), `fields` is `_fields`, `construct` is
 * `_construct`.  The tables of this generated file are the registry
 * `JsonTests` in module `ClassTables`; the mapper itself works for any.
 */
module Mapper {
  import opened Wrappers
  import opened JsonValue

  /** The boxed number classes that `toJSON` writes as a JSON number. */
  datatype NumKind = Byte | Short | Int | Long | Float

  /** A host object as the mapper sees it through `Builtins._getClass` and `_getField`. */
  datatype Value =
    | Nil                                         // null
    | Text(s: string)                             // java.lang.String, class "String"
    | Num(kind: NumKind, n: real)                 // boxed byte/short/int/long/float
    | Flag(b: bool)                               // java.lang.Boolean, class "bool"
    | Items(cls: string, elems: seq<Value>)       // java.util.ArrayList of class cls
    | Pairs(cls: string, pairs: map<string, Value>) // java.util.HashMap of class cls
    | Record(cls: string, fields: map<string, Value>) // generated class; keys are its declared fields

  /** What the generated code throws. */
  datatype MapError =
    | NullReference      // NullPointerException: a class without a field table, or a null object under construction
    | IndexOutOfRange    // a constructor argument or a type parameter that is not there
    | CastFailure        // the object is not of the kind its class name announces
    | DocumentError(e: JsonError)  // a typed accessor on the wrong document variant

  /** `Class.name` and `Class.parameters` as `_class` sets them for an id. */
  datatype Descriptor = Descriptor(name: string, parameters: seq<string>)

  /** `new Field(new Class(typeId), name)`. */
  datatype FieldDesc = FieldDesc(typeId: string, name: string)

  datatype Registry = Registry(
    describe: string -> Descriptor,
    fields: string -> Option<seq<FieldDesc>>,
    construct: (string, seq<Value>) -> Result<Value, MapError>,
    /** nesting depth of record classes; used only to show that decoding terminates */
    rank: string -> nat)

  predicate IsNumberName(name: string)
  {
    name == "byte" || name == "short" || name == "int" || name == "long" || name == "float"
  }

  /** A class name that `toJSON` writes as a tagged record. */
  predicate IsRecordName(name: string)
  {
    name != "String" && !IsNumberName(name) && name != "List" && name != "Map"
  }

  /** The field types whose values `fromJSON` reads directly instead of recursing. */
  predicate IsScalarName(name: string)
  {
    name == "String" || name == "float" || name == "int" || name == "bool"
  }

  /**
   * Decoding a missing key recurses with `Undefined` into the field's class;
   * the recursion ends because every non-scalar field has a class of smaller rank.
   */
  ghost predicate Ranked(reg: Registry)
  {
    forall cls: string, i: nat ::
      reg.fields(cls).Some? && i < |reg.fields(cls).value| &&
      !IsScalarName(reg.describe(reg.fields(cls).value[i].typeId).name)
      ==> reg.rank(reg.fields(cls).value[i].typeId) < reg.rank(cls)
  }

  function KindName(k: NumKind): string
  {
    match k
    case Byte => "byte"
    case Short => "short"
    case Int => "int"
    case Long => "long"
    case Float => "float"
  }

  /** `Builtins._getClass(obj)` for a non-null object. */
  function ClassIdOf(v: Value): string
  {
    match v
    case Nil => ""
    case Text(_) => "String"
    case Num(k, _) => KindName(k)
    case Flag(_) => "bool"
    case Items(c, _) => c
    case Pairs(c, _) => c
    case Record(c, _) => c
  }

  /** `_getField(name)` of a generated class: the field, or null for a name it does not declare. */
  function GetField(v: Value, name: string): Value
  {
    if v.Record? && name in v.fields then v.fields[name] else Nil
  }

  /**
   * `((QObject) obj)._setField(name, x)`: a null object throws, a non-record
   * fails the cast, and a name the class does not declare changes nothing.
   */
  function SetField(obj: Value, name: string, x: Value): (r: Result<Value, MapError>)
    ensures r.Ok? <==> obj.Record?
    ensures r.Ok? ==> r.value.Record? && r.value.cls == obj.cls && r.value.fields.Keys == obj.fields.Keys
    ensures r.Ok? && name in obj.fields ==> r.value.fields[name] == x
    ensures r.Ok? ==> forall n :: n in obj.fields && n != name ==> r.value.fields[n] == obj.fields[n]
    ensures obj.Nil? ==> r == Err(NullReference)
  {
    if obj.Nil? then Err(NullReference)
    else if !obj.Record? then Err(CastFailure)
    else if name in obj.fields then Ok(Record(obj.cls, obj.fields[name := x]))
    else Ok(obj)
  }

  /** A document failure, as the mapper reports it. */
  function Lift<T>(r: Result<T, JsonError>): Result<T, MapError>
  {
    if r.Ok? then Ok(r.value) else Err(DocumentError(r.error))
  }

  /** The first failure among `rs`, or all their values in order. */
  function Collect<T>(rs: seq<Result<T, MapError>>): (r: Result<seq<T>, MapError>)
    ensures r.Ok? ==> |r.value| == |rs|
  {
    if rs == [] then Ok([])
    else if rs[0].Err? then Err(rs[0].error)
    else
      var rest :- Collect(rs[1..]);
      Ok([rs[0].value] + rest)
  }

  /** The first `|vals|` results succeeded, with the values `vals`. */
  ghost predicate OkPrefix<T>(rs: seq<Result<T, MapError>>, vals: seq<T>)
  {
    |vals| <= |rs| && forall j :: 0 <= j < |vals| ==> rs[j] == Ok(vals[j])
  }

  lemma OkPrefixExtend<T>(rs: seq<Result<T, MapError>>, vals: seq<T>, x: T)
    requires OkPrefix(rs, vals) && |vals| < |rs| && rs[|vals|] == Ok(x)
    ensures OkPrefix(rs, vals + [x])
  {
  }

  lemma {:induction false} CollectAllOk<T>(rs: seq<Result<T, MapError>>, vals: seq<T>)
    requires |rs| == |vals| && forall j :: 0 <= j < |rs| ==> rs[j] == Ok(vals[j])
    ensures Collect(rs) == Ok(vals)
  {
    if rs != [] {
      CollectAllOk(rs[1..], vals[1..]);
      assert vals == [vals[0]] + vals[1..];
    }
  }

  lemma {:induction false} CollectFirstError<T>(rs: seq<Result<T, MapError>>, k: nat)
    requires k < |rs| && rs[k].Err? && forall j :: 0 <= j < k ==> rs[j].Ok?
    ensures Collect(rs) == Err(rs[k].error)
  {
    if k > 0 {
      CollectFirstError(rs[1..], k - 1);
    }
  }

  /** Every value `Collect` returns is the value of the result at the same position. */
  lemma {:induction false} CollectOkValues<T>(rs: seq<Result<T, MapError>>)
    requires Collect(rs).Ok?
    ensures forall j :: 0 <= j < |rs| ==> rs[j] == Ok(Collect(rs).value[j])
  {
    if rs != [] {
      CollectOkValues(rs[1..]);
    }
  }

  lemma {:induction false} CollectOkIff<T>(rs: seq<Result<T, MapError>>)
    ensures Collect(rs).Ok? <==> forall j :: 0 <= j < |rs| ==> rs[j].Ok?
  {
    if rs != [] {
      CollectOkIff(rs[1..]);
      assert forall j :: 1 <= j < |rs| ==> rs[j] == rs[1..][j - 1];
    }
  }

  /** The object `toJSON` starts a record with: the `"$class"` tag holding the class id. */
  function Tagged(cls: string): Json
  {
    Fresh.SetObjectItem("$class", String(cls))
  }

  /** `setObjectItem` for every pair, in order. */
  function Fill(base: Json, kvs: seq<Entry>): Json
  {
    if kvs == [] then base
    else Fill(base, kvs[..|kvs| - 1]).SetObjectItem(kvs[|kvs| - 1].0, kvs[|kvs| - 1].1)
  }

  /** `toJSON(obj)`. */
  function Encode(reg: Registry, v: Value): Result<Json, MapError>
    decreases v, 1
  {
    if v.Nil? then Ok(Null)
    else
      var cls := ClassIdOf(v);
      var name := reg.describe(cls).name;
      if name == "String" then
        if v.Text? then Ok(String(v.s)) else Err(CastFailure)
      else if IsNumberName(name) then
        if v.Num? then Ok(Number(v.n)) else Err(CastFailure)
      else if name == "List" then
        if v.Items? then
          var items :- Collect(ItemResults(reg, v));
          Ok(List(items))
        else Err(CastFailure)
      else if name == "Map" then
        if v.Pairs? then Ok(Object([])) else Err(CastFailure)
      else
        match reg.fields(cls)
        case None => Err(NullReference)
        case Some(fs) =>
          if fs == [] then Ok(Tagged(cls))
          else if !v.Record? then Err(CastFailure)
          else
            var vals :- Collect(FieldResults(reg, v, fs));
            Ok(Fill(Tagged(cls), Zip(fs, vals)))
  }

  /** `toJSON` of every element of a list, in order. */
  function ItemResults(reg: Registry, v: Value): (rs: seq<Result<Json, MapError>>)
    requires v.Items?
    ensures |rs| == |v.elems|
    decreases v, 0
  {
    seq(|v.elems|, i requires 0 <= i < |v.elems| => Encode(reg, v.elems[i]))
  }

  /** `toJSON(obj._getField(f.name))` for every declared field `f`, in order. */
  function FieldResults(reg: Registry, v: Value, fs: seq<FieldDesc>): (rs: seq<Result<Json, MapError>>)
    requires v.Record?
    ensures |rs| == |fs|
    decreases v, 0, 1
  {
    seq(|fs|, i requires 0 <= i < |fs| => FieldResult(reg, v, fs[i].name))
  }

  /** `toJSON(obj._getField(name))`; a name the class does not declare reads as null. */
  function FieldResult(reg: Registry, v: Value, name: string): Result<Json, MapError>
    requires v.Record?
    decreases v, 0, 0
  {
    if name in v.fields then Encode(reg, v.fields[name]) else Ok(Null)
  }

  /** Each field name paired with its encoded value. */
  function Zip(fs: seq<FieldDesc>, vals: seq<Json>): (kvs: seq<Entry>)
    ensures |kvs| == if |fs| <= |vals| then |fs| else |vals|
    ensures forall i :: 0 <= i < |kvs| ==> kvs[i] == (fs[i].name, vals[i])
  {
    if fs == [] || vals == [] then [] else [(fs[0].name, vals[0])] + Zip(fs[1..], vals[1..])
  }

  // ---------------------------------------------------------------------
  // Decoding

  function MaxOf(s: seq<nat>): (m: nat)
    ensures forall i :: 0 <= i < |s| ==> s[i] <= m
  {
    if s == [] then 0 else var t := MaxOf(s[1..]); if s[0] > t then s[0] else t
  }

  /** Nesting depth of a document, with `Undefined` the shallowest of all. */
  function Height(d: Json): nat
  {
    match d
    case Undefined => 0
    case List(items) => 1 + MaxOf(seq(|items|, i requires 0 <= i < |items| => Height(items[i])))
    case Object(es) => 1 + MaxOf(seq(|es|, i requires 0 <= i < |es| => Height(es[i].1)))
    case _ => 1
  }

  lemma ListItemHeight(d: Json, i: int)
    requires 0 <= i < d.Size()
    ensures Height(d.GetListItem(i)) < Height(d)
  {
    if d.List? {
      var hs := seq(|d.items|, j requires 0 <= j < |d.items| => Height(d.items[j]));
      assert hs[i] == Height(d.items[i]);
    }
  }

  lemma {:induction false} LookupHeight(es: seq<Entry>, key: string)
    ensures Lookup(es, key) == Undefined || exists i :: 0 <= i < |es| && Lookup(es, key) == es[i].1
  {
    if es != [] && es[0].0 != key {
      LookupHeight(es[1..], key);
      if Lookup(es, key) != Undefined {
        var i :| 0 <= i < |es[1..]| && Lookup(es[1..], key) == es[1..][i].1;
        assert Lookup(es, key) == es[i + 1].1;
      }
    }
  }

  lemma ObjectItemHeight(d: Json, key: string)
    ensures !d.Undefined? ==> Height(d.GetObjectItem(key)) < Height(d)
  {
    if d.Object? {
      LookupHeight(d.entries, key);
      if d.GetObjectItem(key) != Undefined {
        var i :| 0 <= i < |d.entries| && Lookup(d.entries, key) == d.entries[i].1;
        var hs := seq(|d.entries|, j requires 0 <= j < |d.entries| => Height(d.entries[j].1));
        assert hs[i] == Height(d.entries[i].1);
      }
    }
  }

  /** `Math.round`: the nearest integer, halves rounded up, saturated to the range of `long`. */
  function JavaRound(x: real): int
  {
    var r := (x + 0.5).Floor;
    if r < -0x8000_0000_0000_0000 then -0x8000_0000_0000_0000
    else if r > 0x7FFF_FFFF_FFFF_FFFF then 0x7FFF_FFFF_FFFF_FFFF
    else r
  }

  /** The `(int)` cast of a `long`: keeps the low 32 bits, as a signed value. */
  function ToInt32(x: int): (r: int)
    ensures -0x8000_0000 <= r < 0x8000_0000
    ensures (r - x) % 0x1_0000_0000 == 0
  {
    var m := x % 0x1_0000_0000;
    if m >= 0x8000_0000 then m - 0x1_0000_0000 else m
  }

  /** `fromJSON(cls, json)` for a non-null document reference. */
  function Decode(reg: Registry, cls: string, doc: Json): Result<Value, MapError>
    requires Ranked(reg)
    decreases Height(doc), reg.rank(cls), 1
  {
    if doc.IsNull() then Ok(Nil)
    else
      var d := reg.describe(cls);
      if d.name == "List" then
        var list :- reg.construct(cls, []);
        if !(list.Nil? || list.Items?) then Err(CastFailure)
        else if doc.Size() > 0 && d.parameters == [] then Err(IndexOutOfRange)
        else DecodeItems(reg, cls, doc, if d.parameters == [] then "" else d.parameters[0], 0, list)
      else
        var result :- reg.construct(cls, []);
        match reg.fields(cls)
        case None => Err(NullReference)
        case Some(fs) => DecodeFields(reg, cls, doc, fs, 0, result)
  }

  /** The list loop of `fromJSON`, from item `i` on, appending to `list`. */
  function DecodeItems(reg: Registry, cls: string, doc: Json, elem: string, i: nat, list: Value)
    : Result<Value, MapError>
    requires Ranked(reg) && i <= doc.Size()
    decreases Height(doc), reg.rank(cls), 0, doc.Size() - i
  {
    if i == doc.Size() then Ok(list)
    else
      ListItemHeight(doc, i);
      var x :- Decode(reg, elem, doc.GetListItem(i));
      if !list.Items? then Err(NullReference)
      else DecodeItems(reg, cls, doc, elem, i + 1, Items(list.cls, list.elems + [x]))
  }

  /** The field loop of `fromJSON`, from field `i` on, filling `obj`. */
  function DecodeFields(reg: Registry, cls: string, doc: Json, fs: seq<FieldDesc>, i: nat, obj: Value)
    : Result<Value, MapError>
    requires Ranked(reg) && reg.fields(cls) == Some(fs) && i <= |fs| && !doc.Null?
    decreases Height(doc), reg.rank(cls), 0, |fs| - i
  {
    if i == |fs| then Ok(obj)
    else
      var f := fs[i];
      var item := doc.GetObjectItem(f.name);
      var kind := reg.describe(f.typeId).name;
      if kind == "String" then
        var s :- Lift(item.GetString());
        var obj' :- SetField(obj, f.name, Text(s));
        DecodeFields(reg, cls, doc, fs, i + 1, obj')
      else if kind == "float" then
        var x :- Lift(item.GetNumber());
        var obj' :- SetField(obj, f.name, Num(Float, x));
        DecodeFields(reg, cls, doc, fs, i + 1, obj')
      else if kind == "int" then
        if item.IsNull() then DecodeFields(reg, cls, doc, fs, i + 1, obj)
        else
          var x :- Lift(item.GetNumber());
          var obj' :- SetField(obj, f.name, Num(Int, ToInt32(JavaRound(x)) as real));
          DecodeFields(reg, cls, doc, fs, i + 1, obj')
      else if kind == "bool" then
        if item.IsNull() then DecodeFields(reg, cls, doc, fs, i + 1, obj)
        else
          var b :- Lift(item.GetBool());
          var obj' :- SetField(obj, f.name, Flag(b));
          DecodeFields(reg, cls, doc, fs, i + 1, obj')
      else if !(obj.Nil? || obj.Record?) then Err(CastFailure)
      else
        ObjectItemHeight(doc, f.name);
        var x :- Decode(reg, f.typeId, item);
        var obj' :- SetField(obj, f.name, x);
        DecodeFields(reg, cls, doc, fs, i + 1, obj')
  }

  /** `fromJSON(cls, json)`, where `None` is a null document reference. */
  function DecodeDocument(reg: Registry, cls: string, json: Option<Json>): Result<Value, MapError>
    requires Ranked(reg)
  {
    if json.None? then Ok(Nil) else Decode(reg, cls, json.value)
  }

  // ---------------------------------------------------------------------
  // The generated code, loop for loop, proved against the definitions above

  lemma {:induction false} ZipExtend(fs: seq<FieldDesc>, vals: seq<Json>, x: Json)
    requires |vals| < |fs|
    ensures Zip(fs, vals + [x]) == Zip(fs, vals) + [(fs[|vals|].name, x)]
  {
    if vals != [] {
      assert (vals + [x])[1..] == vals[1..] + [x];
      ZipExtend(fs[1..], vals[1..], x);
    }
  }

  lemma FillSnoc(base: Json, kvs: seq<Entry>, kv: Entry)
    ensures Fill(base, kvs + [kv]) == Fill(base, kvs).SetObjectItem(kv.0, kv.1)
  {
    assert (kvs + [kv])[..|kvs|] == kvs;
  }

  /** One more field written into the record's object. */
  lemma FillStep(base: Json, fs: seq<FieldDesc>, vals: seq<Json>, x: Json)
    requires |vals| < |fs|
    ensures Fill(base, Zip(fs, vals + [x])) == Fill(base, Zip(fs, vals)).SetObjectItem(fs[|vals|].name, x)
  {
    ZipExtend(fs, vals, x);
    FillSnoc(base, Zip(fs, vals), (fs[|vals|].name, x));
  }

  /** The record branch of `Encode`, unfolded once for the lemmas that take it apart. */
  lemma EncodeRecord(reg: Registry, v: Value, fs: seq<FieldDesc>)
    requires !v.Nil?
    requires var name := reg.describe(ClassIdOf(v)).name;
      name != "String" && !IsNumberName(name) && name != "List" && name != "Map"
    requires reg.fields(ClassIdOf(v)) == Some(fs)
    ensures Encode(reg, v) ==
      if fs == [] then Ok(Tagged(ClassIdOf(v)))
      else if !v.Record? then Err(CastFailure)
      else if Collect(FieldResults(reg, v, fs)).Err? then Err(Collect(FieldResults(reg, v, fs)).error)
      else Ok(Fill(Tagged(ClassIdOf(v)), Zip(fs, Collect(FieldResults(reg, v, fs)).value)))
  {
  }

  /** `Functions.toJSON`. */
  method ToJson(reg: Registry, obj: Value) returns (r: Result<Json, MapError>)
    ensures r == Encode(reg, obj)
    decreases obj, 1
  {
    if obj.Nil? {
      return Ok(Null);
    }
    var cls := ClassIdOf(obj);
    var name := reg.describe(cls).name;
    if name == "String" {
      if !obj.Text? {
        return Err(CastFailure);
      }
      return Ok(String(obj.s));
    }
    if IsNumberName(name) {
      if !obj.Num? {
        return Err(CastFailure);
      }
      return Ok(Number(obj.n));
    }
    if name == "List" {
      if !obj.Items? {
        return Err(CastFailure);
      }
      r := ToJsonItems(reg, obj);
      return;
    }
    if name == "Map" {
      if !obj.Pairs? {
        return Err(CastFailure);
      }
      return Ok(Object([]));
    }
    var fields := reg.fields(cls);
    if fields.None? {
      return Err(NullReference);
    }
    r := ToJsonFields(reg, obj, fields.value);
  }

  /** The list loop of `toJSON`: one document item per element, in order. */
  method ToJsonItems(reg: Registry, obj: Value) returns (r: Result<Json, MapError>)
    requires obj.Items? && reg.describe(obj.cls).name == "List"
    ensures r == Encode(reg, obj)
    decreases obj, 0
  {
    var list := obj.elems;
    var result := List([]);
    var idx := 0;
    ghost var rs := ItemResults(reg, obj);
    while idx < |list|
      invariant 0 <= idx <= |list|
      invariant result.List? && |result.items| == idx
      invariant forall j :: 0 <= j < idx ==> rs[j] == Ok(result.items[j])
    {
      var item := ToJson(reg, list[idx]);
      if item.Err? {
        CollectFirstError(rs, idx);
        return Err(item.error);
      }
      var next := result.SetListItem(idx, item.value);
      result := next.value;
      idx := idx + 1;
    }
    CollectAllOk(rs, result.items);
    return Ok(result);
  }

  /** The record part of `toJSON`: the `"$class"` tag, then one key per declared field. */
  method ToJsonFields(reg: Registry, obj: Value, fs: seq<FieldDesc>) returns (r: Result<Json, MapError>)
    requires !obj.Nil?
    requires var name := reg.describe(ClassIdOf(obj)).name;
      name != "String" && !IsNumberName(name) && name != "List" && name != "Map"
    requires reg.fields(ClassIdOf(obj)) == Some(fs)
    ensures r == Encode(reg, obj)
    decreases obj, 0
  {
    var cls := ClassIdOf(obj);
    var result := Tagged(cls);
    var idx := 0;
    EncodeRecord(reg, obj, fs);
    if fs == [] {
      return Ok(result);
    }
    if !obj.Record? {
      return Err(CastFailure);
    }
    ghost var rs := FieldResults(reg, obj, fs);
    ghost var vals: seq<Json> := [];
    while idx < |fs|
      invariant 0 <= idx <= |fs| && |vals| == idx
      invariant result == Fill(Tagged(cls), Zip(fs, vals))
      invariant OkPrefix(rs, vals)
    {
      var item: Result<Json, MapError>;
      if fs[idx].name in obj.fields {
        item := ToJson(reg, obj.fields[fs[idx].name]);
      } else {
        // `_getField` of a name the class does not declare is null
        item := Ok(Null);
      }
      assert rs[idx] == FieldResult(reg, obj, fs[idx].name) == item;
      if item.Err? {
        CollectFirstError(rs, idx);
        return Err(item.error);
      }
      ghost var vals' := vals + [item.value];
      OkPrefixExtend(rs, vals, item.value);
      FillStep(Tagged(cls), fs, vals, item.value);
      result := result.SetObjectItem(fs[idx].name, item.value);
      vals := vals';
      idx := idx + 1;
    }
    CollectAllOk(rs, vals);
    return Ok(result);
  }

  /** `Functions.fromJSON`, where `None` is a null document reference. */
  method FromJson(reg: Registry, cls: string, json: Option<Json>) returns (r: Result<Value, MapError>)
    requires Ranked(reg)
    ensures r == DecodeDocument(reg, cls, json)
    decreases if json.Some? then Height(json.value) else 0, reg.rank(cls)
  {
    if json.None? || json.value.IsNull() {
      return Ok(Nil);
    }
    var doc := json.value;
    var idx := 0;
    var d := reg.describe(cls);
    if d.name == "List" {
      var made := reg.construct(cls, []);
      if made.Err? {
        return Err(made.error);
      }
      var list := made.value;
      if !(list.Nil? || list.Items?) {
        return Err(CastFailure);
      }
      ghost var elem := if d.parameters == [] then "" else d.parameters[0];
      while idx < doc.Size()
        invariant 0 <= idx <= doc.Size()
        invariant list.Nil? || list.Items?
        invariant idx > 0 ==> d.parameters != []
        invariant d.parameters != [] || doc.Size() == 0 ==> Decode(reg, cls, doc) == DecodeItems(reg, cls, doc, elem, idx, list)
      {
        if d.parameters == [] {
          return Err(IndexOutOfRange);
        }
        ListItemHeight(doc, idx);
        var item := FromJson(reg, d.parameters[0], Some(doc.GetListItem(idx)));
        if item.Err? {
          return item;
        }
        if list.Nil? {
          return Err(NullReference);
        }
        list := Items(list.cls, list.elems + [item.value]);
        idx := idx + 1;
      }
      return Ok(list);
    }
    var fields := reg.fields(cls);
    var made := reg.construct(cls, []);
    if made.Err? {
      return Err(made.error);
    }
    var result := made.value;
    if fields.None? {
      return Err(NullReference);
    }
    var fs := fields.value;
    while idx < |fs|
      invariant 0 <= idx <= |fs|
      invariant Decode(reg, cls, doc) == DecodeFields(reg, cls, doc, fs, idx, result)
    {
      var f := fs[idx];
      idx := idx + 1;
      var item := doc.GetObjectItem(f.name);
      var kind := reg.describe(f.typeId).name;
      if kind == "String" {
        var s := item.GetString();
        if s.Err? {
          return Err(DocumentError(s.error));
        }
        var stored := SetField(result, f.name, Text(s.value));
        if stored.Err? {
          return Err(stored.error);
        }
        result := stored.value;
        continue;
      }
      if kind == "float" {
        var x := item.GetNumber();
        if x.Err? {
          return Err(DocumentError(x.error));
        }
        var stored := SetField(result, f.name, Num(Float, x.value));
        if stored.Err? {
          return Err(stored.error);
        }
        result := stored.value;
        continue;
      }
      if kind == "int" {
        if !item.IsNull() {
          var x := item.GetNumber();
          if x.Err? {
            return Err(DocumentError(x.error));
          }
          var stored := SetField(result, f.name, Num(Int, ToInt32(JavaRound(x.value)) as real));
          if stored.Err? {
            return Err(stored.error);
          }
          result := stored.value;
        }
        continue;
      }
      if kind == "bool" {
        if !item.IsNull() {
          var b := item.GetBool();
          if b.Err? {
            return Err(DocumentError(b.error));
          }
          var stored := SetField(result, f.name, Flag(b.value));
          if stored.Err? {
            return Err(stored.error);
          }
          result := stored.value;
        }
        continue;
      }
      if !(result.Nil? || result.Record?) {
        return Err(CastFailure);
      }
      ObjectItemHeight(doc, f.name);
      var x := FromJson(reg, f.typeId, Some(item));
      if x.Err? {
        return x;
      }
      var stored := SetField(result, f.name, x.value);
      if stored.Err? {
        return Err(stored.error);
      }
      result := stored.value;
    }
    return Ok(result);
  }
}
