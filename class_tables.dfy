/**
 * The class tables of the generated `json_tests_lib.Functions`:
 * `_class` (name and type parameters of an id), `_fields` (declared fields
 * of a class) and `_construct` (a new instance from an argument list),
 * and the registry they make for the mapper.
 */
module ClassTables {
  import opened Wrappers
  import opened JsonValue
  import opened Mapper
  import opened MapperLaws

  /** The class ids the three tables list. */
  predicate IsKnownId(id: string)
  {
    id == "Class" || id == "Field" || id == "List<Object>" || id == "List<Field>" ||
    id == "List<Class>" || id == "List<String>" || id == "Map<Object,Object>" ||
    id == "Map<String,Object>" || id == "ResponseHolder" || id == "Client" || id == "Server<Object>"
  }

  /**
   * `_class`, as a table: an id the table does not list is its own name and
   * keeps the empty parameter list a new `Class` starts with.
   */
  function ClassTable(id: string): Descriptor
  {
    if id == "Class" then Descriptor("Class", [])
    else if id == "Field" then Descriptor("Field", [])
    else if id == "List<Object>" then Descriptor("List", ["Object"])
    else if id == "List<Field>" then Descriptor("List", ["Field"])
    else if id == "List<Class>" then Descriptor("List", ["Class"])
    else if id == "List<String>" then Descriptor("List", ["String"])
    else if id == "Map<Object,Object>" then Descriptor("Map", ["Object", "Object"])
    else if id == "Map<String,Object>" then Descriptor("Map", ["String", "Object"])
    else if id == "ResponseHolder" then Descriptor("ResponseHolder", [])
    else if id == "Client" then Descriptor("Client", [])
    else if id == "Server<Object>" then Descriptor("Server", ["Object"])
    else Descriptor(id, [])
  }

  /** A class descriptor: `Class.id`, and the name and parameters `_class` fills in. */
  class Class {
    var id: string
    var name: string
    var parameters: seq<string>

    /** `new Class(id)`: starts with no parameters and lets `_class` describe the id. */
    constructor (id: string)
      ensures this.id == id
      ensures name == ClassTable(id).name && parameters == ClassTable(id).parameters
    {
      this.id := id;
      name := "";
      parameters := [];
      new;
      DescribeClass(this);
    }
  }

  /** `_class(cls)`: sets the name and type parameters of `cls` from its id. */
  method DescribeClass(cls: Class)
    modifies cls
    ensures cls.id == old(cls.id)
    ensures cls.name == ClassTable(cls.id).name
    ensures IsKnownId(cls.id) ==> cls.parameters == ClassTable(cls.id).parameters
    ensures !IsKnownId(cls.id) ==> cls.parameters == old(cls.parameters)
  {
    if cls.id == "Class" {
      cls.name, cls.parameters := "Class", [];
      return;
    }
    if cls.id == "Field" {
      cls.name, cls.parameters := "Field", [];
      return;
    }
    if cls.id == "List<Object>" {
      cls.name, cls.parameters := "List", ["Object"];
      return;
    }
    if cls.id == "List<Field>" {
      cls.name, cls.parameters := "List", ["Field"];
      return;
    }
    if cls.id == "List<Class>" {
      cls.name, cls.parameters := "List", ["Class"];
      return;
    }
    if cls.id == "List<String>" {
      cls.name, cls.parameters := "List", ["String"];
      return;
    }
    if cls.id == "Map<Object,Object>" {
      cls.name, cls.parameters := "Map", ["Object", "Object"];
      return;
    }
    if cls.id == "Map<String,Object>" {
      cls.name, cls.parameters := "Map", ["String", "Object"];
      return;
    }
    if cls.id == "ResponseHolder" {
      cls.name, cls.parameters := "ResponseHolder", [];
      return;
    }
    if cls.id == "Client" {
      cls.name, cls.parameters := "Client", [];
      return;
    }
    if cls.id == "Server<Object>" {
      cls.name, cls.parameters := "Server", ["Object"];
      return;
    }
    cls.name := cls.id;
  }

  /** `_fields(className)`: the declared fields, `None` for a class the table does not list. */
  function FieldTable(className: string): Option<seq<FieldDesc>>
  {
    if className == "Class" then
      Some([FieldDesc("String", "id"), FieldDesc("String", "name"), FieldDesc("List<Class>", "parameters")])
    else if className == "Field" then Some([FieldDesc("Class", "type"), FieldDesc("String", "name")])
    else if className == "List<Object>" || className == "List<Field>" || className == "List<Class>" ||
            className == "List<String>" || className == "Map<Object,Object>" || className == "Map<String,Object>"
    then Some([])
    else if className == "ResponseHolder" then Some([FieldDesc("HTTPResponse", "response")])
    else if className == "Client" then Some([FieldDesc("Runtime", "runtime"), FieldDesc("String", "url")])
    else if className == "Server<Object>" then Some([FieldDesc("Runtime", "runtime"), FieldDesc("Object", "impl")])
    else None
  }

  /** The value of a `Class` object for `id`, given its parameter descriptors. */
  function ClassRecord(id: string, params: seq<Value>): Value
  {
    Record("Class", map["id" := Text(id), "name" := Text(ClassTable(id).name),
                        "parameters" := Items("List<Class>", params)])
  }

  /** `new Class(id)`: the parameters are ids of classes without parameters of their own. */
  function NewClass(id: string): Value
  {
    var ps := ClassTable(id).parameters;
    ClassRecord(id, seq(|ps|, i requires 0 <= i < |ps| => ClassRecord(ps[i], [])))
  }

  /**
   * `_construct(className, args)`: reads the arguments a constructor needs,
   * in order, failing on a missing one or one of the wrong class; a class
   * the table does not list gives null.
   */
  function ConstructTable(className: string, args: seq<Value>): Result<Value, MapError>
  {
    if className == "Class" then
      if |args| < 1 then Err(IndexOutOfRange)
      else if args[0].Text? then Ok(NewClass(args[0].s))
      else if args[0].Nil? then
        Ok(Record("Class", map["id" := Nil, "name" := Nil, "parameters" := Items("List<Class>", [])]))
      else Err(CastFailure)
    else if className == "Field" then
      if |args| < 1 then Err(IndexOutOfRange)
      else if !(args[0].Nil? || (args[0].Record? && args[0].cls == "Class")) then Err(CastFailure)
      else if |args| < 2 then Err(IndexOutOfRange)
      else if !(args[1].Nil? || args[1].Text?) then Err(CastFailure)
      else Ok(Record("Field", map["type" := args[0], "name" := args[1]]))
    else if className == "List<Object>" || className == "List<Field>" || className == "List<Class>" ||
            className == "List<String>"
    then Ok(Items(className, []))
    else if className == "Map<Object,Object>" || className == "Map<String,Object>" then
      Ok(Pairs(className, map[]))
    else if className == "ResponseHolder" then Ok(Record("ResponseHolder", map["response" := Nil]))
    else if className == "Client" then
      if |args| < 2 then Err(IndexOutOfRange)
      else if !(args[1].Nil? || args[1].Text?) then Err(CastFailure)
      else Ok(Record("Client", map["runtime" := args[0], "url" := args[1]]))
    else if className == "Server<Object>" then
      if |args| < 2 then Err(IndexOutOfRange)
      else Ok(Record("Server<Object>", map["runtime" := args[0], "impl" := args[1]]))
    else Ok(Nil)
  }

  /** Nesting depth of the record classes of the tables. */
  function RankTable(id: string): nat
  {
    if id == "Field" then 2
    else if id == "Class" || id == "ResponseHolder" || id == "Client" || id == "Server<Object>" then 1
    else 0
  }

  const JsonTests: Registry := Registry(ClassTable, FieldTable, ConstructTable, RankTable)

  // ---------------------------------------------------------------------
  // Properties of the tables

  /** A listed id named "List" is `List<X>` with the one parameter `X`. */
  lemma ListDescriptors(id: string)
    requires IsKnownId(id) && ClassTable(id).name == "List"
    ensures |ClassTable(id).parameters| == 1
    ensures id == "List<" + ClassTable(id).parameters[0] + ">"
  {
  }

  /** A listed id named "Map" is `Map<K,V>` with the parameters `K` and `V`. */
  lemma MapDescriptors(id: string)
    requires IsKnownId(id) && ClassTable(id).name == "Map"
    ensures |ClassTable(id).parameters| == 2
    ensures id == "Map<" + ClassTable(id).parameters[0] + "," + ClassTable(id).parameters[1] + ">"
  {
  }

  /** An id the tables do not list names itself, has no field table and constructs to null. */
  lemma UnknownIds(id: string, args: seq<Value>)
    requires !IsKnownId(id)
    ensures ClassTable(id) == Descriptor(id, [])
    ensures FieldTable(id).None?
    ensures ConstructTable(id, args) == Ok(Nil)
  {
  }

  /** Every listed class with a field table is described by `_class`, and the other way round. */
  lemma TablesAgree(id: string)
    ensures FieldTable(id).Some? <==> IsKnownId(id)
  {
  }

  /** `_construct` and `_fields` agree: a constructed record has its class's id and one entry per declared field. */
  lemma ConstructedRecords(className: string, args: seq<Value>)
    requires ConstructTable(className, args).Ok? && ConstructTable(className, args).value.Record?
    ensures FieldTable(className).Some?
    ensures var r := ConstructTable(className, args).value;
      r.cls == className && r.fields.Keys == Names(FieldTable(className).value)
  {
    var fs := FieldTable(className).value;
    var keys := ConstructTable(className, args).value.fields.Keys;
    if className == "Class" {
      assert Names(fs) == {"id", "name", "parameters"} by {
        assert fs[0].name == "id" && fs[1].name == "name" && fs[2].name == "parameters";
      }
      assert keys == {"id", "name", "parameters"};
    } else if className == "Field" {
      assert Names(fs) == {"type", "name"} by {
        assert fs[0].name == "type" && fs[1].name == "name";
      }
    } else if className == "ResponseHolder" {
      assert Names(fs) == {"response"} by {
        assert fs[0].name == "response";
      }
    } else if className == "Client" {
      assert Names(fs) == {"runtime", "url"} by {
        assert fs[0].name == "runtime" && fs[1].name == "url";
      }
    } else {
      assert Names(fs) == {"runtime", "impl"} by {
        assert fs[0].name == "runtime" && fs[1].name == "impl";
      }
    }
  }

  /** The record classes of the tables nest: decoding with them terminates. */
  lemma JsonTestsRanked()
    ensures Ranked(JsonTests)
  {
    forall cls: string, i: nat |
      FieldTable(cls).Some? && i < |FieldTable(cls).value| &&
      !IsScalarName(ClassTable(FieldTable(cls).value[i].typeId).name)
      ensures RankTable(FieldTable(cls).value[i].typeId) < RankTable(cls)
    {
      var fs := FieldTable(cls).value;
      assert fs != [];
      assert cls == "Class" || cls == "Field" || cls == "ResponseHolder" || cls == "Client" || cls == "Server<Object>";
    }
  }

  /** A `ResponseHolder` with no response fits its class: blank-constructible, every field null. */
  lemma ResponseHolderFits()
    ensures StandardScalars(JsonTests)
    ensures RecordFits(JsonTests, "ResponseHolder", Record("ResponseHolder", map["response" := Nil]))
  {
    ResponseHolderBlank();
    assert FieldFits(JsonTests, "HTTPResponse", Nil);
  }

  /** `ResponseHolder` is a record class built with no argument and its one field null. */
  lemma ResponseHolderBlank()
    ensures JsonTests.fields("ResponseHolder") == Some([FieldDesc("HTTPResponse", "response")])
    ensures Names([FieldDesc("HTTPResponse", "response")]) == {"response"}
    ensures BlankRecordClass(JsonTests, "ResponseHolder")
  {
    var fs := [FieldDesc("HTTPResponse", "response")];
    assert JsonTests.fields("ResponseHolder") == Some(fs);
    assert Names(fs) == {"response"};
    assert Blank(fs) == map["response" := Nil];
  }

  /** A `ResponseHolder` with no response is written and read back unchanged. */
  lemma ResponseHolderRoundTrip()
    ensures Ranked(JsonTests)
    ensures var v := Record("ResponseHolder", map["response" := Nil]);
      Encode(JsonTests, v).Ok? && Decode(JsonTests, "ResponseHolder", Encode(JsonTests, v).value) == Ok(v)
  {
    JsonTestsRanked();
    ResponseHolderFits();
    RecordRoundTrip(JsonTests, "ResponseHolder", Record("ResponseHolder", map["response" := Nil]));
  }

  /** A `List<Object>` of two nulls fits its class: an empty list to begin with, every element null. */
  lemma ObjectListFits()
    ensures StandardScalars(JsonTests)
    ensures ListFits(JsonTests, "List<Object>", Items("List<Object>", [Nil, Nil]))
  {
    var v := Items("List<Object>", [Nil, Nil]);
    assert BlankListClass(JsonTests, "List<Object>");
    forall i | 0 <= i < |v.elems| ensures ValueFits(JsonTests, "Object", v.elems[i]) {
    }
  }

  /** A `List<Object>` of two nulls is written as `[null, null]` and read back unchanged. */
  lemma ObjectListRoundTrip()
    ensures Ranked(JsonTests)
    ensures var v := Items("List<Object>", [Nil, Nil]);
      Encode(JsonTests, v).Ok? && Decode(JsonTests, "List<Object>", Encode(JsonTests, v).value) == Ok(v)
  {
    JsonTestsRanked();
    ObjectListFits();
    ListRoundTrip(JsonTests, "List<Object>", Items("List<Object>", [Nil, Nil]));
  }

  /**
   * `fromJSON` builds a `Class` with no argument and its constructor reads
   * argument 0: any non-null document fails to decode as a `Class`, so no
   * `Class` record is read back.
   */
  lemma ClassNotDecodable(doc: Json)
    requires !doc.IsNull()
    ensures Ranked(JsonTests)
    ensures Decode(JsonTests, "Class", doc) == Err(IndexOutOfRange)
  {
    JsonTestsRanked();
  }

  /**
   * `fromJSON` has no case for a string at the top level: decoding a list
   * of strings asks the unlisted class "String" for its fields and fails.
   */
  lemma StringListNotDecodable()
    ensures Ranked(JsonTests)
    ensures Decode(JsonTests, "List<String>", List([String("a")])) == Err(NullReference)
  {
    JsonTestsRanked();
    assert Decode(JsonTests, "String", String("a")) == Err(NullReference);
  }
}
