# Quark JSON mapper and compiler helpers in Dafny

This project models the part of the Quark language toolchain that turns objects into JSON
documents and back, together with the small compiler and tooling routines around it.

- **The generic JSON mapper** (modules `Mapper`, `MapperLaws`, `ClassTables`). This is the
  built-in `toJSON`/`fromJSON` pair of a generated Java library. It dispatches on the
  runtime class descriptor of an object. It writes strings and numbers directly, lists item
  by item, maps as empty objects, and every other object as an object tagged `"$class"`
  followed by one entry per declared field. Reading back follows per-field-type rules:
  - strings and floats are assigned directly;
  - ints are rounded half up and cut to 32 bits;
  - a null leaves an int or bool field at its constructed value;
  - everything else is decoded recursively.

  The descriptor tables `_class`, `_fields` and `_construct` of that library give the
  registry the mapper runs against.
- **The JSON value** (module `JsonValue`). The runtime's JSON object is a datatype with
  the seven variants Null, Bool, Number, String, List, Object and Undefined. Its
  operations are those the generated code calls: the typed getters, `setListItem`,
  `setObjectItem`, `getListItem`, `getObjectItem` and `size`. `toString`/`parse` are
  modelled as writing and reading a token sequence, and they are proved inverse on every
  well-formed value.
- **The `json_test` program** (module `JsonTest`). Its round-trip scenarios, and the two
  loops that walk a list until `getListItem` answers `undefined()`.
- **Compiler helpers from `quarkc/code.py`** (module `CodeGen`):
  - string-literal unescaping;
  - name mangling;
  - brace doubling in native templates;
  - the temporary-name counter with its statement stack, and hoisting in blocks;
  - lowering of `switch` to a chain of `if`s.
- **Tree utilities from `quarkc/tree.py`** (module `Tree`):
  - `split`;
  - depth- and breadth-first walks;
  - the `Query` parent map and its ancestor queries;
  - the indentation context.
- **Generated by-name field accessors** that the mapper relies on. These are the Java
  `slack.User` (module `SlackJava`) and the Ruby `slack` package's `User`, `Channel` and
  `Client` (module `SlackRuby`).
- **The command line's progress handler and backend selection** (module `Command`).

Code that mutates state in the sources is modelled by Dafny classes with `modifies` frames:
- `Class` and `_class`;
- the `Code` compiler state;
- `Query`;
- the indent counter;
- `ProgressHandler`;
- the generated classes with their fields.

Code that loops is modelled by methods with loop invariants, each proved equal to a
specification function:
- `toJSON`/`fromJSON`;
- `unquote`;
- `split`;
- the walks;
- `Query.__init__` and the ancestor loops;
- the test loops.

The properties of those specification functions are proved as lemmas.

Where the code does something its tests and comments do not suggest, the model follows the code:
- `fromJSON` has no top-level case for strings or numbers. A `List<String>` document is
  therefore not decodable (`ClassTables.StringListNotDecodable`).
- `toJSON` has no case for booleans, so a `bool` value takes the record path. With the
  json_tests tables, which list no fields for `bool`, that is a null dereference.
- A record field named `"$class"` would overwrite the tag; the record laws require field
  names other than `"$class"`.
- The Ruby `initialize` methods ignore their arguments and leave every field nil.

## Model

| member | source | states |
|---|---|---|
| JsonValue.SetListItem | quark/test/emit/json_test/java/Functions.java:25 | `setListItem(i, v)` succeeds exactly for `0 <= i <= size`; it replaces item `i` or appends at `i == size`, gives back a list holding `v` at `i`, and leaves every other item unchanged |
| JsonValue.SetObjectItem | quark/test/emit/json_tests/java/json_tests_lib/Functions.java:39-42 | `setObjectItem(k, v)` gives an object in which `k` reads back as `v`, every other key reads as before, an existing key keeps its position, and a new key is appended at the end |
| JsonValue.KeysOf | quark/test/emit/json_tests/java/json_tests_lib/Functions.java:39-42 | the keys of an object, one per entry and in entry order |
| JsonValue.LookupPresent | quark/test/emit/json_test/java/Functions.java:28 | `getObjectItem` of a present key answers the value of an entry with that key |
| JsonValue.LookupAbsent | quark/test/emit/json_test/java/Functions.java:28 | `getObjectItem` of an absent key answers `undefined()` |
| JsonValue.LookupUnique | quark/test/emit/json_test/java/Functions.java:28 | with unique keys, `getObjectItem` of an entry's key answers exactly that entry's value |
| JsonValue.PutLemma | quark/test/emit/json_tests/java/json_tests_lib/Functions.java:39-42 | storing a key makes it read back its value, leaves every other key's value unchanged, keeps the key order of an existing key and appends a new one |
| JsonValue.PutKeepsUnique | quark/test/emit/json_tests/java/json_tests_lib/Functions.java:39-42 | storing a key never duplicates a key of the object |
| JsonValue.SettersKeepWellFormed | quark/test/emit/json_test/java/Functions.java:25 | the chaining setters applied to a fresh or well-formed value with a well-formed item give a well-formed value |
| JsonValue.ToString | quark/test/emit/json_test/java/Functions.java:3-8 | `toString` fails exactly on values that hold `undefined()` |
| JsonValue.Parse | quark/test/emit/json_test/java/Functions.java:3-8 | whatever `parse` accepts is a well-formed value, with no `undefined()` and no duplicate object keys |
| JsonValue.WellFormedIsDefined | quark/test/emit/json_test/java/Functions.java:3-8 | a well-formed value can always be written |
| JsonValue.ParseToStringRoundTrip | quark/test/emit/json_test/java/Functions.java:3-8 | `parse(v.toString())` gives back `v` for every well-formed value |
| JsonTest.RoundTripScenarios | quark/test/emit/json_test/java/Functions.java:2-9 | the empty object, the empty list, `""`, `false`, `true` and null each survive `parse(toString())` |
| JsonTest.Present | quark/test/emit/json_test/java/Functions.java:13-17 | the items a `getListItem` loop sees form the prefix of the list before the first `undefined()`, and none of them is `undefined()` |
| JsonTest.IterateList | quark/test/emit/json_test/java/Functions.java:10-23 | the loop prints the first `min(n, 11)` present items as numbers. It fails exactly when one of them is not a number, and it gives up with "Error!" exactly when more than 10 items are present |
| JsonTest.Strings | quark/test/emit/json_test/java/Functions.java:30-36 | a list yields its strings, in order, exactly when every item is a string |
| JsonTest.IterateStrings | quark/test/emit/json_test/java/Functions.java:29-36 | the unbounded loop prints the strings of the present items, in order, and fails with a type mismatch exactly when one of them is not a string |
| JsonTest.ThreeItems | quark/test/emit/json_test/java/Functions.java:25 | three chained `setListItem(0..2)` on a fresh value build the three-item list in that order (an instance of `JsonValue.SetListItem`) |
| JsonTest.SingleEntryRoundTrip | quark/test/emit/json_test/java/Functions.java:25-28 | `setObjectItem` on a fresh value needs no prior `setObject()`, and after `toString`/`parse` the key still reads back its value |
| JsonTest.ThreeStrings | quark/test/emit/json_test/java/Functions.java:30-36 | a list of three strings is all present and yields those three strings |
| JsonTest.TestIterateList | quark/test/emit/json_test/java/Functions.java:10-23 | the parsed seven-number list prints all seven numbers in order and never reaches "Error!" |
| JsonTest.TestIterateListDirectory | quark/test/emit/json_test/java/Functions.java:24-37 | the endpoints written, parsed back and iterated print `endpoint0`, `endpoint1`, `endpoint2` in order |
| Mapper.SetField | quark/test/emit/json_tests/java/json_tests_lib/Functions.java:73 | `_setField` on a record keeps its class and key set, sets the named declared field and leaves the others unchanged; on null it is a null dereference |
| Mapper.CollectAllOk | quark/test/emit/json_tests/java/json_tests_lib/Functions.java:28-31 | when every step of a loop succeeds, the loop yields all the results, in order |
| Mapper.CollectFirstError | quark/test/emit/json_tests/java/json_tests_lib/Functions.java:28-31 | a loop stops with the error of its first failing step |
| Mapper.CollectOkValues | quark/test/emit/json_tests/java/json_tests_lib/Functions.java:28-31 | a loop that succeeds yields exactly the value of each step |
| Mapper.CollectOkIff | quark/test/emit/json_tests/java/json_tests_lib/Functions.java:28-31 | a loop succeeds exactly when every step does |
| Mapper.Zip | quark/test/emit/json_tests/java/json_tests_lib/Functions.java:40-44 | pairs each declared field name with its encoded value, in field order |
| Mapper.ToInt32 | quark/test/emit/json_tests/java/json_tests_lib/Functions.java:83 | the `(int)` cast of a rounded number lies in the 32-bit range and is congruent to it modulo 2^32 |
| Mapper.ToJson | quark/test/emit/json_tests/java/json_tests_lib/Functions.java:9-46 | the loop-based `toJSON` computes exactly the specification encoding `Encode` |
| Mapper.ToJsonItems | quark/test/emit/json_tests/java/json_tests_lib/Functions.java:25-33 | the list loop of `toJSON` computes `Encode` of the list |
| Mapper.ToJsonFields | quark/test/emit/json_tests/java/json_tests_lib/Functions.java:39-45 | the field loop of `toJSON` computes `Encode` of the record |
| Mapper.FromJson | quark/test/emit/json_tests/java/json_tests_lib/Functions.java:53-98 | the loop-based `fromJSON` computes exactly the specification decoding `DecodeDocument` |
| MapperLaws.EncodeDirect | quark/test/emit/json_tests/java/json_tests_lib/Functions.java:11-38 | null is written as Null, a `String` as a string, a `byte`/`short`/`int`/`long`/`float` as a number, and a `Map` as the empty object whatever its entries |
| MapperLaws.EncodeListShape | quark/test/emit/json_tests/java/json_tests_lib/Functions.java:25-33 | a list is written exactly when every item is. The result is a list of the same length whose item `i` is the encoding of element `i` |
| MapperLaws.TaggedShape | quark/test/emit/json_tests/java/json_tests_lib/Functions.java:39 | the record prefix is the one-entry object `"$class"` → the class id |
| MapperLaws.FillAppends | quark/test/emit/json_tests/java/json_tests_lib/Functions.java:41-44 | storing fresh, distinct keys one by one appends them to the object, in order |
| MapperLaws.FilledRecord | quark/test/emit/json_tests/java/json_tests_lib/Functions.java:39-44 | the tag followed by the declared fields forms an object whose keys are all distinct |
| MapperLaws.EncodeRecordShape | quark/test/emit/json_tests/java/json_tests_lib/Functions.java:39-45 | a record is written exactly when each of its fields is, as an object of `1 + n` entries: `"$class"` first, then one per declared field in order, each holding that field's encoding |
| MapperLaws.EncodeNonRecord | quark/test/emit/json_tests/java/json_tests_lib/Functions.java:39-45 | a non-record object of a class that `toJSON` writes as a record is written as the bare `"$class"` tag when the class declares no field, and otherwise fails the cast |
| MapperLaws.EncodeRecordFirstError | quark/test/emit/json_tests/java/json_tests_lib/Functions.java:39-45 | when field `k` is the first declared field that fails to encode, writing the record fails with that field's error |
| MapperLaws.EncodeRecordEntries | quark/test/emit/json_tests/java/json_tests_lib/Functions.java:39-45 | the entries of an encoded record, spelled out entry by entry |
| MapperLaws.DecodeAbsent | quark/test/emit/json_tests/java/json_tests_lib/Functions.java:54-56 | `fromJSON` of an absent document or of Null gives null |
| MapperLaws.DecodeItemsFrom | quark/test/emit/json_tests/java/json_tests_lib/Functions.java:60-63 | the list loop succeeds exactly when every remaining item decodes with the element class, and then appends their decodings in index order after what it had |
| MapperLaws.DecodeListShape | quark/test/emit/json_tests/java/json_tests_lib/Functions.java:58-65 | a `List` class decodes a document of `size()` items to a list of exactly `size()` elements, element `i` being item `i` decoded with `parameters[0]`, and fails exactly when an item does |
| MapperLaws.DecodeFieldsOk | quark/test/emit/json_tests/java/json_tests_lib/Functions.java:68-96 | the field loop succeeds exactly when each remaining field's own rule succeeds on the item under its name |
| MapperLaws.DecodeFieldsKeep | quark/test/emit/json_tests/java/json_tests_lib/Functions.java:68-96 | the field loop keeps the object's class and key set, and every field it does not visit keeps its value |
| MapperLaws.DecodeFieldsSet | quark/test/emit/json_tests/java/json_tests_lib/Functions.java:68-96 | after the field loop, each visited field holds what its own rule produced from the item under its name |
| MapperLaws.DecodeRecord | quark/test/emit/json_tests/java/json_tests_lib/Functions.java:66-97 | a record class decodes exactly when every declared field's rule succeeds. The result is the constructed object with each declared field set by its rule (String and float directly, int rounded half up, null kept for int and bool, other types recursively) and every other field left as constructed |
| MapperLaws.DecodeReadsOnlyFields | quark/test/emit/json_tests/java/json_tests_lib/Functions.java:66-97 | two documents that agree on the declared field names decode to the same record: no other key is read |
| MapperLaws.DecodeIgnoresTag | quark/test/emit/json_tests/java/json_tests_lib/Functions.java:66-97 | the `"$class"` key is never read: changing it does not change the decoded record |
| MapperLaws.RoundIntegral | quark/test/emit/json_tests/java/json_tests_lib/Functions.java:83 | rounding half up and casting to 32 bits gives back any integral 32-bit number unchanged |
| MapperLaws.FieldRoundTrip | quark/test/emit/json_tests/java/json_tests_lib/Functions.java:71-95 | a field value that fits its declared type is written and read back by that field's rule unchanged. Fitting goes by kind of the field's class: a `String` field holds a string; a `float` field a float; an `int` field null or an int within 32 bits; a `bool` field only null, since `toJSON` has no case for booleans; any other field null, a fitting record or a fitting list |
| MapperLaws.RecordEncodes | quark/test/emit/json_tests/java/json_tests_lib/Functions.java:39-45 | a record whose fields all encode is written, and each declared field's entry reads back its encoding |
| MapperLaws.RecordRoundTrip | quark/test/emit/json_tests/java/json_tests_lib/Functions.java:9-98 | every record that fits its class satisfies `fromJSON(cls, toJSON(v)) == v`; fitting means the class is blank-constructible and each declared field fits by kind of the field's class: a `String` field holds a string; a `float` field a float; an `int` field null or an int within 32 bits; a `bool` field only null, since `toJSON` has no case for booleans; any other field null, a fitting record or a fitting list |
| MapperLaws.ValueRoundTrip | quark/test/emit/json_tests/java/json_tests_lib/Functions.java:9-98 | a value that fits class `t` (null, a fitting record or a fitting list) satisfies `fromJSON(t, toJSON(v)) == v` |
| MapperLaws.ListRoundTrip | quark/test/emit/json_tests/java/json_tests_lib/Functions.java:25-63 | a list of a `List` class built empty with no argument, whose elements fit its type parameter, is written item by item and read back into an equal list |
| ClassTables.Class.constructor | quark/test/emit/json_tests/java/json_tests_lib/Functions.java:228-285 | `new Class(id)` records the id and the name and parameters `_class` gives it |
| ClassTables.DescribeClass | quark/test/emit/json_tests/java/json_tests_lib/Functions.java:228-285 | `_class` sets the name from the table for every id, and sets the parameters for listed ids, leaving them untouched for an unlisted id |
| ClassTables.ListDescriptors | quark/test/emit/json_tests/java/json_tests_lib/Functions.java:239-258 | every listed id named `"List"` is `List<X>` with exactly the one parameter `X` (checked over the finite table) |
| ClassTables.MapDescriptors | quark/test/emit/json_tests/java/json_tests_lib/Functions.java:259-268 | every listed id named `"Map"` is `Map<K,V>` with exactly the parameters `[K, V]` (checked over the finite table) |
| ClassTables.UnknownIds | quark/test/emit/json_tests/java/json_tests_lib/Functions.java:186 | an unlisted id is its own name with no parameters, has no field table (`_fields` gives null) and constructs to null (the fall-through of each table) |
| ClassTables.TablesAgree | quark/test/emit/json_tests/java/json_tests_lib/Functions.java:190-225 | `_fields` answers exactly for the ids `_class` and `_construct` list |
| ClassTables.ConstructedRecords | quark/test/emit/json_tests/java/json_tests_lib/Functions.java:152-187 | every record `_construct` builds is of the class asked for and has exactly the fields `_fields` declares for it |
| ClassTables.JsonTestsRanked | quark/test/emit/json_tests/java/json_tests_lib/Functions.java:190-225 | the record classes of the tables nest without cycles, so `fromJSON` over them terminates |
| ClassTables.ResponseHolderBlank | quark/test/emit/json_tests/java/json_tests_lib/Functions.java:177-178 | `ResponseHolder` is built with no argument and has its one declared field `response` null |
| ClassTables.ResponseHolderFits | quark/test/emit/json_tests/java/json_tests_lib/Functions.java:215-216 | a `ResponseHolder` with no response fits its class |
| ClassTables.ResponseHolderRoundTrip | quark/test/emit/json_tests/java/json_tests_lib/Functions.java:9-98 | an empty `ResponseHolder` is written and read back unchanged |
| ClassTables.ObjectListRoundTrip | quark/test/emit/json_tests/java/json_tests_lib/Functions.java:25-63 | a `List<Object>` of two nulls is written and read back unchanged with the json_tests tables |
| ClassTables.ClassNotDecodable | quark/test/emit/json_tests/java/json_tests_lib/Functions.java:152-154 | `fromJSON` builds a `Class` with no argument and its constructor reads argument 0, so every non-null document fails to decode as a `Class` |
| ClassTables.StringListNotDecodable | quark/test/emit/json_tests/java/json_tests_lib/Functions.java:58-66 | a `List<String>` document cannot be read back: each string is decoded as a record of the unlisted class `String`, whose missing field table is a null dereference |
| CodeGen.HexDigitValue | quarkc/code.py:514 | a character is a hexadecimal digit exactly when it is a decimal digit or a letter `a`-`f` of either case, and its value is the digit below 16 that renders as it in lower or upper case |
| CodeGen.HexValue | quarkc/code.py:514 | the slice after `\x` is read exactly when it holds one or two hexadecimal digits; one digit is its own value, two give the number below 256 whose quotient and remainder by 16 are the first and second digit |
| CodeGen.Step | quarkc/code.py:510-535 | one step of the unquote loop consumes between one and four characters |
| CodeGen.Unquote | quarkc/code.py:505-536 | the `while` loop of `unquote` computes exactly the specification `Unescaped` |
| CodeGen.StepEscape | quarkc/code.py:516-530 | `\n`, `\r`, `\t`, `\"` and `\\` each decode to their one character and consume two input characters, and any other character is copied and consumes one |
| CodeGen.UnquoteEscaped | quarkc/code.py:509-535 | an escaped run of text in the literal decodes back to that text, and the loop then goes on after it |
| CodeGen.UnquoteEscapes | quarkc/code.py:509-535 | character by character, an escaped run decodes back to its text |
| CodeGen.UnquoteEscapedToEnd | quarkc/code.py:509-536 | an escaped run that reaches the closing quote decodes to exactly its text |
| CodeGen.QuoteRoundTrip | quarkc/code.py:505-536 | unquoting a quoted string gives the string back, for every string |
| CodeGen.UnknownEscapeRejected | quarkc/code.py:531-532 | a backslash followed by any letter other than `x n r t " \` makes `unquote` fail |
| CodeGen.StepHex | quarkc/code.py:513-515 | `\xHH` decodes to the character with code `HH` and consumes four input characters |
| CodeGen.HexEscape | quarkc/code.py:513-515 | a `\xHH` escape between two escaped runs decodes to its character, in place, whichever case each digit is written in |
| CodeGen.HexEscapeLower | quarkc/code.py:513-515 | `\xHH` with lower-case digits decodes to the character with code `HH` |
| CodeGen.HexEscapeUpper | quarkc/code.py:513-515 | `\xHH` with upper-case digits decodes to the character with code `HH` |
| CodeGen.PlainCopied | quarkc/code.py:533-535 | a literal without a backslash unquotes to its text with the first and last characters dropped |
| CodeGen.MangleName | quarkc/code.py:218-244 | `mangle_param` strips `quark.` from `int`, `String`, `Any`, `Scalar`, `List` and `Map`, and leaves every other name unchanged |
| CodeGen.ReplaceDots | quarkc/code.py:211 | replacing `.` by `_` keeps the length and every other character, and leaves no dot |
| CodeGen.Join | quarkc/code.py:211 | `"_".join` starts with the name, is the name alone with no parts, and adds no dot after it |
| CodeGen.Mangle | quarkc/code.py:209-211 | `mangle(name)` with no parameters is `name`, and otherwise `name` followed by dot-free parameter parts |
| CodeGen.MangleAppend | quarkc/code.py:209-216 | one more parameter appends `_` and its dot-free `mangle_param` |
| CodeGen.MangleListOfInt | quarkc/code.py:205-244 | `quark.List<quark.int>` mangles to `quark.List_int`, and as a parameter to `List_int` |
| CodeGen.ReplaceConcat | quarkc/code.py:126 | replacing a character distributes over concatenation |
| CodeGen.FixedIsDoubled | quarkc/code.py:124-126 | fixed template text is emitted with every `{` and `}` doubled |
| CodeGen.RenderDoubled | quarkc/code.py:124-126 | formatting doubled text gives back the original text |
| CodeGen.RenderVar | quarkc/code.py:128-130 | formatting a variable `{name}` substitutes its value |
| CodeGen.TemplateRenders | quarkc/code.py:120-130 | a compiled template formats to its fixed text verbatim with each variable replaced by its value |
| CodeGen.Decimal | quarkc/code.py:317 | the decimal numeral of a counter has at least one digit, and more than one exactly from 10 on |
| CodeGen.DecimalInjective | quarkc/code.py:317 | distinct counters have distinct numerals |
| CodeGen.TempNamesDistinct | quarkc/code.py:315-320 | distinct counter values give distinct temporary names |
| CodeGen.LowerStmt | quarkc/code.py:332-365 | lowering a statement never moves the temporary counter backwards |
| CodeGen.LowerCases | quarkc/code.py:357-365 | lowering the case chain never moves the counter backwards |
| CodeGen.LowerBody | quarkc/code.py:332-340 | lowering a block never moves the counter backwards |
| CodeGen.LowerFrom | quarkc/code.py:335-339 | lowering the statements of a block from one on never moves the counter backwards |
| CodeGen.BlockTemporariesFresh | quarkc/code.py:315-340 | a lowered block declares exactly the temporaries `temp<n>` … `temp<m-1>` for the counter's old and new values, each once and in order |
| CodeGen.CaseTestMeaning | quarkc/code.py:367-374 | a case's right-nested `__or__` of `__eq__` tests holds exactly when the switch value equals one of the case's expressions |
| CodeGen.SwitchTakesFirstMatch | quarkc/code.py:351-365 | the lowered `if` chain runs the body of the first case whose test matches, and none when no case matches |
| CodeGen.Code.constructor | quarkc/code.py:58-59 | a new compiler state has counter 0 and an empty stack |
| CodeGen.Code.Temp | quarkc/code.py:315-320 | `temp` answers `temp<counter>`, increments the counter and appends one `Local` to the top frame |
| CodeGen.Code.Add | quarkc/code.py:322-324 | `add` appends the statement to the top frame and changes nothing else |
| CodeGen.Code.Push | quarkc/code.py:326-327 | `push` opens an empty frame |
| CodeGen.Code.Pop | quarkc/code.py:329-330 | `pop` removes and answers the top frame |
| CodeGen.Code.CompileBlock | quarkc/code.py:332-340 | compiling a block puts each statement's hoisted statements before it, in order, and advances the counter as `LowerBody` says, leaving the stack as it was |
| CodeGen.Code.CompileStatement | quarkc/code.py:332-355 | compiling a statement hoists onto the top frame exactly what `LowerStmt` says |
| CodeGen.Code.CompileSwitch | quarkc/code.py:351-355 | a switch takes a fresh temporary, hoists its declaration and assignment, and lowers to the case chain |
| CodeGen.Code.CompileCases | quarkc/code.py:357-365 | the case chain lowers to `If(test, body, Block(rest))`, and the last case gets an empty `Block()` |
| Tree.FirstMatch | quarkc/tree.py:115-118 | the index of the first predicate an element satisfies, or the count when none does |
| Tree.Split | quarkc/tree.py:104-121 | `split` needs a predicate, returns one group per predicate plus a catch-all unless the last is None, puts each element into the group of its first matching predicate in input order, and fails exactly when some element matches none |
| Tree.FindMatch | quarkc/tree.py:115-120 | the inner loop of `split` finds the first matching predicate |
| Tree.CatchAllTakesEverything | quarkc/tree.py:109-110 | with the catch-all, every element finds a group |
| Tree.GroupMembers | quarkc/tree.py:113-118 | an element is in group `i` exactly when it is in the input and `i` is its first matching predicate |
| Tree.GroupSizes | quarkc/tree.py:113-121 | when every element matches, the group sizes sum to the input length |
| Tree.TotalEmpty | quarkc/tree.py:113 | splitting an empty input gives empty groups |
| Tree.WalkDfs | quarkc/tree.py:174-179 | `walk_dfs` yields the nodes in preorder, children left to right |
| Tree.WalkBfs | quarkc/tree.py:181-186 | `walk_bfs` yields the nodes in level order |
| Tree.BfsDrain | quarkc/tree.py:181-186 | draining the queue from any contents gives their level order |
| Tree.LevelOrderMembers | quarkc/tree.py:174-186 | the breadth-first and depth-first walks visit the same nodes |
| Tree.InTree | quarkc/tree.py:174-186 | a node is met by `walk_bfs` exactly when it is met by `walk_dfs` |
| Tree.ParentMapFacts | quarkc/tree.py:124-134 | the parent memory has exactly the nodes of the tree as keys, maps the root to None and every other node to the node it is a child of |
| Tree.RecordedInTree | quarkc/tree.py:128-134 | every recorded parent is a node of the tree |
| Tree.RecordedKey | quarkc/tree.py:124-134 | a node is recorded exactly when it is reachable from the root |
| Tree.RootHasNoParent | quarkc/tree.py:127 | the root is recorded with parent None |
| Tree.ChildIsRecorded | quarkc/tree.py:131-133 | every other reachable node is recorded with a parent that has it as a child |
| Tree.UpIsParentChain | quarkc/tree.py:145-150 | the ancestors of a node are empty exactly for the root, and otherwise form the chain of parents from the node's parent up to the root |
| Tree.IsaGroupIsOfKind | quarkc/tree.py:98-121 | `split(nodes, isa(*types))` puts in its first group exactly the nodes of those kinds, in order: the filter the typed `ancestors` applies |
| Tree.OfKindMembers | quarkc/tree.py:152-158 | filtering by kinds keeps exactly the nodes of those kinds |
| Tree.Query.constructor | quarkc/tree.py:124-134 | `Query(tree)` fills the parent memory with the parent map of the tree |
| Tree.Query.Parent | quarkc/tree.py:136-143 | `parent` fails exactly for an unrecorded node. Otherwise it answers the recorded parent: None for the root, and for every other node of the tree a node that has it as a child |
| Tree.Query.Ancestors | quarkc/tree.py:145-150 | `ancestors` yields the parent chain up to the root, excluding the node, and fails for an unrecorded node |
| Tree.Query.AncestorsOfKind | quarkc/tree.py:152-158 | the typed `ancestors` yields the ancestors of the given kinds in chain order |
| Tree.Query.AncestorsOrSelf | quarkc/tree.py:160-166 | `ancestors_or_self` starts from the node itself and keeps the nodes of the given kinds |
| Tree.Query.Ancestor | quarkc/tree.py:168-172 | `ancestor` answers the nearest ancestor of the given kinds, fails for an unrecorded node, and fails when there is none |
| Tree.Spaces | quarkc/tree.py:15 | `" " * n` has `n` spaces, and none for `n <= 0` |
| Tree.Indent.constructor | quarkc/tree.py:9-10 | the indent starts at 0 |
| Tree.Indent.Enter | quarkc/tree.py:13-15 | entering increments the indent and yields twice that many spaces |
| Tree.Indent.Exit | quarkc/tree.py:16 | leaving decrements the indent |
| Tree.NestedIndent | quarkc/tree.py:8-16 | two nested contexts yield two and then four spaces, and the indent is restored to 0 afterwards |
| Command.Spinner | quarkc/command.py:77-83 | the spinner yields `"."` exactly at positions divisible by 4, and `""` otherwise |
| Command.ProgressHandler.constructor | quarkc/command.py:70-83 | a new handler has `last` NOTSET, debugging off, the spinner at its start and nothing written |
| Command.ProgressHandler.Emit | quarkc/command.py:85-140 | `emit` sets `last` to the record's level, advances the spinner exactly on a quiet debug record, and writes prefix, message and postfix |
| Command.ProgressHandler.Layout | quarkc/command.py:87-135 | the if-chain of `emit` chooses the prefix, debugging tag and postfix of the specification |
| Command.FirstInfo | quarkc/command.py:105-113 | the first INFO record is written with no prefix and postfix `" ..."` (a case of the rule `Command.ProgressHandler.Layout` follows) |
| Command.InfoAfterInfo | quarkc/command.py:114-117 | an INFO record after an INFO record first closes the line with `" done.\n"` (a case of the rule `Command.ProgressHandler.Layout` follows) |
| Command.QuietDebug | quarkc/command.py:100-104 | when not verbose, a debug record writes only the next spinner value (a case of the rule `Command.ProgressHandler.Layout` follows) |
| Command.VerboseDebug | quarkc/command.py:87-99 | when verbose, a debug record starts a new line unless it is the first record (a case of the rule `Command.ProgressHandler.Layout` follows) |
| Command.WarningsEndTheLine | quarkc/command.py:118-135 | a WARNING or ERROR always ends its line. The prefix is `" done.\n"` exactly for a WARNING after INFO, and `"\n"` otherwise (a case of the rule `Command.ProgressHandler.Layout` follows) |
| Command.TagOnlyWhenAsked | quarkc/command.py:137-138 | the debugging tag is added to the prefix only when `do_debug` is set (a case of the rule `Command.ProgressHandler.Layout` follows) |
| Command.SpinnerDots | quarkc/command.py:77-83 | `n` quiet debug records from spinner position `spin` write one dot per multiple of 4 they pass |
| Command.ChosenOrder | quarkc/command.py:172-186 | the backends come in the order Java, Ruby, Python, JavaScript, each present when asked for or when all are |
| Command.SelectBackends | quarkc/command.py:161-186 | four conditional appends give exactly `Chosen(flags, Order)` |
| Command.ChosenBackends | quarkc/command.py:166-186 | a backend is chosen exactly when its flag or `--all` is given or no flag is, and the list is strictly ordered, so without duplicates |
| Command.NoFlagsSelectsAll | quarkc/command.py:166 | with no target flag all four backends are chosen (an instance of `Command.ChosenBackends`) |
| Command.OneFlagSelectsOne | quarkc/command.py:166-186 | with one target flag exactly that backend is chosen (an instance of `Command.ChosenBackends`) |
| SlackJava.User.constructor | quark/test/emit/slackpack/java/slack/User.java:10-13 | the constructor stores its `client` and `user` arguments |
| SlackJava.User.GetClass | quark/test/emit/slackpack/java/slack/User.java:14-16 | `_getClass()` is `"slack.User"`, the class id the mapper reads |
| SlackJava.User.GetField | quark/test/emit/slackpack/java/slack/User.java:17-25 | `_getField` answers the current value of `client` or `user`, and null for any other name |
| SlackJava.User.SetField | quark/test/emit/slackpack/java/slack/User.java:26-33 | `_setField` of a declared name makes `_getField` answer the value, leaves the other field unchanged and fails the cast on a value of the wrong class; an unknown name changes nothing |
| SlackRuby.SlackHandler.OnSlackEvent | quarkc/test/ffi/expected/rb/slackpack/lib/slack.rb:28-33 | the callback returns nil |
| SlackRuby.SlackHandler.OnHello | quarkc/test/ffi/expected/rb/slackpack/lib/slack.rb:35-40 | the callback returns nil |
| SlackRuby.SlackHandler.OnSlackError | quarkc/test/ffi/expected/rb/slackpack/lib/slack.rb:42-47 | the callback returns nil |
| SlackRuby.SlackHandler.OnMessage | quarkc/test/ffi/expected/rb/slackpack/lib/slack.rb:49-54 | the callback returns nil |
| SlackRuby.User.constructor | quarkc/test/ffi/expected/rb/slackpack/lib/slack.rb:75-80 | `initialize` ignores its arguments and leaves both fields nil |
| SlackRuby.User.InitFields | quarkc/test/ffi/expected/rb/slackpack/lib/slack.rb:117-123 | `__init_fields__` sets every declared field to nil |
| SlackRuby.User.GetClass | quarkc/test/ffi/expected/rb/slackpack/lib/slack.rb:85-90 | `_getClass` is `"slack.User"` |
| SlackRuby.User.GetField | quarkc/test/ffi/expected/rb/slackpack/lib/slack.rb:92-103 | `_getField` answers the named field, and nil for an unknown name |
| SlackRuby.User.SetField | quarkc/test/ffi/expected/rb/slackpack/lib/slack.rb:105-115 | `_setField` assigns only the named field, and an unknown name changes nothing |
| SlackRuby.Channel.constructor | quarkc/test/ffi/expected/rb/slackpack/lib/slack.rb:138-143 | `initialize` ignores its arguments and leaves both fields nil |
| SlackRuby.Channel.Send | quarkc/test/ffi/expected/rb/slackpack/lib/slack.rb:148-153 | `send` returns nil |
| SlackRuby.Channel.InitFields | quarkc/test/ffi/expected/rb/slackpack/lib/slack.rb:187-193 | `__init_fields__` sets every declared field to nil |
| SlackRuby.Channel.GetClass | quarkc/test/ffi/expected/rb/slackpack/lib/slack.rb:155-160 | `_getClass` is `"slack.Channel"` |
| SlackRuby.Channel.GetField | quarkc/test/ffi/expected/rb/slackpack/lib/slack.rb:162-173 | `_getField` answers the named field, and nil for an unknown name |
| SlackRuby.Channel.SetField | quarkc/test/ffi/expected/rb/slackpack/lib/slack.rb:175-185 | `_setField` assigns only the named field, and an unknown name changes nothing |
| SlackRuby.Client.constructor | quarkc/test/ffi/expected/rb/slackpack/lib/slack.rb:209-214 | `initialize` ignores its arguments and leaves all five fields nil |
| SlackRuby.Client.InitFields | quarkc/test/ffi/expected/rb/slackpack/lib/slack.rb:388-397 | `__init_fields__` sets every declared field to nil |
| SlackRuby.Client.Connect | quarkc/test/ffi/expected/rb/slackpack/lib/slack.rb:219-224 | the network stub returns nil |
| SlackRuby.Client.Request | quarkc/test/ffi/expected/rb/slackpack/lib/slack.rb:226-231 | the network stub returns nil |
| SlackRuby.Client.WsConnect | quarkc/test/ffi/expected/rb/slackpack/lib/slack.rb:233-238 | the network stub returns nil |
| SlackRuby.Client.WsSend | quarkc/test/ffi/expected/rb/slackpack/lib/slack.rb:240-245 | the network stub returns nil |
| SlackRuby.Client.OnWSConnected | quarkc/test/ffi/expected/rb/slackpack/lib/slack.rb:247-252 | the callback returns nil |
| SlackRuby.Client.OnWSClose | quarkc/test/ffi/expected/rb/slackpack/lib/slack.rb:254-259 | the callback returns nil |
| SlackRuby.Client.OnWSError | quarkc/test/ffi/expected/rb/slackpack/lib/slack.rb:261-266 | the callback returns nil |
| SlackRuby.Client.Construct | quarkc/test/ffi/expected/rb/slackpack/lib/slack.rb:268-273 | `construct` returns nil |
| SlackRuby.Client.OnWSMessage | quarkc/test/ffi/expected/rb/slackpack/lib/slack.rb:275-280 | the callback returns nil |
| SlackRuby.Client.OnHTTPResponse | quarkc/test/ffi/expected/rb/slackpack/lib/slack.rb:282-287 | the callback returns nil |
| SlackRuby.Client.OnWSInit | quarkc/test/ffi/expected/rb/slackpack/lib/slack.rb:339-344 | the callback returns nil |
| SlackRuby.Client.OnWSBinary | quarkc/test/ffi/expected/rb/slackpack/lib/slack.rb:346-351 | the callback returns nil |
| SlackRuby.Client.OnWSClosed | quarkc/test/ffi/expected/rb/slackpack/lib/slack.rb:353-358 | the callback returns nil |
| SlackRuby.Client.OnWSFinal | quarkc/test/ffi/expected/rb/slackpack/lib/slack.rb:360-365 | the callback returns nil |
| SlackRuby.Client.OnHTTPInit | quarkc/test/ffi/expected/rb/slackpack/lib/slack.rb:367-372 | the callback returns nil |
| SlackRuby.Client.OnHTTPError | quarkc/test/ffi/expected/rb/slackpack/lib/slack.rb:374-379 | the callback returns nil |
| SlackRuby.Client.OnHTTPFinal | quarkc/test/ffi/expected/rb/slackpack/lib/slack.rb:381-386 | the callback returns nil |
| SlackRuby.Client.GetClass | quarkc/test/ffi/expected/rb/slackpack/lib/slack.rb:289-294 | `_getClass` is `"slack.Client"` |
| SlackRuby.Client.GetField | quarkc/test/ffi/expected/rb/slackpack/lib/slack.rb:296-316 | `_getField` answers the named field, and nil for an unknown name |
| SlackRuby.Client.SetField | quarkc/test/ffi/expected/rb/slackpack/lib/slack.rb:318-337 | `_setField` assigns only the named field, and an unknown name changes nothing |

## Left out

- The runtime's JSON object is not part of this model. Its contract is taken from how the
  generated code and the tests use it. JSON text is a token sequence: character-level
  syntax, number formatting and UTF-8 are left out.
- Numbers are exact reals, not IEEE doubles. `Math.round` is `floor(x + 1/2)`, and the
  `(int)` cast wraps modulo 2^32 (`Mapper.ToInt32`). The rounding, saturation and
  precision of `double` are left out.
- `JsonValue.ToString` and `JsonValue.Parse`: `toString`/`parse` are stated through the
  token model and its round trip, not through the runtime's text format.
- `Builtins._getClass`/`_getField` are modelled by reading the class id and the fields of
  a `Mapper.Value`. The mapper's `Class.getFields()` and `Class.construct(...)` delegate
  to the `_fields`/`_construct` tables, modelled as the registry's `fields` and
  `construct`.
- `_construct` of `Client` and `Server<Object>` needs a network `Runtime`. The model
  builds records holding the given arguments and checks only the argument count and the
  casts it can see.
- Record classes whose field types form a cycle are left out. `fromJSON` is modelled for
  registries whose record classes nest (`Ranked`), which the json_tests tables do
  (`ClassTables.JsonTestsRanked`).
- Casts of Java generics ignore subclassing. A value is accepted for a class exactly when
  it is of that kind.
- `CodeGen.Unquote`: Python's `int(..., 16)` would also accept a sign, whitespace or an
  underscore inside `\x..`. The model accepts one or two hexadecimal digits (the slice
  after `\x` is at most two characters) and treats every other `\x` as an error. A literal
  shorter than two characters unquotes to the empty string, as in the source.
- The `@match` multimethod dispatch, the `ir`, `ast`, `types` and `typespace` modules and
  the compilers of classes, methods, calls and numbers are not part of this model.
  Source statements are reduced to two shapes. One is a statement that compiles on its own
  and hoists nothing. The other is a `switch`, whose case bodies are blocks. The switch
  expression's type is a string.
- `CodeGen.Code.CompileSwitch`: compiling an expression hoists nothing in the model (`Source(id)`
  stands for an already compiled expression). In quarkc/code.py:543-563 the list and map literal
  compilers call `temp` and `add`, so a literal in a switch expression, a case value or a
  statement puts a temporary and its filling statements into the enclosing block first; those
  temporaries and hoisted statements are not modelled.
- `CodeGen.Code.CompileSwitch`: a `switch` with no case is not lowered (the source has no
  rule for it), so the model's case chain is never empty.
- `CodeGen.TemplateRenders`: `str.format` is modelled only for `{{`, `}}` and `{name}`.
  Format specifications, indexing and attribute access are left out.
- `pretty` and `multiline` in `quarkc/tree.py` rely on `repr` and `textwrap` and are not
  modelled.
- Node identity (`id(node)`) is the node's `id` field. Only `ConsistentIds` is assumed (one
  node per id). A node shared between two parents is allowed: the parent map keeps the parent
  recorded last in breadth-first order.
- `isinstance` over Python types is the node's `kind` string being in a set of kinds.
- `Tree.Indent.Exit`: the context's exit runs only when the body does not raise. The
  exceptional exit that would skip the decrement is left out.
- `quarkc/command.py`:
  - `main`'s docopt parsing, `shell.check`, the `install` checks, logging set-up and
    compiler invocation are left out.
  - The stream writes are the handler's `written` string, and `flush` is left out.
  - The formatter is the identity on the message.
- `DatawireQuarkCore.cast` in the Ruby package is the identity, so `_setField` assigns any
  value.
- `quarkc/c2/compiler.py`, the JavaScript reflection glue and `setup.py` are not part of
  this model.
- Console output of the test programs is modelled by the values they would print, not the
  printed text.
