/**
 * The document value that the generated Java code manipulates through
 * `io.datawire.quark.runtime.JSONObject`: a tagged JSON value with the
 * distinguished `Undefined` sentinel, its chaining setters, its total
 * accessors, and text conversion.
 *
 * The runtime class itself is not part of this model; the operations below
 * carry the contracts that its callers rely on.  Text is modelled one level
 * above characters: `ToString` produces a stream of JSON tokens and `Parse`
 * reads one back, following the JSON grammar.
 */
module JsonValue {
  import opened Wrappers

  datatype JsonError = TypeMismatch | IndexError | SerializeError | ParseError

  /** One key/value entry of an object; objects keep insertion order. */
  type Entry = (string, Json)

  datatype Json =
    | Null
    | Bool(b: bool)
    | Number(n: real)
    | String(s: string)
    | List(items: seq<Json>)
    | Object(entries: seq<Entry>)
    | Undefined
  {
    /** `isNull()`: true for the JSON null only (not for `Undefined`). */
    predicate IsNull() { Null? }

    /** The items a list-setter starts from: a value of another variant is coerced to an empty list. */
    function ListView(): seq<Json> { if List? then items else [] }

    /** The entries an object-setter starts from: a value of another variant is coerced to an empty object. */
    function ObjectView(): seq<Entry> { if Object? then entries else [] }

    /** `size()`: number of items of a list or entries of an object. */
    function Size(): nat { if List? then |items| else if Object? then |entries| else 0 }

    /** `getListItem(i)`: the item, or `Undefined` outside `0 <= i < size` or on a non-list. */
    function GetListItem(i: int): Json
    {
      if List? && 0 <= i < |items| then items[i] else Undefined
    }

    /** `getObjectItem(key)`: the value stored under `key`, or `Undefined`. */
    function GetObjectItem(key: string): Json
    {
      if Object? then Lookup(entries, key) else Undefined
    }

    function GetString(): Result<string, JsonError>
    {
      if String? then Ok(s) else Err(TypeMismatch)
    }

    function GetNumber(): Result<real, JsonError>
    {
      if Number? then Ok(n) else Err(TypeMismatch)
    }

    function GetBool(): Result<bool, JsonError>
    {
      if Bool? then Ok(b) else Err(TypeMismatch)
    }

    /**
     * `setListItem(i, v)`: replaces item `i`, or appends when `i` is the
     * current length; any other index is an `IndexError` (no padding).
     */
    function SetListItem(i: int, v: Json): (r: Result<Json, JsonError>)
      ensures r.Ok? <==> 0 <= i <= |ListView()|
      ensures r.Ok? ==> r.value.List?
      ensures r.Ok? ==> |r.value.items| == if i == |ListView()| then i + 1 else |ListView()|
      ensures r.Ok? ==> r.value.items[i] == v
      ensures r.Ok? ==> forall j :: 0 <= j < |ListView()| && j != i ==> r.value.items[j] == ListView()[j]
    {
      var old_ := ListView();
      if 0 <= i < |old_| then Ok(List(old_[i := v]))
      else if i == |old_| then Ok(List(old_ + [v]))
      else Err(IndexError)
    }

    /**
     * `setObjectItem(key, v)`: replaces the value of an existing key in its
     * position, or appends a new key at the end.
     */
    function SetObjectItem(key: string, v: Json): (r: Json)
      ensures r.Object?
      ensures r.GetObjectItem(key) == v
      ensures forall k {:trigger r.GetObjectItem(k)} :: k != key ==> r.GetObjectItem(k) == Lookup(ObjectView(), k)
      ensures key in KeysOf(ObjectView()) ==> KeysOf(r.entries) == KeysOf(ObjectView())
      ensures key !in KeysOf(ObjectView()) ==> r.entries == ObjectView() + [(key, v)]
    {
      PutLemma(ObjectView(), key, v);
      Object(Put(ObjectView(), key, v))
    }
  }

  /** The value of a fresh `new JSONObject()`: not yet any JSON variant. */
  const Fresh: Json := Undefined

  function KeysOf(es: seq<Entry>): (ks: seq<string>)
    ensures |ks| == |es|
    ensures forall i :: 0 <= i < |es| ==> ks[i] == es[i].0
  {
    if es == [] then [] else [es[0].0] + KeysOf(es[1..])
  }

  predicate UniqueKeys(es: seq<Entry>)
  {
    forall i, j :: 0 <= i < j < |es| ==> es[i].0 != es[j].0
  }

  /** The value of the first entry with `key`, or `Undefined`. */
  function Lookup(es: seq<Entry>, key: string): Json
  {
    if es == [] then Undefined
    else if es[0].0 == key then es[0].1
    else Lookup(es[1..], key)
  }

  /** Insert-or-replace on an entry list. */
  function Put(es: seq<Entry>, key: string, v: Json): seq<Entry>
  {
    if es == [] then [(key, v)]
    else if es[0].0 == key then [(key, v)] + es[1..]
    else [es[0]] + Put(es[1..], key, v)
  }

  lemma {:induction false} LookupPresent(es: seq<Entry>, key: string)
    requires key in KeysOf(es)
    ensures exists i :: 0 <= i < |es| && es[i].0 == key && Lookup(es, key) == es[i].1
  {
    if es[0].0 != key {
      assert key in KeysOf(es[1..]);
      LookupPresent(es[1..], key);
      var i :| 0 <= i < |es[1..]| && es[1..][i].0 == key && Lookup(es[1..], key) == es[1..][i].1;
      assert es[i + 1] == es[1..][i];
    }
  }

  lemma {:induction false} LookupAbsent(es: seq<Entry>, key: string)
    requires key !in KeysOf(es)
    ensures Lookup(es, key) == Undefined
  {
    if es != [] {
      assert KeysOf(es) == [es[0].0] + KeysOf(es[1..]);
      LookupAbsent(es[1..], key);
    }
  }

  /** In an object with unique keys, the lookup of the key at position i finds entry i. */
  lemma {:induction false} LookupUnique(es: seq<Entry>, i: nat)
    requires UniqueKeys(es) && i < |es|
    ensures Lookup(es, es[i].0) == es[i].1
  {
    if i > 0 {
      LookupUnique(es[1..], i - 1);
    }
  }

  lemma {:induction false} PutLemma(es: seq<Entry>, key: string, v: Json)
    ensures Lookup(Put(es, key, v), key) == v
    ensures forall k :: k != key ==> Lookup(Put(es, key, v), k) == Lookup(es, k)
    ensures key in KeysOf(es) ==> KeysOf(Put(es, key, v)) == KeysOf(es)
    ensures key !in KeysOf(es) ==> Put(es, key, v) == es + [(key, v)]
  {
    if es != [] && es[0].0 != key {
      PutLemma(es[1..], key, v);
      assert KeysOf(es) == [es[0].0] + KeysOf(es[1..]);
      assert KeysOf(Put(es, key, v)) == [es[0].0] + KeysOf(Put(es[1..], key, v));
    } else if es != [] {
      assert KeysOf(Put(es, key, v)) == [key] + KeysOf(es[1..]);
      assert KeysOf(es) == [es[0].0] + KeysOf(es[1..]);
    }
  }

  /** Putting into an entry list with unique keys keeps the keys unique. */
  lemma PutKeepsUnique(es: seq<Entry>, key: string, v: Json)
    requires UniqueKeys(es)
    ensures UniqueKeys(Put(es, key, v))
  {
    PutLemma(es, key, v);
    var r := Put(es, key, v);
    if key in KeysOf(es) {
      forall i, j | 0 <= i < j < |r| ensures r[i].0 != r[j].0 {
        assert r[i].0 == KeysOf(r)[i] == KeysOf(es)[i];
        assert r[j].0 == KeysOf(r)[j] == KeysOf(es)[j];
      }
    } else {
      forall i, j | 0 <= i < j < |r| ensures r[i].0 != r[j].0 {
        if j == |es| {
          assert r[i].0 == KeysOf(es)[i];
        }
      }
    }
  }

  /** No `Undefined` anywhere and unique keys in every object: what the setters and `Parse` produce. */
  predicate WellFormed(v: Json)
  {
    match v
    case Undefined => false
    case List(items) => forall i :: 0 <= i < |items| ==> WellFormed(items[i])
    case Object(es) => UniqueKeys(es) && forall i :: 0 <= i < |es| ==> WellFormed(es[i].1)
    case _ => true
  }

  /** No `Undefined` anywhere: exactly the values that can be serialised. */
  predicate Defined(v: Json)
  {
    match v
    case Undefined => false
    case List(items) => forall i :: 0 <= i < |items| ==> Defined(items[i])
    case Object(es) => forall i :: 0 <= i < |es| ==> Defined(es[i].1)
    case _ => true
  }

  /** The chaining setters keep a well-formed value well-formed. */
  lemma {:induction false} SettersKeepWellFormed(d: Json, i: int, key: string, v: Json)
    requires WellFormed(d) || d == Fresh
    requires WellFormed(v)
    ensures d.SetListItem(i, v).Ok? ==> WellFormed(d.SetListItem(i, v).value)
    ensures WellFormed(d.SetObjectItem(key, v))
  {
    var r := d.SetObjectItem(key, v);
    PutKeepsUnique(d.ObjectView(), key, v);
    forall j | 0 <= j < |r.entries| ensures WellFormed(r.entries[j].1) {
      if r.entries[j].1 != v {
        LookupUnique(r.entries, j);
        assert r.GetObjectItem(r.entries[j].0) == r.entries[j].1;
        assert r.entries[j].0 != key;
        var es := d.ObjectView();
        if r.entries[j].0 in KeysOf(es) {
          LookupPresent(es, r.entries[j].0);
        } else {
          LookupAbsent(es, r.entries[j].0);
        }
      }
    }
  }

  // ---------------------------------------------------------------------
  // Text conversion, at the level of JSON tokens.

  datatype Token =
    | LBrace | RBrace | LBracket | RBracket | Comma | Colon
    | StrTok(text: string) | NumTok(num: real) | TrueTok | FalseTok | NullTok

  /** The tokens of a value: `[` items separated by `,` `]`, `{` `key : value` pairs separated by `,` `}`. */
  function Tokens(v: Json): seq<Token>
    decreases v, 1
  {
    match v
    case Null => [NullTok]
    case Bool(b) => if b then [TrueTok] else [FalseTok]
    case Number(n) => [NumTok(n)]
    case String(s) => [StrTok(s)]
    case List(items) =>
      if items == [] then [LBracket, RBracket] else [LBracket] + Tokens(items[0]) + ListTail(v, 1)
    case Object(es) =>
      if es == [] then [LBrace, RBrace] else [LBrace] + MemberTokens(v, 0) + ObjectTail(v, 1)
    case Undefined => []
  }

  /** The tokens after item `i - 1` of a list: `, item` for every later item, then `]`. */
  function ListTail(v: Json, i: nat): seq<Token>
    requires v.List? && i <= |v.items|
    decreases v, 0, |v.items| - i
  {
    if i == |v.items| then [RBracket] else [Comma] + Tokens(v.items[i]) + ListTail(v, i + 1)
  }

  function MemberTokens(v: Json, i: nat): seq<Token>
    requires v.Object? && i < |v.entries|
    decreases v, 0, 0
  {
    [StrTok(v.entries[i].0), Colon] + Tokens(v.entries[i].1)
  }

  /** The tokens after entry `i - 1` of an object: `, key : value` for every later entry, then `}`. */
  function ObjectTail(v: Json, i: nat): seq<Token>
    requires v.Object? && i <= |v.entries|
    decreases v, 0, |v.entries| - i
  {
    if i == |v.entries| then [RBrace] else [Comma] + MemberTokens(v, i) + ObjectTail(v, i + 1)
  }

  /** `toString()`: fails on a value holding the `Undefined` sentinel. */
  function ToString(v: Json): (r: Result<seq<Token>, JsonError>)
    ensures r.Err? <==> !Defined(v)
  {
    if Defined(v) then Ok(Tokens(v)) else Err(SerializeError)
  }

  /** Reads one value from the front of `ts`; returns it with the tokens left over. */
  function ParseValue(ts: seq<Token>): (r: Result<(Json, seq<Token>), JsonError>)
    ensures r.Ok? ==> |r.value.1| < |ts| && WellFormed(r.value.0)
    decreases |ts|, 1
  {
    if ts == [] then Err(ParseError)
    else match ts[0]
      case NullTok => Ok((Null, ts[1..]))
      case TrueTok => Ok((Bool(true), ts[1..]))
      case FalseTok => Ok((Bool(false), ts[1..]))
      case NumTok(n) => Ok((Number(n), ts[1..]))
      case StrTok(s) => Ok((String(s), ts[1..]))
      case LBracket =>
        if |ts| > 1 && ts[1] == RBracket then Ok((List([]), ts[2..]))
        else
          var first :- ParseValue(ts[1..]);
          ParseListTail(first.1, [first.0])
      case LBrace =>
        if |ts| > 1 && ts[1] == RBrace then Ok((Object([]), ts[2..]))
        else ParseMember(ts[1..], [])
      case _ => Err(ParseError)
  }

  function ParseListTail(ts: seq<Token>, acc: seq<Json>): (r: Result<(Json, seq<Token>), JsonError>)
    requires forall i :: 0 <= i < |acc| ==> WellFormed(acc[i])
    ensures r.Ok? ==> |r.value.1| < |ts| && WellFormed(r.value.0)
    decreases |ts|, 0
  {
    if ts == [] then Err(ParseError)
    else if ts[0] == RBracket then Ok((List(acc), ts[1..]))
    else if ts[0] == Comma then
      var next :- ParseValue(ts[1..]);
      ParseListTail(next.1, acc + [next.0])
    else Err(ParseError)
  }

  /** Reads `key : value` and stores it as `setObjectItem` would. */
  function ParseMember(ts: seq<Token>, acc: seq<Entry>): (r: Result<(Json, seq<Token>), JsonError>)
    requires UniqueKeys(acc) && forall i :: 0 <= i < |acc| ==> WellFormed(acc[i].1)
    ensures r.Ok? ==> |r.value.1| < |ts| && WellFormed(r.value.0)
    decreases |ts|, 0
  {
    if |ts| < 2 || !ts[0].StrTok? || ts[1] != Colon then Err(ParseError)
    else
      var member :- ParseValue(ts[2..]);
      var acc' := Put(acc, ts[0].text, member.0);
      assert WellFormed(Object(acc').GetObjectItem(ts[0].text)) && WellFormed(Object(acc'))
      by {
        SettersKeepWellFormed(Object(acc), 0, ts[0].text, member.0);
      }
      ParseObjectTail(member.1, acc')
  }

  function ParseObjectTail(ts: seq<Token>, acc: seq<Entry>): (r: Result<(Json, seq<Token>), JsonError>)
    requires UniqueKeys(acc) && forall i :: 0 <= i < |acc| ==> WellFormed(acc[i].1)
    ensures r.Ok? ==> |r.value.1| < |ts| && WellFormed(r.value.0)
    decreases |ts|, 0
  {
    if ts == [] then Err(ParseError)
    else if ts[0] == RBrace then Ok((Object(acc), ts[1..]))
    else if ts[0] == Comma then ParseMember(ts[1..], acc)
    else Err(ParseError)
  }

  /** `JSONObject.parse(text)`: exactly one value and nothing after it; never yields `Undefined`. */
  function Parse(ts: seq<Token>): (r: Result<Json, JsonError>)
    ensures r.Ok? ==> WellFormed(r.value)
  {
    var p :- ParseValue(ts);
    if p.1 == [] then Ok(p.0) else Err(ParseError)
  }

  lemma {:induction false} WellFormedIsDefined(v: Json)
    requires WellFormed(v)
    ensures Defined(v)
    decreases v
  {
    match v
    case List(items) =>
      forall i | 0 <= i < |items| ensures Defined(items[i]) {
        WellFormedIsDefined(items[i]);
      }
    case Object(es) =>
      forall i | 0 <= i < |es| ensures Defined(es[i].1) {
        WellFormedIsDefined(es[i].1);
      }
    case _ =>
  }

  /** The tokens of a well-formed value never start with a closing bracket or brace. */
  lemma TokensStart(v: Json)
    requires WellFormed(v)
    ensures |Tokens(v)| > 0 && Tokens(v)[0] != RBracket && Tokens(v)[0] != RBrace
  {
  }

  /** Reading back the tokens of a well-formed value yields that value and leaves what follows untouched. */
  lemma {:induction false} ParseTokens(v: Json, rest: seq<Token>)
    requires WellFormed(v)
    ensures ParseValue(Tokens(v) + rest) == Ok((v, rest))
    decreases v, 2
  {
    match v
    case List(items) =>
      if items == [] {
        assert Tokens(v) + rest == [LBracket, RBracket] + rest;
      } else {
        ParseListTokens(v, rest);
      }
    case Object(es) =>
      if es == [] {
        assert Tokens(v) + rest == [LBrace, RBrace] + rest;
      } else {
        ParseObjectTokens(v, rest);
      }
    case _ =>
  }

  lemma {:induction false} ParseListTokens(v: Json, rest: seq<Token>)
    requires WellFormed(v) && v.List? && v.items != []
    ensures ParseValue(Tokens(v) + rest) == Ok((v, rest))
    decreases v, 1
  {
    var items := v.items;
    var ts := Tokens(v) + rest;
    assert ts == [LBracket] + (Tokens(items[0]) + (ListTail(v, 1) + rest));
    TokensStart(items[0]);
    ParseTokens(items[0], ListTail(v, 1) + rest);
    assert ts[1..] == Tokens(items[0]) + (ListTail(v, 1) + rest);
    ParseListTailTokens(v, 1, rest);
    assert items[..1] == [items[0]];
  }

  lemma {:induction false} ParseObjectTokens(v: Json, rest: seq<Token>)
    requires WellFormed(v) && v.Object? && v.entries != []
    ensures ParseValue(Tokens(v) + rest) == Ok((v, rest))
    decreases v, 1
  {
    var ts := Tokens(v) + rest;
    assert ts == [LBrace] + (MemberTokens(v, 0) + ObjectTail(v, 1) + rest);
    assert ts[1..] == MemberTokens(v, 0) + ObjectTail(v, 1) + rest;
    ParseMemberTokens(v, 0, rest);
    assert v.entries[..0] == [];
  }

  lemma {:induction false} ParseListTailTokens(v: Json, i: nat, rest: seq<Token>)
    requires WellFormed(v) && v.List? && i <= |v.items|
    ensures ParseListTail(ListTail(v, i) + rest, v.items[..i]) == Ok((v, rest))
    decreases v, 0, |v.items| - i
  {
    if i == |v.items| {
      assert v.items[..i] == v.items;
    } else {
      var ts := ListTail(v, i) + rest;
      var after := ListTail(v, i + 1) + rest;
      assert ts == [Comma] + (Tokens(v.items[i]) + after);
      assert ts[0] == Comma && ts[1..] == Tokens(v.items[i]) + after;
      ParseTokens(v.items[i], after);
      assert v.items[..i] + [v.items[i]] == v.items[..i + 1];
      assert ParseListTail(ts, v.items[..i]) == ParseListTail(after, v.items[..i + 1]);
      ParseListTailTokens(v, i + 1, rest);
    }
  }

  lemma {:induction false} ParseMemberTokens(v: Json, i: nat, rest: seq<Token>)
    requires WellFormed(v) && v.Object? && i < |v.entries|
    ensures ParseMember(MemberTokens(v, i) + ObjectTail(v, i + 1) + rest, v.entries[..i]) == Ok((v, rest))
    decreases v, 0, |v.entries| - i, 1
  {
    var es := v.entries;
    var tail := ObjectTail(v, i + 1) + rest;
    var ts := MemberTokens(v, i) + ObjectTail(v, i + 1) + rest;
    assert ts == [StrTok(es[i].0), Colon] + (Tokens(es[i].1) + tail);
    assert ts[2..] == Tokens(es[i].1) + tail;
    ParseTokens(es[i].1, tail);
    PutNewKey(es, i);
    assert ParseMember(ts, es[..i]) == ParseObjectTail(tail, es[..i + 1]);
    ParseObjectTailTokens(v, i + 1, rest);
  }

  lemma {:induction false} ParseObjectTailTokens(v: Json, i: nat, rest: seq<Token>)
    requires WellFormed(v) && v.Object? && 0 < i <= |v.entries|
    ensures ParseObjectTail(ObjectTail(v, i) + rest, v.entries[..i]) == Ok((v, rest))
    decreases v, 0, |v.entries| - i, 2
  {
    var es := v.entries;
    var tail := ObjectTail(v, i) + rest;
    if i == |es| {
      assert es[..i] == es;
    } else {
      assert tail == [Comma] + (MemberTokens(v, i) + ObjectTail(v, i + 1) + rest);
      assert tail[1..] == MemberTokens(v, i) + ObjectTail(v, i + 1) + rest;
      ParseMemberTokens(v, i, rest);
    }
  }

  /** With unique keys, storing entry i after the first i entries appends it. */
  lemma PutNewKey(es: seq<Entry>, i: nat)
    requires UniqueKeys(es) && i < |es|
    ensures Put(es[..i], es[i].0, es[i].1) == es[..i + 1]
  {
    assert es[i].0 !in KeysOf(es[..i]);
    PutLemma(es[..i], es[i].0, es[i].1);
    assert es[..i] + [(es[i].0, es[i].1)] == es[..i + 1];
  }

  /** The round-trip law: `parse(v.toString())` is `v` for every value built by the setters or by `parse`. */
  lemma ParseToStringRoundTrip(v: Json)
    requires WellFormed(v)
    ensures ToString(v).Ok?
    ensures Parse(ToString(v).value) == Ok(v)
  {
    WellFormedIsDefined(v);
    ParseTokens(v, []);
    assert Tokens(v) + [] == Tokens(v);
  }
}
