/**
 * The scenarios of the generated `json_test` program: values that survive
 * `parse(toString())`, and the two loops that walk a list item by item
 * until `getListItem` answers `undefined()`.
 */
module JsonTest {
  import opened Wrappers
  import opened JsonValue

  /** `test_roundtrip`: the empty object, the empty list, `""`, `false`, `true` and null all survive text. */
  lemma RoundTripScenarios()
    ensures forall v :: v in [Object([]), List([]), String(""), Bool(false), Bool(true), Null] ==>
      ToString(v).Ok? && Parse(ToString(v).value) == Ok(v)
  {
    forall v | v in [Object([]), List([]), String(""), Bool(false), Bool(true), Null]
      ensures ToString(v).Ok? && Parse(ToString(v).value) == Ok(v)
    {
      ParseToStringRoundTrip(v);
    }
  }

  /** What `test_iterate_list` prints: the numbers it read, and whether it gave up with "Error!". */
  datatype Iteration = Iteration(printed: seq<real>, gaveUp: bool)

  function Min(a: int, b: int): int { if a <= b then a else b }

  /** The items a `getListItem` loop sees: those before the first `undefined()`. */
  function Present(items: seq<Json>): (r: seq<Json>)
    ensures |r| <= |items| && r == items[..|r|]
    ensures forall k :: 0 <= k < |r| ==> r[k] != Undefined
    ensures |r| < |items| ==> items[|r|] == Undefined
  {
    if items == [] || items[0] == Undefined then []
    else [items[0]] + Present(items[1..])
  }

  /**
   * The loop of `test_iterate_list`: reads and prints numbers until
   * `getListItem` answers `undefined()`, giving up with "Error!" once the
   * index passes 10.  It reads the first `min(n, 11)` items present; it
   * fails on the first of them that is not a number, and gives up exactly
   * when more than 10 items are present.
   */
  method IterateList(l: Json) returns (r: Result<Iteration, JsonError>)
    ensures var p := Present(l.ListView()); var m := Min(|p|, 11);
      (r.Ok? <==> forall k :: 0 <= k < m ==> p[k].Number?) &&
      (r.Ok? ==> r.value == Iteration(seq(m, k requires 0 <= k < m => p[k].n), |p| > 10)) &&
      (r.Err? ==> r.error == TypeMismatch)
  {
    ghost var seen := Present(l.ListView());
    var i := 0;
    var printed: seq<real> := [];
    var item := l.GetListItem(i);
    while item != Undefined
      invariant 0 <= i <= 10 && i <= |seen| && |printed| == i
      invariant item == l.GetListItem(i)
      invariant forall k :: 0 <= k < i ==> seen[k] == Number(printed[k])
      decreases 10 - i
    {
      assert i < |seen|;
      var x := item.GetNumber();
      if x.Err? {
        assert i < Min(|seen|, 11) && !seen[i].Number?;
        return Err(x.error);
      }
      printed := printed + [x.value];
      i := i + 1;
      item := l.GetListItem(i);
      if i > 10 {
        assert printed == seq(11, k requires 0 <= k < 11 => seen[k].n);
        return Ok(Iteration(printed, true));
      }
    }
    assert i == |seen|;
    assert printed == seq(i, k requires 0 <= k < i => seen[k].n);
    return Ok(Iteration(printed, false));
  }

  /** The strings of a list, in order; `None` when one of them is not a string. */
  function Strings(items: seq<Json>): (r: Option<seq<string>>)
    ensures r.Some? <==> forall k :: 0 <= k < |items| ==> items[k].String?
    ensures r.Some? ==> |r.value| == |items| && forall k :: 0 <= k < |items| ==> items[k] == String(r.value[k])
  {
    if items == [] then Some([])
    else if !items[0].String? then None
    else match Strings(items[1..])
      case None => None
      case Some(rest) => Some([items[0].s] + rest)
  }

  /**
   * The loop of `test_iterate_list_directory`: reads and prints strings
   * until `getListItem` answers `undefined()`; there is no bound on the
   * index, and the first item that is not a string is a `TypeMismatch`.
   */
  method IterateStrings(l: Json) returns (r: Result<seq<string>, JsonError>)
    ensures r.Ok? <==> Strings(Present(l.ListView())).Some?
    ensures r.Ok? ==> r.value == Strings(Present(l.ListView())).value
    ensures r.Err? ==> r.error == TypeMismatch
  {
    ghost var seen := Present(l.ListView());
    var i := 0;
    var printed: seq<string> := [];
    var item := l.GetListItem(i);
    while item != Undefined
      invariant 0 <= i <= |seen| && |printed| == i
      invariant item == l.GetListItem(i)
      invariant forall k :: 0 <= k < i ==> seen[k] == String(printed[k])
      decreases |seen| - i
    {
      assert i < |seen|;
      var x := item.GetString();
      if x.Err? {
        assert !seen[i].String?;
        return Err(x.error);
      }
      printed := printed + [x.value];
      i := i + 1;
      item := l.GetListItem(i);
    }
    assert i == |seen|;
    return Ok(printed);
  }

  /** A list of three strings is all present, and its strings are those three. */
  lemma ThreeStrings(a: string, b: string, c: string)
    ensures Present([String(a), String(b), String(c)]) == [String(a), String(b), String(c)]
    ensures Strings([String(a), String(b), String(c)]) == Some([a, b, c])
  {
    var items := [String(a), String(b), String(c)];
    assert items[1..] == [String(b), String(c)] && items[1..][1..] == [String(c)];
    assert [String(c)][1..] == [] && [c] == [c] + [] && [b, c] == [b] + [c] && [a, b, c] == [a] + [b, c];
    assert Present([String(c)]) == [String(c)] && Strings([String(c)]) == Some([c]);
    assert Present([String(b), String(c)]) == [String(b), String(c)] && Strings([String(b), String(c)]) == Some([b, c]);
  }

  /** The literal list `test_iterate_list` parses: seven numbers. */
  const Seven: seq<real> := [1.2, 2.3, 3.4, 4.5, 5.6, 6.7, 7.8]

  /** `test_iterate_list`: the parsed list prints all seven numbers and never reaches "Error!". */
  method TestIterateList() returns (r: Result<Iteration, JsonError>)
    ensures r == Ok(Iteration(Seven, false))
  {
    var v := List(seq(7, k requires 0 <= k < 7 => Number(Seven[k])));
    ParseToStringRoundTrip(v);
    var l := Parse(ToString(v).value).value;
    r := IterateList(l);
    assert Min(|l.items|, 11) == 7;
    assert r.value.printed == Seven;
  }

  /**
   * `test_iterate_list_directory`: an object whose "endpoints" is a list of
   * three strings, built with the chaining setters, is written, parsed back,
   * and its endpoints come out in order.
   */
  method TestIterateListDirectory() returns (r: Result<seq<string>, JsonError>)
    ensures r == Ok(["endpoint0", "endpoint1", "endpoint2"])
  {
    var l0 := Fresh.SetListItem(0, String("endpoint0")).value;
    var l1 := l0.SetListItem(1, String("endpoint1")).value;
    var l2 := l1.SetListItem(2, String("endpoint2")).value;
    ThreeItems(l0, l1, l2, String("endpoint0"), String("endpoint1"), String("endpoint2"));
    var message := Fresh.SetObjectItem("endpoints", l2);
    SingleEntryRoundTrip("endpoints", l2, message);
    var jobj := Parse(ToString(message).value).value;
    var endpoints := jobj.GetObjectItem("endpoints");
    ThreeStrings("endpoint0", "endpoint1", "endpoint2");
    r := IterateStrings(endpoints);
  }

  /** Three chained `setListItem` calls on a fresh value build the list of those three items. */
  lemma ThreeItems(l0: Json, l1: Json, l2: Json, a: Json, b: Json, c: Json)
    requires Fresh.SetListItem(0, a) == Ok(l0)
    requires l0.SetListItem(1, b) == Ok(l1)
    requires l1.SetListItem(2, c) == Ok(l2)
    ensures l2 == List([a, b, c])
  {
    assert l0 == List([a]);
    assert l1 == List([a, b]);
  }

  /** An object with one well-formed entry, written and parsed back, still holds it under its key. */
  lemma SingleEntryRoundTrip(key: string, v: Json, message: Json)
    requires WellFormed(v) && message == Fresh.SetObjectItem(key, v)
    ensures ToString(message).Ok? && Parse(ToString(message).value).Ok?
    ensures Parse(ToString(message).value).value.GetObjectItem(key) == v
  {
    assert message == Object([(key, v)]);
    assert WellFormed(message) by {
      assert message.entries[0].1 == v;
    }
    ParseToStringRoundTrip(message);
  }
}
