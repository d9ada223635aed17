/**
 * The parts of the quark compiler's `Code` pass (quarkc/code.py) that do
 * not depend on the type checker: string-literal unquoting, name mangling,
 * brace escaping of native template text, temporaries hoisted through a
 * statement stack, and the lowering of `switch` into nested `if`s.
 */
module CodeGen {
  import opened Wrappers

  // ---------------------------------------------------------------------
  // unquote

  /** `assert False` on an unknown escape letter; `int(…, 16)` failing on the digits after `\x`. */
  datatype UnquoteError = BadEscape | BadHex

  /** The value of a hex digit of either case: the digit `d` that renders as `c`. */
  function HexDigitValue(c: char): (r: Option<nat>)
    ensures r.Some? <==> ('0' <= c <= '9' || 'a' <= c <= 'f' || 'A' <= c <= 'F')
    ensures r.Some? ==> r.value < 16 && (c == HexDigit(r.value) || c == HexDigitUpper(r.value))
  {
    if '0' <= c <= '9' then Some(c as nat - '0' as nat)
    else if 'a' <= c <= 'f' then Some(c as nat - 'a' as nat + 10)
    else if 'A' <= c <= 'F' then Some(c as nat - 'A' as nat + 10)
    else None
  }

  /** `int(t, 16)` of the (at most two) characters the slice after `\x` holds. */
  function HexValue(t: string): (r: Option<nat>)
    requires |t| <= 2
    ensures |t| == 0 ==> r.None?
    ensures |t| == 1 ==> (r.Some? <==> HexDigitValue(t[0]).Some?)
    ensures |t| == 2 ==> (r.Some? <==> HexDigitValue(t[0]).Some? && HexDigitValue(t[1]).Some?)
    ensures r.Some? && |t| == 1 ==> HexDigitValue(t[0]) == Some(r.value)
    ensures r.Some? && |t| == 2 ==>
      r.value < 256 && HexDigitValue(t[0]) == Some(r.value / 16) && HexDigitValue(t[1]) == Some(r.value % 16)
  {
    if |t| == 0 then None
    else if |t| == 1 then HexDigitValue(t[0])
    else if HexDigitValue(t[0]).Some? && HexDigitValue(t[1]).Some? then
      var hi, lo := HexDigitValue(t[0]).value, HexDigitValue(t[1]).value;
      DigitPair(hi, lo);
      Some(16 * hi + lo)
    else None
  }

  /** Two base-16 digits `hi`, `lo` make a number below 256 whose quotient and remainder by 16 are them. */
  lemma DigitPair(hi: nat, lo: nat)
    requires hi < 16 && lo < 16
    ensures 16 * hi + lo < 256 && (16 * hi + lo) / 16 == hi && (16 * hi + lo) % 16 == lo
  {
  }

  function Min(a: int, b: int): int { if a <= b then a else b }

  /** One turn of the `unquote` loop at `idx`: the characters it appends and how far it advances. */
  function Step(s: string, idx: nat): (r: Result<(string, nat), UnquoteError>)
    requires idx + 1 < |s|
    ensures r.Ok? ==> 1 <= r.value.1 <= 4
  {
    if s[idx] != '\\' then Ok(([s[idx]], 1))
    else
      var next := s[idx + 1];
      if next == 'x' then
        var h := HexValue(s[idx + 2 .. Min(idx + 4, |s|)]);
        if h.None? then Err(BadHex) else Ok(([h.value as char], 4))
      else if next == 'n' then Ok(("\n", 2))
      else if next == 'r' then Ok(("\r", 2))
      else if next == 't' then Ok(("\t", 2))
      else if next == '"' then Ok(("\"", 2))
      else if next == '\\' then Ok(("\\", 2))
      else Err(BadEscape)
  }

  /** What the loop appends from `idx` on, up to (not including) the last character. */
  function UnquoteFrom(s: string, idx: nat): Result<string, UnquoteError>
    decreases |s| - idx
  {
    if idx + 1 < |s| then
      var st :- Step(s, idx);
      var rest :- UnquoteFrom(s, idx + st.1);
      Ok(st.0 + rest)
    else Ok([])
  }

  /** The value of a quoted literal: everything between the first and the last character, unescaped. */
  function Unescaped(s: string): Result<string, UnquoteError>
  {
    UnquoteFrom(s, 1)
  }

  function Prepend(p: string, r: Result<string, UnquoteError>): Result<string, UnquoteError>
  {
    match r
    case Ok(t) => Ok(p + t)
    case Err(e) => Err(e)
  }

  lemma PrependAssoc(a: string, b: string, r: Result<string, UnquoteError>)
    ensures Prepend(a, Prepend(b, r)) == Prepend(a + b, r)
  {
    if r.Ok? {
      assert a + (b + r.value) == a + b + r.value;
    }
  }

  lemma PrependNothing(r: Result<string, UnquoteError>)
    ensures Prepend([], r) == r
  {
    if r.Ok? {
      assert [] + r.value == r.value;
    }
  }

  /** `unquote(s)`: walks the literal between its quotes, appending characters and decoding escapes. */
  method Unquote(s: string) returns (r: Result<string, UnquoteError>)
    ensures r == Unescaped(s)
  {
    var value := "";
    var idx := 1;
    PrependNothing(UnquoteFrom(s, idx));
    while idx + 1 < |s|
      invariant 1 <= idx
      invariant Unescaped(s) == Prepend(value, UnquoteFrom(s, idx))
      decreases |s| - idx
    {
      ghost var st := Step(s, idx);
      if st.Ok? {
        PrependAssoc(value, st.value.0, UnquoteFrom(s, idx + st.value.1));
      }
      var c := s[idx];
      var next := s[idx + 1];
      if c == '\\' {
        if next == 'x' {
          var h := HexValue(s[idx + 2 .. Min(idx + 4, |s|)]);
          if h.None? {
            return Err(BadHex);
          }
          value := value + [h.value as char];
          idx := idx + 4;
        } else if next == 'n' {
          value := value + "\n";
          idx := idx + 2;
        } else if next == 'r' {
          value := value + "\r";
          idx := idx + 2;
        } else if next == 't' {
          value := value + "\t";
          idx := idx + 2;
        } else if next == '"' {
          value := value + "\"";
          idx := idx + 2;
        } else if next == '\\' {
          value := value + "\\";
          idx := idx + 2;
        } else {
          return Err(BadEscape);
        }
      } else {
        value := value + [c];
        idx := idx + 1;
      }
    }
    assert value + [] == value;
    return Ok(value);
  }

  /** The escape a quark literal uses for `c`, as the lexer's literals write it. */
  function EscapeChar(c: char): string
  {
    if c == '\\' then "\\\\"
    else if c == '"' then "\\\""
    else if c == '\n' then "\\n"
    else if c == '\r' then "\\r"
    else if c == '\t' then "\\t"
    else [c]
  }

  function Escaped(t: string): string
  {
    if t == [] then [] else EscapeChar(t[0]) + Escaped(t[1..])
  }

  /** A literal for `t`: quotes around its escaped characters. */
  function Quote(t: string): string
  {
    "\"" + Escaped(t) + "\""
  }

  /** `s` holds the escape of `c` at `idx`, with more after it. */
  predicate EscapeAt(s: string, idx: nat, c: char)
  {
    var e := EscapeChar(c);
    idx + |e| < |s| && s[idx] == e[0] && (|e| == 2 ==> s[idx + 1] == e[1])
  }

  /** A slice holding the escape of `c` is that escape, character by character. */
  lemma SliceEscapeAt(s: string, idx: nat, c: char)
    requires idx + |EscapeChar(c)| < |s| && s[idx .. idx + |EscapeChar(c)|] == EscapeChar(c)
    ensures EscapeAt(s, idx, c)
  {
    var e := EscapeChar(c);
    assert s[idx] == s[idx .. idx + |e|][0];
    if |e| == 2 {
      assert s[idx + 1] == s[idx .. idx + |e|][1];
    }
  }

  /** One escape written by `EscapeChar` is one turn of the loop, giving back its character. */
  lemma StepEscape(s: string, idx: nat, c: char)
    requires EscapeAt(s, idx, c)
    ensures Step(s, idx) == Ok(([c], |EscapeChar(c)|))
  {
  }

  lemma PrependChain(x0: Result<string, UnquoteError>, x1: Result<string, UnquoteError>, x2: Result<string, UnquoteError>,
                     a: string, b: string)
    requires x0 == Prepend(a, x1) && x1 == Prepend(b, x2)
    ensures x0 == Prepend(a + b, x2)
  {
    PrependAssoc(a, b, x2);
  }

  /** One successful turn of the loop: what it appends comes before everything after it. */
  lemma UnquoteStep(s: string, idx: nat, out: string, n: nat)
    requires idx + 1 < |s| && Step(s, idx) == Ok((out, n))
    ensures UnquoteFrom(s, idx) == Prepend(out, UnquoteFrom(s, idx + n))
  {
  }

  /** Reading an escaped run decodes exactly the text it escapes, provided more follows it. */
  lemma UnquoteEscaped(s: string, idx: nat, t: string)
    requires idx + |Escaped(t)| < |s| && s[idx .. idx + |Escaped(t)|] == Escaped(t)
    ensures UnquoteFrom(s, idx) == Prepend(t, UnquoteFrom(s, idx + |Escaped(t)|))
  {
    EscapedRunAt(s, idx, t);
    UnquoteEscapes(s, idx, t);
    EscapedLengthIsLength(t);
  }

  /** `s` holds the escape of each character of `t` in turn from `idx` on, and more after them. */
  ghost predicate EscapesAt(s: string, idx: nat, t: string)
    decreases |t|
  {
    if t == [] then idx < |s|
    else
      var e := EscapeChar(t[0]);
      EscapeAt(s, idx, t[0]) && EscapesAt(s, idx + |e|, t[1..])
  }

  lemma {:induction false} EscapedRunAt(s: string, idx: nat, t: string)
    requires idx + |Escaped(t)| < |s| && s[idx .. idx + |Escaped(t)|] == Escaped(t)
    ensures EscapesAt(s, idx, t)
    decreases |t|
  {
    if t != [] {
      var e := EscapeChar(t[0]);
      EscapedRuns(s, idx, t, e, Escaped(t[1..]));
      SliceEscapeAt(s, idx, t[0]);
      EscapedRunAt(s, idx + |e|, t[1..]);
    }
  }

  /** The length of the escaped form of `t`. */
  function EscapedLength(t: string): nat
  {
    if t == [] then 0 else |EscapeChar(t[0])| + EscapedLength(t[1..])
  }

  lemma {:induction false} EscapedLengthIsLength(t: string)
    ensures EscapedLength(t) == |Escaped(t)|
  {
    if t != [] {
      EscapedLengthIsLength(t[1..]);
    }
  }

  lemma {:induction false} UnquoteEscapes(s: string, idx: nat, t: string)
    requires EscapesAt(s, idx, t)
    ensures UnquoteFrom(s, idx) == Prepend(t, UnquoteFrom(s, idx + EscapedLength(t)))
    decreases |t|
  {
    if t == [] {
      PrependNothing(UnquoteFrom(s, idx));
    } else {
      var e, rest := EscapeChar(t[0]), t[1..];
      var m := idx + |e| + EscapedLength(rest);
      assert m == idx + EscapedLength(t);
      assert [t[0]] + rest == t;
      UnquoteEscapes(s, idx + |e|, rest);
      EscapedCons(s, idx, t[0], e, rest, m, m);
    }
  }

  /** The inductive step of `UnquoteEscaped`: one escape, then whatever the rest decodes to. */
  lemma EscapedCons(s: string, idx: nat, c: char, e: string, rest: string, m: nat, n: nat)
    requires e == EscapeChar(c) && EscapeAt(s, idx, c)
    requires m == n && UnquoteFrom(s, idx + |e|) == Prepend(rest, UnquoteFrom(s, m))
    ensures UnquoteFrom(s, idx) == Prepend([c] + rest, UnquoteFrom(s, n))
  {
    StepEscape(s, idx, c);
    UnquoteStep(s, idx, [c], |e|);
    PrependAssoc([c], rest, UnquoteFrom(s, n));
  }

  /** An escaped run is the escape of its first character followed by the escaped rest. */
  lemma EscapedRuns(s: string, idx: nat, t: string, e: string, r: string)
    requires t != [] && e == EscapeChar(t[0]) && r == Escaped(t[1..])
    requires idx + |Escaped(t)| < |s| && s[idx .. idx + |Escaped(t)|] == Escaped(t)
    ensures |Escaped(t)| == |e| + |r|
    ensures idx + |e| + |r| < |s| && s[idx .. idx + |e|] == e && s[idx + |e| .. idx + |e| + |r|] == r
  {
    assert Escaped(t) == e + r;
    SliceSplit(s, idx, e, r);
  }

  /** A slice holding `a + b` holds `a`, then `b`. */
  lemma SliceSplit(s: string, idx: nat, a: string, b: string)
    requires idx + |a + b| <= |s| && s[idx .. idx + |a + b|] == a + b
    ensures s[idx .. idx + |a|] == a && s[idx + |a| .. idx + |a| + |b|] == b
  {
    assert s[idx .. idx + |a|] == s[idx .. idx + |a + b|][..|a|];
    assert s[idx + |a| .. idx + |a| + |b|] == s[idx .. idx + |a + b|][|a|..];
  }

  /** An escaped run followed only by the closing character decodes to the text it escapes. */
  lemma UnquoteEscapedToEnd(s: string, idx: nat, t: string)
    requires idx + |Escaped(t)| == |s| - 1 && s[idx .. idx + |Escaped(t)|] == Escaped(t)
    ensures UnquoteFrom(s, idx) == Ok(t)
  {
    UnquoteEscaped(s, idx, t);
    assert UnquoteFrom(s, idx + |Escaped(t)|) == Ok([]);
    assert t + [] == t;
  }

  /** `unquote` inverts quoting: every text survives being written as a literal and read back. */
  lemma QuoteRoundTrip(t: string)
    ensures Unescaped(Quote(t)) == Ok(t)
  {
    var s := Quote(t);
    assert s[1 .. 1 + |Escaped(t)|] == Escaped(t);
    UnquoteEscapedToEnd(s, 1, t);
  }

  /** An escape letter `unquote` does not know fails the literal, whatever was read before it. */
  lemma UnknownEscapeRejected(t: string, c: char, rest: string)
    requires c !in "xnrt\"\\"
    ensures Unescaped("\"" + Escaped(t) + ['\\', c] + rest).Err?
    ensures Unescaped("\"" + Escaped(t) + ['\\', c] + rest).error == BadEscape
  {
    var s := "\"" + Escaped(t) + ['\\', c] + rest;
    var i := 1 + |Escaped(t)|;
    assert s[1 .. i] == Escaped(t);
    assert s[i] == '\\' && s[i + 1] == c;
    BadEscapeAfter(s, t, Escaped(t), c);
  }

  /** An escaped run, then a backslash before a letter `unquote` does not know. */
  lemma BadEscapeAfter(s: string, t: string, e: string, c: char)
    requires c !in "xnrt\"\\" && e == Escaped(t)
    requires 1 + |e| + 1 < |s| && s[1 .. 1 + |e|] == e && s[1 + |e|] == '\\' && s[1 + |e| + 1] == c
    ensures UnquoteFrom(s, 1) == Err(BadEscape)
  {
    UnquoteEscaped(s, 1, t);
  }

  /** The lower-case hex digit for `d < 16`. */
  function HexDigit(d: nat): char
    requires d < 16
  {
    if d < 10 then ('0' as int + d) as char else ('a' as int + d - 10) as char
  }

  lemma HexDigitRoundTrip(d: nat)
    requires d < 16
    ensures HexDigitValue(HexDigit(d)) == Some(d)
  {
  }

  /** The upper-case hex digit for `d < 16`, which `int(…, 16)` reads as well. */
  function HexDigitUpper(d: nat): char
    requires d < 16
  {
    if d < 10 then ('0' as int + d) as char else ('A' as int + d - 10) as char
  }

  lemma HexDigitUpperRoundTrip(d: nat)
    requires d < 16
    ensures HexDigitValue(HexDigitUpper(d)) == Some(d)
  {
  }

  /** `\xHH` written with two hex digits is one turn of the loop, giving the character with code `HH`. */
  lemma StepHex(s: string, i: nat, b: nat)
    requires b < 256 && i + 4 < |s|
    requires s[i] == '\\' && s[i + 1] == 'x'
    requires HexDigitValue(s[i + 2]) == Some(b / 16) && HexDigitValue(s[i + 3]) == Some(b % 16)
    ensures Step(s, i) == Ok(([b as char], 4))
  {
    assert Min(i + 4, |s|) == i + 4;
    assert s[i + 2 .. i + 4] == [s[i + 2], s[i + 3]];
  }

  /** Where the three runs of a literal `"` + x + y + z + `"` sit. */
  lemma LiteralParts(x: string, y: string, z: string)
    ensures var s := "\"" + x + y + z + "\"";
      |s| == |x| + |y| + |z| + 2 && s[1 .. 1 + |x|] == x && s[1 + |x| .. 1 + |x| + |y|] == y &&
      s[1 + |x| + |y| .. 1 + |x| + |y| + |z|] == z
  {
    var s := "\"" + x + y + z + "\"";
    assert s == "\"" + (x + (y + (z + "\"")));
  }

  lemma HexEscapeIn(s: string, t: string, e: string, b: nat, hi: char, lo: char, u: string, f: string)
    requires b < 256 && e == Escaped(t) && f == Escaped(u)
    requires HexDigitValue(hi) == Some(b / 16) && HexDigitValue(lo) == Some(b % 16)
    requires |s| == |e| + |f| + 6
    requires s[1 .. 1 + |e|] == e
    requires s[1 + |e| .. 5 + |e|] == ['\\', 'x', hi, lo]
    requires s[5 + |e| .. 5 + |e| + |f|] == f
    ensures UnquoteFrom(s, 1) == Ok(t + [b as char] + u)
  {
    UnquoteEscaped(s, 1, t);
    HexThenEscaped(s, 1 + |e|, 5 + |e|, b, hi, lo, u);
    assert t + ([b as char] + u) == t + [b as char] + u;
  }

  /** `\xHH` followed by an escaped run and the closing character. */
  lemma HexThenEscaped(s: string, i: nat, j: nat, b: nat, hi: char, lo: char, u: string)
    requires b < 256 && j == i + 4 && |s| == j + |Escaped(u)| + 1
    requires HexDigitValue(hi) == Some(b / 16) && HexDigitValue(lo) == Some(b % 16)
    requires s[i .. j] == ['\\', 'x', hi, lo]
    requires s[j .. j + |Escaped(u)|] == Escaped(u)
    ensures UnquoteFrom(s, i) == Ok([b as char] + u)
  {
    assert s[i] == s[i .. j][0] && s[i + 1] == s[i .. j][1];
    assert s[i + 2] == s[i .. j][2] && s[i + 3] == s[i .. j][3];
    StepHex(s, i, b);
    UnquoteEscapedToEnd(s, j, u);
  }

  /**
   * `\xHH` decodes to the one character with code `HH`, in the middle of any
   * literal, whichever case its two digits are written in.
   */
  lemma HexEscape(t: string, b: nat, hi: char, lo: char, u: string)
    requires b < 256 && HexDigitValue(hi) == Some(b / 16) && HexDigitValue(lo) == Some(b % 16)
    ensures Unescaped("\"" + Escaped(t) + ['\\', 'x', hi, lo] + Escaped(u) + "\"") == Ok(t + [b as char] + u)
  {
    var h := ['\\', 'x', hi, lo];
    LiteralParts(Escaped(t), h, Escaped(u));
    HexEscapeIn("\"" + Escaped(t) + h + Escaped(u) + "\"", t, Escaped(t), b, hi, lo, u, Escaped(u));
  }

  /** `\xHH` written in lower case, as `HexDigit` renders it. */
  lemma HexEscapeLower(t: string, b: nat, u: string)
    requires b < 256
    ensures Unescaped("\"" + Escaped(t) + ['\\', 'x', HexDigit(b / 16), HexDigit(b % 16)] + Escaped(u) + "\"")
      == Ok(t + [b as char] + u)
  {
    HexDigitRoundTrip(b / 16);
    HexDigitRoundTrip(b % 16);
    HexEscape(t, b, HexDigit(b / 16), HexDigit(b % 16), u);
  }

  /** `\xHH` written in upper case. */
  lemma HexEscapeUpper(t: string, b: nat, u: string)
    requires b < 256
    ensures Unescaped("\"" + Escaped(t) + ['\\', 'x', HexDigitUpper(b / 16), HexDigitUpper(b % 16)] + Escaped(u) + "\"")
      == Ok(t + [b as char] + u)
  {
    HexDigitUpperRoundTrip(b / 16);
    HexDigitUpperRoundTrip(b % 16);
    HexEscape(t, b, HexDigitUpper(b / 16), HexDigitUpper(b % 16), u);
  }

  /** Without backslashes, `unquote` just drops the first and the last character. */
  lemma PlainCopied(s: string)
    requires |s| >= 2 && forall i :: 1 <= i < |s| - 1 ==> s[i] != '\\'
    ensures Unescaped(s) == Ok(s[1 .. |s| - 1])
  {
    PlainFrom(s, 1);
  }

  lemma {:induction false} PlainFrom(s: string, idx: nat)
    requires 1 <= idx <= |s| - 1 && forall i :: 1 <= i < |s| - 1 ==> s[i] != '\\'
    ensures UnquoteFrom(s, idx) == Ok(s[idx .. |s| - 1])
    decreases |s| - idx
  {
    if idx + 1 < |s| {
      PlainFrom(s, idx + 1);
      assert s[idx .. |s| - 1] == [s[idx]] + s[idx + 1 .. |s| - 1];
    }
  }

  // ---------------------------------------------------------------------
  // mangle / mangle_param

  /** A type reference: a qualified name and its type arguments. */
  datatype Ref = Ref(name: string, params: seq<Ref>)

  /** The quark built-in types whose mangled name drops the `quark.` package. */
  predicate IsBuiltin(sym: string)
  {
    sym in {"quark.int", "quark.String", "quark.Any", "quark.Scalar", "quark.List", "quark.Map"}
  }

  /** `mangle_param` on a bare name. */
  function MangleName(sym: string): (r: string)
    ensures IsBuiltin(sym) ==> |sym| > 6 && sym[..6] == "quark." && r == sym[6..]
    ensures !IsBuiltin(sym) ==> r == sym
  {
    if sym == "quark.int" then "int"
    else if sym == "quark.String" then "String"
    else if sym == "quark.Any" then "Any"
    else if sym == "quark.Scalar" then "Scalar"
    else if sym == "quark.List" then "List"
    else if sym == "quark.Map" then "Map"
    else sym
  }

  /** `t.replace(".", "_")`. */
  function ReplaceDots(t: string): (r: string)
    ensures |r| == |t| && '.' !in r
    ensures forall i :: 0 <= i < |t| && t[i] != '.' ==> r[i] == t[i]
  {
    if t == [] then [] else [if t[0] == '.' then '_' else t[0]] + ReplaceDots(t[1..])
  }

  /** `"_".join([head] + parts)`. */
  function Join(head: string, parts: seq<string>): (r: string)
    ensures |r| >= |head| && r[..|head|] == head
    ensures parts == [] ==> r == head
    ensures (forall i :: 0 <= i < |parts| ==> '.' !in parts[i]) ==> '.' !in r[|head|..]
  {
    if parts == [] then head
    else
      var prev := Join(head, parts[..|parts| - 1]);
      assert (prev + "_" + parts[|parts| - 1])[|head|..] == prev[|head|..] + "_" + parts[|parts| - 1];
      prev + "_" + parts[|parts| - 1]
  }

  /** `mangle_param(ref)`: the mangled head name joined with the mangled, dot-free arguments. */
  function MangleParam(r: Ref): string
    decreases r
  {
    Join(MangleName(r.name), seq(|r.params|, i requires 0 <= i < |r.params| => ReplaceDots(MangleParam(r.params[i]))))
  }

  /** The mangled, dot-free form of each type argument. */
  function ParamParts(params: seq<Ref>): seq<string>
  {
    seq(|params|, i requires 0 <= i < |params| => ReplaceDots(MangleParam(params[i])))
  }

  /**
   * `mangle(name, *params)`: the name itself, unchanged, followed by one
   * `_`-separated, dot-free part per type argument.
   */
  function Mangle(name: string, params: seq<Ref>): (r: string)
    ensures params == [] ==> r == name
    ensures |r| >= |name| && r[..|name|] == name && '.' !in r[|name|..]
  {
    Join(name, ParamParts(params))
  }

  /** `mangle(ref)`. */
  function MangleRef(r: Ref): string
  {
    Mangle(r.name, r.params)
  }

  /** One more type argument adds exactly one more `_`-separated part at the end. */
  lemma MangleAppend(name: string, params: seq<Ref>, p: Ref)
    ensures Mangle(name, params + [p]) == Mangle(name, params) + "_" + ReplaceDots(MangleParam(p))
  {
    var ps := ParamParts(params + [p]);
    assert ps[..|ps| - 1] == ParamParts(params);
  }

  /** `List<int>` in the quark package mangles to `quark.List_int`, and as a parameter to `List_int`. */
  lemma MangleListOfInt()
    ensures MangleRef(Ref("quark.List", [Ref("quark.int", [])])) == "quark.List_int"
    ensures MangleParam(Ref("quark.List", [Ref("quark.int", [])])) == "List_int"
  {
    var intRef := Ref("quark.int", []);
    assert MangleParam(intRef) == "int" by {
      assert MangleName("quark.int") == "int";
    }
    assert ReplaceDots("int") == "int";
    var ps := ParamParts([intRef]);
    assert ps == ["int"];
    assert ps[..0] == [];
    assert Join("quark.List", ps) == "quark.List" + "_" + "int";
    assert Join("List", ps) == "List" + "_" + "int";
  }

  // ---------------------------------------------------------------------
  // compile_native

  /** A child of a native block: fixed text, or a reference to a variable. */
  datatype Native = Fixed(text: string) | NativeVar(name: string)

  /** `t.replace(c, by)` for a single character `c`. */
  function Replace(t: string, c: char, rep: string): string
  {
    if t == [] then [] else (if t[0] == c then rep else [t[0]]) + Replace(t[1..], c, rep)
  }

  /** `compile_native`: fixed text with its braces doubled, a variable as `{name}`. */
  function CompileNative(n: Native): string
  {
    match n
    case Fixed(t) => Replace(Replace(t, '{', "{{"), '}', "}}")
    case NativeVar(x) => "{" + x + "}"
  }

  /** The template text of a native block: its children compiled and concatenated. */
  function TemplateText(children: seq<Native>): string
  {
    if children == [] then [] else CompileNative(children[0]) + TemplateText(children[1..])
  }

  /** Every brace of `t` doubled. */
  function Doubled(t: string): string
  {
    if t == [] then []
    else (if t[0] == '{' then "{{" else if t[0] == '}' then "}}" else [t[0]]) + Doubled(t[1..])
  }

  lemma {:induction false} ReplaceConcat(a: string, b: string, c: char, rep: string)
    ensures Replace(a + b, c, rep) == Replace(a, c, rep) + Replace(b, c, rep)
    decreases |a|
  {
    if a == [] {
      assert a + b == b;
    } else {
      assert (a + b)[0] == a[0] && (a + b)[1..] == a[1..] + b;
      ReplaceConcat(a[1..], b, c, rep);
    }
  }

  /** The two `replace` passes together double every brace, neither pass undoing the other. */
  lemma {:induction false} FixedIsDoubled(t: string)
    ensures CompileNative(Fixed(t)) == Doubled(t)
    decreases |t|
  {
    if t != [] {
      FixedIsDoubled(t[1..]);
      var head := if t[0] == '{' then "{{" else [t[0]];
      assert Replace(t, '{', "{{") == head + Replace(t[1..], '{', "{{");
      ReplaceConcat(head, Replace(t[1..], '{', "{{"), '}', "}}");
    }
  }

  /** The first `}` at or after `i`, provided no `{` comes before it. */
  function CloseAt(t: string, i: nat): (r: Option<nat>)
    ensures r.Some? ==> i <= r.value < |t| && t[r.value] == '}'
    decreases |t| - i
  {
    if i >= |t| || t[i] == '{' then None
    else if t[i] == '}' then Some(i)
    else CloseAt(t, i + 1)
  }

  function Then(p: string, r: Option<string>): Option<string>
  {
    if r.Some? then Some(p + r.value) else None
  }

  /**
   * Rendering a template: `{{` and `}}` stand for one brace, `{name}` for
   * the value bound to `name`; any other brace makes the template invalid.
   */
  function Render(t: string, env: map<string, string>): Option<string>
    decreases |t|
  {
    if t == [] then Some([])
    else if t[0] == '{' then
      if |t| >= 2 && t[1] == '{' then Then("{", Render(t[2..], env))
      else
        var close := CloseAt(t, 1);
        if close.None? || t[1 .. close.value] !in env then None
        else Then(env[t[1 .. close.value]], Render(t[close.value + 1 ..], env))
    else if t[0] == '}' then
      if |t| >= 2 && t[1] == '}' then Then("}", Render(t[2..], env)) else None
    else Then([t[0]], Render(t[1..], env))
  }

  /** What a native block stands for once its variables are bound. */
  function Expand(children: seq<Native>, env: map<string, string>): string
    requires forall i :: 0 <= i < |children| && children[i].NativeVar? ==> children[i].name in env
  {
    if children == [] then []
    else
      (match children[0] case Fixed(t) => t case NativeVar(x) => env[x]) + Expand(children[1..], env)
  }

  predicate BraceFree(x: string)
  {
    '{' !in x && '}' !in x
  }

  lemma ThenAssoc(a: string, b: string, r: Option<string>)
    ensures Then(a, Then(b, r)) == Then(a + b, r)
  {
    if r.Some? {
      assert a + (b + r.value) == a + b + r.value;
    }
  }

  lemma {:induction false} RenderDoubled(t: string, rest: string, env: map<string, string>)
    ensures Render(Doubled(t) + rest, env) == Then(t, Render(rest, env))
    decreases |t|
  {
    if t == [] {
      assert Doubled(t) + rest == rest;
      if Render(rest, env).Some? {
        assert [] + Render(rest, env).value == Render(rest, env).value;
      }
    } else {
      var head := if t[0] == '{' then "{{" else if t[0] == '}' then "}}" else [t[0]];
      var w := Doubled(t) + rest;
      assert w == head + (Doubled(t[1..]) + rest);
      assert w[|head|..] == Doubled(t[1..]) + rest;
      RenderDoubled(t[1..], rest, env);
      assert Render(w, env) == Then([t[0]], Render(Doubled(t[1..]) + rest, env));
      ThenAssoc([t[0]], t[1..], Render(rest, env));
      assert [t[0]] + t[1..] == t;
    }
  }

  lemma {:induction false} CloseAfterName(t: string, x: string, i: nat)
    requires BraceFree(x) && |t| > |x| + 1 && t[1 .. |x| + 1] == x && t[|x| + 1] == '}'
    requires 1 <= i <= |x| + 1
    ensures CloseAt(t, i) == Some(|x| + 1)
    decreases |x| + 1 - i
  {
    if i <= |x| {
      assert t[i] == x[i - 1];
      CloseAfterName(t, x, i + 1);
    }
  }

  lemma RenderVar(x: string, rest: string, env: map<string, string>)
    requires BraceFree(x) && x in env
    ensures Render("{" + x + "}" + rest, env) == Then(env[x], Render(rest, env))
  {
    var t := "{" + x + "}" + rest;
    assert t[1 .. |x| + 1] == x && t[|x| + 1] == '}';
    CloseAfterName(t, x, 1);
    if |x| == 0 {
      assert t[1] == '}';
    }
    assert t[|x| + 2 ..] == rest;
  }

  /**
   * Brace escaping is what makes a native block's fixed text survive the
   * template: rendering the compiled children gives back the fixed text
   * verbatim, with each variable replaced by its value.
   */
  lemma {:induction false} TemplateRenders(children: seq<Native>, env: map<string, string>)
    requires forall i :: 0 <= i < |children| && children[i].NativeVar? ==>
      BraceFree(children[i].name) && children[i].name in env
    ensures Render(TemplateText(children), env) == Some(Expand(children, env))
    decreases |children|
  {
    if children == [] {
    } else {
      TemplateRenders(children[1..], env);
      var rest := TemplateText(children[1..]);
      match children[0] {
        case Fixed(t) =>
          FixedIsDoubled(t);
          RenderDoubled(t, rest, env);
        case NativeVar(x) =>
          assert TemplateText(children) == "{" + x + "}" + rest;
          RenderVar(x, rest, env);
      }
    }
  }

  // ---------------------------------------------------------------------
  // Temporaries, the statement stack and the lowering of blocks and switches

  /** The target-independent statements and expressions the pass produces. */
  datatype Expr = Var(name: string) | Source(id: nat) | Eq(left: Expr, right: Expr) | Or(left: Expr, right: Expr)

  datatype Stmt =
    | Local(name: string, ty: string)
    | Assign(target: Expr, value: Expr)
    | If(test: Expr, cons: Stmt, alt: Stmt)
    | Block(stmts: seq<Stmt>)
    | Basic(id: nat)

  /** The expressions of one `case`: at least one. */
  datatype Exprs = Single(e: nat) | Several(e: nat, more: Exprs)

  datatype Case = Case(exprs: Exprs, body: Body)

  /** The cases of a `switch`: at least one. */
  datatype Cases = LastCase(c: Case) | MoreCases(c: Case, rest: Cases)

  /** A source statement: one that compiles on its own, or a `switch` over a typed expression. */
  datatype Statement = Simple(id: nat) | Switch(expr: nat, ty: string, cases: Cases)

  datatype Body = Body(statements: seq<Statement>)

  function Digit(d: nat): char
    requires d < 10
  {
    ('0' as int + d) as char
  }

  /** `"%s" % n` for a natural number. */
  function Decimal(n: nat): (r: string)
    ensures |r| >= 1 && (n >= 10 <==> |r| >= 2)
    decreases n
  {
    if n < 10 then [Digit(n)] else Decimal(n / 10) + [Digit(n % 10)]
  }

  lemma {:induction false} DecimalInjective(a: nat, b: nat)
    requires Decimal(a) == Decimal(b)
    ensures a == b
    decreases a
  {
    if a >= 10 && b >= 10 {
      var da := Decimal(a);
      assert da[..|da| - 1] == Decimal(a / 10);
      assert Decimal(b)[..|da| - 1] == Decimal(b / 10);
      DecimalInjective(a / 10, b / 10);
      assert da[|da| - 1] == Digit(a % 10);
    } else {
      assert Decimal(a)[0] == Digit(a) || a >= 10;
    }
  }

  /** The name `temp` gives its `n`-th temporary. */
  function TempName(n: nat): string
  {
    "temp" + Decimal(n)
  }

  lemma TempNamesDistinct(a: nat, b: nat)
    ensures TempName(a) == TempName(b) ==> a == b
  {
    if TempName(a) == TempName(b) {
      assert Decimal(a) == TempName(a)[4..];
      assert Decimal(b) == TempName(b)[4..];
      DecimalInjective(a, b);
    }
  }

  /** `compile_case`: `temp == e` for one expression, a right-nested `or` of them for several. */
  function CaseTest(tmp: string, es: Exprs): Expr
  {
    match es
    case Single(e) => Eq(Var(tmp), Source(e))
    case Several(e, more) => Or(Eq(Var(tmp), Source(e)), CaseTest(tmp, more))
  }

  /** Lowering a statement from counter `n`: what it hoists, what it becomes, the next counter. */
  datatype Lowered = Lowered(hoisted: seq<Stmt>, stmt: Stmt, next: nat)

  function LowerStmt(s: Statement, n: nat): (r: Lowered)
    ensures n <= r.next
    decreases s, 0
  {
    match s
    case Simple(id) => Lowered([], Basic(id), n)
    case Switch(e, ty, cases) =>
      var tmp := TempName(n);
      var (chain, m) := LowerCases(tmp, cases, n + 1);
      Lowered([Local(tmp, ty), Assign(Var(tmp), Source(e))], chain, m)
  }

  /** The `Case` chain: `if` on the first case, the rest lowered inside its else block. */
  function LowerCases(tmp: string, cs: Cases, n: nat): (r: (Stmt, nat))
    ensures n <= r.1
    decreases cs, 0
  {
    match cs
    case LastCase(c) =>
      var (b, m) := LowerBody(c.body, n);
      (If(CaseTest(tmp, c.exprs), b, Block([])), m)
    case MoreCases(c, rest) =>
      var (b, m) := LowerBody(c.body, n);
      var (r, k) := LowerCases(tmp, rest, m);
      (If(CaseTest(tmp, c.exprs), b, Block([r])), k)
  }

  function LowerBody(b: Body, n: nat): (r: (Stmt, nat))
    ensures n <= r.1
    decreases b, |b.statements| + 1
  {
    var (ss, m) := LowerFrom(b, 0, n);
    (Block(ss), m)
  }

  /** Statements `i..` of a block, each preceded by what it hoisted. */
  function LowerFrom(b: Body, i: nat, n: nat): (r: (seq<Stmt>, nat))
    requires i <= |b.statements|
    ensures n <= r.1
    decreases b, |b.statements| - i
  {
    if i == |b.statements| then ([], n)
    else
      var l := LowerStmt(b.statements[i], n);
      var (rest, k) := LowerFrom(b, i + 1, l.next);
      (l.hoisted + [l.stmt] + rest, k)
  }

  // ---------------------------------------------------------------------
  // What the lowering guarantees

  /** The names `Local` statements declare, in the order they appear. */
  function Declared(s: Stmt): seq<string>
    decreases s, if s.Block? then |s.stmts| + 1 else 0
  {
    match s
    case Local(x, _) => [x]
    case If(_, c, a) => Declared(c) + Declared(a)
    case Block(_) => DeclaredIn(s, 0)
    case _ => []
  }

  function DeclaredIn(s: Stmt, i: nat): seq<string>
    requires s.Block? && i <= |s.stmts|
    decreases s, |s.stmts| - i
  {
    if i == |s.stmts| then [] else Declared(s.stmts[i]) + DeclaredIn(s, i + 1)
  }

  function DeclaredList(ss: seq<Stmt>): seq<string>
  {
    if ss == [] then [] else Declared(ss[0]) + DeclaredList(ss[1..])
  }

  lemma {:induction false} DeclaredInList(s: Stmt, i: nat)
    requires s.Block? && i <= |s.stmts|
    ensures DeclaredIn(s, i) == DeclaredList(s.stmts[i..])
    decreases |s.stmts| - i
  {
    if i < |s.stmts| {
      DeclaredInList(s, i + 1);
      assert s.stmts[i..][1..] == s.stmts[i + 1..];
    }
  }

  lemma {:induction false} DeclaredListConcat(a: seq<Stmt>, b: seq<Stmt>)
    ensures DeclaredList(a + b) == DeclaredList(a) + DeclaredList(b)
    decreases |a|
  {
    if a == [] {
      assert a + b == b;
    } else {
      assert (a + b)[0] == a[0] && (a + b)[1..] == a[1..] + b;
      DeclaredListConcat(a[1..], b);
    }
  }

  /** The temporaries `temp<n>` up to (not including) `temp<m>`. */
  function Temps(n: nat, m: nat): seq<string>
    requires n <= m
  {
    seq(m - n, k requires 0 <= k < m - n => TempName(n + k))
  }

  lemma TempsSplit(a: nat, b: nat, c: nat)
    requires a <= b <= c
    ensures Temps(a, b) + Temps(b, c) == Temps(a, c)
  {
  }

  lemma {:induction false} StmtDeclares(s: Statement, n: nat)
    ensures var l := LowerStmt(s, n); DeclaredList(l.hoisted + [l.stmt]) == Temps(n, l.next)
    decreases s, 0
  {
    match s {
      case Simple(id) =>
        assert DeclaredList([Basic(id)]) == [];
      case Switch(e, ty, cases) =>
        var tmp := TempName(n);
        var (chain, m) := LowerCases(tmp, cases, n + 1);
        CasesDeclare(tmp, cases, n + 1);
        var l := LowerStmt(s, n);
        assert l.hoisted + [l.stmt] == [Local(tmp, ty), Assign(Var(tmp), Source(e)), chain];
        assert DeclaredList([Local(tmp, ty), Assign(Var(tmp), Source(e)), chain]) == [tmp] + Declared(chain) by {
          assert DeclaredList([chain]) == Declared(chain) + [];
          assert [Local(tmp, ty), Assign(Var(tmp), Source(e)), chain][1..][1..] == [chain];
        }
        TempsSplit(n, n + 1, m);
    }
  }

  lemma {:induction false} CasesDeclare(tmp: string, cs: Cases, n: nat)
    ensures Declared(LowerCases(tmp, cs, n).0) == Temps(n, LowerCases(tmp, cs, n).1)
    decreases cs, 0
  {
    match cs {
      case LastCase(c) =>
        var (b, m) := LowerBody(c.body, n);
        BodyDeclares(c.body, n);
        assert Declared(Block([])) == [];
        assert Declared(b) + [] == Declared(b);
      case MoreCases(c, rest) =>
        var (b, m) := LowerBody(c.body, n);
        BodyDeclares(c.body, n);
        var (r, k) := LowerCases(tmp, rest, m);
        CasesDeclare(tmp, rest, m);
        DeclaredInList(Block([r]), 0);
        assert DeclaredList([r]) == Declared(r) + [];
        TempsSplit(n, m, k);
    }
  }

  lemma {:induction false} BodyDeclares(b: Body, n: nat)
    ensures Declared(LowerBody(b, n).0) == Temps(n, LowerBody(b, n).1)
    decreases b, |b.statements| + 1
  {
    var (ss, m) := LowerFrom(b, 0, n);
    FromDeclares(b, 0, n);
    DeclaredInList(Block(ss), 0);
  }

  lemma {:induction false} FromDeclares(b: Body, i: nat, n: nat)
    requires i <= |b.statements|
    ensures DeclaredList(LowerFrom(b, i, n).0) == Temps(n, LowerFrom(b, i, n).1)
    decreases b, |b.statements| - i
  {
    if i < |b.statements| {
      var l := LowerStmt(b.statements[i], n);
      StmtDeclares(b.statements[i], n);
      var (rest, k) := LowerFrom(b, i + 1, l.next);
      FromDeclares(b, i + 1, l.next);
      DeclaredListConcat(l.hoisted + [l.stmt], rest);
      TempsSplit(n, l.next, k);
    }
  }

  /**
   * Every temporary a lowered block declares is `temp<k>` for a counter
   * value `k` it consumed, in counter order, so no name is declared twice.
   */
  lemma BlockTemporariesFresh(b: Body, n: nat)
    ensures var (r, m) := LowerBody(b, n);
      Declared(r) == Temps(n, m) &&
      forall i, j :: 0 <= i < j < |Declared(r)| ==> Declared(r)[i] != Declared(r)[j]
  {
    BodyDeclares(b, n);
    var (r, m) := LowerBody(b, n);
    forall i, j | 0 <= i < j < |Declared(r)|
      ensures Declared(r)[i] != Declared(r)[j]
    {
      TempNamesDistinct(n + i, n + j);
    }
  }

  /** The value of an operand: a variable's from `env`, a source expression's from `val`. */
  function Operand(e: Expr, env: string -> int, val: nat -> int): int
  {
    match e
    case Var(x) => env(x)
    case Source(id) => val(id)
    case _ => 0
  }

  /** Whether a case test holds. */
  predicate Test(e: Expr, env: string -> int, val: nat -> int)
  {
    match e
    case Eq(l, r) => Operand(l, env, val) == Operand(r, env, val)
    case Or(l, r) => Test(l, env, val) || Test(r, env, val)
    case _ => false
  }

  function Members(es: Exprs): seq<nat>
  {
    match es
    case Single(e) => [e]
    case Several(e, more) => [e] + Members(more)
  }

  function CaseList(cs: Cases): seq<Case>
  {
    match cs
    case LastCase(c) => [c]
    case MoreCases(c, rest) => [c] + CaseList(rest)
  }

  /** A case matches when one of its expressions equals the switched value. */
  predicate Matches(c: Case, tmp: string, env: string -> int, val: nat -> int)
  {
    exists k :: 0 <= k < |Members(c.exprs)| && env(tmp) == val(Members(c.exprs)[k])
  }

  /** The test `compile_case` builds holds exactly when one of the case's expressions equals the temporary. */
  lemma {:induction false} CaseTestMeaning(tmp: string, es: Exprs, env: string -> int, val: nat -> int)
    ensures Test(CaseTest(tmp, es), env, val) <==>
      exists k :: 0 <= k < |Members(es)| && env(tmp) == val(Members(es)[k])
  {
    match es {
      case Single(e) =>
        assert Members(es)[0] == e;
      case Several(e, more) =>
        CaseTestMeaning(tmp, more, env, val);
        assert Members(es)[0] == e;
        assert forall k :: 0 <= k < |Members(more)| ==> Members(es)[k + 1] == Members(more)[k];
        if exists k :: 0 <= k < |Members(es)| && env(tmp) == val(Members(es)[k]) {
          var k :| 0 <= k < |Members(es)| && env(tmp) == val(Members(es)[k]);
          if k > 0 {
            assert env(tmp) == val(Members(more)[k - 1]);
          }
        }
    }
  }

  /** Which branch of an `if` chain runs: its position along the else blocks, if any. */
  function Taken(s: Stmt, env: string -> int, val: nat -> int): Option<nat>
  {
    match s
    case If(t, _, a) =>
      if Test(t, env, val) then Some(0)
      else if a.Block? && |a.stmts| == 1 then
        match Taken(a.stmts[0], env, val)
        case Some(i) => Some(i + 1)
        case None => None
      else None
    case _ => None
  }

  /**
   * The lowered switch runs the body of the first case one of whose
   * expressions equals the switched value, and no body when none does.
   */
  lemma {:induction false} SwitchTakesFirstMatch(tmp: string, cs: Cases, n: nat, env: string -> int, val: nat -> int)
    ensures var t := Taken(LowerCases(tmp, cs, n).0, env, val); var list := CaseList(cs);
      (t.Some? ==> t.value < |list| && Matches(list[t.value], tmp, env, val) &&
                   forall j :: 0 <= j < t.value ==> !Matches(list[j], tmp, env, val)) &&
      (t.None? ==> forall j :: 0 <= j < |list| ==> !Matches(list[j], tmp, env, val))
    decreases cs
  {
    CaseTestMeaning(tmp, cs.c.exprs, env, val);
    match cs {
      case LastCase(c) =>
      case MoreCases(c, rest) =>
        var m := LowerBody(c.body, n).1;
        SwitchTakesFirstMatch(tmp, rest, m, env, val);
        assert LowerCases(tmp, cs, n).0.alt == Block([LowerCases(tmp, rest, m).0]);
        assert forall j :: 0 <= j < |CaseList(rest)| ==> CaseList(cs)[j + 1] == CaseList(rest)[j];
        assert CaseList(cs)[0] == c;
        assert LowerCases(tmp, cs, n).0.test == CaseTest(tmp, c.exprs);
        CaseTestMeaning(tmp, c.exprs, env, val);
        if !Test(CaseTest(tmp, c.exprs), env, val) {
          assert !Matches(c, tmp, env, val);
          assert !Matches(CaseList(cs)[0], tmp, env, val);
          forall j | 1 <= j < |CaseList(cs)| && !Matches(CaseList(rest)[j - 1], tmp, env, val)
            ensures !Matches(CaseList(cs)[j], tmp, env, val)
          {
          }
        }
    }
  }

  /** `stack` with `xs` appended to its top frame. */
  function AppendTop(stack: seq<seq<Stmt>>, xs: seq<Stmt>): seq<seq<Stmt>>
    requires stack != []
  {
    stack[..|stack| - 1] + [stack[|stack| - 1] + xs]
  }

  lemma LowerFromStep(b: Body, i: nat, n: nat)
    requires i < |b.statements|
    ensures var l := LowerStmt(b.statements[i], n);
      LowerFrom(b, i, n).0 == l.hoisted + [l.stmt] + LowerFrom(b, i + 1, l.next).0 &&
      LowerFrom(b, i, n).1 == LowerFrom(b, i + 1, l.next).1
  {
  }

  /** What a statement hoists into a freshly pushed frame is that frame, on top of the untouched stack. */
  lemma PushedTop(stack: seq<seq<Stmt>>, xs: seq<Stmt>)
    ensures var st := AppendTop(stack + [[]], xs);
      st != [] && st[|st| - 1] == xs && st[..|st| - 1] == stack
  {
    assert [] + xs == xs;
  }

  /** The statements a block has lowered so far, then its next statement's, then the rest. */
  lemma BlockStep(b: Body, i: nat, n: nat, stmts: seq<Stmt>, whole: seq<Stmt>)
    requires i < |b.statements| && whole == stmts + LowerFrom(b, i, n).0
    ensures var l := LowerStmt(b.statements[i], n);
      whole == (stmts + l.hoisted + [l.stmt]) + LowerFrom(b, i + 1, l.next).0 &&
      LowerFrom(b, i, n).1 == LowerFrom(b, i + 1, l.next).1
  {
    LowerFromStep(b, i, n);
    var l := LowerStmt(b.statements[i], n);
    assert stmts + (l.hoisted + [l.stmt] + LowerFrom(b, i + 1, l.next).0) ==
      (stmts + l.hoisted + [l.stmt]) + LowerFrom(b, i + 1, l.next).0;
  }

  lemma AppendTopTwice(stack: seq<seq<Stmt>>, xs: seq<Stmt>, ys: seq<Stmt>)
    requires stack != []
    ensures AppendTop(AppendTop(stack, xs), ys) == AppendTop(stack, xs + ys)
  {
    assert stack[|stack| - 1] + xs + ys == stack[|stack| - 1] + (xs + ys);
  }

  /** The state of the pass that code generation threads through: the temporaries counter and the statement stack. */
  class Code {
    var counter: nat
    var stack: seq<seq<Stmt>>

    constructor ()
      ensures counter == 0 && stack == []
    {
      counter := 0;
      stack := [];
    }

    /** `temp(type)`: a fresh name, declared as a local in the top frame. */
    method Temp(ty: string) returns (tmp: string)
      requires stack != []
      modifies this
      ensures tmp == TempName(old(counter)) && counter == old(counter) + 1
      ensures stack == AppendTop(old(stack), [Local(tmp, ty)])
    {
      tmp := TempName(counter);
      counter := counter + 1;
      Add(Local(tmp, ty));
    }

    /** `add(stmt)`: appends to the top frame. */
    method Add(stmt: Stmt)
      requires stack != []
      modifies this
      ensures counter == old(counter) && stack == AppendTop(old(stack), [stmt])
    {
      stack := AppendTop(stack, [stmt]);
    }

    method Push()
      modifies this
      ensures counter == old(counter) && stack == old(stack) + [[]]
    {
      stack := stack + [[]];
    }

    method Pop() returns (top: seq<Stmt>)
      requires stack != []
      modifies this
      ensures counter == old(counter)
      ensures top == old(stack)[|old(stack)| - 1] && stack == old(stack)[..|old(stack)| - 1]
    {
      top := stack[|stack| - 1];
      stack := stack[..|stack| - 1];
    }

    /**
     * `compile(Block)`: each statement compiled in a frame of its own, what
     * it hoisted placed right before it; the stack comes back as it was.
     */
    method CompileBlock(b: Body) returns (r: Stmt)
      modifies this
      ensures (r, counter) == LowerBody(b, old(counter)) && stack == old(stack)
      decreases b, |b.statements| + 1
    {
      var stmts: seq<Stmt> := [];
      var i := 0;
      assert stmts + LowerFrom(b, 0, counter).0 == LowerFrom(b, 0, counter).0;
      while i < |b.statements|
        invariant 0 <= i <= |b.statements|
        invariant stack == old(stack)
        invariant LowerFrom(b, 0, old(counter)).0 == stmts + LowerFrom(b, i, counter).0
        invariant LowerFrom(b, 0, old(counter)).1 == LowerFrom(b, i, counter).1
      {
        ghost var before := counter;
        ghost var outer := stack;
        Push();
        var c := CompileStatement(b.statements[i]);
        PushedTop(outer, LowerStmt(b.statements[i], before).hoisted);
        var hoisted := Pop();
        BlockStep(b, i, before, stmts, LowerFrom(b, 0, old(counter)).0);
        stmts := stmts + hoisted + [c];
        i := i + 1;
      }
      assert stmts + [] == stmts;
      return Block(stmts);
    }

    method CompileStatement(s: Statement) returns (c: Stmt)
      requires stack != []
      modifies this
      ensures var l := LowerStmt(s, old(counter));
        c == l.stmt && counter == l.next && stack == AppendTop(old(stack), l.hoisted)
      decreases s, 1
    {
      match s {
        case Simple(id) =>
          assert stack[|stack| - 1] + [] == stack[|stack| - 1];
          assert stack == AppendTop(stack, []);
          return Basic(id);
        case Switch(e, ty, cases) =>
          c := CompileSwitch(s);
      }
    }

    /** `compile(Switch)`: the value goes into a fresh temporary, and the cases test it. */
    method CompileSwitch(s: Statement) returns (c: Stmt)
      requires s.Switch? && stack != []
      modifies this
      ensures var l := LowerStmt(s, old(counter));
        c == l.stmt && counter == l.next && stack == AppendTop(old(stack), l.hoisted)
      decreases s, 0
    {
      ghost var start := stack;
      ghost var n := counter;
      var tmp := Temp(s.ty);
      Add(Assign(Var(tmp), Source(s.expr)));
      AppendTopTwice(start, [Local(tmp, s.ty)], [Assign(Var(tmp), Source(s.expr))]);
      assert [Local(tmp, s.ty)] + [Assign(Var(tmp), Source(s.expr))] == [Local(tmp, s.ty), Assign(Var(tmp), Source(s.expr))];
      c := CompileCases(tmp, s.cases);
      assert stack == AppendTop(start, [Local(tmp, s.ty), Assign(Var(tmp), Source(s.expr))]);
      assert counter == LowerCases(tmp, s.cases, n + 1).1;
      assert LowerStmt(s, n) == Lowered([Local(tmp, s.ty), Assign(Var(tmp), Source(s.expr))],
        LowerCases(tmp, s.cases, n + 1).0, LowerCases(tmp, s.cases, n + 1).1);
    }

    /** The `Case` chain, compiling the first case's body before the rest. */
    method CompileCases(tmp: string, cs: Cases) returns (r: Stmt)
      modifies this
      ensures (r, counter) == LowerCases(tmp, cs, old(counter)) && stack == old(stack)
      decreases cs, 0
    {
      match cs {
        case LastCase(c) =>
          var b := CompileBlock(c.body);
          r := If(CaseTest(tmp, c.exprs), b, Block([]));
        case MoreCases(c, rest) =>
          var b := CompileBlock(c.body);
          var alt := CompileCases(tmp, rest);
          r := If(CaseTest(tmp, c.exprs), b, Block([alt]));
      }
    }
  }
}
