/** JavaScript values as they arrive in a parsed Web API response, with the
    three pieces of JavaScript/lodash behaviour the connector relies on:
    truthiness, property access, and `_.get` lookups by a path string. */
module Json {
  import opened Wrappers

  /** A JSON value. `undefined` is not a value here: it is `None` of an
      `Option<Json>`. Numbers are reals; NaN and the infinities are not modelled. */
  datatype Json =
    | JNull
    | JBool(b: bool)
    | JNum(n: real)
    | JStr(s: string)
    | JArr(items: seq<Json>)
    | JObj(fields: seq<(string, Json)>)

  /** `!!v` for a value that may be undefined. */
  predicate Truthy(v: Option<Json>) {
    match v
    case None => false
    case Some(JNull) => false
    case Some(JBool(b)) => b
    case Some(JNum(n)) => n != 0.0
    case Some(JStr(s)) => s != ""
    case Some(_) => true
  }

  /** lodash `_.isPlainObject` restricted to JSON values. */
  predicate IsPlainObject(v: Option<Json>) {
    v.Some? && v.value.JObj?
  }

  /** lodash `_.isEmpty`: no own keys for objects, no elements for
      arrays and strings, and always true for every other value. */
  predicate IsEmpty(v: Option<Json>) {
    match v
    case Some(JObj(f)) => |f| == 0
    case Some(JArr(a)) => |a| == 0
    case Some(JStr(s)) => |s| == 0
    case _ => true
  }

  /** The value stored under `key` in an object's field list. */
  function FieldValue(fields: seq<(string, Json)>, key: string): (r: Option<Json>)
    ensures r.Some? <==> exists i :: 0 <= i < |fields| && fields[i].0 == key
  {
    if |fields| == 0 then None
    else if fields[0].0 == key then Some(fields[0].1)
    else
      var r := FieldValue(fields[1..], key);
      assert forall i :: 1 <= i < |fields| ==> fields[i] == fields[1..][i - 1];
      r
  }

  predicate IsDigit(c: char) {
    '0' <= c <= '9'
  }

  /** A property name that JavaScript treats as an array index:
      a decimal numeral without leading zeros. */
  predicate IsCanonicalIndex(s: string) {
    |s| > 0 && (forall i :: 0 <= i < |s| ==> IsDigit(s[i])) && (s[0] != '0' || |s| == 1)
  }

  /** The number a string of decimal digits denotes. */
  function DigitsValue(s: string): nat
    requires forall i :: 0 <= i < |s| ==> IsDigit(s[i])
  {
    if |s| == 0 then 0
    else
      assert IsDigit(s[|s| - 1]);
      10 * DigitsValue(s[..|s| - 1]) + (s[|s| - 1] as int - '0' as int)
  }

  /** The decimal numeral of a natural number. */
  function NatToString(n: nat): (s: string)
    ensures IsCanonicalIndex(s) && DigitsValue(s) == n
  {
    if n < 10 then [('0' as int + n) as char]
    else
      var s := NatToString(n / 10) + [('0' as int + n % 10) as char];
      assert s[..|s| - 1] == NatToString(n / 10);
      s
  }

  /** `v[key]` for a value that is neither null nor undefined. Only own
      data properties are modelled: methods inherited from a prototype are
      not JSON values. */
  function Prop(v: Json, key: string): Option<Json> {
    match v
    case JObj(f) => FieldValue(f, key)
    case JArr(items) =>
      if key == "length" then Some(JNum(|items| as real))
      else if IsCanonicalIndex(key) && DigitsValue(key) < |items| then Some(items[DigitsValue(key)])
      else None
    case JStr(s) =>
      if key == "length" then Some(JNum(|s| as real))
      else if IsCanonicalIndex(key) && DigitsValue(key) < |s| then Some(JStr([s[DigitsValue(key)]]))
      else None
    case _ => None
  }

  /** Decimal text of an integer. */
  function IntToString(i: int): string {
    if i < 0 then "-" + NatToString(-i) else NatToString(i)
  }

  /** The text a value becomes inside a template literal `${v}`. A number
      with a fraction is rendered by its integer part only. */
  function TemplateText(v: Option<Json>): string {
    if v.None? then "undefined" else Text(v.value)
  }

  /** `String(v)` for a JSON value. */
  function Text(v: Json): string
    decreases v, 1
  {
    match v
    case JNull => "null"
    case JBool(b) => if b then "true" else "false"
    case JNum(n) => IntToString(if n >= 0.0 then n.Floor else -((-n).Floor))
    case JStr(s) => s
    case JArr(items) => JoinItems(items, 0)
    case JObj(_) => "[object Object]"
  }

  /** `Array.prototype.join` with "," from index `i`: null becomes empty. */
  function JoinItems(items: seq<Json>, i: nat): string
    requires i <= |items|
    decreases JArr(items), 0, |items| - i
  {
    if i == |items| then ""
    else
      var item := if items[i].JNull? then "" else Text(items[i]);
      if i + 1 == |items| then item else item + "," + JoinItems(items, i + 1)
  }

  // ---------------------------------------------------------------------
  // String methods and number parsing

  /** JavaScript white space and line terminators, which `parseInt` skips. */
  predicate IsJsSpace(c: char) {
    || c == '\t' || c == '\n' || c == '\U{000B}' || c == '\U{000C}' || c == '\r' || c == ' '
    || c == ' ' || c == ' ' || (' ' <= c <= ' ') || c == ' ' || c == ' '
    || c == ' ' || c == ' ' || c == '　' || c == '﻿'
  }

  /** The leading white space skipped. */
  function TrimStart(s: string): (t: string)
    ensures |t| <= |s| && t == s[|s| - |t|..]
    ensures |t| > 0 ==> !IsJsSpace(t[0])
  {
    if |s| > 0 && IsJsSpace(s[0]) then TrimStart(s[1..]) else s
  }

  /** The longest prefix of decimal digits. */
  function DigitPrefix(s: string): (d: string)
    ensures |d| <= |s| && d == s[..|d|]
    ensures forall i :: 0 <= i < |d| ==> IsDigit(d[i])
    ensures |d| < |s| ==> !IsDigit(s[|d|])
  {
    if |s| > 0 && IsDigit(s[0]) then [s[0]] + DigitPrefix(s[1..]) else []
  }

  /** What follows an optional leading sign. */
  function SignedBody(t: string): string {
    if |t| > 0 && (t[0] == '-' || t[0] == '+') then t[1..] else t
  }

  /** `parseInt(s, 10)`: skip white space, read an optional sign, then the
      longest run of digits; `None` stands for NaN. A negative zero is
      read as 0, since `===` does not tell them apart. */
  function ParseInt(s: string): Option<int> {
    var t := TrimStart(s);
    var negative := |t| > 0 && t[0] == '-';
    var digits := DigitPrefix(SignedBody(t));
    if |digits| == 0 then None
    else if negative then Some(-(DigitsValue(digits) as int))
    else Some(DigitsValue(digits))
  }

  /** How often `x` occurs in `s`. */
  function Count<T(==)>(s: seq<T>, x: T): nat {
    if |s| == 0 then 0 else (if s[0] == x then 1 else 0) + Count(s[1..], x)
  }

  lemma {:induction false} CountAppend<T>(a: seq<T>, b: seq<T>, x: T)
    ensures Count(a + b, x) == Count(a, x) + Count(b, x)
    decreases |a|
  {
    if |a| > 0 {
      CountAppend(a[1..], b, x);
      assert (a + b)[1..] == a[1..] + b;
    } else {
      assert a + b == b;
    }
  }

  lemma CountSingle<T>(s: seq<T>, x: T)
    requires |s| <= 1
    ensures Count(s, x) == if x in s then 1 else 0
  {
    if |s| == 1 {
      assert s[1..] == [];
    }
  }

  /** `s.split(sep)` for a one-character separator. */
  function Split(s: string, sep: char): (parts: seq<string>)
    ensures |parts| > 0
    decreases |s|
  {
    if |s| == 0 then [""]
    else
      var rest := Split(s[1..], sep);
      if s[0] == sep then [""] + rest
      else [[s[0]] + rest[0]] + rest[1..]
  }

  /** No part of a split holds the separator. */
  lemma {:induction false} SplitPartsFree(s: string, sep: char)
    ensures forall i :: 0 <= i < |Split(s, sep)| ==> sep !in Split(s, sep)[i]
    decreases |s|
  {
    if |s| > 0 {
      SplitPartsFree(s[1..], sep);
      var rest := Split(s[1..], sep);
      if s[0] != sep {
        var parts := Split(s, sep);
        forall i | 0 <= i < |parts|
          ensures sep !in parts[i]
        {
          if i == 0 {
            assert parts[0] == [s[0]] + rest[0];
          } else {
            assert parts[i] == rest[i];
          }
        }
      }
    }
  }

  /** `parts.join(sep)` for a one-character separator. */
  function Join(parts: seq<string>, sep: char): string
    decreases |parts|
  {
    if |parts| == 0 then ""
    else if |parts| == 1 then parts[0]
    else parts[0] + [sep] + Join(parts[1..], sep)
  }

  /** A text without the separator is one part, and one followed by the
      separator starts the parts of what follows. */
  lemma {:induction false} SplitAfterPart(a: string, sep: char, b: string)
    requires sep !in a
    ensures Split(a, sep) == [a]
    ensures Split(a + [sep] + b, sep) == [a] + Split(b, sep)
    decreases |a|
  {
    if |a| == 0 {
      assert a + [sep] + b == [sep] + b;
      assert ([sep] + b)[1..] == b;
    } else {
      SplitAfterPart(a[1..], sep, b);
      assert (a + [sep] + b)[1..] == a[1..] + [sep] + b;
      assert [a[0]] + a[1..] == a;
    }
  }

  /** Splitting two texts joined by the separator gives the two splits in a row. */
  lemma {:induction false} SplitConcat(a: string, sep: char, b: string)
    ensures Split(a + [sep] + b, sep) == Split(a, sep) + Split(b, sep)
    decreases |a|
  {
    if |a| == 0 {
      assert a + [sep] + b == [sep] + b;
      assert ([sep] + b)[1..] == b;
    } else {
      SplitConcat(a[1..], sep, b);
      assert a == [a[0]] + a[1..];
      SplitConcatStep(a[0], a[1..], sep, b);
    }
  }

  /** The inductive step of `SplitConcat`: one more character in front. */
  lemma SplitConcatStep(c: char, rest: string, sep: char, b: string)
    requires Split(rest + [sep] + b, sep) == Split(rest, sep) + Split(b, sep)
    ensures Split([c] + rest + [sep] + b, sep) == Split([c] + rest, sep) + Split(b, sep)
  {
    assert [c] + rest + [sep] + b == [c] + (rest + [sep] + b);
    SplitCons(c, rest + [sep] + b, sep);
    SplitCons(c, rest, sep);
    ConsParts(c == sep, [c], Split(rest, sep), Split(b, sep));
  }

  /** The sequence algebra behind `SplitConcatStep`. */
  lemma ConsParts(isSep: bool, front: string, head: seq<string>, tail: seq<string>)
    requires |head| > 0
    ensures (if isSep then [""] + (head + tail) else [front + (head + tail)[0]] + (head + tail)[1..])
      == (if isSep then [""] + head else [front + head[0]] + head[1..]) + tail
  {
    if isSep {
      assert [""] + (head + tail) == [""] + head + tail;
    } else {
      assert (head + tail)[1..] == head[1..] + tail;
    }
  }

  /** One step of a split. */
  lemma SplitCons(c: char, t: string, sep: char)
    ensures Split([c] + t, sep) ==
      if c == sep then [""] + Split(t, sep)
      else [[c] + Split(t, sep)[0]] + Split(t, sep)[1..]
  {
    assert ([c] + t)[1..] == t;
  }

  /** Splitting a joined list of separator-free parts gives the parts back. */
  lemma {:induction false} SplitJoin(parts: seq<string>, sep: char)
    requires |parts| > 0
    requires forall i :: 0 <= i < |parts| ==> sep !in parts[i]
    ensures Split(Join(parts, sep), sep) == parts
    decreases |parts|
  {
    if |parts| == 1 {
      SplitAfterPart(parts[0], sep, "");
    } else {
      SplitJoin(parts[1..], sep);
      SplitAfterPart(parts[0], sep, Join(parts[1..], sep));
      assert [parts[0]] + parts[1..] == parts;
    }
  }

  /** Joining the parts of a split gives the text back. */
  lemma {:induction false} JoinSplit(s: string, sep: char)
    ensures Join(Split(s, sep), sep) == s
    decreases |s|
  {
    if |s| > 0 {
      JoinSplit(s[1..], sep);
      var rest := Split(s[1..], sep);
      if s[0] != sep {
        var parts := Split(s, sep);
        assert parts[0] == [s[0]] + rest[0] && parts[1..] == rest[1..];
        if |rest| == 1 {
          assert Join(parts, sep) == [s[0]] + rest[0];
        } else {
          assert Join(rest, sep) == rest[0] + [sep] + Join(rest[1..], sep);
          assert Join(parts, sep) == [s[0]] + rest[0] + [sep] + Join(rest[1..], sep);
        }
        assert s == [s[0]] + s[1..];
      } else {
        assert Split(s, sep) == [""] + rest;
        assert ([""] + rest)[1..] == rest;
        assert s == [sep] + s[1..];
      }
    }
  }

  /** A sign or a digit is not white space. */
  lemma SignOrDigitNotSpace(c: char)
    requires c == '-' || c == '+' || IsDigit(c)
    ensures !IsJsSpace(c)
  {
  }

  /** A numeral with an optional sign is its own trimmed text, its body is
      its digits, and it parses as the signed value of the digits. */
  lemma ParseNumeral(sign: string, digits: string)
    requires sign == "" || sign == "-" || sign == "+"
    requires |digits| > 0 && forall i :: 0 <= i < |digits| ==> IsDigit(digits[i])
    ensures TrimStart(sign + digits) == sign + digits
    ensures SignedBody(sign + digits) == digits
    ensures ParseInt(sign + digits) == Some(if sign == "-" then -(DigitsValue(digits) as int) else DigitsValue(digits))
  {
    var s := sign + digits;
    NumeralUntrimmed(sign, digits);
    NumeralBody(sign, digits);
    DigitsOnlyPrefix(digits);
    assert TrimStart(s) == s;
    assert |s| > 0 && s[0] == '-' <==> sign == "-";
  }

  /** A numeral starts with a sign or a digit, so no white space is skipped. */
  lemma NumeralUntrimmed(sign: string, digits: string)
    requires sign == "" || sign == "-" || sign == "+"
    requires |digits| > 0 && IsDigit(digits[0])
    ensures TrimStart(sign + digits) == sign + digits
  {
    var s := sign + digits;
    assert s[0] == if sign == "" then digits[0] else sign[0];
    SignOrDigitNotSpace(s[0]);
  }

  /** What follows the sign of a numeral is its digits. */
  lemma NumeralBody(sign: string, digits: string)
    requires sign == "" || sign == "-" || sign == "+"
    requires |digits| > 0 && IsDigit(digits[0])
    ensures SignedBody(sign + digits) == digits
  {
    var s := sign + digits;
    if sign != "" {
      assert s[1..] == digits;
    } else {
      assert s == digits;
      assert s[0] != '-' && s[0] != '+';
    }
  }

  /** The text of an integer is its sign and the numeral of its magnitude. */
  lemma IntToStringParts(n: int)
    ensures IntToString(n) == (if n < 0 then "-" else "") + NatToString(if n < 0 then -n else n)
  {
    if n >= 0 {
      assert "" + NatToString(n) == NatToString(n);
    }
  }

  /** Decimal text of an integer parses back to it. */
  lemma ParseIntToString(n: int)
    ensures ParseInt(IntToString(n)) == Some(n)
  {
    IntToStringParts(n);
    ParseNumeral(if n < 0 then "-" else "", NatToString(if n < 0 then -n else n));
  }

  /** A text made only of digits is its own longest digit prefix. */
  lemma {:induction false} DigitsOnlyPrefix(s: string)
    requires forall i :: 0 <= i < |s| ==> IsDigit(s[i])
    ensures DigitPrefix(s) == s
    decreases |s|
  {
    if |s| > 0 {
      DigitsOnlyPrefix(s[1..]);
      assert [s[0]] + s[1..] == s;
    }
  }

  // ---------------------------------------------------------------------
  // lodash path strings

  /** Characters that delimit path segments. */
  predicate IsSeparator(c: char) {
    c == '.' || c == '[' || c == ']'
  }

  /** A path is "deep" when it contains a dot or a bracket group `[...]`
      with no bracket inside; otherwise lodash uses it as a single key. */
  predicate IsDeep(p: string) {
    (exists i :: 0 <= i < |p| && p[i] == '.')
    || exists i, j :: 0 <= i < j < |p| && p[i] == '[' && p[j] == ']' && NoBracketBetween(p, i, j)
  }

  predicate NoBracketBetween(p: string, i: int, j: int)
    requires 0 <= i < j < |p|
  {
    forall k :: i < k < j ==> p[k] != '[' && p[k] != ']'
  }

  /** End of the run of non-separator characters starting at `i`. */
  function RunEnd(p: string, i: nat): (j: nat)
    requires i <= |p|
    ensures i <= j <= |p|
    ensures forall k :: i <= k < j ==> !IsSeparator(p[k])
    ensures j == |p| || IsSeparator(p[j])
    decreases |p| - i
  {
    if i < |p| && !IsSeparator(p[i]) then RunEnd(p, i + 1) else i
  }

  /** End of the run of decimal digits starting at `i`. */
  function DigitsEnd(p: string, i: nat): (j: nat)
    requires i <= |p|
    ensures i <= j <= |p|
    decreases |p| - i
  {
    if i < |p| && IsDigit(p[i]) then DigitsEnd(p, i + 1) else i
  }

  /** Position of the `]` closing a numeric bracket `[-?d+(.d+)?]` whose
      contents start at `i`, if there is one. */
  function NumberBracketClose(p: string, i: nat): (r: Option<nat>)
    requires i <= |p|
    ensures r.Some? ==> i < r.value < |p| && p[r.value] == ']'
  {
    var a := if i < |p| && p[i] == '-' then i + 1 else i;
    var b := DigitsEnd(p, a);
    if b == a then None
    else
      var c := if b + 1 < |p| && p[b] == '.' && DigitsEnd(p, b + 1) > b + 1 then DigitsEnd(p, b + 1) else b;
      if c < |p| && p[c] == ']' then Some(c) else None
  }

  /** True where the path yields an empty segment: a `.` or `[]` that is
      followed by another `.`, another `[]`, or the end of the path. */
  predicate EmptySegmentAt(p: string, i: nat)
    requires i < |p|
  {
    var k := if p[i] == '.' then i + 1
             else if p[i] == '[' && i + 1 < |p| && p[i + 1] == ']' then i + 2
             else 0;
    k > i && (k == |p| || p[k] == '.' || (p[k] == '[' && k + 1 < |p| && p[k + 1] == ']'))
  }

  /** The token lodash's path tokenizer reads at position `i`: a run of
      plain characters, a numeric bracket, an empty segment, or any other
      separator character, which yields no segment. The result is the
      segment read, if any, and where the next token starts. */
  function Token(p: string, i: nat): (t: (Option<string>, nat))
    requires i < |p|
    ensures i < t.1 <= |p|
  {
    if !IsSeparator(p[i]) then (Some(p[i..RunEnd(p, i)]), RunEnd(p, i))
    else if p[i] == '[' && NumberBracketClose(p, i + 1).Some? then
      var c := NumberBracketClose(p, i + 1).value;
      (Some(p[i + 1..c]), c + 1)
    else if EmptySegmentAt(p, i) then (Some(""), i + 1)
    else (None, i + 1)
  }

  /** The segments the tokenizer reads from position `i` on. */
  function Segments(p: string, i: nat): seq<string>
    requires i <= |p|
    decreases |p| - i
  {
    if i == |p| then []
    else
      var t := Token(p, i);
      (if t.0.Some? then [t.0.value] else []) + Segments(p, t.1)
  }

  /** lodash `stringToPath`: a leading dot contributes an empty first segment. */
  function StringToPath(p: string): seq<string> {
    (if |p| > 0 && p[0] == '.' then [""] else []) + Segments(p, 0)
  }

  /** lodash `castPath` for a string path against the object being read. */
  function CastPath(v: Json, p: string): seq<string> {
    if !IsDeep(p) || Prop(v, p).Some? then [p] else StringToPath(p)
  }

  /** lodash `baseGet` after the first step: follow the segments while
      the current value is neither null nor undefined. */
  function Walk(v: Option<Json>, path: seq<string>): Option<Json>
    decreases |path|
  {
    if |path| == 0 then v
    else match v
      case None => None
      case Some(JNull) => None
      case Some(x) => Walk(Prop(x, path[0]), path[1..])
  }

  /** lodash `_.get(v, lookup, default)`: the value at the path, or the
      default when the path resolves to undefined. A null found on the
      way that ends the path is returned as null, not as the default.
      Only string lookups are modelled; any other lookup resolves to undefined. */
  function Get(v: Json, lookup: Json, default: Json): (r: Json)
    ensures Resolve(v, lookup).Some? ==> r == Resolve(v, lookup).value
    ensures Resolve(v, lookup).None? ==> r == default
  {
    Resolve(v, lookup).GetOr(default)
  }

  /** What `_.get(v, lookup)` returns without a default. */
  function Resolve(v: Json, lookup: Json): Option<Json> {
    if lookup.JStr? then
      var path := CastPath(v, lookup.s);
      if |path| == 0 then None else Walk(Some(v), path)
    else None
  }

  /** The lookup path "." does not mean the whole record: it reads the
      key "" twice, so on a record without that key it yields the default. */
  lemma DotLookupYieldsDefault(fields: seq<(string, Json)>, default: Json)
    requires forall i :: 0 <= i < |fields| ==> fields[i].0 != "" && fields[i].0 != "."
    ensures Get(JObj(fields), JStr("."), default) == default
  {
    var v := JObj(fields);
    assert IsDeep(".");
    assert Prop(v, ".") == None;
    assert EmptySegmentAt(".", 0);
    assert Segments(".", 1) == [];
    assert StringToPath(".") == ["", ""];
    assert CastPath(v, ".") == ["", ""];
    assert Prop(v, "") == None;
    assert Walk(Some(v), ["", ""]) == Walk(None, [""]);
  }

  /** A path without dots or brackets reads exactly that key. */
  lemma PlainKeyLookup(v: Json, key: string)
    requires forall i :: 0 <= i < |key| ==> !IsSeparator(key[i])
    ensures Resolve(v, JStr(key)) == Prop(v, key)
  {
    assert !IsDeep(key);
    assert CastPath(v, key) == [key];
    assert [key][1..] == [];
    if !v.JNull? {
      assert Walk(Some(v), [key]) == Walk(Prop(v, key), []);
    }
  }

  /** One step of a lookup path as the views write it: a property name,
      or the digits of an array index in brackets. */
  datatype PathStep = Key(name: string) | Index(digits: string)

  /** A name that can follow a dot: non-empty, with no dot or bracket. */
  predicate PlainKey(k: string) {
    |k| > 0 && forall i :: 0 <= i < |k| ==> !IsSeparator(k[i])
  }

  /** A non-empty run of decimal digits. */
  predicate AllDigits(d: string) {
    |d| > 0 && forall i :: 0 <= i < |d| ==> IsDigit(d[i])
  }

  predicate PlainSteps(steps: seq<PathStep>) {
    forall i :: 0 <= i < |steps| ==>
      (steps[i].Key? ==> PlainKey(steps[i].name)) && (steps[i].Index? ==> AllDigits(steps[i].digits))
  }

  /** The text of a step that follows another: `.name` or `[digits]`. */
  function StepText(s: PathStep): string {
    match s
    case Key(k) => "." + k
    case Index(d) => "[" + d + "]"
  }

  function StepsText(steps: seq<PathStep>): string
    decreases |steps|
  {
    if |steps| == 0 then "" else StepText(steps[0]) + StepsText(steps[1..])
  }

  /** The lookup text of a path: `album.images[0].url` for
      `[Key("album"), Key("images"), Index("0"), Key("url")]`. */
  function PathText(steps: seq<PathStep>): string {
    if |steps| > 0 && steps[0].Key? then steps[0].name + StepsText(steps[1..])
    else StepsText(steps)
  }

  /** The property name a step reads. */
  function StepName(s: PathStep): string {
    if s.Key? then s.name else s.digits
  }

  function StepNames(steps: seq<PathStep>): (names: seq<string>)
    ensures |names| == |steps|
    decreases |steps|
  {
    if |steps| == 0 then [] else [StepName(steps[0])] + StepNames(steps[1..])
  }

  /** The text and the names of a path are built step by step. */
  lemma StepsCons(s: PathStep, rest: seq<PathStep>)
    ensures StepsText([s] + rest) == StepText(s) + StepsText(rest)
    ensures StepNames([s] + rest) == [StepName(s)] + StepNames(rest)
  {
    assert ([s] + rest)[1..] == rest;
  }

  /** The text and names of the path shapes the views use. */
  lemma KeyKeyPath(a: string, b: string)
    ensures PathText([Key(a), Key(b)]) == a + ("." + b)
    ensures StepNames([Key(a), Key(b)]) == [a, b]
  {
    StepsCons(Key(b), []);
    assert [Key(a), Key(b)][1..] == [Key(b)] == [Key(b)] + [];
  }

  lemma KeyIndexPath(a: string, d: string)
    ensures PathText([Key(a), Index(d)]) == a + ("[" + d + "]")
    ensures StepNames([Key(a), Index(d)]) == [a, d]
  {
    StepsCons(Index(d), []);
    assert [Key(a), Index(d)][1..] == [Index(d)] == [Index(d)] + [];
  }

  lemma KeyKeyIndexKeyPath(a: string, b: string, d: string, c: string)
    ensures PathText([Key(a), Key(b), Index(d), Key(c)]) == a + ("." + b + ("[" + d + "]" + ("." + c)))
    ensures StepNames([Key(a), Key(b), Index(d), Key(c)]) == [a, b, d, c]
  {
    var more := [Key(b), Index(d), Key(c)];
    KeyIndexKeySteps(b, d, c);
    assert [Key(a), Key(b), Index(d), Key(c)] == [Key(a)] + more;
    StepsCons(Key(a), more);
  }

  lemma KeyIndexKeySteps(b: string, d: string, c: string)
    ensures StepsText([Key(b), Index(d), Key(c)]) == "." + b + ("[" + d + "]" + ("." + c))
    ensures StepNames([Key(b), Index(d), Key(c)]) == [b, d, c]
  {
    var last := [Key(c)];
    var twoLast := [Index(d)] + last;
    assert last[1..] == [];
    assert StepsText(last) == "." + c + "";
    StepsCons(Index(d), last);
    assert [Key(b), Index(d), Key(c)] == [Key(b)] + twoLast;
    StepsCons(Key(b), twoLast);
  }

  /** A run of plain characters ends at the first separator or at the end. */
  lemma {:induction false} RunEndAt(p: string, i: nat, j: nat)
    requires i <= j <= |p|
    requires forall k :: i <= k < j ==> !IsSeparator(p[k])
    requires j == |p| || IsSeparator(p[j])
    ensures RunEnd(p, i) == j
    decreases j - i
  {
    if i < j {
      RunEndAt(p, i + 1, j);
    }
  }

  /** A run of digits ends at the first non-digit or at the end. */
  lemma {:induction false} DigitsEndAt(p: string, i: nat, j: nat)
    requires i <= j <= |p|
    requires forall k :: i <= k < j ==> IsDigit(p[k])
    requires j == |p| || !IsDigit(p[j])
    ensures DigitsEnd(p, i) == j
    decreases j - i
  {
    if i < j {
      DigitsEndAt(p, i + 1, j);
    }
  }

  /** Text that is empty or starts a further step, with a dot or a bracket. */
  predicate StartsStep(tail: string) {
    |tail| == 0 || tail[0] == '.' || tail[0] == '['
  }

  /** The text of further steps is empty or starts with a dot or a bracket. */
  lemma StepsTextStart(steps: seq<PathStep>)
    ensures StartsStep(StepsText(steps))
    ensures |steps| > 0 ==> |StepsText(steps)| > 0
  {
  }

  lemma PlainStepsTail(steps: seq<PathStep>)
    requires |steps| > 0 && PlainSteps(steps)
    ensures PlainSteps(steps[1..])
  {
    forall i | 0 <= i < |steps| - 1
      ensures steps[1..][i].Key? ==> PlainKey(steps[1..][i].name)
    {
      assert steps[1..][i] == steps[i + 1];
    }
  }

  /** A dot followed by a plain character yields no segment of its own. */
  lemma DotToken(p: string, i: nat)
    requires i + 1 < |p| && p[i] == '.' && !IsSeparator(p[i + 1])
    ensures Token(p, i) == (None, i + 1)
  {
    assert !EmptySegmentAt(p, i);
  }

  /** A run of plain characters is one segment. */
  lemma KeyToken(p: string, i: nat, e: nat)
    requires i < e <= |p|
    requires forall m :: i <= m < e ==> !IsSeparator(p[m])
    requires e == |p| || IsSeparator(p[e])
    ensures Token(p, i) == (Some(p[i..e]), e)
  {
    RunEndAt(p, i, e);
  }

  /** A bracket around a run of digits, closed just before `e`, gives
      the digits as one segment. */
  lemma IndexToken(p: string, i: nat, e: nat)
    requires i + 2 < e <= |p| && p[i] == '[' && p[e - 1] == ']'
    requires forall m :: i + 1 <= m < e - 1 ==> IsDigit(p[m])
    ensures Token(p, i) == (Some(p[i + 1..e - 1]), e)
  {
    NumberBracketCloseAt(p, i + 1, e - 1);
  }

  /** A run of digits closed by `]` is a numeric bracket. */
  lemma NumberBracketCloseAt(p: string, a: nat, b: nat)
    requires a < b < |p| && p[b] == ']'
    requires forall m :: a <= m < b ==> IsDigit(p[m])
    ensures NumberBracketClose(p, a) == Some(b)
  {
    assert p[a] != '-' by {
      assert IsDigit(p[a]);
    }
    DigitsEndAt(p, a, b);
  }

  /** The characters of a `.name` step at position i of the path text,
      which ends at e. */
  lemma KeyStepChars(p: string, i: nat, k: string, tail: string, e: nat)
    requires i <= |p| && p[i..] == "." + k + tail && PlainKey(k) && StartsStep(tail)
    requires e == i + 1 + |k|
    ensures e <= |p| && p[i] == '.' && p[i + 1..e] == k && p[e..] == tail
    ensures forall m :: i + 1 <= m < e ==> !IsSeparator(p[m])
    ensures e == |p| || IsSeparator(p[e])
  {
    assert p[i..][0] == '.';
    assert p[i + 1..e] == p[i..][1..1 + |k|];
    forall m | i + 1 <= m < e
      ensures !IsSeparator(p[m])
    {
      assert p[m] == k[m - i - 1];
    }
    assert p[e..] == p[i..][1 + |k|..];
  }

  /** The characters of an `[digits]` step at position i of the path
      text, which ends at e. */
  lemma IndexStepChars(p: string, i: nat, d: string, tail: string, e: nat)
    requires i <= |p| && p[i..] == "[" + d + "]" + tail && AllDigits(d)
    requires e == i + 2 + |d|
    ensures e <= |p| && p[i] == '[' && p[e - 1] == ']' && p[i + 1..e - 1] == d && p[e..] == tail
    ensures forall m :: i + 1 <= m < e - 1 ==> IsDigit(p[m])
  {
    var t := p[i..];
    assert t[0] == '[' && t[1 + |d|] == ']';
    assert t[1..1 + |d|] == d;
    assert p[i + 1..e - 1] == t[1..1 + |d|];
    forall m | i + 1 <= m < e - 1
      ensures IsDigit(p[m])
    {
      assert p[m] == d[m - i - 1];
    }
    assert p[e..] == t[2 + |d|..];
  }

  /** The text of steps that follow another reads back as their names. */
  lemma {:induction false} SegmentsOfSteps(p: string, i: nat, steps: seq<PathStep>)
    requires i <= |p| && p[i..] == StepsText(steps) && PlainSteps(steps)
    ensures Segments(p, i) == StepNames(steps)
    decreases |steps|
  {
    if |steps| == 0 {
      assert |p[i..]| == 0;
    } else {
      var rest := steps[1..];
      PlainStepsTail(steps);
      var e := i + |StepText(steps[0])|;
      assert p[i..] == StepText(steps[0]) + StepsText(rest);
      if steps[0].Key? {
        assert PlainKey(steps[0].name) && e == i + 1 + |steps[0].name|;
        StepsTextStart(rest);
        KeyStepSegment(p, i, steps[0].name, StepsText(rest), e);
      } else {
        assert AllDigits(steps[0].digits) && e == i + 2 + |steps[0].digits|;
        IndexStepSegment(p, i, steps[0].digits, StepsText(rest), e);
      }
      SegmentsOfSteps(p, e, rest);
      assert StepNames(steps) == [StepName(steps[0])] + StepNames(rest);
    }
  }

  /** A `.name` step reads back as the segment `name`. */
  lemma KeyStepSegment(p: string, i: nat, k: string, tail: string, e: nat)
    requires i <= |p| && p[i..] == "." + k + tail && PlainKey(k) && StartsStep(tail)
    requires e == i + 1 + |k|
    ensures e <= |p| && p[e..] == tail
    ensures Segments(p, i) == [k] + Segments(p, e)
  {
    KeyStepChars(p, i, k, tail, e);
    KeySegment(p, i, e);
  }

  /** A dot and a run of plain characters after it give the run as one segment. */
  lemma KeySegment(p: string, i: nat, e: nat)
    requires i + 1 < e <= |p| && p[i] == '.'
    requires forall m :: i + 1 <= m < e ==> !IsSeparator(p[m])
    requires e == |p| || IsSeparator(p[e])
    ensures Segments(p, i) == [p[i + 1..e]] + Segments(p, e)
  {
    DotToken(p, i);
    assert Segments(p, i) == Segments(p, i + 1);
    KeyToken(p, i + 1, e);
  }

  /** An `[digits]` step reads back as the segment of its digits. */
  lemma IndexStepSegment(p: string, i: nat, d: string, tail: string, e: nat)
    requires i <= |p| && p[i..] == "[" + d + "]" + tail && AllDigits(d)
    requires e == i + 2 + |d|
    ensures e <= |p| && p[e..] == tail
    ensures Segments(p, i) == [d] + Segments(p, e)
  {
    IndexStepChars(p, i, d, tail, e);
    IndexSegment(p, i, e);
  }

  /** A bracket around a run of digits, closed just before `e`, gives the
      digits as one segment. */
  lemma IndexSegment(p: string, i: nat, e: nat)
    requires i + 2 < e <= |p| && p[i] == '[' && p[e - 1] == ']'
    requires forall m :: i + 1 <= m < e - 1 ==> IsDigit(p[m])
    ensures Segments(p, i) == [p[i + 1..e - 1]] + Segments(p, e)
  {
    IndexToken(p, i, e);
  }

  /** lodash's string-to-path reads the text of a path back as its names. */
  lemma PathSegments(steps: seq<PathStep>)
    requires |steps| > 0 && PlainSteps(steps)
    ensures StringToPath(PathText(steps)) == StepNames(steps)
  {
    var p := PathText(steps);
    if steps[0].Key? {
      var k := steps[0].name;
      var rest := steps[1..];
      PlainStepsTail(steps);
      StepsTextStart(rest);
      HeadKeyChars(p, k, StepsText(rest));
      KeyToken(p, 0, |k|);
      SegmentsOfSteps(p, |k|, rest);
      assert Segments(p, 0) == [k] + Segments(p, |k|);
    } else {
      assert p[0..] == p;
      SegmentsOfSteps(p, 0, steps);
      StepsTextStart(steps);
    }
  }

  /** The characters of the leading name of a path text. */
  lemma HeadKeyChars(p: string, k: string, tail: string)
    requires p == k + tail && PlainKey(k) && StartsStep(tail)
    ensures |k| <= |p| && p[0] != '.' && p[0..|k|] == k && p[|k|..] == tail
    ensures forall m :: 0 <= m < |k| ==> !IsSeparator(p[m])
    ensures |k| == |p| || IsSeparator(p[|k|])
  {
    assert p[0] == k[0];
    forall m | 0 <= m < |k|
      ensures !IsSeparator(p[m])
    {
      assert p[m] == k[m];
    }
  }

  /** A path of more than one step, or one index, is deep: it holds a dot
      or a closed bracket pair. */
  lemma PathIsDeep(steps: seq<PathStep>)
    requires |steps| > 0 && PlainSteps(steps)
    requires |steps| > 1 || steps[0].Index?
    ensures IsDeep(PathText(steps))
  {
    var p := PathText(steps);
    var q := if steps[0].Key? then |steps[0].name| else 0;
    var more := if steps[0].Key? then steps[1..] else steps;
    if steps[0].Key? {
      PlainStepsTail(steps);
      StepsTextStart(more);
      HeadKeyChars(p, steps[0].name, StepsText(more));
    } else {
      assert p[0..] == p;
    }
    assert p[q..] == StepText(more[0]) + StepsText(more[1..]);
    if more[0].Key? {
      assert p[q] == '.';
    } else {
      var d := more[0].digits;
      assert AllDigits(d);
      IndexStepChars(p, q, d, StepsText(more[1..]), q + 2 + |d|);
      BracketIsDeep(p, q, q + 2 + |d|);
    }
  }

  /** A bracket pair around digits makes a path deep. */
  lemma BracketIsDeep(p: string, q: nat, e: nat)
    requires q + 1 < e <= |p| && p[q] == '[' && p[e - 1] == ']'
    requires forall m :: q + 1 <= m < e - 1 ==> IsDigit(p[m])
    ensures IsDeep(p)
  {
    assert NoBracketBetween(p, q, e - 1);
  }

  /** A path written with dots and brackets, `followers.total`,
      `genres[0]`, `album.images[0].url`, reads its names one after the
      other: each step reads a property of what the previous one found,
      and a null or missing value before the last step ends the walk.
      This holds unless the record has a property whose name is the whole
      text of the path. */
  lemma PathLookup(v: Json, steps: seq<PathStep>)
    requires |steps| > 0 && PlainSteps(steps)
    requires Prop(v, PathText(steps)).None?
    ensures Resolve(v, JStr(PathText(steps))) == Walk(Some(v), StepNames(steps))
  {
    var p := PathText(steps);
    var names := StepNames(steps);
    if |steps| > 1 || steps[0].Index? {
      PathIsDeep(steps);
      PathSegments(steps);
      ResolveDeep(v, p, names);
    } else {
      assert steps[1..] == [];
      assert StepsText(steps[1..]) == "" && StepNames(steps[1..]) == [];
      assert p == steps[0].name && names == [p];
      PlainKeyLookup(v, p);
      WalkStep(Some(v), [], p);
      assert [] + [p] == names;
    }
  }

  /** A deep path that is not a property of its own is walked as
      lodash's string-to-path splits it. */
  lemma ResolveDeep(v: Json, p: string, names: seq<string>)
    requires IsDeep(p) && Prop(v, p).None?
    requires StringToPath(p) == names && |names| > 0
    ensures Resolve(v, JStr(p)) == Walk(Some(v), names)
  {
    assert CastPath(v, p) == names;
  }

  /** Walking one step more reads that property of what the walk found,
      unless it found nothing or null. */
  lemma {:induction false} WalkStep(v: Option<Json>, path: seq<string>, key: string)
    ensures Walk(v, path + [key]) ==
      match Walk(v, path)
      case None => None
      case Some(JNull) => None
      case Some(x) => Prop(x, key)
    decreases |path|
  {
    if |path| == 0 {
      assert [] + [key] == [key];
      assert [key][1..] == [];
    } else if v.Some? && !v.value.JNull? {
      assert (path + [key])[1..] == path[1..] + [key];
      WalkStep(Prop(v.value, path[0]), path[1..], key);
    }
  }

  /** Walking from a value that is not null reads its first property, then
      walks on from there. */
  lemma WalkFrom(x: Json, key: string, rest: seq<string>)
    requires !x.JNull?
    ensures Walk(Some(x), [key] + rest) == Walk(Prop(x, key), rest)
  {
    assert ([key] + rest)[1..] == rest;
  }

  /** A bracketed index reads that element of an array, and nothing past
      its end. */
  lemma IndexStep(items: seq<Json>, d: string)
    requires IsCanonicalIndex(d)
    ensures DigitsValue(d) < |items| ==> Prop(JArr(items), d) == Some(items[DigitsValue(d)])
    ensures DigitsValue(d) >= |items| ==> Prop(JArr(items), d) == None
  {
    assert d != "length" by {
      assert IsDigit(d[0]);
    }
  }

  /** A null at the end of a path is the cell's value: `_.get` hands it
      back instead of the default. */
  lemma NullAtPathEndKept(v: Json, steps: seq<PathStep>, default: Json)
    requires |steps| > 0 && PlainSteps(steps)
    requires Prop(v, PathText(steps)).None?
    requires Walk(Some(v), StepNames(steps)) == Some(JNull)
    ensures Get(v, JStr(PathText(steps)), default) == JNull
  {
    PathLookup(v, steps);
  }

  /** `a.b` reads property `b` of property `a`. */
  lemma FieldOfFieldRead(v: Json, a: string, b: string, x: Json, y: Json)
    requires PlainKey(a) && PlainKey(b) && Prop(v, a + ("." + b)).None?
    requires Prop(v, a) == Some(x) && Prop(x, b) == Some(y)
    ensures Resolve(v, JStr(a + ("." + b))) == Some(y)
  {
    var path := [Key(a), Key(b)];
    KeyKeyPath(a, b);
    PathLookup(v, path);
    WalkFrom(v, a, [b]);
    WalkFrom(x, b, []);
  }

  /** `a[d]` reads the element at index `d` of the array in property `a`. */
  lemma IndexOfFieldRead(v: Json, a: string, d: string, items: seq<Json>)
    requires PlainKey(a) && IsCanonicalIndex(d) && Prop(v, a + ("[" + d + "]")).None?
    requires Prop(v, a) == Some(JArr(items)) && DigitsValue(d) < |items|
    ensures Resolve(v, JStr(a + ("[" + d + "]"))) == Some(items[DigitsValue(d)])
  {
    var path := [Key(a), Index(d)];
    KeyIndexPath(a, d);
    PathLookup(v, path);
    WalkFrom(v, a, [d]);
    IndexStep(items, d);
    WalkFrom(JArr(items), d, []);
  }

  /** `a.b[d].c` reads property `c` of the element at index `d` of the
      array in property `b` of property `a`. */
  lemma FieldOfIndexOfFieldRead(v: Json, a: string, b: string, d: string, c: string, x: Json, items: seq<Json>, y: Json)
    requires PlainKey(a) && PlainKey(b) && IsCanonicalIndex(d) && PlainKey(c)
    requires Prop(v, a + ("." + b + ("[" + d + "]" + ("." + c)))).None?
    requires Prop(v, a) == Some(x) && Prop(x, b) == Some(JArr(items))
    requires DigitsValue(d) < |items| && Prop(items[DigitsValue(d)], c) == Some(y)
    ensures Resolve(v, JStr(a + ("." + b + ("[" + d + "]" + ("." + c))))) == Some(y)
  {
    var path := [Key(a), Key(b), Index(d), Key(c)];
    KeyKeyIndexKeyPath(a, b, d, c);
    PathLookup(v, path);
    assert [a, b, d, c] == [a] + ([b] + ([d] + [c]));
    WalkFrom(v, a, [b, d, c]);
    WalkFrom(x, b, [d, c]);
    IndexStep(items, d);
    WalkFrom(JArr(items), d, [c]);
    WalkFrom(items[DigitsValue(d)], c, []);
  }
}
