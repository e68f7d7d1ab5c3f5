/** The row-mapping engine: an ordered list of column rules, validated one
    by one as they are added, and a registry of named transformation
    handlers. It turns nested API records into flat rows, one value per rule. */
module Mapping {
  import opened Wrappers
  import opened Json
  import opened ErrorHelper

  /** The keys of the host's dataType enumeration. */
  const DATA_TYPES: seq<string> := ["bool", "date", "datetime", "float", "int", "string"]

  /** A transformation handler: a JavaScript function of one value.
      Returning `None` stands for returning undefined. */
  type HandlerFn = Json -> Option<Json>

  /** A rule's `transform` property: a function given inline, or any other
      value (a handler name, or undefined when the rule has none). */
  datatype Handler = Inline(f: HandlerFn) | Value(v: Option<Json>)

  /** A rule object; properties the engine ignores (such as `alias`) are left out. */
  datatype Rule = Rule(id: Option<Json>, lookup: Option<Json>, dataType: Option<Json>,
                       defaultValue: Option<Json>, transform: Handler)

  /** What `addRule` is given: a plain object, or something else (an array,
      a primitive, a class instance, undefined). */
  datatype RuleInput = PlainRule(rule: Rule) | NotPlainRule

  /** One flat row: rule ids paired with the values read for them. */
  type Row = seq<(string, Option<Json>)>

  /** The outcome of `prevalidateRule`: `true`, a returned Error, or an
      error thrown on the way. */
  datatype Check = Passes | Fails(error: ErrorInfo) | Throws(error: ErrorInfo)
  {
    predicate Rejects() { !Passes? }
  }

  function MappingError(message: string): ErrorInfo {
    Created(Some("Mapping"), message, None)
  }

  const NOT_LITERAL := "Mapping rules MUST be literal objects "
  const INVALID_ID := "Invalid id  @ mappingRule item  "
  const DUPLICATE_ID := "id MUST be unique @ mappingRule item  "
  const MISSING_DATA_TYPE := "dataType mandatory property missing @ mappingRule item  "
  const UNSUPPORTED_DATA_TYPE := "dataType unsupported  "
  const MISSING_LOOKUP := "lookup mandatory property missing @ mappingRule item  "

  /** `id.match` on a value that is not a string. */
  const ID_NOT_STRING := ErrorInfo("TypeError", "id.match is not a function", None)

  predicate IsAsciiLetter(c: char) {
    'a' <= c <= 'z' || 'A' <= c <= 'Z'
  }

  /** `/^[a-z][a-z0-9_]+$/i`: a letter, then at least one letter, digit or underscore. */
  predicate IsValidIdText(s: string) {
    |s| >= 2 && IsAsciiLetter(s[0])
    && forall i :: 1 <= i < |s| ==> IsAsciiLetter(s[i]) || IsDigit(s[i]) || s[i] == '_'
  }

  /** `isValidId(id)`: the regular expression test on a string id, with an
      undefined id read as "". Any other value makes `id.match` throw. */
  function IsValidId(id: Option<Json>): (r: Result<bool, ErrorInfo>)
    ensures id.None? ==> r == Success(false)
    ensures id.Some? && id.value.JStr? ==> r == Success(IsValidIdText(id.value.s))
    ensures id.Some? && !id.value.JStr? ==> r == Failure(ID_NOT_STRING)
  {
    match id
    case None => Success(IsValidIdText(""))
    case Some(JStr(s)) => Success(IsValidIdText(s))
    case Some(_) => Failure(ID_NOT_STRING)
  }

  predicate HasId(rules: seq<Rule>, id: Option<Json>) {
    exists i :: 0 <= i < |rules| && rules[i].id == id
  }

  predicate IsDataType(v: Option<Json>) {
    v.Some? && v.value.JStr? && v.value.s in DATA_TYPES
  }

  /** `prevalidateRule(rule)` against the rules already held: the checks
      in their fixed order; the first one that fails decides. */
  function Prevalidate(rules: seq<Rule>, input: RuleInput): (c: Check)
    ensures c.Passes? <==> input.PlainRule? && Admissible(input.rule) && !HasId(rules, input.rule.id)
  {
    if input.NotPlainRule? then Fails(MappingError(NOT_LITERAL))
    else
      var rule := input.rule;
      match IsValidId(rule.id)
      case Failure(e) => Throws(e)
      case Success(valid) =>
        if !valid then Fails(MappingError(INVALID_ID))
        else if HasId(rules, rule.id) then Fails(MappingError(DUPLICATE_ID))
        else if !Truthy(rule.dataType) then Fails(MappingError(MISSING_DATA_TYPE))
        else if !IsDataType(rule.dataType) then Fails(MappingError(UNSUPPORTED_DATA_TYPE))
        else if !Truthy(rule.lookup) then Fails(MappingError(MISSING_LOOKUP))
        else Passes
  }

  /** `prevalidateRule` reports the first check that fails, in the order:
      a literal object, a valid id (a non-string id throws), an unused id,
      a dataType, a supported dataType, a lookup. */
  lemma PrevalidateFirstFailure(rules: seq<Rule>, input: RuleInput)
    ensures input.NotPlainRule? ==> Prevalidate(rules, input) == Fails(MappingError(NOT_LITERAL))
    ensures input.PlainRule? && input.rule.id.Some? && !input.rule.id.value.JStr? ==>
      Prevalidate(rules, input) == Throws(ID_NOT_STRING)
    ensures input.PlainRule? && (input.rule.id.None? ||
                                 (input.rule.id.value.JStr? && !IsValidIdText(input.rule.id.value.s))) ==>
      Prevalidate(rules, input) == Fails(MappingError(INVALID_ID))
    ensures input.PlainRule? && ValidStringId(input.rule.id) && HasId(rules, input.rule.id) ==>
      Prevalidate(rules, input) == Fails(MappingError(DUPLICATE_ID))
    ensures input.PlainRule? && ValidStringId(input.rule.id) && !HasId(rules, input.rule.id)
            && !Truthy(input.rule.dataType) ==>
      Prevalidate(rules, input) == Fails(MappingError(MISSING_DATA_TYPE))
    ensures input.PlainRule? && ValidStringId(input.rule.id) && !HasId(rules, input.rule.id)
            && Truthy(input.rule.dataType) && !IsDataType(input.rule.dataType) ==>
      Prevalidate(rules, input) == Fails(MappingError(UNSUPPORTED_DATA_TYPE))
    ensures input.PlainRule? && ValidStringId(input.rule.id) && !HasId(rules, input.rule.id)
            && IsDataType(input.rule.dataType) && !Truthy(input.rule.lookup) ==>
      Prevalidate(rules, input) == Fails(MappingError(MISSING_LOOKUP))
  {
    if input.PlainRule? && input.rule.id.None? {
      assert !IsValidIdText("");
    }
  }

  /** A string id that passes `isValidId`. */
  predicate ValidStringId(id: Option<Json>) {
    id.Some? && id.value.JStr? && IsValidIdText(id.value.s)
  }

  /** What a rule must satisfy on its own to be accepted. */
  predicate Admissible(rule: Rule) {
    ValidStringId(rule.id) && IsDataType(rule.dataType) && Truthy(rule.lookup)
  }

  /** Ids are pairwise distinct. */
  predicate DistinctIds(rules: seq<Rule>) {
    forall i, j :: 0 <= i < j < |rules| ==> rules[i].id != rules[j].id
  }

  /** The invariant of the rule list: every rule admissible, ids distinct. */
  predicate WellFormed(rules: seq<Rule>) {
    (forall i :: 0 <= i < |rules| ==> Admissible(rules[i])) && DistinctIds(rules)
  }

  /** Adding the inputs one by one, stopping at the first rejected one:
      the resulting list and the error thrown, if any. */
  function AddAll(rules: seq<Rule>, inputs: seq<RuleInput>): (seq<Rule>, Option<ErrorInfo>)
    decreases |inputs|
  {
    if |inputs| == 0 then (rules, None)
    else
      var c := Prevalidate(rules, inputs[0]);
      if c.Passes? then AddAll(rules + [inputs[0].rule], inputs[1..])
      else (rules, Some(c.error))
  }

  /** Adding rules keeps the list well formed. */
  lemma {:induction false} AddAllKeepsWellFormed(rules: seq<Rule>, inputs: seq<RuleInput>)
    requires WellFormed(rules)
    ensures WellFormed(AddAll(rules, inputs).0)
    decreases |inputs|
  {
    if |inputs| > 0 && Prevalidate(rules, inputs[0]).Passes? {
      var next := rules + [inputs[0].rule];
      assert WellFormed(next) by {
        forall i, j | 0 <= i < j < |next| ensures next[i].id != next[j].id {
          if j == |rules| {
            assert !HasId(rules, next[j].id);
            assert rules[i] == next[i];
          }
        }
      }
      AddAllKeepsWellFormed(next, inputs[1..]);
    }
  }

  /** Inputs that are all admissible plain rules, with ids distinct from
      each other and from the rules already held, are all accepted. */
  lemma {:induction false} AddAllAcceptsFresh(rules: seq<Rule>, inputs: seq<RuleInput>)
    requires forall i :: 0 <= i < |inputs| ==> inputs[i].PlainRule? && Admissible(inputs[i].rule)
    requires forall i :: 0 <= i < |inputs| ==> !HasId(rules, inputs[i].rule.id)
    requires forall i, j :: 0 <= i < j < |inputs| ==> inputs[i].rule.id != inputs[j].rule.id
    ensures AddAll(rules, inputs).1.None?
    ensures AddAll(rules, inputs).0 == rules + seq(|inputs|, i requires 0 <= i < |inputs| => inputs[i].rule)
    decreases |inputs|
  {
    if |inputs| > 0 {
      var next := rules + [inputs[0].rule];
      var tail := inputs[1..];
      forall i | 0 <= i < |tail| ensures !HasId(next, tail[i].rule.id) {
        assert tail[i] == inputs[i + 1];
      }
      AddAllAcceptsFresh(next, tail);
      var added := seq(|inputs|, i requires 0 <= i < |inputs| => inputs[i].rule);
      var addedTail := seq(|tail|, i requires 0 <= i < |tail| => tail[i].rule);
      assert added == [inputs[0].rule] + addedTail;
      assert next + addedTail == rules + added;
    }
  }

  /** The shape of `AddAll`: the old rules stay first and unchanged, the
      accepted inputs follow in order, and either every input was accepted
      or the error is the one the first rejected input raised. */
  lemma {:induction false} AddAllShape(rules: seq<Rule>, inputs: seq<RuleInput>)
    ensures var (out, err) := AddAll(rules, inputs);
      && |rules| <= |out| <= |rules| + |inputs|
      && out[..|rules|] == rules
      && (forall j :: |rules| <= j < |out| ==> inputs[j - |rules|] == PlainRule(out[j]))
      && (err.None? <==> |out| == |rules| + |inputs|)
      && (err.Some? ==> Prevalidate(out, inputs[|out| - |rules|]).Rejects()
                        && err.value == Prevalidate(out, inputs[|out| - |rules|]).error)
    decreases |inputs|
  {
    if |inputs| > 0 && Prevalidate(rules, inputs[0]).Passes? {
      var next := rules + [inputs[0].rule];
      AddAllShape(next, inputs[1..]);
      var out := AddAll(next, inputs[1..]).0;
      assert out[..|rules|] == out[..|next|][..|rules|];
      forall j | |rules| <= j < |out| ensures inputs[j - |rules|] == PlainRule(out[j]) {
        if j == |rules| {
          assert out[j] == out[..|next|][j];
        } else {
          assert inputs[j - |rules|] == inputs[1..][j - |next|];
        }
      }
      if AddAll(next, inputs[1..]).1.Some? {
        assert inputs[|out| - |rules|] == inputs[1..][|out| - |next|];
      }
    }
  }

  /** `transform(value, handler)`: a falsy handler keeps the value, a
      registered handler name or an inline function is applied, and any
      other handler (an unregistered name included) throws. */
  function Transform(handlers: map<string, HandlerFn>, value: Json, handler: Handler): (r: Result<Option<Json>, ErrorInfo>)
    ensures handler.Value? && !Truthy(handler.v) ==> r == Success(Some(value))
    ensures handler.Inline? ==> r == Success(handler.f(value))
    ensures (handler.Value? && handler.v.Some? && handler.v.value.JStr? && handler.v.value.s != ""
             && handler.v.value.s in handlers) ==> r == Success(handlers[handler.v.value.s](value))
    ensures r.Failure? <==> handler.Value? && Truthy(handler.v)
                            && !(handler.v.value.JStr? && handler.v.value.s in handlers)
    ensures r.Failure? ==> r.error == UndefinedHandler(handler.v)
  {
    match handler
    case Inline(f) => Success(f(value))
    case Value(v) =>
      if !Truthy(v) then Success(Some(value))
      else if v.value.JStr? && v.value.s in handlers then Success(handlers[v.value.s](value))
      else Failure(UndefinedHandler(v))
  }

  /** The error thrown for a transform that names no registered handler. */
  function UndefinedHandler(v: Option<Json>): ErrorInfo {
    Created(Some("TransformationHandler"), TemplateText(v) + " is not a defined Mapping transformationHandler function", None)
  }

  /** The key a rule's column gets in a row. */
  function ColumnKey(rule: Rule): string {
    TemplateText(rule.id)
  }

  /** The value looked up for a rule before its transform: the value at
      the lookup path, else the rule's defaultValue, else null. */
  function LookedUp(rule: Rule, item: Json): (v: Json)
    ensures Resolve(item, rule.lookup.GetOr(JNull)).Some? ==> v == Resolve(item, rule.lookup.GetOr(JNull)).value
    ensures Resolve(item, rule.lookup.GetOr(JNull)).None? ==> v == rule.defaultValue.GetOr(JNull)
  {
    Get(item, rule.lookup.GetOr(JNull), rule.defaultValue.GetOr(JNull))
  }

  /** The value of one column of the row built from `item`. */
  function Cell(handlers: map<string, HandlerFn>, rule: Rule, item: Json): Result<Option<Json>, ErrorInfo> {
    Transform(handlers, LookedUp(rule, item), rule.transform)
  }

  /** Put already built elements in front of a result, keeping a failure. */
  function Prepend<T>(xs: seq<T>, r: Result<seq<T>, ErrorInfo>): Result<seq<T>, ErrorInfo> {
    match r
    case Success(ys) => Success(xs + ys)
    case Failure(e) => Failure(e)
  }

  /** The row for one record: one column per rule, in rule order; the first
      column whose transform throws makes the whole row throw. */
  function RowOf(handlers: map<string, HandlerFn>, rules: seq<Rule>, item: Json): Result<Row, ErrorInfo>
    decreases |rules|
  {
    if |rules| == 0 then Success([])
    else match Cell(handlers, rules[0], item)
      case Failure(e) => Failure(e)
      case Success(v) => Prepend([(ColumnKey(rules[0]), v)], RowOf(handlers, rules[1..], item))
  }

  /** A row's keys are exactly the rule ids in rule order, and each value is
      the rule's transform applied to the looked-up value. */
  lemma {:induction false} RowShape(handlers: map<string, HandlerFn>, rules: seq<Rule>, item: Json)
    requires RowOf(handlers, rules, item).Success?
    ensures var row := RowOf(handlers, rules, item).value;
      |row| == |rules|
      && forall j :: 0 <= j < |rules| ==>
           row[j].0 == ColumnKey(rules[j]) && Cell(handlers, rules[j], item) == Success(row[j].1)
    decreases |rules|
  {
    if |rules| > 0 {
      RowShape(handlers, rules[1..], item);
      var row := RowOf(handlers, rules, item).value;
      var rest := RowOf(handlers, rules[1..], item).value;
      forall j | 1 <= j < |rules|
        ensures row[j].0 == ColumnKey(rules[j]) && Cell(handlers, rules[j], item) == Success(row[j].1)
      {
        assert row[j] == rest[j - 1] && rules[j] == rules[1..][j - 1];
      }
    }
  }

  /** A row is built exactly when every column's transform succeeds. */
  lemma {:induction false} RowSucceedsIffAllCells(handlers: map<string, HandlerFn>, rules: seq<Rule>, item: Json)
    ensures RowOf(handlers, rules, item).Success? <==>
      forall j :: 0 <= j < |rules| ==> Cell(handlers, rules[j], item).Success?
    decreases |rules|
  {
    if |rules| > 0 {
      RowSucceedsIffAllCells(handlers, rules[1..], item);
      AllCellsCons(handlers, rules, item);
      RowOfCons(handlers, rules, item);
    }
  }

  /** A row is built exactly when its first cell and the row of the remaining rules are. */
  lemma RowOfCons(handlers: map<string, HandlerFn>, rules: seq<Rule>, item: Json)
    requires |rules| > 0
    ensures RowOf(handlers, rules, item).Success?
      <==> Cell(handlers, rules[0], item).Success? && RowOf(handlers, rules[1..], item).Success?
  {
  }

  /** Every cell of the rules succeeds exactly when the first one and every cell of the rest do. */
  lemma AllCellsCons(handlers: map<string, HandlerFn>, rules: seq<Rule>, item: Json)
    requires |rules| > 0
    ensures (forall j :: 0 <= j < |rules| ==> Cell(handlers, rules[j], item).Success?)
      <==> Cell(handlers, rules[0], item).Success?
           && forall j :: 0 <= j < |rules[1..]| ==> Cell(handlers, rules[1..][j], item).Success?
  {
    assert forall j :: 1 <= j < |rules| ==> rules[j] == rules[1..][j - 1];
  }

  /** When column `j` is the first whose transform throws, the row throws its error. */
  lemma {:induction false} RowFailsAtFirstFailingCell(handlers: map<string, HandlerFn>, rules: seq<Rule>, item: Json, j: nat)
    requires j < |rules|
    requires forall k :: 0 <= k < j ==> Cell(handlers, rules[k], item).Success?
    requires Cell(handlers, rules[j], item).Failure?
    ensures RowOf(handlers, rules, item) == Failure(Cell(handlers, rules[j], item).error)
    decreases j
  {
    if j > 0 {
      assert forall k :: 1 <= k < |rules| ==> rules[k] == rules[1..][k - 1];
      RowFailsAtFirstFailingCell(handlers, rules[1..], item, j - 1);
    }
  }

  /** The records `flattenData` turns into rows: non-empty plain objects. */
  predicate Qualifies(v: Json) {
    IsPlainObject(Some(v)) && !IsEmpty(Some(v))
  }

  /** The qualifying records, in input order. */
  function Qualifying(data: seq<Json>): (q: seq<Json>)
    ensures |q| <= |data|
    ensures forall k :: 0 <= k < |q| ==> Qualifies(q[k])
  {
    if |data| == 0 then []
    else (if Qualifies(data[0]) then [data[0]] else []) + Qualifying(data[1..])
  }

  /** The rows of a list of records, one per record, in order; the first
      record whose row throws makes the whole result throw. */
  function RowsOf(handlers: map<string, HandlerFn>, rules: seq<Rule>, items: seq<Json>): (r: Result<seq<Row>, ErrorInfo>)
    ensures r.Success? ==> |r.value| == |items|
    ensures r.Success? ==> forall k :: 0 <= k < |items| ==> RowOf(handlers, rules, items[k]) == Success(r.value[k])
    decreases |items|
  {
    if |items| == 0 then Success([])
    else match RowOf(handlers, rules, items[0])
      case Failure(e) => Failure(e)
      case Success(row) =>
        var rest := RowsOf(handlers, rules, items[1..]);
        assert rest.Success? ==> forall k :: 1 <= k < |items| ==> items[k] == items[1..][k - 1];
        Prepend([row], rest)
  }

  /** What `flattenData(data)` returns or throws, record by record. */
  function Flatten(handlers: map<string, HandlerFn>, rules: seq<Rule>, data: seq<Json>): Result<seq<Row>, ErrorInfo>
    decreases |data|
  {
    if |data| == 0 then Success([])
    else if !Qualifies(data[0]) then Flatten(handlers, rules, data[1..])
    else match RowOf(handlers, rules, data[0])
      case Failure(e) => Failure(e)
      case Success(row) => Prepend([row], Flatten(handlers, rules, data[1..]))
  }

  /** `flattenData` emits one row per non-empty plain object, in input order,
      silently skipping every other record. */
  lemma {:induction false} FlattenIsRowsOfQualifying(handlers: map<string, HandlerFn>, rules: seq<Rule>, data: seq<Json>)
    ensures Flatten(handlers, rules, data) == RowsOf(handlers, rules, Qualifying(data))
    decreases |data|
  {
    if |data| > 0 {
      FlattenIsRowsOfQualifying(handlers, rules, data[1..]);
      if Qualifies(data[0]) {
        assert Qualifying(data) == [data[0]] + Qualifying(data[1..]);
        assert Qualifying(data)[1..] == Qualifying(data[1..]);
      } else {
        assert Qualifying(data) == Qualifying(data[1..]);
      }
    }
  }

  /** The registry after `addTransformationHandler(handler, key)`, or the
      error it throws: a missing key, then a key already registered, then a
      handler that is not a function. */
  function Register(handlers: map<string, HandlerFn>, handler: Handler, key: Option<string>): (r: Result<map<string, HandlerFn>, ErrorInfo>)
    ensures key.None? ==> r == Failure(Created(Some("TransformationHandler"), "key param is required", None))
    ensures key.Some? && key.value in handlers ==>
      r == Failure(Created(Some("TransformationHandler key"), key.value + " already exists on transformationHandlers object", None))
    ensures key.Some? && key.value !in handlers && handler.Value? ==>
      r == Failure(Created(Some("TransformationHandler"), TemplateText(handler.v) + " is not a defined valid function", None))
    ensures r.Success? <==> key.Some? && key.value !in handlers && handler.Inline?
    ensures r.Success? ==> r.value.Keys == handlers.Keys + {key.value}
    ensures r.Success? ==> r.value[key.value] == handler.f
    ensures r.Success? ==> forall k :: k in handlers ==> r.value[k] == handlers[k]
  {
    if key.None? then Failure(Created(Some("TransformationHandler"), "key param is required", None))
    else if key.value in handlers then
      Failure(Created(Some("TransformationHandler key"), key.value + " already exists on transformationHandlers object", None))
    else if handler.Value? then
      Failure(Created(Some("TransformationHandler"), TemplateText(handler.v) + " is not a defined valid function", None))
    else Success(handlers[key.value := handler.f])
  }

  /** The rows in order, with the holes left by skipped records dropped. */
  function Compact<T>(slots: seq<Option<T>>): (r: seq<T>)
    ensures |r| <= |slots|
  {
    if |slots| == 0 then []
    else (if slots[0].Some? then [slots[0].value] else []) + Compact(slots[1..])
  }

  lemma {:induction false} CompactAppend<T>(slots: seq<Option<T>>, x: Option<T>)
    ensures Compact(slots + [x]) == Compact(slots) + (if x.Some? then [x.value] else [])
    decreases |slots|
  {
    var tail := if x.Some? then [x.value] else [];
    if |slots| == 0 {
      assert slots + [x] == [x];
      assert [x][1..] == [];
      assert Compact([x]) == tail + Compact([x][1..]);
    } else {
      var head := if slots[0].Some? then [slots[0].value] else [];
      assert (slots + [x])[0] == slots[0];
      assert (slots + [x])[1..] == slots[1..] + [x];
      CompactAppend(slots[1..], x);
      calc {
        Compact(slots + [x]);
        head + Compact(slots[1..] + [x]);
        head + (Compact(slots[1..]) + tail);
        (head + Compact(slots[1..])) + tail;
      }
    }
  }

  /** A record that does not qualify is passed over. */
  lemma FlattenSkips(handlers: map<string, HandlerFn>, rules: seq<Rule>, data: seq<Json>, i: nat, done: seq<Row>)
    requires i < |data| && !Qualifies(data[i])
    ensures Prepend(done, Flatten(handlers, rules, data[i..])) == Prepend(done, Flatten(handlers, rules, data[i + 1..]))
  {
    assert data[i..][1..] == data[i + 1..];
  }

  /** A qualifying record throws its row's error, or adds its row after those already built. */
  lemma FlattenMaps(handlers: map<string, HandlerFn>, rules: seq<Rule>, data: seq<Json>, i: nat, done: seq<Row>)
    requires i < |data| && Qualifies(data[i])
    ensures RowOf(handlers, rules, data[i]).Failure? ==>
      Prepend(done, Flatten(handlers, rules, data[i..])) == Failure(RowOf(handlers, rules, data[i]).error)
    ensures RowOf(handlers, rules, data[i]).Success? ==>
      Prepend(done, Flatten(handlers, rules, data[i..]))
      == Prepend(done + [RowOf(handlers, rules, data[i]).value], Flatten(handlers, rules, data[i + 1..]))
  {
    assert data[i..][1..] == data[i + 1..];
    var row := RowOf(handlers, rules, data[i]);
    if row.Success? {
      PrependPrepend(done, [row.value], Flatten(handlers, rules, data[i + 1..]));
    }
  }

  /** The loop's account of `flattenData` after the first `i` records: the
      rows kept so far, in front of the rows of the remaining records. */
  ghost predicate FlatSoFar(handlers: map<string, HandlerFn>, rules: seq<Rule>, data: seq<Json>,
                            output: seq<Option<Row>>, i: nat)
  {
    i <= |data|
    && Flatten(handlers, rules, data) == Prepend(Compact(output), Flatten(handlers, rules, data[i..]))
  }

  /** Before the first record the account is the whole result. */
  lemma FlatStart(handlers: map<string, HandlerFn>, rules: seq<Rule>, data: seq<Json>)
    ensures FlatSoFar(handlers, rules, data, [], 0)
  {
    assert data[0..] == data;
    PrependNothing(Flatten(handlers, rules, data));
  }

  /** After the last record the account is the kept rows themselves. */
  lemma FlatDone(handlers: map<string, HandlerFn>, rules: seq<Rule>, data: seq<Json>, output: seq<Option<Row>>)
    requires FlatSoFar(handlers, rules, data, output, |data|)
    ensures Flatten(handlers, rules, data) == Success(Compact(output))
  {
    assert data[|data|..] == [];
    assert Compact(output) + [] == Compact(output);
  }

  /** A record whose row throws makes the whole result throw. */
  lemma FlatFails(handlers: map<string, HandlerFn>, rules: seq<Rule>, data: seq<Json>, output: seq<Option<Row>>, i: nat)
    requires FlatSoFar(handlers, rules, data, output, i) && i < |data| && Qualifies(data[i])
    requires RowOf(handlers, rules, data[i]).Failure?
    ensures Flatten(handlers, rules, data) == Failure(RowOf(handlers, rules, data[i]).error)
  {
    FlattenMaps(handlers, rules, data, i, Compact(output));
  }

  /** One more record: a hole for a record that does not qualify, its row otherwise. */
  lemma FlatRound(handlers: map<string, HandlerFn>, rules: seq<Rule>, data: seq<Json>, output: seq<Option<Row>>,
                  i: nat, slot: Option<Row>)
    requires FlatSoFar(handlers, rules, data, output, i) && i < |data|
    requires !Qualifies(data[i]) ==> slot == None
    requires Qualifies(data[i]) ==> RowOf(handlers, rules, data[i]).Success?
                                    && slot == Some(RowOf(handlers, rules, data[i]).value)
    ensures FlatSoFar(handlers, rules, data, output + [slot], i + 1)
  {
    CompactAppend(output, slot);
    if Qualifies(data[i]) {
      FlattenMaps(handlers, rules, data, i, Compact(output));
    } else {
      assert Compact(output) + [] == Compact(output);
      FlattenSkips(handlers, rules, data, i, Compact(output));
    }
  }

  lemma PrependNothing<T>(r: Result<seq<T>, ErrorInfo>)
    ensures Prepend([], r) == r
  {
    if r.Success? {
      assert [] + r.value == r.value;
    }
  }

  lemma PrependPrepend<T>(a: seq<T>, b: seq<T>, r: Result<seq<T>, ErrorInfo>)
    ensures Prepend(a, Prepend(b, r)) == Prepend(a + b, r)
  {
    if r.Success? {
      assert a + (b + r.value) == (a + b) + r.value;
    }
  }

  function ZipObject(keys: seq<string>, values: seq<Option<Json>>): (row: Row)
    requires |keys| == |values|
    ensures |row| == |keys| && forall j :: 0 <= j < |keys| ==> row[j] == (keys[j], values[j])
  {
    if |keys| == 0 then [] else [(keys[0], values[0])] + ZipObject(keys[1..], values[1..])
  }

  lemma ZipObjectSnoc(keys: seq<string>, values: seq<Option<Json>>, k: string, v: Option<Json>)
    requires |keys| == |values|
    ensures ZipObject(keys + [k], values + [v]) == ZipObject(keys, values) + [(k, v)]
  {
    var a := ZipObject(keys + [k], values + [v]);
    var b := ZipObject(keys, values) + [(k, v)];
    assert |a| == |b|;
    forall j | 0 <= j < |a| ensures a[j] == b[j] {
      if j < |keys| {
        assert (keys + [k])[j] == keys[j] && (values + [v])[j] == values[j];
      }
    }
  }

  /** The keys of a row: the rule ids, in rule order. */
  function ColumnKeys(rules: seq<Rule>): (ids: seq<string>)
    ensures |ids| == |rules| && forall j :: 0 <= j < |rules| ==> ids[j] == ColumnKey(rules[j])
  {
    seq(|rules|, j requires 0 <= j < |rules| => ColumnKey(rules[j]))
  }

  /** The loop's account of a row after the first `|colVals|` columns: the
      zipped columns so far, in front of the row of the remaining rules. */
  ghost predicate RowSoFar(handlers: map<string, HandlerFn>, rules: seq<Rule>, item: Json, ids: seq<string>,
                           colVals: seq<Option<Json>>)
  {
    |colVals| <= |rules| == |ids|
    && RowOf(handlers, rules, item)
       == Prepend(ZipObject(ids[..|colVals|], colVals), RowOf(handlers, rules[|colVals|..], item))
  }

  /** Before the first column the account is the whole row. */
  lemma RowStart(handlers: map<string, HandlerFn>, rules: seq<Rule>, item: Json, ids: seq<string>)
    requires |ids| == |rules|
    ensures RowSoFar(handlers, rules, item, ids, [])
  {
    assert rules[0..] == rules;
    assert ZipObject(ids[..0], []) == [];
    PrependNothing(RowOf(handlers, rules, item));
  }

  /** After the last column the account is the zipped row itself. */
  lemma RowDone(handlers: map<string, HandlerFn>, rules: seq<Rule>, item: Json, ids: seq<string>,
                colVals: seq<Option<Json>>)
    requires RowSoFar(handlers, rules, item, ids, colVals) && |colVals| == |rules|
    ensures RowOf(handlers, rules, item) == Success(ZipObject(ids, colVals))
  {
    assert rules[|colVals|..] == [];
    assert ids[..|colVals|] == ids;
    assert ZipObject(ids, colVals) + [] == ZipObject(ids, colVals);
  }

  /** One round of the column loop of `mapItem` keeps the loop's account of the row. */
  lemma RowRound(handlers: map<string, HandlerFn>, rules: seq<Rule>, item: Json, ids: seq<string>,
                 colVals: seq<Option<Json>>, cell: Result<Option<Json>, ErrorInfo>)
    requires RowSoFar(handlers, rules, item, ids, colVals) && |colVals| < |rules|
    requires ids[|colVals|] == ColumnKey(rules[|colVals|])
    requires cell == Cell(handlers, rules[|colVals|], item)
    ensures cell.Failure? ==> RowOf(handlers, rules, item) == Failure(cell.error)
    ensures cell.Success? ==> RowSoFar(handlers, rules, item, ids, colVals + [cell.value])
  {
    RowOfAt(handlers, rules, item, |colVals|, cell);
    if cell.Success? {
      RowExtend(handlers, rules, item, ids, colVals, cell.value);
    }
  }

  /** A column that reads `v` extends the account by one column. */
  lemma RowExtend(handlers: map<string, HandlerFn>, rules: seq<Rule>, item: Json, ids: seq<string>,
                  colVals: seq<Option<Json>>, v: Option<Json>)
    requires RowSoFar(handlers, rules, item, ids, colVals) && |colVals| < |rules|
    requires ids[|colVals|] == ColumnKey(rules[|colVals|])
    requires RowOf(handlers, rules[|colVals|..], item)
             == Prepend([(ids[|colVals|], v)], RowOf(handlers, rules[|colVals| + 1..], item))
    ensures RowSoFar(handlers, rules, item, ids, colVals + [v])
  {
    var colIndex := |colVals|;
    ZipRound(ids, colVals, colIndex, v);
    PrependPrepend(ZipObject(ids[..colIndex], colVals), [(ids[colIndex], v)],
                   RowOf(handlers, rules[colIndex + 1..], item));
  }

  /** The row of the rules from `i` on: the cell `c` of rule `i`, then the row of the rules after it. */
  lemma RowOfAt(handlers: map<string, HandlerFn>, rules: seq<Rule>, item: Json, i: nat,
                c: Result<Option<Json>, ErrorInfo>)
    requires i < |rules| && c == Cell(handlers, rules[i], item)
    ensures c.Failure? ==> RowOf(handlers, rules[i..], item) == Failure(c.error)
    ensures c.Success? ==>
      RowOf(handlers, rules[i..], item) == Prepend([(ColumnKey(rules[i]), c.value)], RowOf(handlers, rules[i + 1..], item))
  {
    var rs := rules[i..];
    assert rs[0] == rules[i];
    assert rs[1..] == rules[i + 1..];
    RowOfHead(handlers, rs, item, c);
  }

  /** Unfolding a non-empty row once, with the first cell given. */
  lemma RowOfHead(handlers: map<string, HandlerFn>, rs: seq<Rule>, item: Json, c: Result<Option<Json>, ErrorInfo>)
    requires |rs| > 0 && c == Cell(handlers, rs[0], item)
    ensures c.Failure? ==> RowOf(handlers, rs, item) == Failure(c.error)
    ensures c.Success? ==> RowOf(handlers, rs, item) == Prepend([(ColumnKey(rs[0]), c.value)], RowOf(handlers, rs[1..], item))
  {
  }

  /** Zipping one more key and value. */
  lemma ZipRound(ids: seq<string>, colVals: seq<Option<Json>>, i: nat, v: Option<Json>)
    requires i < |ids| && |colVals| == i
    ensures ZipObject(ids[..i + 1], colVals + [v]) == ZipObject(ids[..i], colVals) + [(ids[i], v)]
  {
    assert ids[..i + 1] == ids[..i] + [ids[i]];
    ZipObjectSnoc(ids[..i], colVals, ids[i], v);
  }

  /** The engine itself: its rule list and its handler registry. */
  class Mapping {
    var mappingRules: seq<Rule>
    var transformationHandlers: map<string, HandlerFn>

    ghost predicate Valid()
      reads this
    {
      WellFormed(mappingRules)
    }

    constructor ()
      ensures Valid()
      ensures mappingRules == [] && transformationHandlers == map[]
    {
      mappingRules := [];
      transformationHandlers := map[];
    }

    /** `addRule(rule)`: validate against the current rules, then append, or
        throw the validation error and leave the list as it was. */
    method AddRule(input: RuleInput) returns (thrown: Option<ErrorInfo>)
      requires Valid()
      modifies this
      ensures Valid()
      ensures transformationHandlers == old(transformationHandlers)
      ensures Prevalidate(old(mappingRules), input).Passes? ==>
        input.PlainRule? && mappingRules == old(mappingRules) + [input.rule] && thrown.None?
      ensures Prevalidate(old(mappingRules), input).Rejects() ==>
        mappingRules == old(mappingRules) && thrown == Some(Prevalidate(old(mappingRules), input).error)
    {
      var check := Prevalidate(mappingRules, input);
      if check.Rejects() {
        return Some(check.error);
      }
      AddAllKeepsWellFormed(mappingRules, [input]);
      assert AddAll(mappingRules, [input]).0 == mappingRules + [input.rule];
      mappingRules := mappingRules + [input.rule];
      return None;
    }

    /** `addRules(rules)`: add each in turn; the first error propagates and
        the rules added before it stay. */
    method AddRules(inputs: seq<RuleInput>) returns (thrown: Option<ErrorInfo>)
      requires Valid()
      modifies this
      ensures Valid()
      ensures transformationHandlers == old(transformationHandlers)
      ensures (mappingRules, thrown) == AddAll(old(mappingRules), inputs)
    {
      var i := 0;
      while i < |inputs|
        invariant 0 <= i <= |inputs|
        invariant Valid()
        invariant transformationHandlers == old(transformationHandlers)
        invariant AddAll(mappingRules, inputs[i..]) == AddAll(old(mappingRules), inputs)
      {
        assert inputs[i..][1..] == inputs[i + 1..];
        thrown := AddRule(inputs[i]);
        if thrown.Some? {
          return;
        }
        i := i + 1;
      }
      assert inputs[i..] == [];
      thrown := None;
    }

    /** The `rules` setter: clear the list, then add the given rules in
        order; a rejected rule ends it, keeping the prefix already added. */
    method SetRules(inputs: seq<RuleInput>) returns (thrown: Option<ErrorInfo>)
      modifies this
      ensures Valid()
      ensures transformationHandlers == old(transformationHandlers)
      ensures (mappingRules, thrown) == AddAll([], inputs)
    {
      mappingRules := [];
      var i := 0;
      while i < |inputs|
        invariant 0 <= i <= |inputs|
        invariant Valid()
        invariant transformationHandlers == old(transformationHandlers)
        invariant AddAll(mappingRules, inputs[i..]) == AddAll([], inputs)
      {
        assert inputs[i..][1..] == inputs[i + 1..];
        thrown := AddRule(inputs[i]);
        if thrown.Some? {
          return;
        }
        i := i + 1;
      }
      assert inputs[i..] == [];
      thrown := None;
    }

    /** `addTransformationHandler(handler, key)`. */
    method AddTransformationHandler(handler: Handler, key: Option<string>) returns (thrown: Option<ErrorInfo>)
      modifies this
      ensures mappingRules == old(mappingRules)
      ensures Register(old(transformationHandlers), handler, key).Success? ==>
        transformationHandlers == Register(old(transformationHandlers), handler, key).value && thrown.None?
      ensures Register(old(transformationHandlers), handler, key).Failure? ==>
        transformationHandlers == old(transformationHandlers)
        && thrown == Some(Register(old(transformationHandlers), handler, key).error)
    {
      if key.None? {
        return Some(Created(Some("TransformationHandler"), "key param is required", None));
      }
      if key.value in transformationHandlers {
        return Some(Created(Some("TransformationHandler key"), key.value + " already exists on transformationHandlers object", None));
      }
      if handler.Value? {
        return Some(Created(Some("TransformationHandler"), TemplateText(handler.v) + " is not a defined valid function", None));
      }
      transformationHandlers := transformationHandlers[key.value := handler.f];
      return None;
    }

    /** `mapItem`: read every column of one record, in rule order, then
        pair the values with the rule ids. */
    method MapItem(item: Json, rules: seq<Rule>) returns (r: Result<Row, ErrorInfo>)
      ensures r == RowOf(transformationHandlers, rules, item)
    {
      var handlers := transformationHandlers;
      var ids := ColumnKeys(rules);
      var colVals: seq<Option<Json>> := [];
      RowStart(handlers, rules, item, ids);
      while |colVals| < |rules|
        invariant RowSoFar(handlers, rules, item, ids, colVals)
      {
        var colIndex := |colVals|;
        var val := LookedUp(rules[colIndex], item);
        var cell := Transform(handlers, val, rules[colIndex].transform);
        RowRound(handlers, rules, item, ids, colVals, cell);
        if cell.Failure? {
          return Failure(cell.error);
        }
        colVals := colVals + [cell.value];
      }
      RowDone(handlers, rules, item, ids, colVals);
      return Success(ZipObject(ids, colVals));
    }

    /** `flattenData(data)`: a row for every non-empty plain object, holes
        for every other record, and the holes filtered out at the end. */
    method FlattenData(data: seq<Json>) returns (r: Result<seq<Row>, ErrorInfo>)
      ensures r == Flatten(transformationHandlers, mappingRules, data)
    {
      var rules := mappingRules;
      var output: seq<Option<Row>> := [];
      var dataIndex := 0;
      FlatStart(transformationHandlers, rules, data);
      while dataIndex < |data|
        invariant FlatSoFar(transformationHandlers, rules, data, output, dataIndex)
      {
        var itemData := data[dataIndex];
        var slot: Option<Row> := None;
        if IsPlainObject(Some(itemData)) && !IsEmpty(Some(itemData)) {
          var row := MapItem(itemData, rules);
          if row.Failure? {
            FlatFails(transformationHandlers, rules, data, output, dataIndex);
            return Failure(row.error);
          }
          slot := Some(row.value);
        }
        FlatRound(transformationHandlers, rules, data, output, dataIndex, slot);
        output := output + [slot];
        dataIndex := dataIndex + 1;
      }
      FlatDone(transformationHandlers, rules, data, output);
      return Success(Compact(output));
    }
  }
}
