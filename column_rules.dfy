/** What every data view does to the columns the host hands it before
    giving them to the mapping engine: a `switch` on the column id sets the
    column's `lookup`, and for a few columns a `defaultValue` or a
    `transform`. Columns the switch does not list keep no lookup. */
module ColumnRules {
  import opened Wrappers
  import opened Json
  import Mapping
  import ErrorHelper
  import opened Schema

  /** What a view's switch sets on one column object. */
  datatype Assignment = Assignment(lookup: Option<Json>, defaultValue: Option<Json>, transform: Mapping.Handler)

  /** A column the switch does not list: nothing is set. */
  const UNASSIGNED := Assignment(None, None, Mapping.Value(None))

  /** A column the switch gives only a lookup path. */
  function LookupOnly(path: string): (a: Assignment)
    ensures a.lookup == Some(JStr(path)) && a.defaultValue.None? && a.transform == Mapping.Value(None)
  {
    Assignment(Some(JStr(path)), None, Mapping.Value(None))
  }

  /** The rule object a column becomes once the switch has run on it. */
  function RuleFor(col: Column, a: Assignment): (r: Mapping.RuleInput)
    ensures r.PlainRule? && r.rule.id == Some(JStr(col.id)) && r.rule.dataType == Some(JStr(col.dataType))
    ensures r.rule.lookup == a.lookup && r.rule.defaultValue == a.defaultValue && r.rule.transform == a.transform
  {
    Mapping.PlainRule(Mapping.Rule(Some(JStr(col.id)), a.lookup, Some(JStr(col.dataType)), a.defaultValue, a.transform))
  }

  /** The rules handed to `addRules`: every column, in order, after the switch. */
  function RulesFor(columns: seq<Column>, assign: string -> Assignment): (rs: seq<Mapping.RuleInput>)
    ensures |rs| == |columns|
    ensures forall i :: 0 <= i < |columns| ==> rs[i] == RuleFor(columns[i], assign(columns[i].id))
  {
    seq(|columns|, i requires 0 <= i < |columns| => RuleFor(columns[i], assign(columns[i].id)))
  }

  /** The host column is one the mapping engine accepts once it has a lookup. */
  predicate AcceptableColumn(col: Column) {
    Mapping.IsValidIdText(col.id) && col.dataType in Mapping.DATA_TYPES
  }

  /** Every column of the list is acceptable, is assigned a non-empty
      lookup, and the column ids are distinct. */
  predicate AllAssigned(columns: seq<Column>, assign: string -> Assignment) {
    && (forall i :: 0 <= i < |columns| ==> AcceptableColumn(columns[i]))
    && (forall i :: 0 <= i < |columns| ==> Truthy(assign(columns[i].id).lookup))
    && (forall i, j :: 0 <= i < j < |columns| ==> columns[i].id != columns[j].id)
  }

  /** When every column gets a lookup, adding the rules to an empty engine
      throws nothing and keeps each column's rule, in column order. */
  lemma AllAssignedAccepted(columns: seq<Column>, assign: string -> Assignment)
    requires AllAssigned(columns, assign)
    ensures var (added, thrown) := Mapping.AddAll([], RulesFor(columns, assign));
      && thrown.None?
      && |added| == |columns|
      && (forall i :: 0 <= i < |columns| ==> Mapping.PlainRule(added[i]) == RuleFor(columns[i], assign(columns[i].id)))
  {
    var inputs := RulesFor(columns, assign);
    forall i | 0 <= i < |inputs|
      ensures inputs[i].PlainRule? && Mapping.Admissible(inputs[i].rule)
      ensures !Mapping.HasId([], inputs[i].rule.id)
    {
      assert AcceptableColumn(columns[i]);
    }
    forall i, j | 0 <= i < j < |inputs| ensures inputs[i].rule.id != inputs[j].rule.id {
      assert columns[i].id != columns[j].id;
    }
    Mapping.AddAllAcceptsFresh([], inputs);
  }

  /** A column the switch leaves without a lookup is rejected with the
      missing-lookup error, once its id and data type pass. */
  lemma UnassignedRejected(rules: seq<Mapping.Rule>, col: Column, a: Assignment)
    requires AcceptableColumn(col) && !Mapping.HasId(rules, Some(JStr(col.id)))
    requires a.lookup.None?
    ensures Mapping.Prevalidate(rules, RuleFor(col, a)) == Mapping.Fails(Mapping.MappingError(Mapping.MISSING_LOOKUP))
  {
  }

  /** `defineMappingRules({ columns })`: a `for` loop runs the view's switch
      on each column in turn, then every column goes to the engine's
      `addRules`, which keeps the rules added before a rejected one. */
  method DefineMappingRules(mapping: Mapping.Mapping, columns: seq<Column>, assign: string -> Assignment)
    returns (thrown: Option<ErrorHelper.ErrorInfo>)
    requires mapping.Valid()
    modifies mapping
    ensures mapping.Valid()
    ensures mapping.transformationHandlers == old(mapping.transformationHandlers)
    ensures (mapping.mappingRules, thrown) == Mapping.AddAll(old(mapping.mappingRules), RulesFor(columns, assign))
  {
    var inputs: seq<Mapping.RuleInput> := [];
    for i := 0 to |columns|
      invariant |inputs| == i
      invariant forall j :: 0 <= j < i ==> inputs[j] == RuleFor(columns[j], assign(columns[j].id))
    {
      inputs := inputs + [RuleFor(columns[i], assign(columns[i].id))];
    }
    assert inputs == RulesFor(columns, assign);
    thrown := mapping.AddRules(inputs);
  }

  /** On a fresh engine, a view that gives every column a lookup defines
      one rule per column, in column order, and throws nothing. */
  method DefineAssignedRules(columns: seq<Column>, assign: string -> Assignment)
    returns (rules: seq<Mapping.Rule>, thrown: Option<ErrorHelper.ErrorInfo>)
    requires AllAssigned(columns, assign)
    ensures thrown.None? && |rules| == |columns|
    ensures forall i :: 0 <= i < |columns| ==> Mapping.PlainRule(rules[i]) == RuleFor(columns[i], assign(columns[i].id))
  {
    var mapping := new Mapping.Mapping();
    thrown := DefineMappingRules(mapping, columns, assign);
    AllAssignedAccepted(columns, assign);
    rules := mapping.mappingRules;
  }
}
