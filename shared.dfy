/** The host-independent part of the library: registering a connector,
    starting data gathering for the one requested table, and the global
    error handler that aborts the connection at most once. */
module Shared {
  import opened Wrappers
  import opened Json
  import opened ErrorHelper
  import opened Utilities
  import Table

  // ---------------------------------------------------------------------
  // Registration.

  /** The functions every connector must define, in the order they are
      listed (and checked from the last). */
  const FUNCTION_NAMES: seq<string> := ["init", "shutdown", "getSchema", "getData"]

  /** `typeof (wdc[name]) === 'function'`. */
  predicate IsFunction(wdc: map<string, Value>, name: string) {
    name in wdc && wdc[name].Function?
  }

  /** The last name of `names` that `wdc` does not define as a function. */
  function LastMissing(wdc: map<string, Value>, names: seq<string>): (r: Option<string>)
    ensures r.None? <==> forall i :: 0 <= i < |names| ==> IsFunction(wdc, names[i])
    ensures r.Some? ==>
      exists i :: 0 <= i < |names| && names[i] == r.value && !IsFunction(wdc, names[i])
                  && forall j :: i < j < |names| ==> IsFunction(wdc, names[j])
    decreases |names|
  {
    if |names| == 0 then None
    else if !IsFunction(wdc, names[|names| - 1]) then Some(names[|names| - 1])
    else
      var front := names[..|names| - 1];
      var r := LastMissing(wdc, front);
      assert forall i :: 0 <= i < |front| ==> front[i] == names[i];
      r
  }

  /** Checking name `i` of a list from the back: a missing one is the
      answer, a present one leaves the names before it to decide. */
  lemma LastMissingAt(wdc: map<string, Value>, names: seq<string>, i: nat)
    requires i < |names|
    ensures !IsFunction(wdc, names[i]) ==> LastMissing(wdc, names[..i + 1]) == Some(names[i])
    ensures IsFunction(wdc, names[i]) ==> LastMissing(wdc, names[..i + 1]) == LastMissing(wdc, names[..i])
  {
    var prefix := names[..i + 1];
    assert prefix[|prefix| - 1] == names[i];
    assert prefix[..|prefix| - 1] == names[..i];
  }

  function MissingFunctionError(name: string): ErrorInfo {
    ErrorInfo("Error", "The connector did not define the required function: " + name, None)
  }

  /** The function identities `_makeConnector` hands out: its default
      `init` and `shutdown` do nothing but call their callback. */
  const DEFAULT_INIT := Function(0)
  const DEFAULT_SHUTDOWN := Function(1)

  /** `_makeConnector()`: a fresh object with default `init` and
      `shutdown` and nothing else. */
  function MakeConnector(): (r: map<string, Value>)
    ensures r.Keys == {"init", "shutdown"}
    ensures IsFunction(r, "init") && IsFunction(r, "shutdown")
  {
    map["init" := DEFAULT_INIT, "shutdown" := DEFAULT_SHUTDOWN]
  }

  /** A connector made by `makeConnector` and registered without adding its
      own functions is refused, naming `getData`, the last of the four. */
  lemma MadeConnectorNeedsData()
    ensures LastMissing(MakeConnector(), FUNCTION_NAMES) == Some("getData")
  {
    assert FUNCTION_NAMES[|FUNCTION_NAMES| - 1] == "getData";
    assert !IsFunction(MakeConnector(), "getData") by {
      assert "getData"[0] != "init"[0] && "getData"[0] != "shutdown"[0];
    }
  }

  /** Adding `getSchema` and `getData` functions to a made connector is all
      registration asks for. */
  lemma MadeConnectorCompleted(getSchema: nat, getData: nat)
    ensures LastMissing(MakeConnector()["getSchema" := Function(getSchema)]["getData" := Function(getData)],
                        FUNCTION_NAMES).None?
  {
    var wdc := MakeConnector()["getSchema" := Function(getSchema)]["getData" := Function(getData)];
    assert IsFunction(wdc, "init") && IsFunction(wdc, "shutdown");
    assert IsFunction(wdc, "getSchema") && IsFunction(wdc, "getData");
    assert forall i :: 0 <= i < |FUNCTION_NAMES| ==> IsFunction(wdc, FUNCTION_NAMES[i]) by {
      forall i | 0 <= i < |FUNCTION_NAMES| ensures IsFunction(wdc, FUNCTION_NAMES[i]) {
        assert FUNCTION_NAMES[i] in {"init", "shutdown", "getSchema", "getData"};
      }
    }
  }

  // ---------------------------------------------------------------------
  // Data gathering.

  /** The constructor arguments `_triggerDataGathering` passes to `Table`. */
  datatype TableArgs = TableArgs(tableInfo: Option<Json>, incrementValue: Option<Json>, isJoinFiltered: Json,
                                 filterColumnId: Option<Json>, filterValues: Option<Json>)

  function TableCountError(n: nat): ErrorInfo {
    ErrorInfo("Error", "Unexpected number of tables specified. Expected 1, actual  " + NatToString(n), None)
  }

  /** Reading `filterColumnId` off a `null` entry. */
  const NULL_TABLE := ErrorInfo("TypeError", "Cannot read properties of null (reading 'filterColumnId')", None)

  /** The table `_triggerDataGathering(tablesAndIncrementValues)` builds:
      exactly one entry is accepted, and the join flag is whether that
      entry's `filterColumnId` is truthy. */
  function DataGatheringTable(tables: seq<Json>): (r: Result<TableArgs, ErrorInfo>)
    ensures |tables| != 1 ==> r == Failure(TableCountError(|tables|))
    ensures |tables| == 1 ==> (r.Failure? <==> tables[0].JNull?)
    ensures r.Failure? && |tables| == 1 ==> r.error == NULL_TABLE
    ensures r.Success? ==>
      && r.value.isJoinFiltered == JBool(Truthy(Prop(tables[0], "filterColumnId")))
      && r.value.tableInfo == Prop(tables[0], "tableInfo")
      && r.value.incrementValue == Prop(tables[0], "incrementValue")
      && r.value.filterColumnId == Prop(tables[0], "filterColumnId")
      && r.value.filterValues == Prop(tables[0], "filterValues")
  {
    if |tables| != 1 then Failure(TableCountError(|tables|))
    else
      var t := tables[0];
      if t.JNull? then Failure(NULL_TABLE)
      else
        var isJoinFiltered := Truthy(Prop(t, "filterColumnId"));
        Success(TableArgs(Prop(t, "tableInfo"), Prop(t, "incrementValue"), JBool(isJoinFiltered),
                          Prop(t, "filterColumnId"), Prop(t, "filterValues")))
  }

  /** Calling `getData` before any connector was registered. */
  const NO_CONNECTOR := ErrorInfo("TypeError", "Cannot read properties of undefined (reading 'getData')", None)

  // ---------------------------------------------------------------------
  // The global error handler.

  /** The arguments of `window.onerror`. */
  datatype ErrorEvent = ErrorEvent(message: Option<Json>, file: Option<Json>, line: Option<Json>,
                                   column: Option<Json>, errorObj: Option<Json>)

  /** The text the handler aborts with (or throws): the message, then the
      error's stack when there is an error object, else file and line. */
  function AbortMessage(ev: ErrorEvent): (msg: string)
    ensures Truthy(ev.errorObj) ==>
      msg == TemplateText(ev.message) + "   stack:" + TemplateText(Prop(ev.errorObj.value, "stack"))
    ensures !Truthy(ev.errorObj) ==>
      msg == TemplateText(ev.message) + "   file: " + TemplateText(ev.file) + "   line: " + TemplateText(ev.line)
  {
    var msg := TemplateText(ev.message);
    if Truthy(ev.errorObj) then msg + "   stack:" + TemplateText(Prop(ev.errorObj.value, "stack"))
    else msg + "   file: " + TemplateText(ev.file) + "   line: " + TemplateText(ev.line)
  }

  /** What one run of the handler does: the flag afterwards, the message it
      aborted with, and its return value or the string it threw. */
  datatype Handled = Handled(flag: bool, abort: Option<string>, result: Result<bool, string>)

  /** `_errorHandler(...)` with the once-flag `flag`, on a host that has
      (`canAbort`) or lacks `abortWithError`. */
  function HandleError(flag: bool, canAbort: bool, ev: ErrorEvent): Handled {
    if flag then Handled(true, None, Success(true))
    else if canAbort then Handled(true, Some(AbortMessage(ev)), Success(true))
    else Handled(false, None, Failure(AbortMessage(ev)))
  }

  /** Several errors in a row: the aborts made and the results, in order. */
  datatype Handling = Handling(flag: bool, aborts: seq<string>, results: seq<Result<bool, string>>)

  function HandleAll(flag: bool, canAbort: bool, events: seq<ErrorEvent>): Handling
    decreases |events|
  {
    if |events| == 0 then Handling(flag, [], [])
    else
      var first := HandleError(flag, canAbort, events[0]);
      var rest := HandleAll(first.flag, canAbort, events[1..]);
      Handling(rest.flag, (if first.abort.Some? then [first.abort.value] else []) + rest.aborts,
               [first.result] + rest.results)
  }

  /** However many errors arrive, the connection is aborted at most once,
      with the first error's message; once the flag is set every later call
      returns true; a host without `abortWithError` gets every error thrown
      at it and the flag never gets set. */
  lemma {:induction false} AbortsAtMostOnce(flag: bool, canAbort: bool, events: seq<ErrorEvent>)
    ensures var h := HandleAll(flag, canAbort, events);
      && |h.results| == |events|
      && (flag || !canAbort ==> h.aborts == [])
      && (!flag && canAbort && |events| > 0 ==> h.aborts == [AbortMessage(events[0])])
      && (flag ==> forall i :: 0 <= i < |events| ==> h.results[i] == Success(true))
      && (!flag && !canAbort ==> !h.flag && forall i :: 0 <= i < |events| ==> h.results[i] == Failure(AbortMessage(events[i])))
    decreases |events|
  {
    if |events| > 0 {
      var first := HandleError(flag, canAbort, events[0]);
      AbortsAtMostOnce(first.flag, canAbort, events[1..]);
    }
  }

  /** The library's shared object: the registered connector (kept both on
      the global object and on itself), the error handler's once-flag, the
      aborts sent to the host, and every `getData` call made. */
  class Shared {
    var wdc: Option<map<string, Value>>
    var globalWdc: Option<map<string, Value>>
    var hasAlreadyThrownErrorSoDontThrowAgain: bool
    /** Whether the host API object has an `abortWithError` function. */
    var canAbort: bool
    var aborts: seq<string>
    var getDataCalls: seq<Table.Table>

    /** `new Shared(tableauApiObj, privateApiObj, globalObj)`: no connector,
        no error thrown yet. */
    constructor (canAbort: bool)
      ensures wdc.None? && globalWdc.None? && !hasAlreadyThrownErrorSoDontThrowAgain
      ensures this.canAbort == canAbort && aborts == [] && getDataCalls == []
    {
      wdc := None;
      globalWdc := None;
      hasAlreadyThrownErrorSoDontThrowAgain := false;
      this.canAbort := canAbort;
      aborts := [];
      getDataCalls := [];
    }

    /** `_registerConnector(wdc)`: the four required names are checked from
        the last to the first, and the first failure found throws; a
        complete connector is stored in both places. */
    method RegisterConnector(connector: map<string, Value>) returns (thrown: Option<ErrorInfo>)
      modifies this
      ensures LastMissing(connector, FUNCTION_NAMES).Some? ==>
        thrown == Some(MissingFunctionError(LastMissing(connector, FUNCTION_NAMES).value))
        && wdc == old(wdc) && globalWdc == old(globalWdc)
      ensures LastMissing(connector, FUNCTION_NAMES).None? ==>
        thrown == None && wdc == Some(connector) && globalWdc == Some(connector)
      ensures hasAlreadyThrownErrorSoDontThrowAgain == old(hasAlreadyThrownErrorSoDontThrowAgain)
      ensures canAbort == old(canAbort) && aborts == old(aborts) && getDataCalls == old(getDataCalls)
    {
      var ii := |FUNCTION_NAMES| - 1;
      assert FUNCTION_NAMES[..ii + 1] == FUNCTION_NAMES;
      while ii >= 0
        invariant -1 <= ii < |FUNCTION_NAMES|
        invariant LastMissing(connector, FUNCTION_NAMES) == LastMissing(connector, FUNCTION_NAMES[..ii + 1])
        invariant unchanged(this)
      {
        LastMissingAt(connector, FUNCTION_NAMES, ii);
        if !IsFunction(connector, FUNCTION_NAMES[ii]) {
          return Some(MissingFunctionError(FUNCTION_NAMES[ii]));
        }
        ii := ii - 1;
      }
      globalWdc := Some(connector);
      wdc := Some(connector);
      thrown := None;
    }

    /** `_triggerDataGathering(tablesAndIncrementValues)`: builds the one
        table and hands it to the connector's `getData`. */
    method TriggerDataGathering(tables: seq<Json>) returns (thrown: Option<ErrorInfo>)
      modifies this
      ensures DataGatheringTable(tables).Failure? ==>
        thrown == Some(DataGatheringTable(tables).error) && getDataCalls == old(getDataCalls)
      ensures DataGatheringTable(tables).Success? && wdc.None? ==>
        thrown == Some(NO_CONNECTOR) && getDataCalls == old(getDataCalls)
      ensures DataGatheringTable(tables).Success? && wdc.Some? ==>
        && thrown.None?
        && |getDataCalls| == |old(getDataCalls)| + 1
        && getDataCalls[..|old(getDataCalls)|] == old(getDataCalls)
        && var table := getDataCalls[|old(getDataCalls)|];
           var args := DataGatheringTable(tables).value;
           && fresh(table)
           && table.tableInfo == args.tableInfo
           && table.isJoinFiltered == args.isJoinFiltered
           && table.incrementValue == args.incrementValue.GetOr(JStr(""))
           && table.filterColumnId == args.filterColumnId.GetOr(JStr(""))
           && table.filterValues == args.filterValues.GetOr(JArr([]))
           && table.deliveries == []
      ensures wdc == old(wdc) && globalWdc == old(globalWdc) && aborts == old(aborts)
      ensures hasAlreadyThrownErrorSoDontThrowAgain == old(hasAlreadyThrownErrorSoDontThrowAgain)
    {
      var args := DataGatheringTable(tables);
      if args.Failure? {
        return Some(args.error);
      }
      var a := args.value;
      var table := new Table.Table(a.tableInfo, a.incrementValue, Some(a.isJoinFiltered), a.filterColumnId, a.filterValues);
      if wdc.None? {
        return Some(NO_CONNECTOR);
      }
      getDataCalls := getDataCalls + [table];
      thrown := None;
    }

    /** `_errorHandler(message, file, line, column, errorObj)`. */
    method ErrorHandler(ev: ErrorEvent) returns (r: Result<bool, string>)
      modifies this
      ensures var h := HandleError(old(hasAlreadyThrownErrorSoDontThrowAgain), canAbort, ev);
        && r == h.result
        && hasAlreadyThrownErrorSoDontThrowAgain == h.flag
        && aborts == old(aborts) + (if h.abort.Some? then [h.abort.value] else [])
      ensures wdc == old(wdc) && globalWdc == old(globalWdc) && canAbort == old(canAbort)
      ensures getDataCalls == old(getDataCalls)
    {
      if hasAlreadyThrownErrorSoDontThrowAgain {
        return Success(true);
      }
      var msg := AbortMessage(ev);
      if canAbort {
        aborts := aborts + [msg];
      } else {
        return Failure(msg);
      }
      hasAlreadyThrownErrorSoDontThrowAgain := true;
      r := Success(true);
    }
  }
}
