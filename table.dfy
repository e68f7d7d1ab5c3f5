/** The table object handed to a connector's `getData`: the requested
    table's description, the join filter, and `appendRows`, which passes
    rows on to the dispatcher's data callback. */
module Table {
  import opened Wrappers
  import opened Json
  import opened ErrorHelper

  /** One call of the data callback: the table id and the rows. */
  datatype Delivery = Delivery(tableId: Option<Json>, rows: seq<Json>)

  /** What one `appendRows(data)` does: reject the data, or deliver it. */
  datatype Append = Rejected | Delivered(delivery: Delivery)

  /** Reading `id` off an undefined or null table description throws. */
  const NO_TABLE_INFO := ErrorInfo("TypeError", "Cannot read properties of undefined (reading 'id')", None)

  /** `_appendRows(data)`: missing or falsy data and data that is not an
      array are rejected with a warning; otherwise the callback receives
      the table's id and the rows, reading the id off the description. */
  function AppendRows(tableInfo: Option<Json>, data: Option<Json>): (r: Result<Append, ErrorInfo>)
    ensures r == Success(Rejected) <==> !(data.Some? && data.value.JArr?)
    ensures r.Success? && r.value.Delivered? <==>
      data.Some? && data.value.JArr? && tableInfo.Some? && !tableInfo.value.JNull?
    ensures r.Success? && r.value.Delivered? ==>
      r.value.delivery == Delivery(Prop(tableInfo.value, "id"), data.value.items)
    ensures r.Failure? ==> r.error == NO_TABLE_INFO
  {
    if !Truthy(data) then Success(Rejected)
    else if !data.value.JArr? then Success(Rejected)
    else if tableInfo.None? || tableInfo.value.JNull? then Failure(NO_TABLE_INFO)
    else Success(Delivered(Delivery(Prop(tableInfo.value, "id"), data.value.items)))
  }

  /** An empty array is still delivered: only the absence of an array is
      refused. */
  lemma EmptyArrayDelivered(tableInfo: Json)
    requires !tableInfo.JNull?
    ensures AppendRows(Some(tableInfo), Some(JArr([]))) == Success(Delivered(Delivery(Prop(tableInfo, "id"), [])))
  {
  }

  class Table {
    var tableInfo: Option<Json>
    var incrementValue: Json
    var isJoinFiltered: Json
    var filterColumnId: Json
    var filterValues: Json
    /** Every call the data callback has received, in order. */
    var deliveries: seq<Delivery>

    /** `new Table(tableInfo, incrementValue, isJoinFiltered, filterColumnId,
        filterValues, dataCallbackFn)`: an omitted argument takes its
        default, '' for the increment value and the filter column, false
        for the join flag and [] for the filter values. */
    constructor (tableInfo: Option<Json>, incrementValue: Option<Json>, isJoinFiltered: Option<Json>,
                 filterColumnId: Option<Json>, filterValues: Option<Json>)
      ensures this.tableInfo == tableInfo
      ensures this.incrementValue == incrementValue.GetOr(JStr(""))
      ensures this.isJoinFiltered == isJoinFiltered.GetOr(JBool(false))
      ensures this.filterColumnId == filterColumnId.GetOr(JStr(""))
      ensures this.filterValues == filterValues.GetOr(JArr([]))
      ensures this.deliveries == []
    {
      this.tableInfo := tableInfo;
      this.incrementValue := incrementValue.GetOr(JStr(""));
      this.isJoinFiltered := isJoinFiltered.GetOr(JBool(false));
      this.filterColumnId := filterColumnId.GetOr(JStr(""));
      this.filterValues := filterValues.GetOr(JArr([]));
      this.deliveries := [];
    }

    /** `appendRows(data)`: true exactly when the rows reached the
        callback, which then holds one more delivery. */
    method AppendRowsTo(data: Option<Json>) returns (r: Result<bool, ErrorInfo>)
      modifies this
      ensures tableInfo == old(tableInfo) && incrementValue == old(incrementValue)
      ensures isJoinFiltered == old(isJoinFiltered) && filterColumnId == old(filterColumnId)
      ensures filterValues == old(filterValues)
      ensures AppendRows(tableInfo, data).Failure? ==>
        r == Failure(NO_TABLE_INFO) && deliveries == old(deliveries)
      ensures AppendRows(tableInfo, data) == Success(Rejected) ==>
        r == Success(false) && deliveries == old(deliveries)
      ensures AppendRows(tableInfo, data).Success? && AppendRows(tableInfo, data).value.Delivered? ==>
        r == Success(true) && deliveries == old(deliveries) + [AppendRows(tableInfo, data).value.delivery]
    {
      var a := AppendRows(tableInfo, data);
      if a.Failure? {
        return Failure(a.error);
      }
      if a.value.Rejected? {
        return Success(false);
      }
      deliveries := deliveries + [a.value.delivery];
      r := Success(true);
    }
  }
}
