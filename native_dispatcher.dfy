/** The dispatcher between a connector and Tableau's native bridge: each
    public or private interface function forwards to a `WDCBridge_Api_*`
    function of the native root object, `submit`, `initCallback` and
    `shutdownCallback` only the first time, `schemaCallback` and
    `reportProgress` with a fallback for older hosts. */
module NativeDispatcher {
  import opened Wrappers
  import opened Json

  /** A call the dispatcher makes on the native bridge. */
  datatype ApiCall =
    | AbortForAuthApi(msg: Option<Json>)
    | AbortWithErrorApi(msg: Option<Json>)
    | AddCrossOriginExceptionApi(destOriginList: Option<Json>)
    | LogApi(msg: Option<Json>)
    | SubmitApi
    | InitCallbackApi
    | ShutdownCallbackApi
    | SchemaCallbackExApi(schema: Option<Json>, standardConnections: Json)
    | SchemaCallbackApi(schema: Option<Json>)
    | TableDataCallbackApi(tableName: Option<Json>, data: Option<Json>)
    | ReportProgressApi(progressMessage: Option<Json>)
    | DataDoneCallbackApi

  /** A call a connector makes on the dispatcher's public or private
      interface; an argument left out is `None`. */
  datatype Call =
    | AbortForAuth(msg: Option<Json>)
    | AbortWithError(msg: Option<Json>)
    | AddCrossOriginException(destOriginList: Option<Json>)
    | Log(msg: Option<Json>)
    | Submit
    | InitCallback
    | ShutdownCallback
    | SchemaCallback(schema: Option<Json>, standardConnections: Option<Json>)
    | TableDataCallback(tableName: Option<Json>, data: Option<Json>)
    | ReportProgress(progressMessage: Option<Json>)
    | DataDoneCallback

  /** Which optional functions the native root object has: hosts older than
      the 2.1 API lack `WDCBridge_Api_schemaCallbackEx` and
      `WDCBridge_Api_reportProgress`. */
  datatype Bridge = Bridge(hasSchemaCallbackEx: bool, hasReportProgress: bool)

  /** The once-only flags `_submitCalled`, `_initCallbackCalled` and
      `_shutdownCallbackCalled`. */
  datatype Flags = Flags(submitCalled: bool, initCallbackCalled: bool, shutdownCallbackCalled: bool)

  /** All three flags are false once the constructor has run. */
  const INITIAL_FLAGS := Flags(false, false, false)

  const SUBMIT_AGAIN := "submit called more than once"
  const INIT_AGAIN := "initCallback called more than once"
  const SHUTDOWN_AGAIN := "shutdownCallback called more than once"
  const NO_REPORT_PROGRESS := "reportProgress not available from this Tableau version"
  const PUBLIC_INTERFACE_READY := "Initializing public interface for NativeDispatcher"
  const PRIVATE_INTERFACE_READY := "Initializing private interface for NativeDispatcher"

  /** What one call does: the flags afterwards, the bridge calls made and
      the console lines written. */
  datatype Effect = Effect(flags: Flags, native: seq<ApiCall>, logs: seq<string>)

  /** A call that is passed on unchanged, every time. */
  predicate IsForwarder(call: Call) {
    call.AbortForAuth? || call.AbortWithError? || call.AddCrossOriginException? || call.Log?
    || call.TableDataCallback? || call.DataDoneCallback?
  }

  /** The bridge call a forwarder makes: the same function, the same
      arguments. */
  function Forwarded(call: Call): ApiCall
    requires IsForwarder(call)
  {
    match call
    case AbortForAuth(msg) => AbortForAuthApi(msg)
    case AbortWithError(msg) => AbortWithErrorApi(msg)
    case AddCrossOriginException(list) => AddCrossOriginExceptionApi(list)
    case Log(msg) => LogApi(msg)
    case TableDataCallback(name, data) => TableDataCallbackApi(name, data)
    case DataDoneCallback => DataDoneCallbackApi
  }

  /** One call on the dispatcher. A once-only call reaches the bridge only
      while its flag is clear and then sets it; otherwise it only logs. No
      call clears a flag, and none makes more than one bridge call. */
  function Step(bridge: Bridge, flags: Flags, call: Call): (e: Effect)
    ensures |e.native| <= 1
    ensures flags.submitCalled ==> e.flags.submitCalled
    ensures flags.initCallbackCalled ==> e.flags.initCallbackCalled
    ensures flags.shutdownCallbackCalled ==> e.flags.shutdownCallbackCalled
    ensures SubmitApi in e.native <==> call.Submit? && !flags.submitCalled
    ensures InitCallbackApi in e.native <==> call.InitCallback? && !flags.initCallbackCalled
    ensures ShutdownCallbackApi in e.native <==> call.ShutdownCallback? && !flags.shutdownCallbackCalled
    ensures !call.Submit? && !call.InitCallback? && !call.ShutdownCallback? ==> e.flags == flags
  {
    match call
    case Submit =>
      if flags.submitCalled then Effect(flags, [], [SUBMIT_AGAIN])
      else Effect(flags.(submitCalled := true), [SubmitApi], [])
    case InitCallback =>
      if flags.initCallbackCalled then Effect(flags, [], [INIT_AGAIN])
      else Effect(flags.(initCallbackCalled := true), [InitCallbackApi], [])
    case ShutdownCallback =>
      if flags.shutdownCallbackCalled then Effect(flags, [], [SHUTDOWN_AGAIN])
      else Effect(flags.(shutdownCallbackCalled := true), [ShutdownCallbackApi], [])
    case SchemaCallback(schema, standardConnections) =>
      if bridge.hasSchemaCallbackEx then
        Effect(flags, [SchemaCallbackExApi(schema, standardConnections.GetOr(JArr([])))], [])
      else Effect(flags, [SchemaCallbackApi(schema)], [])
    case ReportProgress(message) =>
      if bridge.hasReportProgress then Effect(flags, [ReportProgressApi(message)], [])
      else Effect(flags, [], [NO_REPORT_PROGRESS])
    case _ => Effect(flags, [Forwarded(call)], [])
  }

  /** A run of calls from the given flags, effects in call order. */
  function Run(bridge: Bridge, flags: Flags, calls: seq<Call>): Effect
    decreases |calls|
  {
    if |calls| == 0 then Effect(flags, [], [])
    else
      var first := Step(bridge, flags, calls[0]);
      var rest := Run(bridge, first.flags, calls[1..]);
      Effect(rest.flags, first.native + rest.native, first.logs + rest.logs)
  }

  /** The three once-only functions. */
  datatype Once = SubmitOnce | InitOnce | ShutdownOnce

  function FlagOf(flags: Flags, k: Once): bool {
    match k
    case SubmitOnce => flags.submitCalled
    case InitOnce => flags.initCallbackCalled
    case ShutdownOnce => flags.shutdownCallbackCalled
  }

  function CallOf(k: Once): Call {
    match k
    case SubmitOnce => Submit
    case InitOnce => InitCallback
    case ShutdownOnce => ShutdownCallback
  }

  function ApiOf(k: Once): ApiCall {
    match k
    case SubmitOnce => SubmitApi
    case InitOnce => InitCallbackApi
    case ShutdownOnce => ShutdownCallbackApi
  }

  /** However the calls come, a once-only function reaches the bridge
      exactly once if it is called at all while its flag is clear, and
      never otherwise; a set flag stays set. */
  lemma {:induction false} OnceOnly(bridge: Bridge, flags: Flags, calls: seq<Call>, k: Once)
    ensures Count(Run(bridge, flags, calls).native, ApiOf(k)) ==
      if !FlagOf(flags, k) && CallOf(k) in calls then 1 else 0
    ensures FlagOf(Run(bridge, flags, calls).flags, k) <==> FlagOf(flags, k) || CallOf(k) in calls
    decreases |calls|
  {
    if |calls| > 0 {
      var first := Step(bridge, flags, calls[0]);
      OnceOnly(bridge, first.flags, calls[1..], k);
      CountAppend(first.native, Run(bridge, first.flags, calls[1..]).native, ApiOf(k));
      CountSingle(first.native, ApiOf(k));
      assert calls == [calls[0]] + calls[1..];
      assert CallOf(k) in calls <==> calls[0] == CallOf(k) || CallOf(k) in calls[1..];
      assert FlagOf(first.flags, k) <==> FlagOf(flags, k) || calls[0] == CallOf(k) by {
        match k
        case SubmitOnce =>
        case InitOnce =>
        case ShutdownOnce =>
      }
    }
  }

  /** Starting from a freshly built dispatcher, `submit`, `initCallback` and
      `shutdownCallback` each reach the bridge at most once. */
  lemma AtMostOnceFromStart(bridge: Bridge, calls: seq<Call>)
    ensures Count(Run(bridge, INITIAL_FLAGS, calls).native, SubmitApi) <= 1
    ensures Count(Run(bridge, INITIAL_FLAGS, calls).native, InitCallbackApi) <= 1
    ensures Count(Run(bridge, INITIAL_FLAGS, calls).native, ShutdownCallbackApi) <= 1
  {
    OnceOnly(bridge, INITIAL_FLAGS, calls, SubmitOnce);
    OnceOnly(bridge, INITIAL_FLAGS, calls, InitOnce);
    OnceOnly(bridge, INITIAL_FLAGS, calls, ShutdownOnce);
  }

  /** A run of forwarding calls reaches the bridge once per call, in order,
      with the arguments unchanged, whatever the flags. */
  lemma {:induction false} ForwardersAlwaysReach(bridge: Bridge, flags: Flags, calls: seq<Call>)
    requires forall i :: 0 <= i < |calls| ==> IsForwarder(calls[i])
    ensures |Run(bridge, flags, calls).native| == |calls|
    ensures forall i :: 0 <= i < |calls| ==> Run(bridge, flags, calls).native[i] == Forwarded(calls[i])
    ensures Run(bridge, flags, calls).flags == flags
    decreases |calls|
  {
    if |calls| > 0 {
      ForwardersAlwaysReach(bridge, flags, calls[1..]);
      var first := Step(bridge, flags, calls[0]);
      assert first.native == [Forwarded(calls[0])];
    }
  }

  /** `_schemaCallback(schema, standardConnections = [])`: the extended
      bridge function receives the standard connections, `[]` when none were
      passed; an older host's function receives the schema alone. */
  lemma SchemaCallbackFallback(bridge: Bridge, flags: Flags, schema: Option<Json>, standardConnections: Option<Json>)
    ensures var e := Step(bridge, flags, SchemaCallback(schema, standardConnections));
      && (bridge.hasSchemaCallbackEx ==> e.native == [SchemaCallbackExApi(schema, standardConnections.GetOr(JArr([])))])
      && (bridge.hasSchemaCallbackEx && standardConnections.None? ==> e.native == [SchemaCallbackExApi(schema, JArr([]))])
      && (!bridge.hasSchemaCallbackEx ==> e.native == [SchemaCallbackApi(schema)])
  {
  }

  /** `_reportProgress(progressMessage)` forwards when the host has the
      function and otherwise only logs. */
  lemma ReportProgressFallback(bridge: Bridge, flags: Flags, message: Option<Json>)
    ensures var e := Step(bridge, flags, ReportProgress(message));
      && (bridge.hasReportProgress ==> e.native == [ReportProgressApi(message)] && e.logs == [])
      && (!bridge.hasReportProgress ==> e.native == [] && e.logs == [NO_REPORT_PROGRESS])
  {
  }

  /** The dispatcher object: its flags, the bridge it talks to, and every
      bridge call and console line so far. */
  class Dispatcher {
    const bridge: Bridge
    var submitCalled: bool
    var initCallbackCalled: bool
    var shutdownCallbackCalled: bool
    var native: seq<ApiCall>
    var logs: seq<string>

    function FlagState(): Flags
      reads this
    {
      Flags(submitCalled, initCallbackCalled, shutdownCallbackCalled)
    }

    /** `new NativeDispatcher(nativeApiRootObj)`: both interfaces built,
        each announcing itself on the console, and every flag clear. */
    constructor (bridge: Bridge)
      ensures this.bridge == bridge
      ensures FlagState() == INITIAL_FLAGS
      ensures native == [] && logs == [PUBLIC_INTERFACE_READY, PRIVATE_INTERFACE_READY]
    {
      this.bridge := bridge;
      submitCalled := false;
      native := [];
      logs := [PUBLIC_INTERFACE_READY];
      initCallbackCalled := false;
      shutdownCallbackCalled := false;
      logs := logs + [PRIVATE_INTERFACE_READY];
    }

    /** Passes `call` to the matching private method. */
    method Dispatch(call: Call)
      modifies this
      ensures FlagState() == Step(bridge, old(FlagState()), call).flags
      ensures native == old(native) + Step(bridge, old(FlagState()), call).native
      ensures logs == old(logs) + Step(bridge, old(FlagState()), call).logs
    {
      match call {
        case Submit => SubmitOnce();
        case InitCallback => InitCallbackOnce();
        case ShutdownCallback => ShutdownCallbackOnce();
        case SchemaCallback(schema, standardConnections) => SchemaCallbackTo(schema, standardConnections);
        case ReportProgress(message) => ReportProgressTo(message);
        case _ => native := native + [Forwarded(call)];
      }
    }

    /** `_submit()`. */
    method SubmitOnce()
      modifies this
      ensures old(submitCalled) ==> native == old(native) && logs == old(logs) + [SUBMIT_AGAIN]
      ensures !old(submitCalled) ==> native == old(native) + [SubmitApi] && logs == old(logs)
      ensures submitCalled
      ensures initCallbackCalled == old(initCallbackCalled) && shutdownCallbackCalled == old(shutdownCallbackCalled)
    {
      if submitCalled {
        logs := logs + [SUBMIT_AGAIN];
        return;
      }
      submitCalled := true;
      native := native + [SubmitApi];
    }

    /** `_initCallback()`. */
    method InitCallbackOnce()
      modifies this
      ensures old(initCallbackCalled) ==> native == old(native) && logs == old(logs) + [INIT_AGAIN]
      ensures !old(initCallbackCalled) ==> native == old(native) + [InitCallbackApi] && logs == old(logs)
      ensures initCallbackCalled
      ensures submitCalled == old(submitCalled) && shutdownCallbackCalled == old(shutdownCallbackCalled)
    {
      if initCallbackCalled {
        logs := logs + [INIT_AGAIN];
        return;
      }
      initCallbackCalled := true;
      native := native + [InitCallbackApi];
    }

    /** `_shutdownCallback()`. */
    method ShutdownCallbackOnce()
      modifies this
      ensures old(shutdownCallbackCalled) ==> native == old(native) && logs == old(logs) + [SHUTDOWN_AGAIN]
      ensures !old(shutdownCallbackCalled) ==> native == old(native) + [ShutdownCallbackApi] && logs == old(logs)
      ensures shutdownCallbackCalled
      ensures submitCalled == old(submitCalled) && initCallbackCalled == old(initCallbackCalled)
    {
      if shutdownCallbackCalled {
        logs := logs + [SHUTDOWN_AGAIN];
        return;
      }
      shutdownCallbackCalled := true;
      native := native + [ShutdownCallbackApi];
    }

    /** `_schemaCallback(schema, standardConnections = [])`. */
    method SchemaCallbackTo(schema: Option<Json>, standardConnections: Option<Json>)
      modifies this
      ensures FlagState() == old(FlagState()) && logs == old(logs)
      ensures bridge.hasSchemaCallbackEx ==>
        native == old(native) + [SchemaCallbackExApi(schema, standardConnections.GetOr(JArr([])))]
      ensures !bridge.hasSchemaCallbackEx ==> native == old(native) + [SchemaCallbackApi(schema)]
    {
      if bridge.hasSchemaCallbackEx {
        native := native + [SchemaCallbackExApi(schema, standardConnections.GetOr(JArr([])))];
      } else {
        native := native + [SchemaCallbackApi(schema)];
      }
    }

    /** `_reportProgress(progressMessage)`. */
    method ReportProgressTo(progressMessage: Option<Json>)
      modifies this
      ensures FlagState() == old(FlagState())
      ensures bridge.hasReportProgress ==> native == old(native) + [ReportProgressApi(progressMessage)] && logs == old(logs)
      ensures !bridge.hasReportProgress ==> native == old(native) && logs == old(logs) + [NO_REPORT_PROGRESS]
    {
      if bridge.hasReportProgress {
        native := native + [ReportProgressApi(progressMessage)];
      } else {
        logs := logs + [NO_REPORT_PROGRESS];
      }
    }
  }

  /** Submitting twice on a fresh dispatcher reaches the bridge once; the
      console shows the two start-up lines, then the repeated submit. */
  method SubmitTwice(bridge: Bridge) returns (native: seq<ApiCall>, logs: seq<string>)
    ensures native == [SubmitApi]
    ensures logs == [PUBLIC_INTERFACE_READY, PRIVATE_INTERFACE_READY, SUBMIT_AGAIN]
  {
    var d := new Dispatcher(bridge);
    d.SubmitOnce();
    d.SubmitOnce();
    native := d.native;
    logs := d.logs;
  }
}
