/** The Spotify connector's control logic: what `init` does in each phase
    with and without tokens, the schema short-circuit on empty connection
    data, how `data` ends, and which data view serves each table. */
module SpotifyConnector {
  import opened Wrappers
  import opened Json
  import opened ErrorHelper
  import TableauShim
  import Authentication
  import NativeDispatcher
  import Requestor
  import Paging
  import Schema
  import ColumnRules
  import TopArtists
  import TopTracks
  import Albums
  import Tracks
  import TracksFeatures
  import Artists

  const CONNECTOR_NAME := "Spotify Connector"
  const DEFAULT_ERROR := "An unrecoverable error occurred. Contact Support Team"

  /** The values of the host's `phaseEnum`. */
  const INTERACTIVE_PHASE := "interactive"
  const AUTH_PHASE := "auth"
  const GATHER_DATA_PHASE := "gatherData"

  // ---------------------------------------------------------------------
  // init

  /** What `init` does after reading the tokens, in order. */
  datatype InitEffect =
    | ToggleUIState(state: string)
    | SetFilterFromConnectionData
    | InitCallback
    | Submit
    | AbortForAuth(message: string)

  /** The phase switch of `init` (`switch` compares with `===`): with
      tokens the connector finishes its init, shows the filters first in the
      interactive phase and submits in the auth phase; without tokens it
      shows sign-in, or aborts for authentication when gathering data. Any
      other phase does nothing. */
  function InitEffects(hasTokens: bool, phase: Option<Json>): seq<InitEffect> {
    if hasTokens then
      if phase == Some(JStr(INTERACTIVE_PHASE)) then [ToggleUIState("content"), SetFilterFromConnectionData, InitCallback]
      else if phase == Some(JStr(GATHER_DATA_PHASE)) then [InitCallback]
      else if phase == Some(JStr(AUTH_PHASE)) then [InitCallback, Submit]
      else []
    else
      if phase == Some(JStr(INTERACTIVE_PHASE)) then [ToggleUIState("signIn")]
      else if phase == Some(JStr(GATHER_DATA_PHASE)) then [AbortForAuth(Authentication.SAVE_TOKENS_TO_PASSWD)]
      else if phase == Some(JStr(AUTH_PHASE)) then [ToggleUIState("signIn")]
      else []
  }

  predicate IsKnownPhase(phase: Option<Json>) {
    phase == Some(JStr(INTERACTIVE_PHASE)) || phase == Some(JStr(GATHER_DATA_PHASE)) || phase == Some(JStr(AUTH_PHASE))
  }

  function Occurrences(effects: seq<InitEffect>, e: InitEffect): nat {
    |set i | 0 <= i < |effects| && effects[i] == e|
  }

  lemma OccurrencesOne(effects: seq<InitEffect>, e: InitEffect, k: nat)
    requires k < |effects| && effects[k] == e
    requires forall i :: 0 <= i < |effects| && i != k ==> effects[i] != e
    ensures Occurrences(effects, e) == 1
  {
    assert (set i | 0 <= i < |effects| && effects[i] == e) == {k};
  }

  /** With tokens, every known phase calls `initCallback` exactly once, and
      never aborts; only the auth phase submits, after `initCallback`. */
  lemma InitWithTokens(phase: Option<Json>)
    requires IsKnownPhase(phase)
    ensures var effects := InitEffects(true, phase);
      && Occurrences(effects, InitCallback) == 1
      && (forall i :: 0 <= i < |effects| ==> !effects[i].AbortForAuth?)
      && (Submit in effects <==> phase == Some(JStr(AUTH_PHASE)))
      && (phase == Some(JStr(AUTH_PHASE)) ==> effects == [InitCallback, Submit])
  {
    var effects := InitEffects(true, phase);
    if phase == Some(JStr(INTERACTIVE_PHASE)) {
      OccurrencesOne(effects, InitCallback, 2);
    } else if phase == Some(JStr(GATHER_DATA_PHASE)) {
      assert INTERACTIVE_PHASE != GATHER_DATA_PHASE by { assert INTERACTIVE_PHASE[0] != GATHER_DATA_PHASE[0]; }
      OccurrencesOne(effects, InitCallback, 0);
    } else {
      assert INTERACTIVE_PHASE != AUTH_PHASE by { assert INTERACTIVE_PHASE[0] != AUTH_PHASE[0]; }
      assert GATHER_DATA_PHASE != AUTH_PHASE by { assert GATHER_DATA_PHASE[0] != AUTH_PHASE[0]; }
      OccurrencesOne(effects, InitCallback, 0);
    }
  }

  /** Without tokens `initCallback` and `submit` are never called: the data
      phase aborts for authentication with the missing-tokens message, and
      the two interactive phases show sign-in. */
  lemma InitWithoutTokens(phase: Option<Json>)
    ensures var effects := InitEffects(false, phase);
      && InitCallback !in effects && Submit !in effects
      && (phase == Some(JStr(GATHER_DATA_PHASE)) ==> effects == [AbortForAuth(Authentication.SAVE_TOKENS_TO_PASSWD)])
      && (phase == Some(JStr(INTERACTIVE_PHASE)) || phase == Some(JStr(AUTH_PHASE)) ==> effects == [ToggleUIState("signIn")])
      && (!IsKnownPhase(phase) ==> effects == [])
  {
    assert INTERACTIVE_PHASE[0] != GATHER_DATA_PHASE[0] && GATHER_DATA_PHASE[0] != AUTH_PHASE[0];
  }

  /** The bridge call each effect leads to through the host API; showing UI
      reaches no bridge function. */
  function HostCalls(effects: seq<InitEffect>): seq<NativeDispatcher.Call> {
    if |effects| == 0 then []
    else
      var first := match effects[0]
        case InitCallback => [NativeDispatcher.InitCallback]
        case Submit => [NativeDispatcher.Submit]
        case AbortForAuth(message) => [NativeDispatcher.AbortForAuth(Some(JStr(message)))]
        case _ => [];
      first + HostCalls(effects[1..])
  }

  /** In the auth phase with tokens, a fresh dispatcher reaches the bridge's
      `initCallback` and then its `submit`, once each. */
  lemma AuthPhaseReachesBridge(bridge: NativeDispatcher.Bridge)
    ensures NativeDispatcher.Run(bridge, NativeDispatcher.INITIAL_FLAGS, HostCalls(InitEffects(true, Some(JStr(AUTH_PHASE))))).native
      == [NativeDispatcher.InitCallbackApi, NativeDispatcher.SubmitApi]
  {
    assert AUTH_PHASE[0] != INTERACTIVE_PHASE[0] && AUTH_PHASE[0] != GATHER_DATA_PHASE[0];
    var calls := HostCalls([InitCallback, Submit]);
    assert calls == [NativeDispatcher.InitCallback, NativeDispatcher.Submit] by {
      assert HostCalls([Submit]) == [NativeDispatcher.Submit] + HostCalls([]);
    }
    var first := NativeDispatcher.Step(bridge, NativeDispatcher.INITIAL_FLAGS, calls[0]);
    assert calls[1..] == [NativeDispatcher.Submit];
    assert calls[1..][1..] == [];
  }

  /** The username `init` saves: the connector name and the local time. */
  function SessionUsername(now: string): string {
    CONNECTOR_NAME + ": " + now
  }

  /** Tokens `getTokens` returns can always be saved. */
  lemma FoundTokensSavable(t: Json)
    requires Authentication.HasBothTokens(t)
    ensures Authentication.TokensToSave(Some(t)).Success?
  {
  }

  /** `init(initCallback)`: reads the tokens (a hash value that does not
      decode throws here), saves username and tokens when there are some,
      then runs the phase switch on the host's phase. The date is given as
      `now`. */
  method Init(host: TableauShim.Host, codec: TableauShim.JsonCodec, hash: string,
              decode: string -> Option<string>, now: string)
    returns (effects: seq<InitEffect>, thrown: Option<ErrorInfo>)
    modifies host
    ensures var tokens := Authentication.GetTokens(old(host.props), codec, hash, decode);
      && (tokens.Failure? ==> thrown == Some(tokens.error) && effects == [] && host.props == old(host.props))
      && (tokens.Success? ==>
            thrown.None? && effects == InitEffects(tokens.value.Some?, TableauShim.Get(old(host.props), "phase")))
      && (tokens.Success? && tokens.value.None? ==> host.props == old(host.props))
      && (tokens.Success? && tokens.value.Some? ==>
          host.props == old(host.props)["username" := JStr(SessionUsername(now))]
                                       ["password" := JStr(codec.stringify(Authentication.TokensToSave(tokens.value).value))])
  {
    var tokens := Authentication.GetTokens(host.props, codec, hash, decode);
    if tokens.Failure? {
      return [], Some(tokens.error);
    }
    ghost var before := host.props;
    if tokens.value.Some? {
      var _ := Authentication.SaveUsername(host, codec, Some(JStr(SessionUsername(now))));
      FoundTokensSavable(tokens.value.value);
      var _ := Authentication.SaveTokensToPassword(host, codec, tokens.value);
      assert "phase"[0] != "username"[0] && "phase"[1] != "password"[1];
    }
    assert TableauShim.Get(host.props, "phase") == TableauShim.Get(before, "phase");
    effects := InitEffects(tokens.value.Some?, TableauShim.Get(host.props, "phase"));
    thrown := None;
  }

  // ---------------------------------------------------------------------
  // schema

  /** What `schema` hands to `done`, and whether it asked the requestor. */
  datatype SchemaDone = SchemaDone(tables: seq<Schema.Table>, standardConnections: seq<Schema.Connection>,
                                   usedRequestor: bool)

  /** `schema(done)`: with empty connection data (after the auth phase)
      no tables and no connections, without a request; otherwise the
      requestor's schema. Reading connection data that does not parse
      throws. */
  function SchemaOf(props: TableauShim.Props, codec: TableauShim.JsonCodec): (r: Result<SchemaDone, ErrorInfo>)
    ensures r.Failure? <==> TableauShim.ConnectionDataOf(props, codec).Failure?
    ensures r.Success? ==> (r.value.usedRequestor <==> !IsEmpty(Some(TableauShim.ConnectionDataOf(props, codec).value)))
    ensures r.Success? && !r.value.usedRequestor ==> r.value.tables == [] && r.value.standardConnections == []
    ensures r.Success? && r.value.usedRequestor ==>
      Schema.Schema(r.value.tables, r.value.standardConnections) == Schema.ADVANCED_SCHEMA
  {
    match TableauShim.ConnectionDataOf(props, codec)
    case Failure(e) => Failure(e)
    case Success(data) =>
      if IsEmpty(Some(data)) then Success(SchemaDone([], [], false))
      else
        var s := Requestor.RetrieveSchema();
        Success(SchemaDone(s.tables, s.standardConnections, true))
  }

  /** Connection data set to `{}` (as after the auth phase) gives the empty
      schema without a request; non-empty connection data gives the full
      schema. */
  lemma SchemaAfterConnectionData(props: TableauShim.Props, codec: TableauShim.JsonCodec, v: Json)
    requires TableauShim.Lawful(codec) && v.JObj?
    ensures var stored := TableauShim.Assign(props, codec, TableauShim.ConnectionData, Some(v)).value;
      && (v.fields == [] ==> SchemaOf(stored, codec) == Success(SchemaDone([], [], false)))
      && (v.fields != [] ==>
            SchemaOf(stored, codec) ==
            Success(SchemaDone(Schema.ADVANCED_SCHEMA.tables, Schema.ADVANCED_SCHEMA.standardConnections, true)))
  {
    TableauShim.ConnectionDataObjectRoundTrip(props, codec, v);
  }

  // ---------------------------------------------------------------------
  // data

  /** How a `data` call ends: `done()`, an abort with a message, still
      waiting (the view's loop did not finish), or a throw out of `data`
      itself, which neither calls `done` nor aborts. */
  datatype DataEnd = Done | Aborted(message: string) | Waiting | Escaped(error: ErrorInfo)

  /** The message `data` aborts with: `reason.customMessage` when truthy,
      else the default error. An HTTP failure carries the interceptor's
      `customMessage`; any other error has none. */
  function AbortText(reason: Paging.Reason): string {
    match reason
    case HttpFailure(intercepted) =>
      if intercepted.customMessage != "" then intercepted.customMessage else DEFAULT_ERROR
    case Raised(_) => DEFAULT_ERROR
  }

  /** `data(...)` once the view's promise settles: resolved calls `done`,
      rejected aborts with an error; an error the view throws before
      returning its promise leaves `data` uncaught. */
  function DataCompletion(outcome: Paging.Outcome): (r: DataEnd)
    ensures r == Done <==> outcome.Resolved?
    ensures r.Aborted? <==> outcome.Rejection?
    ensures r.Aborted? ==> r.message != "" && r.message == AbortText(outcome.reason)
    ensures r.Escaped? <==> outcome.Thrown?
    ensures r.Escaped? ==> r.error == outcome.error
  {
    match outcome
    case Resolved => Done
    case Rejection(reason) => Aborted(AbortText(reason))
    case Pending => Waiting
    case Thrown(e) => Escaped(e)
  }

  /** Every message the interceptor makes is non-empty. */
  lemma InterceptedMessageNonEmpty(e: Requestor.ApiError)
    ensures Requestor.StatusCodeInterceptor(e).customMessage != ""
  {
    var r := Requestor.StatusCodeInterceptor(e);
    if e.statusCode.Some? && Requestor.HandledStatus(e.statusCode.value).Some? {
      assert |r.customMessage| > 0;
    } else {
      assert r.customMessage == e.name.GetOr("undefined") + ": " + e.message.GetOr("undefined")
                                + " (" + Requestor.StatusText(e.statusCode) + ")";
    }
  }

  /** A request that failed with an HTTP error aborts the data gathering
      with the interceptor's own message, never the default one. */
  lemma HttpFailureAbortsWithStatusMessage(e: Requestor.ApiError)
    ensures DataCompletion(Paging.Rejection(Paging.HttpFailure(Requestor.ResponseErrorCapturing(e).rejection)))
      == Aborted(Requestor.StatusCodeInterceptor(e).customMessage)
  {
    InterceptedMessageNonEmpty(e);
  }

  // ---------------------------------------------------------------------
  // getDataViewInstance

  /** The data view classes. */
  datatype View = TopArtistsView | TopTracksView | AlbumsView | TracksView | TracksFeaturesView | ArtistsView

  /** The table ids the switch knows. */
  const TABLE_IDS := {"topArtists", "topTracks", "albums", "tracks", "tracksFeatures", "tracksArtists", "albumsArtists"}

  const UNKNOWN_TABLE := ErrorInfo("Error", DEFAULT_ERROR, None)

  /** The `switch (tableId)`: each main table has its own view, both artist
      tables share the artists view, and anything else throws the default
      error. */
  function ViewFor(tableId: Option<Json>): (r: Result<View, ErrorInfo>)
    ensures r.Success? <==> tableId.Some? && tableId.value.JStr? && tableId.value.s in TABLE_IDS
    ensures r.Failure? ==> r.error == UNKNOWN_TABLE
    ensures r == Success(ArtistsView) <==> tableId == Some(JStr("tracksArtists")) || tableId == Some(JStr("albumsArtists"))
    ensures tableId == Some(JStr("topArtists")) ==> r == Success(TopArtistsView)
    ensures tableId == Some(JStr("topTracks")) ==> r == Success(TopTracksView)
    ensures tableId == Some(JStr("albums")) ==> r == Success(AlbumsView)
    ensures tableId == Some(JStr("tracks")) ==> r == Success(TracksView)
    ensures tableId == Some(JStr("tracksFeatures")) ==> r == Success(TracksFeaturesView)
  {
    if tableId.None? || !tableId.value.JStr? then Failure(UNKNOWN_TABLE)
    else
      var id := tableId.value.s;
      if id == "topArtists" then Success(TopArtistsView)
      else if id == "topTracks" then Success(TopTracksView)
      else if id == "albums" then Success(AlbumsView)
      else if id == "tracks" then Success(TracksView)
      else if id == "tracksFeatures" then Success(TracksFeaturesView)
      else if id == "tracksArtists" || id == "albumsArtists" then Success(ArtistsView)
      else Failure(UNKNOWN_TABLE)
  }

  /** The column switch of each view's `defineMappingRules`. */
  function AssignFor(view: View): string -> ColumnRules.Assignment {
    match view
    case TopArtistsView => TopArtists.Assign
    case TopTracksView => TopTracks.Assign
    case AlbumsView => Albums.Assign
    case TracksView => Tracks.Assign
    case TracksFeaturesView => TracksFeatures.Assign
    case ArtistsView => Artists.Assign
  }

  /** The table at position `i` of the shipped schema has a view that
      gives each of its columns a lookup. */
  predicate ServedTable(t: Schema.Table) {
    ViewFor(Some(JStr(t.id))).Success? && ColumnRules.AllAssigned(t.columns, AssignFor(ViewFor(Some(JStr(t.id))).value))
  }

  lemma TopArtistsServed()
    ensures ServedTable(Schema.TOP_ARTISTS)
  {
    var r := ViewFor(Some(JStr(Schema.TOP_ARTISTS.id)));
    assert r == Success(TopArtistsView);
    assert AssignFor(r.value) == TopArtists.Assign;
    TopArtists.ShippedColumnsAssigned();
  }

  lemma TopTracksServed()
    ensures ServedTable(Schema.TOP_TRACKS)
  {
    var r := ViewFor(Some(JStr(Schema.TOP_TRACKS.id)));
    assert r == Success(TopTracksView);
    assert AssignFor(r.value) == TopTracks.Assign;
    TopTracks.ShippedColumnsAssigned();
  }

  lemma AlbumsServed()
    ensures ServedTable(Schema.ALBUMS)
  {
    var r := ViewFor(Some(JStr(Schema.ALBUMS.id)));
    assert r == Success(AlbumsView);
    assert AssignFor(r.value) == Albums.Assign;
    Albums.ShippedColumnsAssigned();
  }

  lemma TracksServed()
    ensures ServedTable(Schema.TRACKS)
  {
    var r := ViewFor(Some(JStr(Schema.TRACKS.id)));
    assert r == Success(TracksView);
    assert AssignFor(r.value) == Tracks.Assign;
    Tracks.ShippedColumnsAssigned();
  }

  lemma TracksFeaturesServed()
    ensures ServedTable(Schema.TRACKS_FEATURES)
  {
    var r := ViewFor(Some(JStr(Schema.TRACKS_FEATURES.id)));
    assert r == Success(TracksFeaturesView);
    assert AssignFor(r.value) == TracksFeatures.Assign;
    TracksFeatures.ShippedColumnsAssigned();
  }

  lemma TracksArtistsServed()
    ensures ServedTable(Schema.TRACKS_ARTISTS)
  {
    var r := ViewFor(Some(JStr(Schema.TRACKS_ARTISTS.id)));
    assert r == Success(ArtistsView);
    assert AssignFor(r.value) == Artists.Assign;
    Artists.ShippedColumnsAssigned();
  }

  lemma AlbumsArtistsServed()
    ensures ServedTable(Schema.ALBUMS_ARTISTS)
  {
    var r := ViewFor(Some(JStr(Schema.ALBUMS_ARTISTS.id)));
    assert r == Success(ArtistsView);
    assert AssignFor(r.value) == Artists.Assign;
    Artists.ShippedColumnsAssigned();
  }

  lemma ShippedTableServed(i: nat)
    requires i < |Schema.ADVANCED_SCHEMA.tables|
    ensures ServedTable(Schema.ADVANCED_SCHEMA.tables[i])
  {
    var tables := Schema.ADVANCED_SCHEMA.tables;
    if i == 0 { TopArtistsServed(); }
    else if i == 1 { TopTracksServed(); }
    else if i == 2 { AlbumsServed(); }
    else if i == 3 { TracksServed(); }
    else if i == 4 { TracksFeaturesServed(); }
    else if i == 5 { TracksArtistsServed(); }
    else { AlbumsArtistsServed(); }
  }

  /** Every table of the shipped schema has a view, and that view gives
      each of its columns a lookup, so defining its mapping rules never
      throws. */
  lemma ShippedTablesHaveViews()
    ensures forall i :: 0 <= i < |Schema.ADVANCED_SCHEMA.tables| ==> ServedTable(Schema.ADVANCED_SCHEMA.tables[i])
  {
    forall i | 0 <= i < |Schema.ADVANCED_SCHEMA.tables| ensures ServedTable(Schema.ADVANCED_SCHEMA.tables[i]) {
      ShippedTableServed(i);
    }
  }

  /** What `getDataViewInstance` builds a view from. */
  datatype ViewChoice = ViewChoice(view: View, tableId: string, filters: Json, columns: Option<Json>)

  /** Destructuring `filters` out of `null` connection data. */
  const NULL_CONNECTION_DATA := ErrorInfo("TypeError", "Cannot destructure property 'filters' of 'null' as it is null.", None)

  /** Destructuring `columns` out of a missing `tableInfo`. */
  const NO_TABLE_INFO := ErrorInfo("TypeError", "Cannot read properties of undefined (reading 'columns')", None)

  /** `getDataViewInstance({ tableId, tableProperties })`: the filters of
      the connection data (`{}` when it has none), the view for the table,
      and the columns of the table description. */
  function GetDataViewInstance(props: TableauShim.Props, codec: TableauShim.JsonCodec, tableId: Option<Json>,
                               tableProperties: Option<Json>): (r: Result<ViewChoice, ErrorInfo>)
    ensures TableauShim.ConnectionDataOf(props, codec).Failure? ==> r == Failure(TableauShim.ConnectionDataOf(props, codec).error)
    ensures r.Success? ==> ViewFor(tableId) == Success(r.value.view)
    ensures r.Success? ==>
      var data := TableauShim.ConnectionDataOf(props, codec).value;
      r.value.filters == Prop(data, "filters").GetOr(JObj([]))
    ensures (&& TableauShim.ConnectionDataOf(props, codec).Success?
             && !TableauShim.ConnectionDataOf(props, codec).value.JNull?
             && ViewFor(tableId).Failure?) ==> r == Failure(UNKNOWN_TABLE)
  {
    match TableauShim.ConnectionDataOf(props, codec)
    case Failure(e) => Failure(e)
    case Success(data) =>
      if data.JNull? then Failure(NULL_CONNECTION_DATA)
      else
        var filters := Prop(data, "filters").GetOr(JObj([]));
        match ViewFor(tableId)
        case Failure(e) => Failure(e)
        case Success(view) =>
          var tableInfo := if tableProperties.None? || tableProperties.value.JNull? then None
                           else Prop(tableProperties.value, "tableInfo");
          if tableInfo.None? || tableInfo.value.JNull? then Failure(NO_TABLE_INFO)
          else Success(ViewChoice(view, tableId.value.s, filters, Prop(tableInfo.value, "columns")))
  }

  /** Connection data without `filters` gives the view `{}` as filters. */
  lemma FiltersDefaultToEmpty(props: TableauShim.Props, codec: TableauShim.JsonCodec, v: Json,
                              tableId: Option<Json>, tableProperties: Option<Json>)
    requires TableauShim.Lawful(codec) && v.JObj? && FieldValue(v.fields, "filters").None?
    ensures var stored := TableauShim.Assign(props, codec, TableauShim.ConnectionData, Some(v)).value;
      var r := GetDataViewInstance(stored, codec, tableId, tableProperties);
      r.Success? ==> r.value.filters == JObj([])
  {
    TableauShim.ConnectionDataObjectRoundTrip(props, codec, v);
  }
}
