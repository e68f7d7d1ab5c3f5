/** The Spotify Web API client wrapper: request parameters with their
    defaults, the table that turns an HTTP failure into a rejection the
    connector understands, and the static schema source. */
module Requestor {
  import opened Wrappers
  import opened Json
  import opened ErrorHelper
  import Schema

  const DEFAULT_TIME_RANGE := "short_term"
  const DEFAULT_OFFSET := 0
  const DEFAULT_LIMIT := 50

  const STATUS_400 := "Bad Request - The request could not be understood by the server due to malformed syntax. The message body will contain more information; see Response Schema https://developer.spotify.com/documentation/web-api/#response-schema."
  const STATUS_401 := "Unauthorized - The request requires user authentication or, if the request included authorization credentials, authorization has been refused for those credentials."
  const STATUS_403 := "Forbidden - The server understood the request, but is refusing to fulfill it."
  const STATUS_404 := "Not Found - The requested resource could not be found. This error can be due to a temporary or permanent condition."
  const STATUS_429 := "Too Many Requests - Rate limiting has been applied. see https://developer.spotify.com/documentation/web-api/#rate-limiting"
  const STATUS_500 := "Internal Server Error. You should never receive this error because our clever coders catch them all … but if you are unlucky enough to get one, please report it to us through a comment at the bottom of this page."
  const STATUS_502 := "Bad Gateway - The server was acting as a gateway or proxy and received an invalid response from the upstream server."
  const STATUS_503 := "Service Unavailable - The server is currently unable to handle the request due to a temporary condition which will be alleviated after some delay. You can choose to resend the request again."

  /** An error reported by the API library: any field may be missing. */
  datatype ApiError = ApiError(name: Option<string>, message: Option<string>, statusCode: Option<int>)

  /** The object a failed request is rejected with; `action` null is `None`. */
  datatype Intercepted = Intercepted(action: Option<string>, customMessage: string)

  /** The statuses the connector knows, with their action and message. */
  function HandledStatus(code: int): Option<Intercepted> {
    if code == 400 then Some(Intercepted(None, STATUS_400))
    else if code == 401 then Some(Intercepted(Some("REAUTH"), STATUS_401))
    else if code == 403 then Some(Intercepted(None, STATUS_403))
    else if code == 404 then Some(Intercepted(None, STATUS_404))
    else if code == 429 then Some(Intercepted(Some("RETRY"), STATUS_429))
    else if code == 500 then Some(Intercepted(None, STATUS_500))
    else if code == 502 then Some(Intercepted(None, STATUS_502))
    else if code == 503 then Some(Intercepted(None, STATUS_503))
    else None
  }

  function StatusText(code: Option<int>): string {
    if code.None? then "undefined" else IntToString(code.value)
  }

  /** `statusCodeInterceptor`: the entry for a known status, otherwise a
      message built from the error's name, message and status, with no action. */
  function StatusCodeInterceptor(e: ApiError): (r: Intercepted)
    ensures e.statusCode == Some(401) ==> r == Intercepted(Some("REAUTH"), STATUS_401)
    ensures e.statusCode == Some(429) ==> r == Intercepted(Some("RETRY"), STATUS_429)
    ensures r.action.Some? <==> e.statusCode == Some(401) || e.statusCode == Some(429)
    ensures e.statusCode.None? || e.statusCode.value !in {400, 401, 403, 404, 429, 500, 502, 503} ==>
      r.customMessage == e.name.GetOr("undefined") + ": " + e.message.GetOr("undefined")
                         + " (" + StatusText(e.statusCode) + ")"
  {
    var default := Intercepted(None, e.name.GetOr("undefined") + ": " + e.message.GetOr("undefined")
                                     + " (" + StatusText(e.statusCode) + ")");
    if e.statusCode.None? then default else HandledStatus(e.statusCode.value).GetOr(default)
  }

  /** The six handled statuses without an action, each with its own message. */
  lemma NoActionStatuses(e: ApiError)
    requires e.statusCode.Some? && e.statusCode.value in {400, 403, 404, 500, 502, 503}
    ensures StatusCodeInterceptor(e).action.None?
    ensures StatusCodeInterceptor(e).customMessage ==
      (match e.statusCode.value
       case 400 => STATUS_400
       case 403 => STATUS_403
       case 404 => STATUS_404
       case 500 => STATUS_500
       case 502 => STATUS_502
       case _ => STATUS_503)
  {
  }

  /** The rejection `responseErrorCapturing` returns and the error it logs. */
  datatype Captured = Captured(rejection: Intercepted, logged: Option<ErrorInfo>)

  /** `responseErrorCapturing(reason)`: always a rejection with the
      intercepted object; an error naming the status is logged exactly when
      that object carries an action. */
  function ResponseErrorCapturing(reason: ApiError): (c: Captured)
    ensures c.rejection == StatusCodeInterceptor(reason)
    ensures c.logged.Some? <==> c.rejection.action.Some?
    ensures c.logged.Some? ==> c.logged.value.name == "Requestor.responseErrorCapturing ->"
    ensures c.logged.Some? ==> c.logged.value.message == "We could take an action for this error " + StatusText(reason.statusCode)
  {
    var captured := StatusCodeInterceptor(reason);
    Captured(captured,
             if captured.action.Some?
             then Some(Created(Some("Requestor.responseErrorCapturing ->"),
                               "We could take an action for this error " + StatusText(reason.statusCode), None))
             else None)
  }

  /** A request to the Web API, with its parameters after defaulting. */
  datatype Request =
    | TopArtistsRequest(timeRange: Json, offset: int, limit: int)
    | TopTracksRequest(timeRange: Json, offset: int, limit: int)
    | AlbumsRequest(market: Option<string>, offset: int, limit: int)
    | TracksRequest(market: Option<string>, offset: int, limit: int)
    | FeaturesRequest(ids: seq<string>)
    | ArtistsRequest(ids: seq<string>)

  /** A response: a rejection already passed through `responseErrorCapturing`,
      a paging object, or an object holding one list of items. */
  datatype Response =
    | Rejected(reason: Intercepted)
    | Paged(items: seq<Json>, next: Option<Json>, offset: int, limit: int, total: int)
    | Listed(items: seq<Json>)

  /** `getTopArtists`: time range, offset and limit default to
      short_term, 0 and 50; a time range given is passed on whatever it is. */
  function GetTopArtists(timeRange: Option<Json>, offset: Option<int>, limit: Option<int>): (r: Request)
    ensures r.TopArtistsRequest?
    ensures r.timeRange == (if timeRange.Some? then timeRange.value else JStr(DEFAULT_TIME_RANGE))
    ensures r.offset == (if offset.Some? then offset.value else DEFAULT_OFFSET)
    ensures r.limit == (if limit.Some? then limit.value else DEFAULT_LIMIT)
  {
    TopArtistsRequest(timeRange.GetOr(JStr(DEFAULT_TIME_RANGE)), offset.GetOr(DEFAULT_OFFSET), limit.GetOr(DEFAULT_LIMIT))
  }

  /** `getTopTracks`: the same defaults as `getTopArtists`. */
  function GetTopTracks(timeRange: Option<Json>, offset: Option<int>, limit: Option<int>): (r: Request)
    ensures r.TopTracksRequest?
    ensures r.timeRange == (if timeRange.Some? then timeRange.value else JStr(DEFAULT_TIME_RANGE))
    ensures r.offset == (if offset.Some? then offset.value else DEFAULT_OFFSET)
    ensures r.limit == (if limit.Some? then limit.value else DEFAULT_LIMIT)
  {
    TopTracksRequest(timeRange.GetOr(JStr(DEFAULT_TIME_RANGE)), offset.GetOr(DEFAULT_OFFSET), limit.GetOr(DEFAULT_LIMIT))
  }

  /** `getAlbums`: the market is passed as given; offset 0 and limit 50 by default. */
  function GetAlbums(market: Option<string>, offset: Option<int>, limit: Option<int>): (r: Request)
    ensures r.AlbumsRequest? && r.market == market
    ensures r.offset == (if offset.Some? then offset.value else DEFAULT_OFFSET)
    ensures r.limit == (if limit.Some? then limit.value else DEFAULT_LIMIT)
  {
    AlbumsRequest(market, offset.GetOr(DEFAULT_OFFSET), limit.GetOr(DEFAULT_LIMIT))
  }

  /** `getTracks`: like `getAlbums`, for the saved tracks. */
  function GetTracks(market: Option<string>, offset: Option<int>, limit: Option<int>): (r: Request)
    ensures r.TracksRequest? && r.market == market
    ensures r.offset == (if offset.Some? then offset.value else DEFAULT_OFFSET)
    ensures r.limit == (if limit.Some? then limit.value else DEFAULT_LIMIT)
  {
    TracksRequest(market, offset.GetOr(DEFAULT_OFFSET), limit.GetOr(DEFAULT_LIMIT))
  }

  /** `getTracksFeatures`: the ids default to none. */
  function GetTracksFeatures(ids: Option<seq<string>>): (r: Request)
    ensures r.FeaturesRequest? && r.ids == (if ids.Some? then ids.value else [])
  {
    FeaturesRequest(ids.GetOr([]))
  }

  /** `getArtists`: the ids default to none. */
  function GetArtists(ids: Option<seq<string>>): (r: Request)
    ensures r.ArtistsRequest? && r.ids == (if ids.Some? then ids.value else [])
  {
    ArtistsRequest(ids.GetOr([]))
  }

  /** `retrieveSchema`: the static schema, which is well formed. */
  function RetrieveSchema(): (s: Schema.Schema)
    ensures Schema.WellFormedSchema(s)
    ensures s == Schema.ADVANCED_SCHEMA
  {
    Schema.AdvancedSchemaWellFormed();
    Schema.ADVANCED_SCHEMA
  }
}
