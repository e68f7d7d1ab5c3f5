# SpotifyWDC core, modelled in Dafny

This project models the core of the Spotify Web Data Connector (WDC), a browser connector that lets
Tableau read a user's Spotify library. The model covers these parts:

- **Mapping.** A rule table validates column rules. It then turns each API record into one row, looking
  values up by lodash-style paths and applying defaults and transformation handlers.
- **The six data views.** These are Top Artists, Top Tracks, Albums, Tracks, Tracks Features and Artists.
  Each view assigns lookups to the schema's columns. It then pages through the Web API in one of two ways:
  by `offset`/`next`, or by splicing batches of ids from the end of the filter list. Each page or
  batch is announced through the shim's `reportProgress`, which may throw.
- **The advanced schema.** Seven tables and two standard connections.
- **Requestor.** Request defaults, and the mapping of HTTP status codes to "intercepted" errors.
- **ErrorHelper.** Tagging an error once with a name and a code, and turning it into text.
- **SpotifyConnector.** The `init`/`schema`/`data` life cycle and the choice of a data view per table.
- **Authentication.** Reading the OAuth tokens from the stored password or from the URL hash, and
  saving them back.
- **TableauShim.** A checked facade over the host's `tableau` object: read-only properties, typed setters,
  JSON-encoded `connectionData`/`passwordData`/`userData`, and the `reportProgress` fallback.
- **The WDC library.**
  - `Table`: appending rows.
  - `NativeDispatcher`: calls that are forwarded at most once, and the bridge fallbacks.
  - `Shared`: registering the connector, the global error handler, and data gathering.
  - `ApprovedOrigins`: the list of approved origins kept in a cookie.
  - `BuildNumber`: version parsing and comparison.
  - `Utilities`: copying functions between objects, and linking object properties.
- **The auth proxy.** The `getAuthPurpose` and `getSecrets` helpers of the Express server.

Values the JavaScript handles loosely are a `Json` datatype. `undefined` is `Option.None`, and a thrown
error is `Result.Failure` or an `Option<ErrorInfo>` out-parameter. Objects that the source changes in
place are classes: `Mapping.Mapping`, `Table.Table`, `Shared.Shared`, `NativeDispatcher.Dispatcher`,
`TableauShim.Host`, `ApprovedOrigins.CookieJar`, `Utilities.JsObject` and `Paging.IdList`.

Anything the code cannot see is a parameter:
- the Spotify Web API (`respond: Request -> Response`);
- `JSON.parse`/`JSON.stringify` (`JsonCodec`, with a `Lawful` predicate for the parse-after-stringify law);
- `decodeURIComponent`;
- base64;
- the clock.

## Model

| member | source | states |
|---|---|---|
| Mapping.IsValidId | src/modules/Mapping.js:101-103 | a missing id is not valid; a string id is valid exactly when it matches `^[a-z][a-z0-9_]+$` case-insensitively; any other id throws a TypeError |
| Mapping.Prevalidate | src/modules/Mapping.js:109-135 | a rule passes exactly when it is a plain object with a valid, unused id, a supported dataType and a lookup |
| Mapping.PrevalidateFirstFailure | src/modules/Mapping.js:109-135 | a failing rule gets the message of the first check that fails, in the order literal object, valid id (a non-string id throws), unused id, dataType present, dataType supported, lookup present |
| Mapping.AddAllKeepsWellFormed | src/modules/Mapping.js:87-95 | adding rules one by one keeps the rule ids valid and distinct, however far the loop gets |
| Mapping.AddAllAcceptsFresh | src/modules/Mapping.js:87-95 | admissible rules with fresh, pairwise distinct ids are all appended, in order, and nothing is thrown |
| Mapping.AddAllShape | src/modules/Mapping.js:87-95 | addRules keeps the old rules as a prefix and appends a prefix of the input; it throws exactly when it stops early, with the error of the first rejected rule |
| Mapping.Mapping.constructor | src/modules/Mapping.js:34-37 | a new mapping has no rules and no handlers |
| Mapping.Mapping.AddRule | src/modules/Mapping.js:69-79 | a rule that prevalidates is appended; otherwise the rules are unchanged and the prevalidation error is thrown |
| Mapping.Mapping.AddRules | src/modules/Mapping.js:87-95 | the loop's resulting rules and thrown error are those of adding the inputs one at a time |
| Mapping.Mapping.SetRules | src/modules/Mapping.js:50-63 | assigning `rules` clears the table and then adds the inputs one at a time |
| Mapping.Register | src/modules/Mapping.js:142-158 | a missing key, a taken key and a non-function handler each throw their own error; otherwise the handler is added under the key and the others are kept |
| Mapping.Mapping.AddTransformationHandler | src/modules/Mapping.js:142-158 | the handler table becomes the registration result, or stays unchanged and the error is thrown; the rules never change |
| Mapping.Transform | src/modules/Mapping.js:165-177 | a falsy handler keeps the value; a function is applied; a string names a registered handler; anything else throws "… is not a defined Mapping transformationHandler function" |
| Mapping.LookedUp | src/modules/Mapping.js:251-254 | a cell is the value found at the lookup path, or else the rule's default value, or else null |
| Mapping.RowShape | src/modules/Mapping.js:230-261 | a mapped row has one entry per rule, keyed by the rule id, whose value is that rule's cell |
| Mapping.RowSucceedsIffAllCells | src/modules/Mapping.js:230-261 | mapItem succeeds exactly when every cell's transformation succeeds |
| Mapping.RowFailsAtFirstFailingCell | src/modules/Mapping.js:249-258 | mapItem throws the error of the first failing cell |
| Mapping.Mapping.MapItem | src/modules/Mapping.js:230-261 | the column loop computes the row that RowOf specifies |
| Mapping.Qualifying | src/modules/Mapping.js:200-213 | only non-empty plain objects are mapped, and never more records than given |
| Mapping.RowsOf | src/modules/Mapping.js:185-217 | on success there is one row per record, and each row is that record's mapItem result |
| Mapping.FlattenIsRowsOfQualifying | src/modules/Mapping.js:185-217 | flattenData with its empty-slot filter equals mapping only the qualifying records, in order |
| Mapping.Mapping.FlattenData | src/modules/Mapping.js:185-217 | the record loop computes the Flatten specification |
| Json.Get | src/modules/Mapping.js:251-254 | the cell is the resolved value whenever the lookup resolves, even to null; the default is used only when it resolves to undefined |
| Json.PlainKeyLookup | src/modules/Mapping.js:254 | a lookup with no dot or bracket reads exactly that key of the record |
| Json.PathLookup | src/modules/Mapping.js:254 | a lookup written with dots and numeric brackets (`followers.total`, `genres[0]`, `album.images[0].url`) reads its names in order, each a property of what the previous step found; a null or missing value before the last step gives undefined. This holds unless the record has a key spelled like the whole path |
| Json.PathSegments | src/modules/Mapping.js:254 | lodash's string-to-path splits the text of such a path into exactly its names, in order |
| Json.WalkStep | src/modules/Mapping.js:254 | walking one more name reads that property of what the walk found, unless it found nothing or null |
| Json.IndexStep | src/modules/Mapping.js:254 | an index segment reads the element of an array at that index, and nothing past the array's end |
| Json.NullAtPathEndKept | src/modules/Mapping.js:251-254 | a null found at the end of a path is the cell's value; `_.get` does not replace it with the default |
| Json.FieldOfFieldRead | src/modules/Mapping.js:254 | `a.b` reads property `b` of property `a` |
| Json.IndexOfFieldRead | src/modules/Mapping.js:254 | `a[d]` reads the element at index `d` of the array in property `a` |
| Json.FieldOfIndexOfFieldRead | src/modules/Mapping.js:254 | `a.b[d].c` reads property `c` of element `d` of the array in `a.b` |
| Json.DotLookupYieldsDefault | src/modules/Mapping.test.unit.js:118-129 | the lookup `'.'` falls back to the default on records without an empty-named key |
| ColumnRules.RulesFor | src/modules/dataviews/Albums.js:19-67 | there is one rule per column, carrying the column's id and dataType and the view's lookup, default and transform |
| ColumnRules.AllAssignedAccepted | src/modules/dataviews/Albums.js:19-67 | when every column gets a lookup, addRules accepts all of them in order |
| ColumnRules.UnassignedRejected | src/modules/dataviews/Albums.js:27-64 | a column the switch does not list is rejected for a missing lookup |
| ColumnRules.DefineMappingRules | src/modules/dataviews/Albums.js:19-70 | defineMappingRules leaves the mapping's rules and thrown error as addRules over the assigned columns would |
| ColumnRules.DefineAssignedRules | src/modules/dataviews/Albums.js:19-70 | on a fresh mapping, fully assigned columns yield exactly one rule per column and no error |
| Albums.Assign | src/modules/dataviews/Albums.js:27-64 | exactly the listed columns get a lookup; all but `added_at` read under `album.`; genres and the image take list indexes |
| Albums.ImageLinkReadThroughPath | src/modules/dataviews/Albums.js:47 | the image link is the `url` of the first image of the record's album |
| Albums.ArtistIdReadThroughPath | src/modules/dataviews/Albums.js:32 | the artist column is the `id` of the first artist of the record's album |
| Albums.ShippedColumnsAssigned | src/modules/dataviews/Albums.js:27-64 | every column of the albums schema table is given a lookup |
| Albums.ShippedColumnsAcceptable | src/schemas/advancedSchemas.js:98-115 | every albums column has a valid id and a supported dataType |
| Albums.UnlistedColumnRejected | src/modules/dataviews/Albums.js:27-67 | an unlisted column makes addRules throw for a missing lookup |
| Artists.Assign | src/modules/dataviews/Artists.js:19-58 | exactly the listed columns get a lookup; followers reads `followers.total` with no default |
| Artists.MissingFollowersReadAsNull | src/modules/dataviews/Artists.js:31-33 | an artist without a follower count yields null |
| Artists.FirstGenreReadThroughPath | src/modules/dataviews/Artists.js:35 | the first genre column is the first entry of the artist's genre list |
| Artists.ShippedColumnsAssigned | src/modules/dataviews/Artists.js:19-58 | every column of both artist tables is given a lookup |
| Artists.ShippedColumnsAcceptable | src/schemas/advancedSchemas.js:209-258 | every artist column has a valid id and a supported dataType |
| Artists.UnlistedColumnRejected | src/modules/dataviews/Artists.js:19-58 | an unlisted column makes addRules throw for a missing lookup |
| TopArtists.Assign | src/modules/dataviews/TopArtists.js:19-59 | exactly the listed columns get a lookup; only followers has a default, 0 |
| TopArtists.MissingFollowersReadAsZero | src/modules/dataviews/TopArtists.js:28-31 | a top artist without a follower count yields 0 |
| TopArtists.FollowersReadThroughPath | src/modules/dataviews/TopArtists.js:28-31 | the followers column is `followers.total`; a null total stays null instead of becoming the default 0 |
| TopArtists.ShippedColumnsAssigned | src/modules/dataviews/TopArtists.js:19-59 | every column of the top artists table is given a lookup |
| TopArtists.ShippedColumnsAcceptable | src/schemas/advancedSchemas.js:13-80 | every top artists column has a valid id and a supported dataType |
| TopArtists.UnlistedColumnRejected | src/modules/dataviews/TopArtists.js:19-59 | an unlisted column makes addRules throw for a missing lookup |
| TopTracks.Assign | src/modules/dataviews/TopTracks.js:19-64 | exactly the listed columns get a lookup; album and artist ids read nested paths |
| TopTracks.ShippedColumnsAssigned | src/modules/dataviews/TopTracks.js:19-64 | every column of the top tracks table is given a lookup |
| TopTracks.ShippedColumnsAcceptable | src/schemas/advancedSchemas.js:81-97 | every top tracks column has a valid id and a supported dataType |
| TopTracks.UnlistedColumnRejected | src/modules/dataviews/TopTracks.js:19-64 | an unlisted column makes addRules throw for a missing lookup |
| Tracks.Assign | src/modules/dataviews/Tracks.js:19-67 | exactly the listed columns get a lookup; all but `added_at` read under `track.` |
| Tracks.ShippedColumnsAssigned | src/modules/dataviews/Tracks.js:19-67 | every column of the tracks table is given a lookup |
| Tracks.ShippedColumnsAcceptable | src/schemas/advancedSchemas.js:116-133 | every tracks column has a valid id and a supported dataType |
| Tracks.UnlistedColumnRejected | src/modules/dataviews/Tracks.js:19-67 | an unlisted column makes addRules throw for a missing lookup |
| TracksFeatures.PitchClass | src/modules/dataviews/TracksFeatures.js:40-43 | the key transform yields a pitch-class name, or undefined outside 0..11 |
| TracksFeatures.PitchIndex | src/modules/dataviews/TracksFeatures.js:41 | the inverse of the key table |
| TracksFeatures.PitchClassNames | src/modules/dataviews/TracksFeatures.js:40-43 | keys 0..11 map to the twelve names, and back |
| TracksFeatures.PitchClassOutOfRange | src/modules/dataviews/TracksFeatures.js:40-43 | a non-integer or out-of-range key yields undefined |
| TracksFeatures.ModeName | src/modules/dataviews/TracksFeatures.js:51-60 | the mode transform yields "Minor", "Major" or the value itself |
| TracksFeatures.ModeOf | src/modules/dataviews/TracksFeatures.js:51-60 | a value that parses to 0 gives "Minor", one that parses to 1 gives "Major", and any other value is returned unchanged |
| TracksFeatures.ModeNumbers | src/modules/dataviews/TracksFeatures.js:51-60 | 0 reads "Minor" and 1 reads "Major" |
| TracksFeatures.ModeTexts | src/modules/dataviews/TracksFeatures.js:51-60 | parseInt makes "0" Minor and "+1" Major, and null passes through |
| TracksFeatures.ModeNameIdempotent | src/modules/dataviews/TracksFeatures.js:51-60 | transforming an already transformed mode changes nothing |
| TracksFeatures.Assign | src/modules/dataviews/TracksFeatures.js:19-87 | every listed column reads its own name; key and mode add a transform and a null default |
| TracksFeatures.MissingKeyCell | src/modules/dataviews/TracksFeatures.js:38-45 | a record without a key yields undefined through the transform |
| TracksFeatures.ShippedColumnsAssigned | src/modules/dataviews/TracksFeatures.js:19-87 | every column of the features table is given a lookup |
| TracksFeatures.ShippedColumnsAcceptable | src/schemas/advancedSchemas.js:134-208 | every features column has a valid id and a supported dataType |
| TracksFeatures.UnlistedColumnRejected | src/modules/dataviews/TracksFeatures.js:19-87 | an unlisted column makes addRules throw for a missing lookup |
| Paging.OffsetRequestsChain | src/modules/dataviews/Albums.js:84-122 | the first request starts at the given offset; each later one starts at the previous page's `offset + limit` (also TopArtists.js, TopTracks.js, Tracks.js) |
| Paging.OffsetBatchesArePages | src/modules/dataviews/Albums.js:92-101 | each batch sent to Tableau is the flattened `items` of the matching page |
| Paging.OffsetOutcome | src/modules/dataviews/Albums.js:86-121 | a run resolves on a page without `next`; it rejects with the intercepted error, the mapping error or the error `reportProgress` threw after the page was flattened, after delivering every earlier page (also TopArtists.js:90, TopTracks.js:95, Tracks.js:96) |
| Paging.FetchPage | src/modules/dataviews/Albums.js:86-119 | one round requests a page, flattens it, reports progress with the page's total, offset and limit, and computes the page step and the next offset |
| Paging.FetchPages | src/modules/dataviews/Albums.js:84-122 | the paging loop, progress reports included, computes the offset-run specification |
| Paging.BatchSizes | src/modules/dataviews/TracksFeatures.js:101-152 | every request asks for at most 100 ids (50 for artists); all but the last ask for a full batch |
| Paging.BatchesPartitionIds | src/modules/dataviews/Artists.js:72-123 | the ids left in the list, plus a batch taken off but not requested because its progress report threw, plus the ids requested taken from the back, give back the filter list |
| Paging.BatchRequestCount | src/modules/dataviews/Artists.js:72-123 | a run that resolves and consumes every id makes ⌈n/50⌉ requests (⌈n/100⌉ for features) |
| Paging.BatchOutcome | src/modules/dataviews/TracksFeatures.js:101-152 | each batch is the flattened response; an empty response ends the run; a rejection carries the intercepted error or the error of a later round's progress report; a report that throws in the first round escapes the call itself, before any request (also Artists.js:92, TracksFeatures.js:121) |
| Paging.IdList.SpliceLast | src/modules/dataviews/Artists.js:81 | `splice(-k)` removes and returns the last k ids, or all of them when fewer remain |
| Paging.FetchBatch | src/modules/dataviews/Artists.js:81-119 | one round reports progress with the batch size and the ids left, then requests and computes the batch step |
| Paging.FetchBatches | src/modules/dataviews/Artists.js:72-123 | the batch loop, progress reports included, computes the batch-run specification and leaves the unrequested ids in the filter list |
| Paging.ShimReporterThrows | src/modules/TableauShim.js:598-605 | the shim's `reportProgress` as written throws its TypeError for every progress message on a host without `reportProgress` |
| Paging.OldHostDeliversNoPage | src/modules/dataviews/Albums.js:94-101 | on such a host an offset view requests one page and delivers no row: the page's progress report rejects the run with that TypeError |
| Paging.OldHostThrowsBeforeRequesting | src/modules/dataviews/Artists.js:81-94 | on such a host an id-batch view with ids throws out of its first call before any request, with the first batch already spliced off |
| Paging.QuietRunSendsAll | src/modules/dataviews/TracksFeatures.js:110-123 | with a progress report that never throws, as the corrected shim's, no batch is lost and nothing escapes the call |
| Requestor.StatusCodeInterceptor | src/modules/Requestor.js:44-94 | 401 asks to re-authenticate; 429 asks to retry; only those two carry an action; unknown codes get the "name: message (code)" text |
| Requestor.NoActionStatuses | src/modules/Requestor.js:44-94 | 400, 403, 404, 500, 502 and 503 carry their fixed messages and no action |
| Requestor.ResponseErrorCapturing | src/modules/Requestor.js:101-111 | the rejection is the intercepted error, logged exactly when it carries an action |
| Requestor.GetTopArtists | src/modules/Requestor.js:124-128 | time range, offset and limit default to short_term, 0 and 50 |
| Requestor.GetTopTracks | src/modules/Requestor.js:141-145 | time range, offset and limit default to short_term, 0 and 50 |
| Requestor.GetAlbums | src/modules/Requestor.js:158-162 | the market is passed through; offset and limit default to 0 and 50 |
| Requestor.GetTracks | src/modules/Requestor.js:175-179 | the market is passed through; offset and limit default to 0 and 50 |
| Requestor.GetTracksFeatures | src/modules/Requestor.js:193-197 | the ids default to the empty list |
| Requestor.GetArtists | src/modules/Requestor.js:211-215 | the ids default to the empty list |
| Requestor.RetrieveSchema | src/modules/Requestor.js:221-226 | the schema served is the advanced schema, which is well formed |
| Schema.EveryTableWellFormed | src/schemas/advancedSchemas.js:12-259 | every table has a valid id, distinct valid column ids and supported column types |
| Schema.TableIdsDistinct | src/schemas/advancedSchemas.js:12-259 | no two tables share an id |
| Schema.ForeignKeysResolve | src/schemas/advancedSchemas.js:204-257 | every foreign key names an existing table and one of its columns |
| Schema.ArtistsAndTracksWellFormed | src/schemas/advancedSchemas.js:267-327 | the Artists and Tracks connection joins existing tables on existing columns |
| Schema.ArtistsAndAlbumsWellFormed | src/schemas/advancedSchemas.js:328-354 | the Artists and Albums connection joins existing tables on existing columns |
| Schema.ConnectionsWellFormed | src/schemas/advancedSchemas.js:266-355 | every standard connection is well formed |
| Schema.AdvancedSchemaWellFormed | src/schemas/advancedSchemas.js:3-356 | the whole advanced schema is well formed |
| ErrorHelper.Customize | src/modules/ErrorHelper.js:50-70 | an untagged error takes the name (default "Generic WDC Error") and, when given, the code; a tagged one is left alone |
| ErrorHelper.CustomizeIsOnce | src/modules/ErrorHelper.js:55-65 | customizing twice equals customizing once |
| ErrorHelper.CustomizeGenericError | src/modules/ErrorHelper.js:50-70 | a non-error throws "invalid error input"; an error is customized in place and returned |
| ErrorHelper.MakeErrorFromMessage | src/modules/ErrorHelper.js:28-30 | an error is returned as is; a message becomes a fresh Error |
| ErrorHelper.CreateError | src/modules/ErrorHelper.js:41-43 | the created error is tagged and carries the given name, message and code |
| ErrorHelper.Created | src/modules/ErrorHelper.js:41-43 | the error a new message produces has the defaulted name, the message and the code |
| ErrorHelper.JsError.Throw | src/modules/ErrorHelper.js:59 | `throw()` throws the same error object |
| ErrorHelper.Stringify | src/modules/ErrorHelper.js:14-20 | the four-line text of name, message, code and stack, with its fallbacks |
| SpotifyConnector.InitWithTokens | src/modules/SpotifyConnector.js:36-112 | with tokens, init calls initCallback exactly once and never aborts; it submits exactly in the auth phase |
| SpotifyConnector.InitWithoutTokens | src/modules/SpotifyConnector.js:114-166 | without tokens, init never completes; it aborts for auth in the gather-data phase and shows sign-in in the other two |
| SpotifyConnector.AuthPhaseReachesBridge | src/modules/SpotifyConnector.js:96-108 | in the auth phase the host sees initCallback and then submit |
| SpotifyConnector.FoundTokensSavable | src/modules/SpotifyConnector.js:51-52 | tokens that were found can always be saved |
| SpotifyConnector.Init | src/modules/SpotifyConnector.js:28-169 | init reads the tokens, saves the username and the tokens when there are some, and produces the effects of its phase switch |
| SpotifyConnector.SchemaOf | src/modules/SpotifyConnector.js:179-225 | schema fails exactly when the connection data fails to parse; empty connection data yields no tables; otherwise the advanced schema |
| SpotifyConnector.SchemaAfterConnectionData | src/modules/SpotifyConnector.js:179-210 | after storing connection data, schema answers empty for `{}` and with the advanced schema otherwise |
| SpotifyConnector.DataCompletion | src/modules/SpotifyConnector.js:296-316 | data calls done exactly when the view resolves, aborts with a non-empty message exactly when it rejects, and lets an error thrown out of the view's first call escape unchanged |
| SpotifyConnector.InterceptedMessageNonEmpty | src/modules/Requestor.js:44-94 | every intercepted error has a non-empty custom message |
| SpotifyConnector.HttpFailureAbortsWithStatusMessage | src/modules/SpotifyConnector.js:305-316 | an HTTP failure aborts with the status code's custom message |
| SpotifyConnector.ViewFor | src/modules/SpotifyConnector.js:348-379 | the seven table ids choose their views; both artist tables use Artists; any other id throws |
| SpotifyConnector.ShippedTableServed | src/modules/SpotifyConnector.js:348-393 | each schema table has a view that gives all of its columns a lookup |
| SpotifyConnector.ShippedTablesHaveViews | src/modules/SpotifyConnector.js:348-393 | every table of the advanced schema is served |
| SpotifyConnector.GetDataViewInstance | src/modules/SpotifyConnector.js:330-396 | a parse failure propagates; the view matches the table id; the filters default to `{}`; an unknown table throws |
| SpotifyConnector.FiltersDefaultToEmpty | src/modules/SpotifyConnector.js:344 | connection data without filters yields empty filters |
| Authentication.GetHashParams | src/modules/Authentication.js:10-21 | the regex loop computes HashParams: the key/value pairs of the hash, decoded, where a later key overwrites |
| Authentication.ScanEncode | src/modules/Authentication.js:13-18 | scanning an encoded `k=v&…` string gives back the pairs |
| Authentication.ValueKeepsEquals | src/modules/Authentication.js:13 | a value runs up to `&`, so it may itself contain `=` |
| Authentication.LaterDuplicateWins | src/modules/Authentication.js:16-18 | of two equal keys, the later value is kept |
| Authentication.GetTokens | src/modules/Authentication.js:34-63 | a stored password is read as JSON; otherwise the URL hash is used; tokens count only when both are present |
| Authentication.GetAccessToken | src/modules/Authentication.js:96-98 | returns the access token of the found tokens, or nothing |
| Authentication.TokensToSave | src/modules/Authentication.js:72-79 | both tokens are required; null cannot be destructured; otherwise the error SAVE_TOKENS_TO_PASSWD is thrown |
| Authentication.SavedTokensAreFound | src/modules/Authentication.js:34-79 | tokens that were saved to the password are found again by getTokens |
| Authentication.SaveTokensToPassword | src/modules/Authentication.js:72-79 | the password becomes the JSON of the two tokens, or nothing changes and the error is thrown |
| Authentication.SaveUsername | src/modules/Authentication.js:87-89 | a string (default "") is stored; anything else throws "username must be a String" |
| TableauShim.EnumCopy | src/modules/TableauShim.js:64-66 | an enum getter returns a shallow copy of an object; an array's elements or a string's characters under their indexes "0", "1", …; or `{}` for anything else |
| TableauShim.EnumCopyValues | src/modules/TableauShim.js:64-66 | the values of the copy are exactly the own values of the enum |
| TableauShim.Assign | src/modules/TableauShim.js:67-705 | a read-only setter always throws; a successful setter writes one property and keeps the rest |
| TableauShim.ReadOnlySetterThrows | src/modules/TableauShim.js:567-569 | every read-only property throws "… prop is read-only", and platformOS names platformOs |
| TableauShim.StringSetterRoundTrip | src/modules/TableauShim.js:654-661 | a string setter accepts exactly strings, and reading back gives the value |
| TableauShim.AlwaysShowAuthUIRoundTrip | src/modules/TableauShim.js:83-90 | alwaysShowAuthUI accepts exactly booleans, and reading back gives the value |
| TableauShim.AuthTypeRoundTrip | src/modules/TableauShim.js:137-144 | authType accepts exactly an own value of authTypeEnum that is neither an object nor an array, and reading back gives the value |
| TableauShim.ConnectionDataAccepts | src/modules/TableauShim.js:216-229 | connectionData accepts exactly plain objects and strings |
| TableauShim.UserDataAccepts | src/modules/TableauShim.js:695-705 | userData accepts exactly plain objects with an own `user` property |
| TableauShim.ConnectionDataOf | src/modules/TableauShim.js:207-215 | empty data reads `{}`; otherwise it is parsed, and a parse error is thrown |
| TableauShim.ParsedOrEmpty | src/modules/TableauShim.js:478-484 | an unparsable password reads `{}` |
| TableauShim.ConnectionDataObjectRoundTrip | src/modules/TableauShim.js:207-229 | an object written to connectionData reads back unchanged |
| TableauShim.ConnectionDataTextRoundTrip | src/modules/TableauShim.js:207-229 | stringified JSON written as text reads back as the value; "" reads `{}` |
| TableauShim.PasswordDataRoundTrip | src/modules/TableauShim.js:478-492 | an object written to passwordData reads back unchanged |
| TableauShim.UserDataRoundTrip | src/modules/TableauShim.js:687-705 | an object with `user` written to userData reads back unchanged |
| TableauShim.PlatformVersionOf | src/modules/TableauShim.js:575-578 | platformVersion needs a string, and otherwise throws |
| TableauShim.PlatformVersionKeepsTwo | src/modules/TableauShim.js:575-578 | "a.b.c" reads "a.b" |
| TableauShim.PlatformVersionWithoutDot | src/modules/TableauShim.js:575-578 | "a" reads "a.undefined" |
| TableauShim.Read | src/modules/TableauShim.js:366-568 | language reads locale, platformOS reads platformOs, and every other plain getter reads its own property |
| TableauShim.ReportProgressAsWritten | src/modules/TableauShim.js:598-605 | as written, the fallback path throws because module-level `this` is undefined |
| TableauShim.ReportProgressThrowsOnOldHosts | src/modules/TableauShim.js:598-605 | on a host without reportProgress, the code as written throws where the corrected one logs |
| TableauShim.ReportProgress | src/modules/TableauShim.js:598-605 | the message is forwarded exactly when the host has reportProgress; otherwise the shim-version hint is logged |
| TableauShim.Host.Set | src/modules/TableauShim.js:67-705 | a setter call changes the host properties as Assign says, or throws and leaves them unchanged |
| TableauShim.Host.ReportProgressTo | src/modules/TableauShim.js:598-605 | progress is forwarded or logged, following the corrected ReportProgress |
| Table.AppendRows | node_modules/@jaxolotl/wdclib/Table.js:47-69 | a falsy or non-array argument is refused with false; otherwise the rows are delivered under `tableInfo.id`, and a missing tableInfo throws |
| Table.EmptyArrayDelivered | node_modules/@jaxolotl/wdclib/Table.js:52-66 | an empty array is truthy and is still delivered |
| Table.Table.constructor | node_modules/@jaxolotl/wdclib/Table.js:22-38 | the defaults are "", false, "" and [] |
| Table.Table.AppendRowsTo | node_modules/@jaxolotl/wdclib/Table.js:47-69 | a delivery is recorded exactly when AppendRows delivers, and no other field changes |
| NativeDispatcher.Step | node_modules/@jaxolotl/wdclib/NativeDispatcher.js:46-203 | each call reaches the host at most once; submit, initCallback and shutdownCallback reach it only while their flag is clear, and the flags never reset |
| NativeDispatcher.OnceOnly | node_modules/@jaxolotl/wdclib/NativeDispatcher.js:85-144 | over any call sequence, each once-only call reaches the host exactly once if its flag was clear and it occurs, and otherwise never |
| NativeDispatcher.AtMostOnceFromStart | node_modules/@jaxolotl/wdclib/NativeDispatcher.js:99-144 | from a fresh dispatcher, submit, initCallback and shutdownCallback each reach the host at most once |
| NativeDispatcher.ForwardersAlwaysReach | node_modules/@jaxolotl/wdclib/NativeDispatcher.js:46-78 | abortForAuth, abortWithError, addCrossOriginException, log, tableData and dataDone are forwarded every time, in order |
| NativeDispatcher.SchemaCallbackFallback | node_modules/@jaxolotl/wdclib/NativeDispatcher.js:153-166 | the extended schema callback is used when present, with standardConnections defaulting to []; otherwise the plain one is used |
| NativeDispatcher.ReportProgressFallback | node_modules/@jaxolotl/wdclib/NativeDispatcher.js:184-196 | progress is forwarded when the bridge supports it, and only logged otherwise |
| NativeDispatcher.Dispatcher.constructor | node_modules/@jaxolotl/wdclib/NativeDispatcher.js:14-18 | a new dispatcher has all flags clear, has sent nothing, and has written the two interface start-up lines to the console (NativeDispatcher.js:25, 100) |
| NativeDispatcher.Dispatcher.Dispatch | node_modules/@jaxolotl/wdclib/NativeDispatcher.js:46-203 | dispatching a call updates the flags, the calls sent and the log as Step says |
| NativeDispatcher.Dispatcher.SubmitOnce | node_modules/@jaxolotl/wdclib/NativeDispatcher.js:85-94 | the first submit is forwarded; later ones only log |
| NativeDispatcher.Dispatcher.InitCallbackOnce | node_modules/@jaxolotl/wdclib/NativeDispatcher.js:119-128 | the first initCallback is forwarded; later ones only log |
| NativeDispatcher.Dispatcher.ShutdownCallbackOnce | node_modules/@jaxolotl/wdclib/NativeDispatcher.js:135-144 | the first shutdownCallback is forwarded; later ones only log |
| NativeDispatcher.Dispatcher.SchemaCallbackTo | node_modules/@jaxolotl/wdclib/NativeDispatcher.js:153-166 | sends the extended or the plain schema callback, as the bridge allows |
| NativeDispatcher.Dispatcher.ReportProgressTo | node_modules/@jaxolotl/wdclib/NativeDispatcher.js:184-196 | forwards progress or logs its absence |
| NativeDispatcher.SubmitTwice | node_modules/@jaxolotl/wdclib/NativeDispatcher.js:85-94 | submitting twice reaches the host once; after the two start-up lines the console shows one repeated-submit line |
| Shared.LastMissing | node_modules/@jaxolotl/wdclib/Shared.js:113-127 | registration fails exactly when a required function is missing, and the last missing one is reported |
| Shared.MakeConnector | node_modules/@jaxolotl/wdclib/Shared.js:98-106 | a made connector has exactly a default init and a default shutdown |
| Shared.MadeConnectorNeedsData | node_modules/@jaxolotl/wdclib/Shared.js:98-127 | a bare made connector cannot be registered, and getData is reported |
| Shared.MadeConnectorCompleted | node_modules/@jaxolotl/wdclib/Shared.js:98-127 | once getSchema and getData are added it registers |
| Shared.Shared.constructor | node_modules/@jaxolotl/wdclib/Shared.js:18-24 | no connector is registered, and the error flag is clear |
| Shared.Shared.RegisterConnector | node_modules/@jaxolotl/wdclib/Shared.js:113-127 | the check loop throws for the last missing function, or stores the connector locally and globally |
| Shared.DataGatheringTable | node_modules/@jaxolotl/wdclib/Shared.js:160-179 | exactly one non-null table is required; the table is join-filtered exactly when filterColumnId is truthy |
| Shared.Shared.TriggerDataGathering | node_modules/@jaxolotl/wdclib/Shared.js:160-179 | a fresh Table is built from the request and handed to getData; otherwise the error is thrown |
| Shared.AbortMessage | node_modules/@jaxolotl/wdclib/Shared.js:74-81 | the abort text uses the stack when there is an error object, and the file and line otherwise |
| Shared.AbortsAtMostOnce | node_modules/@jaxolotl/wdclib/Shared.js:66-93 | over any sequence of errors the host is aborted at most once, for the first error, and only when it can abort |
| Shared.Shared.ErrorHandler | node_modules/@jaxolotl/wdclib/Shared.js:66-93 | one error event updates the flag and the aborts as HandleError says |
| ApprovedOrigins.OriginsIn | node_modules/@jaxolotl/wdclib/ApprovedOrigins.js:56-67 | a missing or empty cookie gives []; otherwise the comma-split parts, which join back to the cookie |
| ApprovedOrigins.ReadBackAfterAdd | node_modules/@jaxolotl/wdclib/ApprovedOrigins.js:22-67 | after adding a comma-free origin, reading gives the old list plus that origin |
| ApprovedOrigins.CommaInOriginSplits | node_modules/@jaxolotl/wdclib/ApprovedOrigins.js:22-67 | an origin containing a comma reads back as two or more origins |
| ApprovedOrigins.CookieJar.GetApprovedOrigins | node_modules/@jaxolotl/wdclib/ApprovedOrigins.js:56-67 | reads the cookie as OriginsIn says |
| ApprovedOrigins.CookieJar.AddApprovedOrigin | node_modules/@jaxolotl/wdclib/ApprovedOrigins.js:39-50 | a falsy origin changes nothing; otherwise the cookie becomes the joined list with the origin appended |
| ApprovedOrigins.AddTwice | node_modules/@jaxolotl/wdclib/ApprovedOrigins.js:39-67 | adding two origins to an empty jar reads back both, in order |
| BuildNumber.Parse | node_modules/@jaxolotl/wdclib/DevUtils/BuildNumber.js:12-23 | fewer than three dot-separated components throw; otherwise the first three are parsed with parseInt |
| BuildNumber.CompareSelf | node_modules/@jaxolotl/wdclib/DevUtils/BuildNumber.js:42-60 | a numeric version compares 0 to itself |
| BuildNumber.CompareAntisymmetric | node_modules/@jaxolotl/wdclib/DevUtils/BuildNumber.js:42-60 | swapping the operands negates the result |
| BuildNumber.CompareIsLexicographic | node_modules/@jaxolotl/wdclib/DevUtils/BuildNumber.js:42-60 | compare orders numeric versions by major, then minor, then patch, and returns 0 only for equal versions |
| BuildNumber.ParseToString | node_modules/@jaxolotl/wdclib/DevUtils/BuildNumber.js:12-30 | parsing a version's text gives the version back |
| BuildNumber.ToStringParse | node_modules/@jaxolotl/wdclib/DevUtils/BuildNumber.js:12-30 | a canonical "a.b.c" string survives parse then toString |
| BuildNumber.ExtraComponentsIgnored | node_modules/@jaxolotl/wdclib/DevUtils/BuildNumber.js:13-22 | components after the third do not matter |
| BuildNumber.GetBuildNumber | node_modules/@jaxolotl/wdclib/DevUtils/BuildNumber.js:68-81 | a missing or empty package version throws; otherwise it is returned |
| Utilities.FunctionsOf | node_modules/@jaxolotl/wdclib/Utilities.js:9-16 | exactly the function-valued properties are selected |
| Utilities.CopyFunctions | node_modules/@jaxolotl/wdclib/Utilities.js:9-16 | the destination gains the source's functions by reference and keeps its other properties |
| Utilities.JsObject.Write | node_modules/@jaxolotl/wdclib/Utilities.js:46-48 | writing a linked property writes through to the source object; any other write becomes an own property; no name becomes both, unless a name is linked to the object itself |
| Utilities.LinkObjectProperties | node_modules/@jaxolotl/wdclib/Utilities.js:31-53 | each listed property becomes a link to the source, and reading it gives the source's value |
| Utilities.WriteThroughLink | node_modules/@jaxolotl/wdclib/Utilities.js:31-53 | a write through a link is seen on the source and through the target |
| AuthProxy.ToUpper | auth_proxy/app.js:40 | upper-casing maps a..z and leaves every other character alone |
| AuthProxy.GetAuthPurpose | auth_proxy/app.js:37-45 | the result is ENDURING exactly for a case-insensitive "enduring", and otherwise EPHEMERAL; a non-string throws |
| AuthProxy.CaseInsensitive | auth_proxy/app.js:37-45 | strings equal up to case choose the same purpose |
| AuthProxy.GetAuthPurposeIdempotent | auth_proxy/app.js:37-45 | feeding a purpose back in returns it unchanged |
| AuthProxy.GetSecrets | auth_proxy/app.js:52-71 | the purpose's credentials, the `id:secret` signature and its base64 encoding |
| AuthProxy.QueryValue | auth_proxy/app.js:103-109 | `querystring.stringify` writes a string value as is and an undefined one as the empty text |
| AuthProxy.LoginParams | auth_proxy/app.js:100-112 | the login query is, in order, the code response type, the chosen application's client id (empty when unset), the scope, the callback URI and the purpose as `state`; an auth purpose that is not a string fails |
| AuthProxy.CallbackUsesLoginCredentials | auth_proxy/app.js:100-125 | the callback, reading `state`, picks the same credentials as the login that sent it |

## Left out

- Network, promises and timing: the Spotify Web API and the token exchange are the `respond` parameter.
  The recursion over pages and batches is a loop, so resolution order and retries are not modelled.
- `JSON.parse`/`JSON.stringify`, `decodeURIComponent`, base64 and `Date.toLocaleString` are parameters.
  Their behaviour is assumed only through the `Lawful` predicate where a round trip needs it.
- Floating point: JSON numbers are `real`. Infinities and rounding are not modelled. NaN is modelled
  only in BuildNumber, where a number is `Option<int>`, the result of `parseInt`, and NaN is `None`.
- Json.Text: `String(n)` of a number is written as its integer part, so `1.5` prints as `1`. This
  reaches TemplateText in error messages and numeric keys of lookup paths.
- Mapping.HandlerFn: a transformation handler returns a value or undefined. A handler that throws is
  not representable, so `flattenData` never fails because of one.
- Mapping.Prevalidate: the messages omit the trailing `stringifiedRule(rule)` text (Mapping.js:9-13).
  The rule model keeps only the properties the engine reads, and an inline handler's source text is
  not a value, so the JSON text of the rule cannot be formed.
- Paging: a progress report is a `Reporter` parameter that returns or throws. The text it carries is
  `ProgressText`, but what the host does with it is not part of the run's trace.
- Json.Get: only string lookups are modelled. A lookup that is not a string resolves to undefined,
  so the cell takes its default. This covers a number key such as `1` and an array path such as
  `['album', 'name']`, where lodash would read `item[1]` or follow the array. Rule prevalidation accepts
  any truthy lookup (src/modules/Mapping.js:130), but every shipped view writes string lookups.
- Json.Get: lodash's quoted bracket keys (`a["b"]`) are not parsed.
- Paging.FetchPages: the offset loop takes a `fuel` bound. A server that always returns `next` makes the
  source loop forever, and the model then ends `Pending`.
- AuthProxy.ToUpper: only ASCII letters are upper-cased. Unicode case mapping is not modelled.
- AuthProxy.GetSecrets: `Buffer.alloc(length, signature)` truncates multi-byte text. The model hands
  the whole signature to the base64 parameter.
- Object identity, prototypes and property enumeration order are not modelled. Properties such as
  `toString` on `Object.prototype` do not count as registered transformation handlers. JavaScript's
  ordering of integer-like keys is not modelled.
- TableauShim: the host object is a property map. The fallback to `{}` when there is no global
  `tableau` object is not modelled. Neither are the reference-forwarding functions (`abortForAuth`,
  `submit`, …), `runningOnTableau` or `log`.
- Error messages that the JavaScript engine produces (TypeError texts) are fixed constants in the model.
- Console output: NativeDispatcher's `logs` records every console line the dispatcher writes, the two
  start-up lines and those of later calls. All other console output and telemetry are left out, among
  them `getBuildNumber`'s optional log.
- SimulatorDispatcher.js, UI.js, app.js, Connector.js and tableauwdc.js are not part of this model.
  Neither are `Shared.init`, `changeTableauApiObj` or the deprecated callbacks (Shared.js:29-55, 193-239).
- Authentication.refreshToken (Authentication.js:107-123) is not modelled, because it only calls the
  network.
- ApprovedOrigins.CookieJar.AddApprovedOrigin: it does not return the value of `Cookies.set`.
- ColumnRules.DefineMappingRules: the source writes the lookups into the column objects in place. The
  model builds new rules from the columns.
- SpotifyConnector: `data()` is stated through GetDataViewInstance and DataCompletion over a view's
  outcome. It is not composed end to end with the paging loops. Schema's rejection path is not modelled,
  because `retrieveSchema` always resolves.
- Shared.Shared.RegisterConnector: a connector that is not an object is not modelled. The default
  `init`/`shutdown` bodies are function identities.
- Shared.DataGatheringTable: an argument that is not an array is not modelled.
- Schema: a column keeps only `id`, `alias`, `dataType` and `filterable`. Column `aggType` and
  `defaultFormat` (advancedSchemas.js:160-189) and column descriptions are dropped, because no code of
  the connector reads them. Table aliases and descriptions are kept as data.
- Utilities.CopyFunctions: it writes `dest`'s own properties directly and does not follow an accessor
  `dest` may have for a copied name. Its one caller (tableauwdc.js:28-29) runs before any link exists.
- SpotifyConnector: the phase names are the values of the library's `phaseEnum` ("interactive",
  "auth", "gatherData") as constants. A host whose `phaseEnum` has other values is not modelled.
- BuildNumber.Compare: the other side is a VersionNumber. An object with missing components is the
  version whose missing components are NaN, which is what the subtraction gives; components of other
  types are not modelled.

## Findings

| source | as written | input that shows it | evidently intended | confidence | as-written member | corrected member |
|---|---|---|---|---|---|---|
| src/modules/TableauShim.js:598-605 | `reportProgress` is an arrow function at module level, so `this` is `undefined` and `this.log(…)` throws a TypeError | a host `tableau` object without `reportProgress` | log the shim-version hint through `TableauShim.log` and carry on | not executed | TableauShim.ReportProgressAsWritten | TableauShim.ReportProgress |
