/** The two fetch loops shared by the data views. Offset-paginated views
    ask for a page at offset 0, hand every page to the sink, and continue
    from the response's offset plus its limit while the response names a
    `next` page. Id-batch views take ids off the end of the filter list,
    ask for that batch, and continue until the list is empty or a response
    comes back empty. The Web API is a function from request to response;
    only one request is in flight at a time. */
module Paging {
  import opened Wrappers
  import opened Json
  import opened ErrorHelper
  import Mapping
  import opened Requestor
  import TableauShim

  /** Reading `.length` of the missing list of a response of the wrong shape. */
  const ITEMS_MISSING := ErrorInfo("TypeError", "Cannot read properties of undefined (reading 'length')", None)

  /** Why the shared promise was rejected: the requestor's rejection, or an
      error thrown while handling a response. */
  datatype Reason = HttpFailure(intercepted: Intercepted) | Raised(error: ErrorInfo)

  /** How the shared promise ends; `Pending` means the page budget ran out
      while the server still announced more pages, and `Thrown` that the
      first progress report of an id-batch view threw before
      `getFlattenedData` returned its promise. */
  datatype Outcome = Resolved | Rejection(reason: Reason) | Pending | Thrown(error: ErrorInfo)

  /** Everything the loop did: the requests in order, the batches of rows
      passed to the sink in order, and how it ended. */
  datatype Trace = Trace(requests: seq<Request>, batches: seq<seq<Mapping.Row>>, outcome: Outcome)

  /** What the loop does with the items of a response: the mapping
      engine's `flattenData` with its rules and handlers at that moment. */
  type Flattener = seq<Json> -> Result<seq<Mapping.Row>, ErrorInfo>

  /** What a view reports progress about: a page with its total, offset
      and limit, or a batch of `size` ids with `left` still in the list. */
  datatype ProgressNote =
    | PageNote(page: PageEndpoint, total: int, offset: int, limit: int)
    | BatchNote(batch: BatchEndpoint, size: nat, left: nat)

  /** The message text of a progress note (the offset views spell "offet"). */
  function ProgressText(note: ProgressNote): string {
    match note
    case PageNote(page, total, offset, limit) =>
      "Retrieving " + page.Title() + ":\ntotal: " + IntToString(total) + "\n offet:" + IntToString(offset)
      + " \n limit: " + IntToString(limit)
    case BatchNote(batch, size, left) =>
      "Retrieving " + IntToString(size) + " " + batch.Title() + "\n " + IntToString(left) + " remaining"
  }

  /** What `TableauShim.reportProgress(ProgressText(note))` does on the host
      at hand: return (`None`) or throw. */
  type Reporter = ProgressNote -> Option<ErrorInfo>

  /** The shim's `reportProgress` as written: on a host without its own
      `reportProgress` it throws. */
  function ShimReporter(hostHasReportProgress: bool): Reporter {
    note => match TableauShim.ReportProgressAsWritten(hostHasReportProgress, Some(JStr(ProgressText(note))))
      case Failure(e) => Some(e)
      case Success(_) => None
  }

  /** A progress report that returns, as the corrected shim's always does. */
  function QuietReporter(): Reporter {
    _ => None
  }

  /** The mapping engine's `flattenData` as a flattener. */
  function FlattenWith(handlers: map<string, Mapping.HandlerFn>, rules: seq<Mapping.Rule>): Flattener {
    items => Mapping.Flatten(handlers, rules, items)
  }

  /** A run that first made `requests` and emitted `batches`, then went on as `t`. */
  function Continue(requests: seq<Request>, batches: seq<seq<Mapping.Row>>, t: Trace): Trace {
    Trace(requests + t.requests, batches + t.batches, t.outcome)
  }

  /** The four offset-paginated endpoints; the top lists carry their time range. */
  datatype PageEndpoint =
    | TopArtistsPages(timeRange: Option<Json>)
    | TopTracksPages(timeRange: Option<Json>)
    | AlbumsPages
    | TracksPages
  {
    /** The name the view's progress message gives its records. */
    function Title(): string {
      match this
      case TopArtistsPages(_) => "Top Artists"
      case TopTracksPages(_) => "Top Tracks"
      case AlbumsPages => "Albums"
      case TracksPages => "Tracks"
    }

    /** The request for the page at `offset`, with the requestor's defaults. */
    function At(offset: int): (r: Request)
      ensures r.TopArtistsRequest? || r.TopTracksRequest? || r.AlbumsRequest? || r.TracksRequest?
      ensures r.offset == offset && r.limit == DEFAULT_LIMIT
    {
      match this
      case TopArtistsPages(timeRange) => GetTopArtists(timeRange, Some(offset), None)
      case TopTracksPages(timeRange) => GetTopTracks(timeRange, Some(offset), None)
      case AlbumsPages => GetAlbums(None, Some(offset), None)
      case TracksPages => GetTracks(None, Some(offset), None)
    }
  }

  /** What handling one response does: stop the loop with the trace of
      that last request, or emit `rows` for `request` and go on. */
  datatype Step = Stop(trace: Trace) | Emit(request: Request, rows: seq<Mapping.Row>)

  /** The progress note for a page response. */
  function ProgressFor(endpoint: PageEndpoint, response: Response): ProgressNote
    requires response.Paged?
  {
    PageNote(endpoint, response.total, response.offset, response.limit)
  }

  /** One round of the offset loop: the request for the page at `offset`
      and what its response leads to. The progress report comes after the
      page is flattened and before it is delivered; a throw there rejects
      the run like a flattening error. */
  function PageStep(endpoint: PageEndpoint, respond: Request -> Response, flatten: Flattener, report: Reporter, offset: int): (s: Step)
    ensures s.Emit? ==> s.request == endpoint.At(offset)
  {
    var request := endpoint.At(offset);
    match respond(request)
    case Rejected(reason) => Stop(Trace([request], [], Rejection(HttpFailure(reason))))
    case Listed(_) => Stop(Trace([request], [], Rejection(Raised(ITEMS_MISSING))))
    case Paged(items, next, _, _, _) =>
      match flatten(items)
      case Failure(e) => Stop(Trace([request], [], Rejection(Raised(e))))
      case Success(rows) =>
        match report(ProgressFor(endpoint, respond(request)))
        case Some(e) => Stop(Trace([request], [], Rejection(Raised(e))))
        case None =>
          if !Truthy(next) then Stop(Trace([request], [rows], Resolved))
          else Emit(request, rows)
  }

  /** The offset loop started at `offset`, allowed at most `fuel` requests;
      after an emitted page it goes on at that response's offset plus its limit. */
  function OffsetRun(endpoint: PageEndpoint, respond: Request -> Response, flatten: Flattener, report: Reporter, offset: int, fuel: nat): Trace
    decreases fuel
  {
    if fuel == 0 then Trace([], [], Pending)
    else match PageStep(endpoint, respond, flatten, report, offset)
      case Stop(t) => t
      case Emit(request, rows) =>
        var response := respond(request);
        Continue([request], [rows], OffsetRun(endpoint, respond, flatten, report, response.offset + response.limit, fuel - 1))
  }

  /** Request `i + 1` is the page after the response to request `i`: that
      response was a page with a truthy `next` that flattened without
      error and whose progress report returned, and the next offset is its
      offset plus its limit. */
  predicate FollowsPage(endpoint: PageEndpoint, respond: Request -> Response, flatten: Flattener, report: Reporter,
                        requests: seq<Request>, i: nat)
    requires i + 1 < |requests|
  {
    var response := respond(requests[i]);
    && response.Paged?
    && Truthy(response.next)
    && flatten(response.items).Success?
    && report(ProgressFor(endpoint, response)).None?
    && requests[i + 1] == endpoint.At(response.offset + response.limit)
  }

  /** Each request is the page after the previous response. */
  predicate Chained(endpoint: PageEndpoint, respond: Request -> Response, flatten: Flattener, report: Reporter, requests: seq<Request>) {
    forall i :: 0 <= i < |requests| - 1 ==> FollowsPage(endpoint, respond, flatten, report, requests, i)
  }

  /** Each request is the page after the previous response, and the first
      is at the starting offset. */
  lemma {:induction false} OffsetRequestsChain(endpoint: PageEndpoint, respond: Request -> Response, flatten: Flattener, report: Reporter,
                                               offset: int, fuel: nat)
    ensures var t := OffsetRun(endpoint, respond, flatten, report, offset, fuel);
      && |t.requests| <= fuel
      && (fuel > 0 ==> |t.requests| > 0 && t.requests[0] == endpoint.At(offset))
      && Chained(endpoint, respond, flatten, report, t.requests)
    decreases fuel
  {
    if fuel > 0 {
      var s := PageStep(endpoint, respond, flatten, report, offset);
      if s.Emit? {
        var response := respond(s.request);
        var next := response.offset + response.limit;
        var rest := OffsetRun(endpoint, respond, flatten, report, next, fuel - 1);
        OffsetRequestsChain(endpoint, respond, flatten, report, next, fuel - 1);
        assert OffsetRun(endpoint, respond, flatten, report, offset, fuel) == Continue([s.request], [s.rows], rest);
        ChainedCons(endpoint, respond, flatten, report, s.request, rest.requests);
      }
    }
  }

  /** A page whose response leads to the first of a chain of requests extends the chain. */
  lemma ChainedCons(endpoint: PageEndpoint, respond: Request -> Response, flatten: Flattener, report: Reporter,
                    first: Request, requests: seq<Request>)
    requires Chained(endpoint, respond, flatten, report, requests)
    requires |requests| > 0 ==> FollowsPage(endpoint, respond, flatten, report, [first] + requests, 0)
    ensures Chained(endpoint, respond, flatten, report, [first] + requests)
  {
    var all := [first] + requests;
    forall i | 0 <= i < |all| - 1
      ensures FollowsPage(endpoint, respond, flatten, report, all, i)
    {
      if i > 0 {
        assert FollowsPage(endpoint, respond, flatten, report, requests, i - 1);
        assert all[i] == requests[i - 1] && all[i + 1] == requests[i];
      }
    }
  }

  /** Batch `i` is the flattened items of the page that answered request `i`. */
  predicate EmittedPage(respond: Request -> Response, flatten: Flattener, t: Trace, i: nat)
    requires i < |t.batches| && i < |t.requests|
  {
    respond(t.requests[i]).Paged? && flatten(respond(t.requests[i]).items) == Success(t.batches[i])
  }

  /** Every batch passed to the sink is the flattened items of the response
      to the request at the same position. */
  predicate BatchesArePages(respond: Request -> Response, flatten: Flattener, t: Trace) {
    && |t.batches| <= |t.requests|
    && (forall i :: 0 <= i < |t.batches| ==> EmittedPage(respond, flatten, t, i))
  }

  /** Each page is emitted exactly once and in request order: batch `i` is
      the flattened items of the response to request `i`. */
  lemma {:induction false} OffsetBatchesArePages(endpoint: PageEndpoint, respond: Request -> Response, flatten: Flattener, report: Reporter,
                                                 offset: int, fuel: nat)
    ensures BatchesArePages(respond, flatten, OffsetRun(endpoint, respond, flatten, report, offset, fuel))
    decreases fuel
  {
    if fuel > 0 {
      var s := PageStep(endpoint, respond, flatten, report, offset);
      if s.Emit? {
        var response := respond(s.request);
        var rest := OffsetRun(endpoint, respond, flatten, report, response.offset + response.limit, fuel - 1);
        OffsetBatchesArePages(endpoint, respond, flatten, report, response.offset + response.limit, fuel - 1);
        assert OffsetRun(endpoint, respond, flatten, report, offset, fuel) == Continue([s.request], [s.rows], rest);
        BatchesArePagesCons(respond, flatten, s.request, s.rows, rest);
      }
    }
  }

  /** An emitted page in front of a run keeps every batch matched to its page. */
  lemma BatchesArePagesCons(respond: Request -> Response, flatten: Flattener, request: Request,
                            rows: seq<Mapping.Row>, rest: Trace)
    requires respond(request).Paged? && flatten(respond(request).items) == Success(rows)
    requires BatchesArePages(respond, flatten, rest)
    ensures BatchesArePages(respond, flatten, Continue([request], [rows], rest))
  {
    var t := Continue([request], [rows], rest);
    forall i | 0 <= i < |t.batches|
      ensures EmittedPage(respond, flatten, t, i)
    {
      if i > 0 {
        assert EmittedPage(respond, flatten, rest, i - 1);
        assert t.requests[i] == rest.requests[i - 1] && t.batches[i] == rest.batches[i - 1];
      }
    }
  }

  /** How a run of the offset loop with budget `fuel` may end. It resolves
      only after a page with a falsy `next` whose progress report returned,
      that page emitted last; a rejection by the requestor, or an error
      while reading or flattening a response or reporting progress for it,
      stops it with no batch for the failing request; only a server that
      keeps announcing pages exhausts the budget. */
  predicate OffsetEnds(endpoint: PageEndpoint, respond: Request -> Response, flatten: Flattener, report: Reporter,
                       t: Trace, fuel: nat) {
    && !t.outcome.Thrown?
    && (t.outcome.Pending? ==> |t.requests| == fuel == |t.batches|)
    && (!t.outcome.Pending? ==> |t.requests| > 0)
    && (t.outcome.Resolved? ==>
          var last := respond(t.requests[|t.requests| - 1]);
          |t.batches| == |t.requests|
          && last.Paged?
          && !Truthy(last.next)
          && report(ProgressFor(endpoint, last)).None?)
    && (t.outcome.Rejection? ==> |t.batches| == |t.requests| - 1)
    && (t.outcome.Rejection? && t.outcome.reason.HttpFailure? ==>
          respond(t.requests[|t.requests| - 1]) == Rejected(t.outcome.reason.intercepted))
    && (t.outcome.Rejection? && t.outcome.reason.Raised? ==>
          var last := respond(t.requests[|t.requests| - 1]);
          || (last.Listed? && t.outcome.reason.error == ITEMS_MISSING)
          || (last.Paged? && flatten(last.items) == Failure(t.outcome.reason.error))
          || (last.Paged? && flatten(last.items).Success?
              && report(ProgressFor(endpoint, last)) == Some(t.outcome.reason.error)))
  }

  /** Every run of the offset loop ends as `OffsetEnds` says. */
  lemma {:induction false} OffsetOutcome(endpoint: PageEndpoint, respond: Request -> Response, flatten: Flattener, report: Reporter,
                                         offset: int, fuel: nat)
    ensures OffsetEnds(endpoint, respond, flatten, report, OffsetRun(endpoint, respond, flatten, report, offset, fuel), fuel)
    decreases fuel
  {
    if fuel > 0 {
      var s := PageStep(endpoint, respond, flatten, report, offset);
      if s.Emit? {
        var response := respond(s.request);
        var rest := OffsetRun(endpoint, respond, flatten, report, response.offset + response.limit, fuel - 1);
        OffsetOutcome(endpoint, respond, flatten, report, response.offset + response.limit, fuel - 1);
        assert OffsetRun(endpoint, respond, flatten, report, offset, fuel) == Continue([s.request], [s.rows], rest);
        OffsetEndsCons(endpoint, respond, flatten, report, s.request, s.rows, rest, fuel);
      }
    }
  }

  /** An emitted round in front of a run keeps how that run ends. */
  lemma OffsetEndsCons(endpoint: PageEndpoint, respond: Request -> Response, flatten: Flattener, report: Reporter, request: Request, rows: seq<Mapping.Row>,
                       rest: Trace, fuel: nat)
    requires fuel > 0 && OffsetEnds(endpoint, respond, flatten, report, rest, fuel - 1)
    ensures OffsetEnds(endpoint, respond, flatten, report, Continue([request], [rows], rest), fuel)
  {
    var t := Continue([request], [rows], rest);
    if |rest.requests| > 0 {
      assert t.requests[|t.requests| - 1] == rest.requests[|rest.requests| - 1];
    }
  }

  /** The two id-batch endpoints, with the most ids one request may carry. */
  datatype BatchEndpoint = FeaturesBatches | ArtistsBatches
  {
    /** The name the view's progress message gives its records. */
    function Title(): string {
      if FeaturesBatches? then "Tracks Features" else "Artists"
    }

    function BatchSize(): (k: nat)
      ensures k > 0
    {
      if FeaturesBatches? then 100 else 50
    }

    function For(ids: seq<string>): (r: Request)
      ensures (r.FeaturesRequest? || r.ArtistsRequest?) && r.ids == ids
    {
      if FeaturesBatches? then GetTracksFeatures(Some(ids)) else GetArtists(Some(ids))
    }
  }

  /** Where `splice(-k)` starts on a list of `n` elements. */
  function SpliceStart(n: nat, k: nat): (start: nat)
    requires k > 0
    ensures start <= n && n - start <= k && (start > 0 ==> n - start == k)
  {
    if n <= k then 0 else n - k
  }

  /** One round of the id-batch loop, for a non-empty batch with `left` ids
      still in the list: the progress report, made before the request, then
      the request and what its response leads to. A report that throws
      leaves no request; in the first round (`nested` false) the throw
      leaves `getFlattenedData` itself, in a later one, started from a
      response handler, it rejects the shared promise. */
  function BatchStep(endpoint: BatchEndpoint, respond: Request -> Response, flatten: Flattener, report: Reporter,
                     batch: seq<string>, left: nat, nested: bool): (s: Step)
    ensures s.Emit? ==> s.request == endpoint.For(batch)
  {
    match report(BatchNote(endpoint, |batch|, left))
    case Some(e) => Stop(Trace([], [], if nested then Rejection(Raised(e)) else Thrown(e)))
    case None =>
      var request := endpoint.For(batch);
      match respond(request)
      case Rejected(reason) => Stop(Trace([request], [], Rejection(HttpFailure(reason))))
      case Paged(_, _, _, _, _) => Stop(Trace([request], [], Rejection(Raised(ITEMS_MISSING))))
      case Listed(items) =>
        if |items| == 0 then Stop(Trace([request], [], Resolved))
        else match flatten(items)
          case Failure(e) => Stop(Trace([request], [], Rejection(Raised(e))))
          case Success(rows) => Emit(request, rows)
  }

  /** The ids a batch run leaves in the list. */
  function Remaining(endpoint: BatchEndpoint, respond: Request -> Response, flatten: Flattener, report: Reporter,
                     ids: seq<string>, nested: bool): seq<string>
    decreases |ids|
  {
    var start := SpliceStart(|ids|, endpoint.BatchSize());
    if start == |ids| || BatchStep(endpoint, respond, flatten, report, ids[start..], start, nested).Stop? then ids[..start]
    else Remaining(endpoint, respond, flatten, report, ids[..start], true)
  }

  /** The trace of the id-batch loop over the list `ids`; `nested` says
      whether this call was started from a response handler. */
  function BatchRun(endpoint: BatchEndpoint, respond: Request -> Response, flatten: Flattener, report: Reporter,
                    ids: seq<string>, nested: bool): Trace
    decreases |ids|
  {
    var start := SpliceStart(|ids|, endpoint.BatchSize());
    if start == |ids| then Trace([], [], Resolved)
    else match BatchStep(endpoint, respond, flatten, report, ids[start..], start, nested)
      case Stop(t) => t
      case Emit(request, rows) => Continue([request], [rows], BatchRun(endpoint, respond, flatten, report, ids[..start], true))
  }

  /** A request of this endpoint for the ids it carries. */
  predicate IsBatchRequest(endpoint: BatchEndpoint, r: Request) {
    (r.FeaturesRequest? || r.ArtistsRequest?) && r == endpoint.For(r.ids)
  }

  /** A request of this endpoint for one to `k` ids. */
  predicate SizedBatch(endpoint: BatchEndpoint, r: Request) {
    IsBatchRequest(endpoint, r) && 0 < |r.ids| <= endpoint.BatchSize()
  }

  /** A request carrying exactly `k` ids. */
  predicate FullBatch(endpoint: BatchEndpoint, r: Request) {
    (r.FeaturesRequest? || r.ArtistsRequest?) && |r.ids| == endpoint.BatchSize()
  }

  /** Every request asks this endpoint for one to `k` ids. */
  predicate AllSized(endpoint: BatchEndpoint, requests: seq<Request>) {
    forall i :: 0 <= i < |requests| ==> SizedBatch(endpoint, requests[i])
  }

  /** Every request but the last carries exactly `k` ids. */
  predicate AllButLastFull(endpoint: BatchEndpoint, requests: seq<Request>) {
    forall i :: 0 <= i < |requests| - 1 ==> FullBatch(endpoint, requests[i])
  }

  /** Every request of a batch run asks for a batch of one to `k` ids; all
      but the last carry exactly `k`, and the last carries fewer only when
      it emptied the list. An empty list makes no request. */
  lemma {:induction false} BatchSizes(endpoint: BatchEndpoint, respond: Request -> Response, flatten: Flattener, report: Reporter,
                                      ids: seq<string>, nested: bool)
    ensures var t := BatchRun(endpoint, respond, flatten, report, ids, nested);
      && AllSized(endpoint, t.requests)
      && AllButLastFull(endpoint, t.requests)
      && (|t.requests| > 0 && !FullBatch(endpoint, t.requests[|t.requests| - 1]) ==>
            Remaining(endpoint, respond, flatten, report, ids, nested) == [])
      && (|ids| == 0 ==> t == Trace([], [], Resolved))
    decreases |ids|
  {
    var k := endpoint.BatchSize();
    var start := SpliceStart(|ids|, k);
    if start < |ids| {
      var batch := ids[start..];
      var s := BatchStep(endpoint, respond, flatten, report, batch, start, nested);
      var t := BatchRun(endpoint, respond, flatten, report, ids, nested);
      var first := endpoint.For(batch);
      assert SizedBatch(endpoint, first);
      assert !FullBatch(endpoint, first) ==> start == 0;
      if s.Emit? {
        var rest := ids[..start];
        var t0 := BatchRun(endpoint, respond, flatten, report, rest, true);
        BatchSizes(endpoint, respond, flatten, report, rest, true);
        assert t.requests == [first] + t0.requests;
        assert |t0.requests| > 0 ==> FullBatch(endpoint, first);
        ConsSized(endpoint, first, t0.requests);
        ConsFull(endpoint, first, t0.requests);
        assert Remaining(endpoint, respond, flatten, report, ids, nested) == Remaining(endpoint, respond, flatten, report, rest, true);
      } else if report(BatchNote(endpoint, |batch|, start)).Some? {
        assert t.requests == [];
      } else {
        assert t.requests == [first];
      }
    }
  }

  lemma ConsSized(endpoint: BatchEndpoint, first: Request, requests: seq<Request>)
    requires SizedBatch(endpoint, first) && AllSized(endpoint, requests)
    ensures AllSized(endpoint, [first] + requests)
  {
    var all := [first] + requests;
    forall i | 0 <= i < |all|
      ensures SizedBatch(endpoint, all[i])
    {
      if i > 0 {
        assert all[i] == requests[i - 1];
      }
    }
  }

  lemma ConsFull(endpoint: BatchEndpoint, first: Request, requests: seq<Request>)
    requires |requests| > 0 ==> FullBatch(endpoint, first)
    requires AllButLastFull(endpoint, requests)
    ensures AllButLastFull(endpoint, [first] + requests)
    ensures |requests| > 0 ==> ([first] + requests)[|requests|] == requests[|requests| - 1]
  {
    var all := [first] + requests;
    forall i | 0 <= i < |all| - 1
      ensures FullBatch(endpoint, all[i])
    {
      if i > 0 {
        assert all[i] == requests[i - 1];
      }
    }
  }

  /** The ids of the batch requests, last request first. */
  function IdsBackToFront(endpoint: BatchEndpoint, requests: seq<Request>): seq<string>
    requires forall i :: 0 <= i < |requests| ==> IsBatchRequest(endpoint, requests[i])
  {
    if |requests| == 0 then []
    else
      assert IsBatchRequest(endpoint, requests[0]);
      IdsBackToFront(endpoint, requests[1..]) + requests[0].ids
  }

  /** The batch a run took off the list but never requested, because its
      progress report threw; empty when every report returned. */
  function Unsent(endpoint: BatchEndpoint, respond: Request -> Response, flatten: Flattener, report: Reporter,
                  ids: seq<string>, nested: bool): seq<string>
    decreases |ids|
  {
    var start := SpliceStart(|ids|, endpoint.BatchSize());
    if start == |ids| then []
    else if report(BatchNote(endpoint, |ids| - start, start)).Some? then ids[start..]
    else if BatchStep(endpoint, respond, flatten, report, ids[start..], start, nested).Stop? then []
    else Unsent(endpoint, respond, flatten, report, ids[..start], true)
  }

  /** The ids left over, then the batch whose progress report threw, then
      the batches read back to front give the original list: nothing is
      sent twice and nothing is lost. */
  lemma {:induction false} BatchesPartitionIds(endpoint: BatchEndpoint, respond: Request -> Response,
                                               flatten: Flattener, report: Reporter,
                                               ids: seq<string>, nested: bool)
    ensures var t := BatchRun(endpoint, respond, flatten, report, ids, nested);
      && (forall i :: 0 <= i < |t.requests| ==> IsBatchRequest(endpoint, t.requests[i]))
      && Remaining(endpoint, respond, flatten, report, ids, nested) + Unsent(endpoint, respond, flatten, report, ids, nested)
         + IdsBackToFront(endpoint, t.requests) == ids
    decreases |ids|
  {
    BatchRequestsWellFormed(endpoint, respond, flatten, report, ids, nested);
    var start := SpliceStart(|ids|, endpoint.BatchSize());
    if start < |ids| {
      var rest := ids[..start];
      if BatchStep(endpoint, respond, flatten, report, ids[start..], start, nested).Emit? {
        BatchesPartitionIds(endpoint, respond, flatten, report, rest, true);
        PartitionAfterEmit(endpoint, respond, flatten, report, ids, nested);
      } else {
        PartitionAfterStop(endpoint, respond, flatten, report, ids, nested);
      }
    }
  }

  /** The inductive step of `BatchesPartitionIds` when the first batch was emitted. */
  lemma PartitionAfterEmit(endpoint: BatchEndpoint, respond: Request -> Response, flatten: Flattener, report: Reporter,
                           ids: seq<string>, nested: bool)
    requires SpliceStart(|ids|, endpoint.BatchSize()) < |ids|
    requires BatchStep(endpoint, respond, flatten, report, ids[SpliceStart(|ids|, endpoint.BatchSize())..], SpliceStart(|ids|, endpoint.BatchSize()), nested).Emit?
    requires var rest := ids[..SpliceStart(|ids|, endpoint.BatchSize())];
      var t0 := BatchRun(endpoint, respond, flatten, report, rest, true);
      && (forall i :: 0 <= i < |t0.requests| ==> IsBatchRequest(endpoint, t0.requests[i]))
      && Remaining(endpoint, respond, flatten, report, rest, true) + Unsent(endpoint, respond, flatten, report, rest, true)
         + IdsBackToFront(endpoint, t0.requests) == rest
    requires var t := BatchRun(endpoint, respond, flatten, report, ids, nested);
      forall i :: 0 <= i < |t.requests| ==> IsBatchRequest(endpoint, t.requests[i])
    ensures Remaining(endpoint, respond, flatten, report, ids, nested) + Unsent(endpoint, respond, flatten, report, ids, nested)
            + IdsBackToFront(endpoint, BatchRun(endpoint, respond, flatten, report, ids, nested).requests) == ids
  {
    var start := SpliceStart(|ids|, endpoint.BatchSize());
    var batch, rest := ids[start..], ids[..start];
    var t0 := BatchRun(endpoint, respond, flatten, report, rest, true);
    var first := endpoint.For(batch);
    assert BatchRun(endpoint, respond, flatten, report, ids, nested).requests == [first] + t0.requests;
    assert Remaining(endpoint, respond, flatten, report, ids, nested) == Remaining(endpoint, respond, flatten, report, rest, true);
    assert Unsent(endpoint, respond, flatten, report, ids, nested) == Unsent(endpoint, respond, flatten, report, rest, true);
    assert ids == rest + first.ids;
    PartitionCons(endpoint, Remaining(endpoint, respond, flatten, report, rest, true)
                            + Unsent(endpoint, respond, flatten, report, rest, true), first, t0.requests, rest);
  }

  /** A batch request in front keeps the ids partitioned, its ids going last. */
  lemma PartitionCons(endpoint: BatchEndpoint, left: seq<string>, first: Request, requests: seq<Request>,
                      rest: seq<string>)
    requires IsBatchRequest(endpoint, first)
    requires forall i :: 0 <= i < |requests| ==> IsBatchRequest(endpoint, requests[i])
    requires left + IdsBackToFront(endpoint, requests) == rest
    ensures forall i :: 0 <= i < |[first] + requests| ==> IsBatchRequest(endpoint, ([first] + requests)[i])
    ensures left + IdsBackToFront(endpoint, [first] + requests) == rest + first.ids
  {
    IdsBackToFrontCons(endpoint, first, requests);
    assert left + (IdsBackToFront(endpoint, requests) + first.ids) == rest + first.ids;
  }

  /** The inductive step of `BatchesPartitionIds` when the first batch stopped the run. */
  lemma PartitionAfterStop(endpoint: BatchEndpoint, respond: Request -> Response, flatten: Flattener, report: Reporter,
                           ids: seq<string>, nested: bool)
    requires SpliceStart(|ids|, endpoint.BatchSize()) < |ids|
    requires BatchStep(endpoint, respond, flatten, report, ids[SpliceStart(|ids|, endpoint.BatchSize())..], SpliceStart(|ids|, endpoint.BatchSize()), nested).Stop?
    ensures Remaining(endpoint, respond, flatten, report, ids, nested) + Unsent(endpoint, respond, flatten, report, ids, nested)
            + IdsBackToFront(endpoint, BatchRun(endpoint, respond, flatten, report, ids, nested).requests) == ids
  {
    var start := SpliceStart(|ids|, endpoint.BatchSize());
    if report(BatchNote(endpoint, |ids| - start, start)).Some? {
      PartitionAfterThrow(endpoint, respond, flatten, report, ids, nested);
    } else {
      PartitionAfterLastRequest(endpoint, respond, flatten, report, ids, nested);
    }
  }

  /** A first batch whose progress report threw is unsent, and nothing was requested. */
  lemma PartitionAfterThrow(endpoint: BatchEndpoint, respond: Request -> Response, flatten: Flattener, report: Reporter,
                            ids: seq<string>, nested: bool)
    requires SpliceStart(|ids|, endpoint.BatchSize()) < |ids|
    requires report(BatchNote(endpoint, |ids| - SpliceStart(|ids|, endpoint.BatchSize()), SpliceStart(|ids|, endpoint.BatchSize()))).Some?
    ensures Remaining(endpoint, respond, flatten, report, ids, nested) + Unsent(endpoint, respond, flatten, report, ids, nested)
            + IdsBackToFront(endpoint, BatchRun(endpoint, respond, flatten, report, ids, nested).requests) == ids
  {
    var start := SpliceStart(|ids|, endpoint.BatchSize());
    var batch, rest := ids[start..], ids[..start];
    assert |batch| == |ids| - start;
    assert ids == rest + batch;
    assert Remaining(endpoint, respond, flatten, report, ids, nested) == rest;
    assert Unsent(endpoint, respond, flatten, report, ids, nested) == batch;
    assert BatchRun(endpoint, respond, flatten, report, ids, nested).requests == [];
  }

  /** A first batch that was requested and stopped the run is the only request. */
  lemma PartitionAfterLastRequest(endpoint: BatchEndpoint, respond: Request -> Response, flatten: Flattener,
                                  report: Reporter, ids: seq<string>, nested: bool)
    requires SpliceStart(|ids|, endpoint.BatchSize()) < |ids|
    requires report(BatchNote(endpoint, |ids| - SpliceStart(|ids|, endpoint.BatchSize()), SpliceStart(|ids|, endpoint.BatchSize()))).None?
    requires BatchStep(endpoint, respond, flatten, report, ids[SpliceStart(|ids|, endpoint.BatchSize())..], SpliceStart(|ids|, endpoint.BatchSize()), nested).Stop?
    ensures Remaining(endpoint, respond, flatten, report, ids, nested) + Unsent(endpoint, respond, flatten, report, ids, nested)
            + IdsBackToFront(endpoint, BatchRun(endpoint, respond, flatten, report, ids, nested).requests) == ids
  {
    var start := SpliceStart(|ids|, endpoint.BatchSize());
    var batch, rest := ids[start..], ids[..start];
    assert |batch| == |ids| - start;
    assert ids == rest + batch;
    assert Remaining(endpoint, respond, flatten, report, ids, nested) == rest;
    assert Unsent(endpoint, respond, flatten, report, ids, nested) == [];
    var first := endpoint.For(batch);
    assert BatchRun(endpoint, respond, flatten, report, ids, nested).requests == [first];
    IdsBackToFrontCons(endpoint, first, []);
    assert [first] + [] == [first];
  }

  lemma BatchRequestsWellFormed(endpoint: BatchEndpoint, respond: Request -> Response, flatten: Flattener, report: Reporter,
                                ids: seq<string>, nested: bool)
    ensures var t := BatchRun(endpoint, respond, flatten, report, ids, nested);
      forall i :: 0 <= i < |t.requests| ==> IsBatchRequest(endpoint, t.requests[i])
  {
    BatchSizes(endpoint, respond, flatten, report, ids, nested);
  }

  lemma IdsBackToFrontCons(endpoint: BatchEndpoint, first: Request, requests: seq<Request>)
    requires IsBatchRequest(endpoint, first)
    requires forall i :: 0 <= i < |requests| ==> IsBatchRequest(endpoint, requests[i])
    ensures forall i :: 0 <= i < |[first] + requests| ==> IsBatchRequest(endpoint, ([first] + requests)[i])
    ensures IdsBackToFront(endpoint, [first] + requests) == IdsBackToFront(endpoint, requests) + first.ids
  {
    var all := [first] + requests;
    assert all[1..] == requests;
    assert forall i :: 0 <= i < |all| ==> IsBatchRequest(endpoint, all[i]) by {
      forall i | 0 <= i < |all|
        ensures IsBatchRequest(endpoint, all[i])
      {
        if i > 0 {
          assert all[i] == requests[i - 1];
        }
      }
    }
  }

  /** `ceil(n / k)`. */
  function CeilDiv(n: nat, k: nat): nat
    requires k > 0
  {
    (n + k - 1) / k
  }

  /** When the run resolves with no ids left, every batch was requested:
      the number of requests is the number of ids divided by the batch
      size, rounded up. */
  lemma {:induction false} BatchRequestCount(endpoint: BatchEndpoint, respond: Request -> Response,
                                             flatten: Flattener, report: Reporter,
                                             ids: seq<string>, nested: bool)
    ensures var t := BatchRun(endpoint, respond, flatten, report, ids, nested);
      t.outcome.Resolved? && Remaining(endpoint, respond, flatten, report, ids, nested) == [] ==>
        |t.requests| == CeilDiv(|ids|, endpoint.BatchSize())
    decreases |ids|
  {
    var k := endpoint.BatchSize();
    var start := SpliceStart(|ids|, k);
    var rest := ids[..start];
    if start < |ids| {
      var s := BatchStep(endpoint, respond, flatten, report, ids[start..], start, nested);
      if s.Emit? {
        BatchRequestCount(endpoint, respond, flatten, report, rest, true);
        if start == 0 {
          assert rest == [];
          assert CeilDiv(|ids|, k) == 1;
        } else {
          assert |ids| == start + k;
          assert CeilDiv(|ids|, k) == CeilDiv(start, k) + 1 by {
            assert |ids| + k - 1 == (start + k - 1) + k;
          }
        }
      } else {
        assert Remaining(endpoint, respond, flatten, report, ids, nested) == rest;
        assert rest == [] ==> CeilDiv(|ids|, k) == 1;
      }
    }
  }

  /** Batch `i` is the flattened items of the non-empty list that answered request `i`. */
  predicate EmittedBatch(respond: Request -> Response, flatten: Flattener, t: Trace, i: nat)
    requires i < |t.batches| && i < |t.requests|
  {
    var response := respond(t.requests[i]);
    response.Listed? && |response.items| > 0 && flatten(response.items) == Success(t.batches[i])
  }

  /** How a run of the id-batch loop may end: an empty response resolves
      it with nothing emitted for that request; a rejection or an error
      while handling the response rejects it with no batch for the failing
      request; a progress report that throws stops it before its request,
      by a throw out of the first round or a rejection in a later one; and
      every other request's response was emitted as one batch. It never
      runs out of budget. */
  predicate BatchEnds(respond: Request -> Response, flatten: Flattener, t: Trace) {
    && !t.outcome.Pending?
    && |t.batches| <= |t.requests| <= |t.batches| + 1
    && (forall i :: 0 <= i < |t.batches| ==> EmittedBatch(respond, flatten, t, i))
    && (t.outcome.Resolved? && |t.requests| > |t.batches| ==>
          respond(t.requests[|t.requests| - 1]) == Listed([]))
    && (t.outcome.Thrown? ==> t.requests == [] && t.batches == [])
    && (t.outcome.Rejection? && |t.requests| == |t.batches| ==> t.outcome.reason.Raised?)
    && (t.outcome.Rejection? && t.outcome.reason.HttpFailure? ==>
          respond(t.requests[|t.requests| - 1]) == Rejected(t.outcome.reason.intercepted))
  }

  /** Every batch run ends as `BatchEnds` says; only the first round's
      progress report can throw out of the call, so a rejection without a
      failing request comes after at least one batch; and a run that
      resolves after emitting every response has used up the list. */
  lemma {:induction false} BatchOutcome(endpoint: BatchEndpoint, respond: Request -> Response, flatten: Flattener, report: Reporter,
                                        ids: seq<string>, nested: bool)
    ensures var t := BatchRun(endpoint, respond, flatten, report, ids, nested);
      && BatchEnds(respond, flatten, t)
      && (t.outcome.Thrown? ==> !nested)
      && (!nested && t.outcome.Rejection? && |t.requests| == |t.batches| ==> |t.batches| > 0)
      && (t.outcome.Resolved? && |t.requests| == |t.batches| ==> Remaining(endpoint, respond, flatten, report, ids, nested) == [])
    decreases |ids|
  {
    var k := endpoint.BatchSize();
    var start := SpliceStart(|ids|, k);
    if start < |ids| {
      var batch := ids[start..];
      var s := BatchStep(endpoint, respond, flatten, report, batch, start, nested);
      if s.Emit? {
        var rest := ids[..start];
        var t0 := BatchRun(endpoint, respond, flatten, report, rest, true);
        BatchOutcome(endpoint, respond, flatten, report, rest, true);
        assert BatchRun(endpoint, respond, flatten, report, ids, nested) == Continue([s.request], [s.rows], t0);
        assert Remaining(endpoint, respond, flatten, report, ids, nested) == Remaining(endpoint, respond, flatten, report, rest, true);
        BatchEndsCons(respond, flatten, s.request, s.rows, t0);
      } else if report(BatchNote(endpoint, |batch|, start)).None? {
        var response := respond(endpoint.For(batch));
        if response.Listed? && |response.items| == 0 {
          assert response == Listed([]);
        }
      }
    }
  }

  /** An emitted round for a non-empty list in front of a run keeps how that run ends. */
  lemma BatchEndsCons(respond: Request -> Response, flatten: Flattener, request: Request, rows: seq<Mapping.Row>,
                      rest: Trace)
    requires BatchEnds(respond, flatten, rest) && !rest.outcome.Thrown?
    requires respond(request).Listed? && |respond(request).items| > 0
    requires flatten(respond(request).items) == Success(rows)
    ensures BatchEnds(respond, flatten, Continue([request], [rows], rest))
  {
    var t := Continue([request], [rows], rest);
    forall i | 0 <= i < |t.batches|
      ensures EmittedBatch(respond, flatten, t, i)
    {
      if i > 0 {
        assert EmittedBatch(respond, flatten, rest, i - 1);
        assert t.requests[i] == rest.requests[i - 1] && t.batches[i] == rest.batches[i - 1];
      }
    }
    if |rest.requests| > 0 {
      assert t.requests[|t.requests| - 1] == rest.requests[|rest.requests| - 1];
    }
  }

  /** With the shim as written on a host without `reportProgress`, an
      offset view never delivers a page: the first page that flattens
      rejects the run with the shim's own TypeError. */
  lemma OldHostDeliversNoPage(endpoint: PageEndpoint, respond: Request -> Response, flatten: Flattener,
                              offset: int, fuel: nat)
    requires fuel > 0
    ensures var t := OffsetRun(endpoint, respond, flatten, ShimReporter(false), offset, fuel);
      && t.batches == []
      && t.requests == [endpoint.At(offset)]
      && t.outcome.Rejection?
      && (respond(endpoint.At(offset)).Paged? && flatten(respond(endpoint.At(offset)).items).Success? ==>
            t.outcome.reason == Raised(TableauShim.NO_MODULE_THIS))
  {
    var response := respond(endpoint.At(offset));
    if response.Paged? && flatten(response.items).Success? {
      ShimReporterThrows(ProgressFor(endpoint, response));
    }
  }

  /** With the shim as written on a host without `reportProgress`, an
      id-batch view with ids to fetch throws out of its first call before
      any request, the first batch already taken off the list. */
  lemma OldHostThrowsBeforeRequesting(endpoint: BatchEndpoint, respond: Request -> Response, flatten: Flattener,
                                      ids: seq<string>)
    requires |ids| > 0
    ensures BatchRun(endpoint, respond, flatten, ShimReporter(false), ids, false)
            == Trace([], [], Thrown(TableauShim.NO_MODULE_THIS))
    ensures Remaining(endpoint, respond, flatten, ShimReporter(false), ids, false)
            == ids[..SpliceStart(|ids|, endpoint.BatchSize())]
  {
    var start := SpliceStart(|ids|, endpoint.BatchSize());
    ShimReporterThrows(BatchNote(endpoint, |ids| - start, start));
  }

  /** Every progress report throws the shim's TypeError on such a host. */
  lemma ShimReporterThrows(note: ProgressNote)
    ensures ShimReporter(false)(note) == Some(TableauShim.NO_MODULE_THIS)
  {
    TableauShim.ReportProgressThrowsOnOldHosts(Some(JStr(ProgressText(note))));
  }

  /** With a progress report that always returns, as the corrected shim's
      does, no batch is lost and nothing is thrown out of the call. */
  lemma {:induction false} QuietRunSendsAll(endpoint: BatchEndpoint, respond: Request -> Response, flatten: Flattener,
                                            ids: seq<string>, nested: bool)
    ensures Unsent(endpoint, respond, flatten, QuietReporter(), ids, nested) == []
    ensures !BatchRun(endpoint, respond, flatten, QuietReporter(), ids, nested).outcome.Thrown?
    decreases |ids|
  {
    var start := SpliceStart(|ids|, endpoint.BatchSize());
    if start < |ids| {
      QuietRunSendsAll(endpoint, respond, flatten, ids[..start], true);
    }
  }

  /** A JavaScript array of ids, changed in place. */
  class IdList {
    var elements: seq<string>

    constructor (elements: seq<string>)
      ensures this.elements == elements
    {
      this.elements := elements;
    }

    /** `splice(-k)`: remove the last `k` elements, or all of them when
        there are fewer, and return them. */
    method SpliceLast(k: nat) returns (removed: seq<string>)
      requires k > 0
      modifies this
      ensures removed == old(elements)[SpliceStart(|old(elements)|, k)..]
      ensures elements == old(elements)[..SpliceStart(|old(elements)|, k)]
    {
      var start := SpliceStart(|elements|, k);
      removed := elements[start..];
      elements := elements[..start];
    }
  }

  /** Appending one more round to the requests and batches made so far. */
  lemma ContinueSnoc(requests: seq<Request>, batches: seq<seq<Mapping.Row>>, request: Request,
                     rows: seq<Mapping.Row>, t: Trace)
    ensures Continue(requests, batches, Continue([request], [rows], t))
            == Continue(requests + [request], batches + [rows], t)
  {
    assert requests + ([request] + t.requests) == (requests + [request]) + t.requests;
    assert batches + ([rows] + t.batches) == (batches + [rows]) + t.batches;
  }

  /** One round of the offset loop: request the page at `offset`, flatten
      its items, report progress, and say whether to stop; `next` is where
      the following round starts. */
  method FetchPage(mapping: Mapping.Mapping, endpoint: PageEndpoint, respond: Request -> Response, report: Reporter,
                   offset: int)
    returns (s: Step, next: int)
    ensures s == PageStep(endpoint, respond, FlattenWith(mapping.transformationHandlers, mapping.mappingRules), report, offset)
    ensures s.Emit? ==> next == respond(s.request).offset + respond(s.request).limit
  {
    var request := endpoint.At(offset);
    var response := respond(request);
    next := 0;
    if response.Rejected? {
      return Stop(Trace([request], [], Rejection(HttpFailure(response.reason)))), next;
    }
    if response.Listed? {
      return Stop(Trace([request], [], Rejection(Raised(ITEMS_MISSING)))), next;
    }
    var flattenedData := mapping.FlattenData(response.items);
    if flattenedData.Failure? {
      return Stop(Trace([request], [], Rejection(Raised(flattenedData.error)))), next;
    }
    var thrown := report(PageNote(endpoint, response.total, response.offset, response.limit));
    if thrown.Some? {
      return Stop(Trace([request], [], Rejection(Raised(thrown.value)))), next;
    }
    if !Truthy(response.next) {
      return Stop(Trace([request], [flattenedData.value], Resolved)), next;
    }
    next := response.offset + response.limit;
    s := Emit(request, flattenedData.value);
  }

  /** The offset loop of Tracks, Albums, TopTracks and TopArtists: one
      request for each page, the page flattened, progress reported and the
      page passed to the sink, then stop on a falsy `next` or ask for the
      page after it. */
  method FetchPages(mapping: Mapping.Mapping, endpoint: PageEndpoint, respond: Request -> Response, report: Reporter,
                    fuel: nat)
    returns (t: Trace)
    ensures t == OffsetRun(endpoint, respond, FlattenWith(mapping.transformationHandlers, mapping.mappingRules), report, 0, fuel)
  {
    ghost var flatten := FlattenWith(mapping.transformationHandlers, mapping.mappingRules);
    ghost var run := OffsetRun(endpoint, respond, flatten, report, 0, fuel);
    var requests: seq<Request> := [];
    var batches: seq<seq<Mapping.Row>> := [];
    var offset := 0;
    var left := fuel;
    ContinueNothing(run);
    while left > 0
      invariant run == Continue(requests, batches, OffsetRun(endpoint, respond, flatten, report, offset, left))
      decreases left
    {
      var s, next := FetchPage(mapping, endpoint, respond, report, offset);
      OffsetRound(run, requests, batches, endpoint, respond, flatten, report, offset, left, s, next);
      if s.Stop? {
        return Continue(requests, batches, s.trace);
      }
      requests := requests + [s.request];
      batches := batches + [s.rows];
      offset := next;
      left := left - 1;
    }
    ContinuePending(requests, batches);
    return Trace(requests, batches, Pending);
  }

  /** One round of the offset loop keeps the loop's account of the run. */
  lemma OffsetRound(run: Trace, requests: seq<Request>, batches: seq<seq<Mapping.Row>>,
                    endpoint: PageEndpoint, respond: Request -> Response, flatten: Flattener, report: Reporter,
                    offset: int, left: nat, s: Step, next: int)
    requires left > 0
    requires run == Continue(requests, batches, OffsetRun(endpoint, respond, flatten, report, offset, left))
    requires s == PageStep(endpoint, respond, flatten, report, offset)
    requires s.Emit? ==> next == respond(s.request).offset + respond(s.request).limit
    ensures s.Stop? ==> run == Continue(requests, batches, s.trace)
    ensures s.Emit? ==> run == Continue(requests + [s.request], batches + [s.rows], OffsetRun(endpoint, respond, flatten, report, next, left - 1))
  {
    if s.Emit? {
      assert OffsetRun(endpoint, respond, flatten, report, offset, left)
        == Continue([s.request], [s.rows], OffsetRun(endpoint, respond, flatten, report, next, left - 1));
      ContinueSnoc(requests, batches, s.request, s.rows, OffsetRun(endpoint, respond, flatten, report, next, left - 1));
    }
  }

  lemma ContinueNothing(t: Trace)
    ensures t == Continue([], [], t)
  {
    assert [] + t.requests == t.requests && [] + t.batches == t.batches;
  }

  lemma ContinuePending(requests: seq<Request>, batches: seq<seq<Mapping.Row>>)
    ensures Continue(requests, batches, Trace([], [], Pending)) == Trace(requests, batches, Pending)
  {
    assert requests + [] == requests && batches + [] == batches;
  }

  /** One round of the id-batch loop: report progress, request the batch,
      stop on a throw, a rejection, a response of the wrong shape or an
      empty list, else flatten the items. */
  method FetchBatch(mapping: Mapping.Mapping, endpoint: BatchEndpoint, respond: Request -> Response, report: Reporter,
                    ids: seq<string>, left: nat, nested: bool)
    returns (s: Step)
    ensures s == BatchStep(endpoint, respond, FlattenWith(mapping.transformationHandlers, mapping.mappingRules), report,
                           ids, left, nested)
  {
    var thrown := report(BatchNote(endpoint, |ids|, left));
    if thrown.Some? {
      return Stop(Trace([], [], if nested then Rejection(Raised(thrown.value)) else Thrown(thrown.value)));
    }
    var request := endpoint.For(ids);
    var response := respond(request);
    if response.Rejected? {
      return Stop(Trace([request], [], Rejection(HttpFailure(response.reason))));
    }
    if response.Paged? {
      return Stop(Trace([request], [], Rejection(Raised(ITEMS_MISSING))));
    }
    if |response.items| == 0 {
      return Stop(Trace([request], [], Resolved));
    }
    var flattenedData := mapping.FlattenData(response.items);
    if flattenedData.Failure? {
      return Stop(Trace([request], [], Rejection(Raised(flattenedData.error))));
    }
    s := Emit(request, flattenedData.value);
  }

  /** The id-batch loop of Artists and TracksFeatures: take a batch off the
      end of the list in place, stop when there is none, report progress,
      request it, stop on an empty response, otherwise flatten it, pass it
      to the sink and go on with the shortened list from the response
      handler. */
  method FetchBatches(mapping: Mapping.Mapping, endpoint: BatchEndpoint, respond: Request -> Response, report: Reporter,
                      filterValues: IdList)
    returns (t: Trace)
    modifies filterValues
    ensures t == BatchRun(endpoint, respond, FlattenWith(mapping.transformationHandlers, mapping.mappingRules), report,
                          old(filterValues.elements), false)
    ensures filterValues.elements
            == Remaining(endpoint, respond, FlattenWith(mapping.transformationHandlers, mapping.mappingRules), report,
                         old(filterValues.elements), false)
  {
    ghost var flatten := FlattenWith(mapping.transformationHandlers, mapping.mappingRules);
    ghost var run := BatchRun(endpoint, respond, flatten, report, filterValues.elements, false);
    ghost var remaining := Remaining(endpoint, respond, flatten, report, filterValues.elements, false);
    var requests: seq<Request> := [];
    var batches: seq<seq<Mapping.Row>> := [];
    var nested := false;
    assert run == Continue(requests, batches, run);
    while true
      invariant remaining == Remaining(endpoint, respond, flatten, report, filterValues.elements, nested)
      invariant run == Continue(requests, batches, BatchRun(endpoint, respond, flatten, report, filterValues.elements, nested))
      decreases |filterValues.elements|
    {
      var ids := filterValues.SpliceLast(endpoint.BatchSize());
      if |ids| == 0 {
        assert requests + [] == requests && batches + [] == batches;
        return Trace(requests, batches, Resolved);
      }
      var s := FetchBatch(mapping, endpoint, respond, report, ids, |filterValues.elements|, nested);
      if s.Stop? {
        return Continue(requests, batches, s.trace);
      }
      ContinueSnoc(requests, batches, s.request, s.rows, BatchRun(endpoint, respond, flatten, report, filterValues.elements, true));
      requests := requests + [s.request];
      batches := batches + [s.rows];
      nested := true;
    }
  }
}
