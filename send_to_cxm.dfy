/**
 * Batched delivery of resource records to the CXM API
 * (cxm_iac_crawler/send_to_cxm.py). The HTTP client is replaced by an
 * oracle `accepted(batchIndex, attempt)` telling whether that attempt's
 * POST came back with a success status; the requests the code would make
 * are returned as values.
 */
module SendToCxm {
  import opened Json
  import Text

  /** BATCH_SIZE */
  const BatchSize: nat := 1000
  /** Path appended to the configured endpoint. */
  const EventsPath: string := "/ci/events/resources"

  /** The module-level settings read from the environment at import time. */
  datatype Settings = Settings(
    apiKey: string,          // CXM_API_KEY, "" when unset
    endpoint: string,        // CXM_API_ENDPOINT, "" when unset
    retriesSetting: int,     // int(CXM_MAX_RETRIES), 3 when unset
    crawlerVersion: string)  // the installed package version

  /** MAX_RETRIES = max(1, configured value). */
  function MaxRetries(configured: int): (n: nat)
    ensures n >= 1
    ensures configured >= 1 ==> n == configured
    ensures configured < 1 ==> n == 1
  {
    if configured < 1 then 1 else configured
  }

  // ---------------------------------------------------------------------
  // _batch_generator
  // ---------------------------------------------------------------------

  /** Concatenation of batches. */
  function Flatten<T>(xss: seq<seq<T>>): (r: seq<T>)
  {
    if xss == [] then [] else xss[0] + Flatten(xss[1..])
  }

  lemma {:induction false} FlattenAppend<T>(xss: seq<seq<T>>, ys: seq<T>)
    ensures Flatten(xss + [ys]) == Flatten(xss) + ys
    decreases |xss|
  {
    if xss == [] {
      assert [ys][1..] == [];
    } else {
      assert (xss + [ys])[1..] == xss[1..] + [ys];
      FlattenAppend(xss[1..], ys);
    }
  }

  /** Number of records in the first `n` batches: the running `total_resources`. */
  function RecordCount<T>(xss: seq<seq<T>>, n: nat): nat
    requires n <= |xss|
  {
    if n == 0 then 0 else RecordCount(xss, n - 1) + |xss[n - 1]|
  }

  /** The running total counts exactly the records of the batches seen so far. */
  lemma {:induction false} RecordCountFlatten<T>(xss: seq<seq<T>>, n: nat)
    requires n <= |xss|
    ensures RecordCount(xss, n) == |Flatten(xss[..n])|
  {
    if n > 0 {
      RecordCountFlatten(xss, n - 1);
      assert xss[..n] == xss[..n - 1] + [xss[n - 1]];
      FlattenAppend(xss[..n - 1], xss[n - 1]);
    }
  }

  /** One `islice` that returns a non-empty batch, followed by the batches after it. */
  lemma BatchesFromTake<T>(rest: seq<T>, error: Option<Fault>, n: nat)
    requires n > 0 && rest != [] && (|rest| >= n || error.None?)
    ensures var take := if |rest| < n then |rest| else n;
            BatchesFrom(rest, error, n) == Then(Stream([rest[..take]], None), BatchesFrom(rest[take..], error, n))
  {
    if |rest| < n {
      assert rest[..|rest|] == rest && rest[|rest|..] == [];
    }
  }

  /**
   * The batches `_batch_generator` yields for a positive batch size `n` over
   * an upstream that produces `items` and then ends with `error`. Each
   * `islice` takes up to `n` items; a short read that hits the upstream's
   * exception loses what it had collected.
   */
  function BatchesFrom<T>(items: seq<T>, error: Option<Fault>, n: nat): (r: Stream<seq<T>>)
    requires n > 0
    ensures r.error == error
    decreases |items|
  {
    if |items| < n then
      if error.Some? then Stream([], error)
      else if items == [] then Stream([], None)
      else Stream([items], None)
    else
      Then(Stream([items[..n]], None), BatchesFrom(items[n..], error, n))
  }

  /**
   * `_batch_generator(iterable, batch_size)`: `islice` refuses a negative
   * size, and a size of zero yields nothing without reading the upstream.
   */
  function Batches<T>(upstream: Stream<T>, batchSize: int): (r: Stream<seq<T>>)
    ensures batchSize < 0 ==> r == Stream([], Some(BadBatchSize))
    ensures batchSize == 0 ==> r == Stream([], None)
    ensures batchSize > 0 ==> r.error == upstream.error
  {
    if batchSize < 0 then Stream([], Some(BadBatchSize))
    else if batchSize == 0 then Stream([], None)
    else BatchesFrom(upstream.items, upstream.error, batchSize)
  }

  /**
   * Every batch is non-empty and holds at most `n` items; all but the last
   * hold exactly `n`, and after an upstream exception all of them do.
   */
  lemma {:induction false} BatchSizes<T>(items: seq<T>, error: Option<Fault>, n: nat)
    requires n > 0
    ensures forall i :: 0 <= i < |BatchesFrom(items, error, n).items| ==>
              0 < |BatchesFrom(items, error, n).items[i]| <= n
    ensures forall i :: 0 <= i < |BatchesFrom(items, error, n).items| - 1 ==>
              |BatchesFrom(items, error, n).items[i]| == n
    ensures error.Some? ==>
              forall i :: 0 <= i < |BatchesFrom(items, error, n).items| ==> |BatchesFrom(items, error, n).items[i]| == n
    decreases |items|
  {
    if |items| >= n {
      BatchSizes(items[n..], error, n);
      var rest := BatchesFrom(items[n..], error, n).items;
      var bs := BatchesFrom(items, error, n).items;
      assert bs == [items[..n]] + rest;
      forall i | 1 <= i < |bs|
        ensures 0 < |bs[i]| <= n && (i < |bs| - 1 || error.Some? ==> |bs[i]| == n)
      {
        assert bs[i] == rest[i - 1];
      }
    }
  }

  /**
   * Concatenating the batches gives back the upstream's items; after an
   * upstream exception only a tail shorter than one batch is lost.
   */
  lemma {:induction false} BatchesConcat<T>(items: seq<T>, error: Option<Fault>, n: nat)
    requires n > 0
    ensures var flat := Flatten(BatchesFrom(items, error, n).items);
            && |flat| <= |items| && flat == items[..|flat|]
            && |items| - |flat| < n
            && (error.None? ==> flat == items)
    decreases |items|
  {
    if |items| >= n {
      BatchesConcat(items[n..], error, n);
      var rest := BatchesFrom(items[n..], error, n).items;
      assert BatchesFrom(items, error, n).items == [items[..n]] + rest;
      assert ([items[..n]] + rest)[1..] == rest;
      assert items == items[..n] + items[n..];
    } else if error.None? && items != [] {
      assert Flatten([items]) == items + Flatten<T>([]);
    }
  }

  /**
   * Without an upstream exception the batch count is ceil(N / n): no batch
   * for no input, otherwise just enough batches of `n` to cover N items.
   */
  lemma {:induction false} BatchCount<T>(items: seq<T>, n: nat)
    requires n > 0
    ensures var count := |BatchesFrom(items, None, n).items|;
            && (count == 0 <==> items == [])
            && (count - 1) * n < |items| <= count * n
    decreases |items|
  {
    if |items| >= n {
      BatchCount(items[n..], n);
      var count' := |BatchesFrom(items[n..], None, n).items|;
      assert |BatchesFrom(items, None, n).items| == count' + 1;
      assert (count' + 1) * n == count' * n + n;
      assert count' * n == (count' - 1) * n + n;
    }
  }

  /** 2500 records make three batches: 1000, 1000 and 500 records. */
  lemma TwentyFiveHundredRecords<T>(items: seq<T>)
    requires |items| == 2500
    ensures var bs := Batches(Stream(items, None), BatchSize).items;
            |bs| == 3 && |bs[0]| == 1000 && |bs[1]| == 1000 && |bs[2]| == 500
  {
    var rest1 := items[1000..];
    var rest2 := rest1[1000..];
    assert BatchesFrom(rest2, None, BatchSize) == Stream([rest2], None);
    assert BatchesFrom(rest1, None, BatchSize) == Stream([rest1[..1000], rest2], None);
  }

  /**
   * `_batch_generator(iterable, batch_size)` driven to the end: a
   * `while True` loop that slices the next batch off the shared upstream.
   */
  method BatchGenerator<T>(upstream: Stream<T>, batchSize: int) returns (batches: seq<seq<T>>, error: Option<Fault>)
    ensures Stream(batches, error) == Batches(upstream, batchSize)
  {
    if batchSize < 0 {
      return [], Some(BadBatchSize);
    }
    if batchSize == 0 {
      return [], None;
    }
    var items := upstream.items;
    var pos := 0;
    batches := [];
    while true
      invariant 0 <= pos <= |items|
      invariant Then(Stream(batches, None), BatchesFrom(items[pos..], upstream.error, batchSize))
                == BatchesFrom(items, upstream.error, batchSize)
      decreases |items| - pos
    {
      var remaining := |items| - pos;
      if remaining < batchSize && upstream.error.Some? {
        // islice reaches the end of what the upstream produced and gets its exception
        return batches, upstream.error;
      }
      var take := if remaining < batchSize then remaining else batchSize;
      var batch := items[pos..pos + take];
      if batch == [] {
        return batches, None;
      }
      BatchesFromTake(items[pos..], upstream.error, batchSize);
      assert items[pos..][..take] == batch && items[pos..][take..] == items[pos + take..];
      ThenAssoc(Stream(batches, None), Stream([batch], None), BatchesFrom(items[pos + take..], upstream.error, batchSize));
      batches := batches + [batch];
      pos := pos + take;
    }
  }

  // ---------------------------------------------------------------------
  // _send_single_batch
  // ---------------------------------------------------------------------

  /** One `requests.post` call: where, with which headers and which JSON body. */
  datatype Request = Request(url: string, headers: map<string, string>, payload: Payload)

  /** The fields of the JSON body of a batch POST (rendered by `PayloadJson`). */
  datatype Payload = Payload(
    resources: seq<Dict>,
    schemaVersion: int,
    repositoryUrl: string,
    scanMetadata: map<string, string>,
    scanTimestamp: string,
    crawlerVersion: string)

  /** What one call of `_send_single_batch` did: the POSTs it made, and what it raised. */
  datatype Delivery = Delivery(posts: seq<Request>, error: Option<Fault>)

  /** `CXM_API_ENDPOINT.strip('/') + '/ci/events/resources'` */
  function EventsUrl(endpoint: string): (url: string)
    ensures |url| >= |EventsPath| && url[|url| - |EventsPath|..] == EventsPath
    ensures var base := url[..|url| - |EventsPath|];
            |base| <= |endpoint| && (base != [] ==> base[0] != '/' && base[|base| - 1] != '/')
  {
    var base := Text.Strip(endpoint, Text.IsSlash);
    assert (base + EventsPath)[..|base|] == base && (base + EventsPath)[|base|..] == EventsPath;
    base + EventsPath
  }

  /**
   * The URL is the endpoint with only its leading and trailing slashes
   * removed, none left at either end, followed by the events path.
   */
  lemma EventsUrlKeepsEndpoint(endpoint: string)
    ensures exists i, j :: Text.TrimmedAt(endpoint, Text.IsSlash, i, j)
                           && EventsUrl(endpoint) == endpoint[i..j] + EventsPath
  {
    Text.StripIsMiddle(endpoint, Text.IsSlash);
    var i, j :| Text.TrimmedAt(endpoint, Text.IsSlash, i, j) && Text.Strip(endpoint, Text.IsSlash) == endpoint[i..j];
    assert EventsUrl(endpoint) == endpoint[i..j] + EventsPath;
  }

  function Headers(apiKey: string): map<string, string>
  {
    map["CXM-API-KEY" := apiKey, "Content-Type" := "application/json"]
  }

  /** The batch's records as JSON objects, in order. */
  function ResourceValues(batch: seq<Dict>): (r: seq<Value>)
    ensures |r| == |batch|
  {
    if batch == [] then [] else [Obj(batch[0])] + ResourceValues(batch[1..])
  }

  /** Reads the records back out of a JSON list of objects. */
  function RecordsOf(xs: seq<Value>): Option<seq<Dict>>
  {
    if xs == [] then Some([])
    else if !xs[0].Obj? then None
    else match RecordsOf(xs[1..])
      case None => None
      case Some(rest) => Some([xs[0].fields] + rest)
  }

  lemma {:induction false} RecordsRoundTrip(batch: seq<Dict>)
    ensures RecordsOf(ResourceValues(batch)) == Some(batch)
    decreases |batch|
  {
    if batch != [] {
      var xs := ResourceValues(batch);
      assert xs == [Obj(batch[0])] + ResourceValues(batch[1..]);
      assert xs[0] == Obj(batch[0]) && xs[1..] == ResourceValues(batch[1..]);
      RecordsRoundTrip(batch[1..]);
      assert [batch[0]] + batch[1..] == batch;
    }
  }

  function MetadataValue(meta: map<string, string>): Value
  {
    Obj(map k | k in meta :: Str(meta[k]))
  }

  /** The JSON body a payload is sent as. */
  function PayloadJson(p: Payload): (v: Value)
    ensures v.Obj?
    ensures v.fields.Keys
            == {"resources", "schema_version", "repository_url", "scan_metadata", "scan_timestamp", "crawler_version"}
    ensures v.fields["resources"].Arr? && RecordsOf(v.fields["resources"].items) == Some(p.resources)
    ensures v.fields["schema_version"] == Int(p.schemaVersion) && v.fields["scan_timestamp"] == Str(p.scanTimestamp)
    ensures v.fields["scan_metadata"].Obj? && v.fields["scan_metadata"].fields.Keys == p.scanMetadata.Keys
  {
    RecordsRoundTrip(p.resources);
    Obj(map[
      "resources" := Arr(ResourceValues(p.resources)),
      "schema_version" := Int(p.schemaVersion),
      "repository_url" := Str(p.repositoryUrl),
      "scan_metadata" := MetadataValue(p.scanMetadata),
      "scan_timestamp" := Str(p.scanTimestamp),
      "crawler_version" := Str(p.crawlerVersion)])
  }

  /** The payload of a batch: schema version 0 and the scan's own timestamp. */
  function BatchPayload(batch: seq<Dict>, repositoryUrl: string, meta: map<string, string>, crawlerVersion: string)
    : (p: Payload)
    requires "scan_timestamp" in meta
    ensures p.resources == batch && p.scanMetadata == meta
    ensures p.schemaVersion == 0 && p.scanTimestamp == p.scanMetadata["scan_timestamp"]
  {
    Payload(batch, 0, repositoryUrl, meta, meta["scan_timestamp"], crawlerVersion)
  }

  /**
   * The body carries the batch itself (it can be read back record for
   * record), schema version 0, and the scan's timestamp copied from the
   * metadata.
   */
  lemma PayloadCarriesBatch(batch: seq<Dict>, repositoryUrl: string, meta: map<string, string>, crawlerVersion: string)
    requires "scan_timestamp" in meta
    ensures var p := PayloadJson(BatchPayload(batch, repositoryUrl, meta, crawlerVersion));
            && p.fields.Keys == {"resources", "schema_version", "repository_url", "scan_metadata", "scan_timestamp", "crawler_version"}
            && p.fields["resources"].Arr? && RecordsOf(p.fields["resources"].items) == Some(batch)
            && p.fields["schema_version"] == Int(0)
            && p.fields["scan_timestamp"] == Str(meta["scan_timestamp"])
            && p.fields["scan_metadata"].Obj? && p.fields["scan_metadata"].fields.Keys == meta.Keys
  {
    RecordsRoundTrip(batch);
  }

  /** The attempt with the lowest number below `limit` that the server accepts. */
  function FirstAccepted(accepted: (nat, nat) -> bool, batchIndex: nat, limit: nat): (r: Option<nat>)
    ensures r.Some? ==> r.value < limit
    decreases limit
  {
    if limit == 0 then None
    else match FirstAccepted(accepted, batchIndex, limit - 1)
      case Some(k) => Some(k)
      case None => if accepted(batchIndex, limit - 1) then Some(limit - 1) else None
  }

  /** `FirstAccepted` finds an accepted attempt exactly when there is one, and the first. */
  lemma {:induction false} FirstAcceptedIsFirst(accepted: (nat, nat) -> bool, batchIndex: nat, limit: nat)
    ensures var r := FirstAccepted(accepted, batchIndex, limit);
            && (r.None? <==> forall k :: 0 <= k < limit ==> !accepted(batchIndex, k))
            && (r.Some? ==> accepted(batchIndex, r.value) && forall k :: 0 <= k < r.value ==> !accepted(batchIndex, k))
    decreases limit
  {
    if limit > 0 {
      FirstAcceptedIsFirst(accepted, batchIndex, limit - 1);
    }
  }

  /** `n` copies of the same request. */
  function Repeat(req: Request, n: nat): (r: seq<Request>)
    ensures |r| == n && forall i :: 0 <= i < n ==> r[i] == req
  {
    if n == 0 then [] else Repeat(req, n - 1) + [req]
  }

  /** The request every attempt of one batch sends. */
  function BatchRequest(settings: Settings, batch: seq<Dict>, repositoryUrl: string, meta: map<string, string>): Request
    requires "scan_timestamp" in meta
  {
    Request(EventsUrl(settings.endpoint), Headers(settings.apiKey), BatchPayload(batch, repositoryUrl, meta, settings.crawlerVersion))
  }

  /** How many POSTs one batch's delivery makes, and what it raises. */
  datatype Attempts = Attempts(count: nat, error: Option<Fault>)

  /**
   * The retry state machine of `_send_single_batch`, which does not depend
   * on the batch's contents: a configuration check before anything is
   * sent, then attempts until the first accepted one; when none of
   * MAX_RETRIES attempts is accepted the last error is raised.
   */
  function RetryOutcome(settings: Settings, meta: map<string, string>, batchIndex: nat, accepted: (nat, nat) -> bool)
    : (r: Attempts)
    ensures r.count > 0 ==> settings.apiKey != "" && settings.endpoint != "" && "scan_timestamp" in meta
  {
    if settings.apiKey == "" || settings.endpoint == "" then
      Attempts(0, Some(NotConfigured))
    else if "scan_timestamp" !in meta then
      Attempts(0, Some(MissingKey("scan_timestamp")))
    else
      var limit := MaxRetries(settings.retriesSetting);
      match FirstAccepted(accepted, batchIndex, limit)
      case Some(k) => Attempts(k + 1, None)
      case None => Attempts(limit, Some(DeliveryFailed(batchIndex)))
  }

  /**
   * The retry bounds: a delivery that gets past the configuration check
   * makes between 1 and MAX_RETRIES attempts; it succeeds iff one of them is
   * accepted, stopping right after the first accepted one; otherwise it makes
   * exactly MAX_RETRIES attempts and raises. A missing API key or endpoint
   * raises before any attempt.
   */
  lemma RetryBounds(settings: Settings, meta: map<string, string>, batchIndex: nat, accepted: (nat, nat) -> bool)
    ensures var a := RetryOutcome(settings, meta, batchIndex, accepted);
            var limit := MaxRetries(settings.retriesSetting);
            && (settings.apiKey == "" || settings.endpoint == "" ==> a == Attempts(0, Some(NotConfigured)))
            && (a.count == 0 <==> settings.apiKey == "" || settings.endpoint == "" || "scan_timestamp" !in meta)
            && a.count <= limit
            && (a.count > 0 ==> (a.error.None? <==> exists k :: 0 <= k < limit && accepted(batchIndex, k)))
            && (a.count > 0 && a.error.None? ==>
                  accepted(batchIndex, a.count - 1) && forall k :: 0 <= k < a.count - 1 ==> !accepted(batchIndex, k))
            && (a.count > 0 && a.error.Some? ==> a.count == limit && a.error == Some(DeliveryFailed(batchIndex)))
  {
    FirstAcceptedIsFirst(accepted, batchIndex, MaxRetries(settings.retriesSetting));
  }

  /**
   * Specification of `_send_single_batch`: the attempts `RetryOutcome`
   * counts, each one the same POST of the batch.
   */
  function BatchDelivery(settings: Settings, batch: seq<Dict>, batchIndex: nat, repositoryUrl: string,
                         meta: map<string, string>, accepted: (nat, nat) -> bool): (d: Delivery)
    ensures d.error == RetryOutcome(settings, meta, batchIndex, accepted).error
  {
    var a := RetryOutcome(settings, meta, batchIndex, accepted);
    if a.count == 0 then Delivery([], a.error)
    else Delivery(Repeat(BatchRequest(settings, batch, repositoryUrl, meta), a.count), a.error)
  }

  /** A batch that passes the configuration check always reaches the server at least once. */
  lemma ConfiguredBatchIsSent(settings: Settings, batch: seq<Dict>, batchIndex: nat, repositoryUrl: string,
                              meta: map<string, string>, accepted: (nat, nat) -> bool)
    requires settings.apiKey != "" && settings.endpoint != "" && "scan_timestamp" in meta
    ensures var d := BatchDelivery(settings, batch, batchIndex, repositoryUrl, meta, accepted);
            d.posts != [] && forall i :: 0 <= i < |d.posts| ==> d.posts[i] == BatchRequest(settings, batch, repositoryUrl, meta)
  {
  }

  /** `_send_single_batch(batch, batch_index, repository_url, scan_metadata)` */
  method SendSingleBatch(settings: Settings, batch: seq<Dict>, batchIndex: nat, repositoryUrl: string,
                         meta: map<string, string>, accepted: (nat, nat) -> bool)
    returns (posts: seq<Request>, error: Option<Fault>)
    ensures Delivery(posts, error) == BatchDelivery(settings, batch, batchIndex, repositoryUrl, meta, accepted)
  {
    if settings.apiKey == "" || settings.endpoint == "" {
      return [], Some(NotConfigured);
    }
    if "scan_timestamp" !in meta {
      return [], Some(MissingKey("scan_timestamp"));
    }
    var payload := BatchPayload(batch, repositoryUrl, meta, settings.crawlerVersion);
    var headers := Headers(settings.apiKey);
    var maxRetries := MaxRetries(settings.retriesSetting);
    ghost var req := BatchRequest(settings, batch, repositoryUrl, meta);
    posts := [];
    for attempt := 0 to maxRetries
      invariant posts == Repeat(req, attempt)
      invariant forall k :: 0 <= k < attempt ==> !accepted(batchIndex, k)
    {
      var url := EventsUrl(settings.endpoint);
      posts := posts + [Request(url, headers, payload)];
      if accepted(batchIndex, attempt) {
        FirstAcceptedIsFirst(accepted, batchIndex, maxRetries);
        assert FirstAccepted(accepted, batchIndex, maxRetries) == Some(attempt);
        return posts, None;
      }
      if attempt < maxRetries - 1 {
        continue;
      }
      FirstAcceptedIsFirst(accepted, batchIndex, maxRetries);
      assert FirstAccepted(accepted, batchIndex, maxRetries) == None;
      return posts, Some(DeliveryFailed(batchIndex));
    }
    // not reached: the last attempt returns or raises inside the loop
    FirstAcceptedIsFirst(accepted, batchIndex, maxRetries);
    error := Some(DeliveryFailed(batchIndex));
  }

  // ---------------------------------------------------------------------
  // send_data_to_cxm
  // ---------------------------------------------------------------------

  /** The POSTs of delivering the first `n` batches, in order: each batch's attempts. */
  function PostsBefore(settings: Settings, batches: seq<seq<Dict>>, n: nat, repositoryUrl: string,
                       meta: map<string, string>, accepted: (nat, nat) -> bool): seq<Request>
    requires n <= |batches|
  {
    if n == 0 then []
    else PostsBefore(settings, batches, n - 1, repositoryUrl, meta, accepted)
         + BatchDelivery(settings, batches[n - 1], n - 1, repositoryUrl, meta, accepted).posts
  }

  /** The delivery of every batch numbered below `n` ended normally. */
  ghost predicate DeliveredBefore(settings: Settings, meta: map<string, string>, n: nat, accepted: (nat, nat) -> bool)
  {
    n == 0 || (DeliveredBefore(settings, meta, n - 1, accepted) && RetryOutcome(settings, meta, n - 1, accepted).error.None?)
  }

  /** `DeliveredBefore` read batch by batch. */
  lemma {:induction false} DeliveredBeforeEach(settings: Settings, meta: map<string, string>, n: nat,
                                               accepted: (nat, nat) -> bool)
    ensures DeliveredBefore(settings, meta, n, accepted)
            <==> forall j: nat :: j < n ==> RetryOutcome(settings, meta, j, accepted).error.None?
  {
    if n > 0 {
      DeliveredBeforeEach(settings, meta, n - 1, accepted);
    }
  }

  /** What `send_data_to_cxm` reports: the POSTs, its running totals, and what it raised. */
  datatype SendReport = SendReport(posts: seq<Request>, totalResources: nat, totalBatches: nat, error: Option<Fault>)

  /**
   * The outcome of the batch loop outside a dry run: the batches go out in
   * stream order with indices 0, 1, ...; every batch before the last one
   * counted was delivered; the loop went through all batches, or the last
   * batch counted raised and its exception ends the loop; the totals and
   * the POSTs are those of the batches counted.
   */
  ghost predicate SentInOrder(settings: Settings, batches: seq<seq<Dict>>, repositoryUrl: string, meta: map<string, string>,
                              accepted: (nat, nat) -> bool, report: SendReport)
  {
    && report.totalBatches <= |batches|
    && report.totalResources == RecordCount(batches, report.totalBatches)
    && report.posts == PostsBefore(settings, batches, report.totalBatches, repositoryUrl, meta, accepted)
    && (report.error.None? ==>
          report.totalBatches == |batches| && DeliveredBefore(settings, meta, |batches|, accepted))
    && (report.error.Some? ==>
          && report.totalBatches >= 1
          && DeliveredBefore(settings, meta, report.totalBatches - 1, accepted)
          && report.error == RetryOutcome(settings, meta, report.totalBatches - 1, accepted).error)
  }

  /**
   * The batch loop of `send_data_to_cxm`: counts each batch, then (unless
   * in a dry run) sends it; a batch whose delivery raises ends the loop.
   */
  method DispatchBatches(settings: Settings, batches: seq<seq<Dict>>, repositoryUrl: string, meta: map<string, string>,
                         dryRun: bool, accepted: (nat, nat) -> bool)
    returns (report: SendReport)
    ensures dryRun ==> report == SendReport([], RecordCount(batches, |batches|), |batches|, None)
    ensures !dryRun ==> SentInOrder(settings, batches, repositoryUrl, meta, accepted, report)
  {
    var posts: seq<Request> := [];
    var totalResources, totalBatches := 0, 0;
    for batchIdx := 0 to |batches|
      invariant totalBatches == batchIdx
      invariant totalResources == RecordCount(batches, batchIdx)
      invariant dryRun ==> posts == []
      invariant !dryRun ==> posts == PostsBefore(settings, batches, batchIdx, repositoryUrl, meta, accepted)
      invariant !dryRun ==> DeliveredBefore(settings, meta, batchIdx, accepted)
    {
      var batch := batches[batchIdx];
      totalResources := totalResources + |batch|;
      totalBatches := totalBatches + 1;
      if !dryRun {
        var sent, error := SendSingleBatch(settings, batch, batchIdx, repositoryUrl, meta, accepted);
        posts := posts + sent;
        if error.Some? {
          return SendReport(posts, totalResources, totalBatches, error);
        }
      }
    }
    report := SendReport(posts, totalResources, totalBatches, None);
  }

  /**
   * `send_data_to_cxm(resource_list, repository_url, scan_metadata, dry_run)`.
   * Without dry-run an empty API key is refused before the stream is read; a
   * dry run counts the batches and never posts; otherwise the batches are
   * delivered in order until one raises, and an upstream exception surfaces
   * once every batch before it was delivered.
   */
  method SendDataToCxm(settings: Settings, upstream: Stream<Dict>, repositoryUrl: string, meta: map<string, string>,
                       dryRun: bool, accepted: (nat, nat) -> bool)
    returns (report: SendReport)
    ensures !dryRun && settings.apiKey == "" ==> report == SendReport([], 0, 0, Some(NotConfigured))
    ensures dryRun ==>
              var bs := Batches(upstream, BatchSize);
              report == SendReport([], RecordCount(bs.items, |bs.items|), |bs.items|, bs.error)
    ensures !dryRun && settings.apiKey != "" ==>
              var bs := Batches(upstream, BatchSize);
              || (SentInOrder(settings, bs.items, repositoryUrl, meta, accepted, report)
                  && (report.error.None? ==> bs.error.None?))
              || (SentInOrder(settings, bs.items, repositoryUrl, meta, accepted, report.(error := None))
                  && bs.error.Some? && report.error == bs.error)
  {
    if !dryRun && settings.apiKey == "" {
      return SendReport([], 0, 0, Some(NotConfigured));
    }
    var batches, upstreamError := BatchGenerator(upstream, BatchSize);
    report := DispatchBatches(settings, batches, repositoryUrl, meta, dryRun, accepted);
    if report.error.None? {
      report := report.(error := upstreamError);
    }
  }

  /**
   * When the upstream ends normally and no batch raises, the totals count
   * every record the upstream produced, in ceil(N / 1000) batches.
   */
  lemma AllDeliveredCountsEverything(settings: Settings, upstream: Stream<Dict>, repositoryUrl: string,
                                     meta: map<string, string>, accepted: (nat, nat) -> bool, report: SendReport)
    requires upstream.error == None
    requires SentInOrder(settings, Batches(upstream, BatchSize).items, repositoryUrl, meta, accepted, report)
    requires report.error == None
    ensures report.totalResources == |upstream.items|
    ensures report.totalBatches == |Batches(upstream, BatchSize).items|
  {
    var bs := Batches(upstream, BatchSize).items;
    BatchesConcat(upstream.items, None, BatchSize);
    RecordCountFlatten(bs, |bs|);
    assert bs[..|bs|] == bs;
  }

  /**
   * A configured key with an empty endpoint passes the entry check, and the
   * run then fails on its first batch without any POST; with no batches at
   * all it ends normally.
   */
  lemma EndpointMissingFailsAtFirstBatch(settings: Settings, batches: seq<seq<Dict>>, repositoryUrl: string,
                                         meta: map<string, string>, accepted: (nat, nat) -> bool, report: SendReport)
    requires settings.apiKey != "" && settings.endpoint == ""
    requires SentInOrder(settings, batches, repositoryUrl, meta, accepted, report)
    ensures batches != [] ==> report == SendReport([], |batches[0]|, 1, Some(NotConfigured))
    ensures batches == [] ==> report == SendReport([], 0, 0, None)
  {
    if batches != [] {
      assert RetryOutcome(settings, meta, 0, accepted).error == Some(NotConfigured);
      DeliveredBeforeEach(settings, meta, report.totalBatches - 1, accepted);
      assert report.totalBatches == 1;
      assert PostsBefore(settings, batches, 1, repositoryUrl, meta, accepted) == [];
      assert RecordCount(batches, 1) == |batches[0]|;
      assert report.error == Some(NotConfigured);
    }
  }
}
