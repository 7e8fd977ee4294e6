# cxm_iac_crawler in Dafny

A model of the core of `cxm_iac_crawler`, a crawler that reads the JSON state
`terraform show -json` prints for each Terraform entry point of a repository.
For each resource it:

1. redacts the sensitive values;
2. projects it onto the fields the CXM platform stores;
3. posts it, in batches, to the CXM events API.

The model covers three parts:

- **Redaction and flattening** (`unnest_tf_show.dfy`, module `UnnestTfShow`).
  - The configured key patterns and their self-check.
  - The lock-step walk of a resource's `values` tree against its
    `sensitive_values` marker tree.
  - The in-place update of a resource record.
  - The pre-order flattening of the module tree.
- **Pipeline glue** (`main_pipeline.dfy`, module `Crawler`).
  - CI platform detection and scan metadata, with the environment passed as
    a map.
  - The allow-list projection of resources.
  - The per-entry-point accounting loop of a repository scan. Each entry
    point's work is abstracted to its outcome.
- **Delivery** (`send_to_cxm.dfy`, module `SendToCxm`).
  - The batching generator.
  - The bounded retry loop of one batch. The HTTP client becomes an oracle
    `accepted(batchIndex, attempt)`, and the POSTs are returned as values.
  - The batch dispatch loop, with its dry-run branch.

Two shared modules support them:

- `json.dfy` (module `Json`) holds:
  - JSON values;
  - the exceptions the code raises;
  - generators that are driven to the end, written `Stream(items, error)`:
    what was yielded, then normal exhaustion or the exception raised.
- `text.dfy` (module `Text`) holds the `str` operations the code uses:
  - `in`;
  - `split`;
  - `strip()` and `strip('/')`;
  - `lower()`.

Imperative code is modelled imperatively:

- `remove_sensitive_data` is a method of the class `ResourceRecord`, and
  reassigns its `fields`.
- `_batch_generator`, `_send_single_batch`, the batch loop of
  `send_data_to_cxm` and the loop of `process_repository` are methods with
  loops.
- Each of those methods is proved against a specification function
  (`Batches`, `BatchDelivery`, `SentInOrder`, `ExpectedReport`), and the
  lemmas next to each function state what the code promises.

Where the repository's tests and its code disagree, the model follows the
code:

- The URL is the endpoint stripped of slashes plus `/ci/events/resources`
  (`cxm_iac_crawler/send_to_cxm.py:63`).
- A failing `terraform show` aborts the scan with that same error
  (`cxm_iac_crawler/main.py:188-191`).

## Model

| member | source | states |
|---|---|---|
| `Text.Contains` | cxm_iac_crawler/unnest_tf_show.py:29 | `p in s` holds iff some slice of `s` equals `p` |
| `Text.Split` | cxm_iac_crawler/unnest_tf_show.py:16 | `split(',')` gives at least one piece; no piece holds the separator; joining the pieces with it gives the input back |
| `Text.Strip` | cxm_iac_crawler/unnest_tf_show.py:16 | the stripped string is no longer than the input, and neither of its ends is a dropped character |
| `Text.StripIsMiddle` | cxm_iac_crawler/unnest_tf_show.py:16 | the stripped string is a middle slice of the input; only dropped characters lie before and after it |
| `Text.Lower` | cxm_iac_crawler/main.py:38 | `lower()` keeps the length and lower-cases each ASCII letter in place |
| `Text.LowerOfLowercase` | cxm_iac_crawler/main.py:38 | a string without ASCII capitals is unchanged by `lower()` |
| `UnnestTfShow.NonEmptyImages` | cxm_iac_crawler/unnest_tf_show.py:16 | the filtered comprehension `[f(x) for x in xs if f(x)]` is no longer than its input, and every value it keeps is non-empty |
| `UnnestTfShow.NonEmptyImagesKeepEvery` | cxm_iac_crawler/unnest_tf_show.py:16 | every input whose image is non-empty contributes that image |
| `UnnestTfShow.NonEmptyImagesOnlyImages` | cxm_iac_crawler/unnest_tf_show.py:16 | every value kept is the image of some input |
| `UnnestTfShow.StrippedNonEmpty` | cxm_iac_crawler/unnest_tf_show.py:16 | at most one entry per piece; every entry is non-empty, with no whitespace at either end |
| `UnnestTfShow.StrippedNonEmptyKeepsEvery` | cxm_iac_crawler/unnest_tf_show.py:16 | every piece whose strip is non-empty contributes that strip |
| `UnnestTfShow.StrippedNonEmptyOnlyStrips` | cxm_iac_crawler/unnest_tf_show.py:16 | every entry is the strip of some piece |
| `UnnestTfShow.StripKeepsOut` | cxm_iac_crawler/unnest_tf_show.py:16 | `strip()` adds no character: a character absent from a piece is absent from its strip |
| `UnnestTfShow.StrippedKeepsOut` | cxm_iac_crawler/unnest_tf_show.py:16 | stripping adds no character, so a comma absent from the pieces is absent from the patterns |
| `UnnestTfShow.SensitiveFields` | cxm_iac_crawler/unnest_tf_show.py:15-17 | the pattern list starts with "public_key"; every pattern is non-empty; each extra pattern is comma-free and stripped |
| `UnnestTfShow.SensitiveFieldsIncludeConfigured` | cxm_iac_crawler/unnest_tf_show.py:14-17 | every comma-separated piece of SENSITIVE_FIELDS with a non-empty strip is a pattern |
| `UnnestTfShow.SensitiveFieldsOnlyConfigured` | cxm_iac_crawler/unnest_tf_show.py:14-17 | every pattern after "public_key" is the strip of a comma-separated piece of SENSITIVE_FIELDS |
| `UnnestTfShow.ConfiguredPatternIsSensitive` | cxm_iac_crawler/unnest_tf_show.py:14-29 | a key that contains one of the configured (stripped, non-empty) pieces is sensitive |
| `UnnestTfShow.IsKeySensitive` | cxm_iac_crawler/unnest_tf_show.py:20-29 | a key is sensitive iff some pattern is a case-sensitive substring of it |
| `UnnestTfShow.FirstSensitive` | cxm_iac_crawler/unnest_tf_show.py:33-35 | finds the first field classified sensitive and none earlier; finds none iff no field is sensitive |
| `UnnestTfShow.CheckSensitiveFieldsConfig` | cxm_iac_crawler/unnest_tf_show.py:32-35 | the check passes iff none of "arn", "values", "address" is sensitive; otherwise it raises naming the first of them that is |
| `UnnestTfShow.EmptyKeyNotSensitive` | cxm_iac_crawler/unnest_tf_show.py:15-29 | for every SENSITIVE_FIELDS setting, the empty key is not sensitive |
| `UnnestTfShow.DefaultPatternOnly` | cxm_iac_crawler/unnest_tf_show.py:15-17 | an unset SENSITIVE_FIELDS gives the single pattern "public_key" |
| `UnnestTfShow.DefaultPatternSparesIdentity` | cxm_iac_crawler/unnest_tf_show.py:32-35 | "public_key" alone passes the self-check |
| `UnnestTfShow.DefaultConfiguration` | cxm_iac_crawler/unnest_tf_show.py:15-35 | the default configuration passes the self-check |
| `UnnestTfShow.DefaultPatternMatching` | cxm_iac_crawler/unnest_tf_show.py:20-29 | "public_key" and "aws_public_key_pair" are sensitive; "PUBLIC_KEY" and "" are not |
| `UnnestTfShow.OverbroadPatternRejected` | cxm_iac_crawler/unnest_tf_show.py:15-35 | SENSITIVE_FIELDS="ar" adds the pattern "ar", and the self-check then raises on "arn" |
| `UnnestTfShow.Walk` | cxm_iac_crawler/unnest_tf_show.py:64-102 | under a dict marker the copy has the value's keys, each sensitive-named one "**REDACTED**"; under a list marker it is a list of min(len(values), len(marker)) items; a `true` marker gives "**SENSITIVE**"; any other marker returns the value unchanged |
| `UnnestTfShow.RemoveSensitiveRecursive` | cxm_iac_crawler/unnest_tf_show.py:64-102 | the walk raises nothing exactly when the value fits the marker; a `true` marker gives "**SENSITIVE**"; a marker that is not a dict, a list or `true` returns the value unchanged |
| `UnnestTfShow.RedactObject` | cxm_iac_crawler/unnest_tf_show.py:80-91 | under a dict marker the output has the value's keys; a sensitive-named key becomes "**REDACTED**" whatever the marker says; a key in the marker is recursed on; every other key is copied; the walk fails iff the value is not a dict or a recursion fails |
| `UnnestTfShow.RedactList` | cxm_iac_crawler/unnest_tf_show.py:92-98 | under a list marker the output has min(len(values), len(marker)) items, item i being the recursion on value i and marker i |
| `UnnestTfShow.WalkIdempotent` | cxm_iac_crawler/unnest_tf_show.py:64-102 | redacting a redacted value again with the same marker succeeds and changes nothing |
| `UnnestTfShow.RedactIdempotent` | cxm_iac_crawler/unnest_tf_show.py:64-102 | `remove_sensitive_recursive` is idempotent for a fixed marker |
| `UnnestTfShow.RedactedObjectStable` | cxm_iac_crawler/unnest_tf_show.py:80-91 | an object redacted under a dict marker comes back unchanged when redacted again with `{}` |
| `UnnestTfShow.RedactionComplete` | cxm_iac_crawler/unnest_tf_show.py:64-102 | in the output every `true` marker position holds "**SENSITIVE**", and at every dict-marker level every sensitive-named key holds "**REDACTED**" |
| `UnnestTfShow.RedactedResource` | cxm_iac_crawler/unnest_tf_show.py:38-61 | a record without `values` raises KeyError; otherwise only `values` changes, to its redaction under `sensitive_values` (or `{}` when absent); the record fails iff that walk fails |
| `UnnestTfShow.ResourceRecord.RemoveSensitiveData` | cxm_iac_crawler/unnest_tf_show.py:38-61 | the record's fields become `RedactedResource` of the old fields; when that raises, the record is left as it was and the error is returned |
| `UnnestTfShow.Members` | cxm_iac_crawler/unnest_tf_show.py:118-119 | iterating a list yields its items; any other value yields no item |
| `UnnestTfShow.UnnestModule` | cxm_iac_crawler/unnest_tf_show.py:105-120 | a module that is not a dict raises before yielding; one without `resources` raises KeyError; its own resources' redactions come first, and a raise among them ends the module before its children |
| `UnnestTfShow.UnnestIsRedactedPreOrder` | cxm_iac_crawler/unnest_tf_show.py:105-120 | flattening a module is redaction, record by record, of its pre-order traversal (own resources, then each child in order), stopping at the first failure |
| `UnnestTfShow.FlattenCount` | cxm_iac_crawler/unnest_tf_show.py:105-120 | a flattening that ends normally yields one record per resource of the tree, in pre-order, each the redaction of that resource |
| `UnnestTfShow.PreOrderExample` | cxm_iac_crawler/unnest_tf_show.py:105-120 | on the tree root → [A, B], A → [C], the resources come as root, A, C, B |
| `UnnestTfShow.UnnestTfShow` | cxm_iac_crawler/unnest_tf_show.py:123-150 | a failed self-check raises before anything is yielded; output without `values`, or with no or a null `root_module`, yields nothing |
| `UnnestTfShow.UnnestTfShowIsRedactedPreOrder` | cxm_iac_crawler/unnest_tf_show.py:123-150 | after a passing self-check, with a non-null `root_module` in `values`, the output is the redaction, record by record, of that module's pre-order traversal, stopping at the first failure |
| `UnnestTfShow.UnnestTfShowYieldsRedacted` | cxm_iac_crawler/unnest_tf_show.py:123-150 | anything yielded means the self-check passed and `values` holds a non-null `root_module`; the k-th record yielded is the redaction of the k-th resource of that module's pre-order traversal |
| `Crawler.DetectCiPlatform` | cxm_iac_crawler/main.py:23-50 | a non-empty hint decides alone: its lower-case form if supported, else Unsupported with that form; otherwise GITHUB_ACTIONS == "true" gives github, then a non-empty GITLAB_CI gives gitlab, else generic; any result is supported |
| `Crawler.HintOverridesEnvironment` | cxm_iac_crawler/main.py:37-41 | with a non-empty hint the environment does not matter |
| `Crawler.MixedCaseHintAccepted` | cxm_iac_crawler/main.py:37-41 | the hint "GitHub" gives github |
| `Crawler.UnknownHintRejected` | cxm_iac_crawler/main.py:37-41 | the hint "jenkins" is rejected whatever the environment |
| `Crawler.DropNone` | cxm_iac_crawler/main.py:110 | the filter keeps exactly the keys whose value is not None, with their values |
| `Crawler.MetadataKeysDisjoint` | cxm_iac_crawler/main.py:69-107 | no platform-specific key overwrites a common one |
| `Crawler.LastSegment` | cxm_iac_crawler/main.py:85 | the last piece of `split("/")` holds no slash |
| `Crawler.BaseMetadata` | cxm_iac_crawler/main.py:69-74 | the common entries are exactly platform, scan_timestamp, crawler_version and run_id, all set |
| `Crawler.RepositoryName` | cxm_iac_crawler/main.py:85 | the GitHub repository name, when set, holds no slash |
| `Crawler.DefaultBranch` | cxm_iac_crawler/main.py:86-88 | the GitHub default branch, when set, is "main" or "master" |
| `Crawler.GithubFields` | cxm_iac_crawler/main.py:78-92 | the GitHub keys are exactly the eight listed; the default branch is main or master; the repository name has no slash |
| `Crawler.GitlabFields` | cxm_iac_crawler/main.py:93-104 | the GitLab keys are exactly the seven listed, and runner_os is "linux" |
| `Crawler.PlatformFields` | cxm_iac_crawler/main.py:77-107 | per platform, the keys added and the GitHub/GitLab facts above; generic adds none |
| `Crawler.CreateScanMetadata` | cxm_iac_crawler/main.py:53-110 | rejects exactly the unsupported platforms; the result has no None values, always holds the four common entries with the given values, and otherwise only the platform's keys |
| `Crawler.PlatformMetadataFacts` | cxm_iac_crawler/main.py:77-110 | generic metadata has only the common keys; gitlab's runner_os is linux; github's default branch and repository name keep their guarantees after filtering |
| `Crawler.Project` | cxm_iac_crawler/main.py:124-131 | the record's keys are (base_keys ∩ input keys) ∪ {values}, copied from the input; its values keys are values_keys ∩ input values keys, copied unchanged |
| `Crawler.SelectStep` | cxm_iac_crawler/main.py:114-132 | a record is kept iff it has `address` and a dict `values` holding `arn`, and then yields its projection, a projected record; it raises only when `values` is not a dict, and then with a shape error |
| `Crawler.SelectEssentialData` | cxm_iac_crawler/main.py:113-132 | when no record has a malformed `values`, selection yields the reference filter-and-project of its input, in order, and ends as its upstream ends |
| `Crawler.SelectKeepsExactlyIdentified` | cxm_iac_crawler/main.py:113-132 | for a dict-valued record the selection does not raise, and keeps it iff it has address, values and values.arn, yielding its projection |
| `Crawler.SelectedAreProjected` | cxm_iac_crawler/main.py:113-132 | every yielded record has address and values.arn and nothing outside the allow-lists, and is the projection of some input record |
| `Crawler.SelectionIdempotent` | cxm_iac_crawler/main.py:124-131 | a projected record is kept and projects to itself |
| `Crawler.KeptInOrder` | cxm_iac_crawler/main.py:113-132 | the reference filter-and-project is never longer than its input; every record in it is a projected record; it is empty iff no input record qualifies |
| `Crawler.SelectIsOrderedFilter` | cxm_iac_crawler/main.py:113-132 | without malformed `values`, selection is the in-order filter-and-project of its input and ends normally |
| `Crawler.ProcessShowOutput` | cxm_iac_crawler/main.py:135-138 | every record of the pipeline is a projected record; a failed pattern self-check is raised before anything is yielded |
| `Crawler.TallyTotal` | cxm_iac_crawler/main.py:177-196 | every outcome counts in exactly one of processed, errors and tool failures; errors is 0 iff no other failure occurred |
| `Crawler.FirstToolFailure` | cxm_iac_crawler/main.py:188-191 | the first tool failure and none before it; none iff there is no tool failure |
| `Crawler.ExpectedReport` | cxm_iac_crawler/main.py:166-199 | the scan reaches no more entry points than exist, and processed + errors never exceeds those reached |
| `Crawler.ReportAccounts` | cxm_iac_crawler/main.py:177-199 | without a tool failure every entry point is processed or counted as an error; the scan fails iff some other failure occurred, and completes iff all were delivered |
| `Crawler.ScanEntryPoints` | cxm_iac_crawler/main.py:177-199 | the loop's counters and verdict are `ExpectedReport`: it stops at the first tool failure, re-raising it after counting it as found; otherwise it visits all and fails iff errors > 0 |
| `Crawler.ProcessRepository` | cxm_iac_crawler/main.py:141-199 | an unsupported platform is refused before any entry point is visited; otherwise the report is that of the scan over the given paths, or the discovered ones when none are given |
| `SendToCxm.MaxRetries` | cxm_iac_crawler/send_to_cxm.py:15 | MAX_RETRIES is max(1, configured): at least 1 |
| `SendToCxm.RecordCountFlatten` | cxm_iac_crawler/send_to_cxm.py:111-113 | the running `total_resources` equals the number of records in the batches counted so far |
| `SendToCxm.BatchesFrom` | cxm_iac_crawler/send_to_cxm.py:21-27 | for a positive size, the batching ends the way its upstream ends |
| `SendToCxm.Batches` | cxm_iac_crawler/send_to_cxm.py:21-27 | a negative batch size raises (`islice` refuses it); a size of zero yields nothing and ends normally; a positive size ends as the upstream ends |
| `SendToCxm.BatchSizes` | cxm_iac_crawler/send_to_cxm.py:21-27 | every batch is non-empty with at most batch_size records; all but the last have exactly batch_size, and all do when the upstream raised |
| `SendToCxm.BatchesConcat` | cxm_iac_crawler/send_to_cxm.py:21-27 | the batches concatenate to a prefix of the upstream's records, missing fewer than batch_size; to all of them when the upstream ends normally |
| `SendToCxm.BatchCount` | cxm_iac_crawler/send_to_cxm.py:21-27 | no batch iff no records; otherwise ceil(N / batch_size) batches |
| `SendToCxm.TwentyFiveHundredRecords` | cxm_iac_crawler/send_to_cxm.py:14-27 | 2500 records make batches of 1000, 1000 and 500 |
| `SendToCxm.BatchGenerator` | cxm_iac_crawler/send_to_cxm.py:21-27 | the `while True` / `islice` loop yields exactly the `Batches` of its upstream and ends as they do |
| `SendToCxm.EventsUrl` | cxm_iac_crawler/send_to_cxm.py:63 | the URL ends with "/ci/events/resources", and what precedes it is no longer than the endpoint and has no slash at either end |
| `SendToCxm.EventsUrlKeepsEndpoint` | cxm_iac_crawler/send_to_cxm.py:63 | the URL is the endpoint with all leading and trailing slashes (and only those) removed, followed by "/ci/events/resources" |
| `SendToCxm.RecordsRoundTrip` | cxm_iac_crawler/send_to_cxm.py:51 | the batch written as a JSON list of objects reads back as the same records |
| `SendToCxm.PayloadJson` | cxm_iac_crawler/send_to_cxm.py:50-57 | the body has exactly the six keys; resources reads back as the payload's records; schema_version and scan_timestamp are the payload's; scan_metadata has the metadata's keys |
| `SendToCxm.BatchPayload` | cxm_iac_crawler/send_to_cxm.py:50-57 | the payload carries the batch and the metadata, with schema version 0 and the metadata's own scan_timestamp |
| `SendToCxm.PayloadCarriesBatch` | cxm_iac_crawler/send_to_cxm.py:50-57 | the body has exactly the six keys; resources reads back as the batch; schema_version is 0; scan_timestamp is the metadata's; scan_metadata has the metadata's keys |
| `SendToCxm.FirstAccepted` | cxm_iac_crawler/send_to_cxm.py:61-76 | an accepted attempt found is below the attempt limit |
| `SendToCxm.FirstAcceptedIsFirst` | cxm_iac_crawler/send_to_cxm.py:61-76 | an attempt is found iff one below the limit is accepted, and it is the first accepted one |
| `SendToCxm.RetryOutcome` | cxm_iac_crawler/send_to_cxm.py:47-76 | an attempt is made only when key, endpoint and scan_timestamp are all present |
| `SendToCxm.RetryBounds` | cxm_iac_crawler/send_to_cxm.py:47-76 | a missing key or endpoint raises with no attempt; otherwise 1..MAX_RETRIES attempts; success iff some attempt is accepted, ending right after the first accepted one; failure after exactly MAX_RETRIES attempts |
| `SendToCxm.BatchDelivery` | cxm_iac_crawler/send_to_cxm.py:30-76 | a batch's delivery raises exactly what the retry machine raises |
| `SendToCxm.ConfiguredBatchIsSent` | cxm_iac_crawler/send_to_cxm.py:47-64 | a configured batch is posted at least once, and every POST is the same URL, headers and payload |
| `SendToCxm.SendSingleBatch` | cxm_iac_crawler/send_to_cxm.py:30-76 | the retry loop makes exactly the POSTs of `BatchDelivery` and raises what it raises |
| `SendToCxm.DeliveredBeforeEach` | cxm_iac_crawler/send_to_cxm.py:111-124 | "the first n batches were delivered" means each batch below n was delivered |
| `SendToCxm.DispatchBatches` | cxm_iac_crawler/send_to_cxm.py:108-124 | a dry run counts every batch and record and posts nothing; otherwise batches go out in order with indices 0, 1, ...; the first batch that raises ends the loop with its exception; totals count exactly the batches reached |
| `SendToCxm.SendDataToCxm` | cxm_iac_crawler/send_to_cxm.py:79-132 | without dry run an empty key raises before the stream is read; a dry run never posts and surfaces the upstream's outcome; otherwise the batches are dispatched in order, and an upstream exception surfaces only once every earlier batch was delivered |
| `SendToCxm.AllDeliveredCountsEverything` | cxm_iac_crawler/send_to_cxm.py:108-124 | when nothing raises, total_resources is the number of records consumed and total_batches the number of batches |
| `SendToCxm.EndpointMissingFailsAtFirstBatch` | cxm_iac_crawler/send_to_cxm.py:97-124 | with a key but no endpoint the entry check passes, then the first batch raises the configuration error with no POST; no batches means a normal end |

## Left out

- Logging, and the informational and warning messages (including the dry-run
  warning about a missing key or endpoint) are not modelled.
- Environment variables read at import time are parameters:
  - SENSITIVE_FIELDS is the `env` string of `SensitiveFields`;
  - CXM_API_KEY, CXM_API_ENDPOINT and CXM_MAX_RETRIES are fields of
    `Settings`;
  - the GitHub and GitLab variables are an `Env` map.
  - Parsing CXM_MAX_RETRIES and CXM_TIMEOUT_SECONDS as integers is not
    modelled, nor is the ValueError for a non-numeric value.
- Inputs passed as values:
  - `datetime.now`, `uuid4` and `importlib.metadata.version` are the
    `timestamp`, `runId` and `crawlerVersion` parameters;
  - `terraform show` is a JSON value;
  - the HTTP client is the `accepted` oracle;
  - timeouts and the exception object of a failed POST are not modelled.
- Numbers in JSON are integers only; floats are not modelled.
- A Python dict is a Dafny map, so key insertion order is not modelled:
  - the order of keys in redacted and projected records;
  - the order of metadata entries.
- Text.Lower: lower-cases ASCII letters only; non-ASCII case mapping is not
  modelled.
- UnnestTfShow.RemoveSensitiveRecursive: a non-empty dict value under a
  non-empty list marker is reported as a failure, where Python zips the
  dict's keys with the marker and recurses on each key string.
- UnnestTfShow.ResourceRecord.RemoveSensitiveData: aliasing is not
  modelled. Python returns, and the flattener yields, the same dict object
  it updated; the model yields the record's value.
- Generators are modelled as finite, fully evaluated streams
  (`Stream(items, error)`):
  - `SendToCxm.SendDataToCxm` reads the whole upstream before the first POST,
    where Python interleaves reading and sending;
  - how much of the upstream a failing batch leaves unread is not observable;
  - the partial batch lost when the upstream raises inside `islice` is
    modelled.
- `main.py:198` raises `e`, which Python 3 has unbound by then, so the error
  raised is a NameError. The model records only the `Failed` verdict, not the
  exception's identity.
- The per-entry-point work of `process_repository` is abstracted to its
  outcome. Three modules, and two other operations, are not part of this
  model:
  - `compute_terraform_show.py` (runs subprocesses);
  - `find_entrypoints.py` (searches the filesystem; the discovered entry
    points are the `discovered` parameter);
  - `cli.py` (argument parsing and exit codes);
  - `process_show_output` is modelled, but feeding its stream into
    `send_data_to_cxm` per entry point is not connected;
  - the log line that reads `entry_point.parent` is not modelled.
