/**
 * The crawler's pipeline glue (cxm_iac_crawler/main.py): choosing the CI
 * platform, building scan metadata, projecting each resource onto the
 * fields the platform stores, and the per-entry-point accounting of a scan.
 * Environment variables are passed in as a map; a missing key is an unset
 * variable.
 */
module Crawler {
  import opened Json
  import Text
  import UnnestTfShow

  /** Top-level resource fields kept by the projection. */
  const BaseKeys: set<string> := {"address", "mode", "type", "name", "provider_name", "schema_version"}
  /** Fields of `values` kept by the projection. */
  const ValuesKeys: set<string> := {"arn", "description", "id", "name", "tags", "tags_all"}
  const SupportedPlatforms: set<string> := {"github", "gitlab", "generic"}

  type Env = map<string, string>

  /** `os.getenv(name)` */
  function Getenv(env: Env, name: string): Option<string>
  {
    if name in env then Some(env[name]) else None
  }

  /** Python truthiness of an optional string: set and non-empty. */
  predicate Truthy(v: Option<string>)
  {
    v.Some? && v.value != ""
  }

  // ---------------------------------------------------------------------
  // detect_ci_platform
  // ---------------------------------------------------------------------

  /**
   * `detect_ci_platform(hint)`: a non-empty hint decides alone (lower-cased,
   * and it must be supported); otherwise GITHUB_ACTIONS == "true" means
   * github, then a non-empty GITLAB_CI means gitlab, else generic.
   */
  function DetectCiPlatform(hint: Option<string>, env: Env): (r: Result<string, Fault>)
    ensures r.Success? ==> r.value in SupportedPlatforms
    ensures Truthy(hint) ==>
              && (r.Success? <==> Text.Lower(hint.value) in SupportedPlatforms)
              && (r.Success? ==> r.value == Text.Lower(hint.value))
              && (r.Failure? ==> r.error == Unsupported(Text.Lower(hint.value)))
    ensures !Truthy(hint) ==> r.Success?
    ensures !Truthy(hint) && Getenv(env, "GITHUB_ACTIONS") == Some("true") ==> r == Success("github")
    ensures !Truthy(hint) && Getenv(env, "GITHUB_ACTIONS") != Some("true") ==>
              (r == Success("gitlab") <==> Truthy(Getenv(env, "GITLAB_CI")))
    ensures !Truthy(hint) && Getenv(env, "GITHUB_ACTIONS") != Some("true") && !Truthy(Getenv(env, "GITLAB_CI")) ==>
              r == Success("generic")
  {
    if Truthy(hint) then
      var platform := Text.Lower(hint.value);
      if platform in SupportedPlatforms then Success(platform) else Failure(Unsupported(platform))
    else if Getenv(env, "GITHUB_ACTIONS") == Some("true") then
      Success("github")
    else if Truthy(Getenv(env, "GITLAB_CI")) then
      Success("gitlab")
    else
      Success("generic")
  }

  /** A non-empty hint overrides whatever the CI environment says. */
  lemma HintOverridesEnvironment(hint: string, env1: Env, env2: Env)
    requires hint != ""
    ensures DetectCiPlatform(Some(hint), env1) == DetectCiPlatform(Some(hint), env2)
  {
  }

  /** Hints are matched case-insensitively. */
  lemma MixedCaseHintAccepted(env: Env)
    ensures DetectCiPlatform(Some("GitHub"), env) == Success("github")
  {
    assert Text.Lower("GitHub") == "github" by {
      assert forall k :: 0 <= k < 6 ==> Text.Lower("GitHub")[k] == "github"[k];
    }
  }

  /** An unknown platform name is rejected, even when the environment would choose one. */
  lemma UnknownHintRejected(env: Env)
    ensures DetectCiPlatform(Some("jenkins"), env) == Failure(Unsupported("jenkins"))
  {
    Text.LowerOfLowercase("jenkins");
  }

  // ---------------------------------------------------------------------
  // create_scan_metadata
  // ---------------------------------------------------------------------

  /** The dict comprehension that drops the entries whose value is None. */
  function DropNone(m: map<string, Option<string>>): (r: map<string, string>)
    ensures forall k :: k in r <==> k in m && m[k].Some?
    ensures forall k :: k in r ==> m[k] == Some(r[k])
  {
    map k | k in m && m[k].Some? :: m[k].value
  }

  /** Keys every scan metadata map carries. */
  const CommonMetadataKeys: set<string> := {"platform", "scan_timestamp", "crawler_version", "run_id"}

  /** Keys a platform may add on top of the common ones. */
  function PlatformMetadataKeys(platform: string): set<string>
  {
    if platform == "github" then
      {"workflow_id", "actor", "trigger_event", "repository_owner", "repository_name",
       "repository_default_branch", "runner_os", "runner_arch"}
    else if platform == "gitlab" then
      {"workflow_id", "actor", "trigger_event", "repository_owner", "repository_name",
       "repository_default_branch", "runner_os"}
    else
      {}
  }

  /** No platform-specific key shadows a common one. */
  lemma MetadataKeysDisjoint(platform: string)
    ensures CommonMetadataKeys !! PlatformMetadataKeys(platform)
  {
  }

  /** Last piece of `s.split("/")`. */
  function LastSegment(s: string): (r: string)
    ensures '/' !in r
  {
    var parts := Text.Split(s, '/');
    parts[|parts| - 1]
  }

  /** The entries every platform shares, all of them set. */
  function BaseMetadata(platform: string, timestamp: string, crawlerVersion: string, runId: string)
    : (r: map<string, Option<string>>)
    ensures r.Keys == CommonMetadataKeys
    ensures r["platform"] == Some(platform) && r["scan_timestamp"] == Some(timestamp)
    ensures r["crawler_version"] == Some(crawlerVersion) && r["run_id"] == Some(runId)
  {
    map[
      "platform" := Some(platform),
      "scan_timestamp" := Some(timestamp),
      "crawler_version" := Some(crawlerVersion),
      "run_id" := Some(runId)]
  }

  /** The last path segment of a non-empty GITHUB_REPOSITORY ("owner/name"). */
  function RepositoryName(env: Env): (r: Option<string>)
    ensures r.Some? ==> '/' !in r.value
  {
    var repo := Getenv(env, "GITHUB_REPOSITORY");
    if Truthy(repo) then Some(LastSegment(repo.value)) else None
  }

  /** GITHUB_REF_NAME, kept only when it names one of the two usual default branches. */
  function DefaultBranch(env: Env): (r: Option<string>)
    ensures r.Some? ==> r.value in {"main", "master"}
  {
    var ref := Getenv(env, "GITHUB_REF_NAME");
    if ref == Some("main") || ref == Some("master") then ref else None
  }

  /** The GitHub Actions entries (main.py reads them from the GITHUB_* and RUNNER_* variables). */
  function GithubFields(env: Env): (r: map<string, Option<string>>)
    ensures r.Keys == PlatformMetadataKeys("github")
    ensures r["repository_default_branch"].Some? ==> r["repository_default_branch"].value in {"main", "master"}
    ensures r["repository_name"].Some? ==> '/' !in r["repository_name"].value
  {
    var r := map[
      "workflow_id" := Getenv(env, "GITHUB_WORKFLOW"),
      "actor" := Getenv(env, "GITHUB_ACTOR"),
      "trigger_event" := Getenv(env, "GITHUB_EVENT_NAME"),
      "repository_owner" := Getenv(env, "GITHUB_REPOSITORY_OWNER"),
      "runner_os" := Getenv(env, "RUNNER_OS"),
      "runner_arch" := Getenv(env, "RUNNER_ARCH"),
      "repository_name" := RepositoryName(env),
      "repository_default_branch" := DefaultBranch(env)];
    assert r["repository_name"] == RepositoryName(env);
    r
  }

  /** The GitLab CI entries; the runner is always reported as Linux. */
  function GitlabFields(env: Env): (r: map<string, Option<string>>)
    ensures r.Keys == PlatformMetadataKeys("gitlab")
    ensures r["runner_os"] == Some("linux")
  {
    map[
      "workflow_id" := Getenv(env, "CI_PIPELINE_ID"),
      "actor" := Getenv(env, "GITLAB_USER_LOGIN"),
      "trigger_event" := Getenv(env, "CI_PIPELINE_SOURCE"),
      "repository_owner" := Getenv(env, "CI_PROJECT_NAMESPACE"),
      "repository_name" := Getenv(env, "CI_PROJECT_NAME"),
      "repository_default_branch" := Getenv(env, "CI_DEFAULT_BRANCH"),
      "runner_os" := Some("linux")]
  }

  /** The platform-specific entries before None values are dropped; the generic platform adds none. */
  function PlatformFields(platform: string, env: Env): (r: map<string, Option<string>>)
    ensures r.Keys == PlatformMetadataKeys(platform)
    ensures platform == "github" && r["repository_default_branch"].Some? ==>
              r["repository_default_branch"].value in {"main", "master"}
    ensures platform == "github" && r["repository_name"].Some? ==> '/' !in r["repository_name"].value
    ensures platform == "gitlab" ==> r["runner_os"] == Some("linux")
  {
    if platform == "github" then GithubFields(env)
    else if platform == "gitlab" then GitlabFields(env)
    else map[]
  }

  /**
   * `create_scan_metadata(platform)`, with the clock reading, the random run
   * id and the environment as parameters. The result never holds a null:
   * unset variables leave their key out.
   */
  function CreateScanMetadata(platform: string, timestamp: string, crawlerVersion: string, runId: string, env: Env)
    : (r: Result<map<string, string>, Fault>)
    ensures platform !in SupportedPlatforms <==> r == Failure(Unsupported(platform))
    ensures r.Success? ==>
              && CommonMetadataKeys <= r.value.Keys <= CommonMetadataKeys + PlatformMetadataKeys(platform)
              && r.value["platform"] == platform && r.value["scan_timestamp"] == timestamp
              && r.value["crawler_version"] == crawlerVersion && r.value["run_id"] == runId
  {
    if platform !in SupportedPlatforms then
      Failure(Unsupported(platform))
    else
      var base := BaseMetadata(platform, timestamp, crawlerVersion, runId);
      var fields := PlatformFields(platform, env);
      MetadataKeysDisjoint(platform);
      var full := base + fields;
      assert forall k :: k in base ==> full[k] == base[k];
      Success(DropNone(full))
  }

  /** Platform-specific guarantees of the metadata: only supported values survive the filter. */
  lemma PlatformMetadataFacts(platform: string, timestamp: string, crawlerVersion: string, runId: string, env: Env)
    requires platform in SupportedPlatforms
    ensures var meta := CreateScanMetadata(platform, timestamp, crawlerVersion, runId, env).value;
            && (platform == "generic" ==> meta.Keys == CommonMetadataKeys)
            && (platform == "gitlab" ==> meta["runner_os"] == "linux")
            && (platform == "github" && "repository_default_branch" in meta ==>
                  meta["repository_default_branch"] in {"main", "master"})
            && (platform == "github" && "repository_name" in meta ==> '/' !in meta["repository_name"])
  {
    var full := BaseMetadata(platform, timestamp, crawlerVersion, runId) + PlatformFields(platform, env);
    assert CreateScanMetadata(platform, timestamp, crawlerVersion, runId, env).value == DropNone(full);
    assert forall k :: k in PlatformMetadataKeys(platform) ==> full[k] == PlatformFields(platform, env)[k];
  }

  // ---------------------------------------------------------------------
  // select_essential_data
  // ---------------------------------------------------------------------

  /**
   * The record built for a kept resource: the base keys the resource has,
   * plus `values` holding only the allow-listed fields of its values.
   */
  function Project(resource: Dict, values: Dict): (r: Dict)
    ensures r.Keys == (BaseKeys * resource.Keys) + {"values"}
    ensures forall k :: k in BaseKeys * resource.Keys ==> r[k] == resource[k]
    ensures r["values"].Obj? && r["values"].fields.Keys == ValuesKeys * values.Keys
    ensures forall k :: k in ValuesKeys * values.Keys ==> r["values"].fields[k] == values[k]
  {
    (map k | k in resource && k in BaseKeys :: resource[k])["values" := Obj(map k | k in values && k in ValuesKeys :: values[k])]
  }

  /**
   * One iteration of `select_essential_data`. Python's `"arn" in values`
   * also runs on a str (substring) or a list (membership) and raises on
   * other scalars; a non-dict that passes the test then fails when indexed
   * by key.
   */
  function SelectStep(resource: Dict): (r: Step<Dict>)
    ensures r.Emit? <==>
              "address" in resource && "values" in resource && resource["values"].Obj?
              && "arn" in resource["values"].fields
    ensures r.Emit? ==> r.value == Project(resource, resource["values"].fields) && ProjectedRecord(r.value)
    ensures r.Stop? ==>
              r.fault == ShapeMismatch && "address" in resource && "values" in resource && !resource["values"].Obj?
  {
    if "address" !in resource || "values" !in resource then
      Skip
    else
      match resource["values"]
      case Obj(vf) => if "arn" in vf then Emit(Project(resource, vf)) else Skip
      case Str(s) => if Text.Contains(s, "arn") then Stop(ShapeMismatch) else Skip
      case Arr(xs) => if Str("arn") in xs then Stop(ShapeMismatch) else Skip
      case _ => Stop(ShapeMismatch)
  }

  /** `select_essential_data(resource_list)` over the upstream generator. */
  function SelectEssentialData(resources: Stream<Dict>): (r: Stream<Dict>)
    ensures (forall i :: 0 <= i < |resources.items| ==> !SelectStep(resources.items[i]).Stop?) ==>
              r == Stream(KeptInOrder(resources.items), resources.error)
  {
    var r := PipeStream(SelectStep, resources);
    assert (forall i :: 0 <= i < |resources.items| ==> !SelectStep(resources.items[i]).Stop?) ==>
             r == Stream(KeptInOrder(resources.items), resources.error) by {
      if forall i :: 0 <= i < |resources.items| ==> !SelectStep(resources.items[i]).Stop? {
        SelectIsOrderedFilter(resources.items);
      }
    }
    r
  }

  /** A dict-valued record is kept iff it has `address`, `values` and `values["arn"]`. */
  lemma SelectKeepsExactlyIdentified(resource: Dict)
    requires "values" in resource ==> resource["values"].Obj?
    ensures !SelectStep(resource).Stop?
    ensures SelectStep(resource).Emit? <==>
              "address" in resource && "values" in resource && "arn" in resource["values"].fields
    ensures SelectStep(resource).Emit? ==>
              SelectStep(resource).value == Project(resource, resource["values"].fields)
  {
  }

  /** The shape of every record the projection produces. */
  predicate ProjectedRecord(r: Dict)
  {
    && r.Keys <= BaseKeys + {"values"}
    && "address" in r && "values" in r
    && r["values"].Obj? && r["values"].fields.Keys <= ValuesKeys && "arn" in r["values"].fields
  }

  /** Selection only ever yields projected records, and each is the projection of its input. */
  lemma SelectedAreProjected(resources: Stream<Dict>, k: int)
    requires 0 <= k < |SelectEssentialData(resources).items|
    ensures ProjectedRecord(SelectEssentialData(resources).items[k])
    ensures exists i :: 0 <= i < |resources.items| && "values" in resources.items[i] && resources.items[i]["values"].Obj?
              && SelectEssentialData(resources).items[k] == Project(resources.items[i], resources.items[i]["values"].fields)
  {
    PipeEmitted(SelectStep, resources.items, k);
  }

  /** Projection is idempotent: a projected record is kept and comes back unchanged. */
  lemma SelectionIdempotent(r: Dict)
    requires ProjectedRecord(r)
    ensures SelectStep(r) == Emit(r)
  {
    var p := Project(r, r["values"].fields);
    assert p["values"].fields == r["values"].fields;
    assert p == r;
  }

  /** Reference definition: the kept records, projected, in input order. */
  function KeptInOrder(resources: seq<Dict>): (r: seq<Dict>)
    ensures |r| <= |resources|
    ensures forall k :: 0 <= k < |r| ==> ProjectedRecord(r[k])
    ensures r == [] <==> forall i :: 0 <= i < |resources| ==> !SelectStep(resources[i]).Emit?
  {
    if resources == [] then []
    else
      var rest := KeptInOrder(resources[1..]);
      match SelectStep(resources[0])
      case Emit(p) => [p] + rest
      case _ => rest
  }

  /**
   * When no record has a malformed `values`, selection is exactly the
   * in-order filter-and-project of its input, and the upstream outcome is
   * passed on.
   */
  lemma {:induction false} SelectIsOrderedFilter(resources: seq<Dict>)
    requires forall i :: 0 <= i < |resources| ==> !SelectStep(resources[i]).Stop?
    ensures Pipe(SelectStep, resources) == Stream(KeptInOrder(resources), None)
    decreases |resources|
  {
    if resources != [] {
      SelectIsOrderedFilter(resources[1..]);
    }
  }

  /** `process_show_output(show_output)`: flattening followed by selection. */
  function ProcessShowOutput(patterns: seq<string>, show: Dict): (r: Stream<Dict>)
    ensures forall k :: 0 <= k < |r.items| ==> ProjectedRecord(r.items[k])
    ensures UnnestTfShow.CheckSensitiveFieldsConfig(patterns).Some? ==>
              r == Stream([], UnnestTfShow.CheckSensitiveFieldsConfig(patterns))
  {
    var r := SelectEssentialData(UnnestTfShow.UnnestTfShow(patterns, show));
    forall k | 0 <= k < |r.items| ensures ProjectedRecord(r.items[k]) {
      SelectedAreProjected(UnnestTfShow.UnnestTfShow(patterns, show), k);
    }
    r
  }

  // ---------------------------------------------------------------------
  // process_repository
  // ---------------------------------------------------------------------

  /** What happened to one entry point's show / flatten / send sequence. */
  datatype EntryOutcome =
    | Delivered       // every batch was sent (or the run is a dry run)
    | ToolFailure     // `terraform show` failed (CalledProcessError)
    | OtherFailure    // any other exception

  /** How the scan ended. */
  datatype Verdict =
    | Completed            // returned normally
    | Failed               // raised after the loop because some entry point failed
    | Aborted(entry: nat)  // re-raised the tool failure of this entry point
    | Rejected(fault: Fault)  // the platform was refused before any entry point

  datatype RunReport = RunReport(found: nat, processed: nat, errors: nat, verdict: Verdict)

  /** Number of the first `n` outcomes equal to `o`. */
  function Tally(outcomes: seq<EntryOutcome>, n: nat, o: EntryOutcome): nat
    requires n <= |outcomes|
  {
    if n == 0 then 0 else Tally(outcomes, n - 1, o) + (if outcomes[n - 1] == o then 1 else 0)
  }

  /** Every one of the first `n` outcomes falls in exactly one of the three tallies. */
  lemma {:induction false} TallyTotal(outcomes: seq<EntryOutcome>, n: nat)
    requires n <= |outcomes|
    ensures Tally(outcomes, n, Delivered) + Tally(outcomes, n, OtherFailure) + Tally(outcomes, n, ToolFailure) == n
    ensures Tally(outcomes, n, OtherFailure) == 0 <==> forall j :: 0 <= j < n ==> outcomes[j] != OtherFailure
  {
    if n > 0 {
      TallyTotal(outcomes, n - 1);
    }
  }

  /** Position of the first tool failure, if any. */
  function FirstToolFailure(outcomes: seq<EntryOutcome>): (r: Option<nat>)
    ensures r.None? <==> forall j :: 0 <= j < |outcomes| ==> outcomes[j] != ToolFailure
    ensures r.Some? ==> r.value < |outcomes| && outcomes[r.value] == ToolFailure
                        && forall j :: 0 <= j < r.value ==> outcomes[j] != ToolFailure
  {
    if outcomes == [] then None
    else if outcomes[0] == ToolFailure then Some(0)
    else
      match FirstToolFailure(outcomes[1..])
      case None => None
      case Some(k) => Some(k + 1)
  }

  /** A tool failure preceded only by other outcomes is the first one. */
  lemma FirstToolFailureAt(outcomes: seq<EntryOutcome>, i: nat)
    requires i < |outcomes| && outcomes[i] == ToolFailure
    requires forall j :: 0 <= j < i ==> outcomes[j] != ToolFailure
    ensures FirstToolFailure(outcomes) == Some(i)
  {
  }

  /** The entry points the scan walks: the given paths, or the discovered ones when none are given. */
  function EntryPoints(paths: seq<string>, discovered: seq<string>): seq<string>
  {
    if |paths| > 0 then paths else discovered
  }

  /**
   * The counters of the scan over the entry points' outcomes: the loop stops
   * right after the first tool failure; otherwise it visits every entry point.
   */
  function ExpectedReport(outcomes: seq<EntryOutcome>): (r: RunReport)
    ensures r.found <= |outcomes| && r.processed + r.errors <= r.found
  {
    match FirstToolFailure(outcomes)
    case Some(k) =>
      TallyTotal(outcomes, k);
      RunReport(k + 1, Tally(outcomes, k, Delivered), Tally(outcomes, k, OtherFailure), Aborted(k))
    case None =>
      var errors := Tally(outcomes, |outcomes|, OtherFailure);
      TallyTotal(outcomes, |outcomes|);
      RunReport(|outcomes|, Tally(outcomes, |outcomes|, Delivered), errors, if errors > 0 then Failed else Completed)
  }

  /**
   * Without a tool failure every entry point is attempted and ends either
   * delivered or counted as an error; the scan fails iff some entry point
   * failed.
   */
  lemma ReportAccounts(outcomes: seq<EntryOutcome>)
    requires ToolFailure !in outcomes
    ensures ExpectedReport(outcomes).processed + ExpectedReport(outcomes).errors == |outcomes|
    ensures ExpectedReport(outcomes).verdict == Failed <==> OtherFailure in outcomes
    ensures ExpectedReport(outcomes).verdict == Completed <==> forall i :: 0 <= i < |outcomes| ==> outcomes[i] == Delivered
  {
    TallyTotal(outcomes, |outcomes|);
    assert Tally(outcomes, |outcomes|, ToolFailure) == 0 by {
      TallyZero(outcomes, |outcomes|, ToolFailure);
    }
  }

  /** An outcome that never occurs has a zero tally. */
  lemma {:induction false} TallyZero(outcomes: seq<EntryOutcome>, n: nat, o: EntryOutcome)
    requires n <= |outcomes| && o !in outcomes
    ensures Tally(outcomes, n, o) == 0
  {
    if n > 0 {
      TallyZero(outcomes, n - 1, o);
    }
  }

  /**
   * The loop of `process_repository`: counts every entry point it reaches,
   * counts successes and other failures, and re-raises the first tool
   * failure at once.
   */
  method ScanEntryPoints(entryPoints: seq<string>, outcome: string -> EntryOutcome) returns (report: RunReport)
    ensures report == ExpectedReport(MapSeq(outcome, entryPoints))
  {
    ghost var outcomes := MapSeq(outcome, entryPoints);
    var found, processed, errors := 0, 0, 0;
    for i := 0 to |entryPoints|
      invariant found == i
      invariant forall j :: 0 <= j < i ==> outcomes[j] != ToolFailure
      invariant processed == Tally(outcomes, i, Delivered)
      invariant errors == Tally(outcomes, i, OtherFailure)
    {
      var result := outcome(entryPoints[i]);
      assert result == outcomes[i];
      found := found + 1;
      match result
      case Delivered =>
        processed := processed + 1;
      case ToolFailure =>
        FirstToolFailureAt(outcomes, i);
        assert ExpectedReport(outcomes) == RunReport(i + 1, processed, errors, Aborted(i));
        return RunReport(found, processed, errors, Aborted(i));
      case OtherFailure =>
        errors := errors + 1;
    }
    assert FirstToolFailure(outcomes) == None;
    assert ExpectedReport(outcomes) == RunReport(found, processed, errors, if errors > 0 then Failed else Completed);
    report := RunReport(found, processed, errors, if errors > 0 then Failed else Completed);
  }

  /**
   * `process_repository(...)` with the per-entry-point work abstracted to
   * its outcome. The scan metadata is created first, so an unsupported
   * platform is refused before any entry point is looked at.
   */
  method ProcessRepository(platform: string, timestamp: string, crawlerVersion: string, runId: string, env: Env,
                           paths: seq<string>, discovered: seq<string>, outcome: string -> EntryOutcome)
    returns (report: RunReport)
    ensures platform !in SupportedPlatforms ==> report == RunReport(0, 0, 0, Rejected(Unsupported(platform)))
    ensures platform in SupportedPlatforms ==>
              report == ExpectedReport(MapSeq(outcome, EntryPoints(paths, discovered)))
  {
    var metadata := CreateScanMetadata(platform, timestamp, crawlerVersion, runId, env);
    if metadata.Failure? {
      return RunReport(0, 0, 0, Rejected(metadata.error));
    }
    var entryPoints := if |paths| > 0 then paths else discovered;
    report := ScanEntryPoints(entryPoints, outcome);
  }
}
