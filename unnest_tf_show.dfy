/**
 * Redaction and flattening of `terraform show -json` output
 * (cxm_iac_crawler/unnest_tf_show.py).
 *
 * A resource's `values` tree is walked in lock-step with its
 * `sensitive_values` marker tree; keys whose names contain a configured
 * pattern are replaced wholesale; the module tree is flattened pre-order.
 */
module UnnestTfShow {
  import opened Json
  import Text

  /** Replacement for a subtree the marker tree flags with `true`. */
  const SensitiveSentinel: string := "**SENSITIVE**"
  /** Replacement for the value of a key whose name matches a pattern. */
  const RedactedSentinel: string := "**REDACTED**"
  /** The built-in pattern, always first in the pattern list. */
  const DefaultPattern: string := "public_key"
  /** Fields the rest of the pipeline needs; no pattern may match them. */
  const IdentityFields: seq<string> := ["arn", "values", "address"]

  // ---------------------------------------------------------------------
  // Pattern configuration and the key classifier
  // ---------------------------------------------------------------------

  /** The non-empty values of `f` on `xs`, in order: `[f(x) for x in xs if f(x)]`. */
  function NonEmptyImages(f: string -> string, xs: seq<string>): (r: seq<string>)
    ensures |r| <= |xs|
    ensures forall k :: 0 <= k < |r| ==> r[k] != []
  {
    if xs == [] then
      []
    else
      (if f(xs[0]) != [] then [f(xs[0])] else []) + NonEmptyImages(f, xs[1..])
  }

  /** Every entry whose image is non-empty contributes that image. */
  lemma {:induction false} NonEmptyImagesKeepEvery(f: string -> string, xs: seq<string>, j: nat)
    requires j < |xs| && f(xs[j]) != []
    ensures f(xs[j]) in NonEmptyImages(f, xs)
  {
    if j > 0 {
      assert xs[1..][j - 1] == xs[j];
      NonEmptyImagesKeepEvery(f, xs[1..], j - 1);
    }
  }

  /** Each value of NonEmptyImages is the image of some entry. */
  lemma {:induction false} NonEmptyImagesOnlyImages(f: string -> string, xs: seq<string>, k: nat)
    requires k < |NonEmptyImages(f, xs)|
    ensures exists j :: 0 <= j < |xs| && NonEmptyImages(f, xs)[k] == f(xs[j])
  {
    var rest := NonEmptyImages(f, xs[1..]);
    if f(xs[0]) != [] && k == 0 {
      assert NonEmptyImages(f, xs)[0] == f(xs[0]);
    } else {
      var k' := if f(xs[0]) != [] then k - 1 else k;
      assert NonEmptyImages(f, xs)[k] == rest[k'];
      NonEmptyImagesOnlyImages(f, xs[1..], k');
      var j :| 0 <= j < |xs[1..]| && rest[k'] == f(xs[1..][j]);
      assert xs[1..][j] == xs[j + 1];
    }
  }

  /** `[f.strip() for f in fields if f.strip()]`: the non-empty strips of the pieces. */
  function StrippedNonEmpty(fields: seq<string>): (r: seq<string>)
    ensures |r| <= |fields|
    ensures forall k :: 0 <= k < |r| ==>
              r[k] != [] && !Text.IsSpace(r[k][0]) && !Text.IsSpace(r[k][|r[k]| - 1])
  {
    var strip := (f: string) => Text.Strip(f, Text.IsSpace);
    var r := NonEmptyImages(strip, fields);
    assert forall k :: 0 <= k < |r| ==> !Text.IsSpace(r[k][0]) && !Text.IsSpace(r[k][|r[k]| - 1]) by {
      forall k | 0 <= k < |r| ensures !Text.IsSpace(r[k][0]) && !Text.IsSpace(r[k][|r[k]| - 1]) {
        NonEmptyImagesOnlyImages(strip, fields, k);
      }
    }
    r
  }

  /** Every piece whose strip is non-empty contributes that strip. */
  lemma StrippedNonEmptyKeepsEvery(fields: seq<string>, j: nat)
    requires j < |fields| && Text.Strip(fields[j], Text.IsSpace) != []
    ensures Text.Strip(fields[j], Text.IsSpace) in StrippedNonEmpty(fields)
  {
    NonEmptyImagesKeepEvery((f: string) => Text.Strip(f, Text.IsSpace), fields, j);
  }

  /** Each entry of StrippedNonEmpty is the strip of some piece. */
  lemma StrippedNonEmptyOnlyStrips(fields: seq<string>, k: nat)
    requires k < |StrippedNonEmpty(fields)|
    ensures exists j :: 0 <= j < |fields| && StrippedNonEmpty(fields)[k] == Text.Strip(fields[j], Text.IsSpace)
  {
    NonEmptyImagesOnlyImages((f: string) => Text.Strip(f, Text.IsSpace), fields, k);
  }

  /** Stripping a piece keeps only characters the piece already held. */
  lemma StripKeepsOut(f: string, c: char)
    requires c !in f
    ensures c !in Text.Strip(f, Text.IsSpace)
  {
    Text.StripIsMiddle(f, Text.IsSpace);
    var a, b :| Text.TrimmedAt(f, Text.IsSpace, a, b) && Text.Strip(f, Text.IsSpace) == f[a..b];
    assert forall i :: 0 <= i < b - a ==> f[a..b][i] == f[a + i];
  }

  /** No entry of StrippedNonEmpty holds a character that no piece holds. */
  lemma StrippedKeepsOut(fields: seq<string>, c: char)
    requires forall j :: 0 <= j < |fields| ==> c !in fields[j]
    ensures forall k :: 0 <= k < |StrippedNonEmpty(fields)| ==> c !in StrippedNonEmpty(fields)[k]
  {
    var r := StrippedNonEmpty(fields);
    forall k | 0 <= k < |r| ensures c !in r[k] {
      StrippedNonEmptyOnlyStrips(fields, k);
      var j :| 0 <= j < |fields| && r[k] == Text.Strip(fields[j], Text.IsSpace);
      StripKeepsOut(fields[j], c);
    }
  }

  /**
   * SENSITIVE_FIELDS: the built-in pattern followed by the non-empty,
   * stripped pieces of the comma-separated environment value `env`.
   */
  function SensitiveFields(env: string): (patterns: seq<string>)
    ensures |patterns| >= 1 && patterns[0] == DefaultPattern
    ensures forall k :: 0 <= k < |patterns| ==> patterns[k] != []
    ensures forall k :: 1 <= k < |patterns| ==>
              ',' !in patterns[k] && !Text.IsSpace(patterns[k][0]) && !Text.IsSpace(patterns[k][|patterns[k]| - 1])
  {
    var pieces := Text.Split(env, ',');
    var extra := StrippedNonEmpty(pieces);
    StrippedKeepsOut(pieces, ',');
    assert forall k :: 1 <= k < 1 + |extra| ==> ([DefaultPattern] + extra)[k] == extra[k - 1];
    [DefaultPattern] + extra
  }

  /** Every comma-separated piece of `env` with a non-empty strip is a pattern. */
  lemma SensitiveFieldsIncludeConfigured(env: string, j: nat)
    requires j < |Text.Split(env, ',')| && Text.Strip(Text.Split(env, ',')[j], Text.IsSpace) != []
    ensures Text.Strip(Text.Split(env, ',')[j], Text.IsSpace) in SensitiveFields(env)
  {
    var pieces := Text.Split(env, ',');
    var extra := StrippedNonEmpty(pieces);
    StrippedNonEmptyKeepsEvery(pieces, j);
    assert SensitiveFields(env) == [DefaultPattern] + extra;
  }

  /** Each pattern after the built-in one is the strip of a piece of `env`. */
  lemma SensitiveFieldsOnlyConfigured(env: string, k: nat)
    requires 1 <= k < |SensitiveFields(env)|
    ensures exists j :: 0 <= j < |Text.Split(env, ',')| && SensitiveFields(env)[k] == Text.Strip(Text.Split(env, ',')[j], Text.IsSpace)
  {
    var pieces := Text.Split(env, ',');
    assert SensitiveFields(env)[k] == StrippedNonEmpty(pieces)[k - 1];
    StrippedNonEmptyOnlyStrips(pieces, k - 1);
  }

  /** A key that contains one of the operator's configured patterns is sensitive. */
  lemma ConfiguredPatternIsSensitive(env: string, j: nat, key: string)
    requires j < |Text.Split(env, ',')|
    requires Text.Strip(Text.Split(env, ',')[j], Text.IsSpace) != []
    requires Text.Contains(key, Text.Strip(Text.Split(env, ',')[j], Text.IsSpace))
    ensures IsKeySensitive(SensitiveFields(env), key)
  {
    var patterns := SensitiveFields(env);
    SensitiveFieldsIncludeConfigured(env, j);
    var k :| 0 <= k < |patterns| && patterns[k] == Text.Strip(Text.Split(env, ',')[j], Text.IsSpace);
    assert Text.Contains(key, patterns[k]);
  }

  /** `is_key_sensitive`: some pattern is a case-sensitive substring of `key`. */
  function IsKeySensitive(patterns: seq<string>, key: string): (r: bool)
    ensures r <==> exists k :: 0 <= k < |patterns| && Text.Contains(key, patterns[k])
  {
    if patterns == [] then
      false
    else
      var r := Text.Contains(key, patterns[0]) || IsKeySensitive(patterns[1..], key);
      assert forall k :: 1 <= k < |patterns| ==> patterns[k] == patterns[1..][k - 1];
      r
  }

  /** The first of `fields` that the patterns classify as sensitive. */
  function FirstSensitive(patterns: seq<string>, fields: seq<string>): (r: Option<nat>)
    ensures r.None? <==> forall j :: 0 <= j < |fields| ==> !IsKeySensitive(patterns, fields[j])
    ensures r.Some? ==> r.value < |fields| && IsKeySensitive(patterns, fields[r.value])
                        && forall j :: 0 <= j < r.value ==> !IsKeySensitive(patterns, fields[j])
  {
    if fields == [] then
      None
    else if IsKeySensitive(patterns, fields[0]) then
      Some(0)
    else
      match FirstSensitive(patterns, fields[1..])
      case None => None
      case Some(j) => Some(j + 1)
  }

  /**
   * `check_sensitive_fields_config`: raises SensitiveKeyError naming the
   * first of "arn", "values", "address" that a pattern matches.
   */
  function CheckSensitiveFieldsConfig(patterns: seq<string>): (r: Option<Fault>)
    ensures r.None? <==> forall j :: 0 <= j < |IdentityFields| ==> !IsKeySensitive(patterns, IdentityFields[j])
    ensures r.Some? ==> exists j :: 0 <= j < |IdentityFields| && r == Some(SensitiveKey(IdentityFields[j]))
                          && IsKeySensitive(patterns, IdentityFields[j])
                          && forall i :: 0 <= i < j ==> !IsKeySensitive(patterns, IdentityFields[i])
  {
    match FirstSensitive(patterns, IdentityFields)
    case None => None
    case Some(j) => Some(SensitiveKey(IdentityFields[j]))
  }

  /** With every pattern non-empty (as SensitiveFields guarantees), the empty key is never sensitive. */
  lemma EmptyKeyNotSensitive(env: string)
    ensures !IsKeySensitive(SensitiveFields(env), "")
  {
    var patterns := SensitiveFields(env);
    forall k | 0 <= k < |patterns| ensures !Text.Contains("", patterns[k]) {
      assert forall i :: !Text.OccursAt(patterns[k], "", i);
    }
  }

  /** Without SENSITIVE_FIELDS the only pattern is "public_key". */
  lemma DefaultPatternOnly()
    ensures SensitiveFields("") == [DefaultPattern]
  {
    assert Text.Split("", ',') == [""];
    assert Text.Strip("", Text.IsSpace) == "";
  }

  /** "public_key" is longer than every identity field, so it matches none of them. */
  lemma DefaultPatternSparesIdentity()
    ensures CheckSensitiveFieldsConfig([DefaultPattern]) == None
  {
    forall j | 0 <= j < |IdentityFields| ensures !IsKeySensitive([DefaultPattern], IdentityFields[j]) {
      assert |IdentityFields[j]| < |DefaultPattern|;
      assert !Text.Contains(IdentityFields[j], DefaultPattern);
    }
  }

  /** Without SENSITIVE_FIELDS the self-check passes. */
  lemma DefaultConfiguration()
    ensures CheckSensitiveFieldsConfig(SensitiveFields("")) == None
  {
    DefaultPatternOnly();
    DefaultPatternSparesIdentity();
  }

  /** Matching against the default pattern is by substring and case-sensitive. */
  lemma DefaultPatternMatching()
    ensures IsKeySensitive([DefaultPattern], "public_key")
    ensures IsKeySensitive([DefaultPattern], "aws_public_key_pair")
    ensures !IsKeySensitive([DefaultPattern], "PUBLIC_KEY")
    ensures !IsKeySensitive([DefaultPattern], "")
  {
    assert Text.OccursAt(DefaultPattern, "public_key", 0);
    assert "aws_public_key_pair"[4..14] == DefaultPattern;
    assert Text.OccursAt(DefaultPattern, "aws_public_key_pair", 4);
    assert "PUBLIC_KEY"[0] != DefaultPattern[0];
    assert !Text.Contains("PUBLIC_KEY", DefaultPattern);
  }

  /** An operator pattern such as "ar" makes the self-check fail on "arn". */
  lemma OverbroadPatternRejected()
    ensures SensitiveFields("ar") == [DefaultPattern, "ar"]
    ensures CheckSensitiveFieldsConfig(SensitiveFields("ar")) == Some(SensitiveKey("arn"))
  {
    assert Text.Split("ar", ',') == ["ar"];
    assert Text.LeadingCount("ar", Text.IsSpace) == 0;
    assert Text.TrailingCount("ar", Text.IsSpace) == 0;
    assert Text.Strip("ar", Text.IsSpace) == "ar";
    assert Text.OccursAt("ar", "arn", 0);
  }

  // ---------------------------------------------------------------------
  // remove_sensitive_recursive
  // ---------------------------------------------------------------------

  /**
   * What `zip(values, marker_list)` iterates on the value side: the items
   * of a list, or the one-character strings of a str.
   */
  function Elements(v: Value): seq<Value>
  {
    match v
    case Arr(xs) => xs
    case Str(s) => seq(|s|, i requires 0 <= i < |s| => Str([s[i]]))
    case _ => []
  }

  /** Number of pairs `zip(values, marker_list)` produces. */
  function ZipLength(v: Value, ms: seq<Value>): (n: nat)
    ensures n <= |ms| && n <= |Elements(v)|
  {
    if |Elements(v)| < |ms| then |Elements(v)| else |ms|
  }

  /**
   * `zip(values, marker_list)` can be taken: the value is a list or a str
   * (a dict only when nothing is zipped; scalars are not iterable).
   */
  predicate Zippable(v: Value, ms: seq<Value>)
  {
    v.Arr? || v.Str? || (v.Obj? && (v.fields == map[] || ms == []))
  }

  /**
   * The walk raises nothing: wherever the marker is a dict the value is a
   * dict, and wherever the marker is a list the value can be zipped with it.
   * Keys classified sensitive are never descended into.
   */
  predicate Redactable(patterns: seq<string>, v: Value, m: Value)
    decreases m
  {
    match m
    case Obj(mf) =>
      v.Obj? && forall k :: k in v.fields && !IsKeySensitive(patterns, k) && k in mf ==>
                  Redactable(patterns, v.fields[k], mf[k])
    case Arr(ms) =>
      Zippable(v, ms) && forall i :: 0 <= i < ZipLength(v, ms) ==> Redactable(patterns, Elements(v)[i], ms[i])
    case _ => true
  }

  /** The redacted copy built by `remove_sensitive_recursive` when nothing raises. */
  function Walk(patterns: seq<string>, v: Value, m: Value): (r: Value)
    requires Redactable(patterns, v, m)
    ensures m.Obj? ==> r.Obj? && r.fields.Keys == v.fields.Keys
    ensures m.Obj? ==> forall k :: k in v.fields && IsKeySensitive(patterns, k) ==> r.fields[k] == Str(RedactedSentinel)
    ensures m.Arr? ==> r.Arr? && |r.items| == ZipLength(v, m.items)
    ensures m == Bool(true) ==> r == Str(SensitiveSentinel)
    ensures !m.Obj? && !m.Arr? && m != Bool(true) ==> r == v
    decreases m
  {
    match m
    case Obj(mf) =>
      Obj(map k | k in v.fields ::
            if IsKeySensitive(patterns, k) then Str(RedactedSentinel)
            else if k in mf then Walk(patterns, v.fields[k], mf[k])
            else v.fields[k])
    case Arr(ms) =>
      var xs := Elements(v);
      var n := ZipLength(v, ms);
      Arr(seq(n, i requires 0 <= i < n => Walk(patterns, xs[i], ms[i])))
    case Bool(b) =>
      if b then Str(SensitiveSentinel) else v
    case _ => v
  }

  /**
   * `remove_sensitive_recursive(values, sensitive_values)`. A marker that is
   * exactly `true` gives the sensitive sentinel; a marker that is neither a
   * dict, a list nor `true` leaves the value as it is.
   */
  function RemoveSensitiveRecursive(patterns: seq<string>, v: Value, m: Value): (r: Result<Value, Fault>)
    ensures r.Success? <==> Redactable(patterns, v, m)
    ensures m == Bool(true) ==> r == Success(Str(SensitiveSentinel))
    ensures !m.Obj? && !m.Arr? && m != Bool(true) ==> r == Success(v)
  {
    if Redactable(patterns, v, m) then Success(Walk(patterns, v, m)) else Failure(ShapeMismatch)
  }

  /**
   * Under a dict marker the output has exactly the value's keys: a key with
   * a sensitive name is redacted whatever the marker says, a key the marker
   * lists is redacted recursively, and every other key is copied unchanged
   * (its subtree is not scanned for sensitive names).
   */
  lemma RedactObject(patterns: seq<string>, v: Value, mf: map<string, Value>)
    ensures RemoveSensitiveRecursive(patterns, v, Obj(mf)).Success? <==>
              v.Obj? && forall k :: k in v.fields && !IsKeySensitive(patterns, k) && k in mf ==>
                          RemoveSensitiveRecursive(patterns, v.fields[k], mf[k]).Success?
    ensures RemoveSensitiveRecursive(patterns, v, Obj(mf)).Success? ==>
              var out := RemoveSensitiveRecursive(patterns, v, Obj(mf)).value;
              && out.Obj? && out.fields.Keys == v.fields.Keys
              && (forall k :: k in v.fields && IsKeySensitive(patterns, k) ==> out.fields[k] == Str(RedactedSentinel))
              && (forall k :: k in v.fields && !IsKeySensitive(patterns, k) && k in mf ==>
                    RemoveSensitiveRecursive(patterns, v.fields[k], mf[k]) == Success(out.fields[k]))
              && (forall k :: k in v.fields && !IsKeySensitive(patterns, k) && k !in mf ==> out.fields[k] == v.fields[k])
  {
  }

  /**
   * Under a list marker the output is a list as long as the shorter of the
   * two, and item i is the redaction of value item i by marker item i.
   */
  lemma RedactList(patterns: seq<string>, xs: seq<Value>, ms: seq<Value>)
    ensures RemoveSensitiveRecursive(patterns, Arr(xs), Arr(ms)).Success? <==>
              forall i :: 0 <= i < |xs| && i < |ms| ==> RemoveSensitiveRecursive(patterns, xs[i], ms[i]).Success?
    ensures RemoveSensitiveRecursive(patterns, Arr(xs), Arr(ms)).Success? ==>
              var out := RemoveSensitiveRecursive(patterns, Arr(xs), Arr(ms)).value;
              && out.Arr?
              && |out.items| == (if |xs| < |ms| then |xs| else |ms|)
              && forall i :: 0 <= i < |out.items| ==> RemoveSensitiveRecursive(patterns, xs[i], ms[i]) == Success(out.items[i])
  {
  }

  /**
   * Redacting again with the same marker changes nothing: the sentinels are
   * stable, and the zip has already been truncated.
   */
  lemma {:induction false} WalkIdempotent(patterns: seq<string>, v: Value, m: Value)
    requires Redactable(patterns, v, m)
    ensures Redactable(patterns, Walk(patterns, v, m), m)
    ensures Walk(patterns, Walk(patterns, v, m), m) == Walk(patterns, v, m)
    decreases m
  {
    var r := Walk(patterns, v, m);
    match m
    case Obj(mf) =>
      forall k | k in r.fields && !IsKeySensitive(patterns, k) && k in mf
        ensures Redactable(patterns, r.fields[k], mf[k])
        ensures Walk(patterns, r.fields[k], mf[k]) == r.fields[k]
      {
        WalkIdempotent(patterns, v.fields[k], mf[k]);
      }
      assert Walk(patterns, r, m).fields == r.fields;
    case Arr(ms) =>
      var n := ZipLength(v, ms);
      assert Elements(r) == r.items && |r.items| == n;
      forall i | 0 <= i < n
        ensures Redactable(patterns, r.items[i], ms[i])
        ensures Walk(patterns, r.items[i], ms[i]) == r.items[i]
      {
        WalkIdempotent(patterns, Elements(v)[i], ms[i]);
      }
      assert Walk(patterns, r, m).items == r.items;
    case Bool(b) =>
    case Null =>
    case Int(_) =>
    case Str(_) =>
  }

  /** Idempotence of `remove_sensitive_recursive` for a fixed marker. */
  lemma RedactIdempotent(patterns: seq<string>, v: Value, m: Value)
    requires RemoveSensitiveRecursive(patterns, v, m).Success?
    ensures var r := RemoveSensitiveRecursive(patterns, v, m).value;
            RemoveSensitiveRecursive(patterns, r, m) == Success(r)
  {
    WalkIdempotent(patterns, v, m);
  }

  /**
   * An object already redacted under a dict marker comes back unchanged
   * when redacted again with an empty marker.
   */
  lemma RedactedObjectStable(patterns: seq<string>, v: Value, mf: map<string, Value>)
    requires RemoveSensitiveRecursive(patterns, v, Obj(mf)).Success?
    ensures var r := RemoveSensitiveRecursive(patterns, v, Obj(mf)).value;
            RemoveSensitiveRecursive(patterns, r, Obj(map[])) == Success(r)
  {
    var r := Walk(patterns, v, Obj(mf));
    assert Redactable(patterns, r, Obj(map[]));
    assert Walk(patterns, r, Obj(map[])).fields == r.fields;
  }

  /**
   * The redaction guarantee: wherever the marker is `true` the output is the
   * sensitive sentinel, and at every dict-marker level every key with a
   * sensitive name holds the redaction sentinel.
   */
  ghost predicate Sanitized(patterns: seq<string>, r: Value, m: Value)
    decreases m
  {
    match m
    case Obj(mf) =>
      r.Obj? && forall k :: k in r.fields ==>
        (IsKeySensitive(patterns, k) ==> r.fields[k] == Str(RedactedSentinel))
        && (!IsKeySensitive(patterns, k) && k in mf ==> Sanitized(patterns, r.fields[k], mf[k]))
    case Arr(ms) =>
      r.Arr? && |r.items| <= |ms| && forall i :: 0 <= i < |r.items| ==> Sanitized(patterns, r.items[i], ms[i])
    case Bool(b) => b ==> r == Str(SensitiveSentinel)
    case _ => true
  }

  lemma {:induction false} RedactionComplete(patterns: seq<string>, v: Value, m: Value)
    requires RemoveSensitiveRecursive(patterns, v, m).Success?
    ensures Sanitized(patterns, RemoveSensitiveRecursive(patterns, v, m).value, m)
    decreases m
  {
    var r := Walk(patterns, v, m);
    match m
    case Obj(mf) =>
      forall k | k in r.fields && !IsKeySensitive(patterns, k) && k in mf
        ensures Sanitized(patterns, r.fields[k], mf[k])
      {
        RedactionComplete(patterns, v.fields[k], mf[k]);
      }
    case Arr(ms) =>
      forall i | 0 <= i < |r.items| ensures Sanitized(patterns, r.items[i], ms[i]) {
        RedactionComplete(patterns, Elements(v)[i], ms[i]);
      }
    case Bool(b) =>
    case Null =>
    case Int(_) =>
    case Str(_) =>
  }

  // ---------------------------------------------------------------------
  // remove_sensitive_data
  // ---------------------------------------------------------------------

  /** The marker `remove_sensitive_data` uses: `sensitive_values`, or `{}` when absent. */
  function MarkerOf(resource: Dict): Value
  {
    if "sensitive_values" in resource then resource["sensitive_values"] else Obj(map[])
  }

  /**
   * The record `remove_sensitive_data` leaves behind: only `values` is
   * replaced, by its redaction under the record's own marker. A record
   * without `values` raises KeyError.
   */
  function RedactedResource(patterns: seq<string>, resource: Dict): (r: Result<Dict, Fault>)
    ensures "values" !in resource ==> r == Failure(MissingKey("values"))
    ensures r.Success? ==>
              && r.value.Keys == resource.Keys
              && RemoveSensitiveRecursive(patterns, resource["values"], MarkerOf(resource)) == Success(r.value["values"])
              && forall k :: k in resource && k != "values" ==> r.value[k] == resource[k]
    ensures "values" in resource && r.Failure? ==>
              RemoveSensitiveRecursive(patterns, resource["values"], MarkerOf(resource)).Failure?
  {
    if "values" !in resource then
      Failure(MissingKey("values"))
    else
      match RemoveSensitiveRecursive(patterns, resource["values"], MarkerOf(resource))
      case Success(w) => Success(resource["values" := w])
      case Failure(e) => Failure(e)
  }

  /** A resource record as the mutable dict `remove_sensitive_data` updates in place. */
  class ResourceRecord {
    var fields: Dict

    constructor (fields: Dict)
      ensures this.fields == fields
    {
      this.fields := fields;
    }

    /** Reassigns `values` in place; when the walk raises, the record is left as it was. */
    method RemoveSensitiveData(patterns: seq<string>) returns (error: Option<Fault>)
      modifies this
      ensures RedactedResource(patterns, old(fields)).Success? ==>
                error == None && fields == RedactedResource(patterns, old(fields)).value
      ensures RedactedResource(patterns, old(fields)).Failure? ==>
                error == Some(RedactedResource(patterns, old(fields)).error) && fields == old(fields)
    {
      if "values" !in fields {
        return Some(MissingKey("values"));
      }
      var marker := if "sensitive_values" in fields then fields["sensitive_values"] else Obj(map[]);
      var redacted := RemoveSensitiveRecursive(patterns, fields["values"], marker);
      if redacted.Failure? {
        return Some(redacted.error);
      }
      fields := fields["values" := redacted.value];
      error := None;
    }
  }

  // ---------------------------------------------------------------------
  // recursive_unnest_child_modules and unnest_tf_show
  // ---------------------------------------------------------------------

  /**
   * `for x in v` as the flattener iterates `resources` and `child_modules`.
   * A list gives its items. A str or a dict gives strings (characters or
   * keys), and every caller raises TypeError on the first string, so a
   * non-empty one is reported as that failure; an empty one gives nothing.
   * Any other value is not iterable.
   */
  function Members(v: Value): (s: Stream<Value>)
    ensures v.Arr? ==> s == Stream(v.items, None)
    ensures !v.Arr? ==> s.items == []
  {
    match v
    case Arr(xs) => Stream(xs, None)
    case Str(s) => if s == [] then Stream([], None) else Stream([], Some(ShapeMismatch))
    case Obj(f) => if f == map[] then Stream([], None) else Stream([], Some(ShapeMismatch))
    case _ => Stream([], Some(ShapeMismatch))
  }

  /** `map(remove_sensitive_data, ...)` applied to one member of `resources`. */
  function RedactStep(patterns: seq<string>): Value -> Step<Dict>
  {
    (x: Value) =>
      if !x.Obj? then Stop(ShapeMismatch)
      else match RedactedResource(patterns, x.fields)
        case Success(d) => Emit(d)
        case Failure(e) => Stop(e)
  }

  /** `recursive_unnest_child_modules(node)`, driven to the end. */
  function UnnestModule(patterns: seq<string>, node: Value): (r: Stream<Dict>)
    ensures !node.Obj? ==> r == Stream([], Some(ShapeMismatch))
    ensures node.Obj? && "resources" !in node.fields ==> r == Stream([], Some(MissingKey("resources")))
    ensures node.Obj? && "resources" in node.fields ==>
              var own := PipeStream(RedactStep(patterns), Members(node.fields["resources"]));
              own.items <= r.items && (own.error.Some? ==> r == own)
    decreases node
  {
    if !node.Obj? then
      Stream([], Some(ShapeMismatch))
    else if "resources" !in node.fields then
      Stream([], Some(MissingKey("resources")))
    else
      var own := PipeStream(RedactStep(patterns), Members(node.fields["resources"]));
      var children :=
        if "child_modules" !in node.fields then Stream([], None)
        else match node.fields["child_modules"]
          case Arr(cs) => ThenAll(seq(|cs|, i requires 0 <= i < |cs| => UnnestModule(patterns, cs[i])))
          case other => Stream([], Members(other).error);
      Then(own, children)
  }

  /**
   * Reference traversal: the raw resource values of a module tree in
   * pre-order (the module's own resources, then each child's traversal in
   * order), stopping where the Python traversal itself would raise.
   */
  function ResourcesInPreOrder(node: Value): Stream<Value>
    decreases node
  {
    if !node.Obj? then
      Stream([], Some(ShapeMismatch))
    else if "resources" !in node.fields then
      Stream([], Some(MissingKey("resources")))
    else
      var children :=
        if "child_modules" !in node.fields then Stream([], None)
        else match node.fields["child_modules"]
          case Arr(cs) => ThenAll(seq(|cs|, i requires 0 <= i < |cs| => ResourcesInPreOrder(cs[i])))
          case other => Members(other);
      Then(Members(node.fields["resources"]), children)
  }

  /**
   * Flattening is redaction applied, record by record, to the pre-order
   * traversal: the flattener redacts as it goes and stops at the first
   * record whose redaction raises.
   */
  lemma {:induction false} UnnestIsRedactedPreOrder(patterns: seq<string>, node: Value)
    ensures UnnestModule(patterns, node) == PipeStream(RedactStep(patterns), ResourcesInPreOrder(node))
    decreases node
  {
    var f := RedactStep(patterns);
    if node.Obj? && "resources" in node.fields {
      var res := Members(node.fields["resources"]);
      if "child_modules" !in node.fields {
        PipeStreamThen(f, res, Stream([], None));
      } else {
        match node.fields["child_modules"]
        case Arr(cs) =>
          var us := seq(|cs|, i requires 0 <= i < |cs| => UnnestModule(patterns, cs[i]));
          var ps := seq(|cs|, i requires 0 <= i < |cs| => ResourcesInPreOrder(cs[i]));
          forall i | 0 <= i < |cs| ensures us[i] == PipeStream(f, ps[i]) {
            UnnestIsRedactedPreOrder(patterns, cs[i]);
          }
          PipeStreamThenAll(f, ps);
          assert us == MapSeq((s: Stream<Value>) => PipeStream(f, s), ps);
          PipeStreamThen(f, res, ThenAll(ps));
        case other =>
          PipeStreamThen(f, res, Members(other));
      }
    }
  }

  /** `yield from` over several generators commutes with piping each of them. */
  lemma {:induction false} PipeStreamThenAll<U>(f: Value -> Step<U>, ss: seq<Stream<Value>>)
    ensures PipeStream(f, ThenAll(ss)) == ThenAll(MapSeq((s: Stream<Value>) => PipeStream(f, s), ss))
    decreases |ss|
  {
    if ss != [] {
      PipeStreamThenAll(f, ss[1..]);
      PipeStreamThen(f, ss[0], ThenAll(ss[1..]));
      assert MapSeq((s: Stream<Value>) => PipeStream(f, s), ss)[1..]
          == MapSeq((s: Stream<Value>) => PipeStream(f, s), ss[1..]);
    }
  }

  /**
   * When flattening ends normally it yields exactly one record per resource
   * of the tree, in pre-order, each one the redaction of that resource.
   */
  lemma FlattenCount(patterns: seq<string>, node: Value)
    requires UnnestModule(patterns, node).error == None
    ensures ResourcesInPreOrder(node).error == None
    ensures |UnnestModule(patterns, node).items| == |ResourcesInPreOrder(node).items|
    ensures forall i :: 0 <= i < |ResourcesInPreOrder(node).items| ==>
              var raw := ResourcesInPreOrder(node).items[i];
              raw.Obj? && RedactedResource(patterns, raw.fields) == Success(UnnestModule(patterns, node).items[i])
  {
    UnnestIsRedactedPreOrder(patterns, node);
    var pre := ResourcesInPreOrder(node);
    var f := RedactStep(patterns);
    PipeStops(f, pre.items);
    PipeAllEmit(f, pre.items);
  }

  /** A module with one resource and no children yields that resource. */
  lemma LeafModule(x0: Dict)
    ensures ResourcesInPreOrder(Obj(map["resources" := Arr([Obj(x0)])])) == Stream([Obj(x0)], None)
  {
    var leaf := map["resources" := Arr([Obj(x0)])];
    assert "child_modules" !in leaf;
  }

  /**
   * Traversal order on the tree root -> [A, B], A -> [C]: the root's
   * resources, then A's, then C's, then B's.
   */
  lemma PreOrderExample(r0: Dict, a0: Dict, b0: Dict, c0: Dict)
    ensures
      var c := Obj(map["resources" := Arr([Obj(c0)])]);
      var a := Obj(map["resources" := Arr([Obj(a0)]), "child_modules" := Arr([c])]);
      var b := Obj(map["resources" := Arr([Obj(b0)])]);
      var root := Obj(map["resources" := Arr([Obj(r0)]), "child_modules" := Arr([a, b])]);
      ResourcesInPreOrder(root) == Stream([Obj(r0), Obj(a0), Obj(c0), Obj(b0)], None)
  {
    var c := Obj(map["resources" := Arr([Obj(c0)])]);
    var a := Obj(map["resources" := Arr([Obj(a0)]), "child_modules" := Arr([c])]);
    var b := Obj(map["resources" := Arr([Obj(b0)])]);
    var root := Obj(map["resources" := Arr([Obj(r0)]), "child_modules" := Arr([a, b])]);
    var pc, pb := ResourcesInPreOrder(c), ResourcesInPreOrder(b);
    LeafModule(c0);
    LeafModule(b0);
    var ca := [c];
    assert seq(|ca|, i requires 0 <= i < |ca| => ResourcesInPreOrder(ca[i])) == [pc];
    assert ThenAll([pc]) == pc;
    var pa := ResourcesInPreOrder(a);
    assert pa == Stream([Obj(a0), Obj(c0)], None);
    var cr := [a, b];
    assert seq(|cr|, i requires 0 <= i < |cr| => ResourcesInPreOrder(cr[i])) == [pa, pb];
    assert ThenAll([pa, pb]) == Stream([Obj(a0), Obj(c0), Obj(b0)], None) by {
      assert [pa, pb][1..] == [pb];
      assert ThenAll([pb]) == pb;
    }
  }

  /**
   * `unnest_tf_show(show_data)`: the pattern self-check runs before anything
   * is yielded; output without `values`, or whose `values` has no (or a null)
   * `root_module`, yields nothing.
   */
  function UnnestTfShow(patterns: seq<string>, show: Dict): (r: Stream<Dict>)
    ensures CheckSensitiveFieldsConfig(patterns).Some? ==>
              r == Stream([], CheckSensitiveFieldsConfig(patterns))
    ensures CheckSensitiveFieldsConfig(patterns).None? && "values" !in show ==> r == Stream([], None)
    ensures CheckSensitiveFieldsConfig(patterns).None? && "values" in show && show["values"].Obj?
            && ("root_module" !in show["values"].fields || show["values"].fields["root_module"] == Null) ==>
              r == Stream([], None)
  {
    match CheckSensitiveFieldsConfig(patterns)
    case Some(e) => Stream([], Some(e))
    case None =>
      if "values" !in show then
        Stream([], None)
      else
        match show["values"]
        case Obj(vf) =>
          if "root_module" !in vf || vf["root_module"] == Null then Stream([], None)
          else UnnestModule(patterns, vf["root_module"])
        case _ => Stream([], Some(ShapeMismatch))
  }

  /**
   * Once the self-check passes and `values` holds a non-null `root_module`,
   * `unnest_tf_show` is redaction applied record by record to the pre-order
   * traversal of that root module.
   */
  lemma UnnestTfShowIsRedactedPreOrder(patterns: seq<string>, show: Dict)
    requires CheckSensitiveFieldsConfig(patterns) == None
    requires "values" in show && show["values"].Obj?
    requires "root_module" in show["values"].fields && show["values"].fields["root_module"] != Null
    ensures UnnestTfShow(patterns, show)
            == PipeStream(RedactStep(patterns), ResourcesInPreOrder(show["values"].fields["root_module"]))
  {
    UnnestIsRedactedPreOrder(patterns, show["values"].fields["root_module"]);
  }

  /**
   * Anything `unnest_tf_show` yields means the self-check passed and
   * `values` holds a non-null `root_module`; its k-th record is the redaction
   * of the k-th resource of that module's pre-order traversal.
   */
  lemma UnnestTfShowYieldsRedacted(patterns: seq<string>, show: Dict, k: int)
    requires 0 <= k < |UnnestTfShow(patterns, show).items|
    ensures CheckSensitiveFieldsConfig(patterns) == None
    ensures "values" in show && show["values"].Obj?
    ensures "root_module" in show["values"].fields && show["values"].fields["root_module"] != Null
    ensures var pre := ResourcesInPreOrder(show["values"].fields["root_module"]).items;
            k < |pre| && pre[k].Obj? && RedactedResource(patterns, pre[k].fields) == Success(UnnestTfShow(patterns, show).items[k])
  {
    var root := show["values"].fields["root_module"];
    UnnestTfShowIsRedactedPreOrder(patterns, show);
    var pre := ResourcesInPreOrder(root);
    var f := RedactStep(patterns);
    assert UnnestTfShow(patterns, show).items == Pipe(f, pre.items).items;
    assert forall i :: 0 <= i < |pre.items| ==> !f(pre.items[i]).Skip?;
    PipeNoSkipAligned(f, pre.items, k);
  }
}
