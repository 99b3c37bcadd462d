/** The corpus bootstrap script: bucket-name rules for the source and staging
    buckets and the `.env` entries that record them, the find-or-create corpus
    lookup, the PDF download with its fallback, and the classification of
    upload errors. */
module Bootstrap {
  import opened Outcomes
  import opened Text

  const SOURCE_BUCKET_VAR := "SOURCE_GCS_BUCKET"
  const STAGING_BUCKET_VAR := "STAGING_BUCKET"
  const PLACEHOLDER := "YOUR_VALUE_HERE"
  const CORPUS_DISPLAY_NAME := "Alphabet_10K_2024_corpus"
  const FALLBACK_PDF_URL := "https://s206.q4cdn.com/479360582/files/doc_financials/2024/q4/goog-10-k-2024.pdf"

  // ---------------------------------------------------------------------------
  // Bucket names

  /** Python `s.replace("gs://", "")`: one left-to-right pass that deletes each
      occurrence it meets. */
  function StripScheme(s: string): string
    decreases |s|
  {
    if |s| < |GCS_SCHEME| then s
    else if s[..|GCS_SCHEME|] == GCS_SCHEME then StripScheme(s[|GCS_SCHEME|..])
    else [s[0]] + StripScheme(s[1..])
  }

  /** Stripping never lengthens a name, and shortens every name that contains the scheme. */
  lemma {:induction false} StripSchemeLength(s: string)
    ensures |StripScheme(s)| <= |s|
    ensures Occurs(GCS_SCHEME, s) ==> |StripScheme(s)| < |s|
    decreases |s|
  {
    if |s| < |GCS_SCHEME| {
    } else if s[..|GCS_SCHEME|] == GCS_SCHEME {
      StripSchemeLength(s[|GCS_SCHEME|..]);
    } else {
      StripSchemeLength(s[1..]);
    }
  }

  /** A name is left as it is exactly when it contains no `gs://`. */
  lemma {:induction false} StripSchemeUnchangedIff(s: string)
    ensures StripScheme(s) == s <==> !Occurs(GCS_SCHEME, s)
    decreases |s|
  {
    StripSchemeLength(s);
    if |s| >= |GCS_SCHEME| && s[..|GCS_SCHEME|] != GCS_SCHEME {
      StripSchemeUnchangedIff(s[1..]);
    }
  }

  /** A name with no colon contains no `gs://`, so stripping leaves it alone. */
  lemma {:induction false} StripSchemeNoColon(s: string)
    requires forall i :: 0 <= i < |s| ==> s[i] != ':'
    ensures StripScheme(s) == s
    decreases |s|
  {
    if |s| >= |GCS_SCHEME| {
      assert s[..|GCS_SCHEME|][2] == s[2] != ':';
      StripSchemeNoColon(s[1..]);
    }
  }

  /** A leading `gs://` is removed. */
  lemma StripLeadingScheme(s: string)
    ensures StripScheme(GCS_SCHEME + s) == StripScheme(s)
  {
    assert (GCS_SCHEME + s)[..|GCS_SCHEME|] == GCS_SCHEME;
    assert (GCS_SCHEME + s)[|GCS_SCHEME|..] == s;
  }

  /** The pass is not repeated: deleting an occurrence can join two pieces
      into a new one, which stays in the result. */
  lemma StripSchemeSinglePass()
    ensures StripScheme("gsgs://://b") == "gs://b"
    ensures Occurs(GCS_SCHEME, StripScheme("gsgs://://b"))
  {
    assert "gsgs://://b"[..5] == "gsgs:";
    assert "gsgs://://b"[1..][..5] == "sgs:/";
    assert "gsgs://://b"[1..][1..][..5] == GCS_SCHEME;
    assert "gsgs://://b"[1..][1..][5..] == "://b";
    assert "gs://b"[..5] == GCS_SCHEME;
  }

  /** A `.env` value that asks for a generated name: unset, empty or the placeholder. */
  predicate NeedsGenerating(v: Option<string>) {
    !Truthy(v) || v.value == PLACEHOLDER
  }

  /** `rag-source-<project>-<suffix>`; the suffix stands for six random hex digits. */
  function GeneratedSourceName(project: string, suffix: string): string {
    "rag-source-" + project + "-" + suffix
  }

  /** `rag-staging-<project>-<suffix>`. */
  function GeneratedStagingName(project: string, suffix: string): string {
    "rag-staging-" + project + "-" + suffix
  }

  /** The string has no colon. Bucket names cannot contain one, so this holds
      of a project id that can appear in a generated bucket name (a
      domain-scoped id such as `example.com:proj` cannot) and of the hex suffix. */
  predicate ColonFree(s: string) {
    forall i :: 0 <= i < |s| ==> s[i] != ':'
  }

  /** The `SOURCE_GCS_BUCKET` setting the script works with: the configured
      value, or a generated name when there is none. */
  function SourceSetting(raw: Option<string>, project: string, suffix: string): string {
    if NeedsGenerating(raw) then GeneratedSourceName(project, suffix) else raw.value
  }

  /** A generated source bucket name is written without `gs://` and used as it is. */
  lemma GeneratedSourceNameIsBare(project: string, suffix: string)
    requires ColonFree(project) && ColonFree(suffix)
    ensures !StartsWith(GeneratedSourceName(project, suffix), GCS_SCHEME)
    ensures StripScheme(GeneratedSourceName(project, suffix)) == GeneratedSourceName(project, suffix)
  {
    var name := GeneratedSourceName(project, suffix);
    assert name[0] == 'r';
    forall i | 0 <= i < |name| ensures name[i] != ':' {
      if i < 11 {
        assert name[i] == "rag-source-"[i];
      } else if i < 11 + |project| {
        assert name[i] == project[i - 11];
      } else if i == 11 + |project| {
        assert name[i] == '-';
      } else {
        assert name[i] == suffix[i - 12 - |project|];
      }
    }
    StripSchemeNoColon(name);
  }

  /** The raw staging bucket name the script returns. */
  function StagingName(raw: Option<string>, project: string, suffix: string): string {
    if NeedsGenerating(raw) then GeneratedStagingName(project, suffix) else StripScheme(raw.value)
  }

  /** The value written to `STAGING_BUCKET`, if any: `gs://` and the generated
      name, or `gs://` and a configured value that lacks that prefix. */
  function StagingRewrite(raw: Option<string>, project: string, suffix: string): Option<string> {
    if NeedsGenerating(raw) then Some(GCS_SCHEME + GeneratedStagingName(project, suffix))
    else if !StartsWith(raw.value, GCS_SCHEME) then Some(GCS_SCHEME + raw.value)
    else None
  }

  /** After a successful run, the `STAGING_BUCKET` setting starts with `gs://`,
      it is rewritten only when it did not, and stripping it gives back the
      returned bucket name. */
  lemma StagingSettingIsUri(raw: Option<string>, project: string, suffix: string)
    requires NeedsGenerating(raw) ==> ColonFree(project) && ColonFree(suffix)
    ensures var setting := if StagingRewrite(raw, project, suffix).Some?
                           then StagingRewrite(raw, project, suffix).value else raw.value;
      && StartsWith(setting, GCS_SCHEME)
      && StripScheme(setting) == StagingName(raw, project, suffix)
    ensures StagingRewrite(raw, project, suffix).None? <==>
      !NeedsGenerating(raw) && StartsWith(raw.value, GCS_SCHEME)
  {
    if NeedsGenerating(raw) {
      var name := GeneratedStagingName(project, suffix);
      StripLeadingScheme(name);
      forall i | 0 <= i < |name| ensures name[i] != ':' {
        if i < 12 {
          assert name[i] == "rag-staging-"[i];
        } else if i < 12 + |project| {
          assert name[i] == project[i - 12];
        } else if i == 12 + |project| {
          assert name[i] == '-';
        } else {
          assert name[i] == suffix[i - 13 - |project|];
        }
      }
      StripSchemeNoColon(name);
    } else if !StartsWith(raw.value, GCS_SCHEME) {
      StripLeadingScheme(raw.value);
    }
  }

  /** The script's view of the outside world: the `.env` file it rewrites and
      the buckets that exist in the project. */
  class Workspace {
    var dotenv: map<string, string>
    var buckets: set<string>

    constructor (dotenv: map<string, string>, buckets: set<string>)
      ensures this.dotenv == dotenv && this.buckets == buckets
    {
      this.dotenv := dotenv;
      this.buckets := buckets;
    }

    /** Sets `key` in the `.env` file; a failed write is reported and ignored. */
    method UpdateEnvFile(key: string, value: string, write: Outcome<()>)
      modifies this`dotenv
      ensures dotenv == if write.Ok? then old(dotenv)[key := value] else old(dotenv)
    {
      match write {
        case Ok(_) => dotenv := dotenv[key := value];
        case Fail(_) =>
      }
    }

    /** Makes sure the bucket named `bucketName` without `gs://` exists,
        creating it if needed; an access or creation error propagates. */
    method EnsureBucketExists(bucketName: string, access: Outcome<()>) returns (r: Outcome<string>)
      modifies this`buckets
      ensures r == if access.Ok? then Ok(StripScheme(bucketName)) else Fail(access.message)
      ensures buckets == if access.Ok? then old(buckets) + {StripScheme(bucketName)} else old(buckets)
    {
      var cleanName := StripScheme(bucketName);
      if access.Fail? {
        return Fail(access.message);
      }
      if cleanName !in buckets {
        buckets := buckets + {cleanName};
      }
      r := Ok(cleanName);
    }

    /** Settles the source bucket: generates and records a bare name when the
        setting is missing, then ensures the bucket and returns its name. */
    method EnsureSourceBucket(
      environ: map<string, string>, project: string, suffix: string, write: Outcome<()>, access: Outcome<()>)
      returns (r: Outcome<string>)
      modifies this
      ensures var raw := Lookup(environ, SOURCE_BUCKET_VAR);
        var setting := SourceSetting(raw, project, suffix);
        && dotenv == (if NeedsGenerating(raw) && write.Ok? then old(dotenv)[SOURCE_BUCKET_VAR := setting] else old(dotenv))
        && r == (if access.Ok? then Ok(StripScheme(setting)) else Fail(access.message))
        && buckets == (if access.Ok? then old(buckets) + {StripScheme(StripScheme(setting))} else old(buckets))
    {
      var bucketName := Lookup(environ, SOURCE_BUCKET_VAR);
      var name: string;
      if NeedsGenerating(bucketName) {
        name := GeneratedSourceName(project, suffix);
        UpdateEnvFile(SOURCE_BUCKET_VAR, name, write);
      } else {
        name := bucketName.value;
      }
      var cleanName := StripScheme(name);
      var ensured := EnsureBucketExists(cleanName, access);
      if ensured.Fail? {
        return Fail(ensured.message);
      }
      r := Ok(cleanName);
    }

    /** Settles the staging bucket: generates, creates and records `gs://name`
        when the setting is missing; otherwise ensures the named bucket and adds
        a missing `gs://` to the setting. Returns the name without `gs://`. */
    method EnsureStagingBucket(
      environ: map<string, string>, project: string, suffix: string, write: Outcome<()>, access: Outcome<()>)
      returns (r: Outcome<string>)
      modifies this
      ensures var raw := Lookup(environ, STAGING_BUCKET_VAR);
        var name := StagingName(raw, project, suffix);
        var rewrite := StagingRewrite(raw, project, suffix);
        && r == (if access.Ok? then Ok(name) else Fail(access.message))
        && dotenv == (if access.Ok? && rewrite.Some? && write.Ok? then old(dotenv)[STAGING_BUCKET_VAR := rewrite.value] else old(dotenv))
        && buckets == (if access.Ok? then old(buckets) + {StripScheme(name)} else old(buckets))
    {
      var stagingBucket := Lookup(environ, STAGING_BUCKET_VAR);
      if NeedsGenerating(stagingBucket) {
        var rawBucketName := GeneratedStagingName(project, suffix);
        var ensured := EnsureBucketExists(rawBucketName, access);
        if ensured.Fail? {
          return Fail(ensured.message);
        }
        UpdateEnvFile(STAGING_BUCKET_VAR, GCS_SCHEME + rawBucketName, write);
        return Ok(rawBucketName);
      }
      var rawBucketName := StripScheme(stagingBucket.value);
      var ensured := EnsureBucketExists(rawBucketName, access);
      if ensured.Fail? {
        return Fail(ensured.message);
      }
      if !StartsWith(stagingBucket.value, GCS_SCHEME) {
        UpdateEnvFile(STAGING_BUCKET_VAR, GCS_SCHEME + stagingBucket.value, write);
      }
      r := Ok(rawBucketName);
    }
  }

  // ---------------------------------------------------------------------------
  // The corpus

  datatype RagCorpus = RagCorpus(name: string, displayName: string)

  /** Returns the first listed corpus named `CORPUS_DISPLAY_NAME`, and calls
      create (whose outcome is `creation`) only when none is. A listing error
      propagates. */
  method CreateOrGetCorpus(listing: Outcome<seq<RagCorpus>>, creation: Outcome<RagCorpus>)
    returns (r: Outcome<RagCorpus>, createCalled: bool)
    ensures listing.Fail? ==> r == Fail(listing.message) && !createCalled
    ensures listing.Ok? ==>
      (createCalled <==> forall i :: 0 <= i < |listing.value| ==> listing.value[i].displayName != CORPUS_DISPLAY_NAME)
    ensures createCalled ==> r == creation
    ensures listing.Ok? && !createCalled ==>
      exists i :: 0 <= i < |listing.value| && r == Ok(listing.value[i]) &&
        listing.value[i].displayName == CORPUS_DISPLAY_NAME &&
        forall j :: 0 <= j < i ==> listing.value[j].displayName != CORPUS_DISPLAY_NAME
  {
    if listing.Fail? {
      return Fail(listing.message), false;
    }
    var existingCorpora := listing.value;
    var corpus: Option<RagCorpus> := None;
    ghost var at := 0;
    var i := 0;
    while i < |existingCorpora|
      invariant 0 <= i <= |existingCorpora|
      invariant corpus.None?
      invariant forall j :: 0 <= j < i ==> existingCorpora[j].displayName != CORPUS_DISPLAY_NAME
    {
      if existingCorpora[i].displayName == CORPUS_DISPLAY_NAME {
        corpus := Some(existingCorpora[i]);
        at := i;
        break;
      }
      i := i + 1;
    }
    if corpus.None? {
      return creation, true;
    }
    assert 0 <= at < |existingCorpora| && corpus == Some(existingCorpora[at]);
    r, createCalled := Ok(corpus.value), false;
  }

  // ---------------------------------------------------------------------------
  // The PDF

  /** Writes the response body chunk by chunk; the file holds their concatenation. */
  method WriteChunks(chunks: seq<seq<byte>>) returns (contents: seq<byte>)
    ensures contents == Flatten(chunks)
  {
    contents := [];
    var k := 0;
    while k < |chunks|
      invariant 0 <= k <= |chunks|
      invariant contents == Flatten(chunks[..k])
    {
      FlattenPrefixStep(chunks, k);
      contents := contents + chunks[k];
      k := k + 1;
    }
    assert chunks[..k] == chunks;
  }

  /** Downloads `url` to `outputPath`; if that fails, tries the fallback URL
      exactly once, and an error there propagates. `primary` and `fallback` are
      the two requests' outcomes (the body's chunks, or the error). */
  method DownloadPdfFromUrl(
    url: string, outputPath: string, primary: Outcome<seq<seq<byte>>>, fallback: Outcome<seq<seq<byte>>>)
    returns (r: Outcome<string>, requested: seq<string>, file: Option<seq<byte>>)
    ensures requested == if primary.Ok? then [url] else [url, FALLBACK_PDF_URL]
    ensures primary.Ok? ==> r == Ok(outputPath) && file == Some(Flatten(primary.value))
    ensures primary.Fail? && fallback.Ok? ==> r == Ok(outputPath) && file == Some(Flatten(fallback.value))
    ensures primary.Fail? && fallback.Fail? ==> r == Fail(fallback.message) && file == None
  {
    requested := [url];
    match primary {
      case Ok(chunks) =>
        var contents := WriteChunks(chunks);
        return Ok(outputPath), requested, Some(contents);
      case Fail(_) =>
    }
    requested := requested + [FALLBACK_PDF_URL];
    match fallback {
      case Ok(chunks) =>
        var contents := WriteChunks(chunks);
        r, file := Ok(outputPath), Some(contents);
      case Fail(e) =>
        r, file := Fail(e), None;
    }
  }

  // ---------------------------------------------------------------------------
  // Uploading the PDF to the corpus

  datatype RagFile = RagFile(name: string, displayName: string)

  /** The error raised by the upload: quota exhaustion, or any other API error. */
  datatype UploadError = ResourceExhausted(message: string) | ApiError(message: string)

  /** The upload's outcome. */
  datatype UploadAttempt = Uploaded(file: RagFile) | Raised(error: UploadError)

  /** Which message the script reports. */
  datatype UploadReport = Succeeded | QuotaExhausted | AlreadyPresent | UploadFailed

  datatype UploadResult = UploadResult(file: Option<RagFile>, report: UploadReport)

  /** The message of an error the script treats as "already in the corpus". */
  predicate IsAlreadyPresent(message: string) {
    Occurs("409", message) || Occurs("already exists", message)
  }

  /** The uploaded file on success and nothing on every error; only an API
      error (not quota exhaustion) whose text contains "409" or "already exists"
      is classified as already present. */
  function UploadPdfToCorpus(attempt: UploadAttempt): (r: UploadResult)
    ensures r.file.Some? <==> attempt.Uploaded?
    ensures r.report == Succeeded <==> attempt.Uploaded?
    ensures attempt.Uploaded? ==> r == UploadResult(Some(attempt.file), Succeeded)
    ensures r.report == AlreadyPresent <==>
      attempt.Raised? && attempt.error.ApiError? &&
      ((exists i :: OccursAt("409", attempt.error.message, i)) ||
       (exists i :: OccursAt("already exists", attempt.error.message, i)))
    ensures r.report == QuotaExhausted <==> attempt.Raised? && attempt.error.ResourceExhausted?
  {
    match attempt
    case Uploaded(f) => UploadResult(Some(f), Succeeded)
    case Raised(ResourceExhausted(_)) => UploadResult(None, QuotaExhausted)
    case Raised(ApiError(m)) =>
      OccursIff("409", m);
      OccursIff("already exists", m);
      if IsAlreadyPresent(m) then UploadResult(None, AlreadyPresent) else UploadResult(None, UploadFailed)
  }
}
