/** The storage-event ingestion function: start-up configuration check, and the
    handler that turns a "file created" event into one corpus import and a
    status notification on a Pub/Sub topic. */
module Ingestion {
  import opened Outcomes
  import opened Text

  // ---------------------------------------------------------------------------
  // Start-up configuration

  const PROJECT_VAR := "GOOGLE_CLOUD_PROJECT"
  const LOCATION_VAR := "GOOGLE_CLOUD_LOCATION"
  const TOPIC_VAR := "NOTIFICATION_TOPIC_ID"
  const CORPUS_VAR := "RAG_CORPUS"

  /** The required variables, in declaration order. */
  const REQUIRED_ENV_VARS: seq<string> := [PROJECT_VAR, LOCATION_VAR, TOPIC_VAR, CORPUS_VAR]

  /** `xs` can be obtained from `ys` by deleting elements. */
  ghost predicate IsSubsequence<T>(xs: seq<T>, ys: seq<T>)
    decreases |ys|
  {
    xs == [] ||
    (ys != [] &&
     if xs[0] == ys[0] then IsSubsequence(xs[1..], ys[1..]) else IsSubsequence(xs, ys[1..]))
  }

  /** The names whose value in `env` is falsy, kept in the order of `names`. */
  function MissingVars(names: seq<string>, env: map<string, string>): (missing: seq<string>)
    ensures IsSubsequence(missing, names)
    ensures forall x :: x in missing <==> x in names && !Truthy(Lookup(env, x))
  {
    if names == [] then []
    else
      var rest := MissingVars(names[1..], env);
      if Truthy(Lookup(env, names[0])) then
        assert rest != [] ==> rest[0] in rest;
        rest
      else [names[0]] + rest
  }

  /** The configuration the handler runs with once start-up succeeded. */
  datatype Config = Config(project: string, location: string, topic: string, corpus: string)

  /** The module-level check: start-up fails, naming every missing variable,
      exactly when one of the required variables is unset or empty. */
  function StartUp(env: map<string, string>): (r: Outcome<Config>)
    ensures r.Fail? <==> exists x :: x in REQUIRED_ENV_VARS && !Truthy(Lookup(env, x))
    ensures r.Fail? ==>
      r.message == "Missing required environment variables: " + Join(MissingVars(REQUIRED_ENV_VARS, env), ", ")
    ensures r.Ok? ==>
      && Lookup(env, PROJECT_VAR) == Some(r.value.project) && r.value.project != ""
      && Lookup(env, LOCATION_VAR) == Some(r.value.location) && r.value.location != ""
      && Lookup(env, TOPIC_VAR) == Some(r.value.topic) && r.value.topic != ""
      && Lookup(env, CORPUS_VAR) == Some(r.value.corpus) && r.value.corpus != ""
  {
    var missing := MissingVars(REQUIRED_ENV_VARS, env);
    if missing != [] then
      assert missing[0] in missing;
      Fail("Missing required environment variables: " + Join(missing, ", "))
    else
      assert PROJECT_VAR in REQUIRED_ENV_VARS && LOCATION_VAR in REQUIRED_ENV_VARS;
      assert TOPIC_VAR in REQUIRED_ENV_VARS && CORPUS_VAR in REQUIRED_ENV_VARS;
      Ok(Config(env[PROJECT_VAR], env[LOCATION_VAR], env[TOPIC_VAR], env[CORPUS_VAR]))
  }

  // ---------------------------------------------------------------------------
  // Events, notifications and the calls the handler makes

  /** The `data` of a storage event: a mapping of string fields, or a payload on
      which `data.get` raises (with the exception's text). */
  datatype EventData = Mapping(fields: map<string, string>) | NotMapping(error: string)

  /** The notification published on the topic. */
  datatype Notification =
    | Initiated(fileName: string, gcsUri: string, corpusName: string, operationId: string)
    | Failed(fileName: string, error: string)

  /** An external call made by one handler invocation. */
  datatype Call = ImportFiles(corpusName: string, paths: seq<string>) | Publish(message: Notification)

  /** The handler's `(message, status)` return value. */
  datatype Response = Response(body: string, status: int)

  const INITIATED_STATUS := "RAG_UPDATE_INITIATED"
  const FAILED_STATUS := "RAG_UPDATE_FAILED"

  /** A notification as the JSON object `json.dumps` serialises, key by key. */
  function Payload(n: Notification): seq<(string, string)>
  {
    match n
    case Initiated(f, u, c, o) =>
      [("status", INITIATED_STATUS), ("file_name", f), ("gcs_uri", u), ("corpus_name", c), ("operation_id", o)]
    case Failed(f, e) =>
      [("status", FAILED_STATUS), ("file_name", f), ("error", e)]
  }

  /** The value of the first pair with key `key`. */
  function Field(pairs: seq<(string, string)>, key: string): Option<string>
  {
    if pairs == [] then None
    else if pairs[0].0 == key then Some(pairs[0].1)
    else Field(pairs[1..], key)
  }

  /** How a subscriber reads a notification back from its JSON object. */
  function ParsePayload(pairs: seq<(string, string)>): Option<Notification>
  {
    var status := Field(pairs, "status");
    var file := Field(pairs, "file_name");
    if status == Some(INITIATED_STATUS) then
      var uri := Field(pairs, "gcs_uri");
      var corpus := Field(pairs, "corpus_name");
      var op := Field(pairs, "operation_id");
      if file.Some? && uri.Some? && corpus.Some? && op.Some? then
        Some(Initiated(file.value, uri.value, corpus.value, op.value))
      else None
    else if status == Some(FAILED_STATUS) then
      var error := Field(pairs, "error");
      if file.Some? && error.Some? then Some(Failed(file.value, error.value)) else None
    else None
  }

  /** A subscriber reads back exactly the notification that was published. */
  lemma PayloadRoundTrip(n: Notification)
    ensures ParsePayload(Payload(n)) == Some(n)
  {
    var pairs := Payload(n);
    FieldAt(pairs, 0, "status");
    FieldAt(pairs, 1, "file_name");
    match n
    case Initiated(f, u, c, o) =>
      FieldAt(pairs, 2, "gcs_uri");
      FieldAt(pairs, 3, "corpus_name");
      FieldAt(pairs, 4, "operation_id");
    case Failed(f, e) =>
      FieldAt(pairs, 2, "error");
  }

  /** A key found at index `i`, and at no earlier index, is looked up to its value there. */
  lemma {:induction false} FieldAt(pairs: seq<(string, string)>, i: nat, key: string)
    requires i < |pairs| && pairs[i].0 == key
    requires forall j :: 0 <= j < i ==> pairs[j].0 != key
    ensures Field(pairs, key) == Some(pairs[i].1)
  {
    if i > 0 {
      assert pairs[0].0 != key;
      FieldAt(pairs[1..], i - 1, key);
    }
  }

  function Bucket(data: EventData): Option<string> {
    if data.Mapping? then Lookup(data.fields, "bucket") else None
  }

  function Name(data: EventData): Option<string> {
    if data.Mapping? then Lookup(data.fields, "name") else None
  }

  /** A readable payload lacking a non-empty `bucket` or `name`. */
  predicate IsIncomplete(data: EventData) {
    data.Mapping? && (!Truthy(Bucket(data)) || !Truthy(Name(data)))
  }

  /** A complete payload whose object name is a folder marker. */
  predicate IsFolder(data: EventData) {
    data.Mapping? && !IsIncomplete(data) && EndsWith(Name(data).value, "/")
  }

  /** A complete payload naming a file: the only kind that is imported. */
  predicate IsFileEvent(data: EventData) {
    data.Mapping? && !IsIncomplete(data) && !IsFolder(data)
  }

  /** The object's `gs://bucket/name` URI. */
  function SourceUri(bucket: string, name: string): string {
    GCS_SCHEME + bucket + "/" + name
  }

  /** The number of import calls in a call trace. */
  function ImportCount(calls: seq<Call>): nat {
    if calls == [] then 0
    else ImportCount(calls[..|calls| - 1]) + if calls[|calls| - 1].ImportFiles? then 1 else 0
  }

  /** The number of publish calls carrying a failure notification. */
  function FailureCount(calls: seq<Call>): nat {
    if calls == [] then 0
    else
      var last := calls[|calls| - 1];
      FailureCount(calls[..|calls| - 1]) + if last.Publish? && last.message.Failed? then 1 else 0
  }

  /** Counting import calls distributes over concatenated traces. */
  lemma {:induction false} ImportCountAppend(a: seq<Call>, b: seq<Call>)
    ensures ImportCount(a + b) == ImportCount(a) + ImportCount(b)
    decreases |b|
  {
    if b == [] {
      assert a + b == a;
    } else {
      var front := b[..|b| - 1];
      assert (a + b)[..|a + b| - 1] == a + front;
      assert (a + b)[|a + b| - 1] == b[|b| - 1];
      ImportCountAppend(a, front);
    }
  }

  // ---------------------------------------------------------------------------
  // The handler

  /** One invocation of the ingestion handler on event `data`, with the
      configured corpus `corpus`. The external calls' outcomes are parameters:
      `importResult` is the import's operation name or error, `publishResult` the
      acknowledgement of the success notification, and `failurePublishResult`
      that of the failure notification, whose error the handler swallows.
      `calls` lists the external calls made, in order. */
  method HandleStorageEvent(
    data: EventData, corpus: string,
    importResult: Outcome<string>, publishResult: Outcome<()>, failurePublishResult: Outcome<()>)
    returns (response: Response, calls: seq<Call>)
    // Malformed payload: 400, nothing contacted.
    ensures IsIncomplete(data) ==> response == Response("Incomplete data", 400) && calls == []
    // Folder marker: 200, nothing contacted.
    ensures IsFolder(data) ==> response == Response("Folder ignored", 200) && calls == []
    // Unreadable payload: the failure names the file "unknown".
    ensures data.NotMapping? ==>
      && response == Response("Error: " + data.error, 500)
      && calls == [Publish(Failed("unknown", data.error))]
    // A file event is imported exactly once, into the configured corpus.
    ensures ImportCount(calls) == if IsFileEvent(data) then 1 else 0
    ensures IsFileEvent(data) ==>
      |calls| >= 2 && calls[0] == ImportFiles(corpus, [SourceUri(Bucket(data).value, Name(data).value)])
    ensures IsFileEvent(data) && importResult.Ok? && publishResult.Ok? ==>
      && response == Response("RAG import initiated.", 200)
      && var uri := SourceUri(Bucket(data).value, Name(data).value);
         calls == [ImportFiles(corpus, [uri]),
                   Publish(Initiated(Name(data).value, uri, corpus, importResult.value))]
    ensures IsFileEvent(data) && importResult.Fail? ==>
      && response == Response("Error: " + importResult.message, 500)
      && calls == [ImportFiles(corpus, [SourceUri(Bucket(data).value, Name(data).value)]),
                   Publish(Failed(Name(data).value, importResult.message))]
    ensures IsFileEvent(data) && importResult.Ok? && publishResult.Fail? ==>
      && response == Response("Error: " + publishResult.message, 500)
      && var uri := SourceUri(Bucket(data).value, Name(data).value);
         calls == [ImportFiles(corpus, [uri]),
                   Publish(Initiated(Name(data).value, uri, corpus, importResult.value)),
                   Publish(Failed(Name(data).value, publishResult.message))]
    // Every 500 follows exactly one failure notification, sent last.
    ensures response.status in {200, 400, 500}
    ensures response.status == 500 <==> FailureCount(calls) == 1
    ensures response.status == 500 ==> calls[|calls| - 1].Publish? && calls[|calls| - 1].message.Failed?
    ensures response.status != 500 ==> FailureCount(calls) == 0
  {
    var fileName := "unknown";
    var gcsUri := "unknown";
    calls := [];
    var error: string;
    match data {
      case NotMapping(e) =>
        error := e;
      case Mapping(fields) =>
        var bucketName := Lookup(fields, "bucket");
        var name := Lookup(fields, "name");
        if !Truthy(bucketName) || !Truthy(name) {
          return Response("Incomplete data", 400), [];
        }
        fileName := name.value;
        if EndsWith(fileName, "/") {
          return Response("Folder ignored", 200), [];
        }
        gcsUri := SourceUri(bucketName.value, fileName);
        calls := [ImportFiles(corpus, [gcsUri])];
        assert calls[..0] == [];
        match importResult {
          case Fail(e) =>
            error := e;
          case Ok(operationName) =>
            ghost var before := calls;
            calls := calls + [Publish(Initiated(fileName, gcsUri, corpus, operationName))];
            assert calls[..|calls| - 1] == before;
            assert FailureCount(before) == 0;
            match publishResult {
              case Ok(_) =>
                return Response("RAG import initiated.", 200), calls;
              case Fail(e) =>
                error := e;
            }
        }
    }
    // The outer guard: one best-effort failure notification.
    ghost var before := calls;
    calls := calls + [Publish(Failed(fileName, error))];
    assert calls[..|calls| - 1] == before;
    if failurePublishResult.Fail? {
      // The inner guard discards this error: the response stays a 500.
    }
    response := Response("Error: " + error, 500);
  }

  /** The same event delivered twice, each delivery seeing its own outcomes
      of the external calls (a first attempt may fail and the retry succeed).
      The handler keeps no state between invocations, so a file event is
      imported once per delivery, with the same arguments each time. */
  method DeliverTwice(
    data: EventData, corpus: string,
    importA: Outcome<string>, publishA: Outcome<()>, failurePublishA: Outcome<()>,
    importB: Outcome<string>, publishB: Outcome<()>, failurePublishB: Outcome<()>)
    returns (first: Response, second: Response, callsA: seq<Call>, callsB: seq<Call>)
    ensures ImportCount(callsA + callsB) == if IsFileEvent(data) then 2 else 0
    ensures IsFileEvent(data) ==>
      && |callsA| > 0 && |callsB| > 0
      && callsA[0] == ImportFiles(corpus, [SourceUri(Bucket(data).value, Name(data).value)])
      && callsB[0] == callsA[0]
    // Both deliveries succeed: two independent imports and two success notifications.
    ensures IsFileEvent(data) && importA.Ok? && publishA.Ok? && importB.Ok? && publishB.Ok? ==>
      && first == Response("RAG import initiated.", 200)
      && second == Response("RAG import initiated.", 200)
      && callsA == [callsA[0], Publish(Initiated(Name(data).value, SourceUri(Bucket(data).value, Name(data).value), corpus, importA.value))]
      && callsB == [callsA[0], Publish(Initiated(Name(data).value, SourceUri(Bucket(data).value, Name(data).value), corpus, importB.value))]
    // Identical outcomes give identical invocations.
    ensures importA == importB && publishA == publishB && failurePublishA == failurePublishB ==>
      first == second && callsA == callsB
  {
    first, callsA := HandleStorageEvent(data, corpus, importA, publishA, failurePublishA);
    second, callsB := HandleStorageEvent(data, corpus, importB, publishB, failurePublishB);
    ImportCountAppend(callsA, callsB);
  }
}
