# Self-updating RAG chatbot: a verified model of its decision logic

The repository is glue around a managed RAG platform. That platform does the embedding, indexing, retrieval, generation and agent hosting. This project models the decision logic that is left in the repository's own code, in Dafny, and proves what that logic promises. Every call into the platform, Pub/Sub, Cloud Storage, HTTP or the `.env` file is an abstract outcome: `Outcomes.Outcome<T>`, which is `Ok(value)` or `Fail(message)`, where `message` is the raised exception's text. Each outcome is passed in as a parameter.

- `ingestion.dfy` (module `Ingestion`) models `backend-automation/app.py`:
  - The start-up check of the four required environment variables.
  - The storage-event handler `rag_ingestion_handler`, as a method that returns the `(message, status)` response and the ordered list of external calls it made (`ImportFiles(corpus, paths)`, `Publish(notification)`).
  - Notifications are modelled at the level of their JSON object: keys and values in order.
- `chat.dfy` (module `Chat`) models `frontend-ui/app_ui.py`:
  - `stream_from_agent_engine`, as a nested loop over the agent's events and their parts. The generator is modelled as the sequence of values it yields.
  - `predict`, which changes the caller's history list in place. The list is the `ChatHistory` class, so aliasing is modelled: an empty list is falsy, so `history or []` replaces it with a new list and leaves the caller's list alone. The generator is modelled as the sequence of history snapshots it yields.
- `bootstrap.dfy` (module `Bootstrap`) models `data-load-to-corpus/data_load_to_corpus.py`:
  - The source and staging bucket naming rules, over a `Workspace` class that holds the `.env` file's entries and the project's buckets.
  - `str.replace("gs://", "")`, modelled exactly.
  - The find-or-create corpus search.
  - The classification of upload errors.
  - The download with its single fallback.
- `text.dfy` holds the shared Python string operations: `startswith`, `endswith`, `in`, `join`, and concatenation of chunks.
- `outcomes.dfy` holds the shared result types.

Two behaviours of the code are worth knowing:

- If the success notification is published but its acknowledgement (`future.result()`) raises, the handler's outer guard then publishes a failure notification. That invocation therefore makes two publish calls, `Initiated` then `Failed`, not one. The model follows the code: `HandleStorageEvent` states exactly this trace. What it does guarantee is that every 500 response comes with exactly one failure notification, and that this notification is the last call.
- `replace("gs://", "")` is a single left-to-right pass. Deleting an occurrence can join its neighbours into a new `gs://` that stays in the result (`Bootstrap.StripSchemeSinglePass`: `"gsgs://://b"` becomes `"gs://b"`). So the returned names have every occurrence in the input removed, which is not the same as containing no `gs://`. For names without a colon, which covers every valid bucket name, stripping leaves the name unchanged.

## Model

| member | source | states |
|---|---|---|
| `Ingestion.MissingVars` | rag-prototype/backend-automation/app.py:22 | the missing-variable list is a subsequence of the required names, in declaration order, and holds exactly the names whose value is unset or empty |
| `Ingestion.StartUp` | rag-prototype/backend-automation/app.py:15-24 | start-up fails if and only if some required variable is unset or empty; the error message joins the missing names with ", "; on success every configured value is the non-empty environment value |
| `Ingestion.PayloadRoundTrip` | rag-prototype/backend-automation/app.py:73-82 | the success and failure notifications' JSON objects (`status`, `file_name`, `gcs_uri`, `corpus_name`, `operation_id` / `error`) decode back to exactly the notification published |
| `Ingestion.HandleStorageEvent` | rag-prototype/backend-automation/app.py:36-97 | missing or empty `bucket`/`name` gives ("Incomplete data", 400) with no calls; a name ending in `/` gives ("Folder ignored", 200) with no calls; a file event makes exactly one import into the configured corpus with paths `["gs://" + bucket + "/" + name]`; import and publish success give ("RAG import initiated.", 200) after one `Initiated` publish carrying the file name, URI, corpus and operation name; an import or publish failure gives ("Error: " + msg, 500) after one `Failed` publish with the file name and error, whatever the failure publish's own outcome; an unreadable payload reports file name "unknown"; a 500 comes with exactly one failure notification, sent last |
| `Ingestion.DeliverTwice` | rag-prototype/backend-automation/app.py:42-69 | the handler keeps no state: each delivery of a file event makes its own import, with the same corpus and path, whatever the outcomes; when both deliveries succeed, each trace is one import and one `Initiated` publish carrying that delivery's operation name, and both responses are ("RAG import initiated.", 200); with the same outcomes the two responses and traces are identical |
| `Ingestion.ImportCountAppend` | rag-prototype/backend-automation/app.py:66-69 | import calls counted over two invocations' traces add up |
| `Chat.StreamFromAgentEngine` | rag-prototype/frontend-ui/app_ui.py:214-246 | the nested event/part loop yields exactly the texts of the parts that carry one, in event order and then part order, followed by "Error communicating with Vertex AI: " + msg if the remote stream raised; with no agent id it yields only the missing-id error |
| `Chat.MissingAgentYieldsOnlyError` | rag-prototype/frontend-ui/app_ui.py:218-220 | with no agent id, or an empty one, the stream is exactly the one error string, whatever the remote would have sent |
| `Chat.FailureYieldsErrorLast` | rag-prototype/frontend-ui/app_ui.py:244-246 | a remote failure adds exactly one error string, after the texts already yielded, and nothing after it |
| `Chat.StreamTextsAppend` | rag-prototype/frontend-ui/app_ui.py:236-242 | the texts of consecutive runs of events are the concatenation of each run's texts (the stream preserves event order) |
| `Chat.StreamTextsMembership` | rag-prototype/frontend-ui/app_ui.py:236-242 | a text is yielded if and only if some event that has `content` and `parts` has a part whose `text` is that text; events without content or parts and parts without text contribute nothing |
| `Chat.PartTextsMembership` | rag-prototype/frontend-ui/app_ui.py:240-242 | within one event, a text is yielded if and only if one of its parts carries it |
| `Chat.FallbackExactlyWhenSilent` | rag-prototype/frontend-ui/app_ui.py:265-268 | the final reply is the "No response received from the agent." fallback if and only if every chunk was empty (or the agent itself sent exactly that text) |
| `Chat.Predict` | rag-prototype/frontend-ui/app_ui.py:248-268 | a null or empty history is replaced by a new list and the caller's list is left unchanged, while a non-empty one is changed in place; exactly a user entry and an empty assistant entry are appended and yielded first; after the k-th chunk the yielded history is the original entries, the user entry and an assistant entry holding chunks 1..k; the final history ends with the full reply or the fallback message |
| `Chat.ShowReply` | rag-prototype/frontend-ui/app_ui.py:255-268 | one snapshot per chunk after the initial one, plus one for the fallback; earlier entries untouched, length kept at original + 2, last entry the running concatenation |
| `Bootstrap.StripSchemeLength` | rag-prototype/data-load-to-corpus/data_load_to_corpus.py:99 | removing `gs://` never lengthens a name and shortens every name that contains it |
| `Bootstrap.StripSchemeUnchangedIff` | rag-prototype/data-load-to-corpus/data_load_to_corpus.py:99 | a name is returned unchanged if and only if it contains no `gs://` |
| `Bootstrap.StripSchemeNoColon` | rag-prototype/data-load-to-corpus/data_load_to_corpus.py:67 | a name without a colon is left unchanged by the clean-up |
| `Bootstrap.StripLeadingScheme` | rag-prototype/data-load-to-corpus/data_load_to_corpus.py:132 | a leading `gs://` is removed, the rest being cleaned as it would be alone |
| `Bootstrap.StripSchemeSinglePass` | rag-prototype/data-load-to-corpus/data_load_to_corpus.py:99 | `replace` is one pass: "gsgs://://b" becomes "gs://b", which still contains the scheme |
| `Bootstrap.GeneratedSourceNameIsBare` | rag-prototype/data-load-to-corpus/data_load_to_corpus.py:88-104 | a generated "rag-source-" + project + "-" + suffix name has no `gs://` prefix and is returned as written |
| `Bootstrap.StagingSettingIsUri` | rag-prototype/data-load-to-corpus/data_load_to_corpus.py:113-140 | the `STAGING_BUCKET` value the staging step settles on (the one in `.env` once its write succeeds; a failed write is swallowed and leaves the old value or none) starts with `gs://`; it is rewritten if and only if it was missing, the placeholder, or lacked the prefix; stripping it gives back the returned raw bucket name |
| `Bootstrap.Workspace.UpdateEnvFile` | rag-prototype/data-load-to-corpus/data_load_to_corpus.py:54-60 | sets the key in the `.env` file, or leaves the file unchanged when the write fails, without raising |
| `Bootstrap.Workspace.EnsureBucketExists` | rag-prototype/data-load-to-corpus/data_load_to_corpus.py:62-78 | on success the bucket named without `gs://` exists and that name is returned; an access error propagates and changes nothing |
| `Bootstrap.Workspace.EnsureSourceBucket` | rag-prototype/data-load-to-corpus/data_load_to_corpus.py:80-104 | a missing, empty or placeholder setting is replaced by the generated name, written without `gs://` before the bucket is ensured; the returned name is the setting with every `gs://` removed |
| `Bootstrap.Workspace.EnsureStagingBucket` | rag-prototype/data-load-to-corpus/data_load_to_corpus.py:106-140 | a missing setting: the generated bucket is ensured first, then "gs://" + name is written and the raw name returned; an existing setting: the bucket without `gs://` is ensured, then "gs://" + value is written only if the value lacks the prefix; a bucket error propagates before any write |
| `Bootstrap.CreateOrGetCorpus` | rag-prototype/data-load-to-corpus/data_load_to_corpus.py:142-161 | returns the first listed corpus whose display name is `Alphabet_10K_2024_corpus`; create is called if and only if no corpus matches, and its outcome is the result; a listing error propagates without a create |
| `Bootstrap.WriteChunks` | rag-prototype/data-load-to-corpus/data_load_to_corpus.py:176-178 | the written file holds the response chunks concatenated in order |
| `Bootstrap.DownloadPdfFromUrl` | rag-prototype/data-load-to-corpus/data_load_to_corpus.py:163-196 | a successful primary request is the only request; a failed one triggers exactly one request to the fixed fallback URL; either success returns `output_path` with the body written; a fallback failure propagates and nothing is written |
| `Bootstrap.UploadPdfToCorpus` | rag-prototype/data-load-to-corpus/data_load_to_corpus.py:213-234 | the uploaded file is returned, and the success report given, if and only if the upload succeeded, and nothing on every error; an error is classified as already present if and only if it is not quota exhaustion and its text contains "409" or "already exists" |
| `Text.OccursIff` | rag-prototype/data-load-to-corpus/data_load_to_corpus.py:230 | the left-to-right search behind Python's `in` succeeds if and only if the pattern occurs at some index |

## Left out

- The behaviour of `rag.import_files`, `rag.list_corpora`, `rag.create_corpus`, `rag.upload_file`, Pub/Sub publishing, `agent_engines.get`/`stream_query`, HTTP requests, Cloud Storage bucket lookup and creation, and `set_key` on `.env`: each is an abstract outcome passed in as a parameter.
- JSON serialisation to UTF-8 bytes: notifications are modelled as their ordered key/value pairs. The Pub/Sub topic path is fixed at start-up and not modelled.
- Non-string values in the event payload (for example a numeric `name`, for which `endswith` would raise) and agent events whose `content` is not a mapping: payload fields and texts are strings in the model.
- Agent events whose `parts` is null or not a list, or that hold a part that is not a mapping (rag-prototype/frontend-ui/app_ui.py:239-242): the source raises there, partway through the event, so the error string follows the texts of that event's earlier parts. `RemoteStream` fails only between events, so it cannot express this.
- The failure notification's future is never awaited in the source. The model records the publish attempt. Whether that message is delivered is outside the model.
- Laziness of the generators: yields are modelled as complete sequences, not interleaved in time with the remote stream.
- `uuid` randomness (the session id, and the bucket suffix, which is a parameter), the prompt sent to the agent, printing and logging.
- The location passed to bucket creation: the workspace records which buckets exist, not where.
- A primary download that fails while its body is being written leaves a partial file. The fallback overwrites it when its own request succeeds. When the fallback request fails too, the partial file stays. In the model a failed request writes nothing.
- `main`, `initialize_vertex_ai`, `upload_to_gcs`, `list_corpus_files` and the script's own `GOOGLE_CLOUD_PROJECT`/`GOOGLE_CLOUD_LOCATION` checks in `data_load_to_corpus.py` are outside the modelled core. The two checks raise `ValueError` when their variable is unset or empty, as `Ingestion.StartUp` does for the handler's variables. `upload_to_gcs` removes `gs://` from the bucket name and swallows every upload error, as `Bootstrap.Workspace.UpdateEnvFile` does for the `.env` write. The others only sequence the modelled steps or call the platform.
- The agent definition, the deployment script, the corpus validation listing, and the HTML page, Gradio wiring and FastAPI serving in `app_ui.py`: configuration and serving with no logic of their own.
- Concurrency between handler invocations and the event platform's retry policy: each invocation is modelled in isolation.
