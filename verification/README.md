# Coze workflow app: the job bookkeeping, in Dafny

The application passes a wish typed into a web page to a workflow service,
and reports on the work through a job record kept in a key-value store.
Some handlers start a job. Some run it in the background and write its
progress. One answers status queries. A few call the workflow service, the
Google Apps Script document service or the Google Docs export directly. The
page either streams the workflow's answer itself or polls the job's status.

The external services do all the real work. This project models the
bookkeeping around them:

- **The job store.** `Store.JobStore` is a class over a map of entries. It
  stands for the in-memory `Map` fallback that `initKV` builds, for
  `global.taskStorage`, and for the Vercel KV and Upstash Redis clients.
  - `faults` lists how the backend will answer the coming writes.
  - A ghost log records the writes that landed, so every method can state
    what it wrote.
  - `Store.KvModule` and `Store.Globals` hold the module-level and global
    variables that choose the store.
- **The job lifecycle.** Every `set` replaces the whole record. A run's
  writes are a sequence of `Job.Record`s. `Job.Lifecycle` states the shape
  each task runner promises:
  - the status only moves forward;
  - a `completed` or `failed` record comes last;
  - progress never decreases, except for the final `failed` record.
- **Stream folding.** The workflow service's chunk stream is folded as the
  `for await` loops fold it (module `Stream`). The page's own event-stream
  line parser is modelled too (module `Client`). So is the parsing of a
  non-streamed answer (module `IndexServer`).
- **The status projection** (module `CheckStatus`). It maps a stored record
  and the current time to the status answer.
- **The handlers' decision trees.** One module per API file. Each maps a
  request and the outcomes of its external calls to a status code and a body.

JavaScript values are `JsValue.Value`, which has JavaScript truthiness, `||`
and property reads. Everything the code asks of the outside world is a
parameter of the model:

- the outcome of each `fetch` and of the workflow SDK's call, including a
  chunk stream that throws after its last chunk (`Stream.Provider`, and the
  `end` of `Client.CallDirect`'s body);
- the answers of the store backend;
- the result of `JSON.parse`;
- the current time;
- the random job-id suffix, which may be any text.

Loops and state changes in the source are methods proved against functions
over values. Lemmas state what the source promises about those functions.

## Model

| member | source | states |
|---|---|---|
| Web.Details | api/run-workflow.js:126 | `details` is the error's message exactly in development and `undefined` otherwise |
| Web.Destructure | api/start-task.js:24 | destructuring the body succeeds exactly when it is neither `null` nor `undefined`, and otherwise throws a TypeError |
| Web.MethodNotAllowed | api/start-task.js:16-21 | any method other than the served one gets 405 `Method not allowed` |
| Web.BadRequest | api/check-status.js:58-63 | a 400 answer whose body carries the given `error` and `message`; it is also the answer of api/background-processor.js:52-59 to a missing `jobId` or `input` |
| Web.InvalidInput | api/start-task.js:27-32 | a missing, non-string or blank input gets 400 `Invalid input` |
| Web.ServerError | api/start-task.js:99-109 | the `catch` answer is 500 and reports the error's message and constructor name |
| Web.HiddenError | api/run-workflow.js:121-128 | the `catch` answer is 500 and reveals the message only in development |
| Web.Accepted | api/start-task.js:91-97 | the 202 body carries the job id, status `pending` and the status URL `<path>?jobId=<id>` |
| Web.StartInput | api/start-task.js:24-32 | an unreadable body throws; otherwise the input is admitted exactly when it is a non-blank string, and it is kept trimmed |
| Web.AdmittedInput | api/start-task.js:65 | what an admitted request stores and forwards is the trimmed input, never empty |
| Web.StartAnswer | api/start-task.js:10-97 | preflight 200, 405, 500 for an unreadable body, 400 for a bad input, and 202 with the job's id exactly when the request is admitted |
| Web.Kickoff | api/start-task.js:71-84 | the trigger goes to `origin || https://workflow.lilingbo.top` plus the path and carries the job id and the trimmed input |
| Web.JobId | api/start-task.js:35 | the id is `job_`, the decimal time, `_` and the random suffix, each readable back at its position |
| Web.JobKey | api/start-task.js:61 | the store key is `job:` followed by the id |
| Web.JobKeyInjective | api/start-task.js:61 | two jobs share a key only if they share an id |
| StartTask.Handler | api/start-task.js:3-110 | only an admitted request writes, and it writes exactly the `pending` record under `job:<id>`; a failing write gives 500 and no trigger; success gives 202 and the trigger to the background processor; without Vercel KV no other store is touched |
| StartWorkflow.Serialised | api/start-workflow.js:44-51 | the stored value is the JSON text of the record |
| StartWorkflow.Handler | api/start-workflow.js:7-90 | as `StartTask.Handler`, over the Redis client, storing the record's JSON text; a failing write leaves the log and the remaining answers as they were |
| StartSimple.StartWrites | api/start-simple.js:43-78 | the job's key receives the `pending` record, then a `failed` record carrying the trigger's error message exactly when the trigger fails |
| StartSimple.Write | api/start-simple.js:43-50 | one `set` into the `Map` replaces the key's entry with the record, logs exactly that write and leaves the store healthy |
| StartSimple.Enqueue | api/start-simple.js:43-78 | the store's log grows by exactly those writes and the key ends holding the last one |
| StartSimple.Keep | api/start-simple.js:40-78 | `global.taskStorage` is reused when set and otherwise a fresh `Map`; it ends holding exactly the old entries plus the job's last record, after exactly the job's writes |
| StartSimple.Handler | api/start-simple.js:3-102 | the answer is the job-starting answer with status path `/api/status-simple`; a rejected request touches nothing; an admitted one creates `global.taskStorage` if needed, writes only under the job's key and triggers `/api/process-simple` |
| RunWorkflow.ConfigError | api/run-workflow.js:28-42 | a missing variable is answered 500 `Server configuration error` naming which one |
| RunWorkflow.Internal | api/run-workflow.js:120-128 | the `catch` answer is 500 with the message shown only in development |
| RunWorkflow.Upstream | api/run-workflow.js:83-96 | an upstream response that is not ok is answered with the upstream's own status and its text as `details` |
| RunWorkflow.OutData | api/run-workflow.js:110 | `outData` is the first truthy of `data`, `output` and `result`, else `处理完成`, and is always truthy |
| RunWorkflow.Finished | api/run-workflow.js:108-118 | the 200 answer carries that `outData`, the whole upstream body as `response_data`, the workflow id and the untrimmed input length in UTF-16 code units |
| RunWorkflow.Call | api/run-workflow.js:55-80 | the service is called exactly for a POST with both variables set, a readable body and a valid input, with the trimmed input |
| RunWorkflow.Answer | api/run-workflow.js:9-129 | preflight, 405, the key is checked before the id and both before the input; network errors are 500, upstream failures keep their status, and 200 happens exactly when the call is made, is ok and yields a readable JSON body |
| RunWorkflow.AnswerWithoutCall | api/run-workflow.js:28-53 | when no call is made the answer does not depend on what the service would have said |
| RunWorkflow.ConfigurationBeforeInput | api/run-workflow.js:28-45 | with the key unset the answer is 500 whatever the body holds |
| Download.FinalDocId | api/download.js:26-27 | the id is `docId` when truthy, else `documentId` |
| Download.FinalFileName | api/download.js:66 | the file name is `fileName` when truthy, else `document_<time>.docx`, and is always truthy |
| Download.ExportUrl | api/download.js:44 | the export address is the Google Docs prefix, the id's text and `/export?format=docx`, each part readable back; it describes the request only, since `Process` takes the fetch's outcome as a parameter |
| Download.Failed | api/download.js:86-94 | the `catch` answer is 500 `Document processing error` |
| Download.Uploaded | api/download.js:76-84 | the 200 answer carries the blob's address, the file name, the byte count and the id under both names |
| Download.Process | api/download.js:24-94 | an unreadable body or a failing export, status or upload gives 500; no id gives 400; 200 happens exactly when the id is present, the export is ok and the upload succeeds |
| Download.Answer | api/download.js:4-95 | preflight 200, 405 for other methods, and a POST is answered by `Process` |
| GenerateDocument.ScriptCall | api/generate-document.js:36-48 | the script service receives the workflow data under `data` |
| GenerateDocument.DownloadCall | api/generate-document.js:75-84 | the download service is called at `origin || default` plus `/api/download` with the id and `workflow_document_<time>.docx` |
| GenerateDocument.Failed | api/generate-document.js:116-124 | the `catch` answer is 500 `Document generation error` |
| GenerateDocument.BadGateway | api/generate-document.js:50-58 | a service whose status is not ok gives 502 with the service's text as `details`, keeping any extra fields |
| GenerateDocument.MissingId | api/generate-document.js:63-70 | a script reply without an id gives 500 `Missing document ID` carrying that reply |
| GenerateDocument.Generated | api/generate-document.js:101-114 | the 200 answer carries the id, the script's reply and the download service's link, name and size |
| GenerateDocument.AfterScript | api/generate-document.js:60-114 | an unreadable script reply is a 500 from reading `docId`; no truthy id gives `Missing document ID`; a 200 needs an ok, JSON download reply and carries the first truthy id |
| GenerateDocument.Answer | api/generate-document.js:2-125 | preflight, 405, 500 for a body that cannot be destructured, 400 for falsy `workflowData`, 500 for a network error, 502 when the script's status is not ok, 500 when its ok reply is not JSON, and otherwise the id and download steps |
| GenerateDocument.DocumentIdOutcomes | api/generate-document.js:60-114 | no truthy `docId`, `documentId` or `id` gives 500 with the reply; a failed download gives 502 naming the id; 200 only with the first truthy id and a readable download reply |
| GenerateDocument.DownloadCallAccepted | api/generate-document.js:80-83 | the download request this handler sends is one the download handler accepts: it reads back the same id and file name (api/download.js:26-27, 66) |
| Documents.ServiceReply | api/worker.js:223-264 | a rejected call fails with its error, a status that is not ok fails with the service's prefix and the status (`Google Apps Script 调用失败: ` for the script service, `下载 API 调用失败: ` for the download service), and otherwise the body is parsed |
| Documents.DocIdOf | api/worker.js:240-244 | the id is the first truthy of `docId`, `documentId` and `id`; none truthy throws `未能从 Google Apps Script 获取文档 ID`, an unreadable reply throws a TypeError |
| Documents.DocumentOf | api/worker.js:264-272 | the document result is the id plus the download reply's `downloadUrl`, `fileName` and `fileSize`, and exists exactly when that reply is readable |
| Documents.Generate | api/worker.js:216-278 | `generateDocument` fails with the script call's error or the missing-id error, in that order; a document needs an ok download reply and carries the script's id |
| Documents.GenerateSucceeds | api/worker.js:216-278 | a document comes out exactly when both services answer ok with readable bodies and the script names a document, and then its id is the first truthy of the three names |
| Worker.Execution | api/worker.js:117-210 | the key is checked, then the workflow id, then the input, each failing with its own message; a result exists exactly when all three pass, the service call does not reject and its stream does not throw before `Done` (a stream error fails the run), and it carries the workflow id, the untrimmed input length in UTF-16 code units and `api_method: 'stream'` |
| Worker.OutDataFallbacks | api/worker.js:200 | the `finalResult` and `处理完成` fallbacks are never taken: without a truthy streamed `outData` the result is the JSON text of `infojson`, so a plain answer always gives `"null"` |
| Worker.ResponseData | api/worker.js:205 | `response_data` falls back to `cozeData`: the `Done` chunk, `{}` without one, or the plain answer itself, so a stream's result always has truthy `response_data` |
| Worker.ExecuteWorkflow | api/worker.js:117-210 | the loop stops at the first `Done` chunk, a stream that throws first rejects with its error, and the method returns exactly `Execution` |
| Worker.FailedRun | api/worker.js:95-105 | after a failed stage the `failed` write, when it lands, closes the records without `completed`, and with a healthy store the run wrote exactly 0 and `failed` |
| Worker.Outcome | api/worker.js:35-97 | `processWorkflow` resolves exactly when the workflow succeeds, to its result with `documentResult`, which is set exactly when the document is wanted and generated; otherwise it rejects with the workflow's error |
| Worker.Writes | api/worker.js:38-105 | a run with a store that accepts every write writes 0 first; a failed workflow then writes only `failed` with its message; a successful one ends with `completed` holding `Outcome` |
| Worker.Close | api/worker.js:79-93 | the `completed` write holds the result spread with `documentResult` and closes a lifecycle; a write that throws leaves it unwritten and the run fails |
| Worker.WorkflowData | api/worker.js:63-65 | the document stage runs exactly when `extracted_infojson || response_data` is truthy, and is given that value |
| Worker.DocumentStage | api/worker.js:62-77 | `documentResult` is set exactly when the stage runs and `generateDocument` succeeds, and is then its result |
| Worker.FinishLifecycle | api/worker.js:54-91 | a successful run's writes climb from 0 through 50 to `completed`, with a 90 step exactly when a document was made |
| Worker.WritesLifecycle | api/worker.js:35-113 | with a store that accepts every write, the records form a lifecycle from 0 that ends `failed` with the error exactly when the run fails, otherwise `completed` with the outcome |
| Worker.Launch | api/worker.js:40-51 | the 0 write is logged when the store accepts it, and the workflow runs only after it |
| Worker.DocumentPart | api/worker.js:62-77 | the document result survives a failing 90 write, and the 90 write is attempted only when a document was made |
| Worker.Proceed | api/worker.js:54-77 | the 50 write and the document stage keep the run climbing and never above 90 |
| Worker.Rest | api/worker.js:54-94 | after a successful workflow the run ends with `completed` carrying the result and the document, unless a write throws |
| Worker.Stages | api/worker.js:36-94 | the `try` block returns `Outcome` and leaves a lifecycle ending in `completed`, or stops below 90 |
| Worker.WritesOf | api/worker.js:43-91 | a successful workflow's outcome and writes are the result spread with `documentResult` and the 0, 50, optional 90 and 100 records |
| Worker.Recover | api/worker.js:96-110 | the `catch` writes one `failed` record carrying the error's message to the same store, and a failure of that write is swallowed |
| Worker.FailedWrites | api/worker.js:96-110 | with a store that accepts every write, a failed run writes the 0 record and then the `failed` record |
| Worker.ProcessWorkflow | api/worker.js:35-114 | the writes form a lifecycle; success returns `Outcome` after a final `completed` write; failure never ends on `completed`; with the in-memory store the result and the writes are exactly `Outcome` and `Writes` |
| Worker.RunJob | api/worker.js:36-113 | once `initKV` has produced the store: the writes form a lifecycle, success returns `Outcome` after a final `completed` write, and with a store that accepts every write the result and the writes are exactly `Outcome` and `Writes` |
| Worker.HandlerAnswer | api/worker.js:281-310 | preflight, 405, 200 with the workflow result, or 500 carrying the thrown message |
| Worker.Handler | api/worker.js:281-310 | the handler answers exactly `HandlerAnswer` |
| Store.LaterFaults | api/worker.js:17-27 | a backend that accepts every write still does after answering one |
| Store.DropStep | api/background-processor.js:185 | the store answers successive writes one after the other, in order |
| Store.TaggedAt | api/background-processor.js:82-87 | each logged write under a job's key is the whole record at the same position |
| Store.ReplayLastWins | api/background-processor.js:82-143 | after a run of whole-record writes under one key, that key holds the last record and no other key changes |
| Store.JobStore.Memory | api/worker.js:17-27 | the in-memory fallback starts empty and accepts every write |
| Store.JobStore.Remote | api/start-workflow.js:5 | a remote client sees the store's current content and answers writes as the backend will |
| Store.JobStore.Set | api/worker.js:20-23 | a write replaces the whole value under the key and answers `OK`, or throws and changes nothing |
| Store.JobStore.Get | api/worker.js:24-26 | a read gives the value last written under the key, or `null` when there is none |
| Store.SetThenGet | api/worker.js:20-26 | writing a present value and reading it back gives that value, other keys are unaffected, and an empty store reads `null` |
| Store.KvModule.constructor | api/worker.js:5-6 | the module starts with no store and `kvInitialized` false |
| Store.KvModule.InitKV | api/worker.js:8-32 | the first call picks Vercel KV when it loads and otherwise a fresh in-memory store; every later call returns that same store |
| Store.Globals.TaskStorage | api/start-simple.js:40 | `global.taskStorage || new Map()`: an existing map is kept, otherwise a fresh empty one is installed |
| Store.CompleteWrite | api/background-processor.js:123-129 | the `completed` write ends the lifecycle when it lands; when it throws nothing is written and the run stays below 100 |
| Store.Kept | api/background-processor.js:136-146 | the records that land are those whose write the backend accepts, in order, never more than were sent |
| Store.KeptHealthy | api/worker.js:17-27 | with a store that accepts every write, every record sent lands |
| Store.KeptLifecycle | api/background-processor.js:82-146 | dropping records whose write threw keeps a lifecycle a lifecycle |
| Store.Attempt | api/background-processor.js:136-146 | a write whose failure is only logged lands exactly when the backend accepts it, and the store moves to its next answer |
| Store.InitTwiceSameStore | api/worker.js:8-32 | two `initKV` calls in a row give one store: a record written through the first is read back through the second |
| Stream.ChunkValue | api/worker.js:186-188 | a chunk as the object kept as `cozeData` carries its `event` and `data` |
| Stream.AbsorbContent | api/background-processor.js:191-205 | a `content` that does not parse changes nothing; otherwise `infojson` and `outData` are replaced only by truthy values, so a truthy one stays truthy |
| Stream.Fold | api/background-processor.js:179-211 | across the chunks read, a truthy `infojson` or `outData` stays truthy |
| Stream.Extract | api/background-processor.js:179-211 | after the loop `infojson` and `outData` are their start values or truthy, and a stream without `Done` is folded whole |
| Stream.Consumed | api/background-processor.js:180-210 | the loop consumes chunks up to and including the first `Done`, or all of them |
| Stream.FoldInfojson | api/background-processor.js:191-205 | `infojson` is that of the last chunk supplying a truthy one, and unchanged when none does |
| Stream.DoneStops | api/background-processor.js:207-209 | chunks after a `Done` are never read |
| Stream.ConsumedAtFirstDone | api/background-processor.js:207-209 | the loop stops exactly at the first `Done` chunk |
| Stream.StreamProgress | api/background-processor.js:177-184 | the progress written for the k-th chunk starts at 20 and stays within [25, 50] once a chunk was read |
| Stream.BumpStep | api/background-processor.js:184 | each chunk's progress is `min(previous + 5, 50)` and never decreases |
| Stream.OutDataNeverDefault | api/background-processor.js:215 | the `处理完成` fallback is never taken: without a truthy `outData` the result is the JSON text of `infojson`, `"null"` when none was supplied |
| Stream.StreamResult | api/background-processor.js:213-224 | the streamed result carries `infojson` as `extracted_infojson`, prefers it as `response_data`, and records the untrimmed input length in UTF-16 code units |
| Stream.Consume | api/background-processor.js:179-211 | the loop's variables end as `Extract` of the stream, and the `Done` chunk is returned exactly when there is one |
| BackgroundProcessor.ReadChunks | api/background-processor.js:180-210 | the chunks the loop reads are those of the stream up to its first `Done`, all of them before a stream error, and none when the service answered without a stream |
| BackgroundProcessor.Workflow | api/background-processor.js:151-225 | an unset key or workflow id fails with the configuration error; otherwise a non-string input fails in `trim`, a rejected call fails, a stream that throws before its `Done` chunk fails with that error, and success records the workflow id, `apiMethod: "stream"`, the extracted `infojson` and the input length in UTF-16 code units |
| BackgroundProcessor.StreamWritesExtend | api/background-processor.js:184-189 | one more chunk adds exactly its progress write to the stream's writes |
| BackgroundProcessor.StreamWritesClimb | api/background-processor.js:177-189 | the stream's progress writes never go back below what was written before them |
| BackgroundProcessor.RunnerStepsAppend | api/background-processor.js:93-115 | writes that are all running-stage progress stay so when concatenated |
| BackgroundProcessor.StartThenSteps | api/background-processor.js:82-98 | the 10% start write followed by running steps keeps that shape |
| BackgroundProcessor.StreamWritesRunner | api/background-processor.js:185-189 | every progress write of the stream is a running step between 25 and 50 |
| BackgroundProcessor.Push | api/background-processor.js:185-189 | a progress write lands exactly when the store accepts it; a rejection is reported and leaves the log unchanged |
| BackgroundProcessor.StreamLoop | api/background-processor.js:177-211 | the loop writes one progress record per chunk read, ends with the variables `Extract` gives for the stream, and stops at the first failed write |
| BackgroundProcessor.StreamWritesPrefix | api/background-processor.js:180-189 | the progress writes that landed are the first ones of `StreamSteps` |
| BackgroundProcessor.FoldStream | api/background-processor.js:177-211 | a streamed answer is read to its first `Done`, a plain one not at all; without a failed write it writes exactly `StreamSteps` and then fails exactly with the stream's own error, if it throws before `Done`; a healthy store makes no write fail |
| BackgroundProcessor.ExecuteCozeWorkflow | api/background-processor.js:151-225 | the result is `Workflow` of the inputs, including a stream error, unless a progress write throws, in which case that write's error is the result; its writes are a prefix of `StreamSteps` of the chunks read, and all of them when it succeeds or the stream throws |
| BackgroundProcessor.DocumentStage | api/background-processor.js:101-115 | a document is attached exactly when the workflow asks for one and its generation succeeds |
| BackgroundProcessor.GenerateDocument | api/background-processor.js:228-294 | it writes 70 then 80, stopping at a failed write, so its writes are a prefix of `GenerateWrites` and all of them with a healthy store; success equals the document service's outcome, and a failing service is never reported as success |
| BackgroundProcessor.DocumentStepsClimb | api/background-processor.js:101-115 | the document stage's writes climb from 60 and are running steps |
| BackgroundProcessor.DocumentWrites | api/background-processor.js:101-115 | the document block writes something exactly when `extracted_infojson` is truthy, and writes 90 (its third write) exactly when a document is attached |
| BackgroundProcessor.DocumentWritesClimb | api/background-processor.js:101-115 | the document block's writes after 60 keep the run climbing, to at most 90 |
| BackgroundProcessor.MiddleWrites | api/background-processor.js:93-115 | the writes after the workflow start with 60 carrying the workflow result |
| BackgroundProcessor.MiddleClimb | api/background-processor.js:93-115 | whatever prefix of 60 and the document writes lands, the run keeps climbing to at most 90 with runner steps only |
| BackgroundProcessor.CompletionWrites | api/background-processor.js:93-129 | after the workflow a healthy run writes 60 first and ends with `completed` holding the workflow and `DocumentStage` |
| BackgroundProcessor.CompletionLifecycle | api/background-processor.js:93-129 | 60, the document writes and `completed` extend a climbing run to a lifecycle |
| BackgroundProcessor.DocumentPhase | api/background-processor.js:101-115 | the writes that land are a prefix of `DocumentWrites`, and all of it with a healthy store; only a successfully generated document is attached |
| BackgroundProcessor.Proceed | api/background-processor.js:93-115 | the 60 write carries the workflow result and comes first; the writes that land are a prefix of `MiddleWrites` (60, then the document block's writes), empty exactly when the 60 write threw, and all of it with a healthy store |
| BackgroundProcessor.FinishRun | api/background-processor.js:93-129 | a run that does not fail ends with a `completed` record holding the workflow's result and any document, completing a lifecycle; with a healthy store the writes are exactly `CompletionWrites` |
| BackgroundProcessor.DoneStep | api/background-processor.js:117-129 | the `completed` record closes the lifecycle and reports the workflow together with the generated document, if any |
| BackgroundProcessor.Launch | api/background-processor.js:82-90 | the run opens with the 10% start write and then the workflow's own writes, never past 50; with a healthy store those are exactly 10 and `StreamSteps` of the chunks read, also when the stream throws part-way |
| BackgroundProcessor.StartedStream | api/background-processor.js:82-90 | the 10% start write followed by the stream's progress writes climbs to at most 50, and every write after the first is a running step |
| BackgroundProcessor.Continue | api/background-processor.js:93-129 | a failed workflow writes nothing further; a successful one proceeds to the `completed` record, writing exactly `CompletionWrites` with a healthy store |
| BackgroundProcessor.RunStages | api/background-processor.js:78-130 | the `try` block: start, workflow, document stage and completion, or a failure with progress at most 90; with a healthy store it writes exactly 10, the stream's steps and `CompletionWrites`, or 10 and the steps of the chunks read before the workflow failed |
| BackgroundProcessor.StagesOutcome | api/background-processor.js:78-130 | the start and workflow writes followed by the completion writes give the `try` block's writes: they open with 10, end in `completed` reporting the workflow when nothing threw, and are exactly the healthy-store lists |
| BackgroundProcessor.RecordFailure | api/background-processor.js:131-147 | an error is written as a `failed` record carrying its message, unless that write itself throws, and the lifecycle still holds |
| BackgroundProcessor.RunnerOrFailed | api/background-processor.js:82-147 | after the first record every write of a run is a running step or the `failed` record |
| BackgroundProcessor.RunWrites | api/background-processor.js:75-148 | a healthy run writes 10, one step per chunk read, and then `failed` when the workflow fails (also part-way through the stream) or the completion writes otherwise |
| BackgroundProcessor.RunWritesLifecycle | api/background-processor.js:75-148 | the writes of a healthy run form a lifecycle: only the last record is terminal, and progress never decreases before a `failed` record |
| BackgroundProcessor.BrokenStreamRun | api/background-processor.js:133-211 | a stream that throws after k chunks without `Done` gives exactly 10, k progress steps and `failed` with the stream's message |
| BackgroundProcessor.RunWritesLast | api/background-processor.js:75-148 | a healthy run ends with `failed` carrying the workflow error's message, or with `completed` holding the workflow result and the document stage's outcome |
| BackgroundProcessor.CatchOutcome | api/background-processor.js:130-147 | the `catch` completes the `try` block's writes: with a healthy store the whole run is `RunWrites`, and a `completed` last record reports the workflow and only a generated document |
| BackgroundProcessor.ProcessLongRunningTask | api/background-processor.js:75-148 | the writes form a lifecycle, and a `completed` last record reports the workflow and only a generated document; with a healthy store the writes are exactly `RunWrites` |
| BackgroundProcessor.Acknowledged | api/background-processor.js:62-66 | the 200 acknowledgement carries the job id it was given |
| BackgroundProcessor.Answer | api/background-processor.js:34-72 | preflight, 405, and for a POST the acknowledgement exactly when both `jobId` and `input` are truthy |
| BackgroundProcessor.Handler | api/background-processor.js:34-72 | the response is `Answer`; only an acknowledged request initialises the store and runs the background task, whose writes under the job's key form a lifecycle |
| ProcessSimple.Handler | api/process-simple.js:4-196 | answers as the background processor does; an acknowledged job writes exactly `RunWrites` into `global.taskStorage`, a lifecycle that starts at 10% and ends with `completed` holding the workflow's result or `failed` with its error, and the key ends up holding that last record |
| ProcessSimple.StartTask | api/process-simple.js:39-196 | the global map exists afterwards, the run writes exactly `RunWrites` (a lifecycle from 10% to `failed` or `completed`), and only the job's key changes, to the last record written |
| ProcessSimple.RunTask | api/process-simple.js:45-196 | on a map that accepts every write, the run writes exactly `RunWrites` and the job's key ends up holding the last of them |
| StartWorkflowSimple.Finished | api/start-workflow-simple.js:121-126 | the 200 answer has status `completed` and carries the workflow result |
| StartWorkflowSimple.Answer | api/start-workflow-simple.js:4-139 | preflight, 405, 400 for an invalid input, 500 for a missing key or workflow id, a rejected call or a stream that throws before `Done`, and otherwise 200 with the result extracted from the stream, which needs a valid input and both settings |
| StartWorkflowSimple.ReportsUntrimmedLength | api/start-workflow-simple.js:111 | the reported `input_length` is the UTF-16 length of the input before trimming |
| StartWorkflowSimple.Handler | api/start-workflow-simple.js:76-102 | the handler with its `for await` loop, which a stream error leaves for the `catch`, answers exactly `Answer` |
| CheckStatus.TimeOf | api/check-status.js:80 | `new Date(v)` under the millisecond encoding of times listed in Left out: a stored time is a number, so undefined, a text, an array or an object gives no valid time; `null` is time 0; a valid time lies within the `Date` range |
| CheckStatus.Elapsed | api/check-status.js:82 | whole seconds between two times, rounded down, and `NaN` when either is invalid |
| CheckStatus.RunningTime | api/check-status.js:80-82 | the running time exists exactly when `createdTime` is a valid time, and is the whole seconds from it to now, rounded down |
| CheckStatus.Remaining | api/check-status.js:103 | `Math.max(0, 60 - runningTime)`: at most 60 for a non-negative running time and 0 once a minute has passed |
| CheckStatus.RemainingText | api/check-status.js:103 | digits followed by ` 秒`, `0 秒` once a minute has passed, and `NaN 秒` without a running time |
| CheckStatus.Common | api/check-status.js:85-93 | the common fields are exactly `success`, `jobId`, `status`, `progress`, `message`, `runningTime` and `createdTime` |
| CheckStatus.PendingExtra | api/check-status.js:97-99 | a pending job adds only `estimatedTime` |
| CheckStatus.ProcessingExtra | api/check-status.js:101-104 | a processing job adds `currentStep` and `estimatedRemaining` |
| CheckStatus.CompletedExtra | api/check-status.js:106-116 | a completed job adds `result`, `completedTime` and `totalTime`, and the link and file name only when it has a document result |
| CheckStatus.FailedExtra | api/check-status.js:118-121 | a failed job adds `error` and `failedTime` |
| CheckStatus.StatusFields | api/check-status.js:96-122 | the `switch` never overwrites a common field |
| CheckStatus.Projection | api/check-status.js:85-122 | the answer's fields are the common ones plus those of the status |
| CheckStatus.CommonProjection | api/check-status.js:85-93 | `status` and `createdTime` are copied verbatim, `progress` defaults to 0, `message` to '' and `runningTime` is the elapsed seconds |
| CheckStatus.PendingFields | api/check-status.js:97-99 | a pending job's estimate is the fixed text |
| CheckStatus.ProcessingFields | api/check-status.js:101-104 | a processing job shows its message as the current step and the remaining-time text |
| CheckStatus.CompletedKeys | api/check-status.js:106-116 | a completed job's fields, with the document link exactly when a document result is stored |
| CheckStatus.CompletedValues | api/check-status.js:107-108 | a completed job shows its stored result and completion time |
| CheckStatus.CompletedTotalTime | api/check-status.js:109 | the total time is the whole seconds from creation to completion |
| CheckStatus.CompletedDocument | api/check-status.js:112-115 | the link and file name are those of `result.documentResult` |
| CheckStatus.FailedFields | api/check-status.js:118-121 | a failed job shows its stored error and failure time |
| CheckStatus.OtherStatusFields | api/check-status.js:96-122 | any other status, or none, adds nothing |
| CheckStatus.RemainingBounded | api/check-status.js:103 | the remaining-time estimate is a non-negative count of seconds, at most 60 unless creation lies in the future, and `NaN` without a creation time |
| CheckStatus.CreatedProjection | api/check-status.js:80-99 | the record written when a job is created reads back as pending, progress 0, its message, the fixed estimate and the whole seconds since creation |
| CheckStatus.NoClock | api/check-status.js:80-109 | without a valid creation time there is no running time, the estimate reads `NaN 秒` and a completed job has no total time |
| CheckStatus.RunnerRecordHasNoClock | api/check-status.js:80-109 | every record a task runner writes replaces the one with `createdTime`, so afterwards the answer has no clock-derived times |
| CheckStatus.NotFound | api/check-status.js:71-77 | the 404 answer echoes the job id |
| CheckStatus.Handler | api/check-status.js:33-135 | preflight, 405 for other than GET, 400 for an invalid id, 404 when nothing is stored under `job:<id>` and otherwise 200 with the projection; only a valid query initialises the store and no stored entry changes |
| Job.ClimbStep | api/background-processor.js:82-115 | a processing write at or above the current ceiling keeps the writes climbing |
| Job.ClimbPrefix | api/background-processor.js:82-115 | what a climbing run had written at any earlier point was climbing too |
| Job.LifecycleMonotone | api/background-processor.js:82-129 | in a lifecycle the progress of the records never decreases, except for the final `failed` record |
| Job.LifecycleForward | api/background-processor.js:82-147 | in a lifecycle the status only moves forward, a `completed` or `failed` record is the last one, and no record is `pending` |
| Job.InfoValue | api/background-processor.js:216-223 | the `infoJson` object carries the workflow id, the input length, `response_data`, `extracted_infojson`, `api_method` and any download link |
| Job.WorkflowValue | api/background-processor.js:213-224 | the workflow result object carries `success: true`, `outData` and its `infoJson` |
| Job.DocumentValue | api/background-processor.js:287-293 | the document result object carries the id, the link, the file name and the size |
| Job.FinalValue | api/background-processor.js:118-121 | the final result spreads the workflow result and has a truthy `documentResult` exactly when a document was made |
| Job.RecordValue | api/start-task.js:61-68 | each stored record is an object whose fields are those set, and absent fields read as undefined |
| JsValue.FirstTruthyField | api/generate-document.js:60 | `a || b || c` of an object's fields: the first truthy one, or the last when none is |
| JsValue.NatText | api/check-status.js:103 | the decimal text of a count of seconds is non-empty and made of digits only |
| JsValue.IntText | api/download.js:66 | the decimal text of an integer is never empty |
| JsValue.JsonText | api/start-workflow.js:44-51 | `JSON.stringify`: undefined has no text, null is `null`, and every other value has a non-empty text |
| JsValue.Least | api/start-workflow.js:44-51 | the key chosen is in the set and below every other key in code-point order, so an object's keys are written in a fixed order |
| JsValue.LeastExists | api/start-workflow.js:44-51 | every non-empty set of keys has a least element in code-point order |
| JsValue.Stringify | api/background-processor.js:215 | `JSON.stringify(v, null, 2)` as a value: `"null"` for null, undefined for undefined, a non-empty text otherwise |
| JsValue.TrimSpec | api/start-task.js:27 | `trim()` removes the leading and trailing white space and nothing else: the result is a slice of the input, bounded by non-space characters, and empty exactly for a blank input |
| JsValue.Utf16Length | api/background-processor.js:219 | `input.length` counts UTF-16 code units: between the number of characters and twice it |
| JsValue.Utf16LengthPlain | api/background-processor.js:219 | the code-unit length equals the number of characters exactly when no character lies beyond the Basic Multilingual Plane |
| JsValue.Utf16LengthAppend | api/background-processor.js:219 | the code-unit length of a concatenation is the sum of the lengths |
| JsValue.Utf16LengthOfEmoji | api/background-processor.js:219 | the two characters `a😀` have length 3 |
| JsValue.TrimIdempotent | public/script.js:22-33 | trimming a trimmed text changes nothing |
| JsValue.ValidInputMeansVisibleText | api/start-task.js:27-32 | an input passes validation exactly when it is a string with some non-space character |
| JsValue.TrimStart | api/start-task.js:27 | the result is a suffix of the input whose dropped prefix is white space and which does not start with white space |
| JsValue.TrimEnd | api/start-task.js:27 | the result is a prefix of the input whose dropped suffix is white space and which does not end with white space |
| IndexServer.Decoded | index.js:521-525 | text is parsed as JSON and any other value is taken as it is |
| IndexServer.Unpack | index.js:519-550 | `infojson` comes from the decoded data; `downloadUrl` is read from a truthy `outData`, decoded when it is text, and is `null` otherwise; any failure inside the block is one error |
| IndexServer.BatchResult | index.js:559-572 | `outData` is the JSON text of a truthy `infojson` and `处理完成` otherwise; the link and `infojson` are carried, `api_method` is `direct` and the input length in UTF-16 code units is recorded |
| IndexServer.Batch | index.js:463-576 | an unset key or workflow id, a network error, a status that is not ok and an unparseable answer each fail with their own error; success exactly when all steps pass, giving `BatchResult` of the unpacked data |
| IndexServer.LinkName | index.js:412 | a file name is made exactly when the workflow returned a truthy download link |
| IndexServer.FileNameOnlyWithLink | index.js:408-413 | the stored result's `fileName` is `null` exactly when there is no truthy download link, and its `downloadUrl` is the workflow's |
| IndexServer.Planned | index.js:321-459 | the background task attempts 10% first and then either only `failed` or, when the workflow succeeds, four writes whose second holds the workflow result |
| IndexServer.PlannedLifecycle | index.js:321-459 | the writes the background task attempts start at 10% and form a lifecycle that ends `completed` exactly when the workflow succeeds, and otherwise `failed` with its error |
| IndexServer.ProcessBackgroundTask | index.js:311-460 | a failed connection test rejects the background task before any write; otherwise it never rejects, the writes that land are the planned ones whose write the store accepts, all of them with a healthy store, and in the order they are issued they form a lifecycle |
| IndexServer.Run | index.js:321-459 | the `try` block: its landed writes are exactly the planned writes the store accepts, in order |
| IndexServer.Finish | index.js:371-441 | the 60, 90 and `completed` writes are each attempted once, and those the store accepts land |
| IndexServer.StartWorkflow | index.js:38-101 | a body that cannot be read gives 500, an invalid input 400; otherwise the `pending` record is written and the 202 answer names the job, and the background task is started only when that write succeeded |
| IndexServer.StartAndRun | index.js:38-101 | a 202 answer means the `pending` record was stored and followed by the background task's lifecycle under the same key; any other answer writes nothing |
| IndexServer.DownloadRoute | index.js:198-273 | the route answers as api/download.js does: 400 without a document id, and the id under both names on success |
| Client.Submitted | public/script.js:22-33 | the form submits nothing exactly for a blank input, and otherwise the trimmed, non-empty text |
| Client.ClientAgreesWithServer | public/script.js:22-33 | the page submits exactly the inputs the job-starting handlers admit, and the input the server stores is the one the page sent |
| Client.SentInput | public/script.js:83-92 | the start request's body carries the input, which the server reads back as its trimmed text, or as no input when blank |
| Client.Lines | public/script.js:591 | `split('\n')`: at least one line, none containing a newline, and joining them back with newlines gives the text |
| Client.JoinedHead | public/script.js:591 | prefixing the first line prefixes the joined text |
| Client.Delivered | public/script.js:597-626 | a line delivers content exactly when it is a `data: ` line, not empty or `[DONE]`, whose payload parses, under the event `Message`, with a truthy `content` that parses to an object |
| Client.Latest | public/script.js:615-620 | the value kept for a key is the default or truthy; it is the default when no delivery had it truthy and otherwise the last delivery's that did |
| Client.ScanIsLatest | public/script.js:591-629 | after scanning lines, `messageData` is the last delivered content, and `infojson` and `outData` are the last truthy ones delivered |
| Client.EventLineDeliversNothing | public/script.js:593-596 | an `event: ` line never delivers content |
| Client.QuietChunkKeepsNothing | public/script.js:582-630 | a chunk without `event: ` lines changes nothing, since each chunk's scan starts with an empty event |
| Client.StreamKeepsTruthy | public/script.js:615-620 | at the end of the stream `infojson` is `null` or truthy and `outData` is `''` or truthy |
| Client.ReadStream | public/script.js:582-630 | the reader loop's raw text is the chunks concatenated and its found values are those of the chunk-by-chunk scan |
| Client.DirectFallbackNeverTaken | public/script.js:641 | the `处理完成` fallback is never taken: without a truthy `outData` the result is the JSON text of `infojson`, which is truthy |
| Client.SilentStream | public/script.js:582-641 | a stream without `event: ` lines yields nothing, and its `outData` is the text `null` |
| Client.DirectResult | public/script.js:638-651 | the result carries the chosen `outData`, the raw response, the extracted `infojson`, `infojson` or else `messageData` as `response_data`, and the input length in UTF-16 code units |
| Client.CallDirect | public/script.js:537-652 | a missing token or workflow id fails with the configuration message before any call, a network error is passed on, a status that is not ok fails with its status and text, and otherwise every chunk is read: a body whose read rejects after the last chunk fails with that error, and one that ends normally gives `DirectResult` of the scanned stream |
| Client.StatusText | public/script.js:492-500 | the four known statuses get their labels, and any other status is shown as it is |
| Client.StatusTextDistinguishesJobs | public/script.js:492-500 | every status a job record can hold has a label, and different statuses get different labels |
| Client.Judge | public/script.js:372-409 | polling stops exactly for a readable `completed` or `failed` status of a known job, and only `completed` shows its result |
| Client.Poller.constructor | public/script.js:13-20 | the page starts with no job, no polling, no error and nothing shown |
| Client.Poller.StartPolling | public/script.js:331-345 | a new session resets the counter and starts polling, and nothing else changes |
| Client.Poller.Tick | public/script.js:350-366 | each firing counts; past 24 polling stops with the time-out error, otherwise the job's status is checked and counted |
| Client.Poller.CheckJobStatus | public/script.js:372-409 | a terminal status stops polling and clears loading, and `completed` shows the result; anything else, including a thrown request, changes nothing |
| Client.Session | public/script.js:69-119 | at most 24 status requests are made; every outcome before the last one read said continue; polling is still on only if all of them did, and otherwise it stopped at a terminal status or at the time-out on the 25th firing |
| Stream.FoldKept | api/background-processor.js:195-200 | `infojson` and `outData` are only ever replaced by truthy values, so they stay at their start values or truthy |
| Client.QuietLines | public/script.js:591-629 | lines without an `event: ` line, read with no current event, change nothing |
| Store.KeptFrom | api/background-processor.js:136-146 | every record that lands is one of those sent |
| Store.TaggedAppend | api/background-processor.js:82-129 | the log of two runs of writes under one key is the two logs in order |

## Left out

- **Network I/O is not performed.** The Google Docs export, the Blob `put`,
  the store clients, the workflow service and the two document services are
  each a parameter describing how the call ends.
- **`JSON.parse` is a parameter** (`JsValue.Parser`), a partial function
  from text to a value.
- **`JSON.stringify` is a compact renderer** (`JsValue.JsonText`):
  - it has no indentation and no string escaping;
  - object members come in key order, not insertion order.

  Only the properties used here are proved: undefined has no text, null is
  `null`, and every other value has a non-empty text.
- **Dates are integer milliseconds, and each run has one instant `now`.**
  - The ISO date strings the source writes are stored as numbers.
  - The `NaN` of an invalid date is `None`, written as `null` in a JSON body.
  - Numbers are integers; floating point is not modelled.
- **Timers and concurrency are not modelled.**
  - A task that is not awaited runs after the response it follows.
  - The `Promise.race` time-outs of index.js (index.js:334-346, 373-385,
    424-437) are modelled as a write that throws and never lands. In the
    source the raced `redis.set` is not cancelled. It may still land later,
    possibly after a later write, and leave an earlier record in place. So
    the lifecycle `IndexServer.ProcessBackgroundTask` proves describes the
    writes in the order they were issued, not what redis ends up holding.
  - The page's one-minute initial delay and its 10-second interval are
    reduced to one tick per status check.
- `testRedisConnection` (index.js:275-308) appears only through its boolean
  result. Its own test write, read and delete are not modelled.
- **Reads from the store never throw.** Only writes can fail.
- **The KV clients' automatic JSON deserialisation is not modelled.** A
  value reads back as it was written.
- The `/api/check-status` route of index.js (index.js:103-195) is not part
  of this model.
- `generateDocument` of index.js (index.js:579-652) is not part of this
  model. Nothing calls it.
- **The page's DOM and UI code is not modelled:**
  - rendering of results and task status;
  - the loading indicator, beyond its flag;
  - clipboard helpers and `localStorage` toggles;
  - the asynchronous document generation and the proxy call;
  - the hostname-based choice of the API base URL.
- CORS headers, console logging, api/test-worker.js and api/test-starter.js
  are not modelled.
- IndexServer.ProcessBackgroundTask: its lifecycle is that of the writes in
  the order they are issued. A write that timed out but lands later, out of
  order, is not modelled.
- Client.StatusText: treats every status other than the four known ones as
  a plain text. A status that names an `Object.prototype` property (such as
  `constructor`) reads an inherited member in the source.
- Client.Session: models one polling session. The clearing of an earlier
  session's timers is modelled only as the counter reset of
  `Client.Poller.StartPolling`.
