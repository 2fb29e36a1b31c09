/**
 * api/check-status.js: the status query. It reads the record under
 * `job:<jobId>` and projects it, with the current time, onto the response
 * body: common fields first, then the fields of the record's status.
 */
module CheckStatus {
  import opened JsValue
  import opened Job
  import opened Web
  import opened Store

  /** The largest distance from the epoch, in milliseconds, that a `Date` can hold. */
  const MaxTime := 8_640_000_000_000_000

  /**
   * `new Date(v)` as a millisecond count, or `None` for an invalid date.
   * Times are stored as milliseconds, so a date text is not parsed here.
   */
  function TimeOf(v: Value): (t: Option<int>)
    ensures v.Undefined? || v.Str? || v.Arr? || v.Obj? ==> t.None?
    ensures v.Null? ==> t == Some(0)
    ensures t.Some? ==> -MaxTime <= t.value <= MaxTime
  {
    match v
    case Null => Some(0)
    case Bool(b) => Some(if b then 1 else 0)
    case Num(n) => if -MaxTime <= n <= MaxTime then Some(n) else None
    case _ => None
  }

  /** `Math.floor((to - from) / 1000)`: whole seconds between two dates, `NaN` when either is invalid. */
  function Elapsed(from: Option<int>, to: Option<int>): (s: Option<int>)
    ensures s.Some? <==> from.Some? && to.Some?
    ensures s.Some? ==> s.value * 1000 <= to.value - from.value < s.value * 1000 + 1000
  {
    if from.Some? && to.Some? then Some((to.value - from.value) / 1000) else None
  }

  /** A number in the JSON body: `NaN` is written as `null`. */
  function NumberOrNaN(n: Option<int>): Value {
    if n.Some? then Num(n.value) else Null
  }

  /** The seconds of `runningTime`, taken from the record's `createdTime`. */
  function RunningTime(data: Value, now: int): (r: Option<int>)
    ensures r.Some? <==> TimeOf(Get(data, "createdTime")).Some?
    ensures r.Some? ==>
      r.value * 1000 <= now - TimeOf(Get(data, "createdTime")).value < r.value * 1000 + 1000
  {
    Elapsed(TimeOf(Get(data, "createdTime")), Some(now))
  }

  /** `Math.max(0, 60 - runningTime)` for a known running time. */
  function Remaining(runningTime: int): (r: nat)
    ensures runningTime >= 0 ==> r <= 60
    ensures runningTime <= 60 ==> r == 60 - runningTime
    ensures runningTime >= 60 ==> r == 0
  {
    if runningTime < 60 then 60 - runningTime else 0
  }

  /** `Math.max(0, 60 - runningTime) + ' 秒'`; the arithmetic gives `NaN` when the running time is unknown. */
  function RemainingText(runningTime: Option<int>): (r: string)
    ensures runningTime.None? ==> r == "NaN 秒"
    ensures runningTime.Some? ==> |r| > 2 && r[|r| - 2..] == " 秒" && forall k :: 0 <= k < |r| - 2 ==> IsDigit(r[k])
    ensures runningTime.Some? && runningTime.value >= 60 ==> r == "0 秒"
  {
    if runningTime.Some? then NatText(Remaining(runningTime.value)) + " 秒" else "NaN 秒"
  }

  const EstimatedTime := "预计 30-60 秒"

  /** The properties every answer carries. */
  const CommonKeys := {"success", "jobId", "status", "progress", "message", "runningTime", "createdTime"}

  /** `jobData.result && jobData.result.documentResult` */
  predicate HasDocument(data: Value) {
    Truthy(Get(data, "result")) && Truthy(Get(Get(data, "result"), "documentResult"))
  }

  /** The properties every answer carries, before the `switch`. */
  function Common(jobId: string, data: Value, now: int): (fields: map<string, Value>)
    ensures fields.Keys == CommonKeys
  {
    map[
      "success" := Bool(true),
      "jobId" := Str(jobId),
      "status" := Get(data, "status"),
      "progress" := Or(Get(data, "progress"), Num(0)),
      "message" := Or(Get(data, "message"), Str("")),
      "runningTime" := NumberOrNaN(RunningTime(data, now)),
      "createdTime" := Get(data, "createdTime")]
  }

  function PendingExtra(): (extra: map<string, Value>)
    ensures extra.Keys == {"estimatedTime"}
  {
    map["estimatedTime" := Str(EstimatedTime)]
  }

  function ProcessingExtra(data: Value, now: int): (extra: map<string, Value>)
    ensures extra.Keys == {"currentStep", "estimatedRemaining"}
  {
    map["currentStep" := Get(data, "message"), "estimatedRemaining" := Str(RemainingText(RunningTime(data, now)))]
  }

  function CompletedExtra(data: Value): (extra: map<string, Value>)
    ensures extra.Keys == {"result", "completedTime", "totalTime"} + (if HasDocument(data) then {"downloadUrl", "fileName"} else {})
  {
    var completed := map[
      "result" := Get(data, "result"),
      "completedTime" := Get(data, "completedTime"),
      "totalTime" := NumberOrNaN(Elapsed(TimeOf(Get(data, "createdTime")), TimeOf(Get(data, "completedTime"))))];
    if HasDocument(data) then
      var doc := Get(Get(data, "result"), "documentResult");
      completed["downloadUrl" := Get(doc, "downloadUrl")]["fileName" := Get(doc, "fileName")]
    else completed
  }

  function FailedExtra(data: Value): (extra: map<string, Value>)
    ensures extra.Keys == {"error", "failedTime"}
  {
    map["error" := Get(data, "error"), "failedTime" := Get(data, "failedTime")]
  }

  /** What the `switch` on `data.status` adds; it never replaces a common property. */
  function StatusFields(data: Value, now: int): (extra: map<string, Value>)
    ensures extra.Keys !! CommonKeys
  {
    var status := Get(data, "status");
    if status == Str("pending") then PendingExtra()
    else if status == Str("processing") then ProcessingExtra(data, now)
    else if status == Str("completed") then CompletedExtra(data)
    else if status == Str("failed") then FailedExtra(data)
    else map[]
  }

  /**
   * The response body for the value `data` read under `job:<jobId>` at time `now`.
   * Properties set to `undefined` are kept here; JSON leaves them out of the text.
   */
  function Projection(jobId: string, data: Value, now: int): (v: Value)
    ensures v.Obj? && v.fields.Keys == CommonKeys + StatusFields(data, now).Keys
  {
    Obj(Common(jobId, data, now) + StatusFields(data, now))
  }

  /**
   * The common fields: `success`, the echoed id, `status` and `createdTime`
   * copied verbatim, `progress` defaulting to 0, `message` to '' and the running time.
   */
  lemma CommonProjection(jobId: string, data: Value, now: int)
    ensures var v := Projection(jobId, data, now);
      && Get(v, "success") == Bool(true) && Get(v, "jobId") == Str(jobId)
      && Get(v, "status") == Get(data, "status") && Get(v, "createdTime") == Get(data, "createdTime")
      && (Truthy(Get(data, "progress")) ==> Get(v, "progress") == Get(data, "progress"))
      && (!Truthy(Get(data, "progress")) ==> Get(v, "progress") == Num(0))
      && (Truthy(Get(data, "message")) ==> Get(v, "message") == Get(data, "message"))
      && (!Truthy(Get(data, "message")) ==> Get(v, "message") == Str(""))
      && Get(v, "runningTime") == NumberOrNaN(RunningTime(data, now))
  {
    var v := Projection(jobId, data, now);
    assert v.fields == Common(jobId, data, now) + StatusFields(data, now);
  }

  /** A pending job adds only the fixed estimate. */
  lemma PendingFields(jobId: string, data: Value, now: int)
    requires Get(data, "status") == Str("pending")
    ensures var v := Projection(jobId, data, now);
      v.fields.Keys == CommonKeys + {"estimatedTime"} && Get(v, "estimatedTime") == Str(EstimatedTime)
  {
    var v := Projection(jobId, data, now);
    assert v.fields == Common(jobId, data, now) + PendingExtra();
  }

  /** A processing job adds the raw message as its current step and the remaining-time estimate. */
  lemma ProcessingFields(jobId: string, data: Value, now: int)
    requires Get(data, "status") == Str("processing")
    ensures var v := Projection(jobId, data, now);
      && v.fields.Keys == CommonKeys + {"currentStep", "estimatedRemaining"}
      && Get(v, "currentStep") == Get(data, "message")
      && Get(v, "estimatedRemaining") == Str(RemainingText(RunningTime(data, now)))
  {
    var v := Projection(jobId, data, now);
    assert v.fields == Common(jobId, data, now) + ProcessingExtra(data, now);
  }

  /**
   * A completed job adds its result, completion time and total time, and
   * `downloadUrl` and `fileName` only when `result.documentResult` is truthy.
   */
  lemma CompletedKeys(jobId: string, data: Value, now: int)
    requires Get(data, "status") == Str("completed")
    ensures Projection(jobId, data, now).fields.Keys ==
      CommonKeys + {"result", "completedTime", "totalTime"} + (if HasDocument(data) then {"downloadUrl", "fileName"} else {})
  {
    var v := Projection(jobId, data, now);
    assert v.fields == Common(jobId, data, now) + CompletedExtra(data);
  }

  /** A completed job shows its result and completion time as stored. */
  lemma CompletedValues(jobId: string, data: Value, now: int)
    requires Get(data, "status") == Str("completed")
    ensures var v := Projection(jobId, data, now);
      Get(v, "result") == Get(data, "result") && Get(v, "completedTime") == Get(data, "completedTime")
  {
    var v := Projection(jobId, data, now);
    var extra := CompletedExtra(data);
    assert v.fields == Common(jobId, data, now) + extra;
    assert extra["result"] == Get(data, "result") && extra["completedTime"] == Get(data, "completedTime");
  }

  /** The total time of a completed job is the whole seconds from creation to completion. */
  lemma CompletedTotalTime(jobId: string, data: Value, now: int)
    requires Get(data, "status") == Str("completed")
    ensures Get(Projection(jobId, data, now), "totalTime") ==
      NumberOrNaN(Elapsed(TimeOf(Get(data, "createdTime")), TimeOf(Get(data, "completedTime"))))
  {
    var v := Projection(jobId, data, now);
    var extra := CompletedExtra(data);
    assert v.fields == Common(jobId, data, now) + extra;
    assert extra["totalTime"] == NumberOrNaN(Elapsed(TimeOf(Get(data, "createdTime")), TimeOf(Get(data, "completedTime"))));
  }

  /** The link and file name of a completed job are copied from `result.documentResult`. */
  lemma CompletedDocument(jobId: string, data: Value, now: int)
    requires Get(data, "status") == Str("completed") && HasDocument(data)
    ensures var v := Projection(jobId, data, now);
      var doc := Get(Get(data, "result"), "documentResult");
      Get(v, "downloadUrl") == Get(doc, "downloadUrl") && Get(v, "fileName") == Get(doc, "fileName")
  {
    var v := Projection(jobId, data, now);
    var extra := CompletedExtra(data);
    var doc := Get(Get(data, "result"), "documentResult");
    assert v.fields == Common(jobId, data, now) + extra;
    assert extra["downloadUrl"] == Get(doc, "downloadUrl") && extra["fileName"] == Get(doc, "fileName");
  }

  /** A failed job adds its error and failure time. */
  lemma FailedFields(jobId: string, data: Value, now: int)
    requires Get(data, "status") == Str("failed")
    ensures var v := Projection(jobId, data, now);
      && v.fields.Keys == CommonKeys + {"error", "failedTime"}
      && Get(v, "error") == Get(data, "error") && Get(v, "failedTime") == Get(data, "failedTime")
  {
    var v := Projection(jobId, data, now);
    assert v.fields == Common(jobId, data, now) + FailedExtra(data);
  }

  /** Any other status, or none, adds nothing. */
  lemma OtherStatusFields(jobId: string, data: Value, now: int)
    requires Get(data, "status") !in {Str("pending"), Str("processing"), Str("completed"), Str("failed")}
    ensures Projection(jobId, data, now).fields.Keys == CommonKeys
  {
  }

  /**
   * While a job is processing, the remaining-time estimate is a count of seconds
   * that is never negative, and at most 60 unless the creation time lies in the
   * future; it is `NaN` when the record has no creation time.
   */
  lemma RemainingBounded(jobId: string, data: Value, now: int)
    requires Get(data, "status") == Str("processing")
    ensures var text := Get(Projection(jobId, data, now), "estimatedRemaining");
      && (RunningTime(data, now).None? ==> text == Str("NaN 秒"))
      && (RunningTime(data, now).Some? ==>
            exists r: nat :: text == Str(NatText(r) + " 秒") && (RunningTime(data, now).value >= 0 ==> r <= 60))
  {
    ProcessingFields(jobId, data, now);
    var rt := RunningTime(data, now);
    if rt.Some? {
      var r := Remaining(rt.value);
      assert Get(Projection(jobId, data, now), "estimatedRemaining") == Str(NatText(r) + " 秒");
    }
  }

  /**
   * The record a job-starting handler writes reads back with its own clock:
   * `pending`, progress 0, its message, and the whole seconds since creation.
   */
  lemma CreatedProjection(jobId: string, input: string, created: int, now: int)
    requires -MaxTime <= created <= MaxTime
    ensures var v := Projection(jobId, RecordValue(Created(jobId, input, created)), now);
      && Get(v, "status") == Str("pending") && Get(v, "progress") == Num(0)
      && Get(v, "message") == Str(PendingMessage) && Get(v, "estimatedTime") == Str(EstimatedTime)
      && Get(v, "runningTime") == Num((now - created) / 1000)
  {
  }

  /**
   * A stored value without a valid creation time gets no running time, the
   * remaining-time text `NaN 秒` while processing, and no total time once completed.
   */
  lemma NoClock(jobId: string, data: Value, now: int)
    requires TimeOf(Get(data, "createdTime")).None?
    ensures var v := Projection(jobId, data, now);
      && Get(v, "runningTime") == Null
      && (Get(data, "status") == Str("processing") ==> Get(v, "estimatedRemaining") == Str("NaN 秒"))
      && (Get(data, "status") == Str("completed") ==> Get(v, "totalTime") == Null)
  {
    CommonProjection(jobId, data, now);
    if Get(data, "status") == Str("processing") {
      ProcessingFields(jobId, data, now);
    } else if Get(data, "status") == Str("completed") {
      CompletedTotalTime(jobId, data, now);
    }
  }

  /**
   * Every record a task runner writes drops `createdTime`, so once a runner has
   * written, the answer has no running time, the remaining-time text is
   * `NaN 秒` and a completed job has no total time.
   */
  lemma RunnerRecordHasNoClock(jobId: string, r: Record, now: int)
    requires Overwrite(r)
    ensures var v := Projection(jobId, RecordValue(r), now);
      && Get(v, "runningTime") == Null
      && (r.status == Processing ==> Get(v, "estimatedRemaining") == Str("NaN 秒"))
      && (r.status == Completed ==> Get(v, "totalTime") == Null)
  {
    var data := RecordValue(r);
    assert Get(data, "createdTime") == Undefined;
    assert Get(data, "status") == Str(StatusName(r.status));
    NoClock(jobId, data, now);
  }

  /** The 400 answer to a missing or non-string `jobId`. */
  const InvalidJobId := BadRequest("Invalid jobId", "请提供有效的任务 ID")

  /** The 404 answer when nothing is stored under the job's key; it echoes the id. */
  function NotFound(jobId: string): (r: Response)
    ensures r.Json? && r.code == 404
    ensures Get(r.body, "error") == Str("Job not found") && Get(r.body, "jobId") == Str(jobId)
  {
    Json(404, Obj(map["error" := Str("Job not found"), "message" := Str("未找到指定的任务"), "jobId" := Str(jobId)]))
  }

  /** `!jobId || typeof jobId !== 'string'` fails exactly for a non-empty text. */
  predicate ValidJobId(jobId: Value) {
    jobId.Str? && jobId.s != ""
  }

  /**
   * `handler`: only a GET with a non-empty text `jobId` reaches the store, and
   * then only through `initKV` and `get`, so no stored entry changes. The
   * answer is 404 when nothing is stored and otherwise the projection.
   */
  method Handler(m: KvModule, vercelKv: Option<JobStore>, req: Request, env: Env, now: int) returns (res: Response)
    requires m.Valid()
    modifies m
    ensures m.Valid()
    ensures req.verb == "OPTIONS" ==> res == End(200)
    ensures req.verb != "OPTIONS" && req.verb != "GET" ==> res == MethodNotAllowed("GET")
    ensures req.verb == "GET" && !Readable(req.query) ==> res.Json? && res.code == 500
    ensures !(req.verb == "GET" && Readable(req.query) && ValidJobId(Get(req.query, "jobId"))) ==>
      m.initialized == old(m.initialized) && m.kv == old(m.kv)
    ensures req.verb == "GET" && Readable(req.query) && !ValidJobId(Get(req.query, "jobId")) ==>
      res == InvalidJobId
    ensures req.verb == "GET" && Readable(req.query) && ValidJobId(Get(req.query, "jobId")) ==>
      var jobId := Get(req.query, "jobId").s;
      && m.initialized
      && (old(m.initialized) ==> m.kv == old(m.kv))
      && (Answer(m.kv.entries, JobKey(jobId)).None? ==> res == NotFound(jobId))
      && (Answer(m.kv.entries, JobKey(jobId)).Some? ==>
            res == Json(200, Projection(jobId, StoredValue(Answer(m.kv.entries, JobKey(jobId)).value), now)))
  {
    if req.verb == "OPTIONS" {
      return End(200);
    }
    if req.verb != "GET" {
      return MethodNotAllowed("GET");
    }
    var query := Destructure(req.query, "req.query", "jobId");
    if query.Failure? {
      return HiddenError("Internal server error", "查询状态失败，请稍后重试", env, query.error);
    }
    var jobId := Get(query.value, "jobId");
    if !ValidJobId(jobId) {
      return InvalidJobId;
    }
    var store := m.InitKV(vercelKv);
    var data := store.Get(JobKey(jobId.s));
    if data.None? {
      return NotFound(jobId.s);
    }
    res := Json(200, Projection(jobId.s, StoredValue(data.value), now));
  }
}
