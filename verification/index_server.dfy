/**
 * index.js, the Express server: the `/api/start-workflow` route writes the
 * `pending` record to Upstash Redis and starts `processBackgroundTask`
 * without waiting for it; that task calls the workflow service's
 * non-streaming endpoint, whose answer `executeCozeWorkflow` unpacks, and
 * records progress at 10, 60, 90 and 100, each write's failure being only
 * logged. The `/api/download` route is the `try` block of api/download.js.
 */
module IndexServer {
  import opened JsValue
  import opened Job
  import opened Web
  import opened Store
  import Download

  const ServiceUrl := "https://api.coze.cn/v1/workflow/run"
  const RedisDown := "Redis 连接失败"
  const ParseFailed := "解析 Coze 响应数据失败"

  /** `typeof v === 'string' ? JSON.parse(v) : v` */
  function Decoded(v: Value, parse: Parser): (r: Result<Value, JsError>)
    ensures !v.Str? ==> r == Success(v)
    ensures v.Str? ==> r == Parse(parse, v.s)
  {
    if v.Str? then Parse(parse, v.s) else Success(v)
  }

  /** What the `try` block of `executeCozeWorkflow` takes from the answer's `data`. */
  datatype Unpacked = Unpacked(infojson: Value, downloadUrl: Value)

  /**
   * The `try` block that unpacks `responseData.data`: the data is parsed when
   * it is text; `infojson` is read from it; when its `outData` is truthy,
   * `downloadUrl` is read from that (parsed when it is text), and otherwise
   * stays `null`. Every failure inside the block becomes one error, `None`.
   */
  function Unpack(data: Value, parse: Parser): (r: Option<Unpacked>)
    ensures Decoded(data, parse).Failure? ==> r.None?
    ensures Decoded(data, parse).Success? && !Readable(Decoded(data, parse).value) ==> r.None?
    ensures r.Some? ==>
      var parsedData := Decoded(data, parse).value;
      var outData := Get(parsedData, "outData");
      && r.value.infojson == Get(parsedData, "infojson")
      && (!Truthy(outData) ==> r.value.downloadUrl == Null)
      && (Truthy(outData) ==> Decoded(outData, parse).Success? && r.value.downloadUrl == Get(Decoded(outData, parse).value, "downloadUrl"))
    ensures Decoded(data, parse).Success? && Readable(Decoded(data, parse).value) ==>
      var outData := Get(Decoded(data, parse).value, "outData");
      (r.None? <==> Truthy(outData) && (Decoded(outData, parse).Failure? || !Readable(Decoded(outData, parse).value)))
  {
    match Decoded(data, parse)
    case Failure(_) => None
    case Success(parsedData) =>
      if !Readable(parsedData) then None
      else
        var outData := Get(parsedData, "outData");
        if !Truthy(outData) then Some(Unpacked(Get(parsedData, "infojson"), Null))
        else match Decoded(outData, parse)
          case Failure(_) => None
          case Success(outParsed) =>
            if !Readable(outParsed) then None
            else Some(Unpacked(Get(parsedData, "infojson"), Get(outParsed, "downloadUrl")))
  }

  /** The result object `executeCozeWorkflow` returns for an unpacked answer. */
  function BatchResult(u: Unpacked, workflowId: string, input: string, now: int): (wf: WorkflowResult)
    ensures Truthy(u.infojson) ==> wf.outData == Stringify(u.infojson)
    ensures !Truthy(u.infojson) ==> wf.outData == Str("处理完成")
    ensures wf.downloadUrl == Some(u.downloadUrl) && wf.infoJson.downloadUrl == Some(u.downloadUrl)
    ensures wf.infoJson.responseData == u.infojson && wf.infoJson.extractedInfojson == u.infojson
    ensures wf.infoJson.apiMethod == "direct" && wf.infoJson.inputLength == Utf16Length(input)
  {
    WorkflowResult(
      if Truthy(u.infojson) then Stringify(u.infojson) else Str("处理完成"),
      Some(u.downloadUrl),
      InfoJson(now, workflowId, Utf16Length(input), u.infojson, "direct", u.infojson, Some(u.downloadUrl)))
  }

  /**
   * `executeCozeWorkflow(input, jobId)`: the configuration check, the call
   * (whose outcome is `reply`, its `json()` being `parse`), and the unpacking.
   */
  function Batch(input: string, env: Env, reply: Reply, parse: Parser, now: int): (r: Result<WorkflowResult, JsError>)
    ensures env.apiKey == "" || env.workflowId == "" ==> r == Failure(Raise(ConfigMissing))
    ensures env.apiKey != "" && env.workflowId != "" && reply.NetworkError? ==> r == Failure(reply.error)
    ensures env.apiKey != "" && env.workflowId != "" && reply.Reply? && !Ok(reply) ==>
      r == Failure(Raise("Coze API 调用失败: " + IntText(reply.status) + " " + reply.statusText))
    ensures r.Success? <==>
      && env.apiKey != "" && env.workflowId != "" && reply.Reply? && Ok(reply)
      && ReplyJson(parse, reply).Success? && Readable(ReplyJson(parse, reply).value)
      && Unpack(Get(ReplyJson(parse, reply).value, "data"), parse).Some?
    ensures r.Success? ==>
      r.value == BatchResult(Unpack(Get(ReplyJson(parse, reply).value, "data"), parse).value, env.workflowId, input, now)
    ensures env.apiKey != "" && env.workflowId != "" && reply.Reply? && Ok(reply) &&
            ReplyJson(parse, reply).Success? && Readable(ReplyJson(parse, reply).value) &&
            Unpack(Get(ReplyJson(parse, reply).value, "data"), parse).None? ==>
      r == Failure(Raise(ParseFailed))
  {
    if env.apiKey == "" || env.workflowId == "" then Failure(Raise(ConfigMissing))
    else match reply
      case NetworkError(e) => Failure(e)
      case Reply(status, statusText, _) =>
        if !Ok(reply) then Failure(Raise("Coze API 调用失败: " + IntText(status) + " " + statusText))
        else match ReplyJson(parse, reply)
          case Failure(e) => Failure(e)
          case Success(responseData) =>
            if !Readable(responseData) then Failure(ReadError(responseData, "data"))
            else match Unpack(Get(responseData, "data"), parse)
              case None => Failure(Raise(ParseFailed))
              case Some(u) => Success(BatchResult(u, env.workflowId, input, now))
  }

  /** `workflowResult.downloadUrl ? `workflow_result_${Date.now()}.docx` : null` */
  function LinkName(wf: WorkflowResult, now: int): (name: Option<string>)
    ensures name.Some? <==> Truthy(Given(wf.downloadUrl))
  {
    if Truthy(Given(wf.downloadUrl)) then Some("workflow_result_" + IntText(now) + ".docx") else None
  }

  /** The `fileName` of the stored result is `null` exactly when the workflow gave no truthy download link. */
  lemma FileNameOnlyWithLink(wf: WorkflowResult, now: int)
    ensures var v := FinalValue(WithLink(wf, LinkName(wf, now)));
      && (Get(v, "fileName") == Null <==> !Truthy(Get(WorkflowValue(wf), "downloadUrl")))
      && Get(v, "downloadUrl") == Get(WorkflowValue(wf), "downloadUrl")
  {
    var v := FinalValue(WithLink(wf, LinkName(wf, now)));
    assert Get(v, "fileName") == (if LinkName(wf, now).Some? then Str(LinkName(wf, now).value) else Null);
  }

  /**
   * The writes `processBackgroundTask` attempts once the connection test has
   * passed: 10, then either 60, 90 and `completed` with the workflow result
   * and its link's file name, or the `failed` record.
   */
  function Planned(input: string, env: Env, reply: Reply, parse: Parser, now: int): (plan: seq<Record>)
    ensures |plan| >= 2 && plan[0] == Started(10, now)
    ensures Batch(input, env, reply, parse, now).Success? <==> |plan| == 4
    ensures Batch(input, env, reply, parse, now).Success? ==>
      plan[1].workflowResult == Some(Batch(input, env, reply, parse, now).value)
  {
    match Batch(input, env, reply, parse, now)
    case Failure(e) => [Started(10, now), Fail(FailedPrefix, e.message, now)]
    case Success(wf) =>
      [Started(10, now), AfterWorkflow(60, wf), Step(90, Finishing), Done(WithLink(wf, LinkName(wf, now)), now)]
  }

  /**
   * The attempted writes form a lifecycle ending in `completed` at 100 when
   * the workflow succeeds and in `failed` with its error when it does not.
   */
  lemma PlannedLifecycle(input: string, env: Env, reply: Reply, parse: Parser, now: int)
    ensures var plan := Planned(input, env, reply, parse, now);
      && Lifecycle(plan)
      && plan[0] == Started(10, now)
      && (Batch(input, env, reply, parse, now).Success? <==> plan[|plan| - 1].status == Completed)
      && (Batch(input, env, reply, parse, now).Failure? ==>
            plan[|plan| - 1].error == Some(Batch(input, env, reply, parse, now).error.message))
  {
    var plan := Planned(input, env, reply, parse, now);
    match Batch(input, env, reply, parse, now)
    case Failure(e) =>
      assert plan == [Started(10, now), Fail(FailedPrefix, e.message, now)];
    case Success(wf) =>
      assert plan == [Started(10, now), AfterWorkflow(60, wf), Step(90, Finishing), Done(WithLink(wf, LinkName(wf, now)), now)];
  }

  /**
   * `processBackgroundTask(jobId, input)`. `redisOk` is what
   * `testRedisConnection` returned; `reply` and `parse` are the workflow call's
   * outcome. A failed connection test makes the background task reject before its `try`,
   * writing nothing; otherwise the background task never rejects, and of the planned
   * writes exactly those the store accepts are kept, in order.
   */
  method ProcessBackgroundTask(redis: JobStore, jobId: string, input: string, env: Env, reply: Reply, parse: Parser,
                               redisOk: bool, now: int)
    returns (thrown: Option<JsError>, ghost w: seq<Record>)
    requires redis.Valid()
    modifies redis
    ensures redis.Valid() && redis.initial == old(redis.initial)
    ensures redis.log == old(redis.log) + Tagged(JobKey(jobId), w)
    ensures thrown.Some? <==> !redisOk
    ensures !redisOk ==> thrown == Some(Raise(RedisDown)) && w == []
    ensures redisOk ==> w == Kept(Planned(input, env, reply, parse, now), old(redis.faults))
    ensures redisOk && Healthy(old(redis.faults)) ==> w == Planned(input, env, reply, parse, now)
    ensures Lifecycle(w)
  {
    w := [];
    if !redisOk {
      return Some(Raise(RedisDown)), w;
    }
    thrown := None;
    ghost var f0 := redis.faults;
    w := Run(redis, JobKey(jobId), input, env, reply, parse, now);
    PlannedLifecycle(input, env, reply, parse, now);
    KeptLifecycle(Planned(input, env, reply, parse, now), f0);
    if Healthy(f0) {
      KeptHealthy(Planned(input, env, reply, parse, now), f0);
    }
  }

  /** The body of the `try` block once Redis answers: the 10 write, the batch call and the writes after it. */
  method Run(redis: JobStore, key: string, input: string, env: Env, reply: Reply, parse: Parser, now: int)
    returns (ghost w: seq<Record>)
    requires redis.Valid()
    modifies redis
    ensures redis.Valid() && redis.initial == old(redis.initial)
    ensures redis.log == old(redis.log) + Tagged(key, w)
    ensures w == Kept(Planned(input, env, reply, parse, now), old(redis.faults))
  {
    ghost var plan := Planned(input, env, reply, parse, now);
    ghost var f0 := redis.faults;
    w := Attempt(redis, key, Started(10, now));
    var workflowResult := Batch(input, env, reply, parse, now);
    ghost var rest;
    if workflowResult.Failure? {
      rest := [Fail(FailedPrefix, workflowResult.error.message, now)];
    } else {
      var wf := workflowResult.value;
      rest := [AfterWorkflow(60, wf), Step(90, Finishing), Done(WithLink(wf, LinkName(wf, now)), now)];
    }
    assert plan == [Started(10, now)] + rest;
    ghost var ws;
    if workflowResult.Failure? {
      ws := Attempt(redis, key, Fail(FailedPrefix, workflowResult.error.message, now));
    } else {
      ws := Finish(redis, key, workflowResult.value, now);
    }
    LogAppend(old(redis.log), key, w, ws);
    KeptCons(Started(10, now), rest, f0);
    w := w + ws;
  }

  /** The 60, 90 and `completed` writes of a successful run, each one's failure only logged. */
  method Finish(redis: JobStore, key: string, wf: WorkflowResult, now: int) returns (ghost w: seq<Record>)
    requires redis.Valid()
    modifies redis
    ensures redis.Valid() && redis.initial == old(redis.initial)
    ensures redis.log == old(redis.log) + Tagged(key, w)
    ensures redis.faults == Drop(old(redis.faults), 3)
    ensures w == Kept([AfterWorkflow(60, wf), Step(90, Finishing), Done(WithLink(wf, LinkName(wf, now)), now)], old(redis.faults))
  {
    ghost var f1 := redis.faults;
    w := Attempt(redis, key, AfterWorkflow(60, wf));
    ghost var f2 := redis.faults;
    ghost var w3 := Attempt(redis, key, Step(90, Finishing));
    ghost var f3 := redis.faults;
    var finalResult := WithLink(wf, LinkName(wf, now));
    ghost var w4 := Attempt(redis, key, Done(finalResult, now));
    LogAppend(old(redis.log), key, w, w3);
    LogAppend(old(redis.log), key, w + w3, w4);
    KeptCons(AfterWorkflow(60, wf), [Step(90, Finishing), Done(finalResult, now)], f1);
    KeptCons(Step(90, Finishing), [Done(finalResult, now)], f2);
    DropStep(f1, 0);
    DropStep(f1, 1);
    DropStep(f1, 2);
    w := w + w3 + w4;
  }

  /**
   * The `/api/start-workflow` route. `task` is the trimmed input handed to
   * `processBackgroundTask`, which is started only after the `pending`
   * record is stored.
   */
  method StartWorkflow(redis: JobStore, body: Value, now: nat, suffix: string)
    returns (res: Response, task: Option<string>)
    requires redis.Valid()
    modifies redis
    ensures redis.Valid() && redis.initial == old(redis.initial)
    ensures StartInput(body).Failure? ==> res == ServerError(StartFailed, StartInput(body).error)
    ensures StartInput(body) == Success(None) ==> res == InvalidInput()
    ensures !(StartInput(body).Success? && StartInput(body).value.Some?) ==>
      task.None? && redis.log == old(redis.log) && redis.faults == old(redis.faults)
    ensures StartInput(body).Success? && StartInput(body).value.Some? ==>
      var jobId := JobId(now, suffix);
      var input := StartInput(body).value.value;
      && (NextFault(old(redis.faults)).Some? ==>
            res == ServerError(StartFailed, NextFault(old(redis.faults)).value) && task.None? && redis.log == old(redis.log))
      && (NextFault(old(redis.faults)).None? ==>
            && res == Accepted(jobId, "/api/check-status")
            && task == Some(input)
            && redis.log == old(redis.log) + [(JobKey(jobId), Object(Created(jobId, input, now)))])
  {
    task := None;
    var admitted := StartInput(body);
    if admitted.Failure? {
      return ServerError(StartFailed, admitted.error), None;
    }
    if admitted.value.None? {
      return InvalidInput(), None;
    }
    var input := admitted.value.value;
    var jobId := JobId(now, suffix);
    var written := redis.Set(JobKey(jobId), Object(Created(jobId, input, now)));
    if written.Failure? {
      return ServerError(StartFailed, written.error), None;
    }
    task := Some(input);
    res := Accepted(jobId, "/api/check-status");
  }

  /**
   * The route and the background task it starts, run to the end: the answer is the
   * route's own and does not depend on the background task, whose rejection is only
   * logged; the store shows the `pending` record followed by the background task's writes.
   */
  method StartAndRun(redis: JobStore, body: Value, now: nat, suffix: string,
                     env: Env, reply: Reply, parse: Parser, redisOk: bool, later: int)
    returns (res: Response, ghost w: seq<Record>)
    requires redis.Valid()
    modifies redis
    ensures redis.Valid()
    ensures res.Json? && res.code == 202 ==>
      && StartInput(body).Success? && StartInput(body).value.Some?
      && var jobId := JobId(now, suffix);
      && res == Accepted(jobId, "/api/check-status")
      && redis.log == old(redis.log) + [(JobKey(jobId), Object(Created(jobId, StartInput(body).value.value, now)))]
                                      + Tagged(JobKey(jobId), w)
      && Lifecycle(w)
    ensures !(res.Json? && res.code == 202) ==> w == [] && redis.log == old(redis.log)
  {
    var task;
    res, task := StartWorkflow(redis, body, now, suffix);
    w := [];
    if task.Some? {
      var thrown;
      thrown, w := ProcessBackgroundTask(redis, JobId(now, suffix), task.value, env, reply, parse, redisOk, later);
    }
  }

  /** The `/api/download` route: the `try` block of api/download.js, without the method checks. */
  function DownloadRoute(body: Value, env: Env, exported: Download.Export, upload: Result<string, JsError>, now: int)
    : (res: Response)
    ensures res.Json? && res.code == 200 ==>
      Get(res.body, "docId") == Download.FinalDocId(body) && Get(res.body, "documentId") == Download.FinalDocId(body)
    ensures Readable(body) && !Truthy(Download.FinalDocId(body)) ==> res.Json? && res.code == 400
  {
    Download.Process(body, env, exported, upload, now)
  }
}
