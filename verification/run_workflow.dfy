/**
 * api/run-workflow.js: calls the workflow service's non-streaming endpoint
 * inside the request and answers with its result. The configuration is
 * checked before the input; an upstream failure is answered with the
 * upstream's own status.
 */
module RunWorkflow {
  import opened JsValue
  import opened Web

  const ServiceUrl := "https://api.coze.cn/v1/workflow/run"
  const KeyUnset := "API 密钥未配置"
  const IdUnset := "工作流 ID 未配置"

  predicate Configured(env: Env) {
    env.apiKey != "" && env.workflowId != ""
  }

  /** The 500 answer naming the configuration variable that is unset. */
  function ConfigError(message: string): (r: Response)
    ensures r.Json? && r.code == 500
    ensures Get(r.body, "error") == Str("Server configuration error") && Get(r.body, "message") == Str(message)
  {
    Json(500, ErrorBody("Server configuration error", message))
  }

  /** The 500 answer of the `catch` block. */
  function Internal(env: Env, e: JsError): (r: Response)
    ensures r.Json? && r.code == 500 && Get(r.body, "details") == Details(env, e)
  {
    HiddenError("Internal server error", "服务器内部错误，请稍后重试", env, e)
  }

  /** The answer to an upstream response that is not ok: the same status, its text as `details`. */
  function Upstream(reply: Reply): (r: Response)
    requires reply.Reply?
    ensures r.Json? && r.code == reply.status
    ensures Get(r.body, "error") == Str("Coze API error") && Get(r.body, "details") == Str(reply.text)
  {
    Json(reply.status, Obj(map[
      "error" := Str("Coze API error"),
      "message" := Str("Coze API 返回错误: " + IntText(reply.status) + " " + reply.statusText),
      "details" := Str(reply.text)]))
  }

  /** `cozeData.data || cozeData.output || cozeData.result || '处理完成'` */
  function OutData(data: Value): (r: Value)
    ensures Truthy(r)
    ensures Truthy(Get(data, "data")) ==> r == Get(data, "data")
    ensures !Truthy(Get(data, "data")) && Truthy(Get(data, "output")) ==> r == Get(data, "output")
    ensures !Truthy(Get(data, "data")) && !Truthy(Get(data, "output")) && Truthy(Get(data, "result")) ==>
      r == Get(data, "result")
    ensures !Truthy(Get(data, "data")) && !Truthy(Get(data, "output")) && !Truthy(Get(data, "result")) ==>
      r == Str("处理完成")
  {
    Or(FirstTruthyField(data, "data", "output", "result"), Str("处理完成"))
  }

  /**
   * The 200 answer: the chosen `outData` and the whole upstream body as
   * `response_data`. The time stamps are the request's instant in milliseconds.
   */
  function Finished(data: Value, env: Env, input: string, now: int): (r: Response)
    ensures r.Json? && r.code == 200
    ensures Get(r.body, "outData") == OutData(data)
    ensures var info := Get(r.body, "infoJson");
      && Get(info, "response_data") == data
      && Get(info, "workflow_id") == Str(env.workflowId)
      && Get(info, "input_length") == Num(Utf16Length(input))
  {
    Json(200, Obj(map[
      "success" := Bool(true),
      "outData" := OutData(data),
      "infoJson" := Obj(map[
        "timestamp" := Num(now),
        "workflow_id" := Str(env.workflowId),
        "input_length" := Num(Utf16Length(input)),
        "response_data" := data,
        "processing_time" := Num(now)])]))
  }

  /**
   * The call the handler makes to the service, if it gets that far: only for
   * a POST with the configuration set and a valid input, which it sends trimmed.
   */
  function Call(req: Request, env: Env): (c: Option<Trigger>)
    ensures c.Some? <==> req.verb == "POST" && Configured(env) && Readable(req.body) && ValidInput(Get(req.body, "input"))
    ensures c.Some? ==>
      && c.value.url == ServiceUrl
      && Get(c.value.body, "workflow_id") == Str(env.workflowId)
      && Get(Get(c.value.body, "parameters"), "input") == Str(Trim(Get(req.body, "input").s))
  {
    if req.verb == "POST" && Configured(env) && Readable(req.body) && ValidInput(Get(req.body, "input")) then
      Some(Trigger(ServiceUrl, Obj(map[
        "workflow_id" := Str(env.workflowId),
        "parameters" := Obj(map["input" := Str(Trim(Get(req.body, "input").s))])])))
    else None
  }

  /**
   * `handler`. `reply` is how the service's `fetch` ends and `parse` stands
   * for `response.json()`; neither is consulted unless `Call` is made.
   */
  function Answer(req: Request, env: Env, reply: Reply, parse: Parser, now: int): (res: Response)
    ensures req.verb == "OPTIONS" ==> res == End(200)
    ensures req.verb != "OPTIONS" && req.verb != "POST" ==> res == MethodNotAllowed("POST")
    ensures req.verb == "POST" && env.apiKey == "" ==> res == ConfigError(KeyUnset)
    ensures req.verb == "POST" && env.apiKey != "" && env.workflowId == "" ==> res == ConfigError(IdUnset)
    ensures req.verb == "POST" && Configured(env) && !Readable(req.body) ==>
      res == Internal(env, Destructure(req.body, "req.body", "input").error)
    ensures req.verb == "POST" && Configured(env) && Readable(req.body) && !ValidInput(Get(req.body, "input")) ==>
      res == InvalidInput()
    ensures Call(req, env).Some? && reply.NetworkError? ==> res == Internal(env, reply.error)
    ensures Call(req, env).Some? && reply.Reply? && !Ok(reply) ==> res == Upstream(reply)
    ensures res.Json? && res.code == 200 <==>
      && Call(req, env).Some? && reply.Reply? && Ok(reply)
      && ReplyJson(parse, reply).Success? && Readable(ReplyJson(parse, reply).value)
    ensures res.Json? && res.code == 200 ==>
      res == Finished(ReplyJson(parse, reply).value, env, Get(req.body, "input").s, now)
  {
    if req.verb == "OPTIONS" then End(200)
    else if req.verb != "POST" then MethodNotAllowed("POST")
    else if env.apiKey == "" then ConfigError(KeyUnset)
    else if env.workflowId == "" then ConfigError(IdUnset)
    else match Destructure(req.body, "req.body", "input")
      case Failure(e) => Internal(env, e)
      case Success(body) =>
        var input := Get(body, "input");
        if !ValidInput(input) then InvalidInput()
        else match reply
          case NetworkError(e) => Internal(env, e)
          case Reply(_, _, _) =>
            if !Ok(reply) then Upstream(reply)
            else match ReplyJson(parse, reply)
              case Failure(e) => Internal(env, e)
              case Success(data) =>
                if !Readable(data) then Internal(env, ReadError(data, "data"))
                else Finished(data, env, input.s, now)
  }

  /** Without a call to the service, the answer does not depend on what the service would have said. */
  lemma AnswerWithoutCall(req: Request, env: Env, a: Reply, b: Reply, pa: Parser, pb: Parser, now: int)
    requires Call(req, env).None?
    ensures Answer(req, env, a, pa, now) == Answer(req, env, b, pb, now)
  {
  }

  /** A missing key is reported whatever the body holds, an invalid or absent input included. */
  lemma ConfigurationBeforeInput(req: Request, env: Env, reply: Reply, parse: Parser, now: int, body: Value)
    requires req.verb == "POST" && env.apiKey == ""
    ensures Answer(req, env, reply, parse, now) == Answer(req.(body := body), env, reply, parse, now)
    ensures Answer(req, env, reply, parse, now).code == 500
  {
  }
}
