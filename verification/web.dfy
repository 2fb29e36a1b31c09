/**
 * The HTTP surface shared by the handlers: requests, responses, the answers
 * of outside services, the process environment and the response bodies that
 * several handlers have in common.
 */
module Web {
  import opened JsValue

  /** An incoming request: its method (`verb`), parsed JSON body, query object and `Origin` header. */
  datatype Request = Request(verb: string, body: Value, query: Value, origin: Value)

  /** `res.status(code).end()` or `res.status(code).json(body)`. */
  datatype Response = End(code: int) | Json(code: int, body: Value)

  /** What a `fetch` yields: a rejection, or a response with its status line and body text. */
  datatype Reply = NetworkError(error: JsError) | Reply(status: int, statusText: string, text: string)

  /** `response.ok` */
  predicate Ok(r: Reply)
    requires r.Reply?
  {
    200 <= r.status <= 299
  }

  /** `response.json()`: the body text parsed, or the SyntaxError it throws. */
  function ReplyJson(parse: Parser, r: Reply): Result<Value, JsError>
    requires r.Reply?
  {
    Parse(parse, r.text)
  }

  /** `process.env`: an unset variable reads as the empty text, falsy either way. */
  datatype Env = Env(apiKey: string, workflowId: string, development: bool)

  /** The messages of the errors thrown when a runner finds a variable unset. */
  const KeyMissing := "COZE_API_KEY 环境变量未设置"
  const IdMissing := "COZE_WORKFLOW_ID 环境变量未设置"
  /** The message of the error thrown when the runners that check both variables at once find one unset. */
  const ConfigMissing := "Coze API 配置缺失"

  /** `process.env.NODE_ENV === 'development' ? error.message : undefined` */
  function Details(env: Env, e: JsError): (r: Value)
    ensures env.development <==> r == Str(e.message)
    ensures !env.development <==> r == Undefined
  {
    if env.development then Str(e.message) else Undefined
  }

  /**
   * `const { first, ... } = v`, where `v` is `req.body` or `req.query` (`source`):
   * destructuring `null` or `undefined` throws a TypeError.
   */
  function Destructure(v: Value, source: string, first: string): (r: Result<Value, JsError>)
    ensures r.Success? <==> Readable(v)
    ensures r.Success? ==> r.value == v
    ensures r.Failure? ==> r.error.name == "TypeError"
  {
    if Readable(v) then Success(v)
    else Failure(JsError("TypeError", "Cannot destructure property '" + first + "' of '" + source + "' as it is " + TemplateText(v) + "."))
  }

  function ErrorBody(error: string, message: string): Value {
    Obj(map["error" := Str(error), "message" := Str(message)])
  }

  /** The 405 answer to a method other than the one a handler serves. */
  function MethodNotAllowed(allowed: string): (r: Response)
    ensures r.Json? && r.code == 405
    ensures Get(r.body, "error") == Str("Method not allowed")
  {
    Json(405, ErrorBody("Method not allowed", "只支持 " + allowed + " 请求"))
  }

  const InvalidInputMessage := "请提供有效的输入内容"

  /** A 400 answer whose body carries `error` and `message`. */
  function BadRequest(error: string, message: string): (r: Response)
    ensures r.Json? && r.code == 400
    ensures Get(r.body, "error") == Str(error) && Get(r.body, "message") == Str(message)
  {
    Json(400, ErrorBody(error, message))
  }

  /** The 400 answer to an input that is missing, not a string, or only white space. */
  function InvalidInput(): (r: Response)
    ensures r.Json? && r.code == 400
    ensures Get(r.body, "error") == Str("Invalid input")
  {
    BadRequest("Invalid input", InvalidInputMessage)
  }

  /** The 500 answer of a handler whose `try` caught `e`, reporting its message and constructor name. */
  function ServerError(message: string, e: JsError): (r: Response)
    ensures r.Json? && r.code == 500
    ensures Get(r.body, "details") == Str(e.message)
    ensures Get(r.body, "errorType") == Str(e.name)
  {
    Json(500, Obj(map[
      "error" := Str("Internal server error"),
      "message" := Str(message),
      "details" := Str(e.message),
      "errorType" := Str(e.name)]))
  }

  /** The 500 answer of a handler that reveals the message only in development. */
  function HiddenError(error: string, message: string, env: Env, e: JsError): (r: Response)
    ensures r.Json? && r.code == 500
    ensures Get(r.body, "details") == Details(env, e)
  {
    Json(500, Obj(map["error" := Str(error), "message" := Str(message), "details" := Details(env, e)]))
  }

  /** The 202 body of a job-starting handler. */
  function Accepted(jobId: string, statusPath: string): (r: Response)
    ensures r.Json? && r.code == 202
    ensures Get(r.body, "jobId") == Str(jobId)
    ensures Get(r.body, "status") == Str("pending")
    ensures Get(r.body, "checkStatusUrl") == Str(statusPath + "?jobId=" + jobId)
  {
    Json(202, Obj(map[
      "success" := Bool(true),
      "jobId" := Str(jobId),
      "status" := Str("pending"),
      "message" := Str("任务已启动，请使用 jobId 查询进度"),
      "checkStatusUrl" := Str(statusPath + "?jobId=" + jobId)]))
  }

  /** The message of the 500 answer of a job-starting handler. */
  const StartFailed := "启动任务失败，请稍后重试"

  /**
   * `const { input } = req.body` and the input check of a job-starting handler:
   * a failure when the body cannot be destructured, `None` for an input that is
   * missing, not a string or only white space, and otherwise the trimmed input.
   */
  function StartInput(body: Value): (r: Result<Option<string>, JsError>)
    ensures r.Failure? <==> !Readable(body)
    ensures r.Failure? ==> r == Failure(Destructure(body, "req.body", "input").error)
    ensures r.Success? ==> (r.value.Some? <==> ValidInput(Get(body, "input")))
    ensures r.Success? && r.value.Some? ==> r.value.value == Trim(Get(body, "input").s) && r.value.value != ""
  {
    var b :- Destructure(body, "req.body", "input");
    var input := Get(b, "input");
    if ValidInput(input) then Success(Some(Trim(input.s))) else Success(None)
  }

  /** Whether a job-starting handler goes on to create the job: a POST with a valid input. */
  predicate Admitted(req: Request) {
    req.verb == "POST" && StartInput(req.body).Success? && StartInput(req.body).value.Some?
  }

  /** The trimmed input of an admitted request. */
  function AdmittedInput(req: Request): (input: string)
    requires Admitted(req)
    ensures input == Trim(Get(req.body, "input").s) && input != ""
  {
    StartInput(req.body).value.value
  }

  /**
   * The answer of a job-starting handler whose store write succeeds: the
   * preflight, the 405, the 500 of an unreadable body, the 400 of an invalid
   * input, and otherwise 202 with the job's id and where to ask for its status.
   */
  function StartAnswer(req: Request, jobId: string, statusPath: string): (res: Response)
    ensures req.verb == "OPTIONS" ==> res == End(200)
    ensures req.verb != "OPTIONS" && req.verb != "POST" ==> res == MethodNotAllowed("POST")
    ensures req.verb == "POST" && !Readable(req.body) ==>
      res == ServerError(StartFailed, Destructure(req.body, "req.body", "input").error)
    ensures req.verb == "POST" && Readable(req.body) && !ValidInput(Get(req.body, "input")) ==> res == InvalidInput()
    ensures Admitted(req) <==> res.Json? && res.code == 202
    ensures Admitted(req) ==> res == Accepted(jobId, statusPath)
  {
    if req.verb == "OPTIONS" then End(200)
    else if req.verb != "POST" then MethodNotAllowed("POST")
    else match StartInput(req.body)
      case Failure(e) => ServerError(StartFailed, e)
      case Success(None) => InvalidInput()
      case Success(Some(_)) => Accepted(jobId, statusPath)
  }

  const DefaultOrigin := "https://workflow.lilingbo.top"

  /** A POST a handler fires at another endpoint without waiting for it: its URL and JSON body. */
  datatype Trigger = Trigger(url: string, body: Value)

  /** `fetch(`${req.headers.origin || DefaultOrigin}${path}`, { body: { jobId, input } })` */
  function Kickoff(origin: Value, path: string, jobId: string, input: string): (t: Trigger)
    ensures Get(t.body, "jobId") == Str(jobId) && Get(t.body, "input") == Str(input)
    ensures Truthy(origin) ==> t.url == TemplateText(origin) + path
    ensures !Truthy(origin) ==> t.url == DefaultOrigin + path
  {
    Trigger(TemplateText(Or(origin, Str(DefaultOrigin))) + path, Obj(map["jobId" := Str(jobId), "input" := Str(input)]))
  }

  /**
   * `job_${Date.now()}_${Math.random().toString(36).substring(2, 15)}`; the
   * random part is a parameter, which may be any text.
   */
  function JobId(now: nat, suffix: string): (id: string)
    ensures |id| > 4 && id[..4] == "job_"
    ensures var n := |NatText(now)|;
      |id| == 5 + n + |suffix| && id[4..4 + n] == NatText(now) && id[4 + n] == '_' && id[5 + n..] == suffix
  {
    "job_" + NatText(now) + "_" + suffix
  }

  /** The store key of a job. */
  function JobKey(jobId: string): (key: string)
    ensures |key| >= 4 && key[..4] == "job:" && key[4..] == jobId
  {
    "job:" + jobId
  }

  lemma JobKeyInjective(a: string, b: string)
    ensures JobKey(a) == JobKey(b) <==> a == b
  {
    if JobKey(a) == JobKey(b) {
      assert a == JobKey(a)[4..];
    }
  }
}
