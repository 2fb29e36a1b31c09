/**
 * api/start-workflow-simple.js: runs the workflow inside the request. The input
 * is checked first, then the configuration; the stream is read up to its first
 * `Done` chunk and the result is answered at once with status `completed`, or
 * with a 500 when the stream throws.
 */
module StartWorkflowSimple {
  import opened JsValue
  import opened Job
  import opened Web
  import opened Stream

  const RunFailed := "工作流处理失败，请稍后重试"

  /** The 200 answer carrying a finished workflow result. */
  function Finished(wf: WorkflowResult): (r: Response)
    ensures r.Json? && r.code == 200
    ensures Get(r.body, "status") == Str("completed") && Get(r.body, "result") == WorkflowValue(wf)
  {
    Json(200, Obj(map[
      "success" := Bool(true),
      "status" := Str("completed"),
      "result" := WorkflowValue(wf),
      "message" := Str("工作流处理完成")]))
  }

  /**
   * What the handler answers. The error of a missing configuration, of the
   * service's rejection, of a stream that throws or of an unreadable body is
   * reported in a 500 answer.
   */
  function Answer(req: Request, env: Env, provider: Provider, parse: Parser, now: int): (res: Response)
    ensures req.verb == "OPTIONS" ==> res == End(200)
    ensures req.verb != "OPTIONS" && req.verb != "POST" ==> res == MethodNotAllowed("POST")
    ensures req.verb == "POST" && Readable(req.body) && !ValidInput(Get(req.body, "input")) ==> res == InvalidInput()
    ensures req.verb == "POST" && Readable(req.body) && ValidInput(Get(req.body, "input")) ==>
      var input := Get(req.body, "input").s;
      && (env.apiKey == "" ==> res == ServerError(RunFailed, Raise(KeyMissing)))
      && (env.apiKey != "" && env.workflowId == "" ==> res == ServerError(RunFailed, Raise(IdMissing)))
      && (env.apiKey != "" && env.workflowId != "" && provider.Rejected? ==> res == ServerError(RunFailed, provider.error))
      && (env.apiKey != "" && env.workflowId != "" && Broken(provider).Some? ==>
            res == ServerError(RunFailed, Broken(provider).value))
      && (env.apiKey != "" && env.workflowId != "" && provider.Streamed? && Broken(provider).None? ==>
            res == Finished(StreamResult(Extract(provider.chunks, parse), env.workflowId, input, now)))
      && (env.apiKey != "" && env.workflowId != "" && provider.Plain? ==>
            res == Finished(StreamResult(Start, env.workflowId, input, now)))
    ensures res.Json? && res.code == 200 ==>
      req.verb == "POST" && ValidInput(Get(req.body, "input")) && env.apiKey != "" && env.workflowId != ""
  {
    if req.verb == "OPTIONS" then End(200)
    else if req.verb != "POST" then MethodNotAllowed("POST")
    else match Destructure(req.body, "req.body", "input")
      case Failure(e) => ServerError(RunFailed, e)
      case Success(body) =>
        var input := Get(body, "input");
        if !ValidInput(input) then InvalidInput()
        else if env.apiKey == "" then ServerError(RunFailed, Raise(KeyMissing))
        else if env.workflowId == "" then ServerError(RunFailed, Raise(IdMissing))
        else match provider
          case Rejected(e) => ServerError(RunFailed, e)
          case Streamed(cs, _) =>
            if Broken(provider).Some? then ServerError(RunFailed, Broken(provider).value)
            else Finished(StreamResult(Extract(cs, parse), env.workflowId, input.s, now))
          case Plain(_) => Finished(StreamResult(Start, env.workflowId, input.s, now))
  }

  /** The input length reported is that of the input as sent, before trimming. */
  lemma ReportsUntrimmedLength(req: Request, env: Env, provider: Provider, parse: Parser, now: int)
    requires Answer(req, env, provider, parse, now).Json? && Answer(req, env, provider, parse, now).code == 200
    ensures var info := Get(Get(Answer(req, env, provider, parse, now).body, "result"), "infoJson");
      Get(info, "input_length") == Num(Utf16Length(Get(req.body, "input").s))
  {
  }

  /** `handler`, with the `for await` loop of the stream. */
  method Handler(req: Request, env: Env, provider: Provider, parse: Parser, now: int) returns (res: Response)
    ensures res == Answer(req, env, provider, parse, now)
  {
    if req.verb == "OPTIONS" {
      return End(200);
    }
    if req.verb != "POST" {
      return MethodNotAllowed("POST");
    }
    var body := Destructure(req.body, "req.body", "input");
    if body.Failure? {
      return ServerError(RunFailed, body.error);
    }
    var input := Get(body.value, "input");
    if !ValidInput(input) {
      return InvalidInput();
    }
    if env.apiKey == "" {
      return ServerError(RunFailed, Raise(KeyMissing));
    }
    if env.workflowId == "" {
      return ServerError(RunFailed, Raise(IdMissing));
    }
    if provider.Rejected? {
      return ServerError(RunFailed, provider.error);
    }
    var st := Start;
    if provider.Streamed? {
      var done;
      st, done := Consume(provider.chunks, parse);
      if done.None? && provider.end.Some? {
        return ServerError(RunFailed, provider.end.value);
      }
    }
    res := Finished(StreamResult(st, env.workflowId, input.s, now));
  }
}
