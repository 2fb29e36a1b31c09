/**
 * api/generate-document.js: asks the Google Apps Script service to build a
 * document from the workflow data, then asks api/download.js for a link to
 * it. Each failing step has its own status code.
 */
module GenerateDocument {
  import opened JsValue
  import opened Web
  import opened Documents
  import Download

  const ScriptUrl :=
    "https://script.google.com/macros/s/AKfycbw44ekOAjkT0xc1ZkQhiIQowZRot_cGTsKd4Z6dVUATM8ROGQMvue3rAWueqb7WEzmlEw/exec"

  /** The script service's request: the workflow data, the source's name and the time. */
  function ScriptCall(workflowData: Value, now: int): (t: Trigger)
    ensures t.url == ScriptUrl && Get(t.body, "data") == workflowData
  {
    Trigger(ScriptUrl, Obj(map["data" := workflowData, "source" := Str("coze-workflow"), "timestamp" := Num(now)]))
  }

  /** The download service's request: the document's id and a file name made from the time. */
  function DownloadCall(origin: Value, docId: Value, now: int): (t: Trigger)
    ensures Truthy(origin) ==> t.url == TemplateText(origin) + "/api/download"
    ensures !Truthy(origin) ==> t.url == DefaultOrigin + "/api/download"
    ensures Get(t.body, "docId") == docId
    ensures Get(t.body, "fileName") == Str("workflow_document_" + IntText(now) + ".docx")
  {
    Trigger(TemplateText(Or(origin, Str(DefaultOrigin))) + "/api/download",
      Obj(map["docId" := docId, "fileName" := Str("workflow_document_" + IntText(now) + ".docx")]))
  }

  /** The 500 answer of the `catch` block. */
  function Failed(env: Env, e: JsError): (r: Response)
    ensures r.Json? && r.code == 500 && Get(r.body, "error") == Str("Document generation error")
  {
    HiddenError("Document generation error", "文档生成失败，请稍后重试", env, e)
  }

  /** The 502 answer to a service whose status is not ok, with the service's text as `details`. */
  function BadGateway(error: string, message: string, reply: Reply, extra: map<string, Value>): (r: Response)
    requires reply.Reply?
    ensures r.Json? && r.code == 502 && Get(r.body, "error") == Str(error) && Get(r.body, "details") == Str(reply.text)
    ensures forall k :: k in extra && k !in {"error", "message", "details"} ==> Get(r.body, k) == extra[k]
  {
    Json(502, Obj(extra + map[
      "error" := Str(error),
      "message" := Str(message + IntText(reply.status)),
      "details" := Str(reply.text)]))
  }

  /** The 500 answer to a script reply without a document id, which carries that reply. */
  function MissingId(gasData: Value): (r: Response)
    ensures r.Json? && r.code == 500 && Get(r.body, "error") == Str("Missing document ID")
    ensures Get(r.body, "gasResponse") == gasData
  {
    Json(500, Obj(map["error" := Str("Missing document ID"), "message" := Str(NoDocId), "gasResponse" := gasData]))
  }

  /** The 200 answer: the id and what the download service said about the file. */
  function Generated(docId: Value, gasData: Value, downloadData: Value, now: int): (r: Response)
    ensures r.Json? && r.code == 200
    ensures Get(r.body, "docId") == docId && Get(r.body, "gasResponse") == gasData
    ensures Get(r.body, "downloadUrl") == Get(downloadData, "downloadUrl")
    ensures Get(r.body, "fileName") == Get(downloadData, "fileName")
    ensures Get(r.body, "fileSize") == Get(downloadData, "fileSize")
  {
    Json(200, Obj(map[
      "success" := Bool(true),
      "docId" := docId,
      "downloadUrl" := Get(downloadData, "downloadUrl"),
      "fileName" := Get(downloadData, "fileName"),
      "fileSize" := Get(downloadData, "fileSize"),
      "timestamp" := Num(now),
      "gasResponse" := gasData,
      "processing_steps" := Arr([Str("Google Apps Script 调用成功"), Str("文档生成完成"), Str("下载链接创建成功")])]))
  }

  /** The answer once the script service's data is read: the id check, the download call and its outcome. */
  function AfterScript(gasData: Value, env: Env, download: Reply, parse: Parser, now: int): (res: Response)
    ensures !Readable(gasData) ==> res == Failed(env, ReadError(gasData, "docId"))
    ensures Readable(gasData) && !Truthy(FirstTruthyField(gasData, "docId", "documentId", "id")) ==> res == MissingId(gasData)
    ensures res.Json? && res.code == 200 ==>
      && Readable(gasData) && download.Reply? && Ok(download) && ReplyJson(parse, download).Success?
      && Get(res.body, "docId") == FirstTruthyField(gasData, "docId", "documentId", "id")
      && Truthy(Get(res.body, "docId"))
  {
    if !Readable(gasData) then Failed(env, ReadError(gasData, "docId"))
    else
      var docId := FirstTruthyField(gasData, "docId", "documentId", "id");
      if !Truthy(docId) then MissingId(gasData)
      else match download
        case NetworkError(e) => Failed(env, e)
        case Reply(_, _, _) =>
          if !Ok(download) then BadGateway("Download API error", "调用下载 API 失败: ", download, map["docId" := docId])
          else match ReplyJson(parse, download)
            case Failure(e) => Failed(env, e)
            case Success(downloadData) =>
              if !Readable(downloadData) then Failed(env, ReadError(downloadData, "downloadUrl"))
              else Generated(docId, gasData, downloadData, now)
  }

  /**
   * `handler`. `gas` and `download` are how the two `fetch` calls end and
   * `parse` stands for their `json()`.
   */
  function Answer(req: Request, env: Env, gas: Reply, download: Reply, parse: Parser, now: int): (res: Response)
    ensures req.verb == "OPTIONS" ==> res == End(200)
    ensures req.verb != "OPTIONS" && req.verb != "POST" ==> res == MethodNotAllowed("POST")
    ensures req.verb == "POST" && !Readable(req.body) ==>
      res == Failed(env, Destructure(req.body, "req.body", "workflowData").error)
    ensures req.verb == "POST" && Readable(req.body) && !Truthy(Get(req.body, "workflowData")) ==>
      res.Json? && res.code == 400 && Get(res.body, "error") == Str("Invalid input")
    ensures req.verb == "POST" && Readable(req.body) && Truthy(Get(req.body, "workflowData")) ==>
      && (gas.NetworkError? ==> res == Failed(env, gas.error))
      && (gas.Reply? && !Ok(gas) ==>
            res == BadGateway("Google Apps Script error", "调用 Google Apps Script 失败: ", gas, map[]))
      && (gas.Reply? && Ok(gas) && ReplyJson(parse, gas).Failure? ==> res == Failed(env, ReplyJson(parse, gas).error))
      && (gas.Reply? && Ok(gas) && ReplyJson(parse, gas).Success? ==>
            res == AfterScript(ReplyJson(parse, gas).value, env, download, parse, now))
  {
    if req.verb == "OPTIONS" then End(200)
    else if req.verb != "POST" then MethodNotAllowed("POST")
    else match Destructure(req.body, "req.body", "workflowData")
      case Failure(e) => Failed(env, e)
      case Success(body) =>
        if !Truthy(Get(body, "workflowData")) then Json(400, ErrorBody("Invalid input", "请提供工作流数据"))
        else match gas
          case NetworkError(e) => Failed(env, e)
          case Reply(_, _, _) =>
            if !Ok(gas) then BadGateway("Google Apps Script error", "调用 Google Apps Script 失败: ", gas, map[])
            else match ReplyJson(parse, gas)
              case Failure(e) => Failed(env, e)
              case Success(gasData) => AfterScript(gasData, env, download, parse, now)
  }

  /**
   * The document-id outcomes: no truthy `docId`, `documentId` or `id` gives
   * 500 with the script's reply; otherwise a failed download step gives 502
   * still naming the id, and success gives 200 whose id is the first truthy
   * of the three.
   */
  lemma DocumentIdOutcomes(gasData: Value, env: Env, download: Reply, parse: Parser, now: int)
    requires Readable(gasData)
    ensures var res := AfterScript(gasData, env, download, parse, now);
      && (DocIdOf(gasData).Failure? ==> res == MissingId(gasData))
      && (DocIdOf(gasData).Success? && download.Reply? && !Ok(download) ==>
            res.code == 502 && Get(res.body, "docId") == DocIdOf(gasData).value)
      && (res.Json? && res.code == 200 ==>
            DocIdOf(gasData).Success? && Get(res.body, "docId") == DocIdOf(gasData).value &&
            DownloadReply(download, parse).Success? && Readable(DownloadReply(download, parse).value))
  {
    var res := AfterScript(gasData, env, download, parse, now);
    if DocIdOf(gasData).Success? && download.Reply? && !Ok(download) {
      var docId := DocIdOf(gasData).value;
      assert res == BadGateway("Download API error", "调用下载 API 失败: ", download, map["docId" := docId]);
      assert "docId" !in {"error", "message", "details"};
    }
  }

  /**
   * What this handler sends to the download service is a request that
   * service accepts: it reads back the same document id and file name.
   */
  lemma DownloadCallAccepted(origin: Value, docId: Value, now: int, later: int)
    requires Truthy(docId)
    ensures var body := DownloadCall(origin, docId, now).body;
      && Readable(body)
      && Download.FinalDocId(body) == docId
      && Download.FinalFileName(body, later) == Str("workflow_document_" + IntText(now) + ".docx")
  {
    var body := DownloadCall(origin, docId, now).body;
    assert Get(body, "docId") == docId;
  }
}
