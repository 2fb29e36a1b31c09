/**
 * api/download.js: exports a Google Docs document as .docx, uploads it to
 * Vercel Blob and answers with the link. The id is `docId`, else
 * `documentId`; the file name defaults to one made from the time.
 */
module Download {
  import opened JsValue
  import opened Web

  /** How the export `fetch` ends: a rejection, or a status line and the number of bytes of the body. */
  datatype Export = ExportError(error: JsError) | Export(status: int, statusText: string, size: nat)

  /** `docId || documentId` of the request body. */
  function FinalDocId(body: Value): (id: Value)
    ensures Truthy(Get(body, "docId")) ==> id == Get(body, "docId")
    ensures !Truthy(Get(body, "docId")) ==> id == Get(body, "documentId")
  {
    Or(Get(body, "docId"), Get(body, "documentId"))
  }

  /** `fileName || `document_${Date.now()}.docx`` */
  function FinalFileName(body: Value, now: int): (name: Value)
    ensures Truthy(Get(body, "fileName")) ==> name == Get(body, "fileName")
    ensures !Truthy(Get(body, "fileName")) ==> name == Str("document_" + IntText(now) + ".docx")
    ensures Truthy(name)
  {
    Or(Get(body, "fileName"), Str("document_" + IntText(now) + ".docx"))
  }

  const ExportPrefix := "https://docs.google.com/document/d/"
  const ExportSuffix := "/export?format=docx"

  /**
   * The Google Docs export address of a document. The handler fetches this
   * address; `Process` takes how that fetch ends as its `exported` parameter,
   * so this function describes the request and is not called by it.
   */
  function ExportUrl(docId: Value): (url: string)
    ensures |url| == |ExportPrefix| + |TemplateText(docId)| + |ExportSuffix|
    ensures url[..|ExportPrefix|] == ExportPrefix
    ensures url[|ExportPrefix|..|url| - |ExportSuffix|] == TemplateText(docId)
    ensures url[|url| - |ExportSuffix|..] == ExportSuffix
  {
    ExportPrefix + TemplateText(docId) + ExportSuffix
  }

  /** The 500 answer of the `catch` block. */
  function Failed(env: Env, e: JsError): (r: Response)
    ensures r.Json? && r.code == 500 && Get(r.body, "error") == Str("Document processing error")
  {
    Json(500, Obj(map[
      "error" := Str("Document processing error"),
      "message" := Str("文档处理失败，请稍后重试"),
      "details" := Details(env, e)]))
  }

  /** The 200 answer: the blob's address, the file name, the byte count and the id under both names. */
  function Uploaded(url: string, fileName: Value, size: nat, docId: Value, now: int): (r: Response)
    ensures r.Json? && r.code == 200
    ensures Get(r.body, "downloadUrl") == Str(url) && Get(r.body, "fileName") == fileName
    ensures Get(r.body, "fileSize") == Num(size)
    ensures Get(r.body, "docId") == docId && Get(r.body, "documentId") == docId
  {
    Json(200, Obj(map[
      "success" := Bool(true),
      "downloadUrl" := Str(url),
      "fileName" := fileName,
      "fileSize" := Num(size),
      "documentId" := docId,
      "docId" := docId,
      "timestamp" := Num(now)]))
  }

  /**
   * The `try` block of the handler, which the Express route in index.js
   * repeats unchanged. `exported` is how the fetch of `ExportUrl(FinalDocId(body))`
   * ends and `upload` how `put(FinalFileName(body, now), ...)` ends: the
   * blob's address, or the error it throws.
   */
  function Process(body: Value, env: Env, exported: Export, upload: Result<string, JsError>, now: int): (res: Response)
    ensures !Readable(body) ==> res == Failed(env, Destructure(body, "req.body", "docId").error)
    ensures Readable(body) && !Truthy(FinalDocId(body)) ==>
      res.Json? && res.code == 400 && Get(res.body, "error") == Str("Invalid input")
    ensures Readable(body) && Truthy(FinalDocId(body)) && exported.ExportError? ==> res == Failed(env, exported.error)
    ensures Readable(body) && Truthy(FinalDocId(body)) && exported.Export? && !(200 <= exported.status <= 299) ==>
      res == Failed(env, Raise("下载文档失败: " + IntText(exported.status) + " " + exported.statusText))
    ensures res.Json? && res.code == 200 <==>
      && Readable(body) && Truthy(FinalDocId(body))
      && exported.Export? && 200 <= exported.status <= 299 && upload.Success?
    ensures res.Json? && res.code == 200 ==>
      res == Uploaded(upload.value, FinalFileName(body, now), exported.size, FinalDocId(body), now)
  {
    match Destructure(body, "req.body", "docId")
    case Failure(e) => Failed(env, e)
    case Success(body) =>
      var docId := FinalDocId(body);
      if !Truthy(docId) then Json(400, ErrorBody("Invalid input", "请提供文档 ID (docId 或 documentId)"))
      else match exported
        case ExportError(e) => Failed(env, e)
        case Export(status, statusText, size) =>
          if !(200 <= status <= 299) then Failed(env, Raise("下载文档失败: " + IntText(status) + " " + statusText))
          else match upload
            case Failure(e) => Failed(env, e)
            case Success(url) => Uploaded(url, FinalFileName(body, now), size, docId, now)
  }

  /** `handler`: the preflight, the 405, and otherwise `Process`. */
  function Answer(req: Request, env: Env, exported: Export, upload: Result<string, JsError>, now: int): (res: Response)
    ensures req.verb == "OPTIONS" ==> res == End(200)
    ensures req.verb != "OPTIONS" && req.verb != "POST" ==> res == MethodNotAllowed("POST")
    ensures req.verb == "POST" ==> res == Process(req.body, env, exported, upload, now)
  {
    if req.verb == "OPTIONS" then End(200)
    else if req.verb != "POST" then MethodNotAllowed("POST")
    else Process(req.body, env, exported, upload, now)
  }
}
