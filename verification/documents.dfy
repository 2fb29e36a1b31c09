/**
 * The document stage the runners share: post the workflow data to the Google
 * Apps Script service, take the document id from its answer (`docId`, else
 * `documentId`, else `id`), then ask the download service for a link.
 */
module Documents {
  import opened JsValue
  import opened Job
  import opened Web

  /**
   * A service's answer, read once it came back with a usable status: a
   * rejected `fetch` passes its error on, a status that is not ok throws
   * `prefix` followed by the status, and otherwise the body is parsed.
   */
  function ServiceReply(reply: Reply, prefix: string, parse: Parser): (r: Result<Value, JsError>)
    ensures reply.NetworkError? ==> r == Failure(reply.error)
    ensures reply.Reply? && !Ok(reply) ==> r == Failure(Raise(prefix + IntText(reply.status)))
    ensures reply.Reply? && Ok(reply) ==> r == ReplyJson(parse, reply)
  {
    if reply.NetworkError? then Failure(reply.error)
    else if !Ok(reply) then Failure(Raise(prefix + IntText(reply.status)))
    else ReplyJson(parse, reply)
  }

  /** The script service's answer. */
  function ScriptReply(gas: Reply, parse: Parser): Result<Value, JsError> {
    ServiceReply(gas, "Google Apps Script 调用失败: ", parse)
  }

  const NoDocId := "未能从 Google Apps Script 获取文档 ID"

  /** `gasData.docId || gasData.documentId || gasData.id`, which must be truthy. */
  function DocIdOf(gasData: Value): (r: Result<Value, JsError>)
    ensures !Readable(gasData) ==> r == Failure(ReadError(gasData, "docId"))
    ensures r.Success? <==>
      Readable(gasData) &&
      (Truthy(Get(gasData, "docId")) || Truthy(Get(gasData, "documentId")) || Truthy(Get(gasData, "id")))
    ensures r.Success? && Truthy(Get(gasData, "docId")) ==> r.value == Get(gasData, "docId")
    ensures r.Success? && !Truthy(Get(gasData, "docId")) && Truthy(Get(gasData, "documentId")) ==>
      r.value == Get(gasData, "documentId")
    ensures r.Success? && !Truthy(Get(gasData, "docId")) && !Truthy(Get(gasData, "documentId")) ==>
      r.value == Get(gasData, "id")
    ensures Readable(gasData) && r.Failure? ==> r.error == Raise(NoDocId)
  {
    if !Readable(gasData) then Failure(ReadError(gasData, "docId"))
    else
      var docId := FirstTruthyField(gasData, "docId", "documentId", "id");
      if !Truthy(docId) then Failure(Raise(NoDocId)) else Success(docId)
  }

  /** The download service's answer. */
  function DownloadReply(download: Reply, parse: Parser): Result<Value, JsError> {
    ServiceReply(download, "下载 API 调用失败: ", parse)
  }

  /** `{ docId, downloadUrl, fileName, fileSize }` from the download service's data. */
  function DocumentOf(docId: Value, downloadData: Value): (r: Result<DocumentResult, JsError>)
    ensures r.Success? <==> Readable(downloadData)
    ensures r.Success? ==>
      && r.value.docId == docId
      && r.value.downloadUrl == Get(downloadData, "downloadUrl")
      && r.value.fileName == Get(downloadData, "fileName")
      && r.value.fileSize == Get(downloadData, "fileSize")
  {
    if !Readable(downloadData) then Failure(ReadError(downloadData, "downloadUrl"))
    else Success(DocumentResult(docId, Get(downloadData, "downloadUrl"), Get(downloadData, "fileName"), Get(downloadData, "fileSize")))
  }

  /**
   * The whole document stage without progress writes (`generateDocument` of
   * api/worker.js): the first failing step's error, or the document result.
   */
  function Generate(gas: Reply, download: Reply, parse: Parser): (r: Result<DocumentResult, JsError>)
    ensures ScriptReply(gas, parse).Failure? ==> r.Failure? && r.error == ScriptReply(gas, parse).error
    ensures ScriptReply(gas, parse).Success? && DocIdOf(ScriptReply(gas, parse).value).Failure? ==>
      r.Failure? && r.error == DocIdOf(ScriptReply(gas, parse).value).error
    ensures r.Success? ==> DownloadReply(download, parse).Success? && r.value.docId == DocIdOf(ScriptReply(gas, parse).value).value
  {
    var gasData :- ScriptReply(gas, parse);
    var docId :- DocIdOf(gasData);
    var downloadData :- DownloadReply(download, parse);
    DocumentOf(docId, downloadData)
  }

  /**
   * A document comes out exactly when both services answer with a usable status
   * and a readable body and the script service names a document; its id is
   * then the first truthy of `docId`, `documentId` and `id`.
   */
  lemma GenerateSucceeds(gas: Reply, download: Reply, parse: Parser)
    ensures Generate(gas, download, parse).Success? <==>
      && ScriptReply(gas, parse).Success?
      && DocIdOf(ScriptReply(gas, parse).value).Success?
      && DownloadReply(download, parse).Success?
      && Readable(DownloadReply(download, parse).value)
    ensures Generate(gas, download, parse).Success? ==>
      var gasData := ScriptReply(gas, parse).value;
      Generate(gas, download, parse).value.docId == FirstTruthyField(gasData, "docId", "documentId", "id")
    ensures gas.Reply? && !Ok(gas) ==> Generate(gas, download, parse).Failure?
  {
  }
}
