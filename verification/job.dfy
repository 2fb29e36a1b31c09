/**
 * The job record that every task runner writes under `job:<id>`, and the
 * result objects it carries. Each write replaces the whole record, so a
 * record holds exactly the fields its writer put in it.
 */
module Job {
  import opened JsValue

  datatype Status = Pending | Processing | Completed | Failed

  function StatusName(s: Status): string {
    match s
    case Pending => "pending"
    case Processing => "processing"
    case Completed => "completed"
    case Failed => "failed"
  }

  /**
   * The `infoJson` object of a workflow result; `inputLength` counts UTF-16
   * code units, as `input.length` does, and `downloadUrl` is the
   * `download_url` only the batch runner sets.
   */
  datatype InfoJson = InfoJson(
    timestamp: int,
    workflowId: string,
    inputLength: nat,
    responseData: Value,
    apiMethod: string,
    extractedInfojson: Value,
    downloadUrl: Option<Value>)

  /** What a workflow run returns (`success: true` is implied); `downloadUrl` is set only by the batch runner. */
  datatype WorkflowResult = WorkflowResult(outData: Value, downloadUrl: Option<Value>, infoJson: InfoJson)

  /** What the document stage returns. */
  datatype DocumentResult = DocumentResult(docId: Value, downloadUrl: Value, fileName: Value, fileSize: Value)

  /** The `result` of a completed record: the workflow result spread out, plus either a document result or a file name. */
  datatype FinalResult =
    | WithDocument(workflow: WorkflowResult, documentResult: Option<DocumentResult>)
    | WithLink(workflow: WorkflowResult, fileName: Option<string>)

  /** A stored job record; `None` is an absent field. Times are milliseconds. */
  datatype Record = Record(
    status: Status,
    progress: Option<int>,
    message: Option<string>,
    input: Option<string>,
    createdTime: Option<int>,
    jobId: Option<string>,
    startTime: Option<int>,
    workflowResult: Option<WorkflowResult>,
    result: Option<FinalResult>,
    completedTime: Option<int>,
    error: Option<string>,
    failedTime: Option<int>)

  /** What a store holds under a key: a record object, or (start-workflow.js) its serialised text. */
  datatype Stored = Object(record: Record) | Text(text: string)

  const PendingMessage := "任务已创建，等待处理..."
  const CallingWorkflow := "正在调用 Coze 工作流..."
  const WorkflowDone := "工作流完成，开始生成文档..."
  const CallingScript := "正在调用 Google Apps Script..."
  const MakingLink := "正在生成下载链接..."
  const DocumentDone := "文档生成完成，正在整理结果..."
  const Finishing := "正在整理结果..."
  const TaskDone := "任务完成"
  const FailedPrefix := "处理失败: "
  const LaunchFailedPrefix := "启动失败: "

  /** The record a job-starting handler writes: `pending`, progress 0, the trimmed input, the creation time and the id. */
  function Created(jobId: string, input: string, now: int): Record {
    Record(Pending, Some(0), Some(PendingMessage), Some(input), Some(now), Some(jobId),
           None, None, None, None, None, None)
  }

  /** A `processing` overwrite carrying only status, progress and message. */
  function Step(progress: int, message: string): Record {
    Record(Processing, Some(progress), Some(message), None, None, None, None, None, None, None, None, None)
  }

  /** The first `processing` overwrite, which also records `startTime`. */
  function Started(progress: int, now: int): Record {
    Step(progress, CallingWorkflow).(startTime := Some(now))
  }

  /** The `processing` overwrite after the workflow, carrying its result. */
  function AfterWorkflow(progress: int, wf: WorkflowResult): Record {
    Step(progress, WorkflowDone).(workflowResult := Some(wf))
  }

  function Done(result: FinalResult, now: int): Record {
    Record(Completed, Some(100), Some(TaskDone), None, None, None, None, None, Some(result), Some(now), None, None)
  }

  function Fail(prefix: string, error: string, now: int): Record {
    Record(Failed, Some(0), Some(prefix + error), None, None, None, None, None, None, None, Some(error), Some(now))
  }

  /** A record written by a task runner: the creation fields are gone. */
  predicate Overwrite(r: Record) {
    r.input.None? && r.createdTime.None? && r.jobId.None?
  }

  /** The fields each status carries when this system writes it. */
  predicate WellFormed(r: Record) {
    r.message.Some? && r.progress.Some? &&
    match r.status
    case Pending => r.progress == Some(0) && r.input.Some? && r.createdTime.Some? && r.jobId.Some?
    case Processing => 0 <= r.progress.value < 100
    case Completed => r.progress == Some(100) && r.result.Some? && r.completedTime.Some?
    case Failed => r.progress == Some(0) && r.error.Some? && r.failedTime.Some?
  }

  /** Rank in the forward order `pending < processing < completed | failed`. */
  function Rank(s: Status): nat {
    match s
    case Pending => 0
    case Processing => 1
    case Completed => 2
    case Failed => 2
  }

  /**
   * The overwrites a task runner leaves in the store, in order: every one drops
   * the creation fields, every one but the last is `processing`, and progress
   * never goes down from one write to the next except into `failed`.
   */
  ghost predicate Lifecycle(w: seq<Record>) {
    && (forall i :: 0 <= i < |w| ==> Overwrite(w[i]) && WellFormed(w[i]))
    && (forall i :: 0 <= i < |w| - 1 ==> w[i].status == Processing)
    && (forall i :: 0 < i < |w| && w[i].status != Failed ==> w[i - 1].progress.value <= w[i].progress.value)
  }

  /** A run that has written only `processing` steps so far, none above `ceiling`. */
  ghost predicate Climbing(w: seq<Record>, ceiling: int) {
    && Lifecycle(w)
    && (forall i :: 0 <= i < |w| ==> w[i].status == Processing && w[i].progress.value <= ceiling)
  }

  lemma ClimbStep(w: seq<Record>, ceiling: int, r: Record)
    requires Climbing(w, ceiling)
    requires Overwrite(r) && WellFormed(r) && r.status == Processing && ceiling <= r.progress.value
    ensures Climbing(w + [r], r.progress.value)
  {
  }

  lemma ClimbEnd(w: seq<Record>, ceiling: int, r: Record)
    requires Climbing(w, ceiling)
    requires Overwrite(r) && WellFormed(r) && (r.status == Failed || ceiling <= r.progress.value)
    ensures Lifecycle(w + [r])
  {
  }

  /** What a climbing run had written up to any point was climbing too. */
  lemma ClimbPrefix(w: seq<Record>, k: nat, ceiling: int)
    requires Climbing(w, ceiling) && k <= |w|
    ensures Climbing(w[..k], ceiling)
  {
  }

  /** Regrouping the writes of consecutive stages. */
  lemma Regroup(a: seq<Record>, b: seq<Record>, c: seq<Record>)
    ensures a + b + c == a + (b + c)
  {
  }

  lemma ClimbLower(w: seq<Record>, ceiling: int, higher: int)
    requires Climbing(w, ceiling) && ceiling <= higher
    ensures Climbing(w, higher)
  {
  }

  /**
   * Progress is monotone across the whole run, not just between neighbours:
   * every write shows at least the progress of every earlier one, unless it is
   * the `failed` write.
   */
  lemma {:induction false} LifecycleMonotone(w: seq<Record>)
    requires Lifecycle(w)
    ensures forall i, j :: 0 <= i <= j < |w| && w[j].status != Failed ==>
      w[i].progress.value <= w[j].progress.value
  {
    if |w| > 1 {
      var front := w[..|w| - 1];
      assert Lifecycle(front);
      LifecycleMonotone(front);
      forall i, j | 0 <= i <= j < |w| && w[j].status != Failed
        ensures w[i].progress.value <= w[j].progress.value
      {
        if j == |w| - 1 && i < j {
          assert front[i].progress.value <= front[j - 1].progress.value;
        }
      }
    }
  }

  /**
   * The status only moves forward: no write of a run shows a lower rank than an
   * earlier one, nothing follows a terminal write, and no runner write is `pending`.
   */
  lemma LifecycleForward(w: seq<Record>)
    requires Lifecycle(w)
    ensures forall i, j :: 0 <= i <= j < |w| ==> Rank(w[i].status) <= Rank(w[j].status)
    ensures forall i :: 0 <= i < |w| && w[i].status in {Completed, Failed} ==> i == |w| - 1
    ensures forall i :: 0 <= i < |w| ==> w[i].status != Pending
  {
  }

  /** `{ ...fields, key: value }` when the value is set; an absent field is left out. */
  function With(fields: map<string, Value>, key: string, value: Option<Value>): map<string, Value> {
    if value.Some? then fields[key := value.value] else fields
  }

  /** The value a property read gives for an optional field: `undefined` when it is absent. */
  function Given(value: Option<Value>): Value {
    if value.Some? then value.value else Undefined
  }

  function Number(n: Option<int>): Option<Value> {
    if n.Some? then Some(Num(n.value)) else None
  }

  function Text(s: Option<string>): Option<Value> {
    if s.Some? then Some(Str(s.value)) else None
  }

  /** The `infoJson` object; times appear as their millisecond count. */
  function InfoValue(info: InfoJson): (v: Value)
    ensures Get(v, "workflow_id") == Str(info.workflowId) && Get(v, "input_length") == Num(info.inputLength)
    ensures Get(v, "response_data") == info.responseData && Get(v, "extracted_infojson") == info.extractedInfojson
    ensures Get(v, "api_method") == Str(info.apiMethod) && Get(v, "download_url") == Given(info.downloadUrl)
  {
    Obj(With(map[
      "timestamp" := Num(info.timestamp),
      "workflow_id" := Str(info.workflowId),
      "input_length" := Num(info.inputLength),
      "response_data" := info.responseData,
      "api_method" := Str(info.apiMethod),
      "extracted_infojson" := info.extractedInfojson], "download_url", info.downloadUrl))
  }

  function WorkflowFields(wf: WorkflowResult): (m: map<string, Value>)
    ensures "outData" in m && m["outData"] == wf.outData && "infoJson" in m && m["infoJson"] == InfoValue(wf.infoJson)
    ensures "documentResult" !in m && "fileName" !in m
    ensures wf.downloadUrl.Some? <==> "downloadUrl" in m
    ensures wf.downloadUrl.Some? ==> m["downloadUrl"] == wf.downloadUrl.value
  {
    With(map["success" := Bool(true), "outData" := wf.outData, "infoJson" := InfoValue(wf.infoJson)], "downloadUrl", wf.downloadUrl)
  }

  /** A workflow result as the object the runners return and store. */
  function WorkflowValue(wf: WorkflowResult): (v: Value)
    ensures Get(v, "success") == Bool(true) && Get(v, "outData") == wf.outData
    ensures Get(v, "infoJson") == InfoValue(wf.infoJson) && Get(v, "downloadUrl") == Given(wf.downloadUrl)
  {
    Obj(WorkflowFields(wf))
  }

  function DocumentValue(d: DocumentResult): (v: Value)
    ensures Truthy(v)
    ensures Get(v, "docId") == d.docId && Get(v, "downloadUrl") == d.downloadUrl
    ensures Get(v, "fileName") == d.fileName && Get(v, "fileSize") == d.fileSize
  {
    Obj(map["docId" := d.docId, "downloadUrl" := d.downloadUrl, "fileName" := d.fileName, "fileSize" := d.fileSize])
  }

  /**
   * The `result` object of a completed record: `{ ...workflowResult, documentResult }`,
   * or `{ ...workflowResult, downloadUrl, fileName }` for the batch runner.
   */
  function FinalValue(f: FinalResult): (v: Value)
    ensures Truthy(v) && Get(v, "outData") == f.workflow.outData && Get(v, "infoJson") == InfoValue(f.workflow.infoJson)
    ensures Truthy(Get(v, "documentResult")) <==> f.WithDocument? && f.documentResult.Some?
    ensures f.WithDocument? && f.documentResult.Some? ==> Get(v, "documentResult") == DocumentValue(f.documentResult.value)
    ensures f.WithLink? ==> Get(v, "fileName") == (if f.fileName.Some? then Str(f.fileName.value) else Null)
    ensures Get(v, "downloadUrl") == Given(f.workflow.downloadUrl)
  {
    match f
    case WithDocument(wf, d) =>
      Obj(WorkflowFields(wf)["documentResult" := if d.Some? then DocumentValue(d.value) else Null])
    case WithLink(wf, name) =>
      Obj(WorkflowFields(wf)["downloadUrl" := Given(wf.downloadUrl)]["fileName" := if name.Some? then Str(name.value) else Null])
  }

  const RecordKeys := {"status", "progress", "message", "input", "createdTime", "jobId", "startTime",
                       "workflowResult", "result", "completedTime", "error", "failedTime"}

  /** The property `key` of a stored record, when the record has it. */
  function RecordField(r: Record, key: string): Option<Value> {
    match key
    case "status" => Some(Str(StatusName(r.status)))
    case "progress" => Number(r.progress)
    case "message" => Text(r.message)
    case "input" => Text(r.input)
    case "createdTime" => Number(r.createdTime)
    case "jobId" => Text(r.jobId)
    case "startTime" => Number(r.startTime)
    case "workflowResult" => if r.workflowResult.Some? then Some(WorkflowValue(r.workflowResult.value)) else None
    case "result" => if r.result.Some? then Some(FinalValue(r.result.value)) else None
    case "completedTime" => Number(r.completedTime)
    case "error" => Text(r.error)
    case "failedTime" => Number(r.failedTime)
    case _ => None
  }

  /** A record as the object a store holds: absent fields are not there at all. */
  function RecordValue(r: Record): (v: Value)
    ensures Truthy(v)
    ensures Get(v, "status") == Str(StatusName(r.status))
    ensures Get(v, "progress") == Given(Number(r.progress)) && Get(v, "message") == Given(Text(r.message))
    ensures Get(v, "input") == Given(Text(r.input)) && Get(v, "jobId") == Given(Text(r.jobId))
    ensures Get(v, "createdTime") == Given(Number(r.createdTime)) && Get(v, "startTime") == Given(Number(r.startTime))
    ensures Get(v, "completedTime") == Given(Number(r.completedTime)) && Get(v, "failedTime") == Given(Number(r.failedTime))
    ensures Get(v, "error") == Given(Text(r.error))
    ensures Get(v, "result") == (if r.result.Some? then FinalValue(r.result.value) else Undefined)
  {
    Obj(map k | k in RecordKeys && RecordField(r, k).Some? :: RecordField(r, k).value)
  }

  /** What a store answer reads as: a record object, or the text itself. */
  function StoredValue(s: Stored): Value {
    match s
    case Object(r) => RecordValue(r)
    case Text(t) => Str(t)
  }
}
