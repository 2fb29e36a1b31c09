/**
 * api/worker.js: `executeWorkflow` checks the configuration and the input,
 * reads the workflow service's stream until `Done` (or takes a plain answer
 * whole) and builds the workflow result; `processWorkflow` records a job's
 * progress at 0, 50, 90 (only when a document was made) and 100, writes a
 * `failed` record on any error and rethrows it; `handler` runs
 * `executeWorkflow` alone.
 */
module Worker {
  import opened JsValue
  import opened Job
  import opened Web
  import opened Store
  import opened Stream
  import opened Documents

  /** Whether the stream read ended on a `Done` chunk. */
  predicate EndedOnDone(cs: seq<Chunk>) {
    Consumed(cs) > 0 && IsDone(cs[Consumed(cs) - 1])
  }

  /** `cozeData`: `{}` until a `Done` chunk replaces it; a plain answer is kept whole. */
  function CozeData(provider: Provider): Value
    requires !provider.Rejected?
  {
    if provider.Plain? then provider.response
    else if EndedOnDone(provider.chunks) then ChunkValue(provider.chunks[Consumed(provider.chunks) - 1])
    else Obj(map[])
  }

  /** `finalResult`: the JSON text of a plain answer, `''` for a stream. */
  function FinalText(provider: Provider): Value
    requires !provider.Rejected?
  {
    if provider.Plain? then Stringify(provider.response) else Str("")
  }

  /** The object `executeWorkflow` returns, from the loop's variables, `cozeData` and `finalResult`. */
  function WorkerResult(st: Extracted, cozeData: Value, finalResult: Value, workflowId: string, input: string, now: int): WorkflowResult {
    WorkflowResult(
      Or(Or(Or(st.outData, Stringify(st.infojson)), finalResult), Str("处理完成")),
      None,
      InfoJson(now, workflowId, Utf16Length(input), Or(Or(st.infojson, st.messageData), cozeData), "stream", st.infojson, None))
  }

  /**
   * `executeWorkflow(input)`: the key is checked, then the workflow id, then
   * the input, and only then is the service called.
   */
  function Execution(input: Value, env: Env, provider: Provider, parse: Parser, now: int): (r: Result<WorkflowResult, JsError>)
    ensures env.apiKey == "" ==> r == Failure(Raise(KeyMissing))
    ensures env.apiKey != "" && env.workflowId == "" ==> r == Failure(Raise(IdMissing))
    ensures env.apiKey != "" && env.workflowId != "" && !ValidInput(input) ==> r == Failure(Raise(InvalidInputMessage))
    ensures r.Success? <==>
      env.apiKey != "" && env.workflowId != "" && ValidInput(input) && !provider.Rejected? && Broken(provider).None?
    ensures env.apiKey != "" && env.workflowId != "" && ValidInput(input) && Broken(provider).Some? ==>
      r == Failure(Broken(provider).value)
    ensures r.Success? ==>
      && r.value.infoJson.workflowId == env.workflowId
      && r.value.infoJson.inputLength == Utf16Length(input.s)
      && r.value.infoJson.apiMethod == "stream"
  {
    if env.apiKey == "" then Failure(Raise(KeyMissing))
    else if env.workflowId == "" then Failure(Raise(IdMissing))
    else if !ValidInput(input) then Failure(Raise(InvalidInputMessage))
    else if provider.Rejected? then Failure(provider.error)
    else if Broken(provider).Some? then Failure(Broken(provider).value)
    else
      var st := if provider.Streamed? then Extract(provider.chunks, parse) else Start;
      Success(WorkerResult(st, CozeData(provider), FinalText(provider), env.workflowId, input.s, now))
  }

  /**
   * The last two fallbacks of `outData` are never taken: without a truthy
   * `outData` from the stream it is the JSON text of `infojson`, which is
   * `"null"` when no chunk supplied one, and always so for a plain answer,
   * whose own JSON text is therefore never used.
   */
  lemma {:induction false} OutDataFallbacks(input: Value, env: Env, provider: Provider, parse: Parser, now: int)
    requires Execution(input, env, provider, parse, now).Success?
    ensures var wf := Execution(input, env, provider, parse, now).value;
      var st := if provider.Streamed? then Extract(provider.chunks, parse) else Start;
      && (Truthy(st.outData) ==> wf.outData == st.outData)
      && (!Truthy(st.outData) ==> wf.outData == Stringify(st.infojson))
      && (provider.Plain? ==> wf.outData == Str("null"))
  {
    if provider.Streamed? {
      OutDataNeverDefault(provider.chunks, parse);
    }
  }

  /**
   * `response_data` falls back to `cozeData`: the `Done` chunk for a stream
   * that has one, `{}` for one that does not, the answer itself when it is
   * plain. A stream's result therefore always carries truthy `response_data`.
   */
  lemma ResponseData(input: Value, env: Env, provider: Provider, parse: Parser, now: int)
    requires Execution(input, env, provider, parse, now).Success?
    ensures var wf := Execution(input, env, provider, parse, now).value;
      && (provider.Plain? ==> wf.infoJson.responseData == provider.response)
      && (provider.Streamed? && EndedOnDone(provider.chunks) ==>
            var st := Extract(provider.chunks, parse);
            wf.infoJson.responseData ==
              Or(Or(st.infojson, st.messageData), ChunkValue(provider.chunks[Consumed(provider.chunks) - 1])))
      && (provider.Streamed? ==> Truthy(wf.infoJson.responseData))
  {
  }

  /**
   * `executeWorkflow`: the checks, then the `for await` loop over a stream
   * (stopping at `Done`, which becomes `cozeData`, and throwing the stream's
   * own error when it ends without one), or the plain answer.
   */
  method ExecuteWorkflow(input: Value, env: Env, provider: Provider, parse: Parser, now: int)
    returns (r: Result<WorkflowResult, JsError>)
    ensures r == Execution(input, env, provider, parse, now)
  {
    if env.apiKey == "" {
      return Failure(Raise(KeyMissing));
    }
    if env.workflowId == "" {
      return Failure(Raise(IdMissing));
    }
    if !ValidInput(input) {
      return Failure(Raise(InvalidInputMessage));
    }
    if provider.Rejected? {
      return Failure(provider.error);
    }
    var cozeData := Obj(map[]);
    var finalResult := Str("");
    var st := Start;
    if provider.Streamed? {
      var done;
      st, done := Consume(provider.chunks, parse);
      assert done.Some? <==> EndedOnDone(provider.chunks);
      if done.None? && provider.end.Some? {
        return Failure(provider.end.value);
      }
      if done.Some? {
        cozeData := ChunkValue(done.value);
      }
    } else {
      cozeData := provider.response;
      finalResult := Stringify(cozeData);
    }
    r := Success(WorkerResult(st, cozeData, finalResult, env.workflowId, input.s, now));
  }

  /** `result.infoJson && (result.infoJson.extracted_infojson || result.infoJson.response_data)` */
  predicate WantsDocument(wf: WorkflowResult) {
    Truthy(wf.infoJson.extractedInfojson) || Truthy(wf.infoJson.responseData)
  }

  /** `extracted_infojson || response_data`, the data handed to the document service. */
  function WorkflowData(wf: WorkflowResult): (v: Value)
    ensures WantsDocument(wf) <==> Truthy(v)
    ensures Truthy(wf.infoJson.extractedInfojson) ==> v == wf.infoJson.extractedInfojson
  {
    Or(wf.infoJson.extractedInfojson, wf.infoJson.responseData)
  }

  /** `documentResult`: the document when the stage runs and succeeds, `null` otherwise. */
  function DocumentStage(wf: WorkflowResult, gas: Reply, download: Reply, parse: Parser): (d: Option<DocumentResult>)
    ensures d.Some? <==> WantsDocument(wf) && Generate(gas, download, parse).Success?
    ensures d.Some? ==> Generate(gas, download, parse) == Success(d.value)
  {
    if WantsDocument(wf) && Generate(gas, download, parse).Success? then Some(Generate(gas, download, parse).value) else None
  }

  /** What `processWorkflow` resolves to: the workflow result with its `documentResult`, or the workflow's error. */
  function Outcome(input: Value, env: Env, provider: Provider, gas: Reply, download: Reply, parse: Parser, now: int)
    : (r: Result<FinalResult, JsError>)
    ensures r.Success? <==> Execution(input, env, provider, parse, now).Success?
    ensures r.Failure? ==> r.error == Execution(input, env, provider, parse, now).error
    ensures r.Success? ==> && r.value.WithDocument?
                           && r.value.workflow == Execution(input, env, provider, parse, now).value
                           && (r.value.documentResult.Some? <==> WantsDocument(r.value.workflow) && Generate(gas, download, parse).Success?)
  {
    match Execution(input, env, provider, parse, now)
    case Failure(e) => Failure(e)
    case Success(wf) => Success(WithDocument(wf, DocumentStage(wf, gas, download, parse)))
  }

  /** The writes after a successful workflow: 50, 90 when a document was made, then `completed`. */
  function FinishWrites(wf: WorkflowResult, doc: Option<DocumentResult>, now: int): seq<Record> {
    [AfterWorkflow(50, wf)] + (if doc.Some? then [Step(90, DocumentDone)] else []) + [Done(WithDocument(wf, doc), now)]
  }

  /** The records `processWorkflow` writes when the store accepts every write. */
  function Writes(input: Value, env: Env, provider: Provider, gas: Reply, download: Reply, parse: Parser, now: int)
    : (w: seq<Record>)
    ensures |w| >= 2 && w[0] == Started(0, now)
    ensures Execution(input, env, provider, parse, now).Failure? ==>
      |w| == 2 && w[1].status == Failed && w[1].error == Some(Execution(input, env, provider, parse, now).error.message)
    ensures Execution(input, env, provider, parse, now).Success? ==>
      w[|w| - 1] == Done(Outcome(input, env, provider, gas, download, parse, now).value, now)
  {
    match Execution(input, env, provider, parse, now)
    case Failure(e) => [Started(0, now), Fail(FailedPrefix, e.message, now)]
    case Success(wf) => [Started(0, now)] + FinishWrites(wf, DocumentStage(wf, gas, download, parse), now)
  }

  /** A successful run's writes climb from 0 to `completed`, with a 90 step exactly when there is a document. */
  lemma FinishLifecycle(wf: WorkflowResult, doc: Option<DocumentResult>, now: int)
    ensures var w := [Started(0, now)] + FinishWrites(wf, doc, now);
      && Lifecycle(w)
      && w[|w| - 1] == Done(WithDocument(wf, doc), now)
      && (Step(90, DocumentDone) in w <==> doc.Some?)
  {
    var w := [Started(0, now)] + FinishWrites(wf, doc, now);
    if doc.Some? {
      assert w == [Started(0, now), AfterWorkflow(50, wf), Step(90, DocumentDone), Done(WithDocument(wf, doc), now)];
    } else {
      assert w == [Started(0, now), AfterWorkflow(50, wf), Done(WithDocument(wf, doc), now)];
    }
  }

  /**
   * Those records form a lifecycle that starts at 0 and ends in a terminal
   * record: `failed` with the workflow's error exactly when the workflow
   * fails, otherwise `completed` carrying the outcome, with a 90 step exactly
   * when a document was made.
   */
  lemma WritesLifecycle(input: Value, env: Env, provider: Provider, gas: Reply, download: Reply, parse: Parser, now: int)
    ensures var w := Writes(input, env, provider, gas, download, parse, now);
      var outcome := Outcome(input, env, provider, gas, download, parse, now);
      && Lifecycle(w) && |w| >= 2 && w[0] == Started(0, now)
      && (outcome.Failure? <==> w[|w| - 1].status == Failed)
      && (outcome.Failure? ==> w[|w| - 1].error == Some(outcome.error.message))
      && (outcome.Success? ==> w[|w| - 1].status == Completed && w[|w| - 1].result == Some(outcome.value))
      && (Step(90, DocumentDone) in w <==> outcome.Success? && outcome.value.documentResult.Some?)
  {
    var w := Writes(input, env, provider, gas, download, parse, now);
    match Execution(input, env, provider, parse, now)
    case Failure(e) =>
      assert w == [Started(0, now), Fail(FailedPrefix, e.message, now)];
      FailLifecycle(e, now);
    case Success(wf) =>
      var doc := DocumentStage(wf, gas, download, parse);
      assert Outcome(input, env, provider, gas, download, parse, now) == Success(WithDocument(wf, doc));
      assert w == [Started(0, now)] + FinishWrites(wf, doc, now);
      FinishLifecycle(wf, doc, now);
  }

  /** A failed run's two records form a lifecycle that ends `failed` with the error and has no 90 step. */
  lemma FailLifecycle(e: JsError, now: int)
    ensures var w := [Started(0, now), Fail(FailedPrefix, e.message, now)];
      && Lifecycle(w) && w[1].status == Failed && w[1].error == Some(e.message) && Step(90, DocumentDone) !in w
  {
    var w := [Started(0, now), Fail(FailedPrefix, e.message, now)];
    assert w[0].progress == Some(0) && w[1].status == Failed;
  }

  /** The first write and `executeWorkflow`. */
  method Launch(store: JobStore, key: string, input: Value, env: Env, provider: Provider, parse: Parser, now: int)
    returns (r: Result<WorkflowResult, JsError>, ghost w: seq<Record>)
    requires store.Valid()
    modifies store
    ensures store.Valid() && store.initial == old(store.initial)
    ensures store.log == old(store.log) + Tagged(key, w)
    ensures w == [] || w == [Started(0, now)]
    ensures r.Success? ==> r == Execution(input, env, provider, parse, now) && w == [Started(0, now)]
    ensures Healthy(old(store.faults)) ==>
      r == Execution(input, env, provider, parse, now) && w == [Started(0, now)] && Healthy(store.faults)
  {
    w := [];
    var started := store.Set(key, Object(Started(0, now)));
    if started.Failure? {
      return Failure(started.error), w;
    }
    TaggedSingle(key, Started(0, now));
    w := [Started(0, now)];
    r := ExecuteWorkflow(input, env, provider, parse, now);
  }

  /**
   * The document stage: `generateDocument` (which writes nothing) and then the
   * 90 write, both inside a `try` whose `catch` only logs. `documentResult`
   * is set before the 90 write, so a failure of that write does not lose it.
   */
  method DocumentPart(store: JobStore, key: string, wf: WorkflowResult, gas: Reply, download: Reply, parse: Parser)
    returns (documentResult: Option<DocumentResult>, ghost ws: seq<Record>)
    requires store.Valid()
    modifies store
    ensures store.Valid() && store.initial == old(store.initial)
    ensures store.log == old(store.log) + Tagged(key, ws)
    ensures documentResult == DocumentStage(wf, gas, download, parse)
    ensures ws == [] || (ws == [Step(90, DocumentDone)] && documentResult.Some?)
    ensures Healthy(old(store.faults)) ==>
      Healthy(store.faults) && ws == (if documentResult.Some? then [Step(90, DocumentDone)] else [])
  {
    documentResult := None;
    ws := [];
    if WantsDocument(wf) {
      var generated := Generate(gas, download, parse);
      if generated.Success? {
        documentResult := Some(generated.value);
        ws := Attempt(store, key, Step(90, DocumentDone));
      }
    }
    assert ws == [] ==> old(store.log) + Tagged(key, ws) == old(store.log);
  }

  /** The 50 write and the document stage. */
  method Proceed(store: JobStore, key: string, wf: WorkflowResult, gas: Reply, download: Reply, parse: Parser,
                 ghost prior: seq<Record>)
    returns (failure: Option<JsError>, documentResult: Option<DocumentResult>, ghost w: seq<Record>, ghost ceiling: int)
    requires store.Valid() && Climbing(prior, 0)
    modifies store
    ensures store.Valid() && store.initial == old(store.initial)
    ensures store.log == old(store.log) + Tagged(key, w)
    ensures 50 <= ceiling <= 90 && Climbing(prior + w, ceiling)
    ensures failure.None? ==> documentResult == DocumentStage(wf, gas, download, parse)
    ensures Step(90, DocumentDone) in w ==> DocumentStage(wf, gas, download, parse).Some?
    ensures Healthy(old(store.faults)) ==>
      && failure.None? && Healthy(store.faults)
      && w == [AfterWorkflow(50, wf)] + (if documentResult.Some? then [Step(90, DocumentDone)] else [])
  {
    w := [];
    ceiling := 50;
    documentResult := None;
    var after := store.Set(key, Object(AfterWorkflow(50, wf)));
    if after.Failure? {
      assert prior + w == prior;
      ClimbLower(prior, 0, 50);
      return Some(after.error), documentResult, w, ceiling;
    }
    TaggedSingle(key, AfterWorkflow(50, wf));
    ClimbStep(prior, 0, AfterWorkflow(50, wf));
    w := [AfterWorkflow(50, wf)];
    ghost var ws;
    documentResult, ws := DocumentPart(store, key, wf, gas, download, parse);
    LogAppend(old(store.log), key, w, ws);
    if ws != [] {
      ClimbStep(prior + w, 50, Step(90, DocumentDone));
      assert prior + w + ws == prior + (w + ws);
      ceiling := 90;
    } else {
      assert w + ws == w;
    }
    w := w + ws;
    failure := None;
  }

  /** The `completed` write closing a run whose progress writes reached `ceiling`. */
  method Close(store: JobStore, key: string, wf: WorkflowResult, documentResult: Option<DocumentResult>, now: int,
               ghost prior: seq<Record>, ghost ceiling: int)
    returns (r: Result<FinalResult, JsError>, ghost fs: seq<Record>)
    requires store.Valid() && Climbing(prior, ceiling) && ceiling <= 90
    modifies store
    ensures store.Valid() && store.initial == old(store.initial)
    ensures store.log == old(store.log) + Tagged(key, fs)
    ensures r.Failure? ==> fs == [] && Climbing(prior, 90)
    ensures r.Success? ==>
      r == Success(WithDocument(wf, documentResult)) && fs == [Done(r.value, now)] && Lifecycle(prior + fs)
    ensures Healthy(old(store.faults)) ==> r.Success? && Healthy(store.faults)
  {
    var result := WithDocument(wf, documentResult);
    var failure;
    failure, fs := CompleteWrite(store, key, Done(result, now), prior, ceiling);
    r := if failure.Some? then Failure(failure.value) else Success(result);
  }

  /** The stages after a successful workflow: the 50 write, the document stage and the `completed` write. */
  method Rest(store: JobStore, key: string, wf: WorkflowResult, gas: Reply, download: Reply, parse: Parser, now: int,
              ghost prior: seq<Record>)
    returns (r: Result<FinalResult, JsError>, ghost w: seq<Record>)
    requires store.Valid() && Climbing(prior, 0)
    modifies store
    ensures store.Valid() && store.initial == old(store.initial)
    ensures store.log == old(store.log) + Tagged(key, w)
    ensures r.Failure? ==> Climbing(prior + w, 90)
    ensures r.Success? ==>
      && r == Success(WithDocument(wf, DocumentStage(wf, gas, download, parse)))
      && Lifecycle(prior + w) && w != [] && w[|w| - 1] == Done(r.value, now)
    ensures Healthy(old(store.faults)) ==>
      && Healthy(store.faults) && r.Success?
      && w == FinishWrites(wf, DocumentStage(wf, gas, download, parse), now)
  {
    var failure, documentResult, ws, ceiling := Proceed(store, key, wf, gas, download, parse, prior);
    w := ws;
    if failure.Some? {
      ClimbLower(prior + w, ceiling, 90);
      return Failure(failure.value), w;
    }
    ghost var fs;
    r, fs := Close(store, key, wf, documentResult, now, prior + w, ceiling);
    LogAppend(old(store.log), key, w, fs);
    Regroup(prior, w, fs);
    w := w + fs;
  }

  /** The `try` block of `processWorkflow`: what it returns, or the error its `catch` receives. */
  method Stages(store: JobStore, key: string, input: Value, env: Env, provider: Provider,
                gas: Reply, download: Reply, parse: Parser, now: int)
    returns (r: Result<FinalResult, JsError>, ghost w: seq<Record>)
    requires store.Valid()
    modifies store
    ensures store.Valid() && store.initial == old(store.initial)
    ensures store.log == old(store.log) + Tagged(key, w)
    ensures r.Failure? ==> Climbing(w, 90)
    ensures r.Success? ==>
      && r == Outcome(input, env, provider, gas, download, parse, now)
      && Lifecycle(w) && w != [] && w[|w| - 1] == Done(r.value, now)
    ensures Healthy(old(store.faults)) ==> Healthy(store.faults)
    ensures Healthy(old(store.faults)) ==>
      r == Outcome(input, env, provider, gas, download, parse, now) &&
      (r.Success? ==> w == Writes(input, env, provider, gas, download, parse, now)) &&
      (r.Failure? ==> w == [Started(0, now)])
  {
    var workflow;
    workflow, w := Launch(store, key, input, env, provider, parse, now);
    assert Climbing(w, 0);
    if workflow.Failure? {
      ClimbLower(w, 0, 90);
      return Failure(workflow.error), w;
    }
    var wf := workflow.value;
    WritesOf(input, env, provider, gas, download, parse, now, wf);
    ghost var ws;
    r, ws := Rest(store, key, wf, gas, download, parse, now, w);
    LogAppend(old(store.log), key, w, ws);
    w := w + ws;
  }

  lemma WritesOf(input: Value, env: Env, provider: Provider, gas: Reply, download: Reply, parse: Parser, now: int,
                 wf: WorkflowResult)
    requires Execution(input, env, provider, parse, now) == Success(wf)
    ensures Outcome(input, env, provider, gas, download, parse, now) == Success(WithDocument(wf, DocumentStage(wf, gas, download, parse)))
    ensures Writes(input, env, provider, gas, download, parse, now) ==
      [Started(0, now)] + FinishWrites(wf, DocumentStage(wf, gas, download, parse), now)
  {
  }

  /** Writes the `failed` record after the stages stopped, on the store `initKV` hands out again. */
  method Recover(m: KvModule, vercelKv: Option<JobStore>, ghost store: JobStore, key: string, error: JsError, now: int,
                 ghost prior: seq<Record>)
    returns (ghost w: seq<Record>)
    requires m.Valid() && m.initialized && m.kv == store && store.Valid() && Climbing(prior, 90)
    modifies m, store
    ensures m.Valid() && m.initialized && m.kv == store && store.Valid()
    ensures store.log == old(store.log) + Tagged(key, w)
    ensures Lifecycle(prior + w)
    ensures w == [] || w == [Fail(FailedPrefix, error.message, now)]
    ensures Healthy(old(store.faults)) ==> w == [Fail(FailedPrefix, error.message, now)]
  {
    var again := m.InitKV(vercelKv);
    var last := Fail(FailedPrefix, error.message, now);
    w := Attempt(again, key, last);
    if w != [] {
      ClimbEnd(prior, 90, last);
    } else {
      assert prior + w == prior;
    }
  }

  /** With a healthy store, a run whose workflow failed writes the start and the `failed` record. */
  lemma FailedWrites(input: Value, env: Env, provider: Provider, gas: Reply, download: Reply, parse: Parser, now: int,
                     e: JsError)
    requires Outcome(input, env, provider, gas, download, parse, now) == Failure(e)
    ensures Writes(input, env, provider, gas, download, parse, now) == [Started(0, now), Fail(FailedPrefix, e.message, now)]
  {
  }

  /**
   * `processWorkflow(jobId, input)`: obtains the store through `initKV`, runs
   * the stages, and on an error obtains the store again (the same one), tries
   * the `failed` write and rethrows the error. With the in-memory fallback,
   * which accepts every write, the result and the writes are exactly
   * `Outcome` and `Writes`.
   */
  method ProcessWorkflow(m: KvModule, vercelKv: Option<JobStore>, jobId: string, input: Value, env: Env,
                         provider: Provider, gas: Reply, download: Reply, parse: Parser, now: int)
    returns (r: Result<FinalResult, JsError>, ghost w: seq<Record>)
    requires m.Valid() && (m.initialized ==> m.kv.Valid())
    requires vercelKv.Some? ==> vercelKv.value.Valid()
    modifies m, m.kv, if vercelKv.Some? then {vercelKv.value} else {}
    ensures m.Valid() && m.initialized && m.kv.Valid()
    ensures old(m.initialized) ==> m.kv == old(m.kv) && m.kv.log == old(m.kv.log) + Tagged(JobKey(jobId), w)
    ensures !old(m.initialized) && vercelKv.Some? ==>
      m.kv == vercelKv.value && m.kv.log == old(vercelKv.value.log) + Tagged(JobKey(jobId), w)
    ensures !old(m.initialized) && vercelKv.None? ==> fresh(m.kv) && m.kv.log == Tagged(JobKey(jobId), w)
    ensures Lifecycle(w)
    ensures r.Success? ==>
      r == Outcome(input, env, provider, gas, download, parse, now) && w != [] && w[|w| - 1] == Done(r.value, now)
    ensures r.Failure? ==> w == [] || w[|w| - 1].status != Completed
    ensures !old(m.initialized) && vercelKv.None? ==>
      r == Outcome(input, env, provider, gas, download, parse, now) &&
      w == Writes(input, env, provider, gas, download, parse, now)
  {
    var key := JobKey(jobId);
    var store := m.InitKV(vercelKv);
    r, w := RunJob(m, vercelKv, store, key, input, env, provider, gas, download, parse, now);
  }

  /**
   * The body of `processWorkflow` once `initKV` has produced `store`: the
   * stages, then on an error the `failed` write through a second `initKV`.
   */
  method RunJob(m: KvModule, vercelKv: Option<JobStore>, store: JobStore, key: string, input: Value, env: Env,
                provider: Provider, gas: Reply, download: Reply, parse: Parser, now: int)
    returns (r: Result<FinalResult, JsError>, ghost w: seq<Record>)
    requires m.Valid() && m.initialized && m.kv == store && store.Valid()
    modifies m, store
    ensures m.Valid() && m.initialized && m.kv == store && store.Valid()
    ensures store.log == old(store.log) + Tagged(key, w)
    ensures Lifecycle(w)
    ensures r.Success? ==>
      r == Outcome(input, env, provider, gas, download, parse, now) && w != [] && w[|w| - 1] == Done(r.value, now)
    ensures r.Failure? ==> w == [] || w[|w| - 1].status != Completed
    ensures Healthy(old(store.faults)) ==>
      r == Outcome(input, env, provider, gas, download, parse, now) &&
      w == Writes(input, env, provider, gas, download, parse, now)
  {
    ghost var before := store.log;
    ghost var healthy := Healthy(store.faults);
    r, w := Stages(store, key, input, env, provider, gas, download, parse, now);
    if r.Failure? {
      ghost var ws := Recover(m, vercelKv, store, key, r.error, now, w);
      LogAppend(before, key, w, ws);
      ghost var writes := Writes(input, env, provider, gas, download, parse, now);
      if healthy {
        FailedWrites(input, env, provider, gas, download, parse, now, r.error);
      }
      FailedRun(r.error, w, ws, healthy, writes, now);
      w := w + ws;
    }
  }

  /**
   * The writes of a run whose stages failed, followed by the `failed` write
   * when it lands: they stay a lifecycle that does not end `completed`, and
   * with a healthy store they are the expected `writes`.
   */
  lemma FailedRun(e: JsError, w: seq<Record>, ws: seq<Record>, healthy: bool, writes: seq<Record>, now: int)
    requires Climbing(w, 90) && Lifecycle(w + ws)
    requires ws == [] || ws == [Fail(FailedPrefix, e.message, now)]
    requires healthy ==> w == [Started(0, now)] && ws == [Fail(FailedPrefix, e.message, now)]
    requires healthy ==> writes == [Started(0, now), Fail(FailedPrefix, e.message, now)]
    ensures w + ws == [] || (w + ws)[|w + ws| - 1].status != Completed
    ensures healthy ==> w + ws == writes
  {
    if ws == [] {
      assert w + ws == w;
      assert w != [] ==> w[|w| - 1].status == Processing;
    } else {
      assert (w + ws)[|w + ws| - 1] == ws[0];
    }
  }

  /** The answer of `handler`, which runs `executeWorkflow` alone. */
  function HandlerAnswer(req: Request, env: Env, provider: Provider, parse: Parser, now: int): (res: Response)
    ensures req.verb == "OPTIONS" ==> res == End(200)
    ensures req.verb != "OPTIONS" && req.verb != "POST" ==> res == MethodNotAllowed("POST")
    ensures req.verb == "POST" && Readable(req.body) ==>
      var outcome := Execution(Get(req.body, "input"), env, provider, parse, now);
      && (outcome.Success? ==> res == Json(200, WorkflowValue(outcome.value)))
      && (outcome.Failure? ==> res.Json? && res.code == 500 && Get(res.body, "message") == Str(outcome.error.message))
    ensures req.verb == "POST" && !Readable(req.body) ==> res.Json? && res.code == 500
  {
    if req.verb == "OPTIONS" then End(200)
    else if req.verb != "POST" then MethodNotAllowed("POST")
    else match Destructure(req.body, "req.body", "input")
      case Failure(e) => Json(500, ErrorBody("Internal server error", e.message))
      case Success(body) =>
        match Execution(Get(body, "input"), env, provider, parse, now)
        case Failure(e) => Json(500, ErrorBody("Internal server error", e.message))
        case Success(wf) => Json(200, WorkflowValue(wf))
  }

  /** `handler` */
  method Handler(req: Request, env: Env, provider: Provider, parse: Parser, now: int) returns (res: Response)
    ensures res == HandlerAnswer(req, env, provider, parse, now)
  {
    if req.verb == "OPTIONS" {
      return End(200);
    }
    if req.verb != "POST" {
      return MethodNotAllowed("POST");
    }
    var body := Destructure(req.body, "req.body", "input");
    if body.Failure? {
      return Json(500, ErrorBody("Internal server error", body.error.message));
    }
    var result := ExecuteWorkflow(Get(body.value, "input"), env, provider, parse, now);
    if result.Failure? {
      return Json(500, ErrorBody("Internal server error", result.error.message));
    }
    res := Json(200, WorkflowValue(result.value));
  }
}
