/**
 * api/background-processor.js: the handler acknowledges a job at once and
 * then runs it, writing a whole new record under `job:<id>` at every stage:
 * `processing` at 10, one write per stream chunk (25 up to 50), 60 with the
 * workflow result, 70 and 80 inside the document stage, 90 when a document
 * was made, and finally `completed` at 100, or `failed` at 0 on any error,
 * including one the stream throws after some of its chunks.
 */
module BackgroundProcessor {
  import opened JsValue
  import opened Job
  import opened Web
  import opened Store
  import opened Stream
  import opened Documents


  /** `input.trim()` on anything but a string throws a TypeError. */
  function TrimError(input: Value): JsError {
    if Readable(input) then JsError("TypeError", "input.trim is not a function") else ReadError(input, "trim")
  }

  /** The chunks the `for await` loop reads: none unless the answer is a stream. */
  function ReadChunks(provider: Provider): (cs: seq<Chunk>)
    ensures provider.Streamed? ==> cs == provider.chunks[..Consumed(provider.chunks)]
    ensures !provider.Streamed? ==> cs == []
  {
    if provider.Streamed? then provider.chunks[..Consumed(provider.chunks)] else []
  }

  /** The chunks `executeCozeWorkflow` reads: none when it throws before calling the service. */
  function ChunksRead(input: Value, env: Env, provider: Provider): (cs: seq<Chunk>)
    ensures env.apiKey != "" && env.workflowId != "" && input.Str? ==> cs == ReadChunks(provider)
    ensures env.apiKey == "" || env.workflowId == "" || !input.Str? || !provider.Streamed? ==> cs == []
  {
    if env.apiKey != "" && env.workflowId != "" && input.Str? then ReadChunks(provider) else []
  }

  /** The loop's variables once the answer has been read: a plain answer leaves them as they started. */
  function Folded(provider: Provider, parse: Parser): Extracted {
    if provider.Streamed? then Extract(provider.chunks, parse) else Start
  }

  /**
   * What `executeCozeWorkflow` returns when no store write fails: the
   * configuration is checked first, then the input is trimmed, then the
   * service is called and its stream folded.
   */
  function Workflow(input: Value, env: Env, provider: Provider, parse: Parser, now: int): (r: Result<WorkflowResult, JsError>)
    ensures env.apiKey == "" || env.workflowId == "" ==> r == Failure(Raise(ConfigMissing))
    ensures r.Success? <==> env.apiKey != "" && env.workflowId != "" && input.Str? && !provider.Rejected? && Broken(provider).None?
    ensures env.apiKey != "" && env.workflowId != "" && !input.Str? ==> r == Failure(TrimError(input))
    ensures env.apiKey != "" && env.workflowId != "" && input.Str? && Broken(provider).Some? ==> r == Failure(Broken(provider).value)
    ensures r.Success? ==> r.value.infoJson.workflowId == env.workflowId && r.value.infoJson.apiMethod == "stream"
    ensures r.Success? ==> r.value.infoJson.extractedInfojson == Folded(provider, parse).infojson
    ensures r.Success? ==> r.value.infoJson.inputLength == Utf16Length(input.s)
  {
    if env.apiKey == "" || env.workflowId == "" then Failure(Raise(ConfigMissing))
    else if !input.Str? then Failure(TrimError(input))
    else if provider.Rejected? then Failure(provider.error)
    else if Broken(provider).Some? then Failure(Broken(provider).value)
    else Success(StreamResult(Folded(provider, parse), env.workflowId, input.s, now))
  }

  /** The progress writes of the stream loop: one per chunk read, in order. */
  predicate StreamWrites(w: seq<Record>, cs: seq<Chunk>) {
    |w| <= |cs| && forall i :: 0 <= i < |w| ==> w[i] == Step(StreamProgress(i + 1), ChunkMessage(cs[i]))
  }

  /** The progress writes of the stream loop when every one of them lands: one per chunk read, in order. */
  function StreamSteps(cs: seq<Chunk>): (w: seq<Record>)
    ensures |w| == |cs| && StreamWrites(w, cs)
  {
    seq(|cs|, i requires 0 <= i < |cs| => Step(StreamProgress(i + 1), ChunkMessage(cs[i])))
  }

  /** Whatever stream writes have landed are the first ones of `StreamSteps`. */
  lemma StreamWritesPrefix(w: seq<Record>, cs: seq<Chunk>)
    requires StreamWrites(w, cs)
    ensures w <= StreamSteps(cs)
  {
    assert w == StreamSteps(cs)[..|w|];
  }

  /** The write for the next chunk read extends the stream writes. */
  lemma StreamWritesExtend(w: seq<Record>, cs: seq<Chunk>)
    requires StreamWrites(w, cs) && |w| < |cs|
    ensures StreamWrites(w + [Step(StreamProgress(|w| + 1), ChunkMessage(cs[|w|]))], cs)
  {
  }

  /** Stream progress writes keep a run climbing: each is at least 25 and none is below the one before. */
  lemma {:induction false} StreamWritesClimb(before: seq<Record>, ceiling: int, w: seq<Record>, cs: seq<Chunk>)
    requires Climbing(before, ceiling) && ceiling <= 25 && StreamWrites(w, cs)
    ensures Climbing(before + w, if w == [] then ceiling else StreamProgress(|w|))
  {
    if w == [] {
      assert before + w == before;
    } else {
      var front := w[..|w| - 1];
      var last := w[|w| - 1];
      assert StreamWrites(front, cs);
      StreamWritesClimb(before, ceiling, front, cs);
      var c := if front == [] then ceiling else StreamProgress(|front|);
      assert last == Step(StreamProgress(|w|), ChunkMessage(cs[|w| - 1]));
      ClimbStep(before + front, c, last);
      assert before + front + [last] == before + w;
    }
  }

  /** The progress values a run of this runner writes after its first write. */
  predicate RunnerProgress(r: Record) {
    r.progress.Some? &&
    var p := r.progress.value;
    (25 <= p <= 50) || p == 60 || p == 70 || p == 80 || p == 90 || p == 100
  }

  predicate Terminal(r: Record) {
    r.status == Completed || r.status == Failed
  }

  /** Every write of `w` shows one of the runner's progress values. */
  predicate RunnerSteps(w: seq<Record>) {
    forall i :: 0 <= i < |w| ==> RunnerProgress(w[i])
  }

  lemma RunnerStepsAppend(a: seq<Record>, b: seq<Record>)
    requires RunnerSteps(a) && RunnerSteps(b)
    ensures RunnerSteps(a + b)
  {
  }

  /** A run that opened with the 10 write and goes on with runner steps still opens with it. */
  lemma StartThenSteps(w: seq<Record>, ws: seq<Record>, now: int)
    requires w != [] ==> w[0] == Started(10, now) && RunnerSteps(w[1..])
    requires RunnerSteps(ws) && (w == [] ==> ws == [])
    ensures w + ws != [] ==> (w + ws)[0] == Started(10, now) && RunnerSteps((w + ws)[1..])
  {
    if w != [] {
      assert (w + ws)[1..] == w[1..] + ws;
      RunnerStepsAppend(w[1..], ws);
    }
  }

  /** Every stream progress write lies between 25 and 50. */
  lemma StreamWritesRunner(w: seq<Record>, cs: seq<Chunk>)
    requires StreamWrites(w, cs)
    ensures RunnerSteps(w)
  {
    forall i | 0 <= i < |w|
      ensures RunnerProgress(w[i])
    {
      assert w[i].progress.value == StreamProgress(i + 1);
    }
  }

  /** One write of a run under way: `base` is the log before the run and `w` what the run wrote so far. */
  method Push(store: JobStore, key: string, record: Record,
              ghost base: seq<(string, Stored)>, ghost w: seq<Record>, ghost faults: seq<Option<JsError>>, ghost i: nat)
    returns (failure: Option<JsError>)
    requires store.Valid() && store.log == base + Tagged(key, w) && store.faults == Drop(faults, i)
    modifies store
    ensures store.Valid() && store.initial == old(store.initial)
    ensures store.faults == Drop(faults, i + 1) && failure == FaultAt(faults, i)
    ensures failure.None? ==> store.log == base + Tagged(key, w + [record])
    ensures failure.Some? ==> store.log == old(store.log)
  {
    DropStep(faults, i);
    var written := store.Set(key, Object(record));
    if written.Failure? {
      return Some(written.error);
    }
    TaggedAppend(key, w, [record]);
    TaggedSingle(key, record);
    failure := None;
  }

  /**
   * The `for await` loop of `executeCozeWorkflow`: before absorbing a chunk it
   * writes a progress record for it, and a write that throws ends the loop
   * (and the call) with that error.
   */
  method StreamLoop(store: JobStore, key: string, cs: seq<Chunk>, parse: Parser)
    returns (st: Extracted, failure: Option<JsError>, ghost w: seq<Record>)
    requires store.Valid()
    modifies store
    ensures store.Valid() && store.initial == old(store.initial)
    ensures store.log == old(store.log) + Tagged(key, w)
    ensures StreamWrites(w, cs) && |w| <= Consumed(cs)
    ensures failure.None? ==> |w| == Consumed(cs) && st == Extract(cs, parse)
    ensures failure.Some? ==> |w| < Consumed(cs) && FaultAt(old(store.faults), |w|) == failure
    ensures store.faults == Drop(old(store.faults), if failure.Some? then |w| + 1 else |w|)
  {
    ghost var n := Consumed(cs);
    ghost var faults := store.faults;
    ghost var base := store.log;
    DropStep(faults, 0);
    st := Start;
    failure := None;
    w := [];
    var progress := 20;
    var i := 0;
    while i < |cs|
      invariant 0 <= i <= |cs| && n == i + Consumed(cs[i..])
      invariant st == Fold(Start, cs[..i], parse)
      invariant progress == StreamProgress(i)
      invariant |w| == i && StreamWrites(w, cs)
      invariant store.Valid() && store.initial == old(store.initial)
      invariant store.log == base + Tagged(key, w)
      invariant store.faults == Drop(faults, i) && failure.None?
    {
      BumpStep(i);
      progress := Bump(progress);
      var record := Step(progress, ChunkMessage(cs[i]));
      failure := Push(store, key, record, base, w, faults, i);
      if failure.Some? {
        assert cs[i..] != [];
        return;
      }
      StreamWritesExtend(w, cs);
      w := w + [record];
      FoldPrefix(cs, i, parse);
      ConsumedFrom(cs, i);
      st := Absorb(st, cs[i], parse);
      if IsDone(cs[i]) {
        i := i + 1;
        break;
      }
      i := i + 1;
    }
  }

  /**
   * The stream part of `executeCozeWorkflow`: the loop over the chunks of a
   * streamed answer, none for a plain one. Without a failed write it has
   * written exactly `StreamSteps` and folded the whole stream, and it then
   * fails only with the stream's own error.
   */
  method FoldStream(store: JobStore, key: string, provider: Provider, parse: Parser)
    returns (st: Extracted, failure: Option<JsError>, ghost w: seq<Record>)
    requires store.Valid()
    modifies store
    ensures store.Valid() && store.initial == old(store.initial)
    ensures store.log == old(store.log) + Tagged(key, w)
    ensures StreamWrites(w, ReadChunks(provider)) && w <= StreamSteps(ReadChunks(provider))
    ensures failure.None? ==> st == Folded(provider, parse) && w == StreamSteps(ReadChunks(provider)) && Broken(provider).None?
    ensures failure.Some? ==>
      || FaultAt(old(store.faults), |w|) == failure
      || (failure == Broken(provider) && w == StreamSteps(ReadChunks(provider)))
    ensures Healthy(old(store.faults)) ==>
      failure == Broken(provider) && w == StreamSteps(ReadChunks(provider)) && Healthy(store.faults)
  {
    st, failure, w := Start, None, [];
    if provider.Streamed? {
      st, failure, w := StreamLoop(store, key, provider.chunks, parse);
      StreamWritesPrefix(w, ReadChunks(provider));
      if failure.None? {
        failure := Broken(provider);
      }
    }
  }

  /**
   * `executeCozeWorkflow`: checks the configuration, trims the input, calls the
   * service and folds the stream it answers with. Its result is `Workflow(...)`
   * unless a progress write throws.
   */
  method ExecuteCozeWorkflow(store: JobStore, key: string, input: Value, env: Env, provider: Provider, parse: Parser, now: int)
    returns (r: Result<WorkflowResult, JsError>, ghost w: seq<Record>)
    requires store.Valid()
    modifies store
    ensures store.Valid() && store.initial == old(store.initial)
    ensures store.log == old(store.log) + Tagged(key, w)
    ensures StreamWrites(w, ChunksRead(input, env, provider)) && w <= StreamSteps(ChunksRead(input, env, provider))
    ensures var expected := Workflow(input, env, provider, parse, now);
      && (expected.Failure? && Broken(provider).None? ==> r == expected && w == [])
      && (r.Success? ==> r == expected && w == StreamSteps(ChunksRead(input, env, provider)))
      && (r.Failure? ==>
            || (r == expected && w == StreamSteps(ChunksRead(input, env, provider)))
            || FaultAt(old(store.faults), |w|) == Some(r.error))
    ensures Healthy(old(store.faults)) ==>
      && r == Workflow(input, env, provider, parse, now)
      && w == StreamSteps(ChunksRead(input, env, provider)) && Healthy(store.faults)
  {
    w := [];
    if env.apiKey == "" || env.workflowId == "" {
      return Failure(Raise(ConfigMissing)), w;
    }
    if !input.Str? {
      return Failure(TrimError(input)), w;
    }
    if provider.Rejected? {
      return Failure(provider.error), w;
    }
    var st, failure;
    st, failure, w := FoldStream(store, key, provider, parse);
    if failure.Some? {
      return Failure(failure.value), w;
    }
    r := Success(StreamResult(st, env.workflowId, input.s, now));
  }

  /** Whether the document stage runs: `workflowResult.infoJson && workflowResult.infoJson.extracted_infojson`. */
  predicate WantsDocument(wf: WorkflowResult) {
    Truthy(wf.infoJson.extractedInfojson)
  }

  /** The `documentResult` of a run whose store accepts every write: `null` unless the stage runs and succeeds. */
  function DocumentStage(wf: WorkflowResult, gas: Reply, download: Reply, parse: Parser): (d: Option<DocumentResult>)
    ensures d.Some? <==> WantsDocument(wf) && Generate(gas, download, parse).Success?
  {
    if WantsDocument(wf) && Generate(gas, download, parse).Success? then Some(Generate(gas, download, parse).value) else None
  }

  /**
   * The writes of `generateDocument` when both land: 70, then 80 once the
   * script service has named a document.
   */
  function GenerateWrites(gas: Reply, parse: Parser): (w: seq<Record>)
    ensures w == [Step(70, CallingScript)] || w == [Step(70, CallingScript), Step(80, MakingLink)]
  {
    if ScriptReply(gas, parse).Success? && DocIdOf(ScriptReply(gas, parse).value).Success?
    then [Step(70, CallingScript), Step(80, MakingLink)]
    else [Step(70, CallingScript)]
  }

  /**
   * The writes of the document block when every write lands: none unless the
   * workflow extracted an infojson, else those of `generateDocument` and the 90
   * write once a document was made.
   */
  function DocumentWrites(wf: WorkflowResult, gas: Reply, download: Reply, parse: Parser): (w: seq<Record>)
    ensures w != [] <==> WantsDocument(wf)
    ensures |w| == 3 <==> DocumentStage(wf, gas, download, parse).Some?
    ensures |w| == 3 ==> w[2] == Step(90, DocumentDone)
  {
    if !WantsDocument(wf) then []
    else GenerateWrites(gas, parse) + (if Generate(gas, download, parse).Success? then [Step(90, DocumentDone)] else [])
  }

  /**
   * `generateDocument`: writes 70, calls the script service, writes 80 once it
   * has a document id, then calls the download service. Its result is
   * `Generate(...)` unless one of its two writes throws.
   */
  method GenerateDocument(store: JobStore, key: string, gas: Reply, download: Reply, parse: Parser)
    returns (r: Result<DocumentResult, JsError>, ghost w: seq<Record>)
    requires store.Valid()
    modifies store
    ensures store.Valid() && store.initial == old(store.initial)
    ensures store.log == old(store.log) + Tagged(key, w)
    ensures w == [] || w == [Step(70, CallingScript)] || w == [Step(70, CallingScript), Step(80, MakingLink)]
    ensures r.Success? ==> r == Generate(gas, download, parse) && |w| == 2
    ensures Healthy(old(store.faults)) ==> r == Generate(gas, download, parse) && Healthy(store.faults)
    ensures Generate(gas, download, parse).Failure? ==> r.Failure?
    ensures w <= GenerateWrites(gas, parse)
    ensures Healthy(old(store.faults)) ==> w == GenerateWrites(gas, parse)
  {
    w := [];
    var first := store.Set(key, Object(Step(70, CallingScript)));
    if first.Failure? {
      return Failure(first.error), w;
    }
    w := [Step(70, CallingScript)];
    var gasData :- ScriptReply(gas, parse);
    var docId :- DocIdOf(gasData);
    var second := store.Set(key, Object(Step(80, MakingLink)));
    if second.Failure? {
      return Failure(second.error), w;
    }
    TaggedAppend(key, w, [Step(80, MakingLink)]);
    w := w + [Step(80, MakingLink)];
    var downloadData :- DownloadReply(download, parse);
    r := DocumentOf(docId, downloadData);
  }

  /** The 70 and 80 writes of `generateDocument` keep a run climbing. */
  lemma DocumentStepsClimb(prior: seq<Record>, ds: seq<Record>)
    requires Climbing(prior, 60)
    requires ds == [] || ds == [Step(70, CallingScript)] || ds == [Step(70, CallingScript), Step(80, MakingLink)]
    ensures Climbing(prior + ds, if ds == [] then 60 else ds[|ds| - 1].progress.value)
    ensures RunnerSteps(ds)
  {
    if ds == [] {
      assert prior + ds == prior;
    } else {
      ClimbStep(prior, 60, ds[0]);
      if |ds| == 2 {
        ClimbStep(prior + [ds[0]], 70, ds[1]);
        assert prior + [ds[0]] + [ds[1]] == prior + ds;
      } else {
        assert prior + [ds[0]] == prior + ds;
      }
    }
  }

  /**
   * The `if (workflowResult.infoJson && ...)` block of `processLongRunningTask`:
   * `generateDocument` and the 90 write inside a `try` whose `catch` only logs,
   * so a failure there leaves `documentResult` as far as it got. Whatever lands
   * is a prefix of `DocumentWrites`.
   */
  method DocumentPhase(store: JobStore, key: string, wf: WorkflowResult, gas: Reply, download: Reply, parse: Parser)
    returns (documentResult: Option<DocumentResult>, ghost w: seq<Record>)
    requires store.Valid()
    modifies store
    ensures store.Valid() && store.initial == old(store.initial)
    ensures store.log == old(store.log) + Tagged(key, w)
    ensures w <= DocumentWrites(wf, gas, download, parse)
    ensures documentResult.Some? ==> WantsDocument(wf) && Generate(gas, download, parse) == Success(documentResult.value)
    ensures Healthy(old(store.faults)) ==>
      && documentResult == DocumentStage(wf, gas, download, parse)
      && w == DocumentWrites(wf, gas, download, parse) && Healthy(store.faults)
  {
    documentResult := None;
    w := [];
    if !WantsDocument(wf) {
      return;
    }
    var doc, ds := GenerateDocument(store, key, gas, download, parse);
    w := ds;
    if doc.Success? {
      documentResult := Some(doc.value);
      var finishing := store.Set(key, Object(Step(90, DocumentDone)));
      if finishing.Success? {
        TaggedSingle(key, Step(90, DocumentDone));
        LogAppend(old(store.log), key, w, [Step(90, DocumentDone)]);
        w := w + [Step(90, DocumentDone)];
      }
    }
  }

  /** The 60 write with the workflow's result and the document block's writes, when every write lands. */
  function MiddleWrites(wf: WorkflowResult, gas: Reply, download: Reply, parse: Parser): (w: seq<Record>)
    ensures 1 <= |w| <= 4 && w[0] == AfterWorkflow(60, wf)
  {
    [AfterWorkflow(60, wf)] + DocumentWrites(wf, gas, download, parse)
  }

  /** The document block's writes after the 60 write keep a run climbing, to at most 90, with runner steps only. */
  lemma DocumentWritesClimb(prior: seq<Record>, wf: WorkflowResult, gas: Reply, download: Reply, parse: Parser)
    requires Climbing(prior, 60)
    ensures Climbing(prior + DocumentWrites(wf, gas, download, parse), 90)
    ensures RunnerSteps(DocumentWrites(wf, gas, download, parse))
  {
    var gs := if WantsDocument(wf) then GenerateWrites(gas, parse) else [];
    DocumentStepsClimb(prior, gs);
    var c := if gs == [] then 60 else gs[|gs| - 1].progress.value;
    var ds := DocumentWrites(wf, gas, download, parse);
    var done := Step(90, DocumentDone);
    if |ds| == 3 {
      assert ds == gs + [done];
      ClimbStep(prior + gs, c, done);
      assert RunnerSteps([done]);
      RunnerStepsAppend(gs, [done]);
      assert prior + ds == prior + gs + [done];
    } else {
      assert ds == gs;
      ClimbLower(prior + gs, c, 90);
    }
  }

  /**
   * Whatever prefix of the middle writes lands, a run that had climbed to at
   * most 50 is still climbing, to at most 90, and wrote only runner steps.
   */
  lemma MiddleClimb(prior: seq<Record>, wf: WorkflowResult, gas: Reply, download: Reply, parse: Parser, w: seq<Record>)
    requires Climbing(prior, 50) && w <= MiddleWrites(wf, gas, download, parse)
    ensures Climbing(prior + w, 90) && RunnerSteps(w)
  {
    var m := MiddleWrites(wf, gas, download, parse);
    var after := [AfterWorkflow(60, wf)];
    var ds := DocumentWrites(wf, gas, download, parse);
    ClimbStep(prior, 50, after[0]);
    DocumentWritesClimb(prior + after, wf, gas, download, parse);
    assert RunnerSteps(after);
    RunnerStepsAppend(after, ds);
    assert prior + m == prior + after + ds;
    ClimbPrefix(prior + m, |prior| + |w|, 90);
    assert (prior + m)[..|prior| + |w|] == prior + w;
  }

  /**
   * The writes after a successful workflow when every write lands: the middle
   * writes, then `completed` at 100 with the workflow's and the document's results.
   */
  function CompletionWrites(wf: WorkflowResult, gas: Reply, download: Reply, parse: Parser, now: int): (w: seq<Record>)
    ensures 2 <= |w| <= 5 && w[0] == AfterWorkflow(60, wf)
    ensures w[|w| - 1] == Done(WithDocument(wf, DocumentStage(wf, gas, download, parse)), now)
  {
    MiddleWrites(wf, gas, download, parse) + [Done(WithDocument(wf, DocumentStage(wf, gas, download, parse)), now)]
  }

  /** The completion writes keep a run that has climbed to at most 50 a lifecycle. */
  lemma CompletionLifecycle(prior: seq<Record>, wf: WorkflowResult, gas: Reply, download: Reply, parse: Parser, now: int)
    requires Climbing(prior, 50)
    ensures Lifecycle(prior + CompletionWrites(wf, gas, download, parse, now))
  {
    var m := MiddleWrites(wf, gas, download, parse);
    MiddleClimb(prior, wf, gas, download, parse, m);
    var last := Done(WithDocument(wf, DocumentStage(wf, gas, download, parse)), now);
    ClimbEnd(prior + m, 90, last);
    assert prior + m + [last] == prior + CompletionWrites(wf, gas, download, parse, now);
  }

  /**
   * The 60 write and the document phase. `Some(e)` is the error of the 60 write
   * when it threw; whatever lands is a prefix of `MiddleWrites`.
   */
  method Proceed(store: JobStore, key: string, wf: WorkflowResult, gas: Reply, download: Reply, parse: Parser)
    returns (failure: Option<JsError>, documentResult: Option<DocumentResult>, ghost w: seq<Record>)
    requires store.Valid()
    modifies store
    ensures store.Valid() && store.initial == old(store.initial)
    ensures store.log == old(store.log) + Tagged(key, w)
    ensures w <= MiddleWrites(wf, gas, download, parse) && (failure.None? <==> w != [])
    ensures documentResult.Some? ==> WantsDocument(wf) && Generate(gas, download, parse) == Success(documentResult.value)
    ensures Healthy(old(store.faults)) ==>
      && failure.None? && documentResult == DocumentStage(wf, gas, download, parse)
      && w == MiddleWrites(wf, gas, download, parse) && Healthy(store.faults)
  {
    w := [];
    documentResult := None;
    var after := store.Set(key, Object(AfterWorkflow(60, wf)));
    if after.Failure? {
      return Some(after.error), documentResult, w;
    }
    TaggedSingle(key, AfterWorkflow(60, wf));
    ghost var ds;
    documentResult, ds := DocumentPhase(store, key, wf, gas, download, parse);
    LogAppend(old(store.log), key, [AfterWorkflow(60, wf)], ds);
    w := [AfterWorkflow(60, wf)] + ds;
    failure := None;
  }

  /**
   * A `completed` record as this runner writes it: it carries the workflow's
   * result, and a document only when one was asked for and the services made it.
   */
  predicate ReportsOutcome(r: Record, wf: WorkflowResult, gas: Reply, download: Reply, parse: Parser) {
    && r.status == Completed
    && r.result.Some? && r.result.value.WithDocument? && r.result.value.workflow == wf
    && (r.result.value.documentResult.Some? ==>
          WantsDocument(wf) && Generate(gas, download, parse) == Success(r.result.value.documentResult.value))
  }

  /**
   * What follows a successful `executeCozeWorkflow`: the 60 write, the document
   * phase and the `completed` record. `Some(e)` is the error of a write that threw.
   */
  method FinishRun(store: JobStore, key: string, wf: WorkflowResult, gas: Reply, download: Reply, parse: Parser, now: int,
                   ghost prior: seq<Record>)
    returns (failure: Option<JsError>, ghost w: seq<Record>)
    requires store.Valid() && Climbing(prior, 50)
    modifies store
    ensures store.Valid() && store.initial == old(store.initial)
    ensures store.log == old(store.log) + Tagged(key, w)
    ensures RunnerSteps(w)
    ensures failure.Some? ==> Climbing(prior + w, 90)
    ensures failure.None? ==> Lifecycle(prior + w) && w != [] && ReportsOutcome(w[|w| - 1], wf, gas, download, parse)
    ensures Healthy(old(store.faults)) ==>
      failure.None? && w == CompletionWrites(wf, gas, download, parse, now) && Healthy(store.faults)
  {
    var documentResult;
    failure, documentResult, w := Proceed(store, key, wf, gas, download, parse);
    MiddleClimb(prior, wf, gas, download, parse, w);
    if failure.Some? {
      return;
    }
    var last := Done(WithDocument(wf, documentResult), now);
    ghost var fs;
    failure, fs := CompleteWrite(store, key, last, prior + w, 90);
    LogAppend(old(store.log), key, w, fs);
    if failure.Some? {
      assert w + fs == w;
      return;
    }
    DoneStep(prior, w, wf, documentResult, gas, download, parse, now);
    w := w + [last];
  }

  /** The `completed` record closes the run's lifecycle and reports the workflow and the document made. */
  lemma DoneStep(prior: seq<Record>, w: seq<Record>, wf: WorkflowResult, documentResult: Option<DocumentResult>,
                 gas: Reply, download: Reply, parse: Parser, now: int)
    requires RunnerSteps(w)
    requires Lifecycle(prior + w + [Done(WithDocument(wf, documentResult), now)])
    requires documentResult.Some? ==> WantsDocument(wf) && Generate(gas, download, parse) == Success(documentResult.value)
    ensures var ws := w + [Done(WithDocument(wf, documentResult), now)];
      RunnerSteps(ws) && Lifecycle(prior + ws) && ReportsOutcome(ws[|ws| - 1], wf, gas, download, parse)
  {
    var last := Done(WithDocument(wf, documentResult), now);
    assert RunnerSteps([last]);
    RunnerStepsAppend(w, [last]);
    assert prior + w + [last] == prior + (w + [last]);
  }

  /** The 10 write and `executeCozeWorkflow`, the first part of the `try` block of `processLongRunningTask`. */
  method Launch(store: JobStore, key: string, input: Value, env: Env, provider: Provider, parse: Parser, now: int)
    returns (r: Result<WorkflowResult, JsError>, ghost w: seq<Record>)
    requires store.Valid()
    modifies store
    ensures store.Valid() && store.initial == old(store.initial)
    ensures store.log == old(store.log) + Tagged(key, w)
    ensures Climbing(w, 50)
    ensures w != [] ==> w[0] == Started(10, now) && RunnerSteps(w[1..])
    ensures r.Success? ==> r == Workflow(input, env, provider, parse, now) && w != []
    ensures Healthy(old(store.faults)) ==> w != [] && r == Workflow(input, env, provider, parse, now) && Healthy(store.faults)
    ensures Healthy(old(store.faults)) ==> w == [Started(10, now)] + StreamSteps(ChunksRead(input, env, provider))
  {
    w := [];
    var started := store.Set(key, Object(Started(10, now)));
    if started.Failure? {
      return Failure(started.error), w;
    }
    w := [Started(10, now)];
    TaggedSingle(key, Started(10, now));
    ghost var ws;
    r, ws := ExecuteCozeWorkflow(store, key, input, env, provider, parse, now);
    LogAppend(old(store.log), key, w, ws);
    StartedStream(now, ws, ChunksRead(input, env, provider));
    w := w + ws;
  }

  /** The 10 write followed by stream progress climbs to at most 50, and what follows the 10 are runner steps. */
  lemma StartedStream(now: int, ws: seq<Record>, cs: seq<Chunk>)
    requires StreamWrites(ws, cs)
    ensures var w := [Started(10, now)] + ws; Climbing(w, 50) && w[0] == Started(10, now) && RunnerSteps(w[1..])
  {
    var w := [Started(10, now)];
    assert Climbing(w, 10);
    StreamWritesClimb(w, 10, ws, cs);
    StreamWritesRunner(ws, cs);
    assert (w + ws)[1..] == ws;
    ClimbLower(w + ws, if ws == [] then 10 else StreamProgress(|ws|), 50);
  }

  /** What follows `Launch` in the `try` block: `FinishRun` when the workflow succeeded. */
  method Continue(store: JobStore, key: string, workflow: Result<WorkflowResult, JsError>,
                  gas: Reply, download: Reply, parse: Parser, now: int, ghost prior: seq<Record>)
    returns (failure: Option<JsError>, ghost ws: seq<Record>)
    requires store.Valid() && Climbing(prior, 50)
    modifies store
    ensures store.Valid() && store.initial == old(store.initial)
    ensures store.log == old(store.log) + Tagged(key, ws)
    ensures RunnerSteps(ws)
    ensures workflow.Failure? ==> ws == [] && failure == Some(workflow.error)
    ensures failure.Some? ==> Climbing(prior + ws, 90)
    ensures failure.None? ==>
      && workflow.Success? && Lifecycle(prior + ws) && ws != []
      && ReportsOutcome(ws[|ws| - 1], workflow.value, gas, download, parse)
    ensures Healthy(old(store.faults)) ==> Healthy(store.faults)
    ensures Healthy(old(store.faults)) && workflow.Success? ==>
      failure.None? && ws == CompletionWrites(workflow.value, gas, download, parse, now)
  {
    if workflow.Failure? {
      ws := [];
      assert prior + ws == prior;
      ClimbLower(prior, 50, 90);
      return Some(workflow.error), ws;
    }
    failure, ws := FinishRun(store, key, workflow.value, gas, download, parse, now, prior);
  }

  /**
   * The `try` block of `processLongRunningTask`: `Launch` and then `FinishRun`.
   * `Some(e)` is the error its `catch` receives.
   */
  method RunStages(store: JobStore, key: string, input: Value, env: Env, provider: Provider,
                   gas: Reply, download: Reply, parse: Parser, now: int)
    returns (failure: Option<JsError>, ghost w: seq<Record>)
    requires store.Valid()
    modifies store
    ensures store.Valid() && store.initial == old(store.initial)
    ensures store.log == old(store.log) + Tagged(key, w)
    ensures w != [] ==> w[0] == Started(10, now) && RunnerSteps(w[1..])
    ensures failure.Some? ==> Climbing(w, 90)
    ensures failure.None? ==>
      && Lifecycle(w) && w != [] && Workflow(input, env, provider, parse, now).Success?
      && ReportsOutcome(w[|w| - 1], Workflow(input, env, provider, parse, now).value, gas, download, parse)
    ensures Healthy(old(store.faults)) ==> w != [] && Healthy(store.faults)
    ensures Healthy(old(store.faults)) && Workflow(input, env, provider, parse, now).Failure? ==>
      && w == [Started(10, now)] + StreamSteps(ChunksRead(input, env, provider))
      && failure == Some(Workflow(input, env, provider, parse, now).error)
    ensures Healthy(old(store.faults)) && Workflow(input, env, provider, parse, now).Success? ==>
      && failure.None?
      && w == [Started(10, now)] + StreamSteps(ChunksRead(input, env, provider))
                                 + CompletionWrites(Workflow(input, env, provider, parse, now).value, gas, download, parse, now)
  {
    var workflow;
    workflow, w := Launch(store, key, input, env, provider, parse, now);
    ghost var ws;
    failure, ws := Continue(store, key, workflow, gas, download, parse, now, w);
    LogAppend(old(store.log), key, w, ws);
    StagesOutcome(w, ws, workflow, failure, Healthy(old(store.faults)), input, env, provider, gas, download, parse, now);
    w := w + ws;
  }

  /**
   * The writes of `Launch` followed by those of `Continue` make up the `try`
   * block's writes. `healthy` says that the store accepted every write.
   */
  lemma StagesOutcome(w: seq<Record>, ws: seq<Record>, workflow: Result<WorkflowResult, JsError>,
                      failure: Option<JsError>, healthy: bool,
                      input: Value, env: Env, provider: Provider, gas: Reply, download: Reply, parse: Parser, now: int)
    requires w != [] ==> w[0] == Started(10, now) && RunnerSteps(w[1..])
    requires workflow.Success? ==> workflow == Workflow(input, env, provider, parse, now) && w != []
    requires healthy ==> w != [] && workflow == Workflow(input, env, provider, parse, now)
    requires healthy ==> w == [Started(10, now)] + StreamSteps(ChunksRead(input, env, provider))
    requires RunnerSteps(ws)
    requires workflow.Failure? ==> ws == [] && failure == Some(workflow.error)
    requires failure.Some? ==> Climbing(w + ws, 90)
    requires failure.None? ==>
      && workflow.Success? && Lifecycle(w + ws) && ws != []
      && ReportsOutcome(ws[|ws| - 1], workflow.value, gas, download, parse)
    requires healthy && workflow.Success? ==> failure.None? && ws == CompletionWrites(workflow.value, gas, download, parse, now)
    ensures var all := w + ws;
      && (all != [] ==> all[0] == Started(10, now) && RunnerSteps(all[1..]))
      && (failure.Some? ==> Climbing(all, 90))
      && (failure.None? ==>
            && Lifecycle(all) && all != [] && Workflow(input, env, provider, parse, now).Success?
            && ReportsOutcome(all[|all| - 1], Workflow(input, env, provider, parse, now).value, gas, download, parse))
      && (healthy ==> all != [])
      && (healthy && Workflow(input, env, provider, parse, now).Failure? ==>
            && all == [Started(10, now)] + StreamSteps(ChunksRead(input, env, provider))
            && failure == Some(Workflow(input, env, provider, parse, now).error))
      && (healthy && Workflow(input, env, provider, parse, now).Success? ==>
            && failure.None?
            && all == [Started(10, now)] + StreamSteps(ChunksRead(input, env, provider))
                                         + CompletionWrites(Workflow(input, env, provider, parse, now).value, gas, download, parse, now))
  {
    StartThenSteps(w, ws, now);
    if failure.None? {
      assert (w + ws)[|w + ws| - 1] == ws[|ws| - 1];
    }
    if workflow.Failure? {
      assert w + ws == w;
    }
  }

  /** The `catch` of `processLongRunningTask`: the `failed` write, whose own failure is only logged. */
  method RecordFailure(store: JobStore, key: string, failure: Option<JsError>, now: int, ghost prior: seq<Record>)
    returns (ghost ws: seq<Record>)
    requires store.Valid()
    requires failure.Some? ==> Climbing(prior, 90)
    requires failure.None? ==> Lifecycle(prior)
    modifies store
    ensures store.Valid() && store.initial == old(store.initial)
    ensures store.log == old(store.log) + Tagged(key, ws)
    ensures Lifecycle(prior + ws)
    ensures failure.None? ==> ws == []
    ensures failure.Some? ==> ws == [] || ws == [Fail(FailedPrefix, failure.value.message, now)]
    ensures Healthy(old(store.faults)) ==> Healthy(store.faults)
    ensures Healthy(old(store.faults)) && failure.Some? ==> ws == [Fail(FailedPrefix, failure.value.message, now)]
  {
    ws := [];
    assert prior + ws == prior;
    if failure.None? {
      return;
    }
    var last := Fail(FailedPrefix, failure.value.message, now);
    var failed := store.Set(key, Object(last));
    if failed.Success? {
      ClimbEnd(prior, 90, last);
      TaggedSingle(key, last);
      ws := [last];
    }
  }

  /**
   * The writes of a whole run when every write lands: 10; one write per stream
   * chunk read; then, if the workflow fails, `failed` with its message,
   * otherwise the completion writes.
   */
  function RunWrites(input: Value, env: Env, provider: Provider, gas: Reply, download: Reply, parse: Parser, now: int)
    : (w: seq<Record>)
    ensures |w| >= 2 && w[0] == Started(10, now)
  {
    [Started(10, now)] + StreamSteps(ChunksRead(input, env, provider)) +
      match Workflow(input, env, provider, parse, now)
      case Failure(e) => [Fail(FailedPrefix, e.message, now)]
      case Success(wf) => CompletionWrites(wf, gas, download, parse, now)
  }

  /**
   * The writes of a whole run form a lifecycle: progress never goes down
   * before the terminal record, and only the last record is terminal.
   */
  lemma RunWritesLifecycle(input: Value, env: Env, provider: Provider, gas: Reply, download: Reply, parse: Parser, now: int)
    ensures Lifecycle(RunWrites(input, env, provider, gas, download, parse, now))
  {
    var start := [Started(10, now)];
    assert Climbing(start, 10);
    var cs := ChunksRead(input, env, provider);
    var ss := StreamSteps(cs);
    StreamWritesClimb(start, 10, ss, cs);
    ClimbLower(start + ss, if ss == [] then 10 else StreamProgress(|ss|), 50);
    match Workflow(input, env, provider, parse, now)
    case Failure(e) =>
      ClimbEnd(start + ss, 50, Fail(FailedPrefix, e.message, now));
    case Success(wf) =>
      CompletionLifecycle(start + ss, wf, gas, download, parse, now);
  }

  /**
   * A stream that throws after its chunks, none of them `Done`: every chunk
   * gets its progress write, and the `failed` record carrying the stream's
   * error follows them.
   */
  lemma BrokenStreamRun(input: Value, env: Env, chunks: seq<Chunk>, e: JsError,
                        gas: Reply, download: Reply, parse: Parser, now: int)
    requires env.apiKey != "" && env.workflowId != "" && input.Str? && !HasDone(chunks)
    ensures var w := RunWrites(input, env, Streamed(chunks, Some(e)), gas, download, parse, now);
      && w == [Started(10, now)] + StreamSteps(chunks) + [Fail(FailedPrefix, e.message, now)]
      && |w| == |chunks| + 2
  {
    var provider := Streamed(chunks, Some(e));
    assert Broken(provider) == Some(e);
    assert ReadChunks(provider) == chunks[..|chunks|] == chunks;
  }

  /** A run ends with the `failed` record of a workflow error, or with the `completed` record of its result. */
  lemma RunWritesLast(input: Value, env: Env, provider: Provider, gas: Reply, download: Reply, parse: Parser, now: int)
    ensures var w := RunWrites(input, env, provider, gas, download, parse, now);
      var workflow := Workflow(input, env, provider, parse, now);
      && (workflow.Failure? ==> w[|w| - 1] == Fail(FailedPrefix, workflow.error.message, now))
      && (workflow.Success? ==>
            w[|w| - 1] == Done(WithDocument(workflow.value, DocumentStage(workflow.value, gas, download, parse)), now))
  {
    var workflow := Workflow(input, env, provider, parse, now);
    var head := [Started(10, now)] + StreamSteps(ChunksRead(input, env, provider));
    if workflow.Success? {
      var tail := CompletionWrites(workflow.value, gas, download, parse, now);
      assert (head + tail)[|head + tail| - 1] == tail[|tail| - 1];
    }
  }

  /** After the opening write, every write of a run is a runner step or the `failed` write. */
  lemma RunnerOrFailed(w: seq<Record>, ws: seq<Record>, now: int)
    requires w != [] ==> w[0] == Started(10, now) && RunnerSteps(w[1..])
    requires forall i :: 0 <= i < |ws| ==> ws[i].status == Failed
    ensures forall i :: 0 < i < |w + ws| ==> (w + ws)[i].status == Failed || RunnerProgress((w + ws)[i])
  {
    forall i | 0 < i < |w + ws|
      ensures (w + ws)[i].status == Failed || RunnerProgress((w + ws)[i])
    {
      if i < |w| {
        assert (w + ws)[i] == w[1..][i - 1];
      }
    }
  }

  /**
   * The `catch` completes the `try` block's writes `w` with `ws`: the `failed`
   * write if the block threw and that write landed. `healthy` says that the
   * store accepted every write.
   */
  lemma CatchOutcome(w: seq<Record>, ws: seq<Record>, failure: Option<JsError>, healthy: bool,
                     input: Value, env: Env, provider: Provider, gas: Reply, download: Reply, parse: Parser, now: int)
    requires w != [] ==> w[0] == Started(10, now) && RunnerSteps(w[1..])
    requires failure.Some? ==> Climbing(w, 90)
    requires failure.None? ==>
      && Lifecycle(w) && w != [] && Workflow(input, env, provider, parse, now).Success?
      && ReportsOutcome(w[|w| - 1], Workflow(input, env, provider, parse, now).value, gas, download, parse)
    requires failure.None? ==> ws == []
    requires failure.Some? ==> ws == [] || ws == [Fail(FailedPrefix, failure.value.message, now)]
    requires healthy && Workflow(input, env, provider, parse, now).Failure? ==>
      && w == [Started(10, now)] + StreamSteps(ChunksRead(input, env, provider))
      && failure == Some(Workflow(input, env, provider, parse, now).error)
    requires healthy && Workflow(input, env, provider, parse, now).Success? ==>
      && failure.None?
      && w == [Started(10, now)] + StreamSteps(ChunksRead(input, env, provider))
                                 + CompletionWrites(Workflow(input, env, provider, parse, now).value, gas, download, parse, now)
    requires healthy && failure.Some? ==> ws == [Fail(FailedPrefix, failure.value.message, now)]
    ensures forall i :: 0 < i < |w + ws| ==> (w + ws)[i].status == Failed || RunnerProgress((w + ws)[i])
    ensures healthy ==> w + ws == RunWrites(input, env, provider, gas, download, parse, now)
    ensures w + ws != [] && (w + ws)[|w + ws| - 1].status == Completed ==>
      && Workflow(input, env, provider, parse, now).Success?
      && ReportsOutcome((w + ws)[|w + ws| - 1], Workflow(input, env, provider, parse, now).value, gas, download, parse)
  {
    RunnerOrFailed(w, ws, now);
    if failure.None? {
      assert w + ws == w;
    } else if ws != [] {
      assert (w + ws)[|w + ws| - 1] == Fail(FailedPrefix, failure.value.message, now);
    } else {
      assert w + ws == w;
      assert w != [] ==> w[|w| - 1].status == Processing;
    }
  }

  /**
   * `processLongRunningTask`: the whole run. Every write replaces the record,
   * so none of them carries the creation fields; the writes form a lifecycle;
   * with a store that accepts every write the run starts at 10 and ends in a
   * terminal record that reports the workflow and document outcomes. The
   * `failed` write's own failure is only logged.
   */
  method ProcessLongRunningTask(store: JobStore, jobId: string, input: Value, env: Env, provider: Provider,
                                gas: Reply, download: Reply, parse: Parser, now: int)
    returns (ghost w: seq<Record>)
    requires store.Valid()
    modifies store
    ensures store.Valid() && store.initial == old(store.initial)
    ensures store.log == old(store.log) + Tagged(JobKey(jobId), w)
    ensures Lifecycle(w)
    ensures forall i :: 0 < i < |w| ==> w[i].status == Failed || RunnerProgress(w[i])
    ensures Healthy(old(store.faults)) ==>
      w == RunWrites(input, env, provider, gas, download, parse, now) && Healthy(store.faults)
    ensures w != [] && w[|w| - 1].status == Completed ==>
      && Workflow(input, env, provider, parse, now).Success?
      && ReportsOutcome(w[|w| - 1], Workflow(input, env, provider, parse, now).value, gas, download, parse)
  {
    var key := JobKey(jobId);
    var failure;
    failure, w := RunStages(store, key, input, env, provider, gas, download, parse, now);
    ghost var ws := RecordFailure(store, key, failure, now, w);
    LogAppend(old(store.log), key, w, ws);
    CatchOutcome(w, ws, failure, Healthy(old(store.faults)), input, env, provider, gas, download, parse, now);
    w := w + ws;
  }

  /** The answer to a request the handler accepts. */
  function Acknowledged(jobId: Value): (r: Response)
    ensures r.Json? && r.code == 200 && Get(r.body, "jobId") == jobId
  {
    Json(200, Obj(map["success" := Bool(true), "message" := Str("后台处理已启动"), "jobId" := jobId]))
  }

  /** The answer to a request without a truthy `jobId` and `input`. */
  const MissingParameters := BadRequest("Invalid input", "缺少必要参数")

  /** The handler's answer; a body that cannot be destructured makes the handler itself reject. */
  function Answer(req: Request): (r: Result<Response, JsError>)
    ensures req.verb == "OPTIONS" ==> r == Success(End(200))
    ensures req.verb != "OPTIONS" && req.verb != "POST" ==> r == Success(MethodNotAllowed("POST"))
    ensures req.verb == "POST" && Readable(req.body) ==>
      r == Success(if Truthy(Get(req.body, "jobId")) && Truthy(Get(req.body, "input"))
                   then Acknowledged(Get(req.body, "jobId")) else MissingParameters)
    ensures req.verb == "POST" && !Readable(req.body) ==> r.Failure?
  {
    if req.verb == "OPTIONS" then Success(End(200))
    else if req.verb != "POST" then Success(MethodNotAllowed("POST"))
    else
      var body :- Destructure(req.body, "req.body", "jobId");
      var jobId := Get(body, "jobId");
      if !Truthy(jobId) || !Truthy(Get(body, "input")) then Success(MissingParameters)
      else Success(Acknowledged(jobId))
  }

  /** Whether the handler goes on to run the job after answering. */
  predicate Starts(req: Request) {
    req.verb == "POST" && Readable(req.body) && Truthy(Get(req.body, "jobId")) && Truthy(Get(req.body, "input"))
  }

  /**
   * `handler`: answers first, then (only for an acknowledged job) obtains the
   * store through `initKV` and runs the job, whose failures are only logged.
   * The answer never depends on how the run goes.
   */
  method Handler(m: KvModule, vercelKv: Option<JobStore>, req: Request, env: Env, provider: Provider,
                 gas: Reply, download: Reply, parse: Parser, now: int)
    returns (res: Result<Response, JsError>, ghost w: seq<Record>)
    requires m.Valid() && (m.initialized ==> m.kv.Valid())
    requires vercelKv.Some? ==> vercelKv.value.Valid()
    modifies m, m.kv, if vercelKv.Some? then {vercelKv.value} else {}
    ensures res == Answer(req)
    ensures m.Valid() && (m.initialized ==> m.kv.Valid())
    ensures !Starts(req) ==> w == [] && m.initialized == old(m.initialized) && m.kv == old(m.kv)
    ensures Starts(req) ==> m.initialized && Lifecycle(w)
    ensures Starts(req) ==>
      |m.kv.log| >= |w| && m.kv.log[|m.kv.log| - |w|..] == Tagged(JobKey(TemplateText(Get(req.body, "jobId"))), w)
  {
    res := Answer(req);
    w := [];
    if !Starts(req) {
      return;
    }
    var jobId := Get(req.body, "jobId");
    var store := m.InitKV(vercelKv);
    ghost var before := store.log;
    w := ProcessLongRunningTask(store, TemplateText(jobId), Get(req.body, "input"), env, provider, gas, download, parse, now);
    assert store.log[|store.log| - |w|..] == Tagged(JobKey(TemplateText(jobId)), w);
  }
}
