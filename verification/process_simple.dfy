/**
 * api/process-simple.js: the same handler and task runner as
 * api/background-processor.js, over the `Map` in `global.taskStorage` instead
 * of the KV store. That map accepts every write, so the run always reaches a
 * terminal record and the key ends up holding it.
 */
module ProcessSimple {
  import opened JsValue
  import opened Job
  import opened Web
  import opened Store
  import opened Stream
  import opened Documents
  import opened BackgroundProcessor

  /**
   * `handler`: answers as the background processor does, then runs the job
   * against the global store (creating it on first use). Afterwards the job's
   * key holds the run's terminal record and no other key has changed. The
   * map accepts every write, so the run writes exactly `RunWrites`.
   */
  method Handler(g: Globals, req: Request, env: Env, provider: Provider,
                 gas: Reply, download: Reply, parse: Parser, now: int)
    returns (res: Result<Response, JsError>, ghost w: seq<Record>)
    requires g.Valid()
    modifies g, g.taskStorage
    ensures g.Valid()
    ensures res == BackgroundProcessor.Answer(req)
    ensures !Starts(req) ==> w == [] && g.taskStorage == old(g.taskStorage)
    ensures Starts(req) ==> g.taskStorage != null && Lifecycle(w) && |w| >= 2 && w[0] == Started(10, now)
    ensures Starts(req) ==>
      var key := JobKey(TemplateText(Get(req.body, "jobId")));
      var before := if old(g.taskStorage) == null then map[] else old(g.taskStorage.entries);
      g.taskStorage.entries == before[key := Object(w[|w| - 1])]
    ensures Starts(req) ==> w == RunWrites(Get(req.body, "input"), env, provider, gas, download, parse, now)
    ensures Starts(req) && Workflow(Get(req.body, "input"), env, provider, parse, now).Failure? ==>
      w[|w| - 1] == Fail(FailedPrefix, Workflow(Get(req.body, "input"), env, provider, parse, now).error.message, now)
    ensures Starts(req) && Workflow(Get(req.body, "input"), env, provider, parse, now).Success? ==>
      var wf := Workflow(Get(req.body, "input"), env, provider, parse, now).value;
      w[|w| - 1] == Done(WithDocument(wf, DocumentStage(wf, gas, download, parse)), now)
  {
    res := BackgroundProcessor.Answer(req);
    w := [];
    if Starts(req) {
      w := StartTask(g, TemplateText(Get(req.body, "jobId")), Get(req.body, "input"), env, provider, gas, download, parse, now);
    }
  }

  /**
   * What `handler` does after answering: it takes the global map (creating it
   * on first use) and runs `processLongRunningTask` on it.
   */
  method StartTask(g: Globals, jobId: string, input: Value, env: Env, provider: Provider,
                   gas: Reply, download: Reply, parse: Parser, now: int)
    returns (ghost w: seq<Record>)
    requires g.Valid()
    modifies g, g.taskStorage
    ensures g.Valid() && g.taskStorage != null
    ensures w == RunWrites(input, env, provider, gas, download, parse, now)
    ensures Lifecycle(w) && |w| >= 2 && w[0] == Started(10, now)
    ensures var before := if old(g.taskStorage) == null then map[] else old(g.taskStorage.entries);
      g.taskStorage.entries == before[JobKey(jobId) := Object(w[|w| - 1])]
    ensures Workflow(input, env, provider, parse, now).Failure? ==>
      w[|w| - 1] == Fail(FailedPrefix, Workflow(input, env, provider, parse, now).error.message, now)
    ensures Workflow(input, env, provider, parse, now).Success? ==>
      var wf := Workflow(input, env, provider, parse, now).value;
      w[|w| - 1] == Done(WithDocument(wf, DocumentStage(wf, gas, download, parse)), now)
  {
    var store := g.TaskStorage();
    w := RunTask(store, jobId, input, env, provider, gas, download, parse, now);
    RunWritesLifecycle(input, env, provider, gas, download, parse, now);
    RunWritesLast(input, env, provider, gas, download, parse, now);
  }

  /**
   * `processLongRunningTask` on the global map: it writes exactly `RunWrites`,
   * and afterwards the job's key holds the last of them.
   */
  method RunTask(store: JobStore, jobId: string, input: Value, env: Env, provider: Provider,
                 gas: Reply, download: Reply, parse: Parser, now: int)
    returns (ghost w: seq<Record>)
    requires store.Valid() && Healthy(store.faults)
    modifies store
    ensures store.Valid() && Healthy(store.faults)
    ensures w == RunWrites(input, env, provider, gas, download, parse, now)
    ensures store.entries == old(store.entries)[JobKey(jobId) := Object(w[|w| - 1])]
  {
    ghost var before := store.log;
    w := ProcessLongRunningTask(store, jobId, input, env, provider, gas, download, parse, now);
    ReplayLastWins(store.initial, before, JobKey(jobId), w);
  }
}
