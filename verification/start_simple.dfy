/**
 * api/start-simple.js: creates a job in `global.taskStorage`, answers 202 and
 * then triggers api/process-simple.js; when that trigger fails, the record is
 * overwritten with a `failed` one.
 */
module StartSimple {
  import opened JsValue
  import opened Job
  import opened Web
  import opened Store

  /** The records the handler leaves under the job's key: the `pending` one, then `failed` if the trigger fails. */
  function StartWrites(jobId: string, input: string, now: int, triggerFailure: Option<JsError>, failedAt: int)
    : (w: seq<Record>)
    ensures |w| >= 1 && w[0] == Created(jobId, input, now)
    ensures triggerFailure.None? <==> |w| == 1
    ensures triggerFailure.Some? ==>
      |w| == 2 && w[1].status == Failed && w[1].error == Some(triggerFailure.value.message) && Overwrite(w[1])
  {
    var failed := TriggerFailed(triggerFailure, failedAt);
    [Created(jobId, input, now)] + (if failed.Some? then [failed.value] else [])
  }

  /** The `failed` record the trigger's `catch` writes, if the trigger fails. */
  function TriggerFailed(triggerFailure: Option<JsError>, failedAt: int): Option<Record> {
    if triggerFailure.Some? then Some(Fail(LaunchFailedPrefix, triggerFailure.value.message, failedAt)) else None
  }

  /** One `set` into a `Map`, which always succeeds. */
  method Write(store: JobStore, key: string, r: Record)
    requires store.Valid() && Healthy(store.faults)
    modifies store
    ensures store.Valid() && Healthy(store.faults)
    ensures store.log == old(store.log) + Tagged(key, [r])
    ensures store.entries == old(store.entries)[key := Object(r)]
  {
    var _ := store.Set(key, Object(r));
    TaggedSingle(key, r);
  }

  /** The `pending` write and, when there is one, the later `failed` write, into a `Map`. */
  method Enqueue(store: JobStore, key: string, w: seq<Record>)
    requires store.Valid() && Healthy(store.faults) && 1 <= |w| <= 2
    modifies store
    ensures store.Valid() && Healthy(store.faults)
    ensures store.log == old(store.log) + Tagged(key, w)
    ensures store.entries == old(store.entries)[key := Object(w[|w| - 1])]
  {
    Write(store, key, w[0]);
    if |w| == 2 {
      Write(store, key, w[1]);
      TaggedAppend(key, [w[0]], [w[1]]);
      assert w == [w[0]] + [w[1]];
    } else {
      assert w == [w[0]];
    }
  }

  /** `global.taskStorage = global.taskStorage || new Map()` and the job's writes into it. */
  method Keep(g: Globals, key: string, w: seq<Record>)
    requires g.Valid() && 1 <= |w| <= 2
    modifies g, g.taskStorage
    ensures g.Valid() && g.taskStorage != null
    ensures old(g.taskStorage) != null ==> g.taskStorage == old(g.taskStorage)
    ensures old(g.taskStorage) == null ==> fresh(g.taskStorage)
    ensures g.taskStorage.log == (if old(g.taskStorage) != null then old(g.taskStorage.log) else []) + Tagged(key, w)
    ensures g.taskStorage.entries ==
      (if old(g.taskStorage) != null then old(g.taskStorage.entries) else map[])[key := Object(w[|w| - 1])]
  {
    var store := g.TaskStorage();
    Enqueue(store, key, w);
  }

  /**
   * `handler`. `now` and `suffix` stand for `Date.now()` and the random part of
   * the id; `triggerFailure` is how the `fetch` of api/process-simple.js ends and
   * `failedAt` the time its `catch` runs. The answer is made before the trigger's
   * outcome is known and does not depend on it.
   */
  method Handler(g: Globals, req: Request, now: nat, suffix: string, triggerFailure: Option<JsError>, failedAt: int)
    returns (res: Response, trigger: Option<Trigger>)
    requires g.Valid()
    modifies g, g.taskStorage
    ensures g.Valid()
    ensures res == StartAnswer(req, JobId(now, suffix), "/api/status-simple")
    ensures !Admitted(req) ==>
      trigger.None? && g.taskStorage == old(g.taskStorage) &&
      (g.taskStorage != null ==> g.taskStorage.log == old(g.taskStorage.log))
    ensures Admitted(req) ==>
      var jobId := JobId(now, suffix);
      var w := StartWrites(jobId, AdmittedInput(req), now, triggerFailure, failedAt);
      && trigger == Some(Kickoff(req.origin, "/api/process-simple", jobId, AdmittedInput(req)))
      && g.taskStorage != null
      && (old(g.taskStorage) != null ==> g.taskStorage == old(g.taskStorage))
      && (old(g.taskStorage) == null ==> fresh(g.taskStorage))
      && g.taskStorage.log == (if old(g.taskStorage) != null then old(g.taskStorage.log) else []) + Tagged(JobKey(jobId), w)
      && g.taskStorage.entries ==
           (if old(g.taskStorage) != null then old(g.taskStorage.entries) else map[])[JobKey(jobId) := Object(w[|w| - 1])]
  {
    res := StartAnswer(req, JobId(now, suffix), "/api/status-simple");
    trigger := None;
    if !Admitted(req) {
      return;
    }
    var input := AdmittedInput(req);
    var jobId := JobId(now, suffix);
    trigger := Some(Kickoff(req.origin, "/api/process-simple", jobId, input));
    Keep(g, JobKey(jobId), StartWrites(jobId, input, now, triggerFailure, failedAt));
  }
}
