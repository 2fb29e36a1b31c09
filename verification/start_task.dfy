/**
 * api/start-task.js: creates a job. The store is the Vercel KV client when
 * `@vercel/kv` loads, and otherwise a `Map` made for this one request; the
 * `pending` record is written there, the background processor is triggered
 * after the answer, and the answer is 202 with the job's id.
 */
module StartTask {
  import opened JsValue
  import opened Job
  import opened Web
  import opened Store

  /**
   * `handler`. `now` and `suffix` stand for `Date.now()` and the random part of
   * the id. Without Vercel KV the record goes into a store made here and
   * dropped at the end: the frame names no other store, so nothing any other
   * request can read is changed.
   */
  method Handler(vercelKv: Option<JobStore>, req: Request, now: nat, suffix: string)
    returns (res: Response, trigger: Option<Trigger>)
    requires vercelKv.Some? ==> vercelKv.value.Valid()
    modifies if vercelKv.Some? then {vercelKv.value} else {}
    ensures vercelKv.Some? ==> vercelKv.value.Valid()
    ensures !Admitted(req) ==>
      res == StartAnswer(req, JobId(now, suffix), "/api/check-status") && trigger.None? &&
      (vercelKv.Some? ==> vercelKv.value.log == old(vercelKv.value.log))
    ensures Admitted(req) ==>
      var jobId := JobId(now, suffix);
      var fault := if vercelKv.Some? then NextFault(old(vercelKv.value.faults)) else None;
      && (fault.Some? ==>
            res == ServerError(StartFailed, fault.value) && trigger.None? && vercelKv.value.log == old(vercelKv.value.log))
      && (fault.None? ==>
            && res == StartAnswer(req, jobId, "/api/check-status")
            && trigger == Some(Kickoff(req.origin, "/api/background-processor", jobId, AdmittedInput(req)))
            && (vercelKv.Some? ==>
                  vercelKv.value.log ==
                    old(vercelKv.value.log) + [(JobKey(jobId), Object(Created(jobId, AdmittedInput(req), now)))]))
  {
    res := StartAnswer(req, JobId(now, suffix), "/api/check-status");
    trigger := None;
    if !Admitted(req) {
      return;
    }
    var input := AdmittedInput(req);
    var jobId := JobId(now, suffix);
    var store: JobStore;
    if vercelKv.Some? {
      store := vercelKv.value;
    } else {
      store := new JobStore.Memory();
    }
    var written := store.Set(JobKey(jobId), Object(Created(jobId, input, now)));
    if written.Failure? {
      return ServerError(StartFailed, written.error), None;
    }
    trigger := Some(Kickoff(req.origin, "/api/background-processor", jobId, input));
  }
}
