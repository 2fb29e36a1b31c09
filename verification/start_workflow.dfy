/**
 * api/start-workflow.js: creates a job in Upstash Redis, storing the `pending`
 * record as JSON text rather than as an object, fires the background processor
 * without waiting for it, and answers 202.
 */
module StartWorkflow {
  import opened JsValue
  import opened Job
  import opened Web
  import opened Store

  /** `JSON.stringify(record)`: a record always has a text form. */
  function Serialised(r: Record): (s: Stored)
    ensures s.Text? && Present(s)
    ensures Some(s.text) == JsonText(RecordValue(r))
  {
    var text := JsonText(RecordValue(r));
    Text(text.value)
  }

  /** `handler` over the module-level `redis` client; `now` and `suffix` make the job's id. */
  method Handler(redis: JobStore, req: Request, now: nat, suffix: string)
    returns (res: Response, trigger: Option<Trigger>)
    requires redis.Valid()
    modifies redis
    ensures redis.Valid()
    ensures !Admitted(req) ==>
      res == StartAnswer(req, JobId(now, suffix), "/api/check-status") && trigger.None? &&
      redis.log == old(redis.log) && redis.faults == old(redis.faults)
    ensures Admitted(req) ==>
      var jobId := JobId(now, suffix);
      && (NextFault(old(redis.faults)).Some? ==>
            res == ServerError(StartFailed, NextFault(old(redis.faults)).value) && trigger.None? && redis.log == old(redis.log))
      && (NextFault(old(redis.faults)).None? ==>
            && res == StartAnswer(req, jobId, "/api/check-status")
            && trigger == Some(Kickoff(req.origin, "/api/background-processor", jobId, AdmittedInput(req)))
            && redis.log == old(redis.log) + [(JobKey(jobId), Serialised(Created(jobId, AdmittedInput(req), now)))])
  {
    res := StartAnswer(req, JobId(now, suffix), "/api/check-status");
    trigger := None;
    if !Admitted(req) {
      return;
    }
    var input := AdmittedInput(req);
    var jobId := JobId(now, suffix);
    var written := redis.Set(JobKey(jobId), Serialised(Created(jobId, input, now)));
    if written.Failure? {
      return ServerError(StartFailed, written.error), None;
    }
    trigger := Some(Kickoff(req.origin, "/api/background-processor", jobId, input));
  }
}
