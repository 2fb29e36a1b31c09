/**
 * public/script.js: the browser side. It refuses a blank wish before any
 * request, reads the workflow service's event stream line by line when the
 * direct mode is on, translates job statuses for display, and polls the
 * status route at most `MaxStatusChecks` times per job.
 */
module Client {
  import opened JsValue
  import opened Web
  import opened Job

  /** `userInput.value.trim()`, or nothing when that is empty and the form shows an error instead of sending. */
  function Submitted(raw: string): (r: Option<string>)
    ensures r.None? <==> Blank(raw)
    ensures r.Some? ==> r.value == Trim(raw) && r.value != ""
  {
    TrimSpec(raw);
    var t := Trim(raw);
    if t == "" then None else Some(t)
  }

  /** The `/api/start-workflow` request the page sends for an input. */
  function StartRequest(input: string, origin: Value): Request {
    Request("POST", Obj(map["input" := Str(input)]), Obj(map[]), origin)
  }

  /**
   * The page's check and the server's agree: the page sends exactly the
   * inputs a job-starting handler admits, and the handler reads back the
   * same text the page sent.
   */
  lemma ClientAgreesWithServer(raw: string, origin: Value)
    ensures Submitted(raw).None? <==> !Admitted(StartRequest(raw, origin))
    ensures Submitted(raw).Some? ==>
      var req := StartRequest(Submitted(raw).value, origin);
      Admitted(req) && AdmittedInput(req) == Submitted(raw).value
  {
    SentInput(raw, origin);
    if Submitted(raw).Some? {
      var t := Submitted(raw).value;
      TrimIdempotent(raw);
      SentInput(t, origin);
    }
  }

  /** The handler's input check on what the page sends. */
  lemma SentInput(input: string, origin: Value)
    ensures StartInput(StartRequest(input, origin).body) ==
      (if Trim(input) == "" then Success(None) else Success(Some(Trim(input))))
  {
    var body := Obj(map["input" := Str(input)]);
    assert Readable(body) && Get(body, "input") == Str(input);
  }

  // ---------------------------------------------------------------------
  // The event-stream reader of `callDirectCozeAPI`

  /** `chunk.split('\n')` */
  function Lines(s: string): (ls: seq<string>)
    ensures |ls| >= 1
    ensures forall k :: 0 <= k < |ls| ==> '\n' !in ls[k]
    ensures Joined(ls) == s
    decreases |s|
  {
    if s == "" then [""]
    else
      var rest := Lines(s[1..]);
      if s[0] == '\n' then
        assert ([""] + rest)[1..] == rest;
        [""] + rest
      else
        JoinedHead([s[0]], rest);
        rest[0 := [s[0]] + rest[0]]
  }

  /** `lines.join('\n')` */
  function Joined(ls: seq<string>): string
    requires |ls| >= 1
    decreases |ls|
  {
    if |ls| == 1 then ls[0] else ls[0] + "\n" + Joined(ls[1..])
  }

  lemma JoinedHead(x: string, ls: seq<string>)
    requires |ls| >= 1
    ensures Joined(ls[0 := x + ls[0]]) == x + Joined(ls)
  {
    var a := ls[0 := x + ls[0]];
    if |ls| > 1 {
      assert a[1..] == ls[1..];
    }
  }

  predicate StartsWith(line: string, prefix: string) {
    |prefix| <= |line| && line[..|prefix|] == prefix
  }

  /** What the reader has kept so far: the last `Message` content and the `infojson` and `outData` taken from it. */
  datatype Found = Found(messageData: Value, infojson: Value, outData: Value)

  /** `messageData = null`, `infojson = null`, `outData = ''` */
  const Nothing := Found(Null, Null, Str(""))

  /** The reader's state within a chunk: `currentEvent` and what it has kept. */
  datatype Scan = Scan(event: string, found: Found)

  /**
   * The content object a line hands over, if any: a `data: ` line whose
   * payload is neither empty nor `[DONE]` and parses, under a `Message`
   * event, whose `content` is truthy and parses to a value whose fields can
   * be read. Every other line is passed over; a parse failure or a read of
   * `null` throws inside a `try` whose `catch` only logs.
   */
  function Delivered(event: string, line: string, parse: Parser): (c: Option<Value>)
    ensures c.Some? ==> StartsWith(line, "data: ") && event == "Message" && Readable(c.value)
    ensures StartsWith(line, "data: ") && (line[6..] == "" || line[6..] == "[DONE]") ==> c.None?
  {
    if !StartsWith(line, "data: ") then None
    else
      var payload := line[6..];
      if payload == "" || payload == "[DONE]" then None
      else match Parse(parse, payload)
        case Failure(_) => None
        case Success(eventData) =>
          if event != "Message" || !Readable(eventData) || !Truthy(Get(eventData, "content")) then None
          else match Parse(parse, TemplateText(Get(eventData, "content")))
            case Failure(_) => None
            case Success(content) => if Readable(content) then Some(content) else None
  }

  /** A delivered content replaces `messageData`, and `infojson` and `outData` where it has truthy ones. */
  function Absorb(found: Found, content: Value): Found {
    Found(content,
      if Truthy(Get(content, "infojson")) then Get(content, "infojson") else found.infojson,
      if Truthy(Get(content, "outData")) then Get(content, "outData") else found.outData)
  }

  /** One line: an `event: ` line sets the current event to its trimmed remainder; a delivering line is absorbed. */
  function LineStep(st: Scan, line: string, parse: Parser): Scan {
    if StartsWith(line, "event: ") then Scan(Trim(line[7..]), st.found)
    else match Delivered(st.event, line, parse)
      case None => st
      case Some(content) => Scan(st.event, Absorb(st.found, content))
  }

  /** The lines of a chunk, read one after the other. */
  function ScanLines(ls: seq<string>, st: Scan, parse: Parser): Scan
    decreases |ls|
  {
    if ls == [] then st else LineStep(ScanLines(ls[..|ls| - 1], st, parse), ls[|ls| - 1], parse)
  }

  /** A chunk is read from an empty current event: `let currentEvent = ''` runs once per chunk. */
  function ChunkFound(chunk: string, found: Found, parse: Parser): Found {
    ScanLines(Lines(chunk), Scan("", found), parse).found
  }

  /** The chunks of the stream, read one after the other from `Nothing`. */
  function StreamFound(chunks: seq<string>, parse: Parser): Found
    decreases |chunks|
  {
    if chunks == [] then Nothing
    else ChunkFound(chunks[|chunks| - 1], StreamFound(chunks[..|chunks| - 1], parse), parse)
  }

  /** `result += chunk` over the stream. */
  function Concat(chunks: seq<string>): string
    decreases |chunks|
  {
    if chunks == [] then "" else Concat(chunks[..|chunks| - 1]) + chunks[|chunks| - 1]
  }

  /** The contents the lines of a chunk hand over, in order, each judged under the event current at its line. */
  function Deliveries(ls: seq<string>, st: Scan, parse: Parser): seq<Value>
    decreases |ls|
  {
    if ls == [] then []
    else
      var before := ScanLines(ls[..|ls| - 1], st, parse);
      Deliveries(ls[..|ls| - 1], st, parse)
        + (match Delivered(before.event, ls[|ls| - 1], parse) case Some(c) => [c] case None => [])
  }

  /** The field `key` of the last value in `cs` whose `key` is truthy, or `d` when none has one. */
  function Latest(cs: seq<Value>, key: string, d: Value): (r: Value)
    ensures r == d || Truthy(r)
    ensures (forall k :: 0 <= k < |cs| ==> !Truthy(Get(cs[k], key))) ==> r == d
    ensures forall k :: 0 <= k < |cs| && Truthy(Get(cs[k], key)) && (forall j :: k < j < |cs| ==> !Truthy(Get(cs[j], key))) ==>
      r == Get(cs[k], key)
    decreases |cs|
  {
    if cs == [] then d
    else if Truthy(Get(cs[|cs| - 1], key)) then Get(cs[|cs| - 1], key)
    else
      var r := Latest(cs[..|cs| - 1], key, d);
      assert forall k :: 0 <= k < |cs| - 1 ==> cs[..|cs| - 1][k] == cs[k];
      r
  }

  /**
   * Later `Message` contents overwrite earlier ones: after any run of lines,
   * `messageData` is the last content handed over, and `infojson` and
   * `outData` are the last truthy ones among them, else what they were.
   */
  lemma {:induction false} ScanIsLatest(ls: seq<string>, st: Scan, parse: Parser)
    ensures var cs := Deliveries(ls, st, parse);
      ScanLines(ls, st, parse).found == Found(
        if cs == [] then st.found.messageData else cs[|cs| - 1],
        Latest(cs, "infojson", st.found.infojson),
        Latest(cs, "outData", st.found.outData))
    decreases |ls|
  {
    if ls != [] {
      var init := ls[..|ls| - 1];
      var line := ls[|ls| - 1];
      ScanIsLatest(init, st, parse);
      var before := ScanLines(init, st, parse);
      var cs0 := Deliveries(init, st, parse);
      var cs := Deliveries(ls, st, parse);
      if StartsWith(line, "event: ") {
        EventLineDeliversNothing(before.event, line, parse);
        assert cs == cs0;
      } else if Delivered(before.event, line, parse).Some? {
        var c := Delivered(before.event, line, parse).value;
        assert cs == cs0 + [c];
        assert cs[..|cs| - 1] == cs0;
      } else {
        assert cs == cs0;
      }
    }
  }

  /** An `event: ` line is not a `data: ` line. */
  lemma EventLineDeliversNothing(event: string, line: string, parse: Parser)
    requires StartsWith(line, "event: ")
    ensures Delivered(event, line, parse).None?
  {
    assert line[..7] == "event: ";
    assert line[..6][0] == 'e';
    assert line[..6] != "data: ";
  }

  /** Lines with no `event: ` among them, read from an empty current event, change nothing. */
  lemma {:induction false} QuietLines(ls: seq<string>, found: Found, parse: Parser)
    requires forall k :: 0 <= k < |ls| ==> !StartsWith(ls[k], "event: ")
    ensures ScanLines(ls, Scan("", found), parse) == Scan("", found)
    decreases |ls|
  {
    if ls != [] {
      QuietLines(ls[..|ls| - 1], found, parse);
    }
  }

  /**
   * The current event does not carry over between chunks: a chunk without an
   * `event: ` line of its own keeps nothing, even when the previous chunk
   * announced a `Message`.
   */
  lemma QuietChunkKeepsNothing(chunks: seq<string>, chunk: string, parse: Parser)
    requires forall k :: 0 <= k < |Lines(chunk)| ==> !StartsWith(Lines(chunk)[k], "event: ")
    ensures StreamFound(chunks + [chunk], parse) == StreamFound(chunks, parse)
  {
    var all := chunks + [chunk];
    assert all[..|all| - 1] == chunks;
    QuietLines(Lines(chunk), StreamFound(chunks, parse), parse);
  }

  /** Whatever the stream holds, `infojson` ends up `null` or truthy and `outData` empty or truthy. */
  lemma {:induction false} StreamKeepsTruthy(chunks: seq<string>, parse: Parser)
    ensures var f := StreamFound(chunks, parse);
      (f.infojson == Null || Truthy(f.infojson)) && (f.outData == Str("") || Truthy(f.outData))
    decreases |chunks|
  {
    if chunks != [] {
      var init := chunks[..|chunks| - 1];
      StreamKeepsTruthy(init, parse);
      ScanIsLatest(Lines(chunks[|chunks| - 1]), Scan("", StreamFound(init, parse)), parse);
    }
  }

  /** The stream loop of `callDirectCozeAPI`: the raw text and what was kept, chunk by chunk and line by line. */
  method ReadStream(chunks: seq<string>, parse: Parser) returns (raw: string, found: Found)
    ensures raw == Concat(chunks)
    ensures found == StreamFound(chunks, parse)
  {
    raw := "";
    var messageData, infojson, outData := Null, Null, Str("");
    var i := 0;
    while i < |chunks|
      invariant 0 <= i <= |chunks|
      invariant raw == Concat(chunks[..i])
      invariant Found(messageData, infojson, outData) == StreamFound(chunks[..i], parse)
    {
      var chunk := chunks[i];
      raw := raw + chunk;
      var lines := Lines(chunk);
      var currentEvent := "";
      ghost var start := Found(messageData, infojson, outData);
      var j := 0;
      while j < |lines|
        invariant 0 <= j <= |lines|
        invariant Scan(currentEvent, Found(messageData, infojson, outData)) == ScanLines(lines[..j], Scan("", start), parse)
      {
        var line := lines[j];
        if StartsWith(line, "event: ") {
          currentEvent := Trim(line[7..]);
        } else if StartsWith(line, "data: ") {
          var dataStr := line[6..];
          if dataStr != "" && dataStr != "[DONE]" {
            var eventData := Parse(parse, dataStr);
            if eventData.Success? && currentEvent == "Message" && Readable(eventData.value)
              && Truthy(Get(eventData.value, "content"))
            {
              var contentData := Parse(parse, TemplateText(Get(eventData.value, "content")));
              if contentData.Success? && Readable(contentData.value) {
                if Truthy(Get(contentData.value, "infojson")) {
                  infojson := Get(contentData.value, "infojson");
                }
                if Truthy(Get(contentData.value, "outData")) {
                  outData := Get(contentData.value, "outData");
                }
                messageData := contentData.value;
              }
            }
          }
        }
        assert lines[..j + 1][..j] == lines[..j];
        j := j + 1;
      }
      assert lines[..j] == lines;
      assert chunks[..i + 1][..i] == chunks[..i];
      i := i + 1;
    }
    assert chunks[..i] == chunks;
    found := Found(messageData, infojson, outData);
  }

  /** `outData || JSON.stringify(infojson, null, 2) || '处理完成'` */
  function DirectOutData(found: Found): Value {
    Or(Or(found.outData, Stringify(found.infojson)), Str("处理完成"))
  }

  /**
   * The last fallback is never taken: without a truthy `outData` the result
   * is the text of `infojson`, and `JSON.stringify(null)` is the truthy text
   * `null`.
   */
  lemma {:induction false} DirectFallbackNeverTaken(chunks: seq<string>, parse: Parser)
    ensures var f := StreamFound(chunks, parse);
      && (Truthy(f.outData) ==> DirectOutData(f) == f.outData)
      && (!Truthy(f.outData) ==> DirectOutData(f) == Stringify(f.infojson) && Truthy(DirectOutData(f)))
  {
    StreamKeepsTruthy(chunks, parse);
  }

  /** A stream in which no chunk names an event delivers nothing, and its `outData` is the text `null`. */
  lemma {:induction false} SilentStream(chunks: seq<string>, parse: Parser)
    requires forall k :: 0 <= k < |chunks| ==> forall m :: 0 <= m < |Lines(chunks[k])| ==> !StartsWith(Lines(chunks[k])[m], "event: ")
    ensures StreamFound(chunks, parse) == Nothing
    ensures DirectOutData(StreamFound(chunks, parse)) == Str("null")
    decreases |chunks|
  {
    if chunks != [] {
      var init := chunks[..|chunks| - 1];
      assert forall k :: 0 <= k < |init| ==> init[k] == chunks[k];
      SilentStream(init, parse);
      QuietChunkKeepsNothing(init, chunks[|chunks| - 1], parse);
      assert init + [chunks[|chunks| - 1]] == chunks;
    }
  }

  /** The object `callDirectCozeAPI` returns; `infoJson.timestamp` is the call's instant in milliseconds. */
  function DirectResult(found: Found, raw: string, workflowId: string, input: string, now: int): (r: Value)
    ensures Get(r, "outData") == DirectOutData(found)
    ensures var info := Get(r, "infoJson");
      && Get(info, "raw_response") == Str(raw)
      && Get(info, "extracted_infojson") == found.infojson
      && Get(info, "response_data") == Or(found.infojson, found.messageData)
      && Get(info, "input_length") == Num(Utf16Length(input))
  {
    Obj(map[
      "success" := Bool(true),
      "outData" := DirectOutData(found),
      "infoJson" := Obj(map[
        "timestamp" := Num(now),
        "workflow_id" := Str(workflowId),
        "input_length" := Num(Utf16Length(input)),
        "response_data" := Or(found.infojson, found.messageData),
        "api_method" := Str("direct_coze_stream"),
        "raw_response" := Str(raw),
        "extracted_infojson" := found.infojson])])
  }

  const NotConfigured := "请先配置 Coze API Token 和 Workflow ID"

  /**
   * `callDirectCozeAPI`. `token` and `workflowId` are what `localStorage`
   * holds, `reply` how the streaming `fetch` ends (its text is read only when
   * the status is not ok), `chunks` the decoded chunks of its body and `end`
   * how the body ends: `None` when `reader.read()` reports `done`, or the
   * error with which the read after the last chunk rejects. The reader loop
   * has no `try`, so that error rejects the whole call.
   */
  method CallDirect(token: Option<string>, workflowId: Option<string>, input: string, reply: Reply,
                    chunks: seq<string>, end: Option<JsError>, parse: Parser, now: int)
    returns (r: Result<Value, JsError>)
    ensures token.None? || token.value == "" || workflowId.None? || workflowId.value == "" ==>
      r == Failure(Raise(NotConfigured))
    ensures token.Some? && token.value != "" && workflowId.Some? && workflowId.value != "" ==>
      && (reply.NetworkError? ==> r == Failure(reply.error))
      && (reply.Reply? && !Ok(reply) ==>
            r == Failure(Raise("Coze API 错误: " + IntText(reply.status) + " " + reply.statusText + "\n" + reply.text)))
      && (reply.Reply? && Ok(reply) && end.Some? ==> r == Failure(end.value))
      && (reply.Reply? && Ok(reply) && end.None? ==>
            r == Success(DirectResult(StreamFound(chunks, parse), Concat(chunks), workflowId.value, input, now)))
  {
    if token.None? || token.value == "" || workflowId.None? || workflowId.value == "" {
      return Failure(Raise(NotConfigured));
    }
    if reply.NetworkError? {
      return Failure(reply.error);
    }
    if !Ok(reply) {
      return Failure(Raise("Coze API 错误: " + IntText(reply.status) + " " + reply.statusText + "\n" + reply.text));
    }
    var raw, found := ReadStream(chunks, parse);
    if end.Some? {
      return Failure(end.value);
    }
    r := Success(DirectResult(found, raw, workflowId.value, input, now));
  }

  // ---------------------------------------------------------------------
  // Status display and polling

  const StatusLabels: map<string, string> :=
    map["pending" := "等待中", "processing" := "处理中", "completed" := "已完成", "failed" := "失败"]

  /** `getStatusText`: the label of a known status, any other status as it is. */
  function StatusText(status: string): (t: string)
    ensures t == status <==> status !in StatusLabels
    ensures status in StatusLabels ==> t in StatusLabels.Values
  {
    if status in StatusLabels then StatusLabels[status] else status
  }

  /** Every status a job record can hold gets a label of its own. */
  lemma StatusTextDistinguishesJobs(a: Status, b: Status)
    ensures StatusName(a) in StatusLabels
    ensures StatusText(StatusName(a)) == StatusText(StatusName(b)) ==> a == b
  {
  }

  const MaxStatusChecks := 24
  const PollTimeout := "任务处理超时（4分钟），请稍后重试或联系管理员 ⏰"

  /** How one status request ends: it throws (network, status not ok, body not JSON), or yields the parsed body. */
  datatype Poll = Thrown(error: JsError) | Polled(data: Value)

  /** What `checkJobStatus` decides: keep polling, or stop and show the result or not. */
  datatype Verdict = Continue | Stop(shown: Option<Value>)

  /**
   * Only a `completed` or `failed` status stops polling, and only `completed`
   * shows the result. Without a job id nothing is asked; a request that
   * throws, or a body whose `status` cannot be read, leaves polling on.
   */
  function Judge(jobId: Value, p: Poll): (v: Verdict)
    ensures v.Stop? <==>
      Truthy(jobId) && p.Polled? && Readable(p.data)
      && (Get(p.data, "status") == Str("completed") || Get(p.data, "status") == Str("failed"))
    ensures v.Stop? ==> (v.shown.Some? <==> Get(p.data, "status") == Str("completed"))
    ensures v.Stop? && v.shown.Some? ==> v.shown.value == Get(p.data, "result")
  {
    if !Truthy(jobId) then Continue
    else match p
      case Thrown(_) => Continue
      case Polled(data) =>
        if !Readable(data) then Continue
        else if Get(data, "status") == Str("completed") then Stop(Some(Get(data, "result")))
        else if Get(data, "status") == Str("failed") then Stop(None)
        else Continue
  }

  /**
   * The page's polling state: `currentJobId`, `statusCheckCount`, whether the
   * interval is live, the loading state, the error shown and the result
   * shown. `checks` counts the status requests of the current session.
   */
  class Poller {
    var jobId: Value
    var count: int
    var polling: bool
    var loading: bool
    var error: Option<string>
    var shown: Option<Value>
    ghost var checks: nat

    ghost predicate Valid()
      reads this
    {
      && 0 <= count
      && checks == (if count <= MaxStatusChecks then count else MaxStatusChecks)
      && (polling ==> count <= MaxStatusChecks)
    }

    constructor ()
      ensures Valid() && jobId == Null && !polling && !loading && error.None? && shown.None?
    {
      jobId := Null;
      count := 0;
      polling := false;
      loading := false;
      error := None;
      shown := None;
      checks := 0;
    }

    /** `startStatusPolling`: the old timers are cleared, the counter reset and a new session started. */
    method StartPolling()
      requires Valid()
      modifies this
      ensures Valid() && count == 0 && checks == 0 && polling
      ensures jobId == old(jobId) && loading == old(loading) && error == old(error) && shown == old(shown)
    {
      count := 0;
      checks := 0;
      polling := true;
    }

    /**
     * One firing of the interval: the counter goes up; past `MaxStatusChecks`
     * polling stops with the time-out error, otherwise `checkJobStatus` runs.
     * The interval fires only while it is live.
     */
    method Tick(p: Poll)
      requires Valid() && polling
      modifies this
      ensures Valid() && jobId == old(jobId) && count == old(count) + 1
      ensures count > MaxStatusChecks ==>
        !polling && !loading && error == Some(PollTimeout) && shown == old(shown) && checks == old(checks)
      ensures count <= MaxStatusChecks ==>
        && checks == old(checks) + 1 && error == old(error)
        && (Judge(jobId, p).Continue? ==> polling && loading == old(loading) && shown == old(shown))
        && (Judge(jobId, p).Stop? ==>
              !polling && !loading && shown == (if Judge(jobId, p).shown.Some? then Judge(jobId, p).shown else old(shown)))
    {
      count := count + 1;
      if count > MaxStatusChecks {
        polling := false;
        loading := false;
        error := Some(PollTimeout);
        return;
      }
      checks := checks + 1;
      CheckJobStatus(p);
    }

    /** `checkJobStatus` and the interval's `catch`, which swallows what it throws. */
    method CheckJobStatus(p: Poll)
      modifies this
      ensures jobId == old(jobId) && count == old(count) && checks == old(checks) && error == old(error)
      ensures Judge(jobId, p).Continue? ==> polling == old(polling) && loading == old(loading) && shown == old(shown)
      ensures Judge(jobId, p).Stop? ==>
        !polling && !loading && shown == (if Judge(jobId, p).shown.Some? then Judge(jobId, p).shown else old(shown))
    {
      if !Truthy(jobId) {
        return;
      }
      match p {
        case Thrown(_) =>
        case Polled(statusData) =>
          if Readable(statusData) {
            var status := Get(statusData, "status");
            if status == Str("completed") || status == Str("failed") {
              polling := false;
              loading := false;
              if status == Str("completed") {
                shown := Some(Get(statusData, "result"));
              }
            }
          }
      }
    }
  }

  /**
   * The tail of `startAsyncWorkflow` and the interval that follows it:
   * the job id is taken, a fresh session starts, and the interval fires once
   * per outcome while it is live. Whatever the outcomes, at most
   * `MaxStatusChecks` status requests are made, and polling ends at a
   * terminal status or at the time-out.
   */
  method Session(poller: Poller, id: Value, outcomes: seq<Poll>) returns (ticks: nat)
    requires poller.Valid()
    modifies poller
    ensures poller.Valid() && poller.jobId == id
    ensures ticks <= |outcomes| && ticks <= MaxStatusChecks + 1
    ensures poller.checks <= MaxStatusChecks && poller.checks == (if ticks <= MaxStatusChecks then ticks else MaxStatusChecks)
    ensures |outcomes| > MaxStatusChecks ==> !poller.polling
    ensures poller.polling ==> ticks == |outcomes| && forall k :: 0 <= k < ticks ==> Judge(id, outcomes[k]).Continue?
    ensures forall k :: 0 <= k < ticks - 1 ==> Judge(id, outcomes[k]).Continue?
    ensures !poller.polling ==>
      || (ticks == MaxStatusChecks + 1 && poller.error == Some(PollTimeout))
      || (1 <= ticks <= MaxStatusChecks && Judge(id, outcomes[ticks - 1]).Stop?)
  {
    poller.jobId := id;
    poller.StartPolling();
    ticks := 0;
    while ticks < |outcomes| && poller.polling
      invariant poller.Valid() && poller.jobId == id
      invariant ticks <= |outcomes| && poller.count == ticks
      invariant poller.polling ==> forall k :: 0 <= k < ticks ==> Judge(id, outcomes[k]).Continue?
      invariant forall k :: 0 <= k < ticks - 1 ==> Judge(id, outcomes[k]).Continue?
      invariant !poller.polling ==>
        || (ticks == MaxStatusChecks + 1 && poller.error == Some(PollTimeout))
        || (1 <= ticks <= MaxStatusChecks && Judge(id, outcomes[ticks - 1]).Stop?)
    {
      poller.Tick(outcomes[ticks]);
      ticks := ticks + 1;
    }
  }
}
