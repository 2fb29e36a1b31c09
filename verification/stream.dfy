/**
 * The workflow service's event stream and how every runner folds it: each
 * `Message` chunk whose content parses may set `infojson` and `outData` and
 * always sets `messageData`; a `Done` chunk ends the loop; content that does
 * not parse is skipped. The loops themselves live with their runners; this
 * module holds what they share.
 */
module Stream {
  import opened JsValue
  import opened Job

  /** One chunk of the stream: its `event` and its `data`. */
  datatype Chunk = Chunk(event: Value, data: Value)

  /**
   * What `workflows.runs.stream` settles to: a rejection, an async-iterable
   * stream, or a plain value. A stream yields its `chunks` in order and then
   * either finishes (`end == None`) or throws `end.value` from its next read.
   */
  datatype Provider = Rejected(error: JsError) | Streamed(chunks: seq<Chunk>, end: Option<JsError>) | Plain(response: Value)

  /** The chunk as a JavaScript object, as it is kept when it is the `Done` chunk. */
  function ChunkValue(c: Chunk): (v: Value)
    ensures Get(v, "event") == c.event && Get(v, "data") == c.data
  {
    Obj(map["event" := c.event, "data" := c.data])
  }

  predicate IsDone(c: Chunk) {
    c.event == Str("Done")
  }

  /** `chunk.event === 'Message' && chunk.data && chunk.data.content` */
  predicate CarriesContent(c: Chunk) {
    c.event == Str("Message") && Truthy(c.data) && Truthy(Get(c.data, "content"))
  }

  /** The loop's variables `infojson`, `outData` and `messageData`. */
  datatype Extracted = Extracted(infojson: Value, outData: Value, messageData: Value)

  /** `let messageData = null; let infojson = null; let outData = '';` */
  const Start := Extracted(Null, Str(""), Null)

  /**
   * `JSON.parse(content)` and the assignments after it. A content that does not
   * parse, or parses to `null` (whose `infojson` cannot be read), throws inside
   * the `try` and changes nothing.
   */
  function AbsorbContent(st: Extracted, content: Value, parse: Parser): (r: Extracted)
    ensures Parse(parse, TemplateText(content)).Failure? ==> r == st
    ensures Kept(st) ==> Kept(r)
    ensures Truthy(st.infojson) ==> Truthy(r.infojson)
    ensures Truthy(st.outData) ==> Truthy(r.outData)
  {
    match Parse(parse, TemplateText(content))
    case Failure(_) => st
    case Success(cd) =>
      if !Readable(cd) then st
      else
        Extracted(
          if Truthy(Get(cd, "infojson")) then Get(cd, "infojson") else st.infojson,
          if Truthy(Get(cd, "outData")) then Get(cd, "outData") else st.outData,
          cd)
  }

  /** What one chunk does to the loop's variables. */
  function Absorb(st: Extracted, c: Chunk, parse: Parser): Extracted {
    if CarriesContent(c) then AbsorbContent(st, Get(c.data, "content"), parse) else st
  }

  /** The `infojson` a chunk sets, if it sets one. */
  function Carried(c: Chunk, parse: Parser): Option<Value> {
    if !CarriesContent(c) then None
    else match Parse(parse, TemplateText(Get(c.data, "content")))
      case Failure(_) => None
      case Success(cd) => if Readable(cd) && Truthy(Get(cd, "infojson")) then Some(Get(cd, "infojson")) else None
  }

  /** The loop's variables after the chunks `cs`, in order. */
  function Fold(st: Extracted, cs: seq<Chunk>, parse: Parser): (r: Extracted)
    ensures Truthy(st.infojson) ==> Truthy(r.infojson)
    ensures Truthy(st.outData) ==> Truthy(r.outData)
  {
    if cs == [] then st else Absorb(Fold(st, cs[..|cs| - 1], parse), cs[|cs| - 1], parse)
  }

  /** How many chunks the `for await` loop reads: up to and including the first `Done`, or all of them. */
  function Consumed(cs: seq<Chunk>): (n: nat)
    ensures n <= |cs|
    ensures cs != [] ==> n > 0
    ensures forall i :: 0 <= i < n - 1 ==> !IsDone(cs[i])
    ensures n < |cs| ==> IsDone(cs[n - 1])
  {
    if cs == [] then 0 else if IsDone(cs[0]) then 1 else 1 + Consumed(cs[1..])
  }

  /** Whether the stream holds a `Done` chunk, at which the loop stops reading. */
  predicate HasDone(cs: seq<Chunk>) {
    exists i :: 0 <= i < |cs| && IsDone(cs[i])
  }

  /**
   * The error a `for await` loop over the answer throws: the stream's own, which
   * its read after the last chunk raises, and which is only reached when no
   * chunk is `Done`. Every chunk has been read by then.
   */
  function Broken(p: Provider): (e: Option<JsError>)
    ensures e.Some? <==> p.Streamed? && p.end.Some? && !HasDone(p.chunks)
    ensures e.Some? ==> e == p.end && Consumed(p.chunks) == |p.chunks|
  {
    if p.Streamed? && !HasDone(p.chunks) then
      assert p.chunks != [] ==> Consumed(p.chunks) > 0 && !IsDone(p.chunks[Consumed(p.chunks) - 1]);
      p.end
    else None
  }

  /** The loop's variables once the stream has been read. */
  function Extract(cs: seq<Chunk>, parse: Parser): (r: Extracted)
    ensures Kept(r)
    ensures !HasDone(cs) ==> r == Fold(Start, cs, parse)
  {
    FoldKept(Start, cs[..Consumed(cs)], parse);
    assert !HasDone(cs) ==> cs[..Consumed(cs)] == cs by {
      if !HasDone(cs) && cs != [] {
        assert !IsDone(cs[Consumed(cs) - 1]);
      }
    }
    Fold(Start, cs[..Consumed(cs)], parse)
  }

  /** `infojson` is only ever assigned a truthy value, and `outData` likewise. */
  predicate Kept(st: Extracted) {
    (st.infojson == Null || Truthy(st.infojson)) && (st.outData == Str("") || Truthy(st.outData))
  }

  lemma {:induction false} FoldKept(st: Extracted, cs: seq<Chunk>, parse: Parser)
    requires Kept(st)
    ensures Kept(Fold(st, cs, parse))
  {
    if cs != [] {
      FoldKept(st, cs[..|cs| - 1], parse);
    }
  }

  lemma FoldAppend(st: Extracted, cs: seq<Chunk>, c: Chunk, parse: Parser)
    ensures Fold(st, cs + [c], parse) == Absorb(Fold(st, cs, parse), c, parse)
  {
    assert (cs + [c])[..|cs|] == cs;
  }

  /** Reading one more chunk of a stream absorbs it into the prefix read so far. */
  lemma FoldPrefix(cs: seq<Chunk>, i: nat, parse: Parser)
    requires i < |cs|
    ensures Fold(Start, cs[..i + 1], parse) == Absorb(Fold(Start, cs[..i], parse), cs[i], parse)
  {
    FoldAppend(Start, cs[..i], cs[i], parse);
    assert cs[..i + 1] == cs[..i] + [cs[i]];
  }

  /** The chunks left to read shrink by one per chunk that is not `Done`; a `Done` chunk is the last read. */
  lemma ConsumedFrom(cs: seq<Chunk>, i: nat)
    requires i < |cs|
    ensures IsDone(cs[i]) ==> Consumed(cs[i..]) == 1
    ensures !IsDone(cs[i]) ==> Consumed(cs[i..]) == 1 + Consumed(cs[i + 1..])
  {
    assert cs[i..][0] == cs[i];
    assert cs[i..][1..] == cs[i + 1..];
  }

  /**
   * A later chunk's `infojson` overwrites an earlier one's: after a run of
   * chunks, `infojson` is the one set by the last chunk that sets one, or what
   * it was before when none does.
   */
  lemma {:induction false} FoldInfojson(st: Extracted, cs: seq<Chunk>, parse: Parser)
    ensures (forall i :: 0 <= i < |cs| ==> Carried(cs[i], parse).None?) ==>
      Fold(st, cs, parse).infojson == st.infojson
    ensures forall i ::
      (0 <= i < |cs| && Carried(cs[i], parse).Some? && (forall j :: i < j < |cs| ==> Carried(cs[j], parse).None?)) ==>
      Fold(st, cs, parse).infojson == Carried(cs[i], parse).value
  {
    if cs != [] {
      var front := cs[..|cs| - 1];
      var last := cs[|cs| - 1];
      FoldInfojson(st, front, parse);
      assert forall i :: 0 <= i < |front| ==> front[i] == cs[i];
      var before := Fold(st, front, parse);
      assert Fold(st, cs, parse) == Absorb(before, last, parse);
      assert Carried(last, parse).None? ==> Absorb(before, last, parse).infojson == before.infojson;
    }
  }

  /** Chunks after a `Done` are never read: appending to a stream that already holds one changes nothing. */
  lemma {:induction false} DoneStops(cs: seq<Chunk>, rest: seq<Chunk>)
    requires HasDone(cs)
    ensures Consumed(cs + rest) == Consumed(cs)
  {
    if IsDone(cs[0]) {
    } else {
      assert cs[1..] + rest == (cs + rest)[1..];
      var i :| 0 <= i < |cs| && IsDone(cs[i]);
      assert IsDone(cs[1..][i - 1]);
      DoneStops(cs[1..], rest);
    }
  }

  /** `progress = Math.min(progress + 5, 50)` */
  function Bump(progress: int): int {
    if progress + 5 < 50 then progress + 5 else 50
  }

  /** The progress written for the `k`-th chunk, counting from 1, starting from 20. */
  function StreamProgress(k: nat): (p: int)
    ensures 20 <= p <= 50
    ensures k >= 1 ==> 25 <= p
  {
    if 20 + 5 * k < 50 then 20 + 5 * k else 50
  }

  /** Each chunk read bumps the progress of the one before, and progress never goes down. */
  lemma BumpStep(k: nat)
    ensures StreamProgress(k + 1) == Bump(StreamProgress(k))
    ensures StreamProgress(k) <= StreamProgress(k + 1)
  {
  }

  /** The message of the progress write for a chunk. */
  function ChunkMessage(c: Chunk): string {
    "正在处理 Coze 响应... (" + TemplateText(c.event) + ")"
  }

  /** `outData || JSON.stringify(infojson, null, 2) || '处理完成'` */
  function OutData(st: Extracted): Value {
    Or(Or(st.outData, Stringify(st.infojson)), Str("处理完成"))
  }

  /**
   * The last fallback is never taken: when no chunk supplied `outData`, the
   * result is the text of `infojson`, which is the string "null" when no
   * chunk supplied that either.
   */
  lemma OutDataNeverDefault(cs: seq<Chunk>, parse: Parser)
    ensures var st := Extract(cs, parse);
      && (Truthy(st.outData) ==> OutData(st) == st.outData)
      && (!Truthy(st.outData) ==> OutData(st) == Stringify(st.infojson))
      && (!Truthy(st.outData) && st.infojson == Null ==> OutData(st) == Str("null"))
  {
    FoldKept(Start, cs[..Consumed(cs)], parse);
  }

  /** The workflow result a streaming runner returns. */
  function StreamResult(st: Extracted, workflowId: string, input: string, now: int): (r: WorkflowResult)
    ensures r.downloadUrl.None? && r.infoJson.downloadUrl.None?
    ensures r.infoJson.extractedInfojson == st.infojson
    ensures r.infoJson.inputLength == Utf16Length(input)
    ensures Truthy(st.infojson) ==> r.infoJson.responseData == st.infojson
  {
    WorkflowResult(
      OutData(st),
      None,
      InfoJson(now, workflowId, Utf16Length(input), Or(st.infojson, st.messageData), "stream", st.infojson, None))
  }

  /**
   * The stream loop without progress writes (api/worker.js, api/start-workflow-simple.js):
   * it reads chunks until the first `Done` and reports that chunk, if any.
   */
  method Consume(cs: seq<Chunk>, parse: Parser) returns (st: Extracted, done: Option<Chunk>)
    ensures st == Extract(cs, parse)
    ensures done.Some? <==> HasDone(cs)
    ensures done.Some? ==> done.value == cs[Consumed(cs) - 1] && IsDone(done.value)
  {
    st := Start;
    done := None;
    var i := 0;
    while i < |cs|
      invariant 0 <= i <= Consumed(cs)
      invariant forall j :: 0 <= j < i ==> !IsDone(cs[j])
      invariant st == Fold(Start, cs[..i], parse)
      invariant done.None?
    {
      FoldAppend(Start, cs[..i], cs[i], parse);
      assert cs[..i + 1] == cs[..i] + [cs[i]];
      st := Absorb(st, cs[i], parse);
      if IsDone(cs[i]) {
        done := Some(cs[i]);
        ConsumedAtFirstDone(cs, i);
        return;
      }
      i := i + 1;
    }
    assert cs[..i] == cs;
  }

  /** The loop stops right after the first `Done`. */
  lemma {:induction false} ConsumedAtFirstDone(cs: seq<Chunk>, i: nat)
    requires i < |cs| && IsDone(cs[i])
    requires forall j :: 0 <= j < i ==> !IsDone(cs[j])
    ensures Consumed(cs) == i + 1
  {
    if i > 0 {
      assert forall j :: 0 <= j < i - 1 ==> cs[1..][j] == cs[j + 1];
      ConsumedAtFirstDone(cs[1..], i - 1);
    }
  }
}
