/**
 * The non-streaming completion (`complete_chat`): the server-sent-event lines
 * of the streaming path are read back, their deltas are concatenated, and one
 * chat-completion object is built from the totals.
 *
 * The lines are given in full, followed by the exception the stream raised, if
 * any; `parse` is `json.loads`, None standing for `JSONDecodeError`.
 */
module Aggregator {
  import opened Wrappers
  import opened Strings
  import opened JsonValue
  import opened ResponseTranslator

  /** The running totals: `full_content`, `reasoning_content` and `finish_reason`. */
  datatype Tally = Tally(content: string, reasoning: string, finish: Json)

  const Initial: Tally := Tally("", "", Str("stop"))

  /** `if key in delta: acc += delta[key]`: the text added, or the TypeError raised. */
  function DeltaText(delta: Json, key: string): (r: Result<string, string>)
    ensures r.Ok? && r.value != "" ==> delta.Obj? && key in delta.fields && delta.fields[key] == Str(r.value)
  {
    match HasKey(key, delta)
    case None => Err("TypeError: argument is not iterable")
    case Some(false) => Ok("")
    case Some(true) =>
      if delta.Obj? && delta.fields[key].Str? then Ok(delta.fields[key].s)
      else Err("TypeError: can only concatenate str to str")
  }

  /** `choices[0]` on a truthy value. */
  function FirstChoice(choices: Json): Result<Json, string>
    requires Truthy(choices)
  {
    match choices
    case Arr(items) => Ok(items[0])
    case Str(s) => Ok(Str([s[0]]))
    case Obj(_) => Err("KeyError: 0")
    case _ => Err("TypeError: object is not subscriptable")
  }

  /** The payload of an event line: the text after `data: `, stripped. */
  function Payload(line: string): string
    requires StartsWith(line, "data: ")
  {
    Strip(line[6..])
  }

  /** The first choice of a chunk folded into the totals: its delta's texts and a truthy finish reason. */
  function AbsorbChoice(t: Tally, first: Json): Result<Tally, string> {
    match Get(first, "delta", Obj(map[]))
    case None => Err("AttributeError: object has no attribute 'get'")
    case Some(delta) =>
      match DeltaText(delta, "content")
      case Err(e) => Err(e)
      case Ok(c) =>
        match DeltaText(delta, "reasoning_content")
        case Err(e) => Err(e)
        case Ok(rc) =>
          var finish := Lookup(first.fields, "finish_reason", Null);
          Ok(Tally(t.content + c, t.reasoning + rc, if Truthy(finish) then finish else t.finish))
  }

  /** A decoded chunk folded into the totals; a chunk without choices changes nothing. */
  function AbsorbChunk(t: Tally, chunk: Json): Result<Tally, string> {
    match Get(chunk, "choices", Arr([]))
    case None => Err("AttributeError: object has no attribute 'get'")
    case Some(choices) =>
      if !Truthy(choices) then Ok(t)
      else match FirstChoice(choices)
        case Err(e) => Err(e)
        case Ok(first) => AbsorbChoice(t, first)
  }

  /** One line of the stream folded into the totals; Err when Python raises. */
  function Absorb(t: Tally, line: string, parse: string -> Option<Json>): Result<Tally, string> {
    if !StartsWith(line, "data: ") || Payload(line) == "[DONE]" then Ok(t)
    else match parse(Payload(line))
      case None => Ok(t)
      case Some(chunk) => AbsorbChunk(t, chunk)
  }

  /** The totals after the given lines, starting from `t`; Err at the first line that raises. */
  function Fold(t: Tally, lines: seq<string>, parse: string -> Option<Json>): Result<Tally, string> {
    if lines == [] then Ok(t)
    else match Fold(t, lines[..|lines| - 1], parse)
      case Err(e) => Err(e)
      case Ok(u) => Absorb(u, lines[|lines| - 1], parse)
  }

  /** The message text returned: reasoning and response combined, never empty. */
  function FinalContent(t: Tally): (r: string)
    ensures r != ""
    ensures t.reasoning == "" && t.content != "" ==> r == t.content
    ensures t.reasoning == "" && t.content == "" ==> r == " "
    ensures t.reasoning != "" ==>
      r == "**Reasoning:**\n" + t.reasoning + "\n\n**Response:**\n" + t.content
  {
    var combined :=
      if t.reasoning != "" then "**Reasoning:**\n" + t.reasoning + "\n\n**Response:**\n" + t.content
      else t.content;
    if combined == "" then " " else combined
  }

  /** The zero usage block: the gateway does not count tokens on this path. */
  const ZeroUsage: Json :=
    Obj(map["prompt_tokens" := Num(0), "completion_tokens" := Num(0), "total_tokens" := Num(0)])

  /** The chat-completion object; `id` and `created` come from uuid4 and the clock. */
  function Response(model: string, t: Tally, id: string, created: int): Json {
    Obj(map[
      "id" := Str("chatcmpl-proxy-nonstream-" + id),
      "object" := Str("chat.completion"),
      "created" := Num(created),
      "model" := Str(model),
      "usage" := ZeroUsage,
      "choices" := Arr([Obj(map[
        "index" := Num(0),
        "message" := Obj(map["role" := Str("assistant"), "content" := Str(FinalContent(t))]),
        "finish_reason" := t.finish])])])
  }

  /** The delta texts and the finish reason of a chunk's first choice, added to the totals. */
  method ReadChoice(t: Tally, first: Json) returns (r: Result<Tally, string>)
    ensures r == AbsorbChoice(t, first)
  {
    if !first.Obj? {
      return Err("AttributeError: object has no attribute 'get'");
    }
    var delta := Lookup(first.fields, "delta", Obj(map[]));
    var content := DeltaText(delta, "content");
    if content.Err? {
      return Err(content.error);
    }
    var reasoning := DeltaText(delta, "reasoning_content");
    if reasoning.Err? {
      return Err(reasoning.error);
    }
    var finish := Lookup(first.fields, "finish_reason", Null);
    r := Ok(Tally(t.content + content.value, t.reasoning + reasoning.value, if Truthy(finish) then finish else t.finish));
  }

  /** A decoded chunk: nothing when it has no choices, else its first choice. */
  method ReadChunk(t: Tally, chunk: Json) returns (r: Result<Tally, string>)
    ensures r == AbsorbChunk(t, chunk)
  {
    if !chunk.Obj? {
      return Err("AttributeError: object has no attribute 'get'");
    }
    var choices := Lookup(chunk.fields, "choices", Arr([]));
    if !Truthy(choices) {
      return Ok(t);
    }
    var first := FirstChoice(choices);
    if first.Err? {
      return Err(first.error);
    }
    r := ReadChoice(t, first.value);
  }

  /**
   * One pass of the `complete_chat` loop body: the line is skipped, or its
   * chunk's first choice is added to the totals, or Python raises.
   */
  method ReadLine(t: Tally, line: string, parse: string -> Option<Json>) returns (r: Result<Tally, string>)
    ensures r == Absorb(t, line, parse)
  {
    r := Ok(t);
    if !StartsWith(line, "data: ") {
      return;
    }
    var payload := Strip(line[6..]);
    if payload == "[DONE]" {
      return;
    }
    var parsed := parse(payload);
    if parsed.None? {
      return;
    }
    r := ReadChunk(t, parsed.value);
  }

  /**
   * `complete_chat`: the loop over the stream's lines. The result is the
   * response built from the totals of all lines, or the first exception raised,
   * by a line or by the stream itself after its last line.
   */
  method CompleteChat(lines: seq<string>, raised: Option<string>, parse: string -> Option<Json>,
                      model: string, id: string, created: int)
    returns (r: Result<Json, string>)
    ensures Fold(Initial, lines, parse).Err? ==> r == Err(Fold(Initial, lines, parse).error)
    ensures Fold(Initial, lines, parse).Ok? && raised.Some? ==> r == Err(raised.value)
    ensures Fold(Initial, lines, parse).Ok? && raised.None? ==>
      r == Ok(Response(model, Fold(Initial, lines, parse).value, id, created))
  {
    var totals := Initial;
    var i := 0;
    while i < |lines|
      invariant 0 <= i <= |lines|
      invariant Fold(Initial, lines[..i], parse) == Ok(totals)
    {
      assert lines[..i + 1][..i] == lines[..i];
      var step := ReadLine(totals, lines[i], parse);
      if step.Err? {
        assert Fold(Initial, lines[..i + 1], parse) == step;
        FoldErrKept(lines, i + 1, parse);
        return Err(step.error);
      }
      totals := step.value;
      i := i + 1;
    }
    assert lines[..|lines|] == lines;
    if raised.Some? {
      return Err(raised.value);
    }
    return Ok(Response(model, totals, id, created));
  }

  /** Once the fold over a prefix has raised, the fold over the whole raises the same. */
  lemma {:induction false} FoldErrKept(lines: seq<string>, n: nat, parse: string -> Option<Json>)
    requires n <= |lines|
    requires Fold(Initial, lines[..n], parse).Err?
    ensures Fold(Initial, lines, parse) == Fold(Initial, lines[..n], parse)
    decreases |lines| - n
  {
    if n == |lines| {
      assert lines[..n] == lines;
    } else {
      assert lines[..n + 1][..n] == lines[..n];
      FoldErrKept(lines, n + 1, parse);
    }
  }

  // ---------------------------------------------------------------------------
  // Properties of the totals
  // ---------------------------------------------------------------------------

  /** Folding two runs of lines is folding the first, then the second from its totals. */
  lemma {:induction false} FoldAppend(t: Tally, a: seq<string>, b: seq<string>, parse: string -> Option<Json>)
    ensures Fold(t, a + b, parse) ==
      (match Fold(t, a, parse) case Err(e) => Err(e) case Ok(u) => Fold(u, b, parse))
    decreases |b|
  {
    if b == [] {
      assert a + b == a;
    } else {
      assert (a + b)[..|a + b| - 1] == a + b[..|b| - 1];
      FoldAppend(t, a, b[..|b| - 1], parse);
    }
  }

  /** The closing `data: [DONE]` line changes nothing. */
  lemma DoneSkipped(t: Tally, line: string, parse: string -> Option<Json>)
    requires line == "data: [DONE]\n\n"
    ensures Absorb(t, line, parse) == Ok(t)
  {
    var done, ws := "[DONE]", "\n\n";
    assert line[..6] == "data: " && line[6..] == done + ws;
    assert LStrip(line[6..]) == line[6..];
    RStripSpaces(done, ws);
  }

  /** A line that is not an event, or whose payload is not JSON, changes nothing. */
  lemma IgnoredLines(t: Tally, line: string, parse: string -> Option<Json>)
    ensures !StartsWith(line, "data: ") ==> Absorb(t, line, parse) == Ok(t)
    ensures StartsWith(line, "data: ") && parse(Payload(line)).None? ==> Absorb(t, line, parse) == Ok(t)
  {
  }

  /** The `delta` object of a translated delta, as the streaming path serialises it. */
  function DeltaObject(d: Delta): Json {
    var m: map<string, Json> := map[];
    var m := if d.content.Some? then m["content" := d.content.value] else m;
    var m := if d.reasoning.Some? then m["reasoning_content" := d.reasoning.value] else m;
    Obj(m)
  }

  /** The `finish_reason` of a translated delta: null or the lower-cased reason. */
  function FinishJson(d: Delta): Json {
    match d.finish
    case None => Null
    case Some(f) => Str(f)
  }

  /** The chunk the streaming path emits for a delta; `id` and `created` come from uuid4 and the clock. */
  function DeltaChunk(d: Delta, id: string, created: int): Json {
    Obj(map[
      "id" := Str(id),
      "object" := Str("chat.completion.chunk"),
      "created" := Num(created),
      "model" := Str("vertex-ai-proxy"),
      "choices" := Arr([Obj(map["index" := Num(0), "delta" := DeltaObject(d), "finish_reason" := FinishJson(d)])])])
  }

  /** A delta whose texts are strings, as the translator produces for text parts and images. */
  predicate TextDelta(d: Delta) {
    (d.content.Some? ==> d.content.value.Str?) && (d.reasoning.Some? ==> d.reasoning.value.Str?)
  }

  function Text(j: Option<Json>): string {
    if j.Some? && j.value.Str? then j.value.s else ""
  }

  /** `line` is an event line whose payload decodes to a chunk carrying `d`. */
  ghost predicate ChunkLine(line: string, parse: string -> Option<Json>, d: Delta) {
    StartsWith(line, "data: ") && Payload(line) != "[DONE]" &&
    exists id: string, created: int :: parse(Payload(line)) == Some(DeltaChunk(d, id, created))
  }

  /** The contents of the deltas, concatenated. */
  function Contents(ds: seq<Delta>): string {
    if ds == [] then "" else Contents(ds[..|ds| - 1]) + Text(ds[|ds| - 1].content)
  }

  /** The reasoning texts of the deltas, concatenated. */
  function Reasonings(ds: seq<Delta>): string {
    if ds == [] then "" else Reasonings(ds[..|ds| - 1]) + Text(ds[|ds| - 1].reasoning)
  }

  /** The last non-empty finish reason among the deltas, or `dflt`. */
  function LastFinish(ds: seq<Delta>, dflt: Json): Json {
    if ds == [] then dflt
    else match ds[|ds| - 1].finish
      case Some(f) => if f != "" then Str(f) else LastFinish(ds[..|ds| - 1], dflt)
      case None => LastFinish(ds[..|ds| - 1], dflt)
  }

  /** The chunk of a text delta adds its texts and, when it has one, its finish reason. */
  lemma DeltaChunkAbsorbed(t: Tally, d: Delta, id: string, created: int)
    requires TextDelta(d)
    ensures AbsorbChunk(t, DeltaChunk(d, id, created)) ==
      Ok(Tally(t.content + Text(d.content), t.reasoning + Text(d.reasoning),
               if d.finish.Some? && d.finish.value != "" then Str(d.finish.value) else t.finish))
  {
    var first := Obj(map["index" := Num(0), "delta" := DeltaObject(d), "finish_reason" := FinishJson(d)]);
    assert Get(DeltaChunk(d, id, created), "choices", Arr([])) == Some(Arr([first]));
    assert Get(first, "delta", Obj(map[])) == Some(DeltaObject(d));
    assert Lookup(first.fields, "finish_reason", Null) == FinishJson(d);
  }

  /** One chunk line adds its delta's texts and, when it has one, its finish reason. */
  lemma ChunkAbsorbed(t: Tally, line: string, parse: string -> Option<Json>, d: Delta)
    requires ChunkLine(line, parse, d) && TextDelta(d)
    ensures Absorb(t, line, parse) ==
      Ok(Tally(t.content + Text(d.content), t.reasoning + Text(d.reasoning),
               if d.finish.Some? && d.finish.value != "" then Str(d.finish.value) else t.finish))
  {
    var id: string, created: int :| parse(Payload(line)) == Some(DeltaChunk(d, id, created));
    DeltaChunkAbsorbed(t, d, id, created);
  }

  /**
   * Reading back the chunks of a run of text deltas gives their contents and
   * reasoning texts concatenated separately, and the last finish reason.
   */
  lemma {:induction false} DeltasAggregated(lines: seq<string>, ds: seq<Delta>, parse: string -> Option<Json>)
    requires |lines| == |ds|
    requires forall i :: 0 <= i < |ds| ==> ChunkLine(lines[i], parse, ds[i]) && TextDelta(ds[i])
    ensures Fold(Initial, lines, parse) ==
      Ok(Tally(Contents(ds), Reasonings(ds), LastFinish(ds, Initial.finish)))
  {
    if ds != [] {
      var n := |ds| - 1;
      DeltasAggregated(lines[..n], ds[..n], parse);
      ChunkAbsorbed(Fold(Initial, lines[..n], parse).value, lines[n], parse, ds[n]);
    }
  }

  /** The completion of a run of text deltas closed by `[DONE]`, when the stream does not raise. */
  lemma StreamCompleted(lines: seq<string>, ds: seq<Delta>, parse: string -> Option<Json>,
                        model: string, id: string, created: int)
    requires |lines| == |ds|
    requires forall i :: 0 <= i < |ds| ==> ChunkLine(lines[i], parse, ds[i]) && TextDelta(ds[i])
    ensures Fold(Initial, lines + ["data: [DONE]\n\n"], parse) ==
      Ok(Tally(Contents(ds), Reasonings(ds), LastFinish(ds, Str("stop"))))
  {
    DeltasAggregated(lines, ds, parse);
    FoldAppend(Initial, lines, ["data: [DONE]\n\n"], parse);
    DoneSkipped(Tally(Contents(ds), Reasonings(ds), LastFinish(ds, Str("stop"))), "data: [DONE]\n\n", parse);
    assert ["data: [DONE]\n\n"][..0] == [];
  }
}
