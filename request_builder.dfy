/**
 * Construction of the vendor request from an OpenAI-style chat request
 * (`stream_chat`, before the request is sent): chat messages become the
 * vendor's `contents` and `systemInstruction`, the model name's suffixes
 * choose a thinking budget and an image resolution, the harvested template's
 * `generationConfig` is edited, and the harvested headers are sanitised.
 *
 * Python raising anywhere in this stage is an `Err`; the message says which
 * exception Python would raise.
 */
module RequestBuilder {
  import opened Wrappers
  import opened Strings
  import opened JsonValue

  // ---------------------------------------------------------------------------
  // Messages
  // ---------------------------------------------------------------------------

  /**
   * One chat message: a JSON object, whose `role` and `content` are None when
   * the key is absent, or some other JSON value.
   */
  datatype Message =
    | Message(role: Option<Json>, content: Option<Json>)
    | NotADict

  /** `msg['role'] == r` for a message whose `role` can be read. */
  predicate HasRole(m: Message, r: string) {
    m.Message? && m.role == Some(Str(r))
  }

  /** The system text and the vendor `contents` collected from the messages. */
  datatype Conversation = Conversation(system: string, contents: seq<Json>)

  function TextPart(text: Json): Json {
    Obj(map["text" := text])
  }

  function InlineData(mime: string, data: string): Json {
    Obj(map["inlineData" := Obj(map["mimeType" := Str(mime), "data" := Str(data)])])
  }

  /**
   * The inline part for a `data:` URL: the header before the first comma gives
   * the MIME type (between `data:` and the next `:` or `;`), the rest is the
   * payload. None when there is no comma (the two-way unpacking raises ValueError).
   */
  function DataUrlPart(url: string): (r: Option<Json>)
    requires StartsWith(url, "data:")
    ensures r.None? <==> ',' !in url[5..]
  {
    var rest := url[5..];
    match IndexOf(rest, ',')
    case None => None
    case Some(i) => Some(InlineData(Before(Before(rest[..i], ':'), ';'), rest[i + 1..]))
  }

  /** One element of a list `content`: Err when Python raises, Ok(None) when it is skipped. */
  function UserPart(part: Json): Result<Option<Json>, string> {
    if !part.Obj? then Err("TypeError: content part is not a dictionary")
    else if "type" !in part.fields then Err("KeyError: 'type'")
    else if part.fields["type"] == Str("text") then
      if "text" in part.fields then Ok(Some(TextPart(part.fields["text"])))
      else Err("KeyError: 'text'")
    else if part.fields["type"] == Str("image_url") then
      if "image_url" !in part.fields then Err("KeyError: 'image_url'")
      else
        var image := part.fields["image_url"];
        if !image.Obj? then Err("TypeError: image_url is not a dictionary")
        else if "url" !in image.fields then Err("KeyError: 'url'")
        else if !image.fields["url"].Str? then Err("AttributeError: url has no startswith")
        else
          var url := image.fields["url"].s;
          if !StartsWith(url, "data:") then Ok(None)
          else match DataUrlPart(url)
            case None => Err("ValueError: not enough values to unpack")
            case Some(p) => Ok(Some(p))
    else Ok(None)
  }

  /** The vendor parts for a list `content`, in order; the first part that raises decides. */
  function UserParts(items: seq<Json>): (r: Result<seq<Json>, string>)
    ensures r.Ok? <==> forall i :: 0 <= i < |items| ==> UserPart(items[i]).Ok?
    ensures r.Ok? ==> |r.value| <= |items|
  {
    if items == [] then Ok([])
    else match UserPart(items[0])
      case Err(e) => Err(e)
      case Ok(p) =>
        match UserParts(items[1..])
        case Err(e) => Err(e)
        case Ok(ps) => Ok((if p.Some? then [p.value] else []) + ps)
  }

  /** The `contents` entry a message contributes (None for system and unknown roles), or Err. */
  function MessageEntry(m: Message): Result<Option<Json>, string> {
    if m.NotADict? then Err("TypeError: message is not subscriptable by a string")
    else if m.role.None? then Err("KeyError: 'role'")
    else if HasRole(m, "system") then
      if m.content.Some? && m.content.value.Str? then Ok(None)
      else if m.content.Some? then Err("TypeError: can only concatenate str to str")
      else Err("KeyError: 'content'")
    else if HasRole(m, "user") then
      match m.content
      case None => Err("KeyError: 'content'")
      case Some(Str(s)) => Ok(Some(Obj(map["role" := Str("user"), "parts" := Arr([TextPart(Str(s))])])))
      case Some(Arr(items)) =>
        (match UserParts(items)
         case Err(e) => Err(e)
         case Ok(ps) => Ok(Some(Obj(map["role" := Str("user"), "parts" := Arr(ps)]))))
      case Some(_) => Ok(Some(Obj(map["role" := Str("user"), "parts" := Arr([])])))
    else if HasRole(m, "assistant") then
      match m.content
      case None => Err("KeyError: 'content'")
      case Some(c) => Ok(Some(Obj(map["role" := Str("model"), "parts" := Arr([TextPart(c)])])))
    else Ok(None)
  }

  predicate Accepted(m: Message) {
    MessageEntry(m).Ok?
  }

  /** Every message of `ms` is accepted, checked from the last one back. */
  predicate AllAccepted(ms: seq<Message>) {
    ms == [] || (AllAccepted(ms[..|ms| - 1]) && Accepted(ms[|ms| - 1]))
  }

  lemma {:induction false} AllAcceptedIff(ms: seq<Message>)
    ensures AllAccepted(ms) <==> forall i :: 0 <= i < |ms| ==> Accepted(ms[i])
  {
    if ms != [] {
      var init := ms[..|ms| - 1];
      AllAcceptedIff(init);
      assert forall i :: 0 <= i < |init| ==> init[i] == ms[i];
    }
  }

  /** What a message adds to the system text: its content and a newline, for a system message. */
  function SystemLine(m: Message): string {
    if HasRole(m, "system") && m.content.Some? && m.content.value.Str? then m.content.value.s + "\n" else ""
  }

  /** The system text accumulated over the messages. */
  function SystemPrompt(ms: seq<Message>): string {
    if ms == [] then "" else SystemPrompt(ms[..|ms| - 1]) + SystemLine(ms[|ms| - 1])
  }

  /** The `contents` entry of one message, as a list of at most one. */
  function EntryOf(m: Message): seq<Json> {
    match MessageEntry(m)
    case Ok(Some(e)) => [e]
    case _ => []
  }

  /** The vendor `contents` of the messages, in order. */
  function History(ms: seq<Message>): seq<Json> {
    if ms == [] then [] else History(ms[..|ms| - 1]) + EntryOf(ms[|ms| - 1])
  }

  /** One more message extends the system text by its line and the history by its entry. */
  lemma PrefixStep(ms: seq<Message>, i: nat)
    requires i < |ms|
    ensures SystemPrompt(ms[..i + 1]) == SystemPrompt(ms[..i]) + SystemLine(ms[i])
    ensures History(ms[..i + 1]) == History(ms[..i]) + EntryOf(ms[i])
    ensures AllAccepted(ms[..i + 1]) <==> AllAccepted(ms[..i]) && Accepted(ms[i])
  {
    assert ms[..i + 1][..i] == ms[..i];
  }

  /**
   * One pass of the message loop: a system message extends the system text, a
   * user or assistant message adds its `contents` entry, and a malformed one
   * raises what Python raises.
   */
  method ConvertMessage(m: Message, system: string, history: seq<Json>) returns (r: Result<(string, seq<Json>), string>)
    ensures r.Err? <==> !Accepted(m)
    ensures r.Err? ==> r.error == MessageEntry(m).error
    ensures r.Ok? ==> r.value == (system + SystemLine(m), history + EntryOf(m))
  {
    var entry: Option<Json> := None;
    if m.NotADict? {
      return Err("TypeError: message is not subscriptable by a string");
    }
    if m.role.None? {
      return Err("KeyError: 'role'");
    }
    if HasRole(m, "system") {
      if m.content.None? {
        return Err("KeyError: 'content'");
      }
      if !m.content.value.Str? {
        return Err("TypeError: can only concatenate str to str");
      }
      var line := m.content.value.s + "\n";
      assert SystemLine(m) == line && EntryOf(m) == [] && history + [] == history;
      return Ok((system + line, history));
    } else if HasRole(m, "user") {
      if m.content.None? {
        return Err("KeyError: 'content'");
      }
      var parts: seq<Json> := [];
      match m.content.value {
        case Str(s) =>
          parts := [TextPart(Str(s))];
        case Arr(items) =>
          var converted := UserParts(items);
          if converted.Err? {
            return Err(converted.error);
          }
          parts := converted.value;
        case _ =>
      }
      entry := Some(Obj(map["role" := Str("user"), "parts" := Arr(parts)]));
    } else if HasRole(m, "assistant") {
      if m.content.None? {
        return Err("KeyError: 'content'");
      }
      entry := Some(Obj(map["role" := Str("model"), "parts" := Arr([TextPart(m.content.value)])]));
    }
    assert SystemLine(m) == "" && system + "" == system;
    assert EntryOf(m) == if entry.Some? then [entry.value] else [];
    return Ok((system, history + if entry.Some? then [entry.value] else []));
  }

  /** The message loop: system texts are concatenated, user and assistant messages become `contents`. */
  method ConvertMessages(ms: seq<Message>) returns (r: Result<Conversation, string>)
    ensures r.Ok? <==> forall i :: 0 <= i < |ms| ==> Accepted(ms[i])
    ensures r.Ok? ==> r.value == Conversation(SystemPrompt(ms), History(ms))
  {
    var system := "";
    var history: seq<Json> := [];
    var i := 0;
    while i < |ms|
      invariant 0 <= i <= |ms|
      invariant AllAccepted(ms[..i])
      invariant system == SystemPrompt(ms[..i])
      invariant history == History(ms[..i])
    {
      var next := ConvertMessage(ms[i], system, history);
      if next.Err? {
        return Err(next.error);
      }
      PrefixStep(ms, i);
      system, history := next.value.0, next.value.1;
      i := i + 1;
    }
    assert ms[..|ms|] == ms;
    AllAcceptedIff(ms);
    return Ok(Conversation(system, history));
  }

  /** The vendor role of a `contents` entry. */
  function Role(entry: Json): Json {
    if entry.Obj? && "role" in entry.fields then entry.fields["role"] else Null
  }

  function Roles(entries: seq<Json>): (r: seq<Json>)
    ensures |r| == |entries|
  {
    seq(|entries|, j requires 0 <= j < |entries| => Role(entries[j]))
  }

  /** The vendor role a chat message should have: user stays user, assistant becomes model, others have none. */
  function VendorRole(m: Message): seq<Json> {
    if HasRole(m, "user") then [Str("user")] else if HasRole(m, "assistant") then [Str("model")] else []
  }

  function VendorRoles(ms: seq<Message>): seq<Json> {
    if ms == [] then [] else VendorRoles(ms[..|ms| - 1]) + VendorRole(ms[|ms| - 1])
  }

  /** An accepted message contributes an entry exactly when it has a vendor role, and with that role. */
  lemma EntryRole(m: Message)
    requires Accepted(m)
    ensures Roles(EntryOf(m)) == VendorRole(m)
  {
  }

  lemma RolesAppend(a: seq<Json>, b: seq<Json>)
    ensures Roles(a + b) == Roles(a) + Roles(b)
  {
  }

  /** `contents` follows the chat turn for turn: one entry per user or assistant message, with its vendor role. */
  lemma {:induction false} HistoryRoles(ms: seq<Message>)
    requires forall i :: 0 <= i < |ms| ==> Accepted(ms[i])
    ensures Roles(History(ms)) == VendorRoles(ms)
  {
    if ms != [] {
      var init, last := ms[..|ms| - 1], ms[|ms| - 1];
      forall i | 0 <= i < |init| ensures Accepted(init[i]) {
        assert init[i] == ms[i];
      }
      HistoryRoles(init);
      EntryRole(last);
      RolesAppend(History(init), EntryOf(last));
    }
  }

  /** The system text is non-empty exactly when some message is a system message. */
  lemma {:induction false} SystemPromptPresent(ms: seq<Message>)
    requires forall i :: 0 <= i < |ms| ==> Accepted(ms[i])
    ensures SystemPrompt(ms) != "" <==> exists i :: 0 <= i < |ms| && HasRole(ms[i], "system")
  {
    if ms != [] {
      var init := ms[..|ms| - 1];
      SystemPromptPresent(init);
      if exists i :: 0 <= i < |init| && HasRole(init[i], "system") {
        var i :| 0 <= i < |init| && HasRole(init[i], "system");
        assert HasRole(ms[i], "system");
      }
      if HasRole(ms[|ms| - 1], "system") {
        assert SystemLine(ms[|ms| - 1]) != "";
      } else {
        forall i | 0 <= i < |ms| && HasRole(ms[i], "system")
          ensures 0 <= i < |init| && HasRole(init[i], "system")
        {
        }
      }
    }
  }

  /** A `data:` URL is split into its MIME type and its payload, which may itself contain commas. */
  lemma DataUrlSplit(mime: string, data: string)
    requires ',' !in mime && ':' !in mime && ';' !in mime
    ensures StartsWith("data:" + mime + ";base64," + data, "data:")
    ensures DataUrlPart("data:" + mime + ";base64," + data) == Some(InlineData(mime, data))
  {
    var url := "data:" + mime + ";base64," + data;
    assert url[..5] == "data:";
    var rest := url[5..];
    assert rest == mime + ";base64," + data;
    var k := |mime| + 7;
    assert rest[k] == ',';
    assert ',' !in rest[..k] by {
      assert rest[..k] == mime + ";base64";
    }
    assert IndexOf(rest, ',') == Some(k);
    assert rest[..k] == mime + ";base64";
    assert Before(mime + ";base64", ':') == mime + ";base64" by {
      assert ':' !in mime + ";base64";
    }
    assert Before(mime + ";base64", ';') == mime by {
      assert IndexOf(mime + ";base64", ';') == Some(|mime|);
    }
    assert rest[k + 1..] == data;
  }

  /** An image given by any URL other than a `data:` URL is dropped. */
  lemma RemoteImageDropped(url: string)
    requires !StartsWith(url, "data:")
    ensures UserPart(Obj(map["type" := Str("image_url"), "image_url" := Obj(map["url" := Str(url)])])) == Ok(None)
  {
  }

  // ---------------------------------------------------------------------------
  // Model-name suffixes
  // ---------------------------------------------------------------------------

  datatype Thinking = Low | High
  datatype Resolution = R1K | R2K | R4K

  /** The vendor model and the modes its name's suffixes select. */
  datatype ModelChoice = ModelChoice(base: string, thinking: Option<Thinking>, resolution: Option<Resolution>)

  function ThinkingSuffix(t: Option<Thinking>): string {
    match t
    case None => ""
    case Some(Low) => "-low"
    case Some(High) => "-high"
  }

  function ResolutionSuffix(r: Option<Resolution>): string {
    match r
    case None => ""
    case Some(R1K) => "-1k"
    case Some(R2K) => "-2k"
    case Some(R4K) => "-4k"
  }

  /** A trailing `-low`/`-high`, removed first. */
  function SplitThinking(name: string): (string, Option<Thinking>) {
    if EndsWith(name, "-low") then (name[..|name| - 4], Some(Low))
    else if EndsWith(name, "-high") then (name[..|name| - 5], Some(High))
    else (name, None)
  }

  /** A trailing `-1k`/`-2k`/`-4k`, removed from what is left. */
  function SplitResolution(name: string): (string, Option<Resolution>) {
    if EndsWith(name, "-1k") then (name[..|name| - 3], Some(R1K))
    else if EndsWith(name, "-2k") then (name[..|name| - 3], Some(R2K))
    else if EndsWith(name, "-4k") then (name[..|name| - 3], Some(R4K))
    else (name, None)
  }

  /** The alias map is consulted first, then the thinking suffix, then the resolution suffix. */
  function DecodeModel(model: string, aliases: map<string, string>): ModelChoice {
    var target := if model in aliases then aliases[model] else model;
    var (t1, thinking) := SplitThinking(target);
    var (t2, resolution) := SplitResolution(t1);
    ModelChoice(t2, thinking, resolution)
  }

  /** The name that selects a choice without going through an alias. */
  function ModelName(c: ModelChoice): string {
    c.base + ResolutionSuffix(c.resolution) + ThinkingSuffix(c.thinking)
  }

  lemma ThinkingSplitRestores(name: string)
    ensures SplitThinking(name).0 + ThinkingSuffix(SplitThinking(name).1) == name
  {
    if EndsWith(name, "-low") {
      DropSuffix(name, "-low");
    } else if EndsWith(name, "-high") {
      DropSuffix(name, "-high");
    }
  }

  lemma ResolutionSplitRestores(name: string)
    ensures SplitResolution(name).0 + ResolutionSuffix(SplitResolution(name).1) == name
  {
    if EndsWith(name, "-1k") {
      DropSuffix(name, "-1k");
    } else if EndsWith(name, "-2k") {
      DropSuffix(name, "-2k");
    } else if EndsWith(name, "-4k") {
      DropSuffix(name, "-4k");
    }
  }

  /** Decoding only splits the name: the parts put back together give the resolved name. */
  lemma DecodedNameRestores(model: string, aliases: map<string, string>)
    ensures ModelName(DecodeModel(model, aliases)) == if model in aliases then aliases[model] else model
  {
    var target := if model in aliases then aliases[model] else model;
    ThinkingSplitRestores(target);
    ResolutionSplitRestores(SplitThinking(target).0);
  }

  lemma ThinkingSplitOf(p: string, t: Option<Thinking>)
    requires t.None? ==> !EndsWith(p, "-low") && !EndsWith(p, "-high")
    ensures SplitThinking(p + ThinkingSuffix(t)) == (p, t)
  {
    match t
    case None =>
      assert p + "" == p;
    case Some(Low) =>
      EndsWithAppend(p, "-low", "-low");
    case Some(High) =>
      EndsWithAppend(p, "-high", "-low");
      EndsWithAppend(p, "-high", "-high");
  }

  lemma ResolutionSplitOf(p: string, r: Option<Resolution>)
    requires r.None? ==> !EndsWith(p, "-1k") && !EndsWith(p, "-2k") && !EndsWith(p, "-4k")
    ensures SplitResolution(p + ResolutionSuffix(r)) == (p, r)
  {
    var suffix := ResolutionSuffix(r);
    if r.None? {
      assert p + suffix == p;
    } else {
      EndsWithAppend(p, suffix, "-1k");
      EndsWithAppend(p, suffix, "-2k");
      EndsWithAppend(p, suffix, "-4k");
    }
  }

  /** A name whose base ends in no suffix that decoding would consume decodes back to its parts. */
  lemma NameDecodes(c: ModelChoice)
    requires c.thinking.None? ==>
      !EndsWith(c.base + ResolutionSuffix(c.resolution), "-low") &&
      !EndsWith(c.base + ResolutionSuffix(c.resolution), "-high")
    requires c.resolution.None? ==>
      !EndsWith(c.base, "-1k") && !EndsWith(c.base, "-2k") && !EndsWith(c.base, "-4k")
    ensures DecodeModel(ModelName(c), map[]) == c
  {
    ThinkingSplitOf(c.base + ResolutionSuffix(c.resolution), c.thinking);
    ResolutionSplitOf(c.base, c.resolution);
  }

  /** The thinking suffix is only recognised last: `m-4k-high` is `m` with both modes. */
  lemma ThinkingThenResolution()
    ensures DecodeModel("m-4k-high", map[]) == ModelChoice("m", Some(High), Some(R4K))
  {
    assert EndsWith("m-4k-high", "-high");
    assert !EndsWith("m-4k-high", "-low");
    assert "m-4k-high"[..4] == "m-4k";
    assert EndsWith("m-4k", "-4k");
    assert !EndsWith("m-4k", "-1k") && !EndsWith("m-4k", "-2k");
    assert "m-4k"[..1] == "m";
  }

  /** ...whereas in `m-high-4k` the `-high` is part of the base and no thinking mode is chosen. */
  lemma ResolutionHidesThinking()
    ensures DecodeModel("m-high-4k", map[]) == ModelChoice("m-high", None, Some(R4K))
  {
    assert !EndsWith("m-high-4k", "-high") && !EndsWith("m-high-4k", "-low");
    assert EndsWith("m-high-4k", "-4k");
    assert !EndsWith("m-high-4k", "-1k") && !EndsWith("m-high-4k", "-2k");
    assert "m-high-4k"[..6] == "m-high";
  }

  // ---------------------------------------------------------------------------
  // generationConfig
  // ---------------------------------------------------------------------------

  /** The client's sampling arguments; None is an absent argument, Some(Null) one passed as None. */
  datatype Sampling = Sampling(
    temperature: Option<Json>, topP: Option<Json>, topK: Option<Json>,
    maxTokens: Option<Json>, stop: Option<Json>)

  /** An argument that the gateway applies: present and not None. */
  predicate Given(arg: Option<Json>) {
    arg.Some? && arg.value != Null
  }

  function Budget(t: Thinking): int {
    match t
    case Low => 8192
    case High => 32768
  }

  function ThinkingConfig(budget: int): Json {
    Obj(map["includeThoughts" := Bool(true), "budget_token_count" := Num(budget), "thinkingBudget" := Num(budget)])
  }

  function SizeLabel(r: Resolution): string {
    match r
    case R1K => "1K"
    case R2K => "2K"
    case R4K => "4K"
  }

  /** The keys of `generationConfig` the gateway may write or remove. */
  const EditedKeys: set<string> := {
    "thinkingConfig", "thinking_config", "responseModalities", "imageConfig", "sampleImageSize",
    "width", "height", "maxOutputTokens", "temperature", "topP", "topK", "stopSequences"
  }

  /** `key` is present in both maps with the same value, or absent from both. */
  predicate Same(a: map<string, Json>, b: map<string, Json>, key: string) {
    (key in a <==> key in b) && (key in a ==> a[key] == b[key])
  }

  /** The stored `maxOutputTokens` limit after the gateway's floor: missing or below 8192 becomes 65535. */
  function RaisedLimit(before: map<string, Json>): Json {
    if "maxOutputTokens" !in before then Num(65535)
    else match before["maxOutputTokens"]
      case Num(n) => if n < 8192 then Num(65535) else Num(n)
      case Bool(_) => Num(65535)
      case other => other
  }

  /** A client argument that cannot be converted (`float(x)`/`int(x)` raises). */
  predicate SamplingRejected(s: Sampling, asFloat: Json -> Option<Json>, asInt: Json -> Option<int>) {
    (Given(s.temperature) && asFloat(s.temperature.value).None?) ||
    (Given(s.topP) && asFloat(s.topP.value).None?) ||
    (Given(s.topK) && asInt(s.topK.value).None?) ||
    (Given(s.maxTokens) && asInt(s.maxTokens.value).None?)
  }

  /** The conditions under which editing `generationConfig` raises. */
  predicate GenerationRejected(gen: Json, choice: ModelChoice, s: Sampling,
                               asFloat: Json -> Option<Json>, asInt: Json -> Option<int>) {
    !gen.Obj? ||
    (choice.resolution.Some? && "imageConfig" in gen.fields && !gen.fields["imageConfig"].Obj?) ||
    ("maxOutputTokens" in gen.fields &&
      !gen.fields["maxOutputTokens"].Num? && !gen.fields["maxOutputTokens"].Bool?) ||
    SamplingRejected(s, asFloat, asInt)
  }

  /** Every key outside `keys` is as it was. */
  ghost predicate Untouched(g: map<string, Json>, before: map<string, Json>, keys: set<string>) {
    forall k :: k !in keys ==> Same(g, before, k)
  }

  /** Only a thinking suffix leaves a thinking configuration behind, with its budget under both names. */
  predicate ThinkingApplied(g: map<string, Json>, before: map<string, Json>, choice: ModelChoice) {
    match choice.thinking
    case Some(t) =>
      "thinkingConfig" in g && g["thinkingConfig"] == ThinkingConfig(Budget(t)) && Same(g, before, "thinking_config")
    case None => "thinkingConfig" !in g && "thinking_config" !in g
  }

  /** What the edited `imageConfig` holds when a resolution suffix was given. */
  ghost predicate ImageConfigured(g: map<string, Json>, before: map<string, Json>, r: Resolution) {
    var ic0 := if "imageConfig" in before && before["imageConfig"].Obj? then before["imageConfig"].fields else map[];
    "imageConfig" in g && g["imageConfig"].Obj? &&
    var ic := g["imageConfig"].fields;
    "imageSize" in ic && ic["imageSize"] == Str(SizeLabel(r)) &&
    "personGeneration" in ic && ic["personGeneration"] == Str("ALLOW_ALL") &&
    "imageOutputOptions" in ic &&
    ic["imageOutputOptions"] == Lookup(ic0, "imageOutputOptions", Obj(map["mimeType" := Str("image/png")])) &&
    "aspectRatio" in ic && ic["aspectRatio"] == Lookup(ic0, "aspectRatio", Str("1:1")) &&
    Untouched(ic, ic0, {"imageSize", "personGeneration", "imageOutputOptions", "aspectRatio"})
  }

  /** A resolution suffix configures image output; without one every image setting is removed. */
  ghost predicate ImageApplied(g: map<string, Json>, before: map<string, Json>, choice: ModelChoice) {
    match choice.resolution
    case Some(r) =>
      ImageConfigured(g, before, r) &&
      "responseModalities" in g &&
      g["responseModalities"] == Lookup(before, "responseModalities", Arr([Str("TEXT"), Str("IMAGE")])) &&
      Same(g, before, "sampleImageSize") && Same(g, before, "width") && Same(g, before, "height")
    case None =>
      "imageConfig" !in g && "sampleImageSize" !in g && "width" !in g && "height" !in g &&
      Same(g, before, "responseModalities")
  }

  /** The client's sampling arguments, converted, override the template; `stop` always becomes a list. */
  predicate SamplingApplied(g: map<string, Json>, before: map<string, Json>, s: Sampling,
                            asFloat: Json -> Option<Json>, asInt: Json -> Option<int>)
    requires !SamplingRejected(s, asFloat, asInt)
  {
    (if Given(s.temperature) then "temperature" in g && g["temperature"] == asFloat(s.temperature.value).value
     else Same(g, before, "temperature")) &&
    (if Given(s.topP) then "topP" in g && g["topP"] == asFloat(s.topP.value).value
     else Same(g, before, "topP")) &&
    (if Given(s.topK) then "topK" in g && g["topK"] == Num(asInt(s.topK.value).value)
     else Same(g, before, "topK")) &&
    (if Given(s.stop) then
       "stopSequences" in g && g["stopSequences"].Arr? &&
       g["stopSequences"] == (if s.stop.value.Arr? then s.stop.value else Arr([s.stop.value]))
     else Same(g, before, "stopSequences"))
  }

  /** The edited `generationConfig` `g`, given the template's `before` and the request. */
  ghost predicate GenerationConfigured(g: map<string, Json>, before: map<string, Json>, choice: ModelChoice,
                                       s: Sampling, asFloat: Json -> Option<Json>, asInt: Json -> Option<int>)
    requires !SamplingRejected(s, asFloat, asInt)
  {
    ThinkingApplied(g, before, choice) &&
    ImageApplied(g, before, choice) &&
    "maxOutputTokens" in g &&
    g["maxOutputTokens"] == (if Given(s.maxTokens) then Num(asInt(s.maxTokens.value).value) else RaisedLimit(before)) &&
    SamplingApplied(g, before, s, asFloat, asInt) &&
    Untouched(g, before, EditedKeys)
  }

  /** The keys the model-name suffixes decide. */
  const ModelKeys: set<string> :=
    {"thinkingConfig", "thinking_config", "responseModalities", "imageConfig", "sampleImageSize", "width", "height"}

  /** The keys the output limit and the client's sampling arguments decide. */
  const LimitKeys: set<string> := {"maxOutputTokens", "temperature", "topP", "topK", "stopSequences"}

  /** The thinking block: a suffix's budget, or a budget from `max_tokens` on a gemini-3-pro model. */
  method ApplyThinking(g: map<string, Json>, choice: ModelChoice, s: Sampling, asInt: Json -> Option<int>)
    returns (r: Result<map<string, Json>, string>)
    ensures r.Err? <==>
      choice.thinking.None? && Contains(choice.base, "gemini-3-pro") && Given(s.maxTokens) &&
      asInt(s.maxTokens.value).None?
    ensures r.Ok? && choice.thinking.Some? ==>
      "thinkingConfig" in r.value && r.value["thinkingConfig"] == ThinkingConfig(Budget(choice.thinking.value))
    ensures r.Ok? ==> Untouched(r.value, g, {"thinkingConfig"})
  {
    match choice.thinking {
      case Some(t) =>
        return Ok(g["thinkingConfig" := ThinkingConfig(Budget(t))]);
      case None =>
        if Contains(choice.base, "gemini-3-pro") && Given(s.maxTokens) {
          var budget := asInt(s.maxTokens.value);
          if budget.None? {
            return Err("ValueError: invalid max_tokens");
          }
          return Ok(g["thinkingConfig" := ThinkingConfig(budget.value)]);
        }
        return Ok(g);
    }
  }

  /** The image block: modalities and image settings for a resolution suffix. */
  method ApplyResolution(g: map<string, Json>, res: Resolution) returns (r: Result<map<string, Json>, string>)
    ensures r.Err? <==> "imageConfig" in g && !g["imageConfig"].Obj?
    ensures r.Ok? ==> ImageConfigured(r.value, g, res)
    ensures r.Ok? ==>
      "responseModalities" in r.value &&
      r.value["responseModalities"] == Lookup(g, "responseModalities", Arr([Str("TEXT"), Str("IMAGE")]))
    ensures r.Ok? ==> Untouched(r.value, g, {"imageConfig", "responseModalities"})
  {
    var out := g;
    if "responseModalities" !in out {
      out := out["responseModalities" := Arr([Str("TEXT"), Str("IMAGE")])];
    }
    if "imageConfig" !in out {
      out := out["imageConfig" := Obj(map[])];
    }
    if !out["imageConfig"].Obj? {
      return Err("TypeError: imageConfig is not a dictionary");
    }
    var ic := out["imageConfig"].fields;
    ic := ic["imageSize" := Str(SizeLabel(res))];
    ic := ic["personGeneration" := Str("ALLOW_ALL")];
    if "imageOutputOptions" !in ic {
      ic := ic["imageOutputOptions" := Obj(map["mimeType" := Str("image/png")])];
    }
    if "aspectRatio" !in ic {
      ic := ic["aspectRatio" := Str("1:1")];
    }
    return Ok(out["imageConfig" := Obj(ic)]);
  }

  /** The thinking and image blocks, then the removal of whatever the chosen modes do not use. */
  method ApplyModelChoice(g0: map<string, Json>, choice: ModelChoice, s: Sampling, asInt: Json -> Option<int>)
    returns (r: Result<map<string, Json>, string>)
    ensures r.Err? <==>
      (choice.thinking.None? && Contains(choice.base, "gemini-3-pro") && Given(s.maxTokens) &&
       asInt(s.maxTokens.value).None?) ||
      (choice.resolution.Some? && "imageConfig" in g0 && !g0["imageConfig"].Obj?)
    ensures r.Ok? ==> ThinkingApplied(r.value, g0, choice)
    ensures r.Ok? ==> ImageApplied(r.value, g0, choice)
    ensures r.Ok? ==> Untouched(r.value, g0, ModelKeys)
  {
    var thought := ApplyThinking(g0, choice, s, asInt);
    if thought.Err? {
      return Err(thought.error);
    }
    var g1 := thought.value;
    assert Same(g1, g0, "imageConfig");
    var g2 := g1;
    if choice.resolution.Some? {
      var imaged := ApplyResolution(g1, choice.resolution.value);
      if imaged.Err? {
        return Err(imaged.error);
      }
      g2 := imaged.value;
    }
    var g3 := g2;
    if choice.thinking.None? {
      g3 := g3 - {"thinkingConfig", "thinking_config"};
    }
    if choice.resolution.None? {
      g3 := g3 - {"imageConfig", "sampleImageSize", "width", "height"};
    }
    ThinkingStageKept(g0, g1, g2, g3, choice);
    ImageStageKept(g0, g1, g2, g3, choice);
    assert Untouched(g3, g0, ModelKeys) by {
      forall k | k !in ModelKeys
        ensures Same(g3, g0, k)
      {
        assert Same(g3, g2, k) && Same(g2, g1, k) && Same(g1, g0, k);
      }
    }
    return Ok(g3);
  }

  /** What the model stage removes for the modes that were not chosen. */
  function Unused(choice: ModelChoice): set<string> {
    (if choice.thinking.None? then {"thinkingConfig", "thinking_config"} else {}) +
    (if choice.resolution.None? then {"imageConfig", "sampleImageSize", "width", "height"} else {})
  }

  /** The thinking block followed by the image block and the clean-up gives the thinking configuration. */
  lemma ThinkingStageKept(g0: map<string, Json>, g1: map<string, Json>, g2: map<string, Json>, g3: map<string, Json>,
                          choice: ModelChoice)
    requires choice.thinking.Some? ==>
      "thinkingConfig" in g1 && g1["thinkingConfig"] == ThinkingConfig(Budget(choice.thinking.value))
    requires Untouched(g1, g0, {"thinkingConfig"})
    requires Untouched(g2, g1, {"imageConfig", "responseModalities"})
    requires g3 == g2 - Unused(choice)
    ensures ThinkingApplied(g3, g0, choice)
  {
    assert Same(g2, g1, "thinkingConfig") && Same(g2, g1, "thinking_config") && Same(g1, g0, "thinking_config");
  }

  /** ...and the image configuration. */
  lemma ImageStageKept(g0: map<string, Json>, g1: map<string, Json>, g2: map<string, Json>, g3: map<string, Json>,
                       choice: ModelChoice)
    requires Untouched(g1, g0, {"thinkingConfig"})
    requires choice.resolution.Some? ==>
      ImageConfigured(g2, g1, choice.resolution.value) && "responseModalities" in g2 &&
      g2["responseModalities"] == Lookup(g1, "responseModalities", Arr([Str("TEXT"), Str("IMAGE")])) &&
      Untouched(g2, g1, {"imageConfig", "responseModalities"})
    requires choice.resolution.None? ==> g2 == g1
    requires g3 == g2 - Unused(choice)
    ensures ImageApplied(g3, g0, choice)
  {
    assert Same(g1, g0, "imageConfig") && Same(g1, g0, "responseModalities");
    assert Same(g1, g0, "sampleImageSize") && Same(g1, g0, "width") && Same(g1, g0, "height");
    if choice.resolution.Some? {
      assert Same(g2, g1, "sampleImageSize") && Same(g2, g1, "width") && Same(g2, g1, "height");
    }
  }

  /** The output-limit block: a missing or low limit is raised to 65535. */
  method FloorOutputLimit(g: map<string, Json>) returns (r: Result<map<string, Json>, string>)
    ensures r.Err? <==> "maxOutputTokens" in g && !g["maxOutputTokens"].Num? && !g["maxOutputTokens"].Bool?
    ensures r.Ok? ==> "maxOutputTokens" in r.value && r.value["maxOutputTokens"] == RaisedLimit(g)
    ensures r.Ok? ==> Untouched(r.value, g, {"maxOutputTokens"})
  {
    if "maxOutputTokens" !in g {
      return Ok(g["maxOutputTokens" := Num(65535)]);
    }
    match g["maxOutputTokens"] {
      case Num(n) =>
        if n < 8192 {
          return Ok(g["maxOutputTokens" := Num(65535)]);
        }
        return Ok(g);
      case Bool(_) =>
        return Ok(g["maxOutputTokens" := Num(65535)]);
      case _ =>
        return Err("TypeError: '<' not supported for maxOutputTokens");
    }
  }

  /** The client's sampling arguments, applied in the gateway's order. */
  method ApplySampling(g: map<string, Json>, s: Sampling, asFloat: Json -> Option<Json>, asInt: Json -> Option<int>)
    returns (r: Result<map<string, Json>, string>)
    ensures r.Err? <==> SamplingRejected(s, asFloat, asInt)
    ensures r.Ok? ==> SamplingApplied(r.value, g, s, asFloat, asInt)
    ensures r.Ok? ==>
      if Given(s.maxTokens) then "maxOutputTokens" in r.value && r.value["maxOutputTokens"] == Num(asInt(s.maxTokens.value).value)
      else Same(r.value, g, "maxOutputTokens")
    ensures r.Ok? ==> Untouched(r.value, g, LimitKeys)
  {
    if SamplingRejected(s, asFloat, asInt) {
      return Err("ValueError: invalid sampling argument");
    }
    var out := g;
    if Given(s.temperature) {
      out := out["temperature" := asFloat(s.temperature.value).value];
    }
    if Given(s.topP) {
      out := out["topP" := asFloat(s.topP.value).value];
    }
    if Given(s.topK) {
      out := out["topK" := Num(asInt(s.topK.value).value)];
    }
    if Given(s.maxTokens) {
      out := out["maxOutputTokens" := Num(asInt(s.maxTokens.value).value)];
    }
    if Given(s.stop) {
      out := out["stopSequences" := if s.stop.value.Arr? then s.stop.value else Arr([s.stop.value])];
    }
    return Ok(out);
  }

  /** The output limit and the sampling overrides. */
  method ApplyLimits(g: map<string, Json>, s: Sampling, asFloat: Json -> Option<Json>, asInt: Json -> Option<int>)
    returns (r: Result<map<string, Json>, string>)
    ensures r.Err? <==>
      ("maxOutputTokens" in g && !g["maxOutputTokens"].Num? && !g["maxOutputTokens"].Bool?) ||
      SamplingRejected(s, asFloat, asInt)
    ensures r.Ok? ==>
      "maxOutputTokens" in r.value &&
      r.value["maxOutputTokens"] == (if Given(s.maxTokens) then Num(asInt(s.maxTokens.value).value) else RaisedLimit(g))
    ensures r.Ok? ==> SamplingApplied(r.value, g, s, asFloat, asInt)
    ensures r.Ok? ==> Untouched(r.value, g, LimitKeys)
  {
    var floored := FloorOutputLimit(g);
    if floored.Err? {
      return Err(floored.error);
    }
    var g1 := floored.value;
    r := ApplySampling(g1, s, asFloat, asInt);
    if r.Ok? {
      assert Same(g1, g, "temperature") && Same(g1, g, "topP") && Same(g1, g, "topK");
      assert Same(g1, g, "stopSequences");
      assert Untouched(r.value, g, LimitKeys) by {
        forall k | k !in LimitKeys
          ensures Same(r.value, g, k)
        {
          assert Same(r.value, g1, k) && Same(g1, g, k);
        }
      }
    }
  }

  /** Edits the template's `generationConfig` block by block, in the gateway's order. */
  method ConfigureGeneration(gen: Json, choice: ModelChoice, s: Sampling,
                             asFloat: Json -> Option<Json>, asInt: Json -> Option<int>)
    returns (r: Result<map<string, Json>, string>)
    ensures r.Err? <==> GenerationRejected(gen, choice, s, asFloat, asInt)
    ensures r.Ok? ==> GenerationConfigured(r.value, gen.fields, choice, s, asFloat, asInt)
  {
    if !gen.Obj? {
      return Err("TypeError: generationConfig is not a dictionary");
    }
    var chosen := ApplyModelChoice(gen.fields, choice, s, asInt);
    if chosen.Err? {
      return Err(chosen.error);
    }
    assert Same(chosen.value, gen.fields, "maxOutputTokens");
    r := ApplyLimits(chosen.value, s, asFloat, asInt);
    if r.Ok? {
      StagesCompose(gen.fields, chosen.value, r.value, choice, s, asFloat, asInt);
    }
  }

  /** The two stages together edit `generationConfig` as a whole. */
  lemma StagesCompose(g0: map<string, Json>, g1: map<string, Json>, g2: map<string, Json>, choice: ModelChoice,
                      s: Sampling, asFloat: Json -> Option<Json>, asInt: Json -> Option<int>)
    requires !SamplingRejected(s, asFloat, asInt)
    requires ThinkingApplied(g1, g0, choice) && ImageApplied(g1, g0, choice) && Untouched(g1, g0, ModelKeys)
    requires "maxOutputTokens" in g2
    requires g2["maxOutputTokens"] == (if Given(s.maxTokens) then Num(asInt(s.maxTokens.value).value) else RaisedLimit(g1))
    requires SamplingApplied(g2, g1, s, asFloat, asInt) && Untouched(g2, g1, LimitKeys)
    ensures GenerationConfigured(g2, g0, choice, s, asFloat, asInt)
  {
    ModelStageKept(g0, g1, g2, choice);
    LimitStageKept(g0, g1, g2, s, asFloat, asInt);
    assert Untouched(g2, g0, EditedKeys) by {
      forall k | k !in EditedKeys
        ensures Same(g2, g0, k)
      {
        assert Same(g2, g1, k) && Same(g1, g0, k);
      }
    }
  }

  /** The limit stage leaves what the model stage decided alone. */
  lemma ModelStageKept(g0: map<string, Json>, g1: map<string, Json>, g2: map<string, Json>, choice: ModelChoice)
    requires ThinkingApplied(g1, g0, choice) && ImageApplied(g1, g0, choice)
    requires Untouched(g2, g1, LimitKeys)
    ensures ThinkingApplied(g2, g0, choice) && ImageApplied(g2, g0, choice)
  {
    assert Same(g2, g1, "thinkingConfig") && Same(g2, g1, "thinking_config");
    assert Same(g2, g1, "imageConfig") && Same(g2, g1, "responseModalities");
    assert Same(g2, g1, "sampleImageSize") && Same(g2, g1, "width") && Same(g2, g1, "height");
  }

  /** The model stage leaves what the limit stage reads alone. */
  lemma LimitStageKept(g0: map<string, Json>, g1: map<string, Json>, g2: map<string, Json>,
                       s: Sampling, asFloat: Json -> Option<Json>, asInt: Json -> Option<int>)
    requires !SamplingRejected(s, asFloat, asInt)
    requires Untouched(g1, g0, ModelKeys)
    requires SamplingApplied(g2, g1, s, asFloat, asInt)
    ensures RaisedLimit(g1) == RaisedLimit(g0)
    ensures SamplingApplied(g2, g0, s, asFloat, asInt)
  {
    assert Same(g1, g0, "maxOutputTokens");
    assert Same(g1, g0, "temperature") && Same(g1, g0, "topP");
    assert Same(g1, g0, "topK") && Same(g1, g0, "stopSequences");
  }

  // ---------------------------------------------------------------------------
  // The request body
  // ---------------------------------------------------------------------------

  function SafetySetting(category: string): Json {
    Obj(map["category" := Str(category), "threshold" := Str("BLOCK_NONE")])
  }

  /** Every harm category the vendor filters on, each switched off. */
  const SafetySettings: Json := Arr([
    SafetySetting("HARM_CATEGORY_HARASSMENT"),
    SafetySetting("HARM_CATEGORY_HATE_SPEECH"),
    SafetySetting("HARM_CATEGORY_SEXUALLY_EXPLICIT"),
    SafetySetting("HARM_CATEGORY_DANGEROUS_CONTENT"),
    SafetySetting("HARM_CATEGORY_CIVIC_INTEGRITY")
  ])

  /** The template's `variables`, or an empty dictionary when the template has none. */
  function TemplateVariables(template: Json): Json
    requires template.Obj?
  {
    Lookup(template.fields, "variables", Obj(map[]))
  }

  /** The template's `generationConfig`, or an empty dictionary when it has none. */
  function TemplateGeneration(vars: map<string, Json>): Json {
    Lookup(vars, "generationConfig", Obj(map[]))
  }

  /** The `systemInstruction` built from the accumulated system text. */
  function SystemInstruction(system: string): Json {
    Obj(map["parts" := Arr([TextPart(Str(Strip(system)))])])
  }

  /** The template's `variables` with this request's contents, safety settings, model and generation config. */
  function Rewritten(before: map<string, Json>, c: Conversation, base: string, g: map<string, Json>): map<string, Json> {
    var v1 := before["contents" := Arr(c.contents)];
    var v2 := if c.system != "" then v1["systemInstruction" := SystemInstruction(c.system)] else v1;
    v2["safetySettings" := SafetySettings]["model" := Str(base)]["generationConfig" := Obj(g)]
  }

  /**
   * What the rewritten `variables` hold, against the template's `before`, for the
   * converted messages `c` and the model `base`; `generationConfig` is stated apart.
   */
  ghost predicate VariablesRewritten(vars: map<string, Json>, before: map<string, Json>, c: Conversation, base: string) {
    "contents" in vars && vars["contents"] == Arr(c.contents) &&
    (if c.system != "" then "systemInstruction" in vars && vars["systemInstruction"] == SystemInstruction(c.system)
     else Same(vars, before, "systemInstruction")) &&
    "safetySettings" in vars && vars["safetySettings"] == SafetySettings &&
    "model" in vars && vars["model"] == Str(base) &&
    "generationConfig" in vars &&
    Untouched(vars, before, {"contents", "systemInstruction", "safetySettings", "model", "generationConfig"})
  }

  lemma RewrittenVariables(before: map<string, Json>, c: Conversation, base: string, g: map<string, Json>)
    ensures VariablesRewritten(Rewritten(before, c, base, g), before, c, base)
    ensures Rewritten(before, c, base, g)["generationConfig"] == Obj(g)
  {
    var v1 := before["contents" := Arr(c.contents)];
    var v2 := if c.system != "" then v1["systemInstruction" := SystemInstruction(c.system)] else v1;
    var r := v2["safetySettings" := SafetySettings]["model" := Str(base)]["generationConfig" := Obj(g)];
    assert r == Rewritten(before, c, base, g);
    forall k | k !in {"contents", "systemInstruction", "safetySettings", "model", "generationConfig"}
      ensures Same(r, before, k)
    {
      assert Same(v2, before, k);
    }
    if c.system == "" {
      assert Same(v2, before, "systemInstruction");
    }
  }

  /** The template shapes and client arguments on which rewriting the template raises. */
  predicate TemplateRejected(template: Json, choice: ModelChoice, s: Sampling,
                             asFloat: Json -> Option<Json>, asInt: Json -> Option<int>) {
    !template.Obj? || !TemplateVariables(template).Obj? ||
    GenerationRejected(TemplateGeneration(TemplateVariables(template).fields), choice, s, asFloat, asInt)
  }

  /**
   * `body` is the template rewritten for the conversation `c`: query signature and
   * operation name kept, `variables` rewritten and its `generationConfig` edited.
   */
  ghost predicate BodyBuilt(body: Json, template: Json, c: Conversation, choice: ModelChoice, s: Sampling,
                            asFloat: Json -> Option<Json>, asInt: Json -> Option<int>) {
    template.Obj? && TemplateVariables(template).Obj? &&
    TemplateGeneration(TemplateVariables(template).fields).Obj? && !SamplingRejected(s, asFloat, asInt) &&
    body.Obj? && body.fields.Keys == {"querySignature", "operationName", "variables"} &&
    body.fields["querySignature"] == Lookup(template.fields, "querySignature", Null) &&
    body.fields["operationName"] == Lookup(template.fields, "operationName", Null) &&
    body.fields["variables"].Obj? &&
    var vars := body.fields["variables"].fields;
    VariablesRewritten(vars, TemplateVariables(template).fields, c, choice.base) &&
    vars["generationConfig"].Obj? &&
    GenerationConfigured(vars["generationConfig"].fields, TemplateGeneration(TemplateVariables(template).fields).fields,
                         choice, s, asFloat, asInt)
  }

  /** The three top-level fields of the request body. */
  function Envelope(signature: Json, operation: Json, vars: Json): map<string, Json> {
    map["querySignature" := signature, "operationName" := operation, "variables" := vars]
  }

  lemma EnvelopeKeys(signature: Json, operation: Json, vars: Json)
    ensures Envelope(signature, operation, vars).Keys == {"querySignature", "operationName", "variables"}
    ensures Envelope(signature, operation, vars)["querySignature"] == signature
    ensures Envelope(signature, operation, vars)["operationName"] == operation
    ensures Envelope(signature, operation, vars)["variables"] == vars
  {
  }

  /** The template's `variables` rewritten for an already converted conversation. */
  method RewriteTemplate(template: Json, c: Conversation, choice: ModelChoice, s: Sampling,
                         asFloat: Json -> Option<Json>, asInt: Json -> Option<int>)
    returns (r: Result<Json, string>)
    ensures r.Err? <==> TemplateRejected(template, choice, s, asFloat, asInt)
    ensures r.Ok? ==> BodyBuilt(r.value, template, c, choice, s, asFloat, asInt)
  {
    if !template.Obj? {
      return Err("AttributeError: template is not a dictionary");
    }
    var variables := TemplateVariables(template);
    if !variables.Obj? {
      return Err("TypeError: variables is not a dictionary");
    }
    var gen := ConfigureGeneration(TemplateGeneration(variables.fields), choice, s, asFloat, asInt);
    if gen.Err? {
      return Err(gen.error);
    }
    var vars := Rewritten(variables.fields, c, choice.base, gen.value);
    RewrittenVariables(variables.fields, c, choice.base, gen.value);
    var body := Envelope(Lookup(template.fields, "querySignature", Null),
                         Lookup(template.fields, "operationName", Null), Obj(vars));
    EnvelopeKeys(Lookup(template.fields, "querySignature", Null),
                 Lookup(template.fields, "operationName", Null), Obj(vars));
    r := Ok(Obj(body));
  }

  /**
   * The body sent to the vendor: the harvested template with its `variables`
   * rewritten for this chat request and its query signature and operation name kept.
   * A template without `generationConfig` gets an empty one, which is then edited.
   */
  method BuildRequestBody(template: Json, ms: seq<Message>, model: string, aliases: map<string, string>,
                          s: Sampling, asFloat: Json -> Option<Json>, asInt: Json -> Option<int>)
    returns (r: Result<Json, string>)
    ensures r.Err? <==>
      (exists i :: 0 <= i < |ms| && !Accepted(ms[i])) ||
      TemplateRejected(template, DecodeModel(model, aliases), s, asFloat, asInt)
    ensures r.Ok? ==>
      (forall i :: 0 <= i < |ms| ==> Accepted(ms[i])) &&
      BodyBuilt(r.value, template, Conversation(SystemPrompt(ms), History(ms)), DecodeModel(model, aliases),
                s, asFloat, asInt)
  {
    var conversation := ConvertMessages(ms);
    if conversation.Err? {
      return Err(conversation.error);
    }
    r := RewriteTemplate(template, conversation.value, DecodeModel(model, aliases), s, asFloat, asInt);
  }

  // ---------------------------------------------------------------------------
  // Headers
  // ---------------------------------------------------------------------------

  /** The header names removed before sending; other spellings survive. */
  const DroppedHeaders: set<string> :=
    {"content-length", "Content-Length", "host", "Host", "connection", "Connection", "accept-encoding"}

  /**
   * The harvested headers as sent: `content-type` forced to JSON and the
   * transport headers removed. Err when the harvested headers are not a dictionary.
   */
  function SanitizeHeaders(headers: Json): (r: Result<map<string, Json>, string>)
    ensures r.Ok? <==> headers.Obj?
    ensures r.Ok? ==> "content-type" in r.value && r.value["content-type"] == Str("application/json")
    ensures r.Ok? ==> forall k :: k in r.value <==> k == "content-type" || (k in headers.fields && k !in DroppedHeaders)
    ensures r.Ok? ==> forall k :: k in r.value && k != "content-type" ==> r.value[k] == headers.fields[k]
  {
    if !headers.Obj? then Err("TypeError: headers is not a dictionary")
    else Ok(headers.fields["content-type" := Str("application/json")] - DroppedHeaders)
  }

  /** Sanitising already sanitised headers changes nothing. */
  lemma SanitizeIdempotent(headers: Json)
    requires headers.Obj?
    ensures SanitizeHeaders(Obj(SanitizeHeaders(headers).value)) == SanitizeHeaders(headers)
  {
    var once := SanitizeHeaders(headers).value;
    var twice := SanitizeHeaders(Obj(once)).value;
    forall k | k in once
      ensures k in twice && twice[k] == once[k]
    {
    }
    assert twice == once;
  }
}
