/**
 * Translation of one decoded vendor response object into OpenAI-style
 * streaming deltas (`process_google_response`).
 *
 * The Python generator yields one chunk per non-empty delta. An AuthError it
 * raises propagates to the caller; any other exception is caught and logged at
 * the end of the generator, so the deltas already yielded stay yielded and the
 * rest of the object is abandoned. `Translation` records both: the deltas in
 * order and how the generator ended.
 */
module ResponseTranslator {
  import opened Wrappers
  import opened Strings
  import opened JsonValue

  /** The `delta` of one chunk and the chunk's `finish_reason` (None is JSON null). */
  datatype Delta = Delta(content: Option<Json>, reasoning: Option<Json>, finish: Option<string>)

  /** How the generator ended: normally, by raising AuthError, or by a swallowed exception. */
  datatype Outcome = Completed | AuthFailure(message: Json) | Abandoned

  datatype Translation = Translation(deltas: seq<Delta>, outcome: Outcome)

  /** The outcome of translating one part: Python raised, or the delta (None when empty). */
  datatype PartStep = PartRaised | PartDone(delta: Option<Delta>)

  /** The Markdown image reference the gateway emits for a generated image. */
  function ImageMarkdown(target: string): string {
    "![Generated Image](" + target + ")"
  }

  /** An error message that the gateway takes for an authentication failure. */
  predicate IsAuthText(msg: string) {
    Contains(msg, "Recaptcha") || Contains(Lower(msg), "token") || Contains(msg, "Authentication")
  }

  /** A finish reason that closes a choice. */
  predicate IsFinal(reason: Json) {
    reason == Str("STOP") || reason == Str("MAX_TOKENS")
  }

  /** The delta for one part: text or reasoning text, then an image that overrides `content`. */
  function TranslatePart(part: Json): PartStep {
    if !part.Obj? then PartRaised
    else
      var text := Lookup(part.fields, "text", Str(""));
      var reasoning := PartReasoning(part.fields);
      var plain := if Truthy(text) && reasoning.None? then Some(text) else None;
      var inline := Lookup(part.fields, "inlineData", Null);
      var uri := Lookup(part.fields, "uri", Null);
      if Truthy(inline) then
        if !inline.Obj? then PartRaised
        else
          var mime := Lookup(inline.fields, "mimeType", Null);
          var data := Lookup(inline.fields, "data", Null);
          var content :=
            if Truthy(mime) && Truthy(data)
            then Some(Str(ImageMarkdown("data:" + Render(mime) + ";base64," + Render(data))))
            else plain;
          PartDone(NonEmpty(Delta(content, reasoning, None)))
      else if Truthy(uri) then
        PartDone(NonEmpty(Delta(Some(Str(ImageMarkdown(Render(uri)))), reasoning, None)))
      else
        PartDone(NonEmpty(Delta(plain, reasoning, None)))
  }

  /** `if delta:` — an empty delta dictionary yields no chunk. */
  function NonEmpty(d: Delta): Option<Delta> {
    if d.content.None? && d.reasoning.None? && d.finish.None? then None else Some(d)
  }

  function Emit(d: Option<Delta>): seq<Delta> {
    if d.Some? then [d.value] else []
  }

  /** Appends `rest` after `first` when `first` ended normally; otherwise `first` ends the generator. */
  function Then(first: Translation, rest: Translation): Translation {
    if first.outcome == Completed then Translation(first.deltas + rest.deltas, rest.outcome) else first
  }

  function TranslateParts(parts: seq<Json>): Translation
    decreases |parts|
  {
    if parts == [] then Translation([], Completed)
    else match TranslatePart(parts[0])
      case PartRaised => Translation([], Abandoned)
      case PartDone(d) => Then(Translation(Emit(d), Completed), TranslateParts(parts[1..]))
  }

  /** The parts the loop visits for a candidate (`content or {}`, `parts or []`); None when Python raises. */
  function CandidateParts(c: Json): (r: Option<seq<Json>>)
    ensures r.Some? ==> c.Obj?
  {
    if !c.Obj? then None
    else
      var content := Lookup(c.fields, "content", Null);
      var content' := if Truthy(content) then content else Obj(map[]);
      if !content'.Obj? then None
      else
        var parts := Lookup(content'.fields, "parts", Null);
        Elements(if Truthy(parts) then parts else Arr([]))
  }

  /** `any(p.get('thought', False) for p in parts)`. */
  predicate AnyThought(parts: seq<Json>) {
    exists i :: 0 <= i < |parts| && parts[i].Obj? && Truthy(Lookup(parts[i].fields, "thought", Bool(false)))
  }

  /** The finish chunk of a candidate, emitted only for a final reason when no part is a thought. */
  function FinishDeltas(reason: Json, parts: seq<Json>): (r: seq<Delta>)
    ensures |r| <= 1
    ensures |r| == 1 <==> IsFinal(reason) && !AnyThought(parts)
    ensures |r| == 1 ==> r[0] == Delta(None, None, Some(Lower(reason.s)))
  {
    if IsFinal(reason) && !AnyThought(parts) then [Delta(None, None, Some(Lower(reason.s)))] else []
  }

  function TranslateCandidate(c: Json): Translation {
    match CandidateParts(c)
    case None => Translation([], Abandoned)
    case Some(ps) =>
      var t := TranslateParts(ps);
      if t.outcome != Completed then t
      else Translation(t.deltas + FinishDeltas(Lookup(c.fields, "finishReason", Null), ps), Completed)
  }

  function TranslateCandidates(cs: seq<Json>): Translation
    decreases |cs|
  {
    if cs == [] then Translation([], Completed)
    else Then(TranslateCandidate(cs[0]), TranslateCandidates(cs[1..]))
  }

  /** The verdict on one error message: AuthError, a swallowed exception, or carry on. */
  function ErrorVerdict(msg: Json): Outcome {
    match HasKey("Recaptcha", msg)
    case None => Abandoned
    case Some(found) =>
      if found then AuthFailure(msg)
      else if !msg.Str? then Abandoned
      else if Contains(Lower(msg.s), "token") || Contains(msg.s, "Authentication") then AuthFailure(msg)
      else Completed
  }

  /** The loop over `result['errors']`. */
  function CheckErrors(errs: seq<Json>): Outcome
    decreases |errs|
  {
    if errs == [] then Completed
    else if !errs[0].Obj? then Abandoned
    else
      var verdict := ErrorVerdict(Lookup(errs[0].fields, "message", Str("Unknown Error")));
      if verdict == Completed then CheckErrors(errs[1..]) else verdict
  }

  function TranslateResult(r: Json): Translation {
    if !Truthy(r) then Translation([], Completed)
    else if !r.Obj? then Translation([], Abandoned)
    else if "errors" in r.fields then
      match Elements(r.fields["errors"])
      case None => Translation([], Abandoned)
      case Some(errs) => Translation([], CheckErrors(errs))
    else
      var data := Lookup(r.fields, "data", Null);
      if !Truthy(data) then Translation([], Completed)
      else if !data.Obj? then Translation([], Abandoned)
      else
        var cands := Lookup(data.fields, "candidates", Null);
        if !Truthy(cands) then Translation([], Completed)
        else match Elements(cands)
          case None => Translation([], Abandoned)
          case Some(cs) => TranslateCandidates(cs)
  }

  function TranslateResults(rs: seq<Json>): Translation
    decreases |rs|
  {
    if rs == [] then Translation([], Completed)
    else Then(TranslateResult(rs[0]), TranslateResults(rs[1..]))
  }

  /** `process_google_response(data)`. */
  function Translate(data: Json): Translation {
    if !Truthy(data) then Translation([], Completed)
    else match HasKey("error", data)
      case None => Translation([], Abandoned)
      case Some(hasError) =>
        if hasError then
          // the log line subscripts `data['error']`, which only a dictionary allows
          Translation([], if data.Obj? then Completed else Abandoned)
        else if HasKey("results", data) != Some(true) then Translation([], Completed)
        else if !data.Obj? then Translation([], Abandoned)
        else
          var results := data.fields["results"];
          if !Truthy(results) then Translation([], Completed)
          else match Elements(results)
            case None => Translation([], Abandoned)
            case Some(rs) => TranslateResults(rs)
  }

  // ---------------------------------------------------------------------------
  // Properties
  // ---------------------------------------------------------------------------

  /** A top-level `error` member is logged and yields nothing. */
  lemma TopLevelErrorYieldsNothing(fields: map<string, Json>)
    requires "error" in fields
    ensures Translate(Obj(fields)) == Translation([], Completed)
  {
  }

  /** A message that raises AuthError: a string that looks like an auth failure, or a container holding "Recaptcha". */
  predicate IsAuthMessage(msg: Json) {
    (msg.Str? && IsAuthText(msg.s)) || HasKey("Recaptcha", msg) == Some(true)
  }

  lemma {:induction false} CheckErrorsSound(errs: seq<Json>)
    ensures CheckErrors(errs).AuthFailure? ==> IsAuthMessage(CheckErrors(errs).message)
    decreases |errs|
  {
    if errs != [] && errs[0].Obj? {
      CheckErrorsSound(errs[1..]);
    }
  }

  /** Parts and candidates never raise AuthError. */
  lemma {:induction false} PartsNeverAuth(parts: seq<Json>)
    ensures !TranslateParts(parts).outcome.AuthFailure?
    ensures forall i :: 0 <= i < |TranslateParts(parts).deltas| ==> TranslateParts(parts).deltas[i].finish.None?
    decreases |parts|
  {
    if parts != [] && TranslatePart(parts[0]).PartDone? {
      PartsNeverAuth(parts[1..]);
    }
  }

  lemma {:induction false} CandidatesNeverAuth(cs: seq<Json>)
    ensures !TranslateCandidates(cs).outcome.AuthFailure?
    decreases |cs|
  {
    if cs != [] {
      match CandidateParts(cs[0])
      case None =>
      case Some(ps) => PartsNeverAuth(ps);
      CandidatesNeverAuth(cs[1..]);
    }
  }

  lemma {:induction false} ResultsAuthSound(rs: seq<Json>)
    ensures TranslateResults(rs).outcome.AuthFailure? ==> IsAuthMessage(TranslateResults(rs).outcome.message)
    decreases |rs|
  {
    if rs != [] {
      var r := rs[0];
      if Truthy(r) && r.Obj? {
        if "errors" in r.fields {
          match Elements(r.fields["errors"])
          case None =>
          case Some(errs) => CheckErrorsSound(errs);
        } else {
          var data := Lookup(r.fields, "data", Null);
          if Truthy(data) && data.Obj? {
            var cands := Lookup(data.fields, "candidates", Null);
            if Truthy(cands) {
              match Elements(cands)
              case None =>
              case Some(cs) => CandidatesNeverAuth(cs);
            }
          }
        }
      }
      ResultsAuthSound(rs[1..]);
    }
  }

  /** AuthError is raised only for a message that looks like an authentication failure. */
  lemma AuthFailureOnlyForAuthMessages(data: Json)
    ensures Translate(data).outcome.AuthFailure? ==> IsAuthMessage(Translate(data).outcome.message)
  {
    if Truthy(data) && data.Obj? && "error" !in data.fields && "results" in data.fields {
      match Elements(data.fields["results"])
      case None =>
      case Some(rs) => ResultsAuthSound(rs);
    }
  }

  /** The `errors` entries of a result, one dictionary with a `message` per string. */
  function MessageErrors(msgs: seq<string>): (r: seq<Json>)
    ensures |r| == |msgs|
    ensures forall i :: 0 <= i < |msgs| ==> r[i] == Obj(map["message" := Str(msgs[i])])
  {
    seq(|msgs|, i requires 0 <= i < |msgs| => Obj(map["message" := Str(msgs[i])]))
  }

  /** Over string messages the errors loop raises AuthError iff some message looks like an auth failure, and never swallows. */
  lemma {:induction false} CheckMessagesComplete(msgs: seq<string>)
    ensures CheckErrors(MessageErrors(msgs)) != Abandoned
    ensures CheckErrors(MessageErrors(msgs)).AuthFailure? <==> exists i :: 0 <= i < |msgs| && IsAuthText(msgs[i])
    decreases |msgs|
  {
    if msgs != [] {
      assert MessageErrors(msgs)[1..] == MessageErrors(msgs[1..]);
      CheckMessagesComplete(msgs[1..]);
      if !IsAuthText(msgs[0]) {
        forall i | 0 < i < |msgs| ensures IsAuthText(msgs[i]) == IsAuthText(msgs[1..][i - 1]) {}
      }
    }
  }

  /** A response whose one result carries string error messages: AuthError iff one of them matches, and no deltas. */
  lemma ErrorResultRaisesIffAuthText(msgs: seq<string>)
    ensures var t := Translate(Obj(map["results" := Arr([Obj(map["errors" := Arr(MessageErrors(msgs))])])]));
      t.deltas == [] && t.outcome != Abandoned &&
      (t.outcome.AuthFailure? <==> exists i :: 0 <= i < |msgs| && IsAuthText(msgs[i]))
  {
    CheckMessagesComplete(msgs);
    var r := Obj(map["errors" := Arr(MessageErrors(msgs))]);
    var data := Obj(map["results" := Arr([r])]);
    assert TranslateResult(r) == Translation([], CheckErrors(MessageErrors(msgs)));
    assert TranslateResults([r]) == Then(TranslateResult(r), TranslateResults([]));
    assert "error" !in data.fields && "results" in data.fields;
    assert HasKey("error", data) == Some(false);
    assert Elements(data.fields["results"]) == Some([r]);
    assert Translate(data) == TranslateResults([r]);
  }

  /** The `reasoning_content` a part carries: its text, when the text is non-empty and the part a thought. */
  function PartReasoning(fields: map<string, Json>): (r: Option<Json>)
    ensures r.Some? <==> Truthy(Lookup(fields, "text", Str(""))) && Truthy(Lookup(fields, "thought", Bool(false)))
    ensures r.Some? ==> r.value == Lookup(fields, "text", Str(""))
  {
    var text := Lookup(fields, "text", Str(""));
    if Truthy(text) && Truthy(Lookup(fields, "thought", Bool(false))) then Some(text) else None
  }

  /**
   * A part with non-empty text and no image becomes `reasoning_content` when it is
   * a thought, `content` otherwise; any other keys of the part are ignored.
   */
  lemma TextPartDelta(fields: map<string, Json>, text: string)
    requires Lookup(fields, "text", Str("")) == Str(text) && text != ""
    requires !Truthy(Lookup(fields, "inlineData", Null)) && !Truthy(Lookup(fields, "uri", Null))
    ensures TranslatePart(Obj(fields)) ==
      PartDone(Some(if Truthy(Lookup(fields, "thought", Bool(false))) then Delta(None, Some(Str(text)), None)
                    else Delta(Some(Str(text)), None, None)))
  {
  }

  /**
   * A part whose `inlineData` holds a non-empty `mimeType` and `data` becomes a
   * Markdown image with a base64 data URI in `content`, replacing any plain text;
   * a thought's text stays in `reasoning_content`.
   */
  lemma InlineImageDelta(fields: map<string, Json>, inline: map<string, Json>, mime: string, data: string)
    requires Lookup(fields, "inlineData", Null) == Obj(inline)
    requires Lookup(inline, "mimeType", Null) == Str(mime) && mime != ""
    requires Lookup(inline, "data", Null) == Str(data) && data != ""
    ensures TranslatePart(Obj(fields)) ==
      PartDone(Some(Delta(Some(Str("![Generated Image](data:" + mime + ";base64," + data + ")")),
                          PartReasoning(fields), None)))
  {
    assert "mimeType" in inline;
    assert Render(Str(mime)) == mime && Render(Str(data)) == data;
    assert ImageMarkdown("data:" + mime + ";base64," + data) == "![Generated Image](data:" + mime + ";base64," + data + ")";
  }

  /**
   * An `inlineData` dictionary without a usable `mimeType` or `data` adds no image:
   * the part yields what its text alone yields, and `uri` is not consulted.
   */
  lemma InlineWithoutImageKeepsText(fields: map<string, Json>, inline: map<string, Json>)
    requires Lookup(fields, "inlineData", Null) == Obj(inline) && inline != map[]
    requires !Truthy(Lookup(inline, "mimeType", Null)) || !Truthy(Lookup(inline, "data", Null))
    ensures TranslatePart(Obj(fields)) ==
      TranslatePart(Obj(fields["inlineData" := Null]["uri" := Null]))
  {
    var other := fields["inlineData" := Null]["uri" := Null];
    assert Lookup(other, "text", Str("")) == Lookup(fields, "text", Str(""));
    assert Lookup(other, "thought", Bool(false)) == Lookup(fields, "thought", Bool(false));
  }

  /**
   * A part with a non-empty `uri` and no `inlineData` becomes a Markdown image
   * reference to that URI in `content`; a thought's text stays in `reasoning_content`.
   */
  lemma UriImageDelta(fields: map<string, Json>, uri: string)
    requires !Truthy(Lookup(fields, "inlineData", Null))
    requires Lookup(fields, "uri", Null) == Str(uri) && uri != ""
    ensures TranslatePart(Obj(fields)) ==
      PartDone(Some(Delta(Some(Str("![Generated Image](" + uri + ")")), PartReasoning(fields), None)))
  {
  }

  /**
   * A candidate yields a finish delta iff its parts translate without error, its
   * finish reason is STOP or MAX_TOKENS, and no part is a thought; the finish
   * delta is then the last one and carries the lower-cased reason.
   */
  lemma FinishOnlyWithoutThought(c: Json)
    requires CandidateParts(c).Some?
    ensures var t := TranslateCandidate(c);
      var ps := CandidateParts(c).value;
      var reason := Lookup(c.fields, "finishReason", Null);
      && ((exists i :: 0 <= i < |t.deltas| && t.deltas[i].finish.Some?) <==>
           t.outcome == Completed && IsFinal(reason) && !AnyThought(ps))
      && (t.outcome == Completed && IsFinal(reason) && !AnyThought(ps) ==>
           t.deltas[|t.deltas| - 1] == Delta(None, None, Some(Lower(reason.s))))
  {
    var ps := CandidateParts(c).value;
    PartsNeverAuth(ps);
    var t := TranslateCandidate(c);
    var reason := Lookup(c.fields, "finishReason", Null);
    if TranslateParts(ps).outcome == Completed && IsFinal(reason) && !AnyThought(ps) {
      assert t.deltas[|t.deltas| - 1].finish.Some?;
    }
  }
}
