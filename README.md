# Vertex AI gateway core, modelled in Dafny

The gateway accepts OpenAI-style chat requests and replays them against the
vendor's streaming endpoint. It does this with credentials harvested from a
logged-in browser session, and translates the vendor's stream back into
OpenAI server-sent events. This project models the deterministic core of that
gateway and proves properties about it. The modelled pieces are:

- **Stream framing decoder** (`StreamDecoder`):
  - the `while buffer` loop of `stream_chat` that peels JSON objects off the
    vendor's chunked outer array;
  - `FrameDecoder` is a class whose `buffer` field is carried from fragment to
    fragment;
  - `raw_decode` is a parameter.
- **Response translator** (`ResponseTranslator`): `process_google_response`,
  which turns one vendor object into a sequence of deltas. It also records
  whether the generator ended normally, raised `AuthError`, or swallowed
  another exception.
- **Request builder** (`RequestBuilder`):
  - message conversion and the decoding of model-name suffixes;
  - the in-place edits of `generationConfig`, written as one method per block
    of the source;
  - the rewrite of the template's `variables` and the header sanitising.
- **Streaming session** (`StreamSession`):
  - the pre-flight credential check;
  - the two-attempt retry loop of `stream_chat`;
  - where `data: [DONE]` is and is not emitted.
- **Non-streaming aggregator** (`Aggregator`): `complete_chat`, a loop over
  the event lines that concatenates the deltas and builds one completion.
- **Credential store** (`CredentialStore`): the class `CredentialManager`
  with `update`, `update_token` and `get_credentials`.
- **Daily statistics** (`DailyStats`): the class `DailyStatsManager`, a
  date → model → counters table updated in place and pruned by string
  comparison.
- **Harvester** (`CredentialHarvester`): URL and body filtering,
  case-insensitive header extraction and the capture counter.

Shared modules:

- `JsonValue` is JSON with Python's truthiness, `.get` and `in` semantics.
- `Strings` holds Python's `lstrip`/`strip` whitespace, substring search,
  ASCII lower-casing and the code-point order `<`.
- `Wrappers` holds `Option` and `Result`.

Python exceptions are modelled as `Err` results.

Parameters stand in for:

- the clock, `uuid4` and the Beijing date;
- `json.loads`, `json.dumps` and `raw_decode`;
- the `models.json` alias map;
- `float(...)` and `int(...)` on client arguments.

Where the documented behaviour and the code disagree, the model
follows the code:

- The three error exits of `stream_chat` (main.py:637-638, 737-738 and
  745-746) return without `data: [DONE]`.
- `systemInstruction` is set whenever any system message exists. The test is
  on the unstripped text, so a blank system message gives an empty
  instruction.
- A `data:` image URL without a comma raises `ValueError` instead of being
  skipped.
- The `thinkingConfig` derived from `max_tokens` for gemini-3-pro models
  (main.py:464-472) is removed again at main.py:511-514.

## Model

| member | source | states |
|---|---|---|
| StreamDecoder.NextStart | main.py:687-696 | the index found is the earliest `[` or `{`; None iff neither occurs |
| StreamDecoder.Resync | main.py:687-702 | the corrected resynchronising branch always returns a proper suffix of the buffer |
| StreamDecoder.TurnAt | main.py:656-702 | on a stripped buffer: a dropped character or a decoded value strictly shortens it; a stop keeps it whole |
| StreamDecoder.Step | main.py:651-702 | a turn that skips or emits strictly shortens the buffer; a stop leaves exactly the lstripped buffer |
| StreamDecoder.FrameDecoder.constructor | main.py:640 | a new decoder's buffer is empty |
| StreamDecoder.FrameDecoder.Feed | main.py:647-702 | appending a fragment and running the loop emits exactly `Pump(old buffer + fragment)`'s deltas and AuthError, and leaves its rest as the new buffer |
| StreamDecoder.PumpFraming | main.py:658-666 | a leading `[`, `,` or `]` is dropped with no output |
| StreamDecoder.PumpValue | main.py:668-676 | the same turn with the deltas already emitted in front: the new deltas go after them |
| StreamDecoder.PumpStripped | main.py:652-655 | lstripping the buffer first does not change what the loop does |
| StreamDecoder.PumpIncomplete | main.py:677-679 | on JSONDecodeError the loop stops and keeps the buffer for the next fragment |
| StreamDecoder.PumpFailure | main.py:682-702 | on any other exception the loop goes on from the resynchronised buffer |
| StreamDecoder.PumpEmit | main.py:668-676 | a decoded value is translated; an AuthError stops the loop with the buffer unadvanced, otherwise its deltas come first and the loop goes on from exactly the text after the value |
| StreamDecoder.FramingDiscarded | main.py:652-666 | whitespace followed by one framing character is discarded without output |
| StreamDecoder.PumpAfterSpaces | main.py:652-655 | leading whitespace is invisible to the loop |
| StreamDecoder.DrainRestStripped | main.py:651-679 | from a turn taken on a stripped buffer, the buffer the loop leaves is stripped |
| StreamDecoder.RestIsStripped | main.py:651-679 | the buffer left over is empty or starts with a non-space character |
| StreamDecoder.GarbageFullyConsumed | main.py:682-702 | with the corrected branch, input that never decodes is consumed entirely, without output |
| StreamDecoder.PumpEmpty | main.py:651 | on an empty buffer the loop stops at once, with no output |
| StreamDecoder.ChunkingInvariant | main.py:647-702 | for a decoder that raises only JSONDecodeError and whose values do not depend on the text after them: if draining `b` raises no AuthError, draining `b` then feeding `f` emits exactly what draining `b + f` in one go emits, and leaves the same buffer |
| StreamDecoder.ChunkingStripped | main.py:656-702 | the same, for a buffer that starts with a non-space character |
| StreamDecoder.ChunkingFraming | main.py:658-666 | the same, for a buffer that starts with a framing character |
| StreamDecoder.ChunkingIncomplete | main.py:677-679 | the same, for a buffer whose front cannot be decoded yet |
| StreamDecoder.ChunkingValue | main.py:668-676 | the same, for a buffer whose front decodes to a value |
| StreamDecoder.ResyncAsWrittenStalls | main.py:687-699 | as written, a failure on a buffer that starts with `{` leaves the buffer unchanged, so the loop repeats forever |
| StreamDecoder.ResyncAsWrittenStallsOnLongInteger | main.py:687-699 | on `{"a":` followed by more than 4300 digits, where `raw_decode` raises ValueError, the as-written turn leaves the buffer unchanged |
| StreamDecoder.ResyncProgress | main.py:687-702 | the corrected branch always shortens the buffer and cuts exactly to the next `[`/`{` after the first character |
| StreamDecoder.ResyncAgreesAwayFromBrace | main.py:687-702 | the corrected and as-written branches agree unless the buffer starts with `[` or `{` |
| ResponseTranslator.CandidateParts | main.py:791-792 | parts are found only on a dictionary candidate (`content or {}`, `parts or []`) |
| ResponseTranslator.FinishDeltas | main.py:832-848 | a finish delta exists iff the reason is STOP/MAX_TOKENS and no part is a thought; it carries the lower-cased reason |
| ResponseTranslator.TopLevelErrorYieldsNothing | main.py:767-770 | a top-level `error` yields nothing and ends normally |
| ResponseTranslator.CheckErrorsSound | main.py:776-782 | the errors loop raises AuthError only for a message that looks like an authentication failure |
| ResponseTranslator.PartsNeverAuth | main.py:794-829 | translating parts never raises AuthError, and no part delta carries a finish reason |
| ResponseTranslator.CandidatesNeverAuth | main.py:790-848 | translating candidates never raises AuthError |
| ResponseTranslator.ResultsAuthSound | main.py:772-848 | the results loop raises AuthError only for a message that looks like an authentication failure |
| ResponseTranslator.AuthFailureOnlyForAuthMessages | main.py:758-853 | `process_google_response` raises AuthError only for a string message containing `Recaptcha`, `Authentication` or (ignoring case) `token`, or a message container holding `Recaptcha` |
| ResponseTranslator.CheckMessagesComplete | main.py:776-782 | over string messages, AuthError is raised iff some message is auth-looking, and nothing is swallowed |
| ResponseTranslator.ErrorResultRaisesIffAuthText | main.py:772-782 | a result with string error messages yields no deltas and raises iff one message is auth-looking |
| ResponseTranslator.PartReasoning | main.py:797-800 | a part carries `reasoning_content` iff its text is non-empty and `thought` is truthy, and then it is that text |
| ResponseTranslator.TextPartDelta | main.py:797-818 | for any dictionary part with non-empty text and no image, the text becomes `reasoning_content` for a thought, otherwise `content`; other keys are ignored |
| ResponseTranslator.InlineImageDelta | main.py:797-814 | for any dictionary part whose `inlineData` has a non-empty `mimeType` and `data`, `content` is `![Generated Image](data:mime;base64,…)`, replacing plain text, and a thought's text stays as `reasoning_content` |
| ResponseTranslator.InlineWithoutImageKeepsText | main.py:805-812 | a non-empty `inlineData` without a usable `mimeType` or `data` adds nothing, and `uri` is then not consulted: the part yields what its text alone yields |
| ResponseTranslator.UriImageDelta | main.py:797-818 | for any dictionary part with a non-empty `uri` and no `inlineData`, `content` is `![Generated Image](uri)`, and a thought's text stays as `reasoning_content` |
| ResponseTranslator.FinishOnlyWithoutThought | main.py:790-848 | a candidate's finish delta comes last, exists iff the reason is final and no part is a thought, and carries the lower-cased reason |
| RequestBuilder.DataUrlPart | main.py:373-382 | a `data:` URL yields an inline part iff it contains a comma |
| RequestBuilder.UserParts | main.py:364-383 | a list content converts iff every part converts; no more parts come out than went in |
| RequestBuilder.PrefixStep | main.py:360-385 | one more message extends the system text by its line and the history by its entry |
| RequestBuilder.ConvertMessage | main.py:361-385 | one message raises exactly when it is not accepted, with the exception Python raises (TypeError for a message that is not a dictionary, `KeyError: 'role'` for one without a role); otherwise a system message extends the system text by its content and a newline, and a user or assistant message appends its `contents` entry |
| RequestBuilder.ConvertMessages | main.py:356-385 | succeeds iff every message is accepted (each is a dictionary with a `role`, and its content converts), and returns the accumulated system text and history |
| RequestBuilder.Roles | main.py:383-385 | one role per history entry |
| RequestBuilder.EntryRole | main.py:363-385 | an accepted message yields an entry exactly when it is a user or assistant message, with role `user` or `model` |
| RequestBuilder.HistoryRoles | main.py:363-385 | `contents` has one entry per user/assistant message in order: `user` stays `user`, `assistant` becomes `model` |
| RequestBuilder.SystemPromptPresent | main.py:361-362 | the system text is non-empty iff some message is a system message |
| RequestBuilder.DataUrlSplit | main.py:373-382 | `data:mime;base64,payload` is split into `mimeType` and `data`; commas in the payload are kept |
| RequestBuilder.RemoteImageDropped | main.py:371-373 | an image URL that does not start with `data:` is dropped |
| RequestBuilder.ThinkingSplitRestores | main.py:423-428 | removing a `-low`/`-high` suffix and putting it back gives the name again |
| RequestBuilder.ResolutionSplitRestores | main.py:430-438 | the same for `-1k`/`-2k`/`-4k` |
| RequestBuilder.DecodedNameRestores | main.py:417-438 | the alias map is consulted first; the decoded parts reassemble the aliased name |
| RequestBuilder.ThinkingSplitOf | main.py:423-428 | a name built from a base and a thinking suffix splits back into them |
| RequestBuilder.ResolutionSplitOf | main.py:430-438 | a name built from a base and a resolution suffix splits back into them |
| RequestBuilder.NameDecodes | main.py:417-438 | decoding inverts encoding when the base ends in no consumable suffix |
| RequestBuilder.ThinkingThenResolution | main.py:423-438 | `m-4k-high` decodes to base `m`, high and 4k |
| RequestBuilder.ResolutionHidesThinking | main.py:423-438 | `m-high-4k` decodes to base `m-high`, 4k and no thinking mode |
| RequestBuilder.ApplyThinking | main.py:451-473 | a suffix sets `includeThoughts` with budget 8192/32768 under both names; raises only on an unconvertible `max_tokens` for gemini-3-pro; nothing else changes |
| RequestBuilder.ApplyResolution | main.py:476-503 | sets `imageSize` 1K/2K/4K and `personGeneration` ALLOW_ALL; writes modalities, output options and aspect ratio only if absent; raises iff `imageConfig` is not a dictionary |
| RequestBuilder.ApplyModelChoice | main.py:451-521 | the thinking and image blocks, then the clean-up: without a suffix `thinkingConfig`/`thinking_config`, or the image keys, are absent |
| RequestBuilder.ThinkingStageKept | main.py:451-514 | the thinking configuration survives the image block and the clean-up |
| RequestBuilder.ImageStageKept | main.py:476-521 | the image configuration survives the clean-up |
| RequestBuilder.FloorOutputLimit | main.py:535-544 | `maxOutputTokens` below 8192 or missing becomes 65535, any other value is kept; raises on a non-number |
| RequestBuilder.ApplySampling | main.py:546-564 | converted client arguments override the template, `max_tokens` last; `stop` always becomes a list; raises iff a conversion fails |
| RequestBuilder.ApplyLimits | main.py:535-564 | the limit floor followed by the client overrides; nothing else changes |
| RequestBuilder.ConfigureGeneration | main.py:443-564 | `generationConfig` is edited block by block; raises iff a block raises |
| RequestBuilder.StagesCompose | main.py:443-564 | the two stages together give the whole edited configuration |
| RequestBuilder.ModelStageKept | main.py:535-564 | the limit stage leaves what the model stage decided alone |
| RequestBuilder.LimitStageKept | main.py:451-564 | the model stage leaves what the limit stage reads alone |
| RequestBuilder.RewrittenVariables | main.py:389-447 | `contents`, `systemInstruction` (only for a system text), the five BLOCK_NONE safety settings and `model` are set; every other template variable is copied unchanged |
| RequestBuilder.EnvelopeKeys | main.py:573-577 | the body has exactly `querySignature`, `operationName` and `variables` |
| RequestBuilder.RewriteTemplate | main.py:389-577 | raises iff the template or its generation settings are rejected; otherwise the body is built as stated |
| RequestBuilder.BuildRequestBody | main.py:354-577 | raises iff a message is rejected (not a dictionary, no `role`, or content that does not convert) or the template rewrite raises; otherwise the body carries the converted conversation and the decoded model |
| RequestBuilder.SanitizeHeaders | main.py:580-594 | `content-type` is `application/json`; exactly the seven listed spellings are removed; all other headers are copied |
| RequestBuilder.SanitizeIdempotent | main.py:580-594 | sanitising twice is sanitising once |
| StreamSession.Yielded | main.py:672-673 | one chunk line per line the stream yielded, in order |
| StreamSession.Attempted | main.py:339-746 | the last attempt never retries; no attempt yields `[DONE]` itself; an attempt that raises out of the generator yields nothing, or only the chunk lines its stream relayed before the refreshed credentials could not be read |
| StreamSession.StreamChat | main.py:294-756 | the lines yielded and the exception raised are exactly those of the pre-flight check followed by at most two attempts |
| StreamSession.RunClosedProperly | main.py:599-756 | `[DONE]` is yielded only as the last line, never after an error line or before a raise |
| StreamSession.ChunksThen | main.py:672-673 | chunk lines in front of a properly closed session keep it properly closed |
| StreamSession.ChatClosedProperly | main.py:299-756 | the whole session, the pre-flight notice included, is closed properly |
| StreamSession.FirstStreamRelayed | main.py:647-756 | a stream that ends normally is relayed and closed with `[DONE]` |
| StreamSession.AuthErrorRetried | main.py:707-730 | an AuthError with credentials and page back in time retries, and the lines already yielded stay |
| StreamSession.UnreadableRefreshEndsGenerator | main.py:716-730 | when the refreshed credentials lack `headers` or `url`, the KeyError escapes the generator after the relayed lines: no retry, no error line, no `[DONE]` |
| StreamSession.LastAttemptErrorReported | main.py:605-638 | a non-200 answer on the last attempt yields the upstream error line and no `[DONE]` |
| StreamSession.MissingCredentialsOnRetryClose | main.py:346-350 | missing credentials on the retry break the loop, and `[DONE]` follows |
| StreamSession.MissingCredentialsFirstSilent | main.py:346-351 | missing credentials on the first attempt end the generator with no line |
| Aggregator.DeltaText | main.py:245-248 | the text a delta adds under a key is that key's string value |
| Aggregator.FinalContent | main.py:263-269 | non-empty reasoning gives `**Reasoning:**\n{r}\n\n**Response:**\n{c}`; an empty result becomes `" "` |
| Aggregator.ReadChoice | main.py:242-252 | the first choice adds its delta's `content` and `reasoning_content` texts and a truthy finish reason, or raises, as the fold step says |
| Aggregator.ReadChunk | main.py:240-252 | a chunk without truthy `choices` changes nothing; otherwise its first choice is read, or Python raises |
| Aggregator.ReadLine | main.py:233-256 | one line adds its first choice's delta texts and truthy finish reason, is skipped, or raises, exactly as the fold step says |
| Aggregator.CompleteChat | main.py:223-292 | the result is the completion built from the fold of all lines, or the first exception raised |
| Aggregator.FoldErrKept | main.py:231-256 | an error in a prefix is the error of the whole |
| Aggregator.FoldAppend | main.py:231-256 | folding two runs of lines is folding the first, then the second from its totals |
| Aggregator.DoneSkipped | main.py:233-236 | the `data: [DONE]` line changes nothing |
| Aggregator.IgnoredLines | main.py:233-256 | a line that is not an event, or whose payload is not JSON, changes nothing |
| Aggregator.DeltaChunkAbsorbed | main.py:240-252 | a delta chunk adds its content and reasoning texts and any truthy finish reason |
| Aggregator.ChunkAbsorbed | main.py:233-252 | one chunk line adds its delta's texts and any truthy finish reason |
| Aggregator.DeltasAggregated | main.py:226-256 | contents and reasoning texts are concatenated separately; the finish reason is the last non-empty one, default `stop` |
| Aggregator.StreamCompleted | main.py:226-256 | the same for a run of chunks closed by `[DONE]` |
| CredentialStore.Stamped | main.py:140-148 | a non-string body is serialised, a string body kept, `timestamp` set to the clock, all other keys unchanged |
| CredentialStore.CredentialManager.constructor | main.py:88-97 | nothing harvested; both events set |
| CredentialStore.CredentialManager.Update | main.py:126-152 | stores the stamped harvest, records the time and releases waiting requests |
| CredentialStore.CredentialManager.UpdateToken | main.py:154-169 | without a harvest or headers nothing changes; a non-dictionary or unsliceable old value raises with no change; otherwise only the reauth header becomes `json.dumps([token])` |
| CredentialStore.CredentialManager.GetCredentials | main.py:194-202 | returns the harvest iff one is held and non-empty |
| CredentialStore.UpdateMakesAvailable | main.py:145-148 | after `update`, credentials are available and carry the update's time |
| CredentialStore.TokenUpdateLocal | main.py:160-162 | a token update leaves every other header and every other part of the harvest as it was |
| CredentialStore.StampedIdempotent | main.py:140-148 | stamping twice with the same clock reading is stamping once |
| DailyStats.Bump | stats_manager.py:61-65 | `requests` +1, prompt and completion tokens + their arguments, `total_tokens` + their sum |
| DailyStats.Pruned | stats_manager.py:100-103 | keeps exactly the dates not below the cutoff, with their values |
| DailyStats.Expired | stats_manager.py:100 | exactly the stored dates below the cutoff |
| DailyStats.DailyStatsManager.constructor | stats_manager.py:10-12 | starts with an empty table |
| DailyStats.DailyStatsManager.GetDateStats | stats_manager.py:74-76 | the stored entry, or an empty map when the date is absent |
| DailyStats.DailyStatsManager.GetTodayStats | stats_manager.py:69-72 | the stored entry for today's date |
| DailyStats.DailyStatsManager.RecordRequest | stats_manager.py:43-67 | creates missing date and model entries at zero, bumps only `stats[date][model]`, and leaves other dates and models unchanged |
| DailyStats.DailyStatsManager.GetRecentDays | stats_manager.py:82-93 | exactly the stored dates among today … today−(days−1), with their stored values |
| DailyStats.DailyStatsManager.CleanupOldData | stats_manager.py:95-107 | removes exactly the dates below the cutoff and keeps the rest unchanged; the count out-parameter stands for the `len(dates_to_remove)` the source prints, since `cleanup_old_data` returns None |
| DailyStats.PrunedIdempotent | stats_manager.py:100-103 | pruning twice with one cutoff is pruning once |
| DailyStats.PrunedMonotone | stats_manager.py:100-103 | a later cutoff prunes at least as much |
| DailyStats.KeptUpwardClosed | stats_manager.py:100-103 | a date above a kept date is kept |
| DailyStats.CutoffKept | stats_manager.py:100 | the cutoff date itself survives pruning |
| Harvester.IsTargetRequest | src/harvester.py:47-49 | true iff the URL contains `batchGraphql` or `StreamGenerateContent` |
| Harvester.IsContentRequest | src/harvester.py:89-90 | true iff the post data contains a content keyword; missing or empty post data never passes |
| Harvester.BodyOf | src/harvester.py:78-86 | the parsed post data, or null when it is absent, empty or unparseable |
| Harvester.FirstMatch | src/harvester.py:69-72 | the index of the first header whose name equals the key ignoring case |
| Harvester.CookieOf | src/harvester.py:75 | the value of the first header named exactly `cookie`, and `""` when there is none |
| Harvester.ExtractHeaders | src/harvester.py:66-72 | the nested loop yields exactly the specified extraction |
| Harvester.CredentialHarvester.constructor | src/harvester.py:38-45 | no credentials and a zero count |
| Harvester.CredentialHarvester.HandleRequest | src/harvester.py:51-134 | a non-target URL or a body without keywords changes nothing; otherwise the capture is stored and the count rises by exactly 1 |
| Harvester.ExtractedOnlyMatches | src/harvester.py:68-72 | every kept header is, under its own name and value, the first match of some key |
| Harvester.ExtractedKeepsFirstMatch | src/harvester.py:68-72 | for keys distinct ignoring case, each key's first match is kept with its original casing and value |
| Harvester.UnmatchedKeyIgnored | src/harvester.py:68-72 | a key that no header matches adds nothing |
| Harvester.ImportantHeadersDistinct | src/harvester.py:21-36 | the fourteen header names differ ignoring case |
| Strings.LStrip | main.py:653 | the result is the input with exactly its leading whitespace removed: a suffix, everything before it whitespace, starting with a non-space character or empty |
| Strings.LStripIdempotent | main.py:653 | stripping twice is stripping once |
| Strings.LStripSpaces | main.py:653 | leading whitespace never changes the result |
| Strings.RStrip | main.py:234 | the result is the input with exactly its trailing whitespace removed: a prefix, everything after it whitespace, ending with a non-space character or empty |
| Strings.RStripSpaces | main.py:234 | exactly the trailing whitespace after a non-space character is removed |
| Strings.ContainsIff | src/harvester.py:49 | `sub in s` holds iff `sub` occurs at some index |
| Strings.Lower | src/harvester.py:70 | same length, each character lower-cased |
| Strings.LexLessIrreflexive | stats_manager.py:100 | no date is below itself |
| Strings.LexLessTransitive | stats_manager.py:100 | string `<` is transitive |
| Strings.LexLessTotal | stats_manager.py:100 | two different strings are ordered exactly one way |
| Strings.IndexOf | main.py:375-376 | the first index of the character, or None iff it is absent |
| Strings.Before | main.py:376 | `s.split(c)[0]`: a prefix without `c`, followed by `c` when shorter |

## Left out

- Floating point: `float(temperature)` and `float(top_p)` are a conversion
  parameter, and JSON numbers are integers.
- Unicode: lower-casing maps ASCII letters only. Whitespace is Python's
  `isspace` set, but without normalisation.
- Dictionary order: JSON objects are maps, so key order, and the order of
  serialised output, is not modelled.
- Concurrency:
  - `refresh_lock`, the asyncio events and their waits are not modelled.
  - The browser refresh, WebSocket broadcasts and the recovery ladder are
    not modelled.
  - The events are booleans, and whether a refresh arrived in time is an
    input of each attempt.
- HTTP, WebSocket, Playwright and FastAPI endpoints are not modelled. Nor is
  the network: each attempt's outcome is given as a script.
- Disk persistence (`save_to_disk`, `load_stats`/`save_stats`) and reading
  `models.json` are not modelled. The alias map is a parameter.
- Clocks, `uuid4` and the Beijing date are parameters. The staleness warning
  in `get_credentials` only prints.
- `json.loads`, `json.dumps` and `raw_decode` are parameters. `raw_decode` is
  assumed to consume at least one character and no more than the buffer.
- Logging, `print` and the harvester's credential callback are not modelled.
- JsonValue.Render: Python's `str()` of a list or dictionary is not modelled.
  Render gives `"[...]"` and `"{...}"` instead. This text reaches the image
  markdown of main.py:809-816 only when a truthy `mimeType`, `data` or `uri`
  is a list or dictionary. Strings, numbers, booleans and null are exact.
- CredentialStore.CredentialManager.Update: the caller's dictionary is mutated
  in place (its `body` and `timestamp`). The model stores a new map, so the
  aliasing with the caller's data is not captured.
- RequestBuilder.ApplySampling: all four conversions are checked before any
  field is written. Python raises part-way, but the request fails either way,
  so only the error text differs.
- StreamDecoder.FrameDecoder.Feed: uses the corrected resynchronising branch
  (see Findings). With the branch as written the loop need not terminate.
- StreamDecoder.ChunkingInvariant: fragment boundaries are shown not to
  matter only for a decoder that raises nothing but JSONDecodeError and whose
  decoded values do not depend on the text after them. A bare number at the
  end of a fragment (`12` before `3` arrives) is decoded early, so there
  the boundaries do matter.
- Harvester.CredentialHarvester.HandleRequest: the request's headers are a
  list of name/value pairs in the browser's order. Exceptions from the
  Playwright calls are not modelled, and the capture time is an integer
  parameter.
- StreamSession.StreamChat: the chunk lines of an attempt are given. Their
  production by the decoder and the translator is modelled separately.
- DailyStats.DailyStatsManager.GetRecentDays: the date of day `i` before
  today is a parameter. Calendar arithmetic is not modelled.

## Findings

| source | as written | input that shows it | evidently intended | confidence | as-written member | corrected member |
|---|---|---|---|---|---|---|
| main.py:687-702 | when `raw_decode` raises something other than JSONDecodeError, the buffer is cut to its earliest `[` or `{`, which is index 0 when the buffer starts with `{` | the buffer `{"a":` followed by 5000 digits: on Python 3.11 and later `raw_decode` raises ValueError (the integer exceeds the 4300-digit conversion limit), not JSONDecodeError, the buffer is cut at index 0, so it is unchanged, and the loop repeats the same turn forever | skip past the failing character to the next `[` or `{`, so every turn makes progress | medium, not executed | StreamDecoder.ResyncAsWrittenStallsOnLongInteger | StreamDecoder.ResyncProgress |
