# Chat backend of the anatomy explorer, modelled in Dafny

The backend of the anatomy explorer (`backend/server.py`) answers
`POST /api/chat`. It turns the client's conversation into the `contents` of a
Gemini request. It reads the tool calls and the reply text out of Gemini's top
candidate. It asks the Dedalus Labs tutor for study information, guided by a
keyword routing heuristic. It reports every stage as an agent step. This
project models the deterministic parts of that handler over a JSON-like value
type and proves what they promise.

Modules, one per concern of the source:

- `Json` (`json.dfy`): the Python view of decoded JSON. It gives `Value`,
  truthiness, `dict.get`, what a `for` loop iterates, and the exceptions
  (`AttributeError`, `TypeError`, `KeyError`) that the code lets escape when
  the data has the wrong shape. Those exceptions are modelled as the
  `Outcome.Raised` result, because the source does not guard against them.
- `Text` (`text.dfy`): `strip`, `lower`, `split`, `title`, `replace`, `in`,
  `startswith` and `join`, with lemmas characterising `strip` and `title`.
- `GeminiContents` (`contents.dfy`): `_build_contents`.
- `DedalusRouting` (`routing.dfy`): `should_route`, `_latest_user_text` and
  `build_prompt`.
- `DedalusFragments` (`fragments.dfy`): `_extract_text_fragments`.
- `GeminiReply` (`reply.dfy`): tool-call extraction with argument
  normalisation, and the reply text with its fallback.
- `ChatEndpoint` (`chat.dfy`): `chat()` itself, with the `record_step` trail
  as a class whose `steps` list grows by appends. The network answers are
  inputs. `Exchanges` says how Gemini and Dedalus answered, and
  `Environment` holds the configuration.

The imperative code of the source (the loops of `_build_contents`,
`build_prompt` and the parts loop, and the step trail) are methods. Each is
proved equal to a recursive specification function. The properties are
lemmas about those functions.

A stage in progress is recorded with the status `started`
(`StepStatus.Started`); `complete` and `error` close it.

## Model

| member | source | states |
|---|---|---|
| `Json.DictItems` | backend/server.py:464-465 | `for x in (v or []): x.get(...)` yields the list's items exactly when `v` is false or a list of dicts; anything else raises |
| `Json.FieldOr` | backend/server.py:462-465 | `d.get(key, default)`: the value of the key's field when present, the default otherwise |
| `Json.Get` | backend/server.py:613-614 | `.get` returns exactly on a dict, the key's value or the default, and raises AttributeError on anything else |
| `Json.Iterate` | backend/server.py:619 | a `for` loop visits a list's items, a string's one-character strings or a dict's keys, and raises TypeError on any other value |
| `Json.IterateOrEmpty` | backend/server.py:464-465 | `for x in (v or [])` visits nothing for a false value and a list's items for a list |
| `Text.Strip` | backend/server.py:450 | `strip()` returns a stripped string no longer than its input |
| `Text.Lower` | backend/server.py:285 | `lower()` keeps the length and lower-cases each character |
| `Text.Title` | backend/server.py:533 | `title()` keeps the length, lower-cases a character that follows a cased letter and upper-cases every other one |
| `Text.ReplaceChar` | backend/server.py:533 | `replace('_', ' ')` swaps exactly the underscores |
| `Text.SplitCount` | backend/server.py:308 | `split()` returns one word for every non-whitespace character that starts a run, which is what `len(lowered.split())` counts |
| `Text.StripCharacterised` | backend/server.py:450 | `strip` returns the slice between a whitespace prefix and a whitespace suffix; the result is empty iff the text is all whitespace; a stripped string is a fixed point |
| `Text.SplitWords` | backend/server.py:308 | every word of `split()` is non-empty and holds no whitespace |
| `Text.TitleIdempotent` | backend/server.py:533 | title-casing twice equals title-casing once |
| `Text.JoinStripped` | backend/server.py:643 | joining non-empty stripped pieces gives a stripped string, empty iff there are no pieces |
| `GeminiContents.MessageContents` | backend/server.py:461-506 | what one message yields: it converts exactly when it is well shaped, and a message of another role yields nothing |
| `GeminiContents.ConversationContents` | backend/server.py:459-507 | the contents of the whole conversation; when it raises, some message raises that exception |
| `GeminiContents.BuildContents` | backend/server.py:459-507 | the loop that appends to `contents` returns exactly the conversation's contents, or the first exception raised |
| `GeminiContents.ConvertMessage` | backend/server.py:461-506 | one pass of the loop body: the role selects the user branch, the assistant branch, or nothing |
| `GeminiContents.UserContent` | backend/server.py:470-483 | the user branch: the text part, then one `functionResponse` part per tool result, appended in a loop |
| `GeminiContents.AssistantContents` | backend/server.py:484-506 | the assistant branch: a `model` content with the text and `functionCall` parts, then the tool-result contents |
| `GeminiContents.ResultContentsLoop` | backend/server.py:494-506 | one single-part `user` content per tool result, in order |
| `GeminiContents.ResponseParts` | backend/server.py:474-482 | one `functionResponse` part per tool result |
| `GeminiContents.CallParts` | backend/server.py:488-492 | one `functionCall` part per tool call |
| `GeminiContents.ContentsReturnedIff` | backend/server.py:461-468 | `_build_contents` returns exactly when every message is a dict with a hashable role and list-of-dict `toolCalls`/`toolResults` where its branch iterates them |
| `GeminiContents.MessageReturnedIff` | backend/server.py:461-468 | one message converts exactly when it is well shaped |
| `GeminiContents.OtherRolesDropped` | backend/server.py:467-468 | a message whose role is neither `user` nor `assistant` changes nothing wherever it stands |
| `GeminiContents.ContentsConcat` | backend/server.py:460-461 | messages convert in input order: the contents of `a + b` are those of `a` followed by those of `b`, and the first exception wins |
| `GeminiContents.RaisedPrefix` | backend/server.py:459-507 | once a prefix of the conversation raises, the whole call raises the same exception |
| `GeminiContents.ContentCount` | backend/server.py:459-507 | the number of contents is 1 per user message plus `1 + len(toolResults)` per assistant message |
| `GeminiContents.ContentsProper` | backend/server.py:483 | every content has role `user` or `model` and a non-empty `parts` list |
| `GeminiContents.UserMessageContents` | backend/server.py:470-483 | a user message gives one `user` content: the text part first when the text is true, then the `functionResponse` parts in order, and `[{'text': ''}]` when there is no part |
| `GeminiContents.AssistantModelContent` | backend/server.py:484-493 | an assistant message gives a `model` content: the text part first when true, then the `functionCall` parts in order, with the same fallback |
| `GeminiContents.AssistantResultContents` | backend/server.py:494-506 | after the `model` content, one `user` content per tool result, whose only part is that result's `functionResponse` |
| `GeminiContents.FunctionResponseDefaults` | backend/server.py:476-482 | the name defaults to `unknown_tool`; without a `response`, the response is `{status: result.get('status', 'ok'), detail: result.get('message')}`, so a present status is kept whatever its value |
| `DedalusRouting.StrippedText` | backend/server.py:450 | `(message.get('text') or '').strip()`: `''` for a false text, the stripped string for a string, and AttributeError exactly for a true non-string |
| `DedalusRouting.LatestUserText` | backend/server.py:445-453 | the scan returns a stripped text, and raises only when some message is not passed over |
| `DedalusRouting.LatestUserTextEmpty` | backend/server.py:445-453 | `_latest_user_text` returns `''` iff every message is a non-user message or a user message with blank text |
| `DedalusRouting.LatestUserTextFound` | backend/server.py:445-453 | the stripped text of the last user message with non-blank text is what it returns |
| `DedalusRouting.LatestUserTextSound` | backend/server.py:445-453 | a non-empty result is the stripped text of the last user message with text, and every later message is passed over |
| `DedalusRouting.LatestUserTextStep` | backend/server.py:447-452 | one step of the backwards scan: the last message holds the answer or is passed over |
| `DedalusRouting.RouteLowered` | backend/server.py:294-311 | the answer is true exactly when no excluded keyword occurs and the text starts with a question trigger, contains `?`, or has at least six words (counted by `Text.WordStarts`) and a medical marker |
| `DedalusRouting.ShouldRoute` | backend/server.py:274-311 | disabled or with a tool call the answer is false; a true answer needs a non-empty latest user text |
| `DedalusRouting.ExclusionWins` | backend/server.py:281-295 | for every conversation, an excluded keyword in the latest user message with text makes `should_route` false, whatever triggers it holds |
| `DedalusRouting.ShouldRouteSpec` | backend/server.py:274-311 | routing happens iff the service is enabled, no tool was called, and the latest user text passes the keyword rule; with no such text the answer is false |
| `DedalusRouting.RoutingIgnoresHistory` | backend/server.py:281-311 | only the latest user message with text decides the routing |
| `DedalusRouting.ExclusionWinsExample` | backend/server.py:294-306 | an excluded keyword wins over a question mark |
| `DedalusRouting.BuildPrompt` | backend/server.py:313-334 | the loop builds the guidance, the newline-joined transcript and the closing request, or raises as the transcript does |
| `DedalusRouting.TranscriptCount` | backend/server.py:319-326 | one transcript line per user or assistant message with non-blank text |
| `DedalusRouting.TranscriptLines` | backend/server.py:320-326 | every line is `Learner: ` or `Guide: ` followed by a non-empty stripped text |
| `DedalusRouting.TranscriptAppend` | backend/server.py:320-326 | a spoken message appends its own speaker and stripped text after the earlier lines, and any other message appends nothing, so lines follow message order |
| `DedalusRouting.TranscriptRaisedPrefix` | backend/server.py:319-326 | once a prefix raises, the transcript raises the same exception |
| `DedalusFragments.Fragments` | backend/server.py:396-443 | `None`, numbers and booleans give no fragment; a string is kept exactly when there is no hint or the hint names text; a dict's own string `text` is its first fragment |
| `DedalusFragments.ItemsFragments` | backend/server.py:434-438 | a list of strings under a hint that allows them yields each string, in order |
| `DedalusFragments.FieldsFragments` | backend/server.py:414-432 | a dict whose every key is a metadata key yields nothing |
| `DedalusFragments.FragmentsOccur` | backend/server.py:396-443 | every fragment is a string of the payload reached through list items and non-metadata fields |
| `DedalusFragments.FragmentsComplete` | backend/server.py:396-438 | under no hint or a hint that names text, every string reached through list items and non-metadata fields is a fragment, because a key that names no text passes the hint in force on (server.py:429-431) |
| `DedalusFragments.StreamedDeltaFound` | backend/server.py:407-438 | the streamed shape `{"choices": [{"delta": {"content": s}}]}` yields `s` |
| `DedalusFragments.ItemsConcat` | backend/server.py:434-438 | list items contribute their fragments in order |
| `DedalusFragments.FieldsConcat` | backend/server.py:426-432 | dict fields contribute their fragments in order |
| `DedalusFragments.IgnoredFieldSkipped` | backend/server.py:414-428 | a field with an ignored key contributes nothing |
| `DedalusFragments.TextualHintLikeNone` | backend/server.py:400-405 | under a hint that names text, extraction is the same as with no hint |
| `DedalusFragments.TextualFieldFound` | backend/server.py:426-431 | a string under a non-ignored key that names text is always extracted |
| `DedalusFragments.InlineTextTwice` | backend/server.py:410-431 | `{'text': s}` yields `s` twice, once inline and once through the key loop |
| `GeminiReply.NormaliseArgs` | backend/server.py:624-634 | a blank string and an undecodable string give `{}`; a dict is kept; other non-strings give `{}`; a decoded non-object value is kept as it is |
| `GeminiReply.ClassifyPart` | backend/server.py:619-639 | a dict part with `text` is the fragment `part['text']`; a dict part with a dict `functionCall` and no `text` is one call with name default `''` and normalised args; other shapes are ignored or raise |
| `GeminiReply.ScanParts` | backend/server.py:619-639 | the fragments and tool calls of the parts loop, at most one per part, or the first exception |
| `GeminiReply.ExtractParts` | backend/server.py:616-639 | the parts loop appends exactly the fragments and calls of the specification, or raises as it does |
| `GeminiReply.ScanCounts` | backend/server.py:619-639 | one fragment per part with `text`, one tool call per part with `functionCall` and no `text` |
| `GeminiReply.ScanConcat` | backend/server.py:619-639 | fragments and tool calls keep the order of their parts |
| `GeminiReply.ScanOneCall` | backend/server.py:622-639 | a single call part adds exactly one tool call with its defaulted name and normalised args |
| `GeminiReply.ScanRaisedPrefix` | backend/server.py:619-639 | once a prefix of the parts raises, the whole loop raises the same exception |
| `GeminiReply.StrippedFragments` | backend/server.py:643 | the pieces are `Kept`: the stripped text of each non-blank fragment, front to back; a non-string fragment raises AttributeError |
| `GeminiReply.JoinedReplySpec` | backend/server.py:643 | the reply text exists iff every fragment is a string; it is the newline-join of the stripped non-blank fragments in order, it is stripped, and empty iff every fragment is blank |
| `GeminiReply.FinalReply` | backend/server.py:698-705 | a non-empty reply is kept; an empty reply stays empty iff tools were called, and otherwise becomes `I am processing your request.` |
| `ChatEndpoint.Label` | backend/server.py:533 | a table id gets its table label; any other id a label of the same length with a space exactly where it had an underscore |
| `ChatEndpoint.LabelFallback` | backend/server.py:533 | an id outside the table is labelled by turning `_` into spaces and title-casing, and that label is already title-cased |
| `ChatEndpoint.LabelFallbackExample` | backend/server.py:533 | `tool_call` is labelled `Tool Call` |
| `ChatEndpoint.TableLabels` | backend/server.py:37-46 | every step id `chat()` records is labelled from the table |
| `ChatEndpoint.StepTrail.constructor` | backend/server.py:530 | the trail starts empty |
| `ChatEndpoint.StepTrail.Record` | backend/server.py:532-540 | `record_step` appends exactly one step and changes nothing else |
| `ChatEndpoint.TopCandidate` | backend/server.py:605-612 | no candidate iff `candidates` is missing or false; a non-empty list gives its first item, a non-empty string its first character; a non-empty dict raises KeyError, a true number TypeError, a non-dict body AttributeError |
| `ChatEndpoint.CandidateParts` | backend/server.py:612-619 | the iteration of `top.get('content', {}).get('parts', [])`: AttributeError when the candidate or its content is not a dict, no parts without a content |
| `ChatEndpoint.StudyInfo` | backend/server.py:672 | the stripped answer when that is not blank, and `Study information is currently unavailable.` otherwise |
| `ChatEndpoint.DedalusStage` | backend/server.py:647-696 | disabled gives two steps and the unavailable notice; enabled, it is the Dedalus call under the hint `should_route` gives, or that call's exception; study information is never empty |
| `ChatEndpoint.DedalusCall` | backend/server.py:648-696 | a started dispatch carrying `heuristicSuggested` as the hint, then the closing steps and study information of `DedalusAnswered`; it raises exactly when the prompt's transcript raises |
| `ChatEndpoint.DedalusAnswered` | backend/server.py:660-684 | the dispatch and receive steps share one status, `complete` exactly when Dedalus answered with text; the study information is then `StudyInfo` of the answer, and otherwise the unavailable notice |
| `ChatEndpoint.AnswerFrom` | backend/server.py:612-724 | once there is a top candidate, the handler answers or crashes; it never reports a gateway failure |
| `ChatEndpoint.ChatReply` | backend/server.py:527-724 | the handler's response: the missing-key answer exactly without a key, with no tool calls and two steps; a crash when the contents cannot be built |
| `ChatEndpoint.Dispatched` | backend/server.py:572-603 | a request failure gives the unreachable-gateway error with two more steps; every answer extends the trail so far |
| `ChatEndpoint.FromCandidates` | backend/server.py:604-612 | a gateway failure exactly when there is no candidate, with two more steps |
| `ChatEndpoint.Chat` | backend/server.py:527-724 | the handler, appending to one trail as it goes, returns exactly the response of the specification |
| `ChatEndpoint.Dispatch` | backend/server.py:572-603 | the call to Gemini and its two outcomes; the response is `Dispatched` of the old trail, and the trail then holds exactly the response's steps |
| `ChatEndpoint.ReadCandidates` | backend/server.py:604-612 | the candidate check; the response is `FromCandidates` of the old trail, and the trail then holds exactly the response's steps |
| `ChatEndpoint.Answer` | backend/server.py:612-724 | the rest of the handler once there is a top candidate; the trail then holds exactly the response's steps |
| `ChatEndpoint.RecordDedalus` | backend/server.py:647-696 | the Dedalus branch appends its steps and returns the study information |
| `ChatEndpoint.RecordDedalusCall` | backend/server.py:648-684 | the started step, the prompt, and the outcome of the Dedalus call |
| `ChatEndpoint.RecordDedalusAnswer` | backend/server.py:660-684 | two completions when Dedalus answered with text, two errors otherwise |
| `ChatEndpoint.RenderingReplyLast` | backend/server.py:532-712 | every exit path that answers ends its trail with the only `rendering_reply` step, which is `error` exactly on the missing-key, request-failure and no-candidate paths |
| `ChatEndpoint.TrailWithoutKey` | backend/server.py:542-553 | without an API key the reply is the fixed notice and the trail is a failed read and a failed rendering |
| `ChatEndpoint.TrailOnRequestFailure` | backend/server.py:594-602 | on a request failure the started dispatch fails and the rendering fails after it |
| `ChatEndpoint.TrailWithoutCandidates` | backend/server.py:604-610 | without candidates the extraction fails and the rendering fails after it |
| `ChatEndpoint.ChatDispatched` | backend/server.py:555-572 | with a key and buildable contents, the trail opens with a completed read, a completed augmentation and a started dispatch |
| `ChatEndpoint.DedalusStageShape` | backend/server.py:647-696 | Dedalus disabled gives two errors; enabled gives a start then two completions or two errors; study information is never empty |
| `ChatEndpoint.AnsweredReply` | backend/server.py:643-712 | a successful reply is stripped, empty only when tools were called, and reported exactly by the final rendering step |
| `ChatEndpoint.AnsweredTrailOpening` | backend/server.py:555-641 | a successful trail opens with the five Gemini steps and a completed extraction that counts the tool calls |
| `ChatEndpoint.AnswerFromSteps` | backend/server.py:641-712 | a successful trail is exactly the trail so far, the completed extraction, the steps of `DedalusStage` and the rendering step |

## Left out

- The Flask app, its routes, `jsonify`, HTTP status codes and CORS: transport plumbing. `ChatEndpoint.ChatResponse` keeps only the body's fields, and the payload's `messages` arrive already as a list.
- `requests.post` to Gemini, `raise_for_status` and `response.json()`: network calls. Only their outcome is modelled, as `GeminiExchange` (a failure message, or a status code, a latency and the decoded body).
- GeminiExchange: a successful reply whose body is not valid JSON cannot be represented. `response.json()` (backend/server.py:604) sits outside the `try`, so that exception escapes the handler; the model has no such outcome.
- `json.loads`: a foreign call. It is the parameter `parse`, which gives `None` where Python raises `JSONDecodeError`.
- The Dedalus event loop, thread, lock, runner, `ask`, `_consume_result` and `_coerce_to_text`: concurrency and a foreign SDK. The answer of `ask` and the latency around it are inputs in `Exchanges`.
- The `hasattr(payload, '__dict__')` branch and set iteration of `_extract_text_fragments`: they need runtime reflection and unordered sets, which JSON values do not have.
- `perf_counter` latencies, float rounding and `datetime.now` timestamps: clock reads. Latencies are integer inputs and steps carry no timestamp.
- Environment configuration, logging, `SYSTEM_PROMPT` and `TOOLS`: static data without behaviour. The request body sent to Gemini is not modelled beyond its `contents`.
- Json.Value: numbers are integers. JSON floats are not distinguished, since no modelled code does arithmetic on them.
- Text.Lower: lower-cases ASCII letters only, not the full Unicode case mapping of Python's `str.lower`.
- Text.Title: title-cases ASCII letters only. The step ids it is applied to are ASCII.
- The client-side tool-call dispatcher, region resolver, view-state reducer and trace scheduler: they are not part of this model, since their source is not among the files modelled.
