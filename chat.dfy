/** The `/api/chat` endpoint, `chat()` in backend/server.py:525-724, as a
    sequence of decisions over its inputs. What the network and the Dedalus
    SDK answer are inputs: `Exchanges` says what Gemini and Dedalus did.
    The agent-step trail is the list `record_step` appends to. */
module ChatEndpoint {
  import opened Json
  import opened Text
  import GeminiContents
  import DedalusRouting
  import opened GeminiReply

  /** The steps `chat()` records. */
  datatype StepId =
    | ReadingPrompt
    | AugmentingContext
    | DispatchingToGemini
    | ReceivingGeminiResponse
    | ExtractingToolCalls
    | DispatchingToDedalus
    | ReceivingDedalusResponse
    | RenderingReply

  /** The id string a step is recorded under. */
  function IdName(id: StepId): string {
    match id
    case ReadingPrompt => "reading_prompt"
    case AugmentingContext => "augmenting_context"
    case DispatchingToGemini => "dispatching_to_gemini"
    case ReceivingGeminiResponse => "receiving_gemini_response"
    case ExtractingToolCalls => "extracting_tool_calls"
    case DispatchingToDedalus => "dispatching_to_dedalus"
    case ReceivingDedalusResponse => "receiving_dedalus_response"
    case RenderingReply => "rendering_reply"
  }

  /** `AGENT_STEP_LABELS` (server.py:37-46). */
  const AgentStepLabels: map<string, string> := map[
    "reading_prompt" := "Reading user prompt",
    "augmenting_context" := "Augmenting context",
    "dispatching_to_gemini" := "Dispatching to Gemini",
    "receiving_gemini_response" := "Receiving response from Gemini",
    "extracting_tool_calls" := "Extracting tool calls",
    "dispatching_to_dedalus" := "Dispatching to Dedalus Labs",
    "receiving_dedalus_response" := "Receiving response from Dedalus Labs",
    "rendering_reply" := "Rendering final reply"]

  /** The label of a step (server.py:533): the table entry, or the id with
      underscores turned into spaces and title-cased. */
  function Label(id: string): (r: string)
    ensures id in AgentStepLabels ==> r == AgentStepLabels[id]
    ensures id !in AgentStepLabels ==> |r| == |id| && forall i :: 0 <= i < |id| ==> (id[i] == '_' <==> r[i] == ' ' && id[i] != ' ')
  {
    if id in AgentStepLabels then AgentStepLabels[id] else Title(ReplaceChar(id, '_', ' '))
  }

  /** The fallback label keeps the id's length, puts a space for every
      underscore, upper-cases each letter that starts a word and lower-cases
      every other letter; title-casing it again changes nothing. */
  lemma LabelFallback(id: string)
    requires id !in AgentStepLabels
    ensures |Label(id)| == |id|
    ensures forall i :: 0 <= i < |id| ==>
      Label(id)[i] ==
        if id[i] == '_' then ' '
        else if i > 0 && IsCased(id[i - 1]) then LowerChar(id[i])
        else UpperChar(id[i])
    ensures Title(Label(id)) == Label(id)
  {
    TitleIdempotent(ReplaceChar(id, '_', ' '));
  }

  /** A step whose id is not in the table still gets a readable label. */
  lemma LabelFallbackExample()
    ensures Label("tool_call") == "Tool Call"
  {
    LabelFallback("tool_call");
  }

  datatype StepStatus = Started | Complete | Error

  /** One entry of `agentSteps`; its label is a function of its id and the
      timestamp is not modelled. */
  datatype Step = Step(id: StepId, status: StepStatus, detail: Value) {
    /** The `label` entry `record_step` stores. */
    function LabelText(): string {
      Label(IdName(id))
    }
  }

  /** The step `record_step(id, detail, status)` appends. */
  function StepOf(id: StepId, status: StepStatus, detail: seq<(string, Value)>): Step {
    Step(id, status, Obj(detail))
  }

  /** Every id `chat()` records is an entry of the label table, so each of
      its steps is labelled from the table. */
  lemma TableLabels(id: StepId)
    ensures IdName(id) in AgentStepLabels
    ensures Step(id, Started, Null).LabelText() == AgentStepLabels[IdName(id)]
  {
  }

  /** The `steps` list and its `record_step` closure. */
  class StepTrail {
    var steps: seq<Step>

    constructor()
      ensures steps == []
    {
      steps := [];
    }

    /** `record_step(id, detail, status)` (server.py:532-540). */
    method Record(id: StepId, status: StepStatus, detail: seq<(string, Value)>)
      modifies this
      ensures steps == old(steps) + [Step(id, status, Obj(detail))]
    {
      steps := steps + [Step(id, status, Obj(detail))];
    }
  }

  /** How the call to Gemini ended (server.py:575-604). An HTTP error status
      makes `raise_for_status` raise, so it arrives as `RequestFailed`; the
      body of a successful response is given already decoded. */
  datatype GeminiExchange =
    | RequestFailed(message: string)
    | Responded(statusCode: int, latencyMs: int, data: Value)

  /** The server's configuration. */
  datatype Environment = Environment(
    apiKeyConfigured: bool,
    geminiModel: string,
    dedalusEnabled: bool,
    dedalusModel: string)

  /** What the outside world answered: Gemini, and `dedalus_service.ask`
      with the latency measured around it. */
  datatype Exchanges = Exchanges(
    gemini: GeminiExchange,
    dedalusAnswer: Option<string>,
    dedalusLatencyMs: int)

  /** What `chat()` returns. `Crashed` is an exception that escapes the
      handler; the response then carries no steps. */
  datatype ChatResponse =
    | NotConfigured(reply: string, toolCalls: seq<ToolCall>, steps: seq<Step>)
    | GatewayFailure(error: string, steps: seq<Step>)
    | Answered(
        reply: string,
        toolCalls: seq<ToolCall>,
        replySource: string,
        studyInfo: string,
        finishReason: Value,
        safetyRatings: Value,
        steps: seq<Step>)
    | Crashed(exception: PyError)

  const NotConfiguredReply: string :=
    "The Dedalus Labs assistant is not yet connected to Gemini. "
    + "Configure the GEMINI_API_KEY environment variable on the server to enable live responses."
  const GatewayUnreachable: string := "Failed to reach Gemini LLM API."
  const NoCandidates: string := "Gemini returned no candidates."
  const StudyUnavailable: string := "Study information is currently unavailable."

  /** `candidates = data.get('candidates', [])`, then `candidates[0]` when
      that is true: None when there is no candidate. */
  function TopCandidate(data: Value): (r: Outcome<Option<Value>>)
    ensures !data.Obj? ==> r == Raised(AttributeError)
    ensures r == Returned(None) <==> data.Obj? && !Truthy(FieldOr(data.fields, "candidates", Arr([])))
    ensures data.Obj? ==>
      var candidates := FieldOr(data.fields, "candidates", Arr([]));
      && (candidates.Arr? && candidates.items != [] ==> r == Returned(Some(candidates.items[0])))
      && (candidates.Str? && candidates.s != [] ==> r == Returned(Some(Str([candidates.s[0]]))))
      && (candidates.Obj? && candidates.fields != [] ==> r == Raised(KeyError))
      && ((candidates.Num? || candidates.Bool?) && Truthy(candidates) ==> r == Raised(TypeError))
  {
    if !data.Obj? then Raised(AttributeError)
    else
      var candidates := FieldOr(data.fields, "candidates", Arr([]));
      if !Truthy(candidates) then Returned(None)
      else
        match candidates
        case Arr(items) => Returned(Some(items[0]))
        case Str(s) => Returned(Some(Str([s[0]])))
        case Obj(_) => Raised(KeyError)
        case _ => Raised(TypeError)
  }

  /** `top_candidate.get('content', {}).get('parts', [])`, iterated. */
  function CandidateParts(top: Value): (r: Outcome<seq<Value>>)
    ensures !top.Obj? ==> r == Raised(AttributeError)
    ensures top.Obj? ==>
      var content := FieldOr(top.fields, "content", Obj([]));
      && (!content.Obj? ==> r == Raised(AttributeError))
      && (content.Obj? ==> r == Iterate(FieldOr(content.fields, "parts", Arr([]))))
    ensures top.Obj? && !HasKey(top.fields, "content") ==> r == Returned([])
  {
    match Get(top, "content", Obj([]))
    case Raised(e) => Raised(e)
    case Returned(content) =>
      match Get(content, "parts", Arr([]))
      case Raised(e) => Raised(e)
      case Returned(parts) => Iterate(parts)
  }

  /** `dedalus_reply.strip() or 'Study information is currently unavailable.'` */
  function StudyInfo(answer: string): (r: string)
    ensures r != []
    ensures Strip(answer) != [] ==> r == Strip(answer)
    ensures Strip(answer) == [] ==> r == StudyUnavailable
  {
    if Strip(answer) != [] then Strip(answer) else StudyUnavailable
  }

  /** The Dedalus steps and `study_info` (server.py:645-696), or the
      exception `should_route` or `build_prompt` raises. */
  function DedalusStage(env: Environment, world: Exchanges, messages: seq<Value>, toolCalls: seq<ToolCall>)
    : (r: Outcome<(seq<Step>, string)>)
    ensures !env.dedalusEnabled ==> r.Returned? && r.value.1 == StudyUnavailable
    ensures r.Returned? ==> r.value.1 != [] && |r.value.0| == (if env.dedalusEnabled then 3 else 2)
    ensures env.dedalusEnabled && DedalusRouting.ShouldRoute(true, messages, toolCalls).Returned? ==>
      r == DedalusCall(env, world, messages, DedalusRouting.ShouldRoute(true, messages, toolCalls).value)
    ensures env.dedalusEnabled && DedalusRouting.ShouldRoute(true, messages, toolCalls).Raised? ==>
      r == Raised(DedalusRouting.ShouldRoute(true, messages, toolCalls).error)
  {
    if !env.dedalusEnabled then
      Returned(([StepOf(DispatchingToDedalus, Error, [("reason", Str("dedalus_disabled"))]),
                 StepOf(ReceivingDedalusResponse, Error, [("reason", Str("dedalus_disabled"))])],
                StudyUnavailable))
    else
      match DedalusRouting.ShouldRoute(true, messages, toolCalls)
      case Raised(e) => Raised(e)
      case Returned(hint) => DedalusCall(env, world, messages, hint)
  }

  /** The call to Dedalus once `should_route` gave its hint (server.py:652-696):
      the started step, the prompt, and the outcome. */
  function DedalusCall(env: Environment, world: Exchanges, messages: seq<Value>, hint: bool)
    : (r: Outcome<(seq<Step>, string)>)
    ensures r.Raised? <==> DedalusRouting.Transcript(messages).Raised?
    ensures r.Returned? ==> |r.value.0| == 3 && r.value.0[0].id == DispatchingToDedalus && r.value.0[0].status == Started
    ensures r.Returned? ==>
      && r.value.0[0].detail.Obj? && Lookup(r.value.0[0].detail.fields, "heuristicSuggested") == Some(Bool(hint))
      && r.value.0[1..] == DedalusAnswered(env, world, hint).0
      && r.value.1 == DedalusAnswered(env, world, hint).1
  {
    var started := StepOf(DispatchingToDedalus, Started,
      [("model", Str(env.dedalusModel)), ("heuristicSuggested", Bool(hint))]);
    match DedalusRouting.Transcript(messages)
    case Raised(e) => Raised(e)
    case Returned(_) =>
      var (answered, studyInfo) := DedalusAnswered(env, world, hint);
      Returned(([started] + answered, studyInfo))
  }

  /** The two steps that close the call to Dedalus and `study_info`
      (server.py:664-696): completions when it answered with text, errors
      otherwise. */
  function DedalusAnswered(env: Environment, world: Exchanges, hint: bool): (r: (seq<Step>, string))
    ensures |r.0| == 2 && r.0[0].id == DispatchingToDedalus && r.0[1].id == ReceivingDedalusResponse
    ensures var answered := world.dedalusAnswer.Some? && world.dedalusAnswer.value != [];
      && r.0[0].status == r.0[1].status
      && (r.0[1].status == Complete <==> answered)
      && (!answered ==> r.0[1].status == Error && r.1 == StudyUnavailable)
      && (answered ==> r.1 == StudyInfo(world.dedalusAnswer.value))
    ensures r.1 != []
  {
    if world.dedalusAnswer.Some? && world.dedalusAnswer.value != [] then
      var latency := Num(world.dedalusLatencyMs);
      ([StepOf(DispatchingToDedalus, Complete,
          [("model", Str(env.dedalusModel)), ("latencyMs", latency), ("heuristicSuggested", Bool(hint))]),
        StepOf(ReceivingDedalusResponse, Complete, [("latencyMs", latency)])],
       StudyInfo(world.dedalusAnswer.value))
    else
      ([StepOf(DispatchingToDedalus, Error,
          [("reason", Str("dedalus_request_failed")), ("model", Str(env.dedalusModel))]),
        StepOf(ReceivingDedalusResponse, Error, [("reason", Str("dedalus_request_failed"))])],
       StudyUnavailable)
  }

  /** The first three steps once the API key is configured. */
  function OpeningSteps(messageCount: nat, contentCount: nat, model: string): seq<Step> {
    [StepOf(ReadingPrompt, Complete, [("messageCount", Num(messageCount))]),
     StepOf(AugmentingContext, Complete, [("contentCount", Num(contentCount))]),
     StepOf(DispatchingToGemini, Started, [("model", Str(model))])]
  }

  /** The two steps after Gemini answered. */
  function ReceivedSteps(statusCode: int, latencyMs: int, model: string): seq<Step> {
    [StepOf(DispatchingToGemini, Complete,
       [("model", Str(model)), ("latencyMs", Num(latencyMs)), ("statusCode", Num(statusCode))]),
     StepOf(ReceivingGeminiResponse, Complete, [("statusCode", Num(statusCode))])]
  }

  /** `chat()` from the top candidate on (server.py:613-724). */
  function AnswerFrom(env: Environment, world: Exchanges, messages: seq<Value>, parse: string -> Option<Value>,
                      top: Value, before: seq<Step>): (r: ChatResponse)
    ensures r.Answered? || r.Crashed?
  {
    match CandidateParts(top)
    case Raised(e) => Crashed(e)
    case Returned(parts) =>
      match ScanParts(parts, parse)
      case Raised(e) => Crashed(e)
      case Returned(x) =>
        var extracted := StepOf(ExtractingToolCalls, Complete, [("toolCallCount", Num(|x.toolCalls|))]);
        match JoinedReply(x.fragments)
        case Raised(e) => Crashed(e)
        case Returned(text) =>
          match DedalusStage(env, world, messages, x.toolCalls)
          case Raised(e) => Crashed(e)
          case Returned((dedalusSteps, studyInfo)) =>
            var reply := FinalReply(text, x.toolCalls);
            var rendering := StepOf(RenderingReply, Complete,
              [("hasText", Bool(reply != [])), ("toolCallCount", Num(|x.toolCalls|)),
               ("replySource", Str("gemini")), ("studyInfoLength", Num(|studyInfo|))]);
            Answered(reply, x.toolCalls, "gemini", studyInfo,
              FieldOr(top.fields, "finishReason", Null), FieldOr(top.fields, "safetyRatings", Null),
              before + [extracted] + dedalusSteps + [rendering])
  }

  /** The two steps of a request made without an API key (server.py:542-552). */
  function MissingKeySteps(messageCount: nat): seq<Step> {
    [StepOf(ReadingPrompt, Error, [("messageCount", Num(messageCount))]),
     StepOf(RenderingReply, Error, [("reason", Str("missing_api_key"))])]
  }

  /** What `chat()` returns for a request with these messages. */
  function ChatReply(messages: seq<Value>, env: Environment, world: Exchanges, parse: string -> Option<Value>)
    : (r: ChatResponse)
    ensures r.NotConfigured? <==> !env.apiKeyConfigured
    ensures r.NotConfigured? ==> r.toolCalls == [] && |r.steps| == 2
    ensures env.apiKeyConfigured && GeminiContents.ConversationContents(messages).Raised? ==> r.Crashed?
  {
    if !env.apiKeyConfigured then NotConfigured(NotConfiguredReply, [], MissingKeySteps(|messages|))
    else
      match GeminiContents.ConversationContents(messages)
      case Raised(e) => Crashed(e)
      case Returned(contents) =>
        Dispatched(env, world, messages, parse, OpeningSteps(|messages|, |contents|, env.geminiModel))
  }

  /** `chat()` from the call to Gemini on (server.py:572-611), after the steps `before`. */
  function Dispatched(env: Environment, world: Exchanges, messages: seq<Value>, parse: string -> Option<Value>,
                      before: seq<Step>): (r: ChatResponse)
    ensures world.gemini.RequestFailed? ==> r.GatewayFailure? && r.error == GatewayUnreachable && |r.steps| == |before| + 2
    ensures !r.Crashed? ==> |r.steps| >= |before| + 2 && r.steps[..|before|] == before
    ensures !r.NotConfigured?
  {
    match world.gemini
    case RequestFailed(message) =>
      GatewayFailure(GatewayUnreachable, before +
        [StepOf(DispatchingToGemini, Error, [("reason", Str("request_exception")), ("message", Str(message))]),
         StepOf(RenderingReply, Error, [("reason", Str("gemini_request_failed"))])])
    case Responded(statusCode, latencyMs, data) =>
      FromCandidates(env, world, messages, parse, data, before + ReceivedSteps(statusCode, latencyMs, env.geminiModel))
  }

  /** `chat()` from the decoded Gemini body on (server.py:604-613). */
  function FromCandidates(env: Environment, world: Exchanges, messages: seq<Value>, parse: string -> Option<Value>,
                          data: Value, before: seq<Step>): (r: ChatResponse)
    ensures r.GatewayFailure? <==> TopCandidate(data) == Returned(None)
    ensures r.GatewayFailure? ==> r.error == NoCandidates && |r.steps| == |before| + 2
    ensures !r.Crashed? ==> |r.steps| >= |before| + 2 && r.steps[..|before|] == before
  {
    match TopCandidate(data)
    case Raised(e) => Crashed(e)
    case Returned(None) =>
      GatewayFailure(NoCandidates, before +
        [StepOf(ExtractingToolCalls, Error, [("toolCallCount", Num(0))]),
         StepOf(RenderingReply, Error, [("reason", Str("no_candidates"))])])
    case Returned(Some(top)) => AnswerFrom(env, world, messages, parse, top, before)
  }

  /** `chat()` as the handler runs it: the steps are appended to one trail
      as each stage completes. */
  method Chat(messages: seq<Value>, env: Environment, world: Exchanges, parse: string -> Option<Value>)
    returns (r: ChatResponse)
    ensures r == ChatReply(messages, env, world, parse)
  {
    var trail := new StepTrail();
    if !env.apiKeyConfigured {
      trail.Record(ReadingPrompt, Error, [("messageCount", Num(|messages|))]);
      trail.Record(RenderingReply, Error, [("reason", Str("missing_api_key"))]);
      return NotConfigured(NotConfiguredReply, [], trail.steps);
    }
    var contents := GeminiContents.BuildContents(messages);
    if contents.Raised? {
      return Crashed(contents.error);
    }
    trail.Record(ReadingPrompt, Complete, [("messageCount", Num(|messages|))]);
    trail.Record(AugmentingContext, Complete, [("contentCount", Num(|contents.value|))]);
    trail.Record(DispatchingToGemini, Started, [("model", Str(env.geminiModel))]);
    assert trail.steps == OpeningSteps(|messages|, |contents.value|, env.geminiModel);
    r := Dispatch(trail, env, world, messages, parse);
  }

  /** The call to Gemini and its two outcomes. */
  method Dispatch(trail: StepTrail, env: Environment, world: Exchanges, messages: seq<Value>,
                  parse: string -> Option<Value>) returns (r: ChatResponse)
    modifies trail
    ensures r == Dispatched(env, world, messages, parse, old(trail.steps))
    ensures !r.Crashed? ==> trail.steps == r.steps
  {
    match world.gemini {
      case RequestFailed(message) =>
        trail.Record(DispatchingToGemini, Error, [("reason", Str("request_exception")), ("message", Str(message))]);
        trail.Record(RenderingReply, Error, [("reason", Str("gemini_request_failed"))]);
        return GatewayFailure(GatewayUnreachable, trail.steps);
      case Responded(statusCode, latencyMs, data) =>
        trail.Record(DispatchingToGemini, Complete,
          [("model", Str(env.geminiModel)), ("latencyMs", Num(latencyMs)), ("statusCode", Num(statusCode))]);
        trail.Record(ReceivingGeminiResponse, Complete, [("statusCode", Num(statusCode))]);
        assert trail.steps == old(trail.steps) + ReceivedSteps(statusCode, latencyMs, env.geminiModel);
        r := ReadCandidates(trail, env, world, messages, parse, data);
    }
  }

  /** The candidate check and the choice of the top candidate. */
  method ReadCandidates(trail: StepTrail, env: Environment, world: Exchanges, messages: seq<Value>,
                        parse: string -> Option<Value>, data: Value) returns (r: ChatResponse)
    modifies trail
    ensures r == FromCandidates(env, world, messages, parse, data, old(trail.steps))
    ensures !r.Crashed? ==> trail.steps == r.steps
  {
    var top := TopCandidate(data);
    if top.Raised? {
      return Crashed(top.error);
    }
    if top.value.None? {
      trail.Record(ExtractingToolCalls, Error, [("toolCallCount", Num(0))]);
      trail.Record(RenderingReply, Error, [("reason", Str("no_candidates"))]);
      return GatewayFailure(NoCandidates, trail.steps);
    }
    r := Answer(trail, env, world, messages, parse, top.value.value);
  }

  /** The rest of `chat()` once there is a top candidate. */
  method Answer(trail: StepTrail, env: Environment, world: Exchanges, messages: seq<Value>,
                parse: string -> Option<Value>, top: Value) returns (r: ChatResponse)
    modifies trail
    ensures r == AnswerFrom(env, world, messages, parse, top, old(trail.steps))
    ensures !r.Crashed? ==> trail.steps == r.steps
  {
    var parts := CandidateParts(top);
    if parts.Raised? {
      return Crashed(parts.error);
    }
    var x := ExtractParts(parts.value, parse);
    if x.Raised? {
      return Crashed(x.error);
    }
    var toolCalls := x.value.toolCalls;
    trail.Record(ExtractingToolCalls, Complete, [("toolCallCount", Num(|toolCalls|))]);
    var text := JoinedReply(x.value.fragments);
    if text.Raised? {
      return Crashed(text.error);
    }
    var studyInfo := RecordDedalus(trail, env, world, messages, toolCalls);
    if studyInfo.Raised? {
      return Crashed(studyInfo.error);
    }
    var reply := text.value;
    if reply == [] {
      if toolCalls != [] {
        reply := [];
      } else {
        reply := ProcessingReply;
      }
    }
    trail.Record(RenderingReply, Complete,
      [("hasText", Bool(reply != [])), ("toolCallCount", Num(|toolCalls|)),
       ("replySource", Str("gemini")), ("studyInfoLength", Num(|studyInfo.value|))]);
    return Answered(reply, toolCalls, "gemini", studyInfo.value,
      FieldOr(top.fields, "finishReason", Null), FieldOr(top.fields, "safetyRatings", Null), trail.steps);
  }

  /** The Dedalus branch of `chat()` (server.py:645-696): appends its steps
      and returns `study_info`. */
  method RecordDedalus(trail: StepTrail, env: Environment, world: Exchanges, messages: seq<Value>,
                       toolCalls: seq<ToolCall>) returns (r: Outcome<string>)
    modifies trail
    ensures r.Raised? <==> DedalusStage(env, world, messages, toolCalls).Raised?
    ensures r.Raised? ==> r.error == DedalusStage(env, world, messages, toolCalls).error
    ensures r.Returned? ==>
      && r.value == DedalusStage(env, world, messages, toolCalls).value.1
      && trail.steps == old(trail.steps) + DedalusStage(env, world, messages, toolCalls).value.0
  {
    if !env.dedalusEnabled {
      trail.Record(DispatchingToDedalus, Error, [("reason", Str("dedalus_disabled"))]);
      trail.Record(ReceivingDedalusResponse, Error, [("reason", Str("dedalus_disabled"))]);
      return Returned(StudyUnavailable);
    }
    var hint := DedalusRouting.ShouldRoute(true, messages, toolCalls);
    if hint.Raised? {
      return Raised(hint.error);
    }
    r := RecordDedalusCall(trail, env, world, messages, hint.value);
  }

  /** The call to Dedalus with the routing hint, recorded on the trail. */
  method RecordDedalusCall(trail: StepTrail, env: Environment, world: Exchanges, messages: seq<Value>,
                           hint: bool) returns (r: Outcome<string>)
    modifies trail
    ensures r.Raised? <==> DedalusCall(env, world, messages, hint).Raised?
    ensures r.Raised? ==> r.error == DedalusCall(env, world, messages, hint).error
    ensures r.Returned? ==>
      && r.value == DedalusCall(env, world, messages, hint).value.1
      && trail.steps == old(trail.steps) + DedalusCall(env, world, messages, hint).value.0
  {
    trail.Record(DispatchingToDedalus, Started,
      [("model", Str(env.dedalusModel)), ("heuristicSuggested", Bool(hint))]);
    var prompt := DedalusRouting.BuildPrompt(messages);
    if prompt.Raised? {
      return Raised(prompt.error);
    }
    var studyInfo := RecordDedalusAnswer(trail, env, world, hint);
    return Returned(studyInfo);
  }

  /** The outcome of the call to Dedalus, recorded on the trail. */
  method RecordDedalusAnswer(trail: StepTrail, env: Environment, world: Exchanges, hint: bool)
    returns (studyInfo: string)
    modifies trail
    ensures studyInfo == DedalusAnswered(env, world, hint).1
    ensures trail.steps == old(trail.steps) + DedalusAnswered(env, world, hint).0
  {
    var answer := world.dedalusAnswer;
    if answer.Some? && answer.value != [] {
      var latency := Num(world.dedalusLatencyMs);
      trail.Record(DispatchingToDedalus, Complete,
        [("model", Str(env.dedalusModel)), ("latencyMs", latency), ("heuristicSuggested", Bool(hint))]);
      trail.Record(ReceivingDedalusResponse, Complete, [("latencyMs", latency)]);
      return StudyInfo(answer.value);
    }
    trail.Record(DispatchingToDedalus, Error,
      [("reason", Str("dedalus_request_failed")), ("model", Str(env.dedalusModel))]);
    trail.Record(ReceivingDedalusResponse, Error, [("reason", Str("dedalus_request_failed"))]);
    return StudyUnavailable;
  }

  function Ids(steps: seq<Step>): (ids: seq<StepId>)
    ensures |ids| == |steps| && forall k :: 0 <= k < |steps| ==> ids[k] == steps[k].id
  {
    seq(|steps|, k requires 0 <= k < |steps| => steps[k].id)
  }

  function Statuses(steps: seq<Step>): (statuses: seq<StepStatus>)
    ensures |statuses| == |steps| && forall k :: 0 <= k < |steps| ==> statuses[k] == steps[k].status
  {
    seq(|steps|, k requires 0 <= k < |steps| => steps[k].status)
  }

  /** A trail still open: none of its steps is the final rendering. */
  predicate OpenTrail(steps: seq<Step>) {
    forall k :: 0 <= k < |steps| ==> steps[k].id != RenderingReply
  }

  /** A trail that is closed by exactly one `rendering_reply` step, whose
      status is `error` exactly when the request failed. */
  predicate ClosedTrail(r: ChatResponse) {
    !r.Crashed? ==>
      && |r.steps| > 0
      && OpenTrail(r.steps[..|r.steps| - 1])
      && r.steps[|r.steps| - 1].id == RenderingReply
      && (r.steps[|r.steps| - 1].status == Error <==> !r.Answered?)
  }

  lemma OpenTrailConcat(a: seq<Step>, b: seq<Step>)
    requires OpenTrail(a) && OpenTrail(b)
    ensures OpenTrail(a + b)
  {
    assert forall k :: 0 <= k < |a + b| ==> (a + b)[k] == if k < |a| then a[k] else b[k - |a|];
  }

  lemma DedalusStageOpen(env: Environment, world: Exchanges, messages: seq<Value>, toolCalls: seq<ToolCall>)
    requires DedalusStage(env, world, messages, toolCalls).Returned?
    ensures OpenTrail(DedalusStage(env, world, messages, toolCalls).value.0)
  {
  }

  lemma {:induction false} AnswerFromClosed(env: Environment, world: Exchanges, messages: seq<Value>,
                                            parse: string -> Option<Value>, top: Value, before: seq<Step>)
    requires OpenTrail(before)
    ensures ClosedTrail(AnswerFrom(env, world, messages, parse, top, before))
  {
    var r := AnswerFrom(env, world, messages, parse, top, before);
    if r.Answered? {
      var x := ScanParts(CandidateParts(top).value, parse).value;
      var dedalus := DedalusStage(env, world, messages, x.toolCalls).value.0;
      var extracted := StepOf(ExtractingToolCalls, Complete, [("toolCallCount", Num(|x.toolCalls|))]);
      DedalusStageOpen(env, world, messages, x.toolCalls);
      assert OpenTrail([extracted]);
      OpenTrailConcat(before, [extracted]);
      OpenTrailConcat(before + [extracted], dedalus);
      assert r.steps[..|r.steps| - 1] == before + [extracted] + dedalus;
    }
  }

  lemma {:induction false} DispatchedClosed(env: Environment, world: Exchanges, messages: seq<Value>,
                                            parse: string -> Option<Value>, before: seq<Step>)
    requires OpenTrail(before)
    ensures ClosedTrail(Dispatched(env, world, messages, parse, before))
  {
    var r := Dispatched(env, world, messages, parse, before);
    match world.gemini
    case RequestFailed(message) =>
      var failed := StepOf(DispatchingToGemini, Error, [("reason", Str("request_exception")), ("message", Str(message))]);
      assert OpenTrail([failed]);
      OpenTrailConcat(before, [failed]);
      assert r.steps[..|r.steps| - 1] == before + [failed];
    case Responded(statusCode, latencyMs, data) =>
      var received := before + ReceivedSteps(statusCode, latencyMs, env.geminiModel);
      OpenTrailConcat(before, ReceivedSteps(statusCode, latencyMs, env.geminiModel));
      match TopCandidate(data)
      case Raised(_) =>
      case Returned(None) =>
        var failed := StepOf(ExtractingToolCalls, Error, [("toolCallCount", Num(0))]);
        assert OpenTrail([failed]);
        OpenTrailConcat(received, [failed]);
        assert r.steps[..|r.steps| - 1] == received + [failed];
      case Returned(Some(top)) =>
        AnswerFromClosed(env, world, messages, parse, top, received);
  }

  /** Every exit path of `chat()` that answers ends its trail with the one
      `rendering_reply` step, which is `error` exactly on the missing-key,
      request-failure and no-candidate paths (the labels of the steps are
      the subject of `TableLabels`). */
  lemma {:induction false} RenderingReplyLast(messages: seq<Value>, env: Environment, world: Exchanges,
                                              parse: string -> Option<Value>)
    ensures ClosedTrail(ChatReply(messages, env, world, parse))
  {
    var r := ChatReply(messages, env, world, parse);
    if !env.apiKeyConfigured {
      assert r.steps[..|r.steps| - 1] == [r.steps[0]];
    } else if GeminiContents.ConversationContents(messages).Returned? {
      var contents := GeminiContents.ConversationContents(messages).value;
      DispatchedClosed(env, world, messages, parse, OpeningSteps(|messages|, |contents|, env.geminiModel));
    }
  }

  /** Without an API key the trail is a failed read and a failed rendering. */
  lemma TrailWithoutKey(messages: seq<Value>, env: Environment, world: Exchanges, parse: string -> Option<Value>)
    ensures var r := ChatReply(messages, env, world, parse);
      && (r.NotConfigured? <==> !env.apiKeyConfigured)
      && (r.NotConfigured? ==>
            && r.reply == NotConfiguredReply
            && r.toolCalls == []
            && Ids(r.steps) == [ReadingPrompt, RenderingReply]
            && Statuses(r.steps) == [Error, Error])
  {
  }

  lemma TrailConcat(a: seq<Step>, b: seq<Step>)
    ensures Ids(a + b) == Ids(a) + Ids(b)
    ensures Statuses(a + b) == Statuses(a) + Statuses(b)
  {
  }

  /** Once the key is configured and the contents are built, `chat()` is the
      call to Gemini after the three opening steps. */
  lemma ChatDispatched(messages: seq<Value>, env: Environment, world: Exchanges, parse: string -> Option<Value>)
    returns (opening: seq<Step>)
    requires env.apiKeyConfigured && GeminiContents.ConversationContents(messages).Returned?
    ensures ChatReply(messages, env, world, parse) == Dispatched(env, world, messages, parse, opening)
    ensures Ids(opening) == [ReadingPrompt, AugmentingContext, DispatchingToGemini]
    ensures Statuses(opening) == [Complete, Complete, Started]
  {
    var contents := GeminiContents.ConversationContents(messages).value;
    opening := OpeningSteps(|messages|, |contents|, env.geminiModel);
    OpeningShape(|messages|, |contents|, env.geminiModel);
  }

  lemma OpeningShape(messageCount: nat, contentCount: nat, model: string)
    ensures Ids(OpeningSteps(messageCount, contentCount, model)) == [ReadingPrompt, AugmentingContext, DispatchingToGemini]
    ensures Statuses(OpeningSteps(messageCount, contentCount, model)) == [Complete, Complete, Started]
  {
  }

  /** A failed request closes the started dispatch with an error and fails the rendering. */
  lemma DispatchFailed(env: Environment, world: Exchanges, messages: seq<Value>, parse: string -> Option<Value>,
                       before: seq<Step>)
    requires world.gemini.RequestFailed?
    requires Ids(before) == [ReadingPrompt, AugmentingContext, DispatchingToGemini]
    requires Statuses(before) == [Complete, Complete, Started]
    ensures var r := Dispatched(env, world, messages, parse, before);
      && r.GatewayFailure?
      && r.error == GatewayUnreachable
      && Ids(r.steps) == [ReadingPrompt, AugmentingContext, DispatchingToGemini, DispatchingToGemini, RenderingReply]
      && Statuses(r.steps) == [Complete, Complete, Started, Error, Error]
  {
    var tail := [StepOf(DispatchingToGemini, Error, [("reason", Str("request_exception")), ("message", Str(world.gemini.message))]),
                 StepOf(RenderingReply, Error, [("reason", Str("gemini_request_failed"))])];
    assert Dispatched(env, world, messages, parse, before).steps == before + tail;
    TrailConcat(before, tail);
  }

  /** After Gemini answered, the only gateway failure is the missing
      candidate: the exchange completes, the extraction and rendering fail. */
  lemma DispatchWithoutCandidates(env: Environment, world: Exchanges, messages: seq<Value>,
                                  parse: string -> Option<Value>, before: seq<Step>)
    requires world.gemini.Responded?
    requires Ids(before) == [ReadingPrompt, AugmentingContext, DispatchingToGemini]
    requires Statuses(before) == [Complete, Complete, Started]
    ensures var r := Dispatched(env, world, messages, parse, before);
      r.GatewayFailure? ==>
        && r.error == NoCandidates
        && Ids(r.steps) == [ReadingPrompt, AugmentingContext, DispatchingToGemini,
                            DispatchingToGemini, ReceivingGeminiResponse,
                            ExtractingToolCalls, RenderingReply]
        && Statuses(r.steps) == [Complete, Complete, Started, Complete, Complete, Error, Error]
  {
    var Responded(statusCode, latencyMs, data) := world.gemini;
    if TopCandidate(data) == Returned(None) {
      var tail := ReceivedSteps(statusCode, latencyMs, env.geminiModel) +
        [StepOf(ExtractingToolCalls, Error, [("toolCallCount", Num(0))]),
         StepOf(RenderingReply, Error, [("reason", Str("no_candidates"))])];
      assert Dispatched(env, world, messages, parse, before).steps == before + tail;
      TrailConcat(before, tail);
    }
  }

  /** When Gemini cannot be reached, the dispatch step that started fails
      and the rendering fails after it. */
  lemma TrailOnRequestFailure(messages: seq<Value>, env: Environment, world: Exchanges, parse: string -> Option<Value>)
    requires world.gemini.RequestFailed?
    ensures var r := ChatReply(messages, env, world, parse);
      r.GatewayFailure? ==>
        && r.error == GatewayUnreachable
        && Ids(r.steps) == [ReadingPrompt, AugmentingContext, DispatchingToGemini,
                            DispatchingToGemini, RenderingReply]
        && Statuses(r.steps) == [Complete, Complete, Started, Error, Error]
  {
    if env.apiKeyConfigured && GeminiContents.ConversationContents(messages).Returned? {
      var opening := ChatDispatched(messages, env, world, parse);
      DispatchFailed(env, world, messages, parse, opening);
    }
  }

  /** When Gemini answers without candidates, the extraction step fails and
      the rendering fails after it. */
  lemma TrailWithoutCandidates(messages: seq<Value>, env: Environment, world: Exchanges, parse: string -> Option<Value>)
    requires world.gemini.Responded?
    ensures var r := ChatReply(messages, env, world, parse);
      r.GatewayFailure? ==>
        && r.error == NoCandidates
        && Ids(r.steps) == [ReadingPrompt, AugmentingContext, DispatchingToGemini,
                            DispatchingToGemini, ReceivingGeminiResponse,
                            ExtractingToolCalls, RenderingReply]
        && Statuses(r.steps) == [Complete, Complete, Started, Complete, Complete, Error, Error]
  {
    if env.apiKeyConfigured && GeminiContents.ConversationContents(messages).Returned? {
      var opening := ChatDispatched(messages, env, world, parse);
      DispatchWithoutCandidates(env, world, messages, parse, opening);
    }
  }

  /** The Dedalus steps: two errors when it is disabled, otherwise a start
      followed by two completions or two errors as it answered or not; the
      study information is never empty. */
  lemma DedalusStageShape(env: Environment, world: Exchanges, messages: seq<Value>, toolCalls: seq<ToolCall>)
    requires DedalusStage(env, world, messages, toolCalls).Returned?
    ensures var (steps, studyInfo) := DedalusStage(env, world, messages, toolCalls).value;
      && studyInfo != []
      && (!env.dedalusEnabled ==>
            Ids(steps) == [DispatchingToDedalus, ReceivingDedalusResponse] && Statuses(steps) == [Error, Error])
      && (env.dedalusEnabled && world.dedalusAnswer.Some? && world.dedalusAnswer.value != [] ==>
            && Ids(steps) == [DispatchingToDedalus, DispatchingToDedalus, ReceivingDedalusResponse]
            && Statuses(steps) == [Started, Complete, Complete])
      && (env.dedalusEnabled && (world.dedalusAnswer.None? || world.dedalusAnswer.value == []) ==>
            && Ids(steps) == [DispatchingToDedalus, DispatchingToDedalus, ReceivingDedalusResponse]
            && Statuses(steps) == [Started, Error, Error])
  {
  }

  /** The step that closes a successful trail, reporting on the reply. */
  function RenderingStep(reply: string, toolCalls: seq<ToolCall>, studyInfo: string): Step {
    StepOf(RenderingReply, Complete,
      [("hasText", Bool(reply != [])), ("toolCallCount", Num(|toolCalls|)),
       ("replySource", Str("gemini")), ("studyInfoLength", Num(|studyInfo|))])
  }

  /** A successful answer reports study information and a stripped reply
      that is empty only when tools were called. */
  lemma AnswerFromReply(env: Environment, world: Exchanges, messages: seq<Value>,
                        parse: string -> Option<Value>, top: Value, before: seq<Step>)
    requires AnswerFrom(env, world, messages, parse, top, before).Answered?
    ensures var r := AnswerFrom(env, world, messages, parse, top, before);
      && r.studyInfo != []
      && IsStripped(r.reply)
      && (r.reply == [] ==> r.toolCalls != [])
  {
    var x := ScanParts(CandidateParts(top).value, parse).value;
    JoinedReplySpec(x.fragments);
    DedalusStageShape(env, world, messages, x.toolCalls);
    assert IsStripped(ProcessingReply) by {
      assert ProcessingReply[0] == 'I';
      assert ProcessingReply[|ProcessingReply| - 1] == '.';
    }
  }

  /** A successful answer extends the trail so far with the completed
      extraction, the Dedalus steps and the rendering step. */
  lemma AnswerFromSteps(env: Environment, world: Exchanges, messages: seq<Value>,
                        parse: string -> Option<Value>, top: Value, before: seq<Step>)
    requires AnswerFrom(env, world, messages, parse, top, before).Answered?
    ensures var r := AnswerFrom(env, world, messages, parse, top, before);
      && |r.steps| >= |before| + 4
      && r.steps[..|before|] == before
      && r.steps[|before|] == StepOf(ExtractingToolCalls, Complete, [("toolCallCount", Num(|r.toolCalls|))])
      && r.steps[|r.steps| - 1] == RenderingStep(r.reply, r.toolCalls, r.studyInfo)
      && DedalusStage(env, world, messages, r.toolCalls).Returned?
      && r.steps == before + [r.steps[|before|]] + DedalusStage(env, world, messages, r.toolCalls).value.0
                    + [RenderingStep(r.reply, r.toolCalls, r.studyInfo)]
  {
    var r := AnswerFrom(env, world, messages, parse, top, before);
    var x := ScanParts(CandidateParts(top).value, parse).value;
    DedalusStageShape(env, world, messages, x.toolCalls);
    var extracted := StepOf(ExtractingToolCalls, Complete, [("toolCallCount", Num(|x.toolCalls|))]);
    var dedalus := DedalusStage(env, world, messages, x.toolCalls).value.0;
    var rendering := RenderingStep(r.reply, r.toolCalls, r.studyInfo);
    assert r.steps == before + [extracted] + dedalus + [rendering];
    assert r.steps == before + ([extracted] + dedalus + [rendering]);
  }

  /** A successful answer came from the top candidate, after the five Gemini steps. */
  lemma AnsweredFrom(messages: seq<Value>, env: Environment, world: Exchanges, parse: string -> Option<Value>)
    returns (top: Value, before: seq<Step>)
    requires ChatReply(messages, env, world, parse).Answered?
    ensures env.apiKeyConfigured && world.gemini.Responded?
    ensures ChatReply(messages, env, world, parse) == AnswerFrom(env, world, messages, parse, top, before)
    ensures |before| == 5
    ensures Ids(before) == [ReadingPrompt, AugmentingContext, DispatchingToGemini,
                            DispatchingToGemini, ReceivingGeminiResponse]
    ensures Statuses(before) == [Complete, Complete, Started, Complete, Complete]
  {
    var opening := ChatDispatched(messages, env, world, parse);
    var Responded(statusCode, latencyMs, data) := world.gemini;
    var received := ReceivedSteps(statusCode, latencyMs, env.geminiModel);
    before := opening + received;
    top := TopCandidate(data).value.value;
    TrailConcat(opening, received);
  }

  /** A successful answer: the reply is stripped and empty only when tools
      were called, study information is always present, and the final
      rendering step reports on exactly this reply. */
  lemma AnsweredReply(messages: seq<Value>, env: Environment, world: Exchanges, parse: string -> Option<Value>)
    requires ChatReply(messages, env, world, parse).Answered?
    ensures var r := ChatReply(messages, env, world, parse);
      && r.replySource == "gemini"
      && r.studyInfo != []
      && IsStripped(r.reply)
      && (r.reply == [] ==> r.toolCalls != [])
      && |r.steps| >= 9
      && r.steps[|r.steps| - 1] == RenderingStep(r.reply, r.toolCalls, r.studyInfo)
  {
    var top, before := AnsweredFrom(messages, env, world, parse);
    AnswerFromReply(env, world, messages, parse, top, before);
    AnswerFromSteps(env, world, messages, parse, top, before);
  }

  /** After the five Gemini steps, a successful answer records the
      completed extraction. */
  lemma AnswerFromOpening(env: Environment, world: Exchanges, messages: seq<Value>,
                          parse: string -> Option<Value>, top: Value, before: seq<Step>)
    requires AnswerFrom(env, world, messages, parse, top, before).Answered?
    requires Ids(before) == [ReadingPrompt, AugmentingContext, DispatchingToGemini,
                             DispatchingToGemini, ReceivingGeminiResponse]
    requires Statuses(before) == [Complete, Complete, Started, Complete, Complete]
    ensures var r := AnswerFrom(env, world, messages, parse, top, before);
      && |r.steps| >= 6
      && Ids(r.steps[..6]) == [ReadingPrompt, AugmentingContext, DispatchingToGemini,
                               DispatchingToGemini, ReceivingGeminiResponse, ExtractingToolCalls]
      && Statuses(r.steps[..6]) == [Complete, Complete, Started, Complete, Complete, Complete]
      && r.steps[5].detail == Obj([("toolCallCount", Num(|r.toolCalls|))])
  {
    AnswerFromSteps(env, world, messages, parse, top, before);
    var steps := AnswerFrom(env, world, messages, parse, top, before).steps;
    assert steps[..6] == before + [steps[5]];
    TrailConcat(before, [steps[5]]);
  }

  /** A successful trail opens with the five Gemini steps and a completed
      extraction that counts the response's tool calls. */
  lemma AnsweredTrailOpening(messages: seq<Value>, env: Environment, world: Exchanges, parse: string -> Option<Value>)
    requires ChatReply(messages, env, world, parse).Answered?
    ensures var r := ChatReply(messages, env, world, parse);
      && |r.steps| >= 6
      && Ids(r.steps[..6]) == [ReadingPrompt, AugmentingContext, DispatchingToGemini,
                               DispatchingToGemini, ReceivingGeminiResponse, ExtractingToolCalls]
      && Statuses(r.steps[..6]) == [Complete, Complete, Started, Complete, Complete, Complete]
      && r.steps[5].detail == Obj([("toolCallCount", Num(|r.toolCalls|))])
  {
    var top, before := AnsweredFrom(messages, env, world, parse);
    AnswerFromOpening(env, world, messages, parse, top, before);
  }
}
