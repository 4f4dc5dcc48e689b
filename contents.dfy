/** `_build_contents` (backend/server.py:459-507): the chat history sent by
    the client becomes the `contents` list of a Gemini request. User
    messages become `user` contents, assistant messages a `model` content
    followed by one `user` content per tool result, other roles are dropped. */
module GeminiContents {
  import opened Json

  /** `{'text': text}` */
  function TextPart(text: Value): Value {
    Obj([("text", text)])
  }

  /** The text part a message contributes: one when its text is true. */
  function TextParts(text: Value): seq<Value> {
    if Truthy(text) then [TextPart(text)] else []
  }

  /** The part for one tool result the client forwards (server.py:476-482,
      498-504): `dict.get` defaults for the name, the response, and inside
      the default response for the status. */
  function FunctionResponse(result: Value): Value
    requires result.Obj?
  {
    var fields := result.fields;
    var fallback := Obj([("status", FieldOr(fields, "status", Str("ok"))), ("detail", FieldOr(fields, "message", Null))]);
    Obj([("functionResponse", Obj([
      ("name", FieldOr(fields, "name", Str("unknown_tool"))),
      ("response", FieldOr(fields, "response", fallback))]))])
  }

  /** The part for one tool call of an assistant message (server.py:489-492). */
  function FunctionCall(call: Value): Value
    requires call.Obj?
  {
    Obj([("functionCall", Obj([
      ("name", FieldOr(call.fields, "name", Str(""))),
      ("args", FieldOr(call.fields, "arguments", Obj([])))]))])
  }

  /** One `functionResponse` part per tool result, in order. */
  function ResponseParts(results: seq<Value>): (parts: seq<Value>)
    requires AllDicts(results)
    ensures |parts| == |results|
  {
    if results == [] then []
    else ResponseParts(results[..|results| - 1]) + [FunctionResponse(results[|results| - 1])]
  }

  /** One `functionCall` part per tool call, in order. */
  function CallParts(calls: seq<Value>): (parts: seq<Value>)
    requires AllDicts(calls)
    ensures |parts| == |calls|
  {
    if calls == [] then []
    else CallParts(calls[..|calls| - 1]) + [FunctionCall(calls[|calls| - 1])]
  }

  /** The `[{'text': ''}]` that stands in for an empty parts list. */
  const EmptyParts: seq<Value> := [TextPart(Str(""))]

  /** `{'role': role, 'parts': parts or [{'text': ''}]}` */
  function Content(role: string, parts: seq<Value>): Value {
    Obj([("role", Str(role)), ("parts", Arr(if parts == [] then EmptyParts else parts))])
  }

  /** The one-part `user` contents that follow a `model` content, one per
      tool result, in order. */
  function ResultContents(results: seq<Value>): (cs: seq<Value>)
    requires AllDicts(results)
    ensures |cs| == |results|
  {
    if results == [] then []
    else ResultContents(results[..|results| - 1]) + [Content("user", [FunctionResponse(results[|results| - 1])])]
  }

  lemma {:induction false} ResponsePartsAt(results: seq<Value>, k: nat)
    requires AllDicts(results) && k < |results|
    ensures ResponseParts(results)[k] == FunctionResponse(results[k])
  {
    if k < |results| - 1 { ResponsePartsAt(results[..|results| - 1], k); }
  }

  lemma {:induction false} CallPartsAt(calls: seq<Value>, k: nat)
    requires AllDicts(calls) && k < |calls|
    ensures CallParts(calls)[k] == FunctionCall(calls[k])
  {
    if k < |calls| - 1 { CallPartsAt(calls[..|calls| - 1], k); }
  }

  lemma {:induction false} ResultContentsAt(results: seq<Value>, k: nat)
    requires AllDicts(results) && k < |results|
    ensures ResultContents(results)[k] == Content("user", [FunctionResponse(results[k])])
  {
    if k < |results| - 1 { ResultContentsAt(results[..|results| - 1], k); }
  }

  function RoleOf(message: Value): Value
    requires message.Obj?
  {
    FieldOr(message.fields, "role", Null)
  }

  function TextOf(message: Value): Value
    requires message.Obj?
  {
    FieldOr(message.fields, "text", Str(""))
  }

  function ToolCallsOf(message: Value): Value
    requires message.Obj?
  {
    FieldOr(message.fields, "toolCalls", Null)
  }

  function ToolResultsOf(message: Value): Value
    requires message.Obj?
  {
    FieldOr(message.fields, "toolResults", Null)
  }

  /** What one pass of the loop body appends for `message`, or the exception
      it raises: AttributeError for a message or item that is not a dict,
      TypeError for an unhashable role or a list field that cannot be iterated. */
  function MessageContents(message: Value): (r: Outcome<seq<Value>>)
    ensures r.Returned? <==> WellShaped(message)
    ensures r.Returned? && message.Obj? && RoleOf(message) != Str("user") && RoleOf(message) != Str("assistant") ==>
      r.value == []
  {
    if !message.Obj? then Raised(AttributeError)
    else
      var role := RoleOf(message);
      var text := TextOf(message);
      if !Hashable(role) then Raised(TypeError)
      else if role == Str("user") then
        match DictItems(ToolResultsOf(message))
        case Raised(e) => Raised(e)
        case Returned(results) => Returned([Content("user", TextParts(text) + ResponseParts(results))])
      else if role == Str("assistant") then
        match DictItems(ToolCallsOf(message))
        case Raised(e) => Raised(e)
        case Returned(calls) =>
          match DictItems(ToolResultsOf(message))
          case Raised(e) => Raised(e)
          case Returned(results) =>
            Returned([Content("model", TextParts(text) + CallParts(calls))] + ResultContents(results))
      else Returned([])
  }

  /** Running two pieces of the loop one after the other: the first
      exception wins, otherwise the outputs are concatenated. */
  function Then(first: Outcome<seq<Value>>, second: Outcome<seq<Value>>): Outcome<seq<Value>> {
    match first
    case Raised(e) => Raised(e)
    case Returned(xs) =>
      match second
      case Raised(e) => Raised(e)
      case Returned(ys) => Returned(xs + ys)
  }

  /** The result of `_build_contents(messages)`. */
  function ConversationContents(messages: seq<Value>): (r: Outcome<seq<Value>>)
    ensures r.Raised? ==> exists i :: 0 <= i < |messages| && MessageContents(messages[i]) == Raised(r.error)
  {
    if messages == [] then Returned([])
    else Then(ConversationContents(messages[..|messages| - 1]), MessageContents(messages[|messages| - 1]))
  }

  /** `_build_contents` as the source writes it: a loop over the messages
      that skips other roles and appends what each user or assistant
      message yields to `contents`. */
  method BuildContents(messages: seq<Value>) returns (r: Outcome<seq<Value>>)
    ensures r == ConversationContents(messages)
  {
    var contents: seq<Value> := [];
    for i := 0 to |messages|
      invariant ConversationContents(messages[..i]) == Returned(contents)
    {
      assert messages[..i + 1][..i] == messages[..i];
      var added := ConvertMessage(messages[i]);
      if added.Raised? {
        RaisedPrefix(messages, i + 1);
        return Raised(added.error);
      }
      contents := contents + added.value;
    }
    assert messages[..|messages|] == messages;
    return Returned(contents);
  }

  /** One pass of the loop body (server.py:466-506): the role decides the
      branch, and any other role adds nothing. */
  method ConvertMessage(message: Value) returns (r: Outcome<seq<Value>>)
    ensures r == MessageContents(message)
  {
    if !message.Obj? {
      return Raised(AttributeError);
    }
    var role := RoleOf(message);
    if !Hashable(role) {
      return Raised(TypeError);
    }
    if role == Str("user") {
      r := UserContent(message);
    } else if role == Str("assistant") {
      r := AssistantContents(message);
    } else {
      r := Returned([]);
    }
  }

  /** The user branch (server.py:470-483): the text part, then a loop
      appending one `functionResponse` part per tool result. */
  method UserContent(message: Value) returns (r: Outcome<seq<Value>>)
    requires message.Obj? && RoleOf(message) == Str("user")
    ensures r == MessageContents(message)
  {
    var text := TextOf(message);
    var parts: seq<Value> := [];
    if Truthy(text) {
      parts := parts + [TextPart(text)];
    }
    var results := IterateOrEmpty(ToolResultsOf(message));
    if results.Raised? {
      return Raised(results.error);
    }
    for k := 0 to |results.value|
      invariant AllDicts(results.value[..k])
      invariant parts == TextParts(text) + ResponseParts(results.value[..k])
    {
      var result := results.value[k];
      if !result.Obj? {
        return Raised(AttributeError);
      }
      assert results.value[..k + 1][..k] == results.value[..k];
      parts := parts + [FunctionResponse(result)];
    }
    assert results.value[..|results.value|] == results.value;
    return Returned([Content("user", parts)]);
  }

  /** The assistant branch (server.py:484-506): a `model` content whose
      parts are the text part and one `functionCall` per tool call, then
      one `user` content per tool result. */
  method AssistantContents(message: Value) returns (r: Outcome<seq<Value>>)
    requires message.Obj? && RoleOf(message) == Str("assistant")
    ensures r == MessageContents(message)
  {
    var text := TextOf(message);
    var parts: seq<Value> := [];
    if Truthy(text) {
      parts := parts + [TextPart(text)];
    }
    var calls := IterateOrEmpty(ToolCallsOf(message));
    if calls.Raised? {
      return Raised(calls.error);
    }
    for k := 0 to |calls.value|
      invariant AllDicts(calls.value[..k])
      invariant parts == TextParts(text) + CallParts(calls.value[..k])
    {
      var call := calls.value[k];
      if !call.Obj? {
        return Raised(AttributeError);
      }
      assert calls.value[..k + 1][..k] == calls.value[..k];
      parts := parts + [FunctionCall(call)];
    }
    assert calls.value[..|calls.value|] == calls.value;
    assert DictItems(ToolCallsOf(message)) == Returned(calls.value);
    var rest := ResultContentsLoop(ToolResultsOf(message));
    if rest.Raised? {
      return Raised(rest.error);
    }
    return Returned([Content("model", parts)] + rest.value);
  }

  /** The loop over the tool results of an assistant message (server.py:494-506):
      one single-part `user` content per result. */
  method ResultContentsLoop(toolResults: Value) returns (r: Outcome<seq<Value>>)
    ensures r == match DictItems(toolResults)
                 case Raised(e) => Raised(e)
                 case Returned(results) => Returned(ResultContents(results))
  {
    var results := IterateOrEmpty(toolResults);
    if results.Raised? {
      return Raised(results.error);
    }
    var contents: seq<Value> := [];
    for k := 0 to |results.value|
      invariant AllDicts(results.value[..k])
      invariant contents == ResultContents(results.value[..k])
    {
      var result := results.value[k];
      if !result.Obj? {
        return Raised(AttributeError);
      }
      assert results.value[..k + 1][..k] == results.value[..k];
      contents := contents + [Content("user", [FunctionResponse(result)])];
    }
    assert results.value[..|results.value|] == results.value;
    return Returned(contents);
  }

  /** Once a prefix of the conversation raises, the whole conversation
      raises the same exception: the loop never gets further. */
  lemma {:induction false} RaisedPrefix(messages: seq<Value>, n: nat)
    requires n <= |messages|
    requires ConversationContents(messages[..n]).Raised?
    ensures ConversationContents(messages) == ConversationContents(messages[..n])
    decreases |messages| - n
  {
    if n < |messages| {
      var init := messages[..|messages| - 1];
      assert init[..n] == messages[..n];
      RaisedPrefix(init, n);
    } else {
      assert messages[..n] == messages;
    }
  }

  lemma ThenAssociative(x: Outcome<seq<Value>>, y: Outcome<seq<Value>>, z: Outcome<seq<Value>>)
    ensures Then(Then(x, y), z) == Then(x, Then(y, z))
  {
    if x.Returned? && y.Returned? && z.Returned? {
      assert x.value + y.value + z.value == x.value + (y.value + z.value);
    }
  }

  /** Messages are converted in input order: the contents of a concatenated
      conversation are the contents of its first part followed by those of
      its second, and the first exception wins. */
  lemma {:induction false} ContentsConcat(a: seq<Value>, b: seq<Value>)
    ensures ConversationContents(a + b) == Then(ConversationContents(a), ConversationContents(b))
    decreases |b|
  {
    if b == [] {
      assert a + b == a;
      var x := ConversationContents(a);
      if x.Returned? { assert x.value + [] == x.value; }
    } else {
      var b' := b[..|b| - 1];
      assert (a + b)[..|a + b| - 1] == a + b';
      assert (a + b)[|a + b| - 1] == b[|b| - 1];
      ContentsConcat(a, b');
      ThenAssociative(ConversationContents(a), ConversationContents(b'), MessageContents(b[|b| - 1]));
    }
  }

  /** A message whose role is neither `user` nor `assistant` (and can be
      hashed) is dropped: it changes nothing wherever it stands. */
  lemma OtherRolesDropped(before: seq<Value>, message: Value, after: seq<Value>)
    requires message.Obj? && Hashable(RoleOf(message))
    requires RoleOf(message) != Str("user") && RoleOf(message) != Str("assistant")
    ensures ConversationContents(before + [message] + after) == ConversationContents(before + after)
  {
    ContentsConcat(before + [message], after);
    ContentsConcat(before, [message]);
    ContentsConcat(before, after);
    assert [message][..0] == [];
    var x := ConversationContents(before);
    if x.Returned? { assert x.value + [] == x.value; }
  }

  /** `_build_contents` iterates `toolCalls`/`toolResults` as lists of dicts. */
  predicate ListOfDicts(v: Value) {
    !Truthy(v) || (v.Arr? && AllDicts(v.items))
  }

  /** The messages `_build_contents` converts without raising. */
  predicate WellShaped(message: Value) {
    && message.Obj?
    && Hashable(RoleOf(message))
    && (RoleOf(message) == Str("user") ==> ListOfDicts(ToolResultsOf(message)))
    && (RoleOf(message) == Str("assistant") ==> ListOfDicts(ToolCallsOf(message)) && ListOfDicts(ToolResultsOf(message)))
  }

  /** `_build_contents` returns exactly when every message is well shaped. */
  lemma {:induction false} ContentsReturnedIff(messages: seq<Value>)
    ensures ConversationContents(messages).Returned? <==>
      forall i :: 0 <= i < |messages| ==> WellShaped(messages[i])
  {
    if messages != [] {
      var init := messages[..|messages| - 1];
      ContentsReturnedIff(init);
      MessageReturnedIff(messages[|messages| - 1]);
      assert forall i :: 0 <= i < |init| ==> init[i] == messages[i];
    }
  }

  /** How many contents a well-shaped message yields: one for `user`,
      one plus one per tool result for `assistant`, none otherwise. */
  function ExpectedCount(message: Value): nat
    requires message.Obj?
  {
    if RoleOf(message) == Str("user") then 1
    else if RoleOf(message) == Str("assistant") then 1 + |ListItems(ToolResultsOf(message))|
    else 0
  }

  function TotalExpected(messages: seq<Value>): nat
    requires forall i :: 0 <= i < |messages| ==> messages[i].Obj?
  {
    if messages == [] then 0
    else TotalExpected(messages[..|messages| - 1]) + ExpectedCount(messages[|messages| - 1])
  }

  /** The number of contents is the sum of the expected counts. */
  lemma {:induction false} ContentCount(messages: seq<Value>)
    requires ConversationContents(messages).Returned?
    ensures forall i :: 0 <= i < |messages| ==> messages[i].Obj?
    ensures |ConversationContents(messages).value| == TotalExpected(messages)
  {
    ContentsReturnedIff(messages);
    if messages != [] {
      var init := messages[..|messages| - 1];
      ContentsReturnedIff(init);
      ContentCount(init);
    }
  }

  function PartsOf(content: Value): seq<Value> {
    if content.Obj? then
      match FieldOr(content.fields, "parts", Null)
      case Arr(parts) => parts
      case _ => []
    else []
  }

  lemma ContentFields(role: string, parts: seq<Value>)
    ensures RoleOf(Content(role, parts)) == Str(role)
    ensures PartsOf(Content(role, parts)) == if parts == [] then EmptyParts else parts
  {
    var fields := Content(role, parts).fields;
    assert Lookup(fields, "role") == Some(Str(role));
    assert Lookup(fields[1..], "parts") == Some(fields[1].1);
  }

  /** A content as Gemini expects it: role `user` or `model`, parts never empty. */
  predicate ProperContent(content: Value) {
    && content.Obj?
    && (RoleOf(content) == Str("user") || RoleOf(content) == Str("model"))
    && PartsOf(content) != []
  }

  predicate AllProper(contents: seq<Value>) {
    forall k :: 0 <= k < |contents| ==> ProperContent(contents[k])
  }

  lemma AllProperConcat(xs: seq<Value>, ys: seq<Value>)
    requires AllProper(xs) && AllProper(ys)
    ensures AllProper(xs + ys)
  {
    forall k | 0 <= k < |xs + ys| ensures ProperContent((xs + ys)[k]) {
      if k < |xs| { assert (xs + ys)[k] == xs[k]; } else { assert (xs + ys)[k] == ys[k - |xs|]; }
    }
  }

  /** Every emitted content has role `user` or `model` and a non-empty parts list. */
  lemma {:induction false} ContentsProper(messages: seq<Value>)
    requires ConversationContents(messages).Returned?
    ensures AllProper(ConversationContents(messages).value)
  {
    if messages != [] {
      var init := messages[..|messages| - 1];
      ContentsProper(init);
      MessageContentsProper(messages[|messages| - 1]);
      AllProperConcat(ConversationContents(init).value, MessageContents(messages[|messages| - 1]).value);
    }
  }

  /** One message converts exactly when it is well shaped. */
  lemma MessageReturnedIff(message: Value)
    ensures MessageContents(message).Returned? <==> WellShaped(message)
  {
  }

  /** The content a well-shaped user message yields. */
  lemma UserShape(message: Value)
    requires WellShaped(message) && RoleOf(message) == Str("user")
    ensures AllDicts(ListItems(ToolResultsOf(message)))
    ensures MessageContents(message) ==
      Returned([Content("user", TextParts(TextOf(message)) + ResponseParts(ListItems(ToolResultsOf(message))))])
  {
  }

  /** The contents a well-shaped assistant message yields. */
  lemma AssistantShape(message: Value)
    requires WellShaped(message) && RoleOf(message) == Str("assistant")
    ensures AllDicts(ListItems(ToolCallsOf(message))) && AllDicts(ListItems(ToolResultsOf(message)))
    ensures MessageContents(message) ==
      Returned([Content("model", TextParts(TextOf(message)) + CallParts(ListItems(ToolCallsOf(message))))]
               + ResultContents(ListItems(ToolResultsOf(message))))
  {
  }

  lemma MessageContentsProper(message: Value)
    requires MessageContents(message).Returned?
    ensures AllProper(MessageContents(message).value)
  {
    MessageReturnedIff(message);
    var role := RoleOf(message);
    if role == Str("user") {
      UserMessageContents(message);
    } else if role == Str("assistant") {
      AssistantModelContent(message);
      AssistantResultContents(message);
    }
  }

  /** The parts of a content: the text part first when the text is true,
      then `extra` in order, and `[{'text': ''}]` when there is no part at all. */
  predicate PartsLaidOut(content: Value, role: string, text: Value, extra: seq<Value>) {
    && content.Obj?
    && RoleOf(content) == Str(role)
    && var parts := PartsOf(content);
       var offset := if Truthy(text) then 1 else 0;
       && |parts| == (if offset + |extra| == 0 then 1 else offset + |extra|)
       && (offset + |extra| == 0 ==> parts == EmptyParts)
       && (Truthy(text) ==> parts[0] == TextPart(text))
       && forall k :: 0 <= k < |extra| ==> parts[offset + k] == extra[k]
  }

  lemma ContentLaidOut(role: string, text: Value, extra: seq<Value>)
    ensures PartsLaidOut(Content(role, TextParts(text) + extra), role, text, extra)
  {
    var parts := TextParts(text) + extra;
    var content := Content(role, parts);
    var offset := if Truthy(text) then 1 else 0;
    ContentFields(role, parts);
    assert |TextParts(text)| == offset;
    assert |parts| == offset + |extra|;
    if parts == [] {
      assert PartsOf(content) == EmptyParts;
    } else {
      assert PartsOf(content) == parts;
      if Truthy(text) {
        assert parts[0] == TextPart(text);
      }
      forall k | 0 <= k < |extra|
        ensures parts[offset + k] == extra[k]
      {
      }
    }
  }

  /** A user message gives one `user` content: its text part first when
      its text is true, then one `functionResponse` per tool result in
      order, and `[{'text': ''}]` when there would be no part at all. */
  lemma UserMessageContents(message: Value)
    requires WellShaped(message) && RoleOf(message) == Str("user")
    ensures var cs := MessageContents(message);
      && cs.Returned? && |cs.value| == 1
      && PartsLaidOut(cs.value[0], "user", TextOf(message), ResponseParts(ListItems(ToolResultsOf(message))))
    ensures forall k :: 0 <= k < |ListItems(ToolResultsOf(message))| ==>
      ResponseParts(ListItems(ToolResultsOf(message)))[k] == FunctionResponse(ListItems(ToolResultsOf(message))[k])
  {
    UserShape(message);
    var results := ListItems(ToolResultsOf(message));
    ContentLaidOut("user", TextOf(message), ResponseParts(results));
    forall k | 0 <= k < |results| ensures ResponseParts(results)[k] == FunctionResponse(results[k]) {
      ResponsePartsAt(results, k);
    }
  }

  /** An assistant message gives a `model` content: its text part first
      when true, then one `functionCall` per tool call in order. */
  lemma AssistantModelContent(message: Value)
    requires WellShaped(message) && RoleOf(message) == Str("assistant")
    ensures var cs := MessageContents(message);
      && cs.Returned? && |cs.value| == 1 + |ListItems(ToolResultsOf(message))|
      && PartsLaidOut(cs.value[0], "model", TextOf(message), CallParts(ListItems(ToolCallsOf(message))))
    ensures forall k :: 0 <= k < |ListItems(ToolCallsOf(message))| ==>
      CallParts(ListItems(ToolCallsOf(message)))[k] == FunctionCall(ListItems(ToolCallsOf(message))[k])
  {
    AssistantShape(message);
    var calls := ListItems(ToolCallsOf(message));
    ContentLaidOut("model", TextOf(message), CallParts(calls));
    forall k | 0 <= k < |calls| ensures CallParts(calls)[k] == FunctionCall(calls[k]) {
      CallPartsAt(calls, k);
    }
  }

  /** After its `model` content, an assistant message gives one
      single-part `user` content per tool result, in order. */
  lemma AssistantResultContents(message: Value)
    requires WellShaped(message) && RoleOf(message) == Str("assistant")
    ensures var cs := MessageContents(message);
      && cs.Returned? && |cs.value| == 1 + |ListItems(ToolResultsOf(message))|
      && forall k :: 1 <= k < |cs.value| ==>
           cs.value[k].Obj? && RoleOf(cs.value[k]) == Str("user")
           && PartsOf(cs.value[k]) == [FunctionResponse(ListItems(ToolResultsOf(message))[k - 1])]
  {
    AssistantShape(message);
    var results := ListItems(ToolResultsOf(message));
    var cs := MessageContents(message).value;
    forall k | 1 <= k < |cs|
      ensures cs[k].Obj? && RoleOf(cs[k]) == Str("user") && PartsOf(cs[k]) == [FunctionResponse(results[k - 1])]
    {
      assert cs[k] == ResultContents(results)[k - 1];
      ResultContentsAt(results, k - 1);
      ContentFields("user", [FunctionResponse(results[k - 1])]);
    }
  }

  /** A forwarded tool result without a name is reported as `unknown_tool`;
      without a response, its status (default `ok`) and its message stand in. */
  lemma FunctionResponseDefaults(result: Value)
    requires result.Obj?
    ensures var part := FunctionResponse(result);
      && (!HasKey(result.fields, "name") ==>
            Path(part, ["functionResponse", "name"]) == Some(Str("unknown_tool")))
      && (HasKey(result.fields, "name") ==>
            Path(part, ["functionResponse", "name"]) == Lookup(result.fields, "name"))
      && (!HasKey(result.fields, "response") ==>
            && Path(part, ["functionResponse", "response", "status"]) ==
                 (if HasKey(result.fields, "status") then Lookup(result.fields, "status") else Some(Str("ok")))
            && Path(part, ["functionResponse", "response", "detail"]) ==
                 (if HasKey(result.fields, "message") then Lookup(result.fields, "message") else Some(Null)))
      && (HasKey(result.fields, "response") ==>
            Path(part, ["functionResponse", "response"]) == Lookup(result.fields, "response"))
  {
    var fields := result.fields;
    var fallback := Obj([("status", FieldOr(fields, "status", Str("ok"))), ("detail", FieldOr(fields, "message", Null))]);
    var inner := Obj([("name", FieldOr(fields, "name", Str("unknown_tool"))), ("response", FieldOr(fields, "response", fallback))]);
    var part := FunctionResponse(result);
    assert Lookup(part.fields, "functionResponse") == Some(inner);
    assert Lookup(inner.fields, "name") == Some(inner.fields[0].1);
    assert Lookup(inner.fields[1..], "response") == Some(inner.fields[1].1);
    assert Lookup(inner.fields, "response") == Some(inner.fields[1].1);
    assert Lookup(fallback.fields, "status") == Some(fallback.fields[0].1);
    assert Lookup(fallback.fields[1..], "detail") == Some(fallback.fields[1].1);
    assert Lookup(fallback.fields, "detail") == Some(fallback.fields[1].1);
    assert Path(part, ["functionResponse", "name"]) == Path(inner, ["name"]);
    assert Path(part, ["functionResponse", "response"]) == Path(inner, ["response"]);
    assert Path(inner, ["response", "status"]) == Path(inner.fields[1].1, ["status"]);
    assert Path(part, ["functionResponse", "response", "status"]) == Path(inner, ["response", "status"]);
    assert Path(part, ["functionResponse", "response", "detail"]) == Path(inner, ["response", "detail"]);
  }
}
