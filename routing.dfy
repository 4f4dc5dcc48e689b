/** The routing heuristic, the latest-user-text scan and the prompt builder
    of `DedalusService` (backend/server.py:274-334, 445-453). The service's
    `enabled` flag is a parameter: these members read no other state. */
module DedalusRouting {
  import opened Json
  import opened Text
  import GeminiContents

  /** Keywords that mark a request to move or decorate the 3D view (server.py:287-292). */
  const ExcludedKeywords: seq<string> := [
    "highlight", "rotate", "rotation", "view", "angle", "turn", "zoom", "orient",
    "orientation", "camera", "focus on", "show me", "display the model", "spin",
    "auto-rotate", "auto rotate", "clear highlight", "reset view", "annotation",
    "annotate", "color", "colour"]

  /** Openings that mark a question (server.py:297). */
  const QuestionTriggers: seq<string> := [
    "?", "what ", "how ", "why ", "explain ", "describe ", "tell me ", "compare "]

  /** Words that mark a medical topic (server.py:298-302). */
  const MedicalMarkers: seq<string> := [
    "function", "role", "purpose", "medical", "clinical", "symptom", "disease",
    "pathology", "treatment", "diagnosis", "anatomy", "physiology", "surgical",
    "injury", "condition", "blood", "nerve", "organ", "system"]

  /** `any(k in text for k in keywords)` */
  predicate MentionsAny(text: string, keywords: seq<string>) {
    exists k :: 0 <= k < |keywords| && Contains(text, keywords[k])
  }

  /** `any(text.startswith(p) for p in prefixes)` */
  predicate StartsWithAny(text: string, prefixes: seq<string>) {
    exists k :: 0 <= k < |prefixes| && StartsWith(text, prefixes[k])
  }

  /** `(message.get('text') or '').strip()`: a true text that is not a
      string has no `strip` and raises AttributeError. */
  function StrippedText(message: Value): (r: Outcome<string>)
    requires message.Obj?
    ensures r.Returned? ==> IsStripped(r.value)
    ensures !Truthy(FieldOr(message.fields, "text", Null)) ==> r == Returned("")
    ensures FieldOr(message.fields, "text", Null).Str? ==>
      r == Returned(Strip(FieldOr(message.fields, "text", Null).s))
    ensures r.Raised? <==> Truthy(FieldOr(message.fields, "text", Null)) && !FieldOr(message.fields, "text", Null).Str?
    ensures r.Raised? ==> r.error == AttributeError
  {
    var text := FieldOr(message.fields, "text", Null);
    if !Truthy(text) then Returned("")
    else if text.Str? then Returned(Strip(text.s))
    else Raised(AttributeError)
  }

  /** `_latest_user_text`: scanning from the end, the stripped text of the
      first user message whose text is not blank, or `''`. */
  function LatestUserText(messages: seq<Value>): (r: Outcome<string>)
    ensures r.Returned? ==> IsStripped(r.value)
    ensures r.Raised? ==> exists j :: 0 <= j < |messages| && !PassedOver(messages[j])
    decreases |messages|
  {
    if messages == [] then Returned("")
    else
      var message := messages[|messages| - 1];
      var earlier := messages[..|messages| - 1];
      if !message.Obj? then Raised(AttributeError)
      else if GeminiContents.RoleOf(message) != Str("user") then LatestUserText(earlier)
      else
        match StrippedText(message)
        case Raised(e) => Raised(e)
        case Returned(text) => if text != "" then Returned(text) else LatestUserText(earlier)
  }

  predicate IsUserMessage(message: Value) {
    message.Obj? && GeminiContents.RoleOf(message) == Str("user")
  }

  /** A message the backwards scan steps over: a dict that is not from the
      user, or whose text is blank. */
  predicate PassedOver(message: Value) {
    message.Obj? && (!IsUserMessage(message) || StrippedText(message) == Returned(""))
  }

  /** Message `i` is the latest user message with text, and its stripped text is `text`. */
  predicate LatestUserAt(messages: seq<Value>, i: int, text: string) {
    && 0 <= i < |messages|
    && IsUserMessage(messages[i])
    && StrippedText(messages[i]) == Returned(text)
    && text != ""
    && forall j :: i < j < |messages| ==> PassedOver(messages[j])
  }

  /** `_latest_user_text` returns `''` exactly when the scan passes over every message. */
  lemma {:induction false} LatestUserTextEmpty(messages: seq<Value>)
    ensures LatestUserText(messages) == Returned("") <==>
      forall j :: 0 <= j < |messages| ==> PassedOver(messages[j])
    decreases |messages|
  {
    if messages != [] {
      var n := |messages| - 1;
      LatestUserTextEmpty(messages[..n]);
      assert forall j :: 0 <= j < n ==> messages[..n][j] == messages[j];
    }
  }

  /** The scan steps over a last message it passes over. */
  lemma PassedOverSkipped(messages: seq<Value>)
    requires messages != [] && PassedOver(messages[|messages| - 1])
    ensures LatestUserText(messages) == LatestUserText(messages[..|messages| - 1])
  {
  }

  /** A message passed over at the end leaves the latest user message in place. */
  lemma LatestUserAtExtend(messages: seq<Value>, i: int, text: string)
    requires messages != [] && PassedOver(messages[|messages| - 1])
    requires LatestUserAt(messages[..|messages| - 1], i, text)
    ensures LatestUserAt(messages, i, text)
  {
    var n := |messages| - 1;
    forall j | i < j < |messages| ensures PassedOver(messages[j]) {
      if j < n { assert messages[j] == messages[..n][j]; }
    }
    assert messages[i] == messages[..n][i];
  }

  /** The text of the latest user message with text is what `_latest_user_text` returns. */
  lemma {:induction false} LatestUserTextFound(messages: seq<Value>, i: int, text: string)
    requires LatestUserAt(messages, i, text)
    ensures LatestUserText(messages) == Returned(text)
    decreases |messages|
  {
    var n := |messages| - 1;
    if i < n {
      var earlier := messages[..n];
      assert earlier[i] == messages[i];
      assert forall j :: i < j < n ==> earlier[j] == messages[j];
      assert LatestUserAt(earlier, i, text);
      PassedOverSkipped(messages);
      LatestUserTextFound(earlier, i, text);
    }
  }

  /** One step of the backwards scan: the last message either holds the
      answer or is passed over. */
  lemma LatestUserTextStep(messages: seq<Value>)
    requires messages != [] && LatestUserText(messages).Returned?
    ensures var last := messages[|messages| - 1];
      if IsUserMessage(last) && StrippedText(last).Returned? && StrippedText(last).value != "" then
        LatestUserText(messages) == StrippedText(last)
      else
        PassedOver(last) && LatestUserText(messages) == LatestUserText(messages[..|messages| - 1])
  {
  }

  /** A non-empty result of `_latest_user_text` is the text of the latest user message with text. */
  lemma {:induction false} LatestUserTextSound(messages: seq<Value>)
    requires LatestUserText(messages).Returned? && LatestUserText(messages).value != ""
    ensures exists i :: LatestUserAt(messages, i, LatestUserText(messages).value)
    decreases |messages|
  {
    var n := |messages| - 1;
    var text := LatestUserText(messages).value;
    var last := messages[n];
    LatestUserTextStep(messages);
    if IsUserMessage(last) && StrippedText(last).Returned? && StrippedText(last).value != "" {
      assert LatestUserAt(messages, n, text);
    } else {
      var earlier := messages[..n];
      LatestUserTextSound(earlier);
      var i :| LatestUserAt(earlier, i, text);
      LatestUserAtExtend(messages, i, text);
    }
  }

  /** The keyword rule applied to the lowered latest text (server.py:294-311):
      exclusions first, then question openings, a question mark, and six or
      more words with a medical marker. */
  function RouteLowered(lowered: string): (r: bool)
    ensures MentionsAny(lowered, ExcludedKeywords) ==> !r
    ensures !MentionsAny(lowered, ExcludedKeywords) && Contains(lowered, "?") ==> r
    ensures r ==> StartsWithAny(lowered, QuestionTriggers) || Contains(lowered, "?") || MentionsAny(lowered, MedicalMarkers)
    ensures r <==>
      && !MentionsAny(lowered, ExcludedKeywords)
      && (|| StartsWithAny(lowered, QuestionTriggers)
          || Contains(lowered, "?")
          || (WordStarts(lowered, true) >= 6 && MentionsAny(lowered, MedicalMarkers)))
  {
    SplitCount(lowered);
    if MentionsAny(lowered, ExcludedKeywords) then false
    else if StartsWithAny(lowered, QuestionTriggers) then true
    else if Contains(lowered, "?") then true
    else if |Split(lowered)| >= 6 && MentionsAny(lowered, MedicalMarkers) then true
    else false
  }

  /** `DedalusService.should_route(messages, tool_calls)`. */
  function ShouldRoute<T>(enabled: bool, messages: seq<Value>, toolCalls: seq<T>): (r: Outcome<bool>)
    ensures !enabled || toolCalls != [] ==> r == Returned(false)
    ensures r == Returned(true) ==>
      && enabled && toolCalls == []
      && LatestUserText(messages).Returned? && LatestUserText(messages).value != ""
  {
    if !enabled then Returned(false)
    else if toolCalls != [] then Returned(false)
    else
      match LatestUserText(messages)
      case Raised(e) => Raised(e)
      case Returned(latest) => if latest == "" then Returned(false) else Returned(RouteLowered(Lower(latest)))
  }

  /** Routing, stated against the latest user message itself: a question is
      routed exactly when the service is enabled, no tool was called, and
      the latest user message with text passes the keyword rule. An excluded
      keyword therefore wins over every trigger. */
  lemma ShouldRouteSpec<T>(enabled: bool, messages: seq<Value>, toolCalls: seq<T>)
    ensures ShouldRoute(enabled, messages, toolCalls) == Returned(true) <==>
      && enabled && toolCalls == []
      && exists i, text :: LatestUserAt(messages, i, text) && RouteLowered(Lower(text))
    ensures (forall j :: 0 <= j < |messages| ==> PassedOver(messages[j])) ==>
      ShouldRoute(enabled, messages, toolCalls) == Returned(false)
  {
    LatestUserTextEmpty(messages);
    if LatestUserText(messages).Returned? && LatestUserText(messages).value != "" {
      LatestUserTextSound(messages);
    }
    forall i, text | LatestUserAt(messages, i, text)
      ensures LatestUserText(messages) == Returned(text)
    {
      LatestUserTextFound(messages, i, text);
    }
  }

  /** Only the latest user message with text matters: whatever came before
      it, the decision is the keyword rule on that message's text. */
  lemma RoutingIgnoresHistory(earlier: seq<Value>, message: Value, text: string)
    requires IsUserMessage(message) && StrippedText(message) == Returned(text) && text != ""
    ensures ShouldRoute<Value>(true, earlier + [message], []) == Returned(RouteLowered(Lower(text)))
  {
    assert (earlier + [message])[|earlier|] == message;
  }

  /** `sub in s` whenever `s` holds `sub` at position `i`. */
  lemma {:induction false} ContainsAt(s: string, sub: string, i: nat)
    requires i <= |s| && StartsWith(s[i..], sub)
    ensures Contains(s, sub)
    decreases i
  {
    if i > 0 {
      assert s[1..][i - 1..] == s[i..];
      ContainsAt(s[1..], sub, i - 1);
    }
  }

  /** An excluded keyword in the latest user message with text wins over
      every trigger: whatever else the message says, it is not routed. */
  lemma ExclusionWins<T>(enabled: bool, messages: seq<Value>, toolCalls: seq<T>, i: int, text: string)
    requires LatestUserAt(messages, i, text) && MentionsAny(Lower(text), ExcludedKeywords)
    ensures ShouldRoute(enabled, messages, toolCalls) == Returned(false)
  {
    LatestUserTextFound(messages, i, text);
  }

  /** An excluded keyword wins over a question mark and every trigger. */
  lemma ExclusionWinsExample()
    ensures !RouteLowered("can you rotate the heart?")
  {
    var s := "can you rotate the heart?";
    assert StartsWith(s[8..], ExcludedKeywords[1]);
    ContainsAt(s, ExcludedKeywords[1], 8);
  }

  /** The guidance that opens the Dedalus prompt and the heading of the
      transcript under it (server.py:314-318, 328-329). */
  const Preamble: string :=
    "You are a medically trained tutor supporting the Dedalus Labs anatomy explorer. Answer the learner's latest question with clinically accurate, concise explanations. Use clear, student-friendly language and cite relevant anatomical functions when useful.\n\nConversation so far:\n"

  /** The request that closes the prompt, after a blank line (server.py:329-330). */
  const Closing: string := "\n\nProvide a focused response to the learner's most recent message."

  /** The transcript line of one message (server.py:321-326): `None` when its
      text is blank or its role is neither `user` nor `assistant`. */
  function TranscriptLine(message: Value): Outcome<Option<string>> {
    if !message.Obj? then Raised(AttributeError)
    else
      var role := GeminiContents.RoleOf(message);
      match StrippedText(message)
      case Raised(e) => Raised(e)
      case Returned(text) =>
        if text == "" then Returned(None)
        else if !Hashable(role) then Raised(TypeError)
        else if role == Str("user") then Returned(Some("Learner: " + text))
        else if role == Str("assistant") then Returned(Some("Guide: " + text))
        else Returned(None)
  }

  /** The `conversation_lines` of `build_prompt`, or the exception it raises. */
  function Transcript(messages: seq<Value>): Outcome<seq<string>> {
    if messages == [] then Returned([])
    else
      match Transcript(messages[..|messages| - 1])
      case Raised(e) => Raised(e)
      case Returned(lines) =>
        match TranscriptLine(messages[|messages| - 1])
        case Raised(e) => Raised(e)
        case Returned(None) => Returned(lines)
        case Returned(Some(line)) => Returned(lines + [line])
  }

  function PromptFrom(lines: seq<string>): string {
    Preamble + Join(lines, "\n") + Closing
  }

  /** `DedalusService.build_prompt` as the source writes it: a loop that
      appends a prefixed line per spoken message, then a newline join. */
  method BuildPrompt(messages: seq<Value>) returns (r: Outcome<string>)
    ensures r.Raised? <==> Transcript(messages).Raised?
    ensures r.Raised? ==> r.error == Transcript(messages).error
    ensures r.Returned? ==> r.value == PromptFrom(Transcript(messages).value)
  {
    var lines: seq<string> := [];
    for i := 0 to |messages|
      invariant Transcript(messages[..i]) == Returned(lines)
    {
      assert messages[..i + 1][..i] == messages[..i];
      var message := messages[i];
      var line := TranscriptLine(message);
      if line.Raised? {
        TranscriptRaisedPrefix(messages, i + 1);
        return Raised(line.error);
      }
      if line.value.Some? {
        lines := lines + [line.value.value];
      }
    }
    assert messages[..|messages|] == messages;
    return Returned(PromptFrom(lines));
  }

  lemma {:induction false} TranscriptRaisedPrefix(messages: seq<Value>, n: nat)
    requires n <= |messages|
    requires Transcript(messages[..n]).Raised?
    ensures Transcript(messages) == Transcript(messages[..n])
    decreases |messages| - n
  {
    if n < |messages| {
      var init := messages[..|messages| - 1];
      assert init[..n] == messages[..n];
      TranscriptRaisedPrefix(init, n);
    } else {
      assert messages[..n] == messages;
    }
  }

  /** A message that gets a transcript line: a user or assistant message with text. */
  predicate Spoken(message: Value)
    requires message.Obj?
  {
    && (GeminiContents.RoleOf(message) == Str("user") || GeminiContents.RoleOf(message) == Str("assistant"))
    && StrippedText(message).Returned? && StrippedText(message).value != ""
  }

  function SpokenCount(messages: seq<Value>): nat
    requires forall i :: 0 <= i < |messages| ==> messages[i].Obj?
  {
    if messages == [] then 0
    else SpokenCount(messages[..|messages| - 1]) + (if Spoken(messages[|messages| - 1]) then 1 else 0)
  }

  /** A transcript line: `Learner: ` or `Guide: ` and then a non-blank stripped text. */
  predicate SpokenLine(line: string) {
    || (StartsWith(line, "Learner: ") && line[9..] != [] && IsStripped(line[9..]))
    || (StartsWith(line, "Guide: ") && line[7..] != [] && IsStripped(line[7..]))
  }

  /** The line of a spoken message: its speaker and its stripped text. */
  function SpeakerLine(message: Value): string
    requires message.Obj? && StrippedText(message).Returned?
  {
    (if GeminiContents.RoleOf(message) == Str("user") then "Learner: " else "Guide: ") + StrippedText(message).value
  }

  /** A spoken message appends its own line after the lines of the messages
      before it; any other well-shaped message appends nothing. So the
      transcript carries each spoken message's text, in message order. */
  lemma TranscriptAppend(messages: seq<Value>, message: Value)
    requires Transcript(messages).Returned? && TranscriptLine(message).Returned?
    ensures message.Obj?
    ensures Spoken(message) ==>
      Transcript(messages + [message]) == Returned(Transcript(messages).value + [SpeakerLine(message)])
    ensures !Spoken(message) ==> Transcript(messages + [message]) == Transcript(messages)
  {
    var all := messages + [message];
    assert all[..|all| - 1] == messages && all[|all| - 1] == message;
  }

  /** One transcript line per spoken message. */
  lemma {:induction false} TranscriptCount(messages: seq<Value>)
    requires Transcript(messages).Returned?
    ensures forall i :: 0 <= i < |messages| ==> messages[i].Obj?
    ensures |Transcript(messages).value| == SpokenCount(messages)
  {
    if messages != [] {
      var init := messages[..|messages| - 1];
      TranscriptCount(init);
      assert forall i :: 0 <= i < |init| ==> init[i] == messages[i];
    }
  }

  /** Every transcript line names its speaker and carries the stripped text. */
  lemma {:induction false} TranscriptLines(messages: seq<Value>)
    requires Transcript(messages).Returned?
    ensures forall k :: 0 <= k < |Transcript(messages).value| ==> SpokenLine(Transcript(messages).value[k])
  {
    if messages != [] {
      var init := messages[..|messages| - 1];
      TranscriptLines(init);
      var lines := Transcript(init).value;
      var last := messages[|messages| - 1];
      if TranscriptLine(last).value.Some? {
        var text := StrippedText(last).value;
        var line := TranscriptLine(last).value.value;
        if GeminiContents.RoleOf(last) == Str("user") {
          assert line == "Learner: " + text && line[9..] == text;
        } else {
          assert line == "Guide: " + text && line[7..] == text;
        }
        assert SpokenLine(line);
        assert Transcript(messages).value == lines + [line];
      }
    }
  }
}
