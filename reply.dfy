/** What `chat()` takes from the parts of Gemini's top candidate
    (backend/server.py:616-643, 698-705): the tool calls with their
    normalised arguments, and the reply text. */
module GeminiReply {
  import opened Json
  import opened Text

  /** A tool call as the endpoint returns it: `{'name': ..., 'arguments': ...}`. */
  datatype ToolCall = ToolCall(name: Value, arguments: Value)

  /** The `arguments` of a function call (server.py:624-634). `parse` is
      `json.loads`, giving None where it raises JSONDecodeError. */
  function NormaliseArgs(raw: Value, parse: string -> Option<Value>): (r: Value)
    ensures raw.Obj? ==> r == raw
    ensures raw.Str? && Strip(raw.s) != [] && parse(raw.s).Some? ==> r == parse(raw.s).value
    ensures raw.Str? && (Strip(raw.s) == [] || parse(raw.s).None?) ==> r == Obj([])
    ensures !raw.Str? && !raw.Obj? ==> r == Obj([])
    ensures !r.Obj? ==> raw.Str? && Strip(raw.s) != [] && parse(raw.s) == Some(r)
  {
    match raw
    case Str(s) =>
      if Strip(s) == [] then Obj([])
      else (match parse(s) case Some(v) => v case None => Obj([]))
    case Obj(_) => raw
    case _ => Obj([])
  }

  /** What one part contributes. */
  datatype PartKind = TextFragment(text: Value) | FunctionCallPart(call: ToolCall) | Ignored

  /** A dict part with a `text` key. */
  predicate IsTextPart(part: Value) {
    part.Obj? && HasKey(part.fields, "text")
  }

  /** A dict part with a `functionCall` key and no `text` key. */
  predicate IsCallPart(part: Value) {
    part.Obj? && !HasKey(part.fields, "text") && HasKey(part.fields, "functionCall")
  }

  /** One turn of the loop at server.py:619-639. `'text' in part` is a key
      test on a dict, a substring test on a string and an element test on a
      list; a string or list that passes it cannot be indexed by a string
      and raises TypeError, and any other value does not support `in`. */
  function ClassifyPart(part: Value, parse: string -> Option<Value>): (r: Outcome<PartKind>)
    ensures r.Returned? && r.value.TextFragment? <==> IsTextPart(part)
    ensures IsTextPart(part) ==> r == Returned(TextFragment(Lookup(part.fields, "text").value))
    ensures r.Returned? && r.value.FunctionCallPart? ==> IsCallPart(part)
    ensures IsCallPart(part) ==> (r.Returned? <==> Lookup(part.fields, "functionCall").value.Obj?)
    ensures r.Returned? && r.value.FunctionCallPart? ==>
      var call := Lookup(part.fields, "functionCall").value;
      && r.value.call.name == FieldOr(call.fields, "name", Str(""))
      && r.value.call.arguments == NormaliseArgs(FieldOr(call.fields, "args", Obj([])), parse)
    ensures part.Null? || part.Num? || part.Bool? ==> r == Raised(TypeError)
  {
    match part
    case Obj(fields) =>
      if HasKey(fields, "text") then Returned(TextFragment(Lookup(fields, "text").value))
      else if HasKey(fields, "functionCall") then
        var call := Lookup(fields, "functionCall").value;
        if !call.Obj? then Raised(AttributeError)
        else
          var name := FieldOr(call.fields, "name", Str(""));
          var args := NormaliseArgs(FieldOr(call.fields, "args", Obj([])), parse);
          Returned(FunctionCallPart(ToolCall(name, args)))
      else Returned(Ignored)
    case Str(s) =>
      if Contains(s, "text") || Contains(s, "functionCall") then Raised(TypeError) else Returned(Ignored)
    case Arr(items) =>
      if Str("text") in items || Str("functionCall") in items then Raised(TypeError) else Returned(Ignored)
    case _ => Raised(TypeError)
  }

  /** `reply_text_fragments` and `tool_calls` after the loop. */
  datatype Extraction = Extraction(fragments: seq<Value>, toolCalls: seq<ToolCall>)

  /** The loop at server.py:619-639 over a list of parts, or the exception it raises. */
  function ScanParts(parts: seq<Value>, parse: string -> Option<Value>): (r: Outcome<Extraction>)
    ensures r.Returned? ==> |r.value.fragments| + |r.value.toolCalls| <= |parts|
  {
    if parts == [] then Returned(Extraction([], []))
    else
      match ScanParts(parts[..|parts| - 1], parse)
      case Raised(e) => Raised(e)
      case Returned(x) =>
        match ClassifyPart(parts[|parts| - 1], parse)
        case Raised(e) => Raised(e)
        case Returned(TextFragment(t)) => Returned(Extraction(x.fragments + [t], x.toolCalls))
        case Returned(FunctionCallPart(c)) => Returned(Extraction(x.fragments, x.toolCalls + [c]))
        case Returned(Ignored) => Returned(x)
  }

  /** The loop itself, appending to the two lists part by part. */
  method ExtractParts(parts: seq<Value>, parse: string -> Option<Value>) returns (r: Outcome<Extraction>)
    ensures r == ScanParts(parts, parse)
  {
    var fragments: seq<Value> := [];
    var toolCalls: seq<ToolCall> := [];
    for i := 0 to |parts|
      invariant ScanParts(parts[..i], parse) == Returned(Extraction(fragments, toolCalls))
    {
      assert parts[..i + 1][..i] == parts[..i];
      var kind := ClassifyPart(parts[i], parse);
      if kind.Raised? {
        ScanRaisedPrefix(parts, i + 1, parse);
        return Raised(kind.error);
      }
      match kind.value
      case TextFragment(t) =>
        fragments := fragments + [t];
      case FunctionCallPart(c) =>
        toolCalls := toolCalls + [c];
      case Ignored =>
    }
    assert parts[..|parts|] == parts;
    return Returned(Extraction(fragments, toolCalls));
  }

  lemma {:induction false} ScanRaisedPrefix(parts: seq<Value>, n: nat, parse: string -> Option<Value>)
    requires n <= |parts|
    requires ScanParts(parts[..n], parse).Raised?
    ensures ScanParts(parts, parse) == ScanParts(parts[..n], parse)
    decreases |parts| - n
  {
    if n < |parts| {
      var init := parts[..|parts| - 1];
      assert init[..n] == parts[..n];
      ScanRaisedPrefix(init, n, parse);
    } else {
      assert parts[..n] == parts;
    }
  }

  function TextPartCount(parts: seq<Value>): nat {
    if parts == [] then 0
    else TextPartCount(parts[..|parts| - 1]) + (if IsTextPart(parts[|parts| - 1]) then 1 else 0)
  }

  function CallPartCount(parts: seq<Value>): nat {
    if parts == [] then 0
    else CallPartCount(parts[..|parts| - 1]) + (if IsCallPart(parts[|parts| - 1]) then 1 else 0)
  }

  /** One reply fragment per dict part with `text`, one tool call per dict
      part with `functionCall` and no `text`. */
  lemma {:induction false} ScanCounts(parts: seq<Value>, parse: string -> Option<Value>)
    requires ScanParts(parts, parse).Returned?
    ensures |ScanParts(parts, parse).value.fragments| == TextPartCount(parts)
    ensures |ScanParts(parts, parse).value.toolCalls| == CallPartCount(parts)
  {
    if parts != [] {
      ScanCounts(parts[..|parts| - 1], parse);
    }
  }

  /** Scanning two runs of parts is scanning each in turn: fragments and
      tool calls keep the order of their parts, and the first part that
      raises decides the exception. */
  lemma {:induction false} ScanConcat(a: seq<Value>, b: seq<Value>, parse: string -> Option<Value>)
    ensures ScanParts(a + b, parse) ==
      match ScanParts(a, parse)
      case Raised(e) => Raised(e)
      case Returned(x) =>
        match ScanParts(b, parse)
        case Raised(e) => Raised(e)
        case Returned(y) => Returned(Extraction(x.fragments + y.fragments, x.toolCalls + y.toolCalls))
    decreases |b|
  {
    if b == [] {
      assert a + b == a;
      if ScanParts(a, parse).Returned? {
        var x := ScanParts(a, parse).value;
        assert x.fragments + [] == x.fragments && x.toolCalls + [] == x.toolCalls;
      }
    } else {
      var b' := b[..|b| - 1];
      assert (a + b)[..|a + b| - 1] == a + b';
      assert (a + b)[|a + b| - 1] == b[|b| - 1];
      ScanConcat(a, b', parse);
      if ScanParts(a, parse).Returned? && ScanParts(b', parse).Returned? {
        var x := ScanParts(a, parse).value;
        var y := ScanParts(b', parse).value;
        match ClassifyPart(b[|b| - 1], parse)
        case Raised(_) =>
        case Returned(TextFragment(t)) =>
          assert x.fragments + (y.fragments + [t]) == (x.fragments + y.fragments) + [t];
        case Returned(FunctionCallPart(c)) =>
          assert x.toolCalls + (y.toolCalls + [c]) == (x.toolCalls + y.toolCalls) + [c];
        case Returned(Ignored) =>
      }
    }
  }

  /** A part holding a `functionCall` dict and no `text` adds exactly one
      tool call: its name, defaulting to `''`, and its normalised `args`,
      defaulting to `{}`. With `ScanConcat`, the calls keep the order of
      their parts. */
  lemma ScanOneCall(part: Value, parse: string -> Option<Value>)
    requires IsCallPart(part) && Lookup(part.fields, "functionCall").value.Obj?
    ensures var call := Lookup(part.fields, "functionCall").value;
      ScanParts([part], parse) == Returned(Extraction([], [ToolCall(
        FieldOr(call.fields, "name", Str("")),
        NormaliseArgs(FieldOr(call.fields, "args", Obj([])), parse))]))
  {
    assert [part][..0] == [];
    var kind := ClassifyPart(part, parse);
    assert kind.Returned? && kind.value.FunctionCallPart?;
    var call := Lookup(part.fields, "functionCall").value;
    assert kind.value.call == ToolCall(FieldOr(call.fields, "name", Str("")),
      NormaliseArgs(FieldOr(call.fields, "args", Obj([])), parse));
    assert [] + [kind.value.call] == [kind.value.call];
    assert ScanParts([part], parse) == Returned(Extraction([], [kind.value.call]));
  }

  /** What the reply keeps of the fragments, read front to back: the
      stripped text of each non-blank string fragment, in order. */
  function Kept(fragments: seq<Value>): seq<string> {
    if fragments == [] then []
    else
      var first := fragments[0];
      (if first.Str? && Strip(first.s) != [] then [Strip(first.s)] else []) + Kept(fragments[1..])
  }

  /** Keeping from a list with one more fragment at the end keeps from the
      list, then from that fragment. */
  lemma {:induction false} KeptSnoc(init: seq<Value>, last: Value)
    ensures Kept(init + [last]) == Kept(init) + Kept([last])
  {
    if init != [] {
      assert (init + [last])[1..] == init[1..] + [last];
      KeptSnoc(init[1..], last);
    } else {
      assert init + [last] == [last];
    }
  }

  /** The stripped, non-blank reply fragments; a fragment that is not a
      string has no `strip` and raises AttributeError. */
  function StrippedFragments(fragments: seq<Value>): (r: Outcome<seq<string>>)
    ensures r.Returned? ==> |r.value| <= |fragments|
    ensures r.Raised? ==> r.error == AttributeError
    ensures r.Returned? ==> r.value == Kept(fragments)
  {
    if fragments == [] then Returned([])
    else
      KeptSnoc(fragments[..|fragments| - 1], fragments[|fragments| - 1]);
      assert fragments[..|fragments| - 1] + [fragments[|fragments| - 1]] == fragments;
      match StrippedFragments(fragments[..|fragments| - 1])
      case Raised(e) => Raised(e)
      case Returned(pieces) =>
        var last := fragments[|fragments| - 1];
        if !last.Str? then Raised(AttributeError)
        else if Strip(last.s) == [] then Returned(pieces)
        else Returned(pieces + [Strip(last.s)])
  }

  /** `'\n'.join(f.strip() for f in reply_text_fragments if f.strip())` (server.py:643). */
  function JoinedReply(fragments: seq<Value>): Outcome<string> {
    match StrippedFragments(fragments)
    case Raised(e) => Raised(e)
    case Returned(pieces) => Returned(Join(pieces, "\n"))
  }

  predicate BlankFragment(fragment: Value) {
    fragment.Str? && Strip(fragment.s) == []
  }

  lemma {:induction false} StrippedFragmentsReturned(fragments: seq<Value>)
    ensures StrippedFragments(fragments).Returned? <==> forall i :: 0 <= i < |fragments| ==> fragments[i].Str?
  {
    if fragments != [] {
      var init := fragments[..|fragments| - 1];
      StrippedFragmentsReturned(init);
      assert forall i :: 0 <= i < |init| ==> init[i] == fragments[i];
    }
  }

  /** Every piece kept is a non-empty stripped string. */
  lemma {:induction false} StrippedPieces(fragments: seq<Value>)
    requires StrippedFragments(fragments).Returned?
    ensures forall k :: 0 <= k < |StrippedFragments(fragments).value| ==>
      StrippedFragments(fragments).value[k] != [] && IsStripped(StrippedFragments(fragments).value[k])
  {
    if fragments != [] {
      var init := fragments[..|fragments| - 1];
      var last := fragments[|fragments| - 1];
      StrippedPieces(init);
      var pieces := StrippedFragments(init).value;
      if Strip(last.s) != [] {
        assert StrippedFragments(fragments).value == pieces + [Strip(last.s)];
      }
    }
  }

  /** No piece is kept exactly when every fragment is blank. */
  lemma {:induction false} StrippedNothing(fragments: seq<Value>)
    requires StrippedFragments(fragments).Returned?
    ensures StrippedFragments(fragments).value == [] <==> forall i :: 0 <= i < |fragments| ==> BlankFragment(fragments[i])
  {
    if fragments != [] {
      var init := fragments[..|fragments| - 1];
      var last := fragments[|fragments| - 1];
      StrippedNothing(init);
      var pieces := StrippedFragments(init).value;
      if Strip(last.s) == [] {
        assert StrippedFragments(fragments).value == pieces;
        assert forall i :: 0 <= i < |init| ==> init[i] == fragments[i];
      } else {
        assert StrippedFragments(fragments).value == pieces + [Strip(last.s)];
        assert !BlankFragment(fragments[|fragments| - 1]);
      }
    }
  }

  /** The reply text is stripped, and it is empty exactly when every text
      fragment is blank; it exists exactly when every fragment is a string. */
  lemma JoinedReplySpec(fragments: seq<Value>)
    ensures JoinedReply(fragments).Returned? <==> forall i :: 0 <= i < |fragments| ==> fragments[i].Str?
    ensures JoinedReply(fragments).Returned? ==>
      && JoinedReply(fragments).value == Join(Kept(fragments), "\n")
      && IsStripped(JoinedReply(fragments).value)
      && (JoinedReply(fragments).value == [] <==> forall i :: 0 <= i < |fragments| ==> BlankFragment(fragments[i]))
  {
    StrippedFragmentsReturned(fragments);
    if StrippedFragments(fragments).Returned? {
      StrippedPieces(fragments);
      StrippedNothing(fragments);
      JoinStripped(StrippedFragments(fragments).value, "\n");
    }
  }

  const ProcessingReply: string := "I am processing your request."

  /** The fallback at server.py:698-705: an empty reply is kept empty when
      tools were called and replaced by a holding message otherwise. */
  function FinalReply(text: string, toolCalls: seq<ToolCall>): (r: string)
    ensures text != [] ==> r == text
    ensures r == [] <==> text == [] && toolCalls != []
    ensures r != text ==> r == ProcessingReply
  {
    if text != [] then text
    else if toolCalls != [] then []
    else ProcessingReply
  }
}
