/** `DedalusService._extract_text_fragments` (backend/server.py:396-443):
    the strings of a streamed Dedalus event that look like reply text. */
module DedalusFragments {
  import opened Json
  import opened Text

  /** `_TEXT_KEY_TOKENS` (server.py:227). */
  const TextKeyTokens: seq<string> := ["text", "message", "content", "response", "paragraph"]

  /** Metadata keys whose values are never searched (server.py:415-425). */
  const IgnoredKeys: set<string> :=
    {"id", "model", "type", "role", "index", "finish_reason", "created", "usage", "provider"}

  /** `any(token in s for token in _TEXT_KEY_TOKENS)` */
  predicate HasToken(s: string) {
    exists k :: 0 <= k < |TextKeyTokens| && Contains(s, TextKeyTokens[k])
  }

  /** Whether a bare string found under `hint` counts as text. */
  predicate Accepts(hint: Option<string>) {
    hint.None? || HasToken(Lower(hint.value))
  }

  /** The hint passed down under `key`: the lowered key when it names text,
      otherwise the hint already in force. */
  function NextHint(key: string, hint: Option<string>): Option<string> {
    if HasToken(Lower(key)) then Some(Lower(key)) else hint
  }

  /** Every key of the dict is one whose value is never searched. */
  predicate OnlyMetadata(fields: seq<(string, Value)>) {
    forall k :: 0 <= k < |fields| ==> fields[k].0 in IgnoredKeys
  }

  /** The dict's own `text` entry when it is a string. */
  function InlineText(fields: seq<(string, Value)>): seq<string> {
    match Lookup(fields, "text")
    case Some(Str(s)) => [s]
    case _ => []
  }

  /** `_extract_text_fragments(payload, key_hint)` for JSON-like payloads:
      `None`, numbers and booleans give nothing, a string is kept exactly
      when the hint allows it, and a dict's own string `text` comes first. */
  function Fragments(v: Value, hint: Option<string>): (r: seq<string>)
    ensures v.Null? || v.Num? || v.Bool? ==> r == []
    ensures v.Str? ==> (r == [v.s] <==> Accepts(hint)) && (r == [] <==> !Accepts(hint))
    ensures v.Obj? && Lookup(v.fields, "text").Some? && Lookup(v.fields, "text").value.Str?
            ==> |r| > 0 && r[0] == Lookup(v.fields, "text").value.s
    decreases v, 1
  {
    match v
    case Null => []
    case Num(_) => []
    case Bool(_) => []
    case Str(s) => if Accepts(hint) then [s] else []
    case Arr(items) => ItemsFragments(items, hint)
    case Obj(fields) => InlineText(fields) + FieldsFragments(fields, hint)
  }

  /** The fragments of a list's items, in order, all under the same hint:
      a list of strings under a hint that allows them yields each string. */
  function ItemsFragments(items: seq<Value>, hint: Option<string>): (r: seq<string>)
    ensures Accepts(hint) && (forall i :: 0 <= i < |items| ==> items[i].Str?)
            ==> |r| == |items| && forall i :: 0 <= i < |items| ==> r[i] == items[i].s
    decreases items, 0
  {
    if items == [] then []
    else Fragments(items[0], hint) + ItemsFragments(items[1..], hint)
  }

  /** The fragments of a dict's fields, in order, skipping ignored keys: a
      dict holding only metadata keys yields nothing. */
  function FieldsFragments(fields: seq<(string, Value)>, hint: Option<string>): (r: seq<string>)
    ensures OnlyMetadata(fields) ==> r == []
    decreases fields, 0
  {
    if fields == [] then []
    else
      var (key, value) := fields[0];
      assert fields[0].1 < fields[0];
      var here := if key in IgnoredKeys then [] else Fragments(value, NextHint(key, hint));
      here + FieldsFragments(fields[1..], hint)
  }

  /** `s` is one of the strings inside `v` that the extraction visits: a
      string reached through list items and the fields of dicts whose key
      is not a metadata key. */
  predicate Reachable(s: string, v: Value)
    decreases v
  {
    match v
    case Str(t) => t == s
    case Arr(items) => exists i :: 0 <= i < |items| && Reachable(s, items[i])
    case Obj(fields) => exists i :: 0 <= i < |fields| && ReachableInField(s, fields, i)
    case _ => false
  }

  predicate ReachableInField(s: string, fields: seq<(string, Value)>, i: int)
    requires 0 <= i < |fields|
    decreases fields, 0
  {
    assert fields[i].1 < fields[i];
    fields[i].0 !in IgnoredKeys && Reachable(s, fields[i].1)
  }

  lemma {:induction false} LookupOccurs(fields: seq<(string, Value)>, key: string, x: Value)
    requires Lookup(fields, key) == Some(x)
    ensures exists i :: 0 <= i < |fields| && fields[i] == (key, x)
  {
    if fields[0].0 != key {
      LookupOccurs(fields[1..], key, x);
      var i :| 0 <= i < |fields[1..]| && fields[1..][i] == (key, x);
      assert fields[i + 1] == (key, x);
    }
  }

  /** Every fragment is a string taken from the payload itself, never from
      under a metadata key. */
  lemma {:induction false} FragmentsOccur(v: Value, hint: Option<string>)
    ensures forall f :: f in Fragments(v, hint) ==> Reachable(f, v)
    decreases v, 1
  {
    match v
    case Null =>
    case Num(_) =>
    case Bool(_) =>
    case Str(_) =>
    case Arr(items) =>
      ItemsOccur(items, hint);
    case Obj(fields) =>
      FieldsOccur(fields, hint);
      if Lookup(fields, "text").Some? && Lookup(fields, "text").value.Str? {
        LookupOccurs(fields, "text", Lookup(fields, "text").value);
        var i :| 0 <= i < |fields| && fields[i] == ("text", Lookup(fields, "text").value);
        assert "text" !in IgnoredKeys;
        assert ReachableInField(Lookup(fields, "text").value.s, fields, i);
      }
  }

  lemma {:induction false} ItemsOccur(items: seq<Value>, hint: Option<string>)
    ensures forall f :: f in ItemsFragments(items, hint) ==> exists i :: 0 <= i < |items| && Reachable(f, items[i])
    decreases items, 0
  {
    if items != [] {
      FragmentsOccur(items[0], hint);
      ItemsOccur(items[1..], hint);
      assert ItemsFragments(items, hint) == Fragments(items[0], hint) + ItemsFragments(items[1..], hint);
      forall f | f in ItemsFragments(items, hint)
        ensures exists i :: 0 <= i < |items| && Reachable(f, items[i])
      {
        if f !in Fragments(items[0], hint) {
          assert f in ItemsFragments(items[1..], hint);
          var i :| 0 <= i < |items[1..]| && Reachable(f, items[1..][i]);
          assert items[1..][i] == items[i + 1];
        }
      }
    }
  }

  lemma {:induction false} FieldsOccur(fields: seq<(string, Value)>, hint: Option<string>)
    ensures forall f :: f in FieldsFragments(fields, hint) ==> exists i :: 0 <= i < |fields| && ReachableInField(f, fields, i)
    decreases fields, 0
  {
    if fields != [] {
      var key, value := fields[0].0, fields[0].1;
      assert fields[0].1 < fields[0];
      FragmentsOccur(value, NextHint(key, hint));
      FieldsOccur(fields[1..], hint);
      var here := if key in IgnoredKeys then [] else Fragments(value, NextHint(key, hint));
      assert FieldsFragments(fields, hint) == here + FieldsFragments(fields[1..], hint);
      forall f | f in FieldsFragments(fields, hint)
        ensures exists i :: 0 <= i < |fields| && ReachableInField(f, fields, i)
      {
        if f in here {
          assert ReachableInField(f, fields, 0);
        } else {
          assert f in FieldsFragments(fields[1..], hint);
          var i :| 0 <= i < |fields[1..]| && ReachableInField(f, fields[1..], i);
          assert fields[1..][i] == fields[i + 1];
          assert ReachableInField(f, fields, i + 1);
        }
      }
      assert forall f :: f in FieldsFragments(fields, hint) ==> exists i :: 0 <= i < |fields| && ReachableInField(f, fields, i);
    } else {
      assert FieldsFragments(fields, hint) == [];
    }
  }

  /** Extraction finds every reachable string: under no hint, or a hint
      that names text, each string reached through list items and
      non-metadata fields is a fragment. A key that names no text passes the
      hint in force down unchanged, so such strings are found at any depth. */
  lemma {:induction false} FragmentsComplete(s: string, v: Value, hint: Option<string>)
    requires Accepts(hint) && Reachable(s, v)
    ensures s in Fragments(v, hint)
    decreases v, 1
  {
    match v
    case Str(_) =>
    case Arr(items) =>
      var i :| 0 <= i < |items| && Reachable(s, items[i]);
      ItemsComplete(s, items, hint, i);
    case Obj(fields) =>
      var i :| 0 <= i < |fields| && ReachableInField(s, fields, i);
      FieldsComplete(s, fields, hint, i);
  }

  lemma {:induction false} ItemsComplete(s: string, items: seq<Value>, hint: Option<string>, i: nat)
    requires Accepts(hint) && i < |items| && Reachable(s, items[i])
    ensures s in ItemsFragments(items, hint)
    decreases items, 0
  {
    if i == 0 {
      FragmentsComplete(s, items[0], hint);
    } else {
      assert items[1..][i - 1] == items[i];
      ItemsComplete(s, items[1..], hint, i - 1);
    }
  }

  lemma {:induction false} FieldsComplete(s: string, fields: seq<(string, Value)>, hint: Option<string>, i: nat)
    requires Accepts(hint) && i < |fields| && ReachableInField(s, fields, i)
    ensures s in FieldsFragments(fields, hint)
    decreases fields, 0
  {
    if i == 0 {
      var (key, value) := fields[0];
      assert fields[0].1 < fields[0];
      LowerIdempotent(key);
      assert Accepts(NextHint(key, hint));
      FragmentsComplete(s, value, NextHint(key, hint));
    } else {
      assert fields[1..][i - 1] == fields[i];
      assert ReachableInField(s, fields[1..], i - 1);
      FieldsComplete(s, fields[1..], hint, i - 1);
    }
  }

  /** The streamed shape `{"choices": [{"delta": {"content": s}}]}` yields
      `s`: `choices` and `delta` name no text and pass the absent hint on,
      and `content` names text. */
  lemma StreamedDeltaFound(s: string)
    ensures s in Fragments(Obj([("choices", Arr([Obj([("delta", Obj([("content", Str(s))]))])]))]), None)
  {
    var inner := [("content", Str(s))];
    var delta := [("delta", Obj(inner))];
    var choices := [("choices", Arr([Obj(delta)]))];
    assert ReachableInField(s, inner, 0);
    assert Reachable(s, Obj(inner));
    assert ReachableInField(s, delta, 0);
    assert Reachable(s, [Obj(delta)][0]);
    assert Reachable(s, Arr([Obj(delta)]));
    assert ReachableInField(s, choices, 0);
    FragmentsComplete(s, Obj(choices), None);
  }

  /** Extracting from a list is extracting from each part: concatenation is preserved. */
  lemma {:induction false} ItemsConcat(a: seq<Value>, b: seq<Value>, hint: Option<string>)
    ensures ItemsFragments(a + b, hint) == ItemsFragments(a, hint) + ItemsFragments(b, hint)
  {
    if a != [] {
      assert (a + b)[1..] == a[1..] + b;
      ItemsConcat(a[1..], b, hint);
    } else {
      assert a + b == b;
    }
  }

  /** The same for the fields of a dict. */
  lemma {:induction false} FieldsConcat(a: seq<(string, Value)>, b: seq<(string, Value)>, hint: Option<string>)
    ensures FieldsFragments(a + b, hint) == FieldsFragments(a, hint) + FieldsFragments(b, hint)
  {
    if a != [] {
      assert (a + b)[1..] == a[1..] + b;
      assert (a + b)[0] == a[0];
      FieldsConcat(a[1..], b, hint);
    } else {
      assert a + b == b;
    }
  }

  /** A field whose key is in the ignore set contributes nothing, wherever
      it stands among the dict's fields. */
  lemma IgnoredFieldSkipped(before: seq<(string, Value)>, key: string, value: Value,
                            after: seq<(string, Value)>, hint: Option<string>)
    requires key in IgnoredKeys
    ensures FieldsFragments(before + [(key, value)] + after, hint) == FieldsFragments(before + after, hint)
  {
    FieldsConcat(before + [(key, value)], after, hint);
    FieldsConcat(before, [(key, value)], hint);
    FieldsConcat(before, after, hint);
    assert FieldsFragments([(key, value)], hint) == [];
  }

  /** A hint that names text behaves like no hint at all: only keys that
      name no text and sit under a non-text hint hide a string. */
  lemma {:induction false} TextualHintLikeNone(v: Value, hint: Option<string>)
    requires Accepts(hint)
    ensures Fragments(v, hint) == Fragments(v, None)
    decreases v, 1
  {
    match v
    case Null =>
    case Num(_) =>
    case Bool(_) =>
    case Str(_) =>
    case Arr(items) => ItemsHintLikeNone(items, hint);
    case Obj(fields) => FieldsHintLikeNone(fields, hint);
  }

  lemma {:induction false} ItemsHintLikeNone(items: seq<Value>, hint: Option<string>)
    requires Accepts(hint)
    ensures ItemsFragments(items, hint) == ItemsFragments(items, None)
    decreases items, 0
  {
    if items != [] {
      TextualHintLikeNone(items[0], hint);
      ItemsHintLikeNone(items[1..], hint);
    }
  }

  lemma {:induction false} FieldsHintLikeNone(fields: seq<(string, Value)>, hint: Option<string>)
    requires Accepts(hint)
    ensures FieldsFragments(fields, hint) == FieldsFragments(fields, None)
    decreases fields, 0
  {
    if fields != [] {
      var (key, value) := fields[0];
      assert fields[0].1 < fields[0];
      if !HasToken(Lower(key)) {
        TextualHintLikeNone(value, hint);
      }
      FieldsHintLikeNone(fields[1..], hint);
    }
  }

  lemma TextHasToken()
    ensures HasToken("text")
  {
    assert Contains("text", TextKeyTokens[0]);
  }

  /** A string under a key that names text, and is not ignored, is always
      extracted, whatever the hint in force. */
  lemma {:induction false} TextualFieldFound(fields: seq<(string, Value)>, hint: Option<string>, i: nat)
    requires i < |fields| && fields[i].0 !in IgnoredKeys && HasToken(Lower(fields[i].0)) && fields[i].1.Str?
    ensures fields[i].1.s in FieldsFragments(fields, hint)
  {
    LowerIdempotent(fields[i].0);
    if i > 0 {
      TextualFieldFound(fields[1..], hint, i - 1);
    }
  }

  /** A dict `{'text': s}` yields `s` twice: once as its inline text and
      once as the value of its `text` key. */
  lemma InlineTextTwice(s: string, hint: Option<string>)
    ensures Fragments(Obj([("text", Str(s))]), hint) == [s, s]
  {
    TextHasToken();
    assert Lower("text") == "text";
    var fields := [("text", Str(s))];
    assert Lookup(fields, "text") == Some(Str(s));
    assert NextHint("text", hint) == Some("text");
    assert Fragments(Str(s), Some("text")) == [s];
    assert FieldsFragments(fields[1..], hint) == [];
    assert FieldsFragments(fields, hint) == [s];
  }
}
