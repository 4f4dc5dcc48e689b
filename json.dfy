/** The Python view of JSON-decoded chat data that backend/server.py works on:
    values, `dict.get`, truthiness, `for` iteration, and the exceptions the
    server lets escape when the data has the wrong shape. */
module Json {

  datatype Option<+T> = None | Some(value: T)

  /** The Python exceptions the modelled code does not catch. */
  datatype PyError = AttributeError | TypeError | KeyError

  /** What a Python call does: it returns a value or it raises. */
  datatype Outcome<+T> = Returned(value: T) | Raised(error: PyError)

  /** A JSON-like Python value. `Obj` is a dict, its fields in insertion
      order. The type admits a repeated key, which a decoded dict never
      holds; `Lookup` reads the first field with a key, so only that field
      is seen by `dict.get`. Numbers are modelled as integers. */
  datatype Value =
    | Null
    | Str(s: string)
    | Num(n: int)
    | Bool(b: bool)
    | Arr(items: seq<Value>)
    | Obj(fields: seq<(string, Value)>)

  /** Python truthiness: `None`, `''`, `0`, `False`, `[]` and `{}` are false. */
  predicate Truthy(v: Value) {
    match v
    case Null => false
    case Str(s) => s != []
    case Num(n) => n != 0
    case Bool(b) => b
    case Arr(items) => items != []
    case Obj(fields) => fields != []
  }

  /** `key in d` for a dict `d`. */
  predicate HasKey(fields: seq<(string, Value)>, key: string) {
    fields != [] && (fields[0].0 == key || HasKey(fields[1..], key))
  }

  /** `d[key]` when the key is present: the value of its first field. */
  function Lookup(fields: seq<(string, Value)>, key: string): (r: Option<Value>)
    ensures r.Some? <==> HasKey(fields, key)
  {
    if fields == [] then None
    else if fields[0].0 == key then Some(fields[0].1)
    else Lookup(fields[1..], key)
  }

  /** `d.get(key, default)` for a dict `d`. */
  function FieldOr(fields: seq<(string, Value)>, key: string, default: Value): (r: Value)
    ensures !HasKey(fields, key) ==> r == default
    ensures HasKey(fields, key) ==> Lookup(fields, key) == Some(r)
  {
    match Lookup(fields, key)
    case Some(v) => v
    case None => default
  }

  /** `v[k1][k2]...` through nested dicts, or None where a key is missing. */
  function Path(v: Value, keys: seq<string>): Option<Value>
    decreases |keys|
  {
    if keys == [] then Some(v)
    else if v.Obj? then
      match Lookup(v.fields, keys[0])
      case None => None
      case Some(x) => Path(x, keys[1..])
    else None
  }

  /** Only dicts have `.get`; any other value raises AttributeError. */
  function Get(d: Value, key: string, default: Value): (r: Outcome<Value>)
    ensures r.Returned? <==> d.Obj?
    ensures r.Raised? ==> r.error == AttributeError
    ensures d.Obj? && HasKey(d.fields, key) ==> Returned(Lookup(d.fields, key).value) == r
    ensures d.Obj? && !HasKey(d.fields, key) ==> r == Returned(default)
  {
    if d.Obj? then Returned(FieldOr(d.fields, key, default)) else Raised(AttributeError)
  }

  /** Lists and dicts are unhashable: `x in {...}` raises TypeError for them. */
  predicate Hashable(v: Value) {
    !v.Arr? && !v.Obj?
  }

  /** What a `for` loop visits: the items of a list, the one-character
      strings of a string, the keys of a dict; other values raise TypeError. */
  function Iterate(v: Value): (r: Outcome<seq<Value>>)
    ensures r.Returned? <==> v.Arr? || v.Str? || v.Obj?
    ensures v.Str? ==> r.Returned? && |r.value| == |v.s|
    ensures v.Obj? ==> r.Returned? && |r.value| == |v.fields|
    ensures r.Returned? ==> forall i :: 0 <= i < |r.value| ==> r.value[i].Obj? ==> v.Arr?
    ensures r.Raised? ==> r.error == TypeError
    ensures v.Arr? ==> r == Returned(v.items)
    ensures v.Str? ==> forall i :: 0 <= i < |v.s| ==> r.value[i] == Str([v.s[i]])
    ensures v.Obj? ==> forall i :: 0 <= i < |v.fields| ==> r.value[i] == Str(v.fields[i].0)
  {
    match v
    case Arr(items) => Returned(items)
    case Str(s) => Returned(seq(|s|, i requires 0 <= i < |s| => Str([s[i]])))
    case Obj(fields) => Returned(seq(|fields|, i requires 0 <= i < |fields| => Str(fields[i].0)))
    case _ => Raised(TypeError)
  }

  /** `for x in (v or [])`: a false value iterates as the empty list. */
  function IterateOrEmpty(v: Value): (r: Outcome<seq<Value>>)
    ensures !Truthy(v) ==> r == Returned([])
    ensures v.Arr? ==> r == Returned(v.items)
  {
    if Truthy(v) then Iterate(v) else Returned([])
  }

  predicate AllDicts(items: seq<Value>) {
    forall i :: 0 <= i < |items| ==> items[i].Obj?
  }

  /** The items `for x in (v or [])` visits when `v` is a list, or is false. */
  function ListItems(v: Value): seq<Value> {
    if v.Arr? then v.items else []
  }

  /** `for x in (v or []): x.get(...)`: the items when every one of them is
      a dict; the loop raises at the first item that is not. */
  function DictItems(v: Value): (r: Outcome<seq<Value>>)
    ensures r.Returned? ==> AllDicts(r.value)
    ensures r.Returned? <==> !Truthy(v) || (v.Arr? && AllDicts(v.items))
    ensures r.Returned? ==> r.value == ListItems(v)
  {
    match IterateOrEmpty(v)
    case Raised(e) => Raised(e)
    case Returned(items) =>
      assert Truthy(v) && !v.Arr? ==> |items| > 0 && !items[0].Obj?;
      if AllDicts(items) then Returned(items) else Raised(AttributeError)
  }
}
