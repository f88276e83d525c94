/**
  The Python values the ingest handler touches: the JSON-shaped values that
  `json.loads` produces and that the stream trigger delivers as the event,
  together with the three Python operations the handler applies to them —
  `key in d` / `d[key]` on a dict, `v[key]` on an arbitrary value, and
  `for x in v`.
 */
module PyValue {

  datatype Option<+T> = None | Some(value: T)

  /** A value as `json.loads` returns it. A Python dict is its members in
      insertion order; a dict never holds a key twice. */
  datatype Value =
    | Null
    | Bool(b: bool)
    | Int(i: int)
    | Float(f: real)
    | Str(s: string)
    | Arr(items: seq<Value>)
    | Obj(fields: seq<(string, Value)>)

  type Dict = seq<(string, Value)>

  /** `d[key]` on a dict: the value bound to `key`, or None where Python raises
      KeyError. `key in d` is `Lookup(d, key).Some?`. The first binding is taken,
      which in a dict is the only one. */
  function Lookup(d: Dict, key: string): (r: Option<Value>)
    ensures r.None? <==> forall i :: 0 <= i < |d| ==> d[i].0 != key
    ensures r.Some? ==> exists i :: 0 <= i < |d| && d[i] == (key, r.value)
  {
    if d == [] then None
    else if d[0].0 == key then Some(d[0].1)
    else
      var r := Lookup(d[1..], key);
      assert forall i :: 1 <= i < |d| ==> d[i] == d[1..][i - 1];
      r
  }

  /** `v[key]` with a string key on any value: a dict looks the key up; every
      other kind of value raises TypeError. Both failures are None. */
  function Subscript(v: Value, key: string): (r: Option<Value>)
    ensures r.Some? <==> v.Obj? && exists i :: 0 <= i < |v.fields| && v.fields[i].0 == key
    ensures r.Some? ==> exists i :: 0 <= i < |v.fields| && v.fields[i] == (key, r.value)
  {
    match v
    case Obj(fields) => Lookup(fields, key)
    case _ => None
  }

  /** The elements `for x in v` visits, in order: a list yields its items, a
      string its characters (each a one-character string), a dict its keys.
      None, a bool or a number is not iterable and raises TypeError (None here). */
  function Iterate(v: Value): (r: Option<seq<Value>>)
    ensures r.None? <==> v.Null? || v.Bool? || v.Int? || v.Float?
    ensures v.Arr? ==> r == Some(v.items)
    ensures v.Str? ==>
      (r.Some? && |r.value| == |v.s| &&
       forall i :: 0 <= i < |v.s| ==> r.value[i] == Str([v.s[i]]))
    ensures v.Obj? ==>
      (r.Some? && |r.value| == |v.fields| &&
       forall i :: 0 <= i < |v.fields| ==> r.value[i] == Str(v.fields[i].0))
    ensures r.Some? && !v.Arr? ==> forall i :: 0 <= i < |r.value| ==> r.value[i].Str?
  {
    match v
    case Arr(items) => Some(items)
    case Str(s) => Some(seq(|s|, i requires 0 <= i < |s| => Str([s[i]])))
    case Obj(fields) => Some(seq(|fields|, i requires 0 <= i < |fields| => Str(fields[i].0)))
    case _ => None
  }
}
