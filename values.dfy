/** PHP array values as they travel to and from the search client, and the
    one array operation the adapter applies to them. */
module Values {

  datatype Option<+T> = None | Some(value: T) {
    /** PHP's `??`: the value when present, the default otherwise. */
    function GetOr(default: T): T {
      match this
      case Some(v) => v
      case None => default
    }
  }

  /** A PHP value as far as a request or a response body needs one: scalars,
      list-shaped arrays and string-keyed arrays. There is no null and no
      float, so a document holding either is not representable; the model
      never reads a document's contents. The order of the keys of a
      string-keyed array is not modelled. */
  datatype Value =
    | Bool(b: bool)
    | Int(n: int)
    | Str(s: string)
    | List(items: seq<Value>)
    | Dict(entries: map<string, Value>)

  /** `array_merge_recursive` as the adapter uses it: on two string-keyed
      arrays with no key in common it is their union. */
  function Merge(a: map<string, Value>, b: map<string, Value>): (r: map<string, Value>)
    requires a.Keys !! b.Keys
    ensures r.Keys == a.Keys + b.Keys
    ensures forall k :: k in a ==> r[k] == a[k]
    ensures forall k :: k in b ==> r[k] == b[k]
  {
    a + b
  }

  /** The value reached by following a path of keys through nested
      string-keyed arrays (`$a['body']['query']`), if every step exists. */
  function Lookup(v: Value, path: seq<string>): Option<Value>
    decreases |path|
  {
    if path == [] then Some(v)
    else match v
      case Dict(m) => if path[0] in m then Lookup(m[path[0]], path[1..]) else None
      case _ => None
  }

  /** One step of a lookup: into the entry named by the path's first key. */
  lemma LookupStep(m: map<string, Value>, path: seq<string>)
    requires path != [] && path[0] in m
    ensures Lookup(Dict(m), path) == Lookup(m[path[0]], path[1..])
  {
  }

  /** A list of strings as a PHP list. */
  function Strings(xs: seq<string>): (r: seq<Value>)
    ensures |r| == |xs|
    ensures forall i :: 0 <= i < |xs| ==> r[i] == Str(xs[i])
  {
    if xs == [] then [] else [Str(xs[0])] + Strings(xs[1..])
  }

  /** The strings of a PHP list, in order; other entries are skipped. */
  function StringsOf(items: seq<Value>): seq<string>
  {
    if items == [] then []
    else (if items[0].Str? then [items[0].s] else []) + StringsOf(items[1..])
  }

  lemma {:induction false} StringsRoundTrip(xs: seq<string>)
    ensures StringsOf(Strings(xs)) == xs
  {
    if xs != [] {
      assert Strings(xs)[1..] == Strings(xs[1..]);
      StringsRoundTrip(xs[1..]);
    }
  }
}
