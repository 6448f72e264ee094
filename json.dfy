/** A decoded JSON document, with the indexing rules of serde_json's `Value`. */
module Json {
  import opened Wrappers

  /** One node of a decoded document. Numbers are kept exact. */
  datatype Value =
    | Null
    | Bool(b: bool)
    | Number(n: real)
    | Str(s: string)
    | Array(items: seq<Value>)
    | Object(fields: map<string, Value>)

  /** `v[key]`: a missing key, or indexing anything that is not an object, yields `Null`. */
  function Index(v: Value, key: string): Value {
    if v.Object? && key in v.fields then v.fields[key] else Null
  }

  /** `v[path[0]][path[1]]...`, the chained indexing the extraction code writes out. */
  function Lookup(v: Value, path: seq<string>): Value
    decreases |path|
  {
    if |path| == 0 then v else Lookup(Index(v, path[0]), path[1..])
  }

  /** `v.as_str()`: the text of a string node, and nothing for every other kind of node. */
  function AsStr(v: Value): Option<string> {
    if v.Str? then Some(v.s) else None
  }

  /** Indexing `Null` any number of times stays `Null`: an absent parent hides all its children. */
  lemma {:induction false} LookupNull(path: seq<string>)
    ensures Lookup(Null, path) == Null
  {
    if |path| > 0 {
      LookupNull(path[1..]);
    }
  }

  /** Chained indexing composes: looking up `p + q` is looking up `q` below the node at `p`. */
  lemma {:induction false} LookupAppend(v: Value, p: seq<string>, q: seq<string>)
    ensures Lookup(v, p + q) == Lookup(Lookup(v, p), q)
    decreases |p|
  {
    if |p| == 0 {
      assert p + q == q;
    } else {
      assert (p + q)[0] == p[0];
      assert (p + q)[1..] == p[1..] + q;
      LookupAppend(Index(v, p[0]), p[1..], q);
    }
  }

  /**
   * A non-null node found along a non-empty path was reached through an object
   * that really holds the first key: nothing is found by defaulting.
   */
  lemma {:induction false} LookupFound(v: Value, path: seq<string>)
    requires |path| > 0 && Lookup(v, path) != Null
    ensures v.Object? && path[0] in v.fields
    ensures Lookup(v.fields[path[0]], path[1..]) == Lookup(v, path)
  {
    if !(v.Object? && path[0] in v.fields) {
      LookupNull(path[1..]);
    }
  }
}
