/** The values `json.loads` can hand back, and the few Python operations the
    evaluator applies to them: `len`, iteration, subscripting by key, and
    `str()` inside an f-string. Decoding itself is not modelled here. */
module Json {
  import opened Fallible
  import opened Text

  /** A decoded JSON value. An object keeps its members in document order,
      as the Python `dict` built by `json.loads` does. */
  datatype Json =
    | JNull
    | JBool(b: bool)
    | JNumber(n: int)
    | JString(s: string)
    | JArray(elems: seq<Json>)
    | JObject(fields: seq<(string, Json)>)

  /** A Python `dict` never holds a key twice. */
  predicate DistinctKeys(fields: seq<(string, Json)>) {
    forall i, j :: 0 <= i < j < |fields| ==> fields[i].0 != fields[j].0
  }

  /** Python's `len(v)` is defined: strings, lists and dicts have a length,
      `None`, booleans and numbers raise `TypeError`. */
  predicate Sized(v: Json) {
    v.JString? || v.JArray? || v.JObject?
  }

  /** Python's `len(v)`. */
  function Len(v: Json): nat
    requires Sized(v)
  {
    match v
    case JString(s) => |s|
    case JArray(elems) => |elems|
    case JObject(fields) => |fields|
  }

  /** The values Python's `for x in v` visits: the elements of a list, every
      character of a string as a one-character string, the keys of a dict. */
  function Iterate(v: Json): (r: seq<Json>)
    requires Sized(v)
    ensures |r| == Len(v)
    ensures v.JArray? ==> r == v.elems
    ensures v.JString? ==> forall k :: 0 <= k < |r| ==> r[k] == JString([v.s[k]])
    ensures v.JObject? ==> forall k :: 0 <= k < |r| ==> r[k] == JString(v.fields[k].0)
  {
    match v
    case JString(s) => seq(|s|, k requires 0 <= k < |s| => JString([s[k]]))
    case JArray(elems) => elems
    case JObject(fields) => seq(|fields|, k requires 0 <= k < |fields| => JString(fields[k].0))
  }

  /** Python's `d[key]` on a dict: the value stored under `key`, or `None`
      where Python raises `KeyError`. Among repeated keys the first wins, which
      never matters for a real dict (`DistinctKeys`). `GetSpec` states it. */
  function Get(fields: seq<(string, Json)>, key: string): (r: Option<Json>)
    decreases |fields|
  {
    if |fields| == 0 then None
    else if fields[0].0 == key then Some(fields[0].1)
    else
      Get(fields[1..], key)
  }

  /** `Get` agrees with a dict lookup: it finds nothing exactly when no entry
      has the key, and what it finds is stored under the key, in the first
      entry that has it. */
  lemma {:induction false} GetSpec(fields: seq<(string, Json)>, key: string)
    ensures Get(fields, key).None? <==> forall i :: 0 <= i < |fields| ==> fields[i].0 != key
    ensures Get(fields, key).Some? ==>
              exists i :: 0 <= i < |fields| && fields[i] == (key, Get(fields, key).value) &&
                forall k :: 0 <= k < i ==> fields[k].0 != key
    decreases |fields|
  {
    if |fields| > 0 && fields[0].0 != key {
      GetSpec(fields[1..], key);
      assert forall i :: 1 <= i < |fields| ==> fields[1..][i - 1] == fields[i];
      if Get(fields, key).Some? {
        var i :| 0 <= i < |fields[1..]| && fields[1..][i] == (key, Get(fields, key).value) &&
                 forall k :: 0 <= k < i ==> fields[1..][k].0 != key;
        assert fields[i + 1] == (key, Get(fields, key).value);
      }
    }
  }

  /** The texts of the strings `for x in v` visits. */
  function Texts(vs: seq<Json>): seq<string>
    requires forall k :: 0 <= k < |vs| ==> vs[k].JString?
  {
    seq(|vs|, k requires 0 <= k < |vs| => vs[k].s)
  }

  /** Joined back together, the one-character strings a string's characters
      form give the string. */
  lemma {:induction false} JoinSingles(s: string)
    ensures Join(seq(|s|, k requires 0 <= k < |s| => [s[k]]), "") == s
    decreases |s|
  {
    var parts := seq(|s|, k requires 0 <= k < |s| => [s[k]]);
    if |s| == 1 {
      assert parts[0] == s;
    } else if |s| > 1 {
      var n := |s| - 1;
      JoinSingles(s[..n]);
      assert parts[..n] == seq(n, k requires 0 <= k < n => [s[..n][k]]);
      assert s == s[..n] + parts[n];
    }
  }

  /** Iterating over a string loses nothing: the characters it visits, joined
      with no separator, are the string again. */
  lemma IterateStringRoundTrip(s: string)
    ensures forall k :: 0 <= k < |Iterate(JString(s))| ==> Iterate(JString(s))[k].JString?
    ensures Join(Texts(Iterate(JString(s))), "") == s
  {
    var r := Iterate(JString(s));
    assert Texts(r) == seq(|s|, k requires 0 <= k < |s| => [s[k]]);
    JoinSingles(s);
  }

  /** Iterating over a dict visits exactly its keys: every value visited is a
      key that `d[key]` finds, and every key `d[key]` finds is visited. */
  lemma IterateDictVisitsKeys(fields: seq<(string, Json)>)
    ensures forall k :: 0 <= k < |Iterate(JObject(fields))| ==>
              Iterate(JObject(fields))[k].JString? && Get(fields, Iterate(JObject(fields))[k].s).Some?
    ensures forall key :: Get(fields, key).Some? ==> JString(key) in Iterate(JObject(fields))
  {
    var r := Iterate(JObject(fields));
    forall k | 0 <= k < |r|
      ensures Get(fields, r[k].s).Some?
    {
      GetSpec(fields, r[k].s);
      assert fields[k].0 == r[k].s;
    }
    forall key | Get(fields, key).Some?
      ensures JString(key) in r
    {
      GetSpec(fields, key);
      var i :| 0 <= i < |fields| && fields[i] == (key, Get(fields, key).value) &&
               forall k :: 0 <= k < i ==> fields[k].0 != key;
      assert r[i] == JString(key);
    }
  }

  /** Python's `str(v)` as an f-string applies it: a string is itself; any
      other value goes through `show`, Python's own rendering, which the model
      takes as given. */
  function Str(v: Json, show: Json -> string): string {
    if v.JString? then v.s else show(v)
  }
}
