/** Phase 1 after the dispatcher has replied: decoding its raw text into the
    category -> items mapping, failing soft on malformed JSON. */
module Dispatch {
  import opened Fallible
  import opened Json

  /** One entry of the decoded mapping: a category and the values Python's
      `for item in items` would visit under it. */
  datatype Group = Group(category: string, items: seq<Json>)

  /** The exceptions the fan-out step can raise; none of them is caught. */
  datatype Error =
    | NotAMapping             // `.items()` on a decoded value that is not a dict (AttributeError)
    | Unsized(category: string)         // `len(items)` on a number, boolean or null (TypeError)
    | ItemNotMapping(category: string)  // `item['topic']` on an item that is not a dict (TypeError)
    | MissingKey(key: string)           // `item['topic']` or `item['criteria']` absent (KeyError)

  /** The decoded object's entries turned into groups, in order, as the
      logging loop walks them; that loop calls `len` on every value, so the
      first value without a length raises. */
  function GroupsOf(fields: seq<(string, Json)>): (r: Result<seq<Group>, Error>)
    ensures r.Success? <==> forall i :: 0 <= i < |fields| ==> Sized(fields[i].1)
    ensures r.Success? ==> |r.value| == |fields|
    ensures r.Success? ==> forall i :: 0 <= i < |fields| ==>
              Sized(fields[i].1) && r.value[i] == Group(fields[i].0, Iterate(fields[i].1))
    ensures r.Failure? ==>
              (exists i :: 0 <= i < |fields| && !Sized(fields[i].1) && r.error == Unsized(fields[i].0) &&
                 forall k :: 0 <= k < i ==> Sized(fields[k].1))
    decreases |fields|
  {
    if |fields| == 0 then Success([])
    else if !Sized(fields[0].1) then Failure(Unsized(fields[0].0))
    else
      match GroupsOf(fields[1..])
      case Failure(e) => Failure(e)
      case Success(rest) => Success([Group(fields[0].0, Iterate(fields[0].1))] + rest)
  }

  /** Lines 76-83: decode the dispatcher's reply. A reply `loads` rejects
      (a `JSONDecodeError`) leaves the mapping empty; any other failure
      inside the `try` is not caught and propagates. */
  function Decode(raw: string, loads: string -> Option<Json>): (r: Result<seq<Group>, Error>)
    ensures loads(raw).None? ==> r == Success([])
    ensures r.Failure? <==>
              (loads(raw).Some? && !(loads(raw).value.JObject? && forall i :: 0 <= i < |loads(raw).value.fields| ==> Sized(loads(raw).value.fields[i].1)))
    ensures loads(raw).Some? && !loads(raw).value.JObject? ==> r == Failure(NotAMapping)
    ensures loads(raw).Some? && loads(raw).value.JObject? ==> r == GroupsOf(loads(raw).value.fields)
    ensures r.Success? && loads(raw).Some? ==>
              |r.value| == |loads(raw).value.fields| &&
              forall i :: 0 <= i < |r.value| ==>
                Sized(loads(raw).value.fields[i].1) &&
                r.value[i] == Group(loads(raw).value.fields[i].0, Iterate(loads(raw).value.fields[i].1))
  {
    match loads(raw)
    case None => Success([])
    case Some(v) =>
      if v.JObject? then GroupsOf(v.fields) else Failure(NotAMapping)
  }

  /** No category is listed twice. */
  predicate DistinctCategories(groups: seq<Group>) {
    forall i, j :: 0 <= i < j < |groups| ==> groups[i].category != groups[j].category
  }

  /** A decoded dict has distinct keys, so the groups have distinct
      categories: one group per key. */
  lemma DecodeKeepsKeysDistinct(raw: string, loads: string -> Option<Json>)
    requires Decode(raw, loads).Success?
    requires loads(raw).Some? && loads(raw).value.JObject? ==> DistinctKeys(loads(raw).value.fields)
    ensures DistinctCategories(Decode(raw, loads).value)
  {
  }
}
