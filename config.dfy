/** The decoded configuration document and the outcomes of reading it. */
module ConfigDocs {
  import opened Wrappers

  /** A decoded JSON value; an object keeps its members in document order. */
  datatype Json =
    | JNull
    | JBool(b: bool)
    | JNumber(n: int)
    | JString(s: string)
    | JArray(elements: seq<Json>)
    | JObject(members: seq<(string, Json)>)

  /** Python truthiness of the decoded value: `None`, `False`, `0` and empty ones are false. */
  predicate Truthy(j: Json) {
    match j
    case JNull => false
    case JBool(b) => b
    case JNumber(n) => n != 0
    case JString(s) => s != ""
    case JArray(e) => e != []
    case JObject(m) => m != []
  }

  /** `d.get(key)` on the decoded object: the last member with that name wins. */
  function Lookup(members: seq<(string, Json)>, key: string): (r: Option<Json>)
    ensures r.Some? <==> exists i :: 0 <= i < |members| && members[i].0 == key
    ensures r.Some? ==> exists i ::
      0 <= i < |members| && members[i] == (key, r.value) && forall j :: i < j < |members| ==> members[j].0 != key
  {
    if |members| == 0 then None
    else if members[|members| - 1].0 == key then Some(members[|members| - 1].1)
    else
      var r := Lookup(members[..|members| - 1], key);
      assert forall i :: 0 <= i < |members| - 1 ==> members[..|members| - 1][i] == members[i];
      r
  }

  /** `k` is the name of one of the members. */
  predicate Named(members: seq<(string, Json)>, k: string) {
    exists p :: 0 <= p < |members| && members[p].0 == k
  }

  /** Name `k` first appears before name `k'` does (`k'` not at all up to there). */
  predicate FirstBefore(members: seq<(string, Json)>, k: string, k': string) {
    exists p :: 0 <= p < |members| && members[p].0 == k && forall q :: 0 <= q <= p ==> members[q].0 != k'
  }

  /** `list(d.keys())`: every member name once, in order of first appearance. */
  function Keys(members: seq<(string, Json)>): (r: seq<string>)
    ensures forall k :: k in r <==> Named(members, k)
    ensures forall i, j :: 0 <= i < j < |r| ==> r[i] != r[j]
    ensures forall i, j :: 0 <= i < j < |r| ==> FirstBefore(members, r[i], r[j])
  {
    if |members| == 0 then []
    else
      var front := members[..|members| - 1];
      var init := Keys(front);
      assert forall i :: 0 <= i < |members| - 1 ==> front[i] == members[i];
      var last := members[|members| - 1].0;
      assert forall k :: Named(front, k) ==> Named(members, k);
      assert forall k, k' :: FirstBefore(front, k, k') ==> FirstBefore(members, k, k');
      if last in init then init
      else
        var r := init + [last];
        assert forall i :: 0 <= i < |init| ==> FirstBefore(members, init[i], last) by {
          forall i | 0 <= i < |init|
            ensures FirstBefore(members, init[i], last)
          {
            assert Named(front, init[i]);
            var p :| 0 <= p < |front| && front[p].0 == init[i];
            assert !Named(front, last);
            assert forall q :: 0 <= q <= p ==> members[q].0 != last;
          }
        }
        r
  }

  /**
   * What reading the configuration file gave: no file, text that is not JSON, or a
   * decoded top-level object.
   */
  datatype ConfigRead =
    | FileMissing
    | MalformedJson(detail: string)
    | Parsed(document: seq<(string, Json)>)

  /** `'reviews' in config and config['reviews']`: the required section is there and non-empty. */
  predicate HasReviews(document: seq<(string, Json)>)
    ensures HasReviews(document) <==> exists i ::
      && 0 <= i < |document| && document[i].0 == "reviews" && Truthy(document[i].1)
      && forall j :: i < j < |document| ==> document[j].0 != "reviews"
  {
    var reviews := Lookup(document, "reviews");
    reviews.Some? && Truthy(reviews.value)
  }
}
