/**
 * The ranker as a whole: resolve every item, sort stably by
 * (last review or `datetime.min`, deadline or `datetime.max`), keep a prefix.
 */
module Ranking {
  import opened Wrappers
  import opened IsoTime
  import opened Projects
  import opened Sorting

  /**
   * How many of `n` sorted projects `all_projects[:limit]` keeps when `limit` is
   * truthy, and all of them otherwise (`None` or `0`). A negative limit counts from
   * the end, as a Python slice does.
   */
  function PrefixLength(n: nat, limit: Option<int>): (k: nat)
    ensures k <= n
    ensures limit.Some? && limit.value > 0 ==> k == (if limit.value < n then limit.value else n)
    ensures limit.None? || limit.value == 0 ==> k == n
    ensures limit.Some? && limit.value < 0 ==> k == (if n + limit.value > 0 then n + limit.value else 0)
  {
    if limit.None? || limit.value == 0 then n
    else if limit.value > 0 then (if limit.value < n then limit.value else n)
    else if n + limit.value > 0 then n + limit.value
    else 0
  }

  /** The ranked (and possibly truncated) projects of `areas` given the review state. */
  function Ranked(areas: seq<Area>, state: map<string, string>, limit: Option<int>): seq<ProjectInfo> {
    var sorted := SortByKey(ResolveAll(areas, state));
    sorted[..PrefixLength(|sorted|, limit)]
  }

  /**
   * Without a limit the ranker yields one `ProjectInfo` per item of every area: the
   * result is a permutation of the item-by-item resolution, which carries each
   * item's title and uuid, its stored review time and its resolved deadline.
   */
  lemma RankedIsPermutationOfItems(areas: seq<Area>, state: map<string, string>)
    ensures |Ranked(areas, state, None)| == |ResolveAll(areas, state)| == |Flatten(areas)|
    ensures multiset(Ranked(areas, state, None)) == multiset(ResolveAll(areas, state))
    ensures forall k :: 0 <= k < |Flatten(areas)| ==>
      ResolveAll(areas, state)[k] == ResolveProject(Flatten(areas)[k], state)
  {
    ResolveItemsAt(Flatten(areas), state);
    UnlimitedIsSorted(areas, state);
  }

  /** Without a limit the ranking is the whole sorted sequence. */
  lemma UnlimitedIsSorted(areas: seq<Area>, state: map<string, string>)
    ensures Ranked(areas, state, None) == SortByKey(ResolveAll(areas, state))
    ensures |SortByKey(ResolveAll(areas, state))| == |ResolveAll(areas, state)|
    ensures multiset(SortByKey(ResolveAll(areas, state))) == multiset(ResolveAll(areas, state))
  {
    var sorted := SortByKey(ResolveAll(areas, state));
    assert sorted[..|sorted|] == sorted;
    SortByKeyProperties(ResolveAll(areas, state));
  }

  /**
   * Without a limit the result is sorted by key, and stable: the projects sharing a
   * key appear in the area-then-item order of the input.
   */
  lemma RankedIsSortedAndStable(areas: seq<Area>, state: map<string, string>)
    ensures Sorted(Ranked(areas, state, None))
    ensures forall k :: WithKey(Ranked(areas, state, None), k) == WithKey(ResolveAll(areas, state), k)
  {
    UnlimitedIsSorted(areas, state);
    SortByKeyProperties(ResolveAll(areas, state));
  }

  /**
   * What the order means for the reader: older reviews first; projects never reviewed
   * (or with an unreadable timestamp) ahead of every project with a later review;
   * among equal review times earlier deadlines first and projects without a deadline
   * after every project with an earlier one.
   */
  lemma RankedOrder(areas: seq<Area>, state: map<string, string>, i: int, j: int)
    requires 0 <= i < j < |Ranked(areas, state, None)|
    ensures var r := Ranked(areas, state, None);
      && AtOrBefore(KeyOf(r[i]).reviewed, KeyOf(r[j]).reviewed)
      && (r[j].lastReviewed.None? ==> KeyOf(r[i]).reviewed == MinDateTime)
      && (KeyOf(r[i]).reviewed == KeyOf(r[j]).reviewed ==> AtOrBefore(KeyOf(r[i]).due, KeyOf(r[j]).due))
      && (KeyOf(r[i]).reviewed == KeyOf(r[j]).reviewed && r[i].deadline.None? ==> KeyOf(r[j]).due == MaxDateTime)
  {
    var r := Ranked(areas, state, None);
    RankedIsSortedAndStable(areas, state);
    assert KeyLe(KeyOf(r[i]), KeyOf(r[j]));
    BeforeIsStrictTotalOrder();
    MinMaxBound(KeyOf(r[i]).reviewed);
    MinMaxBound(KeyOf(r[j]).due);
  }

  /**
   * A limit only ever takes a prefix of the unlimited ranking: the first
   * `min(limit, n)` projects for a positive limit, all of them for `None` or `0`.
   */
  lemma RankedLimitIsPrefix(areas: seq<Area>, state: map<string, string>, limit: Option<int>)
    ensures var full := Ranked(areas, state, None);
      Ranked(areas, state, limit) == full[..|Ranked(areas, state, limit)|]
    ensures limit.Some? && limit.value > 0 ==>
      |Ranked(areas, state, limit)| == (if limit.value < |Flatten(areas)| then limit.value else |Flatten(areas)|)
    ensures limit.None? || limit.value == 0 ==> Ranked(areas, state, limit) == Ranked(areas, state, None)
  {
    RankedIsPermutationOfItems(areas, state);
    UnlimitedIsSorted(areas, state);
  }
}
