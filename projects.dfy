/**
 * Projects as the Things database hands them over, the per-project view the ranker
 * builds, the stored review timestamps it consults, and the sort key it orders by.
 */
module Projects {
  import opened Wrappers
  import opened IsoTime

  /** One item of an area: its `title`, `uuid` and the raw `deadline` text, if any. */
  datatype RawProject = RawProject(title: string, uuid: string, deadline: Option<string>)

  /** An area; `items` is `None` when the area record has no `items` key. */
  datatype Area = Area(items: Option<seq<RawProject>>)

  /** `ProjectInfo`: a project with its resolved deadline and last review. */
  datatype ProjectInfo = ProjectInfo(
    title: string, uuid: string,
    deadline: Option<DateTime>, lastReviewed: Option<DateTime>)
  {
    /** The `{title, uuid}` pair the dictionary-based ranker returns. */
    function Ref(): ProjectRef { ProjectRef(title, uuid) }
  }

  datatype ProjectRef = ProjectRef(title: string, uuid: string)

  /**
   * `get_last_reviewed`: the stored timestamp of `uuid`, or `None` when there is no
   * entry, the entry is the empty string, or it does not parse.
   */
  function LastReviewedIn(state: map<string, string>, uuid: string): (r: Option<DateTime>)
    ensures r.Some? ==> uuid in state && ParseIso(state[uuid]) == r
  {
    if uuid !in state || state[uuid] == "" then None else ParseIso(state[uuid])
  }

  /** After storing `isoformat()` of `t` under `uuid`, the lookup gives back `t`. */
  lemma MarkThenLookup(state: map<string, string>, uuid: string, t: DateTime)
    ensures LastReviewedIn(state[uuid := FormatIso(t)], uuid) == Some(t)
  {
    ParseFormatRoundTrip(t);
  }

  /** Writing or removing one entry leaves every other project's lookup as it was. */
  lemma UpdateKeepsOthers(state: map<string, string>, uuid: string, text: string, other: string)
    requires other != uuid
    ensures LastReviewedIn(state[uuid := text], other) == LastReviewedIn(state, other)
    ensures LastReviewedIn(state - {uuid}, other) == LastReviewedIn(state, other)
  {
  }

  /** Removing the entry makes the project "never reviewed"; removing it again changes nothing. */
  lemma UnmarkThenLookup(state: map<string, string>, uuid: string)
    ensures LastReviewedIn(state - {uuid}, uuid) == None
    ensures (state - {uuid}) - {uuid} == state - {uuid}
    ensures uuid !in state ==> state - {uuid} == state
  {
  }

  /**
   * The deadline of an item: parsed when present and non-empty, `None` when it is
   * missing, empty or unparsable (the `ValueError` is swallowed).
   */
  function ResolveDeadline(raw: Option<string>): (r: Option<DateTime>)
    ensures r.Some? ==> raw.Some? && ParseIso(raw.value) == r
  {
    if raw.Some? && raw.value != "" then ParseIso(raw.value) else None
  }

  /**
   * The dictionary-based ranker tests `deadline is not None` instead of truthiness;
   * since the empty string never parses, both resolve every deadline alike.
   */
  lemma ResolveDeadlineIsNotNoneForm(raw: Option<string>)
    ensures ResolveDeadline(raw) == (if raw.Some? then ParseIso(raw.value) else None)
  {
  }

  /** A deadline written by `isoformat()` is resolved to the date-time written. */
  lemma ResolveFormattedDeadline(t: DateTime)
    ensures ResolveDeadline(Some(FormatIso(t))) == Some(t)
  {
    ParseFormatRoundTrip(t);
  }

  function ResolveProject(item: RawProject, state: map<string, string>): ProjectInfo {
    ProjectInfo(item.title, item.uuid, ResolveDeadline(item.deadline), LastReviewedIn(state, item.uuid))
  }

  /** `area.get('items', [])`. */
  function ItemsOf(area: Area): seq<RawProject> {
    area.items.GetOr([])
  }

  /** Every item of every area, area by area and, within an area, in item order. */
  function Flatten(areas: seq<Area>): seq<RawProject> {
    if |areas| == 0 then [] else Flatten(areas[..|areas| - 1]) + ItemsOf(areas[|areas| - 1])
  }

  function ResolveItems(items: seq<RawProject>, state: map<string, string>): seq<ProjectInfo> {
    if |items| == 0 then []
    else ResolveItems(items[..|items| - 1], state) + [ResolveProject(items[|items| - 1], state)]
  }

  /** One `ProjectInfo` per item, in item order, carrying that item's fields. */
  lemma {:induction false} ResolveItemsAt(items: seq<RawProject>, state: map<string, string>)
    ensures |ResolveItems(items, state)| == |items|
    ensures forall k :: 0 <= k < |items| ==> ResolveItems(items, state)[k] == ResolveProject(items[k], state)
  {
    if |items| > 0 {
      ResolveItemsAt(items[..|items| - 1], state);
    }
  }

  /** The unsorted list `all_projects` the ranker builds before sorting. */
  function ResolveAll(areas: seq<Area>, state: map<string, string>): seq<ProjectInfo> {
    ResolveItems(Flatten(areas), state)
  }

  /** Builds `all_projects` with the two nested loops of the ranker. */
  method CollectProjects(areas: seq<Area>, state: map<string, string>) returns (all: seq<ProjectInfo>)
    ensures all == ResolveAll(areas, state)
  {
    all := [];
    for i := 0 to |areas|
      invariant all == ResolveItems(Flatten(areas[..i]), state)
    {
      var items := ItemsOf(areas[i]);
      assert Flatten(areas[..i]) + items[..0] == Flatten(areas[..i]);
      for j := 0 to |items|
        invariant all == ResolveItems(Flatten(areas[..i]) + items[..j], state)
      {
        ghost var done := Flatten(areas[..i]) + items[..j];
        assert (done + [items[j]])[..|done|] == done;
        assert Flatten(areas[..i]) + items[..j + 1] == done + [items[j]];
        all := all + [ResolveProject(items[j], state)];
      }
      assert areas[..i + 1][..i] == areas[..i];
      assert items[..|items|] == items;
    }
    assert areas[..|areas|] == areas;
  }

  /**
   * The sort key `(last_reviewed or datetime.min, deadline or datetime.max)`.
   * A project never reviewed, or whose timestamp is unreadable, ranks as reviewed at
   * `datetime.min`; one without a usable deadline ranks as due at `datetime.max`.
   */
  datatype SortKey = SortKey(reviewed: DateTime, due: DateTime)

  function KeyOf(p: ProjectInfo): SortKey {
    SortKey(p.lastReviewed.GetOr(MinDateTime), p.deadline.GetOr(MaxDateTime))
  }

  /**
   * The key carries the stored review time and deadline where there are ones; a missing
   * review time sorts at or before every project's, a missing deadline at or after
   * every project's.
   */
  lemma KeyOfDefaults(p: ProjectInfo)
    ensures p.lastReviewed.Some? ==> KeyOf(p).reviewed == p.lastReviewed.value
    ensures p.deadline.Some? ==> KeyOf(p).due == p.deadline.value
    ensures p.lastReviewed.None? ==> forall q: ProjectInfo :: AtOrBefore(KeyOf(p).reviewed, KeyOf(q).reviewed)
    ensures p.deadline.None? ==> forall q: ProjectInfo :: AtOrBefore(KeyOf(q).due, KeyOf(p).due)
  {
    forall q: ProjectInfo
      ensures AtOrBefore(MinDateTime, KeyOf(q).reviewed) && AtOrBefore(KeyOf(q).due, MaxDateTime)
    {
      MinMaxBound(KeyOf(q).reviewed);
      MinMaxBound(KeyOf(q).due);
    }
  }

  /** Python's `<=` on the key tuples: by review time, then by deadline. */
  predicate KeyLe(a: SortKey, b: SortKey) {
    Before(a.reviewed, b.reviewed) || (a.reviewed == b.reviewed && AtOrBefore(a.due, b.due))
  }

  /** `<=` on keys is a total order: reflexive, total and antisymmetric ... */
  lemma KeyLeTotal(a: SortKey, b: SortKey)
    ensures KeyLe(a, a)
    ensures KeyLe(a, b) || KeyLe(b, a)
    ensures KeyLe(a, b) && KeyLe(b, a) ==> a == b
  {
    BeforeIsStrictTotalOrder();
  }

  /** ... and transitive. */
  lemma KeyLeTransitive(a: SortKey, b: SortKey, c: SortKey)
    requires KeyLe(a, b) && KeyLe(b, c)
    ensures KeyLe(a, c)
  {
    BeforeIsStrictTotalOrder();
  }
}
