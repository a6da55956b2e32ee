/**
 * The per-project triage of the guided review's "review project lists" step: for each
 * configured area, fetch and rank its projects with the review state as it is at that
 * moment, then ask once per project for `d` (mark reviewed), `s` (skip), `q` (quit)
 * or anything else (move on), until the projects, the areas or the answers run out.
 */
module ProjectTriage {
  import opened Wrappers
  import opened Text
  import opened IsoTime
  import opened Projects
  import opened Ranking
  import opened Sorting

  /** A reply typed at the project prompt, with the clock reading when it was given. */
  datatype Answer = Answer(text: string, at: DateTime)

  datatype Action = Done | Skip | Next | Quit

  /**
   * The dispatch on `action = input(...).lower()`: only a one-character reply can
   * equal `"q"`, `"d"` or `"s"` once lower-cased, so the dispatch looks at that one
   * character in either case (`LowerDispatch` below states the equivalence with the
   * lower-cased form).
   */
  function Classify(text: string): Action {
    if |text| != 1 then Next
    else
      var c := text[0];
      if c == 'q' || c == 'Q' then Quit
      else if c == 'd' || c == 'D' then Done
      else if c == 's' || c == 'S' then Skip
      else Next
  }

  /** `Classify` is the `if action == "q" / elif action == "d" / elif action == "s"` chain on `Lower(text)`. */
  lemma LowerDispatch(text: string)
    ensures Classify(text) ==
      var action := Lower(text);
      if action == "q" then Quit
      else if action == "d" then Done
      else if action == "s" then Skip
      else Next
  {
    if |text| == 1 {
      assert Lower(text) == [LowerChar(text[0])];
    } else {
      assert |Lower(text)| != 1;
    }
  }

  /** The dispatch accepts each command letter in either case and nothing else. */
  lemma ClassifyLetters(text: string)
    ensures Classify(text) == Quit <==> text == "q" || text == "Q"
    ensures Classify(text) == Done <==> text == "d" || text == "D"
    ensures Classify(text) == Skip <==> text == "s" || text == "S"
  {
    LowerDispatch(text);
    LowerIsLetter(text, 'q');
    LowerIsLetter(text, 'd');
    LowerIsLetter(text, 's');
  }

  /** What fetching the projects of one configured area gave. */
  datatype Fetch = Fetched(areas: seq<Area>) | FetchFailed(reason: string)

  /** Why the step ended: all areas done, `q` typed, or no answer left to read. */
  datatype Stop = Finished | QuitRequested | OutOfInput

  /**
   * The review state, the two counters of the step summary (`total_projects`,
   * `reviewed_projects`) and how many answers have been read.
   */
  datatype Session = Session(state: map<string, string>, total: nat, reviewed: nat, used: nat)

  datatype Outcome = Outcome(session: Session, stop: Stop)

  /** How the step ranks the projects of an area against the review state as it is at that moment. */
  type Ranker = (seq<Area>, map<string, string>) -> seq<ProjectInfo>

  /** How the step writes a review time into the state. */
  type Stamper = DateTime -> string

  /** The ranking the tool uses: `process_projects` with no limit. */
  function RankAll(areas: seq<Area>, state: map<string, string>): seq<ProjectInfo> {
    Ranked(areas, state, None)
  }

  /**
   * The session after a reply other than `q` to the prompt for project `uuid`: `d`
   * writes `stamp` of the reply's time under `uuid` and counts the project; any other
   * reply changes nothing. Either way one more answer has been read.
   */
  function Respond(s: Session, uuid: string, answer: Answer, stamp: Stamper): Session {
    if Classify(answer.text) == Done
    then Session(s.state[uuid := stamp(answer.at)], s.total, s.reviewed + 1, s.used + 1)
    else s.(used := s.used + 1)
  }

  /**
   * The prompts for projects `j..` of one area, reading `answers` from `s.used` on:
   * `q` ends the step, any other reply is answered by `Respond` and the next project
   * is asked about; running out of answers ends it too.
   */
  function RunArea(s: Session, projects: seq<ProjectInfo>, j: nat, answers: seq<Answer>, stamp: Stamper): (o: Outcome)
    requires s.used <= |answers| && j <= |projects|
    ensures s.used <= o.session.used <= |answers|
    ensures o.session.used - s.used <= |projects| - j
    decreases |projects| - j
  {
    if j == |projects| then Outcome(s, Finished)
    else if s.used == |answers| then Outcome(s, OutOfInput)
    else if Classify(answers[s.used].text) == Quit then Outcome(s.(used := s.used + 1), QuitRequested)
    else RunArea(Respond(s, projects[j].uuid, answers[s.used], stamp), projects, j + 1, answers, stamp)
  }

  /**
   * One configured area of the step: an area whose fetch failed is passed over; the
   * others are ranked with the state as it is now, counted into the total, and triaged.
   */
  function ReviewFetch(s: Session, fetch: Fetch, answers: seq<Answer>, rank: Ranker, stamp: Stamper): (o: Outcome)
    requires s.used <= |answers|
    ensures s.used <= o.session.used <= |answers|
  {
    match fetch
    case FetchFailed(_) => Outcome(s, Finished)
    case Fetched(areas) =>
      var projects := rank(areas, s.state);
      RunArea(s.(total := s.total + |projects|), projects, 0, answers, stamp)
  }

  /**
   * The step over configured areas `i..`: each area in turn, carrying on with the next
   * only if that one finished. The tool's own step is
   * `Triage(s, fetches, 0, answers, RankAll, FormatIso)`.
   */
  function Triage(s: Session, fetches: seq<Fetch>, i: nat, answers: seq<Answer>, rank: Ranker, stamp: Stamper): (o: Outcome)
    requires s.used <= |answers| && i <= |fetches|
    ensures s.used <= o.session.used <= |answers|
    decreases |fetches| - i
  {
    if i == |fetches| then Outcome(s, Finished)
    else
      var o := ReviewFetch(s, fetches[i], answers, rank, stamp);
      if o.stop == Finished then Triage(o.session, fetches, i + 1, answers, rank, stamp) else o
  }

  /** How many of `answers[from..to]` are `d`. */
  function CountDone(answers: seq<Answer>, from: nat, to: nat): nat
    requires from <= to <= |answers|
    decreases |answers| - from
  {
    if from == to then 0
    else (if Classify(answers[from].text) == Done then 1 else 0) + CountDone(answers, from + 1, to)
  }

  lemma {:induction false} CountDoneSplit(answers: seq<Answer>, from: nat, mid: nat, to: nat)
    requires from <= mid <= to <= |answers|
    ensures CountDone(answers, from, to) == CountDone(answers, from, mid) + CountDone(answers, mid, to)
    decreases mid - from
  {
    if from < mid {
      CountDoneSplit(answers, from + 1, mid, to);
    }
  }

  /** No `d` among `answers[from..to]` means a count of zero, and conversely. */
  lemma {:induction false} CountDoneZero(answers: seq<Answer>, from: nat, to: nat)
    requires from <= to <= |answers|
    ensures CountDone(answers, from, to) == 0 <==>
              (forall i :: from <= i < to ==> Classify(answers[i].text) != Done)
    decreases |answers| - from
  {
    if from < to {
      CountDoneZero(answers, from + 1, to);
    }
  }

  /** The uuids of the items of some areas. */
  function ItemUuids(areas: seq<Area>): set<string> {
    set i | 0 <= i < |Flatten(areas)| :: Flatten(areas)[i].uuid
  }

  /** Every item uuid of the areas fetched from configured area `i` on. */
  function FetchedUuids(fetches: seq<Fetch>, i: nat): set<string>
    requires i <= |fetches|
    decreases |fetches| - i
  {
    if i == |fetches| then {}
    else
      var here := match fetches[i] case Fetched(areas) => ItemUuids(areas) case FetchFailed(_) => {};
      here + FetchedUuids(fetches, i + 1)
  }

  /** How many items the areas fetched from configured area `i` on hold altogether. */
  function ItemCount(fetches: seq<Fetch>, i: nat): nat
    requires i <= |fetches|
    decreases |fetches| - i
  {
    if i == |fetches| then 0
    else
      var here := match fetches[i] case Fetched(areas) => |Flatten(areas)| case FetchFailed(_) => 0;
      here + ItemCount(fetches, i + 1)
  }

  /** A ranking that yields one project per item of the areas, each with the uuid of an item. */
  ghost predicate KeepsItems(rank: Ranker) {
    forall areas, state :: |rank(areas, state)| == |Flatten(areas)|
      && forall m :: 0 <= m < |rank(areas, state)| ==> rank(areas, state)[m].uuid in ItemUuids(areas)
  }

  /** An element of a sequence is found again in any permutation of it. */
  lemma PermutationMember(a: seq<ProjectInfo>, b: seq<ProjectInfo>, m: nat) returns (k: nat)
    requires multiset(a) == multiset(b) && m < |a|
    ensures k < |b| && b[k] == a[m]
  {
    assert a[m] in multiset(b);
    k :| 0 <= k < |b| && b[k] == a[m];
  }

  /** The tool's ranking of one set of areas: one project per item, each with an item's uuid. */
  lemma RankAllKeepsAreas(areas: seq<Area>, state: map<string, string>)
    ensures |RankAll(areas, state)| == |Flatten(areas)|
    ensures forall m :: 0 <= m < |RankAll(areas, state)| ==> RankAll(areas, state)[m].uuid in ItemUuids(areas)
  {
    var items := Flatten(areas);
    var all := ResolveAll(areas, state);
    var ranked := Ranked(areas, state, None);
    RankedIsPermutationOfItems(areas, state);
    ResolveItemsAt(items, state);
    forall m | 0 <= m < |ranked|
      ensures ranked[m].uuid in ItemUuids(areas)
    {
      var k := PermutationMember(ranked, all, m);
      assert ranked[m].uuid == items[k].uuid;
    }
  }

  /** The tool's ranking keeps the items: it is a permutation of their resolution. */
  lemma RankAllKeepsItems()
    ensures KeepsItems(RankAll)
  {
    forall areas, state
      ensures |RankAll(areas, state)| == |Flatten(areas)|
      ensures forall m :: 0 <= m < |RankAll(areas, state)| ==> RankAll(areas, state)[m].uuid in ItemUuids(areas)
    {
      RankAllKeepsAreas(areas, state);
    }
  }

  /** `m` and `m'` agree on `k`: both lack it, or both map it to the same text. */
  predicate Same(m: map<string, string>, m': map<string, string>, k: string) {
    (k in m <==> k in m') && (k in m ==> m[k] == m'[k])
  }

  /**
   * `after` holds under `k` what the last `d` for `k` says: `stamp` of its time when
   * there was one, and otherwise what `before` held.
   */
  predicate Marked(after: map<string, string>, before: map<string, string>, last: Option<DateTime>,
                   stamp: Stamper, k: string) {
    (last.Some? ==> k in after && after[k] == stamp(last.value)) && (last.None? ==> Same(after, before, k))
  }

  /** Two runs of answers one after the other: the later `d` wins, else the earlier one's. */
  lemma MarkedChain(before: map<string, string>, mid: map<string, string>, after: map<string, string>,
                    first: Option<DateTime>, second: Option<DateTime>, stamp: Stamper, k: string)
    requires Marked(mid, before, first, stamp, k) && Marked(after, mid, second, stamp, k)
    ensures Marked(after, before, if second.Some? then second else first, stamp, k)
  {
  }

  /** The counters: one review per `d` read, and the total grows only when an area starts. */
  lemma {:induction false} RunAreaCounts(s: Session, projects: seq<ProjectInfo>, j: nat, answers: seq<Answer>,
                                         stamp: Stamper)
    requires s.used <= |answers| && j <= |projects|
    ensures var o := RunArea(s, projects, j, answers, stamp);
      && o.session.reviewed == s.reviewed + CountDone(answers, s.used, o.session.used)
      && o.session.total == s.total
      && (o.stop == OutOfInput ==> o.session.used == |answers|)
      && (o.stop == Finished ==> o.session.used == s.used + (|projects| - j))
    decreases |projects| - j
  {
    if j < |projects| && s.used < |answers| && Classify(answers[s.used].text) != Quit {
      RunAreaCounts(Respond(s, projects[j].uuid, answers[s.used], stamp), projects, j + 1, answers, stamp);
    }
  }

  /** `q` is the last answer an area reads, and the only way it stops early with answers left. */
  lemma {:induction false} RunAreaQuit(s: Session, projects: seq<ProjectInfo>, j: nat, answers: seq<Answer>,
                                       stamp: Stamper)
    requires s.used <= |answers| && j <= |projects|
    ensures var o := RunArea(s, projects, j, answers, stamp);
      && (forall i :: s.used <= i < o.session.used - 1 ==> Classify(answers[i].text) != Quit)
      && (o.stop == QuitRequested <==>
            o.session.used > s.used && Classify(answers[o.session.used - 1].text) == Quit)
    decreases |projects| - j
  {
    if j < |projects| && s.used < |answers| && Classify(answers[s.used].text) != Quit {
      RunAreaQuit(Respond(s, projects[j].uuid, answers[s.used], stamp), projects, j + 1, answers, stamp);
    }
  }

  lemma {:induction false} TriageCounts(s: Session, fetches: seq<Fetch>, i: nat, answers: seq<Answer>, rank: Ranker,
                                        stamp: Stamper)
    requires s.used <= |answers| && i <= |fetches|
    requires KeepsItems(rank)
    ensures var o := Triage(s, fetches, i, answers, rank, stamp);
      && o.session.reviewed == s.reviewed + CountDone(answers, s.used, o.session.used)
      && (o.stop == OutOfInput ==> o.session.used == |answers|)
      && (o.stop == Finished ==>
            o.session.used == s.used + ItemCount(fetches, i) && o.session.total == s.total + ItemCount(fetches, i))
    decreases |fetches| - i
  {
    if i < |fetches| {
      match fetches[i]
      case FetchFailed(_) =>
        TriageCounts(s, fetches, i + 1, answers, rank, stamp);
      case Fetched(areas) =>
        var projects := rank(areas, s.state);
        var start := s.(total := s.total + |projects|);
        var o := RunArea(start, projects, 0, answers, stamp);
        RunAreaCounts(start, projects, 0, answers, stamp);
        if o.stop == Finished {
          TriageCounts(o.session, fetches, i + 1, answers, rank, stamp);
          CountDoneSplit(answers, s.used, o.session.used,
                         Triage(o.session, fetches, i + 1, answers, rank, stamp).session.used);
        }
    }
  }

  /** Before the last answer the step read, no answer was `q`; and it stops on `q` exactly when that answer was `q`. */
  lemma {:induction false} TriageQuit(s: Session, fetches: seq<Fetch>, i: nat, answers: seq<Answer>, rank: Ranker,
                                      stamp: Stamper)
    requires s.used <= |answers| && i <= |fetches|
    ensures var o := Triage(s, fetches, i, answers, rank, stamp);
      && (forall n :: s.used <= n < o.session.used - 1 ==> Classify(answers[n].text) != Quit)
      && (o.stop == QuitRequested <==>
            o.session.used > s.used && Classify(answers[o.session.used - 1].text) == Quit)
    decreases |fetches| - i
  {
    if i < |fetches| {
      match fetches[i]
      case FetchFailed(_) =>
        TriageQuit(s, fetches, i + 1, answers, rank, stamp);
      case Fetched(areas) =>
        var projects := rank(areas, s.state);
        var start := s.(total := s.total + |projects|);
        var o := RunArea(start, projects, 0, answers, stamp);
        RunAreaQuit(start, projects, 0, answers, stamp);
        if o.stop == Finished {
          TriageQuit(o.session, fetches, i + 1, answers, rank, stamp);
        }
    }
  }

  /**
   * The counters and the stops of the tool's triage step from review state `state`:
   * `reviewed_projects` counts the `d` answers read; `q` ends the whole step at once
   * and is never read before the last answer; input runs out only when every answer
   * was read; and a run that is not stopped asks about every fetched project exactly
   * once and counts each in `total_projects`.
   */
  lemma TriageSummary(state: map<string, string>, fetches: seq<Fetch>, answers: seq<Answer>)
    ensures var o := Triage(Session(state, 0, 0, 0), fetches, 0, answers, RankAll, FormatIso);
      var used := o.session.used;
      && o.session.reviewed == CountDone(answers, 0, used)
      && (o.stop == QuitRequested <==> used > 0 && Classify(answers[used - 1].text) == Quit)
      && (forall n :: 0 <= n < used - 1 ==> Classify(answers[n].text) != Quit)
      && (o.stop == OutOfInput ==> used == |answers|)
      && (o.stop == Finished ==> used == ItemCount(fetches, 0) && o.session.total == ItemCount(fetches, 0))
      && (o.stop == Finished ==>
            multiset(TriageAsked(Session(state, 0, 0, 0), fetches, 0, answers, RankAll, FormatIso)) == FetchedItems(fetches, 0))
  {
    var s := Session(state, 0, 0, 0);
    RankAllKeepsItems();
    RankAllPermutesItems();
    TriageAskedAll(s, fetches, 0, answers, RankAll, FormatIso);
    TriageCounts(s, fetches, 0, answers, RankAll, FormatIso);
    TriageQuit(s, fetches, 0, answers, RankAll, FormatIso);
  }

  /** The uuids of projects `j..j + n` of an area: the projects the next `n` answers are given for. */
  function AreaAsked(projects: seq<ProjectInfo>, j: nat, n: nat): seq<string>
    requires j + n <= |projects|
  {
    seq(n, t requires 0 <= t < n => projects[j + t].uuid)
  }

  /** The uuids the answers one fetch reads are given for, in reading order. */
  function FetchAsked(s: Session, fetch: Fetch, answers: seq<Answer>, rank: Ranker, stamp: Stamper): (asked: seq<string>)
    requires s.used <= |answers|
    ensures |asked| == ReviewFetch(s, fetch, answers, rank, stamp).session.used - s.used
  {
    match fetch
    case FetchFailed(_) => []
    case Fetched(areas) =>
      var projects := rank(areas, s.state);
      var o := RunArea(s.(total := s.total + |projects|), projects, 0, answers, stamp);
      AreaAsked(projects, 0, o.session.used - s.used)
  }

  /**
   * The uuid of the project each answer the step reads from `s.used` on is given for,
   * in reading order: each fetched area's projects in ranking order, as far as the
   * area got (the `q` that ends it included).
   */
  function TriageAsked(s: Session, fetches: seq<Fetch>, i: nat, answers: seq<Answer>, rank: Ranker,
                       stamp: Stamper): (asked: seq<string>)
    requires s.used <= |answers| && i <= |fetches|
    ensures |asked| == Triage(s, fetches, i, answers, rank, stamp).session.used - s.used
    decreases |fetches| - i
  {
    if i == |fetches| then []
    else
      var o := ReviewFetch(s, fetches[i], answers, rank, stamp);
      var here := FetchAsked(s, fetches[i], answers, rank, stamp);
      if o.stop == Finished then here + TriageAsked(o.session, fetches, i + 1, answers, rank, stamp) else here
  }

  /** The uuids of some projects, in order. */
  function UuidsOf(projects: seq<ProjectInfo>): (uuids: seq<string>)
    ensures |uuids| == |projects|
  {
    if |projects| == 0 then [] else UuidsOf(projects[..|projects| - 1]) + [projects[|projects| - 1].uuid]
  }

  /** The uuid at each position is that of the project at that position. */
  lemma {:induction false} UuidsOfAt(projects: seq<ProjectInfo>)
    ensures forall t :: 0 <= t < |projects| ==> UuidsOf(projects)[t] == projects[t].uuid
    decreases |projects|
  {
    if |projects| > 0 {
      UuidsOfAt(projects[..|projects| - 1]);
    }
  }

  /** The uuids of the items of some areas, area by area and item by item, repeats kept. */
  function ItemUuidSeq(areas: seq<Area>): seq<string> {
    seq(|Flatten(areas)|, k requires 0 <= k < |Flatten(areas)| => Flatten(areas)[k].uuid)
  }

  /** Every item uuid of the areas fetched from configured area `i` on, counted as often as it occurs. */
  function FetchedItems(fetches: seq<Fetch>, i: nat): multiset<string>
    requires i <= |fetches|
    decreases |fetches| - i
  {
    if i == |fetches| then multiset{}
    else
      var here := match fetches[i] case Fetched(areas) => multiset(ItemUuidSeq(areas)) case FetchFailed(_) => multiset{};
      here + FetchedItems(fetches, i + 1)
  }

  /** A ranking that asks about each item of the areas once: its uuids are a permutation of theirs. */
  ghost predicate PermutesItems(rank: Ranker) {
    forall areas, state :: multiset(UuidsOf(rank(areas, state))) == multiset(ItemUuidSeq(areas))
  }

  /** Inserting a project adds its uuid once to the uuids. */
  lemma {:induction false} InsertUuids(s: seq<ProjectInfo>, x: ProjectInfo)
    ensures multiset(UuidsOf(Insert(s, x))) == multiset(UuidsOf(s)) + multiset{x.uuid}
    decreases |s|
  {
    if |s| == 0 || KeyLe(KeyOf(s[|s| - 1]), KeyOf(x)) {
      assert (s + [x])[..|s|] == s;
    } else {
      var init, last := s[..|s| - 1], s[|s| - 1];
      var t := Insert(init, x);
      calc {
        multiset(UuidsOf(Insert(s, x)));
        { assert (t + [last])[..|t|] == t; }
        multiset(UuidsOf(t)) + multiset{last.uuid};
        { InsertUuids(init, x); }
        multiset(UuidsOf(init)) + multiset{x.uuid} + multiset{last.uuid};
        multiset(UuidsOf(s)) + multiset{x.uuid};
      }
    }
  }

  /** Sorting keeps the uuids, each as often as before. */
  lemma {:induction false} SortUuids(s: seq<ProjectInfo>)
    ensures multiset(UuidsOf(SortByKey(s))) == multiset(UuidsOf(s))
    decreases |s|
  {
    if |s| > 0 {
      var init, last := s[..|s| - 1], s[|s| - 1];
      calc {
        multiset(UuidsOf(SortByKey(s)));
        { InsertUuids(SortByKey(init), last); }
        multiset(UuidsOf(SortByKey(init))) + multiset{last.uuid};
        { SortUuids(init); }
        multiset(UuidsOf(init)) + multiset{last.uuid};
        multiset(UuidsOf(s));
      }
    }
  }

  /** The tool's ranking asks about each item of the areas once. */
  lemma RankAllPermutesItems()
    ensures PermutesItems(RankAll)
  {
    forall areas, state
      ensures multiset(UuidsOf(RankAll(areas, state))) == multiset(ItemUuidSeq(areas))
    {
      RankedIsPermutationOfItems(areas, state);
      UnlimitedIsSorted(areas, state);
      SortUuids(ResolveAll(areas, state));
      UuidsOfAt(ResolveAll(areas, state));
      assert UuidsOf(ResolveAll(areas, state)) == ItemUuidSeq(areas);
    }
  }

  /**
   * A step that is not stopped asks about every fetched item once: the projects the
   * answers are given for are, counted with repeats, exactly the items of the fetched areas.
   */
  lemma {:induction false} TriageAskedAll(s: Session, fetches: seq<Fetch>, i: nat, answers: seq<Answer>, rank: Ranker,
                                          stamp: Stamper)
    requires s.used <= |answers| && i <= |fetches|
    requires PermutesItems(rank)
    ensures Triage(s, fetches, i, answers, rank, stamp).stop == Finished ==>
      multiset(TriageAsked(s, fetches, i, answers, rank, stamp)) == FetchedItems(fetches, i)
    decreases |fetches| - i
  {
    if i < |fetches| {
      var o := ReviewFetch(s, fetches[i], answers, rank, stamp);
      var here := FetchAsked(s, fetches[i], answers, rank, stamp);
      if o.stop == Finished {
        TriageAskedAll(o.session, fetches, i + 1, answers, rank, stamp);
        match fetches[i]
        case FetchFailed(_) =>
          assert here == [];
        case Fetched(areas) =>
          var projects := rank(areas, s.state);
          var start := s.(total := s.total + |projects|);
          RunAreaCounts(start, projects, 0, answers, stamp);
          UuidsOfAt(projects);
          assert here == UuidsOf(projects);
      }
    }
  }

  /** Answer `from + t` was a `d` given for a project with uuid `k`. */
  predicate DoneFor(asked: seq<string>, answers: seq<Answer>, from: nat, t: nat, k: string)
    requires from + |asked| <= |answers| && t < |asked|
  {
    asked[t] == k && Classify(answers[from + t].text) == Done
  }

  /**
   * The time of the last `d` given for a project with uuid `k` among the `|asked|`
   * answers read from `from` on, where answer `from + t` was given for `asked[t]`.
   */
  function LastDone(asked: seq<string>, answers: seq<Answer>, from: nat, k: string): Option<DateTime>
    requires from + |asked| <= |answers|
    decreases |asked|
  {
    if |asked| == 0 then None
    else
      var n := |asked| - 1;
      if asked[n] == k && Classify(answers[from + n].text) == Done then Some(answers[from + n].at)
      else LastDone(asked[..n], answers, from, k)
  }

  /** There is a `d` for `k` exactly when `LastDone` has a time. */
  lemma {:induction false} LastDoneNone(asked: seq<string>, answers: seq<Answer>, from: nat, k: string)
    requires from + |asked| <= |answers|
    ensures LastDone(asked, answers, from, k).None? <==> forall t :: 0 <= t < |asked| ==> !DoneFor(asked, answers, from, t, k)
    decreases |asked|
  {
    if |asked| > 0 {
      var n := |asked| - 1;
      var front := asked[..n];
      LastDoneNone(front, answers, from, k);
      if !DoneFor(asked, answers, from, n, k) {
        forall t | 0 <= t < n
          ensures DoneFor(front, answers, from, t, k) == DoneFor(asked, answers, from, t, k)
        {
          assert front[t] == asked[t];
        }
      }
    }
  }

  /** `LastDone` is the time of the `d` for `k` that no later `d` for `k` follows. */
  lemma {:induction false} LastDoneAt(asked: seq<string>, answers: seq<Answer>, from: nat, k: string, t: nat)
    requires from + |asked| <= |answers| && t < |asked|
    requires DoneFor(asked, answers, from, t, k)
    requires forall u :: t < u < |asked| ==> !DoneFor(asked, answers, from, u, k)
    ensures LastDone(asked, answers, from, k) == Some(answers[from + t].at)
    decreases |asked|
  {
    var n := |asked| - 1;
    if t < n {
      var front := asked[..n];
      assert !DoneFor(asked, answers, from, n, k);
      assert front[t] == asked[t];
      forall u | t < u < n
        ensures !DoneFor(front, answers, from, u, k)
      {
        assert !DoneFor(asked, answers, from, u, k);
        assert front[u] == asked[u];
      }
      LastDoneAt(front, answers, from, k, t);
    }
  }

  /** The last `d` for `k` over two runs of answers: the second run's, if it has one, else the first's. */
  lemma {:induction false} LastDoneAppend(a: seq<string>, b: seq<string>, answers: seq<Answer>, from: nat, k: string)
    requires from + |a| + |b| <= |answers|
    ensures LastDone(a + b, answers, from, k)
      == (if LastDone(b, answers, from + |a|, k).Some? then LastDone(b, answers, from + |a|, k) else LastDone(a, answers, from, k))
    decreases |b|
  {
    if |b| == 0 {
      assert a + b == a;
    } else {
      var n := |b| - 1;
      assert (a + b)[..|a| + n] == a + b[..n];
      assert (a + b)[|a| + n] == b[n];
      LastDoneAppend(a, b[..n], answers, from, k);
    }
  }

  /** The projects asked about from `j` on: project `j`, then those after it. */
  lemma AreaAskedCons(projects: seq<ProjectInfo>, j: nat, n: nat)
    requires 1 <= n && j + n <= |projects|
    ensures AreaAsked(projects, j, n) == [projects[j].uuid] + AreaAsked(projects, j + 1, n - 1)
  {
  }

  /** One reply other than `q` leaves under `k` what the last `d` among that one reply says. */
  lemma RespondMarks(s: Session, uuid: string, answers: seq<Answer>, stamp: Stamper, k: string)
    requires s.used < |answers|
    ensures Marked(Respond(s, uuid, answers[s.used], stamp).state, s.state, LastDone([uuid], answers, s.used, k), stamp, k)
  {
    assert [uuid][..0] == [];
    assert LastDone([uuid][..0], answers, s.used, k) == None;
    if uuid == k && Classify(answers[s.used].text) == Done {
      assert LastDone([uuid], answers, s.used, k) == Some(answers[s.used].at);
    } else {
      assert LastDone([uuid], answers, s.used, k) == None;
    }
  }

  /**
   * A reply other than `q` to the prompt for project `j`, followed by the rest of the
   * area: what the rest leaves under `k`, over what the reply left.
   */
  lemma RunAreaMarksStep(s: Session, projects: seq<ProjectInfo>, j: nat, answers: seq<Answer>,
                         stamp: Stamper, k: string)
    requires s.used < |answers| && j < |projects| && Classify(answers[s.used].text) != Quit
    requires var next := Respond(s, projects[j].uuid, answers[s.used], stamp);
      var o := RunArea(next, projects, j + 1, answers, stamp);
      Marked(o.session.state, next.state, LastDone(AreaAsked(projects, j + 1, o.session.used - next.used), answers, next.used, k), stamp, k)
    ensures var o := RunArea(s, projects, j, answers, stamp);
      Marked(o.session.state, s.state, LastDone(AreaAsked(projects, j, o.session.used - s.used), answers, s.used, k), stamp, k)
  {
    var here := [projects[j].uuid];
    var next := Respond(s, projects[j].uuid, answers[s.used], stamp);
    var o := RunArea(next, projects, j + 1, answers, stamp);
    assert RunArea(s, projects, j, answers, stamp) == o;
    var rest := AreaAsked(projects, j + 1, o.session.used - next.used);
    RespondMarks(s, projects[j].uuid, answers, stamp, k);
    AreaAskedCons(projects, j, o.session.used - s.used);
    LastDoneAppend(here, rest, answers, s.used, k);
    MarkedChain(s.state, next.state, o.session.state, LastDone(here, answers, s.used, k),
                LastDone(rest, answers, next.used, k), stamp, k);
  }

  /**
   * What one area leaves under `k`: `stamp` of the time of the last `d` given for a
   * project with uuid `k`, or, when there was none, the entry as it was.
   */
  lemma {:induction false} RunAreaMarks(s: Session, projects: seq<ProjectInfo>, j: nat, answers: seq<Answer>,
                                        stamp: Stamper, k: string)
    requires s.used <= |answers| && j <= |projects|
    ensures var o := RunArea(s, projects, j, answers, stamp);
      Marked(o.session.state, s.state, LastDone(AreaAsked(projects, j, o.session.used - s.used), answers, s.used, k), stamp, k)
    decreases |projects| - j
  {
    if j < |projects| && s.used < |answers| {
      if Classify(answers[s.used].text) == Quit {
        var here := [projects[j].uuid];
        assert here[..0] == [];
        assert AreaAsked(projects, j, 1) == here;
        assert LastDone(here[..0], answers, s.used, k) == None;
        assert LastDone(here, answers, s.used, k) == None;
      } else {
        RunAreaMarks(Respond(s, projects[j].uuid, answers[s.used], stamp), projects, j + 1, answers, stamp, k);
        RunAreaMarksStep(s, projects, j, answers, stamp, k);
      }
    }
  }

  /** What one fetch leaves under `k`, as `RunAreaMarks` says for its area. */
  lemma FetchMarks(s: Session, fetch: Fetch, answers: seq<Answer>, rank: Ranker, stamp: Stamper, k: string)
    requires s.used <= |answers|
    ensures Marked(ReviewFetch(s, fetch, answers, rank, stamp).session.state, s.state,
                   LastDone(FetchAsked(s, fetch, answers, rank, stamp), answers, s.used, k), stamp, k)
  {
    match fetch
    case FetchFailed(_) =>
    case Fetched(areas) =>
      var projects := rank(areas, s.state);
      RunAreaMarks(s.(total := s.total + |projects|), projects, 0, answers, stamp, k);
  }

  /**
   * What the step from configured area `i` on leaves under `k`: `stamp` of the time of
   * the last `d` given for a project with uuid `k`, or, when there was none, the entry
   * as it was.
   */
  lemma {:induction false} TriageMarks(s: Session, fetches: seq<Fetch>, i: nat, answers: seq<Answer>, rank: Ranker,
                                       stamp: Stamper, k: string)
    requires s.used <= |answers| && i <= |fetches|
    ensures Marked(Triage(s, fetches, i, answers, rank, stamp).session.state, s.state,
                   LastDone(TriageAsked(s, fetches, i, answers, rank, stamp), answers, s.used, k), stamp, k)
    decreases |fetches| - i
  {
    if i < |fetches| {
      var o1 := ReviewFetch(s, fetches[i], answers, rank, stamp);
      var here := FetchAsked(s, fetches[i], answers, rank, stamp);
      FetchMarks(s, fetches[i], answers, rank, stamp, k);
      if o1.stop == Finished {
        var rest := TriageAsked(o1.session, fetches, i + 1, answers, rank, stamp);
        TriageMarks(o1.session, fetches, i + 1, answers, rank, stamp, k);
        LastDoneAppend(here, rest, answers, s.used, k);
        MarkedChain(s.state, o1.session.state, Triage(s, fetches, i, answers, rank, stamp).session.state,
                    LastDone(here, answers, s.used, k), LastDone(rest, answers, o1.session.used, k), stamp, k);
      }
    }
  }

  /** Every answer the step reads is given for a project of a fetched area. */
  lemma {:induction false} TriageAskedFetched(s: Session, fetches: seq<Fetch>, i: nat, answers: seq<Answer>,
                                              rank: Ranker, stamp: Stamper)
    requires s.used <= |answers| && i <= |fetches|
    requires KeepsItems(rank)
    ensures forall t :: 0 <= t < |TriageAsked(s, fetches, i, answers, rank, stamp)| ==>
      TriageAsked(s, fetches, i, answers, rank, stamp)[t] in FetchedUuids(fetches, i)
    decreases |fetches| - i
  {
    if i < |fetches| {
      var o1 := ReviewFetch(s, fetches[i], answers, rank, stamp);
      var here := FetchAsked(s, fetches[i], answers, rank, stamp);
      match fetches[i] {
        case FetchFailed(_) =>
        case Fetched(areas) =>
          assert forall t :: 0 <= t < |here| ==> here[t] in ItemUuids(areas);
      }
      if o1.stop == Finished {
        TriageAskedFetched(o1.session, fetches, i + 1, answers, rank, stamp);
      }
    }
  }

  /**
   * `after` holds, under the uuid of every `d` that no later `d` for the same project
   * follows, `stamp` of that `d`'s time.
   */
  predicate DoneStamps(after: map<string, string>, asked: seq<string>, answers: seq<Answer>, from: nat, stamp: Stamper)
    requires from + |asked| <= |answers|
  {
    forall t :: 0 <= t < |asked| && DoneFor(asked, answers, from, t, asked[t])
                && (forall u :: t < u < |asked| ==> !DoneFor(asked, answers, from, u, asked[t]))
                ==> asked[t] in after && after[asked[t]] == stamp(answers[from + t].at)
  }

  /** A state marked from its last `d`s carries the time of every `d` not overtaken by a later one. */
  lemma MarkedDoneStamps(after: map<string, string>, before: map<string, string>, asked: seq<string>,
                         answers: seq<Answer>, from: nat, stamp: Stamper)
    requires from + |asked| <= |answers|
    requires forall k :: Marked(after, before, LastDone(asked, answers, from, k), stamp, k)
    ensures DoneStamps(after, asked, answers, from, stamp)
  {
    forall t | 0 <= t < |asked| && DoneFor(asked, answers, from, t, asked[t])
               && (forall u :: t < u < |asked| ==> !DoneFor(asked, answers, from, u, asked[t]))
      ensures asked[t] in after && after[asked[t]] == stamp(answers[from + t].at)
    {
      LastDoneAt(asked, answers, from, asked[t], t);
      assert Marked(after, before, LastDone(asked, answers, from, asked[t]), stamp, asked[t]);
    }
  }

  /** A state marked from answers none of which is a `d` is the state it started from. */
  lemma MarkedNoDone(after: map<string, string>, before: map<string, string>, asked: seq<string>,
                     answers: seq<Answer>, from: nat, stamp: Stamper)
    requires from + |asked| <= |answers|
    requires forall k :: Marked(after, before, LastDone(asked, answers, from, k), stamp, k)
    requires forall t :: from <= t < from + |asked| ==> Classify(answers[t].text) != Done
    ensures after == before
  {
    forall k
      ensures Same(after, before, k)
    {
      forall t | 0 <= t < |asked|
        ensures !DoneFor(asked, answers, from, t, k)
      {
        assert Classify(answers[from + t].text) != Done;
      }
      LastDoneNone(asked, answers, from, k);
      assert Marked(after, before, LastDone(asked, answers, from, k), stamp, k);
    }
    assert after.Keys == before.Keys by {
      forall k
        ensures k in after <==> k in before
      {
        assert Same(after, before, k);
      }
    }
    forall k | k in before
      ensures after[k] == before[k]
    {
      assert Same(after, before, k);
    }
  }

  /** A uuid no answer was given for keeps its entry. */
  lemma MarkedUnasked(after: map<string, string>, before: map<string, string>, asked: seq<string>,
                      answers: seq<Answer>, from: nat, stamp: Stamper, k: string)
    requires from + |asked| <= |answers|
    requires Marked(after, before, LastDone(asked, answers, from, k), stamp, k)
    requires forall t :: 0 <= t < |asked| ==> asked[t] != k
    ensures Same(after, before, k)
  {
    LastDoneNone(asked, answers, from, k);
  }

  /**
   * What the tool's triage step leaves in the review state: under each uuid,
   * `isoformat()` of the time of the last `d` given for that project, or the entry as
   * it was when it got no `d`.
   */
  lemma TriageMarksSummary(state: map<string, string>, fetches: seq<Fetch>, answers: seq<Answer>)
    ensures var s := Session(state, 0, 0, 0);
      var o := Triage(s, fetches, 0, answers, RankAll, FormatIso);
      var asked := TriageAsked(s, fetches, 0, answers, RankAll, FormatIso);
      forall k :: Marked(o.session.state, state, LastDone(asked, answers, 0, k), FormatIso, k)
  {
    var s := Session(state, 0, 0, 0);
    forall k
      ensures Marked(Triage(s, fetches, 0, answers, RankAll, FormatIso).session.state, state,
                     LastDone(TriageAsked(s, fetches, 0, answers, RankAll, FormatIso), answers, 0, k), FormatIso, k)
    {
      TriageMarks(s, fetches, 0, answers, RankAll, FormatIso, k);
    }
  }

  /**
   * The tool's triage step reads one answer per project it asks about, each project of
   * a fetched area.
   */
  lemma TriageAskedSummary(state: map<string, string>, fetches: seq<Fetch>, answers: seq<Answer>)
    ensures var s := Session(state, 0, 0, 0);
      var asked := TriageAsked(s, fetches, 0, answers, RankAll, FormatIso);
      && |asked| == Triage(s, fetches, 0, answers, RankAll, FormatIso).session.used
      && forall t :: 0 <= t < |asked| ==> asked[t] in FetchedUuids(fetches, 0)
  {
    RankAllKeepsItems();
    TriageAskedFetched(Session(state, 0, 0, 0), fetches, 0, answers, RankAll, FormatIso);
  }

  /**
   * In the tool's triage step, a `d` that no later `d` for the same project follows
   * leaves that project stamped with `isoformat()` of its time.
   */
  lemma TriageDoneMarks(state: map<string, string>, fetches: seq<Fetch>, answers: seq<Answer>)
    ensures var s := Session(state, 0, 0, 0);
      DoneStamps(Triage(s, fetches, 0, answers, RankAll, FormatIso).session.state,
                 TriageAsked(s, fetches, 0, answers, RankAll, FormatIso), answers, 0, FormatIso)
  {
    var s := Session(state, 0, 0, 0);
    var o := Triage(s, fetches, 0, answers, RankAll, FormatIso);
    var asked := TriageAsked(s, fetches, 0, answers, RankAll, FormatIso);
    forall k
      ensures Marked(o.session.state, state, LastDone(asked, answers, 0, k), FormatIso, k)
    {
      TriageMarks(s, fetches, 0, answers, RankAll, FormatIso, k);
    }
    MarkedDoneStamps(o.session.state, state, asked, answers, 0, FormatIso);
  }

  /**
   * The review state after the tool's triage step, seen from outside: a run with no
   * `d` leaves it as it was, and projects that were never fetched keep their entries.
   */
  lemma TriageStateSummary(state: map<string, string>, fetches: seq<Fetch>, answers: seq<Answer>)
    ensures var o := Triage(Session(state, 0, 0, 0), fetches, 0, answers, RankAll, FormatIso);
      && (CountDone(answers, 0, o.session.used) == 0 ==> o.session.state == state)
      && (forall k :: k !in FetchedUuids(fetches, 0) ==> Same(o.session.state, state, k))
  {
    var s := Session(state, 0, 0, 0);
    var o := Triage(s, fetches, 0, answers, RankAll, FormatIso);
    var asked := TriageAsked(s, fetches, 0, answers, RankAll, FormatIso);
    TriageMarksSummary(state, fetches, answers);
    TriageAskedSummary(state, fetches, answers);
    forall k | k !in FetchedUuids(fetches, 0)
      ensures Same(o.session.state, state, k)
    {
      MarkedUnasked(o.session.state, state, asked, answers, 0, FormatIso, k);
    }
    if CountDone(answers, 0, o.session.used) == 0 {
      CountDoneZero(answers, 0, o.session.used);
      MarkedNoDone(o.session.state, state, asked, answers, 0, FormatIso);
    }
  }
}
