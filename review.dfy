/**
 * The function-based variant of the review tool: its ranker (which returns only
 * titles and uuids), its payload builder, the mark-all-then-roll-back update of the
 * review state after an area review, the per-project triage of the guided review over
 * the plain state dictionary, and the configuration checks.
 */
module Review {
  import opened Wrappers
  import opened Text
  import opened IsoTime
  import opened Projects
  import opened Sorting
  import opened Ranking
  import opened Payload
  import opened ConfigDocs
  import opened ProjectTriage

  /**
   * The record this variant builds for one item: a deadline is parsed whenever it is
   * not `None`, and a review time that is missing, empty or unparsable is stored as
   * `datetime.min` itself rather than as `None`.
   */
  function Record(item: RawProject, state: map<string, string>): ProjectInfo {
    var deadline := if item.deadline.Some? then ParseIso(item.deadline.value) else None;
    var lastReviewed: DateTime := LastReviewedIn(state, item.uuid).GetOr(MinDateTime);
    ProjectInfo(item.title, item.uuid, deadline, Some(lastReviewed))
  }

  function Records(items: seq<RawProject>, state: map<string, string>): seq<ProjectInfo> {
    seq(|items|, k requires 0 <= k < |items| => Record(items[k], state))
  }

  /** The `{'title', 'uuid'}` pairs of a list of projects. */
  function Refs(projects: seq<ProjectInfo>): (refs: seq<ProjectRef>)
    ensures |refs| == |projects|
    ensures forall k :: 0 <= k < |projects| ==> refs[k] == ProjectRef(projects[k].title, projects[k].uuid)
  {
    seq(|projects|, k requires 0 <= k < |projects| => projects[k].Ref())
  }

  /** This variant's records rank exactly as the class-based variant's do. */
  lemma RecordsAlike(areas: seq<Area>, state: map<string, string>)
    ensures Alike(Records(Flatten(areas), state), ResolveAll(areas, state))
  {
    var items := Flatten(areas);
    ResolveItemsAt(items, state);
    forall k | 0 <= k < |items|
      ensures KeyOf(Records(items, state)[k]) == KeyOf(ResolveAll(areas, state)[k])
    {
      ResolveDeadlineIsNotNoneForm(items[k].deadline);
    }
  }

  /** The nested loops of `process_projects` that append one record per item. */
  method CollectRecords(areas: seq<Area>, reviewState: map<string, string>) returns (all: seq<ProjectInfo>)
    ensures all == Records(Flatten(areas), reviewState)
  {
    all := [];
    for i := 0 to |areas|
      invariant all == Records(Flatten(areas[..i]), reviewState)
    {
      var items := ItemsOf(areas[i]);
      for j := 0 to |items|
        invariant all == Records(Flatten(areas[..i]) + items[..j], reviewState)
      {
        assert Flatten(areas[..i]) + items[..j + 1] == (Flatten(areas[..i]) + items[..j]) + [items[j]];
        all := all + [Record(items[j], reviewState)];
      }
      assert areas[..i + 1][..i] == areas[..i];
      assert items[..|items|] == items;
    }
    assert areas[..|areas|] == areas;
  }

  /** Sorting this variant's records and cutting them as the ranker does gives the titles and uuids of `Ranked`. */
  lemma RecordsRankLikeRanked(areas: seq<Area>, state: map<string, string>, limit: Option<int>)
    ensures var sorted := SortByKey(Records(Flatten(areas), state));
      Refs(sorted[..PrefixLength(|sorted|, limit)]) == Refs(Ranked(areas, state, limit))
  {
    RecordsAlike(areas, state);
    SortAlike(Records(Flatten(areas), state), ResolveAll(areas, state));
  }

  /**
   * `process_projects(areas, limit, review_state)`: build one record per item of every
   * area, sort in place by (last review, deadline or `datetime.max`), keep
   * `all_projects[:limit]` when `limit` is truthy, and return the titles and uuids.
   * The result is the ranking of `Ranking` (sorted, stable, a permutation of the
   * items, cut to a prefix), reduced to titles and uuids.
   */
  method ProcessProjects(areas: seq<Area>, limit: Option<int>, reviewState: map<string, string>)
    returns (refs: seq<ProjectRef>)
    ensures refs == Refs(Ranked(areas, reviewState, limit))
  {
    var all := CollectRecords(areas, reviewState);
    var a := new ProjectInfo[|all|](k requires 0 <= k < |all| => all[k]);
    assert a[..] == all;
    SortProjects(a);
    var sorted := a[..];
    var selected := if limit.Some? && limit.value != 0 then sorted[..PrefixLength(|sorted|, limit)] else sorted;
    assert selected == sorted[..PrefixLength(|sorted|, limit)];
    refs := seq(|selected|, k requires 0 <= k < |selected| => selected[k].Ref());
    RecordsRankLikeRanked(areas, reviewState, limit);
  }

  /**
   * `generate_review_payload`: a one-element list holding a project of kind `project`
   * with the given title and area, whose items are one `to-do` per project, in order,
   * titled after the project and linking to its uuid, so that the projects can be
   * read back from the items.
   */
  function GenerateReviewPayload(projects: seq<ProjectRef>, areaId: string, title: string): (docs: seq<ProjectDocument>)
    ensures |docs| == 1
    ensures docs[0].kind == "project"
    ensures docs[0].attributes.title == title && docs[0].attributes.areaId == areaId
    ensures |docs[0].attributes.items| == |projects|
    ensures forall i :: 0 <= i < |projects| ==>
      var item := docs[0].attributes.items[i];
      item.kind == "to-do" && item.attributes.title == projects[i].title
      && NoteUuid(item.attributes.notes) == Some(projects[i].uuid)
    ensures LinkedProjects(docs[0].attributes.items) == Some(projects)
  {
    ChecklistRoundTrip(projects);
    [ReviewProject(title, areaId, ChecklistItems(projects))]
  }

  /** `review_state.get(uuid)`. */
  function Get(m: map<string, string>, k: string): (r: Option<string>)
    ensures r.Some? <==> k in m
    ensures r.Some? ==> r.value == m[k]
  {
    if k in m then Some(m[k]) else None
  }

  /**
   * `[int(s.strip()) for s in tokens]`: every token must parse, or the whole list
   * fails, as the `ValueError` of any one `int` abandons the comprehension.
   */
  function ParseTokens(tokens: seq<string>): (r: Option<seq<int>>)
    ensures r.Some? <==> forall i :: 0 <= i < |tokens| ==> ParseInt(Strip(tokens[i])).Some?
    ensures r.Some? ==> |r.value| == |tokens|
    ensures r.Some? ==> forall i :: 0 <= i < |tokens| ==> ParseInt(Strip(tokens[i])) == Some(r.value[i])
  {
    if |tokens| == 0 then Some([])
    else
      var head := ParseInt(Strip(tokens[0]));
      var rest := ParseTokens(tokens[1..]);
      if head.Some? && rest.Some? then Some([head.value] + rest.value) else None
  }

  /** The numbers typed at the "not reviewed" prompt, split on `,`. */
  function ParseIndices(reply: string): Option<seq<int>> {
    ParseTokens(Split(reply, ','))
  }

  /**
   * The 1-based positions the reply asks to roll back: none for a blank reply, none
   * when any token is not an integer, and otherwise every number given (in or out of
   * range, each once however often it is repeated).
   */
  function ListedIndices(reply: string): (r: set<int>)
    ensures Strip(reply) == "" || ParseIndices(reply).None? ==> r == {}
    ensures Strip(reply) != "" && ParseIndices(reply).Some? ==>
      forall n :: n in r <==> n in ParseIndices(reply).value
  {
    if Strip(reply) == "" then {}
    else match ParseIndices(reply)
      case None => {}
      case Some(indices) => set n | n in indices
  }

  /** No two included projects share a uuid. */
  predicate DistinctUuids(included: seq<ProjectRef>) {
    forall i, j :: 0 <= i < j < |included| ==> included[i].uuid != included[j].uuid
  }

  /**
   * The first loop of the update: remember each included project's entry in
   * `oldStates`, then stamp it with `currentIso`. With distinct uuids every remembered
   * entry is the one from before the run.
   */
  method MarkAll(state: map<string, string>, included: seq<ProjectRef>, currentIso: string)
    returns (stamped: map<string, string>, oldStates: map<string, Option<string>>)
    ensures forall m :: 0 <= m < |included| ==>
      included[m].uuid in oldStates && Get(stamped, included[m].uuid) == Some(currentIso)
    ensures forall k :: (forall m :: 0 <= m < |included| ==> included[m].uuid != k) ==> Get(stamped, k) == Get(state, k)
    ensures DistinctUuids(included) ==>
      forall m :: 0 <= m < |included| ==> oldStates[included[m].uuid] == Get(state, included[m].uuid)
  {
    stamped := state;
    oldStates := map[];
    for i := 0 to |included|
      invariant forall m :: 0 <= m < i ==>
        included[m].uuid in oldStates && Get(stamped, included[m].uuid) == Some(currentIso)
      invariant forall k :: (forall m :: 0 <= m < i ==> included[m].uuid != k) ==> Get(stamped, k) == Get(state, k)
      invariant DistinctUuids(included) ==>
        forall m :: 0 <= m < i ==> oldStates[included[m].uuid] == Get(state, included[m].uuid)
    {
      var uuid := included[i].uuid;
      oldStates := oldStates[uuid := Get(stamped, uuid)];
      stamped := stamped[uuid := currentIso];
    }
  }

  /**
   * The second loop of the update: for each listed position in range, put back the
   * remembered entry, or drop the entry when there was none. Only included projects
   * change, and with distinct uuids exactly the listed ones do.
   */
  method RollBack(stamped: map<string, string>, included: seq<ProjectRef>, oldStates: map<string, Option<string>>,
                  indices: seq<int>)
    returns (after: map<string, string>)
    requires forall m :: 0 <= m < |included| ==> included[m].uuid in oldStates
    ensures forall k :: (forall m :: 0 <= m < |included| ==> included[m].uuid != k) ==> Get(after, k) == Get(stamped, k)
    ensures DistinctUuids(included) ==> forall m :: 0 <= m < |included| ==>
      Get(after, included[m].uuid)
        == (if m + 1 in indices then oldStates[included[m].uuid] else Get(stamped, included[m].uuid))
  {
    after := stamped;
    for t := 0 to |indices|
      invariant forall k :: (forall m :: 0 <= m < |included| ==> included[m].uuid != k) ==> Get(after, k) == Get(stamped, k)
      invariant DistinctUuids(included) ==> forall m :: 0 <= m < |included| ==>
        Get(after, included[m].uuid)
          == (if m + 1 in indices[..t] then oldStates[included[m].uuid] else Get(stamped, included[m].uuid))
    {
      var index := indices[t];
      assert indices[..t + 1] == indices[..t] + [index];
      if 1 <= index <= |included| {
        var uuid := included[index - 1].uuid;
        if oldStates[uuid].Some? {
          after := after[uuid := oldStates[uuid].value];
        } else if uuid in after {
          after := after - {uuid};
        }
      }
    }
    assert indices[..|indices|] == indices;
  }

  /**
   * The review-state update after an area review: remember each included project's
   * entry, stamp every included project with `currentIso`, then, unless the reply is
   * blank or holds a token that is not an integer, roll back each listed 1-based
   * position. Projects that were not included keep their entries; with distinct
   * uuids, an included project ends with its entry from before the run (or none) when
   * its position was listed, and with `currentIso` otherwise.
   */
  method MarkAllThenRollback(state: map<string, string>, included: seq<ProjectRef>, currentIso: string, reply: string)
    returns (after: map<string, string>)
    ensures forall k :: (forall m :: 0 <= m < |included| ==> included[m].uuid != k) ==> Get(after, k) == Get(state, k)
    ensures DistinctUuids(included) ==> forall m :: 0 <= m < |included| ==>
      Get(after, included[m].uuid)
        == (if m + 1 in ListedIndices(reply) then Get(state, included[m].uuid) else Some(currentIso))
  {
    var oldStates;
    after, oldStates := MarkAll(state, included, currentIso);
    if Strip(reply) != "" {
      var parsed := ParseIndices(reply);
      if parsed.Some? {
        after := RollBack(after, included, oldStates, parsed.value);
      }
    }
  }

  /**
   * The prompt for one project: read the next answer; `q` reports that the step is to
   * end, `d` stamps the project with the time of the answer and counts it, anything
   * else only consumes the answer. Unless it quits, the new state is `Respond`'s.
   */
  method AnswerProject(state0: map<string, string>, uuid: string, answers: seq<Answer>,
                       total: nat, reviewed0: nat, used0: nat)
    returns (state: map<string, string>, reviewed: nat, used: nat, quit: bool)
    requires used0 < |answers|
    ensures used == used0 + 1
    ensures quit <==> Classify(answers[used0].text) == Quit
    ensures quit ==> state == state0 && reviewed == reviewed0
    ensures !quit ==> (Session(state, total, reviewed, used)
                       == Respond(Session(state0, total, reviewed0, used0), uuid, answers[used0], FormatIso))
  {
    var action := Classify(answers[used0].text);
    var at := answers[used0].at;
    state, reviewed, used := state0, reviewed0, used0 + 1;
    quit := action == Quit;
    if action == Done {
      state := state[uuid := FormatIso(at)];
      reviewed := reviewed + 1;
    }
  }

  /**
   * The prompts for the projects of one area in the guided review's project step,
   * over the state dictionary: `q` ends the step, `d` stamps the project with the time
   * of the answer and counts it, anything else moves on. `ranked` is the ranking the
   * titles and uuids in `projects` come from.
   */
  method ReviewAreaProjects(state0: map<string, string>, projects: seq<ProjectRef>, ghost ranked: seq<ProjectInfo>,
                            answers: seq<Answer>, total: nat, reviewed0: nat, used0: nat)
    returns (state: map<string, string>, reviewed: nat, used: nat, stop: Stop)
    requires used0 <= |answers|
    requires |ranked| == |projects| && forall j :: 0 <= j < |projects| ==> ranked[j].uuid == projects[j].uuid
    ensures Outcome(Session(state, total, reviewed, used), stop)
      == RunArea(Session(state0, total, reviewed0, used0), ranked, 0, answers, FormatIso)
  {
    state, reviewed, used := state0, reviewed0, used0;
    var j := 0;
    while j < |projects|
      invariant 0 <= j <= |projects|
      invariant used <= |answers|
      invariant RunArea(Session(state, total, reviewed, used), ranked, j, answers, FormatIso)
        == RunArea(Session(state0, total, reviewed0, used0), ranked, 0, answers, FormatIso)
    {
      ghost var before := Session(state, total, reviewed, used);
      if used == |answers| {
        assert RunArea(before, ranked, j, answers, FormatIso) == Outcome(before, OutOfInput);
        return state, reviewed, used, OutOfInput;
      }
      assert ranked[j].uuid == projects[j].uuid;
      var quit;
      state, reviewed, used, quit := AnswerProject(state, projects[j].uuid, answers, total, reviewed, used);
      if quit {
        assert RunArea(before, ranked, j, answers, FormatIso) == Outcome(Session(state, total, reviewed, used), QuitRequested);
        return state, reviewed, used, QuitRequested;
      }
      assert RunArea(before, ranked, j, answers, FormatIso)
        == RunArea(Session(state, total, reviewed, used), ranked, j + 1, answers, FormatIso);
      j := j + 1;
    }
    stop := Finished;
  }

  /**
   * One configured area of step 6 whose fetch succeeded: rank its projects with the
   * dictionary as it is now, add their number to the total, and prompt for each. The
   * dictionary, counters and stop are those of `ReviewFetch`.
   */
  method ReviewFetchedProjects(state0: map<string, string>, areas: seq<Area>, answers: seq<Answer>,
                               total0: nat, reviewed0: nat, used0: nat)
    returns (state: map<string, string>, total: nat, reviewed: nat, used: nat, stop: Stop)
    requires used0 <= |answers|
    ensures Outcome(Session(state, total, reviewed, used), stop)
      == ReviewFetch(Session(state0, total0, reviewed0, used0), Fetched(areas), answers, RankAll, FormatIso)
  {
    var projects := ProcessProjects(areas, None, state0);
    ghost var ranked := RankAll(areas, state0);
    total := total0 + |projects|;
    state, reviewed, used, stop := ReviewAreaProjects(state0, projects, ranked, answers, total, reviewed0, used0);
  }

  /**
   * Step 6 of `perform_full_gtd_review` over the state dictionary: for each configured
   * area (its fetch outcome in `fetches`), rank its projects with the dictionary as it
   * is now, add their number to the total, and prompt for each; `q` breaks out of the
   * projects and then out of the areas, and the summary is reached either way. The
   * final dictionary, counters and stop are those of `Triage`.
   */
  method PerformProjectReview(reviewState: map<string, string>, fetches: seq<Fetch>, answers: seq<Answer>)
    returns (state: map<string, string>, total: nat, reviewed: nat, used: nat, stop: Stop)
    ensures Outcome(Session(state, total, reviewed, used), stop)
      == Triage(Session(reviewState, 0, 0, 0), fetches, 0, answers, RankAll, FormatIso)
  {
    state, total, reviewed, used := reviewState, 0, 0, 0;
    var i := 0;
    while i < |fetches|
      invariant 0 <= i <= |fetches|
      invariant used <= |answers|
      invariant Triage(Session(state, total, reviewed, used), fetches, i, answers, RankAll, FormatIso)
        == Triage(Session(reviewState, 0, 0, 0), fetches, 0, answers, RankAll, FormatIso)
    {
      if fetches[i].FetchFailed? {
        i := i + 1;
        continue;
      }
      state, total, reviewed, used, stop := ReviewFetchedProjects(state, fetches[i].areas, answers, total, reviewed, used);
      if stop != Finished {
        return;
      }
      i := i + 1;
    }
    stop := Finished;
  }

  /** `ConfigError` and its two kinds. */
  datatype ConfigError = MissingConfigError(message: string) | InvalidConfigError(message: string)

  /** The path `load_config` reads by default. */
  const ConfigPath: string := "config.json"

  /**
   * `load_config` over what reading `path` gave: a missing file raises
   * `MissingConfigError`; text that is not JSON, or a missing or empty `reviews`
   * section, raises `InvalidConfigError`; otherwise the decoded document is returned as is.
   */
  function LoadConfig(path: string, read: ConfigRead): (r: Result<seq<(string, Json)>, ConfigError>)
    ensures r.Success? <==> read.Parsed? && HasReviews(read.document)
    ensures r.Success? ==> r.value == read.document
    ensures read.FileMissing? ==> r == Failure(MissingConfigError(path + " file not found"))
    ensures read.MalformedJson? ==> r == Failure(InvalidConfigError("Invalid JSON in config file: " + read.detail))
    ensures read.Parsed? && !HasReviews(read.document) ==>
      r == Failure(InvalidConfigError("Missing or empty 'reviews' key in config"))
  {
    match read
    case FileMissing => Failure(MissingConfigError(path + " file not found"))
    case MalformedJson(detail) => Failure(InvalidConfigError("Invalid JSON in config file: " + detail))
    case Parsed(document) =>
      if !HasReviews(document) then Failure(InvalidConfigError("Missing or empty 'reviews' key in config"))
      else Success(document)
  }

  /**
   * Why `validate_area_choice` rejects a value: `click.BadParameter`, or the
   * `AttributeError` of calling `.keys()` on a `reviews` section that is not an object.
   */
  datatype ChoiceError = BadParameter(message: string) | ReviewsNotAnObject

  /**
   * `validate_area_choice`: `full` is always accepted; when the configuration cannot
   * be loaded the value is accepted and left for later; otherwise the value must be
   * one of the `reviews` names, and the error lists them followed by `full`.
   */
  function ValidateAreaChoice(value: string, read: ConfigRead): (r: Result<string, ChoiceError>)
    ensures r.Success? ==> r.value == value
    ensures value == "full" || LoadConfig(ConfigPath, read).Failure? ==> r.Success?
    ensures r.Failure? ==> value != "full" && read.Parsed? && HasReviews(read.document)
    ensures read.Parsed? && HasReviews(read.document) ==>
      var reviews := Lookup(read.document, "reviews").value;
      && (reviews.JObject? && value in Keys(reviews.members) ==> r.Success?)
      && (reviews.JObject? && value != "full" ==> (r.Success? <==> value in Keys(reviews.members)))
      && (reviews.JObject? && value != "full" && value !in Keys(reviews.members) ==>
            r == Failure(BadParameter("'" + value + "' is not a valid area. Choose from: "
                                      + Join(Keys(reviews.members) + ["full"], ", "))))
      && (r == Failure(ReviewsNotAnObject) <==> value != "full" && !reviews.JObject?)
      && (r.Failure? && r.error.BadParameter? ==>
            reviews.JObject? && value !in Keys(reviews.members)
            && r.error.message == "'" + value + "' is not a valid area. Choose from: "
                                  + Join(Keys(reviews.members) + ["full"], ", "))
  {
    if value == "full" then Success(value)
    else match LoadConfig(ConfigPath, read)
      case Failure(_) => Success(value)
      case Success(config) =>
        var reviews := Lookup(config, "reviews").value;
        if !reviews.JObject? then Failure(ReviewsNotAnObject)
        else
          var available := Keys(reviews.members);
          if value in available then Success(value)
          else Failure(BadParameter("'" + value + "' is not a valid area. Choose from: " + Join(available + ["full"], ", ")))
  }
}
