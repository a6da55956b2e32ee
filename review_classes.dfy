/**
 * The class-based variant of the review tool: the `ReviewState` store of review
 * times, the project processor, the payload of the review project, the per-project
 * triage of the guided review, and the configuration loader.
 */
module ReviewClasses {
  import opened Wrappers
  import opened IsoTime
  import opened Projects
  import opened Sorting
  import opened Ranking
  import opened Payload
  import opened ConfigDocs
  import opened ProjectTriage

  /** The review times of projects, keyed by project uuid, as `isoformat()` text. */
  class ReviewState {
    var entries: map<string, string>

    /** A store holding what the state file held (an empty map when it was missing or unreadable). */
    constructor (initial: map<string, string>)
      ensures entries == initial
    {
      entries := initial;
    }

    /**
     * `get_last_reviewed`: `None` exactly when there is no entry, the entry is empty,
     * or it does not parse; otherwise the parsed entry.
     */
    function GetLastReviewed(uuid: string): (r: Option<DateTime>)
      reads this
      ensures r.None? <==> uuid !in entries || entries[uuid] == "" || ParseIso(entries[uuid]).None?
      ensures r.Some? ==> r == ParseIso(entries[uuid])
    {
      LastReviewedIn(entries, uuid)
    }

    /**
     * `mark_reviewed`: store `isoformat()` of the given time, or of `now` when none is
     * given, under `uuid`, and change nothing else. `MarkedReadsBack` states what
     * `get_last_reviewed` then gives.
     */
    method MarkReviewed(uuid: string, timestamp: Option<DateTime>, now: DateTime)
      modifies this
      ensures entries == old(entries)[uuid := FormatIso(timestamp.GetOr(now))]
    {
      var t := if timestamp.None? then now else timestamp.value;
      entries := entries[uuid := FormatIso(t)];
    }

    /**
     * After `mark_reviewed(uuid, t)` (the store `entries` becomes `before` with `uuid`
     * set to `isoformat()` of `t`), `get_last_reviewed(uuid)` gives `t` back and every
     * other project reads as before.
     */
    lemma MarkedReadsBack(before: map<string, string>, uuid: string, t: DateTime)
      requires entries == before[uuid := FormatIso(t)]
      ensures GetLastReviewed(uuid) == Some(t)
      ensures forall other :: other != uuid ==> GetLastReviewed(other) == LastReviewedIn(before, other)
    {
      MarkThenLookup(before, uuid, t);
      forall other | other != uuid
        ensures GetLastReviewed(other) == LastReviewedIn(before, other)
      {
        UpdateKeepsOthers(before, uuid, FormatIso(t), other);
      }
    }

    /**
     * `unmark_reviewed`: drop the entry of `uuid`, if any. The project then reads as
     * never reviewed, no other entry changes, and an absent entry leaves the store as it was.
     */
    method UnmarkReviewed(uuid: string)
      modifies this
      ensures entries == old(entries) - {uuid}
      ensures GetLastReviewed(uuid) == None
      ensures forall other :: other != uuid ==> GetLastReviewed(other) == old(GetLastReviewed(other))
      ensures old(uuid !in entries) ==> entries == old(entries)
    {
      entries := entries - {uuid};
      UnmarkThenLookup(old(entries), uuid);
      forall other | other != uuid
        ensures GetLastReviewed(other) == old(GetLastReviewed(other))
      {
        UpdateKeepsOthers(old(entries), uuid, "", other);
      }
    }
  }

  /**
   * `ProjectProcessor.process_projects`: collect every item of every area, sort the
   * list in place by (last review or `datetime.min`, deadline or `datetime.max`), and
   * keep `all_projects[:limit]` when `limit` is truthy. The result is the ranking
   * whose order, stability and prefix are proved in `Ranking`.
   */
  method ProcessProjects(areas: seq<Area>, reviewState: ReviewState, limit: Option<int>)
    returns (projects: seq<ProjectInfo>)
    ensures projects == Ranked(areas, reviewState.entries, limit)
  {
    var all := CollectProjects(areas, reviewState.entries);
    var a := new ProjectInfo[|all|](i requires 0 <= i < |all| => all[i]);
    assert a[..] == all;
    SortProjects(a);
    projects := a[..];
    if limit.Some? && limit.value != 0 {
      projects := projects[..PrefixLength(|projects|, limit)];
    }
  }

  /**
   * `ReviewCreator.generate_payload`: a one-element list holding a project of kind
   * `project` with the given title and area, whose items are one `to-do` per project,
   * in order, titled after the project and linking to its uuid.
   */
  function GeneratePayload(projects: seq<ProjectInfo>, areaId: string, title: string): (docs: seq<ProjectDocument>)
    ensures |docs| == 1
    ensures docs[0].kind == "project"
    ensures docs[0].attributes.title == title && docs[0].attributes.areaId == areaId
    ensures |docs[0].attributes.items| == |projects|
    ensures forall i :: 0 <= i < |projects| ==>
      var item := docs[0].attributes.items[i];
      item.kind == "to-do" && item.attributes.title == projects[i].title
      && NoteUuid(item.attributes.notes) == Some(projects[i].uuid)
  {
    var refs := seq(|projects|, i requires 0 <= i < |projects| => projects[i].Ref());
    [ReviewProject(title, areaId, ChecklistItems(refs))]
  }

  /**
   * The prompts for the projects of one area in `_step_review_projects`: `q` ends the
   * step, `d` marks the project reviewed at the time of the answer and counts it, and
   * anything else moves on; running out of `answers` ends it as `input` would, by
   * raising. The store, the counters and the stop are those of `RunArea`.
   */
  method ReviewArea(reviewState: ReviewState, projects: seq<ProjectInfo>, answers: seq<Answer>,
                    total: nat, reviewed0: nat, used0: nat)
    returns (reviewed: nat, used: nat, stop: Stop)
    requires used0 <= |answers|
    modifies reviewState
    ensures Outcome(Session(reviewState.entries, total, reviewed, used), stop)
      == RunArea(Session(old(reviewState.entries), total, reviewed0, used0), projects, 0, answers, FormatIso)
  {
    reviewed, used := reviewed0, used0;
    var j := 0;
    while j < |projects|
      invariant 0 <= j <= |projects|
      invariant used <= |answers|
      invariant RunArea(Session(reviewState.entries, total, reviewed, used), projects, j, answers, FormatIso)
        == RunArea(Session(old(reviewState.entries), total, reviewed0, used0), projects, 0, answers, FormatIso)
    {
      if used == |answers| {
        return reviewed, used, OutOfInput;
      }
      ghost var before := Session(reviewState.entries, total, reviewed, used);
      var action := Classify(answers[used].text);
      var at := answers[used].at;
      used := used + 1;
      if action == Quit {
        return reviewed, used, QuitRequested;
      } else if action == Done {
        reviewState.MarkReviewed(projects[j].uuid, None, at);
        reviewed := reviewed + 1;
      }
      assert Session(reviewState.entries, total, reviewed, used) == Respond(before, projects[j].uuid, answers[before.used], FormatIso);
      j := j + 1;
    }
    stop := Finished;
  }

  /**
   * One configured area of `_step_review_projects` whose fetch succeeded: rank its
   * projects with the store as it is now, add their number to the total, and prompt for
   * each. The store, counters and stop are those of `ReviewFetch`.
   */
  method ReviewFetchedArea(reviewState: ReviewState, areas: seq<Area>, answers: seq<Answer>,
                           total0: nat, reviewed0: nat, used0: nat)
    returns (total: nat, reviewed: nat, used: nat, stop: Stop)
    requires used0 <= |answers|
    modifies reviewState
    ensures Outcome(Session(reviewState.entries, total, reviewed, used), stop)
      == ReviewFetch(Session(old(reviewState.entries), total0, reviewed0, used0), Fetched(areas), answers, RankAll, FormatIso)
  {
    var projects := ProcessProjects(areas, reviewState, None);
    total := total0 + |projects|;
    reviewed, used, stop := ReviewArea(reviewState, projects, answers, total, reviewed0, used0);
  }

  /**
   * `GTDReviewer._step_review_projects` over the store of the `GTDReviewer`, `reviewState`: for
   * each configured area (its fetch outcome in `fetches`; a failed fetch is reported and
   * passed over), rank its projects with the store as it is now, add their number to
   * the total, and prompt for each; `q` returns from the whole step. The final store,
   * counters and stop are those of `Triage`, whose properties are proved with it.
   */
  method StepReviewProjects(reviewState: ReviewState, fetches: seq<Fetch>, answers: seq<Answer>)
    returns (total: nat, reviewed: nat, used: nat, stop: Stop)
    modifies reviewState
    ensures Outcome(Session(reviewState.entries, total, reviewed, used), stop)
      == Triage(Session(old(reviewState.entries), 0, 0, 0), fetches, 0, answers, RankAll, FormatIso)
  {
    total, reviewed, used := 0, 0, 0;
    var i := 0;
    while i < |fetches|
      invariant 0 <= i <= |fetches|
      invariant used <= |answers|
      invariant Triage(Session(reviewState.entries, total, reviewed, used), fetches, i, answers, RankAll, FormatIso)
        == Triage(Session(old(reviewState.entries), 0, 0, 0), fetches, 0, answers, RankAll, FormatIso)
    {
      if fetches[i].FetchFailed? {
        i := i + 1;
        continue;
      }
      total, reviewed, used, stop := ReviewFetchedArea(reviewState, fetches[i].areas, answers, total, reviewed, used);
      if stop != Finished {
        return;
      }
      i := i + 1;
    }
    stop := Finished;
  }

  /** The exceptions `load_config` raises. */
  datatype LoadError = FileNotFoundError(message: string) | ValueError(message: string)

  /**
   * `load_config` over what reading `path` gave: a missing file raises
   * `FileNotFoundError`, text that is not JSON and a missing or empty `reviews`
   * section raise `ValueError`, and otherwise the decoded document is returned as is.
   */
  function LoadConfig(path: string, read: ConfigRead): (r: Result<seq<(string, Json)>, LoadError>)
    ensures r.Success? <==> read.Parsed? && HasReviews(read.document)
    ensures r.Success? ==> r.value == read.document
    ensures read.FileMissing? ==> r == Failure(FileNotFoundError(path + " file not found"))
    ensures read.MalformedJson? ==> r == Failure(ValueError("Invalid JSON in config file: " + read.detail))
    ensures read.Parsed? && !HasReviews(read.document) ==>
      r == Failure(ValueError("Missing or empty 'reviews' key in config"))
  {
    match read
    case FileMissing => Failure(FileNotFoundError(path + " file not found"))
    case MalformedJson(detail) => Failure(ValueError("Invalid JSON in config file: " + detail))
    case Parsed(document) =>
      if !HasReviews(document) then Failure(ValueError("Missing or empty 'reviews' key in config"))
      else Success(document)
  }
}
