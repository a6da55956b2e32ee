# things-review-py, modelled in Dafny

`things-review-py` is a command-line helper for the weekly review of projects kept in
the Things task manager. Under its prompts, terminal styling and calls into the Things
database sits a small deterministic core, present twice: in a class-based variant
(`review_classes.py`) and a function-based variant (`review.py`). This project models
that core and proves what it does:

- **Review state**: a map from project uuid to the `isoformat()` text of the last review.
  - `ReviewClasses.ReviewState` is a class over that map with
    `get_last_reviewed` / `mark_reviewed` / `unmark_reviewed`.
  - `review.py` keeps the same map as a plain dictionary, passed in and returned.
  - Time stamps are naive date-times (`IsoTime.DateTime`), compared field by field as
    Python compares them.
  - `isoformat()` and the accepted part of `fromisoformat()` are written out as a
    layout renderer and scanner, and the round trip is proved.
- **Project ranker** (`process_projects` in both variants):
  - flattens the items of the areas and resolves each item's review time and deadline;
  - sorts stably by `(last_reviewed or datetime.min, deadline or datetime.max)`, with an
    insertion sort over an array;
  - keeps `[:limit]` when `limit` is truthy.

  The key follows the code literally. A project never reviewed ranks as reviewed at
  `datetime.min`, so it ties with one stored as reviewed at `0001-01-01T00:00:00`.
- **Payload builder** (`generate_payload` / `generate_review_payload`): the Things
  "create project" document, one `to-do` per project whose note links to that
  project's uuid.
- **Mark-all-then-roll-back** (`main` in `review.py`): every included project is
  stamped with one time. Then the entries at the 1-based positions the user lists are
  put back as they were, or dropped when there was none.
- **Per-project triage** of the guided review's "review project lists" step, in both
  variants. Each configured area's fetch outcome is an input. The area's projects are
  ranked against the state as it is at that moment. Then each reply is dispatched:
  - `d` stamps the project with the reply's time and counts it;
  - `s` and anything else move on;
  - `q` ends the whole step.

  The functions `ProjectTriage.Triage` / `RunArea` define the step, and both loops are
  proved equal to them.
- **Configuration checks**: `load_config` (both variants), classified over what reading
  the file gave, and `validate_area_choice`.

Modules, in dependency order:
- `Wrappers`
- `Text`: the ASCII string operations the code uses
- `IsoTime`
- `Projects`: records, keys and stored-time lookup
- `Sorting`: the stable sort and its array method
- `Ranking`
- `Payload`
- `ConfigDocs`: the decoded JSON document
- `ProjectTriage`: the specification of the triage step
- `ReviewClasses`: `review_classes.py`
- `Review`: `review.py`

## Model

| member | source | states |
|---|---|---|
| Text.Lower | review_classes.py:453 | `.lower()` keeps the length and lower-cases each character independently |
| Text.LowerIsLetter | review_classes.py:453-458 | a reply lower-cases to a given letter exactly when it is that letter in either case |
| Text.TrimStart | review.py:503 | the leading run of whitespace (space, `\t`–`\r`, `\x1c`–`\x1f`) is removed, and only that |
| Text.TrimEnd | review.py:503 | the trailing run of whitespace (space, `\t`–`\r`, `\x1c`–`\x1f`) is removed, and only that |
| Text.Strip | review.py:503 | `.strip()` leaves no whitespace at either end |
| Text.StripSlice | review.py:503 | `.strip()` is a slice of the reply with only whitespace cut away before and after it |
| Text.StripEmptyIff | review.py:503 | a reply strips to the empty string exactly when it is all whitespace (the "press Enter" case) |
| Text.Split | review.py:505 | `.split(',')` yields at least one part, none containing the separator |
| Text.SplitJoin | review.py:505 | joining the parts of `.split(',')` with `,` gives the reply back |
| Text.ParseInt | review.py:505 | `int(token)` succeeds exactly on one or more digits, optionally after one `+` or `-` |
| Text.ParseIntValue | review.py:505 | the value `int` reads is the digits' decimal value, negated after a `-` |
| Text.ParseIntOfDigits | review.py:505 | `int()` reads a zero-padded decimal numeral as its value |
| Text.DigitChar | review_classes.py:170 | a digit written by `isoformat()` is read back as its value |
| Text.PadDigits | review_classes.py:170 | a zero-padded field of `isoformat()` has exactly its width, all digits |
| Text.PadDigitsValue | review_classes.py:157 | reading a zero-padded field gives back the number written |
| IsoTime.BeforeIsLexicographic | review_classes.py:239-242 | `<` on date-times compares the field tuple (year, month, day, hour, minute, second, microsecond) lexicographically, as Python does |
| IsoTime.BeforeIsStrictTotalOrder | review_classes.py:239-242 | `<` on naive date-times is irreflexive, transitive and total |
| IsoTime.MinMaxBound | review_classes.py:240-241 | `datetime.min` is at or before and `datetime.max` at or after every date-time |
| IsoTime.Render | review_classes.py:170 | writing numbers in a layout gives text exactly as wide as the layout |
| IsoTime.FormatIso | review_classes.py:170 | `isoformat()` writes 19 characters, or 26 when the microseconds are not zero |
| IsoTime.ScanRender | review_classes.py:157 | scanning text a layout wrote gives back exactly the numbers written |
| IsoTime.ParseIso | review_classes.py:157 | `fromisoformat` succeeds only on texts of one of the three accepted lengths (10, 19, 26) |
| IsoTime.ParseFormatRoundTrip | review_classes.py:157-170 | `fromisoformat(d.isoformat()) == d` for every date-time |
| IsoTime.FormatIsoNonEmpty | review_classes.py:153 | `isoformat()` is never empty, so a stored mark is never taken for "no entry" |
| Projects.LastReviewedIn | review_classes.py:152-159 | a looked-up review time comes from a present entry that parses to it |
| Projects.MarkThenLookup | review_classes.py:161-170 | after storing `isoformat()` of `t` under a uuid, the lookup gives `t` |
| Projects.UpdateKeepsOthers | review_classes.py:170-179 | writing or removing one entry leaves every other project's lookup unchanged |
| Projects.UnmarkThenLookup | review_classes.py:172-179 | after removal the project reads as never reviewed; removing again, or removing an absent entry, changes nothing |
| Projects.ResolveDeadline | review_classes.py:220-225 | a resolved deadline comes from a present deadline text that parses to it; missing, empty and unparsable give `None` |
| Projects.ResolveDeadlineIsNotNoneForm | review.py:126-133 | testing `is not None` instead of truthiness resolves every deadline alike |
| Projects.ResolveFormattedDeadline | review_classes.py:221-223 | a deadline written by `isoformat()` resolves to that date-time |
| Projects.ResolveItemsAt | review_classes.py:217-236 | one `ProjectInfo` per item, in item order, carrying its title, uuid, deadline and review time |
| Projects.CollectProjects | review_classes.py:215-236 | the nested loops build exactly the item-by-item resolution of all areas |
| Projects.KeyOfDefaults | review_classes.py:239-242 | the sort key holds the stored review time and deadline; a missing review time sorts at or before every project's, a missing deadline at or after every project's |
| Projects.KeyLeTotal | review_classes.py:239-242 | `<=` on sort keys is reflexive, total and antisymmetric |
| Projects.KeyLeTransitive | review_classes.py:239-242 | `<=` on sort keys is transitive |
| Sorting.InsertMultiset | review_classes.py:239 | inserting adds exactly the one element |
| Sorting.SortedSnoc | review_classes.py:239 | appending an element at or above all others keeps a sequence sorted |
| Sorting.InsertSorted | review_classes.py:239 | inserting into a sorted sequence keeps it sorted |
| Sorting.InsertWithKey | review_classes.py:239 | inserting appends the element after all elements with an equal key (stability) |
| Sorting.InsertAlike | review.py:148 | inserting records that agree on key, title and uuid gives results that agree likewise |
| Sorting.SortAlike | review.py:148 | sorting sequences that agree on keys, titles and uuids gives results that agree likewise |
| Sorting.SortByKeyProperties | review_classes.py:239-242 | the sort is sorted, a permutation, length-preserving and stable per key |
| Sorting.InsertAt | review_classes.py:239 | insertion puts the element after the last element whose key is at or below its key |
| Sorting.InsertStep | review_classes.py:239 | one in-place insertion step inserts `a[i]` into the sorted prefix and leaves the rest unchanged |
| Sorting.SortProjects | review_classes.py:239-242 | `list.sort` in place: the array ends as the stable sort of its old contents |
| Ranking.PrefixLength | review_classes.py:244-245 | a positive limit keeps `min(limit, n)` projects; `None` or `0` keeps all; a negative limit drops `|limit|` from the end, as a slice does; never more than `n` |
| Ranking.RankedIsPermutationOfItems | review_classes.py:215-242 | without a limit, one result per item, a permutation of the item-by-item resolution |
| Ranking.UnlimitedIsSorted | review_classes.py:239-245 | without a limit the result is the whole sorted list |
| Ranking.RankedIsSortedAndStable | review_classes.py:217-242 | the result is sorted by key, and projects sharing a key keep the area-then-item order |
| Ranking.RankedOrder | review_classes.py:239-242 | older reviews first; never-reviewed ones first; on equal review times earlier deadlines first and undated last |
| Ranking.RankedLimitIsPrefix | review_classes.py:244-245 | a limited result is a prefix of the unlimited one, of length `min(limit, n)` for a positive limit, complete for `None`/`0` |
| Payload.LinkNote | review_classes.py:275 | the note is `[Link](things:///show?id=` + uuid + `)`, and the uuid is read back from it |
| Payload.ChecklistItems | review_classes.py:270-279 | one `to-do` per project, in order, titled after it and linking to its uuid |
| Payload.ChecklistRoundTrip | review.py:169-178 | the projects can be read back from the items, exactly and in order |
| ConfigDocs.Lookup | review.py:82 | `config.get(key)` finds a value exactly when a member has that name, and the value is that of the last member with the name |
| ConfigDocs.Keys | review.py:98 | `list(d.keys())` lists each member name exactly once, in order of first appearance |
| ConfigDocs.HasReviews | review.py:82 | the `reviews` check passes exactly when the last member named `reviews` holds a truthy value |
| ProjectTriage.LowerDispatch | review_classes.py:453-466 | the dispatch equals the `q` / `d` / `s` chain on the lower-cased reply |
| ProjectTriage.ClassifyLetters | review_classes.py:453-466 | `q`, `d`, `s` are recognised in either case, and nothing else is |
| ProjectTriage.RunArea | review_classes.py:435-466 | the prompts of one area read answers forward only, within those given |
| ProjectTriage.ReviewFetch | review_classes.py:424-466 | one configured area reads answers forward only, within those given |
| ProjectTriage.Triage | review_classes.py:421-469 | the whole step reads answers forward only, within those given |
| ProjectTriage.CountDoneSplit | review_classes.py:460 | the `d` count over consecutive runs of answers adds up |
| ProjectTriage.CountDoneZero | review_classes.py:458-460 | no `d` among the answers read means a count of zero, and conversely |
| ProjectTriage.RespondMarks | review_classes.py:458-460 | a `d` reply stamps the project asked about with the reply's time; any other reply leaves every entry as it was |
| ProjectTriage.RankAllKeepsItems | review_classes.py:426 | the ranking yields one project per item, each with the uuid of an item |
| ProjectTriage.RunAreaCounts | review_classes.py:435-466 | one count per `d`; a finished area reads one answer per project; it stops out of input only with every answer read |
| ProjectTriage.RunAreaQuit | review_classes.py:453-457 | no answer before the last is `q`, and the area stops on `q` exactly when the last answer read is `q` |
| ProjectTriage.TriageCounts | review_classes.py:421-469 | the count is the number of `d` replies; a run not stopped reads one answer per fetched item and counts every item in the total |
| ProjectTriage.TriageQuit | review_classes.py:453-457 | `q` ends the whole step, and is never read before the last answer |
| ProjectTriage.TriageAsked | review_classes.py:421-466 | one project asked about per answer read |
| ProjectTriage.LastDoneNone | review_classes.py:458-460 | there is a last `d` for a project exactly when some answer was a `d` for it |
| ProjectTriage.LastDoneAt | review_classes.py:458-460 | the last `d` for a project is the `d` for it that no later `d` for it follows |
| ProjectTriage.LastDoneAppend | review_classes.py:421-466 | over two runs of answers the later run's last `d` wins, else the earlier run's |
| ProjectTriage.RunAreaMarks | review_classes.py:435-466 | after an area each uuid holds the stamp of the last `d` given for that project, or its entry from before when it got none |
| ProjectTriage.TriageMarks | review_classes.py:421-469 | after the step each uuid holds the stamp of the last `d` given for that project, or its entry from before when it got none |
| ProjectTriage.TriageAskedFetched | review_classes.py:421-466 | every project asked about belongs to a fetched area |
| ProjectTriage.TriageSummary | review.py:285-339 | the tool's step: reviewed = number of `d`; `q` stops everything at once; input runs out only when exhausted; a full run reads one answer per fetched item, totals them, and the projects it asks about are, counted with repeats, exactly the fetched items' uuids |
| ProjectTriage.TriageMarksSummary | review.py:317-329 | the tool's step leaves under each uuid `isoformat()` of the last `d` given for that project, or its entry from before when it got none |
| ProjectTriage.TriageAskedAll | review_classes.py:421-466 | for any ranking that permutes the items, an unstopped step asks about each fetched item once: the asked uuids are a permutation of the fetched items' uuids |
| ProjectTriage.RankAllPermutesItems | review_classes.py:215-245 | the tool's ranking permutes the items of the areas: its uuids are theirs, each as often |
| ProjectTriage.TriageAskedSummary | review.py:285-329 | the tool's step reads one answer per project asked about, each from a fetched area |
| ProjectTriage.TriageDoneMarks | review.py:321-323 | a `d` that no later `d` for the same project follows leaves that project stamped with `isoformat()` of its time |
| ProjectTriage.TriageStateSummary | review.py:317-329 | without a `d` the state is unchanged; unfetched projects are untouched |
| ReviewClasses.ReviewState.constructor | review_classes.py:108-111 | the store starts with the map that loading produced |
| ReviewClasses.ReviewState.GetLastReviewed | review_classes.py:145-159 | `None` exactly when the entry is absent, empty or unparsable; otherwise the parsed entry |
| ReviewClasses.ReviewState.MarkReviewed | review_classes.py:161-170 | only the entry of `uuid` changes, to `isoformat()` of the given time or of `now` |
| ReviewClasses.ReviewState.MarkedReadsBack | review_classes.py:161-170 | after a mark, `get_last_reviewed` gives the marked time back and every other project reads as before |
| ReviewClasses.ReviewState.UnmarkReviewed | review_classes.py:172-179 | only the entry of `uuid` is removed; it then reads as never reviewed; others unchanged; absent means no-op |
| ReviewClasses.ProcessProjects | review_classes.py:208-247 | the result is the ranking: sorted, stable, a permutation of the items, cut to the limit's prefix |
| ReviewClasses.GeneratePayload | review_classes.py:258-282 | a one-element list: a `project` with the given title and area, one linked `to-do` per project, in order |
| ReviewClasses.ReviewArea | review_classes.py:435-466 | the prompt loop leaves the store, counters and stop that `RunArea` specifies |
| ReviewClasses.ReviewFetchedArea | review_classes.py:425-466 | one fetched area is ranked against the current store, totalled and triaged as `ReviewFetch` specifies |
| ReviewClasses.StepReviewProjects | review_classes.py:413-469 | the step leaves the store, counters and stop of `Triage` with the tool's ranking and `isoformat()` |
| ReviewClasses.LoadConfig | review_classes.py:544-564 | missing file: `FileNotFoundError`; bad JSON, or a missing or empty `reviews` section: `ValueError`; otherwise the document unchanged |
| Review.Refs | review.py:150 | the `{title, uuid}` pairs of the projects, in order |
| Review.RecordsAlike | review.py:123-147 | this variant's records agree with the class variant's on sort key, title and uuid |
| Review.CollectRecords | review.py:123-147 | the nested loops build one record per item in order |
| Review.RecordsRankLikeRanked | review.py:148-150 | sorting and cutting this variant's records gives the titles and uuids of the class variant's ranking |
| Review.ProcessProjects | review.py:118-150 | the result is the titles and uuids of the ranking: sorted, stable, a permutation of the items, cut to the limit's prefix |
| Review.GenerateReviewPayload | review.py:152-181 | a one-element list: a `project` with the given title and area, one linked `to-do` per project, from which the projects are read back |
| Review.Get | review.py:480 | `review_state.get(uuid)` is present exactly when the key is, with its value |
| Review.ParseTokens | review.py:505 | the comprehension succeeds exactly when every stripped token is an integer, and gives them in order |
| Review.ListedIndices | review.py:503-509 | a blank reply or a non-integer token lists nothing; otherwise exactly the numbers given, each once |
| Review.MarkAll | review.py:477-481 | every included project is stamped; others are unchanged; with distinct uuids the remembered entries are the ones from before |
| Review.RollBack | review.py:508-516 | only included projects change; with distinct uuids a listed position regains its remembered entry (or loses it) |
| Review.MarkAllThenRollback | review.py:477-516 | not included: unchanged; with distinct uuids, listed: the entry from before (or none), not listed: the current time |
| Review.AnswerProject | review.py:317-329 | one prompt reads exactly one answer; `q` quits with the dictionary and count unchanged; otherwise the dictionary and count are `Respond`'s (`d` stamps the project and counts it, anything else changes neither) |
| Review.ReviewAreaProjects | review.py:301-329 | the prompt loop over the dictionary leaves the state, counters and stop that `RunArea` specifies |
| Review.ReviewFetchedProjects | review.py:289-329 | one fetched area is ranked against the current dictionary, totalled and triaged as `ReviewFetch` specifies |
| Review.PerformProjectReview | review.py:285-339 | the step leaves the dictionary, counters and stop of `Triage` with the tool's ranking and `isoformat()` |
| Review.LoadConfig | review.py:66-84 | missing file: `MissingConfigError`; bad JSON, or a missing or empty `reviews` section: `InvalidConfigError`; otherwise the document unchanged |
| Review.ValidateAreaChoice | review.py:86-104 | `full` and an unloadable configuration are accepted; with an object `reviews` section any other value is accepted exactly when it is one of its names, and otherwise rejected with `BadParameter` listing the names then `full`; a `reviews` section that is not an object fails on `.keys()` |

## Left out

- File I/O. Loading and saving the state file are not modelled (`ReviewState.load/save`, `load_review_state`/`save_review_state`); the store starts from a given map. Nor are the file reads in `load_config`; their outcome (missing, not JSON, decoded object) is an input.
- JSON decoding and `json.dump`; a configuration that decodes to something other than an object is not modelled.
- The Things database (`things.areas`, `fetch_areas`). It is a library outside the repository, so each configured area's fetch outcome is an input.
- `webbrowser.open`, `urllib.parse.quote`, `json.dumps` of the payload and the `things:///json?data=` URL: foreign calls and serialisation.
- Console output and prompts. Replies are an input sequence of (text, clock reading) pairs. End of input, where `input` would raise `EOFError`, is the `OutOfInput` stop. The class variant's `q` returns before printing the summary; only the printing differs.
- GTD steps 1–5 and 7–10: prompt-and-acknowledge only.
- `datetime.now()`: it becomes the clock reading of each reply in the triage and the `currentIso` text in the mark-all update.
- `isocalendar()`, the user-supplied `title_format`, and the "next scheduled review" date. In `review.py` the last one would raise `AttributeError` at `datetime.timedelta`.
- The rest of `GTDReviewer`: constructor, step sequencing, and the `ReviewConfig` parsing of the configuration.
- Timezone-aware date-times and the rest of the `fromisoformat` grammar.
- IsoTime.ParseIso: accepts only naive `YYYY-MM-DD`, `YYYY-MM-DD[T| ]HH:MM:SS` and `YYYY-MM-DD[T| ]HH:MM:SS.ffffff`, a subset of Python's `fromisoformat`. Every text `isoformat()` writes is accepted.
- Text.Lower and Text.Strip: ASCII only. Python's `lower()` and `strip()` also handle non-ASCII letters and non-ASCII whitespace; the ASCII whitespace `strip()` removes (space, `\t`–`\r`, `\x1c`–`\x1f`) is modelled.
- Text.ParseInt: accepts an optional sign and ASCII digits only. The `int()` forms with underscores or non-ASCII digits are not modelled.
- Review.MarkAllThenRollback: the closed form is stated only for distinct uuids. With a repeated uuid, the second pass at `review.py:480` would remember the freshly written `current_iso`. The frame for projects not included holds regardless.
- Review.MarkAll, Review.RollBack, Review.MarkAllThenRollback, Review.ReviewAreaProjects and Review.PerformProjectReview: `review.py` updates the caller's `review_state` dictionary in place (`review.py:322`, `review.py:481`, `review.py:513-516`); here it is a map value passed in and returned, so aliasing of that dictionary is not modelled.
- ReviewClasses.ReviewState.MarkReviewed: its contract states the new map; the read-back through `get_last_reviewed` is the separate lemma `MarkedReadsBack`.
- ProjectTriage.RunArea, ProjectTriage.ReviewFetch and ProjectTriage.Triage: their own contracts only bound the answers read. What the step does is stated by the lemmas about them (`RunArea*`, `Triage*`, `RespondMarks`, `TriageMarksSummary`, `TriageDoneMarks`, `TriageStateSummary`).
