# LoadShedding, modelled in Dafny

LoadShedding turns two inputs into a list of outage windows for one
electricity zone. The first is the live, city-wide load-shedding timeline: stages with a
level, a start and an end. The second is the static zone table: for each day of the month, the rules
saying which zones are shed at which level and time. This project models
the core of that program and proves what it does:

- the resolution step of `main.py`. It rolls over ends that are not after
  their start and splits multi-day stages into one piece per day. It keeps the
  pieces that are still active and queries the static index for each one.
  It admits candidates that lie inside the live window, dropping any with a
  start and end already seen. Then it merges overlapping neighbours and sorts
  by start;
- the two interval merges (`merge_stages`, `merge_all_stages`), both from
  one scan specification, `Classes.ScanFrom`;
- the static zone index `ZoneStageMap` and the day-group expansion
  `process_static_zones` that fills it;
- the structural mapper of `serializer.py`: `getClassSignature`,
  `register`, `unmap` and `remap` over a tree of values, including the
  `load` hook of `Stage` and the registrations the classes make;
- the small helpers: `get_line`, `find_line`, `replace_all`,
  `process_raw_row`, `Lst.first` / `Lst.last` and `get_date`.

Timestamps are `Time.Timestamp(day, micro)`: the day of one month and the
microsecond of that day. `time.max` is `TimeMax` (23:59:59.999999). The
stage key `"{:00}-{}".format(number, str(start))` is modelled as
`IntText(number) + "-" + StampText(start)`. `StampText` is `str(datetime)`
without the year and month, which every timestamp of one month shares.
Sorting by key (`stage_sort`) is `Sorting.SortBy` with Python's string `<`,
and `StampTextOrder` proves that the rendering orders like the timestamps.
Python's stable `list.sort` is an insertion sort over a strict order.

The modules follow the source files:

- `main.dfy` (module `LoadShedding`) holds `main.py`'s resolution,
  splitting, merging and static zones, with a `Program` class for the
  globals `schedules` and `static_zones`.
- `helpers.dfy` (`Helpers`) holds `main.py`'s text and row helpers.
- `classes.dfy` (`Classes`) holds `classes.py`.
- `serializer.dfy` (`Serializer`) holds `serializer.py`.
- `extensions.dfy` (`Extensions`) holds `extensions.py`.
- `text.dfy`, `time.dfy`, `sorting.dfy`, `values.dfy` and `wrappers.dfy`
  hold the Python semantics the others rely on. These are string order and
  `str()` of numbers, `datetime`, `list.sort`, the value tree and
  `Result` / `Option`.

Code that changes state step by step is imperative Dafny:

- The merge loops, the day splitter, `replace_all`, `find_line`,
  `process_raw_row` and the resolution block are methods with loop
  invariants. Each is proved equal to a specification function.
- `ZoneStageMap`, `Serializer` and the program's globals are classes whose
  methods state their new state.

The properties are proved about the functions, as lemmas.

## Model

| member | source | states |
|---|---|---|
| Classes.MergeAllStages | src/classes.py:39-58 | the scan loop (merge positions i and i+1 when the next start is not after the current end and the numbers are equal, else advance) returns exactly the same-number merge of the input |
| LoadShedding.MergeStages | src/main.py:286-305 | the scan loop that merges any overlapping neighbours returns exactly the level-blind merge of the input |
| Classes.MergeShape | src/main.py:287-305 | for either merge rule: a list shorter than 2 comes back unchanged; the result is never longer; no adjacent pair of the result still meets the merge condition; a list already in that state is returned as is; merging twice gives what merging once gives |
| Classes.ScanSettles | src/classes.py:46-56 | a scan that starts at an index below which no neighbour pair meets the condition ends with no such pair anywhere |
| Classes.ScanOfSettled | src/classes.py:46-56 | the scan changes nothing on a list with no pair left to merge (idempotence) |
| Classes.ScanLength | src/classes.py:46-56 | the scan never lengthens the list and leaves a non-empty list non-empty |
| Classes.MergeProvenance | src/main.py:296-301 | every merged stage is some input stage with its end replaced by the end of an input stage (of the same level, for the same-level merge): number, start and key come from the first |
| Classes.ComposedStep | src/main.py:296-301 | replacing positions i and i+1 by their join keeps every stage an input stage with an input stage's end |
| Classes.MergeCanShrink | src/classes.py:49-54 | a merge can shorten coverage: a stage 00:00-10:00 followed by one 02:00-05:00 of the same level merges into 00:00-05:00 |
| Classes.MergeCanInvert | src/main.py:285-301 | `merge_stages` joins any adjacent pair whose second start is not after the first end, whatever their order: a level-2 window 16:00-18:00 followed by a level-4 window 08:00-10:00 merges into a level-2 window ending at 10:00, before its start |
| Classes.KeyOrder | src/classes.py:19-20 | for levels 0 to 9 and well-formed starts, key order is (number, start) order, and two keys are equal exactly when number and start are |
| Classes.KeyOrderPastNine | src/classes.py:19-20 | from level 10 on, key order is not numeric order: the key of level 10 sorts before the key of level 2 |
| Classes.KeyLessStrict | src/classes.py:35-36 | comparing stages by key is a strict order, so sorting by key is well defined |
| Classes.ScanKeepsKeyOrder | src/classes.py:122-124 | merging a list sorted by key leaves it sorted by key |
| Time.StampTextOrder | src/classes.py:20 | `str(datetime)` renderings within one month compare as strings exactly as the timestamps compare in time, and are equal exactly when the timestamps are |
| Classes.ZoneStageMap.AddZoneStage | src/classes.py:107-115 | the index afterwards is the old one with the rule appended to that day's list, which is created on first use |
| Classes.WithRuleEffect | src/classes.py:107-115 | after adding, the day is present, its list is one longer, ends with the rule and keeps the old list as its prefix; every other day keeps its presence and its list |
| Classes.ZoneStageMap.GetForDayAndZone | src/classes.py:117-125 | KeyError exactly when the day was never added. Otherwise every returned stage has a level at most the ceiling and its key made from number and start. It starts and ends on the date, its start from a stored rule of its level whose zone list holds the zone, and its end from another such rule. The result is sorted by key with no same-level overlap left |
| Classes.Query | src/classes.py:117-118 | the query succeeds exactly when the day is in the index, and fails with KeyError otherwise |
| Classes.CandidatesExact | src/classes.py:119-121 | a stage is a candidate exactly when some stored rule admits the zone and the ceiling and projects to it; there are never more candidates than rules |
| Classes.QueryDayProperties | src/classes.py:119-124 | every queried stage starts and ends on the date at the times of rules of its level that admit the zone and the ceiling; the day's result is sorted by key and has no same-level overlap left |
| Classes.QueryDayFromRules | src/classes.py:119-124 | every stage in a day's result comes from the rules of that day |
| Classes.QueryDayOrdered | src/classes.py:122-124 | a day's result is sorted by key and settled for the same-level merge |
| Classes.LoadProperties | src/classes.py:25-29 | `load` fails with KeyError without "number"; it succeeds only with "start_time" and "end_time" present; a loaded stage's key is made from its number and start |
| Classes.LoadOwnAttrs | src/classes.py:25-29 | loading a stage's own attributes gives that stage back |
| Classes.ToInt | src/classes.py:26 | `int()`: an int comes back as is; a string parses through the given parser; anything that is not an int, bool or string is a TypeError |
| Extensions.GetDate | src/extensions.py:5-6 | a datetime comes back unchanged; a string goes through `fromisoformat`; anything else is a TypeError |
| Extensions.First | src/extensions.py:16-19 | None exactly for an empty list, otherwise element 0 |
| Extensions.Last | src/extensions.py:11-14 | None exactly for an empty list, otherwise the element at len-1 |
| Extensions.AppendEnds | src/extensions.py:11-19 | after an append, `last()` is the appended element and `first()` of a non-empty list is unchanged |
| LoadShedding.SplitMultiDay | src/main.py:266-281 | the `while True` loop that advances the day, start and end produces exactly the pieces of the day split |
| LoadShedding.Program.SplitCurrentSchedules | src/main.py:260-283 | `schedules` becomes the concatenation, in input order, of the split of each stage |
| LoadShedding.SplitShape | src/main.py:263-265 | a stage whose start and end share a day number is kept as it is |
| LoadShedding.SplitAllSameDay | src/main.py:263-265 | a timeline of same-day stages is left exactly as it is |
| LoadShedding.SplitAllAppend | src/main.py:263 | splitting a concatenation splits each part in turn, so input order is preserved |
| LoadShedding.MultiDayShape | src/main.py:266-281 | a stage over n days becomes n same-level pieces. The first starts at the original start, the others at midnight. Piece i lies on day start+i, with start not after end. Every piece but the last ends at 23:59:59.999999 and the last one at the original end. An end at exactly midnight gives a zero-length last piece |
| LoadShedding.LaterPiecesShape | src/main.py:271-281 | the pieces after the first cover consecutive days from midnight to the end of each day, the last cut at the stage's end |
| LoadShedding.RolledOver | src/main.py:362-364 | an end not after the start gets one day added; other stages are unchanged; number, start and key never change, and a same-day stage ends after its start afterwards |
| LoadShedding.Program.RollOverSchedules | src/main.py:362-364 | every schedule is rolled over in place, in order |
| LoadShedding.ParsedStage | src/main.py:440-443 | a parsed stage starts on its date; its end moves to the next day only when the end clock is strictly before the start clock, so its end is never before its start |
| LoadShedding.RollOverDiffers | src/main.py:442-443 | the parse-time rollover (strict `<`) and the resolution step's rollover (`<=`, line 363) disagree on an end equal to the start: parsing leaves a zero-length stage, the resolution step makes it last a day |
| LoadShedding.ActiveFrom | src/main.py:369 | a piece is kept exactly when it is in the input and its end is not before now |
| LoadShedding.AdmitShape | src/main.py:378-384 | only candidates inside the window are appended, after what was there; no two admitted stages share start and end; every candidate inside the window has an admitted stage with its span |
| LoadShedding.DedupIgnoresLevel | src/main.py:381-384 | of two candidates with the same start and end, only the first is admitted, whatever their levels |
| LoadShedding.AdmitCandidates | src/main.py:378-384 | the inner loop appends exactly what the admission function admits |
| LoadShedding.GatherErrors | src/main.py:372-376 | gathering fails exactly when some lookup fails, and with the error of a failing lookup |
| LoadShedding.GatherSound | src/main.py:372-384 | a gathered list has no two stages with the same span, and each of its stages lies inside an active piece and was returned by that piece's lookup |
| LoadShedding.GatherComplete | src/main.py:372-384 | every candidate inside its piece is represented in the gathered list by a stage with its span |
| LoadShedding.GatherStops | src/main.py:374 | the first failing lookup decides the outcome of the whole loop |
| LoadShedding.Program.GatherStages | src/main.py:371-384 | the outer loop over the active pieces returns exactly the gathered list, or the KeyError of the index |
| LoadShedding.Program.Resolve | src/main.py:362-392 | `schedules` becomes the split of the rolled-over timeline, and the result is exactly the resolution function of the index, zone, day and old timeline |
| LoadShedding.ResolutionErrors | src/main.py:369-376 | resolution fails, with KeyError, exactly when some active piece ends on a day the index does not hold |
| LoadShedding.ResolutionOk | src/main.py:386-392 | a successful result is sorted by start and no longer than the gathered list. Each of its windows is a gathered stage with its end taken from a gathered stage |
| LoadShedding.FinishProperties | src/main.py:386-392 | merging and then sorting by start keeps the merged stages, sorts them by start and never lengthens the list |
| LoadShedding.ResolutionSources | src/main.py:372-392 | every result window is the join of two gathered stages, each inside an active piece and returned by that piece's lookup |
| LoadShedding.GatheredFromRules | src/main.py:374-379 | a gathered stage lies inside an active piece whose end day is in the index, and comes from that day's rules for the zone at most at the piece's level, projected onto the piece's date |
| LoadShedding.Program.ProcessStaticZones | src/main.py:63-82 | the index becomes `StaticZonesAdded` of the old index: each day of the group's range, and the same day sixteen days later, gets one more `ZoneStageByDay` made from that day's zone cell |
| LoadShedding.StaticZonesEffect | src/main.py:68-82 | the three groups cover days [1,17), [1,9) and [9,17); any other group adds nothing; day d of the range and day d+16 each get one rule, from cell d-lo, appended after the rules already there; every other day is untouched |
| LoadShedding.ZonesAddedDays | src/main.py:78-82 | a range of at most sixteen days adds exactly the day's cell rule under day d and under d+16, and nothing elsewhere |
| LoadShedding.Program.constructor | src/main.py:60 | the program starts with the given timeline (the global `schedules`) and an empty static index |
| Helpers.GetLine | src/main.py:42-48 | without a newline the result is ("", text). Otherwise the text is raw + newline + rest. raw holds no newline, the line is raw stripped, and the rest is shorter than the text |
| Helpers.GetLineOf | src/main.py:42-47 | on a line without a newline followed by a newline and a rest, `get_line` gives back the stripped line and exactly that rest |
| Helpers.FindLine | src/main.py:51-57 | when the search does not loop forever, the loop gives True and the text after the first line starting with the prefix, or False and "" when the text runs out |
| Helpers.FindLineFirst | src/main.py:53-56 | when the first line starts with the prefix, the search returns the rest after it |
| Helpers.FindLineSkips | src/main.py:53-56 | a first line that does not start with the prefix is skipped |
| Helpers.FindLineEnds | src/main.py:53-56 | with no newline left, an empty text ends in False and a non-empty one loops forever |
| Helpers.FindLineSentinel | src/main.py:52-53 | a prefix the initial placeholder line starts with (such as "") is found at once, with the whole text as rest |
| Helpers.FindFromSuffix | src/main.py:56-57 | what the search returns is a suffix of the text |
| Helpers.ReplaceAll | src/main.py:36-39 | with a replacement shorter than the pattern, the result contains no occurrence of the pattern and is no longer than the text |
| Helpers.ReplaceAllLoop | src/main.py:36-39 | the `while find > -1: replace` loop terminates with the function's result, which has no occurrence left |
| Helpers.ReplaceAllIdempotent | src/main.py:36-39 | a text without the pattern is unchanged, and replacing all twice is replacing all once |
| Helpers.OnePassNotEnough | src/main.py:37-38 | one `replace("\n\n", "\n")` pass leaves "\n\n" of "\n\n\n", which is why the loop is needed (its caller collapses blank lines this way); the loop ends at "\n" |
| Helpers.ProcessRawRow | src/main.py:114-134 | the loop over cells with the pending-time accumulator produces exactly the normalised row |
| Helpers.RowMissingAndPairs | src/main.py:118-121 | a missing cell changes nothing; a cell with a "h:mm h:mm" pair is appended as is |
| Helpers.RowTimes | src/main.py:122-127 | a lone time is held back; the next lone time is appended joined to it with a space, and the accumulator is cleared |
| Helpers.RowZones | src/main.py:128-133 | any other cell is split on non-word runs and appended as comma-joined groups of at most max_zones parts |
| Helpers.ChunksShape | src/main.py:130-133 | the groups concatenate back to the parts, each has 1 to max_zones parts, and all but the last have exactly max_zones |
| Helpers.AppendChunks | src/main.py:130-133 | the `while len(z) > 0` loop appends exactly the comma-joined groups |
| Helpers.SplitNonWord | src/main.py:129 | the split yields at least one part, and no part holds a non-word character |
| Serializer.SignatureIgnoresOrder | src/serializer.py:17-18 | two key lists with the same keys have the same signature, whatever their order |
| Serializer.SignatureOfSorted | src/serializer.py:17-18 | the signature is the ':'-join of the sorted keys |
| Serializer.Serializer.Register | src/serializer.py:20-23 | the registry afterwards files the class under the given signature, or under the instance's own when none is given |
| Serializer.RegisteredEffect | src/serializer.py:20-23 | the class is filed under its signature and no other entry changes; a later registration under the same signature replaces an earlier one |
| Serializer.Serializer.RegisterCoreClasses | src/classes.py:61-128 | the three registrations made as the classes are defined |
| Serializer.CoreRegistryContents | src/classes.py:61-128 | the registry holds exactly three entries: `Stage` under "end_time:number:start_time", `ZoneStageByDay` under "end_time:stage:start_time:zone_list" and `ZoneStageMap` under "stage_by_day". The unmapped-stage signature is not among them |
| Serializer.RuleSignature | src/classes.py:100 | the default signature of `ZoneStageByDay` is "end_time:stage:start_time:zone_list" |
| Serializer.StageSignature | src/serializer.py:50 | an unmapped stage carries `key` too, so it signs as "end_time:key:number:start_time" |
| Serializer.LoadSignature | src/classes.py:61 | a mapping with just "number", "start_time" and "end_time" signs as the registered `Stage` signature |
| Serializer.Serializer.Unmap | src/serializer.py:34-58 | the method returns exactly the unmapped value tree |
| Serializer.Serializer.UnmapEntries | src/serializer.py:56-57 | the loop over a dict keeps each key and unmaps its value |
| Serializer.Public | src/serializer.py:50 | an attribute is kept exactly when its name does not start with "_"; an object without private attributes keeps them all, in order |
| Serializer.UnmappedPlain | src/serializer.py:34-58 | `unmap` leaves a tree of lists, dicts and scalars only |
| Serializer.PlainFixed | src/serializer.py:45-58 | `unmap` returns a plain tree unchanged |
| Serializer.UnmapIdempotent | src/serializer.py:34-58 | unmapping twice is unmapping once |
| Serializer.Serializer.Remap | src/serializer.py:60-94 | the method returns exactly the remapped value, or the error raised inside `load` |
| Serializer.Serializer.RemapInstance | src/serializer.py:79-92 | a registry hit without `load` gives exactly the remapped fresh instance |
| Serializer.Serializer.RemapDict | src/serializer.py:85-94 | an unregistered mapping gives exactly the mapping with each value remapped |
| Serializer.RemapList | src/serializer.py:61-66 | a list is remapped element by element into a list of the same length, and fails exactly when an element does |
| Serializer.RemapKeepsOthers | src/serializer.py:68-69 | values that are neither lists nor dicts come back unchanged |
| Serializer.RemapUnregistered | src/serializer.py:71-94 | an unregistered mapping keeps its keys in order, and each value is remapped |
| Serializer.RemapWithLoad | src/serializer.py:73-78 | on a hit for a class with `load`, the outcome is that of `load`, and the children are not remapped |
| Serializer.RemapWithoutLoad | src/serializer.py:79-92 | on a hit without `load`, the instance has the default attributes. Each takes the remapped value of the mapping's key, or "" when the key is missing. Extra keys are dropped |
| Serializer.Collect | src/serializer.py:91-92 | collecting results succeeds exactly when each does, and fails with the first error |
| Serializer.RuleRoundTrip | src/serializer.py:34-94 | remapping the unmapped `ZoneStageByDay` under the class registry gives back the same rule |
| Serializer.StageComesBackAsDict | src/serializer.py:50-94 | remapping an unmapped stage under the class registry gives back the plain mapping, not a stage |
| Serializer.StageFromMapping | src/serializer.py:73-78 | under the classes' registrations a mapping of "number", "start_time" and "end_time" is turned by `Stage.load` into the stage with those fields, keyed from number and start |
| Serializer.StageDictStays | src/serializer.py:72-94 | under a registry without the unmapped-stage signature, remapping the stage's attribute mapping gives it back unchanged |

## Left out

- Network and file I/O: downloading the PDF, `tabula`, `requests`,
  BeautifulSoup, and writing `schedule_config.py`. The `process_stage_*`
  row selection (src/main.py:137-244) and `load_schedule_from_web` are
  therefore not modelled.
- `process_static_schedule`, `to_datetime`, `parse_stage`'s regular
  expressions and `match_current_schedule_*`: only the rollover of
  `parse_stage` (src/main.py:442-443) is modelled, as `ParsedStage`, on
  already-parsed clock times.
- `argparse`, `print`, `exit`, `disp` and `__str__`, and the JSON grouping
  loop of `main` (src/main.py:394-420). That loop appends nothing, because
  `current_stage` starts as None.
- The wall clock. `datetime.date.today()` is the `today` parameter of the
  resolution step.
- Foreign parsers. `int()` on a string and `datetime.fromisoformat` are the
  `parseInt` and `parseIso` fields of a `Builtins` parameter. The static
  zone cells are given already split into integers, so `re.split(r"\W+")`
  and `int()` in `process_static_zones` are not modelled.
- Regular expressions in `process_raw_row` are written out by hand. `\d+:\d{2}`
  follows the pattern. `\d` there is read as an ASCII digit (`IsDigit`), where
  Python 3 also accepts other Unicode decimal digits. `\W` follows the ASCII
  word class, not Unicode's.
- NaN cells of the table are the `Missing` cell, not a float.
- `str(datetime)` is modelled without its year and month prefix. Every
  timestamp of one month shares that prefix, so key order is unaffected.
- Month boundaries. `replace(day=day)` raises past the end of the month, so
  splitting requires every day it reaches to lie in the month (`Splittable`).
  That requirement also excludes a multi-day stage ending on the month's
  last day, because `replace` is called once more for the day after. Adding
  a day past the month's end in the rollover is not modelled either.
- LoadShedding.Program.ProcessStaticZones: requires at least as many zone
  cells as days in the group. The source then raises IndexError part way
  through, after some rules are already stored.
- Helpers.FindLine: requires that the search does not loop forever. The
  source does not terminate on a non-empty remainder without a newline;
  `FindLineEnds` states when that happens.
- Helpers.ReplaceAll: requires the replacement to be shorter than the
  pattern. Otherwise the source may not terminate.
- Helpers.ProcessRawRow: requires `max_zones` to be at least 1. The call
  sites pass 1 to 8.
- `json.dumps` / `json.loads`, `Serializer.default`, `serialize` and
  `deSerialize` are library calls. Dict keys are always strings here.
- Python object identity is not modelled: `copy.deepcopy`, `Lst.remove`
  by equality, and the in-place rewrite of a dict passed to `unmap`. Merges
  are positional replacement of i and i+1 on a value list. Stages are values,
  so the caller's list is never changed. `unmap` of a dict returns the rewritten
  dict, but the sharing with the caller is not modelled. Likewise `remap` of a
  dict that matches no registered signature (src/serializer.py:85-92) rewrites
  the caller's dict in place and returns that same dict. The model returns a
  new value and leaves the argument as it was.
- The registry `classes` is a class attribute shared by every `Serializer`
  in the source. The model keeps it as a field of the one `Serializer` object.
- `Stage.load` makes a fresh instance and then sets its fields. The model
  returns the loaded stage as a value.
- src/geyser.py is not part of this model. It imports a function
  `main.py` does not define, shells out, and reads the clock.
- A merge takes the second stage's end even when that end is earlier, so
  coverage within one level can shrink (`MergeCanShrink`; src/classes.py:49-54,
  src/main.py:296-301). The model keeps this behaviour.
- A stage that ends exactly at midnight leaves a zero-length last piece
  (`MultiDayShape`; src/main.py:271-281). The model keeps this behaviour.
- `merge_stages` does not look at the order of starts. Fed a window and then
  an earlier window that it overlaps, it produces a window that ends before
  it starts (`MergeCanInvert`; src/main.py:285-301). The model keeps this
  behaviour too.
