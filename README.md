# webscanner core in Dafny

webscanner drives a Chrome page over the DevTools protocol and collects what
the page does: frames, network requests and responses, parsed scripts, DOM
event listeners, style sheets, coverage and metrics. This project models the
parts of it that turn those protocol events into data, and that turn the
collected data into a report.

- **Session listeners** (`Inspector`, session.dfy). This is the `Session`
  object of `Inspector/ChromeAPI.js` and its listener callbacks:
  - `requestWillBeSent` appends a request entry that carries a `url`;
  - `responseReceived` stores the response under its request id;
  - `scriptParsed` keeps every script except the automation's own
    evaluation scripts;
  - the frame events go through `frameEventHandler`, which merges the
    payload into the frame's record and appends the event's state tag.

  One callback is one method on the `Session` class. `Replay` is the
  specification of a whole trace of events. Lemmas state what a trace leaves
  behind: requests in order, the last response per id, a state history per
  frame, and the last value of each field.
- **Post-processing** (`DataProcessor` specifies each step, `Processing`
  runs the steps in place, `Coverage` merges script coverage; the first two
  live in processor.dfy and store.dfy). This is `processData` in
  `src/dataProcessor.js`:
  - frames get `about:blank` by default and are merged with the resource
    tree;
  - requests get their frame's URL;
  - scripts get coverage summaries, their DOM events, their frame URL, an
    `inline` marker and a parent script;
  - style sheets get the bytes they use and their usage ratio;
  - metrics become a name-to-value object;
  - the sections the caller asked for are copied into a report, which goes
    through `JSON.parse(JSON.stringify(...))`.

  The three `TypeError`s the function can raise on protocol-shaped data are
  modelled as outcomes.
- **Scanning context** (`Config`, config.dfy). This is `getContext` in
  `src/index.js`: the caller's options laid over the default `collect`
  flags and `rules`.
- **Resource view** (`ResourceView`, resources.dfy). This is the sample
  viewer's `getInitiator`, with its nested `getInitiatorFromStack`, and
  `getResourcesData` in `sample/src/index.js`.

Two support modules hold the JavaScript semantics the code relies on:
- `Values` (values.dfy): values, truthiness, `||`, property reads, spread
  and `Object.assign`, `===`, division, and the JSON round trip.
- `Strings` (strings.dfy): number-to-key conversion, and the code-point
  order `Array.prototype.sort` uses on strings.

Where the code and its documentation disagree, the model follows the code:
- `processRequests` builds its grouping but returns nothing. The report
  therefore never holds a `requests` section, and the in-place `requestId`
  stamping is the only effect (`DataProcessor.ReportHasNoRequests`).
- A request whose frame is unknown gets `frameURL: undefined`; no error is
  raised.
- When scripts are collected, a script whose frame is unknown makes
  `processData` throw, with or without coverage and DOM events
  (`DataProcessor.UnknownFrameThrows`).
- The script-coverage merge widens only the first kept range that
  intersects a candidate. Depending on the order of the functions, it can
  therefore count overlapping bytes twice
  (`Coverage.MergeDependsOnOrder`, `Coverage.MergeOfKeptRangeCanWidenAnother`).
- Style ranges that overlap are summed as they come
  (`DataProcessor.OverlappingStyleRangesCountTwice`).

## Model

| member | source | states |
|---|---|---|
| Inspector.Session.constructor | Inspector/ChromeAPI.js:5-17 | a new session keeps its options and starts with no scripts, requests, responses, DOM events or frames, and `null` metrics |
| Inspector.Session.OnRequestWillBeSent | Inspector/ChromeAPI.js:95-97 | the request list grows by exactly one entry at its end, and nothing else changes |
| Inspector.RequestEntry | Inspector/ChromeAPI.js:96 | the entry has every field of the event and nothing else, plus `url`, which comes from the event when it has one and from `request.url` otherwise |
| Inspector.Session.OnResponseReceived | Inspector/ChromeAPI.js:99-101 | the response object is stored under its request id, replacing any earlier one; the other ids are unchanged |
| Inspector.Session.OnScriptParsed | Inspector/ChromeAPI.js:155-160 | the script is appended when its url is not the evaluation-script marker, and the list is unchanged otherwise |
| Inspector.FrameIdOf | Inspector/ChromeAPI.js:146 | the frame's key is its `frameId` when truthy, and its `id` otherwise |
| Inspector.FrameStep | Inspector/ChromeAPI.js:145-151 | the frame's key is added or kept, every other frame is untouched, and each record still has a `state` list |
| Inspector.FrameStepHistory | Inspector/ChromeAPI.js:149-150 | the stored `state` is the earlier history (the payload's own if truthy, else the stored one, else empty) with the new tag appended |
| Inspector.FrameStepField | Inspector/ChromeAPI.js:147-148 | every payload field overrides the stored one; stored fields absent from the payload survive; nothing else appears |
| Inspector.Session.HandleFrameEvent | Inspector/ChromeAPI.js:145-151 | `frameEventHandler` updates the frames map in place exactly as `FrameStep` specifies |
| Inspector.Session.OnFrameEvent | Inspector/ChromeAPI.js:108-142 | each frame event is handled with its tag (`loading`, `navigated` on the wrapped `frame`, `stopped`, `attached`, `detached`, `resized`, `requestNavigation`); `navigatedWithinDocument` changes nothing |
| Inspector.Session.Deliver | Inspector/ChromeAPI.js:92-161 | delivering any event moves the session's data exactly one `Step` of the trace semantics and keeps it valid |
| Inspector.Replay | Inspector/ChromeAPI.js:92-161 | replaying a trace keeps every frame's `state` a list and never touches the DOM events or the metrics |
| Inspector.RequestsAppendInOrder | Inspector/ChromeAPI.js:95-97 | after a trace the requests are the earlier ones followed by one entry per request event, in event order |
| Inspector.RequestsOnlyGrow | Inspector/ChromeAPI.js:95-97 | the requests after any prefix of a trace are a prefix of the requests after the whole trace |
| Inspector.RequestCount | Inspector/ChromeAPI.js:95-97 | the number of entries logged equals the number of request events in the trace |
| Inspector.ReplayResponses | Inspector/ChromeAPI.js:99-101 | the responses after a trace depend only on the response events, folded in order |
| Inspector.ResponseLastWins | Inspector/ChromeAPI.js:100 | a request id maps to the last response received for it |
| Inspector.ResponseKeys | Inspector/ChromeAPI.js:99-101 | an id is present after a trace exactly when it was before or some response event named it; ids no event names keep their response |
| Inspector.ScriptsKeptInOrder | Inspector/ChromeAPI.js:153-161 | the scripts after a trace are the earlier ones followed by the kept scripts of the trace, in order |
| Inspector.ScriptLog | Inspector/ChromeAPI.js:156-159 | every logged script passes the evaluation-script filter |
| Inspector.NoEvaluationScripts | Inspector/ChromeAPI.js:156-158 | a fresh session that replays any trace holds no script whose url is the evaluation-script marker |
| Inspector.ReplayFrames | Inspector/ChromeAPI.js:104-151 | the frames after a trace depend only on the frame events, folded in order |
| Inspector.FrameKeys | Inspector/ChromeAPI.js:145-151 | a frame key is present after a trace exactly when it was before or some frame event named it; frames no event names are unchanged |
| Inspector.FrameHistory | Inspector/ChromeAPI.js:145-151 | when payloads carry no `state`, a frame's `state` is its earlier history followed by one tag per event for it, as many tags as events |
| Inspector.FrameStates | Inspector/ChromeAPI.js:149-150 | the same history, proved by induction over the trace |
| Inspector.FrameFieldLastWins | Inspector/ChromeAPI.js:148 | a frame field holds the value from the last event for that frame that carried the field |
| Inspector.TagsCount | Inspector/ChromeAPI.js:149-150 | one tag is recorded per frame event for the key |
| DataProcessor.WithDefaultUrl | src/dataProcessor.js:166-167 | a frame ends with a truthy `url`: its own when truthy, `about:blank` otherwise, all else unchanged |
| Processing.Store.ProcessFrames | src/dataProcessor.js:163-169 | in place, the frames become `DefaultUrls` of the old frames |
| DataProcessor.DefaultUrlsGiveUrls | src/dataProcessor.js:163-169 | every frame has a truthy url afterwards; frames that had one are unchanged and the rest get `about:blank` |
| DataProcessor.DefaultUrlsIdempotent | src/dataProcessor.js:163-169 | applying the default twice equals applying it once |
| Processing.Store.MergeResourcesTree | src/dataProcessor.js:17-19 | in place, each resource-tree entry is spread over the frame of the same id, creating the frame when missing |
| DataProcessor.WithTree | src/dataProcessor.js:17-19 | after the tree merge the frame ids are those of the frames and of the tree; the fields are stated by `WithTreeOverrides` |
| DataProcessor.WithTreeOverrides | src/dataProcessor.js:18 | tree fields win, the frame's other fields survive, and frames outside the tree are unchanged |
| DataProcessor.TreeOnlyFrameMayLackUrl | src/dataProcessor.js:11-19 | a frame that only the resource tree knows reaches the report without a `url` |
| DataProcessor.ReportFramesHaveUrls | src/dataProcessor.js:11-19 | a frame known before the merge and untouched by the tree reaches the report with a truthy url |
| DataProcessor.WithFrameUrl | src/dataProcessor.js:156-158 | a request gains exactly the `frameURL` field, and its other fields are unchanged |
| DataProcessor.WithFrameUrls | src/dataProcessor.js:155-159 | every request is processed, and the requests stay keyed |
| Processing.Store.ProcessNetwork | src/dataProcessor.js:149-161 | in place, each request gets the url of its frame |
| DataProcessor.FrameUrlKnownIffFrame | src/dataProcessor.js:157-158 | after `processFrames`, a request's `frameURL` is truthy exactly when its frame exists, and it is then that frame's url |
| Processing.Store.ProcessRequests | src/dataProcessor.js:70-85 | in place, each request is stamped with its position as `requestId`, and the grouping built is `GroupByOrigin` of the requests |
| Processing.StampRequest | src/dataProcessor.js:74-83 | one request is stamped and appended to the list of its origin, or of `other` when its url does not parse |
| DataProcessor.Stamped | src/dataProcessor.js:72-75 | stamping keeps every request, in place and in number |
| DataProcessor.StampedKeepsFields | src/dataProcessor.js:75 | stamping changes no field except `requestId` |
| DataProcessor.StampedIdIsPosition | src/dataProcessor.js:73-75 | the stamped `requestId` is the decimal string of the request's index |
| DataProcessor.GroupByOriginSound | src/dataProcessor.js:76-83 | every grouped index is a request of that origin, and each group is in increasing order |
| DataProcessor.GroupByOriginComplete | src/dataProcessor.js:76-83 | every request appears in the group of its origin |
| DataProcessor.GroupByOriginPartitions | src/dataProcessor.js:76-83 | each request appears in exactly one group, exactly once |
| DataProcessor.ReportHasNoRequests | src/dataProcessor.js:36-38 | the report has no `requests` section, because `processRequests` returns nothing |
| Processing.Store.ProcessScriptCoverage | src/dataProcessor.js:181-251 | in place, the coverage list becomes its sorted order, and the scripts become `ApplyCoverage` of that order |
| DataProcessor.ApplyCoverageLastWins | src/dataProcessor.js:186-249 | a script's `functionCoverage` is the summary of the last kept coverage entry for its id |
| DataProcessor.ApplyCoverageAtLast | src/dataProcessor.js:244-249 | the last entry sets its script's `functionCoverage` to its summary, with `usage` the used bytes over the script's length |
| DataProcessor.ApplyCoverageUntouched | src/dataProcessor.js:189-200 | a script that no entry covers (evaluation scripts skipped) is unchanged |
| DataProcessor.ApplyCoverageKeepsFields | src/dataProcessor.js:244 | coverage changes no script field except `functionCoverage` |
| Coverage.SummarizeFunctions | src/dataProcessor.js:193-249 | the method computes `Summarize`: sorted used and unused names, each the exact set of names of used or unused functions |
| Coverage.MergeCandidate | src/dataProcessor.js:213-234 | a candidate replaces the first kept range it unites with by their hull, or is appended when none unites |
| Coverage.SumBytes | src/dataProcessor.js:237-242 | the sum of the kept ranges' lengths, non-negative for well-formed ranges |
| Coverage.NameOf | src/dataProcessor.js:205 | a function's name, `[[anonymous]]` when empty, never empty |
| Coverage.Hull | src/dataProcessor.js:223-226 | the merged range spans both, and its ends come from them |
| Coverage.FirstMatch | src/dataProcessor.js:219-230 | the index of the first kept range the candidate unites with, or the length when there is none |
| Coverage.RangesUniteSymmetric | src/dataProcessor.js:253-258 | `isRangeContains` is symmetric |
| Coverage.RangesUnite | src/dataProcessor.js:253-258 | on well-formed ranges, `isRangeContains` holds exactly when the two closed intervals intersect, touching ends included |
| Coverage.Merge | src/dataProcessor.js:213-234 | one merge step adds at most one range, and adds `coverageCandidate` at the end exactly when it unites with no kept range; a kept range that changes united with the candidate and became their hull, and every range after it is unchanged |
| Coverage.KeptRanges | src/dataProcessor.js:202-235 | the merge loop keeps at most one range per function, and keeps none exactly when no function was used |
| Coverage.TotalBytes | src/dataProcessor.js:237-242 | the used-byte total of well-formed ranges is never negative |
| Coverage.MergeAppendsWhenNothingUnites | src/dataProcessor.js:232-234 | a candidate that unites with no kept range is appended |
| Coverage.MergeWidensFirstMatch | src/dataProcessor.js:219-229 | only the first uniting range is widened, and the others are unchanged |
| Coverage.MergeCoversUnion | src/dataProcessor.js:213-234 | after a merge, the offsets covered are exactly those covered before plus the candidate's |
| Coverage.KeptRangesCoverUsedCode | src/dataProcessor.js:202-235 | the kept ranges cover exactly the offsets of the used functions' first ranges |
| Coverage.MergeTwiceIsMergeOnce | src/dataProcessor.js:218-234 | merging the same candidate twice equals merging it once |
| Coverage.MergeOfKeptRangeIsNoop | src/dataProcessor.js:218-234 | when the kept ranges are pairwise apart, merging one of them again changes nothing |
| Coverage.MergeOfKeptRangeCanWidenAnother | src/dataProcessor.js:218-234 | when kept ranges overlap, merging a kept range can widen an earlier one instead |
| Coverage.MergeDependsOnOrder | src/dataProcessor.js:202-242 | the same three functions in two orders give different kept ranges and different used-byte totals (22 and 20) |
| Coverage.UnusedFunctionAddsNoRange | src/dataProcessor.js:207-210 | a function with a zero count adds no range and no used name, and its name is listed as unused |
| Coverage.RepeatedFunctionChangesNothing | src/dataProcessor.js:211-234 | a used function listed twice in a row gives the same ranges as listed once |
| Coverage.UsedNames | src/dataProcessor.js:193-211 | the used-name set, in insertion order, holds no duplicate and at most one name per function |
| Coverage.UnusedNames | src/dataProcessor.js:194-209 | the unused-name set, in insertion order, holds no duplicate and at most one name per function |
| Coverage.NamesExact | src/dataProcessor.js:207-211 | a name is used or unused exactly when some function with that name is used or unused |
| Coverage.Summarize | src/dataProcessor.js:244-249 | both name lists of the summary are strictly sorted |
| Coverage.SummaryNames | src/dataProcessor.js:247-248 | the sorted lists hold exactly the used and the unused names |
| Strings.Sort | src/dataProcessor.js:247-248 | sorting distinct names gives a strictly sorted list of the same names |
| Strings.StrictlySortedUnique | src/dataProcessor.js:247-248 | two strictly sorted lists of the same names are equal, so the sorted order is determined |
| Processing.Store.AttachDomEvents | src/dataProcessor.js:96-107 | in place, events of known scripts lose their `scriptId`, and each script gets `AttachEvents` of the events |
| Processing.AttachAll | src/dataProcessor.js:97-106 | the event loop computes both the attached scripts and the stripped event list |
| Processing.AttachEvent | src/dataProcessor.js:101-105 | one event without its `scriptId` is appended to its script's `events` list, created when missing |
| DataProcessor.AttachEventsCollects | src/dataProcessor.js:97-106 | a script's events are exactly the events naming it, in order, and a script with none is unchanged |
| DataProcessor.StripIds | src/dataProcessor.js:101-102 | an event keeps its `scriptId` exactly when it had one that names no script |
| DataProcessor.AttachEventsKeepsFields | src/dataProcessor.js:103-104 | attaching events changes no script field but `events` |
| Processing.Store.LinkFrames | src/dataProcessor.js:110-123 | the scripts are finished when every script's frame exists; otherwise the step fails, as `frame.url` throws |
| Processing.LinkScript | src/dataProcessor.js:111-122 | one script is finished as `FinishScript` specifies |
| DataProcessor.FinishScript | src/dataProcessor.js:113-122 | `frameURL` is the frame's url; `url` becomes `inline` exactly when it strictly equals the frame's url; `parentScript` is set only with a truthy stack trace; other fields are unchanged |
| DataProcessor.ParentScript | src/dataProcessor.js:121 | the parent script is the first call frame when `callFrames` is truthy, and `callFrames` itself otherwise |
| DataProcessor.FinishScripts | src/dataProcessor.js:110-123 | the frame-link loop finishes every script and adds none; each is finished as `FinishScript` states |
| DataProcessor.UrlLessScriptInUrlLessFrameIsInline | src/dataProcessor.js:113-116 | a script without a url in a frame without a url is marked `inline`, and the report then has no `frameURL` for it |
| Processing.Store.ProcessScripts | src/dataProcessor.js:87-124 | in place, the scripts become `ScriptsStep`: coverage, then DOM events, then frame links, or the failure that step throws; once past the early return and the missing-coverage check, the coverage list is left sorted and the DOM events that name a script lose their `scriptId`, and otherwise both are unchanged |
| Processing.Store.ProcessStyleCoverage | src/dataProcessor.js:126-147 | in place, the style sheets become `StyleUsage` of the coverage, or of none when it is missing |
| Processing.Store.SumUsedBytes | src/dataProcessor.js:129-138 | the first loop leaves each covered sheet with the sum of its ranges' lengths as `usedBytes` |
| Processing.AddRange | src/dataProcessor.js:130-137 | one range adds its length to its sheet's `usedBytes`, or changes nothing when the sheet is unknown |
| Processing.AddUsedBytes | src/dataProcessor.js:134-136 | a sheet's coverage is created at 0 when missing, and the range length is added |
| Processing.Store.SetUsage | src/dataProcessor.js:141-146 | the second loop sets `usage` to used bytes over length on every covered sheet |
| Values.ToNumber | src/dataProcessor.js:144 | the numeric reading of a sheet's `length` is a number, `NaN` or an infinity; numbers pass through and `null` reads as 0 |
| Values.Divide | src/dataProcessor.js:141-146 | `usedBytes / length`: a finite ratio exactly when the length reads as a non-zero number (its product with the length is the bytes) or as an infinity (then 0); `NaN` for 0/0 or a non-numeric length; a signed infinity for non-zero bytes over 0 |
| Processing.SetSheetUsage | src/dataProcessor.js:142-145 | an uncovered sheet is unchanged, and a covered one gets `usage` as the division of its bytes by its `length` |
| DataProcessor.StyleBytesOrderFree | src/dataProcessor.js:129-138 | a sheet's used bytes do not depend on the order of the coverage ranges |
| DataProcessor.StyleBytesRemove | src/dataProcessor.js:129-138 | removing one range subtracts its length from its own sheet only |
| DataProcessor.OverlappingStyleRangesCountTwice | src/dataProcessor.js:129-145 | two overlapping ranges over one sheet count their shared bytes twice |
| Processing.ProcessMetrics | src/dataProcessor.js:171-179 | the result has exactly the metric names, and each name maps to the value of its last metric |
| DataProcessor.MetricsOf | src/dataProcessor.js:171-179 | a name is present exactly when some metric has it |
| DataProcessor.MetricsLastWins | src/dataProcessor.js:176 | a name maps to the value of the last metric with that name |
| Values.PropOr | src/dataProcessor.js:8 | `context.collect || {}` (and `response.securityDetails || {}` at sample/src/index.js:24) is the property when truthy and `{}` otherwise, so it is always truthy |
| Processing.ProcessData | src/dataProcessor.js:3-68 | `processData` returns nothing for a missing data object or context, and otherwise returns or throws exactly `Expected`; when requests are collected they end stamped |
| Processing.Respond | src/dataProcessor.js:8-67 | once the flags are known, the outcome is `Collected`: the sections, the pass-through sections, then the JSON round trip |
| Processing.CopyPassThrough | src/dataProcessor.js:39-65 | the pass-through sections are copied under their flags as `PassThrough` specifies |
| Processing.CopyIfCollected | src/dataProcessor.js:39-65 | one section is copied exactly when its flag is truthy |
| Processing.CollectFrames | src/dataProcessor.js:11-20 | frames get default urls and the tree merge, requests get frame urls, and `frames` enters the report under its flag |
| Processing.CollectScripts | src/dataProcessor.js:21-24 | without the scripts flag nothing changes; with it the scripts become `ScriptsStep` and enter the report as `scripts`, or the failure is returned; the coverage list and the DOM events change exactly as `ProcessScripts` states |
| Processing.CollectStyles | src/dataProcessor.js:25-30 | style coverage is processed only when both style flags are set, and `styleSheets` enters the report under `styles` |
| Processing.CollectMetadata | src/dataProcessor.js:31-34 | metadata gets its `metrics` object when present; metadata with missing metrics fails |
| Processing.CollectRequests | src/dataProcessor.js:36-38 | requests are stamped under the flag, and the section written is `undefined` |
| Processing.BuildSections | src/dataProcessor.js:8-38 | the sections before the pass-through copy are `StageOf` the data as collected, or its failure; collected requests end with frame urls and stamped |
| Processing.CollectFramesAndScripts | src/dataProcessor.js:11-24 | the requests get frame urls; the report holds the flagged frames and scripts, or the scripts step's failure |
| Processing.CollectTail | src/dataProcessor.js:25-38 | the style, metadata and requests blocks give `StageTail` of the report so far, or the missing-metrics failure |
| Processing.CollectMetadataAndRequests | src/dataProcessor.js:31-38 | the metadata and requests blocks give `StageEnd` of the report so far, or the missing-metrics failure; collected requests end stamped |
| DataProcessor.ExpectedReport | src/dataProcessor.js:3-68 | a report is the JSON round trip of the sections built from the processed frames and scripts |
| DataProcessor.ReportKeysFollowFlags | src/dataProcessor.js:14-65 | every report key is a known section whose flag is set, or `metadata` when metadata was collected |
| DataProcessor.ReportSections | src/dataProcessor.js:14-34 | the flagged frames, scripts and style sections are present, and so is metadata with its metrics |
| DataProcessor.ReportPassThrough | src/dataProcessor.js:39-65 | a pass-through section is present exactly when flagged and defined, and then holds its JSON round trip |
| DataProcessor.PassThroughSections | src/dataProcessor.js:39-65 | the pass-through copy adds exactly the flagged sections and keeps the rest of the report |
| DataProcessor.CopySectionAt | src/dataProcessor.js:14-65 | one flagged copy adds only its own key |
| DataProcessor.ReportKeepsStage | src/dataProcessor.js:14-67 | a built section that is not a pass-through key reaches the report as its JSON round trip |
| DataProcessor.ReportIsClean | src/dataProcessor.js:66-67 | the report holds no `undefined`, `NaN` or infinity anywhere |
| Values.JsonIdempotent | src/dataProcessor.js:67 | a second JSON round trip changes nothing |
| Values.JsonAt | src/dataProcessor.js:66-67 | the round trip keeps exactly the keys that do not hold `undefined`, each with its value round-tripped |
| DataProcessor.FailureSources | src/dataProcessor.js:3-68 | each of the three errors arises only from its own cause |
| DataProcessor.ThrowsWithoutScriptsIffNoMetrics | src/dataProcessor.js:31-34 | without the scripts flag, `processData` throws exactly when metadata exists but metrics do not |
| DataProcessor.UncollectedCoverageThrows | src/dataProcessor.js:92-93 | asking for script coverage that was never collected throws |
| DataProcessor.UnknownFrameThrows | src/dataProcessor.js:87-113 | when scripts are collected and the coverage check passes, a script whose frame is unknown makes `processData` throw, whether or not coverage and DOM events are applied first, since neither changes a script's `frameId` |
| Config.GetContext | src/index.js:16-62 | a falsy page gives the `page is missing` error, a `null` options object a `TypeError`, and otherwise a context with that page |
| Config.RulesDefaults | src/index.js:46-53 | the default rules are exactly the six keys; `stealth` is a boolean that is true exactly when `opts.stealth` is truthy; every other boolean rule is `false`, no URL is blocked, and the logs threshold is 50 |
| Config.CollectOnlyStyleSource | src/index.js:21-44 | of the default collect flags only `styleSource` is on, and `bodyResponse` is an empty list |
| Config.CollectDefaults | src/index.js:21-44 | every collect flag the caller leaves out keeps its default |
| Config.CollectOverrides | src/index.js:56-60 | the caller's collect keys win, the other defaults stay, and no other key appears |
| Config.CollectWithoutOptions | src/index.js:16-60 | without options, the collect flags are exactly the defaults |
| Config.RulesStealth | src/index.js:46-58 | `stealth` is `Boolean(opts.stealth)` unless the caller's rules set it, and the caller's rules win key by key |
| Config.LogDefault | src/index.js:57 | `log` is the caller's value when truthy, and `false` otherwise |
| ResourceView.GetInitiatorFromStack | sample/src/index.js:83-97 | a falsy stack gives `''`; otherwise the frames list gets each ancestor's `callFrames` prepended, outermost first |
| ResourceView.Chain | sample/src/index.js:90-96 | the chain ends with the innermost frame's `callFrames` |
| ResourceView.ChainLength | sample/src/index.js:90-96 | the chain has one entry per stack frame |
| ResourceView.ChainOrder | sample/src/index.js:90-96 | entry `depth - 1 - i` is the `callFrames` of the `i`-th ancestor |
| ResourceView.GetInitiator | sample/src/index.js:65-81 | the initiator is `Resolve` of its argument |
| ResourceView.TypedInitiator | sample/src/index.js:66-70 | a `parser` or `other` initiator resolves to its type |
| ResourceView.NoStackNoInitiator | sample/src/index.js:72-81 | an untyped initiator without a stack resolves to `undefined` |
| ResourceView.FirstScriptIdIsFirst | sample/src/index.js:74-81 | the result is falsy exactly when no call frame has a truthy script id, and otherwise it is the first such id in scan order |
| ResourceView.FirstScriptId | sample/src/index.js:74-81 | the scan yields either `undefined` or a truthy script id |
| ResourceView.FirstInLevel | sample/src/index.js:76-80 | a script id found within one level is truthy |
| ResourceView.FirstInLevelIsFirst | sample/src/index.js:76-80 | within one level, the first truthy script id is found, or none exists |
| ResourceView.GetResourcesData | sample/src/index.js:20-63 | there is one row per resource, in order, each row as `Row` builds it |
| ResourceView.ResponseOf | sample/src/index.js:23 | the response is `response`, else `redirectResponse`, else `{}` |
| ResourceView.RowUrlColumns | sample/src/index.js:28-36 | the url columns are present exactly when the url parses, and then hold host, path, search parameters and the hash's characters |
| ResourceView.RowDefaults | sample/src/index.js:47-59 | the post data falls back to `-`; each certificate column is its `securityDetails` field when truthy and `''`, `''` or `[]` otherwise, field by field; without any response the response columns are `undefined` |
| ResourceView.RowResponseColumns | sample/src/index.js:49-56 | every response column is the matching field of the chosen response (`response`, else `redirectResponse`, else `{}`) |
| ResourceView.Characters | sample/src/index.js:33 | `Array.from` on the hash gives one one-character string per character |

## Left out

- URL parsing (`new URL(...)`) is a parameter: `originOf` gives a request's origin, or nothing when `new URL` throws, and `parseUrl` gives the parts the viewer reads.
- The order the engine's sort leaves the script coverage in is an input `sortedCoverage`. It is only required to be a permutation, because the comparator is not a consistent order.
- Numbers are exact reals: floating-point rounding of byte counts and usage ratios is not modelled.
- Strings are sequences of code points. They compare by code points, where `sort` compares UTF-16 code units; the two orders differ only for characters outside the Basic Multilingual Plane.
- ResourceView.Row: `req_url_length` is the URL's length in code points, where `request.url.length` counts UTF-16 code units. The two differ for a URL holding characters outside the Basic Multilingual Plane.
- ResourceView.GetInitiatorFromStack: a stack is a `Value`, an inductive datatype, so its `parent` chain is finite by construction, and termination rests on that. The viewer reads its data through `.json()`, which cannot produce a cyclic chain.
- Property keys are the ones the browser sends. Prototype keys (`__proto__`, `constructor`) are not modelled, and ids that are not key-like (objects, fractional numbers) are excluded by preconditions.
- Values.ToNumber: strings, arrays and objects read as `NaN`; the string-to-number parse and `valueOf`/`toString` coercions are not modelled. The same holds for Values.Divide, so a `length` given as a numeric string gives `NaN` where the engine would divide. Negative zero is not modelled either: 0 over a negative length is 0.
- Values.KeyOf: numbers are key-like only when integral and of magnitude below 10^21. At or above that bound `String(v)` switches to exponent form, which the model does not produce.
- `===` on two objects is taken to be false, because object identity is not modelled.
- `metadata` is taken to be an object when present.
- The protocol payload shapes are preconditions: a request event has a non-null `request`; a frame payload's `frame` is an object; a coverage entry's functions each have a `ranges` list with a first range; the viewer's requests carry `frame`, `url` and an `initiator`. These requires encode what the DevTools protocol and the collector guarantee; the code does not check them.
- Coverage.KeptRanges: requires every function to have a first range (`HasRanges`). A function with an empty `ranges` list makes `funcObj.ranges[0].count` throw a `TypeError` at src/dataProcessor.js:204-207; that fourth error is not modelled. The same holds for Coverage.UsedNames, Coverage.UnusedNames, Coverage.Summarize and Coverage.SummarizeFunctions.
- DataProcessor.ApplyCoverage: `CoverageShaped` is required of every coverage entry, also of those the loop skips (evaluation scripts and unknown script ids, src/dataProcessor.js:189-200), whose functions the source never reads. The same holds for Processing.Store.ProcessScriptCoverage, DataProcessor.ScriptsStep, Processing.Store.ProcessScripts, Processing.CollectScripts and Processing.ProcessData.
- Processing.Store.ProcessScripts: `NoEvents` requires that no script already holds an `events` field when `processData` runs. The source would append to such a list (`script.events || []`, src/dataProcessor.js:103-104); the collector never sets one, and that case is not modelled. The same holds for DataProcessor.ScriptsStep, Processing.CollectScripts and Processing.ProcessData.
- Processing.Store.ProcessStyleCoverage: `NoStyleCoverage` requires that no style sheet already holds a `coverage` field. The source would add to its `usedBytes` (src/dataProcessor.js:134-135); the collector never sets one, and that case is not modelled. The same holds for Processing.CollectStyles and Processing.ProcessData.
- ResourceView.GetResourcesData: `RowReady` requires each request to have a `frame` and a `url` that are not `null` or `undefined`, and an initiator `getInitiator` can resolve. The `TypeError`s that `request.frame.url`, `request.url.length` and `initiator.type` throw otherwise (sample/src/index.js:26, 39, 43, 66) are not modelled. The same holds for ResourceView.Row.
- ResourceView.GetInitiator: `CallFramesShape` requires each stack level's `callFrames` to be an array of non-null call frames. The `TypeError` that `callFrames.length` or `callFrames[j].scriptId` throws on `null` or `undefined` (sample/src/index.js:77-79) is not modelled.
- A frame payload with a truthy `state` that is not an array is excluded: `push` would throw inside the event emitter.
- Processing.BuildSections: its contract states the sections built, the failure and the requests. The frames, scripts, coverage list, DOM events, style sheets and metadata it also updates in place are stated by the step methods it calls, not by its own contract. The same holds for Processing.CollectFramesAndScripts, Processing.CollectTail, Processing.Respond and Processing.ProcessData.
- A thrown error leaves the data object partly processed. The model states the outcome, but not the intermediate state of the object on the error path.
- Logging (`LOG.debug` for a missing script) is left out.
- The in-place step of the DOM-event loop is modelled on values: the event list and the scripts are copied, then written back. Aliasing between an event object and the list that holds it is therefore not captured.
- The order in which events reach the listeners is the order of the `Replay` trace: the client's event loop and the protocol transport are not modelled.
- Browser plumbing is not part of this model: `init`, `initChrome`, `initClient`, `setUserAgent`, `kill`, `navigate`, `waitDOMContentLoaded`, `getMetrics`, `getAllDOMEvents` and `mouseMove` in `Inspector/ChromeAPI.js`, `src/scanner.js`, and `getSession` in `src/index.js`.
- The viewer's React rendering and `fetch` in `sample/src/index.js` are not part of this model.
- Config.GetContext: a `null` options object is reported as a `TypeError` without the engine's message text.
