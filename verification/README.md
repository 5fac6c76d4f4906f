# Pinba Engine, modelled and proved in Dafny

Pinba Engine receives monitoring datagrams, keeps the requests and timers of the last few minutes
in two ring buffers, and maintains reports over them. Nothing is ever recomputed: admission adds a
request to every report, expiry subtracts it again. This project models that machinery with the
engine's own moving parts (wrapped rings, jobs that fill slices, in-place counters) and proves that
it always agrees with a simple account: a sequence of live requests, each with its own timers, and
folds over that sequence.

`dafny verify dfyconfig.toml` checks everything.

## What is proved

*The raw window.* `Engine.RawWindow` holds the request ring and the timer ring. Its invariant says
that the timer slices of the live requests, read through the wrap, tile the timer ring from `out`
to `in` in request order, and that every stored timer names its request's slot. `Admit` (capacity,
parallel copies, compaction over failed copies, growth of a wrapped timer ring, relocation of
`timers_start`, parallel merges, publication) and `Expire` (longest old prefix, clear jobs, cursor
moves) both keep it, and say exactly which requests readers see afterwards. The jobs run in
parallel in the engine. `Batch.CopyScheduleFree`, `MergeSchedule.MergeScheduleFree` and
`ClearSchedule.ClearScheduleFree` show that the order of their writes does not matter, which is why
the methods may run them one after another; the writes in question are those that `Batch.CopyJob`,
`Merge.MergeJob` and `Expiry.ClearJob` are proved to carry out.

*Reports.* A base report, a one-level tag report, a script/tag report and a host/request-tag report
each keep `Represents(live)`: the stored groups, counts, normalised times, buckets and result count
are the fold over the live requests that match and are not older than the report's start. In tag
reports a request is counted once per group by remembering ring slot numbers; that slots are reused
is harmless because requests expire in the order they came, and `TagReport.NewestFirstMiscounts`
shows what would happen otherwise. `TagGroups` says of the live requests and their tags which groups
each shape of report has.

*Whole runs.* `Contents` says without rings what a batch and an expiry make of the window, and
`Timeline` chains these into the worlds that a sequence of events leads to: what is live, where the
cursors stand, the start of each base report and whether some batch made it draw that start wrong.
`Run.Monitor.Play` drives any sequence of batches and expirations through the rings and any number
of reports of every shape, from `Run.Begin` or any other sound state, and ends in exactly the world
that the events lead to, with each report the fold over the requests then live. A base report is
that fold if no event of the run spoiled it; `Timeline.SpoiltExactly` says which do. It is so in any
case once an admitted batch has given it its start, and with strictly increasing batch times, which
`Launch.LaunchesAreStrict` derives from the data thread's clock, unless a full ring misled it.
`Timeline.NothingLost` adds that requests leave in the order in which they came and that none is
lost in between.

*Queries.* The percentile parser accepts exactly its grammar, the rank is the least one that covers
the requested share, and the interpolated value lies in the bucket of the rank-th smallest live
sample, using that the incrementally maintained buckets hold every live sample. `LiveQuery` states
this for the groups of the reports in a running system, where staging has bounded every duration:
the answer for a base report group is within one histogram segment of the duration of the rank-th
quickest live request.

*Protocols.* The dictionary, the double-buffered hand-off and the kernel-drop cursor are step
machines; each invariant is proved for every interleaving. Their histories are tied to the steps
alone: which text every dictionary reference stands for, which datagrams have been freed when a
cycle of the data thread ends, and the largest drop count that was delivered. The table registry and
the stage counters are state-changing objects with an invariant that every operation keeps; staging
is given as the exact chain of what becomes of each request.

## Where the code falls short of the simple account

Each of these is kept as the code has it, shown on a concrete input where one is needed, and
bounded by an exact condition.

- Relocation skips timers without resolved tags (src/pool.cc:322-324). Growing a wrapped ring is
  invisible to readers if and only if every request that starts in the moved tail has a tagged
  timer there (`Relocation.RelocationExact`, `Relocation.LostTagsMoveTimers`). Timers always carry a
  tag when no tag allocation fails (`Validation.ValidatedIsAdmissible`).
- A batch that a full ring drops still gives new base reports a start, from whatever stands in the
  slot at `in` (src/main.cc:1337-1347). That slot is then the one before `out`: it was never used or
  holds the last request that expired. The start is right if and only if the slot was never used or
  no live request matches (`Stamps.FullRingStartExact`); otherwise the report subtracts requests that
  it never added. `StaleStart.FullRingLosesRequest` is such a run, and
  `Timeline.OnlyFullRingsSpoil` says that nothing else ever makes a base report wrong. When instead
  every copy of a batch failed, the slot holds the last copy of the first job, with the batch's time
  and a counter ahead of the window (`Admission.FailedCopiesLeave`). That start is right for all
  live requests, and could miss only a request of a later batch with the very same time
  (`Stamps.FailedBatchStartExact`). Launch times strictly increase (`Launch.LaunchAdvances`), so
  there is no such batch; `StaleStart.FailedCopiesKeepRequest` plays the hypothetical case and shows
  that the theorem needs strict times.
- The tag condition counts matching pairs (src/pinba.h:394-420). It selects exactly the requests
  that carry every wanted tag, for every list of wanted tags, if and only if the request repeats no
  tag name (`Conditions.TagCheckExact`, `Conditions.RepeatStandsIn`). For one report it is exact as
  soon as no wanted name occurs twice in the request (`Conditions.WantedOnceIsExact`).
- A kernel drop count that moved by half its range or more since the last sample is lost
  (src/main.cc:95); below that it is exact (`KernelDrops.LongSilenceLosesDrops`).
- Opening a known table with a different comment leaves the two registry maps inconsistent; opening
  is sound if and only if the comment did not change (`Registry.OpenIsSoundIffCommentFixed`).

## Assumptions

- Times are exact: seconds and microseconds as integers, histogram samples as reals.
- Pool sizes, growth sizes and the thread count are parameters. Memory failures are boolean inputs.
- Durations are at most INT_MAX seconds, which the conversion at staging ensures
  (`Validation.SecondsTracked`).
- Requests of a batch carry the batch's time, and batch times do not decrease; where strictly
  increasing times are needed, a statement says so.
- Batches offered to the window hold timers with hits and at least one resolved tag; validation and
  unpacking ensure that when no tag allocation fails.
- Report conditions are an arbitrary predicate on the request in the report modules; `Conditions`
  models the check itself.
- Integers are unbounded except where width is the point: the request limits, the parser's 64-bit
  accumulators, the dictionary's 64-bit gauges, budgets and byte comparison, and the 32-bit drop
  counter.

## Model

| member | source | states |
|---|---|---|
| `Pools.Pool.Grow` | src/pool.cc:73-118 | fails without change exactly when the new size is no larger or memory is short; otherwise the slots are the old ones with zeroed slots put before the tail of a wrapped ring, or at the end |
| `Pools.Pool.Push` | src/pool.cc:57-70 | appends exactly the pushed value, or changes nothing and reports failure exactly when the pool is full and cannot grow |
| `Pools.NewSize` | src/pool.cc:42-55 | the new size is the old one plus the step (the asked amount, or the pool's own if none), or the limit if that is smaller |
| `Pools.MoveTail` | src/pool.cc:105-114 | the in-place move leaves the head, then zeroes, then the tail, slot for slot |
| `Pools.GrowthKeepsEverySlot` | src/pool.cc:103-114 | growth loses and duplicates nothing: the slots are the old multiset plus the zeroed ones |
| `Pools.GrowthKeepsContents` | src/pool.cc:107-114 | the logical sequence from `out` to `in` and its length are the same after growth |
| `Ring.Count` | src/pool.cc:26-39 | the record count is the number of steps from `out` to `in` |
| `Tiling.SlicesTileTheRing` | src/pinba.h:375-378 | with the invariant, the timers of the live requests in request order are exactly the occupied part of the timer ring |
| `Tiling.TimerNamesOwner` | src/main.cc:800-802 | every occupied timer slot names the slot of the one request whose slice covers it |
| `Relocation.RelocateStarts` | src/pool.cc:309-345 | the scan over the moved tail shifts `timers_start` of each request with a tagged timer there, once, and no other |
| `Relocation.TailRuns` | src/pool.cc:326-344 | timers of one request are adjacent in the tail, so the comparison with the previous request never moves one twice |
| `Relocation.RelocationKeepsTiling` | src/pool.cc:296-351 | growth plus relocation keeps the tiling and every live request's timer sequence |
| `Relocation.RelocationExact` | src/pool.cc:322-340 | growth of a wrapped ring is invisible to readers if and only if each request starting in the tail has a tagged timer in it |
| `Relocation.LostTagsMoveTimers` | src/pool.cc:322-324 | a request whose tags were lost reads a wrong slot after growth |
| `Jobs.ScheduleDoesNotMatter` | src/main.cc:1279-1300 | jobs that write disjoint slots leave the same buffer in every interleaving |
| `Batch.CopyJob` | src/main.cc:1001-1122 | a copy job writes its successful records to consecutive slots of its slice, counters by position, a failed copy's slot is reused, and the slot of each record is reported |
| `Batch.CopyEffect` | src/main.cc:1001-1120 | in effect the slice holds the successful records packed in order and nothing outside the slice changes |
| `Batch.PlanTakesPrefix` | src/main.cc:1267-1299 | each job takes a prefix of what its collector staged, and the jobs together take the longest prefix of all staged requests that fits the free slots |
| `Batch.CopyJobsDisjoint` | src/main.cc:1279-1299 | no slot is written by two copy jobs |
| `Batch.CopyScheduleFree` | src/main.cc:1279-1300 | the copy jobs leave the same ring in every interleaving |
| `Admission.CopyAll` | src/main.cc:1279-1313 | after all copy jobs each successful record is found at its reported slot and slots keep the order of the batch |
| `Admission.CompactNext` | src/main.cc:1321-1329 | one swap moves the next successful record to its packed position without disturbing the ones still to come |
| `Admission.Compact` | src/main.cc:1315-1331 | compaction leaves exactly the successful records at consecutive slots from `in`, in order, with consecutive counters, and the reported slots follow |
| `Admission.FailedCopiesLeave` | src/main.cc:1015-1036 | when every copy fails, the slot at `in` holds the last copy of the first job that had one, with the counter of its position |
| `Commit.BatchTouchesOnlyFree` | src/main.cc:1267-1299 | filling free slots changes nothing a reader of the live window sees |
| `Merge.StoreTimers` | src/main.cc:800-842 | a request's timers go to consecutive slots through the wrap, labelled with the request's slot, and nothing else changes |
| `Merge.PlaceSlice` | src/main.cc:938-942 | a request that lists timers gets the start and length of its slice; other records are untouched |
| `Merge.MergeRequest` | src/main.cc:920-948 | laying out one more request extends the merged part by exactly that request |
| `Merge.MergeJob` | src/main.cc:897-951 | a merge job skips failed copies and gives each other request the next slice after its predecessors, starting at the job's prefix; both rings end as its own record and timer writes leave them |
| `Merge.MergedIsWrites` | src/main.cc:920-948 | a stretch of requests is laid out if and only if the rings are what the record and timer writes for those requests make of them |
| `Merge.JobTimersCount` | src/main.cc:1108 | the copy job's timer count is the number of timers its merge job will place |
| `Publish.MergeAll` | src/main.cc:1413-1433 | all merge jobs together lay out the batch's timers in request order over the reserved slots |
| `MergeSchedule.MergeJobsDisjoint` | src/main.cc:1413-1420 | no record and no timer slot is written by two merge jobs |
| `MergeSchedule.MergeScheduleFree` | src/main.cc:1411-1433 | whatever way the writes of the merge jobs interleave, the requests have their slices, the reserved slots hold the batch's timers in request order, and nothing else changes |
| `Append.BatchExtendsTiling` | src/main.cc:1397-1435 | a placed batch extends the tiling; readers see the old requests unchanged and then the new ones |
| `Append.NewEntryKeeps` | src/main.cc:1026-1036 | reading an admitted request gives back every field that was staged; only the slot named by its timers is new |
| `Engine.RawWindow.constructor` | src/pool.cc:120-140 | an empty window satisfies the invariant |
| `Engine.RawWindow.TimerPoolAdd` | src/pool.cc:291-362 | reserves consecutive slots after the last timer, growing first if they do not fit, and refuses exactly when they do not fit and memory is short; no reader sees a change |
| `Engine.RawWindow.GrowTimers` | src/pool.cc:305-351 | growth succeeds exactly when memory does and keeps the invariant, the live sequence and the free request slots |
| `Engine.RawWindow.CopyPhase` | src/main.cc:1267-1331 | after copying and compacting, exactly the successful requests of the prefix that fits are packed behind the live window, which is unchanged, and so is the slot before `out` |
| `Engine.RawWindow.PackPhase` | src/main.cc:1267-1331 | the free part of the ring begins with the successful requests in order, or with the last failed copy of the first job if there are none, and is unchanged past the batch |
| `Engine.RawWindow.TimerPhase` | src/main.cc:1397-1435 | the packed requests get their timers in the reserved slots exactly if there are any and they fit or memory allows growth; otherwise they come without |
| `Engine.RawWindow.Publish` | src/main.cc:1475-1481 | moving `in` makes exactly the finished records live |
| `Engine.RawWindow.GiveBackTimers` | src/pool.cc:654-679 | exactly the timers of the expired requests are cleared and `out` moves past them |
| `Engine.RawWindow.Admit` | src/main.cc:1267-1481 | the live sequence grows by exactly the successful requests of the prefix that fits, in order, at consecutive slots with consecutive counters; their timers are stored exactly if they fit or memory allows growth; says what new reports find at `in` in each case; the invariant holds again |
| `Engine.RawWindow.Expire` | src/pool.cc:559-679 | what expires plus what stays is the old live sequence; every expired request is older than the cutoff and the first that stays is not; the slot before `out` holds the last that expired; the invariant holds again |
| `Engine.RawWindow.ReadRange` | src/pool.cc:376-426 | walking the slots from a prefix yields the corresponding part of the live sequence, timers included |
| `Contents.AdmitTo` | src/main.cc:1267-1481 | admission through the rings is the function on contents: live requests, slot at `in`, next counter, size of the timer ring and what new reports find at `in` are computed from the batch and the contents before |
| `Contents.ExpireFrom` | src/pool.cc:559-679 | expiry through the rings splits the live requests exactly at the first that is not older than the cutoff |
| `Contents.ExpirySplits` | src/pool.cc:475-499 | letting go of the oldest request as long as it is too old removes the longest old prefix and leaves its last request before `out` |
| `Expiry.DeleteOld` | src/pool.cc:475-499 | moves `out` over exactly the longest prefix of records older than the cutoff and sums their timers |
| `Expiry.OldPrefixIsAllOld` | src/pool.cc:482-497 | when times do not decrease, that prefix is all old records |
| `Expiry.ShareOut` | src/pool.cc:626-672 | one job for few records, else as many as threads with equal shares and the remainder to the last; the jobs cover the expired prefix end to end with no overlap |
| `Expiry.ExactlyOneJob` | src/pool.cc:657-672 | every expired record falls to exactly one clear job |
| `Expiry.ClearJob` | src/pool.cc:428-472 | a clear job resets the timers of its own requests, counts the tags they had, and touches no other timer |
| `Expiry.ClearAll` | src/pool.cc:428-472 | the clear jobs together reset every timer of the expired records and no other, so that these have no tags, no value and no hits, and count all their tags |
| `Expiry.TagCountIsTags` | src/pool.cc:451 | the count is the number of tags of these timers |
| `ClearSchedule.ClearJobsDisjoint` | src/pool.cc:657-672 | no timer slot is cleared by two jobs |
| `ClearSchedule.ClearScheduleFree` | src/pool.cc:654-673 | whatever way the writes of the clear jobs interleave, exactly the timers of the expired records are cleared |
| `Expiry.ExpiryKeepsTiling` | src/pool.cc:675-679 | after the cursors moved, the survivors tile the timer ring and read as before |
| `Time.Plus` | src/pinba.h:315-323 | one carry keeps the sum exact and normalised |
| `Time.Minus` | src/pinba.h:325-333 | one borrow keeps the difference exact and normalised |
| `Time.Less` | src/pinba.h:312-313 | on normalised values the comparison is the comparison of microseconds |
| `Histogram.BucketMonotone` | src/pinba.h:458-466 | a longer time never falls into an earlier bucket |
| `Histogram.BucketHolds` | src/pinba.h:458-466 | bucket b holds exactly the times from b segments up to b + 1; the last one also holds everything from the maximum on |
| `Histogram.PerHitTimesHits` | src/pinba.h:448-456 | the time of one hit times the number of hits is the total, for adding and for subtracting |
| `Histogram.HistogramAdd` | src/pinba.h:441-475 | adding a sample keeps every bucket equal to the hits of the samples in it, with no empty bucket stored |
| `Histogram.HistogramRemove` | src/pinba.h:448-475 | subtracting the oldest sample does too |
| `Histogram.RankBucket` | src/ha_pinba.cc:808-815 | the first bucket at which the running sum reaches the rank is the bucket of the rank-th smallest sample |
| `Histogram.HistogramValue` | src/ha_pinba.cc:796-822 | stops at a nonempty bucket that holds the rank-th sample and interpolates inside it, with a share in (0, 1] |
| `Histogram.InterpolatedEvenly` | src/ha_pinba.cc:811-816 | the last hit of a bucket stands at its upper edge and the others at equal steps of segment over count below it |
| `Stamps.StampDrawsTheLine` | src/main.cc:1334-1347 | stamping a report from the first request of a nonempty batch counts no earlier request and every request of the batch |
| `Stamps.LineExact` | src/main.cc:1334-1360 | a report counts exactly what it has added if the start it took leaves out the requests live before and takes in the batch; otherwise the two differ in number |
| `Stamps.FullRingStartExact` | src/main.cc:1341-1345 | a start taken from an unused slot or from one that precedes every live request is right if and only if the slot is unused or no live request matches |
| `Stamps.FailedBatchStartExact` | src/main.cc:1341-1345 | a start taken from the last of n failed copies leaves out every live request, and would miss exactly the later requests at the same time among the next n - 1 counters |
| `History.BatchIsLater` | src/main.cc:1334-1362 | appending a batch keeps times and counters in order and is ahead of every report's start |
| `History.EmptyBatchStampExact` | src/main.cc:1337-1347 | the start a report has after a batch is right if and only if the batch does not spoil it, by a condition on the window and the report before the batch and on the requests admitted; covers a full ring, failed copies and admitted batches |
| `History.GoodStartStaysGood` | src/main.cc:1341-1345 | a start not ahead of the counter, such as every admitted batch gives, is never spoiled |
| `History.StrictTimesSpoilNothing` | src/main.cc:1337-1347 | when the batch is later than everything before it, only a batch dropped by a full ring can make a start wrong |
| `StaleStart.FullRingLosesRequest` | src/main.cc:1258-1347 | a run over the rings, for every layout and condition: a report created on a full ring takes the start of an expired request, and ends empty while a request that it should count is live |
| `BaseReport.AddExtendsFold` | src/pinba_update_report_tpl.h:2-47 | the add step extends the fold by one request: keys, counts, times, buckets, result count |
| `BaseReport.RemoveShrinksFold` | src/pinba_update_report_tpl.h:50-100 | the delete step removes the oldest request from the fold; its group exists, so the "no such value" branch is never taken |
| `BaseReport.IncrementalIsRecomputed` | src/pinba_update_report_tpl.h:2-100 | a report kept incrementally equals one recomputed from the live requests, field by field |
| `BaseReport.CountsDeterminesNumber` | src/pinba_update_report_tpl.h:2-47 | a report cannot be the fold over two collections of different size, so a wrong start shows |
| `BaseReportObject.Report.Add` | src/pinba_update_report_tpl.h:2-47 | the in-place updates are the add step of the fold |
| `BaseReportObject.Report.Delete` | src/pinba_update_report_tpl.h:50-100 | the in-place updates are the delete step of the fold, skipped for an empty report and for a request from before the start |
| `BaseReportObject.Report.AddBatch` | src/main.cc:1334-1360 | the add job takes the report from the fold over the live requests to the fold with the batch appended if and only if the start it has then is right; its new state is given in every case |
| `BaseReportObject.Report.DeleteBatch` | src/pool.cc:394-414 | the delete job of an expired prefix leaves the fold over the survivors; its new state is given in every case |
| `TagReport.AddExtendsFold` | src/data.cc:49-104 | adding a request's timers one by one extends every group by that request, counted once per group |
| `TagReport.TakeShrinksFold` | src/data.cc:107-160 | subtracting the oldest request's timers leaves the fold over the others, though groups may vanish midway and slots are reused |
| `TagReport.NewestFirstMiscounts` | src/data.cc:98-102 | if the newest request left first, the next one in its slot would not be counted |
| `TagReportObject.FindTag` | src/data.cc:61-70 | finds the value of the first tag with the report's id: none exactly if no tag carries the id, and v exactly if some tag is (id, v) and no earlier one carries the id |
| `Tags.TagValueIsFirst` | src/data.cc:61-70 | the same of the lookup function that both kinds of tag report use |
| `TagReportObject.TagInfo.Add` | src/data.cc:49-104 | the timer loop is the add step of the fold on each matching timer in order |
| `TagReportObject.TagInfo.Delete` | src/data.cc:107-160 | the timer loop is the subtract step on each matching timer in order, skipped for a request from before the start |
| `TagReportObject.EntryTaken` | src/pinba.h:487-492 | a request is subtracted exactly if it was counted |
| `TagReportObject.TagInfo.AddBatch` | src/data.cc:49-104 | the tag report becomes the fold with the batch appended; `results_cnt` is the number of groups |
| `TagReportObject.TagInfo.DeleteBatch` | src/data.cc:107-160 | the tag report becomes the fold over the survivors |
| `NestedMap.FlatDrop` | src/data.cc:430-435 | deleting an inner entry and then an empty inner map is deleting one pair of the flat map, and leaves no empty inner map |
| `NestedMap.SizeIsSumOfInner` | src/data.cc:311-450 | the number of pairs is the sum of the inner sizes |
| `TwoLevel.TagByScript.Add` | src/data.cc:311-383 | flattened, adding to the script map is adding to a map keyed by script and value; `results_cnt` is its size |
| `TwoLevel.TagByScript.Delete` | src/data.cc:386-450 | flattened, deleting is deleting from that map, also when the inner map vanishes within one request's timer loop; no empty inner map is left |
| `TwoLevel.TagByScript.AddBatch` | src/data.cc:311-383 | the flattened report becomes the fold with the batch appended |
| `TwoLevel.TagByScript.DeleteBatch` | src/data.cc:386-450 | the flattened report becomes the fold over the survivors |
| `RequestTagReport.TagByHost.Add` | src/data.cc:1982-2042 | flattened, a request with the report's tag is added to the group of its host and value, and no other request is |
| `RequestTagReport.TagByHost.Delete` | src/data.cc:2045-2104 | flattened, exactly a counted request is subtracted, and no empty host map is left |
| `RequestTagReport.TagByHost.AddBatch` | src/data.cc:1982-2042 | the flattened report becomes the fold with the batch appended |
| `RequestTagReport.TagByHost.DeleteBatch` | src/data.cc:2045-2104 | the flattened report becomes the fold over the survivors |
| `RequestTagReport.FindRequestTag` | src/data.cc:1992-2001 | the same for the request tags and the report's tag name |
| `TagGroups.TagInfoGroups` | src/data.cc:49-123 | a value is a group of the one-level report exactly if a counted live request has a timer whose first tag with the report's id has that value; the group counts the requests that have one and totals exactly their timers |
| `TagGroups.ScriptGroups` | src/data.cc:311-450 | the same for the report by script, with script and value from the same request |
| `TagGroups.HostGroups` | src/data.cc:1982-2104 | host and value are a group of the request-tag report exactly if a counted live request has that host and its first tag with the report's name has that value |
| `TagGroups.BaseGroups` | src/pinba_update_report_tpl.h:2-100 | a key is a group of a base report exactly if a counted live request has it |
| `ReportJobs.Reports.Hear` | src/main.cc:1334-1473 | the add jobs of a batch take every report of every shape to its fold with the batch appended, give each base report without a start the one at `in`, and spoil exactly those whose start the batch makes wrong; only base reports hear of a batch of which nothing was admitted; request-tag reports hear only of batches with request tags, tag reports only of batches with timers |
| `ReportJobs.Reports.Delete` | src/pool.cc:584-652 | the delete jobs take every report to its fold over the survivors |
| `Run.Monitor.OnArrive` | src/main.cc:1258-1481 | one batch keeps the window sound and every report equal to its fold, and leads to exactly the next world: the requests admitted, the start of each base report, and which of them the batch spoils |
| `Run.Monitor.OnLapse` | src/pool.cc:559-695 | one expiry keeps both; exactly the longest prefix older than the cutoff leaves, and no start or mark of a report changes |
| `Run.Monitor.Play` | src/main.cc:1194-1517 | any run of batches and expirations goes through exactly the worlds its events lead to and ends with a sound window and every report equal to its fold over the requests then live; for a base report: if no event spoiled it, or if an admitted batch gave it its start before or during the run, or, with strictly increasing batch times, unless a full ring dropped a batch before it had a start and misled it |
| `Run.Begin` | src/pool.cc:120-140 | an empty window with new reports of every shape is a sound state for a run to begin in |
| `Timeline.SpoiltExactly` | src/main.cc:1334-1347 | a base report is spoiled at the end of a run if and only if it was at the start or some batch of the run spoils it, by the world before that batch |
| `Timeline.AdmissionSettles` | src/main.cc:1341-1345 | a batch of which something was admitted gives an unspoiled report without a start a good one |
| `Timeline.SettledStays` | src/main.cc:1341-1345 | a report with a good start is never spoiled, through any run |
| `Timeline.OnlyFullRingsSpoil` | src/main.cc:1258-1347 | with strictly increasing batch times a report is spoiled if and only if it was before or a full ring dropped a batch while it had no start, a request had expired and a live one matched |
| `Timeline.NothingLost` | src/main.cc:1258-1481 | over any run, the requests that left followed by those live are those live at first followed by those admitted, and the counter has moved by the number admitted |
| `Launch.LaunchAdvances` | src/main.cc:1522-1540 | the next launch time is later than the last, whether the turn was late or not and whatever the clock shows |
| `Launch.OnePeriodLater` | src/main.cc:1522-1540 | a turn on time comes one period after the last launch, a late one a period after the clock reading |
| `Launch.LaunchesAreStrict` | src/main.cc:1522-1540 | so the batches of a run come at strictly increasing times |
| `Conditions.Check` | src/pinba.h:383-420 | accepts when the time is within the given bounds and the counted matching pairs, up to a wrong value, are as many as the wanted tags |
| `Conditions.CountTags` | src/pinba.h:402-415 | the nested loops with their early exit compute the tally of matching pairs |
| `Conditions.TagCheckExact` | src/pinba.h:394-420 | the tag check selects exactly the requests that carry every wanted tag, for all wanted lists, if and only if the request repeats no tag name |
| `Conditions.WantedOnceIsExact` | src/pinba.h:394-420 | for one list of wanted tags the check is exact if no wanted name occurs twice in the request |
| `Conditions.RepeatIsRefused` | src/pinba.h:402-419 | a request that repeats a tag name is refused by a report that asks for a tag it carries |
| `Conditions.RepeatStandsIn` | src/pinba.h:402-419 | a repeated tag can stand in for a wanted tag that is missing |
| `Percentile.Parse` | src/pinba_percentile.h:21-41 | accepts exactly the decimals with at most nine fraction digits and value in (0, 100]; numerator over denominator is the percentage over 100; 64 bits suffice throughout |
| `Percentile.NumeralOfDecimal` | src/pinba_percentile.h:28-36 | the value that the grammar gives to the decimal notation of a number is that number |
| `Percentile.WholePercentages` | src/pinba_percentile.h:21-41 | of the whole numbers exactly 1 to 100 are accepted, with their own value |
| `Percentile.RankIsLeast` | src/pinba_percentile.h:43-51 | the rank is the least number whose share is at least the percentile, and lies in 1..count |
| `Percentile.RankMonotone` | src/pinba_percentile.h:43-51 | a larger percentile never has a smaller rank |
| `PercentileQuery.BucketsHoldAll` | src/pinba.h:468-474 | the bucket counts sum to the number of samples |
| `PercentileQuery.BaseRow` | src/ha_pinba.cc:4029-4039 | a percentile column of a nonempty base group lies in the bucket of the rank-th smallest live sample, within one segment of that sample |
| `PercentileQuery.TagRow` | src/ha_pinba.cc:4029-4039 | so does that of a tag group, with samples weighted by hits |
| `PercentileQuery.NearRankthRequest` | src/ha_pinba.cc:4029-4039 | such a value is within one segment of a request with fewer than rank quicker ones and at least rank no slower ones |
| `TagTotals.SampleMeans` | src/pinba.h:448-456 | a timer is a sample of its hit count, each hit with an equal share of the timer's value |
| `LiveQuery.BaseColumn` | src/ha_pinba.cc:4029-4039 | for a group of a base report that agrees with the window: the percentile is within one segment of the duration of the rank-th quickest of its live requests |
| `LiveQuery.TagColumn` | src/ha_pinba.cc:4029-4039 | the same for a group of a tag report, with timers weighted by hits |
| `LiveQuery.QueriesApply` | src/ha_pinba.cc:4029-4039 | in every sound state of a run every unspoiled base report and every tag report agrees with the window, and every live duration has a bucket |
| `Dictionary.EveryInterleavingIsSound` | src/pinba_dictionary.cc:8-88 | every interleaving of interns, lookups, hand-overs, releases and sweeps keeps the invariant: one live word per key, reference counts equal to owner slots, exact gauges, exclusive writer |
| `Dictionary.EveryRunIsSound` | src/pinba_dictionary.cc:8-88 | every run that starts with an empty dictionary keeps it |
| `Dictionary.InvKept` | src/pinba_dictionary.cc:8-88 | every single step keeps the invariant |
| `Dictionary.OwnedWordSurvives` | src/pinba_dictionary.cc:21-60 | a word stays live and keeps its key as long as some owner slot holds it, through any run, lock upgrades and sweeps included |
| `Dictionary.PointerEqualityIsKeyEquality` | src/pinba.h:402-412 | two owned words are the same word exactly if their keys are equal |
| `Dictionary.OwnerKeptRelease` | src/pinba_dictionary.h:19-32 | releasing an owner slot finds a positive count and keeps counts equal to owners |
| `Dictionary.GaugesAreExact` | src/pinba_dictionary.cc:41-43 | with no writer, the gauges are the number of words and the sum of their charges modulo 2^64, and equal to them while that sum is below 2^64 |
| `Dictionary.BudgetIsRespected` | src/pinba_dictionary.cc:25-53 | a budgeted intern that creates a word ends within both limits, and so within 64 bits; one that does not create changes no word and no gauge |
| `Dictionary.ByteTestDoesNotWrap` | src/pinba_dictionary.cc:29-30 | the byte test with its 64-bit subtraction is the exact comparison of bytes plus charge with the limit |
| `Dictionary.BudgetedRunsStayExact` | src/pinba_dictionary.cc:25-53 | when every intern has a byte budget, the bytes stay below 2^64 through any run and the gauges never wrap |
| `Dictionary.InternDelivers` | src/pinba_dictionary.cc:55-60 | a successful intern hands over the live word of its key, with a reference that its caller owns |
| `DictionaryRuns.DeliversWhatWasAsked` | src/pinba_dictionary.cc:8-60 | in every run a successful intern delivers the word whose key is the first min(length, 64) characters of the string that the thread asked for |
| `DictionaryRuns.OwnersHoldTheirTexts` | src/pinba_dictionary.h:19-32 | in every run an owner slot holds a word exactly if the takes, moves and releases say so, and then the word of the text that was asked for |
| `DictionaryRuns.SameWordIffSameText` | src/pinba.h:402-412 | so two slots hold the same word exactly if the cut-off texts they stand for are equal |
| `DictionaryRuns.LookupFindsWhatIsThere` | src/pinba_dictionary.cc:63-68 | a lookup finds exactly the names in the dictionary and ends with a reference to their word |
| `DictionaryRuns.InternFindsWhatIsThere` | src/pinba_dictionary.cc:11-19 | an intern of a name whose first 64 characters are in the dictionary ends with a reference to that word under the read lock; any other gives the lock up |
| `DictionaryRuns.SweepReclaims` | src/pinba_dictionary.cc:70-88 | after a whole sweep only words remain that were there and had an owner when it began, whatever is passed on or dropped meanwhile |
| `Validation.Validate` | src/pinba_request_validation.h:27-70 | returns no error exactly on well-formed requests, and otherwise the error of the first fault in checking order |
| `Validation.ScanTimers` | src/pinba_request_validation.h:42-53 | stops at the first timer over a limit or past the flattened tags and says which; otherwise the total is the sum of the tag counts |
| `Validation.ScanIndices` | src/pinba_request_validation.h:57-68 | accepts exactly arrays of dictionary indices |
| `Validation.StoredTimerCount` | src/pinba_request_validation.h:17-23 | counts the timers with hits and tags |
| `Validation.IndicesInBounds` | src/main.cc:641-658 | in a well-formed request every flattened tag index, and every dictionary index found there, is in bounds |
| `Validation.AddTimers` | src/main.cc:789-887 | stores exactly the timers worth storing, in order, each with the tags of its own prefix-sum slice even after skipped timers; every tag due is stored or counted as dropped |
| `Validation.ResolveTags` | src/main.cc:849-885 | resolves the tags of one slice in order; every tag is stored or counted as dropped |
| `Validation.TagsComplete` | src/main.cc:849-876 | when no tag allocation fails a timer carries all tags of its slice, name by name |
| `Validation.ValidatedIsAdmissible` | src/main.cc:789-887 | when no tag allocation fails, a validated request yields timers that are used, tagged, labelled and within the range of the histograms, which is what window and reports ask for |
| `Validation.SecondsTracked` | src/main.cc:720-742 | a duration as it is stored lies in the range that histograms track |
| `Accounting.StageOne` | src/main.cc:959-992 | a checked request is counted as invalid under the first of its faults, as rejected for space or for resources, or as staged, and only a staged one enters the pool |
| `Accounting.StageTree` | src/main.cc:959-996 | every request of a datagram's tree is checked once, parents first, and the stages form the exact chain of what becomes of each: staged exactly if well formed with room and memory, and every counter determined |
| `Accounting.StageJob` | src/main.cc:954-998 | so does a job over all datagrams of its read pool, from an empty pool |
| `Accounting.ChainExact` | src/main.cc:959-992 | after a chain the pool has gained exactly the chosen records in order, and the counters have moved by the number of requests, of malformed ones, of valid ones and of staged ones |
| `Accounting.AllWellFormedStaged` | src/main.cc:959-992 | with memory to spare exactly the well-formed requests are staged |
| `Accounting.StagedGood` | src/main.cc:975-990 | staged records of validated requests may be admitted by the window |
| `Accounting.Pipeline.StageBatch` | src/main.cc:1234-1250 | each staging pool is the outcome of its own chain, on one ledger after another; checked grows by the number of requests in all trees and staged by the number of records in the pools |
| `Accounting.Pipeline.Offer` | src/main.cc:1267-1317 | the successful copies of the requests that fit become live, in order, with their timers exactly if those fit or memory allows; every staged request is admitted, lost for capacity or failed; losses mean that the rest filled the window |
| `Accounting.Pipeline.Batch` | src/main.cc:1258-1489 | from datagrams to live requests: the staging chains, which of the staged requests become live, and the exact ledger; staged = admitted + capacity drops + allocation drops, live = admitted - expired; capacity drops occur only when the window fills up |
| `Accounting.Pipeline.Expire` | src/pool.cc:687-694 | the longest old prefix leaves and exactly that many are counted |
| `HandOff.EveryHandOffIsSound` | src/main.cc:1786-1832 | the hand-off invariant holds in every state of every interleaving of collectors and data thread |
| `HandOff.HandOffKept` | src/main.cc:1212-1217 | every single step keeps the invariant |
| `HandOff.ConsumedOnceInOrder` | src/main.cc:1491-1516 | per collector, the datagrams freed are a prefix of those worked on, and these of the ones pushed in the run; at rest nothing is half done and all that was pushed is freed or waits in the write pool |
| `HandOff.CycleFrees` | src/main.cc:1212-1516 | when a cycle of the data thread ends, exactly the datagrams pushed before its swap have been worked on and freed |
| `HandOff.EnqueuedIsPublished` | src/main.cc:1806-1832 | the enqueued counter is the number of datagrams pushed and published, by the steps of the run alone |
| `HandOff.SwapFindsReadPoolsEmpty` | src/main.cc:1212-1217 | at a swap every read pool is empty and no collector is between lock and unlock |
| `HandOff.QueueGaugeIsExact` | src/main.cc:1510-1513 | `queue_live` is enqueued minus completed and the subtraction never underflows |
| `Registry.Tables.Open` | src/ha_pinba.cc:2223-2251 | attaches a table to its index once and counts it if there is a report; reopening changes nothing |
| `Registry.Tables.Create` | src/pinba_regenerate_report_tpl.h:7-44 | a report exists after first use exactly if a table is attached; an existing one is returned, a new one counts the attached tables |
| `Registry.Tables.Rename` | src/ha_pinba.cc:2268-2289 | moves the table within its report, refuses an existing target, and leaves reports alone |
| `Registry.Tables.DropTable` | src/ha_pinba.cc:825-918 | detaches the table and gives up one use |
| `Registry.Tables.Release` | src/ha_pinba.cc:880-914 | at count one the handle, the report and its place in the array go; otherwise only the count and the table list change |
| `Registry.DropDestroysExactlyTheLast` | src/ha_pinba.cc:883-914 | a report is destroyed exactly when no table is left attached to it |
| `Registry.EveryHistoryIsSound` | src/ha_pinba.cc:825-943 | over any history with fixed comments the table maps are mutual inverses and every use count is the number of attached tables, which is not zero |
| `Registry.TablesFromHistory` | src/ha_pinba.cc:825-943 | the table map is exactly what the history of opens, renames and drops says |
| `Registry.OpenIsSoundIffCommentFixed` | src/ha_pinba.cc:2223-2251 | opening keeps the registry sound if and only if the table's comment did not change |
| `Registry.ArrayDelete` | src/data.cc:2719-2733 | removes one occurrence of the report and keeps the rest |
| `KernelDrops.DropsAreExact` | src/main.cc:84-105 | in every interleaving whose samples stay within half the counter's range of the cursor, drops counted plus won differences not yet counted are the largest cumulative sample dealt with, across wrap-around |
| `KernelDrops.AheadIsExact` | src/main.cc:94-95 | the 32-bit difference orders close counts correctly and equals their true difference, across wrap-around |
| `KernelDrops.RestingMetricIsExact` | src/main.cc:93-100 | with no collector in the loop the metric itself is the largest sample that was delivered in the run |
| `KernelDrops.SamplesAccounted` | src/main.cc:84-105 | every delivered sample has been dealt with or is being dealt with, and no other |
| `KernelDrops.LongSilenceLosesDrops` | src/main.cc:94-95 | a lone sample is counted exactly if and only if the kernel's count moved by less than half its range |

## Left out

- Sockets, epoll, `recvmmsg`, clocks, logging and thread start and stop: input and output around the model.
- The MySQL handler, `*_fetch_row` and column stores: field copying over the server's interface.
- `kbytes_total`, `memory_footprint`, `pinba_round` and the float branch of the percentile rank: rounding makes add-then-subtract inexact, so there is no fold to prove.
- Rounding of times to float in histograms: samples are exact reals, so the bucket at a segment edge may differ from the one the float division picks.
- tag2, tagN and rtagN reports, and the info forms of request-tag reports: the same steps with longer keys.
- The tag descriptor registry: names map to ids through a map that is given; a missing name stands for a failed allocation.
- Hash map internals and iteration order: `pinba_map` and `pinba_lmap` are Dafny maps.
- `delete_all_rows` and shutdown: they reset the pools outside the window protocol.
- Integer widths of `size_t` and `int` counters other than those named under Assumptions.
- Copy, merge and clear jobs are run one after another by the methods; a schedule lemma for each kind covers every interleaving of their slot writes, with one slot written in one step.
- Reallocation of per-record tag and word buffers: a copy either succeeds or fails as a whole.
- The shortcut that skips tag and request-tag delete jobs when no expired request has timers or tags: the jobs are run and find nothing.
- A release and the clearing of its owner slot are one step in the dictionary model, and hand-overs and releases are free steps of it: they are not tied to the copy jobs and expirations that perform them.
- A failed `realloc` in `pinba_array_add` (src/data.cc:2708-2711) loses the old array; the model assumes it succeeds.
- Tag, tagN and request-tag tables in the registry: base reports only.
- Peak gauges, durations and the other metrics that no invariant mentions.
