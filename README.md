# UOJ submissions: judging, rejudging and history versions

A Dafny model of the submission engine of the UOJ online judge, class `UOJSubmission`
(`web/app/models/UOJSubmission.php`). The database is a value `Db`: the live
`submissions` rows as a map from id to row, the `submissions_history` table as a
sequence in insertion order, and the next auto-increment history id. A `Store` class
holds it for the operations that change it.

- `records.dfy` (module `SubmissionRecords`): rows, statuses, the decoded JSON columns
  (`result`, `judge_reason`), the store and its well-formedness (live rows under their
  own id, distinct history ids).
- `versions.dfy` (module `Versions`): a submission object (`Submission` class: the shown
  `info` and the remembered `latest_version`), the history overlay `loadHistory`, the
  lookups `loadHistoryByTime` / `loadHistoryByTID`, the derived `isLatest` / `isMajor` /
  `getTID`, and `deleteThisMinorVersion`.
- `judging.dfy` (module `Judging`): `onJudged`, the judger's callback. Its `judge_time`
  is a fencing token that picks the live row or a history version. The update record
  `set_q` is built field by field. It is then written to the live row or to the matching
  history rows. `JudgeStep` is the whole call as a function of the database before it,
  and the method `OnJudged` is proved equal to it.
- `rejudge.dfy` (module `Rejudge`): `rejudgeSubmissions` (bucketing by contest),
  `rejudgeSimilarSubmissions` (batches of `batch_size`, major snapshot-and-reset or minor
  annotation rows), `rejudgeAll` and its wrappers. `RejudgeSpec` is the whole rejudge as
  a function; the methods are proved equal to it, loop by loop.
- `visibility.dfy` (module `Visibility`): `getActualScore`, `viewerCanSeeScore`,
  `hasFullyJudged`, `userCanRejudge`, and how their answers follow the operations above.

Outside inputs are parameters. The judge-time parser (`DateTime::createFromFormat`
followed by `format`) is a partial function `parse`. The contest's own rejudge reason
is a function of the contest id. The logged-in user is an `Option<string>`. The
super-user and manager checks are booleans.

## Model

| member | source | states |
|---|---|---|
| `Versions.Overlay` | web/app/models/UOJSubmission.php:629-647 | overlaying history keys never changes the id, problem, contest, submitter, content flag or status details |
| `Versions.OverlayActualScorePublic` | web/app/models/UOJSubmission.php:638-641 | after an `actual_score` key the score is that value, `hidden_score` is null, the score is no longer hidden, and the actual score equals it |
| `Versions.OverlayHistoryRow` | web/app/models/UOJSubmission.php:629-647 | loading a history row shows exactly that row's judgement, TID and type, with its score public, under the original identity |
| `Versions.OverlayAppend` | web/app/models/UOJSubmission.php:633-645 | overlaying two key lists one after the other equals overlaying their concatenation |
| `Versions.FindFirst` | web/app/models/UOJSubmission.php:659-666 | `selectFirst` finds the first matching row, or none when no row matches |
| `Versions.Version.IsLatest` | web/app/models/UOJSubmission.php:457-459 | the latest version is always a major one |
| `Versions.Version.IsMajor` | web/app/models/UOJSubmission.php:461-463 | an object with nothing loaded is major; a loaded version of type `Minor` is not |
| `Versions.Version.GetTID` | web/app/models/UOJSubmission.php:465-467 | the TID is 0 while nothing is loaded, and the loaded row's `tid` key afterwards |
| `Versions.Version.Loaded` | web/app/models/UOJSubmission.php:629-632 | `latest_version` becomes the live row on the first load and is kept afterwards |
| `Versions.Version.ByTime` | web/app/models/UOJSubmission.php:649-672 | false exactly when the time does not parse, or differs from the shown judge time and no history row of the submission has it; the object itself when the time equals the shown judge time; otherwise the object shows the first history row of the submission at that time, overlaid, with the live row remembered, and its score is public |
| `Versions.Version.ByTid` | web/app/models/UOJSubmission.php:674-694 | null exactly for a missing or negative TID; false, with nothing loaded, when no row of the submission has that id or when the first such row is major; it loads exactly when that first row exists and is minor; on success the object shows that first row, a minor one, overlaid with the live row remembered, with its TID and `Minor` type |
| `Versions.RemoveVersion` | web/app/models/UOJSubmission.php:621-626 | the delete never grows the table and leaves no row with the given TID |
| `Versions.RemoveVersionKeeps` | web/app/models/UOJSubmission.php:621-626 | the delete keeps exactly the history rows whose id is not the given TID |
| `Versions.RemoveNoneMatching` | web/app/models/UOJSubmission.php:621-626 | deleting an id no history row has changes nothing |
| `Versions.RemoveVersionExactlyOne` | web/app/models/UOJSubmission.php:621-626 | with distinct history ids, deleting a row's id removes exactly that row |
| `Versions.Submission.constructor` | web/app/models/UOJSubmission.php:397-401 | a new object shows the live row and remembers no latest version |
| `Versions.Submission.LoadHistory` | web/app/models/UOJSubmission.php:629-647 | the loop overlays the keys in order, after remembering the live row on the first call |
| `Versions.Submission.LoadHistoryByTime` | web/app/models/UOJSubmission.php:649-672 | returns false and changes nothing, or returns the object showing the version `ByTime` selects; never null |
| `Versions.Submission.LoadHistoryByTID` | web/app/models/UOJSubmission.php:674-694 | the answer and the new state are those of `ByTid` |
| `Versions.Submission.DeleteThisMinorVersion` | web/app/models/UOJSubmission.php:617-627 | refuses exactly on a major version; otherwise deletes the history rows whose id is the shown TID; live rows never change |
| `Versions.FreshVersionIsLatest` | web/app/models/UOJSubmission.php:457-467 | with no loaded history the object is latest and major and its TID is 0 |
| `Versions.LoadHistoryRemembersOnce` | web/app/models/UOJSubmission.php:629-633 | after two loads `latest_version` is still the original live row and both overlays are applied |
| `Versions.ByTidLoadsMinor` | web/app/models/UOJSubmission.php:674-694 | a successful load by TID finds a minor history row of the submission with that id, and shows it as a minor, non-latest version with that TID |
| `Versions.LoadedRowFlags` | web/app/models/UOJSubmission.php:457-467 | after a history row is loaded the object shows that row's TID, is major exactly when the row is, and is latest exactly when the row is major and carries the live judge time |
| `Versions.ByTidThenDelete` | web/app/models/UOJSubmission.php:617-627 | a version loaded by TID is neither major nor latest, so deleting it succeeds and removes exactly its history row |
| `SubmissionRecords.Info.ActualScore` | web/app/models/UOJSubmission.php:73-75 | the actual score is `hidden_score` when the score is hidden to others and `score` otherwise |
| `Judging.WithFinalResult` | web/app/models/UOJSubmission.php:159-165 | the decoded result gains `final_result` = the posted result and keeps its own verdict |
| `Judging.JudgedSetQ` | web/app/models/UOJSubmission.php:154-213 | an update record exists exactly for a `Judging` or `Judged, Judging` target; a history target's record never names `hidden_score` |
| `Judging.WriteHistory` | web/app/models/UOJSubmission.php:222-229 | the history update keeps the table's length and every row's history id and submission id |
| `Judging.Locate` | web/app/models/UOJSubmission.php:139-152 | the callback finds no version exactly when its token names neither the live row nor any history row of the submission; a found version belongs to the submission and is the latest exactly when the token names the live row |
| `Judging.JudgeStep` | web/app/models/UOJSubmission.php:136-236 | a call that writes nothing leaves the database as it was; no call adds or removes rows, and every history row keeps its history id and submission id; a live write leaves history alone and a history write leaves live rows alone |
| `Judging.OnJudged` | web/app/models/UOJSubmission.php:136-236 | the method's answer and new database are those of `JudgeStep` |
| `Judging.RejectedCallbackChangesNothing` | web/app/models/UOJSubmission.php:139-151 | the callback fails exactly when the submission is missing, or when neither the live row nor any history row of it has the judge time; a failed or ignored callback changes nothing |
| `Judging.JudgingLiveRow` | web/app/models/UOJSubmission.php:166-204 | a live `Judging` row becomes `Judged` (or `Judged, Waiting` with a final test config) with the result, error, time, memory of the verdict and empty status details; the actual score lands in `score`, or in `hidden_score` when hidden; every other column and every other row stays as it was |
| `Judging.FinalRoundLiveRow` | web/app/models/UOJSubmission.php:159-165 | a live `Judged, Judging` row becomes `Judged` with `final_result` added; score, time, memory and error are untouched |
| `Judging.HistoryTargetLeavesLiveAlone` | web/app/models/UOJSubmission.php:215-235 | a callback whose token does not name the live row never writes the live row and never asks for the best-AC update; only history rows at that time can change |
| `Judging.JudgingHistoryRow` | web/app/models/UOJSubmission.php:205-209 | on a `Judging` history target, every history row of the submission at that time gets the verdict and its own `score`, and nothing else changes |
| `Judging.FinalRoundHistoryRow` | web/app/models/UOJSubmission.php:159-229 | on a `Judged, Judging` history target, every history row of the submission at that time becomes `Judged` with `final_result` added to the target's result; score, time, memory and error stay; live rows are untouched |
| `Judging.UnhandledStatusIgnored` | web/app/models/UOJSubmission.php:210-213 | a target in any other status is ignored and nothing is written |
| `Judging.ReplayOnLiveIgnored` | web/app/models/UOJSubmission.php:154-213 | the same callback applied twice to the live row is ignored the second time |
| `Judging.ReplayOnHistoryIgnored` | web/app/models/UOJSubmission.php:154-229 | the same callback applied twice to a superseded version's history rows is ignored the second time |
| `Judging.JudgeStepPreservesWellFormed` | web/app/models/UOJSubmission.php:215-230 | every callback keeps the database well formed |
| `Judging.WriteHistoryWellFormed` | web/app/models/UOJSubmission.php:222-229 | the history update keeps the database well formed |
| `Rejudge.Filter` | web/app/models/UOJSubmission.php:282-289 | a bucket holds only given submissions of its contest (0 for none) |
| `Rejudge.BucketKeys` | web/app/models/UOJSubmission.php:282-289 | the buckets are distinct and exist exactly for the contests of the given submissions |
| `Rejudge.Bucketize` | web/app/models/UOJSubmission.php:282-289 | the loop builds one bucket per key, holding that contest's submissions in input order |
| `Rejudge.FilterPartitions` | web/app/models/UOJSubmission.php:282-289 | each submission lands in its own contest's bucket as often as it was given, and in no other bucket |
| `Rejudge.Chunks` | web/app/models/UOJSubmission.php:335 | batches are non-empty, hold at most `batch_size` elements, all but the last exactly that many, and concatenate back to the bucket |
| `Rejudge.InFlatten` | web/app/models/UOJSubmission.php:335 | an element is in the concatenated batches exactly when it is in one of them |
| `Rejudge.Ids` | web/app/models/UOJSubmission.php:336 | one id per batch element, and exactly the ids the batch names |
| `Rejudge.MakePlan` | web/app/models/UOJSubmission.php:302-333 | the reason text is `<contest reason>: <text>` when the first submission's contest gives a reason text, else the caller's text (default `管理员手动重测该提交记录`); the URL is the caller's, else the contest's, else null; the requestor is the caller's, else the logged-in user, else `''`; the batch size is the caller's, else 16; the rejudge is major unless the caller says otherwise |
| `Rejudge.Eligible` | web/app/models/UOJSubmission.php:362-369 | a row with no judge time, or whose error is `Judgement Failed` or `Judgment Failed`, gets no snapshot; a judged row without error, or with any other error text, does |
| `Rejudge.Snapshots` | web/app/models/UOJSubmission.php:356-371 | a major batch takes no more snapshots than batch ids, numbered consecutively from the next history id |
| `Rejudge.SnapshotsContent` | web/app/models/UOJSubmission.php:345-371 | each snapshot copies the live row of an eligible batch id, with the actual score, under the next history id |
| `Rejudge.SnapshotsOnePerEligible` | web/app/models/UOJSubmission.php:356-371 | a major batch takes exactly one snapshot per distinct eligible id, and none for other ids |
| `Rejudge.MajorResetsIneligibleToo` | web/app/models/UOJSubmission.php:372 | a row the snapshot skipped is still reset by the batch update |
| `Rejudge.MajorBatch` | web/app/models/UOJSubmission.php:337-373 | every live row of the batch gets the full reset (no judge time, empty result, no score, `Waiting Rejudge`, the batch reason) and every other row stays; history is only appended to, and the next id advances by the rows appended |
| `Rejudge.MinorBatch` | web/app/models/UOJSubmission.php:374-389 | a minor batch changes no live row and appends exactly one history row per batch id |
| `Rejudge.MinorBatchOnlyAppends` | web/app/models/UOJSubmission.php:374-389 | a minor batch appends one `major=0` row per id with the reason, empty result and `Waiting Rejudge`, and changes no live row |
| `Rejudge.MajorBatchFrame` | web/app/models/UOJSubmission.php:337-373 | a major batch only appends history rows with fresh ids and keeps the database well formed |
| `Rejudge.MinorBatchFrame` | web/app/models/UOJSubmission.php:374-389 | a minor batch only appends history rows, keeps the database well formed and leaves every live row as it was |
| `Rejudge.FollowsTrans` | web/app/models/UOJSubmission.php:335-390 | two runs of batches, one after the other, together only append history, keep the live ids, leave alone the rows neither names, and reset (major) or keep (minor) the rows they name |
| `Rejudge.ApplyBatchesFrame` | web/app/models/UOJSubmission.php:335-390 | the batches of a bucket only append history, keep the database well formed and the live ids, leave rows they do not name alone, reset every row they name when major and change no live row when minor |
| `Rejudge.RunMajorBatch` | web/app/models/UOJSubmission.php:338-373 | the transaction's effect is `MajorBatch` |
| `Rejudge.RunMinorBatch` | web/app/models/UOJSubmission.php:375-388 | the loop over the batch ids appends the `MinorBatch` rows |
| `Rejudge.RunBatches` | web/app/models/UOJSubmission.php:335-390 | the loop over the batches runs a major or minor batch for each, in order, with the effect of `ApplyBatches` |
| `Rejudge.RunBatch` | web/app/models/UOJSubmission.php:336-389 | one batch runs the major transaction or the minor insert, with the effect of `ApplyBatch` |
| `Rejudge.RejudgeSimilarSubmissions` | web/app/models/UOJSubmission.php:297-392 | the loop over the batches has the effect of `RejudgeBucket` |
| `Rejudge.RejudgeSubmissions` | web/app/models/UOJSubmission.php:281-293 | the loop over the buckets has the effect of `RejudgeSpec` |
| `Rejudge.RejudgeSpec` | web/app/models/UOJSubmission.php:281-293 | rejudging an empty list changes nothing |
| `Rejudge.RejudgeSubmission` | web/app/models/UOJSubmission.php:275-277 | rejudging one submission is rejudging the one-element list |
| `Rejudge.RejudgeRow` | web/app/models/UOJSubmission.php:393-395 | a loaded submission rejudges itself under its own contest |
| `Rejudge.Selects` | web/app/models/UOJSubmission.php:239-242 | a selection names exactly the ids of the live rows that match the condition |
| `Rejudge.SelectWhere` | web/app/models/UOJSubmission.php:239-242 | the selection lists every matching live row once, with its contest, and nothing else |
| `Rejudge.RejudgeAll` | web/app/models/UOJSubmission.php:238-244 | rejudges exactly the rows that match the condition |
| `Rejudge.RejudgeProblem` | web/app/models/UOJSubmission.php:246-253 | rejudges every submission of the problem, with its default reason text |
| `Rejudge.RejudgeProblemAC` | web/app/models/UOJSubmission.php:254-262 | rejudges the problem's submissions whose `score` is 100, with its default reason text |
| `Rejudge.RejudgeProblemGe97` | web/app/models/UOJSubmission.php:263-271 | rejudges the problem's submissions whose `score` is at least 97, with its default reason text |
| `Rejudge.RejudgeFrame` | web/app/models/UOJSubmission.php:281-392 | a rejudge only appends history, keeps the database well formed, leaves every submission it was not given alone; major leaves every given one `Waiting Rejudge` with no judge time; minor changes no live row |
| `Rejudge.ApplyBatchesResets` | web/app/models/UOJSubmission.php:335-390 | the major batches of a bucket reset every row they name with the plan's reason and leave every other row alone |
| `Rejudge.BucketResets` | web/app/models/UOJSubmission.php:297-392 | a major `rejudgeSimilarSubmissions` gives every row of the bucket the full reset with the reason planned from the bucket's first member, and leaves every other row alone |
| `Rejudge.RunBucketsResets` | web/app/models/UOJSubmission.php:290-292 | after the buckets with the given keys, a row whose entries all fall in bucket `c` is reset with that bucket's reason if `c` was among the keys, and untouched otherwise |
| `Rejudge.RejudgeResetsRow` | web/app/models/UOJSubmission.php:281-293 | a major rejudge gives each given submission whose entries share one bucket the full reset with that bucket's planned reason |
| `Rejudge.RejudgeAllResetsEveryMatch` | web/app/models/UOJSubmission.php:238-244 | a major `rejudgeAll` gives every matching row the full reset with the reason planned for its contest's bucket |
| `Rejudge.RejudgeNothingSelected` | web/app/models/UOJSubmission.php:238-244 | nothing is selected exactly when no row matches, and then nothing changes |
| `Rejudge.MajorBatchClearsRow` | web/app/models/UOJSubmission.php:372 | a major batch clears the judge time of every live row it names |
| `Rejudge.MajorBatchMovesTarget` | web/app/models/UOJSubmission.php:356-372 | after a major batch a pending judge time no longer names the live row, but a new snapshot row of the submission carries it with the old status |
| `Rejudge.CallbackOnClearedRow` | web/app/models/UOJSubmission.php:139-151 | a callback whose time misses the live row but names a history row is ignored or written to history, never to the live row |
| `Rejudge.CallbackAfterRejudgeReachesSnapshot` | web/app/models/UOJSubmission.php:146-151 | a judge callback arriving after a major rejudge of its row misses the reset live row, finds the snapshot of its judgement, and never writes the live row |
| `Visibility.HasFullyJudged` | web/app/models/UOJSubmission.php:403-405 | a fully judged submission is in none of the waiting or judging states |
| `Visibility.ViewerCanSeeScore` | web/app/models/UOJSubmission.php:407-414 | the submitter always sees the score; everyone sees a score that is not hidden; a logged-out viewer sees it exactly when it is not hidden; a hidden score is never shown to anyone but the submitter |
| `Visibility.UserCanRejudge` | web/app/models/UOJSubmission.php:446-451 | a super user may always rejudge; a user who neither is one nor manages the problem or contest never may; a submission not fully judged may be rejudged by super users only; a manager may rejudge a fully judged one |
| `Visibility.JudgedScoreNotLeaked` | web/app/models/UOJSubmission.php:407-414 | after a live judgement a viewer sees the score exactly when it is not hidden or they are the submitter; whoever may not see it finds `score` null; the actual score is the verdict's |
| `Visibility.SnapshotScoreRoundTrip` | web/app/models/UOJSubmission.php:73-75 | loading a rejudge snapshot gives back the row's actual score, now visible to every viewer |
| `Visibility.RejudgeRightAfterJudging` | web/app/models/UOJSubmission.php:446-451 | after a `Judging` row is judged a manager may rejudge it exactly when its content has no final test config; a super user always may |
| `Visibility.FinalRoundFullyJudged` | web/app/models/UOJSubmission.php:403-405 | the second judging round leaves the submission fully judged and rejudgeable by its managers |
| `Visibility.RejudgedOnlyBySuperUser` | web/app/models/UOJSubmission.php:446-451 | after a major rejudge only a super user may rejudge the submission again |

## Left out

- `onUpload`, `delete`, the status-table rendering and URI helpers, `sqlForUserCanView`,
  `viewerCanSeeComponents` and the other permission helpers: outside the judging and
  versioning core.
- `sqlForActualScore` is not modelled as SQL; `Info.ActualScore` is the same rule on a
  row, and the major snapshot uses it.
- Score rounding (`roundedScore`, `roundScoreInArray`): scores are integers.
- JSON encoding of `result` and `judge_reason`: they are datatypes. A posted result is
  an error report or a score with time and memory; other result shapes are not modelled.
- The judge-time parser is the parameter `parse`; `DateTime` formats are not modelled.
- Transactions, `for update` locks and concurrent callers: each `onJudged` call and each
  rejudge batch is one atomic step. The open transaction left behind by the
  unknown-status branch (210-213) is not modelled; that branch writes nothing.
- `updateBestACSubmissions`: not modelled as a write. The outcome `Applied(true)` marks
  the calls that request it.
- `getContent('final_test_config')` is the row flag `finalTestConfig`.
- `userIsSubmitter`, `isSuperUser` and `userCanManageProblemOrContest` live outside this
  class. The submitter test is taken as "logged in with the submitter's username"; the
  other two are booleans.
- The history field list `UOJSubmissionHistory::$fields` is not part of this model. The
  overlay keys (TID, time, message, type, status, result, actual score, judger, result
  error, used time, used memory) are the ones `loadHistory` and its callers rely on.
- The order in which `insert ... select` copies rows and `rejudgeAll` selects rows is
  not specified by SQL. Snapshots follow the batch order, first occurrence of each id.
  The selection order is left open.
- The caller's own `set_q` option of a rejudge is not modelled. The contest's rejudge
  reason contributes only its text and URL.
- `hidden_score` is not reset by a major rejudge, exactly as in the source; no lemma
  states anything more about it.
- A contest id of 0 shares the bucket of submissions with no contest, and a contest
  that does not exist is not modelled: the contest reason is a total function.
- `validateUInt` is modelled as "a non-negative integer"; the string form of the TID
  is not modelled.
- A `batch_size` of 0 is an error in `array_chunk` (an exception under PHP 8, a warning
  and a null result under PHP 7); the rejudge operations require a positive batch size
  instead.
- PHP loose comparison (`==`) on judge times and statuses is modelled as equality.
- Assumed schema details: history rows carry a `status_details` column that the history
  field lists never name; snapshot and annotation rows fill the columns the inserts leave
  out with `""`, null or 0; `selectFirst` returns the earliest-inserted matching row (the
  SQL has no `order by`); the `UOJLog::error` calls are not modelled; the rows one
  `insert ... select` adds get consecutive history ids starting at the next free one (the
  database does not promise gap-free ids for such inserts).
- `Rejudge.RejudgeResetsRow`: states the reset of a submission only when all of its given
  entries fall in one contest bucket (as when they come from the row itself or from
  `rejudgeAll`); a submission given under two contest ids is reset by each bucket in turn
  and keeps the later bucket's reason, which no lemma states.
- `Judging.WriteHistory`: its own contract states only the length and the ids it keeps;
  what it writes is stated by `Judging.JudgingHistoryRow`.
- `Versions.Submission.DeleteThisMinorVersion`: answers true for every minor version, where
  the source returns whatever the database delete returns; a failed delete is not modelled.
