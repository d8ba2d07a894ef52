/**
 * Rejudging: the given submissions are bucketed by contest, each bucket is cut
 * into batches, and each batch is one atomic step. A major batch snapshots the
 * eligible live rows into the history table and resets every row of the batch
 * to `Waiting Rejudge`; a minor batch only appends annotation rows.
 */
module Rejudge {
  import opened SubmissionRecords
  import opened Judging

  /** An element of the list a rejudge is given: an id and an optional contest id. */
  datatype SubRef = SubRef(id: nat, contestId: Option<nat>)

  /** The bucket a submission falls in: its contest id, 0 when it has none. */
  function BucketKey(s: SubRef): nat {
    s.contestId.GetOr(0)
  }

  /** The members of bucket `k`, in input order. */
  function Filter(subs: seq<SubRef>, k: nat): (r: seq<SubRef>)
    ensures forall x :: x in r ==> x in subs && BucketKey(x) == k
    decreases |subs|
  {
    if subs == [] then []
    else
      var n := |subs| - 1;
      Filter(subs[..n], k) + (if BucketKey(subs[n]) == k then [subs[n]] else [])
  }

  /** The bucket keys, each once, in order of first appearance. */
  function BucketKeys(subs: seq<SubRef>): (keys: seq<nat>)
    ensures forall i, j :: 0 <= i < j < |keys| ==> keys[i] != keys[j]
    ensures forall k :: k in keys <==> exists s :: s in subs && BucketKey(s) == k
    decreases |subs|
  {
    if subs == [] then []
    else
      var n := |subs| - 1;
      var ks := BucketKeys(subs[..n]);
      assert forall s :: s in subs <==> s in subs[..n] || s == subs[n];
      if BucketKey(subs[n]) in ks then ks else ks + [BucketKey(subs[n])]
  }

  /** The `foreach` that fills `$bucket`, keeping the order in which keys were first met. */
  method Bucketize(subs: seq<SubRef>) returns (keys: seq<nat>, bucket: map<nat, seq<SubRef>>)
    ensures keys == BucketKeys(subs)
    ensures forall k :: k in bucket <==> k in keys
    ensures forall k :: k in bucket ==> bucket[k] == Filter(subs, k)
  {
    keys, bucket := [], map[];
    var i := 0;
    while i < |subs|
      invariant 0 <= i <= |subs|
      invariant keys == BucketKeys(subs[..i])
      invariant forall k :: k in bucket <==> k in keys
      invariant forall k :: k in bucket ==> bucket[k] == Filter(subs[..i], k)
    {
      BucketStep(subs, i);
      var h := BucketKey(subs[i]);
      if h !in bucket {
        FilterEmptyWithoutKey(subs[..i], h);
        bucket := bucket[h := []];
        keys := keys + [h];
      }
      bucket := bucket[h := bucket[h] + [subs[i]]];
      i := i + 1;
    }
    assert subs[..|subs|] == subs;
  }

  lemma BucketStep(subs: seq<SubRef>, i: nat)
    requires i < |subs|
    ensures var h := BucketKey(subs[i]);
      && BucketKeys(subs[..i + 1]) == (if h in BucketKeys(subs[..i]) then BucketKeys(subs[..i]) else BucketKeys(subs[..i]) + [h])
      && forall k :: Filter(subs[..i + 1], k) == Filter(subs[..i], k) + (if h == k then [subs[i]] else [])
  {
    assert subs[..i + 1][..i] == subs[..i];
  }

  lemma FilterEmptyWithoutKey(subs: seq<SubRef>, k: nat)
    requires k !in BucketKeys(subs)
    ensures Filter(subs, k) == []
  {
    assert forall x :: x in Filter(subs, k) ==> x in subs && BucketKey(x) in BucketKeys(subs);
  }

  /** Each submission lands in its own contest's bucket as often as it was given, and in no other bucket. */
  lemma {:induction false} FilterPartitions(subs: seq<SubRef>, k: nat, s: SubRef)
    ensures multiset(Filter(subs, k))[s] == if BucketKey(s) == k then multiset(subs)[s] else 0
    decreases |subs|
  {
    if subs != [] {
      var n := |subs| - 1;
      FilterPartitions(subs[..n], k, s);
      assert subs == subs[..n] + [subs[n]];
    }
  }

  function Flatten<T>(ss: seq<seq<T>>): seq<T>
    decreases |ss|
  {
    if ss == [] then [] else ss[0] + Flatten(ss[1..])
  }

  /** `array_chunk`: consecutive pieces of `n` elements, the last possibly shorter. */
  function Chunks<T>(s: seq<T>, n: nat): (r: seq<seq<T>>)
    requires n > 0
    ensures Flatten(r) == s
    ensures forall i :: 0 <= i < |r| ==> 0 < |r[i]| <= n
    ensures forall i :: 0 <= i < |r| - 1 ==> |r[i]| == n
    decreases |s|
  {
    if s == [] then []
    else if |s| <= n then
      assert Flatten([s]) == s + Flatten([s][1..]);
      [s]
    else
      var rest := Chunks(s[n..], n);
      assert ([s[..n]] + rest)[1..] == rest;
      assert s[..n] + s[n..] == s;
      [s[..n]] + rest
  }

  lemma {:induction false} InFlatten<T>(ss: seq<seq<T>>, x: T)
    ensures x in Flatten(ss) <==> exists i :: 0 <= i < |ss| && x in ss[i]
    decreases |ss|
  {
    if ss != [] {
      InFlatten(ss[1..], x);
      if x in Flatten(ss[1..]) {
        var i :| 0 <= i < |ss[1..]| && x in ss[1..][i];
        assert x in ss[i + 1];
      }
      if exists i :: 0 <= i < |ss| && x in ss[i] {
        var i :| 0 <= i < |ss| && x in ss[i];
        if i > 0 {
          assert x in ss[1..][i - 1];
        }
      }
    }
  }

  /** `array_column($batch, 'id')`: one id per element, and exactly the ids the batch names. */
  function Ids(batch: seq<SubRef>): (ids: seq<nat>)
    ensures |ids| == |batch|
    ensures forall k :: k in ids <==> k in GivenIds(batch)
  {
    var ids := seq(|batch|, i requires 0 <= i < |batch| => batch[i].id);
    ColumnIsGiven(batch, ids);
    ids
  }

  lemma ColumnIsGiven(batch: seq<SubRef>, ids: seq<nat>)
    requires |ids| == |batch| && forall i :: 0 <= i < |batch| ==> ids[i] == batch[i].id
    ensures forall k :: k in ids <==> k in GivenIds(batch)
  {
    forall k | k in GivenIds(batch) ensures k in ids {
      var s: SubRef :| s in batch && s.id == k;
      var i :| 0 <= i < |batch| && batch[i] == s;
      assert ids[i] == k;
    }
  }

  /** The options a caller may pass; `None` is a key the caller left out. */
  datatype RejudgeConfig = RejudgeConfig(
    reasonText: Option<string>,
    reasonUrl: Option<string>,
    requestor: Option<string>,
    batchSize: Option<nat>,
    major: Option<bool>)

  /** What a contest says about rejudging one of its submissions. */
  datatype ContestReason = ContestReason(reasonText: Option<string>, reasonUrl: Option<string>)

  /** The resolved options of one bucket. */
  datatype Plan = Plan(reason: JudgeReason, batchSize: nat, major: bool)

  const DefaultReasonText: string := "管理员手动重测该提交记录"
  const DefaultBatchSize: nat := 16

  /**
   * The options of a bucket whose first member is `first`: the caller's reason text,
   * prefixed by the contest's own reason when the submission belongs to a contest;
   * the caller's url, else the contest's; the caller's requestor, else the current
   * user, else ''; batches of 16 and a major rejudge unless the caller says otherwise.
   */
  function MakePlan(cfg: RejudgeConfig, first: SubRef, contestReason: nat -> ContestReason, currentUser: Option<string>): (p: Plan)
    requires cfg.batchSize != Some(0)
    ensures p.batchSize > 0 && p.reason.Reason?
    ensures var base := cfg.reasonText.GetOr(DefaultReasonText);
      && |base| <= |p.reason.text| && p.reason.text[|p.reason.text| - |base|..] == base
      && (first.contestId.Some? && contestReason(first.contestId.value).reasonText.Some? ==>
            p.reason.text == contestReason(first.contestId.value).reasonText.value + ": " + base)
      && (first.contestId.None? || contestReason(first.contestId.value).reasonText.None? ==> p.reason.text == base)
    ensures cfg.reasonUrl.Some? ==> p.reason.url == cfg.reasonUrl
    ensures cfg.reasonUrl.None? && first.contestId.Some? ==> p.reason.url == contestReason(first.contestId.value).reasonUrl
    ensures cfg.reasonUrl.None? && first.contestId.None? ==> p.reason.url == None
    ensures cfg.requestor.Some? ==> p.reason.requestor == cfg.requestor.value
    ensures cfg.requestor.None? && currentUser.Some? ==> p.reason.requestor == currentUser.value
    ensures cfg.requestor.None? && currentUser.None? ==> p.reason.requestor == ""
    ensures cfg.batchSize.None? ==> p.batchSize == DefaultBatchSize == 16
    ensures cfg.batchSize.Some? ==> p.batchSize == cfg.batchSize.value
    ensures p.major <==> cfg.major != Some(false)
  {
    var base := cfg.reasonText.GetOr(DefaultReasonText);
    var cr := if first.contestId.Some? then Some(contestReason(first.contestId.value)) else None;
    var text := if cr.Some? && cr.value.reasonText.Some? then cr.value.reasonText.value + ": " + base else base;
    var url := if cfg.reasonUrl.Some? then cfg.reasonUrl else if cr.Some? then cr.value.reasonUrl else None;
    var requestor := if cfg.requestor.Some? then cfg.requestor.value else currentUser.GetOr("");
    Plan(Reason(text, requestor, url), cfg.batchSize.GetOr(DefaultBatchSize), cfg.major.GetOr(true))
  }

  const JudgementFailed: string := "Judgement Failed"
  const JudgmentFailed: string := "Judgment Failed"

  /** A live row is snapshotted when it was judged and did not fail for infrastructure reasons. */
  predicate Eligible(row: Info)
    ensures row.judgeTime.None? ==> !Eligible(row)
    ensures row.resultError == Some(JudgementFailed) || row.resultError == Some(JudgmentFailed) ==> !Eligible(row)
    ensures row.judgeTime.Some? && (row.resultError.None? || row.resultError.value !in {JudgementFailed, JudgmentFailed}) ==> Eligible(row)
  {
    && row.judgeTime.Some?
    && (row.resultError.None? || (row.resultError.value != JudgementFailed && row.resultError.value != JudgmentFailed))
  }

  /** The major history row copied from live row `id`, carrying its actual score. */
  function SnapshotOf(id: nat, row: Info, tid: nat): HistoryRow {
    HistoryRow(tid, id, row.judgeReason, row.judgeTime, row.judger, row.result, row.status, "",
               row.resultError, row.ActualScore(), row.usedTime, row.usedMemory, true)
  }

  /** The snapshots of a major batch: one per distinct eligible id of the batch, numbered from `tid`. */
  function Snapshots(live: map<nat, Info>, ids: seq<nat>, tid: nat): (r: seq<HistoryRow>)
    ensures |r| <= |ids|
    ensures forall i :: 0 <= i < |r| ==> r[i].id == tid + i
    decreases |ids|
  {
    if |ids| == 0 then []
    else
      var n := |ids| - 1;
      var prev := Snapshots(live, ids[..n], tid);
      var id := ids[n];
      if id in live && Eligible(live[id]) && id !in ids[..n] then prev + [SnapshotOf(id, live[id], tid + |prev|)]
      else prev
  }

  /** The ids of `ids` whose live rows are eligible. */
  function EligibleIds(live: map<nat, Info>, ids: seq<nat>): set<nat> {
    set id | id in ids && id in live && Eligible(live[id])
  }

  /** The submissions a run of history rows belongs to. */
  function SubmissionIds(r: seq<HistoryRow>): set<nat> {
    set i | 0 <= i < |r| :: r[i].submissionId
  }

  lemma SubmissionIdsAppend(r: seq<HistoryRow>, h: HistoryRow)
    ensures SubmissionIds(r + [h]) == SubmissionIds(r) + {h.submissionId}
  {
    var r' := r + [h];
    assert r'[|r|] == h;
    forall x | x in SubmissionIds(r) ensures x in SubmissionIds(r') {
      var i :| 0 <= i < |r| && r[i].submissionId == x;
      assert r'[i] == r[i];
    }
  }

  /** Snapshot `i` copies the live row of an eligible batch id, and carries history id `tid + i`. */
  lemma {:induction false} SnapshotsContent(live: map<nat, Info>, ids: seq<nat>, tid: nat)
    ensures var r := Snapshots(live, ids, tid);
      forall i {:trigger r[i]} :: 0 <= i < |r| ==>
        r[i].submissionId in ids && r[i].submissionId in live && Eligible(live[r[i].submissionId])
        && r[i] == SnapshotOf(r[i].submissionId, live[r[i].submissionId], tid + i)
    decreases |ids|
  {
    if ids != [] {
      var n := |ids| - 1;
      SnapshotsContent(live, ids[..n], tid);
      SnapshotsLast(live, ids, tid);
      assert forall x :: x in ids[..n] ==> x in ids;
    }
  }

  lemma SnapshotsLast(live: map<nat, Info>, ids: seq<nat>, tid: nat)
    requires ids != []
    ensures var n := |ids| - 1; var prev := Snapshots(live, ids[..n], tid); var id := ids[n];
      Snapshots(live, ids, tid) ==
        if id in live && Eligible(live[id]) && id !in ids[..n] then prev + [SnapshotOf(id, live[id], tid + |prev|)] else prev
  {
  }

  lemma EligibleIdsLast(live: map<nat, Info>, ids: seq<nat>)
    requires ids != []
    ensures var n := |ids| - 1; var id := ids[n];
      EligibleIds(live, ids) == EligibleIds(live, ids[..n]) + (if id in live && Eligible(live[id]) then {id} else {})
  {
    var n := |ids| - 1;
    assert forall x :: x in ids <==> x in ids[..n] || x == ids[n];
  }

  /** History rows that name distinct submissions, exactly those of `ids`. */
  ghost predicate OnePerId(r: seq<HistoryRow>, ids: set<nat>) {
    && (forall i, j :: 0 <= i < j < |r| ==> r[i].submissionId != r[j].submissionId)
    && SubmissionIds(r) == ids
    && |r| == |ids|
  }

  lemma OnePerIdAppend(r: seq<HistoryRow>, ids: set<nat>, h: HistoryRow)
    requires OnePerId(r, ids) && h.submissionId !in ids
    ensures OnePerId(r + [h], ids + {h.submissionId})
  {
    SubmissionIdsAppend(r, h);
    var r' := r + [h];
    forall i | 0 <= i < |r| ensures r'[i].submissionId != h.submissionId {
      assert r'[i] == r[i];
      assert r[i].submissionId in SubmissionIds(r);
    }
  }

  /** A major batch snapshots each eligible row of the batch exactly once, and no other row. */
  lemma {:induction false} SnapshotsOnePerEligible(live: map<nat, Info>, ids: seq<nat>, tid: nat)
    ensures var r := Snapshots(live, ids, tid);
      && (forall i, j :: 0 <= i < j < |r| ==> r[i].submissionId != r[j].submissionId)
      && SubmissionIds(r) == EligibleIds(live, ids)
      && |r| == |EligibleIds(live, ids)|
    decreases |ids|
  {
    if ids == [] {
      assert EligibleIds(live, ids) == {};
      assert SubmissionIds(Snapshots(live, ids, tid)) == {};
    } else {
      var n := |ids| - 1;
      var prev := Snapshots(live, ids[..n], tid);
      var id := ids[n];
      SnapshotsOnePerEligible(live, ids[..n], tid);
      SnapshotsGrow(live, ids, tid);
      if id in live && Eligible(live[id]) && id !in ids[..n] {
        OnePerIdGrow(prev, EligibleIds(live, ids[..n]), Snapshots(live, ids, tid), EligibleIds(live, ids),
                     SnapshotOf(id, live[id], tid + |prev|));
      } else {
        OnePerIdSame(prev, EligibleIds(live, ids[..n]), Snapshots(live, ids, tid), EligibleIds(live, ids));
      }
    }
  }

  /** Appending a row for a new submission keeps one row per submission. */
  lemma OnePerIdGrow(prev: seq<HistoryRow>, before: set<nat>, r: seq<HistoryRow>, after: set<nat>, h: HistoryRow)
    requires OnePerId(prev, before)
    requires r == prev + [h] && after == before + {h.submissionId} && h.submissionId !in before
    ensures OnePerId(r, after)
  {
    OnePerIdAppend(prev, before, h);
  }

  lemma OnePerIdSame(r: seq<HistoryRow>, ids: set<nat>, r': seq<HistoryRow>, ids': set<nat>)
    requires OnePerId(r, ids) && r' == r && ids' == ids
    ensures OnePerId(r', ids')
  {
  }

  /** One more batch id adds its snapshot and its id exactly when it is eligible and new. */
  lemma SnapshotsGrow(live: map<nat, Info>, ids: seq<nat>, tid: nat)
    requires ids != []
    ensures var n := |ids| - 1; var prev := Snapshots(live, ids[..n], tid); var id := ids[n];
      if id in live && Eligible(live[id]) && id !in ids[..n] then
        && Snapshots(live, ids, tid) == prev + [SnapshotOf(id, live[id], tid + |prev|)]
        && EligibleIds(live, ids) == EligibleIds(live, ids[..n]) + {id}
        && id !in EligibleIds(live, ids[..n])
      else
        && Snapshots(live, ids, tid) == prev
        && EligibleIds(live, ids) == EligibleIds(live, ids[..n])
  {
    SnapshotsLast(live, ids, tid);
    EligibleIdsLast(live, ids);
  }

  /** The reset a major batch writes to every row of the batch. */
  function ResetRow(row: Info, reason: JudgeReason): Info {
    row.(judgeTime := None, result := EmptyResult, score := None, status := WaitingRejudge, judgeReason := reason)
  }

  function ResetRows(live: map<nat, Info>, ids: seq<nat>, reason: JudgeReason): (r: map<nat, Info>)
    ensures r.Keys == live.Keys
  {
    map k | k in live :: if k in ids then ResetRow(live[k], reason) else live[k]
  }

  /** One major batch: snapshots appended, then every batch row reset. */
  function MajorBatch(db: Db, ids: seq<nat>, reason: JudgeReason): (r: Db)
    ensures r.live.Keys == db.live.Keys
    ensures forall k :: k in db.live && k in ids ==> r.live[k] == ResetRow(db.live[k], reason)
    ensures forall k :: k in db.live && k !in ids ==> r.live[k] == db.live[k]
    ensures |db.history| <= |r.history| && r.history[..|db.history|] == db.history
    ensures r.nextTid == db.nextTid + (|r.history| - |db.history|)
  {
    var snaps := Snapshots(db.live, ids, db.nextTid);
    Db(ResetRows(db.live, ids, reason), db.history + snaps, db.nextTid + |snaps|)
  }

  /** The annotation row a minor batch appends for `id`. */
  function MinorRow(id: nat, reason: JudgeReason, tid: nat): HistoryRow {
    HistoryRow(tid, id, reason, None, None, EmptyResult, WaitingRejudge, "", None, None, 0, 0, false)
  }

  function MinorRows(ids: seq<nat>, reason: JudgeReason, tid: nat): (r: seq<HistoryRow>)
    ensures |r| == |ids|
  {
    seq(|ids|, i requires 0 <= i < |ids| => MinorRow(ids[i], reason, tid + i))
  }

  /** One minor batch: one annotation row per batch id, live rows untouched. */
  function MinorBatch(db: Db, ids: seq<nat>, reason: JudgeReason): (r: Db)
    ensures r.live == db.live
    ensures |r.history| == |db.history| + |ids| && r.history[..|db.history|] == db.history
    ensures r.nextTid == db.nextTid + |ids|
  {
    Db(db.live, db.history + MinorRows(ids, reason, db.nextTid), db.nextTid + |ids|)
  }

  function ApplyBatch(db: Db, batch: seq<SubRef>, plan: Plan): Db {
    if plan.major then MajorBatch(db, Ids(batch), plan.reason) else MinorBatch(db, Ids(batch), plan.reason)
  }

  function ApplyBatches(db: Db, batches: seq<seq<SubRef>>, plan: Plan): Db
    decreases |batches|
  {
    if batches == [] then db
    else ApplyBatch(ApplyBatches(db, batches[..|batches| - 1], plan), batches[|batches| - 1], plan)
  }

  /** `rejudgeSimilarSubmissions` on the submissions of one bucket. */
  function RejudgeBucket(db: Db, subs: seq<SubRef>, cfg: RejudgeConfig, contestReason: nat -> ContestReason,
                         currentUser: Option<string>): Db
    requires cfg.batchSize != Some(0)
  {
    if subs == [] then db
    else
      var plan := MakePlan(cfg, subs[0], contestReason, currentUser);
      ApplyBatches(db, Chunks(subs, plan.batchSize), plan)
  }

  function RunBuckets(db: Db, keys: seq<nat>, subs: seq<SubRef>, cfg: RejudgeConfig,
                      contestReason: nat -> ContestReason, currentUser: Option<string>): Db
    requires cfg.batchSize != Some(0)
    decreases |keys|
  {
    if keys == [] then db
    else
      var n := |keys| - 1;
      RejudgeBucket(RunBuckets(db, keys[..n], subs, cfg, contestReason, currentUser), Filter(subs, keys[n]),
                    cfg, contestReason, currentUser)
  }

  /** `rejudgeSubmissions` as a function of the database before the call. */
  function RejudgeSpec(db: Db, subs: seq<SubRef>, cfg: RejudgeConfig, contestReason: nat -> ContestReason,
                       currentUser: Option<string>): (r: Db)
    requires cfg.batchSize != Some(0)
    ensures subs == [] ==> r == db
  {
    RunBuckets(db, BucketKeys(subs), subs, cfg, contestReason, currentUser)
  }

  method RunMajorBatch(db: Store, ids: seq<nat>, reason: JudgeReason)
    modifies db
    ensures db.State() == MajorBatch(old(db.State()), ids, reason)
  {
    var snaps := Snapshots(db.live, ids, db.nextTid);
    db.history, db.nextTid := db.history + snaps, db.nextTid + |snaps|;
    db.live := ResetRows(db.live, ids, reason);
  }

  method RunMinorBatch(db: Store, ids: seq<nat>, reason: JudgeReason)
    modifies db
    ensures db.State() == MinorBatch(old(db.State()), ids, reason)
  {
    var vals: seq<HistoryRow> := [];
    var i := 0;
    while i < |ids|
      invariant 0 <= i <= |ids|
      invariant vals == MinorRows(ids[..i], reason, db.nextTid)
    {
      vals := vals + [MinorRow(ids[i], reason, db.nextTid + i)];
      i := i + 1;
    }
    assert ids[..|ids|] == ids;
    db.history, db.nextTid := db.history + vals, db.nextTid + |ids|;
  }

  method RejudgeSimilarSubmissions(db: Store, subs: seq<SubRef>, cfg: RejudgeConfig,
                                   contestReason: nat -> ContestReason, currentUser: Option<string>)
    requires cfg.batchSize != Some(0)
    modifies db
    ensures db.State() == RejudgeBucket(old(db.State()), subs, cfg, contestReason, currentUser)
  {
    if subs == [] {
      return;
    }
    var plan := MakePlan(cfg, subs[0], contestReason, currentUser);
    RunBatches(db, Chunks(subs, plan.batchSize), plan);
  }

  /** The `foreach` over the batches of one bucket. */
  method RunBatches(db: Store, batches: seq<seq<SubRef>>, plan: Plan)
    modifies db
    ensures db.State() == ApplyBatches(old(db.State()), batches, plan)
  {
    ghost var start := db.State();
    var i := 0;
    while i < |batches|
      invariant 0 <= i <= |batches|
      invariant db.State() == ApplyBatches(start, batches[..i], plan)
    {
      ApplyBatchesLast(start, batches, i, plan);
      RunBatch(db, batches[i], plan);
      i := i + 1;
    }
    assert batches[..|batches|] == batches;
  }

  /** One batch: the major snapshot-and-reset transaction, or the minor annotation insert. */
  method RunBatch(db: Store, batch: seq<SubRef>, plan: Plan)
    modifies db
    ensures db.State() == ApplyBatch(old(db.State()), batch, plan)
  {
    var batchIds := Ids(batch);
    if plan.major {
      RunMajorBatch(db, batchIds, plan.reason);
    } else {
      RunMinorBatch(db, batchIds, plan.reason);
    }
  }

  lemma ApplyBatchesLast(db: Db, bs: seq<seq<SubRef>>, i: nat, plan: Plan)
    requires i < |bs|
    ensures ApplyBatches(db, bs[..i + 1], plan) == ApplyBatch(ApplyBatches(db, bs[..i], plan), bs[i], plan)
  {
    assert bs[..i + 1][..i] == bs[..i];
  }

  method RejudgeSubmissions(db: Store, subs: seq<SubRef>, cfg: RejudgeConfig,
                            contestReason: nat -> ContestReason, currentUser: Option<string>)
    requires cfg.batchSize != Some(0)
    modifies db
    ensures db.State() == RejudgeSpec(old(db.State()), subs, cfg, contestReason, currentUser)
  {
    var keys, bucket := Bucketize(subs);
    ghost var start := db.State();
    var i := 0;
    while i < |keys|
      invariant 0 <= i <= |keys|
      invariant db.State() == RunBuckets(start, keys[..i], subs, cfg, contestReason, currentUser)
    {
      RunBucketsLast(start, keys, i, subs, cfg, contestReason, currentUser);
      var b := bucket[keys[i]];
      assert b == Filter(subs, keys[i]);
      RejudgeSimilarSubmissions(db, b, cfg, contestReason, currentUser);
      i := i + 1;
    }
    assert keys[..|keys|] == keys;
  }

  lemma RunBucketsLast(db: Db, keys: seq<nat>, i: nat, subs: seq<SubRef>, cfg: RejudgeConfig,
                       contestReason: nat -> ContestReason, currentUser: Option<string>)
    requires i < |keys| && cfg.batchSize != Some(0)
    ensures RunBuckets(db, keys[..i + 1], subs, cfg, contestReason, currentUser)
         == RejudgeBucket(RunBuckets(db, keys[..i], subs, cfg, contestReason, currentUser), Filter(subs, keys[i]),
                          cfg, contestReason, currentUser)
  {
    assert keys[..i + 1][..i] == keys[..i];
  }

  method RejudgeSubmission(db: Store, sub: SubRef, cfg: RejudgeConfig,
                           contestReason: nat -> ContestReason, currentUser: Option<string>)
    requires cfg.batchSize != Some(0)
    modifies db
    ensures db.State() == RejudgeSpec(old(db.State()), [sub], cfg, contestReason, currentUser)
  {
    RejudgeSubmissions(db, [sub], cfg, contestReason, currentUser);
  }

  /** `rejudge`: a loaded submission rejudges itself, bucketed by its own contest. */
  method RejudgeRow(db: Store, row: Info, cfg: RejudgeConfig,
                    contestReason: nat -> ContestReason, currentUser: Option<string>)
    requires cfg.batchSize != Some(0)
    modifies db
    ensures db.State() == RejudgeSpec(old(db.State()), [SubRef(row.id, row.contestId)], cfg, contestReason, currentUser)
  {
    RejudgeSubmission(db, SubRef(row.id, row.contestId), cfg, contestReason, currentUser);
  }

  /** `select id, contest_id from submissions where cond`: every matching row once, in no particular order. */
  predicate Selects(live: map<nat, Info>, cond: Info -> bool, subs: seq<SubRef>)
    ensures Selects(live, cond, subs) ==> forall k :: k in GivenIds(subs) <==> k in live && cond(live[k])
  {
    && (forall i :: 0 <= i < |subs| ==>
          subs[i].id in live && cond(live[subs[i].id]) && subs[i].contestId == live[subs[i].id].contestId)
    && (forall k :: k in live && cond(live[k]) ==> exists i :: 0 <= i < |subs| && subs[i].id == k)
    && (forall i, j :: 0 <= i < j < |subs| ==> subs[i].id != subs[j].id)
  }

  method SelectWhere(db: Store, cond: Info -> bool) returns (subs: seq<SubRef>)
    ensures Selects(db.live, cond, subs)
  {
    var remaining := db.live.Keys;
    subs := [];
    while remaining != {}
      invariant remaining <= db.live.Keys
      invariant forall i :: 0 <= i < |subs| ==>
        subs[i].id in db.live && subs[i].id !in remaining
        && cond(db.live[subs[i].id]) && subs[i].contestId == db.live[subs[i].id].contestId
      invariant forall k :: k in db.live && k !in remaining && cond(db.live[k]) ==>
        exists i :: 0 <= i < |subs| && subs[i].id == k
      invariant forall i, j :: 0 <= i < j < |subs| ==> subs[i].id != subs[j].id
      decreases remaining
    {
      var k :| k in remaining;
      if cond(db.live[k]) {
        var before := subs;
        subs := subs + [SubRef(k, db.live[k].contestId)];
        forall k' | k' in db.live && k' !in remaining - {k} && cond(db.live[k'])
          ensures exists i :: 0 <= i < |subs| && subs[i].id == k'
        {
          if k' == k {
            assert subs[|before|].id == k';
          } else {
            var i :| 0 <= i < |before| && before[i].id == k';
            assert subs[i].id == k';
          }
        }
      }
      remaining := remaining - {k};
    }
  }

  method RejudgeAll(db: Store, cond: Info -> bool, cfg: RejudgeConfig,
                    contestReason: nat -> ContestReason, currentUser: Option<string>)
    returns (selected: seq<SubRef>)
    requires cfg.batchSize != Some(0)
    modifies db
    ensures Selects(old(db.live), cond, selected)
    ensures db.State() == RejudgeSpec(old(db.State()), selected, cfg, contestReason, currentUser)
  {
    selected := SelectWhere(db, cond);
    RejudgeSubmissions(db, selected, cfg, contestReason, currentUser);
  }

  predicate OfProblem(p: nat, row: Info) {
    row.problemId == p
  }

  predicate FullScoreOfProblem(p: nat, row: Info) {
    row.problemId == p && row.score == Some(100)
  }

  predicate AtLeast97OfProblem(p: nat, row: Info) {
    row.problemId == p && row.score.Some? && row.score.value >= 97
  }

  /** The caller's reason text, or the wrapper's own when the caller gave none. */
  function WithDefaultText(cfg: RejudgeConfig, text: string): RejudgeConfig {
    cfg.(reasonText := Some(cfg.reasonText.GetOr(text)))
  }

  method RejudgeProblem(db: Store, p: nat, cfg: RejudgeConfig,
                        contestReason: nat -> ContestReason, currentUser: Option<string>)
    returns (selected: seq<SubRef>)
    requires cfg.batchSize != Some(0)
    modifies db
    ensures Selects(old(db.live), row => OfProblem(p, row), selected)
    ensures db.State() == RejudgeSpec(old(db.State()), selected,
      WithDefaultText(cfg, "管理员手动重测本题所有提交记录"), contestReason, currentUser)
  {
    selected := RejudgeAll(db, row => OfProblem(p, row),
      WithDefaultText(cfg, "管理员手动重测本题所有提交记录"), contestReason, currentUser);
  }

  method RejudgeProblemAC(db: Store, p: nat, cfg: RejudgeConfig,
                          contestReason: nat -> ContestReason, currentUser: Option<string>)
    returns (selected: seq<SubRef>)
    requires cfg.batchSize != Some(0)
    modifies db
    ensures Selects(old(db.live), row => FullScoreOfProblem(p, row), selected)
    ensures db.State() == RejudgeSpec(old(db.State()), selected,
      WithDefaultText(cfg, "管理员手动重测本题所有获得100分的提交记录"), contestReason, currentUser)
  {
    selected := RejudgeAll(db, row => FullScoreOfProblem(p, row),
      WithDefaultText(cfg, "管理员手动重测本题所有获得100分的提交记录"), contestReason, currentUser);
  }

  method RejudgeProblemGe97(db: Store, p: nat, cfg: RejudgeConfig,
                            contestReason: nat -> ContestReason, currentUser: Option<string>)
    returns (selected: seq<SubRef>)
    requires cfg.batchSize != Some(0)
    modifies db
    ensures Selects(old(db.live), row => AtLeast97OfProblem(p, row), selected)
    ensures db.State() == RejudgeSpec(old(db.State()), selected,
      WithDefaultText(cfg, "管理员手动重测本题所有得分≥97分的提交记录"), contestReason, currentUser)
  {
    selected := RejudgeAll(db, row => AtLeast97OfProblem(p, row),
      WithDefaultText(cfg, "管理员手动重测本题所有得分≥97分的提交记录"), contestReason, currentUser);
  }

  /** The ids a list of submissions names. */
  function GivenIds(subs: seq<SubRef>): set<nat> {
    set s | s in subs :: s.id
  }

  /** The ids a run of batches names. */
  function BatchIds(bs: seq<seq<SubRef>>): set<nat> {
    set i, s | 0 <= i < |bs| && s in bs[i] :: s.id
  }

  /** Every live row among `ids` is waiting for a rejudge and carries no judge time. */
  ghost predicate ResetDone(live: map<nat, Info>, ids: set<nat>) {
    forall k :: k in live && k in ids ==> live[k].status == WaitingRejudge && live[k].judgeTime == None
  }

  /** A row that is not eligible gets no snapshot, yet a major batch resets it like every other row of the batch. */
  lemma MajorResetsIneligibleToo(db: Db, ids: seq<nat>, reason: JudgeReason, k: nat)
    requires k in ids && k in db.live && !Eligible(db.live[k])
    ensures var r := MajorBatch(db, ids, reason);
      && k !in SubmissionIds(r.history[|db.history|..])
      && r.live[k] == ResetRow(db.live[k], reason)
  {
    var r := MajorBatch(db, ids, reason);
    SnapshotsOnePerEligible(db.live, ids, db.nextTid);
    assert r.history[|db.history|..] == Snapshots(db.live, ids, db.nextTid);
  }

  /** A minor batch appends one annotation row per batch id, with the rejudge reason, and changes no live row. */
  lemma MinorBatchOnlyAppends(db: Db, ids: seq<nat>, reason: JudgeReason)
    ensures var r := MinorBatch(db, ids, reason);
      && r.live == db.live
      && |r.history| == |db.history| + |ids| && r.history[..|db.history|] == db.history
      && forall i :: 0 <= i < |ids| ==>
           var h := r.history[|db.history| + i];
           h.submissionId == ids[i] && !h.major && h.judgeReason == reason
           && h.result == EmptyResult && h.status == WaitingRejudge && h.judgeTime == None
  {
  }

  /** A major batch appends snapshots numbered from the next history id and keeps the store well formed. */
  lemma MajorBatchFrame(db: Db, ids: seq<nat>, reason: JudgeReason)
    requires WellFormed(db)
    ensures var r := MajorBatch(db, ids, reason);
      && WellFormed(r) && r.live.Keys == db.live.Keys
      && |db.history| <= |r.history| && r.history[..|db.history|] == db.history
  {
    var snaps := Snapshots(db.live, ids, db.nextTid);
    var r := MajorBatch(db, ids, reason);
    assert r.history == db.history + snaps;
    forall k | k in r.live ensures r.live[k].id == k {
      assert r.live[k].id == db.live[k].id;
    }
  }

  /** A minor batch appends rows numbered from the next history id and keeps the store well formed. */
  lemma MinorBatchFrame(db: Db, ids: seq<nat>, reason: JudgeReason)
    requires WellFormed(db)
    ensures var r := MinorBatch(db, ids, reason);
      && WellFormed(r) && r.live == db.live
      && |db.history| <= |r.history| && r.history[..|db.history|] == db.history
  {
    var r := MinorBatch(db, ids, reason);
    assert forall i :: |db.history| <= i < |r.history| ==> r.history[i].id == db.nextTid + (i - |db.history|);
  }

  /**
   * `r` follows `db` in a rejudge over `ids`: history is only appended to, the store stays
   * well formed, rows outside `ids` are untouched, and the rows in `ids` are reset when the
   * rejudge is major, while a minor one changes no live row.
   */
  ghost predicate Follows(db: Db, r: Db, ids: set<nat>, major: bool) {
    && WellFormed(r) && r.live.Keys == db.live.Keys
    && |db.history| <= |r.history| && r.history[..|db.history|] == db.history
    && (forall k :: k in db.live && k !in ids ==> r.live[k] == db.live[k])
    && (major ==> ResetDone(r.live, ids))
    && (!major ==> r.live == db.live)
  }

  lemma FollowsTrans(db: Db, mid: Db, r: Db, a: set<nat>, b: set<nat>, major: bool)
    requires Follows(db, mid, a, major) && Follows(mid, r, b, major)
    ensures Follows(db, r, a + b, major)
  {
    assert r.history[..|db.history|] == r.history[..|mid.history|][..|db.history|];
  }

  lemma ApplyBatchFrame(db: Db, batch: seq<SubRef>, plan: Plan)
    requires WellFormed(db)
    ensures Follows(db, ApplyBatch(db, batch, plan), GivenIds(batch), plan.major)
  {
    if plan.major {
      MajorBatchFrame(db, Ids(batch), plan.reason);
    } else {
      MinorBatchFrame(db, Ids(batch), plan.reason);
    }
  }

  lemma BatchIdsLast(bs: seq<seq<SubRef>>)
    requires bs != []
    ensures BatchIds(bs) == BatchIds(bs[..|bs| - 1]) + GivenIds(bs[|bs| - 1])
  {
    var n := |bs| - 1;
    forall k | k in BatchIds(bs) ensures k in BatchIds(bs[..n]) + GivenIds(bs[n]) {
      var i: int, s: SubRef :| 0 <= i < |bs| && s in bs[i] && s.id == k;
      if i < n {
        assert bs[..n][i] == bs[i];
      }
    }
    forall k | k in BatchIds(bs[..n]) ensures k in BatchIds(bs) {
      var i: int, s: SubRef :| 0 <= i < n && s in bs[..n][i] && s.id == k;
      assert s in bs[i];
    }
    forall k | k in GivenIds(bs[n]) ensures k in BatchIds(bs) {
      var s: SubRef :| s in bs[n] && s.id == k;
    }
  }

  /** Batches only append history, keep the store well formed, and change only rows they name. */
  lemma {:induction false} ApplyBatchesFrame(db: Db, bs: seq<seq<SubRef>>, plan: Plan)
    requires WellFormed(db)
    ensures Follows(db, ApplyBatches(db, bs, plan), BatchIds(bs), plan.major)
    decreases |bs|
  {
    if bs == [] {
      assert BatchIds(bs) == {};
      assert db.history[..|db.history|] == db.history;
    } else {
      var n := |bs| - 1;
      ApplyBatchesFrame(db, bs[..n], plan);
      var mid := ApplyBatches(db, bs[..n], plan);
      ApplyBatchFrame(mid, bs[n], plan);
      BatchIdsLast(bs);
      FollowsTrans(db, mid, ApplyBatches(db, bs, plan), BatchIds(bs[..n]), GivenIds(bs[n]), plan.major);
    }
  }

  lemma ChunkIds(b: seq<SubRef>, n: nat)
    requires n > 0
    ensures BatchIds(Chunks(b, n)) == GivenIds(b)
  {
    var bs := Chunks(b, n);
    forall k | k in BatchIds(bs) ensures k in GivenIds(b) {
      var i: int, s: SubRef :| 0 <= i < |bs| && s in bs[i] && s.id == k;
      InFlatten(bs, s);
    }
    forall k | k in GivenIds(b) ensures k in BatchIds(bs) {
      var s: SubRef :| s in b && s.id == k;
      InFlatten(bs, s);
      var i :| 0 <= i < |bs| && s in bs[i];
    }
  }

  lemma BucketFrame(db: Db, b: seq<SubRef>, cfg: RejudgeConfig, contestReason: nat -> ContestReason,
                    currentUser: Option<string>)
    requires WellFormed(db) && cfg.batchSize != Some(0)
    ensures Follows(db, RejudgeBucket(db, b, cfg, contestReason, currentUser), GivenIds(b), cfg.major != Some(false))
  {
    if b != [] {
      var plan := MakePlan(cfg, b[0], contestReason, currentUser);
      ChunkIds(b, plan.batchSize);
      ApplyBatchesFrame(db, Chunks(b, plan.batchSize), plan);
    } else {
      assert GivenIds(b) == {};
      assert db.history[..|db.history|] == db.history;
    }
  }

  /** The ids of the submissions whose bucket key is among `keys`. */
  function KeyedIds(subs: seq<SubRef>, keys: seq<nat>): set<nat> {
    set s | s in subs && BucketKey(s) in keys :: s.id
  }

  lemma KeyedIdsLast(subs: seq<SubRef>, keys: seq<nat>)
    requires keys != []
    ensures KeyedIds(subs, keys) == KeyedIds(subs, keys[..|keys| - 1]) + GivenIds(Filter(subs, keys[|keys| - 1]))
  {
    var n := |keys| - 1;
    var b := Filter(subs, keys[n]);
    forall k | k in KeyedIds(subs, keys) ensures k in KeyedIds(subs, keys[..n]) + GivenIds(b) {
      var s: SubRef :| s in subs && BucketKey(s) in keys && s.id == k;
      if BucketKey(s) !in keys[..n] {
        assert BucketKey(s) == keys[n];
        FilterPartitions(subs, keys[n], s);
        assert s in multiset(b);
      }
    }
    forall k | k in GivenIds(b) ensures k in KeyedIds(subs, keys) {
      var s: SubRef :| s in b && s.id == k;
    }
    forall k | k in KeyedIds(subs, keys[..n]) ensures k in KeyedIds(subs, keys) {
      var s: SubRef :| s in subs && BucketKey(s) in keys[..n] && s.id == k;
    }
  }

  lemma {:induction false} RunBucketsFrame(db: Db, keys: seq<nat>, subs: seq<SubRef>, cfg: RejudgeConfig,
                                           contestReason: nat -> ContestReason, currentUser: Option<string>)
    requires WellFormed(db) && cfg.batchSize != Some(0)
    ensures Follows(db, RunBuckets(db, keys, subs, cfg, contestReason, currentUser), KeyedIds(subs, keys),
                    cfg.major != Some(false))
    decreases |keys|
  {
    if keys == [] {
      assert KeyedIds(subs, keys) == {};
      assert db.history[..|db.history|] == db.history;
    } else {
      var n := |keys| - 1;
      RunBucketsFrame(db, keys[..n], subs, cfg, contestReason, currentUser);
      var mid := RunBuckets(db, keys[..n], subs, cfg, contestReason, currentUser);
      BucketFrame(mid, Filter(subs, keys[n]), cfg, contestReason, currentUser);
      KeyedIdsLast(subs, keys);
      FollowsTrans(db, mid, RunBuckets(db, keys, subs, cfg, contestReason, currentUser), KeyedIds(subs, keys[..n]),
                   GivenIds(Filter(subs, keys[n])), cfg.major != Some(false));
    }
  }

  /**
   * A rejudge only appends history, keeps the store well formed and leaves every submission
   * it was not given alone; a major rejudge leaves every given submission `Waiting Rejudge`
   * with no judge time, and a minor one changes no live row.
   */
  lemma RejudgeFrame(db: Db, subs: seq<SubRef>, cfg: RejudgeConfig, contestReason: nat -> ContestReason,
                     currentUser: Option<string>)
    requires WellFormed(db) && cfg.batchSize != Some(0)
    ensures var r := RejudgeSpec(db, subs, cfg, contestReason, currentUser);
      && WellFormed(r) && r.live.Keys == db.live.Keys
      && |db.history| <= |r.history| && r.history[..|db.history|] == db.history
      && (forall k :: k in db.live && k !in GivenIds(subs) ==> r.live[k] == db.live[k])
      && (cfg.major != Some(false) ==> forall k :: k in db.live && k in GivenIds(subs) ==>
            r.live[k].status == WaitingRejudge && r.live[k].judgeTime == None)
      && (cfg.major == Some(false) ==> r.live == db.live)
  {
    RunBucketsFrame(db, BucketKeys(subs), subs, cfg, contestReason, currentUser);
    assert KeyedIds(subs, BucketKeys(subs)) == GivenIds(subs);
  }

  /** Major batches reset every row they name with the plan's reason, and leave the other rows alone. */
  lemma {:induction false} ApplyBatchesResets(db: Db, bs: seq<seq<SubRef>>, plan: Plan)
    requires plan.major
    ensures var r := ApplyBatches(db, bs, plan);
      && r.live.Keys == db.live.Keys
      && forall k :: k in db.live ==>
           r.live[k] == if k in BatchIds(bs) then ResetRow(db.live[k], plan.reason) else db.live[k]
    decreases |bs|
  {
    if bs == [] {
      assert BatchIds(bs) == {};
    } else {
      var n := |bs| - 1;
      ApplyBatchesResets(db, bs[..n], plan);
      BatchIdsLast(bs);
    }
  }

  /**
   * A major `rejudgeSimilarSubmissions` writes the full reset to every row of the bucket:
   * no judge time, an empty result, no score, `Waiting Rejudge`, and the reason composed
   * from the bucket's first member; the other rows stay as they were.
   */
  lemma BucketResets(db: Db, b: seq<SubRef>, cfg: RejudgeConfig, contestReason: nat -> ContestReason,
                     currentUser: Option<string>)
    requires cfg.batchSize != Some(0) && cfg.major != Some(false) && b != []
    ensures var r := RejudgeBucket(db, b, cfg, contestReason, currentUser);
      var reason := MakePlan(cfg, b[0], contestReason, currentUser).reason;
      && r.live.Keys == db.live.Keys
      && forall k :: k in db.live ==>
           r.live[k] == if k in GivenIds(b) then ResetRow(db.live[k], reason) else db.live[k]
  {
    var plan := MakePlan(cfg, b[0], contestReason, currentUser);
    ChunkIds(b, plan.batchSize);
    ApplyBatchesResets(db, Chunks(b, plan.batchSize), plan);
  }

  /** The reason a major rejudge writes to the rows of bucket `c`: the one planned for the bucket's first member. */
  function BucketReason(subs: seq<SubRef>, c: nat, cfg: RejudgeConfig, contestReason: nat -> ContestReason,
                        currentUser: Option<string>): JudgeReason
    requires cfg.batchSize != Some(0)
  {
    var b := Filter(subs, c);
    if b == [] then NoReason else MakePlan(cfg, b[0], contestReason, currentUser).reason
  }

  lemma {:induction false} RunBucketsResets(db: Db, keys: seq<nat>, subs: seq<SubRef>, cfg: RejudgeConfig,
                                            contestReason: nat -> ContestReason, currentUser: Option<string>,
                                            k: nat, c: nat)
    requires cfg.batchSize != Some(0) && cfg.major != Some(false)
    requires k in db.live && k in GivenIds(subs)
    requires forall s :: s in subs && s.id == k ==> BucketKey(s) == c
    ensures var r := RunBuckets(db, keys, subs, cfg, contestReason, currentUser);
      && r.live.Keys == db.live.Keys
      && r.live[k] == if c in keys then ResetRow(db.live[k], BucketReason(subs, c, cfg, contestReason, currentUser))
                      else db.live[k]
    decreases |keys|
  {
    if keys != [] {
      var n := |keys| - 1;
      RunBucketsResets(db, keys[..n], subs, cfg, contestReason, currentUser, k, c);
      var mid := RunBuckets(db, keys[..n], subs, cfg, contestReason, currentUser);
      BucketResetsAt(mid, subs, keys[n], cfg, contestReason, currentUser, k, c);
      InPrefixOrLast(keys, c);
    }
  }

  lemma InPrefixOrLast(keys: seq<nat>, c: nat)
    requires keys != []
    ensures c in keys <==> c in keys[..|keys| - 1] || c == keys[|keys| - 1]
  {
    assert keys == keys[..|keys| - 1] + [keys[|keys| - 1]];
  }

  /** One bucket of a major rejudge resets row `k` exactly when it is the bucket `k`'s entries fall in. */
  lemma BucketResetsAt(db: Db, subs: seq<SubRef>, key: nat, cfg: RejudgeConfig, contestReason: nat -> ContestReason,
                       currentUser: Option<string>, k: nat, c: nat)
    requires cfg.batchSize != Some(0) && cfg.major != Some(false)
    requires k in db.live && k in GivenIds(subs)
    requires forall s :: s in subs && s.id == k ==> BucketKey(s) == c
    ensures var r := RejudgeBucket(db, Filter(subs, key), cfg, contestReason, currentUser);
      && r.live.Keys == db.live.Keys
      && r.live[k] == if key == c then ResetRow(db.live[k], BucketReason(subs, c, cfg, contestReason, currentUser))
                      else db.live[k]
  {
    var b := Filter(subs, key);
    if key == c {
      var s: SubRef :| s in subs && s.id == k;
      FilterPartitions(subs, c, s);
      assert s in multiset(b);
      BucketResets(db, b, cfg, contestReason, currentUser);
    } else if b != [] {
      assert k !in GivenIds(b);
      BucketResets(db, b, cfg, contestReason, currentUser);
    }
  }

  /**
   * A major rejudge writes the full reset, with the reason planned for its bucket, to every
   * given submission whose entries all fall in one bucket `c`.
   */
  lemma RejudgeResetsRow(db: Db, subs: seq<SubRef>, cfg: RejudgeConfig, contestReason: nat -> ContestReason,
                         currentUser: Option<string>, k: nat, c: nat)
    requires cfg.batchSize != Some(0) && cfg.major != Some(false)
    requires k in db.live && k in GivenIds(subs)
    requires forall s :: s in subs && s.id == k ==> BucketKey(s) == c
    ensures var r := RejudgeSpec(db, subs, cfg, contestReason, currentUser);
      && k in r.live && r.live[k] == ResetRow(db.live[k], BucketReason(subs, c, cfg, contestReason, currentUser))
      && Filter(subs, c) != []
  {
    RunBucketsResets(db, BucketKeys(subs), subs, cfg, contestReason, currentUser, k, c);
    var s: SubRef :| s in subs && s.id == k;
    assert c in BucketKeys(subs);
    FilterPartitions(subs, c, s);
    assert s in multiset(Filter(subs, c));
  }

  /**
   * A major `rejudgeAll` resets every row that matches the condition, with the reason
   * planned for the row's contest bucket.
   */
  lemma RejudgeAllResetsEveryMatch(db: Db, cond: Info -> bool, subs: seq<SubRef>, cfg: RejudgeConfig,
                                   contestReason: nat -> ContestReason, currentUser: Option<string>, k: nat)
    requires Selects(db.live, cond, subs) && cfg.batchSize != Some(0) && cfg.major != Some(false)
    requires k in db.live && cond(db.live[k])
    ensures var r := RejudgeSpec(db, subs, cfg, contestReason, currentUser);
      && k in r.live
      && r.live[k] == ResetRow(db.live[k], BucketReason(subs, db.live[k].contestId.GetOr(0), cfg, contestReason, currentUser))
  {
    var i :| 0 <= i < |subs| && subs[i].id == k;
    assert k in GivenIds(subs);
    forall s | s in subs && s.id == k ensures BucketKey(s) == db.live[k].contestId.GetOr(0) {
      var j :| 0 <= j < |subs| && subs[j] == s;
    }
    RejudgeResetsRow(db, subs, cfg, contestReason, currentUser, k, db.live[k].contestId.GetOr(0));
  }

  /**
   * `rejudgeAll` selects nothing exactly when no live row matches the condition, and
   * then it inserts nothing and updates nothing.
   */
  lemma RejudgeNothingSelected(db: Db, cond: Info -> bool, subs: seq<SubRef>, cfg: RejudgeConfig,
                               contestReason: nat -> ContestReason, currentUser: Option<string>)
    requires Selects(db.live, cond, subs) && cfg.batchSize != Some(0)
    ensures subs == [] <==> forall k :: k in db.live ==> !cond(db.live[k])
    ensures subs == [] ==> RejudgeSpec(db, subs, cfg, contestReason, currentUser) == db
  {
    if subs != [] {
      var k := subs[0].id;
      assert k in db.live && cond(db.live[k]);
    } else {
      assert BucketKeys(subs) == [];
    }
  }

  /** The snapshot a major batch takes of an eligible row keeps that row's judge time and status. */
  lemma MajorBatchSnapshotsEligible(db: Db, ids: seq<nat>, reason: JudgeReason, id: nat)
    requires id in ids && id in db.live && Eligible(db.live[id])
    ensures var after := MajorBatch(db, ids, reason);
      exists j :: |db.history| <= j < |after.history| && after.history[j].submissionId == id
                  && after.history[j].judgeTime == db.live[id].judgeTime && after.history[j].status == db.live[id].status
  {
    var after := MajorBatch(db, ids, reason);
    var snaps := Snapshots(db.live, ids, db.nextTid);
    SnapshotsOnePerEligible(db.live, ids, db.nextTid);
    SnapshotsContent(db.live, ids, db.nextTid);
    assert id in EligibleIds(db.live, ids);
    var i :| 0 <= i < |snaps| && snaps[i].submissionId == id;
    assert after.history[|db.history| + i] == snaps[i];
  }

  /** A callback whose token no longer matches the live row, but matches a history row, writes history only. */
  lemma CallbackOnClearedRow(db: Db, id: nat, post: Verdict, t: string, parse: string -> Option<string>, j: int)
    requires WellFormed(db) && id in db.live && !TargetsLive(db.live[id], t, parse)
    requires 0 <= j < |db.history| && IsTargetRow(db.history[j], id, t, parse)
    ensures JudgeStep(db, id, post, t, parse).outcome in {Ignored, Applied(false)}
    ensures JudgeStep(db, id, post, t, parse).db.live == db.live
  {
    HistoryTargetLeavesLiveAlone(db, id, post, t, parse);
    RejectedCallbackChangesNothing(db, id, post, t, parse);
  }

  /**
   * After a major batch, the live row of an eligible batch member no longer matches the token
   * of its last judgement, while that judgement's snapshot does.
   */
  lemma MajorBatchMovesTarget(db: Db, ids: seq<nat>, reason: JudgeReason, id: nat, parse: string -> Option<string>)
    requires WellFormed(db) && id in ids && id in db.live && Eligible(db.live[id])
    requires parse(db.live[id].judgeTime.value) == db.live[id].judgeTime
    ensures var after := MajorBatch(db, ids, reason);
      var t := db.live[id].judgeTime.value;
      && WellFormed(after) && id in after.live && !TargetsLive(after.live[id], t, parse)
      && (exists j :: |db.history| <= j < |after.history| && IsTargetRow(after.history[j], id, t, parse)
                      && after.history[j].status == db.live[id].status)
  {
    var after := MajorBatch(db, ids, reason);
    MajorBatchSnapshotsEligible(db, ids, reason, id);
    MajorBatchClearsRow(db, ids, reason, id);
  }

  lemma MajorBatchClearsRow(db: Db, ids: seq<nat>, reason: JudgeReason, id: nat)
    requires WellFormed(db) && id in ids && id in db.live
    ensures var after := MajorBatch(db, ids, reason);
      WellFormed(after) && id in after.live && after.live[id].judgeTime == None
  {
    MajorBatchFrame(db, ids, reason);
  }

  /**
   * A judge callback that loses the race against a major rejudge no longer matches the live
   * row, whose judge time was cleared; it finds the snapshot of the judgement it belongs to and
   * can only write history rows.
   */
  lemma CallbackAfterRejudgeReachesSnapshot(db: Db, ids: seq<nat>, reason: JudgeReason, id: nat,
                                            post: Verdict, parse: string -> Option<string>)
    requires WellFormed(db) && id in ids && id in db.live && Eligible(db.live[id])
    requires parse(db.live[id].judgeTime.value) == db.live[id].judgeTime
    ensures var after := MajorBatch(db, ids, reason);
      var t := db.live[id].judgeTime.value;
      && !TargetsLive(after.live[id], t, parse)
      && (exists j :: |db.history| <= j < |after.history| && IsTargetRow(after.history[j], id, t, parse)
                      && after.history[j].status == db.live[id].status)
      && JudgeStep(after, id, post, t, parse).outcome in {Ignored, Applied(false)}
      && JudgeStep(after, id, post, t, parse).db.live == after.live
  {
    var after := MajorBatch(db, ids, reason);
    var t := db.live[id].judgeTime.value;
    MajorBatchMovesTarget(db, ids, reason, id, parse);
    var j :| |db.history| <= j < |after.history| && IsTargetRow(after.history[j], id, t, parse)
             && after.history[j].status == db.live[id].status;
    CallbackOnClearedRow(after, id, post, t, parse, j);
  }
}
