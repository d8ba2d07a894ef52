/**
 * Who may see a submission's score and who may rejudge it, and how those answers
 * follow the judging, rejudging and history operations.
 */
module Visibility {
  import opened SubmissionRecords
  import opened Versions
  import opened Judging
  import opened Rejudge

  /** The viewer is logged in as the submission's submitter. */
  predicate IsSubmitter(row: Info, viewer: Option<string>) {
    viewer.Some? && viewer.value == row.submitter
  }

  /** Only a `Judged` submission has been judged in full. */
  predicate HasFullyJudged(row: Info)
    ensures HasFullyJudged(row) ==> row.status !in {Waiting, Judging, JudgedJudging, JudgedWaiting, WaitingRejudge}
  {
    row.status == Judged
  }

  /** A score hidden to others (a frozen contest) is shown to its submitter only. */
  predicate ViewerCanSeeScore(row: Info, viewer: Option<string>)
    ensures IsSubmitter(row, viewer) ==> ViewerCanSeeScore(row, viewer)
    ensures !row.hideScoreToOthers ==> ViewerCanSeeScore(row, viewer)
    ensures viewer.None? ==> (ViewerCanSeeScore(row, viewer) <==> !row.hideScoreToOthers)
    ensures row.hideScoreToOthers && !IsSubmitter(row, viewer) ==> !ViewerCanSeeScore(row, viewer)
  {
    if row.hideScoreToOthers then IsSubmitter(row, viewer) else true
  }

  /**
   * A super user may always rejudge; a manager of the problem or contest only a fully judged
   * submission. Both roles are decided elsewhere and given here as flags.
   */
  predicate UserCanRejudge(row: Info, isSuperUser: bool, canManage: bool)
    ensures isSuperUser ==> UserCanRejudge(row, isSuperUser, canManage)
    ensures !isSuperUser && !canManage ==> !UserCanRejudge(row, isSuperUser, canManage)
    ensures !HasFullyJudged(row) ==> (UserCanRejudge(row, isSuperUser, canManage) <==> isSuperUser)
    ensures canManage && HasFullyJudged(row) ==> UserCanRejudge(row, isSuperUser, canManage)
  {
    isSuperUser || (canManage && HasFullyJudged(row))
  }

  /**
   * After a live judgement the public `score` column holds a value only where every viewer
   * may see the score; the actual score is visible to the submitter in any case.
   */
  lemma JudgedScoreNotLeaked(db: Db, id: nat, post: Verdict, postTime: string, parse: string -> Option<string>,
                             viewer: Option<string>)
    requires WellFormed(db) && id in db.live
    requires TargetsLive(db.live[id], postTime, parse) && db.live[id].status == Judging
    ensures var r := JudgeStep(db, id, post, postTime, parse).db.live[id];
      && (ViewerCanSeeScore(r, viewer) <==> !db.live[id].hideScoreToOthers || IsSubmitter(db.live[id], viewer))
      && (!ViewerCanSeeScore(r, viewer) ==> r.score == None)
      && ViewerCanSeeScore(r, Some(r.submitter))
      && r.ActualScore() == ScoreOf(post)
  {
    JudgingLiveRow(db, id, post, postTime, parse);
  }

  /**
   * Loading a major snapshot gives back the row's actual score, now public: the history
   * keeps `actual_score`, and the overlay clears the hiding flag.
   */
  lemma SnapshotScoreRoundTrip(info: Info, row: Info, tid: nat, viewer: Option<string>)
    ensures var v := Overlay(info, HistoryFields(SnapshotOf(info.id, row, tid)));
      && v.ActualScore() == row.ActualScore()
      && v.score == row.ActualScore()
      && ViewerCanSeeScore(v, viewer)
      && v.tid == Some(tid) && v.versionType == Some(Major)
      && v.judgeTime == row.judgeTime && v.status == row.status && v.result == row.result
  {
    OverlayHistoryRow(info, SnapshotOf(info.id, row, tid));
  }

  /**
   * Judging a `Judging` row leaves it rejudgeable by a manager exactly when the content has
   * no final test config; a super user may rejudge it either way.
   */
  lemma RejudgeRightAfterJudging(db: Db, id: nat, post: Verdict, postTime: string, parse: string -> Option<string>,
                                 isSuperUser: bool, canManage: bool)
    requires WellFormed(db) && id in db.live
    requires TargetsLive(db.live[id], postTime, parse) && db.live[id].status == Judging
    ensures var r := JudgeStep(db, id, post, postTime, parse).db.live[id];
      && (HasFullyJudged(r) <==> !db.live[id].finalTestConfig)
      && (UserCanRejudge(r, isSuperUser, canManage) <==> isSuperUser || (canManage && !db.live[id].finalTestConfig))
  {
    JudgingLiveRow(db, id, post, postTime, parse);
  }

  /** The second judging round leaves the submission fully judged, and so rejudgeable by its managers. */
  lemma FinalRoundFullyJudged(db: Db, id: nat, post: Verdict, postTime: string, parse: string -> Option<string>,
                              isSuperUser: bool)
    requires WellFormed(db) && id in db.live
    requires TargetsLive(db.live[id], postTime, parse) && db.live[id].status == JudgedJudging
    ensures var r := JudgeStep(db, id, post, postTime, parse).db.live[id];
      HasFullyJudged(r) && UserCanRejudge(r, isSuperUser, true)
  {
    FinalRoundLiveRow(db, id, post, postTime, parse);
  }

  /**
   * Once a major rejudge has reset a submission, only a super user may rejudge it again
   * until its next judgement completes.
   */
  lemma RejudgedOnlyBySuperUser(db: Db, subs: seq<SubRef>, cfg: RejudgeConfig, contestReason: nat -> ContestReason,
                                currentUser: Option<string>, k: nat, isSuperUser: bool, canManage: bool)
    requires WellFormed(db) && cfg.batchSize != Some(0) && cfg.major != Some(false)
    requires k in db.live && k in GivenIds(subs)
    ensures var after := RejudgeSpec(db, subs, cfg, contestReason, currentUser);
      && k in after.live && !HasFullyJudged(after.live[k])
      && (UserCanRejudge(after.live[k], isSuperUser, canManage) <==> isSuperUser)
  {
    RejudgeFrame(db, subs, cfg, contestReason, currentUser);
  }
}
