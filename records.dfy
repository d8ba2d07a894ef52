/**
 * Rows of the two tables the submission engine works on: `submissions` (one live
 * row per submission) and `submissions_history` (append-only judgement snapshots),
 * and the store that holds them.
 *
 * JSON columns (`result`, `judge_reason`) are modelled by datatypes; scores are
 * integers; judge times are the formatted strings the database hands back.
 */
module SubmissionRecords {

  datatype Option<+T> = None | Some(value: T) {
    function GetOr(default: T): T {
      match this
      case Some(v) => v
      case None => default
    }
  }

  /** Judging states of a submission (the `status` column). */
  datatype Status = Waiting | Judging | JudgedJudging | Judged | JudgedWaiting | WaitingRejudge

  /** The result a judger posts back: an error report, or a score with time and memory used. */
  datatype Verdict = ErrorVerdict(error: string) | ScoreVerdict(score: int, time: int, memory: int)

  /**
   * The decoded `result` column: the empty string a rejudge writes, or a document
   * that may hold a verdict and the `final_result` a second judging round adds.
   */
  datatype ResultDoc = EmptyResult | ResultDoc(verdict: Option<Verdict>, finalResult: Option<Verdict>)

  /** The decoded `judge_reason` column. */
  datatype JudgeReason = NoReason | Reason(text: string, requestor: string, url: Option<string>)

  datatype VersionType = Major | Minor

  /**
   * A submission's in-memory `info` array: the live row, plus the `type` and `tid`
   * keys that only appear once a history version has been overlaid on it.
   * `finalTestConfig` says whether the stored content holds a `final_test_config`.
   */
  datatype Info = Info(
    id: nat,
    problemId: nat,
    contestId: Option<nat>,
    submitter: string,
    finalTestConfig: bool,
    status: Status,
    statusDetails: string,
    result: ResultDoc,
    score: Option<int>,
    hiddenScore: Option<int>,
    hideScoreToOthers: bool,
    usedTime: int,
    usedMemory: int,
    resultError: Option<string>,
    judgeTime: Option<string>,
    judgeReason: JudgeReason,
    judger: Option<string>,
    versionType: Option<VersionType>,
    tid: Option<nat>)
  {
    /** The score the submission really earned, wherever the frozen-contest routing put it. */
    function ActualScore(): (s: Option<int>)
      ensures hideScoreToOthers ==> s == hiddenScore
      ensures !hideScoreToOthers ==> s == score
    {
      if hideScoreToOthers then hiddenScore else score
    }
  }

  /** A row of `submissions_history`; `id` is its auto-increment key (the version id, TID). */
  datatype HistoryRow = HistoryRow(
    id: nat,
    submissionId: nat,
    judgeReason: JudgeReason,
    judgeTime: Option<string>,
    judger: Option<string>,
    result: ResultDoc,
    status: Status,
    statusDetails: string,
    resultError: Option<string>,
    score: Option<int>,
    usedTime: int,
    usedMemory: int,
    major: bool)

  /** The whole database as a value: live rows by id, the history table in insertion order, the next history id. */
  datatype Db = Db(live: map<nat, Info>, history: seq<HistoryRow>, nextTid: nat)

  /** Live rows are stored under their own id; history ids are distinct and below the next one to hand out. */
  ghost predicate WellFormed(db: Db) {
    && (forall k :: k in db.live ==> db.live[k].id == k)
    && (forall i :: 0 <= i < |db.history| ==> db.history[i].id < db.nextTid)
    && (forall i, j :: 0 <= i < j < |db.history| ==> db.history[i].id != db.history[j].id)
  }

  /** The database the static operations read and write. */
  class Store {
    var live: map<nat, Info>
    var history: seq<HistoryRow>
    var nextTid: nat

    constructor (d: Db)
      ensures State() == d
    {
      live, history, nextTid := d.live, d.history, d.nextTid;
    }

    function State(): Db
      reads this
    {
      Db(live, history, nextTid)
    }
  }
}
