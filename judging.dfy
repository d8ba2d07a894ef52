/**
 * Applying a judger's callback to a submission. The posted judge time is a
 * fencing token: it selects the live row when it matches the live judge time,
 * otherwise the history row of that submission judged at that time. The
 * target's status decides what is written; the update record is built field
 * by field and written to the live row or to the matching history rows.
 */
module Judging {
  import opened SubmissionRecords
  import opened Versions

  /** A column of the update record: left alone, or assigned a value. */
  datatype Assign<T> = Keep | Put(value: T)

  function Assigned<T>(a: Assign<T>, current: T): T {
    if a.Put? then a.value else current
  }

  /** The update record `onJudged` builds (`status` and `status_details` are always set, and so is `result`). */
  datatype SetQ = SetQ(
    status: Status,
    statusDetails: string,
    result: ResultDoc,
    resultError: Assign<Option<string>>,
    usedTime: Assign<int>,
    usedMemory: Assign<int>,
    score: Assign<Option<int>>,
    hiddenScore: Assign<Option<int>>)

  /** The stored result, decoded, with `final_result` set to the posted verdict. */
  function WithFinalResult(doc: ResultDoc, post: Verdict): (r: ResultDoc)
    ensures r.ResultDoc? && r.finalResult == Some(post)
    ensures doc.ResultDoc? ==> r.verdict == doc.verdict
  {
    match doc
    case EmptyResult => ResultDoc(None, Some(post))
    case ResultDoc(v, _) => ResultDoc(v, Some(post))
  }

  /** The score a verdict earns: none for an error. */
  function ScoreOf(post: Verdict): Option<int> {
    if post.ErrorVerdict? then None else Some(post.score)
  }

  /** The update for the target version, or None when its status is neither `Judging` nor `Judged, Judging`. */
  function JudgedSetQ(target: Info, post: Verdict, latest: bool): (q: Option<SetQ>)
    ensures q.Some? <==> target.status == Judging || target.status == JudgedJudging
    ensures q.Some? && !latest ==> q.value.hiddenScore.Keep?
  {
    match target.status
    case JudgedJudging =>
      Some(SetQ(Judged, "", WithFinalResult(target.result, post), Keep, Keep, Keep, Keep, Keep))
    case Judging =>
      var actual := ScoreOf(post);
      var status := if target.finalTestConfig then JudgedWaiting else Judged;
      var err := if post.ErrorVerdict? then Some(post.error) else None;
      var time := if post.ErrorVerdict? then 0 else post.time;
      var memory := if post.ErrorVerdict? then 0 else post.memory;
      var score := if latest && target.hideScoreToOthers then None else actual;
      var hidden := if !latest then Keep else if target.hideScoreToOthers then Put(actual) else Put(None);
      Some(SetQ(status, "", ResultDoc(Some(post), None), Put(err), Put(time), Put(memory), Put(score), hidden))
    case _ => None
  }

  function ApplyToLive(row: Info, q: SetQ): Info {
    row.(status := q.status, statusDetails := q.statusDetails, result := q.result,
         resultError := Assigned(q.resultError, row.resultError),
         usedTime := Assigned(q.usedTime, row.usedTime), usedMemory := Assigned(q.usedMemory, row.usedMemory),
         score := Assigned(q.score, row.score), hiddenScore := Assigned(q.hiddenScore, row.hiddenScore))
  }

  /** The history table has no `hidden_score` column, so the update must not name it. */
  function ApplyToHistory(h: HistoryRow, q: SetQ): HistoryRow
    requires q.hiddenScore.Keep?
  {
    h.(status := q.status, statusDetails := q.statusDetails, result := q.result,
       resultError := Assigned(q.resultError, h.resultError),
       usedTime := Assigned(q.usedTime, h.usedTime), usedMemory := Assigned(q.usedMemory, h.usedMemory),
       score := Assigned(q.score, h.score))
  }

  /** `update submissions set q where id = sid`. */
  function WriteLive(live: map<nat, Info>, sid: nat, q: SetQ): map<nat, Info> {
    if sid in live then live[sid := ApplyToLive(live[sid], q)] else live
  }

  /** `update submissions_history set q where submission_id = sid and judge_time = t`. */
  function WriteHistory(hs: seq<HistoryRow>, sid: nat, t: Option<string>, q: SetQ): (r: seq<HistoryRow>)
    requires q.hiddenScore.Keep?
    ensures |r| == |hs|
    ensures forall i :: 0 <= i < |hs| ==> r[i].id == hs[i].id && r[i].submissionId == hs[i].submissionId
  {
    seq(|hs|, i requires 0 <= i < |hs| =>
      if hs[i].submissionId == sid && t.Some? && hs[i].judgeTime == t then ApplyToHistory(hs[i], q) else hs[i])
  }

  /**
   * What a callback did: no such submission, or no version with that judge time
   * (both answer `false`); a target status it leaves alone; or a write to the
   * live row (which also triggers the best-AC recomputation) or to history rows.
   */
  datatype Outcome = NotFound | NoMatchingVersion | Ignored | Applied(toLive: bool)

  datatype Step = Step(outcome: Outcome, db: Db)

  /** The version a callback addresses: the live row on a token match, otherwise a load by time. */
  function Locate(row: Info, postTime: string, parse: string -> Option<string>, history: seq<HistoryRow>): (v: Option<Version>)
    ensures v.None? <==> !TargetsLive(row, postTime, parse)
                         && forall j :: 0 <= j < |history| ==> !IsTargetRow(history[j], row.id, postTime, parse)
    ensures v.Some? ==> v.value.info.id == row.id && (v.value.IsLatest() <==> TargetsLive(row, postTime, parse))
  {
    if row.judgeTime == Some(postTime) then Some(Version(row, None))
    else Version(row, None).ByTime(postTime, parse, history)
  }

  /** The callback addresses the live row: the token matches as given, or once parsed. */
  predicate TargetsLive(row: Info, postTime: string, parse: string -> Option<string>) {
    row.judgeTime == Some(postTime) || (parse(postTime).Some? && row.judgeTime == parse(postTime))
  }

  /** The history rows of submission `sid` judged at the parsed token. */
  predicate IsTargetRow(h: HistoryRow, sid: nat, postTime: string, parse: string -> Option<string>) {
    parse(postTime).Some? && h.submissionId == sid && h.judgeTime == parse(postTime)
  }

  /** `onJudged` as a function of the database before the call. */
  function JudgeStep(db: Db, id: nat, post: Verdict, postTime: string, parse: string -> Option<string>): (r: Step)
    ensures !r.outcome.Applied? ==> r.db == db
    ensures r.db.nextTid == db.nextTid && r.db.live.Keys == db.live.Keys && |r.db.history| == |db.history|
    ensures r.outcome == Applied(true) ==> r.db.history == db.history
    ensures r.outcome == Applied(false) ==> r.db.live == db.live
    ensures forall i :: 0 <= i < |db.history| ==>
      r.db.history[i].id == db.history[i].id && r.db.history[i].submissionId == db.history[i].submissionId
  {
    if id !in db.live then Step(NotFound, db)
    else match Locate(db.live[id], postTime, parse, db.history)
      case None => Step(NoMatchingVersion, db)
      case Some(v) =>
        match JudgedSetQ(v.info, post, v.IsLatest())
        case None => Step(Ignored, db)
        case Some(q) =>
          if v.IsLatest() then Step(Applied(true), db.(live := WriteLive(db.live, v.info.id, q)))
          else Step(Applied(false), db.(history := WriteHistory(db.history, v.info.id, v.info.judgeTime, q)))
  }

  method OnJudged(db: Store, id: nat, post: Verdict, postTime: string, parse: string -> Option<string>)
    returns (outcome: Outcome)
    modifies db
    ensures Step(outcome, db.State()) == JudgeStep(old(db.State()), id, post, postTime, parse)
  {
    if id !in db.live {
      return NotFound;
    }
    var s := new Submission(db.live[id]);
    if s.info.judgeTime != Some(postTime) {
      var loaded := s.LoadHistoryByTime(postTime, parse, db.history);
      if loaded == LoadFailed {
        return NoMatchingVersion;
      }
    }
    var latest := s.View().IsLatest();
    var q: SetQ;
    if s.info.status == JudgedJudging {
      q := SetQ(Judged, "", WithFinalResult(s.info.result, post), Keep, Keep, Keep, Keep, Keep);
    } else if s.info.status == Judging {
      q := SetQ(Judged, "", ResultDoc(Some(post), None), Keep, Keep, Keep, Keep, Keep);
      var actual: Option<int>;
      if post.ErrorVerdict? {
        actual := None;
        q := q.(resultError := Put(Some(post.error)), usedTime := Put(0), usedMemory := Put(0));
      } else {
        actual := Some(post.score);
        q := q.(resultError := Put(None), usedTime := Put(post.time), usedMemory := Put(post.memory));
      }
      if s.info.finalTestConfig {
        q := q.(status := JudgedWaiting);
      }
      if latest {
        if s.info.hideScoreToOthers {
          q := q.(score := Put(None), hiddenScore := Put(actual));
        } else {
          q := q.(score := Put(actual), hiddenScore := Put(None));
        }
      } else {
        q := q.(score := Put(actual));
      }
    } else {
      return Ignored;
    }
    if latest {
      db.live := WriteLive(db.live, s.info.id, q);
    } else {
      db.history := WriteHistory(db.history, s.info.id, s.info.judgeTime, q);
    }
    outcome := Applied(latest);
  }

  /** A callback answers `false` and writes nothing exactly when the submission is missing or no version carries its token. */
  lemma RejectedCallbackChangesNothing(db: Db, id: nat, post: Verdict, postTime: string, parse: string -> Option<string>)
    requires WellFormed(db)
    ensures var step := JudgeStep(db, id, post, postTime, parse);
      && (step.outcome == NotFound <==> id !in db.live)
      && (step.outcome == NoMatchingVersion <==>
            && id in db.live && !TargetsLive(db.live[id], postTime, parse)
            && forall j :: 0 <= j < |db.history| ==> !IsTargetRow(db.history[j], id, postTime, parse))
      && (step.outcome in {NotFound, NoMatchingVersion, Ignored} ==> step.db == db)
  {
  }

  /**
   * A `Judging` live row becomes `Judged` (or `Judged, Waiting` when the content has a
   * final test config) with the posted verdict; the actual score lands in `score`, or in
   * `hidden_score` for a frozen contest; history and every other row are untouched.
   */
  lemma JudgingLiveRow(db: Db, id: nat, post: Verdict, postTime: string, parse: string -> Option<string>)
    requires WellFormed(db) && id in db.live
    requires TargetsLive(db.live[id], postTime, parse)
    requires db.live[id].status == Judging
    ensures var step := JudgeStep(db, id, post, postTime, parse);
      var row := db.live[id];
      && step.outcome == Applied(true)
      && step.db.history == db.history && step.db.nextTid == db.nextTid
      && step.db.live.Keys == db.live.Keys
      && step.db.live == db.live[id := row.(
           status := if row.finalTestConfig then JudgedWaiting else Judged,
           statusDetails := "", result := ResultDoc(Some(post), None),
           resultError := if post.ErrorVerdict? then Some(post.error) else None,
           usedTime := if post.ErrorVerdict? then 0 else post.time,
           usedMemory := if post.ErrorVerdict? then 0 else post.memory,
           score := if row.hideScoreToOthers then None else ScoreOf(post),
           hiddenScore := if row.hideScoreToOthers then ScoreOf(post) else None)]
      && var r := step.db.live[id];
      && r.ActualScore() == ScoreOf(post)
      && (post.ScoreVerdict? ==> (r.score.Some? <==> !r.hiddenScore.Some?))
  {
  }

  /** A `Judged, Judging` live row becomes `Judged`, its result gains `final_result`, and nothing else is written. */
  lemma FinalRoundLiveRow(db: Db, id: nat, post: Verdict, postTime: string, parse: string -> Option<string>)
    requires WellFormed(db) && id in db.live
    requires TargetsLive(db.live[id], postTime, parse)
    requires db.live[id].status == JudgedJudging
    ensures var step := JudgeStep(db, id, post, postTime, parse);
      var row := db.live[id];
      && step.outcome == Applied(true)
      && step.db.history == db.history
      && step.db.live == db.live[id := row.(status := Judged, statusDetails := "",
                                            result := WithFinalResult(row.result, post))]
  {
  }

  /**
   * A callback whose token names a superseded judgement writes only the history rows of that
   * submission judged at that time: the live row is untouched and no best-AC update follows.
   */
  lemma HistoryTargetLeavesLiveAlone(db: Db, id: nat, post: Verdict, postTime: string, parse: string -> Option<string>)
    requires WellFormed(db) && id in db.live
    requires !TargetsLive(db.live[id], postTime, parse)
    ensures var step := JudgeStep(db, id, post, postTime, parse);
      && step.outcome != Applied(true)
      && step.db.live == db.live && step.db.nextTid == db.nextTid
      && |step.db.history| == |db.history|
      && forall i :: 0 <= i < |db.history| && !IsTargetRow(db.history[i], id, postTime, parse) ==>
           step.db.history[i] == db.history[i]
  {
    var row := db.live[id];
    match Locate(row, postTime, parse, db.history)
    case None =>
    case Some(v) =>
      assert v.info.id == id && v.info.judgeTime == parse(postTime);
      assert !v.IsLatest();
  }

  /**
   * On a `Judging` history target, every history row of that submission judged at that time
   * gets the verdict and only its own `score`: there is no hidden-score routing.
   */
  lemma JudgingHistoryRow(db: Db, id: nat, post: Verdict, postTime: string, parse: string -> Option<string>, j: nat)
    requires WellFormed(db) && id in db.live
    requires !TargetsLive(db.live[id], postTime, parse)
    requires j < |db.history| && IsTargetRow(db.history[j], id, postTime, parse)
    requires forall i :: 0 <= i < j ==> !IsTargetRow(db.history[i], id, postTime, parse)
    requires db.history[j].status == Judging
    ensures var step := JudgeStep(db, id, post, postTime, parse);
      var hs := db.history;
      && step.outcome == Applied(false)
      && step.db.live == db.live
      && |step.db.history| == |hs|
      && forall i :: 0 <= i < |hs| ==>
           step.db.history[i] ==
             if IsTargetRow(hs[i], id, postTime, parse) then
               hs[i].(status := if db.live[id].finalTestConfig then JudgedWaiting else Judged,
                      statusDetails := "", result := ResultDoc(Some(post), None),
                      resultError := if post.ErrorVerdict? then Some(post.error) else None,
                      usedTime := if post.ErrorVerdict? then 0 else post.time,
                      usedMemory := if post.ErrorVerdict? then 0 else post.memory,
                      score := ScoreOf(post))
             else hs[i]
  {
    var row := db.live[id];
    var v := Locate(row, postTime, parse, db.history).value;
    assert FindFirst(db.history, AtTime(row.id, parse(postTime).value)) == Some(j);
    OverlayHistoryRow(row, db.history[j]);
    assert v.info.status == Judging && !v.IsLatest();
  }

  /**
   * On a `Judged, Judging` history target (a snapshot taken while the second round was pending),
   * every history row of that submission judged at that time becomes `Judged` and its result
   * gains `final_result`; score, time, memory and error stay, and nothing else changes.
   */
  lemma FinalRoundHistoryRow(db: Db, id: nat, post: Verdict, postTime: string, parse: string -> Option<string>, j: nat)
    requires WellFormed(db) && id in db.live
    requires !TargetsLive(db.live[id], postTime, parse)
    requires j < |db.history| && IsTargetRow(db.history[j], id, postTime, parse)
    requires forall i :: 0 <= i < j ==> !IsTargetRow(db.history[i], id, postTime, parse)
    requires db.history[j].status == JudgedJudging
    ensures var step := JudgeStep(db, id, post, postTime, parse);
      var hs := db.history;
      && step.outcome == Applied(false)
      && step.db.live == db.live
      && |step.db.history| == |hs|
      && forall i :: 0 <= i < |hs| ==>
           step.db.history[i] ==
             if IsTargetRow(hs[i], id, postTime, parse) then
               hs[i].(status := Judged, statusDetails := "", result := WithFinalResult(hs[j].result, post))
             else hs[i]
  {
    var row := db.live[id];
    var v := Locate(row, postTime, parse, db.history).value;
    assert FindFirst(db.history, AtTime(row.id, parse(postTime).value)) == Some(j);
    OverlayHistoryRow(row, db.history[j]);
    assert v.info.status == JudgedJudging && v.info.result == db.history[j].result && !v.IsLatest();
  }

  /** A target whose status is neither `Judging` nor `Judged, Judging` is left alone: nothing is written. */
  lemma UnhandledStatusIgnored(db: Db, id: nat, post: Verdict, postTime: string, parse: string -> Option<string>)
    requires id in db.live
    requires Locate(db.live[id], postTime, parse, db.history).Some?
    requires Locate(db.live[id], postTime, parse, db.history).value.info.status !in {Judging, JudgedJudging}
    ensures JudgeStep(db, id, post, postTime, parse) == Step(Ignored, db)
  {
  }

  /** Replaying a callback that was applied to the live row is ignored: the row is no longer `Judging`. */
  lemma ReplayOnLiveIgnored(db: Db, id: nat, post: Verdict, postTime: string, parse: string -> Option<string>)
    requires WellFormed(db) && id in db.live
    requires TargetsLive(db.live[id], postTime, parse)
    requires db.live[id].status in {Judging, JudgedJudging}
    ensures var after := JudgeStep(db, id, post, postTime, parse).db;
      JudgeStep(after, id, post, postTime, parse) == Step(Ignored, after)
  {
    if db.live[id].status == Judging {
      JudgingLiveRow(db, id, post, postTime, parse);
    } else {
      FinalRoundLiveRow(db, id, post, postTime, parse);
    }
  }

  /**
   * Replaying a callback that was applied to a superseded version is ignored: the history
   * rows it wrote are no longer `Judging` or `Judged, Judging`, and the live row still misses the token.
   */
  lemma ReplayOnHistoryIgnored(db: Db, id: nat, post: Verdict, postTime: string, parse: string -> Option<string>, j: nat)
    requires WellFormed(db) && id in db.live
    requires !TargetsLive(db.live[id], postTime, parse)
    requires j < |db.history| && IsTargetRow(db.history[j], id, postTime, parse)
    requires forall i :: 0 <= i < j ==> !IsTargetRow(db.history[i], id, postTime, parse)
    requires db.history[j].status in {Judging, JudgedJudging}
    ensures var after := JudgeStep(db, id, post, postTime, parse).db;
      JudgeStep(after, id, post, postTime, parse) == Step(Ignored, after)
  {
    var after := JudgeStep(db, id, post, postTime, parse).db;
    if db.history[j].status == Judging {
      JudgingHistoryRow(db, id, post, postTime, parse, j);
    } else {
      FinalRoundHistoryRow(db, id, post, postTime, parse, j);
    }
    assert after.history[j].status in {Judged, JudgedWaiting};
    JudgeStepPreservesWellFormed(db, id, post, postTime, parse);
    SettledTargetIgnored(after, id, post, postTime, parse, j);
  }

  /** A callback whose first history target is already settled is ignored. */
  lemma SettledTargetIgnored(db: Db, id: nat, post: Verdict, postTime: string, parse: string -> Option<string>, j: nat)
    requires WellFormed(db) && id in db.live
    requires !TargetsLive(db.live[id], postTime, parse)
    requires j < |db.history| && IsTargetRow(db.history[j], id, postTime, parse)
    requires forall i :: 0 <= i < j ==> !IsTargetRow(db.history[i], id, postTime, parse)
    requires db.history[j].status !in {Judging, JudgedJudging}
    ensures JudgeStep(db, id, post, postTime, parse) == Step(Ignored, db)
  {
    assert FindFirst(db.history, AtTime(id, parse(postTime).value)) == Some(j);
    OverlayHistoryRow(db.live[id], db.history[j]);
  }

  /** Every callback keeps the store well formed. */
  lemma JudgeStepPreservesWellFormed(db: Db, id: nat, post: Verdict, postTime: string, parse: string -> Option<string>)
    requires WellFormed(db)
    ensures WellFormed(JudgeStep(db, id, post, postTime, parse).db)
  {
    if id in db.live {
      match Locate(db.live[id], postTime, parse, db.history)
      case None =>
      case Some(v) =>
        match JudgedSetQ(v.info, post, v.IsLatest())
        case None =>
        case Some(q) =>
          if v.IsLatest() {
            WriteLiveWellFormed(db, v.info.id, q);
          } else {
            WriteHistoryWellFormed(db, v.info.id, v.info.judgeTime, q);
          }
    }
  }

  lemma WriteLiveWellFormed(db: Db, sid: nat, q: SetQ)
    requires WellFormed(db)
    ensures WellFormed(db.(live := WriteLive(db.live, sid, q)))
  {
  }

  lemma WriteHistoryWellFormed(db: Db, sid: nat, t: Option<string>, q: SetQ)
    requires WellFormed(db) && q.hiddenScore.Keep?
    ensures WellFormed(db.(history := WriteHistory(db.history, sid, t, q)))
  {
  }
}
