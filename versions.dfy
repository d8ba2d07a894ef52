/**
 * Loading an older version of a submission: a history row is overlaid on the
 * object's `info`, while the original live row is remembered once in
 * `latest_version`. Whether the object shows the latest version, a major
 * version, and which version id (TID) it shows are derived from that pair.
 */
module Versions {
  import opened SubmissionRecords

  /** One key of a loaded history row, with its value. */
  datatype HisField =
    | TidKey(tid: nat)
    | TimeKey(time: Option<string>)
    | MessageKey(message: JudgeReason)
    | TypeKey(vtype: VersionType)
    | StatusKey(status: Status)
    | ResultKey(result: ResultDoc)
    | ActualScoreKey(actualScore: Option<int>)
    | JudgerKey(judger: Option<string>)
    | ResultErrorKey(resultError: Option<string>)
    | UsedTimeKey(usedTime: int)
    | UsedMemoryKey(usedMemory: int)

  /** The keys and values a history row is loaded with. */
  function HistoryFields(h: HistoryRow): (his: seq<HisField>)
    ensures |his| == 11
  {
    [ TidKey(h.id), TimeKey(h.judgeTime), MessageKey(h.judgeReason),
      TypeKey(if h.major then Major else Minor), StatusKey(h.status), ResultKey(h.result),
      ActualScoreKey(h.score), JudgerKey(h.judger), ResultErrorKey(h.resultError),
      UsedTimeKey(h.usedTime), UsedMemoryKey(h.usedMemory) ]
  }

  /**
   * One step of the overlay: each key sets the column it names (`message` is the judge reason,
   * `time` the judge time); `actual_score` also makes the score public.
   */
  function OverlayField(info: Info, f: HisField): Info {
    info.(
      tid := if f.TidKey? then Some(f.tid) else info.tid,
      judgeTime := if f.TimeKey? then f.time else info.judgeTime,
      judgeReason := if f.MessageKey? then f.message else info.judgeReason,
      versionType := if f.TypeKey? then Some(f.vtype) else info.versionType,
      status := if f.StatusKey? then f.status else info.status,
      result := if f.ResultKey? then f.result else info.result,
      score := if f.ActualScoreKey? then f.actualScore else info.score,
      hiddenScore := if f.ActualScoreKey? then None else info.hiddenScore,
      hideScoreToOthers := if f.ActualScoreKey? then false else info.hideScoreToOthers,
      judger := if f.JudgerKey? then f.judger else info.judger,
      resultError := if f.ResultErrorKey? then f.resultError else info.resultError,
      usedTime := if f.UsedTimeKey? then f.usedTime else info.usedTime,
      usedMemory := if f.UsedMemoryKey? then f.usedMemory else info.usedMemory)
  }

  /**
   * The keys of `his` applied to `info` in order. Overlaying never touches the identity,
   * the owner, the content or the status details: no history key names them.
   */
  function Overlay(info: Info, his: seq<HisField>): (o: Info)
    ensures o.id == info.id && o.problemId == info.problemId && o.contestId == info.contestId
    ensures o.submitter == info.submitter && o.finalTestConfig == info.finalTestConfig
    ensures o.statusDetails == info.statusDetails
    decreases |his|
  {
    if |his| == 0 then info else OverlayField(Overlay(info, his[..|his| - 1]), his[|his| - 1])
  }

  /**
   * Once an `actual_score` key has been overlaid, the score is public: `score` holds the
   * last such value, `hidden_score` is null and the score is no longer hidden.
   */
  lemma {:induction false} OverlayActualScorePublic(info: Info, his: seq<HisField>, k: nat)
    requires k < |his| && his[k].ActualScoreKey?
    requires forall j :: k < j < |his| ==> !his[j].ActualScoreKey?
    ensures var o := Overlay(info, his);
      && o.score == his[k].actualScore && o.hiddenScore == None && !o.hideScoreToOthers
      && o.ActualScore() == his[k].actualScore
    decreases |his|
  {
    if k < |his| - 1 {
      OverlayActualScorePublic(info, his[..|his| - 1], k);
    }
  }

  /** A loaded history row shows that row's judgement, under the original submission's identity. */
  lemma OverlayHistoryRow(info: Info, h: HistoryRow)
    ensures var o := Overlay(info, HistoryFields(h));
      && o == info.(tid := Some(h.id), judgeTime := h.judgeTime, judgeReason := h.judgeReason,
                    versionType := Some(if h.major then Major else Minor), status := h.status, result := h.result,
                    score := h.score, hiddenScore := None, hideScoreToOthers := false, judger := h.judger,
                    resultError := h.resultError, usedTime := h.usedTime, usedMemory := h.usedMemory)
  {
    OverlayElevenKeys(info, HistoryFields(h));
  }

  /** Overlaying eleven keys applies them one after the other. */
  lemma OverlayElevenKeys(info: Info, his: seq<HisField>)
    requires |his| == 11
    ensures Overlay(info, his)
         == OverlayField(OverlayField(OverlayField(OverlayField(OverlayField(OverlayField(OverlayField(
              OverlayField(OverlayField(OverlayField(OverlayField(info, his[0]), his[1]), his[2]), his[3]),
              his[4]), his[5]), his[6]), his[7]), his[8]), his[9]), his[10])
  {
    assert his[..0] == [];
    OverlayPrefixStep(info, his, 0);
    OverlayPrefixStep(info, his, 1);
    OverlayPrefixStep(info, his, 2);
    OverlayPrefixStep(info, his, 3);
    OverlayPrefixStep(info, his, 4);
    OverlayPrefixStep(info, his, 5);
    OverlayPrefixStep(info, his, 6);
    OverlayPrefixStep(info, his, 7);
    OverlayPrefixStep(info, his, 8);
    OverlayPrefixStep(info, his, 9);
  }

  /** The first `j + 1` keys of `his` overlay key `j` on what the first `j` keys give. */
  lemma OverlayPrefixStep(info: Info, his: seq<HisField>, j: nat)
    requires j < |his|
    ensures Overlay(info, his[..j + 1]) == OverlayField(Overlay(info, his[..j]), his[j])
  {
    assert his[..j + 1][..j] == his[..j];
  }

  /** The first row of `hs` that `p` accepts, as `selectFirst` returns it. */
  function FindFirst(hs: seq<HistoryRow>, p: HistoryRow -> bool): (r: Option<nat>)
    ensures r.Some? ==> r.value < |hs| && p(hs[r.value]) && forall j :: 0 <= j < r.value ==> !p(hs[j])
    ensures r.None? ==> forall j :: 0 <= j < |hs| ==> !p(hs[j])
    decreases |hs|
  {
    if hs == [] then None
    else if p(hs[0]) then Some(0)
    else match FindFirst(hs[1..], p)
      case None => None
      case Some(i) => Some(i + 1)
  }

  function AtTime(sid: nat, t: string): HistoryRow -> bool {
    (h: HistoryRow) => h.submissionId == sid && h.judgeTime == Some(t)
  }

  function WithTid(sid: nat, tid: nat): HistoryRow -> bool {
    (h: HistoryRow) => h.submissionId == sid && h.id == tid
  }

  /** What a load by time or by TID answers: the object itself, `false`, or `null`. */
  datatype LoadResult = LoadedSelf | LoadFailed | LoadInvalid

  datatype Lookup = Lookup(result: LoadResult, version: Version)

  /** The pair (`info`, `latest_version`) of a submission object. */
  datatype Version = Version(info: Info, latest: Option<Info>) {

    /** A fresh object is major; a loaded version is major exactly when its `type` key says so. */
    predicate IsMajor()
      ensures latest.None? ==> IsMajor()
      ensures latest.Some? && info.versionType == Some(Minor) ==> !IsMajor()
    {
      latest.None? || info.versionType == Some(Major)
    }

    /** The object shows the live judgement: nothing loaded, or a major version with the live judge time. */
    predicate IsLatest()
      ensures IsLatest() ==> IsMajor()
    {
      latest.None? || (info.versionType == Some(Major) && info.judgeTime == latest.value.judgeTime)
    }

    /** The version id shown: 0 for the live row, otherwise the `tid` key of the loaded row. */
    function GetTID(): (t: Option<nat>)
      ensures latest.None? ==> t == Some(0)
      ensures latest.Some? ==> t == info.tid
    {
      if latest.None? then Some(0) else info.tid
    }

    /** `loadHistory`: the live row is remembered the first time only, then the keys are overlaid. */
    function Loaded(his: seq<HisField>): (v: Version)
      ensures v.latest == Some(if latest.None? then info else latest.value)
    {
      Version(Overlay(info, his), if latest.None? then Some(info) else latest)
    }

    /** `loadHistoryByTime`: `None` stands for `false`. */
    function ByTime(time: string, parse: string -> Option<string>, history: seq<HistoryRow>): (r: Option<Version>)
      ensures r.None? <==>
        || parse(time).None?
        || (info.judgeTime != parse(time)
            && forall j :: 0 <= j < |history| ==> !(history[j].submissionId == info.id && history[j].judgeTime == parse(time)))
      ensures parse(time).Some? && info.judgeTime == parse(time) ==> r == Some(this)
      ensures r.Some? ==> r.value.info.judgeTime == parse(time) && r.value.info.id == info.id
      ensures r.Some? && r.value != this ==> r.value.latest.Some? && !r.value.info.hideScoreToOthers
      ensures parse(time).Some? && info.judgeTime != parse(time) && r.Some? ==>
        var i := FindFirst(history, AtTime(info.id, parse(time).value));
        i.Some? && r.value == Loaded(HistoryFields(history[i.value]))
    {
      match parse(time)
      case None => None
      case Some(t) =>
        if info.judgeTime == Some(t) then Some(this)
        else match FindFirst(history, AtTime(info.id, t))
          case None => None
          case Some(i) =>
            OverlayHistoryRow(info, history[i]);
            Some(Loaded(HistoryFields(history[i])))
    }

    /** `loadHistoryByTID`: an id that is not an unsigned integer gives `null`; only minor rows load. */
    function ByTid(tid: Option<int>, history: seq<HistoryRow>): (r: Lookup)
      ensures r.result == LoadInvalid <==> tid.None? || tid.value < 0
      ensures r.result != LoadedSelf ==> r.version == this
      ensures r.result == LoadedSelf ==>
        && tid.Some? && 0 <= tid.value
        && (exists j :: 0 <= j < |history| && history[j].submissionId == info.id && history[j].id == tid.value && !history[j].major)
        && r.version.info.tid == Some(tid.value as nat) && r.version.info.versionType == Some(Minor)
        && r.version.info.id == info.id && r.version.latest.Some?
      ensures tid.Some? && 0 <= tid.value
        && (forall j :: 0 <= j < |history| ==> !(history[j].submissionId == info.id && history[j].id == tid.value))
        ==> r.result == LoadFailed
      ensures tid.Some? && 0 <= tid.value ==>
        var i := FindFirst(history, WithTid(info.id, tid.value as nat));
        && (i.Some? && history[i.value].major ==> r.result == LoadFailed)
        && (r.result == LoadedSelf ==> i.Some? && !history[i.value].major
                                       && r.version == Loaded(HistoryFields(history[i.value])))
        && (i.Some? && !history[i.value].major <==> r.result == LoadedSelf)
    {
      if tid.None? || tid.value < 0 then Lookup(LoadInvalid, this)
      else match FindFirst(history, WithTid(info.id, tid.value as nat))
        case None => Lookup(LoadFailed, this)
        case Some(i) =>
          if history[i].major then Lookup(LoadFailed, this)
          else
            OverlayHistoryRow(info, history[i]);
            Lookup(LoadedSelf, Loaded(HistoryFields(history[i])))
    }
  }

  /**
   * The history table without the rows whose id is `tid` (`delete ... where id = tid`; a null
   * id matches nothing): no row with that id is left.
   */
  function RemoveVersion(hs: seq<HistoryRow>, tid: Option<nat>): (r: seq<HistoryRow>)
    ensures |r| <= |hs|
    ensures forall i :: 0 <= i < |r| ==> Some(r[i].id) != tid
    decreases |hs|
  {
    if hs == [] then []
    else (if Some(hs[0].id) == tid then [] else [hs[0]]) + RemoveVersion(hs[1..], tid)
  }

  /** The delete keeps exactly the rows whose id is not `tid`, in order. */
  lemma {:induction false} RemoveVersionKeeps(hs: seq<HistoryRow>, tid: Option<nat>)
    ensures forall h :: h in RemoveVersion(hs, tid) <==> h in hs && Some(h.id) != tid
    decreases |hs|
  {
    if hs != [] {
      RemoveVersionKeeps(hs[1..], tid);
      assert forall h :: h in hs <==> h == hs[0] || h in hs[1..];
    }
  }

  /** With distinct history ids, deleting version `hs[i].id` removes exactly the row at `i`. */
  lemma {:induction false} RemoveVersionExactlyOne(hs: seq<HistoryRow>, i: nat)
    requires i < |hs|
    requires forall a, b :: 0 <= a < b < |hs| ==> hs[a].id != hs[b].id
    ensures RemoveVersion(hs, Some(hs[i].id)) == hs[..i] + hs[i + 1..]
    decreases |hs|
  {
    var tail := hs[1..];
    var tid := hs[i].id;
    if i == 0 {
      forall a | 0 <= a < |tail| ensures tail[a].id != tid {
        assert tail[a] == hs[a + 1];
      }
      RemoveNoneMatching(tail, tid);
      calc {
        RemoveVersion(hs, Some(tid));
        [] + RemoveVersion(tail, Some(tid));
        tail;
        { assert hs[..0] == []; }
        hs[..0] + hs[1..];
      }
    } else {
      forall a, b | 0 <= a < b < |tail| ensures tail[a].id != tail[b].id {
        assert tail[a] == hs[a + 1] && tail[b] == hs[b + 1];
      }
      assert tail[i - 1] == hs[i];
      RemoveVersionExactlyOne(tail, i - 1);
      assert hs[0].id != tid;
      calc {
        RemoveVersion(hs, Some(tid));
        [hs[0]] + RemoveVersion(tail, Some(tid));
        [hs[0]] + (tail[..i - 1] + tail[i..]);
        { assert tail[..i - 1] == hs[1..i] && tail[i..] == hs[i + 1..]; }
        [hs[0]] + (hs[1..i] + hs[i + 1..]);
        { assert [hs[0]] + hs[1..i] == hs[..i]; }
        hs[..i] + hs[i + 1..];
      }
    }
  }

  lemma {:induction false} RemoveNoneMatching(hs: seq<HistoryRow>, tid: nat)
    requires forall a :: 0 <= a < |hs| ==> hs[a].id != tid
    ensures RemoveVersion(hs, Some(tid)) == hs
    decreases |hs|
  {
    if hs != [] {
      RemoveNoneMatching(hs[1..], tid);
    }
  }

  /** A submission object: the shown `info` and the remembered live row. */
  class Submission {
    var info: Info
    var latestVersion: Option<Info>

    constructor (row: Info)
      ensures View() == Version(row, None)
    {
      info := row;
      latestVersion := None;
    }

    function View(): Version
      reads this
    {
      Version(info, latestVersion)
    }

    method LoadHistory(his: seq<HisField>)
      modifies this
      ensures View() == old(View()).Loaded(his)
    {
      if latestVersion.None? {
        latestVersion := Some(info);
      }
      var i := 0;
      while i < |his|
        invariant 0 <= i <= |his|
        invariant info == Overlay(old(info), his[..i])
        invariant latestVersion == old(View()).Loaded(his).latest
      {
        assert his[..i + 1][..i] == his[..i];
        info := OverlayField(info, his[i]);
        i := i + 1;
      }
      assert his[..|his|] == his;
    }

    method LoadHistoryByTime(time: string, parse: string -> Option<string>, history: seq<HistoryRow>)
      returns (r: LoadResult)
      modifies this
      ensures r != LoadInvalid
      ensures var expected := old(View()).ByTime(time, parse, history);
        if expected.None? then r == LoadFailed && View() == old(View())
        else r == LoadedSelf && View() == expected.value
    {
      var t := parse(time);
      if t.None? {
        return LoadFailed;
      }
      if info.judgeTime == t {
        return LoadedSelf;
      }
      var found := FindFirst(history, AtTime(info.id, t.value));
      if found.None? {
        return LoadFailed;
      }
      LoadHistory(HistoryFields(history[found.value]));
      r := LoadedSelf;
    }

    method LoadHistoryByTID(tid: Option<int>, history: seq<HistoryRow>) returns (r: LoadResult)
      modifies this
      ensures Lookup(r, View()) == old(View()).ByTid(tid, history)
    {
      if tid.None? || tid.value < 0 {
        return LoadInvalid;
      }
      var found := FindFirst(history, WithTid(info.id, tid.value as nat));
      if found.None? || history[found.value].major {
        return LoadFailed;
      }
      LoadHistory(HistoryFields(history[found.value]));
      r := LoadedSelf;
    }

    /** Refuses on a major version; otherwise deletes the history row whose id is the shown TID. */
    method DeleteThisMinorVersion(db: Store) returns (deleted: bool)
      modifies db
      ensures deleted <==> !View().IsMajor()
      ensures db.history == if deleted then RemoveVersion(old(db.history), View().GetTID()) else old(db.history)
      ensures db.live == old(db.live) && db.nextTid == old(db.nextTid)
    {
      if View().IsMajor() {
        return false;
      }
      db.history := RemoveVersion(db.history, View().GetTID());
      deleted := true;
    }
  }

  /** A submission with no loaded history shows the latest, major version, with TID 0. */
  lemma FreshVersionIsLatest(row: Info)
    ensures var v := Version(row, None); v.IsLatest() && v.IsMajor() && v.GetTID() == Some(0)
  {
  }

  /** Loading twice still remembers the original live row, and shows only the second overlay's keys on top of the first. */
  lemma LoadHistoryRemembersOnce(row: Info, his1: seq<HisField>, his2: seq<HisField>)
    ensures Version(row, None).Loaded(his1).Loaded(his2).latest == Some(row)
    ensures Version(row, None).Loaded(his1).Loaded(his2).info == Overlay(row, his1 + his2)
  {
    OverlayAppend(row, his1, his2);
  }

  lemma {:induction false} OverlayAppend(info: Info, his1: seq<HisField>, his2: seq<HisField>)
    ensures Overlay(Overlay(info, his1), his2) == Overlay(info, his1 + his2)
    decreases |his2|
  {
    if his2 != [] {
      var n := |his2| - 1;
      OverlayAppend(info, his1, his2[..n]);
      assert (his1 + his2)[..|his1 + his2| - 1] == his1 + his2[..n];
    } else {
      assert his1 + his2 == his1;
    }
  }

  /**
   * After a history row is loaded, the object shows that row's TID, is major exactly when the
   * row is, and is latest exactly when the row is major and has the live row's judge time.
   */
  lemma LoadedRowFlags(v: Version, h: HistoryRow)
    ensures var w := v.Loaded(HistoryFields(h));
      && w.GetTID() == Some(h.id)
      && (w.IsMajor() <==> h.major)
      && (w.IsLatest() <==> h.major && h.judgeTime == w.latest.value.judgeTime)
  {
    OverlayHistoryRow(v.info, h);
  }

  /** A version loaded by TID is a minor one: neither major nor latest, so it may be deleted. */
  lemma ByTidLoadsMinor(v: Version, tid: nat, history: seq<HistoryRow>)
    requires v.ByTid(Some(tid), history).result == LoadedSelf
    ensures !v.ByTid(Some(tid), history).version.IsMajor()
    ensures !v.ByTid(Some(tid), history).version.IsLatest()
    ensures var i := FindFirst(history, WithTid(v.info.id, tid));
      && i.Some? && history[i.value].id == tid && !history[i.value].major
      && v.ByTid(Some(tid), history).version.GetTID() == Some(tid)
  {
  }

  /** With distinct history ids, deleting a version loaded by TID removes exactly its history row. */
  lemma ByTidThenDelete(v: Version, tid: nat, history: seq<HistoryRow>)
    requires forall a, b :: 0 <= a < b < |history| ==> history[a].id != history[b].id
    requires v.ByTid(Some(tid), history).result == LoadedSelf
    ensures var i := FindFirst(history, WithTid(v.info.id, tid));
      && i.Some?
      && RemoveVersion(history, v.ByTid(Some(tid), history).version.GetTID())
         == history[..i.value] + history[i.value + 1..]
  {
    ByTidLoadsMinor(v, tid, history);
    var i := FindFirst(history, WithTid(v.info.id, tid)).value;
    RemoveVersionExactlyOne(history, i);
  }
}
