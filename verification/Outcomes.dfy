/** What each step of a processing or recovery run leaves: where the run stands, and what changed. */
module Outcomes {
  import opened Text
  import opened Domain
  import opened Images
  import opened Headers
  import opened Protocol
  import opened Invariant
  import opened Steps
  import opened Undisturbed

  /** Where a run stands that still has to process `rest`. */
  ghost predicate Awaiting(s: State, me: RunId, rest: seq<UploadEvent>) {
    if rest == [] then me !in s.runs
    else
      && me in s.runs && s.runs[me].ProcRead?
      && s.runs[me].job.id == rest[0].avatarId && s.runs[me].job.ev == rest[0] && s.runs[me].job.rest == rest[1..]
  }

  /** The image can never be given its thumbnails. */
  predicate Hopeless(lib: Libraries, data: Bytes, mime: string) {
    Thumbnail(lib, data, SIZE_100, mime).Err? || Thumbnail(lib, data, SIZE_300, mime).Err?
  }

  function Resolution(lib: Libraries, data: Bytes, id: AvatarId, row: Row, now: nat): Row {
    if Hopeless(lib, data, row.mime) then row.(status := Failed, updated := now)
    else row.(thumbs := Canonical(id, row.mime), status := Completed, updated := now)
  }

  ghost predicate OriginalsStay(a: map<string, Object>, b: map<string, Object>) {
    forall key <- a.Keys :: IsOriginal(key) ==> key in b && b[key] == a[key]
  }

  /** The outbox and all originals are as they were. */
  ghost predicate Quiet(v: State, w: State) {
    w.outbox == v.outbox && v.now <= w.now && OriginalsStay(v.bucket, w.bucket)
  }

  lemma QuietSelf(s: State)
    ensures Quiet(s, s)
  {
  }

  lemma QuietTransitively(u: State, v: State, w: State)
    requires Quiet(u, v) && Quiet(v, w)
    ensures Quiet(u, w)
  {
    hide IsOriginal;
  }

  // ---------------------------------------------------------------- the steps of processUpload

  /** The tables and the bucket are as before. */
  ghost predicate SameStore(v: State, w: State) {
    w.rows == v.rows && w.bucket == v.bucket && w.now == v.now && w.outbox == v.outbox
  }

  lemma NextJobAwaits(lib: Libraries, s: State, r: RunId, events: seq<UploadEvent>)
    requires Lawful(lib) && forall i :: 0 <= i < |events| ==> IsUuid(events[i].avatarId)
    ensures Awaiting(NextJob(lib, s, r, events), r, events) && SameStore(s, NextJob(lib, s, r, events))
  {
    if events != [] {
      var id: AvatarId := events[0].avatarId;
      assert lib.parseUuid(id) == Some(id);
    }
  }

  lemma JobIds(rows: map<AvatarId, Row>, job: Job)
    requires JobOk(rows, job)
    ensures forall i :: 0 <= i < |job.rest| ==> IsUuid(job.rest[i].avatarId)
  {
    hide UploadEventId;
    forall i | 0 <= i < |job.rest|
      ensures IsUuid(job.rest[i].avatarId)
    {
      assert EventOk(rows, job.rest[i]);
    }
  }

  lemma KeyIsNotEmpty(id: AvatarId, row: Row)
    requires RowOk(id, row)
    ensures row.key != "" && IsOriginal(row.key)
  {
  }

  lemma ReadStep(lib: Libraries, s: State, me: RunId, t: Turn, job: Job)
    requires Lawful(lib) && Inv(lib, s) && me in s.runs && s.runs[me] == ProcRead(job) && Enabled(lib, s, Step(me, t))
    ensures job.id in s.rows && job.ev.key != ""
    ensures var w := Next(lib, s, Step(me, t));
      && SameStore(s, w)
      && (if t.ok && s.rows[job.id].Live() && s.rows[job.id].status != Completed then
            me in w.runs && w.runs[me] == ProcClaim(job)
          else Awaiting(w, me, job.rest))
  {
    hide Inv, Lawful, RowOk, UploadEventId, NextJob, Awaiting, TraceOnly;
    JobFacts(lib, s, me);
    JobIds(s.rows, job);
    KeyIsNotEmpty(job.id, s.rows[job.id]);
    NextJobAwaits(lib, s, me, job.rest);
  }

  lemma ClaimStep(lib: Libraries, s: State, me: RunId, t: Turn, job: Job)
    requires Lawful(lib) && Inv(lib, s) && me in s.runs && s.runs[me] == ProcClaim(job) && Enabled(lib, s, Step(me, t))
    ensures job.id in s.rows
    ensures var w := Next(lib, s, Step(me, t));
      if t.ok && Claimable(s.rows[job.id], s.now) then
        && me in w.runs && w.runs[me] == ProcGet(job, s.now)
        && w.rows == s.rows[job.id := Claimed(s.rows[job.id], s.now)]
        && w.bucket == s.bucket && w.outbox == s.outbox && w.now == s.now
      else Awaiting(w, me, job.rest) && (t.ok ==> SameStore(s, w))
  {
    hide Inv, Lawful, RowOk, UploadEventId, NextJob, Awaiting, TraceOnly, Claimable;
    JobFacts(lib, s, me);
    JobIds(s.rows, job);
    NextJobAwaits(lib, s, me, job.rest);
    NextJobAwaits(lib, s.(rows := s.rows[job.id := Claimed(s.rows[job.id], s.now)]), me, job.rest);
  }

  lemma GetStep(lib: Libraries, s: State, me: RunId, t: Turn, job: Job, at: nat)
    requires Inv(lib, s) && me in s.runs && s.runs[me] == ProcGet(job, at) && Enabled(lib, s, Step(me, t))
    ensures job.id in s.rows && job.ev.key == s.rows[job.id].key
    ensures var w := Next(lib, s, Step(me, t));
      && SameStore(s, w) && me in w.runs
      && (if t.ok && job.ev.key in s.bucket then
            var data := s.bucket[job.ev.key].data;
            && Inspect(lib, data).Ok? && Inspect(lib, data).value.mime == s.rows[job.id].mime
            && w.runs[me] == ProcThumb(job, at, data, Inspect(lib, data).value, SIZE_100, map[])
          else w.runs[me] == ProcFail(job, at, false))
  {
    hide Inv, RowOk, UploadEventId, Inspect, TraceOnly;
    JobFacts(lib, s, me);
    if t.ok && job.ev.key in s.bucket {
      StoredIsFaithful(lib, s, job.id);
    }
  }

  lemma ThumbIsNoOriginal(lib: Libraries, s: State, me: RunId)
    requires Lawful(lib) && Inv(lib, s) && me in s.runs && s.runs[me].ProcThumb?
    ensures var run := s.runs[me];
      Thumbnail(lib, run.data, run.side, run.info.mime).Ok? ==>
        var mime := Thumbnail(lib, run.data, run.side, run.info.mime).value.1;
        !IsOriginal(ThumbnailObjectKey(run.job.ev.avatarId, run.side, ExtForMime(mime)))
  {
    hide Inv, Lawful, Thumbnail, Locate, IsOriginal, ThumbnailObjectKey, ExtForMime;
    ThumbFacts(lib, s, me);
    var run := s.runs[me];
    if Thumbnail(lib, run.data, run.side, run.info.mime).Ok? {
      MimeHolds(lib, s, run.job.id);
      ThumbnailMime(lib, run.data, run.side, run.info.mime);
      ThumbKeyIsNoOriginal(run.job.id, run.side, run.info.mime);
    }
  }

  lemma ThumbKeyIsNoOriginal(id: AvatarId, side: string, mime: string)
    requires mime in MIMES
    ensures !IsOriginal(ThumbnailObjectKey(id, side, ExtForMime(mime)))
  {
    hide Locate, ThumbnailObjectKey;
    KeyReadsBack(Thumb(id, side, ExtForMime(mime)));
  }

  /** The put of one thumbnail. */
  lemma ThumbStep(lib: Libraries, s: State, me: RunId, t: Turn)
    requires Lawful(lib) && Inv(lib, s) && me in s.runs && s.runs[me].ProcThumb? && Enabled(lib, s, Step(me, t))
    ensures var w := Next(lib, s, Step(me, t)); var run := s.runs[me];
      && w.rows == s.rows && Quiet(s, w) && w.now == s.now && me in w.runs
      && (if t.ok && Thumbnail(lib, run.data, run.side, run.info.mime).Ok? then
            if run.side == SIZE_100 then
              w.runs[me].ProcThumb? && w.runs[me] == run.(side := SIZE_300, thumbs := w.runs[me].thumbs)
            else w.runs[me].ProcComplete? && w.runs[me] == ProcComplete(run.job, run.at, run.info, w.runs[me].thumbs)
          else w.runs[me] == ProcFail(run.job, run.at, false))
  {
    hide Inv, Lawful, Thumbnail, IsOriginal, ThumbnailObjectKey, TraceOnly;
    ThumbIsNoOriginal(lib, s, me);
  }

  lemma CompleteStep(lib: Libraries, s: State, me: RunId, t: Turn, job: Job, at: nat, info: Info,
      thumbs: map<string, string>)
    requires Lawful(lib) && Inv(lib, s) && me in s.runs && s.runs[me] == ProcComplete(job, at, info, thumbs)
    requires Enabled(lib, s, Step(me, t))
    ensures job.id in s.rows
    ensures var w := Next(lib, s, Step(me, t)); var row := s.rows[job.id];
      && Awaiting(w, me, job.rest) && w.bucket == s.bucket && w.outbox == s.outbox && w.now == s.now
      && (t.ok && row.Live() ==>
            w.rows ==
              s.rows[job.id := row.(thumbs := Canonical(job.id, row.mime), status := Completed, updated := s.now)])
  {
    hide Inv, Lawful, RowOk, UploadEventId, NextJob, Awaiting, TraceOnly, Canonical, ThumbPresent, JobOk, ExtForMime;
    CompleteFacts(lib, s, me);
    JobIds(s.rows, job);
    NextJobAwaits(lib, s, me, job.rest);
    NextJobAwaits(lib, s.(rows := s.rows[job.id := Finished(s.rows[job.id], info, thumbs, s.now)]), me, job.rest);
  }

  lemma FailStep(lib: Libraries, s: State, me: RunId, t: Turn, job: Job, at: nat, swallow: bool)
    requires Lawful(lib) && Inv(lib, s) && me in s.runs && s.runs[me] == ProcFail(job, at, swallow)
    requires Enabled(lib, s, Step(me, t))
    ensures job.id in s.rows
    ensures var w := Next(lib, s, Step(me, t)); var row := s.rows[job.id];
      && Awaiting(w, me, job.rest) && w.bucket == s.bucket && w.outbox == s.outbox && w.now == s.now
      && (t.ok && row.Live() ==> w.rows == s.rows[job.id := row.(status := Failed, updated := s.now)])
  {
    hide Inv, Lawful, RowOk, UploadEventId, NextJob, Awaiting, TraceOnly;
    JobFacts(lib, s, me);
    JobIds(s.rows, job);
    NextJobAwaits(lib, s, me, job.rest);
    NextJobAwaits(lib, s.(rows := s.rows[job.id := s.rows[job.id].(status := Failed, updated := s.now)]), me, job.rest);
  }

  lemma OriginalIsStored(lib: Libraries, s: State, id: AvatarId)
    requires Inv(lib, s) && id in s.rows && s.rows[id].Live()
    ensures s.rows[id].key in s.bucket
  {
    hide TablesOk, TopicsOk, RunsOk, BucketOk, SealedOk, CleanedOk, ThumbPresent;
  }

  // ---------------------------------------------------------------- what a failing effect may have done

  ghost predicate SameEffect(v: State, w: State) {
    w.rows == v.rows && w.outbox == v.outbox && w.bucket == v.bucket && w.uploads == v.uploads && w.deletes == v.deletes
  }

  /** Seen from outside, an effect with a lost reply is one with a good reply, and a refused one is none. */
  ghost predicate Alike(s: State, good: State, lost: State, refused: State) {
    SameEffect(good, lost) && SameEffect(s, refused)
  }

  lemma UploadAlike(s: State, r: RunId, good: Turn, lost: Turn, refused: Turn)
    requires r in s.runs && s.runs[r].UploadPut? && good.ok && !lost.ok && lost.effect && !refused.Lands()
    ensures Alike(s, StepUploadPut(s, r, good), StepUploadPut(s, r, lost), StepUploadPut(s, r, refused))
  {
  }

  lemma UndoAlike(s: State, r: RunId, good: Turn, lost: Turn, refused: Turn)
    requires r in s.runs && s.runs[r].UploadUndo? && good.ok && !lost.ok && lost.effect && !refused.Lands()
    ensures Alike(s, StepUploadUndo(s, r, good), StepUploadUndo(s, r, lost), StepUploadUndo(s, r, refused))
  {
    hide TrimSpace;
  }

  lemma CleanAlike(s: State, r: RunId, good: Turn, lost: Turn, refused: Turn)
    requires r in s.runs && s.runs[r].Clean? && good.ok && !lost.ok && lost.effect && !refused.Lands()
    ensures Alike(s, StepClean(s, r, good), StepClean(s, r, lost), StepClean(s, r, refused))
  {
    hide TrimSpace;
  }

  lemma ThumbAlike(lib: Libraries, s: State, r: RunId, good: Turn, lost: Turn, refused: Turn)
    requires r in s.runs && s.runs[r].ProcThumb? && good.ok && !lost.ok && lost.effect && !refused.Lands()
    ensures Alike(s, StepProcThumb(lib, s, r, good), StepProcThumb(lib, s, r, lost), StepProcThumb(lib, s, r, refused))
  {
    hide Thumbnail, ThumbnailObjectKey, ExtForMime;
  }

  lemma MarkAlike(s: State, r: RunId, good: Turn, lost: Turn, refused: Turn)
    requires r in s.runs && s.runs[r].FlushMark? && good.ok && !lost.ok && lost.effect && !refused.Lands()
    ensures Alike(s, StepFlushMark(s, r, good), StepFlushMark(s, r, lost), StepFlushMark(s, r, refused))
  {
    hide MarkPublished;
  }

  /** An effect on the bucket or on an outbox row that reports an error may have happened all the same, and then exactly
      as if it had reported success; or it did not, and then nothing changed. */
  lemma LostReplyLands(lib: Libraries, s: State, r: RunId, good: Turn, lost: Turn, refused: Turn)
    requires r in s.runs && good.ok && !lost.ok && lost.effect && !refused.Lands()
    requires var run := s.runs[r];
      run.UploadPut? || run.UploadUndo? || run.Clean? || run.ProcThumb? || run.FlushMark?
    ensures Alike(s, StepOf(lib, s, r, good), StepOf(lib, s, r, lost), StepOf(lib, s, r, refused))
  {
    hide Alike, StepUploadPut, StepUploadUndo, StepClean, StepProcThumb, StepFlushMark;
    match s.runs[r]
    case UploadPut(_, _, _, _) => UploadAlike(s, r, good, lost, refused);
    case UploadUndo(_, _) => UndoAlike(s, r, good, lost, refused);
    case Clean(_, _) => CleanAlike(s, r, good, lost, refused);
    case ProcThumb(_, _, _, _, _, _) => ThumbAlike(lib, s, r, good, lost, refused);
    case FlushMark(_) => MarkAlike(s, r, good, lost, refused);
  }

  /** What the query or the map cannot have answered, the run does not act on. */
  lemma ImpossibleAnswers(lib: Libraries, s: State, r: RunId, t: Turn)
    requires r in s.runs && t.ok && (s.runs[r].DeleteRead? || s.runs[r].RecoverList?) && !Answers(s, s.runs[r], t)
    requires s.runs[r].DeleteRead? ==> s.rows[s.runs[r].id].Live() && s.rows[s.runs[r].id].user == s.runs[r].user
    ensures StepOf(lib, s, r, t) == s
  {
    hide IsOrdering, IsStuckListing;
  }

  // ---------------------------------------------------------------- the steps of RecoverStuck

  function EventsFor(rows: map<AvatarId, Row>, ids: seq<AvatarId>): (events: seq<UploadEvent>)
    requires forall i :: 0 <= i < |ids| ==> ids[i] in rows
    ensures |events| == |ids| && forall i :: 0 <= i < |ids| ==> events[i] == UploadEventOf(ids[i], rows[ids[i]])
  {
    seq(|ids|, i requires 0 <= i < |ids| => UploadEventOf(ids[i], rows[ids[i]]))
  }

  lemma EndJobIs(lib: Libraries, s: State, me: RunId, t: Turn)
    requires Lawful(lib) && me in s.runs && s.runs[me].RecoverList? && Answers(s, RecoverList, t)
    requires Enabled(lib, s, Step(me, t))
    ensures var w := Next(lib, s, Step(me, t));
      SameStore(s, w) && Awaiting(w, me, if t.ok then EventsFor(s.rows, t.stuck) else [])
  {
    hide Lawful, NextJob, TraceOnly, UploadEventOf, Awaiting;
    if t.ok {
      var events := seq(|t.stuck|, i requires 0 <= i < |t.stuck| => UploadEventOf(t.stuck[i], s.rows[t.stuck[i]]));
      assert events == EventsFor(s.rows, t.stuck);
      EventIds(s.rows, t.stuck);
      NextJobAwaits(lib, s, me, events);
    } else {
      DroppedAwaits(s, me);
    }
  }

  lemma DroppedAwaits(s: State, me: RunId)
    ensures Awaiting(Drop(s, me), me, [])
  {
  }

  lemma EventIds(rows: map<AvatarId, Row>, ids: seq<AvatarId>)
    requires forall i :: 0 <= i < |ids| ==> ids[i] in rows
    ensures forall i :: 0 <= i < |ids| ==> EventsFor(rows, ids)[i].avatarId == ids[i]
  {
    hide UploadEventId;
  }

  lemma BeginRecoverStep(lib: Libraries, s: State, me: RunId)
    requires me !in s.runs
    ensures Enabled(lib, s, BeginRecover(me))
    ensures Next(lib, s, BeginRecover(me)) == Goto(s, me, RecoverList)
  {
  }

  lemma ListedHaveRows(rows: map<AvatarId, Row>, now: nat, limit: nat, ids: seq<AvatarId>)
    requires IsStuckListing(rows, now, limit, ids)
    ensures forall i :: 0 <= i < |ids| ==> ids[i] in rows && Claimable(rows[ids[i]], now)
    ensures forall i, j :: 0 <= i < j < |ids| ==> ids[i] != ids[j]
    ensures |ids| <= limit
  {
  }
}
