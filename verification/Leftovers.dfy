/** "Deleting an avatar removes everything it had" is false in general. Exactly when it holds. */
module Leftovers {
  import opened Text
  import opened Errors
  import opened Domain
  import opened Images
  import opened Headers
  import opened Protocol
  import opened Invariant
  import opened Effects
  import opened Commits
  import opened Steps
  import opened Guarantees
  import opened Cleanup
  import opened Outbox
  import opened Gauges
  import opened FlushCalls
  import opened Lease
  import opened Undisturbed

  // ---------------------------------------------------------------- the condition

  /** The run will put a thumbnail of the avatar if nothing more fails. */
  ghost predicate CanPut(lib: Libraries, bucket: map<string, Object>, run: Run, id: AvatarId) {
    match run
    case ProcGet(job, _) =>
      && job.id == id && job.ev.key in bucket
      && Inspect(lib, bucket[job.ev.key].data).Ok?
      && Thumbnail(lib, bucket[job.ev.key].data, SIZE_100, Inspect(lib, bucket[job.ev.key].data).value.mime).Ok?
    case ProcThumb(job, _, data, info, side, _) => job.id == id && Thumbnail(lib, data, side, info.mime).Ok?
    case _ => false
  }

  ghost predicate Within(bucket: map<string, Object>, id: AvatarId, keys: seq<string>) {
    forall key <- bucket.Keys :: Owner(key) == id ==> key in keys
  }

  ghost predicate NoPutter(lib: Libraries, s: State, id: AvatarId) {
    forall r <- s.runs.Keys :: !CanPut(lib, s.bucket, s.runs[r], id)
  }

  ghost predicate CleanersCover(s: State, id: AvatarId) {
    forall r <- s.runs.Keys :: s.runs[r].Clean? && s.runs[r].avatar == id ==> Within(s.bucket, id, s.runs[r].keys)
  }

  /** Everything the avatar has is in the announced keys and in what every running cleaner still has to remove, and no
      run can add to it. */
  ghost predicate Tight(lib: Libraries, s: State, id: AvatarId, keys: seq<string>) {
    && NoPutter(lib, s, id) && CleanersCover(s, id)
    && Within(s.bucket, id, keys)
    && (id in s.cleaned ==> Within(s.bucket, id, []))
  }

  // ---------------------------------------------------------------- sufficient: the condition is kept

  /** Nothing is added to the objects of `id`, and those that stay are unchanged. */
  ghost predicate OnlyLoses(v: State, w: State, id: AvatarId) {
    forall key <- w.bucket.Keys :: Owner(key) == id ==> key in v.bucket && w.bucket[key] == v.bucket[key]
  }

  /** The run that moved is not at a put or a removal, and got to a download of the avatar's image only if that is not
      deleted; and nothing was marked as cleaned. */
  ghost predicate Idle(v: State, w: State, r: RunId, id: AvatarId) {
    && OneMoved(v.runs, w.runs, r) && w.cleaned == v.cleaned && OnlyLoses(v, w, id)
    && (r in w.runs ==> !w.runs[r].Clean? && !(w.runs[r].ProcThumb? && w.runs[r].job.id == id))
    && (r in w.runs && w.runs[r].ProcGet? && w.runs[r].job.id == id ==> id in v.rows && v.rows[id].Live())
  }

  lemma MoveKeeps(lib: Libraries, v: State, w: State, r: RunId, id: AvatarId, keys: seq<string>)
    requires Tight(lib, v, id, keys) && IdJobs(v, id) && OneMoved(v.runs, w.runs, r) && OnlyLoses(v, w, id)
    requires r in w.runs ==> !CanPut(lib, w.bucket, w.runs[r], id)
    requires r in w.runs && w.runs[r].Clean? && w.runs[r].avatar == id ==> Within(w.bucket, id, w.runs[r].keys)
    requires id in w.cleaned ==> id in v.cleaned || Within(w.bucket, id, [])
    ensures Tight(lib, w, id, keys)
  {
    hide Owner, Thumbnail, Inspect;
    forall q <- w.runs.Keys
      ensures !CanPut(lib, w.bucket, w.runs[q], id)
      ensures w.runs[q].Clean? && w.runs[q].avatar == id ==> Within(w.bucket, id, w.runs[q].keys)
    {
      if q != r {
        assert q in v.runs && w.runs[q] == v.runs[q];
        assert !CanPut(lib, v.bucket, v.runs[q], id);
      }
    }
  }

  lemma IdleKeeps(lib: Libraries, v: State, w: State, r: RunId, id: AvatarId, keys: seq<string>)
    requires Tight(lib, v, id, keys) && Idle(v, w, r, id) && IdJobs(v, id) && id in v.rows && !v.rows[id].Live()
    ensures Tight(lib, w, id, keys)
  {
    hide Tight, OnlyLoses, IdJobs, Within;
    MoveKeeps(lib, v, w, r, id, keys);
  }

  /** Every run at its download has the avatar's own key. */
  ghost predicate IdJobs(s: State, id: AvatarId) {
    forall r <- s.runs.Keys :: s.runs[r].MayPutFor(id) ==> Owner(s.runs[r].job.ev.key) == id
  }

  lemma JobsOwnTheirKeys(lib: Libraries, s: State, id: AvatarId)
    requires Inv(lib, s)
    ensures IdJobs(s, id)
  {
    hide Inv, RowOk, Owner, IsOriginal, UploadEventId;
    forall r <- s.runs.Keys | s.runs[r].MayPutFor(id)
      ensures Owner(s.runs[r].job.ev.key) == id
    {
      JobFacts(lib, s, r);
      OwnerOfOriginal(id, s.rows[id]);
    }
  }

  lemma CommitsIdle(lib: Libraries, s: State, r: RunId, t: Turn, id: AvatarId)
    requires r in s.runs && (s.runs[r].UploadCreate? || s.runs[r].DeleteTx?)
    ensures Idle(s, StepOf(lib, s, r, t), r, id)
  {
    hide InsertOutbox, Seals, Owner;
  }

  lemma EdgeIdle(lib: Libraries, s: State, r: RunId, t: Turn, id: AvatarId)
    requires Inv(lib, s) && id in s.rows && r in s.runs
    requires s.runs[r].UploadPut? || s.runs[r].UploadUndo? || s.runs[r].UploadGauge? || s.runs[r].DeleteGauge?
    ensures Idle(s, StepOf(lib, s, r, t), r, id)
  {
    hide Inv, Owner, TrimSpace, OnlyLoses;
    if s.runs[r].UploadPut? {
      UploaderOwns(lib, s, r);
      PutElsewhere(s, StepOf(lib, s, r, t), id, s.runs[r].row.key);
    } else {
      RemovalLoses(s, StepOf(lib, s, r, t), id);
    }
  }

  lemma PutElsewhere(v: State, w: State, id: AvatarId, key: string)
    requires Owner(key) != id && forall k <- w.bucket.Keys :: k == key || (k in v.bucket && w.bucket[k] == v.bucket[k])
    ensures OnlyLoses(v, w, id)
  {
    hide Owner;
  }

  lemma RemovalLoses(v: State, w: State, id: AvatarId)
    requires forall k <- w.bucket.Keys :: k in v.bucket && w.bucket[k] == v.bucket[k]
    ensures OnlyLoses(v, w, id)
  {
    hide Owner;
  }

  lemma UploaderOwns(lib: Libraries, s: State, r: RunId)
    requires Inv(lib, s) && r in s.runs && s.runs[r].UploadPut?
    ensures Owner(s.runs[r].row.key) == s.runs[r].id && s.runs[r].id !in s.rows
  {
    hide TablesOk, StoreOk, TopicsOk, UploadsApart, Owner, IsOriginal, NewRowOk, Faithful;
    assert RunOk(lib, World(s), s.runs[r]);
  }

  lemma ReadIdle(lib: Libraries, s: State, r: RunId, t: Turn, id: AvatarId)
    requires r in s.runs
    requires (s.runs[r].DeleteRead? || s.runs[r].FlushList? || s.runs[r].RecoverList? || s.runs[r].ProcRead?)
    ensures Idle(s, StepOf(lib, s, r, t), r, id)
  {
    hide NextJob, ListUnpublished, DeleteKeys, IsOrdering, Owner;
    if s.runs[r].ProcRead? {
      NextJobOwesNothing(lib, s, r, s.runs[r].job.rest);
      NextJobReads(lib, s, r, s.runs[r].job.rest);
    } else if s.runs[r].RecoverList? && t.ok && IsStuckListing(s.rows, s.now, STUCK_LIMIT, t.stuck) {
      var events := seq(|t.stuck|, i requires 0 <= i < |t.stuck| => UploadEventOf(t.stuck[i], s.rows[t.stuck[i]]));
      NextJobOwesNothing(lib, s, r, events);
      NextJobReads(lib, s, r, events);
    } else {
      assert s.runs[r := s.runs[r]] == s.runs;
    }
  }

  lemma PublishLeavesObjects(lib: Libraries, s: State, item: OutboxItem, trace: seq<Header>)
    requires Sendable(lib, item)
    ensures var w := Publish(lib, s, item, trace); w.runs == s.runs && w.bucket == s.bucket && w.cleaned == s.cleaned
  {
    hide UploadMessage, DeleteMessage;
  }

  lemma FlushIdle(lib: Libraries, s: State, r: RunId, t: Turn, id: AvatarId)
    requires r in s.runs && (s.runs[r].FlushPublish? || s.runs[r].FlushMark?)
    ensures Idle(s, StepOf(lib, s, r, t), r, id)
  {
    hide StepFlushPublish, StepFlushMark, Idle;
    if s.runs[r].FlushPublish? {
      PublishIdle(lib, s, r, t, id);
    } else {
      MarkIdle(s, r, t, id);
    }
  }

  lemma MarkIdle(s: State, r: RunId, t: Turn, id: AvatarId)
    requires r in s.runs && s.runs[r].FlushMark?
    ensures Idle(s, StepFlushMark(s, r, t), r, id)
  {
    hide MarkPublished, Owner;
  }

  lemma PublishIdle(lib: Libraries, s: State, r: RunId, t: Turn, id: AvatarId)
    requires r in s.runs && s.runs[r].FlushPublish?
    ensures Idle(s, StepFlushPublish(lib, s, r, t), r, id)
  {
    hide Sendable, Publish, Owner;
    if s.runs[r].items != [] && Sendable(lib, s.runs[r].items[0]) && t.Lands() {
      PublishLeavesObjects(lib, s, s.runs[r].items[0], t.trace);
    }
  }

  lemma EndIdle(lib: Libraries, s: State, r: RunId, job: Job, rows: map<AvatarId, Row>, id: AvatarId)
    ensures Idle(s, EndJob(lib, s.(rows := rows), r, job), r, id)
  {
    hide NextJob, Owner;
    NextJobOwesNothing(lib, s.(rows := rows), r, job.rest);
    NextJobReads(lib, s.(rows := rows), r, job.rest);
  }

  /** A claim, completion or failure; only a live avatar can be claimed. */
  lemma ProcIdle(lib: Libraries, s: State, r: RunId, t: Turn, id: AvatarId)
    requires r in s.runs && (s.runs[r].ProcClaim? || s.runs[r].ProcComplete? || s.runs[r].ProcFail?)
    ensures Idle(s, StepOf(lib, s, r, t), r, id)
  {
    hide EndJob, Idle;
    var run := s.runs[r];
    var x := run.job.id;
    EndIdle(lib, s, r, run.job, s.rows, id);
    assert s.(rows := s.rows) == s;
    if x in s.rows {
      var row := s.rows[x];
      EndIdle(lib, s, r, run.job, s.rows[x := Claimed(row, s.now)], id);
      EndIdle(lib, s, r, run.job, s.rows[x := row.(status := Failed, updated := s.now)], id);
      if run.ProcComplete? {
        EndIdle(lib, s, r, run.job, s.rows[x := Finished(row, run.info, run.thumbs, s.now)], id);
      }
      if run.ProcClaim? && Claimable(row, s.now) {
        ClaimIdle(s, r, s.rows[x := Claimed(row, s.now)], ProcGet(run.job, s.now), id);
      }
    }
  }

  lemma ClaimIdle(s: State, r: RunId, rows: map<AvatarId, Row>, run: Run, id: AvatarId)
    requires run.ProcGet? && (run.job.id == id ==> id in s.rows && s.rows[id].Live())
    ensures Idle(s, Goto(s.(rows := rows), r, run), r, id)
  {
    hide Owner;
  }

  lemma GetKeeps(lib: Libraries, s: State, r: RunId, t: Turn, id: AvatarId, keys: seq<string>)
    requires Tight(lib, s, id, keys) && IdJobs(s, id) && r in s.runs && s.runs[r].ProcGet?
    ensures Tight(lib, StepProcGet(lib, s, r, t), id, keys)
  {
    assert !CanPut(lib, s.bucket, s.runs[r], id);
    hide Owner, Thumbnail, Inspect, Tight, IdJobs, OnlyLoses;
    var w := StepProcGet(lib, s, r, t);
    RemovalLoses(s, w, id);
    assert w == Goto(s, r, w.runs[r]) && !CanPut(lib, w.bucket, w.runs[r], id) && !w.runs[r].Clean?;
    hide StepProcGet, CanPut;
    MoveKeeps(lib, s, w, r, id, keys);
  }

  /** What a thumbnail put moves. */
  lemma PutMoves(lib: Libraries, s: State, r: RunId, t: Turn)
    requires Lawful(lib) && Inv(lib, s) && r in s.runs && s.runs[r].ProcThumb?
    ensures var run := s.runs[r]; var w := StepProcThumb(lib, s, r, t);
      && r in w.runs && w.runs == s.runs[r := w.runs[r]] && w.cleaned == s.cleaned
      && (if Thumbnail(lib, run.data, run.side, run.info.mime).Err? then w.bucket == s.bucket && w.runs[r].ProcFail?
          else !w.runs[r].Clean? && (w.runs[r].ProcThumb? ==> w.runs[r].job.id == run.job.id) && !w.runs[r].ProcGet?
               && (forall k <- w.bucket.Keys ::
                 Owner(k) == run.job.id || (k in s.bucket && w.bucket[k] == s.bucket[k])))
  {
    hide Inv, Lawful, Owner, Thumbnail, ThumbnailObjectKey, ExtForMime;
    var run := s.runs[r];
    ThumbFacts(lib, s, r);
    if Thumbnail(lib, run.data, run.side, run.info.mime).Ok? {
      MimeHolds(lib, s, run.job.id);
      ThumbnailMime(lib, run.data, run.side, run.info.mime);
      ThumbLocated(run.job.id, run.side, run.info.mime);
    }
  }

  /** A put of another avatar's thumbnail, or a failed one, leaves this avatar alone. */
  lemma PutIsElsewhere(lib: Libraries, s: State, r: RunId, t: Turn, id: AvatarId)
    requires Lawful(lib) && Inv(lib, s) && r in s.runs && s.runs[r].ProcThumb? && !CanPut(lib, s.bucket, s.runs[r], id)
    ensures Idle(s, StepProcThumb(lib, s, r, t), r, id)
  {
    hide Inv, Lawful, Owner, Thumbnail, StepProcThumb;
    PutMoves(lib, s, r, t);
  }

  lemma PutKeeps(lib: Libraries, s: State, r: RunId, t: Turn, id: AvatarId, keys: seq<string>)
    requires Lawful(lib) && Inv(lib, s) && Tight(lib, s, id, keys) && IdJobs(s, id) && r in s.runs
    requires s.runs[r].ProcThumb? && id in s.rows && !s.rows[id].Live()
    ensures Tight(lib, StepProcThumb(lib, s, r, t), id, keys)
  {
    assert !CanPut(lib, s.bucket, s.runs[r], id);
    hide Inv, Lawful, Tight, IdJobs, StepProcThumb, Idle, CanPut;
    PutIsElsewhere(lib, s, r, t, id);
    IdleKeeps(lib, s, StepProcThumb(lib, s, r, t), r, id, keys);
  }

  lemma GoCleanMoves(s: State, r: RunId, bucket: map<string, Object>, avatar: string, rest: seq<string>)
    requires r in s.runs
    ensures var w := GoClean(s.(bucket := bucket), r, avatar, rest);
      && w.bucket == bucket && OneMoved(s.runs, w.runs, r)
      && (if rest == [] then r !in w.runs && w.cleaned == s.cleaned + {avatar}
          else r in w.runs && w.runs[r] == Clean(avatar, rest) && w.cleaned == s.cleaned)
    ensures var w := Drop(s.(bucket := bucket), r);
      w.bucket == bucket && OneMoved(s.runs, w.runs, r) && r !in w.runs && w.cleaned == s.cleaned
  {
  }

  /** What the removal of one object moves. */
  lemma CleanMoves(s: State, r: RunId, t: Turn, avatar: string, keys: seq<string>)
    requires r in s.runs && s.runs[r] == Clean(avatar, keys)
    requires keys != [] ==> TrimSpace(keys[0]) == keys[0] != ""
    ensures var w := StepClean(s, r, t);
      && OneMoved(s.runs, w.runs, r)
      && (forall k <- w.bucket.Keys :: k in s.bucket && w.bucket[k] == s.bucket[k])
      && (r in w.runs ==> keys != [] && w.runs[r] == Clean(avatar, keys[1..]) && keys[0] !in w.bucket)
      && (w.cleaned == s.cleaned
          || (w.cleaned == s.cleaned + {avatar} && (keys == [] || (keys[1..] == [] && keys[0] !in w.bucket))))
  {
    hide TrimSpace, GoClean, OneMoved;
    assert s.(bucket := s.bucket) == s;
    if keys == [] {
      GoCleanMoves(s, r, s.bucket, avatar, []);
    } else {
      GoCleanMoves(s, r, s.bucket, avatar, keys[1..]);
      GoCleanMoves(s, r, RemoveKey(s.bucket, keys[0]), avatar, keys[1..]);
    }
  }

  lemma RestWithin(v: map<string, Object>, w: map<string, Object>, id: AvatarId, keys: seq<string>)
    requires Within(v, id, keys) && w.Keys <= v.Keys
    ensures keys == [] ==> Within(w, id, [])
    ensures keys != [] && keys[0] !in w ==> Within(w, id, keys[1..])
  {
    hide Owner;
    assert forall k :: k in keys ==> k == keys[0] || k in keys[1..];
  }

  lemma HeadIsTrimmed(lib: Libraries, s: State, r: RunId)
    requires Inv(lib, s) && r in s.runs && s.runs[r].Clean? && s.runs[r].keys != []
    ensures TrimSpace(s.runs[r].keys[0]) == s.runs[r].keys[0] != ""
  {
    hide Inv, TrimSpace, Owner, CleanOk;
    CleanFacts(lib, s, r);
    CleanHasRow(World(Drop(s, r)), s.runs[r].avatar, s.runs[r].keys);
    CleanKeyIsStored(lib, Drop(s, r), s.runs[r].avatar, s.runs[r].keys);
  }

  lemma CleanerIsCovered(lib: Libraries, s: State, r: RunId, id: AvatarId, keys: seq<string>)
    requires Tight(lib, s, id, keys) && r in s.runs && s.runs[r].Clean? && s.runs[r].avatar == id
    ensures Within(s.bucket, id, s.runs[r].keys)
  {
    hide Within, NoPutter;
  }

  lemma CleanerKeeps(lib: Libraries, s: State, r: RunId, t: Turn, id: AvatarId, keys: seq<string>)
    requires Inv(lib, s) && Tight(lib, s, id, keys) && IdJobs(s, id) && r in s.runs && s.runs[r].Clean?
    ensures Tight(lib, StepClean(s, r, t), id, keys)
  {
    hide Inv, TrimSpace, Owner, Tight, IdJobs, Within, StepClean, OnlyLoses, OneMoved, Inspect, Thumbnail;
    var run := s.runs[r];
    if run.avatar == id {
      CleanerIsCovered(lib, s, r, id, keys);
    }
    if run.keys != [] {
      HeadIsTrimmed(lib, s, r);
    }
    CleanMoves(s, r, t, run.avatar, run.keys);
    var w := StepClean(s, r, t);
    RemovalLoses(s, w, id);
    if run.avatar == id {
      RestWithin(s.bucket, w.bucket, id, run.keys);
    }
    MoveKeeps(lib, s, w, r, id, keys);
  }

  lemma StepTight(lib: Libraries, s: State, r: RunId, t: Turn, id: AvatarId, keys: seq<string>)
    requires Lawful(lib) && Inv(lib, s) && Tight(lib, s, id, keys) && r in s.runs && id in s.rows && !s.rows[id].Live()
    ensures Tight(lib, StepOf(lib, s, r, t), id, keys)
  {
    hide Inv, Lawful, Tight, Idle, IdJobs, StepUploadPut, StepUploadCreate, StepUploadUndo, StepGauge, StepDeleteRead,
      StepDeleteTx, StepFlushList, StepFlushPublish, StepFlushMark, StepRecoverList, StepProcRead, StepProcClaim,
      StepProcGet, StepProcThumb, StepProcComplete, StepProcFail, StepClean;
    JobsOwnTheirKeys(lib, s, id);
    var run := s.runs[r];
    if run.ProcGet? {
      GetKeeps(lib, s, r, t, id, keys);
    } else if run.ProcThumb? {
      PutKeeps(lib, s, r, t, id, keys);
    } else if run.Clean? {
      CleanerKeeps(lib, s, r, t, id, keys);
    } else {
      if run.UploadCreate? || run.DeleteTx? {
        CommitsIdle(lib, s, r, t, id);
      } else if run.FlushPublish? || run.FlushMark? {
        FlushIdle(lib, s, r, t, id);
      } else if run.ProcClaim? || run.ProcComplete? || run.ProcFail? {
        ProcIdle(lib, s, r, t, id);
      } else if run.DeleteRead? || run.FlushList? || run.RecoverList? || run.ProcRead? {
        ReadIdle(lib, s, r, t, id);
      } else {
        EdgeIdle(lib, s, r, t, id);
      }
      IdleKeeps(lib, s, StepOf(lib, s, r, t), r, id, keys);
    }
  }

  /** The delete event of the avatar is in the outbox, with these keys. */
  ghost predicate Announces(lib: Libraries, s: State, id: AvatarId, keys: seq<string>) {
    Announced(lib, s.outbox, DeleteEventOf(id, keys))
  }

  lemma EntryReads(lib: Libraries, s: State, k: nat, ev: DeleteEvent)
    requires Lawful(lib) && Inv(lib, s) && k in s.outbox && s.outbox[k].kind == OUTBOX_DELETE
    requires s.outbox[k].payload == lib.writeDelete(ev)
    ensures ev == DeleteEventOf(ev.avatarId, ev.keys) && s.outbox[k].eventId == DeleteEventId(ev.avatarId)
  {
    hide Inv, IdOfEvent, DeleteEventId, KeysOk;
    EntryOfItem(lib, s, OutboxItem(k, OUTBOX_DELETE, s.outbox[k].payload));
    var id := IdOfEvent(s.outbox[k].eventId);
    assert lib.readDelete(s.outbox[k].payload) == Some(ev);
    assert lib.readDelete(lib.writeDelete(DeleteEventOf(id, ev.keys))) == Some(DeleteEventOf(id, ev.keys));
  }

  /** An avatar has only one delete event, so every delete message about it announces the same keys. */
  lemma OneAnnouncement(lib: Libraries, s: State, id: AvatarId, keys: seq<string>, ev: DeleteEvent)
    requires Lawful(lib) && Inv(lib, s) && Announces(lib, s, id, keys) && Announced(lib, s.outbox, ev)
    requires ev.avatarId == id
    ensures ev.keys == keys
  {
    hide Inv, DeleteEventId;
    var j :|
      j in s.outbox && s.outbox[j].kind == OUTBOX_DELETE
        && s.outbox[j].payload == lib.writeDelete(DeleteEventOf(id, keys));
    var k :| k in s.outbox && s.outbox[k].kind == OUTBOX_DELETE && s.outbox[k].payload == lib.writeDelete(ev);
    EntryReads(lib, s, j, DeleteEventOf(id, keys));
    EntryReads(lib, s, k, ev);
    EventsAreUnique(lib, s, j, k);
    assert lib.readDelete(s.outbox[j].payload) == Some(DeleteEventOf(id, keys));
    assert lib.readDelete(s.outbox[j].payload) == Some(ev);
  }

  lemma EventsAreUnique(lib: Libraries, s: State, j: nat, k: nat)
    requires Inv(lib, s) && j in s.outbox && k in s.outbox && s.outbox[j].eventId == s.outbox[k].eventId
    ensures j == k
  {
    hide StoreOk, TopicsOk, RunsOk, RowsOk, OutboxOk, EventsComplete, StampsOk;
  }

  lemma MessageIsAnnounced(lib: Libraries, s: State, i: nat)
    requires Inv(lib, s) && i < |s.deletes|
    ensures HandleDelete(lib, s.deletes[i]).Ok?
    ensures var ev := HandleDelete(lib, s.deletes[i]).value;
      Announced(lib, s.outbox, ev) && ev.avatarId in s.rows && !s.rows[ev.avatarId].Live()
  {
    hide TablesOk, StoreOk, RunsOk, Announced, HandleDelete;
    assert DeleteMessageOk(lib, s.rows, s.outbox, s.deletes[i]);
  }

  lemma CleanerStarts(lib: Libraries, s: State, r: RunId, id: AvatarId, keys: seq<string>, avatar: string,
      rest: seq<string>)
    requires Tight(lib, s, id, keys) && IdJobs(s, id) && r !in s.runs && (avatar == id ==> rest == keys)
    ensures Tight(lib, Goto(s, r, Clean(avatar, rest)), id, keys)
  {
    assert Within(s.bucket, id, keys);
    var w := Goto(s, r, Clean(avatar, rest));
    RemovalLoses(s, w, id);
    hide Owner, Tight, IdJobs, Within, OnlyLoses;
    MoveKeeps(lib, s, w, r, id, keys);
  }

  lemma DeliverTight(lib: Libraries, s: State, r: RunId, i: nat, id: AvatarId, keys: seq<string>)
    requires Lawful(lib) && Inv(lib, s) && Tight(lib, s, id, keys) && Announces(lib, s, id, keys)
    requires Enabled(lib, s, DeliverDelete(r, i))
    ensures Tight(lib, Next(lib, s, DeliverDelete(r, i)), id, keys)
  {
    hide Inv, Lawful, HandleDelete, Tight, IdJobs, Announces, Announced, CleanOk;
    JobsOwnTheirKeys(lib, s, id);
    MessageIsAnnounced(lib, s, i);
    DeleteMessageFacts(lib, s, i);
    var ev := HandleDelete(lib, s.deletes[i]).value;
    if ev.avatarId == id {
      OneAnnouncement(lib, s, id, keys, ev);
    }
    CleanerStarts(lib, s, r, id, keys, ev.avatarId, ev.keys);
  }

  lemma BeginIdle(lib: Libraries, s: State, a: Action, id: AvatarId)
    requires Enabled(lib, s, a)
    requires (a.BeginUpload? || a.BeginDelete? || a.BeginFlush? || a.BeginRecover? || a.DeliverUpload? || a.Crash?)
    ensures Idle(s, Next(lib, s, a), a.r, id)
  {
    hide NextJob, HandleUpload, NewRow, Inspect, Owner;
    if a.DeliverUpload? {
      if HandleUpload(lib, s.uploads[a.offset]).Ok? {
        NextJobOwesNothing(lib, s, a.r, [HandleUpload(lib, s.uploads[a.offset]).value]);
        NextJobReads(lib, s, a.r, [HandleUpload(lib, s.uploads[a.offset]).value]);
      } else {
        assert s.runs - {a.r} == s.runs;
      }
    }
  }

  lemma NextTight(lib: Libraries, s: State, a: Action, id: AvatarId, keys: seq<string>)
    requires Lawful(lib) && Inv(lib, s) && Enabled(lib, s, a) && Tight(lib, s, id, keys) && Announces(lib, s, id, keys)
    requires id in s.rows && !s.rows[id].Live()
    ensures Tight(lib, Next(lib, s, a), id, keys)
  {
    hide Inv, Lawful, Idle, IdJobs, Announces, StepOf, NextJob, HandleUpload, HandleDelete, NewRow, Inspect, TraceOnly,
      GoClean, Owner, Within, CanPut;
    JobsOwnTheirKeys(lib, s, id);
    if a.Step? {
      StepTight(lib, s, a.r, a.t, id, keys);
    } else if a.DeliverDelete? {
      DeliverTight(lib, s, a.r, a.offset, id, keys);
    } else if !a.Restart? && !a.Tick? {
      BeginIdle(lib, s, a, id);
      IdleKeeps(lib, s, Next(lib, s, a), a.r, id, keys);
    }
  }

  lemma StillAnnounced(lib: Libraries, v: State, w: State, id: AvatarId, keys: seq<string>)
    requires Evolves(v, w) && Announces(lib, v, id, keys) && id in v.rows && !v.rows[id].Live()
    ensures Announces(lib, w, id, keys) && id in w.rows && !w.rows[id].Live()
  {
    hide DeleteEventId;
    var k :|
      k in v.outbox && v.outbox[k].kind == OUTBOX_DELETE
        && v.outbox[k].payload == lib.writeDelete(DeleteEventOf(id, keys));
    assert k in w.outbox && w.outbox[k].payload == v.outbox[k].payload;
  }

  lemma {:induction false} ExecutionTight(lib: Libraries, s: State, actions: seq<Action>, id: AvatarId,
      keys: seq<string>)
    requires Lawful(lib) && Inv(lib, s) && Legal(lib, s, actions) && Tight(lib, s, id, keys)
    requires Announces(lib, s, id, keys)
    requires id in s.rows && !s.rows[id].Live()
    ensures Tight(lib, After(lib, s, actions), id, keys)
    decreases |actions|
  {
    hide Inv, Lawful, Next, Enabled, Tight, Announces, Evolves;
    if actions != [] {
      var next := Next(lib, s, actions[0]);
      NextTight(lib, s, actions[0], id, keys);
      NextKeeps(lib, s, actions[0]);
      NextEvolves(lib, s, actions[0]);
      StillAnnounced(lib, s, next, id, keys);
      ExecutionTight(lib, next, actions[1..], id, keys);
    }
  }

  // ---------------------------------------------------------------- necessary: otherwise something can be left

  lemma OneRemoval(lib: Libraries, s: State, r: RunId, id: string, keys: seq<string>)
    requires r in s.runs && s.runs[r] == Clean(id, keys) && keys != [] && TrimSpace(keys[0]) == keys[0] != ""
    ensures var a := Step(r, Good(FreshOf(s.outbox)));
      && Enabled(lib, s, a)
      && Next(lib, s, a) == GoClean(s.(bucket := RemoveKey(s.bucket, keys[0])), r, id, keys[1..])
  {
    hide TrimSpace, GoClean;
  }

  /** A cleaner that meets no failure marks its avatar as cleaned and removes its keys, but nothing else. */
  lemma {:induction false} CleanerFinishes(lib: Libraries, s: State, r: RunId, id: string, keys: seq<string>)
    returns (actions: seq<Action>)
    requires r in s.runs && s.runs[r] == Clean(id, keys) && keys != []
    requires forall k <- keys :: TrimSpace(k) == k != ""
    ensures Legal(lib, s, actions)
    ensures var w := After(lib, s, actions);
      && w.cleaned == s.cleaned + {id} && w.runs == s.runs - {r} && w.outbox == s.outbox && w.rows == s.rows
      && w.deletes == s.deletes && forall k <- s.bucket.Keys :: k !in keys ==> k in w.bucket
    decreases |keys|
  {
    hide TrimSpace, Next, Enabled;
    var a := Step(r, Good(FreshOf(s.outbox)));
    OneRemoval(lib, s, r, id, keys);
    var next := Next(lib, s, a);
    if keys[1..] == [] {
      actions := [a];
      OneStep(lib, s, a);
    } else {
      var rest := CleanerFinishes(lib, next, r, id, keys[1..]);
      ThenStep(lib, s, a, rest);
      actions := [a] + rest;
    }
  }

  lemma CleanKeysAreTrimmed(lib: Libraries, s: State, id: string, keys: seq<string>)
    requires Inv(lib, s) && CleanOk(World(s), id, keys)
    ensures forall k <- keys :: TrimSpace(k) == k != ""
  {
    hide Inv, RowOk, ObjectKeys, TrimSpace, Covers;
    RowHolds(lib, s, id);
    forall k <- keys
      ensures TrimSpace(k) == k != ""
    {
      ObjectKeyIsTrimmed(id, s.rows[id], k);
    }
  }

  /** The message is handled without any failure. */
  lemma MessageHandled(lib: Libraries, s: State, i: nat) returns (actions: seq<Action>)
    requires Lawful(lib) && Inv(lib, s) && i < |s.deletes| && HandleDelete(lib, s.deletes[i]).Ok?
    ensures Legal(lib, s, actions)
    ensures var w := After(lib, s, actions); var ev := HandleDelete(lib, s.deletes[i]).value;
      && ev.avatarId in w.cleaned && w.runs == s.runs && w.outbox == s.outbox && w.rows == s.rows
      && w.deletes == s.deletes && forall k <- s.bucket.Keys :: k !in ev.keys ==> k in w.bucket
  {
    hide Inv, Lawful, HandleDelete, CleanOk, TrimSpace;
    var r := FreshRun(s.runs);
    DeleteMessageFacts(lib, s, i);
    var ev := HandleDelete(lib, s.deletes[i]).value;
    CleanKeysAreTrimmed(lib, s, ev.avatarId, ev.keys);
    var a := DeliverDelete(r, i);
    var next := Next(lib, s, a);
    hide Legal, After, GoClean;
    var rest := CleanerFinishes(lib, next, r, ev.avatarId, ev.keys);
    ThenStep(lib, s, a, rest);
    actions := [a] + rest;
  }

  lemma LateDownload(lib: Libraries, s: State, r: RunId, id: AvatarId)
    requires r in s.runs && s.runs[r].ProcGet? && CanPut(lib, s.bucket, s.runs[r], id)
    ensures var a := Step(r, Good(FreshOf(s.outbox)));
      && Enabled(lib, s, a) && var w := Next(lib, s, a);
      && r in w.runs && w.runs[r].ProcThumb? && CanPut(lib, w.bucket, w.runs[r], id)
      && w.deletes == s.deletes
  {
    hide Thumbnail, Inspect;
  }

  lemma LatePut(lib: Libraries, s: State, r: RunId, id: AvatarId)
    requires Lawful(lib) && Inv(lib, s) && r in s.runs && s.runs[r].ProcThumb? && CanPut(lib, s.bucket, s.runs[r], id)
    ensures var a := Step(r, Good(FreshOf(s.outbox)));
      Enabled(lib, s, a) && !NothingLeft(Next(lib, s, a), id) && Next(lib, s, a).cleaned == s.cleaned
  {
    hide Inv, Lawful, Owner, Thumbnail, ThumbnailObjectKey, ExtForMime;
    var run := s.runs[r];
    ThumbFacts(lib, s, r);
    MimeHolds(lib, s, run.job.id);
    ThumbnailMime(lib, run.data, run.side, run.info.mime);
    ThumbLocated(run.job.id, run.side, run.info.mime);
    var key := ThumbKey(run.job.id, run.side, run.info.mime);
    assert key in Next(lib, s, Step(r, Good(FreshOf(s.outbox)))).bucket;
  }

  /** A thumbnail put after the message was handled is never removed. */
  lemma PutAfterwards(lib: Libraries, s: State, r: RunId, id: AvatarId, i: nat) returns (actions: seq<Action>)
    requires Lawful(lib) && Inv(lib, s) && r in s.runs && s.runs[r].ProcThumb? && CanPut(lib, s.bucket, s.runs[r], id)
    requires i < |s.deletes| && HandleDelete(lib, s.deletes[i]).Ok?
    requires HandleDelete(lib, s.deletes[i]).value.avatarId == id
    ensures Legal(lib, s, actions) && id in After(lib, s, actions).cleaned && !NothingLeft(After(lib, s, actions), id)
  {
    hide Inv, Lawful, HandleDelete, Legal, After, Next, Enabled, NothingLeft;
    var handled := MessageHandled(lib, s, i);
    var w := After(lib, s, handled);
    ExecutionKeeps(lib, s, handled);
    LatePut(lib, w, r, id);
    var a := Step(r, Good(FreshOf(w.outbox)));
    OneStep(lib, w, a);
    AfterConcat(lib, s, handled, [a]);
    actions := handled + [a];
  }

  lemma SomethingLeft(lib: Libraries, s: State, id: AvatarId, i: nat) returns (actions: seq<Action>)
    requires Lawful(lib) && Inv(lib, s) && i < |s.deletes|
    requires HandleDelete(lib, s.deletes[i]).Ok? && HandleDelete(lib, s.deletes[i]).value.avatarId == id
    requires !Tight(lib, s, id, HandleDelete(lib, s.deletes[i]).value.keys)
    ensures Legal(lib, s, actions) && id in After(lib, s, actions).cleaned && !NothingLeft(After(lib, s, actions), id)
  {
    hide Inv, Lawful, HandleDelete, Legal, After, Next, Enabled, Owner, CleanOk, CanPut;
    var keys := HandleDelete(lib, s.deletes[i]).value.keys;
    if !NoPutter(lib, s, id) {
      var r :| r in s.runs && CanPut(lib, s.bucket, s.runs[r], id);
      if s.runs[r].ProcGet? {
        LateDownload(lib, s, r, id);
        var a := Step(r, Good(FreshOf(s.outbox)));
        NextKeeps(lib, s, a);
        var rest := PutAfterwards(lib, Next(lib, s, a), r, id, i);
        ThenStep(lib, s, a, rest);
        actions := [a] + rest;
      } else {
        PutterIsThere(lib, s.bucket, s.runs[r], id);
        actions := PutAfterwards(lib, s, r, id, i);
      }
    } else if !Within(s.bucket, id, keys) {
      actions := MessageHandled(lib, s, i);
    } else if !CleanersCover(s, id) {
      var r :| r in s.runs && s.runs[r].Clean? && s.runs[r].avatar == id && !Within(s.bucket, id, s.runs[r].keys);
      CleanFacts(lib, s, r);
      CleanKeysAreTrimmed(lib, Drop(s, r), id, s.runs[r].keys);
      if s.runs[r].keys == [] {
        actions := LastRemoval(lib, s, r, id);
      } else {
        actions := CleanerFinishes(lib, s, r, id, s.runs[r].keys);
      }
    } else {
      actions := [];
      NoActions(lib, s);
    }
  }

  lemma PutterIsThere(lib: Libraries, bucket: map<string, Object>, run: Run, id: AvatarId)
    requires CanPut(lib, bucket, run, id)
    ensures run.ProcGet? || run.ProcThumb?
  {
  }

  lemma NoActions(lib: Libraries, s: State)
    ensures Legal(lib, s, []) && After(lib, s, []) == s
  {
  }

  lemma LastRemoval(lib: Libraries, s: State, r: RunId, id: string) returns (actions: seq<Action>)
    requires r in s.runs && s.runs[r] == Clean(id, [])
    ensures Legal(lib, s, actions)
    ensures After(lib, s, actions).cleaned == s.cleaned + {id} && After(lib, s, actions).bucket == s.bucket
  {
    actions := [Step(r, Good(FreshOf(s.outbox)))];
    OneStep(lib, s, actions[0]);
  }

  lemma CleanedLeavesNothing(lib: Libraries, s: State, id: AvatarId, keys: seq<string>)
    requires Tight(lib, s, id, keys) && id in s.cleaned
    ensures NothingLeft(s, id)
  {
    hide Owner, CanPut;
  }

  /** The message of an announced deletion gets into the topic, and nothing else that matters here changes. */
  lemma CanSend(lib: Libraries, s: State, id: AvatarId, keys: seq<string>) returns (actions: seq<Action>, i: nat)
    requires Lawful(lib) && Reachable(lib, s) && Announces(lib, s, id, keys)
    ensures Legal(lib, s, actions)
    ensures var w := After(lib, s, actions);
      && i < |w.deletes| && HandleDelete(lib, w.deletes[i]) == Ok(DeleteEventOf(id, keys))
      && w.runs == s.runs && w.bucket == s.bucket && w.cleaned == s.cleaned
  {
    hide Inv, Lawful, Reachable, Legal, After, HandleDelete;
    var k :|
      k in s.outbox && s.outbox[k].kind == OUTBOX_DELETE
        && s.outbox[k].payload == lib.writeDelete(DeleteEventOf(id, keys));
    actions := CanPublishAll(lib, s);
    MoreIsReachable(lib, s, actions);
    var w := After(lib, s, actions);
    assert k in w.outbox && w.outbox[k].published;
    PublishedAtLeastOnce(lib, w, k);
    i :| 0 <= i < |w.deletes| && CarriesDelete(lib, w.outbox[k].payload, w.deletes[i]);
    PayloadReads(lib, DeleteEventOf(id, keys));
  }

  lemma PayloadReads(lib: Libraries, ev: DeleteEvent)
    requires Lawful(lib)
    ensures lib.readDelete(lib.writeDelete(ev)) == Some(ev)
  {
  }

  lemma SameTight(lib: Libraries, s: State, w: State, id: AvatarId, keys: seq<string>)
    requires w.runs == s.runs && w.bucket == s.bucket && w.cleaned == s.cleaned
    ensures Tight(lib, w, id, keys) <==> Tight(lib, s, id, keys)
  {
    hide CanPut, Owner;
  }

  /** From the commit of a deletion on, "whenever the deletion has been handled, nothing of the avatar is left" holds of
      all futures if and only if no run can still put a thumbnail and everything the avatar has is announced, also to
      every cleaner under way. */
  lemma DeletionIsCompleteIff(lib: Libraries, s: State, id: AvatarId, keys: seq<string>)
    requires Lawful(lib) && Reachable(lib, s) && Announces(lib, s, id, keys)
    ensures (forall actions: seq<Action> ::
               Legal(lib, s, actions) && id in After(lib, s, actions).cleaned ==>
                 NothingLeft(After(lib, s, actions), id))
            <==> Tight(lib, s, id, keys)
  {
    hide Inv, Lawful, Reachable, HandleDelete, Legal, After, Next, Enabled, NothingLeft, Tight, Announces;
    ReachableHasInv(lib, s);
    if Tight(lib, s, id, keys) {
      AnnouncedIsDeleted(lib, s, id, keys);
      forall actions: seq<Action> | Legal(lib, s, actions) && id in After(lib, s, actions).cleaned
        ensures NothingLeft(After(lib, s, actions), id)
      {
        ExecutionTight(lib, s, actions, id, keys);
        CleanedLeavesNothing(lib, After(lib, s, actions), id, keys);
      }
    } else {
      var sent, i := CanSend(lib, s, id, keys);
      var w := After(lib, s, sent);
      ExecutionKeeps(lib, s, sent);
      SameTight(lib, s, w, id, keys);
      var rest := SomethingLeft(lib, w, id, i);
      AfterConcat(lib, s, sent, rest);
      assert Legal(lib, s, sent + rest);
    }
  }

  lemma AnnouncedIsDeleted(lib: Libraries, s: State, id: AvatarId, keys: seq<string>)
    requires Lawful(lib) && Inv(lib, s) && Announces(lib, s, id, keys)
    ensures id in s.rows && !s.rows[id].Live()
  {
    hide Inv, DeleteEventId, IdOfEvent, KeysOk, Lawful;
    var k :|
      k in s.outbox && s.outbox[k].kind == OUTBOX_DELETE
        && s.outbox[k].payload == lib.writeDelete(DeleteEventOf(id, keys));
    PayloadReads(lib, DeleteEventOf(id, keys));
    AnnouncedIsEntry(lib, s, k, DeleteEventOf(id, keys));
  }

  /** For a caller of Delete, right after its transaction has committed: nothing of the avatar will be left once its
      message has been handled, whatever happens, if and only if at the commit no run could still put a thumbnail and
      every object the avatar had was among the announced keys. */
  lemma CommittedDeletionIsCompleteIff(lib: Libraries, s: State, r: RunId, t: Turn)
    requires Lawful(lib) && Reachable(lib, s) && r in s.runs && s.runs[r].DeleteTx? && Enabled(lib, s, Step(r, t))
    requires t.ok && s.runs[r].id in s.rows && s.rows[s.runs[r].id].Live()
    ensures var id := s.runs[r].id; var w := Next(lib, s, Step(r, t));
      (forall actions: seq<Action> ::
         Legal(lib, w, actions) && id in After(lib, w, actions).cleaned ==> NothingLeft(After(lib, w, actions), id))
      <==> NoPutter(lib, s, id) && Within(s.bucket, id, s.runs[r].keys)
  {
    hide Inv, Lawful, Reachable, Legal, After, Next, Enabled, NothingLeft, Tight, NoPutter, Within, Announces;
    var id := s.runs[r].id;
    var w := Next(lib, s, Step(r, t));
    StepIsReachable(lib, s, Step(r, t));
    DeleteCommitsBoth(lib, s, r, t);
    CommitAnnounces(lib, w, t.serial, id, s.runs[r].keys);
    DeletionIsCompleteIff(lib, w, id, s.runs[r].keys);
    ReachableHasInv(lib, s);
    NothingToClean(lib, s, id);
    CommitMoves(lib, s, r, t);
    TightAtCommit(lib, s, w, r, id, s.runs[r].keys);
  }

  lemma CommitAnnounces(lib: Libraries, w: State, k: nat, id: AvatarId, keys: seq<string>)
    requires k in w.outbox && w.outbox[k] == DeleteEntryOf(lib, id, keys)
    ensures Announces(lib, w, id, keys)
  {
    hide DeleteEventId;
  }

  lemma CommitMoves(lib: Libraries, s: State, r: RunId, t: Turn)
    requires r in s.runs && s.runs[r].DeleteTx? && Enabled(lib, s, Step(r, t))
    ensures var w := Next(lib, s, Step(r, t));
      && OneMoved(s.runs, w.runs, r) && w.bucket == s.bucket && w.cleaned == s.cleaned
      && (r in w.runs ==> w.runs[r].DeleteGauge?)
  {
    hide InsertOutbox, Seals, TraceOnly, DeleteEventId;
  }

  /** A live avatar has no cleaners and is not cleaned. */
  lemma NothingToClean(lib: Libraries, s: State, id: AvatarId)
    requires Inv(lib, s) && id in s.rows && s.rows[id].Live()
    ensures id !in s.cleaned && forall q <- s.runs.Keys :: !(s.runs[q].Clean? && s.runs[q].avatar == id)
  {
    hide Inv, Covers;
    if id in s.cleaned {
      CleanedFacts(lib, s, id);
      assert false;
    }
    forall q <- s.runs.Keys
      ensures !(s.runs[q].Clean? && s.runs[q].avatar == id)
    {
      if s.runs[q].Clean? && s.runs[q].avatar == id {
        CleanFacts(lib, s, q);
        assert false;
      }
    }
  }

  lemma TightAtCommit(lib: Libraries, s: State, w: State, r: RunId, id: AvatarId, keys: seq<string>)
    requires r in s.runs && s.runs[r].DeleteTx?
    requires OneMoved(s.runs, w.runs, r) && w.bucket == s.bucket && w.cleaned == s.cleaned
    requires r in w.runs ==> w.runs[r].DeleteGauge?
    requires id !in s.cleaned && forall q <- s.runs.Keys :: !(s.runs[q].Clean? && s.runs[q].avatar == id)
    ensures Tight(lib, w, id, keys) <==> NoPutter(lib, s, id) && Within(s.bucket, id, keys)
  {
    hide Owner, Inspect, Thumbnail;
    assert !CanPut(lib, s.bucket, s.runs[r], id);
    forall q <- w.runs.Keys
      ensures !w.runs[q].Clean? || w.runs[q].avatar != id
      ensures CanPut(lib, w.bucket, w.runs[q], id) ==> q in s.runs && CanPut(lib, s.bucket, s.runs[q], id)
    {
      assert q != r ==> q in s.runs && s.runs[q] == w.runs[q];
    }
    forall q <- s.runs.Keys | CanPut(lib, s.bucket, s.runs[q], id)
      ensures q in w.runs && CanPut(lib, w.bucket, w.runs[q], id)
    {
      assert q != r;
    }
    hide CanPut;
  }
}
