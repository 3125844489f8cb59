/** Each effect on tables, bucket or topics keeps the invariant, the acting run aside. */
module Effects {
  import opened Text
  import opened Domain
  import opened Images
  import opened Headers
  import opened Protocol
  import opened Invariant

  // ---------------------------------------------------------------- stability of a run under the others

  lemma JobStable(a: map<AvatarId, Row>, b: map<AvatarId, Row>, job: Job)
    requires JobOk(a, job) && RowsKeep(a, b)
    ensures JobOk(b, job)
  {
    hide UploadEventId;
  }

  lemma UploadingStable(lib: Libraries, v: State, w: State, own: string, run: Run)
    requires RunOk(lib, v, run) && Keeps(v, w, own)
    requires run.Uploading() && run.id != own && run.id !in w.rows
    ensures RunOk(lib, w, run)
  {
    hide Locate, Inspect;
    if run.UploadCreate? {
      assert Owner(run.row.key) == run.id && run.id !in v.rows;
      assert run.row.key in w.bucket;
    }
  }

  lemma ThumbLocated(id: string, size: string, mime: string)
    requires |id| == 36 && mime in MIMES
    ensures Locate(ThumbKey(id, size, mime)) == Some(Thumb(id, size, ExtForMime(mime)))
    ensures Owner(ThumbKey(id, size, mime)) == id
  {
    KeyReadsBack(Thumb(id, size, ExtForMime(mime)));
  }

  lemma PresentStable(v: State, w: State, own: string, id: AvatarId, size: string, mime: string)
    requires ObjectsStay(v, w, own) && id != own && mime in MIMES
    requires id in v.rows && v.rows[id].Live()
    requires ThumbPresent(v.bucket, id, size, mime)
    ensures ThumbPresent(w.bucket, id, size, mime)
  {
    ThumbLocated(id, size, mime);
  }

  lemma CleanStable(lib: Libraries, v: State, w: State, own: string, run: Run)
    requires RunOk(lib, v, run) && Keeps(v, w, own) && RowsOk(v.rows, v.used) && own !in v.rows
    requires run.Clean?
    ensures RunOk(lib, w, run)
  {
    hide Locate;
    var id := run.avatar;
    var row := v.rows[id];
    assert RowOk(id, row) && w.rows[id] == row;
    ThumbLocated(id, SIZE_100, row.mime);
    ThumbLocated(id, SIZE_300, row.mime);
    assert id in w.sealed ==> id in v.sealed;
    forall k <- ObjectKeys(id, row) | k in w.bucket && (id in v.sealed || k == row.key)
      ensures k in v.bucket
    {
      assert Owner(k) == id;
    }
  }

  lemma SentStable(lib: Libraries, kind: string, payload: Json, u: seq<Message>, u': seq<Message>, d: seq<Message>,
      d': seq<Message>)
    requires Sent(lib, kind, payload, u, d) && u <= u' && d <= d'
    ensures Sent(lib, kind, payload, u', d')
  {
    hide HandleUpload, HandleDelete;
    if kind == OUTBOX_UPLOAD {
      var i :| 0 <= i < |u| && Carries(lib, payload, u[i]);
      assert u'[i] == u[i];
    } else {
      var i :| 0 <= i < |d| && CarriesDelete(lib, payload, d[i]);
      assert d'[i] == d[i];
    }
  }

  lemma ItemsStable(a: map<nat, OutboxRow>, b: map<nat, OutboxRow>, items: seq<OutboxItem>)
    requires ItemsOk(a, items) && OutboxKeeps(a, b)
    ensures ItemsOk(b, items)
  {
  }

  lemma FlushStable(lib: Libraries, v: State, w: State, own: string, run: Run)
    requires RunOk(lib, v, run) && Keeps(v, w, own)
    requires run.FlushPublish? || run.FlushMark?
    ensures RunOk(lib, w, run)
  {
    ItemsStable(v.outbox, w.outbox, run.items);
    if run.FlushMark? {
      SentStable(lib, run.items[0].kind, run.items[0].payload, v.uploads, w.uploads, v.deletes, w.deletes);
    }
  }

  lemma KeysStable(id: AvatarId, a: Row, b: Row, keys: seq<string>)
    requires RowKeeps(a, b) && KeysOk(id, a, keys)
    ensures KeysOk(id, b, keys)
  {
    hide ThumbnailObjectKey;
  }

  lemma ProcStable(lib: Libraries, v: State, w: State, own: string, run: Run)
    requires RunOk(lib, v, run) && Keeps(v, w, own) && RowsOk(v.rows, v.used) && own !in v.rows
    requires run.ProcRead? || run.ProcClaim? || run.Holding()
    requires run.MayPut() ==> run.job.id !in w.sealed
    ensures RunOk(lib, w, run)
  {
    hide Locate, ThumbnailObjectKey, Inspect, UploadEventId, ExtForMime;
    var job := run.job;
    JobStable(v.rows, w.rows, job);
    var row := v.rows[job.id];
    assert RowOk(job.id, row) && RowKeeps(row, w.rows[job.id]);
    if w.rows[job.id].Live() && ThumbPresent(v.bucket, job.id, SIZE_100, row.mime) {
      PresentStable(v, w, own, job.id, SIZE_100, row.mime);
    }
    if w.rows[job.id].Live() && ThumbPresent(v.bucket, job.id, SIZE_300, row.mime) {
      PresentStable(v, w, own, job.id, SIZE_300, row.mime);
    }
  }

  /** What a run knows survives any step of another run. */
  lemma RunStable(lib: Libraries, v: State, w: State, own: string, run: Run)
    requires RunOk(lib, v, run) && Keeps(v, w, own) && RowsOk(v.rows, v.used) && own !in v.rows
    requires run.Uploading() ==> run.id != own && run.id !in w.rows
    requires run.MayPut() ==> run.job.id !in w.sealed
    ensures RunOk(lib, w, run)
  {
    if run.Uploading() {
      UploadingStable(lib, v, w, own, run);
    } else if run.Clean? {
      CleanStable(lib, v, w, own, run);
    } else if run.FlushPublish? || run.FlushMark? {
      FlushStable(lib, v, w, own, run);
    } else if run.ProcRead? || run.ProcClaim? || run.Holding() {
      ProcStable(lib, v, w, own, run);
    } else if run.DeleteTx? {
      KeysStable(run.id, v.rows[run.id], w.rows[run.id], run.keys);
    }
  }

  lemma RunsStable(lib: Libraries, v: State, w: State, own: string, runs: map<RunId, Run>)
    requires RunsOk(lib, v, runs) && Keeps(v, w, own) && RowsOk(v.rows, v.used) && own !in v.rows
    requires NoUploader(runs, own)
    requires forall r <- runs.Keys :: runs[r].Uploading() ==> runs[r].id !in w.rows
    requires forall r <- runs.Keys :: runs[r].MayPut() ==> runs[r].job.id !in w.sealed
    ensures RunsOk(lib, w, runs)
  {
    hide RunOk, Keeps, RowsOk;
    forall r <- runs.Keys
      ensures RunOk(lib, w, runs[r])
    {
      RunStable(lib, v, w, own, runs[r]);
    }
  }

  // ---------------------------------------------------------------- reading objects

  lemma OwnerOfOriginal(id: AvatarId, row: Row)
    requires RowOk(id, row)
    ensures Owner(row.key) == id && IsOriginal(row.key)
  {
    hide Locate;
  }

  lemma OwnerOfObject(id: AvatarId, row: Row, key: string)
    requires RowOk(id, row) && key in ObjectKeys(id, row)
    ensures Owner(key) == id && (IsOriginal(key) ==> key == row.key)
  {
    hide Locate, ThumbnailObjectKey;
    ThumbLocated(id, SIZE_100, row.mime);
    ThumbLocated(id, SIZE_300, row.mime);
  }

  /** An object in the bucket is one of its avatar's, if that avatar has a row. */
  lemma StoredObject(lib: Libraries, rows: map<AvatarId, Row>, used: set<AvatarId>, bucket: map<string, Object>,
      key: string)
    requires BucketOk(lib, rows, used, bucket) && key in bucket && Owner(key) in rows
    ensures key in ObjectKeys(Owner(key), rows[Owner(key)])
    ensures IsOriginal(key) ==> key == rows[Owner(key)].key
  {
    hide Locate, Inspect;
    assert ObjectOk(lib, rows, used, key, bucket[key]);
  }

  // ---------------------------------------------------------------- puts

  lemma PutKeepsWorld(v: State, w: State, key: string, obj: Object, own: string)
    requires w == v.(bucket := v.bucket[key := obj])
    requires Owner(key) !in v.sealed && (if IsOriginal(key) then Owner(key) == own else Owner(key) in v.rows)
    ensures Keeps(v, w, own)
  {
    hide Locate;
  }

  lemma PutKeepsLive(lib: Libraries, s: State, key: string, obj: Object)
    requires LiveOk(s.rows, s.bucket)
    ensures LiveOk(s.rows, s.bucket[key := obj])
  {
    hide ThumbnailObjectKey;
  }

  /** An object of an avatar outside `sealed`, not an original of a row, changes no deletion guarantee. */
  lemma PutKeepsCovers(s: State, id: AvatarId, key: string, obj: Object, keys: seq<string>)
    requires RowsOk(s.rows, s.used) && id in s.rows && id in s.sealed && Owner(key) !in s.sealed
    requires Covers(s.bucket, ObjectKeys(id, s.rows[id]), keys)
    ensures Covers(s.bucket[key := obj], ObjectKeys(id, s.rows[id]), keys)
  {
    hide Locate, ThumbnailObjectKey, RowOk, ObjectKeys;
    forall k <- ObjectKeys(id, s.rows[id])
      ensures k != key
    {
      OwnerOfObject(id, s.rows[id], k);
    }
  }

  lemma PutKeepsSealed(lib: Libraries, s: State, key: string, obj: Object)
    requires RowsOk(s.rows, s.used) && SealedOk(lib, s.rows, s.outbox, s.bucket, s.sealed) && Owner(key) !in s.sealed
    ensures SealedOk(lib, s.rows, s.outbox, s.bucket[key := obj], s.sealed)
  {
    hide Locate, RowOk, ObjectKeys, Covers, RowsOk;
    forall k <- s.outbox.Keys |
        var id := IdOfEvent(s.outbox[k].eventId);
        s.outbox[k].kind == OUTBOX_DELETE && id in s.sealed && id in s.rows
      ensures
        var id := IdOfEvent(s.outbox[k].eventId);
        Covers(s.bucket[key := obj], ObjectKeys(id, s.rows[id]), lib.readDelete(s.outbox[k].payload).value.keys)
    {
      var id := IdOfEvent(s.outbox[k].eventId);
      PutKeepsCovers(s, id, key, obj, lib.readDelete(s.outbox[k].payload).value.keys);
    }
  }

  lemma PutKeepsCleaned(s: State, key: string, obj: Object)
    requires RowsOk(s.rows, s.used) && CleanedOk(s.rows, s.bucket, s.sealed, s.cleaned)
    requires Owner(key) !in s.sealed && (Owner(key) in s.rows ==> !IsOriginal(key))
    ensures CleanedOk(s.rows, s.bucket[key := obj], s.sealed, s.cleaned)
  {
    hide Locate, RowOk, ObjectKeys, Covers;
    forall id: string <- s.cleaned
      ensures s.rows[id].key != key
      ensures id in s.sealed ==> Covers(s.bucket[key := obj], ObjectKeys(id, s.rows[id]), [])
    {
      assert RowOk(id, s.rows[id]);
      OwnerOfOriginal(id, s.rows[id]);
      if id in s.sealed {
        PutKeepsCovers(s, id, key, obj, []);
      }
    }
  }

  lemma PutKeepsStore(lib: Libraries, s: State, key: string, obj: Object)
    requires TablesOk(lib, s) && StoreOk(lib, s)
    requires ObjectOk(lib, s.rows, s.used, key, obj)
    requires Owner(key) !in s.sealed && (Owner(key) in s.rows ==> !IsOriginal(key))
    ensures StoreOk(lib, s.(bucket := s.bucket[key := obj]))
  {
    hide Locate, ObjectOk, RowsOk, LiveOk, SealedOk, CleanedOk;
    PutKeepsLive(lib, s, key, obj);
    PutKeepsSealed(lib, s, key, obj);
    PutKeepsCleaned(s, key, obj);
  }

  lemma SealedHaveRows(lib: Libraries, s: State, id: string)
    requires Inv(lib, s) && id in s.sealed
    ensures id in s.rows && !s.rows[id].Live()
  {
  }

  lemma RunFacts(lib: Libraries, s: State)
    requires Inv(lib, s)
    ensures forall r <- s.runs.Keys :: s.runs[r].Uploading() ==> s.runs[r].id in s.used && s.runs[r].id !in s.rows
    ensures forall r <- s.runs.Keys :: s.runs[r].MayPut() ==> s.runs[r].job.id !in s.sealed
    ensures NoUploader(s.runs, "")
  {
    hide TablesOk, StoreOk, TopicsOk, Locate, Inspect, JobOk;
    forall r <- s.runs.Keys
      ensures s.runs[r].Uploading() ==> s.runs[r].id in s.used && s.runs[r].id !in s.rows
      ensures s.runs[r].MayPut() ==> s.runs[r].job.id !in s.sealed
    {
      assert RunOk(lib, World(s), s.runs[r]);
    }
  }

  lemma PutObject(lib: Libraries, s: State, key: string, obj: Object, own: string)
    requires Inv(lib, s) && ObjectOk(lib, s.rows, s.used, key, obj)
    requires Owner(key) !in s.sealed && (if IsOriginal(key) then Owner(key) == own else Owner(key) in s.rows)
    requires own !in s.rows && NoUploader(s.runs, own)
    ensures Inv(lib, s.(bucket := s.bucket[key := obj]))
  {
    hide ObjectOk, RunsOk, StoreOk, Keeps, Owner, IsOriginal, OutboxOk, EventsUnique, EventsComplete, NoUploader,
      UploadsOk, DeletesOk, PublishedOk;
    var w := s.(bucket := s.bucket[key := obj]);
    RunFacts(lib, s);
    PutKeepsWorld(World(s), World(w), key, obj, own);
    PutKeepsStore(lib, s, key, obj);
    RunsStable(lib, World(s), World(w), own, s.runs);
  }

  /** Storing the original of an avatar that has no row yet. */
  lemma PutOriginal(lib: Libraries, s: State, id: AvatarId, row: Row, data: Bytes)
    requires Inv(lib, s) && UploadingOk(World(s), id, row.key) && NoUploader(s.runs, id)
    ensures Inv(lib, s.(bucket := s.bucket[row.key := Object(data, row.mime)]))
  {
    hide TablesOk, TopicsOk, RunsOk, LiveOk, BucketOk, CleanedOk, NoUploader, UploadsApart;
    assert id !in s.sealed;
    PutObject(lib, s, row.key, Object(data, row.mime), id);
  }

  /** Storing a thumbnail of an avatar that is not sealed. */
  lemma PutThumb(lib: Libraries, s: State, id: AvatarId, size: string, obj: Object)
    requires Inv(lib, s) && id in s.rows && id !in s.sealed && obj.mime == s.rows[id].mime
    requires size == SIZE_100 || size == SIZE_300
    ensures Inv(lib, s.(bucket := s.bucket[ThumbKey(id, size, s.rows[id].mime) := obj]))
  {
    hide Inspect, TopicsOk, StoreOk, RunsOk, UploadsApart, OutboxOk, EventsUnique, EventsComplete, Locate, ThumbKey;
    RunFacts(lib, s);
    assert RowOk(id, s.rows[id]);
    ThumbLocated(id, size, s.rows[id].mime);
    PutObject(lib, s, ThumbKey(id, size, s.rows[id].mime), obj, "");
  }

  // ---------------------------------------------------------------- removals

  lemma RemovalKeepsWorld(v: State, w: State, key: string, own: string)
    requires w == v.(bucket := RemoveKey(v.bucket, key))
    requires Owner(key) == own || (Owner(key) in v.rows && !v.rows[Owner(key)].Live())
    ensures Keeps(v, w, own)
  {
    hide Locate;
  }

  lemma RemovalKeepsLive(s: State, key: string)
    requires RowsOk(s.rows, s.used) && LiveOk(s.rows, s.bucket)
    requires Owner(key) in s.rows ==> !s.rows[Owner(key)].Live()
    ensures LiveOk(s.rows, RemoveKey(s.bucket, key))
  {
    hide RowOk, Locate, ThumbnailObjectKey, Owner;
    forall id <- s.rows.Keys | s.rows[id].Live()
      ensures key !in ObjectKeys(id, s.rows[id])
    {
      if key in ObjectKeys(id, s.rows[id]) {
        OwnerOfObject(id, s.rows[id], key);
      }
    }
  }

  lemma RemovalKeepsHistory(lib: Libraries, s: State, key: string)
    requires SealedOk(lib, s.rows, s.outbox, s.bucket, s.sealed) && CleanedOk(s.rows, s.bucket, s.sealed, s.cleaned)
    ensures SealedOk(lib, s.rows, s.outbox, RemoveKey(s.bucket, key), s.sealed)
    ensures CleanedOk(s.rows, RemoveKey(s.bucket, key), s.sealed, s.cleaned)
  {
    hide ObjectKeys;
  }

  /** Removing an object of a soft-deleted row, or of an upload that will never get a row. */
  lemma RemoveObject(lib: Libraries, s: State, key: string, own: string)
    requires Inv(lib, s)
    requires own !in s.rows && NoUploader(s.runs, own)
    requires Owner(key) == own || (Owner(key) in s.rows && !s.rows[Owner(key)].Live())
    ensures Inv(lib, s.(bucket := RemoveKey(s.bucket, key)))
  {
    hide RunsOk, Keeps, Owner, OutboxOk, EventsUnique, EventsComplete, NoUploader, UploadsOk, DeletesOk, PublishedOk,
      SealedOk, CleanedOk, LiveOk, ObjectOk, RowsOk;
    var w := s.(bucket := RemoveKey(s.bucket, key));
    RunFacts(lib, s);
    RemovalKeepsWorld(World(s), World(w), key, own);
    RemovalKeepsLive(s, key);
    RemovalKeepsHistory(lib, s, key);
    RunsStable(lib, World(s), World(w), own, s.runs);
  }

  /** The key handed to S3.Delete is a fixed point of trimming. */
  lemma StoredKeyIsTrimmed(key: string)
    requires Locate(key).Some?
    ensures TrimSpace(key) == key != ""
  {
    LocatedKeyIsBuilt(key);
    KeyIsTrimmed(Locate(key).value);
  }

  // ---------------------------------------------------------------- rows

  lemma EntriesStable(lib: Libraries, a: map<AvatarId, Row>, b: map<AvatarId, Row>, outbox: map<nat, OutboxRow>)
    requires OutboxOk(lib, a, outbox) && RowsKeep(a, b)
    ensures OutboxOk(lib, b, outbox)
  {
    hide UploadEventId, DeleteEventId, IdOfEvent;
    forall k <- outbox.Keys
      ensures UploadEntry(lib, b, IdOfEvent(outbox[k].eventId), outbox[k])
           || DeleteEntry(lib, b, IdOfEvent(outbox[k].eventId), outbox[k])
    {
      var id := IdOfEvent(outbox[k].eventId);
      assert id in a && RowKeeps(a[id], b[id]);
    }
  }

  lemma MessagesStable(lib: Libraries, s: State, b: map<AvatarId, Row>, outbox: map<nat, OutboxRow>)
    requires TopicsOk(lib, s) && RowsKeep(s.rows, b) && OutboxKeeps(s.outbox, outbox)
    ensures UploadsOk(lib, b, s.uploads) && DeletesOk(lib, b, outbox, s.deletes)
  {
    hide HandleUpload, HandleDelete, UploadEventId, DeleteEventId, PublishedOk;
    forall i | 0 <= i < |s.uploads|
      ensures UploadMessageOk(lib, b, s.uploads[i])
    {
      assert UploadMessageOk(lib, s.rows, s.uploads[i]);
    }
    forall i | 0 <= i < |s.deletes|
      ensures DeleteMessageOk(lib, b, outbox, s.deletes[i])
    {
      assert DeleteMessageOk(lib, s.rows, s.outbox, s.deletes[i]);
      var ev := HandleDelete(lib, s.deletes[i]).value;
      var k :| k in s.outbox && s.outbox[k].kind == OUTBOX_DELETE && s.outbox[k].payload == lib.writeDelete(ev);
      assert outbox[k].payload == lib.writeDelete(ev);
    }
  }

  lemma ObjectsStable(lib: Libraries, a: map<AvatarId, Row>, b: map<AvatarId, Row>, used: set<AvatarId>,
      bucket: map<string, Object>)
    requires BucketOk(lib, a, used, bucket) && RowsKeep(a, b) && b.Keys == a.Keys
    ensures BucketOk(lib, b, used, bucket)
  {
    hide Locate, ThumbnailObjectKey, Inspect, ExtForMime;
    forall key <- bucket.Keys
      ensures ObjectOk(lib, b, used, key, bucket[key])
    {
      assert ObjectOk(lib, a, used, key, bucket[key]);
    }
  }

  lemma HistoryStable(lib: Libraries, s: State, b: map<AvatarId, Row>)
    requires SealedOk(lib, s.rows, s.outbox, s.bucket, s.sealed) && CleanedOk(s.rows, s.bucket, s.sealed, s.cleaned)
    requires RowsKeep(s.rows, b) && b.Keys == s.rows.Keys
    ensures SealedOk(lib, b, s.outbox, s.bucket, s.sealed) && CleanedOk(b, s.bucket, s.sealed, s.cleaned)
  {
    hide ObjectKeys, Covers, IdOfEvent;
    assert forall id <- s.rows.Keys :: RowKeeps(s.rows[id], b[id]);
  }

  lemma RowsKeepWorld(v: State, w: State)
    requires w == v.(rows := w.rows) && RowsKeep(v.rows, w.rows) && (forall id <- v.sealed :: id in v.rows)
    ensures Keeps(v, w, "")
  {
    hide Locate;
  }

  /** A claim, a completion or a failure: one live row changes, stays live and stays in step with the bucket. */
  lemma UpdateRow(lib: Libraries, s: State, id: AvatarId, row: Row)
    requires Inv(lib, s) && id in s.rows && s.rows[id].Live() && row.Live()
    requires RowKeeps(s.rows[id], row) && RowOk(id, row) && row.updated <= s.now
    requires row.thumbs != map[] ==>
      ThumbPresent(s.bucket, id, SIZE_100, row.mime) && ThumbPresent(s.bucket, id, SIZE_300, row.mime)
    ensures Inv(lib, s.(rows := s.rows[id := row]))
  {
    hide RunsOk, OutboxOk, UploadsOk, DeletesOk, PublishedOk, SealedOk, CleanedOk, BucketOk, RowOk, Keeps, NoUploader,
      ThumbPresent, UploadEventId, DeleteEventId, HasEvent, EventsUnique;
    var b := s.rows[id := row];
    var w := s.(rows := b);
    assert RowsKeep(s.rows, b) && b.Keys == s.rows.Keys;
    RunFacts(lib, s);
    forall x <- s.sealed
      ensures x in s.rows
    {
      SealedHaveRows(lib, s, x);
    }
    EntriesStable(lib, s.rows, b, s.outbox);
    MessagesStable(lib, s, b, s.outbox);
    ObjectsStable(lib, s.rows, b, s.used, s.bucket);
    HistoryStable(lib, s, b);
    RowsKeepWorld(World(s), World(w));
    RunsStable(lib, World(s), World(w), "", s.runs);
  }

  // ---------------------------------------------------------------- transactions

  /** An event id is in the outbox only for a row, and a delete's only for a soft-deleted one: the ON CONFLICT branch of
      the insert is never taken. */
  lemma NoConflict(lib: Libraries, rows: map<AvatarId, Row>, outbox: map<nat, OutboxRow>, id: AvatarId)
    requires OutboxOk(lib, rows, outbox)
    ensures id !in rows ==> !HasEvent(outbox, UploadEventId(id))
    ensures id !in rows || rows[id].Live() ==> !HasEvent(outbox, DeleteEventId(id))
  {
    EventIdsReadBack(id, id);
    hide UploadEventId, DeleteEventId, IdOfEvent;
    forall k <- outbox.Keys
      ensures id !in rows ==> outbox[k].eventId != UploadEventId(id)
      ensures id !in rows || rows[id].Live() ==> outbox[k].eventId != DeleteEventId(id)
    {
    }
  }

  lemma EntriesOkAdded(lib: Libraries, rows: map<AvatarId, Row>, outbox: map<nat, OutboxRow>, id: string, serial: nat,
      entry: OutboxRow)
    requires OutboxOk(lib, rows, outbox) && IdOfEvent(entry.eventId) == id
    requires UploadEntry(lib, rows, id, entry) || DeleteEntry(lib, rows, id, entry)
    ensures OutboxOk(lib, rows, outbox[serial := entry])
  {
    hide UploadEntry, DeleteEntry, IdOfEvent;
  }

  function UploadEntryOf(lib: Libraries, id: AvatarId, row: Row): OutboxRow {
    OutboxRow(UploadEventId(id), OUTBOX_UPLOAD, lib.writeUpload(UploadEventOf(id, row)), false)
  }

  lemma InsertFresh(outbox: map<nat, OutboxRow>, serial: nat, entry: OutboxRow)
    requires !HasEvent(outbox, entry.eventId) && !entry.published
    ensures InsertOutbox(outbox, serial, entry.eventId, entry.kind, entry.payload) == outbox[serial := entry]
  {
    hide Conflict;
  }

  lemma RowsAdded(rows: map<AvatarId, Row>, used: set<AvatarId>, now: nat, id: AvatarId, row: Row)
    requires RowsOk(rows, used) && StampsOk(rows, now) && id in used && id !in rows && RowOk(id, row)
    requires row.updated <= now
    ensures RowsOk(rows[id := row], used) && StampsOk(rows[id := row], now) && RowsKeep(rows, rows[id := row])
  {
    hide RowOk;
  }

  lemma UploadEntryCompletes(lib: Libraries, s: State, id: AvatarId, row: Row, serial: nat)
    requires TablesOk(lib, s) && id !in s.rows && row.Live() && serial !in s.outbox
    requires RowsKeep(s.rows, s.rows[id := row])
    ensures var o := s.outbox[serial := UploadEntryOf(lib, id, row)];
      OutboxOk(lib, s.rows[id := row], o) && EventsUnique(o) && EventsComplete(s.rows[id := row], o)
  {
    hide UploadEventId, DeleteEventId, IdOfEvent, OutboxOk, EventsUnique, HasEvent, RowsKeep, RowsOk, StampsOk;
    var entry := UploadEntryOf(lib, id, row);
    var b := s.rows[id := row];
    NoConflict(lib, s.rows, s.outbox, id);
    EventIdsReadBack(id, id);
    EntriesStable(lib, s.rows, b, s.outbox);
    EntriesOkAdded(lib, b, s.outbox, id, serial, entry);
    EntryAdded(lib, s, b, id, serial, entry);
  }

  lemma UploadEntryAdded(lib: Libraries, s: State, id: AvatarId, row: Row, serial: nat)
    requires TablesOk(lib, s) && id in s.used && id !in s.rows && RowOk(id, row) && row.Live() && serial !in s.outbox
    requires row.updated <= s.now
    ensures var entry := UploadEntryOf(lib, id, row);
      && InsertOutbox(s.outbox, serial, entry.eventId, OUTBOX_UPLOAD, entry.payload) == s.outbox[serial := entry]
      && TablesOk(lib, s.(rows := s.rows[id := row], outbox := s.outbox[serial := entry]))
  {
    hide RowOk, UploadEventId, OutboxOk, EventsUnique, EventsComplete, HasEvent, InsertOutbox, RowsKeep, RowsOk,
      StampsOk;
    NoConflict(lib, s.rows, s.outbox, id);
    InsertFresh(s.outbox, serial, UploadEntryOf(lib, id, row));
    RowsAdded(s.rows, s.used, s.now, id, row);
    UploadEntryCompletes(lib, s, id, row, serial);
  }

  /** Appending an entry for `id` whose event id is new. */
  lemma EntryAdded(lib: Libraries, s: State, b: map<AvatarId, Row>, id: AvatarId, serial: nat, entry: OutboxRow)
    requires EventsUnique(s.outbox) && EventsComplete(s.rows, s.outbox) && serial !in s.outbox
    requires !HasEvent(s.outbox, entry.eventId) && id in b
    requires b.Keys == s.rows.Keys + {id} && forall x <- s.rows.Keys | x != id :: b[x] == s.rows[x]
    ensures EventsUnique(s.outbox[serial := entry])
    ensures forall x <- b.Keys | x != id ::
      HasEvent(s.outbox[serial := entry], UploadEventId(x))
        && (!b[x].Live() ==> HasEvent(s.outbox[serial := entry], DeleteEventId(x)))
    ensures HasEvent(s.outbox[serial := entry], entry.eventId)
    ensures forall e: string :: HasEvent(s.outbox, e) ==> HasEvent(s.outbox[serial := entry], e)
  {
    hide UploadEventId, DeleteEventId;
    var o := s.outbox[serial := entry];
    assert o[serial] == entry;
    forall e: string | HasEvent(s.outbox, e)
      ensures HasEvent(o, e)
    {
      var k :| k in s.outbox && s.outbox[k].eventId == e;
      assert o[k] == s.outbox[k];
    }
  }
}
