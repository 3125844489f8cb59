/** The two transactions, the publishing effects and the bookkeeping keep the invariant, the acting run aside. */
module Commits {
  import opened Text
  import opened Domain
  import opened Images
  import opened Headers
  import opened Protocol
  import opened Invariant
  import opened Effects

  // ---------------------------------------------------------------- the create transaction

  lemma InsertKeepsBucket(lib: Libraries, s: State, id: AvatarId, row: Row)
    requires BucketOk(lib, s.rows, s.used, s.bucket) && UploadingOk(World(s), id, row.key)
    requires row.key in s.bucket && Faithful(lib, s.bucket[row.key], row)
    ensures BucketOk(lib, s.rows[id := row], s.used, s.bucket)
  {
    hide Faithful, ThumbKey;
    forall key <- s.bucket.Keys
      ensures ObjectOk(lib, s.rows[id := row], s.used, key, s.bucket[key])
    {
      assert ObjectOk(lib, s.rows, s.used, key, s.bucket[key]);
      hide Locate;
    }
  }

  lemma InsertKeepsHistory(lib: Libraries, s: State, id: AvatarId, row: Row, serial: nat, entry: OutboxRow)
    requires SealedOk(lib, s.rows, s.outbox, s.bucket, s.sealed) && CleanedOk(s.rows, s.bucket, s.sealed, s.cleaned)
    requires entry.kind == OUTBOX_UPLOAD && serial !in s.outbox && id !in s.rows
    ensures SealedOk(lib, s.rows[id := row], s.outbox[serial := entry], s.bucket, s.sealed)
    ensures CleanedOk(s.rows[id := row], s.bucket, s.sealed, s.cleaned)
  {
    hide IdOfEvent, ObjectKeys, Covers;
    assert id !in s.sealed && id !in s.cleaned;
  }

  lemma InsertKeepsStore(lib: Libraries, s: State, id: AvatarId, row: Row, serial: nat, entry: OutboxRow)
    requires StoreOk(lib, s) && UploadingOk(World(s), id, row.key) && NewRowOk(id, row)
    requires row.key in s.bucket && Faithful(lib, s.bucket[row.key], row)
    requires entry.kind == OUTBOX_UPLOAD && serial !in s.outbox
    ensures StoreOk(lib, s.(rows := s.rows[id := row], outbox := s.outbox[serial := entry]))
  {
    hide Faithful, ThumbPresent, BucketOk, SealedOk, CleanedOk, Owner, IsOriginal, RowOk;
    InsertKeepsBucket(lib, s, id, row);
    InsertKeepsHistory(lib, s, id, row, serial, entry);
  }

  lemma InsertKeepsWorld(v: State, w: State, id: AvatarId, row: Row, serial: nat, entry: OutboxRow)
    requires w == v.(rows := v.rows[id := row], outbox := v.outbox[serial := entry])
    requires id !in v.rows && serial !in v.outbox && (forall x <- v.sealed :: x in v.rows)
    ensures Keeps(v, w, id)
  {
    hide Locate;
  }

  lemma PublishedStable(lib: Libraries, outbox: map<nat, OutboxRow>, serial: nat, entry: OutboxRow, u: seq<Message>,
      d: seq<Message>)
    requires PublishedOk(lib, outbox, u, d) && !entry.published
    ensures PublishedOk(lib, outbox[serial := entry], u, d)
  {
    hide Sent;
  }

  lemma AllSealedHaveRows(lib: Libraries, s: State)
    requires Inv(lib, s)
    ensures forall x: string <- s.sealed :: x in s.rows
  {
    hide Inv;
    forall x: string <- s.sealed
      ensures x in s.rows
    {
      SealedHaveRows(lib, s, x);
    }
  }

  /** The create transaction. */
  lemma InsertRow(lib: Libraries, s: State, id: AvatarId, row: Row, serial: nat)
    requires Inv(lib, s) && UploadingOk(World(s), id, row.key) && NewRowOk(id, row) && NoUploader(s.runs, id)
    requires row.key in s.bucket && Faithful(lib, s.bucket[row.key], row) && serial !in s.outbox && row.updated <= s.now
    ensures var entry := UploadEntryOf(lib, id, row);
      && InsertOutbox(s.outbox, serial, entry.eventId, OUTBOX_UPLOAD, entry.payload) == s.outbox[serial := entry]
      && Inv(lib, s.(rows := s.rows[id := row], outbox := s.outbox[serial := entry]))
  {
    hide RunsOk, RunOk, Faithful, RowsOk, OutboxOk, EventsUnique, EventsComplete, StoreOk, Keeps, RowOk, IsOriginal,
      Owner, UploadEventId, InsertOutbox, UploadsOk, DeletesOk, PublishedOk;
    var entry := UploadEntryOf(lib, id, row);
    var w := s.(rows := s.rows[id := row], outbox := s.outbox[serial := entry]);
    RunFacts(lib, s);
    AllSealedHaveRows(lib, s);
    UploadEntryAdded(lib, s, id, row, serial);
    InsertKeepsStore(lib, s, id, row, serial, entry);
    InsertKeepsWorld(World(s), World(w), id, row, serial, entry);
    MessagesStable(lib, s, w.rows, w.outbox);
    PublishedStable(lib, s.outbox, serial, entry, s.uploads, s.deletes);
    RunsStable(lib, World(s), World(w), id, s.runs);
  }

  // ---------------------------------------------------------------- the soft-delete transaction

  function DeleteEntryOf(lib: Libraries, id: AvatarId, keys: seq<string>): OutboxRow {
    OutboxRow(DeleteEventId(id), OUTBOX_DELETE, lib.writeDelete(DeleteEventOf(id, keys)), false)
  }

  function Deleted(row: Row, now: nat): Row {
    row.(deletedAt := Some(now), updated := now)
  }

  lemma DeleteEntryFits(lib: Libraries, rows: map<AvatarId, Row>, id: AvatarId, keys: seq<string>)
    requires Lawful(lib) && id in rows && !rows[id].Live() && KeysOk(id, rows[id], keys)
    ensures DeleteEntry(lib, rows, id, DeleteEntryOf(lib, id, keys))
    ensures lib.readDelete(DeleteEntryOf(lib, id, keys).payload) == Some(DeleteEventOf(id, keys))
  {
    hide KeysOk, DeleteEventId;
  }

  lemma KeysSurviveDelete(id: AvatarId, row: Row, keys: seq<string>, now: nat)
    ensures ObjectKeys(id, Deleted(row, now)) == ObjectKeys(id, row)
    ensures KeysOk(id, Deleted(row, now), keys) == KeysOk(id, row, keys)
  {
    hide ThumbnailObjectKey;
  }

  lemma DeleteEntryAdded(lib: Libraries, s: State, id: AvatarId, row: Row, keys: seq<string>, serial: nat)
    requires Lawful(lib) && TablesOk(lib, s) && id in s.rows && s.rows[id].Live() && serial !in s.outbox
    requires row == Deleted(s.rows[id], s.now) && KeysOk(id, row, keys)
    ensures var entry := DeleteEntryOf(lib, id, keys);
      && InsertOutbox(s.outbox, serial, entry.eventId, OUTBOX_DELETE, entry.payload) == s.outbox[serial := entry]
      && TablesOk(lib, s.(rows := s.rows[id := row], outbox := s.outbox[serial := entry]))
  {
    hide Lawful, UploadEventId, DeleteEventId, IdOfEvent, OutboxOk, EventsUnique, HasEvent, InsertOutbox, RowsKeep,
      RowsOk, KeysOk, DeleteEntry;
    var entry := DeleteEntryOf(lib, id, keys);
    var b := s.rows[id := row];
    NoConflict(lib, s.rows, s.outbox, id);
    EventIdsReadBack(id, id);
    DeleteEntryFits(lib, b, id, keys);
    InsertFresh(s.outbox, serial, entry);
    RowDeleted(s.rows, s.used, id, s.now);
    EntriesStable(lib, s.rows, b, s.outbox);
    EntriesOkAdded(lib, b, s.outbox, id, serial, entry);
    EntryAdded(lib, s, b, id, serial, entry);
    assert HasEvent(s.outbox, UploadEventId(id));
  }

  lemma RowDeleted(rows: map<AvatarId, Row>, used: set<AvatarId>, id: AvatarId, now: nat)
    requires RowsOk(rows, used) && id in rows && rows[id].Live()
    ensures RowsOk(rows[id := Deleted(rows[id], now)], used) && RowsKeep(rows, rows[id := Deleted(rows[id], now)])
  {
    hide Locate, ThumbnailObjectKey;
  }

  lemma SealKeepsHistory(lib: Libraries, s: State, id: AvatarId, row: Row, keys: seq<string>, serial: nat,
      sealed: set<string>)
    requires Lawful(lib) && IdOfEvent(DeleteEventId(id)) == id
    requires SealedOk(lib, s.rows, s.outbox, s.bucket, s.sealed) && CleanedOk(s.rows, s.bucket, s.sealed, s.cleaned)
    requires OutboxOk(lib, s.rows, s.outbox)
    requires id in s.rows && s.rows[id].Live() && row == Deleted(s.rows[id], s.now) && serial !in s.outbox
    requires sealed == s.sealed || (sealed == s.sealed + {id} && Covers(s.bucket, ObjectKeys(id, row), keys))
    ensures SealedOk(lib, s.rows[id := row], s.outbox[serial := DeleteEntryOf(lib, id, keys)], s.bucket, sealed)
    ensures CleanedOk(s.rows[id := row], s.bucket, sealed, s.cleaned)
  {
    hide IdOfEvent, ObjectKeys, Covers, DeleteEventId, UploadEventId, KeysOk;
    var entry := DeleteEntryOf(lib, id, keys);
    assert lib.readDelete(entry.payload) == Some(DeleteEventOf(id, keys));
    assert id !in s.sealed && id !in s.cleaned;
  }

  lemma DeleteKeepsWorld(v: State, w: State, id: AvatarId, serial: nat, entry: OutboxRow)
    requires id in v.rows && v.rows[id].Live()
    requires w ==
      v.(rows := v.rows[id := Deleted(v.rows[id], v.now)], outbox := v.outbox[serial := entry], sealed := w.sealed)
    requires serial !in v.outbox && (forall x <- v.sealed :: x in v.rows)
    requires w.sealed == v.sealed || w.sealed == v.sealed + {id}
    ensures Keeps(v, w, "")
  {
    hide Locate;
  }

  lemma DeleteKeepsStore(lib: Libraries, s: State, id: AvatarId, row: Row, keys: seq<string>, serial: nat,
      sealed: set<string>)
    requires Lawful(lib) && StoreOk(lib, s) && TablesOk(lib, s)
    requires id in s.rows && s.rows[id].Live() && row == Deleted(s.rows[id], s.now) && serial !in s.outbox
    requires sealed == s.sealed || (sealed == s.sealed + {id} && Covers(s.bucket, ObjectKeys(id, row), keys))
    ensures StoreOk(lib,
      s.(rows := s.rows[id := row], outbox := s.outbox[serial := DeleteEntryOf(lib, id, keys)], sealed := sealed))
  {
    EventIdsReadBack(id, id);
    hide DeleteEventId, UploadEventId, IdOfEvent, ObjectKeys, Covers, OutboxOk, EventsUnique, HasEvent, BucketOk,
      SealedOk, CleanedOk, ThumbPresent, RowOk;
    RowDeleted(s.rows, s.used, id, s.now);
    ObjectsStable(lib, s.rows, s.rows[id := row], s.used, s.bucket);
    SealKeepsHistory(lib, s, id, row, keys, serial, sealed);
  }

  lemma SealedRunsStay(lib: Libraries, s: State, id: AvatarId, sealed: set<string>)
    requires Inv(lib, s)
    requires sealed == s.sealed || (sealed == s.sealed + {id} && forall q <- s.runs.Keys :: !s.runs[q].MayPutFor(id))
    ensures forall r <- s.runs.Keys :: s.runs[r].Uploading() ==> s.runs[r].id !in s.rows
    ensures forall r <- s.runs.Keys :: s.runs[r].MayPut() ==> s.runs[r].job.id !in sealed
    ensures NoUploader(s.runs, "")
  {
    hide Inv;
    RunFacts(lib, s);
    forall r <- s.runs.Keys | s.runs[r].MayPut()
      ensures s.runs[r].job.id !in sealed
    {
      assert sealed != s.sealed ==> !s.runs[r].MayPutFor(id);
    }
  }

  lemma RowsAndOutboxKeep(s: State, id: AvatarId, serial: nat, entry: OutboxRow)
    requires id in s.rows && s.rows[id].Live() && serial !in s.outbox
    ensures RowsKeep(s.rows, s.rows[id := Deleted(s.rows[id], s.now)])
    ensures OutboxKeeps(s.outbox, s.outbox[serial := entry])
  {
  }

  lemma DeleteKeepsRuns(lib: Libraries, s: State, w: State, id: AvatarId, serial: nat, entry: OutboxRow)
    requires Inv(lib, s) && id in s.rows && s.rows[id].Live() && serial !in s.outbox
    requires w ==
      s.(rows := s.rows[id := Deleted(s.rows[id], s.now)], outbox := s.outbox[serial := entry], sealed := w.sealed)
    requires w.sealed == s.sealed
      || (w.sealed == s.sealed + {id} && forall q <- s.runs.Keys :: !s.runs[q].MayPutFor(id))
    ensures RunsOk(lib, World(w), s.runs)
  {
    SealedRunsStay(lib, s, id, w.sealed);
    forall x <- s.sealed
      ensures x in s.rows
    {
      SealedHaveRows(lib, s, x);
    }
    hide RunsOk, StoreOk, TopicsOk, Keeps, RowsOk, OutboxOk, EventsUnique, EventsComplete, NoUploader, UploadsApart;
    DeleteKeepsWorld(World(s), World(w), id, serial, entry);
    RunsStable(lib, World(s), World(w), "", s.runs);
  }

  /** The soft-delete transaction. */
  lemma DeleteRow(lib: Libraries, s: State, id: AvatarId, keys: seq<string>, serial: nat, sealed: set<string>)
    requires Lawful(lib) && Inv(lib, s) && id in s.rows && s.rows[id].Live() && serial !in s.outbox
    requires KeysOk(id, s.rows[id], keys)
    requires || sealed == s.sealed
             || (sealed == s.sealed + {id} && Covers(s.bucket, ObjectKeys(id, s.rows[id]), keys)
                 && forall q <- s.runs.Keys :: !s.runs[q].MayPutFor(id))
    ensures var entry := DeleteEntryOf(lib, id, keys);
      && InsertOutbox(s.outbox, serial, entry.eventId, OUTBOX_DELETE, entry.payload) == s.outbox[serial := entry]
      && Inv(lib,
        s.(rows := s.rows[id := Deleted(s.rows[id], s.now)], outbox := s.outbox[serial := entry], sealed := sealed))
  {
    hide Lawful, RunsOk, StoreOk, DeleteEventId, InsertOutbox, ObjectKeys, KeysOk, RowsOk, OutboxOk, EventsUnique,
      EventsComplete, UploadsOk, DeletesOk, PublishedOk, Covers, RowsKeep, OutboxKeeps, UploadsApart;
    var entry := DeleteEntryOf(lib, id, keys);
    var row := Deleted(s.rows[id], s.now);
    var w := s.(rows := s.rows[id := row], outbox := s.outbox[serial := entry], sealed := sealed);
    KeysSurviveDelete(id, s.rows[id], keys, s.now);
    RowsAndOutboxKeep(s, id, serial, entry);
    DeleteEntryAdded(lib, s, id, row, keys, serial);
    DeleteKeepsStore(lib, s, id, row, keys, serial, sealed);
    DeleteKeepsRuns(lib, s, w, id, serial, entry);
    MessagesStable(lib, s, w.rows, w.outbox);
    PublishedStable(lib, s.outbox, serial, entry, s.uploads, s.deletes);
  }

  // ---------------------------------------------------------------- publishing

  lemma TopicsKeepWorld(v: State, w: State)
    requires w == v.(uploads := w.uploads, deletes := w.deletes, outbox := w.outbox)
    requires v.uploads <= w.uploads && v.deletes <= w.deletes && OutboxKeeps(v.outbox, w.outbox)
    requires forall x <- v.sealed :: x in v.rows
    ensures Keeps(v, w, "")
  {
    hide Locate;
  }

  lemma PublishedGrows(lib: Libraries, outbox: map<nat, OutboxRow>, u: seq<Message>, u': seq<Message>, d: seq<Message>,
      d': seq<Message>)
    requires PublishedOk(lib, outbox, u, d) && u <= u' && d <= d'
    ensures PublishedOk(lib, outbox, u', d')
  {
    hide Sent;
    forall k <- outbox.Keys | outbox[k].published
      ensures Sent(lib, outbox[k].kind, outbox[k].payload, u', d')
    {
      SentStable(lib, outbox[k].kind, outbox[k].payload, u, u', d, d');
    }
  }

  lemma TopicsKeepRuns(lib: Libraries, s: State, w: State)
    requires Inv(lib, s) && w == s.(uploads := w.uploads, deletes := w.deletes, outbox := w.outbox)
    requires s.uploads <= w.uploads && s.deletes <= w.deletes && OutboxKeeps(s.outbox, w.outbox)
    ensures RunsOk(lib, World(w), s.runs)
  {
    RunFacts(lib, s);
    forall x <- s.sealed
      ensures x in s.rows
    {
      SealedHaveRows(lib, s, x);
    }
    hide RunsOk, StoreOk, TopicsOk, Keeps, RowsOk, OutboxOk, EventsUnique, EventsComplete, NoUploader, UploadsApart,
      OutboxKeeps;
    TopicsKeepWorld(World(s), World(w));
    RunsStable(lib, World(s), World(w), "", s.runs);
  }

  lemma AppendUpload(lib: Libraries, s: State, msg: Message)
    requires Inv(lib, s) && UploadMessageOk(lib, s.rows, msg)
    ensures Inv(lib, s.(uploads := s.uploads + [msg]))
  {
    hide RunsOk, RowsOk, OutboxOk, EventsUnique, EventsComplete, BucketOk, LiveOk, SealedOk, CleanedOk, UploadMessageOk,
      DeletesOk, PublishedOk, UploadsApart;
    var w := s.(uploads := s.uploads + [msg]);
    assert s.uploads <= w.uploads && OutboxKeeps(s.outbox, w.outbox);
    TopicsKeepRuns(lib, s, w);
    PublishedGrows(lib, s.outbox, s.uploads, w.uploads, s.deletes, w.deletes);
  }

  lemma AppendDelete(lib: Libraries, s: State, msg: Message)
    requires Inv(lib, s) && DeleteMessageOk(lib, s.rows, s.outbox, msg)
    ensures Inv(lib, s.(deletes := s.deletes + [msg]))
  {
    hide RunsOk, RowsOk, OutboxOk, EventsUnique, EventsComplete, BucketOk, LiveOk, SealedOk, CleanedOk, DeleteMessageOk,
      UploadsOk, PublishedOk, UploadsApart;
    var w := s.(deletes := s.deletes + [msg]);
    assert s.deletes <= w.deletes && OutboxKeeps(s.outbox, w.outbox);
    TopicsKeepRuns(lib, s, w);
    PublishedGrows(lib, s.outbox, s.uploads, w.uploads, s.deletes, w.deletes);
  }

  lemma MarkKeepsEntries(lib: Libraries, rows: map<AvatarId, Row>, outbox: map<nat, OutboxRow>, oid: nat)
    requires OutboxOk(lib, rows, outbox) && oid in outbox
    ensures OutboxOk(lib, rows, MarkPublished(outbox, oid))
  {
    hide IdOfEvent, UploadEventId, DeleteEventId, KeysOk;
  }

  lemma MarkKeepsEvents(rows: map<AvatarId, Row>, outbox: map<nat, OutboxRow>, oid: nat)
    requires EventsUnique(outbox) && EventsComplete(rows, outbox) && oid in outbox
    ensures EventsUnique(MarkPublished(outbox, oid)) && EventsComplete(rows, MarkPublished(outbox, oid))
  {
    hide UploadEventId, DeleteEventId;
    var o := MarkPublished(outbox, oid);
    forall e: string | HasEvent(outbox, e)
      ensures HasEvent(o, e)
    {
      var k :| k in outbox && outbox[k].eventId == e;
      assert o[k].eventId == e;
    }
  }

  lemma MarkKeepsTables(lib: Libraries, s: State, oid: nat)
    requires TablesOk(lib, s) && oid in s.outbox
    ensures TablesOk(lib, s.(outbox := MarkPublished(s.outbox, oid)))
  {
    hide RowsOk, OutboxOk, EventsUnique, EventsComplete;
    MarkKeepsEntries(lib, s.rows, s.outbox, oid);
    MarkKeepsEvents(s.rows, s.outbox, oid);
  }

  lemma MarkKeepsSealed(lib: Libraries, s: State, oid: nat)
    requires SealedOk(lib, s.rows, s.outbox, s.bucket, s.sealed) && oid in s.outbox
    ensures SealedOk(lib, s.rows, MarkPublished(s.outbox, oid), s.bucket, s.sealed)
  {
    hide IdOfEvent, ObjectKeys, Covers;
  }

  lemma MarkKeepsPublished(lib: Libraries, s: State, oid: nat)
    requires PublishedOk(lib, s.outbox, s.uploads, s.deletes) && oid in s.outbox
    requires Sent(lib, s.outbox[oid].kind, s.outbox[oid].payload, s.uploads, s.deletes)
    ensures PublishedOk(lib, MarkPublished(s.outbox, oid), s.uploads, s.deletes)
    ensures OutboxKeeps(s.outbox, MarkPublished(s.outbox, oid))
  {
    hide Sent;
  }

  lemma MarkRow(lib: Libraries, s: State, oid: nat)
    requires Inv(lib, s) && oid in s.outbox
    requires Sent(lib, s.outbox[oid].kind, s.outbox[oid].payload, s.uploads, s.deletes)
    ensures Inv(lib, s.(outbox := MarkPublished(s.outbox, oid)))
  {
    hide RunsOk, TablesOk, BucketOk, LiveOk, SealedOk, CleanedOk, UploadsOk, DeletesOk, PublishedOk, UploadsApart, Sent,
      OutboxKeeps, MarkPublished, RowsKeep;
    var w := s.(outbox := MarkPublished(s.outbox, oid));
    MarkKeepsTables(lib, s, oid);
    MarkKeepsSealed(lib, s, oid);
    MarkKeepsPublished(lib, s, oid);
    RowsKeepSelf(s.rows);
    MessagesStable(lib, s, s.rows, w.outbox);
    TopicsKeepRuns(lib, s, w);
  }

  lemma RowsKeepSelf(rows: map<AvatarId, Row>)
    ensures RowsKeep(rows, rows)
  {
  }

  // ---------------------------------------------------------------- bookkeeping

  /** A delete message handled without error. */
  lemma AddCleaned(lib: Libraries, s: State, id: string)
    requires Inv(lib, s) && CleanOk(World(s), id, [])
    ensures Inv(lib, s.(cleaned := s.cleaned + {id}))
  {
    hide RowsOk, OutboxOk, EventsUnique, EventsComplete, BucketOk, LiveOk, SealedOk, ObjectKeys, Covers, UploadsOk,
      DeletesOk, PublishedOk, UploadsApart;
    BookkeepingKeepsRuns(lib, s, s.(cleaned := s.cleaned + {id}));
  }

  lemma BookkeepingKeepsWorld(v: State, w: State)
    requires w == v.(now := w.now, gauges := w.gauges, used := w.used, cleaned := w.cleaned, lost := w.lost)
    requires v.used <= w.used && v.now <= w.now
    ensures Keeps(v, w, "")
  {
    hide Owner, IsOriginal;
    RowsKeepSelf(v.rows);
  }

  /** Clock, gauges, drawn ids and the history of losses are not what runs know about. */
  lemma BookkeepingKeepsRuns(lib: Libraries, s: State, w: State)
    requires Inv(lib, s)
    requires w == s.(now := w.now, gauges := w.gauges, used := w.used, cleaned := w.cleaned, lost := w.lost)
    requires s.used <= w.used && s.now <= w.now
    ensures RunsOk(lib, World(w), s.runs)
  {
    hide RunsOk, StoreOk, TopicsOk, RowsOk, OutboxOk, EventsUnique, EventsComplete, NoUploader, UploadsApart, Locate,
      Owner, Keeps;
    RunFacts(lib, s);
    AllSealedHaveRows(lib, s);
    BookkeepingKeepsWorld(World(s), World(w));
    RunsStable(lib, World(s), World(w), "", s.runs);
  }

  lemma Bookkeeping(lib: Libraries, s: State, w: State)
    requires Inv(lib, s)
    requires w == s.(now := w.now, gauges := w.gauges, used := w.used, lost := w.lost) && s.used <= w.used
    requires s.now <= w.now
    ensures Inv(lib, w)
  {
    hide RunsOk, OutboxOk, EventsUnique, EventsComplete, LiveOk, SealedOk, CleanedOk, UploadsOk, DeletesOk, PublishedOk,
      UploadsApart, RowOk, Locate, Faithful, ThumbKey;
    BookkeepingKeepsRuns(lib, s, w);
  }

  // ---------------------------------------------------------------- runs come and go

  lemma DropRun(lib: Libraries, s: State, r: RunId)
    requires Inv(lib, s)
    ensures Inv(lib, Drop(s, r))
    ensures r in s.runs ==> RunOk(lib, World(Drop(s, r)), s.runs[r])
    ensures r in s.runs && s.runs[r].Uploading() ==> NoUploader(Drop(s, r).runs, s.runs[r].id)
  {
    hide RowsOk, OutboxOk, EventsUnique, EventsComplete, BucketOk, LiveOk, SealedOk, CleanedOk, UploadsOk, DeletesOk,
      PublishedOk, RunOk;
    assert World(Drop(s, r)) == World(s);
  }

  lemma AddRun(lib: Libraries, s: State, r: RunId, run: Run)
    requires Inv(lib, s) && r !in s.runs && RunOk(lib, World(s), run)
    requires run.Uploading() ==> NoUploader(s.runs, run.id)
    ensures Inv(lib, Goto(s, r, run))
  {
    hide RowsOk, OutboxOk, EventsUnique, EventsComplete, BucketOk, LiveOk, SealedOk, CleanedOk, UploadsOk, DeletesOk,
      PublishedOk, RunOk;
    assert World(Goto(s, r, run)) == World(s);
  }
}
