/** Every action keeps the invariant, so every reachable state has it. */
module Steps {
  import opened Text
  import opened Domain
  import opened Images
  import opened Headers
  import opened Protocol
  import opened Invariant
  import opened Effects
  import opened Commits

  lemma Moved(s: State, w: State, r: RunId, run: Run)
    requires w.runs == s.runs - {r}
    ensures w.runs[r := run] == s.runs[r := run]
  {
  }

  // ---------------------------------------------------------------- uploads

  lemma PutLands(lib: Libraries, s: State, r: RunId)
    requires Inv(lib, s) && r in s.runs && s.runs[r].UploadPut?
    ensures var run := s.runs[r];
      var w := Drop(s, r).(bucket := s.bucket[run.row.key := Object(run.data, run.row.mime)]);
      var next := UploadCreate(run.proc, run.id, run.row);
      Inv(lib, w) && RunOk(lib, World(w), next) && NoUploader(w.runs, run.id)
  {
    hide Inv, RowOk, Inspect, Owner, IsOriginal;
    DropRun(lib, s, r);
    var run := s.runs[r];
    PutOriginal(lib, Drop(s, r), run.id, run.row, run.data);
  }

  lemma UploadPutKeeps(lib: Libraries, s: State, r: RunId, t: Turn)
    requires Inv(lib, s) && r in s.runs && s.runs[r].UploadPut?
    ensures Inv(lib, StepUploadPut(s, r, t))
  {
    hide Inv, RunOk, NoUploader;
    DropRun(lib, s, r);
    var run := s.runs[r];
    if t.Lands() {
      PutLands(lib, s, r);
      var w := Drop(s, r).(bucket := s.bucket[run.row.key := Object(run.data, run.row.mime)]);
      if t.ok {
        var next := UploadCreate(run.proc, run.id, run.row);
        AddRun(lib, w, r, next);
        Moved(s, w, r, next);
      }
    }
  }

  lemma CreateCommitKeeps(lib: Libraries, s: State, r: RunId, serial: nat)
    requires Inv(lib, s) && r in s.runs && s.runs[r].UploadCreate? && serial !in s.outbox
    ensures var run := s.runs[r];
      var w :=
        Drop(s, r).(rows := s.rows[run.id := run.row],
          outbox := s.outbox[serial := UploadEntryOf(lib, run.id, run.row)]);
      && Inv(lib, w.(runs := w.runs[r := UploadGauge(run.proc, run.row.size)])) && run.id !in s.rows
      && InsertOutbox(s.outbox, serial, UploadEventId(run.id), OUTBOX_UPLOAD,
        lib.writeUpload(UploadEventOf(run.id, run.row))) == w.outbox
  {
    hide Inv, RowOk, Faithful, Owner, IsOriginal, InsertOutbox, UploadEventId;
    DropRun(lib, s, r);
    var run := s.runs[r];
    InsertRow(lib, Drop(s, r), run.id, run.row, serial);
    var w :=
      Drop(s, r).(rows := s.rows[run.id := run.row], outbox := s.outbox[serial := UploadEntryOf(lib, run.id, run.row)]);
    AddRun(lib, w, r, UploadGauge(run.proc, run.row.size));
  }

  lemma CreateFailKeeps(lib: Libraries, s: State, r: RunId)
    requires Inv(lib, s) && r in s.runs && s.runs[r].UploadCreate?
    ensures Inv(lib, Goto(s, r, UploadUndo(s.runs[r].id, s.runs[r].row.key)))
  {
    hide Inv, RowOk, Faithful, Owner, IsOriginal;
    DropRun(lib, s, r);
    var next := UploadUndo(s.runs[r].id, s.runs[r].row.key);
    AddRun(lib, Drop(s, r), r, next);
    Moved(s, Drop(s, r), r, next);
  }

  lemma UploadCreateKeeps(lib: Libraries, s: State, r: RunId, t: Turn)
    requires Inv(lib, s) && r in s.runs && s.runs[r].UploadCreate? && t.serial !in s.outbox
    ensures Inv(lib, StepUploadCreate(lib, s, r, t))
  {
    hide Inv, InsertOutbox, UploadEventId;
    if t.ok {
      CreateCommitKeeps(lib, s, r, t.serial);
      Moved(s, Drop(s, r), r, UploadGauge(s.runs[r].proc, s.runs[r].row.size));
    } else {
      CreateFailKeeps(lib, s, r);
    }
  }

  lemma UploadUndoKeeps(lib: Libraries, s: State, r: RunId, t: Turn)
    requires Inv(lib, s) && r in s.runs && s.runs[r].UploadUndo?
    ensures Inv(lib, StepUploadUndo(s, r, t))
  {
    DropRun(lib, s, r);
    var run := s.runs[r];
    var d := Drop(s, r);
    if t.Lands() {
      StoredKeyIsTrimmed(run.key);
      hide Inv, Locate, TrimSpace;
      RemoveObject(lib, d, run.key, run.id);
    }
  }

  lemma GaugeKeeps(lib: Libraries, s: State, r: RunId)
    requires Inv(lib, s) && r in s.runs && (s.runs[r].UploadGauge? || s.runs[r].DeleteGauge?)
    ensures Inv(lib, StepGauge(s, r))
  {
    DropRun(lib, s, r);
    hide Inv;
    Bookkeeping(lib, Drop(s, r), StepGauge(s, r));
  }

  // ---------------------------------------------------------------- deletes

  ghost predicate IsValue(thumbs: map<string, string>, v: string) {
    exists x <- thumbs.Keys :: thumbs[x] == v
  }

  lemma {:induction false} ThumbKeysAre(thumbs: map<string, string>, order: seq<string>)
    requires forall i :: 0 <= i < |order| ==> order[i] in thumbs
    ensures forall v :: v in ThumbKeys(thumbs, order) ==> IsValue(thumbs, v)
    ensures forall i :: 0 <= i < |order| && thumbs[order[i]] != "" ==> thumbs[order[i]] in ThumbKeys(thumbs, order)
  {
    if order != [] {
      ThumbKeysAre(thumbs, order[1..]);
      var rest := ThumbKeys(thumbs, order[1..]);
      var all := ThumbKeys(thumbs, order);
      assert forall v :: v in all ==> v in rest || v == thumbs[order[0]];
      assert forall v :: v in rest ==> v in all;
      assert forall i :: 1 <= i < |order| ==> order[i] == order[1..][i - 1];
    }
  }

  /** The keys collected for the delete event are the row's own, the original first; all of them if the
      row has its thumbnails. */
  lemma DeleteKeysAre(id: AvatarId, row: Row, order: seq<string>)
    requires RowOk(id, row) && IsOrdering(order, row.thumbs.Keys)
    ensures KeysOk(id, row, DeleteKeys(row, order))
    ensures row.thumbs != map[] ==> forall k <- ObjectKeys(id, row) :: k in DeleteKeys(row, order)
  {
    var keys := DeleteKeys(row, order);
    var thumbs := ThumbKeys(row.thumbs, order);
    ThumbKeysAre(row.thumbs, order);
    KeyIsTrimmed(Thumb(id, SIZE_100, ExtForMime(row.mime)));
    KeyIsTrimmed(Thumb(id, SIZE_300, ExtForMime(row.mime)));
    hide Locate, ThumbnailObjectKey, ExtForMime, TrimSpace;
    forall i | 0 <= i < |keys|
      ensures keys[i] in ObjectKeys(id, row)
    {
      if i > 0 {
        assert keys[i] == thumbs[i - 1];
        assert IsValue(row.thumbs, thumbs[i - 1]);
      }
    }
    if row.thumbs != map[] {
      assert row.thumbs[SIZE_100] in thumbs && row.thumbs[SIZE_300] in thumbs;
    }
  }

  lemma RowHolds(lib: Libraries, s: State, id: AvatarId)
    requires Inv(lib, s) && id in s.rows
    ensures RowOk(id, s.rows[id]) && id in s.used
  {
  }

  lemma DeleteReadKeeps(lib: Libraries, s: State, r: RunId, t: Turn)
    requires Inv(lib, s) && r in s.runs && s.runs[r].DeleteRead?
    ensures Inv(lib, StepDeleteRead(s, r, t))
  {
    hide Inv, KeysOk, DeleteKeys, RowOk;
    DropRun(lib, s, r);
    var run := s.runs[r];
    var d := Drop(s, r);
    if t.ok && run.id in s.rows && s.rows[run.id].Live() && s.rows[run.id].user == run.user
      && IsOrdering(t.order, s.rows[run.id].thumbs.Keys) {
      RowHolds(lib, s, run.id);
      DeleteKeysAre(run.id, s.rows[run.id], t.order);
      var next := DeleteTx(run.proc, run.id, run.user, s.rows[run.id].size, DeleteKeys(s.rows[run.id], t.order));
      AddRun(lib, d, r, next);
      Moved(s, d, r, next);
    }
  }

  lemma SealsWithout(s: State, r: RunId, id: AvatarId, keys: seq<string>)
    requires id in s.rows && Seals(s, id, keys)
    ensures Covers(s.bucket, ObjectKeys(id, s.rows[id]), keys)
    ensures forall q <- Drop(s, r).runs.Keys :: !Drop(s, r).runs[q].MayPutFor(id)
  {
    hide ObjectKeys;
  }

  lemma DeleteTxCommitKeeps(lib: Libraries, s: State, r: RunId, serial: nat, sealed: set<string>)
    requires Lawful(lib) && Inv(lib, s) && r in s.runs && s.runs[r].DeleteTx? && serial !in s.outbox
    requires var run := s.runs[r];
      && run.id in s.rows && s.rows[run.id].Live()
      && (|| sealed == s.sealed
          || (sealed == s.sealed + {run.id} && Covers(s.bucket, ObjectKeys(run.id, s.rows[run.id]), run.keys)
              && forall q <- Drop(s, r).runs.Keys :: !Drop(s, r).runs[q].MayPutFor(run.id)))
    ensures var run := s.runs[r];
      var ev := DeleteEventOf(run.id, run.keys);
      Inv(lib, Goto(s.(rows := s.rows[run.id := Deleted(s.rows[run.id], s.now)],
                       outbox := InsertOutbox(s.outbox, serial, ev.eventId, OUTBOX_DELETE, lib.writeDelete(ev)),
                       sealed := sealed), r, DeleteGauge(run.proc, run.size)))
  {
    hide Inv, Lawful, KeysOk, InsertOutbox, DeleteEventId, ObjectKeys, Covers;
    DropRun(lib, s, r);
    var run := s.runs[r];
    var d := Drop(s, r);
    DeleteRow(lib, d, run.id, run.keys, serial, sealed);
    var w := d.(rows := d.rows[run.id := Deleted(d.rows[run.id], d.now)],
                outbox := d.outbox[serial := DeleteEntryOf(lib, run.id, run.keys)], sealed := sealed);
    var next := DeleteGauge(run.proc, run.size);
    AddRun(lib, w, r, next);
    Moved(s, w, r, next);
  }

  lemma DeleteTxKeeps(lib: Libraries, s: State, r: RunId, t: Turn)
    requires Lawful(lib) && Inv(lib, s) && r in s.runs && s.runs[r].DeleteTx? && t.serial !in s.outbox
    ensures Inv(lib, StepDeleteTx(lib, s, r, t))
  {
    hide Inv, Lawful, InsertOutbox, DeleteEventId, ObjectKeys, Covers, Seals;
    DropRun(lib, s, r);
    var run := s.runs[r];
    if t.ok && run.id in s.rows && s.rows[run.id].Live() && s.rows[run.id].user == run.user {
      if Seals(s, run.id, run.keys) {
        SealsWithout(s, r, run.id, run.keys);
        DeleteTxCommitKeeps(lib, s, r, t.serial, s.sealed + {run.id});
      } else {
        DeleteTxCommitKeeps(lib, s, r, t.serial, s.sealed);
      }
    }
  }

  // ---------------------------------------------------------------- flushing

  lemma ListedItemsOk(outbox: map<nat, OutboxRow>, limit: nat)
    ensures var items := ListUnpublished(outbox, limit);
      forall i :: 0 <= i < |items| ==> ItemOk(outbox, items[i])
  {
    ListingWithin(Unpublished(outbox), limit);
  }

  /** Whatever the flush does next, it only keeps items of the outbox. */
  lemma GoFlushKeeps(lib: Libraries, s: State, r: RunId, items: seq<OutboxItem>)
    requires Inv(lib, Drop(s, r)) && forall i :: 0 <= i < |items| ==> ItemOk(s.outbox, items[i])
    ensures Inv(lib, GoFlush(s, r, items))
  {
    hide Inv;
    if items != [] {
      AddRun(lib, Drop(s, r), r, FlushPublish(items, 0));
      Moved(s, Drop(s, r), r, FlushPublish(items, 0));
    }
  }

  lemma FlushListKeeps(lib: Libraries, s: State, r: RunId, t: Turn)
    requires Inv(lib, s) && r in s.runs
    ensures Inv(lib, StepFlushList(s, r, t))
  {
    hide Inv;
    DropRun(lib, s, r);
    ListedItemsOk(s.outbox, FLUSH_LIMIT);
    GoFlushKeeps(lib, s, r, ListUnpublished(s.outbox, FLUSH_LIMIT));
  }

  lemma EntryOfItem(lib: Libraries, s: State, item: OutboxItem)
    requires Inv(lib, s) && ItemOk(s.outbox, item)
    ensures var o := s.outbox[item.oid];
      var id := IdOfEvent(o.eventId);
      && (item.kind == OUTBOX_UPLOAD ==> UploadEntry(lib, s.rows, id, o))
      && (item.kind == OUTBOX_DELETE ==> DeleteEntry(lib, s.rows, id, o))
  {
    hide IdOfEvent, StoreOk, TopicsOk, RunsOk;
  }

  /** The message made from an outbox row is handled as exactly that row's event. */
  lemma EntryIsKnown(lib: Libraries, s: State, item: OutboxItem)
    requires Inv(lib, s) && ItemOk(s.outbox, item)
    ensures item.kind == OUTBOX_UPLOAD || item.kind == OUTBOX_DELETE
  {
    hide StoreOk, TopicsOk, RunsOk, IdOfEvent, UploadEventId, DeleteEventId;
  }

  lemma UploadMessageOfItem(lib: Libraries, s: State, item: OutboxItem, trace: seq<Header>)
    requires Lawful(lib) && Inv(lib, s) && ItemOk(s.outbox, item) && item.kind == OUTBOX_UPLOAD && TraceOnly(trace)
    ensures lib.readUpload(item.payload).Some?
    ensures var msg := UploadMessage(lib, lib.readUpload(item.payload).value, trace);
      UploadMessageOk(lib, s.rows, msg) && Carries(lib, item.payload, msg)
  {
    hide Inv, UploadMessage, IdOfEvent;
    EntryOfItem(lib, s, item);
    var id := IdOfEvent(s.outbox[item.oid].eventId);
    var ev := UploadEventOf(id, s.rows[id]);
    assert lib.readUpload(item.payload) == Some(ev);
    assert ev.eventId[0] == 'u';
    UploadRoundTrip(lib, ev, trace);
  }

  lemma DeleteMessageOfItem(lib: Libraries, s: State, item: OutboxItem, trace: seq<Header>)
    requires Lawful(lib) && Inv(lib, s) && ItemOk(s.outbox, item) && item.kind == OUTBOX_DELETE && TraceOnly(trace)
    ensures lib.readDelete(item.payload).Some?
    ensures var msg := DeleteMessage(lib, lib.readDelete(item.payload).value, trace);
      DeleteMessageOk(lib, s.rows, s.outbox, msg) && CarriesDelete(lib, item.payload, msg)
  {
    hide Inv, DeleteMessage, IdOfEvent, KeysOk, Covers, HasEvent;
    EntryOfItem(lib, s, item);
    var id := IdOfEvent(s.outbox[item.oid].eventId);
    var ev := lib.readDelete(item.payload).value;
    assert ev == DeleteEventOf(id, ev.keys);
    assert ev.eventId[0] == 'd';
    DeleteRoundTrip(lib, ev, trace);
    assert s.outbox[item.oid].payload == lib.writeDelete(ev);
  }

  lemma PublishKeeps(lib: Libraries, s: State, item: OutboxItem, trace: seq<Header>)
    requires Lawful(lib) && Inv(lib, s) && ItemOk(s.outbox, item) && Sendable(lib, item) && TraceOnly(trace)
    ensures var w := Publish(lib, s, item, trace);
      Inv(lib, w) && Sent(lib, item.kind, item.payload, w.uploads, w.deletes) && w.outbox == s.outbox
  {
    hide Inv, Lawful, UploadMessage, DeleteMessage, UploadMessageOk, DeleteMessageOk, Carries, CarriesDelete;
    var w := Publish(lib, s, item, trace);
    if item.kind == OUTBOX_UPLOAD {
      UploadMessageOfItem(lib, s, item, trace);
      var msg := UploadMessage(lib, lib.readUpload(item.payload).value, trace);
      AppendUpload(lib, s, msg);
      assert w.uploads[|s.uploads|] == msg;
    } else {
      DeleteMessageOfItem(lib, s, item, trace);
      var msg := DeleteMessage(lib, lib.readDelete(item.payload).value, trace);
      AppendDelete(lib, s, msg);
      assert w.deletes[|s.deletes|] == msg;
    }
  }

  lemma PublishElsewhere(lib: Libraries, s: State, r: RunId, item: OutboxItem, trace: seq<Header>)
    requires Sendable(lib, item)
    ensures Drop(Publish(lib, s, item, trace), r) == Publish(lib, Drop(s, r), item, trace)
  {
    hide UploadMessage, DeleteMessage;
    if item.kind == OUTBOX_UPLOAD {
      var all := s.uploads + [UploadMessage(lib, lib.readUpload(item.payload).value, trace)];
      assert Drop(s.(uploads := all), r) == Drop(s, r).(uploads := all);
    } else {
      var all := s.deletes + [DeleteMessage(lib, lib.readDelete(item.payload).value, trace)];
      assert Drop(s.(deletes := all), r) == Drop(s, r).(deletes := all);
    }
  }

  /** After an attempt, successful or not, `next` is the world without the run. */
  lemma AfterAttempt(lib: Libraries, s: State, r: RunId, next: State, run: Run)
    requires Inv(lib, Drop(next, r)) && RunOk(lib, World(Drop(next, r)), run) && !run.Uploading()
    ensures Inv(lib, Goto(next, r, run))
  {
    hide Inv, RunOk;
    AddRun(lib, Drop(next, r), r, run);
    Moved(next, Drop(next, r), r, run);
  }

  lemma FlushFacts(lib: Libraries, s: State, r: RunId)
    requires Inv(lib, s) && r in s.runs && (s.runs[r].FlushPublish? || s.runs[r].FlushMark?)
    ensures Inv(lib, Drop(s, r)) && ItemsOk(s.outbox, s.runs[r].items)
    ensures s.runs[r].FlushMark? ==>
      Sent(lib, s.runs[r].items[0].kind, s.runs[r].items[0].payload, s.uploads, s.deletes)
  {
    hide Inv, Sent;
    DropRun(lib, s, r);
  }

  lemma FlushRunOk(lib: Libraries, w: State, items: seq<OutboxItem>, attempt: nat)
    requires ItemsOk(w.outbox, items)
    ensures RunOk(lib, w, FlushPublish(items, attempt))
    ensures Sent(lib, items[0].kind, items[0].payload, w.uploads, w.deletes) ==> RunOk(lib, w, FlushMark(items))
  {
    hide Sent;
  }

  lemma FlushPublishKeeps(lib: Libraries, s: State, r: RunId, t: Turn)
    requires Lawful(lib) && Inv(lib, s) && r in s.runs && s.runs[r].FlushPublish? && TraceOnly(t.trace)
    ensures Inv(lib, StepFlushPublish(lib, s, r, t))
  {
    hide Inv, Lawful, Publish, Sendable, Sent, TraceOnly, RunOk, GoFlush;
    FlushFacts(lib, s, r);
    var run := s.runs[r];
    var item := run.items[0];
    var next := s;
    if Sendable(lib, item) && t.Lands() {
      PublishElsewhere(lib, s, r, item, t.trace);
      PublishKeeps(lib, Drop(s, r), item, t.trace);
      next := Publish(lib, s, item, t.trace);
    }
    FlushRunOk(lib, World(Drop(next, r)), run.items, run.attempt + 1);
    if Sendable(lib, item) && t.ok {
      AfterAttempt(lib, s, r, next, FlushMark(run.items));
    } else if run.attempt + 1 < PUBLISH_ATTEMPTS && !t.cancel {
      AfterAttempt(lib, s, r, next, FlushPublish(run.items, run.attempt + 1));
    } else {
      GoFlushKeeps(lib, next, r, run.items[1..]);
    }
  }

  lemma FlushMarkKeeps(lib: Libraries, s: State, r: RunId, t: Turn)
    requires Inv(lib, s) && r in s.runs && s.runs[r].FlushMark?
    ensures Inv(lib, StepFlushMark(s, r, t))
  {
    hide Inv, Sent, RunOk, GoFlush;
    FlushFacts(lib, s, r);
    var items := s.runs[r].items;
    var next := s;
    if t.Lands() {
      MarkRow(lib, Drop(s, r), items[0].oid);
      next := s.(outbox := MarkPublished(s.outbox, items[0].oid));
    }
    GoFlushKeeps(lib, next, r, items[1..]);
  }

  // ---------------------------------------------------------------- processing

  lemma {:induction false} NextJobForgets(lib: Libraries, s: State, r: RunId, events: seq<UploadEvent>)
    ensures NextJob(lib, s, r, events) == NextJob(lib, Drop(s, r), r, events)
    decreases |events|
  {
    if events != [] {
      match lib.parseUuid(events[0].avatarId)
      case Some(id) => Moved(s, Drop(s, r), r, ProcRead(Job(id, events[0], events[1..])));
      case None => NextJobForgets(lib, s, r, events[1..]);
    }
  }

  lemma {:induction false} NextJobKeeps(lib: Libraries, s: State, r: RunId, events: seq<UploadEvent>)
    requires Lawful(lib) && Inv(lib, Drop(s, r)) && forall i :: 0 <= i < |events| ==> EventOk(s.rows, events[i])
    ensures Inv(lib, NextJob(lib, s, r, events))
  {
    hide Inv, UploadEventId;
    if events != [] {
      var ev := events[0];
      assert EventOk(s.rows, ev);
      var id: AvatarId := ev.avatarId;
      assert lib.parseUuid(id) == Some(id);
      var next := ProcRead(Job(id, ev, events[1..]));
      AddRun(lib, Drop(s, r), r, next);
      Moved(s, Drop(s, r), r, next);
    }
  }

  lemma RecoverListKeeps(lib: Libraries, s: State, r: RunId, t: Turn)
    requires Lawful(lib) && Inv(lib, s) && r in s.runs
    ensures Inv(lib, StepRecoverList(lib, s, r, t))
  {
    hide Inv, NextJob, Lawful;
    DropRun(lib, s, r);
    if t.ok && IsStuckListing(s.rows, s.now, STUCK_LIMIT, t.stuck) {
      NextJobKeeps(lib, s, r,
        seq(|t.stuck|, i requires 0 <= i < |t.stuck| => UploadEventOf(t.stuck[i], s.rows[t.stuck[i]])));
    }
  }

  lemma JobOfRun(lib: Libraries, w: State, run: Run)
    requires RunOk(lib, w, run) && (run.ProcRead? || run.ProcClaim? || run.Holding())
    ensures JobOk(w.rows, run.job) && (run.MayPut() ==> run.job.id !in w.sealed)
  {
    hide JobOk, Inspect, ThumbPresent, Canonical, ThumbKey, ExtForMime;
  }

  lemma JobFacts(lib: Libraries, s: State, r: RunId)
    requires Inv(lib, s) && r in s.runs && (s.runs[r].ProcRead? || s.runs[r].ProcClaim? || s.runs[r].Holding())
    ensures Inv(lib, Drop(s, r)) && JobOk(s.rows, s.runs[r].job)
    ensures var row := s.rows[s.runs[r].job.id];
      RowOk(s.runs[r].job.id, row) && s.runs[r].job.ev.key == row.key
    ensures s.runs[r].MayPut() ==> s.runs[r].job.id !in s.sealed
  {
    hide Inv, RunOk, RowOk;
    DropRun(lib, s, r);
    JobOfRun(lib, World(Drop(s, r)), s.runs[r]);
    RowHolds(lib, s, s.runs[r].job.id);
  }

  lemma EndJobKeeps(lib: Libraries, s: State, r: RunId, job: Job)
    requires Lawful(lib) && Inv(lib, Drop(s, r)) && JobOk(s.rows, job)
    ensures Inv(lib, EndJob(lib, s, r, job))
  {
    hide Inv, NextJob, Lawful;
    NextJobKeeps(lib, s, r, job.rest);
  }

  lemma ProcRunOk(lib: Libraries, w: State, job: Job, at: nat)
    requires JobOk(w.rows, job)
    ensures RunOk(lib, w, ProcRead(job)) && RunOk(lib, w, ProcClaim(job)) && RunOk(lib, w, ProcFail(job, at, false))
    ensures job.id !in w.sealed ==> RunOk(lib, w, ProcGet(job, at))
  {
    hide JobOk;
  }

  lemma ProcReadKeeps(lib: Libraries, s: State, r: RunId, t: Turn)
    requires Lawful(lib) && Inv(lib, s) && r in s.runs && s.runs[r].ProcRead?
    ensures Inv(lib, StepProcRead(lib, s, r, t))
  {
    hide Inv, Lawful, EndJob, RunOk, RowOk;
    JobFacts(lib, s, r);
    var job := s.runs[r].job;
    EndJobKeeps(lib, s, r, job);
    ProcRunOk(lib, World(Drop(s, r)), job, 0);
    AfterAttempt(lib, s, r, s, ProcClaim(job));
    assert job.ev.key == "" ==> job.(ev := job.ev.(key := s.rows[job.id].key)) == job;
  }

  /** What processing writes is always one of the shapes a row may take. */
  lemma RowMoves(lib: Libraries, s: State, r: RunId, id: AvatarId, row: Row)
    requires Inv(lib, s) && id in s.rows && s.rows[id].Live() && row.Live()
    requires RowKeeps(s.rows[id], row) && RowOk(id, row) && row.updated <= s.now
    requires row.thumbs != map[] ==>
      ThumbPresent(s.bucket, id, SIZE_100, row.mime) && ThumbPresent(s.bucket, id, SIZE_300, row.mime)
    ensures Inv(lib, Drop(s.(rows := s.rows[id := row]), r))
  {
    hide Inv, RowOk, ThumbPresent, RowKeeps;
    UpdateRow(lib, s, id, row);
    DropRun(lib, s.(rows := s.rows[id := row]), r);
  }

  lemma ThumbsStored(lib: Libraries, s: State, id: AvatarId)
    requires Inv(lib, s) && id in s.rows && s.rows[id].Live() && s.rows[id].thumbs != map[]
    ensures ThumbPresent(s.bucket, id, SIZE_100, s.rows[id].mime)
    ensures ThumbPresent(s.bucket, id, SIZE_300, s.rows[id].mime)
  {
  }

  lemma ProcClaimKeeps(lib: Libraries, s: State, r: RunId, t: Turn)
    requires Lawful(lib) && Inv(lib, s) && r in s.runs && s.runs[r].ProcClaim?
    ensures Inv(lib, StepProcClaim(lib, s, r, t))
  {
    hide Inv, Lawful, EndJob, RunOk, UploadEventId, Locate, ThumbPresent;
    JobFacts(lib, s, r);
    var job := s.runs[r].job;
    if t.Lands() && Claimable(s.rows[job.id], s.now) {
      var d := Drop(s, r);
      var row := Claimed(s.rows[job.id], s.now);
      var next := s.(rows := s.rows[job.id := row]);
      if row.thumbs != map[] {
        ThumbsStored(lib, d, job.id);
      }
      RowMoves(lib, d, r, job.id, row);
      assert Drop(next, r) == Drop(d.(rows := d.rows[job.id := row]), r);
      assert RowsKeep(s.rows, next.rows);
      JobStable(s.rows, next.rows, job);
      LiveUnsealed(lib, s, job.id);
      if t.ok {
        ProcRunOk(lib, World(Drop(next, r)), job, s.now);
        AfterAttempt(lib, s, r, next, ProcGet(job, s.now));
      } else {
        EndJobKeeps(lib, next, r, job);
      }
    } else {
      EndJobKeeps(lib, s, r, job);
    }
  }

  lemma LiveUnsealed(lib: Libraries, s: State, id: AvatarId)
    requires Inv(lib, s) && id in s.rows && s.rows[id].Live()
    ensures id !in s.sealed
  {
  }

  /** What a download of an existing row's original returns is what the row says was stored. */
  lemma StoredIsFaithful(lib: Libraries, s: State, id: AvatarId)
    requires Inv(lib, s) && id in s.rows && s.rows[id].key in s.bucket
    ensures Faithful(lib, s.bucket[s.rows[id].key], s.rows[id])
  {
    RowHolds(lib, s, id);
    hide TablesOk, TopicsOk, RunsOk, LiveOk, SealedOk, CleanedOk, Inspect;
    assert ObjectOk(lib, s.rows, s.used, s.rows[id].key, s.bucket[s.rows[id].key]);
  }

  lemma ProcGetKeeps(lib: Libraries, s: State, r: RunId, t: Turn)
    requires Lawful(lib) && Inv(lib, s) && r in s.runs && s.runs[r].ProcGet?
    ensures Inv(lib, StepProcGet(lib, s, r, t))
  {
    hide Inv, Lawful, RowOk, Inspect, UploadEventId, JobOk;
    JobFacts(lib, s, r);
    var run := s.runs[r];
    ProcRunOk(lib, World(Drop(s, r)), run.job, run.at);
    AfterAttempt(lib, s, r, s, ProcFail(run.job, run.at, false));
    if t.ok && run.job.ev.key in s.bucket {
      assert run.job.id in s.rows by { hide RunOk; JobHasRow(s.rows, run.job); }
      StoredIsFaithful(lib, s, run.job.id);
      var data := s.bucket[run.job.ev.key].data;
      AfterAttempt(lib, s, r, s, ProcThumb(run.job, run.at, data, Inspect(lib, data).value, SIZE_100, map[]));
    }
  }

  lemma JobHasRow(rows: map<AvatarId, Row>, job: Job)
    requires JobOk(rows, job)
    ensures job.id in rows && job.ev == UploadEventOf(job.id, rows[job.id])
  {
  }

  /** The thumbnail of a stored image is labelled with the image's own type. */
  lemma ThumbnailMime(lib: Libraries, data: Bytes, size: string, mime: string)
    requires Lawful(lib) && mime in MIMES && Thumbnail(lib, data, size, mime).Ok?
    ensures Thumbnail(lib, data, size, mime).value.1 == mime
  {
    var img := Decode(lib, data).value;
    EncodeKeepsMime(lib, lib.fill(img, SidePixels(size), SidePixels(size)), mime);
  }

  /** The put of one thumbnail, by a run at ProcThumb. */
  lemma ThumbPutKeeps(lib: Libraries, s: State, r: RunId, body: Bytes)
    requires Inv(lib, s) && r in s.runs && s.runs[r].ProcThumb?
    ensures var run := s.runs[r];
      var mime := s.rows[run.job.id].mime;
      var key := ThumbKey(run.job.id, run.side, mime);
      var next := s.(bucket := s.bucket[key := Object(body, mime)]);
      && Inv(lib, Drop(next, r))
      && (run.side == SIZE_100 ==>
            RunOk(lib, World(Drop(next, r)),
              ProcThumb(run.job, run.at, run.data, run.info, SIZE_300, run.thumbs[run.side := key])))
      && (run.side != SIZE_100 ==>
            RunOk(lib, World(Drop(next, r)), ProcComplete(run.job, run.at, run.info, run.thumbs[run.side := key])))
  {
    hide Inv, Inspect, JobOk, RowOk, ThumbKey, ExtForMime;
    JobFacts(lib, s, r);
    var run := s.runs[r];
    JobHasRow(s.rows, run.job);
    DropRun(lib, s, r);
    PutThumb(lib, Drop(s, r), run.job.id, run.side, Object(body, s.rows[run.job.id].mime));
  }

  lemma ThumbFacts(lib: Libraries, s: State, r: RunId)
    requires Inv(lib, s) && r in s.runs && s.runs[r].ProcThumb?
    ensures var run := s.runs[r];
      run.job.id in s.rows && run.info.mime == s.rows[run.job.id].mime && run.job.ev.avatarId == run.job.id
  {
    hide Inv, Inspect, ThumbPresent, ThumbKey, RowOk;
    DropRun(lib, s, r);
  }

  lemma ProcThumbKeeps(lib: Libraries, s: State, r: RunId, t: Turn)
    requires Lawful(lib) && Inv(lib, s) && r in s.runs && s.runs[r].ProcThumb?
    ensures Inv(lib, StepProcThumb(lib, s, r, t))
  {
    hide Inv, Lawful, RunOk, RowOk, Thumbnail, JobOk, ExtForMime, ThumbnailObjectKey;
    JobFacts(lib, s, r);
    ThumbFacts(lib, s, r);
    var run := s.runs[r];
    var fail := ProcFail(run.job, run.at, false);
    ProcRunOk(lib, World(Drop(s, r)), run.job, run.at);
    AfterAttempt(lib, s, r, s, fail);
    if Thumbnail(lib, run.data, run.side, run.info.mime).Ok? && t.Lands() {
      MimeHolds(lib, s, run.job.id);
      ThumbnailMime(lib, run.data, run.side, run.info.mime);
      var (body, mime) := Thumbnail(lib, run.data, run.side, run.info.mime).value;
      ThumbPutKeeps(lib, s, r, body);
      var key := ThumbKey(run.job.id, run.side, mime);
      var next := s.(bucket := s.bucket[key := Object(body, mime)]);
      ProcRunOk(lib, World(Drop(next, r)), run.job, run.at);
      if !t.ok {
        AfterAttempt(lib, s, r, next, fail);
      } else if run.side == SIZE_100 {
        AfterAttempt(lib, s, r, next,
          ProcThumb(run.job, run.at, run.data, run.info, SIZE_300, run.thumbs[run.side := key]));
      } else {
        AfterAttempt(lib, s, r, next, ProcComplete(run.job, run.at, run.info, run.thumbs[run.side := key]));
      }
    }
  }

  lemma MimeHolds(lib: Libraries, s: State, id: AvatarId)
    requires Inv(lib, s) && id in s.rows
    ensures s.rows[id].mime in MIMES
  {
  }

  lemma CompleteFacts(lib: Libraries, s: State, r: RunId)
    requires Inv(lib, s) && r in s.runs && s.runs[r].ProcComplete?
    ensures s.runs[r].job.id in s.rows && CompleteOk(World(s), s.runs[r].job, s.runs[r].info, s.runs[r].thumbs)
  {
    hide Inv, ThumbPresent, RowOk, ThumbKey;
    DropRun(lib, s, r);
  }

  lemma ProcCompleteKeeps(lib: Libraries, s: State, r: RunId, t: Turn)
    requires Lawful(lib) && Inv(lib, s) && r in s.runs && s.runs[r].ProcComplete?
    ensures Inv(lib, StepProcComplete(lib, s, r, t))
  {
    hide Inv, Lawful, EndJob, RunOk, UploadEventId, Locate, ThumbPresent, ThumbKey, JobOk;
    JobFacts(lib, s, r);
    CompleteFacts(lib, s, r);
    var run := s.runs[r];
    var id := run.job.id;
    if t.Lands() && s.rows[id].Live() {
      var d := Drop(s, r);
      var row := Finished(s.rows[id], run.info, run.thumbs, s.now);
      var next := s.(rows := s.rows[id := row]);
      RowMoves(lib, d, r, id, row);
      assert Drop(next, r) == Drop(d.(rows := d.rows[id := row]), r);
      assert RowsKeep(s.rows, next.rows);
      JobStable(s.rows, next.rows, run.job);
      EndJobKeeps(lib, next, r, run.job);
    } else {
      EndJobKeeps(lib, s, r, run.job);
    }
  }

  lemma ProcFailKeeps(lib: Libraries, s: State, r: RunId, t: Turn)
    requires Lawful(lib) && Inv(lib, s) && r in s.runs && s.runs[r].ProcFail?
    ensures Inv(lib, StepProcFail(lib, s, r, t))
  {
    hide Inv, Lawful, EndJob, RunOk, UploadEventId, Locate, ThumbPresent, ThumbKey;
    JobFacts(lib, s, r);
    var job := s.runs[r].job;
    if t.Lands() && s.rows[job.id].Live() {
      var d := Drop(s, r);
      var row := s.rows[job.id].(status := Failed, updated := s.now);
      var next := s.(rows := s.rows[job.id := row]);
      if row.thumbs != map[] {
        ThumbsStored(lib, d, job.id);
      }
      RowMoves(lib, d, r, job.id, row);
      assert Drop(next, r) == Drop(d.(rows := d.rows[job.id := row]), r);
      assert RowsKeep(s.rows, next.rows);
      JobStable(s.rows, next.rows, job);
      EndJobKeeps(lib, next, r, job);
    } else {
      EndJobKeeps(lib, s, r, job);
    }
  }

  // ---------------------------------------------------------------- removing the objects of a deleted avatar

  lemma CleanFacts(lib: Libraries, s: State, r: RunId)
    requires Inv(lib, s) && r in s.runs && s.runs[r].Clean?
    ensures Inv(lib, Drop(s, r)) && CleanOk(World(Drop(s, r)), s.runs[r].avatar, s.runs[r].keys)
  {
    hide Inv, CleanOk;
    DropRun(lib, s, r);
  }

  lemma GoCleanKeeps(lib: Libraries, s: State, r: RunId, id: string, keys: seq<string>)
    requires Inv(lib, Drop(s, r)) && CleanOk(World(Drop(s, r)), id, keys)
    ensures Inv(lib, GoClean(s, r, id, keys))
  {
    hide Inv, CleanOk;
    if keys == [] {
      AddCleaned(lib, Drop(s, r), id);
    } else {
      AfterAttempt(lib, s, r, s, Clean(id, keys));
    }
  }

  lemma ObjectKeyIsTrimmed(id: AvatarId, row: Row, key: string)
    requires RowOk(id, row) && key in ObjectKeys(id, row)
    ensures TrimSpace(key) == key != ""
  {
    hide TrimSpace, ThumbnailObjectKey, Locate;
    ThumbLocated(id, SIZE_100, row.mime);
    ThumbLocated(id, SIZE_300, row.mime);
    StoredKeyIsTrimmed(key);
  }

  lemma CleanKeyIsStored(lib: Libraries, s: State, id: AvatarId, keys: seq<string>)
    requires Inv(lib, s) && CleanOk(World(s), id, keys) && keys != []
    ensures TrimSpace(keys[0]) == keys[0] != "" && Owner(keys[0]) == id
  {
    hide Inv, ObjectKeys, TrimSpace, Owner, RowOk, Covers;
    RowHolds(lib, s, id);
    ObjectKeyIsTrimmed(id, s.rows[id], keys[0]);
    OwnerOfObject(id, s.rows[id], keys[0]);
  }

  lemma CleanAdvances(w: State, id: string, keys: seq<string>)
    requires CleanOk(w, id, keys) && keys != []
    ensures CleanOk(w.(bucket := RemoveKey(w.bucket, keys[0])), id, keys[1..])
  {
    hide ObjectKeys;
    forall k | k in keys && k != keys[0]
      ensures k in keys[1..]
    {
    }
  }

  lemma CleanKeeps(lib: Libraries, s: State, r: RunId, t: Turn)
    requires Inv(lib, s) && r in s.runs && s.runs[r].Clean?
    ensures Inv(lib, StepClean(s, r, t))
  {
    hide Inv, CleanOk, GoClean, TrimSpace, Owner, RemoveKey;
    CleanFacts(lib, s, r);
    var run := s.runs[r];
    var d := Drop(s, r);
    if run.keys == [] {
      GoCleanKeeps(lib, s, r, run.avatar, []);
    } else {
      CleanHasRow(World(d), run.avatar, run.keys);
      CleanKeyIsStored(lib, d, run.avatar, run.keys);
      var key := run.keys[0];
      if t.Lands() {
        var next := s.(bucket := RemoveKey(s.bucket, key));
        RunFacts(lib, d);
        EmptyHasNoRow(s.rows);
        RemoveObject(lib, d, key, "");
        CleanAdvances(World(d), run.avatar, run.keys);
        assert World(Drop(next, r)) == World(d).(bucket := RemoveKey(s.bucket, key));
        if t.ok {
          GoCleanKeeps(lib, next, r, run.avatar, run.keys[1..]);
        }
      }
    }
  }

  lemma CleanHasRow(w: State, id: string, keys: seq<string>)
    requires CleanOk(w, id, keys)
    ensures IsUuid(id) && id in w.rows && !w.rows[id].Live()
  {
  }

  lemma EmptyHasNoRow(rows: map<AvatarId, Row>)
    ensures "" !in rows
  {
  }

  // ---------------------------------------------------------------- beginnings

  lemma FreshIdOwnsNothing(lib: Libraries, s: State, id: AvatarId)
    requires Inv(lib, s) && id !in s.used
    ensures id !in s.rows && (forall k <- s.bucket.Keys :: Owner(k) != id) && NoUploader(s.runs, id)
  {
    RunFacts(lib, s);
    hide RunsOk, TopicsOk, UploadsApart, OutboxOk, LiveOk, SealedOk, CleanedOk, RowOk, Inspect, ThumbKey, Locate;
    forall k <- s.bucket.Keys
      ensures Owner(k) != id
    {
      assert ObjectOk(lib, s.rows, s.used, k, s.bucket[k]);
    }
  }

  lemma NewRowFits(lib: Libraries, user: string, data: Bytes, id: AvatarId, now: nat)
    requires Inspect(lib, data).Ok?
    ensures var row := NewRow(user, data, id, Inspect(lib, data).value, now);
      NewRowOk(id, row) && Faithful(lib, Object(data, row.mime), row) && Owner(row.key) == id && IsOriginal(row.key)
      && row.updated == now
  {
    InspectedIsSupported(lib, data);
    var info := Inspect(lib, data).value;
    KeyReadsBack(Original(user, id, info.ext));
    hide Locate, DetectMime, CheckPixels, OriginalObjectKey;
    assert Original(user, id, info.ext).Key() == OriginalObjectKey(user, id, info.ext);
  }

  lemma BeginUploadKeeps(lib: Libraries, s: State, a: Action)
    requires Inv(lib, s) && a.BeginUpload? && Enabled(lib, s, a)
    ensures Inv(lib, Next(lib, s, a))
  {
    hide Inv, Inspect, NewRow, Owner, IsOriginal, NewRowOk, Faithful;
    var row := NewRow(a.user, a.data, a.id, Inspect(lib, a.data).value, s.now);
    FreshIdOwnsNothing(lib, s, a.id);
    NewRowFits(lib, a.user, a.data, a.id, s.now);
    var w := s.(used := s.used + {a.id});
    Bookkeeping(lib, s, w);
    AddRun(lib, w, a.r, UploadPut(a.proc, a.id, row, a.data));
  }

  lemma DeliverUploadKeeps(lib: Libraries, s: State, a: Action)
    requires Lawful(lib) && Inv(lib, s) && a.DeliverUpload? && Enabled(lib, s, a)
    ensures Inv(lib, Next(lib, s, a))
  {
    hide Inv, Lawful, NextJob, HandleUpload, EventOk;
    UploadMessageFacts(lib, s, a.offset);
    DropRun(lib, s, a.r);
    NextJobKeeps(lib, s, a.r, [HandleUpload(lib, s.uploads[a.offset]).value]);
  }

  lemma UploadMessageFacts(lib: Libraries, s: State, i: nat)
    requires Inv(lib, s) && i < |s.uploads|
    ensures HandleUpload(lib, s.uploads[i]).Ok? && EventOk(s.rows, HandleUpload(lib, s.uploads[i]).value)
    ensures s.uploads[i].key == HandleUpload(lib, s.uploads[i]).value.avatarId
  {
    hide TablesOk, StoreOk, RunsOk, HandleUpload;
    assert UploadMessageOk(lib, s.rows, s.uploads[i]);
  }

  lemma DeleteMessageFacts(lib: Libraries, s: State, i: nat)
    requires Lawful(lib) && Inv(lib, s) && i < |s.deletes|
    ensures HandleDelete(lib, s.deletes[i]).Ok?
    ensures var ev := HandleDelete(lib, s.deletes[i]).value; CleanOk(World(s), ev.avatarId, ev.keys) && ev.keys != []
  {
    assert DeleteMessageOk(lib, s.rows, s.outbox, s.deletes[i]);
    hide TopicsOk, StoreOk, RunsOk, HandleDelete, TablesOk;
    var ev := HandleDelete(lib, s.deletes[i]).value;
    var k :| k in s.outbox && s.outbox[k].kind == OUTBOX_DELETE && s.outbox[k].payload == lib.writeDelete(ev);
    assert lib.readDelete(s.outbox[k].payload) == Some(ev);
    AnnouncedIsEntry(lib, s, k, ev);
  }

  lemma CoveredBySeal(lib: Libraries, s: State, k: nat, id: string, keys: seq<string>)
    requires SealedOk(lib, s.rows, s.outbox, s.bucket, s.sealed) && k in s.outbox && s.outbox[k].kind == OUTBOX_DELETE
    requires IdOfEvent(s.outbox[k].eventId) == id && id in s.rows && lib.readDelete(s.outbox[k].payload).Some?
    requires lib.readDelete(s.outbox[k].payload).value.keys == keys
    ensures id in s.sealed ==> Covers(s.bucket, ObjectKeys(id, s.rows[id]), keys)
  {
    hide IdOfEvent, ObjectKeys, Covers;
  }

  lemma AnnouncedIsEntry(lib: Libraries, s: State, k: nat, ev: DeleteEvent)
    requires Inv(lib, s) && k in s.outbox && s.outbox[k].kind == OUTBOX_DELETE
    requires lib.readDelete(s.outbox[k].payload) == Some(ev)
    requires Lawful(lib)
    ensures CleanOk(World(s), ev.avatarId, ev.keys) && ev.keys != []
  {
    hide TopicsOk, RunsOk, TablesOk, BucketOk, LiveOk, CleanedOk, SealedOk, UploadsApart, IdOfEvent, DeleteEventId,
      ObjectKeys, Covers;
    var id := IdOfEvent(s.outbox[k].eventId);
    EntryOfItem(lib, s, OutboxItem(k, OUTBOX_DELETE, s.outbox[k].payload));
    assert lib.readDelete(lib.writeDelete(DeleteEventOf(id, ev.keys))) == Some(DeleteEventOf(id, ev.keys));
    assert ev == DeleteEventOf(id, ev.keys);
    CoveredBySeal(lib, s, k, id, ev.keys);
  }

  lemma DeliverDeleteKeeps(lib: Libraries, s: State, a: Action)
    requires Lawful(lib) && Inv(lib, s) && a.DeliverDelete? && Enabled(lib, s, a)
    ensures Inv(lib, Next(lib, s, a))
  {
    hide Inv, Lawful, GoClean, HandleDelete, CleanOk;
    DeleteMessageFacts(lib, s, a.offset);
    DropRun(lib, s, a.r);
    var ev := HandleDelete(lib, s.deletes[a.offset]).value;
    assert World(Drop(s, a.r)) == World(s);
    GoCleanKeeps(lib, s, a.r, ev.avatarId, ev.keys);
  }

  lemma StepKeeps(lib: Libraries, s: State, r: RunId, t: Turn)
    requires Lawful(lib) && Inv(lib, s) && r in s.runs && t.serial !in s.outbox && TraceOnly(t.trace)
    ensures Inv(lib, StepOf(lib, s, r, t))
  {
    hide Inv, Lawful, StepUploadPut, StepUploadCreate, StepUploadUndo, StepGauge, StepDeleteRead, StepDeleteTx,
      StepFlushList, StepFlushPublish, StepFlushMark, StepRecoverList, StepProcRead, StepProcClaim, StepProcGet,
      StepProcThumb, StepProcComplete, StepProcFail, StepClean;
    match s.runs[r]
    case UploadPut(_, _, _, _) => UploadPutKeeps(lib, s, r, t);
    case UploadCreate(_, _, _) => UploadCreateKeeps(lib, s, r, t);
    case UploadUndo(_, _) => UploadUndoKeeps(lib, s, r, t);
    case UploadGauge(_, _) => GaugeKeeps(lib, s, r);
    case DeleteRead(_, _, _) => DeleteReadKeeps(lib, s, r, t);
    case DeleteTx(_, _, _, _, _) => DeleteTxKeeps(lib, s, r, t);
    case DeleteGauge(_, _) => GaugeKeeps(lib, s, r);
    case FlushList => FlushListKeeps(lib, s, r, t);
    case FlushPublish(_, _) => FlushPublishKeeps(lib, s, r, t);
    case FlushMark(_) => FlushMarkKeeps(lib, s, r, t);
    case RecoverList => RecoverListKeeps(lib, s, r, t);
    case ProcRead(_) => ProcReadKeeps(lib, s, r, t);
    case ProcClaim(_) => ProcClaimKeeps(lib, s, r, t);
    case ProcGet(_, _) => ProcGetKeeps(lib, s, r, t);
    case ProcThumb(_, _, _, _, _, _) => ProcThumbKeeps(lib, s, r, t);
    case ProcComplete(_, _, _, _) => ProcCompleteKeeps(lib, s, r, t);
    case ProcFail(_, _, _) => ProcFailKeeps(lib, s, r, t);
    case Clean(_, _) => CleanKeeps(lib, s, r, t);
  }

  /** Every action of every run, in any world the invariant describes, keeps it. */
  lemma NextKeeps(lib: Libraries, s: State, a: Action)
    requires Lawful(lib) && Inv(lib, s) && Enabled(lib, s, a)
    ensures Inv(lib, Next(lib, s, a))
  {
    hide Inv, Lawful, StepOf, GoClean, NextJob, HandleUpload, HandleDelete, NewRow, Inspect;
    match a
    case BeginUpload(_, _, _, _, _) => BeginUploadKeeps(lib, s, a);
    case BeginDelete(r, proc, id, user) => AddRun(lib, s, r, DeleteRead(proc, id, user));
    case BeginFlush(r) => AddRun(lib, s, r, FlushList);
    case BeginRecover(r) => AddRun(lib, s, r, RecoverList);
    case DeliverUpload(_, _) => DeliverUploadKeeps(lib, s, a);
    case DeliverDelete(_, _) => DeliverDeleteKeeps(lib, s, a);
    case Step(r, t) => StepKeeps(lib, s, r, t);
    case Crash(r) =>
      DropRun(lib, s, r);
      Bookkeeping(lib, Drop(s, r), Next(lib, s, a));
    case Restart(_) => Bookkeeping(lib, s, Next(lib, s, a));
    case Tick(_) => Bookkeeping(lib, s, Next(lib, s, a));
  }

  /** The invariant holds after every execution from a state that has it, in particular in every reachable state. */
  lemma {:induction false} ExecutionKeeps(lib: Libraries, s: State, actions: seq<Action>)
    requires Lawful(lib) && Inv(lib, s) && Legal(lib, s, actions)
    ensures Inv(lib, After(lib, s, actions))
    decreases |actions|
  {
    hide Inv, Lawful, Next, Enabled;
    if actions != [] {
      NextKeeps(lib, s, actions[0]);
      ExecutionKeeps(lib, Next(lib, s, actions[0]), actions[1..]);
    }
  }
}
