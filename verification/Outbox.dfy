/** The transactional outbox: rows and events commit together, events are published at least once,
    and nothing else is. */
module Outbox {
  import opened Text
  import opened Domain
  import opened Images
  import opened Headers
  import opened Protocol
  import opened Invariant
  import opened Effects
  import opened Commits
  import opened Steps
  import opened Guarantees

  ghost predicate ExactlyOne(outbox: map<nat, OutboxRow>, eventId: string) {
    exists k <- outbox.Keys :: outbox[k].eventId == eventId && forall j <- outbox.Keys ::
      outbox[j].eventId == eventId ==> j == k
  }

  lemma UniqueIsExactlyOne(outbox: map<nat, OutboxRow>, eventId: string)
    requires EventsUnique(outbox)
    ensures HasEvent(outbox, eventId) <==> ExactlyOne(outbox, eventId)
  {
    if HasEvent(outbox, eventId) {
      var k :| k in outbox && outbox[k].eventId == eventId;
      assert forall j <- outbox.Keys :: outbox[j].eventId == eventId ==> j == k;
    }
  }

  /** A row exists exactly when exactly one upload event does, and is soft-deleted exactly when exactly one delete event
      exists; otherwise there is no such event at all. */
  lemma OutboxAtomicity(lib: Libraries, s: State, id: AvatarId)
    requires Lawful(lib) && Reachable(lib, s)
    ensures id in s.rows <==> ExactlyOne(s.outbox, UploadEventId(id))
    ensures id in s.rows <==> HasEvent(s.outbox, UploadEventId(id))
    ensures id in s.rows && !s.rows[id].Live() <==> ExactlyOne(s.outbox, DeleteEventId(id))
    ensures id in s.rows && !s.rows[id].Live() <==> HasEvent(s.outbox, DeleteEventId(id))
  {
    hide Lawful, Reachable;
    ReachableHasInv(lib, s);
    hide StoreOk, TopicsOk, RunsOk, UploadsApart, UploadEventId, DeleteEventId, OutboxOk, EventsUnique, HasEvent,
      ExactlyOne, RowsOk;
    NoConflict(lib, s.rows, s.outbox, id);
    UniqueIsExactlyOne(s.outbox, UploadEventId(id));
    UniqueIsExactlyOne(s.outbox, DeleteEventId(id));
  }

  // ---------------------------------------------------------------- the two transactions

  /** The entries of the two transactions, written out. */
  lemma EntriesAre(lib: Libraries, id: AvatarId, row: Row, keys: seq<string>)
    ensures var ev := UploadEvent("upload:" + id, id, row.user, row.key);
      && UploadEventOf(id, row) == ev
      && UploadEntryOf(lib, id, row) == OutboxRow("upload:" + id, "upload", lib.writeUpload(ev), false)
    ensures var ev := DeleteEvent("delete:" + id, id, keys);
      && DeleteEventOf(id, keys) == ev
      && DeleteEntryOf(lib, id, keys) == OutboxRow("delete:" + id, "delete", lib.writeDelete(ev), false)
  {
  }

  /** A create transaction that succeeds inserts a new row and appends its event; neither the primary key nor the event
      id can be taken. */
  lemma CreateCommitsBoth(lib: Libraries, s: State, r: RunId, t: Turn)
    requires Lawful(lib) && Reachable(lib, s) && r in s.runs && s.runs[r].UploadCreate?
    requires Enabled(lib, s, Step(r, t)) && t.ok
    ensures var run := s.runs[r];
      var next := Next(lib, s, Step(r, t));
      && run.id !in s.rows && next.rows == s.rows[run.id := run.row]
      && t.serial !in s.outbox
      && var ev := UploadEvent("upload:" + run.id, run.id, run.row.user, run.row.key);
         next.outbox == s.outbox[t.serial := OutboxRow("upload:" + run.id, "upload", lib.writeUpload(ev), false)]
  {
    hide Lawful, Reachable, TraceOnly, Inv, InsertOutbox, UploadEventId, OutboxKeeps;
    ReachableHasInv(lib, s);
    RunFacts(lib, s);
    var run := s.runs[r];
    EntriesAre(lib, run.id, run.row, []);
    InsertsAppend(lib, s, run.id, t.serial, UploadEntryOf(lib, run.id, run.row));
  }

  /** When the create transaction fails, the compensating delete, if it gets through, leaves no object of the avatar. */
  lemma CompensationLeavesNothing(lib: Libraries, s: State, r: RunId, t: Turn)
    requires Lawful(lib) && Reachable(lib, s) && r in s.runs && s.runs[r].UploadUndo? && Enabled(lib, s, Step(r, t))
    ensures var next := Next(lib, s, Step(r, t));
      && s.runs[r].id !in next.rows && r !in next.runs
      && (t.Lands() ==> forall key <- next.bucket.Keys :: Owner(key) != s.runs[r].id)
  {
    hide Lawful, Reachable, Inv, TrimSpace, Owner, TraceOnly;
    ReachableHasInv(lib, s);
    DropRun(lib, s, r);
    OriginalIsTrimmed(s.runs[r].key);
  }

  lemma OriginalIsTrimmed(key: string)
    ensures IsOriginal(key) ==> TrimSpace(key) == key
  {
    hide TrimSpace, Locate;
    if IsOriginal(key) {
      StoredKeyIsTrimmed(key);
    }
  }

  /** The soft-delete transaction takes effect exactly if it does not fail, the row is live and the caller owns it; then
      it stamps the row and appends its event, and otherwise it changes no table. */
  lemma DeleteCommitsBoth(lib: Libraries, s: State, r: RunId, t: Turn)
    requires Lawful(lib) && Reachable(lib, s) && r in s.runs && s.runs[r].DeleteTx? && Enabled(lib, s, Step(r, t))
    ensures var run := s.runs[r];
      var next := Next(lib, s, Step(r, t));
      if t.ok && run.id in s.rows && s.rows[run.id].Live() then
        && run.user == s.rows[run.id].user
        && next.rows == s.rows[run.id := s.rows[run.id].(deletedAt := Some(s.now), updated := s.now)]
        && t.serial !in s.outbox
        && var ev := DeleteEvent("delete:" + run.id, run.id, run.keys);
           next.outbox == s.outbox[t.serial := OutboxRow("delete:" + run.id, "delete", lib.writeDelete(ev), false)]
      else next.rows == s.rows && next.outbox == s.outbox
  {
    hide Lawful, Reachable, TraceOnly, Inv, InsertOutbox, DeleteEventId, Seals, OutboxKeeps;
    ReachableHasInv(lib, s);
    DeleteTxFacts(lib, s, r);
    var run := s.runs[r];
    EntriesAre(lib, run.id, s.rows[run.id], run.keys);
    if s.rows[run.id].Live() {
      InsertsAppend(lib, s, run.id, t.serial, DeleteEntryOf(lib, run.id, run.keys));
    }
  }

  lemma DeleteTxFacts(lib: Libraries, s: State, r: RunId)
    requires Inv(lib, s) && r in s.runs && s.runs[r].DeleteTx?
    ensures var run := s.runs[r];
      run.id in s.rows && s.rows[run.id].user == run.user && s.rows[run.id].size == run.size
        && KeysOk(run.id, s.rows[run.id], run.keys)
  {
    hide Inv, KeysOk;
    DropRun(lib, s, r);
  }

  /** Of any number of concurrent deletes of one avatar only one succeeds: after a delete committed, no delete of the
      same avatar ever commits again. */
  lemma DeleteSucceedsOnce(lib: Libraries, s: State, r: RunId, t: Turn, actions: seq<Action>, q: RunId, u: Turn)
    requires Lawful(lib) && Reachable(lib, s) && r in s.runs && s.runs[r].DeleteTx? && Enabled(lib, s, Step(r, t))
    requires t.ok && s.runs[r].id in s.rows && s.rows[s.runs[r].id].Live()
    requires Legal(lib, Next(lib, s, Step(r, t)), actions)
    requires var later := After(lib, Next(lib, s, Step(r, t)), actions);
      q in later.runs && later.runs[q].DeleteTx? && later.runs[q].id == s.runs[r].id && Enabled(lib, later, Step(q, u))
    ensures var later := After(lib, Next(lib, s, Step(r, t)), actions);
      Next(lib, later, Step(q, u)) == Drop(later, q)
  {
    hide Lawful, Reachable, Inv, Legal, After, Seals, InsertOutbox, TraceOnly;
    ReachableHasInv(lib, s);
    DeleteTxFacts(lib, s, r);
    NextKeeps(lib, s, Step(r, t));
    ExecutionEvolves(lib, Next(lib, s, Step(r, t)), actions);
  }

  // ---------------------------------------------------------------- publishing

  /** At least once: an outbox row marked published has its event in the topic of its kind. */
  lemma PublishedAtLeastOnce(lib: Libraries, s: State, k: nat)
    requires Lawful(lib) && Reachable(lib, s) && k in s.outbox && s.outbox[k].published
    ensures s.outbox[k].kind == OUTBOX_UPLOAD ==>
      exists i :: 0 <= i < |s.uploads| && Carries(lib, s.outbox[k].payload, s.uploads[i])
    ensures s.outbox[k].kind == OUTBOX_DELETE ==>
      exists i :: 0 <= i < |s.deletes| && CarriesDelete(lib, s.outbox[k].payload, s.deletes[i])
  {
    hide Lawful, Reachable;
    ReachableHasInv(lib, s);
    hide TablesOk, StoreOk, RunsOk, UploadsOk, DeletesOk, UploadsApart, Carries, CarriesDelete;
  }

  lemma AttemptTopics(lib: Libraries, s: State, r: RunId, t: Turn)
    requires r in s.runs && s.runs[r].FlushPublish? && s.runs[r].items != [] && Sendable(lib, s.runs[r].items[0])
    ensures var w := StepFlushPublish(lib, s, r, t); var sent := Publish(lib, s, s.runs[r].items[0], t.trace);
      && (!t.Lands() ==> w.uploads == s.uploads && w.deletes == s.deletes)
      && (t.Lands() ==> w.uploads == sent.uploads && w.deletes == sent.deletes)
      && sent.outbox == s.outbox && w.outbox == s.outbox
  {
    hide Sendable, UploadMessage, DeleteMessage;
  }

  /** An attempt that reaches the broker appends exactly one message, with the item's event, to the topic of its kind;
      one that does not reach it appends nothing. */
  lemma PublishAppendsOne(lib: Libraries, s: State, r: RunId, t: Turn)
    requires Lawful(lib) && Reachable(lib, s) && r in s.runs && s.runs[r].FlushPublish? && Enabled(lib, s, Step(r, t))
    ensures s.runs[r].items != []
    ensures var item := s.runs[r].items[0]; var next := Next(lib, s, Step(r, t));
      && next.outbox == s.outbox
      && (!t.Lands() ==> next.uploads == s.uploads && next.deletes == s.deletes)
      && (t.Lands() && item.kind == "upload" ==>
            next.deletes == s.deletes
            && exists msg: Message :: next.uploads == s.uploads + [msg] && Carries(lib, item.payload, msg))
      && (t.Lands() && item.kind != "upload" ==>
            next.uploads == s.uploads
            && exists msg: Message :: next.deletes == s.deletes + [msg] && CarriesDelete(lib, item.payload, msg))
  {
    hide Lawful, Reachable, Inv, UploadMessage, DeleteMessage, Carries, CarriesDelete, UploadMessageOk, DeleteMessageOk,
      StepFlushPublish, TraceOnly, UploadEntryOf, DeleteEntryOf, IdOfEvent;
    ReachableHasInv(lib, s);
    FlushFacts(lib, s, r);
    var item := s.runs[r].items[0];
    EntryIsKnown(lib, s, item);
    if item.kind == OUTBOX_UPLOAD {
      UploadMessageOfItem(lib, s, item, t.trace);
    } else {
      DeleteMessageOfItem(lib, s, item, t.trace);
    }
    AttemptTopics(lib, s, r, t);
  }

  /** An item that cannot be decoded, of which reachable states have none, is never sent: its attempts run out, or are
      cancelled, and the flush goes on to the next item. */
  lemma UndecodableIsPassedOver(lib: Libraries, s: State, r: RunId, t: Turn)
    requires r in s.runs && s.runs[r].FlushPublish? && s.runs[r].items != []
    requires var item := s.runs[r].items[0];
      && !(item.kind == "upload" && lib.readUpload(item.payload).Some?)
      && !(item.kind == "delete" && lib.readDelete(item.payload).Some?)
    ensures var run := s.runs[r]; var w := StepOf(lib, s, r, t);
      && w.uploads == s.uploads && w.deletes == s.deletes && w.outbox == s.outbox
      && (if run.attempt < 2 && !t.cancel then r in w.runs && w.runs[r] == FlushPublish(run.items, run.attempt + 1)
          else if |run.items| == 1 then r !in w.runs
          else r in w.runs && w.runs[r] == FlushPublish(run.items[1..], 0))
  {
    hide Publish;
  }

  /** No phantoms: a message of the upload topic is handled as the event of a committed outbox row, which is the upload
      event of an existing row. */
  lemma NoPhantomUploads(lib: Libraries, s: State, i: nat)
    requires Lawful(lib) && Reachable(lib, s) && i < |s.uploads|
    ensures exists k <- s.outbox.Keys ::
      s.outbox[k].kind == OUTBOX_UPLOAD && Carries(lib, s.outbox[k].payload, s.uploads[i])
    ensures HandleUpload(lib, s.uploads[i]).Ok?
    ensures var ev := HandleUpload(lib, s.uploads[i]).value;
      && ev.avatarId in s.rows && s.uploads[i].key == ev.avatarId
      && ev.eventId == "upload:" + ev.avatarId
      && ev.user == s.rows[ev.avatarId].user && ev.key == s.rows[ev.avatarId].key
  {
    hide Reachable, Inv, HandleUpload, UploadEventId;
    ReachableHasInv(lib, s);
    UploadMessageFacts(lib, s, i);
    var ev := HandleUpload(lib, s.uploads[i]).value;
    EntriesAre(lib, ev.avatarId, s.rows[ev.avatarId], []);
    UploadEventStored(lib, s, ev);
    var k :| k in s.outbox && s.outbox[k].kind == OUTBOX_UPLOAD && s.outbox[k].payload == lib.writeUpload(ev);
    assert lib.readUpload(lib.writeUpload(ev)) == Some(ev);
    assert Carries(lib, s.outbox[k].payload, s.uploads[i]);
  }

  lemma UploadEventStored(lib: Libraries, s: State, ev: UploadEvent)
    requires Inv(lib, s) && EventOk(s.rows, ev)
    ensures exists k <- s.outbox.Keys :: s.outbox[k].kind == OUTBOX_UPLOAD && s.outbox[k].payload == lib.writeUpload(ev)
  {
    hide StoreOk, TopicsOk, RunsOk, UploadsApart, RowsOk, EventsUnique, KeysOk;
    var id: AvatarId := ev.avatarId;
    EventIdsReadBack(id, id);
    hide UploadEventId, DeleteEventId, IdOfEvent;
    assert HasEvent(s.outbox, UploadEventId(id));
    var k :| k in s.outbox && s.outbox[k].eventId == UploadEventId(id);
    assert UploadEntry(lib, s.rows, id, s.outbox[k]);
  }

  /** A message of the delete topic is handled as the event of a committed outbox row of a soft-deleted avatar. */
  lemma NoPhantomDeletes(lib: Libraries, s: State, i: nat)
    requires Lawful(lib) && Reachable(lib, s) && i < |s.deletes|
    ensures exists k <- s.outbox.Keys ::
      s.outbox[k].kind == OUTBOX_DELETE && CarriesDelete(lib, s.outbox[k].payload, s.deletes[i])
    ensures HandleDelete(lib, s.deletes[i]).Ok?
    ensures var ev := HandleDelete(lib, s.deletes[i]).value;
      && ev.avatarId in s.rows && !s.rows[ev.avatarId].Live() && s.deletes[i].key == ev.avatarId
      && ev.eventId == "delete:" + ev.avatarId
      && KeysOk(ev.avatarId, s.rows[ev.avatarId], ev.keys)
  {
    hide Reachable, Inv, HandleDelete, KeysOk, DeleteEventId, IdOfEvent;
    ReachableHasInv(lib, s);
    DeleteMessageHeld(lib, s, i);
    var ev := HandleDelete(lib, s.deletes[i]).value;
    var k :| k in s.outbox && s.outbox[k].kind == OUTBOX_DELETE && s.outbox[k].payload == lib.writeDelete(ev);
    assert lib.readDelete(lib.writeDelete(ev)) == Some(ev);
    assert CarriesDelete(lib, s.outbox[k].payload, s.deletes[i]);
    EntryOfItem(lib, s, OutboxItem(k, OUTBOX_DELETE, s.outbox[k].payload));
    var id := IdOfEvent(s.outbox[k].eventId);
    assert lib.readDelete(lib.writeDelete(DeleteEventOf(id, ev.keys))) == Some(DeleteEventOf(id, ev.keys));
    EntriesAre(lib, id, s.rows[id], ev.keys);
  }

  lemma DeleteMessageHeld(lib: Libraries, s: State, i: nat)
    requires Inv(lib, s) && i < |s.deletes|
    ensures DeleteMessageOk(lib, s.rows, s.outbox, s.deletes[i])
  {
    hide DeleteMessageOk, TablesOk, StoreOk, RunsOk;
  }
}
