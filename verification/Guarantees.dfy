/** What the invariant means for a caller, in every reachable state and over every execution. */
module Guarantees {
  import opened Text
  import opened Errors
  import opened Domain
  import opened Images
  import opened Headers
  import opened Protocol
  import opened Invariant
  import opened Effects
  import opened Commits
  import opened Steps

  ghost predicate Reachable(lib: Libraries, s: State) {
    exists actions: seq<Action> :: Legal(lib, INIT, actions) && After(lib, INIT, actions) == s
  }

  lemma ReachableHasInv(lib: Libraries, s: State)
    requires Lawful(lib) && Reachable(lib, s)
    ensures Inv(lib, s)
  {
    hide Inv, Lawful, Legal, After;
    var actions: seq<Action> :| Legal(lib, INIT, actions) && After(lib, INIT, actions) == s;
    InitHolds(lib);
    ExecutionKeeps(lib, INIT, actions);
  }

  // ---------------------------------------------------------------- how the world evolves

  /** Rows only move forward, outbox entries keep their event, topics only grow, history is kept. */
  ghost predicate Evolves(v: State, w: State) {
    && RowsKeep(v.rows, w.rows) && OutboxKeeps(v.outbox, w.outbox)
    && v.uploads <= w.uploads && v.deletes <= w.deletes
    && v.used <= w.used && v.cleaned <= w.cleaned && v.sealed <= w.sealed && v.now <= w.now
  }

  lemma EvolvesTransitively(u: State, v: State, w: State)
    requires Evolves(u, v) && Evolves(v, w)
    ensures Evolves(u, w)
  {
    assert forall id <- u.rows.Keys :: RowKeeps(u.rows[id], v.rows[id]) && RowKeeps(v.rows[id], w.rows[id]);
  }

  lemma SameTables(v: State, w: State)
    requires w.rows == v.rows && w.outbox == v.outbox && w.sealed == v.sealed
    requires v.used <= w.used && v.cleaned <= w.cleaned && v.now <= w.now && v.uploads <= w.uploads
    requires v.deletes <= w.deletes
    ensures Evolves(v, w)
  {
  }

  lemma {:induction false} NextJobIsLocal(lib: Libraries, s: State, r: RunId, events: seq<UploadEvent>)
    ensures NextJob(lib, s, r, events) == s.(runs := NextJob(lib, s, r, events).runs)
    decreases |events|
  {
    if events != [] && lib.parseUuid(events[0].avatarId).None? {
      NextJobIsLocal(lib, s, r, events[1..]);
    }
  }

  /** Neither transaction ever meets its own event id in the outbox: the insert appends, and never overwrites. */
  lemma InsertsAppend(lib: Libraries, s: State, id: AvatarId, serial: nat, entry: OutboxRow)
    requires Inv(lib, s) && serial !in s.outbox && !entry.published
    requires || (id !in s.rows && entry.eventId == UploadEventId(id))
             || (id in s.rows && s.rows[id].Live() && entry.eventId == DeleteEventId(id))
    ensures !HasEvent(s.outbox, entry.eventId)
    ensures InsertOutbox(s.outbox, serial, entry.eventId, entry.kind, entry.payload) == s.outbox[serial := entry]
    ensures OutboxKeeps(s.outbox, s.outbox[serial := entry])
  {
    hide StoreOk, TopicsOk, RunsOk, InsertOutbox, UploadEventId, DeleteEventId, OutboxOk, EventsUnique, EventsComplete,
      RowsOk, HasEvent;
    NoConflict(lib, s.rows, s.outbox, id);
    InsertFresh(s.outbox, serial, entry);
  }

  lemma CreateEvolves(lib: Libraries, s: State, r: RunId, t: Turn)
    requires Inv(lib, s) && r in s.runs && s.runs[r].UploadCreate? && t.serial !in s.outbox
    ensures Evolves(s, StepUploadCreate(lib, s, r, t))
  {
    hide Inv, InsertOutbox, UploadEventId, OutboxKeeps;
    var run := s.runs[r];
    OutboxKeepsSelf(s.outbox);
    if run.id !in s.rows {
      InsertsAppend(lib, s, run.id, t.serial, UploadEntryOf(lib, run.id, run.row));
    }
  }

  lemma DeleteEvolves(lib: Libraries, s: State, r: RunId, t: Turn)
    requires Inv(lib, s) && r in s.runs && s.runs[r].DeleteTx? && t.serial !in s.outbox
    ensures Evolves(s, StepDeleteTx(lib, s, r, t))
  {
    hide Inv, InsertOutbox, DeleteEventId, Seals, OutboxKeeps;
    var run := s.runs[r];
    OutboxKeepsSelf(s.outbox);
    if run.id in s.rows && s.rows[run.id].Live() {
      InsertsAppend(lib, s, run.id, t.serial, DeleteEntryOf(lib, run.id, run.keys));
    }
  }

  lemma OutboxKeepsSelf(outbox: map<nat, OutboxRow>)
    ensures OutboxKeeps(outbox, outbox)
  {
  }

  lemma MarkKeepsEntriesOf(outbox: map<nat, OutboxRow>, oid: nat)
    ensures OutboxKeeps(outbox, MarkPublished(outbox, oid))
  {
  }

  lemma PublishIsLocal(lib: Libraries, s: State, item: OutboxItem, trace: seq<Header>)
    requires Sendable(lib, item)
    ensures Evolves(s, Publish(lib, s, item, trace))
  {
    hide UploadMessage, DeleteMessage;
    SameTables(s, Publish(lib, s, item, trace));
  }

  lemma RunsAreNotTables(v: State, w: State, x: State)
    requires Evolves(v, w) && x == w.(runs := x.runs)
    ensures Evolves(v, x)
  {
    hide RowsKeep, OutboxKeeps;
  }

  lemma PublishEvolves(lib: Libraries, s: State, r: RunId, t: Turn)
    requires r in s.runs && s.runs[r].FlushPublish?
    ensures Evolves(s, StepFlushPublish(lib, s, r, t))
  {
    hide Evolves, Sendable, Publish;
    SameTables(s, s);
    var items := s.runs[r].items;
    if items != [] && Sendable(lib, items[0]) && t.Lands() {
      PublishIsLocal(lib, s, items[0], t.trace);
      RunsAreNotTables(s, Publish(lib, s, items[0], t.trace), StepFlushPublish(lib, s, r, t));
    } else {
      RunsAreNotTables(s, s, StepFlushPublish(lib, s, r, t));
    }
  }

  lemma MarkEvolves(s: State, r: RunId, t: Turn)
    requires r in s.runs && s.runs[r].FlushMark?
    ensures Evolves(s, StepFlushMark(s, r, t))
  {
    hide OutboxKeeps, MarkPublished, RowKeeps;
    OutboxKeepsSelf(s.outbox);
    RowsKeepSelf(s.rows);
    if s.runs[r].items != [] {
      MarkKeepsEntriesOf(s.outbox, s.runs[r].items[0].oid);
    }
  }

  /** A step that moves one row forward and then ends the call. */
  lemma RowStepEvolves(lib: Libraries, s: State, r: RunId, id: AvatarId, row: Row, rest: seq<UploadEvent>)
    requires id in s.rows && RowKeeps(s.rows[id], row)
    ensures Evolves(s, NextJob(lib, s.(rows := s.rows[id := row]), r, rest))
    ensures Evolves(s, NextJob(lib, s, r, rest))
  {
    hide NextJob, OutboxKeeps;
    OutboxKeepsSelf(s.outbox);
    NextJobIsLocal(lib, s, r, rest);
    NextJobIsLocal(lib, s.(rows := s.rows[id := row]), r, rest);
  }

  lemma ClaimEvolves(lib: Libraries, s: State, r: RunId, t: Turn)
    requires Inv(lib, s) && r in s.runs && (s.runs[r].ProcClaim? || s.runs[r].ProcFail?)
    ensures Evolves(s, StepOf(lib, s, r, t))
  {
    hide Inv, NextJob, Evolves, RowOk, UploadEventId;
    JobFacts(lib, s, r);
    var job := s.runs[r].job;
    var row := s.rows[job.id];
    var next := if s.runs[r].ProcClaim? then Claimed(row, s.now) else row.(status := Failed, updated := s.now);
    if row.Live() {
      RowStepEvolves(lib, s, r, job.id, next, job.rest);
      if s.runs[r].ProcClaim? {
        var w := s.(rows := s.rows[job.id := next]);
        NextJobIsLocal(lib, w, r, job.rest);
        RunsAreNotTables(s, NextJob(lib, w, r, job.rest), Goto(w, r, ProcGet(job, s.now)));
      }
    } else {
      RowStepEvolves(lib, s, r, job.id, row, job.rest);
    }
  }

  lemma CompleteEvolves(lib: Libraries, s: State, r: RunId, t: Turn)
    requires Inv(lib, s) && r in s.runs && s.runs[r].ProcComplete?
    ensures Evolves(s, StepProcComplete(lib, s, r, t))
  {
    hide Inv, NextJob, Evolves, RowOk, UploadEventId, ThumbKey, ThumbPresent;
    JobFacts(lib, s, r);
    CompleteFacts(lib, s, r);
    var job := s.runs[r].job;
    ThumbsAreCanonical(lib, s, job.id);
    var row := s.rows[job.id];
    var after := if row.Live() then Finished(row, s.runs[r].info, s.runs[r].thumbs, s.now) else row;
    RowStepEvolves(lib, s, r, job.id, after, job.rest);
  }

  lemma ThumbsAreCanonical(lib: Libraries, s: State, id: AvatarId)
    requires Inv(lib, s) && id in s.rows
    ensures s.rows[id].thumbs == map[] || s.rows[id].thumbs == Canonical(id, s.rows[id].mime)
  {
  }

  lemma GoCleanEvolves(s: State, r: RunId, bucket: map<string, Object>, id: string, rest: seq<string>)
    ensures Evolves(s, GoClean(s.(bucket := bucket), r, id, rest)) && Evolves(s, Drop(s.(bucket := bucket), r))
  {
    hide Evolves;
    SameTables(s, GoClean(s.(bucket := bucket), r, id, rest));
    SameTables(s, Drop(s.(bucket := bucket), r));
  }

  lemma CleanEvolves(s: State, r: RunId, t: Turn)
    requires r in s.runs && s.runs[r].Clean?
    ensures Evolves(s, StepClean(s, r, t))
  {
    hide TrimSpace, Evolves, GoClean, Drop;
    var keys := s.runs[r].keys;
    assert s.(bucket := s.bucket) == s;
    if keys == [] {
      GoCleanEvolves(s, r, s.bucket, s.runs[r].avatar, []);
    } else {
      GoCleanEvolves(s, r, s.bucket, s.runs[r].avatar, keys[1..]);
      GoCleanEvolves(s, r, RemoveKey(s.bucket, TrimSpace(keys[0])), s.runs[r].avatar, keys[1..]);
    }
  }

  lemma UploadObjectEvolves(lib: Libraries, s: State, r: RunId, t: Turn)
    requires r in s.runs && (s.runs[r].UploadPut? || s.runs[r].UploadUndo?)
    ensures Evolves(s, StepOf(lib, s, r, t))
  {
    hide TrimSpace, Evolves;
    SameTables(s, StepOf(lib, s, r, t));
  }

  lemma EdgeStepsEvolve(lib: Libraries, s: State, r: RunId, t: Turn)
    requires r in s.runs
    requires s.runs[r].UploadPut? || s.runs[r].UploadUndo? || s.runs[r].UploadGauge? || s.runs[r].DeleteGauge?
      || s.runs[r].Clean?
    ensures Evolves(s, StepOf(lib, s, r, t))
  {
    hide Evolves, StepClean, StepUploadPut, StepUploadUndo;
    if s.runs[r].Clean? {
      CleanEvolves(s, r, t);
    } else if s.runs[r].UploadPut? || s.runs[r].UploadUndo? {
      UploadObjectEvolves(lib, s, r, t);
    } else {
      SameTables(s, StepGauge(s, r));
    }
  }

  lemma ReadStepsEvolve(lib: Libraries, s: State, r: RunId, t: Turn)
    requires r in s.runs
    requires s.runs[r].DeleteRead? || s.runs[r].FlushList? || s.runs[r].RecoverList? || s.runs[r].ProcRead?
    ensures Evolves(s, StepOf(lib, s, r, t))
  {
    hide NextJob, ListUnpublished, DeleteKeys, IsOrdering, IsStuckListing, Evolves, StepRecoverList;
    if s.runs[r].RecoverList? {
      RecoverListEvolves(lib, s, r, t);
    } else {
      if s.runs[r].ProcRead? {
        NextJobIsLocal(lib, s, r, s.runs[r].job.rest);
      }
      SameTables(s, StepOf(lib, s, r, t));
    }
  }

  lemma RecoverListEvolves(lib: Libraries, s: State, r: RunId, t: Turn)
    ensures Evolves(s, StepRecoverList(lib, s, r, t))
  {
    hide NextJob, Evolves;
    if t.ok && IsStuckListing(s.rows, s.now, STUCK_LIMIT, t.stuck) {
      NextJobIsLocal(lib, s, r,
        seq(|t.stuck|, i requires 0 <= i < |t.stuck| => UploadEventOf(t.stuck[i], s.rows[t.stuck[i]])));
    }
    SameTables(s, StepRecoverList(lib, s, r, t));
  }

  lemma GetEvolves(lib: Libraries, s: State, r: RunId, t: Turn)
    requires r in s.runs && s.runs[r].ProcGet?
    ensures Evolves(s, StepProcGet(lib, s, r, t))
  {
    hide Inspect, Evolves;
    SameTables(s, StepProcGet(lib, s, r, t));
  }

  lemma PutEvolves(lib: Libraries, s: State, r: RunId, t: Turn)
    requires r in s.runs && s.runs[r].ProcThumb?
    ensures Evolves(s, StepProcThumb(lib, s, r, t))
  {
    hide Thumbnail, ThumbnailObjectKey, ExtForMime, Evolves;
    SameTables(s, StepProcThumb(lib, s, r, t));
  }

  lemma ImageStepsEvolve(lib: Libraries, s: State, r: RunId, t: Turn)
    requires r in s.runs && s.runs[r].MayPut()
    ensures Evolves(s, StepOf(lib, s, r, t))
  {
    hide StepProcGet, StepProcThumb, Evolves;
    if s.runs[r].ProcGet? {
      GetEvolves(lib, s, r, t);
    } else {
      PutEvolves(lib, s, r, t);
    }
  }

  lemma NextEvolves(lib: Libraries, s: State, a: Action)
    requires Inv(lib, s) && Enabled(lib, s, a)
    ensures Evolves(s, Next(lib, s, a))
  {
    hide Inv, Evolves, NextJob, HandleUpload, HandleDelete, NewRow, Inspect, StepUploadPut, StepUploadCreate,
      StepUploadUndo, StepGauge, StepDeleteRead, StepDeleteTx, StepFlushList, StepFlushPublish, StepFlushMark,
      StepRecoverList, StepProcRead, StepProcClaim, StepProcGet, StepProcThumb, StepProcComplete, StepProcFail,
      StepClean, TraceOnly;
    if a.Step? {
      var run := s.runs[a.r];
      if run.UploadCreate? {
        CreateEvolves(lib, s, a.r, a.t);
      } else if run.DeleteTx? {
        DeleteEvolves(lib, s, a.r, a.t);
      } else if run.FlushPublish? {
        PublishEvolves(lib, s, a.r, a.t);
      } else if run.FlushMark? {
        MarkEvolves(s, a.r, a.t);
      } else if run.ProcClaim? || run.ProcFail? {
        ClaimEvolves(lib, s, a.r, a.t);
      } else if run.ProcComplete? {
        CompleteEvolves(lib, s, a.r, a.t);
      } else if run.MayPut() {
        ImageStepsEvolve(lib, s, a.r, a.t);
      } else if run.DeleteRead? || run.FlushList? || run.RecoverList? || run.ProcRead? {
        ReadStepsEvolve(lib, s, a.r, a.t);
      } else {
        EdgeStepsEvolve(lib, s, a.r, a.t);
      }
    } else {
      if a.DeliverUpload? && HandleUpload(lib, s.uploads[a.offset]).Ok? {
        NextJobIsLocal(lib, s, a.r, [HandleUpload(lib, s.uploads[a.offset]).value]);
      }
      SameTables(s, Next(lib, s, a));
    }
  }

  /** Over any execution a row's user, type, size, dimensions and key never change, a thumbnail map once filled stays as
      it is, a soft-deleted row is frozen, outbox events keep their payload, and nothing leaves a topic. */
  lemma {:induction false} ExecutionEvolves(lib: Libraries, s: State, actions: seq<Action>)
    requires Lawful(lib) && Inv(lib, s) && Legal(lib, s, actions)
    ensures Evolves(s, After(lib, s, actions))
    decreases |actions|
  {
    hide Inv, Lawful, Next, Enabled;
    if actions != [] {
      var next := Next(lib, s, actions[0]);
      NextEvolves(lib, s, actions[0]);
      NextKeeps(lib, s, actions[0]);
      ExecutionEvolves(lib, next, actions[1..]);
      hide Evolves, After, Legal;
      EvolvesTransitively(s, next, After(lib, next, actions[1..]));
      AfterUnfolds(lib, s, actions);
    } else {
      SameTables(s, s);
    }
  }

  lemma AfterUnfolds(lib: Libraries, s: State, actions: seq<Action>)
    requires Legal(lib, s, actions) && actions != []
    ensures Legal(lib, Next(lib, s, actions[0]), actions[1..])
    ensures After(lib, s, actions) == After(lib, Next(lib, s, actions[0]), actions[1..])
  {
  }

  lemma OneStep(lib: Libraries, s: State, a: Action)
    requires Enabled(lib, s, a)
    ensures Legal(lib, s, [a]) && After(lib, s, [a]) == Next(lib, s, a)
  {
    hide Next, Enabled;
    assert [a][1..] == [];
  }

  lemma ThenStep(lib: Libraries, s: State, a: Action, rest: seq<Action>)
    requires Enabled(lib, s, a) && Legal(lib, Next(lib, s, a), rest)
    ensures Legal(lib, s, [a] + rest) && After(lib, s, [a] + rest) == After(lib, Next(lib, s, a), rest)
  {
    hide Next, Enabled;
    assert ([a] + rest)[1..] == rest;
  }

  lemma {:induction false} AfterConcat(lib: Libraries, s: State, a: seq<Action>, b: seq<Action>)
    requires Legal(lib, s, a) && Legal(lib, After(lib, s, a), b)
    ensures Legal(lib, s, a + b) && After(lib, s, a + b) == After(lib, After(lib, s, a), b)
    decreases |a|
  {
    hide Next, Enabled;
    if a == [] {
      assert a + b == b;
    } else {
      AfterConcat(lib, Next(lib, s, a[0]), a[1..], b);
      assert (a + b)[1..] == a[1..] + b;
    }
  }

  lemma StepIsReachable(lib: Libraries, s: State, a: Action)
    requires Reachable(lib, s) && Enabled(lib, s, a)
    ensures Reachable(lib, Next(lib, s, a))
  {
    hide Next, Enabled;
    OneStep(lib, s, a);
    MoreIsReachable(lib, s, [a]);
  }

  lemma MoreIsReachable(lib: Libraries, s: State, actions: seq<Action>)
    requires Reachable(lib, s) && Legal(lib, s, actions)
    ensures Reachable(lib, After(lib, s, actions))
  {
    hide Legal, After;
    var before: seq<Action> :| Legal(lib, INIT, before) && After(lib, INIT, before) == s;
    AfterConcat(lib, INIT, before, actions);
    assert Legal(lib, INIT, before + actions);
  }

  lemma AfterNothing(lib: Libraries, s: State)
    ensures Legal(lib, s, []) && After(lib, s, []) == s
  {
  }

  // ---------------------------------------------------------------- storage

  /** Every live row's original is in the bucket under the row's key, with the row's size and type; it begins as a file
      of that type does, and its header gives the row's width and height. Every thumbnail key the row lists is in the
      bucket with the same type. */
  lemma StorageGuarantee(lib: Libraries, s: State, id: AvatarId)
    requires Lawful(lib) && Reachable(lib, s) && id in s.rows && s.rows[id].Live()
    ensures var row := s.rows[id];
      && row.key == OriginalObjectKey(row.user, id, ExtForMime(row.mime))
      && row.key in s.bucket && s.bucket[row.key].mime == row.mime && |s.bucket[row.key].data| == row.size
      && Inspect(lib, s.bucket[row.key].data) == Ok(Info(row.mime, ExtForMime(row.mime), row.width, row.height))
    ensures var row := s.rows[id];
      && Signed(s.bucket[row.key].data, row.mime)
      && lib.decodeConfig(s.bucket[row.key].data) == Some((row.width, row.height))
      && 0 < row.width && 0 < row.height && row.width * row.height <= 20_000_000
      && row.key == "originals/" + row.user + "/" + id +
                    (if row.mime == "image/jpeg" then ".jpg" else if row.mime == "image/png" then ".png" else ".webp")
    ensures var row := s.rows[id];
      forall size <- row.thumbs.Keys :: row.thumbs[size] in s.bucket && s.bucket[row.thumbs[size]].mime == row.mime
  {
    hide Lawful, Reachable, Inv, Inspect, Locate, OriginalObjectKey, ThumbKey, RowOk, ExtForMime;
    ReachableHasInv(lib, s);
    KeyOfRow(lib, s, id);
    LiveHolds(lib, s, id);
    StoredIsFaithful(lib, s, id);
    InspectedIsSupported(lib, s.bucket[s.rows[id].key].data);
    OriginalNamed(s.rows[id].user, id, s.rows[id].mime);
    ThumbsAreCanonical(lib, s, id);
    if s.rows[id].thumbs != map[] {
      ThumbMime(lib, s, id, SIZE_100);
      ThumbMime(lib, s, id, SIZE_300);
    }
  }

  lemma OriginalNamed(user: string, id: AvatarId, mime: string)
    requires mime in MIMES
    ensures OriginalObjectKey(user, id, ExtForMime(mime)) ==
      "originals/" + user + "/" + id +
      (if mime == "image/jpeg" then ".jpg" else if mime == "image/png" then ".png" else ".webp")
  {
  }

  lemma KeyOfRow(lib: Libraries, s: State, id: AvatarId)
    requires Inv(lib, s) && id in s.rows
    ensures s.rows[id].key == OriginalObjectKey(s.rows[id].user, id, ExtForMime(s.rows[id].mime))
  {
    hide Inv, Locate, OriginalObjectKey;
    RowHolds(lib, s, id);
    LocatedKeyIsBuilt(s.rows[id].key);
  }

  lemma LiveHolds(lib: Libraries, s: State, id: AvatarId)
    requires Inv(lib, s) && id in s.rows && s.rows[id].Live()
    ensures s.rows[id].key in s.bucket
    ensures s.rows[id].thumbs != map[] ==>
      ThumbPresent(s.bucket, id, SIZE_100, s.rows[id].mime) && ThumbPresent(s.bucket, id, SIZE_300, s.rows[id].mime)
  {
    hide TablesOk, TopicsOk, RunsOk, BucketOk, SealedOk, CleanedOk, ThumbPresent;
  }

  lemma ThumbMime(lib: Libraries, s: State, id: AvatarId, size: string)
    requires Inv(lib, s) && id in s.rows && ThumbPresent(s.bucket, id, size, s.rows[id].mime)
    ensures s.bucket[ThumbKey(id, size, s.rows[id].mime)].mime == s.rows[id].mime
  {
    RowHolds(lib, s, id);
    var key := ThumbKey(id, size, s.rows[id].mime);
    ThumbLocated(id, size, s.rows[id].mime);
    hide TablesOk, TopicsOk, RunsOk, LiveOk, SealedOk, CleanedOk, Inspect, Locate, ThumbKey;
    assert ObjectOk(lib, s.rows, s.used, key, s.bucket[key]);
  }

  /** Any number and interleaving of processing runs converge: a row's thumbnail map is empty or the one canonical map
      of its id and type, `completed` implies the canonical map, and later states only move as `RowKeeps` allows. */
  lemma Convergence(lib: Libraries, s: State, id: AvatarId, actions: seq<Action>)
    requires Lawful(lib) && Reachable(lib, s) && id in s.rows && Legal(lib, s, actions)
    ensures var later := After(lib, s, actions);
      && id in later.rows && RowKeeps(s.rows[id], later.rows[id])
      && (later.rows[id].thumbs == map[] || later.rows[id].thumbs == Canonical(id, s.rows[id].mime))
      && (later.rows[id].status == Completed ==> later.rows[id].thumbs == Canonical(id, s.rows[id].mime))
  {
    hide Lawful, Reachable, Inv, Legal, After, Canonical, Locate;
    ReachableHasInv(lib, s);
    ExecutionEvolves(lib, s, actions);
    ExecutionKeeps(lib, s, actions);
    RowHolds(lib, After(lib, s, actions), id);
  }
}
