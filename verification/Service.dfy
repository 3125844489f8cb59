/** Upload, Delete and the two message handlers, as runs of the protocol. */
module Service {
  import opened Text
  import opened Errors
  import opened Domain
  import opened Images
  import opened Headers
  import opened Protocol
  import opened Invariant
  import opened Effects
  import opened Commits
  import opened Steps
  import opened Guarantees
  import opened Outbox
  import opened Processings
  import opened Undisturbed
  import opened Deployments
  import opened Outcomes
  import opened Process
  import opened RecoverCalls
  import opened Validate

  // ---------------------------------------------------------------- upload

  /** The row is the caller's, for these bytes: their number, the type they begin as, the sides their header gives, and
      the key named after all this. */
  ghost predicate UploadedAs(lib: Libraries, s: State, id: AvatarId, user: string, data: Bytes) {
    && id in s.rows
    && var row := s.rows[id];
       && row.user == user && row.size == |data| && Signed(data, row.mime)
       && lib.decodeConfig(data) == Some((row.width, row.height))
       && row.key == "originals/" + user + "/" + id +
                     (if row.mime == "image/jpeg" then ".jpg" else if row.mime == "image/png" then ".png" else ".webp")
  }

  lemma PutStep(lib: Libraries, s: State, me: RunId, t: Turn, proc: ProcessId, id: AvatarId, row: Row, data: Bytes)
    requires Inv(lib, s) && me in s.runs && s.runs[me] == UploadPut(proc, id, row, data) && Enabled(lib, s, Step(me, t))
    ensures var w := Next(lib, s, Step(me, t));
      && id !in w.rows && w.rows == s.rows && (t.ok ==> w.bucket == s.bucket[row.key := Object(data, row.mime)])
      && if t.ok then me in w.runs && w.runs[me] == UploadCreate(proc, id, row) else me !in w.runs
  {
    RunFacts(lib, s);
    hide Inv, TraceOnly, IsOriginal, Owner, Faithful, NewRowOk;
  }

  lemma CreateStep(lib: Libraries, s: State, me: RunId, t: Turn, proc: ProcessId, id: AvatarId, row: Row)
    requires Inv(lib, s) && me in s.runs && s.runs[me] == UploadCreate(proc, id, row) && Enabled(lib, s, Step(me, t))
    ensures var w := Next(lib, s, Step(me, t));
      && me in w.runs && w.bucket == s.bucket
      && (if t.ok then w.rows == s.rows[id := row] && w.runs[me] == UploadGauge(proc, row.size)
          else id !in w.rows && w.runs[me] == UploadUndo(id, row.key))
  {
    RunFacts(lib, s);
    hide Inv, TraceOnly, IsOriginal, Owner, Faithful, NewRowOk, InsertOutbox, UploadEventId;
  }

  lemma UndoStep(lib: Libraries, s: State, me: RunId, t: Turn, id: AvatarId, key: string)
    requires Inv(lib, s) && me in s.runs && s.runs[me] == UploadUndo(id, key) && Enabled(lib, s, Step(me, t))
    ensures var w := Next(lib, s, Step(me, t)); id !in w.rows && me !in w.runs
  {
    RunFacts(lib, s);
    hide Inv, TraceOnly, IsOriginal, Owner, TrimSpace;
  }

  lemma GaugeStep(lib: Libraries, s: State, me: RunId, t: Turn)
    requires me in s.runs && (s.runs[me].UploadGauge? || s.runs[me].DeleteGauge?) && Enabled(lib, s, Step(me, t))
    ensures var w := Next(lib, s, Step(me, t));
      w.rows == s.rows && w.outbox == s.outbox && w.bucket == s.bucket && me !in w.runs
  {
    hide TraceOnly;
  }

  lemma BeginUploadStep(lib: Libraries, s: State, me: RunId, proc: ProcessId, user: string, data: Bytes, id: AvatarId)
    requires me !in s.runs && id !in s.used && Inspect(lib, data).Ok?
    ensures Enabled(lib, s, BeginUpload(me, proc, user, data, id))
    ensures var w := Next(lib, s, BeginUpload(me, proc, user, data, id));
      && w.rows == s.rows && w.bucket == s.bucket && me in w.runs
      && w.runs[me] == UploadPut(proc, id, NewRow(user, data, id, Inspect(lib, data).value, s.now), data)
  {
    hide Inspect, NewRow;
  }

  lemma StillUploaded(lib: Libraries, v: State, w: State, id: AvatarId, user: string, data: Bytes, now: nat)
    requires Inspect(lib, data).Ok? && id in v.rows
    requires v.rows[id] == NewRow(user, data, id, Inspect(lib, data).value, now)
    requires Evolves(v, w)
    ensures UploadedAs(lib, w, id, user, data)
  {
    hide Inspect, OutboxKeeps, Signed, OriginalObjectKey;
    InspectedIsSupported(lib, data);
    OriginalNamed(user, id, Inspect(lib, data).value.mime);
    assert RowKeeps(v.rows[id], w.rows[id]);
  }

  lemma NewRowIs(user: string, data: Bytes, id: AvatarId, info: Info, now: nat)
    ensures var row := NewRow(user, data, id, info, now);
      && row.status == Pending && row.thumbs == map[] && row.deletedAt == None && row.created == row.updated == now
      && row.user == user && row.mime == info.mime && row.key == OriginalObjectKey(user, id, info.ext)
  {
  }

  /** What is refused before anything happens, in the order of the checks. */
  function Refusal(lib: Libraries, user: string, data: Bytes, maxBytes: nat): Option<Error> {
    if ValidateUserId(user).Some? then ValidateUserId(user)
    else if data == [] then Some(Known(ErrFileRequired))
    else if |data| > maxBytes then Some(Known(ErrFileTooLarge))
    else match Inspect(lib, data)
      case Err(e) => Some(e)
      case Ok(_) => None
  }

  /** Nothing is refused exactly if the user id has 1 to 255 bytes without control characters, and the file is there,
      not too large, begins as one of the three types and has an allowed size. */
  lemma AllowedIff(lib: Libraries, user: string, data: Bytes, maxBytes: nat)
    ensures Refusal(lib, user, data, maxBytes).None? <==>
      && TrimSpace(user) != "" && Utf8Length(TrimSpace(user)) <= 255
      && (forall i :: 0 <= i < |TrimSpace(user)| ==>
            '\U{0020}' <= TrimSpace(user)[i] <= '\U{007E}' || '\U{00A0}' <= TrimSpace(user)[i])
      && 0 < |data| <= maxBytes
      && (Signed(data, "image/jpeg") || Signed(data, "image/png") || Signed(data, "image/webp")) && Sized(lib, data)
  {
    hide ValidateUserId, TrimSpace, Utf8Length, Inspect, Signed, Sized;
    UserIdAcceptedIff(user);
    AcceptedIff(lib, data);
  }

  lemma NotRefused(lib: Libraries, user: string, data: Bytes, maxBytes: nat)
    requires Refusal(lib, user, data, maxBytes).None?
    ensures Inspect(lib, data).Ok?
  {
  }

  /** Upload with a new id. nil means the avatar exists exactly as uploaded; any error means it does not and never was.
      What is not refused succeeds if nothing disturbs it. */
  method Upload(d: Deployment, proc: ProcessId, user: string, data: Bytes, maxBytes: nat, id: AvatarId)
    returns (err: Option<Error>)
    requires d.Valid() && id !in d.st.used
    modifies d
    ensures d.Valid() && Evolves(old(d.st), d.st)
    ensures Refusal(d.lib, user, data, maxBytes).Some? ==>
      err == Refusal(d.lib, user, data, maxBytes) && d.st == old(d.st)
    ensures err.None? ==> UploadedAs(d.lib, d.st, id, user, data)
    ensures err.Some? ==> id !in d.st.rows
    ensures err.None? ==> Refusal(d.lib, user, data, maxBytes).None?
    ensures FreshRun(old(d.st).runs) !in d.st.runs
    ensures d.Calm() && Refusal(d.lib, user, data, maxBytes).None? ==>
      && err.None?
      && var row := NewRow(user, data, id, Inspect(d.lib, data).value, old(d.st.now));
         && d.st.rows == old(d.st.rows)[id := row]
         && row.status == Pending && row.thumbs == map[] && row.deletedAt == None
         && row.created == row.updated == old(d.st.now)
         && d.st.bucket == old(d.st.bucket)[row.key := Object(data, row.mime)]
  {
    hide Inv, Evolves, Lawful, Inspect, Answers, Next, Enabled, UploadedAs, NewRow, ValidateUserId, Runs, Legal, After,
      StateAt;
    d.ValidIsInvariant();
    UnusedHasNoRow(d.lib, d.st, id);
    SameTables(d.st, d.st);
    if Inspect(d.lib, data).Ok? {
      NewRowIs(user, data, id, Inspect(d.lib, data).value, d.st.now);
    }
    var invalid := ValidateUserId(user);
    if invalid.Some? {
      return invalid;
    }
    if data == [] {
      return Some(Known(ErrFileRequired));
    }
    if |data| > maxBytes {
      return Some(Known(ErrFileTooLarge));
    }
    var info := Inspect(d.lib, data);
    if info.Err? {
      return Some(info.error);
    }
    var me := FreshRun(d.st.runs);
    ghost var row := NewRow(user, data, id, info.value, d.st.now);
    ghost var now := d.st.now;
    BeginUploadStep(d.lib, d.st, me, proc, user, data, id);
    d.Begin(BeginUpload(me, proc, user, data, id));
    ghost var begun := d.st;
    var t, s := d.Effect(me);  // objects.Upload
    PutStep(d.lib, s, me, t, proc, id, row, data);
    EvolvesTransitively(old(d.st), begun, s);
    EvolvesTransitively(old(d.st), s, d.st);
    if !t.ok {
      return Some(Foreign("put"));
    }
    ghost var put := d.st;
    t, s := d.Effect(me);  // CreateWithOutbox
    CreateStep(d.lib, s, me, t, proc, id, row);
    EvolvesTransitively(old(d.st), put, s);
    EvolvesTransitively(old(d.st), s, d.st);
    ghost var created := d.st;
    if !t.ok {
      t, s := d.Effect(me);  // the compensating Delete, whose error is ignored
      UndoStep(d.lib, s, me, t, id, row.key);
      EvolvesTransitively(old(d.st), created, s);
      EvolvesTransitively(old(d.st), s, d.st);
      return Some(Foreign("create"));
    }
    t, s := d.Effect(me);  // StorageUsage.Add
    GaugeStep(d.lib, s, me, t);
    EvolvesTransitively(old(d.st), created, s);
    EvolvesTransitively(old(d.st), s, d.st);
    EvolvesTransitively(created, s, d.st);
    StillUploaded(d.lib, created, d.st, id, user, data, now);
    return None;
  }

  lemma UnusedHasNoRow(lib: Libraries, s: State, id: AvatarId)
    requires Inv(lib, s) && id !in s.used
    ensures id !in s.rows
  {
    hide StoreOk, TopicsOk, RunsOk, OutboxOk, EventsUnique, EventsComplete, StampsOk, RowOk;
  }

  // ---------------------------------------------------------------- delete

  lemma ReadForDeleteStep(lib: Libraries, s: State, me: RunId, t: Turn, proc: ProcessId, id: AvatarId, user: string)
    requires me in s.runs && s.runs[me] == DeleteRead(proc, id, user) && Enabled(lib, s, Step(me, t))
    requires Answers(s, s.runs[me], t)
    ensures var w := Next(lib, s, Step(me, t));
      && w.rows == s.rows
      && (if t.ok && id in s.rows && s.rows[id].Live() && s.rows[id].user == user then
            && me in w.runs && w.runs[me].DeleteTx? && w.runs[me].id == id && w.runs[me].user == user
          else me !in w.runs)
  {
    hide TraceOnly, DeleteKeys, IsOrdering;
  }

  lemma DeleteStep(lib: Libraries, s: State, me: RunId, t: Turn)
    requires Inv(lib, s) && me in s.runs && s.runs[me].DeleteTx? && Enabled(lib, s, Step(me, t))
    ensures s.runs[me].id in s.rows && s.rows[s.runs[me].id].user == s.runs[me].user
    ensures var w := Next(lib, s, Step(me, t)); var id := s.runs[me].id;
      if t.ok && s.rows[id].Live() then
        me in w.runs && w.runs[me].DeleteGauge? && w.rows == s.rows[id := Deleted(s.rows[id], s.now)]
      else me !in w.runs && w.rows == s.rows
  {
    hide Inv, TraceOnly, InsertOutbox, DeleteEventId, Seals;
    DeleteTxFacts(lib, s, me);
  }

  lemma BeginDeleteStep(lib: Libraries, s: State, me: RunId, proc: ProcessId, id: AvatarId, user: string)
    requires me !in s.runs
    ensures Enabled(lib, s, BeginDelete(me, proc, id, user))
    ensures var w := Next(lib, s, BeginDelete(me, proc, id, user));
      w.rows == s.rows && me in w.runs && w.runs[me] == DeleteRead(proc, id, user)
  {
  }

  lemma StaysDeleted(v: State, w: State, id: AvatarId)
    requires Evolves(v, w) && id in v.rows && !v.rows[id].Live()
    ensures id in w.rows && w.rows[id] == v.rows[id]
  {
    hide OutboxKeeps;
  }

  lemma InvalidIsNoRefusal(user: string)
    ensures ValidateUserId(user).Some? ==> ValidateUserId(user) == Some(Known(ErrInvalidUserID))
  {
  }

  /** The row as it was, but for the time of its deletion, which is in between. */
  ghost predicate Stamped(before: Row, after: Row, from: nat, to: nat) {
    && after == before.(deletedAt := after.deletedAt, updated := after.updated)
    && after.deletedAt == Some(after.updated) && from <= after.updated <= to
  }

  lemma StampedHere(u: State, s: State, w: State, before: Row)
    requires Evolves(u, s) && Evolves(s, w)
    ensures Stamped(before, Deleted(before, s.now), u.now, w.now)
  {
    hide RowsKeep, OutboxKeeps;
  }

  /** Whether the avatar is the caller's to delete. */
  function DeleteAnswer(rows: map<AvatarId, Row>, id: AvatarId, user: string): Option<Error> {
    if id !in rows || !rows[id].Live() then Some(Known(ErrAvatarNotFound))
    else if rows[id].user != user then Some(Known(ErrForbidden))
    else None
  }

  /** Delete. nil means that this call, and no other, moved the caller's own live row to deleted (`before` is the row as
      it found it); of the two refusals, the one says there is no live avatar and the other that it is someone else's.
      Undisturbed, every call is answered by what it finds. */
  method Delete(d: Deployment, proc: ProcessId, id: AvatarId, user: string)
    returns (err: Option<Error>, ghost before: Option<Row>)
    requires d.Valid()
    modifies d
    ensures d.Valid() && Evolves(old(d.st), d.st)
    ensures err.None? ==>
      && before.Some? && before.value.Live() && before.value.user == user
      && id in d.st.rows && Stamped(before.value, d.st.rows[id], old(d.st.now), d.st.now)
    ensures err == Some(Known(ErrAvatarNotFound)) ==> id in d.st.rows ==> !d.st.rows[id].Live()
    ensures err == Some(Known(ErrForbidden)) ==> id in d.st.rows && d.st.rows[id].Live() && d.st.rows[id].user != user
    ensures ValidateUserId(user).Some? ==> err == ValidateUserId(user) && d.st == old(d.st)
    ensures FreshRun(old(d.st).runs) !in d.st.runs
    ensures d.Calm() && ValidateUserId(user).None? ==>
      && err == DeleteAnswer(old(d.st.rows), id, user)
      && (err.None? ==>
            && id in d.st.rows && d.st.rows == old(d.st.rows)[id := d.st.rows[id]]
            && Stamped(old(d.st.rows)[id], d.st.rows[id], old(d.st.now), d.st.now))
  {
    hide Inv, Evolves, Lawful, Next, Enabled, Answers, ValidateUserId, Runs, Legal, After, StateAt, Stamped, Deleted;
    before := None;
    InvalidIsNoRefusal(user);
    SameTables(d.st, d.st);
    var invalid := ValidateUserId(user);
    if invalid.Some? {
      return invalid, before;
    }
    var me := FreshRun(d.st.runs);
    BeginDeleteStep(d.lib, d.st, me, proc, id, user);
    d.Begin(BeginDelete(me, proc, id, user));
    ghost var begun := d.st;
    var t, s := d.Effect(me);  // GetByID
    ReadForDeleteStep(d.lib, s, me, t, proc, id, user);
    EvolvesTransitively(old(d.st), begun, s);
    EvolvesTransitively(old(d.st), s, d.st);
    if !t.ok {
      return Some(Foreign("get")), before;
    }
    if id !in s.rows || !s.rows[id].Live() {
      return Some(Known(ErrAvatarNotFound)), before;
    }
    if s.rows[id].user != user {
      return Some(Known(ErrForbidden)), before;
    }
    ghost var read := d.st;
    t, s := d.Effect(me);  // SoftDeleteOwnedWithOutbox
    DeleteStep(d.lib, s, me, t);
    EvolvesTransitively(old(d.st), read, s);
    EvolvesTransitively(old(d.st), s, d.st);
    if !t.ok {
      return Some(Foreign("delete")), before;
    }
    if !s.rows[id].Live() {
      return Some(Known(ErrAvatarNotFound)), before;
    }
    before := Some(s.rows[id]);
    ghost var deleting, gone := s, d.st;
    DeletedIsDead(s.rows[id], s.now);
    t, s := d.Effect(me);  // StorageUsage.Sub
    GaugeStep(d.lib, s, me, t);
    EvolvesTransitively(old(d.st), gone, s);
    EvolvesTransitively(old(d.st), s, d.st);
    EvolvesTransitively(gone, s, d.st);
    EvolvesTransitively(deleting, gone, d.st);
    StaysDeleted(gone, d.st, id);
    StampedHere(old(d.st), deleting, d.st, before.value);
    return None, before;
  }

  lemma DeletedIsDead(row: Row, now: nat)
    ensures !Deleted(row, now).Live()
  {
  }

  // ---------------------------------------------------------------- the message handlers

  lemma DeliverDeleteStep(lib: Libraries, s: State, me: RunId, i: nat)
    requires Lawful(lib) && Inv(lib, s) && me !in s.runs && i < |s.deletes|
    ensures Enabled(lib, s, DeliverDelete(me, i)) && HandleDelete(lib, s.deletes[i]).Ok?
    ensures var ev := HandleDelete(lib, s.deletes[i]).value; var w := Next(lib, s, DeliverDelete(me, i));
      ev.keys != [] && me in w.runs && w.runs[me] == Clean(ev.avatarId, ev.keys)
  {
    hide Inv, HandleDelete, Lawful;
    DeleteMessageFacts(lib, s, i);
  }

  lemma CleanStep(lib: Libraries, s: State, me: RunId, t: Turn, id: string, keys: seq<string>)
    requires me in s.runs && s.runs[me] == Clean(id, keys) && keys != [] && Enabled(lib, s, Step(me, t))
    ensures var w := Next(lib, s, Step(me, t)); var key := TrimSpace(keys[0]);
      && (if key == "" || t.ok then
            if keys[1..] == [] then me !in w.runs && id in w.cleaned
            else me in w.runs && w.runs[me] == Clean(id, keys[1..])
          else me !in w.runs)
      && (key != "" && t.ok ==> key !in w.bucket)
      && w.bucket.Keys <= s.bucket.Keys && s.bucket.Keys - w.bucket.Keys <= {key}
  {
    hide TraceOnly, TrimSpace;
  }

  /** handleDelete: decode, then remove the announced objects one at a time, stopping at the first error. nil means the
      avatar counts as cleaned, and stays so; undisturbed, nil is returned. */
  method HandleDeleteMessage(d: Deployment, i: nat) returns (err: bool)
    requires d.Valid() && i < |d.st.deletes|
    modifies d
    ensures d.Valid() && Evolves(old(d.st), d.st) && old(d.log) + [DeliverDelete(FreshRun(old(d.st).runs), i)] <= d.log
    ensures HandleDelete(d.lib, old(d.st).deletes[i]).Ok?
    ensures !err ==> HandleDelete(d.lib, old(d.st).deletes[i]).value.avatarId in d.st.cleaned
    ensures FreshRun(old(d.st).runs) !in d.st.runs
    ensures d.Calm() ==> !err
  {
    hide Inv, Evolves, Lawful, Next, Enabled, Answers, HandleDelete, Runs, Legal, After, StateAt;
    d.ValidIsInvariant();
    var me := FreshRun(d.st.runs);
    DeliverDeleteStep(d.lib, d.st, me, i);
    var ev := HandleDelete(d.lib, d.st.deletes[i]).value;
    d.Begin(DeliverDelete(me, i));
    for j := 0 to |ev.keys|
      invariant d.Valid() && Evolves(old(d.st), d.st) && old(d.log) + [DeliverDelete(me, i)] <= d.log
      invariant if j == |ev.keys| then me !in d.st.runs && ev.avatarId in d.st.cleaned
        else me in d.st.runs && d.st.runs[me] == Clean(ev.avatarId, ev.keys[j..])
    {
      ghost var was := d.st;
      var t, s := d.Effect(me);
      CleanStep(d.lib, s, me, t, ev.avatarId, ev.keys[j..]);
      EvolvesTransitively(old(d.st), was, s);
      EvolvesTransitively(old(d.st), s, d.st);
      assert ev.keys[j..][1..] == ev.keys[j + 1..];
      if TrimSpace(ev.keys[j]) == "" {
        continue;
      }
      if !t.ok {
        return true;
      }
    }
    return false;
  }

  lemma DeliverUploadStep(lib: Libraries, s: State, me: RunId, i: nat)
    requires Lawful(lib) && Inv(lib, s) && me !in s.runs && i < |s.uploads|
    ensures Enabled(lib, s, DeliverUpload(me, i)) && HandleUpload(lib, s.uploads[i]).Ok?
    ensures Awaiting(Next(lib, s, DeliverUpload(me, i)), me, [HandleUpload(lib, s.uploads[i]).value])
    ensures SameStore(s, Next(lib, s, DeliverUpload(me, i)))
    ensures IsUuid(HandleUpload(lib, s.uploads[i]).value.avatarId)
  {
    hide Inv, HandleUpload, NextJob, Awaiting, Lawful, UploadEventId;
    UploadMessageFacts(lib, s, i);
    NextJobAwaits(lib, s, me, [HandleUpload(lib, s.uploads[i]).value]);
  }

  lemma SameStoreResolves(lib: Libraries, u: State, v: State, w: State, id: AvatarId)
    requires SameStore(u, v)
    ensures ResolvedAll(lib, v, w, {id}) ==> ResolvedAll(lib, u, w, {id})
  {
    hide Resolution, OriginalsStay;
  }

  /** handleUpload: decode, then process. nil means the avatar is settled. Undisturbed, a claimable avatar ends
      completed with nil, or failed with an error if its image is hopeless. */
  method HandleUploadMessage(d: Deployment, i: nat) returns (err: bool)
    requires d.Valid() && i < |d.st.uploads|
    modifies d
    ensures d.Valid() && Evolves(old(d.st), d.st) && old(d.log) + [DeliverUpload(FreshRun(old(d.st).runs), i)] <= d.log
    ensures HandleUpload(d.lib, old(d.st).uploads[i]).Ok?
    ensures IsUuid(HandleUpload(d.lib, old(d.st).uploads[i]).value.avatarId)
    ensures !err ==> Settled(d.st.rows, d.st.now, HandleUpload(d.lib, old(d.st).uploads[i]).value.avatarId)
    ensures FreshRun(old(d.st).runs) !in d.st.runs
    ensures var id := HandleUpload(d.lib, old(d.st).uploads[i]).value.avatarId;
      (d.Calm() && id in old(d.st.rows) && Claimable(old(d.st.rows)[id], old(d.st.now))) ==>
        && ResolvedAll(d.lib, old(d.st), d.st, {id}) && old(d.st.rows)[id].key in old(d.st.bucket)
        && (err <==> Hopeless(d.lib, old(d.st.bucket)[old(d.st.rows)[id].key].data, old(d.st.rows)[id].mime))
  {
    hide Inv, Evolves, Lawful, Next, Enabled, Answers, HandleUpload, Settled, Runs, Legal, After, StateAt, Took,
      Answered, Claimable, Hopeless, ResolvedAll;
    d.ValidIsInvariant();
    var me := FreshRun(d.st.runs);
    DeliverUploadStep(d.lib, d.st, me, i);
    d.Begin(DeliverUpload(me, i));
    ghost var begun := d.st;
    ghost var first: nat;
    err, first := ProcessUpload(d, me, d.st.runs[me].job);
    EvolvesTransitively(old(d.st), begun, d.st);
    if d.Calm() {
      SameStoreResolves(d.lib, old(d.st), begun, d.st, HandleUpload(d.lib, old(d.st).uploads[i]).value.avatarId);
    }
  }
}
