/** The statements and transactions of internal/repository/postgres.go, on tables that they update in place. Each method
    does to the tables what the protocol's step of the same name does, and nothing else. */
module Repository {
  import opened Text
  import opened Errors
  import opened Domain
  import opened Images
  import opened Protocol
  import opened Invariant
  import opened Commits
  import opened Guarantees
  import opened Deployments

  datatype Tables = Tables(rows: map<AvatarId, Row>, outbox: map<nat, OutboxRow>)

  datatype NewEvent = NewEvent(eventId: string, kind: string, payload: Json)

  /** A transaction, or a statement that is one by itself, with its arguments. */
  datatype Statement =
    | Create(id: AvatarId, row: Row, ev: NewEvent, serial: nat)
    | SoftDelete(id: AvatarId, user: string, ev: NewEvent, serial: nat, now: nat)
    | Claim(id: AvatarId, now: nat)
    | Complete(id: AvatarId, thumbs: map<string, string>, width: int, height: int, now: nat)
    | Fail(id: AvatarId, now: nat)
    | Mark(oid: nat)

  /** The rows whose guard the statement passes. */
  predicate Hits(st: Statement, t: Tables) {
    match st
    case Create(id, _, _, _) => id !in t.rows
    case SoftDelete(id, user, _, _, _) => id in t.rows && t.rows[id].Live() && t.rows[id].user == user
    case Claim(id, now) => id in t.rows && Claimable(t.rows[id], now)
    case Complete(id, _, _, _, _) => id in t.rows && t.rows[id].Live()
    case Fail(id, _) => id in t.rows && t.rows[id].Live()
    case Mark(oid) => oid in t.outbox
  }

  /** What it makes of the tables. */
  function Apply(st: Statement, t: Tables): Tables {
    if !Hits(st, t) then t
    else match st
      case Create(id, row, ev, serial) =>
        Tables(t.rows[id := row], InsertOutbox(t.outbox, serial, ev.eventId, ev.kind, ev.payload))
      case SoftDelete(id, _, ev, serial, now) =>
        Tables(t.rows[id := Deleted(t.rows[id], now)], InsertOutbox(t.outbox, serial, ev.eventId, ev.kind, ev.payload))
      case Claim(id, now) => t.(rows := t.rows[id := Claimed(t.rows[id], now)])
      case Complete(id, thumbs, width, height, now) =>
        t.(rows := t.rows[id := Finished(t.rows[id], Info("", "", width, height), thumbs, now)])
      case Fail(id, now) => t.(rows := t.rows[id := t.rows[id].(status := Failed, updated := now)])
      case Mark(oid) => t.(outbox := MarkPublished(t.outbox, oid))
  }

  /** The event is in the outbox with its kind and payload. Entries of other events are as they were, no entry is
      gone or loses its published mark, and an entry is new only if the event had none, so that an event never
      comes to have two. */
  ghost predicate Enqueued(before: map<nat, OutboxRow>, after: map<nat, OutboxRow>, ev: NewEvent) {
    && (exists k <- after.Keys ::
          after[k].eventId == ev.eventId && after[k].kind == ev.kind && after[k].payload == ev.payload)
    && (forall k <- before.Keys ::
          && k in after && after[k].eventId == before[k].eventId && after[k].published == before[k].published
          && (before[k].eventId != ev.eventId ==> after[k] == before[k]))
    && (forall k <- after.Keys :: k !in before ==>
          after[k].eventId == ev.eventId && !after[k].published && !HasEvent(before, ev.eventId))
    && (EventsUnique(before) ==> EventsUnique(after))
  }

  lemma InsertEnqueues(outbox: map<nat, OutboxRow>, serial: nat, ev: NewEvent)
    requires serial !in outbox
    ensures Enqueued(outbox, InsertOutbox(outbox, serial, ev.eventId, ev.kind, ev.payload), ev)
  {
    var after := InsertOutbox(outbox, serial, ev.eventId, ev.kind, ev.payload);
    var k := if HasEvent(outbox, ev.eventId) then Conflict(outbox, ev.eventId) else serial;
    assert after[k].eventId == ev.eventId && after[k].kind == ev.kind && after[k].payload == ev.payload;
  }

  class AvatarRepository {
    const replies: nat -> Reply
    var requests: nat
    var tables: Tables
    var tx: Option<Tables>  // what the open transaction has done so far

    constructor (replies: nat -> Reply)
      ensures tables == Tables(map[], map[]) && tx.None? && this.replies == replies
    {
      this.replies, requests, tables, tx := replies, 0, Tables(map[], map[]), None;
    }

    method Request() returns (reply: Reply)
      modifies this`requests
      ensures reply == replies(old(requests)) && requests == old(requests) + 1
    {
      reply := replies(requests);
      requests := requests + 1;
    }

    // -------------------------------------------------------------- transactions

    method Begin() returns (err: bool)
      requires tx.None?
      modifies this`requests, this`tx
      ensures if err then tx.None? else tx == Some(tables)
      ensures (forall k: nat :: replies(k).Fine?) ==> !err
    {
      var reply := Request();
      if reply.Fine? {
        tx := Some(tables);
      }
      return !reply.Fine?;
    }

    /** A commit that reports an error did not happen. */
    method Commit() returns (err: bool)
      requires tx.Some?
      modifies this`requests, this`tables, this`tx
      ensures !err ==> tx.None? && tables == old(tx).value
      ensures err ==> tx == old(tx) && tables == old(tables)
      ensures (forall k: nat :: replies(k).Fine?) ==> !err
    {
      var reply := Request();
      if reply.Fine? {
        tables, tx := tx.value, None;
      }
      return !reply.Fine?;
    }

    /** The deferred rollback; after a commit it does nothing. */
    method Rollback()
      modifies this`tx
      ensures tx.None?
    {
      tx := None;
    }

    /** INSERT INTO avatars, whose primary key is the id. */
    method InsertAvatar(id: AvatarId, row: Row) returns (err: bool)
      requires tx.Some?
      modifies this`requests, this`tx
      ensures !err ==> id !in old(tx).value.rows && tx == Some(old(tx).value.(rows := old(tx).value.rows[id := row]))
      ensures err ==> tx == old(tx)
      ensures (forall k: nat :: replies(k).Fine?) && err ==> id in old(tx).value.rows
    {
      var reply := Request();
      if !reply.Fine? || id in tx.value.rows {
        return true;
      }
      tx := Some(tx.value.(rows := tx.value.rows[id := row]));
      return false;
    }

    /** UPDATE avatars SET deleted_at, guarded by owner and liveness; no row is ErrAvatarNotFound. */
    method MarkDeleted(id: AvatarId, user: string, now: nat) returns (err: Option<Error>)
      requires tx.Some?
      modifies this`requests, this`tx
      ensures err.None? ==>
        && id in old(tx).value.rows && old(tx).value.rows[id].Live() && old(tx).value.rows[id].user == user
        && var row := old(tx).value.rows[id].(deletedAt := Some(now), updated := now);
           tx == Some(old(tx).value.(rows := old(tx).value.rows[id := row]))
      ensures err.Some? ==> tx == old(tx)
      ensures (forall k: nat :: replies(k).Fine?) && err.Some? ==> err == Some(Known(ErrAvatarNotFound))
      ensures err == Some(Known(ErrAvatarNotFound)) ==>
        id in old(tx).value.rows ==> !old(tx).value.rows[id].Live() || old(tx).value.rows[id].user != user
    {
      var reply := Request();
      if !reply.Fine? {
        return Some(Foreign("update"));
      }
      var rows := tx.value.rows;
      if id !in rows || !rows[id].Live() || rows[id].user != user {
        return Some(Known(ErrAvatarNotFound));
      }
      tx := Some(tx.value.(rows := rows[id := Deleted(rows[id], now)]));
      return None;
    }

    /** insertOutbox, with a serial number drawn from the table's sequence. */
    method AppendEvent(ev: NewEvent, serial: nat) returns (err: bool)
      requires tx.Some?
      modifies this`requests, this`tx
      ensures !err ==>
        var outbox := InsertOutbox(old(tx).value.outbox, serial, ev.eventId, ev.kind, ev.payload);
        tx == Some(old(tx).value.(outbox := outbox))
      ensures err ==> tx == old(tx)
      ensures (forall k: nat :: replies(k).Fine?) ==> !err
      ensures !err && serial !in old(tx).value.outbox ==> Enqueued(old(tx).value.outbox, tx.value.outbox, ev)
    {
      if serial !in tx.value.outbox {
        InsertEnqueues(tx.value.outbox, serial, ev);
      }
      var reply := Request();
      if reply.Fine? {
        tx := Some(tx.value.(outbox := InsertOutbox(tx.value.outbox, serial, ev.eventId, ev.kind, ev.payload)));
      }
      return !reply.Fine?;
    }

    /** CreateWithOutbox: the row and its event, both or neither. */
    method CreateWithOutbox(id: AvatarId, row: Row, ev: NewEvent, serial: nat) returns (err: bool)
      requires tx.None?
      modifies this
      ensures tx.None?
      ensures !err ==>
        Hits(Create(id, row, ev, serial), old(tables)) && tables == Apply(Create(id, row, ev, serial), old(tables))
      ensures !err ==> id !in old(tables).rows && tables.rows == old(tables).rows[id := row]
      ensures !err && serial !in old(tables).outbox ==> Enqueued(old(tables).outbox, tables.outbox, ev)
      ensures err ==> tables == old(tables)
      ensures (forall k: nat :: replies(k).Fine?) ==> (err <==> id in old(tables).rows)
    {
      err := Begin();
      if err {
        return;
      }
      err := InsertAvatar(id, row);
      if !err {
        err := AppendEvent(ev, serial);
      }
      if !err {
        err := Commit();
      }
      Rollback();
    }

    /** SoftDeleteOwnedWithOutbox: the deletion mark and its event, both or neither. */
    method SoftDeleteOwnedWithOutbox(id: AvatarId, user: string, ev: NewEvent, serial: nat, now: nat)
      returns (err: Option<Error>)
      requires tx.None?
      modifies this
      ensures tx.None?
      ensures err.None? ==>
        var st := SoftDelete(id, user, ev, serial, now); Hits(st, old(tables)) && tables == Apply(st, old(tables))
      ensures err.None? ==>
        && id in old(tables).rows && old(tables).rows[id].deletedAt == None && old(tables).rows[id].user == user
        && tables.rows == old(tables).rows[id := old(tables).rows[id].(deletedAt := Some(now), updated := now)]
        && (serial !in old(tables).outbox ==> Enqueued(old(tables).outbox, tables.outbox, ev))
      ensures err.Some? ==> tables == old(tables)
      ensures (forall k: nat :: replies(k).Fine?) ==>
        err == if id in old(tables).rows && old(tables).rows[id].deletedAt == None && old(tables).rows[id].user == user
               then None else Some(Known(ErrAvatarNotFound))
      ensures err == Some(Known(ErrAvatarNotFound)) ==> !Hits(SoftDelete(id, user, ev, serial, now), old(tables))
    {
      err := None;
      var failed := Begin();
      if failed {
        return Some(Foreign("begin tx"));
      }
      err := MarkDeleted(id, user, now);
      if err.None? {
        failed := AppendEvent(ev, serial);
        if failed {
          err := Some(Foreign("insert outbox"));
        } else {
          failed := Commit();
          if failed {
            err := Some(Foreign("commit tx"));
          }
        }
      }
      Rollback();
    }

    // -------------------------------------------------------------- single statements

    /** GetByID: soft-deleted rows are not there. */
    method GetById(id: AvatarId) returns (row: Result<Row>)
      modifies this`requests
      ensures row.Ok? ==> id in tables.rows && tables.rows[id].Live() && row.value == tables.rows[id]
      ensures row == Err(Known(ErrAvatarNotFound)) ==> id in tables.rows ==> !tables.rows[id].Live()
      ensures replies(old(requests)).Fine? ==>
        row == if id in tables.rows && tables.rows[id].deletedAt == None then Ok(tables.rows[id])
               else Err(Known(ErrAvatarNotFound))
    {
      var reply := Request();
      if !reply.Fine? {
        return Err(Foreign("scan avatar"));
      }
      if id !in tables.rows || !tables.rows[id].Live() {
        return Err(Known(ErrAvatarNotFound));
      }
      return Ok(tables.rows[id]);
    }

    /** A guarded UPDATE of one row, and how many rows it touched; with an error it may have run all the same. */
    method Update(st: Statement) returns (err: bool, touched: nat)
      modifies this`requests, this`tables
      ensures tables == Apply(st, old(tables)) || (err && tables == old(tables))
      ensures !err ==> touched == if Hits(st, old(tables)) then 1 else 0
      ensures err <==> !replies(old(requests)).Fine?
    {
      var reply := Request();
      touched := 0;
      if !reply.Refused? && Hits(st, tables) {
        touched := 1;
        tables := Apply(st, tables);
      }
      err := !reply.Fine?;
    }

    /** MarkProcessing: the claim. It is granted exactly for a claimable row, which is what the stuck query lists. */
    method MarkProcessing(id: AvatarId, now: nat) returns (ok: bool, err: bool)
      modifies this`requests, this`tables
      ensures tables == Apply(Claim(id, now), old(tables)) || (err && tables == old(tables))
      ensures err <==> !replies(old(requests)).Fine?
      ensures ok <==>
        && !err && id in old(tables).rows
        && var row := old(tables).rows[id];
           && row.deletedAt == None
           && (row.status == Pending || row.status == Failed
               || (row.status == Processing && row.updated + 120_000_000 < now))
      ensures ok ==>
        && tables.rows == old(tables).rows[id := old(tables).rows[id].(status := Processing, updated := now)]
        && tables.outbox == old(tables).outbox
      ensures !ok && !err ==> tables == old(tables)
    {
      var touched;
      err, touched := Update(Claim(id, now));
      ok := !err && touched == 1;
    }

    /** CompleteProcessing: looks only at the deletion mark; no row touched is ErrAvatarNotFound. */
    method CompleteProcessing(id: AvatarId, thumbs: map<string, string>, width: int, height: int, now: nat)
      returns (err: Option<Error>)
      modifies this`requests, this`tables
      ensures tables == Apply(Complete(id, thumbs, width, height, now), old(tables))
        || (err.Some? && tables == old(tables))
      ensures err.None? ==>
        && id in old(tables).rows && old(tables).rows[id].deletedAt == None && tables.outbox == old(tables).outbox
        && var row := old(tables).rows[id];
           tables.rows == old(tables).rows[id := row.(thumbs := thumbs, status := Completed, updated := now,
             width := if width > 0 then width else row.width, height := if height > 0 then height else row.height)]
      ensures err == Some(Known(ErrAvatarNotFound)) ==> !(id in old(tables).rows && old(tables).rows[id].Live())
      ensures replies(old(requests)).Fine? ==>
        err == if id in old(tables).rows && old(tables).rows[id].deletedAt == None then None
               else Some(Known(ErrAvatarNotFound))
    {
      var failed, touched := Update(Complete(id, thumbs, width, height, now));
      if failed {
        return Some(Foreign("complete processing"));
      }
      if touched == 0 {
        return Some(Known(ErrAvatarNotFound));
      }
      return None;
    }

    /** FailProcessing looks neither at the status nor at how many rows it touched: any live row, a completed one too,
        keeps all it has but can be claimed again at once, and the caller does not learn whether there was one. */
    method FailProcessing(id: AvatarId, now: nat) returns (err: bool)
      modifies this`requests, this`tables
      ensures tables.outbox == old(tables).outbox && tables.rows.Keys == old(tables).rows.Keys
      ensures forall x <- old(tables).rows.Keys :: x in tables.rows && RowKeeps(old(tables).rows[x], tables.rows[x])
      ensures forall x <- old(tables).rows.Keys :: x != id ==> x in tables.rows && tables.rows[x] == old(tables).rows[x]
      ensures !err && id in old(tables).rows && old(tables).rows[id].Live() ==>
        && id in tables.rows
        && tables.rows[id] == old(tables).rows[id].(status := Failed, updated := now)
        && forall later: nat :: Claimable(tables.rows[id], later)
      ensures err <==> !replies(old(requests)).Fine?
    {
      var touched;
      err, touched := Update(Fail(id, now));
    }

    method MarkOutboxPublished(oid: nat) returns (err: bool)
      modifies this`requests, this`tables
      ensures tables == Apply(Mark(oid), old(tables)) || (err && tables == old(tables))
      ensures tables.rows == old(tables).rows && (err <==> !replies(old(requests)).Fine?)
      ensures !err && oid in old(tables).outbox ==>
        tables.outbox == old(tables).outbox[oid := old(tables).outbox[oid].(published := true)]
      ensures oid !in old(tables).outbox ==> tables.outbox == old(tables).outbox
    {
      var touched;
      err, touched := Update(Mark(oid));
    }

    // -------------------------------------------------------------- the two work lists

    /** ListUnpublished: the unpublished rows with the smallest ids, smallest first; a limit that is
        not positive is 50. */
    method ListUnpublished(limit: int) returns (err: bool, out: seq<OutboxItem>)
      modifies this`requests
      ensures !err ==> out == Protocol.ListUnpublished(tables.outbox, if limit <= 0 then 50 else limit)
      ensures err <==> !replies(old(requests)).Fine?
    {
      hide Unpublished, Items, Listing, IsLeast;
      var most: nat := if limit <= 0 then FLUSH_LIMIT else limit;
      out := [];
      var reply := Request();
      if !reply.Fine? {
        return true, [];
      }
      var left := Unpublished(tables.outbox);
      ghost var ids: seq<nat> := [];
      UnpublishedHaveRows(tables.outbox);
      NoItems(tables.outbox);
      while left != {} && |out| < most
        invariant |out| == |ids| <= most && left <= tables.outbox.Keys
        invariant forall i :: 0 <= i < |ids| ==> ids[i] in tables.outbox
        invariant out == Items(tables.outbox, ids)
        invariant Listing(Unpublished(tables.outbox), most) == ids + Listing(left, most - |ids|)
        decreases |left|
      {
        var k := Least(left);
        LeastIsListed(left, most - |ids|);
        ItemsGrow(tables.outbox, ids, k);
        assert ids + ([k] + Listing(left - {k}, most - |ids| - 1)) ==
          (ids + [k]) + Listing(left - {k}, most - |ids| - 1);
        out := out + [OutboxItem(k, tables.outbox[k].kind, tables.outbox[k].payload)];
        ids := ids + [k];
        left := left - {k};
      }
      ListingWithin(Unpublished(tables.outbox), most);
      NothingListed(left, most - |ids|);
      assert ids + [] == ids;
      ListUnpublishedIs(tables.outbox, most);
      assert Listing(Unpublished(tables.outbox), most) == ids;
      return false, out;
    }

    /** ListStuckUploads: claimable rows, oldest first, as many as the limit allows; one that is not positive is 20. */
    method ListStuckUploads(limit: int, now: nat) returns (err: bool, ids: seq<AvatarId>)
      modifies this`requests
      ensures !err ==> IsStuckListing(tables.rows, now, if limit <= 0 then 20 else limit, ids)
      ensures err <==> !replies(old(requests)).Fine?
      ensures !err ==> forall i, j :: 0 <= i < j < |ids| ==>
        && ids[i] != ids[j] && ids[i] in tables.rows && ids[j] in tables.rows
        && tables.rows[ids[i]].created <= tables.rows[ids[j]].created
    {
      var reply := Request();
      if !reply.Fine? {
        return true, [];
      }
      ids := SomeListing(tables.rows, now, if limit <= 0 then STUCK_LIMIT else limit);
      return false, ids;
    }
  }

  lemma LeastIsListed(left: set<nat>, most: nat)
    requires left != {} && most > 0
    ensures Least(left) in left && Listing(left, most) == [Least(left)] + Listing(left - {Least(left)}, most - 1)
  {
  }

  lemma NothingListed(left: set<nat>, most: nat)
    requires left == {} || most == 0
    ensures Listing(left, most) == []
  {
  }

  lemma ItemsGrow(outbox: map<nat, OutboxRow>, ids: seq<nat>, k: nat)
    requires k in outbox && forall i :: 0 <= i < |ids| ==> ids[i] in outbox
    ensures Items(outbox, ids + [k]) == Items(outbox, ids) + [OutboxItem(k, outbox[k].kind, outbox[k].payload)]
  {
  }

  lemma NoItems(outbox: map<nat, OutboxRow>)
    ensures Items(outbox, []) == []
  {
  }

  lemma UnpublishedHaveRows(outbox: map<nat, OutboxRow>)
    ensures Unpublished(outbox) <= outbox.Keys
  {
  }

  lemma ListUnpublishedIs(outbox: map<nat, OutboxRow>, limit: nat)
    ensures forall i :: 0 <= i < |Listing(Unpublished(outbox), limit)| ==>
      Listing(Unpublished(outbox), limit)[i] in outbox
    ensures Protocol.ListUnpublished(outbox, limit) == Items(outbox, Listing(Unpublished(outbox), limit))
  {
    ListingWithin(Unpublished(outbox), limit);
  }

  // ---------------------------------------------------------------- the protocol's steps are these statements

  function TablesOf(s: State): Tables { Tables(s.rows, s.outbox) }

  /** The statement a run issues at its program counter. */
  function StatementOf(lib: Libraries, s: State, run: Run, t: Turn): Option<Statement> {
    match run
    case UploadCreate(_, id, row) =>
      Some(Create(id, row, NewEvent(UploadEventId(id), OUTBOX_UPLOAD, lib.writeUpload(UploadEventOf(id, row))),
        t.serial))
    case DeleteTx(_, id, user, _, keys) =>
      Some(SoftDelete(id, user, NewEvent(DeleteEventId(id), OUTBOX_DELETE, lib.writeDelete(DeleteEventOf(id, keys))),
        t.serial, s.now))
    case ProcClaim(job) => Some(Claim(job.id, s.now))
    case ProcComplete(job, _, info, thumbs) => Some(Complete(job.id, thumbs, info.width, info.height, s.now))
    case ProcFail(job, _, _) => Some(Fail(job.id, s.now))
    case FlushMark(items) => if items == [] then None else Some(Mark(items[0].oid))
    case _ => None
  }

  /** Every protocol step at one of these program counters does to the tables exactly what its statement does, or
      nothing: a transaction when it reports success, a single statement also when only its answer is lost. */
  lemma StepIsStatement(lib: Libraries, s: State, r: RunId, t: Turn)
    requires r in s.runs && StatementOf(lib, s, s.runs[r], t).Some?
    ensures var st := StatementOf(lib, s, s.runs[r], t).value;
      var runs := if st.Create? || st.SoftDelete? then t.ok else t.Lands();
      TablesOf(StepOf(lib, s, r, t)) == if runs then Apply(st, TablesOf(s)) else TablesOf(s)
  {
    hide NextJob, InsertOutbox, UploadEventId, DeleteEventId, Seals, Claimable;
    if s.runs[r].ProcClaim? || s.runs[r].ProcComplete? || s.runs[r].ProcFail? {
      ProcIsStatement(lib, s, r, t);
    }
  }

  lemma EndsWithTables(lib: Libraries, s: State, rows: map<AvatarId, Row>, r: RunId, job: Job)
    ensures TablesOf(EndJob(lib, s.(rows := rows), r, job)) == Tables(rows, s.outbox)
  {
    hide NextJob;
    NextJobIsLocal(lib, s.(rows := rows), r, job.rest);
  }

  lemma ProcIsStatement(lib: Libraries, s: State, r: RunId, t: Turn)
    requires r in s.runs && (s.runs[r].ProcClaim? || s.runs[r].ProcComplete? || s.runs[r].ProcFail?)
    ensures var st := StatementOf(lib, s, s.runs[r], t).value;
      TablesOf(StepOf(lib, s, r, t)) == if t.Lands() then Apply(st, TablesOf(s)) else TablesOf(s)
  {
    hide StepProcClaim, StepProcComplete, StepProcFail, Apply;
    if s.runs[r].ProcClaim? {
      ClaimIsStatement(lib, s, r, t);
    } else if s.runs[r].ProcComplete? {
      CompleteIsStatement(lib, s, r, t);
    } else {
      FailIsStatement(lib, s, r, t);
    }
  }

  lemma ClaimIsStatement(lib: Libraries, s: State, r: RunId, t: Turn)
    requires r in s.runs && s.runs[r].ProcClaim?
    ensures var st := Claim(s.runs[r].job.id, s.now);
      TablesOf(StepProcClaim(lib, s, r, t)) == if t.Lands() then Apply(st, TablesOf(s)) else TablesOf(s)
  {
    hide EndJob, Claimable;
    var job := s.runs[r].job;
    EndsWithTables(lib, s, s.rows, r, job);
    assert s.(rows := s.rows) == s;
    if job.id in s.rows {
      EndsWithTables(lib, s, s.rows[job.id := Claimed(s.rows[job.id], s.now)], r, job);
    }
  }

  lemma CompleteIsStatement(lib: Libraries, s: State, r: RunId, t: Turn)
    requires r in s.runs && s.runs[r].ProcComplete?
    ensures var run := s.runs[r];
      var st := Complete(run.job.id, run.thumbs, run.info.width, run.info.height, s.now);
      TablesOf(StepProcComplete(lib, s, r, t)) == if t.Lands() then Apply(st, TablesOf(s)) else TablesOf(s)
  {
    hide EndJob;
    var run := s.runs[r];
    EndsWithTables(lib, s, s.rows, r, run.job);
    assert s.(rows := s.rows) == s;
    if run.job.id in s.rows {
      EndsWithTables(lib, s, s.rows[run.job.id := Finished(s.rows[run.job.id], run.info, run.thumbs, s.now)], r,
        run.job);
    }
  }

  lemma FailIsStatement(lib: Libraries, s: State, r: RunId, t: Turn)
    requires r in s.runs && s.runs[r].ProcFail?
    ensures var st := Fail(s.runs[r].job.id, s.now);
      TablesOf(StepProcFail(lib, s, r, t)) == if t.Lands() then Apply(st, TablesOf(s)) else TablesOf(s)
  {
    hide EndJob;
    var job := s.runs[r].job;
    EndsWithTables(lib, s, s.rows, r, job);
    assert s.(rows := s.rows) == s;
    if job.id in s.rows {
      EndsWithTables(lib, s, s.rows[job.id := s.rows[job.id].(status := Failed, updated := s.now)], r, job);
    }
  }
}
