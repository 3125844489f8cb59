/** Executions from the empty system that break two promises one might expect without their conditions: that `completed`
    is final, and that a deletion leaves nothing. */
module Traces {
  import opened Text
  import opened Domain
  import opened Images
  import opened Protocol
  import opened Invariant
  import opened Effects
  import opened Commits
  import opened Steps
  import opened Guarantees
  import opened Cleanup
  import opened Lease
  import opened Deployments
  import opened Outcomes
  import opened Leftovers
  import opened Sample

  ghost predicate Reaches(lib: Libraries, s: State, actions: seq<Action>, w: State) {
    Legal(lib, s, actions) && After(lib, s, actions) == w
  }

  lemma NoSteps(lib: Libraries, s: State)
    ensures Reaches(lib, s, [], s)
  {
  }

  lemma Extend(lib: Libraries, s: State, actions: seq<Action>, w: State, a: Action)
    requires Reaches(lib, s, actions, w) && Enabled(lib, w, a)
    ensures Reaches(lib, s, actions + [a], Next(lib, w, a))
  {
    hide Next, Enabled;
    OneStep(lib, w, a);
    AfterConcat(lib, s, actions, [a]);
  }

  lemma Join(lib: Libraries, s: State, a: seq<Action>, v: State, b: seq<Action>, w: State)
    requires Reaches(lib, s, a, v) && Reaches(lib, v, b, w)
    ensures Reaches(lib, s, a + b, w)
  {
    AfterConcat(lib, s, a, b);
  }

  // ---------------------------------------------------------------- stages

  /** An upload into the empty system, up to its commit. */
  lemma Uploaded(lib: Libraries, user: string, data: Bytes, id: AvatarId) returns (actions: seq<Action>, w: State)
    requires Inspect(lib, data).Ok?
    ensures Reaches(lib, INIT, actions, w)
    ensures var row := NewRow(user, data, id, Inspect(lib, data).value, 0);
      && w.rows == map[id := row] && w.now == 0
      && row.key in w.bucket && w.bucket[row.key].data == data
      && w.outbox == map[0 := UploadEntryOf(lib, id, row)] && w.uploads == [] && w.deletes == []
      && w.runs == map[0 := UploadGauge(0, row.size)]
  {
    hide Inspect, OriginalObjectKey, UploadEventId;
    var row := NewRow(user, data, id, Inspect(lib, data).value, 0);
    NoSteps(lib, INIT);
    var a := BeginUpload(0, 0, user, data, id);
    var s := Next(lib, INIT, a);
    Extend(lib, INIT, [], INIT, a);
    var b := Step(0, Good(0));
    hide Reaches;
    assert s.runs == map[0 := UploadPut(0, id, row, data)];
    var t := Next(lib, s, b);
    Extend(lib, INIT, [] + [a], s, b);
    assert t.runs == map[0 := UploadCreate(0, id, row)];
    w := Next(lib, t, b);
    Extend(lib, INIT, [] + [a] + [b], t, b);
    assert w.runs == map[0 := UploadGauge(0, row.size)];
    actions := [] + [a] + [b] + [b];
  }

  function JobOfRow(id: AvatarId, row: Row): Job {
    Job(id, UploadEventOf(id, row), [])
  }

  /** The turn of a stuck query that lists one avatar. */
  function Lists(serial: nat, id: AvatarId): Turn {
    Good(serial).(stuck := [id])
  }

  lemma OneStuck(rows: map<AvatarId, Row>, now: nat, id: AvatarId)
    requires rows.Keys == {id} && Claimable(rows[id], now)
    ensures IsStuckListing(rows, now, STUCK_LIMIT, [id])
  {
    hide Claimable;
    assert forall x :: x in rows ==> x in rows.Keys;
  }

  lemma ListOne(lib: Libraries, s: State, r: RunId, id: AvatarId)
    requires Lawful(lib) && r in s.runs && s.runs[r] == RecoverList && s.rows.Keys == {id}
    requires Claimable(s.rows[id], s.now)
    ensures var a := Step(r, Lists(FreshOf(s.outbox), id));
      Enabled(lib, s, a) && Next(lib, s, a) == Goto(s, r, ProcRead(JobOfRow(id, s.rows[id])))
  {
    OneStuck(s.rows, s.now, id);
    assert lib.parseUuid(id) == Some(id);
    hide Claimable, IsStuckListing, UploadEventId;
    var t := Lists(FreshOf(s.outbox), id);
    var events := seq(|t.stuck|, i requires 0 <= i < |t.stuck| => UploadEventOf(t.stuck[i], s.rows[t.stuck[i]]));
    assert events == [UploadEventOf(id, s.rows[id])];
    assert events[1..] == [];
  }

  lemma ReadAndClaim(lib: Libraries, s: State, r: RunId, job: Job)
    requires r in s.runs && s.runs[r] == ProcRead(job) && job.id in s.rows && Claimable(s.rows[job.id], s.now)
    requires job.ev.key != ""
    ensures var a := Step(r, Good(FreshOf(s.outbox)));
      && Enabled(lib, s, a) && Next(lib, s, a) == Goto(s, r, ProcClaim(job))
      && Enabled(lib, Goto(s, r, ProcClaim(job)), a)
      && Next(lib, Goto(s, r, ProcClaim(job)), a) ==
         Goto(s.(rows := s.rows[job.id := Claimed(s.rows[job.id], s.now)]), r, ProcGet(job, s.now))
  {
    hide NextJob, FreshOf;
    assert s.runs[r := ProcClaim(job)][r := ProcGet(job, s.now)] == s.runs[r := ProcGet(job, s.now)];
  }

  lemma Starts(lib: Libraries, s: State, r: RunId, id: AvatarId) returns (actions: seq<Action>)
    requires Lawful(lib) && r !in s.runs && s.rows.Keys == {id} && Claimable(s.rows[id], s.now)
    ensures Reaches(lib, s, actions, Goto(s, r, ProcRead(JobOfRow(id, s.rows[id]))))
  {
    hide Claimable, Reaches, Lawful, UploadEventId;
    var list := Step(r, Lists(FreshOf(s.outbox), id));
    NoSteps(lib, s);
    Extend(lib, s, [], s, BeginRecover(r));
    var s1 := Goto(s, r, RecoverList);
    ListOne(lib, s1, r, id);
    assert Goto(s1, r, ProcRead(JobOfRow(id, s.rows[id]))) == Goto(s, r, ProcRead(JobOfRow(id, s.rows[id])));
    hide Enabled, Next;
    Extend(lib, s, [] + [BeginRecover(r)], s1, list);
    actions := [] + [BeginRecover(r)] + [list];
  }

  /** A recovery that claims the one avatar there is, and then stalls before its download. */
  lemma Claims(lib: Libraries, s: State, r: RunId, id: AvatarId) returns (actions: seq<Action>)
    requires Lawful(lib) && r !in s.runs && s.rows.Keys == {id} && Claimable(s.rows[id], s.now) && s.rows[id].key != ""
    ensures var row := s.rows[id];
      Reaches(lib, s, actions,
        Goto(s.(rows := s.rows[id := Claimed(row, s.now)]), r, ProcGet(JobOfRow(id, row), s.now)))
  {
    hide Claimable, Reaches, Lawful, UploadEventId, Next, Enabled;
    var job := JobOfRow(id, s.rows[id]);
    var done := Starts(lib, s, r, id);
    var s1 := Goto(s, r, ProcRead(job));
    ReadAndClaim(lib, s1, r, job);
    var a := Step(r, Good(FreshOf(s.outbox)));
    Extend(lib, s, done, s1, a);
    Extend(lib, s, done + [a], Goto(s1, r, ProcClaim(job)), a);
    actions := done + [a] + [a];
    assert Goto(s1.(rows := s.rows[id := Claimed(s.rows[id], s.now)]), r, ProcGet(job, s.now)) ==
      Goto(s.(rows := s.rows[id := Claimed(s.rows[id], s.now)]), r, ProcGet(job, s.now));
  }

  function Best(s: State, r: RunId): Action {
    Step(r, Good(FreshOf(s.outbox)))
  }

  /** One step of run `r` that goes well, as run `q` sees it. */
  lemma Advance(lib: Libraries, s: State, actions: seq<Action>, v: State, r: RunId, q: RunId)
    requires Lawful(lib) && Inv(lib, v) && Reaches(lib, s, actions, v) && r in v.runs && q in v.runs && q != r
    ensures Enabled(lib, v, Best(v, r))
    ensures var w := Next(lib, v, Best(v, r));
      Inv(lib, w) && Reaches(lib, s, actions + [Best(v, r)], w) && q in w.runs && w.runs[q] == v.runs[q]
  {
    hide Inv, Lawful, Reaches, StepOf;
    NextKeeps(lib, v, Best(v, r));
    Extend(lib, s, actions, v, Best(v, r));
    NextOfOther(lib, v, Best(v, r), q);
  }

  /** From its download on, a run that meets no failure completes its avatar. */
  lemma RunsToCompletion(lib: Libraries, s: State, r: RunId, q: RunId, job: Job, at: nat)
    returns (actions: seq<Action>, w: State)
    requires Lawful(lib) && Inv(lib, s) && r in s.runs && s.runs[r] == ProcGet(job, at) && q in s.runs && q != r
    requires job.id in s.rows && s.rows[job.id].Live() && s.rows[job.id].key in s.bucket
    requires !Hopeless(lib, s.bucket[s.rows[job.id].key].data, s.rows[job.id].mime)
    ensures Reaches(lib, s, actions, w) && Inv(lib, w) && q in w.runs && w.runs[q] == s.runs[q]
    ensures job.id in w.rows && w.rows[job.id].Live() && w.rows[job.id].status == Completed
  {
    hide Inv, Lawful, Reaches, Next, Enabled, Inspect, Thumbnail, Awaiting, Canonical;
    NoSteps(lib, s);
    Advance(lib, s, [], s, r, q);
    GetStep(lib, s, r, Best(s, r).t, job, at);
    var s1 := Next(lib, s, Best(s, r));
    var done := [] + [Best(s, r)];
    Advance(lib, s, done, s1, r, q);
    ThumbStep(lib, s1, r, Best(s1, r).t);
    var s2 := Next(lib, s1, Best(s1, r));
    done := done + [Best(s1, r)];
    Advance(lib, s, done, s2, r, q);
    ThumbStep(lib, s2, r, Best(s2, r).t);
    var s3 := Next(lib, s2, Best(s2, r));
    done := done + [Best(s2, r)];
    Advance(lib, s, done, s3, r, q);
    CompleteStep(lib, s3, r, Best(s3, r).t, job, at, s3.runs[r].info, s3.runs[r].thumbs);
    w := Next(lib, s3, Best(s3, r));
    actions := done + [Best(s3, r)];
  }

  lemma Waits(lib: Libraries, s: State, d: nat)
    ensures Reaches(lib, s, [Tick(d)], s.(now := s.now + d))
  {
    OneStep(lib, s, Tick(d));
  }

  lemma ReachesKeeps(lib: Libraries, s: State, actions: seq<Action>, w: State)
    requires Lawful(lib) && Inv(lib, s) && Reaches(lib, s, actions, w)
    ensures Inv(lib, w)
  {
    hide Inv, Lawful, Legal, After;
    ExecutionKeeps(lib, s, actions);
  }

  // ---------------------------------------------------------------- a late failure overwrites `completed`

  /** For any image that can be drawn: upload; a first run claims and stalls; two minutes later a second run claims and
      completes; then the first run is still able to write `failed`. */
  lemma StalledRunSurvives(lib: Libraries, user: string, data: Bytes, id: AvatarId)
    returns (actions: seq<Action>, w: State)
    requires Lawful(lib) && Inspect(lib, data).Ok? && !Hopeless(lib, data, Inspect(lib, data).value.mime)
    ensures Reaches(lib, INIT, actions, w) && id in w.rows && w.rows[id].Live() && w.rows[id].status == Completed
    ensures !NoLateFailure(w, id)
  {
    hide Inv, Lawful, Reaches, Inspect, Hopeless, UploadEventId, OriginalObjectKey;
    InitHolds(lib);
    var up, s := Uploaded(lib, user, data, id);
    ReachesKeeps(lib, INIT, up, s);
    var row := s.rows[id];
    RowHolds(lib, s, id);
    KeyIsNotEmpty(id, row);
    hide RowOk, NewRow;
    var first := Claims(lib, s, 1, id);
    var s1 := Goto(s.(rows := s.rows[id := Claimed(row, 0)]), 1, ProcGet(JobOfRow(id, row), 0));
    Join(lib, INIT, up, s, first, s1);
    Waits(lib, s1, LEASE + 1);
    var s2 := s1.(now := LEASE + 1);
    Join(lib, INIT, up + first, s1, [Tick(LEASE + 1)], s2);
    var row2 := s2.rows[id];
    var second := Claims(lib, s2, 2, id);
    var s3 := Goto(s2.(rows := s2.rows[id := Claimed(row2, s2.now)]), 2, ProcGet(JobOfRow(id, row2), s2.now));
    var so := up + first + [Tick(LEASE + 1)];
    Join(lib, INIT, so, s2, second, s3);
    ReachesKeeps(lib, INIT, so + second, s3);
    var rest, end := RunsToCompletion(lib, s3, 2, 1, JobOfRow(id, row2), s2.now);
    Join(lib, INIT, so + second, s3, rest, end);
    actions, w := so + second + rest, end;
    assert CanFail(w.runs[1], id);
  }

  /** `completed` is not final: a concrete execution reaches a completed live avatar, and goes on to where it is not. */
  lemma CompletedIsNotFinal()
    ensures exists actions: seq<Action>, more: seq<Action>, id: AvatarId ::
      && Legal(LIBRARY, INIT, actions)
      && var s := After(LIBRARY, INIT, actions);
      && id in s.rows && s.rows[id].Live() && s.rows[id].status == Completed && Legal(LIBRARY, s, more)
      && var w := After(LIBRARY, s, more);
      && !(id in w.rows && w.rows[id].status == Completed)
  {
    hide Legal, After, Inv, Inspect, Thumbnail, Lawful;
    LibraryIsLawful();
    JpegCanBeDrawn();
    var id := Numbered(1);
    var actions, s := StalledRunSurvives(LIBRARY, "user", JPEG, id);
    CompletedIsFinalIff(LIBRARY, s, id);
    var more: seq<Action> :|
      Legal(LIBRARY, s, more)
        && !(id in After(LIBRARY, s, more).rows && After(LIBRARY, s, more).rows[id].status == Completed);
  }

  // ---------------------------------------------------------------- a late put outlives the clean-up

  lemma ReadForDelete(lib: Libraries, s: State, r: RunId, id: AvatarId)
    requires r in s.runs && id in s.rows && s.rows[id].Live() && s.rows[id].thumbs == map[]
    requires s.runs[r] == DeleteRead(0, id, s.rows[id].user)
    ensures Enabled(lib, s, Best(s, r))
    ensures Next(lib, s, Best(s, r)) == Goto(s, r, DeleteTx(0, id, s.rows[id].user, s.rows[id].size, [s.rows[id].key]))
  {
    hide FreshOf;
    assert DeleteKeys(s.rows[id], []) == [s.rows[id].key];
    assert IsOrdering([], s.rows[id].thumbs.Keys);
  }

  lemma CommitDelete(lib: Libraries, s: State, r: RunId, id: AvatarId)
    requires Inv(lib, s) && r in s.runs && id in s.rows && s.rows[id].Live()
    requires s.runs[r] == DeleteTx(0, id, s.rows[id].user, s.rows[id].size, [s.rows[id].key])
    ensures Enabled(lib, s, Best(s, r))
    ensures var w := Next(lib, s, Best(s, r)); var k := FreshOf(s.outbox);
      && w.rows == s.rows[id := Deleted(s.rows[id], s.now)] && w.runs == s.runs[r := DeleteGauge(0, s.rows[id].size)]
      && k !in s.outbox && w.outbox == s.outbox[k := DeleteEntryOf(lib, id, [s.rows[id].key])]
      && w.bucket == s.bucket && w.now == s.now && w.deletes == s.deletes
  {
    hide Inv, InsertOutbox, DeleteEventId, Seals, OutboxKeeps;
    InsertsAppend(lib, s, id, FreshOf(s.outbox), DeleteEntryOf(lib, id, [s.rows[id].key]));
  }

  lemma Deletes(lib: Libraries, s: State, r: RunId, id: AvatarId) returns (actions: seq<Action>, w: State)
    requires Lawful(lib) && Inv(lib, s) && r !in s.runs && id in s.rows && s.rows[id].Live()
    requires s.rows[id].thumbs == map[]
    ensures Reaches(lib, s, actions, w) && Inv(lib, w)
    ensures w.rows.Keys == s.rows.Keys && !w.rows[id].Live() && w.rows[id].mime == s.rows[id].mime
    ensures w.runs == s.runs[r := DeleteGauge(0, s.rows[id].size)] && w.bucket == s.bucket && w.deletes == s.deletes
    ensures var k := FreshOf(s.outbox);
      k !in s.outbox && w.outbox == s.outbox[k := DeleteEntryOf(lib, id, [s.rows[id].key])]
  {
    hide Reaches, Inv, Lawful, FreshOf;
    NoSteps(lib, s);
    var a := BeginDelete(r, 0, id, s.rows[id].user);
    var s1 := Goto(s, r, DeleteRead(0, id, s.rows[id].user));
    Extend(lib, s, [], s, a);
    ReadForDelete(lib, s1, r, id);
    var s2 := Next(lib, s1, Best(s1, r));
    Extend(lib, s, [] + [a], s1, Best(s1, r));
    ReachesKeeps(lib, s, [] + [a] + [Best(s1, r)], s2);
    CommitDelete(lib, s2, r, id);
    hide Next, Enabled;
    w := Next(lib, s2, Best(s2, r));
    Extend(lib, s, [] + [a] + [Best(s1, r)], s2, Best(s2, r));
    actions := [] + [a] + [Best(s1, r)] + [Best(s2, r)];
    ReachesKeeps(lib, s, actions, w);
  }

  lemma PutterLoosens(lib: Libraries, s: State, r: RunId, id: AvatarId, keys: seq<string>)
    requires r in s.runs && s.runs[r].ProcGet? && s.runs[r].job.id == id && s.runs[r].job.ev.key in s.bucket
    requires var data := s.bucket[s.runs[r].job.ev.key].data;
      Inspect(lib, data).Ok? && Thumbnail(lib, data, SIZE_100, Inspect(lib, data).value.mime).Ok?
    ensures !Tight(lib, s, id, keys)
  {
    assert CanPut(lib, s.bucket, s.runs[r], id);
  }

  lemma EntryAnnounces(lib: Libraries, s: State, k: nat, id: AvatarId, keys: seq<string>)
    requires k in s.outbox && s.outbox[k] == DeleteEntryOf(lib, id, keys)
    ensures Announces(lib, s, id, keys)
  {
    hide DeleteEventId;
  }

  /** For any image that can be drawn: upload; a run claims and stalls; the owner deletes, while that run can
      still put a thumbnail. */
  lemma StalledPutterSurvives(lib: Libraries, user: string, data: Bytes, id: AvatarId)
    returns (actions: seq<Action>, w: State, keys: seq<string>)
    requires Lawful(lib) && Inspect(lib, data).Ok? && Thumbnail(lib, data, SIZE_100, Inspect(lib, data).value.mime).Ok?
    ensures Reaches(lib, INIT, actions, w) && Announces(lib, w, id, keys) && !Tight(lib, w, id, keys)
  {
    hide Inv, Lawful, Reaches, Inspect, Thumbnail, UploadEventId, OriginalObjectKey, FreshOf, Tight, Announces;
    InitHolds(lib);
    var up, s := Uploaded(lib, user, data, id);
    ReachesKeeps(lib, INIT, up, s);
    RowHolds(lib, s, id);
    KeyIsNotEmpty(id, s.rows[id]);
    hide RowOk, NewRow;
    var row := s.rows[id];
    var claim := Claims(lib, s, 1, id);
    var s1 := Goto(s.(rows := s.rows[id := Claimed(row, s.now)]), 1, ProcGet(JobOfRow(id, row), s.now));
    Join(lib, INIT, up, s, claim, s1);
    ReachesKeeps(lib, INIT, up + claim, s1);
    var del, s2 := Deletes(lib, s1, 2, id);
    Join(lib, INIT, up + claim, s1, del, s2);
    actions, w, keys := up + claim + del, s2, [s1.rows[id].key];
    EntryAnnounces(lib, w, FreshOf(s1.outbox), id, keys);
    PutterLoosens(lib, w, 1, id, keys);
  }

  /** A deletion can leave something: a concrete execution handles the delete message of an avatar without error and
      ends with one of its objects in the bucket. */
  lemma DeletionCanLeaveAThumbnail()
    ensures exists actions: seq<Action>, id: AvatarId ::
      && Legal(LIBRARY, INIT, actions)
      && id in After(LIBRARY, INIT, actions).cleaned && !NothingLeft(After(LIBRARY, INIT, actions), id)
  {
    hide Legal, After, Inv, Inspect, Thumbnail, Lawful, NothingLeft, Tight, Announces;
    LibraryIsLawful();
    JpegCanBeDrawn();
    var id := Numbered(1);
    var actions, s, keys := StalledPutterSurvives(LIBRARY, "user", JPEG, id);
    assert Reachable(LIBRARY, s);
    DeletionIsCompleteIff(LIBRARY, s, id, keys);
    var more: seq<Action> :|
      Legal(LIBRARY, s, more) && id in After(LIBRARY, s, more).cleaned && !NothingLeft(After(LIBRARY, s, more), id);
    AfterConcat(LIBRARY, INIT, actions, more);
    assert Legal(LIBRARY, INIT, actions + more);
  }
}
