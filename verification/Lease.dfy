/** The two-minute lease: mutual exclusion when claims end in time, and exactly when `completed` is final. */
module Lease {
  import opened Text
  import opened Domain
  import opened Images
  import opened Headers
  import opened Protocol
  import opened Invariant
  import opened Commits
  import opened Steps
  import opened Guarantees

  // ---------------------------------------------------------------- what a step does to one avatar's row and holders

  /** No run of `w` holds a claim for `id` that it did not hold, at the same claim time, in `v`. */
  ghost predicate NoNewHolder(v: State, w: State, id: AvatarId) {
    v.now <= w.now && forall r <- w.runs.Keys :: w.runs[r].HoldsFor(id) ==>
      r in v.runs && v.runs[r].HoldsFor(id) && v.runs[r].at == w.runs[r].at
        && (w.runs[r] == v.runs[r] || v.runs[r].MayPut())
  }

  ghost predicate RowStays(v: State, w: State, id: AvatarId) {
    id in v.rows ==> id in w.rows && (w.rows[id] == v.rows[id] || w.rows[id] == Deleted(v.rows[id], v.now))
  }

  lemma {:induction false} NextJobHoldsNothing(lib: Libraries, s: State, r: RunId, events: seq<UploadEvent>,
      id: AvatarId)
    ensures var w := NextJob(lib, s, r, events);
      forall q <- w.runs.Keys :: w.runs[q].HoldsFor(id) ==> q != r && q in s.runs && w.runs[q] == s.runs[q]
    decreases |events|
  {
    if events != [] && lib.parseUuid(events[0].avatarId).None? {
      NextJobHoldsNothing(lib, s, r, events[1..], id);
    }
  }

  /** Anything but a claim, a completion or a failure of `id` itself leaves its row alone, but for a soft delete. */
  predicate Touches(s: State, a: Action, id: AvatarId) {
    a.Step? && a.r in s.runs && var run := s.runs[a.r];
    (run.ProcClaim? || run.ProcComplete? || run.ProcFail?) && run.job.id == id
  }

  lemma EdgeStepsLeave(lib: Libraries, s: State, r: RunId, t: Turn, id: AvatarId)
    requires r in s.runs
    requires s.runs[r].UploadPut? || s.runs[r].UploadUndo? || s.runs[r].UploadGauge? || s.runs[r].DeleteGauge?
      || s.runs[r].Clean?
    ensures RowStays(s, StepOf(lib, s, r, t), id) && NoNewHolder(s, StepOf(lib, s, r, t), id)
  {
    hide TrimSpace;
  }

  /** A step that leaves the rows alone and its own run without a claim. */
  ghost predicate QuietMove(s: State, w: State, r: RunId) {
    && w.rows == s.rows && w.now == s.now
    && (forall q <- w.runs.Keys :: q != r ==> q in s.runs && w.runs[q] == s.runs[q])
    && (r in w.runs ==> !w.runs[r].Holding())
  }

  lemma QuietMoveLeaves(s: State, w: State, r: RunId, id: AvatarId)
    requires QuietMove(s, w, r)
    ensures RowStays(s, w, id) && NoNewHolder(s, w, id)
  {
  }

  lemma NextJobIsQuiet(lib: Libraries, s: State, r: RunId, events: seq<UploadEvent>)
    ensures QuietMove(s, NextJob(lib, s, r, events), r)
  {
    hide NextJob;
    NextJobIsLocal(lib, s, r, events);
    NextJobMovesOne(lib, s, r, events);
    NextJobReads(lib, s, r, events);
  }

  lemma {:induction false} NextJobMovesOne(lib: Libraries, s: State, r: RunId, events: seq<UploadEvent>)
    ensures var w := NextJob(lib, s, r, events);
      forall q <- w.runs.Keys :: q != r ==> q in s.runs && w.runs[q] == s.runs[q]
    decreases |events|
  {
    if events != [] && lib.parseUuid(events[0].avatarId).None? {
      NextJobMovesOne(lib, s, r, events[1..]);
    }
  }

  lemma RecoverListLeaves(lib: Libraries, s: State, r: RunId, t: Turn)
    requires r in s.runs && s.runs[r].RecoverList?
    ensures QuietMove(s, StepRecoverList(lib, s, r, t), r)
  {
    hide NextJob;
    if t.ok && IsStuckListing(s.rows, s.now, STUCK_LIMIT, t.stuck) {
      NextJobIsQuiet(lib, s, r,
        seq(|t.stuck|, i requires 0 <= i < |t.stuck| => UploadEventOf(t.stuck[i], s.rows[t.stuck[i]])));
    }
  }

  lemma ReadStepsLeave(lib: Libraries, s: State, r: RunId, t: Turn, id: AvatarId)
    requires r in s.runs
    requires s.runs[r].DeleteRead? || s.runs[r].FlushList? || s.runs[r].RecoverList? || s.runs[r].ProcRead?
    ensures RowStays(s, StepOf(lib, s, r, t), id) && NoNewHolder(s, StepOf(lib, s, r, t), id)
  {
    hide NextJob, ListUnpublished, DeleteKeys, IsOrdering, IsStuckListing, StepRecoverList, RowStays, NoNewHolder;
    if s.runs[r].ProcRead? {
      NextJobIsQuiet(lib, s, r, s.runs[r].job.rest);
    } else if s.runs[r].RecoverList? {
      RecoverListLeaves(lib, s, r, t);
    }
    QuietMoveLeaves(s, StepOf(lib, s, r, t), r, id);
  }

  lemma GetLeaves(lib: Libraries, s: State, r: RunId, t: Turn, id: AvatarId)
    requires r in s.runs && s.runs[r].ProcGet?
    ensures RowStays(s, StepProcGet(lib, s, r, t), id) && NoNewHolder(s, StepProcGet(lib, s, r, t), id)
  {
    hide Inspect;
  }

  lemma PutLeaves(lib: Libraries, s: State, r: RunId, t: Turn, id: AvatarId)
    requires r in s.runs && s.runs[r].ProcThumb?
    ensures RowStays(s, StepProcThumb(lib, s, r, t), id) && NoNewHolder(s, StepProcThumb(lib, s, r, t), id)
  {
    hide Thumbnail, ThumbnailObjectKey, ExtForMime;
  }

  lemma ImageStepsLeave(lib: Libraries, s: State, r: RunId, t: Turn, id: AvatarId)
    requires r in s.runs && s.runs[r].MayPut()
    ensures RowStays(s, StepOf(lib, s, r, t), id) && NoNewHolder(s, StepOf(lib, s, r, t), id)
  {
    hide StepProcGet, StepProcThumb, RowStays, NoNewHolder;
    if s.runs[r].ProcGet? {
      GetLeaves(lib, s, r, t, id);
    } else {
      PutLeaves(lib, s, r, t, id);
    }
  }

  lemma PublishLeaves(lib: Libraries, s: State, r: RunId, t: Turn, id: AvatarId)
    requires r in s.runs && s.runs[r].FlushPublish?
    ensures RowStays(s, StepFlushPublish(lib, s, r, t), id) && NoNewHolder(s, StepFlushPublish(lib, s, r, t), id)
  {
    hide Sendable, Publish, RowStays, NoNewHolder;
    var items := s.runs[r].items;
    if items != [] && Sendable(lib, items[0]) && t.Lands() {
      PublishLeavesRuns(lib, s, items[0], t.trace);
    }
    QuietMoveLeaves(s, StepFlushPublish(lib, s, r, t), r, id);
  }

  lemma PublishLeavesRuns(lib: Libraries, s: State, item: OutboxItem, trace: seq<Header>)
    requires Sendable(lib, item)
    ensures var w := Publish(lib, s, item, trace); w.runs == s.runs && w.rows == s.rows && w.now == s.now
  {
    hide UploadMessage, DeleteMessage;
  }

  lemma MarkLeaves(lib: Libraries, s: State, r: RunId, t: Turn, id: AvatarId)
    requires r in s.runs && s.runs[r].FlushMark?
    ensures RowStays(s, StepFlushMark(s, r, t), id) && NoNewHolder(s, StepFlushMark(s, r, t), id)
  {
    hide MarkPublished;
  }

  lemma CommitsLeave(lib: Libraries, s: State, r: RunId, t: Turn, id: AvatarId)
    requires r in s.runs && (s.runs[r].UploadCreate? || s.runs[r].DeleteTx?)
    ensures RowStays(s, StepOf(lib, s, r, t), id) && NoNewHolder(s, StepOf(lib, s, r, t), id)
  {
    hide InsertOutbox, Seals;
  }

  lemma ProcStepsLeave(lib: Libraries, s: State, r: RunId, t: Turn, id: AvatarId)
    requires r in s.runs && (s.runs[r].ProcClaim? || s.runs[r].ProcComplete? || s.runs[r].ProcFail?)
    requires s.runs[r].job.id != id
    ensures RowStays(s, StepOf(lib, s, r, t), id) && NoNewHolder(s, StepOf(lib, s, r, t), id)
  {
    hide NextJob;
    var job := s.runs[r].job;
    ProcStepsEnd(lib, s, r, t, id);
  }

  /** The call ended, perhaps after a write to the row of its own avatar. */
  ghost predicate Ended(s: State, w: State, r: RunId, own: AvatarId, id: AvatarId) {
    && (forall x <- s.rows.Keys :: x in w.rows && (x != own ==> w.rows[x] == s.rows[x]))
    && (forall q <- w.runs.Keys :: w.runs[q].HoldsFor(id) ==> q != r && q in s.runs && w.runs[q] == s.runs[q])
    && (r in w.runs ==> !w.runs[r].Holding()) && w.now == s.now
  }

  lemma EndsAfterWrite(lib: Libraries, s: State, r: RunId, job: Job, row: Row, id: AvatarId)
    ensures Ended(s, EndJob(lib, s, r, job), r, job.id, id) && EndJob(lib, s, r, job).rows == s.rows
    ensures Ended(s, EndJob(lib, s.(rows := s.rows[job.id := row]), r, job), r, job.id, id)
  {
    hide EndJob;
    EndHoldsNothing(lib, s, r, job, id);
    EndHoldsNothing(lib, s.(rows := s.rows[job.id := row]), r, job, id);
  }

  ghost predicate ProcEnded(s: State, w: State, r: RunId, id: AvatarId)
    requires r in s.runs && (s.runs[r].ProcClaim? || s.runs[r].ProcComplete? || s.runs[r].ProcFail?)
  {
    var job := s.runs[r].job;
    || (Ended(s, w, r, job.id, id) &&
        (s.runs[r].ProcClaim? && job.id in s.rows && !Claimable(s.rows[job.id], s.now) ==> w.rows == s.rows))
    || (s.runs[r].ProcClaim? && job.id in s.rows && Claimable(s.rows[job.id], s.now)
        && w == Goto(s.(rows := s.rows[job.id := Claimed(s.rows[job.id], s.now)]), r, ProcGet(job, s.now)))
  }

  lemma ClaimEnds(lib: Libraries, s: State, r: RunId, t: Turn, id: AvatarId)
    requires r in s.runs && s.runs[r].ProcClaim?
    ensures ProcEnded(s, StepProcClaim(lib, s, r, t), r, id)
  {
    hide EndJob, Ended, Claimable;
    var job := s.runs[r].job;
    var row := if job.id in s.rows then s.rows[job.id] else Row("", "", 0, 0, 0, "", map[], Pending, 0, 0, None);
    EndsAfterWrite(lib, s, r, job, Claimed(row, s.now), id);
  }

  lemma FinishEnds(lib: Libraries, s: State, r: RunId, t: Turn, id: AvatarId)
    requires r in s.runs && (s.runs[r].ProcComplete? || s.runs[r].ProcFail?)
    ensures Ended(s, StepOf(lib, s, r, t), r, s.runs[r].job.id, id)
  {
    hide EndJob, Ended;
    var run := s.runs[r];
    var row := if run.job.id in s.rows then s.rows[run.job.id]
      else Row("", "", 0, 0, 0, "", map[], Pending, 0, 0, None);
    if run.ProcComplete? {
      EndsAfterWrite(lib, s, r, run.job, Finished(row, run.info, run.thumbs, s.now), id);
    } else {
      EndsAfterWrite(lib, s, r, run.job, row.(status := Failed, updated := s.now), id);
    }
  }

  /** A claim, completion or failure that ends its call leaves the run without a claim. */
  lemma ProcStepsEnd(lib: Libraries, s: State, r: RunId, t: Turn, id: AvatarId)
    requires r in s.runs && (s.runs[r].ProcClaim? || s.runs[r].ProcComplete? || s.runs[r].ProcFail?)
    ensures ProcEnded(s, StepOf(lib, s, r, t), r, id)
  {
    hide StepProcClaim, StepProcComplete, StepProcFail, Ended;
    if s.runs[r].ProcClaim? {
      ClaimEnds(lib, s, r, t, id);
    } else {
      FinishEnds(lib, s, r, t, id);
    }
  }

  lemma EndHoldsNothing(lib: Libraries, s: State, r: RunId, job: Job, id: AvatarId)
    ensures var w := EndJob(lib, s, r, job);
      && w == s.(runs := w.runs)
      && (forall q <- w.runs.Keys :: w.runs[q].HoldsFor(id) ==> q != r && q in s.runs && w.runs[q] == s.runs[q])
      && (r in w.runs ==> !w.runs[r].Holding())
  {
    hide NextJob;
    NextJobIsLocal(lib, s, r, job.rest);
    NextJobHoldsNothing(lib, s, r, job.rest, id);
    NextJobReads(lib, s, r, job.rest);
  }

  lemma {:induction false} NextJobReads(lib: Libraries, s: State, r: RunId, events: seq<UploadEvent>)
    ensures var w := NextJob(lib, s, r, events); r in w.runs ==> w.runs[r].ProcRead?
    decreases |events|
  {
    if events != [] && lib.parseUuid(events[0].avatarId).None? {
      NextJobReads(lib, s, r, events[1..]);
    }
  }

  lemma OthersLeave(lib: Libraries, s: State, a: Action, id: AvatarId)
    requires Enabled(lib, s, a) && !Touches(s, a, id)
    ensures RowStays(s, Next(lib, s, a), id) && NoNewHolder(s, Next(lib, s, a), id)
  {
    hide StepUploadPut, StepUploadCreate, StepUploadUndo, StepGauge, StepDeleteRead, StepDeleteTx, StepFlushList,
      StepFlushPublish, StepFlushMark, StepRecoverList, StepProcRead, StepProcClaim, StepProcGet, StepProcThumb,
      StepProcComplete, StepProcFail, StepClean, TraceOnly, NextJob, HandleUpload, HandleDelete, NewRow, Inspect;
    if a.Step? {
      hide RowStays, NoNewHolder;
      var run := s.runs[a.r];
      if run.UploadCreate? || run.DeleteTx? {
        CommitsLeave(lib, s, a.r, a.t, id);
      } else if run.FlushPublish? {
        PublishLeaves(lib, s, a.r, a.t, id);
      } else if run.FlushMark? {
        MarkLeaves(lib, s, a.r, a.t, id);
      } else if run.ProcClaim? || run.ProcComplete? || run.ProcFail? {
        ProcStepsLeave(lib, s, a.r, a.t, id);
      } else if run.MayPut() {
        ImageStepsLeave(lib, s, a.r, a.t, id);
      } else if run.DeleteRead? || run.FlushList? || run.RecoverList? || run.ProcRead? {
        ReadStepsLeave(lib, s, a.r, a.t, id);
      } else {
        EdgeStepsLeave(lib, s, a.r, a.t, id);
      }
    } else if a.DeliverUpload? && HandleUpload(lib, s.uploads[a.offset]).Ok? {
      var ev := HandleUpload(lib, s.uploads[a.offset]).value;
      NextJobIsLocal(lib, s, a.r, [ev]);
      NextJobHoldsNothing(lib, s, a.r, [ev], id);
    }
  }

  // ---------------------------------------------------------------- mutual exclusion

  /** Every claim-holder is within two minutes of its claim. */
  ghost predicate Timely(s: State) {
    forall r <- s.runs.Keys :: s.runs[r].Holding() ==> s.now <= s.runs[r].at + 120_000_000
  }

  /** `s` and every state on the way of the actions. */
  ghost predicate TimelyThroughout(lib: Libraries, s: State, actions: seq<Action>)
    requires Legal(lib, s, actions)
    decreases |actions|
  {
    Timely(s) && (actions != [] ==> TimelyThroughout(lib, Next(lib, s, actions[0]), actions[1..]))
  }

  /** The one holder of a claim, and what the row says of it. */
  ghost predicate LeaseOk(s: State, id: AvatarId)
    requires id in s.rows
  {
    && (forall r <- s.runs.Keys :: s.runs[r].HoldsFor(id) && s.rows[id].Live() ==>
          s.rows[id].status == Processing && s.rows[id].updated == s.runs[r].at)
    && (forall q <- s.runs.Keys, r <- s.runs.Keys :: s.runs[q].HoldsFor(id) && s.runs[r].HoldsFor(id) ==> q == r)
  }

  ghost predicate LeasesOk(s: State) {
    forall id <- s.rows.Keys :: LeaseOk(s, id)
  }

  lemma TouchKeepsLease(lib: Libraries, s: State, a: Action, id: AvatarId)
    requires Enabled(lib, s, a) && id in s.rows && Touches(s, a, id) && LeaseOk(s, id) && Timely(s)
    ensures id in Next(lib, s, a).rows && LeaseOk(Next(lib, s, a), id)
  {
    hide NextJob, EndJob, TraceOnly;
    ProcStepsEnd(lib, s, a.r, a.t, id);
    var w := Next(lib, s, a);
    if s.runs[a.r].ProcClaim? && Claimable(s.rows[id], s.now) {
      assert forall q <- s.runs.Keys :: !s.runs[q].HoldsFor(id);
    } else if !s.runs[a.r].ProcClaim? {
      assert s.runs[a.r].HoldsFor(id);
      assert forall q <- w.runs.Keys :: !w.runs[q].HoldsFor(id);
    }
  }

  lemma OtherKeepsLease(lib: Libraries, s: State, a: Action, id: AvatarId)
    requires Enabled(lib, s, a) && id in s.rows && !Touches(s, a, id) && LeaseOk(s, id)
    ensures id in Next(lib, s, a).rows && LeaseOk(Next(lib, s, a), id)
  {
    hide Next, Enabled, Touches;
    OthersLeave(lib, s, a, id);
  }

  /** A row that was just inserted has no holder: every holder's row existed before. */
  lemma NewRowUnheld(lib: Libraries, s: State, a: Action, id: AvatarId)
    requires Inv(lib, s) && Enabled(lib, s, a) && id !in s.rows && id in Next(lib, s, a).rows
    ensures LeaseOk(Next(lib, s, a), id)
  {
    hide Inv, Next, Enabled;
    if Touches(s, a, id) {
      JobFacts(lib, s, a.r);
      assert false;
    }
    OthersLeave(lib, s, a, id);
    var w := Next(lib, s, a);
    forall r <- w.runs.Keys
      ensures !w.runs[r].HoldsFor(id)
    {
      if w.runs[r].HoldsFor(id) {
        JobFacts(lib, s, r);
        assert false;
      }
    }
  }

  lemma NextKeepsLeases(lib: Libraries, s: State, a: Action)
    requires Lawful(lib) && Inv(lib, s) && Enabled(lib, s, a) && LeasesOk(s) && Timely(s)
    ensures LeasesOk(Next(lib, s, a))
  {
    NextKeeps(lib, s, a);
    hide Inv, Lawful, Next, Enabled, Touches, Timely, LeaseOk;
    var w := Next(lib, s, a);
    forall id <- w.rows.Keys
      ensures LeaseOk(w, id)
    {
      if id in s.rows {
        if Touches(s, a, id) {
          TouchKeepsLease(lib, s, a, id);
        } else {
          OtherKeepsLease(lib, s, a, id);
        }
      } else {
        NewRowUnheld(lib, s, a, id);
      }
    }
  }

  lemma {:induction false} ExecutionKeepsLeases(lib: Libraries, s: State, actions: seq<Action>)
    requires Lawful(lib) && Inv(lib, s) && LeasesOk(s) && Legal(lib, s, actions) && TimelyThroughout(lib, s, actions)
    ensures LeasesOk(After(lib, s, actions))
    decreases |actions|
  {
    hide Inv, Lawful, LeasesOk, Next, Enabled, Timely;
    if actions != [] {
      NextKeepsLeases(lib, s, actions[0]);
      NextKeeps(lib, s, actions[0]);
      ExecutionKeepsLeases(lib, Next(lib, s, actions[0]), actions[1..]);
    }
  }

  /** In executions where every claim-holder finishes or dies within two minutes of its claim, at most one
      run at a time is between claiming an avatar and completing or failing it, and while its row is live the
      row carries its lease. */
  lemma MutualExclusion(lib: Libraries, actions: seq<Action>, q: RunId, r: RunId, id: AvatarId)
    requires Lawful(lib) && Legal(lib, INIT, actions) && TimelyThroughout(lib, INIT, actions)
    requires var s := After(lib, INIT, actions);
      q in s.runs && r in s.runs && s.runs[q].HoldsFor(id) && s.runs[r].HoldsFor(id)
    ensures q == r
    ensures var s := After(lib, INIT, actions);
      id in s.rows && (s.rows[id].Live() ==> s.rows[id].status == Processing && s.rows[id].updated == s.runs[r].at)
  {
    hide Inv, Lawful, Legal, After, TimelyThroughout;
    InitHolds(lib);
    assert LeasesOk(INIT);
    ExecutionKeepsLeases(lib, INIT, actions);
    ExecutionKeeps(lib, INIT, actions);
    var s := After(lib, INIT, actions);
    JobFacts(lib, s, r);
    assert LeaseOk(s, id);
  }

  // ---------------------------------------------------------------- when `completed` is final

  /** A run that may still write `failed`. */
  predicate CanFail(run: Run, id: AvatarId) {
    (run.MayPut() || run.ProcFail?) && run.job.id == id
  }

  ghost predicate NoLateFailure(s: State, id: AvatarId)
    requires id in s.rows
  {
    s.rows[id].Live() ==> forall r <- s.runs.Keys :: !CanFail(s.runs[r], id)
  }

  ghost predicate Final(s: State, id: AvatarId) {
    id in s.rows && s.rows[id].status == Completed && NoLateFailure(s, id)
  }

  lemma NextKeepsFinal(lib: Libraries, s: State, a: Action, id: AvatarId)
    requires Enabled(lib, s, a) && Final(s, id)
    ensures Final(Next(lib, s, a), id)
  {
    if Touches(s, a, id) {
      hide NextJob, EndJob, TraceOnly;
      ProcStepsEnd(lib, s, a.r, a.t, id);
      var w := Next(lib, s, a);
      var run := s.runs[a.r];
      assert run.ProcFail? ==> CanFail(run, id);
      if run.ProcComplete? && s.rows[id].Live() && a.t.Lands() {
        var done := s.(rows := s.rows[id := Finished(s.rows[id], run.info, run.thumbs, s.now)]);
        EndHoldsNothing(lib, done, a.r, run.job, id);
        assert w.rows == done.rows;
      } else {
        EndHoldsNothing(lib, s, a.r, run.job, id);
        assert w.rows == s.rows;
      }
    } else {
      hide Next, Enabled, Touches;
      OthersLeave(lib, s, a, id);
    }
  }

  lemma {:induction false} ExecutionKeepsFinal(lib: Libraries, s: State, actions: seq<Action>, id: AvatarId)
    requires Final(s, id) && Legal(lib, s, actions)
    ensures Final(After(lib, s, actions), id)
    decreases |actions|
  {
    hide Final, Next, Enabled;
    if actions != [] {
      NextKeepsFinal(lib, s, actions[0], id);
      ExecutionKeepsFinal(lib, Next(lib, s, actions[0]), actions[1..], id);
    }
  }

  /** A turn that succeeds, and one that fails without effect. */
  function Good(serial: nat): Turn { Turn(true, true, false, serial, [], [], []) }

  function Bad(serial: nat): Turn { Turn(false, false, false, serial, [], [], []) }

  lemma FailOverwrites(lib: Libraries, s: State, id: AvatarId, r: RunId, serial: nat)
    requires id in s.rows && s.rows[id].Live() && r in s.runs && s.runs[r].ProcFail? && s.runs[r].job.id == id
    requires serial !in s.outbox
    ensures var actions := [Step(r, Good(serial))];
      Legal(lib, s, actions) && id in After(lib, s, actions).rows && After(lib, s, actions).rows[id].status == Failed
  {
    hide NextJob;
    var w := s.(rows := s.rows[id := s.rows[id].(status := Failed, updated := s.now)]);
    EndHoldsNothing(lib, w, r, s.runs[r].job, id);
    var a := Step(r, Good(serial));
    assert Next(lib, s, a).rows == w.rows;
    OneStep(lib, s, a);
  }

  lemma PutFailsNext(lib: Libraries, s: State, r: RunId, serial: nat)
    requires r in s.runs && s.runs[r].MayPut() && serial !in s.outbox
    ensures Enabled(lib, s, Step(r, Bad(serial)))
    ensures Next(lib, s, Step(r, Bad(serial))) == Goto(s, r, ProcFail(s.runs[r].job, s.runs[r].at, false))
  {
    hide Thumbnail, Inspect;
  }

  /** `completed` is final in every continuation exactly if no run can still write `failed` to the live row: the guard
      of FailProcessing looks at the deletion mark, not at the status. */
  lemma CompletedIsFinalIff(lib: Libraries, s: State, id: AvatarId)
    requires id in s.rows && s.rows[id].status == Completed
    ensures (forall actions: seq<Action> :: Legal(lib, s, actions) ==>
               id in After(lib, s, actions).rows && After(lib, s, actions).rows[id].status == Completed)
            <==> NoLateFailure(s, id)
  {
    hide Legal, After, Next, Enabled;
    if NoLateFailure(s, id) {
      forall actions: seq<Action> | Legal(lib, s, actions)
        ensures id in After(lib, s, actions).rows && After(lib, s, actions).rows[id].status == Completed
      {
        ExecutionKeepsFinal(lib, s, actions, id);
      }
    } else {
      var r :| r in s.runs && CanFail(s.runs[r], id);
      var serial := FreshOf(s.outbox);
      var actions := [Step(r, Good(serial))];
      if s.runs[r].ProcFail? {
        FailOverwrites(lib, s, id, r, serial);
      } else {
        PutFailsNext(lib, s, r, serial);
        var failing := Goto(s, r, ProcFail(s.runs[r].job, s.runs[r].at, false));
        FailOverwrites(lib, failing, id, r, serial);
        ThenStep(lib, s, Step(r, Bad(serial)), actions);
        actions := [Step(r, Bad(serial))] + actions;
      }
      assert Legal(lib, s, actions) && After(lib, s, actions).rows[id].status == Failed;
    }
  }

  // ---------------------------------------------------------------- completed once

  /** Completed, and nobody is at work on it. */
  ghost predicate Unheld(s: State, id: AvatarId) {
    id in s.rows && s.rows[id].status == Completed && forall r <- s.runs.Keys :: !s.runs[r].HoldsFor(id)
  }

  lemma NextKeepsUnheld(lib: Libraries, s: State, a: Action, id: AvatarId)
    requires Enabled(lib, s, a) && Unheld(s, id)
    ensures Unheld(Next(lib, s, a), id)
  {
    if Touches(s, a, id) {
      hide NextJob, EndJob, TraceOnly;
      assert s.runs[a.r].ProcClaim?;
      ProcStepsEnd(lib, s, a.r, a.t, id);
    } else {
      hide Next, Enabled, Touches;
      OthersLeave(lib, s, a, id);
    }
  }

  lemma {:induction false} ExecutionKeepsUnheld(lib: Libraries, s: State, actions: seq<Action>, id: AvatarId)
    requires Unheld(s, id) && Legal(lib, s, actions)
    ensures Unheld(After(lib, s, actions), id)
    decreases |actions|
  {
    hide Unheld, Next, Enabled;
    if actions != [] {
      NextKeepsUnheld(lib, s, actions[0], id);
      ExecutionKeepsUnheld(lib, Next(lib, s, actions[0]), actions[1..], id);
    }
  }

  /** With timely claims a completed live row is final: in every continuation, timely or not, it stays completed and no
      run ever holds a claim for it again. */
  lemma TimelyCompletionIsFinal(lib: Libraries, actions: seq<Action>, id: AvatarId, more: seq<Action>)
    requires Lawful(lib) && Legal(lib, INIT, actions) && TimelyThroughout(lib, INIT, actions)
    requires var s := After(lib, INIT, actions);
      id in s.rows && s.rows[id].Live() && s.rows[id].status == Completed && Legal(lib, s, more)
    ensures var later := After(lib, After(lib, INIT, actions), more);
      && id in later.rows && later.rows[id].status == Completed
      && forall r <- later.runs.Keys :: !later.runs[r].HoldsFor(id)
  {
    hide Inv, Lawful, Legal, After, TimelyThroughout;
    InitHolds(lib);
    assert LeasesOk(INIT);
    ExecutionKeepsLeases(lib, INIT, actions);
    var s := After(lib, INIT, actions);
    assert LeaseOk(s, id);
    assert Unheld(s, id);
    ExecutionKeepsUnheld(lib, s, more, id);
  }

  /** The step writes `completed` to the live row. */
  predicate Completes(s: State, r: RunId, t: Turn, id: AvatarId) {
    r in s.runs && s.runs[r].ProcComplete? && s.runs[r].job.id == id && t.Lands() && id in s.rows && s.rows[id].Live()
  }

  /** Completed at most once: if all claims were timely when a run completed the avatar, no step of any run completes it
      again, in any continuation. */
  lemma CompletedOnce(lib: Libraries, actions: seq<Action>, id: AvatarId, r: RunId, t: Turn, more: seq<Action>,
      q: RunId, u: Turn)
    requires Lawful(lib) && Legal(lib, INIT, actions) && TimelyThroughout(lib, INIT, actions)
    requires var s := After(lib, INIT, actions);
      Enabled(lib, s, Step(r, t)) && Completes(s, r, t, id) && Legal(lib, Next(lib, s, Step(r, t)), more)
    ensures !Completes(After(lib, Next(lib, After(lib, INIT, actions), Step(r, t)), more), q, u, id)
  {
    hide Inv, Lawful, Legal, After, TimelyThroughout, Timely, LeasesOk;
    InitHolds(lib);
    assert LeasesOk(INIT) by { NoLeasesYet(); }
    ExecutionKeepsLeases(lib, INIT, actions);
    ExecutionKeeps(lib, INIT, actions);
    TimelyAtEnd(lib, INIT, actions);
    var s := After(lib, INIT, actions);
    NextKeepsLeases(lib, s, Step(r, t));
    CompletesUnheld(lib, s, r, t, id);
    hide Next, Enabled;
    ExecutionKeepsUnheld(lib, Next(lib, s, Step(r, t)), more, id);
  }

  lemma {:induction false} TimelyAtEnd(lib: Libraries, s: State, actions: seq<Action>)
    requires Legal(lib, s, actions) && TimelyThroughout(lib, s, actions)
    ensures Timely(After(lib, s, actions))
    decreases |actions|
  {
    hide Timely, Next, Enabled;
    if actions != [] {
      TimelyAtEnd(lib, Next(lib, s, actions[0]), actions[1..]);
    }
  }

  lemma NoLeasesYet()
    ensures LeasesOk(INIT)
  {
  }

  lemma CompletesUnheld(lib: Libraries, s: State, r: RunId, t: Turn, id: AvatarId)
    requires Enabled(lib, s, Step(r, t)) && Completes(s, r, t, id) && LeasesOk(Next(lib, s, Step(r, t)))
    ensures Unheld(Next(lib, s, Step(r, t)), id)
  {
    hide EndJob, TraceOnly;
    var run := s.runs[r];
    EndHoldsNothing(lib, s.(rows := s.rows[id := Finished(s.rows[id], run.info, run.thumbs, s.now)]), r, run.job, id);
    var w := Next(lib, s, Step(r, t));
    assert w.rows[id].status == Completed && w.rows[id].Live();
    hide Next, Enabled, Finished;
    assert LeaseOk(w, id);
  }
}
