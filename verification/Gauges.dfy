/** The storage gauges: what all processes report together is the size of what is stored. */
module Gauges {
  import opened Text
  import opened Domain
  import opened Images
  import opened Headers
  import opened Protocol
  import opened Invariant
  import opened Commits
  import opened Steps
  import opened Outbox

  // ---------------------------------------------------------------- sums over maps

  ghost function Total<K>(m: map<K, int>): int {
    if m == map[] then 0 else var k :| k in m; m[k] + Total(m - {k})
  }

  ghost function At<K>(m: map<K, int>, k: K): int {
    if k in m then m[k] else 0
  }

  lemma {:induction false} TotalSplits<K>(m: map<K, int>, k: K)
    ensures Total(m) == At(m, k) + Total(m - {k})
    decreases |m|
  {
    if k !in m {
      assert m - {k} == m;
    } else {
      var j :| j in m && Total(m) == m[j] + Total(m - {j});
      if j != k {
        TotalSplits(m - {j}, k);
        TotalSplits(m - {k}, j);
        assert m - {j} - {k} == m - {k} - {j};
      }
    }
  }

  lemma TotalUpdates<K>(m: map<K, int>, k: K, v: int)
    ensures Total(m[k := v]) == Total(m) - At(m, k) + v
    ensures Total(m - {k}) == Total(m) - At(m, k)
  {
    TotalSplits(m, k);
    TotalSplits(m[k := v], k);
    assert m[k := v] - {k} == m - {k};
  }

  // ---------------------------------------------------------------- conservation

  ghost function LiveSizes(rows: map<AvatarId, Row>): map<AvatarId, int> {
    map id <- rows.Keys :: if rows[id].Live() then rows[id].size else 0
  }

  ghost function Debts(runs: map<RunId, Run>): map<RunId, int> {
    map r <- runs.Keys :: Owed(runs[r])
  }

  /** All gauges together, plus what committed runs have yet to report, plus what crashes and restarts lost, is the size
      of all live avatars. */
  ghost predicate Conserved(s: State) {
    Total(s.gauges) + Total(Debts(s.runs)) + s.lost == Total(LiveSizes(s.rows))
  }

  ghost function DebtOf(runs: map<RunId, Run>, r: RunId): int {
    if r in runs then Owed(runs[r]) else 0
  }

  /** Only run `r` moved. */
  ghost predicate OneMoved(v: map<RunId, Run>, w: map<RunId, Run>, r: RunId) {
    w == v - {r} || (r in w && w == v[r := w[r]])
  }

  lemma DebtsMove(v: map<RunId, Run>, w: map<RunId, Run>, r: RunId)
    requires OneMoved(v, w, r)
    ensures Total(Debts(w)) == Total(Debts(v)) - DebtOf(v, r) + DebtOf(w, r)
  {
    if r in w {
      assert Debts(w) == Debts(v)[r := Owed(w[r])];
      TotalUpdates(Debts(v), r, Owed(w[r]));
    } else {
      assert Debts(w) == Debts(v) - {r};
      TotalUpdates(Debts(v), r, 0);
    }
  }

  lemma SizesMove(v: map<AvatarId, Row>, w: map<AvatarId, Row>, id: AvatarId)
    requires id in w && w == v[id := w[id]]
    ensures Total(LiveSizes(w)) == Total(LiveSizes(v)) - At(LiveSizes(v), id) + At(LiveSizes(w), id)
  {
    assert LiveSizes(w) == LiveSizes(v)[id := LiveSizes(w)[id]];
    TotalUpdates(LiveSizes(v), id, LiveSizes(w)[id]);
  }

  /** A step that moves run `r`, and perhaps row `id`, and reports nothing. */
  ghost predicate Neutral(s: State, w: State, r: RunId) {
    && w.gauges == s.gauges && w.lost == s.lost && OneMoved(s.runs, w.runs, r)
    && DebtOf(w.runs, r) == DebtOf(s.runs, r) && LiveSizes(w.rows) == LiveSizes(s.rows)
  }

  lemma NeutralConserves(s: State, w: State, r: RunId)
    requires Conserved(s) && Neutral(s, w, r)
    ensures Conserved(w)
  {
    DebtsMove(s.runs, w.runs, r);
  }

  lemma {:induction false} NextJobOwesNothing(lib: Libraries, s: State, r: RunId, events: seq<UploadEvent>)
    ensures var w := NextJob(lib, s, r, events);
      w == s.(runs := w.runs) && OneMoved(s.runs, w.runs, r) && DebtOf(w.runs, r) == 0
    decreases |events|
  {
    if events != [] && lib.parseUuid(events[0].avatarId).None? {
      NextJobOwesNothing(lib, s, r, events[1..]);
    }
  }

  lemma EdgeNeutral(lib: Libraries, s: State, r: RunId, t: Turn)
    requires r in s.runs && (s.runs[r].UploadPut? || s.runs[r].UploadUndo?)
    ensures Neutral(s, StepOf(lib, s, r, t), r)
  {
    hide TrimSpace, LiveSizes;
  }

  lemma CleanNeutral(s: State, r: RunId, t: Turn)
    requires r in s.runs && s.runs[r].Clean?
    ensures Neutral(s, StepClean(s, r, t), r)
  {
    hide TrimSpace, LiveSizes, RemoveKey, GoClean, Neutral;
    var keys := if s.runs[r].keys == [] then [] else s.runs[r].keys[1..];
    GoCleanNeutral(s, r, s.bucket, s.runs[r].avatar, keys);
    if s.runs[r].keys != [] {
      GoCleanNeutral(s, r, RemoveKey(s.bucket, TrimSpace(s.runs[r].keys[0])), s.runs[r].avatar, keys);
    }
    assert s.(bucket := s.bucket) == s;
  }

  lemma GoCleanNeutral(s: State, r: RunId, bucket: map<string, Object>, id: string, keys: seq<string>)
    requires r in s.runs && Owed(s.runs[r]) == 0
    ensures Neutral(s, GoClean(s.(bucket := bucket), r, id, keys), r) && Neutral(s, Drop(s.(bucket := bucket), r), r)
  {
    hide LiveSizes;
  }

  lemma GetNeutral(lib: Libraries, s: State, r: RunId, t: Turn)
    requires r in s.runs && s.runs[r].ProcGet?
    ensures Neutral(s, StepProcGet(lib, s, r, t), r)
  {
    hide Inspect, LiveSizes;
  }

  lemma PutNeutral(lib: Libraries, s: State, r: RunId, t: Turn)
    requires r in s.runs && s.runs[r].ProcThumb?
    ensures Neutral(s, StepProcThumb(lib, s, r, t), r)
  {
    hide Thumbnail, ThumbnailObjectKey, ExtForMime, LiveSizes;
  }

  lemma ImageNeutral(lib: Libraries, s: State, r: RunId, t: Turn)
    requires r in s.runs && s.runs[r].MayPut()
    ensures Neutral(s, StepOf(lib, s, r, t), r)
  {
    hide StepProcGet, StepProcThumb, Neutral;
    if s.runs[r].ProcGet? {
      GetNeutral(lib, s, r, t);
    } else {
      PutNeutral(lib, s, r, t);
    }
  }

  lemma ReadNeutral(lib: Libraries, s: State, r: RunId, t: Turn)
    requires r in s.runs
    requires (s.runs[r].DeleteRead? || s.runs[r].FlushList? || s.runs[r].RecoverList? || s.runs[r].ProcRead?)
    ensures Neutral(s, StepOf(lib, s, r, t), r)
  {
    hide NextJob, ListUnpublished, DeleteKeys, IsOrdering, LiveSizes;
    if s.runs[r].ProcRead? {
      NextJobOwesNothing(lib, s, r, s.runs[r].job.rest);
    } else if s.runs[r].RecoverList? && t.ok && IsStuckListing(s.rows, s.now, STUCK_LIMIT, t.stuck) {
      var events := seq(|t.stuck|, i requires 0 <= i < |t.stuck| => UploadEventOf(t.stuck[i], s.rows[t.stuck[i]]));
      NextJobOwesNothing(lib, s, r, events);
    } else {
      assert s.runs[r := s.runs[r]] == s.runs;
    }
  }

  lemma PublishReportsNothing(lib: Libraries, s: State, item: OutboxItem, trace: seq<Header>)
    requires Sendable(lib, item)
    ensures var w := Publish(lib, s, item, trace);
      w.runs == s.runs && w.rows == s.rows && w.gauges == s.gauges && w.lost == s.lost
  {
    hide UploadMessage, DeleteMessage;
  }

  lemma PublishNeutral(lib: Libraries, s: State, r: RunId, t: Turn)
    requires r in s.runs && s.runs[r].FlushPublish?
    ensures Neutral(s, StepFlushPublish(lib, s, r, t), r)
  {
    hide LiveSizes, Sendable, Publish;
    var items := s.runs[r].items;
    if items != [] && Sendable(lib, items[0]) && t.Lands() {
      PublishReportsNothing(lib, s, items[0], t.trace);
    }
  }

  lemma MarkNeutral(s: State, r: RunId, t: Turn)
    requires r in s.runs && s.runs[r].FlushMark?
    ensures Neutral(s, StepFlushMark(s, r, t), r)
  {
    hide MarkPublished, LiveSizes;
  }

  /** The end of a processing call, after row `id` perhaps changed its state. */
  lemma EndNeutral(lib: Libraries, s: State, r: RunId, job: Job, id: AvatarId, row: Row)
    requires r in s.runs && Owed(s.runs[r]) == 0
    ensures Neutral(s, EndJob(lib, s, r, job), r)
    ensures id in s.rows && row.size == s.rows[id].size && row.Live() == s.rows[id].Live() ==>
      Neutral(s, EndJob(lib, s.(rows := s.rows[id := row]), r, job), r)
  {
    hide NextJob;
    NextJobOwesNothing(lib, s, r, job.rest);
    NextJobOwesNothing(lib, s.(rows := s.rows[id := row]), r, job.rest);
  }

  lemma ClaimNeutral(s: State, r: RunId, job: Job, at: nat, id: AvatarId, row: Row)
    requires r in s.runs && Owed(s.runs[r]) == 0
    requires id in s.rows && row.size == s.rows[id].size && row.Live() == s.rows[id].Live()
    ensures Neutral(s, Goto(s.(rows := s.rows[id := row]), r, ProcGet(job, at)), r)
  {
  }

  lemma ProcNeutral(lib: Libraries, s: State, r: RunId, t: Turn)
    requires r in s.runs && (s.runs[r].ProcClaim? || s.runs[r].ProcComplete? || s.runs[r].ProcFail?)
    ensures Neutral(s, StepOf(lib, s, r, t), r)
  {
    hide EndJob, Neutral;
    var run := s.runs[r];
    var id := run.job.id;
    if id in s.rows {
      var row := s.rows[id];
      EndNeutral(lib, s, r, run.job, id, Claimed(row, s.now));
      EndNeutral(lib, s, r, run.job, id, row.(status := Failed, updated := s.now));
      if run.ProcComplete? {
        EndNeutral(lib, s, r, run.job, id, Finished(row, run.info, run.thumbs, s.now));
      } else if run.ProcClaim? {
        ClaimNeutral(s, r, run.job, s.now, id, Claimed(row, s.now));
      }
    } else {
      EndNeutral(lib, s, r, run.job, id, Row("", "", 0, 0, 0, "", map[], Pending, 0, 0, None));
    }
  }

  lemma CreateConserves(lib: Libraries, s: State, r: RunId, t: Turn)
    requires Conserved(s) && r in s.runs && s.runs[r].UploadCreate?
    requires NewRowOk(s.runs[r].id, s.runs[r].row)
    ensures Conserved(StepUploadCreate(lib, s, r, t))
  {
    hide InsertOutbox, LiveSizes, RowOk;
    var run := s.runs[r];
    var w := StepUploadCreate(lib, s, r, t);
    DebtsMove(s.runs, w.runs, r);
    if t.ok && run.id !in s.rows {
      SizesMove(s.rows, w.rows, run.id);
      SizeAt(s.rows, run.id);
      SizeAt(w.rows, run.id);
    }
  }

  lemma SizeAt(rows: map<AvatarId, Row>, id: AvatarId)
    ensures At(LiveSizes(rows), id) == if id in rows && rows[id].Live() then rows[id].size else 0
  {
  }

  lemma DeleteConserves(lib: Libraries, s: State, r: RunId, t: Turn)
    requires Conserved(s) && r in s.runs && s.runs[r].DeleteTx?
    requires s.runs[r].id in s.rows && s.rows[s.runs[r].id].size == s.runs[r].size
    ensures Conserved(StepDeleteTx(lib, s, r, t))
  {
    hide InsertOutbox, LiveSizes, Seals;
    var run := s.runs[r];
    var w := StepDeleteTx(lib, s, r, t);
    DebtsMove(s.runs, w.runs, r);
    if t.ok && s.rows[run.id].Live() && s.rows[run.id].user == run.user {
      SizesMove(s.rows, w.rows, run.id);
      SizeAt(s.rows, run.id);
      SizeAt(w.rows, run.id);
    }
  }

  lemma GaugeConserves(s: State, r: RunId)
    requires Conserved(s) && r in s.runs && (s.runs[r].UploadGauge? || s.runs[r].DeleteGauge?)
    ensures Conserved(StepGauge(s, r))
  {
    hide LiveSizes;
    var w := StepGauge(s, r);
    DebtsMove(s.runs, w.runs, r);
    TotalUpdates(s.gauges, s.runs[r].proc, w.gauges[s.runs[r].proc]);
  }

  /** A step moves its own run and no other. */
  lemma StepMovesOne(lib: Libraries, s: State, r: RunId, t: Turn)
    requires r in s.runs
    ensures OneMoved(s.runs, StepOf(lib, s, r, t).runs, r)
  {
    hide LiveSizes, DebtOf, Owed, InsertOutbox, Seals, StepFlushPublish, StepFlushMark, StepRecoverList, StepProcRead,
      StepProcClaim, StepProcGet, StepProcThumb, StepProcComplete, StepProcFail, StepClean, StepUploadPut,
      StepUploadUndo, StepDeleteRead, StepFlushList;
    var run := s.runs[r];
    if run.FlushPublish? {
      PublishNeutral(lib, s, r, t);
    } else if run.FlushMark? {
      MarkNeutral(s, r, t);
    } else if run.ProcClaim? || run.ProcComplete? || run.ProcFail? {
      ProcNeutral(lib, s, r, t);
    } else if run.MayPut() {
      ImageNeutral(lib, s, r, t);
    } else if run.DeleteRead? || run.FlushList? || run.RecoverList? || run.ProcRead? {
      ReadNeutral(lib, s, r, t);
    } else if run.Clean? {
      CleanNeutral(s, r, t);
    } else if run.UploadPut? || run.UploadUndo? {
      EdgeNeutral(lib, s, r, t);
    }
  }

  lemma StepConserves(lib: Libraries, s: State, r: RunId, t: Turn)
    requires Inv(lib, s) && Conserved(s) && r in s.runs
    ensures Conserved(StepOf(lib, s, r, t))
  {
    hide Conserved, Neutral, Inv, StepUploadPut, StepUploadCreate, StepUploadUndo, StepGauge, StepDeleteRead,
      StepDeleteTx, StepFlushList, StepFlushPublish, StepFlushMark, StepRecoverList, StepProcRead, StepProcClaim,
      StepProcGet, StepProcThumb, StepProcComplete, StepProcFail, StepClean;
    var run := s.runs[r];
    var w := StepOf(lib, s, r, t);
    if run.UploadCreate? {
      CreateFacts(lib, s, r);
      CreateConserves(lib, s, r, t);
    } else if run.DeleteTx? {
      DeleteTxFacts(lib, s, r);
      DeleteConserves(lib, s, r, t);
    } else if run.UploadGauge? || run.DeleteGauge? {
      GaugeConserves(s, r);
    } else {
      if run.FlushPublish? {
        PublishNeutral(lib, s, r, t);
      } else if run.FlushMark? {
        MarkNeutral(s, r, t);
      } else if run.ProcClaim? || run.ProcComplete? || run.ProcFail? {
        ProcNeutral(lib, s, r, t);
      } else if run.MayPut() {
        ImageNeutral(lib, s, r, t);
      } else if run.DeleteRead? || run.FlushList? || run.RecoverList? || run.ProcRead? {
        ReadNeutral(lib, s, r, t);
      } else if run.Clean? {
        CleanNeutral(s, r, t);
      } else {
        EdgeNeutral(lib, s, r, t);
      }
      NeutralConserves(s, w, r);
    }
  }

  lemma CreateFacts(lib: Libraries, s: State, r: RunId)
    requires Inv(lib, s) && r in s.runs && s.runs[r].UploadCreate?
    ensures NewRowOk(s.runs[r].id, s.runs[r].row)
  {
    hide Inv, NewRowOk, Faithful;
    DropRun(lib, s, r);
  }

  lemma MovedConserves(s: State, w: State, r: RunId)
    requires Conserved(s) && MovesOnly(s, w, r)
    ensures Conserved(w)
  {
    hide LiveSizes;
    DebtsMove(s.runs, w.runs, r);
  }

  lemma BeginConserves(lib: Libraries, s: State, a: Action)
    requires Conserved(s) && Enabled(lib, s, a) && !a.Step? && !a.Restart? && !a.Tick?
    ensures Conserved(Next(lib, s, a))
  {
    hide Conserved, Next, Enabled;
    if a.DeliverUpload? || a.DeliverDelete? {
      DeliveryMoves(lib, s, a);
    } else {
      BeginMoves(lib, s, a);
    }
    if Next(lib, s, a) != s {
      MovedConserves(s, Next(lib, s, a), a.r);
    }
  }

  ghost predicate MovesOnly(s: State, w: State, r: RunId) {
    && OneMoved(s.runs, w.runs, r) && w.gauges == s.gauges && w.rows == s.rows
    && w.lost - s.lost == DebtOf(s.runs, r) - DebtOf(w.runs, r)
  }

  lemma BeginMoves(lib: Libraries, s: State, a: Action)
    requires Enabled(lib, s, a) && (a.BeginUpload? || a.BeginDelete? || a.BeginFlush? || a.BeginRecover? || a.Crash?)
    ensures MovesOnly(s, Next(lib, s, a), a.r)
  {
    hide NewRow, Inspect;
  }

  lemma DeliveryMoves(lib: Libraries, s: State, a: Action)
    requires Enabled(lib, s, a) && (a.DeliverUpload? || a.DeliverDelete?)
    ensures Next(lib, s, a) == s || MovesOnly(s, Next(lib, s, a), a.r)
  {
    hide NextJob, HandleUpload, HandleDelete;
    if a.DeliverUpload? && HandleUpload(lib, s.uploads[a.offset]).Ok? {
      NextJobOwesNothing(lib, s, a.r, [HandleUpload(lib, s.uploads[a.offset]).value]);
    }
  }

  lemma OtherActionConserves(lib: Libraries, s: State, a: Action)
    requires Conserved(s) && Enabled(lib, s, a) && !a.Step?
    ensures Conserved(Next(lib, s, a))
  {
    hide LiveSizes, NextJob, HandleUpload, HandleDelete, NewRow, Inspect;
    if a.Restart? {
      TotalUpdates(s.gauges, a.proc, 0);
    } else if !a.Tick? {
      hide Next, Enabled, Conserved;
      BeginConserves(lib, s, a);
    }
  }

  lemma NextConserves(lib: Libraries, s: State, a: Action)
    requires Inv(lib, s) && Conserved(s) && Enabled(lib, s, a)
    ensures Conserved(Next(lib, s, a))
  {
    hide Conserved, Inv, StepOf, TraceOnly, GoClean, NextJob, HandleUpload, HandleDelete, NewRow, Inspect;
    if a.Step? {
      StepConserves(lib, s, a.r, a.t);
    } else {
      OtherActionConserves(lib, s, a);
    }
  }

  /** Storage conservation, in every reachable state of any number of processes. */
  lemma {:induction false} StorageConserved(lib: Libraries, s: State, actions: seq<Action>)
    requires Lawful(lib) && Inv(lib, s) && Conserved(s) && Legal(lib, s, actions)
    ensures Conserved(After(lib, s, actions))
    decreases |actions|
  {
    hide Inv, Lawful, Conserved, Next, Enabled;
    if actions != [] {
      NextConserves(lib, s, actions[0]);
      NextKeeps(lib, s, actions[0]);
      StorageConserved(lib, Next(lib, s, actions[0]), actions[1..]);
    }
  }

  ghost predicate NoLosses(actions: seq<Action>) {
    forall i :: 0 <= i < |actions| ==> !actions[i].Crash? && !actions[i].Restart?
  }

  lemma StepLosesNothing(lib: Libraries, s: State, a: Action)
    requires Enabled(lib, s, a) && !a.Crash? && !a.Restart?
    ensures Next(lib, s, a).lost == s.lost
  {
    hide StepUploadPut, StepUploadCreate, StepUploadUndo, StepGauge, StepDeleteRead, StepDeleteTx, StepFlushList,
      StepFlushPublish, StepFlushMark, StepRecoverList, StepProcRead, StepProcClaim, StepProcGet, StepProcThumb,
      StepProcComplete, StepProcFail, StepClean, NextJob, HandleUpload, HandleDelete, NewRow, Inspect, TraceOnly;
    if a.Step? {
      var run := s.runs[a.r];
      hide Neutral;
      StepKeepsLost(lib, s, a.r, a.t);
    } else if a.DeliverUpload? && HandleUpload(lib, s.uploads[a.offset]).Ok? {
      NextJobOwesNothing(lib, s, a.r, [HandleUpload(lib, s.uploads[a.offset]).value]);
    }
  }

  lemma StepKeepsLost(lib: Libraries, s: State, r: RunId, t: Turn)
    requires r in s.runs
    ensures StepOf(lib, s, r, t).lost == s.lost
  {
    hide LiveSizes, OneMoved, Owed, InsertOutbox, Seals, StepFlushPublish, StepFlushMark, StepRecoverList, StepProcRead,
      StepProcClaim, StepProcGet, StepProcThumb, StepProcComplete, StepProcFail, StepClean, StepUploadPut,
      StepUploadUndo, StepDeleteRead, StepFlushList;
    var run := s.runs[r];
    if run.FlushPublish? {
      PublishNeutral(lib, s, r, t);
    } else if run.FlushMark? {
      MarkNeutral(s, r, t);
    } else if run.ProcClaim? || run.ProcComplete? || run.ProcFail? {
      ProcNeutral(lib, s, r, t);
    } else if run.MayPut() {
      ImageNeutral(lib, s, r, t);
    } else if run.DeleteRead? || run.FlushList? || run.RecoverList? || run.ProcRead? {
      ReadNeutral(lib, s, r, t);
    } else if run.Clean? {
      CleanNeutral(s, r, t);
    } else if run.UploadPut? || run.UploadUndo? {
      EdgeNeutral(lib, s, r, t);
    }
  }

  lemma {:induction false} NothingLost(lib: Libraries, s: State, actions: seq<Action>)
    requires Legal(lib, s, actions) && NoLosses(actions)
    ensures After(lib, s, actions).lost == s.lost
    decreases |actions|
  {
    hide Next, Enabled;
    if actions != [] {
      StepLosesNothing(lib, s, actions[0]);
      NothingLost(lib, Next(lib, s, actions[0]), actions[1..]);
    }
  }

  lemma EmptyIsConserved()
    ensures Conserved(INIT)
  {
    assert LiveSizes(INIT.rows) == map[] && Debts(INIT.runs) == map[];
  }

  lemma WithoutLosses(s: State)
    requires Conserved(s) && s.lost == 0
    ensures Total(s.gauges) + Total(Debts(s.runs)) == Total(LiveSizes(s.rows))
  {
    hide LiveSizes, Debts;
  }

  /** Processes that start on an empty database and are never restarted: the gauges, corrected by runs between their
      transaction and their gauge update, add up to the size of all live avatars. */
  lemma GaugesAddUp(lib: Libraries, actions: seq<Action>)
    requires Lawful(lib) && Legal(lib, INIT, actions) && NoLosses(actions)
    ensures var s := After(lib, INIT, actions);
      Total(s.gauges) + Total(Debts(s.runs)) == Total(LiveSizes(s.rows))
  {
    hide Inv, Lawful, Next, Enabled, Legal, After, Conserved, LiveSizes, Debts;
    InitHolds(lib);
    EmptyIsConserved();
    StorageConserved(lib, INIT, actions);
    NothingLost(lib, INIT, actions);
    WithoutLosses(After(lib, INIT, actions));
  }
}
