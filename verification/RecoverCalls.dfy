/** What an undisturbed call of RecoverStuck does, over all executions, and that each answer to the
    stuck query has one. */
module RecoverCalls {
  import opened Text
  import opened Domain
  import opened Images
  import opened Protocol
  import opened Invariant
  import opened Steps
  import opened Guarantees
  import opened Undisturbed
  import opened Outcomes
  import opened Progress

  function Ages(rows: map<AvatarId, Row>): map<AvatarId, nat> {
    map id: AvatarId | id in rows :: rows[id].created
  }

  function Stuck(rows: map<AvatarId, Row>, now: nat): set<AvatarId> {
    set id: AvatarId | id in rows && Claimable(rows[id], now)
  }

  /** The live avatars whose stored image can never be given its thumbnails. */
  function HopelessIds(lib: Libraries, s: State): set<AvatarId> {
    set id: AvatarId |
      && id in s.rows && s.rows[id].Live() && s.rows[id].key in s.bucket
      && Hopeless(lib, s.bucket[s.rows[id].key].data, s.rows[id].mime)
  }

  function Chosen(ids: seq<AvatarId>): set<AvatarId> {
    set id: AvatarId | id in ids
  }

  // ---------------------------------------------------------------- leases

  /** No live row is under a lease that has yet to run out. */
  ghost predicate NoLeases(s: State) {
    forall id <- s.rows.Keys :: s.rows[id].Live() && s.rows[id].status == Processing ==> Claimable(s.rows[id], s.now)
  }

  lemma ClaimableStays(row: Row, now: nat, later: nat)
    requires now <= later
    ensures Claimable(row, now) ==> Claimable(row, later)
    ensures Claimable(row, later) ==> row.Live() && row.status != Completed
    ensures (row.Live() && row.status == Processing ==> Claimable(row, now)) ==>
      (Claimable(row, later) <==> Claimable(row, now))
  {
  }

  /** Without leases the passing of time changes no answer to the stuck query. */
  lemma ListingIgnoresTime(rows: map<AvatarId, Row>, now: nat, later: nat, limit: nat, ids: seq<AvatarId>)
    requires now <= later && IsStuckListing(rows, later, limit, ids)
    requires forall id <- rows.Keys :: rows[id].Live() && rows[id].status == Processing ==> Claimable(rows[id], now)
    ensures IsStuckListing(rows, now, limit, ids)
  {
    forall id <- rows.Keys
      ensures Claimable(rows[id], later) <==> Claimable(rows[id], now)
    {
      ClaimableStays(rows[id], now, later);
    }
    hide Claimable;
  }

  // ---------------------------------------------------------------- where a call stands

  /** A row while the avatars in `done` have been resolved and `current`, if any, is claimed. A resolved row carries the
      time of its last write. */
  ghost predicate RowAt(lib: Libraries, v: State, row: Row, done: set<AvatarId>, current: Option<AvatarId>,
      id: AvatarId)
    requires id in v.rows
  {
    if id in done then
      v.rows[id].key in v.bucket && row == Resolution(lib, v.bucket[v.rows[id].key].data, id, v.rows[id], row.updated)
    else if current == Some(id) then row == Claimed(v.rows[id], row.updated)
    else row == v.rows[id]
  }

  ghost predicate RowsAt(lib: Libraries, v: State, s: State, done: set<AvatarId>, current: Option<AvatarId>) {
    && s.rows.Keys == v.rows.Keys && Quiet(v, s)
    && forall id <- v.rows.Keys :: id in s.rows && RowAt(lib, v, s.rows[id], done, current, id)
  }

  /** Exactly the avatars in `done` were resolved: completed, or failed if their image is hopeless. */
  ghost predicate ResolvedAll(lib: Libraries, v: State, w: State, done: set<AvatarId>) {
    RowsAt(lib, v, w, done, None)
  }

  /** The avatars a call has to resolve. */
  ghost predicate Tasks(v: State, ids: seq<AvatarId>) {
    && (forall i :: 0 <= i < |ids| ==>
          && ids[i] in v.rows && Claimable(v.rows[ids[i]], v.now)
          && v.rows[ids[i]].key in v.bucket && IsOriginal(v.rows[ids[i]].key))
    && (forall i, j :: 0 <= i < j < |ids| ==> ids[i] != ids[j])
  }

  ghost predicate JobAt(v: State, ids: seq<AvatarId>, i: nat, job: Job)
    requires Tasks(v, ids)
  {
    i < |ids| && job.id == ids[i] && job.rest == EventsFor(v.rows, ids)[i + 1..]
  }

  ghost predicate StandsAt(lib: Libraries, v: State, run: Run, ids: seq<AvatarId>, i: nat)
    requires Tasks(v, ids)
  {
    match run
    case ProcRead(job) => JobAt(v, ids, i, job)
    case ProcClaim(job) => JobAt(v, ids, i, job)
    case ProcGet(job, _) => JobAt(v, ids, i, job)
    case ProcThumb(job, _, data, info, side, _) =>
      && JobAt(v, ids, i, job) && data == v.bucket[v.rows[ids[i]].key].data && info.mime == v.rows[ids[i]].mime
      && (side == SIZE_100 || (side == SIZE_300 && Thumbnail(lib, data, SIZE_100, info.mime).Ok?))
    case ProcComplete(job, _, _, _) =>
      JobAt(v, ids, i, job) && !Hopeless(lib, v.bucket[v.rows[ids[i]].key].data, v.rows[ids[i]].mime)
    case ProcFail(job, _, swallow) =>
      JobAt(v, ids, i, job) && !swallow && Hopeless(lib, v.bucket[v.rows[ids[i]].key].data, v.rows[ids[i]].mime)
    case _ => false
  }

  ghost predicate RecoverAt(lib: Libraries, v: State, s: State, r: RunId, ids: seq<AvatarId>, i: nat) {
    && Tasks(v, ids) && i <= |ids| && s.runs - {r} == v.runs - {r}
    && (if r in s.runs then StandsAt(lib, v, s.runs[r], ids, i) else i == |ids|)
    && RowsAt(lib, v, s, Chosen(ids[..i]), if r in s.runs && s.runs[r].Holding() then Some(ids[i]) else None)
  }

  // ---------------------------------------------------------------- its steps

  lemma CurrentRow(lib: Libraries, v: State, s: State, r: RunId, ids: seq<AvatarId>, i: nat)
    requires RecoverAt(lib, v, s, r, ids, i) && r in s.runs
    ensures i < |ids| && ids[i] in s.rows && ids[i] in v.rows && s.rows[ids[i]].Live() && ids[i] !in Chosen(ids[..i])
    ensures var row := v.rows[ids[i]];
      && s.rows[ids[i]] == (if s.runs[r].Holding() then Claimed(row, s.rows[ids[i]].updated) else row)
      && row.key in v.bucket && row.key in s.bucket && s.bucket[row.key] == v.bucket[row.key]
      && (!s.runs[r].Holding() ==> Claimable(s.rows[ids[i]], s.now) && s.rows[ids[i]].status != Completed)
  {
    hide IsOriginal, Resolution, Hopeless;
    assert ids[i] !in Chosen(ids[..i]);
    ClaimableStays(v.rows[ids[i]], v.now, s.now);
  }

  /** Rows and originals stay, or the current row is claimed. */
  lemma StoreAdvances(lib: Libraries, v: State, s: State, w: State, done: set<AvatarId>, from: Option<AvatarId>,
      to: Option<AvatarId>)
    requires RowsAt(lib, v, s, done, from) && Quiet(s, w)
    requires || (from == to && w.rows == s.rows)
             || (from.None? && to.Some? && to.value in v.rows && to.value !in done
                 && w.rows == s.rows[to.value := Claimed(v.rows[to.value], w.now)])
    ensures RowsAt(lib, v, w, done, to)
  {
    hide Resolution, OriginalsStay;
    QuietTransitively(v, s, w);
    if from != to {
      assert RowAt(lib, v, s.rows[to.value], done, from, to.value);
    }
  }

  /** The current row is resolved. */
  lemma StoreResolves(lib: Libraries, v: State, s: State, w: State, ids: seq<AvatarId>, i: nat)
    requires i < |ids| && RowsAt(lib, v, s, Chosen(ids[..i]), Some(ids[i])) && Quiet(s, w)
    requires ids[i] in v.rows && v.rows[ids[i]].key in v.bucket
    requires var data := v.bucket[v.rows[ids[i]].key].data;
      w.rows == s.rows[ids[i] := Resolution(lib, data, ids[i], v.rows[ids[i]], w.now)]
    ensures RowsAt(lib, v, w, Chosen(ids[..i + 1]), None)
  {
    hide OriginalsStay, Hopeless, Canonical;
    QuietTransitively(v, s, w);
    ChosenGrows(ids, i);
    hide Chosen;
  }

  lemma ChosenGrows(ids: seq<AvatarId>, i: nat)
    requires i < |ids|
    ensures Chosen(ids[..i + 1]) == Chosen(ids[..i]) + {ids[i]}
  {
    assert ids[..i + 1] == ids[..i] + [ids[i]];
  }

  lemma SameStoreIsQuiet(v: State, w: State)
    requires w.bucket == v.bucket && w.outbox == v.outbox && w.now == v.now
    ensures Quiet(v, w)
  {
    hide IsOriginal;
  }

  lemma ReadAdvances(lib: Libraries, v: State, s: State, r: RunId, t: Turn, ids: seq<AvatarId>, i: nat)
    requires Lawful(lib) && Inv(lib, s) && RecoverAt(lib, v, s, r, ids, i) && r in s.runs && s.runs[r].ProcRead?
    requires Enabled(lib, s, Step(r, t)) && t.ok
    ensures var w := Next(lib, s, Step(r, t));
      RecoverAt(lib, v, w, r, ids, i) && r in w.runs && w.runs[r].ProcClaim?
  {
    hide Inv, Lawful, Next, Enabled, RowsAt, Tasks, Awaiting, Claimable, Hopeless, Thumbnail, EventsFor, OriginalsStay;
    var w := Next(lib, s, Step(r, t));
    CurrentRow(lib, v, s, r, ids, i);
    ReadStep(lib, s, r, t, s.runs[r].job);
    OthersStay(lib, s, r, t);
    SameStoreIsQuiet(s, w);
    StoreAdvances(lib, v, s, w, Chosen(ids[..i]), None, None);
  }

  lemma ClaimAdvances(lib: Libraries, v: State, s: State, r: RunId, t: Turn, ids: seq<AvatarId>, i: nat)
    requires Lawful(lib) && Inv(lib, s) && RecoverAt(lib, v, s, r, ids, i) && r in s.runs && s.runs[r].ProcClaim?
    requires Enabled(lib, s, Step(r, t)) && t.ok
    ensures var w := Next(lib, s, Step(r, t));
      RecoverAt(lib, v, w, r, ids, i) && r in w.runs && w.runs[r].ProcGet?
  {
    hide Inv, Lawful, Next, Enabled, RowsAt, Tasks, Awaiting, Claimable, Hopeless, Thumbnail, EventsFor, OriginalsStay,
      Chosen;
    var w := Next(lib, s, Step(r, t));
    CurrentRow(lib, v, s, r, ids, i);
    ClaimStep(lib, s, r, t, s.runs[r].job);
    OthersStay(lib, s, r, t);
    SameStoreIsQuiet(s, w);
    StoreAdvances(lib, v, s, w, Chosen(ids[..i]), None, Some(ids[i]));
  }

  lemma GetAdvances(lib: Libraries, v: State, s: State, r: RunId, t: Turn, ids: seq<AvatarId>, i: nat)
    requires Lawful(lib) && Inv(lib, s) && RecoverAt(lib, v, s, r, ids, i) && r in s.runs && s.runs[r].ProcGet?
    requires Enabled(lib, s, Step(r, t)) && t.ok
    ensures var w := Next(lib, s, Step(r, t));
      RecoverAt(lib, v, w, r, ids, i) && r in w.runs && w.runs[r].ProcThumb? && w.runs[r].side == SIZE_100
  {
    hide Inv, Lawful, Next, Enabled, RowsAt, Tasks, Inspect;
    var w := Next(lib, s, Step(r, t));
    CurrentRow(lib, v, s, r, ids, i);
    GetStep(lib, s, r, t, s.runs[r].job, s.runs[r].at);
    OthersStay(lib, s, r, t);
    SameStoreIsQuiet(s, w);
    StoreAdvances(lib, v, s, w, Chosen(ids[..i]), Some(ids[i]), Some(ids[i]));
  }

  lemma ThumbAdvances(lib: Libraries, v: State, s: State, r: RunId, t: Turn, ids: seq<AvatarId>, i: nat)
    requires Lawful(lib) && Inv(lib, s) && RecoverAt(lib, v, s, r, ids, i) && r in s.runs && s.runs[r].ProcThumb?
    requires Enabled(lib, s, Step(r, t)) && t.ok
    ensures var w := Next(lib, s, Step(r, t));
      && RecoverAt(lib, v, w, r, ids, i) && r in w.runs
      && (w.runs[r].ProcFail? || w.runs[r].ProcComplete?
          || (w.runs[r].ProcThumb? && s.runs[r].side == SIZE_100 && w.runs[r].side == SIZE_300))
  {
    hide Inv, Lawful, Next, Enabled, RowsAt, Tasks, Thumbnail, OriginalsStay;
    var w := Next(lib, s, Step(r, t));
    ThumbStep(lib, s, r, t);
    OthersStay(lib, s, r, t);
    StoreAdvances(lib, v, s, w, Chosen(ids[..i]), Some(ids[i]), Some(ids[i]));
  }

  /** A completion or failure resolves the current avatar, and the call goes on to the next. */
  lemma EndAdvances(lib: Libraries, v: State, s: State, r: RunId, t: Turn, ids: seq<AvatarId>, i: nat)
    requires Lawful(lib) && Inv(lib, s) && RecoverAt(lib, v, s, r, ids, i) && r in s.runs
    requires (s.runs[r].ProcComplete? || s.runs[r].ProcFail?) && Enabled(lib, s, Step(r, t)) && t.ok
    ensures var w := Next(lib, s, Step(r, t));
      RecoverAt(lib, v, w, r, ids, i + 1) && (r in w.runs ==> w.runs[r].ProcRead?)
  {
    hide Inv, Lawful, Next, Enabled, RowsAt, Tasks, Awaiting, Canonical, Claimable, Hopeless, EventsFor, OriginalsStay,
      Chosen;
    var w := Next(lib, s, Step(r, t));
    var run := s.runs[r];
    CurrentRow(lib, v, s, r, ids, i);
    if run.ProcComplete? {
      CompleteStep(lib, s, r, t, run.job, run.at, run.info, run.thumbs);
    } else {
      FailStep(lib, s, r, t, run.job, run.at, run.swallow);
    }
    OthersStay(lib, s, r, t);
    SameStoreIsQuiet(s, w);
    StoreResolves(lib, v, s, w, ids, i);
    NextTask(v, w, r, ids, i);
  }

  lemma NextTask(v: State, w: State, r: RunId, ids: seq<AvatarId>, i: nat)
    requires Tasks(v, ids) && i < |ids| && Awaiting(w, r, EventsFor(v.rows, ids)[i + 1..])
    ensures if i + 1 == |ids| then r !in w.runs
            else r in w.runs && w.runs[r].ProcRead? && JobAt(v, ids, i + 1, w.runs[r].job)
  {
    hide Claimable, UploadEventId;
    var rest := EventsFor(v.rows, ids)[i + 1..];
    if rest != [] {
      assert rest[1..] == EventsFor(v.rows, ids)[i + 2..];
    }
  }

  function Rank(run: Run): nat {
    match run
    case ProcRead(_) => 6
    case ProcClaim(_) => 5
    case ProcGet(_, _) => 4
    case ProcThumb(_, _, _, _, side, _) => if side == SIZE_100 then 3 else 2
    case _ => 1
  }

  /** How many steps the call still has to make, at most. */
  function Left(s: State, r: RunId, ids: seq<AvatarId>, i: nat): nat
    requires i <= |ids|
  {
    if r in s.runs then (|ids| - i) * 7 + Rank(s.runs[r]) else 0
  }

  lemma StepAdvances(lib: Libraries, v: State, s: State, r: RunId, t: Turn, ids: seq<AvatarId>, i: nat) returns (j: nat)
    requires Lawful(lib) && Inv(lib, s) && RecoverAt(lib, v, s, r, ids, i) && r in s.runs
    requires Enabled(lib, s, Step(r, t)) && t.ok
    ensures RecoverAt(lib, v, Next(lib, s, Step(r, t)), r, ids, j)
    ensures Left(Next(lib, s, Step(r, t)), r, ids, j) < Left(s, r, ids, i)
  {
    CurrentRow(lib, v, s, r, ids, i);
    hide Inv, Lawful, Next, Enabled, RowsAt, JobAt, Tasks, Hopeless, Thumbnail;
    var run := s.runs[r];
    j := i;
    if run.ProcRead? {
      ReadAdvances(lib, v, s, r, t, ids, i);
    } else if run.ProcClaim? {
      ClaimAdvances(lib, v, s, r, t, ids, i);
    } else if run.ProcGet? {
      GetAdvances(lib, v, s, r, t, ids, i);
    } else if run.ProcThumb? {
      ThumbAdvances(lib, v, s, r, t, ids, i);
    } else {
      EndAdvances(lib, v, s, r, t, ids, i);
      j := i + 1;
    }
  }

  // ---------------------------------------------------------------- whole calls

  lemma TickKeeps(lib: Libraries, v: State, s: State, r: RunId, ids: seq<AvatarId>, i: nat, d: nat)
    requires RecoverAt(lib, v, s, r, ids, i)
    ensures RecoverAt(lib, v, s.(now := s.now + d), r, ids, i)
  {
    hide StandsAt, Tasks, OriginalsStay, Resolution;
  }

  /** However the call goes on undisturbed, it stands somewhere on its way through the same tasks. */
  lemma {:induction false} AtFollows(lib: Libraries, v: State, s: State, actions: seq<Action>, r: RunId,
      poison: set<nat>, ids: seq<AvatarId>, i: nat) returns (j: nat)
    requires Lawful(lib) && Inv(lib, s) && RecoverAt(lib, v, s, r, ids, i)
    requires Legal(lib, s, actions) && CalmRun(lib, s, actions, r, poison)
    ensures RecoverAt(lib, v, After(lib, s, actions), r, ids, j)
    decreases |actions|
  {
    hide Inv, Lawful, RecoverAt, StepOf;
    if actions == [] {
      j := i;
    } else {
      var next := Next(lib, s, actions[0]);
      NextKeeps(lib, s, actions[0]);
      if actions[0].Tick? {
        TickKeeps(lib, v, s, r, ids, i, actions[0].d);
        j := i;
      } else {
        RunIsProcessing(lib, v, s, r, ids, i);
        j := StepAdvances(lib, v, s, r, actions[0].t, ids, i);
      }
      hide Next, Enabled;
      j := AtFollows(lib, v, next, actions[1..], r, poison, ids, j);
    }
  }

  lemma RunIsProcessing(lib: Libraries, v: State, s: State, r: RunId, ids: seq<AvatarId>, i: nat)
    requires RecoverAt(lib, v, s, r, ids, i) && r in s.runs
    ensures !s.runs[r].FlushPublish? && !s.runs[r].RecoverList?
  {
    hide RowsAt, Tasks, JobAt, Hopeless;
  }

  /** Before its query a call has done nothing. */
  ghost predicate AtQuery(lib: Libraries, v: State, s: State, r: RunId) {
    && r in s.runs && s.runs[r] == RecoverList && s.runs - {r} == v.runs - {r}
    && s.rows == v.rows && s.bucket == v.bucket && Quiet(v, s)
  }

  lemma ListedAreTasks(lib: Libraries, v: State, ids: seq<AvatarId>)
    requires Inv(lib, v) && IsStuckListing(v.rows, v.now, STUCK_LIMIT, ids)
    ensures Tasks(v, ids)
  {
    hide Inv, IsOriginal, RowOk;
    forall i | 0 <= i < |ids|
      ensures v.rows[ids[i]].key in v.bucket && IsOriginal(v.rows[ids[i]].key)
    {
      OriginalIsStored(lib, v, ids[i]);
      RowHolds(lib, v, ids[i]);
      KeyIsNotEmpty(ids[i], v.rows[ids[i]]);
    }
  }

  /** The query brings the call to its first task. */
  lemma QueryAdvances(lib: Libraries, v: State, s: State, r: RunId, t: Turn)
    requires Lawful(lib) && Inv(lib, v) && NoLeases(v) && AtQuery(lib, v, s, r)
    requires Enabled(lib, s, Step(r, t)) && t.ok && Answers(s, RecoverList, t)
    ensures IsStuckListing(v.rows, v.now, STUCK_LIMIT, t.stuck)
    ensures RecoverAt(lib, v, Next(lib, s, Step(r, t)), r, t.stuck, 0)
  {
    hide Inv, Lawful, Next, Enabled, IsStuckListing, OriginalsStay, Claimable;
    var w := Next(lib, s, Step(r, t));
    ListingIgnoresTime(v.rows, v.now, s.now, STUCK_LIMIT, t.stuck);
    ListedAreTasks(lib, v, t.stuck);
    EndJobIs(lib, s, r, t);
    OthersStay(lib, s, r, t);
    FirstTask(v, w, r, t.stuck);
    SameStoreIsQuiet(s, w);
    QuietTransitively(v, s, w);
    assert Chosen(t.stuck[..0]) == {};
    hide Tasks;
  }

  lemma FirstTask(v: State, w: State, r: RunId, ids: seq<AvatarId>)
    requires Tasks(v, ids) && Awaiting(w, r, EventsFor(v.rows, ids))
    ensures if ids == [] then r !in w.runs else r in w.runs && w.runs[r].ProcRead? && JobAt(v, ids, 0, w.runs[r].job)
  {
    hide Claimable, UploadEventId;
  }

  ghost predicate Recovering(lib: Libraries, v: State, s: State, r: RunId) {
    || AtQuery(lib, v, s, r)
    || exists ids: seq<AvatarId>, i: nat ::
      IsStuckListing(v.rows, v.now, STUCK_LIMIT, ids) && RecoverAt(lib, v, s, r, ids, i)
  }

  lemma {:induction false} CallFollows(lib: Libraries, v: State, s: State, actions: seq<Action>, r: RunId,
      poison: set<nat>)
    requires Lawful(lib) && Inv(lib, v) && NoLeases(v) && Inv(lib, s) && AtQuery(lib, v, s, r)
    requires Legal(lib, s, actions) && CalmRun(lib, s, actions, r, poison)
    ensures Recovering(lib, v, After(lib, s, actions), r)
    decreases |actions|
  {
    hide Inv, Lawful, RecoverAt, NoLeases, IsStuckListing, StepOf, OriginalsStay;
    if actions != [] {
      var next := Next(lib, s, actions[0]);
      NextKeeps(lib, s, actions[0]);
      if actions[0].Tick? {
        hide Enabled;
        CallFollows(lib, v, next, actions[1..], r, poison);
      } else {
        var ids := actions[0].t.stuck;
        QueryAdvances(lib, v, s, r, actions[0].t);
        hide Next, Enabled, AtQuery;
        var j := AtFollows(lib, v, next, actions[1..], r, poison, ids, 0);
        assert RecoverAt(lib, v, After(lib, s, actions), r, ids, j);
      }
    }
  }

  /** From `v` to `w` by one complete call of RecoverStuck that nothing disturbs. */
  ghost predicate RecoverCall(lib: Libraries, v: State, w: State) {
    exists r: RunId, poison: set<nat> ::
      r !in v.runs && r !in w.runs && Runs(lib, Goto(v, r, RecoverList), w, r, poison)
  }

  lemma BeginsAtQuery(lib: Libraries, v: State, r: RunId)
    requires Lawful(lib) && Inv(lib, v) && r !in v.runs
    ensures Inv(lib, Goto(v, r, RecoverList)) && AtQuery(lib, v, Goto(v, r, RecoverList), r)
    ensures Enabled(lib, v, BeginRecover(r)) && Next(lib, v, BeginRecover(r)) == Goto(v, r, RecoverList)
  {
    hide Inv, Lawful, OriginalsStay, NextJob, StepOf, GoClean;
    NextKeeps(lib, v, BeginRecover(r));
    SameStoreIsQuiet(v, Goto(v, r, RecoverList));
  }

  /** Such a call resolves exactly the avatars of some answer to the stuck query, and leaves no lease. */
  lemma CallResolves(lib: Libraries, v: State, w: State) returns (ids: seq<AvatarId>)
    requires Lawful(lib) && Inv(lib, v) && NoLeases(v) && RecoverCall(lib, v, w)
    ensures IsStuckListing(v.rows, v.now, 20, ids) && ResolvedAll(lib, v, w, Chosen(ids))
    ensures Inv(lib, w) && NoLeases(w) && w.runs == v.runs
  {
    hide Inv, Lawful, NoLeases, IsStuckListing, Legal, After, CalmRun, AtQuery, ResolvedAll;
    var r: RunId, poison: set<nat> :| r !in v.runs && r !in w.runs && Runs(lib, Goto(v, r, RecoverList), w, r, poison);
    var s := Goto(v, r, RecoverList);
    BeginsAtQuery(lib, v, r);
    RunsKeep(lib, s, w, r, poison);
    var actions: seq<Action> :|
      Legal(lib, s, actions) && After(lib, s, actions) == w && CalmRun(lib, s, actions, r, poison);
    CallFollows(lib, v, s, actions, r, poison);
    QueryIsThere(lib, v, w, r);
    hide RecoverAt;
    var i: nat;
    ids, i :| IsStuckListing(v.rows, v.now, STUCK_LIMIT, ids) && RecoverAt(lib, v, w, r, ids, i);
    CallEnds(lib, v, w, r, ids, i);
    ResolvedNoLeases(lib, v, w, ids);
  }

  lemma QueryIsThere(lib: Libraries, v: State, w: State, r: RunId)
    ensures AtQuery(lib, v, w, r) ==> r in w.runs
  {
  }

  lemma CallEnds(lib: Libraries, v: State, w: State, r: RunId, ids: seq<AvatarId>, i: nat)
    requires RecoverAt(lib, v, w, r, ids, i) && r !in w.runs && r !in v.runs
    ensures ResolvedAll(lib, v, w, Chosen(ids)) && w.runs == v.runs
  {
    hide RowsAt, Tasks;
    assert ids[..|ids|] == ids;
    assert w.runs == w.runs - {r} && v.runs == v.runs - {r};
  }

  lemma ResolutionEnds(lib: Libraries, data: Bytes, id: AvatarId, row: Row, now: nat, at: nat, later: nat)
    requires Claimable(row, now)
    ensures var r := Resolution(lib, data, id, row, at);
      && r.Live() && r.created == row.created && r.key == row.key && r.mime == row.mime && r.status != Processing
      && (if Hopeless(lib, data, row.mime) then Claimable(r, later) else r.status == Completed && !Claimable(r, later))
  {
    hide Hopeless, Canonical;
  }

  lemma ResolvedNoLeases(lib: Libraries, v: State, w: State, ids: seq<AvatarId>)
    requires NoLeases(v) && ResolvedAll(lib, v, w, Chosen(ids)) && IsStuckListing(v.rows, v.now, STUCK_LIMIT, ids)
    ensures NoLeases(w)
  {
    hide Claimable, Resolution, OriginalsStay, IsStuckListing;
    ListedHaveRows(v.rows, v.now, STUCK_LIMIT, ids);
    forall id <- w.rows.Keys | w.rows[id].Live() && w.rows[id].status == Processing
      ensures Claimable(w.rows[id], w.now)
    {
      if id in Chosen(ids) {
        ResolutionEnds(lib, v.bucket[v.rows[id].key].data, id, v.rows[id], v.now, w.rows[id].updated, w.now);
      }
      ClaimableStays(v.rows[id], v.now, w.now);
    }
  }

  // ---------------------------------------------------------------- a call for every answer

  function Best(s: State, r: RunId): Turn {
    Turn(true, true, false, FreshOf(s.outbox), [], [], [])
  }

  /** From wherever it stands, a call can go on undisturbed to its end. */
  lemma {:induction false} CanFinish(lib: Libraries, v: State, s: State, r: RunId, ids: seq<AvatarId>, i: nat)
    returns (w: State)
    requires Lawful(lib) && Inv(lib, s) && RecoverAt(lib, v, s, r, ids, i)
    ensures Runs(lib, s, w, r, {}) && r !in w.runs && RecoverAt(lib, v, w, r, ids, |ids|)
    decreases Left(s, r, ids, i)
  {
    hide Inv, Lawful, StepOf, Runs;
    if r !in s.runs {
      w := s;
      RunsNowhere(lib, s, r, {});
    } else {
      var t := Best(s, r);
      RunIsProcessing(lib, v, s, r, ids, i);
      assert CalmStep(s, Step(r, t), r, {}) by { ProcessingIsNoRead(lib, v, s, r, ids, i); }
      var j := StepAdvances(lib, v, s, r, t, ids, i);
      NextKeeps(lib, s, Step(r, t));
      RunsOneStep(lib, s, Step(r, t), r, {});
      hide Next, Enabled, RecoverAt;
      w := CanFinish(lib, v, Next(lib, s, Step(r, t)), r, ids, j);
      RunsTransitively(lib, s, Next(lib, s, Step(r, t)), w, r, {});
    }
  }

  lemma ProcessingIsNoRead(lib: Libraries, v: State, s: State, r: RunId, ids: seq<AvatarId>, i: nat)
    requires RecoverAt(lib, v, s, r, ids, i) && r in s.runs
    ensures !s.runs[r].DeleteRead? && !s.runs[r].RecoverList? && !s.runs[r].FlushPublish?
  {
    hide RowsAt, Tasks, JobAt, Hopeless;
  }

  /** Whatever the stuck query may answer, there is an undisturbed call that gets this answer. */
  lemma CanRecover(lib: Libraries, v: State, ids: seq<AvatarId>) returns (w: State)
    requires Lawful(lib) && Inv(lib, v) && NoLeases(v) && IsStuckListing(v.rows, v.now, 20, ids)
    ensures RecoverCall(lib, v, w) && ResolvedAll(lib, v, w, Chosen(ids))
    ensures Inv(lib, w) && NoLeases(w) && w.runs == v.runs
  {
    hide Inv, Lawful, NoLeases, IsStuckListing, StepOf, Runs, AtQuery, ResolvedAll, RecoverAt;
    var r := FreshRun(v.runs);
    var s := Goto(v, r, RecoverList);
    BeginsAtQuery(lib, v, r);
    var t := Best(s, r).(stuck := ids);
    hide Enabled, Next;
    StuckStep(lib, s, r, ids);
    QueryAdvances(lib, v, s, r, t);
    NextKeeps(lib, s, Step(r, t));
    RunsOneStep(lib, s, Step(r, t), r, {});
    w := CanFinish(lib, v, Next(lib, s, Step(r, t)), r, ids, 0);
    RunsTransitively(lib, s, Next(lib, s, Step(r, t)), w, r, {});
    RunsKeep(lib, s, w, r, {});
    CallEnds(lib, v, w, r, ids, |ids|);
    ResolvedNoLeases(lib, v, w, ids);
  }

  lemma StuckStep(lib: Libraries, s: State, r: RunId, ids: seq<AvatarId>)
    requires r in s.runs && s.runs[r] == RecoverList && IsStuckListing(s.rows, s.now, STUCK_LIMIT, ids)
    ensures var t := Best(s, r).(stuck := ids);
      Enabled(lib, s, Step(r, t)) && CalmStep(s, Step(r, t), r, {}) && Answers(s, RecoverList, t)
  {
    hide IsStuckListing;
  }

  // ---------------------------------------------------------------- a call is a round of retries

  lemma {:induction false} ChosenSize(ids: seq<AvatarId>)
    requires forall i, j :: 0 <= i < j < |ids| ==> ids[i] != ids[j]
    ensures |Chosen(ids)| == |ids|
  {
    if ids == [] {
      assert Chosen(ids) == {};
    } else {
      ChosenSize(ids[1..]);
      assert ids == [ids[0]] + ids[1..];
      assert Chosen(ids) == {ids[0]} + Chosen(ids[1..]);
    }
  }

  /** An answer to the stuck query is a pick of the oldest claimable rows. */
  lemma ListingIsPick(rows: map<AvatarId, Row>, now: nat, limit: nat, ids: seq<AvatarId>)
    requires IsStuckListing(rows, now, limit, ids)
    ensures IsPick(Stuck(rows, now), Ages(rows), limit, Chosen(ids))
  {
    hide Claimable;
    ChosenSize(ids);
    SubsetSize(Chosen(ids), Stuck(rows, now));
    if |ids| < limit {
      assert Stuck(rows, now) <= Chosen(ids);
      assert Stuck(rows, now) == Chosen(ids);
    }
    forall a <- Chosen(ids), b <- Stuck(rows, now) | b !in Chosen(ids)
      ensures rows[a].created <= rows[b].created && |Chosen(ids)| == limit
    {
    }
  }

  lemma {:induction false} InOrder(rows: map<AvatarId, Row>, pick: set<AvatarId>) returns (ids: seq<AvatarId>)
    requires pick <= rows.Keys
    ensures Chosen(ids) == pick
    ensures forall i, j :: 0 <= i < j < |ids| ==> ids[i] != ids[j] && rows[ids[i]].created <= rows[ids[j]].created
    decreases |pick|
  {
    if pick == {} {
      ids := [];
    } else {
      var first := OldestOf(pick, Ages(rows));
      var rest := InOrder(rows, pick - {first});
      ids := [first] + rest;
      forall j | 0 <= j < |rest|
        ensures rest[j] != first && rows[first].created <= rows[rest[j]].created
      {
        assert rest[j] in Chosen(rest);
      }
      assert Chosen(ids) == {first} + Chosen(rest);
    }
  }

  /** Conversely every such pick is the content of some answer, so whatever a sequence of rounds can do, so can
      RecoverStuck: the limits of progress on rounds are its limits. */
  lemma PickIsListing(rows: map<AvatarId, Row>, now: nat, limit: nat, pick: set<AvatarId>) returns (ids: seq<AvatarId>)
    requires IsPick(Stuck(rows, now), Ages(rows), limit, pick)
    ensures IsStuckListing(rows, now, limit, ids) && Chosen(ids) == pick
  {
    hide Claimable;
    ids := InOrder(rows, pick);
    ChosenSize(ids);
    assert forall i :: 0 <= i < |ids| ==> ids[i] in Chosen(ids);
    forall id: AvatarId | id in rows && Claimable(rows[id], now) && id !in ids
      ensures |ids| == limit && forall i :: 0 <= i < |ids| ==> rows[ids[i]].created <= rows[id].created
    {
      assert id in Stuck(rows, now) && id !in pick;
      SubsetSize(pick, Stuck(rows, now));
    }
  }

  lemma OriginalOf(lib: Libraries, s: State, id: AvatarId)
    requires Inv(lib, s) && id in s.rows && s.rows[id].Live()
    ensures s.rows[id].key in s.bucket && IsOriginal(s.rows[id].key)
  {
    hide Inv, RowOk;
    OriginalIsStored(lib, s, id);
    RowHolds(lib, s, id);
    KeyIsNotEmpty(id, s.rows[id]);
  }

  /** How one row comes out of a call. */
  ghost predicate RowAfter(lib: Libraries, v: State, w: State, ids: seq<AvatarId>, id: AvatarId)
    requires id in v.rows
  {
    && id in w.rows && w.rows[id].created == v.rows[id].created
    && (id in HopelessIds(lib, w) <==> id in HopelessIds(lib, v))
    && (id in Stuck(w.rows, w.now) <==> id in Stuck(v.rows, v.now) && (id in Chosen(ids) ==> id in HopelessIds(lib, v)))
    && (id in Stuck(v.rows, v.now) ==>
      id in Stuck(w.rows, w.now) || (w.rows[id].Live() && w.rows[id].status == Completed))
    && (id !in Stuck(v.rows, v.now) ==> w.rows[id] == v.rows[id])
  }

  lemma RowAfterCall(lib: Libraries, v: State, w: State, ids: seq<AvatarId>, id: AvatarId)
    requires Inv(lib, v) && NoLeases(v) && ResolvedAll(lib, v, w, Chosen(ids)) && id in v.rows
    requires forall i :: 0 <= i < |ids| ==> ids[i] in v.rows && Claimable(v.rows[ids[i]], v.now)
    ensures RowAfter(lib, v, w, ids, id)
  {
    hide Inv, Claimable, Resolution, Hopeless, IsOriginal;
    ClaimableStays(v.rows[id], v.now, w.now);
    ClaimableStays(v.rows[id], v.now, v.now);
    if v.rows[id].Live() {
      OriginalOf(lib, v, id);
    }
    if id in Chosen(ids) {
      ResolutionEnds(lib, v.bucket[v.rows[id].key].data, id, v.rows[id], v.now, w.rows[id].updated, w.now);
    }
  }

  /** Avatars that were stuck still are, or are completed; all others are as they were. */
  ghost predicate Cleared(v: State, w: State) {
    && w.rows.Keys == v.rows.Keys
    && forall id <- v.rows.Keys ::
         && id in w.rows
         && (id in Stuck(v.rows, v.now) ==>
               id in Stuck(w.rows, w.now) || (w.rows[id].Live() && w.rows[id].status == Completed))
         && (id !in Stuck(v.rows, v.now) ==> w.rows[id] == v.rows[id] && id !in Stuck(w.rows, w.now))
  }

  lemma ClearedTransitively(u: State, v: State, w: State)
    requires Cleared(u, v) && Cleared(v, w)
    ensures Cleared(u, w)
  {
    hide Claimable;
  }

  lemma ClearedSelf(s: State)
    ensures Cleared(s, s)
  {
    hide Claimable;
  }

  lemma HopelessHaveRows(lib: Libraries, s: State)
    ensures HopelessIds(lib, s) <= s.rows.Keys && Stuck(s.rows, s.now) <= s.rows.Keys
      && Ages(s.rows).Keys == s.rows.Keys
  {
    hide Hopeless, Claimable;
  }

  lemma RowsAfterCall(lib: Libraries, v: State, w: State, ids: seq<AvatarId>)
    requires Inv(lib, v) && NoLeases(v) && ResolvedAll(lib, v, w, Chosen(ids))
    requires IsStuckListing(v.rows, v.now, STUCK_LIMIT, ids)
    ensures w.rows.Keys == v.rows.Keys && forall id <- v.rows.Keys :: RowAfter(lib, v, w, ids, id)
  {
    hide Inv, Claimable, IsStuckListing, HopelessIds, RowAfter, NoLeases, RowAt, Quiet;
    ListedHaveRows(v.rows, v.now, STUCK_LIMIT, ids);
    forall id <- v.rows.Keys
      ensures RowAfter(lib, v, w, ids, id)
    {
      RowAfterCall(lib, v, w, ids, id);
    }
  }

  lemma StuckAfterCall(lib: Libraries, v: State, w: State, ids: seq<AvatarId>)
    requires Inv(lib, v) && NoLeases(v) && ResolvedAll(lib, v, w, Chosen(ids))
    requires IsStuckListing(v.rows, v.now, 20, ids)
    ensures Stuck(w.rows, w.now) == Stuck(v.rows, v.now) - (Chosen(ids) - HopelessIds(lib, v))
    ensures Ages(w.rows) == Ages(v.rows) && HopelessIds(lib, w) == HopelessIds(lib, v) && Cleared(v, w)
  {
    hide Inv, Claimable, IsStuckListing, HopelessIds, ResolvedAll, NoLeases, Chosen;
    RowsAfterCall(lib, v, w, ids);
    HopelessHaveRows(lib, v);
    HopelessHaveRows(lib, w);
    assert HopelessIds(lib, w) == HopelessIds(lib, v);
  }

  /** An undisturbed call is one round over the 20 oldest stuck avatars, the hopeless ones being those that cannot be
      finished; whatever leaves the stuck list is completed. Time may pass during the call. */
  lemma CallIsRound(lib: Libraries, v: State, w: State)
    requires Lawful(lib) && Inv(lib, v) && NoLeases(v) && RecoverCall(lib, v, w)
    ensures Round(Stuck(v.rows, v.now), Ages(v.rows), 20, HopelessIds(lib, v), Stuck(w.rows, w.now))
    ensures Ages(w.rows) == Ages(v.rows) && HopelessIds(lib, w) == HopelessIds(lib, v) && Cleared(v, w)
    ensures Inv(lib, w) && NoLeases(w)
  {
    hide Inv, Lawful, IsStuckListing, HopelessIds, ResolvedAll, Stuck, Ages, NoLeases, RecoverCall, Cleared;
    var ids := CallResolves(lib, v, w);
    StuckAfterCall(lib, v, w, ids);
    ListingIsPick(v.rows, v.now, STUCK_LIMIT, ids);
  }

  // ---------------------------------------------------------------- what a call never touches

  predicate AtWork(run: Run) {
    run.RecoverList? || run.ProcRead? || run.ProcClaim? || run.ProcGet? || run.ProcThumb? || run.ProcComplete?
      || run.ProcFail?
  }

  lemma {:induction false} NextJobWorks(lib: Libraries, s: State, r: RunId, events: seq<UploadEvent>)
    ensures var w := NextJob(lib, s, r, events); w.outbox == s.outbox && (r in w.runs ==> AtWork(w.runs[r]))
    decreases |events|
  {
    if events != [] && lib.parseUuid(events[0].avatarId).None? {
      NextJobWorks(lib, s, r, events[1..]);
    }
  }

  lemma ListKeepsOutbox(lib: Libraries, s: State, r: RunId, t: Turn)
    requires r in s.runs && s.runs[r].RecoverList?
    ensures var w := StepOf(lib, s, r, t); w.outbox == s.outbox && (r in w.runs ==> AtWork(w.runs[r]))
  {
    hide UploadEventOf, IsStuckListing, NextJob;
    if t.ok && IsStuckListing(s.rows, s.now, STUCK_LIMIT, t.stuck) {
      ListedHaveRows(s.rows, s.now, STUCK_LIMIT, t.stuck);
      NextJobWorks(lib, s, r,
        seq(|t.stuck|, i requires 0 <= i < |t.stuck| => UploadEventOf(t.stuck[i], s.rows[t.stuck[i]])));
    }
  }

  lemma ThumbKeepsOutbox(lib: Libraries, s: State, r: RunId, t: Turn)
    requires r in s.runs && s.runs[r].ProcThumb?
    ensures var w := StepProcThumb(lib, s, r, t); w.outbox == s.outbox && r in w.runs && AtWork(w.runs[r])
  {
    hide Thumbnail, ThumbnailObjectKey, ExtForMime;
  }

  lemma DrawKeepsOutbox(lib: Libraries, s: State, r: RunId, t: Turn)
    requires r in s.runs && s.runs[r].MayPut()
    ensures var w := StepOf(lib, s, r, t); w.outbox == s.outbox && (r in w.runs ==> AtWork(w.runs[r]))
  {
    hide Inspect, StepProcThumb;
    if s.runs[r].ProcThumb? {
      ThumbKeepsOutbox(lib, s, r, t);
    }
  }

  lemma JobKeepsOutbox(lib: Libraries, s: State, r: RunId, t: Turn)
    requires r in s.runs && AtWork(s.runs[r]) && !s.runs[r].RecoverList? && !s.runs[r].MayPut()
    ensures var w := StepOf(lib, s, r, t); w.outbox == s.outbox && (r in w.runs ==> AtWork(w.runs[r]))
  {
    hide Claimable, NextJob;
    var run := s.runs[r];
    var job := run.job;
    NextJobWorks(lib, s, r, job.rest);
    if job.id in s.rows {
      var row := s.rows[job.id];
      if run.ProcClaim? {
        NextJobWorks(lib, s.(rows := s.rows[job.id := Claimed(row, s.now)]), r, job.rest);
      } else if run.ProcComplete? {
        NextJobWorks(lib, s.(rows := s.rows[job.id := Finished(row, run.info, run.thumbs, s.now)]), r, job.rest);
      } else if run.ProcFail? {
        NextJobWorks(lib, s.(rows := s.rows[job.id := row.(status := Failed, updated := s.now)]), r, job.rest);
      }
    }
  }

  lemma StepKeepsOutbox(lib: Libraries, s: State, r: RunId, t: Turn)
    requires r in s.runs && AtWork(s.runs[r])
    ensures var w := StepOf(lib, s, r, t); w.outbox == s.outbox && (r in w.runs ==> AtWork(w.runs[r]))
  {
    hide StepOf;
    if s.runs[r].RecoverList? {
      ListKeepsOutbox(lib, s, r, t);
    } else if s.runs[r].MayPut() {
      DrawKeepsOutbox(lib, s, r, t);
    } else {
      JobKeepsOutbox(lib, s, r, t);
    }
  }

  lemma {:induction false} RunsKeepOutbox(lib: Libraries, s: State, actions: seq<Action>, r: RunId, poison: set<nat>)
    requires Legal(lib, s, actions) && CalmRun(lib, s, actions, r, poison) && (r in s.runs ==> AtWork(s.runs[r]))
    ensures After(lib, s, actions).outbox == s.outbox
    decreases |actions|
  {
    hide StepOf, AtWork, Answers, Fair;
    if actions != [] {
      if actions[0].Step? {
        StepKeepsOutbox(lib, s, r, actions[0].t);
      }
      var next := Next(lib, s, actions[0]);
      assert next.outbox == s.outbox && (r in next.runs ==> AtWork(next.runs[r]));
      hide Next, Enabled;
      RunsKeepOutbox(lib, next, actions[1..], r, poison);
    }
  }

  /** A call changes no outbox row, leases or not. */
  lemma CallKeepsOutbox(lib: Libraries, v: State, w: State)
    requires RecoverCall(lib, v, w)
    ensures w.outbox == v.outbox
  {
    hide Legal, After, CalmRun;
    var r: RunId, poison: set<nat> :| r !in v.runs && r !in w.runs && Runs(lib, Goto(v, r, RecoverList), w, r, poison);
    var s := Goto(v, r, RecoverList);
    var actions: seq<Action> :|
      Legal(lib, s, actions) && After(lib, s, actions) == w && CalmRun(lib, s, actions, r, poison);
    RunsKeepOutbox(lib, s, actions, r, poison);
  }

  /** The invariant is kept. */
  lemma CallKeeps(lib: Libraries, v: State, w: State)
    requires Lawful(lib) && Inv(lib, v) && RecoverCall(lib, v, w)
    ensures Inv(lib, w)
  {
    hide Inv, Lawful, Runs, AtQuery;
    var r: RunId, poison: set<nat> :| r !in v.runs && r !in w.runs && Runs(lib, Goto(v, r, RecoverList), w, r, poison);
    BeginsAtQuery(lib, v, r);
    hide Next, Enabled, Evolves;
    RunsKeep(lib, Goto(v, r, RecoverList), w, r, poison);
  }

  // ---------------------------------------------------------------- how many calls, and who starves

  /** Undisturbed calls one after the other. */
  ghost predicate Recoveries(lib: Libraries, trace: seq<State>) {
    |trace| > 0 && forall i :: 0 <= i < |trace| - 1 ==> RecoverCall(lib, trace[i], trace[i + 1])
  }

  function StuckSets(trace: seq<State>): (sets: seq<set<AvatarId>>)
    ensures |sets| == |trace| && forall i :: 0 <= i < |trace| ==> sets[i] == Stuck(trace[i].rows, trace[i].now)
  {
    seq(|trace|, i requires 0 <= i < |trace| => Stuck(trace[i].rows, trace[i].now))
  }

  lemma RestOfCalls(lib: Libraries, trace: seq<State>)
    requires Recoveries(lib, trace) && |trace| > 1
    ensures RecoverCall(lib, trace[0], trace[1]) && Recoveries(lib, trace[1..])
  {
    hide RecoverCall;
    assert RecoverCall(lib, trace[0], trace[0 + 1]);
    var rest := trace[1..];
    forall i | 0 <= i < |rest| - 1
      ensures RecoverCall(lib, rest[i], rest[i + 1])
    {
      assert RecoverCall(lib, trace[i + 1], trace[i + 1 + 1]);
    }
  }

  lemma {:induction false} CallsAreRounds(lib: Libraries, trace: seq<State>)
    requires Lawful(lib) && Recoveries(lib, trace) && Inv(lib, trace[0]) && NoLeases(trace[0])
    ensures Rounds(StuckSets(trace), Ages(trace[0].rows), STUCK_LIMIT, HopelessIds(lib, trace[0]))
    ensures Cleared(trace[0], trace[|trace| - 1])
    decreases |trace|
  {
    hide Inv, Lawful, NoLeases, RecoverCall, Round, Stuck, Ages, HopelessIds, Cleared;
    assert |trace| > 0;
    hide Recoveries;
    var sets := StuckSets(trace);
    if |trace| == 1 {
      ClearedSelf(trace[0]);
    } else {
      var rest := trace[1..];
      RestOfCalls(lib, trace);
      CallIsRound(lib, trace[0], trace[1]);
      CallsAreRounds(lib, rest);
      ClearedTransitively(trace[0], trace[1], trace[|trace| - 1]);
      forall i | 0 <= i < |sets| - 1
        ensures Round(sets[i], Ages(trace[0].rows), STUCK_LIMIT, HopelessIds(lib, trace[0]), sets[i + 1])
      {
        if i > 0 {
          assert StuckSets(rest)[i - 1] == sets[i] && StuckSets(rest)[i - 1 + 1] == sets[i + 1];
        }
      }
    }
  }

  predicate IsCompleted(s: State, id: AvatarId) {
    id in s.rows && s.rows[id].Live() && s.rows[id].status == Completed
  }

  lemma FinishedIfCleared(v: State, w: State, id: AvatarId)
    requires Cleared(v, w) && id in v.rows && id in Stuck(v.rows, v.now)
    ensures id in Stuck(w.rows, w.now) || IsCompleted(w, id)
  {
    hide Claimable;
  }

  lemma StuckIsUnfinished(s: State, id: AvatarId)
    requires id in Stuck(s.rows, s.now)
    ensures id in s.rows && !IsCompleted(s, id)
  {
  }

  /** With p < 20 stuck avatars whose image is hopeless and g others, any n undisturbed calls with n * (20 - p) >= g,
      hence ceil(g / (20 - p)) of them, complete every one of the g. */
  lemma RecoveryBound(lib: Libraries, trace: seq<State>, id: AvatarId)
    requires Lawful(lib) && Recoveries(lib, trace) && Reachable(lib, trace[0]) && NoLeases(trace[0])
    requires var stuck := Stuck(trace[0].rows, trace[0].now); var hopeless := HopelessIds(lib, trace[0]);
      && |stuck * hopeless| < 20 && id in stuck - hopeless
      && (|trace| - 1) * (20 - |stuck * hopeless|) >= |stuck - hopeless|
    ensures IsCompleted(trace[|trace| - 1], id)
  {
    hide Inv, Lawful, Reachable, NoLeases, RecoverCall, Rounds, Stuck, Ages, HopelessIds, Cleared;
    ReachableHasInv(lib, trace[0]);
    CallsAreRounds(lib, trace);
    RoundsFinish(StuckSets(trace), Ages(trace[0].rows), STUCK_LIMIT, HopelessIds(lib, trace[0]));
    HopelessHaveRows(lib, trace[0]);
    FinishedIfCleared(trace[0], trace[|trace| - 1], id);
  }

  /** With 20 or more hopeless avatars as old as `id` or older, calls that all pass it over. */
  lemma {:induction false} CanStarve(lib: Libraries, s: State, id: AvatarId, n: nat) returns (trace: seq<State>)
    requires Lawful(lib) && Inv(lib, s) && NoLeases(s)
    requires id in Stuck(s.rows, s.now) && id !in HopelessIds(lib, s) && id in Ages(s.rows)
    requires |Blockers(Stuck(s.rows, s.now), Ages(s.rows), HopelessIds(lib, s), id)| >= STUCK_LIMIT
    ensures Recoveries(lib, trace) && |trace| == n + 1 && trace[0] == s
    ensures id in Stuck(trace[n].rows, trace[n].now) && id !in HopelessIds(lib, trace[n])
    decreases n
  {
    hide Inv, Lawful, NoLeases, RecoverCall, Round, Stuck, Ages, HopelessIds, Blockers, IsStuckListing, ResolvedAll,
      Cleared;
    if n == 0 {
      trace := [s];
    } else {
      HopelessHaveRows(lib, s);
      var pick, next := PassedOver(Stuck(s.rows, s.now), Ages(s.rows), STUCK_LIMIT, HopelessIds(lib, s), id);
      var ids := PickIsListing(s.rows, s.now, STUCK_LIMIT, pick);
      var w := CanRecover(lib, s, ids);
      StuckAfterCall(lib, s, w, ids);
      var rest := CanStarve(lib, w, id, n - 1);
      trace := [s] + rest;
      forall i | 0 <= i < |trace| - 1
        ensures RecoverCall(lib, trace[i], trace[i + 1])
      {
        if i > 0 {
          assert RecoverCall(lib, rest[i - 1], rest[i - 1 + 1]);
        }
      }
    }
  }

  /** "A stuck avatar that is not hopeless is completed, after as many undisturbed calls of RecoverStuck as there are
      such avatars" holds of `id` if and only if fewer than 20 hopeless avatars are as old or older. */
  lemma RecoveryServesIff(lib: Libraries, s: State, id: AvatarId)
    requires Lawful(lib) && Reachable(lib, s) && NoLeases(s)
    requires id in Stuck(s.rows, s.now) && id !in HopelessIds(lib, s) && id in Ages(s.rows)
    ensures (forall trace: seq<State> ::
               Recoveries(lib, trace) && trace[0] == s && |trace| > |Stuck(s.rows, s.now) - HopelessIds(lib, s)| ==>
                 IsCompleted(trace[|trace| - 1], id))
            <==> |Blockers(Stuck(s.rows, s.now), Ages(s.rows), HopelessIds(lib, s), id)| < 20
  {
    hide Inv, Lawful, Reachable, NoLeases, RecoverCall, Rounds, Stuck, Ages, HopelessIds, Blockers, Cleared,
      IsCompleted;
    ReachableHasInv(lib, s);
    HopelessHaveRows(lib, s);
    var g := |Stuck(s.rows, s.now) - HopelessIds(lib, s)|;
    if |Blockers(Stuck(s.rows, s.now), Ages(s.rows), HopelessIds(lib, s), id)| < STUCK_LIMIT {
      forall trace: seq<State> | Recoveries(lib, trace) && trace[0] == s && |trace| > g
        ensures IsCompleted(trace[|trace| - 1], id)
      {
        CallsAreRounds(lib, trace);
        var sets := StuckSets(trace);
        if id in sets[|sets| - 1] {
          RoundsServe(sets, Ages(s.rows), STUCK_LIMIT, HopelessIds(lib, s), id);
        }
        FinishedIfCleared(s, trace[|trace| - 1], id);
      }
    } else {
      var trace := CanStarve(lib, s, id, g);
      StuckIsUnfinished(trace[g], id);
      assert Recoveries(lib, trace);
    }
  }

  // ---------------------------------------------------------------- calls are executions

  lemma RecoveryIsExecution(lib: Libraries, v: State, w: State) returns (actions: seq<Action>)
    requires RecoverCall(lib, v, w)
    ensures Legal(lib, v, actions) && After(lib, v, actions) == w
  {
    hide Runs, Legal, After, Next, Enabled;
    var r: RunId, poison: set<nat> :| r !in v.runs && r !in w.runs && Runs(lib, Goto(v, r, RecoverList), w, r, poison);
    BeginRecoverStep(lib, v, r);
    actions := RunIsExecution(lib, v, BeginRecover(r), w, r, poison);
  }

  lemma {:induction false} RecoveriesAreExecution(lib: Libraries, trace: seq<State>) returns (actions: seq<Action>)
    requires Recoveries(lib, trace)
    ensures Legal(lib, trace[0], actions) && After(lib, trace[0], actions) == trace[|trace| - 1]
    decreases |trace|
  {
    hide RecoverCall, Next, Enabled;
    assert |trace| > 0;
    if |trace| == 1 {
      actions := [];
    } else {
      hide Recoveries, Legal, After;
      RestOfCalls(lib, trace);
      var first := RecoveryIsExecution(lib, trace[0], trace[1]);
      var rest := RecoveriesAreExecution(lib, trace[1..]);
      AfterConcat(lib, trace[0], first, rest);
      actions := first + rest;
    }
  }
}
