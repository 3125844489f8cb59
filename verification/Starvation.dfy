/** Executions from the empty system that break a third promise: that every row that can be finished is. Twenty images
    that are accepted but cannot be drawn, or fifty rows that the broker never takes, keep what was uploaded after
    them waiting for ever. */
module Starvation {
  import opened Domain
  import opened Images
  import opened Protocol
  import opened Invariant
  import opened Effects
  import opened Steps
  import opened Guarantees
  import opened Outcomes
  import opened Progress
  import opened FlushCalls
  import opened RecoverCalls
  import opened Lease
  import opened Traces
  import opened Sample

  // ---------------------------------------------------------------- one upload after the other

  /** The row of the i-th upload, made at time i. */
  function RowOf(lib: Libraries, user: string, ids: seq<AvatarId>, images: seq<Bytes>, i: nat): Row
    requires i < |ids| == |images| && Inspect(lib, images[i]).Ok?
  {
    NewRow(user, images[i], ids[i], Inspect(lib, images[i]).value, i)
  }

  /** Avatars with distinct ids, each from an accepted image. */
  ghost predicate Accepted(lib: Libraries, ids: seq<AvatarId>, images: seq<Bytes>) {
    && |ids| == |images|
    && (forall i :: 0 <= i < |images| ==> Inspect(lib, images[i]).Ok?)
    && (forall i, j :: 0 <= i < j < |ids| ==> ids[i] != ids[j])
  }

  /** The first `n` of them have been uploaded, and nothing else has happened. */
  ghost predicate Stocked(lib: Libraries, s: State, user: string, ids: seq<AvatarId>, images: seq<Bytes>, n: nat)
    requires Accepted(lib, ids, images)
  {
    && n <= |ids| && s.now == n && s.runs == map[] && s.used == s.rows.Keys == Chosen(ids[..n])
    && (forall i: nat :: i < n ==> StockedAt(lib, s, user, ids, images, i))
    && (forall k: nat :: k in s.outbox <==> k < n) && (forall k <- s.outbox.Keys :: !s.outbox[k].published)
  }

  ghost predicate StockedAt(lib: Libraries, s: State, user: string, ids: seq<AvatarId>, images: seq<Bytes>, i: nat)
    requires Accepted(lib, ids, images) && i < |ids|
  {
    && ids[i] in s.rows && s.rows[ids[i]] == RowOf(lib, user, ids, images, i)
    && s.rows[ids[i]].key in s.bucket && s.bucket[s.rows[ids[i]].key].data == images[i]
  }

  /** An upload up to its transaction. */
  lemma PutsOriginal(lib: Libraries, s: State, user: string, data: Bytes, id: AvatarId, serial: nat)
    returns (actions: seq<Action>)
    requires Inspect(lib, data).Ok? && s.runs == map[] && id !in s.used && serial !in s.outbox
    ensures var row := NewRow(user, data, id, Inspect(lib, data).value, s.now);
      Reaches(lib, s, actions,
        s.(used := s.used + {id}, bucket := s.bucket[row.key := Object(data, row.mime)],
          runs := map[0 := UploadCreate(0, id, row)]))
  {
    hide Reaches, Inspect, NewRow;
    var row := NewRow(user, data, id, Inspect(lib, data).value, s.now);
    NoSteps(lib, s);
    var a := BeginUpload(0, 0, user, data, id);
    var b := Step(0, Good(serial));
    var s1 := Next(lib, s, a);
    assert s1.runs == map[0 := UploadPut(0, id, row, data)];
    Extend(lib, s, [], s, a);
    assert Next(lib, s1, b).runs == map[0 := UploadCreate(0, id, row)];
    Extend(lib, s, [] + [a], s1, b);
    actions := [] + [a] + [b];
  }

  /** Its transaction, its gauge, and a tick of the clock. */
  lemma InsertsRow(lib: Libraries, s: State, id: AvatarId, row: Row, serial: nat)
    returns (actions: seq<Action>, w: State)
    requires Inv(lib, s) && s.runs == map[0 := UploadCreate(0, id, row)] && id !in s.rows && serial !in s.outbox
    ensures Reaches(lib, s, actions, w)
    ensures w.rows == s.rows[id := row] && w.outbox == s.outbox[serial := UploadEntryOf(lib, id, row)]
    ensures w.bucket == s.bucket && w.used == s.used && w.now == s.now + 1 && w.runs == map[]
  {
    hide Reaches, Inv, UploadEventId, InsertOutbox, OutboxKeeps;
    NoSteps(lib, s);
    InsertsAppend(lib, s, id, serial, UploadEntryOf(lib, id, row));
    var b := Step(0, Good(serial));
    var s1 := Next(lib, s, b);
    Extend(lib, s, [], s, b);
    assert s1.runs == map[0 := UploadGauge(0, row.size)];
    var rest := Finishes(lib, s1, row.size);
    hide Next, Enabled;
    w := s1.(gauges := s1.gauges[0 := Gauge(s1.gauges, 0) + row.size], runs := map[], now := s1.now + 1);
    Join(lib, s, [] + [b], s1, rest, w);
    actions := [] + [b] + rest;
  }

  lemma Finishes(lib: Libraries, s: State, size: nat) returns (actions: seq<Action>)
    requires s.runs == map[0 := UploadGauge(0, size)]
    ensures Reaches(lib, s, actions,
      s.(gauges := s.gauges[0 := Gauge(s.gauges, 0) + size], runs := map[], now := s.now + 1))
  {
    hide Reaches, FreshOf;
    NoSteps(lib, s);
    var c := Step(0, Good(FreshOf(s.outbox)));
    var s1 := Next(lib, s, c);
    assert s1.runs == map[];
    Extend(lib, s, [], s, c);
    Extend(lib, s, [] + [c], s1, Tick(1));
    actions := [] + [c] + [Tick(1)];
  }

  /** One whole upload and a tick of the clock. */
  lemma OneUpload(lib: Libraries, s: State, user: string, data: Bytes, id: AvatarId, serial: nat)
    returns (actions: seq<Action>, w: State)
    requires Lawful(lib) && Inv(lib, s) && Inspect(lib, data).Ok? && s.runs == map[] && id !in s.used
      && serial !in s.outbox
    ensures Reaches(lib, s, actions, w)
    ensures var row := NewRow(user, data, id, Inspect(lib, data).value, s.now);
      && w.rows == s.rows[id := row] && w.bucket == s.bucket[row.key := Object(data, row.mime)]
      && w.outbox == s.outbox[serial := UploadEntryOf(lib, id, row)]
      && w.used == s.used + {id} && w.now == s.now + 1 && w.runs == map[]
  {
    hide Reaches, Inv, Lawful, Inspect, NewRow, UploadEntryOf;
    var row := NewRow(user, data, id, Inspect(lib, data).value, s.now);
    var put := PutsOriginal(lib, s, user, data, id, serial);
    var v :=
      s.(used := s.used + {id}, bucket := s.bucket[row.key := Object(data, row.mime)],
        runs := map[0 := UploadCreate(0, id, row)]);
    ReachesKeeps(lib, s, put, v);
    UnusedHasNoRow(lib, s, id);
    var more;
    more, w := InsertsRow(lib, v, id, row, serial);
    Join(lib, s, put, v, more, w);
    actions := put + more;
  }

  lemma UnusedHasNoRow(lib: Libraries, s: State, id: AvatarId)
    requires Inv(lib, s) && id !in s.used
    ensures id !in s.rows
  {
    hide Inv;
    if id in s.rows {
      RowHolds(lib, s, id);
    }
  }

  lemma KeysDiffer(lib: Libraries, s: State, i: AvatarId, j: AvatarId)
    requires Inv(lib, s) && i in s.rows && j in s.rows && i != j
    ensures s.rows[i].key != s.rows[j].key
  {
    hide Inv, Owner, RowOk, IsOriginal;
    RowHolds(lib, s, i);
    RowHolds(lib, s, j);
    OwnerOfOriginal(i, s.rows[i]);
    OwnerOfOriginal(j, s.rows[j]);
  }

  lemma StaysAt(lib: Libraries, s: State, w: State, user: string, ids: seq<AvatarId>, images: seq<Bytes>, n: nat,
      i: nat)
    requires Accepted(lib, ids, images) && i < n < |ids| && StockedAt(lib, s, user, ids, images, i) && Inv(lib, w)
    requires var row := RowOf(lib, user, ids, images, n);
      w.rows == s.rows[ids[n] := row] && w.bucket == s.bucket[row.key := Object(images[n], row.mime)]
    ensures StockedAt(lib, w, user, ids, images, i)
  {
    hide Inv, RowOf, Inspect;
    KeysDiffer(lib, w, ids[i], ids[n]);
  }

  lemma StillStocked(lib: Libraries, s: State, w: State, user: string, ids: seq<AvatarId>, images: seq<Bytes>, n: nat)
    requires Accepted(lib, ids, images) && Stocked(lib, s, user, ids, images, n) && n < |ids| && Inv(lib, w)
    requires var row := RowOf(lib, user, ids, images, n);
      && w.rows == s.rows[ids[n] := row] && w.bucket == s.bucket[row.key := Object(images[n], row.mime)]
      && w.outbox == s.outbox[n := UploadEntryOf(lib, ids[n], row)]
      && w.used == s.used + {ids[n]} && w.now == s.now + 1 && w.runs == map[]
    ensures Stocked(lib, w, user, ids, images, n + 1)
  {
    hide Inv, RowOf, Inspect, UploadEntryOf, Chosen;
    forall i: nat | i < n
      ensures StockedAt(lib, w, user, ids, images, i)
    {
      StaysAt(lib, s, w, user, ids, images, n, i);
    }
    assert StockedAt(lib, w, user, ids, images, n);
    EntryIsOpen(lib, ids[n], RowOf(lib, user, ids, images, n));
    ChosenGrows(ids, n);
    hide StockedAt;
  }

  lemma EntryIsOpen(lib: Libraries, id: AvatarId, row: Row)
    ensures !UploadEntryOf(lib, id, row).published
  {
  }

  lemma NoneStocked(lib: Libraries, user: string, ids: seq<AvatarId>, images: seq<Bytes>)
    requires Accepted(lib, ids, images)
    ensures Stocked(lib, INIT, user, ids, images, 0)
  {
    assert Chosen(ids[..0]) == {};
  }

  lemma {:induction false} Stock(lib: Libraries, user: string, ids: seq<AvatarId>, images: seq<Bytes>, n: nat)
    returns (actions: seq<Action>, s: State)
    requires Lawful(lib) && Accepted(lib, ids, images) && n <= |ids|
    ensures Reaches(lib, INIT, actions, s) && Inv(lib, s) && Stocked(lib, s, user, ids, images, n)
  {
    hide Reaches, Inv, Lawful, Inspect, NewRow, StockedAt;
    InitHolds(lib);
    if n == 0 {
      NoSteps(lib, INIT);
      NoneStocked(lib, user, ids, images);
      actions, s := [], INIT;
    } else {
      var before, v := Stock(lib, user, ids, images, n - 1);
      NotYetUsed(ids, n - 1);
      var more, w := OneUpload(lib, v, user, images[n - 1], ids[n - 1], n - 1);
      Join(lib, INIT, before, v, more, w);
      actions, s := before + more, w;
      ReachesKeeps(lib, INIT, actions, s);
      StillStocked(lib, v, w, user, ids, images, n - 1);
    }
  }

  lemma NotYetUsed(ids: seq<AvatarId>, n: nat)
    requires n < |ids| && forall i, j :: 0 <= i < j < |ids| ==> ids[i] != ids[j]
    ensures ids[n] !in Chosen(ids[..n])
  {
  }

  // ---------------------------------------------------------------- twenty bad images starve one good one

  /** Of the stocked avatars, the hopeless are those with an image that cannot be drawn; all are
      stuck, in their order. */
  lemma StockIsStuck(lib: Libraries, s: State, user: string, ids: seq<AvatarId>, images: seq<Bytes>, n: nat, i: nat)
    requires Accepted(lib, ids, images) && Stocked(lib, s, user, ids, images, n) && i < n
    ensures NoLeases(s) && ids[i] in Stuck(s.rows, s.now) && ids[i] in Ages(s.rows) && Ages(s.rows)[ids[i]] == i
    ensures ids[i] in HopelessIds(lib, s) <==> Hopeless(lib, images[i], Inspect(lib, images[i]).value.mime)
  {
    hide Inspect, Hopeless, OriginalObjectKey;
    forall id <- s.rows.Keys
      ensures s.rows[id].status == Pending
    {
      var j: nat :| j < n && ids[j] == id;
      assert StockedAt(lib, s, user, ids, images, j);
    }
    assert StockedAt(lib, s, user, ids, images, i);
  }

  /** Any twenty accepted images that cannot be drawn, and then one that can: the system is reached in which that last
      one is claimable, and it still is after any number of complete calls of RecoverStuck that nothing disturbs. */
  lemma TwentyStarveOne(lib: Libraries, user: string, ids: seq<AvatarId>, images: seq<Bytes>, n: nat)
    returns (uploads: seq<Action>, trace: seq<State>, calls: seq<Action>)
    requires Lawful(lib) && Accepted(lib, ids, images) && |ids| == 21
    requires forall i: nat :: i < |ids| ==>
      (Hopeless(lib, images[i], Inspect(lib, images[i]).value.mime) <==> i < 20)
    ensures Recoveries(lib, trace) && |trace| == n + 1 && NoLeases(trace[0])
    ensures Reaches(lib, INIT, uploads, trace[0]) && Reaches(lib, trace[0], calls, trace[n])
    ensures ids[20] in Stuck(trace[n].rows, trace[n].now) && ids[20] !in HopelessIds(lib, trace[n])
  {
    hide Inv, Lawful, Inspect, Hopeless, NoLeases, Stocked, Stuck, HopelessIds, Recoveries, Ages, Legal, After,
      Blockers;
    var s: State;
    uploads, s := Stock(lib, user, ids, images, |ids|);
    var good := ids[STUCK_LIMIT];
    StockIsStuck(lib, s, user, ids, images, |ids|, STUCK_LIMIT);
    var elders := ids[..STUCK_LIMIT];
    forall id <- Chosen(elders)
      ensures id in Blockers(Stuck(s.rows, s.now), Ages(s.rows), HopelessIds(lib, s), good)
    {
      var i: nat :| i < STUCK_LIMIT && ids[i] == id;
      StockIsStuck(lib, s, user, ids, images, |ids|, i);
      BlocksIf(Stuck(s.rows, s.now), Ages(s.rows), HopelessIds(lib, s), good, id);
    }
    ChosenSize(elders);
    SubsetSize(Chosen(elders), Blockers(Stuck(s.rows, s.now), Ages(s.rows), HopelessIds(lib, s), good));
    trace := CanStarve(lib, s, good, n);
    calls := RecoveriesAreExecution(lib, trace);
  }

  lemma BlocksIf<T>(open: set<T>, age: map<T, nat>, poison: set<T>, k: T, j: T)
    requires k in age && j in age && j in open && j in poison && age[j] <= age[k]
    ensures j in Blockers(open, age, poison, k)
  {
  }

  /** A concrete such execution for every number of calls. */
  lemma RecoveryCanStarve(n: nat)
    ensures exists uploads: seq<Action>, trace: seq<State>, calls: seq<Action>, id: AvatarId ::
      && Recoveries(LIBRARY, trace) && |trace| == n + 1
      && Reaches(LIBRARY, INIT, uploads, trace[0]) && Reaches(LIBRARY, trace[0], calls, trace[n])
      && id in Stuck(trace[n].rows, trace[n].now) && id !in HopelessIds(LIBRARY, trace[n])
  {
    hide Lawful, Inspect, Thumbnail, Recoveries, Reaches, Stuck, HopelessIds, NoLeases;
    LibraryIsLawful();
    JpegCanBeDrawn();
    HeaderCannotBeDrawn();
    var ids := seq(STUCK_LIMIT + 1, i requires 0 <= i < STUCK_LIMIT + 1 => Numbered(i));
    var images := seq(STUCK_LIMIT + 1, i => if i < STUCK_LIMIT then HEADER else JPEG);
    forall i, j | 0 <= i < j < |ids|
      ensures ids[i] != ids[j]
    {
      if ids[i] == ids[j] {
        NumbersDiffer(i, j);
      }
    }
    var uploads, trace, calls := TwentyStarveOne(LIBRARY, "user", ids, images, n);
    assert Recoveries(LIBRARY, trace);
  }

  // ---------------------------------------------------------------- fifty refused rows starve one

  function Below(n: nat): (ks: set<nat>)
    ensures |ks| == n && forall k: nat :: k in ks <==> k < n
  {
    if n == 0 then {} else Below(n - 1) + {n - 1}
  }

  lemma StockIsOpen(lib: Libraries, s: State, user: string, ids: seq<AvatarId>, images: seq<Bytes>, n: nat)
    requires Accepted(lib, ids, images) && Stocked(lib, s, user, ids, images, n)
    ensures forall k: nat :: k < n ==> k in s.outbox && k in Unpublished(s.outbox) && k in Serials(s.outbox)
    ensures forall k: nat :: k < n ==> Serials(s.outbox)[k] == k
  {
    hide StockedAt;
  }

  /** Any fifty-one accepted images: if the broker takes none of the first fifty events, as it does when each is
      larger than it allows, then the last event is unpublished after any number of complete calls of FlushOutbox
      that nothing else disturbs. */
  lemma FiftyStarveOne(lib: Libraries, user: string, ids: seq<AvatarId>, images: seq<Bytes>, n: nat)
    returns (uploads: seq<Action>, trace: seq<State>, calls: seq<Action>)
    requires Lawful(lib) && Accepted(lib, ids, images) && |ids| == 51
    ensures Flushes(lib, trace, Below(50)) && |trace| == n + 1
    ensures Reaches(lib, INIT, uploads, trace[0]) && Reaches(lib, trace[0], calls, trace[n])
    ensures 50 in trace[n].outbox && !trace[n].outbox[50].published
  {
    hide Inv, Lawful, Inspect, Stocked, Flushes, Serials, Unpublished, Legal, After, Blockers, SameAvatars, Rounds;
    var s: State;
    uploads, s := Stock(lib, user, ids, images, |ids|);
    var poison := Below(FLUSH_LIMIT);
    StockIsOpen(lib, s, user, ids, images, |ids|);
    forall k <- poison
      ensures k in Blockers(Unpublished(s.outbox), Serials(s.outbox), poison, FLUSH_LIMIT)
    {
      BlocksIf(Unpublished(s.outbox), Serials(s.outbox), poison, FLUSH_LIMIT, k);
    }
    SubsetSize(poison, Blockers(Unpublished(s.outbox), Serials(s.outbox), poison, FLUSH_LIMIT));
    trace := CanFlushOn(lib, s, poison, n);
    StarvesHere(lib, trace, poison, FLUSH_LIMIT);
    FlushesAreRounds(lib, trace, poison);
    calls := FlushesAreExecution(lib, trace, poison);
  }

  /** A concrete such execution for every number of calls. */
  lemma FlushCanStarve(n: nat)
    ensures exists uploads: seq<Action>, trace: seq<State>, calls: seq<Action> ::
      && Flushes(LIBRARY, trace, Below(50)) && |trace| == n + 1
      && Reaches(LIBRARY, INIT, uploads, trace[0]) && Reaches(LIBRARY, trace[0], calls, trace[n])
      && 50 in trace[n].outbox && !trace[n].outbox[50].published
  {
    hide Lawful, Inspect, Flushes, Reaches;
    LibraryIsLawful();
    JpegCanBeDrawn();
    var ids := seq(FLUSH_LIMIT + 1, i requires 0 <= i < FLUSH_LIMIT + 1 => Numbered(i));
    var images := seq(FLUSH_LIMIT + 1, i => JPEG);
    forall i, j | 0 <= i < j < |ids|
      ensures ids[i] != ids[j]
    {
      if ids[i] == ids[j] {
        NumbersDiffer(i, j);
      }
    }
    var uploads, trace, calls := FiftyStarveOne(LIBRARY, "user", ids, images, n);
    assert Flushes(LIBRARY, trace, Below(FLUSH_LIMIT));
  }
}
