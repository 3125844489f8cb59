/** The worker's maintenance loop, and how many of its turns drain the outbox and finish the stuck avatars. */
module Maintenance {
  import opened Domain
  import opened Images
  import opened Protocol
  import opened Invariant
  import opened Guarantees
  import opened Deployments
  import opened Outcomes
  import opened Progress
  import opened FlushCalls
  import opened RecoverCalls
  import opened Flush
  import opened Recovery

  // ---------------------------------------------------------------- the loop

  /** One undisturbed turn: a flush and a recovery, with any time passing during and between them. */
  ghost predicate Maintained(lib: Libraries, v: State, w: State, poison: set<nat>) {
    exists m: State :: FlushCall(lib, v, m, poison) && RecoverCall(lib, m, w)
  }

  /** Such turns one after the other. */
  ghost predicate Turns(lib: Libraries, trace: seq<State>, poison: set<nat>) {
    |trace| > 0 && forall i :: 0 <= i < |trace| - 1 ==> Maintained(lib, trace[i], trace[i + 1], poison)
  }

  /** Some run took its step at `run` with the k-th logged action. */
  ghost predicate Queried(lib: Libraries, log: seq<Action>, k: nat, run: Run)
    requires Legal(lib, INIT, log)
  {
    exists me: RunId :: Took(lib, log, k, me, run)
  }

  lemma QueriedStays(lib: Libraries, log: seq<Action>, longer: seq<Action>, k: nat, run: Run)
    requires Legal(lib, INIT, log) && Legal(lib, INIT, longer) && log <= longer && Queried(lib, log, k, run)
    ensures Queried(lib, longer, k, run) && k < |log|
  {
    hide Legal, StateAt;
    var me: RunId :| Took(lib, log, k, me, run);
    TookStays(lib, log, longer, k, me, run);
  }

  /** One query of the outbox, then one for stuck avatars, and so on: one turn after the other. */
  ghost predicate Scheduled(lib: Libraries, log: seq<Action>, flushes: seq<nat>, recoveries: seq<nat>)
    requires Legal(lib, INIT, log)
  {
    && |flushes| == |recoveries|
    && forall i :: 0 <= i < |flushes| ==>
         && Queried(lib, log, flushes[i], FlushList) && Queried(lib, log, recoveries[i], RecoverList)
         && flushes[i] < recoveries[i] && (i > 0 ==> recoveries[i - 1] < flushes[i])
  }

  lemma ScheduledGrows(lib: Libraries, log: seq<Action>, longer: seq<Action>, flushes: seq<nat>, recoveries: seq<nat>,
      flush: nat, recovery: nat)
    requires Legal(lib, INIT, log) && Legal(lib, INIT, longer) && log <= longer && |log| <= flush < recovery
    requires Scheduled(lib, log, flushes, recoveries)
    requires Queried(lib, longer, flush, FlushList) && Queried(lib, longer, recovery, RecoverList)
    ensures Scheduled(lib, longer, flushes + [flush], recoveries + [recovery])
  {
    hide Legal, Queried;
    forall i | 0 <= i < |flushes|
      ensures Queried(lib, longer, flushes[i], FlushList) && Queried(lib, longer, recoveries[i], RecoverList)
      ensures recoveries[i] < |log|
    {
      QueriedStays(lib, log, longer, flushes[i], FlushList);
      QueriedStays(lib, log, longer, recoveries[i], RecoverList);
    }
  }

  /** runMaintenance: the errors of both calls are only logged, and the second is made whatever the first returned. */
  method RunMaintenance(d: Deployment) returns (ghost flush: nat, ghost recovery: nat)
    requires d.Valid()
    modifies d
    ensures d.Valid() && Evolves(old(d.st), d.st) && old(d.log) <= d.log
    ensures |old(d.log)| <= flush < recovery
    ensures Queried(d.lib, d.log, flush, FlushList) && Queried(d.lib, d.log, recovery, RecoverList)
    ensures d.Calm() ==> Maintained(d.lib, old(d.st), d.st, d.poison)
  {
    hide Evolves, Lawful, FlushCall, RecoverCall, Tried, Marked, AllServed, Legal, After, StateAt, IsStuckListing,
      ListUnpublished, EventsFor;
    var _, _, _, listed, _, _ := FlushOutbox(d);
    flush := listed;
    ghost var flushed, log := d.st, d.log;
    var _, _, _, _, listed', _, _ := RecoverStuck(d);
    recovery := listed';
    EvolvesTransitively(old(d.st), flushed, d.st);
    QueriedStays(d.lib, log, d.log, flush, FlushList);
  }

  /** The maintenance loop: once at the start and then at every tick of its timer, `n` turns in all. */
  method Maintain(d: Deployment, n: nat)
    returns (ghost trace: seq<State>, ghost flushes: seq<nat>, ghost recoveries: seq<nat>)
    requires d.Valid()
    modifies d
    ensures d.Valid() && Evolves(old(d.st), d.st) && old(d.log) <= d.log
    ensures |flushes| == n && Scheduled(d.lib, d.log, flushes, recoveries)
    ensures |trace| == n + 1 && trace[0] == old(d.st) && trace[n] == d.st
    ensures d.Calm() ==> Turns(d.lib, trace, d.poison)
  {
    hide Evolves, Lawful, Maintained, Queried, Legal, After;
    SameTables(d.st, d.st);
    trace, flushes, recoveries := [d.st], [], [];
    for i := 0 to n
      invariant d.Valid() && Evolves(old(d.st), d.st) && old(d.log) <= d.log
      invariant |flushes| == i && Scheduled(d.lib, d.log, flushes, recoveries)
      invariant |trace| == i + 1 && trace[0] == old(d.st) && trace[i] == d.st
      invariant d.Calm() ==> Turns(d.lib, trace, d.poison)
    {
      ghost var log := d.log;
      ghost var flush, recovery := RunMaintenance(d);
      EvolvesTransitively(old(d.st), trace[i], d.st);
      ScheduledGrows(d.lib, log, d.log, flushes, recoveries, flush, recovery);
      trace, flushes, recoveries := trace + [d.st], flushes + [flush], recoveries + [recovery];
    }
  }

  // ---------------------------------------------------------------- what the turns achieve

  lemma RestOfTurns(lib: Libraries, trace: seq<State>, poison: set<nat>)
    requires Turns(lib, trace, poison) && |trace| > 1
    ensures Maintained(lib, trace[0], trace[1], poison) && Turns(lib, trace[1..], poison)
  {
    hide Maintained;
    assert Maintained(lib, trace[0], trace[0 + 1], poison);
    var rest := trace[1..];
    forall i | 0 <= i < |rest| - 1
      ensures Maintained(lib, rest[i], rest[i + 1], poison)
    {
      assert Maintained(lib, trace[i + 1], trace[i + 1 + 1], poison);
    }
  }

  /** For the outbox a turn is a flush: leases and recoveries play no part. */
  lemma TurnFlushes(lib: Libraries, v: State, w: State, poison: set<nat>)
    requires Lawful(lib) && Inv(lib, v) && Maintained(lib, v, w, poison)
    ensures Round(Unpublished(v.outbox), Serials(v.outbox), FLUSH_LIMIT, poison, Unpublished(w.outbox))
    ensures Serials(w.outbox) == Serials(v.outbox) && Inv(lib, w)
  {
    hide Inv, Lawful, FlushCall, RecoverCall, Round, Unpublished, Serials;
    var m: State :| FlushCall(lib, v, m, poison) && RecoverCall(lib, m, w);
    FlushIsRound(lib, v, m, poison);
    CallKeepsOutbox(lib, m, w);
    CallKeeps(lib, m, w);
  }

  lemma SameStuck(lib: Libraries, v: State, w: State)
    requires SameAvatars(v, w) && NoLeases(v)
    ensures Stuck(w.rows, w.now) == Stuck(v.rows, v.now) && HopelessIds(lib, w) == HopelessIds(lib, v)
    ensures Ages(w.rows) == Ages(v.rows) && NoLeases(w) && Cleared(v, w)
  {
    hide Claimable, Hopeless;
    forall id <- v.rows.Keys
      ensures Claimable(w.rows[id], w.now) <==> Claimable(v.rows[id], v.now)
    {
      ClaimableStays(v.rows[id], v.now, w.now);
    }
    assert Stuck(w.rows, w.now) == Stuck(v.rows, v.now);
  }

  /** For the avatars it is a recovery. */
  lemma TurnRecovers(lib: Libraries, v: State, w: State, poison: set<nat>)
    requires Lawful(lib) && Inv(lib, v) && NoLeases(v) && Maintained(lib, v, w, poison)
    ensures Round(Stuck(v.rows, v.now), Ages(v.rows), STUCK_LIMIT, HopelessIds(lib, v), Stuck(w.rows, w.now))
    ensures Ages(w.rows) == Ages(v.rows) && HopelessIds(lib, w) == HopelessIds(lib, v) && Cleared(v, w)
    ensures Inv(lib, w) && NoLeases(w)
  {
    hide Inv, Lawful, FlushCall, RecoverCall, Round, Stuck, Ages, HopelessIds, Cleared, NoLeases, SameAvatars, Evolves;
    var m: State :| FlushCall(lib, v, m, poison) && RecoverCall(lib, m, w);
    CallFlushes(lib, v, m, poison);
    SameStuck(lib, v, m);
    CallIsRound(lib, m, w);
    ClearedTransitively(v, m, w);
  }

  lemma {:induction false} TurnsFlush(lib: Libraries, trace: seq<State>, poison: set<nat>)
    requires Lawful(lib) && Turns(lib, trace, poison) && Inv(lib, trace[0])
    ensures Rounds(OpenSets(trace), Serials(trace[0].outbox), FLUSH_LIMIT, poison)
    decreases |trace|
  {
    assert |trace| > 0;
    hide Inv, Lawful, Maintained, Round, Unpublished, Serials, Turns;
    var sets := OpenSets(trace);
    if |trace| > 1 {
      var rest := trace[1..];
      RestOfTurns(lib, trace, poison);
      TurnFlushes(lib, trace[0], trace[1], poison);
      TurnsFlush(lib, rest, poison);
      forall i | 0 <= i < |sets| - 1
        ensures Round(sets[i], Serials(trace[0].outbox), FLUSH_LIMIT, poison, sets[i + 1])
      {
        if i > 0 {
          assert OpenSets(rest)[i - 1] == sets[i] && OpenSets(rest)[i - 1 + 1] == sets[i + 1];
        }
      }
    }
  }

  lemma {:induction false} TurnsRecover(lib: Libraries, trace: seq<State>, poison: set<nat>)
    requires Lawful(lib) && Turns(lib, trace, poison) && Inv(lib, trace[0]) && NoLeases(trace[0])
    ensures Rounds(StuckSets(trace), Ages(trace[0].rows), STUCK_LIMIT, HopelessIds(lib, trace[0]))
    ensures Cleared(trace[0], trace[|trace| - 1])
    decreases |trace|
  {
    assert |trace| > 0;
    hide Inv, Lawful, Maintained, Round, Stuck, Ages, HopelessIds, Cleared, NoLeases, Turns;
    var sets := StuckSets(trace);
    if |trace| == 1 {
      ClearedSelf(trace[0]);
    } else {
      var rest := trace[1..];
      RestOfTurns(lib, trace, poison);
      TurnRecovers(lib, trace[0], trace[1], poison);
      TurnsRecover(lib, rest, poison);
      ClearedTransitively(trace[0], trace[1], trace[|trace| - 1]);
      forall i | 0 <= i < |sets| - 1
        ensures Round(sets[i], Ages(trace[0].rows), STUCK_LIMIT, HopelessIds(lib, trace[0]), sets[i + 1])
      {
        if i > 0 {
          assert StuckSets(rest)[i - 1] == sets[i] && StuckSets(rest)[i - 1 + 1] == sets[i + 1];
        }
      }
    }
  }

  /** With q < 50 unpublished rows that the broker never takes and g others, any n turns with n * (50 - q) >= g, hence
      ceil(g / (50 - q)) of them, publish exactly the g others, however much time passes. */
  lemma OutboxDrains(lib: Libraries, trace: seq<State>, poison: set<nat>)
    requires Lawful(lib) && Turns(lib, trace, poison) && Reachable(lib, trace[0])
    requires var open := Unpublished(trace[0].outbox);
      && |open * poison| < 50
      && (|trace| - 1) * (50 - |open * poison|) >= |open - poison|
    ensures Unpublished(trace[|trace| - 1].outbox) == Unpublished(trace[0].outbox) * poison
  {
    hide Inv, Lawful, Reachable, Turns, Rounds, Unpublished, Serials;
    ReachableHasInv(lib, trace[0]);
    TurnsFlush(lib, trace, poison);
    RoundsFinish(OpenSets(trace), Serials(trace[0].outbox), FLUSH_LIMIT, poison);
  }

  /** With p < 20 stuck avatars whose image is hopeless and g others, and no lease running at the start, any n turns
      with n * (20 - p) >= g complete every one of the g, however much time passes. */
  lemma StuckRecover(lib: Libraries, trace: seq<State>, poison: set<nat>, id: AvatarId)
    requires Lawful(lib) && Turns(lib, trace, poison) && Reachable(lib, trace[0]) && NoLeases(trace[0])
    requires var stuck := Stuck(trace[0].rows, trace[0].now); var hopeless := HopelessIds(lib, trace[0]);
      && |stuck * hopeless| < 20 && id in stuck - hopeless
      && (|trace| - 1) * (20 - |stuck * hopeless|) >= |stuck - hopeless|
    ensures IsCompleted(trace[|trace| - 1], id)
  {
    hide Inv, Lawful, Reachable, NoLeases, Turns, Rounds, Stuck, Ages, HopelessIds, Cleared;
    ReachableHasInv(lib, trace[0]);
    TurnsRecover(lib, trace, poison);
    RoundsFinish(StuckSets(trace), Ages(trace[0].rows), STUCK_LIMIT, HopelessIds(lib, trace[0]));
    HopelessHaveRows(lib, trace[0]);
    FinishedIfCleared(trace[0], trace[|trace| - 1], id);
  }

  /** Beyond that bound nothing is promised for all, but a single avatar is completed within as many turns as there are
      stuck avatars that can be, whenever fewer than 20 hopeless ones are as old or older. */
  lemma StuckRecoverAhead(lib: Libraries, trace: seq<State>, poison: set<nat>, id: AvatarId)
    requires Lawful(lib) && Turns(lib, trace, poison) && Reachable(lib, trace[0]) && NoLeases(trace[0])
    requires var stuck := Stuck(trace[0].rows, trace[0].now); var hopeless := HopelessIds(lib, trace[0]);
      && id in stuck - hopeless && id in Ages(trace[0].rows) && |trace| > |stuck - hopeless|
      && |Blockers(stuck, Ages(trace[0].rows), hopeless, id)| < 20
    ensures IsCompleted(trace[|trace| - 1], id)
  {
    hide Inv, Lawful, Reachable, NoLeases, Turns, Rounds, Stuck, Ages, HopelessIds, Cleared, Blockers;
    ReachableHasInv(lib, trace[0]);
    TurnsRecover(lib, trace, poison);
    HopelessHaveRows(lib, trace[0]);
    var sets := StuckSets(trace);
    if id in sets[|sets| - 1] {
      RoundsServe(sets, Ages(trace[0].rows), STUCK_LIMIT, HopelessIds(lib, trace[0]), id);
    }
    FinishedIfCleared(trace[0], trace[|trace| - 1], id);
  }
}
