/** RecoverStuck as a run of the protocol. */
module Recovery {
  import opened Domain
  import opened Images
  import opened Protocol
  import opened Invariant
  import opened Guarantees
  import opened Processings
  import opened Undisturbed
  import opened Deployments
  import opened Outcomes
  import opened Process
  import opened RecoverCalls

  /** The call for the i-th listed avatar. */
  function JobFor(events: seq<UploadEvent>, ids: seq<AvatarId>, i: nat): Job
    requires i < |ids| == |events|
  {
    Job(ids[i], events[i], events[i + 1..])
  }

  // ---------------------------------------------------------------- what the log says of a listed avatar

  /** The call for this avatar went from the first-th logged action to its answer, the last-th; if `done`, that was nil,
      and the avatar was settled right then. */
  ghost predicate Served(lib: Libraries, log: seq<Action>, me: RunId, job: Job, first: nat, last: nat, done: bool)
    requires Legal(lib, INIT, log)
  {
    && first <= last && Took(lib, log, first, me, ProcRead(job)) && Answered(lib, log, last, me, job, !done)
    && (done ==> var end := StateAt(lib, log, last + 1); Settled(end.rows, end.now, job.id))
  }

  lemma ServedStays(lib: Libraries, log: seq<Action>, longer: seq<Action>, me: RunId, job: Job, first: nat, last: nat,
      done: bool)
    requires Legal(lib, INIT, log) && Legal(lib, INIT, longer) && log <= longer
    requires Served(lib, log, me, job, first, last, done)
    ensures Served(lib, longer, me, job, first, last, done) && last < |log|
  {
    hide Legal, StateAt, AnswerOf, JobOf, Settled, Took;
    TookStays(lib, log, longer, first, me, ProcRead(job));
    StateAtStays(lib, log, longer, last);
    StateAtStays(lib, log, longer, last + 1);
  }

  /** After the from-th logged action the listed avatars so far were served, one after the other. */
  ghost predicate AllServed(lib: Libraries, log: seq<Action>, me: RunId, from: nat, events: seq<UploadEvent>,
      ids: seq<AvatarId>, firsts: seq<nat>, lasts: seq<nat>, done: seq<bool>)
    requires Legal(lib, INIT, log)
  {
    && |firsts| == |lasts| == |done| <= |ids| == |events|
    && forall i :: 0 <= i < |done| ==>
         && Served(lib, log, me, JobFor(events, ids, i), firsts[i], lasts[i], done[i])
         && (if i == 0 then from else lasts[i - 1]) < firsts[i]
  }

  lemma AllServedGrows(lib: Libraries, log: seq<Action>, longer: seq<Action>, me: RunId, from: nat,
      events: seq<UploadEvent>, ids: seq<AvatarId>, firsts: seq<nat>, lasts: seq<nat>, done: seq<bool>, first: nat,
      last: nat, ok: bool)
    requires Legal(lib, INIT, log) && Legal(lib, INIT, longer) && log <= longer && from < |log| <= first
    requires AllServed(lib, log, me, from, events, ids, firsts, lasts, done) && |done| < |ids|
    requires Served(lib, longer, me, JobFor(events, ids, |done|), first, last, ok)
    ensures AllServed(lib, longer, me, from, events, ids, firsts + [first], lasts + [last], done + [ok])
  {
    hide Legal, Served;
    var n := |done|;
    forall i | 0 <= i < n + 1
      ensures Served(lib, longer, me, JobFor(events, ids, i), (firsts + [first])[i], (lasts + [last])[i],
        (done + [ok])[i])
      ensures (if i == 0 then from else (lasts + [last])[i - 1]) < (firsts + [first])[i]
    {
      if i < n {
        assert Served(lib, log, me, JobFor(events, ids, i), firsts[i], lasts[i], done[i]);
        assert (if i == 0 then from else lasts[i - 1]) < firsts[i];
        ServedStays(lib, log, longer, me, JobFor(events, ids, i), firsts[i], lasts[i], done[i]);
      } else if i > 0 {
        ServedStays(lib, log, longer, me, JobFor(events, ids, i - 1), firsts[i - 1], lasts[i - 1], done[i - 1]);
        assert lasts[i - 1] < |log|;
      }
    }
  }

  lemma NoneServed(lib: Libraries, log: seq<Action>, me: RunId, from: nat, events: seq<UploadEvent>, ids: seq<AvatarId>)
    requires Legal(lib, INIT, log) && |events| == |ids|
    ensures AllServed(lib, log, me, from, events, ids, [], [], [])
  {
  }

  lemma WholeLog(lib: Libraries, log: seq<Action>)
    requires Legal(lib, INIT, log)
    ensures StateAt(lib, log, |log|) == After(lib, INIT, log)
  {
    hide Legal, After;
    assert log[..|log|] == log;
  }

  // ---------------------------------------------------------------- the methods

  /** ListStuckUploads(20). */
  method ListStuck(d: Deployment) returns (me: RunId, err: bool, ids: seq<AvatarId>, events: seq<UploadEvent>)
    requires d.Valid()
    modifies d
    ensures d.Valid() && Evolves(old(d.st), d.st) && me == FreshRun(old(d.st).runs) && old(d.log) < d.log
    ensures Took(d.lib, d.log, |d.log| - 1, me, RecoverList) && err == !d.log[|d.log| - 1].t.ok
    ensures var at := StateAt(d.lib, d.log, |d.log| - 1);
      && (if err then ids == [] else IsStuckListing(at.rows, at.now, 20, ids))
      && (forall i :: 0 <= i < |ids| ==> ids[i] in at.rows) && events == EventsFor(at.rows, ids)
    ensures Awaiting(d.st, me, events) && |ids| <= 20
    ensures d.Calm() ==> !err && Runs(d.lib, Goto(old(d.st), me, RecoverList), d.st, me, d.poison)
  {
    hide Inv, Evolves, Lawful, Awaiting, Next, Enabled, IsStuckListing, Runs, Legal, After, StateAt;
    me := FreshRun(d.st.runs);
    BeginRecoverStep(d.lib, d.st, me);
    d.Begin(BeginRecover(me));
    ghost var begun := d.st;
    var t, s := d.Effect(me);
    EvolvesTransitively(old(d.st), begun, s);
    EvolvesTransitively(old(d.st), s, d.st);
    EndJobIs(d.lib, s, me, t);
    ListedHaveRows(s.rows, s.now, STUCK_LIMIT, t.stuck);
    TookHere(d.lib, d.log, me, s, t);
    if !t.ok {
      return me, true, [], [];
    }
    return me, false, t.stuck, EventsFor(s.rows, t.stuck);
  }

  /** processUpload for the i-th listed avatar. */
  method Recover(d: Deployment, me: RunId, events: seq<UploadEvent>, ids: seq<AvatarId>, i: nat)
    returns (err: bool, ghost first: nat)
    requires d.Valid() && i < |ids| == |events| && Awaiting(d.st, me, events[i..]) && events[i].avatarId == ids[i]
    modifies d
    ensures d.Valid() && Evolves(old(d.st), d.st) && old(d.log) < d.log && Awaiting(d.st, me, events[i + 1..])
    ensures |old(d.log)| <= first && Served(d.lib, d.log, me, JobFor(events, ids, i), first, |d.log| - 1, !err)
    ensures d.Calm() ==> Runs(d.lib, old(d.st), d.st, me, d.poison)
  {
    NowAwaiting(d.st, me, events, i);
    hide Evolves, Lawful, Awaiting, Settled, Runs, Legal, After, StateAt, Answered, Took, Claimable, ResolvedAll;
    err, first := ProcessUpload(d, me, d.st.runs[me].job);
    WholeLog(d.lib, d.log);
  }

  /** RecoverStuck. Whatever else happens meanwhile, the call asks for the stuck avatars once, `listed` being the log's
      index of the query, and then processes every avatar of that answer in turn, a failing one never stopping the loop;
      `done` says whose call returned nil, and the whole call reports nil exactly if the query worked and all did.
      Undisturbed, it is a RecoverCall. */
  method RecoverStuck(d: Deployment)
    returns (err: bool, ids: seq<AvatarId>, events: seq<UploadEvent>, done: seq<bool>, ghost listed: nat,
             ghost firsts: seq<nat>, ghost lasts: seq<nat>)
    requires d.Valid()
    modifies d
    ensures d.Valid() && Evolves(old(d.st), d.st) && old(d.log) <= d.log && FreshRun(old(d.st).runs) !in d.st.runs
    ensures |old(d.log)| <= listed && Took(d.lib, d.log, listed, FreshRun(old(d.st).runs), RecoverList)
    ensures var at := StateAt(d.lib, d.log, listed);
      && (if d.log[listed].t.ok then IsStuckListing(at.rows, at.now, 20, ids) else ids == [])
      && (forall i :: 0 <= i < |ids| ==> ids[i] in at.rows) && events == EventsFor(at.rows, ids)
    ensures |done| == |ids| <= 20
    ensures AllServed(d.lib, d.log, FreshRun(old(d.st).runs), listed, events, ids, firsts, lasts, done)
    ensures err <==> !d.log[listed].t.ok || exists i :: 0 <= i < |ids| && !done[i]
    ensures d.Calm() ==> RecoverCall(d.lib, old(d.st), d.st)
  {
    hide Inv, Evolves, Lawful, Awaiting, IsStuckListing, Runs, Legal, After, StateAt, Took, Served, AllServed,
      EventsFor, FreshRun, UploadEventOf, INIT;
    var me: RunId;
    me, err, ids, events := ListStuck(d);
    listed := |d.log| - 1;
    done, firsts, lasts := [], [], [];
    ghost var query, bad := d.log, 0;
    NothingAwaits(d.st, me);
    NoneServed(d.lib, d.log, me, listed, events, ids);
    if err {
      return;
    }
    EventIds(StateAt(d.lib, d.log, listed).rows, ids);
    assert events[0..] == events;
    for i := 0 to |ids|
      invariant d.Valid() && Evolves(old(d.st), d.st) && Awaiting(d.st, me, events[i..]) && query <= d.log
      invariant |firsts| == |lasts| == |done| == i
      invariant AllServed(d.lib, d.log, me, listed, events, ids, firsts, lasts, done)
      invariant if err then bad < i && !done[bad] else forall j :: 0 <= j < i ==> done[j]
      invariant d.Calm() ==> Runs(d.lib, Goto(old(d.st), me, RecoverList), d.st, me, d.poison)
    {
      ghost var was, logged := d.st, d.log;
      var failed: bool;
      ghost var first: nat;
      failed, first := Recover(d, me, events, ids, i);
      EvolvesTransitively(old(d.st), was, d.st);
      AllServedGrows(d.lib, logged, d.log, me, listed, events, ids, firsts, lasts, done, first, |d.log| - 1, !failed);
      if d.Calm() {
        RunsTransitively(d.lib, Goto(old(d.st), me, RecoverList), was, d.st, me, d.poison);
      }
      if failed {
        err, bad := true, i;
      }
      done, firsts, lasts := done + [!failed], firsts + [first], lasts + [|d.log| - 1];
    }
    TookStays(d.lib, query, d.log, listed, me, RecoverList);
    assert events[|ids|..] == [];
    NothingAwaits(d.st, me);
  }

  lemma NowAwaiting(s: State, me: RunId, events: seq<UploadEvent>, i: nat)
    requires i < |events| && Awaiting(s, me, events[i..])
    ensures me in s.runs && s.runs[me].ProcRead? && s.runs[me].job.id == events[i].avatarId
    ensures s.runs[me].job.ev == events[i] && s.runs[me].job.rest == events[i + 1..]
  {
  }
}
