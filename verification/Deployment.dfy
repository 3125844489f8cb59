/** One run of the service inside the running system: between any two of its effects all other runs, crashes and clock
    ticks may happen, and each effect may succeed or fail as the environment likes. */
module Deployments {
  import opened Domain
  import opened Images
  import opened Headers
  import opened Protocol
  import opened Invariant
  import opened Guarantees
  import opened Gauges
  import opened Undisturbed

  /** The run an action belongs to, if any. */
  predicate ActsAs(a: Action, me: RunId) {
    match a
    case Restart(_) => false
    case Tick(_) => false
    case _ => a.r == me
  }

  /** What the others really did of what they tried: the actions that were possible and not ours. */
  function Performed(lib: Libraries, s: State, me: RunId, tried: seq<Action>): seq<Action>
    decreases |tried|
  {
    if tried == [] then []
    else if Enabled(lib, s, tried[0]) && !ActsAs(tried[0], me) then
      [tried[0]] + Performed(lib, Next(lib, s, tried[0]), me, tried[1..])
    else Performed(lib, s, me, tried[1..])
  }

  ghost predicate SameRun(v: State, w: State, me: RunId) {
    (me in v.runs <==> me in w.runs) && (me in v.runs ==> w.runs[me] == v.runs[me])
  }

  lemma NextOfOther(lib: Libraries, s: State, a: Action, me: RunId)
    requires Enabled(lib, s, a) && !ActsAs(a, me)
    ensures SameRun(s, Next(lib, s, a), me)
  {
    hide StepOf, NextJob, HandleUpload, HandleDelete, NewRow, Inspect, TraceOnly;
    if a.Step? {
      StepMovesOne(lib, s, a.r, a.t);
    } else if a.DeliverUpload? && HandleUpload(lib, s.uploads[a.offset]).Ok? {
      NextJobOwesNothing(lib, s, a.r, [HandleUpload(lib, s.uploads[a.offset]).value]);
    }
  }

  lemma {:induction false} PerformedIsLegal(lib: Libraries, s: State, me: RunId, tried: seq<Action>)
    ensures Legal(lib, s, Performed(lib, s, me, tried))
    ensures SameRun(s, After(lib, s, Performed(lib, s, me, tried)), me)
    decreases |tried|
  {
    hide Next, Enabled, ActsAs;
    if tried != [] {
      if Enabled(lib, s, tried[0]) && !ActsAs(tried[0], me) {
        var next := Next(lib, s, tried[0]);
        NextOfOther(lib, s, tried[0], me);
        PerformedIsLegal(lib, next, me, tried[1..]);
        var rest := Performed(lib, next, me, tried[1..]);
        assert ([tried[0]] + rest)[1..] == rest;
      } else {
        PerformedIsLegal(lib, s, me, tried[1..]);
      }
    }
  }

  /** If all they try is possible and theirs, all of it happens. */
  lemma {:induction false} AllPerformed(lib: Libraries, s: State, me: RunId, tried: seq<Action>)
    requires Legal(lib, s, tried) && forall i :: 0 <= i < |tried| ==> !ActsAs(tried[i], me)
    ensures Performed(lib, s, me, tried) == tried
    decreases |tried|
  {
    hide Next, Enabled, ActsAs;
    if tried != [] {
      AllPerformed(lib, Next(lib, s, tried[0]), me, tried[1..]);
      assert [tried[0]] + tried[1..] == tried;
    }
  }

  predicate SameLuck(t: Turn, u: Turn) {
    t.ok == u.ok && t.effect == u.effect && t.cancel == u.cancel
  }

  /** Some iteration order of a map with these keys. */
  method SomeOrder(keys: set<string>) returns (order: seq<string>)
    ensures IsOrdering(order, keys)
  {
    order := [];
    var left := keys;
    while left != {}
      invariant left <= keys
      invariant forall i :: 0 <= i < |order| ==> order[i] in keys && order[i] !in left
      invariant forall k <- keys :: k in left || k in order
      invariant forall i, j :: 0 <= i < j < |order| ==> order[i] != order[j]
      decreases |left|
    {
      var k :| k in left;
      ghost var was := order;
      order, left := order + [k], left - {k};
      assert order[|was|] == k;
      assert forall x :: x in was ==> x in order;
    }
  }

  method Oldest(rows: map<AvatarId, Row>, ids: set<AvatarId>) returns (oldest: AvatarId)
    requires ids != {} && ids <= rows.Keys
    ensures oldest in ids && forall id <- ids :: rows[oldest].created <= rows[id].created
  {
    oldest :| oldest in ids;
    var left := ids - {oldest};
    while left != {}
      invariant left <= ids && oldest in ids
      invariant forall id <- ids :: id in left || rows[oldest].created <= rows[id].created
      decreases |left|
    {
      var id :| id in left;
      if rows[id].created < rows[oldest].created {
        oldest := id;
      }
      left := left - {id};
    }
  }

  /** Some answer to the stuck query. */
  method SomeListing(rows: map<AvatarId, Row>, now: nat, limit: nat) returns (ids: seq<AvatarId>)
    ensures IsStuckListing(rows, now, limit, ids)
  {
    hide Claimable;
    ids := [];
    var all := set id: AvatarId | id in rows && Claimable(rows[id], now);
    var left := all;
    while left != {} && |ids| < limit
      invariant left <= all && |ids| <= limit
      invariant forall i :: 0 <= i < |ids| ==> ids[i] in all && ids[i] !in left
      invariant forall id <- all :: id in left || id in ids
      invariant forall i, j :: 0 <= i < j < |ids| ==> ids[i] != ids[j] && rows[ids[i]].created <= rows[ids[j]].created
      invariant forall i, id :: 0 <= i < |ids| && id in left ==> rows[ids[i]].created <= rows[id].created
      decreases |left|
    {
      var id := Oldest(rows, left);
      ghost var was := ids;
      ids, left := ids + [id], left - {id};
      assert ids[|was|] == id;
      assert forall x :: x in was ==> x in ids;
    }
  }

  lemma AnswersStay(s: State, run: Run, t: Turn, serial: nat, trace: seq<Header>)
    requires Answers(s, run, t)
    ensures Answers(s, run, t.(serial := serial, trace := trace))
  {
    hide IsOrdering, IsStuckListing;
  }

  /** The environment's picks where they are possible answers. */
  method PickAnswers(s: State, run: Run, t: Turn) returns (order: seq<string>, stuck: seq<AvatarId>)
    ensures Answers(s, run, t.(order := order, stuck := stuck))
  {
    hide IsOrdering, IsStuckListing;
    order, stuck := t.order, t.stuck;
    if run.DeleteRead? && run.id in s.rows && !IsOrdering(order, s.rows[run.id].thumbs.Keys) {
      order := SomeOrder(s.rows[run.id].thumbs.Keys);
    }
    if run.RecoverList? && !IsStuckListing(s.rows, s.now, STUCK_LIMIT, stuck) {
      stuck := SomeListing(s.rows, s.now, STUCK_LIMIT);
    }
  }

  /** The state before the k-th logged action. */
  function StateAt(lib: Libraries, log: seq<Action>, k: nat): State
    requires Legal(lib, INIT, log) && k <= |log|
  {
    PrefixIsLegal(lib, INIT, log, k);
    After(lib, INIT, log[..k])
  }

  lemma {:induction false} PrefixIsLegal(lib: Libraries, s: State, log: seq<Action>, k: nat)
    requires Legal(lib, s, log) && k <= |log|
    ensures Legal(lib, s, log[..k])
    decreases k
  {
    hide Next, Enabled;
    if k > 0 {
      PrefixIsLegal(lib, Next(lib, s, log[0]), log[1..], k - 1);
      assert log[..k][1..] == log[1..][..k - 1];
    }
  }

  /** What was logged stays where it is. */
  lemma StateAtStays(lib: Libraries, log: seq<Action>, longer: seq<Action>, k: nat)
    requires Legal(lib, INIT, log) && Legal(lib, INIT, longer) && log <= longer && k <= |log|
    ensures StateAt(lib, longer, k) == StateAt(lib, log, k)
  {
    hide Legal, After;
    assert longer[..k] == log[..k];
  }

  /** The k-th logged action is a step that `me` took at this program counter. */
  ghost predicate Took(lib: Libraries, log: seq<Action>, k: nat, me: RunId, run: Run)
    requires Legal(lib, INIT, log)
  {
    && k < |log| && log[k].Step? && log[k].r == me
    && me in StateAt(lib, log, k).runs && StateAt(lib, log, k).runs[me] == run
  }

  lemma TookStays(lib: Libraries, log: seq<Action>, longer: seq<Action>, k: nat, me: RunId, run: Run)
    requires Legal(lib, INIT, log) && Legal(lib, INIT, longer) && log <= longer && Took(lib, log, k, me, run)
    ensures Took(lib, longer, k, me, run) && longer[k] == log[k] && StateAt(lib, longer, k) == StateAt(lib, log, k)
  {
    hide Legal, StateAt;
    StateAtStays(lib, log, longer, k);
  }

  lemma StillTook(lib: Libraries, log: seq<Action>, longer: seq<Action>, k: nat, me: RunId, run: Run)
    requires Legal(lib, INIT, log) && Legal(lib, INIT, longer) && log <= longer && Took(lib, log, k, me, run)
    ensures Took(lib, longer, k, me, run)
  {
    hide Legal, Took;
    TookStays(lib, log, longer, k, me, run);
  }

  lemma TookHere(lib: Libraries, log: seq<Action>, me: RunId, before: State, t: Turn)
    requires Legal(lib, INIT, log) && |log| > 0 && log[|log| - 1] == Step(me, t)
    requires StateAt(lib, log, |log| - 1) == before && me in before.runs
    ensures Took(lib, log, |log| - 1, me, before.runs[me])
  {
  }

  lemma {:induction false} TicksAreCalm(lib: Libraries, s: State, me: RunId, tried: seq<Action>, poison: set<nat>)
    requires forall i :: 0 <= i < |tried| ==> tried[i].Tick?
    requires Legal(lib, s, Performed(lib, s, me, tried))
    ensures CalmRun(lib, s, Performed(lib, s, me, tried), me, poison)
    ensures var w := After(lib, s, Performed(lib, s, me, tried)); w == s.(now := w.now) && s.now <= w.now
    decreases |tried|
  {
    if tried != [] {
      var next := Next(lib, s, tried[0]);
      var rest := Performed(lib, next, me, tried[1..]);
      assert Performed(lib, s, me, tried) == [tried[0]] + rest;
      assert ([tried[0]] + rest)[1..] == rest;
      hide Next, Enabled;
      AfterUnfolds(lib, s, [tried[0]] + rest);
      TicksAreCalm(lib, next, me, tried[1..], poison);
    }
  }

  /** The running system as one run of ours sees it. `others` and `turns` are the environment: what the others try
      before our n-th effect, and how that effect turns out at our program counter. `poison` are outbox rows that a calm
      environment never lets through to the broker. */
  class Deployment {
    const lib: Libraries
    const others: nat -> seq<Action>
    const turns: (nat, Run) -> Turn
    const poison: set<nat>
    var st: State
    var effects: nat
    ghost var log: seq<Action>

    /** The state is reachable, by exactly the logged actions. */
    ghost predicate Valid()
      reads this
    {
      Lawful(lib) && Legal(lib, INIT, log) && After(lib, INIT, log) == st
    }

    constructor (lib: Libraries, others: nat -> seq<Action>, turns: (nat, Run) -> Turn, poison: set<nat>)
      requires Lawful(lib)
      ensures Valid() && st == INIT && log == []
      ensures this.lib == lib && this.others == others && this.turns == turns && this.poison == poison
    {
      this.lib, this.others, this.turns, this.poison := lib, others, turns, poison;
      st, effects, log := INIT, 0, [];
    }

    lemma ValidIsInvariant()
      requires Valid()
      ensures Reachable(lib, st) && Inv(lib, st)
    {
      hide Inv, Lawful, Legal, After;
      assert Reachable(lib, st);
      ReachableHasInv(lib, st);
    }

    /** Between our effects only time passes, and each goes well, but that no poison row gets through. */
    ghost predicate Calm() {
      && (forall n: nat, i: nat :: i < |others(n)| ==> others(n)[i].Tick?)
      && forall n: nat, run: Run :: Fair(run, turns(n, run), poison)
    }

    /** The others' turn. */
    method Interfere(me: RunId)
      requires Valid()
      modifies this`st, this`log
      ensures Valid() && SameRun(old(st), st, me) && Evolves(old(st), st)
      ensures log == old(log) + Performed(lib, old(st), me, others(effects))
      ensures Calm() ==> Runs(lib, old(st), st, me, poison) && st == old(st).(now := st.now) && old(st.now) <= st.now
    {
      ValidIsInvariant();
      hide Legal, After, Lawful, Inv, Evolves, Performed, CalmRun;
      var done := Performed(lib, st, me, others(effects));
      PerformedIsLegal(lib, st, me, others(effects));
      ExecutionEvolves(lib, st, done);
      AfterConcat(lib, INIT, log, done);
      if Calm() {
        TicksAreCalm(lib, st, me, others(effects), poison);
      }
      st := After(lib, st, done);
      log := log + done;
    }

    /** One effect of ours. Where the environment's pick is not an answer the effect can give, some
        other pick is made. */
    method Effect(me: RunId) returns (t: Turn, before: State)
      requires Valid() && me in st.runs
      modifies this
      ensures Valid()
      ensures Inv(lib, before) && me in before.runs && before.runs[me] == old(st.runs[me]) && Evolves(old(st), before)
      ensures Enabled(lib, before, Step(me, t)) && st == Next(lib, before, Step(me, t)) && Evolves(before, st)
      ensures Answers(before, before.runs[me], t)
      ensures old(log) < log && log[|log| - 1] == Step(me, t)
      ensures StateAt(lib, log, |log| - 1) == before
      ensures log == old(log) + Performed(lib, old(st), me, others(old(effects))) + [Step(me, t)]
      ensures SameLuck(t, turns(old(effects), before.runs[me])) && effects == old(effects) + 1
      ensures Calm() ==>
        Fair(before.runs[me], t, poison) && before == old(st).(now := before.now) && old(st.now) <= before.now
      ensures Calm() ==> Runs(lib, old(st), before, me, poison) && Runs(lib, old(st), st, me, poison)
    {
      hide Legal, After, Lawful, Inv, Evolves, Next, StepOf, Answers, Runs, StateAt;
      Interfere(me);
      ValidIsInvariant();
      before := st;
      t := turns(effects, st.runs[me]);
      var order, stuck := PickAnswers(st, st.runs[me], t);
      var trace := if TraceOnly(t.trace) then t.trace else [];
      AnswersStay(st, st.runs[me], t.(order := order, stuck := stuck), FreshOf(st.outbox), trace);
      t := t.(serial := FreshOf(st.outbox), trace := trace, order := order, stuck := stuck);
      ghost var a := Step(me, t);
      LuckIsFair(st.runs[me], turns(effects, st.runs[me]), t);
      EffectIsLegal(a);
      NextEvolves(lib, st, a);
      if Calm() {
        RunsOneStep(lib, st, a, me, poison);
        RunsTransitively(lib, old(st), st, Next(lib, st, a), me, poison);
      }
      LoggedLast(lib, log, a);
      st := Next(lib, st, Step(me, t));
      log := log + [a];
      effects := effects + 1;
    }

    lemma LuckIsFair(run: Run, u: Turn, t: Turn)
      requires SameLuck(t, u)
      ensures Fair(run, u, poison) == Fair(run, t, poison)
    {
    }

    /** The start of a call, of ours. */
    method Begin(a: Action)
      requires Valid() && Enabled(lib, st, a) && !a.Step?
      modifies this`st, this`log
      ensures Valid() && st == Next(lib, old(st), a) && Evolves(old(st), st) && log == old(log) + [a]
    {
      ValidIsInvariant();
      hide Legal, After, Lawful, Inv, Evolves, Next, Enabled;
      EffectIsLegal(a);
      NextEvolves(lib, st, a);
      st := Next(lib, st, a);
      log := log + [a];
    }

    lemma EffectIsLegal(a: Action)
      requires Valid() && Enabled(lib, st, a)
      ensures Legal(lib, INIT, log + [a]) && After(lib, INIT, log + [a]) == Next(lib, st, a)
    {
      hide Lawful, Next, Enabled, Legal, After;
      OneStep(lib, st, a);
      AfterConcat(lib, INIT, log, [a]);
    }
  }

  lemma LoggedLast(lib: Libraries, log: seq<Action>, a: Action)
    requires Legal(lib, INIT, log) && Legal(lib, INIT, log + [a])
    ensures StateAt(lib, log + [a], |log|) == After(lib, INIT, log)
  {
    hide Legal, After;
    assert (log + [a])[..|log|] == log;
  }
}
