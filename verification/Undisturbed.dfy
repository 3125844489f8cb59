/** Stretches of an execution in which one run acts and nothing else does: only time passes between its effects, and
    each effect goes well, but that some outbox rows, the poison, are never let through to the broker. */
module Undisturbed {
  import opened Images
  import opened Headers
  import opened Protocol
  import opened Invariant
  import opened Steps
  import opened Guarantees
  import opened Gauges

  /** The turn's picks are answers that the run's next effect can get. */
  predicate Answers(s: State, run: Run, t: Turn) {
    && (run.DeleteRead? && run.id in s.rows ==> IsOrdering(t.order, s.rows[run.id].thumbs.Keys))
    && (run.RecoverList? ==> IsStuckListing(s.rows, s.now, STUCK_LIMIT, t.stuck))
  }

  /** The run is about to publish a poison row. */
  predicate Blocked(run: Run, poison: set<nat>) {
    run.FlushPublish? && run.items != [] && run.items[0].oid in poison
  }

  predicate Fair(run: Run, t: Turn, poison: set<nat>) {
    if Blocked(run, poison) then !t.Lands() else t.ok
  }

  predicate CalmStep(s: State, a: Action, r: RunId, poison: set<nat>) {
    match a
    case Tick(_) => true
    case Step(q, t) => q == r && r in s.runs && Fair(s.runs[r], t, poison) && Answers(s, s.runs[r], t)
    case _ => false
  }

  ghost predicate CalmRun(lib: Libraries, s: State, actions: seq<Action>, r: RunId, poison: set<nat>)
    requires Legal(lib, s, actions)
    decreases |actions|
  {
    actions == []
    || (CalmStep(s, actions[0], r, poison) && CalmRun(lib, Next(lib, s, actions[0]), actions[1..], r, poison))
  }

  /** Run `r` leads from `v` to `w`, undisturbed. */
  ghost predicate Runs(lib: Libraries, v: State, w: State, r: RunId, poison: set<nat>) {
    exists actions: seq<Action> ::
      Legal(lib, v, actions) && After(lib, v, actions) == w && CalmRun(lib, v, actions, r, poison)
  }

  lemma RunsNowhere(lib: Libraries, s: State, r: RunId, poison: set<nat>)
    ensures Runs(lib, s, s, r, poison)
  {
    var none: seq<Action> := [];
    assert Legal(lib, s, none) && After(lib, s, none) == s && CalmRun(lib, s, none, r, poison);
  }

  lemma {:induction false} CalmConcat(lib: Libraries, s: State, a: seq<Action>, b: seq<Action>, r: RunId,
      poison: set<nat>)
    requires Legal(lib, s, a) && CalmRun(lib, s, a, r, poison)
    requires Legal(lib, After(lib, s, a), b) && CalmRun(lib, After(lib, s, a), b, r, poison)
    ensures Legal(lib, s, a + b) && After(lib, s, a + b) == After(lib, After(lib, s, a), b)
    ensures CalmRun(lib, s, a + b, r, poison)
    decreases |a|
  {
    hide Next, Enabled, CalmStep;
    AfterConcat(lib, s, a, b);
    if a == [] {
      assert a + b == b;
    } else {
      CalmConcat(lib, Next(lib, s, a[0]), a[1..], b, r, poison);
      assert (a + b)[1..] == a[1..] + b;
    }
  }

  lemma RunsTransitively(lib: Libraries, u: State, v: State, w: State, r: RunId, poison: set<nat>)
    requires Runs(lib, u, v, r, poison) && Runs(lib, v, w, r, poison)
    ensures Runs(lib, u, w, r, poison)
  {
    hide Legal, After, CalmRun;
    var a: seq<Action> :| Legal(lib, u, a) && After(lib, u, a) == v && CalmRun(lib, u, a, r, poison);
    var b: seq<Action> :| Legal(lib, v, b) && After(lib, v, b) == w && CalmRun(lib, v, b, r, poison);
    CalmConcat(lib, u, a, b, r, poison);
    assert Legal(lib, u, a + b);
  }

  lemma RunsOneStep(lib: Libraries, s: State, a: Action, r: RunId, poison: set<nat>)
    requires Enabled(lib, s, a) && CalmStep(s, a, r, poison)
    ensures Runs(lib, s, Next(lib, s, a), r, poison)
  {
    OneStep(lib, s, a);
    hide Next, Enabled, CalmStep;
    assert [a][1..] == [];
    assert CalmRun(lib, s, [a], r, poison);
  }

  lemma RunsKeep(lib: Libraries, v: State, w: State, r: RunId, poison: set<nat>)
    requires Lawful(lib) && Inv(lib, v) && Runs(lib, v, w, r, poison)
    ensures Inv(lib, w) && Evolves(v, w)
  {
    hide Inv, Lawful, Legal, After, CalmRun, Evolves;
    var actions: seq<Action> :|
      Legal(lib, v, actions) && After(lib, v, actions) == w && CalmRun(lib, v, actions, r, poison);
    ExecutionKeeps(lib, v, actions);
    ExecutionEvolves(lib, v, actions);
  }

  /** The start of a call and an undisturbed run of it are an execution. */
  lemma RunIsExecution(lib: Libraries, v: State, begin: Action, w: State, r: RunId, poison: set<nat>)
    returns (actions: seq<Action>)
    requires Enabled(lib, v, begin) && Runs(lib, Next(lib, v, begin), w, r, poison)
    ensures Legal(lib, v, actions) && After(lib, v, actions) == w
  {
    hide Legal, After, CalmRun, Next, Enabled;
    var s := Next(lib, v, begin);
    var rest: seq<Action> :| Legal(lib, s, rest) && After(lib, s, rest) == w && CalmRun(lib, s, rest, r, poison);
    ThenStep(lib, v, begin, rest);
    actions := [begin] + rest;
  }

  lemma OthersStay(lib: Libraries, s: State, r: RunId, t: Turn)
    requires r in s.runs && Enabled(lib, s, Step(r, t))
    ensures Next(lib, s, Step(r, t)).runs - {r} == s.runs - {r}
  {
    hide StepOf, TraceOnly;
    StepMovesOne(lib, s, r, t);
  }

  lemma FreshRunExists(runs: map<RunId, Run>)
    ensures exists r: nat :: r !in runs && forall q: nat :: q < r ==> q in runs
  {
    var r: nat := 0;
    var left := runs.Keys;
    while r in runs
      invariant forall q: nat :: q < r ==> q in runs
      invariant forall q :: q in runs && q !in left ==> q < r
      invariant forall q :: q in left ==> q in runs && r <= q
      decreases |left|
    {
      left := left - {r};
      r := r + 1;
    }
  }

  function FreshRun(runs: map<RunId, Run>): (r: RunId)
    ensures r !in runs
  {
    FreshRunExists(runs);
    var r: nat :| r !in runs && forall q: nat :: q < r ==> q in runs;
    r
  }
}
