/** What an undisturbed call of FlushOutbox does, over all executions: a round over the 50 oldest unpublished rows. How
    many such calls drain the outbox, and exactly which rows starve. */
module FlushCalls {
  import opened Domain
  import opened Images
  import opened Headers
  import opened Protocol
  import opened Invariant
  import opened Steps
  import opened Guarantees
  import opened Undisturbed
  import opened Progress

  /** Where a flush stands that still has `items` to do. */
  ghost predicate Flushing(s: State, me: RunId, items: seq<OutboxItem>) {
    if items == [] then me !in s.runs else me in s.runs && s.runs[me] == FlushPublish(items, 0)
  }

  ghost predicate IsPublished(outbox: map<nat, OutboxRow>, oid: nat) {
    oid in outbox && outbox[oid].published
  }

  /** The avatars and their objects are untouched. */
  ghost predicate SameAvatars(v: State, w: State) {
    && w.rows == v.rows && w.bucket == v.bucket && w.used == v.used && w.sealed == v.sealed && w.cleaned == v.cleaned
    && v.now <= w.now
  }

  lemma SameTransitively(u: State, v: State, w: State)
    requires SameAvatars(u, v) && SameAvatars(v, w)
    ensures SameAvatars(u, w)
  {
  }

  // ---------------------------------------------------------------- the steps of FlushOutbox

  lemma ItemIsSendable(lib: Libraries, s: State, me: RunId)
    requires Lawful(lib) && Inv(lib, s) && me in s.runs && s.runs[me].FlushPublish?
    ensures s.runs[me].items != [] && Sendable(lib, s.runs[me].items[0])
  {
    hide Inv, UploadEventId, DeleteEventId, IdOfEvent, KeysOk;
    FlushFacts(lib, s, me);
    EntryIsKnown(lib, s, s.runs[me].items[0]);
    EntryOfItem(lib, s, s.runs[me].items[0]);
  }

  ghost predicate PublishedOrNot(w: State, me: RunId, items: seq<OutboxItem>, attempt: nat, t: Turn)
    requires items != []
  {
    if t.ok then me in w.runs && w.runs[me] == FlushMark(items)
    else if attempt + 1 < 3 && !t.cancel then
      me in w.runs && w.runs[me] == FlushPublish(items, attempt + 1)
    else Flushing(w, me, items[1..])
  }

  lemma PublishStep(lib: Libraries, s: State, me: RunId, t: Turn, items: seq<OutboxItem>, attempt: nat)
    requires me in s.runs && s.runs[me] == FlushPublish(items, attempt) && items != [] && Sendable(lib, items[0])
    ensures StepFlushPublish(lib, s, me, t).outbox == s.outbox && SameAvatars(s, StepFlushPublish(lib, s, me, t))
    ensures PublishedOrNot(StepFlushPublish(lib, s, me, t), me, items, attempt, t)
  {
    hide Sendable, Publish;
    if t.Lands() {
      PublishLeavesRuns(lib, s, items[0], t.trace);
    }
  }

  lemma PublishOutcome(lib: Libraries, s: State, me: RunId, t: Turn, items: seq<OutboxItem>, attempt: nat)
    requires Lawful(lib) && Inv(lib, s) && me in s.runs && s.runs[me] == FlushPublish(items, attempt)
    requires Enabled(lib, s, Step(me, t))
    ensures items != [] && Next(lib, s, Step(me, t)).outbox == s.outbox && SameAvatars(s, Next(lib, s, Step(me, t)))
    ensures PublishedOrNot(Next(lib, s, Step(me, t)), me, items, attempt, t)
  {
    hide Lawful, Inv, StepFlushPublish, PublishedOrNot, Sendable, TraceOnly;
    ItemIsSendable(lib, s, me);
    PublishStep(lib, s, me, t, items, attempt);
  }

  lemma PublishLeavesRuns(lib: Libraries, s: State, item: OutboxItem, trace: seq<Header>)
    requires Sendable(lib, item)
    ensures var w := Publish(lib, s, item, trace); w.runs == s.runs && w.outbox == s.outbox && SameAvatars(s, w)
  {
    hide UploadMessage, DeleteMessage;
  }

  lemma MarkOutcome(lib: Libraries, s: State, me: RunId, t: Turn, items: seq<OutboxItem>)
    requires Inv(lib, s) && me in s.runs && s.runs[me] == FlushMark(items) && Enabled(lib, s, Step(me, t))
    ensures items != [] && items[0].oid in s.outbox && Flushing(Next(lib, s, Step(me, t)), me, items[1..])
    ensures SameAvatars(s, Next(lib, s, Step(me, t)))
    ensures t.ok ==> Next(lib, s, Step(me, t)).outbox == MarkPublished(s.outbox, items[0].oid)
  {
    hide Inv, StepFlushMark, Flushing, MarkPublished, TraceOnly;
    FlushFacts(lib, s, me);
    MarkStep(s, me, t, items);
  }

  lemma MarkStep(s: State, me: RunId, t: Turn, items: seq<OutboxItem>)
    requires me in s.runs && s.runs[me] == FlushMark(items) && items != []
    ensures Flushing(StepFlushMark(s, me, t), me, items[1..])
    ensures SameAvatars(s, StepFlushMark(s, me, t))
    ensures t.ok ==> StepFlushMark(s, me, t).outbox == MarkPublished(s.outbox, items[0].oid)
  {
    hide MarkPublished;
  }

  lemma MarkedIsPublished(outbox: map<nat, OutboxRow>, oid: nat)
    requires oid in outbox
    ensures IsPublished(MarkPublished(outbox, oid), oid)
    ensures Unpublished(MarkPublished(outbox, oid)) == Unpublished(outbox) - {oid}
    ensures MarkPublished(outbox, oid).Keys == outbox.Keys
  {
  }

  lemma ListStep(lib: Libraries, s: State, me: RunId, t: Turn)
    requires me in s.runs && s.runs[me].FlushList? && Enabled(lib, s, Step(me, t))
    ensures var w := Next(lib, s, Step(me, t));
      && w.outbox == s.outbox && SameAvatars(s, w)
      && (if t.ok then Flushing(w, me, ListUnpublished(s.outbox, 50)) else me !in w.runs)
  {
    hide ListUnpublished, TraceOnly;
  }

  lemma BeginFlushStep(lib: Libraries, s: State, me: RunId)
    requires me !in s.runs
    ensures Enabled(lib, s, BeginFlush(me)) && Next(lib, s, BeginFlush(me)) == Goto(s, me, FlushList)
  {
  }

  lemma PublishedStays(v: State, w: State, oid: nat)
    requires Evolves(v, w) && IsPublished(v.outbox, oid)
    ensures IsPublished(w.outbox, oid)
  {
  }

  // ---------------------------------------------------------------- the listing

  function Elements(ids: seq<nat>): set<nat> {
    set k | k in ids
  }

  lemma ConsElements(k: nat, ids: seq<nat>)
    ensures Elements([k] + ids) == {k} + Elements(ids)
  {
  }

  /** `ORDER BY id LIMIT n` lists the n least. */
  lemma {:induction false} ListingIsLeast(ids: set<nat>, limit: nat)
    ensures var pick := Elements(Listing(ids, limit));
      && pick <= ids && |pick| == |Listing(ids, limit)| == (if |ids| < limit then |ids| else limit)
      && forall a <- pick, b <- ids :: b !in pick ==> a <= b
  {
    if ids != {} && limit != 0 {
      var m := Least(ids);
      var rest := Listing(ids - {m}, limit - 1);
      ListingIsLeast(ids - {m}, limit - 1);
      ConsElements(m, rest);
      assert Listing(ids, limit) == [m] + rest;
      hide Listing, Elements, Least;
      assert forall b :: b in ids ==> b == m || b in ids - {m};
    } else {
      assert Elements([]) == {};
    }
  }

  /** The serial numbers of the items. */
  function Oids(items: seq<OutboxItem>): set<nat> {
    set item <- items :: item.oid
  }

  lemma OidsGrow(items: seq<OutboxItem>, i: nat)
    requires i < |items|
    ensures Oids(items[..i + 1]) == Oids(items[..i]) + {items[i].oid}
  {
    assert items[..i + 1] == items[..i] + [items[i]];
  }

  function Serials(outbox: map<nat, OutboxRow>): map<nat, nat> {
    map k: nat | k in outbox :: k
  }

  lemma SameSerials(a: map<nat, OutboxRow>, b: map<nat, OutboxRow>)
    requires a.Keys == b.Keys
    ensures Serials(a) == Serials(b)
  {
    assert forall k :: k in a <==> k in a.Keys;
    assert forall k :: k in b <==> k in b.Keys;
  }

  /** The listed rows are a pick of the oldest unpublished ones. */
  lemma ListedIsPick(outbox: map<nat, OutboxRow>, limit: nat)
    ensures |ListUnpublished(outbox, limit)| <= limit
    ensures IsPick(Unpublished(outbox), Serials(outbox), limit, Oids(ListUnpublished(outbox, limit)))
  {
    var open := Unpublished(outbox);
    var ids := Listing(open, limit);
    ListingWithin(open, limit);
    ListingIsLeast(open, limit);
    OidsAreListed(outbox, ids);
    assert open <= Serials(outbox).Keys;
  }

  lemma OidsAreListed(outbox: map<nat, OutboxRow>, ids: seq<nat>)
    requires forall i :: 0 <= i < |ids| ==> ids[i] in outbox
    ensures Oids(Items(outbox, ids)) == Elements(ids)
  {
    var items := Items(outbox, ids);
    forall k <- ids
      ensures k in Oids(items)
    {
      var i :| 0 <= i < |ids| && ids[i] == k;
      assert items[i].oid == k && items[i] in items;
    }
  }

  // ---------------------------------------------------------------- where a call stands

  /** The first `i` of the listed items are done: published and marked, unless they are poison. */
  ghost predicate FlushAt(v: State, s: State, r: RunId, items: seq<OutboxItem>, i: nat, poison: set<nat>) {
    && i <= |items| && s.runs - {r} == v.runs - {r} && SameAvatars(v, s) && s.outbox.Keys == v.outbox.Keys
    && Unpublished(s.outbox) == Unpublished(v.outbox) - (Oids(items[..i]) - poison)
    && (if r in s.runs then i < |items| && Attempting(s.runs[r], items[i..], poison) else i == |items|)
  }

  ghost predicate Attempting(run: Run, items: seq<OutboxItem>, poison: set<nat>)
    requires items != []
  {
    || (run.FlushPublish? && run.items == items)
    || (run == FlushMark(items) && items[0].oid !in poison)
  }

  lemma ItemDone(v: State, s: State, w: State, r: RunId, items: seq<OutboxItem>, i: nat, poison: set<nat>)
    requires FlushAt(v, s, r, items, i, poison) && i < |items| && SameAvatars(s, w) && w.runs - {r} == s.runs - {r}
    requires w.outbox == if items[i].oid in poison then s.outbox else MarkPublished(s.outbox, items[i].oid)
    requires items[i].oid in s.outbox && Flushing(w, r, items[i + 1..])
    ensures FlushAt(v, w, r, items, i + 1, poison)
  {
    hide Unpublished, MarkPublished, Oids;
    SameTransitively(v, s, w);
    OidsGrow(items, i);
    MarkedIsPublished(s.outbox, items[i].oid);
  }

  function Rank(run: Run): nat {
    match run
    case FlushPublish(_, attempt) => if attempt < PUBLISH_ATTEMPTS then 5 - attempt else 2
    case _ => 1
  }

  /** How many steps the call still has to make, at most. */
  function Left(s: State, r: RunId, items: seq<OutboxItem>, i: nat): nat
    requires i <= |items|
  {
    if r in s.runs then (|items| - i) * 6 + Rank(s.runs[r]) else 0
  }

  lemma PublishAdvances(lib: Libraries, v: State, s: State, r: RunId, t: Turn, items: seq<OutboxItem>, i: nat,
      poison: set<nat>) returns (j: nat)
    requires Lawful(lib) && Inv(lib, s) && FlushAt(v, s, r, items, i, poison) && r in s.runs && s.runs[r].FlushPublish?
    requires Enabled(lib, s, Step(r, t)) && Fair(s.runs[r], t, poison)
    ensures FlushAt(v, Next(lib, s, Step(r, t)), r, items, j, poison)
    ensures Left(Next(lib, s, Step(r, t)), r, items, j) < Left(s, r, items, i)
  {
    hide Inv, Lawful, Next, Enabled, Unpublished, Oids;
    var w := Next(lib, s, Step(r, t));
    var attempt := s.runs[r].attempt;
    assert items[i..][0] == items[i] && items[i..][1..] == items[i + 1..];
    PublishOutcome(lib, s, r, t, items[i..], attempt);
    OthersStay(lib, s, r, t);
    SameTransitively(v, s, w);
    j := i;
    if !t.ok && (attempt + 1 >= PUBLISH_ATTEMPTS || t.cancel) {
      FlushFacts(lib, s, r);
      ItemDone(v, s, w, r, items, i, poison);
      j := i + 1;
    }
  }

  lemma MarkAdvances(lib: Libraries, v: State, s: State, r: RunId, t: Turn, items: seq<OutboxItem>, i: nat,
      poison: set<nat>)
    requires Lawful(lib) && Inv(lib, s) && FlushAt(v, s, r, items, i, poison) && r in s.runs && s.runs[r].FlushMark?
    requires Enabled(lib, s, Step(r, t)) && t.ok
    ensures i < |items| && FlushAt(v, Next(lib, s, Step(r, t)), r, items, i + 1, poison)
    ensures Left(Next(lib, s, Step(r, t)), r, items, i + 1) < Left(s, r, items, i)
  {
    hide Inv, Lawful, Next, Enabled, Unpublished, Oids;
    var w := Next(lib, s, Step(r, t));
    assert items[i..][0] == items[i] && items[i..][1..] == items[i + 1..];
    MarkOutcome(lib, s, r, t, items[i..]);
    OthersStay(lib, s, r, t);
    ItemDone(v, s, w, r, items, i, poison);
  }

  lemma StepAdvances(lib: Libraries, v: State, s: State, r: RunId, t: Turn, items: seq<OutboxItem>, i: nat,
      poison: set<nat>) returns (j: nat)
    requires Lawful(lib) && Inv(lib, s) && FlushAt(v, s, r, items, i, poison) && r in s.runs
    requires Enabled(lib, s, Step(r, t)) && Fair(s.runs[r], t, poison)
    ensures FlushAt(v, Next(lib, s, Step(r, t)), r, items, j, poison)
    ensures Left(Next(lib, s, Step(r, t)), r, items, j) < Left(s, r, items, i)
  {
    hide Inv, Lawful, Next, Enabled, SameAvatars, Unpublished, Oids, Rank;
    if s.runs[r].FlushPublish? {
      j := PublishAdvances(lib, v, s, r, t, items, i, poison);
    } else {
      MarkAdvances(lib, v, s, r, t, items, i, poison);
      j := i + 1;
    }
  }

  lemma TickKeeps(v: State, s: State, r: RunId, items: seq<OutboxItem>, i: nat, poison: set<nat>, d: nat)
    requires FlushAt(v, s, r, items, i, poison)
    ensures FlushAt(v, s.(now := s.now + d), r, items, i, poison)
  {
  }

  // ---------------------------------------------------------------- whole calls

  /** However the call goes on undisturbed, it stands somewhere on its way through the listed items. */
  lemma {:induction false} AtFollows(lib: Libraries, v: State, s: State, actions: seq<Action>, r: RunId,
      items: seq<OutboxItem>, i: nat, poison: set<nat>) returns (j: nat)
    requires Lawful(lib) && Inv(lib, s) && FlushAt(v, s, r, items, i, poison)
    requires Legal(lib, s, actions) && CalmRun(lib, s, actions, r, poison)
    ensures FlushAt(v, After(lib, s, actions), r, items, j, poison)
    decreases |actions|
  {
    hide Inv, Lawful, FlushAt, StepOf, Fair;
    if actions == [] {
      j := i;
    } else {
      var next := Next(lib, s, actions[0]);
      NextKeeps(lib, s, actions[0]);
      if actions[0].Tick? {
        TickKeeps(v, s, r, items, i, poison, actions[0].d);
        j := i;
      } else {
        j := StepAdvances(lib, v, s, r, actions[0].t, items, i, poison);
      }
      hide Next, Enabled;
      j := AtFollows(lib, v, next, actions[1..], r, items, j, poison);
    }
  }

  /** Before its query a call has done nothing. */
  ghost predicate AtListing(v: State, s: State, r: RunId) {
    r in s.runs && s.runs[r] == FlushList && s.runs - {r} == v.runs - {r} && SameAvatars(v, s) && s.outbox == v.outbox
  }

  lemma ListAdvances(lib: Libraries, v: State, s: State, r: RunId, t: Turn, poison: set<nat>)
    requires AtListing(v, s, r) && Enabled(lib, s, Step(r, t)) && t.ok
    ensures FlushAt(v, Next(lib, s, Step(r, t)), r, ListUnpublished(v.outbox, FLUSH_LIMIT), 0, poison)
  {
    hide Next, Enabled, ListUnpublished, Unpublished;
    var w := Next(lib, s, Step(r, t));
    var items := ListUnpublished(v.outbox, FLUSH_LIMIT);
    ListStep(lib, s, r, t);
    OthersStay(lib, s, r, t);
    SameTransitively(v, s, w);
    assert items[..0] == [] && items[0..] == items;
  }

  lemma {:induction false} CallFollows(lib: Libraries, v: State, s: State, actions: seq<Action>, r: RunId,
      poison: set<nat>)
    requires Lawful(lib) && Inv(lib, s) && AtListing(v, s, r)
    requires Legal(lib, s, actions) && CalmRun(lib, s, actions, r, poison)
    ensures var w := After(lib, s, actions);
      AtListing(v, w, r) || exists i: nat :: FlushAt(v, w, r, ListUnpublished(v.outbox, FLUSH_LIMIT), i, poison)
    decreases |actions|
  {
    hide Inv, Lawful, FlushAt, StepOf, ListUnpublished;
    if actions != [] {
      var next := Next(lib, s, actions[0]);
      NextKeeps(lib, s, actions[0]);
      if actions[0].Tick? {
        hide Enabled;
        CallFollows(lib, v, next, actions[1..], r, poison);
      } else {
        ListAdvances(lib, v, s, r, actions[0].t, poison);
        hide Next, Enabled, AtListing;
        var j := AtFollows(lib, v, next, actions[1..], r, ListUnpublished(v.outbox, FLUSH_LIMIT), 0, poison);
      }
    }
  }

  /** From `v` to `w` by one complete call of FlushOutbox that nothing disturbs, but that the broker
      takes no poison row. */
  ghost predicate FlushCall(lib: Libraries, v: State, w: State, poison: set<nat>) {
    exists r: RunId :: r !in v.runs && r !in w.runs && Runs(lib, Goto(v, r, FlushList), w, r, poison)
  }

  lemma BeginsAtListing(lib: Libraries, v: State, r: RunId)
    requires Lawful(lib) && Inv(lib, v) && r !in v.runs
    ensures Inv(lib, Goto(v, r, FlushList)) && AtListing(v, Goto(v, r, FlushList), r)
    ensures Enabled(lib, v, BeginFlush(r)) && Next(lib, v, BeginFlush(r)) == Goto(v, r, FlushList)
  {
    hide Inv, Lawful, NextJob, StepOf, GoClean;
    NextKeeps(lib, v, BeginFlush(r));
  }

  /** What a call leaves when exactly the poison rows failed. */
  ghost predicate Flushed(v: State, w: State, poison: set<nat>) {
    && SameAvatars(v, w) && w.runs == v.runs && w.outbox.Keys == v.outbox.Keys
    && Unpublished(w.outbox) == Unpublished(v.outbox) - (Oids(ListUnpublished(v.outbox, 50)) - poison)
  }

  lemma CallEnds(v: State, w: State, r: RunId, items: seq<OutboxItem>, i: nat, poison: set<nat>)
    requires items == ListUnpublished(v.outbox, FLUSH_LIMIT)
    requires FlushAt(v, w, r, items, i, poison) && r !in w.runs && r !in v.runs
    ensures Flushed(v, w, poison)
  {
    hide ListUnpublished, SameAvatars, Unpublished;
    assert items[..|items|] == items;
    assert w.runs == w.runs - {r} && v.runs == v.runs - {r};
  }

  /** An undisturbed call publishes exactly the 50 oldest unpublished rows, without the poison ones. */
  lemma CallFlushes(lib: Libraries, v: State, w: State, poison: set<nat>)
    requires Lawful(lib) && Inv(lib, v) && FlushCall(lib, v, w, poison)
    ensures Inv(lib, w) && Evolves(v, w) && Flushed(v, w, poison)
  {
    hide Inv, Lawful, Legal, After, CalmRun, AtListing, ListUnpublished, Flushed, Evolves;
    var r: RunId :| r !in v.runs && r !in w.runs && Runs(lib, Goto(v, r, FlushList), w, r, poison);
    var s := Goto(v, r, FlushList);
    BeginsAtListing(lib, v, r);
    RunsKeep(lib, s, w, r, poison);
    NextEvolves(lib, v, BeginFlush(r));
    hide Enabled, Next;
    EvolvesTransitively(v, s, w);
    var actions: seq<Action> :|
      Legal(lib, s, actions) && After(lib, s, actions) == w && CalmRun(lib, s, actions, r, poison);
    CallFollows(lib, v, s, actions, r, poison);
    assert !AtListing(v, w, r) by { ListingIsThere(v, w, r); }
    hide FlushAt;
    var i: nat :| FlushAt(v, w, r, ListUnpublished(v.outbox, FLUSH_LIMIT), i, poison);
    CallEnds(v, w, r, ListUnpublished(v.outbox, FLUSH_LIMIT), i, poison);
  }

  lemma ListingIsThere(v: State, w: State, r: RunId)
    ensures AtListing(v, w, r) ==> r in w.runs
  {
  }

  // ---------------------------------------------------------------- such calls exist

  /** A turn that lets everything but the poison through. */
  function Luck(s: State, run: Run, poison: set<nat>): Turn {
    var ok := !Blocked(run, poison);
    Turn(ok, ok, false, FreshOf(s.outbox), [], [], [])
  }

  lemma LuckIsCalm(lib: Libraries, s: State, r: RunId, poison: set<nat>)
    requires r in s.runs && !s.runs[r].DeleteRead? && !s.runs[r].RecoverList?
    ensures var a := Step(r, Luck(s, s.runs[r], poison));
      Enabled(lib, s, a) && CalmStep(s, a, r, poison) && Fair(s.runs[r], a.t, poison)
  {
  }

  lemma {:induction false} CanFinish(lib: Libraries, v: State, s: State, r: RunId, items: seq<OutboxItem>, i: nat,
      poison: set<nat>) returns (w: State)
    requires Lawful(lib) && Inv(lib, s) && FlushAt(v, s, r, items, i, poison)
    ensures Runs(lib, s, w, r, poison) && r !in w.runs
    decreases Left(s, r, items, i)
  {
    hide Inv, Lawful, Runs, Next, Enabled, SameAvatars, Unpublished, Oids, CalmStep, Luck, Fair;
    if r !in s.runs {
      w := s;
      RunsNowhere(lib, s, r, poison);
    } else {
      var t := Luck(s, s.runs[r], poison);
      LuckIsCalm(lib, s, r, poison);
      var j := StepAdvances(lib, v, s, r, t, items, i, poison);
      NextKeeps(lib, s, Step(r, t));
      RunsOneStep(lib, s, Step(r, t), r, poison);
      hide FlushAt;
      w := CanFinish(lib, v, Next(lib, s, Step(r, t)), r, items, j, poison);
      RunsTransitively(lib, s, Next(lib, s, Step(r, t)), w, r, poison);
    }
  }

  lemma CanFlush(lib: Libraries, v: State, poison: set<nat>) returns (w: State)
    requires Lawful(lib) && Inv(lib, v)
    ensures FlushCall(lib, v, w, poison)
  {
    hide Inv, Lawful, Runs, AtListing, FlushAt, CalmStep, Luck, ListUnpublished;
    var r := FreshRun(v.runs);
    var s := Goto(v, r, FlushList);
    BeginsAtListing(lib, v, r);
    hide Enabled, Next;
    var t := Luck(s, FlushList, poison);
    LuckIsCalm(lib, s, r, poison);
    assert t.ok by { NotBlocked(s, poison); }
    ListAdvances(lib, v, s, r, t, poison);
    NextKeeps(lib, s, Step(r, t));
    RunsOneStep(lib, s, Step(r, t), r, poison);
    w := CanFinish(lib, v, Next(lib, s, Step(r, t)), r, ListUnpublished(v.outbox, FLUSH_LIMIT), 0, poison);
    RunsTransitively(lib, s, Next(lib, s, Step(r, t)), w, r, poison);
  }

  lemma NotBlocked(s: State, poison: set<nat>)
    ensures Luck(s, FlushList, poison).ok
  {
  }

  // ---------------------------------------------------------------- how many calls, and who starves

  /** An undisturbed call is one round over the 50 oldest unpublished rows. Time may pass during the call. */
  lemma FlushIsRound(lib: Libraries, v: State, w: State, poison: set<nat>)
    requires Lawful(lib) && Inv(lib, v) && FlushCall(lib, v, w, poison)
    ensures Round(Unpublished(v.outbox), Serials(v.outbox), FLUSH_LIMIT, poison, Unpublished(w.outbox))
    ensures Serials(w.outbox) == Serials(v.outbox) && Inv(lib, w)
  {
    hide Inv, Lawful, FlushCall, Unpublished, Serials, ListUnpublished, Evolves, IsPick;
    CallFlushes(lib, v, w, poison);
    ListedIsPick(v.outbox, FLUSH_LIMIT);
    SameSerials(v.outbox, w.outbox);
  }

  /** Undisturbed calls one after the other. */
  ghost predicate Flushes(lib: Libraries, trace: seq<State>, poison: set<nat>) {
    |trace| > 0 && forall i :: 0 <= i < |trace| - 1 ==> FlushCall(lib, trace[i], trace[i + 1], poison)
  }

  function OpenSets(trace: seq<State>): (sets: seq<set<nat>>)
    ensures |sets| == |trace| && forall i :: 0 <= i < |trace| ==> sets[i] == Unpublished(trace[i].outbox)
  {
    seq(|trace|, i requires 0 <= i < |trace| => Unpublished(trace[i].outbox))
  }

  lemma RestOfFlushes(lib: Libraries, trace: seq<State>, poison: set<nat>)
    requires Flushes(lib, trace, poison) && |trace| > 1
    ensures FlushCall(lib, trace[0], trace[1], poison) && Flushes(lib, trace[1..], poison)
  {
    hide FlushCall;
    assert FlushCall(lib, trace[0], trace[0 + 1], poison);
    var rest := trace[1..];
    forall i | 0 <= i < |rest| - 1
      ensures FlushCall(lib, rest[i], rest[i + 1], poison)
    {
      assert FlushCall(lib, trace[i + 1], trace[i + 1 + 1], poison);
    }
  }

  lemma {:induction false} FlushesAreRounds(lib: Libraries, trace: seq<State>, poison: set<nat>)
    requires Lawful(lib) && Flushes(lib, trace, poison) && Inv(lib, trace[0])
    ensures Rounds(OpenSets(trace), Serials(trace[0].outbox), FLUSH_LIMIT, poison)
    ensures trace[|trace| - 1].outbox.Keys == trace[0].outbox.Keys && Inv(lib, trace[|trace| - 1])
    ensures SameAvatars(trace[0], trace[|trace| - 1]) && trace[|trace| - 1].runs == trace[0].runs
    decreases |trace|
  {
    hide Inv, Lawful, FlushCall, Round, Unpublished, Serials, Evolves, ListUnpublished;
    assert |trace| > 0;
    hide Flushes;
    var sets := OpenSets(trace);
    if |trace| > 1 {
      var rest := trace[1..];
      RestOfFlushes(lib, trace, poison);
      FlushIsRound(lib, trace[0], trace[1], poison);
      CallFlushes(lib, trace[0], trace[1], poison);
      FlushesAreRounds(lib, rest, poison);
      SameTransitively(trace[0], trace[1], trace[|trace| - 1]);
      forall i | 0 <= i < |sets| - 1
        ensures Round(sets[i], Serials(trace[0].outbox), FLUSH_LIMIT, poison, sets[i + 1])
      {
        if i > 0 {
          assert OpenSets(rest)[i - 1] == sets[i] && OpenSets(rest)[i - 1 + 1] == sets[i + 1];
        }
      }
    }
  }

  /** With q < 50 unpublished rows that the broker never takes and g others, any n undisturbed calls with n * (50 - q)
      >= g, hence ceil(g / (50 - q)) of them, publish exactly the g others. */
  lemma OutboxBound(lib: Libraries, trace: seq<State>, poison: set<nat>)
    requires Lawful(lib) && Flushes(lib, trace, poison) && Reachable(lib, trace[0])
    requires var open := Unpublished(trace[0].outbox);
      && |open * poison| < 50
      && (|trace| - 1) * (50 - |open * poison|) >= |open - poison|
    ensures Unpublished(trace[|trace| - 1].outbox) == Unpublished(trace[0].outbox) * poison
  {
    hide Inv, Lawful, Reachable, FlushCall, Rounds, Unpublished, Serials;
    ReachableHasInv(lib, trace[0]);
    FlushesAreRounds(lib, trace, poison);
    RoundsFinish(OpenSets(trace), Serials(trace[0].outbox), FLUSH_LIMIT, poison);
  }

  lemma {:induction false} CanFlushOn(lib: Libraries, s: State, poison: set<nat>, n: nat) returns (trace: seq<State>)
    requires Lawful(lib) && Inv(lib, s)
    ensures Flushes(lib, trace, poison) && |trace| == n + 1 && trace[0] == s
    decreases n
  {
    hide Inv, Lawful, FlushCall;
    if n == 0 {
      trace := [s];
    } else {
      var w := CanFlush(lib, s, poison);
      FlushIsRound(lib, s, w, poison);
      var rest := CanFlushOn(lib, w, poison, n - 1);
      trace := [s] + rest;
      forall i | 0 <= i < |trace| - 1
        ensures FlushCall(lib, trace[i], trace[i + 1], poison)
      {
        if i > 0 {
          assert FlushCall(lib, rest[i - 1], rest[i - 1 + 1], poison);
        }
      }
    }
  }

  lemma NotPicked(open: set<nat>, outbox: map<nat, OutboxRow>, poison: set<nat>, pick: set<nat>, k: nat)
    requires IsPick(open, Serials(outbox), FLUSH_LIMIT, pick) && k in open && k in outbox && k !in poison
    requires |Blockers(open, Serials(outbox), poison, k)| >= FLUSH_LIMIT
    ensures k !in pick
  {
    var blockers := Blockers(open, Serials(outbox), poison, k);
    if k in pick {
      assert blockers <= pick - {k};
      SubsetSize(blockers, pick - {k});
      assert false;
    }
  }

  lemma SameBlockers(open: set<nat>, next: set<nat>, age: map<nat, nat>, poison: set<nat>, k: nat)
    requires k in age && next * poison == open * poison
    ensures Blockers(next, age, poison, k) == Blockers(open, age, poison, k)
  {
  }

  /** With 50 or more poison rows before it, a row is not published by any number of calls. */
  lemma {:induction false} Starves(lib: Libraries, trace: seq<State>, poison: set<nat>, k: nat)
    requires Lawful(lib) && Flushes(lib, trace, poison) && Inv(lib, trace[0])
    requires k in trace[0].outbox && k in Unpublished(trace[0].outbox) && k !in poison && k in Serials(trace[0].outbox)
    requires |Blockers(Unpublished(trace[0].outbox), Serials(trace[0].outbox), poison, k)| >= FLUSH_LIMIT
    ensures k in Unpublished(trace[|trace| - 1].outbox)
    decreases |trace|
  {
    hide Inv, Lawful, FlushCall, Unpublished, Serials, Blockers, Evolves, ListUnpublished, IsPick;
    assert |trace| > 0;
    hide Flushes;
    if |trace| > 1 {
      var v, w := trace[0], trace[1];
      RestOfFlushes(lib, trace, poison);
      CallFlushes(lib, v, w, poison);
      ListedIsPick(v.outbox, FLUSH_LIMIT);
      NotPicked(Unpublished(v.outbox), v.outbox, poison, Oids(ListUnpublished(v.outbox, FLUSH_LIMIT)), k);
      SameSerials(v.outbox, w.outbox);
      assert Unpublished(w.outbox) * poison == Unpublished(v.outbox) * poison;
      SameBlockers(Unpublished(v.outbox), Unpublished(w.outbox), Serials(v.outbox), poison, k);
      Starves(lib, trace[1..], poison, k);
    }
  }

  lemma OpenIsUnpublished(outbox: map<nat, OutboxRow>, k: nat)
    requires k in outbox
    ensures k in Unpublished(outbox) <==> !IsPublished(outbox, k)
    ensures k in Serials(outbox)
  {
  }

  /** "An unpublished row is published after as many undisturbed calls of FlushOutbox as there are rows that the broker
      takes" holds of row `k` if and only if fewer than 50 rows that it never takes come before. Otherwise not even an
      unlimited number of calls helps. */
  lemma FlushServesIff(lib: Libraries, s: State, poison: set<nat>, k: nat)
    requires Lawful(lib) && Reachable(lib, s) && k in Unpublished(s.outbox) && k !in poison && k in Serials(s.outbox)
    ensures var few := |Blockers(Unpublished(s.outbox), Serials(s.outbox), poison, k)| < 50;
      && ((forall trace: seq<State> ::
             Flushes(lib, trace, poison) && trace[0] == s && |trace| > |Unpublished(s.outbox) - poison| ==>
               IsPublished(trace[|trace| - 1].outbox, k))
          <==> few)
      && (!few ==> forall trace: seq<State> ::
            Flushes(lib, trace, poison) && trace[0] == s ==> !IsPublished(trace[|trace| - 1].outbox, k))
  {
    ReachableHasInv(lib, s);
    HasRow(s.outbox, k);
    hide Inv, Lawful, Reachable, FlushCall, Unpublished, Serials, Blockers, IsPublished, Flushes;
    if |Blockers(Unpublished(s.outbox), Serials(s.outbox), poison, k)| < FLUSH_LIMIT {
      forall trace: seq<State> | Flushes(lib, trace, poison) && trace[0] == s
        && |trace| > |Unpublished(s.outbox) - poison|
        ensures IsPublished(trace[|trace| - 1].outbox, k)
      {
        Serves(lib, trace, poison, k);
      }
    } else {
      forall trace: seq<State> | Flushes(lib, trace, poison) && trace[0] == s
        ensures !IsPublished(trace[|trace| - 1].outbox, k)
      {
        StarvesHere(lib, trace, poison, k);
      }
      var trace := CanFlushOn(lib, s, poison, |Unpublished(s.outbox) - poison|);
      assert Flushes(lib, trace, poison) && trace[0] == s;
    }
  }

  lemma Serves(lib: Libraries, trace: seq<State>, poison: set<nat>, k: nat)
    requires Lawful(lib) && Flushes(lib, trace, poison) && Inv(lib, trace[0])
    requires k in trace[0].outbox && k !in poison && k in Serials(trace[0].outbox)
    requires |trace| > |Unpublished(trace[0].outbox) - poison|
    requires |Blockers(Unpublished(trace[0].outbox), Serials(trace[0].outbox), poison, k)| < FLUSH_LIMIT
    ensures IsPublished(trace[|trace| - 1].outbox, k)
  {
    FlushesAreRounds(lib, trace, poison);
    OpenIsUnpublished(trace[|trace| - 1].outbox, k);
    hide Inv, Lawful, Rounds, Unpublished, Serials, Blockers, IsPublished, SameAvatars, Flushes;
    if k in Unpublished(trace[|trace| - 1].outbox) {
      RoundsServe(OpenSets(trace), Serials(trace[0].outbox), FLUSH_LIMIT, poison, k);
    }
  }

  lemma HasRow(outbox: map<nat, OutboxRow>, k: nat)
    requires k in Serials(outbox)
    ensures k in outbox
  {
  }

  lemma StarvesHere(lib: Libraries, trace: seq<State>, poison: set<nat>, k: nat)
    requires Lawful(lib) && Flushes(lib, trace, poison) && Inv(lib, trace[0])
    requires k in trace[0].outbox && k in Unpublished(trace[0].outbox) && k !in poison && k in Serials(trace[0].outbox)
    requires |Blockers(Unpublished(trace[0].outbox), Serials(trace[0].outbox), poison, k)| >= FLUSH_LIMIT
    ensures !IsPublished(trace[|trace| - 1].outbox, k)
  {
    Starves(lib, trace, poison, k);
    hide Inv, Lawful, Flushes, Blockers;
  }

  // ---------------------------------------------------------------- calls are executions

  lemma FlushIsExecution(lib: Libraries, v: State, w: State, poison: set<nat>) returns (actions: seq<Action>)
    requires FlushCall(lib, v, w, poison)
    ensures Legal(lib, v, actions) && After(lib, v, actions) == w
  {
    hide Runs, Legal, After, Next, Enabled;
    var r: RunId :| r !in v.runs && r !in w.runs && Runs(lib, Goto(v, r, FlushList), w, r, poison);
    BeginFlushStep(lib, v, r);
    actions := RunIsExecution(lib, v, BeginFlush(r), w, r, poison);
  }

  lemma {:induction false} FlushesAreExecution(lib: Libraries, trace: seq<State>, poison: set<nat>)
    returns (actions: seq<Action>)
    requires Flushes(lib, trace, poison)
    ensures Legal(lib, trace[0], actions) && After(lib, trace[0], actions) == trace[|trace| - 1]
    decreases |trace|
  {
    hide FlushCall, Next, Enabled;
    assert |trace| > 0;
    if |trace| == 1 {
      actions := [];
    } else {
      hide Flushes, Legal, After;
      RestOfFlushes(lib, trace, poison);
      var first := FlushIsExecution(lib, trace[0], trace[1], poison);
      var rest := FlushesAreExecution(lib, trace[1..], poison);
      AfterConcat(lib, trace[0], first, rest);
      actions := first + rest;
    }
  }

  /** If all goes well, every event gets out, and nothing else changes. */
  lemma CanPublishAll(lib: Libraries, s: State) returns (actions: seq<Action>)
    requires Lawful(lib) && Reachable(lib, s)
    ensures Legal(lib, s, actions)
    ensures var w := After(lib, s, actions);
      && SameAvatars(s, w) && w.runs == s.runs && OutboxKeeps(s.outbox, w.outbox)
      && forall k <- w.outbox.Keys :: w.outbox[k].published
  {
    hide Inv, Lawful, Reachable, FlushCall, Legal, After, SameAvatars, Flushes, Serials, Rounds;
    ReachableHasInv(lib, s);
    var trace := CanFlushOn(lib, s, {}, |Unpublished(s.outbox)|);
    var w := trace[|trace| - 1];
    assert Unpublished(s.outbox) * {} == {} && Unpublished(s.outbox) - {} == Unpublished(s.outbox);
    FlushesAreRounds(lib, trace, {});
    OutboxBound(lib, trace, {});
    actions := FlushesAreExecution(lib, trace, {});
    ExecutionEvolves(lib, s, actions);
    NoneUnpublished(w.outbox);
    hide OutboxKeeps;
  }

  lemma NoneUnpublished(outbox: map<nat, OutboxRow>)
    requires Unpublished(outbox) == {}
    ensures forall k <- outbox.Keys :: outbox[k].published
  {
    forall k <- outbox.Keys
      ensures outbox[k].published
    {
      assert k !in Unpublished(outbox);
    }
  }
}
