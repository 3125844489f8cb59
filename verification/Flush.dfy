/** FlushOutbox with its retry loop, as a run of the protocol. */
module Flush {
  import opened Images
  import opened Protocol
  import opened Invariant
  import opened Guarantees
  import opened Undisturbed
  import opened Deployments
  import opened FlushCalls

  // ---------------------------------------------------------------- what the log says of an item

  /** The attempts to send `items[0]` began with the first-th logged action and ended with the last-th: `done` if that
      one marked the row published, and otherwise the third failed or a cancelled attempt, or a mark that failed. */
  ghost predicate ItemTried(lib: Libraries, log: seq<Action>, me: RunId, items: seq<OutboxItem>, first: nat, last: nat,
      done: bool)
    requires Legal(lib, INIT, log)
  {
    && items != [] && first <= last && Took(lib, log, first, me, FlushPublish(items, 0))
    && Ended(lib, log, me, items, last, done)
  }

  ghost predicate Ended(lib: Libraries, log: seq<Action>, me: RunId, items: seq<OutboxItem>, last: nat, done: bool)
    requires Legal(lib, INIT, log)
  {
    || (Took(lib, log, last, me, FlushMark(items)) && log[last].t.ok == done)
    || (exists attempt: nat :: Took(lib, log, last, me, FlushPublish(items, attempt)) && !log[last].t.ok && !done
                               && (attempt + 1 >= 3 || log[last].t.cancel))
  }

  lemma EndedStays(lib: Libraries, log: seq<Action>, longer: seq<Action>, me: RunId, items: seq<OutboxItem>, last: nat,
      done: bool)
    requires Legal(lib, INIT, log) && Legal(lib, INIT, longer) && log <= longer
    requires Ended(lib, log, me, items, last, done)
    ensures Ended(lib, longer, me, items, last, done) && last < |log|
  {
    hide Legal, StateAt;
    if Took(lib, log, last, me, FlushMark(items)) && log[last].t.ok == done {
      TookStays(lib, log, longer, last, me, FlushMark(items));
    } else {
      var attempt: nat :| && Took(lib, log, last, me, FlushPublish(items, attempt)) && !log[last].t.ok && !done
                          && (attempt + 1 >= PUBLISH_ATTEMPTS || log[last].t.cancel);
      TookStays(lib, log, longer, last, me, FlushPublish(items, attempt));
    }
  }

  lemma GivesUp(lib: Libraries, log: seq<Action>, me: RunId, items: seq<OutboxItem>, attempt: nat, last: nat)
    requires Legal(lib, INIT, log) && Took(lib, log, last, me, FlushPublish(items, attempt))
    requires !log[last].t.ok
    ensures attempt + 1 >= PUBLISH_ATTEMPTS || log[last].t.cancel ==> Ended(lib, log, me, items, last, false)
  {
    hide Legal, Took;
  }

  /** After the from-th logged action the items so far were tried, one after the other. */
  ghost predicate Tried(lib: Libraries, log: seq<Action>, me: RunId, from: nat, items: seq<OutboxItem>,
      firsts: seq<nat>, lasts: seq<nat>, done: seq<bool>)
    requires Legal(lib, INIT, log)
  {
    && |firsts| == |lasts| == |done| <= |items|
    && forall i :: 0 <= i < |done| ==>
         && ItemTried(lib, log, me, items[i..], firsts[i], lasts[i], done[i])
         && (if i == 0 then from else lasts[i - 1]) < firsts[i]
  }

  lemma TriedGrows(lib: Libraries, log: seq<Action>, longer: seq<Action>, me: RunId, from: nat, items: seq<OutboxItem>,
      firsts: seq<nat>, lasts: seq<nat>, done: seq<bool>, first: nat, last: nat, ok: bool)
    requires Legal(lib, INIT, log) && Legal(lib, INIT, longer) && log <= longer && from < |log| <= first
    requires Tried(lib, log, me, from, items, firsts, lasts, done) && |done| < |items|
    requires ItemTried(lib, longer, me, items[|done|..], first, last, ok)
    ensures Tried(lib, longer, me, from, items, firsts + [first], lasts + [last], done + [ok])
  {
    hide Legal, Took, Ended;
    forall i | 0 <= i < |done|
      ensures ItemTried(lib, longer, me, items[i..], firsts[i], lasts[i], done[i]) && lasts[i] < |log|
    {
      assert ItemTried(lib, log, me, items[i..], firsts[i], lasts[i], done[i]);
      TookStays(lib, log, longer, firsts[i], me, FlushPublish(items[i..], 0));
      EndedStays(lib, log, longer, me, items[i..], lasts[i], done[i]);
    }
    hide ItemTried;
    var n := |done|;
    forall i | 0 <= i < n + 1
      ensures ItemTried(lib, longer, me, items[i..], (firsts + [first])[i], (lasts + [last])[i], (done + [ok])[i])
      ensures (if i == 0 then from else (lasts + [last])[i - 1]) < (firsts + [first])[i]
    {
      if i < n {
        assert ItemTried(lib, longer, me, items[i..], firsts[i], lasts[i], done[i]);
        assert (if i == 0 then from else lasts[i - 1]) < firsts[i];
      } else if i > 0 {
        assert lasts[i - 1] < |log|;
      }
    }
  }

  lemma NoneTried(lib: Libraries, log: seq<Action>, me: RunId, from: nat, items: seq<OutboxItem>)
    requires Legal(lib, INIT, log)
    ensures Tried(lib, log, me, from, items, [], [], [])
  {
  }

  // ---------------------------------------------------------------- the methods

  /** One call of publishKind. */
  method PublishKind(d: Deployment, me: RunId, items: seq<OutboxItem>, attempt: nat)
    returns (err: bool, cancelled: bool)
    requires d.Valid() && me in d.st.runs && d.st.runs[me] == FlushPublish(items, attempt) && items != []
    modifies d
    ensures d.Valid() && Evolves(old(d.st), d.st) && old(d.log) < d.log
    ensures Took(d.lib, d.log, |d.log| - 1, me, FlushPublish(items, attempt))
    ensures d.log[|d.log| - 1].t.ok == !err && d.log[|d.log| - 1].t.cancel == cancelled
    ensures !err ==> me in d.st.runs && d.st.runs[me] == FlushMark(items)
    ensures err && attempt + 1 < 3 && !cancelled ==>
      me in d.st.runs && d.st.runs[me] == FlushPublish(items, attempt + 1)
    ensures err && (attempt + 1 >= 3 || cancelled) ==> Flushing(d.st, me, items[1..])
    ensures d.Calm() ==> Runs(d.lib, old(d.st), d.st, me, d.poison) && (err <==> items[0].oid in d.poison)
  {
    hide Inv, Evolves, Lawful, Next, Enabled, Flushing, Runs, Took, Legal, After, StateAt;
    var t, before := d.Effect(me);
    PublishOutcome(d.lib, before, me, t, items, attempt);
    EvolvesTransitively(old(d.st), before, d.st);
    TookHere(d.lib, d.log, me, before, t);
    return !t.ok, t.cancel;
  }

  /** publishWithRetry over one item: at most three attempts, fewer if the context is done. */
  method PublishWithRetry(d: Deployment, me: RunId, items: seq<OutboxItem>) returns (err: bool, ghost first: nat)
    requires d.Valid() && Flushing(d.st, me, items) && items != []
    modifies d
    ensures d.Valid() && Evolves(old(d.st), d.st) && |old(d.log)| <= first < |d.log| && old(d.log) <= d.log
    ensures Took(d.lib, d.log, first, me, FlushPublish(items, 0))
    ensures if err then Flushing(d.st, me, items[1..]) && Ended(d.lib, d.log, me, items, |d.log| - 1, false)
            else me in d.st.runs && d.st.runs[me] == FlushMark(items)
    ensures d.Calm() ==> Runs(d.lib, old(d.st), d.st, me, d.poison) && (err <==> items[0].oid in d.poison)
  {
    hide Evolves, Lawful, Runs, Legal, After, Took, StateAt, Ended;
    SameTables(d.st, d.st);
    RunsNowhere(d.lib, d.st, me, d.poison);
    first := 0;
    for i := 0 to PUBLISH_ATTEMPTS
      invariant d.Valid() && Evolves(old(d.st), d.st) && old(d.log) <= d.log
      invariant i < PUBLISH_ATTEMPTS ==> me in d.st.runs && d.st.runs[me] == FlushPublish(items, i)
      invariant i == PUBLISH_ATTEMPTS ==>
        Flushing(d.st, me, items[1..]) && Ended(d.lib, d.log, me, items, |d.log| - 1, false)
      invariant i > 0 ==> |old(d.log)| <= first < |d.log| && Took(d.lib, d.log, first, me, FlushPublish(items, 0))
      invariant d.Calm() ==> Runs(d.lib, old(d.st), d.st, me, d.poison) && (i > 0 ==> items[0].oid in d.poison)
    {
      ghost var was, logged := d.st, d.log;
      var last, cancelled := PublishKind(d, me, items, i);
      EvolvesTransitively(old(d.st), was, d.st);
      if d.Calm() {
        RunsTransitively(d.lib, old(d.st), was, d.st, me, d.poison);
      }
      if i == 0 {
        first := |d.log| - 1;
      } else {
        StillTook(d.lib, logged, d.log, first, me, FlushPublish(items, 0));
      }
      if !last {
        return false, first;
      }
      GivesUp(d.lib, d.log, me, items, i, |d.log| - 1);
      if i + 1 < PUBLISH_ATTEMPTS && cancelled {
        return true, first;
      }
    }
    return true, first;
  }

  method MarkOutboxPublished(d: Deployment, me: RunId, items: seq<OutboxItem>) returns (err: bool)
    requires d.Valid() && me in d.st.runs && d.st.runs[me] == FlushMark(items) && items != []
    modifies d
    ensures d.Valid() && Evolves(old(d.st), d.st) && Flushing(d.st, me, items[1..]) && old(d.log) < d.log
    ensures Ended(d.lib, d.log, me, items, |d.log| - 1, !err)
    ensures !err ==> IsPublished(d.st.outbox, items[0].oid)
    ensures d.Calm() ==> !err && Runs(d.lib, old(d.st), d.st, me, d.poison)
  {
    hide Inv, Evolves, Lawful, Next, Enabled, Flushing, MarkPublished, IsPublished, Runs, Took, Legal, After, StateAt;
    var t, before := d.Effect(me);
    MarkOutcome(d.lib, before, me, t, items);
    MarkedIsPublished(before.outbox, items[0].oid);
    EvolvesTransitively(old(d.st), before, d.st);
    TookHere(d.lib, d.log, me, before, t);
    return !t.ok;
  }

  /** The query. */
  method StartFlush(d: Deployment) returns (me: RunId, err: bool, items: seq<OutboxItem>)
    requires d.Valid()
    modifies d
    ensures d.Valid() && Evolves(old(d.st), d.st) && me == FreshRun(old(d.st).runs) && old(d.log) < d.log
    ensures Took(d.lib, d.log, |d.log| - 1, me, FlushList) && err == !d.log[|d.log| - 1].t.ok
    ensures items == if err then [] else ListUnpublished(StateAt(d.lib, d.log, |d.log| - 1).outbox, 50)
    ensures Flushing(d.st, me, items) && |items| <= 50
    ensures d.Calm() ==> !err && Runs(d.lib, Goto(old(d.st), me, FlushList), d.st, me, d.poison)
  {
    hide Inv, Evolves, Lawful, ListUnpublished, Flushing, Next, Runs, Took, Legal, After, StateAt;
    me := FreshRun(d.st.runs);
    BeginFlushStep(d.lib, d.st, me);
    d.Begin(BeginFlush(me));
    ghost var begun := d.st;
    var t, before := d.Effect(me);
    EvolvesTransitively(old(d.st), begun, before);
    EvolvesTransitively(old(d.st), before, d.st);
    ListStep(d.lib, before, me, t);
    ListedIsPick(before.outbox, FLUSH_LIMIT);
    TookHere(d.lib, d.log, me, before, t);
    if !t.ok {
      NothingToFlush(d.st, me);
      return me, true, [];
    }
    return me, false, ListUnpublished(d.st.outbox, FLUSH_LIMIT);
  }

  lemma NothingToFlush(s: State, me: RunId)
    ensures Flushing(s, me, []) <==> me !in s.runs
  {
  }

  /** One turn of the flush loop: publish with retries and, only if that worked, mark. */
  method FlushItem(d: Deployment, me: RunId, items: seq<OutboxItem>) returns (err: bool, ghost first: nat)
    requires d.Valid() && Flushing(d.st, me, items) && items != []
    modifies d
    ensures d.Valid() && Evolves(old(d.st), d.st) && Flushing(d.st, me, items[1..])
    ensures old(d.log) < d.log && |old(d.log)| <= first
    ensures ItemTried(d.lib, d.log, me, items, first, |d.log| - 1, !err)
    ensures !err ==> IsPublished(d.st.outbox, items[0].oid)
    ensures d.Calm() ==> Runs(d.lib, old(d.st), d.st, me, d.poison) && (err <==> items[0].oid in d.poison)
  {
    hide Evolves, Lawful, Flushing, IsPublished, Runs, Took, Legal, After, Ended;
    err, first := PublishWithRetry(d, me, items);
    if err {
      return;
    }
    ghost var sent, logged := d.st, d.log;
    err := MarkOutboxPublished(d, me, items);
    EvolvesTransitively(old(d.st), sent, d.st);
    TookStays(d.lib, logged, d.log, first, me, FlushPublish(items, 0));
    if d.Calm() {
      RunsTransitively(d.lib, old(d.st), sent, d.st, me, d.poison);
    }
  }

  /** FlushOutbox. Whatever else happens in the system meanwhile, the call asks for the unpublished rows once, `listed`
      being the log's index of the query, and then tries every row of that answer in turn, a failing one never stopping
      the loop; `done` says which were sent and marked, and the call reports nil exactly if the query worked and all
      were. Undisturbed, it is a FlushCall. */
  method FlushOutbox(d: Deployment)
    returns (err: bool, items: seq<OutboxItem>, done: seq<bool>, ghost listed: nat, ghost firsts: seq<nat>,
             ghost lasts: seq<nat>)
    requires d.Valid()
    modifies d
    ensures d.Valid() && Evolves(old(d.st), d.st) && old(d.log) <= d.log && FreshRun(old(d.st).runs) !in d.st.runs
    ensures |old(d.log)| <= listed && Took(d.lib, d.log, listed, FreshRun(old(d.st).runs), FlushList)
    ensures items ==
      if d.log[listed].t.ok then ListUnpublished(StateAt(d.lib, d.log, listed).outbox, 50) else []
    ensures |done| == |items| <= 50
    ensures Tried(d.lib, d.log, FreshRun(old(d.st).runs), listed, items, firsts, lasts, done)
    ensures Marked(d.st.outbox, items, done)
    ensures err <==> !d.log[listed].t.ok || exists i :: 0 <= i < |items| && !done[i]
    ensures d.Calm() ==>
      FlushCall(d.lib, old(d.st), d.st, d.poison) && forall i :: 0 <= i < |items| ==>
        (done[i] <==> items[i].oid !in d.poison)
  {
    hide Evolves, Lawful, ListUnpublished, Flushing, IsPublished, Runs, Took, Legal, After, StateAt, ItemTried, Tried,
      Marked;
    var me: RunId;
    me, err, items := StartFlush(d);
    listed := |d.log| - 1;
    done, firsts, lasts := [], [], [];
    ghost var query, bad := d.log, 0;
    NothingToFlush(d.st, me);
    NoneTried(d.lib, d.log, me, listed, items);
    NoneMarked(d.st.outbox, items);
    if err {
      return;
    }
    for i := 0 to |items|
      invariant d.Valid() && Evolves(old(d.st), d.st) && Flushing(d.st, me, items[i..]) && query <= d.log
      invariant |firsts| == |lasts| == |done| == i && Tried(d.lib, d.log, me, listed, items, firsts, lasts, done)
      invariant Marked(d.st.outbox, items, done)
      invariant if err then bad < i && !done[bad] else forall j :: 0 <= j < i ==> done[j]
      invariant d.Calm() ==> Runs(d.lib, Goto(old(d.st), me, FlushList), d.st, me, d.poison)
      invariant d.Calm() ==> forall j :: 0 <= j < i ==> (done[j] <==> items[j].oid !in d.poison)
    {
      ghost var was, logged := d.st, d.log;
      assert items[i..][1..] == items[i + 1..] && items[i..][0] == items[i];
      var failed: bool;
      ghost var first: nat;
      failed, first := FlushItem(d, me, items[i..]);
      MarkedGrows(old(d.st), was, d.st, items, done, !failed);
      TriedGrows(d.lib, logged, d.log, me, listed, items, firsts, lasts, done, first, |d.log| - 1, !failed);
      if d.Calm() {
        RunsTransitively(d.lib, Goto(old(d.st), me, FlushList), was, d.st, me, d.poison);
      }
      if failed {
        err, bad := true, i;
      }
      done, firsts, lasts := done + [!failed], firsts + [first], lasts + [|d.log| - 1];
    }
    TookStays(d.lib, query, d.log, listed, me, FlushList);
    assert items[|items|..] == [];
    NothingToFlush(d.st, me);
  }

  /** Every item marked so far is published. */
  ghost predicate Marked(outbox: map<nat, OutboxRow>, items: seq<OutboxItem>, done: seq<bool>) {
    |done| <= |items| && forall i :: 0 <= i < |done| && done[i] ==> IsPublished(outbox, items[i].oid)
  }

  lemma MarkedGrows(u: State, v: State, w: State, items: seq<OutboxItem>, done: seq<bool>, ok: bool)
    requires Evolves(u, v) && Evolves(v, w) && Marked(v.outbox, items, done) && |done| < |items|
    requires ok ==> IsPublished(w.outbox, items[|done|].oid)
    ensures Evolves(u, w) && Marked(w.outbox, items, done + [ok])
  {
    hide Evolves, IsPublished;
    EvolvesTransitively(u, v, w);
    forall i | 0 <= i < |done| && done[i]
      ensures IsPublished(w.outbox, items[i].oid)
    {
      PublishedStays(v, w, items[i].oid);
    }
  }

  lemma NoneMarked(outbox: map<nat, OutboxRow>, items: seq<OutboxItem>)
    ensures Marked(outbox, items, [])
  {
  }
}
