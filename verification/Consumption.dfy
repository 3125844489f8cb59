/** The consume loops of the worker over the running system: what it means for an avatar that
    its message was handled. */
module Consumption {
  import opened Text
  import opened Errors
  import opened Domain
  import opened Images
  import opened Headers
  import opened Protocol
  import opened Invariant
  import opened Guarantees
  import opened Processings
  import opened Deployments
  import opened Service
  import opened Worker

  datatype Topic = Uploads | Deletes

  function LengthOf(s: State, topic: Topic): nat {
    match topic
    case Uploads => |s.uploads|
    case Deletes => |s.deletes|
  }

  /** The message has done its work: the avatar it is about is settled, or cleaned. */
  ghost predicate Effective(lib: Libraries, s: State, topic: Topic, offset: nat)
    requires offset < LengthOf(s, topic)
  {
    match topic
    case Uploads =>
      HandleUpload(lib, s.uploads[offset]).Ok? && IsUuid(HandleUpload(lib, s.uploads[offset]).value.avatarId)
      && Settled(s.rows, s.now, HandleUpload(lib, s.uploads[offset]).value.avatarId)
    case Deletes =>
      HandleDelete(lib, s.deletes[offset]).Ok? && HandleDelete(lib, s.deletes[offset]).value.avatarId in s.cleaned
  }

  lemma TopicGrows(v: State, w: State, topic: Topic)
    requires Evolves(v, w)
    ensures LengthOf(v, topic) <= LengthOf(w, topic)
  {
  }

  /** A cleaned avatar stays so. */
  lemma CleaningLasts(lib: Libraries, v: State, w: State, offset: nat)
    requires Evolves(v, w) && offset < |v.deletes| && Effective(lib, v, Deletes, offset)
    ensures offset < |w.deletes| && Effective(lib, w, Deletes, offset)
  {
    hide HandleDelete, OutboxKeeps, RowsKeep;
  }

  /** The k-th logged action delivers the message to its handler. */
  predicate Delivered(log: seq<Action>, k: nat, topic: Topic, offset: nat) {
    k < |log|
    && match topic
       case Uploads => log[k].DeliverUpload? && log[k].offset == offset
       case Deletes => log[k].DeliverDelete? && log[k].offset == offset
  }

  /** These logged actions deliver the message, one after the other. */
  ghost predicate AllDelivered(log: seq<Action>, ks: seq<nat>, topic: Topic, offset: nat) {
    && (forall i :: 0 <= i < |ks| ==> Delivered(log, ks[i], topic, offset))
    && forall i :: 0 < i < |ks| ==> ks[i - 1] < ks[i]
  }

  lemma OneMoreDelivered(log: seq<Action>, longer: seq<Action>, ks: seq<nat>, topic: Topic, offset: nat)
    requires AllDelivered(log, ks, topic, offset) && log <= longer && Delivered(longer, |log|, topic, offset)
    ensures AllDelivered(longer, ks + [|log|], topic, offset)
  {
    var more := ks + [|log|];
    forall i | 0 <= i < |more|
      ensures Delivered(longer, more[i], topic, offset) && (i > 0 ==> more[i - 1] < more[i])
    {
      if i < |ks| {
        assert Delivered(log, ks[i], topic, offset);
      }
      if i > 0 {
        assert Delivered(log, ks[i - 1], topic, offset);
      }
    }
  }

  /** One call of the topic's handler. */
  method Handle(d: Deployment, topic: Topic, offset: nat) returns (err: bool)
    requires d.Valid() && offset < LengthOf(d.st, topic)
    modifies d
    ensures d.Valid() && Evolves(old(d.st), d.st) && old(d.log) <= d.log
      && Delivered(d.log, |old(d.log)|, topic, offset)
    ensures offset < LengthOf(d.st, topic) && (!err ==> Effective(d.lib, d.st, topic, offset))
    ensures d.Calm() && topic == Deletes ==> !err
  {
    hide HandleUpload, HandleDelete, OutboxKeeps, RowsKeep, Settled, Lawful, Legal, After;
    match topic
    case Uploads => err := HandleUploadMessage(d, offset);
    case Deletes => err := HandleDeleteMessage(d, offset);
  }

  /** What the environment decides of one fetch: the message, in any order of the partitions and again after a restart;
      the error that a failing call reports; the waits at which the context is done; and the reply to the commit. */
  datatype Fetch = Fetch(offset: nat, error: nat -> Error, cancelled: nat -> bool, commit: Reply)

  /** The results of the calls that were made. */
  function Outcome(results: seq<Option<Error>>, cancelled: nat -> bool): Attempts {
    Attempts((k: nat) => if k < |results| then results[k] else None, cancelled)
  }

  /** Every call so far failed for a passing reason. */
  ghost predicate AllFailed(results: seq<Option<Error>>, cancelled: nat -> bool) {
    forall j: nat :: j < |results| ==> results[j].Some? && !IsPermanent(results[j].value) && !cancelled(j)
  }

  /** How the loop ends if its last call ends it. */
  function EndOf(last: Option<Error>): Ending {
    match last
    case None => Success
    case Some(e) => if IsPermanent(e) then Permanently(e) else Spent(e)
  }

  lemma NoneYet(cancelled: nat -> bool)
    ensures AllFailed([], cancelled)
  {
  }

  lemma EndsHere(results: seq<Option<Error>>, cancelled: nat -> bool, last: Option<Error>)
    requires AllFailed(results, cancelled) && |results| < ATTEMPTS
    ensures var env := Outcome(results + [last], cancelled); var n := |results| + 1;
      if last.None? || IsPermanent(last.value) || n == ATTEMPTS then
        EndsWith(env, ATTEMPTS, n, EndOf(last)) && last == ErrorOf(EndOf(last))
      else if cancelled(n - 1) then EndsWith(env, ATTEMPTS, n, Cancelled)
      else AllFailed(results + [last], cancelled)
  {
    hide IsPermanent;
    var env := Outcome(results + [last], cancelled);
    assert env.result(|results|) == last;
    forall j: nat | j < |results|
      ensures GoesOn(env, j)
    {
      assert env.result(j) == results[j];
    }
  }

  /** withRetry around the handler. Its attempts are those of Worker.WithRetry, on what the calls really returned, each
      of which delivered the message; and if it ends in success, the message has done its work. Undisturbed, one call
      does the work of a delete message. */
  method Retry(d: Deployment, topic: Topic, f: Fetch)
    returns (last: Option<Error>, ghost env: Attempts, ghost calls: nat, ghost ending: Ending, ghost ks: seq<nat>)
    requires d.Valid() && f.offset < LengthOf(d.st, topic)
    modifies d
    ensures d.Valid() && Evolves(old(d.st), d.st) && old(d.log) <= d.log && f.offset < LengthOf(d.st, topic)
    ensures EndsWith(env, 5, calls, ending) && last == ErrorOf(ending) && env.cancelled == f.cancelled
    ensures forall n: nat :: n < 5 && OnlyTransient(env, n) ==> Decides(env, 5, n, calls, last)
    ensures ending == Success ==> Effective(d.lib, d.st, topic, f.offset)
    ensures |ks| == calls && AllDelivered(d.log, ks, topic, f.offset) && ks[0] == |old(d.log)|
    ensures d.Calm() && topic == Deletes ==> calls == 1 && ending == Success
  {
    hide Evolves, Lawful, Legal, After, Effective, LengthOf, EndsWith, AllFailed, IsPermanent, OnlyTransient, Decides,
      Delivered;
    SameTables(d.st, d.st);
    ghost var results: seq<Option<Error>> := [];
    last, env, calls, ending, ks := None, Outcome(results, f.cancelled), 0, Success, [];
    assert AllFailed(results, f.cancelled) by { NoneYet(f.cancelled); }
    for i := 0 to ATTEMPTS
      invariant d.Valid() && Evolves(old(d.st), d.st) && old(d.log) <= d.log && f.offset < LengthOf(d.st, topic)
      invariant |results| == i && AllFailed(results, f.cancelled) && (i == ATTEMPTS ==> i == 0)
      invariant |ks| == i && AllDelivered(d.log, ks, topic, f.offset)
      invariant if i == 0 then d.log == old(d.log) else ks[0] == |old(d.log)|
      invariant d.Calm() && topic == Deletes ==> i == 0
    {
      ghost var was, log := d.st, d.log;
      var failed := Handle(d, topic, f.offset);
      EvolvesTransitively(old(d.st), was, d.st);
      OneMoreDelivered(log, d.log, ks, topic, f.offset);
      ks := ks + [|log|];
      last := if failed then Some(f.error(i)) else None;
      EndsHere(results, f.cancelled, last);
      results := results + [last];
      env, calls, ending := Outcome(results, f.cancelled), i + 1, EndOf(last);
      if last.None? || IsPermanent(last.value) || i == ATTEMPTS - 1 {
        EachDecides(env, ATTEMPTS, calls, ending);
        return;
      }
      if f.cancelled(i) {
        last, ending := Some(CONTEXT_DONE), Cancelled;
        EachDecides(env, ATTEMPTS, calls, ending);
        return;
      }
    }
  }

  /** A message handled to an end, from the from-th logged action on; `at` actions had been logged by then. */
  datatype Record = Record(offset: nat, ending: Ending, commit: Reply, from: nat, at: nat)

  /** The message was handled, and if with success, it had done its work by then. */
  ghost predicate Truthful(lib: Libraries, log: seq<Action>, topic: Topic, r: Record)
    requires Legal(lib, INIT, log)
  {
    && Delivered(log, r.from, topic, r.offset) && r.from < r.at <= |log|
    && r.offset < LengthOf(StateAt(lib, log, r.at), topic)
    && (r.ending == Success ==> Effective(lib, StateAt(lib, log, r.at), topic, r.offset))
  }

  lemma TruthLasts(lib: Libraries, log: seq<Action>, longer: seq<Action>, topic: Topic, r: Record)
    requires Legal(lib, INIT, log) && Legal(lib, INIT, longer) && log <= longer && Truthful(lib, log, topic, r)
    ensures Truthful(lib, longer, topic, r)
  {
    hide Legal, StateAt, Effective, LengthOf;
    StateAtStays(lib, log, longer, r.at);
  }

  /** For a delete message the success lasts. */
  ghost predicate Lasting(lib: Libraries, s: State, topic: Topic, r: Record) {
    topic == Deletes && r.ending == Success ==> r.offset < |s.deletes| && Effective(lib, s, topic, r.offset)
  }

  ghost predicate RecordOf(r: Record, f: Fetch) {
    r.offset == f.offset && r.commit == f.commit
  }

  /** Nothing but what was fetched was handled... */
  ghost predicate OnlyFetched(records: seq<Record>, fetches: seq<Fetch>) {
    forall r <- records :: exists f <- fetches :: RecordOf(r, f)
  }

  /** ...and all of it that was in the topic. */
  ghost predicate AllHandled(records: seq<Record>, fetches: seq<Fetch>, length: nat) {
    forall f <- fetches :: f.offset < length ==> exists r <- records :: RecordOf(r, f)
  }

  lemma NextHandled(records: seq<Record>, fetches: seq<Fetch>, n: nat, length: nat, more: seq<Record>)
    requires n < |fetches| && OnlyFetched(records, fetches) && AllHandled(records, fetches[..n], length)
    requires if more == [] then fetches[n].offset >= length else |more| == 1 && RecordOf(more[0], fetches[n])
    ensures OnlyFetched(records + more, fetches) && AllHandled(records + more, fetches[..n + 1], length)
  {
    hide RecordOf;
    var all := records + more;
    forall r <- all
      ensures exists f <- fetches :: RecordOf(r, f)
    {
      assert r in records || r == more[0];
      assert more != [] ==> fetches[n] in fetches;
    }
    forall f <- fetches[..n + 1] | f.offset < length
      ensures exists r <- all :: RecordOf(r, f)
    {
      if f in fetches[..n] {
        var r :| r in records && RecordOf(r, f);
        assert r in all;
      } else {
        assert f == fetches[n] && more[0] in all;
      }
    }
  }

  lemma NothingHandled(fetches: seq<Fetch>, length: nat)
    ensures OnlyFetched([], fetches) && AllHandled([], fetches[..0], length)
  {
  }

  /** consume: every fetched message is handled with retries and then committed, dropped or not; a failed commit ends
      the loop. A message committed after a success has done its work: the avatar of an upload was settled at that time,
      and the avatar of a deletion is cleaned from then on. */
  method Consume(d: Deployment, topic: Topic, fetches: seq<Fetch>) returns (err: bool, ghost records: seq<Record>)
    requires d.Valid()
    modifies d
    ensures d.Valid() && Evolves(old(d.st), d.st) && old(d.log) <= d.log
    ensures forall i :: 0 <= i < |records| ==>
      Truthful(d.lib, d.log, topic, records[i]) && Lasting(d.lib, d.st, topic, records[i])
    ensures OnlyFetched(records, fetches) && (!err ==> AllHandled(records, fetches, LengthOf(old(d.st), topic)))
    ensures forall i :: 0 <= i < |records| - 1 ==> records[i].commit.Fine?
    ensures err <==> records != [] && !records[|records| - 1].commit.Fine?
  {
    hide Evolves, Lawful, Legal, After, Effective, StateAt, Truthful, Lasting, LengthOf, OnlyFetched, AllHandled;
    SameTables(d.st, d.st);
    records := [];
    NothingHandled(fetches, LengthOf(d.st, topic));
    for n := 0 to |fetches|
      invariant d.Valid() && Evolves(old(d.st), d.st) && old(d.log) <= d.log
      invariant forall i :: 0 <= i < |records| ==>
        Truthful(d.lib, d.log, topic, records[i]) && Lasting(d.lib, d.st, topic, records[i]) && records[i].commit.Fine?
      invariant OnlyFetched(records, fetches) && AllHandled(records, fetches[..n], LengthOf(old(d.st), topic))
    {
      var f := fetches[n];
      TopicGrows(old(d.st), d.st, topic);
      if f.offset >= LengthOf(d.st, topic) {
        NextHandled(records, fetches, n, LengthOf(old(d.st), topic), []);
        assert records + [] == records;
      } else {
        ghost var was, log := d.st, d.log;
        var last;
        ghost var env, calls, ending, ks;
        last, env, calls, ending, ks := Retry(d, topic, f);
        assert Delivered(d.log, ks[0], topic, f.offset);
        ghost var r := Record(f.offset, ending, f.commit, |log|, |d.log|);
        EvolvesTransitively(old(d.st), was, d.st);
        RecordsLast(d.lib, log, d.log, was, d.st, topic, records);
        NowTruthful(d.lib, d.log, d.st, topic, r);
        ghost var before := records;
        NextHandled(records, fetches, n, LengthOf(old(d.st), topic), [r]);
        records := records + [r];
        assert records[|before|] == r;
        assert forall i :: 0 <= i < |before| ==> records[i] == before[i];
        if !f.commit.Fine? {
          return true, records;
        }
      }
    }
    assert fetches[..|fetches|] == fetches;
    return false, records;
  }

  lemma RecordsLast(lib: Libraries, log: seq<Action>, longer: seq<Action>, v: State, w: State, topic: Topic,
      records: seq<Record>)
    requires Legal(lib, INIT, log) && Legal(lib, INIT, longer) && log <= longer && Evolves(v, w)
    requires forall i :: 0 <= i < |records| ==>
      Truthful(lib, log, topic, records[i]) && Lasting(lib, v, topic, records[i])
    ensures forall i :: 0 <= i < |records| ==>
      Truthful(lib, longer, topic, records[i]) && Lasting(lib, w, topic, records[i])
  {
    hide Legal, Evolves, Truthful, Effective;
    forall i | 0 <= i < |records|
      ensures Truthful(lib, longer, topic, records[i]) && Lasting(lib, w, topic, records[i])
    {
      TruthLasts(lib, log, longer, topic, records[i]);
      if topic == Deletes && records[i].ending == Success {
        CleaningLasts(lib, v, w, records[i].offset);
      }
    }
  }

  lemma NowTruthful(lib: Libraries, log: seq<Action>, s: State, topic: Topic, r: Record)
    requires Legal(lib, INIT, log) && After(lib, INIT, log) == s && r.at == |log| && r.offset < LengthOf(s, topic)
    requires r.from < r.at && Delivered(log, r.from, topic, r.offset)
    requires r.ending == Success ==> Effective(lib, s, topic, r.offset)
    ensures Truthful(lib, log, topic, r) && Lasting(lib, s, topic, r)
  {
    hide Legal, After, Effective;
    assert log[..|log|] == log;
  }
}
