/** Delivery, retry and commit of internal/worker/worker.go. */
module Worker {
  import opened Text
  import opened Errors
  import opened Headers

  /** `attempts` of a worker made by `New`. */
  const ATTEMPTS: nat := 5

  /** What `ctx.Err()` gives once the context is done. */
  const CONTEXT_DONE := Foreign("context canceled")

  /** How the calls of one handler turn out, and at which waits between them the context is found to be done. */
  datatype Attempts = Attempts(result: nat -> Option<Error>, cancelled: nat -> bool)

  // ---------------------------------------------------------------- withRetry

  /** Another call follows the i-th one. */
  predicate GoesOn(env: Attempts, i: nat) {
    env.result(i).Some? && !IsPermanent(env.result(i).value) && !env.cancelled(i)
  }

  /** Why a retry loop ended after its last call. */
  datatype Ending = Success | Permanently(e: Error) | Spent(e: Error) | Cancelled

  /** `calls` calls were made: all but the last failed for a passing reason, and the last one ended the loop. */
  ghost predicate EndsWith(env: Attempts, attempts: nat, calls: nat, ending: Ending) {
    && 0 < calls <= attempts
    && (forall i: nat :: i < calls - 1 ==> GoesOn(env, i))
    && var last := env.result(calls - 1);
       match ending
       case Success => last.None?
       case Permanently(e) => last == Some(e) && IsPermanent(e)
       case Spent(e) => last == Some(e) && !IsPermanent(e) && calls == attempts
       case Cancelled => last.Some? && !IsPermanent(last.value) && calls < attempts && env.cancelled(calls - 1)
  }

  function ErrorOf(ending: Ending): Option<Error> {
    match ending
    case Success => None
    case Permanently(e) => Some(e)
    case Spent(e) => Some(e)
    case Cancelled => Some(CONTEXT_DONE)
  }

  /** The first `n` calls failed for a passing reason, and the context was alive at the waits after them. */
  ghost predicate OnlyTransient(env: Attempts, n: nat) {
    forall j: nat :: j < n ==> Transient(env.result(j)) && !env.cancelled(j)
  }

  /** What the call after `n` such calls means for the loop: a success ends it with nil, an error with a cause for
      which trying again is pointless, or the last one allowed, with that error, and a context that is done at the wait
      with its own error. */
  ghost predicate Decides(env: Attempts, attempts: nat, n: nat, calls: nat, last: Option<Error>) {
    && (env.result(n).None? ==> calls == n + 1 && last == None)
    && (env.result(n).Some? && !Transient(env.result(n)) ==> calls == n + 1 && last == env.result(n))
    && (env.result(n).Some? && n + 1 == attempts ==> calls == n + 1 && last == env.result(n))
    && (Transient(env.result(n)) && n + 1 < attempts && env.cancelled(n) ==>
          calls == n + 1 && last == Some(Foreign("context canceled")))
  }

  lemma EndingDecides(env: Attempts, attempts: nat, calls: nat, ending: Ending, n: nat)
    requires EndsWith(env, attempts, calls, ending) && n < attempts && OnlyTransient(env, n)
    ensures Decides(env, attempts, n, calls, ErrorOf(ending))
  {
    forall j: nat | j < attempts && env.result(j).Some?
      ensures IsPermanent(env.result(j).value) <==> !Transient(env.result(j))
    {
      PermanentIff(env.result(j).value);
    }
    hide IsPermanent, Transient;
    assert forall j: nat :: j < n ==> GoesOn(env, j);
    var k: nat := calls - 1;
    assert k < n ==> GoesOn(env, k);
    assert calls > n + 1 ==> GoesOn(env, n);
  }

  lemma EachDecides(env: Attempts, attempts: nat, calls: nat, ending: Ending)
    requires EndsWith(env, attempts, calls, ending)
    ensures forall n: nat :: n < attempts && OnlyTransient(env, n) ==> Decides(env, attempts, n, calls, ErrorOf(ending))
  {
    forall n: nat | n < attempts && OnlyTransient(env, n)
      ensures Decides(env, attempts, n, calls, ErrorOf(ending))
    {
      EndingDecides(env, attempts, calls, ending, n);
    }
  }

  /** withRetry. With no attempts it returns nil without a call; otherwise it stops at the first success, permanent
      error or cancelled wait, and after the last attempt. */
  method WithRetry(attempts: nat, env: Attempts) returns (last: Option<Error>, ghost calls: nat, ghost ending: Ending)
    ensures attempts == 0 ==> last == None && calls == 0
    ensures attempts > 0 ==> EndsWith(env, attempts, calls, ending) && last == ErrorOf(ending)
    ensures attempts > 0 ==> exists n: nat, e: Ending :: EndsWith(env, attempts, n, e) && last == ErrorOf(e)
    ensures forall n: nat :: n < attempts && OnlyTransient(env, n) ==> Decides(env, attempts, n, calls, last)
  {
    last, calls, ending := None, 0, Success;
    for i := 0 to attempts
      invariant forall j: nat :: j < i ==> GoesOn(env, j)
      invariant i == 0 ==> last.None? && calls == 0
      invariant i == attempts ==> i == 0
    {
      last := env.result(i);
      calls := i + 1;
      if last.None? {
        ending := Success;
        EachDecides(env, attempts, calls, ending);
        return;
      }
      if IsPermanent(last.value) || i == attempts - 1 {
        ending := if IsPermanent(last.value) then Permanently(last.value) else Spent(last.value);
        EachDecides(env, attempts, calls, ending);
        return;
      }
      if env.cancelled(i) {
        last, ending := Some(CONTEXT_DONE), Cancelled;
        EachDecides(env, attempts, calls, ending);
        return;
      }
    }
  }

  /** The description leaves no choice: the number of calls and the way the loop ended are determined. */
  lemma EndingIsUnique(env: Attempts, attempts: nat, m: nat, a: Ending, n: nat, b: Ending)
    requires EndsWith(env, attempts, m, a) && EndsWith(env, attempts, n, b)
    ensures m == n && a == b
  {
    assert m < n ==> GoesOn(env, m - 1);
    assert n < m ==> GoesOn(env, n - 1);
  }

  /** The loop succeeds if and only if some attempt within the limit does, and everything before it failed for a passing
      reason with the context still alive. */
  lemma SucceedsIff(env: Attempts, attempts: nat, calls: nat, ending: Ending)
    requires EndsWith(env, attempts, calls, ending)
    ensures ending == Success <==> exists i: nat :: i < attempts && env.result(i).None? && OnlyTransient(env, i)
  {
    if ending == Success {
      forall j: nat | j < calls - 1
        ensures Transient(env.result(j)) && !env.cancelled(j)
      {
        assert GoesOn(env, j);
        PermanentIff(env.result(j).value);
      }
      assert env.result(calls - 1).None? && OnlyTransient(env, calls - 1);
    }
    if i: nat :| i < attempts && env.result(i).None? && OnlyTransient(env, i) {
      EndingDecides(env, attempts, calls, ending, i);
    }
  }

  // ---------------------------------------------------------------- consume

  type Partition = nat

  /** One message handled to an end. */
  datatype Handled = Handled(p: Partition, offset: nat, msg: Message, env: Attempts, calls: nat, ending: Ending)

  /** What the environment does next: a producer appends; a fetch delivers the next message of a partition, or fails,
      with the context done or not; the process dies while it handles a message, or after it did. */
  datatype Event =
    | Produced(p: Partition, msg: Message)
    | Fetched(p: Partition, env: Attempts, commit: Reply)
    | FetchFailed(done: bool)
    | DiedHandling(p: Partition)
    | DiedBeforeCommit(p: Partition, env: Attempts)

  function LogOf(topic: map<Partition, seq<Message>>, p: Partition): seq<Message> {
    if p in topic then topic[p] else []
  }

  function OffsetOf(offsets: map<Partition, nat>, p: Partition): nat {
    if p in offsets then offsets[p] else 0
  }

  /** The message at this offset was handled to one of the four ends. */
  ghost predicate WasHandled(history: seq<Handled>, p: Partition, offset: nat) {
    exists i :: 0 <= i < |history| && history[i].p == p && history[i].offset == offset
  }

  ghost predicate EntryOk(topic: map<Partition, seq<Message>>, committed: map<Partition, nat>, h: Handled) {
    && h.offset < |LogOf(topic, h.p)| && h.msg == LogOf(topic, h.p)[h.offset]
    && EndsWith(h.env, 5, h.calls, h.ending)
    && h.offset <= OffsetOf(committed, h.p)
  }

  /** What is committed of a partition is a prefix of it, every message of which was handled to an end; and beyond that
      prefix at most one message was ever handled. */
  ghost predicate Disciplined(topic: map<Partition, seq<Message>>, committed: map<Partition, nat>,
      history: seq<Handled>) {
    && (forall p: Partition :: OffsetOf(committed, p) <= |LogOf(topic, p)|)
    && (forall p: Partition, o: nat :: o < OffsetOf(committed, p) ==> WasHandled(history, p, o))
    && (forall i :: 0 <= i < |history| ==> EntryOk(topic, committed, history[i]))
  }

  /** Logs only grow, and so do committed offsets and the history. */
  ghost predicate LogsGrow(a: map<Partition, seq<Message>>, b: map<Partition, seq<Message>>) {
    forall p: Partition :: LogOf(a, p) <= LogOf(b, p)
  }

  ghost predicate OffsetsGrow(a: map<Partition, nat>, b: map<Partition, nat>) {
    forall p: Partition :: OffsetOf(a, p) <= OffsetOf(b, p)
  }

  lemma LongerLogs(a: map<Partition, seq<Message>>, b: map<Partition, seq<Message>>, committed: map<Partition, nat>,
      history: seq<Handled>)
    requires Disciplined(a, committed, history) && LogsGrow(a, b)
    ensures Disciplined(b, committed, history)
  {
    hide EndsWith, WasHandled;
    forall i | 0 <= i < |history|
      ensures EntryOk(b, committed, history[i])
    {
      assert EntryOk(a, committed, history[i]);
      assert LogOf(a, history[i].p) <= LogOf(b, history[i].p);
    }
    forall p: Partition
      ensures OffsetOf(committed, p) <= |LogOf(b, p)|
    {
      assert LogOf(a, p) <= LogOf(b, p);
    }
  }

  lemma OneMoreHandled(topic: map<Partition, seq<Message>>, committed: map<Partition, nat>, history: seq<Handled>,
      h: Handled)
    requires Disciplined(topic, committed, history) && EntryOk(topic, committed, h)
    ensures Disciplined(topic, committed, history + [h]) && WasHandled(history + [h], h.p, h.offset)
  {
    hide EntryOk;
    var longer := history + [h];
    assert longer[|history|] == h;
    forall p: Partition, o: nat | o < OffsetOf(committed, p)
      ensures WasHandled(longer, p, o)
    {
      assert WasHandled(history, p, o);
      var i :| 0 <= i < |history| && history[i].p == p && history[i].offset == o;
      assert longer[i] == history[i];
    }
  }

  lemma OneMoreCommitted(topic: map<Partition, seq<Message>>, committed: map<Partition, nat>, history: seq<Handled>,
      p: Partition)
    requires Disciplined(topic, committed, history)
    requires OffsetOf(committed, p) < |LogOf(topic, p)| && WasHandled(history, p, OffsetOf(committed, p))
    ensures Disciplined(topic, committed[p := OffsetOf(committed, p) + 1], history)
  {
    hide EndsWith, WasHandled;
    var further := committed[p := OffsetOf(committed, p) + 1];
    forall i | 0 <= i < |history|
      ensures EntryOk(topic, further, history[i])
    {
      assert EntryOk(topic, committed, history[i]);
    }
  }

  /** What one event makes of the topic and the committed offsets, and whether it ends the process. A pending message
      that is fetched is committed, however its handler ended. */
  function Happened(topic: map<Partition, seq<Message>>, committed: map<Partition, nat>, e: Event)
    : (map<Partition, seq<Message>>, map<Partition, nat>, bool)
  {
    match e
    case Produced(p, msg) => (topic[p := LogOf(topic, p) + [msg]], committed, false)
    case FetchFailed(_) => (topic, committed, true)
    case Fetched(p, _, commit) =>
      if OffsetOf(committed, p) >= |LogOf(topic, p)| then (topic, committed, false)
      else
        (topic, if commit.Refused? then committed else committed[p := OffsetOf(committed, p) + 1], !commit.Fine?)
    case DiedHandling(_) => (topic, committed, true)
    case DiedBeforeCommit(p, _) => (topic, committed, OffsetOf(committed, p) < |LogOf(topic, p)|)
  }

  /** What a whole process makes of them. */
  function Lived(topic: map<Partition, seq<Message>>, committed: map<Partition, nat>, script: seq<Event>)
    : (map<Partition, seq<Message>>, map<Partition, nat>)
    decreases |script|
  {
    if script == [] then (topic, committed)
    else
      var (t, c, ended) := Happened(topic, committed, script[0]);
      if ended then (t, c) else Lived(t, c, script[1..])
  }

  /** What processes make of them that follow one another. */
  function LivedAll(topic: map<Partition, seq<Message>>, committed: map<Partition, nat>, scripts: seq<seq<Event>>)
    : (map<Partition, seq<Message>>, map<Partition, nat>)
    decreases |scripts|
  {
    if scripts == [] then (topic, committed)
    else
      var (t, c) := Lived(topic, committed, scripts[0]);
      LivedAll(t, c, scripts[1..])
  }

  /** What the process returns if this event ends it: nil only if no message could be fetched because
      the context is done. */
  function Parting(e: Event): Option<Error> {
    match e
    case Produced(_, _) => None
    case Fetched(_, _, _) => Some(Foreign("commit"))
    case FetchFailed(done) => if done then None else Some(Foreign("fetch"))
    case DiedHandling(_) => Some(Foreign("died"))
    case DiedBeforeCommit(_, _) => Some(Foreign("died"))
  }

  /** The event that ends the process, if one does. */
  function LastEvent(topic: map<Partition, seq<Message>>, committed: map<Partition, nat>, script: seq<Event>)
    : Option<Event>
    decreases |script|
  {
    if script == [] then None
    else
      var (t, c, ended) := Happened(topic, committed, script[0]);
      if ended then Some(script[0]) else LastEvent(t, c, script[1..])
  }

  class Consumer {
    var topic: map<Partition, seq<Message>>
    var committed: map<Partition, nat>
    var position: map<Partition, nat>
    ghost var history: seq<Handled>

    ghost predicate Valid()
      reads this
    {
      Disciplined(topic, committed, history)
    }

    twostate predicate Advances()
      reads this
    {
      LogsGrow(old(topic), topic) && OffsetsGrow(old(committed), committed) && old(history) <= history
    }

    constructor ()
      ensures Valid() && topic == map[] && committed == map[]
    {
      topic, committed, position, history := map[], map[], map[], [];
    }

    method Produce(p: Partition, msg: Message)
      requires Valid()
      modifies this`topic
      ensures Valid() && Advances()
      ensures topic == old(topic)[p := LogOf(old(topic), p) + [msg]]
    {
      topic := topic[p := LogOf(topic, p) + [msg]];
      LongerLogs(old(topic), topic, committed, history);
    }

    /** The retry loop over the message at the reader's position. */
    method Handle(p: Partition, env: Attempts) returns (err: Option<Error>)
      requires Valid() && OffsetOf(position, p) == OffsetOf(committed, p) < |LogOf(topic, p)|
      modifies this`position, this`history
      ensures Valid() && Advances() && WasHandled(history, p, OffsetOf(committed, p))
      ensures position == old(position)[p := OffsetOf(committed, p) + 1]
      ensures |history| == |old(history)| + 1
      ensures var h := history[|old(history)|];
        h.p == p && h.offset == OffsetOf(committed, p) && h.env == env && err == ErrorOf(h.ending)
    {
      hide Disciplined, EndsWith, WasHandled;
      var offset := OffsetOf(position, p);
      position := position[p := offset + 1];
      ghost var calls: nat, ending: Ending;
      err, calls, ending := WithRetry(ATTEMPTS, env);
      ghost var h := Handled(p, offset, LogOf(topic, p)[offset], env, calls, ending);
      OneMoreHandled(topic, committed, history, h);
      history := history + [h];
    }

    /** CommitMessages of the message just handled. */
    method CommitMessage(p: Partition, commit: Reply) returns (err: bool)
      requires Valid() && OffsetOf(committed, p) < |LogOf(topic, p)| && WasHandled(history, p, OffsetOf(committed, p))
      modifies this`committed
      ensures Valid() && Advances()
      ensures err <==> !commit.Fine?
      ensures commit.Refused? ==> committed == old(committed)
      ensures !commit.Refused? ==> committed == old(committed)[p := OffsetOf(old(committed), p) + 1]
    {
      hide Disciplined, WasHandled;
      if !commit.Refused? {
        OneMoreCommitted(topic, committed, history, p);
        committed := committed[p := OffsetOf(committed, p) + 1];
      }
      return !commit.Fine?;
    }

    /** One turn of the consume loop: fetch, handle with retries, and commit, dropped or not. */
    method ConsumeOne(e: Event) returns (stop: bool, err: Option<Error>)
      requires Valid() && forall p: Partition :: OffsetOf(position, p) == OffsetOf(committed, p)
      modifies this
      ensures Valid() && Advances()
      ensures (topic, committed, stop) == Happened(old(topic), old(committed), e)
      ensures err == if stop then Parting(e) else None
      ensures !stop ==> forall p: Partition :: OffsetOf(position, p) == OffsetOf(committed, p)
    {
      hide Disciplined, WasHandled, EndsWith;
      match e
      case Produced(p, msg) =>
        Produce(p, msg);
        return false, None;
      case FetchFailed(done) =>
        return true, if done then None else Some(Foreign("fetch"));
      case Fetched(p, env, commit) =>
        if OffsetOf(position, p) < |LogOf(topic, p)| {
          var dropped := Handle(p, env);
          var failed := CommitMessage(p, commit);
          if failed {
            return true, Some(Foreign("commit"));
          }
        }
        return false, None;
      case DiedHandling(p) =>
        return true, Some(Foreign("died"));
      case DiedBeforeCommit(p, env) =>
        if OffsetOf(position, p) < |LogOf(topic, p)| {
          var dropped := Handle(p, env);
          return true, Some(Foreign("died"));
        }
        return false, None;
    }

    /** consume, from a start at the committed offsets to its end: a failed fetch or commit, or the death of
        the process. Whether the handler succeeded or the message is dropped, it is committed before the
        next one is fetched. */
    method Consume(script: seq<Event>) returns (err: Option<Error>)
      requires Valid()
      modifies this
      ensures Valid() && Advances()
      ensures (topic, committed) == Lived(old(topic), old(committed), script)
      ensures var end := LastEvent(old(topic), old(committed), script);
        err == if end.Some? then Parting(end.value) else None
    {
      hide Disciplined, Happened;
      position := committed;
      for i := 0 to |script|
        invariant Valid() && Advances()
        invariant Lived(old(topic), old(committed), script) == Lived(topic, committed, script[i..])
        invariant LastEvent(old(topic), old(committed), script) == LastEvent(topic, committed, script[i..])
        invariant forall p: Partition :: OffsetOf(position, p) == OffsetOf(committed, p)
      {
        assert script[i..][0] == script[i] && script[i..][1..] == script[i + 1..];
        var stop;
        stop, err := ConsumeOne(script[i]);
        if stop {
          return;
        }
      }
      return None;
    }

    /** Any number of processes one after the other, each starting from the last committed offsets. */
    method Lifetimes(scripts: seq<seq<Event>>)
      requires Valid()
      modifies this
      ensures Valid() && Advances()
      ensures (topic, committed) == LivedAll(old(topic), old(committed), scripts)
    {
      hide Disciplined, Lived;
      for i := 0 to |scripts|
        invariant Valid() && Advances()
        invariant LivedAll(old(topic), old(committed), scripts) == LivedAll(topic, committed, scripts[i..])
      {
        assert scripts[i..][0] == scripts[i] && scripts[i..][1..] == scripts[i + 1..];
        var err := Consume(scripts[i]);
      }
    }
  }

  /** Over whole runs with restarts: every committed message was handled at least once and ended in success, a permanent
      error, all attempts spent, or cancellation; and no message beyond the first uncommitted one was ever touched. */
  lemma CommittedWasHandled(topic: map<Partition, seq<Message>>, committed: map<Partition, nat>, history: seq<Handled>,
      p: Partition, o: nat)
    requires Disciplined(topic, committed, history) && o < OffsetOf(committed, p)
    ensures o < |LogOf(topic, p)|
    ensures exists i ::
      && 0 <= i < |history| && history[i].p == p && history[i].offset == o && history[i].msg == LogOf(topic, p)[o]
      && EndsWith(history[i].env, 5, history[i].calls, history[i].ending)
    ensures forall i :: 0 <= i < |history| && history[i].p == p ==> history[i].offset <= OffsetOf(committed, p)
  {
    hide EndsWith;
    assert WasHandled(history, p, o);
    var i :| 0 <= i < |history| && history[i].p == p && history[i].offset == o;
    assert EntryOk(topic, committed, history[i]);
  }
}
