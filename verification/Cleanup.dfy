/** What is left in the bucket of an avatar whose delete message has been handled. */
module Cleanup {
  import opened Domain
  import opened Images
  import opened Headers
  import opened Protocol
  import opened Invariant
  import opened Effects
  import opened Steps
  import opened Guarantees

  ghost predicate NothingLeft(s: State, id: string) {
    forall key <- s.bucket.Keys :: Owner(key) != id
  }

  /** Once an avatar's delete message has been handled without error, its original is absent in all later states, and
      only its two canonical thumbnails can be in the bucket. */
  lemma OriginalStaysAbsent(lib: Libraries, s: State, id: string, actions: seq<Action>, key: string)
    requires Lawful(lib) && Reachable(lib, s) && id in s.cleaned && Legal(lib, s, actions)
    requires key in After(lib, s, actions).bucket && Owner(key) == id
    ensures id in s.rows && !s.rows[id].Live()
    ensures key == ThumbKey(id, SIZE_100, s.rows[id].mime) || key == ThumbKey(id, SIZE_300, s.rows[id].mime)
  {
    hide Lawful, Reachable, Inv, Legal, After, Owner, ThumbKey;
    ReachableHasInv(lib, s);
    ExecutionKeeps(lib, s, actions);
    ExecutionEvolves(lib, s, actions);
    var later := After(lib, s, actions);
    CleanedFacts(lib, s, id);
    CleanedFacts(lib, later, id);
    StoredHere(lib, later, key);
  }

  lemma CleanedFacts(lib: Libraries, s: State, id: string)
    requires Inv(lib, s) && id in s.cleaned
    ensures id in s.rows && !s.rows[id].Live() && s.rows[id].key !in s.bucket
    ensures id in s.sealed ==> Covers(s.bucket, ObjectKeys(id, s.rows[id]), [])
  {
    hide TablesOk, TopicsOk, RunsOk, BucketOk, LiveOk, SealedOk;
  }

  lemma StoredHere(lib: Libraries, s: State, key: string)
    requires Inv(lib, s) && key in s.bucket && Owner(key) in s.rows
    ensures key in ObjectKeys(Owner(key), s.rows[Owner(key)])
    ensures var row := s.rows[Owner(key)];
      key == row.key || key == ThumbKey(Owner(key), SIZE_100, row.mime)
        || key == ThumbKey(Owner(key), SIZE_300, row.mime)
  {
    hide Owner, ThumbnailObjectKey, IsOriginal, TopicsOk, RunsOk, LiveOk, SealedOk, CleanedOk, BucketOk, TablesOk,
      UploadsApart;
    StoredObject(lib, s.rows, s.used, s.bucket, key);
  }

  /** If moreover the avatar was sealed, nothing of it is left, in this and all later states. */
  lemma SealedLeavesNothing(lib: Libraries, s: State, id: string, actions: seq<Action>)
    requires Lawful(lib) && Reachable(lib, s) && id in s.cleaned && id in s.sealed && Legal(lib, s, actions)
    ensures NothingLeft(After(lib, s, actions), id)
  {
    hide Lawful, Reachable, Inv, Legal, After, Owner, ThumbKey, ObjectKeys;
    ReachableHasInv(lib, s);
    ExecutionKeeps(lib, s, actions);
    ExecutionEvolves(lib, s, actions);
    var later := After(lib, s, actions);
    CleanedFacts(lib, later, id);
    forall key <- later.bucket.Keys
      ensures Owner(key) != id
    {
      if Owner(key) == id {
        StoredHere(lib, later, key);
      }
    }
  }

  /** A delete that reads the row when it already has its thumbnails announces every object the avatar has... */
  lemma ThumbnailsAreAnnounced(lib: Libraries, s: State, r: RunId, t: Turn)
    requires Lawful(lib) && Reachable(lib, s) && r in s.runs && s.runs[r].DeleteRead? && Enabled(lib, s, Step(r, t))
    requires var run := s.runs[r];
      && t.ok && run.id in s.rows && s.rows[run.id].Live() && s.rows[run.id].user == run.user
      && s.rows[run.id].thumbs != map[]
      && IsOrdering(t.order, s.rows[run.id].thumbs.Keys)
    ensures var next := Next(lib, s, Step(r, t));
      && r in next.runs && next.runs[r].DeleteTx?
      && forall k <- ObjectKeys(s.runs[r].id, s.rows[s.runs[r].id]) :: k in next.runs[r].keys
  {
    hide Lawful, Reachable, Inv, TraceOnly, RowOk, ObjectKeys, DeleteKeys;
    ReachableHasInv(lib, s);
    RowHolds(lib, s, s.runs[r].id);
    DeleteKeysAre(s.runs[r].id, s.rows[s.runs[r].id], t.order);
  }

  /** ...and if no run that may still put a thumbnail holds a claim when the transaction commits,
      the avatar is sealed. */
  lemma QuietDeleteSeals(lib: Libraries, s: State, r: RunId, t: Turn)
    requires Lawful(lib) && Reachable(lib, s) && r in s.runs && s.runs[r].DeleteTx? && Enabled(lib, s, Step(r, t))
    requires var run := s.runs[r];
      && t.ok && run.id in s.rows && s.rows[run.id].Live() && s.rows[run.id].user == run.user
      && (forall k <- ObjectKeys(run.id, s.rows[run.id]) :: k in run.keys)
      && (forall q <- s.runs.Keys :: !s.runs[q].HoldsFor(run.id))
    ensures s.runs[r].id in Next(lib, s, Step(r, t)).sealed
  {
    hide InsertOutbox, ObjectKeys, Reachable, TraceOnly;
    assert forall q <- s.runs.Keys :: s.runs[q].MayPutFor(s.runs[r].id) ==> s.runs[q].HoldsFor(s.runs[r].id);
    assert Seals(s, s.runs[r].id, s.runs[r].keys);
  }

  /** A deletion from end to end: it reads the row with its thumbnails, others act meanwhile, its transaction
      commits while no run holds a claim, and others act again. Whenever its message has been handled by then,
      nothing of the avatar is left. */
  lemma QuietDeletionLeavesNothing(lib: Libraries, s: State, r: RunId, t: Turn, meanwhile: seq<Action>, u: Turn,
      later: seq<Action>)
    requires Lawful(lib) && Reachable(lib, s) && r in s.runs && s.runs[r].DeleteRead? && Enabled(lib, s, Step(r, t))
    requires var run := s.runs[r];
      && t.ok && run.id in s.rows && s.rows[run.id].Live() && s.rows[run.id].user == run.user
      && s.rows[run.id].thumbs != map[]
      && IsOrdering(t.order, s.rows[run.id].thumbs.Keys)
    requires Legal(lib, Next(lib, s, Step(r, t)), meanwhile)
    requires var read := Next(lib, s, Step(r, t)); var v := After(lib, read, meanwhile); var id := s.runs[r].id;
      && r in read.runs && r in v.runs && v.runs[r] == read.runs[r] && v.runs[r].DeleteTx? && v.runs[r].id == id
      && v.runs[r].user == s.runs[r].user && Enabled(lib, v, Step(r, u)) && u.ok && id in v.rows && v.rows[id].Live()
      && (forall q <- v.runs.Keys :: !v.runs[q].HoldsFor(id))
      && Legal(lib, Next(lib, v, Step(r, u)), later)
    ensures var v := After(lib, Next(lib, s, Step(r, t)), meanwhile);
      var w := After(lib, Next(lib, v, Step(r, u)), later);
      s.runs[r].id in w.cleaned ==> NothingLeft(w, s.runs[r].id)
  {
    hide Lawful, Reachable, Legal, After, Inv, ObjectKeys, Next, Enabled, NothingLeft;
    var id := s.runs[r].id;
    var read := Next(lib, s, Step(r, t));
    var v := After(lib, read, meanwhile);
    var gone := Next(lib, v, Step(r, u));
    ThumbnailsAreAnnounced(lib, s, r, t);
    StepIsReachable(lib, s, Step(r, t));
    MoreIsReachable(lib, read, meanwhile);
    SameObjects(lib, s, Step(r, t), read, meanwhile, v, id);
    QuietDeleteSeals(lib, v, r, u);
    StepIsReachable(lib, v, Step(r, u));
    SealedForGood(lib, gone, later, id);
  }

  /** An avatar's objects keep their names. */
  lemma SameObjects(lib: Libraries, s: State, a: Action, read: State, meanwhile: seq<Action>, v: State, id: AvatarId)
    requires Lawful(lib) && Reachable(lib, s) && id in s.rows && Enabled(lib, s, a) && read == Next(lib, s, a)
    requires Legal(lib, read, meanwhile) && v == After(lib, read, meanwhile) && id in v.rows
    ensures ObjectKeys(id, v.rows[id]) == ObjectKeys(id, s.rows[id]) && v.rows[id].user == s.rows[id].user
  {
    hide Lawful, Reachable, Legal, After, Inv, Next, Enabled, OutboxKeeps, ThumbnailObjectKey, ExtForMime;
    ReachableHasInv(lib, s);
    NextEvolves(lib, s, a);
    NextKeeps(lib, s, a);
    ExecutionEvolves(lib, read, meanwhile);
  }

  lemma SealedForGood(lib: Libraries, s: State, actions: seq<Action>, id: AvatarId)
    requires Lawful(lib) && Reachable(lib, s) && id in s.sealed && Legal(lib, s, actions)
    ensures id in After(lib, s, actions).cleaned ==> NothingLeft(After(lib, s, actions), id)
  {
    hide Lawful, Reachable, Legal, After, Inv, NothingLeft;
    ReachableHasInv(lib, s);
    ExecutionEvolves(lib, s, actions);
    var w := After(lib, s, actions);
    MoreIsReachable(lib, s, actions);
    if id in w.cleaned {
      AfterNothing(lib, w);
      SealedLeavesNothing(lib, w, id, []);
    }
  }
}
