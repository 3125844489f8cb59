/** The object store client of internal/storage/s3.go: S3.Delete removes its keys one at a time and stops at the first
    error, which may be reported although the object is gone. */
module Bucket {
  import opened Text
  import opened Errors
  import opened Domain
  import opened Images
  import opened Protocol
  import opened Invariant
  import opened Effects
  import opened Steps

  /** The objects that a Delete of these keys is to remove. */
  function Targets(keys: seq<string>): set<string> {
    set i | 0 <= i < |keys| && TrimSpace(keys[i]) != "" :: TrimSpace(keys[i])
  }

  /** The bucket lost some of these objects, and nothing else happened to it. */
  ghost predicate LostOnly(before: map<string, Object>, after: map<string, Object>, keys: set<string>) {
    after.Keys <= before.Keys && before.Keys - after.Keys <= keys && forall k <- after.Keys :: after[k] == before[k]
  }

  class S3 {
    const replies: nat -> Reply
    var objects: map<string, Object>
    var requests: nat

    constructor (replies: nat -> Reply)
      ensures objects == map[] && requests == 0 && this.replies == replies
    {
      this.replies, this.objects, this.requests := replies, map[], 0;
    }

    /** PutObject overwrites. */
    method Upload(key: string, mime: string, data: Bytes) returns (err: bool)
      modifies this
      ensures !err ==> objects == old(objects)[key := Object(data, mime)]
      ensures err ==> objects == old(objects) || objects == old(objects)[key := Object(data, mime)]
      ensures requests == old(requests) + 1 && (err <==> !replies(old(requests)).Fine?)
    {
      var reply := replies(requests);
      requests := requests + 1;
      if !reply.Refused? {
        objects := objects[key := Object(data, mime)];
      }
      return !reply.Fine?;
    }

    /** Removing an object that is not there is no error. */
    method RemoveObject(key: string) returns (err: bool)
      modifies this
      ensures !err ==> objects == old(objects) - {key}
      ensures err ==> objects == old(objects) || objects == old(objects) - {key}
      ensures requests == old(requests) + 1 && (err <==> !replies(old(requests)).Fine?)
    {
      var reply := replies(requests);
      requests := requests + 1;
      if !reply.Refused? {
        objects := objects - {key};
      }
      return !reply.Fine?;
    }

    /** Delete. nil exactly if every request was answered, and then every target is gone; on an error the targets before
        the failing key are gone, that key's own may be, and all others are as they were. */
    method Delete(keys: seq<string>) returns (err: bool, stopped: nat)
      modifies this
      ensures stopped <= |keys| && (err <==> stopped < |keys|)
      ensures !err ==> objects == old(objects) - Targets(keys)
      ensures err ==>
        && TrimSpace(keys[stopped]) != ""
        && (objects == old(objects) - Targets(keys[..stopped])
          || objects == old(objects) - Targets(keys[..stopped + 1]))
      ensures forall n :: old(requests) <= n < requests && !replies(n).Fine? ==> err && n == requests - 1
      ensures old(requests) <= requests && (err ==> old(requests) < requests && !replies(requests - 1).Fine?)
    {
      hide TrimSpace, Targets;
      NoTargetYet(objects, keys);
      for i := 0 to |keys|
        invariant objects == old(objects) - Targets(keys[..i])
        invariant old(requests) <= requests
        invariant forall n :: old(requests) <= n < requests ==> replies(n).Fine?
      {
        OneMoreRemoved(old(objects), keys, i);
        var key := TrimSpace(keys[i]);
        if key == "" {
          continue;
        }
        var failed := RemoveObject(key);
        if failed {
          return true, i;
        }
      }
      assert keys[..|keys|] == keys;
      return false, |keys|;
    }

    /** Delete called again until it succeeds, as the worker's retry loop does. Whatever the earlier calls left undone,
        the outcome is that of one call that never failed. */
    method DeleteWithRetries(keys: seq<string>, attempts: nat) returns (err: bool)
      modifies this
      ensures !err && attempts > 0 ==> objects == old(objects) - Targets(keys)
      ensures LostOnly(old(objects), objects, Targets(keys))
      ensures err ==> exists n :: old(requests) <= n < requests && !replies(n).Fine?
      ensures attempts == 0 ==> !err
    {
      err := false;
      for i := 0 to attempts
        invariant if i > 0 then err && exists n :: old(requests) <= n < requests && !replies(n).Fine? else !err
        invariant old(requests) <= requests
        invariant LostOnly(old(objects), objects, Targets(keys))
      {
        ghost var left := objects;
        var stopped;
        err, stopped := Delete(keys);
        if err {
          PrefixTargets(keys, stopped);
          PrefixTargets(keys, stopped + 1);
        } else {
          assert objects == old(objects) - Targets(keys);
          return;
        }
      }
    }
  }

  lemma OneMoreTarget(keys: seq<string>, i: nat)
    requires i < |keys|
    ensures var key := TrimSpace(keys[i]);
      Targets(keys[..i + 1]) == if key == "" then Targets(keys[..i]) else Targets(keys[..i]) + {key}
  {
    hide TrimSpace;
    var longer := keys[..i + 1];
    assert forall j :: 0 <= j < i ==> longer[j] == keys[..i][j];
    assert longer[i] == keys[i];
  }

  lemma NoTargetYet(objects: map<string, Object>, keys: seq<string>)
    ensures objects - Targets(keys[..0]) == objects
  {
    assert Targets(keys[..0]) == {};
  }

  lemma OneMoreRemoved(before: map<string, Object>, keys: seq<string>, i: nat)
    requires i < |keys|
    ensures var key := TrimSpace(keys[i]);
      && (key == "" ==> before - Targets(keys[..i + 1]) == before - Targets(keys[..i]))
      && (key != "" ==> before - Targets(keys[..i + 1]) == before - Targets(keys[..i]) - {key})
  {
    hide TrimSpace, Targets;
    OneMoreTarget(keys, i);
  }

  lemma PrefixTargets(keys: seq<string>, i: nat)
    requires i <= |keys|
    ensures Targets(keys[..i]) <= Targets(keys)
  {
    hide TrimSpace;
    forall k <- Targets(keys[..i])
      ensures k in Targets(keys)
    {
      var j :| 0 <= j < i && TrimSpace(keys[..i][j]) != "" && TrimSpace(keys[..i][j]) == k;
      assert keys[j] == keys[..i][j];
    }
  }

  // ---------------------------------------------------------------- what this means for the keys of a delete event

  /** For the keys of an avatar's delete event trimming changes nothing: the targets are exactly the keys. */
  lemma EventTargets(id: AvatarId, row: Row, keys: seq<string>)
    requires RowOk(id, row) && KeysOk(id, row, keys)
    ensures Targets(keys) == set k | k in keys
    ensures row.key in Targets(keys) && Targets(keys) <= ObjectKeys(id, row)
  {
    hide TrimSpace, RowOk, ObjectKeys;
    forall i | 0 <= i < |keys|
      ensures TrimSpace(keys[i]) == keys[i] != ""
    {
      ObjectKeyIsTrimmed(id, row, keys[i]);
    }
  }

  /** Under any pattern of failures, a Delete of an avatar's event touches no object of another avatar, whatever the
      user ids look like; and if it reports nil every key of the event is gone. */
  lemma DeleteIsConfined(id: AvatarId, row: Row, keys: seq<string>, before: map<string, Object>,
      after: map<string, Object>, p: Place)
    requires RowOk(id, row) && KeysOk(id, row, keys) && LostOnly(before, after, Targets(keys))
    requires p.Proper() && p.id != id && p.Key() in before
    ensures p.Key() in after && after[p.Key()] == before[p.Key()]
  {
    hide TrimSpace, RowOk, ObjectKeys, Targets, KeysOk, Locate;
    EventTargets(id, row, keys);
    if p.Key() in Targets(keys) {
      OwnerOfObject(id, row, p.Key());
      KeyReadsBack(p);
      assert false;
    }
  }

  lemma NilRemovesAll(id: AvatarId, row: Row, keys: seq<string>, before: map<string, Object>,
      after: map<string, Object>, i: nat)
    requires RowOk(id, row) && KeysOk(id, row, keys) && after == before - Targets(keys) && i < |keys|
    ensures keys[i] !in after && row.key !in after
  {
    hide TrimSpace, RowOk, ObjectKeys, Targets, KeysOk;
    EventTargets(id, row, keys);
  }

  lemma AnnouncedKeys(id: AvatarId, row: Row, order: seq<string>)
    requires RowOk(id, row) && IsOrdering(order, row.thumbs.Keys)
    ensures Targets(DeleteKeys(row, order)) == if row.thumbs == map[] then {row.key} else ObjectKeys(id, row)
  {
    hide TrimSpace, ObjectKeys, RowOk, KeysOk, Targets;
    DeleteKeysAre(id, row, order);
    var keys := DeleteKeys(row, order);
    EventTargets(id, row, keys);
    if row.thumbs == map[] {
      assert order == [];
      assert keys == [row.key];
    }
  }

  /** Go iterates over the thumbnail map in any order; the set of objects that the delete event announces does
      not depend on it. */
  lemma OrderDoesNotMatter(id: AvatarId, row: Row, order: seq<string>, other: seq<string>)
    requires RowOk(id, row) && IsOrdering(order, row.thumbs.Keys) && IsOrdering(other, row.thumbs.Keys)
    ensures Targets(DeleteKeys(row, order)) == Targets(DeleteKeys(row, other))
    ensures row.thumbs != map[] ==> Targets(DeleteKeys(row, order)) == ObjectKeys(id, row)
  {
    hide TrimSpace, ObjectKeys, RowOk, KeysOk, IsOrdering, DeleteKeys, ThumbKey;
    AnnouncedKeys(id, row, order);
    AnnouncedKeys(id, row, other);
  }
}
