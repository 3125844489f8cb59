/** Rounds that each retry the oldest few open entries, some of which can never be finished: `FlushOutbox`
    over the outbox and `RecoverStuck` over the avatars. How many rounds finish all that can be finished,
    and exactly who starves. */
module Progress {

  /** An answer to `ORDER BY age LIMIT limit` over the open entries. */
  ghost predicate IsPick<T>(open: set<T>, age: map<T, nat>, limit: nat, pick: set<T>) {
    && open <= age.Keys && pick <= open
    && |pick| == (if |open| < limit then |open| else limit)
    && forall a <- pick, b <- open :: b !in pick ==> age[a] <= age[b]
  }

  /** One round: what was picked is finished, unless it is poison. */
  ghost predicate Round<T(!new)>(open: set<T>, age: map<T, nat>, limit: nat, poison: set<T>, next: set<T>) {
    exists pick: set<T> :: IsPick(open, age, limit, pick) && next == open - (pick - poison)
  }

  ghost predicate Rounds<T(!new)>(trace: seq<set<T>>, age: map<T, nat>, limit: nat, poison: set<T>) {
    |trace| > 0 && forall i :: 0 <= i < |trace| - 1 ==> Round(trace[i], age, limit, poison, trace[i + 1])
  }

  lemma RestOfRounds<T(!new)>(trace: seq<set<T>>, age: map<T, nat>, limit: nat, poison: set<T>)
    requires Rounds(trace, age, limit, poison) && |trace| > 1
    ensures Round(trace[0], age, limit, poison, trace[1]) && Rounds(trace[1..], age, limit, poison)
    ensures trace[1..][0] == trace[1] && trace[1..][|trace| - 2] == trace[|trace| - 1]
  {
    hide Round;
    var rest := trace[1..];
    forall i | 0 <= i < |rest| - 1
      ensures Round(rest[i], age, limit, poison, rest[i + 1])
    {
      assert Round(trace[i + 1], age, limit, poison, trace[i + 1 + 1]);
    }
  }

  // ---------------------------------------------------------------- finite sets

  lemma {:induction false} SubsetSize<T>(a: set<T>, b: set<T>)
    requires a <= b
    ensures |a| <= |b| && (|a| == |b| ==> a == b)
  {
    if a != {} {
      var x :| x in a;
      SubsetSize(a - {x}, b - {x});
    }
  }

  lemma Difference<T>(a: set<T>, b: set<T>)
    requires a - b == {} && b <= a
    ensures a == b
  {
    assert forall x <- a :: x in b || x in a - b;
  }

  lemma AllPoison<T>(a: set<T>, poison: set<T>)
    ensures a - poison == {} ==> a == a * poison
  {
    assert forall x <- a :: x in poison || x in a - poison;
  }

  lemma Split<T>(a: set<T>, poison: set<T>)
    ensures |a| == |a * poison| + |a - poison|
  {
    assert a == (a * poison) + (a - poison);
  }

  // ---------------------------------------------------------------- the bound

  lemma RoundFinishes<T(!new)>(open: set<T>, age: map<T, nat>, limit: nat, poison: set<T>, next: set<T>)
    requires Round(open, age, limit, poison, next) && |open * poison| < limit
    ensures next * poison == open * poison
    ensures |next - poison| == 0 || |next - poison| + (limit - |open * poison|) <= |open - poison|
  {
    var pick :| IsPick(open, age, limit, pick) && next == open - (pick - poison);
    PickSplits(open, pick, poison, next);
    if |open| < limit {
      SubsetSize(pick, open);
      assert next - poison == {};
    }
  }

  lemma PickSplits<T>(open: set<T>, pick: set<T>, poison: set<T>, next: set<T>)
    requires pick <= open && next == open - (pick - poison)
    ensures next * poison == open * poison
    ensures |open - poison| == |next - poison| + |pick - poison| && |pick| <= |open * poison| + |pick - poison|
  {
    Split(pick, poison);
    SubsetSize(pick * poison, open * poison);
    assert open - poison == (next - poison) + (pick - poison);
  }

  /** With q < limit entries that can never be finished and g others, any n rounds with n * (limit - q) >= g, hence
      ceil(g / (limit - q)) of them, finish exactly the g others. */
  lemma {:induction false} RoundsFinish<T(!new)>(trace: seq<set<T>>, age: map<T, nat>, limit: nat, poison: set<T>)
    requires Rounds(trace, age, limit, poison) && |trace[0] * poison| < limit
    requires (|trace| - 1) * (limit - |trace[0] * poison|) >= |trace[0] - poison|
    ensures trace[|trace| - 1] == trace[0] * poison
    decreases |trace|
  {
    assert trace[0] - poison != {} ==> |trace| > 1;
    hide Rounds, Round;
    if trace[0] - poison == {} {
      NothingReopens(trace, age, limit, poison);
    } else {
      var rest := trace[1..];
      RestOfRounds(trace, age, limit, poison);
      RoundFinishes(trace[0], age, limit, poison, trace[1]);
      if |trace[1] - poison| == 0 {
        NothingReopens(rest, age, limit, poison);
      } else {
        OneRoundLess(|trace| - 1, limit - |trace[0] * poison|, |trace[0] - poison|, |trace[1] - poison|);
        RoundsFinish(rest, age, limit, poison);
      }
    }
  }

  lemma OneRoundLess(n: nat, served: nat, g: nat, g': nat)
    requires n * served >= g && g' + served <= g && n > 0
    ensures (n - 1) * served >= g'
  {
  }

  lemma RoundShrinks<T(!new)>(open: set<T>, age: map<T, nat>, limit: nat, poison: set<T>, next: set<T>)
    requires Round(open, age, limit, poison, next)
    ensures next <= open && next * poison == open * poison
  {
  }

  lemma {:induction false} NothingReopens<T(!new)>(trace: seq<set<T>>, age: map<T, nat>, limit: nat, poison: set<T>)
    requires Rounds(trace, age, limit, poison)
    ensures trace[|trace| - 1] <= trace[0] && trace[|trace| - 1] * poison == trace[0] * poison
    ensures trace[0] - poison == {} ==> trace[|trace| - 1] == trace[0] * poison
    decreases |trace|
  {
    assert |trace| > 0;
    hide Rounds, Round;
    if |trace| == 1 {
      AllPoison(trace[0], poison);
    } else {
      var rest := trace[1..];
      RestOfRounds(trace, age, limit, poison);
      RoundShrinks(trace[0], age, limit, poison, trace[1]);
      assert trace[1] - poison <= trace[0] - poison;
      NothingReopens(rest, age, limit, poison);
    }
  }

  // ---------------------------------------------------------------- who starves

  /** The entries that can never be finished and may be listed before `k`. */
  function Blockers<T>(open: set<T>, age: map<T, nat>, poison: set<T>, k: T): set<T>
    requires k in age
  {
    set j <- open * poison | j in age && age[j] <= age[k]
  }

  lemma RoundServes<T(!new)>(open: set<T>, age: map<T, nat>, limit: nat, poison: set<T>, next: set<T>, k: T)
    requires Round(open, age, limit, poison, next) && k in next && k !in poison && k in age
    requires |Blockers(open, age, poison, k)| < limit
    ensures k in open && Blockers(next, age, poison, k) == Blockers(open, age, poison, k)
    ensures |next - poison| < |open - poison|
  {
    var pick :| IsPick(open, age, limit, pick) && next == open - (pick - poison);
    assert k in open && k !in pick;
    SubsetSize(pick, open);
    assert |pick| == limit;
    assert pick * poison <= Blockers(open, age, poison, k);
    SubsetSize(pick * poison, Blockers(open, age, poison, k));
    Split(pick, poison);
    assert |pick - poison| > 0;
    assert next - poison == (open - poison) - (pick - poison);
    var x :| x in pick - poison;
    SubsetSize(next - poison, (open - poison) - {x});
  }

  lemma {:induction false} RoundsServe<T(!new)>(trace: seq<set<T>>, age: map<T, nat>, limit: nat, poison: set<T>, k: T)
    requires Rounds(trace, age, limit, poison) && k in trace[|trace| - 1] && k !in poison && k in age
    requires |Blockers(trace[0], age, poison, k)| < limit
    ensures |trace| <= |trace[0] - poison|
    decreases |trace|
  {
    NothingReopens(trace, age, limit, poison);
    assert k in trace[0] - poison;
    if |trace| > 1 {
      var rest := trace[1..];
      RestOfRounds(trace, age, limit, poison);
      NothingReopens(rest, age, limit, poison);
      RoundServes(trace[0], age, limit, poison, trace[1], k);
      RoundsServe(rest, age, limit, poison, k);
    }
  }

  lemma {:induction false} PickExists<T(!new)>(open: set<T>, age: map<T, nat>, limit: nat) returns (pick: set<T>)
    requires open <= age.Keys
    ensures IsPick(open, age, limit, pick)
    decreases limit
  {
    if limit == 0 || open == {} {
      pick := {};
    } else {
      var before := PickExists(open, age, limit - 1);
      if before == open {
        pick := before;
      } else {
        SubsetSize(before, open);
        if open - before == {} {
          Difference(open, before);
          assert false;
        }
        var x := OldestOf(open - before, age);
        pick := before + {x};
      }
    }
  }

  lemma {:induction false} OldestOf<T(!new)>(ids: set<T>, age: map<T, nat>) returns (x: T)
    requires ids != {} && ids <= age.Keys
    ensures x in ids && forall y <- ids :: age[x] <= age[y]
    decreases ids
  {
    x :| x in ids;
    if ids != {x} {
      var y := OldestOf(ids - {x}, age);
      x := if age[x] <= age[y] then x else y;
    }
  }

  /** With as many blockers as the limit, a round can pass `k` over. */
  lemma PassedOver<T(!new)>(open: set<T>, age: map<T, nat>, limit: nat, poison: set<T>, k: T)
    returns (pick: set<T>, next: set<T>)
    requires open <= age.Keys && k in open && k !in poison && |Blockers(open, age, poison, k)| >= limit
    ensures IsPick(open, age, limit, pick) && k !in pick && next == open - (pick - poison)
    ensures Round(open, age, limit, poison, next) && k in next
    ensures Blockers(next, age, poison, k) == Blockers(open, age, poison, k)
  {
    pick := PickExists(open - {k}, age, limit);
    var blockers := Blockers(open, age, poison, k);
    SubsetSize(blockers, open - {k});
    forall a <- pick
      ensures age[a] <= age[k]
    {
      if age[a] > age[k] {
        assert blockers <= pick - {a};
        SubsetSize(blockers, pick - {a});
      }
    }
    assert IsPick(open, age, limit, pick);
    next := open - (pick - poison);
  }
}
