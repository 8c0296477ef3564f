/** The selection rule of the LIFOPR departments in both drafts: the waiting list is
    sorted in place by `key` with `reverse=True` (Python's sort is stable, so clients of
    equal priority keep their relative order) and then `pop()` removes the LAST element.
    The client removed therefore has the LOWEST priority, and among those of lowest
    priority it is the one that came last in the list. */
module PriorityPick {

  /** Non-increasing by key. */
  ghost predicate SortedDesc<T>(s: seq<T>, key: T -> int)
  {
    forall i, j :: 0 <= i < j < |s| ==> key(s[i]) >= key(s[j])
  }

  /** The elements of `s` whose key is `v`, in their order in `s`. A sort is stable
      when it leaves this subsequence unchanged for every key. */
  function WithKey<T>(s: seq<T>, key: T -> int, v: int): seq<T>
  {
    if |s| == 0 then [] else (if key(s[0]) == v then [s[0]] else []) + WithKey(s[1..], key, v)
  }

  /** `a` and `b` list the elements of every key in the same order. */
  ghost predicate SameOrderPerKey<T>(a: seq<T>, b: seq<T>, key: T -> int)
  {
    forall v :: WithKey(a, key, v) == WithKey(b, key, v)
  }

  /** Stable insertion of an element that precedes every element of `s` in the
      original list: it goes in front of the first element whose key is not greater, so
      it passes only elements of strictly greater key. */
  function InsertDesc<T>(x: T, s: seq<T>, key: T -> int): (r: seq<T>)
    ensures multiset(r) == multiset(s) + multiset{x}
    ensures |r| == |s| + 1
    ensures SameOrderPerKey(r, [x] + s, key)
  {
    if |s| == 0 || key(x) >= key(s[0]) then [x] + s
    else
      assert s == [s[0]] + s[1..];
      var r := [s[0]] + InsertDesc(x, s[1..], key);
      assert forall v :: WithKey(r, key, v) == WithKey([x] + s, key, v) by {
        forall v ensures WithKey(r, key, v) == WithKey([x] + s, key, v) {
          InsertPassesGreater(x, s, key, v, InsertDesc(x, s[1..], key));
        }
      }
      r
  }

  /** Moving `x` past a head of different key does not change any key's subsequence. */
  lemma InsertPassesGreater<T>(x: T, s: seq<T>, key: T -> int, v: int, tail: seq<T>)
    requires |s| > 0 && key(x) < key(s[0])
    requires WithKey(tail, key, v) == WithKey([x] + s[1..], key, v)
    ensures WithKey([s[0]] + tail, key, v) == WithKey([x] + s, key, v)
  {
    assert ([s[0]] + tail)[1..] == tail;
    assert ([x] + s)[1..] == s;
    assert ([x] + s[1..])[1..] == s[1..];
  }

  /** `sort(key=..., reverse=True)`: stable descending sort, built from the back. */
  function SortDesc<T>(s: seq<T>, key: T -> int): (r: seq<T>)
    ensures multiset(r) == multiset(s)
    ensures |r| == |s|
    ensures SortedDesc(r, key)
    ensures SameOrderPerKey(r, s, key)
  {
    if |s| == 0 then []
    else
      assert s == [s[0]] + s[1..];
      var rest := SortDesc(s[1..], key);
      InsertKeepsSorted(s[0], rest, key);
      var r := InsertDesc(s[0], rest, key);
      assert forall v :: WithKey(r, key, v) == WithKey(s, key, v) by {
        forall v ensures WithKey(r, key, v) == WithKey(s, key, v) {
          assert ([s[0]] + rest)[1..] == rest;
        }
      }
      r
  }

  lemma {:induction false} InsertKeepsSorted<T>(x: T, s: seq<T>, key: T -> int)
    requires SortedDesc(s, key)
    ensures SortedDesc(InsertDesc(x, s, key), key)
  {
    if |s| > 0 && key(x) < key(s[0]) {
      InsertKeepsSorted(x, s[1..], key);
      var tail := InsertDesc(x, s[1..], key);
      assert multiset(tail) == multiset(s[1..]) + multiset{x};
      forall j | 0 <= j < |tail|
        ensures key(s[0]) >= key(tail[j])
      {
        assert tail[j] in multiset(tail);
        if tail[j] == x {
        } else {
          assert tail[j] in multiset(s[1..]);
          var k :| 0 <= k < |s[1..]| && s[1..][k] == tail[j];
          assert s[k + 1] == tail[j];
        }
      }
    }
  }

  /** Index of the last element of minimal key. */
  function LastMinIndex<T>(s: seq<T>, key: T -> int): (k: nat)
    requires |s| > 0
    ensures k < |s|
    ensures forall i :: 0 <= i < |s| ==> key(s[k]) <= key(s[i])
    ensures forall i :: k < i < |s| ==> key(s[k]) < key(s[i])
  {
    if |s| == 1 then 0
    else
      var j := 1 + LastMinIndex(s[1..], key);
      if key(s[0]) < key(s[j]) then 0 else j
  }

  lemma LastMinIndexStep<T>(s: seq<T>, key: T -> int)
    requires |s| > 1
    ensures s[LastMinIndex(s, key)]
      == (if key(s[0]) < key(s[1..][LastMinIndex(s[1..], key)]) then s[0] else s[1..][LastMinIndex(s[1..], key)])
  {
  }

  /** The tail of a sorted insertion: the new element ends up last exactly when it is
      strictly below the current last element. */
  lemma {:induction false} LastOfInsert<T>(x: T, s: seq<T>, key: T -> int)
    requires |s| > 0 && SortedDesc(s, key)
    ensures InsertDesc(x, s, key)[|s|] == (if key(x) < key(s[|s| - 1]) then x else s[|s| - 1])
  {
    if key(x) >= key(s[0]) {
      assert key(s[0]) >= key(s[|s| - 1]) || |s| == 1;
    } else if |s| > 1 {
      LastOfInsert(x, s[1..], key);
    }
  }

  lemma {:induction false} LastOfSort<T>(s: seq<T>, key: T -> int)
    requires |s| > 0
    ensures SortDesc(s, key)[|s| - 1] == s[LastMinIndex(s, key)]
  {
    if |s| > 1 {
      var rest := s[1..];
      var sortedRest := SortDesc(rest, key);
      assert SortDesc(s, key) == InsertDesc(s[0], sortedRest, key);
      LastOfSort(rest, key);
      LastOfInsert(s[0], sortedRest, key);
      LastMinIndexStep(s, key);
    }
  }

  /** The client popped and the list left behind. */
  datatype Pick<T> = Pick(chosen: T, remaining: seq<T>)

  /** Sort descending, then pop the last element. */
  function PickNext<T>(waiting: seq<T>, key: T -> int): (p: Pick<T>)
    requires |waiting| > 0
    ensures multiset(p.remaining) + multiset{p.chosen} == multiset(waiting)
    ensures |p.remaining| == |waiting| - 1
  {
    var sorted := SortDesc(waiting, key);
    assert sorted == sorted[..|sorted| - 1] + [sorted[|sorted| - 1]];
    Pick(sorted[|sorted| - 1], sorted[..|sorted| - 1])
  }

  /** What the pick rule guarantees: the chosen client has a priority no larger than
      any waiting client, it is the last client of that priority in list order, the
      list left behind is sorted highest priority first, and, the sort being stable,
      clients of equal priority keep their relative order (the chosen one at the end of
      its priority group). */
  lemma PickNextLowestPriority<T>(waiting: seq<T>, key: T -> int)
    requires |waiting| > 0
    ensures forall i :: 0 <= i < |waiting| ==> key(PickNext(waiting, key).chosen) <= key(waiting[i])
    ensures PickNext(waiting, key).chosen == waiting[LastMinIndex(waiting, key)]
    ensures SortedDesc(PickNext(waiting, key).remaining, key)
    ensures SameOrderPerKey(PickNext(waiting, key).remaining + [PickNext(waiting, key).chosen], waiting, key)
  {
    LastOfSort(waiting, key);
    PickNextStable(waiting, key);
  }

  /** The remaining list followed by the chosen client is the stable sort of the list. */
  lemma PickNextStable<T>(waiting: seq<T>, key: T -> int)
    requires |waiting| > 0
    ensures PickNext(waiting, key).remaining + [PickNext(waiting, key).chosen] == SortDesc(waiting, key)
  {
    var p := PickNext(waiting, key);
    var sorted := SortDesc(waiting, key);
    assert p.chosen == sorted[|sorted| - 1] && p.remaining == sorted[..|sorted| - 1];
    SplitLast(sorted);
  }

  lemma SplitLast<T>(s: seq<T>)
    requires |s| > 0
    ensures s[..|s| - 1] + [s[|s| - 1]] == s
  {
  }
}
