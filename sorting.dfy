/**
 * Python's `list.sort(key=...)`, which is stable, for the two keys the report
 * generator sorts by: `(-confidence, step)` for the techniques of a tactic group and
 * the step number for table rows. Both are pairs compared lexicographically.
 */
module Sorting {

  /** A sort key; Python compares such tuples component by component. */
  type Rank = (real, int)

  predicate Below(a: Rank, b: Rank) {
    a.0 < b.0 || (a.0 == b.0 && a.1 < b.1)
  }

  predicate SortedBy<T>(s: seq<T>, rank: T -> Rank) {
    forall i, j :: 0 <= i < j < |s| ==> !Below(rank(s[j]), rank(s[i]))
  }

  /** The elements of `s` whose key is `k`, in their order in `s`. A sort is stable
      exactly when it leaves every such list as it was. */
  function WithRank<T>(s: seq<T>, rank: T -> Rank, k: Rank): seq<T> {
    if s == [] then []
    else WithRank(s[..|s| - 1], rank, k) + (if rank(s[|s| - 1]) == k then [s[|s| - 1]] else [])
  }

  /** Puts `x` after every element of the sorted `s` whose key is not above its own. */
  function Insert<T>(x: T, s: seq<T>, rank: T -> Rank): (r: seq<T>)
    ensures multiset(r) == multiset(s) + multiset{x}
    ensures |r| == |s| + 1
  {
    if s == [] || Below(rank(x), rank(s[0])) then [x] + s
    else
      assert s == [s[0]] + s[1..];
      [s[0]] + Insert(x, s[1..], rank)
  }

  /** `s` sorted by `rank`, stably: ascending keys, a permutation of the input, and
      elements with equal keys in their input order. */
  function SortBy<T>(s: seq<T>, rank: T -> Rank): (r: seq<T>)
    ensures SortedBy(r, rank)
    ensures multiset(r) == multiset(s) && |r| == |s|
    ensures forall k :: WithRank(r, rank, k) == WithRank(s, rank, k)
  {
    if s == [] then []
    else
      var prefix := SortBy(s[..|s| - 1], rank);
      var x := s[|s| - 1];
      InsertSorted(x, prefix, rank);
      InsertStable(x, prefix, rank);
      assert s == s[..|s| - 1] + [x];
      Insert(x, prefix, rank)
  }

  lemma {:induction false} InsertSorted<T>(x: T, s: seq<T>, rank: T -> Rank)
    requires SortedBy(s, rank)
    ensures SortedBy(Insert(x, s, rank), rank)
    decreases |s|
  {
    if s != [] && !Below(rank(x), rank(s[0])) {
      var tail := Insert(x, s[1..], rank);
      InsertSorted(x, s[1..], rank);
      forall y | y in tail ensures !Below(rank(y), rank(s[0])) {
        assert y in multiset(tail);
        if y != x {
          assert y in multiset(s[1..]);
          var j :| 0 <= j < |s[1..]| && s[1..][j] == y;
          assert s[j + 1] == y;
        }
      }
      var r := [s[0]] + tail;
      forall i, j | 0 <= i < j < |r| ensures !Below(rank(r[j]), rank(r[i])) {
        if i == 0 {
          assert r[j] == tail[j - 1];
          assert r[j] in tail;
        } else {
          assert r[i] == tail[i - 1] && r[j] == tail[j - 1];
        }
      }
    }
  }

  lemma {:induction false} WithRankAppend<T>(a: seq<T>, b: seq<T>, rank: T -> Rank, k: Rank)
    ensures WithRank(a + b, rank, k) == WithRank(a, rank, k) + WithRank(b, rank, k)
    decreases |b|
  {
    if b == [] {
      assert a + b == a;
    } else {
      assert (a + b)[..|a + b| - 1] == a + b[..|b| - 1];
      WithRankAppend(a, b[..|b| - 1], rank, k);
    }
  }

  lemma {:induction false} WithRankAbsent<T>(s: seq<T>, rank: T -> Rank, k: Rank)
    requires forall i :: 0 <= i < |s| ==> rank(s[i]) != k
    ensures WithRank(s, rank, k) == []
    decreases |s|
  {
    if s != [] {
      WithRankAbsent(s[..|s| - 1], rank, k);
    }
  }

  /** Inserting `x` adds it at the end of its key's list and leaves every other key's
      list alone. */
  lemma InsertStable<T>(x: T, s: seq<T>, rank: T -> Rank)
    requires SortedBy(s, rank)
    ensures forall k :: WithRank(Insert(x, s, rank), rank, k) ==
                        WithRank(s, rank, k) + (if rank(x) == k then [x] else [])
  {
    forall k
      ensures WithRank(Insert(x, s, rank), rank, k) ==
              WithRank(s, rank, k) + (if rank(x) == k then [x] else [])
    {
      InsertStableAt(x, s, rank, k);
    }
  }

  lemma {:induction false} InsertStableAt<T>(x: T, s: seq<T>, rank: T -> Rank, k: Rank)
    requires SortedBy(s, rank)
    ensures WithRank(Insert(x, s, rank), rank, k) ==
            WithRank(s, rank, k) + (if rank(x) == k then [x] else [])
    decreases |s|
  {
    if s == [] {
      assert Insert(x, s, rank) == [x];
      assert WithRank([x], rank, k) == WithRank([], rank, k) + (if rank(x) == k then [x] else []);
    } else if Below(rank(x), rank(s[0])) {
      InsertFront(x, s, rank, k);
    } else {
      SortedTail(s, rank);
      InsertStableAt(x, s[1..], rank, k);
      InsertBehind(x, s, rank, k);
    }
  }

  /** `x` goes behind the first element of `s` when its key is not below that
      element's; the first element's key list then gains it exactly as the tail's does. */
  lemma InsertBehind<T>(x: T, s: seq<T>, rank: T -> Rank, k: Rank)
    requires s != [] && !Below(rank(x), rank(s[0]))
    requires WithRank(Insert(x, s[1..], rank), rank, k) ==
             WithRank(s[1..], rank, k) + (if rank(x) == k then [x] else [])
    ensures WithRank(Insert(x, s, rank), rank, k) ==
            WithRank(s, rank, k) + (if rank(x) == k then [x] else [])
  {
    var tail := s[1..];
    var inserted := Insert(x, tail, rank);
    assert Insert(x, s, rank) == [s[0]] + inserted;
    WithRankAppend([s[0]], inserted, rank, k);
    WithRankAppend([s[0]], tail, rank, k);
    assert [s[0]] + tail == s;
  }

  lemma SortedTail<T>(s: seq<T>, rank: T -> Rank)
    requires SortedBy(s, rank) && s != []
    ensures SortedBy(s[1..], rank)
  {
    forall i, j | 0 <= i < j < |s[1..]| ensures !Below(rank(s[1..][j]), rank(s[1..][i])) {
      assert s[1..][j] == s[j + 1] && s[1..][i] == s[i + 1];
    }
  }

  /** `x` goes in front of the sorted `s` only when its key is below all of theirs,
      so it is alone with its key there. */
  lemma InsertFront<T>(x: T, s: seq<T>, rank: T -> Rank, k: Rank)
    requires SortedBy(s, rank) && s != [] && Below(rank(x), rank(s[0]))
    ensures WithRank([x] + s, rank, k) == WithRank(s, rank, k) + (if rank(x) == k then [x] else [])
  {
    assert WithRank([x], rank, k) == WithRank([], rank, k) + (if rank(x) == k then [x] else []);
    WithRankAppend([x], s, rank, k);
    if rank(x) == k {
      WithRankAbsent(s, rank, k);
    }
  }
}
