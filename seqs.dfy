/** Sequence helpers shared by the tables: filtering (a SQL `WHERE`), reversal
    (an `ORDER BY ... DESC` and Python's `reversed`) and key order (`ORDER BY id`). */
module Seqs {

  /** The elements of `s` that satisfy `keep`, in their original order. */
  function Filter<T(!new)>(s: seq<T>, keep: T -> bool): (r: seq<T>)
    ensures |r| <= |s|
    ensures forall x :: x in r <==> x in s && keep(x)
    decreases |s|
  {
    if s == [] then []
    else if keep(s[0]) then [s[0]] + Filter(s[1..], keep)
    else Filter(s[1..], keep)
  }

  /** Filtering distributes over a trailing element: appending a row to a
      table appends it to every selection it satisfies, and to no other. */
  lemma {:induction false} FilterSnoc<T(!new)>(s: seq<T>, x: T, keep: T -> bool)
    ensures Filter(s + [x], keep) == Filter(s, keep) + (if keep(x) then [x] else [])
    decreases |s|
  {
    if s == [] {
      assert [] + [x] == [x];
    } else {
      assert (s + [x])[0] == s[0];
      assert (s + [x])[1..] == s[1..] + [x];
      FilterSnoc(s[1..], x, keep);
    }
  }

  /** Filtering twice equals filtering once by the conjunction. */
  lemma {:induction false} FilterFilter<T(!new)>(s: seq<T>, first: T -> bool, second: T -> bool, both: T -> bool)
    requires forall x :: both(x) == (first(x) && second(x))
    ensures Filter(Filter(s, first), second) == Filter(s, both)
    decreases |s|
  {
    if s != [] {
      FilterFilter(s[1..], first, second, both);
    }
  }

  /** Every element is strictly below the next in `key`: a table in primary-key order. */
  ghost predicate Increasing<T>(s: seq<T>, key: T -> int) {
    forall i, j :: 0 <= i < j < |s| ==> key(s[i]) < key(s[j])
  }

  /** A selection of rows in key order is still in key order. */
  lemma {:induction false} FilterKeepsOrder<T(!new)>(s: seq<T>, keep: T -> bool, key: T -> int)
    requires Increasing(s, key)
    ensures Increasing(Filter(s, keep), key)
    decreases |s|
  {
    if s != [] {
      IncreasingTail(s, key);
      FilterKeepsOrder(s[1..], keep, key);
      var rest := Filter(s[1..], keep);
      if keep(s[0]) {
        forall y | y in rest ensures key(s[0]) < key(y) {
          var j :| 0 <= j < |s[1..]| && s[1..][j] == y;
          assert s[j + 1] == y;
        }
        IncreasingCons(s[0], rest, key);
      }
    }
  }

  lemma IncreasingTail<T>(s: seq<T>, key: T -> int)
    requires s != [] && Increasing(s, key)
    ensures Increasing(s[1..], key)
  {
    forall i, j | 0 <= i < j < |s| - 1 ensures key(s[1..][i]) < key(s[1..][j]) {
      assert s[1..][i] == s[i + 1] && s[1..][j] == s[j + 1];
    }
  }

  lemma IncreasingCons<T>(x: T, rest: seq<T>, key: T -> int)
    requires Increasing(rest, key) && forall y :: y in rest ==> key(x) < key(y)
    ensures Increasing([x] + rest, key)
  {
    var r := [x] + rest;
    forall i, j | 0 <= i < j < |r| ensures key(r[i]) < key(r[j]) {
      assert r[j] == rest[j - 1];
      if i > 0 {
        assert r[i] == rest[i - 1];
      }
    }
  }

  /** The elements of `s` from last to first. */
  function Reverse<T>(s: seq<T>): (r: seq<T>)
    ensures |r| == |s|
    decreases |s|
  {
    if s == [] then [] else Reverse(s[1..]) + [s[0]]
  }

  /** Position `i` of the reversal is position `|s| - 1 - i` of the original. */
  lemma {:induction false} ReverseAt<T>(s: seq<T>, i: nat)
    requires i < |s|
    ensures Reverse(s)[i] == s[|s| - 1 - i]
    decreases |s|
  {
    if i < |s| - 1 {
      ReverseAt(s[1..], i);
    }
  }

  /** Reversing the first `k` of the reversed sequence gives back the last `k`
      in their original order: `ORDER BY id DESC LIMIT k` followed by
      `reversed(...)` is the final `k` rows, oldest first. */
  lemma {:induction false} ReverseTakeReverse<T>(s: seq<T>, k: nat)
    requires k <= |s|
    ensures Reverse(Reverse(s)[..k]) == s[|s| - k..]
  {
    var top := Reverse(s)[..k];
    var r := Reverse(top);
    var tail := s[|s| - k..];
    assert |r| == k == |tail|;
    forall i | 0 <= i < k ensures r[i] == tail[i] {
      ReverseAt(top, i);
      assert r[i] == top[k - 1 - i];
      assert top[k - 1 - i] == Reverse(s)[k - 1 - i];
      ReverseAt(s, k - 1 - i);
      assert tail[i] == s[|s| - k + i];
    }
    assert r == tail;
  }
}
