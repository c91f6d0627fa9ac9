/** Counting, summing and filtering over sequences, and the stable sort that
    Python's `sorted(xs, key=...)` performs, for keys that are pairs of
    integers compared lexicographically (as Python compares tuples). */
module Sequences {

  // ---------------------------------------------------------------------------
  // Counting, summing, filtering (all defined on the last element, the way a
  // left-to-right loop accumulates them)

  function CountWhere<T>(s: seq<T>, p: T -> bool): (n: nat)
    ensures n <= |s|
  {
    if s == [] then 0 else CountWhere(s[..|s| - 1], p) + (if p(s[|s| - 1]) then 1 else 0)
  }

  function SumOf<T>(s: seq<T>, f: T -> int): int
  {
    if s == [] then 0 else SumOf(s[..|s| - 1], f) + f(s[|s| - 1])
  }

  function Filter<T>(s: seq<T>, p: T -> bool): (r: seq<T>)
    ensures |r| == CountWhere(s, p)
    ensures forall k :: 0 <= k < |r| ==> p(r[k])
  {
    if s == [] then []
    else
      var init := Filter(s[..|s| - 1], p);
      if p(s[|s| - 1]) then init + [s[|s| - 1]] else init
  }

  /** Every element a filter keeps is an element of its input. */
  lemma {:induction false} FilterMembers<T>(s: seq<T>, p: T -> bool)
    ensures forall k :: 0 <= k < |Filter(s, p)| ==> Filter(s, p)[k] in s
  {
    if s != [] {
      var init := s[..|s| - 1];
      FilterMembers(init, p);
      forall k | 0 <= k < |Filter(s, p)|
        ensures Filter(s, p)[k] in s
      {
        if k < |Filter(init, p)| {
          assert Filter(s, p)[k] == Filter(init, p)[k];
          assert Filter(init, p)[k] in init;
        } else {
          assert Filter(s, p)[k] == s[|s| - 1];
        }
      }
    }
  }

  /** A one-element sequence counts one exactly when its element qualifies. */
  lemma CountWhereSingle<T>(x: T, p: T -> bool)
    ensures CountWhere([x], p) == (if p(x) then 1 else 0)
  {
    assert [x][..0] == [];
  }

  lemma {:induction false} CountWhereAppend<T>(a: seq<T>, b: seq<T>, p: T -> bool)
    ensures CountWhere(a + b, p) == CountWhere(a, p) + CountWhere(b, p)
    decreases |b|
  {
    if b != [] {
      assert (a + b)[..|a + b| - 1] == a + b[..|b| - 1];
      CountWhereAppend(a, b[..|b| - 1], p);
    } else {
      assert a + b == a;
    }
  }

  lemma {:induction false} SumOfAppend<T>(a: seq<T>, b: seq<T>, f: T -> int)
    ensures SumOf(a + b, f) == SumOf(a, f) + SumOf(b, f)
    decreases |b|
  {
    if b != [] {
      assert (a + b)[..|a + b| - 1] == a + b[..|b| - 1];
      SumOfAppend(a, b[..|b| - 1], f);
    } else {
      assert a + b == a;
    }
  }

  lemma {:induction false} FilterAppend<T>(a: seq<T>, b: seq<T>, p: T -> bool)
    ensures Filter(a + b, p) == Filter(a, p) + Filter(b, p)
    decreases |b|
  {
    if b != [] {
      assert (a + b)[..|a + b| - 1] == a + b[..|b| - 1];
      FilterAppend(a, b[..|b| - 1], p);
    } else {
      assert a + b == a;
    }
  }

  /** A count is zero exactly when no element satisfies the predicate. */
  lemma {:induction false} CountWhereZero<T>(s: seq<T>, p: T -> bool)
    ensures CountWhere(s, p) == 0 <==> forall k :: 0 <= k < |s| ==> !p(s[k])
  {
    if s != [] {
      CountWhereZero(s[..|s| - 1], p);
      assert forall k :: 0 <= k < |s| - 1 ==> s[..|s| - 1][k] == s[k];
    }
  }

  /** If every element satisfies `q` whenever it satisfies `p`, `q` counts at least as many. */
  lemma {:induction false} CountWhereMono<T>(s: seq<T>, p: T -> bool, q: T -> bool)
    requires forall k :: 0 <= k < |s| ==> p(s[k]) ==> q(s[k])
    ensures CountWhere(s, p) <= CountWhere(s, q)
  {
    if s != [] {
      CountWhereMono(s[..|s| - 1], p, q);
    }
  }

  lemma {:induction false} CountWhereAll<T>(s: seq<T>, p: T -> bool)
    requires forall i :: 0 <= i < |s| ==> p(s[i])
    ensures CountWhere(s, p) == |s|
  {
    if s != [] {
      CountWhereAll(s[..|s| - 1], p);
    }
  }

  /** A sum of terms that each lie in [lo, hi] lies between |s|·lo and |s|·hi. */
  lemma {:induction false} SumBounds<T>(s: seq<T>, f: T -> int, lo: int, hi: int)
    requires forall k :: 0 <= k < |s| ==> lo <= f(s[k]) <= hi
    ensures |s| * lo <= SumOf(s, f) <= |s| * hi
  {
    if s != [] {
      var n := |s| - 1;
      SumBounds(s[..n], f, lo, hi);
      assert SumOf(s, f) == SumOf(s[..n], f) + f(s[n]);
      assert |s| * lo == n * lo + lo;
      assert |s| * hi == n * hi + hi;
    }
  }

  /** Two predicates that never hold together count at most the whole sequence. */
  lemma {:induction false} CountWhereDisjoint<T>(s: seq<T>, p: T -> bool, q: T -> bool)
    requires forall k :: 0 <= k < |s| ==> !(p(s[k]) && q(s[k]))
    ensures CountWhere(s, p) + CountWhere(s, q) <= |s|
  {
    if s != [] {
      CountWhereDisjoint(s[..|s| - 1], p, q);
    }
  }

  // ---------------------------------------------------------------------------
  // Stable sorting on integer-pair keys

  /** Lexicographic order on pairs, as Python orders 2-tuples. */
  predicate KeyLe(a: (int, int), b: (int, int))
  {
    a.0 < b.0 || (a.0 == b.0 && a.1 <= b.1)
  }

  predicate SortedBy<T>(s: seq<T>, key: T -> (int, int))
  {
    forall i, j :: 0 <= i < j < |s| ==> KeyLe(key(s[i]), key(s[j]))
  }

  /** The elements of `s` whose key is exactly `k`, in order. */
  function WithKey<T>(s: seq<T>, key: T -> (int, int), k: (int, int)): seq<T>
  {
    if s == [] then []
    else WithKey(s[..|s| - 1], key, k) + (if key(s[|s| - 1]) == k then [s[|s| - 1]] else [])
  }

  /** Insert `x`, which comes after every element of `s` in the input, behind
      all elements whose key is not larger: what keeps the sort stable. */
  function Insert<T>(x: T, s: seq<T>, key: T -> (int, int)): seq<T>
  {
    if s == [] then [x]
    else if KeyLe(key(s[0]), key(x)) then [s[0]] + Insert(x, s[1..], key)
    else [x] + s
  }

  /** Python's `sorted(s, key=key)` (insertion sort; Python's sort is stable too). */
  function Sort<T>(s: seq<T>, key: T -> (int, int)): seq<T>
  {
    if s == [] then [] else Insert(s[|s| - 1], Sort(s[..|s| - 1], key), key)
  }

  /** Where `Insert` puts `x`: after the leading run of keys no larger than x's. */
  function InsertPos<T>(x: T, s: seq<T>, key: T -> (int, int)): (k: nat)
    ensures k <= |s|
  {
    if s == [] then 0
    else if KeyLe(key(s[0]), key(x)) then 1 + InsertPos(x, s[1..], key)
    else 0
  }

  lemma {:induction false} InsertAt<T>(x: T, s: seq<T>, key: T -> (int, int))
    ensures var k := InsertPos(x, s, key);
            Insert(x, s, key) == s[..k] + [x] + s[k..]
  {
    if s != [] && KeyLe(key(s[0]), key(x)) {
      InsertAt(x, s[1..], key);
      var k' := InsertPos(x, s[1..], key);
      assert s[..k' + 1] == [s[0]] + s[1..][..k'];
      assert s[k' + 1..] == s[1..][k'..];
    }
  }

  lemma {:induction false} InsertPosBefore<T>(x: T, s: seq<T>, key: T -> (int, int))
    ensures forall i :: 0 <= i < InsertPos(x, s, key) ==> KeyLe(key(s[i]), key(x))
  {
    if s != [] && KeyLe(key(s[0]), key(x)) {
      InsertPosBefore(x, s[1..], key);
      forall i | 1 <= i < InsertPos(x, s, key)
        ensures KeyLe(key(s[i]), key(x))
      {
        assert s[i] == s[1..][i - 1];
      }
    }
  }

  lemma {:induction false} InsertPosAfter<T>(x: T, s: seq<T>, key: T -> (int, int))
    requires SortedBy(s, key)
    ensures forall i :: InsertPos(x, s, key) <= i < |s| ==> !KeyLe(key(s[i]), key(x))
  {
    if s != [] {
      if KeyLe(key(s[0]), key(x)) {
        var t := s[1..];
        assert SortedBy(t, key) by {
          forall i, j | 0 <= i < j < |t|
            ensures KeyLe(key(t[i]), key(t[j]))
          {
            assert t[i] == s[i + 1] && t[j] == s[j + 1];
          }
        }
        InsertPosAfter(x, t, key);
        forall i | InsertPos(x, s, key) <= i < |s|
          ensures !KeyLe(key(s[i]), key(x))
        {
          assert s[i] == t[i - 1];
        }
      } else {
        forall i | 0 < i < |s|
          ensures !KeyLe(key(s[i]), key(x))
        {
          assert KeyLe(key(s[0]), key(s[i]));
        }
      }
    }
  }

  /** Insertion places `x` at some split point: everything before it has a key
      no larger than x's, and (in a sorted input) everything after a larger key. */
  lemma InsertSplit<T>(x: T, s: seq<T>, key: T -> (int, int)) returns (k: nat)
    ensures k <= |s| && Insert(x, s, key) == s[..k] + [x] + s[k..]
    ensures forall i :: 0 <= i < k ==> KeyLe(key(s[i]), key(x))
    ensures SortedBy(s, key) ==> forall i :: k <= i < |s| ==> !KeyLe(key(s[i]), key(x))
  {
    k := InsertPos(x, s, key);
    InsertAt(x, s, key);
    InsertPosBefore(x, s, key);
    if SortedBy(s, key) {
      InsertPosAfter(x, s, key);
    }
  }

  lemma InsertSorted<T>(x: T, s: seq<T>, key: T -> (int, int))
    requires SortedBy(s, key)
    ensures |Insert(x, s, key)| == |s| + 1
    ensures SortedBy(Insert(x, s, key), key)
    ensures multiset(Insert(x, s, key)) == multiset(s) + multiset{x}
  {
    var k := InsertSplit(x, s, key);
    var r := Insert(x, s, key);
    assert forall i :: 0 <= i < |r| ==> r[i] == if i < k then s[i] else if i == k then x else s[i - 1];
    forall i, j | 0 <= i < j < |r| ensures KeyLe(key(r[i]), key(r[j])) {
      if j < k {
        assert KeyLe(key(s[i]), key(s[j]));
      } else if i > k {
        assert KeyLe(key(s[i - 1]), key(s[j - 1]));
      } else if i < k && j > k {
        assert KeyLe(key(s[i]), key(s[j - 1]));
      }
    }
    InsertMultiset(x, s, key, k);
  }

  lemma InsertMultiset<T>(x: T, s: seq<T>, key: T -> (int, int), k: nat)
    requires k <= |s| && Insert(x, s, key) == s[..k] + [x] + s[k..]
    ensures multiset(Insert(x, s, key)) == multiset(s) + multiset{x}
  {
    var front, back := s[..k], s[k..];
    assert s == front + back;
    assert multiset(s) == multiset(front) + multiset(back);
    assert multiset(front + [x] + back) == multiset(front + [x]) + multiset(back);
  }

  /** The sort returns a sorted permutation of its input. */
  lemma {:induction false} SortSpec<T>(s: seq<T>, key: T -> (int, int))
    ensures |Sort(s, key)| == |s|
    ensures SortedBy(Sort(s, key), key)
    ensures multiset(Sort(s, key)) == multiset(s)
  {
    if s != [] {
      var init, x := s[..|s| - 1], s[|s| - 1];
      SortSpec(init, key);
      var sorted := Sort(init, key);
      InsertSorted(x, sorted, key);
      assert Sort(s, key) == Insert(x, sorted, key);
      assert s == init + [x];
      assert multiset(s) == multiset(init) + multiset{x};
    }
  }

  /** Stability: among elements with equal keys the input order is kept. */
  lemma {:induction false} SortStable<T>(s: seq<T>, key: T -> (int, int), k: (int, int))
    ensures WithKey(Sort(s, key), key, k) == WithKey(s, key, k)
  {
    if s != [] {
      var init, x := s[..|s| - 1], s[|s| - 1];
      SortStable(init, key, k);
      SortSpec(init, key);
      WithKeyInsert(x, Sort(init, key), key, k);
    }
  }

  /** Inserting into a sorted sequence puts `x` last among the elements sharing its key. */
  lemma WithKeyInsert<T>(x: T, s: seq<T>, key: T -> (int, int), k: (int, int))
    requires SortedBy(s, key)
    ensures WithKey(Insert(x, s, key), key, k) == WithKey(s, key, k) + (if key(x) == k then [x] else [])
  {
    var j := InsertSplit(x, s, key);
    var front, back := s[..j], s[j..];
    assert s == front + back;
    WithKeySplice(front, x, back, key, k);
    if key(x) == k {
      WithKeyNone(back, key, k);
    }
  }

  lemma WithKeySplice<T>(front: seq<T>, x: T, back: seq<T>, key: T -> (int, int), k: (int, int))
    ensures WithKey(front + [x] + back, key, k) ==
            WithKey(front, key, k) + (if key(x) == k then [x] else []) + WithKey(back, key, k)
    ensures WithKey(front + back, key, k) == WithKey(front, key, k) + WithKey(back, key, k)
  {
    assert WithKey([x], key, k) == (if key(x) == k then [x] else []) by {
      assert [x][..0] == [];
    }
    WithKeyAppend(front + [x], back, key, k);
    WithKeyAppend(front, [x], key, k);
    WithKeyAppend(front, back, key, k);
  }

  lemma {:induction false} WithKeyAppend<T>(a: seq<T>, b: seq<T>, key: T -> (int, int), k: (int, int))
    ensures WithKey(a + b, key, k) == WithKey(a, key, k) + WithKey(b, key, k)
    decreases |b|
  {
    if b != [] {
      assert (a + b)[..|a + b| - 1] == a + b[..|b| - 1];
      WithKeyAppend(a, b[..|b| - 1], key, k);
    } else {
      assert a + b == a;
    }
  }

  lemma {:induction false} WithKeyNone<T>(s: seq<T>, key: T -> (int, int), k: (int, int))
    requires forall i :: 0 <= i < |s| ==> !KeyLe(key(s[i]), k)
    ensures WithKey(s, key, k) == []
  {
    if s != [] {
      WithKeyNone(s[..|s| - 1], key, k);
    }
  }

  /** Sorting an already sorted sequence changes nothing. */
  lemma {:induction false} SortOfSorted<T>(s: seq<T>, key: T -> (int, int))
    requires SortedBy(s, key)
    ensures Sort(s, key) == s
  {
    if s != [] {
      var init, x := s[..|s| - 1], s[|s| - 1];
      SortOfSorted(init, key);
      InsertAtEnd(x, init, key);
    }
  }

  lemma {:induction false} InsertAtEnd<T>(x: T, s: seq<T>, key: T -> (int, int))
    requires forall i :: 0 <= i < |s| ==> KeyLe(key(s[i]), key(x))
    ensures Insert(x, s, key) == s + [x]
  {
    if s != [] {
      InsertAtEnd(x, s[1..], key);
      assert s == [s[0]] + s[1..];
    }
  }

  /** An element of `s` that is not among the first `m` (counting
      multiplicity) sits at some index from `m` on. */
  lemma DroppedInSuffix<T>(s: seq<T>, m: nat, y: T) returns (j: nat)
    requires m <= |s|
    requires y in multiset(s) - multiset(s[..m])
    ensures m <= j < |s| && s[j] == y
  {
    assert s == s[..m] + s[m..];
    assert multiset(s) == multiset(s[..m]) + multiset(s[m..]);
    assert y in s[m..];
    var d :| 0 <= d < |s| - m && s[m..][d] == y;
    j := m + d;
  }
}
