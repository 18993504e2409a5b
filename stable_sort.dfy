/** A stable sort by an ascending key, as the engine's two `sorted` calls use it.
    The sort permutes the positions 0 .. n-1 of the keys: a position comes
    before another when its key is smaller, or when the keys are equal and it
    came first in the input. */
module StableSort {

  /** A key compared lexicographically: major first, then minor. */
  datatype SortKey = SortKey(major: int, minor: real)

  predicate KeyLess(a: SortKey, b: SortKey)
  {
    a.major < b.major || (a.major == b.major && a.minor < b.minor)
  }

  /** Position i precedes position j in the stable order of `keys`. */
  predicate Before(keys: seq<SortKey>, i: nat, j: nat)
    requires i < |keys| && j < |keys|
  {
    KeyLess(keys[i], keys[j]) || (keys[i] == keys[j] && i < j)
  }

  predicate InRange(keys: seq<SortKey>, idx: seq<nat>)
  {
    forall n :: 0 <= n < |idx| ==> idx[n] < |keys|
  }

  /** idx lists positions of `keys` in strictly increasing stable order. */
  predicate StablyOrdered(keys: seq<SortKey>, idx: seq<nat>)
  {
    InRange(keys, idx) &&
    forall a, b :: 0 <= a < b < |idx| ==> Before(keys, idx[a], idx[b])
  }

  /** Inserts position x after every leading element of s whose key is not
      greater than x's. */
  function Insert(keys: seq<SortKey>, x: nat, s: seq<nat>): (r: seq<nat>)
    requires x < |keys| && InRange(keys, s)
    ensures |r| == |s| + 1 && InRange(keys, r)
  {
    if s == [] then [x]
    else if KeyLess(keys[x], keys[s[0]]) then [x] + s
    else [s[0]] + Insert(keys, x, s[1..])
  }

  /** Inserting adds exactly x to the positions of s. */
  lemma {:induction false} InsertMembers(keys: seq<SortKey>, x: nat, s: seq<nat>)
    requires x < |keys| && InRange(keys, s)
    ensures forall e :: e in Insert(keys, x, s) <==> e == x || e in s
  {
    if s != [] && !KeyLess(keys[x], keys[s[0]]) {
      InsertMembers(keys, x, s[1..]);
      assert s == [s[0]] + s[1..];
    }
  }

  /** Inserting a position that is later in the input than every position of a
      stably ordered s keeps it stably ordered. */
  lemma {:induction false} InsertOrdered(keys: seq<SortKey>, x: nat, s: seq<nat>)
    requires x < |keys| && StablyOrdered(keys, s)
    requires forall n :: 0 <= n < |s| ==> s[n] < x
    ensures StablyOrdered(keys, Insert(keys, x, s))
  {
    if s != [] {
      var r := Insert(keys, x, s);
      if KeyLess(keys[x], keys[s[0]]) {
        forall a, b | 0 <= a < b < |r|
          ensures Before(keys, r[a], r[b])
        {
          if a == 0 && b > 1 {
            assert Before(keys, s[0], s[b - 1]);
          }
        }
      } else {
        var t := Insert(keys, x, s[1..]);
        InsertOrdered(keys, x, s[1..]);
        InsertMembers(keys, x, s[1..]);
        forall a, b | 0 <= a < b < |r|
          ensures Before(keys, r[a], r[b])
        {
          if a == 0 {
            assert t[b - 1] in t;
            if t[b - 1] != x {
              var n :| 0 <= n < |s[1..]| && s[1..][n] == t[b - 1];
              assert Before(keys, s[0], s[n + 1]);
            }
          } else {
            assert r[a] == t[a - 1] && r[b] == t[b - 1];
          }
        }
      }
    }
  }

  /** The stable order of the first n positions of `keys`. */
  function SortIndices(keys: seq<SortKey>, n: nat): (idx: seq<nat>)
    requires n <= |keys|
    ensures |idx| == n && InRange(keys, idx)
  {
    if n == 0 then [] else Insert(keys, n - 1, SortIndices(keys, n - 1))
  }

  /** The first n positions, each once. */
  lemma {:induction false} SortIndicesMembers(keys: seq<SortKey>, n: nat)
    requires n <= |keys|
    ensures forall i :: i in SortIndices(keys, n) <==> 0 <= i < n
  {
    if n > 0 {
      SortIndicesMembers(keys, n - 1);
      InsertMembers(keys, n - 1, SortIndices(keys, n - 1));
    }
  }

  /** The first n positions in stable order. */
  lemma {:induction false} SortIndicesOrdered(keys: seq<SortKey>, n: nat)
    requires n <= |keys|
    ensures StablyOrdered(keys, SortIndices(keys, n))
  {
    if n > 0 {
      var s := SortIndices(keys, n - 1);
      SortIndicesOrdered(keys, n - 1);
      SortIndicesMembers(keys, n - 1);
      assert forall m :: 0 <= m < |s| ==> s[m] in s;
      InsertOrdered(keys, n - 1, s);
    }
  }

  /** The stable order is a permutation: every position appears exactly once. */
  lemma {:induction false} SortIndicesIsPermutation(keys: seq<SortKey>, n: nat)
    requires n <= |keys|
    ensures var idx := SortIndices(keys, n);
            forall a, b :: 0 <= a < b < |idx| ==> idx[a] != idx[b]
  {
    var idx := SortIndices(keys, n);
    SortIndicesOrdered(keys, n);
    forall a, b | 0 <= a < b < |idx|
      ensures idx[a] != idx[b]
    {
      assert Before(keys, idx[a], idx[b]);
    }
  }

  /** The elements of xs at the positions idx, in that order. */
  function Pick<T>(xs: seq<T>, idx: seq<nat>): (r: seq<T>)
    requires forall n :: 0 <= n < |idx| ==> idx[n] < |xs|
    ensures |r| == |idx|
  {
    seq(|idx|, n requires 0 <= n < |idx| => xs[idx[n]])
  }

  /** Picking from a list that starts with a: xs[a], then the rest. */
  lemma PickCons<T>(xs: seq<T>, a: nat, s: seq<nat>)
    requires a < |xs| && forall n :: 0 <= n < |s| ==> s[n] < |xs|
    ensures Pick(xs, [a] + s) == [xs[a]] + Pick(xs, s)
  {
  }

  /** Inserting position x picks xs[x] once more. */
  lemma {:induction false} PickInsert<T>(keys: seq<SortKey>, xs: seq<T>, x: nat, s: seq<nat>)
    requires |xs| == |keys| && x < |keys| && InRange(keys, s)
    ensures multiset(Pick(xs, Insert(keys, x, s))) == multiset(Pick(xs, s)) + multiset{xs[x]}
  {
    if s == [] {
      assert Pick(xs, [x]) == [xs[x]];
    } else if KeyLess(keys[x], keys[s[0]]) {
      PickCons(xs, x, s);
    } else {
      var rest := s[1..];
      assert Insert(keys, x, s) == [s[0]] + Insert(keys, x, rest);
      PickInsert(keys, xs, x, rest);
      PickInsertLater(keys, xs, x, s);
    }
  }

  /** Picking [s[0]] + Insert(x, s[1..]) adds xs[s[0]] to what the insertion picks. */
  lemma PickInsertLater<T>(keys: seq<SortKey>, xs: seq<T>, x: nat, s: seq<nat>)
    requires |xs| == |keys| && x < |keys| && InRange(keys, s) && s != []
    requires multiset(Pick(xs, Insert(keys, x, s[1..]))) == multiset(Pick(xs, s[1..])) + multiset{xs[x]}
    ensures multiset(Pick(xs, [s[0]] + Insert(keys, x, s[1..]))) == multiset(Pick(xs, s)) + multiset{xs[x]}
  {
    var rest := s[1..];
    assert s == [s[0]] + rest;
    PickCons(xs, s[0], Insert(keys, x, rest));
    PickCons(xs, s[0], rest);
  }

  /** Picking by the stable order of the first n positions rearranges xs[..n]. */
  lemma {:induction false} SortIndicesPicksAll<T>(keys: seq<SortKey>, xs: seq<T>, n: nat)
    requires |xs| == |keys| && n <= |keys|
    ensures multiset(Pick(xs, SortIndices(keys, n))) == multiset(xs[..n])
  {
    if n > 0 {
      var s := SortIndices(keys, n - 1);
      assert SortIndices(keys, n) == Insert(keys, n - 1, s);
      SortIndicesPicksAll(keys, xs, n - 1);
      PickInsert(keys, xs, n - 1, s);
      LastOfPrefix(xs, n);
    }
  }

  lemma LastOfPrefix<T>(xs: seq<T>, n: nat)
    requires 0 < n <= |xs|
    ensures multiset(xs[..n]) == multiset(xs[..n - 1]) + multiset{xs[n - 1]}
  {
    assert xs[..n] == xs[..n - 1] + [xs[n - 1]];
  }
}
