/** Sums over sequences and maps, with the few update laws the other modules need. */
module Sums {

  function Sum<T>(s: seq<T>, g: T -> int): int {
    if s == [] then 0 else Sum(s[..|s| - 1], g) + g(s[|s| - 1])
  }

  lemma SumAppend<T>(s: seq<T>, x: T, g: T -> int)
    ensures Sum(s + [x], g) == Sum(s, g) + g(x)
  {
    assert (s + [x])[..|s|] == s;
  }

  lemma {:induction false} SumUpdate<T>(s: seq<T>, i: nat, x: T, g: T -> int)
    requires i < |s|
    ensures Sum(s[i := x], g) == Sum(s, g) - g(s[i]) + g(x)
  {
    var last := |s| - 1;
    if i == last {
      assert s[i := x][..last] == s[..last];
    } else {
      SumUpdate(s[..last], i, x, g);
      assert s[i := x][..last] == s[..last][i := x];
    }
  }

  lemma {:induction false} SumIsZero<T>(s: seq<T>, g: T -> int)
    requires forall i :: 0 <= i < |s| ==> g(s[i]) == 0
    ensures Sum(s, g) == 0
  {
    if s != [] {
      SumIsZero(s[..|s| - 1], g);
    }
  }

  lemma {:induction false} SumIsNonNegative<T>(s: seq<T>, g: T -> int)
    requires forall i :: 0 <= i < |s| ==> g(s[i]) >= 0
    ensures Sum(s, g) >= 0
  {
    if s != [] {
      SumIsNonNegative(s[..|s| - 1], g);
    }
  }

  /** A sum of non-negative terms is at least each one of them. */
  lemma {:induction false} SumAtLeast<T>(s: seq<T>, i: nat, g: T -> int)
    requires i < |s|
    requires forall j :: 0 <= j < |s| ==> g(s[j]) >= 0
    ensures Sum(s, g) >= g(s[i])
  {
    if i == |s| - 1 {
      SumIsNonNegative(s[..i], g);
    } else {
      SumAtLeast(s[..|s| - 1], i, g);
    }
  }

  /** Two different positions contribute separately. */
  lemma {:induction false} SumAtLeastTwo<T>(s: seq<T>, i: nat, j: nat, g: T -> int)
    requires i < j < |s|
    requires forall k :: 0 <= k < |s| ==> g(s[k]) >= 0
    ensures Sum(s, g) >= g(s[i]) + g(s[j])
  {
    if j == |s| - 1 {
      SumAtLeast(s[..j], i, g);
    } else {
      SumAtLeastTwo(s[..|s| - 1], i, j, g);
    }
  }

  /** When every other term is zero, the sum is the one that is left. */
  lemma {:induction false} SumIsOne<T>(s: seq<T>, i: nat, g: T -> int)
    requires i < |s|
    requires forall j :: 0 <= j < |s| && j != i ==> g(s[j]) == 0
    ensures Sum(s, g) == g(s[i])
  {
    if i == |s| - 1 {
      SumIsZero(s[..i], g);
    } else {
      SumIsOne(s[..|s| - 1], i, g);
    }
  }

  lemma {:induction false} SumsAgree<T>(s: seq<T>, g: T -> int, h: T -> int)
    requires forall i :: 0 <= i < |s| ==> g(s[i]) == h(s[i])
    ensures Sum(s, g) == Sum(s, h)
  {
    if s != [] {
      SumsAgree(s[..|s| - 1], g, h);
    }
  }

  /** A sum of terms that are each a - b - c splits the same way. */
  lemma {:induction false} SumSplits<T>(s: seq<T>, g: T -> int, a: T -> int, b: T -> int, c: T -> int)
    requires forall i :: 0 <= i < |s| ==> g(s[i]) == a(s[i]) - b(s[i]) - c(s[i])
    ensures Sum(s, g) == Sum(s, a) - Sum(s, b) - Sum(s, c)
  {
    if s != [] {
      SumSplits(s[..|s| - 1], g, a, b, c);
    }
  }

  /** The sum of all values of a finite map. */
  ghost function Total<K>(m: map<K, int>): int {
    if m == map[] then 0 else
      var k :| k in m;
      m[k] + Total(m - {k})
  }

  lemma {:induction false} TotalWithout<K>(m: map<K, int>, k: K)
    requires k in m
    ensures Total(m) == m[k] + Total(m - {k})
    decreases |m|
  {
    var k0 :| k0 in m && Total(m) == m[k0] + Total(m - {k0});
    if k0 != k {
      TotalWithout(m - {k0}, k);
      TotalWithout(m - {k}, k0);
      assert m - {k0} - {k} == m - {k} - {k0};
    }
  }

  lemma TotalUpdate<K>(m: map<K, int>, k: K, v: int)
    ensures Total(m[k := v]) == Total(m) - (if k in m then m[k] else 0) + v
  {
    TotalWithout(m[k := v], k);
    if k in m {
      TotalWithout(m, k);
      assert m[k := v] - {k} == m - {k};
    } else {
      assert m[k := v] - {k} == m;
    }
  }

  lemma {:induction false} TotalOfZeros<K>(m: map<K, int>)
    requires forall k :: k in m ==> m[k] == 0
    ensures Total(m) == 0
    decreases |m|
  {
    if m != map[] {
      var k :| k in m;
      TotalWithout(m, k);
      TotalOfZeros(m - {k});
    }
  }

  /** `per(k)` picks from a sum the terms that belong to key k. */
  ghost predicate Picks<T(!new), K(!new)>(key: T -> K, g: T -> int, per: K -> (T -> int)) {
    forall k, x :: per(k)(x) == if key(x) == k then g(x) else 0
  }

  /** The sums by key, collected in a map, total the whole sum. */
  lemma {:induction false} SumsByKey<T(!new), K(!new)>(s: seq<T>, key: T -> K, g: T -> int, per: K -> (T -> int))
    returns (m: map<K, int>)
    requires Picks(key, g, per)
    ensures Total(m) == Sum(s, g)
    ensures forall k :: (if k in m then m[k] else 0) == Sum(s, per(k))
  {
    if s == [] {
      m := map[];
    } else {
      var x := s[|s| - 1];
      var before := SumsByKey(s[..|s| - 1], key, g, per);
      var k := key(x);
      var value := (if k in before then before[k] else 0) + g(x);
      m := before[k := value];
      TotalUpdate(before, k, value);
      forall j ensures (if j in m then m[j] else 0) == Sum(s, per(j)) {
        assert per(j)(x) == if key(x) == j then g(x) else 0;
        assert (if j in before then before[j] else 0) == Sum(s[..|s| - 1], per(j));
      }
    }
  }

  /** If the terms of every key cancel, so do all of them. */
  lemma SumIsZeroByKey<T(!new), K(!new)>(s: seq<T>, key: T -> K, g: T -> int, per: K -> (T -> int))
    requires Picks(key, g, per) && forall k :: Sum(s, per(k)) == 0
    ensures Sum(s, g) == 0
  {
    var m := SumsByKey(s, key, g, per);
    forall k | k in m ensures m[k] == 0 {
      assert Sum(s, per(k)) == 0;
    }
    TotalOfZeros(m);
  }
}
