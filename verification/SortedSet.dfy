/** A Redis sorted set of the admission namespace: members with scores, ordered by score and then
    by member. The `__` member with score +inf that keeps an empty set in existence is left out: it
    is last in every range and one in every cardinality. */
module SortedSet {
  type ZSet = map<int, int>

  predicate Before(z: ZSet, a: int, b: int)
    requires a in z && b in z
  {
    z[a] < z[b] || (z[a] == z[b] && a < b)
  }

  ghost predicate IsFirst(z: ZSet, m: int) {
    m in z && forall x | x in z && x != m :: Before(z, m, x)
  }

  lemma {:induction false} FirstExists(z: ZSet)
    requires z != map[]
    ensures exists m :: IsFirst(z, m)
    decreases |z|
  {
    assert (forall x :: x !in z) ==> z == map[];
    var x :| x in z;
    var rest := z - {x};
    if rest == map[] {
      assert forall y | y in z :: y == x || y in rest;
      assert IsFirst(z, x);
    } else {
      FirstExists(rest);
      var m :| IsFirst(rest, m);
      assert forall y | y in z :: y == x || y in rest;
      if Before(z, x, m) {
        assert IsFirst(z, x);
      } else {
        assert IsFirst(z, m);
      }
    }
  }

  /** ZRANGE key 0 0. */
  function First(z: ZSet): (m: int)
    requires z != map[]
    ensures IsFirst(z, m)
  {
    FirstExists(z);
    var m :| m in z && forall x | x in z && x != m :: Before(z, m, x);
    m
  }

  /** ZRANGE key 0 n-1. */
  function Range(z: ZSet, n: nat): (r: seq<int>)
    ensures |r| <= n
    decreases n
  {
    if n == 0 || z == map[] then [] else
      var f := First(z);
      [f] + Range(z - {f}, n - 1)
  }

  function UpTo(z: ZSet, max: int): ZSet {
    map m | m in z && z[m] <= max :: z[m]
  }

  /** ZRANGEBYSCORE key -inf max LIMIT 0 limit. */
  function RangeByScore(z: ZSet, max: int, limit: nat): (r: seq<int>)
    ensures |r| <= limit
  {
    Range(UpTo(z, max), limit)
  }

  /** ZREMRANGEBYSCORE key -inf max. */
  function DropUpTo(z: ZSet, max: int): ZSet {
    map m | m in z && max < z[m] :: z[m]
  }

  /** ZRANK key m. */
  function Rank(z: ZSet, m: int): nat
    requires m in z
  {
    |set x | x in z && Before(z, x, m)|
  }

  /** A range is a prefix in order: strictly ascending, and everything it leaves out comes after. */
  lemma {:induction false} RangeIsPrefix(z: ZSet, n: nat)
    ensures var r := Range(z, n);
      && (forall i | 0 <= i < |r| :: r[i] in z)
      && (forall i, j | 0 <= i < j < |r| :: Before(z, r[i], r[j]))
      && (forall x, i | x in z && x !in r && 0 <= i < |r| :: Before(z, r[i], x))
      && |r| == if n <= |z| then n else |z|
    decreases n
  {
    if n == 0 || z == map[] {
    } else {
      var f := First(z);
      var rest := z - {f};
      RangeIsPrefix(rest, n - 1);
      var r, t := Range(z, n), Range(rest, n - 1);
      assert r == [f] + t;
      assert |rest| == |z| - 1 by { assert rest.Keys == z.Keys - {f}; }
      forall x, i | x in z && x !in r && 0 <= i < |r| ensures Before(z, r[i], x) {
        assert x != f by { assert r[0] == f; }
        assert x in rest;
        if i > 0 { assert r[i] == t[i - 1]; }
      }
    }
  }

  /** Every member up to the bound is in the range, unless the range is full. */
  lemma RangeByScoreIsComplete(z: ZSet, max: int, limit: nat)
    ensures var r := RangeByScore(z, max, limit);
      && (forall i | 0 <= i < |r| :: r[i] in z && z[r[i]] <= max)
      && (forall i, j | 0 <= i < j < |r| :: r[i] != r[j])
      && (|r| < limit ==> forall m | m in z && z[m] <= max :: m in r)
  {
    var u := UpTo(z, max);
    RangeIsPrefix(u, limit);
    var r := Range(u, limit);
    forall i, j | 0 <= i < j < |r| ensures r[i] != r[j] {
      assert Before(u, r[i], r[j]);
    }
    if |r| < limit {
      assert |r| == |u|;
      RangeCoversAll(u, limit);
    }
  }

  lemma {:induction false} RangeCoversAll(z: ZSet, n: nat)
    requires |z| <= n
    ensures forall m | m in z :: m in Range(z, n)
    decreases n
  {
    if z == map[] {
    } else {
      assert |z| > 0;
      var f := First(z);
      var rest := z - {f};
      assert rest.Keys == z.Keys - {f};
      RangeCoversAll(rest, n - 1);
      forall m | m in z ensures m in Range(z, n) {
        if m != f { assert m in rest; }
      }
    }
  }
}
