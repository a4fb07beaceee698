/** Facts shared by the order-4 and the order-7 scripts: the size of a
    projective plane of a given order, the length of Python's `range`, and
    the modular arithmetic both line generators rely on. */
module Plane {

  /** `order ** 2 + order + 1`, the number of points (and of lines) a
      projective plane of this order has; positive for every integer order. */
  function PlaneSize(order: int): (n: nat)
    ensures n >= 1
    ensures order >= 0 ==> n > order * order && n > order
  {
    ProductOfNeighboursNonNegative(order);
    order * order + order + 1
  }

  /** m * (m + 1) is never negative: one factor is <= 0 exactly when the other is. */
  lemma ProductOfNeighboursNonNegative(m: int)
    ensures m * m + m >= 0
  {
  }

  /** The number of values `range(count)` produces: none when count <= 0. */
  function RangeLength(count: int): (len: nat)
    ensures count >= 0 ==> len == count
    ensures count <= 0 ==> len == 0
  {
    if count > 0 then count else 0
  }

  /** No index is listed twice. */
  predicate Distinct(s: seq<nat>)
  {
    forall i, j :: 0 <= i < j < |s| ==> s[i] != s[j]
  }

  /** Adding two different offsets that are less than n apart to the same
      start never gives the same residue modulo n. */
  lemma ModInjective(s: int, a: int, b: int, n: int)
    requires n > 0 && a < b && b - a < n
    ensures (s + a) % n != (s + b) % n
  {
    var qa, qb := (s + a) / n, (s + b) / n;
    var ra, rb := (s + a) % n, (s + b) % n;
    assert s + a == qa * n + ra && s + b == qb * n + rb;
    if ra == rb {
      var d := qb - qa;
      assert b - a == qb * n - qa * n;
      assert qb * n - qa * n == d * n by { MulSubDistrib(qb, qa, n); }
      MulSign(d, n);
    }
  }

  /** Euclidean division is unique: writing y as d * m + s with 0 <= s < m
      determines the residue s. */
  lemma ModUnique(y: int, d: int, s: int, m: int)
    requires m > 0 && 0 <= s < m && y == d * m + s
    ensures y % m == s
  {
    var e := d - y / m;
    assert y == (y / m) * m + y % m;
    assert d * m - (y / m) * m == e * m by { MulSubDistrib(d, y / m, m); }
    assert e * m == y % m - s;
    MulSign(e, m);
    MulSign(-e, m);
    assert (-e) * m == -(e * m);
  }

  /** Reducing a summand modulo m first does not change the residue of the sum. */
  lemma ModAddCongruence(a: int, b: int, m: int)
    requires m > 0
    ensures (a % m + b) % m == (a + b) % m
  {
    var q := a / m;
    var x := a % m + b;
    assert a == q * m + a % m;
    assert x == (x / m) * m + x % m;
    assert a + b == (x / m + q) * m + x % m by {
      assert (x / m + q) * m == (x / m) * m + q * m;
    }
    ModUnique(a + b, x / m + q, x % m, m);
  }

  /** A value already below n is its own residue. */
  lemma SmallModIsSelf(a: int, n: int)
    requires 0 <= a < n
    ensures a % n == a
  {
  }

  lemma MulSubDistrib(x: int, y: int, n: int)
    ensures x * n - y * n == (x - y) * n
  {
  }

  /** A multiple of a positive n is either at most 0 or at least n. */
  lemma MulSign(d: int, n: int)
    requires n > 0
    ensures d * n <= 0 || d * n >= n
  {
  }
}
