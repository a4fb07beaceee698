/** The order-4 script: points evenly spaced on one circle, and lines built
    by doubling steps from every start point. Coordinates (cosine and sine
    of the point's angle) are not modelled: a point is known by its slot on
    the circle, which is also its index. */
module Order4 {
  import opened Plane

  /** The point at angle 2*pi*slot/N on the circle of radius 10. */
  datatype CirclePoint = CirclePoint(slot: nat)

  /** `generate_projective_plane_points`: one point per slot, in slot order,
      N = order^2 + order + 1 of them. */
  method GeneratePoints(order: int) returns (points: seq<CirclePoint>)
    ensures |points| == PlaneSize(order)
    ensures forall i :: 0 <= i < |points| ==> points[i] == CirclePoint(i)
  {
    var numPoints := PlaneSize(order);
    points := [];
    var i := 0;
    while i < numPoints
      invariant 0 <= i <= numPoints
      invariant |points| == i
      invariant forall j :: 0 <= j < i ==> points[j] == CirclePoint(j)
    {
      points := points + [CirclePoint(i)];
      i := i + 1;
    }
  }

  /** 2^k, the step after k doublings. */
  function Pow2(k: nat): (p: nat)
    ensures p >= 1
  {
    if k == 0 then 1 else 2 * Pow2(k - 1)
  }

  /** Steps grow strictly: 2^j < 2^k whenever j < k. */
  lemma {:induction false} Pow2StrictlyIncreasing(j: nat, k: nat)
    requires j < k
    ensures Pow2(j) < Pow2(k)
  {
    if j < k - 1 {
      Pow2StrictlyIncreasing(j, k - 1);
    }
  }

  /** The line that starts at `start` among n points: the start itself,
      then (start + 2^k) mod n for each of the `order` doubling steps. */
  function Line(start: nat, n: nat, order: int): (line: seq<nat>)
    requires start < n
    ensures |line| == RangeLength(order) + 1
    ensures line[0] == start
    ensures forall k :: 1 <= k < |line| ==> line[k] == (start + Pow2(k - 1)) % n
    ensures forall x <- line :: x < n
  {
    [start] + seq(RangeLength(order), k requires 0 <= k => (start + Pow2(k)) % n)
  }

  /** `generate_projective_lines`: one line per start point, then only the
      first N = order^2 + order + 1 lines are kept. */
  method GenerateLines(points: seq<CirclePoint>, order: int) returns (lines: seq<seq<nat>>)
    ensures |lines| == if |points| <= PlaneSize(order) then |points| else PlaneSize(order)
    ensures forall s :: 0 <= s < |lines| ==> lines[s] == Line(s, |points|, order)
  {
    var numPoints := |points|;
    var numLines := PlaneSize(order);
    var pointsPerLine := order + 1;
    var all: seq<seq<nat>> := [];
    var start := 0;
    while start < numPoints
      invariant 0 <= start <= numPoints
      invariant |all| == start
      invariant forall s :: 0 <= s < start ==> all[s] == Line(s, numPoints, order)
    {
      var line: seq<nat> := [start];
      var step := 1;
      var k := 0;
      while k < pointsPerLine - 1
        invariant 0 <= k <= RangeLength(pointsPerLine - 1)
        invariant step == Pow2(k)
        invariant |line| == k + 1 && line[0] == start
        invariant forall j :: 0 <= j < k ==> line[j + 1] == (start + Pow2(j)) % numPoints
      {
        var nextPoint := (start + step) % numPoints;
        line := line + [nextPoint];
        step := step * 2;
        k := k + 1;
      }
      all := all + [line];
      start := start + 1;
    }
    lines := if numLines <= |all| then all[..numLines] else all;
  }

  /** When 2^(order-1) < n, the offsets 0, 1, 2, 4, ..., 2^(order-1) are
      distinct and below n, so every line lists order + 1 different points. */
  lemma LineDistinct(start: nat, n: nat, order: int)
    requires start < n
    requires order >= 1 ==> Pow2(order - 1) < n
    ensures Distinct(Line(start, n, order))
  {
    var line := Line(start, n, order);
    forall i, j | 0 <= i < j < |line|
      ensures line[i] != line[j]
    {
      LineEntriesDiffer(start, n, order, i, j);
    }
  }

  /** Entries i < j of a line differ: their offsets 2^(i-1) (or 0 for the
      start) and 2^(j-1) are different and less than n apart. */
  lemma LineEntriesDiffer(start: nat, n: nat, order: int, i: nat, j: nat)
    requires start < n
    requires order >= 1 ==> Pow2(order - 1) < n
    requires i < j < RangeLength(order) + 1
    ensures Line(start, n, order)[i] != Line(start, n, order)[j]
  {
    var line := Line(start, n, order);
    var offJ := Pow2(j - 1);
    assert offJ <= Pow2(order - 1) by {
      if j - 1 < order - 1 { Pow2StrictlyIncreasing(j - 1, order - 1); }
    }
    assert line[j] == (start + offJ) % n;
    if i == 0 {
      ModInjective(start, 0, offJ, n);
      SmallModIsSelf(start, n);
    } else {
      Pow2StrictlyIncreasing(i - 1, j - 1);
      assert line[i] == (start + Pow2(i - 1)) % n;
      ModInjective(start, Pow2(i - 1), offJ, n);
    }
  }

  /** For order 4 and the 21 points the point generator makes: 21 lines,
      each of 5 different in-range points s, s+1, s+2, s+4, s+8 (mod 21). */
  lemma Order4Lines(start: nat)
    requires start < PlaneSize(4)
    ensures PlaneSize(4) == 21
    ensures Line(start, 21, 4) == [start, (start + 1) % 21, (start + 2) % 21, (start + 4) % 21, (start + 8) % 21]
    ensures Distinct(Line(start, 21, 4))
  {
    assert Pow2(3) == 8 && Pow2(2) == 4 && Pow2(1) == 2 && Pow2(0) == 1;
    LineDistinct(start, 21, 4);
  }

  /** The whole order-4 pipeline of `visualize_projective_plane_curved`
      before rendering: 21 points and 21 lines of 5 distinct valid indices,
      the counts the script's summary reports. */
  method BuildPlane() returns (points: seq<CirclePoint>, lines: seq<seq<nat>>)
    ensures |points| == 21 && |lines| == 21
    ensures forall s :: 0 <= s < 21 ==> |lines[s]| == 5 && lines[s][0] == s
    ensures forall s :: 0 <= s < 21 ==> Distinct(lines[s]) && forall x <- lines[s] :: x < |points|
  {
    points := GeneratePoints(4);
    lines := GenerateLines(points, 4);
    forall s | 0 <= s < 21
      ensures Distinct(lines[s])
    {
      Order4Lines(s);
    }
  }

  /** Why no incidence axiom is stated: lines 0 and 1 both contain the
      points 1 and 2, while two lines of a projective plane meet in exactly
      one point. */
  lemma FirstTwoLinesShareTwoPoints()
    ensures Line(0, 21, 4) == [0, 1, 2, 4, 8] && Line(1, 21, 4) == [1, 2, 3, 5, 9]
    ensures 1 in Line(0, 21, 4) && 2 in Line(0, 21, 4)
    ensures 1 in Line(1, 21, 4) && 2 in Line(1, 21, 4)
  {
    Order4Lines(0);
    Order4Lines(1);
  }
}
