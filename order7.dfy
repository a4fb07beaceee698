/** The order-7 script: a centre point and rings of 8 points around it, and
    lines built in three phases (lines through the centre, lines within each
    ring, then random lines until there are enough). Coordinates are not
    modelled: a point is known by its place in the layout, which fixes its
    index. */
module Order7 {
  import opened Plane

  /** The centre (0, 0), or slot `slot` (angle 2*pi*slot/8) of ring `ring`
      (radius 2 + 2*ring). */
  datatype RingPoint = Centre | OnRing(ring: nat, slot: nat)

  /** What `generate_projective_lines` ends with: its list of lines, or the
      exception Python raises, or (for the model only) running out of the
      draws the random phase was allowed. */
  datatype Outcome =
    | Lines(lines: seq<seq<nat>>)
    | ZeroDivision     // `% (num_points - 1)` with a single point
    | EmptyDrawRange   // `np.random.randint(1, num_points)` with num_points <= 1
    | OutOfDraws       // the random phase did not finish within the allowed draws

  // ---------------------------------------------------------------------------
  // Points

  /** The number of points the layout places: the centre and 8 points on each
      of (N - 1) div 8 rings, N = order^2 + order + 1. It is N exactly when
      N - 1 is a multiple of 8, and never more. */
  function PointCount(order: int): (count: nat)
    ensures count >= 1 && (count - 1) % 8 == 0
    ensures count <= PlaneSize(order)
    ensures count == PlaneSize(order) <==> (PlaneSize(order) - 1) % 8 == 0
  {
    1 + 8 * ((PlaneSize(order) - 1) / 8)
  }

  /** `generate_projective_plane_points`: the centre first, then ring by
      ring, slot by slot. */
  method GeneratePoints(order: int) returns (points: seq<RingPoint>)
    ensures |points| == PointCount(order)
    ensures points[0] == Centre
    ensures forall i :: 1 <= i < |points| ==> points[i] == OnRing((i - 1) / 8, (i - 1) % 8)
  {
    var numPoints := PlaneSize(order);
    points := [Centre];
    var numRings := (numPoints - 1) / 8;
    var ring := 0;
    while ring < numRings
      invariant 0 <= ring <= numRings
      invariant |points| == 1 + 8 * ring
      invariant points[0] == Centre
      invariant forall i :: 1 <= i < |points| ==> points[i] == OnRing((i - 1) / 8, (i - 1) % 8)
    {
      var slot := 0;
      while slot < 8
        invariant 0 <= slot <= 8
        invariant |points| == 1 + 8 * ring + slot
        invariant points[0] == Centre
        invariant forall i :: 1 <= i < |points| ==> points[i] == OnRing((i - 1) / 8, (i - 1) % 8)
      {
        points := points + [OnRing(ring, slot)];
        slot := slot + 1;
      }
      ring := ring + 1;
    }
  }

  // ---------------------------------------------------------------------------
  // Phase 1: lines through the centre

  /** The index visited after k steps of `current_idx = (current_idx + 8) %
      (num_points - 1) + 1` from `start`. With no points at all the divisor
      is -1, and Python's `%` and Dafny's both give 0 for it. */
  function Walk(start: nat, k: nat, n: nat): (cur: nat)
    requires n != 1
    ensures k >= 1 && n >= 2 ==> 1 <= cur <= n - 1
  {
    if k == 0 then start else (Walk(start, k - 1, n) + 8) % (n - 1) + 1
  }

  /** Seen as cur - 1, each step adds 9 modulo n - 1. */
  lemma {:induction false} WalkClosedForm(start: nat, k: nat, n: nat)
    requires n >= 2 && 1 <= start <= n - 1
    ensures Walk(start, k, n) == (start - 1 + 9 * k) % (n - 1) + 1
  {
    if k == 0 {
      SmallModIsSelf(start - 1, n - 1);
    } else {
      var a := start - 1 + 9 * (k - 1);
      WalkClosedForm(start, k - 1, n);
      assert Walk(start, k, n) == (a % (n - 1) + 9) % (n - 1) + 1;
      ModAddCongruence(a, 9, n - 1);
      assert a + 9 == start - 1 + 9 * k;
    }
  }

  /** The centre-phase line started at `start`: the centre, then `order`
      points of the walk. */
  function CentreLine(start: nat, n: nat, order: int): (line: seq<nat>)
    requires n != 1 || order <= 0
    ensures |line| == RangeLength(order) + 1 && line[0] == 0
    ensures forall k :: 1 <= k < |line| ==> line[k] == Walk(start, k - 1, n)
  {
    [0] + seq(RangeLength(order), k requires 0 <= k < RangeLength(order) => Walk(start, k, n))
  }

  /** The 8 lines phase 1 appends, started at 1, ..., 8. */
  function CentreLines(n: nat, order: int): (lines: seq<seq<nat>>)
    requires n != 1 || order <= 0
    ensures |lines| == 8
    ensures forall j :: 0 <= j < 8 ==> lines[j] == CentreLine(j + 1, n, order)
  {
    seq(8, j requires 0 <= j => CentreLine(j + 1, n, order))
  }

  /** Phase 1 of `generate_projective_lines`. With a single point the first
      step divides by zero. */
  method BuildCentreLines(n: nat, order: int) returns (r: Outcome)
    ensures r == ZeroDivision <==> n == 1 && order >= 1
    ensures r != ZeroDivision ==> r == Lines(CentreLines(n, order))
  {
    var pointsPerLine := order + 1;
    var lines: seq<seq<nat>> := [];
    var centreIdx := 0;
    var i := 1;
    while i < 9
      invariant 1 <= i <= 9
      invariant i > 1 ==> n != 1 || order <= 0
      invariant |lines| == i - 1
      invariant forall j :: 0 <= j < i - 1 ==> (n != 1 || order <= 0) && lines[j] == CentreLine(j + 1, n, order)
    {
      var line: seq<nat> := [centreIdx];
      var currentIdx: nat := i;
      var k := 0;
      while k < pointsPerLine - 1
        invariant 0 <= k <= RangeLength(pointsPerLine - 1)
        invariant k > 0 ==> n != 1
        invariant |line| == k + 1 && line[0] == 0
        invariant n != 1 ==> currentIdx == Walk(i, k, n)
        invariant n != 1 ==> forall t :: 0 <= t < k ==> line[t + 1] == Walk(i, t, n)
      {
        line := line + [currentIdx];
        if n - 1 == 0 {
          r := ZeroDivision;
          return;
        }
        currentIdx := (currentIdx + 8) % (n - 1) + 1;
        k := k + 1;
      }
      lines := lines + [line];
      i := i + 1;
    }
    r := Lines(lines);
  }

  /** When 9 * (order - 1) < n - 1 the walk does not come back to an index
      within `order` steps, so a centre line lists order + 1 different
      points, all valid indices. */
  lemma CentreLineDistinct(start: nat, n: nat, order: int)
    requires n >= 2 && 1 <= start <= n - 1
    requires 9 * (order - 1) < n - 1
    ensures Distinct(CentreLine(start, n, order))
    ensures forall x <- CentreLine(start, n, order) :: x < n
  {
    var line := CentreLine(start, n, order);
    forall i, j | 0 <= i < j < |line|
      ensures line[i] != line[j]
    {
      if i > 0 {
        WalkClosedForm(start, i - 1, n);
        WalkClosedForm(start, j - 1, n);
        ModInjective(start - 1, 9 * (i - 1), 9 * (j - 1), n - 1);
      }
    }
  }

  // ---------------------------------------------------------------------------
  // Phase 2: lines within each ring

  /** How many values `range(1, n, 8)` produces: the ring starts 1, 9, 17, ... */
  function RingCount(n: nat): (count: nat)
    ensures forall r: nat :: r < count <==> 1 + 8 * r < n
  {
    if n <= 1 then 0 else (n - 2) / 8 + 1
  }

  /** The line for ring start `ringStart` and rotation `offset`: entry i is
      `(ring_start + start_offset + i) % 8 + ring_start`. */
  function RingLine(ringStart: nat, offset: nat, order: int): (line: seq<nat>)
    ensures |line| == RangeLength(order + 1)
    ensures forall i :: 0 <= i < |line| ==> line[i] == (ringStart + offset + i) % 8 + ringStart
    ensures forall x <- line :: ringStart <= x < ringStart + 8
  {
    seq(RangeLength(order + 1), i requires 0 <= i => (ringStart + offset + i) % 8 + ringStart)
  }

  /** The lines phase 2 appends: 8 per ring start, rotations 0 to 7. */
  function RingLines(n: nat, order: int): (lines: seq<seq<nat>>)
    ensures |lines| == 8 * RingCount(n)
    ensures forall j :: 0 <= j < |lines| ==> lines[j] == RingLine(1 + 8 * (j / 8), j % 8, order)
  {
    seq(8 * RingCount(n), j requires 0 <= j => RingLine(1 + 8 * (j / 8), j % 8, order))
  }

  /** Phase 2 of `generate_projective_lines`. */
  method BuildRingLines(n: nat, order: int) returns (lines: seq<seq<nat>>)
    ensures lines == RingLines(n, order)
  {
    var pointsPerLine := order + 1;
    lines := [];
    var ringStart := 1;
    ghost var ring := 0;
    while ringStart < n
      invariant ringStart == 1 + 8 * ring && ring <= RingCount(n)
      invariant |lines| == 8 * ring
      invariant forall j :: 0 <= j < |lines| ==> lines[j] == RingLine(1 + 8 * (j / 8), j % 8, order)
    {
      var offset := 0;
      while offset < 8
        invariant 0 <= offset <= 8
        invariant |lines| == 8 * ring + offset
        invariant forall j :: 0 <= j < |lines| ==> lines[j] == RingLine(1 + 8 * (j / 8), j % 8, order)
      {
        var line: seq<nat> := [];
        var i := 0;
        while i < pointsPerLine
          invariant 0 <= i <= RangeLength(pointsPerLine)
          invariant |line| == i
          invariant forall t :: 0 <= t < i ==> line[t] == (ringStart + offset + t) % 8 + ringStart
        {
          line := line + [(ringStart + offset + i) % 8 + ringStart];
          i := i + 1;
        }
        assert (8 * ring + offset) / 8 == ring && (8 * ring + offset) % 8 == offset;
        lines := lines + [line];
        offset := offset + 1;
      }
      ringStart := ringStart + 8;
      ring := ring + 1;
    }
  }

  /** With 8 points per line (order 7) the rotation i runs over all 8
      residues, so a ring line lists each point of its ring exactly once. */
  lemma RingLineIsWholeRing(ringStart: nat, offset: nat)
    ensures Distinct(RingLine(ringStart, offset, 7))
    ensures forall x :: ringStart <= x < ringStart + 8 ==> x in RingLine(ringStart, offset, 7)
  {
    var line := RingLine(ringStart, offset, 7);
    forall i, j | 0 <= i < j < |line|
      ensures line[i] != line[j]
    {
      ModInjective(ringStart + offset, i, j, 8);
    }
    forall x | ringStart <= x < ringStart + 8
      ensures x in line
    {
      var i := ((x - ringStart) - (ringStart + offset)) % 8;
      ModAddCongruence((x - ringStart) - (ringStart + offset), ringStart + offset, 8);
      SmallModIsSelf(x - ringStart, 8);
      assert line[i] == x;
    }
  }

  /** Every phase-2 line joins points of a single ring of the layout (ring
      j div 8), and stays below n when n - 1 is a multiple of 8. */
  lemma RingLinesOnOneRing(n: nat, order: int, j: nat)
    requires j < |RingLines(n, order)|
    ensures forall x <- RingLines(n, order)[j] :: x >= 1 && (x - 1) / 8 == j / 8
    ensures (n - 1) % 8 == 0 ==> forall x <- RingLines(n, order)[j] :: x < n
  {
  }

  // ---------------------------------------------------------------------------
  // Phase 3: random lines

  /** `list(set(range(1, n)) - set(line))` after `np.random.shuffle`: every
      index of [1, n) other than `start`, each once, in any order. */
  predicate IsShuffledCandidates(cands: seq<nat>, start: nat, n: nat)
  {
    && |cands| == n - 2
    && Distinct(cands)
    && (forall x <- cands :: 1 <= x < n && x != start)
    && (forall x: nat | 1 <= x < n && x != start :: x in cands)
  }

  /** Some shuffle exists: the candidates in increasing order. */
  lemma ShuffledCandidatesExist(start: nat, n: nat)
    requires 1 <= start < n
    ensures exists cands :: IsShuffledCandidates(cands, start, n)
  {
    var sorted: seq<nat> := seq(n - 2, k requires 0 <= k => if k + 1 < start then k + 1 else k + 2);
    forall x: nat | 1 <= x < n && x != start
      ensures x in sorted
    {
      var k := if x < start then x - 1 else x - 2;
      assert sorted[k] == x;
    }
    assert IsShuffledCandidates(sorted, start, n);
  }

  /** Python's `s[:k]`: the first k elements, or all but the last -k when k
      is negative. */
  function PyPrefix(s: seq<nat>, k: int): (p: seq<nat>)
    ensures p <= s
    ensures k >= 0 ==> |p| == if k <= |s| then k else |s|
    ensures k < 0 ==> |p| == if -k <= |s| then |s| + k else 0
  {
    if k >= |s| then s
    else if k >= 0 then s[..k]
    else if -k <= |s| then s[..|s| + k]
    else []
  }

  /** A line phase 3 may append: different points, none of them the centre,
      and order + 1 of them whenever the n - 2 candidates suffice. */
  predicate IsDrawnLine(line: seq<nat>, n: nat, order: int)
  {
    && |line| >= 1
    && (0 <= order <= n - 2 ==> |line| == order + 1)
    && Distinct(line)
    && forall x <- line :: 1 <= x < n
  }

  /** Entries never decrease. */
  predicate Sorted(s: seq<nat>)
  {
    forall i, j :: 0 <= i < j < |s| ==> s[i] <= s[j]
  }

  /** `x` put into the sorted list `s` at its place. */
  function Insert(x: nat, s: seq<nat>): (r: seq<nat>)
    requires Sorted(s)
    ensures Sorted(r) && multiset(r) == multiset(s) + multiset{x}
    ensures |r| == |s| + 1 && (r[0] == x || (|s| > 0 && r[0] == s[0]))
  {
    if |s| == 0 then [x]
    else if x <= s[0] then [x] + s
    else
      var rest := Insert(x, s[1..]);
      assert s == [s[0]] + s[1..];
      assert forall j :: 0 <= j < |rest| ==> s[0] <= rest[0] <= rest[j];
      [s[0]] + rest
  }

  /** Python's `sorted` on a list of indices: the same entries in
      non-decreasing order. */
  function Sort(s: seq<nat>): (r: seq<nat>)
    ensures Sorted(r) && multiset(r) == multiset(s)
  {
    if |s| == 0 then []
    else
      assert s == [s[0]] + s[1..];
      Insert(s[0], Sort(s[1..]))
  }

  /** Two sorted lists with the same multiset start with the same entry,
      their least one. */
  lemma SortedSameHead(a: seq<nat>, b: seq<nat>)
    requires Sorted(a) && Sorted(b) && multiset(a) == multiset(b) && |a| > 0
    ensures |b| > 0 && a[0] == b[0]
  {
    assert a[0] in multiset(b);
    assert b[0] in multiset(a);
    var i :| 0 <= i < |a| && a[i] == b[0];
    var j :| 0 <= j < |b| && b[j] == a[0];
    assert a[0] <= a[i] && b[0] <= b[j];
  }

  /** A list is determined by its multiset once it is sorted. */
  lemma {:induction false} SortedUnique(a: seq<nat>, b: seq<nat>)
    requires Sorted(a) && Sorted(b) && multiset(a) == multiset(b)
    ensures a == b
  {
    if |a| == 0 {
      assert |b| == |multiset(b)| == 0;
    } else {
      SortedSameHead(a, b);
      assert a == [a[0]] + a[1..] && b == [b[0]] + b[1..];
      assert multiset(a[1..]) == multiset(b[1..]) by {
        assert multiset(a) == multiset{a[0]} + multiset(a[1..]);
        assert multiset(b) == multiset{b[0]} + multiset(b[1..]);
        assert multiset(a[1..]) == multiset(a) - multiset{a[0]};
        assert multiset(b[1..]) == multiset(b) - multiset{b[0]};
      }
      SortedUnique(a[1..], b[1..]);
    }
  }

  /** `sorted(a) == sorted(b)` decides whether a and b hold the same
      entries with the same multiplicities. */
  lemma SortedEqualIffSameMultiset(a: seq<nat>, b: seq<nat>)
    ensures Sort(a) == Sort(b) <==> multiset(a) == multiset(b)
  {
    if multiset(a) == multiset(b) {
      SortedUnique(Sort(a), Sort(b));
    }
  }

  /** `sorted(line) not in [sorted(l) for l in lines]`: no listed line has
      the same entries, counted with multiplicity, as `line`. */
  predicate NotYetListed(line: seq<nat>, lines: seq<seq<nat>>)
    ensures NotYetListed(line, lines) <==> forall l: seq<nat> | l in lines :: multiset(l) != multiset(line)
  {
    assert forall l: seq<nat> | l in lines :: Sort(l) == Sort(line) <==> multiset(l) == multiset(line) by {
      forall l: seq<nat> | l in lines
        ensures Sort(l) == Sort(line) <==> multiset(l) == multiset(line)
      {
        SortedEqualIffSameMultiset(l, line);
      }
    }
    forall l <- lines :: Sort(l) != Sort(line)
  }

  /** A drawn line, `[start] + candidates[:order]`, has distinct entries in
      [1, n), and order + 1 of them when there are enough candidates. */
  lemma DrawnLineIsValid(start: nat, cands: seq<nat>, n: nat, order: int)
    requires 1 <= start < n && IsShuffledCandidates(cands, start, n)
    ensures IsDrawnLine([start] + PyPrefix(cands, order), n, order)
  {
    var p := PyPrefix(cands, order);
    var line := [start] + p;
    forall i, j | 0 <= i < j < |line|
      ensures line[i] != line[j]
    {
      assert line[j] == cands[j - 1];
      if i > 0 {
        assert line[i] == cands[i - 1];
      } else {
        assert cands[j - 1] in cands;
      }
    }
    forall i | 0 <= i < |line|
      ensures 1 <= line[i] < n
    {
      if i > 0 {
        assert line[i] == cands[i - 1] && cands[i - 1] in cands;
      }
    }
  }

  /** Phase 3 of `generate_projective_lines`: draw a start point and a
      shuffle, keep the line unless a listed line sorts to the same list, until
      there are `numLines` lines. The random generator is replaced by a free
      choice; at most `fuel` draws are made, since the Python loop need not
      terminate. */
  method FillRandomLines(lines: seq<seq<nat>>, n: nat, order: int, numLines: nat, fuel: nat)
    returns (r: Outcome, draws: nat)
    ensures draws <= fuel && r != ZeroDivision
    ensures |lines| >= numLines ==> r == Lines(lines) && draws == 0
    ensures r == EmptyDrawRange <==> |lines| < numLines && n <= 1
    ensures r == OutOfDraws ==> draws == fuel && |lines| < numLines
    ensures r.Lines? ==> |r.lines| >= numLines && r.lines[..|lines|] == lines
    ensures r.Lines? && |lines| < numLines ==> |r.lines| == numLines
    ensures r.Lines? ==> forall j :: |lines| <= j < |r.lines| ==>
              IsDrawnLine(r.lines[j], n, order) && NotYetListed(r.lines[j], r.lines[..j])
  {
    var acc := lines;
    draws := 0;
    while |acc| < numLines
      invariant draws <= fuel
      invariant |lines| <= |acc| && acc[..|lines|] == lines
      invariant |lines| < numLines ==> |acc| <= numLines
      invariant |lines| >= numLines ==> acc == lines && draws == 0
      invariant n <= 1 ==> acc == lines
      invariant forall j :: |lines| <= j < |acc| ==> IsDrawnLine(acc[j], n, order) && NotYetListed(acc[j], acc[..j])
      decreases fuel - draws
    {
      if n <= 1 {
        r := EmptyDrawRange;
        return;
      }
      if draws == fuel {
        r := OutOfDraws;
        return;
      }
      var startPoint: nat :| 1 <= startPoint < n;
      ShuffledCandidatesExist(startPoint, n);
      var candidates :| IsShuffledCandidates(candidates, startPoint, n);
      var line := [startPoint] + PyPrefix(candidates, order);
      DrawnLineIsValid(startPoint, candidates, n, order);
      draws := draws + 1;
      if NotYetListed(line, acc) {
        assert (acc + [line])[..|acc|] == acc;
        assert forall j :: |lines| <= j < |acc| ==> (acc + [line])[..j] == acc[..j];
        acc := acc + [line];
      }
    }
    r := Lines(acc);
  }

  // ---------------------------------------------------------------------------
  // The whole generator

  /** The lines of phases 1 and 2, in the order they are appended. */
  function FixedLines(n: nat, order: int): (lines: seq<seq<nat>>)
    requires n != 1 || order <= 0
    ensures |lines| == 8 + 8 * RingCount(n)
  {
    CentreLines(n, order) + RingLines(n, order)
  }

  /** `generate_projective_lines`: the three phases, then the first
      N = order^2 + order + 1 lines. When phases 1 and 2 already give N
      lines, no draw is made and the result is their first N lines. */
  method GenerateLines(points: seq<RingPoint>, order: int, fuel: nat) returns (r: Outcome, draws: nat)
    ensures r == ZeroDivision <==> |points| == 1 && order >= 1
    ensures draws <= fuel
    ensures r.Lines? ==> |r.lines| == PlaneSize(order)
    ensures r.Lines? ==> forall j :: 0 <= j < |r.lines| && j < 8 + 8 * RingCount(|points|) ==>
              r.lines[j] == FixedLines(|points|, order)[j]
    ensures r.Lines? ==> forall j :: 8 + 8 * RingCount(|points|) <= j < |r.lines| ==>
              IsDrawnLine(r.lines[j], |points|, order) && NotYetListed(r.lines[j], r.lines[..j])
    ensures r == EmptyDrawRange <==>
              |points| <= 1 && !(|points| == 1 && order >= 1) && 8 + 8 * RingCount(|points|) < PlaneSize(order)
    ensures r == OutOfDraws ==> draws == fuel
    ensures !(|points| == 1 && order >= 1) && PlaneSize(order) <= 8 + 8 * RingCount(|points|) ==>
              draws == 0 && r == Lines(FixedLines(|points|, order)[..PlaneSize(order)])
  {
    var numPoints := |points|;
    var numLines := PlaneSize(order);
    var centre := BuildCentreLines(numPoints, order);
    if centre == ZeroDivision {
      r, draws := ZeroDivision, 0;
      return;
    }
    var ring := BuildRingLines(numPoints, order);
    var lines := centre.lines + ring;
    assert lines == FixedLines(numPoints, order);
    var filled;
    filled, draws := FillRandomLines(lines, numPoints, order, numLines, fuel);
    if !filled.Lines? {
      r := filled;
      return;
    }
    var all := filled.lines;
    var kept := all[..numLines];
    assert forall j :: 0 <= j < |lines| && j < numLines ==> kept[j] == all[j] == lines[j] by {
      assert all[..|lines|] == lines;
    }
    assert forall j :: |lines| <= j < numLines ==> kept[j] == all[j] && kept[..j] == all[..j];
    r := Lines(kept);
  }

  /** For order 7 and the 57 points the layout places, phases 1 and 2 give
      8 + 7 * 8 = 64 lines, so the random phase never runs; each of the 57
      lines kept has 8 different valid indices. */
  lemma Order7FixedLines()
    ensures PointCount(7) == 57 && PlaneSize(7) == 57
    ensures |FixedLines(57, 7)| == 64
    ensures forall j :: 0 <= j < 57 ==>
              |FixedLines(57, 7)[j]| == 8 && Distinct(FixedLines(57, 7)[j])
              && forall x <- FixedLines(57, 7)[j] :: x < 57
  {
    assert RingCount(57) == 7;
    var fixed := FixedLines(57, 7);
    forall j | 0 <= j < 57
      ensures |fixed[j]| == 8 && Distinct(fixed[j]) && forall x <- fixed[j] :: x < 57
    {
      if j < 8 {
        CentreLineDistinct(j + 1, 57, 7);
      } else {
        RingLineIsWholeRing(1 + 8 * ((j - 8) / 8), (j - 8) % 8);
        RingLinesOnOneRing(57, 7, j - 8);
      }
    }
  }

  /** The whole order-7 pipeline of `visualize_projective_plane_curved`
      before rendering: 57 points and 57 lines of 8 distinct valid indices,
      whatever the random phase would have drawn. */
  method BuildPlane(fuel: nat) returns (points: seq<RingPoint>, r: Outcome, draws: nat)
    ensures |points| == 57 && r.Lines? && |r.lines| == 57 && draws == 0
    ensures forall j :: 0 <= j < 57 ==>
              |r.lines[j]| == 8 && Distinct(r.lines[j]) && forall x <- r.lines[j] :: x < |points|
  {
    points := GeneratePoints(7);
    Order7FixedLines();
    r, draws := GenerateLines(points, 7, fuel);
  }
}
