# Finite projective plane drawings of order 4 and 7: a Dafny model

The repository holds two plotting scripts. `code/4th-order.py` draws a
"projective plane of order 4" and `code/7th-order.py` one of order 7. Each
script does four things:

1. It places N = order² + order + 1 points: evenly on one circle for order 4,
   and as a centre plus rings of 8 for order 7.
2. It builds "lines", which are lists of point indices.
3. It joins every pair of points on a line with a cubic Bezier arc bowed
   perpendicular to the chord.
4. It renders the picture.

This project models the integer combinatorics of steps 1 and 2, and the
control-point arithmetic of step 3. It proves the counts, lengths, ranges and
distinctness facts that the scripts' docstrings and summary prints promise.

Modules:

- `Plane` (plane.dfy): the plane size `order ** 2 + order + 1`, the length
  of Python's `range`, and the modular-arithmetic facts both generators rely on.
- `Order4` (order4.dfy): the order-4 point layout (by slot) and the
  doubling-step line generator.
  - Line `s` is `[s, (s+1) mod N, (s+2) mod N, (s+4) mod N, …]`, taking `order` doubling steps.
  - With 21 points there are 21 lines. Each line has 5 distinct indices below 21.
- `Order7` (order7.dfy): the order-7 layout and the three-phase line generator.
  - The layout is a centre followed by rings of 8. It has `1 + 8·((N−1) div 8)` points: 57 for order 7.
  - Phase 1 makes 8 lines through the centre.
  - Phase 2 makes 8 rotations within each ring.
  - Phase 3 draws random lines until there are N lines, and rejects a line whose sorted entries match those of a listed line. That is, its entries, counted with multiplicity, match no listed line.
  - For 57 points, phases 1–2 already give 64 lines. So phase 3 makes no draw, and the result is 57 lines. Each of them has 8 distinct indices below 57.
- `Bezier` (bezier.dfy): `create_bezier_curve`, which is written identically
  in both scripts (code/4th-order.py:45-55 and code/7th-order.py:74-84). It
  is modelled over exact reals. The two control points are mirror images
  through the chord's midpoint. Their offset is perpendicular to the chord.

The model follows the code and not the prose where the two differ:

- The order-7 centre lines are not columns of the rings. The comment on
  code/7th-order.py:49 says the step picks points "at ring spacing", and the
  loop at line 44 starts one line at each of the first 8 points. But the
  step `(cur + 8) % (N − 1) + 1` adds 9, not 8, modulo N − 1 to `cur − 1`
  (`WalkClosedForm`). So the line started at 1 visits 1, 10, 19, 28, 37, 46
  and 55, one slot further round on each ring.
- The order-7 script run with order 4 would place 17 points, not 21
  (`PointCount`).
- Neither generator produces a projective plane. Order-4 lines 0 and 1 share
  the points 1 and 2 (`FirstTwoLinesShareTwoPoints`). No incidence axiom is
  stated.

The random phase is modelled as follows:

- NumPy's generator is replaced by a free (nondeterministic) choice of the
  start point and of the shuffled candidate list.
- Python's `sorted` is modelled by `Order7.Sort`. The test `sorted(a) == sorted(b)`
  is proved to hold exactly when a and b have equal multisets
  (`SortedEqualIffSameMultiset`). This is not the same as equal point sets
  when a listed line repeats an index.
- The Python loop need not terminate, so the model allows at most `fuel` draws.
  When the draws run out it reports `OutOfDraws`.
- The scripts' exceptions become outcomes of `Order7.GenerateLines`:
  - `ZeroDivision`: `% (num_points - 1)` with a single point and order ≥ 1.
  - `EmptyDrawRange`: `randint(1, num_points)` with at most one point.

## Model

| member | source | states |
|---|---|---|
| Plane.PlaneSize | code/4th-order.py:13 | N = order² + order + 1 is at least 1 for every integer order, and exceeds order when order ≥ 0 |
| Order4.GeneratePoints | code/4th-order.py:8-21 | returns exactly N points, point i being slot i of the circle |
| Order4.Pow2StrictlyIncreasing | code/4th-order.py:36-40 | the doubled step strictly grows: 2^j < 2^k for j < k |
| Order4.Line | code/4th-order.py:34-41 | line `s` has order + 1 entries (for order ≥ 0), starts with s, entry k+1 is (s + 2^k) mod N, and every entry is below N |
| Order4.GenerateLines | code/4th-order.py:23-43 | one line per start point, Line(s) at position s, truncated to N lines; with N points exactly N lines and none dropped |
| Order4.LineDistinct | code/4th-order.py:36-40 | when 2^(order−1) < N, every line's entries are pairwise distinct |
| Order4.LineEntriesDiffer | code/4th-order.py:38 | two positions i < j of a line hold different indices, offsets 0/2^(i−1) and 2^(j−1) being distinct and less than N apart |
| Order4.Order4Lines | code/4th-order.py:24-43 | for order 4 and 21 points, line s is [s, s+1, s+2, s+4, s+8] mod 21 and its 5 entries are distinct |
| Order4.BuildPlane | code/4th-order.py:61-62 | the order-4 pipeline gives 21 points and 21 lines, line s starting at s with 5 distinct indices below 21 |
| Order4.FirstTwoLinesShareTwoPoints | code/4th-order.py:34-41 | lines 0 and 1 are [0,1,2,4,8] and [1,2,3,5,9] and both contain points 1 and 2 |
| Order7.PointCount | code/7th-order.py:13-20 | the layout's size 1 + 8·((N−1) div 8) never exceeds N, and equals N exactly when N − 1 is a multiple of 8 |
| Order7.GeneratePoints | code/7th-order.py:8-29 | returns PointCount(order) points: the centre first, then index i ≥ 1 is slot (i−1) mod 8 of ring (i−1) div 8 |
| Order7.Walk | code/7th-order.py:46-49 | after at least one step of `(cur + 8) % (N−1) + 1` the index lies in [1, N−1] |
| Order7.WalkClosedForm | code/7th-order.py:49 | the walk from `start` reaches (start − 1 + 9k) mod (N − 1) + 1 after k steps |
| Order7.CentreLine | code/7th-order.py:45-50 | a centre line is the centre 0 followed by `order` walk indices |
| Order7.CentreLines | code/7th-order.py:44-50 | phase 1 makes exactly 8 lines, line j started at j + 1 |
| Order7.BuildCentreLines | code/7th-order.py:42-50 | phase 1 fails with a zero division exactly when there is one point and order ≥ 1, and otherwise returns the 8 centre lines |
| Order7.CentreLineDistinct | code/7th-order.py:44-50 | when 9·(order − 1) < N − 1 a centre line's entries are distinct and below N |
| Order7.RingCount | code/7th-order.py:53 | ring r is visited exactly when its start 1 + 8r is below N |
| Order7.RingLine | code/7th-order.py:55-58 | a ring line has order + 1 entries, entry i is (ring_start + offset + i) mod 8 + ring_start, all within [ring_start, ring_start + 8) |
| Order7.RingLines | code/7th-order.py:53-59 | phase 2 makes 8 lines per ring start, line j being rotation j mod 8 of ring start 1 + 8·(j div 8) |
| Order7.BuildRingLines | code/7th-order.py:52-59 | the nested loops build exactly RingLines |
| Order7.RingLineIsWholeRing | code/7th-order.py:56-57 | with 8 entries per line, a ring line lists each of its ring's 8 indices exactly once |
| Order7.RingLinesOnOneRing | code/7th-order.py:53-57 | every phase-2 line joins points of one ring of the layout, and stays below N when N − 1 is a multiple of 8 |
| Order7.ShuffledCandidatesExist | code/7th-order.py:66-67 | for every start in [1, N) the candidate list exists: all of [1, N) but the start, each once |
| Order7.PyPrefix | code/7th-order.py:68 | Python's `s[:k]` is a prefix of length min(k, len) for k ≥ 0 and len + k (at least 0) for negative k |
| Order7.Sort | code/7th-order.py:69 | `sorted` returns a non-decreasing list with the same entries, counted with multiplicity |
| Order7.SortedUnique | code/7th-order.py:69 | two non-decreasing lists with the same multiset are equal, so `sorted` has only one possible result |
| Order7.SortedEqualIffSameMultiset | code/7th-order.py:69 | `sorted(a) == sorted(b)` holds exactly when a and b have the same multiset of entries |
| Order7.NotYetListed | code/7th-order.py:69 | the test `sorted(line) not in [sorted(l) for l in lines]` holds exactly when no listed line has the same multiset of entries as `line` |
| Order7.DrawnLineIsValid | code/7th-order.py:63-68 | a drawn line has distinct entries in [1, N), and exactly order + 1 of them whenever 0 ≤ order ≤ N − 2 |
| Order7.FillRandomLines | code/7th-order.py:61-70 | phase 3 makes no draw when there are already enough lines; otherwise it fails on an empty draw range or stops with exactly N lines, each appended line having distinct entries in [1, N), order + 1 of them whenever 0 ≤ order ≤ N − 2, and sorted entries (as a multiset) that match no earlier line |
| Order7.FixedLines | code/7th-order.py:42-59 | phases 1 and 2 together give 8 + 8·RingCount(N) lines |
| Order7.GenerateLines | code/7th-order.py:31-72 | on success exactly N lines: the phase-1/2 lines first, then drawn lines of distinct entries in [1, N), order + 1 of them whenever 0 ≤ order ≤ N − 2, each with sorted entries (as a multiset) that match no earlier line; when phases 1–2 already give N lines, no draw is made and the result is their first N; the exception cases exactly as in Python |
| Order7.Order7FixedLines | code/7th-order.py:37-59 | for order 7 the layout has 57 points, phases 1–2 give 64 lines, and each of the first 57 has 8 distinct indices below 57 |
| Order7.BuildPlane | code/7th-order.py:90-91 | the order-7 pipeline gives 57 points and 57 lines of 8 distinct valid indices, with no random draw, whatever the draw bound |
| Bezier.ControlPoints | code/4th-order.py:47-52 | the control points sum to p1 + p2 (mirror images through the midpoint), their offset from the midpoint is perpendicular to the chord, its squared length is factor² times the chord's, and the first control point lies on the left of p1 → p2 when factor > 0 and on the right when factor < 0 |
| Bezier.CreateBezierCurve | code/4th-order.py:45-55 | the path has 4 vertices from p1 to p2 with codes MOVETO, CURVE4 ×3; its control points are symmetric about the midpoint and differ by a vector perpendicular to the chord; the first lies |factor| times the chord's length from the midpoint, on the left of the chord for positive factor |
| Bezier.CurveReversal | code/7th-order.py:76-82 | drawing p2 → p1 gives the vertices of p1 → p2 in reverse order |

## Left out

- Rendering: figures, patches, glow circles, scatter, labels, `savefig`, `show`. This is matplotlib I/O.
- The printed summaries are left out as output. What they report (point count, line count, line sizes) is what `BuildPlane` states.
- The golden-ratio hue and the HSL to RGB conversion are left out. They are floating-point colour arithmetic with no integer content.
- `np.linalg.norm` and `adjusted_factor` are left out because they need square roots. The curvature factor is an arbitrary real parameter of `Bezier.ControlPoints`.
- Bezier.ControlPoints: computed over exact reals, so floating-point rounding is not modelled.
- Order4.GeneratePoints: point coordinates (`radius · cos`, `radius · sin`) are not modelled. A point is its slot on the circle.
- Order7.GeneratePoints: point coordinates and ring radii are not modelled. A point is its (ring, slot) place in the layout.
- Order7.FillRandomLines: NumPy's seeded generator is replaced by a free choice, so reproducibility under seed 42 is not modelled.
- Order7.FillRandomLines: the draw count is bounded by `fuel`. A Python run that would loop forever shows up only as `OutOfDraws`.
- Projective-plane incidence axioms are not stated, because the generated lines do not satisfy them.
- Orders other than 4 and 7: the range facts for ring lines assume that N − 1 is a multiple of 8, and they are stated under that hypothesis.
