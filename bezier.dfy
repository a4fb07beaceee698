/** `create_bezier_curve`, written identically in both scripts: a cubic
    Bezier path from p1 to p2 whose two control points sit on either side of
    the chord's midpoint, offset perpendicular to the chord. Coordinates are
    exact reals here, where the scripts use floating point. */
module Bezier {

  datatype Vec = Vec(x: real, y: real)

  /** The drawing instruction attached to each vertex of a path. */
  datatype Code = MoveTo | Curve4

  datatype Path = Path(verts: seq<Vec>, codes: seq<Code>)

  function Dot(u: Vec, v: Vec): real
  {
    u.x * v.x + u.y * v.y
  }

  function Sub(u: Vec, v: Vec): Vec
  {
    Vec(u.x - v.x, u.y - v.y)
  }

  /** The z-component of the cross product: positive when v lies to the
      left of u. */
  function Cross(u: Vec, v: Vec): real
  {
    u.x * v.y - u.y * v.x
  }

  function Midpoint(p1: Vec, p2: Vec): Vec
  {
    Vec((p1.x + p2.x) / 2.0, (p1.y + p2.y) / 2.0)
  }

  /** The two control points for the chord p1 -> p2 bowed by `factor`.
      They are mirror images of each other through the midpoint, their
      offset from it is perpendicular to the chord, the offset's squared
      length is factor^2 times the chord's squared length, and the first
      control point lies to the left of the chord when factor > 0 (to the
      right when factor < 0). */
  function ControlPoints(p1: Vec, p2: Vec, factor: real): (ctrl: (Vec, Vec))
    ensures ctrl.0.x + ctrl.1.x == p1.x + p2.x && ctrl.0.y + ctrl.1.y == p1.y + p2.y
    ensures Dot(Sub(ctrl.0, Midpoint(p1, p2)), Sub(p2, p1)) == 0.0
    ensures Dot(Sub(ctrl.0, Midpoint(p1, p2)), Sub(ctrl.0, Midpoint(p1, p2)))
         == factor * factor * Dot(Sub(p2, p1), Sub(p2, p1))
    ensures Cross(Sub(p2, p1), Sub(ctrl.0, Midpoint(p1, p2))) == factor * Dot(Sub(p2, p1), Sub(p2, p1))
  {
    var dx := p2.x - p1.x;
    var dy := p2.y - p1.y;
    var perpX := -dy * factor;
    var perpY := dx * factor;
    var ctrl1 := Vec((p1.x + p2.x) / 2.0 + perpX, (p1.y + p2.y) / 2.0 + perpY);
    var ctrl2 := Vec((p1.x + p2.x) / 2.0 - perpX, (p1.y + p2.y) / 2.0 - perpY);
    (ctrl1, ctrl2)
  }

  /** The path: move to p1, then one cubic segment through the two control
      points to p2, bowed by |factor| times the chord's length. */
  function CreateBezierCurve(p1: Vec, p2: Vec, factor: real): (path: Path)
    ensures |path.verts| == 4 && path.verts[0] == p1 && path.verts[3] == p2
    ensures path.codes == [MoveTo, Curve4, Curve4, Curve4]
    ensures path.verts[1].x + path.verts[2].x == p1.x + p2.x
    ensures path.verts[1].y + path.verts[2].y == p1.y + p2.y
    ensures Dot(Sub(path.verts[1], path.verts[2]), Sub(p2, p1)) == 0.0
    ensures Dot(Sub(path.verts[1], Midpoint(p1, p2)), Sub(path.verts[1], Midpoint(p1, p2)))
         == factor * factor * Dot(Sub(p2, p1), Sub(p2, p1))
    ensures Cross(Sub(p2, p1), Sub(path.verts[1], Midpoint(p1, p2))) == factor * Dot(Sub(p2, p1), Sub(p2, p1))
  {
    var ctrl := ControlPoints(p1, p2, factor);
    Path([p1, ctrl.0, ctrl.1, p2], [MoveTo, Curve4, Curve4, Curve4])
  }

  /** Drawing the chord the other way round gives the same curve traversed
      backwards: the vertices come in reverse order. */
  lemma CurveReversal(p1: Vec, p2: Vec, factor: real)
    ensures CreateBezierCurve(p2, p1, factor).verts
         == [p2, CreateBezierCurve(p1, p2, factor).verts[2], CreateBezierCurve(p1, p2, factor).verts[1], p1]
  {
  }
}
