/** Integer plane geometry shared by the shape, layer, motion and drawing code. */
module Geometry {

  /** A position or displacement on the screen: the C `Vec2`, whose `axes[0]` is x and `axes[1]` is y. */
  datatype Vec2 = Vec2(x: int, y: int)
  {
    /** The component `axes[axis]`. */
    function Axis(axis: nat): int
      requires axis < 2
    {
      if axis == 0 then x else y
    }

    /** This vector with `axes[axis]` replaced by `v` and the other component kept. */
    function WithAxis(axis: nat, v: int): (r: Vec2)
      requires axis < 2
      ensures r.Axis(axis) == v
      ensures forall other :: 0 <= other < 2 && other != axis ==> r.Axis(other) == Axis(other)
    {
      if axis == 0 then Vec2(v, y) else Vec2(x, v)
    }
  }

  /** Component-wise sum, the shape library's `vec2Add`. */
  function Add(a: Vec2, b: Vec2): (r: Vec2)
    ensures forall axis :: 0 <= axis < 2 ==> r.Axis(axis) == a.Axis(axis) + b.Axis(axis)
  {
    Vec2(a.x + b.x, a.y + b.y)
  }

  /** An axis-aligned rectangle given by its inclusive corners. */
  datatype Region = Region(topLeft: Vec2, botRight: Vec2)

  /** Whether pixel `p` lies in the inclusive rectangle `r`. */
  predicate InRegion(p: Vec2, r: Region)
  {
    r.topLeft.x <= p.x <= r.botRight.x && r.topLeft.y <= p.y <= r.botRight.y
  }
}
