/**
 * The shapes the game declares and the interface of the shape library that
 * measures and probes them.  The library's code (abShapeGetBounds,
 * abShapeCheck and the per-shape routines behind them) is not part of this
 * model: its two operations are carried as function values, and the only
 * thing assumed of them is that a shape contains no pixel outside its bounds (`BoundsSound`).
 */
module Shapes {
  import opened Geometry

  /**
   * The shape objects of shapemotion.c: `rectanglePanel` (used by both
   * paddles), `fieldOutline` (the playing field) and `circle8` (the ball).
   * Comparing two shapes compares these identities, as the C code compares
   * `AbShape` pointers.
   */
  datatype Shape = RectanglePanel | FieldOutline | Circle8

  /**
   * `bounds(s, c)` is the region `abShapeGetBounds` reports for shape `s`
   * centred at `c`; `check(s, c, p)` is `abShapeCheck`: whether `s` centred
   * at `c` covers pixel `p`.
   */
  datatype ShapeLib = ShapeLib(bounds: (Shape, Vec2) -> Region, check: (Shape, Vec2, Vec2) -> bool)

  /** Bounds soundness: every pixel a shape covers lies inside its bounds. */
  ghost predicate BoundsSound(lib: ShapeLib)
  {
    forall s, c, p :: lib.check(s, c, p) ==> InRegion(p, lib.bounds(s, c))
  }
}
