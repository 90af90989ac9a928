/**
 * Layers and moving layers.  In the C code both are structs chained by
 * `next` pointers; here a list is a sequence whose order is the list's
 * order, and the records are objects because their fields are updated in
 * place.
 */
module Layers {
  import opened Geometry
  import opened Shapes

  /** The display colours the game uses (their 16-bit encodings live in the LCD library). */
  datatype Color = Black | Blue | Violet

  /** A shape placed on the screen, with its committed, previous and next positions. */
  class Layer {
    const shape: Shape
    /** Position the compositor paints. */
    var pos: Vec2
    /** Position before the last commit. */
    var posLast: Vec2
    /** Position the motion step prepares for the next commit. */
    var posNext: Vec2
    const color: Color

    /** A statically initialised layer: `posLast` and `posNext` start at the origin. */
    constructor (shape: Shape, pos: Vec2, color: Color)
      ensures this.shape == shape && this.pos == pos && this.color == color
      ensures posLast == Vec2(0, 0) && posNext == Vec2(0, 0)
    {
      this.shape := shape;
      this.pos := pos;
      this.color := color;
      posLast := Vec2(0, 0);
      posNext := Vec2(0, 0);
    }
  }

  /** A reference to a layer together with the velocity that moves it each step. */
  class MovLayer {
    const layer: Layer
    var velocity: Vec2

    constructor (layer: Layer, velocity: Vec2)
      ensures this.layer == layer && this.velocity == velocity
    {
      this.layer := layer;
      this.velocity := velocity;
    }
  }

  /** No two entries of a moving-layer list move the same layer (so no entry occurs twice). */
  ghost predicate DistinctLayers(mls: seq<MovLayer>)
  {
    forall i, j :: 0 <= i < j < |mls| ==> mls[i].layer != mls[j].layer
  }

  /** The layers a moving-layer list refers to. */
  ghost function LayersOf(mls: seq<MovLayer>): set<Layer>
  {
    set i | 0 <= i < |mls| :: mls[i].layer
  }

  /** What the motion step reads and writes of one moving layer. */
  datatype Mover = Mover(shape: Shape, posNext: Vec2, velocity: Vec2)

  /** The motion-relevant state of one moving layer. */
  ghost function MoverOf(ml: MovLayer): Mover
    reads ml, ml.layer
  {
    Mover(ml.layer.shape, ml.layer.posNext, ml.velocity)
  }

  /** The motion-relevant state of every entry of a moving-layer list, in list order. */
  ghost function Movers(mls: seq<MovLayer>): (ms: seq<Mover>)
    reads mls, LayersOf(mls)
    ensures |ms| == |mls|
  {
    seq(|mls|, i requires 0 <= i < |mls| reads mls, LayersOf(mls) =>
      MoverOf(mls[i]))
  }
}
