/**
 * The compositor of shapemotion.c, `movLayerDraw`: commit each moving
 * layer's pending position, then repaint the bounds of every moving layer
 * pixel by pixel, each pixel taking the colour of the first layer in paint
 * order whose shape contains it, or the background colour.
 */
module Draw {
  import opened Geometry
  import opened Shapes
  import opened Layers

  /** The two LCD commands the compositor issues. */
  datatype LcdOp = SetAreaCmd(area: Region) | WriteColorCmd(color: Color)

  /** The LCD controller, seen as the sequence of commands it has received. */
  class Lcd {
    var log: seq<LcdOp>

    constructor ()
      ensures log == []
    {
      log := [];
    }

    /** `lcd_setArea`: select the inclusive rectangle the following colour writes fill. */
    method SetArea(area: Region)
      modifies this
      ensures log == old(log) + [SetAreaCmd(area)]
    {
      log := log + [SetAreaCmd(area)];
    }

    /** `lcd_writeColor`: colour the next pixel of the selected rectangle. */
    method WriteColor(color: Color)
      modifies this
      ensures log == old(log) + [WriteColorCmd(color)]
    {
      log := log + [WriteColorCmd(color)];
    }
  }

  /** What the per-pixel probe reads of one layer: its shape, committed position and colour. */
  datatype Probe = Probe(shape: Shape, pos: Vec2, color: Color)

  /** The probe view of a paint list, in paint order. */
  ghost function Probes(layers: seq<Layer>): (ps: seq<Probe>)
    reads layers
    ensures |ps| == |layers|
  {
    seq(|layers|, i requires 0 <= i < |layers| reads layers => Probe(layers[i].shape, layers[i].pos, layers[i].color))
  }

  /** Whether the layer seen by `p` covers `pixel`. */
  predicate Covers(lib: ShapeLib, p: Probe, pixel: Vec2)
  {
    lib.check(p.shape, p.pos, pixel)
  }

  /** The colour of `pixel`: the first covering layer's colour, else the background colour. */
  function ColorAt(lib: ShapeLib, probes: seq<Probe>, bg: Color, pixel: Vec2): Color
  {
    if probes == [] then bg
    else if Covers(lib, probes[0], pixel) then probes[0].color
    else ColorAt(lib, probes[1..], bg, pixel)
  }

  /** A pixel no layer covers gets the background colour. */
  lemma {:induction false} UncoveredIsBackground(lib: ShapeLib, probes: seq<Probe>, bg: Color, pixel: Vec2)
    requires forall j :: 0 <= j < |probes| ==> !Covers(lib, probes[j], pixel)
    ensures ColorAt(lib, probes, bg, pixel) == bg
  {
    if probes != [] {
      UncoveredIsBackground(lib, probes[1..], bg, pixel);
    }
  }

  /**
   * The first covering layer in paint order decides the colour, whatever
   * the later layers cover: an earlier layer occludes a later one.
   */
  lemma {:induction false} FirstCoverWins(lib: ShapeLib, probes: seq<Probe>, bg: Color, pixel: Vec2, i: nat)
    requires i < |probes| && Covers(lib, probes[i], pixel)
    requires forall j :: 0 <= j < i ==> !Covers(lib, probes[j], pixel)
    ensures ColorAt(lib, probes, bg, pixel) == probes[i].color
  {
    if i > 0 {
      assert !Covers(lib, probes[0], pixel);
      FirstCoverWins(lib, probes[1..], bg, pixel, i - 1);
    }
  }

  /**
   * Under a sound shape library a layer only ever colours pixels inside its
   * own bounds: either no layer covers `pixel`, or the colour comes from the
   * first covering layer in paint order, and that layer's bounds contain
   * `pixel`.
   */
  lemma {:induction false} ColorFromBounds(lib: ShapeLib, probes: seq<Probe>, bg: Color, pixel: Vec2)
    requires BoundsSound(lib)
    ensures (forall j :: 0 <= j < |probes| ==> !Covers(lib, probes[j], pixel)) ||
            exists j :: 0 <= j < |probes| && Covers(lib, probes[j], pixel) &&
                        (forall k :: 0 <= k < j ==> !Covers(lib, probes[k], pixel)) &&
                        probes[j].color == ColorAt(lib, probes, bg, pixel) &&
                        InRegion(pixel, lib.bounds(probes[j].shape, probes[j].pos))
  {
    if probes != [] {
      if Covers(lib, probes[0], pixel) {
        assert InRegion(pixel, lib.bounds(probes[0].shape, probes[0].pos));
      } else {
        var rest := probes[1..];
        ColorFromBounds(lib, rest, bg, pixel);
        if exists j :: 0 <= j < |rest| && Covers(lib, rest[j], pixel) {
          var j :| 0 <= j < |rest| && Covers(lib, rest[j], pixel) &&
                   (forall k :: 0 <= k < j ==> !Covers(lib, rest[k], pixel)) &&
                   rest[j].color == ColorAt(lib, rest, bg, pixel) &&
                   InRegion(pixel, lib.bounds(rest[j].shape, rest[j].pos));
          assert probes[j + 1] == rest[j];
          forall k | 0 <= k < j + 1
            ensures !Covers(lib, probes[k], pixel)
          {
            if k > 0 {
              assert probes[k] == rest[k - 1];
            }
          }
        } else {
          forall j | 0 <= j < |probes|
            ensures !Covers(lib, probes[j], pixel)
          {
            if j > 0 {
              assert probes[j] == rest[j - 1];
            }
          }
        }
      }
    }
  }

  /** The per-pixel probe: walk the paint list and stop at the first layer whose shape covers `pixel`. */
  method ProbeColor(lib: ShapeLib, layers: seq<Layer>, bg: Color, pixel: Vec2) returns (color: Color)
    ensures color == ColorAt(lib, Probes(layers), bg, pixel)
  {
    ghost var probes := Probes(layers);
    color := bg;
    var i := 0;
    while i < |layers|
      invariant 0 <= i <= |layers|
      invariant ColorAt(lib, probes, bg, pixel) == ColorAt(lib, probes[i..], bg, pixel)
    {
      assert probes[i..][1..] == probes[i + 1..];
      if lib.check(layers[i].shape, layers[i].pos, pixel) {
        color := layers[i].color;
        return;
      }
      i := i + 1;
    }
  }

  /** Row `y`, columns `x0` to `x1` inclusive, left to right. */
  function Row(y: int, x0: int, x1: int): (r: seq<Vec2>)
    ensures |r| == if x0 <= x1 then x1 - x0 + 1 else 0
  {
    seq(if x0 <= x1 then x1 - x0 + 1 else 0, k => Vec2(x0 + k, y))
  }

  /** The rows of `b` above `y`, top to bottom. */
  function Rows(b: Region, y: int): seq<Vec2>
    requires b.topLeft.y <= y
    decreases y - b.topLeft.y
  {
    if y == b.topLeft.y then []
    else Rows(b, y - 1) + Row(y - 1, b.topLeft.x, b.botRight.x)
  }

  /** Every pixel of the inclusive rectangle `b`, row by row. */
  function RegionPixels(b: Region): seq<Vec2>
  {
    if b.botRight.y < b.topLeft.y then [] else Rows(b, b.botRight.y + 1)
  }

  /** Row-major order: `p` is on an earlier row, or on the same row further left. */
  predicate RowMajorBefore(p: Vec2, q: Vec2)
  {
    p.y < q.y || (p.y == q.y && p.x < q.x)
  }

  /** The rows above `y` hold exactly the pixels of `b` above `y`, in strictly increasing row-major order. */
  lemma {:induction false} RowsSpec(b: Region, y: int)
    requires b.topLeft.y <= y <= b.botRight.y + 1
    ensures forall p :: p in Rows(b, y) <==> InRegion(p, b) && p.y < y
    ensures forall i, j :: 0 <= i < j < |Rows(b, y)| ==> RowMajorBefore(Rows(b, y)[i], Rows(b, y)[j])
    decreases y - b.topLeft.y
  {
    if y > b.topLeft.y {
      RowsSpec(b, y - 1);
      var above := Rows(b, y - 1);
      var row := Row(y - 1, b.topLeft.x, b.botRight.x);
      assert Rows(b, y) == above + row;
      forall p
        ensures p in Rows(b, y) <==> InRegion(p, b) && p.y < y
      {
        if InRegion(p, b) && p.y == y - 1 {
          assert row[p.x - b.topLeft.x] == p;
        }
        if p in row {
          var k :| 0 <= k < |row| && row[k] == p;
        }
      }
      forall i, j | 0 <= i < j < |Rows(b, y)|
        ensures RowMajorBefore(Rows(b, y)[i], Rows(b, y)[j])
      {
        if j >= |above| && i < |above| {
          assert above[i] in above;
        }
      }
    }
  }

  /**
   * The pixels of a region are exactly the pixels of the inclusive
   * rectangle, each listed once, in row-major order.
   */
  lemma RegionPixelsSpec(b: Region)
    ensures forall p :: p in RegionPixels(b) <==> InRegion(p, b)
    ensures forall i, j :: 0 <= i < j < |RegionPixels(b)| ==> RowMajorBefore(RegionPixels(b)[i], RegionPixels(b)[j])
  {
    if b.topLeft.y <= b.botRight.y {
      RowsSpec(b, b.botRight.y + 1);
    }
  }

  /** One colour write per pixel, in the order given. */
  function Paint(lib: ShapeLib, probes: seq<Probe>, bg: Color, pixels: seq<Vec2>): (ops: seq<LcdOp>)
    ensures |ops| == |pixels|
  {
    seq(|pixels|, k requires 0 <= k < |pixels| => WriteColorCmd(ColorAt(lib, probes, bg, pixels[k])))
  }

  /** Painting a concatenation is painting one part after the other. */
  lemma PaintAppend(lib: ShapeLib, probes: seq<Probe>, bg: Color, a: seq<Vec2>, b: seq<Vec2>)
    ensures Paint(lib, probes, bg, a + b) == Paint(lib, probes, bg, a) + Paint(lib, probes, bg, b)
  {
  }

  /** The inner loop over the columns of one row. */
  method PaintRow(lib: ShapeLib, layers: seq<Layer>, bg: Color, row: int, x0: int, x1: int, lcd: Lcd)
    modifies lcd
    ensures lcd.log == old(lcd.log) + Paint(lib, Probes(layers), bg, Row(row, x0, x1))
  {
    ghost var log0 := lcd.log;
    ghost var probes := Probes(layers);
    var col := x0;
    while col <= x1
      invariant x0 <= col || x1 < x0
      invariant x0 <= x1 ==> col <= x1 + 1
      invariant x1 < x0 ==> col == x0
      invariant lcd.log == log0 + Paint(lib, probes, bg, Row(row, x0, col - 1))
    {
      var color := ProbeColor(lib, layers, bg, Vec2(col, row));
      lcd.WriteColor(color);
      assert Row(row, x0, col) == Row(row, x0, col - 1) + [Vec2(col, row)];
      PaintAppend(lib, probes, bg, Row(row, x0, col - 1), [Vec2(col, row)]);
      col := col + 1;
    }
    if x1 < x0 {
      assert |Row(row, x0, col - 1)| == 0 && |Row(row, x0, x1)| == 0;
    }
  }

  /** The row and column loops over one region. */
  method PaintRegion(lib: ShapeLib, layers: seq<Layer>, bg: Color, bounds: Region, lcd: Lcd)
    modifies lcd
    ensures lcd.log == old(lcd.log) + Paint(lib, Probes(layers), bg, RegionPixels(bounds))
  {
    ghost var log0 := lcd.log;
    ghost var probes := Probes(layers);
    var row := bounds.topLeft.y;
    while row <= bounds.botRight.y
      invariant bounds.topLeft.y <= row
      invariant bounds.topLeft.y <= bounds.botRight.y ==> row <= bounds.botRight.y + 1
      invariant bounds.botRight.y < bounds.topLeft.y ==> row == bounds.topLeft.y
      invariant lcd.log == log0 + Paint(lib, probes, bg, Rows(bounds, row))
    {
      PaintRow(lib, layers, bg, row, bounds.topLeft.x, bounds.botRight.x, lcd);
      PaintAppend(lib, probes, bg, Rows(bounds, row), Row(row, bounds.topLeft.x, bounds.botRight.x));
      row := row + 1;
    }
    if bounds.botRight.y < bounds.topLeft.y {
      assert Rows(bounds, row) == [];
    }
  }

  /** The command stream for repainting one area: select it, then colour each of its pixels. */
  function AreaOps(lib: ShapeLib, probes: seq<Probe>, bg: Color, area: Region): seq<LcdOp>
  {
    [SetAreaCmd(area)] + Paint(lib, probes, bg, RegionPixels(area))
  }

  /** The command stream for repainting the given areas in order. */
  function DrawOps(lib: ShapeLib, probes: seq<Probe>, bg: Color, areas: seq<Region>): seq<LcdOp>
  {
    if areas == [] then []
    else DrawOps(lib, probes, bg, areas[..|areas| - 1]) + AreaOps(lib, probes, bg, areas[|areas| - 1])
  }

  /** Repainting one more area appends its command stream. */
  lemma DrawOpsSnoc(lib: ShapeLib, probes: seq<Probe>, bg: Color, areas: seq<Region>, i: nat)
    requires i < |areas|
    ensures DrawOps(lib, probes, bg, areas[..i + 1]) ==
            DrawOps(lib, probes, bg, areas[..i]) + AreaOps(lib, probes, bg, areas[i])
  {
    assert areas[..i + 1][..i] == areas[..i];
  }

  /** The bounds of each moving layer's shape at its committed position, in list order. */
  ghost function Areas(lib: ShapeLib, mls: seq<MovLayer>): (r: seq<Region>)
    reads mls, LayersOf(mls)
    ensures |r| == |mls|
  {
    seq(|mls|, i requires 0 <= i < |mls| reads mls, LayersOf(mls) => lib.bounds(mls[i].layer.shape, mls[i].layer.pos))
  }

  /** The first loop of `movLayerDraw`: each moving layer's `posLast` takes its `pos`, and `pos` takes `posNext`. */
  method CommitPositions(mls: seq<MovLayer>)
    requires DistinctLayers(mls)
    modifies LayersOf(mls)`pos, LayersOf(mls)`posLast
    ensures forall i :: 0 <= i < |mls| ==>
              mls[i].layer.posLast == old(mls[i].layer.pos) && mls[i].layer.pos == old(mls[i].layer.posNext)
  {
    var i := 0;
    while i < |mls|
      invariant 0 <= i <= |mls|
      invariant forall k :: 0 <= k < i ==>
                  mls[k].layer.posLast == old(mls[k].layer.pos) && mls[k].layer.pos == old(mls[k].layer.posNext)
      invariant forall k :: i <= k < |mls| ==>
                  mls[k].layer.posLast == old(mls[k].layer.posLast) && mls[k].layer.pos == old(mls[k].layer.pos)
    {
      var l := mls[i].layer;
      assert l in LayersOf(mls);
      l.posLast := l.pos;
      l.pos := l.posNext;
      i := i + 1;
    }
  }

  /** One pass of the second loop of `movLayerDraw`: select `bounds`, then paint its pixels. */
  method DrawArea(lib: ShapeLib, layers: seq<Layer>, bg: Color, bounds: Region, lcd: Lcd)
    modifies lcd
    ensures lcd.log == old(lcd.log) + AreaOps(lib, Probes(layers), bg, bounds)
  {
    lcd.SetArea(bounds);
    PaintRegion(lib, layers, bg, bounds, lcd);
  }

  /** One iteration of the second loop of `movLayerDraw`, on entry `i` of the moving-layer list. */
  method DrawEntry(lib: ShapeLib, mls: seq<MovLayer>, i: nat, layers: seq<Layer>, bg: Color, lcd: Lcd,
                   ghost probes: seq<Probe>, ghost areas: seq<Region>, ghost log0: seq<LcdOp>)
    requires i < |mls| && probes == Probes(layers) && areas == Areas(lib, mls)
    requires lcd.log == log0 + DrawOps(lib, probes, bg, areas[..i])
    modifies lcd
    ensures lcd.log == log0 + DrawOps(lib, probes, bg, areas[..i + 1])
  {
    var bounds := lib.bounds(mls[i].layer.shape, mls[i].layer.pos);
    DrawArea(lib, layers, bg, bounds, lcd);
    DrawOpsSnoc(lib, probes, bg, areas, i);
  }

  /** The second loop of `movLayerDraw`: repaint the bounds of each moving layer in list order. */
  method DrawAreas(lib: ShapeLib, mls: seq<MovLayer>, layers: seq<Layer>, bg: Color, lcd: Lcd)
    modifies lcd
    ensures lcd.log == old(lcd.log) + DrawOps(lib, old(Probes(layers)), bg, old(Areas(lib, mls)))
  {
    ghost var probes := Probes(layers);
    ghost var areas := Areas(lib, mls);
    var i := 0;
    while i < |mls|
      invariant 0 <= i <= |mls|
      invariant lcd.log == old(lcd.log) + DrawOps(lib, probes, bg, areas[..i])
      invariant Probes(layers) == probes && Areas(lib, mls) == areas
      modifies lcd
    {
      DrawEntry(lib, mls, i, layers, bg, lcd, probes, areas, old(lcd.log));
      i := i + 1;
    }
    assert areas[..|mls|] == areas;
  }

  /**
   * `movLayerDraw(movLayers, layers)`: commit every moving layer's pending
   * position (`posLast` takes the old `pos`, `pos` takes `posNext`), then,
   * for each moving layer in list order, select its bounds on the LCD and
   * write one colour per pixel in row-major order, probing the paint list
   * `layers` at the committed positions.
   */
  method MovLayerDraw(lib: ShapeLib, mls: seq<MovLayer>, layers: seq<Layer>, bg: Color, lcd: Lcd)
    requires DistinctLayers(mls)
    modifies LayersOf(mls)`pos, LayersOf(mls)`posLast, lcd
    ensures forall i :: 0 <= i < |mls| ==>
              mls[i].layer.posLast == old(mls[i].layer.pos) && mls[i].layer.pos == old(mls[i].layer.posNext)
    ensures lcd.log == old(lcd.log) + DrawOps(lib, Probes(layers), bg, Areas(lib, mls))
  {
    CommitPositions(mls);
    DrawAreas(lib, mls, layers, bg, lcd);
  }
}
