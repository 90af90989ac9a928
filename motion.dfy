/**
 * The motion step of shapemotion.c, `mlAdvance`: every moving layer, in list
 * order, is moved by its velocity from its pending position `posNext`, and on
 * each axis where the shape's bounds at the tentative position leave the
 * fence that velocity component is reflected.  The ball (the layer drawn
 * with the ball's shape) has an extra branch for its far edge that reflects
 * a second time, sounds the hit tone and scores a point.
 */
module Motion {
  import opened Geometry
  import opened Shapes
  import opened Layers
  import opened Sound
  import opened Scoring

  /** Whether bounds `b` stick out of `fence` on `axis`, before its top-left or past its bottom-right. */
  predicate OutsideFence(b: Region, fence: Region, axis: nat)
    requires axis < 2
  {
    b.topLeft.Axis(axis) < fence.topLeft.Axis(axis) || b.botRight.Axis(axis) > fence.botRight.Axis(axis)
  }

  /** Whether bounds `b` stick out past the bottom-right of `fence` on `axis`. */
  predicate PastFarEdge(b: Region, fence: Region, axis: nat)
    requires axis < 2
  {
    b.botRight.Axis(axis) > fence.botRight.Axis(axis)
  }

  /** The tentative position, the velocity and the far-edge hits counted so far, while one layer is advanced. */
  datatype Pass = Pass(pos: Vec2, velocity: Vec2, hits: nat)

  /** Negate the velocity on `axis` and move the position by twice the new component. */
  function Reflect(p: Pass, axis: nat): Pass
    requires axis < 2
  {
    var v := -p.velocity.Axis(axis);
    Pass(p.pos.WithAxis(axis, p.pos.Axis(axis) + 2 * v), p.velocity.WithAxis(axis, v), p.hits)
  }

  /**
   * One iteration of the axis loop: the fence reflection, then, for the
   * ball only, the far-edge reflection, which also counts a hit.  `b` is the
   * shape's bounds at the tentative position, computed once before the loop.
   */
  function AxisStep(b: Region, fence: Region, isBall: bool, p: Pass, axis: nat): Pass
    requires axis < 2
  {
    var fenced := if OutsideFence(b, fence, axis) then Reflect(p, axis) else p;
    if isBall && PastFarEdge(b, fence, axis) then Reflect(fenced, axis).(hits := fenced.hits + 1) else fenced
  }

  /** The first `n` iterations of the axis loop. */
  function AxisSteps(b: Region, fence: Region, isBall: bool, start: Pass, n: nat): Pass
    requires n <= 2
  {
    if n == 0 then start else AxisStep(b, fence, isBall, AxisSteps(b, fence, isBall, start, n - 1), n - 1)
  }

  /** The position `posNext + velocity` a layer is first moved to. */
  function Tentative(m: Mover): Vec2
  {
    Add(m.posNext, m.velocity)
  }

  /** The shape's bounds at the tentative position, against which both axes are tested. */
  function TentativeBounds(lib: ShapeLib, m: Mover): Region
  {
    lib.bounds(m.shape, Tentative(m))
  }

  /** The outcome of advancing one moving layer; `ballShape` is the ball layer's shape. */
  function Advance(lib: ShapeLib, fence: Region, ballShape: Shape, m: Mover): Pass
  {
    AxisSteps(TentativeBounds(lib, m), fence, m.shape == ballShape, Pass(Tentative(m), m.velocity, 0), 2)
  }

  /** Advancing a layer is the axis step for x, then the axis step for y. */
  lemma AdvanceUnfold(lib: ShapeLib, fence: Region, ballShape: Shape, m: Mover)
    ensures var b := TentativeBounds(lib, m);
            var isBall := m.shape == ballShape;
            Advance(lib, fence, ballShape, m) ==
              AxisStep(b, fence, isBall, AxisStep(b, fence, isBall, Pass(Tentative(m), m.velocity, 0), 0), 1)
  {
    var b := TentativeBounds(lib, m);
    var isBall := m.shape == ballShape;
    var start := Pass(Tentative(m), m.velocity, 0);
    assert AxisSteps(b, fence, isBall, start, 1) == AxisStep(b, fence, isBall, start, 0);
  }

  /** Every moving layer advanced, each from its own state. */
  function AdvanceAll(lib: ShapeLib, fence: Region, ballShape: Shape, ms: seq<Mover>): (r: seq<Mover>)
    ensures |r| == |ms|
  {
    seq(|ms|, i requires 0 <= i < |ms| =>
      var p := Advance(lib, fence, ballShape, ms[i]); Mover(ms[i].shape, p.pos, p.velocity))
  }

  /** The number of far-edge hits (so of hit tones and score calls) while the list is advanced. */
  function TotalHits(lib: ShapeLib, fence: Region, ballShape: Shape, ms: seq<Mover>): nat
  {
    if ms == [] then 0
    else TotalHits(lib, fence, ballShape, ms[..|ms| - 1]) + Advance(lib, fence, ballShape, ms[|ms| - 1]).hits
  }

  /** The hits of a prefix one longer add the hits of its last layer. */
  lemma TotalHitsSnoc(lib: ShapeLib, fence: Region, ballShape: Shape, ms: seq<Mover>, i: nat)
    requires i < |ms|
    ensures TotalHits(lib, fence, ballShape, ms[..i + 1]) ==
            TotalHits(lib, fence, ballShape, ms[..i]) + Advance(lib, fence, ballShape, ms[i]).hits
  {
    assert ms[..i + 1][..i] == ms[..i];
  }

  /** Reflecting twice in a row on the same axis restores both velocity and position. */
  lemma ReflectTwice(p: Pass, axis: nat)
    requires axis < 2
    ensures Reflect(Reflect(p, axis), axis) == p
    ensures Reflect(p, axis).velocity.Axis(axis) == -p.velocity.Axis(axis)
  {
  }

  /** An axis step leaves the other axis alone. */
  lemma AxisStepFrame(b: Region, fence: Region, isBall: bool, p: Pass, axis: nat, other: nat)
    requires axis < 2 && other < 2 && other != axis
    ensures AxisStep(b, fence, isBall, p, axis).pos.Axis(other) == p.pos.Axis(other)
    ensures AxisStep(b, fence, isBall, p, axis).velocity.Axis(other) == p.velocity.Axis(other)
  {
  }

  /**
   * One axis step in terms of the position `q` and velocity `v` on that axis:
   * kept inside the fence, reflected outside it, and, for the ball past the
   * far edge, reflected back again (so kept) with one hit counted.
   */
  lemma AxisStepSpec(b: Region, fence: Region, isBall: bool, p: Pass, axis: nat)
    requires axis < 2
    ensures var r := AxisStep(b, fence, isBall, p, axis);
            var v := p.velocity.Axis(axis);
            var q := p.pos.Axis(axis);
            (!OutsideFence(b, fence, axis) ==> r.velocity.Axis(axis) == v && r.pos.Axis(axis) == q) &&
            (OutsideFence(b, fence, axis) && !(isBall && PastFarEdge(b, fence, axis)) ==>
               r.velocity.Axis(axis) == -v && r.pos.Axis(axis) == q - 2 * v) &&
            (isBall && PastFarEdge(b, fence, axis) ==> r.velocity.Axis(axis) == v && r.pos.Axis(axis) == q) &&
            r.hits == p.hits + (if isBall && PastFarEdge(b, fence, axis) then 1 else 0)
  {
    if OutsideFence(b, fence, axis) {
      ReflectTwice(p, axis);
    }
  }

  /**
   * What one moving layer's pass does on one axis, in terms of the bounds at
   * the tentative position `t = posNext + velocity`, the velocity component
   * `v` on that axis and whether the layer is the ball:
   * - bounds inside the fence: `v` and `t` are kept;
   * - bounds outside, and not the ball past the far edge: `v` is negated and
   *   the position is `t - 2v`;
   * - the ball past the far edge: the second reflection undoes the first, so
   *   `v` is kept and the net move is exactly `v`.
   * In every case the magnitude of `v` is kept.
   */
  lemma AdvanceAxis(lib: ShapeLib, fence: Region, ballShape: Shape, m: Mover, axis: nat)
    requires axis < 2
    ensures var r := Advance(lib, fence, ballShape, m);
            var b := TentativeBounds(lib, m);
            var v := m.velocity.Axis(axis);
            var t := Tentative(m).Axis(axis);
            (!OutsideFence(b, fence, axis) ==> r.velocity.Axis(axis) == v && r.pos.Axis(axis) == t) &&
            (OutsideFence(b, fence, axis) && !(m.shape == ballShape && PastFarEdge(b, fence, axis)) ==>
               r.velocity.Axis(axis) == -v && r.pos.Axis(axis) == t - 2 * v) &&
            (m.shape == ballShape && PastFarEdge(b, fence, axis) ==>
               r.velocity.Axis(axis) == v && r.pos.Axis(axis) == m.posNext.Axis(axis) + v) &&
            (r.velocity.Axis(axis) == v || r.velocity.Axis(axis) == -v)
  {
    var b := TentativeBounds(lib, m);
    var isBall := m.shape == ballShape;
    var start := Pass(Tentative(m), m.velocity, 0);
    var one := AxisStep(b, fence, isBall, start, 0);
    AdvanceUnfold(lib, fence, ballShape, m);
    if axis == 0 {
      AxisStepSpec(b, fence, isBall, start, 0);
      AxisStepFrame(b, fence, isBall, one, 1, 0);
    } else {
      AxisStepFrame(b, fence, isBall, start, 0, 1);
      AxisStepSpec(b, fence, isBall, one, 1);
    }
  }

  /** A layer is hit on each axis where it is the ball and its bounds pass the far edge. */
  lemma AdvanceHits(lib: ShapeLib, fence: Region, ballShape: Shape, m: Mover)
    ensures var b := TentativeBounds(lib, m);
            Advance(lib, fence, ballShape, m).hits ==
              (if m.shape == ballShape && PastFarEdge(b, fence, 0) then 1 else 0) +
              (if m.shape == ballShape && PastFarEdge(b, fence, 1) then 1 else 0)
  {
    var b := TentativeBounds(lib, m);
    var isBall := m.shape == ballShape;
    var start := Pass(Tentative(m), m.velocity, 0);
    AdvanceUnfold(lib, fence, ballShape, m);
    AxisStepSpec(b, fence, isBall, start, 0);
    AxisStepSpec(b, fence, isBall, AxisStep(b, fence, isBall, start, 0), 1);
  }

  /** Only the ball can be hit: the other layers never sound the tone nor score. */
  lemma {:induction false} OnlyBallHits(lib: ShapeLib, fence: Region, ballShape: Shape, ms: seq<Mover>)
    requires forall i :: 0 <= i < |ms| ==> ms[i].shape != ballShape
    ensures TotalHits(lib, fence, ballShape, ms) == 0
  {
    if ms != [] {
      OnlyBallHits(lib, fence, ballShape, ms[..|ms| - 1]);
      AdvanceHits(lib, fence, ballShape, ms[|ms| - 1]);
    }
  }

  /**
   * The side effects of one far-edge hit of the ball: `hitBuzz()`, then
   * `increment = '0' + 2` and `scorePoint(increment)`.
   */
  method HitAndScore(buzzer: Buzzer, score: Score)
    requires buzzer.Valid() && score.Valid()
    modifies buzzer, score`onesPlace, score`increment, score.score1, score.score2
    ensures buzzer.Valid() && buzzer.State() == Settled
    ensures score.Valid() && score.Snapshot() == FarEdgeHit(old(score.Snapshot()))
  {
    ghost var tone := buzzer.State();
    buzzer.HitBuzz();
    EventAtInitial(tone);
    score.increment := FarEdgePlayer;
    score.ScorePoint(score.increment);
  }

  /**
   * One iteration of the axis loop on `axis`: the fence test and, for the
   * ball, the far-edge test with its hit tone and point.  `newPos` is the
   * tentative position so far; `hits` counts the far-edge hits since the
   * buzzer was in state `tone0` and the score in state `tally0`.
   */
  method StepAxis(ml: MovLayer, newPos: Vec2, shapeBoundary: Region, fence: Region, isBall: bool, axis: nat,
                  buzzer: Buzzer, score: Score, ghost tone0: Tone, ghost tally0: Tally, ghost hits: nat)
    returns (pos: Vec2, ghost hits': nat)
    requires axis < 2
    requires buzzer.Valid() && buzzer.State() == if hits == 0 then tone0 else Settled
    requires score.Valid() && WellFormed(tally0) && score.Snapshot() == AfterHits(tally0, hits)
    modifies ml`velocity, buzzer, score`onesPlace, score`increment, score.score1, score.score2
    ensures Pass(pos, ml.velocity, hits') == AxisStep(shapeBoundary, fence, isBall, Pass(newPos, old(ml.velocity), hits), axis)
    ensures buzzer.Valid() && buzzer.State() == if hits' == 0 then tone0 else Settled
    ensures score.Valid() && score.Snapshot() == AfterHits(tally0, hits')
  {
    pos, hits' := newPos, hits;
    if shapeBoundary.topLeft.Axis(axis) < fence.topLeft.Axis(axis) ||
       shapeBoundary.botRight.Axis(axis) > fence.botRight.Axis(axis) {
      var velocity := -ml.velocity.Axis(axis);
      ml.velocity := ml.velocity.WithAxis(axis, velocity);
      pos := pos.WithAxis(axis, pos.Axis(axis) + 2 * velocity);
    }
    ghost var fenced := Pass(pos, ml.velocity, hits);
    if isBall {
      if shapeBoundary.botRight.Axis(axis) > fence.botRight.Axis(axis) {
        var velocity := -ml.velocity.Axis(axis);
        ml.velocity := ml.velocity.WithAxis(axis, velocity);
        pos := pos.WithAxis(axis, pos.Axis(axis) + 2 * velocity);
        assert Pass(pos, ml.velocity, hits) == Reflect(fenced, axis);
        HitAndScore(buzzer, score);
        AfterHitsStep(tally0, hits);
        hits' := hits + 1;
      }
    }
  }

  /**
   * One iteration of `mlAdvance`'s list loop: the tentative position, the
   * axis loop over the bounds there, and the write-back into `posNext`.
   */
  method AdvanceLayer(ml: MovLayer, fence: Region, lib: ShapeLib, ballShape: Shape, buzzer: Buzzer, score: Score)
    requires buzzer.Valid() && score.Valid()
    modifies ml`velocity, ml.layer`posNext, buzzer, score`onesPlace, score`increment, score.score1, score.score2
    ensures var p := Advance(lib, fence, ballShape, old(MoverOf(ml)));
            ml.layer.posNext == p.pos && ml.velocity == p.velocity
    ensures buzzer.Valid()
    ensures buzzer.State() == if Advance(lib, fence, ballShape, old(MoverOf(ml))).hits == 0 then old(buzzer.State()) else Settled
    ensures score.Valid()
    ensures score.Snapshot() == AfterHits(old(score.Snapshot()), Advance(lib, fence, ballShape, old(MoverOf(ml))).hits)
  {
    ghost var tone0 := buzzer.State();
    ghost var tally0 := score.Snapshot();
    var newPos := Add(ml.layer.posNext, ml.velocity);
    var shapeBoundary := lib.bounds(ml.layer.shape, newPos);
    var isBall := ml.layer.shape == ballShape;
    ghost var start := Pass(newPos, ml.velocity, 0);
    ghost var hits: nat := 0;
    var axis := 0;
    while axis < 2
      invariant 0 <= axis <= 2
      invariant Pass(newPos, ml.velocity, hits) == AxisSteps(shapeBoundary, fence, isBall, start, axis)
      invariant buzzer.Valid() && buzzer.State() == if hits == 0 then tone0 else Settled
      invariant score.Valid() && score.Snapshot() == AfterHits(tally0, hits)
    {
      newPos, hits := StepAxis(ml, newPos, shapeBoundary, fence, isBall, axis, buzzer, score, tone0, tally0, hits);
      axis := axis + 1;
    }
    ml.layer.posNext := newPos;
  }

  /**
   * The state of `mlAdvance`'s list loop before entry `i`: entries before
   * `i` are advanced, the others untouched, and the buzzer and score have
   * seen the hits of the entries before `i`.
   */
  ghost predicate Progress(mls: seq<MovLayer>, i: nat, fence: Region, lib: ShapeLib, ballShape: Shape, buzzer: Buzzer, score: Score,
                           ms0: seq<Mover>, tone0: Tone, tally0: Tally)
    reads mls, LayersOf(mls), buzzer, score, score.score1, score.score2
  {
    i <= |mls| == |ms0| && WellFormed(tally0) &&
    (forall k :: 0 <= k < i ==> MoverOf(mls[k]) == AdvanceAll(lib, fence, ballShape, ms0)[k]) &&
    (forall k :: i <= k < |mls| ==> MoverOf(mls[k]) == ms0[k]) &&
    buzzer.Valid() && buzzer.State() == (if TotalHits(lib, fence, ballShape, ms0[..i]) == 0 then tone0 else Settled) &&
    score.Valid() && score.Snapshot() == AfterHits(tally0, TotalHits(lib, fence, ballShape, ms0[..i]))
  }

  /** Before the loop nothing is advanced and no hit has been seen. */
  lemma ProgressStart(mls: seq<MovLayer>, fence: Region, lib: ShapeLib, ballShape: Shape, buzzer: Buzzer, score: Score)
    requires buzzer.Valid() && score.Valid()
    ensures Progress(mls, 0, fence, lib, ballShape, buzzer, score, Movers(mls), buzzer.State(), score.Snapshot())
  {
    assert Movers(mls)[..0] == [];
  }

  /** After the loop every entry is advanced and all hits have been seen. */
  lemma ProgressDone(mls: seq<MovLayer>, fence: Region, lib: ShapeLib, ballShape: Shape, buzzer: Buzzer, score: Score,
                     ms0: seq<Mover>, tone0: Tone, tally0: Tally)
    requires Progress(mls, |mls|, fence, lib, ballShape, buzzer, score, ms0, tone0, tally0)
    ensures Movers(mls) == AdvanceAll(lib, fence, ballShape, ms0)
    ensures buzzer.Valid()
    ensures buzzer.State() == if TotalHits(lib, fence, ballShape, ms0) == 0 then tone0 else Settled
    ensures score.Valid() && score.Snapshot() == AfterHits(tally0, TotalHits(lib, fence, ballShape, ms0))
  {
    assert ms0[..|mls|] == ms0;
    MoversFromEntries(mls, AdvanceAll(lib, fence, ballShape, ms0));
  }

  /** One iteration of `mlAdvance`'s list loop, on entry `i`. */
  method AdvanceEntry(mls: seq<MovLayer>, i: nat, fence: Region, lib: ShapeLib, ballShape: Shape, buzzer: Buzzer, score: Score,
                      ghost ms0: seq<Mover>, ghost tone0: Tone, ghost tally0: Tally)
    requires DistinctLayers(mls) && i < |mls|
    requires Progress(mls, i, fence, lib, ballShape, buzzer, score, ms0, tone0, tally0)
    modifies mls`velocity, LayersOf(mls)`posNext, buzzer, score`onesPlace, score`increment, score.score1, score.score2
    ensures Progress(mls, i + 1, fence, lib, ballShape, buzzer, score, ms0, tone0, tally0)
  {
    var ml := mls[i];
    assert ml.layer in LayersOf(mls);
    assert MoverOf(ml) == ms0[i];
    ghost var before := TotalHits(lib, fence, ballShape, ms0[..i]);
    ghost var here := Advance(lib, fence, ballShape, ms0[i]).hits;
    AdvanceLayer(ml, fence, lib, ballShape, buzzer, score);
    TotalHitsSnoc(lib, fence, ballShape, ms0, i);
    AfterHitsAdd(tally0, before, here);
  }

  /** Entry-wise agreement of a moving-layer list with a list of movers is equality of `Movers`. */
  lemma MoversFromEntries(mls: seq<MovLayer>, ms: seq<Mover>)
    requires |mls| == |ms|
    requires forall k :: 0 <= k < |mls| ==> MoverOf(mls[k]) == ms[k]
    ensures Movers(mls) == ms
  {
  }

  /**
   * `mlAdvance(ml, fence)`: advance every entry of `mls` in list order.  Each
   * entry's layer gets the advanced `posNext` and the entry the reflected
   * velocity; nothing else of any layer changes.  Per far-edge hit of the
   * ball the hit tone sounds and a point is scored: the buzzer ends in
   * `EventN` of its old state and the score in `FarEdgeHits` of its old
   * tally (`EventsFromReachable` and `FarEdgeHitsClosed` give the closed
   * forms stated here).
   */
  method MlAdvance(mls: seq<MovLayer>, fence: Region, lib: ShapeLib, ballShape: Shape, buzzer: Buzzer, score: Score)
    requires DistinctLayers(mls)
    requires buzzer.Valid() && score.Valid()
    modifies mls`velocity, LayersOf(mls)`posNext, buzzer, score`onesPlace, score`increment, score.score1, score.score2
    ensures Movers(mls) == AdvanceAll(lib, fence, ballShape, old(Movers(mls)))
    ensures buzzer.Valid()
    ensures buzzer.State() == if TotalHits(lib, fence, ballShape, old(Movers(mls))) == 0 then old(buzzer.State()) else Settled
    ensures score.Valid() && score.Snapshot() == AfterHits(old(score.Snapshot()), TotalHits(lib, fence, ballShape, old(Movers(mls))))
  {
    ghost var ms0 := Movers(mls);
    ghost var tone0 := buzzer.State();
    ghost var tally0 := score.Snapshot();
    ProgressStart(mls, fence, lib, ballShape, buzzer, score);
    var i := 0;
    while i < |mls|
      invariant i <= |mls|
      invariant Progress(mls, i, fence, lib, ballShape, buzzer, score, ms0, tone0, tally0)
    {
      AdvanceEntry(mls, i, fence, lib, ballShape, buzzer, score, ms0, tone0, tally0);
      i := i + 1;
    }
    ProgressDone(mls, fence, lib, ballShape, buzzer, score, ms0, tone0, tally0);
  }
}
