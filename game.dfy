/**
 * The game's globals in shapemotion.c and the entry points that drive them:
 * the static layers and moving layers, the playing-field fence, the switch
 * decoder `switchHandler`, the watchdog tick divider of `wdt_c_handler` and
 * the redraw step of the foreground loop.
 */
module Game {
  import opened Words
  import opened Geometry
  import opened Shapes
  import opened Layers
  import opened Sound
  import opened Scoring
  import opened Motion
  import opened Draw

  datatype Option<T> = None | Some(value: T)

  /** The number of switches `switchHandler` decodes (P2.0 to P2.3). */
  const SwitchCount := 4
  /** The paddle speed a pressed switch sets. */
  const PaddleSpeed := 4
  /** Watchdog interrupts per motion step. */
  const TicksPerStep := 15

  /**
   * The lowest-numbered pressed switch from `k` upwards.  Switches are
   * active-low: switch `k` is pressed when bit `k` of the reading is clear,
   * that is when `switches & (1 << k)` is zero.
   */
  function LowestPressedFrom(switches: u16, k: nat): (r: Option<nat>)
    requires k <= SwitchCount
    ensures r.Some? ==> k <= r.value < SwitchCount
    decreases SwitchCount - k
  {
    if k == SwitchCount then None
    else if Bit(switches, k) == 0 then Some(k)
    else LowestPressedFrom(switches, k + 1)
  }

  /** The switch `switchHandler` acts on: the lowest-numbered pressed one, if any. */
  function LowestPressed(switches: u16): Option<nat>
  {
    LowestPressedFrom(switches, 0)
  }

  /** The search from `k` finds exactly the first clear bit at or above `k`. */
  lemma {:induction false} LowestPressedFromSpec(switches: u16, k: nat)
    requires k <= SwitchCount
    ensures LowestPressedFrom(switches, k) == None <==> forall j :: k <= j < SwitchCount ==> Bit(switches, j) != 0
    ensures forall i: nat :: LowestPressedFrom(switches, k) == Some(i) <==>
              k <= i < SwitchCount && Bit(switches, i) == 0 && forall j :: k <= j < i ==> Bit(switches, j) != 0
    decreases SwitchCount - k
  {
    if k < SwitchCount && Bit(switches, k) != 0 {
      LowestPressedFromSpec(switches, k + 1);
    }
  }

  /**
   * Priority decoding: no switch is acted on exactly when none of switches
   * 0 to 3 is pressed, and switch `i` is acted on exactly when it is pressed
   * and no lower-numbered one is.
   */
  lemma LowestPressedSpec(switches: u16)
    ensures LowestPressed(switches) == None <==> forall j :: 0 <= j < SwitchCount ==> Bit(switches, j) != 0
    ensures forall i: nat :: LowestPressed(switches) == Some(i) <==>
              i < SwitchCount && Bit(switches, i) == 0 && forall j :: 0 <= j < i ==> Bit(switches, j) != 0
  {
    LowestPressedFromSpec(switches, 0);
  }

  /** The search unrolled over the four switches, in the order `switchHandler` tests them. */
  lemma LowestPressedUnrolled(switches: u16)
    ensures LowestPressed(switches) ==
      if Bit(switches, 0) == 0 then Some(0)
      else if Bit(switches, 1) == 0 then Some(1)
      else if Bit(switches, 2) == 0 then Some(2)
      else if Bit(switches, 3) == 0 then Some(3)
      else None
  {
  }

  /** The left paddle's y-velocity after decoding `pressed`: switch 0 raises it to +4, switch 1 to -4, none stops it. */
  function LeftPaddleVy(pressed: Option<nat>, vy: int): int
  {
    match pressed
    case None => 0
    case Some(k) => if k == 0 then PaddleSpeed else if k == 1 then -PaddleSpeed else vy
  }

  /** The right paddle's y-velocity after decoding `pressed`: switch 2 gives +4, switch 3 gives -4, none stops it. */
  function RightPaddleVy(pressed: Option<nat>, vy: int): int
  {
    match pressed
    case None => 0
    case Some(k) => if k == 2 then PaddleSpeed else if k == 3 then -PaddleSpeed else vy
  }

  /** The tick divider: the watchdog count and how many motion steps it has triggered. */
  datatype Divider = Divider(count: int, steps: nat)

  /** One watchdog interrupt: count up, and on reaching 15 run a motion step and restart from 0. */
  function Tick(d: Divider): Divider
  {
    if d.count + 1 == TicksPerStep then Divider(0, d.steps + 1) else Divider(d.count + 1, d.steps)
  }

  /** `n` watchdog interrupts. */
  function Ticks(d: Divider, n: nat): Divider
  {
    if n == 0 then d else Tick(Ticks(d, n - 1))
  }

  /**
   * From count `c` in 0..14, `n` interrupts leave the count at `(c + n) % 15`
   * and run the motion step `(c + n) / 15` times: once every 15 interrupts.
   */
  lemma {:induction false} TicksSpec(c: int, n: nat)
    requires 0 <= c < TicksPerStep
    ensures Ticks(Divider(c, 0), n) == Divider((c + n) % TicksPerStep, (c + n) / TicksPerStep)
  {
    if n > 0 {
      TicksSpec(c, n - 1);
    }
  }

  /** The game's static objects and globals. */
  class Game {
    /** `rightPadL0`, `leftPadL1`, `fieldLayerL3` and `BallLayerL2`. */
    const rightPad: Layer
    const leftPad: Layer
    const field: Layer
    const ball: Layer
    /** `ml0` (right paddle), `ml1` (left paddle) and `ml3` (ball). */
    const ml0: MovLayer
    const ml1: MovLayer
    const ml3: MovLayer
    const buzzer: Buzzer
    const score: Score
    /** The shape library the layers are measured and probed with. */
    const shapes: ShapeLib
    const lcd: Lcd
    /** `fieldFence`: the bounds of the playing-field layer. */
    var fieldFence: Region
    /** The watchdog handler's `static short count`. */
    var count: int
    var redrawScreen: int

    /** The paint list, `rightPadL0 → leftPadL1 → fieldLayerL3 → BallLayerL2`. */
    function PaintList(): seq<Layer>
    {
      [rightPad, leftPad, field, ball]
    }

    /** The moving-layer list, `ml0 → ml1 → ml3`. */
    function MoveList(): seq<MovLayer>
    {
      [ml0, ml1, ml3]
    }

    /** The static wiring: each moving layer refers to its own layer, no two layers are the same object. */
    ghost predicate Valid()
      reads this, ml0, ml1, ml3, buzzer, score
    {
      ml0.layer == rightPad && ml1.layer == leftPad && ml3.layer == ball &&
      rightPad != leftPad && rightPad != field && rightPad != ball &&
      leftPad != field && leftPad != ball && field != ball &&
      ball.shape == Circle8 &&
      buzzer.Valid() && score.Valid() &&
      0 <= count < TicksPerStep
    }

    /**
     * The statically initialised globals, plus `fieldFence`, which `main`
     * computes from the field layer before enabling interrupts.  The screen
     * size comes from the LCD library.
     */
    constructor (lib: ShapeLib, screenWidth: nat, screenHeight: nat)
      ensures Valid() && shapes == lib
      ensures rightPad.shape == RectanglePanel && rightPad.color == Black &&
              rightPad.pos == Vec2(screenWidth / 2 + 50, screenHeight / 2 + 5)
      ensures leftPad.shape == RectanglePanel && leftPad.color == Black &&
              leftPad.pos == Vec2(screenWidth / 2 - 49, screenHeight / 2 + 8)
      ensures field.shape == FieldOutline && field.color == Black &&
              field.pos == Vec2(screenWidth / 2, screenHeight / 2)
      ensures ball.shape == Circle8 && ball.color == Violet &&
              ball.pos == Vec2(screenWidth / 2 + 10, screenHeight / 2 + 5)
      ensures forall l :: l in PaintList() ==> l.posLast == Vec2(0, 0) && l.posNext == Vec2(0, 0)
      ensures ml0.velocity == Vec2(0, 1) && ml1.velocity == Vec2(0, 1) && ml3.velocity == Vec2(1, 1)
      ensures fieldFence == lib.bounds(FieldOutline, field.pos)
      ensures count == 0 && redrawScreen == 1
      ensures buzzer.State() == Initial
      ensures score.Snapshot() == Tally(0, 0, ['\0', '\0', '\0'], ['\0', '\0', '\0'])
      ensures lcd.log == []
    {
      var b := new Layer(Circle8, Vec2(screenWidth / 2 + 10, screenHeight / 2 + 5), Violet);
      var f := new Layer(FieldOutline, Vec2(screenWidth / 2, screenHeight / 2), Black);
      var lp := new Layer(RectanglePanel, Vec2(screenWidth / 2 - 49, screenHeight / 2 + 8), Black);
      var rp := new Layer(RectanglePanel, Vec2(screenWidth / 2 + 50, screenHeight / 2 + 5), Black);
      ball, field, leftPad, rightPad := b, f, lp, rp;
      ml3 := new MovLayer(b, Vec2(1, 1));
      ml1 := new MovLayer(lp, Vec2(0, 1));
      ml0 := new MovLayer(rp, Vec2(0, 1));
      buzzer := new Buzzer();
      score := new Score();
      shapes := lib;
      lcd := new Lcd();
      fieldFence := lib.bounds(FieldOutline, f.pos);
      count := 0;
      redrawScreen := 1;
    }

    /** The moving layers are distinct and their layers are the three that move. */
    lemma MoveListLayers()
      requires Valid()
      ensures DistinctLayers(MoveList())
      ensures LayersOf(MoveList()) == {rightPad, leftPad, ball}
    {
      assert MoveList()[0].layer == rightPad && MoveList()[1].layer == leftPad && MoveList()[2].layer == ball;
    }

    /**
     * `switchHandler(switches)`: the lowest-numbered pressed switch sounds a
     * tone (`upBuzz` for 0 and 2, `downBuzz` for 1 and 3) and sets one
     * paddle's y-velocity; with no switch pressed both paddles stop.
     * x-velocities and the ball are never touched.
     */
    method SwitchHandler(switches: u16)
      requires Valid()
      modifies ml0`velocity, ml1`velocity, buzzer
      ensures Valid()
      ensures ml1.velocity == Vec2(old(ml1.velocity.x), LeftPaddleVy(LowestPressed(switches), old(ml1.velocity.y)))
      ensures ml0.velocity == Vec2(old(ml0.velocity.x), RightPaddleVy(LowestPressed(switches), old(ml0.velocity.y)))
      ensures buzzer.State() == if LowestPressed(switches).Some? then Settled else old(buzzer.State())
    {
      LowestPressedUnrolled(switches);
      if Bit(switches, 0) == 0 {
        SwitchTone(true);
        ml1.velocity := ml1.velocity.WithAxis(1, PaddleSpeed);
      } else if Bit(switches, 1) == 0 {
        SwitchTone(false);
        ml1.velocity := ml1.velocity.WithAxis(1, -PaddleSpeed);
      } else if Bit(switches, 2) == 0 {
        SwitchTone(true);
        ml0.velocity := ml0.velocity.WithAxis(1, PaddleSpeed);
      } else if Bit(switches, 3) == 0 {
        SwitchTone(false);
        ml0.velocity := ml0.velocity.WithAxis(1, -PaddleSpeed);
      } else {
        ml0.velocity := ml0.velocity.WithAxis(1, 0);
        ml1.velocity := ml1.velocity.WithAxis(1, 0);
      }
    }

    /** `upBuzz()` (when `up`) or `downBuzz()`; from a reachable state either one settles the tone. */
    method SwitchTone(up: bool)
      requires buzzer.Valid()
      modifies buzzer
      ensures buzzer.Valid() && buzzer.State() == Settled
    {
      ghost var tone := buzzer.State();
      if up {
        buzzer.UpBuzz();
      } else {
        buzzer.DownBuzz();
      }
      EventAtInitial(tone);
    }

    /**
     * `wdt_c_handler()`, with the switch poll `p2sw_read()` given as
     * `switchesRead`: count the interrupt; on the 15th run the motion step
     * over `ml0 → ml1 → ml3` inside `fieldFence`, request a redraw when the
     * poll is non-zero, and restart the count.
     */
    method WdtHandler(switchesRead: u16)
      requires Valid()
      modifies this`count, this`redrawScreen, ml0`velocity, ml1`velocity, ml3`velocity
      modifies rightPad`posNext, leftPad`posNext, ball`posNext
      modifies buzzer, score`onesPlace, score`increment, score.score1, score.score2
      ensures Valid()
      ensures Divider(count, if old(count) == TicksPerStep - 1 then 1 else 0) == Tick(Divider(old(count), 0))
      ensures old(count) == TicksPerStep - 1 ==>
                Movers(MoveList()) == AdvanceAll(shapes, fieldFence, Circle8, old(Movers(MoveList()))) &&
                buzzer.State() == (if TotalHits(shapes, fieldFence, Circle8, old(Movers(MoveList()))) == 0
                                   then old(buzzer.State()) else Settled) &&
                score.Snapshot() == AfterHits(old(score.Snapshot()), TotalHits(shapes, fieldFence, Circle8, old(Movers(MoveList())))) &&
                redrawScreen == if switchesRead != 0 then 1 else old(redrawScreen)
      ensures old(count) != TicksPerStep - 1 ==>
                Movers(MoveList()) == old(Movers(MoveList())) && buzzer.State() == old(buzzer.State()) &&
                score.Snapshot() == old(score.Snapshot()) && redrawScreen == old(redrawScreen)
    {
      MoveListLayers();
      count := count + 1;
      if count == TicksPerStep {
        MlAdvance(MoveList(), fieldFence, shapes, Circle8, buzzer, score);
        if switchesRead != 0 {
          redrawScreen := 1;
        }
        count := 0;
      }
    }

    /**
     * The redraw step of the foreground loop: clear `redrawScreen`, then
     * `movLayerDraw(&ml0, &rightPadL0)` with the blue background.
     */
    method Redraw()
      requires Valid()
      modifies this`redrawScreen, rightPad`pos, leftPad`pos, ball`pos, rightPad`posLast, leftPad`posLast, ball`posLast, lcd
      ensures Valid() && redrawScreen == 0
      ensures forall l :: l in [rightPad, leftPad, ball] ==> l.posLast == old(l.pos) && l.pos == old(l.posNext)
      ensures lcd.log == old(lcd.log) + DrawOps(shapes, Probes(PaintList()), Blue, Areas(shapes, MoveList()))
    {
      redrawScreen := 0;
      MoveListLayers();
      MovLayerDraw(shapes, MoveList(), PaintList(), Blue, lcd);
    }
  }
}
