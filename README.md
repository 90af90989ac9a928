# Pong on the MSP430: a verified model of the game core

This project models the game logic of `pongGame`, a two-paddle pong game
for an MSP430 board with a small LCD, in Dafny:

- **Motion step `mlAdvance`.** It walks the moving-layer list
  `ml0 → ml1 → ml3` (right paddle, left paddle, ball). It moves each layer
  from its pending position by its velocity and reflects a velocity
  component whenever the shape's bounds leave the playing-field fence. For
  the ball it also runs the far-edge branch, which sounds the hit tone and
  scores a point.
- **Compositor `movLayerDraw`.** It commits every moving layer's pending
  position. Then it repaints the bounds of each moving layer pixel by pixel.
  Each pixel gets the colour of the first layer in paint order
  (`rightPadL0 → leftPadL1 → fieldLayerL3 → BallLayerL2`) whose shape covers
  it, or the blue background.
- **Switch decoder `switchHandler`.** It reads an active-low mask. The
  lowest-numbered pressed switch sets one paddle's y-velocity and sounds a
  tone. With no switch pressed, both paddles stop.
- **`scorePoint` and the score statics.**
- **Watchdog handler `wdt_c_handler`.** It divides the 15 Hz watchdog tick:
  every 15th interrupt runs the motion step.
- **Tone state machine of `buzzer.c`.** It covers the `period`/`rate` statics,
  the four identical event functions `upBuzz`, `downBuzz`, `hitBuzz` and
  `loseBuzz`, and `buzzer_set_period`, which derives the CCR0/CCR1 compare
  values.

Modules, one file each:

| Module | File | Contents |
|---|---|---|
| `Words` | `words.dfy` | 16-bit words and the bitwise operations written out on integers |
| `Geometry` | `geometry.dfy` | `Vec2` and inclusive `Region` |
| `Shapes` | `shapes.dfy` | the three shape identities and the shape library, carried as two function values |
| `Layers` | `layers.dfy` | `Layer` and `MovLayer` as classes, since their fields are updated in place |
| `Sound` | `sound.dfy` | the buzzer module |
| `Scoring` | `scoring.dfy` | the score statics and `scorePoint` |
| `Motion` | `motion.dfy` | `mlAdvance` |
| `Draw` | `draw.dfy` | the LCD as a command log, the per-pixel probe and `movLayerDraw` |
| `Game` | `game.dfy` | the game's globals, `switchHandler`, the watchdog handler and the redraw step of the foreground loop |

The linked lists become sequences in list order. Every imperative routine is
a method, with a loop wherever the C code loops. Each method's postcondition ties the new state to a
specification function: `Advance`/`AdvanceAll`, `ColorAt`/`DrawOps`,
`Scored`, `Event`, `LowestPressed` or `Tick`. The lemmas prove what those
functions promise.

Modelling choices:

- **The code is modelled as written**, including three behaviours a reader
  of the game would not expect:
  - **The ball does not bounce off the far edge.** When the ball's bounds
    pass the bottom-right fence edge on an axis, the fence test reflects its
    velocity. The far-edge branch then reflects it a second time, which
    undoes the first. So the ball keeps its velocity, moves by exactly that
    velocity, and a hit tone and a point follow. `Motion.AdvanceAxis` states
    this outright.
  - **The tone never sweeps.** From power-on (`period` 1000, `rate` 200) the
    reversal guard is never true, so `period` and `rate` never change. Every
    event sets CCR0 to -1000 stored unsigned and CCR1 to 0, because
    `1000 ^ 1000` is 0 (`Sound.EventsFromReachable`).
  - **Only one side can score.** In the modelled code, scoring happens only
    in the far-edge branch. That branch passes `'0' + 2` as the player,
    which is not 1, so `score2[2]` is marked and `score1` never changes.
    The ball–paddle branch, which is left out, would pass `'0' + 1` (49),
    also not 1, so it too would mark only `score2`.
- **Shape library.** `abShapeGetBounds`/`abShapeCheck` are not part of this
  model. They are two function values in `ShapeLib`. The lemmas that need a
  property of them require `Shapes.BoundsSound`: a shape covers no pixel
  outside its bounds. `layerGetBounds` is taken to be the shape's bounds at
  the layer's committed position (see "## Left out").
- **Shape comparison.** The ball test at `shapemotion.c:161` compares
  `AbShape` pointers. Here it compares shape identities, and
  `Game.Game.Valid` records that the ball layer has the ball's shape
  `Circle8`.
- **Screen size.** `screenWidth`/`screenHeight` come from the LCD library,
  which is not part of this model. They are parameters of the
  `Game.Game` constructor.
- **Switch poll.** The watchdog handler's `p2sw_read()` poll is the
  parameter `switchesRead`.

## Model

| member | source | states |
|---|---|---|
| `Sound.SetPeriod` | pongGame/buzzer.c:76-79 | CCR0 plus 1000 is `cycles` modulo 2^16; CCR1 read as a short is `cycles >> 1`, half of `cycles` rounded down, also for negative `cycles` |
| `Sound.Buzzer.BuzzerSetPeriod` | pongGame/buzzer.c:76-79 | writes exactly the two registers, with the values `SetPeriod` derives |
| `Sound.Buzzer.constructor` | pongGame/buzzer.c:5-6 | power-on state: `period` 1000, `rate` 200, registers cleared; the state is reachable |
| `Sound.Buzzer.UpBuzz` | pongGame/buzzer.c:33-40 | the new statics and registers are `Event` of the old state |
| `Sound.Buzzer.DownBuzz` | pongGame/buzzer.c:42-49 | the same `Event` as `UpBuzz`: the four event functions have identical effects |
| `Sound.Buzzer.HitBuzz` | pongGame/buzzer.c:51-58 | the same `Event` as `UpBuzz` |
| `Sound.Buzzer.LoseBuzz` | pongGame/buzzer.c:60-67 | the same `Event` as `UpBuzz` |
| `Sound.EventSpec` | pongGame/buzzer.c:34-39 | `period`/`rate` change if and only if the reversal guard holds; then `rate` is negated and `period` moves by twice the new rate modulo 2^16, otherwise both are kept; the registers always come from `period ^ 1000` read as a short |
| `Sound.EventKeepsRateMagnitude` | pongGame/buzzer.c:36 | `rate` is only ever negated, so a rate of ±200 stays ±200 |
| `Sound.InRangePeriodIsKept` | pongGame/buzzer.c:8-9 | a period within [1000, 4000] never reverses, and an event keeps it and the rate |
| `Sound.EventAtInitial` | pongGame/buzzer.c:33-40 | at `period` 1000 and `rate` 200 an event keeps both and passes `1000 ^ 1000 == 0` to `buzzer_set_period`, giving CCR0 = -1000 stored unsigned and CCR1 = 0 |
| `Sound.EventsFromReachable` | pongGame/buzzer.c:5-67 | from power-on, any number of events leaves `period` at 1000 and `rate` at 200; after at least one event the registers hold the values from argument 0 |
| `Scoring.ScoredSpec` | pongGame/shapemotion.c:123-136 | `onesPlace` rises by at most one and never past 9; it rises exactly when it is below 9 and `increment` is positive; then `increment` becomes 0 and exactly `score1[0]` (player 1) or `score2[2]` (any other player) becomes '1'; otherwise nothing changes |
| `Scoring.Score.ScorePoint` | pongGame/shapemotion.c:123-136 | the new counters and strings are `Scored` of the old ones |
| `Scoring.Score.constructor` | pongGame/shapemotion.c:15-21 | the zero-initialised statics: both counters 0, both strings NUL-filled |
| `Scoring.AfterHitsStep` | pongGame/shapemotion.c:174-176 | one more far-edge hit (`increment = '0' + 2`, then `scorePoint(increment)`) moves the closed form from `n` to `n + 1` hits |
| `Scoring.AfterHitsAdd` | pongGame/shapemotion.c:174-176 | `a` hits followed by `b` hits are `a + b` hits |
| `Scoring.FarEdgeHitsClosed` | pongGame/shapemotion.c:174-176 | after `n` far-edge hits the ones digit is `min(onesPlace + n, 9)`, `score1` is untouched and `score2[2]` is '1' once a hit counted |
| `Layers.Layer.constructor` | pongGame/shapemotion.c:37-43 | a statically initialised layer: its shape, position and colour, with `posLast`/`posNext` at the origin |
| `Layers.MovLayer.constructor` | pongGame/shapemotion.c:79-81 | a moving layer refers to its layer and carries its initial velocity |
| `Motion.ReflectTwice` | pongGame/shapemotion.c:171-173 | a reflection negates the velocity component, and two reflections in a row restore both velocity and position |
| `Motion.AxisStepSpec` | pongGame/shapemotion.c:154-178 | one axis: inside the fence, velocity and position kept; outside it, velocity negated and position moved by twice the new velocity; the ball past the far edge is reflected back, so both are kept and one hit is counted |
| `Motion.AxisStepFrame` | pongGame/shapemotion.c:154-178 | an axis step changes nothing on the other axis |
| `Motion.AdvanceAxis` | pongGame/shapemotion.c:152-182 | a layer's pass on an axis, starting from `posNext + velocity`: unchanged inside the fence; reflected outside it; for the ball past the far edge, velocity unchanged and net move exactly `velocity`; the magnitude of every velocity component is kept |
| `Motion.AdvanceHits` | pongGame/shapemotion.c:161-178 | a layer is hit once per axis where it has the ball's shape and its tentative bounds pass the fence's bottom-right edge |
| `Motion.OnlyBallHits` | pongGame/shapemotion.c:161 | a list without the ball's shape produces no hits, so no tone and no point |
| `Motion.HitAndScore` | pongGame/shapemotion.c:174-176 | `hitBuzz()` settles the tone; `increment = '0' + 2; scorePoint(increment)` is one `FarEdgeHit` of the tally |
| `Motion.StepAxis` | pongGame/shapemotion.c:155-178 | one iteration of the axis loop on the object state equals `AxisStep` on values, with the tone and score effects of any hit |
| `Motion.AdvanceLayer` | pongGame/shapemotion.c:152-182 | one list entry: the layer's `posNext` and the entry's velocity become `Advance` of their old values; the buzzer and score have seen that layer's hits |
| `Motion.MlAdvance` | pongGame/shapemotion.c:146-184 | every entry is advanced in list order from its own old state (`AdvanceAll`), and only velocities and `posNext` of the listed layers change; the buzzer is settled after at least one hit and otherwise unchanged; the score is `AfterHits` of the old tally by the total number of hits |
| `Draw.Lcd.SetArea` | pongGame/shapemotion.c:102-103 | the LCD receives one select-area command |
| `Draw.Lcd.WriteColor` | pongGame/shapemotion.c:116 | the LCD receives one colour write |
| `Draw.UncoveredIsBackground` | pongGame/shapemotion.c:107-115 | a pixel no layer covers gets `bgColor` |
| `Draw.FirstCoverWins` | pongGame/shapemotion.c:109-114 | the first covering layer in paint order decides the colour: an earlier layer occludes every later one |
| `Draw.ColorFromBounds` | pongGame/shapemotion.c:109-114 | under a sound shape library, either no layer covers the pixel, or its colour is that of the first covering layer in paint order, and that layer's bounds contain the pixel |
| `Draw.ProbeColor` | pongGame/shapemotion.c:106-115 | the probe loop with its early exit returns `ColorAt` of the paint list at the committed positions |
| `Draw.RowsSpec` | pongGame/shapemotion.c:104-105 | the rows up to `y` hold exactly the pixels of the region above row `y`, in strict row-major order |
| `Draw.RegionPixelsSpec` | pongGame/shapemotion.c:104-105 | the row and column loops visit exactly the pixels of the inclusive bounds, each once, in row-major order |
| `Draw.PaintRow` | pongGame/shapemotion.c:105-117 | the column loop writes one probed colour per pixel of the row, left to right |
| `Draw.PaintRegion` | pongGame/shapemotion.c:104-118 | the row loop writes one probed colour per pixel of the region, in row-major order |
| `Draw.CommitPositions` | pongGame/shapemotion.c:91-95 | each moving layer's `posLast` becomes its old `pos` and `pos` becomes `posNext`; no other field changes |
| `Draw.DrawArea` | pongGame/shapemotion.c:100-118 | one moving layer's repaint: select its bounds, then one colour per pixel |
| `Draw.DrawAreas` | pongGame/shapemotion.c:99-119 | the repaints of all moving layers, in list order, with the layers probed at the committed positions |
| `Draw.MovLayerDraw` | pongGame/shapemotion.c:85-120 | commit, then the LCD receives exactly `DrawOps`: per moving layer its bounds, then the first-cover colour of every pixel in row-major order |
| `Game.LowestPressedFromSpec` | pongGame/shapemotion.c:192-208 | the search from switch `k` finds nothing if and only if no switch from `k` up is pressed, and finds `i` if and only if `i` is pressed and none from `k` below `i` is |
| `Game.LowestPressedSpec` | pongGame/shapemotion.c:190-213 | active-low priority decoding: switch `i` is acted on if and only if its bit is clear and all lower bits are set; none is acted on if and only if bits 0 to 3 are all set |
| `Game.TicksSpec` | pongGame/shapemotion.c:282-296 | from a count in 0..14, `n` interrupts leave the count at `(c + n) % 15` and run the motion step `(c + n) / 15` times |
| `Game.Game.constructor` | pongGame/shapemotion.c:37-81 | the static layers' shapes, positions and colours, the moving layers' initial velocities, `fieldFence` as the field layer's bounds, `redrawScreen` 1, the buzzer at power-on and the score statics zeroed |
| `Game.Game.MoveListLayers` | pongGame/shapemotion.c:79-81 | the moving-layer list moves three distinct layers: right pad, left pad, ball |
| `Game.Game.SwitchHandler` | pongGame/shapemotion.c:190-213 | switch 0/1 set the left paddle's y-velocity to +4/-4 and switch 2/3 the right paddle's; the other paddle and all x-velocities are untouched; with none pressed both y-velocities become 0; a pressed switch settles the tone, otherwise the buzzer is untouched |
| `Game.Game.WdtHandler` | pongGame/shapemotion.c:282-296 | the count follows `Tick`; on the 15th interrupt `mlAdvance` runs over `ml0 → ml1 → ml3` inside `fieldFence` and a non-zero poll requests a redraw; otherwise the layers, buzzer, score and `redrawScreen` are unchanged |
| `Game.Game.Redraw` | pongGame/shapemotion.c:271-272 | clears `redrawScreen`, commits the three moving layers and sends the LCD `DrawOps` over their bounds, probing the paint list against the blue background |

## Left out

- `main` (shapemotion.c:221-276) is not modelled: clock, LCD and switch initialisation, the green LED, the CPU-off wait and the score text. Two parts of it are kept: computing `fieldFence` (line 236) and the redraw step (lines 271-272). Its `'0'` fill of the score strings (lines 245-248) is also left out. That fill runs after interrupts are enabled and writes past the arrays at lines 251-252.
- `layerInit(&rightPadL0)` and `layerDraw(&rightPadL0)` (shapemotion.c:232-233) are shape-library code that is not part of this model. `Game.Game.constructor` gives `posLast`/`posNext` their static initial value (the origin) and does not capture what `layerInit` does to those fields before interrupts are enabled.
- The green-LED writes in `wdt_c_handler` (shapemotion.c:285, 295) are not modelled.
- Interrupt masking (`and_sr`/`or_sr`) and the interplay of the interrupt handler with the foreground loop are not modelled. The position commit is one sequential step.
- The ball–paddle test at shapemotion.c:163-169 is not modelled. As written it does not compile: `rightPadL0` is a `Layer`, not a pointer with a `layer` field, and `abShape` is not defined.
- The shape library (`abShapeGetBounds`, `abShapeCheck`, `circle8`, `vec2Add`, `layerInit`, `layerDraw`, `layerGetBounds`) is not part of this model. Bounds and containment are opaque function values.
- `layerGetBounds(l, &b)` is taken to be `abShapeGetBounds(l->abShape, &l->pos, &b)`, the shape's bounds at the committed position. This fixes the areas `Draw.MovLayerDraw` and `Game.Game.Redraw` repaint (shapemotion.c:101-103) and `fieldFence` in `Game.Game.constructor` (shapemotion.c:236). The library's code is not shown. If it also covers the bounds at `posLast`, the repainted areas are larger.
- The LCD library is not part of this model. `lcd_setArea`/`lcd_writeColor` append commands to a log, colours are symbolic rather than 16-bit encodings, and the screen size is a constructor parameter.
- `p2sw_read` is a parameter of the watchdog handler. Switch debouncing is not modelled.
- `buzzer_init` and the hardware effect of CCR0/CCR1 are not modelled. The registers are two plain fields.
- `start_button_sound` is declared in buzzer.h but never defined, so it is not modelled.
- `tensPlace`/`hundredsPlace` are declared but never used, so they are not modelled.
- `Motion.MlAdvance`: positions and velocities are unbounded integers, so 16-bit wrap-around of positions is not modelled. A ball that has passed the far edge keeps moving by its velocity on every motion step and would wrap only after about 32 000 motion steps.
- `Game.Game.SwitchHandler`: a pressed switch's tone is stated as the settled state `Settled`, not as `Event` of the old state. The two are equal for every reachable buzzer state (`Sound.EventAtInitial`), and the buzzer is always in a reachable state.
- `Motion.MlAdvance`: the buzzer and score are stated in closed form (`Settled`, `AfterHits`) rather than as one `Event` and one `FarEdgeHit` per hit. `Sound.EventsFromReachable` and `Scoring.FarEdgeHitsClosed` prove the two forms equal.
- The negation of `rate` is modelled with 16-bit wrap-around (`-(-32768)` stays `-32768`). No reachable state has that rate.
