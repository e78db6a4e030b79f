# Flow-field animation: a Dafny model of `FlowFieldEffect`

`script.js` draws an animated flow field on a canvas. Its one component,
`FlowFieldEffect`, is a small state machine driven by the browser's animation
callback. Each call of `animate(timeStamp)`:

- feeds a frame gate: it records `deltaTime` and `lastTime`, and redraws only
  when the accumulated `timer` exceeds `interval` (1000/60 ms), resetting the
  timer to 0; otherwise the timer grows by `deltaTime`;
- on a redraw, advances a ping-pong oscillator (`radius += vr`, and `vr` is
  negated once `radius` leaves [-5, 5]);
- on a redraw, visits the 15-unit grid row by row and draws one line per
  cell. The line's angle is a trigonometric function of the pointer and the
  cell, times `radius`. Its length is the squared pointer distance, clamped
  to [50000, 600000], times 0.0001.

`flow_field.dfy` (module `FlowField`) models this:

- `FlowFieldEffect` is a class with the source's fields. `Step` models
  `animate`; `DrawField` and `DrawRow` model its outer and inner loop.
- The pointer position is a parameter of `Step`.
- The trigonometric part of the angle, `cos(mouse.x*x*1e-5) + sin(mouse.y*y*1e-5)`,
  is an arbitrary function `wave` passed to `Step`.
- Canvas drawing becomes a trace: the sequence of `Segment`s a redraw strokes.
  Each segment records its start cell, its angle, the clamped squared
  distance and its length.
- Pure specification functions give the meaning of each part: `Tick` (one
  tick on a `Snapshot` of the state), `Advance` (the oscillator), `Grid`
  (the cells in drawing order), `Redraw` (the trace) and `ClampDistance` /
  `DrawLine` (the body of `#drawLine`).
- Times and magnitudes are `real`; the canvas width and height are `nat`.

The loops start at 0 and run while the coordinate is below the extent, so a
redraw visits `ceil(width/15) * ceil(height/15)` cells (`GridShape`). With
ticks 16 ms apart a redraw fires on every third tick: the timer goes 0, 16,
32, and only 32 exceeds 1000/60 (`RedrawEveryThirdTickAt16ms`).

## Model

| member | source | states |
|---|---|---|
| `FlowField.FlowFieldEffect.constructor` | script.js:48-65 | sets `lastTime = 0`, `timer = 0`, `interval = 1000/60`, `cellSize = 15`, `radius = 0`, `vr = 0.03`, and keeps the width and height; the state is `Initial()` and the class invariant holds |
| `FlowField.FlowFieldEffect.Step` | script.js:111-147 | the new state and the redraw flag are exactly `Tick` of the old state (see `Tick` for what that means field by field); the trace is the full grid redraw at the new radius on a redraw and empty otherwise; the width, height, interval and cell size stay fixed and the class invariant is kept; the timer stays non-negative for a non-decreasing timestamp |
| `FlowField.FlowFieldEffect.DrawField` | script.js:126-142 | the outer loop over rows produces exactly `Redraw(width, height, ...)`: the segments of all grid cells in row-major order |
| `FlowField.FlowFieldEffect.DrawRow` | script.js:127-141 | the inner loop over one row produces one segment per cell of that row, in x order, each with angle `wave * radius` and the clamped distance |
| `FlowField.SquaredDistance` | script.js:74-77 | the squared pointer distance `dx*dx + dy*dy` is never negative |
| `FlowField.ClampDistance` | script.js:78-82 | the result lies in [50000, 600000]; it is 50000 below the range, 600000 above it, and the input itself inside it |
| `FlowField.ClampProperties` | script.js:78-82 | the clamp equals `max(50000, min(600000, d))`, is idempotent and is monotone |
| `FlowField.DrawLine` | script.js:70-84 | the segment starts at the cell, has the given angle, and its distance is the clamp of the squared pointer distance, so in [50000, 600000]; its length is distance × 0.0001, so always in [5, 60] |
| `FlowField.NearerIsNotLonger` | script.js:74-84 | a cell nearer the pointer never gets a longer segment |
| `FlowField.Advance` | script.js:121-124 | radius grows by `vr`; `vr` keeps or flips its sign; the ping-pong invariant (speed 0.03, abs(radius) ≤ 5.03, pointing back inside beyond ±5) is preserved |
| `FlowField.AdvanceTurnsExactlyOutside` | script.js:122-124 | for a nonzero velocity, `vr` is negated exactly when the new radius is > 5 or < -5 |
| `FlowField.AdvanceTurnsBack` | script.js:121-124 | under the invariant, once the radius exceeds 5 the velocity is -0.03, and once it drops below -5 it is +0.03 |
| `FlowField.Initial` | script.js:55-64 | the constructor's state: `lastTime = 0`, `timer = 0`, radius 0 with a positive velocity, and it satisfies the invariant (timer ≥ 0 and the ping-pong invariant) |
| `FlowField.Tick` | script.js:111-147 | one `animate` call as a value: `lastTime` becomes the timestamp; a redraw fires iff the old `timer > interval`, and then the timer is reset to 0 and the oscillator advanced; otherwise the timer grows by `timeStamp - lastTime` and the oscillator is unchanged. `TickKeepsInv` and `NoTwoRedrawsInARow` are its partners |
| `FlowField.TickKeepsInv` | script.js:112-146 | a tick whose timestamp is not older than `lastTime` keeps timer ≥ 0 and the oscillator invariant |
| `FlowField.NoTwoRedrawsInARow` | script.js:117-146 | with a non-negative interval, the tick after a redraw never redraws, and its timer is exactly the time since the redraw |
| `FlowField.Run` | script.js:112-113 | a driver loop replacing the self-scheduling of script.js:152 feeds timestamps to `Tick` in order; `lastTime` ends as the last timestamp fed, or unchanged when none is. `RunKeepsInv` and `FromInitial` are its partners |
| `FlowField.RunKeepsInv` | script.js:111-147 | along every run with non-decreasing timestamps, timer ≥ 0 and the oscillator invariant hold |
| `FlowField.FromInitial` | script.js:55-147 | from the constructor's state, for non-decreasing timestamps from 0: timer ≥ 0, abs(vr) = 0.03 and abs(radius) ≤ 5 + 0.03 forever |
| `FlowField.RedrawEveryThirdTickAt16ms` | script.js:117-146 | at 16 ms per tick with the 1000/60 ms interval, the first two ticks after a reset don't redraw and the third does, resetting the timer |
| `FlowField.RowFrom` | script.js:127 | the inner loop from x visits `ceil((width - x)/15)` cells, none when x ≥ width; `RowMembership` and `RowOrder` say which cells and in what order |
| `FlowField.RowMembership` | script.js:127 | a cell is visited by the inner loop from x iff it is on row y, x ≤ cell.x < width and cell.x - x is a multiple of 15 |
| `FlowField.RowOrder` | script.js:127 | the inner loop visits cells in strictly increasing x |
| `FlowField.GridFrom` | script.js:126-127 | the loops from row y visit `ceil((height - y)/15) * ceil(width/15)` cells; `GridFromMembership` and `GridFromOrder` say which cells and in what order |
| `FlowField.GridFromMembership` | script.js:126-142 | a cell is visited from row y iff y ≤ cell.y < height, cell.y - y is a multiple of 15, cell.x < width and cell.x is a multiple of 15 |
| `FlowField.GridFromOrder` | script.js:126-142 | the loops from row y visit cells in strict row-major order |
| `FlowField.Grid` | script.js:126-127 | a redraw visits `ceil(width/15) * ceil(height/15)` cells; `GridShape` characterises them |
| `FlowField.GridShape` | script.js:126-142 | a redraw visits exactly the cells (15i, 15j) with 15i < width and 15j < height, in strict row-major order, `ceil(width/15) * ceil(height/15)` of them |
| `FlowField.RowMajorDistinct` | script.js:126-142 | strict row-major order means no cell is visited twice |
| `FlowField.Angle` | script.js:135-138 | the angle at a cell is the wave there times `radius`, so it is 0 whenever the radius is 0 |
| `FlowField.Segments` | script.js:140 | the trace has one segment per visited cell |
| `FlowField.SegmentsAt` | script.js:140 | the i-th segment is the line drawn at the i-th cell |
| `FlowField.Redraw` | script.js:126-142 | a redraw strokes one segment per grid cell, `ceil(width/15) * ceil(height/15)` of them; `RedrawShape` characterises each |
| `FlowField.RedrawShape` | script.js:126-142 | the i-th segment of a redraw is the line drawn at the i-th grid cell: angle `wave * radius`, the clamped squared distance of that cell, and length distance × 0.0001, in [5, 60] |
| `FlowField.SmallSurfaceScenario` | script.js:126-142 | on a 30×30 surface the cells are (0,0), (15,0), (0,15), (15,15); with the pointer at the origin and radius 0, every wave gives four segments of angle 0, distance 50000 and length 5 |

## Left out

- Page bootstrap, the resize handler and `cancelAnimationFrame` (script.js:1-28): browser lifecycle wiring. A resize builds a new instance, which the constructor covers.
- Pointer tracking (script.js:30-38): an event listener writing a global; the pointer position is a parameter of `Step` instead.
- All canvas calls (`clearRect`, `beginPath`, `moveTo`, `lineTo`, `stroke`, `strokeStyle`, `lineWidth`) and `#createGradient` with its six colour stops (script.js:51-52, 62, 85-108): calls into an opaque graphics API. The trace records each segment's start, angle and length instead.
- The trigonometric angle formula and the segment end point (script.js:89-90, 135-138): `cos` and `sin` on floating point are not modelled. `wave` stands for the trigonometric part; the product with `radius` is modelled.
- `this.angle += 0.1` (script.js:114): it updates a field that is never initialised or read, so it has no observable effect.
- The `requestAnimationFrame` self-scheduling (script.js:152): host scheduling. A driver loop calls `Step` repeatedly; `Run` models such a loop.
- IEEE-754 rounding: all arithmetic is exact on `real`. For example, the radius is modelled as exact multiples of 0.03, with no drift.
