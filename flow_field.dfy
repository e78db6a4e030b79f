/** A model of the FlowFieldEffect component of script.js.

    The component is a small state machine driven by the host's animation
    callback.  Each tick feeds the time gate; when the gate opens, the radius
    oscillator advances and one line segment is drawn for every cell of a
    15-unit grid, with a length that depends on the squared distance from the
    pointer to the cell.

    Canvas calls are replaced by a trace: the sequence of segments a redraw
    would stroke, each recording its cell (the start point), its angle, the
    clamped squared distance and the resulting length.  The trigonometric part
    of the angle, cos(mouse.x * x * 1e-5) + sin(mouse.y * y * 1e-5), is an
    arbitrary function `wave` supplied by the caller.  Times and magnitudes are
    `real`: the model states the arithmetic intent, not IEEE-754 rounding. */
module FlowField {

  // ---------------------------------------------------------------------
  // Constants fixed by the component
  // ---------------------------------------------------------------------

  /** Grid spacing in surface units. */
  const CellSize: nat := 15
  /** Target frame interval in milliseconds (60 frames per second). */
  const FrameInterval: real := 1000.0 / 60.0
  /** Clamp bounds for the squared pointer distance. */
  const MinDistance: real := 50000.0
  const MaxDistance: real := 600000.0
  /** Factor turning a clamped squared distance into a segment length. */
  const LengthScale: real := 0.0001
  /** The oscillator turns once |radius| exceeds this bound. */
  const RadiusBound: real := 5.0
  /** Initial velocity of the oscillator, and its speed forever after. */
  const RadiusStep: real := 0.03

  /** The trigonometric part of a cell's angle, as a function of the pointer
      position and the cell's coordinates; the angle is this times the radius. */
  type Wave = (real, real, nat, nat) -> real

  datatype Cell = Cell(x: nat, y: nat)

  /** One stroked segment: it starts at `cell`, points along `angle` and is
      `length` long; `distance` is the clamped squared pointer distance. */
  datatype Segment = Segment(cell: Cell, angle: real, distance: real, length: real)

  datatype Oscillator = Oscillator(radius: real, vr: real)

  /** The part of the component's state that ticks change. */
  datatype Snapshot = Snapshot(lastTime: real, timer: real, osc: Oscillator)

  /** The outcome of one tick: the new state and whether a redraw fired. */
  datatype Frame = Frame(state: Snapshot, redrew: bool)

  // ---------------------------------------------------------------------
  // Distance clamp and line length (#drawLine)
  // ---------------------------------------------------------------------

  /** Squared distance from the pointer to the cell origin; #drawLine skips
      the square root on purpose, and the clamp bounds are tuned for it. */
  function SquaredDistance(mouseX: real, mouseY: real, c: Cell): (d: real)
    ensures d >= 0.0
  {
    var dx := mouseX - c.x as real;
    var dy := mouseY - c.y as real;
    SquareNonNegative(dx);
    SquareNonNegative(dy);
    dx * dx + dy * dy
  }

  lemma SquareNonNegative(a: real)
    ensures a * a >= 0.0
  {
    if a < 0.0 {
      assert a * a == (-a) * (-a);
    }
  }

  /** The clamp of #drawLine: the upper bound is tested first, then the lower. */
  function ClampDistance(d: real): (r: real)
    ensures MinDistance <= r <= MaxDistance
    ensures d < MinDistance ==> r == MinDistance
    ensures d > MaxDistance ==> r == MaxDistance
    ensures MinDistance <= d <= MaxDistance ==> r == d
  {
    if d > MaxDistance then MaxDistance
    else if d < MinDistance then MinDistance
    else d
  }

  function Min(a: real, b: real): real { if a <= b then a else b }
  function Max(a: real, b: real): real { if a <= b then b else a }

  /** The clamp agrees with the textbook definition max(lo, min(hi, d)),
      leaves clamped values alone and never reverses the order of two inputs. */
  lemma ClampProperties(d: real, e: real)
    ensures ClampDistance(d) == Max(MinDistance, Min(MaxDistance, d))
    ensures ClampDistance(ClampDistance(d)) == ClampDistance(d)
    ensures d <= e ==> ClampDistance(d) <= ClampDistance(e)
  {
  }

  /** The segment #drawLine strokes at cell `c` for the given angle. */
  function DrawLine(angle: real, c: Cell, mouseX: real, mouseY: real): (s: Segment)
    ensures s.cell == c && s.angle == angle
    ensures s.distance == ClampDistance(SquaredDistance(mouseX, mouseY, c))
    ensures MinDistance <= s.distance <= MaxDistance
    ensures s.length == s.distance * LengthScale
    ensures 5.0 <= s.length <= 60.0
  {
    var distance := ClampDistance(SquaredDistance(mouseX, mouseY, c));
    Segment(c, angle, distance, distance * LengthScale)
  }

  /** A cell nearer the pointer never gets a longer segment. */
  lemma NearerIsNotLonger(a: Cell, b: Cell, angleA: real, angleB: real, mouseX: real, mouseY: real)
    requires SquaredDistance(mouseX, mouseY, a) <= SquaredDistance(mouseX, mouseY, b)
    ensures DrawLine(angleA, a, mouseX, mouseY).length <= DrawLine(angleB, b, mouseX, mouseY).length
  {
    ClampProperties(SquaredDistance(mouseX, mouseY, a), SquaredDistance(mouseX, mouseY, b));
  }

  // ---------------------------------------------------------------------
  // Oscillator
  // ---------------------------------------------------------------------

  /** The bounded ping-pong invariant: the speed is always RadiusStep, the
      radius never leaves [-5.03, 5.03], and beyond either bound the velocity
      already points back inside. */
  ghost predicate OscInv(o: Oscillator)
  {
    (o.vr == RadiusStep || o.vr == -RadiusStep) &&
    -(RadiusBound + RadiusStep) <= o.radius <= RadiusBound + RadiusStep &&
    (o.radius > RadiusBound ==> o.vr < 0.0) &&
    (o.radius < -RadiusBound ==> o.vr > 0.0)
  }

  /** One redraw's oscillator update: radius += vr, then vr is negated when
      the new radius lies outside [-5, 5]. */
  function Advance(o: Oscillator): (n: Oscillator)
    ensures n.radius == o.radius + o.vr
    ensures n.vr == -o.vr || n.vr == o.vr
    ensures OscInv(o) ==> OscInv(n)
  {
    var radius := o.radius + o.vr;
    Oscillator(radius, if radius > RadiusBound || radius < -RadiusBound then -o.vr else o.vr)
  }

  /** The velocity is negated exactly when the new radius is out of bounds
      (for any nonzero velocity). */
  lemma AdvanceTurnsExactlyOutside(o: Oscillator)
    requires o.vr != 0.0
    ensures Advance(o).vr == -o.vr <==> Advance(o).radius > RadiusBound || Advance(o).radius < -RadiusBound
  {
  }

  /** Once the radius exceeds 5 the velocity is -0.03, and once it drops
      below -5 the velocity is +0.03. */
  lemma AdvanceTurnsBack(o: Oscillator)
    requires OscInv(o)
    ensures Advance(o).radius > RadiusBound ==> Advance(o).vr == -RadiusStep
    ensures Advance(o).radius < -RadiusBound ==> Advance(o).vr == RadiusStep
  {
  }

  // ---------------------------------------------------------------------
  // Frame gate
  // ---------------------------------------------------------------------

  /** The state the constructor sets up: no time has passed, the radius is 0
      and grows first. It already satisfies Inv. */
  function Initial(): (s: Snapshot)
    ensures s.lastTime == 0.0 && s.timer == 0.0
    ensures s.osc.radius == 0.0 && s.osc.vr > 0.0
    ensures Inv(s)
  {
    Snapshot(0.0, 0.0, Oscillator(0.0, RadiusStep))
  }

  /** One call of animate(timeStamp) on the state `s`, as a value: the
      timestamp is recorded; a tick redraws exactly when the timer has passed
      the interval, and then resets the timer and advances the oscillator;
      any other tick adds the elapsed time to the timer and leaves the
      oscillator alone. */
  function Tick(s: Snapshot, interval: real, timeStamp: real): (f: Frame)
    ensures f.state.lastTime == timeStamp
    ensures f.redrew <==> s.timer > interval
    ensures f.redrew ==> f.state.timer == 0.0 && f.state.osc == Advance(s.osc)
    ensures !f.redrew ==> f.state.timer == s.timer + (timeStamp - s.lastTime) && f.state.osc == s.osc
  {
    var deltaTime := timeStamp - s.lastTime;
    if s.timer > interval then
      Frame(Snapshot(timeStamp, 0.0, Advance(s.osc)), true)
    else
      Frame(Snapshot(timeStamp, s.timer + deltaTime, s.osc), false)
  }

  /** The states reachable with non-decreasing timestamps keep this. */
  ghost predicate Inv(s: Snapshot)
  {
    s.timer >= 0.0 && OscInv(s.osc)
  }

  /** A tick whose timestamp is not older than the last one keeps Inv. */
  lemma TickKeepsInv(s: Snapshot, interval: real, timeStamp: real)
    requires Inv(s) && s.lastTime <= timeStamp
    ensures Inv(Tick(s, interval, timeStamp).state)
  {
  }

  /** A redraw resets the timer to 0, so with a non-negative interval the tick
      right after a redraw never redraws: one surplus cannot fire twice. */
  lemma NoTwoRedrawsInARow(s: Snapshot, interval: real, t1: real, t2: real)
    requires interval >= 0.0
    requires Tick(s, interval, t1).redrew
    ensures !Tick(Tick(s, interval, t1).state, interval, t2).redrew
    ensures Tick(Tick(s, interval, t1).state, interval, t2).state.timer == t2 - t1
  {
  }

  /** The ticks of a driver loop feeding the timestamps `ts` in order. Every
      tick records its timestamp, so a run ends with the last one it was fed
      (and changes nothing when fed none). */
  function Run(s: Snapshot, interval: real, ts: seq<real>): (r: Snapshot)
    ensures r.lastTime == if ts == [] then s.lastTime else ts[|ts| - 1]
    decreases |ts|
  {
    if ts == [] then s else Run(Tick(s, interval, ts[0]).state, interval, ts[1..])
  }

  /** The timestamps never go back, starting from `t0`. */
  ghost predicate NonDecreasing(t0: real, ts: seq<real>)
  {
    (|ts| > 0 ==> t0 <= ts[0]) &&
    forall i, j :: 0 <= i < j < |ts| ==> ts[i] <= ts[j]
  }

  /** Along any run with non-decreasing timestamps Inv holds throughout. */
  lemma {:induction false} RunKeepsInv(s: Snapshot, interval: real, ts: seq<real>)
    requires Inv(s) && NonDecreasing(s.lastTime, ts)
    ensures Inv(Run(s, interval, ts))
    decreases |ts|
  {
    if ts != [] {
      TickKeepsInv(s, interval, ts[0]);
      var next := Tick(s, interval, ts[0]).state;
      assert NonDecreasing(next.lastTime, ts[1..]) by {
        forall i, j | 0 <= i < j < |ts[1..]| ensures ts[1..][i] <= ts[1..][j] {
          assert ts[1..][i] == ts[i + 1] && ts[1..][j] == ts[j + 1];
        }
        if |ts| > 1 {
          assert ts[1..][0] == ts[1];
        }
      }
      RunKeepsInv(next, interval, ts[1..]);
    }
  }

  /** From the constructor's state, with non-negative non-decreasing
      timestamps, the timer stays non-negative, |vr| stays 0.03, and |radius|
      stays within 5 + 0.03. */
  lemma FromInitial(interval: real, ts: seq<real>)
    requires NonDecreasing(0.0, ts)
    ensures Run(Initial(), interval, ts).timer >= 0.0
    ensures Run(Initial(), interval, ts).osc.vr == RadiusStep || Run(Initial(), interval, ts).osc.vr == -RadiusStep
    ensures -(RadiusBound + RadiusStep) <= Run(Initial(), interval, ts).osc.radius <= RadiusBound + RadiusStep
  {
    RunKeepsInv(Initial(), interval, ts);
  }

  /** With ticks 16 ms apart and the 1000/60 ms interval, a redraw fires on
      every third tick: the timer goes 0, 16, 32, and only 32 exceeds 16.67. */
  lemma RedrawEveryThirdTickAt16ms(t0: real, o: Oscillator)
    ensures var f1 := Tick(Snapshot(t0, 0.0, o), FrameInterval, t0 + 16.0);
            var f2 := Tick(f1.state, FrameInterval, t0 + 32.0);
            var f3 := Tick(f2.state, FrameInterval, t0 + 48.0);
            !f1.redrew && !f2.redrew && f3.redrew && f3.state.timer == 0.0
  {
  }

  // ---------------------------------------------------------------------
  // Grid enumeration
  // ---------------------------------------------------------------------

  /** ceil(extent / 15): the number of grid lines in [0, extent). */
  function CellsAlong(extent: nat): nat
  {
    (extent + CellSize - 1) / CellSize
  }

  /** The cells (x', y) with x' = x, x + 15, ... and x' < width: what the
      inner loop visits from `x` on, ceil((width - x) / 15) of them. */
  function RowFrom(x: nat, y: nat, width: nat): (r: seq<Cell>)
    ensures |r| == if x < width then CellsAlong(width - x) else 0
    decreases width - x
  {
    if x < width then [Cell(x, y)] + RowFrom(x + CellSize, y, width) else []
  }

  /** The rows y' = y, y + 15, ... with y' < height, in order: what the outer
      loop visits from `y` on, ceil((height - y) / 15) full rows. */
  function GridFrom(y: nat, width: nat, height: nat): (r: seq<Cell>)
    ensures |r| == (if y < height then CellsAlong(height - y) else 0) * CellsAlong(width)
    decreases height - y
  {
    if y < height then
      var k := if y + CellSize < height then CellsAlong(height - y - CellSize) else 0;
      assert CellsAlong(height - y) == k + 1;
      assert (k + 1) * CellsAlong(width) == k * CellsAlong(width) + CellsAlong(width);
      RowFrom(0, y, width) + GridFrom(y + CellSize, width, height)
    else []
  }

  /** All cells of a redraw, in the order they are drawn:
      ceil(width / 15) * ceil(height / 15) of them. */
  function Grid(width: nat, height: nat): (cells: seq<Cell>)
    ensures |cells| == CellsAlong(width) * CellsAlong(height)
  {
    assert height == 0 ==> CellsAlong(height) == 0;
    GridFrom(0, width, height)
  }

  /** Row-major order: rows first (y outer), then x within a row. */
  predicate Before(a: Cell, b: Cell)
  {
    a.y < b.y || (a.y == b.y && a.x < b.x)
  }

  predicate RowMajor(cells: seq<Cell>)
  {
    forall i, j :: 0 <= i < j < |cells| ==> Before(cells[i], cells[j])
  }

  /** A coordinate on the lattice from `start` other than `start` itself is
      on the lattice from the next grid line. */
  lemma NextLine(a: int, start: int)
    ensures (start <= a && (a - start) % CellSize == 0 && a != start) <==>
      (start + CellSize <= a && (a - start - CellSize) % CellSize == 0)
  {
  }

  lemma {:induction false} RowMembership(x: nat, y: nat, width: nat, c: Cell)
    ensures c in RowFrom(x, y, width) <==> c.y == y && x <= c.x < width && (c.x - x) % CellSize == 0
    decreases width - x
  {
    if x < width {
      RowMembership(x + CellSize, y, width, c);
      NextLine(c.x, x);
    }
  }

  lemma {:induction false} RowOrder(x: nat, y: nat, width: nat)
    ensures RowMajor(RowFrom(x, y, width))
    decreases width - x
  {
    if x < width {
      var rest := RowFrom(x + CellSize, y, width);
      RowOrder(x + CellSize, y, width);
      var row := [Cell(x, y)] + rest;
      forall i, j | 0 <= i < j < |row| ensures Before(row[i], row[j]) {
        if i == 0 {
          RowMembership(x + CellSize, y, width, rest[j - 1]);
        } else {
          assert row[i] == rest[i - 1] && row[j] == rest[j - 1];
        }
      }
    }
  }

  lemma {:induction false} GridFromMembership(y: nat, width: nat, height: nat, c: Cell)
    ensures c in GridFrom(y, width, height) <==>
      y <= c.y < height && (c.y - y) % CellSize == 0 && c.x < width && c.x % CellSize == 0
    decreases height - y
  {
    if y < height {
      RowMembership(0, y, width, c);
      GridFromMembership(y + CellSize, width, height, c);
      NextLine(c.y, y);
      assert c in GridFrom(y, width, height) <==>
        c in RowFrom(0, y, width) || c in GridFrom(y + CellSize, width, height);
    }
  }

  lemma {:induction false} GridFromOrder(y: nat, width: nat, height: nat)
    ensures RowMajor(GridFrom(y, width, height))
    decreases height - y
  {
    if y < height {
      var row := RowFrom(0, y, width);
      var rest := GridFrom(y + CellSize, width, height);
      RowOrder(0, y, width);
      GridFromOrder(y + CellSize, width, height);
      var all := row + rest;
      forall i, j | 0 <= i < j < |all| ensures Before(all[i], all[j]) {
        if j < |row| {
          assert all[i] == row[i] && all[j] == row[j];
        } else if i < |row| {
          RowMembership(0, y, width, row[i]);
          GridFromMembership(y + CellSize, width, height, rest[j - |row|]);
          assert all[i] == row[i] && all[j] == rest[j - |row|];
        } else {
          assert all[i] == rest[i - |row|] && all[j] == rest[j - |row|];
        }
      }
    }
  }

  /** A redraw visits exactly the cells (15i, 15j) with 15i < width and
      15j < height, each once, in row-major order, ceil(width/15) *
      ceil(height/15) of them. */
  lemma GridShape(width: nat, height: nat)
    ensures |Grid(width, height)| == CellsAlong(width) * CellsAlong(height)
    ensures forall c :: c in Grid(width, height) <==>
      c.x < width && c.y < height && c.x % CellSize == 0 && c.y % CellSize == 0
    ensures RowMajor(Grid(width, height))
  {
    forall c
      ensures c in Grid(width, height) <==>
        c.x < width && c.y < height && c.x % CellSize == 0 && c.y % CellSize == 0
    {
      GridFromMembership(0, width, height, c);
    }
    GridFromOrder(0, width, height);
  }

  /** Row-major order is strict, so no cell is drawn twice. */
  lemma RowMajorDistinct(cells: seq<Cell>)
    requires RowMajor(cells)
    ensures forall i, j :: 0 <= i < j < |cells| ==> cells[i] != cells[j]
  {
  }

  // ---------------------------------------------------------------------
  // The trace of a redraw
  // ---------------------------------------------------------------------

  /** The angle of the segment at cell `c`: the wave there times the radius,
      so every line lies flat while the radius is 0. */
  function Angle(mouseX: real, mouseY: real, wave: Wave, radius: real, c: Cell): (a: real)
    ensures radius == 0.0 ==> a == 0.0
  {
    wave(mouseX, mouseY, c.x, c.y) * radius
  }

  /** The line draw a redraw makes at each cell. */
  function LineAt(mouseX: real, mouseY: real, wave: Wave, radius: real): Cell -> Segment
  {
    (c: Cell) => DrawLine(Angle(mouseX, mouseY, wave, radius, c), c, mouseX, mouseY)
  }

  /** The segments drawn for `cells`, one per cell and in the same order. */
  function Segments(cells: seq<Cell>, line: Cell -> Segment): (r: seq<Segment>)
    ensures |r| == |cells|
    decreases |cells|
  {
    if cells == [] then [] else [line(cells[0])] + Segments(cells[1..], line)
  }

  lemma {:induction false} SegmentsAt(cells: seq<Cell>, line: Cell -> Segment, i: nat)
    requires i < |cells|
    ensures Segments(cells, line)[i] == line(cells[i])
    decreases |cells|
  {
    if i > 0 {
      SegmentsAt(cells[1..], line, i - 1);
    }
  }

  lemma {:induction false} SegmentsAppend(a: seq<Cell>, b: seq<Cell>, line: Cell -> Segment)
    ensures Segments(a + b, line) == Segments(a, line) + Segments(b, line)
    decreases |a|
  {
    if a == [] {
      assert a + b == b;
    } else {
      SegmentsAppend(a[1..], b, line);
      assert (a + b)[1..] == a[1..] + b;
      assert (a + b)[0] == a[0];
    }
  }

  /** One step of the inner loop: what is left of a row that starts at x
      begins with the segment at (x, y). */
  lemma RowStep(done: seq<Segment>, x: nat, y: nat, width: nat, line: Cell -> Segment)
    requires x < width
    ensures done + Segments(RowFrom(x, y, width), line) ==
      (done + [line(Cell(x, y))]) + Segments(RowFrom(x + CellSize, y, width), line)
  {
    var rest := RowFrom(x + CellSize, y, width);
    assert RowFrom(x, y, width)[1..] == rest;
    var later := Segments(rest, line);
    assert done + ([line(Cell(x, y))] + later) == (done + [line(Cell(x, y))]) + later;
  }

  /** RowStep for the line draw of a redraw, with the angle written out. */
  lemma LineStep(done: seq<Segment>, x: nat, y: nat, width: nat, mouseX: real, mouseY: real, wave: Wave, radius: real)
    requires x < width
    ensures done + Segments(RowFrom(x, y, width), LineAt(mouseX, mouseY, wave, radius)) ==
      (done + [DrawLine(wave(mouseX, mouseY, x, y) * radius, Cell(x, y), mouseX, mouseY)]) +
      Segments(RowFrom(x + CellSize, y, width), LineAt(mouseX, mouseY, wave, radius))
  {
    var line := LineAt(mouseX, mouseY, wave, radius);
    RowStep(done, x, y, width, line);
    assert line(Cell(x, y)) == DrawLine(wave(mouseX, mouseY, x, y) * radius, Cell(x, y), mouseX, mouseY);
  }

  /** One step of the outer loop: what is left of the grid from row y on
      begins with the segments of row y. */
  lemma GridStep(done: seq<Segment>, y: nat, width: nat, height: nat, line: Cell -> Segment)
    requires y < height
    ensures done + Segments(GridFrom(y, width, height), line) ==
      (done + Segments(RowFrom(0, y, width), line)) + Segments(GridFrom(y + CellSize, width, height), line)
  {
    var row := RowFrom(0, y, width);
    var below := GridFrom(y + CellSize, width, height);
    SegmentsAppend(row, below, line);
    var a, b := Segments(row, line), Segments(below, line);
    assert done + (a + b) == (done + a) + b;
  }

  /** When a loop ends nothing is left to draw. */
  lemma NothingLeft(done: seq<Segment>, left: seq<Cell>, line: Cell -> Segment)
    requires left == []
    ensures done + Segments(left, line) == done
  {
    assert done + [] == done;
  }

  /** Everything one redraw strokes, in order: one segment per grid cell. */
  function Redraw(width: nat, height: nat, mouseX: real, mouseY: real, wave: Wave, radius: real): (r: seq<Segment>)
    ensures |r| == CellsAlong(width) * CellsAlong(height)
  {
    Segments(Grid(width, height), LineAt(mouseX, mouseY, wave, radius))
  }

  /** A redraw calls the line draw once per grid cell, in grid order, with
      the cell's angle; each segment has the clamp of its squared pointer
      distance and a length of that times 0.0001, between 5 and 60. */
  lemma RedrawShape(width: nat, height: nat, mouseX: real, mouseY: real, wave: Wave, radius: real)
    ensures forall i :: 0 <= i < |Grid(width, height)| ==>
      var s := Redraw(width, height, mouseX, mouseY, wave, radius)[i];
      s == DrawLine(Angle(mouseX, mouseY, wave, radius, s.cell), s.cell, mouseX, mouseY) &&
      s.cell == Grid(width, height)[i] &&
      s.angle == wave(mouseX, mouseY, s.cell.x, s.cell.y) * radius &&
      s.distance == ClampDistance(SquaredDistance(mouseX, mouseY, s.cell)) &&
      s.length == s.distance * LengthScale && 5.0 <= s.length <= 60.0
  {
    var line := LineAt(mouseX, mouseY, wave, radius);
    forall i | 0 <= i < |Grid(width, height)|
      ensures Redraw(width, height, mouseX, mouseY, wave, radius)[i] == line(Grid(width, height)[i])
    {
      SegmentsAt(Grid(width, height), line, i);
    }
  }

  /** On a 30 x 30 surface with the pointer at the origin and radius 0, a
      redraw strokes four segments of angle 0 and length 5, at (0,0), (15,0),
      (0,15) and (15,15), whatever the wave. */
  lemma SmallSurfaceScenario(wave: Wave)
    ensures Grid(30, 30) == [Cell(0, 0), Cell(15, 0), Cell(0, 15), Cell(15, 15)]
    ensures Redraw(30, 30, 0.0, 0.0, wave, 0.0) ==
      [Segment(Cell(0, 0), 0.0, MinDistance, 5.0), Segment(Cell(15, 0), 0.0, MinDistance, 5.0),
       Segment(Cell(0, 15), 0.0, MinDistance, 5.0), Segment(Cell(15, 15), 0.0, MinDistance, 5.0)]
  {
    SmallSurfaceGrid();
    var cells := [Cell(0, 0), Cell(15, 0), Cell(0, 15), Cell(15, 15)];
    var segs := Redraw(30, 30, 0.0, 0.0, wave, 0.0);
    forall i | 0 <= i < 4 ensures segs[i] == Segment(cells[i], 0.0, MinDistance, 5.0) {
      SegmentsAt(cells, LineAt(0.0, 0.0, wave, 0.0), i);
    }
  }

  /** The cells of a redraw on a 30 x 30 surface. */
  lemma SmallSurfaceGrid()
    ensures Grid(30, 30) == [Cell(0, 0), Cell(15, 0), Cell(0, 15), Cell(15, 15)]
  {
    assert RowFrom(30, 0, 30) == [];
    assert RowFrom(15, 0, 30) == [Cell(15, 0)];
    assert RowFrom(0, 0, 30) == [Cell(0, 0), Cell(15, 0)];
    assert RowFrom(30, 15, 30) == [];
    assert RowFrom(15, 15, 30) == [Cell(15, 15)];
    assert RowFrom(0, 15, 30) == [Cell(0, 15), Cell(15, 15)];
    assert GridFrom(30, 30, 30) == [];
    assert GridFrom(15, 30, 30) == [Cell(0, 15), Cell(15, 15)];
    assert GridFrom(0, 30, 30) == [Cell(0, 0), Cell(15, 0)] + [Cell(0, 15), Cell(15, 15)];
  }

  // ---------------------------------------------------------------------
  // The component
  // ---------------------------------------------------------------------

  class FlowFieldEffect {
    var width: nat
    var height: nat
    var lastTime: real
    var interval: real
    var timer: real
    var cellSize: nat
    var radius: real
    var vr: real

    /** The constants never change and the oscillator keeps its invariant. */
    ghost predicate Valid()
      reads this
    {
      cellSize == CellSize && interval == FrameInterval && OscInv(Oscillator(radius, vr))
    }

    /** The state a tick changes, as a value. */
    ghost function Snap(): Snapshot
      reads this
    {
      Snapshot(lastTime, timer, Oscillator(radius, vr))
    }

    constructor (width: nat, height: nat)
      ensures Valid()
      ensures this.width == width && this.height == height
      ensures lastTime == 0.0 && timer == 0.0 && interval == FrameInterval && cellSize == CellSize
      ensures radius == 0.0 && vr == RadiusStep
      ensures Snap() == Initial()
    {
      this.width := width;
      this.height := height;
      lastTime := 0.0;
      interval := FrameInterval;
      timer := 0.0;
      cellSize := CellSize;
      radius := 0.0;
      vr := RadiusStep;
    }

    /** The outer loop of a redraw: rows y = 0, 15, ... below the height,
        each drawn by the inner loop. */
    method DrawField(mouseX: real, mouseY: real, wave: Wave) returns (trace: seq<Segment>)
      requires Valid()
      ensures trace == Redraw(width, height, mouseX, mouseY, wave, radius)
    {
      var step, w, h := cellSize, width, height;
      ghost var line := LineAt(mouseX, mouseY, wave, radius);
      ghost var all := Segments(GridFrom(0, w, h), line);
      trace := [];
      var y: nat := 0;
      while y < h
        invariant trace + Segments(GridFrom(y, w, h), line) == all
        decreases h - y
      {
        var row := DrawRow(y, mouseX, mouseY, wave);
        GridStep(trace, y, w, h, line);
        trace := trace + row;
        y := y + step;
      }
      NothingLeft(trace, GridFrom(y, w, h), line);
    }

    /** The inner loop of a redraw: x = 0, 15, ... below the width on row y,
        one line per cell, its angle the wave times the current radius. */
    method DrawRow(y: nat, mouseX: real, mouseY: real, wave: Wave) returns (row: seq<Segment>)
      requires Valid()
      ensures row == Segments(RowFrom(0, y, width), LineAt(mouseX, mouseY, wave, radius))
    {
      var step, w, r := cellSize, width, radius;
      ghost var line := LineAt(mouseX, mouseY, wave, r);
      row := [];
      var x: nat := 0;
      while x < w
        invariant row + Segments(RowFrom(x, y, w), line) == Segments(RowFrom(0, y, w), line)
        decreases w - x
      {
        var angle := wave(mouseX, mouseY, x, y) * r;
        LineStep(row, x, y, w, mouseX, mouseY, wave, r);
        row := row + [DrawLine(angle, Cell(x, y), mouseX, mouseY)];
        x := x + step;
      }
      NothingLeft(row, RowFrom(x, y, w), line);
    }

    /** animate(timeStamp) with the pointer at (mouseX, mouseY): the time
        gate, and on a redraw the oscillator update and the grid of lines. */
    method Step(timeStamp: real, mouseX: real, mouseY: real, wave: Wave) returns (redrew: bool, trace: seq<Segment>)
      requires Valid()
      modifies this
      ensures Valid()
      ensures width == old(width) && height == old(height)
      ensures interval == old(interval) && cellSize == old(cellSize)
      ensures Frame(Snap(), redrew) == Tick(old(Snap()), interval, timeStamp)
      ensures trace == if redrew then Redraw(width, height, mouseX, mouseY, wave, radius) else []
      ensures old(timer) >= 0.0 && old(lastTime) <= timeStamp ==> timer >= 0.0
    {
      var deltaTime := timeStamp - lastTime;
      lastTime := timeStamp;
      if timer > interval {
        radius := radius + vr;
        if radius > RadiusBound || radius < -RadiusBound {
          vr := -vr;
        }
        trace := DrawField(mouseX, mouseY, wave);
        timer := 0.0;
        redrew := true;
      } else {
        timer := timer + deltaTime;
        trace := [];
        redrew := false;
      }
    }
  }
}
