/**
 * The per-dot arithmetic of the flip-dot canvas: for one cell and one frame, its
 * sweep delay, jitter, variance-scaled flip duration, clamped progress, and the
 * visual state (face, squash, flipping) drawn from it.
 * Milliseconds are exact reals; floating-point rounding is not modelled.
 */
module FlipTiming {

  datatype Direction = LeftRight | RightLeft | TopBottom | BottomTop

  /** The `switch (animationDirection)`: every unknown string falls to the default, left-right. */
  function ParseDirection(s: string): (d: Direction)
    ensures d == RightLeft <==> s == "right-left"
    ensures d == TopBottom <==> s == "top-bottom"
    ensures d == BottomTop <==> s == "bottom-top"
  {
    if s == "right-left" then RightLeft
    else if s == "top-bottom" then TopBottom
    else if s == "bottom-top" then BottomTop
    else LeftRight
  }

  predicate IsVertical(d: Direction) {
    d == TopBottom || d == BottomTop
  }

  /**
   * A per-dot modifier. `Jitter` is the shape the size effect stores
   * (`{startOffset, randomFactor}`); `SpeedMod` is the shape the data effect's
   * fallback regeneration stores (`{startOffset, speedMod}`), which has no
   * `randomFactor` property.
   */
  datatype DotModifier =
    | Jitter(startOffset: real, randomFactor: real)
    | SpeedMod(startOffset: real, speedMod: real)

  /** Used when the modifier table has no entry for a cell. */
  const DefaultModifier: DotModifier := Jitter(0.0, 0.5)

  function ModifierAt(mods: seq<DotModifier>, index: nat): DotModifier {
    if index < |mods| then mods[index] else DefaultModifier
  }

  /** `bitmap[index] || 0`: a missing entry reads as 0. */
  function ValueAt(bitmap: seq<int>, index: nat): int {
    if index < |bitmap| then bitmap[index] else 0
  }

  /** `table[i] || i * 2`: a missing entry (undefined) or a zero entry (falsy) falls back to i * 2. */
  function AxisDelay(table: seq<real>, i: nat): real {
    if i < |table| && table[i] != 0.0 then table[i] else 2.0 * i as real
  }

  /** Start delay of cell (r, c) before jitter, for the given sweep direction. */
  function BaseDelay(dir: Direction, r: nat, c: nat, rows: nat, cols: nat,
                     rowDelays: seq<real>, colDelays: seq<real>, columnDelay: real): real
  {
    match dir
    case RightLeft => ((cols - 1 - c) as real + AxisDelay(rowDelays, r)) * columnDelay
    case TopBottom => (r as real + AxisDelay(colDelays, c)) * columnDelay
    case BottomTop => ((rows - 1 - r) as real + AxisDelay(colDelays, c)) * columnDelay
    case LeftRight => (c as real + AxisDelay(rowDelays, r)) * columnDelay
  }

  /** `1 + (randomFactor * 2 - 1) * (variance / 100)`. */
  function SpeedMultiplier(randomFactor: real, variance: real): real {
    1.0 + (randomFactor * 2.0 - 1.0) * (variance / 100.0)
  }

  function EffectiveDuration(flipDuration: real, variance: real, randomFactor: real): real {
    flipDuration * SpeedMultiplier(randomFactor, variance)
  }

  /** A progress value: a number, or NaN where the source's arithmetic produces NaN. */
  datatype Progress = Fraction(value: real) | NaN

  function Clamp01(x: real): real {
    if x < 0.0 then 0.0 else if x > 1.0 then 1.0 else x
  }

  /**
   * `Math.max(0, Math.min(1, (elapsed - dotDelay) / duration))` with JavaScript
   * division: a zero duration gives +Infinity (clamped to 1), -Infinity (clamped
   * to 0) or, for 0 / 0, NaN (which the clamps pass through).
   */
  function ProgressAt(elapsed: real, dotDelay: real, duration: real): (p: Progress)
    ensures p.Fraction? ==> 0.0 <= p.value <= 1.0
    ensures p.NaN? <==> duration == 0.0 && elapsed == dotDelay
    ensures duration > 0.0 && elapsed <= dotDelay ==> p == Fraction(0.0)
    ensures duration > 0.0 && elapsed >= dotDelay + duration ==> p == Fraction(1.0)
    ensures duration > 0.0 && dotDelay <= elapsed <= dotDelay + duration ==>
              p == Fraction((elapsed - dotDelay) / duration)
  {
    if duration == 0.0 then
      (if elapsed > dotDelay then Fraction(1.0)
       else if elapsed < dotDelay then Fraction(0.0)
       else NaN)
    else
      DivBounds(elapsed - dotDelay, duration);
      Fraction(Clamp01((elapsed - dotDelay) / duration))
  }

  lemma DivBounds(x: real, d: real)
    requires d != 0.0
    ensures d > 0.0 && x >= d ==> x / d >= 1.0
    ensures d > 0.0 && x <= 0.0 ==> x / d <= 0.0
  {
    assert (x / d) * d == x;
  }

  /** The timing props of the canvas. */
  datatype Timing = Timing(columnDelay: real, flipDuration: real, variance: real)

  /**
   * Progress of a dot with modifier `m` whose sweep delay is `baseDelay`. A
   * `SpeedMod` modifier has no `randomFactor`, so the duration and the progress are NaN.
   */
  function DotProgress(m: DotModifier, baseDelay: real, elapsed: real, t: Timing): (p: Progress)
    ensures p.Fraction? ==> 0.0 <= p.value <= 1.0
    ensures m.Jitter? && 0.0 <= m.randomFactor < 1.0 && t.flipDuration > 0.0 && 0.0 <= t.variance < 100.0 ==>
              p.Fraction?
  {
    match m
    case Jitter(startOffset, randomFactor) =>
      DurationPositive(t.flipDuration, t.variance, randomFactor);
      ProgressAt(elapsed, baseDelay + startOffset * t.columnDelay,
                 EffectiveDuration(t.flipDuration, t.variance, randomFactor))
    case SpeedMod(_, _) => NaN
  }

  /** Below 100% variance every dot's flip takes a positive time. */
  lemma DurationPositive(flipDuration: real, variance: real, randomFactor: real)
    ensures flipDuration > 0.0 && 0.0 <= variance < 100.0 && 0.0 <= randomFactor < 1.0 ==>
              EffectiveDuration(flipDuration, variance, randomFactor) > 0.0
  {
    if flipDuration > 0.0 && 0.0 <= variance < 100.0 && 0.0 <= randomFactor < 1.0 {
      var f := variance / 100.0;
      assert 0.0 <= f < 1.0;
      assert (randomFactor * 2.0 - 1.0) * f >= -f;
      assert SpeedMultiplier(randomFactor, variance) > 0.0;
    }
  }

  /** What the frame draws for one dot. */
  datatype DotState = DotState(showFront: bool, scaleY: real, isFlipping: bool)

  /** Strictly between rest and done; NaN compares false with everything. */
  predicate InFlight(p: Progress) {
    p.Fraction? && 0.0 < p.value < 1.0
  }

  /** Before the midpoint the previous value's face shows; from the midpoint on, the target's. */
  predicate BeforeMidpoint(p: Progress) {
    p.Fraction? && p.value < 0.5
  }

  function Abs(x: real): real {
    if x < 0.0 then -x else x
  }

  /**
   * The visual state of a dot at progress `p`, moving from `startVal` to
   * `targetVal`. `cosHalfTurn(x)` stands for `Math.cos(x * Math.PI)`.
   */
  function Visual(p: Progress, startVal: int, targetVal: int, cosHalfTurn: real -> real): DotState {
    DotState(
      showFront := if BeforeMidpoint(p) then startVal == 1 else targetVal == 1,
      scaleY := if InFlight(p) then Abs(cosHalfTurn(p.value)) else 1.0,
      isFlipping := InFlight(p))
  }

  /** The grid shape a frame is drawn for. */
  datatype Grid = Grid(rows: nat, cols: nat)

  /** The per-size tables the canvas keeps between frames. */
  datatype Tables = Tables(modifiers: seq<DotModifier>, rowDelays: seq<real>, colDelays: seq<real>)

  /** Everything the frame loop computes for cell (r, c) before painting it. */
  function CellState(g: Grid, r: nat, c: nat, data: seq<int>, prev: seq<int>, tables: Tables,
                     t: Timing, dir: Direction, elapsed: real, cosHalfTurn: real -> real): DotState
  {
    var index := r * g.cols + c;
    var base := BaseDelay(dir, r, c, g.rows, g.cols, tables.rowDelays, tables.colDelays, t.columnDelay);
    Visual(DotProgress(ModifierAt(tables.modifiers, index), base, elapsed, t),
           ValueAt(prev, index), ValueAt(data, index), cosHalfTurn)
  }

  // ---------------------------------------------------------------------------
  // Sweep duration bound (used to size the audio cue and the snapshot timer)

  /** `maxDelay`: the row steps are taken as 2 on average; vertical sweeps swap the axes. */
  function MaxDelay(dir: Direction, rows: nat, cols: nat, columnDelay: real): real {
    if IsVertical(dir) then ((rows - 1) + (cols - 1) * 2) as real * columnDelay
    else ((cols - 1) + (rows - 1) * 2) as real * columnDelay
  }

  /** `totalAnimationTime` of the audio cue. */
  function SweepTotal(dir: Direction, rows: nat, cols: nat, columnDelay: real, flipDuration: real): real {
    MaxDelay(dir, rows, cols, columnDelay) + flipDuration
  }

  /** The delay of the timer that copies the bitmap into `prevData`: always the horizontal formula. */
  function SnapshotDelay(rows: nat, cols: nat, columnDelay: real, flipDuration: real): real {
    ((cols - 1) + (rows - 1) * 2) as real * columnDelay + flipDuration
  }

  // ---------------------------------------------------------------------------
  // Properties

  /** Right-left is left-right mirrored across the columns. */
  lemma RightLeftMirrorsLeftRight(r: nat, c: nat, rows: nat, cols: nat,
                                  rowDelays: seq<real>, colDelays: seq<real>, columnDelay: real)
    requires c < cols
    ensures BaseDelay(RightLeft, r, c, rows, cols, rowDelays, colDelays, columnDelay)
         == BaseDelay(LeftRight, r, cols - 1 - c, rows, cols, rowDelays, colDelays, columnDelay)
  {
  }

  /** Bottom-top is top-bottom mirrored across the rows. */
  lemma BottomTopMirrorsTopBottom(r: nat, c: nat, rows: nat, cols: nat,
                                  rowDelays: seq<real>, colDelays: seq<real>, columnDelay: real)
    requires r < rows
    ensures BaseDelay(BottomTop, r, c, rows, cols, rowDelays, colDelays, columnDelay)
         == BaseDelay(TopBottom, rows - 1 - r, c, rows, cols, rowDelays, colDelays, columnDelay)
  {
  }

  /** A missing or zero table entry is replaced by twice its index; a non-zero entry is used as is. */
  lemma AxisDelayFallback(table: seq<real>, i: nat)
    ensures (i >= |table| || table[i] == 0.0) ==> AxisDelay(table, i) == 2.0 * i as real
    ensures (i < |table| && table[i] != 0.0) ==> AxisDelay(table, i) == table[i]
  {
  }

  /** Without variance every dot flips in exactly `flipDuration`. */
  lemma NoVarianceNoSpread(flipDuration: real, randomFactor: real)
    ensures EffectiveDuration(flipDuration, 0.0, randomFactor) == flipDuration
  {
  }

  /** A random factor in [0, 1) scales the duration by a multiplier in [1 - v, 1 + v), v = variance / 100. */
  lemma MultiplierRange(randomFactor: real, variance: real)
    requires 0.0 <= randomFactor < 1.0
    requires variance > 0.0
    ensures 1.0 - variance / 100.0 <= SpeedMultiplier(randomFactor, variance) < 1.0 + variance / 100.0
  {
    var v := variance / 100.0;
    var a := randomFactor * 2.0 - 1.0;
    assert (a + 1.0) * v >= 0.0;
    assert (1.0 - a) * v > 0.0;
    assert a * v == (a + 1.0) * v - v == v - (1.0 - a) * v;
    assert SpeedMultiplier(randomFactor, variance) == 1.0 + a * v;
  }

  /** With a positive duration, progress is a number that never decreases as time advances. */
  lemma {:induction false} ProgressMonotone(e1: real, e2: real, dotDelay: real, duration: real)
    requires duration > 0.0 && e1 <= e2
    ensures ProgressAt(e1, dotDelay, duration).Fraction?
    ensures ProgressAt(e2, dotDelay, duration).Fraction?
    ensures ProgressAt(e1, dotDelay, duration).value <= ProgressAt(e2, dotDelay, duration).value
  {
    DivMonotone(e1 - dotDelay, e2 - dotDelay, duration);
  }

  lemma DivMonotone(a: real, b: real, d: real)
    requires d > 0.0 && a <= b
    ensures a / d <= b / d
  {
    assert b / d - a / d == (b - a) / d;
  }

  /** The face shown: the previous value's before the midpoint, the target's from the midpoint on. */
  lemma FaceSwitchesAtMidpoint(p: Progress, startVal: int, targetVal: int, cosHalfTurn: real -> real)
    ensures p.Fraction? && p.value < 0.5 ==> Visual(p, startVal, targetVal, cosHalfTurn).showFront == (startVal == 1)
    ensures !(p.Fraction? && p.value < 0.5) ==> Visual(p, startVal, targetVal, cosHalfTurn).showFront == (targetVal == 1)
  {
  }

  /** A dot whose previous and target values agree shows the same face at every progress value. */
  lemma UnchangedDotKeepsFace(p: Progress, q: Progress, v: int, cos1: real -> real, cos2: real -> real)
    ensures Visual(p, v, v, cos1).showFront == Visual(q, v, v, cos2).showFront
  {
  }

  /** A dot is flipping exactly while its progress lies strictly between 0 and 1, and lies flat otherwise. */
  lemma FlippingIffInFlight(p: Progress, startVal: int, targetVal: int, cosHalfTurn: real -> real)
    ensures Visual(p, startVal, targetVal, cosHalfTurn).isFlipping <==> (p.Fraction? && 0.0 < p.value < 1.0)
    ensures !Visual(p, startVal, targetVal, cosHalfTurn).isFlipping ==> Visual(p, startVal, targetVal, cosHalfTurn).scaleY == 1.0
  {
  }

  /** With a cosine in [-1, 1], the squash factor stays in [0, 1]. */
  lemma ScaleYInUnitRange(p: Progress, startVal: int, targetVal: int, cosHalfTurn: real -> real)
    requires forall x :: -1.0 <= cosHalfTurn(x) <= 1.0
    ensures 0.0 <= Visual(p, startVal, targetVal, cosHalfTurn).scaleY <= 1.0
  {
  }

  /**
   * An unchanged dot still turns: at its midpoint it is edge-on (given cos(pi / 2) = 0)
   * while showing the same face as at rest.
   */
  lemma UnchangedDotStillFlutters(v: int, cosHalfTurn: real -> real)
    requires cosHalfTurn(0.5) == 0.0
    ensures Visual(Fraction(0.5), v, v, cosHalfTurn).scaleY == 0.0
    ensures Visual(Fraction(0.5), v, v, cosHalfTurn).isFlipping
    ensures Visual(Fraction(0.5), v, v, cosHalfTurn).showFront == Visual(Fraction(0.0), v, v, cosHalfTurn).showFront
  {
  }

  /** A dot whose modifier lacks `randomFactor` has NaN progress: it shows its target face, unflipped. */
  lemma SpeedModDotSnapsToTarget(g: Grid, r: nat, c: nat, data: seq<int>, prev: seq<int>, tables: Tables,
                                 t: Timing, dir: Direction, elapsed: real, cosHalfTurn: real -> real)
    requires r * g.cols + c < |tables.modifiers|
    requires tables.modifiers[r * g.cols + c].SpeedMod?
    ensures CellState(g, r, c, data, prev, tables, t, dir, elapsed, cosHalfTurn)
         == DotState(ValueAt(data, r * g.cols + c) == 1, 1.0, false)
  {
  }

  /** Horizontal sweeps share one bound, and so do vertical ones. */
  lemma OppositeDirectionsShareBound(rows: nat, cols: nat, columnDelay: real, flipDuration: real)
    ensures SweepTotal(LeftRight, rows, cols, columnDelay, flipDuration)
         == SweepTotal(RightLeft, rows, cols, columnDelay, flipDuration)
    ensures SweepTotal(TopBottom, rows, cols, columnDelay, flipDuration)
         == SweepTotal(BottomTop, rows, cols, columnDelay, flipDuration)
  {
  }

  /** The vertical bound is the horizontal bound of the transposed grid. */
  lemma VerticalBoundIsTransposed(rows: nat, cols: nat, columnDelay: real, flipDuration: real)
    ensures SweepTotal(TopBottom, rows, cols, columnDelay, flipDuration)
         == SweepTotal(LeftRight, cols, rows, columnDelay, flipDuration)
  {
  }

  /** A single dot's sweep lasts exactly one flip; on a non-empty grid the bound is never negative. */
  lemma SweepBoundShape(dir: Direction, rows: nat, cols: nat, columnDelay: real, flipDuration: real)
    ensures rows == 1 && cols == 1 ==> SweepTotal(dir, rows, cols, columnDelay, flipDuration) == flipDuration
    ensures rows >= 1 && cols >= 1 && columnDelay >= 0.0 && flipDuration >= 0.0 ==>
              SweepTotal(dir, rows, cols, columnDelay, flipDuration) >= flipDuration >= 0.0
  {
  }

  /**
   * The snapshot timer uses the horizontal bound for every direction, so on a
   * non-square grid it differs from the vertical sweeps' own bound.
   */
  lemma SnapshotDelayIgnoresDirection(dir: Direction, rows: nat, cols: nat, columnDelay: real, flipDuration: real)
    ensures SnapshotDelay(rows, cols, columnDelay, flipDuration) == SweepTotal(LeftRight, rows, cols, columnDelay, flipDuration)
    ensures IsVertical(dir) && rows >= 1 && cols >= 1 && rows != cols && columnDelay != 0.0 ==>
              SnapshotDelay(rows, cols, columnDelay, flipDuration) != SweepTotal(dir, rows, cols, columnDelay, flipDuration)
  {
    var h := (cols - 1) + (rows - 1) * 2;
    var v := (rows - 1) + (cols - 1) * 2;
    if IsVertical(dir) && rows >= 1 && cols >= 1 && rows != cols && columnDelay != 0.0 {
      assert h - v == rows - cols;
      assert h as real * columnDelay - v as real * columnDelay == (h - v) as real * columnDelay;
    }
  }

  /**
   * The worked example: a 2x2 grid, left-right, stagger 100 ms, flip 300 ms,
   * row delays [0, 2], no jitter and no variance, sampled 150 ms in.
   */
  lemma TwoByTwoExample(cosHalfTurn: real -> real)
    ensures var g, tables, t := Grid(2, 2), Tables([], [0.0, 2.0], []), Timing(100.0, 300.0, 0.0);
      && BaseDelay(LeftRight, 0, 0, 2, 2, tables.rowDelays, [], 100.0) == 0.0
      && BaseDelay(LeftRight, 0, 1, 2, 2, tables.rowDelays, [], 100.0) == 100.0
      && BaseDelay(LeftRight, 1, 0, 2, 2, tables.rowDelays, [], 100.0) == 200.0
      && BaseDelay(LeftRight, 1, 1, 2, 2, tables.rowDelays, [], 100.0) == 300.0
      && DotProgress(DefaultModifier, 0.0, 150.0, t) == Fraction(0.5)
      && DotProgress(DefaultModifier, 100.0, 150.0, t) == Fraction(1.0 / 6.0)
      && DotProgress(DefaultModifier, 200.0, 150.0, t) == Fraction(0.0)
      && DotProgress(DefaultModifier, 300.0, 150.0, t) == Fraction(0.0)
  {
  }
}
