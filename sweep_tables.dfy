/**
 * The per-size random tables of the flip-dot canvas: the row and column stagger
 * tables and the per-dot modifiers. Each `Math.random()` draw is a parameter in [0, 1).
 */
module SweepTables {
  import opened FlipTiming

  /** Every draw is a possible result of `Math.random()`. */
  predicate UnitDraws(draws: seq<real>) {
    forall i :: 0 <= i < |draws| ==> 0.0 <= draws[i] < 1.0
  }

  /**
   * The stagger table for `n` rows (or columns): 0 first, then each entry the
   * previous one plus `1 + draw * 2`. For n = 0 the assignment `delays[0] = 0`
   * on an empty array leaves a one-entry table.
   */
  function DelayTable(n: nat, draws: seq<real>): (t: seq<real>)
    requires n <= |draws| + 1
    ensures |t| == if n == 0 then 1 else n
    ensures t[0] == 0.0
  {
    if n <= 1 then [0.0]
    else
      var prev := DelayTable(n - 1, draws);
      prev + [prev[n - 2] + (1.0 + draws[n - 2] * 2.0)]
  }

  /** The loop at CanvasDisplay.jsx:52-58 (and 64-69, 146-151): fills a zeroed array front to back. */
  method GenerateDelays(n: nat, draws: seq<real>) returns (delays: seq<real>)
    requires n <= |draws| + 1
    ensures delays == DelayTable(n, draws)
  {
    var a := new real[if n == 0 then 1 else n](_ => 0.0);
    a[0] := 0.0;
    var i := 1;
    while i < n
      invariant 1 <= i <= a.Length
      invariant n >= 1 ==> i <= n
      invariant a[..i] == DelayTable(i, draws)
    {
      ghost var before := a[..i];
      a[i] := a[i - 1] + (1.0 + draws[i - 1] * 2.0);
      assert a[..i + 1] == before + [a[i]];
      i := i + 1;
    }
    assert a[..] == a[..i];
    delays := a[..];
  }

  /** Shorter tables are prefixes of longer ones built from the same draws. */
  lemma {:induction false} DelayTablePrefix(m: nat, n: nat, draws: seq<real>)
    requires 1 <= m <= n <= |draws| + 1
    ensures DelayTable(n, draws)[..m] == DelayTable(m, draws)
    decreases n
  {
    if m < n {
      DelayTablePrefix(m, n - 1, draws);
      assert DelayTable(n, draws)[..n - 1] == DelayTable(n - 1, draws);
      assert DelayTable(n, draws)[..m] == DelayTable(n, draws)[..n - 1][..m];
    }
  }

  /** Entry i + 1 is entry i plus `1 + draws[i] * 2`. */
  lemma DelayStepAt(n: nat, draws: seq<real>, i: nat)
    requires n <= |draws| + 1 && i + 1 < n
    ensures DelayTable(n, draws)[i + 1] == DelayTable(n, draws)[i] + (1.0 + draws[i] * 2.0)
  {
    DelayTablePrefix(i + 2, n, draws);
    assert DelayTable(n, draws)[i + 1] == DelayTable(n, draws)[..i + 2][i + 1];
    assert DelayTable(n, draws)[i] == DelayTable(n, draws)[..i + 2][i];
  }

  /** Each step of a generated table lies in [1, 3). */
  lemma DelayStepRange(n: nat, draws: seq<real>, i: nat)
    requires n <= |draws| + 1 && UnitDraws(draws) && i + 1 < n
    ensures 1.0 <= DelayTable(n, draws)[i + 1] - DelayTable(n, draws)[i] < 3.0
  {
    DelayStepAt(n, draws, i);
  }

  /** Entry i of a generated table lies in [i, 3i], and below 3i once i >= 1. */
  lemma {:induction false} DelayBounds(n: nat, draws: seq<real>, i: nat)
    requires n <= |draws| + 1 && UnitDraws(draws) && i < n
    ensures i as real <= DelayTable(n, draws)[i] <= 3.0 * i as real
    ensures i >= 1 ==> DelayTable(n, draws)[i] < 3.0 * i as real
  {
    if i >= 1 {
      DelayBounds(n, draws, i - 1);
      DelayStepRange(n, draws, i - 1);
    }
  }

  /** Generated tables strictly increase. */
  lemma {:induction false} DelaysIncrease(n: nat, draws: seq<real>, i: nat, j: nat)
    requires n <= |draws| + 1 && UnitDraws(draws) && i < j < n
    ensures DelayTable(n, draws)[i] < DelayTable(n, draws)[j]
    decreases j - i
  {
    DelayStepRange(n, draws, j - 1);
    if i < j - 1 {
      DelaysIncrease(n, draws, i, j - 1);
    }
  }

  /**
   * The modifiers written by the size effect: per dot two draws, the first for
   * `startOffset = draw * 0.4 - 0.2`, the second kept raw as `randomFactor`.
   */
  function JitterModifiers(n: nat, draws: seq<real>): (mods: seq<DotModifier>)
    requires 2 * n <= |draws| && UnitDraws(draws)
    ensures |mods| == n
    ensures forall i :: 0 <= i < n ==>
      && mods[i].Jitter?
      && -0.2 <= mods[i].startOffset < 0.2
      && 0.0 <= mods[i].randomFactor < 1.0
  {
    seq(n, i requires 0 <= i < n => Jitter(draws[2 * i] * 0.4 - 0.2, draws[2 * i + 1]))
  }

  /**
   * The modifiers written by the data effect's fallback: `startOffset` as above
   * and `speedMod = 0.8 + draw * 0.4`, with no `randomFactor`.
   */
  function SpeedModModifiers(n: nat, draws: seq<real>): (mods: seq<DotModifier>)
    requires 2 * n <= |draws| && UnitDraws(draws)
    ensures |mods| == n
    ensures forall i :: 0 <= i < n ==>
      && mods[i].SpeedMod?
      && -0.2 <= mods[i].startOffset < 0.2
      && 0.8 <= mods[i].speedMod < 1.2
  {
    seq(n, i requires 0 <= i < n => SpeedMod(draws[2 * i] * 0.4 - 0.2, 0.8 + draws[2 * i + 1] * 0.4))
  }

  /**
   * The delay a generated row table really gives any cell of a left-right sweep
   * stays within ((cols - 1) + 3 * (rows - 1)) stagger units.
   */
  lemma LeftRightDelayBound(rows: nat, cols: nat, draws: seq<real>, colDelays: seq<real>,
                            columnDelay: real, r: nat, c: nat)
    requires rows <= |draws| + 1 && UnitDraws(draws)
    requires r < rows && c < cols && columnDelay >= 0.0
    ensures BaseDelay(LeftRight, r, c, rows, cols, DelayTable(rows, draws), colDelays, columnDelay)
         <= ((cols - 1) + 3 * (rows - 1)) as real * columnDelay
  {
    var t := DelayTable(rows, draws);
    DelayBounds(rows, draws, r);
    assert AxisDelay(t, r) <= 3.0 * r as real;
    var units := c as real + AxisDelay(t, r);
    assert units <= ((cols - 1) + 3 * (rows - 1)) as real;
    assert units * columnDelay <= ((cols - 1) + 3 * (rows - 1)) as real * columnDelay;
  }

  /**
   * The audio bound is an estimate, not an upper bound: with two rows and a
   * row step of 2.8, the second row's flip ends after the cue has already ended.
   */
  lemma SweepBoundCanBeExceeded()
    ensures var t := DelayTable(2, [0.9]);
      && t == [0.0, 2.8]
      && BaseDelay(LeftRight, 1, 0, 2, 1, t, [], 100.0) == 280.0
      && BaseDelay(LeftRight, 1, 0, 2, 1, t, [], 100.0) + 300.0 > SweepTotal(LeftRight, 2, 1, 100.0, 300.0)
  {
  }
}
