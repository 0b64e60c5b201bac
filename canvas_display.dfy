/**
 * The flip-dot canvas component as state: the refs it keeps between renders,
 * its three effects (grid size, play/pause, new bitmap), the snapshot timer,
 * and the per-frame sampling of every dot. Calls into the sound manager and the
 * animation-frame scheduler are recorded in an event log; `Date.now()` and
 * `Math.random()` are parameters.
 */
module CanvasDisplay {
  import opened Wrappers
  import opened FlipTiming
  import opened SweepTables
  import opened GridIndex

  /** Calls the component makes on the sound manager and on the frame scheduler, in order. */
  datatype Event =
    | StopAllSounds
    | PlayAnimationSound(durationMs: real, soundType: string)
    | RequestFrame
    | CancelFrame

  /** The props of one render. `direction` and `soundType` are the raw strings. */
  datatype Props = Props(rows: nat, cols: nat, data: seq<int>, timing: Timing, isPlaying: bool,
                         direction: string, soundType: string)

  /** The pending `setTimeout` that copies the bitmap into `prevData` once the sweep should be over. */
  datatype Snapshot = Snapshot(bitmap: seq<int>, delayMs: real)

  // ---------------------------------------------------------------------------
  // The pause-aware clock: startTimeRef, pausedTimeRef and pauseStartRef

  datatype Clock = Clock(startTime: real, pausedTime: real, pauseStart: real)

  /** `now - startTimeRef.current - pausedTimeRef.current`. */
  function Elapsed(c: Clock, now: real): real {
    now - c.startTime - c.pausedTime
  }

  function PauseAt(c: Clock, now: real): Clock {
    c.(pauseStart := now)
  }

  function ResumeAt(c: Clock, now: real): Clock {
    c.(pausedTime := c.pausedTime + (now - c.pauseStart))
  }

  /** New data: the sweep starts over at `now` with no pause recorded. */
  function Restart(now: real): Clock {
    Clock(now, 0.0, 0.0)
  }

  /** A pause at p followed by a resume at q adds q - p to the paused total: the clock reads at q what it read at p. */
  lemma PauseResumeFreezesClock(c: Clock, p: real, q: real)
    ensures ResumeAt(PauseAt(c, p), q).pausedTime == c.pausedTime + (q - p)
    ensures Elapsed(ResumeAt(PauseAt(c, p), q), q) == Elapsed(c, p)
  {
  }

  /** Pausing and resuming at the same instant changes no reading of the clock. */
  lemma InstantToggleKeepsClock(c: Clock, t: real, later: real)
    ensures Elapsed(ResumeAt(PauseAt(c, t), t), later) == Elapsed(c, later)
  {
  }

  /** While playing, the clock advances exactly with wall time; after new data it reads 0. */
  lemma ClockAdvancesWithTime(c: Clock, t1: real, t2: real, now: real)
    ensures Elapsed(c, t2) - Elapsed(c, t1) == t2 - t1
    ensures Elapsed(Restart(now), now) == 0.0
  {
  }

  // ---------------------------------------------------------------------------
  // The sound-cue gate

  function Zeros(n: nat): (z: seq<int>)
    ensures |z| == n && forall i :: 0 <= i < n ==> z[i] == 0
  {
    seq(n, _ => 0)
  }

  /**
   * Whether the new bitmap differs from the last sounded one. If the last one
   * does not have rows * cols entries, any non-zero value counts; otherwise any
   * index of `data` whose value differs (a missing old entry reads as 0).
   */
  predicate CueNeeded(data: seq<int>, soundPrev: seq<int>, cells: nat) {
    if |soundPrev| != cells then exists i :: 0 <= i < |data| && data[i] != 0
    else exists i :: 0 <= i < |data| && data[i] != ValueAt(soundPrev, i)
  }

  /** The `hasChanges` computation, with its early-exit comparison loop. */
  method DetectChanges(data: seq<int>, soundPrev: seq<int>, cells: nat) returns (changed: bool)
    ensures changed == CueNeeded(data, soundPrev, cells)
  {
    if |soundPrev| != cells {
      changed := exists i :: 0 <= i < |data| && data[i] != 0;
    } else {
      changed := false;
      var i := 0;
      while i < |data|
        invariant 0 <= i <= |data|
        invariant forall j :: 0 <= j < i ==> data[j] == ValueAt(soundPrev, j)
      {
        if data[i] != ValueAt(soundPrev, i) {
          changed := true;
          break;
        }
        i := i + 1;
      }
    }
  }

  /** Repeating the last sounded bitmap produces no cue. */
  lemma RepeatIsSilent(data: seq<int>, cells: nat)
    requires |data| == cells
    ensures !CueNeeded(data, data, cells)
  {
  }

  /** With a last bitmap of the right size, a cue is played iff some cell's value changes. */
  lemma CueIffSomeCellChanges(data: seq<int>, soundPrev: seq<int>)
    requires |data| == |soundPrev|
    ensures CueNeeded(data, soundPrev, |soundPrev|) <==> data != soundPrev
  {
    if data != soundPrev {
      var i :| 0 <= i < |data| && data[i] != soundPrev[i];
      assert data[i] != ValueAt(soundPrev, i);
    }
  }

  /** The cue a gate check emits: one animation sound lasting the sweep bound. */
  function CueEvents(p: Props, soundPrev: seq<int>): (es: seq<Event>)
    ensures |es| <= 1
    ensures forall e :: e in es ==> e.PlayAnimationSound? && e.soundType == p.soundType
  {
    if CueNeeded(p.data, soundPrev, p.rows * p.cols)
    then [PlayAnimationSound(SweepTotal(ParseDirection(p.direction), p.rows, p.cols,
                                        p.timing.columnDelay, p.timing.flipDuration), p.soundType)]
    else []
  }

  // ---------------------------------------------------------------------------
  // A frame

  /** `f` holds, cell by cell in row-major order, the visual state of every dot. */
  predicate IsFrameOf(f: seq<DotState>, g: Grid, data: seq<int>, prev: seq<int>, tables: Tables,
                      t: Timing, dir: Direction, elapsed: real, cosHalfTurn: real -> real)
  {
    && |f| == g.rows * g.cols
    && forall k :: 0 <= k < |f| ==>
         f[k] == CellState(g, k / g.cols, k % g.cols, data, prev, tables, t, dir, elapsed, cosHalfTurn)
  }

  /** Cell (r, c) of a frame is at flat index r * cols + c. */
  lemma FrameCell(f: seq<DotState>, g: Grid, data: seq<int>, prev: seq<int>, tables: Tables,
                  t: Timing, dir: Direction, elapsed: real, cosHalfTurn: real -> real, r: nat, c: nat)
    requires IsFrameOf(f, g, data, prev, tables, t, dir, elapsed, cosHalfTurn)
    requires r < g.rows && c < g.cols
    ensures r * g.cols + c < |f|
    ensures f[r * g.cols + c] == CellState(g, r, c, data, prev, tables, t, dir, elapsed, cosHalfTurn)
  {
    FlatIndex(r, c, g.rows, g.cols);
  }

  class Display {
    var clock: Clock
    var wasPlaying: bool
    var prevData: seq<int>
    var soundPrevData: seq<int>
    var modifiers: seq<DotModifier>
    var rowDelays: seq<real>
    var colDelays: seq<real>
    var snapshotTimer: Option<Snapshot>
    /** `requestRef.current` holds a frame request id (it is never reset). */
    var frameRequested: bool
    var events: seq<Event>

    /** The refs as `useRef` creates them on the first render. */
    constructor(isPlaying: bool)
      ensures clock == Clock(0.0, 0.0, 0.0) && wasPlaying == isPlaying
      ensures prevData == [] && soundPrevData == [] && modifiers == [] && rowDelays == [] && colDelays == []
      ensures snapshotTimer == None && !frameRequested && events == []
    {
      clock := Clock(0.0, 0.0, 0.0);
      wasPlaying := isPlaying;
      prevData, soundPrevData := [], [];
      modifiers, rowDelays, colDelays := [], [], [];
      snapshotTimer := None;
      frameRequested := false;
      events := [];
    }

    function Tables(): FlipTiming.Tables
      reads this
    {
      FlipTiming.Tables(modifiers, rowDelays, colDelays)
    }

    /**
     * The effect on `[rows, cols]`: each table is rebuilt exactly when its
     * length no longer matches the grid.
     */
    method SizeEffect(rows: nat, cols: nat, modifierDraws: seq<real>, rowDraws: seq<real>, colDraws: seq<real>)
      requires 2 * (rows * cols) <= |modifierDraws| && UnitDraws(modifierDraws)
      requires rows <= |rowDraws| + 1 && UnitDraws(rowDraws)
      requires cols <= |colDraws| + 1 && UnitDraws(colDraws)
      modifies this`prevData, this`modifiers, this`rowDelays, this`colDelays
      ensures prevData == if |old(prevData)| != rows * cols then Zeros(rows * cols) else old(prevData)
      ensures modifiers == if |old(modifiers)| != rows * cols then JitterModifiers(rows * cols, modifierDraws)
                           else old(modifiers)
      ensures rowDelays == if |old(rowDelays)| != rows then DelayTable(rows, rowDraws) else old(rowDelays)
      ensures colDelays == if |old(colDelays)| != cols then DelayTable(cols, colDraws) else old(colDelays)
    {
      if |prevData| != rows * cols {
        prevData := Zeros(rows * cols);
      }
      if |modifiers| != rows * cols {
        modifiers := JitterModifiers(rows * cols, modifierDraws);
      }
      if |rowDelays| != rows {
        rowDelays := GenerateDelays(rows, rowDraws);
      }
      if |colDelays| != cols {
        colDelays := GenerateDelays(cols, colDraws);
      }
    }

    /**
     * The effect on play/pause: nothing unless `isPlaying` differs from the last
     * seen value. Pausing stops all sound, records the pause start and cancels
     * the pending frame; resuming adds the pause length to the paused total,
     * requests a frame and, when there is data, runs the cue gate.
     */
    method PlayPauseEffect(p: Props, now: real)
      modifies this`wasPlaying, this`clock, this`frameRequested, this`events, this`soundPrevData
      ensures wasPlaying == p.isPlaying
      ensures old(wasPlaying) == p.isPlaying ==>
        && clock == old(clock) && frameRequested == old(frameRequested)
        && events == old(events) && soundPrevData == old(soundPrevData)
      ensures old(wasPlaying) && !p.isPlaying ==>
        && clock == PauseAt(old(clock), now)
        && frameRequested == old(frameRequested)
        && events == old(events) + [StopAllSounds] + (if old(frameRequested) then [CancelFrame] else [])
        && soundPrevData == old(soundPrevData)
      ensures !old(wasPlaying) && p.isPlaying ==>
        && clock == ResumeAt(old(clock), now)
        && Elapsed(clock, now) == Elapsed(old(clock), old(clock).pauseStart)
        && frameRequested
        && events == old(events) + [RequestFrame] + (if |p.data| > 0 then CueEvents(p, old(soundPrevData)) else [])
        && soundPrevData == if |p.data| > 0 then p.data else old(soundPrevData)
    {
      if wasPlaying == p.isPlaying {
        return;
      }
      if !p.isPlaying {
        events := events + [StopAllSounds];
        clock := PauseAt(clock, now);
        if frameRequested {
          events := events + [CancelFrame];
        }
      } else {
        clock := ResumeAt(clock, now);
        events := events + [RequestFrame];
        frameRequested := true;
        if |p.data| > 0 {
          var changed := DetectChanges(p.data, soundPrevData, p.rows * p.cols);
          if changed {
            var dir := ParseDirection(p.direction);
            var total := SweepTotal(dir, p.rows, p.cols, p.timing.columnDelay, p.timing.flipDuration);
            events := events + [PlayAnimationSound(total, p.soundType)];
          }
          soundPrevData := p.data;
        }
      }
      wasPlaying := p.isPlaying;
    }

    /**
     * The effect on new data (deps `[data, cols, rows, columnDelay, isPlaying]`).
     * The previous run's cleanup cancels its snapshot timer first. Empty data
     * changes nothing else. Otherwise the clock restarts, missing tables are
     * filled in (modifiers in the `speedMod` shape), and while playing all sound
     * stops and the cue gate runs; finally a snapshot timer is set.
     */
    method DataEffect(p: Props, now: real, modifierDraws: seq<real>, rowDraws: seq<real>)
      requires 2 * (p.rows * p.cols) <= |modifierDraws| && UnitDraws(modifierDraws)
      requires p.rows <= |rowDraws| + 1 && UnitDraws(rowDraws)
      modifies this`clock, this`modifiers, this`rowDelays, this`events, this`soundPrevData, this`snapshotTimer
      ensures |p.data| == 0 ==>
        && clock == old(clock) && modifiers == old(modifiers) && rowDelays == old(rowDelays)
        && events == old(events) && soundPrevData == old(soundPrevData) && snapshotTimer == None
      ensures |p.data| > 0 ==>
        && clock == Restart(now)
        && modifiers == (if |old(modifiers)| != p.rows * p.cols then SpeedModModifiers(p.rows * p.cols, modifierDraws)
                         else old(modifiers))
        && rowDelays == (if |old(rowDelays)| != p.rows then DelayTable(p.rows, rowDraws) else old(rowDelays))
        && events == old(events) + (if p.isPlaying then [StopAllSounds] + CueEvents(p, old(soundPrevData)) else [])
        && soundPrevData == (if p.isPlaying then p.data else old(soundPrevData))
        && snapshotTimer == Some(Snapshot(p.data, SnapshotDelay(p.rows, p.cols, p.timing.columnDelay, p.timing.flipDuration)))
    {
      snapshotTimer := None;
      if |p.data| == 0 {
        return;
      }
      clock := Restart(now);
      if |modifiers| != p.rows * p.cols {
        modifiers := SpeedModModifiers(p.rows * p.cols, modifierDraws);
      }
      if |rowDelays| != p.rows {
        rowDelays := GenerateDelays(p.rows, rowDraws);
      }
      if p.isPlaying {
        events := events + [StopAllSounds];
        var changed := DetectChanges(p.data, soundPrevData, p.rows * p.cols);
        if changed {
          var dir := ParseDirection(p.direction);
          var total := SweepTotal(dir, p.rows, p.cols, p.timing.columnDelay, p.timing.flipDuration);
          events := events + [PlayAnimationSound(total, p.soundType)];
        }
        soundPrevData := p.data;
      }
      snapshotTimer := Some(Snapshot(p.data, SnapshotDelay(p.rows, p.cols, p.timing.columnDelay, p.timing.flipDuration)));
    }

    /** The snapshot timer fires: the bitmap it captured becomes the previous bitmap. */
    method SnapshotTimerFires()
      modifies this`prevData, this`snapshotTimer
      ensures snapshotTimer == None
      ensures prevData == if old(snapshotTimer).Some? then old(snapshotTimer).value.bitmap else old(prevData)
    {
      if snapshotTimer.Some? {
        prevData := snapshotTimer.value.bitmap;
        snapshotTimer := None;
      }
    }

    /**
     * A render whose grid size changed while `isPlaying` did not: React runs the
     * size effect, the (idle) play/pause effect and the data effect in that order,
     * so the data effect finds every table already sized and its `speedMod`
     * fallback never writes.
     */
    method SizeChange(p: Props, now: real, jitterDraws: seq<real>, rowDraws: seq<real>, colDraws: seq<real>,
                      fallbackDraws: seq<real>, fallbackRowDraws: seq<real>)
      requires wasPlaying == p.isPlaying
      requires 2 * (p.rows * p.cols) <= |jitterDraws| && UnitDraws(jitterDraws)
      requires p.rows <= |rowDraws| + 1 && UnitDraws(rowDraws)
      requires p.cols <= |colDraws| + 1 && UnitDraws(colDraws)
      requires 2 * (p.rows * p.cols) <= |fallbackDraws| && UnitDraws(fallbackDraws)
      requires p.rows <= |fallbackRowDraws| + 1 && UnitDraws(fallbackRowDraws)
      modifies this
      ensures modifiers == if |old(modifiers)| != p.rows * p.cols then JitterModifiers(p.rows * p.cols, jitterDraws)
                           else old(modifiers)
      ensures rowDelays == if |old(rowDelays)| != p.rows then DelayTable(p.rows, rowDraws) else old(rowDelays)
      ensures colDelays == if |old(colDelays)| != p.cols then DelayTable(p.cols, colDraws) else old(colDelays)
    {
      SizeEffect(p.rows, p.cols, jitterDraws, rowDraws, colDraws);
      ghost var sized := rowDelays;
      PlayPauseEffect(p, now);
      DataEffect(p, now, fallbackDraws, fallbackRowDraws);
      if |sized| != p.rows {
        assert p.rows == 0 && sized == [0.0];
        assert DelayTable(0, fallbackRowDraws) == [0.0];
      }
    }

    /**
     * A change of `isPlaying` as React runs it: the play/pause effect, then the
     * data effect, which depends on `isPlaying` too. With data present the clock
     * ends restarted, whatever the pause bookkeeping did, and on resume the data
     * effect's stop-all comes after the resume path's cue.
     */
    method TogglePlaying(p: Props, now: real, modifierDraws: seq<real>, rowDraws: seq<real>)
      requires wasPlaying != p.isPlaying && |p.data| > 0
      requires 2 * (p.rows * p.cols) <= |modifierDraws| && UnitDraws(modifierDraws)
      requires p.rows <= |rowDraws| + 1 && UnitDraws(rowDraws)
      modifies this
      ensures clock == Restart(now) && Elapsed(clock, now) == 0.0
      ensures p.isPlaying ==>
        events == old(events) + [RequestFrame] + CueEvents(p, old(soundPrevData)) + [StopAllSounds] + CueEvents(p, p.data)
      ensures p.isPlaying && |p.data| == p.rows * p.cols ==>
        events == old(events) + [RequestFrame] + CueEvents(p, old(soundPrevData)) + [StopAllSounds]
    {
      PlayPauseEffect(p, now);
      DataEffect(p, now, modifierDraws, rowDraws);
      if p.isPlaying && |p.data| == p.rows * p.cols {
        RepeatIsSilent(p.data, p.rows * p.cols);
      }
    }

    /**
     * The per-frame sampling of `animate`: every dot's visual state, row by row,
     * from the current clock, bitmaps and tables.
     */
    method SampleFrame(p: Props, now: real, cosHalfTurn: real -> real) returns (frame: seq<DotState>)
      ensures IsFrameOf(frame, Grid(p.rows, p.cols), p.data, prevData, Tables(), p.timing,
                        ParseDirection(p.direction), Elapsed(clock, now), cosHalfTurn)
    {
      var g := Grid(p.rows, p.cols);
      var dir := ParseDirection(p.direction);
      var elapsed := Elapsed(clock, now);
      var tables := Tables();
      frame := [];
      var r := 0;
      while r < p.rows
        invariant 0 <= r <= p.rows
        invariant |frame| == r * p.cols
        invariant forall k :: 0 <= k < |frame| ==>
          frame[k] == CellState(g, k / p.cols, k % p.cols, p.data, prevData, tables, p.timing, dir, elapsed, cosHalfTurn)
      {
        var c := 0;
        while c < p.cols
          invariant 0 <= c <= p.cols
          invariant |frame| == r * p.cols + c
          invariant forall k :: 0 <= k < |frame| ==>
            frame[k] == CellState(g, k / p.cols, k % p.cols, p.data, prevData, tables, p.timing, dir, elapsed, cosHalfTurn)
        {
          FlatIndex(r, c, p.rows, p.cols);
          frame := frame + [CellState(g, r, c, p.data, prevData, tables, p.timing, dir, elapsed, cosHalfTurn)];
          c := c + 1;
        }
        assert r * p.cols + p.cols == (r + 1) * p.cols;
        r := r + 1;
      }
    }

    /** `animate`: nothing while paused; otherwise one frame, then the next frame is requested. */
    method Animate(p: Props, now: real, cosHalfTurn: real -> real) returns (frame: Option<seq<DotState>>)
      modifies this`frameRequested, this`events
      ensures !p.isPlaying ==> frame == None && events == old(events) && frameRequested == old(frameRequested)
      ensures p.isPlaying ==>
        && frame.Some?
        && IsFrameOf(frame.value, Grid(p.rows, p.cols), p.data, prevData, Tables(), p.timing,
                     ParseDirection(p.direction), Elapsed(clock, now), cosHalfTurn)
        && events == old(events) + [RequestFrame] && frameRequested
    {
      if !p.isPlaying {
        return None;
      }
      var f := SampleFrame(p, now, cosHalfTurn);
      frame := Some(f);
      events := events + [RequestFrame];
      frameRequested := true;
    }
  }

  /**
   * The toggle as the source runs it discards the pause accounting: paused at
   * 500 ms into a sweep and resumed 1500 ms later, the clock reads 0 instead of 500.
   */
  lemma ToggleRestartsSweep()
    ensures var paused := PauseAt(Clock(0.0, 0.0, 0.0), 500.0);
      && Elapsed(ResumeAt(paused, 2000.0), 2000.0) == 500.0
      && Elapsed(Restart(2000.0), 2000.0) == 0.0
  {
  }
}
