/**
 * The sound manager's bookkeeping: the cached click buffer, the list of live
 * click sources, the voices of the looping animation sound and its stop timer.
 * Audio nodes are not modelled: each started or stopped source is an entry of
 * an audio log, sources are numbered in creation order, and the audio clock's
 * `currentTime` and every `Math.random()` draw are parameters.
 */
module Sound {
  import opened Wrappers

  /** The number of looping voices of the animation sound. */
  const VoiceCount: nat := 20

  /** A possible result of `Math.random()`. */
  predicate UnitDraw(d: real) {
    0.0 <= d < 1.0
  }

  predicate UnitDraws(draws: seq<real>) {
    forall i :: 0 <= i < |draws| ==> UnitDraw(draws[i])
  }

  predicate Distinct(s: seq<nat>) {
    forall i, j :: 0 <= i < j < |s| ==> s[i] != s[j]
  }

  /** One looping voice of the animation sound. */
  datatype Voice = Voice(source: nat, playbackRate: real, pan: real, startDelay: real)

  datatype AudioEvent =
    | ClickStart(source: nat, at: real, playbackRate: real, volume: real)
    | VoiceStart(source: nat, at: real, playbackRate: real, pan: real)
    | FadeOut(source: nat, until: real)
    | StopNow(source: nat)

  /** `Array.prototype.indexOf`: the first position of x, or -1. */
  function IndexOf(s: seq<nat>, x: nat): (i: int)
    ensures -1 <= i < |s|
    ensures i == -1 <==> x !in s
    ensures i >= 0 ==> s[i] == x && x !in s[..i]
  {
    if |s| == 0 then -1
    else if s[0] == x then 0
    else
      var j := IndexOf(s[1..], x);
      if j == -1 then -1
      else
        assert s[..j + 1] == [s[0]] + s[1..][..j];
        j + 1
  }

  /** The `onended` handler's list update: splice out the first occurrence, if any. */
  function RemoveSource(s: seq<nat>, x: nat): (r: seq<nat>)
    ensures x !in s ==> r == s
    ensures x in s ==> |r| == |s| - 1
    ensures multiset(r) == multiset(s) - multiset{x}
  {
    var i := IndexOf(s, x);
    if i > -1 then
      assert s == s[..i] + [s[i]] + s[i + 1..];
      s[..i] + s[i + 1..]
    else s
  }

  /** Removing a source leaves every other source where it was, relative to the rest. */
  lemma RemoveSourceKeepsOrder(s: seq<nat>, x: nat, k: nat)
    requires x in s && k < |s| - 1
    ensures RemoveSource(s, x)[k] == if k < IndexOf(s, x) then s[k] else s[k + 1]
  {
  }

  /** In a list without duplicates the ended source is gone afterwards and the list stays duplicate-free. */
  lemma RemoveSourceDistinct(s: seq<nat>, x: nat)
    requires Distinct(s)
    ensures x !in RemoveSource(s, x) && Distinct(RemoveSource(s, x))
  {
    var r := RemoveSource(s, x);
    if x in s {
      var i := IndexOf(s, x);
      forall a, b | 0 <= a < b < |r| ensures r[a] != r[b] {
        var a', b' := if a < i then a else a + 1, if b < i then b else b + 1;
        assert r[a] == s[a'] && r[b] == s[b'];
      }
    }
  }

  /** The voices built from 3 draws each: playback rate, pan, start delay. */
  function Voices(first: nat, draws: seq<real>, n: nat): (vs: seq<Voice>)
    requires 3 * n <= |draws|
    ensures |vs| == n
  {
    seq(n, i requires 0 <= i < n =>
      Voice(first + i, 0.9 + draws[3 * i] * 0.4, (draws[3 * i + 1] * 2.0 - 1.0) * 0.5, draws[3 * i + 2] * 0.02))
  }

  /** Every voice's playback rate lies in [0.9, 1.3), its pan in [-0.5, 0.5), its start delay in [0, 0.02). */
  lemma VoiceRanges(first: nat, draws: seq<real>, n: nat, i: nat)
    requires 3 * n <= |draws| && UnitDraws(draws) && i < n
    ensures var v := Voices(first, draws, n)[i];
      && v.source == first + i
      && 0.9 <= v.playbackRate < 1.3
      && -0.5 <= v.pan < 0.5
      && 0.0 <= v.startDelay < 0.02
  {
    assert UnitDraw(draws[3 * i]) && UnitDraw(draws[3 * i + 1]) && UnitDraw(draws[3 * i + 2]);
  }

  function FadeOuts(voices: seq<Voice>, audioNow: real): (es: seq<AudioEvent>)
    ensures |es| == |voices|
  {
    seq(|voices|, i requires 0 <= i < |voices| => FadeOut(voices[i].source, audioNow + 0.05))
  }

  function VoiceStarts(voices: seq<Voice>, audioNow: real): (es: seq<AudioEvent>)
    ensures |es| == |voices|
  {
    seq(|voices|, i requires 0 <= i < |voices| =>
      VoiceStart(voices[i].source, audioNow + voices[i].startDelay, voices[i].playbackRate, voices[i].pan))
  }

  function StopNows(sources: seq<nat>): (es: seq<AudioEvent>)
    ensures |es| == |sources|
  {
    seq(|sources|, i requires 0 <= i < |sources| => StopNow(sources[i]))
  }

  class SoundManager {
    /** `buffers.click`. */
    var clickBuffer: Option<nat>
    /** How many click buffers were synthesised. */
    var buffersCreated: nat
    var activeSources: seq<nat>
    var animationSources: seq<Voice>
    /** The pending auto-stop timer of the animation sound, with its delay. */
    var animationTimeout: Option<real>
    var nextSource: nat
    var log: seq<AudioEvent>

    /** The click buffer is synthesised at most once; live sources are distinct, already created ones. */
    ghost predicate Valid()
      reads this
    {
      && buffersCreated == (if clickBuffer.None? then 0 else 1)
      && Distinct(activeSources)
      && (forall i :: 0 <= i < |activeSources| ==> activeSources[i] < nextSource)
      && (forall i :: 0 <= i < |animationSources| ==> animationSources[i].source < nextSource)
    }

    constructor()
      ensures Valid()
      ensures clickBuffer == None && activeSources == [] && animationSources == [] && animationTimeout == None
      ensures log == []
    {
      clickBuffer, buffersCreated := None, 0;
      activeSources, animationSources := [], [];
      animationTimeout := None;
      nextSource := 0;
      log := [];
    }

    /** The cached click buffer, synthesised on the first call only. */
    method CreateClickBuffer() returns (buffer: nat)
      requires Valid()
      modifies this`clickBuffer, this`buffersCreated
      ensures Valid() && clickBuffer == Some(buffer) && buffersCreated == 1
      ensures old(clickBuffer).Some? ==> buffer == old(clickBuffer).value
    {
      if clickBuffer.Some? {
        return clickBuffer.value;
      }
      buffer := buffersCreated;
      buffersCreated := buffersCreated + 1;
      clickBuffer := Some(buffer);
    }

    /**
     * One click at `audioNow + time`: a new source with playback rate
     * `1 + draw * 0.3` is started and appended to the live list.
     */
    method PlayClick(time: real, volume: real, audioNow: real, rateDraw: real) returns (source: nat)
      requires Valid() && UnitDraw(rateDraw)
      modifies this
      ensures Valid() && clickBuffer.Some? && (old(clickBuffer).Some? ==> clickBuffer == old(clickBuffer))
      ensures source == old(nextSource) && nextSource == old(nextSource) + 1
      ensures activeSources == old(activeSources) + [source]
      ensures animationSources == old(animationSources) && animationTimeout == old(animationTimeout)
      ensures log == old(log) + [ClickStart(source, audioNow + time, 1.0 + rateDraw * 0.3, volume)]
      ensures 1.0 <= 1.0 + rateDraw * 0.3 < 1.3
    {
      var buffer := CreateClickBuffer();
      source := nextSource;
      nextSource := nextSource + 1;
      var playbackRate := 1.0 + rateDraw * 0.3;
      activeSources := activeSources + [source];
      log := log + [ClickStart(source, audioNow + time, playbackRate, volume)];
    }

    /** The `onended` handler of a click source. */
    method SourceEnded(source: nat)
      requires Valid()
      modifies this`activeSources
      ensures Valid()
      ensures activeSources == RemoveSource(old(activeSources), source)
      ensures source !in activeSources
    {
      var index := IndexOf(activeSources, source);
      RemoveSourceDistinct(activeSources, source);
      if index > -1 {
        activeSources := activeSources[..index] + activeSources[index + 1..];
      }
    }

    /** A column's click: `delayMs` late plus up to 10 ms of jitter, at volume 0.08. */
    method PlayColumnFlip(delayMs: real, audioNow: real, jitterDraw: real, rateDraw: real)
      requires Valid() && UnitDraw(jitterDraw) && UnitDraw(rateDraw)
      modifies this
      ensures Valid() && clickBuffer.Some? && (old(clickBuffer).Some? ==> clickBuffer == old(clickBuffer))
      ensures nextSource == old(nextSource) + 1
      ensures activeSources == old(activeSources) + [old(nextSource)]
      ensures animationSources == old(animationSources) && animationTimeout == old(animationTimeout)
      ensures |log| == |old(log)| + 1 && log[..|old(log)|] == old(log)
      ensures var e := log[|old(log)|];
        && e == ClickStart(old(nextSource), audioNow + (delayMs / 1000.0 + jitterDraw * 0.01), 1.0 + rateDraw * 0.3, 0.08)
        && audioNow + delayMs / 1000.0 <= e.at < audioNow + delayMs / 1000.0 + 0.01
    {
      var jitter := jitterDraw * 0.01;
      var _ := PlayClick(delayMs / 1000.0 + jitter, 0.08, audioNow, rateDraw);
    }

    /** Fade out and drop every animation voice, and cancel the auto-stop timer. */
    method StopAnimationSound(audioNow: real)
      requires Valid()
      modifies this`animationSources, this`animationTimeout, this`log
      ensures Valid()
      ensures animationSources == [] && animationTimeout == None
      ensures log == old(log) + FadeOuts(old(animationSources), audioNow)
    {
      if |animationSources| > 0 {
        var i := 0;
        while i < |animationSources|
          invariant 0 <= i <= |animationSources|
          invariant log == old(log) + FadeOuts(animationSources[..i], audioNow)
          invariant animationSources == old(animationSources) && animationTimeout == old(animationTimeout)
        {
          log := log + [FadeOut(animationSources[i].source, audioNow + 0.05)];
          i := i + 1;
          assert FadeOuts(animationSources[..i], audioNow)
              == FadeOuts(animationSources[..i - 1], audioNow) + [FadeOut(animationSources[i - 1].source, audioNow + 0.05)];
        }
        assert animationSources[..i] == animationSources;
        animationSources := [];
      }
      if animationTimeout.Some? {
        animationTimeout := None;
      }
    }

    /**
     * The looping animation sound: any previous one is stopped first, then
     * exactly 20 voices are started from 3 draws each, and the auto-stop timer
     * is set to `durationMs`.
     */
    method PlayAnimationSound(durationMs: real, audioNow: real, draws: seq<real>)
      requires Valid() && |draws| == 3 * VoiceCount && UnitDraws(draws)
      modifies this
      ensures Valid() && clickBuffer.Some? && (old(clickBuffer).Some? ==> clickBuffer == old(clickBuffer))
      ensures animationSources == Voices(old(nextSource), draws, VoiceCount)
      ensures nextSource == old(nextSource) + VoiceCount
      ensures animationTimeout == Some(durationMs)
      ensures activeSources == old(activeSources)
      ensures log == old(log) + FadeOuts(old(animationSources), audioNow) + VoiceStarts(animationSources, audioNow)
    {
      StopAnimationSound(audioNow);
      ghost var stopped := log;
      var first := nextSource;
      animationSources := [];
      var i := 0;
      while i < VoiceCount
        invariant 0 <= i <= VoiceCount
        invariant Valid() && (i > 0 ==> clickBuffer.Some?)
        invariant old(clickBuffer).Some? ==> clickBuffer == old(clickBuffer)
        invariant nextSource == first + i && activeSources == old(activeSources)
        invariant animationSources == Voices(first, draws, i)
        invariant log == stopped + VoiceStarts(animationSources, audioNow)
        invariant animationTimeout == None
      {
        var buffer := CreateClickBuffer();
        var source := nextSource;
        nextSource := nextSource + 1;
        var playbackRate := 0.9 + draws[3 * i] * 0.4;
        var pan := (draws[3 * i + 1] * 2.0 - 1.0) * 0.5;
        var startDelay := draws[3 * i + 2] * 0.02;
        log := log + [VoiceStart(source, audioNow + startDelay, playbackRate, pan)];
        animationSources := animationSources + [Voice(source, playbackRate, pan, startDelay)];
        i := i + 1;
        assert animationSources == Voices(first, draws, i);
        assert VoiceStarts(animationSources, audioNow) == VoiceStarts(animationSources[..i - 1], audioNow)
          + [VoiceStart(source, audioNow + startDelay, playbackRate, pan)];
      }
      animationTimeout := Some(durationMs);
    }

    /** Stop every live click source and the animation sound. */
    method StopAll(audioNow: real)
      requires Valid()
      modifies this`activeSources, this`animationSources, this`animationTimeout, this`log
      ensures Valid()
      ensures activeSources == [] && animationSources == [] && animationTimeout == None
      ensures log == old(log) + StopNows(old(activeSources)) + FadeOuts(old(animationSources), audioNow)
    {
      var i := 0;
      while i < |activeSources|
        invariant 0 <= i <= |activeSources|
        invariant log == old(log) + StopNows(activeSources[..i])
        invariant activeSources == old(activeSources) && animationSources == old(animationSources)
        invariant animationTimeout == old(animationTimeout)
      {
        log := log + [StopNow(activeSources[i])];
        i := i + 1;
        assert StopNows(activeSources[..i]) == StopNows(activeSources[..i - 1]) + [StopNow(activeSources[i - 1])];
      }
      assert activeSources[..i] == activeSources;
      activeSources := [];
      StopAnimationSound(audioNow);
    }
  }
}
