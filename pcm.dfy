/** Signed 16-bit PCM samples and the microphone/system-audio mixer shared by
    both `AudioRecorder`s. A chunk is the sequence of samples that one stream
    read returns; its byte form (native byte order, two bytes per sample) is
    not modelled. */
module Pcm {
  import opened Wrappers

  const MinSample: int := -32768
  const MaxSample: int := 32767

  type Sample = x: int | -32768 <= x <= 32767
  type Chunk = seq<Sample>

  /** `int(s * 1.2)`: the system-audio gain, truncated toward zero. For a 16-bit
      `s` the floating-point product differs from `6s/5` by less than the
      distance from `6s/5` to the next integer, so it truncates to the same
      value; the model keeps the exact integer form. */
  function Gain(s: int): (g: int)
    ensures 0 <= s ==> 0 <= g && 5 * g <= 6 * s < 5 * g + 5
    ensures s < 0 ==> g <= 0 && 5 * g - 5 < 6 * s <= 5 * g
  {
    if s >= 0 then 6 * s / 5 else -((-6 * s) / 5)
  }

  /** Gain is odd: truncation toward zero treats both signs alike. */
  lemma GainOdd(s: int)
    ensures Gain(-s) == -Gain(s)
  {
  }

  /** `max(min(x, 32767), -32768)`. */
  function Clamp(x: int): (r: Sample)
    ensures MinSample <= x <= MaxSample ==> r == x
    ensures x > MaxSample ==> r == MaxSample
    ensures x < MinSample ==> r == MinSample
  {
    if x > MaxSample then MaxSample else if x < MinSample then MinSample else x
  }

  /** The samples of `_mix_audio`, paired as `zip` pairs them. */
  function MixSamples(mic: Chunk, sys: Chunk): (r: Chunk)
    ensures |r| == if |mic| <= |sys| then |mic| else |sys|
  {
    var n := if |mic| <= |sys| then |mic| else |sys|;
    seq(n, i requires 0 <= i < n => Clamp(mic[i] + Gain(sys[i])))
  }

  /** `_mix_audio(mic_data, system_data)`: an absent or empty system chunk
      leaves the microphone chunk as it is. */
  function MixAudio(mic: Chunk, sys: Option<Chunk>): (r: Chunk)
    ensures sys.None? || sys.value == [] ==> r == mic
    ensures sys.Some? && sys.value != [] ==> r == MixSamples(mic, sys.value)
  {
    if sys.None? || sys.value == [] then mic else MixSamples(mic, sys.value)
  }

  /** Each mixed sample is the saturated sum of the microphone sample and the
      amplified system sample; when that sum is in range it is exact. */
  lemma MixedAt(mic: Chunk, sys: Chunk, i: nat)
    requires i < |mic| && i < |sys|
    ensures MixSamples(mic, sys)[i] == Clamp(mic[i] + Gain(sys[i]))
    ensures MinSample <= mic[i] + Gain(sys[i]) <= MaxSample ==>
      MixSamples(mic, sys)[i] == mic[i] + Gain(sys[i])
  {
  }

  /** The longer chunk's tail is dropped: mixing depends on the other chunk
      only up to the shorter length. */
  lemma MixDropsTail(mic: Chunk, sys: Chunk, extra: Chunk)
    requires |sys| <= |mic|
    ensures MixSamples(mic, sys + extra)[..|sys|] == MixSamples(mic, sys)
    ensures MixSamples(mic + extra, sys) == MixSamples(mic, sys)
  {
    var a := MixSamples(mic, sys + extra);
    var b := MixSamples(mic, sys);
    assert |a| >= |b|;
    forall i | 0 <= i < |b| ensures a[i] == b[i] {
      assert (sys + extra)[i] == sys[i];
    }
    var c := MixSamples(mic + extra, sys);
    assert |c| == |b|;
    forall i | 0 <= i < |b| ensures c[i] == b[i] {
      assert (mic + extra)[i] == mic[i];
    }
  }

  /** A silent system chunk at least as long as the microphone chunk leaves
      the microphone samples unchanged. */
  lemma MixWithSilence(mic: Chunk, sys: Chunk)
    requires |mic| <= |sys|
    requires forall i :: 0 <= i < |sys| ==> sys[i] == 0
    ensures MixSamples(mic, sys) == mic
  {
  }

  /** The worked example: gain before clamp, truncation toward zero. */
  lemma MixExample()
    ensures MixSamples([100, -100, 32760, -32760], [50, 50, 50, 50]) == [160, -40, 32767, -32700]
    ensures Gain(-3) == -3 && Gain(3) == 3
  {
    var r := MixSamples([100, -100, 32760, -32760], [50, 50, 50, 50]);
    assert r[0] == 160 && r[1] == -40 && r[2] == 32767 && r[3] == -32700;
  }

  /** `b"".join(frames)`: the chunks laid end to end. */
  function Flatten(frames: seq<Chunk>): (r: seq<Sample>)
    ensures |frames| == 0 ==> r == []
    ensures |frames| == 1 ==> r == frames[0]
    decreases |frames|
  {
    if frames == [] then [] else Flatten(frames[..|frames| - 1]) + frames[|frames| - 1]
  }

  lemma {:induction false} FlattenConcat(a: seq<Chunk>, b: seq<Chunk>)
    ensures Flatten(a + b) == Flatten(a) + Flatten(b)
    decreases |b|
  {
    if b == [] {
      assert a + b == a;
    } else {
      var b' := b[..|b| - 1];
      assert (a + b)[..|a + b| - 1] == a + b';
      FlattenConcat(a, b');
    }
  }

  /** The joined length is the sum of the chunk lengths. */
  function TotalLength(frames: seq<Chunk>): nat
    decreases |frames|
  {
    if frames == [] then 0 else TotalLength(frames[..|frames| - 1]) + |frames[|frames| - 1]|
  }

  lemma {:induction false} FlattenLength(frames: seq<Chunk>)
    ensures |Flatten(frames)| == TotalLength(frames)
    decreases |frames|
  {
    if frames != [] {
      FlattenLength(frames[..|frames| - 1]);
    }
  }
}
