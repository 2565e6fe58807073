// crates/liveaudio-audio/src/rnnoise.rs: 512-sample chunks at 16 kHz in and out of a
// denoiser that works on 480-sample frames at 48 kHz and answers one frame late.
// This file: what the output is, from the input alone.
module RnnoiseFrames {
  import opened Audio

  const FRAME_SIZE: nat := 480
  const SAMPLES_PER_FRAME: nat := 160
  const PCM_SCALE: real := 32768.0
  const U64: nat := 0x1_0000_0000_0000_0000
  const NS_PER_CHUNK: nat := 32_000_000

  type Frame = f: seq<real> | |f| == 480 witness seq(480, _ => 0.0)
  type OutFrame = f: seq<Sample> | |f| == 480 witness seq(480, _ => Finite(0.0))

  /**
   * Any deterministic denoiser state machine: its state is what it was fed, so its output is a
   * function of every frame so far, the current one last.
   */
  type Denoiser = seq<Frame> -> OutFrame

  function Silence(): Frame {
    seq(480, i requires 0 <= i < 480 => 0.0)
  }

  function ToPcmScale(x: real): real {
    Clamp(x * PCM_SCALE, -32768.0, 32767.0)
  }

  // ------------------------------------------------------------------ closed form

  function Interpolated(previous: real, sample: real, step: nat): real {
    ToPcmScale(previous + (sample - previous) * (step as real / 3.0))
  }

  /** Upsampled PCM sample j of the clipped input xs; zero past its end. */
  function Upsampled(xs: seq<real>, j: nat): real {
    if j < 3 * |xs| then
      var i := j / 3;
      var previous := if i == 0 then xs[0] else xs[i - 1];
      Interpolated(previous, xs[i], j % 3 + 1)
    else 0.0
  }

  function FrameAt(xs: seq<real>, k: nat): Frame {
    seq(480, j requires 0 <= j < 480 => Upsampled(xs, 480 * k + j))
  }

  /** What the denoiser has been fed after n real frames: the prewarm silence, then frames 0..n. */
  function Fed(xs: seq<real>, n: nat): (h: seq<Frame>)
    ensures |h| == n + 1
  {
    [Silence()] + seq(n, k requires 0 <= k < n => FrameAt(xs, k))
  }

  function Normalize(s: Sample): Sample {
    if s.Finite? then Finite(Clamp(s.value / PCM_SCALE, -1.0, 1.0)) else NonFinite
  }

  /** What the denoiser answers to real frame k. */
  function Answer(denoiser: Denoiser, xs: seq<real>, k: nat): OutFrame {
    denoiser(Fed(xs, k + 1))
  }

  /** Output sample i: element 3*(i mod 160)+2 of real denoiser call i/160 + 1, clamped and rescaled. */
  function OutputAt(denoiser: Denoiser, xs: seq<real>, i: nat): Sample {
    Normalize(Answer(denoiser, xs, i / 160 + 1)[3 * (i % 160) + 2])
  }

  /** Output samples released once m upsampled samples are in: one frame behind. */
  function Released(m: nat): nat {
    if m < 480 then 0 else 160 * (m / 480 - 1)
  }

  /** Chunk k can be stamped without overflowing an unsigned 64-bit sum. */
  predicate Stampable(ts: nat, sq: nat, k: nat) {
    512 * k * 1_000_000_000 < U64 && ts + NS_PER_CHUNK * k < U64 && sq + k < U64
  }

  /** The first n outputs are finite and the chunks they complete can be stamped. */
  ghost predicate Clean(denoiser: Denoiser, xs: seq<real>, ts: nat, sq: nat, n: nat) {
    && (forall i: nat | i < n :: OutputAt(denoiser, xs, i).Finite?)
    && (forall k: nat | k < n / 512 :: Stampable(ts, sq, k))
  }

  function OutputChunk(output: seq<Sample>, ts: nat, sq: nat, k: nat): AudioChunk {
    AudioChunk(if 512 * k + 512 <= |output| then output[512 * k..512 * k + 512] else [],
               16000, 1, ts + NS_PER_CHUNK * k, sq + k)
  }

  function OutputChunks(output: seq<Sample>, ts: nat, sq: nat, lo: nat, hi: nat): seq<AudioChunk>
    requires lo <= hi
  {
    seq(hi - lo, j requires j >= 0 => OutputChunk(output, ts, sq, lo + j))
  }

  // ------------------------------------------------------------------ laws of the closed form

  lemma UpsampledStable(xs: seq<real>, ys: seq<real>, j: nat)
    requires xs <= ys && j < 3 * |xs|
    ensures Upsampled(xs, j) == Upsampled(ys, j)
  {
    var i := j / 3;
    assert xs[i] == ys[i] && xs[0] == ys[0];
    if i > 0 {
      assert xs[i - 1] == ys[i - 1];
    }
  }

  /** Values the PCM scale represents without clipping. */
  predicate InPcmRange(x: real) {
    -1.0 <= x <= 32767.0 / 32768.0
  }

  /** The sample before sample i; the first one stands for its own predecessor. */
  function Before(xs: seq<real>, i: nat): real
    requires i < |xs|
  {
    if i == 0 then xs[0] else xs[i - 1]
  }

  /**
   * The three upsampled values of a sample divide the way from the sample before it into three equal
   * steps, on the PCM scale, and end on the sample itself.
   */
  lemma UpsampledInThirds(xs: seq<real>, i: nat)
    requires i < |xs| && InPcmRange(xs[i]) && InPcmRange(Before(xs, i))
    ensures var step := 32768.0 * (xs[i] - Before(xs, i)) / 3.0;
            && Upsampled(xs, 3 * i) == 32768.0 * Before(xs, i) + step
            && Upsampled(xs, 3 * i + 1) == Upsampled(xs, 3 * i) + step
            && Upsampled(xs, 3 * i + 2) == Upsampled(xs, 3 * i + 1) + step == 32768.0 * xs[i]
  {
    hide Upsampled, InPcmRange, ThirdOfWay, Before;
    Third(xs, i, 0);
    Third(xs, i, 1);
    Third(xs, i, 2);
    Weights(Before(xs, i), xs[i], 0);
    Weights(Before(xs, i), xs[i], 1);
    Weights(Before(xs, i), xs[i], 2);
  }

  /** The point t + 1 thirds of the way from p to x. */
  function ThirdOfWay(p: real, x: real, t: nat): real {
    p + (x - p) * (t + 1) as real / 3.0
  }

  lemma Third(xs: seq<real>, i: nat, t: nat)
    requires i < |xs| && t < 3
    ensures Upsampled(xs, 3 * i + t) == Clamp(32768.0 * ThirdOfWay(Before(xs, i), xs[i], t), -32768.0, 32767.0)
    ensures InPcmRange(xs[i]) && InPcmRange(Before(xs, i)) ==>
              Upsampled(xs, 3 * i + t) == 32768.0 * ThirdOfWay(Before(xs, i), xs[i], t)
  {
    hide Upsampled, InPcmRange, ToPcmScale, ThirdOfWay, Before;
    UpsampledAt(xs, i, t);
    Weights(Before(xs, i), xs[i], t);
    PcmScaled(ThirdOfWay(Before(xs, i), xs[i], t));
  }

  lemma ThirdIndex(i: nat, t: nat)
    requires t < 3
    ensures (3 * i + t) / 3 == i && (3 * i + t) % 3 == t
  {
  }

  lemma UpsampledAt(xs: seq<real>, i: nat, t: nat)
    requires i < |xs| && t < 3
    ensures Upsampled(xs, 3 * i + t) == ToPcmScale(ThirdOfWay(Before(xs, i), xs[i], t))
  {
    hide ToPcmScale, ThirdOfWay;
    ThirdIndex(i, t);
    InterpolatedIs(Before(xs, i), xs[i], t);
  }

  lemma InterpolatedIs(p: real, x: real, t: nat)
    ensures Interpolated(p, x, t + 1) == ToPcmScale(ThirdOfWay(p, x, t))
  {
    hide ToPcmScale;
    assert (x - p) * ((t + 1) as real / 3.0) == (x - p) * (t + 1) as real / 3.0;
  }

  lemma PcmScaled(w: real)
    ensures ToPcmScale(w) == Clamp(32768.0 * w, -32768.0, 32767.0)
    ensures InPcmRange(w) ==> ToPcmScale(w) == 32768.0 * w
  {
  }

  /** The t-th third of the way, as a weighted mean. */
  lemma Weights(p: real, x: real, t: nat)
    requires t < 3
    ensures ThirdOfWay(p, x, t) == if t == 0 then p + (x - p) / 3.0 else if t == 1 then p + 2.0 * (x - p) / 3.0 else x
    ensures InPcmRange(p) && InPcmRange(x) ==> InPcmRange(ThirdOfWay(p, x, t))
  {
    assert (t + 1) as real == if t == 0 then 1.0 else if t == 1 then 2.0 else 3.0;
  }

  lemma FramePlace(xs: seq<real>, j: nat)
    ensures FrameAt(xs, j / 480)[j % 480] == Upsampled(xs, j)
  {
    hide Upsampled;
    assert 480 * (j / 480) + j % 480 == j;
  }

  /** An affine input is upsampled to an affine one of a third of its slope, also across frames. */
  lemma AffineUpsampled(xs: seq<real>, a: real, d: real, j: nat)
    requires 3 <= j < 3 * |xs|
    requires forall i | 0 <= i < |xs| :: xs[i] == a + d * i as real && InPcmRange(xs[i])
    ensures FrameAt(xs, j / 480)[j % 480] == 32768.0 * (a + d * (j - 2) as real / 3.0)
  {
    hide Upsampled, FrameAt, InPcmRange, ThirdOfWay;
    var i, t := j / 3, j % 3;
    FramePlace(xs, j);
    Third(xs, i, t);
    assert j == 3 * i + t && i > 0;
    assert xs[i] == a + d * i as real && xs[i - 1] == a + d * (i - 1) as real;
    AffineThird(a, d, i, t);
  }

  lemma AffineThird(a: real, d: real, i: nat, t: nat)
    requires i > 0
    ensures ThirdOfWay(a + d * (i - 1) as real, a + d * i as real, t) == a + d * (3 * i + t - 2) as real / 3.0
  {
    var u, v := (i - 1) as real, (t + 1) as real;
    assert d * i as real == d * u + d;
    assert (3 * i + t - 2) as real == 3.0 * u + v;
    assert d * (3.0 * u + v) == 3.0 * (d * u) + d * v;
  }

  /** Past the input a frame holds zeros. */
  lemma ZerosPastEnd(xs: seq<real>, j: nat)
    requires j >= 3 * |xs|
    ensures FrameAt(xs, j / 480)[j % 480] == 0.0
  {
    FramePlace(xs, j);
  }

  /** What a denoiser answers is scaled back and clipped at full scale; what is not finite stays so. */
  lemma OutputScaled(denoiser: Denoiser, xs: seq<real>, i: nat)
    ensures var answer := denoiser(Fed(xs, i / 160 + 2))[3 * (i % 160) + 2];
            match answer
            case NonFinite => OutputAt(denoiser, xs, i) == NonFinite
            case Finite(y) =>
              && OutputAt(denoiser, xs, i).Finite?
              && OutputAt(denoiser, xs, i).value
                 == if y < -32768.0 then -1.0 else if y > 32768.0 then 1.0 else y / 32768.0
  {
  }

  /** Feeding more input does not change a frame that was already complete. */
  lemma FrameStable(xs: seq<real>, ys: seq<real>, k: nat)
    requires xs <= ys && 480 * (k + 1) <= 3 * |xs|
    ensures FrameAt(xs, k) == FrameAt(ys, k)
  {
    forall j | 0 <= j < 480
      ensures FrameAt(xs, k)[j] == FrameAt(ys, k)[j]
    {
      UpsampledStable(xs, ys, 480 * k + j);
    }
  }

  lemma FedStable(xs: seq<real>, ys: seq<real>, n: nat)
    requires xs <= ys && 480 * n <= 3 * |xs|
    ensures Fed(xs, n) == Fed(ys, n)
  {
    forall k | 0 <= k < n
      ensures FrameAt(xs, k) == FrameAt(ys, k)
    {
      FrameStable(xs, ys, k);
    }
  }

  /** Outputs released so far do not change when more input arrives. */
  lemma OutputStable(denoiser: Denoiser, xs: seq<real>, ys: seq<real>, i: nat)
    requires xs <= ys && i < Released(3 * |xs|)
    ensures OutputAt(denoiser, xs, i) == OutputAt(denoiser, ys, i)
  {
    FedStable(xs, ys, i / 160 + 2);
  }

  /** The exact latency: N chunks in, N - 1 out. */
  lemma ReleasedChunks(n: nat)
    ensures Released(3 * (512 * n)) / 512 == if n == 0 then 0 else n - 1
  {
  }

  /** Chunk numbers whose sample offset in nanoseconds fits: exactly k <= 36,028,797. */
  lemma StampLimit(ts: nat, sq: nat, k: nat)
    ensures Stampable(ts, sq, k) <==> k <= 36_028_797 && ts + NS_PER_CHUNK * k < U64 && sq + k < U64
  {
  }

  function DelayLine(): Denoiser {
    (h: seq<Frame>) => if |h| < 2 then seq(480, _ => Finite(0.0)) else Lift(h[|h| - 2])
  }

  function Lift(f: Frame): OutFrame {
    seq(480, i requires 0 <= i < 480 => Finite(f[i]))
  }

  /** Through a one-frame delay line the adapter is the identity, up to the positive PCM limit. */
  lemma DelayLineIsIdentity(xs: seq<real>, i: nat)
    requires i < |xs|
    requires -1.0 <= xs[i] <= 1.0
    ensures OutputAt(DelayLine(), xs, i) == Finite(Clamp(xs[i], -1.0, 32767.0 / 32768.0))
  {
    var h := Fed(xs, i / 160 + 2);
    assert h[|h| - 2] == FrameAt(xs, i / 160);
    var j := 480 * (i / 160) + (3 * (i % 160) + 2);
    assert FrameAt(xs, i / 160)[3 * (i % 160) + 2] == Upsampled(xs, j);
    assert j == 3 * i + 2;
    assert j / 3 == i && j % 3 == 2;
    assert Upsampled(xs, j) == ToPcmScale(xs[i]);
  }
}
