// crates/liveaudio-audio/src/resampler.rs: linear resampler and chunk framer.
// The phase is exact: a numerator over the target rate, advanced by the input rate.
module Resampler {
  import opened Arith
  import opened Audio

  // ------------------------------------------------------------------ closed form

  function Lerp(a: Sample, b: Sample, num: nat, den: nat): Sample
    requires den > 0
  {
    if a.Finite? && b.Finite?
    then Finite(a.value + (b.value - a.value) * (num as real / den as real))
    else NonFinite
  }

  /** The sample left of position `idx`: inside the batch, or carried over, or the batch's own first. */
  function Left(last: Option<Sample>, input: seq<Sample>, idx: nat): Sample
    requires idx < |input|
  {
    if idx == 0 then (if last.Some? then last.value else input[0]) else input[idx - 1]
  }

  /** The interpolated value at position q / target of a batch. */
  function Interp(last: Option<Sample>, input: seq<Sample>, q: nat, target: nat): Sample
    requires target > 0
  {
    var idx := q / target;
    if idx < |input| then Lerp(Left(last, input, idx), input[idx], q % target, target) else NonFinite
  }

  datatype Cursor = Cursor(phase: nat, last: Option<Sample>)

  ghost predicate CursorOk(c: Cursor, target: nat) {
    c.phase < target
  }

  function BatchCount(inRate: nat, target: nat, phase: nat, n: nat): nat
    requires inRate > 0 && phase < target && n > 0
    ensures n * target >= phase
  {
    assert n * target >= target by { MulMono(1, n, target); }
    CeilDiv(n * target - phase, inRate)
  }

  /** How far past the batch's end the next read position lies, before whole samples are dropped. */
  function Overshoot(inRate: nat, target: nat, phase: nat, n: nat): (s: nat)
    requires inRate > 0 && phase < target && n > 0
    ensures s < inRate
  {
    CeilDivBounds(n * target - phase, inRate);
    phase + BatchCount(inRate, target, phase, n) * inRate - n * target
  }

  function BatchOutput(inRate: nat, target: nat, c: Cursor, input: seq<Sample>): seq<Sample>
    requires inRate > 0 && CursorOk(c, target)
  {
    if input == [] then []
    else seq(BatchCount(inRate, target, c.phase, |input|),
             k requires k >= 0 => Interp(c.last, input, c.phase + k * inRate, target))
  }

  function BatchCursor(inRate: nat, target: nat, c: Cursor, input: seq<Sample>): (r: Cursor)
    requires inRate > 0 && CursorOk(c, target)
    ensures CursorOk(r, target)
  {
    if input == [] then c
    else Cursor(Overshoot(inRate, target, c.phase, |input|) % target, Some(input[|input| - 1]))
  }

  // ------------------------------------------------------------------ the closed form's meaning

  /** Each interpolated sample lies between its two neighbours. */
  lemma InterpBetween(last: Option<Sample>, input: seq<Sample>, q: nat, target: nat)
    requires target > 0 && q < |input| * target && AllFinite(input)
    requires last.Some? ==> last.value.Finite?
    ensures q / target < |input|
    ensures var a, b, r := Left(last, input, q / target), input[q / target], Interp(last, input, q, target);
            a.Finite? && b.Finite? && r.Finite?
            && (a.value <= r.value <= b.value || b.value <= r.value <= a.value)
  {
    hide Lerp;
    DivLess(q, |input|, target);
    LerpBetween(Left(last, input, q / target), input[q / target], q % target, target);
  }

  lemma LerpBetween(a: Sample, b: Sample, num: nat, den: nat)
    requires a.Finite? && b.Finite? && num < den
    ensures var r := Lerp(a, b, num, den);
      r.Finite? && (a.value <= r.value <= b.value || b.value <= r.value <= a.value)
  {
    var f := num as real / den as real;
    Ratio(num as real, den as real, f);
    Weighted(a.value, b.value, f);
  }

  lemma Ratio(num: real, den: real, f: real)
    requires 0.0 <= num < den && f == num / den
    ensures 0.0 <= f <= 1.0
  {
    assert f * den == num;
  }

  lemma Weighted(a: real, b: real, f: real)
    requires 0.0 <= f <= 1.0
    ensures a <= b ==> a <= a + (b - a) * f <= b
    ensures b <= a ==> b <= a + (b - a) * f <= a
  {
    if a <= b {
      Rising(a, b, f);
    }
    if b <= a {
      Fraction(a - b, f, (a - b) * f);
      Opposite(a, b, f);
    }
  }

  lemma Rising(a: real, b: real, f: real)
    requires 0.0 <= f <= 1.0 && a <= b
    ensures a <= a + (b - a) * f <= b
  {
    var d := b - a;
    var p := d * f;
    Fraction(d, f, p);
    assert (b - a) * f == p;
    assert a + p <= b;
  }

  lemma Opposite(a: real, b: real, f: real)
    ensures (b - a) * f == -((a - b) * f)
  {
  }

  lemma Fraction(d: real, f: real, p: real)
    requires d >= 0.0 && 0.0 <= f <= 1.0 && p == d * f
    ensures 0.0 <= p <= d
  {
    assert d * (1.0 - f) >= 0.0;
  }

  /** n samples of the line through a with slope d. */
  function Line(a: real, d: real, n: nat): (s: seq<Sample>)
    ensures |s| == n
  {
    seq(n, i => Finite(a + d * i as real))
  }

  /** The line's value x samples after the sample before the batch. */
  function LineAt(a: real, d: real, x: real): real {
    a + d * (x - 1.0)
  }

  /** The two neighbours of position idx on a line. */
  lemma LineNeighbours(a: real, d: real, n: nat, idx: nat)
    requires idx < n
    ensures Left(Some(Finite(a - d)), Line(a, d, n), idx) == Finite(LineAt(a, d, idx as real))
    ensures Line(a, d, n)[idx] == Finite(LineAt(a, d, idx as real) + d)
  {
    assert d * (idx as real - 1.0) + d == d * idx as real;
    if idx > 0 {
      assert (idx - 1) as real == idx as real - 1.0;
    }
  }

  lemma LerpOnLine(a: real, d: real, x: real, num: nat, den: nat)
    requires den > 0
    ensures Lerp(Finite(LineAt(a, d, x)), Finite(LineAt(a, d, x) + d), num, den)
            == Finite(LineAt(a, d, x + num as real / den as real))
  {
    var f := num as real / den as real;
    assert d * (x + f - 1.0) == d * (x - 1.0) + d * f;
  }

  lemma InterpIs(last: Option<Sample>, input: seq<Sample>, q: nat, target: nat)
    requires target > 0 && q < |input| * target
    ensures q / target < |input|
    ensures Interp(last, input, q, target) == Lerp(Left(last, input, q / target), input[q / target], q % target, target)
  {
    hide Lerp, Left;
    DivLess(q, |input|, target);
  }

  /** The position q / target as a real number. */
  lemma Position(q: nat, target: nat)
    requires target > 0
    ensures (q / target) as real + (q % target) as real / target as real == q as real / target as real
  {
    var w, r, t := (q / target) as real, (q % target) as real, target as real;
    assert q == (q / target) * target + q % target;
    assert q as real == w * t + r;
    Quotient(q as real, w, r, t);
  }

  lemma Quotient(q: real, w: real, r: real, t: real)
    requires t > 0.0 && q == w * t + r
    ensures q / t == w + r / t
  {
    assert (w + r / t) * t == q;
  }

  /** A line of any slope, rising or falling, is read off exactly, at whatever position q / target. */
  lemma LineReproduced(a: real, d: real, n: nat, q: nat, target: nat)
    requires target > 0 && q < n * target
    ensures Interp(Some(Finite(a - d)), Line(a, d, n), q, target) == Finite(a + d * (q as real / target as real - 1.0))
  {
    hide Lerp, Left, Line, Interp;
    InterpIs(Some(Finite(a - d)), Line(a, d, n), q, target);
    LineNeighbours(a, d, n, q / target);
    LerpOnLine(a, d, (q / target) as real, q % target, target);
    Position(q, target);
  }

  /**
   * Resampling a line gives that line: output k of a batch entered at `phase` is the line's value at
   * position (phase + k * inRate) / target, counted from the sample before the batch.
   */
  lemma LineResampled(a: real, d: real, n: nat, inRate: nat, target: nat, phase: nat, k: nat)
    requires inRate > 0 && phase < target && n > 0 && k < BatchCount(inRate, target, phase, n)
    ensures BatchOutput(inRate, target, Cursor(phase, Some(Finite(a - d))), Line(a, d, n))[k]
            == Finite(a + d * ((phase + k * inRate) as real / target as real - 1.0))
  {
    hide Interp, Line, BatchCount;
    BatchPositions(inRate, target, phase, n, k);
    LineReproduced(a, d, n, phase + k * inRate, target);
  }

  /** Without a sample carried over, the batch's first sample stands until it is passed. */
  lemma FirstHeld(input: seq<Sample>, q: nat, target: nat)
    requires input != [] && q < target
    ensures Interp(None, input, q, target) == input[0]
  {
  }

  /** A fresh resampler's first output is the first sample. */
  lemma FirstOutput(inRate: nat, target: nat, input: seq<Sample>)
    requires inRate > 0 && target > 0 && input != []
    ensures var out := BatchOutput(inRate, target, Cursor(0, None), input); out != [] && out[0] == input[0]
  {
    MulMono(1, |input|, target);
    BatchPositions(inRate, target, 0, |input|, 0);
    FirstHeld(input, 0, target);
  }

  /** A value that is not finite spoils exactly the outputs read next to it. */
  lemma InterpFinite(last: Option<Sample>, input: seq<Sample>, q: nat, target: nat)
    requires target > 0 && q < |input| * target
    ensures q / target < |input|
    ensures Interp(last, input, q, target).Finite?
            <==> Left(last, input, q / target).Finite? && input[q / target].Finite?
  {
    InterpIs(last, input, q, target);
  }

  /** Every read position of a batch is inside the batch, and the next one is not. */
  lemma BatchPositions(inRate: nat, target: nat, phase: nat, n: nat, k: nat)
    requires inRate > 0 && phase < target && n > 0
    ensures k < BatchCount(inRate, target, phase, n) <==> phase + k * inRate < n * target
  {
    var c := BatchCount(inRate, target, phase, n);
    CeilDivBounds(n * target - phase, inRate);
    if k < c {
      MulStrict(k, c, inRate);
    } else {
      MulMono(c, k, inRate);
    }
  }

  // ------------------------------------------------------------------ splitting a batch

  ghost predicate SplitAgrees(inRate: nat, target: nat, c: Cursor, a: seq<Sample>, b: seq<Sample>)
    requires inRate > 0 && CursorOk(c, target)
  {
    var c1 := BatchCursor(inRate, target, c, a);
    && BatchOutput(inRate, target, c, a + b)
       == BatchOutput(inRate, target, c, a) + BatchOutput(inRate, target, c1, b)
    && BatchCursor(inRate, target, c, a + b) == BatchCursor(inRate, target, c1, b)
  }

  /** Without loss, the counts of the two parts add up and the second part starts where the first stopped. */
  lemma SplitCounts(inRate: nat, target: nat, phase: nat, n1: nat, n2: nat)
    requires inRate > 0 && phase < target && n1 > 0 && n2 > 0
    requires Overshoot(inRate, target, phase, n1) < target
    ensures var p2 := Overshoot(inRate, target, phase, n1);
            && BatchCount(inRate, target, phase, n1 + n2)
               == BatchCount(inRate, target, phase, n1) + BatchCount(inRate, target, p2, n2)
            && Overshoot(inRate, target, phase, n1 + n2) == Overshoot(inRate, target, p2, n2)
  {
    var p2 := Overshoot(inRate, target, phase, n1);
    var k1, k2 := BatchCount(inRate, target, phase, n1), BatchCount(inRate, target, p2, n2);
    CeilDivBounds(n1 * target - phase, inRate);
    CeilDivBounds(n2 * target - p2, inRate);
    MulAdd(k1, k2, inRate);
    MulAdd(n1, n2, target);
    CeilDivUnique((n1 + n2) * target - phase, inRate, k1 + k2);
  }

  /** The j-th position of the second part, seen from the whole batch. */
  lemma SecondPosition(inRate: nat, target: nat, phase: nat, n1: nat, j: nat)
    requires inRate > 0 && phase < target && n1 > 0
    ensures phase + (BatchCount(inRate, target, phase, n1) + j) * inRate
            == n1 * target + (Overshoot(inRate, target, phase, n1) + j * inRate)
  {
    MulAdd(BatchCount(inRate, target, phase, n1), j, inRate);
  }

  /** If the first batch's cursor stays within one sample of its end, the split changes nothing. */
  lemma SplitWithoutLoss(inRate: nat, target: nat, c: Cursor, a: seq<Sample>, b: seq<Sample>)
    requires inRate > 0 && CursorOk(c, target)
    requires a != [] ==> Overshoot(inRate, target, c.phase, |a|) < target
    ensures SplitAgrees(inRate, target, c, a, b)
  {
    if a == [] {
      assert a + b == b;
    } else if b == [] {
      assert a + b == a;
    } else {
      var c1 := BatchCursor(inRate, target, c, a);
      SplitCounts(inRate, target, c.phase, |a|, |b|);
      assert c1.phase == Overshoot(inRate, target, c.phase, |a|) by {
        DivUnique(Overshoot(inRate, target, c.phase, |a|), 0, Overshoot(inRate, target, c.phase, |a|), target);
      }
      var whole := BatchOutput(inRate, target, c, a + b);
      var parts := BatchOutput(inRate, target, c, a) + BatchOutput(inRate, target, c1, b);
      forall k | 0 <= k < |whole|
        ensures whole[k] == parts[k]
      {
        SplitElement(inRate, target, c, a, b, k);
      }
      assert whole == parts;
    }
  }

  lemma SplitElement(inRate: nat, target: nat, c: Cursor, a: seq<Sample>, b: seq<Sample>, k: nat)
    requires inRate > 0 && CursorOk(c, target) && a != []
    ensures var k1 := BatchCount(inRate, target, c.phase, |a|);
            Interp(c.last, a + b, c.phase + k * inRate, target)
            == if k < k1 then Interp(c.last, a, c.phase + k * inRate, target)
               else Interp(Some(a[|a| - 1]), b,
                           Overshoot(inRate, target, c.phase, |a|) + (k - k1) * inRate, target)
  {
    var k1 := BatchCount(inRate, target, c.phase, |a|);
    if k < k1 {
      BatchPositions(inRate, target, c.phase, |a|, k);
      DivLess(c.phase + k * inRate, |a|, target);
    } else {
      SecondPosition(inRate, target, c.phase, |a|, k - k1);
      SecondPart(c.last, a, b, Overshoot(inRate, target, c.phase, |a|) + (k - k1) * inRate, target);
    }
  }

  /** Reading position n1 + q of a ++ b is reading position q of b with a's last sample carried over. */
  lemma SecondPart(last: Option<Sample>, a: seq<Sample>, b: seq<Sample>, q: nat, target: nat)
    requires target > 0 && a != []
    ensures Interp(last, a + b, |a| * target + q, target) == Interp(Some(a[|a| - 1]), b, q, target)
  {
    DivSplit(|a|, q, target);
  }

  function Ramp(from: int, n: nat): (s: seq<Sample>)
    ensures |s| == n && AllFinite(s)
  {
    seq(n, i requires i >= 0 => Finite((from + i) as real))
  }

  /** On a ramp, whole-sample positions apart means different values: no split can hide lost samples. */
  lemma RampExposesLoss(inRate: nat, target: nat, phase: nat, n1: nat, n2: nat)
    requires inRate > 0 && phase < target && n1 > 0 && n2 > 0
    requires Overshoot(inRate, target, phase, n1) >= target
    ensures !SplitAgrees(inRate, target, Cursor(phase, None), Ramp(0, n1), Ramp(n1, n2))
  {
    var c := Cursor(phase, None);
    var a, b := Ramp(0, n1), Ramp(n1, n2);
    assert a + b == Ramp(0, n1 + n2);
    var c1 := BatchCursor(inRate, target, c, a);
    var s := Overshoot(inRate, target, phase, n1);
    var k1 := BatchCount(inRate, target, phase, n1);
    var whole := BatchOutput(inRate, target, c, a + b);
    var second := BatchOutput(inRate, target, c1, b);
    BatchPositions(inRate, target, c1.phase, n2, 0);
    MulMono(1, n2, target);
    assert |second| > 0;
    var parts := BatchOutput(inRate, target, c, a) + second;
    if |whole| == |parts| {
      SplitElement(inRate, target, c, a, b, k1);
      assert whole[k1] == Interp(Some(a[n1 - 1]), b, s, target);
      assert parts[k1] == second[0] == Interp(Some(a[n1 - 1]), b, s % target, target);
      LossInside(inRate, target, phase, n1, n2);
      LossShows(n1, n2, s, target);
    }
  }

  lemma LossInside(inRate: nat, target: nat, phase: nat, n1: nat, n2: nat)
    requires inRate > 0 && phase < target && n1 > 0 && n2 > 0
    requires BatchCount(inRate, target, phase, n1 + n2) > BatchCount(inRate, target, phase, n1)
    ensures Overshoot(inRate, target, phase, n1) < n2 * target
  {
    BatchPositions(inRate, target, phase, n1 + n2, BatchCount(inRate, target, phase, n1));
    MulAdd(n1, n2, target);
  }

  lemma LossShows(n1: nat, n2: nat, s: nat, target: nat)
    requires target > 0 && target <= s < n2 * target
    ensures Interp(Some(Finite((n1 - 1) as real)), Ramp(n1, n2), s, target)
            != Interp(Some(Finite((n1 - 1) as real)), Ramp(n1, n2), s % target, target)
  {
    RampValue(n1, n2, s, target);
    RampValue(n1, n2, s % target, target);
    DivUnique(s % target, 0, s % target, target);
    assert s / target >= 1;
  }

  lemma RampValue(n1: nat, n2: nat, q: nat, target: nat)
    requires target > 0 && q < n2 * target
    ensures Interp(Some(Finite((n1 - 1) as real)), Ramp(n1, n2), q, target)
            == Finite((n1 - 1 + q / target) as real + (q % target) as real / target as real)
  {
    DivLess(q, n2, target);
    var idx := q / target;
    var l, r := Left(Some(Finite((n1 - 1) as real)), Ramp(n1, n2), idx), Ramp(n1, n2)[idx];
    assert l == Finite((n1 - 1 + idx) as real);
    assert r == Finite((n1 + idx) as real);
    assert r.value - l.value == 1.0;
  }

  /**
   * When may a batch be cut in two? For all sample values alike exactly when the cursor that leaves
   * the first part has not jumped a whole sample past its end.
   */
  lemma SplitInvariantIff(inRate: nat, target: nat, phase: nat, n1: nat, n2: nat)
    requires inRate > 0 && phase < target && n1 > 0 && n2 > 0
    ensures (forall last: Option<Sample>, a: seq<Sample>, b: seq<Sample> | |a| == n1 && |b| == n2 ::
               SplitAgrees(inRate, target, Cursor(phase, last), a, b))
            <==> Overshoot(inRate, target, phase, n1) < target
  {
    if Overshoot(inRate, target, phase, n1) < target {
      forall last: Option<Sample>, a: seq<Sample>, b: seq<Sample> | |a| == n1 && |b| == n2
        ensures SplitAgrees(inRate, target, Cursor(phase, last), a, b)
      {
        SplitWithoutLoss(inRate, target, Cursor(phase, last), a, b);
      }
    } else {
      RampExposesLoss(inRate, target, phase, n1, n2);
      assert !SplitAgrees(inRate, target, Cursor(phase, None), Ramp(0, n1), Ramp(n1, n2));
    }
  }

  // ------------------------------------------------------------------ whole streams

  function Concat(batches: seq<seq<Sample>>): seq<Sample> {
    if batches == [] then [] else batches[0] + Concat(batches[1..])
  }

  function StreamOutput(inRate: nat, target: nat, c: Cursor, batches: seq<seq<Sample>>): seq<Sample>
    requires inRate > 0 && CursorOk(c, target)
    decreases |batches|
  {
    if batches == [] then []
    else BatchOutput(inRate, target, c, batches[0])
         + StreamOutput(inRate, target, BatchCursor(inRate, target, c, batches[0]), batches[1..])
  }

  function StreamCursor(inRate: nat, target: nat, c: Cursor, batches: seq<seq<Sample>>): (r: Cursor)
    requires inRate > 0 && CursorOk(c, target)
    ensures CursorOk(r, target)
    decreases |batches|
  {
    if batches == [] then c
    else StreamCursor(inRate, target, BatchCursor(inRate, target, c, batches[0]), batches[1..])
  }

  /** Not downsampling: however the stream is cut, outputs and state are those of one big batch. */
  lemma {:induction false} BatchingInvariant(inRate: nat, target: nat, c: Cursor, batches: seq<seq<Sample>>)
    requires 0 < inRate <= target && CursorOk(c, target)
    ensures StreamOutput(inRate, target, c, batches) == BatchOutput(inRate, target, c, Concat(batches))
    ensures StreamCursor(inRate, target, c, batches) == BatchCursor(inRate, target, c, Concat(batches))
    decreases |batches|
  {
    if batches != [] {
      BatchingInvariant(inRate, target, BatchCursor(inRate, target, c, batches[0]), batches[1..]);
      SplitWithoutLoss(inRate, target, c, batches[0], Concat(batches[1..]));
    }
  }

  function NonEmpty(batches: seq<seq<Sample>>): nat {
    if batches == [] then 0 else (if batches[0] == [] then 0 else 1) + NonEmpty(batches[1..])
  }

  /**
   * Conservation for every batching at every pair of rates: what is emitted, counted in input time,
   * is the input plus the phase gained plus the whole samples skipped at batch ends.
   */
  lemma {:induction false} StreamDrift(inRate: nat, target: nat, c: Cursor, batches: seq<seq<Sample>>)
    requires inRate > 0 && CursorOk(c, target)
    ensures var emitted := |StreamOutput(inRate, target, c, batches)| * inRate;
            var available := |Concat(batches)| * target;
            && available + StreamCursor(inRate, target, c, batches).phase <= emitted + c.phase
            && emitted <= available + NonEmpty(batches) * inRate
            && (NonEmpty(batches) > 0 ==> emitted < available + NonEmpty(batches) * inRate)
            && (inRate <= target ==>
                  available + StreamCursor(inRate, target, c, batches).phase == emitted + c.phase)
    decreases |batches|
  {
    if batches != [] {
      var b, rest := batches[0], batches[1..];
      var c1 := BatchCursor(inRate, target, c, b);
      StreamDrift(inRate, target, c1, rest);
      BatchDrift(inRate, target, c, b);
      MulAdd(|BatchOutput(inRate, target, c, b)|, |StreamOutput(inRate, target, c1, rest)|, inRate);
      MulAdd(|b|, |Concat(rest)|, target);
      MulAdd(1, NonEmpty(rest), inRate);
    }
  }

  lemma BatchDrift(inRate: nat, target: nat, c: Cursor, b: seq<Sample>)
    requires inRate > 0 && CursorOk(c, target)
    ensures var emitted := |BatchOutput(inRate, target, c, b)| * inRate;
            && |b| * target + BatchCursor(inRate, target, c, b).phase <= emitted + c.phase
            && (b == [] ==> emitted == 0)
            && (b != [] ==> emitted < |b| * target + inRate)
            && (inRate <= target ==>
                  |b| * target + BatchCursor(inRate, target, c, b).phase == emitted + c.phase)
  {
    if b != [] {
      CeilDivBounds(|b| * target - c.phase, inRate);
      var s := Overshoot(inRate, target, c.phase, |b|);
      RemainderAtMost(s, target);
    }
  }

  lemma RemainderAtMost(s: nat, target: nat)
    requires target > 0
    ensures s % target <= s && (s < target ==> s % target == s)
  {
    if s < target {
      DivUnique(s, 0, s, target);
    }
  }

  /** From a fresh resampler, N samples in B non-empty batches give N*T/I <= C < N*T/I + B samples. */
  lemma DriftBound(inRate: nat, target: nat, batches: seq<seq<Sample>>)
    requires inRate > 0 && target > 0 && NonEmpty(batches) > 0
    ensures var count := |StreamOutput(inRate, target, Cursor(0, None), batches)|;
            |Concat(batches)| * target <= count * inRate
            && count * inRate < |Concat(batches)| * target + NonEmpty(batches) * inRate
  {
    StreamDrift(inRate, target, Cursor(0, None), batches);
  }

  /** Cutting a 3:1 stream mid-group emits an extra sample: batching is not invisible when downsampling. */
  lemma DownsamplingSplitGrows()
    ensures |BatchOutput(3, 1, Cursor(0, None), Ramp(0, 6))| == 2
    ensures |StreamOutput(3, 1, Cursor(0, None), [Ramp(0, 1), Ramp(1, 5)])| == 3
  {
    var c1 := BatchCursor(3, 1, Cursor(0, None), Ramp(0, 1));
    var bs := [Ramp(0, 1), Ramp(1, 5)];
    assert bs[1..] == [Ramp(1, 5)];
    assert bs[1..][1..] == [];
    assert StreamOutput(3, 1, BatchCursor(3, 1, c1, Ramp(1, 5)), []) == [];
  }

  // ------------------------------------------------------------------ pass-through and framing

  /** What one batch adds to the accumulated samples; equal rates bypass the interpolation. */
  function StepOutput(inRate: nat, target: nat, c: Cursor, input: seq<Sample>): seq<Sample>
    requires inRate > 0 && CursorOk(c, target)
  {
    if inRate == target then input else BatchOutput(inRate, target, c, input)
  }

  function StepCursor(inRate: nat, target: nat, c: Cursor, input: seq<Sample>): (r: Cursor)
    requires inRate > 0 && CursorOk(c, target)
    ensures CursorOk(r, target)
  {
    if inRate == target then c else BatchCursor(inRate, target, c, input)
  }

  function Slice<T>(s: seq<T>, lo: int, hi: int): seq<T> {
    if 0 <= lo <= hi <= |s| then s[lo..hi] else []
  }

  /** The k-th chunk cut from a resampled stream; ids start at 1. */
  function ChunkAt(stream: seq<Sample>, size: nat, rate: nat, clock: nat -> nat, k: nat): AudioChunk {
    AudioChunk(Slice(stream, k * size, k * size + size), rate, 1, clock(k + 1), k + 1)
  }

  function ChunksBetween(stream: seq<Sample>, size: nat, rate: nat, clock: nat -> nat, lo: nat, hi: nat)
    : seq<AudioChunk>
    requires lo <= hi
  {
    seq(hi - lo, j requires j >= 0 => ChunkAt(stream, size, rate, clock, lo + j))
  }

  /** What a chunk carries besides its samples. */
  lemma ChunkLabels(stream: seq<Sample>, size: nat, rate: nat, clock: nat -> nat, lo: nat, hi: nat, k: nat)
    requires lo <= k < hi && (k + 1) * size <= |stream|
    ensures var chunk := ChunksBetween(stream, size, rate, clock, lo, hi)[k - lo];
            && |chunk.samples| == size && chunk.sampleRate == rate && chunk.channels == 1
            && chunk.sequenceId == k + 1 && chunk.timestampNs == clock(chunk.sequenceId)
  {
    hide ChunkAt;
    var j := k - lo;
    assert ChunksBetween(stream, size, rate, clock, lo, hi)[j] == ChunkAt(stream, size, rate, clock, lo + j);
    ChunkIs(stream, size, rate, clock, k);
  }

  lemma ChunkIs(stream: seq<Sample>, size: nat, rate: nat, clock: nat -> nat, k: nat)
    requires (k + 1) * size <= |stream|
    ensures ChunkAt(stream, size, rate, clock, k).samples == Slice(stream, k * size, (k + 1) * size)
    ensures |ChunkAt(stream, size, rate, clock, k).samples| == size
    ensures var chunk := ChunkAt(stream, size, rate, clock, k);
            chunk.sampleRate == rate && chunk.channels == 1
            && chunk.sequenceId == k + 1 && chunk.timestampNs == clock(k + 1)
  {
    MulAdd(k, 1, size);
  }

  /** Chunks already cut do not change when the stream grows. */
  lemma ChunksStable(stream: seq<Sample>, more: seq<Sample>, size: nat, rate: nat, clock: nat -> nat,
                     lo: nat, hi: nat)
    requires lo <= hi && hi * size <= |stream|
    ensures ChunksBetween(stream + more, size, rate, clock, lo, hi) == ChunksBetween(stream, size, rate, clock, lo, hi)
  {
    forall k | lo <= k < hi
      ensures ChunkAt(stream + more, size, rate, clock, k) == ChunkAt(stream, size, rate, clock, k)
    {
      MulStrict(k, hi, size);
      assert (stream + more)[k * size..k * size + size] == stream[k * size..k * size + size];
    }
    var x := ChunksBetween(stream + more, size, rate, clock, lo, hi);
    var y := ChunksBetween(stream, size, rate, clock, lo, hi);
    forall j | 0 <= j < |x|
      ensures x[j] == y[j]
    {
      assert ChunkAt(stream + more, size, rate, clock, lo + j) == ChunkAt(stream, size, rate, clock, lo + j);
    }
    assert x == y;
  }

  lemma ChunksJoin(stream: seq<Sample>, size: nat, rate: nat, clock: nat -> nat, lo: nat, mid: nat, hi: nat)
    requires lo <= mid <= hi
    ensures ChunksBetween(stream, size, rate, clock, lo, hi)
            == ChunksBetween(stream, size, rate, clock, lo, mid) + ChunksBetween(stream, size, rate, clock, mid, hi)
  {
  }

  lemma OneChunkSamples(stream: seq<Sample>, size: nat, rate: nat, clock: nat -> nat, k: nat)
    requires (k + 1) * size <= |stream|
    ensures k * size <= (k + 1) * size
    ensures SamplesOf(ChunksBetween(stream, size, rate, clock, k, k + 1)) == stream[k * size..(k + 1) * size]
  {
    MulMono(k, k + 1, size);
    MulAdd(k, 1, size);
    var last := ChunkAt(stream, size, rate, clock, k);
    assert ChunksBetween(stream, size, rate, clock, k, k + 1) == [last];
    assert SamplesOf([last]) == last.samples + SamplesOf([]);
  }

  /** Cutting loses and reorders nothing: the first n chunks, end to end, are the stream's first n*size samples. */
  lemma {:induction false} ChunksAreStream(stream: seq<Sample>, size: nat, rate: nat, clock: nat -> nat, n: nat)
    requires n * size <= |stream|
    ensures SamplesOf(ChunksBetween(stream, size, rate, clock, 0, n)) == stream[..n * size]
  {
    if n == 0 {
      assert ChunksBetween(stream, size, rate, clock, 0, 0) == [];
    } else {
      hide ChunkAt, SamplesOf;
      MulMono(n - 1, n, size);
      MulAdd(n - 1, 1, size);
      ChunksAreStream(stream, size, rate, clock, n - 1);
      ChunksJoin(stream, size, rate, clock, 0, n - 1, n);
      OneChunkSamples(stream, size, rate, clock, n - 1);
      SamplesOfAppend(ChunksBetween(stream, size, rate, clock, 0, n - 1),
                      ChunksBetween(stream, size, rate, clock, n - 1, n));
      assert stream[..(n - 1) * size] + stream[(n - 1) * size..n * size] == stream[..n * size];
    }
  }

  // ------------------------------------------------------------------ the streaming object

  /** The first k samples a batch entered at `start` emits. */
  ghost function Emitted(inRate: nat, target: nat, start: Cursor, input: seq<Sample>, k: nat): seq<Sample>
    requires target > 0
  {
    seq(k, j requires j >= 0 => Interp(start.last, input, start.phase + j * inRate, target))
  }

  lemma SuffixAppend<T>(s: seq<T>, n: nat, more: seq<T>)
    requires n <= |s|
    ensures (s + more)[n..] == s[n..] + more
  {
  }

  /** Emitting one more sample, `phase` into sample idx, is emitting the closed form's k-th. */
  lemma EmittedStep(inRate: nat, target: nat, start: Cursor, input: seq<Sample>, k: nat, idx: nat, phase: nat)
    requires phase < target && idx < |input|
    requires Times(idx, target) + phase == start.phase + Times(k, inRate)
    ensures Emitted(inRate, target, start, input, k + 1)
            == Emitted(inRate, target, start, input, k)
               + [Lerp(Left(start.last, input, idx), input[idx], phase, target)]
  {
    TimesIsProduct(idx, target);
    TimesIsProduct(k, inRate);
    DivUnique(idx * target + phase, idx, phase, target);
  }

  class AudioResampler {
    const inputRate: nat
    const targetRate: nat
    const chunkSize: nat
    /** The wall-clock reading taken when the chunk with this id is built. */
    const clock: nat -> nat
    var lastSample: Option<Sample>
    var phase: nat
    var accumulated: seq<Sample>
    var sequenceId: nat
    /** Every sample resampled so far, including the padding of a flush. */
    ghost var stream: seq<Sample>

    ghost predicate Valid()
      reads this
    {
      && inputRate > 0 && targetRate > 0 && chunkSize > 0
      && phase < targetRate
      && sequenceId * chunkSize <= |stream|
      && accumulated == stream[sequenceId * chunkSize..]
    }

    ghost function State(): Cursor
      reads this
    {
      Cursor(phase, lastSample)
    }

    constructor Init(inputRate: nat, targetRate: nat, chunkSize: nat, clock: nat -> nat)
      requires inputRate > 0 && targetRate > 0
      ensures Valid() && stream == [] && sequenceId == 0 && State() == Cursor(0, None)
      ensures this.inputRate == inputRate && this.targetRate == targetRate && this.clock == clock
      ensures this.chunkSize == if chunkSize == 0 then 1 else chunkSize
    {
      this.inputRate, this.targetRate, this.clock := inputRate, targetRate, clock;
      this.chunkSize := if chunkSize == 0 then 1 else chunkSize;
      lastSample, phase, accumulated, sequenceId := None, 0, [], 0;
      stream := [];
    }

    static method New(inputRate: nat, targetRate: nat, chunkSize: nat, clock: nat -> nat)
      returns (r: Result<AudioResampler>)
      ensures r == Err(InvalidParameter) <==> inputRate == 0 || targetRate == 0
      ensures r.Err? ==> r.error == InvalidParameter
      ensures r.Ok? ==> fresh(r.value) && r.value.Valid() && r.value.stream == []
                        && r.value.inputRate == inputRate && r.value.targetRate == targetRate
                        && r.value.chunkSize == (if chunkSize == 0 then 1 else chunkSize)
                        && r.value.clock == clock && r.value.sequenceId == 0
                        && r.value.State() == Cursor(0, None)
    {
      if inputRate == 0 || targetRate == 0 {
        return Err(InvalidParameter);
      }
      var resampler := new AudioResampler.Init(inputRate, targetRate, chunkSize, clock);
      return Ok(resampler);
    }

    /** Interpolates a whole batch and leaves the cursor where the closed form says. */
    method ResampleLinear(input: seq<Sample>)
      requires Valid() && input != []
      modifies this
      ensures Valid() && sequenceId == old(sequenceId)
      ensures stream == old(stream) + BatchOutput(inputRate, targetRate, old(State()), input)
      ensures State() == BatchCursor(inputRate, targetRate, old(State()), input)
    {
      hide BatchOutput, Lerp;
      var idx := 0;
      ghost var start := State();
      ghost var k := 0;  // samples emitted
      ghost var limit := Times(|input|, targetRate);
      while idx < |input|
        invariant phase < targetRate && lastSample == start.last
        invariant Times(idx, targetRate) + phase == start.phase + Times(k, inputRate)
        invariant k > 0 ==> start.phase + Times(k - 1, inputRate) < limit
        invariant accumulated == old(accumulated) + Emitted(inputRate, targetRate, start, input, k)
        invariant sequenceId == old(sequenceId) && stream == old(stream)
        decreases limit - Times(idx, targetRate)
      {
        var s0 := if idx == 0 then (if lastSample.Some? then lastSample.value else input[0]) else input[idx - 1];
        var s1 := input[idx];
        ghost var from := Times(idx, targetRate);
        TimesBelow(idx, |input|, targetRate);
        while phase < targetRate && idx < |input|
          modifies this`phase, this`accumulated
          invariant from + phase == start.phase + Times(k, inputRate)
          invariant k > 0 ==> start.phase + Times(k - 1, inputRate) < limit
          invariant accumulated == old(accumulated) + Emitted(inputRate, targetRate, start, input, k)
          decreases targetRate - phase
        {
          EmittedStep(inputRate, targetRate, start, input, k, idx, phase);
          AppendAssoc(old(accumulated), Emitted(inputRate, targetRate, start, input, k),
                      [Lerp(s0, s1, phase, targetRate)]);
          accumulated := accumulated + [Lerp(s0, s1, phase, targetRate)];
          phase := phase + inputRate;
          k := k + 1;
        }
        while phase >= targetRate
          modifies this`phase
          invariant Times(idx, targetRate) + phase == start.phase + Times(k, inputRate)
          invariant Times(idx, targetRate) >= from && (phase < targetRate ==> Times(idx, targetRate) > from)
          decreases phase
        {
          phase := phase - targetRate;
          idx := idx + 1;
        }
      }
      lastSample := Some(input[|input| - 1]);
      CursorReached(inputRate, targetRate, start, input, k, idx, phase);
      ghost var out := Emitted(inputRate, targetRate, start, input, k);
      SuffixAppend(stream, sequenceId * chunkSize, out);
      stream := stream + out;
    }

    method DrainReadyChunks() returns (chunks: seq<AudioChunk>)
      requires Valid()
      modifies this`accumulated, this`sequenceId
      ensures Valid() && |accumulated| < chunkSize && sequenceId >= old(sequenceId)
      ensures chunks == ChunksBetween(stream, chunkSize, targetRate, clock, old(sequenceId), sequenceId)
    {
      chunks := [];
      while |accumulated| >= chunkSize
        invariant Valid() && sequenceId >= old(sequenceId)
        invariant chunks == ChunksBetween(stream, chunkSize, targetRate, clock, old(sequenceId), sequenceId)
        decreases |accumulated|
      {
        var data := accumulated[..chunkSize];
        MulAdd(sequenceId, 1, chunkSize);
        accumulated := accumulated[chunkSize..];
        sequenceId := sequenceId + 1;
        assert data == stream[(sequenceId - 1) * chunkSize..(sequenceId - 1) * chunkSize + chunkSize];
        ChunksJoin(stream, chunkSize, targetRate, clock, old(sequenceId), sequenceId - 1, sequenceId);
        assert ChunksBetween(stream, chunkSize, targetRate, clock, sequenceId - 1, sequenceId)
               == [ChunkAt(stream, chunkSize, targetRate, clock, sequenceId - 1)];
        chunks := chunks + [AudioChunk(data, targetRate, 1, clock(sequenceId), sequenceId)];
      }
    }

    method ProcessMonoSamples(input: seq<Sample>) returns (chunks: seq<AudioChunk>)
      requires Valid() && |accumulated| < chunkSize
      modifies this
      ensures Valid() && |accumulated| < chunkSize && sequenceId >= old(sequenceId)
      ensures stream == old(stream) + StepOutput(inputRate, targetRate, old(State()), input)
      ensures State() == StepCursor(inputRate, targetRate, old(State()), input)
      ensures chunks == ChunksBetween(stream, chunkSize, targetRate, clock, old(sequenceId), sequenceId)
    {
      if input == [] {
        return [];
      }
      if inputRate == targetRate {
        accumulated := accumulated + input;
        stream := stream + input;
      } else {
        ResampleLinear(input);
      }
      chunks := DrainReadyChunks();
    }

    /** The remainder, zero-padded to one chunk; nothing when there is none. */
    method Flush() returns (chunk: Option<AudioChunk>)
      requires Valid() && |accumulated| < chunkSize
      modifies this
      ensures Valid() && accumulated == [] && State() == old(State())
      ensures if old(accumulated) == []
              then chunk == None && stream == old(stream) && sequenceId == old(sequenceId)
              else && stream == old(stream) + seq(chunkSize - |old(accumulated)|, _ => Finite(0.0))
                   && sequenceId == old(sequenceId) + 1
                   && chunk == Some(ChunkAt(stream, chunkSize, targetRate, clock, old(sequenceId)))
    {
      if accumulated == [] {
        return None;
      }
      var data := accumulated + seq(chunkSize - |accumulated|, _ => Finite(0.0));
      accumulated := [];
      MulAdd(sequenceId, 1, chunkSize);
      stream := stream + seq(chunkSize - |old(accumulated)|, _ => Finite(0.0));
      assert data == stream[sequenceId * chunkSize..sequenceId * chunkSize + chunkSize];
      sequenceId := sequenceId + 1;
      return Some(AudioChunk(data, targetRate, 1, clock(sequenceId), sequenceId));
    }
  }

  /** When the read position first reaches the batch's end, the count and phase are the closed form's. */
  lemma CursorReached(inRate: nat, target: nat, start: Cursor, input: seq<Sample>, k: nat, idx: nat, phase: nat)
    requires inRate > 0 && CursorOk(start, target) && input != []
    requires idx >= |input| && phase < target
    requires Times(idx, target) + phase == start.phase + Times(k, inRate)
    requires k > 0 ==> start.phase + Times(k - 1, inRate) < Times(|input|, target)
    ensures Emitted(inRate, target, start, input, k) == BatchOutput(inRate, target, start, input)
    ensures phase == BatchCursor(inRate, target, start, input).phase
  {
    var n := |input|;
    TimesIsProduct(idx, target);
    TimesIsProduct(k, inRate);
    TimesIsProduct(n, target);
    if k > 0 {
      TimesIsProduct(k - 1, inRate);
    }
    MulMono(n, idx, target);
    MulMono(1, n, target);
    MulAdd(k - 1, 1, inRate);
    CeilDivUnique(n * target - start.phase, inRate, k);
    MulAdd(n, idx - n, target);
    DivUnique(Overshoot(inRate, target, start.phase, n), idx - n, phase, target);
  }
}
