// The adapter's steps produce the closed form, for every input length.
module RnnoiseLaws {
  import opened Audio
  import opened RnnoiseFrames
  import opened RnnoiseAdapter

  // ------------------------------------------------------------------ staging a denoiser answer

  lemma OutputChunkStable(before: seq<Sample>, output: seq<Sample>, ts: nat, sq: nat, k: nat)
    requires before <= output && 512 * k + 512 <= |before|
    ensures OutputChunk(before, ts, sq, k) == OutputChunk(output, ts, sq, k)
  {
    assert before[512 * k..512 * k + 512] == output[512 * k..512 * k + 512];
  }

  /** Chunks already released stay the same, and new ones follow them. */
  lemma ChunksGrow(before: seq<Sample>, output: seq<Sample>, ts: nat, sq: nat, lo: nat, mid: nat, hi: nat)
    requires before <= output && lo <= mid <= hi && 512 * mid <= |before|
    ensures OutputChunks(output, ts, sq, lo, hi)
            == OutputChunks(before, ts, sq, lo, mid) + OutputChunks(output, ts, sq, mid, hi)
  {
    var x := OutputChunks(output, ts, sq, lo, hi);
    var y := OutputChunks(before, ts, sq, lo, mid) + OutputChunks(output, ts, sq, mid, hi);
    forall j | 0 <= j < hi - lo
      ensures x[j] == y[j]
    {
      if lo + j < mid {
        OutputChunkStable(before, output, ts, sq, lo + j);
      }
    }
    assert x == y;
  }

  /** Samples following `before` earlier ones are finite and the chunks they complete can be stamped. */
  ghost predicate Emits(ts: nat, sq: nat, before: nat, samples: seq<Sample>) {
    && AllFinite(samples)
    && forall k: nat | before / 512 <= k < (before + |samples|) / 512 :: Stampable(ts, sq, k)
  }

  /** The staging buffer holds the tail of `output` that does not yet fill a chunk. */
  ghost predicate Stages(a: Adapter, output: seq<Sample>) {
    && a.emitted == |output|
    && a.staged == output[|output| - |output| % 512..]
    && a.ts.Some? && a.sq.Some?
  }

  /** The k-th full buffer carries the k-th stamp, if the stamp fits. */
  lemma TakeChunkAt(a: Adapter, k: nat)
    requires a.ts.Some? && a.sq.Some? && a.emitted == 512 * k + 512
    ensures TakeChunk(a) == if Stampable(a.ts.value, a.sq.value, k)
                            then Ok(AudioChunk(a.staged, 16000, 1, a.ts.value + NS_PER_CHUNK * k, a.sq.value + k))
                            else Err(BackendError)
  {
  }

  /** Outcome r of staging samples after `output`. */
  ghost predicate Stagings(a: Adapter, out: seq<AudioChunk>, output: seq<Sample>, samples: seq<Sample>, r: Outcome)
    requires a.ts.Some? && a.sq.Some?
  {
    var all := output + samples;
    && (r.Ok? <==> Emits(a.ts.value, a.sq.value, |output|, samples))
    && (r.Err? ==> r.error == BackendError)
    && (r.Ok? ==>
          && Stages(r.value.0, all)
          && r.value.0 == a.(staged := r.value.0.staged, emitted := |all|)
          && r.value.1 == out + OutputChunks(all, a.ts.value, a.sq.value, |output| / 512, |all| / 512))
  }

  lemma ChunkIndex(n: nat)
    ensures n == 512 * (n / 512) + n % 512
    ensures if n % 512 == 511 then (n + 1) / 512 == n / 512 + 1 && (n + 1) % 512 == 0
            else (n + 1) / 512 == n / 512 && (n + 1) % 512 == n % 512 + 1
  {
  }

  /** One sample is emitted if it is finite and, where it completes chunk k, that can be stamped. */
  lemma EmitsOne(ts: nat, sq: nat, before: nat, sample: Sample)
    ensures Emits(ts, sq, before, [sample])
      <==> sample.Finite? && (before % 512 == 511 ==> Stampable(ts, sq, before / 512))
  {
    hide Stampable;
    assert [sample][0] == sample;
    ChunkIndex(before);
  }

  lemma NoOutputChunks(output: seq<Sample>, ts: nat, sq: nat, k: nat)
    ensures OutputChunks(output, ts, sq, k, k) == []
  {
  }

  lemma OneOutputChunk(output: seq<Sample>, ts: nat, sq: nat, k: nat)
    ensures OutputChunks(output, ts, sq, k, k + 1) == [OutputChunk(output, ts, sq, k)]
  {
    hide OutputChunk;
  }

  /** The tail that does not yet fill a chunk, one sample later. */
  lemma TailGrows(output: seq<Sample>, sample: Sample)
    ensures var n, grown := |output|, output + [sample];
      output[n - n % 512..] + [sample]
        == if n % 512 == 511 then grown[512 * (n / 512)..512 * (n / 512) + 512] else grown[n + 1 - (n + 1) % 512..]
  {
    ChunkIndex(|output|);
  }

  /** A staged sample is appended, and releases a chunk exactly when it completes one. */
  lemma StageOne(a: Adapter, out: seq<AudioChunk>, output: seq<Sample>, sample: Sample)
    requires Shaped(a) && Stages(a, output)
    ensures Stagings(a, out, output, [sample], StageStep(a, out, sample))
  {
    hide Emits, OutputChunks, TakeChunk, Stampable;
    EmitsOne(a.ts.value, a.sq.value, |output|, sample);
    ChunkIndex(|output|);
    if sample.Finite? {
      if |output| % 512 == 511 {
        StageLast(a, out, output, sample, |output| / 512);
      } else {
        TailGrows(output, sample);
        NoOutputChunks(output + [sample], a.ts.value, a.sq.value, |output| / 512);
        assert out + [] == out;
      }
    }
  }

  /** The sample that completes chunk k. */
  lemma StageLast(a: Adapter, out: seq<AudioChunk>, output: seq<Sample>, sample: Sample, k: nat)
    requires Shaped(a) && Stages(a, output) && sample.Finite? && |output| == 512 * k + 511
    requires |output| / 512 == k && (|output| + 1) / 512 == k + 1 && (|output| + 1) % 512 == 0
    ensures Stagings(a, out, output, [sample], StageStep(a, out, sample))
  {
    hide Emits, OutputChunks, StageStep, Stampable;
    EmitsOne(a.ts.value, a.sq.value, |output|, sample);
    TailGrows(output, sample);
    var grown := output + [sample];
    FullBuffer(a, out, sample, k);
    assert grown[|grown|..] == [];
    OneOutputChunk(grown, a.ts.value, a.sq.value, k);
  }

  /** A full buffer leaves as chunk k, if that can be stamped. */
  lemma FullBuffer(a: Adapter, out: seq<AudioChunk>, sample: Sample, k: nat)
    requires Shaped(a) && a.ts.Some? && a.sq.Some? && sample.Finite?
    requires |a.staged| == 511 && a.emitted == 512 * k + 511
    ensures StageStep(a, out, sample)
      == if Stampable(a.ts.value, a.sq.value, k)
         then Ok((a.(staged := [], emitted := a.emitted + 1),
                  out + [AudioChunk(a.staged + [sample], 16000, 1, a.ts.value + NS_PER_CHUNK * k, a.sq.value + k)]))
         else Err(BackendError)
  {
    hide TakeChunk, Stampable;
    TakeChunkAt(a.(staged := a.staged + [sample], emitted := a.emitted + 1), k);
  }

  lemma {:induction false} StageMany(a: Adapter, out: seq<AudioChunk>, output: seq<Sample>, samples: seq<Sample>)
    requires Shaped(a) && Stages(a, output)
    ensures Stagings(a, out, output, samples, StageRun(a, out, samples))
    decreases |samples|
  {
    hide StageStep, OutputChunks, Stampable;
    if samples == [] {
      assert output + samples == output;
      NoOutputChunks(output, a.ts.value, a.sq.value, |output| / 512);
      assert out + [] == out;
    } else {
      var x, rest := samples[0], samples[1..];
      StageOne(a, out, output, x);
      var step := StageStep(a, out, x);
      EmitsSplit(a.ts.value, a.sq.value, |output|, samples);
      if step.Ok? {
        StageMany(step.value.0, step.value.1, output + [x], rest);
        assert output + samples == (output + [x]) + rest;
        StagingsJoin(a, out, output, samples, step, StageRun(step.value.0, step.value.1, rest));
      }
    }
  }

  lemma EmitsSplit(ts: nat, sq: nat, before: nat, samples: seq<Sample>)
    requires samples != []
    ensures Emits(ts, sq, before, samples)
            <==> Emits(ts, sq, before, [samples[0]]) && Emits(ts, sq, before + 1, samples[1..])
  {
    assert samples == [samples[0]] + samples[1..];
    assert AllFinite(samples) <==> AllFinite([samples[0]]) && AllFinite(samples[1..]);
  }

  lemma StagingsJoin(a: Adapter, out: seq<AudioChunk>, output: seq<Sample>, samples: seq<Sample>,
                     r1: Outcome, r2: Outcome)
    requires a.ts.Some? && a.sq.Some? && samples != [] && r1.Ok?
    requires Stagings(a, out, output, [samples[0]], r1)
    requires Stagings(r1.value.0, r1.value.1, output + [samples[0]], samples[1..], r2)
    ensures Stagings(a, out, output, samples, r2)
  {
    var grown, rest := output + [samples[0]], samples[1..];
    assert output + samples == grown + rest;
    EmitsSplit(a.ts.value, a.sq.value, |output|, samples);
    if r2.Ok? {
      ChunksGrow(grown, grown + rest, a.ts.value, a.sq.value, |output| / 512, |grown| / 512, |grown + rest| / 512);
      AppendAssoc(out, OutputChunks(grown, a.ts.value, a.sq.value, |output| / 512, |grown| / 512),
                  OutputChunks(grown + rest, a.ts.value, a.sq.value, |grown| / 512, |grown + rest| / 512));
    }
  }

  // ------------------------------------------------------------------ the adapter follows the closed form

  /** The first n output samples of the closed form. */
  function Outputs(denoiser: Denoiser, xs: seq<real>, n: nat): (s: seq<Sample>)
    ensures |s| == n
  {
    seq(n, i requires 0 <= i < n => OutputAt(denoiser, xs, i))
  }

  /** Outputs lo..hi are finite and the chunks they complete can be stamped. */
  ghost predicate CleanRange(denoiser: Denoiser, xs: seq<real>, ts: nat, sq: nat, lo: nat, hi: nat) {
    && (forall i: nat | lo <= i < hi :: OutputAt(denoiser, xs, i).Finite?)
    && (forall k: nat | lo / 512 <= k < hi / 512 :: Stampable(ts, sq, k))
  }

  /** The input side after m upsampled samples of xs. */
  ghost predicate Buffers(a: Adapter, xs: seq<real>, m: nat) {
    && m <= 3 * |xs|
    && |a.frame| == m % 480
    && (forall j | 0 <= j < |a.frame| :: a.frame[j] == Upsampled(xs, m - m % 480 + j))
    && a.history == Fed(xs, m / 480)
    && a.pending == (if m < 480 then 0 else 160)
  }

  ghost predicate Tracks(denoiser: Denoiser, a: Adapter, xs: seq<real>, m: nat) {
    Buffers(a, xs, m) && Stages(a, Outputs(denoiser, xs, Released(m)))
  }

  /** Outputs released when real frames 0..k are complete. */
  function Behind(k: nat): nat {
    if k == 0 then 0 else 160 * (k - 1)
  }

  /** Real call k answers with outputs 160*(k-1) onwards. */
  lemma AnswerExtends(denoiser: Denoiser, xs: seq<real>, k: nat, n: nat)
    requires n <= 160 && (k == 0 ==> n == 0)
    ensures Outputs(denoiser, xs, Behind(k)) + Decimated(Answer(denoiser, xs, k), n)
            == Outputs(denoiser, xs, Behind(k) + n)
  {
    hide OutputAt, Answer, Normalize, Fed;
    var tail := Decimated(Answer(denoiser, xs, k), n);
    var whole, parts := Outputs(denoiser, xs, Behind(k) + n), Outputs(denoiser, xs, Behind(k)) + tail;
    forall i | 0 <= i < Behind(k) + n
      ensures whole[i] == parts[i]
    {
      assert whole[i] == OutputAt(denoiser, xs, i);
      if i < Behind(k) {
        assert parts[i] == OutputAt(denoiser, xs, i);
      } else {
        OutputOf(denoiser, xs, k, i - Behind(k));
        assert parts[i] == tail[i - Behind(k)];
      }
    }
    assert |whole| == |parts|;
    assert whole == parts;
  }

  lemma OutputOf(denoiser: Denoiser, xs: seq<real>, k: nat, j: nat)
    requires k > 0 && j < 160
    ensures OutputAt(denoiser, xs, 160 * (k - 1) + j) == Normalize(Answer(denoiser, xs, k)[3 * j + 2])
  {
    OutputIndex(k, j);
  }

  lemma OutputIndex(k: nat, j: nat)
    requires k > 0 && j < 160
    ensures (160 * (k - 1) + j) / 160 == k - 1 && (160 * (k - 1) + j) % 160 == j
  {
  }

  /** Clean outputs are exactly what staging accepts. */
  lemma EmitsIsClean(denoiser: Denoiser, xs: seq<real>, ts: nat, sq: nat, lo: nat, samples: seq<Sample>)
    requires Outputs(denoiser, xs, lo) + samples == Outputs(denoiser, xs, lo + |samples|)
    ensures Emits(ts, sq, lo, samples) <==> CleanRange(denoiser, xs, ts, sq, lo, lo + |samples|)
  {
    var all := Outputs(denoiser, xs, lo) + samples;
    forall i: nat | lo <= i < lo + |samples|
      ensures OutputAt(denoiser, xs, i) == samples[i - lo]
    {
      assert all[i] == samples[i - lo];
    }
    forall j | 0 <= j < |samples|
      ensures samples[j] == OutputAt(denoiser, xs, lo + j)
    {
      assert all[lo + j] == samples[j];
    }
  }

  /** Output chunk k of a session, from its input alone. */
  function ChunkOut(denoiser: Denoiser, xs: seq<real>, ts: nat, sq: nat, k: nat): AudioChunk {
    AudioChunk(seq(512, j requires 0 <= j < 512 => OutputAt(denoiser, xs, 512 * k + j)),
               16000, 1, ts + NS_PER_CHUNK * k, sq + k)
  }

  /** Output chunks i..j. */
  function Due(denoiser: Denoiser, xs: seq<real>, ts: nat, sq: nat, i: nat, j: nat): seq<AudioChunk>
    requires i <= j
  {
    seq(j - i, n requires n >= 0 => ChunkOut(denoiser, xs, ts, sq, i + n))
  }

  lemma DueJoin(denoiser: Denoiser, xs: seq<real>, ts: nat, sq: nat, i: nat, j: nat, k: nat)
    requires i <= j <= k
    ensures Due(denoiser, xs, ts, sq, i, j) + Due(denoiser, xs, ts, sq, j, k) == Due(denoiser, xs, ts, sq, i, k)
  {
  }

  lemma DueOne(denoiser: Denoiser, xs: seq<real>, ts: nat, sq: nat, k: nat)
    ensures Due(denoiser, xs, ts, sq, k, k + 1) == [ChunkOut(denoiser, xs, ts, sq, k)]
  {
  }

  lemma DueIs(denoiser: Denoiser, xs: seq<real>, n: nat, ts: nat, sq: nat, i: nat, j: nat)
    requires i <= j && 512 * j <= n
    ensures OutputChunks(Outputs(denoiser, xs, n), ts, sq, i, j) == Due(denoiser, xs, ts, sq, i, j)
  {
    hide OutputAt, Outputs, OutputChunk, ChunkOut;
    var x, y := OutputChunks(Outputs(denoiser, xs, n), ts, sq, i, j), Due(denoiser, xs, ts, sq, i, j);
    forall k | 0 <= k < j - i
      ensures x[k] == y[k]
    {
      OneChunk(denoiser, xs, n, ts, sq, i + k);
      assert x[k] == OutputChunk(Outputs(denoiser, xs, n), ts, sq, i + k);
      assert y[k] == ChunkOut(denoiser, xs, ts, sq, i + k);
    }
    assert |x| == |y|;
    assert x == y;
  }

  lemma OneChunk(denoiser: Denoiser, xs: seq<real>, n: nat, ts: nat, sq: nat, k: nat)
    requires 512 * (k + 1) <= n
    ensures OutputChunk(Outputs(denoiser, xs, n), ts, sq, k) == ChunkOut(denoiser, xs, ts, sq, k)
  {
    hide OutputAt;
    assert OutputChunk(Outputs(denoiser, xs, n), ts, sq, k).samples == ChunkOut(denoiser, xs, ts, sq, k).samples;
  }

  /** Outcome r of releasing outputs lo..hi: clean or an error, and then exactly the chunks they complete. */
  ghost predicate Yields(denoiser: Denoiser, ts: nat, sq: nat, out: seq<AudioChunk>, xs: seq<real>,
                         lo: nat, hi: nat, r: Outcome)
    requires lo <= hi
  {
    && (r.Ok? <==> CleanRange(denoiser, xs, ts, sq, lo, hi))
    && (r.Err? ==> r.error == BackendError)
    && (r.Ok? ==>
          && Stages(r.value.0, Outputs(denoiser, xs, hi))
          && r.value.0.ts == Some(ts) && r.value.0.sq == Some(sq)
          && r.value.1 == out + Due(denoiser, xs, ts, sq, lo / 512, hi / 512))
  }

  lemma YieldNone(denoiser: Denoiser, ts: nat, sq: nat, out: seq<AudioChunk>, xs: seq<real>, lo: nat, a: Adapter)
    requires Stages(a, Outputs(denoiser, xs, lo)) && a.ts == Some(ts) && a.sq == Some(sq)
    ensures Yields(denoiser, ts, sq, out, xs, lo, lo, Ok((a, out)))
  {
    assert Due(denoiser, xs, ts, sq, lo / 512, lo / 512) == [];
    assert out + [] == out;
  }

  /** An earlier failure is a failure. */
  lemma YieldFails(denoiser: Denoiser, ts: nat, sq: nat, out: seq<AudioChunk>, xs: seq<real>,
                   lo: nat, mid: nat, hi: nat, r: Outcome)
    requires lo <= mid <= hi && r.Err? && Yields(denoiser, ts, sq, out, xs, lo, mid, r)
    ensures Yields(denoiser, ts, sq, out, xs, lo, hi, r)
  {
    CleanJoin(denoiser, xs, ts, sq, lo, mid, hi);
  }

  /** Two successful steps make one. */
  lemma YieldJoins(denoiser: Denoiser, ts: nat, sq: nat, out: seq<AudioChunk>, xs: seq<real>,
                   lo: nat, mid: nat, hi: nat, r1: Outcome, r2: Outcome)
    requires lo <= mid <= hi && r1.Ok?
    requires Yields(denoiser, ts, sq, out, xs, lo, mid, r1)
    requires Yields(denoiser, ts, sq, r1.value.1, xs, mid, hi, r2)
    ensures Yields(denoiser, ts, sq, out, xs, lo, hi, r2)
  {
    CleanJoin(denoiser, xs, ts, sq, lo, mid, hi);
    if r2.Ok? {
      DueJoin(denoiser, xs, ts, sq, lo / 512, mid / 512, hi / 512);
      AppendAssoc(out, Due(denoiser, xs, ts, sq, lo / 512, mid / 512), Due(denoiser, xs, ts, sq, mid / 512, hi / 512));
    }
  }

  lemma CleanJoin(denoiser: Denoiser, xs: seq<real>, ts: nat, sq: nat, lo: nat, mid: nat, hi: nat)
    requires lo <= mid <= hi
    ensures CleanRange(denoiser, xs, ts, sq, lo, hi)
            <==> CleanRange(denoiser, xs, ts, sq, lo, mid) && CleanRange(denoiser, xs, ts, sq, mid, hi)
  {
  }

  /** Staging the samples that continue the output of a stream yields what is due. */
  lemma AnswerYields(denoiser: Denoiser, a: Adapter, out: seq<AudioChunk>, xs: seq<real>, lo: nat, answer: seq<Sample>)
    requires Shaped(a) && Stages(a, Outputs(denoiser, xs, lo))
    requires Outputs(denoiser, xs, lo) + answer == Outputs(denoiser, xs, lo + |answer|)
    ensures var r := StageRun(a, out, answer);
            && Yields(denoiser, a.ts.value, a.sq.value, out, xs, lo, lo + |answer|, r)
            && (r.Ok? ==> r.value.0 == a.(staged := r.value.0.staged, emitted := r.value.0.emitted))
  {
    hide OutputAt, Emits, CleanRange, Outputs, Due, OutputChunks, StageRun;
    EmitsIsClean(denoiser, xs, a.ts.value, a.sq.value, lo, answer);
    StageMany(a, out, Outputs(denoiser, xs, lo), answer);
    DueIs(denoiser, xs, lo + |answer|, a.ts.value, a.sq.value, lo / 512, (lo + |answer|) / 512);
  }

  /** One denoiser call on frame k releases the samples owed and nothing else. */
  lemma FrameYields(denoiser: Denoiser, a: Adapter, out: seq<AudioChunk>, xs: seq<real>, k: nat, valid: nat)
    requires Shaped(a) && valid <= 160 && (k == 0 ==> a.pending == 0)
    requires a.history == Fed(xs, k)
    requires Stages(a, Outputs(denoiser, xs, Behind(k)))
    ensures var r := FrameStep(denoiser, a, out, FrameAt(xs, k), valid);
            && Yields(denoiser, a.ts.value, a.sq.value, out, xs, Behind(k), Behind(k) + a.pending, r)
            && (r.Ok? ==> r.value.0 == a.(history := Fed(xs, k + 1), pending := valid,
                                          staged := r.value.0.staged, emitted := r.value.0.emitted))
  {
    hide OutputAt, Emits, CleanRange, FrameAt, Outputs, Due, OutputChunks, StageRun, Behind;
    var fed := a.(history := a.history + [FrameAt(xs, k)]);
    assert fed.history == Fed(xs, k + 1);
    var answer := Decimated(Answer(denoiser, xs, k), a.pending);
    AnswerExtends(denoiser, xs, k, a.pending);
    AnswerYields(denoiser, fed, out, xs, Behind(k), answer);
  }

  /** Outcome r of taking upsampled values m..n of xs. */
  ghost predicate Advances(denoiser: Denoiser, ts: nat, sq: nat, out: seq<AudioChunk>, xs: seq<real>,
                           m: nat, n: nat, r: Outcome)
  {
    && Released(m) <= Released(n)
    && Yields(denoiser, ts, sq, out, xs, Released(m), Released(n), r)
    && (r.Ok? ==> Buffers(r.value.0, xs, n))
  }

  lemma PushTracks(denoiser: Denoiser, a: Adapter, out: seq<AudioChunk>, xs: seq<real>, m: nat)
    requires Shaped(a) && Tracks(denoiser, a, xs, m) && m < 3 * |xs|
    ensures var r := PushStep(denoiser, a, out, Upsampled(xs, m));
            && Advances(denoiser, a.ts.value, a.sq.value, out, xs, m, m + 1, r)
            && (r.Ok? ==> r.value.0.previous == a.previous)
  {
    hide Upsampled, CleanRange, Outputs, Due, FrameStep, FrameAt;
    BufferNext(a, xs, m);
    if |a.frame| + 1 < 480 {
      YieldNone(denoiser, a.ts.value, a.sq.value, out, xs, Released(m), a.(frame := a.frame + [Upsampled(xs, m)]));
    } else {
      FrameYields(denoiser, a.(frame := []), out, xs, m / 480, 160);
    }
  }

  /** One more upsampled value in the frame, or the frame complete. */
  lemma BufferNext(a: Adapter, xs: seq<real>, m: nat)
    requires Buffers(a, xs, m) && m < 3 * |xs|
    ensures var frame := a.frame + [Upsampled(xs, m)];
            if |frame| < 480 then Buffers(a.(frame := frame), xs, m + 1) && Released(m + 1) == Released(m)
            else && frame == FrameAt(xs, m / 480) && m % 480 == 479 && (m + 1) / 480 == m / 480 + 1
                 && Released(m + 1) == Released(m) + a.pending
  {
    hide Upsampled, Fed;
    FrameIndex(m);
    var frame := a.frame + [Upsampled(xs, m)];
    if |frame| == 480 {
      assert frame == FrameAt(xs, m / 480);
    }
  }

  lemma FrameIndex(m: nat)
    ensures m - m % 480 == 480 * (m / 480)
    ensures if m % 480 < 479 then (m + 1) / 480 == m / 480 && (m + 1) % 480 == m % 480 + 1
            else (m + 1) / 480 == m / 480 + 1 && (m + 1) % 480 == 0
  {
  }

  lemma ReleasedMono(m: nat, n: nat)
    requires m <= n
    ensures Released(m) <= Released(n)
  {
  }

  lemma AdvanceFails(denoiser: Denoiser, ts: nat, sq: nat, out: seq<AudioChunk>, xs: seq<real>,
                     m: nat, k: nat, n: nat, r: Outcome)
    requires m <= k <= n && r.Err? && Advances(denoiser, ts, sq, out, xs, m, k, r)
    ensures Advances(denoiser, ts, sq, out, xs, m, n, r)
  {
    ReleasedMono(k, n);
    YieldFails(denoiser, ts, sq, out, xs, Released(m), Released(k), Released(n), r);
  }

  lemma AdvanceJoins(denoiser: Denoiser, ts: nat, sq: nat, out: seq<AudioChunk>, xs: seq<real>, m: nat, k: nat, n: nat,
                     r1: Outcome, r2: Outcome)
    requires r1.Ok? && Advances(denoiser, ts, sq, out, xs, m, k, r1)
    requires Advances(denoiser, ts, sq, r1.value.1, xs, k, n, r2)
    ensures Advances(denoiser, ts, sq, out, xs, m, n, r2)
  {
    YieldJoins(denoiser, ts, sq, out, xs, Released(m), Released(k), Released(n), r1, r2);
  }

  /** Growing the input keeps everything already determined. */
  lemma TracksStable(denoiser: Denoiser, a: Adapter, xs: seq<real>, ys: seq<real>)
    requires xs <= ys && Tracks(denoiser, a, xs, 3 * |xs|)
    ensures Tracks(denoiser, a, ys, 3 * |xs|)
  {
    BuffersStable(a, xs, ys);
    OutputsStable(denoiser, xs, ys, Released(3 * |xs|));
  }

  lemma BuffersStable(a: Adapter, xs: seq<real>, ys: seq<real>)
    requires xs <= ys && Buffers(a, xs, 3 * |xs|)
    ensures Buffers(a, ys, 3 * |xs|)
  {
    var m := 3 * |xs|;
    forall j | 0 <= j < |a.frame|
      ensures a.frame[j] == Upsampled(ys, m - m % 480 + j)
    {
      UpsampledStable(xs, ys, m - m % 480 + j);
    }
    FedStable(xs, ys, m / 480);
  }

  lemma OutputsStable(denoiser: Denoiser, xs: seq<real>, ys: seq<real>, n: nat)
    requires xs <= ys && n <= Released(3 * |xs|)
    ensures Outputs(denoiser, xs, n) == Outputs(denoiser, ys, n)
  {
    forall i: nat | i < n
      ensures OutputAt(denoiser, xs, i) == OutputAt(denoiser, ys, i)
    {
      OutputStable(denoiser, xs, ys, i);
    }
  }

  lemma CleanStable(denoiser: Denoiser, xs: seq<real>, ys: seq<real>, ts: nat, sq: nat, lo: nat, hi: nat)
    requires xs <= ys && hi <= Released(3 * |xs|)
    ensures CleanRange(denoiser, xs, ts, sq, lo, hi) <==> CleanRange(denoiser, ys, ts, sq, lo, hi)
  {
    forall i: nat | lo <= i < hi
      ensures OutputAt(denoiser, xs, i) == OutputAt(denoiser, ys, i)
    {
      OutputStable(denoiser, xs, ys, i);
    }
  }

  // ------------------------------------------------------------------ one sample, one chunk

  ghost predicate Current(denoiser: Denoiser, a: Adapter, xs: seq<real>) {
    && Tracks(denoiser, a, xs, 3 * |xs|)
    && a.previous == if xs == [] then None else Some(xs[|xs| - 1])
  }

  lemma UpsampledStep(xs: seq<real>, x: real, step: nat)
    requires 1 <= step <= 3
    ensures Upsampled(xs + [x], 3 * |xs| + step - 1)
            == Interpolated(if xs == [] then x else xs[|xs| - 1], x, step)
  {
    var m := 3 * |xs| + step - 1;
    assert m / 3 == |xs| && m % 3 == step - 1;
  }

  lemma AdvanceNone(denoiser: Denoiser, a: Adapter, out: seq<AudioChunk>, xs: seq<real>, m: nat)
    requires Tracks(denoiser, a, xs, m)
    ensures Advances(denoiser, a.ts.value, a.sq.value, out, xs, m, m, Ok((a, out)))
  {
    YieldNone(denoiser, a.ts.value, a.sq.value, out, xs, Released(m), a);
  }

  lemma {:induction false} AcceptFromTracks(denoiser: Denoiser, a: Adapter, out: seq<AudioChunk>, xs: seq<real>,
                                            x: real,
                                            p: real, step: nat)
    requires 1 <= step <= 4 && Shaped(a) && p == if xs == [] then x else xs[|xs| - 1]
    requires Tracks(denoiser, a, xs + [x], 3 * |xs| + step - 1)
    ensures Advances(denoiser, a.ts.value, a.sq.value, out, xs + [x], 3 * |xs| + step - 1, 3 * |xs| + 3,
                     AcceptFrom(denoiser, a, out, p, x, step))
    decreases 4 - step
  {
    hide PushStep, Upsampled, CleanRange, Buffers, Outputs, Due, Released;
    var ys, m, n := xs + [x], 3 * |xs| + step - 1, 3 * |xs| + 3;
    if step > 3 {
      AdvanceNone(denoiser, a, out, ys, m);
    } else {
      UpsampledStep(xs, x, step);
      var v := Interpolated(p, x, step);
      PushTracks(denoiser, a, out, ys, m);
      var r1 := PushStep(denoiser, a, out, v);
      assert Advances(denoiser, a.ts.value, a.sq.value, out, ys, m, m + 1, r1);
      if r1.Err? {
        AdvanceFails(denoiser, a.ts.value, a.sq.value, out, ys, m, m + 1, n, r1);
      } else {
        AcceptFromTracks(denoiser, r1.value.0, r1.value.1, xs, x, p, step + 1);
        var r2 := AcceptFrom(denoiser, r1.value.0, r1.value.1, p, x, step + 1);
        AdvanceJoins(denoiser, a.ts.value, a.sq.value, out, ys, m, m + 1, n, r1, r2);
      }
    }
  }

  lemma AcceptTracks(denoiser: Denoiser, a: Adapter, out: seq<AudioChunk>, xs: seq<real>, x: real)
    requires Shaped(a) && Current(denoiser, a, xs)
    ensures var r := AcceptStep(denoiser, a, out, x);
            && Advances(denoiser, a.ts.value, a.sq.value, out, xs + [x], 3 * |xs|, 3 * |xs + [x]|, r)
            && (r.Ok? ==> Current(denoiser, r.value.0, xs + [x]))
  {
    TracksStable(denoiser, a, xs, xs + [x]);
    AcceptFromTracks(denoiser, a, out, xs, x, if xs == [] then x else xs[|xs| - 1], 1);
  }

  lemma {:induction false} AcceptRunTracks(denoiser: Denoiser, a: Adapter, out: seq<AudioChunk>, xs: seq<real>,
                                           samples: seq<real>)
    requires Shaped(a) && Current(denoiser, a, xs)
    ensures var r := AcceptRun(denoiser, a, out, samples);
            && Advances(denoiser, a.ts.value, a.sq.value, out, xs + samples, 3 * |xs|, 3 * |xs + samples|, r)
            && (r.Ok? ==> Current(denoiser, r.value.0, xs + samples))
    decreases |samples|
  {
    hide AcceptStep, Upsampled, CleanRange, Buffers, Outputs, Due, Released;
    if samples == [] {
      assert xs + samples == xs;
      AdvanceNone(denoiser, a, out, xs, 3 * |xs|);
    } else {
      var x, rest := samples[0], samples[1..];
      var ys, all, ts, sq := xs + [x], xs + samples, a.ts.value, a.sq.value;
      assert all == ys + rest;
      AcceptTracks(denoiser, a, out, xs, x);
      var r1 := AcceptStep(denoiser, a, out, x);
      AdvanceStable(denoiser, ts, sq, out, ys, all, 3 * |xs|, r1);
      if r1.Err? {
        AdvanceFails(denoiser, ts, sq, out, all, 3 * |xs|, 3 * |ys|, 3 * |all|, r1);
      } else {
        AcceptRunTracks(denoiser, r1.value.0, r1.value.1, ys, rest);
        var r2 := AcceptRun(denoiser, r1.value.0, r1.value.1, rest);
        AdvanceJoins(denoiser, ts, sq, out, all, 3 * |xs|, 3 * |ys|, 3 * |all|, r1, r2);
      }
    }
  }

  lemma AdvanceStable(denoiser: Denoiser, ts: nat, sq: nat, out: seq<AudioChunk>, xs: seq<real>,
                      ys: seq<real>, m: nat, r: Outcome)
    requires xs <= ys && m <= 3 * |xs|
    requires Advances(denoiser, ts, sq, out, xs, m, 3 * |xs|, r)
    ensures Advances(denoiser, ts, sq, out, ys, m, 3 * |xs|, r)
  {
    var lo, hi := Released(m), Released(3 * |xs|);
    CleanStable(denoiser, xs, ys, ts, sq, lo, hi);
    OutputsStable(denoiser, xs, ys, hi);
    DueStable(denoiser, xs, ys, ts, sq, lo / 512, hi / 512);
    if r.Ok? {
      BuffersStable(r.value.0, xs, ys);
    }
  }

  lemma DueStable(denoiser: Denoiser, xs: seq<real>, ys: seq<real>, ts: nat, sq: nat, i: nat, j: nat)
    requires xs <= ys && i <= j && 512 * j <= Released(3 * |xs|)
    ensures Due(denoiser, xs, ts, sq, i, j) == Due(denoiser, ys, ts, sq, i, j)
  {
    var n := 512 * j;
    DueIs(denoiser, xs, n, ts, sq, i, j);
    DueIs(denoiser, ys, n, ts, sq, i, j);
    OutputsStable(denoiser, xs, ys, n);
  }

  /** The partial frame, zero-filled, is the next frame of the closed form. */
  lemma PaddedFrame(a: Adapter, xs: seq<real>)
    requires Shaped(a) && Buffers(a, xs, 3 * |xs|)
    ensures a.frame + Zeros(480 - |a.frame|) == FrameAt(xs, |xs| / 160)
  {
    hide Upsampled, Fed;
    var k, n := |xs| / 160, |a.frame|;
    FrameCount(|xs|);
    assert 3 * |xs| == 480 * k + n;
    var padded, whole := a.frame + Zeros(480 - n), FrameAt(xs, k);
    forall j | 0 <= j < 480
      ensures padded[j] == whole[j]
    {
      PaddedElement(a, xs, k, j);
    }
  }

  lemma PaddedElement(a: Adapter, xs: seq<real>, k: nat, j: nat)
    requires Shaped(a) && Buffers(a, xs, 3 * |xs|) && 3 * |xs| == 480 * k + |a.frame| && j < 480
    ensures (a.frame + Zeros(480 - |a.frame|))[j] == Upsampled(xs, 480 * k + j)
  {
    if j < |a.frame| {
      assert 3 * |xs| - 3 * |xs| % 480 == 480 * k;
    } else {
      assert (a.frame + Zeros(480 - |a.frame|))[j] == Zeros(480 - |a.frame|)[j - |a.frame|];
    }
  }

  lemma FrameCount(n: nat)
    ensures 3 * n / 480 == n / 160 && 3 * n % 480 == 3 * (n % 160) && n == 160 * (n / 160) + n % 160
  {
  }

  lemma ReleasedBehind(n: nat)
    ensures Released(3 * n) == Behind(n / 160) <= n
  {
    FrameCount(n);
  }

  /** Draining yields every remaining output: in all, as many samples as went in. */
  lemma DrainTracks(denoiser: Denoiser, a: Adapter, xs: seq<real>)
    requires Shaped(a) && Tracks(denoiser, a, xs, 3 * |xs|)
    ensures Released(3 * |xs|) <= |xs|
    ensures Yields(denoiser, a.ts.value, a.sq.value, [], xs, Released(3 * |xs|), |xs|, DrainStep(denoiser, a))
  {
    ReleasedBehind(|xs|);
    if |a.frame| == 0 {
      DrainWhole(denoiser, a, xs, |xs| / 160);
    } else {
      DrainPartial(denoiser, a, xs, |xs| / 160);
    }
  }

  lemma DrainWhole(denoiser: Denoiser, a: Adapter, xs: seq<real>, k: nat)
    requires Shaped(a) && Tracks(denoiser, a, xs, 3 * |xs|) && |a.frame| == 0 && k == |xs| / 160
    ensures Released(3 * |xs|) <= |xs|
    ensures Yields(denoiser, a.ts.value, a.sq.value, [], xs, Released(3 * |xs|), |xs|, DrainStep(denoiser, a))
  {
    hide Upsampled, CleanRange, Outputs, Due, FrameStep, FrameAt, OutputAt;
    ReleasedBehind(|xs|);
    FrameCount(|xs|);
    if k == 0 {
      YieldNone(denoiser, a.ts.value, a.sq.value, [], xs, 0, a);
    } else {
      SilentFrame(xs, k);
      FrameYields(denoiser, a, [], xs, k, 0);
    }
  }

  /** Where the adapter is after all of xs: k whole frames, and 3 * rest values in the frame buffer. */
  lemma AtEnd(denoiser: Denoiser, a: Adapter, xs: seq<real>, k: nat)
    requires Tracks(denoiser, a, xs, 3 * |xs|) && k == |xs| / 160
    ensures |a.frame| == 3 * (|xs| % 160) && a.history == Fed(xs, k)
    ensures Stages(a, Outputs(denoiser, xs, Behind(k))) && Behind(k) + a.pending == 160 * k == Behind(k + 1)
    ensures k == 0 ==> a.pending == 0
  {
    hide Upsampled, Outputs, Fed, Stages, Released;
    ReleasedBehind(|xs|);
    FrameCount(|xs|);
  }

  /** The zero-filled frame brings out what is owed, and then owes the last `rest` samples. */
  lemma PartialYields(denoiser: Denoiser, a: Adapter, xs: seq<real>, k: nat, rest: nat)
    requires Shaped(a) && Tracks(denoiser, a, xs, 3 * |xs|) && |a.frame| > 0 && k == |xs| / 160 && rest == |xs| % 160
    ensures Behind(k) <= 160 * k
    ensures var r := PartialStep(denoiser, a);
      && Yields(denoiser, a.ts.value, a.sq.value, [], xs, Behind(k), 160 * k, r)
      && (r.Ok? ==> r.value.0.history == Fed(xs, k + 1) && r.value.0.pending == rest > 0)
  {
    hide Outputs, FrameStep, FrameAt, Fed, Yields, Stages, Buffers, Behind, Zeros;
    AtEnd(denoiser, a, xs, k);
    PaddedFrame(a, xs);
    var b := a.(frame := []);
    FramelessStages(a, Outputs(denoiser, xs, Behind(k)));
    FrameYields(denoiser, b, [], xs, k, rest);
  }

  lemma FramelessStages(a: Adapter, output: seq<Sample>)
    requires Stages(a, output)
    ensures Stages(a.(frame := []), output) && a.ts.Some? && a.sq.Some?
  {
  }

  lemma DrainPartial(denoiser: Denoiser, a: Adapter, xs: seq<real>, k: nat)
    requires Shaped(a) && Tracks(denoiser, a, xs, 3 * |xs|) && |a.frame| > 0 && k == |xs| / 160
    ensures Released(3 * |xs|) <= |xs|
    ensures Yields(denoiser, a.ts.value, a.sq.value, [], xs, Released(3 * |xs|), |xs|, DrainStep(denoiser, a))
  {
    hide CleanRange, Outputs, Due, Released, Fed, OwedStep, PartialStep, Buffers, Stages, Behind;
    ReleasedBehind(|xs|);
    FrameCount(|xs|);
    AtEnd(denoiser, a, xs, k);
    FramelessStages(a, Outputs(denoiser, xs, Behind(k)));
    var rest, ts, sq := |xs| % 160, a.ts.value, a.sq.value;
    PartialYields(denoiser, a, xs, k, rest);
    var r1 := PartialStep(denoiser, a);
    if r1.Err? {
      YieldFails(denoiser, ts, sq, [], xs, Behind(k), 160 * k, |xs|, r1);
    } else {
      OwedYields(denoiser, r1.value.0, r1.value.1, xs, k, rest);
      YieldJoins(denoiser, ts, sq, [], xs, Behind(k), 160 * k, |xs|, r1, OwedStep(denoiser, r1.value.0, r1.value.1));
    }
  }

  /** The closing silent frame brings out the last `rest` samples. */
  lemma OwedYields(denoiser: Denoiser, a: Adapter, out: seq<AudioChunk>, xs: seq<real>, k: nat, rest: nat)
    requires Shaped(a) && 0 < rest == a.pending && |xs| == 160 * k + rest
    requires a.history == Fed(xs, k + 1) && Stages(a, Outputs(denoiser, xs, 160 * k))
    ensures Yields(denoiser, a.ts.value, a.sq.value, out, xs, 160 * k, |xs|, OwedStep(denoiser, a, out))
  {
    hide Upsampled, CleanRange, Outputs, Due, FrameStep, FrameAt, OutputAt;
    SilentFrame(xs, k + 1);
    FrameYields(denoiser, a, out, xs, k + 1, 0);
  }

  lemma SilentFrame(xs: seq<real>, k: nat)
    requires 480 * k >= 3 * |xs|
    ensures FrameAt(xs, k) == Silence()
  {
    forall j | 0 <= j < 480
      ensures FrameAt(xs, k)[j] == Silence()[j]
    {
      assert Upsampled(xs, 480 * k + j) == 0.0;
    }
  }

  // ------------------------------------------------------------------ a whole session

  lemma {:induction false} InputLength(chunks: seq<AudioChunk>)
    requires forall c | c in chunks :: Acceptable(c)
    ensures |Input(chunks)| == 512 * |chunks|
    decreases |chunks|
  {
    if chunks != [] {
      assert chunks[|chunks| - 1] in chunks;
      InputLength(chunks[..|chunks| - 1]);
    }
  }

  lemma ChunkOutStable(denoiser: Denoiser, xs: seq<real>, ys: seq<real>, ts: nat, sq: nat, k: nat)
    requires xs <= ys && 512 * (k + 1) <= Released(3 * |xs|)
    ensures ChunkOut(denoiser, xs, ts, sq, k) == ChunkOut(denoiser, ys, ts, sq, k)
  {
    forall i: nat | 512 * k <= i < 512 * k + 512
      ensures OutputAt(denoiser, xs, i) == OutputAt(denoiser, ys, i)
    {
      OutputStable(denoiser, xs, ys, i);
    }
    var x, y := ChunkOut(denoiser, xs, ts, sq, k).samples, ChunkOut(denoiser, ys, ts, sq, k).samples;
    forall j | 0 <= j < 512
      ensures x[j] == y[j]
    {
      assert OutputAt(denoiser, xs, 512 * k + j) == OutputAt(denoiser, ys, 512 * k + j);
    }
    assert x == y;
  }

  /** What call i of a session returns: nothing the first time, then always exactly the chunk before. */
  function Returned(denoiser: Denoiser, xs: seq<real>, ts: nat, sq: nat, i: nat): seq<AudioChunk> {
    if i == 0 then [] else [ChunkOut(denoiser, xs, ts, sq, i - 1)]
  }

  ghost predicate CallsAs(denoiser: Denoiser, chunks: seq<AudioChunk>, r: Result<Session>)
    requires chunks != []
  {
    var xs, ts, sq := Input(chunks), chunks[0].timestampNs, chunks[0].sequenceId;
    && (r.Ok? <==> CleanRange(denoiser, xs, ts, sq, 0, Released(3 * |xs|)))
    && (r.Err? ==> r.error == BackendError)
    && (r.Ok? ==>
          && Current(denoiser, r.value.adapter, xs)
          && r.value.adapter.ts == Some(ts) && r.value.adapter.sq == Some(sq)
          && |r.value.returned| == |chunks|
          && forall i | 0 <= i < |chunks| :: r.value.returned[i] == Returned(denoiser, xs, ts, sq, i))
  }

  /** For every number of chunks: one chunk of latency, then one chunk out for every chunk in. */
  lemma {:induction false} CallsLaw(denoiser: Denoiser, chunks: seq<AudioChunk>)
    requires chunks != [] && forall c | c in chunks :: Acceptable(c)
    ensures CallsAs(denoiser, chunks, Calls(denoiser, chunks))
    decreases |chunks|
  {
    hide CallsAs, NextCall, Acceptable;
    var n := |chunks| - 1;
    var before, last := chunks[..n], chunks[n];
    assert last in chunks;
    if n == 0 {
      assert chunks == [last];
      CallsFirst(denoiser, last);
    } else {
      CallsLaw(denoiser, before);
      CallsNext(denoiser, before, last, Calls(denoiser, before));
      assert chunks == before + [last];
    }
  }

  /** Before any sample, on the first chunk's stamps. */
  lemma FreshTracks(denoiser: Denoiser, first: AudioChunk)
    ensures Shaped(Stamped(FreshAdapter(), first)) && Current(denoiser, Stamped(FreshAdapter(), first), [])
  {
    assert Fed([], 0) == [Silence()];
  }

  lemma CallsFirst(denoiser: Denoiser, first: AudioChunk)
    requires Acceptable(first)
    ensures CallsAs(denoiser, [first], Calls(denoiser, [first]))
  {
    hide Current, AcceptRun, Due, Fed, CleanRange;
    var a, samples := Stamped(FreshAdapter(), first), Clipped(first.samples);
    FreshTracks(denoiser, first);
    AcceptRunTracks(denoiser, a, [], [], samples);
    assert [first][..0] == [] && Input([]) == [] && [] + samples == samples;
    assert Input([first]) == samples && |samples| == 512;
    ReleasedChunks(1);
    NothingDue(denoiser, samples, a.ts.value, a.sq.value);
    assert Calls(denoiser, []) == Ok(Session(FreshAdapter(), []));
  }

  lemma NothingDue(denoiser: Denoiser, xs: seq<real>, ts: nat, sq: nat)
    ensures Due(denoiser, xs, ts, sq, 0, 0) == []
  {
  }

  /** What the calls returned so far is what it would be for the longer input. */
  lemma ReturnedStable(denoiser: Denoiser, xs: seq<real>, ys: seq<real>, ts: nat, sq: nat, i: nat, n: nat)
    requires xs <= ys && |xs| == 512 * n && i < n
    ensures Returned(denoiser, xs, ts, sq, i) == Returned(denoiser, ys, ts, sq, i)
  {
    hide ChunkOut, Released;
    ReleasedChunks(n);
    if i > 0 {
      ChunkOutStable(denoiser, xs, ys, ts, sq, i - 1);
    }
  }

  lemma InputNext(before: seq<AudioChunk>, last: AudioChunk)
    requires (forall c | c in before :: Acceptable(c)) && Acceptable(last)
    ensures Input(before + [last]) == Input(before) + Clipped(last.samples)
    ensures |Input(before)| == 512 * |before| && |Input(before + [last])| == 512 * (|before| + 1)
  {
    assert (before + [last])[..|before|] == before;
    InputLength(before);
  }

  /** One more chunk finishes the chunk before. */
  lemma OneMoreDue(denoiser: Denoiser, ys: seq<real>, ts: nat, sq: nat, n: nat)
    requires n > 0
    ensures Released(3 * (512 * n)) <= Released(3 * (512 * (n + 1)))
    ensures Due(denoiser, ys, ts, sq, Released(3 * (512 * n)) / 512, Released(3 * (512 * (n + 1))) / 512)
      == Returned(denoiser, ys, ts, sq, n)
  {
    hide ChunkOut, Released, Due;
    ReleasedMono(3 * (512 * n), 3 * (512 * (n + 1)));
    ReleasedChunks(n);
    ReleasedChunks(n + 1);
    DueOne(denoiser, ys, ts, sq, n - 1);
  }

  /** The next chunk after a successful session so far. */
  lemma StepNext(denoiser: Denoiser, s: Session, chunk: AudioChunk, xs: seq<real>, ts: nat, sq: nat, n: nat)
    requires Shaped(s.adapter) && Current(denoiser, s.adapter, xs) && |xs| == 512 * n && n > 0 && Acceptable(chunk)
    requires s.adapter.ts == Some(ts) && s.adapter.sq == Some(sq)
    ensures var r, ys := NextCall(denoiser, s, chunk), xs + Clipped(chunk.samples);
      && (r.Ok? <==> CleanRange(denoiser, ys, ts, sq, Released(3 * |xs|), Released(3 * |ys|)))
      && (r.Err? ==> r.error == BackendError)
      && (r.Ok? ==>
            && Current(denoiser, r.value.adapter, ys)
            && r.value.adapter.ts == Some(ts) && r.value.adapter.sq == Some(sq)
            && r.value.returned == s.returned + [Returned(denoiser, ys, ts, sq, n)])
  {
    hide Due, AcceptRun, Current, CleanRange, Released, Returned, Stages, Shaped;
    var more := Clipped(chunk.samples);
    assert |xs + more| == 512 * (n + 1) && Stamped(s.adapter, chunk) == s.adapter;
    AcceptRunTracks(denoiser, s.adapter, [], xs, more);
    OneMoreDue(denoiser, xs + more, ts, sq, n);
    assert [] + Returned(denoiser, xs + more, ts, sq, n) == Returned(denoiser, xs + more, ts, sq, n);
  }

  lemma CallsNext(denoiser: Denoiser, before: seq<AudioChunk>, last: AudioChunk, r: Result<Session>)
    requires before != [] && (forall c | c in before :: Acceptable(c)) && Acceptable(last)
    requires r.Ok? ==> Shaped(r.value.adapter)
    requires CallsAs(denoiser, before, r)
    ensures CallsAs(denoiser, before + [last], if r.Err? then r else NextCall(denoiser, r.value, last))
  {
    hide Current, Clipped, CleanRange, Returned, Released, Shaped, Input, NextCall, Acceptable;
    var ts, sq, n := before[0].timestampNs, before[0].sequenceId, |before|;
    var xs, ys := Input(before), Input(before + [last]);
    InputNext(before, last);
    var lo, hi := Released(3 * |xs|), Released(3 * |ys|);
    ReleasedMono(3 * |xs|, 3 * |ys|);
    CleanStable(denoiser, xs, ys, ts, sq, 0, lo);
    CleanJoin(denoiser, ys, ts, sq, 0, lo, hi);
    if r.Ok? {
      StepNext(denoiser, r.value, last, xs, ts, sq, n);
      forall i | 0 <= i < n
        ensures r.value.returned[i] == Returned(denoiser, ys, ts, sq, i)
      {
        ReturnedStable(denoiser, xs, ys, ts, sq, i, n);
      }
    }
  }

  /** Flush after n chunks returns exactly the last one, and needs no padding; after none, nothing. */
  lemma FlushLaw(denoiser: Denoiser, chunks: seq<AudioChunk>)
    requires forall c | c in chunks :: Acceptable(c)
    requires Calls(denoiser, chunks).Ok?
    ensures var r, xs := FlushStep(denoiser, Calls(denoiser, chunks).value.adapter), Input(chunks);
            if chunks == [] then r.Ok? && r.value.1 == []
            else
              var ts, sq := chunks[0].timestampNs, chunks[0].sequenceId;
              && (r.Ok? <==> CleanRange(denoiser, xs, ts, sq, Released(3 * |xs|), |xs|))
              && (r.Err? ==> r.error == BackendError)
              && (r.Ok? ==> r.value.1 == [ChunkOut(denoiser, xs, ts, sq, |chunks| - 1)])
    ensures var drained := DrainStep(denoiser, Calls(denoiser, chunks).value.adapter);
            drained.Ok? ==> drained.value.0.staged == []
  {
    if chunks != [] {
      var xs, n := Input(chunks), |chunks|;
      var ts, sq := chunks[0].timestampNs, chunks[0].sequenceId;
      CallsLaw(denoiser, chunks);
      var a := Calls(denoiser, chunks).value.adapter;
      InputLength(chunks);
      ReleasedChunks(n);
      DrainTracks(denoiser, a, xs);
      DueOne(denoiser, xs, ts, sq, n - 1);
      var r := DrainStep(denoiser, a);
      if r.Ok? {
        assert r.value.0.staged == [];
      }
    }
  }

  /** A session's chunks in order: the calls' and the flush's. An error if any call or the flush fails. */
  function SessionOutput(denoiser: Denoiser, chunks: seq<AudioChunk>): Result<seq<AudioChunk>> {
    var r := Calls(denoiser, chunks);
    if r.Err? then Err(r.error)
    else
      var tail := FlushStep(denoiser, r.value.adapter);
      if tail.Err? then Err(tail.error) else Ok(Flat(r.value.returned) + tail.value.1)
  }

  /**
   * A whole session of n chunks succeeds exactly when all 512*n outputs are finite and all n stamps
   * fit, and then it outputs chunks 0..n-1 in order: as many samples out as in.
   */
  lemma SessionLaw(denoiser: Denoiser, chunks: seq<AudioChunk>)
    requires chunks != [] && forall c | c in chunks :: Acceptable(c)
    ensures var r, xs := SessionOutput(denoiser, chunks), Input(chunks);
            var ts, sq := chunks[0].timestampNs, chunks[0].sequenceId;
            && |xs| == 512 * |chunks|
            && (r.Ok? <==> Clean(denoiser, xs, ts, sq, |xs|))
            && (r.Ok? ==> r.value == seq(|chunks|, k requires k >= 0 => ChunkOut(denoiser, xs, ts, sq, k)))
  {
    var xs, ts, sq := Input(chunks), chunks[0].timestampNs, chunks[0].sequenceId;
    InputLength(chunks);
    CallsLaw(denoiser, chunks);
    ReleasedBehind(|xs|);
    SessionClean(denoiser, xs, ts, sq);
    var r := Calls(denoiser, chunks);
    if r.Ok? {
      FlushLaw(denoiser, chunks);
      FlatReturned(denoiser, xs, ts, sq, r.value.returned);
      AllChunks(denoiser, xs, ts, sq, |chunks|);
    }
  }

  lemma AllChunks(denoiser: Denoiser, xs: seq<real>, ts: nat, sq: nat, n: nat)
    requires n > 0
    ensures seq(n - 1, k requires k >= 0 => ChunkOut(denoiser, xs, ts, sq, k)) + [ChunkOut(denoiser, xs, ts, sq, n - 1)]
            == seq(n, k requires k >= 0 => ChunkOut(denoiser, xs, ts, sq, k))
  {
  }

  lemma SessionClean(denoiser: Denoiser, xs: seq<real>, ts: nat, sq: nat)
    requires Released(3 * |xs|) <= |xs|
    ensures Clean(denoiser, xs, ts, sq, |xs|)
            <==> && CleanRange(denoiser, xs, ts, sq, 0, Released(3 * |xs|))
                 && CleanRange(denoiser, xs, ts, sq, Released(3 * |xs|), |xs|)
  {
    CleanJoin(denoiser, xs, ts, sq, 0, Released(3 * |xs|), |xs|);
  }

  function Flat(calls: seq<seq<AudioChunk>>): seq<AudioChunk> {
    if calls == [] then [] else Flat(calls[..|calls| - 1]) + calls[|calls| - 1]
  }

  lemma {:induction false} FlatReturned(denoiser: Denoiser, xs: seq<real>, ts: nat, sq: nat,
                                        calls: seq<seq<AudioChunk>>)
    requires calls != []
    requires forall i | 0 <= i < |calls| :: calls[i] == Returned(denoiser, xs, ts, sq, i)
    ensures Flat(calls) == seq(|calls| - 1, k requires k >= 0 => ChunkOut(denoiser, xs, ts, sq, k))
    decreases |calls|
  {
    if |calls| == 1 {
      assert calls[..0] == [];
    } else {
      FlatReturned(denoiser, xs, ts, sq, calls[..|calls| - 1]);
    }
  }
}
