// crates/liveaudio-audio/src/cpal_source.rs: the DSP worker, from mono batches to delivered chunks.
module Dsp {
  import opened Arith
  import opened Audio
  import opened Resampler
  import opened RnnoiseFrames
  import opened RnnoiseAdapter
  import opened RnnoiseLaws
  import opened Rnnoise

  /** Everything the resampler makes of the batches, from cursor c on. */
  function Resampled(inRate: nat, target: nat, c: Cursor, batches: seq<seq<Sample>>): seq<Sample>
    requires inRate > 0 && CursorOk(c, target)
    decreases |batches|
  {
    if batches == [] then []
    else StepOutput(inRate, target, c, batches[0])
         + Resampled(inRate, target, StepCursor(inRate, target, c, batches[0]), batches[1..])
  }

  /** At different rates the worker's stream is the resampled stream the drift and batching laws speak of. */
  lemma {:induction false} ResampledIsStream(inRate: nat, target: nat, c: Cursor, batches: seq<seq<Sample>>)
    requires inRate > 0 && CursorOk(c, target) && inRate != target
    ensures Resampled(inRate, target, c, batches) == StreamOutput(inRate, target, c, batches)
    decreases |batches|
  {
    hide BatchOutput, BatchCursor;
    if batches != [] {
      ResampledIsStream(inRate, target, BatchCursor(inRate, target, c, batches[0]), batches[1..]);
    }
  }

  /** At equal rates it is the captured stream itself. */
  lemma {:induction false} EqualRatesPass(rate: nat, c: Cursor, batches: seq<seq<Sample>>)
    requires rate > 0 && CursorOk(c, rate)
    ensures Resampled(rate, rate, c, batches) == Concat(batches)
    decreases |batches|
  {
    if batches != [] {
      EqualRatesPass(rate, c, batches[1..]);
    }
  }

  /** Padding adds fewer than 512 zeros, up to a whole number of chunks. */
  lemma PaddedWithZeros(s: seq<Sample>)
    ensures s <= Padded(s) && |Padded(s)| % 512 == 0 && |Padded(s)| < |s| + 512
    ensures forall i | |s| <= i < |Padded(s)| :: Padded(s)[i] == Finite(0.0)
  {
  }

  function Padding(n: nat): nat {
    if n % 512 == 0 then 0 else 512 - n % 512
  }

  function Padded(s: seq<Sample>): seq<Sample> {
    s + seq(Padding(|s|), _ => Finite(0.0))
  }

  /** The chunks of a resampled stream, the last one zero-padded. */
  function Framed(s: seq<Sample>, clock: nat -> nat): (r: seq<AudioChunk>)
    ensures |r| == CeilDiv(|s|, 512)
  {
    ChunksBetween(Padded(s), 512, 16000, clock, 0, CeilDiv(|s|, 512))
  }

  lemma PaddedLength(s: seq<Sample>)
    ensures |Padded(s)| == 512 * CeilDiv(|s|, 512)
  {
  }

  /** Chunks framed from a prefix of the stream are the first chunks of the whole. */
  lemma FramedPrefix(part: seq<Sample>, s: seq<Sample>, clock: nat -> nat, n: nat)
    requires part <= s && 512 * n <= |part|
    ensures n <= |Framed(s, clock)|
    ensures ChunksBetween(part, 512, 16000, clock, 0, n) == Framed(s, clock)[..n]
  {
    PaddedLength(s);
    var whole := Padded(s);
    assert part <= whole;
    assert whole == part + whole[|part|..];
    ChunksStable(part, whole[|part|..], 512, 16000, clock, 0, n);
    ChunksJoin(whole, 512, 16000, clock, 0, n, CeilDiv(|s|, 512));
  }

  /** Chunk k of the framed stream, and when RNNoise accepts it. */
  lemma FramedAt(s: seq<Sample>, clock: nat -> nat, k: nat)
    requires k < |Framed(s, clock)|
    ensures 512 * k + 512 <= |Padded(s)|
    ensures Acceptable(Framed(s, clock)[k]) <==> AllFinite(Padded(s)[512 * k..512 * k + 512])
  {
    PaddedLength(s);
    assert Framed(s, clock)[k].samples == Padded(s)[k * 512..k * 512 + 512];
  }

  lemma PaddedFinite(s: seq<Sample>, k: nat)
    requires AllFinite(s) && 512 * k + 512 <= |Padded(s)|
    ensures AllFinite(Padded(s)[512 * k..512 * k + 512])
  {
  }

  lemma PaddedNonFinite(s: seq<Sample>, i: nat)
    requires i < |s| && !s[i].Finite?
    ensures var k := i / 512; 512 * k + 512 <= |Padded(s)| && !AllFinite(Padded(s)[512 * k..512 * k + 512])
  {
    PaddedLength(s);
    var k := i / 512;
    assert Padded(s)[512 * k..512 * k + 512][i - 512 * k] == s[i];
  }

  /** Every framed chunk has RNNoise's format; it is refused only for a non-finite sample. */
  lemma FramedAcceptable(s: seq<Sample>, clock: nat -> nat)
    ensures (forall k | 0 <= k < |Framed(s, clock)| :: Acceptable(Framed(s, clock)[k])) <==> AllFinite(s)
  {
    hide Framed, Acceptable, Padded;
    PaddedLength(s);
    var chunks := Framed(s, clock);
    if AllFinite(s) {
      forall k | 0 <= k < |chunks|
        ensures Acceptable(chunks[k])
      {
        FramedAt(s, clock, k);
        PaddedFinite(s, k);
      }
    } else {
      var i :| 0 <= i < |s| && !s[i].Finite?;
      PaddedNonFinite(s, i);
      FramedAt(s, clock, i / 512);
      assert !Acceptable(chunks[i / 512]);
    }
  }

  /** The framed chunks, end to end, are the padded stream; their ids count up from 1. */
  lemma FramedIsStream(s: seq<Sample>, clock: nat -> nat)
    ensures SamplesOf(Framed(s, clock)) == Padded(s)
    ensures forall k | 0 <= k < |Framed(s, clock)| :: Framed(s, clock)[k].sequenceId == k + 1
  {
    PaddedLength(s);
    var n := CeilDiv(|s|, 512);
    ChunksAreStream(Padded(s), 512, 16000, clock, n);
    assert Padded(s)[..n * 512] == Padded(s);
  }

  // ------------------------------------------------------------------ the worker

  /** The whole chain succeeds on these chunks: all pass the format guard and the session has no failure. */
  ghost predicate Delivers(denoiser: Denoiser, chunks: seq<AudioChunk>) {
    (forall k | 0 <= k < |chunks| :: Acceptable(chunks[k])) && SessionOutput(denoiser, chunks).Ok?
  }

  lemma {:induction false} CallsPrefixFails(denoiser: Denoiser, chunks: seq<AudioChunk>, n: nat)
    requires n <= |chunks| && Calls(denoiser, chunks[..n]).Err?
    ensures Calls(denoiser, chunks).Err?
    decreases |chunks|
  {
    if n == |chunks| {
      assert chunks[..n] == chunks;
    } else {
      var before := chunks[..|chunks| - 1];
      assert before[..n] == chunks[..n];
      CallsPrefixFails(denoiser, before, n);
    }
  }

  /** The processor after the first n chunks, and what the calls returned. */
  ghost predicate Worked(processor: RnnoiseProcessor, chunks: seq<AudioChunk>, n: nat, sent: seq<AudioChunk>)
    reads processor, processor.inputFrame, processor.outputStaging
  {
    && processor.Valid() && !processor.failed && !processor.flushed
    && n <= |chunks|
    && (forall k | 0 <= k < n :: Acceptable(chunks[k]))
    && Calls(processor.denoiser, chunks[..n]).Ok?
    && Calls(processor.denoiser, chunks[..n]).value.adapter == processor.State()
    && Flat(Calls(processor.denoiser, chunks[..n]).value.returned) == sent
  }

  /** One more chunk through RNNoise; any error fails the capture for good. */
  method ProcessCaptured(chunk: AudioChunk, processor: RnnoiseProcessor, sent: seq<AudioChunk>,
                         ghost chunks: seq<AudioChunk>, ghost n: nat)
    returns (captureFailed: bool, sent': seq<AudioChunk>)
    requires Worked(processor, chunks, n, sent) && n < |chunks| && chunk == chunks[n]
    modifies processor, processor.inputFrame, processor.outputStaging
    ensures if captureFailed then !Delivers(processor.denoiser, chunks)
            else Worked(processor, chunks, n + 1, sent')
  {
    hide AcceptRun, ProcessStep, FlushStep;
    var r := processor.Process(chunk);
    assert chunks[..n + 1][..n] == chunks[..n] && chunks[..n + 1][n] == chunk;
    if r.Err? {
      if Acceptable(chunk) {
        CallsPrefixFails(processor.denoiser, chunks, n + 1);
      }
      return true, sent;
    }
    ghost var calls := Calls(processor.denoiser, chunks[..n + 1]).value.returned;
    assert calls[..|calls| - 1] == Calls(processor.denoiser, chunks[..n]).value.returned;
    return false, sent + r.value;
  }

  /** The chunks one resampler call returned, in order, until the first failure. */
  method ProcessAll(ready: seq<AudioChunk>, processor: RnnoiseProcessor, sent: seq<AudioChunk>,
                    ghost chunks: seq<AudioChunk>, ghost n: nat)
    returns (captureFailed: bool, sent': seq<AudioChunk>)
    requires Worked(processor, chunks, n, sent) && n + |ready| <= |chunks| && ready == chunks[n..n + |ready|]
    modifies processor, processor.inputFrame, processor.outputStaging
    ensures if captureFailed then !Delivers(processor.denoiser, chunks)
            else Worked(processor, chunks, n + |ready|, sent')
  {
    hide Delivers, Worked;
    captureFailed, sent' := false, sent;
    for i := 0 to |ready|
      invariant !captureFailed && Worked(processor, chunks, n + i, sent')
    {
      assert ready[i] == chunks[n + i];
      captureFailed, sent' := ProcessCaptured(ready[i], processor, sent', chunks, n + i);
      if captureFailed {
        return;
      }
    }
  }

  /** One batch: what the resampler makes of it, then its ready chunks through RNNoise. */
  method ProcessBatch(resampler: AudioResampler, processor: RnnoiseProcessor, batch: seq<Sample>, sent: seq<AudioChunk>,
                      ghost all: seq<Sample>, ghost rest: seq<Sample>)
    returns (captureFailed: bool, sent': seq<AudioChunk>)
    requires resampler.Valid() && resampler.targetRate == 16000 && resampler.chunkSize == 512
    requires |resampler.accumulated| < 512
    requires all == resampler.stream + StepOutput(resampler.inputRate, 16000, resampler.State(), batch) + rest
    requires Worked(processor, Framed(all, resampler.clock), resampler.sequenceId, sent)
    modifies resampler, processor, processor.inputFrame, processor.outputStaging
    ensures resampler.Valid() && |resampler.accumulated| < 512
    ensures resampler.stream
            == old(resampler.stream) + StepOutput(resampler.inputRate, 16000, old(resampler.State()), batch)
    ensures resampler.State() == StepCursor(resampler.inputRate, 16000, old(resampler.State()), batch)
    ensures if captureFailed then !Delivers(processor.denoiser, Framed(all, resampler.clock))
            else Worked(processor, Framed(all, resampler.clock), resampler.sequenceId, sent')
  {
    hide Delivers, Worked, Framed, StepOutput, StepCursor, ChunksBetween;
    ghost var n := resampler.sequenceId;
    var ready := resampler.ProcessMonoSamples(batch);
    StreamBounds(resampler);
    ReadyChunks(resampler.stream, all, resampler.clock, n, resampler.sequenceId);
    captureFailed, sent' := ProcessAll(ready, processor, sent, Framed(all, resampler.clock), n);
  }

  /**
   * The worker with RNNoise: resample each batch, denoise each ready chunk, and at the end flush the
   * resampler first and RNNoise after it. Capture fails exactly when the chain cannot deliver the
   * whole framed stream; otherwise everything it outputs was sent.
   */
  method RunWithRnnoise(resampler: AudioResampler, processor: RnnoiseProcessor, batches: seq<seq<Sample>>)
    returns (captureFailed: bool, sent: seq<AudioChunk>)
    requires resampler.Valid() && resampler.stream == [] && resampler.sequenceId == 0
    requires resampler.targetRate == 16000 && resampler.chunkSize == 512
    requires processor.Valid() && !processor.failed && !processor.flushed && processor.State() == FreshAdapter()
    modifies resampler, processor, processor.inputFrame, processor.outputStaging
    ensures var s := Resampled(resampler.inputRate, 16000, old(resampler.State()), batches);
            var chunks := Framed(s, resampler.clock);
            && (captureFailed <==> !Delivers(processor.denoiser, chunks))
            && (!captureFailed ==> Ok(sent) == SessionOutput(processor.denoiser, chunks))
  {
    hide Delivers, Worked, Resampled, Framed, StepOutput, StepCursor, SessionOutput;
    ghost var all := Resampled(resampler.inputRate, 16000, resampler.State(), batches);
    captureFailed, sent := false, [];
    NothingYet(processor, Framed(all, resampler.clock));
    NoBatches(resampler.inputRate, 16000, resampler.State(), batches, all);
    for b := 0 to |batches|
      invariant resampler.Valid() && |resampler.accumulated| < 512 && !captureFailed
      invariant all == resampler.stream + Resampled(resampler.inputRate, 16000, resampler.State(), batches[b..])
      invariant Worked(processor, Framed(all, resampler.clock), resampler.sequenceId, sent)
    {
      NextBatch(resampler.inputRate, 16000, resampler.State(), resampler.stream, batches, b);
      ghost var next := StepCursor(resampler.inputRate, 16000, resampler.State(), batches[b]);
      ghost var rest := Resampled(resampler.inputRate, 16000, next, batches[b + 1..]);
      captureFailed, sent := ProcessBatch(resampler, processor, batches[b], sent, all, rest);
      if captureFailed {
        return;
      }
    }
    NoMoreBatches(resampler.inputRate, 16000, resampler.State(), batches, resampler.stream);
    captureFailed, sent := Finish(resampler, processor, sent, all);
  }

  lemma NothingYet(processor: RnnoiseProcessor, chunks: seq<AudioChunk>)
    requires processor.Valid() && !processor.failed && !processor.flushed && processor.State() == FreshAdapter()
    ensures Worked(processor, chunks, 0, [])
  {
    assert chunks[..0] == [];
  }

  lemma NoBatches(inRate: nat, target: nat, c: Cursor, batches: seq<seq<Sample>>, all: seq<Sample>)
    requires inRate > 0 && CursorOk(c, target) && all == Resampled(inRate, target, c, batches)
    ensures all == [] + Resampled(inRate, target, c, batches[0..])
  {
    assert batches[0..] == batches;
  }

  lemma NoMoreBatches(inRate: nat, target: nat, c: Cursor, batches: seq<seq<Sample>>, done: seq<Sample>)
    requires inRate > 0 && CursorOk(c, target)
    ensures done + Resampled(inRate, target, c, batches[|batches|..]) == done
  {
  }

  /** The next batch moves its share of the stream from what is to come to what is done. */
  lemma NextBatch(inRate: nat, target: nat, c: Cursor, done: seq<Sample>, batches: seq<seq<Sample>>, b: nat)
    requires inRate > 0 && CursorOk(c, target) && b < |batches|
    ensures done + Resampled(inRate, target, c, batches[b..])
            == done + StepOutput(inRate, target, c, batches[b])
               + Resampled(inRate, target, StepCursor(inRate, target, c, batches[b]), batches[b + 1..])
  {
    assert batches[b..][1..] == batches[b + 1..];
  }

  lemma StreamBounds(resampler: AudioResampler)
    requires resampler.Valid() && resampler.chunkSize == 512
    ensures 512 * resampler.sequenceId <= |resampler.stream|
    ensures |resampler.accumulated| == |resampler.stream| - 512 * resampler.sequenceId
  {
  }

  lemma ReadyChunks(part: seq<Sample>, s: seq<Sample>, clock: nat -> nat, lo: nat, hi: nat)
    requires part <= s && lo <= hi && 512 * hi <= |part|
    ensures hi <= |Framed(s, clock)|
    ensures ChunksBetween(part, 512, 16000, clock, lo, hi) == Framed(s, clock)[lo..hi]
  {
    FramedPrefix(part, s, clock, hi);
    ChunksJoin(part, 512, 16000, clock, 0, lo, hi);
    var x := ChunksBetween(part, 512, 16000, clock, 0, hi);
    assert x[lo..] == ChunksBetween(part, 512, 16000, clock, lo, hi);
    assert Framed(s, clock)[..hi][lo..] == Framed(s, clock)[lo..hi];
  }

  /** The two-stage flush. */
  method Finish(resampler: AudioResampler, processor: RnnoiseProcessor, before: seq<AudioChunk>, ghost all: seq<Sample>)
    returns (captureFailed: bool, sent: seq<AudioChunk>)
    requires resampler.Valid() && resampler.targetRate == 16000 && resampler.chunkSize == 512
    requires |resampler.accumulated| < 512 && resampler.stream == all
    requires Worked(processor, Framed(all, resampler.clock), resampler.sequenceId, before)
    modifies resampler, processor, processor.inputFrame, processor.outputStaging
    ensures var chunks := Framed(all, resampler.clock);
            && (captureFailed <==> !Delivers(processor.denoiser, chunks))
            && (!captureFailed ==> Ok(sent) == SessionOutput(processor.denoiser, chunks))
  {
    hide AcceptRun, FlushStep;
    ghost var chunks, n := Framed(all, resampler.clock), resampler.sequenceId;
    captureFailed, sent := false, before;
    var last := resampler.Flush();
    FlushedChunk(all, resampler.clock, n, |all| - 512 * n);
    if last.Some? {
      captureFailed, sent := ProcessCaptured(last.value, processor, sent, chunks, n);
      if captureFailed {
        return;
      }
    }
    assert chunks[..|chunks|] == chunks;
    var tail := processor.Flush();
    if tail.Err? {
      return true, sent;
    }
    return false, sent + tail.value;
  }

  /** What is left after n whole chunks is the framed stream's last chunk, zero-padded. */
  lemma FlushedChunk(s: seq<Sample>, clock: nat -> nat, n: nat, rest: nat)
    requires |s| == 512 * n + rest && rest < 512
    ensures |Framed(s, clock)| == if rest == 0 then n else n + 1
    ensures rest > 0 ==> ChunkAt(s + seq(512 - rest, _ => Finite(0.0)), 512, 16000, clock, n) == Framed(s, clock)[n]
  {
    assert CeilDiv(|s|, 512) == if rest == 0 then n else n + 1;
    if rest > 0 {
      assert s + seq(512 - rest, _ => Finite(0.0)) == Padded(s);
    }
  }

  /** Without RNNoise every framed chunk is sent as it is. */
  method RunPlain(resampler: AudioResampler, batches: seq<seq<Sample>>) returns (sent: seq<AudioChunk>)
    requires resampler.Valid() && resampler.stream == [] && resampler.sequenceId == 0
    requires resampler.targetRate == 16000 && resampler.chunkSize == 512
    modifies resampler
    ensures sent == Framed(Resampled(resampler.inputRate, 16000, old(resampler.State()), batches), resampler.clock)
  {
    hide Resampled, Framed, StepOutput, StepCursor, ChunksBetween, ChunkAt;
    ghost var all := Resampled(resampler.inputRate, 16000, resampler.State(), batches);
    ghost var chunks := Framed(all, resampler.clock);
    sent := [];
    NoBatches(resampler.inputRate, 16000, resampler.State(), batches, all);
    for b := 0 to |batches|
      invariant resampler.Valid() && |resampler.accumulated| < 512
      invariant all == resampler.stream + Resampled(resampler.inputRate, 16000, resampler.State(), batches[b..])
      invariant resampler.sequenceId <= |chunks| && sent == chunks[..resampler.sequenceId]
    {
      ghost var n := resampler.sequenceId;
      NextBatch(resampler.inputRate, 16000, resampler.State(), resampler.stream, batches, b);
      var ready := resampler.ProcessMonoSamples(batches[b]);
      StreamBounds(resampler);
      ReadyChunks(resampler.stream, all, resampler.clock, n, resampler.sequenceId);
      sent := sent + ready;
    }
    ghost var n := resampler.sequenceId;
    NoMoreBatches(resampler.inputRate, 16000, resampler.State(), batches, resampler.stream);
    StreamBounds(resampler);
    FlushedChunk(all, resampler.clock, n, |all| - 512 * n);
    var last := resampler.Flush();
    if last.Some? {
      sent := sent + [last.value];
    }
  }

  // ------------------------------------------------------------------ what the chain delivers

  lemma {:induction false} InputIsClipped(chunks: seq<AudioChunk>)
    ensures Input(chunks) == Clipped(SamplesOf(chunks))
    decreases |chunks|
  {
    if chunks != [] {
      var n := |chunks| - 1;
      InputIsClipped(chunks[..n]);
      assert chunks == chunks[..n] + [chunks[n]];
      SamplesOfAppend(chunks[..n], [chunks[n]]);
      assert SamplesOf([chunks[n]]) == chunks[n].samples + SamplesOf([]);
      ClippedAppend(SamplesOf(chunks[..n]), chunks[n].samples);
    }
  }

  lemma ClippedAppend(a: seq<Sample>, b: seq<Sample>)
    ensures Clipped(a + b) == Clipped(a) + Clipped(b)
  {
  }

  /**
   * The RNNoise chain end to end on a resampled stream s: it fails exactly on a non-finite sample, a
   * non-finite denoiser answer or a stamp that does not fit; otherwise it outputs one chunk for each
   * 512 samples of the padded stream, chunk k being the closed form's, stamped k chunks after the first.
   */
  lemma ChainLaw(denoiser: Denoiser, s: seq<Sample>, clock: nat -> nat)
    ensures var chunks, xs, n := Framed(s, clock), Clipped(Padded(s)), CeilDiv(|s|, 512);
            && |xs| == 512 * n
            && (Delivers(denoiser, chunks) <==> AllFinite(s) && Clean(denoiser, xs, clock(1), 1, |xs|))
            && (Delivers(denoiser, chunks) ==>
                  SessionOutput(denoiser, chunks) == Ok(Due(denoiser, xs, clock(1), 1, 0, n)))
  {
    hide Framed, Clean, Delivers, SessionOutput, Due, Padded, Clipped;
    ChainInput(s, clock);
    if s == [] {
      ChainEmpty(denoiser, s, clock);
    } else {
      ChainChunks(denoiser, s, clock);
    }
  }

  lemma ChainInput(s: seq<Sample>, clock: nat -> nat)
    ensures |Clipped(Padded(s))| == 512 * CeilDiv(|s|, 512)
    ensures Input(Framed(s, clock)) == Clipped(Padded(s))
  {
    hide Framed;
    PaddedLength(s);
    FramedIsStream(s, clock);
    InputIsClipped(Framed(s, clock));
  }

  lemma ChainEmpty(denoiser: Denoiser, s: seq<Sample>, clock: nat -> nat)
    requires s == []
    ensures AllFinite(s) && Delivers(denoiser, Framed(s, clock)) && CeilDiv(|s|, 512) == 0
    ensures Clean(denoiser, Clipped(Padded(s)), clock(1), 1, |Clipped(Padded(s))|)
    ensures SessionOutput(denoiser, Framed(s, clock)) == Ok(Due(denoiser, Clipped(Padded(s)), clock(1), 1, 0, 0))
  {
    hide Framed, FlushStep;
    ChainInput(s, clock);
    FlushLaw(denoiser, []);
    assert Framed(s, clock) == [];
    assert Due(denoiser, Clipped(Padded(s)), clock(1), 1, 0, 0) == [];
  }

  lemma ChainChunks(denoiser: Denoiser, s: seq<Sample>, clock: nat -> nat)
    requires s != []
    ensures var chunks, xs, n := Framed(s, clock), Clipped(Padded(s)), CeilDiv(|s|, 512);
            && (Delivers(denoiser, chunks) <==> AllFinite(s) && Clean(denoiser, xs, clock(1), 1, |xs|))
            && (Delivers(denoiser, chunks) ==>
                  SessionOutput(denoiser, chunks) == Ok(Due(denoiser, xs, clock(1), 1, 0, n)))
  {
    hide Framed, Clean, SessionOutput, Due, Acceptable, Padded, Clipped, AllFinite, ChunkOut;
    var chunks := Framed(s, clock);
    ChainInput(s, clock);
    FramedAcceptable(s, clock);
    if AllFinite(s) {
      FirstFramed(s, clock);
      assert forall c | c in chunks :: Acceptable(c);
      SessionLaw(denoiser, chunks);
      DueAll(denoiser, Clipped(Padded(s)), clock(1), 1, |chunks|);
    }
  }

  lemma FirstFramed(s: seq<Sample>, clock: nat -> nat)
    requires s != []
    ensures Framed(s, clock) != [] && Framed(s, clock)[0].sequenceId == 1 && Framed(s, clock)[0].timestampNs == clock(1)
  {
  }

  lemma DueAll(denoiser: Denoiser, xs: seq<real>, ts: nat, sq: nat, n: nat)
    ensures Due(denoiser, xs, ts, sq, 0, n) == seq(n, k requires k >= 0 => ChunkOut(denoiser, xs, ts, sq, k))
  {
    hide ChunkOut;
  }

  lemma {:induction false} DelayedChunks(xs: seq<real>, ts: nat, n: nat)
    requires 512 * n <= |xs| && forall i | 0 <= i < |xs| :: -1.0 <= xs[i] <= 1.0
    ensures SamplesOf(Due(DelayLine(), xs, ts, 1, 0, n)) == PcmClipped(xs[..512 * n])
  {
    hide DelayLine, OutputAt, ChunkOut;
    if n == 0 {
      assert Due(DelayLine(), xs, ts, 1, 0, 0) == [];
      assert PcmClipped(xs[..0]) == [];
    } else {
      DelayedChunks(xs, ts, n - 1);
      DelayedNext(xs, ts, n - 1);
      assert xs[..512 * n] == xs[..512 * (n - 1)] + xs[512 * (n - 1)..512 * n];
      PcmClippedAppend(xs[..512 * (n - 1)], xs[512 * (n - 1)..512 * n]);
    }
  }

  lemma DelayedNext(xs: seq<real>, ts: nat, k: nat)
    requires 512 * (k + 1) <= |xs| && forall i | 0 <= i < |xs| :: -1.0 <= xs[i] <= 1.0
    ensures SamplesOf(Due(DelayLine(), xs, ts, 1, 0, k + 1))
            == SamplesOf(Due(DelayLine(), xs, ts, 1, 0, k)) + PcmClipped(xs[512 * k..512 * (k + 1)])
  {
    hide DelayLine, OutputAt, ChunkOut, PcmClipped, Due;
    DueJoin(DelayLine(), xs, ts, 1, 0, k, k + 1);
    DueOne(DelayLine(), xs, ts, 1, k);
    var last := ChunkOut(DelayLine(), xs, ts, 1, k);
    SamplesOfAppend(Due(DelayLine(), xs, ts, 1, 0, k), [last]);
    assert SamplesOf([last]) == last.samples + SamplesOf([]);
    DelayedChunk(xs, ts, k);
  }

  lemma DelayLineClean(xs: seq<real>, ts: nat, n: nat)
    requires |xs| == 512 * n && forall i | 0 <= i < |xs| :: -1.0 <= xs[i] <= 1.0
    ensures Clean(DelayLine(), xs, ts, 1, |xs|) <==> forall k: nat | k < n :: Stampable(ts, 1, k)
  {
    hide DelayLine, OutputAt, Stampable;
    forall i: nat | i < |xs|
      ensures OutputAt(DelayLine(), xs, i).Finite?
    {
      DelayLineIsIdentity(xs, i);
    }
  }

  /**
   * With a pure one-frame delay in place of the network, the chain delivers exactly when the samples are
   * finite and the stamps fit, and then what the session outputs is the clipped padded stream itself.
   */
  lemma DelayLineChain(s: seq<Sample>, clock: nat -> nat)
    ensures Delivers(DelayLine(), Framed(s, clock))
      <==> AllFinite(s) && forall k: nat | k < CeilDiv(|s|, 512) :: Stampable(clock(1), 1, k)
    ensures Delivers(DelayLine(), Framed(s, clock)) ==>
              && SessionOutput(DelayLine(), Framed(s, clock)).Ok?
              && SamplesOf(SessionOutput(DelayLine(), Framed(s, clock)).value) == PcmClipped(Clipped(Padded(s)))
  {
    hide DelayLine, Framed, Clean, Due, Padded, SessionOutput, Stampable, Delivers;
    ChainLaw(DelayLine(), s, clock);
    var xs, n := Clipped(Padded(s)), CeilDiv(|s|, 512);
    DelayLineClean(xs, clock(1), n);
    DelayedChunks(xs, clock(1), n);
    assert xs[..512 * n] == xs;
  }

  /** A finite sample limited to what signed 16-bit PCM can hold. */
  function AtFullScale(x: Sample): Sample {
    if x == NonFinite then NonFinite
    else Finite(if x.value < -1.0 then -1.0 else if x.value > 32767.0 / 32768.0 then 32767.0 / 32768.0 else x.value)
  }

  lemma PaddedAt(s: seq<Sample>, i: nat)
    requires AllFinite(s) && i < |Padded(s)|
    ensures Padded(s)[i] == (if i < |s| then s[i] else Finite(0.0)) && Padded(s)[i].Finite?
  {
  }

  lemma PcmClippedAt(t: seq<Sample>, i: nat)
    requires i < |t| && t[i].Finite?
    ensures |PcmClipped(Clipped(t))| == |t| && PcmClipped(Clipped(t))[i] == AtFullScale(t[i])
  {
  }

  /** The same sample by sample: the input limited to full scale, then the zeros of the padding. */
  lemma DelayLineSamples(s: seq<Sample>, clock: nat -> nat, i: nat)
    requires Delivers(DelayLine(), Framed(s, clock)) && i < |Padded(s)|
    ensures var out := SamplesOf(SessionOutput(DelayLine(), Framed(s, clock)).value);
            |out| == |Padded(s)| && out[i] == if i < |s| then AtFullScale(s[i]) else Finite(0.0)
  {
    hide *;
    DelayLineChain(s, clock);
    PaddedAt(s, i);
    PcmClippedAt(Padded(s), i);
    ZeroAtFullScale();
  }

  lemma ZeroAtFullScale()
    ensures AtFullScale(Finite(0.0)) == Finite(0.0)
  {
  }

  lemma DelayedChunk(xs: seq<real>, ts: nat, k: nat)
    requires 512 * (k + 1) <= |xs| && forall i | 0 <= i < |xs| :: -1.0 <= xs[i] <= 1.0
    ensures ChunkOut(DelayLine(), xs, ts, 1, k).samples == PcmClipped(xs[512 * k..512 * (k + 1)])
  {
    hide DelayLine, OutputAt;
    var x, y := ChunkOut(DelayLine(), xs, ts, 1, k).samples, PcmClipped(xs[512 * k..512 * (k + 1)]);
    forall j | 0 <= j < 512
      ensures x[j] == y[j]
    {
      DelayLineIsIdentity(xs, 512 * k + j);
    }
    assert x == y;
  }

  lemma PcmClippedAppend(a: seq<real>, b: seq<real>)
    ensures PcmClipped(a + b) == PcmClipped(a) + PcmClipped(b)
  {
  }

  function PcmClipped(xs: seq<real>): seq<Sample> {
    seq(|xs|, i requires 0 <= i < |xs| => Finite(Clamp(xs[i], -1.0, 32767.0 / 32768.0)))
  }
}
