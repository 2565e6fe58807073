// The RNNoise processor in place: fixed buffers and counters.
module Rnnoise {
  import opened Audio
  import opened RnnoiseFrames
  import opened RnnoiseAdapter

  /** The processor in place: two fixed buffers and the counters, each method one step of the adapter. */
  lemma StageRunHead(a: Adapter, out: seq<AudioChunk>, samples: seq<Sample>, n: nat)
    requires Shaped(a) && n < |samples|
    ensures StageRun(a, out, samples[n..])
      == match StageStep(a, out, samples[n]) case Err(e) => Err(e) case Ok(s) => StageRun(s.0, s.1, samples[n + 1..])
  {
    hide StageStep;
    assert samples[n..][1..] == samples[n + 1..];
  }

  lemma StageRunDone(a: Adapter, out: seq<AudioChunk>, samples: seq<Sample>)
    requires Shaped(a)
    ensures StageRun(a, out, samples[|samples|..]) == Ok((a, out))
  {
  }

  class RnnoiseProcessor {
    const denoiser: Denoiser
    /** The denoiser's state: everything it was fed. */
    var history: seq<Frame>
    const inputFrame: array<real>
    var inputFrameLen: nat
    var pendingOutputSamples: nat
    const outputStaging: array<Sample>
    var outputStagingLen: nat
    var previousInput: Option<real>
    var firstInputTimestampNs: Option<nat>
    var firstInputSequenceId: Option<nat>
    var outputSamplesEmitted: nat
    var flushed: bool
    var failed: bool

    ghost predicate Fits()
      reads this
    {
      && inputFrame.Length == 480 && outputStaging.Length == 512
      && inputFrameLen <= 480 && outputStagingLen <= 512 && pendingOutputSamples <= 160
    }

    /** The staging buffer has room; the frame buffer may be full while the denoiser works on it. */
    ghost predicate Staging()
      reads this
    {
      Fits() && outputStagingLen < 512
    }

    ghost predicate Valid()
      reads this
    {
      Staging() && inputFrameLen < 480
    }

    ghost function State(): Adapter
      requires Fits()
      reads this, inputFrame, outputStaging
    {
      Adapter(history, if inputFrameLen < 480 then inputFrame[..inputFrameLen] else [], pendingOutputSamples,
              outputStaging[..outputStagingLen], previousInput, firstInputTimestampNs, firstInputSequenceId,
              outputSamplesEmitted)
    }

    /** The call returned what the step says, and on success left the state it says. */
    ghost predicate Did(step: Outcome, r: Result<seq<AudioChunk>>)
      reads this, inputFrame, outputStaging
    {
      && Fits()
      && if step.Err? then r == Err(step.error) else r == Ok(step.value.1) && Staging() && State() == step.value.0
    }

    constructor (denoiser: Denoiser)
      ensures Valid() && !flushed && !failed && State() == FreshAdapter() && this.denoiser == denoiser
      ensures fresh(inputFrame) && fresh(outputStaging)
    {
      this.denoiser := denoiser;
      history := [Silence()];
      inputFrame := new real[480](_ => 0.0);
      outputStaging := new Sample[512](_ => Finite(0.0));
      inputFrameLen, pendingOutputSamples, outputStagingLen, outputSamplesEmitted := 0, 0, 0, 0;
      previousInput, firstInputTimestampNs, firstInputSequenceId := None, None, None;
      flushed, failed := false, false;
    }

    method EnsureUsable() returns (error: Option<AudioError>)
      ensures error == if failed then Some(BackendError) else if flushed then Some(InvalidParameter) else None
    {
      if failed {
        return Some(BackendError);
      }
      if flushed {
        return Some(InvalidParameter);
      }
      return None;
    }

    method TakeOutputChunk() returns (r: Result<AudioChunk>)
      requires Fits() && outputStagingLen == 512
      modifies this`outputStagingLen
      ensures r == TakeChunk(old(State()))
      ensures outputStagingLen == if r.Ok? then 0 else 512
    {
      if firstInputTimestampNs == None || firstInputSequenceId == None {
        return Err(BackendError);
      }
      var start := if outputSamplesEmitted >= 512 then outputSamplesEmitted - 512 else U64 + outputSamplesEmitted - 512;
      if start * 1_000_000_000 >= U64 {
        return Err(BackendError);
      }
      var timestamp := firstInputTimestampNs.value + start * 1_000_000_000 / 16000;
      if timestamp >= U64 {
        return Err(BackendError);
      }
      var sequence := firstInputSequenceId.value + start / 512;
      if sequence >= U64 {
        return Err(BackendError);
      }
      outputStagingLen := 0;
      return Ok(AudioChunk(outputStaging[..512], 16000, 1, timestamp, sequence));
    }

    /** One iteration of the output loop. */
    method Stage(sample: Sample, out: seq<AudioChunk>) returns (r: Result<seq<AudioChunk>>)
      requires Staging()
      modifies this`outputStagingLen, this`outputSamplesEmitted, outputStaging
      ensures Did(StageStep(old(State()), out, sample), r)
    {
      if sample == NonFinite {
        return Err(BackendError);
      }
      outputStaging[outputStagingLen] := sample;
      outputStagingLen := outputStagingLen + 1;
      outputSamplesEmitted := outputSamplesEmitted + 1;
      assert State() == old(State()).(staged := old(State()).staged + [sample], emitted := outputSamplesEmitted);
      if outputStagingLen < 512 {
        return Ok(out);
      }
      var chunk := TakeOutputChunk();
      if chunk.Err? {
        return Err(chunk.error);
      }
      return Ok(out + [chunk.value]);
    }

    /** The output loop: every third sample of the answer, as many as are owed. */
    method StageOwed(outputFrame: OutFrame, out: seq<AudioChunk>) returns (r: Result<seq<AudioChunk>>)
      requires Staging()
      modifies this`outputStagingLen, this`outputSamplesEmitted, outputStaging
      ensures Did(StageRun(old(State()), out, Decimated(outputFrame, pendingOutputSamples)), r)
    {
      hide StageStep, StageRun, Fed, Normalize;
      ghost var answer, start := Decimated(outputFrame, pendingOutputSamples), State();
      r := Ok(out);
      for n := 0 to pendingOutputSamples
        invariant Staging() && r.Ok?
        invariant StageRun(State(), r.value, answer[n..]) == StageRun(start, out, answer)
      {
        assert answer[n] == Normalize(outputFrame[3 * n + 2]);
        StageRunHead(State(), r.value, answer, n);
        r := Stage(Normalize(outputFrame[3 * n + 2]), r.value);
        if r.Err? {
          return r;
        }
      }
      StageRunDone(State(), r.value, answer);
    }

    /** The denoiser takes the whole frame buffer; the samples its previous frame owed are staged. */
    method ProcessInputFrame(validSamples: nat, out: seq<AudioChunk>) returns (r: Result<seq<AudioChunk>>)
      requires Staging() && validSamples <= 160
      modifies this`history, this`pendingOutputSamples, this`outputStagingLen, this`outputSamplesEmitted, outputStaging
      ensures Did(FrameStep(denoiser, old(State()), out, inputFrame[..], validSamples), r)
    {
      hide StageRun, Decimated;
      history := history + [inputFrame[..]];
      var outputFrame := denoiser(history);
      r := StageOwed(outputFrame, out);
      if r.Ok? {
        pendingOutputSamples := validSamples;
      }
    }

    /** One upsampled value into the frame buffer; a full buffer goes to the denoiser. */
    method Push(value: real, out: seq<AudioChunk>) returns (r: Result<seq<AudioChunk>>)
      requires Valid()
      modifies this`history, this`inputFrameLen, this`pendingOutputSamples, this`outputStagingLen,
               this`outputSamplesEmitted, inputFrame, outputStaging
      ensures Did(PushStep(denoiser, old(State()), out, value), r)
      ensures r.Ok? ==> Valid()
    {
      ghost var frame := State().frame + [value];
      inputFrame[inputFrameLen] := value;
      inputFrameLen := inputFrameLen + 1;
      assert inputFrame[..inputFrameLen] == frame;
      if inputFrameLen < FRAME_SIZE {
        return Ok(out);
      }
      assert inputFrame[..] == inputFrame[..480];
      r := ProcessInputFrame(SAMPLES_PER_FRAME, out);
      if r.Ok? {
        inputFrameLen := 0;
      }
    }

    /** One clipped sample, upsampled by three. */
    method Accept(sample: real, out: seq<AudioChunk>) returns (r: Result<seq<AudioChunk>>)
      requires Valid()
      modifies this`history, this`inputFrameLen, this`pendingOutputSamples, this`outputStagingLen,
               this`outputSamplesEmitted, this`previousInput, inputFrame, outputStaging
      ensures Did(AcceptStep(denoiser, old(State()), out, sample), r)
      ensures r.Ok? ==> Valid()
    {
      var previous := if previousInput.Some? then previousInput.value else sample;
      ghost var whole := AcceptFrom(denoiser, State(), out, previous, sample, 1);
      r := Ok(out);
      for step := 1 to 4
        modifies this`history, this`inputFrameLen, this`pendingOutputSamples, this`outputStagingLen,
                 this`outputSamplesEmitted, inputFrame, outputStaging
        invariant Valid() && r.Ok?
        invariant AcceptFrom(denoiser, State(), r.value, previous, sample, step) == whole
      {
        r := Push(Interpolated(previous, sample, step), r.value);
        if r.Err? {
          return r;
        }
      }
      previousInput := Some(sample);
    }

    /** The samples of an accepted chunk, one by one. */
    method AcceptAll(samples: seq<Sample>) returns (r: Result<seq<AudioChunk>>)
      requires Valid() && AllFinite(samples)
      modifies this`history, this`inputFrameLen, this`pendingOutputSamples, this`outputStagingLen,
               this`outputSamplesEmitted, this`previousInput, inputFrame, outputStaging
      ensures Did(AcceptRun(denoiser, old(State()), [], Clipped(samples)), r)
      ensures r.Ok? ==> Valid()
    {
      ghost var clipped, start := Clipped(samples), State();
      r := Ok([]);
      for n := 0 to |samples|
        modifies this`history, this`inputFrameLen, this`pendingOutputSamples, this`outputStagingLen,
                 this`outputSamplesEmitted, this`previousInput, inputFrame, outputStaging
        invariant Valid() && r.Ok?
        invariant AcceptRun(denoiser, State(), r.value, clipped[n..]) == AcceptRun(denoiser, start, [], clipped)
      {
        var sample := Clamp(samples[n].value, -1.0, 1.0);
        assert clipped[n..][0] == sample && clipped[n..][1..] == clipped[n + 1..];
        r := Accept(sample, r.value);
        if r.Err? {
          return r;
        }
      }
    }

    /** Processes one standard chunk; a bad format changes nothing, a denoiser failure is final. */
    method Process(chunk: AudioChunk) returns (r: Result<seq<AudioChunk>>)
      requires Valid()
      modifies this, inputFrame, outputStaging
      ensures old(failed) ==> r == Err(BackendError)
      ensures !old(failed) && old(flushed) ==> r == Err(InvalidParameter)
      ensures !old(failed || flushed) && !Acceptable(chunk) ==> r == Err(InvalidParameter)
      ensures old(failed || flushed) || !Acceptable(chunk) ==>
                Valid() && State() == old(State()) && failed == old(failed)
      ensures !old(failed || flushed) && Acceptable(chunk) ==>
                Did(ProcessStep(denoiser, old(State()), chunk), r) && failed == r.Err? && (r.Ok? ==> Valid())
      ensures flushed == old(flushed)
    {
      hide AcceptRun;
      var unusable := EnsureUsable();
      if unusable.Some? {
        return Err(unusable.value);
      }
      if chunk.sampleRate != DEFAULT_SAMPLE_RATE || chunk.channels != 1 || |chunk.samples| != DEFAULT_CHUNK_SIZE {
        return Err(InvalidParameter);
      }
      if !AllFinite(chunk.samples) {
        return Err(InvalidParameter);
      }
      if firstInputTimestampNs == None {
        firstInputTimestampNs := Some(chunk.timestampNs);
        firstInputSequenceId := Some(chunk.sequenceId);
      }
      assert State() == Stamped(old(State()), chunk);
      r := AcceptAll(chunk.samples);
      failed := r.Err?;
    }

    /** Fills the frame buffer up with zeros. */
    method ZeroFill()
      requires Valid()
      modifies inputFrame
      ensures inputFrame[..] == old(inputFrame[..inputFrameLen]) + Zeros(480 - inputFrameLen)
    {
      forall i | inputFrameLen <= i < 480 {
        inputFrame[i] := 0.0;
      }
    }

    method DrainPartialFrame() returns (r: Result<seq<AudioChunk>>)
      requires Valid()
      modifies this`history, this`inputFrameLen, this`pendingOutputSamples, this`outputStagingLen,
               this`outputSamplesEmitted, inputFrame, outputStaging
      ensures Did(PartialStep(denoiser, old(State())), r)
      ensures r.Ok? ==> inputFrameLen == 0
    {
      hide FrameStep, Zeros;
      if inputFrameLen == 0 {
        return Ok([]);
      }
      var validSamples := inputFrameLen / 3;
      ghost var a := State();
      ZeroFill();
      inputFrameLen := FRAME_SIZE;
      assert State() == a.(frame := []);
      r := ProcessInputFrame(validSamples, []);
      if r.Ok? {
        inputFrameLen := 0;
        assert inputFrame[..0] == [];
      }
    }

    method DrainOwed(out: seq<AudioChunk>) returns (r: Result<seq<AudioChunk>>)
      requires Valid() && inputFrameLen == 0
      modifies this`history, this`pendingOutputSamples, this`outputStagingLen, this`outputSamplesEmitted,
               inputFrame, outputStaging
      ensures Did(OwedStep(denoiser, old(State()), out), r)
    {
      if pendingOutputSamples == 0 {
        return Ok(out);
      }
      ghost var a := State();
      ZeroFill();
      assert inputFrame[..] == Silence();
      assert State() == a;
      r := ProcessInputFrame(0, out);
    }

    /** Drains the partial frame and the frame still owed. */
    method Drain() returns (r: Result<seq<AudioChunk>>)
      requires Valid() && !failed
      modifies this`history, this`inputFrameLen, this`pendingOutputSamples, this`outputStagingLen,
               this`outputSamplesEmitted, this`failed, inputFrame, outputStaging
      ensures Did(DrainStep(denoiser, old(State())), r) && failed == r.Err? && (r.Ok? ==> Valid())
    {
      r := DrainPartialFrame();
      if r.Ok? {
        r := DrainOwed(r.value);
      }
      failed := r.Err?;
    }

    /** A remainder in the staging buffer is zero-padded to one more chunk. */
    method Pad(out: seq<AudioChunk>) returns (r: Result<seq<AudioChunk>>)
      requires Valid()
      modifies this`outputStagingLen, outputStaging
      ensures Did(PadStep(old(State()), out), r)
      ensures r.Ok? ==> Valid()
    {
      if outputStagingLen == 0 {
        return Ok(out);
      }
      ghost var staged := State().staged;
      forall i | outputStagingLen <= i < 512 {
        outputStaging[i] := Finite(0.0);
      }
      outputStagingLen := DEFAULT_CHUNK_SIZE;
      assert outputStaging[..512] == staged + seq(512 - |staged|, _ => Finite(0.0));
      var chunk := TakeOutputChunk();
      if chunk.Err? {
        return Err(chunk.error);
      }
      return Ok(out + [chunk.value]);
    }

    method Flush() returns (r: Result<seq<AudioChunk>>)
      requires Valid()
      modifies this, inputFrame, outputStaging
      ensures old(failed) ==> r == Err(BackendError) && Valid() && State() == old(State())
      ensures !old(failed) && old(flushed) ==> r == Err(InvalidParameter) && Valid() && State() == old(State())
      ensures !old(failed || flushed) ==> flushed && Did(FlushStep(denoiser, old(State())), r)
    {
      var unusable := EnsureUsable();
      if unusable.Some? {
        return Err(unusable.value);
      }
      flushed := true;
      r := Drain();
      if r.Ok? {
        r := Pad(r.value);
      }
    }
  }
}
