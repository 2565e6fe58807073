// The RNNoise adapter one step at a time, as functions on the value of its fields.
module RnnoiseAdapter {
  import opened Audio
  import opened RnnoiseFrames

  /** The processor's fields as one value: the filled parts of its two buffers, and its counters. */
  datatype Adapter = Adapter(
    history: seq<Frame>, frame: seq<real>, pending: nat, staged: seq<Sample>,
    previous: Option<real>, ts: Option<nat>, sq: Option<nat>, emitted: nat)

  /** A new processor: the denoiser has been prewarmed with one frame of silence. */
  function FreshAdapter(): Adapter {
    Adapter([Silence()], [], 0, [], None, None, None, 0)
  }

  type Outcome = Result<(Adapter, seq<AudioChunk>)>

  /** The samples one denoiser answer contributes: elements 2, 5, 8, ... */
  function Decimated(frame: OutFrame, n: nat): seq<Sample>
    requires n <= 160
  {
    seq(n, i requires 0 <= i < n => Normalize(frame[3 * i + 2]))
  }

  /** Stamps a full staging buffer; the subtraction wraps below one chunk, as in a release build. */
  function TakeChunk(a: Adapter): Result<AudioChunk> {
    if a.ts == None || a.sq == None then Err(BackendError)
    else
      var start := if a.emitted >= 512 then a.emitted - 512 else U64 + a.emitted - 512;
      if start * 1_000_000_000 >= U64 then Err(BackendError)
      else
        var timestamp := a.ts.value + start * 1_000_000_000 / 16000;
        var sequence := a.sq.value + start / 512;
        if timestamp >= U64 || sequence >= U64 then Err(BackendError)
        else Ok(AudioChunk(a.staged, 16000, 1, timestamp, sequence))
  }

  /** The bounds the two buffers keep: a full frame is fed, a full staging buffer is released. */
  ghost predicate Shaped(a: Adapter) {
    a.pending <= 160 && |a.frame| < 480 && |a.staged| < 512
  }

  function StageStep(a: Adapter, out: seq<AudioChunk>, sample: Sample): (r: Outcome)
    requires Shaped(a)
    ensures r.Ok? ==> Shaped(r.value.0)
  {
    if sample == NonFinite then Err(BackendError)
    else
      var grown := a.(staged := a.staged + [sample], emitted := a.emitted + 1);
      if |grown.staged| != 512 then Ok((grown, out))
      else
        match TakeChunk(grown)
        case Err(e) => Err(e)
        case Ok(chunk) => Ok((grown.(staged := []), out + [chunk]))
  }

  function StageRun(a: Adapter, out: seq<AudioChunk>, samples: seq<Sample>): (r: Outcome)
    requires Shaped(a)
    ensures r.Ok? ==> Shaped(r.value.0)
    decreases |samples|
  {
    if samples == [] then Ok((a, out))
    else
      match StageStep(a, out, samples[0])
      case Err(e) => Err(e)
      case Ok(next) => StageRun(next.0, next.1, samples[1..])
  }

  /** One denoiser call: the frame goes in, the samples owed from the previous frame come out. */
  function FrameStep(denoiser: Denoiser, a: Adapter, out: seq<AudioChunk>, frame: Frame, valid: nat): (r: Outcome)
    requires Shaped(a) && valid <= 160
    ensures r.Ok? ==> Shaped(r.value.0)
  {
    var fed := a.(history := a.history + [frame]);
    match StageRun(fed, out, Decimated(denoiser(fed.history), a.pending))
    case Err(e) => Err(e)
    case Ok(next) => Ok((next.0.(pending := valid), next.1))
  }

  function PushStep(denoiser: Denoiser, a: Adapter, out: seq<AudioChunk>, value: real): (r: Outcome)
    requires Shaped(a)
    ensures r.Ok? ==> Shaped(r.value.0)
  {
    var frame := a.frame + [value];
    if |frame| < 480 then Ok((a.(frame := frame), out))
    else FrameStep(denoiser, a.(frame := []), out, frame, SAMPLES_PER_FRAME)
  }

  /** The interpolation steps `step`..3 of one clipped sample. */
  function AcceptFrom(denoiser: Denoiser, a: Adapter, out: seq<AudioChunk>, previous: real, sample: real, step: nat)
    : (r: Outcome)
    requires Shaped(a) && 1 <= step
    ensures r.Ok? ==> Shaped(r.value.0)
    decreases 4 - step
  {
    if step > 3 then Ok((a, out))
    else
      match PushStep(denoiser, a, out, Interpolated(previous, sample, step))
      case Err(e) => Err(e)
      case Ok(next) =>
        AcceptFrom(denoiser, next.0, next.1, previous, sample, step + 1)
  }

  function AcceptStep(denoiser: Denoiser, a: Adapter, out: seq<AudioChunk>, sample: real): (r: Outcome)
    requires Shaped(a)
    ensures r.Ok? ==> Shaped(r.value.0)
  {
    match AcceptFrom(denoiser, a, out, if a.previous.Some? then a.previous.value else sample, sample, 1)
    case Err(e) => Err(e)
    case Ok(next) => Ok((next.0.(previous := Some(sample)), next.1))
  }

  /** The samples of one chunk, in order. */
  function AcceptRun(denoiser: Denoiser, a: Adapter, out: seq<AudioChunk>, samples: seq<real>): (r: Outcome)
    requires Shaped(a)
    ensures r.Ok? ==> Shaped(r.value.0)
    decreases |samples|
  {
    if samples == [] then Ok((a, out))
    else
      match AcceptStep(denoiser, a, out, samples[0])
      case Err(e) => Err(e)
      case Ok(next) =>
        AcceptRun(denoiser, next.0, next.1, samples[1..])
  }

  ghost predicate Acceptable(chunk: AudioChunk) {
    && chunk.sampleRate == DEFAULT_SAMPLE_RATE && chunk.channels == 1
    && |chunk.samples| == DEFAULT_CHUNK_SIZE
    && AllFinite(chunk.samples)
  }

  /** The chunk's samples clipped like PCM would. */
  function Clipped(s: seq<Sample>): (r: seq<real>)
    ensures |r| == |s|
  {
    seq(|s|, i requires 0 <= i < |s| => if s[i].Finite? then Clamp(s[i].value, -1.0, 1.0) else 0.0)
  }

  function Stamped(a: Adapter, chunk: AudioChunk): Adapter {
    if a.ts == None then a.(ts := Some(chunk.timestampNs), sq := Some(chunk.sequenceId)) else a
  }

  function ProcessStep(denoiser: Denoiser, a: Adapter, chunk: AudioChunk): (r: Outcome)
    requires Shaped(a)
    ensures r.Ok? ==> Shaped(r.value.0)
  {
    AcceptRun(denoiser, Stamped(a, chunk), [], Clipped(chunk.samples))
  }

  function Zeros(n: nat): seq<real> {
    seq(n, i requires 0 <= i < n => 0.0)
  }

  /** Flush first runs the partial frame, zero-filled. */
  function PartialStep(denoiser: Denoiser, a: Adapter): (r: Outcome)
    requires Shaped(a)
    ensures r.Ok? ==> Shaped(r.value.0)
  {
    if |a.frame| == 0 then Ok((a, []))
    else FrameStep(denoiser, a.(frame := []), [], a.frame + Zeros(480 - |a.frame|), |a.frame| / 3)
  }

  /** Then a silent frame, if samples are still owed. */
  function OwedStep(denoiser: Denoiser, a: Adapter, out: seq<AudioChunk>): (r: Outcome)
    requires Shaped(a)
    ensures r.Ok? ==> Shaped(r.value.0)
  {
    if a.pending == 0 then Ok((a, out)) else FrameStep(denoiser, a, out, Silence(), 0)
  }

  function DrainStep(denoiser: Denoiser, a: Adapter): (r: Outcome)
    requires Shaped(a)
    ensures r.Ok? ==> Shaped(r.value.0)
  {
    var first := PartialStep(denoiser, a);
    if first.Err? then first else OwedStep(denoiser, first.value.0, first.value.1)
  }

  /** A remainder in the staging buffer is zero-padded to one more chunk. */
  function PadStep(a: Adapter, out: seq<AudioChunk>): Outcome
    requires |a.staged| < 512
  {
    if a.staged == [] then Ok((a, out))
    else
      var padded := a.(staged := a.staged + seq(512 - |a.staged|, _ => Finite(0.0)));
      match TakeChunk(padded)
      case Err(e) => Err(e)
      case Ok(chunk) => Ok((padded.(staged := []), out + [chunk]))
  }

  function FlushStep(denoiser: Denoiser, a: Adapter): Outcome
    requires Shaped(a)
  {
    match DrainStep(denoiser, a)
    case Err(e) => Err(e)
    case Ok(next) => PadStep(next.0, next.1)
  }

  /** The adapter reached, and what each call to process returned. */
  datatype Session = Session(adapter: Adapter, returned: seq<seq<AudioChunk>>)

  function NextCall(denoiser: Denoiser, s: Session, chunk: AudioChunk): (r: Result<Session>)
    requires Shaped(s.adapter)
    ensures r.Ok? ==> Shaped(r.value.adapter)
  {
    var next := ProcessStep(denoiser, s.adapter, chunk);
    if next.Err? then Err(next.error) else Ok(Session(next.value.0, s.returned + [next.value.1]))
  }

  /** Processing chunks one by one, up to the first failure. */
  function Calls(denoiser: Denoiser, chunks: seq<AudioChunk>): (r: Result<Session>)
    ensures r.Ok? ==> Shaped(r.value.adapter)
    decreases |chunks|
  {
    if chunks == [] then Ok(Session(FreshAdapter(), []))
    else
      var before := Calls(denoiser, chunks[..|chunks| - 1]);
      if before.Err? then before else NextCall(denoiser, before.value, chunks[|chunks| - 1])
  }

  /** The clipped input of a session. */
  function Input(chunks: seq<AudioChunk>): seq<real> {
    if chunks == [] then [] else Input(chunks[..|chunks| - 1]) + Clipped(chunks[|chunks| - 1].samples)
  }
}
