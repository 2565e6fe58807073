# A model of LiveAudio's streaming pipeline

LiveAudio captures sound, resamples and denoises it, cuts it into phrases by voice activity, decodes the
phrases, writes the text to disk and broadcasts it as subtitles. Most of these stages are hand-written
streaming state machines. This project models them in Dafny and proves what holds for every input length,
every way the input is cut into batches, every interleaving and every point where a process can be killed.

`dafny verify dfyconfig.toml` checks everything. One module models one component:

| module | component | what is proved |
|---|---|---|
| `Resampler` | linear resampler and chunk framer | the nested loops compute a closed form that keeps straight lines straight; a batch may be cut in two exactly when the cursor has not jumped past its end; a drift bound for every batching |
| `RnnoiseFrames`, `RnnoiseAdapter`, `RnnoiseLaws`, `Rnnoise` | RNNoise frame adapter | what the denoiser is fed; a closed form for every output sample and stamp, for any denoiser; one chunk of latency, and as many samples out as in |
| `Dsp` | capture worker with its two-stage flush | capture fails exactly when the chain cannot deliver, otherwise the whole padded stream comes out |
| `Vad` | phrase segmentation | the worker computes the one segmentation the rules allow; it is a partition of the speech |
| `QueueBudget` | settings and audio queue capacity | what each setting becomes, in seconds; a full queue never holds more than 60 s, for every configuration and stream |
| `Poller` | WebSocket queue poller and emission policy | nothing live is lost or reordered; what waits is sent once there is room, and nothing without; bounded, paced, accounted replay |
| `SessionWriter` | producer, worker and stopper of the session writer | books balanced under every interleaving; the worker drains its queue before it exits; what `stop()` and `flush()` answers are worth |
| `Cues` | subtitle file and restart scan | the cues are the utterances said, numbered 1..m without gaps, whatever the texts, switches and restarts; the exact condition under which a restart can read them back |
| `Intercept` | stdout interception | write boundaries do not matter; the percent shown is the highest parsed |
| `Resilient` | capture supervision | alternation, pacing, honest status, watchdog bound, when a stream and the supervision end |
| `ChildBudget` | child failure budget | fatal exactly on three failures in 300 s; every restart scheduled happens |
| `Bootstrap` | launcher bootstrap | crash consistency, safe fast path, when a version can be lowered |

`Arith` and `Audio` hold arithmetic lemmas and shared types.

Where the source changes objects step by step, the model does too: the classes `AudioResampler`,
`RnnoiseProcessor`, `VadWorker`, `QueuePoller`, `InterceptingWriter`, `Supervisor`, `ProcessSupervisor` and
`Launcher` have the source's fields, loops and in-place buffers. Their methods are proved equal to functions on
values (or, for the launcher, to a relation between disks), and the laws are proved about those.
`SessionWriter` is a protocol between threads and is modelled as the atomic steps of these threads, with the
condition's lock explicit and the stop flag set outside of it, as in the source.

## What turned out not to hold

- Batching is not invisible when downsampling. `resample_linear` keeps its read index local to a batch, so a
  cursor that leaves a batch by more than one sample loses the surplus. `DownsamplingSplitGrows` is a
  concrete case; `SplitInvariantIff` says exactly when a cut is harmless; `DriftBound` bounds the effect.
- `flush()` of the session writer can answer True although a write has just failed: the worker counts the
  failure in one critical section and signals it in another. `FlushRace` reaches that state. `FlushExact`
  says when the answer can be trusted: if `outcomes()` counts no failure. `stop()` has no such gap (`StopExact`,
  `CleanStop`).
- With two producers a record can be admitted after another one was rejected (`TwoProducers`).
  `RejectionIsFinalIff` says when: a record finds room in the queue while a rejected caller still owes its
  signal. With one producer it cannot happen (`OneProducer`).
- A restart does not always recover the cue counter. The scan tests lines with `isdigit()` and converts them with
  `int()`, which rejects some texts the test accepts: digits that are not decimal, such as circled or superscript
  ones, and more than 4300 digits (the limit of the Python 3.11 that the launcher installs). One subtitle of that kind,
  alone or after `#cue:`, makes every later restart of the session fail (`CircledDigits`, `LostForGood`).
  `ScanFile` and `NoGaps` give the exact condition; the numbering of the file itself is never disturbed.
- Ordinary runs of the launcher can lower the installed version: when another device is requested, and after
  an update was killed half way (`LoweredByDevice`, `LoweredAfterKill`). `LowersIff` gives the exact condition;
  `NeverLowered` covers the runs of one launcher that keep the device.
- Crash consistency rests on deleting `installed.json`. The launcher ignores an error there; then every update
  killed while it clears `app/` leaves a torn install that looks complete (`TornByFailedUnlink`). It holds
  whenever the file could be deleted or did not exist (`Launcher.RunBootstrap`).

## How the source's world is represented

- A sample is a real number or the one value `NonFinite`; rounding of floats is not modelled. The resampler's
  phase is an exact numerator over the target rate. The overflow checks of the stamps are on 64-bit bounds.
- The denoiser is an arbitrary function of all frames fed so far, the VAD an arbitrary stream of booleans, the
  percent parser and the version parser arbitrary functions. What is proved holds for each of them. Python's
  Unicode tables are arbitrary too, as far as they agree with ASCII and with the meaning of white space.
- Clocks, queue contents, room on the socket, device probes, write failures and process kills are inputs.

## Model

| member | source | states |
|---|---|---|
| `Resampler.InterpBetween` | crates/liveaudio-audio/src/resampler.rs:134-159 | an interpolated sample lies between its two neighbours |
| `Resampler.LineReproduced` | crates/liveaudio-audio/src/resampler.rs:134-159 | on samples of a straight line, of any slope, the interpolated value at every read position lies on the line |
| `Resampler.LineResampled` | crates/liveaudio-audio/src/resampler.rs:134-159 | so a straight line is resampled to itself: output k is its value at phase + k·inRate |
| `Resampler.FirstHeld` | crates/liveaudio-audio/src/resampler.rs:138-142 | without an earlier sample the first one is held until the second |
| `Resampler.FirstOutput` | crates/liveaudio-audio/src/resampler.rs:134-159 | the first output of a fresh resampler is the first input sample |
| `Resampler.InterpFinite` | crates/liveaudio-audio/src/resampler.rs:146-147 | an interpolated sample is finite exactly when its two neighbours are |
| `Resampler.BatchPositions` | crates/liveaudio-audio/src/resampler.rs:134-159 | the closed-form count is the number of read positions phase + k·inRate that lie inside the batch |
| `Resampler.SplitInvariantIff` | crates/liveaudio-audio/src/resampler.rs:134-159 | a batch may be cut in two, for all sample values alike, if and only if the cursor leaving the first part has not jumped a whole sample past its end |
| `Resampler.SplitWithoutLoss` | crates/liveaudio-audio/src/resampler.rs:134-159 | without such a jump the two parts give the outputs and the state of the whole batch |
| `Resampler.RampExposesLoss` | crates/liveaudio-audio/src/resampler.rs:134-159 | with such a jump a ramp always shows the difference |
| `Resampler.BatchingInvariant` | crates/liveaudio-audio/src/resampler.rs:117-159 | not downsampling: any cutting of the stream into batches gives the outputs and the state of one batch |
| `Resampler.StreamDrift` | crates/liveaudio-audio/src/resampler.rs:117-159 | for every batching and pair of rates, emitted samples account for the input up to one sample per non-empty batch, exactly when not downsampling |
| `Resampler.DriftBound` | crates/liveaudio-audio/src/resampler.rs:117-159 | N samples in B non-empty batches give C outputs with N·T/I ≤ C < N·T/I + B |
| `Resampler.DownsamplingSplitGrows` | crates/liveaudio-audio/src/resampler.rs:134-159 | concrete 3:1 stream where cutting a batch adds an output sample |
| `Resampler.ChunksStable` | crates/liveaudio-audio/src/resampler.rs:162-177 | chunks already cut do not change when the stream grows |
| `Resampler.ChunksAreStream` | crates/liveaudio-audio/src/resampler.rs:162-177 | the first n chunks end to end are the first n·size resampled samples |
| `Resampler.ChunkLabels` | crates/liveaudio-audio/src/resampler.rs:162-177 | each chunk has the chunk size, the target rate, one channel, its place in the stream as id and the clock's reading for that id |
| `Resampler.AudioResampler.New` | crates/liveaudio-audio/src/resampler.rs:90-109 | a zero rate is the one error; a chunk size of 0 becomes 1 |
| `Resampler.AudioResampler.ResampleLinear` | crates/liveaudio-audio/src/resampler.rs:134-159 | the nested loops terminate, append exactly the closed form of the batch and leave the closed form's cursor |
| `Resampler.AudioResampler.DrainReadyChunks` | crates/liveaudio-audio/src/resampler.rs:162-177 | cuts off every whole chunk with consecutive ids and keeps less than a chunk |
| `Resampler.AudioResampler.ProcessMonoSamples` | crates/liveaudio-audio/src/resampler.rs:117-131 | one batch, passthrough at equal rates: new stream, cursor and exactly the chunks that became whole |
| `Resampler.AudioResampler.Flush` | crates/liveaudio-audio/src/resampler.rs:180-194 | the remainder zero-padded to one chunk with the next id, nothing if there is none |
| `RnnoiseFrames.FrameStable` | crates/liveaudio-audio/src/rnnoise.rs:82-101 | a frame that is complete does not depend on later input |
| `RnnoiseFrames.UpsampledInThirds` | crates/liveaudio-audio/src/rnnoise.rs:84-90 | inside the PCM range the three upsampled values of a sample go from the sample before to it in three equal steps |
| `RnnoiseFrames.AffineUpsampled` | crates/liveaudio-audio/src/rnnoise.rs:84-90 | a straight line in the PCM range is fed to the denoiser as the straight line of a third of its slope |
| `RnnoiseFrames.ZerosPastEnd` | crates/liveaudio-audio/src/rnnoise.rs:112-129 | the last frame is filled up with zeros |
| `RnnoiseFrames.OutputScaled` | crates/liveaudio-audio/src/rnnoise.rs:162-173 | an output sample is the denoiser's answer over 32768, clipped at ±1, and non-finite exactly when the answer is |
| `RnnoiseFrames.OutputStable` | crates/liveaudio-audio/src/rnnoise.rs:153-182 | an output that has been released does not depend on later input |
| `RnnoiseFrames.ReleasedChunks` | crates/liveaudio-audio/src/rnnoise.rs:153-182 | after N chunks, exactly N - 1 chunks of output are released (0 for N = 0) |
| `RnnoiseFrames.StampLimit` | crates/liveaudio-audio/src/rnnoise.rs:191-202 | stamps fit exactly for k ≤ 36,028,797 whose two sums fit in 64 bits |
| `RnnoiseFrames.DelayLineIsIdentity` | crates/liveaudio-audio/src/rnnoise.rs:82-101 | through a one-frame delay line output sample i is input sample i, clipped at the PCM limit |
| `RnnoiseLaws.TakeChunkAt` | crates/liveaudio-audio/src/rnnoise.rs:184-212 | the chunk taken at 512k + 512 samples carries sequence first + k and timestamp first + 32,000,000·k, or fails exactly when they do not fit |
| `RnnoiseLaws.StageMany` | crates/liveaudio-audio/src/rnnoise.rs:162-179 | staging any samples releases a chunk at every 512th output and nothing else; it fails exactly on a non-finite sample or a stamp that does not fit, so the counter subtraction never wraps |
| `RnnoiseLaws.FrameYields` | crates/liveaudio-audio/src/rnnoise.rs:153-182 | one denoiser call on a frame releases the samples owed by the frame before and owes its own |
| `RnnoiseLaws.PushTracks` | crates/liveaudio-audio/src/rnnoise.rs:89-99 | one upsampled value keeps frame buffer, owed samples, staging and counter on the closed form |
| `RnnoiseLaws.AcceptRunTracks` | crates/liveaudio-audio/src/rnnoise.rs:82-102 | so does any list of input samples, and the chunks released are those due |
| `RnnoiseLaws.DrainTracks` | crates/liveaudio-audio/src/rnnoise.rs:112-129 | draining releases all outputs still owed: in total as many samples as went in |
| `RnnoiseLaws.CallsLaw` | crates/liveaudio-audio/src/rnnoise.rs:60-104 | for every N: the first call returns no chunk, each later call exactly one, the closed form's |
| `RnnoiseLaws.FlushLaw` | crates/liveaudio-audio/src/rnnoise.rs:107-137 | after N chunks flush returns exactly the last one and nothing is left to pad; after none it returns nothing |
| `RnnoiseLaws.SessionLaw` | crates/liveaudio-audio/src/rnnoise.rs:60-137 | a session of N chunks succeeds exactly when all 512·N outputs are finite and all N stamps fit, and outputs the closed form's chunks 0..N-1 |
| `Rnnoise.RnnoiseProcessor.constructor` | crates/liveaudio-audio/src/rnnoise.rs:34-54 | a prewarmed processor with empty buffers |
| `Rnnoise.RnnoiseProcessor.TakeOutputChunk` | crates/liveaudio-audio/src/rnnoise.rs:184-212 | the stamped chunk or the overflow error; the staging buffer is emptied only on success |
| `Rnnoise.RnnoiseProcessor.ProcessInputFrame` | crates/liveaudio-audio/src/rnnoise.rs:153-182 | the in-place frame step is the specified one, also where it fails half way |
| `Rnnoise.RnnoiseProcessor.Process` | crates/liveaudio-audio/src/rnnoise.rs:60-104 | state, result and failure flag of one call in every case: failed, flushed, wrong format, processed |
| `Rnnoise.RnnoiseProcessor.Flush` | crates/liveaudio-audio/src/rnnoise.rs:107-137 | the same for flush |
| `Rnnoise.RnnoiseProcessor.Drain` | crates/liveaudio-audio/src/rnnoise.rs:112-129 | partial frame, then the frame still owed; any error is final |
| `Rnnoise.RnnoiseProcessor.Pad` | crates/liveaudio-audio/src/rnnoise.rs:131-135 | a staged remainder becomes one zero-padded chunk |
| `Dsp.FramedPrefix` | crates/liveaudio-audio/src/resampler.rs:162-194 | chunks framed so far are a prefix of the chunks of the whole stream |
| `Dsp.FramedAcceptable` | crates/liveaudio-audio/src/rnnoise.rs:62-74 | every framed chunk, the padded one included, passes the format guard; only a non-finite sample is refused |
| `Dsp.FramedIsStream` | crates/liveaudio-audio/src/resampler.rs:162-194 | framed chunks end to end are the padded stream, ids count up from 1 |
| `Dsp.ResampledIsStream` | crates/liveaudio-audio/src/resampler.rs:117-159 | at different rates the framed stream is the one the batching and drift laws speak of |
| `Dsp.EqualRatesPass` | crates/liveaudio-audio/src/resampler.rs:122-124 | at equal rates it is the batches end to end |
| `Dsp.PaddedWithZeros` | crates/liveaudio-audio/src/resampler.rs:180-194 | padding keeps the stream, adds fewer than 512 samples, and they are zero |
| `Dsp.ChainLaw` | crates/liveaudio-audio/src/cpal_source.rs:301-385 | the two-stage chain delivers exactly when samples, denoiser answers and stamps are good, and then one chunk for each 512 samples of the padded stream |
| `Dsp.DelayLineChain` | crates/liveaudio-audio/src/cpal_source.rs:301-385 | with a delay line for the network the chain delivers exactly when samples are finite and stamps fit, and then outputs the clipped padded stream sample for sample |
| `Dsp.DelayLineSamples` | crates/liveaudio-audio/src/cpal_source.rs:301-385 | with a delay line, sample i that comes out of the worker is resampled sample i clipped at ±1, and zero beyond the stream |
| `Dsp.ProcessCaptured` | crates/liveaudio-audio/src/cpal_source.rs:30-43 | one chunk through RNNoise; an error sets the failure flag and means the chain cannot deliver |
| `Dsp.ProcessAll` | crates/liveaudio-audio/src/cpal_source.rs:320-332 | the chunks of one resampler call in order, until the first failure |
| `Dsp.ProcessBatch` | crates/liveaudio-audio/src/cpal_source.rs:320-342 | one batch through resampler and RNNoise, up to the first failure |
| `Dsp.RunWithRnnoise` | crates/liveaudio-audio/src/cpal_source.rs:301-385 | the worker: capture fails if and only if the chain cannot deliver; otherwise everything the chain outputs was sent |
| `Dsp.Finish` | crates/liveaudio-audio/src/cpal_source.rs:344-385 | resampler flush before RNNoise flush, neither after a failure |
| `Dsp.RunPlain` | crates/liveaudio-audio/src/cpal_source.rs:301-385 | without RNNoise the framed stream is sent unchanged |
| `Vad.CutsAreSegmentation` | liveaudio/core/audio.py:406-458 | for every stream the phrases formed, and the open one, are a segmentation: lead-in min(PRE, gap), closed at the first chunk where the phrase is full or LIMIT + 1 chunks are unvoiced |
| `Vad.SegmentationUnique` | liveaudio/core/audio.py:406-458 | the segmentation rules determine the phrases |
| `Vad.SegmentationIsPartition` | liveaudio/core/audio.py:406-458 | phrases are disjoint and ordered, and every voiced chunk is in one of them or in the open buffer |
| `Vad.PhraseLength` | liveaudio/core/audio.py:36-42 | no phrase is longer than the cap, pre-roll included |
| `Vad.ShortPhraseTail` | liveaudio/core/audio.py:36-42 | a phrase below the cap ends in exactly LIMIT + 1 unvoiced chunks after a voiced one |
| `Vad.VadWorker.constructor` | liveaudio/core/audio.py:345-355 | a worker with empty buffers |
| `Vad.VadWorker.EnqueuePhrase` | liveaudio/core/audio.py:357-382 | a phrase is queued, or lost and counted when the queue is full, with the oldest chunk of the speech buffer dropped |
| `Vad.VadWorker.HearVoice` | liveaudio/core/audio.py:406-433 | a voiced chunk: pre-roll joins on the transition, buffers and phrases follow the segmentation |
| `Vad.VadWorker.HearPause` | liveaudio/core/audio.py:435-454 | an unvoiced chunk inside a phrase |
| `Vad.VadWorker.HearSilence` | liveaudio/core/audio.py:455-458 | an unvoiced chunk between phrases only moves the pre-roll |
| `Vad.VadWorker.Consume` | liveaudio/core/audio.py:406-458 | after any chunk the buffers and the phrases formed are those of the segmentation of all chunks heard |
| `QueueBudget.NormalizedInRange` | liveaudio/utils/config.py:220-252 | normalized settings are in their ranges, also after rounding |
| `QueueBudget.NormalizeIdempotent` | liveaudio/utils/config.py:220-252 | normalizing twice changes nothing |
| `QueueBudget.NormalizeMeans` | liveaudio/utils/config.py:220-238 | an unknown purpose becomes subtitles; a readable duration or silence is clamped to its range and settled on a tenth of a second, exactly itself if it already is one; an unreadable one becomes its default |
| `QueueBudget.PadMeans` | liveaudio/utils/config.py:252-253 | an integer padding is clamped to 0..500, a real one truncated, an unreadable one 200 |
| `QueueBudget.Round1Near` | liveaudio/utils/config.py:220-238 | rounding to a tenth moves a value by at most 0.05 and a tenth not at all |
| `QueueBudget.PhraseSeconds` | liveaudio/core/audio.py:31-33 | the cap is the configured duration rounded up to whole frames, and at most 60 s |
| `QueueBudget.PreRollSeconds` | liveaudio/core/audio.py:89-96 | the pre-roll is the padding rounded up to whole frames, at least one |
| `QueueBudget.SilenceSeconds` | liveaudio/core/audio.py:242 | the silence limit is the longest whole number of frames within the configured silence |
| `QueueBudget.LimitsSeconds` | liveaudio/core/audio.py:242-244 | the three limits the worker takes from normalized settings, each within one frame of its setting |
| `QueueBudget.PreRollFits` | liveaudio/core/audio.py:89-96 | the pre-roll is at most 16 chunks and always below the cap |
| `QueueBudget.CapacityWithinBudget` | liveaudio/utils/config.py:161-178 | capacity × phrase cap × 32 ms ≤ 60 s, also where the capacity is raised to 1 |
| `QueueBudget.CapacityIsLargest` | liveaudio/utils/config.py:161-178 | the capacity is the largest number of phrases, margins included, within 60 s, between 1 and 100 |
| `QueueBudget.CapacityReads` | liveaudio/utils/config.py:161-178 | for any configuration: an unreadable setting counts as its default, a readable one as its clamped value |
| `QueueBudget.QueuedAudioWithinBudget` | liveaudio/utils/config.py:161-178 | for every configuration and stream, a full queue of the worker's phrases lasts 60 s at most |
| `Poller.LivePath` | liveaudio/core/network.py:306-388 | in every run, live broadcasts then the retry buffer are the live messages taken in order; at most one waits, none was dropped, none is left at the sentinel |
| `Poller.ReplayPath` | liveaudio/core/network.py:357-422 | the replay buffer is a suffix, at most 256 long, of the replays taken; received = sent + drops + buffered; order kept; broadcasts at least the earlier one's interval apart |
| `Poller.RunKeeps` | liveaudio/core/network.py:325-424 | every run keeps the poller's invariant, and what left the queue then what is in it is what was put in |
| `Poller.TickKeeps` | liveaudio/core/network.py:325-424 | one pass consumes a prefix of what the queue offers and keeps the invariant |
| `Poller.FlushWithRoom` | liveaudio/core/network.py:306-323 | with room all that waits is sent, oldest first, and nothing waits any more |
| `Poller.PassWithRoom` | liveaudio/core/network.py:325-424 | a pass with room takes all that is offered up to the sentinel and broadcasts what waited, every live message, and the replay that is due; nothing waits afterwards |
| `Poller.PassWithoutRoom` | liveaudio/core/network.py:325-424 | a pass without room broadcasts nothing: it waits if a message does, otherwise takes up to the first live message, keeps it, and puts a due replay off by 0.5 s |
| `Poller.BroadcastsAreGranted` | liveaudio/core/network.py:306-424 | whatever the room checks answer, there is one broadcast for each check answered yes and none else |
| `Poller.DrainKept` | liveaudio/core/network.py:357-366 | draining leaves in the replay buffer the latest 256 replays, counts the others as dropped, and does not touch its clock |
| `Poller.PacedIff` | liveaudio/core/engine.py:381-397 | a subtitle takes the paced path exactly under auto with a positive interval and 1 s < delay ≤ max |
| `Poller.DecisionMeans` | liveaudio/core/engine.py:381-397 | under each policy which delays are emitted, which as replays and at which interval |
| `Poller.NothingDropped` | liveaudio/core/engine.py:381-397 | under send_all and live_only nothing that entered the queue is dropped: broadcasts then retry are a prefix of the emitted messages, all of them at the sentinel |
| `Poller.QueuePoller.FlushRetryBuffer` | liveaudio/core/network.py:306-323 | sends the oldest first while there is room |
| `Poller.QueuePoller.DrainQueue` | liveaudio/core/network.py:341-388 | the drain loop with its three exits, and the queue it leaves |
| `Poller.QueuePoller.BufferReplay` | liveaudio/core/network.py:357-366 | bounded drop-oldest append with its counter |
| `Poller.QueuePoller.ReplayDue` | liveaudio/core/network.py:408-422 | send when due, postpone by 0.5 s under backpressure |
| `Poller.QueuePoller.Pass` | liveaudio/core/network.py:325-424 | one pass of the loop: state and remaining queue |
| `Poller.QueuePoller.Poll` | liveaudio/core/network.py:325-424 | the loop over any number of passes is the specified run |
| `SessionWriter.Conservation` | liveaudio/core/engine.py:219-252 | under every interleaving and for each sink: the calls answered for it = pending + saved + failed + rejected, pending ≥ 0 |
| `SessionWriter.FilesFollowAdmission` | liveaudio/core/engine.py:166-203 | writes to a file are tried in admission order, each record at most once |
| `SessionWriter.StopExact` | liveaudio/core/engine.py:273-286 | where stop() reads the books it answers True exactly when no failure was signalled and every admitted record is in every file it was meant for |
| `SessionWriter.ExitedQueue` | liveaudio/core/engine.py:166-170 | in every run, once the worker has exited the queue holds exactly what was put after its exit: it never leaves a record behind |
| `SessionWriter.StopSucceedsIff` | liveaudio/core/engine.py:273-286 | in every run, where stop() reads the books it answers True if and only if no failure was signalled and nothing was put after the worker's exit |
| `SessionWriter.WorkerDrains` | liveaudio/core/engine.py:166-203 | from every state with the stop flag set and the lock free the worker's own steps lead it to an empty queue and its exit, without a failure unless a write fails |
| `SessionWriter.StopCompletes` | liveaudio/core/engine.py:273-286 | so an ordinary stop() writes what is queued and answers True |
| `SessionWriter.StopRecorded` | liveaudio/core/engine.py:273-286 | a clean stop is recorded exactly when stop() answered True, and a drain timeout is owed exactly when it did not drain |
| `SessionWriter.CallAnswers` | liveaudio/core/engine.py:219-252 | one undisturbed call of write_record: admitted and booked exactly when not stopping, no failure and room in the queue, otherwise rejected and booked |
| `SessionWriter.FirstFailureKept` | liveaudio/core/engine.py:145-156 | the first failure code signalled is kept |
| `SessionWriter.QueueBounded` | liveaudio/core/engine.py:219-252 | in every run the queue stays within its capacity |
| `SessionWriter.CleanStop` | liveaudio/core/engine.py:219-286 | once a stop() answered True, all records ever answered True are saved in order, including those that raced with the stop flag |
| `SessionWriter.NothingAfterCleanStop` | liveaudio/core/engine.py:219-286 | and nothing is admitted afterwards |
| `SessionWriter.RejectionIsFinalIff` | liveaudio/core/engine.py:233-252 | for every run of any number of producers: none is admitted after a rejection if and only if no record finds room while a rejected caller still owes its signal |
| `SessionWriter.OneProducer` | liveaudio/core/engine.py:219-252 | with one producer that never happens |
| `SessionWriter.TwoProducers` | liveaudio/core/engine.py:249-251 | with two producers it can |
| `SessionWriter.FlushExact` | liveaudio/core/engine.py:258-271 | flush() answering True means all saved if and only if no failure is counted, which is so unless the worker is just about to signal a failed write |
| `SessionWriter.FlushRace` | liveaudio/core/engine.py:181-185 | that exception is reachable |
| `SessionWriter.StepKeeps` | liveaudio/core/engine.py:145-286 | every step of every thread keeps the books and the order |
| `Cues.DecimalRoundTrip` | liveaudio/core/engine.py:194 | the digits of str(n) have the value n |
| `Cues.NoLeadingZero` | liveaudio/core/engine.py:194 | and they start with 0 only for 0 |
| `Cues.ReadIntIff` | liveaudio/core/engine.py:738-740 | int() takes an isdigit text exactly when every character is decimal and it is not too long |
| `Cues.SanitizedIsOneLine` | liveaudio/core/engine.py:297-303 | a sanitized text holds no white space but blanks |
| `Cues.RejoinedWords` | liveaudio/core/engine.py:297-303 | split and join: the words of the text, in order, one blank between them |
| `Cues.KeptCharacters` | liveaudio/core/engine.py:297-303 | of their characters exactly the printable ones stay, less the six dangerous ones |
| `Cues.StripMeans` | liveaudio/core/engine.py:735-736 | strip() cuts white space at both ends and nothing else |
| `Cues.FileInLines` | liveaudio/core/engine.py:194 | the file reads back as the header and five lines for each cue, whatever the texts |
| `Cues.MarkerSets` | liveaudio/core/engine.py:737-738 | a marker line sets the counter whatever it was |
| `Cues.ScanFile` | liveaudio/core/engine.py:735-740 | the scan succeeds if and only if no text, as a whole or after a marker, is all isdigit() but rejected by int(); then it yields the last cue's number |
| `Cues.Recover` | liveaudio/core/engine.py:735-740 | the scan loop and its exit by ValueError |
| `Cues.NoGaps` | liveaudio/core/engine.py:368-378 | whatever is said, switched and restarted, the file holds the cues 1..m in order, and the scan recovers m if and only if all of them are legible |
| `Cues.CuesAreSpoken` | liveaudio/core/engine.py:194 | between restarts, cues written and queued are, in order, those of the utterances said while the file is on: start, end and sanitized text |
| `Cues.RestartKeepsFile` | liveaudio/core/engine.py:730-740 | a restart only appends: it leaves the file as it is |
| `Cues.SessionCues` | liveaudio/core/engine.py:726-740 | the same from a new session |
| `Cues.LostForGood` | liveaudio/core/engine.py:735-740 | once an illegible cue is in the file, every later restart fails |
| `Cues.CircledDigits` | liveaudio/core/engine.py:737-740 | the text of three circled digits is such a cue, and its session cannot be restarted |
| `Intercept.Rejoin` | liveaudio/core/engine.py:474-489 | the lines with their ends, then the rest, are the text |
| `Intercept.SplitInvariant` | liveaudio/core/engine.py:474-489 | tokens and rest of a + b are those of writing a, then b |
| `Intercept.CutsDoNotMatter` | liveaudio/core/engine.py:468-489 | any cutting of the output into writes has the effect of one write |
| `Intercept.PercentsRise` | liveaudio/core/engine.py:491-541 | percents sent are in [0, 100], never go back, and repeat only after 0.1 s |
| `Intercept.HandleSends` | liveaudio/core/engine.py:491-572 | what every line sends: a percent the maximum of the last and the parsed one, unless it repeats within 0.1 s; else a plain announcement, depending on how the line ended and whether it has bars |
| `Intercept.ShowsHighest` | liveaudio/core/engine.py:491-541 | for any cutting of any output the last percent is the highest of those parsed, clamped |
| `Intercept.HandleTracks` | liveaudio/core/provisioning.py:88-112 | every line, whatever the parser says of it, keeps the clamped monotone percents |
| `Intercept.InterceptingWriter.OnProgress` | liveaudio/core/engine.py:491-557 | the effect of a progress line on throttle, last percent and log queue |
| `Intercept.InterceptingWriter.OnLine` | liveaudio/core/engine.py:559-572 | the effect of a plain line |
| `Intercept.InterceptingWriter.Write` | liveaudio/core/engine.py:468-489 | the loop over find() is tokenizing the buffer and handling each line |
| `Resilient.Alternation` | crates/liveaudio-audio/src/resilient.rs:173-190 | at every moment of every run openings and closings of the source alternate |
| `Resilient.StartsOnlyWithDevice` | crates/liveaudio-audio/src/resilient.rs:148-171 | start is only called on a microphone right after a probe that found a device |
| `Resilient.ReturnsFollowCalls` | crates/liveaudio-audio/src/resilient.rs:163-171 | every start that returned was called just before |
| `Resilient.StartsArePaced` | crates/liveaudio-audio/src/resilient.rs:153-204 | after a failed start or a closed stream the next call of start is at least 1 s later, at least 3 s if a device was seen |
| `Resilient.CallsWhenDue` | crates/liveaudio-audio/src/resilient.rs:185-204 | and when the wait is over it is made at once, on a microphone if the probe finds one |
| `Resilient.StatusMeans` | crates/liveaudio-audio/src/resilient.rs:153-171 | Standby is only published of a microphone a probe has just missed, Reconnecting only after a loss with a device there |
| `Resilient.LossMeans` | crates/liveaudio-audio/src/resilient.rs:153-161 | a loss counts a device as there exactly when the probe before it found one; loopback always has one |
| `Resilient.HonestStatus` | crates/liveaudio-audio/src/resilient.rs:131-204 | Capturing is published exactly while a stream is open; Stopped is last |
| `Resilient.DeliveredInOrder` | crates/liveaudio-audio/src/resilient.rs:207-239 | over any run, what goes downstream is exactly the chunks read from an open, unfailed stream and accepted, in input order across reconnects |
| `Resilient.SilenceBounded` | crates/liveaudio-audio/src/resilient.rs:207-239 | from the start on, a microphone stream watched every 500 ms never stays open for more than 5.5 s without a chunk |
| `Resilient.StreamEndsIff` | crates/liveaudio-audio/src/resilient.rs:207-239 | a stream is closed exactly on a stop, failure, end, closed downstream or the watchdog; otherwise it stays open, and only a chunk resets the watchdog |
| `Resilient.DoneIff` | crates/liveaudio-audio/src/resilient.rs:173-204 | supervision ends exactly on a stop or a closed downstream |
| `Resilient.BeginFailsIff` | crates/liveaudio-audio/src/resilient.rs:46-88 | start returns an error exactly when the source was called and failed beyond recovery |
| `Resilient.StepKeeps` | crates/liveaudio-audio/src/resilient.rs:148-239 | every await keeps the supervisor's invariant |
| `Resilient.Supervisor.OnLoss` | crates/liveaudio-audio/src/resilient.rs:153-161 | probe, status and delay after a loss |
| `Resilient.Supervisor.TryStart` | crates/liveaudio-audio/src/resilient.rs:163-171 | probe, start, status; a failed start ends as a loss |
| `Resilient.Supervisor.Forward` | crates/liveaudio-audio/src/resilient.rs:207-239 | the forwarding loop and its ways to end |
| `Resilient.Supervisor.RunLoop` | crates/liveaudio-audio/src/resilient.rs:173-204 | the supervision loop is the specified run |
| `ChildBudget.PrunedIsRecent` | liveaudio/service/supervisor.py:263-268 | the pruned list is the whole failure history of the last 300 s |
| `ChildBudget.FatalIffBurst` | liveaudio/service/supervisor.py:485-494 | a run is fatal exactly when three failures lie within 300 s |
| `ChildBudget.FailuresApart` | liveaudio/service/supervisor.py:485-501 | no failure is counted while a restart is pending, so two are at least 1 s apart |
| `ChildBudget.DelaysAreShort` | liveaudio/service/supervisor.py:270-272 | the delays scheduled are 1 s or 2 s |
| `ChildBudget.FailureCounted` | liveaudio/service/supervisor.py:485-494 | a failure is counted exactly when a child is dead and no restart is pending |
| `ChildBudget.FailureSchedules` | liveaudio/service/supervisor.py:263-272 | it is fatal exactly when the one before the last is within 300 s; otherwise a restart is due after 2 s if another is, else after 1 s |
| `ChildBudget.RestartsHappen` | liveaudio/service/supervisor.py:498-501 | in every run each restart scheduled has happened, but for the last one while it is not yet due |
| `ChildBudget.ProcessSupervisor.NoteFailure` | liveaudio/service/supervisor.py:263-268 | the filtering loop keeps the failures of the window, the new one is added, the ceiling tested |
| `ChildBudget.ProcessSupervisor.CheckOnChildren` | liveaudio/service/supervisor.py:485-496 | nothing while a restart is pending or all are alive, else fatal or a restart scheduled |
| `ChildBudget.ProcessSupervisor.RestartIfDue` | liveaudio/service/supervisor.py:498-501 | a due restart is taken and cleared |
| `ChildBudget.ProcessSupervisor.Serve` | liveaudio/service/supervisor.py:570-572 | the ticks in order are the specified run |
| `Bootstrap.AtMostTotal` | packaging/launcher.py:574-600 | the version order is total and antisymmetric |
| `Bootstrap.FirstDifference` | packaging/launcher.py:574-600 | the first part that differs decides, and a proper prefix is older |
| `Bootstrap.SatisfiesMeans` | packaging/launcher.py:587-600 | a parsed version satisfies another exactly when it is not older; an unparsable one has to be equal |
| `Bootstrap.ChoiceMeans` | packaging/launcher.py:1948-1988 | when the launcher takes the fast path, when it installs, and which version |
| `Bootstrap.DeviceMeans` | packaging/launcher.py:702-743 | the requested extra wins over the recorded one, which wins over the detected one |
| `Bootstrap.AlwaysSound` | packaging/launcher.py:616-653 | over any starts killed anywhere in which installed.json can be deleted, it only ever describes a complete tree and an environment in sync with it |
| `Bootstrap.FastPathIsSafe` | packaging/launcher.py:1948-1973 | the fast path is only taken on a complete install of what is recorded, with the requested extra |
| `Bootstrap.LowersIff` | packaging/launcher.py:1948-1988 | an ordinary run installs something older exactly when the launcher is older and installed.json is gone or another extra is requested |
| `Bootstrap.LoweredByDevice` | packaging/launcher.py:1948-1988 | a launcher run that asks for another device installs and launches its own older version |
| `Bootstrap.LoweredAfterKill` | packaging/launcher.py:1948-1988 | so does the ordinary run after an update killed at its first change to the disk |
| `Bootstrap.NeverLowered` | packaging/launcher.py:587-600 | ordinary runs of one launcher that keep the device never lower the installed version, wherever they are killed |
| `Bootstrap.TornByFailedUnlink` | packaging/launcher.py:616-630 | if installed.json cannot be deleted, every update killed while it clears app/ leaves it describing an app that is gone |
| `Bootstrap.Launcher.MarkInstallDirty` | packaging/launcher.py:616-630 | installed.json is deleted; an error of the deletion is ignored and leaves it |
| `Bootstrap.Launcher.ClearAppDir` | packaging/launcher.py:941-952 | app/ is emptied file by file in any order, one change each, .venv stays |
| `Bootstrap.Launcher.CopyTree` | packaging/launcher.py:955-972 | app/ becomes the source tree file by file |
| `Bootstrap.Launcher.RunUvSync` | packaging/launcher.py:1008-1072 | only a clean exit leaves the environment in sync |
| `Bootstrap.Launcher.RunBootstrap` | packaging/launcher.py:1492-1536 | it finishes if and only if every step goes well and it is not killed within the changes it needs; wherever else it stops, the disk is untouched, or installed.json is gone if it could be deleted |
| `Bootstrap.Launcher.Start` | packaging/launcher.py:1948-1988 | one start of the launcher: the choice, the extra chosen, exactly when a needed install completes and launches, and that what is launched is complete |

## Left out

- Float rounding, and with it `_format_vtt_time`: cue times are arbitrary strings without a newline.
- CPAL, the ring buffer, mixing to mono and sample conversion: the worker starts from mono batches.
- Chunks lost because the downstream channel is full: `Dsp.RunWithRnnoise` describes what is handed to `try_send`.
- Dsp.RunWithRnnoise: the stop flag and device errors only end the list of batches; they are not modelled as racing threads.
- Vad.VadWorker.Consume: chunks carry no capture times or sequence numbers.
- Poller.QueuePoller.Pass: a broadcast that raises, the backpressure clock and the health records; the latter two do not influence what is sent. The queue's content during one pass is fixed at its start; what arrives later belongs to the next pass.
- Poller.PacedIff: settings are real numbers; the fallback of `_config_float` on unreadable settings is an input.
- SessionWriter: not a class with mutable fields but a state machine of atomic steps, because its point is the interleaving of threads. A failed write leaves nothing in the file; a partly written line is not modelled. Timeouts may fire at any time.
- Cues.NoGaps: appends that are tried succeed. A record that failed to be written, or was written in part, can leave a gap. The file is seen after newline translation.
- Intercept.CutsDoNotMatter: the clock answers the k-th reading alike under every cutting of the output.
- Intercept.InterceptingWriter.OnProgress: the wording and statistics of the log line, and a log queue that is full. `parse_tqdm_percent` is an arbitrary function; its clamp is not.
- Intercept.InterceptingWriter.OnLine: the error and warning classes of a plain line.
- Resilient.SilenceBounded: assumes the watchdog interval is served within 500 ms while a stream is open.
- ChildBudget: detection of dead children, the restart itself, decode deadlines and the provisioning watchdog.
- Bootstrap.AlwaysSound: speaks of starts in which an old installed.json can be deleted, as the launcher relies on; `TornByFailedUnlink` shows what happens otherwise.
- Bootstrap: `--reinstall`, which wipes `app/` first, downloads, dialogs and two launchers running at once are not modelled. A version string stands for one source tree, so local checkouts that change under one version are not covered.
- The acoustic event detector, the ASR worker process, the service lock, the runtime publisher, all user interfaces, the updater and the configuration beyond the three phrase settings.
