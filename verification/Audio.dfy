// Types shared by the capture pipeline: samples, chunks and errors.
module Audio {

  datatype Option<+T> = None | Some(value: T)

  datatype AudioError = InvalidParameter | BackendError

  datatype Result<+T> = Ok(value: T) | Err(error: AudioError)

  /** A 32-bit float sample. Finite samples are reals; NaN and the infinities are one value. */
  datatype Sample = Finite(value: real) | NonFinite

  datatype AudioChunk = AudioChunk(
    samples: seq<Sample>, sampleRate: nat, channels: nat, timestampNs: nat, sequenceId: nat)

  const DEFAULT_SAMPLE_RATE: nat := 16000
  const DEFAULT_CHUNK_SIZE: nat := 512

  predicate AllFinite(s: seq<Sample>) {
    forall i | 0 <= i < |s| :: s[i].Finite?
  }

  function Clamp(x: real, lo: real, hi: real): (r: real)
    requires lo <= hi
    ensures lo <= r <= hi && (lo <= x <= hi ==> r == x) && (x < lo ==> r == lo) && (x > hi ==> r == hi)
  {
    if x < lo then lo else if x > hi then hi else x
  }

  /** The samples of consecutive chunks, end to end. */
  function SamplesOf(chunks: seq<AudioChunk>): seq<Sample> {
    if chunks == [] then [] else chunks[0].samples + SamplesOf(chunks[1..])
  }

  lemma {:induction false} SamplesOfAppend(a: seq<AudioChunk>, b: seq<AudioChunk>)
    ensures SamplesOf(a + b) == SamplesOf(a) + SamplesOf(b)
  {
    if a == [] {
      assert a + b == b;
    } else {
      assert (a + b)[1..] == a[1..] + b;
      SamplesOfAppend(a[1..], b);
    }
  }

  lemma AppendAssoc<T>(a: seq<T>, b: seq<T>, c: seq<T>)
    ensures (a + b) + c == a + (b + c)
  {
  }
}
