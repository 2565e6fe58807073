// liveaudio/core/audio.py: the VAD worker that cuts the captured stream into phrases.
module Vad {
  import opened A = Audio

  datatype Reason = Duration | Silence

  /** Pre-roll, phrase cap and silence limit, all in chunks. */
  datatype Limits = Limits(pre: nat, max: nat, silence: nat)

  function PhraseEndReason(chunkCount: nat, silenceCount: nat, maxChunks: nat, silenceLimit: nat): Option<Reason> {
    if chunkCount >= maxChunks then Some(Duration)
    else if silenceCount > silenceLimit then Some(Silence)
    else None
  }

  function Min(a: nat, b: nat): nat {
    if a <= b then a else b
  }

  // ------------------------------------------------------------------ the cuts a stream gets

  /** Chunks lo..hi of the stream; the first voiced one is `onset`. */
  datatype Phrase = Phrase(lo: nat, onset: nat, hi: nat)

  /** The phrases cut so far; `start` is the open phrase's first chunk, or the end of the last phrase. */
  datatype Cut = Cut(phrases: seq<Phrase>, speaking: bool, start: nat, onset: nat, silence: nat)

  function CloseOrKeep(lim: Limits, c: Cut, n: nat): (r: Cut)
    requires c.start < n
    ensures r.start <= n
  {
    if PhraseEndReason(n - c.start, c.silence, lim.max, lim.silence).Some?
    then Cut(c.phrases + [Phrase(c.start, c.onset, n)], false, n, n, 0)
    else c
  }

  /** The effect of chunk number n. */
  function NextCut(lim: Limits, c: Cut, n: nat, voiced: bool): (r: Cut)
    requires c.start <= n
    ensures r.start <= n + 1
  {
    if voiced then
      var open := if c.speaking then c.(silence := 0)
                  else Cut(c.phrases, true, n - Min(lim.pre, n - c.start), n, 0);
      CloseOrKeep(lim, open, n + 1)
    else if c.speaking then CloseOrKeep(lim, c.(silence := c.silence + 1), n + 1)
    else c
  }

  function Cuts(lim: Limits, flags: seq<bool>): (c: Cut)
    ensures c.start <= |flags|
    decreases |flags|
  {
    if flags == [] then Cut([], false, 0, 0, 0)
    else NextCut(lim, Cuts(lim, flags[..|flags| - 1]), |flags| - 1, flags[|flags| - 1])
  }

  // ------------------------------------------------------------------ what a segmentation is

  ghost predicate Silent(flags: seq<bool>, lo: nat, hi: nat) {
    hi <= |flags| && forall i | lo <= i < hi :: !flags[i]
  }

  /** The phrase holding lo..n is over at n: it is full, or its last silence + 1 chunks are unvoiced. */
  ghost predicate Over(lim: Limits, flags: seq<bool>, lo: nat, n: nat) {
    n - lo >= lim.max || (n >= lo + lim.silence + 1 && Silent(flags, n - lim.silence - 1, n))
  }

  /** From `prev` on: silence up to the first voiced chunk v, and a lead-in of all of it up to pre chunks. */
  ghost predicate Onset(lim: Limits, flags: seq<bool>, prev: nat, lo: nat, v: nat) {
    && prev <= lo <= v < |flags|
    && Silent(flags, prev, v) && flags[v]
    && v - lo == Min(lim.pre, v - prev)
  }

  /** An onset at v and no earlier end: the phrase is still open at n. */
  ghost predicate Open(lim: Limits, flags: seq<bool>, lo: nat, v: nat, n: nat) {
    forall e: nat | v < e < n :: !Over(lim, flags, lo, e)
  }

  /** A finished phrase after `prev`: an onset, closed at the first moment it is over. */
  ghost predicate Closed(lim: Limits, flags: seq<bool>, prev: nat, p: Phrase) {
    && Onset(lim, flags, prev, p.lo, p.onset) && p.onset < p.hi <= |flags|
    && Over(lim, flags, p.lo, p.hi) && Open(lim, flags, p.lo, p.onset, p.hi)
  }

  function EndBefore(phrases: seq<Phrase>, i: nat): nat
    requires i <= |phrases|
  {
    if i == 0 then 0 else phrases[i - 1].hi
  }

  ghost predicate ClosedAt(lim: Limits, flags: seq<bool>, phrases: seq<Phrase>, i: nat)
    requires i < |phrases|
  {
    Closed(lim, flags, EndBefore(phrases, i), phrases[i])
  }

  ghost predicate AllClosed(lim: Limits, flags: seq<bool>, phrases: seq<Phrase>) {
    forall i: nat | i < |phrases| :: ClosedAt(lim, flags, phrases, i)
  }

  ghost predicate IsSegmentation(lim: Limits, flags: seq<bool>, c: Cut) {
    && AllClosed(lim, flags, c.phrases)
    && var prev := EndBefore(c.phrases, |c.phrases|);
       if c.speaking
       then && Onset(lim, flags, prev, c.start, c.onset) && Open(lim, flags, c.start, c.onset, |flags|)
            && !Over(lim, flags, c.start, |flags|)
       else c.start == prev && prev <= |flags| && Silent(flags, prev, |flags|)
  }

  // ------------------------------------------------------------------ the worker's cuts are that segmentation

  /** Facts about a prefix of the stream still hold of the longer stream. */
  lemma SilentGrows(flags: seq<bool>, more: bool, lo: nat, hi: nat)
    requires hi <= |flags|
    ensures Silent(flags + [more], lo, hi) <==> Silent(flags, lo, hi)
  {
    if Silent(flags + [more], lo, hi) {
      forall i | lo <= i < hi
        ensures !flags[i]
      {
        assert !(flags + [more])[i];
      }
    }
  }

  lemma OverGrows(lim: Limits, flags: seq<bool>, more: bool, lo: nat, n: nat)
    requires n <= |flags|
    ensures Over(lim, flags + [more], lo, n) <==> Over(lim, flags, lo, n)
  {
    if n >= lo + lim.silence + 1 {
      SilentGrows(flags, more, n - lim.silence - 1, n);
    }
  }

  lemma OpenGrows(lim: Limits, flags: seq<bool>, more: bool, lo: nat, v: nat, n: nat)
    requires n <= |flags| + 1 && Open(lim, flags, lo, v, n)
    ensures Open(lim, flags + [more], lo, v, n)
  {
    forall e: nat | v < e < n
      ensures !Over(lim, flags + [more], lo, e)
    {
      OverGrows(lim, flags, more, lo, e);
    }
  }

  lemma OnsetGrows(lim: Limits, flags: seq<bool>, more: bool, prev: nat, lo: nat, v: nat)
    requires Onset(lim, flags, prev, lo, v)
    ensures Onset(lim, flags + [more], prev, lo, v)
  {
    SilentGrows(flags, more, prev, v);
  }

  lemma ClosedGrows(lim: Limits, flags: seq<bool>, more: bool, phrases: seq<Phrase>)
    requires AllClosed(lim, flags, phrases)
    ensures AllClosed(lim, flags + [more], phrases)
  {
    forall i: nat | i < |phrases|
      ensures ClosedAt(lim, flags + [more], phrases, i)
    {
      assert ClosedAt(lim, flags, phrases, i);
      var p := phrases[i];
      OnsetGrows(lim, flags, more, EndBefore(phrases, i), p.lo, p.onset);
      OverGrows(lim, flags, more, p.lo, p.hi);
      OpenGrows(lim, flags, more, p.lo, p.onset, p.hi);
    }
  }

  /** The open phrase's silence counter is the length of its unvoiced tail, and never past the limit. */
  ghost predicate Counts(flags: seq<bool>, c: Cut) {
    && c.start + c.silence < |flags|
    && Silent(flags, |flags| - c.silence, |flags|) && flags[|flags| - c.silence - 1]
  }

  ghost predicate Follows(lim: Limits, flags: seq<bool>, c: Cut) {
    IsSegmentation(lim, flags, c) && (c.speaking ==> Counts(flags, c) && c.silence <= lim.silence)
  }

  /** For every stream: the worker's phrases are its segmentation. */
  lemma {:induction false} CutsAreSegmentation(lim: Limits, flags: seq<bool>)
    ensures Follows(lim, flags, Cuts(lim, flags))
    decreases |flags|
  {
    hide Follows, NextCut;
    if flags == [] {
      NothingCut(lim);
    } else {
      var before, last := flags[..|flags| - 1], flags[|flags| - 1];
      CutsAreSegmentation(lim, before);
      assert flags == before + [last];
      NextCutSegments(lim, before, last, Cuts(lim, before));
    }
  }

  lemma NothingCut(lim: Limits)
    ensures Follows(lim, [], Cut([], false, 0, 0, 0))
  {
  }

  lemma NextCutSegments(lim: Limits, flags: seq<bool>, voiced: bool, c: Cut)
    requires Follows(lim, flags, c) && c.start <= |flags|
    ensures Follows(lim, flags + [voiced], NextCut(lim, c, |flags|, voiced))
  {
    hide Over, Closed;
    var n, all := |flags|, flags + [voiced];
    var prev := EndBefore(c.phrases, |c.phrases|);
    ClosedGrows(lim, flags, voiced, c.phrases);
    if c.speaking {
      OpenGrows(lim, flags, voiced, c.start, c.onset, n);
      OverGrows(lim, flags, voiced, c.start, n);
      OnsetGrows(lim, flags, voiced, prev, c.start, c.onset);
      assert Open(lim, all, c.start, c.onset, n + 1);
      CloseSegments(lim, all, if voiced then c.(silence := 0) else c.(silence := c.silence + 1));
    } else {
      SilentGrows(flags, voiced, prev, n);
      if voiced {
        var start := n - Min(lim.pre, n - c.start);
        assert Onset(lim, all, prev, start, n);
        assert Open(lim, all, start, n, n + 1);
        CloseSegments(lim, all, Cut(c.phrases, true, start, n, 0));
      }
    }
  }

  /** The end test on the newest chunk closes the phrase exactly when it is over. */
  lemma CloseSegments(lim: Limits, flags: seq<bool>, c: Cut)
    requires AllClosed(lim, flags, c.phrases) && c.speaking
    requires Onset(lim, flags, EndBefore(c.phrases, |c.phrases|), c.start, c.onset)
    requires Open(lim, flags, c.start, c.onset, |flags|)
    requires Counts(flags, c) && c.silence <= lim.silence + 1
    ensures Follows(lim, flags, CloseOrKeep(lim, c, |flags|))
  {
    hide Over, Open;
    EndTest(lim, flags, c);
    if Over(lim, flags, c.start, |flags|) {
      var phrases := c.phrases + [Phrase(c.start, c.onset, |flags|)];
      forall i: nat | i < |phrases|
        ensures ClosedAt(lim, flags, phrases, i)
      {
        assert EndBefore(phrases, i) == EndBefore(c.phrases, i);
        if i < |c.phrases| {
          assert ClosedAt(lim, flags, c.phrases, i);
        }
      }
    }
  }

  lemma EndTest(lim: Limits, flags: seq<bool>, c: Cut)
    requires Counts(flags, c) && c.silence <= lim.silence + 1
    ensures Over(lim, flags, c.start, |flags|)
            <==> PhraseEndReason(|flags| - c.start, c.silence, lim.max, lim.silence).Some?
  {
    var n := |flags|;
    if c.silence <= lim.silence && n >= c.start + lim.silence + 1 {
      assert n - lim.silence - 1 <= n - c.silence - 1 < n;
      assert !Silent(flags, n - lim.silence - 1, n);
    }
  }

  // ------------------------------------------------------------------ consequences

  /** Phrases are ordered and disjoint. */
  lemma {:induction false} PhrasesOrdered(lim: Limits, flags: seq<bool>, phrases: seq<Phrase>, i: nat, j: nat)
    requires AllClosed(lim, flags, phrases) && i < j < |phrases|
    ensures phrases[i].lo < phrases[i].hi <= phrases[j].lo
    decreases j - i
  {
    assert ClosedAt(lim, flags, phrases, i) && ClosedAt(lim, flags, phrases, j);
    if i + 1 < j {
      PhrasesOrdered(lim, flags, phrases, i, j - 1);
      assert ClosedAt(lim, flags, phrases, j - 1);
    }
  }

  /** Every voiced chunk before the end of phrase k - 1 is in one of the first k phrases. */
  lemma {:induction false} VoicedCovered(lim: Limits, flags: seq<bool>, phrases: seq<Phrase>, k: nat, x: nat)
    returns (i: nat)
    requires AllClosed(lim, flags, phrases) && k <= |phrases|
    requires x < EndBefore(phrases, k) && x < |flags| && flags[x]
    ensures i < k && phrases[i].lo <= x < phrases[i].hi
  {
    var p := phrases[k - 1];
    assert ClosedAt(lim, flags, phrases, k - 1);
    if x < EndBefore(phrases, k - 1) {
      i := VoicedCovered(lim, flags, phrases, k - 1, x);
    } else {
      i := k - 1;
    }
  }

  /**
   * The phrases partition the speech of any stream: they are disjoint and ordered, and every voiced
   * chunk is in one of them or in the open buffer.
   */
  lemma SegmentationIsPartition(lim: Limits, flags: seq<bool>)
    ensures var c := Cuts(lim, flags);
            && (forall i, j | 0 <= i < j < |c.phrases| :: c.phrases[i].hi <= c.phrases[j].lo)
            && (c.phrases != [] ==> c.phrases[|c.phrases| - 1].hi <= c.start)
            && (forall x | 0 <= x < |flags| && flags[x] ::
                  (exists i :: 0 <= i < |c.phrases| && c.phrases[i].lo <= x < c.phrases[i].hi)
                  || (c.speaking && c.start <= x))
  {
    hide Closed, Cuts;
    CutsAreSegmentation(lim, flags);
    var c := Cuts(lim, flags);
    forall i, j | 0 <= i < j < |c.phrases|
      ensures c.phrases[i].hi <= c.phrases[j].lo
    {
      PhrasesOrdered(lim, flags, c.phrases, i, j);
    }
    forall x | 0 <= x < |flags| && flags[x]
      ensures (exists i :: 0 <= i < |c.phrases| && c.phrases[i].lo <= x < c.phrases[i].hi)
              || (c.speaking && c.start <= x)
    {
      if x < EndBefore(c.phrases, |c.phrases|) {
        var i := VoicedCovered(lim, flags, c.phrases, |c.phrases|, x);
      } else if c.speaking && x < c.start {
        assert false;
      }
    }
  }

  /** No phrase, open or finished, is longer than the cap, as long as the pre-roll fits below it. */
  lemma PhraseLength(lim: Limits, flags: seq<bool>, i: nat)
    requires lim.pre < lim.max
    ensures var c := Cuts(lim, flags);
            && (i < |c.phrases| ==> c.phrases[i].hi - c.phrases[i].lo <= lim.max)
            && (c.speaking ==> |flags| - c.start < lim.max)
  {
    CutsAreSegmentation(lim, flags);
    var c := Cuts(lim, flags);
    if i < |c.phrases| {
      assert ClosedAt(lim, flags, c.phrases, i);
      var p := c.phrases[i];
      if p.hi - 1 > p.onset {
        assert !Over(lim, flags, p.lo, p.hi - 1);
      }
    }
  }

  /** A phrase cut short of the cap ends in exactly silence + 1 unvoiced chunks after a voiced one. */
  lemma ShortPhraseTail(lim: Limits, flags: seq<bool>, i: nat)
    requires i < |Cuts(lim, flags).phrases|
    ensures var p := Cuts(lim, flags).phrases[i];
            p.hi - p.lo < lim.max ==>
              && p.onset < p.hi - lim.silence - 1 && p.hi <= |flags|
              && Silent(flags, p.hi - lim.silence - 1, p.hi) && flags[p.hi - lim.silence - 2]
  {
    CutsAreSegmentation(lim, flags);
    var c := Cuts(lim, flags);
    assert ClosedAt(lim, flags, c.phrases, i);
    var p := c.phrases[i];
    if p.hi - p.lo < lim.max {
      var tail := p.hi - lim.silence - 1;
      assert tail > p.onset;
      if tail - 1 > p.onset {
        assert !Over(lim, flags, p.lo, p.hi - 1);
      }
    }
  }

  // ------------------------------------------------------------------ the segmentation is unique

  lemma OnsetUnique(lim: Limits, flags: seq<bool>, prev: nat, lo: nat, v: nat, lo': nat, v': nat)
    requires Onset(lim, flags, prev, lo, v) && Onset(lim, flags, prev, lo', v')
    ensures lo == lo' && v == v'
  {
  }

  lemma ClosedUnique(lim: Limits, flags: seq<bool>, prev: nat, p: Phrase, q: Phrase)
    requires Closed(lim, flags, prev, p) && Closed(lim, flags, prev, q)
    ensures p == q
  {
    OnsetUnique(lim, flags, prev, p.lo, p.onset, q.lo, q.onset);
    assert Over(lim, flags, p.lo, p.hi) && Over(lim, flags, q.lo, q.hi);
  }

  /** Where one segmentation has no further phrase, no other has one. */
  lemma NoFurtherPhrase(lim: Limits, flags: seq<bool>, c: Cut, p: Phrase)
    requires IsSegmentation(lim, flags, c)
    ensures !Closed(lim, flags, EndBefore(c.phrases, |c.phrases|), p)
  {
    var prev := EndBefore(c.phrases, |c.phrases|);
    if Closed(lim, flags, prev, p) && c.speaking {
      OnsetUnique(lim, flags, prev, p.lo, p.onset, c.start, c.onset);
    }
  }

  lemma {:induction false} SamePhrases(lim: Limits, flags: seq<bool>, c: Cut, d: Cut, n: nat)
    requires IsSegmentation(lim, flags, c) && IsSegmentation(lim, flags, d)
    requires n <= |c.phrases| && n <= |d.phrases|
    ensures c.phrases[..n] == d.phrases[..n]
  {
    if n > 0 {
      SamePhrases(lim, flags, c, d, n - 1);
      assert ClosedAt(lim, flags, c.phrases, n - 1) && ClosedAt(lim, flags, d.phrases, n - 1);
      if n > 1 {
        assert c.phrases[n - 2] == c.phrases[..n - 1][n - 2] == d.phrases[..n - 1][n - 2] == d.phrases[n - 2];
      }
      ClosedUnique(lim, flags, EndBefore(c.phrases, n - 1), c.phrases[n - 1], d.phrases[n - 1]);
      assert c.phrases[..n] == c.phrases[..n - 1] + [c.phrases[n - 1]];
      assert d.phrases[..n] == d.phrases[..n - 1] + [d.phrases[n - 1]];
    }
  }

  /** The rules determine the phrases: any segmentation of a stream is the worker's. */
  lemma SegmentationUnique(lim: Limits, flags: seq<bool>, d: Cut)
    requires IsSegmentation(lim, flags, d)
    ensures d.phrases == Cuts(lim, flags).phrases && d.speaking == Cuts(lim, flags).speaking
    ensures d.start == Cuts(lim, flags).start
  {
    hide Closed, Cuts, Over;
    CutsAreSegmentation(lim, flags);
    var c := Cuts(lim, flags);
    var n := Min(|c.phrases|, |d.phrases|);
    SamePhrases(lim, flags, c, d, n);
    if |d.phrases| == n {
      NoneAfter(lim, flags, d, c);
    } else {
      NoneAfter(lim, flags, c, d);
    }
    assert c.phrases == c.phrases[..n] && d.phrases == d.phrases[..n];
    var prev := EndBefore(c.phrases, n);
    if c.speaking && d.speaking {
      OnsetUnique(lim, flags, prev, c.start, c.onset, d.start, d.onset);
    }
  }

  lemma NoneAfter(lim: Limits, flags: seq<bool>, shorter: Cut, longer: Cut)
    requires IsSegmentation(lim, flags, shorter) && IsSegmentation(lim, flags, longer)
    requires |shorter.phrases| <= |longer.phrases|
    requires shorter.phrases[..|shorter.phrases|] == longer.phrases[..|shorter.phrases|]
    ensures |longer.phrases| == |shorter.phrases|
  {
    var n := |shorter.phrases|;
    assert n > 0 ==> shorter.phrases[n - 1] == shorter.phrases[..n][n - 1] == longer.phrases[..n][n - 1];
    if n < |longer.phrases| {
      assert ClosedAt(lim, flags, longer.phrases, n);
      NoFurtherPhrase(lim, flags, shorter, longer.phrases[n]);
    }
  }

  // ------------------------------------------------------------------ the worker

  /** A chunk and the verdict of the voice detector on it. */
  datatype Heard<T> = Heard(chunk: T, voiced: bool)

  function Flags<T>(stream: seq<Heard<T>>): (f: seq<bool>)
    ensures |f| == |stream|
  {
    seq(|stream|, i requires 0 <= i < |stream| => stream[i].voiced)
  }

  function Chunks<T>(stream: seq<Heard<T>>, lo: int, hi: int): seq<T> {
    if 0 <= lo <= hi <= |stream| then seq(hi - lo, i requires 0 <= i < hi - lo => stream[lo + i].chunk) else []
  }

  /** The audio of each phrase: exactly its slice of the stream. */
  function Audio<T>(stream: seq<Heard<T>>, phrases: seq<Phrase>): seq<seq<T>> {
    seq(|phrases|, i requires 0 <= i < |phrases| => Chunks(stream, phrases[i].lo, phrases[i].hi))
  }

  lemma ChunksGrow<T>(stream: seq<Heard<T>>, h: Heard<T>, lo: int, hi: int)
    requires hi <= |stream|
    ensures Chunks(stream + [h], lo, hi) == Chunks(stream, lo, hi)
    ensures 0 <= lo <= |stream| ==> Chunks(stream + [h], lo, |stream| + 1) == Chunks(stream, lo, |stream|) + [h.chunk]
  {
  }

  lemma AudioGrows<T>(lim: Limits, stream: seq<Heard<T>>, h: Heard<T>, phrases: seq<Phrase>)
    requires AllClosed(lim, Flags(stream), phrases)
    ensures Audio(stream + [h], phrases) == Audio(stream, phrases)
  {
    forall i: nat | i < |phrases|
      ensures Audio(stream + [h], phrases)[i] == Audio(stream, phrases)[i]
    {
      assert ClosedAt(lim, Flags(stream), phrases, i);
      ChunksGrow(stream, h, phrases[i].lo, phrases[i].hi);
    }
  }

  function OpenAudio<T>(stream: seq<Heard<T>>, c: Cut): seq<T> {
    if c.speaking then Chunks(stream, c.start, |stream|) else []
  }

  /** The latest chunks since the last phrase, up to lim.pre of them. */
  function PreRoll<T>(lim: Limits, stream: seq<Heard<T>>, c: Cut): seq<T>
    requires c.start <= |stream|
  {
    if c.speaking then [] else Chunks(stream, |stream| - Min(lim.pre, |stream| - c.start), |stream|)
  }

  lemma NowIsNext<T>(lim: Limits, stream: seq<Heard<T>>, h: Heard<T>)
    ensures Cuts(lim, Flags(stream + [h])) == NextCut(lim, Cuts(lim, Flags(stream)), |stream|, h.voiced)
  {
    assert Flags(stream + [h])[..|stream|] == Flags(stream);
  }

  /** What the end test does to the open phrase's audio and to the phrases formed. */
  lemma ClosedAudio<T>(lim: Limits, stream: seq<Heard<T>>, open: Cut)
    requires open.speaking && open.start < |stream|
    ensures var joined, d := Chunks(stream, open.start, |stream|), CloseOrKeep(lim, open, |stream|);
            var over := PhraseEndReason(|joined|, open.silence, lim.max, lim.silence).Some?;
            && |joined| == |stream| - open.start
            && OpenAudio(stream, d) == (if over then [] else joined)
            && PreRoll(lim, stream, d) == []
            && d.speaking == !over && d.silence == (if over then 0 else open.silence)
            && Audio(stream, d.phrases) == Audio(stream, open.phrases) + (if over then [joined] else [])
  {
  }

  class VadWorker<T> {
    const limits: Limits
    var speechBuffer: seq<T>
    var silenceCounter: nat
    var isSpeaking: bool
    /** A bounded deque: at most limits.pre of the latest unvoiced chunks. */
    var preBuffer: seq<T>
    /** Phrases the audio queue took, and how many it was too full for. */
    var queued: seq<seq<T>>
    var dropped: nat
    ghost var stream: seq<Heard<T>>
    ghost var formed: seq<seq<T>>

    ghost function Now(): Cut
      reads this
    {
      Cuts(limits, Flags(stream))
    }

    ghost predicate Valid()
      reads this
    {
      && limits.pre >= 1
      && isSpeaking == Now().speaking
      && (isSpeaking ==> silenceCounter == Now().silence)
      && (!isSpeaking ==> silenceCounter == 0)
      && speechBuffer == OpenAudio(stream, Now())
      && preBuffer == PreRoll(limits, stream, Now())
      && formed == Audio(stream, Now().phrases)
      && |queued| + dropped == |formed|
    }

    constructor (limits: Limits)
      requires limits.pre >= 1
      ensures Valid() && stream == [] && formed == [] && this.limits == limits
    {
      this.limits := limits;
      speechBuffer, silenceCounter, isSpeaking, preBuffer, queued, dropped := [], 0, false, [], [], 0;
      stream, formed := [], [];
    }

    /** Hands a finished phrase over; a full queue loses it, and the speech buffer its oldest chunk. */
    method EnqueuePhrase(fullAudio: seq<T>, room: bool)
      modifies this`queued, this`dropped, this`speechBuffer, this`formed
      ensures formed == old(formed) + [fullAudio]
      ensures if room then queued == old(queued) + [fullAudio] && dropped == old(dropped)
              else queued == old(queued) && dropped == old(dropped) + 1
      ensures speechBuffer == if room || old(speechBuffer) == [] then old(speechBuffer) else old(speechBuffer)[1..]
    {
      formed := formed + [fullAudio];
      if room {
        queued := queued + [fullAudio];
      } else {
        if speechBuffer != [] {
          speechBuffer := speechBuffer[1..];
        }
        dropped := dropped + 1;
      }
    }

    /** The end test after a chunk joined the open phrase. */
    method CloseIfOver(room: bool)
      modifies this`speechBuffer, this`silenceCounter, this`isSpeaking, this`queued, this`dropped, this`formed
      ensures var over := PhraseEndReason(|old(speechBuffer)|, old(silenceCounter), limits.max, limits.silence).Some?;
              && speechBuffer == (if over then [] else old(speechBuffer))
              && silenceCounter == (if over then 0 else old(silenceCounter))
              && isSpeaking == (if over then false else old(isSpeaking))
              && formed == (if over then old(formed) + [old(speechBuffer)] else old(formed))
              && |queued| + dropped == |old(queued)| + old(dropped) + (if over then 1 else 0)
              && queued == (if over && room then old(queued) + [old(speechBuffer)] else old(queued))
    {
      if PhraseEndReason(|speechBuffer|, silenceCounter, limits.max, limits.silence).Some? {
        EnqueuePhrase(speechBuffer, room);
        speechBuffer := [];
        isSpeaking := false;
        silenceCounter := 0;
      }
    }

    /** What adding a chunk does to the ghost history before the buffers follow. */
    lemma Next(h: Heard<T>)
      requires Valid()
      ensures var c, n := Now(), |stream|;
              && Cuts(limits, Flags(stream + [h])) == NextCut(limits, c, n, h.voiced)
              && Audio(stream + [h], c.phrases) == formed
              && c.start <= n
              && (isSpeaking ==> c.start < n && Chunks(stream + [h], c.start, n + 1) == speechBuffer + [h.chunk])
              && (!isSpeaking ==> var lo := n - Min(limits.pre, n - c.start);
                    Chunks(stream + [h], lo, n + 1) == preBuffer + [h.chunk] && |preBuffer| == n - lo)
    {
      CutsAreSegmentation(limits, Flags(stream));
      NowIsNext(limits, stream, h);
      AudioGrows(limits, stream, h, Now().phrases);
      ChunksGrow(stream, h, Now().start, |stream|);
      ChunksGrow(stream, h, |stream| - Min(limits.pre, |stream| - Now().start), |stream|);
    }

    /** A voiced chunk: the pre-roll joins at the transition, the chunk always. */
    method HearVoice(chunk: T, room: bool)
      requires Valid()
      modifies this
      ensures Valid() && stream == old(stream) + [Heard(chunk, true)]
      ensures Grew(old(formed), old(queued), room)
    {
      hide Cuts, Audio, Chunks, PhraseEndReason;
      ghost var h := Heard(chunk, true);
      ghost var c, n := Now(), |stream|;
      ghost var open := if isSpeaking then c.(silence := 0)
                        else Cut(c.phrases, true, n - Min(limits.pre, n - c.start), n, 0);
      Next(h);
      ClosedAudio(limits, stream + [h], open);
      if !isSpeaking {
        speechBuffer := speechBuffer + preBuffer;
        preBuffer := [];
      }
      isSpeaking := true;
      silenceCounter := 0;
      speechBuffer := speechBuffer + [chunk];
      assert speechBuffer == Chunks(stream + [h], open.start, n + 1);
      stream := stream + [h];
      CloseIfOver(room);
    }

    /** An unvoiced chunk inside a phrase. */
    method HearPause(chunk: T, room: bool)
      requires Valid() && isSpeaking
      modifies this
      ensures Valid() && stream == old(stream) + [Heard(chunk, false)]
      ensures Grew(old(formed), old(queued), room)
    {
      hide Cuts, Audio, Chunks, PhraseEndReason;
      ghost var h := Heard(chunk, false);
      Next(h);
      ClosedAudio(limits, stream + [h], Now().(silence := Now().silence + 1));
      silenceCounter := silenceCounter + 1;
      speechBuffer := speechBuffer + [chunk];
      stream := stream + [h];
      CloseIfOver(room);
    }

    /** An unvoiced chunk between phrases goes to the pre-roll. */
    method HearSilence(chunk: T)
      requires Valid() && !isSpeaking
      modifies this`preBuffer, this`stream
      ensures Valid() && stream == old(stream) + [Heard(chunk, false)]
    {
      ghost var h := Heard(chunk, false);
      Next(h);
      PreRollSlides(limits, stream, h, Now());
      preBuffer := if |preBuffer| == limits.pre then preBuffer[1..] + [chunk] else preBuffer + [chunk];
      stream := stream + [h];
    }

    /** At most one phrase was formed; it was queued exactly if there was room. */
    ghost predicate Grew(formed0: seq<seq<T>>, queued0: seq<seq<T>>, room: bool)
      reads this
    {
      if |formed| == |formed0| then formed == formed0 && queued == queued0
      else && |formed| == |formed0| + 1 && formed[..|formed0|] == formed0
           && queued == if room then queued0 + [formed[|formed0|]] else queued0
    }

    /** One chunk from the ring buffer; `room` says whether the audio queue would take a phrase now. */
    method Consume(chunk: T, voiced: bool, room: bool)
      requires Valid()
      modifies this
      ensures Valid() && stream == old(stream) + [Heard(chunk, voiced)]
      ensures Grew(old(formed), old(queued), room)
    {
      if voiced {
        HearVoice(chunk, room);
      } else if isSpeaking {
        HearPause(chunk, room);
      } else {
        HearSilence(chunk);
      }
    }
  }

  /** The bounded pre-roll slides: it keeps the latest chunks. */
  lemma PreRollSlides<T>(lim: Limits, stream: seq<Heard<T>>, h: Heard<T>, c: Cut)
    requires !c.speaking && c.start <= |stream| && lim.pre >= 1
    ensures var before, after := PreRoll(lim, stream, c), PreRoll(lim, stream + [h], c);
            after == if |before| == lim.pre then before[1..] + [h.chunk] else before + [h.chunk]
  {
    ChunksGrow(stream, h, |stream| - Min(lim.pre, |stream| - c.start), |stream|);
  }
}
