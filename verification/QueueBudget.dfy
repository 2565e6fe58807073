// liveaudio/utils/config.py and liveaudio/core/audio.py: the three settings that shape a phrase,
// how they are normalized, and the queue capacity computed from them.
module QueueBudget {
  import opened A = Audio
  import V = Vad

  // ------------------------------------------------------------------ raw settings

  /** A float: finite, or NaN or an infinity. */
  datatype Float = Finite(value: real) | NonFinite

  /** A setting as read from JSON; a string carries what float() and int() make of it. */
  datatype Raw =
    | Missing
    | Null
    | Bool
    | Int(i: int)
    | Flt(f: Float)
    | Str(asFloat: Option<Float>, asInt: Option<int>)
    | Compound

  function CastFloat(v: Raw): Option<Float> {
    match v
    case Int(i) => Some(Float.Finite(i as real))
    case Flt(f) => Some(f)
    case Str(f, _) => f
    case _ => None
  }

  function Truncate(x: real): int {
    if x >= 0.0 then x.Floor else -((-x).Floor)
  }

  function CastInt(v: Raw): Option<int> {
    match v
    case Int(i) => Some(i)
    case Flt(Finite(x)) => Some(Truncate(x))
    case Str(_, i) => i
    case _ => None
  }

  function ClampFloat(v: Raw, default: real, lo: real, hi: real): (r: real)
    requires lo <= default <= hi
    ensures lo <= r <= hi
  {
    match CastFloat(v)
    case Some(Finite(x)) => if x < lo then lo else if x > hi then hi else x
    case _ => default
  }

  function ClampInt(v: Raw, default: int, lo: int, hi: int): (r: int)
    requires lo <= default <= hi
    ensures lo <= r <= hi
  {
    match CastInt(v)
    case Some(i) => if i < lo then lo else if i > hi then hi else i
    case None => default
  }

  predicate IsNumber(v: Raw) {
    v.Int? || v.Flt?
  }

  /** round(x, 1): to the nearest tenth, ties to even. */
  function Round1(x: real): real {
    var y := x * 10.0;
    var f := y.Floor;
    var up := y - f as real > 0.5 || (y - f as real == 0.5 && f % 2 != 0);
    (if up then f + 1 else f) as real / 10.0
  }

  datatype Purpose = Subtitles | Transcription | Combined | Unknown

  /** The relevant part of config.json. */
  datatype Config = Config(purpose: Purpose, maxDuration: Raw, silence: Raw, padMs: Raw)

  datatype Settings = Settings(purpose: Purpose, maxDuration: real, silence: real, padMs: int)

  /** _normalize_config on these keys. */
  function Normalize(c: Config): Settings {
    var purpose := if c.purpose == Unknown then Subtitles else c.purpose;
    var long := purpose != Subtitles;
    var hi, default := if long then 60.0 else 15.0, if long then 30.0 else 5.0;
    var maxDuration := if !IsNumber(c.maxDuration) then default else ClampFloat(c.maxDuration, default, 1.0, hi);
    Settings(purpose, Round1(maxDuration), Round1(ClampFloat(c.silence, 0.8, 0.3, 2.0)), ClampInt(c.padMs, 200, 0, 500))
  }

  function ToConfig(s: Settings): Config {
    Config(s.purpose, Flt(Float.Finite(s.maxDuration)), Flt(Float.Finite(s.silence)), Int(s.padMs))
  }

  // ------------------------------------------------------------------ capacity and chunk limits

  const FRAME_SEC: real := 512.0 / 16000.0
  const BUDGET_SEC: real := 60.0

  function FiniteSetting(v: Raw, default: real, lo: real, hi: real): real
    requires lo <= default <= hi
  {
    if IsNumber(v) then ClampFloat(v, default, lo, hi) else default
  }

  /** audio_queue_capacity: how many phrases the queue may hold. */
  function Capacity(c: Config): (r: nat)
    ensures 1 <= r <= 100
  {
    var phrase := FiniteSetting(c.maxDuration, 5.0, 1.0, 60.0) + FiniteSetting(c.silence, 0.8, 0.3, 2.0)
                  + FiniteSetting(c.padMs, 200.0, 0.0, 500.0) / 1000.0 + FRAME_SEC;
    var n := (BUDGET_SEC / phrase).Floor;
    if n < 1 then 1 else if n > 100 then 100 else n
  }

  function Ceil(x: real): int {
    -((-x).Floor)
  }

  function AtLeastOne(n: int): nat {
    if n < 1 then 1 else n
  }

  function PhraseLimit(maxDuration: real): nat {
    AtLeastOne(Ceil(maxDuration * 16000.0 / 512.0))
  }

  function PreRollChunks(padMs: int): nat {
    AtLeastOne(Ceil(padMs as real / 1000.0 * 16000.0 / 512.0))
  }

  function SilenceLimit(silence: real): nat
    requires silence >= 0.0
  {
    Truncate(16000.0 / 512.0 * silence)
  }

  /** The worker's limits under given settings. */
  function LimitsOf(s: Settings): V.Limits
    requires s.silence >= 0.0
  {
    V.Limits(PreRollChunks(s.padMs), PhraseLimit(s.maxDuration), SilenceLimit(s.silence))
  }

  // ------------------------------------------------------------------ normalized settings

  ghost predicate InRange(s: Settings) {
    && s.purpose != Unknown
    && 1.0 <= s.maxDuration <= (if s.purpose == Subtitles then 15.0 else 60.0)
    && 0.3 <= s.silence <= 2.0
    && 0 <= s.padMs <= 500
  }

  /** Rounding to tenths cannot leave a range whose ends are tenths. */
  lemma Round1Stays(x: real, lo: int, hi: int)
    requires lo as real / 10.0 <= x <= hi as real / 10.0
    ensures lo as real / 10.0 <= Round1(x) <= hi as real / 10.0
    ensures Round1(Round1(x)) == Round1(x)
  {
    var y := x * 10.0;
    var f := y.Floor;
    assert lo as real <= y <= hi as real;
    assert lo <= f <= hi;
    if f == hi {
      assert y == f as real;
    }
    var k := (Round1(x) * 10.0).Floor;
    assert Round1(x) * 10.0 == k as real;
  }

  lemma NormalizedInRange(c: Config)
    ensures InRange(Normalize(c))
  {
    var s := Normalize(c);
    Round1Stays(ClampFloat(c.silence, 0.8, 0.3, 2.0), 3, 20);
    var hi, default := if s.purpose != Subtitles then 60.0 else 15.0, if s.purpose != Subtitles then 30.0 else 5.0;
    var m := if !IsNumber(c.maxDuration) then default else ClampFloat(c.maxDuration, default, 1.0, hi);
    Round1Stays(m, 10, if s.purpose != Subtitles then 600 else 150);
  }

  /** Rounding to tenths moves a value by a twentieth at most, and tenths not at all. */
  lemma Round1Near(x: real)
    ensures -0.05 <= Round1(x) - x <= 0.05
    ensures IsTenths(x) ==> Round1(x) == x
  {
    var y := x * 10.0;
    assert y.Floor as real <= y < (y.Floor + 1) as real;
  }

  predicate IsTenths(x: real) {
    (x * 10.0).Floor as real == x * 10.0
  }

  /** Which maximum and default the purpose gives the phrase duration. */
  function MaxDuration(p: Purpose): real {
    if p == Transcription || p == Combined then 60.0 else 15.0
  }

  function DefaultDuration(p: Purpose): real {
    if p == Transcription || p == Combined then 30.0 else 5.0
  }

  /**
   * What a setting means: a value in its range survives, to a tenth of a second; one outside is moved to
   * the nearer end; anything that is no finite number gives the default.
   */
  lemma NormalizeMeans(c: Config, x: real)
    ensures var s := Normalize(c);
            && s.purpose == (if c.purpose == Unknown then Subtitles else c.purpose)
            && (IsNumber(c.maxDuration) && Reads(c.maxDuration, x) ==>
                  Settled(s.maxDuration, x, 1.0, MaxDuration(c.purpose)))
            && (!IsNumber(c.maxDuration) || NoFloat(c.maxDuration) ==> s.maxDuration == DefaultDuration(c.purpose))
            && (Reads(c.silence, x) ==> Settled(s.silence, x, 0.3, 2.0))
            && (NoFloat(c.silence) ==> s.silence == 0.8)
  {
    hide Round1;
    Round1Near(x);
    Tenths();
  }

  /** float() makes x of the setting: a number, or a string that spells one. */
  predicate Reads(v: Raw, x: real) {
    v == Flt(Float.Finite(x)) || (v.Int? && v.i as real == x) || (v.Str? && v.asFloat == Some(Float.Finite(x)))
  }

  /** float() makes nothing of the setting, or nothing finite; a boolean does not count as a number. */
  predicate NoFloat(v: Raw) {
    v in {Missing, Null, Bool, Compound, Flt(Float.NonFinite)} || (v.Str? && v.asFloat in {None, Some(Float.NonFinite)})
  }

  ghost predicate Settled(value: real, x: real, lo: real, hi: real) {
    if x < lo then value == lo else if x > hi then value == hi
    else -0.05 <= value - x <= 0.05 && (IsTenths(x) ==> value == x)
  }

  lemma Tenths()
    ensures Round1(1.0) == 1.0 && Round1(60.0) == 60.0 && Round1(15.0) == 15.0 && Round1(30.0) == 30.0
    ensures Round1(5.0) == 5.0 && Round1(0.3) == 0.3 && Round1(2.0) == 2.0 && Round1(0.8) == 0.8
  {
  }

  /** The pre-roll: whole milliseconds, a fraction cut off, limited to 0..500, 200 where there is no number. */
  lemma PadMeans(c: Config, i: int)
    ensures c.padMs == Int(i) || (c.padMs.Str? && c.padMs.asInt == Some(i)) ==>
              Normalize(c).padMs == if i < 0 then 0 else if i > 500 then 500 else i
    ensures CastInt(c.padMs) == None ==> Normalize(c).padMs == 200
    ensures forall x: real :: c.padMs == Flt(Float.Finite(x)) && 0.0 <= x <= 500.0 ==>
              Normalize(c).padMs as real <= x < Normalize(c).padMs as real + 1.0
  {
  }

  /** A second normalization changes nothing. */
  lemma NormalizeIdempotent(c: Config)
    ensures Normalize(ToConfig(Normalize(c))) == Normalize(c)
  {
    var s := Normalize(c);
    NormalizedInRange(c);
    Round1Stays(ClampFloat(c.silence, 0.8, 0.3, 2.0), 3, 20);
    var hi, default := if s.purpose != Subtitles then 60.0 else 15.0, if s.purpose != Subtitles then 30.0 else 5.0;
    var m := if !IsNumber(c.maxDuration) then default else ClampFloat(c.maxDuration, default, 1.0, hi);
    Round1Stays(m, 10, if s.purpose != Subtitles then 600 else 150);
  }

  // ------------------------------------------------------------------ the budget

  lemma CeilBounds(x: real)
    ensures x <= Ceil(x) as real < x + 1.0
  {
  }

  /** A phrase at the cap lasts the configured duration rounded up to whole frames, and at most 60 s. */
  lemma PhraseSeconds(maxDuration: real)
    requires 1.0 <= maxDuration <= 60.0
    ensures 32 <= PhraseLimit(maxDuration) <= 1875
    ensures maxDuration <= PhraseLimit(maxDuration) as real * FRAME_SEC < maxDuration + FRAME_SEC
    ensures PhraseLimit(maxDuration) as real * FRAME_SEC <= BUDGET_SEC
  {
    var x := maxDuration * 16000.0 / 512.0;
    CeilBounds(x);
    assert x == maxDuration * 31.25;
    assert 31.25 <= x <= 1875.0;
  }

  lemma PreRollFits(padMs: int, maxDuration: real)
    requires 0 <= padMs <= 500 && 1.0 <= maxDuration <= 60.0
    ensures PreRollChunks(padMs) <= 16 < PhraseLimit(maxDuration)
  {
    PhraseSeconds(maxDuration);
    CeilBounds(padMs as real / 1000.0 * 16000.0 / 512.0);
  }

  /** The pre-roll is the configured pad rounded up to whole frames, but at least one. */
  lemma PreRollSeconds(padMs: int)
    requires 0 <= padMs <= 500
    ensures PreRollChunks(padMs) >= 1 && padMs as real / 1000.0 <= PreRollChunks(padMs) as real * FRAME_SEC
    ensures padMs > 0 ==> PreRollChunks(padMs) as real * FRAME_SEC < padMs as real / 1000.0 + FRAME_SEC
  {
    CeilBounds(padMs as real / 1000.0 * 16000.0 / 512.0);
  }

  /** The silence that ends a phrase is the configured one rounded down to whole frames. */
  lemma SilenceSeconds(silence: real)
    requires silence >= 0.0
    ensures SilenceLimit(silence) as real * FRAME_SEC <= silence < (SilenceLimit(silence) + 1) as real * FRAME_SEC
  {
    var y := 16000.0 / 512.0 * silence;
    assert y == silence * 31.25;
    assert y.Floor as real <= y < (y.Floor + 1) as real;
  }

  /** The worker's three limits, each from its own setting. */
  lemma LimitsSeconds(s: Settings)
    requires InRange(s)
    ensures var lim := LimitsOf(s);
            && s.maxDuration <= lim.max as real * FRAME_SEC < s.maxDuration + FRAME_SEC
            && lim.silence as real * FRAME_SEC <= s.silence < (lim.silence + 1) as real * FRAME_SEC
            && s.padMs as real / 1000.0 <= lim.pre as real * FRAME_SEC
            && (s.padMs > 0 ==> lim.pre as real * FRAME_SEC < s.padMs as real / 1000.0 + FRAME_SEC)
            && 1 <= lim.pre < lim.max
  {
    hide PhraseLimit, PreRollChunks, SilenceLimit;
    PhraseSeconds(s.maxDuration);
    PreRollSeconds(s.padMs);
    PreRollFits(s.padMs, s.maxDuration);
    SilenceSeconds(s.silence);
  }

  lemma FloorTimes(total: real, each: real)
    requires each > 0.0 && total > 0.0
    ensures (total / each).Floor as real * each <= total
  {
    var q := total / each;
    assert q.Floor as real <= q;
    assert (q - q.Floor as real) * each >= 0.0;
    assert q * each == total;
  }

  /** A full queue of capped phrases holds at most 60 seconds, also where the capacity is raised to 1. */
  lemma CapacityWithinBudget(s: Settings)
    requires InRange(s)
    ensures Capacity(ToConfig(s)) as real * (PhraseLimit(s.maxDuration) as real * 0.032) <= 60.0
  {
    var phrase := s.maxDuration + s.silence + s.padMs as real / 1000.0 + FRAME_SEC;
    var n := (BUDGET_SEC / phrase).Floor;
    var seconds := PhraseLimit(s.maxDuration) as real * FRAME_SEC;
    PhraseSeconds(s.maxDuration);
    FloorTimes(BUDGET_SEC, phrase);
    var cap := Capacity(ToConfig(s));
    if cap > 1 {
      assert cap <= n;
      Scaled(cap as real, n as real, seconds, phrase);
    }
  }

  /** What one phrase is allowed in the budget: its cap, the closing silence, the pre-roll and one frame. */
  function PhraseBudget(s: Settings): real {
    s.maxDuration + s.silence + s.padMs as real / 1000.0 + 512.0 / 16000.0
  }

  lemma Above(q: real, f: real, each: real, total: real)
    requires q < f && each > 0.0 && q * each == total
    ensures total < f * each
  {
    assert (f - q) * each > 0.0;
    assert (f - q) * each == f * each - q * each;
  }

  lemma Quotient(total: real, each: real, q: real)
    requires each > 0.0 && total > 0.0 && q == total / each
    ensures q > 0.0 && q * each == total
  {
  }

  lemma FloorIsLargest(total: real, each: real)
    requires each > 0.0 && total > 0.0
    ensures var n := (total / each).Floor; n >= 0 && n as real * each <= total < (n as real + 1.0) * each
  {
    var q := total / each;
    Quotient(total, each, q);
    FloorTimes(total, each);
    Above(q, q.Floor as real + 1.0, each, total);
  }

  /** A setting that is no finite number counts as its default in the capacity, one out of range as the nearer end. */
  lemma CapacityReads(c: Config, x: real)
    ensures !IsNumber(c.maxDuration) || NoFloat(c.maxDuration)
            ==> Capacity(c) == Capacity(c.(maxDuration := Real(5.0)))
    ensures (!IsNumber(c.silence) || NoFloat(c.silence) ==> Capacity(c) == Capacity(c.(silence := Real(0.8))))
    ensures (!IsNumber(c.padMs) || NoFloat(c.padMs) ==> Capacity(c) == Capacity(c.(padMs := Real(200.0))))
    ensures Capacity(c.(maxDuration := Real(x))) == Capacity(c.(maxDuration := Real(Clamp(x, 1.0, 60.0))))
    ensures Capacity(c.(silence := Real(x))) == Capacity(c.(silence := Real(Clamp(x, 0.3, 2.0))))
    ensures Capacity(c.(padMs := Real(x))) == Capacity(c.(padMs := Real(Clamp(x, 0.0, 500.0))))
  {
  }

  function Real(x: real): Raw {
    Flt(Float.Finite(x))
  }

  /** The capacity is the largest number of phrase budgets that fit in 60 s, but at least 1 and at most 100. */
  lemma CapacityIsLargest(s: Settings)
    requires InRange(s)
    ensures var n := Capacity(ToConfig(s));
            && 1 <= n <= 100
            && (n > 1 ==> n as real * PhraseBudget(s) <= 60.0)
            && (n < 100 ==> 60.0 < (n as real + 1.0) * PhraseBudget(s))
  {
    hide Capacity, PhraseBudget;
    CapacityIs(s);
    var each := PhraseBudget(s);
    FloorIsLargest(60.0, each);
    LimitedCapacity((60.0 / each).Floor, each);
  }

  lemma CapacityIs(s: Settings)
    requires InRange(s)
    ensures PhraseBudget(s) > 0.0
    ensures var n := (60.0 / PhraseBudget(s)).Floor;
            Capacity(ToConfig(s)) == if n < 1 then 1 else if n > 100 then 100 else n
  {
  }

  lemma LimitedCapacity(n: nat, each: real)
    requires each > 0.0 && n as real * each <= 60.0 < (n as real + 1.0) * each
    ensures var c := if n < 1 then 1 else if n > 100 then 100 else n;
            (c > 1 ==> c as real * each <= 60.0) && (c < 100 ==> 60.0 < (c as real + 1.0) * each)
  {
    if n > 100 {
      Scaled(100.0, n as real, each, each);
    }
    if n < 1 {
      Scaled(n as real + 1.0, 2.0, each, each);
    }
  }

  lemma Scaled(a: real, b: real, x: real, y: real)
    requires 0.0 <= a <= b && 0.0 <= x <= y
    ensures a * x <= b * y
  {
    assert a * x <= a * y by {
      assert a * (y - x) >= 0.0;
    }
    assert a * y <= b * y by {
      assert (b - a) * y >= 0.0;
    }
  }

  // ------------------------------------------------------------------ across both files

  function TotalChunks(queue: seq<V.Phrase>): int {
    if queue == [] then 0 else queue[0].hi - queue[0].lo + TotalChunks(queue[1..])
  }

  lemma {:induction false} TotalAtMost(queue: seq<V.Phrase>, each: nat)
    requires forall p | p in queue :: p.hi - p.lo <= each
    ensures TotalChunks(queue) <= |queue| * each
  {
    if queue != [] {
      assert queue[0] in queue;
      TotalAtMost(queue[1..], each);
      assert |queue| * each == (|queue| - 1) * each + each;
    }
  }

  /**
   * For every configuration and every captured stream: phrases the worker cuts under the normalized
   * settings, as many as the queue can hold, last 60 seconds at most.
   */
  lemma QueuedAudioWithinBudget(c: Config, flags: seq<bool>, queue: seq<V.Phrase>)
    requires forall p | p in queue :: p in V.Cuts(LimitsOf(Normalize(c)), flags).phrases
    requires |queue| <= Capacity(ToConfig(Normalize(c)))
    ensures TotalChunks(queue) as real * 0.032 <= 60.0
  {
    hide Capacity, Normalize, PhraseLimit, PreRollChunks, SilenceLimit, ToConfig, V.Cuts;
    var s := Normalize(c);
    NormalizedInRange(c);
    PreRollFits(s.padMs, s.maxDuration);
    var lim := LimitsOf(s);
    forall p | p in queue
      ensures p.hi - p.lo <= lim.max
    {
      var phrases := V.Cuts(lim, flags).phrases;
      var i :| 0 <= i < |phrases| && phrases[i] == p;
      V.PhraseLength(lim, flags, i);
    }
    TotalAtMost(queue, lim.max);
    CapacityWithinBudget(s);
    Seconds(TotalChunks(queue), |queue|, Capacity(ToConfig(s)), lim.max);
  }

  lemma Seconds(total: int, n: nat, cap: nat, each: nat)
    requires total <= n * each && n <= cap
    requires cap as real * (each as real * FRAME_SEC) <= BUDGET_SEC
    ensures total as real * FRAME_SEC <= BUDGET_SEC
  {
    assert n * each <= cap * each by {
      assert (cap - n) * each >= 0;
    }
    assert (cap * each) as real * FRAME_SEC == cap as real * (each as real * FRAME_SEC);
  }
}
