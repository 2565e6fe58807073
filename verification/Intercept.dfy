// InterceptingWriter in liveaudio/core/engine.py: it cuts the output of the model libraries into lines as
// it arrives, and turns the progress lines among them into structured percents.
module Intercept {
  import opened Audio
  import Cues

  // ------------------------------------------------------------------ the tokenizer

  /** A completed line and what ended it. */
  datatype Token = Token(line: string, byReturn: bool)

  function Terminator(t: Token): char {
    if t.byReturn then '\r' else '\n'
  }

  predicate IsBreak(c: char) {
    c == '\r' || c == '\n'
  }

  ghost predicate Unbroken(s: string) {
    forall i | 0 <= i < |s| :: !IsBreak(s[i])
  }

  /** str.find: the first position of c, or -1. */
  function Find(s: string, c: char): (r: int)
    ensures -1 <= r < |s|
    ensures r >= 0 ==> s[r] == c && c !in s[..r]
    ensures r == -1 ==> c !in s
  {
    if s == "" then -1
    else if s[0] == c then 0
    else
      var r := Find(s[1..], c);
      assert s == [s[0]] + s[1..];
      assert r >= 0 ==> s[..r + 1] == [s[0]] + s[1..][..r];
      if r < 0 then -1 else r + 1
  }

  /** The lines a text completes, and the rest that is still waiting for its end. */
  function Tokens(s: string): seq<Token>
    decreases |s|
  {
    var n := Unended(s);
    if n == |s| then [] else [Token(s[..n], s[n] == '\r')] + Tokens(s[n + 1..])
  }

  function Rest(s: string): string
    decreases |s|
  {
    var n := Unended(s);
    if n == |s| then s else Rest(s[n + 1..])
  }

  /** The length of the longest prefix without a line end. */
  function Unended(s: string): (n: nat)
    ensures n <= |s| && Unbroken(s[..n])
    ensures n == |s| || IsBreak(s[n])
  {
    if s == "" || IsBreak(s[0]) then 0
    else
      var n := 1 + Unended(s[1..]);
      assert s[..n] == [s[0]] + s[1..][..n - 1];
      n
  }

  lemma TokensEnd(s: string)
    requires Unended(s) == |s|
    ensures Tokens(s) == [] && Rest(s) == s
  {
  }

  lemma TokensStep(s: string)
    requires Unended(s) < |s|
    ensures var n := Unended(s);
      Tokens(s) == [Token(s[..n], s[n] == '\r')] + Tokens(s[n + 1..]) && Rest(s) == Rest(s[n + 1..])
  {
    hide Unended, Unbroken;
  }

  /** The text the tokens came from. */
  function Joined(ts: seq<Token>): string {
    if ts == [] then "" else ts[0].line + [Terminator(ts[0])] + Joined(ts[1..])
  }

  lemma JoinedCons(t: Token, ts: seq<Token>)
    ensures Joined([t] + ts) == t.line + [Terminator(t)] + Joined(ts)
  {
    assert ([t] + ts)[1..] == ts;
  }

  /** Nothing is lost and nothing is made up: the lines with their ends, then the rest, are the text. */
  lemma {:induction false} Rejoin(s: string)
    ensures Joined(Tokens(s)) + Rest(s) == s
    decreases |s|
  {
    hide Unbroken, Joined, Tokens, Rest, Unended;
    var n := Unended(s);
    if n == |s| {
      TokensEnd(s);
      NothingJoined();
      assert "" + s == s;
    } else {
      var t, rest := Token(s[..n], s[n] == '\r'), s[n + 1..];
      TokensStep(s);
      Rejoin(rest);
      JoinedCons(t, Tokens(rest));
      assert s == s[..n] + [s[n]] + rest && Terminator(t) == s[n];
      var tail := Joined(Tokens(rest));
      assert t.line + [s[n]] + tail + Rest(rest) == t.line + [s[n]] + (tail + Rest(rest));
    }
  }

  lemma NothingJoined()
    ensures Joined([]) == ""
  {
  }

  /** No line and no rest has a line end inside. */
  lemma {:induction false} LinesUnbroken(s: string)
    ensures Unbroken(Rest(s)) && (forall t | t in Tokens(s) :: Unbroken(t.line))
    decreases |s|
  {
    hide Unbroken, Tokens, Rest, Unended;
    var n := Unended(s);
    if n < |s| {
      TokensStep(s);
      LinesUnbroken(s[n + 1..]);
    } else {
      TokensEnd(s);
      assert s[..n] == s;
    }
  }

  lemma {:induction false} UnendedIs(s: string, n: nat)
    requires n <= |s| && Unbroken(s[..n]) && (n == |s| || IsBreak(s[n]))
    ensures Unended(s) == n
  {
    if n > 0 {
      assert s[0] == s[..n][0] && s[1..][..n - 1] == s[..n][1..];
      UnendedIs(s[1..], n - 1);
    }
  }

  /** Writing a and then b gives what writing a + b gives. */
  lemma {:induction false} SplitInvariant(a: string, b: string)
    ensures Tokens(a + b) == Tokens(a) + Tokens(Rest(a) + b) && Rest(a + b) == Rest(Rest(a) + b)
    decreases |a|
  {
    hide Unbroken, Tokens, Rest, Unended;
    var n := Unended(a);
    if n < |a| {
      var rest := a[n + 1..];
      assert (a + b)[..n] == a[..n] && (a + b)[n + 1..] == rest + b;
      UnendedIs(a + b, n);
      TokensStep(a);
      TokensStep(a + b);
      SplitInvariant(rest, b);
    } else {
      TokensEnd(a);
    }
  }

  // ------------------------------------------------------------------ progress lines

  /** What goes to the log queue: a text line, or a structured progress event and the clock when it left. */
  datatype Emission = Log(line: string) | Progress(percent: Option<real>, at: real)

  /** What the writer consults: the percent parser, the words that announce a download, and the clock. */
  datatype Env = Env(parse: string -> Option<real>, announces: string -> bool, clock: nat -> real)

  datatype Writer = Writer(
    buffer: string, last: Option<real>, lastTime: real, readings: nat, emitted: seq<Emission>)

  function New(): Writer {
    Writer("", None, 0.0, 0, [])
  }

  /** The percent a parsed value is shown as. */
  function Shown(last: Option<real>, parsed: real): real {
    var p := Clamp(parsed, 0.0, 100.0);
    if last.Some? && Clamp(last.value, 0.0, 100.0) > p then Clamp(last.value, 0.0, 100.0) else p
  }

  predicate Barred(line: string) {
    '%' in line && '|' in line
  }

  function Emit(w: Writer, e: Emission): Writer {
    w.(emitted := w.emitted + [e])
  }

  function Percent(w: Writer, line: string, parsed: real, env: Env): Writer {
    var percent, now := Shown(w.last, parsed), env.clock(w.readings);
    if w.last == Some(percent) && now - w.lastTime < 0.1 then w.(readings := w.readings + 1)
    else
      var t := w.(readings := w.readings + 1, last := Some(percent), lastTime := now);
      Emit(Emit(t, Log(line)), Progress(Some(percent), now))
  }

  function HandleProgress(w: Writer, raw: string, env: Env): Writer {
    var line := Cues.Strip(raw);
    if line == "" then w
    else if Barred(line) && env.parse(line).Some? then Percent(w, line, env.parse(line).value, env)
    else if env.announces(line) then Emit(Emit(w, Log(line)), Progress(None, w.lastTime))
    else if Barred(line) then Emit(w, Log(line))
    else w
  }

  function HandleLine(w: Writer, raw: string, env: Env): Writer {
    var line := Cues.Strip(raw);
    if line == "" then w
    else if Barred(line) then HandleProgress(w, line, env)
    else Emit(w, Log(line))
  }

  function Handle(w: Writer, t: Token, env: Env): Writer {
    if t.byReturn then HandleProgress(w, t.line, env) else HandleLine(w, t.line, env)
  }

  function Feed(w: Writer, ts: seq<Token>, env: Env): Writer
    decreases |ts|
  {
    if ts == [] then w else Feed(Handle(w, ts[0], env), ts[1..], env)
  }

  /** Handles the complete lines in the buffer. */
  function Settle(w: Writer, env: Env): Writer {
    Feed(w.(buffer := Rest(w.buffer)), Tokens(w.buffer), env)
  }

  function Wrote(w: Writer, data: string, env: Env): Writer {
    if data == "" then w else Settle(w.(buffer := w.buffer + data), env)
  }

  function WroteAll(w: Writer, parts: seq<string>, env: Env): Writer
    decreases |parts|
  {
    if parts == [] then w else WroteAll(Wrote(w, parts[0], env), parts[1..], env)
  }

  function Concat(parts: seq<string>): string {
    if parts == [] then "" else parts[0] + Concat(parts[1..])
  }

  // ------------------------------------------------------------------ how the output is cut does not matter

  lemma {:induction false} FeedAppend(w: Writer, a: seq<Token>, b: seq<Token>, env: Env)
    ensures Feed(w, a + b, env) == Feed(Feed(w, a, env), b, env)
    decreases |a|
  {
    hide Handle;
    if a == [] {
      assert a + b == b;
    } else {
      assert (a + b)[1..] == a[1..] + b;
      FeedAppend(Handle(w, a[0], env), a[1..], b, env);
    }
  }

  /** Handling a line does not look at the buffer. */
  lemma HandleBuffer(w: Writer, t: Token, buffer: string, env: Env)
    ensures Handle(w.(buffer := buffer), t, env) == Handle(w, t, env).(buffer := buffer)
    ensures Handle(w, t, env).buffer == w.buffer
  {
    hide Cues.Strip, Shown, Barred;
  }

  lemma {:induction false} FeedKeepsBuffer(w: Writer, ts: seq<Token>, buffer: string, env: Env)
    ensures Feed(w.(buffer := buffer), ts, env) == Feed(w, ts, env).(buffer := buffer)
    ensures Feed(w, ts, env).buffer == w.buffer
    decreases |ts|
  {
    hide Handle;
    if ts != [] {
      var next := Handle(w, ts[0], env);
      HandleBuffer(w, ts[0], buffer, env);
      FeedKeepsBuffer(next, ts[1..], buffer, env);
    }
  }

  /** Between two writes the buffer holds no complete line. */
  ghost predicate Settled(w: Writer) {
    Unbroken(w.buffer)
  }

  lemma WriteTwice(w: Writer, a: string, b: string, env: Env)
    requires Settled(w)
    ensures Wrote(Wrote(w, a, env), b, env) == Wrote(w, a + b, env) && Settled(Wrote(w, a, env))
  {
    hide Tokens, Rest, Feed;
    var text := w.buffer + a;
    LinesUnbroken(text);
    FeedKeepsBuffer(w.(buffer := Rest(text)), Tokens(text), Rest(text), env);
    if a == "" {
      assert a + b == b;
    } else if b == "" {
      assert a + b == a;
    } else {
      assert w.buffer + (a + b) == text + b;
      SplitInvariant(text, b);
      var first := w.(buffer := Rest(text));
      var later := Tokens(Rest(text) + b);
      var end := Rest(Rest(text) + b);
      FeedAppend(w.(buffer := end), Tokens(text), later, env);
      FeedKeepsBuffer(w, Tokens(text), end, env);
      FeedKeepsBuffer(w, Tokens(text), Rest(text), env);
    }
  }

  /** However the output is cut into writes, the writer ends up as if it had come in one piece. */
  lemma {:induction false} CutsDoNotMatter(w: Writer, parts: seq<string>, env: Env)
    requires Settled(w)
    ensures WroteAll(w, parts, env) == Wrote(w, Concat(parts), env)
    decreases |parts|
  {
    hide Wrote;
    if parts == [] {
      NoWrite(w, env);
    } else {
      WriteTwice(w, parts[0], Concat(parts[1..]), env);
      CutsDoNotMatter(Wrote(w, parts[0], env), parts[1..], env);
    }
  }

  lemma NoWrite(w: Writer, env: Env)
    ensures Wrote(w, "", env) == w
  {
  }

  // ------------------------------------------------------------------ the percents

  /** The structured percents among the emissions. */
  function Percents(es: seq<Emission>): seq<Emission> {
    if es == [] then []
    else
      var last := es[|es| - 1];
      Percents(es[..|es| - 1]) + if last.Progress? && last.percent.Some? then [last] else []
  }

  predicate IsPercent(e: Emission) {
    e.Progress? && e.percent.Some? && 0.0 <= e.percent.value <= 100.0
  }

  /** b may follow a: it does not go back, and it repeats the value only after 0.1 s. */
  predicate Follows(a: Emission, b: Emission) {
    IsPercent(a) && IsPercent(b)
    && a.percent.value <= b.percent.value && (a.percent.value == b.percent.value ==> b.at - a.at >= 0.1)
  }

  ghost predicate Rising(ps: seq<Emission>) {
    && (forall i | 0 <= i < |ps| :: IsPercent(ps[i]))
    && (forall i, j | 0 <= i && j == i + 1 && j < |ps| :: Follows(ps[i], ps[j]))
  }

  /** The percents emitted so far rise, and the writer remembers the last one and when it left. */
  ghost predicate Tracks(w: Writer) {
    var ps := Percents(w.emitted);
    && Rising(ps)
    && (if ps == [] then w.last == None else w.last == ps[|ps| - 1].percent && w.lastTime == ps[|ps| - 1].at)
  }

  lemma EmitPercents(es: seq<Emission>, e: Emission)
    ensures Percents(es + [e]) == Percents(es) + if e.Progress? && e.percent.Some? then [e] else []
  {
    assert (es + [e])[..|es + [e]| - 1] == es;
  }

  lemma LogTracks(w: Writer, e: Emission)
    requires Tracks(w) && (e.Log? || e.percent == None)
    ensures Tracks(Emit(w, e))
  {
    EmitPercents(w.emitted, e);
  }

  lemma PercentTracks(w: Writer, line: string, parsed: real, env: Env)
    requires Tracks(w)
    ensures Tracks(Percent(w, line, parsed, env))
  {
    hide Percents;
    var percent, now := Shown(w.last, parsed), env.clock(w.readings);
    EmitPercents(w.emitted, Log(line));
    EmitPercents(w.emitted + [Log(line)], Progress(Some(percent), now));
  }

  lemma HandleTracks(w: Writer, t: Token, env: Env)
    requires Tracks(w)
    ensures Tracks(Handle(w, t, env))
  {
    hide Tracks, Emit, Percent, Cues.Strip;
    var line := Cues.Strip(t.line);
    var again := Cues.Strip(line);
    forall p: real, l: string
      ensures Tracks(Percent(w, l, p, env))
    {
      PercentTracks(w, l, p, env);
    }
    LogTracks(w, Log(line));
    LogTracks(w, Log(again));
    LogTracks(Emit(w, Log(line)), Progress(None, w.lastTime));
    LogTracks(Emit(w, Log(again)), Progress(None, w.lastTime));
  }

  lemma {:induction false} FeedTracks(w: Writer, ts: seq<Token>, env: Env)
    requires Tracks(w)
    ensures Tracks(Feed(w, ts, env))
    decreases |ts|
  {
    hide Tracks, Handle;
    if ts != [] {
      HandleTracks(w, ts[0], env);
      FeedTracks(Handle(w, ts[0], env), ts[1..], env);
    }
  }

  lemma {:induction false} WritesTrack(w: Writer, parts: seq<string>, env: Env)
    requires Tracks(w)
    ensures Tracks(WroteAll(w, parts, env))
    decreases |parts|
  {
    hide Rest, Tokens, Feed;
    if parts != [] {
      FeedTracks(w.(buffer := Rest(w.buffer + parts[0])), Tokens(w.buffer + parts[0]), env);
      WritesTrack(Wrote(w, parts[0], env), parts[1..], env);
    }
  }

  /**
   * Whatever a writer is fed and whatever the parser says, the percents it sends are in [0, 100], never
   * go back, and repeat a value only after 0.1 s.
   */
  lemma PercentsRise(parts: seq<string>, env: Env)
    ensures Rising(Percents(WroteAll(New(), parts, env).emitted))
  {
    hide Rising, WroteAll;
    assert Tracks(New()) by {
      NoPercents();
    }
    WritesTrack(New(), parts, env);
  }

  lemma NoPercents()
    ensures Tracks(New())
  {
  }

  /** A percent limited to its range. */
  function Limited(x: real): real {
    if x < 0.0 then 0.0 else if x > 100.0 then 100.0 else x
  }

  /** What the parser makes of a line, if it looks like a progress bar. */
  function ValueOf(t: Token, env: Env): Option<real> {
    var line := Cues.Strip(t.line);
    if '%' in line && '|' in line then env.parse(line) else None
  }

  /** The percent after a value: the higher of the two. */
  function Higher(last: Option<real>, x: real): real {
    if last.Some? && last.value > Limited(x) then last.value else Limited(x)
  }

  /**
   * What a line makes the writer send, for either line end: a progress line with a value its percent, unless
   * the same percent left less than 0.1 s ago; a progress line without one its text; an announcement, if it is
   * a progress line or ends in a carriage return, its text and an open-ended event; of the other lines the ones
   * that end in a newline their text, and the ones that end in a carriage return nothing.
   */
  lemma HandleSends(w: Writer, t: Token, env: Env)
    requires w.last.Some? ==> 0.0 <= w.last.value <= 100.0
    ensures var u, line, v := Handle(w, t, env), Cues.Strip(t.line), ValueOf(t, env);
      var bar := '%' in line && '|' in line;
      if line == "" then u == w
      else if v.Some? then
        var p, now := Higher(w.last, v.value), env.clock(w.readings);
        && u.last == Some(p) && u.readings == w.readings + 1
        && u.emitted == w.emitted
                        + if w.last == Some(p) && now - w.lastTime < 0.1 then []
                          else [Log(line), Progress(Some(p), now)]
      else
        && u.last == w.last && u.readings == w.readings
        && u.emitted == w.emitted
                        + if env.announces(line) && (t.byReturn || bar)
                          then [Log(line), Progress(None, w.lastTime)]
                          else if bar || !t.byReturn then [Log(line)] else []
  {
    hide Cues.Strip;
    Cues.StripTwice(t.line);
    var line := Cues.Strip(t.line);
    assert w.emitted + [Log(line)] + [Progress(None, w.lastTime)]
        == w.emitted + [Log(line), Progress(None, w.lastTime)];
    var v := ValueOf(t, env);
    if v.Some? {
      ShownHigher(w.last, v.value);
      var p, now := Higher(w.last, v.value), env.clock(w.readings);
      assert w.emitted + [Log(line)] + [Progress(Some(p), now)] == w.emitted + [Log(line), Progress(Some(p), now)];
    }
    assert w.emitted + [] == w.emitted;
  }

  lemma ShownHigher(last: Option<real>, x: real)
    requires last.Some? ==> 0.0 <= last.value <= 100.0
    ensures Shown(last, x) == Higher(last, x) && 0.0 <= Higher(last, x) <= 100.0
  {
  }

  /** Whether m is the highest of the percents parsed from some lines, None if there is none. */
  ghost predicate IsHighest(m: Option<real>, ts: seq<Token>, env: Env) {
    && (forall i | 0 <= i < |ts| && ValueOf(ts[i], env).Some? ::
          m.Some? && Limited(ValueOf(ts[i], env).value) <= m.value)
    && (m.Some? ==> exists i | 0 <= i < |ts| ::
          ValueOf(ts[i], env).Some? && Limited(ValueOf(ts[i], env).value) == m.value)
  }

  lemma HighestNext(m: Option<real>, ts: seq<Token>, t: Token, env: Env)
    requires IsHighest(m, ts, env)
    ensures IsHighest(if ValueOf(t, env).Some? then Some(Higher(m, ValueOf(t, env).value)) else m, ts + [t], env)
  {
    hide ValueOf;
    var all := ts + [t];
    assert all[|ts|] == t;
    if m.Some? {
      var i :| 0 <= i < |ts| && ValueOf(ts[i], env).Some? && Limited(ValueOf(ts[i], env).value) == m.value;
      assert all[i] == ts[i];
    }
  }

  /** After any lines, the percent last shown is the highest one parsed so far. */
  lemma {:induction false} LastIsHighest(ts: seq<Token>, env: Env)
    ensures var last := Feed(New(), ts, env).last;
      IsHighest(last, ts, env) && (last.Some? ==> 0.0 <= last.value <= 100.0)
    decreases |ts|
  {
    hide Handle, Limited, ValueOf, Higher, Cues.Strip;
    if ts != [] {
      var n := |ts| - 1;
      LastIsHighest(ts[..n], env);
      assert ts == ts[..n] + [ts[n]];
      FeedAppend(New(), ts[..n], [ts[n]], env);
      FeedOne(Feed(New(), ts[..n], env), ts[n], env);
      LastNext(Feed(New(), ts[..n], env), ts[n], env);
      HighestNext(Feed(New(), ts[..n], env).last, ts[..n], ts[n], env);
    }
  }

  lemma FeedOne(w: Writer, t: Token, env: Env)
    ensures Feed(w, [t], env) == Handle(w, t, env)
  {
    hide Handle;
    assert [t][1..] == [];
  }

  lemma LastNext(w: Writer, t: Token, env: Env)
    requires w.last.Some? ==> 0.0 <= w.last.value <= 100.0
    ensures var last := Handle(w, t, env).last;
      && last == (if ValueOf(t, env).Some? then Some(Higher(w.last, ValueOf(t, env).value)) else w.last)
      && (last.Some? ==> 0.0 <= last.value <= 100.0)
  {
    hide Handle;
    HandleSends(w, t, env);
    if ValueOf(t, env).Some? {
      ShownHigher(w.last, ValueOf(t, env).value);
      BarredLine(t);
    }
  }

  lemma BarredLine(t: Token)
    requires '%' in Cues.Strip(t.line)
    ensures Cues.Strip(t.line) != ""
  {
  }

  /** So, however the output arrives, the percent shown is the highest of its progress lines. */
  lemma ShowsHighest(parts: seq<string>, env: Env)
    ensures IsHighest(WroteAll(New(), parts, env).last, Tokens(Concat(parts)), env)
  {
    hide IsHighest, Feed, Tokens, Rest;
    CutsDoNotMatter(New(), parts, env);
    var text := Concat(parts);
    assert "" + text == text;
    LastIsHighest(Tokens(text), env);
    FeedKeepsBuffer(New(), Tokens(text), Rest(text), env);
    if text == "" {
      NoTokens();
      FeedNothing(env);
    }
  }

  lemma NoTokens()
    ensures Tokens("") == []
  {
  }

  lemma FeedNothing(env: Env)
    ensures Feed(New(), [], env) == New()
  {
  }

  // ------------------------------------------------------------------ the writer

  /** Cutting at the first a carriage return or a newline, whichever comes first, takes one token off the text. */
  lemma FirstToken(s: string, n: nat)
    requires n < |s| && IsBreak(s[n]) && Unbroken(s[..n])
    ensures Tokens(s) == [Token(s[..n], s[n] == '\r')] + Tokens(s[n + 1..]) && Rest(s) == Rest(s[n + 1..])
  {
    UnendedIs(s, n);
    TokensStep(s);
  }

  /** Without a complete line there is nothing to settle. */
  lemma NoToken(w: Writer, env: Env)
    requires Unbroken(w.buffer)
    ensures Settle(w, env) == w
  {
    assert w.buffer[..|w.buffer|] == w.buffer;
    UnendedIs(w.buffer, |w.buffer|);
  }

  /** Settling a buffer is handling its first line and settling the rest. */
  lemma TokenStep(w: Writer, n: nat, env: Env)
    requires n < |w.buffer| && IsBreak(w.buffer[n]) && Unbroken(w.buffer[..n])
    ensures Settle(w, env)
      == Settle(Handle(w.(buffer := w.buffer[n + 1..]), Token(w.buffer[..n], w.buffer[n] == '\r'), env), env)
  {
    hide Handle, Tokens, Rest;
    FirstToken(w.buffer, n);
    var t, rest := Token(w.buffer[..n], w.buffer[n] == '\r'), w.buffer[n + 1..];
    assert Tokens(w.buffer)[0] == t && Tokens(w.buffer)[1..] == Tokens(rest);
    HandleBuffer(w.(buffer := rest), t, Rest(rest), env);
    HandleBuffer(w, t, Rest(rest), env);
  }

  class InterceptingWriter {
    const env: Env
    var buffer: string
    var last: Option<real>
    var lastTime: real
    var readings: nat
    var emitted: seq<Emission>

    function State(): Writer
      reads this
    {
      Writer(buffer, last, lastTime, readings, emitted)
    }

    constructor (env: Env)
      ensures State() == New() && this.env == env
    {
      this.env := env;
      buffer, last, lastTime, readings, emitted := "", None, 0.0, 0, [];
    }

    method Send(e: Emission)
      modifies `emitted
      ensures State() == Emit(old(State()), e)
    {
      emitted := emitted + [e];
    }

    method OnProgress(raw: string)
      modifies `last, `lastTime, `readings, `emitted
      ensures State() == HandleProgress(old(State()), raw, env)
    {
      var line := Cues.Strip(raw);
      if line == "" {
        return;
      }
      var parsed := if Barred(line) then env.parse(line) else None;
      if parsed.Some? {
        var percent := Clamp(parsed.value, 0.0, 100.0);
        if last.Some? {
          var previous := Clamp(last.value, 0.0, 100.0);
          percent := if previous > percent then previous else percent;
        }
        var now := env.clock(readings);
        readings := readings + 1;
        if Some(percent) == last && now - lastTime < 0.1 {
          return;
        }
        lastTime := now;
        last := Some(percent);
        Send(Log(line));
        Send(Progress(Some(percent), now));
      } else if env.announces(line) {
        Send(Log(line));
        Send(Progress(None, lastTime));
      } else if Barred(line) {
        Send(Log(line));
      }
    }

    method OnLine(raw: string)
      modifies `last, `lastTime, `readings, `emitted
      ensures State() == HandleLine(old(State()), raw, env)
    {
      var line := Cues.Strip(raw);
      if line == "" {
        return;
      }
      if Barred(line) {
        OnProgress(line);
      } else {
        Send(Log(line));
      }
    }

    method Write(data: string)
      modifies this
      ensures State() == Wrote(old(State()), data, env)
    {
      hide Settle, HandleProgress, HandleLine, Find;
      if data == "" {
        return;
      }
      buffer := buffer + data;
      ghost var goal := Settle(State(), env);
      while true
        invariant Settle(State(), env) == goal
        decreases |buffer|
      {
        var r, n := Find(buffer, '\r'), Find(buffer, '\n');
        if r == -1 && n == -1 {
          NoToken(State(), env);
          break;
        }
        ghost var before := State();
        var at := if r != -1 && (n == -1 || r < n) then r else n;
        var line := buffer[..at];
        buffer := buffer[at + 1..];
        TokenStep(before, at, env);
        if at == r {
          OnProgress(line);
        } else {
          OnLine(line);
        }
      }
    }
  }
}
