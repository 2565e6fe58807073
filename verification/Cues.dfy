// The subtitle file of a session in liveaudio/core/engine.py: the cue records the writer appends, the
// counter the decoder numbers them with, and the scan that recovers the counter after a restart.
module Cues {
  import opened Audio

  // ------------------------------------------------------------------ decimal numbers

  function Digit(d: nat): char
    requires d < 10
  {
    '0' + d as char
  }

  predicate IsDigit(c: char) {
    '0' <= c <= '9'
  }

  /** str(n) */
  function Decimal(n: nat): string {
    if n < 10 then [Digit(n)] else Decimal(n / 10) + [Digit(n % 10)]
  }

  /**
   * What Python's Unicode tables say: which characters are printable, which str.isdigit() accepts, and
   * the decimal value int() gives a character, if it takes it at all.
   */
  datatype Tables = Tables(printable: char -> bool, isDigit: char -> bool, decimal: char -> Option<nat>)

  /** The tables agree with ASCII, white space is no digit, and what int() takes is a digit. */
  ghost predicate Sane(u: Tables) {
    && (forall c: char | c as int < 128 :: u.isDigit(c) == IsDigit(c))
    && (forall c: char | IsDigit(c) :: u.decimal(c) == Some((c - '0') as nat))
    && (forall c: char | IsSpace(c) :: !u.isDigit(c))
    && (forall c: char | u.decimal(c).Some? :: u.isDigit(c))
  }

  /** s.isdigit() */
  predicate Digits(s: string, u: Tables) {
    s != "" && forall i | 0 <= i < |s| :: u.isDigit(s[i])
  }

  /** The limit int() puts on the length of a decimal string. */
  const MAX_INT_DIGITS: nat := 4300

  /** int(s) for an s that isdigit() accepts; None where int() raises ValueError. */
  function ReadInt(s: string, u: Tables): Option<nat> {
    if |s| > MAX_INT_DIGITS then None else Value(s, u)
  }

  function Value(s: string, u: Tables): Option<nat> {
    if s == "" then Some(0)
    else
      var rest, last := Value(s[..|s| - 1], u), u.decimal(s[|s| - 1]);
      if rest.Some? && last.Some? then Some(rest.value * 10 + last.value) else None
  }

  /** The caller's view of int(): it takes exactly what is short enough and decimal in every character. */
  lemma {:induction false} ReadIntIff(s: string, u: Tables)
    ensures Value(s, u).Some? <==> forall i | 0 <= i < |s| :: u.decimal(s[i]).Some?
    ensures ReadInt(s, u).Some? <==> |s| <= MAX_INT_DIGITS && forall i | 0 <= i < |s| :: u.decimal(s[i]).Some?
  {
    if s != "" {
      var n := |s| - 1;
      ReadIntIff(s[..n], u);
      assert forall i | 0 <= i < n :: s[..n][i] == s[i];
    }
  }

  predicate AsciiDigits(s: string) {
    forall i | 0 <= i < |s| :: IsDigit(s[i])
  }

  /** str() writes no leading zero. */
  lemma {:induction false} NoLeadingZero(n: nat)
    ensures Decimal(n) != "" && (Decimal(n)[0] == '0' <==> n == 0)
  {
    if n >= 10 {
      NoLeadingZero(n / 10);
    }
  }

  lemma {:induction false} DecimalRoundTrip(n: nat, u: Tables)
    requires Sane(u)
    ensures Decimal(n) != "" && AsciiDigits(Decimal(n)) && Value(Decimal(n), u) == Some(n)
  {
    if n < 10 {
      assert Decimal(n)[..0] == "";
      assert u.decimal(Digit(n)) == Some(n);
    } else {
      DecimalRoundTrip(n / 10, u);
      assert Decimal(n)[..|Decimal(n)| - 1] == Decimal(n / 10);
      assert u.decimal(Digit(n % 10)) == Some(n % 10);
    }
  }

  // ------------------------------------------------------------------ white space

  /** The characters str.split() and str.strip() treat as white space. */
  predicate IsSpace(c: char) {
    var x := c as int;
    || 9 <= x <= 13 || 28 <= x <= 32 || x == 0x85 || x == 0xA0 || x == 0x1680 || 0x2000 <= x <= 0x200A
    || x == 0x2028 || x == 0x2029 || x == 0x202F || x == 0x205F || x == 0x3000
  }

  function StripLeft(s: string): string {
    if s != "" && IsSpace(s[0]) then StripLeft(s[1..]) else s
  }

  function StripRight(s: string): string {
    if s != "" && IsSpace(s[|s| - 1]) then StripRight(s[..|s| - 1]) else s
  }

  function Strip(s: string): string {
    StripRight(StripLeft(s))
  }

  /** The length of the longest prefix without white space. */
  function WordLength(s: string): (n: nat)
    ensures n <= |s| && forall i | 0 <= i < n :: !IsSpace(s[i])
    ensures n == |s| || IsSpace(s[n])
  {
    if s == "" || IsSpace(s[0]) then 0 else 1 + WordLength(s[1..])
  }

  /** " ".join(s.split()) */
  function Rejoined(s: string): string
    decreases |s|
  {
    var t := StripLeft(s);
    LeftShorter(s);
    if t == "" then ""
    else
      var n := WordLength(t);
      var rest := Rejoined(t[n..]);
      if rest == "" then t[..n] else t[..n] + " " + rest
  }

  lemma {:induction false} LeftShorter(s: string)
    ensures |StripLeft(s)| <= |s| && (StripLeft(s) == "" || !IsSpace(StripLeft(s)[0]))
  {
    if s != "" && IsSpace(s[0]) {
      LeftShorter(s[1..]);
    }
  }

  const DANGEROUS: set<char> := {'\U{202E}', '\U{202D}', '\U{200E}', '\U{200F}', '\U{0000}', '\U{001B}'}

  function Kept(s: string, u: Tables): string {
    if s == "" then ""
    else (if u.printable(s[0]) && s[0] !in DANGEROUS then [s[0]] else "") + Kept(s[1..], u)
  }

  /** _sanitize_text, for whatever the Unicode tables call printable. */
  function Sanitize(s: string, u: Tables): string {
    Kept(Rejoined(s), u)
  }

  /** s.split(): the longest stretches without white space, in order. */
  function Words(s: string): (ws: seq<string>)
    ensures s != "" && !IsSpace(s[0]) ==> ws != []
  {
    if s == "" then []
    else if IsSpace(s[0]) then Words(s[1..])
    else
      var rest := Words(s[1..]);
      if |s| > 1 && !IsSpace(s[1]) then [[s[0]] + rest[0]] + rest[1..] else [[s[0]]] + rest
  }

  /** " ".join(ws) */
  function Joined(ws: seq<string>): string {
    if ws == [] then "" else if |ws| == 1 then ws[0] else ws[0] + " " + Joined(ws[1..])
  }

  lemma {:induction false} WordsSkipSpace(s: string)
    ensures Words(StripLeft(s)) == Words(s)
  {
    if s != "" && IsSpace(s[0]) {
      WordsSkipSpace(s[1..]);
    }
  }

  lemma {:induction false} FirstWord(w: string, rest: string)
    requires w != "" && (forall i | 0 <= i < |w| :: !IsSpace(w[i])) && (rest == "" || IsSpace(rest[0]))
    ensures Words(w + rest) == [w] + Words(rest)
  {
    assert (w + rest)[1..] == w[1..] + rest;
    if |w| > 1 {
      FirstWord(w[1..], rest);
      assert (w + rest)[1] == w[1];
      assert [w[0]] + w[1..] == w;
    } else {
      assert w[1..] + rest == rest && w == [w[0]];
    }
  }

  lemma {:induction false} WordsNotEmpty(s: string)
    ensures forall i | 0 <= i < |Words(s)| :: Words(s)[i] != ""
  {
    if s != "" {
      WordsNotEmpty(s[1..]);
    }
  }

  lemma JoinedNotEmpty(ws: seq<string>)
    requires forall i | 0 <= i < |ws| :: ws[i] != ""
    ensures Joined(ws) == "" <==> ws == []
  {
    if ws != [] {
      assert ws[0] != "";
    }
  }

  /** A text is put back together from its words, each separated from the next by one blank. */
  lemma {:induction false} RejoinedWords(s: string)
    ensures Rejoined(s) == Joined(Words(s))
    decreases |s|
  {
    hide Words, WordLength;
    var t := StripLeft(s);
    LeftShorter(s);
    WordsSkipSpace(s);
    if t == "" {
      NoWords();
    } else {
      var n := WordLength(t);
      RejoinedWords(t[n..]);
      FirstWord(t[..n], t[n..]);
      assert t == t[..n] + t[n..];
      var rest := Words(t[n..]);
      WordsNotEmpty(t[n..]);
      JoinedNotEmpty(rest);
      assert ([t[..n]] + rest)[1..] == rest;
    }
  }

  lemma NoWords()
    ensures Words("") == []
  {
  }

  /** Of the characters, the printable ones stay, but for six that could disturb a display. */
  lemma {:induction false} KeptCharacters(s: string, u: Tables, c: char)
    ensures c in Kept(s, u)
      <==> c in s && u.printable(c)
           && !(c in {'\U{202E}', '\U{202D}', '\U{200E}', '\U{200F}', '\U{0000}', '\U{001B}'})
  {
    if s != "" {
      assert s == [s[0]] + s[1..];
      KeptCharacters(s[1..], u, c);
    }
  }

  /** They stay in their places: cleaning two parts one by one is cleaning the whole. */
  lemma {:induction false} KeptAppend(a: string, b: string, u: Tables)
    ensures Kept(a + b, u) == Kept(a, u) + Kept(b, u)
  {
    if a == "" {
      assert a + b == b;
    } else {
      assert (a + b)[1..] == a[1..] + b;
      KeptAppend(a[1..], b, u);
    }
  }

  /** A text of harmless printable characters stays as it is. */
  lemma {:induction false} KeptAll(s: string, u: Tables)
    requires forall i | 0 <= i < |s| :: u.printable(s[i]) && s[i] !in DANGEROUS
    ensures Kept(s, u) == s
  {
    if s != "" {
      KeptAll(s[1..], u);
      assert s == [s[0]] + s[1..];
    }
  }

  predicate OneLine(s: string) {
    forall i | 0 <= i < |s| :: IsSpace(s[i]) ==> s[i] == ' '
  }

  lemma {:induction false} RejoinedIsOneLine(s: string)
    ensures OneLine(Rejoined(s))
    decreases |s|
  {
    var t := StripLeft(s);
    LeftShorter(s);
    if t != "" {
      RejoinedIsOneLine(t[WordLength(t)..]);
    }
  }

  lemma {:induction false} KeptIsOneLine(s: string, u: Tables)
    requires OneLine(s)
    ensures OneLine(Kept(s, u))
  {
    if s != "" {
      KeptIsOneLine(s[1..], u);
    }
  }

  /** A sanitized text holds no white space but blanks, so it cannot break out of its line. */
  lemma SanitizedIsOneLine(s: string, u: Tables)
    ensures OneLine(Sanitize(s, u)) && '\n' !in Sanitize(s, u)
  {
    RejoinedIsOneLine(s);
    KeptIsOneLine(Rejoined(s), u);
  }

  // ------------------------------------------------------------------ lines

  function LineLength(s: string): (n: nat)
    ensures n <= |s| && '\n' !in s[..n]
    ensures n == |s| || s[n] == '\n'
  {
    if s == "" || s[0] == '\n' then 0
    else
      var n := 1 + LineLength(s[1..]);
      assert s[..n] == [s[0]] + s[1..][..n - 1];
      n
  }

  /** The lines a text file is read as: each with its newline, the last one perhaps without. */
  function Lines(s: string): seq<string>
    decreases |s|
  {
    if s == "" then []
    else
      var n := LineLength(s);
      if n == |s| then [s] else [s[..n + 1]] + Lines(s[n + 1..])
  }

  lemma {:induction false} LineLengthIs(s: string, n: nat)
    requires n < |s| && s[n] == '\n' && '\n' !in s[..n]
    ensures LineLength(s) == n
  {
    if n > 0 {
      assert s[0] in s[..n] && s[1..][..n - 1] == s[..n][1..];
      LineLengthIs(s[1..], n - 1);
    }
  }

  lemma FirstLine(x: string, rest: string)
    requires '\n' !in x
    ensures Lines(x + "\n" + rest) == [x + "\n"] + Lines(rest)
  {
    var s := x + "\n" + rest;
    var n := LineLength(s);
    assert s[|x|] == '\n' && s[..|x|] == x;
    LineLengthIs(s, |x|);
    assert s[..n + 1] == x + "\n" && s[n + 1..] == rest;
  }

  // ------------------------------------------------------------------ the file and its scan

  datatype Cue = Cue(number: nat, start: string, end: string, text: string)

  const HEADER: string := "WEBVTT\n\n"
  const MARKER: string := "#cue:"

  /** What the writer appends for a cue. */
  function Record(c: Cue): string {
    Decimal(c.number) + "\n" + c.start + " --> " + c.end + "\n" + c.text + "\n\n" + MARKER + Decimal(c.number) + "\n"
  }

  function File(cues: seq<Cue>): string {
    if cues == [] then HEADER else File(cues[..|cues| - 1]) + Record(cues[|cues| - 1])
  }

  /** What the scan makes of one line: the counter after it, or None where int() raises. */
  function ScanLine(counter: nat, line: string, u: Tables): Option<nat> {
    var s := Strip(line);
    if |s| >= 5 && s[..5] == MARKER && Digits(s[5..], u) then ReadInt(s[5..], u)
    else if Digits(s, u) then
      var n := ReadInt(s, u);
      if n == None || n.value > counter then n else Some(counter)
    else Some(counter)
  }

  /** The scan of some lines from a counter; None once a line has raised. */
  function ScanFrom(counter: Option<nat>, lines: seq<string>, u: Tables): Option<nat> {
    if lines == [] then counter
    else
      var before := ScanFrom(counter, lines[..|lines| - 1], u);
      if before == None then None else ScanLine(before.value, lines[|lines| - 1], u)
  }

  /** The scan of a file. */
  function Scan(file: string, u: Tables): Option<nat> {
    ScanFrom(Some(0), Lines(file), u)
  }

  /** The loop that recovers the counter from an existing file, and its exit by ValueError. */
  method Recover(file: string, u: Tables) returns (counter: Option<nat>)
    ensures counter == Scan(file, u)
  {
    var lines := Lines(file);
    var n := 0;
    for i := 0 to |lines|
      invariant ScanFrom(Some(0), lines[..i], u) == Some(n)
    {
      assert lines[..i + 1][..i] == lines[..i];
      var stripped := Strip(lines[i]);
      if |stripped| >= 5 && stripped[..5] == MARKER && Digits(stripped[5..], u) {
        var marked := ReadInt(stripped[5..], u);
        if marked == None {
          ScanRaised(lines, i + 1, u);
          return None;
        }
        n := marked.value;
      } else if Digits(stripped, u) {
        var number := ReadInt(stripped, u);
        if number == None {
          ScanRaised(lines, i + 1, u);
          return None;
        }
        if number.value > n {
          n := number.value;
        }
      }
    }
    assert lines[..|lines|] == lines;
    counter := Some(n);
  }

  /** A scan that has raised does not recover. */
  lemma {:induction false} ScanRaised(lines: seq<string>, n: nat, u: Tables)
    requires n <= |lines| && ScanFrom(Some(0), lines[..n], u) == None
    ensures ScanFrom(Some(0), lines, u) == None
    decreases |lines|
  {
    if n == |lines| {
      assert lines[..n] == lines;
    } else {
      assert lines[..|lines| - 1][..n] == lines[..n];
      ScanRaised(lines[..|lines| - 1], n, u);
    }
  }

  /** The five lines of a cue. */
  function RecordLines(c: Cue): seq<string> {
    [Decimal(c.number) + "\n", c.start + " --> " + c.end + "\n", c.text + "\n", "\n", MARKER + Decimal(c.number) + "\n"]
  }

  function FileLines(cues: seq<Cue>): seq<string> {
    if cues == [] then ["WEBVTT\n", "\n"] else FileLines(cues[..|cues| - 1]) + RecordLines(cues[|cues| - 1])
  }

  /** Nothing in the cue breaks its lines. */
  predicate Tidy(c: Cue) {
    '\n' !in c.start && '\n' !in c.end && '\n' !in c.text
  }

  lemma {:induction false} DecimalOneLine(n: nat)
    ensures '\n' !in Decimal(n)
  {
    if n >= 10 {
      DecimalOneLine(n / 10);
    }
  }

  lemma RecordInLines(c: Cue, rest: string)
    requires Tidy(c)
    ensures Lines(Record(c) + rest) == RecordLines(c) + Lines(rest)
  {
    hide Lines, Decimal;
    DecimalOneLine(c.number);
    var d := Decimal(c.number);
    var l5 := MARKER + d + "\n" + rest;
    var l4 := "" + "\n" + l5;
    var l3 := c.text + "\n" + l4;
    var l2 := (c.start + " --> " + c.end) + "\n" + l3;
    assert Record(c) + rest == d + "\n" + l2;
    FirstLine(d, l2);
    FirstLine(c.start + " --> " + c.end, l3);
    FirstLine(c.text, l4);
    FirstLine("", l5);
    FirstLine(MARKER + d, rest);
    assert "" + "\n" == "\n";
    assert Lines(l4) == ["\n"] + Lines(l5) && Lines(l5) == [MARKER + d + "\n"] + Lines(rest);
    assert Lines(l4) == ["\n", MARKER + d + "\n"] + Lines(rest);
    assert Lines(l3) == [c.text + "\n", "\n", MARKER + d + "\n"] + Lines(rest);
  }

  /** Reading back: the file is the header and five lines for every cue, whatever the texts are. */
  lemma {:induction false} FileInLines(cues: seq<Cue>, rest: string)
    requires forall c | c in cues :: Tidy(c)
    ensures Lines(File(cues) + rest) == FileLines(cues) + Lines(rest)
  {
    hide Lines, Record, RecordLines;
    if cues == [] {
      assert HEADER + rest == "WEBVTT" + "\n" + ("" + "\n" + rest);
      FirstLine("WEBVTT", "" + "\n" + rest);
      FirstLine("", rest);
      assert "" + "\n" == "\n" && "WEBVTT" + "\n" == "WEBVTT\n";
    } else {
      var last := cues[|cues| - 1];
      FileInLines(cues[..|cues| - 1], Record(last) + rest);
      RecordInLines(last, rest);
      assert File(cues) + rest == File(cues[..|cues| - 1]) + (Record(last) + rest);
      assert FileLines(cues[..|cues| - 1]) + (RecordLines(last) + Lines(rest)) == FileLines(cues) + Lines(rest);
    }
  }

  // ------------------------------------------------------------------ what the scan recovers

  /**
   * A text that stops the scan: as a whole, or after a marker, it is all isdigit(), but int() rejects it,
   * for a character that is no decimal digit or for its length.
   */
  predicate Trap(text: string, u: Tables) {
    var s := Strip(text);
    var number := if |s| >= 5 && s[..5] == MARKER then s[5..] else s;
    Digits(number, u) && ReadInt(number, u) == None
  }

  /** A cue the scan can read past. */
  predicate Legible(c: Cue, u: Tables) {
    |Decimal(c.number)| <= MAX_INT_DIGITS && !Trap(c.text, u)
  }

  predicate AllLegible(cues: seq<Cue>, u: Tables) {
    forall i | 0 <= i < |cues| :: Legible(cues[i], u)
  }

  lemma {:induction false} StripRightNewline(s: string)
    ensures StripRight(s + "\n") == StripRight(s)
  {
    assert (s + "\n")[..|s + "\n"| - 1] == s;
  }

  lemma {:induction false} StripLeftNewline(s: string)
    ensures StripLeft(s + "\n") == if StripLeft(s) == "" then "" else StripLeft(s) + "\n"
  {
    if s == "" {
      assert StripLeft("\n"[1..]) == "";
    } else {
      assert (s + "\n")[1..] == s[1..] + "\n";
      StripLeftNewline(s[1..]);
    }
  }

  /** The newline of a line plays no part. */
  lemma StripNewline(s: string)
    ensures Strip(s + "\n") == Strip(s)
  {
    hide StripLeft, StripRight;
    StripLeftNewline(s);
    StripRightNewline(StripLeft(s));
  }

  lemma {:induction false} RightLeavesNoSpace(s: string)
    ensures StripRight(s) <= s && (StripRight(s) == "" || !IsSpace(StripRight(s)[|StripRight(s)| - 1]))
  {
    if s != "" && IsSpace(s[|s| - 1]) {
      RightLeavesNoSpace(s[..|s| - 1]);
    }
  }

  /** Stripping takes away white space at both ends, all of it and nothing else. */
  lemma StripMeans(s: string) returns (i: nat, j: nat)
    ensures i <= j <= |s| && Strip(s) == s[i..j]
    ensures forall k | 0 <= k < i :: IsSpace(s[k])
    ensures forall k | j <= k < |s| :: IsSpace(s[k])
    ensures i < j ==> !IsSpace(s[i]) && !IsSpace(s[j - 1])
  {
    hide StripLeft, StripRight, IsSpace;
    i := LeftCut(s);
    var t := s[i..];
    var n := RightCut(t);
    j := i + n;
    forall k | j <= k < |s|
      ensures IsSpace(s[k])
    {
      assert s[k] == t[k - i];
    }
    assert i < j ==> s[j - 1] == t[n - 1];
  }

  lemma {:induction false} LeftCut(s: string) returns (i: nat)
    ensures i <= |s| && StripLeft(s) == s[i..] && (i < |s| ==> !IsSpace(s[i]))
    ensures forall k | 0 <= k < i :: IsSpace(s[k])
  {
    hide IsSpace;
    if s != "" && IsSpace(s[0]) {
      var n := LeftCut(s[1..]);
      i := n + 1;
      forall k | 0 <= k < i
        ensures IsSpace(s[k])
      {
        assert k > 0 ==> s[k] == s[1..][k - 1];
      }
    } else {
      i := 0;
    }
  }

  lemma {:induction false} RightCut(s: string) returns (n: nat)
    ensures n <= |s| && StripRight(s) == s[..n] && (n > 0 ==> !IsSpace(s[n - 1]))
    ensures forall k | n <= k < |s| :: IsSpace(s[k])
  {
    hide IsSpace;
    if s != "" && IsSpace(s[|s| - 1]) {
      var t := s[..|s| - 1];
      n := RightCut(t);
      forall k | n <= k < |s|
        ensures IsSpace(s[k])
      {
        assert k < |t| ==> s[k] == t[k];
      }
    } else {
      n := |s|;
    }
  }

  /** Stripping is done with the first time. */
  lemma StripTwice(s: string)
    ensures Strip(Strip(s)) == Strip(s)
  {
    var t := StripLeft(s);
    LeftShorter(s);
    RightLeavesNoSpace(t);
    if Strip(s) != "" {
      assert Strip(s)[0] == t[0];
      StripNothing(Strip(s));
    }
  }

  lemma StripNothing(s: string)
    requires s != "" && !IsSpace(s[0]) && !IsSpace(s[|s| - 1])
    ensures Strip(s) == s
  {
  }

  lemma {:induction false} StripKeeps(s: string, c: char)
    requires c in s && !IsSpace(c)
    ensures c in StripLeft(s) && c in StripRight(s)
    decreases |s|
  {
    if IsSpace(s[0]) {
      assert s == [s[0]] + s[1..];
      StripKeeps(s[1..], c);
    }
    var n := |s| - 1;
    if IsSpace(s[n]) {
      assert s == s[..n] + [s[n]];
      StripKeeps(s[..n], c);
    }
  }

  /** A line holding an ASCII character that is no digit is no number, and neither is what follows a marker in it. */
  lemma NoNumber(counter: nat, line: string, c: char, u: Tables)
    requires Sane(u) && c in line && c as int < 128 && !IsDigit(c) && !IsSpace(c) && c !in MARKER
    ensures ScanLine(counter, line, u) == Some(counter)
  {
    hide StripLeft, StripRight, ReadInt;
    StripKeeps(line, c);
    StripKeeps(StripLeft(line), c);
    var s := Strip(line);
    if |s| >= 5 && s[..5] == MARKER {
      assert s == s[..5] + s[5..];
      assert c in s[5..];
    }
  }

  lemma NumberFirst(s: string, u: Tables)
    requires Sane(u) && s != "" && AsciiDigits(s)
    ensures Strip(s) == s && Digits(s, u) && s[0] != '#'
    ensures Strip(MARKER + s) == MARKER + s && (MARKER + s)[5..] == s && (MARKER + s)[..5] == MARKER
  {
    assert !IsSpace(s[0]) && !IsSpace(s[|s| - 1]);
    StripNothing(s);
    StripNothing(MARKER + s);
  }

  /** The line with a cue's number. */
  lemma NumberLine(counter: nat, n: nat, u: Tables)
    requires Sane(u)
    ensures ScanLine(counter, Decimal(n) + "\n", u)
      == if |Decimal(n)| > MAX_INT_DIGITS then None else Some(if n > counter then n else counter)
  {
    hide Decimal, Strip, Digits;
    var d := Decimal(n);
    DecimalRoundTrip(n, u);
    NumberFirst(d, u);
    StripNewline(d);
    assert |d| >= 5 ==> d[..5][0] == d[0];
  }

  /** Whatever the counter was, the marker line sets it. */
  lemma MarkerSets(counter: nat, n: nat, u: Tables)
    requires Sane(u)
    ensures ScanLine(counter, MARKER + Decimal(n) + "\n", u)
      == if |Decimal(n)| > MAX_INT_DIGITS then None else Some(n)
  {
    hide Decimal, Strip, Digits;
    var d := Decimal(n);
    DecimalRoundTrip(n, u);
    NumberFirst(d, u);
    StripNewline(MARKER + d);
  }

  /** The line with a cue's text raises exactly for a trap. */
  lemma TextLine(counter: nat, text: string, u: Tables)
    requires Sane(u)
    ensures ScanLine(counter, text + "\n", u) == None <==> Trap(text, u)
  {
    hide Strip, ReadInt;
    StripNewline(text);
    var s := Strip(text);
    if |s| >= 5 && s[..5] == MARKER {
      assert s[0] == s[..5][0] == '#';
      assert !u.isDigit(s[0]);
    }
  }

  /** The blank line after the text. */
  lemma BlankLine(counter: nat, u: Tables)
    ensures ScanLine(counter, "\n", u) == Some(counter)
  {
    StripNewline("");
    assert "" + "\n" == "\n";
  }

  lemma TimesLine(counter: nat, c: Cue, u: Tables)
    requires Sane(u)
    ensures ScanLine(counter, c.start + " --> " + c.end + "\n", u) == Some(counter)
  {
    var line := c.start + " --> " + c.end + "\n";
    assert line[|c.start| + 3] == '>';
    NoNumber(counter, line, '>', u);
  }

  lemma ScanNext(counter: Option<nat>, lines: seq<string>, line: string, u: Tables)
    ensures ScanFrom(counter, lines + [line], u)
      == (var c := ScanFrom(counter, lines, u); if c == None then None else ScanLine(c.value, line, u))
  {
    assert (lines + [line])[..|lines + [line]| - 1] == lines;
  }

  /** The five lines of a cue, from any counter. */
  lemma ScanRecord(counter: nat, before: seq<string>, c: Cue, u: Tables)
    requires Sane(u) && ScanFrom(Some(0), before, u) == Some(counter)
    ensures ScanFrom(Some(0), before + RecordLines(c), u) == if Legible(c, u) then Some(c.number) else None
  {
    hide ScanFrom, ScanLine, Decimal, Trap;
    var d := Decimal(c.number);
    var l1 := before + [d + "\n"];
    var l2 := l1 + [c.start + " --> " + c.end + "\n"];
    var l3 := l2 + [c.text + "\n"];
    var l4 := l3 + ["\n"];
    ScanNext(Some(0), before, d + "\n", u);
    NumberLine(counter, c.number, u);
    ScanNext(Some(0), l1, c.start + " --> " + c.end + "\n", u);
    ScanNext(Some(0), l2, c.text + "\n", u);
    ScanNext(Some(0), l3, "\n", u);
    ScanNext(Some(0), l4, MARKER + d + "\n", u);
    if |d| <= MAX_INT_DIGITS {
      var k := if c.number > counter then c.number else counter;
      TimesLine(k, c, u);
      TextLine(k, c.text, u);
      if !Trap(c.text, u) {
        var k3 := ScanLine(k, c.text + "\n", u).value;
        BlankLine(k3, u);
        MarkerSets(k3, c.number, u);
      }
    }
    assert before + RecordLines(c) == l4 + [MARKER + d + "\n"];
  }

  lemma {:induction false} ScanCues(cues: seq<Cue>, u: Tables)
    requires Sane(u)
    ensures ScanFrom(Some(0), FileLines(cues), u)
      == if !AllLegible(cues, u) then None else Some(if cues == [] then 0 else cues[|cues| - 1].number)
  {
    hide ScanFrom, RecordLines, Legible;
    if cues == [] {
      HeaderScan(u);
    } else {
      var n := |cues| - 1;
      var before, last := FileLines(cues[..n]), cues[n];
      ScanCues(cues[..n], u);
      assert AllLegible(cues, u) <==> AllLegible(cues[..n], u) && Legible(last, u);
      if AllLegible(cues[..n], u) {
        ScanRecord(ScanFrom(Some(0), before, u).value, before, last, u);
      } else {
        ScanPrefixRaised(before, RecordLines(last), u);
      }
    }
  }

  lemma ScanPrefixRaised(before: seq<string>, more: seq<string>, u: Tables)
    requires ScanFrom(Some(0), before, u) == None
    ensures ScanFrom(Some(0), before + more, u) == None
  {
    assert (before + more)[..|before|] == before;
    ScanRaised(before + more, |before|, u);
  }

  lemma HeaderScan(u: Tables)
    requires Sane(u)
    ensures ScanFrom(Some(0), ["WEBVTT\n", "\n"], u) == Some(0)
  {
    hide ScanLine, ScanFrom;
    assert "WEBVTT\n"[0] == 'W';
    NoNumber(0, "WEBVTT\n", 'W', u);
    BlankLine(0, u);
    ScanNothing(u);
    ScanNext(Some(0), [], "WEBVTT\n", u);
    ScanNext(Some(0), ["WEBVTT\n"], "\n", u);
    assert [] + ["WEBVTT\n"] == ["WEBVTT\n"] && ["WEBVTT\n"] + ["\n"] == ["WEBVTT\n", "\n"];
  }

  lemma ScanNothing(u: Tables)
    ensures ScanFrom(Some(0), [], u) == Some(0) && Lines("") == []
  {
  }

  /**
   * The scan of a session file succeeds exactly when every cue is legible, and then yields the number of
   * the last one, also where a text looks like a number or a marker.
   */
  lemma ScanFile(cues: seq<Cue>, u: Tables)
    requires Sane(u) && (forall c | c in cues :: Tidy(c))
    ensures Scan(File(cues), u).Some? <==> AllLegible(cues, u)
    ensures AllLegible(cues, u) ==> Scan(File(cues), u) == Some(if cues == [] then 0 else cues[|cues| - 1].number)
  {
    hide Lines, File, ScanFrom, FileLines, AllLegible;
    FileInLines(cues, "");
    ScanNothing(u);
    assert File(cues) + "" == File(cues) && FileLines(cues) + [] == FileLines(cues);
    ScanCues(cues, u);
  }

  // ------------------------------------------------------------------ sessions

  /**
   * The decoder's counter (None while the process cannot start because the scan raised), the file on disk,
   * and the cues handed to the writer but not yet appended.
   */
  datatype Session = Session(counter: Option<nat>, file: string, queue: seq<Cue>)

  /** The first start of a session, when there is no file yet. */
  function Begin(): Session {
    Session(Some(0), HEADER, [])
  }

  /** What happens to a session. Raw texts are what the decoder heard, before they are sanitized. */
  datatype Event =
    | Utterance(raw: string, start: string, end: string, saveVtt: bool)
    | Append    // the writer appends the oldest queued cue
    | Restart   // the process is started again on the same file; what was still queued is gone

  function Step(s: Session, e: Event, u: Tables): Session {
    match e
    case Utterance(raw, start, end, saveVtt) =>
      var text := Sanitize(raw, u);
      if s.counter == None || text == "" || !saveVtt then s
      else
        var n := s.counter.value + 1;
        s.(counter := Some(n), queue := s.queue + [Cue(n, start, end, text)])
    case Append =>
      if s.queue == [] then s else s.(file := s.file + Record(s.queue[0]), queue := s.queue[1..])
    case Restart => Session(Scan(s.file, u), s.file, [])
  }

  function Run(s: Session, es: seq<Event>, u: Tables): Session
    decreases |es|
  {
    if es == [] then s else Run(Step(s, es[0], u), es[1..], u)
  }

  /** Cues numbered from first on without gaps, none of them breaking its lines. */
  ghost predicate Numbered(cues: seq<Cue>, first: nat) {
    forall i | 0 <= i < |cues| :: cues[i].number == first + i && Tidy(cues[i])
  }

  /** The file holds the cues 1..m, the queue continues them, and the counter is the last number given. */
  ghost predicate Contiguous(s: Session, cues: seq<Cue>) {
    && s.file == File(cues) && Numbered(cues, 1) && Numbered(s.queue, |cues| + 1)
    && (if s.counter == None then s.queue == [] else s.counter.value == |cues| + |s.queue|)
  }

  predicate Stamped(e: Event) {
    e.Utterance? ==> '\n' !in e.start && '\n' !in e.end
  }

  lemma StepContiguous(s: Session, cues: seq<Cue>, e: Event, u: Tables) returns (next: seq<Cue>)
    requires Sane(u) && Contiguous(s, cues) && Stamped(e)
    ensures Contiguous(Step(s, e, u), next) && cues <= next
  {
    hide Sanitize, Record, Scan, AllLegible, Sane;
    next := cues;
    match e
    case Utterance(raw, _, _, _) =>
      SanitizedIsOneLine(raw, u);
    case Append =>
      if s.queue != [] {
        next := cues + [s.queue[0]];
        assert next[..|next| - 1] == cues;
      }
    case Restart =>
      ScanFile(cues, u);
  }

  /**
   * Whatever is said, however often the sink is switched off and on, wherever the process is restarted:
   * the file holds the cues 1, 2, ..., m in order, and the scan recovers exactly m, if and only if every
   * cue in the file is legible.
   */
  lemma {:induction false} NoGaps(s: Session, cues: seq<Cue>, es: seq<Event>, u: Tables) returns (all: seq<Cue>)
    requires Sane(u) && Contiguous(s, cues) && (forall e | e in es :: Stamped(e))
    ensures var t := Run(s, es, u);
      Contiguous(t, all) && cues <= all && Scan(t.file, u) == if AllLegible(all, u) then Some(|all|) else None
    decreases |es|
  {
    hide Step, Scan, AllLegible, Sane;
    if es == [] {
      all := cues;
      ScanFile(cues, u);
    } else {
      var next := StepContiguous(s, cues, es[0], u);
      all := NoGaps(Step(s, es[0], u), next, es[1..], u);
    }
  }

  lemma SessionCues(es: seq<Event>, u: Tables) returns (all: seq<Cue>)
    requires Sane(u) && (forall e | e in es :: Stamped(e))
    ensures var t := Run(Begin(), es, u);
      Contiguous(t, all) && Scan(t.file, u) == if AllLegible(all, u) then Some(|all|) else None
  {
    hide AllLegible, Scan, Sane, Run;
    assert File([]) == HEADER;
    all := NoGaps(Begin(), [], es, u);
  }

  /** What a cue shows, and when. */
  datatype Content = Content(start: string, end: string, text: string)

  function ContentsOf(cues: seq<Cue>): seq<Content> {
    seq(|cues|, i requires 0 <= i < |cues| => Content(cues[i].start, cues[i].end, cues[i].text))
  }

  /** What an utterance is to show: nothing with the sink off, or with nothing left of its text. */
  function SpokenBy(e: Event, u: Tables): seq<Content> {
    if e.Utterance? && e.saveVtt && Sanitize(e.raw, u) != "" then [Content(e.start, e.end, Sanitize(e.raw, u))] else []
  }

  function Spoken(es: seq<Event>, u: Tables): seq<Content> {
    if es == [] then [] else SpokenBy(es[0], u) + Spoken(es[1..], u)
  }

  lemma ContentsJoin(a: seq<Cue>, b: seq<Cue>)
    ensures ContentsOf(a + b) == ContentsOf(a) + ContentsOf(b)
  {
  }

  lemma StepSpoken(s: Session, cues: seq<Cue>, e: Event, u: Tables) returns (next: seq<Cue>)
    requires s.file == File(cues) && s.counter.Some? && e != Restart
    ensures var t := Step(s, e, u);
      && t.file == File(next) && t.counter.Some? && cues <= next
      && ContentsOf(next) + ContentsOf(t.queue) == ContentsOf(cues) + ContentsOf(s.queue) + SpokenBy(e, u)
  {
    hide Sanitize, Record, ContentsOf;
    next := cues;
    var all := ContentsOf(cues) + ContentsOf(s.queue);
    assert all + [] == all;
    match e
    case Append =>
      if s.queue != [] {
        next := cues + [s.queue[0]];
        assert next[..|next| - 1] == cues;
        ContentsJoin(cues, [s.queue[0]]);
        ContentsJoin([s.queue[0]], s.queue[1..]);
        assert s.queue == [s.queue[0]] + s.queue[1..];
      }
    case Utterance(raw, start, end, saveVtt) =>
      if SpokenBy(e, u) != [] {
        var cue := Cue(s.counter.value + 1, start, end, Sanitize(raw, u));
        ContentsJoin(s.queue, [cue]);
        OneContent(cue);
      }
  }

  lemma OneContent(c: Cue)
    ensures ContentsOf([c]) == [Content(c.start, c.end, c.text)]
  {
  }

  /**
   * Until the next restart nothing said is lost, altered or moved: the cues in the file and then those
   * queued are the earlier ones and then the utterances, with their times and sanitized texts, in order.
   */
  lemma {:induction false} CuesAreSpoken(s: Session, cues: seq<Cue>, es: seq<Event>, u: Tables) returns (all: seq<Cue>)
    requires s.file == File(cues) && s.counter.Some? && (forall i | 0 <= i < |es| :: es[i] != Restart)
    ensures var t := Run(s, es, u);
      && t.file == File(all) && cues <= all
      && ContentsOf(all) + ContentsOf(t.queue) == ContentsOf(cues) + ContentsOf(s.queue) + Spoken(es, u)
    decreases |es|
  {
    hide Sanitize, Record, ContentsOf, Step, SpokenBy, File;
    all := cues;
    if es != [] {
      var next := StepSpoken(s, cues, es[0], u);
      all := CuesAreSpoken(Step(s, es[0], u), next, es[1..], u);
      var before := ContentsOf(cues) + ContentsOf(s.queue);
      assert before + SpokenBy(es[0], u) + Spoken(es[1..], u) == before + Spoken(es, u);
    } else {
      assert ContentsOf(cues) + ContentsOf(s.queue) + [] == ContentsOf(cues) + ContentsOf(s.queue);
    }
  }

  /** A restart leaves the file as it is and forgets what was still queued. */
  lemma RestartKeepsFile(s: Session, u: Tables)
    ensures Step(s, Restart, u).file == s.file && Step(s, Restart, u).queue == []
  {
  }

  lemma {:induction false} RunSnoc(s: Session, es: seq<Event>, e: Event, u: Tables)
    ensures Run(s, es + [e], u) == Step(Run(s, es, u), e, u)
    decreases |es|
  {
    hide Step;
    if es == [] {
      assert ([] + [e])[1..] == [];
    } else {
      assert (es + [e])[1..] == es[1..] + [e];
      RunSnoc(Step(s, es[0], u), es[1..], e, u);
    }
  }

  /** Once an illegible cue is in the file, no restart succeeds any more. */
  lemma LostForGood(s: Session, cues: seq<Cue>, es: seq<Event>, u: Tables)
    requires Sane(u) && Contiguous(s, cues) && !AllLegible(cues, u) && (forall e | e in es :: Stamped(e))
    ensures Run(s, es + [Restart], u).counter == None
  {
    hide Run, Scan, Legible, Sane, Contiguous;
    var all := NoGaps(s, cues, es, u);
    RunSnoc(s, es, Restart, u);
    var i :| 0 <= i < |cues| && !Legible(cues[i], u);
    assert !Legible(all[i], u);
  }

  /** The circled digits one, two, three: isdigit() accepts them and int() does not. */
  const CIRCLED: string := "\U{2460}\U{2461}\U{2462}"

  lemma CircledText(u: Tables)
    requires Sane(u)
    requires forall i | 0 <= i < 3 :: u.printable(CIRCLED[i]) && u.isDigit(CIRCLED[i]) && u.decimal(CIRCLED[i]) == None
    ensures Sanitize(CIRCLED, u) == CIRCLED && Trap(CIRCLED, u)
  {
    hide Sane;
    var a, b, c := CIRCLED[0], CIRCLED[1], CIRCLED[2];
    assert CIRCLED == [a, b, c] && [a, b, c][1..] == [b, c] && [b, c][1..] == [c] && [c][1..] == "";
    StripNothing(CIRCLED);
    assert WordLength([c]) == 1 && WordLength([b, c]) == 2 && WordLength([a, b, c]) == 3;
    assert CIRCLED[..3] == CIRCLED && CIRCLED[3..] == "";
    assert Rejoined("") == "" && Rejoined(CIRCLED) == CIRCLED;
    assert Kept([c], u) == [c] && Kept([b, c], u) == [b] + [c] && Kept([a, b, c], u) == [a] + [b, c];
    ReadIntIff(CIRCLED, u);
    assert u.decimal(CIRCLED[0]) == None;
  }

  /** One such text is enough: the session whose only cue it is cannot be started again. */
  lemma CircledDigits(u: Tables)
    requires Sane(u)
    requires forall i | 0 <= i < 3 :: u.printable(CIRCLED[i]) && u.isDigit(CIRCLED[i]) && u.decimal(CIRCLED[i]) == None
    ensures Run(Begin(), [Utterance(CIRCLED, "", "", true), Append, Restart], u).counter == None
  {
    hide Sane, Sanitize, Trap, Scan, Record;
    CircledText(u);
    var c := Cue(1, "", "", CIRCLED);
    var s := Session(Some(1), HEADER + Record(c), []);
    assert [c][..0] == [] && File([]) == HEADER;
    assert File([c]) == HEADER + Record(c);
    assert '\n' !in CIRCLED;
    assert !Legible([c][0], u);
    LostForGood(s, [c], [], u);
    var es := [Utterance(CIRCLED, "", "", true), Append, Restart];
    assert es[1..] == [Append, Restart] && es[1..][1..] == [] + [Restart];
    assert Step(Step(Begin(), es[0], u), Append, u) == s;
    assert Run(Begin(), es, u) == Run(s, [] + [Restart], u);
  }
}
