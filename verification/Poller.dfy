// liveaudio/core/network.py: the WebSocket queue poller, and the policy in liveaudio/core/engine.py
// that decides which of its two paths a subtitle takes.
module Poller {

  const REPLAY_BUFFER_MAX: nat := 256
  const MAX_RETRY_BUFFER: nat := 10

  datatype Msg = Msg(payload: int, isReplay: bool, interval: real)

  /** What the text queue holds: messages, and the shutdown sentinel. */
  datatype Item = Message(msg: Msg) | Sentinel

  /** A broadcast, and the clock reading of its tick. */
  datatype Sent = Sent(msg: Msg, at: real)

  predicate Paced(m: Msg) {
    m.isReplay && m.interval > 0.0
  }

  /** The poller's buffers and counters, with the logs of what it took and what it broadcast. */
  datatype State = State(
    replay: seq<Msg>, retry: seq<Msg>, nextReplayAt: real, replayDrops: nat, retryDrops: nat, stopped: bool,
    taken: seq<Msg>, wire: seq<Sent>)

  function Start(): State {
    State([], [], 0.0, 0, 0, false, [], [])
  }

  // ------------------------------------------------------------------ single steps

  /** Appends to a bounded buffer, dropping the oldest entry when it is full. */
  function Bounded<T>(buffer: seq<T>, x: T, max: nat): seq<T>
    requires max > 0
  {
    if |buffer| >= max then buffer[1..] + [x] else buffer + [x]
  }

  function Dropped<T>(buffer: seq<T>, max: nat): nat {
    if |buffer| >= max then 1 else 0
  }

  function SendRetry(s: State, now: real): State
    requires s.retry != []
  {
    s.(retry := s.retry[1..], wire := s.wire + [Sent(s.retry[0], now)])
  }

  function TakeReplay(s: State, m: Msg): State {
    s.(taken := s.taken + [m], replay := Bounded(s.replay, m, REPLAY_BUFFER_MAX),
       replayDrops := s.replayDrops + Dropped(s.replay, REPLAY_BUFFER_MAX))
  }

  function TakeAndSend(s: State, m: Msg, now: real): State {
    s.(taken := s.taken + [m], wire := s.wire + [Sent(m, now)])
  }

  function TakeAndKeep(s: State, m: Msg): State {
    s.(taken := s.taken + [m], retry := Bounded(s.retry, m, MAX_RETRY_BUFFER),
       retryDrops := s.retryDrops + Dropped(s.retry, MAX_RETRY_BUFFER))
  }

  function Max0(x: real): real {
    if x > 0.0 then x else 0.0
  }

  /** The paced path: send the oldest replay when due, or postpone it under backpressure. */
  function ReplayStep(s: State, room: bool, now: real): State {
    if s.replay == [] || now < s.nextReplayAt then s
    else if room then
      var m := s.replay[0];
      s.(replay := s.replay[1..], wire := s.wire + [Sent(m, now)], nextReplayAt := now + Max0(m.interval))
    else s.(nextReplayAt := now + 0.5)
  }

  // ------------------------------------------------------------------ one tick

  /** A state, how many queue items were consumed, and how many broadcast checks were made. */
  datatype Progress = Progress(s: State, k: nat, checks: nat)

  /** Empties the retry buffer while there is room; room(i) answers the tick's i-th check. */
  function Flush(s: State, checks: nat, room: nat -> bool, now: real): Progress
    decreases |s.retry|
  {
    if s.retry == [] then Progress(s, 0, checks)
    else if room(checks) then Flush(SendRetry(s, now), checks + 1, room, now)
    else Progress(s, 0, checks + 1)
  }

  /** Takes items from the queue until it is empty, the sentinel comes, or a live message must wait. */
  function Drain(s: State, items: seq<Item>, k: nat, checks: nat, room: nat -> bool, now: real): Progress
    requires k <= |items|
    decreases |items| - k
  {
    if k == |items| then Progress(s, k, checks)
    else if items[k] == Sentinel then Progress(s.(stopped := true), k + 1, checks)
    else
      var m := items[k].msg;
      if Paced(m) then Drain(TakeReplay(s, m), items, k + 1, checks, room, now)
      else if room(checks) then Drain(TakeAndSend(s, m, now), items, k + 1, checks + 1, room, now)
      else Progress(TakeAndKeep(s, m), k + 1, checks + 1)
  }

  /** One pass of the polling loop. `items` is all the queue offers during it. */
  function Tick(s: State, items: seq<Item>, room: nat -> bool, now: real): Progress {
    var flushed := Flush(s, 0, room, now);
    if flushed.s.retry != [] then flushed
    else
      var drained := Drain(flushed.s, items, 0, flushed.checks, room, now);
      if drained.s.stopped then drained
      else Progress(ReplayStep(drained.s, room(drained.checks), now), drained.k, drained.checks)
  }

  /** What the outside does around one pass: new queue items, the answers of its room checks, the clock. */
  datatype Turn = Turn(arrivals: seq<Item>, room: nat -> bool, now: real)

  /** The poller and the queue it reads. */
  datatype Channel = Channel(s: State, queue: seq<Item>)

  function Next(c: Channel, t: Turn): Channel {
    var items := c.queue + t.arrivals;
    if c.s.stopped then Channel(c.s, items)
    else
      var p := Tick(c.s, items, t.room, t.now);
      Channel(p.s, if p.k <= |items| then items[p.k..] else [])
  }

  function After(c: Channel, turns: seq<Turn>): Channel
    decreases |turns|
  {
    if turns == [] then c else After(Next(c, turns[0]), turns[1..])
  }

  /** Everything put in the queue during the turns. */
  function Put(turns: seq<Turn>): seq<Item> {
    if turns == [] then [] else turns[0].arrivals + Put(turns[1..])
  }

  // ------------------------------------------------------------------ what every run keeps

  function Live(ms: seq<Msg>): seq<Msg> {
    if ms == [] then []
    else Live(ms[..|ms| - 1]) + if Paced(ms[|ms| - 1]) then [] else [ms[|ms| - 1]]
  }

  function Replays(ms: seq<Msg>): seq<Msg> {
    if ms == [] then []
    else Replays(ms[..|ms| - 1]) + if Paced(ms[|ms| - 1]) then [ms[|ms| - 1]] else []
  }

  function Msgs(wire: seq<Sent>): seq<Msg> {
    seq(|wire|, i requires 0 <= i < |wire| => wire[i].msg)
  }

  /** a is b with some elements left out. */
  ghost predicate Subsequence(a: seq<Msg>, b: seq<Msg>)
    decreases |b|
  {
    || a == []
    || (b != []
        && (Subsequence(a, b[..|b| - 1])
            || (a[|a| - 1] == b[|b| - 1] && Subsequence(a[..|a| - 1], b[..|b| - 1]))))
  }

  /** Consecutive replay broadcasts are as far apart as the earlier one asked. */
  ghost predicate Spaced(replays: seq<Sent>, next: real) {
    && (forall i | 0 < i < |replays| :: replays[i].at >= replays[i - 1].at + replays[i - 1].msg.interval)
    && (replays != [] ==> next >= replays[|replays| - 1].at + replays[|replays| - 1].msg.interval)
  }

  function ReplayWire(wire: seq<Sent>): seq<Sent> {
    if wire == [] then []
    else ReplayWire(wire[..|wire| - 1]) + if Paced(wire[|wire| - 1].msg) then [wire[|wire| - 1]] else []
  }

  /** The live path: broadcasts then the retry buffer are the live messages taken, and none was dropped. */
  ghost predicate LiveInOrder(s: State) {
    && Live(Msgs(s.wire)) + s.retry == Live(s.taken)
    && (forall m | m in s.retry :: !Paced(m))
    && |s.retry| <= 1 && s.retryDrops == 0
    && (s.stopped ==> s.retry == [])
  }

  /** The replays taken that have left the buffer. */
  function Gone(s: State): seq<Msg>
    requires |s.replay| <= |Replays(s.taken)|
  {
    var all := Replays(s.taken);
    all[..|all| - |s.replay|]
  }

  /** The replay path: a bounded suffix waits, what left it was sent in order or counted as dropped. */
  ghost predicate ReplayAccounted(s: State) {
    && |s.replay| <= REPLAY_BUFFER_MAX
    && |s.replay| <= |Replays(s.taken)|
    && s.replay == Replays(s.taken)[|Replays(s.taken)| - |s.replay|..]
    && Subsequence(Replays(Msgs(s.wire)), Gone(s))
    && |Replays(s.taken)| == |Replays(Msgs(s.wire))| + s.replayDrops + |s.replay|
  }

  ghost predicate Inv(s: State) {
    LiveInOrder(s) && ReplayAccounted(s) && Spaced(ReplayWire(s.wire), s.nextReplayAt)
  }

  lemma Extend<T>(s: seq<T>, x: T)
    ensures (s + [x])[..|s + [x]| - 1] == s && (s + [x])[|s + [x]| - 1] == x
  {
  }

  /** How the logs' projections grow by one message. */
  lemma LogsGrow(taken: seq<Msg>, m: Msg)
    ensures Live(taken + [m]) == Live(taken) + if Paced(m) then [] else [m]
    ensures Replays(taken + [m]) == Replays(taken) + if Paced(m) then [m] else []
  {
    Extend(taken, m);
  }

  lemma WireGrows(wire: seq<Sent>, x: Sent)
    ensures Msgs(wire + [x]) == Msgs(wire) + [x.msg]
    ensures ReplayWire(wire + [x]) == ReplayWire(wire) + if Paced(x.msg) then [x] else []
  {
    Extend(wire, x);
  }

  lemma SubsequenceSnoc(a: seq<Msg>, b: seq<Msg>, m: Msg)
    requires Subsequence(a, b)
    ensures Subsequence(a, b + [m]) && Subsequence(a + [m], b + [m])
  {
    Extend(b, m);
    Extend(a, m);
  }

  lemma {:induction false} ReplaysArePaced(ms: seq<Msg>)
    ensures forall m | m in Replays(ms) :: Paced(m)
  {
    if ms != [] {
      ReplaysArePaced(ms[..|ms| - 1]);
    }
  }

  lemma SendRetryKeeps(s: State, now: real)
    requires Inv(s) && s.retry != []
    ensures Inv(SendRetry(s, now))
  {
    hide Live, Replays, ReplayWire, Msgs, Subsequence;
    var m := s.retry[0];
    assert m in s.retry;
    WireGrows(s.wire, Sent(m, now));
    LogsGrow(Msgs(s.wire), m);
    assert Live(Msgs(s.wire)) + s.retry == (Live(Msgs(s.wire)) + [m]) + s.retry[1..];
    assert Replays(Msgs(s.wire)) + [] == Replays(Msgs(s.wire));
    assert ReplayWire(s.wire) + [] == ReplayWire(s.wire);
  }

  lemma TakeAndSendKeeps(s: State, m: Msg, now: real)
    requires Inv(s) && s.retry == [] && !Paced(m)
    ensures Inv(TakeAndSend(s, m, now))
  {
    hide Live, Replays, ReplayWire, Msgs, Subsequence;
    WireGrows(s.wire, Sent(m, now));
    LogsGrow(Msgs(s.wire), m);
    LogsGrow(s.taken, m);
    assert Replays(Msgs(s.wire)) + [] == Replays(Msgs(s.wire));
    assert Replays(s.taken) + [] == Replays(s.taken);
    assert ReplayWire(s.wire) + [] == ReplayWire(s.wire);
    assert Live(Msgs(s.wire)) + [] == Live(Msgs(s.wire));
  }

  lemma TakeAndKeepKeeps(s: State, m: Msg)
    requires Inv(s) && s.retry == [] && !s.stopped && !Paced(m)
    ensures Inv(TakeAndKeep(s, m))
  {
    hide Live, Replays, ReplayWire, Msgs, Subsequence;
    LogsGrow(s.taken, m);
    assert Replays(s.taken) + [] == Replays(s.taken);
    assert Live(Msgs(s.wire)) + [] == Live(Msgs(s.wire));
  }

  lemma TakeReplayKeeps(s: State, m: Msg)
    requires Inv(s) && Paced(m)
    ensures Inv(TakeReplay(s, m))
  {
    hide Live, Replays, ReplayWire, Msgs, Subsequence;
    LogsGrow(s.taken, m);
    var all, t := Replays(s.taken), TakeReplay(s, m);
    assert Live(s.taken) + [] == Live(s.taken);
    assert t.replay == (all + [m])[|all + [m]| - |t.replay|..];
    if |s.replay| >= REPLAY_BUFFER_MAX {
      var n := |all| - |s.replay|;
      assert Gone(t) == all[..n + 1] == all[..n] + [all[n]];
      SubsequenceSnoc(Replays(Msgs(s.wire)), Gone(s), all[n]);
    } else {
      assert Gone(t) == Gone(s);
    }
  }

  /** The buffered replays are the last ones taken, so the oldest is the one after those that are gone. */
  lemma OldestReplay(s: State)
    requires ReplayAccounted(s) && s.replay != []
    ensures Paced(s.replay[0]) && |Gone(s)| < |Replays(s.taken)| && Replays(s.taken)[|Gone(s)|] == s.replay[0]
    ensures s.replay[1..] == Replays(s.taken)[|Gone(s)| + 1..]
  {
    hide Replays, Msgs, Subsequence, Paced;
    ReplaysArePaced(s.taken);
    assert s.replay[0] in Replays(s.taken);
  }

  function ReplaySent(s: State, now: real): State
    requires s.replay != []
  {
    var m := s.replay[0];
    s.(replay := s.replay[1..], wire := s.wire + [Sent(m, now)], nextReplayAt := now + Max0(m.interval))
  }

  lemma SentAccounted(s: State, now: real)
    requires ReplayAccounted(s) && s.replay != []
    ensures ReplayAccounted(ReplaySent(s, now))
  {
    hide Replays, Msgs, Subsequence, Live, ReplayWire;
    var m, t := s.replay[0], ReplaySent(s, now);
    OldestReplay(s);
    WireGrows(s.wire, Sent(m, now));
    LogsGrow(Msgs(s.wire), m);
    assert Gone(t) == Gone(s) + [m];
    SubsequenceSnoc(Replays(Msgs(s.wire)), Gone(s), m);
  }

  lemma SentInOrder(s: State, now: real)
    requires LiveInOrder(s) && s.replay != [] && Paced(s.replay[0])
    ensures LiveInOrder(ReplaySent(s, now))
  {
    hide Replays, Msgs, Live, ReplayWire, Paced;
    WireGrows(s.wire, Sent(s.replay[0], now));
    LogsGrow(Msgs(s.wire), s.replay[0]);
    assert Live(Msgs(s.wire)) + [] == Live(Msgs(s.wire));
  }

  lemma SentSpaced(s: State, now: real)
    requires Spaced(ReplayWire(s.wire), s.nextReplayAt) && s.replay != [] && Paced(s.replay[0]) && now >= s.nextReplayAt
    ensures Spaced(ReplayWire(ReplaySent(s, now).wire), ReplaySent(s, now).nextReplayAt)
  {
    hide Replays, Msgs, Live, ReplayWire;
    WireGrows(s.wire, Sent(s.replay[0], now));
  }

  lemma ReplayStepKeeps(s: State, room: bool, now: real)
    requires Inv(s)
    ensures Inv(ReplayStep(s, room, now))
  {
    hide LiveInOrder, ReplayAccounted, ReplayWire;
    if s.replay != [] && now >= s.nextReplayAt {
      if room {
        OldestReplay(s);
        SentAccounted(s, now);
        SentInOrder(s, now);
        SentSpaced(s, now);
        assert ReplayStep(s, room, now) == ReplaySent(s, now);
      } else {
        PostponeKeeps(s, now + 0.5);
      }
    }
  }

  lemma PostponeKeeps(s: State, next: real)
    requires Inv(s) && next >= s.nextReplayAt
    ensures Inv(s.(nextReplayAt := next))
  {
    hide Replays, Msgs, Live, ReplayWire, Subsequence;
  }

  // ------------------------------------------------------------------ whole runs

  lemma {:induction false} FlushKeeps(s: State, checks: nat, room: nat -> bool, now: real)
    requires Inv(s) && !s.stopped
    ensures var p := Flush(s, checks, room, now); Inv(p.s) && !p.s.stopped && p.k == 0 && p.s.taken == s.taken
    decreases |s.retry|
  {
    hide Inv;
    if s.retry != [] && room(checks) {
      SendRetryKeeps(s, now);
      FlushKeeps(SendRetry(s, now), checks + 1, room, now);
    }
  }

  function Items(ms: seq<Msg>): seq<Item> {
    seq(|ms|, i requires 0 <= i < |ms| => Message(ms[i]))
  }

  /** What has left the queue: the messages taken, then the sentinel if it came. */
  function Consumed(s: State): seq<Item> {
    Items(s.taken) + if s.stopped then [Sentinel] else []
  }

  lemma {:induction false} DrainKeeps(s: State, items: seq<Item>, k: nat, checks: nat, room: nat -> bool, now: real)
    requires Inv(s) && !s.stopped && s.retry == [] && k <= |items|
    ensures var p := Drain(s, items, k, checks, room, now);
      Inv(p.s) && k <= p.k <= |items| && Consumed(p.s) == Consumed(s) + items[k..p.k]
    decreases |items| - k
  {
    hide LiveInOrder, ReplayAccounted, Spaced, Drain;
    if k < |items| {
      DrainHead(s, items, k, checks, room, now);
    } else {
      DrainEnd(s, items, checks, room, now);
    }
    if k < |items| && items[k].Message? {
      var m := items[k].msg;
      assert Items(s.taken + [m]) == Items(s.taken) + [items[k]];
      if Paced(m) {
        TakeReplayKeeps(s, m);
        DrainKeeps(TakeReplay(s, m), items, k + 1, checks, room, now);
      } else if room(checks) {
        TakeAndSendKeeps(s, m, now);
        DrainKeeps(TakeAndSend(s, m, now), items, k + 1, checks + 1, room, now);
      } else {
        TakeAndKeepKeeps(s, m);
      }
    } else if k < |items| {
      StopKeeps(s);
    }
  }

  lemma StopKeeps(s: State)
    requires Inv(s) && s.retry == []
    ensures Inv(s.(stopped := true))
  {
  }

  /** One pass keeps the invariant, and what it consumes is a prefix of what the queue offered. */
  lemma TickKeeps(s: State, items: seq<Item>, room: nat -> bool, now: real)
    requires Inv(s) && !s.stopped
    ensures var p := Tick(s, items, room, now);
      Inv(p.s) && p.k <= |items| && Consumed(p.s) == Consumed(s) + items[..p.k]
  {
    hide LiveInOrder, ReplayAccounted, Spaced;
    FlushKeeps(s, 0, room, now);
    var flushed := Flush(s, 0, room, now);
    if flushed.s.retry == [] {
      DrainKeeps(flushed.s, items, 0, flushed.checks, room, now);
      var drained := Drain(flushed.s, items, 0, flushed.checks, room, now);
      ReplayStepKeeps(drained.s, room(drained.checks), now);
    }
  }

  lemma NextKeeps(c: Channel, t: Turn)
    requires Inv(c.s)
    ensures var d := Next(c, t); Inv(d.s) && Consumed(d.s) + d.queue == Consumed(c.s) + c.queue + t.arrivals
  {
    hide Inv, Consumed, Tick;
    var items := c.queue + t.arrivals;
    if !c.s.stopped {
      TickKeeps(c.s, items, t.room, t.now);
      var p := Tick(c.s, items, t.room, t.now);
      assert items[..p.k] + items[p.k..] == items;
    }
    assert Consumed(c.s) + items == Consumed(c.s) + c.queue + t.arrivals;
  }

  /** Every run keeps the invariant, and nothing that enters the queue is lost or reordered in it. */
  lemma {:induction false} RunKeeps(c: Channel, turns: seq<Turn>)
    requires Inv(c.s)
    ensures var d := After(c, turns);
      Inv(d.s) && Consumed(d.s) + d.queue == Consumed(c.s) + c.queue + Put(turns)
    decreases |turns|
  {
    hide Inv, Consumed, Next;
    if turns != [] {
      NextKeeps(c, turns[0]);
      RunKeeps(Next(c, turns[0]), turns[1..]);
      var base := Consumed(c.s) + c.queue;
      assert base + turns[0].arrivals + Put(turns[1..]) == base + Put(turns);
    }
  }

  /** What the poller and its queue hold after the turns of a run. */
  function Ran(turns: seq<Turn>): Channel {
    After(Channel(Start(), []), turns)
  }

  lemma StartInv()
    ensures Inv(Start()) && Consumed(Start()) == []
  {
    assert Msgs([]) == [];
  }

  lemma RanKeeps(turns: seq<Turn>)
    ensures Inv(Ran(turns).s) && Consumed(Ran(turns).s) + Ran(turns).queue == Put(turns)
  {
    hide Inv, After, Put, Consumed;
    StartInv();
    RunKeeps(Channel(Start(), []), turns);
    assert [] + [] + Put(turns) == Put(turns);
  }

  /**
   * The live path of every run: what was broadcast and then what waits for room are the live messages
   * in the order they entered the queue. At most one ever waits, so the drop-oldest branch is never
   * taken, and none waits once the sentinel has been read.
   */
  lemma LivePath(turns: seq<Turn>)
    ensures var s := Ran(turns).s;
      && Live(Msgs(s.wire)) + s.retry == Live(s.taken)
      && |s.retry| <= 1 && s.retryDrops == 0
      && (s.stopped ==> Live(Msgs(s.wire)) == Live(s.taken))
      && Items(s.taken) <= Put(turns)
  {
    hide Live, Msgs, ReplayAccounted, Spaced, After, Put;
    RanKeeps(turns);
    var s := Ran(turns).s;
    assert Put(turns) == Items(s.taken) + ((if s.stopped then [Sentinel] else []) + Ran(turns).queue);
    assert Live(Msgs(s.wire)) + [] == Live(Msgs(s.wire));
  }

  /**
   * The replay path of every run: the buffer is a suffix, at most 256 long, of the replays taken; the
   * others were broadcast in arrival order or counted as dropped; and two consecutive broadcasts are at
   * least the earlier one's interval apart, also when backpressure postponed one in between.
   */
  lemma ReplayPath(turns: seq<Turn>)
    ensures var s := Ran(turns).s;
      && ReplayAccounted(s) && |s.replay| <= 256
      && (forall i | 0 < i < |ReplayWire(s.wire)| ::
            ReplayWire(s.wire)[i].at - ReplayWire(s.wire)[i - 1].at >= ReplayWire(s.wire)[i - 1].msg.interval)
  {
    hide LiveInOrder, ReplayWire, Consumed, After, Replays, Msgs, Subsequence;
    RanKeeps(turns);
  }

  // ------------------------------------------------------------------ what one pass does with room, and without

  /** The messages the queue offers from k on, up to the sentinel. */
  function Offered(items: seq<Item>, k: nat): seq<Msg>
    requires k <= |items|
    decreases |items| - k
  {
    if k == |items| || items[k] == Sentinel then [] else [items[k].msg] + Offered(items, k + 1)
  }

  /** The same, up to and with the first one on the live path. */
  function OfferedToLive(items: seq<Item>, k: nat): seq<Msg>
    requires k <= |items|
    decreases |items| - k
  {
    if k == |items| || items[k] == Sentinel then []
    else [items[k].msg] + if Paced(items[k].msg) then OfferedToLive(items, k + 1) else []
  }

  function StampedAll(ms: seq<Msg>, now: real): seq<Sent> {
    seq(|ms|, i requires 0 <= i < |ms| => Sent(ms[i], now))
  }

  /** The latest 256. */
  function Latest<T>(xs: seq<T>): seq<T> {
    if |xs| <= 256 then xs else xs[|xs| - 256..]
  }

  function Excess<T>(xs: seq<T>): nat {
    if |xs| <= 256 then 0 else |xs| - 256
  }

  lemma {:induction false} LiveJoin(m: Msg, ms: seq<Msg>)
    ensures Live([m] + ms) == Live([m]) + Live(ms)
    ensures Replays([m] + ms) == Replays([m]) + Replays(ms)
  {
    hide Paced, Live, Replays;
    LiveOfNone();
    if ms == [] {
      assert [m] + [] == [m];
    } else {
      var front, last := ms[..|ms| - 1], ms[|ms| - 1];
      LiveJoin(m, front);
      LogsGrow(front, last);
      LogsGrow([m] + front, last);
      assert ms == front + [last];
      assert [m] + ms == ([m] + front) + [last];
    }
  }

  lemma LiveCons(m: Msg, ms: seq<Msg>)
    ensures Live([m] + ms) == (if Paced(m) then [] else [m]) + Live(ms)
    ensures Replays([m] + ms) == (if Paced(m) then [m] else []) + Replays(ms)
  {
    hide Paced;
    LiveJoin(m, ms);
    assert [m][..0] == [];
  }

  lemma StampedCons(m: Msg, ms: seq<Msg>, now: real)
    ensures StampedAll([m] + ms, now) == [Sent(m, now)] + StampedAll(ms, now)
  {
  }

  /** Taking a replay keeps the latest 256 and counts the one it drops. */
  lemma TakeReplayLatest(s: State, m: Msg, all: seq<Msg>)
    requires s.replay == Latest(all)
    ensures TakeReplay(s, m).replay == Latest(all + [m])
    ensures TakeReplay(s, m).replayDrops == s.replayDrops + Excess(all + [m]) - Excess(all)
  {
  }

  /** What a drain took, as far as the replay buffer is concerned: the latest 256 stay, each excess one is a drop. */
  ghost predicate Kept(s: State, t: State, all: seq<Msg>) {
    && |t.taken| >= |s.taken| && t.taken[..|s.taken|] == s.taken
    && t.replay == Latest(all + Replays(t.taken[|s.taken|..]))
    && t.replayDrops == s.replayDrops + Excess(all + Replays(t.taken[|s.taken|..])) - Excess(all)
    && t.nextReplayAt == s.nextReplayAt
  }

  lemma KeptNow(s: State, t: State, all: seq<Msg>)
    requires t.taken == s.taken && t.replay == s.replay == Latest(all)
    requires t.replayDrops == s.replayDrops && t.nextReplayAt == s.nextReplayAt
    ensures Kept(s, t, all)
  {
    assert t.taken[|s.taken|..] == [] && all + Replays([]) == all;
  }

  /** One message taken first. */
  lemma KeptFirst(s: State, s1: State, t: State, m: Msg, all: seq<Msg>)
    requires s1.taken == s.taken + [m] && s1.nextReplayAt == s.nextReplayAt
    requires var all1 := if Paced(m) then all + [m] else all;
      && s1.replay == Latest(all1) && s1.replayDrops == s.replayDrops + Excess(all1) - Excess(all)
      && Kept(s1, t, all1)
    ensures Kept(s, t, all)
  {
    hide Paced, Latest, Excess, Replays, Live;
    var rest := t.taken[|s1.taken|..];
    assert t.taken[..|s.taken| + 1] == s.taken + [m];
    assert t.taken == s.taken + [m] + rest;
    assert t.taken[|s.taken|..] == [m] + rest && t.taken[..|s.taken|] == s.taken;
    LiveCons(m, rest);
    if Paced(m) {
      assert all + ([m] + Replays(rest)) == all + [m] + Replays(rest);
    } else {
      assert [] + Replays(rest) == Replays(rest);
    }
  }

  /** Whatever the room: no replay is dropped unless 256 newer ones wait. */
  lemma {:induction false} DrainKept(s: State, items: seq<Item>, k: nat, checks: nat, room: nat -> bool, now: real,
                                     all: seq<Msg>)
    requires k <= |items| && s.replay == Latest(all)
    ensures Kept(s, Drain(s, items, k, checks, room, now).s, all)
    decreases |items| - k
  {
    hide Kept, Latest, Excess, Paced, Bounded, Dropped;
    if k == |items| {
      KeptNow(s, s, all);
    } else if items[k] == Sentinel {
      KeptNow(s, s.(stopped := true), all);
    } else {
      var m := items[k].msg;
      var t := Drain(s, items, k, checks, room, now).s;
      if Paced(m) {
        TakeReplayLatest(s, m, all);
        DrainKept(TakeReplay(s, m), items, k + 1, checks, room, now, all + [m]);
        KeptFirst(s, TakeReplay(s, m), t, m, all);
      } else if room(checks) {
        DrainKept(TakeAndSend(s, m, now), items, k + 1, checks + 1, room, now, all);
        KeptFirst(s, TakeAndSend(s, m, now), t, m, all);
      } else {
        KeptNow(TakeAndKeep(s, m), TakeAndKeep(s, m), all);
        KeptFirst(s, TakeAndKeep(s, m), t, m, all);
      }
    }
  }

  /** With room, the retry buffer is emptied in order. */
  lemma {:induction false} FlushWithRoom(s: State, checks: nat, room: nat -> bool, now: real)
    requires forall i :: room(i)
    ensures var t := Flush(s, checks, room, now).s;
      t == s.(retry := [], wire := s.wire + StampedAll(s.retry, now))
    decreases |s.retry|
  {
    if s.retry == [] {
      assert s.wire + StampedAll([], now) == s.wire;
    } else {
      var u := SendRetry(s, now);
      FlushWithRoom(u, checks + 1, room, now);
      assert s.retry == [s.retry[0]] + s.retry[1..];
      StampedCons(s.retry[0], s.retry[1..], now);
      assert s.wire + ([Sent(s.retry[0], now)] + StampedAll(s.retry[1..], now)) == u.wire + StampedAll(u.retry, now);
    }
  }

  /** With room, everything up to the sentinel is taken and every live message among it broadcast. */
  lemma {:induction false} DrainWithRoom(s: State, items: seq<Item>, k: nat, checks: nat, room: nat -> bool, now: real)
    requires k <= |items| && (forall i :: room(i)) && s.retry == [] && !s.stopped
    ensures var p, took := Drain(s, items, k, checks, room, now), Offered(items, k);
      && p.s.taken == s.taken + took && p.s.retry == []
      && p.s.wire == s.wire + StampedAll(Live(took), now)
      && p.s.stopped == (k + |took| < |items|) && p.k == k + |took| + (if p.s.stopped then 1 else 0)
    decreases |items| - k
  {
    hide Paced, Live, Replays, TakeReplay, Drain;
    if k == |items| {
      DrainEnd(s, items, checks, room, now);
      LiveOfNone();
      assert s.taken + [] == s.taken && s.wire + StampedAll([], now) == s.wire;
    } else if items[k] == Sentinel {
      DrainHead(s, items, k, checks, room, now);
      LiveOfNone();
      assert s.taken + [] == s.taken && s.wire + StampedAll([], now) == s.wire;
    } else {
      var m := items[k].msg;
      var rest := Offered(items, k + 1);
      DrainHead(s, items, k, checks, room, now);
      ReplayTaken(s, m);
      LiveCons(m, rest);
      assert s.taken + [m] + rest == s.taken + ([m] + rest);
      if Paced(m) {
        DrainWithRoom(TakeReplay(s, m), items, k + 1, checks, room, now);
        assert [] + Live(rest) == Live(rest);
      } else {
        DrainWithRoom(TakeAndSend(s, m, now), items, k + 1, checks + 1, room, now);
        StampedCons(m, Live(rest), now);
        assert s.wire + [Sent(m, now)] + StampedAll(Live(rest), now)
            == s.wire + ([Sent(m, now)] + StampedAll(Live(rest), now));
      }
    }
  }

  lemma LiveOfNone()
    ensures Live([]) == [] && Replays([]) == []
  {
  }

  /** The replay that is due after a pass took what it took. */
  function Due(waiting: seq<Msg>, nextReplayAt: real, stopped: bool, now: real): seq<Msg> {
    if stopped || waiting == [] || now < nextReplayAt then [] else [waiting[0]]
  }

  /**
   * A pass with room at every check: the messages kept for retry go out first, then every live message
   * offered up to the sentinel, in order; then the oldest replay waiting, if it is due.
   */
  lemma PassWithRoom(s: State, items: seq<Item>, room: nat -> bool, now: real)
    requires Inv(s) && !s.stopped && (forall i :: room(i))
    ensures var p, took := Tick(s, items, room, now), Offered(items, 0);
      var waiting := Latest(s.replay + Replays(took));
      var due := Due(waiting, s.nextReplayAt, |took| < |items|, now);
      && p.s.retry == [] && p.s.taken == s.taken + took
      && p.s.stopped == (|took| < |items|) && p.k == |took| + (if p.s.stopped then 1 else 0)
      && p.s.wire == s.wire + StampedAll(s.retry + Live(took) + due, now)
      && p.s.replay == waiting[|due|..]
  {
    hide Inv, Paced, Live, Replays, Latest;
    FlushWithRoom(s, 0, room, now);
    var f := Flush(s, 0, room, now);
    DrainWithRoom(f.s, items, 0, f.checks, room, now);
    var d := Drain(f.s, items, 0, f.checks, room, now);
    ReplayFits(s);
    DrainKept(f.s, items, 0, f.checks, room, now, s.replay);
    var took := Offered(items, 0);
    assert d.s.taken[|s.taken|..] == took;
    var due := Due(d.s.replay, s.nextReplayAt, d.s.stopped, now);
    StampedJoin(s.retry, Live(took), now);
    StampedJoin(s.retry + Live(took), due, now);
    assert s.wire + StampedAll(s.retry, now) + StampedAll(Live(took), now) + StampedAll(due, now)
      == s.wire + (StampedAll(s.retry, now) + StampedAll(Live(took), now) + StampedAll(due, now));
    if due != [] {
      assert StampedAll(due, now) == [Sent(d.s.replay[0], now)];
    } else {
      assert StampedAll(due, now) == [];
    }
  }

  lemma StampedJoin(a: seq<Msg>, b: seq<Msg>, now: real)
    ensures StampedAll(a + b, now) == StampedAll(a, now) + StampedAll(b, now)
  {
  }

  lemma ReplayFits(s: State)
    requires Inv(s)
    ensures s.replay == Latest(s.replay)
  {
  }

  /** Without room, replays are still buffered and the first live message waits; nothing is broadcast. */
  lemma {:induction false} DrainWithoutRoom(s: State, items: seq<Item>, k: nat, checks: nat, room: nat -> bool,
                                            now: real)
    requires k <= |items| && (forall i :: !room(i)) && s.retry == [] && !s.stopped
    ensures var p, took := Drain(s, items, k, checks, room, now), OfferedToLive(items, k);
      && p.s.taken == s.taken + took && p.s.wire == s.wire && p.s.retry == Live(took)
      && p.k == k + |took| + (if p.s.stopped then 1 else 0)
    decreases |items| - k
  {
    hide Paced, Live, Replays, TakeReplay, Drain, OfferedToLive;
    OfferedToLiveHead(items, k);
    if k == |items| {
      DrainEnd(s, items, checks, room, now);
      LiveOfNone();
      assert s.taken + [] == s.taken;
    } else if items[k] == Sentinel {
      DrainHead(s, items, k, checks, room, now);
      LiveOfNone();
      assert s.taken + [] == s.taken;
    } else {
      var m := items[k].msg;
      DrainHead(s, items, k, checks, room, now);
      if Paced(m) {
        var rest := OfferedToLive(items, k + 1);
        LiveCons(m, rest);
        ReplayTaken(s, m);
        DrainWithoutRoom(TakeReplay(s, m), items, k + 1, checks, room, now);
        assert s.taken + [m] + rest == s.taken + ([m] + rest) && [] + Live(rest) == Live(rest);
      } else {
        LiveAlone(m);
        assert OfferedToLive(items, k) == [m];
      }
    }
  }

  lemma OfferedToLiveHead(items: seq<Item>, k: nat)
    requires k <= |items|
    ensures OfferedToLive(items, k)
      == if k == |items| || items[k] == Sentinel then []
         else if Paced(items[k].msg) then [items[k].msg] + OfferedToLive(items, k + 1) else [items[k].msg]
  {
    hide Paced;
  }

  /** What taking a replay leaves alone. */
  lemma ReplayTaken(s: State, m: Msg)
    ensures var t := TakeReplay(s, m);
      t.taken == s.taken + [m] && t.wire == s.wire && t.retry == s.retry && t.stopped == s.stopped
  {
  }

  lemma LiveAlone(m: Msg)
    requires !Paced(m)
    ensures Live([m]) == [m]
  {
    hide Paced;
    LogsGrow([], m);
    assert [] + [m] == [m] && Live([]) == [];
  }

  /** A pass without room at any check broadcasts nothing; a due replay is put off by half a second. */
  lemma PassWithoutRoom(s: State, items: seq<Item>, room: nat -> bool, now: real)
    requires Inv(s) && !s.stopped && (forall i :: !room(i))
    ensures var p := Tick(s, items, room, now);
      && p.s.wire == s.wire
      && (s.retry != [] ==> p.s == s && p.k == 0)
      && (s.retry == [] ==>
            var took := OfferedToLive(items, 0);
            && p.s.taken == s.taken + took && p.s.retry == Live(took)
            && p.k == |took| + (if p.s.stopped then 1 else 0)
            && p.s.replay == Latest(s.replay + Replays(took))
            && p.s.nextReplayAt == if Due(p.s.replay, s.nextReplayAt, p.s.stopped, now) == [] then s.nextReplayAt
                                   else now + 0.5)
  {
    hide Inv, Paced, Live, Replays, Latest;
    if s.retry == [] {
      var f := Flush(s, 0, room, now);
      DrainWithoutRoom(s, items, 0, f.checks, room, now);
      ReplayFits(s);
      DrainKept(s, items, 0, f.checks, room, now, s.replay);
      assert Drain(s, items, 0, f.checks, room, now).s.taken[|s.taken|..] == OfferedToLive(items, 0);
    }
  }

  /** How many of the checks lo..hi were answered with room. */
  function Granted(room: nat -> bool, lo: nat, hi: nat): nat
    decreases hi - lo
  {
    if lo >= hi then 0 else (if room(lo) then 1 else 0) + Granted(room, lo + 1, hi)
  }

  lemma {:induction false} FlushGranted(s: State, checks: nat, room: nat -> bool, now: real)
    ensures var p := Flush(s, checks, room, now);
      checks <= p.checks && |p.s.wire| == |s.wire| + Granted(room, checks, p.checks)
    decreases |s.retry|
  {
    if s.retry != [] && room(checks) {
      FlushGranted(SendRetry(s, now), checks + 1, room, now);
    }
  }

  lemma {:induction false} DrainGranted(s: State, items: seq<Item>, k: nat, checks: nat, room: nat -> bool, now: real)
    requires k <= |items|
    ensures var p := Drain(s, items, k, checks, room, now);
      checks <= p.checks && |p.s.wire| == |s.wire| + Granted(room, checks, p.checks)
    decreases |items| - k
  {
    hide Bounded, Dropped, Paced;
    if k < |items| && items[k].Message? {
      var m := items[k].msg;
      if Paced(m) {
        DrainGranted(TakeReplay(s, m), items, k + 1, checks, room, now);
      } else if room(checks) {
        DrainGranted(TakeAndSend(s, m, now), items, k + 1, checks + 1, room, now);
      }
    }
  }

  lemma {:induction false} GrantedJoin(room: nat -> bool, lo: nat, mid: nat, hi: nat)
    requires lo <= mid <= hi
    ensures Granted(room, lo, hi) == Granted(room, lo, mid) + Granted(room, mid, hi)
    decreases mid - lo
  {
    if lo < mid {
      GrantedJoin(room, lo + 1, mid, hi);
    }
  }

  /** In every pass, as many messages are broadcast as checks were answered with room, but for a replay's own check. */
  lemma BroadcastsAreGranted(s: State, items: seq<Item>, room: nat -> bool, now: real)
    ensures var p := Tick(s, items, room, now);
      var live := |s.wire| + Granted(room, 0, p.checks);
      |p.s.wire| == live || (|p.s.wire| == live + 1 && room(p.checks))
  {
    hide Flush, Drain;
    var f := Flush(s, 0, room, now);
    FlushGranted(s, 0, room, now);
    if f.s.retry == [] {
      DrainGranted(f.s, items, 0, f.checks, room, now);
      GrantedJoin(room, 0, f.checks, Drain(f.s, items, 0, f.checks, room, now).checks);
    }
  }

  // ------------------------------------------------------------------ the policy in front of the queue

  datatype Policy = Auto | LiveOnly | SendAll | Unknown

  /** Whether a subtitle is emitted, whether it is marked as a replay, and at what interval. */
  datatype Decision = Decision(emit: bool, isReplay: bool, interval: real)

  function Decide(policy: Policy, maxDelay: real, interval: real, delay: real): Decision {
    match policy
    case SendAll => Decision(true, delay > 1.0, 0.0)
    case LiveOnly => Decision(delay <= maxDelay, false, 0.0)
    case _ =>
      if delay > maxDelay then Decision(false, false, 0.0)
      else Decision(true, delay > 1.0, if delay > 1.0 then interval else 0.0)
  }

  /** A subtitle as the decoder hands it over, with the settings read at that moment. */
  datatype Subtitle = Subtitle(payload: int, policy: Policy, maxDelay: real, interval: real, delay: real)

  function Decided(t: Subtitle): Decision {
    Decide(t.policy, t.maxDelay, t.interval, t.delay)
  }

  function MsgOf(t: Subtitle): Msg {
    Msg(t.payload, Decided(t).isReplay, Decided(t).interval)
  }

  /** The messages the decoder puts in the text queue. */
  function Emitted(ts: seq<Subtitle>): seq<Msg> {
    if ts == [] then []
    else (if Decided(ts[0]).emit then [MsgOf(ts[0])] else []) + Emitted(ts[1..])
  }

  /** A subtitle takes the paced path exactly under auto, with a positive interval and 1 < delay <= max. */
  lemma PacedIff(t: Subtitle)
    ensures Decided(t).emit && Paced(MsgOf(t))
      <==> t.policy !in {LiveOnly, SendAll} && t.interval > 0.0 && 1.0 < t.delay <= t.maxDelay
  {
  }

  /** Which delays are emitted, marked as replays and paced, under each policy; an unknown policy is auto. */
  lemma DecisionMeans(t: Subtitle)
    ensures t.policy == SendAll ==> Decided(t) == Decision(true, t.delay > 1.0, 0.0)
    ensures t.policy == LiveOnly ==> Decided(t) == Decision(t.delay <= t.maxDelay, false, 0.0)
    ensures t.policy in {Auto, Unknown} ==>
              && (Decided(t).emit <==> t.delay <= t.maxDelay)
              && (Decided(t).isReplay <==> 1.0 < t.delay <= t.maxDelay)
              && Decided(t).interval == if 1.0 < t.delay <= t.maxDelay then t.interval else 0.0
  {
  }

  predicate NeverPaced(t: Subtitle) {
    t.policy in {LiveOnly, SendAll} || t.interval <= 0.0
  }

  lemma {:induction false} NoReplays(ts: seq<Subtitle>)
    requires forall t | t in ts :: NeverPaced(t)
    ensures forall m | m in Emitted(ts) :: !Paced(m)
  {
    if ts != [] {
      PacedIff(ts[0]);
      NoReplays(ts[1..]);
      assert NeverPaced(ts[0]);
    }
  }

  lemma {:induction false} AllLive(ms: seq<Msg>)
    requires forall m | m in ms :: !Paced(m)
    ensures Live(ms) == ms && Replays(ms) == []
  {
    hide Paced;
    if ms != [] {
      AllLive(ms[..|ms| - 1]);
      assert ms == ms[..|ms| - 1] + [ms[|ms| - 1]];
    }
  }

  lemma {:induction false} NoneReplayed(ms: seq<Msg>)
    requires Replays(ms) == []
    ensures Live(ms) == ms
  {
    if ms != [] {
      NoneReplayed(ms[..|ms| - 1]);
    }
  }

  lemma TakenFromEmitted(s: State, emitted: seq<Msg>, queue: seq<Item>)
    requires Consumed(s) + queue <= Items(emitted) + [Sentinel]
    ensures s.taken <= emitted && (s.stopped ==> s.taken == emitted)
  {
    var all := Items(emitted) + [Sentinel];
    forall i | 0 <= i < |s.taken|
      ensures i < |emitted| && s.taken[i] == emitted[i]
    {
      assert all[i] == (Consumed(s) + queue)[i] == Message(s.taken[i]);
    }
    if s.taken != [] {
      var last := s.taken[|s.taken| - 1];
    }
    if s.stopped {
      assert all[|s.taken|] == (Consumed(s) + queue)[|s.taken|] == Sentinel;
    }
  }

  lemma WithoutReplays(s: State)
    requires Inv(s) && (forall m | m in s.taken :: !Paced(m))
    ensures s.replayDrops == 0 && s.retryDrops == 0 && s.replay == [] && Msgs(s.wire) + s.retry == s.taken
    ensures s.stopped ==> Msgs(s.wire) == s.taken
  {
    hide Live, Replays, Msgs, Subsequence, Spaced, ReplayWire;
    AllLive(s.taken);
    NoneReplayed(Msgs(s.wire));
    assert Msgs(s.wire) + [] == Msgs(s.wire);
  }

  /**
   * Policy and poller together. When the settings keep every subtitle off the paced path, nothing that
   * entered the queue is ever dropped: the broadcasts, then what waits for room, are the emitted messages
   * taken so far in order, and all of them once the sentinel behind them has been read.
   */
  lemma NothingDropped(ts: seq<Subtitle>, turns: seq<Turn>)
    requires forall t | t in ts :: NeverPaced(t)
    requires Put(turns) <= Items(Emitted(ts)) + [Sentinel]
    ensures var s := Ran(turns).s;
      && s.replayDrops == 0 && s.retryDrops == 0 && s.replay == []
      && Msgs(s.wire) + s.retry <= Emitted(ts)
      && (s.stopped ==> Msgs(s.wire) == Emitted(ts))
  {
    hide Inv, Msgs, Ran, Emitted, Put, Consumed, Paced;
    RanKeeps(turns);
    NoReplays(ts);
    var s := Ran(turns).s;
    TakenFromEmitted(s, Emitted(ts), Ran(turns).queue);
    WithoutReplays(s);
  }

  // ------------------------------------------------------------------ the polling loop

  lemma DrainHead(s: State, items: seq<Item>, k: nat, checks: nat, room: nat -> bool, now: real)
    requires k < |items|
    ensures Drain(s, items, k, checks, room, now)
      == match items[k]
         case Sentinel => Progress(s.(stopped := true), k + 1, checks)
         case Message(m) =>
           if Paced(m) then Drain(TakeReplay(s, m), items, k + 1, checks, room, now)
           else if room(checks) then Drain(TakeAndSend(s, m, now), items, k + 1, checks + 1, room, now)
           else Progress(TakeAndKeep(s, m), k + 1, checks + 1)
  {
    hide TakeReplay, TakeAndSend, TakeAndKeep, Paced;
  }

  lemma DrainEnd(s: State, items: seq<Item>, checks: nat, room: nat -> bool, now: real)
    ensures Drain(s, items, |items|, checks, room, now) == Progress(s, |items|, checks)
  {
  }

  /** The loop's buffers, the queue it reads and the socket it writes to. */
  class QueuePoller {
    var replay: seq<Msg>
    var retry: seq<Msg>
    var nextReplayAt: real
    var replayDrops: nat
    var retryDrops: nat
    var stopped: bool
    var queue: seq<Item>
    var wire: seq<Sent>
    ghost var taken: seq<Msg>

    ghost function Snapshot(): State
      reads this
    {
      State(replay, retry, nextReplayAt, replayDrops, retryDrops, stopped, taken, wire)
    }

    constructor ()
      ensures Snapshot() == Start() && queue == []
    {
      replay, retry, nextReplayAt := [], [], 0.0;
      replayDrops, retryDrops, stopped := 0, 0, false;
      queue, wire, taken := [], [], [];
    }

    method Broadcast(m: Msg, now: real)
      modifies `wire
      ensures wire == old(wire) + [Sent(m, now)]
    {
      wire := wire + [Sent(m, now)];
    }

    method FlushRetryBuffer(room: nat -> bool, now: real) returns (done: bool, checks: nat)
      modifies this
      ensures Progress(Snapshot(), 0, checks) == Flush(old(Snapshot()), 0, room, now)
      ensures queue == old(queue) && done == (retry == [])
    {
      checks := 0;
      while retry != []
        invariant queue == old(queue)
        invariant Flush(Snapshot(), checks, room, now) == Flush(old(Snapshot()), 0, room, now)
        decreases |retry|
      {
        checks := checks + 1;
        if !room(checks - 1) {
          return false, checks;
        }
        var m := retry[0];
        retry := retry[1..];
        Broadcast(m, now);
      }
      done := true;
    }

    /** Buffers a replay for the paced path, dropping the oldest one when the buffer is full. */
    method BufferReplay(m: Msg)
      modifies `replay, `replayDrops
      ensures replay == Bounded(old(replay), m, REPLAY_BUFFER_MAX)
      ensures replayDrops == old(replayDrops) + Dropped(old(replay), REPLAY_BUFFER_MAX)
    {
      if |replay| >= REPLAY_BUFFER_MAX {
        replay := replay[1..];
        replayDrops := replayDrops + 1;
      }
      replay := replay + [m];
    }

    /** Keeps a live message for the next flush, dropping the oldest one when the buffer is full. */
    method BufferRetry(m: Msg)
      modifies `retry, `retryDrops
      ensures retry == Bounded(old(retry), m, MAX_RETRY_BUFFER)
      ensures retryDrops == old(retryDrops) + Dropped(old(retry), MAX_RETRY_BUFFER)
    {
      if |retry| >= MAX_RETRY_BUFFER {
        retry := retry[1..];
        retryDrops := retryDrops + 1;
      }
      retry := retry + [m];
    }

    method DrainQueue(room: nat -> bool, now: real, flushChecks: nat) returns (checks: nat)
      modifies this
      ensures var p := Drain(old(Snapshot()), old(queue), 0, flushChecks, room, now);
        Snapshot() == p.s && checks == p.checks && p.k <= |old(queue)| && queue == old(queue)[p.k..]
    {
      hide Drain, Paced;
      checks := flushChecks;
      ghost var k := 0;
      ghost var goal := Drain(Snapshot(), queue, 0, checks, room, now);
      while queue != []
        invariant k <= |old(queue)| && queue == old(queue)[k..]
        invariant Drain(Snapshot(), old(queue), k, checks, room, now) == goal
        decreases |queue|
      {
        var item := queue[0];
        assert item == old(queue)[k];
        DrainHead(Snapshot(), old(queue), k, checks, room, now);
        queue := queue[1..];
        k := k + 1;
        if item.Sentinel? {
          stopped := true;
          return;
        }
        var m := item.msg;
        taken := taken + [m];
        if Paced(m) {
          BufferReplay(m);
        } else {
          checks := checks + 1;
          if !room(checks - 1) {
            BufferRetry(m);
            return;
          }
          Broadcast(m, now);
        }
      }
      DrainEnd(Snapshot(), old(queue), checks, room, now);
    }

    /** Sends the oldest buffered replay when it is due and there is room, or postpones it. */
    method ReplayDue(room: bool, now: real)
      modifies this
      ensures Snapshot() == ReplayStep(old(Snapshot()), room, now) && queue == old(queue)
    {
      if replay != [] && now >= nextReplayAt {
        if room {
          var m := replay[0];
          replay := replay[1..];
          Broadcast(m, now);
          nextReplayAt := now + Max0(m.interval);
        } else {
          nextReplayAt := now + 0.5;
        }
      }
    }

    /** One pass of the loop over what the queue holds. */
    method Pass(room: nat -> bool, now: real)
      modifies this
      ensures var p := Tick(old(Snapshot()), old(queue), room, now);
        Snapshot() == p.s && p.k <= |old(queue)| && queue == old(queue)[p.k..]
    {
      var done, checks := FlushRetryBuffer(room, now);
      if done {
        checks := DrainQueue(room, now, checks);
        if !stopped {
          ReplayDue(room(checks), now);
        }
      }
    }

    /** The loop, until the sentinel has been read or the turns given by the outside are over. */
    method Poll(turns: seq<Turn>)
      modifies this
      ensures Channel(Snapshot(), queue) == After(old(Channel(Snapshot(), queue)), turns)
    {
      hide Tick;
      ghost var goal := After(Channel(Snapshot(), queue), turns);
      var i := 0;
      while i < |turns|
        invariant 0 <= i <= |turns|
        invariant After(Channel(Snapshot(), queue), turns[i..]) == goal
      {
        queue := queue + turns[i].arrivals;
        assert turns[i..][1..] == turns[i + 1..];
        if !stopped {
          Pass(turns[i].room, turns[i].now);
        }
        i := i + 1;
      }
    }
  }
}
