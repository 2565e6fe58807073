// crates/liveaudio-audio/src/resilient.rs: the supervisor that keeps one downstream receiver alive while
// capture devices come and go. Times are whole milliseconds.
module Resilient {
  import opened Audio

  const RECONNECT_DELAY: nat := 3000
  const STANDBY_POLL: nat := 1000
  const WATCHDOG_GRACE: nat := 3000
  const WATCHDOG_LIMIT: nat := 5000

  datatype Status = Initializing | Capturing | Standby | Reconnecting | Stopped

  /** What the supervisor did, in order, each with its time. */
  datatype Action =
    | Probed(at: nat, count: nat)     // input_device_count()
    | Calling(at: nat)                // source.start() is called
    | Started(at: nat)                // ... and succeeded
    | StartFailed(at: nat)            // ... and failed
    | SourceStopped(at: nat)          // source.stop()
    | Lost(at: nat, present: bool)    // after_loss, and whether it saw a device (loopback needs none)
    | Published(at: nat, status: Status)

  datatype StartResult = Opened(took: nat) | Failed(took: nat, recoverable: bool)

  datatype SendResult = Accepted | Full | Closed

  /** What one await of the supervisor returns, dt after the previous one. Probes are the answers to its questions. */
  datatype Input =
    | Stop(dt: nat)
    | DownstreamClosed(dt: nat)
    | Elapsed(dt: nat, probe: nat, start: StartResult, reprobe: nat)
    | Received(dt: nat, chunk: Option<int>, captureFailed: bool, send: SendResult, reprobe: nat)
    | Tick(dt: nat, reprobe: nat)

  datatype Phase = Waiting(until: nat) | Open(since: nat, lastChunk: nat) | Done

  datatype State = State(
    now: nat, phase: Phase, status: Status, log: seq<Action>, delivered: seq<int>)

  function Init(): State {
    State(0, Waiting(0), Initializing, [], [])
  }

  function Note(s: State, a: Action): State {
    s.(log := s.log + [a])
  }

  function Publish(s: State, status: Status): State {
    Note(s, Published(s.now, status)).(status := status)
  }

  /** input_device_missing: loopback never asks. */
  function Probe(s: State, loopback: bool, count: nat): State {
    if loopback then s else Note(s, Probed(s.now, count))
  }

  predicate Missing(loopback: bool, count: nat) {
    !loopback && count == 0
  }

  function AfterLoss(s: State, loopback: bool, count: nat): State {
    var p := Note(Probe(s, loopback, count), Lost(s.now, !Missing(loopback, count)));
    if Missing(loopback, count) then Publish(p, Standby).(phase := Waiting(s.now + STANDBY_POLL))
    else Publish(p, Reconnecting).(phase := Waiting(s.now + RECONNECT_DELAY))
  }

  function Attempt(s: State, loopback: bool, count: nat, start: StartResult, reprobe: nat): State {
    var p := Probe(s, loopback, count);
    if Missing(loopback, count) then Publish(p, Standby).(phase := Waiting(s.now + STANDBY_POLL))
    else
      var t := Note(p, Calling(p.now)).(now := p.now + start.took);
      match start
      case Opened(_) => Publish(Note(t, Started(t.now)), Capturing).(phase := Open(t.now, t.now))
      case Failed(_, _) => AfterLoss(Note(t, StartFailed(t.now)), loopback, reprobe)
  }

  /** ResilientCapture::start. Only an error no retry can fix is returned. */
  function Begin(loopback: bool, count: nat, start: StartResult, reprobe: nat): Option<State> {
    if !Missing(loopback, count) && start.Failed? && !start.recoverable then None
    else Some(Attempt(Init(), loopback, count, start, reprobe))
  }

  function Finish(s: State): State {
    Publish(s, Stopped).(phase := Done)
  }

  /** The stream ends, either because capture is over or because it was lost. */
  function CloseSource(s: State): State {
    Note(s, SourceStopped(s.now))
  }

  function Lose(s: State, loopback: bool, reprobe: nat): State {
    AfterLoss(CloseSource(s), loopback, reprobe)
  }

  predicate Stalled(s: State)
    requires s.phase.Open?
  {
    s.now - s.phase.since > WATCHDOG_GRACE && s.now - s.phase.lastChunk > WATCHDOG_LIMIT
  }

  /** A chunk, or the end of the stream, comes in while capturing. */
  function Receive(s: State, e: Input, loopback: bool): State
    requires s.phase.Open? && e.Received?
  {
    match e.chunk
    case None => Lose(s, loopback, e.reprobe)
    case Some(c) =>
      if e.captureFailed then Lose(s, loopback, e.reprobe)
      else if e.send == Closed then Finish(CloseSource(s))
      else
        s.(phase := Open(s.phase.since, s.now),
           delivered := if e.send == Accepted then s.delivered + [c] else s.delivered)
  }

  /** One await. An input that the current phase does not wait for only lets time pass. */
  function Step(s0: State, e: Input, loopback: bool): State {
    var s := s0.(now := s0.now + e.dt);
    match s.phase
    case Done => s0
    case Waiting(until) =>
      (match e
       case Stop(_) => Finish(s)
       case DownstreamClosed(_) => Finish(s)
       case Elapsed(_, probe, start, reprobe) =>
         Attempt(s.(now := if s.now < until then until else s.now), loopback, probe, start, reprobe)
       case _ => s)
    case Open(_, _) =>
      (match e
       case Stop(_) => Finish(CloseSource(s))
       case Received(_, _, _, _, _) => Receive(s, e, loopback)
       case Tick(_, reprobe) => if !loopback && Stalled(s) then Lose(s, loopback, reprobe) else s
       case _ => s)
  }

  function Run(s: State, es: seq<Input>, loopback: bool): State
    decreases |es|
  {
    if es == [] then s else Run(Step(s, es[0], loopback), es[1..], loopback)
  }

  // ------------------------------------------------------------------ what a log must satisfy

  /** Whether a stream is open after the log. */
  predicate IsOpen(log: seq<Action>) {
    log != [] && (log[|log| - 1].Started? || (!log[|log| - 1].SourceStopped? && IsOpen(log[..|log| - 1])))
  }

  /** Whether the log ends with the final status. */
  predicate Ended(log: seq<Action>) {
    log != [] && log[|log| - 1].Published? && log[|log| - 1].status == Stopped
  }

  /** The last action is a probe that found a device, or found none. */
  predicate EndsWithProbe(log: seq<Action>, found: bool) {
    log != [] && log[|log| - 1].Probed? && (log[|log| - 1].count > 0) == found
  }

  predicate EndsWithLoss(log: seq<Action>, present: bool) {
    log != [] && log[|log| - 1].Lost? && log[|log| - 1].present == present
  }

  /** When the wait that the last status announced is over. */
  predicate WaitsUntil(log: seq<Action>, until: nat) {
    if log == [] then until == 0
    else
      var last := log[|log| - 1];
      last.Published?
      && ((last.status == Standby && until == last.at + 1000)
          || (last.status == Reconnecting && until == last.at + 3000))
  }

  /** When the next action is allowed to be a, after the log. */
  ghost predicate Allowed(log: seq<Action>, a: Action, loopback: bool) {
    && !Ended(log)
    && (a.Started? ==> !IsOpen(log))
    && (a.SourceStopped? ==> IsOpen(log))
    && (a.Published? ==> (a.status == Capturing <==> IsOpen(log)))
    && (a.Calling? && !loopback ==> log != [] && log[|log| - 1].Probed? && log[|log| - 1].count > 0)
    && (a.Calling? ==> Rested(log, a.at))
    && (a.Probed? ==> !loopback)
    && (a.Lost? ==> if loopback then a.present else EndsWithProbe(log, a.present))
    && (a.Published? ==> a.status != Initializing)
    && (a.Published? && a.status == Standby ==> !loopback && (EndsWithProbe(log, false) || EndsWithLoss(log, false)))
    && (a.Published? && a.status == Reconnecting ==> EndsWithLoss(log, true))
    && (a.Started? || a.StartFailed? ==> log != [] && log[|log| - 1].Calling? && log[|log| - 1].at <= a.at)
  }

  /** Calling start() at a time is far enough from all earlier failures and losses. */
  ghost predicate Rested(log: seq<Action>, at: nat) {
    forall i | 0 <= i < |log| :: Far(log[i], at)
  }

  predicate Far(a: Action, at: nat) {
    match a
    case StartFailed(t) => at >= t + STANDBY_POLL
    case SourceStopped(t) => at >= t + STANDBY_POLL
    case Lost(t, present) => at >= t + if present then RECONNECT_DELAY else STANDBY_POLL
    case _ => true
  }

  /** Every action of the log was allowed where it was taken. */
  ghost predicate Proper(log: seq<Action>, loopback: bool) {
    log == [] || (Proper(log[..|log| - 1], loopback) && Allowed(log[..|log| - 1], log[|log| - 1], loopback))
  }

  ghost predicate Inv(s: State, loopback: bool) {
    && Proper(s.log, loopback)
    && IsOpen(s.log) == s.phase.Open? == (s.status == Capturing)
    && (s.phase.Waiting? ==> Rested(s.log, s.phase.until) && WaitsUntil(s.log, s.phase.until))
    && (s.phase == Done) == (s.status == Stopped) == Ended(s.log)
    && (s.phase.Open? ==> Rested(s.log, s.phase.since) && s.phase.since <= s.phase.lastChunk <= s.now)
  }

  lemma Grown(log: seq<Action>, a: Action)
    ensures IsOpen(log + [a]) == (a.Started? || (!a.SourceStopped? && IsOpen(log)))
    ensures (log + [a])[..|log + [a]| - 1] == log && (log + [a])[|log + [a]| - 1] == a
  {
    assert (log + [a])[..|log + [a]| - 1] == log;
  }

  /** Adding an action that is allowed. */
  lemma NoteKeeps(s: State, a: Action, loopback: bool)
    requires Proper(s.log, loopback) && Allowed(s.log, a, loopback)
    ensures Proper(Note(s, a).log, loopback)
    ensures IsOpen(Note(s, a).log) == (a.Started? || (!a.SourceStopped? && IsOpen(s.log)))
    ensures forall t | Rested(s.log, t) && Far(a, t) :: Rested(Note(s, a).log, t)
    ensures Ended(Note(s, a).log) == (a.Published? && a.status == Stopped)
  {
    hide IsOpen;
    Grown(s.log, a);
    assert Proper(s.log + [a], loopback);
  }

  lemma RestedLater(log: seq<Action>, t: nat, u: nat)
    requires Rested(log, t) && t <= u
    ensures Rested(log, u)
  {
    forall i | 0 <= i < |log|
      ensures Far(log[i], u)
    {
      assert Far(log[i], t);
    }
  }

  // ------------------------------------------------------------------ every step keeps it

  /** With the stream closed, after_loss leads to a wait that is long enough. */
  lemma AfterLossKeeps(s: State, loopback: bool, count: nat)
    requires Proper(s.log, loopback) && !IsOpen(s.log) && !Ended(s.log) && Rested(s.log, s.now + STANDBY_POLL)
    ensures Inv(AfterLoss(s, loopback, count), loopback)
  {
    hide Proper, IsOpen, Rested;
    var p := Probe(s, loopback, count);
    if !loopback {
      NoteKeeps(s, Probed(s.now, count), loopback);
    }
    var missing := Missing(loopback, count);
    var q := Note(p, Lost(s.now, !missing));
    var until := s.now + if missing then STANDBY_POLL else RECONNECT_DELAY;
    RestedLater(s.log, s.now + STANDBY_POLL, until);
    NoteKeeps(p, Lost(s.now, !missing), loopback);
    NoteKeeps(q, Published(s.now, if missing then Standby else Reconnecting), loopback);
  }

  /** start() is called, and the time it takes passes. */
  function Called(s: State, took: nat): State {
    Note(s, Calling(s.now)).(now := s.now + took)
  }

  lemma CalledKeeps(s: State, loopback: bool, took: nat)
    requires Proper(s.log, loopback) && !IsOpen(s.log) && !Ended(s.log) && Rested(s.log, s.now)
    requires loopback || EndsWithProbe(s.log, true)
    ensures var t := Called(s, took);
      && Proper(t.log, loopback) && !IsOpen(t.log) && !Ended(t.log) && Rested(t.log, t.now)
      && t.log[|t.log| - 1] == Calling(s.now)
  {
    hide Proper, IsOpen, Rested;
    NoteKeeps(s, Calling(s.now), loopback);
    RestedLater(Note(s, Calling(s.now)).log, s.now, s.now + took);
  }

  lemma OpenedKeeps(s: State, loopback: bool)
    requires Proper(s.log, loopback) && !IsOpen(s.log) && !Ended(s.log) && Rested(s.log, s.now)
    requires s.log != [] && s.log[|s.log| - 1].Calling? && s.log[|s.log| - 1].at <= s.now
    ensures Inv(Publish(Note(s, Started(s.now)), Capturing).(phase := Open(s.now, s.now)), loopback)
  {
    hide Proper, IsOpen, Rested;
    NoteKeeps(s, Started(s.now), loopback);
    NoteKeeps(Note(s, Started(s.now)), Published(s.now, Capturing), loopback);
  }

  lemma FailedKeeps(s: State, loopback: bool, reprobe: nat)
    requires Proper(s.log, loopback) && !IsOpen(s.log) && !Ended(s.log) && Rested(s.log, s.now)
    requires s.log != [] && s.log[|s.log| - 1].Calling? && s.log[|s.log| - 1].at <= s.now
    ensures Inv(AfterLoss(Note(s, StartFailed(s.now)), loopback, reprobe), loopback)
  {
    hide Proper, IsOpen, Rested, AfterLoss;
    RestedLater(s.log, s.now, s.now + STANDBY_POLL);
    NoteKeeps(s, StartFailed(s.now), loopback);
    AfterLossKeeps(Note(s, StartFailed(s.now)), loopback, reprobe);
  }

  lemma MissingKeeps(s: State, loopback: bool)
    requires Proper(s.log, loopback) && !IsOpen(s.log) && !Ended(s.log) && Rested(s.log, s.now)
    requires !loopback && EndsWithProbe(s.log, false)
    ensures Inv(Publish(s, Standby).(phase := Waiting(s.now + STANDBY_POLL)), loopback)
  {
    hide Proper, IsOpen, Rested;
    RestedLater(s.log, s.now, s.now + STANDBY_POLL);
    NoteKeeps(s, Published(s.now, Standby), loopback);
  }

  lemma ProbeKeeps(s: State, loopback: bool, count: nat)
    requires Proper(s.log, loopback) && !IsOpen(s.log) && !Ended(s.log) && Rested(s.log, s.now)
    ensures var p := Probe(s, loopback, count);
      && Proper(p.log, loopback) && !IsOpen(p.log) && !Ended(p.log) && Rested(p.log, p.now) && p.now == s.now
      && (!loopback ==> EndsWithProbe(p.log, count > 0))
  {
    hide Proper, IsOpen, Rested;
    if !loopback {
      NoteKeeps(s, Probed(s.now, count), loopback);
    }
  }

  /** An attempt made while the stream is closed and enough time has passed. */
  lemma AttemptKeeps(s: State, loopback: bool, count: nat, start: StartResult, reprobe: nat)
    requires Proper(s.log, loopback) && !IsOpen(s.log) && !Ended(s.log) && Rested(s.log, s.now)
    ensures Inv(Attempt(s, loopback, count, start, reprobe), loopback)
  {
    hide Proper, IsOpen, Rested, AfterLoss, Ended, EndsWithProbe, Inv, Probe, Publish;
    var p := Probe(s, loopback, count);
    ProbeKeeps(s, loopback, count);
    if Missing(loopback, count) {
      MissingKeeps(p, loopback);
    } else {
      CalledKeeps(p, loopback, start.took);
      var t := Called(p, start.took);
      match start
      case Opened(_) => OpenedKeeps(t, loopback);
      case Failed(_, _) => FailedKeeps(t, loopback, reprobe);
    }
  }

  lemma FinishKeeps(s: State, loopback: bool)
    requires Proper(s.log, loopback) && !IsOpen(s.log) && !Ended(s.log)
    ensures Inv(Finish(s), loopback)
  {
    hide Proper, IsOpen, Rested;
    NoteKeeps(s, Published(s.now, Stopped), loopback);
  }

  /** While capturing, at any time since the stream was opened. */
  lemma CloseSourceKeeps(s: State, loopback: bool)
    requires Proper(s.log, loopback) && IsOpen(s.log) && !Ended(s.log)
    requires s.phase.Open? && Rested(s.log, s.phase.since) && s.phase.since <= s.now
    ensures var t := CloseSource(s);
      Proper(t.log, loopback) && !IsOpen(t.log) && !Ended(t.log) && Rested(t.log, s.now + STANDBY_POLL)
  {
    hide Proper, IsOpen, Rested;
    RestedLater(s.log, s.phase.since, s.now + STANDBY_POLL);
    NoteKeeps(s, SourceStopped(s.now), loopback);
  }

  lemma LoseKeeps(s: State, loopback: bool, reprobe: nat)
    requires Inv(s, loopback) && s.phase.Open?
    ensures Inv(Lose(s, loopback, reprobe), loopback)
  {
    hide Proper, IsOpen, Rested, AfterLoss;
    CloseSourceKeeps(s, loopback);
    AfterLossKeeps(CloseSource(s), loopback, reprobe);
  }

  lemma FinishClosed(s: State, loopback: bool)
    requires Inv(s, loopback) && s.phase.Open?
    ensures Inv(Finish(CloseSource(s)), loopback)
  {
    hide Proper, IsOpen, Rested, Finish;
    CloseSourceKeeps(s, loopback);
    FinishKeeps(CloseSource(s), loopback);
  }

  lemma ReceiveKeeps(s: State, e: Input, loopback: bool)
    requires Inv(s, loopback) && s.phase.Open? && e.Received?
    ensures Inv(Receive(s, e, loopback), loopback)
  {
    hide Proper, IsOpen, Rested, Lose, Finish, CloseSource;
    LoseKeeps(s, loopback, e.reprobe);
    FinishClosed(s, loopback);
  }

  lemma StepKeeps(s: State, e: Input, loopback: bool)
    requires Inv(s, loopback)
    ensures Inv(Step(s, e, loopback), loopback)
  {
    hide Proper, IsOpen, Rested, AfterLoss, Finish, Receive, Attempt, CloseSource;
    var t := s.(now := s.now + e.dt);
    match s.phase
    case Done =>
    case Waiting(until) =>
      FinishKeeps(t, loopback);
      if e.Elapsed? {
        var u := t.(now := if t.now < until then until else t.now);
        RestedLater(s.log, until, u.now);
        AttemptKeeps(u, loopback, e.probe, e.start, e.reprobe);
      }
    case Open(_, _) =>
      CloseSourceKeeps(t, loopback);
      if e.Stop? {
        FinishClosed(t, loopback);
      } else if e.Received? {
        ReceiveKeeps(t, e, loopback);
      } else if e.Tick? {
        LoseKeeps(t, loopback, e.reprobe);
      }
  }

  lemma {:induction false} RunKeeps(s: State, es: seq<Input>, loopback: bool)
    requires Inv(s, loopback)
    ensures Inv(Run(s, es, loopback), loopback)
    decreases |es|
  {
    hide Inv, Step;
    if es != [] {
      StepKeeps(s, es[0], loopback);
      RunKeeps(Step(s, es[0], loopback), es[1..], loopback);
    }
  }

  // ------------------------------------------------------------------ the theorems

  lemma {:induction false} ProperAt(log: seq<Action>, n: nat, loopback: bool)
    requires Proper(log, loopback) && n < |log|
    ensures Proper(log[..n], loopback) && Allowed(log[..n], log[n], loopback)
  {
    hide Allowed;
    var m := |log| - 1;
    if n < m {
      ProperAt(log[..m], n, loopback);
      assert log[..m][..n] == log[..n];
    }
  }

  /** How many streams have been opened, and how many closed. */
  function Starts(log: seq<Action>): nat {
    if log == [] then 0 else Starts(log[..|log| - 1]) + if log[|log| - 1].Started? then 1 else 0
  }

  function Stops(log: seq<Action>): nat {
    if log == [] then 0 else Stops(log[..|log| - 1]) + if log[|log| - 1].SourceStopped? then 1 else 0
  }

  lemma {:induction false} StartsAndStops(log: seq<Action>, loopback: bool)
    requires Proper(log, loopback)
    ensures Starts(log) == Stops(log) + if IsOpen(log) then 1 else 0
  {
    hide Rested;
    if log != [] {
      StartsAndStops(log[..|log| - 1], loopback);
    }
  }

  /** A run of the supervisor from a start that succeeded or can be retried. */
  ghost predicate RunOf(s: State, loopback: bool) {
    exists count: nat, start: StartResult, reprobe: nat, es: seq<Input> ::
      Begin(loopback, count, start, reprobe).Some?
      && Run(Begin(loopback, count, start, reprobe).value, es, loopback) == s
  }

  lemma RunInv(s: State, loopback: bool)
    requires RunOf(s, loopback)
    ensures Inv(s, loopback)
  {
    hide Inv, Run, Attempt;
    var count: nat, start: StartResult, reprobe: nat, es: seq<Input> :|
      Begin(loopback, count, start, reprobe).Some?
      && Run(Begin(loopback, count, start, reprobe).value, es, loopback) == s;
    AttemptKeeps(Init(), loopback, count, start, reprobe);
    RunKeeps(Begin(loopback, count, start, reprobe).value, es, loopback);
  }

  /** At every moment of every run, openings and closings of the source alternate. */
  lemma Alternation(s: State, loopback: bool, n: nat)
    requires RunOf(s, loopback) && n <= |s.log|
    ensures Stops(s.log[..n]) <= Starts(s.log[..n]) <= Stops(s.log[..n]) + 1
  {
    hide RunOf, Proper, Allowed, IsOpen;
    RunInv(s, loopback);
    if n < |s.log| {
      ProperAt(s.log, n, loopback);
    } else {
      assert s.log[..n] == s.log;
    }
    StartsAndStops(s.log[..n], loopback);
  }

  /** The source is only asked to start right after a probe that found a device, unless it is loopback. */
  lemma StartsOnlyWithDevice(s: State, loopback: bool, i: nat)
    requires RunOf(s, loopback) && !loopback && i < |s.log| && s.log[i].Calling?
    ensures i > 0 && s.log[i - 1].Probed? && s.log[i - 1].count > 0
  {
    hide RunOf, Proper, IsOpen, Rested;
    RunInv(s, loopback);
    ProperAt(s.log, i, loopback);
  }

  /**
   * After every failed start and every closed stream the next call of start() is at least 1 s away, and
   * at least 3 s if the supervisor then saw a device.
   */
  lemma StartsArePaced(s: State, loopback: bool, i: nat, j: nat)
    requires RunOf(s, loopback) && i < j < |s.log| && s.log[j].Calling?
    ensures s.log[i].StartFailed? || s.log[i].SourceStopped? ==> s.log[j].at >= s.log[i].at + 1000
    ensures s.log[i].Lost? && s.log[i].present ==> s.log[j].at >= s.log[i].at + 3000
  {
    hide RunOf, Proper, IsOpen;
    RunInv(s, loopback);
    ProperAt(s.log, j, loopback);
    assert Far(s.log[..j][i], s.log[j].at);
  }

  /** The published status says Capturing exactly while a stream is open, and Stopped is the last word. */
  lemma HonestStatus(s: State, loopback: bool, i: nat)
    requires RunOf(s, loopback) && i < |s.log| && s.log[i].Published?
    ensures s.log[i].status == Capturing <==> IsOpen(s.log[..i])
    ensures s.log[i].status == Stopped ==> i == |s.log| - 1 && s.phase == Done
  {
    hide RunOf, Proper, IsOpen, Rested;
    RunInv(s, loopback);
    ProperAt(s.log, i, loopback);
    if i < |s.log| - 1 {
      ProperAt(s.log, i + 1, loopback);
      assert s.log[..i + 1][|s.log[..i + 1]| - 1] == s.log[i];
    }
  }

  /** Standby means that the last probe found no device, Reconnecting that it found one, or that none is needed. */
  lemma StatusMeans(s: State, loopback: bool, i: nat)
    requires RunOf(s, loopback) && i < |s.log| && s.log[i].Published? && s.log[i].status in {Standby, Reconnecting}
    ensures s.log[i].status == Standby ==>
              !loopback && (EndsWithProbe(s.log[..i], false) || EndsWithLoss(s.log[..i], false))
    ensures s.log[i].status == Reconnecting ==> EndsWithLoss(s.log[..i], true)
  {
    hide RunOf, Proper, IsOpen, Rested, EndsWithProbe, EndsWithLoss;
    RunInv(s, loopback);
    ProperAt(s.log, i, loopback);
  }

  /** A loss is marked as having a device by the probe made right before; loopback always has one. */
  lemma LossMeans(s: State, loopback: bool, i: nat)
    requires RunOf(s, loopback) && i < |s.log| && s.log[i].Lost?
    ensures if loopback then s.log[i].present else EndsWithProbe(s.log[..i], s.log[i].present)
  {
    hide RunOf, Proper, IsOpen, Rested, EndsWithProbe;
    RunInv(s, loopback);
    ProperAt(s.log, i, loopback);
  }

  /** When a wait runs out: 1 s after Standby was published, 3 s after Reconnecting, or later if the clock says so. */
  function WaitOver(s: State, dt: nat): nat {
    var last := if s.log == [] then Published(0, Initializing) else s.log[|s.log| - 1];
    var until := if !last.Published? then 0
                 else if last.status == Standby then last.at + 1000
                 else if last.status == Reconnecting then last.at + 3000 else 0;
    if s.now + dt < until then until else s.now + dt
  }

  /** When the wait runs out the supervisor asks for a device, and if there is one calls start() at once. */
  lemma CallsWhenDue(s: State, e: Input, loopback: bool)
    requires Inv(s, loopback) && s.phase.Waiting? && e.Elapsed?
    ensures var t, n, at := Step(s, e, loopback), |s.log|, WaitOver(s, e.dt);
      && n < |t.log| && t.log[..n] == s.log
      && (!loopback ==> t.log[n] == Probed(at, e.probe))
      && (loopback ==> t.log[n] == Calling(at))
      && (!loopback && e.probe > 0 ==> n + 1 < |t.log| && t.log[n + 1] == Calling(at))
  {
    hide Proper, IsOpen, Rested, AfterLoss, Attempt;
    var t := s.(now := WaitOver(s, e.dt));
    AttemptLogs(t, loopback, e.probe, e.start, e.reprobe);
    assert Step(s, e, loopback) == Attempt(t, loopback, e.probe, e.start, e.reprobe);
  }

  lemma AfterLossLogs(s: State, loopback: bool, count: nat)
    ensures |AfterLoss(s, loopback, count).log| >= |s.log| && AfterLoss(s, loopback, count).log[..|s.log|] == s.log
  {
  }

  lemma AttemptLogs(s: State, loopback: bool, count: nat, start: StartResult, reprobe: nat)
    ensures var t, n := Attempt(s, loopback, count, start, reprobe), |s.log|;
      && n < |t.log| && t.log[..n] == s.log
      && (!loopback ==> t.log[n] == Probed(s.now, count))
      && (loopback ==> t.log[n] == Calling(s.now))
      && (!loopback && count > 0 ==> n + 1 < |t.log| && t.log[n + 1] == Calling(s.now))
  {
    hide AfterLoss;
    var c := Called(Probe(s, loopback, count), start.took);
    var failed := Note(c, StartFailed(c.now));
    AfterLossLogs(failed, loopback, reprobe);
    assert failed.log[..|s.log|] == s.log;
    var t := Attempt(s, loopback, count, start, reprobe);
    if !Missing(loopback, count) && start.Failed? {
      assert t.log[..|failed.log|] == failed.log;
      assert t.log[..|s.log|] == failed.log[..|s.log|];
    }
  }

  /** What ends an open stream: being asked to stop, its end or failure, a closed receiver, or a stall. */
  predicate Ends(s: State, e: Input, loopback: bool)
    requires s.phase.Open?
  {
    match e
    case Stop(_) => true
    case Received(_, chunk, captureFailed, send, _) => chunk == None || captureFailed || send == Closed
    case Tick(dt, _) =>
      !loopback && s.now + dt - s.phase.since > 3000 && s.now + dt - s.phase.lastChunk > 5000
    case _ => false
  }

  /** A stream is closed for one of these reasons and for no other, and then at once. */
  lemma StreamEndsIff(s: State, e: Input, loopback: bool)
    requires s.phase.Open?
    ensures var t := Step(s, e, loopback);
      && (t.phase.Open? <==> !Ends(s, e, loopback))
      && (Ends(s, e, loopback) ==> |t.log| > |s.log| && t.log[|s.log|] == SourceStopped(s.now + e.dt))
      && (!Ends(s, e, loopback) ==>
            && t.log == s.log && t.phase.since == s.phase.since
            && t.phase.lastChunk == if e.Received? then s.now + e.dt else s.phase.lastChunk)
  {
  }

  /** A run is over exactly when it is asked to stop, or finds its receiver closed where it looks. */
  lemma DoneIff(s: State, e: Input, loopback: bool)
    requires s.phase != Done
    ensures Step(s, e, loopback).phase == Done
      <==> || e.Stop?
           || (s.phase.Waiting? && e.DownstreamClosed?)
           || (s.phase.Open? && e.Received? && e.chunk.Some? && !e.captureFailed && e.send == Closed)
  {
  }

  /** The start of capture fails for good exactly on an error that no retry can heal, with a device there. */
  lemma BeginFailsIff(loopback: bool, count: nat, start: StartResult, reprobe: nat)
    ensures Begin(loopback, count, start, reprobe) == None
      <==> (loopback || count > 0) && start.Failed? && !start.recoverable
  {
  }

  /** Every start that returned was called right before, no later than it returned. */
  lemma ReturnsFollowCalls(s: State, loopback: bool, i: nat)
    requires RunOf(s, loopback) && i < |s.log| && (s.log[i].Started? || s.log[i].StartFailed?)
    ensures i > 0 && s.log[i - 1].Calling? && s.log[i - 1].at <= s.log[i].at
  {
    hide RunOf, Proper, IsOpen, Rested;
    RunInv(s, loopback);
    ProperAt(s.log, i, loopback);
  }

  /** What an input adds downstream: a chunk read from an open stream that has not failed, if it is accepted. */
  function Passes(s: State, e: Input): seq<int> {
    if s.phase.Open? && e.Received? && e.chunk.Some? && !e.captureFailed && e.send == Accepted then [e.chunk.value]
    else []
  }

  /** The chunks of a run's inputs that are accepted while a stream is open, in the order of the inputs. */
  function Passing(s: State, es: seq<Input>, loopback: bool): seq<int>
    decreases |es|
  {
    if es == [] then [] else Passes(s, es[0]) + Passing(Step(s, es[0], loopback), es[1..], loopback)
  }

  lemma StepDelivers(s: State, e: Input, loopback: bool)
    ensures Step(s, e, loopback).delivered == s.delivered + Passes(s, e)
  {
    hide Stalled;
    assert s.delivered + [] == s.delivered;
  }

  /**
   * Whatever happens to the streams, downstream gets exactly the chunks accepted from them, in the order
   * in which they were read, across all reconnects.
   */
  lemma {:induction false} DeliveredInOrder(s: State, es: seq<Input>, loopback: bool)
    ensures Run(s, es, loopback).delivered == s.delivered + Passing(s, es, loopback)
    decreases |es|
  {
    hide Step, Passes;
    if es != [] {
      StepDelivers(s, es[0], loopback);
      DeliveredInOrder(Step(s, es[0], loopback), es[1..], loopback);
    }
  }

  const WATCHDOG_TICK: nat := 500

  /** The time since the watchdog last looked at the open stream, after one more input. */
  function Unwatched(s: State, e: Input, idle: nat): nat {
    if s.phase.Open? && !e.Tick? then idle + e.dt else 0
  }

  /** While a stream is open, the watchdog looks at it at least every half second. */
  predicate Watched(s: State, es: seq<Input>, idle: nat)
    decreases |es|
  {
    es == []
    || ((s.phase.Open? ==> idle + es[0].dt <= WATCHDOG_TICK)
        && Watched(Step(s, es[0], false), es[1..], Unwatched(s, es[0], idle)))
  }

  ghost predicate Heeded(s: State, idle: nat) {
    s.phase.Open? ==> idle <= WATCHDOG_TICK && s.now - s.phase.lastChunk <= WATCHDOG_LIMIT + idle
  }

  lemma StepHeeded(s: State, e: Input, idle: nat)
    requires Inv(s, false) && Heeded(s, idle) && (s.phase.Open? ==> idle + e.dt <= WATCHDOG_TICK)
    ensures Heeded(Step(s, e, false), Unwatched(s, e, idle))
  {
    hide Proper, IsOpen, Rested;
  }

  lemma {:induction false} WatchedSilence(s: State, es: seq<Input>, idle: nat)
    requires Inv(s, false) && Heeded(s, idle) && Watched(s, es, idle)
    ensures var t := Run(s, es, false); t.phase.Open? ==> t.now - t.phase.lastChunk <= 5500
    decreases |es|
  {
    hide Inv, Step;
    if es != [] {
      StepKeeps(s, es[0], false);
      StepHeeded(s, es[0], idle);
      WatchedSilence(Step(s, es[0], false), es[1..], Unwatched(s, es[0], idle));
    }
  }

  /** A microphone stream that falls silent is given up: none stays open for more than 5.5 s without a chunk. */
  lemma SilenceBounded(count: nat, start: StartResult, reprobe: nat, es: seq<Input>)
    requires Begin(false, count, start, reprobe).Some? && Watched(Begin(false, count, start, reprobe).value, es, 0)
    ensures var t := Run(Begin(false, count, start, reprobe).value, es, false);
      t.phase.Open? ==> t.now - t.phase.lastChunk <= 5500
  {
    hide Run, Watched, Proper, IsOpen, Rested;
    RestedAtFirst();
    AttemptKeeps(Init(), false, count, start, reprobe);
    WatchedSilence(Begin(false, count, start, reprobe).value, es, 0);
  }

  lemma RestedAtFirst()
    ensures Proper([], false) && !IsOpen([]) && Rested([], 0)
  {
  }

  // ------------------------------------------------------------------ the supervisor

  /** How forwarding ended: asked to stop, lost the stream, or still going when the given inputs are over. */
  datatype Outcome = StopAsked | LossSeen(reprobe: nat) | StillOpen

  /** The phase before a loss or an attempt plays no part in what follows. */
  lemma PhaseForgotten(s: State, p: Phase, loopback: bool, count: nat, start: StartResult, reprobe: nat)
    ensures AfterLoss(s.(phase := p), loopback, count) == AfterLoss(s, loopback, count)
    ensures Attempt(s.(phase := p), loopback, count, start, reprobe) == Attempt(s, loopback, count, start, reprobe)
  {
  }

  lemma {:induction false} DoneStays(s: State, es: seq<Input>, loopback: bool)
    requires s.phase == Done
    ensures Run(s, es, loopback) == s
    decreases |es|
  {
    if es != [] {
      DoneStays(s, es[1..], loopback);
    }
  }

  lemma RunNothing(s: State, loopback: bool)
    ensures Run(s, [], loopback) == s
  {
  }

  lemma RunHead(s: State, es: seq<Input>, i: nat, loopback: bool)
    requires i < |es|
    ensures Run(s, es[i..], loopback) == Run(Step(s, es[i], loopback), es[i + 1..], loopback)
  {
    assert es[i..][1..] == es[i + 1..];
  }

  class Supervisor {
    const isLoopback: bool
    var now: nat
    var status: Status
    var log: seq<Action>
    var delivered: seq<int>

    /** The supervisor's state while its loop is in the given phase. */
    function In(phase: Phase): State
      reads this
    {
      State(now, phase, status, log, delivered)
    }

    constructor (isLoopback: bool)
      ensures this.isLoopback == isLoopback && In(Waiting(0)) == Init()
    {
      this.isLoopback := isLoopback;
      now, status, log, delivered := 0, Initializing, [], [];
    }

    method SetStatus(to: Status)
      modifies `status, `log
      ensures status == to && log == old(log) + [Published(now, to)]
    {
      status := to;
      log := log + [Published(now, to)];
    }

    method InputDeviceMissing(count: nat) returns (missing: bool)
      modifies `log
      ensures missing == Missing(isLoopback, count)
      ensures In(Done) == Probe(old(In(Done)), isLoopback, count)
    {
      if isLoopback {
        return false;
      }
      log := log + [Probed(now, count)];
      missing := count == 0;
    }

    method OnLoss(count: nat) returns (next: Phase)
      modifies `status, `log
      ensures In(next) == AfterLoss(old(In(Done)), isLoopback, count) && next.Waiting?
    {
      var missing := InputDeviceMissing(count);
      log := log + [Lost(now, !missing)];
      if missing {
        SetStatus(Standby);
        next := Waiting(now + STANDBY_POLL);
      } else {
        SetStatus(Reconnecting);
        next := Waiting(now + RECONNECT_DELAY);
      }
    }

    method TryStart(count: nat, start: StartResult, reprobe: nat) returns (next: Phase)
      modifies `now, `status, `log
      ensures In(next) == Attempt(old(In(Done)), isLoopback, count, start, reprobe)
      ensures next.Open? ==> next == Open(now, now)
    {
      var missing := InputDeviceMissing(count);
      if missing {
        SetStatus(Standby);
        return Waiting(now + STANDBY_POLL);
      }
      log := log + [Calling(now)];
      now := now + start.took;
      match start {
        case Opened(_) =>
          log := log + [Started(now)];
          SetStatus(Capturing);
          next := Open(now, now);
        case Failed(_, _) =>
          log := log + [StartFailed(now)];
          next := OnLoss(reprobe);
      }
    }

    /** Forwards chunks until it is asked to stop, loses the stream, or the inputs are over. */
    method Forward(es: seq<Input>, from: nat) returns (outcome: Outcome, i: nat, since: nat, lastChunk: nat)
      requires from <= |es|
      modifies `now, `delivered
      ensures from <= i <= |es| && since == old(now) && (outcome != StillOpen ==> i > from)
      ensures var s := In(Open(since, lastChunk));
        Run(old(In(Open(now, now))), es[from..], isLoopback) ==
          match outcome
          case StillOpen => s
          case StopAsked => Run(Finish(CloseSource(s)), es[i..], isLoopback)
          case LossSeen(reprobe) => Run(Lose(s, isLoopback, reprobe), es[i..], isLoopback)
      ensures outcome == StillOpen ==> i == |es|
    {
      hide Run, Lose, Finish, CloseSource;
      since, lastChunk, i := now, now, from;
      ghost var goal := Run(In(Open(now, now)), es[from..], isLoopback);
      while i < |es|
        invariant from <= i <= |es|
        invariant Run(In(Open(since, lastChunk)), es[i..], isLoopback) == goal
      {
        var e := es[i];
        RunHead(In(Open(since, lastChunk)), es, i, isLoopback);
        now := now + e.dt;
        i := i + 1;
        match e {
          case Stop(_) =>
            return StopAsked, i, since, lastChunk;
          case Received(_, chunk, captureFailed, send, reprobe) =>
            if chunk == None {
              return LossSeen(reprobe), i, since, lastChunk;
            }
            if captureFailed {
              return LossSeen(reprobe), i, since, lastChunk;
            }
            if send == Closed {
              return StopAsked, i, since, lastChunk;
            }
            if send == Accepted {
              delivered := delivered + [chunk.value];
            }
            lastChunk := now;
          case Tick(_, reprobe) =>
            if !isLoopback && now - since > WATCHDOG_GRACE && now - lastChunk > WATCHDOG_LIMIT {
              return LossSeen(reprobe), i, since, lastChunk;
            }
          case _ =>
        }
      }
      outcome := StillOpen;
      assert es[i..] == [];
      RunNothing(In(Open(since, lastChunk)), isLoopback);
    }

    /** While waiting: one await. */
    method WaitOnce(until: nat, e: Input) returns (next: Phase)
      modifies `now, `status, `log
      ensures In(next) == Step(old(In(Waiting(until))), e, isLoopback)
      ensures next.Open? ==> next == Open(now, now)
    {
      hide AfterLoss;
      now := now + e.dt;
      match e {
        case Stop(_) =>
          SetStatus(Stopped);
          next := Done;
        case DownstreamClosed(_) =>
          SetStatus(Stopped);
          next := Done;
        case Elapsed(_, probe, start, reprobe) =>
          if now < until {
            now := until;
          }
          PhaseForgotten(In(Waiting(until)), Done, isLoopback, probe, start, reprobe);
          next := TryStart(probe, start, reprobe);
        case _ =>
          next := Waiting(until);
      }
    }

    /** While capturing: forward until it ends, then close the source. */
    method CaptureOnce(es: seq<Input>, from: nat) returns (next: Phase, i: nat)
      requires from <= |es|
      modifies this
      ensures from <= i <= |es| && (i > from || i == |es|)
      ensures Run(old(In(Open(now, now))), es[from..], isLoopback) == Run(In(next), es[i..], isLoopback)
      ensures next.Open? ==> i == |es|
    {
      hide Run, AfterLoss;
      var outcome, j, since, lastChunk := Forward(es, from);
      i := j;
      next := Open(since, lastChunk);
      if outcome == StillOpen {
        assert es[i..] == [];
        RunNothing(In(next), isLoopback);
      } else {
        ghost var s := In(next);
        log := log + [SourceStopped(now)];
        if outcome == StopAsked {
          SetStatus(Stopped);
          next := Done;
        } else {
          PhaseForgotten(CloseSource(s), Done, isLoopback, outcome.reprobe, Opened(0), 0);
          next := OnLoss(outcome.reprobe);
        }
      }
    }

    /** The loop: wait and try again, or forward until the stream is gone. */
    method RunLoop(first: Phase, es: seq<Input>) returns (last: Phase)
      requires first.Open? ==> first == Open(now, now)
      modifies this
      ensures In(last) == Run(old(In(first)), es, isLoopback)
    {
      hide Run, Step;
      last := first;
      var i := 0;
      assert es[0..] == es;
      while i < |es| && last != Done
        invariant i <= |es|
        invariant last.Open? ==> last == Open(now, now) || i == |es|
        invariant Run(In(last), es[i..], isLoopback) == Run(old(In(first)), es, isLoopback)
        decreases |es| - i
      {
        if last.Open? {
          last, i := CaptureOnce(es, i);
        } else {
          RunHead(In(last), es, i, isLoopback);
          last := WaitOnce(last.until, es[i]);
          i := i + 1;
        }
      }
      if i == |es| {
        assert es[i..] == [];
        RunNothing(In(last), isLoopback);
      } else {
        DoneStays(In(last), es[i..], isLoopback);
      }
    }
  }
}
