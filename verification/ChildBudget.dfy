// The respawn budget of the child processes in liveaudio/service/supervisor.py: three failures within
// five minutes are fatal, fewer lead to a restart after a growing delay. Times are seconds.
module ChildBudget {
  import opened Audio

  const MAX_CHILD_FAILURES: nat := 3
  const WINDOW: real := 300.0
  const BACKOFF_BASE: real := 1.0
  const BACKOFF_MAX: real := 15.0

  /** The failures not older than the window. */
  function Recent(times: seq<real>, now: real): seq<real> {
    if times == [] then []
    else Recent(times[..|times| - 1], now) + if times[|times| - 1] >= now - WINDOW then [times[|times| - 1]] else []
  }

  function Power2(n: nat): real {
    if n == 0 then 1.0 else 2.0 * Power2(n - 1)
  }

  function Backoff(count: nat): real {
    var d := BACKOFF_BASE * Power2(if count == 0 then 0 else count - 1);
    if d < BACKOFF_MAX then d else BACKOFF_MAX
  }

  /** The supervisor's fields, then what it has done: every failure counted, every delay scheduled, the restarts. */
  datatype State = State(
    failures: seq<real>, pendingAt: Option<real>, fatal: bool,
    history: seq<real>, delays: seq<real>, restarts: nat)

  function Start(): State {
    State([], None, false, [], [], 0)
  }

  /** One tick: whether a child is dead, and the three clock readings it may make, in order. */
  datatype Tick = Tick(dead: bool, noted: real, scheduled: real, checked: real)

  function CheckChildren(s: State, t: Tick): State {
    if s.pendingAt.Some? || !t.dead then s
    else
      var failures := Recent(s.failures, t.noted) + [t.noted];
      var u := s.(failures := failures, history := s.history + [t.noted]);
      if |failures| >= MAX_CHILD_FAILURES then u.(fatal := true)
      else
        var delay := Backoff(|failures|);
        u.(pendingAt := Some(t.scheduled + delay), delays := s.delays + [delay])
  }

  function RunPendingRestart(s: State, t: Tick): State {
    if s.pendingAt == None || t.checked < s.pendingAt.value then s
    else s.(pendingAt := None, restarts := s.restarts + 1)
  }

  /** poll_once as far as the budget goes. A fatal error ends the service. */
  function Poll(s: State, t: Tick): State {
    if s.fatal then s
    else
      var u := CheckChildren(s, t);
      if u.fatal then u else RunPendingRestart(u, t)
  }

  function Run(s: State, ts: seq<Tick>): State
    decreases |ts|
  {
    if ts == [] then s else Run(Poll(s, ts[0]), ts[1..])
  }

  /** The clock does not go back, within a tick or between ticks. */
  predicate Monotone(from: real, ts: seq<Tick>)
    decreases |ts|
  {
    ts == [] || (from <= ts[0].noted <= ts[0].scheduled <= ts[0].checked && Monotone(ts[0].checked, ts[1..]))
  }

  // ------------------------------------------------------------------ what every tick keeps

  predicate Ascending(h: seq<real>) {
    forall i, j | 0 <= i < j < |h| :: h[i] <= h[j]
  }

  predicate Close(h: seq<real>, i: nat)
    requires i + 2 < |h|
  {
    h[i + 2] - h[i] <= 300.0
  }

  /** Three failures within five minutes. */
  predicate Burst(h: seq<real>) {
    exists i: nat :: i + 2 < |h| && Close(h, i)
  }

  predicate Apart(h: seq<real>, i: nat)
    requires i + 1 < |h|
  {
    h[i + 1] - h[i] >= 1.0
  }

  ghost predicate Inv(s: State, now: real) {
    && Ascending(s.history) && (s.history != [] ==> s.history[|s.history| - 1] <= now)
    && s.failures == (if s.history == [] then [] else Recent(s.history, s.history[|s.history| - 1]))
    && (s.fatal <==> Burst(s.history))
    && (!s.fatal ==> |s.failures| < MAX_CHILD_FAILURES)
    && (forall i: nat | i + 1 < |s.history| :: Apart(s.history, i))
    && (s.history != [] && !s.fatal ==>
          (if s.pendingAt.Some? then s.pendingAt.value else now) >= s.history[|s.history| - 1] + BACKOFF_BASE)
    && |s.delays| == |s.history| - (if s.fatal then 1 else 0)
    && (forall d | d in s.delays :: d == 1.0 || d == 2.0)
  }

  /** In an ascending history, what is recent is what is among the last ones kept. */
  lemma {:induction false} RecentAt(h: seq<real>, now: real, k: nat)
    requires Ascending(h) && k < |h|
    ensures |Recent(h, now)| <= |h|
    ensures h[k] >= now - WINDOW <==> k >= |h| - |Recent(h, now)|
  {
    var n := |h| - 1;
    if n > 0 {
      RecentAt(h[..n], now, n - 1);
      if k < n {
        RecentAt(h[..n], now, k);
      }
    }
  }

  /** Dropping what is too old twice is dropping it once, with the later cutoff. */
  lemma {:induction false} RecentTwice(h: seq<real>, a: real, b: real)
    requires a <= b
    ensures Recent(Recent(h, a), b) == Recent(h, b)
  {
    if h != [] {
      RecentTwice(h[..|h| - 1], a, b);
      var last := h[|h| - 1];
      if last >= a - WINDOW {
        var kept := Recent(h[..|h| - 1], a);
        assert Recent(h, a) == kept + [last];
        assert (kept + [last])[..|kept + [last]| - 1] == kept;
      } else {
        assert Recent(h, a) == Recent(h[..|h| - 1], a);
      }
    }
  }

  /** A new failure turns the history into a burst exactly when the pruned list reaches three. */
  lemma BurstGrows(h: seq<real>, t: real)
    requires Ascending(h + [t]) && !Burst(h)
    ensures |Recent(h, t)| + 1 >= MAX_CHILD_FAILURES <==> Burst(h + [t])
  {
    var g, n := h + [t], |h|;
    assert Ascending(h) by {
      assert forall i | 0 <= i < |h| :: g[i] == h[i];
    }
    if n >= 2 {
      RecentAt(h, t, n - 2);
      assert Close(g, n - 2) <==> h[n - 2] >= t - WINDOW;
    } else if n == 1 {
      RecentAt(h, t, 0);
    }
    if i: nat :| i + 2 < |g| && Close(g, i) {
      assert i + 2 < |h| ==> Close(h, i);
    }
  }

  lemma FirstBackoffs()
    ensures Backoff(1) == 1.0 && Backoff(2) == 2.0
  {
    assert Power2(0) == 1.0;
  }

  lemma FailureKept(h: seq<real>, t: real)
    requires Ascending(h) && (h != [] ==> h[|h| - 1] <= t)
    ensures var failures := if h == [] then [] else Recent(h, h[|h| - 1]);
      Recent(failures, t) == Recent(h, t) && Recent(h + [t], t) == Recent(h, t) + [t]
  {
    if h != [] {
      RecentTwice(h, h[|h| - 1], t);
    }
    assert (h + [t])[..|h + [t]| - 1] == h;
  }

  lemma CheckKeeps(s: State, t: Tick, from: real)
    requires Inv(s, from) && !s.fatal && from <= t.noted <= t.scheduled
    ensures Inv(CheckChildren(s, t), t.scheduled)
  {
    hide Recent, Backoff, Burst;
    if s.pendingAt == None && t.dead {
      var h := s.history;
      FailureKept(h, t.noted);
      BurstGrows(h, t.noted);
      FirstBackoffs();
      var u := CheckChildren(s, t);
      assert u.failures == Recent(h, t.noted) + [t.noted] == Recent(u.history, t.noted);
      forall i: nat | i + 1 < |u.history|
        ensures Apart(u.history, i)
      {
        assert i + 1 < |h| ==> Apart(h, i);
      }
    }
  }

  /** One tick with a clock that does not go back. */
  lemma PollKeeps(s: State, t: Tick, from: real)
    requires Inv(s, from) && from <= t.noted <= t.scheduled <= t.checked
    ensures Inv(Poll(s, t), t.checked)
  {
    hide Recent, Backoff, Burst, CheckChildren, Apart;
    if !s.fatal {
      CheckKeeps(s, t, from);
    }
  }

  lemma StartInv(from: real)
    ensures Inv(Start(), from)
  {
  }

  lemma {:induction false} RunKeeps(s: State, ts: seq<Tick>, from: real) returns (now: real)
    requires Inv(s, from) && Monotone(from, ts)
    ensures Inv(Run(s, ts), now)
    decreases |ts|
  {
    hide Inv, Poll;
    now := from;
    if ts != [] {
      PollKeeps(s, ts[0], from);
      now := RunKeeps(Poll(s, ts[0]), ts[1..], ts[0].checked);
    }
  }

  // ------------------------------------------------------------------ the theorems

  /** The pruned list is the whole failure history of the last 300 s, as seen at the latest failure and later. */
  lemma PrunedIsRecent(ts: seq<Tick>, from: real, now: real)
    requires Monotone(from, ts)
    ensures var s := Run(Start(), ts);
      s.history != [] && now >= s.history[|s.history| - 1] ==> Recent(s.failures, now) == Recent(s.history, now)
    ensures var s := Run(Start(), ts);
      s.history != [] ==> s.failures == Recent(s.history, s.history[|s.history| - 1])
  {
    hide Run, Recent;
    StartInv(from);
    var end := RunKeeps(Start(), ts, from);
    var s := Run(Start(), ts);
    if s.history != [] && now >= s.history[|s.history| - 1] {
      RecentTwice(s.history, s.history[|s.history| - 1], now);
    }
  }

  /** The service dies exactly of three failures within 300 s; in any other run, three span more than that. */
  lemma FatalIffBurst(ts: seq<Tick>, from: real)
    requires Monotone(from, ts)
    ensures var s := Run(Start(), ts);
      s.fatal <==> exists i: nat :: i + 2 < |s.history| && Close(s.history, i)
  {
    hide Run, Recent;
    StartInv(from);
    var end := RunKeeps(Start(), ts, from);
  }

  /** While a restart is pending no failure is counted, so two of them are at least a delay apart. */
  lemma FailuresApart(ts: seq<Tick>, from: real, i: nat)
    requires Monotone(from, ts)
    ensures var h := Run(Start(), ts).history; i + 1 < |h| ==> h[i + 1] - h[i] >= 1.0
  {
    hide Run, Recent, Burst;
    StartInv(from);
    var end := RunKeeps(Start(), ts, from);
    assert i + 1 < |Run(Start(), ts).history| ==> Apart(Run(Start(), ts).history, i);
  }

  /** The scheduled delays are 1 s or 2 s: the cap of 15 s is never reached. */
  lemma DelaysAreShort(ts: seq<Tick>, from: real)
    requires Monotone(from, ts)
    ensures forall d | d in Run(Start(), ts).delays :: d == 1.0 || d == 2.0
  {
    hide Run, Recent, Burst;
    StartInv(from);
    var end := RunKeeps(Start(), ts, from);
  }

  /** A dead child is counted as a failure exactly where no restart is pending. */
  lemma FailureCounted(s: State, t: Tick)
    ensures Poll(s, t).history == s.history + if !s.fatal && s.pendingAt == None && t.dead then [t.noted] else []
  {
  }

  /**
   * What a counted failure leads to: the end, if it is the third within 300 s; otherwise a restart 2 s
   * later if the failure before it lies within 300 s, and 1 s later if not.
   */
  lemma FailureSchedules(s: State, t: Tick, from: real)
    requires Inv(s, from) && from <= t.noted && !s.fatal && s.pendingAt == None && t.dead
    ensures var u, h := CheckChildren(s, t), s.history;
      var delay := if h != [] && t.noted - h[|h| - 1] <= 300.0 then 2.0 else 1.0;
      && (u.fatal <==> |h| >= 2 && t.noted - h[|h| - 2] <= 300.0)
      && (!u.fatal ==> u.pendingAt == Some(t.scheduled + delay) && u.delays == s.delays + [delay])
  {
    hide Recent, Backoff, Burst, Apart;
    var h := s.history;
    FailureKept(h, t.noted);
    FirstBackoffs();
    RecentLength(h, t.noted);
  }

  lemma RecentLength(h: seq<real>, now: real)
    requires Ascending(h)
    ensures |Recent(h, now)| >= 2 <==> |h| >= 2 && now - h[|h| - 2] <= 300.0
    ensures |Recent(h, now)| >= 1 <==> h != [] && now - h[|h| - 1] <= 300.0
  {
    var n := |h|;
    if n >= 1 {
      RecentAt(h, now, n - 1);
    }
    if n >= 2 {
      RecentAt(h, now, n - 2);
    }
  }

  /** Every delay scheduled has led to a restart, but for one still pending, and that one is not yet due. */
  predicate OnTime(s: State, now: real) {
    && s.restarts + (if s.pendingAt.Some? then 1 else 0) == |s.delays|
    && (s.pendingAt.Some? ==> now < s.pendingAt.value)
    && (s.fatal ==> s.pendingAt == None)
  }

  lemma PollOnTime(s: State, t: Tick, from: real)
    requires OnTime(s, from)
    ensures OnTime(Poll(s, t), t.checked)
  {
    hide Recent, Backoff;
  }

  /** The last clock reading of a run. */
  function End(from: real, ts: seq<Tick>): real {
    if ts == [] then from else ts[|ts| - 1].checked
  }

  lemma {:induction false} RunOnTime(s: State, ts: seq<Tick>, from: real)
    requires OnTime(s, from)
    ensures OnTime(Run(s, ts), End(from, ts))
    decreases |ts|
  {
    hide Poll, OnTime;
    if ts != [] {
      PollOnTime(s, ts[0], from);
      RunOnTime(Poll(s, ts[0]), ts[1..], ts[0].checked);
    }
  }

  /** A due restart happens: after every tick, whatever was scheduled has been done unless it lies ahead. */
  lemma RestartsHappen(ts: seq<Tick>, from: real)
    ensures var s := Run(Start(), ts);
      && s.restarts + (if s.pendingAt.Some? then 1 else 0) == |s.delays|
      && (s.pendingAt.Some? ==> End(from, ts) < s.pendingAt.value)
  {
    hide Run, End;
    RunOnTime(Start(), ts, from);
  }

  // ------------------------------------------------------------------ the supervisor

  class ProcessSupervisor {
    var failures: seq<real>
    var pendingAt: Option<real>
    var fatal: bool
    ghost var history: seq<real>
    var delays: seq<real>
    var restarts: nat

    ghost function Budget(): State
      reads this
    {
      State(failures, pendingAt, fatal, history, delays, restarts)
    }

    constructor ()
      ensures Budget() == Start()
    {
      failures, pendingAt, fatal := [], None, false;
      history, delays, restarts := [], [], 0;
    }

    /** Records a failure; says whether the ceiling is reached. */
    method NoteFailure(now: real) returns (ceiling: bool)
      modifies `failures, `history
      ensures failures == Recent(old(failures), now) + [now] && history == old(history) + [now]
      ensures ceiling <==> |failures| >= MAX_CHILD_FAILURES
    {
      var cutoff := now - WINDOW;
      var kept := [];
      for i := 0 to |failures|
        invariant failures == old(failures) && history == old(history)
        invariant kept == Recent(failures[..i], now)
      {
        assert failures[..i + 1][..i] == failures[..i];
        if failures[i] >= cutoff {
          kept := kept + [failures[i]];
        }
      }
      assert failures[..|failures|] == failures;
      failures := kept + [now];
      history := history + [now];
      ceiling := |failures| >= MAX_CHILD_FAILURES;
    }

    method CheckOnChildren(t: Tick)
      modifies this
      ensures Budget() == CheckChildren(old(Budget()), t)
    {
      if pendingAt.Some? || !t.dead {
        return;
      }
      var ceiling := NoteFailure(t.noted);
      if ceiling {
        fatal := true;
        return;
      }
      var delay := Backoff(|failures|);
      pendingAt := Some(t.scheduled + delay);
      delays := delays + [delay];
    }

    method RestartIfDue(t: Tick)
      modifies this
      ensures Budget() == RunPendingRestart(old(Budget()), t)
    {
      if pendingAt == None || t.checked < pendingAt.value {
        return;
      }
      pendingAt := None;
      restarts := restarts + 1;
    }

    method Serve(ts: seq<Tick>)
      modifies this
      ensures Budget() == Run(old(Budget()), ts)
    {
      ghost var goal := Run(Budget(), ts);
      var i := 0;
      while i < |ts|
        invariant i <= |ts| && Run(Budget(), ts[i..]) == goal
      {
        assert ts[i..][1..] == ts[i + 1..];
        if !fatal {
          CheckOnChildren(ts[i]);
          if !fatal {
            RestartIfDue(ts[i]);
          }
        }
        i := i + 1;
      }
    }
  }
}
