// The session writer in liveaudio/core/engine.py: records are admitted under a lock by the decoder
// thread, written by a worker thread, and drained by whoever calls stop() or flush(). Every event below
// is one indivisible step of one thread; a run is any interleaving of them.
module SessionWriter {
  import opened Audio

  datatype Sink = Jsonl | Vtt

  datatype Code = QueueFull | StorageError | DrainTimeout

  datatype Item = Item(record: int, toJsonl: bool, toVtt: bool)

  predicate Enabled(item: Item, k: Sink) {
    if k == Jsonl then item.toJsonl else item.toVtt
  }

  /** An attempt concerning an item (a write to a sink's file, a call of write_record) and whether it succeeded. */
  datatype Outcome = Outcome(item: Item, ok: bool)

  /** The outcome counters of a sink, and the writes tried on its file. */
  datatype Ledger = Ledger(pending: int, saved: nat, failed: nat, rejected: nat, tries: seq<Outcome>)

  /** Who holds the writer's condition lock across steps: nobody, or write_record for an item. */
  datatype Lock = Free | Held(item: Item) | Cleared(item: Item) | Queued(item: Item)

  /** Where the worker is. SawStop: it read the stop flag as set and has not looked at the queue yet. */
  datatype Worker =
    | Top
    | SawStop
    | Getting
    | Writing(item: Item, k: Sink)
    | Completing(item: Item, k: Sink, ok: bool)
    | Signalling(item: Item, k: Sink)
    | Exited

  datatype State = State(
    capacity: nat, queue: seq<Item>, stopping: bool, error: Option<Code>, jsonl: Ledger, vtt: Ledger,
    lock: Lock, worker: Worker,
    fullOwed: nat, drainOwed: nat, // callers that must still signal writer_queue_full / writer_drain_timeout
    admitted: seq<Item>, done: seq<Item>, // what was put in the queue, what the worker is through with
    answers: seq<Outcome>, // what write_record answered, in the order of its critical sections
    clean: bool) // some stop() has answered True

  function Led(s: State, k: Sink): Ledger {
    if k == Jsonl then s.jsonl else s.vtt
  }

  function Update(s: State, k: Sink, l: Ledger): State {
    if k == Jsonl then s.(jsonl := l) else s.(vtt := l)
  }

  function Start(capacity: int): State {
    var l := Ledger(0, 0, 0, 0, []);
    State(if capacity > 1 then capacity else 1, [], false, None, l, l, Free, Top, 0, 0, [], [], [], false)
  }

  // ------------------------------------------------------------------ the steps

  datatype Event =
    | Acquire(item: Item)   // write_record enters its critical section
    | Check                 // ... and reads the stop flag and the error code
    | Put                   // ... and tries put_nowait
    | Account               // ... and counts the item as pending, then leaves
    | SignalFull            // a rejected caller signals writer_queue_full
    | Loop                  // the worker reads the stop flag
    | LookEmpty             // ... and then whether the queue is empty
    | Get                   // ... takes an item, or times out on an empty queue
    | Write(ok: bool)       // ... appends to a file
    | Complete              // ... counts the outcome
    | SignalStorage         // ... signals writer_storage_error
    | StopSet               // stop() sets the flag
    | StopCheck             // ... has joined the worker and reads pending and error
    | DrainTimedOut         // stop() or flush() ran out of time
    | SignalDrain           // ... and signals writer_drain_timeout

  function Count(item: Item, k: Sink): nat {
    if Enabled(item, k) then 1 else 0
  }

  function RejectIn(l: Ledger, n: nat): Ledger {
    l.(rejected := l.rejected + n)
  }

  function AdmitIn(l: Ledger, n: nat): Ledger {
    l.(pending := l.pending + n)
  }

  function CompleteIn(l: Ledger, ok: bool): Ledger {
    if ok then l.(pending := l.pending - 1, saved := l.saved + 1)
    else l.(pending := l.pending - 1, failed := l.failed + 1)
  }

  function Reject(s: State, item: Item): State {
    s.(jsonl := RejectIn(s.jsonl, Count(item, Jsonl)), vtt := RejectIn(s.vtt, Count(item, Vtt)),
       lock := Free, fullOwed := s.fullOwed + 1, answers := s.answers + [Outcome(item, false)])
  }

  function Signal(s: State, code: Code): State {
    s.(error := if s.error == None then Some(code) else s.error)
  }

  /** After its work on sink k the worker turns to the next sink, or is through with the item. */
  function AfterSink(s: State, item: Item, k: Sink): State {
    if k == Jsonl then s.(worker := Writing(item, Vtt)) else s.(worker := Top, done := s.done + [item])
  }

  predicate Drained(s: State) {
    s.jsonl.pending == 0 && s.vtt.pending == 0
  }

  /** When a step can be taken. Steps of the condition's critical sections need the lock to be free. */
  predicate Can(s: State, e: Event) {
    match e
    case Acquire(item) => s.lock == Free && (item.toJsonl || item.toVtt)
    case Check => s.lock.Held?
    case Put => s.lock.Cleared?
    case Account => s.lock.Queued?
    case SignalFull => s.lock == Free && s.fullOwed > 0
    case Loop => s.worker == Top
    case LookEmpty => s.worker == SawStop
    case Get => s.worker == Getting
    case Write(ok) => s.worker.Writing?
    case Complete => s.worker.Completing? && s.lock == Free
    case SignalStorage => s.worker.Signalling? && s.lock == Free
    case StopSet => true
    case StopCheck => s.stopping && s.worker == Exited && s.lock == Free
    case DrainTimedOut => true
    case SignalDrain => s.lock == Free && s.drainOwed > 0
  }

  function Checked(s: State): State
    requires s.lock.Held?
  {
    if s.stopping || s.error != None then Reject(s, s.lock.item) else s.(lock := Cleared(s.lock.item))
  }

  function TriedPut(s: State): State
    requires s.lock.Cleared?
  {
    var item := s.lock.item;
    if |s.queue| >= s.capacity then Reject(s, item)
    else s.(queue := s.queue + [item], admitted := s.admitted + [item], lock := Queued(item))
  }

  function Accounted(s: State): State
    requires s.lock.Queued?
  {
    var item := s.lock.item;
    s.(jsonl := AdmitIn(s.jsonl, Count(item, Jsonl)), vtt := AdmitIn(s.vtt, Count(item, Vtt)),
       lock := Free, answers := s.answers + [Outcome(item, true)])
  }

  function Got(s: State): State
    requires s.worker == Getting
  {
    if s.queue == [] then s.(worker := Top)
    else s.(worker := Writing(s.queue[0], Jsonl), queue := s.queue[1..])
  }

  function Wrote(s: State, ok: bool): State
    requires s.worker.Writing?
  {
    var item, k := s.worker.item, s.worker.k;
    if !Enabled(item, k) then AfterSink(s, item, k)
    else
      var l := Led(s, k);
      Update(s, k, l.(tries := l.tries + [Outcome(item, ok)])).(worker := Completing(item, k, ok))
  }

  function Completed(s: State): State
    requires s.worker.Completing?
  {
    var item, k := s.worker.item, s.worker.k;
    var t := Update(s, k, CompleteIn(Led(s, k), s.worker.ok));
    if s.worker.ok then AfterSink(t, item, k) else t.(worker := Signalling(item, k))
  }

  function Signalled(s: State): State
    requires s.worker.Signalling?
  {
    AfterSink(Signal(s, StorageError), s.worker.item, s.worker.k)
  }

  function Do(s: State, e: Event): State
    requires Can(s, e)
  {
    match e
    case Acquire(item) => s.(lock := Held(item))
    case Check => Checked(s)
    case Put => TriedPut(s)
    case Account => Accounted(s)
    case SignalFull => Signal(s, QueueFull).(fullOwed := s.fullOwed - 1)
    case Loop => s.(worker := if s.stopping then SawStop else Getting)
    case LookEmpty => s.(worker := if s.queue == [] then Exited else Getting)
    case Get => Got(s)
    case Write(ok) => Wrote(s, ok)
    case Complete => Completed(s)
    case SignalStorage => Signalled(s)
    case StopSet => s.(stopping := true)
    case StopCheck =>
      if Drained(s) then s.(clean := s.clean || s.error == None) else s.(drainOwed := s.drainOwed + 1)
    case DrainTimedOut => s.(drainOwed := s.drainOwed + 1)
    case SignalDrain => Signal(s, DrainTimeout).(drainOwed := s.drainOwed - 1)
  }

  /** Whether a list of steps can be taken one after the other. */
  predicate Run(s: State, es: seq<Event>)
    decreases |es|
  {
    es == [] || (Can(s, es[0]) && Run(Do(s, es[0]), es[1..]))
  }

  function After(s: State, es: seq<Event>): State
    requires Run(s, es)
    decreases |es|
  {
    if es == [] then s else After(Do(s, es[0]), es[1..])
  }

  // ------------------------------------------------------------------ what every step keeps

  function For(items: seq<Item>, k: Sink): seq<Item> {
    if items == [] then []
    else For(items[..|items| - 1], k) + if Enabled(items[|items| - 1], k) then [items[|items| - 1]] else []
  }

  /** The items of the attempts that succeeded, in order. Of a sink's writes: what its file holds. */
  function Succeeded(tries: seq<Outcome>): seq<Item> {
    if tries == [] then []
    else Succeeded(tries[..|tries| - 1]) + if tries[|tries| - 1].ok then [tries[|tries| - 1].item] else []
  }

  function ItemsOf(tries: seq<Outcome>): seq<Item> {
    seq(|tries|, i requires 0 <= i < |tries| => tries[i].item)
  }

  /** The item in the worker's hands. */
  function Hand(w: Worker): seq<Item> {
    if w.Writing? || w.Completing? || w.Signalling? then [w.item] else []
  }

  /** Whether the item in hand still counts as pending for k. */
  predicate Awaits(w: Worker, k: Sink) {
    || (w.Writing? && (w.k == Jsonl || k == Vtt))
    || (w.Completing? && (w.k == Jsonl || k == Vtt))
    || (w.Signalling? && w.k == Jsonl && k == Vtt)
  }

  /** Whether the write of the item in hand has been tried on k. */
  predicate Attempted(w: Worker, k: Sink) {
    || (w.Writing? && w.k == Vtt && k == Jsonl)
    || (w.Completing? && (w.k == Vtt || k == Jsonl))
    || (w.Signalling? && (w.k == Vtt || k == Jsonl))
  }

  function Part(b: bool, items: seq<Item>, k: Sink): seq<Item> {
    if b then For(items, k) else []
  }

  function One(b: bool): nat {
    if b then 1 else 0
  }

  /** What write_record was offered for a sink is still pending, saved, failed or rejected. */
  ghost predicate Offers(s: State, k: Sink) {
    var l := Led(s, k);
    |For(ItemsOf(s.answers), k)| == l.pending + l.saved + l.failed + l.rejected
  }

  /** Pending is what waits in the queue or in hand, but for an item that is not counted yet. */
  ghost predicate Waits(s: State, k: Sink) {
    Led(s, k).pending == |For(s.queue, k)| + |Part(Awaits(s.worker, k), Hand(s.worker), k)|
                         - (if s.lock.Queued? then Count(s.lock.item, k) else 0)
  }

  /** Writes have been tried for what the worker is through with, in order, and perhaps for what it holds. */
  ghost predicate Tries(s: State, k: Sink) {
    ItemsOf(Led(s, k).tries) == For(s.done, k) + Part(Attempted(s.worker, k), Hand(s.worker), k)
  }

  /** Saved and failed count the tries, but for one that is not counted yet. A failure gets signalled. */
  ghost predicate Counted(s: State, k: Sink) {
    var l, w := Led(s, k), s.worker;
    && |Succeeded(l.tries)| == l.saved + One(w.Completing? && w.k == k && w.ok)
    && |l.tries| - |Succeeded(l.tries)| == l.failed + One(w.Completing? && w.k == k && !w.ok)
    && (l.failed > 0 ==> s.error != None || w.Signalling?)
  }

  /** The books of one sink. */
  ghost predicate Balanced(s: State, k: Sink) {
    Offers(s, k) && Waits(s, k) && Tries(s, k) && Counted(s, k)
  }

  /** The item just put and not yet counted: last in the queue, or in hand with nothing of it completed. */
  predicate Fresh(s: State, item: Item) {
    if s.queue != [] then s.queue[|s.queue| - 1] == item
    else
      && Hand(s.worker) == [item]
      && (item.toJsonl ==> Awaits(s.worker, Jsonl)) && (item.toVtt ==> Awaits(s.worker, Vtt))
  }

  /** What was admitted is what the worker is through with, then what it holds, then the queue. */
  ghost predicate InOrder(s: State) {
    s.admitted == s.done + Hand(s.worker) + s.queue
  }

  /** The records write_record said True to are the admitted ones. */
  ghost predicate Answered(s: State) {
    s.admitted == Succeeded(s.answers) + (if s.lock.Queued? then [s.lock.item] else [])
  }

  predicate Targeted(x: Item) {
    x.toJsonl || x.toVtt
  }

  /** Every record on its way is meant for some sink. */
  ghost predicate AllTargeted(s: State) {
    && (forall x | x in s.admitted :: Targeted(x))
    && (s.lock != Free ==> Targeted(s.lock.item))
  }

  /** What write_record has established inside its critical section. */
  ghost predicate Locked(s: State) {
    && (s.lock.Cleared? || s.lock.Queued? ==> s.error == None)
    && (s.lock.Queued? ==> Fresh(s, s.lock.item))
  }

  /** What the worker's position says. */
  ghost predicate Placed(s: State) {
    && (s.worker.Completing? || s.worker.Signalling? ==> Enabled(s.worker.item, s.worker.k))
    && (s.worker.Signalling? ==> Led(s, s.worker.k).failed > 0)
    && (s.worker == Exited || s.worker == SawStop ==> s.stopping)
  }

  /** How the threads' positions, the flags and the queue hang together. */
  ghost predicate Coherent(s: State) {
    InOrder(s) && Answered(s) && AllTargeted(s) && Locked(s) && Placed(s)
  }

  /** After a stop() that answered True: everything is written and nothing can enter any more. */
  ghost predicate Settled(s: State) {
    && s.stopping && s.worker == Exited && s.queue == []
    && !s.lock.Cleared? && !s.lock.Queued?
    && Drained(s) && s.jsonl.failed == 0 && s.vtt.failed == 0
  }

  ghost predicate Inv(s: State) {
    Coherent(s) && Balanced(s, Jsonl) && Balanced(s, Vtt) && (s.clean ==> Settled(s))
  }

  // ------------------------------------------------------------------ the projections, one step at a time

  lemma ForSnoc(items: seq<Item>, x: Item, k: Sink)
    ensures For(items + [x], k) == For(items, k) + For([x], k)
    ensures For([x], k) == (if Enabled(x, k) then [x] else [])
    ensures |For([x], k)| == Count(x, k)
  {
    assert (items + [x])[..|items + [x]| - 1] == items;
    assert [x][..0] == [];
  }

  lemma {:induction false} ForHead(items: seq<Item>, k: Sink)
    requires items != []
    ensures |For(items, k)| == Count(items[0], k) + |For(items[1..], k)|
  {
    var n := |items| - 1;
    if n > 0 {
      ForHead(items[..n], k);
      assert items[..n][1..] == items[1..][..n - 1];
    }
  }

  lemma OutcomesGrow(tries: seq<Outcome>, x: Outcome)
    ensures ItemsOf(tries + [x]) == ItemsOf(tries) + [x.item]
    ensures Succeeded(tries + [x]) == Succeeded(tries) + if x.ok then [x.item] else []
  {
    assert (tries + [x])[..|tries + [x]| - 1] == tries;
  }

  // ------------------------------------------------------------------ every step keeps the books

  lemma AnswersGrow(s: State, o: Outcome, k: Sink)
    ensures |For(ItemsOf(s.answers + [o]), k)| == |For(ItemsOf(s.answers), k)| + Count(o.item, k)
  {
    hide For, ItemsOf, Succeeded;
    OutcomesGrow(s.answers, o);
    ForSnoc(ItemsOf(s.answers), o.item, k);
  }

  lemma RejectBalanced(s: State, k: Sink)
    requires Balanced(s, k) && (s.lock.Held? || s.lock.Cleared?)
    ensures Balanced(Reject(s, s.lock.item), k)
  {
    hide For, Succeeded, ItemsOf, Part, Hand, Awaits, Attempted;
    AnswersGrow(s, Outcome(s.lock.item, false), k);
  }

  lemma PutBalanced(s: State, k: Sink)
    requires Balanced(s, k) && s.lock.Cleared?
    ensures Balanced(TriedPut(s), k)
  {
    hide For, Succeeded, ItemsOf, Part, Hand, Awaits, Attempted, Reject;
    RejectBalanced(s, k);
    ForSnoc(s.queue, s.lock.item, k);
  }

  lemma AccountBalanced(s: State, k: Sink)
    requires Balanced(s, k) && s.lock.Queued?
    ensures Balanced(Accounted(s), k)
  {
    hide For, Succeeded, ItemsOf, Part, Hand, Awaits, Attempted;
    AnswersGrow(s, Outcome(s.lock.item, true), k);
  }

  /** A step that moves neither items nor counts. */
  lemma BalancedFrame(s: State, t: State, k: Sink)
    requires Balanced(s, k) && Led(t, k) == Led(s, k) && t.queue == s.queue && t.done == s.done
    requires t.answers == s.answers && t.worker == s.worker && (s.error != None ==> t.error != None)
    requires t.lock == s.lock || (!t.lock.Queued? && !s.lock.Queued?)
    ensures Balanced(t, k)
  {
    hide For, Succeeded, ItemsOf, Part, Hand, Awaits, Attempted, Led;
  }

  /** The worker moves between items. */
  lemma IdleBalanced(s: State, w: Worker, k: Sink)
    requires Balanced(s, k) && Hand(s.worker) == Hand(w) == []
    ensures Balanced(s.(worker := w), k)
  {
    hide For, Succeeded, ItemsOf;
  }

  lemma GetBalanced(s: State, k: Sink)
    requires Balanced(s, k) && s.worker == Getting
    ensures Balanced(Got(s), k)
  {
    hide For, Succeeded, ItemsOf;
    if s.queue != [] {
      ForNone(k);
      ForHead(s.queue, k);
      ForSnoc([], s.queue[0], k);
    }
  }

  /** A sink the item is not meant for is skipped. */
  lemma SkipBalanced(s: State, k: Sink)
    requires Balanced(s, k) && s.worker.Writing? && !Enabled(s.worker.item, s.worker.k)
    ensures Balanced(AfterSink(s, s.worker.item, s.worker.k), k)
  {
    hide For, Succeeded, ItemsOf;
    ForNone(k);
    ForSnoc(s.done, s.worker.item, k);
  }

  lemma WriteBalanced(s: State, ok: bool, k: Sink)
    requires Balanced(s, k) && s.worker.Writing? && Enabled(s.worker.item, s.worker.k)
    ensures Balanced(Wrote(s, ok), k)
  {
    hide For, Succeeded, ItemsOf;
    var item := s.worker.item;
    ForSnoc([], item, k);
    OutcomesGrow(Led(s, k).tries, Outcome(item, ok));
    assert For(s.done, k) + [] == For(s.done, k);
  }

  /** The outcome of a write is counted; the worker is still at that sink. */
  function CountedAt(s: State): State
    requires s.worker.Completing?
  {
    var item, at := s.worker.item, s.worker.k;
    Update(s, at, CompleteIn(Led(s, at), s.worker.ok)).(worker := Signalling(item, at))
  }

  lemma CountHere(s: State)
    requires s.worker.Completing? && Balanced(s, s.worker.k) && Enabled(s.worker.item, s.worker.k)
    ensures Balanced(CountedAt(s), s.worker.k)
  {
    hide For, Succeeded, ItemsOf;
    ForSnoc([], s.worker.item, s.worker.k);
  }

  lemma CountElsewhere(s: State, k: Sink)
    requires s.worker.Completing? && Balanced(s, k) && k != s.worker.k
    ensures Balanced(CountedAt(s), k)
  {
    hide For, Succeeded, ItemsOf, CompleteIn;
  }

  lemma CountBalanced(s: State, k: Sink)
    requires Balanced(s, k) && s.worker.Completing? && Enabled(s.worker.item, s.worker.k)
    ensures Balanced(CountedAt(s), k)
  {
    hide Balanced, CountedAt;
    if k == s.worker.k {
      CountHere(s);
    } else {
      CountElsewhere(s, k);
    }
  }

  /** From a sink that is dealt with to the next sink, or to the next item. */
  lemma MoveOnBalanced(s: State, k: Sink)
    requires Balanced(s, k) && s.worker.Signalling? && (Led(s, k).failed > 0 ==> s.error != None)
    ensures Balanced(AfterSink(s, s.worker.item, s.worker.k), k)
  {
    hide For, Succeeded, ItemsOf;
    ForNone(k);
    ForSnoc(s.done, s.worker.item, k);
  }

  lemma CompleteBalanced(s: State, k: Sink)
    requires Balanced(s, k) && s.worker.Completing? && Enabled(s.worker.item, s.worker.k)
    ensures Balanced(Completed(s), k)
  {
    hide Offers, Waits, Tries;
    CountBalanced(s, k);
    if s.worker.ok {
      MoveOnBalanced(CountedAt(s), k);
    }
  }

  lemma SignalBalanced(s: State, k: Sink)
    requires Balanced(s, k) && s.worker.Signalling?
    ensures Balanced(Signalled(s), k)
  {
    hide Offers, Waits, Tries, Counted;
    var t := Signal(s, StorageError);
    BalancedFrame(s, t, k);
    MoveOnBalanced(t, k);
  }

  lemma ForNone(k: Sink)
    ensures For([], k) == []
  {
  }

  lemma StepBalanced(s: State, e: Event, k: Sink)
    requires Placed(s) && Balanced(s, k) && Can(s, e)
    ensures Balanced(Do(s, e), k)
  {
    hide Balanced, TriedPut, Accounted, Got, Completed, Signalled, Reject;
    match e
    case Check =>
      RejectBalanced(s, k);
      BalancedFrame(s, s.(lock := Cleared(s.lock.item)), k);
    case Put => PutBalanced(s, k);
    case Account => AccountBalanced(s, k);
    case Loop => IdleBalanced(s, Do(s, e).worker, k);
    case LookEmpty => IdleBalanced(s, Do(s, e).worker, k);
    case Get => GetBalanced(s, k);
    case Write(ok) =>
      if Enabled(s.worker.item, s.worker.k) {
        WriteBalanced(s, ok, k);
      } else {
        SkipBalanced(s, k);
      }
    case Complete => CompleteBalanced(s, k);
    case SignalStorage => SignalBalanced(s, k);
    case _ => BalancedFrame(s, Do(s, e), k);
  }

  // ------------------------------------------------------------------ every step keeps the threads together

  /** A step that moves no items and leaves the critical section alone, or enters or advances it before put. */
  lemma CoherentFrame(s: State, t: State)
    requires Coherent(s) && t.admitted == s.admitted && t.done == s.done && t.queue == s.queue
    requires t.answers == s.answers && Hand(t.worker) == Hand(s.worker)
    requires t.worker == s.worker || Hand(t.worker) == []
    requires t.worker == s.worker ==> t.jsonl == s.jsonl && t.vtt == s.vtt && (s.stopping ==> t.stopping)
    requires t.worker != s.worker ==> Placed(t) && t.lock == s.lock && t.error == s.error
    requires t.error == s.error || s.lock == Free
    requires t.lock == s.lock || (!s.lock.Queued? && (t.lock.Held? || (t.lock.Cleared? && t.error == None)))
    requires t.lock != Free ==> Targeted(t.lock.item)
    ensures Coherent(t)
  {
    hide Succeeded, Targeted;
  }

  lemma RejectCoherent(s: State)
    requires Coherent(s) && (s.lock.Held? || s.lock.Cleared?)
    ensures Coherent(Reject(s, s.lock.item))
  {
    hide Succeeded, Hand, Targeted, Awaits;
    OutcomesGrow(s.answers, Outcome(s.lock.item, false));
    assert Succeeded(s.answers) + [] == Succeeded(s.answers);
  }

  lemma PutCoherent(s: State)
    requires Coherent(s) && s.lock.Cleared?
    ensures Coherent(TriedPut(s))
  {
    hide Succeeded, Hand, Targeted, Awaits, Reject;
    if |s.queue| >= s.capacity {
      RejectCoherent(s);
    }
  }

  lemma AccountCoherent(s: State)
    requires Coherent(s) && s.lock.Queued?
    ensures Coherent(Accounted(s))
  {
    hide Succeeded, Hand, Targeted, Awaits;
    OutcomesGrow(s.answers, Outcome(s.lock.item, true));
    assert Succeeded(s.answers + [Outcome(s.lock.item, true)]) + [] == s.admitted;
  }

  lemma GetCoherent(s: State)
    requires Coherent(s) && s.worker == Getting
    ensures Coherent(Got(s))
  {
    hide Succeeded, Targeted, AllTargeted;
    if s.queue != [] {
      assert s.queue == [s.queue[0]] + s.queue[1..];
    }
    GetTargeted(s);
  }

  lemma GetTargeted(s: State)
    requires AllTargeted(s) && s.worker == Getting
    ensures AllTargeted(Got(s))
  {
  }

  /** The worker turns from one sink to the next, or to the next item, with nothing in the critical section. */
  lemma AfterSinkCoherent(s: State)
    requires Coherent(s) && Hand(s.worker) != []
    requires s.lock.Queued? ==> s.worker.Writing? && !Enabled(s.worker.item, s.worker.k)
    ensures Coherent(AfterSink(s, s.worker.item, s.worker.k))
  {
    hide Succeeded;
    AfterSinkFresh(s);
    AfterSinkTargeted(s);
  }

  lemma AfterSinkTargeted(s: State)
    requires AllTargeted(s) && Hand(s.worker) != []
    ensures AllTargeted(AfterSink(s, s.worker.item, s.worker.k))
  {
  }

  lemma AfterSinkFresh(s: State)
    requires s.lock.Queued? ==> Fresh(s, s.lock.item) && Targeted(s.lock.item)
    requires Hand(s.worker) != []
    requires s.lock.Queued? ==> s.worker.Writing? && !Enabled(s.worker.item, s.worker.k)
    ensures var t := AfterSink(s, s.worker.item, s.worker.k); t.lock.Queued? ==> Fresh(t, t.lock.item)
  {
  }

  lemma WriteCoherent(s: State, ok: bool)
    requires Coherent(s) && s.worker.Writing? && Enabled(s.worker.item, s.worker.k)
    ensures Coherent(Wrote(s, ok))
  {
    hide Succeeded, Targeted;
  }

  lemma CompleteCoherent(s: State)
    requires Coherent(s) && s.worker.Completing? && s.lock == Free
    ensures Coherent(Completed(s))
  {
    hide Succeeded, Targeted, AfterSink;
    var item, k, ok := s.worker.item, s.worker.k, s.worker.ok;
    if ok {
      var t := Update(s, k, CompleteIn(Led(s, k), ok));
      AfterSinkCoherent(t);
    }
  }

  lemma SignalCoherent(s: State)
    requires Coherent(s) && s.worker.Signalling? && s.lock == Free
    ensures Coherent(Signalled(s))
  {
    hide Succeeded, Targeted, AfterSink;
    AfterSinkCoherent(Signal(s, StorageError));
  }

  lemma StepCoherent(s: State, e: Event)
    requires Coherent(s) && Can(s, e)
    ensures Coherent(Do(s, e))
  {
    hide TriedPut, Accounted, Got, Completed, Signalled, Reject, InOrder, Answered, Fresh, Succeeded, AfterSink;
    match e
    case Check =>
      RejectCoherent(s);
      if !s.stopping && s.error == None {
        CoherentFrame(s, Checked(s));
      }
    case Put => PutCoherent(s);
    case Account => AccountCoherent(s);
    case Get => GetCoherent(s);
    case Write(ok) =>
      if Enabled(s.worker.item, s.worker.k) {
        WriteCoherent(s, ok);
      } else {
        AfterSinkCoherent(s);
      }
    case Complete => CompleteCoherent(s);
    case SignalStorage => SignalCoherent(s);
    case _ => CoherentFrame(s, Do(s, e));
  }

  /** Pending zero on both sinks with nobody inside write_record: nothing is on its way any more. */
  lemma DrainedMeansEmpty(s: State)
    requires Coherent(s) && Balanced(s, Jsonl) && Balanced(s, Vtt) && Drained(s) && !s.lock.Queued?
    ensures s.queue == []
    ensures Part(Awaits(s.worker, Jsonl), Hand(s.worker), Jsonl) == []
    ensures Part(Awaits(s.worker, Vtt), Hand(s.worker), Vtt) == []
  {
    hide Succeeded, ItemsOf, Part, Hand, Awaits, Attempted, For;
    if s.queue != [] {
      assert s.queue[0] in s.admitted;
      ForHead(s.queue, Jsonl);
      ForHead(s.queue, Vtt);
    }
  }

  lemma StepSettled(s: State, e: Event)
    requires Inv(s) && Can(s, e)
    ensures Do(s, e).clean ==> Settled(Do(s, e))
  {
    hide For, Succeeded, ItemsOf, Part, Awaits, Attempted;
    if e.StopCheck? && Drained(s) {
      DrainedMeansEmpty(s);
    }
  }

  lemma StepKeeps(s: State, e: Event)
    requires Inv(s) && Can(s, e)
    ensures Inv(Do(s, e))
  {
    hide Balanced, InOrder, Answered, AllTargeted, Locked, Placed, Settled, Do, Can;
    StepBalanced(s, e, Jsonl);
    StepBalanced(s, e, Vtt);
    StepCoherent(s, e);
    StepSettled(s, e);
  }

  lemma {:induction false} RunKeeps(s: State, es: seq<Event>)
    requires Inv(s) && Run(s, es)
    ensures Inv(After(s, es))
    decreases |es|
  {
    hide Inv, Do, Can;
    if es != [] {
      StepKeeps(s, es[0]);
      RunKeeps(Do(s, es[0]), es[1..]);
    }
  }

  lemma StartInv(capacity: int)
    ensures Inv(Start(capacity))
  {
  }

  // ------------------------------------------------------------------ the theorems

  lemma {:induction false} AllSucceeded(os: seq<Outcome>)
    ensures |Succeeded(os)| <= |os| == |ItemsOf(os)|
    ensures |Succeeded(os)| == |os| <==> Succeeded(os) == ItemsOf(os)
  {
    if os != [] {
      var rest := os[..|os| - 1];
      AllSucceeded(rest);
      OutcomesGrow(rest, os[|os| - 1]);
      assert os == rest + [os[|os| - 1]];
    }
  }

  /** A state some interleaving of the steps leads to. */
  ghost predicate Reachable(s: State) {
    exists capacity: int, es: seq<Event> :: Run(Start(capacity), es) && After(Start(capacity), es) == s
  }

  lemma ReachableInv(s: State)
    requires Reachable(s)
    ensures Inv(s)
  {
    hide Inv, Run, After, Start;
    var capacity: int, es: seq<Event> :| Run(Start(capacity), es) && After(Start(capacity), es) == s;
    StartInv(capacity);
    RunKeeps(Start(capacity), es);
  }

  lemma PendingBound(s: State, k: Sink)
    requires Coherent(s) && Balanced(s, k)
    ensures Led(s, k).pending >= 0
  {
    hide For, Succeeded, ItemsOf;
    if s.lock.Queued? {
      ForSnoc([], s.lock.item, k);
      if s.queue != [] {
        var n := |s.queue| - 1;
        assert s.queue == s.queue[..n] + [s.queue[n]];
        ForSnoc(s.queue[..n], s.queue[n], k);
      }
    }
  }

  /**
   * Under every interleaving, the calls of write_record answered for a sink are accounted for: pending,
   * saved, failed or rejected, and no count is negative.
   */
  lemma Conservation(s: State, k: Sink)
    requires Reachable(s)
    ensures var l := Led(s, k);
      |For(ItemsOf(s.answers), k)| == l.pending + l.saved + l.failed + l.rejected && l.pending >= 0
  {
    hide Reachable, Fresh, InOrder, For, Succeeded, ItemsOf, Part, Awaits, Attempted;
    ReachableInv(s);
    PendingBound(s, k);
  }

  lemma {:induction false} ForAppend(a: seq<Item>, b: seq<Item>, k: Sink)
    ensures For(a + b, k) == For(a, k) + For(b, k)
  {
    if b == [] {
      assert a + b == a;
    } else {
      var n := |b| - 1;
      assert (a + b)[..|a + b| - 1] == a + b[..n];
      ForAppend(a, b[..n], k);
    }
  }

  /** What was admitted for k: the items tried on it, then the one in hand if not tried yet, then the queue. */
  lemma TriedThenWaiting(s: State, k: Sink)
    requires Coherent(s) && Balanced(s, k)
    ensures For(s.admitted, k)
      == ItemsOf(Led(s, k).tries) + Part(!Attempted(s.worker, k), Hand(s.worker), k) + For(s.queue, k)
  {
    hide Succeeded, ItemsOf, Awaits, Attempted, Fresh, For;
    ForAppend(s.done + Hand(s.worker), s.queue, k);
    ForAppend(s.done, Hand(s.worker), k);
  }

  /** The files follow the admissions: writes are tried in admission order, each at most once. */
  lemma FilesFollowAdmission(s: State, k: Sink)
    requires Reachable(s)
    ensures ItemsOf(Led(s, k).tries) <= For(s.admitted, k)
  {
    hide Reachable, Coherent, Balanced, For, ItemsOf, Part, Attempted;
    ReachableInv(s);
    TriedThenWaiting(s, k);
  }

  /** Every record write_record said True to is in the file of each sink it was meant for, in that order. */
  ghost predicate AllSaved(s: State) {
    && Succeeded(s.jsonl.tries) == For(Succeeded(s.answers), Jsonl)
    && Succeeded(s.vtt.tries) == For(Succeeded(s.answers), Vtt)
  }

  lemma NothingWaits(s: State, k: Sink)
    requires Inv(s) && Drained(s) && !s.lock.Queued?
    ensures For(s.queue, k) == [] && Part(!Attempted(s.worker, k), Hand(s.worker), k) == []
    ensures !(s.worker.Completing? && s.worker.k == k)
  {
    hide Succeeded, ItemsOf, For, Fresh, InOrder;
    DrainedMeansEmpty(s);
    ForNone(k);
    if Hand(s.worker) != [] {
      ForSnoc([], s.worker.item, k);
    }
  }

  /** With nothing pending and nobody inside write_record, everything admitted has been tried. */
  lemma DrainedMeansTried(s: State, k: Sink)
    requires Inv(s) && Drained(s) && !s.lock.Queued?
    ensures ItemsOf(Led(s, k).tries) == For(Succeeded(s.answers), k)
    ensures Succeeded(Led(s, k).tries) == For(Succeeded(s.answers), k)
      <==> Led(s, k).failed == 0
  {
    hide Succeeded, ItemsOf, For, Fresh, InOrder, Attempted, Part, Hand;
    NothingWaits(s, k);
    assert s.admitted == Succeeded(s.answers);
    TriedThenWaiting(s, k);
    AllSucceeded(Led(s, k).tries);
    assert ItemsOf(Led(s, k).tries) + [] + [] == ItemsOf(Led(s, k).tries);
  }

  /** What stop() answers once it has joined the worker. */
  predicate StopAnswer(s: State) {
    Drained(s) && s.error == None
  }

  /**
   * Where stop() reads the books, it answers True exactly when no failure was signalled and every
   * admitted record is in every file it was meant for. Records that raced with the stop flag count too.
   */
  lemma StopExact(s: State)
    requires Reachable(s) && Can(s, StopCheck)
    ensures StopAnswer(s) <==> s.error == None && AllSaved(s)
  {
    hide Reachable, Fresh, InOrder, For, Succeeded, ItemsOf, Part, Attempted;
    ReachableInv(s);
    if StopAnswer(s) {
      DrainedMeansTried(s, Jsonl);
      DrainedMeansTried(s, Vtt);
    } else if s.error == None && AllSaved(s) {
      SavedMeansDrained(s, Jsonl);
      SavedMeansDrained(s, Vtt);
    }
  }

  lemma SavedMeansDrained(s: State, k: Sink)
    requires Inv(s) && Can(s, StopCheck) && Succeeded(Led(s, k).tries) == For(Succeeded(s.answers), k)
    ensures Led(s, k).pending == 0
  {
    hide Fresh, InOrder, For, Succeeded, ItemsOf;
    assert s.admitted == Succeeded(s.answers);
    TriedThenWaiting(s, k);
    AllSucceeded(Led(s, k).tries);
    ForNone(k);
  }

  /**
   * Once some stop() has answered True, every record for which write_record ever answered True is saved
   * on each of its sinks in admission order, and this stays so whatever happens afterwards.
   */
  lemma CleanStop(s: State)
    requires Reachable(s) && s.clean
    ensures AllSaved(s) && s.queue == [] && s.stopping
  {
    hide Reachable, Fresh, InOrder, For, Succeeded, ItemsOf, Part, Attempted;
    ReachableInv(s);
    DrainedMeansTried(s, Jsonl);
    DrainedMeansTried(s, Vtt);
  }

  lemma {:induction false} NothingAfterCleanStop(s: State, es: seq<Event>)
    requires Inv(s) && s.clean && Run(s, es)
    ensures After(s, es).admitted == s.admitted && After(s, es).clean
    decreases |es|
  {
    hide Fresh, InOrder, For, Succeeded, ItemsOf, Part, Attempted, Balanced;
    if es != [] {
      StepKeeps(s, es[0]);
      NothingAfterCleanStop(Do(s, es[0]), es[1..]);
    }
  }

  // ------------------------------------------------------------------ the worker empties the queue before it leaves

  /** What a step puts in the queue. */
  function PutBy(s: State, e: Event): seq<Item>
    requires Can(s, e)
  {
    if e.Put? && |s.queue| < s.capacity then [s.lock.item] else []
  }

  /** What a run puts in the queue after the worker has left. */
  function PutAfterExit(s: State, es: seq<Event>): seq<Item>
    requires Run(s, es)
    decreases |es|
  {
    if es == [] then []
    else (if s.worker == Exited then PutBy(s, es[0]) else []) + PutAfterExit(Do(s, es[0]), es[1..])
  }

  lemma StepExit(s: State, e: Event)
    requires Can(s, e)
    ensures s.worker == Exited ==> Do(s, e).worker == Exited && Do(s, e).queue == s.queue + PutBy(s, e)
    ensures s.worker != Exited && Do(s, e).worker == Exited ==> Do(s, e).queue == []
  {
    hide RejectIn, AdmitIn, CompleteIn;
  }

  /** Once the worker has left, the queue is exactly what was put in it since. */
  lemma {:induction false} ExitedQueue(s: State, es: seq<Event>)
    requires Run(s, es)
    ensures After(s, es).worker == Exited ==>
              After(s, es).queue == (if s.worker == Exited then s.queue else []) + PutAfterExit(s, es)
    decreases |es|
  {
    hide Do, Can, PutBy;
    if es != [] {
      StepExit(s, es[0]);
      ExitedQueue(Do(s, es[0]), es[1..]);
    }
  }

  lemma DrainedIffEmpty(s: State)
    requires Inv(s) && Can(s, StopCheck)
    ensures Drained(s) <==> s.queue == []
  {
    hide Fresh, InOrder, For, Succeeded, ItemsOf, Offers, Tries, Counted;
    ForNone(Jsonl);
    ForNone(Vtt);
    if Drained(s) {
      DrainedMeansEmpty(s);
    }
  }

  /**
   * Where stop() reads the books it answers True exactly when no failure was signalled and nothing was
   * put in the queue after the worker had left: every record queued before has been dealt with.
   */
  lemma StopSucceedsIff(capacity: int, es: seq<Event>)
    requires Run(Start(capacity), es) && Can(After(Start(capacity), es), StopCheck)
    ensures var s := After(Start(capacity), es);
      StopAnswer(s) <==> s.error == None && PutAfterExit(Start(capacity), es) == []
  {
    hide Inv, Run, After, PutAfterExit, Drained;
    StartInv(capacity);
    RunKeeps(Start(capacity), es);
    ExitedQueue(Start(capacity), es);
    DrainedIffEmpty(After(Start(capacity), es));
    assert [] + PutAfterExit(Start(capacity), es) == PutAfterExit(Start(capacity), es);
  }

  /** The one step the worker can take, its writes going through. */
  function WorkerStep(s: State): Event
    requires s.worker != Exited
  {
    match s.worker
    case Top => Loop
    case SawStop => LookEmpty
    case Getting => Get
    case Writing(_, _) => Write(true)
    case Completing(_, _, _) => Complete
    case Signalling(_, _) => SignalStorage
    case Exited => Loop
  }

  predicate OfWorker(e: Event) {
    e.Loop? || e.LookEmpty? || e.Get? || e.Write? || e.Complete? || e.SignalStorage?
  }

  /** How far the worker is from leaving, once the stop flag is set. */
  function Distance(s: State): nat {
    10 * |s.queue|
    + match s.worker
      case Exited => 0
      case SawStop => 1
      case Top => 2
      case Getting => if s.queue == [] then 3 else 0
      case Signalling(_, k) => if k == Vtt then 3 else 6
      case Completing(_, k, _) => if k == Vtt then 4 else 7
      case Writing(_, k) => if k == Vtt then 5 else 8
  }

  predicate Failing(w: Worker) {
    w.Signalling? || (w.Completing? && !w.ok)
  }

  lemma WorkerStepNearer(s: State)
    requires s.stopping && s.lock == Free && s.worker != Exited
    ensures Can(s, WorkerStep(s))
    ensures var t := Do(s, WorkerStep(s));
      && t.stopping && t.lock == Free && Distance(t) < Distance(s)
      && (!Failing(s.worker) ==> t.error == s.error && !Failing(t.worker))
  {
    hide CompleteIn, Led;
  }

  /** After the stop flag is set, the worker left to itself empties the queue and leaves. */
  lemma {:induction false} WorkerDrains(s: State) returns (es: seq<Event>)
    requires s.stopping && s.lock == Free && s.worker != Exited
    ensures Run(s, es) && (forall e | e in es :: OfWorker(e))
    ensures After(s, es).worker == Exited && After(s, es).queue == [] && After(s, es).lock == Free
    ensures After(s, es).stopping && (!Failing(s.worker) ==> After(s, es).error == s.error)
    decreases Distance(s)
  {
    hide Do, Can;
    var e := WorkerStep(s);
    WorkerStepNearer(s);
    var t := Do(s, e);
    StepExit(s, e);
    if t.worker == Exited {
      es := [e];
      assert [e][1..] == [];
    } else {
      var rest := WorkerDrains(t);
      es := [e] + rest;
      assert es[1..] == rest;
    }
  }

  /** So an ordinary stop() succeeds: from every state without a failure the worker gets it there alone. */
  lemma StopCompletes(s: State) returns (es: seq<Event>)
    requires Inv(s) && s.stopping && s.lock == Free && s.worker != Exited
    requires s.error == None && !Failing(s.worker)
    ensures Run(s, es) && (forall e | e in es :: OfWorker(e))
    ensures Can(After(s, es), StopCheck) && StopAnswer(After(s, es))
  {
    hide Inv, Run, After, Drained, Do;
    es := WorkerDrains(s);
    RunKeeps(s, es);
    DrainedIffEmpty(After(s, es));
  }

  /**
   * Whether stop() answers True is what gets recorded, by it alone. With work pending, or out of time, the
   * caller owes a signal until it is given.
   */
  lemma StopRecorded(s: State, e: Event)
    requires Can(s, e)
    ensures Do(s, e).clean <==> s.clean || (e.StopCheck? && StopAnswer(s))
    ensures Do(s, e).drainOwed == s.drainOwed + (if e.DrainTimedOut? || (e.StopCheck? && !Drained(s)) then 1 else 0)
                                  - (if e.SignalDrain? then 1 else 0)
  {
    hide RejectIn, AdmitIn, CompleteIn;
  }

  // ------------------------------------------------------------------ admission and failure codes

  lemma StepBounded(s: State, e: Event)
    requires Can(s, e) && |s.queue| <= s.capacity
    ensures |Do(s, e).queue| <= Do(s, e).capacity == s.capacity
  {
    hide RejectIn, AdmitIn, CompleteIn;
  }

  lemma {:induction false} RunBounded(s: State, es: seq<Event>)
    requires Run(s, es) && |s.queue| <= s.capacity
    ensures |After(s, es).queue| <= After(s, es).capacity == s.capacity
    decreases |es|
  {
    hide Do, Can;
    if es != [] {
      StepBounded(s, es[0]);
      RunBounded(Do(s, es[0]), es[1..]);
    }
  }

  /** The queue never holds more than the capacity asked for, which is raised to 1. */
  lemma QueueBounded(capacity: int, es: seq<Event>)
    requires Run(Start(capacity), es)
    ensures |After(Start(capacity), es).queue| <= if capacity > 1 then capacity else 1
  {
    RunBounded(Start(capacity), es);
  }

  /** One uninterrupted call of write_record. */
  function Call(s: State, x: Item): State
    requires s.lock == Free && Targeted(x)
  {
    var checked := Checked(s.(lock := Held(x)));
    if checked.lock == Free then checked
    else
      var put := TriedPut(checked);
      if put.lock == Free then put else Accounted(put)
  }

  lemma CallIsRun(s: State, x: Item) returns (es: seq<Event>)
    requires s.lock == Free && Targeted(x)
    ensures Run(s, es) && After(s, es) == Call(s, x)
  {
    hide Reject, Accounted;
    var held := s.(lock := Held(x));
    if s.stopping || s.error != None {
      es := [Acquire(x), Check];
      assert es[1..] == [Check] && [Check][1..] == [];
      RejectFrees(held);
    } else if |s.queue| >= s.capacity {
      es := [Acquire(x), Check, Put];
      assert es[1..] == [Check, Put] && [Check, Put][1..] == [Put] && [Put][1..] == [];
      RejectFrees(Checked(held));
    } else {
      es := [Acquire(x), Check, Put, Account];
      assert es[1..] == [Check, Put, Account] && [Check, Put, Account][1..] == [Put, Account];
      assert [Put, Account][1..] == [Account] && [Account][1..] == [];
    }
  }

  lemma RejectFrees(s: State)
    requires s.lock.Held? || s.lock.Cleared?
    ensures Reject(s, s.lock.item).lock == Free
  {
  }

  /**
   * write_record answers True exactly when the writer is not stopping, no failure was signalled and there
   * is room; then the record is the last in the queue and pending on each of its sinks, else it is
   * counted as rejected on each of them and a signal is owed.
   */
  lemma CallAnswers(s: State, x: Item)
    requires s.lock == Free && Targeted(x)
    ensures var t, ok := Call(s, x), !s.stopping && s.error == None && |s.queue| < s.capacity;
      && t.lock == Free && t.answers == s.answers + [Outcome(x, ok)]
      && t.queue == s.queue + (if ok then [x] else []) && t.fullOwed == s.fullOwed + (if ok then 0 else 1)
      && t.jsonl.pending == s.jsonl.pending + (if ok && x.toJsonl then 1 else 0)
      && t.vtt.pending == s.vtt.pending + (if ok && x.toVtt then 1 else 0)
      && t.jsonl.rejected == s.jsonl.rejected + (if !ok && x.toJsonl then 1 else 0)
      && t.vtt.rejected == s.vtt.rejected + (if !ok && x.toVtt then 1 else 0)
  {
  }

  /** The first failure signalled is the one kept, under its own code. */
  lemma FirstFailureKept(s: State, e: Event)
    requires Can(s, e)
    ensures Do(s, e).error
      == if s.error != None then s.error
         else match e
              case SignalFull => Some(QueueFull)
              case SignalStorage => Some(StorageError)
              case SignalDrain => Some(DrainTimeout)
              case _ => None
  {
    hide RejectIn, AdmitIn, CompleteIn;
  }

  // ------------------------------------------------------------------ flush() and the worker's last signal

  /** What flush() answers when it finds nothing pending. */
  predicate FlushAnswer(s: State) {
    s.error == None
  }

  /**
   * flush() reads the books between two steps of the worker. When it answers True, everything admitted
   * is saved if and only if no sink counts a failure, which a caller can read off outcomes(). The only
   * moment in which one does is when the worker is just about to signal a failed write.
   */
  lemma FlushExact(s: State)
    requires Reachable(s) && s.lock == Free && Drained(s) && FlushAnswer(s)
    ensures AllSaved(s) <==> s.jsonl.failed == 0 && s.vtt.failed == 0
    ensures AllSaved(s) <==> !s.worker.Signalling?
  {
    hide Reachable, Fresh, InOrder, For, Succeeded, ItemsOf, Part, Attempted;
    ReachableInv(s);
    DrainedMeansTried(s, Jsonl);
    DrainedMeansTried(s, Vtt);
  }

  lemma {:induction false} RunSnoc(s: State, es: seq<Event>, e: Event)
    requires Run(s, es) && Can(After(s, es), e)
    ensures Run(s, es + [e]) && After(s, es + [e]) == Do(After(s, es), e)
    decreases |es|
  {
    hide Can, Do;
    if es == [] {
      assert ([] + [e])[1..] == [];
    } else {
      RunSnoc(Do(s, es[0]), es[1..], e);
      assert (es + [e])[1..] == es[1..] + [e];
    }
  }

  lemma ReachStep(s: State, e: Event)
    requires Reachable(s) && Can(s, e)
    ensures Reachable(Do(s, e))
  {
    hide Can, Do, Run, After, Start;
    var capacity: int, es: seq<Event> :| Run(Start(capacity), es) && After(Start(capacity), es) == s;
    RunSnoc(Start(capacity), es, e);
  }

  lemma StartReachable(capacity: int)
    ensures Reachable(Start(capacity))
  {
    assert Run(Start(capacity), []) && After(Start(capacity), []) == Start(capacity);
  }

  lemma Took(s: State, e: Event) returns (t: State)
    requires Reachable(s) && Can(s, e)
    ensures Reachable(t) && t == Do(s, e)
  {
    ReachStep(s, e);
    t := Do(s, e);
  }

  /** The race is real: a reachable state in which flush() answers True and the one admitted record is lost. */
  lemma FlushRace() returns (s: State)
    ensures Reachable(s) && s.lock == Free && Drained(s) && FlushAnswer(s)
    ensures |s.admitted| == 1 && !AllSaved(s)
  {
    hide Reachable, Run, After, For, Succeeded, AllSaved;
    s := Start(1);
    StartReachable(1);
    var x := Item(0, true, false);
    s := Took(s, Acquire(x));
    s := Took(s, Check);
    s := Took(s, Put);
    s := Took(s, Account);
    s := Took(s, Loop);
    s := Took(s, Get);
    s := Took(s, Write(false));
    s := Took(s, Complete);
    FlushExact(s);
  }

  // ------------------------------------------------------------------ after a rejection

  ghost predicate NoneAfterRejection(os: seq<Outcome>) {
    forall i, j | 0 <= i < j < |os| && !os[i].ok :: !os[j].ok
  }

  ghost predicate Rejected(os: seq<Outcome>) {
    exists i :: 0 <= i < |os| && !os[i].ok
  }

  /** The answers given, and the one that is certain because the record is in the queue. */
  function Verdicts(s: State): seq<Outcome> {
    s.answers + if s.lock.Queued? then [Outcome(s.lock.item, true)] else []
  }

  /** A record that finds room while a rejected caller has not signalled yet. */
  predicate Breach(s: State, e: Event) {
    e.Put? && |s.queue| < s.capacity && s.fullOwed > 0
  }

  predicate NoBreach(s: State, es: seq<Event>)
    requires Run(s, es)
    decreases |es|
  {
    es == [] || (!Breach(s, es[0]) && NoBreach(Do(s, es[0]), es[1..]))
  }

  /** A signal is owed only after a rejection, and until an error is set every rejection leaves one owed. */
  ghost predicate Owing(s: State) {
    && (s.fullOwed > 0 ==> Rejected(s.answers))
    && (Rejected(s.answers) && s.error == None ==> s.fullOwed > 0)
  }

  lemma VerdictAdded(os: seq<Outcome>, o: Outcome)
    ensures Rejected(os + [o]) <==> Rejected(os) || !o.ok
    ensures NoneAfterRejection(os + [o]) <==> NoneAfterRejection(os) && (o.ok ==> !Rejected(os))
  {
    var all := os + [o];
    assert all[|os|] == o;
    if i :| 0 <= i < |os| && !os[i].ok {
      assert !all[i].ok;
    }
    if NoneAfterRejection(all) {
      forall i, j | 0 <= i < j < |os| && !os[i].ok
        ensures !os[j].ok
      {
        assert all[i] == os[i] && all[j] == os[j];
      }
    }
  }

  lemma RejectVerdicts(s: State)
    requires s.lock.Held? || s.lock.Cleared?
    ensures var t := Reject(s, s.lock.item);
      Owing(t) && (NoneAfterRejection(Verdicts(t)) <==> NoneAfterRejection(Verdicts(s)))
  {
    hide Rejected, NoneAfterRejection;
    VerdictAdded(s.answers, Outcome(s.lock.item, false));
    assert s.answers + [] == s.answers;
    assert Verdicts(Reject(s, s.lock.item)) == s.answers + [Outcome(s.lock.item, false)];
  }

  lemma PutVerdicts(s: State)
    requires Locked(s) && Owing(s) && s.lock.Cleared?
    ensures var t := TriedPut(s);
      Owing(t) && (NoneAfterRejection(Verdicts(t)) <==> NoneAfterRejection(Verdicts(s)) && !Breach(s, Put))
  {
    hide Rejected, NoneAfterRejection, Reject;
    RejectVerdicts(s);
    VerdictAdded(s.answers, Outcome(s.lock.item, true));
    assert s.answers + [] == s.answers;
  }

  lemma AccountVerdicts(s: State)
    requires Owing(s) && s.lock.Queued?
    ensures var t := Accounted(s); Owing(t) && Verdicts(t) == Verdicts(s)
  {
    hide Rejected;
    VerdictAdded(s.answers, Outcome(s.lock.item, true));
  }

  /** The worker, and whoever stops or flushes, leave write_record's answers alone. */
  lemma OtherVerdicts(s: State, e: Event)
    requires Owing(s) && Can(s, e) && !(e.Check? || e.Put? || e.Account?)
    ensures var t := Do(s, e); Owing(t) && Verdicts(t) == Verdicts(s)
  {
    hide Rejected, CompleteIn;
  }

  lemma StepVerdicts(s: State, e: Event)
    requires Locked(s) && Owing(s) && Can(s, e)
    ensures var t := Do(s, e);
      Owing(t) && (NoneAfterRejection(Verdicts(t)) <==> NoneAfterRejection(Verdicts(s)) && !Breach(s, e))
  {
    hide Rejected, NoneAfterRejection, Reject, TriedPut, Accounted;
    match e
    case Check => RejectVerdicts(s);
    case Put => PutVerdicts(s);
    case Account => AccountVerdicts(s);
    case _ => OtherVerdicts(s, e);
  }

  lemma {:induction false} RunVerdicts(s: State, es: seq<Event>)
    requires Inv(s) && Owing(s) && Run(s, es)
    ensures NoneAfterRejection(Verdicts(After(s, es))) <==> NoneAfterRejection(Verdicts(s)) && NoBreach(s, es)
    decreases |es|
  {
    hide InOrder, Answered, AllTargeted, Locked, Placed, Balanced, Settled, Owing, NoneAfterRejection, Verdicts,
      Breach, Do, Can;
    if es != [] {
      StepKeeps(s, es[0]);
      StepVerdicts(s, es[0]);
      RunVerdicts(Do(s, es[0]), es[1..]);
    }
  }

  /**
   * For every run of any number of producers: no record is admitted after one was rejected, if and only if
   * no record finds room in the queue while a rejected caller still owes its signal.
   */
  lemma RejectionIsFinalIff(capacity: int, es: seq<Event>)
    requires Run(Start(capacity), es)
    ensures NoneAfterRejection(Verdicts(After(Start(capacity), es))) <==> NoBreach(Start(capacity), es)
  {
    hide Run, After, NoBreach;
    StartInv(capacity);
    assert Verdicts(Start(capacity)) == [];
    RunVerdicts(Start(capacity), es);
  }

  /** A run in which write_record is called by one thread: it signals a rejection before it calls again. */
  predicate Solo(s: State, es: seq<Event>)
    requires Run(s, es)
    decreases |es|
  {
    es == [] || ((es[0].Acquire? ==> s.fullOwed == 0) && Solo(Do(s, es[0]), es[1..]))
  }

  lemma SoloStep(s: State, e: Event)
    requires Can(s, e) && (s.lock != Free ==> s.fullOwed == 0) && (e.Acquire? ==> s.fullOwed == 0)
    ensures Do(s, e).lock != Free ==> Do(s, e).fullOwed == 0
  {
    hide CompleteIn, RejectIn, AdmitIn;
  }

  lemma {:induction false} SoloNoBreach(s: State, es: seq<Event>)
    requires (s.lock != Free ==> s.fullOwed == 0) && Run(s, es) && Solo(s, es)
    ensures NoBreach(s, es)
    decreases |es|
  {
    hide Do;
    if es != [] {
      SoloStep(s, es[0]);
      SoloNoBreach(Do(s, es[0]), es[1..]);
    }
  }

  /** With one producer that cannot happen: after a rejection nothing is admitted, under every interleaving. */
  lemma OneProducer(capacity: int, es: seq<Event>)
    requires Run(Start(capacity), es) && Solo(Start(capacity), es)
    ensures NoneAfterRejection(After(Start(capacity), es).answers)
  {
    hide Run, After, NoBreach, Solo, NoneAfterRejection;
    SoloNoBreach(Start(capacity), es);
    RejectionIsFinalIff(capacity, es);
    var s := After(Start(capacity), es);
    if s.lock.Queued? {
      VerdictAdded(s.answers, Outcome(s.lock.item, true));
    } else {
      assert Verdicts(s) == s.answers;
    }
  }

  /** With two producers one can get in between the other's rejection and its signal. */
  lemma TwoProducers() returns (s: State)
    ensures Reachable(s) && !NoneAfterRejection(s.answers)
  {
    hide Reachable;
    s := Start(1);
    StartReachable(1);
    var x, y, z := Item(0, true, false), Item(1, true, false), Item(2, true, false);
    s := Admitted(s, x);
    s := Took(s, Acquire(y));
    s := Took(s, Check);
    s := Took(s, Put);
    s := Took(s, Loop);
    s := Took(s, Get);
    s := Admitted(s, z);
    assert !s.answers[1].ok && s.answers[2].ok;
  }

  lemma Admitted(s: State, x: Item) returns (t: State)
    requires Reachable(s) && s.lock == Free && !s.stopping && s.error == None && |s.queue| < s.capacity && x.toJsonl
    ensures Reachable(t) && t.lock == Free && t.queue == s.queue + [x] && t.answers == s.answers + [Outcome(x, true)]
    ensures t.capacity == s.capacity && t.stopping == s.stopping && t.error == s.error && t.worker == s.worker
  {
    hide Reachable;
    t := Took(s, Acquire(x));
    t := Took(t, Check);
    t := Took(t, Put);
    t := Took(t, Account);
  }
}
