/**
 LowLevelMonitor: a condition variable made of a mutex, a FIFO of waiters that live on their
 threads' stacks, and one auto-reset event per thread.

 Any number of threads use any number of monitors. A step is one action of one thread; the
 race between a timeout and a signal is the free interleaving of the waiter's event_wait with
 the signaller's dequeue and event_set.
 */
module Monitor {
  import opened Basics

  datatype Status = Ok | Timeout

  /** A waiter node, named by its thread and by the place it took in the queue. */
  datatype Waiter = Waiter(thread: nat, ticket: nat)

  datatype Pc =
    | Running
    | Queued(m: nat, ticket: nat, timed: bool)     // in event_wait, the monitor released
    | Woken(m: nat, ticket: nat, status: Status)   // event_wait has answered, the monitor not yet reacquired
    | Back(m: nat, ticket: nat, status: Status)    // the monitor reacquired
    | Signalling(m: nat, w: Waiter)                // a waiter dequeued and flagged, its event not yet set
    | Releasing(m: nat)                            // the end of Signal_Release

  /** `event` is the thread's auto-reset event, `signaled` the flag of its current waiter node. */
  datatype Thread = Thread(pc: Pc, event: bool, signaled: bool)

  /** `queue` is the list from head to tail. `tickets` counts the waits begun, `signals` the signals that found
      a waiter, `returned` the waits that returned 1. */
  datatype Mon = Mon(owner: Option<nat>, queue: seq<Waiter>, tickets: nat, signals: nat, returned: nat)

  datatype State = State(threads: seq<Thread>, monitors: seq<Mon>)

  datatype Step =
    | Acquire(t: nat, m: nat)
    | Release(t: nat, m: nat)
    | Wait(t: nat, m: nat, timed: bool)
    | EventOk(t: nat)
    | EventTimeout(t: nat)
    | Reacquire(t: nat)
    | Return(t: nat)
    | Signal(t: nat, m: nat)
    | SetEvent(t: nat)
    | EndSignal(t: nat)

  predicate InWait(pc: Pc) { pc.Queued? || pc.Woken? || pc.Back? }

  ghost predicate Owns(s: State, t: nat, m: nat) { m < |s.monitors| && s.monitors[m].owner == Some(t) }

  ghost predicate Addressed(s: State) {
    forall t :: 0 <= t < |s.threads| ==>
      match s.threads[t].pc
      case Running => true
      case Signalling(m, w) => m < |s.monitors| && w.thread < |s.threads|
      case _ => s.threads[t].pc.m < |s.monitors|
  }

  ghost predicate Enabled(s: State, step: Step)
    requires Addressed(s)
  {
    && step.t < |s.threads|
    && match step
       case Acquire(t, m) => s.threads[t].pc.Running? && m < |s.monitors| && s.monitors[m].owner == None
       case Release(t, m) => s.threads[t].pc.Running? && Owns(s, t, m)
       case Wait(t, m, _) => s.threads[t].pc.Running? && Owns(s, t, m)
       case EventOk(t) => s.threads[t].pc.Queued? && s.threads[t].event
       case EventTimeout(t) => s.threads[t].pc.Queued? && s.threads[t].pc.timed
       case Reacquire(t) => s.threads[t].pc.Woken? && s.monitors[s.threads[t].pc.m].owner == None
       case Return(t) => s.threads[t].pc.Back?
       case Signal(t, m) => s.threads[t].pc.Running? && Owns(s, t, m)
       case SetEvent(t) => s.threads[t].pc.Signalling?
       case EndSignal(t) => s.threads[t].pc.Releasing?
  }

  function Put(s: State, t: nat, thread: Thread): State
    requires t < |s.threads|
  {
    s.(threads := s.threads[t := thread])
  }

  function PutMon(s: State, m: nat, mon: Mon): State
    requires m < |s.monitors|
  {
    s.(monitors := s.monitors[m := mon])
  }

  /** The end of monitor_wait with the monitor held. */
  function Returned(s: State, t: nat): State
    requires Addressed(s) && t < |s.threads| && s.threads[t].pc.Back?
  {
    var thread := s.threads[t];
    var m := thread.pc.m;
    var mon := s.monitors[m];
    if thread.signaled then
      // after a timeout the signaller's event_set is still in the event and is taken back here
      Put(PutMon(s, m, mon.(returned := mon.returned + 1)), t,
          thread.(pc := Running, event := if thread.pc.status == Ok then thread.event else false))
    else
      Put(PutMon(s, m, mon.(queue := Without(mon.queue, Waiter(t, thread.pc.ticket)))), t, thread.(pc := Running))
  }

  function Signalled(s: State, t: nat, m: nat): State
    requires t < |s.threads| && m < |s.monitors|
    requires forall i :: 0 <= i < |s.monitors[m].queue| ==> s.monitors[m].queue[i].thread < |s.threads|
  {
    var mon := s.monitors[m];
    if mon.queue == [] then Put(s, t, s.threads[t].(pc := Releasing(m)))
    else
      var w := mon.queue[0];
      var flagged := s.threads[w.thread := s.threads[w.thread].(signaled := true)];
      State(flagged[t := flagged[t].(pc := Signalling(m, w))],
            s.monitors[m := mon.(queue := mon.queue[1..], signals := mon.signals + 1)])
  }

  function Apply(s: State, step: Step): State
    requires Addressed(s) && Enabled(s, step)
    requires forall m, i :: 0 <= m < |s.monitors| && 0 <= i < |s.monitors[m].queue| ==>
      s.monitors[m].queue[i].thread < |s.threads|
  {
    var thread := s.threads[step.t];
    match step
    case Acquire(t, m) => PutMon(s, m, s.monitors[m].(owner := Some(t)))
    case Release(t, m) => PutMon(s, m, s.monitors[m].(owner := None))
    case Wait(t, m, timed) =>
      var mon := s.monitors[m];
      var k := mon.tickets;
      Put(PutMon(s, m, mon.(owner := None, queue := mon.queue + [Waiter(t, k)], tickets := k + 1)), t,
          thread.(pc := Queued(m, k, timed), signaled := false))
    case EventOk(t) => Put(s, t, thread.(pc := Woken(thread.pc.m, thread.pc.ticket, Ok), event := false))
    case EventTimeout(t) => Put(s, t, thread.(pc := Woken(thread.pc.m, thread.pc.ticket, Timeout)))
    case Reacquire(t) =>
      var m := thread.pc.m;
      Put(PutMon(s, m, s.monitors[m].(owner := Some(t))), t, thread.(pc := Back(m, thread.pc.ticket, thread.pc.status)))
    case Return(t) => Returned(s, t)
    case Signal(t, m) => Signalled(s, t, m)
    case SetEvent(t) =>
      var u := thread.pc.w.thread;
      var rung := s.threads[u := s.threads[u].(event := true)];
      s.(threads := rung[t := rung[t].(pc := Releasing(thread.pc.m))])
    case EndSignal(t) =>
      var m := thread.pc.m;
      Put(PutMon(s, m, s.monitors[m].(owner := None)), t, thread.(pc := Running))
  }

  ghost predicate Initial(s: State) {
    && (forall t :: 0 <= t < |s.threads| ==> s.threads[t] == Thread(Running, false, false))
    && (forall m :: 0 <= m < |s.monitors| ==> s.monitors[m] == Mon(None, [], 0, 0, 0))
  }

  // ---- the invariant -------------------------------------------------------------------------

  /** The waits on `m` that a signal has dequeued and that have not returned yet. */
  function Pending(threads: seq<Thread>, m: nat): nat {
    if threads == [] then 0
    else Pending(threads[..|threads| - 1], m) + One(threads[|threads| - 1], m)
  }

  function One(thread: Thread, m: nat): nat {
    if InWait(thread.pc) && thread.pc.m == m && thread.signaled then 1 else 0
  }

  /** A signaller is about to set the event of `t`. */
  ghost predicate BeingSet(s: State, t: nat, m: nat, ticket: nat) {
    exists u :: 0 <= u < |s.threads| && s.threads[u].pc == Signalling(m, Waiter(t, ticket))
  }

  ghost predicate ThreadOk(s: State, t: nat)
    requires t < |s.threads|
  {
    var thread := s.threads[t];
    match thread.pc
    case Running => !thread.event
    case Queued(m, k, _) => WaitOk(s, t, m, k) && (thread.event ==> thread.signaled)
      && (thread.signaled ==> thread.event || BeingSet(s, t, m, k))
    case Woken(m, k, status) => WaitOk(s, t, m, k) && AnswerOk(s, t, m, k, status)
    case Back(m, k, status) => WaitOk(s, t, m, k) && AnswerOk(s, t, m, k, status) && Owns(s, t, m)
    case Signalling(m, w) =>
      && !thread.event && Owns(s, t, m) && w.thread < |s.threads|
      && var u := s.threads[w.thread];
         && (u.pc.Queued? || (u.pc.Woken? && u.pc.status == Timeout)) && u.pc.m == m && u.pc.ticket == w.ticket
         && u.signaled && !u.event
    case Releasing(m) => !thread.event && Owns(s, t, m)
  }

  /** A waiter is in the queue until a signal takes it out, which is what `signaled` says. */
  ghost predicate WaitOk(s: State, t: nat, m: nat, ticket: nat)
    requires t < |s.threads|
  {
    && m < |s.monitors| && ticket < s.monitors[m].tickets
    && (s.threads[t].signaled <==> Waiter(t, ticket) !in s.monitors[m].queue)
  }

  /** OK is the answer only to a signal, and leaves the event clear; after a timeout a signaled waiter's event is
      set, or about to be. */
  ghost predicate AnswerOk(s: State, t: nat, m: nat, ticket: nat, status: Status)
    requires t < |s.threads|
  {
    var thread := s.threads[t];
    && (status == Ok ==> thread.signaled && !thread.event)
    && (thread.event ==> thread.signaled)
    && (status == Timeout && thread.signaled ==> thread.event || BeingSet(s, t, m, ticket))
  }

  /** The queue is in the order the waits began, and every node in it belongs to a wait in progress. */
  ghost predicate QueueOk(s: State, m: nat)
    requires m < |s.monitors|
  {
    var queue := s.monitors[m].queue;
    && Ordered(queue)
    && (forall i :: 0 <= i < |queue| ==> NodeOk(s, m, queue[i]))
  }

  ghost predicate NodeOk(s: State, m: nat, w: Waiter)
    requires m < |s.monitors|
  {
    && w.thread < |s.threads| && w.ticket < s.monitors[m].tickets
    && InWait(s.threads[w.thread].pc) && s.threads[w.thread].pc.m == m && s.threads[w.thread].pc.ticket == w.ticket
    && !s.threads[w.thread].signaled
  }

  ghost predicate ConservedAt(s: State, m: nat)
    requires m < |s.monitors|
  {
    s.monitors[m].signals == s.monitors[m].returned + Pending(s.threads, m)
  }

  ghost predicate Inv(s: State) {
    && Addressed(s)
    && (forall t :: 0 <= t < |s.threads| ==> ThreadOk(s, t))
    && (forall m :: 0 <= m < |s.monitors| ==> QueueOk(s, m) && ConservedAt(s, m))
  }

  ghost predicate Next(s: State, s': State) {
    Ready(s) && exists step :: Enabled(s, step) && s' == Apply(s, step)
  }

  /** What Apply needs to be defined. */
  ghost predicate Ready(s: State) {
    && Addressed(s)
    && (forall m, i :: 0 <= m < |s.monitors| && 0 <= i < |s.monitors[m].queue| ==>
         s.monitors[m].queue[i].thread < |s.threads|)
  }

  lemma InvReady(s: State)
    requires Inv(s)
    ensures Ready(s)
  {
    forall m, i | 0 <= m < |s.monitors| && 0 <= i < |s.monitors[m].queue|
      ensures s.monitors[m].queue[i].thread < |s.threads|
    {
      assert QueueOk(s, m);
      assert NodeOk(s, m, s.monitors[m].queue[i]);
    }
  }

  // ---- counting ----------------------------------------------------------------------------------

  lemma {:induction false} PendingUpdate(threads: seq<Thread>, t: nat, thread: Thread, m: nat)
    requires t < |threads|
    ensures Pending(threads[t := thread], m) == Pending(threads, m) - One(threads[t], m) + One(thread, m)
  {
    var last := |threads| - 1;
    if t == last {
      assert threads[t := thread][..last] == threads[..last];
    } else {
      PendingUpdate(threads[..last], t, thread, m);
      assert threads[t := thread][..last] == threads[..last][t := thread];
    }
  }

  lemma {:induction false} PendingNone(threads: seq<Thread>, m: nat)
    requires forall t :: 0 <= t < |threads| ==> !InWait(threads[t].pc)
    ensures Pending(threads, m) == 0
  {
    if threads != [] { PendingNone(threads[..|threads| - 1], m); }
  }

  lemma InitialInv(s: State)
    requires Initial(s)
    ensures Inv(s)
  {
    forall m | 0 <= m < |s.monitors| ensures ConservedAt(s, m) { PendingNone(s.threads, m); }
  }

  // ---- steps ----------------------------------------------------------------------------------------

  lemma OwnerSteps(s: State, step: Step)
    requires Inv(s) && Ready(s) && Enabled(s, step) && (step.Acquire? || step.Release?)
    ensures Inv(Apply(s, step))
  {
    var s' := Apply(s, step);
    forall t | 0 <= t < |s'.threads| ensures ThreadOk(s', t) { assert ThreadOk(s, t); }
    forall m | 0 <= m < |s'.monitors| ensures QueueOk(s', m) && ConservedAt(s', m) {
      assert QueueOk(s, m) && ConservedAt(s, m);
    }
  }

  lemma WaitThreads(s: State, t: nat, m: nat, timed: bool, u: nat)
    requires Inv(s) && Ready(s) && Enabled(s, Wait(t, m, timed)) && u < |s.threads|
    ensures ThreadOk(Apply(s, Wait(t, m, timed)), u)
  {
    var s' := Apply(s, Wait(t, m, timed));
    assert ThreadOk(s, t) && ThreadOk(s, u);
    KeptSignallers(s, s', t);
  }

  lemma WaitMonitors(s: State, t: nat, m: nat, timed: bool, n: nat)
    requires Inv(s) && Ready(s) && Enabled(s, Wait(t, m, timed)) && n < |s.monitors|
    ensures QueueOk(Apply(s, Wait(t, m, timed)), n) && ConservedAt(Apply(s, Wait(t, m, timed)), n)
  {
    var s' := Apply(s, Wait(t, m, timed));
    assert ThreadOk(s, t) && QueueOk(s, n) && ConservedAt(s, n);
    PendingUpdate(s.threads, t, s'.threads[t], n);
    forall i | 0 <= i < |s'.monitors[n].queue| ensures NodeOk(s', n, s'.monitors[n].queue[i]) {
      if i < |s.monitors[n].queue| { assert NodeOk(s, n, s.monitors[n].queue[i]); }
    }
    forall i | 0 <= i < |s.monitors[n].queue| ensures s.monitors[n].queue[i].ticket < s.monitors[n].tickets {
      assert NodeOk(s, n, s.monitors[n].queue[i]);
    }
  }

  lemma WaitStep(s: State, t: nat, m: nat, timed: bool)
    requires Inv(s) && Ready(s) && Enabled(s, Wait(t, m, timed))
    ensures Inv(Apply(s, Wait(t, m, timed)))
  {
    var s' := Apply(s, Wait(t, m, timed));
    forall u | 0 <= u < |s'.threads| ensures ThreadOk(s', u) { WaitThreads(s, t, m, timed, u); }
    forall n | 0 <= n < |s'.monitors| ensures QueueOk(s', n) && ConservedAt(s', n) { WaitMonitors(s, t, m, timed, n); }
  }

  /** A step of a thread that is not a signaller leaves every signaller where it is. */
  lemma KeptSignallers(s: State, s': State, t: nat)
    requires t < |s.threads| == |s'.threads| && !s.threads[t].pc.Signalling?
    requires forall u :: 0 <= u < |s.threads| && u != t ==> s'.threads[u].pc == s.threads[u].pc
    ensures forall x: nat, m: nat, k: nat :: BeingSet(s, x, m, k) ==> BeingSet(s', x, m, k)
  {
    forall x: nat, m: nat, k: nat | BeingSet(s, x, m, k) ensures BeingSet(s', x, m, k) {
      var u :| 0 <= u < |s.threads| && s.threads[u].pc == Signalling(m, Waiter(x, k));
      assert s'.threads[u].pc == Signalling(m, Waiter(x, k));
    }
  }

  lemma EventSteps(s: State, step: Step)
    requires Inv(s) && Ready(s) && Enabled(s, step) && (step.EventOk? || step.EventTimeout? || step.Reacquire?)
    ensures Inv(Apply(s, step))
  {
    var s' := Apply(s, step);
    var t := step.t;
    assert ThreadOk(s, t);
    KeptSignallers(s, s', t);
    forall u | 0 <= u < |s'.threads| ensures ThreadOk(s', u) {
      assert ThreadOk(s, u);
    }
    forall n | 0 <= n < |s'.monitors| ensures QueueOk(s', n) && ConservedAt(s', n) {
      assert QueueOk(s, n) && ConservedAt(s, n);
      PendingUpdate(s.threads, t, s'.threads[t], n);
      forall i | 0 <= i < |s'.monitors[n].queue| ensures NodeOk(s', n, s'.monitors[n].queue[i]) {
        assert NodeOk(s, n, s.monitors[n].queue[i]);
      }
    }
  }

  /** The queue after a return is the queue before, less the returning waiter if it was still there. */
  lemma ReturnQueue(s: State, t: nat)
    requires Inv(s) && Ready(s) && Enabled(s, Return(t))
    ensures var m := s.threads[t].pc.m; var queue' := Returned(s, t).monitors[m].queue;
      && (forall x :: x in queue' <==> x in s.monitors[m].queue && x != Waiter(t, s.threads[t].pc.ticket))
      && Ordered(queue')
  {
    var m := s.threads[t].pc.m;
    var w := Waiter(t, s.threads[t].pc.ticket);
    assert ThreadOk(s, t) && QueueOk(s, m);
    QueueNoDup(s, m);
    WithoutMembers(s.monitors[m].queue, w);
    WithoutOrdered(s.monitors[m].queue, w);
  }

  lemma ReturnThreads(s: State, t: nat, u: nat)
    requires Inv(s) && Ready(s) && Enabled(s, Return(t)) && u < |s.threads|
    ensures ThreadOk(Returned(s, t), u)
  {
    var s' := Returned(s, t);
    assert ThreadOk(s, t) && ThreadOk(s, u);
    KeptSignallers(s, s', t);
    NoSignaller(s, t);
    ReturnQueue(s, t);
  }

  lemma ReturnMonitors(s: State, t: nat, n: nat)
    requires Inv(s) && Ready(s) && Enabled(s, Return(t)) && n < |s.monitors|
    ensures QueueOk(Returned(s, t), n) && ConservedAt(Returned(s, t), n)
  {
    var s' := Returned(s, t);
    assert ThreadOk(s, t) && QueueOk(s, n) && ConservedAt(s, n);
    ReturnQueue(s, t);
    PendingUpdate(s.threads, t, s'.threads[t], n);
    forall i | 0 <= i < |s'.monitors[n].queue| ensures NodeOk(s', n, s'.monitors[n].queue[i]) {
      var w := s'.monitors[n].queue[i];
      assert w in s'.monitors[n].queue;
      assert w in s.monitors[n].queue;
      assert NodeOk(s, n, w);
    }
  }

  lemma ReturnStep(s: State, t: nat)
    requires Inv(s) && Ready(s) && Enabled(s, Return(t))
    ensures Inv(Returned(s, t))
  {
    var s' := Returned(s, t);
    forall u | 0 <= u < |s'.threads| ensures ThreadOk(s', u) { ReturnThreads(s, t, u); }
    forall n | 0 <= n < |s'.monitors| ensures QueueOk(s', n) && ConservedAt(s', n) { ReturnMonitors(s, t, n); }
  }

  lemma QueueNoDup(s: State, m: nat)
    requires m < |s.monitors| && QueueOk(s, m)
    ensures NoDup(s.monitors[m].queue)
  {
  }

  ghost predicate Ordered(queue: seq<Waiter>) {
    forall i, j :: 0 <= i < j < |queue| ==> queue[i].ticket < queue[j].ticket
  }

  lemma {:induction false} WithoutOrdered(queue: seq<Waiter>, w: Waiter)
    requires Ordered(queue)
    ensures Ordered(Without(queue, w))
  {
    if queue != [] {
      assert Ordered(queue[1..]);
      if queue[0] != w {
        var r := Without(queue[1..], w);
        WithoutOrdered(queue[1..], w);
        WithoutFrom(queue[1..], w);
        forall j | 0 <= j < |r| ensures queue[0].ticket < r[j].ticket {
          assert r[j] in queue[1..];
        }
        assert Without(queue, w) == [queue[0]] + r;
      }
    }
  }

  lemma {:induction false} WithoutFrom<T>(s: seq<T>, x: T)
    ensures forall i :: 0 <= i < |Without(s, x)| ==> Without(s, x)[i] in s
  {
    if s != [] && s[0] != x { WithoutFrom(s[1..], x); }
  }

  lemma SignalThreads(s: State, t: nat, m: nat, u: nat)
    requires Inv(s) && Ready(s) && Enabled(s, Signal(t, m)) && s.monitors[m].queue != [] && u < |s.threads|
    ensures ThreadOk(Signalled(s, t, m), u)
  {
    var s' := Signalled(s, t, m);
    var w := s.monitors[m].queue[0];
    assert ThreadOk(s, t) && QueueOk(s, m) && NodeOk(s, m, w) && ThreadOk(s, w.thread) && ThreadOk(s, u);
    KeptSignallers(s, s', t);
    assert s'.threads[t].pc == Signalling(m, Waiter(w.thread, w.ticket));
    assert BeingSet(s', w.thread, m, w.ticket);
    NotHead(s, m, u);
  }

  lemma SignalMonitors(s: State, t: nat, m: nat, n: nat)
    requires Inv(s) && Ready(s) && Enabled(s, Signal(t, m)) && s.monitors[m].queue != [] && n < |s.monitors|
    ensures QueueOk(Signalled(s, t, m), n) && ConservedAt(Signalled(s, t, m), n)
  {
    var s' := Signalled(s, t, m);
    var w := s.monitors[m].queue[0];
    assert QueueOk(s, m) && NodeOk(s, m, w) && QueueOk(s, n) && ConservedAt(s, n);
    var flagged := s.threads[w.thread := s.threads[w.thread].(signaled := true)];
    PendingUpdate(s.threads, w.thread, flagged[w.thread], n);
    PendingUpdate(flagged, t, s'.threads[t], n);
    forall i | 0 <= i < |s'.monitors[n].queue| ensures NodeOk(s', n, s'.monitors[n].queue[i]) {
      var j := if n == m then i + 1 else i;
      assert NodeOk(s, n, s.monitors[n].queue[j]);
    }
  }

  lemma SignalStep(s: State, t: nat, m: nat)
    requires Inv(s) && Ready(s) && Enabled(s, Signal(t, m)) && s.monitors[m].queue != []
    ensures Inv(Signalled(s, t, m))
  {
    var s' := Signalled(s, t, m);
    assert QueueOk(s, m) && NodeOk(s, m, s.monitors[m].queue[0]);
    forall u | 0 <= u < |s'.threads| ensures ThreadOk(s', u) { SignalThreads(s, t, m, u); }
    forall n | 0 <= n < |s'.monitors| ensures QueueOk(s', n) && ConservedAt(s', n) { SignalMonitors(s, t, m, n); }
  }

  /** Taking the head out of the queue affects the membership of no other waiter. */
  lemma NotHead(s: State, m: nat, u: nat)
    requires m < |s.monitors| && s.monitors[m].queue != [] && QueueOk(s, m)
    ensures forall k: nat :: Waiter(u, k) != s.monitors[m].queue[0] ==>
      (Waiter(u, k) in s.monitors[m].queue <==> Waiter(u, k) in s.monitors[m].queue[1..])
    ensures s.monitors[m].queue[0] !in s.monitors[m].queue[1..]
  {
    var queue := s.monitors[m].queue;
    assert queue == [queue[0]] + queue[1..];
  }

  lemma EmptySignalStep(s: State, t: nat, m: nat)
    requires Inv(s) && Ready(s) && Enabled(s, Signal(t, m)) && s.monitors[m].queue == []
    ensures Inv(Signalled(s, t, m))
  {
    var s' := Signalled(s, t, m);
    assert ThreadOk(s, t);
    KeptSignallers(s, s', t);
    forall u | 0 <= u < |s'.threads| ensures ThreadOk(s', u) { assert ThreadOk(s, u); }
    forall n | 0 <= n < |s'.monitors| ensures QueueOk(s', n) && ConservedAt(s', n) {
      assert QueueOk(s, n) && ConservedAt(s, n);
      PendingUpdate(s.threads, t, s'.threads[t], n);
      forall i | 0 <= i < |s'.monitors[n].queue| ensures NodeOk(s', n, s'.monitors[n].queue[i]) {
        assert NodeOk(s, n, s.monitors[n].queue[i]);
      }
    }
  }

  lemma SetEventThreads(s: State, t: nat, u: nat)
    requires Inv(s) && Ready(s) && Enabled(s, SetEvent(t)) && u < |s.threads|
    ensures ThreadOk(Apply(s, SetEvent(t)), u)
  {
    var s' := Apply(s, SetEvent(t));
    var w := s.threads[t].pc.w;
    assert ThreadOk(s, t) && ThreadOk(s, w.thread) && ThreadOk(s, u);
    if s.threads[u].pc.Signalling? { OneSignaller(s, t, u); }
    if u != w.thread { OtherSignallers(s, s', t, u); }
  }

  /** Two signallers never have the same waiter in hand. */
  lemma OneSignaller(s: State, t: nat, u: nat)
    requires Inv(s) && t < |s.threads| && u < |s.threads| && s.threads[t].pc.Signalling? && s.threads[u].pc.Signalling?
    ensures t == u || s.threads[t].pc.w.thread != s.threads[u].pc.w.thread
  {
    assert ThreadOk(s, t) && ThreadOk(s, u);
  }

  lemma SetEventMonitors(s: State, t: nat, n: nat)
    requires Inv(s) && Ready(s) && Enabled(s, SetEvent(t)) && n < |s.monitors|
    ensures QueueOk(Apply(s, SetEvent(t)), n) && ConservedAt(Apply(s, SetEvent(t)), n)
  {
    var s' := Apply(s, SetEvent(t));
    var w := s.threads[t].pc.w;
    assert ThreadOk(s, t) && QueueOk(s, n) && ConservedAt(s, n);
    var rung := s.threads[w.thread := s.threads[w.thread].(event := true)];
    PendingUpdate(s.threads, w.thread, rung[w.thread], n);
    PendingUpdate(rung, t, s'.threads[t], n);
    forall i | 0 <= i < |s'.monitors[n].queue| ensures NodeOk(s', n, s'.monitors[n].queue[i]) {
      assert NodeOk(s, n, s.monitors[n].queue[i]);
    }
  }

  lemma SetEventStep(s: State, t: nat)
    requires Inv(s) && Ready(s) && Enabled(s, SetEvent(t))
    ensures Inv(Apply(s, SetEvent(t)))
  {
    var s' := Apply(s, SetEvent(t));
    forall u | 0 <= u < |s'.threads| ensures ThreadOk(s', u) { SetEventThreads(s, t, u); }
    forall n | 0 <= n < |s'.monitors| ensures QueueOk(s', n) && ConservedAt(s', n) { SetEventMonitors(s, t, n); }
  }

  lemma OtherSignallers(s: State, s': State, t: nat, x: nat)
    requires t < |s.threads| == |s'.threads| && s.threads[t].pc.Signalling? && s.threads[t].pc.w.thread != x
    requires forall u :: 0 <= u < |s.threads| && u != t ==> s'.threads[u].pc == s.threads[u].pc
    ensures forall m: nat, k: nat :: BeingSet(s, x, m, k) ==> BeingSet(s', x, m, k)
  {
    forall m: nat, k: nat | BeingSet(s, x, m, k) ensures BeingSet(s', x, m, k) {
      var u :| 0 <= u < |s.threads| && s.threads[u].pc == Signalling(m, Waiter(x, k));
      assert s'.threads[u].pc == Signalling(m, Waiter(x, k));
    }
  }

  lemma EndSignalStep(s: State, t: nat)
    requires Inv(s) && Ready(s) && Enabled(s, EndSignal(t))
    ensures Inv(Apply(s, EndSignal(t)))
  {
    var s' := Apply(s, EndSignal(t));
    assert ThreadOk(s, t);
    KeptSignallers(s, s', t);
    forall u | 0 <= u < |s'.threads| ensures ThreadOk(s', u) { assert ThreadOk(s, u); }
    forall n | 0 <= n < |s'.monitors| ensures QueueOk(s', n) && ConservedAt(s', n) {
      assert QueueOk(s, n) && ConservedAt(s, n);
      PendingUpdate(s.threads, t, s'.threads[t], n);
      forall i | 0 <= i < |s'.monitors[n].queue| ensures NodeOk(s', n, s'.monitors[n].queue[i]) {
        assert NodeOk(s, n, s.monitors[n].queue[i]);
      }
    }
  }

  lemma StepKeepsInv(s: State, step: Step)
    requires Inv(s) && Ready(s) && Enabled(s, step)
    ensures Inv(Apply(s, step))
  {
    match step
    case Acquire(_, _) => OwnerSteps(s, step);
    case Release(_, _) => OwnerSteps(s, step);
    case Wait(t, m, timed) => WaitStep(s, t, m, timed);
    case EventOk(_) => EventSteps(s, step);
    case EventTimeout(_) => EventSteps(s, step);
    case Reacquire(_) => EventSteps(s, step);
    case Return(t) => ReturnStep(s, t);
    case Signal(t, m) => if s.monitors[m].queue == [] { EmptySignalStep(s, t, m); } else { SignalStep(s, t, m); }
    case SetEvent(t) => SetEventStep(s, t);
    case EndSignal(t) => EndSignalStep(s, t);
  }

  // ---- runs --------------------------------------------------------------------------------------------

  ghost predicate IsRun(run: seq<State>) {
    && |run| > 0 && Initial(run[0])
    && (forall i :: 0 <= i < |run| - 1 ==> Linked(run, i))
  }

  ghost predicate Linked(run: seq<State>, i: int)
    requires 0 <= i < |run| - 1
  {
    Next(run[i], run[i + 1])
  }

  /** Every state of a run satisfies the invariant, and the steps are defined there: `Next` cuts no run short. */
  lemma {:induction false} RunInv(run: seq<State>, i: nat)
    requires IsRun(run) && i < |run|
    ensures Inv(run[i]) && Ready(run[i])
    decreases i
  {
    if i == 0 {
      InitialInv(run[0]);
    } else {
      RunInv(run, i - 1);
      assert Linked(run, i - 1);
      var step :| Ready(run[i - 1]) && Enabled(run[i - 1], step) && run[i] == Apply(run[i - 1], step);
      StepKeepsInv(run[i - 1], step);
    }
    InvReady(run[i]);
  }

  /** The race is harmless: a thread's event is set only while its current wait has been signaled and the set not
      yet consumed; so every wait starts with a clear event, and an answered event means a signal. */
  lemma EventsMeanSignals(run: seq<State>, i: nat, t: nat)
    requires IsRun(run) && i < |run| && t < |run[i].threads|
    ensures var thread := run[i].threads[t];
      && (thread.event ==> InWait(thread.pc) && thread.signaled)
      && (thread.pc.Running? ==> !thread.event)
      && ((thread.pc.Woken? || thread.pc.Back?) && thread.pc.status == Ok ==> thread.signaled && !thread.event)
      && (thread.pc.Back? && thread.signaled && thread.pc.status == Timeout ==> thread.event)
  {
    var s := run[i];
    RunInv(run, i);
    assert ThreadOk(s, t);
    if s.threads[t].pc.Back? { NoSignaller(s, t); }
  }

  /** While a thread holds the monitor it waited on, nobody is halfway through a signal on it. */
  lemma NoSignaller(s: State, t: nat)
    requires Inv(s) && t < |s.threads| && s.threads[t].pc.Back?
    ensures !BeingSet(s, t, s.threads[t].pc.m, s.threads[t].pc.ticket)
  {
    var m := s.threads[t].pc.m;
    assert ThreadOk(s, t);
    forall u | 0 <= u < |s.threads| ensures s.threads[u].pc != Signalling(m, Waiter(t, s.threads[t].pc.ticket)) {
      assert ThreadOk(s, u);
    }
  }

  /** A wait returns 1 exactly when a signal has taken its node out of the queue; one that returns 0 was still
      queued and takes out exactly itself. Either way the event is clear and no node of the thread is left. */
  lemma WaitIsExact(s: State, t: nat)
    requires Inv(s) && Ready(s) && Enabled(s, Return(t))
    ensures var pc := s.threads[t].pc; var m := pc.m; var w := Waiter(t, pc.ticket); var s' := Apply(s, Return(t));
      && (s.threads[t].signaled <==> w !in s.monitors[m].queue)
      && s'.monitors[m].returned == s.monitors[m].returned + (if w in s.monitors[m].queue then 0 else 1)
      && (forall x :: x in s'.monitors[m].queue <==> x in s.monitors[m].queue && x != w)
      && s'.threads[t].pc.Running? && !s'.threads[t].event && s'.monitors[m].owner == Some(t)
  {
    var m := s.threads[t].pc.m;
    assert ThreadOk(s, t) && QueueOk(s, m);
    QueueNoDup(s, m);
    WithoutMembers(s.monitors[m].queue, Waiter(t, s.threads[t].pc.ticket));
    ReturnStep(s, t);
    assert ThreadOk(Apply(s, Return(t)), t);
  }

  /** Signals are conserved: each that found a waiter is a wait that returned 1, or one still on its way out. */
  lemma SignalsAreConserved(run: seq<State>, i: nat, m: nat)
    requires IsRun(run) && i < |run| && m < |run[i].monitors|
    ensures run[i].monitors[m].signals == run[i].monitors[m].returned + Pending(run[i].threads, m)
  {
    RunInv(run, i);
    assert ConservedAt(run[i], m);
  }

  /** A signal takes the waiter that has been queued longest, and only that one; the rest keep their order. */
  lemma SignalsAreFifo(s: State, t: nat, m: nat)
    requires Inv(s) && Ready(s) && Enabled(s, Signal(t, m)) && s.monitors[m].queue != []
    ensures var w := s.monitors[m].queue[0]; var s' := Apply(s, Signal(t, m));
      && (forall x :: x in s.monitors[m].queue && x != w ==> w.ticket < x.ticket)
      && s.monitors[m].queue == [w] + s'.monitors[m].queue
      && s'.threads[w.thread].signaled
      && (forall u :: 0 <= u < |s.threads| && u != w.thread ==> s'.threads[u].signaled == s.threads[u].signaled)
  {
    assert QueueOk(s, m);
    assert NodeOk(s, m, s.monitors[m].queue[0]);
  }

  /** No node is reachable from a monitor once its monitor_wait has returned: whoever is in a queue, or about to be
      woken by a signaller, is in the very wait that made the node. */
  lemma NodesAreLive(run: seq<State>, i: nat, m: nat, w: Waiter)
    requires IsRun(run) && i < |run| && m < |run[i].monitors|
    requires w in run[i].monitors[m].queue
      || exists t :: 0 <= t < |run[i].threads| && run[i].threads[t].pc == Signalling(m, w)
    ensures w.thread < |run[i].threads|
    ensures var pc := run[i].threads[w.thread].pc; InWait(pc) && pc.m == m && pc.ticket == w.ticket
  {
    var s := run[i];
    RunInv(run, i);
    if w in s.monitors[m].queue {
      assert QueueOk(s, m) && NodeOk(s, m, w);
    } else {
      var t :| 0 <= t < |s.threads| && s.threads[t].pc == Signalling(m, w);
      assert ThreadOk(s, t);
    }
  }
}
