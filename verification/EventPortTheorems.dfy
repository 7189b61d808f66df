/**
 The theorems about the descriptor table and the event ports, over every run of any number
 of threads.
 */
module EventPortTheorems {
  import opened Basics
  import opened EventPortModel
  import opened EventPortInvariant
  import opened EventPortFrames
  import opened EventPortLifeSteps
  import opened EventPortListSteps
  import opened EventPortScan
  import opened EventPortWaiterSteps
  import opened EventPortStepping

  /** A run of the system whose callers keep the two disciplines. */
  ghost predicate IsRun(run: seq<State>) {
    && |run| > 0 && Initial(run[0])
    && (forall i :: 0 <= i < |run| - 1 ==> Linked(run, i))
  }

  ghost predicate Linked(run: seq<State>, i: int)
    requires 0 <= i < |run| - 1
  {
    Next(run[i], run[i + 1])
  }

  /** Every state of a run satisfies the invariant, and the steps are defined there: `Next` cuts no run short. */
  lemma {:induction false} RunInv(run: seq<State>, i: nat)
    requires IsRun(run) && i < |run|
    ensures Inv(run[i]) && Addressed(run[i])
    decreases i
  {
    if i == 0 {
      InitialInv(run[0]);
    } else {
      RunInv(run, i - 1);
      assert Linked(run, i - 1);
      NextKeepsInv(run[i - 1], run[i]);
    }
    Reachables(run[i]);
  }

  // ---- no readiness edge is lost -------------------------------------------------------------------------

  /** Thread `t` is, or is about to be, asleep in the poll of port `p`. */
  ghost predicate Polls(s: State, t: nat, p: nat) {
    t < |s.threads| && s.threads[t].Do? && s.threads[t].task.Poll? && s.threads[t].task.owner == p
  }

  /** Some thread has changed the table and still owes the wake of port `p`. */
  ghost predicate OwesWake(s: State, p: nat) {
    exists u :: 0 <= u < |s.threads| && StackTally(s.threads[u], Owe(p)) > 0
  }

  lemma {:induction false} SomeoneHolds(threads: seq<Stack>, tag: Tag)
    requires Tally(threads, tag) > 0
    ensures exists u :: 0 <= u < |threads| && StackTally(threads[u], tag) > 0
  {
    var last := |threads| - 1;
    if StackTally(threads[last], tag) == 0 {
      SomeoneHolds(threads[..last], tag);
      var u :| 0 <= u < last && StackTally(threads[..last][u], tag) > 0;
      assert StackTally(threads[u], tag) > 0;
    }
  }

  /** In every reachable state, whatever is left to learn about a registered socket (a direction asked for and
      not delivered, an error, a hang-up) is asked about by the sleeping waiter's poll, or its sleep is cut
      short: a wake is pending on the port's channel, or a thread that changed the table still owes it. */
  lemma NoEdgeIsLost(run: seq<State>, i: nat, t: nat, p: nat, o: nat, d: Condition)
    requires IsRun(run) && i < |run| && Polls(run[i], t, p)
    requires o < |run[i].objs| && run[i].objs[o].reg.port == Some(p) && run[i].objs[o].kind == Socket
    requires d in Needs(run[i].objs[o].reg)
    ensures var s := run[i]; var task := s.threads[t].task;
      && |task.requested| == |task.objects| && p < |s.objs|
      && (Asks(task.objects, task.requested, o, d) || TargetOf(s.objs, p) in s.pending || OwesWake(s, p))
  {
    var s := run[i];
    RunInv(run, i);
    TaskReady(s, t);
    assert MemberAt(s.objs, o);
    if Tally(s.threads, Owe(p)) > 0 { SomeoneHolds(s.threads, Owe(p)); }
    if !Coming(s, p) { assert SocketSeen(s.objs, s.threads[t].task, o); }
  }

  /** The same for a registered pipe that is ready in a direction asked for and not delivered: the round already
      has an event to return, or the pipe's reader still has to notify, or a wake is pending or owed. Only a
      caller that lends no room for a single event can miss it. */
  lemma NoPipeEdgeIsLost(run: seq<State>, i: nat, t: nat, p: nat, o: nat)
    requires IsRun(run) && i < |run| && Polls(run[i], t, p)
    requires o < |run[i].objs| && run[i].objs[o].reg.port == Some(p) && run[i].objs[o].kind == Pipe
    requires PipeFresh(run[i].objs[o]) != {} && run[i].threads[t].task.room > 0
    ensures var s := run[i];
      && p < |s.objs|
      && (s.threads[t].task.buffer != [] || TargetOf(s.objs, p) in s.pending || OwesWake(s, p)
          || exists u :: 0 <= u < |s.threads| && StackTally(s.threads[u], Notifies(o)) > 0)
  {
    var s := run[i];
    RunInv(run, i);
    TaskReady(s, t);
    assert MemberAt(s.objs, o);
    if Tally(s.threads, Owe(p)) > 0 { SomeoneHolds(s.threads, Owe(p)); }
    if Tally(s.threads, Notifies(o)) > 0 { SomeoneHolds(s.threads, Notifies(o)); }
    if !Coming(s, p) { assert PipeSeen(s, s.threads[t].task, o); }
  }

  // ---- references, descriptors and destruction -----------------------------------------------------------

  /** What the table promises about object `o`. */
  ghost predicate Accounted(s: State, o: nat)
    requires o < |s.objs|
  {
    var made := Tally(s.threads, Made(o));
    var pins := Tally(s.threads, Pin(o));
    var slots := Slots(s.table, o);
    && s.objs[o].frees <= 1 && made <= 1
    && (made == 1 ==> slots == 0 && pins == 0)
    && (s.objs[o].frees == 0 ==> s.objs[o].descriptors == slots + made && s.objs[o].references == slots + pins + made)
    && (s.objs[o].frees == 0 && s.objs[o].references == 0 <==> Tally(s.threads, Doom(o)) == 1)
    && (s.objs[o].frees == 1 ==> slots == 0 && pins == 0 && made == 0 && Tally(s.threads, Doom(o)) == 0)
    && (o < 3 ==> s.objs[o].frees == 0 && s.objs[o].references >= 1)
  }

  /** descriptors counts the table slots and references the slots plus the pins (plus one for the creator of an
      object not yet installed); at zero exactly one thread has the duty to destroy it; once destroyed no slot
      names it and no thread pins it; the three standard streams are never destroyed. */
  lemma EveryObjectIsAccounted(run: seq<State>, i: nat, o: nat)
    requires IsRun(run) && i < |run| && o < |run[i].objs|
    ensures Accounted(run[i], o)
  {
    RunInv(run, i);
    assert Ledger(run[i], o);
    StreamSlots(run[i]);
  }

  /** How one step may change an object. */
  ghost predicate StepEffect(s: State, step: Step, o: nat)
    requires Addressed(s) && Enabled(s, step) && o < |s.objs|
  {
    var s' := Apply(s, step);
    && o < |s'.objs|
    && s'.objs[o].frees == s.objs[o].frees
         + One(step.Go? && (s.threads[step.t].task == Discard(o)
                            || (s.threads[step.t].task == Destroy(o) && s.objs[o].kind != Stream)))
    && (s'.objs[o].reg.reported <= s.objs[o].reg.reported || ReportsAbout(s, step, o))
  }

  /** The step is a critical section of a waiter that may mark something about `o` as reported. */
  ghost predicate ReportsAbout(s: State, step: Step, o: nat)
    requires Addressed(s) && Enabled(s, step)
  {
    step.Go? && (s.threads[step.t].task.Snapshot?
                 || (s.threads[step.t].task.Convert? && s.threads[step.t].task.objects != []
                     && s.threads[step.t].task.objects[0] == o))
  }

  lemma CallEffect(s: State, step: Step, o: nat)
    requires Lists(s.objs) && Addressed(s) && Enabled(s, step) && o < |s.objs| && !step.Go?
    ensures StepEffect(s, step, o)
  {
    if step.Close? {
      if 3 <= step.fd < MAX_FD && s.table[step.fd].Some? { CloseAt(s, step.fd, o); }
    } else if step.Use? || step.BeginClosePort? || step.BeginRegister? || step.BeginWait? {
      PinEffect(s, step, o);
    } else if step.WouldBlock? || step.PipeFill? || step.PipeDrain? {
      UseEffect(s, step, o);
    }
  }

  lemma PinEffect(s: State, step: Step, o: nat)
    requires Addressed(s) && Enabled(s, step) && o < |s.objs|
    requires step.Use? || step.BeginClosePort? || step.BeginRegister? || step.BeginWait?
    ensures StepEffect(s, step, o)
  {
    var objs := Apply(s, step).objs;
    assert objs == s.objs || exists x :: 0 <= x < |s.objs| && objs == AddReference(s.objs, x);
  }

  lemma UseEffect(s: State, step: Step, o: nat)
    requires Addressed(s) && Enabled(s, step) && o < |s.objs|
    requires step.WouldBlock? || step.PipeFill? || step.PipeDrain?
    ensures StepEffect(s, step, o)
  {
  }

  lemma GoEffect(s: State, t: nat, o: nat)
    requires Inv(s) && Addressed(s) && Enabled(s, Go(t)) && o < |s.objs|
    ensures StepEffect(s, Go(t), o)
  {
    assert StackOk(s.objs, s.threads[t], true);
    var task := s.threads[t].task;
    if task.Discard? || task.Destroy? {
      FreedAt(s, task.o, o);
      FreedReported(s, task.o, o);
    } else if task.ClosePort? {
      if 3 <= task.fd && s.table[task.fd].Some? { CloseAt(s, task.fd, o); }
    } else if task.RegisterLock? {
      RegisterEffect(s, t, o);
    } else if task.Snapshot? {
      SnapshotEffect(s, t, o);
    } else {
      PlainEffect(s, t, o);
    }
  }

  lemma SnapshotEffect(s: State, t: nat, o: nat)
    requires Addressed(s) && Enabled(s, Go(t)) && o < |s.objs| && s.threads[t].task.Snapshot?
    ensures StepEffect(s, Go(t), o)
  {
    var task := s.threads[t].task;
    var port := s.objs[task.owner].self;
    ScanAt(s.objs, port.registered, Min(port.capacity, MAX_POLL), task.room, [], [], [], o);
  }

  lemma RegisterEffect(s: State, t: nat, o: nat)
    requires Lists(s.objs) && Addressed(s) && Enabled(s, Go(t)) && o < |s.objs|
    requires TaskOk(s.objs, s.threads[t].task) && s.threads[t].task.RegisterLock?
    ensures StepEffect(s, Go(t), o)
  {
    var task := s.threads[t].task;
    if Register(s, task.owner, task.o, task.events, task.data).Some? {
      RegisterAt(s, task.owner, task.o, task.events, task.data, o);
    }
  }

  /** The steps that change at most one object, and not its destruction. */
  lemma PlainEffect(s: State, t: nat, o: nat)
    requires Addressed(s) && Enabled(s, Go(t)) && o < |s.objs| && TaskOk(s.objs, s.threads[t].task)
    requires var task := s.threads[t].task;
      !task.Discard? && !task.Destroy? && !task.ClosePort? && !task.RegisterLock? && !task.Snapshot?
    ensures StepEffect(s, Go(t), o)
  {
    var task := s.threads[t].task;
    if task.Convert? && task.objects != [] {
      assert Advance(s, t).objs
          == ConvertOne(s.objs, task.owner, task.room, task.objects[0], task.triggered[0], task.buffer, task.ok).0;
    }
  }

  lemma FreedReported(s: State, x: nat, o: nat)
    requires x < |s.objs| && o < |s.objs|
    ensures Free(s, x).objs[o].reg.reported <= s.objs[o].reg.reported
  {
  }

  /** An object is destroyed by a thread that holds the duty to do so, and only when nothing refers to it any
      more: its references have reached zero, or it was never installed in the table. */
  lemma DestroyedAtZero(s: State, step: Step, o: nat)
    requires Inv(s) && Addressed(s) && Enabled(s, step) && o < |s.objs|
    ensures o < |Apply(s, step).objs| && s.objs[o].frees <= Apply(s, step).objs[o].frees
    ensures Apply(s, step).objs[o].frees != s.objs[o].frees ==>
      && step.Go? && (s.threads[step.t].task == Destroy(o) || s.threads[step.t].task == Discard(o))
      && s.objs[o].frees == 0 && Slots(s.table, o) == 0 && Tally(s.threads, Pin(o)) == 0
      && (s.objs[o].references == 0 || Tally(s.threads, Made(o)) == 1)
  {
    if step.Go? {
      GoEffect(s, step.t, o);
      assert Ledger(s, o);
      TallyAt(s.threads, step.t, Done, o);
      Unroll(s.threads[step.t]);
    } else {
      CallEffect(s, step, o);
    }
  }

  lemma NextEffect(s: State, s': State, o: nat)
    requires Inv(s) && Next(s, s') && o < |s.objs|
    ensures o < |s'.objs| && s.objs[o].frees <= s'.objs[o].frees
  {
    var step :| Enabled(s, step) && KeepsOpen(s, step) && OutlivesWakes(s, step) && s' == Apply(s, step);
    DestroyedAtZero(s, step, o);
  }

  lemma RunEffect(run: seq<State>, j: nat, o: nat)
    requires IsRun(run) && 0 < j < |run| && o < |run[j - 1].objs|
    ensures o < |run[j].objs| && run[j - 1].objs[o].frees <= run[j].objs[o].frees
  {
    assert Linked(run, j - 1);
    RunInv(run, j - 1);
    NextEffect(run[j - 1], run[j], o);
  }

  /** A destroyed object stays destroyed, unreachable and unpinned for the rest of the run. */
  lemma {:induction false} DestroyedOnce(run: seq<State>, i: nat, j: nat, o: nat)
    requires IsRun(run) && i <= j < |run| && o < |run[i].objs| && run[i].objs[o].frees == 1
    ensures o < |run[j].objs| && run[j].objs[o].frees == 1
    ensures Slots(run[j].table, o) == 0 && Tally(run[j].threads, Pin(o)) == 0
    decreases j
  {
    if i < j {
      DestroyedOnce(run, i, j - 1, o);
      RunEffect(run, j, o);
    }
    EveryObjectIsAccounted(run, j, o);
  }

  // ---- lists, polls and channels ---------------------------------------------------------------------------

  /** The list of a port is duplicate-free, holds exactly the objects registered with it, each with a descriptor,
      and never exceeds what one poll takes. */
  lemma RegisteredListIsExact(run: seq<State>, i: nat, p: nat)
    requires IsRun(run) && i < |run| && p < |run[i].objs|
    ensures var s := run[i]; var list := s.objs[p].self.registered;
      && NoDup(list) && |list| <= MAX_FD <= MAX_POLL
      && (forall o :: o in list <==> 0 <= o < |s.objs| && s.objs[o].reg.port == Some(p))
      && (forall o :: o in list && o < |s.objs| ==> s.objs[o].descriptors >= 1 && s.objs[o].frees == 0)
  {
    var s := run[i];
    RunInv(run, i);
    ListFits(s, p);
    assert ListAt(s.objs, p);
    forall o | 0 <= o < |s.objs| && s.objs[o].reg.port == Some(p) ensures o in s.objs[p].self.registered {
      assert MemberAt(s.objs, o);
    }
    forall o | o in s.objs[p].self.registered && o < |s.objs|
      ensures s.objs[o].descriptors >= 1 && s.objs[o].frees == 0
    {
      assert MemberAt(s.objs, o);
    }
  }

  /** Whatever is closed meanwhile, the port and every socket handed to a poll stay alive until it returns, and the
      poll stays within the boundary's limit. */
  lemma PolledSocketsStayAlive(run: seq<State>, i: nat, t: nat, p: nat)
    requires IsRun(run) && i < |run| && Polls(run[i], t, p)
    ensures var s := run[i]; var objects := s.threads[t].task.objects;
      && |objects| <= MAX_POLL && p < |s.objs| && s.objs[p].frees == 0
      && forall k :: 0 <= k < |objects| ==>
           objects[k] < |s.objs| && s.objs[objects[k]].frees == 0 && s.objs[objects[k]].kind == Socket
  {
    var s := run[i];
    RunInv(run, i);
    TaskReady(s, t);
    var objects := s.threads[t].task.objects;
    PinAlive(s, t, p);
    forall k | 0 <= k < |objects|
      ensures objects[k] < |s.objs| && s.objs[objects[k]].frees == 0 && s.objs[objects[k]].kind == Socket
    {
      assert objects[k] in multiset(objects);
      PinAlive(s, t, objects[k]);
    }
  }

  /** At most one poll is in progress on a channel, as the contract of the sockets group demands. */
  lemma OnePollPerChannel(run: seq<State>, i: nat, t: nat, u: nat, p: nat, q: nat)
    requires IsRun(run) && i < |run| && Polls(run[i], t, p) && Polls(run[i], u, q)
    requires p < |run[i].objs| && q < |run[i].objs| && TargetOf(run[i].objs, p) == TargetOf(run[i].objs, q)
    ensures t == u
  {
    var s := run[i];
    RunInv(run, i);
    if p != q { TargetsDiffer(s, p, q); }
    assert Ledger(s, p);
    if t != u { TallyOfTwo(s.threads, t, u, Waits(p)); }
  }

  /** Each bit of channels_in_use belongs to exactly one port that exists, and each port's channel is in use. */
  lemma ChannelsHaveOneOwner(run: seq<State>, i: nat, c: nat)
    requires IsRun(run) && i < |run|
    ensures var s := run[i];
      c in s.channels <==> exists p :: 0 <= p < |s.objs| && s.objs[p].self.channel == Some(c)
    ensures forall p, q :: 0 <= p < q < |run[i].objs| && run[i].objs[p].self.channel == Some(c) ==>
      run[i].objs[q].self.channel != Some(c)
    ensures forall p :: 0 <= p < |run[i].objs| && run[i].objs[p].self.channel == Some(c) ==>
      c < POLL_CHANNELS && run[i].objs[p].kind == Port && run[i].objs[p].frees == 0
  {
    RunInv(run, i);
    forall p | 0 <= p < |run[i].objs| && run[i].objs[p].self.channel == Some(c)
      ensures run[i].objs[p].kind == Port && run[i].objs[p].frees == 0
    {
      assert ListAt(run[i].objs, p);
    }
  }

  // ---- edges are bounded and faithful ------------------------------------------------------------------------

  /** In one registration there are at most four records more than reported bits were cleared by re-arming or by
      asking for a new direction, and at most one hang-up is converted. */
  lemma EdgesAreBounded(run: seq<State>, i: nat, o: nat)
    requires IsRun(run) && i < |run| && o < |run[i].objs|
    ensures var reg := run[i].objs[o].reg; reg.records <= 4 + reg.cleared && reg.hangups <= 1
  {
    RunInv(run, i);
    var reg := run[i].objs[o].reg;
    assert RegistrationOk(reg);
    SubsetSize(reg.reported, REPORTABLE);
  }

  /** The records the waiter's thread has gathered in its round. */
  function Gathered(stack: Stack): seq<Record> {
    if stack.Done? then []
    else if stack.task.Poll? || stack.task.Convert? then stack.task.buffer
    else if stack.rest.Do? && stack.rest.task.Convert? then stack.rest.task.buffer
    else []
  }

  ghost predicate Carries(buffer: seq<Record>, o: nat, d: Condition) {
    exists k :: 0 <= k < |buffer| && buffer[k].o == o && d in buffer[k].events
  }

  /** The same among the records from position `from` on. */
  ghost predicate CarriesFrom(buffer: seq<Record>, from: nat, o: nat, d: Condition) {
    exists k :: from <= k < |buffer| && buffer[k].o == o && d in buffer[k].events
  }

  /** What a waiter had gathered before a critical section of its round. */
  function Before(task: Task): seq<Record> { if task.Convert? then task.buffer else [] }

  /** The step is a critical section of a waiter, and adds to its buffer a record about `o` that carries `d`. */
  ghost predicate Adds(s: State, step: Step, o: nat, d: Condition)
    requires Addressed(s) && Enabled(s, step)
  {
    && step.Go? && step.t < |Apply(s, step).threads|
    && var task := s.threads[step.t].task;
       && (task.Snapshot? || (task.Convert? && task.objects != []))
       && CarriesFrom(Gathered(Apply(s, step).threads[step.t]), |Before(task)|, o, d)
  }

  lemma {:induction false} ScanCarries(objs: seq<Object>, list: seq<nat>, limit: nat, room: nat,
                                       objects: seq<nat>, requested: seq<set<Condition>>, buffer: seq<Record>,
                                       o: nat, d: Condition)
    requires Within(list, |objs|) && o < |objs| && o < |Scan(objs, list, limit, room, objects, requested, buffer).objs|
    requires d in Scan(objs, list, limit, room, objects, requested, buffer).objs[o].reg.reported
    requires d !in objs[o].reg.reported || Carries(buffer, o, d)
    ensures Carries(Scan(objs, list, limit, room, objects, requested, buffer).buffer, o, d)
    decreases |list|
  {
    if list != [] && |objects| < limit {
      var r := ScanOne(objs, list[0], room, objects, requested, buffer);
      if Carries(buffer, o, d) {
        var k :| 0 <= k < |buffer| && buffer[k].o == o && d in buffer[k].events;
        assert r.buffer[k] == buffer[k];
      } else if d in r.objs[o].reg.reported {
        assert r.buffer[|buffer|].o == o && d in r.buffer[|buffer|].events;
      }
      ScanCarries(r.objs, list[1..], limit, room, r.objects, r.requested, r.buffer, o, d);
    }
  }

  lemma SnapshotCarries(s: State, t: nat, owner: nat, room: nat, rest: Stack, o: nat, d: Condition)
    requires t < |s.threads| && owner < |s.objs| && Within(s.objs[owner].self.registered, |s.objs|) && o < |s.objs|
    requires o < |SnapshotNow(s, t, owner, room, rest).objs|
    requires d in SnapshotNow(s, t, owner, room, rest).objs[o].reg.reported && d !in s.objs[o].reg.reported
    ensures Carries(Gathered(SnapshotNow(s, t, owner, room, rest).threads[t]), o, d)
  {
    var port := s.objs[owner].self;
    ScanCarries(s.objs, port.registered, Min(port.capacity, MAX_POLL), room, [], [], [], o, d);
  }

  lemma ConvertCarries(s: State, t: nat, task: Task, rest: Stack, d: Condition)
    requires t < |s.threads| && task.Convert? && |task.triggered| == |task.objects| && Within(task.objects, |s.objs|)
    requires task.objects != [] && d in DIRECTIONS && d !in s.objs[task.objects[0]].reg.reported
    requires var o := task.objects[0]; var s' := ConvertNow(s, t, task, rest);
      d in s'.objs[o].reg.reported && d in s'.objs[o].reg.events
    ensures CarriesFrom(Gathered(ConvertNow(s, t, task, rest).threads[t]), |task.buffer|, task.objects[0], d)
  {
    var o := task.objects[0];
    var r := ConvertOne(s.objs, task.owner, task.room, o, task.triggered[0], task.buffer, task.ok);
    assert d in Shown(s.objs[o].reg, task.triggered[0]);
    assert r.1[|task.buffer|].o == o && d in r.1[|task.buffer|].events;
  }

  /** A direction that is still asked for is marked as delivered only together with a record that carries it and that
      the same step adds: a full buffer never swallows an edge. */
  lemma ReportedOnlyWithRecord(s: State, step: Step, o: nat, d: Condition)
    requires Inv(s) && Addressed(s) && Enabled(s, step) && o < |s.objs| && d in DIRECTIONS
    requires o < |Apply(s, step).objs| && d in Apply(s, step).objs[o].reg.reported && d !in s.objs[o].reg.reported
    requires d in Apply(s, step).objs[o].reg.events
    ensures Adds(s, step, o, d) && Carries(Gathered(Apply(s, step).threads[step.t]), o, d)
  {
    if step.Go? {
      var t := step.t;
      var task := s.threads[t].task;
      GoEffect(s, t, o);
      if task.Snapshot? {
        SnapshotCarries(s, t, task.owner, task.room, s.threads[t].rest, o, d);
      } else {
        ConvertCarries(s, t, task, s.threads[t].rest, d);
      }
    } else {
      CallEffect(s, step, o);
    }
  }

  // ---- the disciplines are exact -------------------------------------------------------------------------------

  /** The registration keeps the invariant if and only if the object still has a descriptor when the lock is taken. */
  lemma RegistrationNeedsDescriptor(s: State, t: nat)
    requires Inv(s) && Addressed(s) && Enabled(s, Go(t)) && s.threads[t].task.RegisterLock?
    requires var task := s.threads[t].task;
      task.events != {} && Register(s, task.owner, task.o, task.events, task.data).Some?
    ensures Inv(Apply(s, Go(t))) <==> s.objs[s.threads[t].task.o].descriptors >= 1
  {
    var task := s.threads[t].task;
    TaskReady(s, t);
    RegisterAt(s, task.owner, task.o, task.events, task.data, task.o);
    if s.objs[task.o].descriptors >= 1 { StepKeepsInv(s, Go(t)); }
    var s' := Apply(s, Go(t));
    assert s'.objs[task.o].reg.port.Some?;
    if Inv(s') { Described(s'.objs); }
  }

  lemma OwedPortExists(s: State, s': State, t: nat, p: nat)
    requires t < |s.threads| && s.threads[t].Do? && s.threads[t].task == Destroy(p) && p < |s.objs|
    requires s.objs[p].kind == Port
    requires s' == Set(Free(s, p), t, s.threads[t].rest) && OweAt(s', p)
    ensures Tally(s.threads, Owe(p)) == 0
  {
    TallyUpdate(s.threads, t, s.threads[t].rest, Owe(p));
    FreedAt(s, p, p);
  }

  /** Destroying a port keeps the invariant if and only if no thread still owes it a wake. */
  lemma DestructionNeedsNoWake(s: State, t: nat, p: nat)
    requires Inv(s) && t < |s.threads| && s.threads[t].Do? && s.threads[t].task == Destroy(p) && PortAt(s.objs, p)
    ensures Inv(DestroyNow(s, t, p, s.threads[t].rest)) <==> Tally(s.threads, Owe(p)) == 0
  {
    var s' := DestroyNow(s, t, p, s.threads[t].rest);
    if Tally(s.threads, Owe(p)) == 0 { GoFree(s, t, p); }
    if Inv(s') {
      assert Ledger(s', p);
      OwedPortExists(s, s', t, p);
    }
  }
}
