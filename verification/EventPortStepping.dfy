/** Every step of the system keeps the invariant. */
module EventPortStepping {
  import opened Basics
  import opened EventPortModel
  import opened EventPortInvariant
  import opened EventPortFrames
  import opened EventPortTableSteps
  import opened EventPortLifeSteps
  import opened EventPortListSteps
  import opened EventPortSignalSteps
  import opened EventPortScan
  import opened EventPortWaiterSteps

  // ---- one step ------------------------------------------------------------------------------------

  lemma TaskReady(s: State, t: nat)
    requires Inv(s) && t < |s.threads| && s.threads[t].Do?
    ensures TaskOk(s.objs, s.threads[t].task) && RoundOk(s, s.threads[t].task)
    ensures At(s, t)
    ensures StackOk(s.objs, s.threads[t].rest, false)
  {
    assert StackOk(s.objs, s.threads[t], true);
    if s.threads[t].task.Snapshot? { SnapshotList(s, s.threads[t].task.owner); }
  }

  /** Tasks that hold one pin and nothing else. */
  ghost predicate HoldsOnePin(objs: seq<Object>, task: Task, o: nat) {
    && TaskOk(objs, task)
    && (|| task == Using(o) || (task.ClosePort? && task.o == o)
        || (task.RegisterPin? && task.owner == o) || (task.WaitEnter? && task.owner == o))
  }

  lemma OnePinTally(task: Task, o: nat)
    requires task == Using(o) || (task.ClosePort? && task.o == o)
      || (task.RegisterPin? && task.owner == o) || (task.WaitEnter? && task.owner == o)
    ensures forall tag :: StackTally(Do(task, Done), tag) == One(tag == Pin(o))
  {
    Unroll(Do(task, Done));
    Unroll(Done);
  }

  lemma BeginSteps(s: State, t: nat, fd: nat, kinds: set<Kind>, task: Task)
    requires Inv(s) && Addressed(s) && Idle(s, t)
    requires Pinned(s, fd, kinds).Some? ==> HoldsOnePin(s.objs, task, Pinned(s, fd, kinds).value)
    ensures Inv(PinThen(s, t, fd, kinds, task, Done, Done))
  {
    var o := Pinned(s, fd, kinds);
    if o.Some? {
      PinnedSlot(s, fd, kinds);
      OnePinTally(task, o.value);
      Unroll(Done);
      PinStep(s, t, o.value, Do(task, Done));
    } else {
      assert s.threads[t := Done] == s.threads;
    }
  }

  lemma CreateSteps(s: State, t: nat, refused: bool)
    requires Inv(s) && Idle(s, t)
    ensures Inv(NewPort(s, t, refused))
  {
    FirstChannelFinds(s.channels, 0);
    var c := if s.sockets then FirstChannel(s.channels, 0) else None;
    if c == None && (s.sockets || refused) {
      NewStep(s, t, Port, false, Discard(|s.objs|));
    } else {
      NewPortStep(s, t, c);
    }
  }

  lemma DupSteps(s: State, t: nat, fd: nat)
    requires Inv(s) && Addressed(s) && Idle(s, t)
    ensures Inv(DupNow(s, fd))
  {
    FirstFreeFinds(s.table, 3);
    var o := Pinned(s, fd, ANY);
    if o.Some? && FirstFree(s.table, 3).Some? {
      PinnedSlot(s, fd, ANY);
      DupStep(s, t, o.value, FirstFree(s.table, 3).value);
    }
  }

  lemma CloseSteps(s: State, t: nat, fd: nat)
    requires Inv(s) && Addressed(s) && Idle(s, t)
    ensures fd < MAX_FD ==> Inv(CloseNow(s, t, fd, Done))
  {
    if 3 <= fd < MAX_FD && s.table[fd].Some? {
      CloseStep(s, t, fd, Done, None);
    } else {
      assert s.threads[t := Done] == s.threads;
    }
  }

  lemma CallSteps(s: State, step: Step)
    requires Inv(s) && Addressed(s) && Enabled(s, step)
    requires step.Open? || step.CreatePort? || step.Dup? || step.Close?
    ensures Inv(Apply(s, step))
  {
    match step
    case Open(t, kind, writeEnd) => NewStep(s, t, kind, writeEnd, Install(|s.objs|));
    case CreatePort(t, refused) => CreateSteps(s, t, refused);
    case Dup(t, fd) => DupSteps(s, t, fd);
    case Close(t, fd) => CloseSteps(s, t, fd);
  }

  lemma PinningSteps(s: State, step: Step)
    requires Inv(s) && Addressed(s) && Enabled(s, step)
    requires step.Use? || step.BeginClosePort? || step.BeginRegister? || step.BeginWait?
    ensures Inv(Apply(s, step))
  {
    match step
    case Use(t, fd) =>
      var o := Pinned(s, fd, ANY);
      BeginSteps(s, t, fd, ANY, Using(if o.Some? then o.value else 0));
    case BeginClosePort(t, fd) =>
      var o := Pinned(s, fd, {Port});
      BeginSteps(s, t, fd, {Port}, ClosePort(fd, if o.Some? then o.value else 0));
    case BeginRegister(t, port, fd, events, data) =>
      var o := Pinned(s, port, {Port});
      BeginSteps(s, t, port, {Port}, RegisterPin(if o.Some? then o.value else 0, fd, events, data));
    case BeginWait(t, port, room) =>
      var o := Pinned(s, port, {Port});
      BeginSteps(s, t, port, {Port}, WaitEnter(if o.Some? then o.value else 0, room));
  }

  lemma GoEndUse(s: State, t: nat, o: nat)
    requires Inv(s) && t < |s.threads| && s.threads[t].Do? && s.threads[t].task == Using(o)
    ensures Inv(Set(s, t, Do(Unpin(o), s.threads[t].rest)))
  {
    assert StackOk(s.objs, s.threads[t], true);
    Unroll(s.threads[t]);
    Unroll(Do(Unpin(o), s.threads[t].rest));
    MoveStep(s, t, Do(Unpin(o), s.threads[t].rest));
  }

  lemma GoWatchFailed(s: State, t: nat)
    requires Inv(s) && Addressed(s) && t < |s.threads| && s.threads[t].Do? && s.threads[t].task.RegisterLock?
    ensures Inv(Set(s, t, Do(Unpin(s.threads[t].task.o), Do(Unpin(s.threads[t].task.owner), s.threads[t].rest))))
  {
    assert StackOk(s.objs, s.threads[t], true);
    RegisterStack(s, t);
    MoveStep(s, t, Do(Unpin(s.threads[t].task.o), Do(Unpin(s.threads[t].task.owner), s.threads[t].rest)));
  }

  lemma GoOutOfMemory(s: State, t: nat)
    requires Inv(s) && t < |s.threads| && s.threads[t].Do? && s.threads[t].task.Reserve?
    ensures Inv(Set(s, t, Do(Leave(s.threads[t].task.owner), s.threads[t].rest)))
  {
    var stack := Do(Leave(s.threads[t].task.owner), s.threads[t].rest);
    assert StackOk(s.objs, s.threads[t], true);
    Unroll(s.threads[t]);
    Unroll(stack);
    MoveStep(s, t, stack);
  }

  lemma AnswerSteps(s: State, step: Step)
    requires Inv(s) && Addressed(s) && Enabled(s, step)
    requires step.WouldBlock? || step.PipeFill? || step.PipeDrain? || step.EndUse?
      || step.WatchFailed? || step.OutOfMemory? || step.PollReturns?
    ensures Inv(Apply(s, step))
  {
    match step
    case WouldBlock(t, events) => RearmKeeps(s, t, s.threads[t].task.o, events);
    case PipeFill(t) => PipeFillStep(s, t, s.threads[t].task.o);
    case PipeDrain(t) => PipeDrainStep(s, t, s.threads[t].task.o);
    case PollReturns(t, raw, ok, consumed) => PollStep(s, t, raw, ok, consumed);
    case EndUse(t) => GoEndUse(s, t, s.threads[t].task.o);
    case WatchFailed(t) => GoWatchFailed(s, t);
    case OutOfMemory(t) => GoOutOfMemory(s, t);
  }

  /** The thread goes on with a task of the descriptor table. */
  lemma GoTable(s: State, t: nat)
    requires Inv(s) && Addressed(s) && Enabled(s, Go(t)) && KeepsOpen(s, Go(t)) && OutlivesWakes(s, Go(t))
    requires var task := s.threads[t].task;
      task.Install? || task.Discard? || task.Wake? || task.Unpin? || task.Destroy? || task.Notify?
    ensures Inv(Advance(s, t))
  {
    TaskReady(s, t);
    var rest := s.threads[t].rest;
    match s.threads[t].task
    case Install(o) =>
      FirstFreeFinds(s.table, 3);
      if FirstFree(s.table, 3).Some? {
        InstallStep(s, t, o, FirstFree(s.table, 3).value);
      } else {
        Unroll(s.threads[t]);
        Unroll(Do(Discard(o), rest));
        MoveStep(s, t, Do(Discard(o), rest));
      }
    case Discard(o) => GoFree(s, t, o);
    case Destroy(o) => GoFree(s, t, o);
    case Wake(p) => WakeStep(s, t, p);
    case Unpin(o) => UnpinStep(s, t, o);
    case Notify(o) => NotifyStep(s, t, o);
  }

  lemma StreamSlots(s: State)
    requires Streams(s)
    ensures forall o: nat :: o < 3 ==> Slots(s.table, o) >= 1
  {
    forall o: nat | o < 3 ensures Slots(s.table, o) >= 1 { assert s.table[o] in multiset(s.table); }
  }

  lemma EntitledNow(s: State, t: nat, o: nat)
    requires Streams(s) && Ledger(s, o) && t < |s.threads| && s.threads[t].Do? && o < |s.objs|
    requires s.threads[t].task == Discard(o)
      || (s.threads[t].task == Destroy(o) && (s.objs[o].kind == Port ==> Tally(s.threads, Owe(o)) == 0))
    ensures Entitled(s, t, o)
  {
    StreamSlots(s);
    TallyUpdate(s.threads, t, Done, Made(o));
    TallyUpdate(s.threads, t, Done, Doom(o));
  }

  lemma GoFree(s: State, t: nat, o: nat)
    requires Inv(s) && t < |s.threads| && s.threads[t].Do? && o < |s.objs|
    requires s.threads[t].task == Discard(o)
      || (s.threads[t].task == Destroy(o) && (s.objs[o].kind == Port ==> Tally(s.threads, Owe(o)) == 0))
    ensures Inv(Set(Free(s, o), t, s.threads[t].rest)) && s.objs[o].kind != Stream
  {
    assert Ledger(s, o);
    EntitledNow(s, t, o);
    if s.objs[o].kind == Port { FreePortStep(s, t, o); } else { FreePlainStep(s, t, o); }
  }

  /** The thread goes on with a registration or the close of a port. */
  lemma GoRegister(s: State, t: nat)
    requires Inv(s) && Addressed(s) && Enabled(s, Go(t)) && KeepsOpen(s, Go(t))
    requires var task := s.threads[t].task; task.ClosePort? || task.RegisterPin? || task.RegisterLock?
    ensures Inv(Advance(s, t))
  {
    TaskReady(s, t);
    var rest := s.threads[t].rest;
    match s.threads[t].task
    case ClosePort(fd, o) => GoClosePort(s, t, fd, o);
    case RegisterPin(owner, fd, events, data) => GoRegisterPin(s, t, owner, fd, events, data);
    case RegisterLock(owner, o, events, data) =>
      if Register(s, owner, o, events, data).Some? {
        RegisterStep(s, t);
      } else {
        RegisterStack(s, t);
        MoveStep(s, t, Do(Unpin(o), Do(Unpin(owner), rest)));
      }
  }

  lemma ClosePortBase(s: State, t: nat, fd: nat, o: nat)
    requires Ledgers(s) && t < |s.threads| && s.threads[t].Do? && s.threads[t].task == ClosePort(fd, o)
    requires PortAt(s.objs, o)
    ensures CloseBase(s, t, Do(Wake(o), Do(Unpin(o), s.threads[t].rest)), Some(o))
  {
    Unroll(s.threads[t]);
    Unroll(Do(Unpin(o), s.threads[t].rest));
    Unroll(Do(Wake(o), Do(Unpin(o), s.threads[t].rest)));
    PinAlive(s, t, o);
  }

  lemma GoClosePort(s: State, t: nat, fd: nat, o: nat)
    requires Inv(s) && Addressed(s) && t < |s.threads| && s.threads[t].Do? && s.threads[t].task == ClosePort(fd, o)
    requires fd < MAX_FD
    ensures Inv(ClosePortNow(s, t, fd, o, s.threads[t].rest))
  {
    var base := Do(Wake(o), Do(Unpin(o), s.threads[t].rest));
    assert StackOk(s.objs, s.threads[t], true);
    ClosePortBase(s, t, fd, o);
    if 3 <= fd && s.table[fd].Some? {
      CloseStep(s, t, fd, base, Some(o));
    } else {
      PinAlive(s, t, o);
      WakeOnlyStep(s, t, o, base);
    }
  }

  /** Nothing was closed: the thread merely comes to owe a wake to a port it pins. */
  lemma WakeOnlyStep(s: State, t: nat, o: nat, stack: Stack)
    requires Inv(s) && t < |s.threads| && StackOk(s.objs, stack, true) && stack.Do? && Tail(stack.task)
    requires PortAt(s.objs, o) && s.objs[o].frees == 0 && Tally(s.threads, Made(o)) == 0
    requires forall tag :: StackTally(stack, tag) == StackTally(s.threads[t], tag) + One(tag == Owe(o))
    ensures Inv(Set(s, t, stack))
  {
    assert Touched(s.objs, o, s.objs[o].reg, s.objs[o].readable) == s.objs;
    assert MemberAt(s.objs, o);
    forall x: nat ensures Gains(s, t, stack, o, x) { }
    TouchStep(s, Set(s, t, stack), t, o, s.objs[o].reg, s.objs[o].readable, stack);
  }

  lemma RegisterPinStack(s: State, t: nat, owner: nat, fd: nat, events: set<Condition>, data: nat, o: nat)
    requires t < |s.threads| && s.threads[t].Do? && s.threads[t].task == RegisterPin(owner, fd, events, data)
    ensures var rest := s.threads[t].rest;
      && (forall tag :: StackTally(Do(Unpin(owner), rest), tag) == StackTally(s.threads[t], tag))
      && (forall tag :: StackTally(Do(RegisterLock(owner, o, events, data), rest), tag)
            == StackTally(s.threads[t], tag) + One(tag == Pin(o)))
      && (forall tag :: StackTally(Do(Unpin(o), Do(Unpin(owner), rest)), tag)
            == StackTally(s.threads[t], tag) + One(tag == Pin(o)))
  {
    var rest := s.threads[t].rest;
    Unroll(s.threads[t]);
    Unroll(Do(Unpin(owner), rest));
    Unroll(Do(Unpin(o), Do(Unpin(owner), rest)));
    Unroll(Do(RegisterLock(owner, o, events, data), rest));
  }

  lemma GoRegisterPin(s: State, t: nat, owner: nat, fd: nat, events: set<Condition>, data: nat)
    requires Inv(s) && Addressed(s) && t < |s.threads| && s.threads[t].Do?
    requires s.threads[t].task == RegisterPin(owner, fd, events, data)
    ensures Inv(RegisterPinNow(s, t, owner, fd, events, data, s.threads[t].rest))
  {
    var rest := s.threads[t].rest;
    var o := Pinned(s, fd, ANY);
    assert StackOk(s.objs, s.threads[t], true);
    if o == None {
      RegisterPinStack(s, t, owner, fd, events, data, 0);
      MoveStep(s, t, Do(Unpin(owner), rest));
    } else {
      RegisterPinStack(s, t, owner, fd, events, data, o.value);
      PinnedSlot(s, fd, ANY);
      PinStep(s, t, o.value,
              if s.objs[o.value].kind in {Socket, Pipe} then Do(RegisterLock(owner, o.value, events, data), rest)
              else Do(Unpin(o.value), Do(Unpin(owner), rest)));
    }
  }

  /** The waiter goes on with its round. */
  lemma GoWait(s: State, t: nat)
    requires Inv(s) && Addressed(s) && Enabled(s, Go(t))
    requires var task := s.threads[t].task;
      task.WaitEnter? || task.Count? || task.Reserve? || task.Snapshot? || task.Convert? || task.Leave?
    ensures Inv(Advance(s, t))
  {
    TaskReady(s, t);
    var task := s.threads[t].task;
    if task.WaitEnter? {
      GoWaitEnter(s, t, task.owner, task.room);
    } else if task.Count? {
      GoCount(s, t, task.owner, task.room);
    } else if task.Reserve? {
      GoReserve(s, t, task.owner, task.room, task.wanted);
    } else if task.Snapshot? {
      SnapshotStep(s, t);
    } else if task.Convert? {
      GoConvert(s, t);
    } else {
      InPlace(s, t, task.owner);
      PlaceStep(s, t, task.owner, s.objs[task.owner].self.(waiting := false), Unpin(task.owner));
    }
  }

  lemma GoCount(s: State, t: nat, owner: nat, room: nat)
    requires Inv(s) && t < |s.threads| && s.threads[t].Do? && s.threads[t].task == Count(owner, room)
    requires owner < |s.objs|
    ensures Inv(CountNow(s, t, owner, room, s.threads[t].rest))
  {
    var rest := s.threads[t].rest;
    var stack := if s.objs[owner].descriptors == 0 then Do(Leave(owner), rest)
                 else Do(Reserve(owner, room, Min(|s.objs[owner].self.registered|, MAX_POLL)), rest);
    assert StackOk(s.objs, s.threads[t], true);
    Unroll(s.threads[t]);
    Unroll(stack);
    ListFits(s, owner);
    MoveStep(s, t, stack);
  }

  /** The reservation leaves room for the whole list, or a wake is coming. */
  lemma ReserveRound(s: State, t: nat, owner: nat, room: nat, wanted: nat, capacity: nat)
    requires t < |s.threads| && s.threads[t].Do? && s.threads[t].task == Reserve(owner, room, wanted)
    requires PortAt(s.objs, owner) && RoundOk(s, s.threads[t].task) && wanted <= capacity
    ensures var self := s.objs[owner].self.(capacity := capacity);
      RoundOk(Set(WithPort(s, owner, self), t, Do(Snapshot(owner, room), s.threads[t].rest)), Snapshot(owner, room))
  {
    TallyUpdate(s.threads, t, Do(Snapshot(owner, room), s.threads[t].rest), Owe(owner));
  }

  lemma GoReserve(s: State, t: nat, owner: nat, room: nat, wanted: nat)
    requires Inv(s) && t < |s.threads| && s.threads[t].Do? && s.threads[t].task == Reserve(owner, room, wanted)
    requires PortAt(s.objs, owner) && RoundOk(s, s.threads[t].task)
    ensures Inv(ReserveNow(s, t, owner, room, wanted, s.threads[t].rest))
  {
    var self := s.objs[owner].self;
    var capacity := if wanted <= self.capacity then self.capacity else wanted + 16;
    ReserveRound(s, t, owner, room, wanted, capacity);
    PlaceStep(s, t, owner, self.(capacity := capacity), Snapshot(owner, room));
  }

  lemma GoWaitEnter(s: State, t: nat, owner: nat, room: nat)
    requires Inv(s) && t < |s.threads| && s.threads[t].Do? && s.threads[t].task == WaitEnter(owner, room)
    requires PortAt(s.objs, owner)
    ensures Inv(WaitEnterNow(s, t, owner, room, s.threads[t].rest))
  {
    if s.objs[owner].self.waiting {
      assert StackOk(s.objs, s.threads[t], true);
      Unroll(s.threads[t]);
      Unroll(Do(Unpin(owner), s.threads[t].rest));
      MoveStep(s, t, Do(Unpin(owner), s.threads[t].rest));
    } else {
      PlaceStep(s, t, owner, s.objs[owner].self.(waiting := true), Count(owner, room));
    }
  }

  lemma GoConvert(s: State, t: nat)
    requires Inv(s) && t < |s.threads| && s.threads[t].Do? && s.threads[t].task.Convert?
    requires TaskOk(s.objs, s.threads[t].task) && Within(s.threads[t].task.objects, |s.objs|)
    ensures Inv(ConvertNow(s, t, s.threads[t].task, s.threads[t].rest))
  {
    var task := s.threads[t].task;
    var rest := s.threads[t].rest;
    if task.objects == [] {
      var stack := Do(if task.buffer == [] && task.ok then Count(task.owner, task.room) else Leave(task.owner), rest);
      assert StackOk(s.objs, s.threads[t], true);
      Unroll(s.threads[t]);
      Unroll(stack);
      MoveStep(s, t, stack);
    } else {
      ConvertStep(s, t);
    }
  }

  /** Every step keeps the invariant, as long as the callers keep the two disciplines. */
  lemma StepKeepsInv(s: State, step: Step)
    requires Inv(s) && Addressed(s) && Enabled(s, step) && KeepsOpen(s, step) && OutlivesWakes(s, step)
    ensures Inv(Apply(s, step))
  {
    if step.Go? {
      var task := s.threads[step.t].task;
      if task.ClosePort? || task.RegisterPin? || task.RegisterLock? {
        GoRegister(s, step.t);
      } else if task.WaitEnter? || task.Count? || task.Reserve? || task.Snapshot? || task.Convert? || task.Leave? {
        GoWait(s, step.t);
      } else {
        GoTable(s, step.t);
      }
    } else if step.Open? || step.CreatePort? || step.Dup? || step.Close? {
      CallSteps(s, step);
    } else if step.Use? || step.BeginClosePort? || step.BeginRegister? || step.BeginWait? {
      PinningSteps(s, step);
    } else {
      AnswerSteps(s, step);
    }
  }

  lemma NextKeepsInv(s: State, s': State)
    requires Inv(s) && Next(s, s')
    ensures Inv(s')
  {
    var step :| Enabled(s, step) && KeepsOpen(s, step) && OutlivesWakes(s, step) && s' == Apply(s, step);
    StepKeepsInv(s, step);
  }
}
