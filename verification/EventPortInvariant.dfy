/** What every reachable state of the event port system satisfies, and the two disciplines the callers owe. */
module EventPortInvariant {
  import opened Basics
  import opened EventPortModel

  // ---- counting what the threads hold --------------------------------------------------

  /** What a task can hold about an object: a pin, the creator's reference, the duty to destroy it,
      an owed wake of a port, an owed notification of a pipe, the waiter's place at a port. */
  datatype Tag = Pin(o: nat) | Made(o: nat) | Doom(o: nat) | Owe(o: nat) | Notifies(o: nat) | Waits(o: nat)

  function One(b: bool): nat { if b then 1 else 0 }

  function PinTally(task: Task, x: nat): nat {
    match task
    case Using(o) => One(o == x)
    case ClosePort(_, o) => One(o == x)
    case RegisterPin(owner, _, _, _) => One(owner == x)
    case RegisterLock(owner, o, _, _) => One(owner == x) + One(o == x)
    case Unpin(o) => One(o == x)
    case WaitEnter(owner, _) => One(owner == x)
    case Count(owner, _) => One(owner == x)
    case Reserve(owner, _, _) => One(owner == x)
    case Snapshot(owner, _) => One(owner == x)
    case Poll(owner, _, objects, _, _) => One(owner == x) + multiset(objects)[x]
    case Convert(owner, _, objects, _, _, _) => One(owner == x) + multiset(objects)[x]
    case Leave(owner) => One(owner == x)
    case _ => 0
  }

  /** From taking `waiting` to giving it back. */
  predicate InRound(task: Task) {
    task.Count? || task.Reserve? || task.Snapshot? || task.Poll? || task.Convert? || task.Leave?
  }

  function TaskTally(task: Task, tag: Tag): nat {
    match tag
    case Pin(x) => PinTally(task, x)
    case Made(x) => One((task.Install? || task.Discard?) && task.o == x)
    case Doom(x) => One(task.Destroy? && task.o == x)
    case Owe(x) => One(task.Wake? && task.port == x)
    case Notifies(x) => One(task.Notify? && task.o == x)
    case Waits(x) => One(InRound(task) && task.owner == x)
  }

  function StackTally(stack: Stack, tag: Tag): nat {
    if stack.Done? then 0 else TaskTally(stack.task, tag) + StackTally(stack.rest, tag)
  }

  function Tally(threads: seq<Stack>, tag: Tag): nat {
    if threads == [] then 0
    else Tally(threads[..|threads| - 1], tag) + StackTally(threads[|threads| - 1], tag)
  }

  /** The number of table slots that name `o`. */
  ghost function Slots(table: seq<Option<nat>>, o: nat): nat { multiset(table)[Some(o)] }

  // ---- shapes ------------------------------------------------------------------------------

  ghost predicate PortAt(objs: seq<Object>, p: nat) { p < |objs| && objs[p].kind == Port }

  ghost predicate SocketsAt(objs: seq<Object>, list: seq<nat>) {
    forall i :: 0 <= i < |list| ==> list[i] < |objs| && objs[list[i]].kind == Socket
  }

  ghost predicate TaskOk(objs: seq<Object>, task: Task) {
    match task
    case Install(o) => o < |objs|
    case Discard(o) => o < |objs|
    case Using(o) => o < |objs|
    case Notify(o) => o < |objs|
    case ClosePort(fd, o) => PortAt(objs, o) && fd < MAX_FD
    case RegisterPin(owner, _, events, _) => PortAt(objs, owner) && events <= SUPPORTED
    case RegisterLock(owner, o, events, _) =>
      PortAt(objs, owner) && o < |objs| && objs[o].kind in {Socket, Pipe} && events <= SUPPORTED
    case Wake(p) => PortAt(objs, p)
    case Unpin(o) => o < |objs|
    case Destroy(o) => o < |objs|
    case WaitEnter(owner, _) => PortAt(objs, owner)
    case Count(owner, _) => PortAt(objs, owner)
    case Reserve(owner, _, _) => PortAt(objs, owner)
    case Snapshot(owner, _) => PortAt(objs, owner)
    case Poll(owner, _, objects, requested, _) =>
      PortAt(objs, owner) && |requested| == |objects| <= MAX_POLL && SocketsAt(objs, objects)
    case Convert(owner, _, objects, triggered, _, _) =>
      PortAt(objs, owner) && |triggered| == |objects| && SocketsAt(objs, objects)
      && (forall i :: 0 <= i < |triggered| ==> triggered[i] <= REPORTABLE)
    case Leave(owner) => PortAt(objs, owner)
  }

  /** What may stand below the top of a stack. */
  predicate Tail(task: Task) { task.Wake? || task.Unpin? || task.Destroy? || task.Using? || task.Convert? }

  ghost predicate StackOk(objs: seq<Object>, stack: Stack, top: bool)
    decreases stack
  {
    stack.Done? || (
      && TaskOk(objs, stack.task)
      && (top || Tail(stack.task))
      && (stack.task.Notify? ==> stack.rest.Do? && stack.rest.task == Using(stack.task.o))
      && StackOk(objs, stack.rest, false))
  }

  ghost predicate Shapes(s: State) {
    forall t :: 0 <= t < |s.threads| ==> StackOk(s.objs, s.threads[t], true)
  }

  // ---- the invariant ------------------------------------------------------------------------

  /** references == slots + pins, descriptors == slots, and exactly one destruction, at zero. */
  ghost predicate CountsAt(s: State, o: nat) {
    var slots := Slots(s.table, o);
    var pins := Tally(s.threads, Pin(o));
    var made := Tally(s.threads, Made(o));
    var doom := Tally(s.threads, Doom(o));
    if o >= |s.objs| then
      slots == 0 && pins == 0 && made == 0 && doom == 0
    else if s.objs[o].frees == 0 then
      && s.objs[o].references == slots + pins + made
      && s.objs[o].descriptors == slots + made
      && doom == One(s.objs[o].references == 0)
    else
      s.objs[o].frees == 1 && slots == 0 && pins == 0 && made == 0 && doom == 0
  }

  /** An object under construction belongs to its creator alone. */
  ghost predicate PrivateAt(s: State, o: nat) {
    Tally(s.threads, Made(o)) > 0 ==>
      && o < |s.objs|
      && Tally(s.threads, Made(o)) == 1 && Slots(s.table, o) == 0 && Tally(s.threads, Pin(o)) == 0
      && Tally(s.threads, Owe(o)) == 0
      && s.objs[o].reg.port == None && s.objs[o].self.registered == []
  }

  ghost predicate Streams(s: State) {
    && |s.table| == MAX_FD && |s.objs| >= 3
    && (forall i :: 0 <= i < 3 ==> s.table[i] == Some(i))
    && (forall o :: 0 <= o < |s.objs| && s.objs[o].kind == Stream ==> o < 3)
  }

  /** The list of a port is duplicate-free and holds only objects registered with it. */
  ghost predicate ListAt(objs: seq<Object>, p: nat)
    requires p < |objs|
  {
    && NoDup(objs[p].self.registered)
    && (forall o :: o in objs[p].self.registered ==> o < |objs| && objs[o].reg.port == Some(p))
    && (objs[p].kind != Port || objs[p].frees > 0 ==> objs[p].self == NO_PORT)
  }

  /** A registered object is on the list of its port, which is alive, and has a descriptor. */
  ghost predicate MemberAt(objs: seq<Object>, o: nat)
    requires o < |objs|
  {
    match objs[o].reg.port
    case None => objs[o].reg == UNREGISTERED
    case Some(p) =>
      && PortAt(objs, p) && o in objs[p].self.registered
      && objs[o].kind in {Socket, Pipe} && objs[o].frees == 0 && objs[o].descriptors >= 1
      && objs[o].reg.events != {} && objs[o].reg.events <= SUPPORTED
  }

  ghost predicate Lists(objs: seq<Object>) {
    && (forall p :: 0 <= p < |objs| ==> ListAt(objs, p))
    && (forall o :: 0 <= o < |objs| ==> MemberAt(objs, o))
  }

  /** Each bit of channels_in_use belongs to exactly one port that has not been destroyed. */
  ghost predicate Channels(s: State) {
    && (forall p :: 0 <= p < |s.objs| && s.objs[p].self.channel.Some? ==>
         s.objs[p].self.channel.value < POLL_CHANNELS && s.objs[p].self.channel.value in s.channels)
    && (forall p, q :: 0 <= p < q < |s.objs| && s.objs[p].self.channel.Some? ==>
         s.objs[p].self.channel != s.objs[q].self.channel)
    && (forall c :: c in s.channels ==> exists p :: 0 <= p < |s.objs| && s.objs[p].self.channel == Some(c))
  }

  /** `waiting` is held by exactly one thread, or by none when it is clear. */
  ghost predicate WaiterAt(s: State, p: nat) {
    Tally(s.threads, Waits(p)) == One(p < |s.objs| && s.objs[p].self.waiting)
  }

  /** A wake is owed only to a port that still exists. */
  ghost predicate OweAt(s: State, p: nat) {
    Tally(s.threads, Owe(p)) > 0 ==> PortAt(s.objs, p) && s.objs[p].frees == 0
  }

  /** The next sleep on the port's channel will be cut short: a wake is pending, or a thread owes one. */
  ghost predicate Coming(s: State, p: nat)
    requires p < |s.objs|
  {
    TargetOf(s.objs, p) in s.pending || Tally(s.threads, Owe(p)) > 0
  }

  /** The poll asks about condition `d` of object `o`. */
  ghost predicate Asks(objects: seq<nat>, requested: seq<set<Condition>>, o: nat, d: Condition)
    requires |requested| == |objects|
  {
    exists i :: 0 <= i < |objects| && objects[i] == o && (d in requested[i] || d in ALWAYS)
  }

  ghost predicate SocketSeen(objs: seq<Object>, task: Task, o: nat)
    requires task.Poll? && |task.requested| == |task.objects| && o < |objs|
  {
    objs[o].kind == Socket ==> forall d :: d in Needs(objs[o].reg) ==> Asks(task.objects, task.requested, o, d)
  }

  ghost predicate PipeSeen(s: State, task: Task, o: nat)
    requires task.Poll? && o < |s.objs|
  {
    s.objs[o].kind == Pipe ==>
      PipeFresh(s.objs[o]) == {} || task.buffer != [] || task.room == 0 || Tally(s.threads, Notifies(o)) > 0
  }

  /** Nothing about a registered object escapes the round, unless a wake is coming. */
  ghost predicate RoundOk(s: State, task: Task)
    requires TaskOk(s.objs, task)
  {
    match task
    case Reserve(p, _, wanted) => |s.objs[p].self.registered| <= wanted <= MAX_POLL || Coming(s, p)
    case Snapshot(p, _) => |s.objs[p].self.registered| <= Min(s.objs[p].self.capacity, MAX_POLL) || Coming(s, p)
    case Poll(p, _, _, _, _) =>
      Coming(s, p) || forall o :: o in s.objs[p].self.registered && o < |s.objs| ==>
        SocketSeen(s.objs, task, o) && PipeSeen(s, task, o)
    case _ => true
  }

  ghost predicate Rounds(s: State)
    requires Shapes(s)
  {
    forall t :: 0 <= t < |s.threads| && s.threads[t].Do? ==> RoundOk(s, s.threads[t].task)
  }

  /** Records are paid for by reported bits, and a hang-up is converted once per registration. */
  ghost predicate RegistrationOk(reg: Registration) {
    && reg.reported <= REPORTABLE
    && reg.records <= |reg.reported| + reg.cleared
    && reg.hangups == One(Hangup in reg.reported)
  }

  ghost predicate Bounded(objs: seq<Object>) {
    forall o :: 0 <= o < |objs| ==> RegistrationOk(objs[o].reg)
  }

  /** Everything the counts say about one object. */
  ghost predicate Ledger(s: State, o: nat) {
    CountsAt(s, o) && PrivateAt(s, o) && WaiterAt(s, o) && OweAt(s, o)
  }

  ghost predicate Ledgers(s: State) { forall o: nat :: Ledger(s, o) }

  /** The invariant without the rounds. */
  ghost predicate Sound(s: State) {
    Shapes(s) && Streams(s) && Ledgers(s) && Lists(s.objs) && Channels(s) && Bounded(s.objs)
  }

  ghost predicate Inv(s: State) { Sound(s) && Rounds(s) }

  // ---- the disciplines -----------------------------------------------------------------------

  /** The caller of a registration keeps the descriptor open until the registration is made. */
  ghost predicate KeepsOpen(s: State, step: Step)
    requires Addressed(s) && Enabled(s, step)
  {
    step.Go? && s.threads[step.t].task.RegisterLock? ==>
      var task := s.threads[step.t].task;
      task.events != {} && Register(s, task.owner, task.o, task.events, task.data).Some? ==>
        s.objs[task.o].descriptors >= 1
  }

  /** A port outlives the wakes owed to it. */
  ghost predicate OutlivesWakes(s: State, step: Step)
    requires Addressed(s) && Enabled(s, step)
  {
    step.Go? && s.threads[step.t].task.Destroy? && s.objs[s.threads[step.t].task.o].kind == Port ==>
      Tally(s.threads, Owe(s.threads[step.t].task.o)) == 0
  }

  ghost predicate Next(s: State, s': State) {
    Addressed(s) && exists step ::
      Enabled(s, step) && KeepsOpen(s, step) && OutlivesWakes(s, step) && s' == Apply(s, step)
  }

  // ---- consequences used throughout ------------------------------------------------------------

  /** Every slot and every registration of such a state names an object, so no step is undefined there. */
  lemma Reachables(s: State)
    requires Streams(s) && Ledgers(s) && Lists(s.objs)
    ensures Addressed(s)
  {
    forall fd | 0 <= fd < |s.table| && s.table[fd].Some? ensures s.table[fd].value < |s.objs| {
      assert Ledger(s, s.table[fd].value);
      assert s.table[fd] in multiset(s.table);
    }
    forall o | 0 <= o < |s.objs| && s.objs[o].reg.port.Some? ensures s.objs[o].reg.port.value < |s.objs| {
      assert MemberAt(s.objs, o);
    }
  }

  lemma {:induction false} TallyUpdate(threads: seq<Stack>, t: nat, stack: Stack, tag: Tag)
    requires t < |threads|
    ensures Tally(threads[t := stack], tag) ==
            Tally(threads, tag) - StackTally(threads[t], tag) + StackTally(stack, tag)
    ensures StackTally(threads[t], tag) <= Tally(threads, tag)
  {
    var last := |threads| - 1;
    if t == last {
      assert threads[t := stack][..last] == threads[..last];
    } else {
      TallyUpdate(threads[..last], t, stack, tag);
      assert threads[t := stack][..last] == threads[..last][t := stack];
    }
  }

  /** The same for the six tags of one object. */
  lemma TallyAt(threads: seq<Stack>, t: nat, stack: Stack, o: nat)
    requires t < |threads|
    ensures TalliedAt(threads, t, stack, Pin(o)) && TalliedAt(threads, t, stack, Made(o))
    ensures TalliedAt(threads, t, stack, Doom(o)) && TalliedAt(threads, t, stack, Owe(o))
    ensures TalliedAt(threads, t, stack, Notifies(o)) && TalliedAt(threads, t, stack, Waits(o))
  {
    TallyUpdate(threads, t, stack, Pin(o));
    TallyUpdate(threads, t, stack, Made(o));
    TallyUpdate(threads, t, stack, Doom(o));
    TallyUpdate(threads, t, stack, Owe(o));
    TallyUpdate(threads, t, stack, Notifies(o));
    TallyUpdate(threads, t, stack, Waits(o));
  }

  ghost predicate TalliedAt(threads: seq<Stack>, t: nat, stack: Stack, tag: Tag)
    requires t < |threads|
  {
    && Tally(threads[t := stack], tag) == Tally(threads, tag) - StackTally(threads[t], tag) + StackTally(stack, tag)
    && StackTally(threads[t], tag) <= Tally(threads, tag)
  }

  lemma {:induction false} TallyOfTwo(threads: seq<Stack>, t: nat, u: nat, tag: Tag)
    requires t < |threads| && u < |threads| && t != u
    ensures StackTally(threads[t], tag) + StackTally(threads[u], tag) <= Tally(threads, tag)
  {
    TallyUpdate(threads, t, Done, tag);
    TallyUpdate(threads[t := Done], u, Done, tag);
  }

  lemma {:induction false} TallyOfNone(threads: seq<Stack>, tag: Tag)
    requires forall t :: 0 <= t < |threads| ==> threads[t] == Done
    ensures Tally(threads, tag) == 0
  {
    if threads != [] { TallyOfNone(threads[..|threads| - 1], tag); }
  }

  /** The waiter of a round holds a pin on its port. */
  lemma {:induction false} WaitsPin(threads: seq<Stack>, p: nat)
    ensures Tally(threads, Waits(p)) <= Tally(threads, Pin(p))
  {
    if threads != [] {
      WaitsPin(threads[..|threads| - 1], p);
      StackWaitsPin(threads[|threads| - 1], p);
    }
  }

  lemma {:induction false} StackWaitsPin(stack: Stack, p: nat)
    ensures StackTally(stack, Waits(p)) <= StackTally(stack, Pin(p))
  {
    if stack.Do? { StackWaitsPin(stack.rest, p); }
  }

  /** Kinds never change and objects are only added. */
  ghost predicate Grows(objs: seq<Object>, objs': seq<Object>) {
    |objs| <= |objs'| && forall o :: 0 <= o < |objs| ==> objs'[o].kind == objs[o].kind
  }

  lemma {:induction false} StackGrows(objs: seq<Object>, objs': seq<Object>, stack: Stack, top: bool)
    requires StackOk(objs, stack, top) && Grows(objs, objs')
    ensures StackOk(objs', stack, top)
    decreases stack
  {
    if stack.Do? {
      StackGrows(objs, objs', stack.rest, false);
    }
  }

  /** A step of thread `t` keeps every other stack well shaped. */
  lemma ShapesKept(s: State, s': State, t: nat, stack: Stack)
    requires Shapes(s) && t < |s.threads| && Grows(s.objs, s'.objs)
    requires s'.threads == s.threads[t := stack] && StackOk(s'.objs, stack, true)
    ensures Shapes(s')
  {
    forall u | 0 <= u < |s'.threads| ensures StackOk(s'.objs, s'.threads[u], true) {
      if u != t { StackGrows(s.objs, s'.objs, s.threads[u], true); }
    }
  }

  lemma InitialInv(s: State)
    requires Initial(s)
    ensures Inv(s)
  {
    forall tag ensures Tally(s.threads, tag) == 0 { TallyOfNone(s.threads, tag); }
    forall o: nat ensures Ledger(s, o) {
      InitialSlots(s.table, o);
    }
  }

  lemma InitialSlots(table: seq<Option<nat>>, o: nat)
    requires |table| == MAX_FD
    requires forall fd :: 0 <= fd < MAX_FD ==> table[fd] == if fd < 3 then Some(fd) else None
    ensures Slots(table, o) == One(o < 3)
  {
    assert table == table[..3] + table[3..];
    assert table[..3] == [Some(0), Some(1), Some(2)];
    assert forall x :: x in multiset(table[3..]) ==> x in table[3..];
    assert Some(o) !in table[3..];
  }
}
