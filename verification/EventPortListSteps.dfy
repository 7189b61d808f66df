/** Closing a descriptor and changing a registration keep the invariant. */
module EventPortListSteps {
  import opened Basics
  import opened EventPortModel
  import opened EventPortInvariant
  import opened EventPortFrames
  import opened EventPortTableSteps
  import opened EventPortLifeSteps

  // ---- lists ---------------------------------------------------------------------------------------

  /** The port of a registered object still exists. */
  lemma PortAlive(objs: seq<Object>, o: nat)
    requires Lists(objs) && o < |objs| && objs[o].reg.port.Some?
    ensures PortAt(objs, objs[o].reg.port.value) && objs[objs[o].reg.port.value].frees == 0
    ensures objs[o].reg.port.value != o
  {
    assert MemberAt(objs, o);
    assert ListAt(objs, objs[o].reg.port.value);
  }

  /** Unlinking an object whose counts have already moved leaves lists in order. */
  lemma UnlinkLists(objs: seq<Object>, o: nat, x: Object)
    requires Lists(objs) && o < |objs| && objs[o].reg.port.Some?
    requires x.(references := objs[o].references, descriptors := objs[o].descriptors) == objs[o]
    ensures objs[o := x][o].reg.port.value < |objs| && Lists(Unlink(objs[o := x], o))
  {
    PortAlive(objs, o);
    var p := objs[o].reg.port.value;
    var objs' := Unlink(objs[o := x], o);
    assert ListAt(objs, p);
    WithoutMembers(objs[p].self.registered, o);
    assert objs'[p].self.registered == Without(objs[p].self.registered, o);
    forall q | 0 <= q < |objs'| ensures ListAt(objs', q) {
      assert ListAt(objs, q);
      if q != p {
        assert objs'[q].self == objs[q].self;
        assert o !in objs[q].self.registered;
      }
    }
    forall x | 0 <= x < |objs'| ensures MemberAt(objs', x) {
      assert MemberAt(objs, x);
    }
  }

  lemma UnlinkAt(objs: seq<Object>, o: nat, x: nat)
    requires o < |objs| && x < |objs| && objs[o].reg.port.Some? && objs[o].reg.port.value < |objs|
    requires objs[o].reg.port.value != o
    ensures var y := Unlink(objs, o)[x];
      && y.kind == objs[x].kind && y.references == objs[x].references && y.descriptors == objs[x].descriptors
      && y.frees == objs[x].frees && y.writeEnd == objs[x].writeEnd && y.readable == objs[x].readable
      && y.reg == (if x == o then UNREGISTERED else objs[x].reg)
      && y.self.channel == objs[x].self.channel && y.self.waiting == objs[x].self.waiting
      && y.self.capacity == objs[x].self.capacity
      && (Some(x) != objs[o].reg.port ==> y.self == objs[x].self)
      && (objs[x].self.registered == [] ==> y.self.registered == [])
  {
  }

  // ---- closing a descriptor ---------------------------------------------------------------------------

  /** What the closing thread still holds once the slot is clear; `extra` is a wake it will owe besides. */
  ghost predicate CloseBase(s: State, t: nat, base: Stack, extra: Option<nat>) {
    && t < |s.threads|
    && (forall tag ::
          StackTally(base, tag) == StackTally(s.threads[t], tag) + One(extra.Some? && tag == Owe(extra.value)))
    && (extra.Some? ==> PortAt(s.objs, extra.value) && Tally(s.threads, Pin(extra.value)) >= 1)
  }

  lemma CloseAt(s: State, fd: nat, x: nat)
    requires Addressed(s) && Lists(s.objs) && 3 <= fd < MAX_FD && s.table[fd].Some? && x < |s.objs|
    ensures var o := s.table[fd].value; var c := CloseSlot(s, fd); var y := c.objs[x];
      && |c.objs| == |s.objs|
      && y.kind == s.objs[x].kind && y.frees == s.objs[x].frees
      && y.writeEnd == s.objs[x].writeEnd && y.readable == s.objs[x].readable
      && y.references == s.objs[x].references - One(x == o) && y.descriptors == s.objs[x].descriptors - One(x == o)
      && y.reg == (if x == o && c.wake.Some? then UNREGISTERED else s.objs[x].reg)
      && y.self.channel == s.objs[x].self.channel && y.self.waiting == s.objs[x].self.waiting
      && y.self.capacity == s.objs[x].self.capacity
      && (Some(x) != c.wake ==> y.self == s.objs[x].self)
      && (s.objs[x].self.registered == [] ==> y.self.registered == [])
  {
    var o := s.table[fd].value;
    var dropped := s.objs[o].(descriptors := s.objs[o].descriptors - 1, references := s.objs[o].references - 1);
    var objs := s.objs[o := dropped];
    if s.objs[o].reg.port.Some? {
      PortAlive(s.objs, o);
      if dropped.descriptors == 0 { UnlinkAt(objs, o, x); }
    }
  }

  lemma TailTally(c: Closed, base: Stack, tag: Tag)
    ensures StackTally(CloseTail(c, base), tag) == StackTally(base, tag)
      + One(c.last.Some? && tag == Doom(c.last.value)) + One(c.wake.Some? && tag == Owe(c.wake.value))
  {
    var tail := if c.last.Some? then Do(Destroy(c.last.value), base) else base;
    Unroll(tail);
    Unroll(CloseTail(c, base));
  }

  lemma CloseTallies(threads: seq<Stack>, t: nat, c: Closed, base: Stack, extra: Option<nat>, tag: Tag)
    requires t < |threads|
    requires StackTally(base, tag) == StackTally(threads[t], tag) + One(extra.Some? && tag == Owe(extra.value))
    ensures Tally(threads[t := CloseTail(c, base)], tag) == Tally(threads, tag)
      + One(extra.Some? && tag == Owe(extra.value))
      + One(c.last.Some? && tag == Doom(c.last.value)) + One(c.wake.Some? && tag == Owe(c.wake.value))
  {
    TallyUpdate(threads, t, CloseTail(c, base), tag);
    TailTally(c, base, tag);
  }

  /** How what the threads hold of `x` moves when a slot of `o` is cleared. */
  ghost predicate ThreadMoves(threads: seq<Stack>, threads': seq<Stack>, o: nat, x: nat, last: bool, owed: nat) {
    && Tally(threads', Pin(x)) == Tally(threads, Pin(x))
    && Tally(threads', Made(x)) == Tally(threads, Made(x))
    && Tally(threads', Doom(x)) == Tally(threads, Doom(x)) + One(x == o && last)
    && Tally(threads', Owe(x)) == Tally(threads, Owe(x)) + owed
    && Tally(threads', Notifies(x)) == Tally(threads, Notifies(x))
    && Tally(threads', Waits(x)) == Tally(threads, Waits(x))
  }

  lemma CloseThreads(threads: seq<Stack>, t: nat, c: Closed, base: Stack, extra: Option<nat>, o: nat, x: nat)
    requires t < |threads| && (c.last.Some? ==> c.last == Some(o))
    requires forall tag ::
               StackTally(base, tag) == StackTally(threads[t], tag) + One(extra.Some? && tag == Owe(extra.value))
    ensures ThreadMoves(threads, threads[t := CloseTail(c, base)], o, x, c.last.Some?,
                        One(extra == Some(x)) + One(c.wake == Some(x)))
  {
    CloseTallies(threads, t, c, base, extra, Pin(x));
    CloseTallies(threads, t, c, base, extra, Made(x));
    CloseTallies(threads, t, c, base, extra, Doom(x));
    CloseTallies(threads, t, c, base, extra, Owe(x));
    CloseTallies(threads, t, c, base, extra, Notifies(x));
    CloseTallies(threads, t, c, base, extra, Waits(x));
  }

  /** How the counts of `x` move when a slot of `o` is cleared. */
  ghost predicate CloseMoves(s: State, s': State, o: nat, x: nat, last: bool, owed: nat) {
    && Slots(s'.table, x) == Slots(s.table, x) - One(x == o)
    && ThreadMoves(s.threads, s'.threads, o, x, last, owed)
    && |s'.objs| == |s.objs|
    && (x < |s.objs| ==>
         && s'.objs[x].kind == s.objs[x].kind && s'.objs[x].frees == s.objs[x].frees
         && s'.objs[x].references == s.objs[x].references - One(x == o)
         && s'.objs[x].descriptors == s.objs[x].descriptors - One(x == o)
         && (s.objs[x].reg.port == None ==> s'.objs[x].reg.port == None)
         && s'.objs[x].self.waiting == s.objs[x].self.waiting
         && (s.objs[x].self.registered == [] ==> s'.objs[x].self.registered == []))
  }

  lemma LedgerMoves(s: State, s': State, o: nat, x: nat, last: bool, owed: nat)
    requires Ledger(s, x) && o < |s.objs| && Slots(s.table, o) >= 1 && CloseMoves(s, s', o, x, last, owed)
    requires last == (s.objs[o].references == 1)
    requires owed > 0 ==> PortAt(s.objs, x) && s.objs[x].frees == 0 && Tally(s.threads, Made(x)) == 0
    ensures Ledger(s', x)
  {
  }

  lemma CloseMovesAt(s: State, s': State, t: nat, fd: nat, base: Stack, extra: Option<nat>, x: nat)
    requires Addressed(s) && Lists(s.objs) && 3 <= fd < MAX_FD && s.table[fd].Some?
    requires CloseBase(s, t, base, extra)
    requires s' == CloseNow(s, t, fd, base)
    ensures CloseMoves(s, s', s.table[fd].value, x, s.objs[s.table[fd].value].references == 1,
                       One(extra == Some(x)) + One(CloseSlot(s, fd).wake == Some(x)))
  {
    var c := CloseSlot(s, fd);
    CloseOutcome(s, fd);
    CloseThreads(s.threads, t, c, base, extra, s.table[fd].value, x);
    CloseSlots(s.table, fd, x);
    if x < |s.objs| { CloseAt(s, fd, x); }
  }

  lemma CloseLedger(s: State, s': State, t: nat, fd: nat, base: Stack, extra: Option<nat>, x: nat)
    requires Addressed(s) && Lists(s.objs) && 3 <= fd < MAX_FD && s.table[fd].Some?
    requires CloseBase(s, t, base, extra) && Ledger(s, x)
    requires s' == CloseNow(s, t, fd, base)
    ensures Ledger(s', x)
    ensures Tally(s'.threads, Notifies(x)) == Tally(s.threads, Notifies(x))
    ensures Tally(s'.threads, Owe(x)) ==
            Tally(s.threads, Owe(x)) + One(extra == Some(x)) + One(CloseSlot(s, fd).wake == Some(x))
  {
    var o := s.table[fd].value;
    var owed := One(extra == Some(x)) + One(CloseSlot(s, fd).wake == Some(x));
    CloseMovesAt(s, s', t, fd, base, extra, x);
    CloseSlots(s.table, fd, x);
    CloseOutcome(s, fd);
    if CloseSlot(s, fd).wake == Some(x) {
      assert MemberAt(s.objs, o);
    }
    LedgerMoves(s, s', o, x, s.objs[o].references == 1, owed);
  }

  lemma CloseSlots(table: seq<Option<nat>>, fd: nat, x: nat)
    requires fd < |table| && table[fd].Some?
    ensures Slots(table[fd := None], x) == Slots(table, x) - One(table[fd] == Some(x))
    ensures Slots(table, table[fd].value) >= 1
  {
    SlotsUpdate(table, fd, None);
  }

  /** Close wakes a port that exists, and destroys exactly at the last reference. */
  lemma CloseOutcome(s: State, fd: nat)
    requires Addressed(s) && Lists(s.objs) && 3 <= fd < MAX_FD && s.table[fd].Some?
    ensures var o := s.table[fd].value; var c := CloseSlot(s, fd);
      && c.last == (if s.objs[o].references == 1 then Some(o) else None)
      && c.wake == (if s.objs[o].descriptors == 1 then s.objs[o].reg.port else None)
      && |c.objs| == |s.objs|
      && (c.wake.Some? ==>
           && PortAt(s.objs, c.wake.value) && s.objs[c.wake.value].frees == 0
           && PortAt(c.objs, c.wake.value) && c.objs[c.wake.value].frees == 0)
  {
    var o := s.table[fd].value;
    CloseAt(s, fd, o);
    if s.objs[o].reg.port.Some? {
      PortAlive(s.objs, o);
      CloseAt(s, fd, s.objs[o].reg.port.value);
    }
  }

  lemma CountedLists(objs: seq<Object>, o: nat, x: Object)
    requires Lists(objs) && o < |objs|
    requires x.(references := objs[o].references, descriptors := objs[o].descriptors) == objs[o]
    requires x.reg.port.Some? ==> x.descriptors >= 1
    ensures Lists(objs[o := x])
  {
    Described(objs);
    ListsFrame(objs, objs[o := x]);
  }

  lemma CloseLists(s: State, fd: nat)
    requires Addressed(s) && Lists(s.objs) && 3 <= fd < MAX_FD && s.table[fd].Some? && Ledger(s, s.table[fd].value)
    ensures Lists(CloseSlot(s, fd).objs)
  {
    var o := s.table[fd].value;
    var x := s.objs[o];
    var y := x.(descriptors := x.descriptors - 1, references := x.references - 1);
    if x.descriptors == 1 && x.reg.port.Some? {
      UnlinkLists(s.objs, o, y);
    } else {
      Described(s.objs);
      CountedLists(s.objs, o, y);
    }
  }

  lemma CloseCalm(s: State, s': State, t: nat, fd: nat, base: Stack, extra: Option<nat>, p: nat)
    requires Addressed(s) && Lists(s.objs) && 3 <= fd < MAX_FD && s.table[fd].Some?
    requires CloseBase(s, t, base, extra) && Ledgers(s) && p < |s.objs|
    requires s' == CloseNow(s, t, fd, base)
    ensures |s'.objs| == |s.objs| && Calm(s, s', p)
  {
    var c := CloseSlot(s, fd);
    assert Ledger(s, s.table[fd].value) && Ledger(s, p);
    CloseLedger(s, s', t, fd, base, extra, p);
    CloseOutcome(s, fd);
    if c.wake != Some(p) {
      CloseAt(s, fd, p);
      forall x | 0 <= x < |s.objs| && s.objs[x].reg.port == Some(p)
        ensures s'.objs[x].kind == s.objs[x].kind && s'.objs[x].reg == s.objs[x].reg
          && s'.objs[x].writeEnd == s.objs[x].writeEnd && s'.objs[x].readable == s.objs[x].readable
          && Tally(s'.threads, Notifies(x)) == Tally(s.threads, Notifies(x))
      {
        assert Ledger(s, x);
        CloseAt(s, fd, x);
        CloseLedger(s, s', t, fd, base, extra, x);
      }
      CalmUntouched(s, s', p);
    }
  }

  lemma CloseFrames(s: State, fd: nat)
    requires Sound(s) && Addressed(s) && 3 <= fd < MAX_FD && s.table[fd].Some?
    ensures var c := CloseSlot(s, fd); var s' := s.(objs := c.objs, table := c.table);
      Grows(s.objs, s'.objs) && Streams(s') && Channels(s') && Bounded(s'.objs) && Lists(s'.objs)
  {
    var c := CloseSlot(s, fd);
    var s' := s.(objs := c.objs, table := c.table);
    assert Ledger(s, s.table[fd].value);
    CloseLists(s, fd);
    CloseOutcome(s, fd);
    forall x | 0 <= x < |s.objs| ensures CloseKept(s.objs[x], s'.objs[x]) { CloseAt(s, fd, x); }
    assert SameChannels(s.objs, s'.objs);
    ChannelsFrame(s, s');
  }

  lemma CloseStack(s: State, fd: nat, base: Stack)
    requires Addressed(s) && Lists(s.objs) && 3 <= fd < MAX_FD && s.table[fd].Some? && StackOk(s.objs, base, false)
    ensures StackOk(s.objs, CloseTail(CloseSlot(s, fd), base), true)
    ensures CloseTail(CloseSlot(s, fd), base).Do? ==> Tail(CloseTail(CloseSlot(s, fd), base).task)
  {
    CloseOutcome(s, fd);
    BelowTop(s.objs, base);
  }

  lemma CloseStep(s: State, t: nat, fd: nat, base: Stack, extra: Option<nat>)
    requires Inv(s) && Addressed(s) && 3 <= fd < MAX_FD && s.table[fd].Some?
    requires CloseBase(s, t, base, extra) && StackOk(s.objs, base, false)
    ensures Inv(CloseNow(s, t, fd, base))
  {
    var stack := CloseTail(CloseSlot(s, fd), base);
    var s' := CloseNow(s, t, fd, base);
    forall x: nat ensures Ledger(s', x) {
      assert Ledger(s, x);
      CloseLedger(s, s', t, fd, base, extra, x);
    }
    CloseFrames(s, fd);
    CloseStack(s, fd, base);
    StackGrows(s.objs, s'.objs, stack, true);
    forall p | 0 <= p < |s.objs| ensures Calm(s, s', p) {
      CloseCalm(s, s', t, fd, base, extra, p);
    }
    Assemble(s, s', t, stack);
  }

  ghost predicate CloseKept(x: Object, y: Object) {
    y.kind == x.kind && y.self.channel == x.self.channel && (y.reg == x.reg || y.reg == UNREGISTERED)
  }

  // ---- changing a registration --------------------------------------------------------------------------

  lemma AskLists(s: State, owner: nat, o: nat, events: set<Condition>, data: nat)
    requires Addressed(s) && Lists(s.objs) && PortAt(s.objs, owner) && s.objs[owner].frees == 0 && o < |s.objs|
    requires s.objs[o].kind in {Socket, Pipe} && s.objs[o].frees == 0 && s.objs[o].descriptors >= 1
    requires events != {} && events <= SUPPORTED && Register(s, owner, o, events, data).Some?
    ensures Lists(Register(s, owner, o, events, data).value)
  {
    var objs' := Register(s, owner, o, events, data).value;
    forall q | 0 <= q < |objs'| ensures ListAt(objs', q) { AskListAt(s, owner, o, events, data, q); }
    forall x | 0 <= x < |objs'| ensures MemberAt(objs', x) { AskMemberAt(s, owner, o, events, data, x); }
  }

  lemma AskListAt(s: State, owner: nat, o: nat, events: set<Condition>, data: nat, q: nat)
    requires Addressed(s) && Lists(s.objs) && PortAt(s.objs, owner) && s.objs[owner].frees == 0 && o < |s.objs|
    requires events != {} && Register(s, owner, o, events, data).Some? && s.objs[o].kind in {Socket, Pipe}
    requires q < |s.objs|
    ensures ListAt(Register(s, owner, o, events, data).value, q)
  {
    assert MemberAt(s.objs, o) && ListAt(s.objs, owner) && ListAt(s.objs, q);
    assert s.objs[o].reg.port == None ==> o !in s.objs[owner].self.registered;
  }

  /** Nobody leaves a list. */
  lemma AskGrowsLists(s: State, owner: nat, o: nat, events: set<Condition>, data: nat, p: nat, x: nat)
    requires Addressed(s) && owner < |s.objs| && o < |s.objs| && p < |s.objs| && x in s.objs[p].self.registered
    requires events != {} && Register(s, owner, o, events, data).Some?
    ensures x in Register(s, owner, o, events, data).value[p].self.registered
  {
    assert x in [o] + s.objs[p].self.registered;
  }

  lemma AskMemberAt(s: State, owner: nat, o: nat, events: set<Condition>, data: nat, x: nat)
    requires Addressed(s) && Lists(s.objs) && PortAt(s.objs, owner) && s.objs[owner].frees == 0 && o < |s.objs|
    requires s.objs[o].kind in {Socket, Pipe} && s.objs[o].frees == 0 && s.objs[o].descriptors >= 1
    requires events != {} && events <= SUPPORTED && Register(s, owner, o, events, data).Some? && x < |s.objs|
    ensures MemberAt(Register(s, owner, o, events, data).value, x)
  {
    assert MemberAt(s.objs, x);
    RegisterAt(s, owner, o, events, data, x);
    if x == o {
      AskedIsListed(s, owner, o, events, data);
      RegisterAt(s, owner, o, events, data, owner);
    } else if s.objs[x].reg.port.Some? {
      AskGrowsLists(s, owner, o, events, data, s.objs[x].reg.port.value, x);
      RegisterAt(s, owner, o, events, data, s.objs[x].reg.port.value);
    }
  }

  lemma AskedIsListed(s: State, owner: nat, o: nat, events: set<Condition>, data: nat)
    requires Addressed(s) && Lists(s.objs) && PortAt(s.objs, owner) && o < |s.objs| && o != owner
    requires events != {} && Register(s, owner, o, events, data).Some?
    ensures o in Register(s, owner, o, events, data).value[owner].self.registered
  {
    assert MemberAt(s.objs, o);
  }

  lemma RegisterAt(s: State, owner: nat, o: nat, events: set<Condition>, data: nat, x: nat)
    requires Addressed(s) && Lists(s.objs) && PortAt(s.objs, owner) && o < |s.objs| && x < |s.objs|
    requires s.objs[o].kind in {Socket, Pipe} && Register(s, owner, o, events, data).Some?
    ensures var r := Register(s, owner, o, events, data).value; var y := r[x];
      && |r| == |s.objs|
      && y.kind == s.objs[x].kind && y.references == s.objs[x].references && y.descriptors == s.objs[x].descriptors
      && y.frees == s.objs[x].frees && y.writeEnd == s.objs[x].writeEnd && y.readable == s.objs[x].readable
      && y.self.channel == s.objs[x].self.channel && y.self.waiting == s.objs[x].self.waiting
      && y.self.capacity == s.objs[x].self.capacity
      && (x != o ==> y.reg == s.objs[x].reg) && (x != owner ==> y.self == s.objs[x].self)
      && (x == o ==> y.reg == if events == {} then UNREGISTERED else Ask(s.objs[o].reg, owner, events, data))
  {
    assert MemberAt(s.objs, o);
    if s.objs[o].reg.port.Some? {
      PortAlive(s.objs, o);
      if events == {} { UnlinkAt(s.objs, o, x); }
    }
  }

  lemma AskBounded(reg: Registration, port: nat, events: set<Condition>, data: nat)
    requires RegistrationOk(reg) && events <= SUPPORTED
    ensures RegistrationOk(Ask(reg, port, events, data))
  {
    var base := if reg.port == None then UNREGISTERED.(port := Some(port)) else reg;
    var news := events - base.events;
    assert base.reported == (base.reported - news) + (base.reported * news);
    assert |base.reported| == |base.reported - news| + |base.reported * news|;
  }

  ghost predicate Registering(s: State, t: nat) {
    && t < |s.threads| && s.threads[t].Do? && s.threads[t].task.RegisterLock? && Addressed(s)
    && TaskOk(s.objs, s.threads[t].task)
  }

  lemma RegisterPins(s: State, t: nat)
    requires Registering(s, t) && Ledgers(s)
    ensures var task := s.threads[t].task;
      && s.objs[task.owner].frees == 0 && s.objs[task.o].frees == 0
      && Tally(s.threads, Pin(task.owner)) >= 1 && Tally(s.threads, Pin(task.o)) >= 1
  {
    var task := s.threads[t].task;
    assert Ledger(s, task.owner) && Ledger(s, task.o);
    TallyAt(s.threads, t, Done, task.owner);
    TallyAt(s.threads, t, Done, task.o);
    Unroll(s.threads[t]);
  }

  lemma RegisterStack(s: State, t: nat)
    requires Registering(s, t)
    ensures var task := s.threads[t].task;
      var tail := Do(Unpin(task.o), Do(Unpin(task.owner), s.threads[t].rest));
      && (forall tag :: StackTally(tail, tag) == StackTally(s.threads[t], tag))
      && (forall tag ::
            StackTally(Do(Wake(task.owner), tail), tag) == StackTally(s.threads[t], tag) + One(tag == Owe(task.owner)))
  {
    var task := s.threads[t].task;
    Unroll(s.threads[t]);
    Unroll(Do(Unpin(task.owner), s.threads[t].rest));
    Unroll(Do(Unpin(task.o), Do(Unpin(task.owner), s.threads[t].rest)));
    Unroll(Do(Wake(task.owner), Do(Unpin(task.o), Do(Unpin(task.owner), s.threads[t].rest))));
  }

  ghost predicate Registered(s: State, s': State, t: nat)
    requires Registering(s, t)
  {
    var task := s.threads[t].task;
    Register(s, task.owner, task.o, task.events, task.data).Some?
    && s' == RegisterNow(s, t, task.owner, task.o, task.events, task.data, s.threads[t].rest)
  }

  lemma RegisterTallies(s: State, s': State, t: nat, x: nat)
    requires Registering(s, t) && Registered(s, s', t)
    ensures Tally(s'.threads, Pin(x)) == Tally(s.threads, Pin(x))
    ensures Tally(s'.threads, Made(x)) == Tally(s.threads, Made(x))
    ensures Tally(s'.threads, Doom(x)) == Tally(s.threads, Doom(x))
    ensures Tally(s'.threads, Waits(x)) == Tally(s.threads, Waits(x))
    ensures Tally(s'.threads, Notifies(x)) == Tally(s.threads, Notifies(x))
    ensures Tally(s'.threads, Owe(x)) == Tally(s.threads, Owe(x)) + One(x == s.threads[t].task.owner)
  {
    var task := s.threads[t].task;
    TallyAt(s.threads, t, Do(Wake(task.owner), Do(Unpin(task.o), Do(Unpin(task.owner), s.threads[t].rest))), x);
    RegisterStack(s, t);
  }

  lemma RegisterLedger(s: State, s': State, t: nat, x: nat)
    requires Registering(s, t) && Ledgers(s) && Lists(s.objs) && Registered(s, s', t)
    ensures Ledger(s', x)
    ensures Tally(s'.threads, Notifies(x)) == Tally(s.threads, Notifies(x))
    ensures Tally(s'.threads, Owe(x)) == Tally(s.threads, Owe(x)) + One(x == s.threads[t].task.owner)
  {
    var task := s.threads[t].task;
    assert Ledger(s, x) && Ledger(s, task.owner) && Ledger(s, task.o);
    RegisterTallies(s, s', t, x);
    RegisterPins(s, t);
    RegisterAt(s, task.owner, task.o, task.events, task.data, task.o);
    if x < |s.objs| { RegisterAt(s, task.owner, task.o, task.events, task.data, x); }
    LedgerSame(s, s', x, One(x == task.owner));
  }

  lemma RegisterLists(s: State, t: nat)
    requires Registering(s, t) && Ledgers(s) && Lists(s.objs) && Bounded(s.objs)
    requires var task := s.threads[t].task; var r := Register(s, task.owner, task.o, task.events, task.data);
      r.Some? && (task.events != {} ==> s.objs[task.o].descriptors >= 1)
    ensures var task := s.threads[t].task; var r := Register(s, task.owner, task.o, task.events, task.data);
      Lists(r.value) && Bounded(r.value)
  {
    var task := s.threads[t].task;
    var r := Register(s, task.owner, task.o, task.events, task.data).value;
    RegisterPins(s, t);
    if task.events != {} {
      AskLists(s, task.owner, task.o, task.events, task.data);
      AskBounded(s.objs[task.o].reg, task.owner, task.events, task.data);
    } else if s.objs[task.o].reg.port.Some? {
      UnlinkLists(s.objs, task.o, s.objs[task.o]);
      assert s.objs[task.o := s.objs[task.o]] == s.objs;
    }
    forall x | 0 <= x < |r| ensures RegistrationOk(r[x].reg) {
      RegisterAt(s, task.owner, task.o, task.events, task.data, task.o);
      RegisterAt(s, task.owner, task.o, task.events, task.data, x);
    }
  }

  /** A registration change that the critical section accepts. */
  lemma RegisterStep(s: State, t: nat)
    requires Inv(s) && Registering(s, t)
    requires var task := s.threads[t].task; var r := Register(s, task.owner, task.o, task.events, task.data);
      r.Some? && (task.events != {} ==> s.objs[task.o].descriptors >= 1)
    ensures var task := s.threads[t].task;
      Inv(RegisterNow(s, t, task.owner, task.o, task.events, task.data, s.threads[t].rest))
  {
    var task := s.threads[t].task;
    var s' := RegisterNow(s, t, task.owner, task.o, task.events, task.data, s.threads[t].rest);
    forall x: nat ensures Ledger(s', x) { RegisterLedger(s, s', t, x); }
    RegisterLists(s, t);
    RegisterFrames(s, task.owner, task.o, task.events, task.data);
    RegisterGoesOn(s, t);
    forall p | 0 <= p < |s.objs| ensures Calm(s, s', p) {
      RegisterCalm(s, s', t, p);
    }
    Assemble(s, s', t, AfterRegister(s.threads[t]));
  }

  /** What a thread still does once its registration change is accepted. */
  function AfterRegister(stack: Stack): Stack
    requires stack.Do? && stack.task.RegisterLock?
  {
    var owner, o := stack.task.owner, stack.task.o;
    Do(Wake(owner), Do(Unpin(o), Do(Unpin(owner), stack.rest)))
  }

  lemma RegisterGoesOn(s: State, t: nat)
    requires Inv(s) && Registering(s, t)
    requires var task := s.threads[t].task; Register(s, task.owner, task.o, task.events, task.data).Some?
    requires var task := s.threads[t].task;
      Grows(s.objs, Register(s, task.owner, task.o, task.events, task.data).value)
    ensures var task := s.threads[t].task;
      StackOk(Register(s, task.owner, task.o, task.events, task.data).value, AfterRegister(s.threads[t]), true)
  {
    var task := s.threads[t].task;
    var stack := AfterRegister(s.threads[t]);
    assert StackOk(s.objs, s.threads[t], true);
    assert StackOk(s.objs, stack, true);
    StackGrows(s.objs, Register(s, task.owner, task.o, task.events, task.data).value, stack, true);
  }

  lemma RegisterFrames(s: State, owner: nat, o: nat, events: set<Condition>, data: nat)
    requires Addressed(s) && Streams(s) && Channels(s) && Lists(s.objs) && PortAt(s.objs, owner) && o < |s.objs|
    requires s.objs[o].kind in {Socket, Pipe} && Register(s, owner, o, events, data).Some?
    ensures var s' := s.(objs := Register(s, owner, o, events, data).value);
      Grows(s.objs, s'.objs) && Streams(s') && Channels(s')
  {
    var s' := s.(objs := Register(s, owner, o, events, data).value);
    RegisterAt(s, owner, o, events, data, o);
    forall x | 0 <= x < |s.objs|
      ensures s'.objs[x].kind == s.objs[x].kind && s'.objs[x].self.channel == s.objs[x].self.channel
    {
      RegisterAt(s, owner, o, events, data, x);
    }
    assert SameChannels(s.objs, s'.objs);
    ChannelsFrame(s, s');
  }

  lemma RegisterCalm(s: State, s': State, t: nat, p: nat)
    requires Registering(s, t) && Ledgers(s) && Lists(s.objs) && p < |s.objs|
    requires Registered(s, s', t)
    ensures |s'.objs| == |s.objs| && Calm(s, s', p)
  {
    var task := s.threads[t].task;
    RegisterLedger(s, s', t, p);
    RegisterAt(s, task.owner, task.o, task.events, task.data, p);
    if p != task.owner {
      assert s.objs[task.o].reg.port != Some(p);
      forall x | 0 <= x < |s.objs| && s.objs[x].reg.port == Some(p)
        ensures s'.objs[x].kind == s.objs[x].kind && s'.objs[x].reg == s.objs[x].reg
          && s'.objs[x].writeEnd == s.objs[x].writeEnd && s'.objs[x].readable == s.objs[x].readable
          && Tally(s'.threads, Notifies(x)) == Tally(s.threads, Notifies(x))
      {
        RegisterAt(s, task.owner, task.o, task.events, task.data, x);
        RegisterLedger(s, s', t, x);
      }
      CalmUntouched(s, s', p);
    }
  }
}
