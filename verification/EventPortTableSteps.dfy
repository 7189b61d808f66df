/** The steps of the descriptor table keep the invariant. */
module EventPortTableSteps {
  import opened Basics
  import opened EventPortModel
  import opened EventPortInvariant
  import opened EventPortFrames

  /** What stands below the top of a stack may stand on top. */
  lemma BelowTop(objs: seq<Object>, stack: Stack)
    requires StackOk(objs, stack, false)
    ensures StackOk(objs, stack, true)
    ensures stack.Do? ==> Tail(stack.task)
  {
  }

  /** A step that changes neither the table nor an object nor what the thread holds. */
  lemma MoveStep(s: State, t: nat, stack: Stack)
    requires Inv(s) && t < |s.threads| && StackOk(s.objs, stack, true)
    requires forall tag :: StackTally(stack, tag) == StackTally(s.threads[t], tag)
    requires stack.Do? ==> RoundOk(Set(s, t, stack), stack.task)
    ensures Inv(Set(s, t, stack))
  {
    var s' := Set(s, t, stack);
    forall o: nat ensures Ledger(s', o) && Tally(s'.threads, Notifies(o)) == Tally(s.threads, Notifies(o))
      && Tally(s'.threads, Owe(o)) == Tally(s.threads, Owe(o))
    {
      TallyAt(s.threads, t, stack, o);
      assert Ledger(s, o);
    }
    Described(s.objs);
    QuietStep(s, s', t, stack);
  }

  // ---- pins ----------------------------------------------------------------------------------

  lemma PinLedger(s: State, s': State, t: nat, o: nat, stack: Stack, x: nat)
    requires t < |s.threads| && o < |s.objs| && Slots(s.table, o) >= 1 && Ledger(s, o) && Ledger(s, x)
    requires forall tag :: StackTally(stack, tag) == StackTally(s.threads[t], tag) + One(tag == Pin(o))
    requires s' == Set(s.(objs := AddReference(s.objs, o)), t, stack)
    ensures Ledger(s', x)
    ensures Tally(s'.threads, Notifies(x)) == Tally(s.threads, Notifies(x))
    ensures Tally(s'.threads, Owe(x)) == Tally(s.threads, Owe(x))
  {
    TallyAt(s.threads, t, stack, x);
  }

  /** sn_pin: the thread holds one pin more on an object it found in the table. */
  lemma PinStep(s: State, t: nat, o: nat, stack: Stack)
    requires Inv(s) && t < |s.threads| && o < |s.objs| && Slots(s.table, o) >= 1 && StackOk(s.objs, stack, true)
    requires forall tag :: StackTally(stack, tag) == StackTally(s.threads[t], tag) + One(tag == Pin(o))
    requires stack.Do? && !stack.task.Reserve? && !stack.task.Snapshot? && !stack.task.Poll?
    ensures Inv(Set(s.(objs := AddReference(s.objs, o)), t, stack))
  {
    var s' := Set(s.(objs := AddReference(s.objs, o)), t, stack);
    assert Ledger(s, o);
    forall x: nat ensures Ledger(s', x) && Tally(s'.threads, Notifies(x)) == Tally(s.threads, Notifies(x))
      && Tally(s'.threads, Owe(x)) == Tally(s.threads, Owe(x))
    {
      assert Ledger(s, x);
      PinLedger(s, s', t, o, stack, x);
    }
    Described(s.objs);
    StackGrows(s.objs, s'.objs, stack, true);
    QuietStep(s, s', t, stack);
  }

  lemma PinnedSlot(s: State, fd: nat, kinds: set<Kind>)
    requires Streams(s) && Addressed(s) && Pinned(s, fd, kinds).Some?
    ensures var o := Pinned(s, fd, kinds).value;
      o < |s.objs| && s.objs[o].kind in kinds && Slots(s.table, o) >= 1
  {
    assert s.table[fd] in multiset(s.table);
  }

  lemma UnpinTally(threads: seq<Stack>, t: nat, o: nat, last: bool, tag: Tag)
    requires t < |threads| && threads[t].Do? && threads[t].task == Unpin(o)
    ensures var rest := threads[t].rest; var threads' := threads[t := if last then Do(Destroy(o), rest) else rest];
      && Tally(threads', tag) == Tally(threads, tag) - One(tag == Pin(o)) + One(last && tag == Doom(o))
      && One(tag == Pin(o)) <= Tally(threads, tag)
  {
    var rest := threads[t].rest;
    TallyUpdate(threads, t, if last then Do(Destroy(o), rest) else rest, tag);
  }

  lemma UnpinTallies(threads: seq<Stack>, t: nat, o: nat, last: bool, x: nat)
    requires t < |threads| && threads[t].Do? && threads[t].task == Unpin(o)
    ensures var rest := threads[t].rest; var threads' := threads[t := if last then Do(Destroy(o), rest) else rest];
      && Tally(threads', Pin(x)) == Tally(threads, Pin(x)) - One(x == o)
      && Tally(threads', Made(x)) == Tally(threads, Made(x))
      && Tally(threads', Doom(x)) == Tally(threads, Doom(x)) + One(x == o && last)
      && Tally(threads', Owe(x)) == Tally(threads, Owe(x))
      && Tally(threads', Notifies(x)) == Tally(threads, Notifies(x))
      && Tally(threads', Waits(x)) == Tally(threads, Waits(x))
      && Tally(threads, Pin(o)) >= 1
  {
    UnpinTally(threads, t, o, last, Pin(x));
    UnpinTally(threads, t, o, last, Made(x));
    UnpinTally(threads, t, o, last, Doom(x));
    UnpinTally(threads, t, o, last, Owe(x));
    UnpinTally(threads, t, o, last, Notifies(x));
    UnpinTally(threads, t, o, last, Waits(x));
    UnpinTally(threads, t, o, last, Pin(o));
  }

  lemma UnpinLedger(s: State, s': State, t: nat, o: nat, x: nat)
    requires t < |s.threads| && s.threads[t].Do? && s.threads[t].task == Unpin(o) && o < |s.objs|
    requires Ledger(s, o) && Ledger(s, x) && s' == UnpinNow(s, t, o, s.threads[t].rest)
    ensures Ledger(s', x)
    ensures Tally(s'.threads, Notifies(x)) == Tally(s.threads, Notifies(x))
    ensures Tally(s'.threads, Owe(x)) == Tally(s.threads, Owe(x))
  {
    UnpinTallies(s.threads, t, o, s.objs[o].references == 1, x);
  }

  /** sn_unpin: the last reference leaves the duty to destroy with this thread. */
  lemma UnpinStep(s: State, t: nat, o: nat)
    requires Inv(s) && t < |s.threads| && s.threads[t].Do? && s.threads[t].task == Unpin(o) && o < |s.objs|
    ensures Inv(UnpinNow(s, t, o, s.threads[t].rest))
  {
    var rest := s.threads[t].rest;
    var s' := UnpinNow(s, t, o, rest);
    var stack := if s.objs[o].references == 1 then Do(Destroy(o), rest) else rest;
    assert Ledger(s, o);
    forall x: nat ensures Ledger(s', x) && Tally(s'.threads, Notifies(x)) == Tally(s.threads, Notifies(x))
      && Tally(s'.threads, Owe(x)) == Tally(s.threads, Owe(x))
    {
      assert Ledger(s, x);
      UnpinLedger(s, s', t, o, x);
    }
    assert StackOk(s.objs, s.threads[t], true);
    BelowTop(s.objs, rest);
    Described(s.objs);
    assert StackOk(s.objs, stack, true);
    StackGrows(s.objs, s'.objs, stack, true);
    QuietStep(s, s', t, stack);
  }

  // ---- creation --------------------------------------------------------------------------------

  lemma NewLedger(s: State, s': State, t: nat, kind: Kind, writeEnd: bool, task: Task, x: nat)
    requires Idle(s, t) && Ledger(s, x)
    requires task == Install(|s.objs|) || task == Discard(|s.objs|)
    requires s' == Set(s.(objs := s.objs + [Fresh(kind, writeEnd)]), t, Do(task, Done))
    ensures Ledger(s', x)
    ensures Tally(s'.threads, Notifies(x)) == Tally(s.threads, Notifies(x))
    ensures Tally(s'.threads, Owe(x)) == Tally(s.threads, Owe(x))
  {
    TallyAt(s.threads, t, Do(task, Done), x);
    Unroll(Do(task, Done));
    Unroll(Done);
  }

  /** sn_new: an object that only its creator knows. */
  lemma NewStep(s: State, t: nat, kind: Kind, writeEnd: bool, task: Task)
    requires Inv(s) && Idle(s, t) && kind != Stream
    requires task == Install(|s.objs|) || task == Discard(|s.objs|)
    ensures Inv(Set(s.(objs := s.objs + [Fresh(kind, writeEnd)]), t, Do(task, Done)))
  {
    var stack := Do(task, Done);
    var s' := Set(s.(objs := s.objs + [Fresh(kind, writeEnd)]), t, stack);
    forall x: nat ensures Ledger(s', x) && Tally(s'.threads, Notifies(x)) == Tally(s.threads, Notifies(x))
      && Tally(s'.threads, Owe(x)) == Tally(s.threads, Owe(x))
    {
      assert Ledger(s, x);
      NewLedger(s, s', t, kind, writeEnd, task, x);
    }
    Described(s.objs);
    QuietStep(s, s', t, stack);
  }

  lemma {:induction false} FirstFreeFinds(table: seq<Option<nat>>, fd: nat)
    ensures var r := FirstFree(table, fd);
      if r.Some? then
        fd <= r.value < |table| && table[r.value] == None && forall i :: fd <= i < r.value ==> table[i].Some?
      else forall i :: fd <= i < |table| ==> table[i].Some?
    decreases |table| - fd
  {
    if fd < |table| && table[fd].Some? { FirstFreeFinds(table, fd + 1); }
  }

  lemma InstallLedger(s: State, s': State, t: nat, o: nat, fd: nat, x: nat)
    requires t < |s.threads| && s.threads[t].Do? && s.threads[t].task == Install(o) && o < |s.objs|
    requires fd < |s.table| && s.table[fd] == None && Ledger(s, o) && Ledger(s, x)
    requires s' == Set(s.(table := s.table[fd := Some(o)]), t, s.threads[t].rest)
    ensures Ledger(s', x)
    ensures Tally(s'.threads, Notifies(x)) == Tally(s.threads, Notifies(x))
    ensures Tally(s'.threads, Owe(x)) == Tally(s.threads, Owe(x))
  {
    TallyAt(s.threads, t, s.threads[t].rest, x);
    TallyAt(s.threads, t, s.threads[t].rest, o);
    Unroll(s.threads[t]);
    SlotsUpdate(s.table, fd, Some(o));
  }

  /** sn_install finds a descriptor. */
  lemma InstallStep(s: State, t: nat, o: nat, fd: nat)
    requires Inv(s) && t < |s.threads| && s.threads[t].Do? && s.threads[t].task == Install(o)
    requires 3 <= fd < MAX_FD && s.table[fd] == None
    ensures Inv(Set(s.(table := s.table[fd := Some(o)]), t, s.threads[t].rest))
  {
    var stack := s.threads[t].rest;
    var s' := Set(s.(table := s.table[fd := Some(o)]), t, stack);
    assert StackOk(s.objs, s.threads[t], true);
    BelowTop(s.objs, stack);
    assert Ledger(s, o);
    forall x: nat ensures Ledger(s', x) && Tally(s'.threads, Notifies(x)) == Tally(s.threads, Notifies(x))
      && Tally(s'.threads, Owe(x)) == Tally(s.threads, Owe(x))
    {
      assert Ledger(s, x);
      InstallLedger(s, s', t, o, fd, x);
    }
    Described(s.objs);
    QuietStep(s, s', t, stack);
  }

  // ---- duplication --------------------------------------------------------------------------------

  lemma DupLedger(s: State, o: nat, fd: nat, x: nat)
    requires o < |s.objs| && fd < |s.table| && Slots(s.table, o) >= 1 && s.table[fd] == None
    requires Ledger(s, o) && Ledger(s, x)
    ensures Ledger(Duplicated(s, o, fd), x)
  {
    SlotsUpdate(s.table, fd, Some(o));
  }

  lemma DupStep(s: State, t: nat, o: nat, fd: nat)
    requires Inv(s) && o < |s.objs| && Slots(s.table, o) >= 1 && Idle(s, t)
    requires 3 <= fd < MAX_FD && s.table[fd] == None
    ensures Inv(Duplicated(s, o, fd))
  {
    var s' := Duplicated(s, o, fd);
    assert Ledger(s, o);
    forall x: nat ensures Ledger(s', x) {
      assert Ledger(s, x);
      DupLedger(s, o, fd, x);
    }
    Described(s.objs);
    assert s'.threads == s.threads[t := Done];
    QuietStep(s, s', t, Done);
  }

  // ---- wakes -------------------------------------------------------------------------------------

  lemma WakeTally(threads: seq<Stack>, t: nat, p: nat, x: nat)
    requires t < |threads| && threads[t].Do? && threads[t].task == Wake(p)
    ensures var threads' := threads[t := threads[t].rest];
      && Tally(threads', Pin(x)) == Tally(threads, Pin(x)) && Tally(threads', Made(x)) == Tally(threads, Made(x))
      && Tally(threads', Doom(x)) == Tally(threads, Doom(x)) && Tally(threads', Waits(x)) == Tally(threads, Waits(x))
      && Tally(threads', Notifies(x)) == Tally(threads, Notifies(x))
      && Tally(threads', Owe(x)) == Tally(threads, Owe(x)) - One(x == p)
  {
    TallyAt(threads, t, threads[t].rest, x);
    UnrollAt(threads[t], x);
  }

  /** A wake moves from owed to pending. */
  lemma WakeStep(s: State, t: nat, p: nat)
    requires Inv(s) && t < |s.threads| && s.threads[t].Do? && s.threads[t].task == Wake(p) && p < |s.objs|
    ensures Inv(WakeNow(s, t, p, s.threads[t].rest))
  {
    var stack := s.threads[t].rest;
    var s' := WakeNow(s, t, p, stack);
    assert StackOk(s.objs, s.threads[t], true);
    BelowTop(s.objs, stack);
    forall x: nat ensures Ledger(s', x) && Tally(s'.threads, Notifies(x)) == Tally(s.threads, Notifies(x))
      && (x == p || Tally(s'.threads, Owe(x)) == Tally(s.threads, Owe(x)))
    {
      assert Ledger(s, x);
      WakeTally(s.threads, t, p, x);
      LedgerSame(s, s', x, 0 - One(x == p));
    }
    forall q | 0 <= q < |s.objs| ensures Calm(s, s', q) {
      QuietIsCalm(s, s', q);
    }
    assert SameChannels(s.objs, s'.objs);
    ChannelsFrame(s, s');
    Assemble(s, s', t, stack);
  }
}
