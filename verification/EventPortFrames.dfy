/** What carries over from one state to the next for everything a step does not touch. */
module EventPortFrames {
  import opened Basics
  import opened EventPortModel
  import opened EventPortInvariant

  /** The port keeps its list. */
  ghost predicate SameList(x: Object, y: Object) {
    y.self == x.self || (x.kind == Port && x.frees == 0 && y.self.registered == x.self.registered)
  }

  /** The objects keep everything but their counts, and ports their list. */
  ghost predicate SameButCounts(objs: seq<Object>, objs': seq<Object>) {
    && |objs| <= |objs'|
    && (forall o :: 0 <= o < |objs| ==>
         && objs'[o].kind == objs[o].kind && objs'[o].reg == objs[o].reg && SameList(objs[o], objs'[o])
         && objs'[o].frees == objs[o].frees
         && objs'[o].writeEnd == objs[o].writeEnd && objs'[o].readable == objs[o].readable
         && (objs[o].reg.port.Some? ==> objs'[o].descriptors >= 1))
    && (forall o :: |objs| <= o < |objs'| ==> objs'[o].reg == UNREGISTERED && objs'[o].self == NO_PORT)
  }

  lemma ListsFrame(objs: seq<Object>, objs': seq<Object>)
    requires Lists(objs) && SameButCounts(objs, objs')
    ensures Lists(objs')
  {
    forall p | 0 <= p < |objs'| ensures ListAt(objs', p) {
      if p < |objs| { assert ListAt(objs, p); }
    }
    forall o | 0 <= o < |objs'| ensures MemberAt(objs', o) {
      if o < |objs| { assert MemberAt(objs, o); }
    }
  }

  /** Ports keep their channels and no new object has one. */
  ghost predicate SameChannels(objs: seq<Object>, objs': seq<Object>) {
    && |objs| <= |objs'|
    && (forall p :: 0 <= p < |objs| ==> objs'[p].self.channel == objs[p].self.channel)
    && (forall p :: |objs| <= p < |objs'| ==> objs'[p].self.channel == None)
  }

  lemma ChannelsFrame(s: State, s': State)
    requires Channels(s) && SameChannels(s.objs, s'.objs) && s'.channels == s.channels
    ensures Channels(s')
  {
    forall c | c in s'.channels ensures exists p :: 0 <= p < |s'.objs| && s'.objs[p].self.channel == Some(c) {
      var p :| 0 <= p < |s.objs| && s.objs[p].self.channel == Some(c);
      assert s'.objs[p].self.channel == Some(c);
    }
  }

  lemma BoundedFrame(objs: seq<Object>, objs': seq<Object>)
    requires Bounded(objs) && SameButCounts(objs, objs')
    ensures Bounded(objs')
  {
  }

  /** Nothing about port `p` got worse for a waiter that has already looked, or a wake is coming. */
  ghost predicate Calm(s: State, s': State, p: nat)
    requires p < |s.objs| && p < |s'.objs|
  {
    Coming(s', p) || (
      && !Coming(s, p)
      && s'.objs[p].self.capacity == s.objs[p].self.capacity
      && |s'.objs[p].self.registered| <= |s.objs[p].self.registered|
      && forall o :: o in s'.objs[p].self.registered && o < |s'.objs| ==>
           o in s.objs[p].self.registered && o < |s.objs| && CalmAt(s, s', o))
  }

  ghost predicate CalmAt(s: State, s': State, o: nat)
    requires o < |s.objs| && o < |s'.objs|
  {
    && s'.objs[o].kind == s.objs[o].kind
    && Needs(s'.objs[o].reg) <= Needs(s.objs[o].reg)
    && (Tally(s'.threads, Notifies(o)) > 0
        || (PipeFresh(s'.objs[o]) <= PipeFresh(s.objs[o]) && Tally(s.threads, Notifies(o)) == 0))
  }

  lemma RoundCalm(s: State, s': State, task: Task)
    requires TaskOk(s.objs, task) && TaskOk(s'.objs, task) && RoundOk(s, task)
    requires task.Reserve? || task.Snapshot? || task.Poll? ==> Calm(s, s', task.owner)
    ensures RoundOk(s', task)
  {
    if task.Poll? && !Coming(s', task.owner) {
      var p := task.owner;
      forall o | o in s'.objs[p].self.registered && o < |s'.objs|
        ensures SocketSeen(s'.objs, task, o) && PipeSeen(s', task, o)
      {
        assert CalmAt(s, s', o);
        assert SocketSeen(s.objs, task, o) && PipeSeen(s, task, o);
      }
    }
  }

  /** The rounds survive a step of thread `t` that is calm for every port `t` is not itself the waiter of. */
  lemma RoundsKept(s: State, s': State, t: nat, stack: Stack)
    requires Shapes(s) && Shapes(s') && Ledgers(s) && Rounds(s)
    requires t < |s.threads| && s'.threads == s.threads[t := stack] && |s.objs| <= |s'.objs|
    requires forall p :: 0 <= p < |s.objs| ==>
      Calm(s, s', p) || StackTally(s.threads[t], Waits(p)) > 0 || Tally(s.threads, Waits(p)) == 0
    requires stack.Do? ==> TaskOk(s'.objs, stack.task) && RoundOk(s', stack.task)
    ensures Rounds(s')
  {
    forall u | 0 <= u < |s'.threads| && s'.threads[u].Do? ensures RoundOk(s', s'.threads[u].task) {
      assert StackOk(s'.objs, s'.threads[u], true);
      if u != t {
        var task := s.threads[u].task;
        assert StackOk(s.objs, s.threads[u], true);
        if task.Reserve? || task.Snapshot? || task.Poll? {
          var p := task.owner;
          TallyOfTwo(s.threads, t, u, Waits(p));
          assert TaskTally(task, Waits(p)) == 1;
          assert Ledger(s, p);
          assert Calm(s, s', p);
        }
        RoundCalm(s, s', task);
      }
    }
  }

  /** Nothing a waiter looks at has changed. */
  ghost predicate SameForRounds(objs: seq<Object>, objs': seq<Object>) {
    && |objs| <= |objs'|
    && (forall o :: 0 <= o < |objs| ==>
         && objs'[o].kind == objs[o].kind && objs'[o].reg == objs[o].reg
         && objs'[o].self.registered == objs[o].self.registered && objs'[o].self.channel == objs[o].self.channel
         && objs'[o].writeEnd == objs[o].writeEnd && objs'[o].readable == objs[o].readable)
  }

  /** A step that only moves counts, and neither loses a wake nor a notification, is calm everywhere. */
  lemma QuietIsCalm(s: State, s': State, p: nat)
    requires p < |s.objs| && SameForRounds(s.objs, s'.objs)
    requires s.pending <= s'.pending && s'.objs[p].self.capacity == s.objs[p].self.capacity
    requires Tally(s.threads, Owe(p)) <= Tally(s'.threads, Owe(p)) || TargetOf(s.objs, p) in s'.pending
    requires forall o: nat :: Tally(s'.threads, Notifies(o)) == Tally(s.threads, Notifies(o))
    requires Lists(s.objs)
    ensures Calm(s, s', p)
  {
    if !Coming(s', p) {
      assert ListAt(s.objs, p);
      forall o | o in s'.objs[p].self.registered && o < |s'.objs|
        ensures o in s.objs[p].self.registered && o < |s.objs| && CalmAt(s, s', o)
      {
      }
    }
  }

  /** Two ports that still exist never share a wake target. */
  lemma TargetsDiffer(s: State, p: nat, q: nat)
    requires Channels(s) && p < |s.objs| && q < |s.objs| && p != q
    ensures TargetOf(s.objs, p) != TargetOf(s.objs, q)
  {
  }

  lemma Unroll(stack: Stack)
    ensures forall tag :: StackTally(stack, tag)
              == if stack.Done? then 0 else TaskTally(stack.task, tag) + StackTally(stack.rest, tag)
  {
  }

  /** The same, for the six tags of one object. */
  lemma UnrollAt(stack: Stack, x: nat)
    requires stack.Do?
    ensures StackTally(stack, Pin(x)) == PinTally(stack.task, x) + StackTally(stack.rest, Pin(x))
    ensures StackTally(stack, Made(x)) == TaskTally(stack.task, Made(x)) + StackTally(stack.rest, Made(x))
    ensures StackTally(stack, Doom(x)) == TaskTally(stack.task, Doom(x)) + StackTally(stack.rest, Doom(x))
    ensures StackTally(stack, Owe(x)) == TaskTally(stack.task, Owe(x)) + StackTally(stack.rest, Owe(x))
    ensures StackTally(stack, Notifies(x)) == TaskTally(stack.task, Notifies(x)) + StackTally(stack.rest, Notifies(x))
    ensures StackTally(stack, Waits(x)) == TaskTally(stack.task, Waits(x)) + StackTally(stack.rest, Waits(x))
  {
  }

  /** The counts of `x` are as they were; only wakes may have come to be owed to it. */
  ghost predicate SameCounts(s: State, s': State, x: nat, owed: int) {
    && Slots(s'.table, x) == Slots(s.table, x)
    && Tally(s'.threads, Pin(x)) == Tally(s.threads, Pin(x)) && Tally(s'.threads, Made(x)) == Tally(s.threads, Made(x))
    && Tally(s'.threads, Doom(x)) == Tally(s.threads, Doom(x))
    && Tally(s'.threads, Owe(x)) == Tally(s.threads, Owe(x)) + owed
    && Tally(s'.threads, Waits(x)) == Tally(s.threads, Waits(x))
    && |s'.objs| == |s.objs|
    && (x < |s.objs| ==>
         && s'.objs[x].kind == s.objs[x].kind && s'.objs[x].frees == s.objs[x].frees
         && s'.objs[x].references == s.objs[x].references && s'.objs[x].descriptors == s.objs[x].descriptors
         && s'.objs[x].self.waiting == s.objs[x].self.waiting
         && (Tally(s.threads, Made(x)) > 0 ==>
              && (s.objs[x].reg.port == None ==> s'.objs[x].reg.port == None)
              && (s.objs[x].self.registered == [] ==> s'.objs[x].self.registered == [])))
  }

  lemma LedgerSame(s: State, s': State, x: nat, owed: int)
    requires Ledger(s, x) && SameCounts(s, s', x, owed)
    requires owed > 0 ==> PortAt(s.objs, x) && s.objs[x].frees == 0 && Tally(s.threads, Made(x)) == 0
    ensures Ledger(s', x)
  {
  }

  lemma Described(objs: seq<Object>)
    requires Lists(objs)
    ensures forall o :: 0 <= o < |objs| && objs[o].reg.port.Some? ==> objs[o].descriptors >= 1
  {
    forall o | 0 <= o < |objs| && objs[o].reg.port.Some? ensures objs[o].descriptors >= 1 {
      assert MemberAt(objs, o);
    }
  }

  lemma SlotsUpdate(table: seq<Option<nat>>, fd: nat, entry: Option<nat>)
    requires fd < |table|
    ensures forall o: nat :: Slots(table[fd := entry], o)
              == Slots(table, o) - One(table[fd] == Some(o)) + One(entry == Some(o))
    ensures forall o: nat :: table[fd] == Some(o) ==> Slots(table, o) >= 1
  {
  }

  /** What remains to be shown of a step of thread `t` that only moves counts. */
  lemma QuietStep(s: State, s': State, t: nat, stack: Stack)
    requires Inv(s) && SameButCounts(s.objs, s'.objs) && SameChannels(s.objs, s'.objs)
    requires t < |s.threads| && s'.threads == s.threads[t := stack] && StackOk(s'.objs, stack, true)
    requires s'.channels == s.channels && s'.pending == s.pending
    requires Streams(s') && Ledgers(s')
    requires forall p :: 0 <= p < |s.objs| ==>
      || StackTally(s.threads[t], Waits(p)) > 0
      || (s'.objs[p].self.capacity == s.objs[p].self.capacity
          && Tally(s.threads, Owe(p)) <= Tally(s'.threads, Owe(p)))
    requires forall o: nat :: Tally(s'.threads, Notifies(o)) == Tally(s.threads, Notifies(o))
    requires stack.Do? ==> RoundOk(s', stack.task)
    ensures Inv(s')
  {
    ListsFrame(s.objs, s'.objs);
    ChannelsFrame(s, s');
    BoundedFrame(s.objs, s'.objs);
    ShapesKept(s, s', t, stack);
    forall p | 0 <= p < |s.objs| ensures Calm(s, s', p) || StackTally(s.threads[t], Waits(p)) > 0 {
      if StackTally(s.threads[t], Waits(p)) == 0 { QuietIsCalm(s, s', p); }
    }
    RoundsKept(s, s', t, stack);
  }

  /** What remains to be shown of any step of thread `t`. */
  lemma Assemble(s: State, s': State, t: nat, stack: Stack)
    requires Inv(s) && t < |s.threads| && s'.threads == s.threads[t := stack]
    requires Grows(s.objs, s'.objs) && StackOk(s'.objs, stack, true)
    requires Streams(s') && Ledgers(s') && Lists(s'.objs) && Channels(s') && Bounded(s'.objs)
    requires forall p :: 0 <= p < |s.objs| ==>
      Calm(s, s', p) || StackTally(s.threads[t], Waits(p)) > 0 || Tally(s.threads, Waits(p)) == 0
    requires stack.Do? ==> RoundOk(s', stack.task)
    ensures Inv(s')
  {
    ShapesKept(s, s', t, stack);
    RoundsKept(s, s', t, stack);
  }
}
