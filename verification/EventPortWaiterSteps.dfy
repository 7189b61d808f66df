/** The steps of the waiter's rounds keep the invariant. */
module EventPortWaiterSteps {
  import opened Basics
  import opened EventPortModel
  import opened EventPortInvariant
  import opened EventPortFrames
  import opened EventPortTableSteps
  import opened EventPortLifeSteps
  import opened EventPortListSteps
  import opened EventPortSignalSteps
  import opened EventPortScan

  // ---- the list fits the poll ------------------------------------------------------------------------

  /** Distinct objects that each hold a slot are no more than there are slots. */
  lemma {:induction false} Pigeons(table: seq<Option<nat>>, list: seq<nat>)
    requires NoDup(list) && forall o :: o in list ==> Some(o) in table
    ensures |list| <= |table|
    decreases |table|
  {
    assert list == [] || list[0] in list;
    if table != [] {
      var last := |table| - 1;
      var rest := if table[last].Some? then Without(list, table[last].value) else list;
      if table[last].Some? { WithoutMembers(list, table[last].value); WithoutSize(list, table[last].value); }
      forall o | o in rest ensures Some(o) in table[..last] {
        assert o in list && Some(o) != table[last];
        var i :| 0 <= i < |table| && table[i] == Some(o);
        assert table[..last][i] == Some(o);
      }
      Pigeons(table[..last], rest);
    }
  }

  lemma {:induction false} WithoutSize<T>(s: seq<T>, x: T)
    ensures |Without(s, x)| >= |s| - 1
  {
    if s != [] && s[0] != x { WithoutSize(s[1..], x); }
  }

  /** A registered list never exceeds the descriptor table, so it always fits one poll. */
  lemma ListFits(s: State, p: nat)
    requires Sound(s) && p < |s.objs|
    ensures |s.objs[p].self.registered| <= MAX_FD <= MAX_POLL
  {
    var list := s.objs[p].self.registered;
    assert ListAt(s.objs, p);
    forall o | o in list ensures Some(o) in s.table {
      assert MemberAt(s.objs, o) && Ledger(s, o);
      assert Some(o) in multiset(s.table);
    }
    Pigeons(s.table, list);
  }

  // ---- taking and giving back the waiter's place ---------------------------------------------------------

  /** The moves of a waiter between its place and outside, and the reservation. */
  ghost predicate PlaceMove(s: State, t: nat, owner: nat, self: PortState, task: Task)
    requires t < |s.threads| && s.threads[t].Do? && owner < |s.objs|
  {
    var old' := s.threads[t].task;
    && self.registered == s.objs[owner].self.registered && self.channel == s.objs[owner].self.channel
    && (|| (old' == WaitEnter(owner, if task.Count? then task.room else 0) && task.Count? && task.owner == owner
            && self == s.objs[owner].self.(waiting := true) && !s.objs[owner].self.waiting)
        || (old' == Leave(owner) && task == Unpin(owner) && self == s.objs[owner].self.(waiting := false)
            && s.objs[owner].self.waiting)
        || (old'.Reserve? && old'.owner == owner && task == Snapshot(owner, old'.room)
            && self.waiting == s.objs[owner].self.waiting))
  }

  lemma PlaceTally(s: State, t: nat, owner: nat, self: PortState, task: Task, tag: Tag)
    requires t < |s.threads| && s.threads[t].Do? && owner < |s.objs| && PlaceMove(s, t, owner, self, task)
    ensures Tally(s.threads[t := Do(task, s.threads[t].rest)], tag) == Tally(s.threads, tag)
      + One(tag == Waits(owner) && self.waiting) - One(tag == Waits(owner) && s.objs[owner].self.waiting)
  {
    TallyUpdate(s.threads, t, Do(task, s.threads[t].rest), tag);
  }

  lemma PlaceLedger(s: State, s': State, t: nat, owner: nat, self: PortState, task: Task, x: nat)
    requires t < |s.threads| && s.threads[t].Do? && owner < |s.objs| && Ledger(s, x)
    requires PlaceMove(s, t, owner, self, task)
    requires s' == Set(WithPort(s, owner, self), t, Do(task, s.threads[t].rest))
    ensures Ledger(s', x)
    ensures Tally(s'.threads, Notifies(x)) == Tally(s.threads, Notifies(x))
    ensures Tally(s'.threads, Owe(x)) == Tally(s.threads, Owe(x))
  {
    PlaceTally(s, t, owner, self, task, Pin(x));
    PlaceTally(s, t, owner, self, task, Made(x));
    PlaceTally(s, t, owner, self, task, Doom(x));
    PlaceTally(s, t, owner, self, task, Owe(x));
    PlaceTally(s, t, owner, self, task, Notifies(x));
    PlaceTally(s, t, owner, self, task, Waits(x));
  }

  /** A step of a waiter that touches nothing but the port's own `waiting` and `capacity`. */
  lemma PlaceStep(s: State, t: nat, owner: nat, self: PortState, task: Task)
    requires Inv(s) && t < |s.threads| && s.threads[t].Do? && PortAt(s.objs, owner)
    requires PlaceMove(s, t, owner, self, task)
    requires task.Snapshot? ==> RoundOk(Set(WithPort(s, owner, self), t, Do(task, s.threads[t].rest)), task)
    ensures Inv(Set(WithPort(s, owner, self), t, Do(task, s.threads[t].rest)))
  {
    var stack := Do(task, s.threads[t].rest);
    var s' := Set(WithPort(s, owner, self), t, stack);
    PinAlive(s, t, owner);
    forall x: nat ensures Ledger(s', x) && Tally(s'.threads, Notifies(x)) == Tally(s.threads, Notifies(x))
      && Tally(s'.threads, Owe(x)) == Tally(s.threads, Owe(x))
    {
      assert Ledger(s, x);
      PlaceLedger(s, s', t, owner, self, task, x);
    }
    Described(s.objs);
    assert StackOk(s.objs, s.threads[t], true);
    StackGrows(s.objs, s'.objs, stack, true);
    if task.Snapshot? { InPlace(s, t, owner); }
    QuietStep(s, s', t, stack);
  }

  /** The top task pins its port, so the port has not been destroyed. */
  lemma PinAlive(s: State, t: nat, o: nat)
    requires Ledgers(s) && t < |s.threads| && s.threads[t].Do? && PinTally(s.threads[t].task, o) >= 1 && o < |s.objs|
    ensures s.objs[o].frees == 0 && Tally(s.threads, Pin(o)) >= 1 && Tally(s.threads, Made(o)) == 0
  {
    assert Ledger(s, o);
    TallyUpdate(s.threads, t, Done, Pin(o));
  }

  lemma InPlace(s: State, t: nat, p: nat)
    requires Ledgers(s) && t < |s.threads| && s.threads[t].Do? && InRound(s.threads[t].task)
    requires s.threads[t].task.owner == p && p < |s.objs|
    ensures s.objs[p].self.waiting && StackTally(s.threads[t], Waits(p)) > 0
  {
    assert Ledger(s, p);
    TallyUpdate(s.threads, t, Done, Waits(p));
  }

  // ---- the poll returns --------------------------------------------------------------------------------------

  lemma PollLedger(s: State, s': State, t: nat, stack: Stack, x: nat)
    requires t < |s.threads| && Ledger(s, x) && s'.objs == s.objs && s'.table == s.table
    requires s'.threads == s.threads[t := stack]
    requires s.threads[t].Do? && s.threads[t].task.Poll? && stack.Do? && stack.task.Convert?
    requires stack.rest == s.threads[t].rest
    requires stack.task.owner == s.threads[t].task.owner && stack.task.objects == s.threads[t].task.objects
    ensures Ledger(s', x)
    ensures Tally(s'.threads, Notifies(x)) == Tally(s.threads, Notifies(x))
    ensures Tally(s'.threads, Owe(x)) == Tally(s.threads, Owe(x))
  {
    TallyAt(s.threads, t, stack, x);
  }

  lemma PollCalm(s: State, s': State, t: nat, p: nat)
    requires Sound(s) && t < |s.threads| && s.threads[t].Do? && s.threads[t].task.Poll?
    requires TaskOk(s.objs, s.threads[t].task)
    requires s'.objs == s.objs && p < |s.objs|
    requires forall x: nat :: Tally(s'.threads, Notifies(x)) == Tally(s.threads, Notifies(x))
    requires forall x: nat :: Tally(s'.threads, Owe(x)) == Tally(s.threads, Owe(x))
    requires s'.pending == s.pending || s'.pending == s.pending - {TargetOf(s.objs, s.threads[t].task.owner)}
    ensures Calm(s, s', p) || StackTally(s.threads[t], Waits(p)) > 0
  {
    var owner := s.threads[t].task.owner;
    if p == owner {
      InPlace(s, t, p);
    } else {
      TargetsDiffer(s, p, owner);
      if !Coming(s', p) {
        assert ListAt(s.objs, p);
        assert forall o :: o in s.objs[p].self.registered ==> o < |s.objs| && CalmAt(s, s', o);
      }
    }
  }

  lemma PollStep(s: State, t: nat, raw: seq<set<Condition>>, ok: bool, consumed: bool)
    requires Inv(s) && Addressed(s) && Enabled(s, PollReturns(t, raw, ok, consumed))
    ensures Inv(Apply(s, PollReturns(t, raw, ok, consumed)))
  {
    var s' := Apply(s, PollReturns(t, raw, ok, consumed));
    var stack := s'.threads[t];
    assert StackOk(s.objs, s.threads[t], true);
    assert StackOk(s.objs, stack, true);
    forall x: nat ensures Ledger(s', x) && Tally(s'.threads, Notifies(x)) == Tally(s.threads, Notifies(x))
      && Tally(s'.threads, Owe(x)) == Tally(s.threads, Owe(x))
    {
      assert Ledger(s, x);
      PollLedger(s, s', t, stack, x);
    }
    assert SameChannels(s.objs, s'.objs);
    ChannelsFrame(s, s');
    forall p | 0 <= p < |s.objs| ensures Calm(s, s', p) || StackTally(s.threads[t], Waits(p)) > 0 {
      PollCalm(s, s', t, p);
    }
    Assemble(s, s', t, stack);
  }

  // ---- turning levels into edges --------------------------------------------------------------------------------

  lemma ReportSocketBounded(reg: Registration, triggered: set<Condition>)
    requires RegistrationOk(reg) && triggered <= REPORTABLE
    ensures RegistrationOk(ReportSocket(reg, triggered))
  {
    var unseen := Unseen(reg, triggered);
    assert |reg.reported + unseen| == |reg.reported| + |unseen|;
    if Shown(reg, triggered) != {} {
      assert unseen != {};
      var d :| d in unseen;
      assert |unseen| == |unseen - {d}| + 1;
    }
  }

  /** The pin of the converted socket moves from the round to the unpin that follows. */
  lemma ConvertGains(s: State, t: nat, stack: Stack, x: nat)
    requires t < |s.threads| && s.threads[t].Do? && s.threads[t].task.Convert? && s.threads[t].task.objects != []
    requires stack.Do? && stack.task == Unpin(s.threads[t].task.objects[0])
    requires stack.rest.Do? && stack.rest.rest == s.threads[t].rest && stack.rest.task.Convert?
    requires stack.rest.task.owner == s.threads[t].task.owner
    requires stack.rest.task.objects == s.threads[t].task.objects[1..]
    ensures Gains(s, t, stack, s.threads[t].task.objects[0], x)
    ensures StackTally(stack, Notifies(x)) == StackTally(s.threads[t], Notifies(x))
  {
    var objects := s.threads[t].task.objects;
    assert objects == [objects[0]] + objects[1..];
    assert multiset(objects)[x] == One(objects[0] == x) + multiset(objects[1..])[x];
    UnrollAt(s.threads[t], x);
    UnrollAt(stack, x);
    UnrollAt(stack.rest, x);
  }

  lemma ConvertStack(objs: seq<Object>, old': Stack, buffer: seq<Record>)
    requires StackOk(objs, old', true) && old'.Do? && old'.task.Convert? && old'.task.objects != []
    ensures var task := old'.task;
      StackOk(objs, Do(Unpin(task.objects[0]),
        Do(task.(objects := task.objects[1..], triggered := task.triggered[1..], buffer := buffer), old'.rest)), true)
  {
  }

  lemma ConvertTerms(objs: seq<Object>, owner: nat, room: nat, o: nat, triggered: set<Condition>, buffer: seq<Record>,
                     ok: bool)
    requires o < |objs| && RegistrationOk(objs[o].reg) && triggered <= REPORTABLE
    ensures var objs' := ConvertOne(objs, owner, room, o, triggered, buffer, ok).0;
      && |objs'| == |objs| && objs' == Touched(objs, o, objs'[o].reg, objs[o].readable)
      && SameTerms(objs[o].reg, objs'[o].reg) && RegistrationOk(objs'[o].reg)
      && Needs(objs'[o].reg) <= Needs(objs[o].reg) && PipeFresh(objs'[o]) <= PipeFresh(objs[o])
      && objs'[o].kind == objs[o].kind
  {
    ReportSocketBounded(objs[o].reg, triggered);
  }

  lemma ConvertStep(s: State, t: nat)
    requires Inv(s) && t < |s.threads| && s.threads[t].Do? && s.threads[t].task.Convert?
    requires s.threads[t].task.objects != []
    requires TaskOk(s.objs, s.threads[t].task) && Within(s.threads[t].task.objects, |s.objs|)
    ensures Inv(ConvertNow(s, t, s.threads[t].task, s.threads[t].rest))
  {
    var task := s.threads[t].task;
    var o := task.objects[0];
    var r := ConvertOne(s.objs, task.owner, task.room, o, task.triggered[0], task.buffer, task.ok);
    var s' := ConvertNow(s, t, task, s.threads[t].rest);
    var stack := s'.threads[t];
    assert RegistrationOk(s.objs[o].reg);
    ConvertTerms(s.objs, task.owner, task.room, o, task.triggered[0], task.buffer, task.ok);
    forall x: nat ensures Gains(s, t, stack, o, x) { ConvertGains(s, t, stack, x); }
    assert StackOk(s.objs, s.threads[t], true);
    ConvertStack(s.objs, s.threads[t], r.1);
    TallyUpdate(s.threads, t, stack, Notifies(o));
    ConvertGains(s, t, stack, o);
    TouchStep(s, s', t, o, r.0[o].reg, s.objs[o].readable, stack);
  }

  // ---- the snapshot ------------------------------------------------------------------------------------------------

  ghost predicate Snapping(s: State, t: nat) {
    && t < |s.threads| && s.threads[t].Do? && s.threads[t].task.Snapshot? && TaskOk(s.objs, s.threads[t].task)
    && Within(s.objs[s.threads[t].task.owner].self.registered, |s.objs|)
  }

  function Snapped(s: State, t: nat): State
    requires Snapping(s, t)
  {
    SnapshotNow(s, t, s.threads[t].task.owner, s.threads[t].task.room, s.threads[t].rest)
  }

  lemma SnapshotList(s: State, p: nat)
    requires Lists(s.objs) && p < |s.objs|
    ensures Within(s.objs[p].self.registered, |s.objs|) && Scannable(s.objs, s.objs[p].self.registered)
  {
    var list := s.objs[p].self.registered;
    assert ListAt(s.objs, p);
    forall i | 0 <= i < |list| ensures list[i] < |s.objs| && s.objs[list[i]].kind in {Socket, Pipe} {
      assert list[i] in list;
      assert MemberAt(s.objs, list[i]);
    }
  }

  /** `k` more pins on an object that is registered. */
  lemma LedgerPins(s: State, s': State, x: nat, k: nat)
    requires Ledger(s, x) && s'.table == s.table && |s'.objs| == |s.objs|
    requires Tally(s'.threads, Pin(x)) == Tally(s.threads, Pin(x)) + k
    requires Tally(s'.threads, Made(x)) == Tally(s.threads, Made(x))
    requires Tally(s'.threads, Doom(x)) == Tally(s.threads, Doom(x))
    requires Tally(s'.threads, Owe(x)) == Tally(s.threads, Owe(x))
    requires Tally(s'.threads, Waits(x)) == Tally(s.threads, Waits(x))
    requires k > 0 ==> x < |s.objs| && s.objs[x].frees == 0 && s.objs[x].descriptors >= 1 && s.objs[x].reg.port.Some?
    requires x < |s.objs| ==>
      && ScanKept(s.objs[x], s'.objs[x]) && s'.objs[x].references == s.objs[x].references + k
    ensures Ledger(s', x)
  {
  }

  lemma SnapshotTallies(s: State, s': State, t: nat, x: nat)
    requires Snapping(s, t) && s' == Snapped(s, t)
    ensures var k := multiset(SnapshotOf(s.objs, s.threads[t].task.owner, s.threads[t].task.room).objects)[x];
      && Tally(s'.threads, Pin(x)) == Tally(s.threads, Pin(x)) + k
      && Tally(s'.threads, Made(x)) == Tally(s.threads, Made(x))
      && Tally(s'.threads, Doom(x)) == Tally(s.threads, Doom(x))
      && Tally(s'.threads, Owe(x)) == Tally(s.threads, Owe(x))
      && Tally(s'.threads, Notifies(x)) == Tally(s.threads, Notifies(x))
      && Tally(s'.threads, Waits(x)) == Tally(s.threads, Waits(x))
  {
    TallyAt(s.threads, t, s'.threads[t], x);
    UnrollAt(s.threads[t], x);
    UnrollAt(s'.threads[t], x);
  }

  lemma SnapshotLedger(s: State, s': State, t: nat, x: nat)
    requires Snapping(s, t) && Lists(s.objs) && Ledger(s, x) && s' == Snapped(s, t)
    ensures Ledger(s', x)
    ensures Tally(s'.threads, Notifies(x)) == Tally(s.threads, Notifies(x))
    ensures Tally(s'.threads, Owe(x)) == Tally(s.threads, Owe(x))
  {
    var owner, room := s.threads[t].task.owner, s.threads[t].task.room;
    var r := SnapshotOf(s.objs, owner, room);
    var port := s.objs[owner].self;
    var limit := Min(port.capacity, MAX_POLL);
    SnapshotList(s, owner);
    ScanAt(s.objs, port.registered, limit, room, [], [], [], owner);
    SnapshotTallies(s, s', t, x);
    if x < |s.objs| {
      ScanAt(s.objs, port.registered, limit, room, [], [], [], x);
      ScannedMember(s, owner, room, x);
      LedgerPins(s, s', x, multiset(r.objects)[x]);
    } else {
      ScannedFrom(s.objs, port.registered, limit, room, [], [], [], x);
      LedgerPins(s, s', x, 0);
    }
  }

  /** Only objects on the list are pinned by the pass. */
  lemma {:induction false} ScannedFrom(objs: seq<Object>, list: seq<nat>, limit: nat, room: nat,
                                       objects: seq<nat>, requested: seq<set<Condition>>, buffer: seq<Record>, x: nat)
    requires Within(list, |objs|) && x !in list && x !in objects
    ensures x !in Scan(objs, list, limit, room, objects, requested, buffer).objects
    decreases |list|
  {
    if list != [] && |objects| < limit {
      var r := ScanOne(objs, list[0], room, objects, requested, buffer);
      ScannedFrom(r.objs, list[1..], limit, room, r.objects, r.requested, r.buffer, x);
    }
  }

  lemma ScannedMember(s: State, owner: nat, room: nat, x: nat)
    requires Lists(s.objs) && owner < |s.objs| && Within(s.objs[owner].self.registered, |s.objs|) && x < |s.objs|
    ensures x in SnapshotOf(s.objs, owner, room).objects ==> s.objs[x].frees == 0 && s.objs[x].descriptors >= 1
    ensures x in SnapshotOf(s.objs, owner, room).objects ==> s.objs[x].reg.port == Some(owner)
  {
    var port := s.objs[owner].self;
    if x !in port.registered {
      ScannedFrom(s.objs, port.registered, Min(port.capacity, MAX_POLL), room, [], [], [], x);
    } else {
      assert ListAt(s.objs, owner) && MemberAt(s.objs, x);
    }
  }

  lemma SnapshotFrames(s: State, s': State, t: nat)
    requires Sound(s) && Snapping(s, t) && s' == Snapped(s, t)
    ensures |s'.objs| == |s.objs| && Grows(s.objs, s'.objs)
    ensures Streams(s') && Channels(s') && Lists(s'.objs) && Bounded(s'.objs)
    ensures StackOk(s'.objs, s'.threads[t], true)
    ensures forall x :: 0 <= x < |s.objs| ==> ScanKept(s.objs[x], s'.objs[x])
  {
    var owner, room := s.threads[t].task.owner, s.threads[t].task.room;
    var port := s.objs[owner].self;
    var limit := Min(port.capacity, MAX_POLL);
    SnapshotList(s, owner);
    ScanAt(s.objs, port.registered, limit, room, [], [], [], owner);
    ScanShape(s.objs, port.registered, limit, room, [], [], []);
    forall x | 0 <= x < |s.objs| ensures ScanKept(s.objs[x], s'.objs[x]) {
      ScanAt(s.objs, port.registered, limit, room, [], [], [], x);
    }
    assert SameChannels(s.objs, s'.objs);
    ChannelsFrame(s, s');
    assert StackOk(s.objs, s.threads[t], true);
    assert StackOk(s.objs, s'.threads[t], true);
    StackGrows(s.objs, s'.objs, s'.threads[t], true);
    ScanLists(s.objs, s'.objs);
  }

  lemma ScanLists(objs: seq<Object>, objs': seq<Object>)
    requires Lists(objs) && |objs'| == |objs| && forall x :: 0 <= x < |objs| ==> ScanKept(objs[x], objs'[x])
    ensures Lists(objs')
  {
    forall p | 0 <= p < |objs'| ensures ListAt(objs', p) { assert ListAt(objs, p); }
    forall x | 0 <= x < |objs'| ensures MemberAt(objs', x) { assert MemberAt(objs, x); }
  }

  /** The poll that follows the snapshot sees everything, or a wake is coming. */
  lemma SnapshotRound(s: State, s': State, t: nat)
    requires Sound(s) && Snapping(s, t) && TaskOk(s.objs, s.threads[t].task) && RoundOk(s, s.threads[t].task)
    requires s' == Snapped(s, t)
    requires |s'.objs| == |s.objs| && StackOk(s'.objs, s'.threads[t], true)
    requires forall x :: 0 <= x < |s.objs| ==> ScanKept(s.objs[x], s'.objs[x])
    requires forall x: nat :: Tally(s'.threads, Owe(x)) == Tally(s.threads, Owe(x))
    ensures RoundOk(s', s'.threads[t].task)
  {
    var owner, room := s.threads[t].task.owner, s.threads[t].task.room;
    var port := s.objs[owner].self;
    var limit := Min(port.capacity, MAX_POLL);
    var task := s'.threads[t].task;
    SnapshotList(s, owner);
    assert ScanKept(s.objs[owner], s'.objs[owner]);
    if !Coming(s', owner) {
      assert ListAt(s.objs, owner);
      forall o | o in s'.objs[owner].self.registered && o < |s'.objs|
        ensures SocketSeen(s'.objs, task, o) && PipeSeen(s', task, o)
      {
        ScanCovers(s.objs, port.registered, limit, room, [], [], [], o);
        assert ScanKept(s.objs[o], s'.objs[o]);
      }
    }
  }

  lemma SnapshotCalm(s: State, s': State, p: nat)
    requires p < |s.objs| == |s'.objs| && Lists(s.objs) && s'.pending == s.pending
    requires forall x :: 0 <= x < |s.objs| ==> ScanKept(s.objs[x], s'.objs[x])
    requires forall x: nat :: Tally(s'.threads, Notifies(x)) == Tally(s.threads, Notifies(x))
    requires forall x: nat :: Tally(s'.threads, Owe(x)) == Tally(s.threads, Owe(x))
    ensures Calm(s, s', p)
  {
    assert ScanKept(s.objs[p], s'.objs[p]);
    if !Coming(s', p) {
      assert ListAt(s.objs, p);
      forall o | o in s'.objs[p].self.registered && o < |s'.objs|
        ensures o in s.objs[p].self.registered && o < |s.objs| && CalmAt(s, s', o)
      {
        assert ScanKept(s.objs[o], s'.objs[o]);
      }
    }
  }

  lemma SnapshotStep(s: State, t: nat)
    requires Inv(s) && Snapping(s, t)
    ensures Inv(Snapped(s, t))
  {
    var s' := Snapped(s, t);
    assert StackOk(s.objs, s.threads[t], true);
    forall x: nat ensures Ledger(s', x) && Tally(s'.threads, Notifies(x)) == Tally(s.threads, Notifies(x))
      && Tally(s'.threads, Owe(x)) == Tally(s.threads, Owe(x))
    {
      assert Ledger(s, x);
      SnapshotLedger(s, s', t, x);
    }
    SnapshotFrames(s, s', t);
    SnapshotRound(s, s', t);
    forall p | 0 <= p < |s.objs| ensures Calm(s, s', p) { SnapshotCalm(s, s', p); }
    Assemble(s, s', t, s'.threads[t]);
  }
}
