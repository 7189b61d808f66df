/**
 The races that the callers' disciplines exclude: a descriptor closed between the pin and the lock
 of its registration, and a port destroyed before a wake that is owed to it is sent.
 */
module EventPortRace {
  import opened Basics
  import opened EventPortModel
  import opened EventPortInvariant

  /** One step of the system, whether or not its caller keeps a discipline. */
  ghost predicate Stepped(s: State, s': State) {
    Addressed(s) && exists step :: Enabled(s, step) && s' == Apply(s, step)
  }

  ghost predicate Reaches(run: seq<State>) {
    |run| > 0 && Initial(run[0]) && forall i :: 0 < i < |run| ==> Stepped(run[i - 1], run[i])
  }

  /** The object is on a list although no descriptor names it. */
  ghost predicate Stranded(s: State, o: nat) {
    o < |s.objs| && s.objs[o].reg.port.Some? && s.objs[o].descriptors == 0 && s.objs[o].frees == 0
  }

  /** The table after a socket went to descriptor 3. */
  ghost predicate SocketOpen(s: State) {
    && |s.objs| == 4 && |s.table| == MAX_FD && |s.threads| >= 2 && s.sockets
    && s.objs[3] == Fresh(Socket, false) && s.channels == {}
    && (forall o :: 0 <= o < 4 ==> s.objs[o].reg == UNREGISTERED)
    && (forall fd :: 0 <= fd < MAX_FD ==> s.table[fd] == if fd < 4 then Some(fd) else None)
    && s.threads[0] == Done && s.threads[1] == Done
  }

  /** The same with a port at descriptor 4. */
  ghost predicate PortOpen(s: State) {
    && |s.objs| == 5 && |s.table| == MAX_FD && |s.threads| >= 2
    && s.objs[3] == Fresh(Socket, false) && s.objs[4] == Fresh(Port, false).(self := NO_PORT.(channel := Some(0)))
    && (forall o :: 0 <= o < 5 ==> s.objs[o].reg == UNREGISTERED)
    && (forall fd :: 0 <= fd < MAX_FD ==> s.table[fd] == if fd < 5 then Some(fd) else None)
    && s.threads[0] == Done && s.threads[1] == Done
  }

  lemma OpenSocket(s: State) returns (a: State, b: State)
    requires Initial(s) && |s.threads| >= 2 && s.sockets
    ensures Stepped(s, a) && Stepped(a, b) && SocketOpen(b)
  {
    assert Enabled(s, Open(0, Socket, false));
    a := Apply(s, Open(0, Socket, false));
    assert Enabled(a, Go(0));
    b := Apply(a, Go(0));
  }

  lemma NewPortAt(s: State)
    requires SocketOpen(s)
    ensures NewPort(s, 0, false) == Set(WithNewPort(s, Some(0)), 0, Do(Install(4), Done))
  {
    assert 0 !in s.channels;
  }

  lemma OpenPort(s: State) returns (a: State, b: State)
    requires SocketOpen(s)
    ensures Stepped(s, a) && Stepped(a, b) && PortOpen(b)
  {
    NewPortAt(s);
    assert Enabled(s, CreatePort(0, false));
    a := Apply(s, CreatePort(0, false));
    assert a.threads[0] == Do(Install(4), Done) && a.table == s.table && a.table[3] == Some(3) && a.table[4] == None;
    assert Addressed(a) && Enabled(a, Go(0));
    assert FirstFree(a.table, 3) == Some(4);
    b := InstallNow(a, 0, 4, Done);
    assert b == Apply(a, Go(0));
  }

  const WANT: Task := RegisterPin(4, 3, {Reads}, 7)
  const LOCK: Task := RegisterLock(4, 3, {Reads}, 7)
  const GIVE: Stack := Do(Unpin(3), Do(Unpin(4), Done))
  const WATCHED: Registration := Ask(UNREGISTERED, 4, {Reads}, 7)

  function Sock(references: int, descriptors: int, reg: Registration): Object {
    Fresh(Socket, false).(references := references, descriptors := descriptors, reg := reg)
  }

  function Prt(references: int, descriptors: int, list: seq<nat>): Object {
    Fresh(Port, false).(references := references, descriptors := descriptors,
                        self := NO_PORT.(channel := Some(0), registered := list))
  }

  /** Where the two threads stand, and the socket and the port with the slots that name them. */
  ghost predicate Stage(s: State, x: Stack, y: Stack, socket: Object, port: Object) {
    && |s.objs| == 5 && |s.threads| >= 2 && Addressed(s)
    && s.threads[0] == x && s.threads[1] == y && s.objs[3] == socket && s.objs[4] == port
    && s.table[3] == (if socket.descriptors == 1 then Some(3) else None)
    && s.table[4] == (if port.descriptors == 1 then Some(4) else None)
  }

  lemma BeginRegistration(s: State) returns (a: State)
    requires PortOpen(s)
    ensures Stepped(s, a) && Stage(a, Do(WANT, Done), Done, Sock(1, 1, UNREGISTERED), Prt(2, 1, []))
  {
    var step := BeginRegister(0, 4, 3, {Reads}, 7);
    assert Pinned(s, 4, {Port}) == Some(4);
    assert Addressed(s) && Enabled(s, step);
    a := Set(s.(objs := AddReference(s.objs, 4)), 0, Do(WANT, Done));
    assert a == Apply(s, step);
  }

  lemma PinSocket(s: State) returns (a: State)
    requires Stage(s, Do(WANT, Done), Done, Sock(1, 1, UNREGISTERED), Prt(2, 1, []))
    ensures Stepped(s, a) && Stage(a, Do(LOCK, Done), Done, Sock(2, 1, UNREGISTERED), Prt(2, 1, []))
  {
    assert Pinned(s, 3, ANY) == Some(3);
    assert Enabled(s, Go(0));
    a := Set(s.(objs := AddReference(s.objs, 3)), 0, Do(LOCK, Done));
    assert a == RegisterPinNow(s, 0, 4, 3, {Reads}, 7, Done) == Apply(s, Go(0));
  }

  lemma LockRegistration(s: State, references: int, descriptors: int) returns (a: State)
    requires Stage(s, Do(LOCK, Done), Done, Sock(references, descriptors, UNREGISTERED), Prt(2, 1, []))
    ensures Stepped(s, a)
    ensures Stage(a, Do(Wake(4), GIVE), Done, Sock(references, descriptors, WATCHED), Prt(2, 1, [3]))
  {
    assert Enabled(s, Go(0));
    a := RegisterNow(s, 0, 4, 3, {Reads}, 7, Done);
    assert a == Apply(s, Go(0));
  }

  /** The wake on top of a stack is sent. */
  lemma SendWake(s: State, x: Stack, y: Stack, socket: Object, port: Object, t: nat) returns (a: State)
    requires Stage(s, x, y, socket, port) && t < 2 && (if t == 0 then x else y).Do?
    requires (if t == 0 then x else y).task == Wake(4)
    ensures Stepped(s, a)
    ensures Stage(a, if t == 0 then x.rest else x, if t == 1 then y.rest else y, socket, port)
  {
    assert Enabled(s, Go(t));
    a := WakeNow(s, t, 4, s.threads[t].rest);
    assert a == Apply(s, Go(t));
  }

  /** The socket's pin on top of a stack of thread 0 is given back. */
  lemma UnpinSocket(s: State, references: int, descriptors: int, port: Object) returns (a: State)
    requires Stage(s, GIVE, Done, Sock(references, descriptors, WATCHED), port)
    ensures Stepped(s, a)
    ensures Stage(a, if references == 1 then Do(Destroy(3), Do(Unpin(4), Done)) else Do(Unpin(4), Done), Done,
                  Sock(references - 1, descriptors, WATCHED), port)
  {
    assert Enabled(s, Go(0));
    a := UnpinNow(s, 0, 3, Do(Unpin(4), Done));
    assert a == Apply(s, Go(0));
  }

  // A registration without a descriptor

  lemma CloseSocket(s: State) returns (a: State)
    requires Stage(s, Do(LOCK, Done), Done, Sock(2, 1, UNREGISTERED), Prt(2, 1, []))
    ensures Stepped(s, a) && Stage(a, Do(LOCK, Done), Done, Sock(1, 0, UNREGISTERED), Prt(2, 1, []))
  {
    assert Enabled(s, Close(1, 3));
    var dropped := s.objs[3].(descriptors := 0, references := 1);
    assert CloseSlot(s, 3) == Closed(s.objs[3 := dropped], s.table[3 := None], None, None);
    a := CloseNow(s, 1, 3, Done);
    assert a == Apply(s, Close(1, 3));
  }

  /** The list of a port names an object that has been destroyed. */
  ghost predicate Dangling(s: State, p: nat, o: nat) {
    p < |s.objs| && o < |s.objs| && o in s.objs[p].self.registered && s.objs[o].frees == 1
  }

  lemma DestroySocket(s: State) returns (a: State)
    requires Stage(s, Do(Destroy(3), Do(Unpin(4), Done)), Done, Sock(0, 0, WATCHED), Prt(2, 1, [3]))
    ensures Stepped(s, a) && Dangling(a, 4, 3)
  {
    assert Enabled(s, Go(0));
    a := DestroyNow(s, 0, 3, Do(Unpin(4), Done));
    assert a == Apply(s, Go(0));
  }

  lemma Listed(objs: seq<Object>, o: nat)
    requires o < |objs|
    ensures Lists(objs) ==> MemberAt(objs, o)
  {
  }

  lemma ToLock(s: State) returns (run: seq<State>, f: State)
    requires Initial(s) && |s.threads| >= 2 && s.sockets
    ensures Reaches(run) && |run| == 7 && run[0] == s && run[6] == f
    ensures Stage(f, Do(LOCK, Done), Done, Sock(2, 1, UNREGISTERED), Prt(2, 1, []))
  {
    var a, b := OpenSocket(s);
    var c, d := OpenPort(b);
    var e := BeginRegistration(d);
    f := PinSocket(e);
    run := [s, a, b, c, d, e, f];
  }

  lemma Longer(run: seq<State>, s: State)
    requires Reaches(run) && Stepped(run[|run| - 1], s)
    ensures Reaches(run + [s])
  {
    var more := run + [s];
    forall i | 0 < i < |more| ensures Stepped(more[i - 1], more[i]) {
      if i < |run| { assert Stepped(run[i - 1], run[i]); }
    }
  }

  /** From any fresh table with two threads the system can reach a registration that no descriptor backs, which
      breaks the invariant; and from there, by giving back pins alone, a list that names a destroyed object. */
  lemma RegistrationCanBeStranded(s: State) returns (run: seq<State>)
    requires Initial(s) && |s.threads| >= 2 && s.sockets
    ensures Reaches(run) && |run| == 12 && run[0] == s
    ensures Stranded(run[8], 3) && !Inv(run[8])
    ensures Dangling(run[11], 4, 3)
  {
    var f;
    run, f := ToLock(s);
    var g := CloseSocket(f);
    Longer(run, g);
    var h := LockRegistration(g, 1, 0);
    Longer(run + [g], h);
    Listed(h.objs, 3);
    var i := SendWake(h, Do(Wake(4), GIVE), Done, Sock(1, 0, WATCHED), Prt(2, 1, [3]), 0);
    Longer(run + [g] + [h], i);
    var j := UnpinSocket(i, 1, 0, Prt(2, 1, [3]));
    Longer(run + [g] + [h] + [i], j);
    var k := DestroySocket(j);
    Longer(run + [g] + [h] + [i] + [j], k);
    run := run + [g] + [h] + [i] + [j] + [k];
  }

  // A wake owed to a destroyed port

  lemma UnpinPort(s: State) returns (a: State)
    requires Stage(s, Do(Unpin(4), Done), Done, Sock(1, 1, WATCHED), Prt(2, 1, [3]))
    ensures Stepped(s, a) && Stage(a, Done, Done, Sock(1, 1, WATCHED), Prt(1, 1, [3]))
  {
    assert Enabled(s, Go(0));
    a := UnpinNow(s, 0, 4, Done);
    assert a == Apply(s, Go(0));
  }

  const OWES: Stack := Do(Wake(4), Do(Destroy(3), Done))

  lemma CloseWatched(s: State) returns (a: State)
    requires Stage(s, Done, Done, Sock(1, 1, WATCHED), Prt(1, 1, [3]))
    ensures Stepped(s, a) && Stage(a, OWES, Done, Sock(0, 0, UNREGISTERED), Prt(1, 1, []))
  {
    assert Enabled(s, Close(0, 3));
    var objs := s.objs[3 := s.objs[3].(descriptors := 0, references := 0)];
    assert Without([3], 3) == [];
    assert CloseSlot(s, 3) == Closed(Unlink(objs, 3), s.table[3 := None], Some(4), Some(3));
    a := CloseNow(s, 0, 3, Done);
    assert a == Apply(s, Close(0, 3));
  }

  lemma BeginPortClose(s: State) returns (a: State)
    requires Stage(s, OWES, Done, Sock(0, 0, UNREGISTERED), Prt(1, 1, []))
    ensures Stepped(s, a) && Stage(a, OWES, Do(ClosePort(4, 4), Done), Sock(0, 0, UNREGISTERED), Prt(2, 1, []))
  {
    assert Pinned(s, 4, {Port}) == Some(4);
    assert Enabled(s, BeginClosePort(1, 4));
    a := Set(s.(objs := AddReference(s.objs, 4)), 1, Do(ClosePort(4, 4), Done));
    assert a == Apply(s, BeginClosePort(1, 4));
  }

  lemma ClosePortSlot(s: State) returns (a: State)
    requires Stage(s, OWES, Do(ClosePort(4, 4), Done), Sock(0, 0, UNREGISTERED), Prt(2, 1, []))
    ensures Stepped(s, a)
    ensures Stage(a, OWES, Do(Wake(4), Do(Unpin(4), Done)), Sock(0, 0, UNREGISTERED), Prt(1, 0, []))
  {
    assert Enabled(s, Go(1));
    var dropped := s.objs[4].(descriptors := 0, references := 1);
    assert CloseSlot(s, 4) == Closed(s.objs[4 := dropped], s.table[4 := None], None, None);
    a := ClosePortNow(s, 1, 4, 4, Done);
    assert a == Apply(s, Go(1));
  }

  lemma UnpinLast(s: State) returns (a: State)
    requires Stage(s, OWES, Do(Unpin(4), Done), Sock(0, 0, UNREGISTERED), Prt(1, 0, []))
    ensures Stepped(s, a) && Stage(a, OWES, Do(Destroy(4), Done), Sock(0, 0, UNREGISTERED), Prt(0, 0, []))
  {
    assert Enabled(s, Go(1));
    a := UnpinNow(s, 1, 4, Done);
    assert a == Apply(s, Go(1));
  }

  /** A thread is about to wake a port that has been destroyed. */
  ghost predicate WakesDestroyed(s: State, t: nat, p: nat) {
    && t < |s.threads| && s.threads[t].Do? && s.threads[t].task == Wake(p)
    && p < |s.objs| && s.objs[p].frees == 1
  }

  lemma DestroyOwed(s: State) returns (a: State)
    requires Stage(s, OWES, Do(Destroy(4), Done), Sock(0, 0, UNREGISTERED), Prt(0, 0, []))
    ensures Stepped(s, a) && WakesDestroyed(a, 0, 4)
  {
    assert Enabled(s, Go(1));
    a := DestroyNow(s, 1, 4, Done);
    assert a == Apply(s, Go(1));
  }

  lemma WakeIsOwed(s: State, t: nat, p: nat)
    requires WakesDestroyed(s, t, p)
    ensures !OweAt(s, p)
  {
    TallyUpdate(s.threads, t, Done, Owe(p));
  }

  lemma Unsound(s: State, p: nat)
    requires !OweAt(s, p)
    ensures !Inv(s)
  {
    assert Ledgers(s) ==> Ledger(s, p);
  }

  lemma ToOwed(s: State) returns (run: seq<State>, f: State)
    requires Initial(s) && |s.threads| >= 2 && s.sockets
    ensures Reaches(run) && |run| == 12 && run[0] == s && run[11] == f
    ensures Stage(f, OWES, Done, Sock(0, 0, UNREGISTERED), Prt(1, 1, []))
  {
    var g;
    run, g := ToLock(s);
    var h := LockRegistration(g, 2, 1);
    Longer(run, h);
    var i := SendWake(h, Do(Wake(4), GIVE), Done, Sock(2, 1, WATCHED), Prt(2, 1, [3]), 0);
    Longer(run + [h], i);
    var j := UnpinSocket(i, 2, 1, Prt(2, 1, [3]));
    Longer(run + [h] + [i], j);
    var k := UnpinPort(j);
    Longer(run + [h] + [i] + [j], k);
    f := CloseWatched(k);
    Longer(run + [h] + [i] + [j] + [k], f);
    run := run + [h] + [i] + [j] + [k] + [f];
  }

  /** From any fresh table with two threads the system can reach a state in which one thread still has to wake a port
      that the other has destroyed: one closes the last descriptor of a registered socket, the other closes the port
      before the wake is sent. */
  lemma PortCanBeDestroyedOwed(s: State) returns (run: seq<State>)
    requires Initial(s) && |s.threads| >= 2 && s.sockets
    ensures Reaches(run) && |run| == 17 && run[0] == s
    ensures WakesDestroyed(run[16], 0, 4) && !Inv(run[16])
  {
    var f;
    run, f := ToOwed(s);
    var g := BeginPortClose(f);
    Longer(run, g);
    var h := ClosePortSlot(g);
    Longer(run + [g], h);
    var i := SendWake(h, OWES, Do(Wake(4), Do(Unpin(4), Done)), Sock(0, 0, UNREGISTERED), Prt(1, 0, []), 1);
    Longer(run + [g] + [h], i);
    var j := UnpinLast(i);
    Longer(run + [g] + [h] + [i], j);
    var k := DestroyOwed(j);
    Longer(run + [g] + [h] + [i] + [j], k);
    WakeIsOwed(k, 0, 4);
    Unsound(k, 4);
    run := run + [g] + [h] + [i] + [j] + [k];
  }
}
