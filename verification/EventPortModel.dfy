/**
 The descriptor table and the readiness event ports as one step system.

 Every critical section of the table lock is one step, and so is every action taken outside
 it (a wake, a poll, a destruction, an allocation). Any number of application threads and
 waiters interleave freely. What a thread still has to do is its stack: the topmost entry
 is where it stands, the entries below are what it does afterwards.

 Bit masks of SocketEvents are sets of conditions; the poll bits use the same conditions.
 */
module EventPortModel {
  import opened Basics

  const MAX_FD := 1024
  const MAX_POLL := 4096
  const POLL_CHANNELS := 64

  datatype Kind = Stream | File | Socket | Port | Pipe | Watch

  /** SA_READ, SA_WRITE, SA_READCLOSE, SA_CLOSE, SA_ERROR and the unit's own EVENTS_HANGUP. */
  datatype Condition = Reads | Writes | ReadCloses | Closes | Errors | Hangup

  const DIRECTIONS: set<Condition> := {Reads, Writes}
  const ALWAYS: set<Condition> := {Errors, Hangup}
  const SUPPORTED: set<Condition> := {Reads, Writes, ReadCloses, Closes, Errors}
  const REPORTABLE: set<Condition> := {Reads, Writes, Errors, Hangup}

  /** The registration fields of an object: port, port_data, port_events and port_reported.
      The last three count, since the registration began, the records written for it, the
      reported bits cleared by re-arming or newly asking, and the hang-ups converted. */
  datatype Registration = Registration(
    port: Option<nat>, data: nat, events: set<Condition>, reported: set<Condition>,
    records: nat, cleared: nat, hangups: nat)

  const UNREGISTERED := Registration(None, 0, {}, {}, 0, 0, 0)

  /** struct sn_port; `registered` is the list through port_next, head first. */
  datatype PortState = PortState(registered: seq<nat>, channel: Option<nat>, waiting: bool, capacity: nat)

  const NO_PORT := PortState([], None, false, 0)

  /** sn_object. Objects are named by their allocation number; `frees` counts destructions. */
  datatype Object = Object(
    kind: Kind, references: int, descriptors: int, frees: nat,
    writeEnd: bool, readable: bool, reg: Registration, self: PortState)

  datatype Record = Record(o: nat, data: nat, events: set<Condition>)

  datatype Task =
    | Install(o: nat)
    | Discard(o: nat)
    | Using(o: nat)
    | Notify(o: nat)
    | ClosePort(fd: nat, o: nat)
    | RegisterPin(owner: nat, fd: nat, events: set<Condition>, data: nat)
    | RegisterLock(owner: nat, o: nat, events: set<Condition>, data: nat)
    | Wake(port: nat)
    | Unpin(o: nat)
    | Destroy(o: nat)
    | WaitEnter(owner: nat, room: nat)
    | Count(owner: nat, room: nat)
    | Reserve(owner: nat, room: nat, wanted: nat)
    | Snapshot(owner: nat, room: nat)
    | Poll(owner: nat, room: nat, objects: seq<nat>, requested: seq<set<Condition>>, buffer: seq<Record>)
    | Convert(owner: nat, room: nat, objects: seq<nat>, triggered: seq<set<Condition>>, buffer: seq<Record>, ok: bool)
    | Leave(owner: nat)

  datatype Stack = Done | Do(task: Task, rest: Stack)

  /** What a wake is sent to: the port's poll channel, or its event without sockets. */
  datatype Target = Channel(c: nat) | Event(port: nat)

  datatype State = State(
    objs: seq<Object>, table: seq<Option<nat>>, threads: seq<Stack>,
    channels: set<nat>, pending: set<Target>, sockets: bool)

  // ---- functions of one object ----------------------------------------------------

  function Fresh(kind: Kind, writeEnd: bool): Object {
    Object(kind, 1, 1, 0, writeEnd, false, UNREGISTERED, NO_PORT)
  }

  /** The directions the snapshot asks poll about. */
  function Requested(reg: Registration): set<Condition> {
    reg.events * DIRECTIONS - reg.reported
  }

  /** Everything there is left to learn about a registered socket. */
  function Needs(reg: Registration): set<Condition> {
    Requested(reg) + (ALWAYS - reg.reported)
  }

  function PipeReady(o: Object): set<Condition> {
    if o.writeEnd then {Writes} else if o.readable then {Reads} else {}
  }

  /** What the snapshot would report about a registered pipe. */
  function PipeFresh(o: Object): set<Condition> {
    PipeReady(o) * o.reg.events - o.reg.reported
  }

  function ReportPipe(reg: Registration, news: set<Condition>): Registration {
    reg.(reported := reg.reported + news, records := reg.records + 1)
  }

  /** The part of a poll answer that is new to the registration. */
  function Unseen(reg: Registration, triggered: set<Condition>): set<Condition> {
    triggered - reg.reported
  }

  /** The events a record shows: a hang-up goes through the ordinary read and write paths. */
  function Shown(reg: Registration, triggered: set<Condition>): set<Condition> {
    var unseen := Unseen(reg, triggered);
    var spread := if Hangup in unseen then unseen - {Hangup} + DIRECTIONS else unseen;
    spread * (reg.events + {Errors})
  }

  function ReportSocket(reg: Registration, triggered: set<Condition>): Registration {
    reg.(reported := reg.reported + Unseen(reg, triggered),
         records := reg.records + (if Shown(reg, triggered) == {} then 0 else 1),
         hangups := reg.hangups + (if Hangup in Unseen(reg, triggered) then 1 else 0))
  }

  /** sn_socket_would_block on the registration. */
  function Rearm(reg: Registration, events: set<Condition>): Registration {
    reg.(reported := reg.reported - events, cleared := reg.cleared + |reg.reported * events|)
  }

  /** The registration after a successful change to a non-empty set of events. */
  function Ask(reg: Registration, port: nat, events: set<Condition>, data: nat): Registration {
    var base := if reg.port == None then UNREGISTERED.(port := Some(port)) else reg;
    var news := events - base.events;
    base.(reported := base.reported - news, cleared := base.cleared + |base.reported * news|,
          events := events, data := data)
  }

  /** What the boundary lets through of a provider's answer (the masking in `poll`). */
  function Mask(requested: set<Condition>, raw: set<Condition>): set<Condition> {
    raw * (requested * DIRECTIONS + ALWAYS)
  }

  function TargetOf(objs: seq<Object>, p: nat): Target
    requires p < |objs|
  {
    if objs[p].self.channel.Some? then Channel(objs[p].self.channel.value) else Event(p)
  }

  // ---- functions of the table -----------------------------------------------------

  /** The first free descriptor from `fd` on, as install_locked searches. */
  function FirstFree(table: seq<Option<nat>>, fd: nat): Option<nat>
    decreases |table| - fd
  {
    if fd >= |table| then None
    else if table[fd] == None then Some(fd)
    else FirstFree(table, fd + 1)
  }

  /** The lowest channel not in use from `c` on. */
  function FirstChannel(channels: set<nat>, c: nat): Option<nat>
    decreases POLL_CHANNELS - c
  {
    if c >= POLL_CHANNELS then None
    else if c !in channels then Some(c)
    else FirstChannel(channels, c + 1)
  }

  /** unlink_locked */
  function Unlink(objs: seq<Object>, o: nat): (r: seq<Object>)
    requires o < |objs| && objs[o].reg.port.Some? && objs[o].reg.port.value < |objs|
    ensures |r| == |objs|
  {
    var p := objs[o].reg.port.value;
    var port := objs[p].(self := objs[p].self.(registered := Without(objs[p].self.registered, o)));
    var step := objs[p := port];
    step[o := step[o].(reg := UNREGISTERED)]
  }

  /** sn_port_destroy and the end of the port object itself. */
  function DestroyPort(objs: seq<Object>, p: nat): (r: seq<Object>)
    requires p < |objs|
    ensures |r| == |objs|
  {
    seq(|objs|, i requires 0 <= i < |objs| =>
      if i == p then objs[i].(frees := objs[i].frees + 1, self := NO_PORT)
      else if i in objs[p].self.registered then objs[i].(reg := UNREGISTERED)
      else objs[i])
  }

  /** What Close leaves behind: the new objects and table, the port to wake, the object to destroy. */
  datatype Closed = Closed(objs: seq<Object>, table: seq<Option<nat>>, wake: Option<nat>, last: Option<nat>)

  ghost predicate Addressed(s: State) {
    && |s.table| == MAX_FD
    && (forall fd :: 0 <= fd < |s.table| && s.table[fd].Some? ==> s.table[fd].value < |s.objs|)
    && (forall o :: 0 <= o < |s.objs| && s.objs[o].reg.port.Some? ==> s.objs[o].reg.port.value < |s.objs|)
  }

  function CloseSlot(s: State, fd: nat): (r: Closed)
    requires Addressed(s) && fd < MAX_FD
  {
    if s.table[fd] == None || fd < 3 then Closed(s.objs, s.table, None, None)
    else
      var o := s.table[fd].value;
      var dropped := s.objs[o].(descriptors := s.objs[o].descriptors - 1, references := s.objs[o].references - 1);
      var objs := s.objs[o := dropped];
      var closed := dropped.descriptors == 0 && dropped.reg.port.Some?;
      Closed(if closed then Unlink(objs, o) else objs,
             s.table[fd := None],
             if closed then dropped.reg.port else None,
             if dropped.references == 0 then Some(o) else None)
  }

  function CloseTail(c: Closed, rest: Stack): Stack {
    var tail := if c.last.Some? then Do(Destroy(c.last.value), rest) else rest;
    if c.wake.Some? then Do(Wake(c.wake.value), tail) else tail
  }

  ghost predicate Within(list: seq<nat>, n: nat) { forall i :: 0 <= i < |list| ==> list[i] < n }

  // ---- the snapshot ------------------------------------------------------------------

  datatype Scanned = Scanned(objs: seq<Object>, objects: seq<nat>, requested: seq<set<Condition>>, buffer: seq<Record>)

  /** One object of the list: a pipe is looked at, a socket with anything left to learn is pinned and added. */
  function ScanOne(objs: seq<Object>, o: nat, room: nat,
                   objects: seq<nat>, requested: seq<set<Condition>>, buffer: seq<Record>): (r: Scanned)
    requires o < |objs|
    ensures |r.objs| == |objs|
  {
    var x := objs[o];
    if x.kind == Pipe then
      var news := PipeFresh(x);
      if news != {} && |buffer| < room then
        Scanned(objs[o := x.(reg := ReportPipe(x.reg, news))], objects, requested,
                buffer + [Record(o, x.reg.data, news)])
      else Scanned(objs, objects, requested, buffer)
    else if Needs(x.reg) == {} then Scanned(objs, objects, requested, buffer)
    else Scanned(objs[o := x.(references := x.references + 1)], objects + [o], requested + [Requested(x.reg)], buffer)
  }

  /** The snapshot loop over the rest of the list, `limit` being the lesser of the capacity and MAX_POLL. */
  function Scan(objs: seq<Object>, list: seq<nat>, limit: nat, room: nat,
                objects: seq<nat>, requested: seq<set<Condition>>, buffer: seq<Record>): (r: Scanned)
    requires Within(list, |objs|)
    decreases |list|
  {
    if list == [] || |objects| >= limit then Scanned(objs, objects, requested, buffer)
    else
      var r := ScanOne(objs, list[0], room, objects, requested, buffer);
      Scan(r.objs, list[1..], limit, room, r.objects, r.requested, r.buffer)
  }

  // ---- steps --------------------------------------------------------------------------

  datatype Step =
    // an idle thread begins a call
    | Open(t: nat, kind: Kind, writeEnd: bool)
    | CreatePort(t: nat, refused: bool)
    | Dup(t: nat, fd: nat)
    | Close(t: nat, fd: nat)
    | Use(t: nat, fd: nat)
    | BeginClosePort(t: nat, fd: nat)
    | BeginRegister(t: nat, port: nat, fd: nat, events: set<Condition>, data: nat)
    | BeginWait(t: nat, port: nat, room: nat)
    // a thread goes on with its top task; the parameters are what the boundary answers
    | Go(t: nat)
    | WouldBlock(t: nat, events: set<Condition>)
    | PipeFill(t: nat)
    | PipeDrain(t: nat)
    | EndUse(t: nat)
    | WatchFailed(t: nat)
    | OutOfMemory(t: nat)
    | PollReturns(t: nat, raw: seq<set<Condition>>, ok: bool, consumed: bool)

  function Set(s: State, t: nat, stack: Stack): State
    requires t < |s.threads|
  {
    s.(threads := s.threads[t := stack])
  }

  /** sn_pin with its kind check: the object, or None with errno. */
  function Pinned(s: State, fd: nat, kinds: set<Kind>): Option<nat>
    requires Addressed(s)
  {
    if fd < MAX_FD && s.table[fd].Some? && s.objs[s.table[fd].value].kind in kinds then s.table[fd] else None
  }

  const ANY: set<Kind> := {Stream, File, Socket, Port, Pipe, Watch}

  function AddReference(objs: seq<Object>, o: nat): (r: seq<Object>)
    requires o < |objs|
  {
    objs[o := objs[o].(references := objs[o].references + 1)]
  }

  /** A call that begins by pinning: the thread goes on with `task`, or fails and stays idle. */
  function PinThen(s: State, t: nat, fd: nat, kinds: set<Kind>, task: Task, rest: Stack, failed: Stack): State
    requires Addressed(s) && t < |s.threads|
  {
    var o := Pinned(s, fd, kinds);
    if o.Some? then Set(s.(objs := AddReference(s.objs, o.value)), t, Do(task, rest)) else Set(s, t, failed)
  }

  ghost predicate TaskAddressed(objs: seq<Object>, task: Task) {
    match task
    case Install(o) => o < |objs|
    case Discard(o) => o < |objs|
    case Using(o) => o < |objs|
    case Notify(o) => o < |objs|
    case ClosePort(fd, o) => o < |objs| && fd < MAX_FD
    case RegisterPin(owner, _, _, _) => owner < |objs|
    case RegisterLock(owner, o, _, _) => owner < |objs| && o < |objs|
    case Wake(p) => p < |objs|
    case Unpin(o) => o < |objs|
    case Destroy(o) => o < |objs|
    case WaitEnter(owner, _) => owner < |objs|
    case Count(owner, _) => owner < |objs|
    case Reserve(owner, _, _) => owner < |objs|
    case Snapshot(owner, _) => owner < |objs| && Within(objs[owner].self.registered, |objs|)
    case Poll(owner, _, objects, requested, _) => owner < |objs| && |requested| == |objects|
    case Convert(owner, _, objects, triggered, _, _) =>
      owner < |objs| && |triggered| == |objects| && Within(objects, |objs|)
    case Leave(owner) => owner < |objs|
  }

  ghost predicate Idle(s: State, t: nat) { t < |s.threads| && s.threads[t] == Done }
  ghost predicate At(s: State, t: nat) {
    t < |s.threads| && s.threads[t].Do? && TaskAddressed(s.objs, s.threads[t].task)
  }

  /** The critical section of TryChangeSocketEventRegistration; `None` when it answers EINVAL. */
  function Register(s: State, owner: nat, o: nat, events: set<Condition>, data: nat): Option<seq<Object>>
    requires Addressed(s) && owner < |s.objs| && o < |s.objs|
  {
    var x := s.objs[o];
    if (x.kind == Socket && s.objs[owner].self.channel == None)
       || (x.reg.port.Some? && x.reg.port != Some(owner)) then None
    else if events == {} then Some(if x.reg.port.Some? then Unlink(s.objs, o) else s.objs)
    else
      var port := s.objs[owner];
      var listed := if x.reg.port.Some? then s.objs
                    else s.objs[owner := port.(self := port.self.(registered := [o] + port.self.registered))];
      Some(listed[o := listed[o].(reg := Ask(x.reg, owner, events, data))])
  }

  /** The round's critical section for one polled socket: the new objects and buffer. */
  function ConvertOne(objs: seq<Object>, owner: nat, room: nat, o: nat, triggered: set<Condition>,
                      buffer: seq<Record>, ok: bool): (r: (seq<Object>, seq<Record>))
    requires o < |objs|
  {
    var reg := objs[o].reg;
    if ok && triggered != {} && reg.port == Some(owner) && |buffer| < room then
      var shown := Shown(reg, triggered);
      (objs[o := objs[o].(reg := ReportSocket(reg, triggered))],
       if shown == {} then buffer else buffer + [Record(o, reg.data, shown)])
    else (objs, buffer)
  }

  /** destroy on anything but a standard stream, or the release of an object that was never installed. */
  function Free(s: State, o: nat): State
    requires o < |s.objs|
  {
    if s.objs[o].kind == Port then
      var c := s.objs[o].self.channel;
      s.(objs := DestroyPort(s.objs, o), channels := if c.Some? then s.channels - {c.value} else s.channels)
    else s.(objs := s.objs[o := s.objs[o].(frees := s.objs[o].frees + 1)])
  }

  // ---- what a thread does with its top task; `rest` is what it does afterwards ---------

  function InstallNow(s: State, t: nat, o: nat, rest: Stack): State
    requires t < |s.threads|
  {
    var fd := FirstFree(s.table, 3);
    if fd.Some? && fd.value < |s.table| then Set(s.(table := s.table[fd.value := Some(o)]), t, rest)
    else Set(s, t, Do(Discard(o), rest))
  }

  function NotifyNow(s: State, t: nat, o: nat, rest: Stack): State
    requires t < |s.threads| && o < |s.objs|
  {
    var p := s.objs[o].reg.port;
    Set(s, t, if p.Some? then Do(Wake(p.value), rest) else rest)
  }

  /** The slot is cleared under the lock; the wake and the destruction it leaves come before `rest`. */
  function CloseNow(s: State, t: nat, fd: nat, rest: Stack): State
    requires Addressed(s) && t < |s.threads| && fd < MAX_FD
  {
    var c := CloseSlot(s, fd);
    Set(s.(objs := c.objs, table := c.table), t, CloseTail(c, rest))
  }

  function Duplicated(s: State, o: nat, fd: nat): State
    requires o < |s.objs| && fd < |s.table|
  {
    var x := s.objs[o];
    s.(table := s.table[fd := Some(o)],
       objs := s.objs[o := x.(references := x.references + 1, descriptors := x.descriptors + 1)])
  }

  function DupNow(s: State, fd: nat): State
    requires Addressed(s)
  {
    var o := Pinned(s, fd, ANY);
    var free := FirstFree(s.table, 3);
    if o == None || free == None || free.value >= |s.table| then s else Duplicated(s, o.value, free.value)
  }

  function ClosePortNow(s: State, t: nat, fd: nat, o: nat, rest: Stack): State
    requires Addressed(s) && t < |s.threads| && fd < MAX_FD
  {
    CloseNow(s, t, fd, Do(Wake(o), Do(Unpin(o), rest)))
  }

  function RegisterPinNow(s: State, t: nat, owner: nat, fd: nat, events: set<Condition>, data: nat, rest: Stack): State
    requires Addressed(s) && t < |s.threads|
  {
    var o := Pinned(s, fd, ANY);
    if o == None then Set(s, t, Do(Unpin(owner), rest))
    else if s.objs[o.value].kind in {Socket, Pipe} then
      Set(s.(objs := AddReference(s.objs, o.value)), t, Do(RegisterLock(owner, o.value, events, data), rest))
    else Set(s.(objs := AddReference(s.objs, o.value)), t, Do(Unpin(o.value), Do(Unpin(owner), rest)))
  }

  function RegisterNow(s: State, t: nat, owner: nat, o: nat, events: set<Condition>, data: nat, rest: Stack): State
    requires Addressed(s) && t < |s.threads| && owner < |s.objs| && o < |s.objs|
  {
    var r := Register(s, owner, o, events, data);
    var tail := Do(Unpin(o), Do(Unpin(owner), rest));
    if r == None then Set(s, t, tail) else Set(s.(objs := r.value), t, Do(Wake(owner), tail))
  }

  /** sn_port_wake: the flag of the channel, or of the event, stays up until a poll returns. */
  function WakeNow(s: State, t: nat, p: nat, rest: Stack): State
    requires t < |s.threads| && p < |s.objs|
  {
    Set(s.(pending := s.pending + {TargetOf(s.objs, p)}), t, rest)
  }

  function UnpinNow(s: State, t: nat, o: nat, rest: Stack): State
    requires t < |s.threads| && o < |s.objs|
  {
    var dropped := s.objs[o].(references := s.objs[o].references - 1);
    Set(s.(objs := s.objs[o := dropped]), t, if dropped.references == 0 then Do(Destroy(o), rest) else rest)
  }

  function DestroyNow(s: State, t: nat, o: nat, rest: Stack): State
    requires t < |s.threads| && o < |s.objs|
  {
    Set(if s.objs[o].kind == Stream then s else Free(s, o), t, rest)
  }

  function WithPort(s: State, owner: nat, self: PortState): State
    requires owner < |s.objs|
  {
    s.(objs := s.objs[owner := s.objs[owner].(self := self)])
  }

  function WaitEnterNow(s: State, t: nat, owner: nat, room: nat, rest: Stack): State
    requires t < |s.threads| && owner < |s.objs|
  {
    if s.objs[owner].self.waiting then Set(s, t, Do(Unpin(owner), rest))
    else Set(WithPort(s, owner, s.objs[owner].self.(waiting := true)), t, Do(Count(owner, room), rest))
  }

  function CountNow(s: State, t: nat, owner: nat, room: nat, rest: Stack): State
    requires t < |s.threads| && owner < |s.objs|
  {
    if s.objs[owner].descriptors == 0 then Set(s, t, Do(Leave(owner), rest))
    else Set(s, t, Do(Reserve(owner, room, Min(|s.objs[owner].self.registered|, MAX_POLL)), rest))
  }

  /** reserve_snapshot when the memory is there. */
  function ReserveNow(s: State, t: nat, owner: nat, room: nat, wanted: nat, rest: Stack): State
    requires t < |s.threads| && owner < |s.objs|
  {
    var self := s.objs[owner].self;
    Set(WithPort(s, owner, self.(capacity := if wanted <= self.capacity then self.capacity else wanted + 16)), t,
        Do(Snapshot(owner, room), rest))
  }

  function SnapshotOf(objs: seq<Object>, owner: nat, room: nat): Scanned
    requires owner < |objs| && Within(objs[owner].self.registered, |objs|)
  {
    var port := objs[owner].self;
    Scan(objs, port.registered, Min(port.capacity, MAX_POLL), room, [], [], [])
  }

  function SnapshotNow(s: State, t: nat, owner: nat, room: nat, rest: Stack): State
    requires t < |s.threads| && owner < |s.objs| && Within(s.objs[owner].self.registered, |s.objs|)
  {
    var r := SnapshotOf(s.objs, owner, room);
    Set(s.(objs := r.objs), t, Do(Poll(owner, room, r.objects, r.requested, r.buffer), rest))
  }

  function ConvertNow(s: State, t: nat, task: Task, rest: Stack): State
    requires t < |s.threads| && task.Convert? && |task.triggered| == |task.objects| && Within(task.objects, |s.objs|)
  {
    if task.objects == [] then
      Set(s, t, Do(if task.buffer == [] && task.ok then Count(task.owner, task.room) else Leave(task.owner), rest))
    else
      var o := task.objects[0];
      var r := ConvertOne(s.objs, task.owner, task.room, o, task.triggered[0], task.buffer, task.ok);
      Set(s.(objs := r.0), t,
          Do(Unpin(o), Do(task.(objects := task.objects[1..], triggered := task.triggered[1..], buffer := r.1), rest)))
  }

  function LeaveNow(s: State, t: nat, owner: nat, rest: Stack): State
    requires t < |s.threads| && owner < |s.objs|
  {
    Set(WithPort(s, owner, s.objs[owner].self.(waiting := false)), t, Do(Unpin(owner), rest))
  }

  /** The next step of a thread whose top task needs no answer from outside. */
  function Advance(s: State, t: nat): State
    requires Addressed(s) && At(s, t)
    requires !s.threads[t].task.Poll? && !s.threads[t].task.Using?
  {
    var rest := s.threads[t].rest;
    match s.threads[t].task
    case Install(o) => InstallNow(s, t, o, rest)
    case Discard(o) => Set(Free(s, o), t, rest)
    case Notify(o) => NotifyNow(s, t, o, rest)
    case ClosePort(fd, o) => ClosePortNow(s, t, fd, o, rest)
    case RegisterPin(owner, fd, events, data) => RegisterPinNow(s, t, owner, fd, events, data, rest)
    case RegisterLock(owner, o, events, data) => RegisterNow(s, t, owner, o, events, data, rest)
    case Wake(p) => WakeNow(s, t, p, rest)
    case Unpin(o) => UnpinNow(s, t, o, rest)
    case Destroy(o) => DestroyNow(s, t, o, rest)
    case WaitEnter(owner, room) => WaitEnterNow(s, t, owner, room, rest)
    case Count(owner, room) => CountNow(s, t, owner, room, rest)
    case Reserve(owner, room, wanted) => ReserveNow(s, t, owner, room, wanted, rest)
    case Snapshot(owner, room) => SnapshotNow(s, t, owner, room, rest)
    case Convert(owner, room, objects, triggered, buffer, ok) => ConvertNow(s, t, s.threads[t].task, rest)
    case Leave(owner) => LeaveNow(s, t, owner, rest)
  }

  /** sn_socket_would_block by a thread that holds a pin on `o`. */
  function RearmStep(s: State, t: nat, o: nat, events: set<Condition>, rest: Stack): State
    requires t < |s.threads| && o < |s.objs|
  {
    var x := s.objs[o];
    var wake := x.reg.port.Some? && x.reg.reported * events != {};
    Set(s.(objs := s.objs[o := x.(reg := Rearm(x.reg, events))]), t,
        if wake then Do(Wake(x.reg.port.value), rest) else rest)
  }

  /** CreateSocketEventPort up to sn_install. The object is private until then, so taking the channel is one
      step with its allocation; `refused` is the failure to create an event on a boundary without sockets. */
  function NewPort(s: State, t: nat, refused: bool): State
    requires t < |s.threads|
  {
    var o := |s.objs|;
    var c := if s.sockets then FirstChannel(s.channels, 0) else None;
    if c == None && (s.sockets || refused) then Set(s.(objs := s.objs + [Fresh(Port, false)]), t, Do(Discard(o), Done))
    else Set(WithNewPort(s, c), t, Do(Install(o), Done))
  }

  function WithNewPort(s: State, c: Option<nat>): State {
    s.(objs := s.objs + [Fresh(Port, false).(self := NO_PORT.(channel := c))],
       channels := if c.Some? then s.channels + {c.value} else s.channels)
  }

  ghost predicate Enabled(s: State, step: Step)
    requires Addressed(s)
  {
    match step
    case Open(t, kind, _) => Idle(s, t) && kind in {File, Socket, Pipe, Watch}
    case CreatePort(t, _) => Idle(s, t)
    case Dup(t, _) => Idle(s, t)
    case Close(t, _) => Idle(s, t)
    case Use(t, _) => Idle(s, t)
    case BeginClosePort(t, _) => Idle(s, t)
    case BeginRegister(t, _, _, events, _) => Idle(s, t) && events <= SUPPORTED
    case BeginWait(t, _, _) => Idle(s, t)
    case Go(t) => At(s, t) && !s.threads[t].task.Poll? && !s.threads[t].task.Using?
    case WouldBlock(t, events) => At(s, t) && s.threads[t].task.Using? && events <= DIRECTIONS
    case PipeFill(t) => At(s, t) && s.threads[t].task.Using? && s.objs[s.threads[t].task.o].kind == Pipe
    case PipeDrain(t) => At(s, t) && s.threads[t].task.Using? && s.objs[s.threads[t].task.o].kind == Pipe
    case EndUse(t) => At(s, t) && s.threads[t].task.Using?
    case WatchFailed(t) => At(s, t) && s.threads[t].task.RegisterLock? && s.threads[t].task.events != {}
      && s.objs[s.threads[t].task.o].kind == Pipe && !s.objs[s.threads[t].task.o].writeEnd
    case OutOfMemory(t) => At(s, t) && s.threads[t].task.Reserve?
      && s.objs[s.threads[t].task.owner].self.capacity < s.threads[t].task.wanted
    case PollReturns(t, raw, _, _) => At(s, t) && s.threads[t].task.Poll? && |raw| == |s.threads[t].task.objects|
  }

  function Apply(s: State, step: Step): State
    requires Addressed(s) && Enabled(s, step)
  {
    match step
    case Open(t, kind, writeEnd) =>
      Set(s.(objs := s.objs + [Fresh(kind, writeEnd)]), t, Do(Install(|s.objs|), Done))
    case CreatePort(t, refused) => NewPort(s, t, refused)
    case Dup(t, fd) => DupNow(s, fd)
    case Close(t, fd) => if fd >= MAX_FD then s else CloseNow(s, t, fd, Done)
    case Use(t, fd) =>
      var o := Pinned(s, fd, ANY);
      PinThen(s, t, fd, ANY, Using(if o.Some? then o.value else 0), Done, Done)
    case BeginClosePort(t, fd) =>
      var o := Pinned(s, fd, {Port});
      PinThen(s, t, fd, {Port}, ClosePort(fd, if o.Some? then o.value else 0), Done, Done)
    case BeginRegister(t, port, fd, events, data) =>
      var o := Pinned(s, port, {Port});
      PinThen(s, t, port, {Port}, RegisterPin(if o.Some? then o.value else 0, fd, events, data), Done, Done)
    case BeginWait(t, port, room) =>
      var o := Pinned(s, port, {Port});
      PinThen(s, t, port, {Port}, WaitEnter(if o.Some? then o.value else 0, room), Done, Done)
    case Go(t) => Advance(s, t)
    case WouldBlock(t, events) => RearmStep(s, t, s.threads[t].task.o, events, s.threads[t])
    case PipeFill(t) =>
      var o := s.threads[t].task.o;
      Set(s.(objs := s.objs[o := s.objs[o].(readable := true)]), t, Do(Notify(o), s.threads[t]))
    case PipeDrain(t) =>
      var o := s.threads[t].task.o;
      s.(objs := s.objs[o := s.objs[o].(readable := false)])
    case EndUse(t) => Set(s, t, Do(Unpin(s.threads[t].task.o), s.threads[t].rest))
    case WatchFailed(t) =>
      var task := s.threads[t].task;
      Set(s, t, Do(Unpin(task.o), Do(Unpin(task.owner), s.threads[t].rest)))
    case OutOfMemory(t) => Set(s, t, Do(Leave(s.threads[t].task.owner), s.threads[t].rest))
    case PollReturns(t, raw, ok, consumed) =>
      var task := s.threads[t].task;
      var triggered := seq(|raw|, i requires 0 <= i < |raw| => if ok then Mask(task.requested[i], raw[i]) else {});
      var target := TargetOf(s.objs, task.owner);
      Set(s.(pending := if consumed then s.pending - {target} else s.pending), t,
          Do(Convert(task.owner, task.room, task.objects, triggered, task.buffer, ok), s.threads[t].rest))
  }

  ghost predicate Initial(s: State) {
    && |s.objs| == 3
    && (forall i :: 0 <= i < 3 ==> s.objs[i] == Object(Stream, 1, 1, 0, false, false, UNREGISTERED, NO_PORT))
    && |s.table| == MAX_FD
    && (forall fd :: 0 <= fd < MAX_FD ==> s.table[fd] == if fd < 3 then Some(fd) else None)
    && (forall t :: 0 <= t < |s.threads| ==> s.threads[t] == Done)
    && s.channels == {} && s.pending == {}
  }
}
