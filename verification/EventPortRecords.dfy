/** What the records that a waiter returns say: the registration's own data, and conditions that were asked for. */
module EventPortRecords {
  import opened Basics
  import opened EventPortModel
  import opened EventPortInvariant
  import opened EventPortListSteps
  import opened EventPortStepping
  import opened EventPortTheorems

  /** The reading of `Shown` that the theorems below use: a condition shows exactly when it is asked for, or an
      error, and it is news: triggered and not yet reported, or a direction that a newly reported hang-up stands for. */
  lemma ShownMeans(reg: Registration, triggered: set<Condition>, d: Condition)
    requires reg.events <= SUPPORTED
    ensures d in Shown(reg, triggered) <==>
            && (d in reg.events || d == Errors)
            && ((d in triggered && d !in reg.reported)
                || (d in DIRECTIONS && Hangup in triggered && Hangup !in reg.reported))
  {
  }

  /** The record is about an object registered with the port, carries its data, and shows something asked for. */
  ghost predicate Faithful(objs: seq<Object>, owner: nat, r: Record) {
    && r.o < |objs| && objs[r.o].reg.port == Some(owner) && r.data == objs[r.o].reg.data
    && r.events != {} && r.events <= objs[r.o].reg.events + {Errors}
  }

  /** The records from position `from` on are faithful, and all fit the caller's room. */
  ghost predicate FaithfulFrom(objs: seq<Object>, owner: nat, room: nat, buffer: seq<Record>, from: nat) {
    && (forall k :: from <= k < |buffer| ==> Faithful(objs, owner, buffer[k]))
    && (|buffer| > from ==> |buffer| <= room)
  }

  lemma SameTermsFaithful(objs: seq<Object>, objs': seq<Object>, owner: nat, r: Record)
    requires |objs'| == |objs| && Faithful(objs', owner, r)
    requires forall o :: 0 <= o < |objs| ==>
               objs'[o].reg.port == objs[o].reg.port && objs'[o].reg.data == objs[o].reg.data
               && objs'[o].reg.events == objs[o].reg.events
    ensures Faithful(objs, owner, r)
  {
  }

  ghost predicate RegisteredAll(objs: seq<Object>, list: seq<nat>, owner: nat) {
    forall i :: 0 <= i < |list| ==> list[i] < |objs| && objs[list[i]].reg.port == Some(owner)
  }

  lemma {:induction false} ScanFaithful(objs: seq<Object>, list: seq<nat>, limit: nat, room: nat, owner: nat, from: nat,
                                        objects: seq<nat>, requested: seq<set<Condition>>, buffer: seq<Record>)
    requires Within(list, |objs|) && RegisteredAll(objs, list, owner)
    requires from <= |buffer| && FaithfulFrom(objs, owner, room, buffer, from)
    ensures var r := Scan(objs, list, limit, room, objects, requested, buffer);
            |buffer| <= |r.buffer| && FaithfulFrom(objs, owner, room, r.buffer, from)
    decreases |list|
  {
    if list != [] && |objects| < limit {
      var r := ScanOne(objs, list[0], room, objects, requested, buffer);
      OneFaithful(objs, list[0], room, owner, from, objects, requested, buffer);
      assert RegisteredAll(r.objs, list[1..], owner);
      ScanFaithful(r.objs, list[1..], limit, room, owner, from, r.objects, r.requested, r.buffer);
      var last := Scan(r.objs, list[1..], limit, room, r.objects, r.requested, r.buffer).buffer;
      forall k | from <= k < |last| ensures Faithful(objs, owner, last[k]) {
        SameTermsFaithful(objs, r.objs, owner, last[k]);
      }
    }
  }

  lemma OneFaithful(objs: seq<Object>, o: nat, room: nat, owner: nat, from: nat,
                    objects: seq<nat>, requested: seq<set<Condition>>, buffer: seq<Record>)
    requires o < |objs| && objs[o].reg.port == Some(owner)
    requires from <= |buffer| && FaithfulFrom(objs, owner, room, buffer, from)
    ensures var r := ScanOne(objs, o, room, objects, requested, buffer);
            && |buffer| <= |r.buffer| && FaithfulFrom(r.objs, owner, room, r.buffer, from)
            && |r.objs| == |objs|
            && forall x :: 0 <= x < |objs| ==>
                 r.objs[x].reg.port == objs[x].reg.port && r.objs[x].reg.data == objs[x].reg.data
                 && r.objs[x].reg.events == objs[x].reg.events
  {
  }

  lemma SnapshotFaithful(s: State, t: nat)
    requires Inv(s) && Addressed(s) && Enabled(s, Go(t)) && s.threads[t].task.Snapshot?
    ensures var task := s.threads[t].task;
            FaithfulFrom(s.objs, task.owner, task.room, Gathered(Apply(s, Go(t)).threads[t]), 0)
  {
    var task := s.threads[t].task;
    TaskReady(s, t);
    var port := s.objs[task.owner].self;
    assert ListAt(s.objs, task.owner);
    ScanFaithful(s.objs, port.registered, Min(port.capacity, MAX_POLL), task.room, task.owner, 0, [], [], []);
  }

  /** What the critical section for one polled socket leaves. */
  lemma ConvertResult(s: State, t: nat)
    requires Addressed(s) && Enabled(s, Go(t)) && s.threads[t].task.Convert? && s.threads[t].task.objects != []
    ensures var task := s.threads[t].task; var s' := Apply(s, Go(t));
      var r := ConvertOne(s.objs, task.owner, task.room, task.objects[0], task.triggered[0], task.buffer, task.ok);
      s'.objs == r.0 && t < |s'.threads| && Gathered(s'.threads[t]) == r.1
  {
    assert Apply(s, Go(t)) == ConvertNow(s, t, s.threads[t].task, s.threads[t].rest);
  }

  lemma ConvertFaithful(s: State, t: nat)
    requires Inv(s) && Addressed(s) && Enabled(s, Go(t)) && s.threads[t].task.Convert?
    requires s.threads[t].task.objects != []
    ensures var task := s.threads[t].task;
            && task.buffer <= Gathered(Apply(s, Go(t)).threads[t])
            && FaithfulFrom(s.objs, task.owner, task.room, Gathered(Apply(s, Go(t)).threads[t]), |task.buffer|)
  {
    var task := s.threads[t].task;
    ConvertResult(s, t);
    OneConverted(s.objs, task.owner, task.room, task.objects[0], task.triggered[0], task.buffer, task.ok);
  }

  lemma OneConverted(objs: seq<Object>, owner: nat, room: nat, o: nat, triggered: set<Condition>, buffer: seq<Record>,
                     ok: bool)
    requires o < |objs|
    ensures var r := ConvertOne(objs, owner, room, o, triggered, buffer, ok);
            buffer <= r.1 && FaithfulFrom(objs, owner, room, r.1, |buffer|)
  {
  }

  /** Every record that a critical section of the waiter adds to its buffer fits the room, names an object registered
      with this port, carries the data it was registered with, and shows only conditions it was registered for, or an
      error. */
  lemma RecordsAreFaithful(s: State, t: nat)
    requires Inv(s) && Addressed(s) && Enabled(s, Go(t))
    requires var task := s.threads[t].task; task.Snapshot? || (task.Convert? && task.objects != [])
    ensures var task := s.threads[t].task;
            var before := if task.Snapshot? then [] else task.buffer;
            var after := Gathered(Apply(s, Go(t)).threads[t]);
            before <= after && FaithfulFrom(s.objs, task.owner, task.room, after, |before|)
  {
    if s.threads[t].task.Snapshot? { SnapshotFaithful(s, t); } else { ConvertFaithful(s, t); }
  }

  /** Every condition in the record is news to the registration: the poll reports it and it was not reported before,
      or it is a direction that a hang-up stands for which was not. */
  ghost predicate News(reg: Registration, triggered: set<Condition>, r: Record) {
    forall d :: d in r.events ==>
      || (d in triggered && d !in reg.reported)
      || (d in DIRECTIONS && Hangup in triggered && Hangup !in reg.reported)
  }

  /** What a conversion adds to the buffer is news. */
  lemma OnlyNewsIsRecorded(s: State, t: nat, k: nat)
    requires Inv(s) && Addressed(s) && Enabled(s, Go(t)) && s.threads[t].task.Convert?
    requires s.threads[t].task.objects != []
    requires |s.threads[t].task.buffer| <= k < |Gathered(Apply(s, Go(t)).threads[t])|
    ensures var task := s.threads[t].task; var r := Gathered(Apply(s, Go(t)).threads[t])[k];
      r.o == task.objects[0] && News(s.objs[r.o].reg, task.triggered[0], r)
  {
    var task := s.threads[t].task;
    var o := task.objects[0];
    ConvertResult(s, t);
    assert MemberAt(s.objs, o);
    OneIsNews(s.objs, task.owner, task.room, o, task.triggered[0], task.buffer, task.ok, k);
  }

  lemma OneIsNews(objs: seq<Object>, owner: nat, room: nat, o: nat, triggered: set<Condition>, buffer: seq<Record>,
                  ok: bool, k: nat)
    requires o < |objs| && objs[o].reg.events <= SUPPORTED
    requires |buffer| <= k < |ConvertOne(objs, owner, room, o, triggered, buffer, ok).1|
    ensures var r := ConvertOne(objs, owner, room, o, triggered, buffer, ok).1[k];
      r.o == o && News(objs[o].reg, triggered, r)
  {
    forall d | d in Shown(objs[o].reg, triggered)
      ensures (d in triggered && d !in objs[o].reg.reported)
        || (d in DIRECTIONS && Hangup in triggered && Hangup !in objs[o].reg.reported)
    {
      ShownMeans(objs[o].reg, triggered, d);
    }
  }

  /** What the poll reports and the registration asks for goes into the next record, as long as there is room for
      one. */
  lemma ConvertDelivers(s: State, t: nat, d: Condition)
    requires Inv(s) && Addressed(s) && Enabled(s, Go(t)) && s.threads[t].task.Convert?
    requires s.threads[t].task.objects != []
    requires var task := s.threads[t].task; var o := task.objects[0];
      && task.ok && |task.buffer| < task.room && s.objs[o].reg.port == Some(task.owner)
      && d in task.triggered[0] && d !in s.objs[o].reg.reported && d != Hangup
      && (d in s.objs[o].reg.events || d == Errors)
    ensures var o := s.threads[t].task.objects[0]; var s' := Apply(s, Go(t));
      o < |s'.objs| && d in s'.objs[o].reg.reported && Carries(Gathered(s'.threads[t]), o, d)
  {
    var task := s.threads[t].task;
    var o := task.objects[0];
    OneDelivered(s.objs, task.owner, task.room, o, task.triggered[0], task.buffer, d);
    ConvertResult(s, t);
  }

  /** A hang-up that the poll newly reports reaches the caller in every direction asked for, once: it is marked with the
      record that carries them. */
  lemma HangupDelivers(s: State, t: nat, d: Condition)
    requires Inv(s) && Addressed(s) && Enabled(s, Go(t)) && s.threads[t].task.Convert?
    requires s.threads[t].task.objects != []
    requires var task := s.threads[t].task; var o := task.objects[0];
      && task.ok && |task.buffer| < task.room && s.objs[o].reg.port == Some(task.owner)
      && Hangup in task.triggered[0] && Hangup !in s.objs[o].reg.reported
      && d in DIRECTIONS && d in s.objs[o].reg.events
    ensures var o := s.threads[t].task.objects[0]; var s' := Apply(s, Go(t));
      o < |s'.objs| && Hangup in s'.objs[o].reg.reported && Carries(Gathered(s'.threads[t]), o, d)
  {
    var task := s.threads[t].task;
    var o := task.objects[0];
    assert MemberAt(s.objs, o);
    ShownMeans(s.objs[o].reg, task.triggered[0], d);
    OneCarried(s.objs, task.owner, task.room, o, task.triggered[0], task.buffer, d);
    ConvertResult(s, t);
  }

  lemma OneCarried(objs: seq<Object>, owner: nat, room: nat, o: nat, triggered: set<Condition>, buffer: seq<Record>,
                   d: Condition)
    requires o < |objs| && |buffer| < room && objs[o].reg.port == Some(owner)
    requires triggered != {} && d in Shown(objs[o].reg, triggered)
    ensures var r := ConvertOne(objs, owner, room, o, triggered, buffer, true);
      && o < |r.0| && r.0[o].reg.reported == objs[o].reg.reported + triggered && Carries(r.1, o, d)
  {
    var r := ConvertOne(objs, owner, room, o, triggered, buffer, true);
    assert r.1[|buffer|].o == o && d in r.1[|buffer|].events;
  }

  lemma OneDelivered(objs: seq<Object>, owner: nat, room: nat, o: nat, triggered: set<Condition>, buffer: seq<Record>,
                     d: Condition)
    requires o < |objs| && |buffer| < room && objs[o].reg.port == Some(owner)
    requires d in triggered && d !in objs[o].reg.reported && d != Hangup && (d in objs[o].reg.events || d == Errors)
    ensures var r := ConvertOne(objs, owner, room, o, triggered, buffer, true);
      o < |r.0| && d in r.0[o].reg.reported && Carries(r.1, o, d)
  {
    assert d in Shown(objs[o].reg, triggered);
    OneCarried(objs, owner, room, o, triggered, buffer, d);
  }

  /** A registration is refused for a socket on a port without a channel and for an object of another port. Otherwise
      the object is registered for exactly these events with this data, and what it has reported is forgotten for
      every event that is newly asked for; without events it is not registered any more. */
  lemma RegistrationMeans(s: State, owner: nat, o: nat, events: set<Condition>, data: nat)
    requires Addressed(s) && Lists(s.objs) && PortAt(s.objs, owner) && o < |s.objs| && s.objs[o].kind in {Socket, Pipe}
    ensures var before := s.objs[o].reg; var r := Register(s, owner, o, events, data);
      && (r.None? <==> (s.objs[o].kind == Socket && s.objs[owner].self.channel == None)
                       || (before.port.Some? && before.port != Some(owner)))
      && (r.Some? && events == {} ==> o < |r.value| && r.value[o].reg == UNREGISTERED)
      && (r.Some? && events != {} ==>
            && o < |r.value|
            && var after := r.value[o].reg;
               && after.port == Some(owner) && after.events == events && after.data == data
               && (before.port == None ==> after.reported == {})
               && (forall d :: d in after.reported <==> d in before.reported && !(d in events && d !in before.events)))
  {
    assert MemberAt(s.objs, o);
    if Register(s, owner, o, events, data).Some? && events != {} { RegisteredNow(s, owner, o, events, data); }
    if s.objs[o].reg.port.Some? { UnlinkAt(s.objs, o, o); }
  }

  lemma RegisteredNow(s: State, owner: nat, o: nat, events: set<Condition>, data: nat)
    requires Addressed(s) && PortAt(s.objs, owner) && o < |s.objs| && Register(s, owner, o, events, data).Some?
    requires events != {}
    ensures var r := Register(s, owner, o, events, data).value;
      o < |r| && r[o].reg == Ask(s.objs[o].reg, owner, events, data)
  {
  }
}
