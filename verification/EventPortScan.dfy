/** The snapshot: what one pass over the registered list pins, asks about and reports. */
module EventPortScan {
  import opened Basics
  import opened EventPortModel
  import opened EventPortInvariant

  /** What the pass may change about an object: its references, and what a pipe has reported. */
  ghost predicate ScanKept(x: Object, y: Object) {
    && y.kind == x.kind && y.descriptors == x.descriptors && y.frees == x.frees
    && y.writeEnd == x.writeEnd && y.readable == x.readable && y.self == x.self
    && y.reg.port == x.reg.port && y.reg.events == x.reg.events && (x.kind != Pipe ==> y.reg == x.reg)
    && PipeFresh(y) <= PipeFresh(x) && Needs(y.reg) <= Needs(x.reg)
    && (x.reg.port == None && x.reg == UNREGISTERED ==> y.reg == x.reg)
    && (RegistrationOk(x.reg) ==> RegistrationOk(y.reg))
  }

  lemma ReportPipeBounded(reg: Registration, news: set<Condition>)
    requires RegistrationOk(reg) && news != {} && news <= DIRECTIONS && news !! reg.reported
    ensures RegistrationOk(ReportPipe(reg, news))
  {
    assert |reg.reported + news| == |reg.reported| + |news|;
    var d :| d in news;
    assert |news| == |news - {d}| + 1;
  }

  lemma ReportPipeKept(x: Object)
    requires x.kind == Pipe && PipeFresh(x) != {}
    ensures ScanKept(x, x.(reg := ReportPipe(x.reg, PipeFresh(x))))
    ensures PipeFresh(x.(reg := ReportPipe(x.reg, PipeFresh(x)))) == {}
  {
    if RegistrationOk(x.reg) { ReportPipeBounded(x.reg, PipeFresh(x)); }
  }

  lemma PinKept(x: Object)
    ensures ScanKept(x, x) && ScanKept(x, x.(references := x.references + 1))
  {
  }

  lemma ScanOneKept(objs: seq<Object>, o: nat, room: nat,
                    objects: seq<nat>, requested: seq<set<Condition>>, buffer: seq<Record>, x: nat)
    requires o < |objs| && x < |objs|
    ensures var r := ScanOne(objs, o, room, objects, requested, buffer);
      && ScanKept(objs[x], r.objs[x]) && (x != o ==> r.objs[x] == objs[x])
      && r.objs[x].references - multiset(r.objects)[x] == objs[x].references - multiset(objects)[x]
  {
    PinKept(objs[x]);
    if objs[o].kind == Pipe && PipeFresh(objs[o]) != {} { ReportPipeKept(objs[o]); }
  }

  lemma {:induction false} ScanAt(objs: seq<Object>, list: seq<nat>, limit: nat, room: nat,
                                  objects: seq<nat>, requested: seq<set<Condition>>, buffer: seq<Record>, x: nat)
    requires Within(list, |objs|) && x < |objs|
    ensures var r := Scan(objs, list, limit, room, objects, requested, buffer);
      && |r.objs| == |objs| && ScanKept(objs[x], r.objs[x])
      && (x !in list ==> r.objs[x] == objs[x])
      && r.objs[x].references - multiset(r.objects)[x] == objs[x].references - multiset(objects)[x]
    decreases |list|
  {
    if list != [] && |objects| < limit {
      var r := ScanOne(objs, list[0], room, objects, requested, buffer);
      ScanOneKept(objs, list[0], room, objects, requested, buffer, x);
      ScanAt(r.objs, list[1..], limit, room, r.objects, r.requested, r.buffer, x);
    }
  }

  ghost predicate Scannable(objs: seq<Object>, list: seq<nat>) {
    forall i :: 0 <= i < |list| ==> list[i] < |objs| && objs[list[i]].kind in {Socket, Pipe}
  }

  lemma {:induction false} ScanShape(objs: seq<Object>, list: seq<nat>, limit: nat, room: nat,
                                     objects: seq<nat>, requested: seq<set<Condition>>, buffer: seq<Record>)
    requires Scannable(objs, list) && SocketsAt(objs, objects) && |requested| == |objects| <= limit
    ensures var r := Scan(objs, list, limit, room, objects, requested, buffer);
      && objects <= r.objects && requested <= r.requested && buffer <= r.buffer
      && |r.requested| == |r.objects| <= limit && SocketsAt(objs, r.objects)
    decreases |list|
  {
    if list != [] && |objects| < limit {
      var r := ScanOne(objs, list[0], room, objects, requested, buffer);
      assert forall x :: 0 <= x < |objs| ==> r.objs[x].kind == objs[x].kind;
      ScanShape(r.objs, list[1..], limit, room, r.objects, r.requested, r.buffer);
    }
  }

  lemma AsksPrefix(objects: seq<nat>, requested: seq<set<Condition>>, objects': seq<nat>,
                   requested': seq<set<Condition>>, o: nat, d: Condition)
    requires |requested| == |objects| && |requested'| == |objects'|
    requires objects <= objects' && requested <= requested' && Asks(objects, requested, o, d)
    ensures Asks(objects', requested', o, d)
  {
    var i :| 0 <= i < |objects| && objects[i] == o && (d in requested[i] || d in ALWAYS);
    assert objects'[i] == o && requested'[i] == requested[i];
  }

  /** When the list fits, the poll asks about everything there is left to learn, and pipes are reported. */
  lemma {:induction false} ScanCovers(objs: seq<Object>, list: seq<nat>, limit: nat, room: nat,
                                      objects: seq<nat>, requested: seq<set<Condition>>, buffer: seq<Record>, o: nat)
    requires Scannable(objs, list) && SocketsAt(objs, objects) && |requested| == |objects| && NoDup(list)
    requires |objects| + |list| <= limit && o in list
    ensures var r := Scan(objs, list, limit, room, objects, requested, buffer);
      && |r.requested| == |r.objects| && |r.objs| == |objs| && o < |objs|
      && (objs[o].kind == Socket ==> forall d :: d in Needs(objs[o].reg) ==> Asks(r.objects, r.requested, o, d))
      && (objs[o].kind == Pipe ==> PipeFresh(r.objs[o]) == {} || |r.buffer| >= room)
    decreases |list|
  {
    var h := list[0];
    var m := ScanOne(objs, h, room, objects, requested, buffer);
    var r := Scan(objs, list, limit, room, objects, requested, buffer);
    assert forall x :: 0 <= x < |objs| ==> m.objs[x].kind == objs[x].kind;
    ScanShape(m.objs, list[1..], limit, room, m.objects, m.requested, m.buffer);
    ScanAt(objs, list, limit, room, objects, requested, buffer, o);
    if o == h {
      assert o !in list[1..];
      ScanAt(m.objs, list[1..], limit, room, m.objects, m.requested, m.buffer, o);
      if objs[o].kind == Socket {
        forall d | d in Needs(objs[o].reg) ensures Asks(r.objects, r.requested, o, d) {
          assert m.objects[|objects|] == o && (d in m.requested[|objects|] || d in ALWAYS);
          AsksPrefix(m.objects, m.requested, r.objects, r.requested, o, d);
        }
      }
    } else {
      ScanOneKept(objs, h, room, objects, requested, buffer, o);
      ScanCovers(m.objs, list[1..], limit, room, m.objects, m.requested, m.buffer, o);
    }
  }
}
