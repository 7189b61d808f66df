/**
 The registered list of an event port as it lies in memory: objects linked through `next`, with
 a head only. It refines the sequence of the event port model.
 */
module PortList {
  import opened Basics
  import opened EventPortModel
  import opened EventPortInvariant

  /** The fields of an sn_object that an event port works with. `number` is the name that the event port model has for
      the object; the rest is in memory. */
  class Entry {
    const number: nat
    const kind: Kind
    const writeEnd: bool
    var readable: bool
    var references: int
    var port: List?
    var next: Entry?
    var data: nat
    var events: set<Condition>
    var reported: set<Condition>

    constructor (n: nat, k: Kind, w: bool)
      ensures number == n && kind == k && writeEnd == w && !readable && references == 1
      ensures port == null && next == null && data == 0 && events == {} && reported == {}
    {
      number, kind, writeEnd, readable, references := n, k, w, false, 1;
      port, next, data, events, reported := null, null, 0, {}, {};
    }
  }

  /** The names of a list of objects, as the model has them. */
  ghost function Numbers(entries: seq<Entry>): (r: seq<nat>)
    ensures |r| == |entries| && forall i :: 0 <= i < |r| ==> r[i] == entries[i].number
  {
    seq(|entries|, i requires 0 <= i < |entries| => entries[i].number)
  }

  /** Taking an object out of the list takes its name out of the names. */
  lemma {:induction false} NumbersWithout(entries: seq<Entry>, o: Entry)
    requires OwnName(entries, o)
    ensures Numbers(Without(entries, o)) == Without(Numbers(entries), o.number)
  {
    if entries != [] {
      assert Numbers(entries)[1..] == Numbers(entries[1..]);
      if entries[0] != o {
        NumbersWithout(entries[1..], o);
        var left := Without(entries[1..], o);
        assert Numbers([entries[0]] + left) == [entries[0].number] + Numbers(left);
      }
    }
  }

  /** Different objects have different names. */
  ghost predicate Named(entries: seq<Entry>) {
    forall i, j :: 0 <= i < j < |entries| ==> entries[i].number != entries[j].number
  }

  /** Among the entries, or besides them, no other object has the name of `o`. */
  ghost predicate OwnName(entries: seq<Entry>, o: Entry) {
    forall e :: e in entries && e.number == o.number ==> e == o
  }

  lemma NumbersWith(entries: seq<Entry>, o: Entry)
    ensures Numbers([o] + entries) == [o.number] + Numbers(entries)
    ensures forall i :: 0 < i < |[o] + entries| ==> ([o] + entries)[i] == entries[i - 1]
  {
  }

  /** What the entry at position `i` points to. */
  ghost function Following(entries: seq<Entry>, i: nat): Entry? { if i + 1 < |entries| then entries[i + 1] else null }

  /** Where the entries stand once the one at `i` is left out. */
  lemma SkipAt(all: seq<Entry>, left: seq<Entry>, i: nat, j: nat)
    requires i < |all| && left == all[..i] + all[i + 1..] && j < |left|
    ensures left[j] == all[if j < i then j else j + 1]
    ensures Following(left, j) == if j + 1 == i then Following(all, i) else Following(all, if j < i then j else j + 1)
  {
  }

  /** struct sn_port */
  class List {
    var registered: Entry?
    ghost var entries: seq<Entry>

    ghost predicate Valid()
      reads this, entries`next, entries`port
    {
      && NoDup(entries)
      && (forall i :: 0 <= i < |entries| ==>
           entries[i].next == Following(entries, i) && entries[i].port == this)
      && registered == (if entries == [] then null else entries[0])
    }

    constructor ()
      ensures Valid() && entries == []
    {
      registered := null;
      entries := [];
    }

    /** The first registration of an object puts it at the head, with nothing reported. */
    method Push(o: Entry, events: set<Condition>, data: nat)
      requires Valid() && o !in entries
      modifies this, o
      ensures Valid() && entries == [o] + old(entries) && Numbers(entries) == [o.number] + Numbers(old(entries))
      ensures o.events == events && o.reported == {} && o.data == data
      ensures o.readable == old(o.readable) && o.references == old(o.references)
    {
      o.port := this;
      o.next := registered;
      registered := o;
      o.reported := {};
      o.events := events;
      o.data := data;
      NumbersWith(entries, o);
      entries := [o] + entries;
    }

    /** The walk to an object, remembering the one before it. */
    method Find(o: Entry) returns (previous: Entry?, current: Entry?, ghost i: nat)
      requires Valid()
      ensures i <= |entries| && o !in entries[..i]
      ensures current == (if i < |entries| then entries[i] else null) && (current == null || current == o)
      ensures previous == if i == 0 then null else entries[i - 1]
    {
      previous, current, i := null, registered, 0;
      while current != null && current != o
        invariant 0 <= i <= |entries|
        invariant current == if i < |entries| then entries[i] else null
        invariant previous == if i == 0 then null else entries[i - 1]
        invariant o !in entries[..i]
        decreases |entries| - i
      {
        assert current == entries[i];
        previous := current;
        current := current.next;
        i := i + 1;
      }
    }

    /** The link to the object at position `i` skips it. */
    method Skip(previous: Entry?, o: Entry, ghost i: nat)
      requires Valid() && i < |entries| && entries[i] == o && o !in entries[..i]
      requires previous == if i == 0 then null else entries[i - 1]
      modifies this, entries`next
      ensures Valid() && entries == Without(old(entries), o)
      ensures forall j :: 0 <= j < |entries| ==> entries[j] != o
    {
      WithoutAt(entries, o, i);
      WithoutMembers(entries, o);
      ghost var all := entries;
      ghost var left := Without(all, o);
      assert o.next == Following(all, i);
      if previous == null { registered := o.next; } else { previous.next := o.next; }
      entries := left;
      forall j | 0 <= j < |left| ensures left[j].next == Following(left, j) && left[j].port == this {
        SkipAt(all, left, i, j);
        if j >= i { assert all[j + 1].next == Following(all, j + 1); }
      }
    }

    /** unlink_locked: the object leaves the list and its registration is cleared. */
    method Unlink(o: Entry)
      requires Valid()
      modifies this, entries, o
      ensures Valid() && entries == Without(old(entries), o)
      ensures OwnName(old(entries), o) ==> Numbers(entries) == Without(Numbers(old(entries)), o.number)
      ensures o.port == null && o.next == null && o.events == {} && o.reported == {}
      ensures forall e :: e in old(entries) && e != o ==> e.events == old(e.events) && e.reported == old(e.reported)
    {
      ghost var all := entries;
      Detach(o);
      if OwnName(all, o) { NumbersWithout(all, o); }
    }

    /** The walk and the two assignments. */
    method Detach(o: Entry)
      requires Valid()
      modifies this, entries, o
      ensures Valid() && entries == Without(old(entries), o)
      ensures o.port == null && o.next == null && o.events == {} && o.reported == {}
      ensures forall e :: e in old(entries) && e != o ==> e.events == old(e.events) && e.reported == old(e.reported)
    {
      var previous, current, i := Find(o);
      if current == o {
        Skip(previous, o, i);
      } else {
        WithoutAbsent(entries, o);
      }
      Clear(o);
    }

    method Clear(o: Entry)
      requires Valid() && forall j :: 0 <= j < |entries| ==> entries[j] != o
      modifies o
      ensures Valid() && o.port == null && o.next == null && o.events == {} && o.reported == {}
    {
      o.port, o.next, o.events, o.reported := null, null, {}, {};
    }

    /** sn_port_destroy: unlink the head until the list is empty. */
    method Drain()
      requires Valid()
      modifies this, entries
      ensures Valid() && entries == [] && registered == null
      ensures forall e :: e in old(entries) ==> e.port == null && e.next == null && e.events == {} && e.reported == {}
    {
      ghost var all := entries;
      ghost var k := 0;
      while registered != null
        invariant Valid() && k <= |all| && entries == all[k..]
        invariant forall j :: 0 <= j < k ==>
                    all[j].port == null && all[j].next == null && all[j].events == {} && all[j].reported == {}
        decreases |entries|
      {
        assert forall j :: 0 <= j < k ==> all[j] !in all[k..];
        DrainStep();
        assert all[k..][1..] == all[k + 1..];
        k := k + 1;
      }
      assert k == |all|;
    }

    /** One turn of the drain: the head is unlinked and everything behind it stays. */
    method DrainStep()
      requires Valid() && registered != null
      modifies this, entries
      ensures Valid() && entries == old(entries)[1..]
      ensures var h := old(entries)[0]; h.port == null && h.next == null && h.events == {} && h.reported == {}
    {
      Unlink(registered);
    }

    /** The first loop of a round counts the list. */
    method Count() returns (n: nat)
      requires Valid()
      ensures n == |entries|
    {
      n := 0;
      var o := registered;
      while o != null
        invariant 0 <= n <= |entries|
        invariant o == if n < |entries| then entries[n] else null
        decreases |entries| - n
      {
        assert o == entries[n];
        n := n + 1;
        o := o.next;
      }
    }

    /** The snapshot loop of WaitForSocketEvents: it follows the links, fills the parallel arrays of objects and poll
        entries and the event buffer, pins what it hands to the poll, and marks what it reports about pipes. It computes
        the snapshot of the event port model on the objects that the entries mirror. */
    method TakeSnapshot(limit: nat, room: nat, ghost objs: seq<Object>)
      returns (objects: seq<Entry>, requested: seq<set<Condition>>, buffer: seq<Record>)
      requires Valid() && Named(entries) && AllMirror(objs, entries)
      modifies entries`references, entries`reported
      ensures Valid() && entries == old(entries) && Within(Numbers(entries), |objs|)
      ensures var r := Scan(objs, Numbers(entries), limit, room, [], [], []);
              && Numbers(objects) == r.objects && requested == r.requested && buffer == r.buffer
              && AllMirror(r.objs, entries)
    {
      MirrorsWithin(objs, entries);
      assert Numbers([]) == [] && Numbers(entries)[0..] == Numbers(entries);
      ghost var i, now;
      ghost var goal := Scan(objs, Numbers(entries), limit, room, [], [], []);
      objects, requested, buffer, i, now := Walk(limit, room, objs, goal);
      ScanEnds(now, Numbers(entries)[i..], limit, room, Numbers(objects), requested, buffer);
    }

    /** Where the walk over the list stands: the snapshot from position `i` on leads to `goal`. */
    ghost predicate Walking(i: nat, limit: nat, room: nat, objects: seq<Entry>, requested: seq<set<Condition>>,
                            buffer: seq<Record>, now: seq<Object>, goal: Scanned)
      reads this, entries
    {
      && i <= |entries| && AllMirror(now, entries) && Within(Numbers(entries)[i..], |now|)
      && Scan(now, Numbers(entries)[i..], limit, room, Numbers(objects), requested, buffer) == goal
    }

    method Walk(limit: nat, room: nat, ghost objs: seq<Object>, ghost goal: Scanned)
      returns (objects: seq<Entry>, requested: seq<set<Condition>>, buffer: seq<Record>, ghost i: nat,
               ghost now: seq<Object>)
      requires Valid() && Named(entries) && Walking(0, limit, room, [], [], [], objs, goal)
      modifies entries`references, entries`reported
      ensures Valid() && Walking(i, limit, room, objects, requested, buffer, now, goal)
      ensures i == |entries| || |objects| >= limit
    {
      objects, requested, buffer, i, now := [], [], [], 0, objs;
      var o := registered;
      while o != null && |objects| < limit
        invariant Valid() && i <= |entries| && o == if i < |entries| then entries[i] else null
        invariant Walking(i, limit, room, objects, requested, buffer, now, goal)
        decreases |entries| - i
      {
        objects, requested, buffer, now := SnapshotTurn(o, i, limit, room, objects, requested, buffer, now, goal);
        assert o.next == Following(entries, i);
        i, o := i + 1, o.next;
      }
    }

    /** A turn of the loop. */
    method SnapshotTurn(o: Entry, ghost i: nat, ghost limit: nat, room: nat, objects: seq<Entry>,
                        requested: seq<set<Condition>>, buffer: seq<Record>,
                        ghost now: seq<Object>, ghost goal: Scanned)
      returns (objects': seq<Entry>, requested': seq<set<Condition>>, buffer': seq<Record>, ghost now': seq<Object>)
      requires Named(entries) && i < |entries| && entries[i] == o && |objects| < limit
      requires Walking(i, limit, room, objects, requested, buffer, now, goal)
      modifies o`references, o`reported
      ensures Walking(i + 1, limit, room, objects', requested', buffer', now', goal)
    {
      assert Mirrors(now, entries[i]);
      ScanTurn(now, Numbers(entries), i, limit, room, Numbers(objects), requested, buffer);
      objects', requested', buffer', now' := Visit(o, room, objects, requested, buffer, now);
      OthersMirror(now, now', entries, i);
    }

    /** One object of the list. */
    method Visit(o: Entry, room: nat, objects: seq<Entry>, requested: seq<set<Condition>>, buffer: seq<Record>,
                 ghost objs: seq<Object>)
      returns (objects': seq<Entry>, requested': seq<set<Condition>>, buffer': seq<Record>, ghost objs': seq<Object>)
      requires Mirrors(objs, o)
      modifies o`references, o`reported
      ensures Scanned(objs', Numbers(objects'), requested', buffer') ==
              ScanOne(objs, o.number, room, Numbers(objects), requested, buffer)
      ensures Mirrors(objs', o) && |objs'| == |objs|
      ensures forall x :: 0 <= x < |objs| && x != o.number ==> objs'[x] == objs[x]
    {
      objects', requested', buffer' := objects, requested, buffer;
      ghost var x := objs[o.number];
      objs' := objs;
      if o.kind == Pipe {
        var ready := if o.writeEnd then {Writes} else if o.readable then {Reads} else {};
        var news := ready * o.events - o.reported;
        if news != {} && |buffer| < room {
          o.reported := o.reported + news;
          buffer' := buffer + [Record(o.number, o.data, news)];
          objs' := objs[o.number := x.(reg := ReportPipe(x.reg, news))];
        }
      } else {
        var wanted := o.events * DIRECTIONS - o.reported;
        NothingLeft(x.reg);
        if !(wanted == {} && Errors in o.reported && Hangup in o.reported) {
          o.references := o.references + 1;
          objects' := objects + [o];
          requested' := requested + [wanted];
          objs' := objs[o.number := x.(references := x.references + 1)];
          assert Numbers(objects') == Numbers(objects) + [o.number];
        }
      }
    }
  }

  /** The model's object and the one in memory say the same. */
  ghost predicate Mirrors(objs: seq<Object>, e: Entry)
    reads e
  {
    && e.number < |objs|
    && var x := objs[e.number];
       && x.kind == e.kind && x.writeEnd == e.writeEnd && x.readable == e.readable && x.references == e.references
       && x.reg.data == e.data && x.reg.events == e.events && x.reg.reported == e.reported
  }

  ghost predicate AllMirror(objs: seq<Object>, entries: seq<Entry>)
    reads entries
  {
    forall i :: 0 <= i < |entries| ==> Mirrors(objs, entries[i])
  }

  lemma NothingLeft(reg: Registration)
    ensures Needs(reg) == {} <==> Requested(reg) == {} && Errors in reg.reported && Hangup in reg.reported
  {
    assert Errors in ALWAYS && Hangup in ALWAYS;
    if Needs(reg) == {} { assert Errors !in Needs(reg) && Hangup !in Needs(reg); }
  }

  lemma MirrorsWithin(objs: seq<Object>, entries: seq<Entry>)
    requires AllMirror(objs, entries)
    ensures Within(Numbers(entries), |objs|)
  {
    forall i | 0 <= i < |entries| ensures Numbers(entries)[i] < |objs| { assert Mirrors(objs, entries[i]); }
  }

  lemma ScanEnds(objs: seq<Object>, list: seq<nat>, limit: nat, room: nat,
                 objects: seq<nat>, requested: seq<set<Condition>>, buffer: seq<Record>)
    requires Within(list, |objs|) && (list == [] || |objects| >= limit)
    ensures Scan(objs, list, limit, room, objects, requested, buffer) == Scanned(objs, objects, requested, buffer)
  {
  }

  /** The snapshot from position `i` is a look at the object there and the snapshot from the next. */
  lemma ScanTurn(objs: seq<Object>, list: seq<nat>, i: nat, limit: nat, room: nat,
                 objects: seq<nat>, requested: seq<set<Condition>>, buffer: seq<Record>)
    requires i < |list| && Within(list[i..], |objs|) && |objects| < limit
    ensures list[i] < |objs| && Within(list[i + 1..], |objs|)
    ensures var r := ScanOne(objs, list[i], room, objects, requested, buffer);
            Scan(objs, list[i..], limit, room, objects, requested, buffer) ==
            Scan(r.objs, list[i + 1..], limit, room, r.objects, r.requested, r.buffer)
  {
    assert list[i..][0] == list[i] && list[i..][1..] == list[i + 1..];
    assert forall k :: 0 <= k < |list[i..]| ==> list[i..][k] < |objs|;
    var rest := list[i..];
    assert forall k :: 0 <= k < |rest[1..]| ==> rest[1..][k] == rest[k + 1];
  }

  lemma OthersMirror(objs: seq<Object>, objs': seq<Object>, entries: seq<Entry>, i: nat)
    requires Named(entries) && i < |entries| && |objs'| == |objs| && Mirrors(objs', entries[i])
    requires forall x :: 0 <= x < |objs| && x != entries[i].number ==> objs'[x] == objs[x]
    requires forall j :: 0 <= j < |entries| && j != i ==> Mirrors(objs, entries[j])
    ensures AllMirror(objs', entries)
  {
  }
}
