/** Over whole runs: when a direction is recorded again, and what keeps it watched until then. */
module EventPortHistory {
  import opened Basics
  import opened EventPortModel
  import opened EventPortInvariant
  import opened EventPortListSteps
  import opened EventPortTheorems
  import opened EventPortRecords

  /** The step leads from one state to the other. */
  ghost predicate StepTo(s: State, step: Step, s': State) { Addressed(s) && Enabled(s, step) && s' == Apply(s, step) }

  ghost predicate ReportedIn(s: State, o: nat, d: Condition) { o < |s.objs| && d in s.objs[o].reg.reported }

  /** In the step to state `k` the condition became reported. */
  ghost predicate MarkedAt(run: seq<State>, k: nat, o: nat, d: Condition) {
    && 0 < k < |run| && o < |run[k - 1].objs| && o < |run[k].objs|
    && d !in run[k - 1].objs[o].reg.reported && d in run[k].objs[o].reg.reported
  }

  ghost predicate Added(s: State, s': State, o: nat, d: Condition) {
    exists step :: StepTo(s, step, s') && Adds(s, step, o, d)
  }

  /** In the step to state `k` a waiter added a record about `o` that carries the condition. */
  ghost predicate AddedAt(run: seq<State>, k: nat, o: nat, d: Condition) {
    0 < k < |run| && Added(run[k - 1], run[k], o, d)
  }

  // ---- what makes a condition unreported --------------------------------------------------------

  /** The step re-arms the condition of the object, or newly asks for it. */
  ghost predicate Rearms(s: State, step: Step, o: nat, d: Condition)
    requires Addressed(s) && Enabled(s, step)
  {
    || (step.WouldBlock? && s.threads[step.t].task.o == o && d in step.events)
    || (step.Go? && s.threads[step.t].task.RegisterLock? && s.threads[step.t].task.o == o
        && d in s.threads[step.t].task.events && o < |s.objs| && d !in s.objs[o].reg.events)
  }

  ghost predicate Rearmed(s: State, s': State, o: nat, d: Condition) {
    exists step :: StepTo(s, step, s') && Rearms(s, step, o, d)
  }

  /** The step to state `k` re-arms the condition of the object, or newly asks for it, and takes its mark back. */
  ghost predicate RearmedAt(run: seq<State>, k: nat, o: nat, d: Condition) {
    0 < k < |run| && ReportedIn(run[k - 1], o, d) && !ReportedIn(run[k], o, d) && Rearmed(run[k - 1], run[k], o, d)
  }

  /** What the step does to the reports about an object that stays registered: it forgets only what it re-arms. */
  ghost predicate Remembers(s: State, step: Step, o: nat)
    requires Addressed(s) && Enabled(s, step) && o < |s.objs|
  {
    var s' := Apply(s, step);
    && o < |s'.objs|
    && (s'.objs[o].reg.port.Some? ==>
          forall d :: d in s.objs[o].reg.reported && d !in s'.objs[o].reg.reported ==> Rearms(s, step, o, d))
  }

  lemma CallRemembers(s: State, step: Step, o: nat)
    requires Lists(s.objs) && Addressed(s) && Enabled(s, step) && o < |s.objs| && !step.Go?
    ensures Remembers(s, step, o)
  {
    if step.Close? {
      if 3 <= step.fd < MAX_FD && s.table[step.fd].Some? { CloseAt(s, step.fd, o); }
    } else if step.Use? || step.BeginClosePort? || step.BeginRegister? || step.BeginWait? {
      PinRemembers(s, step, o);
    } else if step.WouldBlock? || step.PipeFill? || step.PipeDrain? {
      UseRemembers(s, step, o);
    }
  }

  lemma PinRemembers(s: State, step: Step, o: nat)
    requires Addressed(s) && Enabled(s, step) && o < |s.objs|
    requires step.Use? || step.BeginClosePort? || step.BeginRegister? || step.BeginWait?
    ensures Remembers(s, step, o)
  {
    var objs := Apply(s, step).objs;
    assert objs == s.objs || exists x :: 0 <= x < |s.objs| && objs == AddReference(s.objs, x);
  }

  lemma UseRemembers(s: State, step: Step, o: nat)
    requires Addressed(s) && Enabled(s, step) && o < |s.objs|
    requires step.WouldBlock? || step.PipeFill? || step.PipeDrain?
    ensures Remembers(s, step, o)
  {
  }

  lemma FreeRemembers(s: State, x: nat, o: nat)
    requires x < |s.objs| && o < |s.objs|
    ensures var y := Free(s, x).objs[o]; y.reg.port.Some? ==> y.reg == s.objs[o].reg
  {
  }

  /** A pass over the list reports, and forgets nothing. */
  lemma {:induction false} ScanRemembers(objs: seq<Object>, list: seq<nat>, limit: nat, room: nat, objects: seq<nat>,
                                         requested: seq<set<Condition>>, buffer: seq<Record>, o: nat)
    requires Within(list, |objs|) && o < |objs|
    ensures var r := Scan(objs, list, limit, room, objects, requested, buffer);
      |r.objs| == |objs| && objs[o].reg.reported <= r.objs[o].reg.reported && |buffer| <= |r.buffer|
    decreases |list|
  {
    if list != [] && |objects| < limit {
      var r := ScanOne(objs, list[0], room, objects, requested, buffer);
      ScanRemembers(r.objs, list[1..], limit, room, r.objects, r.requested, r.buffer, o);
    }
  }

  lemma SnapshotRemembers(s: State, t: nat, o: nat)
    requires Addressed(s) && Enabled(s, Go(t)) && o < |s.objs| && s.threads[t].task.Snapshot?
    ensures Remembers(s, Go(t), o)
  {
    var task := s.threads[t].task;
    var port := s.objs[task.owner].self;
    ScanRemembers(s.objs, port.registered, Min(port.capacity, MAX_POLL), task.room, [], [], [], o);
  }

  lemma RegisterRemembers(s: State, t: nat, o: nat)
    requires Lists(s.objs) && Addressed(s) && Enabled(s, Go(t)) && o < |s.objs|
    requires TaskOk(s.objs, s.threads[t].task) && s.threads[t].task.RegisterLock?
    ensures Remembers(s, Go(t), o)
  {
    var task := s.threads[t].task;
    assert MemberAt(s.objs, o);
    if Register(s, task.owner, task.o, task.events, task.data).Some? {
      RegisterAt(s, task.owner, task.o, task.events, task.data, o);
    }
  }

  lemma PlainRemembers(s: State, t: nat, o: nat)
    requires Addressed(s) && Enabled(s, Go(t)) && o < |s.objs| && TaskOk(s.objs, s.threads[t].task)
    requires var task := s.threads[t].task;
      !task.Discard? && !task.Destroy? && !task.ClosePort? && !task.RegisterLock? && !task.Snapshot?
    ensures Remembers(s, Go(t), o)
  {
    var task := s.threads[t].task;
    if task.Convert? && task.objects != [] { ConvertResult(s, t); }
  }

  lemma GoRemembers(s: State, t: nat, o: nat)
    requires Inv(s) && Addressed(s) && Enabled(s, Go(t)) && o < |s.objs|
    ensures Remembers(s, Go(t), o)
  {
    assert StackOk(s.objs, s.threads[t], true);
    var task := s.threads[t].task;
    if task.Discard? || task.Destroy? {
      FreeRemembers(s, task.o, o);
    } else if task.ClosePort? {
      if 3 <= task.fd && s.table[task.fd].Some? { CloseAt(s, task.fd, o); }
    } else if task.RegisterLock? {
      RegisterRemembers(s, t, o);
    } else if task.Snapshot? {
      SnapshotRemembers(s, t, o);
    } else {
      PlainRemembers(s, t, o);
    }
  }

  lemma StepRemembers(s: State, step: Step, o: nat)
    requires Inv(s) && Addressed(s) && Enabled(s, step) && o < |s.objs|
    ensures Remembers(s, step, o)
  {
    if step.Go? { GoRemembers(s, step.t, o); } else { CallRemembers(s, step, o); }
  }

  // ---- what a record marks ----------------------------------------------------------------------

  ghost predicate Marks(s: State, s': State, o: nat, d: Condition) {
    o < |s.objs| && o < |s'.objs| && d !in s.objs[o].reg.reported && d in s'.objs[o].reg.reported
  }

  /** Every record that a pass over the list adds marks what it carries. */
  lemma {:induction false} ScanMarks(objs: seq<Object>, list: seq<nat>, limit: nat, room: nat, objects: seq<nat>,
                                     requested: seq<set<Condition>>, buffer: seq<Record>, k: nat, d: Condition)
    requires Within(list, |objs|)
    requires |buffer| <= k < |Scan(objs, list, limit, room, objects, requested, buffer).buffer|
    requires d in Scan(objs, list, limit, room, objects, requested, buffer).buffer[k].events
    ensures var r := Scan(objs, list, limit, room, objects, requested, buffer); var o := r.buffer[k].o;
      && o < |objs| && |r.objs| == |objs|
      && d !in objs[o].reg.reported && d in r.objs[o].reg.reported
    decreases |list|
  {
    if list != [] && |objects| < limit {
      var r := ScanOne(objs, list[0], room, objects, requested, buffer);
      if k < |r.buffer| {
        ScanKeepsBuffer(r.objs, list[1..], limit, room, r.objects, r.requested, r.buffer);
        ScanRemembers(r.objs, list[1..], limit, room, r.objects, r.requested, r.buffer, list[0]);
      } else {
        ScanMarks(r.objs, list[1..], limit, room, r.objects, r.requested, r.buffer, k, d);
      }
    }
  }

  lemma {:induction false} ScanKeepsBuffer(objs: seq<Object>, list: seq<nat>, limit: nat, room: nat, objects: seq<nat>,
                                           requested: seq<set<Condition>>, buffer: seq<Record>)
    requires Within(list, |objs|)
    ensures buffer <= Scan(objs, list, limit, room, objects, requested, buffer).buffer
    decreases |list|
  {
    if list != [] && |objects| < limit {
      var r := ScanOne(objs, list[0], room, objects, requested, buffer);
      ScanKeepsBuffer(r.objs, list[1..], limit, room, r.objects, r.requested, r.buffer);
    }
  }

  lemma SnapshotMarks(s: State, t: nat, o: nat, d: Condition)
    requires Inv(s) && Addressed(s) && Enabled(s, Go(t)) && s.threads[t].task.Snapshot? && Adds(s, Go(t), o, d)
    ensures Marks(s, Apply(s, Go(t)), o, d)
  {
    var task := s.threads[t].task;
    var port := s.objs[task.owner].self;
    var after := Gathered(Apply(s, Go(t)).threads[t]);
    var k :| 0 <= k < |after| && after[k].o == o && d in after[k].events;
    ScanMarks(s.objs, port.registered, Min(port.capacity, MAX_POLL), task.room, [], [], [], k, d);
  }

  lemma ConvertMarks(s: State, t: nat, o: nat, d: Condition)
    requires Inv(s) && Addressed(s) && Enabled(s, Go(t)) && s.threads[t].task.Convert? && Adds(s, Go(t), o, d)
    ensures Marks(s, Apply(s, Go(t)), o, d) || (d in DIRECTIONS && Marks(s, Apply(s, Go(t)), o, Hangup))
  {
    var task := s.threads[t].task;
    var after := Gathered(Apply(s, Go(t)).threads[t]);
    var k :| |task.buffer| <= k < |after| && after[k].o == o && d in after[k].events;
    OnlyNewsIsRecorded(s, t, k);
    ConvertResult(s, t);
  }

  /** A record marks what it carries, or the hang-up that stands for it. */
  lemma AddsMarks(s: State, step: Step, o: nat, d: Condition)
    requires Inv(s) && Addressed(s) && Enabled(s, step) && Adds(s, step, o, d)
    ensures Marks(s, Apply(s, step), o, d) || (d in DIRECTIONS && Marks(s, Apply(s, step), o, Hangup))
  {
    if s.threads[step.t].task.Snapshot? { SnapshotMarks(s, step.t, o, d); } else { ConvertMarks(s, step.t, o, d); }
  }

  // ---- over runs --------------------------------------------------------------------------------

  /** The object is registered all the time from state `i` to state `j`. */
  ghost predicate Registered(run: seq<State>, i: nat, j: nat, o: nat) {
    j < |run| && forall k :: i <= k <= j ==> o < |run[k].objs| && run[k].objs[o].reg.port.Some?
  }

  lemma RunNext(run: seq<State>, j: nat)
    requires IsRun(run) && 0 < j < |run|
    ensures Inv(run[j - 1]) && Addressed(run[j - 1]) && Next(run[j - 1], run[j])
  {
    RunInv(run, j - 1);
    assert Linked(run, j - 1);
  }

  lemma NextStep(s: State, s': State) returns (step: Step)
    requires Addressed(s) && Next(s, s')
    ensures StepTo(s, step, s')
  {
    step :| Enabled(s, step) && KeepsOpen(s, step) && OutlivesWakes(s, step) && s' == Apply(s, step);
  }

  lemma RunStep(run: seq<State>, k: nat) returns (step: Step)
    requires IsRun(run) && 0 < k < |run|
    ensures Inv(run[k - 1]) && StepTo(run[k - 1], step, run[k])
  {
    RunNext(run, k);
    step := NextStep(run[k - 1], run[k]);
  }

  lemma RunRemembers(run: seq<State>, k: nat, o: nat, d: Condition)
    requires IsRun(run) && 0 < k < |run| && ReportedIn(run[k - 1], o, d)
    requires o < |run[k].objs| && run[k].objs[o].reg.port.Some?
    ensures ReportedIn(run[k], o, d) || RearmedAt(run, k, o, d)
    ensures d == Hangup ==> ReportedIn(run[k], o, d)
  {
    var step := RunStep(run, k);
    StepRemembers(run[k - 1], step, o);
    if step.Go? { assert StackOk(run[k - 1].objs, run[k - 1].threads[step.t], true); }
    assert !Rearms(run[k - 1], step, o, Hangup);
  }

  lemma {:induction false} ReportedStays(run: seq<State>, i: nat, j: nat, o: nat, d: Condition)
    requires IsRun(run) && i <= j < |run| && Registered(run, i, j, o) && ReportedIn(run[i], o, d)
    ensures ReportedIn(run[j], o, d) || exists k :: i < k <= j && RearmedAt(run, k, o, d)
    ensures d == Hangup ==> ReportedIn(run[j], o, d)
    decreases j
  {
    if i < j {
      ReportedStays(run, i, j - 1, o, d);
      if ReportedIn(run[j - 1], o, d) { RunRemembers(run, j, o, d); }
    }
  }

  /** In one registration a condition is marked a second time only after it was re-armed or newly asked for. */
  lemma MarkedOncePerArming(run: seq<State>, i: nat, j: nat, o: nat, d: Condition)
    requires IsRun(run) && i < j < |run| && Registered(run, i, j, o) && MarkedAt(run, i, o, d) && MarkedAt(run, j, o, d)
    ensures d != Hangup && exists k :: i < k < j && RearmedAt(run, k, o, d)
  {
    ReportedStays(run, i, j - 1, o, d);
  }

  lemma AddedMarks(run: seq<State>, k: nat, o: nat, d: Condition)
    requires IsRun(run) && AddedAt(run, k, o, d)
    ensures MarkedAt(run, k, o, d) || (d in DIRECTIONS && MarkedAt(run, k, o, Hangup))
  {
    RunInv(run, k - 1);
    var step :| StepTo(run[k - 1], step, run[k]) && Adds(run[k - 1], step, o, d);
    AddsMarks(run[k - 1], step, o, d);
  }

  /** In one registration a condition is recorded twice only if it was re-armed or newly asked for between, or if
      exactly one of the two records is that of the hang-up, which comes once. */
  lemma NothingIsRecordedTwice(run: seq<State>, i: nat, j: nat, o: nat, d: Condition)
    requires IsRun(run) && i < j < |run| && Registered(run, i, j, o) && AddedAt(run, i, o, d) && AddedAt(run, j, o, d)
    ensures
      || (exists k :: i < k < j && RearmedAt(run, k, o, d))
      || (d in DIRECTIONS && (MarkedAt(run, i, o, Hangup) <==> !MarkedAt(run, j, o, Hangup)))
  {
    AddedMarks(run, i, o, d);
    AddedMarks(run, j, o, d);
    if MarkedAt(run, i, o, d) && MarkedAt(run, j, o, d) { MarkedOncePerArming(run, i, j, o, d); }
    if MarkedAt(run, i, o, Hangup) && MarkedAt(run, j, o, Hangup) { MarkedOncePerArming(run, i, j, o, Hangup); }
  }

  // ---- re-arming --------------------------------------------------------------------------------

  /** The reading of would_block that the theorem below uses: exactly these directions are not reported any more, and
      the thread goes on to a wake if and only if one was. */
  lemma RearmMeans(s: State, t: nat, events: set<Condition>)
    requires Addressed(s) && Enabled(s, WouldBlock(t, events))
    ensures var o := s.threads[t].task.o; var s' := Apply(s, WouldBlock(t, events));
      && o < |s'.objs| && t < |s'.threads|
      && (forall d :: d in s'.objs[o].reg.reported <==> d in s.objs[o].reg.reported && d !in events)
      && (s'.threads[t] != s.threads[t] <==> s.objs[o].reg.port.Some? && s.objs[o].reg.reported * events != {})
      && (s'.threads[t] != s.threads[t] ==> s'.threads[t] == Do(Wake(s.objs[o].reg.port.value), s.threads[t]))
  {
  }

  ghost predicate StillAsked(s: State, o: nat, p: nat, d: Condition) {
    o < |s.objs| && s.objs[o].kind == Socket && s.objs[o].reg.port == Some(p) && d in s.objs[o].reg.events
  }

  ghost predicate Unreported(s: State, o: nat, d: Condition) { o < |s.objs| && d !in s.objs[o].reg.reported }

  lemma NextRecords(s: State, s': State, o: nat, p: nat, d: Condition)
    requires Inv(s) && Next(s, s') && d in DIRECTIONS && StillAsked(s, o, p, d) && StillAsked(s', o, p, d)
    requires d !in s.objs[o].reg.reported && d in s'.objs[o].reg.reported
    ensures Added(s, s', o, d)
  {
    var step :| Enabled(s, step) && KeepsOpen(s, step) && OutlivesWakes(s, step) && s' == Apply(s, step);
    ReportedOnlyWithRecord(s, step, o, d);
    assert StepTo(s, step, s');
  }

  lemma RunRecords(run: seq<State>, j: nat, o: nat, p: nat, d: Condition)
    requires IsRun(run) && 0 < j < |run| && d in DIRECTIONS && Unreported(run[j - 1], o, d) && !Unreported(run[j], o, d)
    requires StillAsked(run[j - 1], o, p, d) && StillAsked(run[j], o, p, d)
    ensures MarkedAt(run, j, o, d) && AddedAt(run, j, o, d)
  {
    RunNext(run, j);
    NextRecords(run[j - 1], run[j], o, p, d);
  }

  lemma {:induction false} UnreportedUntilRecorded(run: seq<State>, i: nat, j: nat, o: nat, p: nat, d: Condition)
    requires IsRun(run) && i <= j < |run| && d in DIRECTIONS
    requires forall k :: i <= k <= j ==> StillAsked(run[k], o, p, d)
    requires Unreported(run[i], o, d)
    ensures Unreported(run[j], o, d) || exists k :: i < k <= j && MarkedAt(run, k, o, d) && AddedAt(run, k, o, d)
    decreases j
  {
    if i < j {
      UnreportedUntilRecorded(run, i, j - 1, o, p, d);
      assert StillAsked(run[j - 1], o, p, d) && StillAsked(run[j], o, p, d);
      if Unreported(run[j - 1], o, d) && !Unreported(run[j], o, d) { RunRecords(run, j, o, p, d); }
    }
  }

  /** A sleeping waiter asks about `d` of `o`, or its sleep is cut short. */
  ghost predicate Watched(s: State, t: nat, p: nat, o: nat, d: Condition)
    requires Polls(s, t, p)
  {
    var task := s.threads[t].task;
    && |task.requested| == |task.objects| && p < |s.objs|
    && (Asks(task.objects, task.requested, o, d) || TargetOf(s.objs, p) in s.pending || OwesWake(s, p))
  }

  /** From the moment a caller re-arms a direction of a socket and as long as the socket stays registered for it, the
      direction has been recorded for the caller again, or no waiter of the port sleeps without asking about it unless
      its wake is pending or owed. */
  lemma RearmedUntilRecorded(run: seq<State>, i: nat, j: nat, t: nat, events: set<Condition>, p: nat, d: Condition)
    requires IsRun(run) && i < j < |run| && Addressed(run[i]) && Enabled(run[i], WouldBlock(t, events)) && d in events
    requires run[i + 1] == Apply(run[i], WouldBlock(t, events))
    requires forall k :: i < k <= j ==> StillAsked(run[k], run[i].threads[t].task.o, p, d)
    ensures var o := run[i].threads[t].task.o;
      || (exists k :: i + 1 < k <= j && MarkedAt(run, k, o, d) && AddedAt(run, k, o, d))
      || (Unreported(run[j], o, d) && forall u :: Polls(run[j], u, p) ==> Watched(run[j], u, p, o, d))
  {
    var o := run[i].threads[t].task.o;
    RearmMeans(run[i], t, events);
    UnreportedUntilRecorded(run, i + 1, j, o, p, d);
    assert StillAsked(run[j], o, p, d);
    if Unreported(run[j], o, d) {
      forall u | Polls(run[j], u, p) ensures Watched(run[j], u, p, o, d) { NoEdgeIsLost(run, j, u, p, o, d); }
    }
  }
}
