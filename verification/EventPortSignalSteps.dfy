/** Re-arming a direction, pipe traffic and its notifications keep the invariant. */
module EventPortSignalSteps {
  import opened Basics
  import opened EventPortModel
  import opened EventPortInvariant
  import opened EventPortFrames
  import opened EventPortTableSteps
  import opened EventPortLifeSteps
  import opened EventPortListSteps

  /** The object after a change of what was reported about it, or of its readiness. */
  function Touched(objs: seq<Object>, o: nat, reg: Registration, readable: bool): seq<Object>
    requires o < |objs|
  {
    objs[o := objs[o].(reg := reg, readable := readable)]
  }

  /** The registration itself stays: same port, same events. */
  ghost predicate SameTerms(reg: Registration, reg': Registration) {
    reg'.port == reg.port && reg'.events == reg.events && (reg.port == None ==> reg' == reg)
  }

  lemma TouchedFrames(s: State, o: nat, reg: Registration, readable: bool)
    requires Sound(s) && o < |s.objs| && SameTerms(s.objs[o].reg, reg) && RegistrationOk(reg)
    ensures var s' := s.(objs := Touched(s.objs, o, reg, readable));
      Grows(s.objs, s'.objs) && Streams(s') && Channels(s') && Lists(s'.objs) && Bounded(s'.objs)
  {
    var s' := s.(objs := Touched(s.objs, o, reg, readable));
    assert SameChannels(s.objs, s'.objs);
    ChannelsFrame(s, s');
    forall p | 0 <= p < |s'.objs| ensures ListAt(s'.objs, p) { assert ListAt(s.objs, p); }
    forall x | 0 <= x < |s'.objs| ensures MemberAt(s'.objs, x) { assert MemberAt(s.objs, x); }
  }

  /** What the thread may gain with such a change: a wake it owes to a port, a notification of `o`. */
  ghost predicate Gains(s: State, t: nat, stack: Stack, o: nat, x: nat)
    requires t < |s.threads|
  {
    && StackTally(stack, Pin(x)) == StackTally(s.threads[t], Pin(x))
    && StackTally(stack, Made(x)) == StackTally(s.threads[t], Made(x))
    && StackTally(stack, Doom(x)) == StackTally(s.threads[t], Doom(x))
    && StackTally(stack, Waits(x)) == StackTally(s.threads[t], Waits(x))
    && StackTally(stack, Owe(x)) >= StackTally(s.threads[t], Owe(x))
    && (StackTally(stack, Owe(x)) > StackTally(s.threads[t], Owe(x)) ==>
         PortAt(s.objs, x) && s.objs[x].frees == 0 && Tally(s.threads, Made(x)) == 0)
    && (x != o ==> StackTally(stack, Notifies(x)) == StackTally(s.threads[t], Notifies(x)))
  }

  lemma TouchedLedger(s: State, s': State, t: nat, o: nat, reg: Registration, readable: bool, stack: Stack, x: nat)
    requires t < |s.threads| && o < |s.objs| && SameTerms(s.objs[o].reg, reg) && Ledger(s, x)
    requires s' == Set(s.(objs := Touched(s.objs, o, reg, readable)), t, stack) && Gains(s, t, stack, o, x)
    ensures Ledger(s', x)
    ensures Tally(s.threads, Owe(x)) <= Tally(s'.threads, Owe(x))
    ensures x != o ==> Tally(s'.threads, Notifies(x)) == Tally(s.threads, Notifies(x))
  {
    TallyAt(s.threads, t, stack, x);
  }

  /** Only the port of `o` could be disturbed, and it is not, or a wake is coming to it. */
  lemma TouchedCalm(s: State, s': State, t: nat, o: nat, reg: Registration, readable: bool, stack: Stack, p: nat)
    requires t < |s.threads| && o < |s.objs| && p < |s.objs| && Lists(s.objs)
    requires s' == Set(s.(objs := Touched(s.objs, o, reg, readable)), t, stack)
    requires forall x: nat :: Tally(s.threads, Owe(x)) <= Tally(s'.threads, Owe(x))
    requires forall x: nat :: x != o ==> Tally(s'.threads, Notifies(x)) == Tally(s.threads, Notifies(x))
    requires s.objs[o].reg.port == Some(p) ==> Coming(s', p) || CalmAt(s, s', o)
    ensures Calm(s, s', p)
  {
    if s.objs[o].reg.port != Some(p) {
      CalmUntouched(s, s', p);
    } else if !Coming(s', p) {
      assert ListAt(s.objs, p);
      assert !Coming(s, p);
      forall x | x in s'.objs[p].self.registered && x < |s'.objs|
        ensures x in s.objs[p].self.registered && x < |s.objs| && CalmAt(s, s', x)
      {
      }
    }
  }

  lemma TouchStep(s: State, s': State, t: nat, o: nat, reg: Registration, readable: bool, stack: Stack)
    requires Inv(s) && t < |s.threads| && o < |s.objs| && SameTerms(s.objs[o].reg, reg) && RegistrationOk(reg)
    requires s' == Set(s.(objs := Touched(s.objs, o, reg, readable)), t, stack)
    requires StackOk(s.objs, stack, true) && (stack.Do? ==> RoundOk(s', stack.task))
    requires forall x: nat :: Gains(s, t, stack, o, x)
    requires var p := s.objs[o].reg.port;
      p.Some? && p.value < |s.objs| ==> Coming(s', p.value) || CalmAt(s, s', o)
    ensures Inv(s')
  {
    TouchedFrames(s, o, reg, readable);
    StackGrows(s.objs, s'.objs, stack, true);
    forall x: nat ensures Ledger(s', x) && Tally(s.threads, Owe(x)) <= Tally(s'.threads, Owe(x))
      && (x != o ==> Tally(s'.threads, Notifies(x)) == Tally(s.threads, Notifies(x)))
    {
      assert Ledger(s, x) && Gains(s, t, stack, o, x);
      TouchedLedger(s, s', t, o, reg, readable, stack, x);
    }
    forall p | 0 <= p < |s.objs| ensures Calm(s, s', p) {
      TouchedCalm(s, s', t, o, reg, readable, stack, p);
    }
    Assemble(s, s', t, stack);
  }

  lemma PortNotMade(s: State, o: nat)
    requires Sound(s) && o < |s.objs| && s.objs[o].reg.port.Some?
    ensures PortAt(s.objs, s.objs[o].reg.port.value) && s.objs[s.objs[o].reg.port.value].frees == 0
    ensures Tally(s.threads, Made(s.objs[o].reg.port.value)) == 0
  {
    PortAlive(s.objs, o);
    assert MemberAt(s.objs, o);
    assert Ledger(s, s.objs[o].reg.port.value);
  }

  // ---- re-arming -----------------------------------------------------------------------------------------

  lemma RearmBounded(reg: Registration, events: set<Condition>)
    requires RegistrationOk(reg) && events <= DIRECTIONS
    ensures RegistrationOk(Rearm(reg, events))
  {
    assert reg.reported == (reg.reported - events) + (reg.reported * events);
    assert |reg.reported| == |reg.reported - events| + |reg.reported * events|;
  }

  lemma RearmIdle(reg: Registration, events: set<Condition>)
    requires reg.reported * events == {}
    ensures Rearm(reg, events) == reg
  {
    assert reg.reported - events == reg.reported;
  }

  lemma Owed(s: State, t: nat, stack: Stack, p: nat)
    requires t < |s.threads| && StackTally(stack, Owe(p)) > StackTally(s.threads[t], Owe(p))
    ensures Tally(s.threads[t := stack], Owe(p)) > 0
  {
    TallyUpdate(s.threads, t, stack, Owe(p));
  }

  /** With nothing reported in these directions, re-arming changes nothing. */
  lemma RearmNothing(s: State, t: nat, o: nat, events: set<Condition>)
    requires t < |s.threads| && o < |s.objs| && MemberAt(s.objs, o)
    requires s.objs[o].reg.port == None || s.objs[o].reg.reported * events == {}
    ensures RearmStep(s, t, o, events, s.threads[t]) == s
  {
    RearmIdle(s.objs[o].reg, events);
    assert s.objs[o := s.objs[o]] == s.objs && s.threads[t := s.threads[t]] == s.threads;
  }

  lemma RearmWakes(s: State, t: nat, o: nat, events: set<Condition>)
    requires Inv(s) && t < |s.threads| && s.threads[t].Do? && s.threads[t].task == Using(o) && o < |s.objs|
    requires events <= DIRECTIONS && s.objs[o].reg.port.Some?
    ensures Inv(Set(s.(objs := Touched(s.objs, o, Rearm(s.objs[o].reg, events), s.objs[o].readable)), t,
                    Do(Wake(s.objs[o].reg.port.value), s.threads[t])))
  {
    var reg := s.objs[o].reg;
    var stack := Do(Wake(reg.port.value), s.threads[t]);
    var s' := Set(s.(objs := Touched(s.objs, o, Rearm(reg, events), s.objs[o].readable)), t, stack);
    RearmBounded(reg, events);
    PortNotMade(s, o);
    forall y: nat ensures Gains(s, t, stack, o, y) { }
    Owed(s, t, stack, reg.port.value);
    assert StackOk(s.objs, s.threads[t], true);
    TouchStep(s, s', t, o, Rearm(reg, events), s.objs[o].readable, stack);
  }

  /** sn_socket_would_block */
  lemma RearmKeeps(s: State, t: nat, o: nat, events: set<Condition>)
    requires Inv(s) && t < |s.threads| && s.threads[t].Do? && s.threads[t].task == Using(o) && o < |s.objs|
    requires events <= DIRECTIONS
    ensures Inv(RearmStep(s, t, o, events, s.threads[t]))
  {
    var reg := s.objs[o].reg;
    if reg.port == None || reg.reported * events == {} {
      assert MemberAt(s.objs, o);
      RearmNothing(s, t, o, events);
    } else {
      RearmWakes(s, t, o, events);
    }
  }

  // ---- pipes ---------------------------------------------------------------------------------------------

  lemma PipeFillStep(s: State, t: nat, o: nat)
    requires Inv(s) && t < |s.threads| && s.threads[t].Do? && s.threads[t].task == Using(o) && o < |s.objs|
    ensures Inv(Set(s.(objs := s.objs[o := s.objs[o].(readable := true)]), t, Do(Notify(o), s.threads[t])))
  {
    var reg := s.objs[o].reg;
    var stack := Do(Notify(o), s.threads[t]);
    var s' := Set(s.(objs := Touched(s.objs, o, reg, true)), t, stack);
    forall y: nat ensures Gains(s, t, stack, o, y) { }
    TallyUpdate(s.threads, t, stack, Notifies(o));
    assert StackOk(s.objs, s.threads[t], true);
    TouchStep(s, s', t, o, reg, true, stack);
  }

  lemma PipeDrainStep(s: State, t: nat, o: nat)
    requires Inv(s) && t < |s.threads| && s.threads[t].Do? && s.threads[t].task == Using(o) && o < |s.objs|
    ensures Inv(s.(objs := s.objs[o := s.objs[o].(readable := false)]))
  {
    var reg := s.objs[o].reg;
    var s' := Set(s.(objs := Touched(s.objs, o, reg, false)), t, s.threads[t]);
    assert s'.threads == s.threads;
    forall y: nat ensures Gains(s, t, s.threads[t], o, y) { }
    assert StackOk(s.objs, s.threads[t], true);
    TouchStep(s, s', t, o, reg, false, s.threads[t]);
  }

  function NotifyStack(s: State, t: nat, o: nat): Stack
    requires t < |s.threads| && s.threads[t].Do? && o < |s.objs|
  {
    if s.objs[o].reg.port.Some? then Do(Wake(s.objs[o].reg.port.value), s.threads[t].rest) else s.threads[t].rest
  }

  lemma NotifyGains(s: State, t: nat, o: nat, y: nat)
    requires Inv(s) && t < |s.threads| && s.threads[t].Do? && s.threads[t].task == Notify(o) && o < |s.objs|
    ensures Gains(s, t, NotifyStack(s, t, o), o, y)
  {
    if s.objs[o].reg.port.Some? { PortNotMade(s, o); }
  }

  /** sn_port_notify: the notification becomes a wake, if the pipe is registered at all. */
  lemma NotifyStep(s: State, t: nat, o: nat)
    requires Inv(s) && t < |s.threads| && s.threads[t].Do? && s.threads[t].task == Notify(o) && o < |s.objs|
    ensures Inv(NotifyNow(s, t, o, s.threads[t].rest))
  {
    var x := s.objs[o];
    var stack := NotifyStack(s, t, o);
    var s' := Set(s, t, stack);
    assert Touched(s.objs, o, x.reg, x.readable) == s.objs;
    assert StackOk(s.objs, s.threads[t], true);
    BelowTop(s.objs, s.threads[t].rest);
    forall y: nat ensures Gains(s, t, stack, o, y) { NotifyGains(s, t, o, y); }
    if x.reg.port.Some? {
      PortNotMade(s, o);
      Owed(s, t, stack, x.reg.port.value);
    }
    TouchStep(s, s', t, o, x.reg, x.readable, stack);
  }
}
