/** Ports take and release channels, and objects are destroyed, without breaking the invariant. */
module EventPortLifeSteps {
  import opened Basics
  import opened EventPortModel
  import opened EventPortInvariant
  import opened EventPortFrames
  import opened EventPortTableSteps

  // ---- taking a channel ------------------------------------------------------------------------

  lemma {:induction false} FirstChannelFinds(channels: set<nat>, c: nat)
    ensures var r := FirstChannel(channels, c);
      if r.Some? then
        c <= r.value < POLL_CHANNELS && r.value !in channels && forall i :: c <= i < r.value ==> i in channels
      else forall i :: c <= i < POLL_CHANNELS ==> i in channels
    decreases POLL_CHANNELS - c
  {
    if c < POLL_CHANNELS && c in channels { FirstChannelFinds(channels, c + 1); }
  }

  lemma NewChannels(s: State, c: Option<nat>)
    requires Channels(s) && (c.Some? ==> c.value < POLL_CHANNELS && c.value !in s.channels)
    ensures Channels(WithNewPort(s, c))
  {
    var s' := WithNewPort(s, c);
    forall d | d in s'.channels ensures exists p :: 0 <= p < |s'.objs| && s'.objs[p].self.channel == Some(d) {
      if c == Some(d) {
        assert s'.objs[|s.objs|].self.channel == Some(d);
      } else {
        var p :| 0 <= p < |s.objs| && s.objs[p].self.channel == Some(d);
        assert s'.objs[p].self.channel == Some(d);
      }
    }
  }

  lemma NewPortLedger(s: State, s': State, t: nat, c: Option<nat>, x: nat)
    requires Idle(s, t) && Ledger(s, x) && s' == Set(WithNewPort(s, c), t, Do(Install(|s.objs|), Done))
    ensures Ledger(s', x)
    ensures Tally(s'.threads, Notifies(x)) == Tally(s.threads, Notifies(x))
    ensures Tally(s'.threads, Owe(x)) == Tally(s.threads, Owe(x))
  {
    TallyAt(s.threads, t, Do(Install(|s.objs|), Done), x);
  }

  lemma NewPortLists(objs: seq<Object>, o: Object)
    requires Lists(objs) && o.kind == Port && o.frees == 0 && o.reg == UNREGISTERED && o.self.registered == []
    ensures Lists(objs + [o])
  {
    var objs' := objs + [o];
    forall p | 0 <= p < |objs'| ensures ListAt(objs', p) { if p < |objs| { assert ListAt(objs, p); } }
    forall x | 0 <= x < |objs'| ensures MemberAt(objs', x) { if x < |objs| { assert MemberAt(objs, x); } }
  }

  lemma NewPortLedgers(s: State, s': State, t: nat, c: Option<nat>)
    requires Inv(s) && Idle(s, t) && s' == Set(WithNewPort(s, c), t, Do(Install(|s.objs|), Done))
    ensures Ledgers(s')
    ensures forall x: nat :: Tally(s'.threads, Notifies(x)) == Tally(s.threads, Notifies(x))
    ensures forall x: nat :: Tally(s'.threads, Owe(x)) == Tally(s.threads, Owe(x))
  {
    forall x: nat ensures Ledger(s', x) && Tally(s'.threads, Notifies(x)) == Tally(s.threads, Notifies(x))
      && Tally(s'.threads, Owe(x)) == Tally(s.threads, Owe(x))
    {
      assert Ledger(s, x);
      NewPortLedger(s, s', t, c, x);
    }
  }

  lemma NewPortStep(s: State, t: nat, c: Option<nat>)
    requires Inv(s) && Idle(s, t) && (c.Some? ==> c.value < POLL_CHANNELS && c.value !in s.channels)
    ensures Inv(Set(WithNewPort(s, c), t, Do(Install(|s.objs|), Done)))
  {
    var stack := Do(Install(|s.objs|), Done);
    var s' := Set(WithNewPort(s, c), t, stack);
    NewPortLedgers(s, s', t, c);
    NewChannels(s, c);
    assert Channels(s');
    NewPortLists(s.objs, s'.objs[|s.objs|]);
    forall p | 0 <= p < |s.objs| ensures Calm(s, s', p) { NewPortCalm(s, s', t, c, p); }
    Assemble(s, s', t, stack);
  }

  lemma NewPortCalm(s: State, s': State, t: nat, c: Option<nat>, p: nat)
    requires Inv(s) && Idle(s, t) && s' == Set(WithNewPort(s, c), t, Do(Install(|s.objs|), Done)) && p < |s.objs|
    requires forall x: nat :: Tally(s'.threads, Notifies(x)) == Tally(s.threads, Notifies(x))
    requires Tally(s'.threads, Owe(p)) == Tally(s.threads, Owe(p))
    ensures Calm(s, s', p)
  {
    CalmUntouched(s, s', p);
  }

  /** A port whose own object and whose members are untouched is calm. */
  lemma CalmUntouched(s: State, s': State, p: nat)
    requires p < |s.objs| <= |s'.objs| && Lists(s.objs)
    requires s'.objs[p].self == s.objs[p].self && s'.pending == s.pending
    requires forall o :: 0 <= o < |s.objs| && s.objs[o].reg.port == Some(p) ==>
      && s'.objs[o].kind == s.objs[o].kind && s'.objs[o].reg == s.objs[o].reg
      && s'.objs[o].writeEnd == s.objs[o].writeEnd && s'.objs[o].readable == s.objs[o].readable
      && Tally(s'.threads, Notifies(o)) == Tally(s.threads, Notifies(o))
    requires Tally(s.threads, Owe(p)) <= Tally(s'.threads, Owe(p))
    ensures Calm(s, s', p)
  {
    if !Coming(s', p) {
      assert ListAt(s.objs, p);
      forall o | o in s'.objs[p].self.registered && o < |s'.objs|
        ensures o in s.objs[p].self.registered && o < |s.objs| && CalmAt(s, s', o)
      {
        assert s.objs[o].reg.port == Some(p);
      }
    }
  }

  // ---- destruction -------------------------------------------------------------------------------

  /** The thread is entitled to destroy `o`: it was the last reference, or `o` was never installed. */
  ghost predicate Entitled(s: State, t: nat, o: nat) {
    && t < |s.threads| && s.threads[t].Do? && o < |s.objs|
    && (s.threads[t].task == Destroy(o) || s.threads[t].task == Discard(o))
    && s.objs[o].kind != Stream
    && (s.objs[o].kind == Port ==> Tally(s.threads, Owe(o)) == 0)
  }

  lemma EntitledAlone(s: State, t: nat, o: nat)
    requires Ledger(s, o) && Entitled(s, t, o)
    ensures s.objs[o].frees == 0 && Slots(s.table, o) == 0 && Tally(s.threads, Pin(o)) == 0
    ensures Tally(s.threads, Waits(o)) == 0
    ensures StackTally(s.threads[t].rest, Made(o)) == Tally(s.threads[t := s.threads[t].rest], Made(o)) == 0
    ensures Tally(s.threads[t := s.threads[t].rest], Doom(o)) == 0
    ensures s.objs[o].reg.port.Some? ==> s.objs[o].descriptors == 0
  {
    TallyAt(s.threads, t, s.threads[t].rest, o);
    TallyAt(s.threads[t := s.threads[t].rest], t, Done, o);
    Unroll(s.threads[t]);
    WaitsPin(s.threads, o);
  }

  lemma FreedAt(s: State, o: nat, x: nat)
    requires o < |s.objs| && x < |s.objs|
    ensures var y := Free(s, o).objs[x];
      && y.kind == s.objs[x].kind && y.references == s.objs[x].references && y.descriptors == s.objs[x].descriptors
      && y.frees == s.objs[x].frees + One(x == o)
      && (s.objs[x].reg.port == None && s.objs[x].reg == UNREGISTERED ==> y.reg == UNREGISTERED)
      && (x != o ==> y.self == s.objs[x].self)
      && (s.objs[o].kind == Port ==> Free(s, o).objs[o].self == NO_PORT)
      && (s.objs[o].kind != Port ==> y.self == s.objs[x].self)
  {
  }

  /** Losing the duty to destroy, or the creator's reference, is all that happens to the thread. */
  lemma FreeTallies(s: State, t: nat, o: nat, x: nat)
    requires Entitled(s, t, o)
    ensures var threads := s.threads[t := s.threads[t].rest];
      && Tally(threads, Pin(x)) == Tally(s.threads, Pin(x)) && Tally(threads, Owe(x)) == Tally(s.threads, Owe(x))
      && Tally(threads, Notifies(x)) == Tally(s.threads, Notifies(x))
      && Tally(threads, Waits(x)) == Tally(s.threads, Waits(x))
      && (x != o ==> Tally(threads, Made(x)) == Tally(s.threads, Made(x)))
      && (x != o ==> Tally(threads, Doom(x)) == Tally(s.threads, Doom(x)))
  {
    TallyAt(s.threads, t, s.threads[t].rest, x);
    Unroll(s.threads[t]);
  }

  lemma FreeLedgerOther(s: State, s': State, t: nat, o: nat, x: nat)
    requires Entitled(s, t, o) && Ledger(s, x) && Lists(s.objs) && x != o
    requires s' == Set(Free(s, o), t, s.threads[t].rest)
    ensures Ledger(s', x)
  {
    FreeTallies(s, t, o, x);
    if x < |s.objs| {
      assert MemberAt(s.objs, x);
      FreedAt(s, o, x);
    }
  }

  lemma FreeLedgerSelf(s: State, s': State, t: nat, o: nat)
    requires Entitled(s, t, o) && Ledger(s, o) && Lists(s.objs)
    requires s' == Set(Free(s, o), t, s.threads[t].rest)
    ensures Ledger(s', o)
  {
    FreeTallies(s, t, o, o);
    EntitledAlone(s, t, o);
    FreedAt(s, o, o);
  }

  lemma FreeLedger(s: State, s': State, t: nat, o: nat, x: nat)
    requires Entitled(s, t, o) && Ledger(s, o) && Ledger(s, x) && Lists(s.objs)
    requires s' == Set(Free(s, o), t, s.threads[t].rest)
    ensures Ledger(s', x)
    ensures Tally(s'.threads, Notifies(x)) == Tally(s.threads, Notifies(x))
    ensures Tally(s'.threads, Owe(x)) == Tally(s.threads, Owe(x))
  {
    FreeTallies(s, t, o, x);
    if x == o { FreeLedgerSelf(s, s', t, o); } else { FreeLedgerOther(s, s', t, o, x); }
  }

  lemma FreePlainFrames(s: State, o: nat)
    requires Sound(s) && o < |s.objs| && s.objs[o].kind != Port && s.objs[o].reg.port == None
    ensures var s' := Free(s, o);
      Grows(s.objs, s'.objs) && Streams(s') && Channels(s') && Lists(s'.objs) && Bounded(s'.objs)
  {
    var s' := Free(s, o);
    forall p | 0 <= p < |s'.objs| ensures ListAt(s'.objs, p) { assert ListAt(s.objs, p); }
    forall x | 0 <= x < |s'.objs| ensures MemberAt(s'.objs, x) { assert MemberAt(s.objs, x); }
    assert SameChannels(s.objs, s'.objs);
    ChannelsFrame(s, s');
  }

  lemma FreePlainStep(s: State, t: nat, o: nat)
    requires Inv(s) && Entitled(s, t, o) && s.objs[o].kind != Port
    ensures Inv(Set(Free(s, o), t, s.threads[t].rest))
  {
    var stack := s.threads[t].rest;
    var s' := Set(Free(s, o), t, stack);
    assert Ledger(s, o);
    EntitledAlone(s, t, o);
    Described(s.objs);
    forall x: nat ensures Ledger(s', x) && Tally(s'.threads, Notifies(x)) == Tally(s.threads, Notifies(x))
      && Tally(s'.threads, Owe(x)) == Tally(s.threads, Owe(x))
    {
      assert Ledger(s, x);
      FreeLedger(s, s', t, o, x);
    }
    FreePlainFrames(s, o);
    assert StackOk(s.objs, s.threads[t], true);
    BelowTop(s.objs, stack);
    StackGrows(s.objs, s'.objs, stack, true);
    forall p | 0 <= p < |s.objs| ensures Calm(s, s', p) { QuietIsCalm(s, s', p); }
    Assemble(s, s', t, stack);
  }

  lemma DestroyPortLists(objs: seq<Object>, p: nat)
    requires Lists(objs) && PortAt(objs, p)
    ensures Lists(DestroyPort(objs, p))
    ensures forall o :: 0 <= o < |objs| && objs[o].reg.port != Some(p) && o != p ==> DestroyPort(objs, p)[o] == objs[o]
  {
    var objs' := DestroyPort(objs, p);
    assert ListAt(objs, p) && MemberAt(objs, p);
    forall o | 0 <= o < |objs| ensures MemberAt(objs', o) {
      assert MemberAt(objs, o);
      if objs[o].reg.port.Some? && objs[o].reg.port.value != p {
        assert o !in objs[p].self.registered;
        assert MemberAt(objs, objs[o].reg.port.value);
      }
    }
    forall q | 0 <= q < |objs| ensures ListAt(objs', q) {
      assert ListAt(objs, q) && MemberAt(objs, q);
    }
  }

  lemma DestroyChannels(s: State, p: nat)
    requires Channels(s) && Lists(s.objs) && PortAt(s.objs, p)
    ensures Channels(Free(s, p))
  {
    var s' := Free(s, p);
    assert forall q :: 0 <= q < |s.objs| && q != p ==> s'.objs[q].self == s.objs[q].self;
    assert s'.objs[p].self.channel == None;
    forall d | d in s'.channels ensures exists q :: 0 <= q < |s'.objs| && s'.objs[q].self.channel == Some(d) {
      var q :| 0 <= q < |s.objs| && s.objs[q].self.channel == Some(d);
      assert s'.objs[q].self.channel == Some(d);
    }
  }

  lemma FreePortCalm(s: State, s': State, t: nat, o: nat, p: nat)
    requires Lists(s.objs) && Entitled(s, t, o) && s.objs[o].kind == Port && p < |s.objs| && p != o
    requires s' == Set(Free(s, o), t, s.threads[t].rest)
    ensures |s'.objs| == |s.objs| && Calm(s, s', p)
  {
    DestroyPortLists(s.objs, o);
    FreedAt(s, o, p);
    FreeTallies(s, t, o, p);
    forall x | 0 <= x < |s.objs| && s.objs[x].reg.port == Some(p)
      ensures s'.objs[x] == s.objs[x] && Tally(s'.threads, Notifies(x)) == Tally(s.threads, Notifies(x))
    {
      assert MemberAt(s.objs, x);
      FreeTallies(s, t, o, x);
    }
    CalmUntouched(s, s', p);
  }

  lemma FreePortBounded(objs: seq<Object>, o: nat)
    requires Bounded(objs) && o < |objs|
    ensures Bounded(DestroyPort(objs, o)) && Grows(objs, DestroyPort(objs, o))
  {
  }

  lemma FreePortStep(s: State, t: nat, o: nat)
    requires Inv(s) && Entitled(s, t, o) && s.objs[o].kind == Port
    ensures Inv(Set(Free(s, o), t, s.threads[t].rest))
  {
    var stack := s.threads[t].rest;
    var s' := Set(Free(s, o), t, stack);
    assert Ledger(s, o);
    EntitledAlone(s, t, o);
    forall x: nat ensures Ledger(s', x) {
      assert Ledger(s, x);
      FreeLedger(s, s', t, o, x);
    }
    DestroyPortLists(s.objs, o);
    FreePortBounded(s.objs, o);
    DestroyChannels(s, o);
    assert Channels(s');
    assert StackOk(s.objs, s.threads[t], true);
    BelowTop(s.objs, stack);
    StackGrows(s.objs, s'.objs, stack, true);
    forall p | 0 <= p < |s.objs| ensures Calm(s, s', p) || Tally(s.threads, Waits(p)) == 0 {
      if p != o { FreePortCalm(s, s', t, o, p); }
    }
    Assemble(s, s', t, stack);
  }
}
