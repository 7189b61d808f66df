/**
 Publication of the fault handler: racing and failing installs over a state word, a handler word
 and a data word, and faults that arrive at any moment once the port is armed.
 */
module Faults {
  import opened Basics

  /** A handler is its address, 0 for none; `data` is what its install gave along. */
  datatype Target = Target(handler: nat, data: nat)

  datatype Status = Ok | Busy | InvalidArgument | Refused

  /** What a thread is about to do. */
  datatype Place =
    | Idle
    | Exchanging(want: Target)
    | StoringData(want: Target)
    | StoringHandler(want: Target)
    | Enabling(want: Target)
    | Clearing(want: Target)
    | Resetting(want: Target)
    | Finishing(want: Target)
    | Loading(kind: nat)
    | Calling(kind: nat, handler: nat)

  datatype Event =
    | Installed(status: Status, want: Target)
    | Called(kind: nat, target: Target)
    | Unclaimed(kind: nat)

  datatype Slot = Empty | Installing | Full

  /** `armed` is the target whose `enable` has succeeded; `log` is what came out so far. */
  datatype State = State(
    slot: Slot, handler: nat, data: nat, armed: Option<Target>, threads: seq<Place>, log: seq<Event>)

  datatype Step =
    | Install(t: nat, want: Target)
    | Deliver(t: nat, kind: nat)
    | Go(t: nat)
    | Enable(t: nat, granted: bool)

  predicate Initial(s: State) {
    && s.slot == Empty && s.handler == 0 && s.armed == None && s.log == []
    && forall t :: 0 <= t < |s.threads| ==> s.threads[t] == Idle
  }

  /** The kinds a fault can have: access to stack overflow. */
  predicate Kind(kind: nat) { 1 <= kind <= 8 }

  /** A port delivers faults for an `enable` that has succeeded, and for no other. */
  predicate Enabled(s: State, step: Step) {
    && step.t < |s.threads|
    && match step
       case Install(t, _) => s.threads[t] == Idle
       case Deliver(t, _) => s.threads[t] == Idle && s.armed.Some?
       case Go(t) => s.threads[t] != Idle && !s.threads[t].Enabling?
       case Enable(t, _) => s.threads[t].Enabling?
  }

  function At(s: State, t: nat, place: Place): State
    requires t < |s.threads|
  {
    s.(threads := s.threads[t := place])
  }

  function Logged(s: State, t: nat, e: Event): State
    requires t < |s.threads|
  {
    At(s, t, Idle).(log := s.log + [e])
  }

  function Advance(s: State, t: nat): State
    requires t < |s.threads| && s.threads[t] != Idle && !s.threads[t].Enabling?
  {
    match s.threads[t]
    case Exchanging(want) =>
      if s.slot == Empty then At(s, t, StoringData(want)).(slot := Installing) else Logged(s, t, Installed(Busy, want))
    case StoringData(want) => At(s, t, StoringHandler(want)).(data := want.data)
    case StoringHandler(want) => At(s, t, Enabling(want)).(handler := want.handler)
    case Clearing(want) => At(s, t, Resetting(want)).(handler := 0)
    case Resetting(want) => Logged(s, t, Installed(Refused, want)).(slot := Empty)
    case Finishing(want) => Logged(s, t, Installed(Ok, want)).(slot := Full)
    case Loading(kind) =>
      if s.handler == 0 || !Kind(kind) then Logged(s, t, Unclaimed(kind)) else At(s, t, Calling(kind, s.handler))
    case Calling(kind, handler) => Logged(s, t, Called(kind, Target(handler, s.data)))
  }

  function Apply(s: State, step: Step): State
    requires Enabled(s, step)
  {
    match step
    case Install(t, want) =>
      if want.handler == 0 then Logged(s, t, Installed(InvalidArgument, want)) else At(s, t, Exchanging(want))
    case Deliver(t, kind) => At(s, t, Loading(kind))
    case Go(t) => Advance(s, t)
    case Enable(t, granted) =>
      var want := s.threads[t].want;
      if granted then At(s, t, Finishing(want)).(armed := Some(want)) else At(s, t, Clearing(want))
  }

  // Invariant

  /** The thread has taken the slot and not given it up. */
  predicate Owner(p: Place) {
    p.StoringData? || p.StoringHandler? || p.Enabling? || p.Clearing? || p.Resetting? || p.Finishing?
  }

  /** What the words hold while a thread is at `p`. */
  ghost predicate PlaceOk(s: State, p: Place) {
    match p
    case Idle => true
    case Exchanging(want) => want.handler != 0
    case StoringData(want) => want.handler != 0 && s.armed == None && s.handler == 0
    case StoringHandler(want) => want.handler != 0 && s.armed == None && s.handler == 0 && s.data == want.data
    case Enabling(want) => want.handler != 0 && s.armed == None && s.handler == want.handler && s.data == want.data
    case Clearing(want) => s.armed == None
    case Resetting(want) => s.armed == None && s.handler == 0
    case Finishing(want) => s.armed == Some(want)
    case Loading(kind) => s.armed.Some?
    case Calling(kind, handler) => s.armed.Some? && handler == s.armed.value.handler && Kind(kind)
  }

  ghost predicate EventOk(s: State, e: Event) {
    match e
    case Installed(Ok, want) => s.slot == Full && s.armed == Some(want)
    case Installed(_, _) => true
    case Called(kind, target) => s.armed == Some(target) && Kind(kind)
    case Unclaimed(kind) => !Kind(kind)
  }

  ghost predicate Inv(s: State) {
    && (forall t :: 0 <= t < |s.threads| ==> PlaceOk(s, s.threads[t]))
    && (forall t :: 0 <= t < |s.threads| && Owner(s.threads[t]) ==> s.slot == Installing)
    && (forall t, u :: 0 <= t < u < |s.threads| ==> !(Owner(s.threads[t]) && Owner(s.threads[u])))
    && (s.slot == Installing ==> exists t :: 0 <= t < |s.threads| && Owner(s.threads[t]))
    && (s.slot == Empty ==> s.armed == None && s.handler == 0)
    && (s.slot == Full ==> s.armed.Some?)
    && (s.armed.Some? ==> s.handler != 0 && Target(s.handler, s.data) == s.armed.value)
    && (forall i :: 0 <= i < |s.log| ==> EventOk(s, s.log[i]))
    && (forall i, j :: 0 <= i < j < |s.log| ==> !(Succeeded(s.log[i]) && Succeeded(s.log[j])))
  }

  predicate Succeeded(e: Event) { e.Installed? && e.status == Ok }

  /** The words other threads rely on stay while they rely on them. */
  ghost predicate Calm(s: State, next: State) {
    && (s.armed.Some? ==> next.armed == s.armed && next.handler == s.handler && next.data == s.data)
    && (s.slot == Full ==> next.slot == Full)
  }

  lemma StepIsCalm(s: State, step: Step)
    requires Inv(s) && Enabled(s, step)
    ensures Calm(s, Apply(s, step))
  {
    assert PlaceOk(s, s.threads[step.t]);
  }

  lemma OthersKeep(s: State, step: Step, u: nat)
    requires Inv(s) && Enabled(s, step) && u < |s.threads| && u != step.t
    ensures PlaceOk(Apply(s, step), s.threads[u])
    ensures Owner(s.threads[u]) ==> Apply(s, step).slot == s.slot
  {
    var t := step.t;
    assert PlaceOk(s, s.threads[t]) && PlaceOk(s, s.threads[u]);
    assert !(Owner(s.threads[if t < u then t else u]) && Owner(s.threads[if t < u then u else t]));
  }

  lemma SelfKeeps(s: State, step: Step)
    requires Inv(s) && Enabled(s, step)
    ensures var next := Apply(s, step);
            && PlaceOk(next, next.threads[step.t]) && (Owner(next.threads[step.t]) ==> next.slot == Installing)
  {
    assert PlaceOk(s, s.threads[step.t]);
  }

  lemma OwnersKeep(s: State, step: Step)
    requires Inv(s) && Enabled(s, step)
    ensures var next := Apply(s, step);
            && (forall t, u :: 0 <= t < u < |next.threads| ==> !(Owner(next.threads[t]) && Owner(next.threads[u])))
            && (next.slot == Installing ==> exists t :: 0 <= t < |next.threads| && Owner(next.threads[t]))
  {
    var next := Apply(s, step);
    var t := step.t;
    assert forall u :: 0 <= u < |s.threads| && u != t ==> next.threads[u] == s.threads[u];
    if next.slot == Installing && !Owner(next.threads[t]) {
      var w :| 0 <= w < |s.threads| && Owner(s.threads[w]);
      assert Owner(next.threads[w]);
    }
  }

  lemma LogKeeps(s: State, step: Step)
    requires Inv(s) && Enabled(s, step)
    ensures var next := Apply(s, step);
            && s.log <= next.log
            && (forall i :: 0 <= i < |next.log| ==> EventOk(next, next.log[i]))
            && (forall i, j :: 0 <= i < j < |next.log| ==> !(Succeeded(next.log[i]) && Succeeded(next.log[j])))
  {
    var next := Apply(s, step);
    StepIsCalm(s, step);
    assert PlaceOk(s, s.threads[step.t]);
    forall i | 0 <= i < |s.log| ensures EventOk(next, s.log[i]) { assert EventOk(s, s.log[i]); }
    assert Owner(s.threads[step.t]) ==> forall i :: 0 <= i < |s.log| && Succeeded(s.log[i]) ==> !EventOk(s, s.log[i]);
  }

  lemma StepKeepsInv(s: State, step: Step)
    requires Inv(s) && Enabled(s, step)
    ensures Inv(Apply(s, step))
  {
    var next := Apply(s, step);
    forall u | 0 <= u < |next.threads|
      ensures PlaceOk(next, next.threads[u]) && (Owner(next.threads[u]) ==> next.slot == Installing)
    {
      if u == step.t { SelfKeeps(s, step); } else { OthersKeep(s, step, u); }
    }
    OwnersKeep(s, step);
    LogKeeps(s, step);
    WordsKeep(s, step);
  }

  lemma WordsKeep(s: State, step: Step)
    requires Inv(s) && Enabled(s, step)
    ensures var next := Apply(s, step);
            && (next.slot == Empty ==> next.armed == None && next.handler == 0)
            && (next.slot == Full ==> next.armed.Some?)
            && (next.armed.Some? ==> next.handler != 0 && Target(next.handler, next.data) == next.armed.value)
  {
    assert PlaceOk(s, s.threads[step.t]);
  }

  // Runs

  ghost predicate Linked(run: seq<State>, i: nat)
    requires i + 1 < |run|
  {
    exists step :: Enabled(run[i], step) && run[i + 1] == Apply(run[i], step)
  }

  ghost predicate IsRun(run: seq<State>) {
    run != [] && Initial(run[0]) && forall i: nat :: i + 1 < |run| ==> Linked(run, i)
  }

  lemma {:induction false} RunInv(run: seq<State>, i: nat)
    requires IsRun(run) && i < |run|
    ensures Inv(run[i])
  {
    if i > 0 {
      RunInv(run, i - 1);
      assert Linked(run, i - 1);
      var step :| Enabled(run[i - 1], step) && run[i] == Apply(run[i - 1], step);
      StepKeepsInv(run[i - 1], step);
    }
  }

  /** At most one install succeeds. */
  lemma OneInstallSucceeds(run: seq<State>, n: nat, i: nat, j: nat)
    requires IsRun(run) && n < |run| && i < |run[n].log| && j < |run[n].log|
    requires Succeeded(run[n].log[i]) && Succeeded(run[n].log[j])
    ensures i == j
  {
    RunInv(run, n);
  }

  /** A fault with a known kind always finds the one handler that was armed, together with the data of the same
      install. */
  lemma FaultsReachTheInstalled(run: seq<State>, n: nat, i: nat)
    requires IsRun(run) && n < |run| && i < |run[n].log|
    ensures run[n].log[i].Unclaimed? ==> !Kind(run[n].log[i].kind)
    ensures run[n].log[i].Called? ==> run[n].armed == Some(run[n].log[i].target) && Kind(run[n].log[i].kind)
    ensures forall j :: 0 <= j < |run[n].log| && run[n].log[i].Called? && Succeeded(run[n].log[j]) ==>
              run[n].log[j].want == run[n].log[i].target
  {
    RunInv(run, n);
    assert forall j :: 0 <= j < |run[n].log| ==> EventOk(run[n], run[n].log[j]);
  }

  /** A slot that is free is as good as new, whatever failed before: no handler, nothing armed, nobody in it. */
  lemma FreeSlotIsClean(run: seq<State>, n: nat)
    requires IsRun(run) && n < |run| && run[n].slot == Empty
    ensures run[n].handler == 0 && run[n].armed == None
    ensures forall t :: 0 <= t < |run[n].threads| ==> !Owner(run[n].threads[t]) && !run[n].threads[t].Calling?
    ensures forall i :: 0 <= i < |run[n].log| ==> !run[n].log[i].Called? && !Succeeded(run[n].log[i])
  {
    RunInv(run, n);
    var s := run[n];
    assert forall t :: 0 <= t < |s.threads| ==> PlaceOk(s, s.threads[t]);
    assert forall i :: 0 <= i < |s.log| ==> EventOk(s, s.log[i]);
  }

  /** What the log gains after a success: faults, and installs turned away. */
  ghost predicate TurnedAway(e: Event) { e.Installed? ==> e.status == Busy || e.status == InvalidArgument }

  lemma {:induction false} LaterInstallsAreBusy(run: seq<State>, n: nat, k: nat)
    requires IsRun(run) && n <= k < |run| && run[n].slot == Full
    ensures run[k].slot == Full && run[k].armed == run[n].armed && run[n].log <= run[k].log
    ensures forall i :: |run[n].log| <= i < |run[k].log| ==> TurnedAway(run[k].log[i])
    decreases k
  {
    if n < k {
      LaterInstallsAreBusy(run, n, k - 1);
      RunInv(run, k - 1);
      assert Linked(run, k - 1);
      var step :| Enabled(run[k - 1], step) && run[k] == Apply(run[k - 1], step);
      StepIsCalm(run[k - 1], step);
      FullTurnsAway(run[k - 1], step);
    }
  }

  lemma FullTurnsAway(s: State, step: Step)
    requires Inv(s) && Enabled(s, step) && s.slot == Full
    ensures s.log <= Apply(s, step).log
    ensures forall i :: |s.log| <= i < |Apply(s, step).log| ==> TurnedAway(Apply(s, step).log[i])
  {
    assert !Owner(s.threads[step.t]);
  }

  /** Whatever failed before, a free slot takes the next install: left alone and granted, it succeeds. */
  lemma FreeSlotInstalls(s: State, t: nat, want: Target)
    requires t < |s.threads| && s.slot == Empty && s.threads[t] == Exchanging(want)
    ensures var a := Apply(s, Go(t));
            && Enabled(a, Go(t)) && var b := Apply(a, Go(t));
            && Enabled(b, Go(t)) && var c := Apply(b, Go(t));
            && Enabled(c, Enable(t, true)) && var d := Apply(c, Enable(t, true));
            && Enabled(d, Go(t)) && var e := Apply(d, Go(t));
            && e.slot == Full && e.armed == Some(want) && Target(e.handler, e.data) == want
            && e.log == s.log + [Installed(Ok, want)] && e.threads == s.threads[t := Idle]
  {
    var a := Apply(s, Go(t));
    var b := Apply(a, Go(t));
    var c := Apply(b, Go(t));
    var d := Apply(c, Enable(t, true));
    assert Apply(d, Go(t)).threads == s.threads[t := Idle];
  }
}
