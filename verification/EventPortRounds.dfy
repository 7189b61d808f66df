/** A waiter's round gives back every pin it took. */
module EventPortRounds {
  import opened Basics
  import opened EventPortModel
  import opened EventPortInvariant
  import opened EventPortTheorems

  /** Nothing waits below a round, nor below the entrance to one. */
  predicate Flat(stack: Stack) {
    stack.Done? || ((InRound(stack.task) || stack.task.WaitEnter? ==> stack.rest.Done?) && Flat(stack.rest))
  }

  ghost predicate AllFlat(s: State) { forall t :: 0 <= t < |s.threads| ==> Flat(s.threads[t]) }

  /** All threads but `t` stay where they are. */
  ghost predicate Moves(s: State, s': State, t: nat) {
    && |s'.threads| == |s.threads|
    && forall u :: 0 <= u < |s.threads| && u != t ==> s'.threads[u] == s.threads[u]
  }

  lemma CloseFlat(c: Closed, rest: Stack)
    requires Flat(rest)
    ensures Flat(CloseTail(c, rest))
  {
  }

  lemma CallFlat(s: State, step: Step)
    requires Addressed(s) && Enabled(s, step) && !step.Go? && Flat(s.threads[step.t])
    ensures Moves(s, Apply(s, step), step.t) && Flat(Apply(s, step).threads[step.t])
  {
    if step.Close? && step.fd < MAX_FD { CloseFlat(CloseSlot(s, step.fd), Done); }
  }

  lemma SetFlat(s: State, s': State, t: nat, stack: Stack)
    requires t < |s.threads| && s'.threads == s.threads[t := stack] && Flat(stack)
    ensures Moves(s, s', t) && Flat(s'.threads[t])
  {
  }

  lemma RegisterPinFlat(s: State, t: nat, owner: nat, fd: nat, events: set<Condition>, data: nat, rest: Stack)
    requires Addressed(s) && t < |s.threads| && owner < |s.objs| && Flat(rest)
    ensures var s' := RegisterPinNow(s, t, owner, fd, events, data, rest); Moves(s, s', t) && Flat(s'.threads[t])
  {
    var s' := RegisterPinNow(s, t, owner, fd, events, data, rest);
    SetFlat(s, s', t, s'.threads[t]);
  }

  lemma RegisterFlat(s: State, t: nat, owner: nat, o: nat, events: set<Condition>, data: nat, rest: Stack)
    requires Addressed(s) && t < |s.threads| && owner < |s.objs| && o < |s.objs| && Flat(rest)
    ensures var s' := RegisterNow(s, t, owner, o, events, data, rest); Moves(s, s', t) && Flat(s'.threads[t])
  {
    var s' := RegisterNow(s, t, owner, o, events, data, rest);
    var tail := Do(Unpin(o), Do(Unpin(owner), rest));
    SetFlat(s, s', t, if Register(s, owner, o, events, data) == None then tail else Do(Wake(owner), tail));
  }

  /** A task that is not part of a round. */
  lemma GoPlainFlat(s: State, t: nat)
    requires Addressed(s) && At(s, t) && !s.threads[t].task.Poll? && !s.threads[t].task.Using? && Flat(s.threads[t])
    requires !InRound(s.threads[t].task)
    ensures Moves(s, Advance(s, t), t) && Flat(Advance(s, t).threads[t])
  {
    var rest := s.threads[t].rest;
    match s.threads[t].task
    case ClosePort(fd, o) => CloseFlat(CloseSlot(s, fd), Do(Wake(o), Do(Unpin(o), rest)));
    case RegisterPin(owner, fd, events, data) => RegisterPinFlat(s, t, owner, fd, events, data, rest);
    case RegisterLock(owner, o, events, data) => RegisterFlat(s, t, owner, o, events, data, rest);
    case _ =>
  }

  lemma GoRoundFlat(s: State, t: nat)
    requires Addressed(s) && At(s, t) && !s.threads[t].task.Poll? && !s.threads[t].task.Using? && Flat(s.threads[t])
    requires InRound(s.threads[t].task)
    ensures Moves(s, Advance(s, t), t) && Flat(Advance(s, t).threads[t])
  {
  }

  lemma GoFlat(s: State, t: nat)
    requires Addressed(s) && Enabled(s, Go(t)) && Flat(s.threads[t])
    ensures Moves(s, Apply(s, Go(t)), t) && Flat(Apply(s, Go(t)).threads[t])
  {
    if InRound(s.threads[t].task) { GoRoundFlat(s, t); } else { GoPlainFlat(s, t); }
  }

  lemma StepFlat(s: State, step: Step)
    requires Addressed(s) && Enabled(s, step) && AllFlat(s)
    ensures AllFlat(Apply(s, step))
  {
    if step.Go? { GoFlat(s, step.t); } else { CallFlat(s, step); }
    forall u | 0 <= u < |Apply(s, step).threads| ensures Flat(Apply(s, step).threads[u]) {
      if u != step.t { assert Flat(s.threads[u]); }
    }
  }

  lemma NextFlat(s: State, s': State)
    requires Next(s, s') && AllFlat(s)
    ensures AllFlat(s')
  {
    var step :| Enabled(s, step) && KeepsOpen(s, step) && OutlivesWakes(s, step) && s' == Apply(s, step);
    StepFlat(s, step);
  }

  lemma RunStepFlat(run: seq<State>, i: nat)
    requires IsRun(run) && 0 < i < |run| && AllFlat(run[i - 1])
    ensures AllFlat(run[i])
  {
    assert Linked(run, i - 1);
    NextFlat(run[i - 1], run[i]);
  }

  lemma {:induction false} RunFlat(run: seq<State>, i: nat)
    requires IsRun(run) && i < |run|
    ensures AllFlat(run[i])
    decreases i
  {
    if i > 0 {
      RunFlat(run, i - 1);
      RunStepFlat(run, i);
    }
  }

  /** The pins a waiter holds by its place in the round: the port's, and one for every socket it polls and has not
      converted yet. */
  function RoundPins(task: Task): multiset<nat>
    requires InRound(task)
  {
    multiset{task.owner} + (if task.Poll? || task.Convert? then multiset(task.objects) else multiset{})
  }

  /** In every reachable state a waiter in its round holds exactly these pins; so when it begins the next round, or
      leaves, it holds the port's and has given back every other. */
  lemma RoundsGiveBackPins(run: seq<State>, i: nat, t: nat, x: nat)
    requires IsRun(run) && i < |run| && t < |run[i].threads| && run[i].threads[t].Do? && InRound(run[i].threads[t].task)
    ensures StackTally(run[i].threads[t], Pin(x)) == RoundPins(run[i].threads[t].task)[x]
    ensures var task := run[i].threads[t].task;
      task.Count? || task.Leave? ==> StackTally(run[i].threads[t], Pin(x)) == One(x == task.owner)
  {
    RunFlat(run, i);
    assert Flat(run[i].threads[t]);
  }
}
