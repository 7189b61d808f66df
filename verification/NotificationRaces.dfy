/**
 The callers' discipline for notifications is exact: a permitted call leaves the mask in agreement
 whatever happens next, and any other call can end in disagreement.
 */
module NotificationRaces {
  import opened Words
  import opened Notifications

  /** The steps can be taken one after the other, whatever the callers owe. */
  ghost predicate CanRun(s: State, steps: seq<Step>)
    decreases |steps|
  {
    steps == [] || (Possible(s, steps[0]) && CanRun(Apply(s, steps[0]), steps[1..]))
  }

  ghost function Run(s: State, steps: seq<Step>): State
    requires CanRun(s, steps)
    decreases |steps|
  {
    if steps == [] then s else Run(Apply(s, steps[0]), steps[1..])
  }

  /** Nobody begins another call. */
  predicate NoCalls(steps: seq<Step>) { forall i :: 0 <= i < |steps| ==> !steps[i].Call? }

  lemma {:induction false} RunAppend(s: State, a: seq<Step>, b: seq<Step>)
    requires CanRun(s, a) && CanRun(Run(s, a), b)
    ensures CanRun(s, a + b) && Run(s, a + b) == Run(Run(s, a), b)
    decreases |a|
  {
    if a == [] {
      assert a + b == b;
    } else {
      RunAppend(Apply(s, a[0]), a[1..], b);
      assert (a + b)[1..] == a[1..] + b;
    }
  }

  lemma RunOne(s: State, step: Step)
    requires Possible(s, step)
    ensures CanRun(s, [step]) && Run(s, [step]) == Apply(s, step)
  {
    assert [step][1..] == [];
    assert Run(Apply(s, step), []) == Apply(s, step);
  }

  /** `next` is reached from `s` without another call. */
  ghost predicate Leads(s: State, steps: seq<Step>, next: State) {
    CanRun(s, steps) && Run(s, steps) == next && NoCalls(steps) && |next.threads| == |s.threads|
  }

  lemma LeadsOn(s: State, a: seq<Step>, mid: State, b: seq<Step>, next: State)
    requires Leads(s, a, mid) && Leads(mid, b, next)
    ensures Leads(s, a + b, next)
  {
    RunAppend(s, a, b);
  }

  lemma LeadsOne(s: State, step: Step)
    requires Possible(s, step) && !step.Call?
    ensures Leads(s, [step], Apply(s, step))
  {
    RunOne(s, step);
  }

  /** A call can always go on until it returns, and disturbs no other thread. */
  lemma Finish(s: State, u: nat) returns (steps: seq<Step>, next: State)
    requires u < |s.threads|
    ensures Leads(s, steps, next) && next.threads == s.threads[u := next.threads[u]]
    ensures var p := next.threads[u]; p == s.threads[u] || p == Idle
    ensures var p := next.threads[u]; !p.Entering? && !p.Asking? && !p.Undoing?
  {
    steps, next := [], s;
    if next.threads[u].Entering? {
      steps, next := Extend(s, steps, next, Enter(u));
    }
    if next.threads[u].Asking? {
      steps, next := Extend(s, steps, next, Answer(u, true));
    } else if next.threads[u].Undoing? {
      steps, next := Extend(s, steps, next, Undo(u));
    }
  }

  /** One more step. */
  lemma Extend(s: State, steps: seq<Step>, mid: State, step: Step) returns (more: seq<Step>, next: State)
    requires Leads(s, steps, mid) && Possible(mid, step) && !step.Call?
    ensures more == steps + [step] && next == Apply(mid, step) && Leads(s, more, next)
  {
    LeadsOne(mid, step);
    more, next := steps + [step], Apply(mid, step);
    LeadsOn(s, steps, mid, [step], next);
  }

  /** All calls on the kind but those of two threads can return first, and leave these two where they are. */
  lemma {:induction false} Drain(s: State, kind: nat, a: nat, b: nat, n: nat) returns (steps: seq<Step>, next: State)
    requires a < |s.threads| && b < |s.threads| && n <= |s.threads|
    ensures Leads(s, steps, next) && next.threads[a] == s.threads[a] && next.threads[b] == s.threads[b]
    ensures forall u :: 0 <= u < n && u != a && u != b ==> !Busy(next.threads[u], kind)
    decreases n
  {
    steps, next := [], s;
    if n > 0 {
      steps, next := Drain(s, kind, a, b, n - 1);
      var u := n - 1;
      if u != a && u != b && Busy(next.threads[u], kind) {
        var more, last := Finish(next, u);
        LeadsOn(s, steps, next, more, last);
        steps, next := steps + more, last;
      }
    }
  }

  // A call that is not permitted

  /** Both calls have returned, no other is under way, and the mask does not say what callers were told. */
  ghost predicate Disagrees(s: State, kind: nat) { Free(s, kind) && !Agree(s, kind) }

  lemma Alone(s: State, kind: nat, a: nat, b: nat)
    requires a < |s.threads| && b < |s.threads| && s.threads[a] == Idle && s.threads[b] == Idle
    requires forall u :: 0 <= u < |s.threads| && u != a && u != b ==> !Busy(s.threads[u], kind)
    ensures Free(s, kind)
  {
  }

  /** An enable beside a disable: whoever sets the bit is told last that it is clear, or the other way round. */
  lemma EnableDuringDisable(s: State, kind: nat, e: nat, d: nat) returns (steps: seq<Step>, next: State)
    requires Valid(kind) && e < |s.threads| && d < |s.threads| && s.threads[e] == Entering(kind, true)
    requires Busy(s.threads[d], kind) && !s.threads[d].Undoing? && !s.threads[d].enable
    requires forall u :: 0 <= u < |s.threads| && u != e && u != d ==> !Busy(s.threads[u], kind)
    ensures Leads(s, steps, next) && Disagrees(next, kind)
  {
    steps, next := [], s;
    if s.threads[d].Entering? { steps, next := Extend(s, steps, next, Enter(d)); }
    OrSets(next.mask, kind, kind);
    steps, next := Extend(s, steps, next, Enter(e));
    steps, next := Extend(s, steps, next, Answer(e, true));
    steps, next := Extend(s, steps, next, Answer(d, true));
    Alone(next, kind, e, d);
  }

  lemma DisableDuringEnable(s: State, kind: nat, d: nat, e: nat) returns (steps: seq<Step>, next: State)
    requires Valid(kind) && e < |s.threads| && d < |s.threads| && s.threads[d] == Entering(kind, false)
    requires Busy(s.threads[e], kind) && !s.threads[e].Undoing? && s.threads[e].enable
    requires forall u :: 0 <= u < |s.threads| && u != e && u != d ==> !Busy(s.threads[u], kind)
    ensures Leads(s, steps, next) && Disagrees(next, kind)
  {
    steps, next := [], s;
    if s.threads[e].Entering? { steps, next := Extend(s, steps, next, Enter(e)); }
    AndClears(next.mask, kind, kind);
    steps, next := Extend(s, steps, next, Enter(d));
    steps, next := Extend(s, steps, next, Answer(d, true));
    steps, next := Extend(s, steps, next, Answer(e, true));
    Alone(next, kind, e, d);
  }

  /** An enable beside one that is taking its refusal back. */
  lemma EnableDuringUndo(s: State, kind: nat, e: nat, o: nat) returns (steps: seq<Step>, next: State)
    requires Valid(kind) && e < |s.threads| && o < |s.threads| && s.threads[e] == Entering(kind, true)
    requires s.threads[o] == Undoing(kind)
    requires forall u :: 0 <= u < |s.threads| && u != e && u != o ==> !Busy(s.threads[u], kind)
    ensures Leads(s, steps, next) && Disagrees(next, kind)
  {
    steps, next := [], s;
    steps, next := Extend(s, steps, next, Enter(e));
    steps, next := Extend(s, steps, next, Answer(e, true));
    AndClears(next.mask, kind, kind);
    steps, next := Extend(s, steps, next, Undo(o));
    Alone(next, kind, e, o);
  }

  /** An enable beside the one that found the kind not wanted, which is then refused. */
  lemma EnableDuringFirst(s: State, kind: nat, e: nat, o: nat) returns (steps: seq<Step>, next: State)
    requires Valid(kind) && e < |s.threads| && o < |s.threads| && s.threads[e] == Entering(kind, true)
    requires s.threads[o].Asking? && s.threads[o].kind == kind && s.threads[o].enable && !Bit(s.threads[o].before, kind)
    requires forall u :: 0 <= u < |s.threads| && u != e && u != o ==> !Busy(s.threads[u], kind)
    ensures Leads(s, steps, next) && Disagrees(next, kind)
  {
    steps, next := [], s;
    steps, next := Extend(s, steps, next, Enter(e));
    steps, next := Extend(s, steps, next, Answer(e, true));
    AndTestsBit(s.threads[o].before, kind);
    steps, next := Extend(s, steps, next, Answer(o, false));
    AndClears(next.mask, kind, kind);
    steps, next := Extend(s, steps, next, Undo(o));
    Alone(next, kind, e, o);
  }

  /** The two calls, with everybody else on the kind out of the way. */
  lemma Collide(s: State, kind: nat, t: nat, o: nat) returns (steps: seq<Step>, next: State)
    requires Valid(kind) && t < |s.threads| && o < |s.threads| && s.threads[t].Entering? && s.threads[t].kind == kind
    requires Busy(s.threads[o], kind) && !Joins(s, s.threads[o], s.threads[t].enable)
    requires s.threads[o] != Entering(kind, true) || !s.threads[t].enable
    requires forall u :: 0 <= u < |s.threads| && u != t && u != o ==> !Busy(s.threads[u], kind)
    ensures Leads(s, steps, next) && Disagrees(next, kind)
  {
    var p := s.threads[o];
    if !s.threads[t].enable {
      steps, next := DisableDuringEnable(s, kind, t, o);
    } else if p.Undoing? {
      steps, next := EnableDuringUndo(s, kind, t, o);
    } else if !p.enable {
      steps, next := EnableDuringDisable(s, kind, t, o);
    } else {
      steps, next := EnableDuringFirst(s, kind, t, o);
    }
  }

  /** Where the offended call is once it cannot profit from a later bit any more. */
  lemma Commit(s: State, kind: nat, t: nat, o: nat) returns (steps: seq<Step>, next: State)
    requires Valid(kind) && t < |s.threads| && o < |s.threads| && t != o
    requires s.threads[t].Entering? && s.threads[t].kind == kind
    requires Busy(s.threads[o], kind) && !Joins(s, s.threads[o], s.threads[t].enable)
    ensures Leads(s, steps, next) && next.threads[t] == s.threads[t] && Busy(next.threads[o], kind)
    ensures next.threads[o] != Entering(kind, true) || !s.threads[t].enable
    ensures forall any: State :: !Joins(any, next.threads[o], s.threads[t].enable) || next.threads[o].Entering?
    ensures next.threads[o].Entering? ==> next.threads[o].enable != s.threads[t].enable
  {
    steps, next := [], s;
    if s.threads[o] == Entering(kind, true) && s.threads[t].enable {
      steps, next := Extend(s, steps, next, Enter(o));
    }
  }

  /** A call that the discipline does not permit can end in disagreement: there is a way for everybody on the kind to
      return, without another call, after which the mask does not say what they were told. */
  lemma ForbiddenCallBreaks(s: State, t: nat, kind: nat, enable: bool) returns (steps: seq<Step>)
    requires Possible(s, Call(t, kind, enable)) && Valid(kind) && s.installed && !Permitted(s, kind, enable)
    ensures NoCalls(steps) && CanRun(s, [Call(t, kind, enable)] + steps)
    ensures Disagrees(Run(s, [Call(t, kind, enable)] + steps), kind)
  {
    var call := Call(t, kind, enable);
    var begun := Apply(s, call);
    var o :| 0 <= o < |s.threads| && Busy(s.threads[o], kind) && !Joins(s, s.threads[o], enable);
    var first, mid := Commit(begun, kind, t, o);
    var more, quiet := Drain(mid, kind, t, o, |mid.threads|);
    var last, next := Collide(quiet, kind, t, o);
    LeadsOn(mid, more, quiet, last, next);
    LeadsOn(begun, first, mid, more + last, next);
    steps := first + (more + last);
    RunOne(s, call);
    RunAppend(s, [call], steps);
  }

  // Both directions

  lemma {:induction false} NoCallsKeepInv(s: State, steps: seq<Step>)
    requires Inv(s) && CanRun(s, steps) && NoCalls(steps)
    ensures Inv(Run(s, steps))
    decreases |steps|
  {
    if steps != [] {
      StepKeepsInv(s, steps[0]);
      NoCallsKeepInv(Apply(s, steps[0]), steps[1..]);
    }
  }

  lemma PermittedCallAgrees(s: State, t: nat, kind: nat, enable: bool, steps: seq<Step>)
    requires Inv(s) && Valid(kind) && Permitted(s, kind, enable) && NoCalls(steps)
    requires CanRun(s, [Call(t, kind, enable)] + steps)
    ensures !Disagrees(Run(s, [Call(t, kind, enable)] + steps), kind)
  {
    var call := Call(t, kind, enable);
    assert ([call] + steps)[0] == call && ([call] + steps)[1..] == steps;
    StepKeepsInv(s, call);
    NoCallsKeepInv(Apply(s, call), steps);
    assert Inv(Run(Apply(s, call), steps));
  }

  /** The call and these steps after it end in disagreement. */
  ghost predicate Breaks(s: State, call: Step, steps: seq<Step>, kind: nat) {
    NoCalls(steps) && CanRun(s, [call] + steps) && Disagrees(Run(s, [call] + steps), kind)
  }

  /** In every state that the discipline allows, a call is permitted if and only if no way of going on, by the calls
      that are under way and this one, ends with the mask saying something else than their callers were told. */
  lemma DisciplineIsExact(s: State, t: nat, kind: nat, enable: bool)
    requires Inv(s) && Possible(s, Call(t, kind, enable)) && Valid(kind) && s.installed
    ensures Permitted(s, kind, enable) <==> !exists steps :: Breaks(s, Call(t, kind, enable), steps, kind)
  {
    if Permitted(s, kind, enable) {
      forall steps ensures !Breaks(s, Call(t, kind, enable), steps, kind) {
        if NoCalls(steps) && CanRun(s, [Call(t, kind, enable)] + steps) {
          PermittedCallAgrees(s, t, kind, enable, steps);
        }
      }
    } else {
      var steps := ForbiddenCallBreaks(s, t, kind, enable);
      assert Breaks(s, Call(t, kind, enable), steps, kind);
    }
  }

  /** From the start: two threads, a handler, an enable under way, and a second call of either sort reach
      disagreement. */
  lemma MaskCanDisagree(s: State, kind: nat, enable: bool) returns (steps: seq<Step>)
    requires Initial(s) && |s.threads| >= 2 && Valid(kind)
    ensures CanRun(s, [Store, Install(true), Call(0, kind, true), Call(1, kind, enable)] + steps) && NoCalls(steps)
    ensures Disagrees(Run(s, [Store, Install(true), Call(0, kind, true), Call(1, kind, enable)] + steps), kind)
  {
    var a := Apply(s, Store);
    var b := Apply(a, Install(true));
    var c := Apply(b, Call(0, kind, true));
    BitOfZero(kind);
    assert Busy(c.threads[0], kind) && !Joins(c, c.threads[0], enable);
    steps := ForbiddenCallBreaks(c, 1, kind, enable);
    RunOne(s, Store);
    RunOne(a, Install(true));
    RunOne(b, Call(0, kind, true));
    RunAppend(s, [Store], [Install(true)]);
    RunAppend(s, [Store] + [Install(true)], [Call(0, kind, true)]);
    RunAppend(s, [Store] + [Install(true)] + [Call(0, kind, true)], [Call(1, kind, enable)] + steps);
    assert [Store] + [Install(true)] + [Call(0, kind, true)] + ([Call(1, kind, enable)] + steps)
        == [Store, Install(true), Call(0, kind, true), Call(1, kind, enable)] + steps;
  }
}
