/**
 The mask of wanted notification kinds: concurrent enable and disable calls change one atomic
 word, and what it says is what the callers were told.
 */
module Notifications {
  import opened Words

  /** Interrupt to stop. */
  predicate Valid(kind: nat) { 1 <= kind <= 9 }

  /** Where a call on `kind` is: before the mask is touched, waiting for the provider, or undoing a refused enable.
      Delivering has found a handler and not yet asked the mask. */
  datatype Place =
    | Idle
    | Entering(kind: nat, enable: bool)
    | Asking(kind: nat, enable: bool, before: nat)
    | Undoing(kind: nat)
    | Delivering(kind: nat)

  datatype Event =
    | Returned(kind: nat, enable: bool, ok: bool)
    | Rejected(kind: nat)
    | Handled(kind: nat)
    | Dropped(kind: nat)

  /** `installed` is STATE == 2, `handler` that a handler is stored. `wanted` is what the returned calls add up to. */
  datatype State = State(
    installed: bool, handler: bool, mask: nat, threads: seq<Place>, wanted: set<nat>, log: seq<Event>)

  datatype Step =
    | Store
    | Install(succeeds: bool)
    | Call(t: nat, kind: nat, enable: bool)
    | Enter(t: nat)
    | Answer(t: nat, accepted: bool)
    | Undo(t: nat)
    | Deliver(t: nat, kind: nat)
    | Ask(t: nat)

  predicate Initial(s: State) {
    && !s.installed && !s.handler && s.mask == 0 && s.wanted == {} && s.log == []
    && forall t :: 0 <= t < |s.threads| ==> s.threads[t] == Idle
  }

  /** `1 << kind` */
  function Flag(kind: nat): nat { Pow2(kind) }

  /** `mask & !(1 << kind)` */
  function Cleared(mask: nat, kind: nat): nat { And(mask, Not(Flag(kind), 32)) }

  predicate Busy(p: Place, kind: nat) { (p.Entering? || p.Asking? || p.Undoing?) && p.kind == kind }

  /** No call on the kind is under way. */
  predicate Free(s: State, kind: nat) { forall t :: 0 <= t < |s.threads| ==> !Busy(s.threads[t], kind) }

  /** A call that is under way at `p` may be joined: an enable by another enable if it found the kind wanted, or will; a
      disable, or an enable that is already taking its refusal back, by a disable. */
  predicate Joins(s: State, p: Place, enable: bool)
    requires p.Entering? || p.Asking? || p.Undoing?
  {
    match p
    case Entering(kind, starts) => starts == enable && (enable ==> Bit(s.mask, kind))
    case Asking(kind, starts, before) => starts == enable && (enable ==> Bit(before, kind))
    case Undoing(_) => !enable
  }

  /** The callers' discipline: a call on a kind overlaps only calls that it may join. */
  predicate Permitted(s: State, kind: nat, enable: bool) {
    forall t :: 0 <= t < |s.threads| && Busy(s.threads[t], kind) ==> Joins(s, s.threads[t], enable)
  }

  /** What can happen, whatever the callers do. */
  predicate Possible(s: State, step: Step) {
    match step
    case Store => !s.installed
    case Install(_) => !s.installed && s.handler
    case Call(t, _, _) => t < |s.threads| && s.threads[t] == Idle
    case Enter(t) => t < |s.threads| && s.threads[t].Entering?
    case Answer(t, _) => t < |s.threads| && s.threads[t].Asking?
    case Undo(t) => t < |s.threads| && s.threads[t].Undoing?
    case Deliver(t, _) => t < |s.threads| && s.threads[t] == Idle
    case Ask(t) => t < |s.threads| && s.threads[t].Delivering?
  }

  /** What happens when the callers keep the discipline. */
  predicate Enabled(s: State, step: Step) {
    Possible(s, step) && (step.Call? ==> Permitted(s, step.kind, step.enable))
  }

  function At(s: State, t: nat, place: Place): State
    requires t < |s.threads|
  {
    s.(threads := s.threads[t := place])
  }

  function Done(s: State, t: nat, e: Event): State
    requires t < |s.threads|
  {
    At(s, t, Idle).(log := s.log + [e])
  }

  /** The test of `valid` and STATE has passed: the mask changes first. */
  function Entered(s: State, t: nat, kind: nat, enable: bool): State
    requires t < |s.threads|
  {
    At(s, t, Asking(kind, enable, s.mask)).(mask := if enable then Or(s.mask, Flag(kind)) else Cleared(s.mask, kind))
  }

  /** The provider has answered. */
  function Answered(s: State, t: nat, kind: nat, enable: bool, before: nat, accepted: bool): State
    requires t < |s.threads|
  {
    if !enable then Done(s, t, Returned(kind, false, accepted)).(wanted := s.wanted - {kind})
    else if accepted then Done(s, t, Returned(kind, true, true)).(wanted := s.wanted + {kind})
    else if And(before, Flag(kind)) == 0 then At(s, t, Undoing(kind))
    else Done(s, t, Returned(kind, true, false))
  }

  function Apply(s: State, step: Step): State
    requires Possible(s, step)
  {
    match step
    case Store => s.(handler := true)
    case Install(succeeds) => s.(handler := succeeds, installed := succeeds)
    case Call(t, kind, enable) =>
      if Valid(kind) && s.installed then At(s, t, Entering(kind, enable)) else Done(s, t, Rejected(kind))
    case Enter(t) => Entered(s, t, s.threads[t].kind, s.threads[t].enable)
    case Answer(t, accepted) => Answered(s, t, s.threads[t].kind, s.threads[t].enable, s.threads[t].before, accepted)
    case Undo(t) =>
      var kind := s.threads[t].kind;
      Done(s, t, Returned(kind, true, false)).(mask := Cleared(s.mask, kind))
    case Deliver(t, kind) => if s.handler then At(s, t, Delivering(kind)) else Done(s, t, Dropped(kind))
    case Ask(t) =>
      var kind := s.threads[t].kind;
      Done(s, t, if Valid(kind) && And(s.mask, Flag(kind)) != 0 then Handled(kind) else Dropped(kind))
  }

  // The word as a set of bits

  lemma OrSets(mask: nat, kind: nat, k: nat)
    ensures Bit(Or(mask, Flag(kind)), k) <==> Bit(mask, k) || k == kind
  {
    BitOfOr(mask, Flag(kind), k);
    BitOfPow2(kind, k);
  }

  lemma AndClears(mask: nat, kind: nat, k: nat)
    requires k < 32
    ensures Bit(Cleared(mask, kind), k) <==> Bit(mask, k) && k != kind
  {
    BitOfAnd(mask, Not(Flag(kind), 32), k);
    BitOfNot(Flag(kind), 32, k);
    BitOfPow2(kind, k);
  }

  // Invariant

  /** An enable that has not been answered yet. */
  predicate Starting(p: Place) { (p.Entering? || p.Asking?) && p.enable }

  /** An enable of the kind has set the bit and not returned. */
  predicate Enabling(p: Place, kind: nat) { (p.Undoing? || (p.Asking? && p.enable)) && p.kind == kind }

  ghost predicate Agree(s: State, kind: nat) { Bit(s.mask, kind) <==> kind in s.wanted }

  /** What the mask says of the kind a call is working on. */
  ghost predicate PlaceOk(s: State, p: Place) {
    match p
    case Idle => true
    case Entering(kind, enable) => Valid(kind) && (enable ==> Agree(s, kind))
    case Asking(kind, enable, before) =>
      && Valid(kind) && (Bit(s.mask, kind) <==> enable) && (enable ==> (Bit(before, kind) <==> kind in s.wanted))
    case Undoing(kind) => Valid(kind) && kind !in s.wanted
    case Delivering(_) => true
  }

  /** Calls on one kind that overlap are all enables, of a wanted kind, or none is. */
  ghost predicate Together(s: State, p: Place, q: Place, kind: nat) {
    (Starting(p) <==> Starting(q)) && (Starting(p) ==> kind in s.wanted)
  }

  ghost predicate PairOk(s: State, t: nat, u: nat, kind: nat)
    requires t < |s.threads| && u < |s.threads|
  {
    Busy(s.threads[t], kind) && Busy(s.threads[u], kind) ==> Together(s, s.threads[t], s.threads[u], kind)
  }

  /** A bit is set for a reason. */
  ghost predicate Grounded(s: State, kind: nat) {
    Bit(s.mask, kind) ==> kind in s.wanted || exists u :: 0 <= u < |s.threads| && Enabling(s.threads[u], kind)
  }

  ghost predicate Inv(s: State) {
    && (forall t :: 0 <= t < |s.threads| ==> PlaceOk(s, s.threads[t]))
    && (forall t, u, kind :: 0 <= t < |s.threads| && 0 <= u < |s.threads| && t != u ==> PairOk(s, t, u, kind))
    && (forall kind :: Valid(kind) ==> Grounded(s, kind))
    && (forall kind :: Valid(kind) && Free(s, kind) ==> Agree(s, kind))
  }

  /** The kind a step works on, 0 for none. */
  function Works(s: State, step: Step): nat
    requires Possible(s, step)
  {
    match step
    case Enter(t) => s.threads[t].kind
    case Answer(t, _) => s.threads[t].kind
    case Undo(t) => s.threads[t].kind
    case _ => 0
  }

  /** A step on one kind leaves every other kind's bit and membership alone. */
  lemma OtherKindsKeep(s: State, step: Step, k: nat)
    requires Possible(s, step) && Valid(k) && k != Works(s, step)
    ensures Bit(Apply(s, step).mask, k) <==> Bit(s.mask, k)
    ensures k in Apply(s, step).wanted <==> k in s.wanted
  {
    if step.Enter? || step.Undo? {
      var kind := s.threads[step.t].kind;
      OrSets(s.mask, kind, k);
      AndClears(s.mask, kind, k);
    }
  }

  /** What a step does to the bit of its own kind: a call that returns leaves it in agreement. */
  lemma OwnKind(s: State, step: Step)
    requires Inv(s) && Possible(s, step) && (step.Enter? || step.Answer? || step.Undo?)
    ensures PlaceOk(Apply(s, step), Apply(s, step).threads[step.t])
    ensures Apply(s, step).threads[step.t] == Idle ==> Agree(Apply(s, step), Works(s, step))
    ensures Grounded(Apply(s, step), Works(s, step))
  {
    var p := s.threads[step.t];
    var next := Apply(s, step);
    assert PlaceOk(s, p);
    OrSets(s.mask, p.kind, p.kind);
    AndClears(s.mask, p.kind, p.kind);
    if p.Asking? { AndTestsBit(p.before, p.kind); }
    assert next.threads[step.t] == Idle || Enabling(next.threads[step.t], p.kind) || !Bit(next.mask, p.kind);
  }

  /** A step of one call keeps what another call on the same kind relies on. */
  lemma SameKindKeeps(s: State, step: Step, u: nat)
    requires Inv(s) && Possible(s, step) && (step.Enter? || step.Answer? || step.Undo?)
    requires u < |s.threads| && u != step.t && Busy(s.threads[u], Works(s, step))
    ensures PlaceOk(Apply(s, step), s.threads[u])
    ensures Starting(s.threads[u]) ==> Works(s, step) in Apply(s, step).wanted
    ensures Starting(s.threads[u]) && Busy(Apply(s, step).threads[step.t], Works(s, step)) ==>
              Starting(Apply(s, step).threads[step.t])
  {
    var p := s.threads[step.t];
    var kind := p.kind;
    assert PlaceOk(s, p) && PlaceOk(s, s.threads[u]) && PairOk(s, step.t, u, kind);
    OrSets(s.mask, kind, kind);
    AndClears(s.mask, kind, kind);
    if p.Asking? { AndTestsBit(p.before, kind); }
  }

  lemma PlacesKeep(s: State, step: Step, u: nat)
    requires Inv(s) && Enabled(s, step) && u < |s.threads|
    ensures PlaceOk(Apply(s, step), Apply(s, step).threads[u])
  {
    var p := s.threads[u];
    assert PlaceOk(s, p);
    if step.Enter? || step.Answer? || step.Undo? {
      if step.t == u {
        OwnKind(s, step);
      } else if Busy(p, Works(s, step)) {
        SameKindKeeps(s, step, u);
      } else if p.Entering? || p.Asking? || p.Undoing? {
        OtherKindsKeep(s, step, p.kind);
      }
    } else if step.Call? && step.t == u && Valid(step.kind) {
      CallJoins(s, step);
    }
  }

  /** A permitted call finds the bit in agreement if it is an enable, and goes together with what is under way. */
  lemma CallJoins(s: State, step: Step)
    requires Inv(s) && Enabled(s, step) && step.Call? && Valid(step.kind)
    ensures step.enable ==> Agree(s, step.kind)
    ensures forall u :: 0 <= u < |s.threads| && Busy(s.threads[u], step.kind) ==>
              (Starting(s.threads[u]) <==> step.enable) && (step.enable ==> step.kind in s.wanted)
  {
    forall u | 0 <= u < |s.threads| && Busy(s.threads[u], step.kind)
      ensures Starting(s.threads[u]) <==> step.enable
      ensures step.enable ==> step.kind in s.wanted && Agree(s, step.kind)
    {
      assert PlaceOk(s, s.threads[u]) && Joins(s, s.threads[u], step.enable);
    }
  }

  lemma PairsKeep(s: State, step: Step, t: nat, u: nat, kind: nat)
    requires Inv(s) && Enabled(s, step) && t < |s.threads| && u < |s.threads| && t != u
    ensures PairOk(Apply(s, step), t, u, kind)
  {
    if step.Call? {
      CallPair(s, step, t, u, kind);
    } else if (step.Enter? || step.Answer? || step.Undo?) && kind == Works(s, step) {
      StepPair(s, step, t, u);
    } else {
      OtherPair(s, step, t, u, kind);
    }
  }

  lemma OtherPair(s: State, step: Step, t: nat, u: nat, kind: nat)
    requires Inv(s) && Enabled(s, step) && !step.Call? && t < |s.threads| && u < |s.threads| && t != u
    requires step.Enter? || step.Answer? || step.Undo? ==> kind != Works(s, step)
    ensures PairOk(Apply(s, step), t, u, kind)
  {
    OtherPlace(s, step, t, kind);
    OtherPlace(s, step, u, kind);
    if Busy(s.threads[t], kind) {
      assert PairOk(s, t, u, kind) && PlaceOk(s, s.threads[t]);
      OtherKindsKeep(s, step, kind);
    }
  }

  /** A step that begins no call makes no thread busy with a kind that it does not work on. */
  lemma OtherPlace(s: State, step: Step, t: nat, kind: nat)
    requires Possible(s, step) && !step.Call? && t < |s.threads|
    requires step.Enter? || step.Answer? || step.Undo? ==> kind != Works(s, step)
    ensures t < |Apply(s, step).threads|
    ensures Busy(Apply(s, step).threads[t], kind) ==> Apply(s, step).threads[t] == s.threads[t]
  {
  }

  lemma CallPair(s: State, step: Step, t: nat, u: nat, kind: nat)
    requires Inv(s) && Enabled(s, step) && step.Call? && t < |s.threads| && u < |s.threads| && t != u
    ensures PairOk(Apply(s, step), t, u, kind)
  {
    assert PairOk(s, t, u, kind);
    if Valid(step.kind) { CallJoins(s, step); }
  }

  lemma StepPair(s: State, step: Step, t: nat, u: nat)
    requires Inv(s) && Possible(s, step) && (step.Enter? || step.Answer? || step.Undo?)
    requires t < |s.threads| && u < |s.threads| && t != u
    ensures PairOk(Apply(s, step), t, u, Works(s, step))
  {
    var kind := Works(s, step);
    assert PairOk(s, t, u, kind) && PairOk(s, u, t, kind);
    if t != step.t && Busy(s.threads[t], kind) { SameKindKeeps(s, step, t); }
    if u != step.t && Busy(s.threads[u], kind) { SameKindKeeps(s, step, u); }
  }

  lemma GroundedKeeps(s: State, step: Step, kind: nat)
    requires Inv(s) && Enabled(s, step) && Valid(kind)
    ensures Grounded(Apply(s, step), kind)
  {
    var next := Apply(s, step);
    assert Grounded(s, kind);
    if kind == Works(s, step) {
      OwnKind(s, step);
    } else {
      OtherKindsKeep(s, step, kind);
      if Bit(s.mask, kind) && kind !in s.wanted {
        var u :| 0 <= u < |s.threads| && Enabling(s.threads[u], kind);
        assert Enabling(next.threads[u], kind);
      }
    }
  }

  lemma AgreeKeeps(s: State, step: Step, kind: nat)
    requires Inv(s) && Enabled(s, step) && Valid(kind) && Free(Apply(s, step), kind)
    ensures Agree(Apply(s, step), kind)
  {
    var next := Apply(s, step);
    if kind == Works(s, step) {
      assert !Busy(next.threads[step.t], kind);
      OwnKind(s, step);
    } else {
      OtherKindsKeep(s, step, kind);
      assert Free(s, kind) by {
        forall t | 0 <= t < |s.threads| ensures !Busy(s.threads[t], kind) {
          assert !Busy(next.threads[t], kind);
        }
      }
    }
  }

  /** Every step keeps the mask in agreement with what callers were told, under the discipline. */
  lemma StepKeepsInv(s: State, step: Step)
    requires Inv(s) && Enabled(s, step)
    ensures Inv(Apply(s, step))
  {
    var next := Apply(s, step);
    forall u | 0 <= u < |next.threads| ensures PlaceOk(next, next.threads[u]) { PlacesKeep(s, step, u); }
    forall t, u, kind | 0 <= t < |next.threads| && 0 <= u < |next.threads| && t != u ensures PairOk(next, t, u, kind) {
      PairsKeep(s, step, t, u, kind);
    }
    forall kind | Valid(kind) ensures Grounded(next, kind) { GroundedKeeps(s, step, kind); }
    forall kind | Valid(kind) && Free(next, kind) ensures Agree(next, kind) { AgreeKeeps(s, step, kind); }
  }

  // Runs

  ghost predicate Linked(run: seq<State>, i: nat)
    requires i + 1 < |run|
  {
    exists step :: Enabled(run[i], step) && run[i + 1] == Apply(run[i], step)
  }

  ghost predicate IsRun(run: seq<State>) {
    run != [] && Initial(run[0]) && forall i: nat :: i + 1 < |run| ==> Linked(run, i)
  }

  lemma InitialInv(s: State)
    requires Initial(s)
    ensures Inv(s)
  {
    forall kind | Valid(kind) ensures Agree(s, kind) && Grounded(s, kind) { BitOfZero(kind); }
  }

  lemma {:induction false} RunInv(run: seq<State>, i: nat)
    requires IsRun(run) && i < |run|
    ensures Inv(run[i])
  {
    if i == 0 {
      InitialInv(run[0]);
    } else {
      RunInv(run, i - 1);
      assert Linked(run, i - 1);
      var step :| Enabled(run[i - 1], step) && run[i] == Apply(run[i - 1], step);
      StepKeepsInv(run[i - 1], step);
    }
  }

  /** Whenever no call on a kind is under way, its bit says whether it is wanted. */
  lemma MaskIsWanted(run: seq<State>, i: nat, kind: nat)
    requires IsRun(run) && i < |run| && Valid(kind) && Free(run[i], kind)
    ensures And(run[i].mask, Flag(kind)) != 0 <==> kind in run[i].wanted
  {
    RunInv(run, i);
    assert Agree(run[i], kind);
    AndTestsBit(run[i].mask, kind);
  }

  /** A call that returns has done to the wanted kinds what it reports, and to its own kind only: an enable that
      succeeded adds it, one that failed leaves it, a disable removes it whatever the provider said. */
  lemma ReturnsMean(s: State, step: Step)
    requires Inv(s) && Enabled(s, step) && |Apply(s, step).log| > |s.log|
    ensures var next := Apply(s, step);
            var e := next.log[|s.log|];
            match e
            case Returned(kind, true, true) => next.wanted == s.wanted + {kind} && Bit(next.mask, kind)
            case Returned(kind, true, false) => next.wanted == s.wanted && (Bit(next.mask, kind) <==> kind in s.wanted)
            case Returned(kind, false, _) => next.wanted == s.wanted - {kind} && !Bit(next.mask, kind)
            case Rejected(kind) => next.wanted == s.wanted && next.mask == s.mask && !(Valid(kind) && s.installed)
            case _ => next.wanted == s.wanted && next.mask == s.mask
  {
    if step.Answer? || step.Undo? { OwnKind(s, step); }
  }

  /** A report reaches the handler only while its kind is wanted, or an enable of it is under way. */
  lemma HandledIsWanted(run: seq<State>, i: nat, step: Step)
    requires IsRun(run) && i < |run| && Enabled(run[i], step) && step.Ask?
    requires Apply(run[i], step).log == run[i].log + [Handled(run[i].threads[step.t].kind)]
    ensures var kind := run[i].threads[step.t].kind;
            && Valid(kind)
            && (kind in run[i].wanted
                || exists u :: 0 <= u < |run[i].threads| && Enabling(run[i].threads[u], kind))
  {
    var s := run[i];
    var kind := s.threads[step.t].kind;
    RunInv(run, i);
    assert (s.log + [Handled(kind)])[|s.log|] == Handled(kind);
    AndTestsBit(s.mask, kind);
    assert Grounded(s, kind);
  }

  /** With no call on its kind under way, a report that found a handler reaches it exactly when the kind is wanted. */
  lemma DeliveryIsExact(run: seq<State>, i: nat, t: nat)
    requires IsRun(run) && i < |run| && Enabled(run[i], Ask(t)) && Free(run[i], run[i].threads[t].kind)
    ensures var kind := run[i].threads[t].kind;
            Apply(run[i], Ask(t)).log ==
              run[i].log + [if Valid(kind) && kind in run[i].wanted then Handled(kind) else Dropped(kind)]
  {
    var kind := run[i].threads[t].kind;
    RunInv(run, i);
    if Valid(kind) {
      assert Agree(run[i], kind);
      AndTestsBit(run[i].mask, kind);
    }
  }
}
