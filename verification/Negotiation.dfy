/**
 Negotiation of the callback table: any number of threads ask for it at any time, one of them
 builds it, and everybody gets the same answer for good.
 */
module Negotiation {
  import opened Basics

  /** Which table `build` made. */
  type Api = nat

  datatype Phase = Uninitialized | Negotiating | Ready | Rejected

  /** Where a caller is. `Writing` holds the table that `build` returned. */
  datatype Place =
    | Idle
    | Looping
    | Trying
    | Building
    | Writing(api: Api)
    | Publishing(outcome: Phase)

  /** What a call returned: the table's address, or null. */
  datatype Reply = Reply(rightVersion: bool, table: bool)

  /** `built` lists what the calls of `build` gave; `replies` lists what was returned so far, in order. */
  datatype State = State(
    phase: Phase, table: Option<Api>, callers: seq<Place>, built: seq<Option<Api>>, replies: seq<Reply>)

  datatype Step =
    | Call(t: nat, rightVersion: bool)
    | Load(t: nat)
    | Exchange(t: nat)
    | Build(t: nat, built: Option<Api>)
    | Write(t: nat)
    | Publish(t: nat)

  predicate Initial(s: State) {
    && s.phase == Uninitialized && s.table == None && s.built == [] && s.replies == []
    && forall t :: 0 <= t < |s.callers| ==> s.callers[t] == Idle
  }

  predicate Enabled(s: State, step: Step) {
    && step.t < |s.callers|
    && match step
       case Call(t, _) => s.callers[t] == Idle
       case Load(t) => s.callers[t] == Looping
       case Exchange(t) => s.callers[t] == Trying
       case Build(t, _) => s.callers[t] == Building
       case Write(t) => s.callers[t].Writing?
       case Publish(t) => s.callers[t].Publishing?
  }

  function At(s: State, t: nat, place: Place): State
    requires t < |s.callers|
  {
    s.(callers := s.callers[t := place])
  }

  function Answered(s: State, t: nat, reply: Reply): State
    requires t < |s.callers|
  {
    At(s, t, Idle).(replies := s.replies + [reply])
  }

  function Apply(s: State, step: Step): State
    requires Enabled(s, step)
  {
    match step
    case Call(t, right) => if right then At(s, t, Looping) else Answered(s, t, Reply(false, false))
    case Load(t) =>
      (match s.phase
       case Ready => Answered(s, t, Reply(true, true))
       case Rejected => Answered(s, t, Reply(true, false))
       case Negotiating => s
       case Uninitialized => At(s, t, Trying))
    case Exchange(t) =>
      if s.phase == Uninitialized then At(s, t, Building).(phase := Negotiating) else At(s, t, Looping)
    case Build(t, built) =>
      At(s, t, if built.Some? then Writing(built.value) else Publishing(Rejected)).(built := s.built + [built])
    case Write(t) => At(s, t, Publishing(Ready)).(table := Some(s.callers[t].api))
    case Publish(t) => At(s, t, Looping).(phase := s.callers[t].outcome)
  }

  predicate Winner(p: Place) { p.Building? || p.Writing? || p.Publishing? }

  /** What has been built and written by the time the winner is at `p`. */
  ghost predicate Progress(s: State, p: Place) {
    match p
    case Building => s.built == [] && s.table == None
    case Writing(api) => s.built == [Some(api)] && s.table == None
    case Publishing(outcome) => s.built == [s.table] && outcome == if s.table.Some? then Ready else Rejected
    case _ => true
  }

  ghost predicate Settled(s: State) {
    match s.phase
    case Uninitialized => s.built == [] && s.table == None
    case Negotiating => true
    case Ready => s.built == [s.table] && s.table.Some?
    case Rejected => s.built == [None] && s.table == None
  }

  ghost predicate ReplyOk(phase: Phase, r: Reply) {
    if !r.rightVersion then !r.table else if r.table then phase == Ready else phase == Rejected
  }

  ghost predicate Inv(s: State) {
    && Settled(s)
    && (forall t :: 0 <= t < |s.callers| && Winner(s.callers[t]) ==>
          s.phase == Negotiating && Progress(s, s.callers[t]))
    && (forall t, u :: 0 <= t < u < |s.callers| ==> !(Winner(s.callers[t]) && Winner(s.callers[u])))
    && (s.phase == Negotiating ==> exists t :: 0 <= t < |s.callers| && Winner(s.callers[t]))
    && (forall i :: 0 <= i < |s.replies| ==> ReplyOk(s.phase, s.replies[i]))
  }

  /** Phases only go forward, and the last two stay. */
  predicate Forward(a: Phase, b: Phase) {
    a == b || a == Uninitialized || (a == Negotiating && b != Uninitialized)
  }

  lemma StepKeepsInv(s: State, step: Step)
    requires Inv(s) && Enabled(s, step)
    ensures Inv(Apply(s, step))
    ensures Forward(s.phase, Apply(s, step).phase) && s.replies <= Apply(s, step).replies
    ensures s.table.Some? ==> Apply(s, step).table == s.table
    ensures Apply(s, step).table != s.table ==> Winner(s.callers[step.t])
  {
    var next := Apply(s, step);
    var t := step.t;
    assert forall u :: 0 <= u < |s.callers| && u != t ==> next.callers[u] == s.callers[u];
    if Winner(s.callers[t]) {
      assert forall u :: 0 <= u < |s.callers| && u != t ==> !Winner(s.callers[u]);
    }
    if next.phase == Negotiating {
      if Winner(next.callers[t]) {
      } else {
        var w :| 0 <= w < |s.callers| && Winner(s.callers[w]);
        assert Winner(next.callers[w]);
      }
    }
  }

  // Runs

  ghost predicate Linked(run: seq<State>, i: nat)
    requires i + 1 < |run|
  {
    exists step :: Enabled(run[i], step) && run[i + 1] == Apply(run[i], step)
  }

  ghost predicate IsRun(run: seq<State>) {
    run != [] && Initial(run[0]) && forall i: nat :: i + 1 < |run| ==> Linked(run, i)
  }

  lemma {:induction false} RunInv(run: seq<State>, i: nat)
    requires IsRun(run) && i < |run|
    ensures Inv(run[i])
  {
    if i > 0 {
      RunInv(run, i - 1);
      assert Linked(run, i - 1);
      var step :| Enabled(run[i - 1], step) && run[i] == Apply(run[i - 1], step);
      StepKeepsInv(run[i - 1], step);
    }
  }

  lemma {:induction false} RunForward(run: seq<State>, i: nat, j: nat)
    requires IsRun(run) && i <= j < |run|
    ensures Forward(run[i].phase, run[j].phase) && run[i].replies <= run[j].replies
    ensures run[i].table.Some? ==> run[j].table == run[i].table
    decreases j
  {
    if i < j {
      RunForward(run, i, j - 1);
      RunInv(run, j - 1);
      assert Linked(run, j - 1);
      var step :| Enabled(run[j - 1], step) && run[j] == Apply(run[j - 1], step);
      StepKeepsInv(run[j - 1], step);
    }
  }

  /** The table is built at most once, and nobody with the right version is answered before. */
  lemma BuiltOnce(run: seq<State>, i: nat)
    requires IsRun(run) && i < |run|
    ensures |run[i].built| <= 1
    ensures run[i].built == [] ==>
              run[i].table == None && forall k :: 0 <= k < |run[i].replies| ==> !run[i].replies[k].rightVersion
  {
    RunInv(run, i);
    assert run[i].phase == Negotiating ==> exists t :: 0 <= t < |run[i].callers| && Winner(run[i].callers[t]);
    assert forall k :: 0 <= k < |run[i].replies| ==> ReplyOk(run[i].phase, run[i].replies[k]);
  }

  /** Every call with the right version gets the same answer, whenever it was made: the table if it was built, and null
      if it was not. Any other call gets null. */
  lemma SameAnswer(run: seq<State>, i: nat, a: nat, b: nat)
    requires IsRun(run) && i < |run| && a < |run[i].replies| && b < |run[i].replies|
    ensures run[i].replies[a].rightVersion && run[i].replies[b].rightVersion ==> run[i].replies[a] == run[i].replies[b]
    ensures run[i].replies[a].rightVersion ==> |run[i].built| == 1 && run[i].replies[a].table == run[i].built[0].Some?
    ensures !run[i].replies[a].rightVersion ==> !run[i].replies[a].table
  {
    RunInv(run, i);
    assert ReplyOk(run[i].phase, run[i].replies[a]) && ReplyOk(run[i].phase, run[i].replies[b]);
  }

  /** A caller that got the table finds it written, and it is the one that was built, ever after. */
  lemma TableIsReady(run: seq<State>, i: nat, a: nat, j: nat)
    requires IsRun(run) && i <= j < |run| && a < |run[i].replies| && run[i].replies[a].table
    ensures run[i].table.Some? && run[j].table == run[i].table && run[j].phase == Ready
    ensures run[j].built == [run[j].table]
  {
    RunInv(run, i);
    assert ReplyOk(run[i].phase, run[i].replies[a]);
    RunForward(run, i, j);
    RunInv(run, j);
  }

  /** A rejection is final: no later call gets the table. */
  lemma RejectionIsFinal(run: seq<State>, i: nat, j: nat, a: nat)
    requires IsRun(run) && i <= j < |run| && run[i].phase == Rejected && a < |run[j].replies|
    ensures run[j].phase == Rejected && !run[j].replies[a].table && run[j].table == None && run[j].built == [None]
  {
    RunForward(run, i, j);
    RunInv(run, j);
    assert ReplyOk(run[j].phase, run[j].replies[a]);
  }
}
