/** What the counters of the adapter count: the outcomes of a run, saturating, and its highest ownership. */
module LedgerCounters {
  import opened Basics
  import opened Ledger
  import opened LedgerTheorems

  datatype Counter = Reserves | Commits | Decommits | Releases | Resets | Failures

  function Value(s: Stats, c: Counter): nat {
    match c
    case Reserves => s.reserves
    case Commits => s.commits
    case Decommits => s.decommits
    case Releases => s.releases
    case Resets => s.resets
    case Failures => s.failures
  }

  /** What a call is counted as, by what it answered. */
  function Outcome(m: Machine, s: State, op: Op): Option<Counter>
    requires m.Fits()
  {
    match op
    case Reserve(size, alignment, flags, answer) =>
      Some(if DoReserve(m, s, size, alignment, flags, answer).1 != 0 then Reserves else Failures)
    case Commit(address, size) => Some(if DoCommit(m, s, address, size).1 then Commits else Failures)
    case Zero(address, size, reset, zeroing) =>
      Some(if !DoZero(m, s, address, size, reset, zeroing).1 then Failures else if reset then Resets else Decommits)
    case Release(address, size, accepted) =>
      Some(if DoRelease(m, s, address, size, accepted).1 then Releases else Failures)
    case Store(_, _) => None
  }

  /** How many calls of a run have that outcome. */
  function Occurrences(m: Machine, s: State, ops: seq<Op>, c: Counter): nat
    requires m.Fits()
    decreases |ops|
  {
    if ops == [] then 0
    else (if Outcome(m, s, ops[0]) == Some(c) then 1 else 0) + Occurrences(m, Exec(m, s, ops[0]), ops[1..], c)
  }

  /** What a step does to one counter. */
  ghost predicate Counted(s: State, next: State, outcome: Counter, c: Counter) {
    Value(next.stats, c) == if outcome == c then Increment(Value(s.stats, c)) else Value(s.stats, c)
  }

  lemma FailedCounts(s: State, c: Counter)
    ensures Counted(s, Failed(s), Failures, c)
  {
  }

  lemma ReserveCounts(m: Machine, s: State, size: nat, alignment: nat, flags: nat, answer: Answer, c: Counter)
    requires m.Fits()
    ensures var (next, p) := DoReserve(m, s, size, alignment, flags, answer);
            Counted(s, next, if p != 0 then Reserves else Failures, c)
  {
    FailedCounts(s, c);
  }

  lemma ZeroCounts(m: Machine, s: State, address: nat, size: nat, reset: bool, zeroing: Zeroing, c: Counter)
    requires m.Fits()
    ensures var (next, ok) := DoZero(m, s, address, size, reset, zeroing);
            Counted(s, next, if !ok then Failures else if reset then Resets else Decommits, c)
  {
    FailedCounts(s, c);
  }

  lemma ReleaseCounts(m: Machine, s: State, address: nat, size: nat, accepted: bool, c: Counter)
    requires m.Fits()
    ensures var (next, ok) := DoRelease(m, s, address, size, accepted);
            Counted(s, next, if ok then Releases else Failures, c)
  {
    FailedCounts(s, c);
  }

  lemma StepCounts(m: Machine, s: State, op: Op, c: Counter)
    requires m.Fits()
    ensures var before, after := Value(s.stats, c), Value(Exec(m, s, op).stats, c);
            after == if Outcome(m, s, op) == Some(c) then Increment(before) else before
  {
    match op
    case Reserve(size, alignment, flags, answer) => ReserveCounts(m, s, size, alignment, flags, answer, c);
    case Commit(address, size) => FailedCounts(s, c);
    case Zero(address, size, reset, zeroing) => ZeroCounts(m, s, address, size, reset, zeroing, c);
    case Release(address, size, accepted) => ReleaseCounts(m, s, address, size, accepted, c);
    case Store(address, value) =>
  }

  lemma {:induction false} RunCounts(m: Machine, s: State, ops: seq<Op>, c: Counter)
    requires m.Fits() && Value(s.stats, c) <= U64Max()
    ensures var n := Value(s.stats, c) + Occurrences(m, s, ops, c);
            Value(Run(m, s, ops).stats, c) == if n <= U64Max() then n else U64Max()
    decreases |ops|
  {
    if ops != [] {
      StepCounts(m, s, ops[0], c);
      RunCounts(m, Exec(m, s, ops[0]), ops[1..], c);
    }
  }

  /** Each counter is the number of calls with its outcome, or stands at its limit. */
  lemma CountersCount(m: Machine, ops: seq<Op>, c: Counter)
    requires m.Fits()
    ensures var n := Occurrences(m, Initial(), ops, c);
            Value(Run(m, Initial(), ops).stats, c) == if n <= U64Max() then n else U64Max()
  {
    RunCounts(m, Initial(), ops, c);
  }

  function Greater(a: nat, b: nat): nat { if a >= b then a else b }

  /** The most that is owned at any point of a run. */
  function Highest(m: Machine, s: State, ops: seq<Op>): nat
    requires m.Fits()
    decreases |ops|
  {
    if ops == [] then s.stats.owned else Greater(s.stats.owned, Highest(m, Exec(m, s, ops[0]), ops[1..]))
  }

  lemma StepPeak(m: Machine, s: State, op: Op)
    requires m.Fits() && Inv(m, s) && Honest(m, s, op)
    ensures var next := Exec(m, s, op).stats; next.peak == Greater(s.stats.peak, next.owned)
  {
    ExecKeeps(m, s, op);
    PeakMoves(m, s, op);
  }

  lemma PeakMoves(m: Machine, s: State, op: Op)
    requires m.Fits()
    ensures var next := Exec(m, s, op).stats;
            next.peak == s.stats.peak || (next.peak == next.owned && next.owned > s.stats.peak)
  {
  }

  lemma {:induction false} RunPeak(m: Machine, s: State, ops: seq<Op>)
    requires m.Fits() && Inv(m, s) && HonestRun(m, s, ops)
    ensures Run(m, s, ops).stats.peak == Greater(s.stats.peak, Highest(m, s, ops))
    decreases |ops|
  {
    if ops != [] {
      ExecKeeps(m, s, ops[0]);
      StepPeak(m, s, ops[0]);
      RunPeak(m, Exec(m, s, ops[0]), ops[1..]);
    }
  }

  /** peak_bytes is the most that was ever owned. */
  lemma PeakIsHighest(m: Machine, ops: seq<Op>)
    requires m.Fits() && HonestRun(m, Initial(), ops)
    ensures Run(m, Initial(), ops).stats.peak == Highest(m, Initial(), ops)
  {
    InitialInv(m);
    RunPeak(m, Initial(), ops);
  }
}
