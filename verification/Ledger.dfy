/**
 The ledger of the linear GC adapter: which regions the collector owns, what they contain, and
 the counters, over any sequence of calls and any answers of the storage provider.
 */
module Ledger {
  import opened Basics
  import opened Words
  import opened Rounding

  /** The word size of the target and the provider's granularity. */
  datatype Machine = Machine(width: nat, grain: nat) {
    /** What negotiation has checked before the adapter calls anything. */
    predicate Fits() { 1 <= width <= 64 && 0 < grain <= SizeMax(width) && IsPowerOfTwo(grain) }
  }

  /** Address 0 marks a free slot. */
  datatype Region = Region(address: nat, size: nat)

  const FREE := Region(0, 0)
  const REGIONS: nat := 256

  datatype Stats = Stats(reserves: nat, commits: nat, decommits: nat, releases: nat, resets: nat, failures: nat,
                         owned: nat, peak: nat)

  /** `bytes` holds the contents of the storage that the provider has handed out and not taken back. */
  datatype State = State(regions: seq<Region>, stats: Stats, bytes: map<nat, nat>)

  function NoRegions(n: nat): seq<Region> { seq(n, _ => FREE) }

  function Initial(): State { State(NoRegions(REGIONS), Stats(0, 0, 0, 0, 0, 0, 0, 0), map[]) }

  datatype Answer = Refused | Granted(address: nat)

  /** A provider that refuses to zero a range may have written some of it. */
  datatype Zeroing = Accepted | Declined(left: map<nat, nat>)

  datatype Op =
    | Reserve(size: nat, alignment: nat, flags: nat, answer: Answer)
    | Commit(address: nat, size: nat)
    | Zero(address: nat, size: nat, reset: bool, zeroing: Zeroing)
    | Release(address: nat, size: nat, accepted: bool)
    | Store(address: nat, value: nat)

  // The boundary

  /** allocate: the address it hands out, or none */
  function LinearAllocate(m: Machine, size: nat, alignment: nat, flags: nat, answer: Answer): Option<nat>
    requires m.Fits()
  {
    if flags != 0 then None
    else match Geometry(size, alignment, m.grain, m.width)
      case None => None
      case Some((n, a)) =>
        if a == 0 || answer.Refused? || answer.address == 0 || answer.address % a != 0
           || answer.address + n > SizeMax(m.width)
        then None else Some(answer.address)
  }

  /** zero passes the range on to the provider. */
  predicate LinearZero(m: Machine, address: nat, size: nat)
    requires m.Fits()
  {
    address != 0 && size != 0 && address + size <= SizeMax(m.width)
  }

  predicate LinearRelease(m: Machine, address: nat, size: nat, accepted: bool)
    requires m.Fits()
  {
    RoundSize(size, m.grain, m.width).Some? && address != 0 && accepted
  }

  // The adapter

  function U64Max(): nat { Pow2(64) - 1 }

  function Increment(n: nat): nat { if n != U64Max() then n + 1 else n }

  /** The value of an unsigned 64-bit result. */
  function Wrap(x: int): nat { if 0 <= x <= U64Max() then x else x % (U64Max() + 1) }

  function Failed(s: State): State { s.(stats := s.stats.(failures := Increment(s.stats.failures))) }

  function PageRange(m: Machine, address: nat, size: nat): nat
    requires m.Fits()
  {
    if address == 0 || address % m.grain != 0 then 0 else Rounded(size, m.grain, m.width)
  }

  /** find's test of one slot */
  predicate Covers(r: Region, start: nat, size: nat) {
    r.address != 0 && start >= r.address && start - r.address < r.size && size <= r.size - (start - r.address)
  }

  function FirstCovering(regions: seq<Region>, start: nat, size: nat, from: nat): (r: Option<nat>)
    requires from <= |regions|
    ensures r.Some? ==> from <= r.value < |regions| && Covers(regions[r.value], start, size)
    ensures r.None? ==> forall i :: from <= i < |regions| ==> !Covers(regions[i], start, size)
    decreases |regions| - from
  {
    if from == |regions| then None
    else if Covers(regions[from], start, size) then Some(from)
    else FirstCovering(regions, start, size, from + 1)
  }

  function Find(m: Machine, regions: seq<Region>, start: nat, size: nat): Option<nat> {
    if start == 0 || size == 0 || start + size > SizeMax(m.width) then None
    else FirstCovering(regions, start, size, 0)
  }

  function FirstFree(regions: seq<Region>, from: nat): (r: Option<nat>)
    requires from <= |regions|
    ensures r.Some? ==> from <= r.value < |regions| && regions[r.value].address == 0
    ensures r.None? ==> forall i :: from <= i < |regions| ==> regions[i].address != 0
    decreases |regions| - from
  {
    if from == |regions| then None
    else if regions[from].address == 0 then Some(from)
    else FirstFree(regions, from + 1)
  }

  /** The `n` addresses from `start`. */
  function Span(start: nat, n: nat): (r: set<nat>)
    ensures forall a :: a in r <==> start <= a < start + n
    ensures |r| == n
  {
    if n == 0 then {} else Span(start, n - 1) + {start + n - 1}
  }

  function Zeros(start: nat, n: nat): map<nat, nat> { map a | a in Span(start, n) :: 0 }

  function AfterReserve(s: State, slot: nat, p: nat, n: nat): State
    requires slot < |s.regions|
  {
    var owned := Wrap(s.stats.owned + n);
    State(s.regions[slot := Region(p, n)],
          s.stats.(reserves := Increment(s.stats.reserves), owned := owned,
                   peak := if owned > s.stats.peak then owned else s.stats.peak),
          s.bytes + Zeros(p, n))
  }

  /** reserve: the new state and the address, 0 for a failure */
  function DoReserve(m: Machine, s: State, size: nat, alignment: nat, flags: nat, answer: Answer): (State, nat)
    requires m.Fits()
  {
    var n := Rounded(size, m.grain, m.width);
    if n == 0 || flags != 0 then (Failed(s), 0)
    else match FirstFree(s.regions, 0)
      case None => (Failed(s), 0)
      case Some(slot) =>
        match LinearAllocate(m, n, alignment, 0, answer)
        case None => (Failed(s), 0)
        case Some(p) => (AfterReserve(s, slot, p, n), p)
  }

  function DoCommit(m: Machine, s: State, address: nat, size: nat): (State, bool)
    requires m.Fits()
  {
    if Find(m, s.regions, address, PageRange(m, address, size)).None? then (Failed(s), false)
    else (s.(stats := s.stats.(commits := Increment(s.stats.commits))), true)
  }

  function AfterZero(s: State, address: nat, n: nat, reset: bool): State {
    State(s.regions,
          if reset then s.stats.(resets := Increment(s.stats.resets))
          else s.stats.(decommits := Increment(s.stats.decommits)),
          s.bytes + Zeros(address, n))
  }

  /** The bytes after a refusal that left `left` in the range. */
  function Spoiled(bytes: map<nat, nat>, address: nat, n: nat, left: map<nat, nat>): map<nat, nat> {
    bytes + (map a | a in Span(address, n) && a in left :: left[a])
  }

  function DoZero(m: Machine, s: State, address: nat, size: nat, reset: bool, zeroing: Zeroing): (State, bool)
    requires m.Fits()
  {
    var n := PageRange(m, address, size);
    if Find(m, s.regions, address, n).None? || !LinearZero(m, address, n) then (Failed(s), false)
    else match zeroing
      case Declined(left) => (Failed(s.(bytes := Spoiled(s.bytes, address, n, left))), false)
      case Accepted => (AfterZero(s, address, n, reset), true)
  }

  function AfterRelease(s: State, i: nat, address: nat, n: nat): State
    requires i < |s.regions|
  {
    State(s.regions[i := FREE],
          s.stats.(releases := Increment(s.stats.releases), owned := Wrap(s.stats.owned - n)),
          s.bytes - Span(address, n))
  }

  function DoRelease(m: Machine, s: State, address: nat, size: nat, accepted: bool): (State, bool)
    requires m.Fits()
  {
    var n := PageRange(m, address, size);
    match Find(m, s.regions, address, n)
    case None => (Failed(s), false)
    case Some(i) =>
      if s.regions[i].address != address || s.regions[i].size != n || !LinearRelease(m, address, n, accepted)
      then (Failed(s), false)
      else (AfterRelease(s, i, address, n), true)
  }

  /** A write of the collector itself, which reaches storage only through an owned address. */
  function DoStore(s: State, address: nat, value: nat): State {
    if address in s.bytes then s.(bytes := s.bytes[address := value]) else s
  }

  function Exec(m: Machine, s: State, op: Op): State
    requires m.Fits()
  {
    match op
    case Reserve(size, alignment, flags, answer) => DoReserve(m, s, size, alignment, flags, answer).0
    case Commit(address, size) => DoCommit(m, s, address, size).0
    case Zero(address, size, reset, zeroing) => DoZero(m, s, address, size, reset, zeroing).0
    case Release(address, size, accepted) => DoRelease(m, s, address, size, accepted).0
    case Store(address, value) => DoStore(s, address, value)
  }

  // What is owned

  predicate Inside(r: Region, a: nat) { r.address != 0 && r.address <= a < r.address + r.size }

  ghost predicate Owned(regions: seq<Region>, a: nat) { exists i :: 0 <= i < |regions| && Inside(regions[i], a) }

  ghost predicate RegionOk(m: Machine, r: Region)
    requires m.Fits()
  {
    if r.address == 0 then r == FREE
    else
      && r.size > 0 && r.address % m.grain == 0 && r.size % m.grain == 0
      && r.size <= IsizeMax(m.width) && r.address + r.size <= SizeMax(m.width)
  }

  ghost predicate Apart(r: Region, q: Region) {
    r.address != 0 && q.address != 0 ==> r.address + r.size <= q.address || q.address + q.size <= r.address
  }

  /** The sum over the live slots of their sizes, or of one each. */
  function Sum(regions: seq<Region>, sizes: bool): nat {
    if regions == [] then 0 else Weight(regions[0], sizes) + Sum(regions[1..], sizes)
  }

  function Weight(r: Region, sizes: bool): nat { if r.address == 0 then 0 else if sizes then r.size else 1 }

  ghost predicate Layout(m: Machine, regions: seq<Region>)
    requires m.Fits()
  {
    && |regions| == REGIONS
    && (forall i :: 0 <= i < |regions| ==> RegionOk(m, regions[i]))
    && (forall i, j :: 0 <= i < j < |regions| ==> Apart(regions[i], regions[j]))
  }

  ghost predicate Accounts(s: State) {
    && s.stats.owned == Sum(s.regions, true) == |s.bytes|
    && s.stats.owned <= s.stats.peak
    && s.stats.releases <= s.stats.reserves <= U64Max()
    && (s.stats.reserves < U64Max() ==> s.stats.reserves == s.stats.releases + Sum(s.regions, false))
  }

  ghost predicate Inv(m: Machine, s: State)
    requires m.Fits()
  {
    && Layout(m, s.regions)
    && (forall a :: a in s.bytes <==> Owned(s.regions, a))
    && Accounts(s)
  }

  /** The provider's contract: storage it grants is not storage it granted before and did not take back. */
  ghost predicate Exclusive(s: State, p: nat, n: nat) { forall a :: p <= a < p + n ==> a !in s.bytes }

  /** Arguments are words, and what the provider grants is exclusive. */
  ghost predicate Honest(m: Machine, s: State, op: Op)
    requires m.Fits()
  {
    match op
    case Reserve(size, alignment, flags, answer) =>
      && size <= SizeMax(m.width) && alignment <= SizeMax(m.width)
      && (DoReserve(m, s, size, alignment, flags, answer).1 != 0 ==>
            Exclusive(s, answer.address, Rounded(size, m.grain, m.width)))
    case Commit(address, size) => address <= SizeMax(m.width) && size <= SizeMax(m.width)
    case Zero(address, size, _, _) => address <= SizeMax(m.width) && size <= SizeMax(m.width)
    case Release(address, size, _) => address <= SizeMax(m.width) && size <= SizeMax(m.width)
    case Store(_, _) => true
  }

  // Sums and sizes

  lemma {:induction false} SumUpdate(regions: seq<Region>, i: nat, r: Region, sizes: bool)
    requires i < |regions|
    ensures Sum(regions[i := r], sizes) + Weight(regions[i], sizes) == Sum(regions, sizes) + Weight(r, sizes)
  {
    if i > 0 {
      SumUpdate(regions[1..], i - 1, r, sizes);
      assert regions[i := r][1..] == regions[1..][i - 1 := r];
    } else {
      assert regions[i := r][1..] == regions[1..];
    }
  }

  lemma {:induction false} SumOfFree(n: nat, sizes: bool)
    ensures Sum(NoRegions(n), sizes) == 0
  {
    if n > 0 {
      assert NoRegions(n)[1..] == NoRegions(n - 1);
      SumOfFree(n - 1, sizes);
    }
  }

  /** Owned addresses are words, so there are at most that many. */
  lemma BytesFit(m: Machine, regions: seq<Region>, bytes: map<nat, nat>)
    requires m.Fits() && Layout(m, regions) && forall a :: a in bytes <==> Owned(regions, a)
    ensures |bytes| <= SizeMax(m.width)
  {
    forall a | a in bytes ensures a in Span(0, SizeMax(m.width)) {
      var i :| 0 <= i < |regions| && Inside(regions[i], a);
      assert RegionOk(m, regions[i]);
    }
    SubsetSize(bytes.Keys, Span(0, SizeMax(m.width)));
  }

  /** Disjoint regions of words cannot add up past a word. */
  lemma OwnedFits(m: Machine, s: State)
    requires m.Fits() && Inv(m, s)
    ensures s.stats.owned <= SizeMax(m.width) <= U64Max()
  {
    BytesFit(m, s.regions, s.bytes);
    Pow2Grows(m.width, 64);
  }

  lemma AddedBytes(bytes: map<nat, nat>, p: nat, n: nat)
    requires forall a :: p <= a < p + n ==> a !in bytes
    ensures |bytes + Zeros(p, n)| == |bytes| + n
  {
    assert (bytes + Zeros(p, n)).Keys == bytes.Keys + Span(p, n);
    assert |bytes.Keys + Span(p, n)| == |bytes.Keys| + |Span(p, n)|;
  }

  lemma RemovedBytes(bytes: map<nat, nat>, p: nat, n: nat)
    requires forall a :: p <= a < p + n ==> a in bytes
    ensures n <= |bytes| && |bytes - Span(p, n)| == |bytes| - n
  {
    assert (bytes - Span(p, n)).Keys == bytes.Keys - Span(p, n);
    assert bytes.Keys == (bytes.Keys - Span(p, n)) + Span(p, n);
  }
}
