/** What the ledger keeps over every run, and what each operation does to the storage. */
module LedgerTheorems {
  import opened Basics
  import opened Words
  import opened Rounding
  import opened Ledger

  // What reserve obtains

  /** Storage that reserve hands out is aligned, holds the request and lies in whole grains below the word limit. */
  lemma GrantedRegion(m: Machine, s: State, size: nat, alignment: nat, flags: nat, answer: Answer)
    requires m.Fits() && size <= SizeMax(m.width)
    requires DoReserve(m, s, size, alignment, flags, answer).1 != 0
    ensures answer.Granted? && DoReserve(m, s, size, alignment, flags, answer).1 == answer.address
    ensures var n := Rounded(size, m.grain, m.width);
            && RegionOk(m, Region(answer.address, n)) && IsLeastMultiple(n, size, m.grain)
            && (alignment > 0 ==> answer.address % alignment == 0)
  {
    var n := Rounded(size, m.grain, m.width);
    RoundedIsLeast(size, m.grain, m.width);
    RoundedIsFixed(size, m.grain, m.width);
    var (k, a) := Geometry(n, alignment, m.grain, m.width).value;
    assert k == n;
    PowersDivide(m.grain, a);
    Divides(answer.address, a, m.grain);
    if alignment > 0 {
      PowersDivide(alignment, a);
      Divides(answer.address, a, alignment);
    }
  }

  // Every operation keeps the invariant

  lemma FailedKeeps(m: Machine, s: State)
    requires m.Fits() && Inv(m, s)
    ensures Inv(m, Failed(s))
  {
  }

  lemma ReserveLayout(m: Machine, s: State, slot: nat, p: nat, n: nat)
    requires m.Fits() && Inv(m, s) && slot < |s.regions| && s.regions[slot].address == 0
    requires p != 0 && RegionOk(m, Region(p, n)) && Exclusive(s, p, n)
    ensures Layout(m, s.regions[slot := Region(p, n)])
  {
    var granted := Region(p, n);
    var regions := s.regions[slot := granted];
    forall i | 0 <= i < |s.regions| && i != slot ensures Apart(s.regions[i], granted) && Apart(granted, s.regions[i]) {
      GrantIsApart(m, s, i, p, n);
    }
    forall i, j | 0 <= i < j < |regions| ensures Apart(regions[i], regions[j]) {
      assert i != slot ==> regions[i] == s.regions[i];
      assert j != slot ==> regions[j] == s.regions[j];
    }
  }

  lemma GrantIsApart(m: Machine, s: State, i: nat, p: nat, n: nat)
    requires m.Fits() && Inv(m, s) && i < |s.regions|
    requires p != 0 && RegionOk(m, Region(p, n)) && Exclusive(s, p, n)
    ensures Apart(s.regions[i], Region(p, n)) && Apart(Region(p, n), s.regions[i])
  {
    var r := s.regions[i];
    assert RegionOk(m, r);
    var meet := if p >= r.address then p else r.address;
    if Inside(r, meet) { assert Owned(s.regions, meet); }
  }

  lemma ReserveOwned(regions: seq<Region>, slot: nat, p: nat, n: nat, a: nat)
    requires slot < |regions| && regions[slot].address == 0 && p != 0
    ensures Owned(regions[slot := Region(p, n)], a) <==> Owned(regions, a) || p <= a < p + n
  {
    var next := regions[slot := Region(p, n)];
    if Owned(regions, a) {
      var i :| 0 <= i < |regions| && Inside(regions[i], a);
      assert Inside(next[i], a);
    }
    if p <= a < p + n { assert Inside(next[slot], a); }
    if Owned(next, a) {
      var i :| 0 <= i < |next| && Inside(next[i], a);
      assert i != slot ==> Inside(regions[i], a);
    }
  }

  lemma ReserveBytes(s: State, slot: nat, p: nat, n: nat)
    requires slot < |s.regions| && s.regions[slot].address == 0 && p != 0
    requires forall a :: a in s.bytes <==> Owned(s.regions, a)
    ensures forall a :: a in s.bytes + Zeros(p, n) <==> Owned(s.regions[slot := Region(p, n)], a)
  {
    forall a ensures a in s.bytes + Zeros(p, n) <==> Owned(s.regions[slot := Region(p, n)], a) {
      ReserveOwned(s.regions, slot, p, n, a);
    }
  }

  lemma ReserveAccounts(s: State, slot: nat, p: nat, n: nat)
    requires slot < |s.regions| && s.regions[slot].address == 0 && p != 0
    requires Accounts(s) && Exclusive(s, p, n) && s.stats.owned + n < Pow2(64)
    ensures Accounts(AfterReserve(s, slot, p, n))
  {
    SumUpdate(s.regions, slot, Region(p, n), true);
    SumUpdate(s.regions, slot, Region(p, n), false);
    AddedBytes(s.bytes, p, n);
  }

  lemma ReserveKeeps(m: Machine, s: State, slot: nat, p: nat, n: nat)
    requires m.Fits() && Inv(m, s) && slot < |s.regions| && s.regions[slot].address == 0
    requires p != 0 && RegionOk(m, Region(p, n)) && Exclusive(s, p, n)
    ensures Inv(m, AfterReserve(s, slot, p, n))
  {
    ReserveLayout(m, s, slot, p, n);
    ReserveBytes(s, slot, p, n);
    AddedBytes(s.bytes, p, n);
    BytesFit(m, s.regions[slot := Region(p, n)], s.bytes + Zeros(p, n));
    Pow2Grows(m.width, 64);
    ReserveAccounts(s, slot, p, n);
  }

  lemma ReleaseOwned(regions: seq<Region>, i: nat, a: nat)
    requires i < |regions| && regions[i].address != 0
    requires forall j, k :: 0 <= j < k < |regions| ==> Apart(regions[j], regions[k])
    ensures Owned(regions[i := FREE], a) <==> Owned(regions, a) && !Inside(regions[i], a)
  {
    var next := regions[i := FREE];
    if Owned(next, a) {
      var j :| 0 <= j < |next| && Inside(next[j], a);
      assert j != i && Inside(regions[j], a);
      assert Apart(regions[if i < j then i else j], regions[if i < j then j else i]);
    }
    if Owned(regions, a) && !Inside(regions[i], a) {
      var j :| 0 <= j < |regions| && Inside(regions[j], a);
      assert Inside(next[j], a);
    }
  }

  lemma ReleaseLayout(m: Machine, regions: seq<Region>, i: nat)
    requires m.Fits() && Layout(m, regions) && i < |regions|
    ensures Layout(m, regions[i := FREE])
  {
    var next := regions[i := FREE];
    forall j, k | 0 <= j < k < |next| ensures Apart(next[j], next[k]) {
      assert Apart(regions[j], regions[k]);
    }
  }

  lemma ReleaseBytes(m: Machine, s: State, i: nat)
    requires m.Fits() && Inv(m, s) && i < |s.regions| && s.regions[i].address != 0
    ensures var r := s.regions[i];
            forall a :: a in s.bytes - Span(r.address, r.size) <==> Owned(s.regions[i := FREE], a)
  {
    var r := s.regions[i];
    forall a ensures a in s.bytes - Span(r.address, r.size) <==> Owned(s.regions[i := FREE], a) {
      ReleaseOwned(s.regions, i, a);
    }
  }

  lemma ReleaseAccounts(m: Machine, s: State, i: nat)
    requires m.Fits() && Inv(m, s) && i < |s.regions| && s.regions[i].address != 0
    ensures Accounts(AfterRelease(s, i, s.regions[i].address, s.regions[i].size))
    ensures Wrap(s.stats.owned - s.regions[i].size) == s.stats.owned - s.regions[i].size
  {
    var r := s.regions[i];
    SumUpdate(s.regions, i, FREE, true);
    SumUpdate(s.regions, i, FREE, false);
    RemovedRegion(m, s, i);
    OwnedFits(m, s);
  }

  lemma ReleaseKeeps(m: Machine, s: State, i: nat)
    requires m.Fits() && Inv(m, s) && i < |s.regions| && s.regions[i].address != 0
    ensures Inv(m, AfterRelease(s, i, s.regions[i].address, s.regions[i].size))
  {
    ReleaseBytes(m, s, i);
    ReleaseAccounts(m, s, i);
    ReleaseLayout(m, s.regions, i);
  }

  lemma RemovedRegion(m: Machine, s: State, i: nat)
    requires m.Fits() && Inv(m, s) && i < |s.regions| && s.regions[i].address != 0
    ensures var r := s.regions[i]; r.size <= |s.bytes| && |s.bytes - Span(r.address, r.size)| == |s.bytes| - r.size
  {
    var r := s.regions[i];
    forall a | r.address <= a < r.address + r.size ensures a in s.bytes { assert Inside(r, a); }
    RemovedBytes(s.bytes, r.address, r.size);
  }

  /** A range that a slot covers is owned throughout. */
  lemma CoveredIsOwned(m: Machine, s: State, i: nat, start: nat, n: nat)
    requires m.Fits() && Inv(m, s) && i < |s.regions| && Covers(s.regions[i], start, n)
    ensures forall a :: start <= a < start + n ==> a in s.bytes
  {
    forall a | start <= a < start + n ensures a in s.bytes { assert Inside(s.regions[i], a); }
  }

  /** Other contents at the same addresses do not concern the ledger. */
  lemma SameKeysKeep(m: Machine, s: State, next: State)
    requires m.Fits() && Inv(m, s) && next.regions == s.regions && next.bytes.Keys == s.bytes.Keys
    requires next.stats.owned == s.stats.owned && next.stats.peak == s.stats.peak
    requires next.stats.reserves == s.stats.reserves && next.stats.releases == s.stats.releases
    ensures Inv(m, next)
  {
    assert |next.bytes| == |next.bytes.Keys| == |s.bytes|;
    assert forall a :: a in next.bytes <==> a in next.bytes.Keys;
  }

  lemma ZeroKeeps(m: Machine, s: State, i: nat, start: nat, n: nat, reset: bool)
    requires m.Fits() && Inv(m, s) && i < |s.regions| && Covers(s.regions[i], start, n)
    ensures Inv(m, AfterZero(s, start, n, reset))
  {
    CoveredIsOwned(m, s, i, start, n);
    ZeroedBytes(s.bytes, start, n);
    SameKeysKeep(m, s, AfterZero(s, start, n, reset));
  }

  lemma StoreKeeps(m: Machine, s: State, address: nat, value: nat)
    requires m.Fits() && Inv(m, s)
    ensures Inv(m, DoStore(s, address, value))
  {
    SameKeysKeep(m, s, DoStore(s, address, value));
  }

  lemma ReserveStep(m: Machine, s: State, size: nat, alignment: nat, flags: nat, answer: Answer)
    requires m.Fits() && Inv(m, s) && Honest(m, s, Reserve(size, alignment, flags, answer))
    ensures Inv(m, DoReserve(m, s, size, alignment, flags, answer).0)
  {
    if DoReserve(m, s, size, alignment, flags, answer).1 != 0 {
      GrantedRegion(m, s, size, alignment, flags, answer);
      ReserveKeeps(m, s, FirstFree(s.regions, 0).value, answer.address, Rounded(size, m.grain, m.width));
    } else {
      FailedKeeps(m, s);
    }
  }

  lemma SpoiledBytes(bytes: map<nat, nat>, start: nat, n: nat, left: map<nat, nat>)
    requires forall a :: start <= a < start + n ==> a in bytes
    ensures Spoiled(bytes, start, n, left).Keys == bytes.Keys
    ensures KeptOutside(bytes, Spoiled(bytes, start, n, left), start, n)
  {
  }

  lemma SpoiledKeeps(m: Machine, s: State, i: nat, start: nat, n: nat, left: map<nat, nat>)
    requires m.Fits() && Inv(m, s) && i < |s.regions| && Covers(s.regions[i], start, n)
    ensures Inv(m, Failed(s.(bytes := Spoiled(s.bytes, start, n, left))))
  {
    CoveredIsOwned(m, s, i, start, n);
    SpoiledBytes(s.bytes, start, n, left);
    SameKeysKeep(m, s, Failed(s.(bytes := Spoiled(s.bytes, start, n, left))));
  }

  lemma ZeroStep(m: Machine, s: State, address: nat, size: nat, reset: bool, zeroing: Zeroing)
    requires m.Fits() && Inv(m, s)
    ensures Inv(m, DoZero(m, s, address, size, reset, zeroing).0)
  {
    var n := PageRange(m, address, size);
    var f := Find(m, s.regions, address, n);
    if f.None? {
      FailedKeeps(m, s);
    } else if zeroing.Declined? {
      SpoiledKeeps(m, s, f.value, address, n, zeroing.left);
    } else {
      ZeroKeeps(m, s, f.value, address, n, reset);
    }
  }

  lemma ReleaseStep(m: Machine, s: State, address: nat, size: nat, accepted: bool)
    requires m.Fits() && Inv(m, s)
    ensures Inv(m, DoRelease(m, s, address, size, accepted).0)
  {
    if DoRelease(m, s, address, size, accepted).1 {
      ReleaseKeeps(m, s, Find(m, s.regions, address, PageRange(m, address, size)).value);
    } else {
      FailedKeeps(m, s);
    }
  }

  lemma CommitStep(m: Machine, s: State, address: nat, size: nat)
    requires m.Fits() && Inv(m, s)
    ensures Inv(m, DoCommit(m, s, address, size).0)
  {
    FailedKeeps(m, s);
  }

  lemma ExecKeeps(m: Machine, s: State, op: Op)
    requires m.Fits() && Inv(m, s) && Honest(m, s, op)
    ensures Inv(m, Exec(m, s, op))
  {
    match op
    case Reserve(size, alignment, flags, answer) => ReserveStep(m, s, size, alignment, flags, answer);
    case Commit(address, size) => CommitStep(m, s, address, size);
    case Zero(address, size, reset, zeroing) => ZeroStep(m, s, address, size, reset, zeroing);
    case Release(address, size, accepted) => ReleaseStep(m, s, address, size, accepted);
    case Store(address, value) => StoreKeeps(m, s, address, value);
  }

  // Runs

  function Run(m: Machine, s: State, ops: seq<Op>): State
    requires m.Fits()
    decreases |ops|
  {
    if ops == [] then s else Run(m, Exec(m, s, ops[0]), ops[1..])
  }

  ghost predicate HonestRun(m: Machine, s: State, ops: seq<Op>)
    requires m.Fits()
    decreases |ops|
  {
    ops == [] || (Honest(m, s, ops[0]) && HonestRun(m, Exec(m, s, ops[0]), ops[1..]))
  }

  lemma EmptyInv(m: Machine, n: nat)
    requires m.Fits() && n == REGIONS
    ensures Inv(m, State(NoRegions(n), Stats(0, 0, 0, 0, 0, 0, 0, 0), map[]))
  {
    SumOfFree(n, true);
    SumOfFree(n, false);
  }

  lemma InitialInv(m: Machine)
    requires m.Fits()
    ensures Inv(m, Initial())
  {
    EmptyInv(m, REGIONS);
  }

  /** Whatever the calls and the answers, the ledger stays sound. */
  lemma {:induction false} RunKeeps(m: Machine, s: State, ops: seq<Op>)
    requires m.Fits() && Inv(m, s) && HonestRun(m, s, ops)
    ensures Inv(m, Run(m, s, ops))
    decreases |ops|
  {
    if ops != [] {
      ExecKeeps(m, s, ops[0]);
      RunKeeps(m, Exec(m, s, ops[0]), ops[1..]);
    }
  }

  /** The books after any run: regions apart and whole, bytes owned, counters and live regions agree. */
  lemma BooksBalance(m: Machine, ops: seq<Op>)
    requires m.Fits() && HonestRun(m, Initial(), ops)
    ensures var s := Run(m, Initial(), ops);
            && Layout(m, s.regions)
            && s.stats.owned == Sum(s.regions, true) == |s.bytes| <= s.stats.peak
            && s.stats.owned <= SizeMax(m.width)
            && (s.stats.reserves < U64Max() ==> s.stats.reserves - s.stats.releases == Sum(s.regions, false))
  {
    InitialInv(m);
    RunKeeps(m, Initial(), ops);
    OwnedFits(m, Run(m, Initial(), ops));
  }

  // find

  /** The whole range lies in the region. */
  ghost predicate Contains(r: Region, start: nat, size: nat) {
    r.address != 0 && r.address <= start && start + size <= r.address + r.size
  }

  /** find returns the one region that contains the whole range, and none only if there is none. */
  lemma FindIsExact(m: Machine, s: State, start: nat, size: nat)
    requires m.Fits() && Inv(m, s) && size > 0
    ensures Find(m, s.regions, start, size).Some? <==>
            exists i :: 0 <= i < |s.regions| && Contains(s.regions[i], start, size)
    ensures forall i :: 0 <= i < |s.regions| && Contains(s.regions[i], start, size) ==>
              Find(m, s.regions, start, size) == Some(i)
  {
    var f := Find(m, s.regions, start, size);
    if f.Some? { assert Contains(s.regions[f.value], start, size); }
    forall i | 0 <= i < |s.regions| && Contains(s.regions[i], start, size) ensures f == Some(i) {
      assert RegionOk(m, s.regions[i]) && Covers(s.regions[i], start, size);
      var j := f.value;
      assert i < j ==> Apart(s.regions[i], s.regions[j]);
      assert j < i ==> Apart(s.regions[j], s.regions[i]);
    }
  }

  // Storage

  /** A reservation starts zeroed and touches nothing that was owned before. */
  lemma ReservedIsZeroed(m: Machine, s: State, size: nat, alignment: nat, flags: nat, answer: Answer)
    requires m.Fits() && Inv(m, s) && Honest(m, s, Reserve(size, alignment, flags, answer))
    ensures var (next, p) := DoReserve(m, s, size, alignment, flags, answer);
            && (p == 0 ==> next == Failed(s))
            && (p != 0 ==>
                  && (forall a :: p <= a < p + size ==> a in next.bytes && next.bytes[a] == 0)
                  && (forall a :: a in s.bytes ==> a in next.bytes && next.bytes[a] == s.bytes[a])
                  && (alignment > 0 ==> p % alignment == 0))
  {
    if DoReserve(m, s, size, alignment, flags, answer).1 != 0 {
      GrantedRegion(m, s, size, alignment, flags, answer);
      GrantedBytes(s.bytes, answer.address, Rounded(size, m.grain, m.width));
    }
  }

  lemma GrantedBytes(bytes: map<nat, nat>, p: nat, n: nat)
    requires forall a :: p <= a < p + n ==> a !in bytes
    ensures var next := bytes + Zeros(p, n);
            && (forall a :: p <= a < p + n ==> a in next && next[a] == 0)
            && (forall a :: a in bytes ==> a in next && next[a] == bytes[a])
  {
  }

  /** reserve succeeds exactly when the request is one the boundary takes, a slot is free, and the provider grants
      storage that is aligned and does not wrap. */
  lemma ReserveIsExact(m: Machine, s: State, size: nat, alignment: nat, flags: nat, answer: Answer)
    requires m.Fits() && size <= SizeMax(m.width)
    ensures DoReserve(m, s, size, alignment, flags, answer).1 != 0 <==>
            && size > 0 && flags == 0 && (alignment == 0 || IsPowerOfTwo(alignment))
            && (exists i :: 0 <= i < |s.regions| && s.regions[i].address == 0)
            && exists n: nat :: IsLeastMultiple(n, size, m.grain) && Grantable(m, n, alignment, answer)
  {
    var n := Rounded(size, m.grain, m.width);
    RoundedIsLeast(size, m.grain, m.width);
    if n > 0 {
      LeastOfLeast(n, size, m.grain);
      GeometryAccepts(n, alignment, m.grain, m.width);
      if Grantable(m, n, alignment, answer) { assert IsLeastMultiple(n, n, m.grain); }
    }
    forall k: nat | IsLeastMultiple(k, size, m.grain) && Grantable(m, k, alignment, answer) && size > 0
      ensures k == n > 0
    {
      Pow2Grows(m.width - 1, m.width);
    }
  }

  /** The padded block fits `isize::MAX`, and the answer is storage on the effective alignment that ends as a word. */
  ghost predicate Grantable(m: Machine, n: nat, alignment: nat, answer: Answer)
    requires m.Fits()
  {
    var a := if alignment >= m.grain then alignment else m.grain;
    && n + (a - m.grain) <= IsizeMax(m.width)
    && answer.Granted? && answer.address != 0 && answer.address % a == 0 && answer.address + n <= SizeMax(m.width)
  }

  lemma LeastOfLeast(n: nat, size: nat, grain: nat)
    requires IsLeastMultiple(n, size, grain)
    ensures forall k: nat :: IsLeastMultiple(k, n, grain) <==> k == n
  {
    assert IsLeastMultiple(n, n, grain);
  }

  /** commit answers whether the grain range lies in one region, and changes no byte and no region. */
  lemma CommitPreserves(m: Machine, s: State, address: nat, size: nat)
    requires m.Fits() && Inv(m, s) && address <= SizeMax(m.width) && size <= SizeMax(m.width)
    ensures var (next, ok) := DoCommit(m, s, address, size);
            && next.bytes == s.bytes && next.regions == s.regions
            && (ok <==> GrainRangeIsOwned(m, s, address, size))
  {
    RangeFound(m, s, address, size);
  }

  /** The address is on a grain, and the size rounded up to grains lies in one live region from there. */
  ghost predicate GrainRangeIsOwned(m: Machine, s: State, address: nat, size: nat)
    requires m.Fits()
  {
    && size > 0 && address % m.grain == 0
    && exists i, n: nat ::
         0 <= i < |s.regions| && IsLeastMultiple(n, size, m.grain) && Contains(s.regions[i], address, n)
  }

  lemma RangeFound(m: Machine, s: State, address: nat, size: nat)
    requires m.Fits() && Inv(m, s) && address <= SizeMax(m.width) && size <= SizeMax(m.width)
    ensures Find(m, s.regions, address, PageRange(m, address, size)).Some? <==> GrainRangeIsOwned(m, s, address, size)
  {
    var n := PageRange(m, address, size);
    RoundedIsLeast(size, m.grain, m.width);
    if n > 0 { FindIsExact(m, s, address, n); }
    if GrainRangeIsOwned(m, s, address, size) {
      var i, k: nat :| 0 <= i < |s.regions| && IsLeastMultiple(k, size, m.grain) && Contains(s.regions[i], address, k);
      assert RegionOk(m, s.regions[i]);
    }
  }

  ghost predicate ZeroedExactly(before: map<nat, nat>, after: map<nat, nat>, address: nat, n: nat)
    requires before.Keys == after.Keys
  {
    forall a :: a in before ==> after[a] == if address <= a < address + n then 0 else before[a]
  }

  /** Nothing but the range has changed. */
  ghost predicate KeptOutside(before: map<nat, nat>, after: map<nat, nat>, address: nat, n: nat)
    requires before.Keys == after.Keys
  {
    forall a :: a in before && !(address <= a < address + n) ==> after[a] == before[a]
  }

  /** decommit and reset zero exactly the grain range when they succeed. When they fail nothing has changed, but for
      what a provider that refuses leaves in that range. */
  lemma ZeroIsExact(m: Machine, s: State, address: nat, size: nat, reset: bool, zeroing: Zeroing)
    requires m.Fits() && Inv(m, s) && address <= SizeMax(m.width) && size <= SizeMax(m.width)
    ensures var (next, ok) := DoZero(m, s, address, size, reset, zeroing);
            && next.regions == s.regions && next.bytes.Keys == s.bytes.Keys
            && (ok <==> zeroing.Accepted? && GrainRangeIsOwned(m, s, address, size))
            && (!GrainRangeIsOwned(m, s, address, size) ==> next == Failed(s))
            && (!ok ==> next.stats == Failed(s).stats)
            && (GrainRangeIsOwned(m, s, address, size) ==>
                  exists n: nat :: IsLeastMultiple(n, size, m.grain) && ZeroEffect(s.bytes, next.bytes, address, n, ok))
  {
    var n := PageRange(m, address, size);
    RangeFound(m, s, address, size);
    var f := Find(m, s.regions, address, n);
    if f.Some? {
      CoveredIsOwned(m, s, f.value, address, n);
      ZeroedBytes(s.bytes, address, n);
      if zeroing.Declined? { SpoiledBytes(s.bytes, address, n, zeroing.left); }
      RoundedIsLeast(size, m.grain, m.width);
      assert ZeroEffect(s.bytes, DoZero(m, s, address, size, reset, zeroing).0.bytes, address, n, zeroing.Accepted?);
    }
  }

  ghost predicate ZeroEffect(before: map<nat, nat>, after: map<nat, nat>, address: nat, n: nat, ok: bool)
    requires before.Keys == after.Keys
  {
    if ok then ZeroedExactly(before, after, address, n) else KeptOutside(before, after, address, n)
  }

  lemma ZeroedBytes(bytes: map<nat, nat>, start: nat, n: nat)
    requires forall a :: start <= a < start + n ==> a in bytes
    ensures (bytes + Zeros(start, n)).Keys == bytes.Keys
    ensures ZeroedExactly(bytes, bytes + Zeros(start, n), start, n)
  {
  }

  /** release succeeds exactly for the base and the rounded size of one live region. */
  lemma ReleaseIsExact(m: Machine, s: State, address: nat, size: nat, accepted: bool)
    requires m.Fits() && Inv(m, s) && address <= SizeMax(m.width) && size <= SizeMax(m.width)
    ensures var (next, ok) := DoRelease(m, s, address, size, accepted);
            && (ok <==> accepted && size > 0 && exists i :: 0 <= i < |s.regions| && s.regions[i].address == address != 0
                                                     && IsLeastMultiple(s.regions[i].size, size, m.grain))
            && (!ok ==> next == Failed(s))
            && (ok ==> forall a ::
                  a in next.bytes <==> a in s.bytes && !(address <= a < address + Rounded(size, m.grain, m.width)))
            && (ok ==> forall a :: a in next.bytes ==> next.bytes[a] == s.bytes[a])
  {
    var n := PageRange(m, address, size);
    RoundedIsLeast(size, m.grain, m.width);
    forall i | 0 <= i < |s.regions| && s.regions[i].address == address != 0
               && IsLeastMultiple(s.regions[i].size, size, m.grain) && size > 0
      ensures DoRelease(m, s, address, size, true).1
    {
      ReleasePasses(m, s, i, size);
    }
  }

  /** A live region is given back by any request that rounds to its size: the ledger size is a fixed point. */
  lemma ReleasePasses(m: Machine, s: State, i: nat, size: nat)
    requires m.Fits() && Inv(m, s) && i < |s.regions| && s.regions[i].address != 0
    requires 0 < size <= SizeMax(m.width) && IsLeastMultiple(s.regions[i].size, size, m.grain)
    ensures DoRelease(m, s, s.regions[i].address, size, true) ==
            (AfterRelease(s, i, s.regions[i].address, s.regions[i].size), true)
  {
    var r := s.regions[i];
    assert RegionOk(m, r);
    RoundedIsLeast(size, m.grain, m.width);
    var n := Rounded(size, m.grain, m.width);
    assert n == r.size;
    RoundedIsFixed(size, m.grain, m.width);
    FindIsExact(m, s, r.address, n);
    assert Contains(r, r.address, n);
  }

  /** Reserving and then releasing with the same request gives back the regions and every byte. */
  lemma ReserveThenRelease(m: Machine, s: State, size: nat, alignment: nat, answer: Answer)
    requires m.Fits() && Inv(m, s) && Honest(m, s, Reserve(size, alignment, 0, answer))
    requires DoReserve(m, s, size, alignment, 0, answer).1 != 0
    ensures var (mid, p) := DoReserve(m, s, size, alignment, 0, answer);
            var (next, ok) := DoRelease(m, mid, p, size, true);
            ok && next.regions == s.regions && next.bytes == s.bytes && next.stats.owned == s.stats.owned
  {
    var (mid, p) := DoReserve(m, s, size, alignment, 0, answer);
    var n := Rounded(size, m.grain, m.width);
    GrantedRegion(m, s, size, alignment, 0, answer);
    ReserveStep(m, s, size, alignment, 0, answer);
    var slot := FirstFree(s.regions, 0).value;
    assert size > 0 by { RoundedIsLeast(size, m.grain, m.width); }
    ReleasePasses(m, mid, slot, size);
    GiveBack(m, s, slot, p, n);
  }

  lemma GiveBack(m: Machine, s: State, slot: nat, p: nat, n: nat)
    requires m.Fits() && Inv(m, s) && slot < |s.regions| && s.regions[slot].address == 0
    requires p != 0 && RegionOk(m, Region(p, n)) && Exclusive(s, p, n)
    ensures var next := AfterRelease(AfterReserve(s, slot, p, n), slot, p, n);
            next.regions == s.regions && next.bytes == s.bytes && next.stats.owned == s.stats.owned
  {
    var mid := AfterReserve(s, slot, p, n);
    ReserveKeeps(m, s, slot, p, n);
    AddedBytes(s.bytes, p, n);
    OwnedFits(m, mid);
    SlotFreed(m, s.regions, slot, Region(p, n));
    BytesFreed(s.bytes, p, n);
  }

  lemma SlotFreed(m: Machine, regions: seq<Region>, slot: nat, r: Region)
    requires m.Fits() && Layout(m, regions) && slot < |regions| && regions[slot].address == 0
    ensures regions[slot := r][slot := FREE] == regions
  {
    assert RegionOk(m, regions[slot]);
  }

  lemma BytesFreed(bytes: map<nat, nat>, p: nat, n: nat)
    requires forall a :: p <= a < p + n ==> a !in bytes
    ensures bytes + Zeros(p, n) - Span(p, n) == bytes
  {
  }

  /** The address an operation works on, if it works on storage that exists. */
  function Target(op: Op): nat {
    match op
    case Reserve(_, _, _, _) => 0
    case Commit(address, _) => address
    case Zero(address, _, _, _) => address
    case Release(address, _, _) => address
    case Store(address, _) => address
  }

  /** The region in slot `i` is still there with every byte it had. */
  ghost predicate Untouched(s: State, next: State, i: nat)
    requires i < |s.regions|
  {
    && i < |next.regions| && next.regions[i] == s.regions[i]
    && forall a: nat :: Inside(s.regions[i], a) ==> a in s.bytes && a in next.bytes && next.bytes[a] == s.bytes[a]
  }

  lemma LiveBytes(m: Machine, s: State, i: nat)
    requires m.Fits() && Inv(m, s) && i < |s.regions|
    ensures Untouched(s, s, i)
  {
    forall a: nat | Inside(s.regions[i], a) ensures a in s.bytes { assert Owned(s.regions, a); }
  }

  /** No operation reaches into a live region other than the one its address is in. */
  lemma OtherRegionsKeep(m: Machine, s: State, op: Op, i: nat)
    requires m.Fits() && Inv(m, s) && Honest(m, s, op)
    requires i < |s.regions| && s.regions[i].address != 0 && !Inside(s.regions[i], Target(op))
    ensures Untouched(s, Exec(m, s, op), i)
  {
    LiveBytes(m, s, i);
    match op
    case Reserve(size, alignment, flags, answer) => ReserveElsewhere(m, s, size, alignment, flags, answer, i);
    case Commit(address, size) =>
    case Zero(address, size, reset, zeroing) => ZeroElsewhere(m, s, address, size, reset, zeroing, i);
    case Release(address, size, accepted) => ReleaseElsewhere(m, s, address, size, accepted, i);
    case Store(address, value) =>
  }

  lemma ReserveElsewhere(m: Machine, s: State, size: nat, alignment: nat, flags: nat, answer: Answer, i: nat)
    requires m.Fits() && Inv(m, s) && Honest(m, s, Reserve(size, alignment, flags, answer))
    requires i < |s.regions| && s.regions[i].address != 0
    ensures Untouched(s, DoReserve(m, s, size, alignment, flags, answer).0, i)
  {
    LiveBytes(m, s, i);
    ReservedIsZeroed(m, s, size, alignment, flags, answer);
  }

  lemma ZeroElsewhere(m: Machine, s: State, address: nat, size: nat, reset: bool, zeroing: Zeroing, i: nat)
    requires m.Fits() && Inv(m, s) && i < |s.regions| && !Inside(s.regions[i], address)
    ensures Untouched(s, DoZero(m, s, address, size, reset, zeroing).0, i)
  {
    LiveBytes(m, s, i);
    var n := PageRange(m, address, size);
    var f := Find(m, s.regions, address, n);
    if f.Some? { CoveredIsElsewhere(m, s, i, f.value, address, n); }
  }

  lemma ReleaseElsewhere(m: Machine, s: State, address: nat, size: nat, accepted: bool, i: nat)
    requires m.Fits() && Inv(m, s) && i < |s.regions| && !Inside(s.regions[i], address)
    ensures Untouched(s, DoRelease(m, s, address, size, accepted).0, i)
  {
    LiveBytes(m, s, i);
    var n := PageRange(m, address, size);
    var f := Find(m, s.regions, address, n);
    if f.Some? { CoveredIsElsewhere(m, s, i, f.value, address, n); }
  }

  lemma CoveredIsElsewhere(m: Machine, s: State, i: nat, j: nat, start: nat, n: nat)
    requires m.Fits() && Inv(m, s) && i < |s.regions| && j < |s.regions| && n > 0
    requires Covers(s.regions[j], start, n) && !Inside(s.regions[i], start)
    ensures i != j && forall a: nat :: Inside(s.regions[i], a) ==> !(start <= a < start + n)
  {
    assert i < j ==> Apart(s.regions[i], s.regions[j]);
    assert j < i ==> Apart(s.regions[j], s.regions[i]);
  }
}
