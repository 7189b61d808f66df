/** The adapter as it runs: the region table is a fixed array searched by loops, the counters are updated in place. */
module LedgerAdapter {
  import opened Basics
  import opened Rounding
  import opened Ledger

  class Adapter {
    const machine: Machine
    const regions: array<Region>
    var stats: Stats
    var bytes: map<nat, nat>

    ghost predicate Valid() { machine.Fits() && regions.Length == REGIONS }

    ghost function Value(): State
      reads this, regions
    {
      State(regions[..], stats, bytes)
    }

    constructor (m: Machine)
      requires m.Fits()
      ensures Valid() && fresh(regions) && machine == m && Value() == Initial()
    {
      machine := m;
      regions := new Region[REGIONS](_ => FREE);
      stats := Initial().stats;
      bytes := map[];
      new;
      assert regions[..] == NoRegions(REGIONS);
    }

    method Find(start: nat, size: nat) returns (i: Option<nat>)
      requires Valid()
      ensures i == Ledger.Find(machine, regions[..], start, size)
    {
      if start == 0 || size == 0 || start > SizeMax(machine.width) - size { return None; }
      var k := 0;
      while k < regions.Length
        invariant 0 <= k <= regions.Length
        invariant FirstCovering(regions[..], start, size, 0) == FirstCovering(regions[..], start, size, k)
      {
        if Covers(regions[k], start, size) { return Some(k); }
        k := k + 1;
      }
      return None;
    }

    method FindFree() returns (i: Option<nat>)
      requires Valid()
      ensures i == FirstFree(regions[..], 0)
    {
      var k := 0;
      while k < regions.Length
        invariant 0 <= k <= regions.Length
        invariant FirstFree(regions[..], 0) == FirstFree(regions[..], k)
      {
        if regions[k].address == 0 { return Some(k); }
        k := k + 1;
      }
      return None;
    }

    method Fail()
      modifies this`stats
      ensures Value() == Failed(old(Value()))
    {
      stats := stats.(failures := Increment(stats.failures));
    }

    method Reserve(size: nat, alignment: nat, flags: nat, answer: Answer) returns (p: nat)
      requires Valid()
      modifies this, regions
      ensures (Value(), p) == DoReserve(machine, old(Value()), size, alignment, flags, answer)
    {
      var n := Rounded(size, machine.grain, machine.width);
      if n == 0 || flags != 0 { Fail(); return 0; }
      var slot := FindFree();
      if slot.None? { Fail(); return 0; }
      var granted := LinearAllocate(machine, n, alignment, 0, answer);
      if granted.None? { Fail(); return 0; }
      p := granted.value;
      regions[slot.value] := Region(p, n);
      stats := stats.(reserves := Increment(stats.reserves), owned := Wrap(stats.owned + n));
      if stats.owned > stats.peak { stats := stats.(peak := stats.owned); }
      bytes := bytes + Zeros(p, n);
    }

    method Commit(address: nat, size: nat) returns (ok: bool)
      requires Valid()
      modifies this`stats
      ensures (Value(), ok) == DoCommit(machine, old(Value()), address, size)
    {
      var found := Find(address, PageRange(machine, address, size));
      if found.None? { Fail(); return false; }
      stats := stats.(commits := Increment(stats.commits));
      return true;
    }

    method Zero(address: nat, size: nat, reset: bool, zeroing: Zeroing) returns (ok: bool)
      requires Valid()
      modifies this
      ensures (Value(), ok) == DoZero(machine, old(Value()), address, size, reset, zeroing)
    {
      var n := PageRange(machine, address, size);
      var found := Find(address, n);
      if found.None? || !LinearZero(machine, address, n) { Fail(); return false; }
      if zeroing.Declined? {
        bytes := Spoiled(bytes, address, n, zeroing.left);
        Fail();
        return false;
      }
      bytes := bytes + Zeros(address, n);
      stats := if reset then stats.(resets := Increment(stats.resets))
               else stats.(decommits := Increment(stats.decommits));
      return true;
    }

    method Release(address: nat, size: nat, accepted: bool) returns (ok: bool)
      requires Valid()
      modifies this, regions
      ensures (Value(), ok) == DoRelease(machine, old(Value()), address, size, accepted)
    {
      var n := PageRange(machine, address, size);
      var found := Find(address, n);
      if found.None? { Fail(); return false; }
      var r := regions[found.value];
      if r.address != address || r.size != n || !LinearRelease(machine, address, n, accepted) { Fail(); return false; }
      stats := stats.(owned := Wrap(stats.owned - n));
      regions[found.value] := FREE;
      stats := stats.(releases := Increment(stats.releases));
      bytes := bytes - Span(address, n);
      return true;
    }
  }
}
