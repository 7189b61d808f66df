/**
 Size rounding at the boundary and in the GC adapter: mask arithmetic on words of `w` bits, and
 the least multiple of the page that it computes.
 */
module Rounding {
  import opened Basics
  import opened Words

  function SizeMax(w: nat): nat { Pow2(w) - 1 }

  function IsizeMax(w: nat): nat
    requires w > 0
  {
    Pow2(w - 1) - 1
  }

  /** `(size + page - 1) & ~(page - 1)` */
  function Masked(size: nat, page: nat, w: nat): nat
    requires page > 0
  {
    And(size + (page - 1), Not(page - 1, w))
  }

  /** round_size of the boundary */
  function RoundSize(size: nat, page: nat, w: nat): Option<nat>
    requires w > 0
  {
    if size == 0 || !IsPowerOfTwo(page) || page == 0 then None
    else if size + (page - 1) > SizeMax(w) then None
    else
      var rounded := Masked(size, page, w);
      if rounded <= IsizeMax(w) then Some(rounded) else None
  }

  /** geometry of the boundary: the rounded size and the effective alignment */
  function Geometry(size: nat, alignment: nat, page: nat, w: nat): Option<(nat, nat)>
    requires w > 0
  {
    match RoundSize(size, page, w)
    case None => None
    case Some(rounded) =>
      if alignment != 0 && !IsPowerOfTwo(alignment) then None
      else
        var a := if alignment >= page then alignment else page;
        if rounded + (a - page) > SizeMax(w) || rounded + (a - page) > IsizeMax(w) then None
        else Some((rounded, a))
  }

  /** rounded of the adapter, with 0 for a size it refuses */
  function Rounded(size: nat, grain: nat, w: nat): nat
    requires 0 < grain <= Pow2(w)
  {
    if size == 0 || size > SizeMax(w) - (grain - 1) then 0 else Masked(size, grain, w)
  }

  /** `m` is the smallest multiple of `page` that is not below `size`. */
  ghost predicate IsLeastMultiple(m: nat, size: nat, page: nat)
  {
    && page > 0 && m % page == 0 && m >= size
    && forall q: nat :: q % page == 0 && q >= size ==> m <= q
  }

  lemma LeastMultiple(size: nat, page: nat) returns (m: nat)
    requires page > 0
    ensures IsLeastMultiple(m, size, page)
    ensures m == (size + page - 1) - (size + page - 1) % page
  {
    var top := size + page - 1;
    m := top - top % page;
    MultipleRemainder(top / page, page);
    assert m == top / page * page;
    forall q: nat | q % page == 0 && q >= size ensures m <= q {
      if q < m { MultiplesApart(q, m, page); }
    }
  }

  /** Two different multiples are at least one page apart. */
  lemma MultiplesApart(a: nat, b: nat, page: nat)
    requires page > 0 && a % page == 0 && b % page == 0 && a < b
    ensures a + page <= b
  {
    var i, j := a / page, b / page;
    assert a == i * page && b == j * page;
    Ordered(j, i, page);
    Ordered(i + 1, j, page);
  }

  lemma MaskedIsLeast(size: nat, page: nat, w: nat)
    requires IsPowerOfTwo(page) && page <= Pow2(w) && size + (page - 1) <= SizeMax(w)
    ensures page > 0 && IsLeastMultiple(Masked(size, page, w), size, page)
    ensures Masked(size, page, w) < size + page
  {
    var k := Exponent(page);
    if k > w { Pow2Grows(w, k); }
    var top := size + (page - 1);
    MaskClearsRemainder(top, k, w);
    var m := LeastMultiple(size, page);
    assert Masked(size, page, w) == top - top % page == m;
  }

  /** A power of two that is a word is at most half of the word's range. */
  lemma PageIsHalf(page: nat, w: nat)
    requires w > 0 && IsPowerOfTwo(page) && page <= SizeMax(w)
    ensures 0 < page <= Pow2(w - 1)
  {
    var k := Exponent(page);
    Pow2Orders(k, w);
    Pow2Grows(k, w - 1);
  }

  /** round_size answers exactly when the least page multiple fits `isize::MAX`, and with that multiple. */
  lemma RoundSizeIsLeast(size: nat, page: nat, w: nat)
    requires w > 0 && size <= SizeMax(w) && page <= SizeMax(w)
    ensures RoundSize(size, page, w).Some? <==>
            size > 0 && IsPowerOfTwo(page) && exists m: nat :: IsLeastMultiple(m, size, page) && m <= IsizeMax(w)
    ensures RoundSize(size, page, w).Some? ==> IsLeastMultiple(RoundSize(size, page, w).value, size, page)
  {
    if size > 0 && IsPowerOfTwo(page) {
      PageIsHalf(page, w);
      var m := LeastMultiple(size, page);
      if size + (page - 1) <= SizeMax(w) {
        MaskedIsLeast(size, page, w);
      } else {
        assert size > IsizeMax(w);
      }
    }
  }

  /** The first multiple of `a` at or after a page boundary, less than `a` away in whole pages. */
  lemma AlignedStart(base: nat, a: nat, page: nat) returns (start: nat)
    requires page > 0 && a > 0 && a % page == 0 && base % page == 0
    ensures base <= start <= base + (a - page) && start % a == 0
  {
    start := LeastMultiple(base, a);
    Divides(start, a, page);
    assert start < base + a by { MultipleRemainder((base + a - 1) / a, a); }
    if start + page > base + a {
      assert (base + a) % page == 0 by { SumOfMultiples(base, a, page); }
      MultiplesApart(start, base + a, page);
    }
  }

  lemma SumOfMultiples(x: nat, y: nat, page: nat)
    requires page > 0 && x % page == 0 && y % page == 0
    ensures (x + y) % page == 0
  {
    assert x + y == (x / page + y / page) * page;
    MultipleRemainder(x / page + y / page, page);
  }

  lemma Divides(x: nat, a: nat, page: nat)
    requires page > 0 && a > 0 && a % page == 0 && x % a == 0
    ensures x % page == 0
  {
    var q, c := x / a, a / page;
    assert x == q * a && a == c * page;
    assert q * (c * page) == (q * c) * page;
    MultipleRemainder(q * c, page);
  }

  /** A range of `size` bytes on an `a` boundary lies inside the block. */
  ghost predicate HoldsAligned(base: nat, length: nat, size: nat, a: nat) {
    a > 0 && exists start: nat :: base <= start && start % a == 0 && start + size <= base + length
  }

  /** geometry's block of `size + alignment - page` bytes is enough at every page boundary. */
  lemma GeometrySuffices(size: nat, alignment: nat, page: nat, w: nat, base: nat)
    requires w > 0 && size <= SizeMax(w) && page <= SizeMax(w)
    requires Geometry(size, alignment, page, w).Some? && page > 0 && base % page == 0
    ensures var (n, a) := Geometry(size, alignment, page, w).value;
            n >= size && a >= alignment && a >= page && n + a - page <= IsizeMax(w)
            && HoldsAligned(base, n + a - page, n, a)
  {
    var (n, a) := Geometry(size, alignment, page, w).value;
    RoundSizeIsLeast(size, page, w);
    PowersDivide(page, a);
    var start := AlignedStart(base, a, page);
    assert start + n <= base + (n + a - page);
  }

  /** No smaller block is enough: the one at the first page boundary holds no aligned range. */
  lemma GeometryIsTight(size: nat, alignment: nat, page: nat, w: nat, length: nat)
    requires w > 0 && size <= SizeMax(w) && page <= SizeMax(w)
    requires Geometry(size, alignment, page, w).Some? && page > 0
    requires var (n, a) := Geometry(size, alignment, page, w).value; length < n + a - page
    ensures var (n, a) := Geometry(size, alignment, page, w).value; !HoldsAligned(page, length, n, a)
  {
    var (n, a) := Geometry(size, alignment, page, w).value;
    if HoldsAligned(page, length, n, a) {
      var start: nat :| page <= start && start % a == 0 && start + n <= page + length;
      assert 0 % a == 0 by { MultipleRemainder(0, a); }
      MultiplesApart(0, start, a);
    }
  }

  /** geometry accepts exactly the requests whose padded block fits `isize::MAX`. */
  lemma GeometryAccepts(size: nat, alignment: nat, page: nat, w: nat)
    requires w > 0 && size <= SizeMax(w) && page <= SizeMax(w)
    ensures Geometry(size, alignment, page, w).Some? <==>
            && size > 0 && IsPowerOfTwo(page) && (alignment == 0 || IsPowerOfTwo(alignment))
            && exists m: nat :: IsLeastMultiple(m, size, page)
                 && m + (if alignment >= page then alignment - page else 0) <= IsizeMax(w)
    ensures Geometry(size, alignment, page, w).Some? ==>
              var (n, a) := Geometry(size, alignment, page, w).value;
              IsLeastMultiple(n, size, page) && a == if alignment >= page then alignment else page
  {
    RoundSizeIsLeast(size, page, w);
    Pow2Grows(w - 1, w);
    if size > 0 && IsPowerOfTwo(page) { PageIsHalf(page, w); }
  }

  /** The adapter's rounding is 0 or the same least multiple, wherever that is a word. */
  lemma RoundedIsLeast(size: nat, grain: nat, w: nat)
    requires w > 0 && IsPowerOfTwo(grain) && 0 < grain <= SizeMax(w) && size <= SizeMax(w)
    ensures Rounded(size, grain, w) <= SizeMax(w)
    ensures Rounded(size, grain, w) > 0 ==> size > 0 && IsLeastMultiple(Rounded(size, grain, w), size, grain)
    ensures Rounded(size, grain, w) == 0 <==>
            size == 0 || !exists m: nat :: IsLeastMultiple(m, size, grain) && m <= SizeMax(w)
  {
    if size > 0 {
      var m := LeastMultiple(size, grain);
      var k := Exponent(grain);
      Pow2Orders(k, w);
      Pow2Splits(k, w);
      MultipleRemainder(Pow2(w - k), grain);
      if size + (grain - 1) <= SizeMax(w) {
        MaskedIsLeast(size, grain, w);
      } else {
        assert m >= Pow2(w) by {
          if m < Pow2(w) { MultiplesApart(m, Pow2(w), grain); }
        }
      }
    }
  }

  /** Wherever the boundary accepts a size, the adapter rounds it to the same value. */
  lemma RoundedAgrees(size: nat, grain: nat, w: nat)
    requires w > 0 && 0 < grain <= SizeMax(w) && size <= SizeMax(w)
    requires RoundSize(size, grain, w).Some?
    ensures Rounded(size, grain, w) == RoundSize(size, grain, w).value
  {
  }

  /** A size that was rounded once is a fixed point of both roundings, up to the boundary's limit. */
  lemma RoundedIsFixed(size: nat, grain: nat, w: nat)
    requires w > 0 && IsPowerOfTwo(grain) && 0 < grain <= SizeMax(w) && size <= SizeMax(w)
    requires Rounded(size, grain, w) > 0
    ensures var n := Rounded(size, grain, w);
            && Rounded(n, grain, w) == n
            && RoundSize(n, grain, w) == if n <= IsizeMax(w) then Some(n) else None
  {
    var n := Rounded(size, grain, w);
    RoundedIsLeast(size, grain, w);
    assert IsLeastMultiple(n, n, grain);
    RoundedIsLeast(n, grain, w);
    RoundSizeIsLeast(n, grain, w);
  }
}
