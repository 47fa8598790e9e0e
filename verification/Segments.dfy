/**
 Segment accounting: the greedy count of blk_recount_segments and the scatterlist that
 blk_rq_map_sg builds over a whole chain of bios.
 */
module Segments {
  import opened Types

  const PAGE_SIZE: nat := 4096

  /** struct bio_vec; the page is given by its frame number. */
  datatype Vec = Vec(page: nat, offset: nat, len: nat)

  /** The queue limits that segment code looks at. */
  datatype Limits = Limits(cluster: bool, maxSegmentSize: nat, boundary: nat, vmergeBoundary: nat,
                           maxPhysSegments: nat, maxHwSegments: nat, maxSectors: nat)

  /** seg_boundary_mask + 1, a power of two. */
  predicate LimitsOk(q: Limits) {
    q.boundary > 0
  }

  /** bvec_to_phys */
  function Phys(v: Vec): nat {
    v.page * PAGE_SIZE + v.offset
  }

  /** BIOVEC_PHYS_MERGEABLE */
  predicate Adjacent(a: Vec, b: Vec) {
    Phys(a) + a.len == Phys(b)
  }

  /** __BIO_SEG_BOUNDARY: first and last byte lie in one boundary block. */
  predicate OneBlock(q: Limits, first: nat, end: nat)
    requires LimitsOk(q)
  {
    first / q.boundary == (end - 1) / q.boundary
  }

  /** BIOVEC_VIRT_MERGEABLE */
  predicate VirtMergeable(q: Limits, a: Vec, b: Vec) {
    if q.vmergeBoundary == 0 then Phys(a) + a.len == 0 && Phys(b) == 0
    else (Phys(a) + a.len) % q.vmergeBoundary == 0 && Phys(b) % q.vmergeBoundary == 0
  }

  /** The tests that do not depend on how long the segment already is. */
  predicate CanFollow(q: Limits, a: Vec, b: Vec)
    requires LimitsOk(q)
  {
    q.cluster && Adjacent(a, b) && OneBlock(q, Phys(a), Phys(b) + b.len)
  }

  // ------------------------------------------------------------------ counting

  /** The locals of blk_recount_segments. */
  datatype Tally = Tally(prev: Option<Vec>, size: nat, phys: nat, hw: nat)

  const Zero: Tally := Tally(None, 0, 0, 0)

  predicate Extends(q: Limits, t: Tally, v: Vec)
    requires LimitsOk(q)
  {
    t.prev.Some? && t.size + v.len <= q.maxSegmentSize && CanFollow(q, t.prev.value, v)
  }

  function Count1(q: Limits, t: Tally, v: Vec): Tally
    requires LimitsOk(q)
  {
    if Extends(q, t, v) then t.(prev := Some(v), size := t.size + v.len)
    else Tally(Some(v), v.len, t.phys + 1,
               if t.prev.None? || !VirtMergeable(q, t.prev.value, v) then t.hw + 1 else t.hw)
  }

  function Count(q: Limits, t: Tally, vs: seq<Vec>): Tally
    requires LimitsOk(q)
    decreases |vs|
  {
    if vs == [] then t else Count(q, Count1(q, t, vs[0]), vs[1..])
  }

  /** bi_phys_segments and bi_hw_segments after blk_recount_segments. */
  function Recount(q: Limits, vs: seq<Vec>): Tally
    requires LimitsOk(q)
  {
    Count(q, Zero, vs)
  }

  lemma {:induction false} CountConcat(q: Limits, t: Tally, a: seq<Vec>, b: seq<Vec>)
    requires LimitsOk(q)
    ensures Count(q, t, a + b) == Count(q, Count(q, t, a), b)
    decreases |a|
  {
    if a == [] {
      assert a + b == b;
    } else {
      assert (a + b)[1..] == a[1..] + b;
      CountConcat(q, Count1(q, t, a[0]), a[1..], b);
    }
  }

  /** blk_recount_segments */
  method RecountSegments(q: Limits, vs: seq<Vec>) returns (nrPhys: nat, nrHw: nat)
    requires LimitsOk(q)
    ensures nrPhys == Recount(q, vs).phys && nrHw == Recount(q, vs).hw
    ensures nrHw <= nrPhys <= |vs|
  {
    var prev: Option<Vec> := None;
    var segSize: nat := 0;
    nrPhys, nrHw := 0, 0;
    for i := 0 to |vs|
      invariant Count(q, Tally(prev, segSize, nrPhys, nrHw), vs[i..]) == Recount(q, vs)
      invariant nrHw <= nrPhys <= i
    {
      var bv := vs[i];
      assert vs[i..][0] == bv && vs[i..][1..] == vs[i + 1..];
      if prev.Some? && q.cluster && segSize + bv.len <= q.maxSegmentSize
         && Adjacent(prev.value, bv) && OneBlock(q, Phys(prev.value), Phys(bv) + bv.len) {
        segSize := segSize + bv.len;
      } else {
        if prev.None? || !VirtMergeable(q, prev.value, bv) {
          nrHw := nrHw + 1;
        }
        nrPhys := nrPhys + 1;
        segSize := bv.len;
      }
      prev := Some(bv);
    }
  }

  /**
   The greedy-with-carry argument.  c runs on from an earlier segment, f starts afresh on
   the same vectors: c never needs more new segments, and when it has needed as many its
   open segment is no longer.
   */
  ghost predicate NoWorse(c: Tally, f: Tally, base: nat) {
    c.prev == f.prev && base <= c.phys
    && (c.phys - base < f.phys || (c.phys - base == f.phys && c.size <= f.size))
  }

  lemma {:induction false} CarryNoWorse(q: Limits, c: Tally, f: Tally, base: nat, vs: seq<Vec>)
    requires LimitsOk(q) && NoWorse(c, f, base)
    ensures NoWorse(Count(q, c, vs), Count(q, f, vs), base)
    decreases |vs|
  {
    if vs != [] {
      CarryNoWorse(q, Count1(q, c, vs[0]), Count1(q, f, vs[0]), base, vs[1..]);
    }
  }

  /** Carrying a segment over from the previous bio never costs an extra one. */
  lemma CarryBound(q: Limits, t: Tally, vs: seq<Vec>)
    requires LimitsOk(q)
    ensures t.phys <= Count(q, t, vs).phys <= t.phys + Recount(q, vs).phys
  {
    if vs != [] {
      CarryNoWorse(q, Count1(q, t, vs[0]), Count1(q, Zero, vs[0]), t.phys, vs[1..]);
    }
  }

  /** A request's bios, each a list of vectors. */
  function Flat(bios: seq<seq<Vec>>): seq<Vec> {
    if bios == [] then [] else bios[0] + Flat(bios[1..])
  }

  /** blk_recalc_rq_segments: nr_phys_segments is the sum over the bios. */
  function SumPhys(q: Limits, bios: seq<seq<Vec>>): nat
    requires LimitsOk(q)
  {
    if bios == [] then 0 else Recount(q, bios[0]).phys + SumPhys(q, bios[1..])
  }

  lemma {:induction false} ChainBound(q: Limits, t: Tally, bios: seq<seq<Vec>>)
    requires LimitsOk(q)
    ensures Count(q, t, Flat(bios)).phys <= t.phys + SumPhys(q, bios)
    decreases |bios|
  {
    if bios != [] {
      CountConcat(q, t, bios[0], Flat(bios[1..]));
      CarryBound(q, t, bios[0]);
      ChainBound(q, Count(q, t, bios[0]), bios[1..]);
    }
  }

  // ------------------------------------------------------------- the scatterlist

  datatype Sg = Sg(page: nat, offset: nat, length: nat)

  /** What blk_rq_map_sg has built, and the last vector it looked at. */
  datatype Mapping = Mapping(prev: Option<Vec>, sg: seq<Sg>)

  predicate Lengthens(q: Limits, m: Mapping, v: Vec)
    requires LimitsOk(q)
  {
    m.prev.Some? && m.sg != [] && m.sg[|m.sg| - 1].length + v.len <= q.maxSegmentSize
    && CanFollow(q, m.prev.value, v)
  }

  function Map1(q: Limits, m: Mapping, v: Vec): Mapping
    requires LimitsOk(q)
  {
    if Lengthens(q, m, v) then
      var n := |m.sg| - 1;
      Mapping(Some(v), m.sg[n := m.sg[n].(length := m.sg[n].length + v.len)])
    else Mapping(Some(v), m.sg + [Sg(v.page, v.offset, v.len)])
  }

  function Map(q: Limits, m: Mapping, vs: seq<Vec>): Mapping
    requires LimitsOk(q)
    decreases |vs|
  {
    if vs == [] then m else Map(q, Map1(q, m, vs[0]), vs[1..])
  }

  function SgOf(q: Limits, vs: seq<Vec>): seq<Sg>
    requires LimitsOk(q)
  {
    Map(q, Mapping(None, []), vs).sg
  }

  lemma {:induction false} MapConcat(q: Limits, m: Mapping, a: seq<Vec>, b: seq<Vec>)
    requires LimitsOk(q)
    ensures Map(q, m, a + b) == Map(q, Map(q, m, a), b)
    decreases |a|
  {
    if a == [] {
      assert a + b == b;
    } else {
      assert (a + b)[1..] == a[1..] + b;
      MapConcat(q, Map1(q, m, a[0]), a[1..], b);
    }
  }

  /** A mapping and a tally of the same vectors agree. */
  ghost predicate Matches(m: Mapping, t: Tally) {
    m.prev == t.prev && |m.sg| == t.phys && (m.prev.Some? <==> m.sg != [])
    && (m.sg != [] ==> m.sg[|m.sg| - 1].length == t.size)
  }

  lemma {:induction false} MapCounts(q: Limits, m: Mapping, t: Tally, vs: seq<Vec>)
    requires LimitsOk(q) && Matches(m, t)
    ensures Matches(Map(q, m, vs), Count(q, t, vs))
    decreases |vs|
  {
    if vs != [] {
      MapCounts(q, Map1(q, m, vs[0]), Count1(q, t, vs[0]), vs[1..]);
    }
  }

  /**
   The bound the caller relies on: the scatterlist of a whole request has no more entries
   than its bios count segments, and exactly as many for a single bio.
   */
  lemma ScatterlistBound(q: Limits, bios: seq<seq<Vec>>)
    requires LimitsOk(q)
    ensures |SgOf(q, Flat(bios))| <= SumPhys(q, bios)
    ensures |bios| == 1 ==> |SgOf(q, Flat(bios))| == SumPhys(q, bios)
  {
    MapCounts(q, Mapping(None, []), Zero, Flat(bios));
    ChainBound(q, Zero, bios);
    if |bios| == 1 {
      assert Flat(bios) == bios[0] + Flat(bios[1..]) == bios[0];
    }
  }

  lemma {:induction false} MapGrows(q: Limits, m: Mapping, vs: seq<Vec>)
    requires LimitsOk(q)
    ensures |m.sg| <= |Map(q, m, vs).sg|
    decreases |vs|
  {
    if vs != [] { MapGrows(q, Map1(q, m, vs[0]), vs[1..]); }
  }

  /** One vector of blk_rq_map_sg: it lengthens the last entry or begins another. */
  method MapVec(q: Limits, bv: Vec, prev: Option<Vec>, sg: array<Sg>, nsegs: nat) returns (n: nat)
    requires LimitsOk(q) && nsegs <= sg.Length && (prev.Some? <==> nsegs > 0)
    requires |Map1(q, Mapping(prev, sg[..nsegs]), bv).sg| <= sg.Length
    modifies sg
    ensures 0 < n <= sg.Length && sg[..n] == Map1(q, Mapping(prev, old(sg[..nsegs])), bv).sg
    ensures forall k :: n <= k < sg.Length ==> sg[k] == old(sg[k])
  {
    hide OneBlock, Phys;
    if prev.Some? && q.cluster && sg[nsegs - 1].length + bv.len <= q.maxSegmentSize
       && Adjacent(prev.value, bv) && OneBlock(q, Phys(prev.value), Phys(bv) + bv.len) {
      sg[nsegs - 1] := sg[nsegs - 1].(length := sg[nsegs - 1].length + bv.len);
      n := nsegs;
    } else {
      sg[nsegs] := Sg(bv.page, bv.offset, bv.len);
      n := nsegs + 1;
    }
  }

  /**
   blk_rq_map_sg.  Its one demand on the caller is an array for as many entries as the bios
   count segments; that the array is then never overrun is ScatterlistBound.
   */
  method MapRequest(q: Limits, bios: seq<seq<Vec>>, sg: array<Sg>) returns (nsegs: nat)
    requires LimitsOk(q) && sg.Length >= SumPhys(q, bios)
    modifies sg
    ensures nsegs <= SumPhys(q, bios) && sg[..nsegs] == SgOf(q, Flat(bios))
    ensures forall k :: nsegs <= k < sg.Length ==> sg[k] == old(sg[k])
  {
    ScatterlistBound(q, bios);
    ghost var whole := SgOf(q, Flat(bios));
    nsegs := 0;
    var prev: Option<Vec> := None;
    hide Map1, SumPhys;
    for b := 0 to |bios|
      invariant nsegs <= |whole| && (prev.Some? <==> nsegs > 0)
      invariant Map(q, Mapping(prev, sg[..nsegs]), Flat(bios[b..])).sg == whole
      invariant forall k :: nsegs <= k < sg.Length ==> sg[k] == old(sg[k])
    {
      var vs := bios[b];
      assert bios[b..][0] == vs && bios[b..][1..] == bios[b + 1..];
      ghost var later := Flat(bios[b + 1..]);
      for i := 0 to |vs|
        invariant nsegs <= |whole| && (prev.Some? <==> nsegs > 0)
        invariant Map(q, Mapping(prev, sg[..nsegs]), vs[i..] + later).sg == whole
        invariant forall k :: nsegs <= k < sg.Length ==> sg[k] == old(sg[k])
      {
        var bv := vs[i];
        assert (vs[i..] + later)[0] == bv && (vs[i..] + later)[1..] == vs[i + 1..] + later;
        ghost var m := Mapping(prev, sg[..nsegs]);
        MapGrows(q, Map1(q, m, bv), vs[i + 1..] + later);
        Map1Prev(q, m, bv);
        nsegs := MapVec(q, bv, prev, sg, nsegs);
        prev := Some(bv);
        assert Mapping(prev, sg[..nsegs]) == Map1(q, m, bv);
      }
      assert vs[|vs|..] + later == later;
    }
  }

  lemma Map1Prev(q: Limits, m: Mapping, v: Vec)
    requires LimitsOk(q)
    ensures Map1(q, m, v).prev == Some(v) && |Map1(q, m, v).sg| >= |m.sg|
  {
  }

  // ------------------------------------------------- what the scatterlist stands for

  /** The physical byte addresses of a stretch of memory. */
  function Bytes(start: nat, len: nat): seq<nat> {
    seq(len, i => start + i)
  }

  function VecBytes(vs: seq<Vec>): seq<nat> {
    if vs == [] then [] else Bytes(Phys(vs[0]), vs[0].len) + VecBytes(vs[1..])
  }

  function SgPhys(e: Sg): nat {
    e.page * PAGE_SIZE + e.offset
  }

  function SgBytes(sg: seq<Sg>): seq<nat> {
    if sg == [] then [] else SgBytes(sg[..|sg| - 1]) + Bytes(SgPhys(sg[|sg| - 1]), sg[|sg| - 1].length)
  }

  /** The last vector ends where the last entry ends. */
  ghost predicate EndsTogether(m: Mapping) {
    m.prev.Some? && m.sg != [] ==>
      var e := m.sg[|m.sg| - 1]; SgPhys(e) + e.length == Phys(m.prev.value) + m.prev.value.len
  }

  lemma BytesJoin(start: nat, a: nat, b: nat)
    ensures Bytes(start, a) + Bytes(start + a, b) == Bytes(start, a + b)
  {
  }

  lemma Map1Bytes(q: Limits, m: Mapping, v: Vec)
    requires LimitsOk(q) && EndsTogether(m)
    ensures var n := Map1(q, m, v);
      EndsTogether(n) && SgBytes(n.sg) == SgBytes(m.sg) + Bytes(Phys(v), v.len)
  {
    var n, k := Map1(q, m, v), |m.sg|;
    if Lengthens(q, m, v) {
      var e := m.sg[k - 1];
      BytesJoin(SgPhys(e), e.length, v.len);
      assert n.sg[..k - 1] == m.sg[..k - 1];
    } else {
      assert n.sg[..k] == m.sg;
    }
  }

  lemma {:induction false} MapBytes(q: Limits, m: Mapping, vs: seq<Vec>)
    requires LimitsOk(q) && EndsTogether(m)
    ensures SgBytes(Map(q, m, vs).sg) == SgBytes(m.sg) + VecBytes(vs)
    decreases |vs|
  {
    if vs == [] {
      assert SgBytes(m.sg) + [] == SgBytes(m.sg);
    } else {
      var n := Map1(q, m, vs[0]);
      assert Map(q, m, vs) == Map(q, n, vs[1..]);
      assert VecBytes(vs) == Bytes(Phys(vs[0]), vs[0].len) + VecBytes(vs[1..]);
      hide Map1, VecBytes, Map, SgBytes, Bytes, EndsTogether;
      Map1Bytes(q, m, vs[0]);
      MapBytes(q, n, vs[1..]);
    }
  }

  /** The scatterlist transfers exactly the bytes of the vectors, in their order. */
  lemma SgMeaning(q: Limits, vs: seq<Vec>)
    requires LimitsOk(q)
    ensures SgBytes(SgOf(q, vs)) == VecBytes(vs)
  {
    MapBytes(q, Mapping(None, []), vs);
    assert [] + VecBytes(vs) == VecBytes(vs);
  }

  /** No entry exceeds the limits that every single vector respects. */
  ghost predicate EntryOk(q: Limits, e: Sg)
    requires LimitsOk(q)
  {
    0 < e.length <= q.maxSegmentSize && OneBlock(q, SgPhys(e), SgPhys(e) + e.length)
  }

  ghost predicate VecOk(q: Limits, v: Vec)
    requires LimitsOk(q)
  {
    0 < v.len <= q.maxSegmentSize && OneBlock(q, Phys(v), Phys(v) + v.len)
  }

  /** Division is monotone, so a byte between two of one block is in that block. */
  lemma SameBlock(a: nat, b: nat, c: nat, n: nat)
    requires n > 0 && a <= b <= c && a / n == c / n
    ensures a / n == b / n
  {
    DivMono(a, b, n);
    DivMono(b, c, n);
  }

  lemma DivMono(a: nat, b: nat, n: nat)
    requires n > 0 && a <= b
    ensures a / n <= b / n
  {
    var x, y := a / n, b / n;
    assert a == n * x + a % n && b == n * y + b % n;
    assert y < x ==> n * (y + 1) <= n * x;
  }

  lemma Map1Ok(q: Limits, m: Mapping, v: Vec)
    requires LimitsOk(q) && EndsTogether(m) && VecOk(q, v) && (forall i :: 0 <= i < |m.sg| ==> EntryOk(q, m.sg[i]))
    requires m.prev.Some? && m.sg != [] ==> m.prev.value.len <= m.sg[|m.sg| - 1].length && VecOk(q, m.prev.value)
    ensures var n := Map1(q, m, v);
      && (forall i :: 0 <= i < |n.sg| ==> EntryOk(q, n.sg[i]))
      && n.sg != [] && v.len <= n.sg[|n.sg| - 1].length
  {
    if Lengthens(q, m, v) {
      var e, p := m.sg[|m.sg| - 1], m.prev.value;
      var end := Phys(v) + v.len;
      assert SgPhys(e) + e.length == Phys(v);
      SameBlock(Phys(p), Phys(v) - 1, end - 1, q.boundary);
    }
  }

  /**
   Every entry keeps within max_segment_size and within one boundary block, when every
   single vector does.
   */
  lemma {:induction false} EntriesOk(q: Limits, m: Mapping, vs: seq<Vec>)
    requires LimitsOk(q) && EndsTogether(m) && (forall i :: 0 <= i < |vs| ==> VecOk(q, vs[i]))
    requires forall i :: 0 <= i < |m.sg| ==> EntryOk(q, m.sg[i])
    requires m.prev.Some? && m.sg != [] ==> m.prev.value.len <= m.sg[|m.sg| - 1].length && VecOk(q, m.prev.value)
    ensures forall i :: 0 <= i < |Map(q, m, vs).sg| ==> EntryOk(q, Map(q, m, vs).sg[i])
    decreases |vs|
  {
    if vs != [] {
      Map1Ok(q, m, vs[0]);
      Map1Bytes(q, m, vs[0]);
      EntriesOk(q, Map1(q, m, vs[0]), vs[1..]);
    }
  }

  // ------------------------------------------------------- what the two counts mean

  function SgEnd(e: Sg): nat {
    SgPhys(e) + e.length
  }

  /** An IOMMU can map what ends here and what starts there as one run: both lie on its page boundary. */
  predicate Aligned(q: Limits, end: nat, start: nat) {
    if q.vmergeBoundary == 0 then end == start == 0
    else end % q.vmergeBoundary == 0 && start % q.vmergeBoundary == 0
  }

  /** The entries at which a hardware segment starts: the first, and those that an IOMMU cannot join to the one in
      front. */
  function HwStarts(q: Limits, sg: seq<Sg>): set<nat> {
    set i: nat | i < |sg| && (i == 0 || !Aligned(q, SgEnd(sg[i - 1]), SgPhys(sg[i])))
  }

  lemma LengthenedStarts(q: Limits, sg: seq<Sg>, e: Sg)
    requires sg != [] && SgPhys(e) == SgPhys(sg[|sg| - 1])
    ensures HwStarts(q, sg[|sg| - 1 := e]) == HwStarts(q, sg)
  {
    hide Aligned;
  }

  lemma AppendedStarts(q: Limits, sg: seq<Sg>, e: Sg)
    ensures HwStarts(q, sg + [e]) == HwStarts(q, sg)
            + (if sg == [] || !Aligned(q, SgEnd(sg[|sg| - 1]), SgPhys(e)) then {|sg|} else {})
  {
    hide Aligned, SgEnd, SgPhys;
  }

  /** The test of the counting loop is that of the joint. */
  lemma JointIs(q: Limits, m: Mapping, v: Vec)
    requires EndsTogether(m) && m.prev.Some? && m.sg != []
    ensures VirtMergeable(q, m.prev.value, v)
            == Aligned(q, SgEnd(m.sg[|m.sg| - 1]), SgPhys(Sg(v.page, v.offset, v.len)))
  {
  }

  lemma HwCount1(q: Limits, m: Mapping, t: Tally, v: Vec)
    requires LimitsOk(q) && Matches(m, t) && EndsTogether(m) && t.hw == |HwStarts(q, m.sg)|
    ensures Count1(q, t, v).hw == |HwStarts(q, Map1(q, m, v).sg)|
  {
    hide HwStarts, SgPhys, SgEnd, Aligned, VirtMergeable, CanFollow, EndsTogether;
    if Lengthens(q, m, v) {
      LengthenedStarts(q, m.sg, Map1(q, m, v).sg[|m.sg| - 1]) by { StartKept(m.sg[|m.sg| - 1], v.len); }
    } else {
      if m.sg != [] { JointIs(q, m, v); }
      AppendedStarts(q, m.sg, Sg(v.page, v.offset, v.len));
      StartsBelow(q, m.sg);
    }
  }

  lemma StartKept(e: Sg, more: nat)
    ensures SgPhys(e.(length := e.length + more)) == SgPhys(e)
  {
  }

  lemma StartsBelow(q: Limits, sg: seq<Sg>)
    ensures forall i :: i in HwStarts(q, sg) ==> i < |sg|
  {
  }

  lemma {:induction false} HwCounts(q: Limits, m: Mapping, t: Tally, vs: seq<Vec>)
    requires LimitsOk(q) && Matches(m, t) && EndsTogether(m) && t.hw == |HwStarts(q, m.sg)|
    ensures Count(q, t, vs).hw == |HwStarts(q, Map(q, m, vs).sg)|
    decreases |vs|
  {
    if vs != [] {
      Map1Bytes(q, m, vs[0]);
      HwCount1(q, m, t, vs[0]);
      MapCounts(q, m, t, [vs[0]]);
      assert [vs[0]][1..] == [];
      assert Map(q, m, [vs[0]]) == Map1(q, m, vs[0]) && Count(q, t, [vs[0]]) == Count1(q, t, vs[0]);
      hide HwStarts, SgBytes, Map1, Count1, EndsTogether, Matches;
      HwCounts(q, Map1(q, m, vs[0]), Count1(q, t, vs[0]), vs[1..]);
    }
  }

  /**
   bi_hw_segments by the scatterlist: the entries less the joints that an IOMMU can close.
   Where it can close none the two counts are equal.
   */
  lemma HwMeaning(q: Limits, vs: seq<Vec>)
    requires LimitsOk(q)
    ensures var sg := SgOf(q, vs);
      && Recount(q, vs).phys == |sg| && Recount(q, vs).hw == |HwStarts(q, sg)|
      && (Recount(q, vs).hw == Recount(q, vs).phys <==>
          forall i :: 0 < i < |sg| ==> !Aligned(q, SgEnd(sg[i - 1]), SgPhys(sg[i])))
  {
    MapCounts(q, Mapping(None, []), Zero, vs);
    assert HwStarts(q, []) == {};
    HwCounts(q, Mapping(None, []), Zero, vs);
    hide SgOf, Recount, HwStarts, Aligned;
    AllStarts(q, SgOf(q, vs));
  }

  lemma AllStarts(q: Limits, sg: seq<Sg>)
    ensures |HwStarts(q, sg)| == |sg| <==> forall i :: 0 < i < |sg| ==> !Aligned(q, SgEnd(sg[i - 1]), SgPhys(sg[i]))
  {
    hide Aligned, SgEnd, SgPhys;
    var starts, all := HwStarts(q, sg), Numbers(|sg|);
    assert starts <= all;
    if |starts| == |all| {
      SubsetFull(starts, all);
      forall i | 0 < i < |sg| ensures !Aligned(q, SgEnd(sg[i - 1]), SgPhys(sg[i])) {
        assert i in starts;
      }
    }
    if forall i :: 0 < i < |sg| ==> !Aligned(q, SgEnd(sg[i - 1]), SgPhys(sg[i])) {
      assert starts == all;
    }
  }

  function Numbers(n: nat): (r: set<nat>)
    ensures |r| == n && forall i: nat :: i in r <==> i < n
  {
    if n == 0 then {} else Numbers(n - 1) + {n - 1}
  }

  lemma SubsetFull(a: set<nat>, b: set<nat>)
    requires a <= b && |a| == |b|
    ensures a == b
  {
    assert |b - a| == 0 by { assert b == a + (b - a); }
  }

  /** Each vector can follow the one in front of it, the first one v. */
  predicate Linked(q: Limits, v: Vec, vs: seq<Vec>)
    requires LimitsOk(q)
    decreases |vs|
  {
    vs == [] || (CanFollow(q, v, vs[0]) && Linked(q, vs[0], vs[1..]))
  }

  /** Vectors that the queue lets stand in one entry. */
  predicate OneEntry(q: Limits, vs: seq<Vec>)
    requires LimitsOk(q)
  {
    vs != [] && (|vs| > 1 ==> Size(vs) <= q.maxSegmentSize) && Linked(q, vs[0], vs[1..])
  }

  lemma {:induction false} RunsOn(q: Limits, t: Tally, vs: seq<Vec>)
    requires LimitsOk(q) && t.prev.Some? && t.size + Size(vs) <= q.maxSegmentSize && Linked(q, t.prev.value, vs)
    ensures Count(q, t, vs).phys == t.phys
    decreases |vs|
  {
    hide CanFollow;
    if vs != [] {
      RunsOn(q, Count1(q, t, vs[0]), vs[1..]);
    }
  }

  lemma OneEntryCounts(q: Limits, vs: seq<Vec>)
    requires LimitsOk(q) && OneEntry(q, vs)
    ensures Recount(q, vs).phys == 1
  {
    hide CanFollow;
    var t := Count1(q, Zero, vs[0]);
    assert Recount(q, vs) == Count(q, t, vs[1..]);
    if |vs| > 1 {
      assert Size(vs) == vs[0].len + Size(vs[1..]);
      RunsOn(q, t, vs[1..]);
    } else {
      assert vs[1..] == [];
    }
  }

  /** No division of the vectors into stretches that the queue lets stand in one entry has fewer than the
      scatterlist. */
  lemma {:induction false} FewestEntries(q: Limits, parts: seq<seq<Vec>>)
    requires LimitsOk(q) && forall i :: 0 <= i < |parts| ==> OneEntry(q, parts[i])
    ensures |SgOf(q, Flat(parts))| <= |parts|
  {
    ScatterlistBound(q, parts);
    hide OneEntry, SgOf;
    PartsCount(q, parts);
  }

  lemma {:induction false} PartsCount(q: Limits, parts: seq<seq<Vec>>)
    requires LimitsOk(q) && forall i :: 0 <= i < |parts| ==> OneEntry(q, parts[i])
    ensures SumPhys(q, parts) == |parts|
  {
    hide OneEntry, Recount;
    if parts != [] {
      OneEntryCounts(q, parts[0]);
      PartsCount(q, parts[1..]);
    }
  }

  // ----------------------------------------------- the count kept by request merging

  function Size(vs: seq<Vec>): nat {
    if vs == [] then 0 else vs[0].len + Size(vs[1..])
  }

  lemma {:induction false} SizeConcat(a: seq<Vec>, b: seq<Vec>)
    ensures Size(a + b) == Size(a) + Size(b)
  {
    if a == [] {
      assert a + b == b;
    } else {
      assert (a + b)[1..] == a[1..] + b;
      SizeConcat(a[1..], b);
    }
  }

  /** blk_phys_contig_segment for the bios where two requests meet. */
  predicate PhysContig(q: Limits, a: seq<Vec>, b: seq<Vec>)
    requires LimitsOk(q) && a != [] && b != []
  {
    CanFollow(q, a[|a| - 1], b[0]) && Size(a) + Size(b) <= q.maxSegmentSize
  }

  /** ll_merge_requests_fn's nr_phys_segments for the merged request. */
  function MergedCount(q: Limits, na: nat, nb: nat, lastBio: seq<Vec>, firstBio: seq<Vec>): int
    requires LimitsOk(q) && lastBio != [] && firstBio != []
  {
    if PhysContig(q, lastBio, firstBio) then na + nb - 1 else na + nb
  }

  /** The length of the segment that the last entry of a scatterlist holds. */
  function OpenSize(q: Limits, vs: seq<Vec>): nat
    requires LimitsOk(q)
  {
    Recount(q, vs).size
  }

  /** From the same open segment, or both from a new one, the same vectors make as many segments. */
  lemma {:induction false} InStep(q: Limits, c: Tally, f: Tally, vs: seq<Vec>)
    requires LimitsOk(q)
    requires (c.prev == f.prev && c.size == f.size)
             || (vs != [] ==> !Extends(q, c, vs[0]) && !Extends(q, f, vs[0]))
    ensures Count(q, c, vs).phys - c.phys == Count(q, f, vs).phys - f.phys
    decreases |vs|
  {
    if vs != [] { InStep(q, Count1(q, c, vs[0]), Count1(q, f, vs[0]), vs[1..]); }
  }

  lemma {:induction false} LastSeen(q: Limits, t: Tally, vs: seq<Vec>)
    requires LimitsOk(q)
    ensures vs != [] ==> Count(q, t, vs).prev == Some(vs[|vs| - 1])
    decreases |vs|
  {
    if |vs| > 1 { LastSeen(q, Count1(q, t, vs[0]), vs[1..]); }
  }

  /** How many of vs go on after v without a gap or a boundary: only max_segment_size can part them. */
  function RunAfter(q: Limits, v: Vec, vs: seq<Vec>): (n: nat)
    requires LimitsOk(q)
    ensures n <= |vs|
    decreases |vs|
  {
    if vs == [] || !CanFollow(q, v, vs[0]) then 0 else 1 + RunAfter(q, vs[0], vs[1..])
  }

  /** The vectors of the first run of b. */
  function FirstRun(q: Limits, b: seq<Vec>): (n: nat)
    requires LimitsOk(q) && b != []
    ensures 0 < n <= |b|
  {
    1 + RunAfter(q, b[0], b[1..])
  }

  function StayIn(q: Limits, t: Tally, vs: seq<Vec>): (n: nat)
    requires LimitsOk(q)
    ensures n <= |vs|
    decreases |vs|
  {
    if vs == [] || !Extends(q, t, vs[0]) then 0 else 1 + StayIn(q, Count1(q, t, vs[0]), vs[1..])
  }

  /** The vectors of the first segment of b. */
  function FirstSegment(q: Limits, b: seq<Vec>): (n: nat)
    requires LimitsOk(q) && b != []
    ensures 0 < n <= |b|
  {
    1 + StayIn(q, Count1(q, Zero, b[0]), b[1..])
  }

  /**
   Joining b to a segment of the given size that ends in v saves an entry: continued from
   there, the first run of b makes fewer new segments than by itself.
   */
  predicate JoinSaves(q: Limits, v: Vec, size: nat, b: seq<Vec>)
    requires LimitsOk(q) && b != []
  {
    CanFollow(q, v, b[0])
    && Count(q, Tally(Some(v), size, 0, 0), b[..FirstRun(q, b)]).phys < Recount(q, b[..FirstRun(q, b)]).phys
  }

  lemma {:induction false} RunEnds(q: Limits, v: Vec, vs: seq<Vec>)
    requires LimitsOk(q)
    ensures var n := RunAfter(q, v, vs); n < |vs| ==> !CanFollow(q, ([v] + vs)[n], vs[n])
    decreases |vs|
  {
    if vs != [] && CanFollow(q, v, vs[0]) {
      RunEnds(q, vs[0], vs[1..]);
      assert [v] + vs == [v] + ([vs[0]] + vs[1..]);
    }
  }

  /** Tallies that stand at the same vector where a run ends need as many segments for the rest. */
  lemma {:induction false} AfterRun(q: Limits, c: Tally, f: Tally, b: seq<Vec>)
    requires LimitsOk(q) && b != []
    ensures var n := FirstRun(q, b); var c1, f1 := Count(q, c, b[..n]), Count(q, f, b[..n]);
      Count(q, c, b).phys - c1.phys == Count(q, f, b).phys - f1.phys
  {
    var n := FirstRun(q, b);
    var c1, f1 := Count(q, c, b[..n]), Count(q, f, b[..n]);
    assert b[..n] + b[n..] == b;
    CountConcat(q, c, b[..n], b[n..]);
    CountConcat(q, f, b[..n], b[n..]);
    RunEnds(q, b[0], b[1..]);
    assert [b[0]] + b[1..] == b;
    LastSeen(q, c, b[..n]);
    LastSeen(q, f, b[..n]);
    InStep(q, c1, f1, b[n..]);
  }

  /** c runs on from an open segment and f starts afresh: c is never more than one segment ahead. */
  ghost predicate OneAhead(c: Tally, f: Tally, base: nat) {
    c.prev == f.prev
    && ((c.phys == base + f.phys && c.size <= f.size) || (c.phys + 1 == base + f.phys && c.size >= f.size))
  }

  lemma {:induction false} StaysOneAhead(q: Limits, c: Tally, f: Tally, base: nat, vs: seq<Vec>)
    requires LimitsOk(q) && OneAhead(c, f, base)
    ensures OneAhead(Count(q, c, vs), Count(q, f, vs), base)
    decreases |vs|
  {
    if vs != [] { StaysOneAhead(q, Count1(q, c, vs[0]), Count1(q, f, vs[0]), base, vs[1..]); }
  }

  lemma {:induction false} SavesAtMostOne(q: Limits, t: Tally, b: seq<Vec>)
    requires LimitsOk(q) && b != []
    ensures var n := Count(q, t, b).phys - t.phys; n == Recount(q, b).phys || n + 1 == Recount(q, b).phys
  {
    StaysOneAhead(q, Count1(q, t, b[0]), Count1(q, Zero, b[0]), t.phys, b[1..]);
  }

  /** The saving, for a tally that stands at v with an open segment. */
  lemma {:induction false} SavingIs(q: Limits, t: Tally, b: seq<Vec>)
    requires LimitsOk(q) && b != [] && t.prev.Some?
    ensures Count(q, t, b).phys - t.phys == Recount(q, b).phys - (if JoinSaves(q, t.prev.value, t.size,
        b) then 1 else 0)
  {
    var n := FirstRun(q, b);
    var u := Tally(t.prev, t.size, 0, 0);
    AfterRun(q, t, Zero, b);
    InStep(q, t, u, b[..n]);
    SavesAtMostOne(q, t, b[..n]);
    if !CanFollow(q, t.prev.value, b[0]) { InStep(q, t, Zero, b[..n]); }
  }

  /** The first segment fits behind an open one exactly when there is room for all its bytes. */
  lemma {:induction false} SegmentFits(q: Limits, c: Tally, f: Tally, vs: seq<Vec>)
    requires LimitsOk(q) && c.prev == f.prev && f.size <= c.size
    ensures var n := StayIn(q, f, vs);
      && Count(q, f, vs[..n]).phys == f.phys
      && (n < |vs| ==> !Extends(q, Count(q, f, vs[..n]), vs[n]))
      && (Count(q, c, vs[..n]).phys == c.phys <==> n == 0 || c.size + Size(vs[..n]) <= q.maxSegmentSize)
      && (Count(q, c, vs[..n]).phys == c.phys ==> Count(q, c, vs[..n]).size >= Count(q, f, vs[..n]).size)
    decreases |vs|
  {
    if vs != [] && Extends(q, f, vs[0]) {
      var c1, f1 := Count1(q, c, vs[0]), Count1(q, f, vs[0]);
      var n := StayIn(q, f, vs);
      assert vs[..n][0] == vs[0] && vs[..n][1..] == vs[1..][..n - 1];
      CarryBound(q, c1, vs[1..][..n - 1]);
      if Extends(q, c, vs[0]) { SegmentFits(q, c1, f1, vs[1..]); } else { StayCounts(q, f1, vs[1..]); }
    }
  }

  lemma {:induction false} StayCounts(q: Limits, f: Tally, vs: seq<Vec>)
    requires LimitsOk(q)
    ensures var n := StayIn(q, f, vs);
      && Count(q, f, vs[..n]).phys == f.phys
      && (n < |vs| ==> !Extends(q, Count(q, f, vs[..n]), vs[n]))
    decreases |vs|
  {
    if vs != [] && Extends(q, f, vs[0]) {
      var n := StayIn(q, f, vs);
      assert vs[..n][0] == vs[0] && vs[..n][1..] == vs[1..][..n - 1];
      StayCounts(q, Count1(q, f, vs[0]), vs[1..]);
    }
  }
  /** The open segment has room for the whole first segment of b. */
  predicate SegmentRoom(q: Limits, v: Vec, size: nat, b: seq<Vec>)
    requires LimitsOk(q) && b != []
  {
    CanFollow(q, v, b[0]) && size + Size(b[..FirstSegment(q, b)]) <= q.maxSegmentSize
  }

  /** What becomes of the first segment of b behind the tally t. */
  lemma {:induction false} FirstSegmentAfter(q: Limits, t: Tally, b: seq<Vec>)
    requires LimitsOk(q) && b != [] && t.prev.Some?
    ensures var n := FirstSegment(q, b);
      && Recount(q, b[..n]).phys == 1 && t.phys <= Count(q, t, b[..n]).phys
      && (Count(q, t, b[..n]).phys == t.phys <==> SegmentRoom(q, t.prev.value, t.size, b))
      && (n < |b| ==> !Extends(q, Recount(q, b[..n]), b[n]))
      && (n < |b| && SegmentRoom(q, t.prev.value, t.size, b) ==> !Extends(q, Count(q, t, b[..n]), b[n]))
  {
    var n := FirstSegment(q, b);
    var c, f := Count1(q, t, b[0]), Count1(q, Zero, b[0]);
    assert b[..n][0] == b[0] && b[..n][1..] == b[1..][..n - 1];
    CarryBound(q, c, b[1..][..n - 1]);
    StayCounts(q, f, b[1..]);
    if Extends(q, t, b[0]) { SegmentFits(q, c, f, b[1..]); }
    LastSeen(q, t, b[..n]);
    LastSeen(q, Zero, b[..n]);
  }

  /** Room for the first segment is enough, and if that segment is not cut short by its length, needed. */
  lemma {:induction false} RoomSaves(q: Limits, t: Tally, b: seq<Vec>)
    requires LimitsOk(q) && b != [] && t.prev.Some?
    ensures SegmentRoom(q, t.prev.value, t.size, b) ==> JoinSaves(q, t.prev.value, t.size, b)
    ensures FirstSegment(q, b) == FirstRun(q, b) ==>
              (JoinSaves(q, t.prev.value, t.size, b) <==> SegmentRoom(q, t.prev.value, t.size, b))
  {
    var n := FirstSegment(q, b);
    FirstSegmentAfter(q, t, b);
    SavingIs(q, t, b);
    var c1, f1 := Count(q, t, b[..n]), Recount(q, b[..n]);
    assert b[..n] + b[n..] == b;
    CountConcat(q, t, b[..n], b[n..]);
    CountConcat(q, Zero, b[..n], b[n..]);
    if SegmentRoom(q, t.prev.value, t.size, b) { InStep(q, c1, f1, b[n..]); }
    InStep(q, t, Tally(t.prev, t.size, 0, 0), b[..FirstRun(q, b)]);
  }

  /**
   The scatterlist of two requests together: as many entries as the two apart, or one less,
   and one less exactly when the first run of b, continued from the open segment of a, makes
   fewer segments.
   */
  lemma {:induction false} JoinedEntries(q: Limits, a: seq<Vec>, b: seq<Vec>)
    requires LimitsOk(q) && a != [] && b != []
    ensures var saved := if JoinSaves(q, a[|a| - 1], OpenSize(q, a), b) then 1 else 0;
      |SgOf(q, a + b)| == |SgOf(q, a)| + |SgOf(q, b)| - saved
  {
    hide Map, Count, CanFollow, Size, JoinSaves;
    MapCounts(q, Mapping(None, []), Zero, a);
    MapCounts(q, Mapping(None, []), Zero, b);
    MapCounts(q, Mapping(None, []), Zero, a + b);
    CountConcat(q, Zero, a, b);
    LastSeen(q, Zero, a);
    SavingIs(q, Recount(q, a), b);
  }

  /**
   When the "minus one" of ll_merge_requests_fn leaves enough entries for the scatterlist of
   the merged request.  `last` and `first` are the bios at the seam, the two that
   blk_phys_contig_segment measures; what counts is the open segment of a and the first
   segment of b.
   */
  lemma {:induction false} MinusOneIff(q: Limits, a: seq<Vec>, b: seq<Vec>, last: seq<Vec>, first: seq<Vec>)
    requires LimitsOk(q) && a != [] && b != [] && last != [] && first != []
    requires a[|a| - 1] == last[|last| - 1] && b[0] == first[0]
    ensures MergedCount(q, |SgOf(q, a)|, |SgOf(q, b)|, last, first) >= |SgOf(q, a + b)|
            <==> !PhysContig(q, last, first) || JoinSaves(q, a[|a| - 1], OpenSize(q, a), b)
    ensures OpenSize(q, a) + Size(b[..FirstSegment(q, b)]) <= q.maxSegmentSize ==>
              MergedCount(q, |SgOf(q, a)|, |SgOf(q, b)|, last, first) >= |SgOf(q, a + b)|
    ensures FirstSegment(q, b) == FirstRun(q, b) ==>
              (MergedCount(q, |SgOf(q, a)|, |SgOf(q, b)|, last, first) >= |SgOf(q, a + b)|
               <==> !PhysContig(q, last, first)
                    || OpenSize(q, a) + Size(b[..FirstSegment(q, b)]) <= q.maxSegmentSize)
  {
    hide SgOf, Count, Size, JoinSaves, OneBlock;
    JoinedEntries(q, a, b);
    LastSeen(q, Zero, a);
    RoomSaves(q, Recount(q, a), b);
  }

  /** The scatterlist of both is one shorter whenever the seam joins and the first segment of b fits. */
  lemma {:induction false} MinusOneRight(q: Limits, a: seq<Vec>, b: seq<Vec>)
    requires LimitsOk(q) && a != [] && b != []
    requires CanFollow(q, a[|a| - 1], b[0]) && OpenSize(q, a) + Size(b[..FirstSegment(q, b)]) <= q.maxSegmentSize
    ensures |SgOf(q, a + b)| == |SgOf(q, a)| + |SgOf(q, b)| - 1
  {
    hide SgOf, Count, Size, JoinSaves;
    JoinedEntries(q, a, b);
    LastSeen(q, Zero, a);
    RoomSaves(q, Recount(q, a), b);
  }

  /** A following request of one segment: the whole of it must fit. */
  lemma {:induction false} MinusOneSingle(q: Limits, a: seq<Vec>, b: seq<Vec>, last: seq<Vec>, first: seq<Vec>)
    requires LimitsOk(q) && a != [] && b != [] && last != [] && first != []
    requires a[|a| - 1] == last[|last| - 1] && b[0] == first[0] && |SgOf(q, b)| == 1
    ensures MergedCount(q, |SgOf(q, a)|, |SgOf(q, b)|, last, first) >= |SgOf(q, a + b)|
            <==> !PhysContig(q, last, first) || OpenSize(q, a) + Size(b) <= q.maxSegmentSize
  {
    MapCounts(q, Mapping(None, []), Zero, b);
    OneSegment(q, b);
    hide SgOf, Count, Size, JoinSaves, OneBlock, PhysContig, FirstRun, FirstSegment, MergedCount;
    assert b[..|b|] == b;
    MinusOneIff(q, a, b, last, first);
  }

  /** A request of one segment is its own first segment and first run. */
  lemma {:induction false} OneSegment(q: Limits, b: seq<Vec>)
    requires LimitsOk(q) && b != [] && Recount(q, b).phys == 1
    ensures FirstSegment(q, b) == FirstRun(q, b) == |b|
  {
    AllStay(q, Count1(q, Zero, b[0]), b[1..]);
  }

  lemma {:induction false} AllStay(q: Limits, t: Tally, vs: seq<Vec>)
    requires LimitsOk(q) && t.prev.Some? && Count(q, t, vs).phys == t.phys
    ensures StayIn(q, t, vs) == RunAfter(q, t.prev.value, vs) == |vs|
    decreases |vs|
  {
    if vs != [] {
      CarryBound(q, Count1(q, t, vs[0]), vs[1..]);
      AllStay(q, Count1(q, t, vs[0]), vs[1..]);
    }
  }

  /**
   So the count can fall short of the scatterlist: three adjacent pages, one bio each, with
   room for two pages in a segment.  The first two bios form one request of one segment.
   */
  lemma MinusOneUndercounts()
    ensures exists q: Limits, a: seq<Vec>, b: seq<Vec>, c: seq<Vec> ::
      LimitsOk(q) && a != [] && b != [] && c != []
      && MergedCount(q, |SgOf(q, a + b)|, |SgOf(q, c)|, b, c) < |SgOf(q, a + b + c)|
  {
    var q := Limits(true, 8192, 0x1_0000_0000, 0, 128, 128, 255);
    var a, b, c := [Vec(0, 0, 4096)], [Vec(1, 0, 4096)], [Vec(2, 0, 4096)];
    MapCounts(q, Mapping(None, []), Zero, a + b);
    MapCounts(q, Mapping(None, []), Zero, c);
    MapCounts(q, Mapping(None, []), Zero, a + b + c);
    CountConcat(q, Zero, a, b);
    CountConcat(q, Zero, a + b, c);
    var t1 := Count1(q, Zero, a[0]);
    var t2 := Count1(q, t1, b[0]);
    var t3 := Count1(q, t2, c[0]);
    CountSingle(q, Zero, a[0]);
    CountSingle(q, t1, b[0]);
    CountSingle(q, t2, c[0]);
    CountSingle(q, Zero, c[0]);
    assert t2.phys == 1 && t3.phys == 2 && Count1(q, Zero, c[0]).phys == 1;
    hide Map, Count, Count1;
    assert b[1..] == [] && c[1..] == [];
    assert Size(b) == 4096 && Size(c) == 4096;
    assert PhysContig(q, b, c);
    assert MergedCount(q, |SgOf(q, a + b)|, |SgOf(q, c)|, b, c) < |SgOf(q, a + b + c)|;
  }

  lemma CountSingle(q: Limits, t: Tally, v: Vec)
    requires LimitsOk(q)
    ensures Count(q, t, [v]) == Count1(q, t, v)
  {
    assert [v][1..] == [];
  }
}
