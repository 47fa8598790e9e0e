/** bio_add_page: filling the vector list of a bio within the limits of its queue. */
module BioPages {
  import opened Segments

  /** The cached segment counts of a bio; they are trusted only while valid. */
  datatype Cache = Cache(valid: bool, phys: nat, hw: nat)

  /** bio_phys_segments and bio_hw_segments: recount unless the cache is valid. */
  function Refreshed(q: Limits, c: Cache, vecs: seq<Vec>): Cache
    requires LimitsOk(q)
  {
    if c.valid then c else Cache(true, Recount(q, vecs).phys, Recount(q, vecs).hw)
  }

  predicate SegmentsLeft(q: Limits, c: Cache) {
    c.phys < q.maxPhysSegments && c.hw < q.maxHwSegments
  }

  /** Exactly when bio_add_page takes the page. */
  predicate Accepts(q: Limits, cloned: bool, maxVecs: nat, vecs: seq<Vec>, size: nat, c: Cache, v: Vec, mergeBytes: nat)
    requires LimitsOk(q)
  {
    !cloned && |vecs| < maxVecs && (size + v.len) / 512 <= q.maxSectors
    && SegmentsLeft(q, Refreshed(q, c, vecs)) && v.len <= mergeBytes
  }

  /** One more vector is at most one more segment, so a cached count never understates. */
  lemma OneMoreSegment(q: Limits, vecs: seq<Vec>, v: Vec)
    requires LimitsOk(q)
    ensures Recount(q, vecs + [v]).phys <= Recount(q, vecs).phys + 1
    ensures Recount(q, vecs + [v]).hw <= Recount(q, vecs).hw + 1
  {
    CountConcat(q, Zero, vecs, [v]);
    var t := Recount(q, vecs);
    assert Count(q, t, [v]) == Count(q, Count1(q, t, v), [v][1..]);
  }

  /** What of a bio bio_add_page changes. */
  datatype Held = Held(vecs: seq<Vec>, size: nat, cache: Cache)

  /** bio_alloc leaves a bio like this. */
  const NOTHING := Held([], 0, Cache(false, 0, 0))

  /** What does not change: the limits, the room for vectors, and merge_bvec_fn at the bio's sector. */
  datatype Frame = Frame(q: Limits, cloned: bool, maxVecs: nat, sector: nat, mergeBvec: (nat, seq<Vec>, Vec) -> nat) {
    predicate Takes(h: Held, v: Vec)
      requires LimitsOk(q)
    {
      Accepts(q, cloned, maxVecs, h.vecs, h.size, h.cache, v, mergeBvec(sector, h.vecs, v))
    }

    /** The tests made before segments are looked at. */
    predicate Roomy(h: Held, v: Vec) {
      !cloned && |h.vecs| < maxVecs && (h.size + v.len) / 512 <= q.maxSectors
    }
  }

  /** One call: the counts that it leaves are valid, unless it did not come to look at them. */
  function AddTo(f: Frame, h: Held, v: Vec): (r: Held)
    requires LimitsOk(f.q)
  {
    var c := Refreshed(f.q, h.cache, h.vecs);
    if f.Takes(h, v) then Held(h.vecs + [v], h.size + v.len, Cache(true, c.phys + 1, c.hw + 1))
    else if !f.Roomy(h, v) then h
    else if SegmentsLeft(f.q, c) then h.(cache := c)
    else h.(cache := Refreshed(f.q, c.(valid := false), h.vecs))
  }

  class Bio {
    const q: Limits
    const sector: nat
    const maxVecs: nat
    const cloned: bool
    /** merge_bvec_fn: how many bytes of the vector it can accept behind the ones there. */
    const mergeBvec: (nat, seq<Vec>, Vec) -> nat
    var vecs: seq<Vec>
    var size: nat
    var cache: Cache

    /**
     The size is that of the vectors, and every limit holds of the true segment counts,
     whatever the cache says.
     */
    ghost predicate Valid()
      reads this
    {
      LimitsOk(q) && size == Size(vecs) && |vecs| <= maxVecs
      && Recount(q, vecs).phys <= cache.phys && Recount(q, vecs).hw <= cache.hw
      && (vecs != [] ==> size / 512 <= q.maxSectors && cache.phys <= q.maxPhysSegments && cache.hw <= q.maxHwSegments)
    }

    ghost function Abs(): Held
      reads this
    {
      Held(vecs, size, cache)
    }

    function Fixed(): Frame {
      Frame(q, cloned, maxVecs, sector, mergeBvec)
    }

    /** bio_alloc */
    constructor (q: Limits, sector: nat, maxVecs: nat, mergeBvec: (nat, seq<Vec>, Vec) -> nat)
      requires LimitsOk(q)
      ensures Valid() && Abs() == NOTHING && !cloned
      ensures this.q == q && this.sector == sector && this.maxVecs == maxVecs && this.mergeBvec == mergeBvec
    {
      this.q, this.sector, this.maxVecs, this.cloned, this.mergeBvec := q, sector, maxVecs, false, mergeBvec;
      vecs, size, cache := [], 0, Cache(false, 0, 0);
    }

    /** blk_recount_segments, where the cache is not valid. */
    method Refresh()
      requires LimitsOk(q)
      modifies this`cache
      ensures cache == Refreshed(q, old(cache), vecs)
    {
      if !cache.valid {
        var nrPhys, nrHw := Segments.RecountSegments(q, vecs);
        cache := Cache(true, nrPhys, nrHw);
      }
    }

    /** bio_add_page */
    method AddPage(page: nat, len: nat, offset: nat) returns (ret: nat)
      requires Valid()
      modifies this
      ensures Valid()
      ensures var v := Vec(page, offset, len);
        && Abs() == AddTo(Fixed(), old(Abs()), v)
        && if Fixed().Takes(old(Abs()), v) then ret == len && vecs == old(vecs) + [v] && size == old(size) + len
           else ret == 0 && vecs == old(vecs) && size == old(size)
    {
      if cloned {
        return 0;
      }
      if |vecs| >= maxVecs {
        return 0;
      }
      if (size + len) / 512 > q.maxSectors {
        return 0;
      }
      var failSegments, retriedSegments := false, false;
      while true
        invariant Valid() && vecs == old(vecs) && size == old(size)
        invariant failSegments == retriedSegments
        invariant !failSegments ==> cache == old(cache)
        invariant failSegments ==> !SegmentsLeft(q, Refreshed(q, old(cache), vecs))
                                   && cache == Refreshed(q, old(cache), vecs).(valid := false)
        decreases !retriedSegments
      {
        Refresh();
        if cache.phys >= q.maxPhysSegments || cache.hw >= q.maxHwSegments {
          failSegments := true;
        }
        if !failSegments {
          break;
        }
        if retriedSegments {
          return 0;
        }
        cache := cache.(valid := false);
        retriedSegments := true;
      }
      var bvec := Vec(page, offset, len);
      if mergeBvec(sector, vecs, bvec) < len {
        return 0;
      }
      OneMoreSegment(q, vecs, bvec);
      SizeConcat(vecs, [bvec]);
      vecs := vecs + [bvec];
      cache := Cache(cache.valid, cache.phys + 1, cache.hw + 1);
      size := size + len;
      ret := len;
    }
  }

  // ----------------------------------------------------------------- call after call

  /** Calls on a fresh bio, one for each page. */
  function AddAll(f: Frame, vs: seq<Vec>): Held
    requires LimitsOk(f.q)
  {
    if vs == [] then NOTHING else AddTo(f, AddAll(f, vs[..|vs| - 1]), vs[|vs| - 1])
  }

  /** Nothing but the segment counts stands in the way of these pages. */
  ghost predicate RoomFor(f: Frame, vs: seq<Vec>) {
    && !f.cloned && |vs| <= f.maxVecs && Size(vs) / 512 <= f.q.maxSectors
    && forall k :: 0 <= k < |vs| ==> vs[k].len <= f.mergeBvec(f.sector, vs[..k], vs[k])
  }

  function Fewer(a: nat, b: nat): nat {
    if a < b then a else b
  }

  lemma RoomBefore(f: Frame, vs: seq<Vec>, v: Vec)
    requires RoomFor(f, vs + [v])
    ensures RoomFor(f, vs)
    ensures Size(vs + [v]) == Size(vs) + v.len && v.len <= f.mergeBvec(f.sector, vs, v)
  {
    var all := vs + [v];
    SizeConcat(vs, [v]);
    assert [v][1..] == [];
    assert all[..|vs|] == vs && all[|vs|] == v;
    hide Size;
    forall k | 0 <= k < |vs| ensures vs[k].len <= f.mergeBvec(f.sector, vs[..k], vs[k]) {
      assert vs[..k] == all[..k] && vs[k] == all[k];
    }
  }

  lemma Unfold(f: Frame, vs: seq<Vec>, v: Vec)
    requires LimitsOk(f.q)
    ensures AddAll(f, vs + [v]) == AddTo(f, AddAll(f, vs), v)
  {
    assert (vs + [v])[..|vs|] == vs;
    hide AddTo;
  }

  /** With the counts at one for each page it is the lower limit that decides. */
  lemma OneMore(f: Frame, vs: seq<Vec>, v: Vec)
    requires LimitsOk(f.q) && RoomFor(f, vs + [v]) && |vs| <= Fewer(f.q.maxPhysSegments, f.q.maxHwSegments)
    ensures var h := Held(vs, Size(vs), Cache(vs != [], |vs|, |vs|));
      AddTo(f, h, v) == if |vs| < Fewer(f.q.maxPhysSegments, f.q.maxHwSegments)
                        then Held(vs + [v], Size(vs + [v]), Cache(true, |vs| + 1, |vs| + 1))
                        else h.(cache := Cache(true, Recount(f.q, vs).phys, Recount(f.q, vs).hw))
  {
    hide Recount, Size, SegmentsLeft, RoomFor, Accepts;
    var h := Held(vs, Size(vs), Cache(vs != [], |vs|, |vs|));
    FreshCounts(f.q, h.cache, vs);
    Decides(f, h, v);
  }

  /** A count of an empty bio gives nothing. */
  lemma FreshCounts(q: Limits, c: Cache, vs: seq<Vec>)
    requires LimitsOk(q) && c == Cache(vs != [], |vs|, |vs|)
    ensures Refreshed(q, c, vs) == Cache(true, |vs|, |vs|)
  {
    if vs == [] { assert Recount(q, vs) == Zero; }
  }

  lemma Decides(f: Frame, h: Held, v: Vec)
    requires LimitsOk(f.q) && RoomFor(f, h.vecs + [v]) && h.size == Size(h.vecs)
    ensures f.Roomy(h, v) && Size(h.vecs + [v]) == h.size + v.len
    ensures var c := Refreshed(f.q, h.cache, h.vecs);
      && f.Takes(h, v) == SegmentsLeft(f.q, c)
      && (SegmentsLeft(f.q, c) <==> c.phys < f.q.maxPhysSegments && c.hw < f.q.maxHwSegments)
  {
    RoomBefore(f, h.vecs, v);
    hide Recount, Size, Refreshed;
  }

  lemma {:induction false} AddsOne(f: Frame, vs: seq<Vec>)
    requires LimitsOk(f.q)
    ensures |AddAll(f, vs).vecs| <= |vs|
  {
    hide Accepts, Recount, SegmentsLeft;
    if vs != [] { AddsOne(f, vs[..|vs| - 1]); }
  }

  /** Only what has been taken all along is there. */
  lemma TakenBefore(f: Frame, vs: seq<Vec>, v: Vec)
    requires LimitsOk(f.q) && AddAll(f, vs + [v]).vecs == vs + [v]
    ensures AddAll(f, vs).vecs == vs
  {
    Unfold(f, vs, v);
    AddsOne(f, vs);
    var h := AddAll(f, vs);
    hide AddAll, Accepts, Recount, SegmentsLeft;
    assert (h.vecs + [v])[..|h.vecs|] == h.vecs && (vs + [v])[..|vs|] == vs;
  }

  /**
   While all pages are accepted the counts are valid, and each page has counted as a segment:
   so there are no more pages than the lower limit.
   */
  lemma {:induction false} AllTaken(f: Frame, vs: seq<Vec>)
    requires LimitsOk(f.q) && RoomFor(f, vs) && AddAll(f, vs).vecs == vs
    ensures AddAll(f, vs) == Held(vs, Size(vs), Cache(vs != [], |vs|, |vs|))
    ensures |vs| <= Fewer(f.q.maxPhysSegments, f.q.maxHwSegments)
  {
    if vs != [] {
      hide AddTo, AddAll, RoomFor;
      var was, v := vs[..|vs| - 1], vs[|vs| - 1];
      assert vs == was + [v];
      TakenBefore(f, was, v);
      RoomBefore(f, was, v);
      AllTaken(f, was);
      OneMore(f, was, v);
      Unfold(f, was, v);
    }
  }

  /**
   A fresh bio with room otherwise takes as many pages as the lower of the two segment limits
   and refuses the next one, however the pages lie in memory.
   */
  lemma RefusesAtLimit(f: Frame, vs: seq<Vec>, v: Vec)
    requires LimitsOk(f.q) && RoomFor(f, vs + [v]) && AddAll(f, vs).vecs == vs
    ensures AddAll(f, vs + [v]).vecs == vs + [v] <==> |vs| < Fewer(f.q.maxPhysSegments, f.q.maxHwSegments)
  {
    hide AddTo, AddAll, RoomFor;
    RoomBefore(f, vs, v);
    AllTaken(f, vs);
    OneMore(f, vs, v);
    Unfold(f, vs, v);
  }

  /** The call that is refused leaves a recount behind; so a second one for the same page is accepted if that has
      room. */
  lemma SecondCallTakes(f: Frame, vs: seq<Vec>, v: Vec)
    requires LimitsOk(f.q) && RoomFor(f, vs + [v]) && AddAll(f, vs).vecs == vs
    requires |vs| >= Fewer(f.q.maxPhysSegments, f.q.maxHwSegments)
    ensures var h := AddAll(f, vs + [v]);
      && h == Held(vs, Size(vs), Cache(true, Recount(f.q, vs).phys, Recount(f.q, vs).hw))
      && (AddTo(f, h, v).vecs == vs + [v] <==>
          Recount(f.q, vs).phys < f.q.maxPhysSegments && Recount(f.q, vs).hw < f.q.maxHwSegments)
  {
    hide AddAll, Recount;
    RoomBefore(f, vs, v);
    AllTaken(f, vs);
    OneMore(f, vs, v);
    Unfold(f, vs, v);
  }

  /** Two pages that lie together are one segment. */
  lemma OnePiece(q: Limits, a: Vec, b: Vec)
    requires q == Limits(true, 65536, 0x1_0000_0000, 0, 2, 2, 255) && a == Vec(0, 0, 4096) && b == Vec(1, 0, 4096)
    ensures Recount(q, [a, b]).phys == 1 && Recount(q, [a, b]).hw == 1 && Size([a, b]) == 8192
  {
    var t1 := Count1(q, Zero, a);
    var t2 := Count1(q, t1, b);
    assert [a, b][1..] == [b] && [b][1..] == [];
    assert Count(q, t1, [b]) == Count(q, t2, []);
    assert Recount(q, [a, b]) == Count(q, t1, [b]);
    assert t2.phys == 1 && t2.hw == 1;
    assert Size([b]) == 4096;
  }

  /**
   The retry after the recount cannot succeed, because fail_segments stays set: here a
   recount finds room, and the page is refused all the same.
   */
  lemma RetryRefusesRoom()
    ensures exists q: Limits, vecs: seq<Vec>, c: Cache, v: Vec ::
      LimitsOk(q) && Recount(q, vecs).phys <= c.phys && Recount(q, vecs).hw <= c.hw
      && SegmentsLeft(q, Refreshed(q, c.(valid := false), vecs))
      && !Accepts(q, false, 16, vecs, Size(vecs), c, v, v.len)
      && Accepts(q, false, 16, vecs, Size(vecs), c.(valid := false), v, v.len)
  {
    var q := Limits(true, 65536, 0x1_0000_0000, 0, 2, 2, 255);
    var a, b, v := Vec(0, 0, 4096), Vec(1, 0, 4096), Vec(2, 0, 4096);
    var vecs, c := [a, b], Cache(true, 2, 2);
    OnePiece(q, a, b);
    hide Recount, Size;
    assert Accepts(q, false, 16, vecs, Size(vecs), c.(valid := false), v, v.len);
    assert !Accepts(q, false, 16, vecs, Size(vecs), c, v, v.len);
  }

  /**
   What the refusal depends on: given room for vectors and sectors, a page is refused though
   a recount would find segments to spare exactly when a valid cached count is at a limit.
   */
  lemma RefusedThoughRoomIff(q: Limits, maxVecs: nat, vecs: seq<Vec>, c: Cache, v: Vec, mergeBytes: nat)
    requires LimitsOk(q) && |vecs| < maxVecs && (Size(vecs) + v.len) / 512 <= q.maxSectors && v.len <= mergeBytes
    requires SegmentsLeft(q, Refreshed(q, c.(valid := false), vecs))
    ensures !Accepts(q, false, maxVecs, vecs, Size(vecs), c, v, mergeBytes)
            <==> c.valid && (c.phys >= q.maxPhysSegments || c.hw >= q.maxHwSegments)
  {
  }
}
