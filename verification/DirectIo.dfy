/**
 Direct I/O: do_direct_IO walks user pages and file blocks and hands page sections to
 submit_page_section, which defers and coalesces them into bios.
 */
module DirectIo {
  import opened Types
  import opened Segments
  import opened BioPages
  import opened DioBlocks
  import opened FileLayout

  const DIO_PAGES: nat := 64

  /** The device side: queue limits and merge_bvec_fn. */
  datatype Device = Device(q: Limits, mergeBvec: (nat, seq<Vec>, Vec) -> nat)

  /** Any piece of a page fits an empty bio, and a page holds no more than max_sectors. */
  ghost predicate DeviceOk(d: Device) {
    && LimitsOk(d.q) && d.q.maxPhysSegments >= 1 && d.q.maxHwSegments >= 1 && d.q.maxSectors >= PAGE_SIZE / 512
    && forall sector: nat, v: Vec :: v.len <= PAGE_SIZE ==> d.mergeBvec(sector, [], v) >= v.len
  }

  /** bio_get_nr_vecs */
  function NrVecs(q: Limits): nat {
    var n := (q.maxSectors * 512 + PAGE_SIZE - 1) / PAGE_SIZE;
    var m := if n > q.maxPhysSegments then q.maxPhysSegments else n;
    if m > q.maxHwSegments then q.maxHwSegments else m
  }

  /** As many pages as the largest request has, but no more than may be segments of either kind. */
  lemma NrVecsExact(q: Limits)
    ensures var n := NrVecs(q);
      && n <= q.maxPhysSegments && n <= q.maxHwSegments && (n > 0 ==> (n - 1) * PAGE_SIZE < q.maxSectors * 512)
      && (n == q.maxPhysSegments || n == q.maxHwSegments || n * PAGE_SIZE >= q.maxSectors * 512)
  {
    var m := (q.maxSectors * 512 + PAGE_SIZE - 1) / PAGE_SIZE;
    assert (m - 1) * PAGE_SIZE < q.maxSectors * 512 <= m * PAGE_SIZE;
  }

  lemma NrVecsPositive(d: Device)
    requires DeviceOk(d)
    ensures NrVecs(d.q) >= 1
  {
    assert PAGE_SIZE / 512 == 8;
    assert d.q.maxSectors * 512 >= 4096;
  }

  /** The page section that submit_page_section has put off. */
  datatype Section = Section(page: nat, offset: nat, len: nat, disk: nat)

  /** Where the walk over a segment started: file block, buffer block, and what was due and cleared before. */
  datatype Origin = Origin(block: nat, pos: nat, data: seq<Blk>, cleared: seq<(nat, nat)>)

  /**
   What the request meets outside, call by call: a bio asked for is not had, because a reaped
   bio had an error or there is no memory; get_blocks fails; get_user_pages gives that many
   pages, or none after a fault.
   */
  datatype Outside = Outside(noBio: nat -> bool, noMap: nat -> bool, userPages: nat -> nat)

  const POOLS: set<nat> := {1, 4, 16, 64, 128, 256}

  /** The vectors in a bio allocated for n pages: the smallest pool with as many; beyond BIO_MAX_PAGES there is none. */
  function PoolSize(n: nat): (m: nat)
    ensures m >= n
    ensures n <= 256 ==> m in POOLS && forall p :: p in POOLS && p >= n ==> m <= p
  {
    if n <= 1 then 1 else if n <= 4 then 4 else if n <= 16 then 16 else if n <= 64 then 64
    else if n <= 128 then 128 else if n <= 256 then 256 else n
  }

  class Dio {
    const device: Device
    const outside: Outside
    /** 1 << blkbits, and the sectors in a block */
    const bs: nat
    const spb: nat
    /** blocks in a page; 1 << blkfactor, the blocks in a filesystem block */
    const bpp: nat
    const fac: nat
    const write: bool
    const file: File
    /** The first block of the request, and i_size >> blkbits. */
    const start: nat
    const sizeBlocks: nat
    /** The page behind each page of the user's address space, and ZERO_PAGE. */
    const frame: nat -> nat
    const zeroPage: nat
    const pages: array<nat>

    var bio: Bio?
    var boundary: bool
    var pagesInIo: int
    var finalBlockInBio: int
    var curPage: Option<Section>
    var blockInFile: nat
    var finalBlock: nat
    var blocksAvailable: nat
    var nextBlockForIo: int
    var startZeroDone: bool
    var mapBh: FsMap
    var head: nat
    var tail: nat
    var currPage: nat
    var totalPages: nat
    var userPage: nat
    var firstBlockInPage: nat
    var pageErrors: bool
    /** How often a bio, a mapping and user pages have been asked for. */
    var asked: nat
    var mapCalls: nat
    var pageCalls: nat
    /** The bios handed to submit_bio, in order. */
    ghost var submitted: seq<Sent>
    /** The blocks due so far: zeros in front, the user's blocks, zeros behind. */
    ghost var lead: seq<Blk>
    ghost var data: seq<Blk>
    ghost var trail: seq<Blk>
    /** A section could not be sent and is lost. */
    ghost var lost: bool
    /** The pages got for the current segment, and the places cleared for holes. */
    ghost var got: seq<nat>
    ghost var cleared: seq<(nat, nat)>

    ghost predicate Geometry() {
      && DeviceOk(device) && FileOk(file, write) && pages.Length == DIO_PAGES
      && spb > 0 && bs == 512 * spb && bpp > 0 && Bytes(bpp) == PAGE_SIZE && fac > 0 && Bytes(fac) <= PAGE_SIZE
    }

    /** A bio asked for was not had, or was. */
    ghost predicate BioFailed()
      reads `asked
    {
      exists k :: 0 <= k < asked && outside.noBio(k)
    }

    ghost predicate BioGiven()
      reads `asked
    {
      exists k :: 0 <= k < asked && !outside.noBio(k)
    }

    ghost predicate MapFailed()
      reads `mapCalls
    {
      exists k :: 0 <= k < mapCalls && outside.noMap(k)
    }

    ghost predicate PagesFailed()
      reads `pageCalls
    {
      exists k :: 0 <= k < pageCalls && outside.userPages(k) == 0
    }

    ghost predicate Valid()
      reads `asked, `submitted, `bio, `finalBlockInBio, `curPage, bio
    {
      && Geometry()
      && (forall i :: 0 <= i < |submitted| ==> SentOk(device.q, submitted[i], bs, spb))
      && (bio != null ==> BioOpen(bio) && bio.vecs != []
                          && finalBlockInBio == bio.sector / spb + bio.size / bs)
      && (curPage.Some? ==> SectionOk(curPage.value))
      && (bio != null || submitted != [] ==> BioGiven())
    }

    lemma Shape()
      requires Valid()
      ensures Geometry()
    {
    }

    lemma Positive()
      requires Valid()
      ensures bs > 0 && spb > 0 && fac > 0 && bpp > 0
    {
    }

    lemma Sizes()
      requires Valid()
      ensures bs > 0 && spb > 0 && fac > 0 && bpp > 0 && Bytes(bpp) == PAGE_SIZE && pages.Length == DIO_PAGES
    {
    }

    /** The bio under assembly belongs to this dio and holds whole blocks. */
    ghost predicate BioOpen(b: Bio)
      requires bs > 0 && spb > 0
      reads b
    {
      b.Valid() && b.q == device.q && b.mergeBvec == device.mergeBvec && !b.cloned
      && WholeBlocks(b.vecs, bs) && b.sector % spb == 0
    }

    ghost predicate SectionOk(c: Section)
      requires bs > 0
    {
      c.len > 0 && c.len % bs == 0 && c.offset + c.len <= PAGE_SIZE
    }

    /** Blocks that have reached a bio. */
    ghost function Packed(): seq<Blk>
      requires bs > 0 && spb > 0
      reads `submitted, `bio, bio
    {
      AllBlocks(submitted, bs, spb)
      + (if bio == null then [] else VecsBlocks(bio.vecs, bio.sector / spb, bs))
    }

    /** Blocks taken over so far, the deferred section included. */
    ghost function Taken(): seq<Blk>
      requires bs > 0 && spb > 0
      reads `submitted, `bio, `curPage, bio
    {
      Packed() + (if curPage.None? then [] else SectionBlocks(curPage.value))
    }

    ghost function SectionBlocks(c: Section): seq<Blk>
      requires bs > 0
    {
      ChunkBlocks(c.page, c.offset, c.len, c.disk, bs)
    }

    /** The sections deferred so far that are still deferred or asked for a bio. */
    ghost function Sections(): nat
      reads `asked, `curPage
    {
      asked + (if curPage.Some? then 1 else 0)
    }

    /** How many more sections pages_in_io allows for. */
    ghost function Budget(): int
      reads `pagesInIo, `curPage
    {
      pagesInIo - (if curPage.Some? then 1 else 0)
    }

    constructor (device: Device, spb: nat, fac: nat, write: bool, file: File, start: nat, sizeBlocks: nat,
                 frame: nat -> nat, zeroPage: nat, outside: Outside)
      requires DeviceOk(device) && FileOk(file, write) && spb > 0 && PAGE_SIZE % (512 * spb) == 0
      requires fac > 0 && fac * (512 * spb) <= PAGE_SIZE
      ensures Sound() && fresh(pages) && bio == null && curPage.None? && pagesInIo == 0
      ensures this.device == device && this.spb == spb && this.bs == 512 * spb && this.fac == fac && this.write == write
      ensures this.file == file && this.start == start && this.sizeBlocks == sizeBlocks && this.frame == frame
          && this.zeroPage == zeroPage && this.outside == outside && asked == 0
      ensures blockInFile == start && submitted == [] && lead == [] && data == [] && trail == [] && cleared == []
      ensures !lost && !pageErrors && !startZeroDone && !mapBh.isNew
    {
      this.device, this.spb, this.bs, this.fac, this.bpp := device, spb, 512 * spb, fac, PAGE_SIZE / (512 * spb);
      this.write, this.file, this.start, this.sizeBlocks := write, file, start, sizeBlocks;
      this.frame, this.zeroPage, this.outside, this.pages := frame, zeroPage, outside, new nat[DIO_PAGES];
      this.asked, this.mapCalls, this.pageCalls := 0, 0, 0;
      this.bio, this.boundary, this.pagesInIo := null, false, 0;
      this.finalBlockInBio, this.curPage := -1, None;
      this.blockInFile, this.finalBlock, this.blocksAvailable, this.nextBlockForIo := start, start, 0, -1;
      this.startZeroDone, this.mapBh := false, FsMap(false, false, false, 0, 0);
      this.head, this.tail, this.currPage, this.totalPages, this.userPage, this.pageErrors := 0, 0, 0, 0, 0, false;
      this.firstBlockInPage := 0;
      this.submitted, this.lead, this.data, this.trail, this.lost, this.got, this.cleared := [], [], [], [], false,
        [], [];
      new;
    }

    /** What submit_bio would be given now. */
    ghost function InHand(): Sent
      requires bio != null
      reads `bio, bio
    {
      Sent(bio.sector, bio.vecs, bio.maxVecs)
    }

    /** dio_bio_submit */
    method BioSubmit()
      requires Valid() && bio != null
      modifies `bio, `boundary, `submitted
      ensures Valid() && bio == null && !boundary
      ensures Packed() == old(Packed()) && submitted == old(submitted) + [old(InHand())]
    {
      submitted := submitted + [InHand()];
      bio := null;
      boundary := false;
      assert submitted[..|submitted| - 1] == old(submitted);
      assert Packed() == AllBlocks(submitted, bs, spb);
    }

    /** The outcome of reap and allocation. */
    method AskBio() returns (ret: bool)
      modifies `asked
      ensures ret == !outside.noBio(old(asked)) && asked == old(asked) + 1
      ensures BioFailed() == (old(BioFailed()) || !ret) && BioGiven() == (old(BioGiven()) || ret)
    {
      ret := !outside.noBio(asked);
      asked := asked + 1;
    }

    /** dio_new_bio: it fails when the reap or the allocation does. */
    method NewBio(start: nat) returns (ret: bool)
      requires Geometry()
      requires bio == null && pagesInIo >= 1
      modifies `asked, `bio, `boundary
      ensures ret == !outside.noBio(old(asked)) && asked == old(asked) + 1
      ensures BioFailed() == (old(BioFailed()) || !ret) && BioGiven() == (old(BioGiven()) || ret)
      ensures Packed() == old(Packed()) && (!ret ==> bio == null)
      ensures ret ==> bio != null && fresh(bio) && BioOpen(bio) && bio.vecs == [] && bio.size == 0
                      && bio.sector == start * spb && bio.maxVecs >= 1 && !boundary && !bio.cache.valid
                      && bio.maxVecs == PoolSize(Fewer(pagesInIo, NrVecs(device.q)))
    {
      hide BioFailed, BioGiven;
      ret := AskBio();
      if !ret {
        return;
      }
      NrVecsPositive(device);
      StartsAt(start, spb);
      hide DeviceOk, FileOk, NrVecs, Bytes, AllBlocks, PoolSize;
      var nrPages := Fewer(pagesInIo, NrVecs(device.q));
      assert nrPages > 0;
      boundary := false;
      bio := new Bio(device.q, start * spb, PoolSize(nrPages), device.mergeBvec);
    }

    /** bio_add_page takes the section. */
    ghost predicate Takes(b: Bio, c: Section)
      requires LimitsOk(b.q)
      reads b
    {
      b.Fixed().Takes(b.Abs(), VecOf(c))
    }

    /** dio_bio_add_page: on success the section is in the bio; otherwise a new bio is needed. */
    method BioAddPage(c: Section) returns (ret: bool)
      requires Geometry()
      requires bio != null && BioOpen(bio) && SectionOk(c)
      modifies `pagesInIo, `finalBlockInBio, bio
      ensures BioOpen(bio) && ret == old(Takes(bio, c))
      ensures old(bio.vecs) == [] && old(bio.size) == 0 && bio.maxVecs >= 1 && !old(bio.cache.valid) ==> ret
      ensures ret ==> bio.vecs == old(bio.vecs) + [Vec(c.page, c.offset, c.len)] && bio.size == old(bio.size) + c.len
                      && pagesInIo == old(pagesInIo) - 1 && finalBlockInBio == c.disk + c.len / bs
      ensures !ret ==> bio.vecs == old(bio.vecs) && bio.size == old(bio.size)
                       && pagesInIo == old(pagesInIo) && finalBlockInBio == old(finalBlockInBio)
    {
      EmptyFits(device, c.len);
      var n := bio.AddPage(c.page, c.len, c.offset);
      if n == c.len {
        pagesInIo := pagesInIo - 1;
        finalBlockInBio := c.disk + c.len / bs;
        ret := true;
      } else {
        ret := false;
      }
    }

    function VecOf(c: Section): Vec {
      Vec(c.page, c.offset, c.len)
    }

    /** There is no bio that the section could join, or it refuses to take it. */
    ghost predicate NeedsBio(c: Section)
      requires Geometry() && (bio != null ==> BioOpen(bio))
      reads `bio, `boundary, `finalBlockInBio, bio
    {
      bio == null || finalBlockInBio != c.disk || boundary || !Takes(bio, c)
    }

    /** The deferred section needs a bio that is not to be had. */
    ghost predicate Refused()
      requires Valid()
      reads `asked, `submitted, `bio, `boundary, `finalBlockInBio, `curPage, bio
    {
      curPage.Some? && NeedsBio(curPage.value) && outside.noBio(asked)
    }

    /** The bio in hand does not continue on disk, or a metadata read is about to come between. */
    predicate Broken(c: Section)
      reads `bio, `boundary, `finalBlockInBio
    {
      bio != null && (finalBlockInBio != c.disk || boundary)
    }

    /** The first part of dio_send_cur_page: a bio that the section cannot join is submitted. */
    method EndBio(c: Section)
      requires Valid()
      modifies `bio, `boundary, `submitted
      ensures Valid() && Packed() == old(Packed())
      ensures if old(Broken(c)) then bio == null && submitted == old(submitted) + [old(InHand())]
              else bio == old(bio) && submitted == old(submitted) && boundary == old(boundary)
    {
      hide Geometry, Valid, Packed, InHand;
      if bio != null {
        if finalBlockInBio != c.disk {
          BioSubmit();
        }
        if bio != null && boundary {
          BioSubmit();
        }
      }
    }

    /**
     dio_send_cur_page: put the deferred section under I/O.  A bio that does not continue on
     disk, or that a metadata read is about to interrupt, is submitted first; a bio that
     refuses the section is submitted and a new one started.
     */
    method SendCurPage() returns (ret: bool)
      requires Valid() && curPage.Some? && pagesInIo >= 1
      modifies `asked, `bio, `boundary, `submitted, `pagesInIo, `finalBlockInBio, bio
      ensures Valid() && (bio == old(bio) || bio == null || fresh(bio))
      ensures ret == !old(Refused()) && asked == old(asked) + (if old(NeedsBio(curPage.value)) then 1 else 0)
      ensures BioFailed() == (old(BioFailed()) || !ret)
      ensures submitted == old(submitted) + (if old(bio) != null
          && old(NeedsBio(curPage.value)) then [old(InHand())] else [])
      ensures ret ==> bio != null && bio.vecs == (if old(NeedsBio(curPage.value)) then [] else old(bio.vecs))
                                     + [VecOf(curPage.value)]
      ensures ret ==> Packed() == old(Packed()) + SectionBlocks(curPage.value) && pagesInIo == old(pagesInIo) - 1
      ensures !ret ==> Packed() == old(Packed()) && pagesInIo == old(pagesInIo)
    {
      hide DeviceOk, FileOk, SentOk, SectionBlocks, Packed, Bytes, Takes, BioFailed, BioGiven, InHand;
      var c := curPage.value;
      EndBio(c);
      if bio == null {
        ret := NewBio(c.disk);
        if !ret {
          return;
        }
      }
      ret := PackSection(c);
      if !ret {
        BioSubmit();
        ret := NewBio(c.disk);
        if !ret {
          return;
        }
        ret := PackSection(c);
        assert ret;
      }
    }

    /** The page reference of a section that has been sent, or given up, is dropped. */
    method DropSection()
      requires Valid()
      modifies `curPage
      ensures Valid() && curPage.None? && Taken() == Packed()
    {
      curPage := None;
    }

    /** Send the deferred section and forget it. */
    method SendDeferred() returns (ret: bool)
      requires Valid() && curPage.Some? && pagesInIo >= 1
      modifies `asked, `bio, `boundary, `submitted, `pagesInIo, `finalBlockInBio, `curPage, bio
      ensures Valid() && (bio == old(bio) || bio == null || fresh(bio)) && curPage.None?
      ensures ret == !old(Refused()) && BioFailed() == (old(BioFailed()) || !ret) && asked <= old(asked) + 1
      ensures Taken() == (if ret then old(Taken()) else old(Packed())) && pagesInIo >= old(pagesInIo) - 1
      ensures old(boundary) && old(bio) != null ==> submitted == old(submitted) + [old(InHand())]
    {
      hide Valid, Packed, InHand, BioFailed, SectionBlocks, NeedsBio;
      Sizes();
      TakenIs();
      if boundary && bio != null { BoundaryNeeds(curPage.value); }
      ret := SendCurPage();
      DropSection();
    }

    lemma BoundaryNeeds(c: Section)
      requires Valid() && boundary && bio != null
      ensures Geometry() && BioOpen(bio) && NeedsBio(c)
    {
    }

    /** The first step of submit_page_section when the new piece continues the deferred one. */
    method GrowSection(len: nat)
      requires Valid() && curPage.Some? && len > 0 && len % bs == 0
      requires curPage.value.offset + curPage.value.len + len <= PAGE_SIZE
      modifies `curPage
      ensures Valid() && curPage == Some(old(curPage).value.(len := old(curPage).value.len + len))
      ensures Taken() == old(Taken())
                         + ChunkBlocks(curPage.value.page, old(curPage).value.offset + old(curPage).value.len, len,
                                       old(curPage).value.disk + old(curPage).value.len / bs, bs)
    {
      var c := curPage.value;
      ChunkGrows(c.page, c.offset, c.len, len, c.disk, bs);
      DivSum(c.len, len, bs);
      ghost var packed, more := Packed(), ChunkBlocks(c.page, c.offset + c.len, len, c.disk + c.len / bs, bs);
      curPage := Some(c.(len := c.len + len));
      assert packed + (SectionBlocks(c) + more) == (packed + SectionBlocks(c)) + more;
    }

    /** The piece continues the deferred section in the page and on the disk. */
    predicate Joins(page: nat, offset: nat, blocknr: nat)
      requires bs > 0
      reads `curPage
    {
      curPage.Some? && curPage.value.page == page && curPage.value.offset + curPage.value.len == offset
      && curPage.value.disk + curPage.value.len / bs == blocknr
    }

    /** Submitting the piece fails. */
    ghost predicate Bars(page: nat, offset: nat, len: nat, blocknr: nat)
      requires Valid()
      reads `asked, `submitted, `bio, `boundary, `finalBlockInBio, `curPage, bio
    {
      if Joins(page, offset, blocknr) then
        boundary && NeedsBio(curPage.value.(len := curPage.value.len + len)) && outside.noBio(asked)
      else Refused()
    }

    /**
     submit_page_section: grow the deferred section when the new piece continues it in the
     page and on the disk; otherwise send the deferred one and defer this one.
     */
    method SubmitPageSection(page: nat, offset: nat, len: nat, blocknr: nat) returns (ret: bool)
      requires Valid() && Budget() >= 1 && SectionOk(Section(page, offset, len, blocknr))
      modifies `asked, `bio, `boundary, `submitted, `pagesInIo, `finalBlockInBio, `curPage, bio
      ensures Valid() && (bio == old(bio) || bio == null || fresh(bio))
      ensures ret == !old(Bars(page, offset, len, blocknr))
      ensures ret ==> Taken() == old(Taken()) + ChunkBlocks(page, offset, len, blocknr, bs)
      ensures !ret ==> curPage.None? && Taken() == old(Packed())
      ensures old(curPage).None? ==> ret
      ensures old(Joins(page, offset, blocknr)) && !old(boundary) ==>
                asked == old(asked) && curPage == Some(old(curPage).value.(len := old(curPage).value.len + len))
      ensures old(Joins(page, offset, blocknr)) && old(boundary) ==> curPage.None?
      ensures !old(Joins(page, offset, blocknr)) && ret ==> curPage == Some(Section(page, offset, len, blocknr))
      ensures BioFailed() == (old(BioFailed()) || !ret) && Sections() <= old(Sections()) + (if ret then 1 else 0)
      ensures old(curPage).Some? && old(boundary) && old(bio) != null ==> submitted == old(submitted) + [old(InHand())]
      ensures Budget() >= old(Budget()) - 1
    {
      hide Valid, Taken, ChunkBlocks, NeedsBio, BioFailed, Packed, InHand, SectionOk;
      Sizes();
      if Joins(page, offset, blocknr) {
        JoinFits(page, offset, len, blocknr);
        GrowSection(len);
        ret := true;
        if boundary {
          ret := SendDeferred();
        }
        return;
      }
      if curPage.Some? {
        ret := SendDeferred();
        if !ret {
          return;
        }
      }
      Defer(Section(page, offset, len, blocknr));
      ret := true;
    }

    lemma JoinFits(page: nat, offset: nat, len: nat, blocknr: nat)
      requires Valid() && bs > 0 && SectionOk(Section(page, offset, len, blocknr)) && Joins(page, offset, blocknr)
      ensures len > 0 && len % bs == 0 && curPage.value.offset + curPage.value.len + len <= PAGE_SIZE
    {
    }

    method Defer(c: Section)
      requires Valid() && bs > 0 && spb > 0 && curPage.None? && SectionOk(c)
      modifies `curPage
      ensures Valid() && curPage == Some(c) && Taken() == old(Taken()) + SectionBlocks(c)
    {
      hide Geometry, Packed, SectionBlocks, SectionOk;
      curPage := Some(c);
    }

    /** The bio is either fresh at the section's disk block, or ends right before it. */
    ghost predicate Awaits(c: Section)
      requires bs > 0 && spb > 0
      reads this, bio
    {
      bio != null && BioOpen(bio)
      && if bio.vecs == [] then bio.size == 0 && bio.sector == c.disk * spb && bio.maxVecs >= 1 && !bio.cache.valid
         else finalBlockInBio == c.disk == bio.sector / spb + bio.size / bs
    }

    /** dio_bio_add_page for a bio that the section continues; only a started bio can refuse it. */
    method PackSection(c: Section) returns (ret: bool)
      requires Geometry()
      requires SectionOk(c) && Awaits(c)
      modifies `pagesInIo, `finalBlockInBio, bio
      ensures ret == old(Takes(bio, c)) && bio.vecs == old(bio.vecs) + (if ret then [VecOf(c)] else [])
      ensures BioOpen(bio) && bio.vecs != [] && finalBlockInBio == bio.sector / spb + bio.size / bs
      ensures old(bio.vecs) == [] ==> ret
      ensures ret ==> Packed() == old(Packed()) + SectionBlocks(c) && pagesInIo == old(pagesInIo) - 1
      ensures !ret ==> Packed() == old(Packed()) && pagesInIo == old(pagesInIo) && InHand() == old(InHand())
    {
      ghost var vecs, disk := bio.vecs, bio.sector / spb;
      StartsAt(c.disk, spb);
      assert Size(vecs) == bio.size;
      AppendVec(vecs, Vec(c.page, c.offset, c.len), disk, bs);
      ret := BioAddPage(c);
      if ret {
        var done := AllBlocks(submitted, bs, spb);
        var was := VecsBlocks(vecs, disk, bs);
        assert (done + was) + SectionBlocks(c) == done + (was + SectionBlocks(c));
      }
    }

    /** << blkbits */
    function Bytes(blocks: nat): nat {
      blocks * bs
    }

    /** & blkmask: how far into its filesystem block a block lies */
    function Within(block: nat): nat
      requires fac > 0
    {
      block % fac
    }

    lemma WithinBound(block: nat)
      requires fac > 0
      ensures Within(block) < fac
    {
    }

    /** Some blocks of a page make a section. */
    lemma WholeSection(page: nat, block: nat, k: nat, limit: nat, disk: nat)
      requires bs > 0 && k > 0 && block + k <= limit && Bytes(limit) <= PAGE_SIZE
      ensures SectionOk(Section(page, Bytes(block), Bytes(k), disk))
    {
      ChunkInPage(block, k, limit, bs);
      ChunkLength(k, bs);
    }

    /**
     Unless a section was lost, the blocks taken over are those that were due; one was exactly
     if a bio was not to be had.  No block asks for more than one.
     */
    ghost predicate Books()
      requires bs > 0 && spb > 0
      reads `asked, `submitted, `bio, `curPage, `lost, `lead, `data, `trail, bio
    {
      && (!lost ==> Taken() == lead + data + trail)
      && (lost <==> BioFailed()) && Sections() <= |lead| + |data| + |trail|
    }

    /**
     Where the walk stands in the file: the blocks still available are one run on disk from
     nextBlockForIo to the end of a filesystem block.
     */
    ghost predicate Here()
      requires fac > 0
      reads `blockInFile, `blocksAvailable, `nextBlockForIo, `mapBh, `startZeroDone
    {
      && RunAt(file, fac, blockInFile, blocksAvailable, nextBlockForIo, mapBh.isNew)
      && (blocksAvailable > 0 ==> mapBh.mapped && (fac == 1 || startZeroDone)
                                  && Within(blockInFile + blocksAvailable) == 0)
      && (mapBh.isNew ==> write)
    }

    /** Until a write has looked at its first block nothing has happened; then it maps whole filesystem blocks. */
    ghost predicate Opening()
      requires fac > 0
      reads `blockInFile, `blocksAvailable, `mapBh, `startZeroDone, `lead, `data
    {
      write && fac > 1 ==>
        if startZeroDone then blocksAvailable == 0 ==> Within(blockInFile) == 0 else Untouched() && !mapBh.isNew
    }

    /** And nothing has been submitted. */
    ghost predicate Idle()
      reads `startZeroDone, `curPage, `lost
    {
      write && fac > 1 && !startZeroDone ==> curPage.None? && !lost
    }

    ghost predicate Cursor()
      requires fac > 0 && bs > 0
      reads `blockInFile, `blocksAvailable, `nextBlockForIo, `mapBh, `startZeroDone, `lead, `data, `trail
    {
      Here() && Opening() && LeadOk() && trail == []
    }

    ghost predicate Untouched()
      reads `blockInFile, `lead, `data
    {
      blockInFile == start && lead == [] && data == []
    }

    /** The zeros in front end where the request starts; a new first block has them. */
    ghost predicate LeadOk()
      requires fac > 0 && bs > 0
      reads `lead, `startZeroDone
    {
      FrontZeros(file, fac, zeroPage, bs, start, lead) && (lead != [] ==> write)
      && (lead == [] && write && startZeroDone && Within(start) > 0 ==> !file.isNew(start / fac))
    }

    /** The budget covers the blocks to come, the zeros in front, and what the caller reserves. */
    ghost predicate Funded(reserve: nat)
      reads `pagesInIo, `curPage, `blockInFile, `finalBlock, `startZeroDone
    {
      blockInFile <= finalBlock && Budget() >= (finalBlock - blockInFile) + (if startZeroDone then 0 else 1) + reserve
    }

    lemma FundedIs(reserve: nat)
      ensures Funded(reserve) <==>
                blockInFile <= finalBlock
                && Budget() >= (finalBlock - blockInFile) + (if startZeroDone then 0 else 1) + reserve
    {
    }

    lemma CursorAhead()
      requires Sound() && blocksAvailable > 0
      ensures nextBlockForIo >= 0 && (fac == 1 || startZeroDone)
    {
    }

    lemma SoundSizes()
      requires Sound()
      ensures bs > 0 && spb > 0 && fac > 0 && bpp > 0 && Bytes(bpp) == PAGE_SIZE && pages.Length == DIO_PAGES
    {
      Sizes();
    }

    ghost predicate Sound()
      reads `asked, `submitted, `bio, `finalBlockInBio, `curPage, bio, `lost, `lead, `data, `trail
      reads `blockInFile, `blocksAvailable, `nextBlockForIo, `mapBh, `startZeroDone
    {
      Valid() && Books() && Cursor() && Idle()
    }

    /** The request still needs the blocks of n filesystem blocks, the last of them perhaps in part. */
    ghost predicate Needed(n: nat)
      reads `blockInFile, `finalBlock
    {
      (n - 1) * fac < finalBlock - blockInFile <= n * fac
    }

    lemma NeededIs(n: nat)
      requires fac > 0 && blockInFile < finalBlock
      requires var c := finalBlock - blockInFile; n == c / fac + (if c % fac == 0 then 0 else 1)
      ensures n >= 1 && Needed(n)
    {
      var c := finalBlock - blockInFile;
      assert c == fac * (c / fac) + c % fac;
    }

    /** get_more_blocks; a failing get_blocks leaves b_state clear. */
    method GetMoreBlocks() returns (ret: bool)
      requires Geometry() && blockInFile < finalBlock
      modifies `mapBh, `mapCalls
      ensures ret ==> !pageErrors && MapOk(file, write, blockInFile / fac, mapBh)
      ensures ret ==> exists n: nat :: Needed(n) && mapBh == file.getBlocks(blockInFile / fac, n)
      ensures ret == (!pageErrors && !outside.noMap(old(mapCalls))) && (!ret ==> pageErrors || MapFailed())
      ensures !ret ==> mapBh == if pageErrors then old(mapBh) else FsMap(false, false, false, 0, 0)
    {
      ret := !pageErrors;
      if ret {
        mapBh := FsMap(false, false, false, 0, 0);
        var fsStart, dioCount := blockInFile / fac, finalBlock - blockInFile;
        var fsCount := dioCount / fac;
        if dioCount % fac != 0 {
          fsCount := fsCount + 1;
        }
        NeededIs(fsCount);
        ret := !outside.noMap(mapCalls);
        mapCalls := mapCalls + 1;
        if ret {
          mapBh := file.getBlocks(fsStart, fsCount);
        }
      }
    }

    lemma MappingEnd(count: nat)
      requires fac > 0
      ensures blockInFile + count * fac - Within(blockInFile) == (blockInFile / fac + count) * fac
    {
      assert blockInFile == fac * (blockInFile / fac) + blockInFile % fac;
    }

    /** The part of do_direct_IO that maps more disk when no mapped blocks are left. */
    method MapBlocks() returns (ret: bool)
      requires Geometry() && Cursor() && blockInFile < finalBlock && blocksAvailable == 0
      modifies `mapBh, `mapCalls, `blocksAvailable, `nextBlockForIo
      ensures !ret ==> blocksAvailable == 0 && (mapBh == old(mapBh) || !mapBh.isNew) && (pageErrors || MapFailed())
      ensures ret ==> !pageErrors && (mapBh.isNew ==> write)
      ensures ret && !mapBh.mapped ==> blocksAvailable == 0 && DiskOf(file, blockInFile, fac).None? && !write
                                       && !mapBh.isNew
      ensures ret && mapBh.mapped ==> Arrived()
                                      && blockInFile + blocksAvailable == (blockInFile / fac + mapBh.count) * fac
    {
      hide ChunkBlocks, RunAt;
      ret := GetMoreBlocks();
      if !ret || !mapBh.mapped {
        return;
      }
      MappedRun(file, write, mapBh, fac, blockInFile);
      MappingEnd(mapBh.count);
      blocksAvailable := mapBh.count * fac;
      nextBlockForIo := mapBh.blocknr * fac;
      if fac != 1 {
        var remainder := Within(blockInFile);
        if !mapBh.isNew {
          nextBlockForIo := nextBlockForIo + remainder;
        }
        blocksAvailable := blocksAvailable - remainder;
      }
    }

    ghost predicate NeedsZeros()
      requires fac > 0
      reads `mapBh, `blockInFile
    {
      fac != 1 && mapBh.isNew && Within(blockInFile) != 0
    }

    ghost function Zeros(n: nat, disk: nat): seq<Blk>
      requires bs > 0
    {
      ChunkBlocks(zeroPage, 0, Bytes(n), disk, bs)
    }

    lemma ZeroSection(n: nat)
      requires Valid() && 0 < n <= fac && nextBlockForIo >= 0
      ensures bs > 0 && SectionOk(Section(zeroPage, 0, Bytes(n), nextBlockForIo))
    {
      Sizes();
      WholeSection(zeroPage, 0, n, fac, nextBlockForIo);
    }

    /** The deferred section could not be sent, and is gone; what had reached a bio is still there. */
    ghost predicate Dropped(section: Option<Section>, packed: seq<Blk>)
      requires bs > 0 && spb > 0
      reads `submitted, `bio, `curPage, bio
    {
      section.Some? && curPage.None? && Taken() == packed
    }

    /** Nothing deferred ends at the start of a page. */
    lemma NeverJoins(disk: nat)
      requires Valid() && bs > 0
      ensures !Joins(zeroPage, 0, disk)
    {
    }

    /** The zeros themselves, n blocks of them, and the books. */
    method SendZeros(end: bool, n: nat) returns (ghost failed: bool)
      requires Valid() && Books() && trail == [] && 0 < n <= fac && Budget() >= 1 && nextBlockForIo >= 0
      requires !end ==> data == [] && lead == [] && curPage.None? && !lost
      modifies `asked, `bio, `boundary, `submitted, `pagesInIo, `finalBlockInBio, `curPage, bio
      modifies `nextBlockForIo, `lead, `trail, `lost
      ensures Valid() && Books() && (bio == old(bio) || bio == null || fresh(bio)) && Budget() >= old(Budget()) - 1
      ensures !end ==> trail == [] && !lost && lead == Zeros(n, old(nextBlockForIo))
                       && nextBlockForIo == old(nextBlockForIo) + n
      ensures end ==> lead == old(lead) && trail == if failed then [] else Zeros(n, old(nextBlockForIo))
      ensures lost == (old(lost) || failed) && (failed ==> end && Dropped(old(curPage), old(Packed())))
      ensures failed == old(Refused())
      ensures !failed ==> Taken() == old(Taken()) + Zeros(n, old(nextBlockForIo))
    {
      hide Geometry, Valid, Taken, Budget, Packed, Bytes, SectionOk, ChunkBlocks;
      Sizes();
      ZeroSection(n);
      ghost var due := Zeros(n, nextBlockForIo);
      NeverJoins(nextBlockForIo);
      var ret := SubmitPageSection(zeroPage, 0, Bytes(n), nextBlockForIo);
      failed := !ret;
      if !ret {
        lost := true;
        return;
      }
      nextBlockForIo := nextBlockForIo + n;
      if end {
        trail := due;
        assert lead + data + trail == lead + data + [] + due;
      } else {
        lead := due;
        assert [] + [] + [] + due == lead + data + trail;
      }
    }

    /**
     dio_zero_block: zero the part of a new filesystem block in front of the request, or
     behind it.  It fails exactly where zeros are needed and the deferred section is refused:
     then neither that section nor the zeros are taken over, and the caller is not told.
     */
    method ZeroBlock(end: bool) returns (ghost failed: bool)
      requires Valid() && Books() && trail == [] && (NeedsZeros() ==> Budget() >= 1 && nextBlockForIo >= 0)
      requires NeedsZeros() && !end ==> data == [] && lead == [] && curPage.None? && !lost
      modifies `asked, `bio, `boundary, `submitted, `pagesInIo, `finalBlockInBio, `curPage, bio
      modifies `startZeroDone, `nextBlockForIo, `lead, `trail, `lost
      ensures Valid() && Books() && startZeroDone && (bio == old(bio) || bio == null || fresh(bio))
      ensures Budget() >= old(Budget()) - (if NeedsZeros() then 1 else 0)
      ensures end || !NeedsZeros() ==> lead == old(lead)
      ensures !NeedsZeros() ==> trail == [] && lost == old(lost) && nextBlockForIo == old(nextBlockForIo)
                                && curPage == old(curPage)
      ensures NeedsZeros() && !end ==> trail == [] && !lost && lead == Zeros(Within(blockInFile), old(nextBlockForIo))
                                       && nextBlockForIo == old(nextBlockForIo) + Within(blockInFile)
      ensures !NeedsZeros() ==> Refused() == old(Refused())
      ensures NeedsZeros() && end ==>
                trail == if failed then [] else Zeros(fac - Within(blockInFile), old(nextBlockForIo))
      ensures lost == (old(lost) || failed)
      ensures failed == (NeedsZeros() && old(Refused()))
      ensures failed ==> end && curPage.None? && Dropped(old(curPage), old(Packed()))
    {
      hide Geometry, Valid, Taken, Books, Budget, Packed, Zeros, Bytes, Within, Refused, BioFailed;
      Positive();
      failed := false;
      startZeroDone := true;
      if fac == 1 || !mapBh.isNew {
        return;
      }
      var n := Within(blockInFile);
      WithinBound(blockInFile);
      if n == 0 {
        return;
      }
      if end {
        n := fac - n;
      }
      failed := SendZeros(end, n);
    }

    /** After MapBlocks: the next block is mapped, its filesystem block perhaps still to be zeroed in front. */
    ghost predicate Arrived()
      requires fac > 0
      reads `blocksAvailable, `nextBlockForIo, `mapBh, `blockInFile
    {
      blocksAvailable > 0 && mapBh.mapped && nextBlockForIo >= 0 && Within(blockInFile + blocksAvailable) == 0
      && (mapBh.isNew ==> write)
      && RunAt(file, fac, blockInFile, blocksAvailable,
        nextBlockForIo + (if mapBh.isNew then Within(blockInFile) else 0), mapBh.isNew)
    }

    lemma ArrivedAt()
      requires fac > 0 && Arrived()
      ensures DiskOf(file, blockInFile, fac) == Some(nextBlockForIo + if mapBh.isNew then Within(blockInFile) else 0)
      ensures file.isNew(blockInFile / fac) ==> mapBh.isNew
    {
      assert blockInFile <= blockInFile < blockInFile + blocksAvailable;
      hide DiskOf;
    }

    lemma NoLeadYet()
      requires fac > 0 && bs > 0 && LeadOk() && (write ==> Untouched())
      ensures lead == []
    {
      hide FrontZeros;
    }

    lemma LeadIs(disk: nat)
      requires fac > 0 && bs > 0 && write && Within(start) > 0 && DiskOf(file, start, fac) == Some(disk + Within(start))
      requires lead == Zeros(Within(start), disk)
      ensures LeadOk()
    {
      ChunkLength(Within(start), bs);
    }

    lemma LeadNone()
      requires fac > 0 && bs > 0 && lead == [] && (write && Within(start) > 0 ==> !file.isNew(start / fac))
      ensures LeadOk()
    {
    }

    /** The step that zeroes the start of the first mapped block. */
    method StartZeros()
      requires Valid() && Books() && Arrived() && Budget() >= 1 && !startZeroDone && fac != 1 && trail == [] && LeadOk()
      requires write ==> Untouched() && Idle()
      modifies `asked, `bio, `boundary, `submitted, `pagesInIo, `finalBlockInBio, `curPage, bio
      modifies `startZeroDone, `nextBlockForIo, `lead, `trail, `lost
      ensures Sound() && startZeroDone && (bio == old(bio) || bio == null || fresh(bio))
      ensures lost == old(lost) && Budget() >= old(Budget()) - 1
    {
      hide Geometry, Valid, Taken, Books, Budget, RunAt, DiskOf, Within, Zeros, LeadOk, Refused;
      Positive();
      ArrivedAt();
      NoLeadYet();
      ghost var needed, disk := NeedsZeros(), nextBlockForIo;
      ghost var failed := ZeroBlock(false);
      if needed {
        LeadIs(disk);
      } else {
        LeadNone();
      }
    }

    /** Map the next blocks, and zero the start of the first one, when that is still to be done. */
    method NextBlocks(ghost reserve: nat) returns (ret: bool)
      requires Sound() && blockInFile < finalBlock && Funded(reserve)
      modifies `asked, `bio, `boundary, `submitted, `pagesInIo, `finalBlockInBio, `curPage, bio
      modifies `startZeroDone, `nextBlockForIo, `lead, `trail, `lost, `mapBh, `mapCalls, `blocksAvailable
      ensures Sound() && (bio == old(bio) || bio == null || fresh(bio))
      ensures lost == old(lost) && Funded(reserve)
      ensures ret ==> (blocksAvailable > 0 <==> mapBh.mapped)
      ensures !ret ==> pageErrors || MapFailed()
      ensures ret && !mapBh.mapped ==> !write && DiskOf(file, blockInFile, fac).None?
    {
      hide ChunkBlocks, FileOk, DeviceOk, Valid, Taken, Books, LeadOk, DiskOf, Bytes, Budget;
      SoundSizes();
      Shape();
      ret := true;
      if blocksAvailable == 0 {
        ret := MapBlocks();
        if !ret || !mapBh.mapped {
          return;
        }
      }
      if fac != 1 && !startZeroDone {
        StartZeros();
      }
    }

    /**
     How many blocks to submit: what is available, fits the page and belongs to the request.
     There is at least one, so the BUG_ON for an empty chunk cannot fire.
     */
    method ChunkSize(blockInPage: nat) returns (k: nat)
      requires bs > 0 && Bytes(bpp) == PAGE_SIZE && blocksAvailable > 0 && blockInFile < finalBlock && blockInPage < bpp
      ensures 0 < k <= blocksAvailable && blockInPage + k <= bpp && blockInFile + k <= finalBlock
      ensures k == blocksAvailable || blockInPage + k == bpp || blockInFile + k == finalBlock
    {
      ChunkInPage(blockInPage, bpp - blockInPage, bpp, bs);
      k := blocksAvailable;
      var u := (PAGE_SIZE - Bytes(blockInPage)) / bs;
      if k > u {
        k := u;
      }
      u := finalBlock - blockInFile;
      if k > u {
        k := u;
      }
    }

    /** Move on by k submitted blocks. */
    method Advance(k: nat, ghost due: seq<Blk>)
      requires bs > 0 && spb > 0 && fac > 0 && Cursor() && 0 < k <= blocksAvailable
          && (!lost ==> Taken() == (lead + data + trail) + due)
      requires (lost <==> BioFailed()) && Sections() <= |lead| + |data| + |trail| + 1 && |due| >= 1
      modifies `nextBlockForIo, `blockInFile, `blocksAvailable, `data
      ensures Books() && Cursor() && data == old(data) + due && blockInFile == old(blockInFile) + k
      ensures RunAt(file, fac, old(blockInFile), k, old(nextBlockForIo), mapBh.isNew)
    {
      RunRest(file, fac, blockInFile, blocksAvailable, nextBlockForIo, mapBh.isNew, k);
      hide Taken, RunAt, LeadOk;
      data := data + due;
      assert lead + data + [] == (lead + old(data) + []) + due;
      nextBlockForIo := nextBlockForIo + k;
      blockInFile := blockInFile + k;
      blocksAvailable := blocksAvailable - k;
      assert blockInFile + blocksAvailable == old(blockInFile) + old(blocksAvailable);
    }

    /** Hand k blocks to submit_page_section. */
    method Put(page: nat, blockInPage: nat, k: nat) returns (ret: bool)
      requires Sound() && blocksAvailable > 0 && 0 < k && blockInPage + k <= bpp && Budget() >= 1 && nextBlockForIo >= 0
      modifies `asked, `bio, `boundary, `submitted, `pagesInIo, `finalBlockInBio, `curPage, bio, `lost
      ensures Valid() && Idle() && (bio == old(bio) || bio == null || fresh(bio)) && Budget() >= old(Budget()) - 1
      ensures (lost <==> BioFailed()) && Sections() <= |lead| + |data| + |trail| + (if ret then 1 else 0)
      ensures old(curPage).Some? && mapBh.boundary && old(bio) != null ==> submitted == old(submitted) + [old(InHand())]
      ensures ret ==> lost == old(lost)
                      && (!lost ==> Taken() == (lead + data + trail)
                                    + ChunkBlocks(page, Bytes(blockInPage), Bytes(k), nextBlockForIo, bs))
      ensures !ret ==> lost
    {
      hide *;
      SoundSizes();
      WholeSection(page, blockInPage, k, bpp, nextBlockForIo);
      CursorAhead();
      SoundParts();
      BooksAre();
      boundary := mapBh.boundary;
      ret := SubmitPageSection(page, Bytes(blockInPage), Bytes(k), nextBlockForIo);
      if !ret {
        lost := true;
      }
      IdleIs();
    }

    lemma BooksAre()
      requires bs > 0 && spb > 0 && Books()
      ensures bs > 0 && spb > 0 && (!lost ==> Taken() == lead + data + trail)
      ensures (lost <==> BioFailed()) && Sections() <= |lead| + |data| + |trail|
    {
    }

    lemma IdleIs()
      requires fac == 1 || startZeroDone
      ensures Idle()
    {
    }

    lemma DueCount(page: nat, blockInPage: nat, k: nat, disk: nat)
      requires bs > 0
      ensures |ChunkBlocks(page, Bytes(blockInPage), Bytes(k), disk, bs)| == k
    {
      DivUnique(k * bs, bs, k, 0);
    }

    /** Submit the next chunk of the request. */
    method SubmitChunk(page: nat, blockInPage: nat) returns (ret: bool, k: nat)
      requires Sound() && blocksAvailable > 0 && blockInFile < finalBlock && blockInPage < bpp && Budget() >= 1
      modifies `asked, `bio, `boundary, `submitted, `pagesInIo, `finalBlockInBio, `curPage, bio
      modifies `nextBlockForIo, `blockInFile, `blocksAvailable, `data, `lost
      ensures Sound() && (bio == old(bio) || bio == null || fresh(bio)) && Budget() >= old(Budget()) - 1
      ensures ret ==> k > 0 && blockInFile == old(blockInFile) + k <= finalBlock && blockInPage + k <= bpp
                      && lost == old(lost) && old(nextBlockForIo) >= 0
                      && RunAt(file, fac, old(blockInFile), k, old(nextBlockForIo), mapBh.isNew)
                      && data == old(data) + ChunkBlocks(page, Bytes(blockInPage), Bytes(k), old(nextBlockForIo), bs)
      ensures !ret ==> lost && blockInFile == old(blockInFile) && data == old(data)
    {
      hide ChunkBlocks, Geometry, Valid, Taken, Budget, RunAt, Bytes, Cursor;
      SoundSizes();
      CursorAhead();
      k := ChunkSize(blockInPage);
      ghost var due := ChunkBlocks(page, Bytes(blockInPage), Bytes(k), nextBlockForIo, bs);
      ret := Put(page, blockInPage, k);
      if ret {
        DueCount(page, blockInPage, k, old(nextBlockForIo));
        Advance(k, due);
      }
    }

    /** The user's pages as far as they have been got. */
    ghost function Buf(): Buffer
      reads `got
    {
      Buffer(got, bpp, bs)
    }

    /** What the walk over the current segment has done since it started at o. */
    ghost predicate Progress(o: Origin)
      requires bpp > 0 && bs > 0 && fac > 0
      reads `got, `blockInFile, `data, `cleared
    {
      o.block <= blockInFile
      && data == o.data + Transfer(file, fac, Buf(), o.block, blockInFile - o.block, o.pos)
      && cleared == o.cleared + Holes(file, fac, Buf(), o.block, blockInFile - o.block, o.pos)
      && HolesInside(file, fac, sizeBlocks, o.block, blockInFile - o.block)
    }

    /** The next block of the file goes to the given block of the page got last. */
    ghost predicate InStep(o: Origin, blockInPage: nat)
      reads `got, `blockInFile
    {
      got != [] && o.block <= blockInFile && o.pos + (blockInFile - o.block) == (|got| - 1) * bpp + blockInPage
    }

    /** The walk stays inside the pages got. */
    ghost predicate Covered(o: Origin)
      reads `got, `blockInFile
    {
      o.block <= blockInFile && (blockInFile == o.block || o.pos + (blockInFile - o.block) <= |got| * bpp)
    }

    lemma InStepCovered(o: Origin, blockInPage: nat)
      requires InStep(o, blockInPage) && blockInPage <= bpp
      ensures Covered(o)
    {
    }

    ghost predicate AtEof()
      requires fac > 0
      reads `blockInFile, `finalBlock
    {
      !write && sizeBlocks <= blockInFile < finalBlock && DiskOf(file, blockInFile, fac).None?
    }

    lemma ChunkDone(o: Origin, from: nat, was: seq<Blk>, page: nat, blockInPage: nat, k: nat, disk: nat)
      requires bpp > 0 && bs > 0 && fac > 0 && k > 0 && o.block <= from && blockInFile == from + k
          && blockInPage < bpp && blockInPage + k <= bpp
      requires got != [] && got[|got| - 1] == page && o.pos + (from - o.block) == (|got| - 1) * bpp + blockInPage
      requires RunAt(file, fac, from, k, disk, mapBh.isNew)
      requires was == o.data + Transfer(file, fac, Buf(), o.block, from - o.block, o.pos)
      requires cleared == o.cleared + Holes(file, fac, Buf(), o.block, from - o.block, o.pos)
      requires data == was + ChunkBlocks(page, Bytes(blockInPage), Bytes(k), disk, bs)
      requires HolesInside(file, fac, sizeBlocks, o.block, from - o.block)
      ensures Progress(o) && InStep(o, blockInPage + k)
    {
      HolesNext(file, fac, sizeBlocks, o.block, from - o.block, k, disk, mapBh.isNew);
      hide ChunkBlocks, RunAt, HolesInside;
      ChunkStep(file, fac, Buf(), o.block, from - o.block, o.pos, blockInPage, k, disk, mapBh.isNew);
      assert from - o.block + k == blockInFile - o.block;
    }

    lemma HoleDone(o: Origin, from: nat, was: seq<(nat, nat)>, blockInPage: nat)
      requires bpp > 0 && bs > 0 && fac > 0 && o.block <= from && blockInFile == from + 1 && blockInPage < bpp
      requires got != [] && o.pos + (from - o.block) == (|got| - 1) * bpp + blockInPage && DiskOf(file, from, fac).None?
      requires was == o.cleared + Holes(file, fac, Buf(), o.block, from - o.block, o.pos)
      requires data == o.data + Transfer(file, fac, Buf(), o.block, from - o.block, o.pos)
      requires cleared == was + [(got[|got| - 1], Bytes(blockInPage))]
      requires HolesInside(file, fac, sizeBlocks, o.block, from - o.block) && from < sizeBlocks
      ensures Progress(o) && InStep(o, blockInPage + 1)
    {
      HoleBelow(file, fac, sizeBlocks, o.block, from - o.block);
      hide HolesInside;
      HoleStep(file, fac, Buf(), o.block, from - o.block, o.pos, blockInPage);
      assert from - o.block + 1 == blockInFile - o.block;
    }

    /** Clear the place of a block over a hole. */
    method ClearHole(page: nat, blockInPage: nat, ghost o: Origin)
      requires Geometry() && !write && Cursor() && blocksAvailable == 0 && DiskOf(file, blockInFile, fac).None?
          && blockInPage < bpp && blockInFile < sizeBlocks
      requires InStep(o, blockInPage) && got[|got| - 1] == page && Progress(o)
      modifies `blockInFile, `cleared
      ensures Cursor() && blockInFile == old(blockInFile) + 1
      ensures Progress(o) && InStep(o, blockInPage + 1)
    {
      hide Bytes, FileOk, DeviceOk, LeadOk, DiskOf, Transfer, Holes, HolesInside;
      ghost var from, was := blockInFile, cleared;
      cleared := cleared + [(page, Bytes(blockInPage))];
      blockInFile := blockInFile + 1;
      HoleDone(o, from, was, blockInPage);
    }

    /** Submit a chunk, and keep count of the walk. */
    method StepChunk(page: nat, blockInPage: nat, ghost o: Origin)
      returns (ret: bool, k: nat)
      requires Sound() && blocksAvailable > 0 && blockInFile < finalBlock && blockInPage < bpp && Budget() >= 1
      requires InStep(o, blockInPage) && got[|got| - 1] == page && Progress(o)
      modifies `asked, `bio, `boundary, `submitted, `pagesInIo, `finalBlockInBio, `curPage, bio
      modifies `nextBlockForIo, `blockInFile, `blocksAvailable, `data, `lost
      ensures Sound() && (bio == old(bio) || bio == null || fresh(bio)) && Budget() >= old(Budget()) - 1
      ensures Progress(o)
      ensures ret ==> k > 0 && blockInFile == old(blockInFile) + k <= finalBlock && blockInPage + k <= bpp
                      && lost == old(lost) && InStep(o, blockInPage + k)
      ensures !ret ==> blockInFile == old(blockInFile) && lost
    {
      hide ChunkBlocks, FileOk, DeviceOk, Sound, RunAt, Bytes, Transfer, Holes, Budget, HolesInside;
      SoundSizes();
      ghost var from, was, at := blockInFile, data, nextBlockForIo;
      ret, k := SubmitChunk(page, blockInPage);
      if ret {
        ChunkDone(o, from, was, page, blockInPage, k, at);
      }
    }

    /** With the next block mapped or known to be a hole: clear its place, or submit a chunk. */
    method MoveOn(page: nat, blockInPage: nat, ghost o: Origin, ghost reserve: nat)
      returns (ret: bool, eof: bool, next: nat)
      requires Sound() && Funded(reserve) && blockInFile < finalBlock && blockInPage < bpp
          && (blocksAvailable > 0 <==> mapBh.mapped)
      requires !mapBh.mapped ==> !write && DiskOf(file, blockInFile, fac).None?
      requires InStep(o, blockInPage) && got[|got| - 1] == page && Progress(o)
      modifies `asked, `bio, `boundary, `submitted, `pagesInIo, `finalBlockInBio, `curPage, bio
      modifies `nextBlockForIo, `blockInFile, `blocksAvailable, `data, `lost, `cleared
      ensures Sound() && (bio == old(bio) || bio == null || fresh(bio)) && Progress(o)
      ensures ret ==> Funded(reserve) && lost == old(lost)
      ensures !ret ==> Budget() >= reserve && lost
      ensures !ret || eof ==> blockInFile == old(blockInFile)
      ensures eof ==> ret && AtEof()
      ensures ret && !eof ==> old(blockInFile) < blockInFile && InStep(o, next) && blockInPage < next <= bpp
    {
      hide Geometry, DiskOf, Bytes, Progress, InStep, Budget, Valid, Books, Idle;
      SoundSizes();
      Shape();
      ret, eof, next := true, false, blockInPage;
      if mapBh.mapped {
        var k;
        ret, k := StepChunk(page, blockInPage, o);
        next := blockInPage + k;
      } else if blockInFile >= sizeBlocks {
        eof := true;
      } else {
        ClearHole(page, blockInPage, o);
        next := blockInPage + 1;
      }
    }

    /** One round of the inner loop. */
    method Step(page: nat, blockInPage: nat, ghost o: Origin, ghost reserve: nat)
      returns (ret: bool, eof: bool, next: nat)
      requires Sound() && Funded(reserve) && blockInPage < bpp && blockInFile < finalBlock
      requires InStep(o, blockInPage) && got[|got| - 1] == page && Progress(o)
      modifies `asked, `bio, `boundary, `submitted, `pagesInIo, `finalBlockInBio, `curPage, bio
      modifies `startZeroDone, `nextBlockForIo, `lead, `trail, `lost, `mapBh, `mapCalls
      modifies `blocksAvailable, `blockInFile, `data, `cleared
      ensures Sound() && (bio == old(bio) || bio == null || fresh(bio)) && Progress(o)
      ensures ret ==> Funded(reserve) && lost == old(lost)
      ensures !ret ==> Budget() >= reserve && blockInFile == old(blockInFile) && !eof
                       && (lost || pageErrors || MapFailed())
      ensures eof ==> AtEof() && blockInFile == old(blockInFile)
      ensures ret && !eof ==> old(blockInFile) < blockInFile && InStep(o, next) && blockInPage < next <= bpp
      ensures Covered(o)
    {
      hide *;
      InStepCovered(o, blockInPage);
      eof, next := false, blockInPage;
      ret := NextBlocks(reserve);
      FundedIs(reserve);
      if ret {
        ret, eof, next := MoveOn(page, blockInPage, o, reserve);
        if ret && !eof {
          InStepCovered(o, next);
        }
      }
    }

    /** The inner loop of do_direct_IO: fill one page of the user from the file, or empty it into it. */
    method WalkPage(page: nat, first: nat, ghost o: Origin, ghost reserve: nat)
      returns (ret: bool, eof: bool)
      requires Sound() && Funded(reserve) && first < bpp && blockInFile < finalBlock
      requires InStep(o, first) && got[|got| - 1] == page && Progress(o)
      modifies `asked, `bio, `boundary, `submitted, `pagesInIo, `finalBlockInBio, `curPage, bio
      modifies `startZeroDone, `nextBlockForIo, `lead, `trail, `lost, `mapBh, `mapCalls
      modifies `blocksAvailable, `blockInFile, `data, `cleared
      ensures Sound() && (bio == old(bio) || bio == null || fresh(bio))
      ensures Progress(o) && old(blockInFile) <= blockInFile <= finalBlock && Covered(o)
      ensures ret ==> Funded(reserve) && lost == old(lost)
      ensures !ret ==> Budget() >= reserve && !eof && blockInFile < finalBlock && (lost || pageErrors || MapFailed())
      ensures eof ==> AtEof()
      ensures ret && !eof ==> old(blockInFile) < blockInFile && (blockInFile == finalBlock || InStep(o, bpp))
    {
      hide Sound, Progress, AtEof, InStep, DeviceOk, FileOk, Bytes, MapFailed;
      SoundSizes();
      InStepCovered(o, first);
      var blockInPage := first;
      ret, eof := true, false;
      while blockInPage < bpp
        invariant Sound() && (bio == old(bio) || bio == null || fresh(bio)) && Funded(reserve)
        invariant Progress(o) && InStep(o, blockInPage) && blockInPage <= bpp
        invariant old(blockInFile) <= blockInFile < finalBlock && Covered(o) && lost == old(lost) && ret && !eof
        invariant blockInPage > first ==> old(blockInFile) < blockInFile
        decreases bpp - blockInPage
      {
        ret, eof, blockInPage := Step(page, blockInPage, o, reserve);
        if !ret || eof || blockInFile == finalBlock {
          return;
        }
      }
    }

    /** The queue holds the user's next pages, in order; after a fault it may lag behind. */
    ghost predicate QueueOk(first: nat)
      reads `head, `tail, `currPage, `totalPages, `userPage, `pageCalls, `pageErrors, `got, pages
    {
      && Excused() && pages.Length == DIO_PAGES && head <= tail <= DIO_PAGES && currPage <= totalPages
        && currPage <= |got| + (tail - head)
      && (!pageErrors ==> currPage == |got| + (tail - head) && userPage == first + currPage && QueueTrue(first))
    }

    /** A page is missing only after a fault. */
    ghost predicate Excused()
      reads `pageErrors, `pageCalls
    {
      pageErrors ==> PagesFailed()
    }

    ghost predicate QueueTrue(first: nat)
      requires head <= tail <= pages.Length
      reads `head, `tail, `got, pages
    {
      && (forall i :: head <= i < tail ==> pages[i] == frame(first + |got| + (i - head)))
      && (forall i :: 0 <= i < |got| ==> got[i] == frame(first + i))
    }

    /** get_user_pages */
    method AskPages() returns (n: nat)
      modifies `pageCalls
      ensures n == outside.userPages(old(pageCalls)) && pageCalls == old(pageCalls) + 1
      ensures PagesFailed() == (old(PagesFailed()) || n == 0)
    {
      n := outside.userPages(pageCalls);
      pageCalls := pageCalls + 1;
    }

    /**
     dio_refill_pages.  A write that still has mapped blocks goes on with the zero page after
     a memory fault, so that these blocks are written.  The queue is not empty afterwards.
     */
    method RefillPages(ghost first: nat) returns (ret: bool)
      requires QueueOk(first) && head == tail && |got| < totalPages
      modifies `head, `tail, `currPage, `userPage, `pageCalls, `pageErrors, pages
      ensures QueueOk(first) && (ret ==> head < tail)
      ensures ret <==> outside.userPages(old(pageCalls)) > 0 || (write && blocksAvailable > 0)
      ensures var n := outside.userPages(old(pageCalls)); n > 0 ==>
        pageErrors == old(pageErrors) && tail - head == Fewer(n, Fewer(DIO_PAGES, totalPages - old(currPage)))
      ensures !ret ==> pageErrors == old(pageErrors) && head == tail && !(write && blocksAvailable > 0) && PagesFailed()
      ensures ret && pageErrors != old(pageErrors) ==> pageErrors && write && blocksAvailable > 0
                                                       && pages[head] == zeroPage
    {
      var nrPages := if totalPages - currPage < DIO_PAGES then totalPages - currPage else DIO_PAGES;
      hide PagesFailed, QueueTrue;
      var n := AskPages();
      if n == 0 && blocksAvailable != 0 && write {
        pageErrors := true;
        pages[0] := zeroPage;
        head, tail := 0, 1;
        return true;
      }
      ret := n != 0;
      if ret {
        LoadPages(first, if n > nrPages then nrPages else n);
      }
    }

    /** The n pages got. */
    method LoadPages(ghost first: nat, n: nat)
      requires QueueOk(first) && head == tail && 0 < n <= DIO_PAGES && n <= totalPages - currPage
      modifies `head, `tail, `currPage, `userPage, pages
      ensures QueueOk(first) && head < tail == head + n
    {
      hide PagesFailed;
      forall i | 0 <= i < n {
        pages[i] := frame(userPage + i);
      }
      userPage := userPage + n;
      currPage := currPage + n;
      head, tail := 0, n;
    }

    /** dio_get_page */
    method GetPage(ghost first: nat) returns (page: Option<nat>)
      requires QueueOk(first) && |got| < totalPages
      modifies `head, `tail, `currPage, `userPage, `pageCalls, `pageErrors, `got, pages
      ensures QueueOk(first) && (old(pageErrors) ==> pageErrors)
      ensures page.Some? ==> got == old(got) + [page.value]
      ensures page.None? ==> got == old(got) && pageErrors == old(pageErrors) && !(write && blocksAvailable > 0)
                             && PagesFailed()
    {
      hide PagesFailed, QueueTrue, Excused;
      if head == tail {
        var ret := RefillPages(first);
        if !ret {
          return None;
        }
      }
      page := Some(pages[head]);
      PassPage(first);
    }

    /** The page at the head is the next one got. */
    method PassPage(ghost first: nat)
      requires QueueOk(first) && head < tail
      modifies `head, `got
      ensures QueueOk(first) && got == old(got) + [pages[old(head)]]
    {
      hide Excused;
      got := got + [pages[head]];
      head := head + 1;
    }

    /** Getting one more page changes nothing of the walk so far, and the walk goes on in it. */
    lemma PageGot(o: Origin, was: seq<nat>, page: nat, blockInPage: nat)
      requires bpp > 0 && bs > 0 && fac > 0 && got == was + [page] && o.block <= blockInFile
      requires o.pos + (blockInFile - o.block) == |was| * bpp + blockInPage
          && (blockInFile == o.block || blockInPage == 0)
      requires data == o.data + Transfer(file, fac, Buffer(was, bpp, bs), o.block, blockInFile - o.block, o.pos)
      requires cleared == o.cleared + Holes(file, fac, Buffer(was, bpp, bs), o.block, blockInFile - o.block, o.pos)
      requires HolesInside(file, fac, sizeBlocks, o.block, blockInFile - o.block)
      ensures Progress(o) && InStep(o, blockInPage)
    {
      hide HolesInside;
      if blockInFile > o.block {
        TransferPrefix(file, fac, Buffer(was, bpp, bs), [page], o.block, blockInFile - o.block, o.pos);
      }
    }

    /** The walk stands at a block of the page to be got next. */
    ghost predicate BeforePage(o: Origin, blockInPage: nat)
      reads `got, `blockInFile
    {
      o.block <= blockInFile && o.pos + (blockInFile - o.block) == |got| * bpp + blockInPage
        && (blockInFile == o.block || blockInPage == 0) && blockInPage < bpp
    }

    lemma PageLeft(o: Origin, blockInPage: nat)
      requires BeforePage(o, blockInPage) && blockInFile < finalBlock
          && o.pos + (finalBlock - o.block) <= totalPages * bpp
      ensures |got| < totalPages
    {
      assert |got| >= totalPages ==> |got| * bpp >= totalPages * bpp;
    }

    /** Get the page the walk goes on in. */
    method EnterPage(first: nat, ghost o: Origin, ghost user: nat)
      returns (page: Option<nat>)
      requires bs > 0 && fac > 0 && bpp > 0 && QueueOk(user) && |got| < totalPages
      requires BeforePage(o, first) && Progress(o)
      modifies `head, `tail, `currPage, `userPage, `pageCalls, `pageErrors, `got, pages
      ensures QueueOk(user) && (old(pageErrors) ==> pageErrors)
      ensures Progress(o) && Covered(o)
      ensures if page.Some? then InStep(o, first) && got[|got| - 1] == page.value else PagesFailed()
    {
      hide Transfer, Holes, QueueOk, HolesInside;
      ghost var was := got;
      page := GetPage(user);
      if page.Some? {
        PageGot(o, was, page.value, first);
      }
    }

    /** The walk has been left before its end, and why. */
    ghost predicate Stopped()
      reads `blockInFile, `finalBlock, `lost, `mapCalls, `pageCalls
    {
      blockInFile < finalBlock && (lost || MapFailed() || PagesFailed())
    }

    lemma StoppedIs(user: nat)
      requires blockInFile < finalBlock && QueueOk(user) && (lost || pageErrors || MapFailed() || PagesFailed())
      ensures Stopped()
    {
    }

    /** One round of the outer loop of do_direct_IO: get a page and walk it. */
    method NextPage(first: nat, ghost o: Origin, ghost reserve: nat, ghost user: nat)
      returns (ret: bool, eof: bool)
      requires Sound() && Funded(reserve) && QueueOk(user) && blockInFile < finalBlock && |got| < totalPages
      requires BeforePage(o, first) && Progress(o)
      modifies `asked, `bio, `boundary, `submitted, `pagesInIo, `finalBlockInBio, `curPage, bio
      modifies `startZeroDone, `nextBlockForIo, `lead, `trail, `lost, `mapBh, `mapCalls
      modifies `blocksAvailable, `blockInFile, `data, `cleared
      modifies `head, `tail, `currPage, `userPage, `pageCalls, `pageErrors, `got, pages
      ensures Sound() && (bio == old(bio) || bio == null || fresh(bio)) && QueueOk(user)
          && (old(pageErrors) ==> pageErrors)
      ensures Progress(o) && old(blockInFile) <= blockInFile <= finalBlock && Covered(o)
      ensures ret ==> Funded(reserve) && lost == old(lost)
      ensures !ret ==> Budget() >= reserve && !eof && Stopped()
      ensures eof ==> AtEof()
      ensures ret && !eof ==> old(blockInFile) < blockInFile && (blockInFile == finalBlock || BeforePage(o, 0))
    {
      hide *;
      PageStart(o, first);
      FundedIs(reserve);
      var page := EnterPage(first, o, user);
      ret, eof := page.Some?, false;
      if ret {
        ret, eof := WalkPage(page.value, first, o, reserve);
        if ret && !eof && blockInFile != finalBlock {
          PageFull(o);
        }
      }
      if !ret {
        StoppedIs(user);
      }
    }

    lemma PageStart(o: Origin, first: nat)
      requires Sound() && BeforePage(o, first)
      ensures bs > 0 && spb > 0 && fac > 0 && bpp > 0 && first < bpp
    {
      Positive();
    }

    lemma PageFull(o: Origin)
      requires InStep(o, bpp) && bpp > 0
      ensures BeforePage(o, 0)
    {
    }

    /** do_direct_IO: walk one segment of the user's buffer and the blocks of the file it is for. */
    method DoDirectIo(ghost reserve: nat, ghost user: nat) returns (ret: bool, eof: bool)
      requires Sound() && Funded(reserve) && QueueOk(user) && got == [] && firstBlockInPage < bpp
      requires blockInFile < finalBlock ==> firstBlockInPage + (finalBlock - blockInFile) <= totalPages * bpp
      modifies `asked, `bio, `boundary, `submitted, `pagesInIo, `finalBlockInBio, `curPage, bio
      modifies `startZeroDone, `nextBlockForIo, `lead, `trail, `lost, `mapBh, `mapCalls
      modifies `blocksAvailable, `blockInFile, `data, `cleared
      modifies `head, `tail, `currPage, `userPage, `pageCalls, `pageErrors, `got, pages
      ensures Sound() && (bio == old(bio) || bio == null || fresh(bio)) && QueueOk(user)
          && (old(pageErrors) ==> pageErrors)
      ensures Progress(Origin(old(blockInFile), firstBlockInPage, old(data), old(cleared))) && blockInFile <= finalBlock
      ensures Covered(Origin(old(blockInFile), firstBlockInPage, old(data), old(cleared)))
      ensures ret ==> Funded(reserve) && lost == old(lost)
      ensures !ret ==> Budget() >= reserve && !eof && Stopped()
      ensures ret ==> if eof then AtEof() else blockInFile == finalBlock
    {
      hide *;
      ghost var o := Origin(blockInFile, firstBlockInPage, data, cleared);
      StartOfWalk();
      FundedIs(reserve);
      var blockInPage := firstBlockInPage;
      ret, eof := true, false;
      while blockInFile < finalBlock
        invariant Sound() && (bio == old(bio) || bio == null || fresh(bio)) && QueueOk(user)
            && (old(pageErrors) ==> pageErrors)
        invariant Progress(o) && o.block <= blockInFile <= finalBlock && Covered(o)
        invariant Funded(reserve) && lost == old(lost) && ret && !eof
        invariant blockInFile == finalBlock || BeforePage(o, blockInPage)
        decreases finalBlock - blockInFile
      {
        PageLeft(o, blockInPage);
        ret, eof := NextPage(blockInPage, o, reserve, user);
        if !ret || eof {
          return;
        }
        blockInPage := 0;
      }
    }

    /** The iovec loop sets a segment of n blocks up, with an empty page queue. */
    method StartSegment(first: nat, n: nat, total: nat, user: nat)
      modifies `firstBlockInPage, `finalBlock, `head, `tail, `currPage, `totalPages, `userPage, `got
      requires pages.Length == DIO_PAGES && Excused()
      ensures firstBlockInPage == first && finalBlock == blockInFile + n && totalPages == total && got == []
          && QueueOk(user)
    {
      firstBlockInPage, finalBlock := first, blockInFile + n;
      head, tail, currPage, totalPages, userPage := 0, 0, 0, total, user;
      got := [];
    }

    /** Set up a segment and walk it. */
    method WalkSegment(first: nat, n: nat, total: nat, user: nat, ghost reserve: nat) returns (ret: bool, eof: bool)
      requires Sound() && Excused() && first < bpp && (n > 0 ==> first + n <= total * bpp)
      requires Budget() >= n + (if startZeroDone then 0 else 1) + reserve
      modifies this, pages, bio
      ensures Sound() && (bio == old(bio) || bio == null || fresh(bio)) && QueueOk(user)
          && (old(pageErrors) ==> pageErrors)
      ensures Progress(Origin(old(blockInFile), first, old(data), old(cleared)))
          && blockInFile <= finalBlock == old(blockInFile) + n
      ensures Covered(Origin(old(blockInFile), first, old(data), old(cleared))) && firstBlockInPage == first
      ensures Budget() >= reserve && (!ret ==> Stopped())
      ensures ret ==> Budget() >= (if startZeroDone then 0 else 1) + reserve && lost == old(lost)
      ensures ret ==> if eof then AtEof() else blockInFile == finalBlock
    {
      hide *;
      SoundSizes();
      StartSegment(first, n, total, user);
      FundedIs(reserve);
      ret, eof := DoDirectIo(reserve, user);
      FundedIs(reserve);
    }

    /** The zeros behind the request; the end of a new block has them. */
    ghost predicate TrailOk()
      requires fac > 0 && bs > 0
      reads `trail, `blockInFile
    {
      BackZeros(file, fac, zeroPage, bs, blockInFile, trail) && (trail != [] ==> write)
    }

    /** Send the deferred section and submit the last bio. */
    method Flush() returns (ret: bool)
      requires Valid() && Budget() >= 0
      modifies `asked, `bio, `boundary, `submitted, `pagesInIo, `finalBlockInBio, `curPage, bio
      ensures Valid() && bio == null && curPage.None?
      ensures ret == !old(Refused()) && BioFailed() == (old(BioFailed()) || !ret)
      ensures ret ==> AllBlocks(submitted, bs, spb) == old(Taken())
    {
      Sizes();
      TakenIs();
      if curPage.None? { NothingRefused(); }
      hide *;
      ret := true;
      if curPage.Some? {
        ret := SendDeferred();
      }
      if bio != null {
        BioSubmit();
      }
      PackedIs();
    }

    lemma TakenIs()
      requires bs > 0 && spb > 0
      ensures Taken() == if curPage.None? then Packed() else Packed() + SectionBlocks(curPage.value)
      ensures curPage.Some? && Budget() >= 0 ==> pagesInIo >= 1
    {
    }

    lemma PackedIs()
      requires bs > 0 && spb > 0 && bio == null
      ensures Packed() == AllBlocks(submitted, bs, spb)
    {
    }

    /** Zeros at the end continue where the last mapped block ended. */
    lemma ZeroesNext()
      requires Sound() && NeedsZeros()
      ensures nextBlockForIo >= 0 && DiskOf(file, blockInFile, fac) == Some(nextBlockForIo) && write
      ensures mapBh.isNew && Within(blockInFile) > 0
    {
    }

    lemma NoTrail()
      requires fac > 0 && bs > 0 && trail == []
      ensures TrailOk()
    {
    }

    lemma SoundParts()
      requires Sound()
      ensures Valid() && Books() && trail == []
    {
    }

    lemma TrailIs(disk: nat)
      requires fac > 0 && bs > 0 && write && Within(blockInFile) > 0 && DiskOf(file, blockInFile, fac) == Some(disk)
      requires trail == [] || trail == Zeros(fac - Within(blockInFile), disk)
      ensures TrailOk() && (trail == Zeros(fac - Within(blockInFile), disk) ==> trail != [])
    {
      ChunkLength(fac - Within(blockInFile), bs);
    }

    /** Zero the rest of a new filesystem block at the end of the request. */
    method EndZeros() returns (ghost failed: bool)
      requires Sound() && (mapBh.isNew ==> Budget() >= 1)
      modifies `asked, `bio, `boundary, `submitted, `pagesInIo, `finalBlockInBio, `curPage, bio
      modifies `startZeroDone, `nextBlockForIo, `lead, `trail, `lost
      ensures Valid() && (bio == old(bio) || bio == null || fresh(bio)) && TrailOk()
      ensures lead == old(lead) && (old(Budget()) >= 0 ==> Budget() >= 0)
      ensures lost == (old(lost) || failed) && (lost <==> BioFailed())
      ensures failed == (NeedsZeros() && old(Refused())) && (failed ==> curPage.None?
                                                                        && Dropped(old(curPage), old(Packed())))
      ensures !NeedsZeros() ==> Refused() == old(Refused())
      ensures !lost ==> !old(lost) && Taken() == lead + data + trail && (NeedsZeros() ==> trail != [])
    {
      hide *;
      SoundSizes();
      SoundParts();
      ghost var needed, disk := NeedsZeros(), nextBlockForIo;
      if needed {
        ZeroesNext();
      } else {
        NoTrail();
      }
      failed := ZeroBlock(true);
      BooksAre();
      if needed {
        TrailIs(disk);
      }
    }

    /**
     The end of direct_io_worker.  When the zeros cannot be submitted nothing tells, and what
     was deferred is lost; a section that cannot be sent is reported.
     */
    method Finish() returns (ret: bool, ghost failed: bool)
      requires Sound() && Budget() >= 0 && (mapBh.isNew ==> Budget() >= 1)
      modifies `asked, `bio, `boundary, `submitted, `pagesInIo, `finalBlockInBio, `curPage, bio
      modifies `startZeroDone, `nextBlockForIo, `lead, `trail, `lost
      ensures Valid() && bio == null && curPage.None? && TrailOk() && lead == old(lead)
      ensures !lost ==> AllBlocks(submitted, bs, spb) == lead + data + trail && (NeedsZeros() ==> trail != [])
      ensures lost == (old(lost) || failed || !ret) && (lost <==> BioFailed())
      ensures failed == (NeedsZeros() && old(Refused())) && (failed ==> ret)
      ensures !NeedsZeros() ==> ret == !old(Refused())
    {
      hide *;
      failed := EndZeros();
      if failed { NothingRefused(); }
      ret := Flush();
      lost := lost || !ret;
    }

    lemma NothingRefused()
      requires Valid() && curPage.None?
      ensures !Refused()
    {
    }

    lemma StartOfWalk()
      requires Sound() && got == [] && firstBlockInPage < bpp
      ensures bs > 0 && spb > 0 && fac > 0 && bpp > 0
      ensures var o := Origin(blockInFile, firstBlockInPage, data, cleared);
        Progress(o) && BeforePage(o, firstBlockInPage) && Covered(o)
    {
    }
  }

  lemma StartsAt(disk: nat, spb: nat)
    requires spb > 0
    ensures (disk * spb) / spb == disk && (disk * spb) % spb == 0
  {
    DivUnique(disk * spb, spb, disk, 0);
  }

  lemma {:induction false} AppendVec(vecs: seq<Vec>, v: Vec, disk: nat, bs: nat)
    requires bs > 0 && WholeBlocks(vecs, bs) && v.len % bs == 0
    ensures Size(vecs + [v]) == Size(vecs) + v.len
    ensures (Size(vecs) + v.len) / bs == Size(vecs) / bs + v.len / bs
    ensures VecsBlocks(vecs + [v], disk, bs)
            == VecsBlocks(vecs, disk, bs) + ChunkBlocks(v.page, v.offset, v.len, disk + Size(vecs) / bs, bs)
  {
    VecsConcat(vecs, [v], disk, bs);
    SizeConcat(vecs, [v]);
    WholeSize(vecs, bs);
    DivSum(Size(vecs), v.len, bs);
    assert [v][1..] == [];
    assert VecsBlocks([v], disk + Size(vecs) / bs, bs)
           == ChunkBlocks(v.page, v.offset, v.len, disk + Size(vecs) / bs, bs) + [];
  }

  /** Why a fresh bio never refuses a piece of a page. */
  lemma EmptyFits(d: Device, len: nat)
    requires DeviceOk(d) && len <= PAGE_SIZE
    ensures Recount(d.q, []) == Zero && len / 512 <= d.q.maxSectors
  {
    assert len / 512 <= 8;
  }
}
