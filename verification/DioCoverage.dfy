/** Which blocks of a file a direct write covers: the request's, and zeros around it in new blocks. */
module DioCoverage {
  import opened Types
  import opened Segments
  import opened DioBlocks
  import opened FileLayout
  import opened DirectIo
  import opened DirectIoWorker

  /** For a write get_blocks leaves no hole. */
  lemma WriteMapsAll(f: File, fac: nat, j: nat)
    requires fac > 0 && FileOk(f, true)
    ensures DiskOf(f, j, fac).Some?
  {
    var b := j / fac;
    var m := f.getBlocks(b, 1);
    assert MapOk(f, true, b, m);
    assert f.layout(b) == Some(m.blocknr + (b - b));
  }

  /** Inside a filesystem block the disk blocks follow each other. */
  lemma SameFsBlock(f: File, fac: nat, j: nat, k: nat)
    requires fac > 0 && DiskOf(f, j, fac).Some? && j / fac * fac <= k < j / fac * fac + fac
    ensures k / fac == j / fac && DiskOf(f, k, fac) == Some(DiskOf(f, j, fac).value - j % fac + (k - j / fac * fac))
  {
    DivUnique(k, fac, j / fac, k - j / fac * fac);
  }

  lemma {:induction false} TransferCovers(f: File, fac: nat, u: Buffer, j: nat, n: nat, pos: nat)
    requires fac > 0 && BufferOk(u) && FileOk(f, true)
    ensures var t := Transfer(f, fac, u, j, n, pos);
      |t| == n && forall i :: 0 <= i < n ==>
        DiskOf(f, j + i, fac) == Some(t[i].disk) && t[i].page == PageAt(u, pos + i)
          && t[i].offset == OffsetAt(u, pos + i)
    decreases n
  {
    if n > 0 {
      hide FileOk, DiskOf, PageAt, OffsetAt;
      WriteMapsAll(f, fac, j);
      TransferCovers(f, fac, u, j + 1, n - 1, pos + 1);
      var t, rest := Transfer(f, fac, u, j, n, pos), Transfer(f, fac, u, j + 1, n - 1, pos + 1);
      assert t[1..] == rest;
      forall i | 0 <= i < n
        ensures DiskOf(f, j + i, fac) == Some(t[i].disk) && t[i].page == PageAt(u, pos + i)
            && t[i].offset == OffsetAt(u, pos + i)
      {
        assert i > 0 ==> t[i] == rest[i - 1] && j + i == (j + 1) + (i - 1) && pos + i == (pos + 1) + (i - 1);
      }
    }
  }

  /** The blocks `bs` are those of the file from lo to hi, each once and in order. */
  ghost predicate Covers(f: File, fac: nat, lo: nat, hi: nat, blks: seq<Blk>)
    requires fac > 0
  {
    lo <= hi && |blks| == hi - lo && forall g: nat :: lo <= g < hi ==> DiskOf(f, g, fac) == Some(blks[g - lo].disk)
  }

  lemma CoversConcat(f: File, fac: nat, lo: nat, mid: nat, hi: nat, a: seq<Blk>, b: seq<Blk>)
    requires fac > 0 && Covers(f, fac, lo, mid, a) && Covers(f, fac, mid, hi, b)
    ensures Covers(f, fac, lo, hi, a + b)
  {
  }

  lemma RunCovers(f: File, fac: nat, u: Buffer, j: nat, n: nat, pos: nat)
    requires fac > 0 && BufferOk(u) && FileOk(f, true)
    ensures Covers(f, fac, j, j + n, Transfer(f, fac, u, j, n, pos))
  {
    hide FileOk, DiskOf, Transfer;
    TransferCovers(f, fac, u, j, n, pos);
    var t := Transfer(f, fac, u, j, n, pos);
    forall g: nat | j <= g < j + n ensures DiskOf(f, g, fac) == Some(t[g - j].disk) {
      assert g == j + (g - j);
    }
  }

  /** The segments of a write cover the blocks of the file from its start to where it ended. */
  lemma {:induction false} MovedCovers(f: File, fac: nat, start: nat, ws: seq<Walk>)
    requires fac > 0 && FileOk(f, true) && Chained(start, ws)
    ensures Covers(f, fac, start, End(start, ws), Moved(f, fac, ws))
    decreases |ws|
  {
    hide FileOk, DiskOf, Transfer;
    if ws != [] {
      var init, w := ws[..|ws| - 1], ws[|ws| - 1];
      assert forall i :: 0 <= i < |init| ==> init[..i] == ws[..i] && init[i] == ws[i];
      assert w.from == End(start, init);
      MovedCovers(f, fac, start, init);
      RunCovers(f, fac, w.buf, w.from, w.n, w.pos);
      var t, m := Transfer(f, fac, w.buf, w.from, w.n, w.pos), Moved(f, fac, init);
      assert Moved(f, fac, ws) == m + t;
      hide Covers, Moved;
      CoversConcat(f, fac, start, w.from, w.from + w.n, m, t);
    }
  }

  lemma FrontCovers(f: File, fac: nat, zero: nat, bs: nat, start: nat, zs: seq<Blk>)
    requires fac > 0 && bs > 0 && FrontZeros(f, fac, zero, bs, start, zs) && zs != []
    ensures Covers(f, fac, start - start % fac, start, zs) && forall z :: z in zs ==> z.page == zero
  {
    var r, base := start % fac, start / fac * fac;
    assert start == base + r;
    ChunkLength(r, bs);
    forall g: nat | base <= g < start ensures DiskOf(f, g, fac) == Some(zs[g - base].disk) {
      SameFsBlock(f, fac, start, g);
    }
  }

  lemma BackCovers(f: File, fac: nat, zero: nat, bs: nat, end: nat, zs: seq<Blk>)
    requires fac > 0 && bs > 0 && BackZeros(f, fac, zero, bs, end, zs) && zs != []
    ensures Covers(f, fac, end, end + (fac - end % fac), zs) && forall z :: z in zs ==> z.page == zero
  {
    var r, base := end % fac, end / fac * fac;
    assert end == base + r;
    ChunkLength(fac - r, bs);
    forall g: nat | end <= g < end + (fac - r) ensures DiskOf(f, g, fac) == Some(zs[g - end].disk) {
      SameFsBlock(f, fac, end, g);
    }
  }

  /** First and last block written, counting the zeros. */
  ghost function Low(dio: Dio): nat
    requires dio.fac > 0
    reads dio
  {
    if dio.lead == [] then dio.start else dio.start - dio.start % dio.fac
  }

  ghost function High(dio: Dio): nat
    requires dio.fac > 0
    reads dio
  {
    if dio.trail == [] then dio.blockInFile else dio.blockInFile + (dio.fac - dio.blockInFile % dio.fac)
  }

  /**
   A write whose sections all got sent writes the blocks of the file from Low to High, each
   once, in order and in its own place on disk; around the user's blocks it writes zeros.
   */
  lemma WriteCovers(dio: Dio, iov: seq<Iov>, ws: seq<Walk>)
    requires dio.bs > 0 && dio.spb > 0 && dio.fac > 0 && Outcome(dio, iov, ws) && dio.write && !dio.lost
    ensures Covers(dio.file, dio.fac, Low(dio), High(dio), AllBlocks(dio.submitted, dio.bs, dio.spb))
    ensures |dio.lead| == dio.start - Low(dio) && |dio.trail| == High(dio) - dio.blockInFile
    ensures AllBlocks(dio.submitted, dio.bs, dio.spb) == dio.lead + Moved(dio.file, dio.fac, ws) + dio.trail
    ensures forall z :: z in dio.lead || z in dio.trail ==> z.page == dio.zeroPage
  {
    var f, fac, s, e := dio.file, dio.fac, dio.start, dio.blockInFile;
    assert FileOk(f, true);
    MovedCovers(f, fac, s, ws);
    if dio.lead != [] {
      FrontCovers(f, fac, dio.zeroPage, dio.bs, s, dio.lead);
    }
    if dio.trail != [] {
      BackCovers(f, fac, dio.zeroPage, dio.bs, e, dio.trail);
    }
    hide FileOk, DiskOf, FrontZeros, BackZeros, Moved, AllBlocks;
    var mid := Moved(f, fac, ws);
    CoversConcat(f, fac, Low(dio), s, e, dio.lead, mid);
    CoversConcat(f, fac, Low(dio), e, High(dio), dio.lead + mid, dio.trail);
  }

  /** So every new filesystem block that the data touches is written whole: no stale block stays in it. */
  lemma NewBlocksWhole(dio: Dio, iov: seq<Iov>, ws: seq<Walk>, b: nat)
    requires dio.bs > 0 && dio.spb > 0 && dio.fac > 0 && Outcome(dio, iov, ws) && dio.write && !dio.lost
        && dio.data != []
    requires dio.file.isNew(b) && b * dio.fac < dio.blockInFile && dio.start < (b + 1) * dio.fac
    ensures Low(dio) <= b * dio.fac && (b + 1) * dio.fac <= High(dio)
  {
    EdgeBlock(dio.fac, b, dio.start);
    EdgeBlock(dio.fac, b, dio.blockInFile);
  }

  lemma EdgeBlock(fac: nat, b: nat, j: nat)
    requires fac > 0
    ensures b * fac < j < (b + 1) * fac ==> j / fac == b && j % fac == j - b * fac > 0
  {
    if b * fac < j < (b + 1) * fac {
      DivUnique(j, fac, b, j - b * fac);
    }
  }

  // ------------------------------------------------------- a write that is lost silently

  function PlainMap(b: nat, n: nat): FsMap {
    FsMap(true, true, false, b, 1)
  }

  /** A file that lies on disk as it is, all of it new; eight blocks in a filesystem block. */
  const FRESH_FILE := File(PlainMap, b => Some(b), b => true)

  lemma FreshFileOk()
    ensures FileOk(FRESH_FILE, true)
  {
    forall b: nat, n: nat | n >= 1 ensures MapOk(FRESH_FILE, true, b, FRESH_FILE.getBlocks(b, n)) {
      assert FRESH_FILE.getBlocks(b, n) == PlainMap(b, n);
    }
  }

  /** A device that takes any page, while no bio can be had. */
  const ROOMY_DEVICE := Device(Limits(true, 65536, 0x1_0000_0000, 0, 128, 128, 255), (s: nat, vs: seq<Vec>,
    v: Vec) => v.len)

  const NO_BIOS := Outside(k => true, k => false, k => 1)

  lemma RoomyDeviceOk()
    ensures DeviceOk(ROOMY_DEVICE)
  {
    assert PAGE_SIZE / 512 == 8;
  }

  /** What is so whatever happens outside: one walk, of no more than one block. */
  lemma OneWalk(dio: Dio, iov: seq<Iov>, ws: seq<Walk>, end: Ending)
    requires dio.bs == 512 && dio.spb == 1 && dio.fac == 8 && dio.file == FRESH_FILE && dio.write
    requires iov == [Iov(0, 512)] && dio.start == 0 && Outcome(dio, iov, ws) && EndOk(dio, iov, ws, end)
    ensures |ws| == 1 && dio.blockInFile == ws[0].n && dio.lead == [] && |dio.data| == ws[0].n
    ensures if end.walked then ws[0].n == 1 else ws[0].n == 0
  {
    hide Cleared, AllBlocks, BackZeros, FrontZeros, DiskOf, Transfer;
    FreshFileOk();
    assert Blocks(iov[0], dio.bs) == 1;
    assert |ws| == 1;
    assert ws[..0] == [] && End(0, []) == 0;
    MovedCovers(dio.file, dio.fac, 0, ws);
    NoLead(dio);
  }

  lemma NoLead(dio: Dio)
    requires dio.bs > 0 && dio.fac > 0 && dio.start == 0 && FrontOk(dio)
    ensures dio.lead == []
  {
  }

  /** The one block of the request was walked and is deferred. */
  lemma WalkedOne(dio: Dio, iov: seq<Iov>, ws: seq<Walk>, end: Ending)
    requires dio.bs == 512 && dio.spb == 1 && dio.fac == 8 && dio.file == FRESH_FILE && dio.outside == NO_BIOS
        && dio.write
    requires iov == [Iov(0, 512)] && dio.start == 0 && Outcome(dio, iov, ws) && EndOk(dio, iov, ws, end)
    ensures end.walked && dio.NeedsZeros() && end.deferred && end.needsBio && dio.blockInFile == 1
    ensures dio.submitted == []
  {
    OneWalk(dio, iov, ws, end);
    hide Completed, Outcome, Blocks;
    assert dio.submitted == [] by { NothingSent(dio, iov, ws); }
    assert !dio.MapFailed() && !dio.PagesFailed();
  }

  lemma NothingSent(dio: Dio, iov: seq<Iov>, ws: seq<Walk>)
    requires dio.bs > 0 && dio.spb > 0 && dio.fac > 0 && dio.outside == NO_BIOS && Outcome(dio, iov, ws)
    ensures dio.submitted == []
  {
    hide DirectIoWorker.Tally, ZerosOk;
    assert !dio.BioGiven();
  }

  /**
   A write of 512 bytes into a new filesystem block of 4096 while no bio can be had: it
   returns 512, and nothing has been submitted.
   */
  method LostSilently() returns (dio: Dio, ok: bool, result: nat)
    ensures ok && dio.lost && result == 512 && dio.submitted == []
  {
    FreshFileOk();
    RoomyDeviceOk();
    hide DeviceOk, FileOk, Outcome, EndOk;
    var iov := [Iov(0, 512)];
    ghost var ws, end;
    dio, ok, result, ws, end := Worker(ROOMY_DEVICE, 1, 8, true, FRESH_FILE, 0, 0, p => p + 1, 0, NO_BIOS, iov,
      0x1_0000_0000);
    WalkedOne(dio, iov, ws, end);
  }
}
