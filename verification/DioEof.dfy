/**
 Reads at the end of a file: a hole beyond it ends a walk, and nothing beyond it is cleared.
 */
module DioEof {
  import opened Types
  import opened Segments
  import opened FileLayout
  import opened DirectIo
  import opened DirectIoWorker

  /** How many of n blocks from j on come before the first hole at or beyond block `size`. */
  ghost function Reach(f: File, fac: nat, size: nat, j: nat, n: nat): nat
    requires fac > 0
    decreases n
  {
    if n == 0 || (size <= j && DiskOf(f, j, fac).None?) then 0 else 1 + Reach(f, fac, size, j + 1, n - 1)
  }

  lemma {:induction false} ReachIs(f: File, fac: nat, size: nat, j: nat, n: nat, k: nat)
    requires fac > 0 && k <= n && HolesInside(f, fac, size, j, k)
    requires k == n || (size <= j + k && DiskOf(f, j + k, fac).None?)
    ensures Reach(f, fac, size, j, n) == k
    decreases n
  {
    if k > 0 {
      assert j <= j < j + k;
      ReachIs(f, fac, size, j + 1, n - 1, k - 1);
    }
  }

  /** A segment of a request that met no failure is walked to that hole or to its end. */
  lemma WalksReach(dio: Dio, iov: seq<Iov>, ws: seq<Walk>, i: nat)
    requires dio.bs > 0 && dio.fac > 0 && dio.spb > 0 && Outcome(dio, iov, ws) && Completed(dio, iov, ws) && i < |ws|
    ensures ws[i].n == Reach(dio.file, dio.fac, dio.sizeBlocks, ws[i].from, Blocks(iov[i], dio.bs))
  {
    TallyMeans(dio, iov, ws);
    assert Over(ws[i], iov[i], dio.frame, dio.bpp, dio.bs, dio.pageErrors);
    assert ws[i].n == Blocks(iov[i], dio.bs) || Eof(dio, Blocks(iov[i], dio.bs), ws[i]);
    hide Outcome, Completed, DiskOf, HolesInside;
    ReachIs(dio.file, dio.fac, dio.sizeBlocks, ws[i].from, Blocks(iov[i], dio.bs), ws[i].n);
  }

  /** Every place cleared stands for a hole before the end of the file. */
  ghost predicate ClearedInside(dio: Dio, ws: seq<Walk>, p: (nat, nat))
    requires dio.fac > 0 && Shaped(ws)
  {
    exists i, g: nat :: 0 <= i < |ws| && StandsFor(dio, ws[i], g, p)
  }

  ghost predicate StandsFor(dio: Dio, w: Walk, g: nat, p: (nat, nat))
    requires dio.fac > 0 && WalkShape(w)
  {
    w.from <= g < w.from + w.n && g < dio.sizeBlocks && DiskOf(dio.file, g, dio.fac).None?
    && p == (PageAt(w.buf, w.pos + (g - w.from)), OffsetAt(w.buf, w.pos + (g - w.from)))
  }

  lemma {:induction false} HolesStand(f: File, fac: nat, size: nat, u: Buffer, j: nat, n: nat, pos: nat, p: (nat, nat))
    returns (g: nat)
    requires fac > 0 && BufferOk(u) && HolesInside(f, fac, size, j, n) && p in Holes(f, fac, u, j, n, pos)
    ensures j <= g < j + n && g < size && DiskOf(f, g, fac).None?
    ensures p == (PageAt(u, pos + (g - j)), OffsetAt(u, pos + (g - j)))
    decreases n
  {
    hide DiskOf, PageAt, OffsetAt;
    var rest := Holes(f, fac, u, j + 1, n - 1, pos + 1);
    if p in rest {
      g := HolesStand(f, fac, size, u, j + 1, n - 1, pos + 1, p);
    } else {
      g := j;
    }
  }

  lemma {:induction false} ClearedStand(dio: Dio, ws: seq<Walk>, p: (nat, nat))
    requires dio.fac > 0 && Shaped(ws) && p in Cleared(dio.file, dio.fac, ws)
    requires forall i :: 0 <= i < |ws| ==> HolesInside(dio.file, dio.fac, dio.sizeBlocks, ws[i].from, ws[i].n)
    ensures ClearedInside(dio, ws, p)
  {
    hide HolesInside, Holes, StandsFor;
    var n := |ws| - 1;
    var w, front := ws[n], ws[..n];
    assert WalkShape(w);
    if p in Holes(dio.file, dio.fac, w.buf, w.from, w.n, w.pos) {
      var g := HolesStand(dio.file, dio.fac, dio.sizeBlocks, w.buf, w.from, w.n, w.pos, p);
      assert StandsFor(dio, ws[n], g, p) by { StandsIs(dio, w, g, p); }
    } else {
      ClearedStand(dio, front, p);
      var i, g: nat :| 0 <= i < |front| && StandsFor(dio, front[i], g, p);
      assert StandsFor(dio, ws[i], g, p);
    }
  }

  lemma StandsIs(dio: Dio, w: Walk, g: nat, p: (nat, nat))
    requires dio.fac > 0 && WalkShape(w) && w.from <= g < w.from + w.n && g < dio.sizeBlocks
    requires DiskOf(dio.file, g, dio.fac).None?
    requires p == (PageAt(w.buf, w.pos + (g - w.from)), OffsetAt(w.buf, w.pos + (g - w.from)))
    ensures StandsFor(dio, w, g, p)
  {
  }

  /** Whatever fails: no place beyond the end of the file is cleared. */
  lemma ClearsInside(dio: Dio, iov: seq<Iov>, ws: seq<Walk>, p: (nat, nat))
    requires dio.bs > 0 && dio.fac > 0 && dio.spb > 0 && Outcome(dio, iov, ws) && p in dio.cleared
    ensures ClearedInside(dio, ws, p)
  {
    TallyMeans(dio, iov, ws);
    hide Outcome, Cleared, HolesInside, ClearedInside;
    ClearedStand(dio, ws, p);
  }

  /** The blocks that a buffer has room for. */
  function Room(iov: seq<Iov>, bs: nat): nat
    requires bs > 0
  {
    if iov == [] then 0 else Room(iov[..|iov| - 1], bs) + Blocks(iov[|iov| - 1], bs)
  }

  /** The blocks of a read from `start`: as many as there is room for, or fewer at the end of the file. */
  function ReadBlocks(start: nat, size: nat, room: nat): nat {
    if start + room <= size then room else if start < size then size - start else 0
  }

  lemma {:induction false} ReachPlain(f: File, fac: nat, size: nat, j: nat, n: nat)
    requires fac > 0 && forall g: nat :: DiskOf(f, g, fac).None? <== size <= g
    ensures Reach(f, fac, size, j, n) == ReadBlocks(j, size, n)
    decreases n
  {
    hide DiskOf;
    if n > 0 && j < size {
      ReachPlain(f, fac, size, j + 1, n - 1);
    }
  }

  lemma {:induction false} EndPlain(dio: Dio, iov: seq<Iov>, ws: seq<Walk>)
    requires dio.bs > 0 && dio.fac > 0 && |ws| == |iov| && Chained(dio.start, ws)
    requires forall i :: 0 <= i < |ws| ==> ws[i].n == ReadBlocks(ws[i].from, dio.sizeBlocks, Blocks(iov[i], dio.bs))
    ensures End(dio.start, ws) == dio.start + ReadBlocks(dio.start, dio.sizeBlocks, Room(iov, dio.bs))
  {
    if ws != [] {
      var n := |ws| - 1;
      hide Blocks, WalkShape;
      assert ws[n].from == End(dio.start, ws[..n]);
      forall i | 0 <= i < n ensures ws[..n][i].from == End(dio.start, ws[..n][..i]) && WalkShape(ws[..n][i]) {
        assert ws[..n][..i] == ws[..i] && ws[..n][i] == ws[i];
      }
      EndPlain(dio, iov[..n], ws[..n]);
    }
  }

  /**
   A read without failures of a file that has no blocks from its end on stops there: it
   returns what there is between its start and the end, or what the buffer takes.
   */
  lemma ReadsToEnd(dio: Dio, iov: seq<Iov>, ws: seq<Walk>)
    requires dio.bs > 0 && dio.fac > 0 && dio.spb > 0 && Outcome(dio, iov, ws)
    requires |ws| == |iov| && Completed(dio, iov, ws)
    requires forall g: nat :: DiskOf(dio.file, g, dio.fac).None? <== dio.sizeBlocks <= g
    ensures dio.blockInFile == dio.start + ReadBlocks(dio.start, dio.sizeBlocks, Room(iov, dio.bs))
  {
    forall i | 0 <= i < |ws|
      ensures ws[i].n == ReadBlocks(ws[i].from, dio.sizeBlocks, Blocks(iov[i], dio.bs))
    {
      WalksReach(dio, iov, ws, i);
      ReachPlain(dio.file, dio.fac, dio.sizeBlocks, ws[i].from, Blocks(iov[i], dio.bs));
    }
    TallyMeans(dio, iov, ws);
    hide Outcome, Completed, DiskOf, ReadBlocks, Chained, End;
    assert dio.blockInFile == End(dio.start, ws) by { EndOfTally(dio, iov, ws); }
    EndPlain(dio, iov, ws);
  }

  /** Nothing that the request asks for is refused. */
  ghost predicate Undisturbed(o: Outside) {
    (forall k: nat :: !o.noBio(k) && !o.noMap(k)) && forall k: nat :: o.userPages(k) > 0
  }

  lemma NothingFails(dio: Dio)
    requires Undisturbed(dio.outside)
    ensures !dio.BioFailed() && !dio.MapFailed() && !dio.PagesFailed()
  {
  }

  /** What direct_io_worker then returns for such a read. */
  method ReadFile(device: Device, spb: nat, fac: nat, file: File, start: nat, sizeBlocks: nat, frame: nat -> nat,
                  zeroPage: nat, outside: Outside, iov: seq<Iov>, word: nat)
    returns (dio: Dio, ok: bool, result: nat)
    requires DeviceOk(device) && FileOk(file, false) && spb > 0 && PAGE_SIZE % (512 * spb) == 0
    requires fac > 0 && fac * (512 * spb) <= PAGE_SIZE
    requires forall i :: 0 <= i < |iov| ==> IovOk(iov[i], 512 * spb, word)
    requires Undisturbed(outside) && forall g: nat :: DiskOf(file, g, fac).None? <== sizeBlocks <= g
    ensures ok && result == BytesOf(ReadBlocks(start, sizeBlocks, Room(iov, 512 * spb)), 512 * spb)
  {
    hide DeviceOk, FileOk, Outcome, EndOk, DiskOf, Completed, ReadBlocks, BytesOf, Undisturbed;
    ghost var ws, end;
    dio, ok, result, ws, end := Worker(device, spb, fac, false, file, start, sizeBlocks, frame, zeroPage, outside, iov,
      word);
    NothingFails(dio);
    ReadsToEnd(dio, iov, ws);
  }

  lemma EndOfTally(dio: Dio, iov: seq<Iov>, ws: seq<Walk>)
    requires dio.bs > 0 && dio.fac > 0 && dio.spb > 0 && Outcome(dio, iov, ws)
    ensures dio.blockInFile == End(dio.start, ws)
  {
  }
}
