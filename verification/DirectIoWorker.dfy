/**
 direct_io_worker: a whole direct-I/O request over the segments of a user's buffer, and what
 it means for the file.
 */
module DirectIoWorker {
  import opened Types
  import opened Segments
  import opened DioBlocks
  import opened FileLayout
  import opened DirectIo

  /** An iovec: a user address and a length, in bytes. */
  datatype Iov = Iov(base: nat, len: nat)

  /** blockdev_direct_IO lets only whole blocks through, and a buffer lies in the address space. */
  predicate IovOk(v: Iov, bs: nat, word: nat)
    requires bs > 0
  {
    v.base % bs == 0 && v.len % bs == 0 && v.len + 2 * PAGE_SIZE <= word
  }

  /** Where in its first page a buffer starts, and its length, in blocks. */
  function StartBlock(v: Iov, bs: nat): nat
    requires bs > 0
  {
    v.base % PAGE_SIZE / bs
  }

  function BytesOf(blocks: int, bs: nat): int {
    blocks * bs
  }

  function Blocks(v: Iov, bs: nat): nat
    requires bs > 0
  {
    v.len / bs
  }

  /** total_pages as computed, with the unsigned subtraction of a word of the given size. */
  function TotalPages(base: nat, len: nat, word: nat): nat
    requires word > 0
  {
    var inPage := base % PAGE_SIZE;
    if inPage != 0 then 1 + ((len - (PAGE_SIZE - inPage)) % word + PAGE_SIZE - 1) % word / PAGE_SIZE
    else (len + PAGE_SIZE - 1) % word / PAGE_SIZE
  }

  /** The pages from that of the first byte to that of the last. */
  function PagesSpanned(base: nat, len: nat): nat {
    if len == 0 then 0 else (base + len - 1) / PAGE_SIZE - base / PAGE_SIZE + 1
  }

  lemma WrapBack(x: int, y: nat, word: int)
    requires 0 <= x + y < word && y < word && -word <= x < word
    ensures (x % word + y) % word == x + y
  {
    if x < 0 {
      Negative(x, word);
      DivUnique(x + word, word, 0, x + word);
      DivUnique(x + word + y, word, 1, x + y);
    } else {
      DivUnique(x, word, 0, x);
      DivUnique(x + y, word, 0, x + y);
    }
  }

  lemma Negative(x: int, word: int)
    requires -word <= x < 0
    ensures x % word == (x + word) % word
  {
    var q, r := x / word, x % word;
    assert x + word == word * (q + 1) + r;
    DivUnique(x + word, word, q + 1, r);
  }

  /** What the computation comes to: the wrap undoes itself. */
  lemma TotalPagesIs(base: nat, len: nat, word: nat)
    requires len + 2 * PAGE_SIZE <= word
    ensures var r := base % PAGE_SIZE;
      TotalPages(base, len, word) == if r != 0 then 1 + (len + r - 1) / PAGE_SIZE else (len + PAGE_SIZE - 1) / PAGE_SIZE
  {
    var r := base % PAGE_SIZE;
    if r != 0 {
      WrapBack(len - (PAGE_SIZE - r), PAGE_SIZE - 1, word);
    } else {
      DivUnique(len + PAGE_SIZE - 1, word, 0, len + PAGE_SIZE - 1);
    }
  }

  /** It is the number of pages spanned, except for an empty buffer inside a page. */
  lemma TotalPagesExact(base: nat, len: nat, word: nat)
    requires len + 2 * PAGE_SIZE <= word
    ensures TotalPages(base, len, word) == PagesSpanned(base, len) <==> len > 0 || base % PAGE_SIZE == 0
  {
    TotalPagesIs(base, len, word);
  }

  /** The part of a request that one segment got done: n blocks of the file from `from`, buffer block pos on. */
  datatype Walk = Walk(buf: Buffer, from: nat, n: nat, pos: nat)

  ghost predicate WalkShape(w: Walk) {
    BufferOk(w.buf) && (w.n == 0 || w.pos + w.n <= |w.buf.pages| * w.buf.bpp)
  }

  ghost predicate Shaped(ws: seq<Walk>) {
    forall i :: 0 <= i < |ws| ==> WalkShape(ws[i])
  }

  /** The blocks that all segments transfer, in order. */
  ghost function Moved(f: File, fac: nat, ws: seq<Walk>): seq<Blk>
    requires fac > 0 && Shaped(ws)
  {
    if ws == [] then []
    else
      var w := ws[|ws| - 1];
      Moved(f, fac, ws[..|ws| - 1]) + Transfer(f, fac, w.buf, w.from, w.n, w.pos)
  }

  /** The places all segments clear. */
  ghost function Cleared(f: File, fac: nat, ws: seq<Walk>): seq<(nat, nat)>
    requires fac > 0 && Shaped(ws)
  {
    if ws == [] then []
    else
      var w := ws[|ws| - 1];
      Cleared(f, fac, ws[..|ws| - 1]) + Holes(f, fac, w.buf, w.from, w.n, w.pos)
  }

  /** The block of the file that the walks end at. */
  function End(start: nat, ws: seq<Walk>): nat {
    if ws == [] then start else ws[|ws| - 1].from + ws[|ws| - 1].n
  }

  /** The walks follow each other through the file. */
  ghost predicate Chained(start: nat, ws: seq<Walk>) {
    Shaped(ws) && forall i :: 0 <= i < |ws| ==> ws[i].from == End(start, ws[..i])
  }

  /** Walk w is over the buffer v: at its first byte, no further than its end, in its pages. */
  ghost predicate Over(w: Walk, v: Iov, frame: nat -> nat, bpp: nat, bs: nat, faulted: bool)
    requires bs > 0
  {
    && w.buf.bs == bs && w.buf.bpp == bpp && w.pos == StartBlock(v, bs) && w.n <= Blocks(v, bs)
    && (!faulted ==> forall i :: 0 <= i < |w.buf.pages| ==> w.buf.pages[i] == frame(v.base / PAGE_SIZE + i))
  }

  /** The blocks that the segments may need of pages_in_io. */
  function Need(iov: seq<Iov>, bs: nat): nat
    requires bs > 0
  {
    if iov == [] then 0 else Blocks(iov[0], bs) + 2 + Need(iov[1..], bs)
  }

  lemma {:induction false} NeedConcat(a: seq<Iov>, b: seq<Iov>, bs: nat)
    requires bs > 0
    ensures Need(a + b, bs) == Need(a, bs) + Need(b, bs)
  {
    if a == [] {
      assert a + b == b;
    } else {
      assert (a + b)[1..] == a[1..] + b;
      NeedConcat(a[1..], b, bs);
    }
  }

  lemma BytesFit(base: nat, len: nat, word: nat)
    requires len + 2 * PAGE_SIZE <= word && len > 0
    ensures base % PAGE_SIZE + len <= TotalPages(base, len, word) * PAGE_SIZE
  {
    TotalPagesIs(base, len, word);
  }

  lemma BlocksFit(r: nat, len: nat, total: nat, bpp: nat, bs: nat)
    requires bs > 0 && bpp * bs == PAGE_SIZE && r % bs == 0 && r + len <= total * PAGE_SIZE
    ensures r / bs + len / bs <= total * bpp
  {
    DivSum(r, len, bs);
    assert (total * bpp) * bs == total * PAGE_SIZE;
    var n := (r + len) / bs;
    assert r + len == bs * n + (r + len) % bs;
    assert n > total * bpp ==> bs * n >= bs * (total * bpp + 1);
  }

  /** A buffer's blocks, counted from the start of its first page, fit in its pages. */
  lemma PagesSuffice(v: Iov, word: nat, bpp: nat, bs: nat)
    requires bs > 0 && bpp > 0 && IovOk(v, bs, word) && bpp * bs == PAGE_SIZE
    ensures StartBlock(v, bs) < bpp && Blocks(v, bs) * bs == v.len
    ensures Blocks(v, bs) > 0 ==> StartBlock(v, bs) + Blocks(v, bs) <= TotalPages(v.base, v.len, word) * bpp
  {
    hide TotalPages;
    PageRemainder(v.base, bpp, bs);
    QuotientBelow(v.base % PAGE_SIZE, bpp, bs);
    if v.len > 0 {
      BytesFit(v.base, v.len, word);
      BlocksFit(v.base % PAGE_SIZE, v.len, TotalPages(v.base, v.len, word), bpp, bs);
    }
  }

  lemma PageRemainder(base: nat, bpp: nat, bs: nat)
    requires bs > 0 && base % bs == 0 && bpp * bs == PAGE_SIZE
    ensures base % PAGE_SIZE % bs == 0
  {
    var p, r, k := base / PAGE_SIZE, base % PAGE_SIZE, base / bs;
    assert base == bs * k && base == PAGE_SIZE * p + r;
    assert PAGE_SIZE * p == bs * (bpp * p);
    assert r == bs * (k - bpp * p);
    assert k - bpp * p >= 0;
    DivUnique(r, bs, k - bpp * p, 0);
  }

  /** One round of the iovec loop. */
  method RunSegment(dio: Dio, v: Iov, word: nat, ghost reserve: nat) returns (ret: bool, eof: bool, done: nat,
      ghost w: Walk)
    requires dio.Sound() && dio.Excused() && IovOk(v, dio.bs, word)
    requires dio.Budget() >= Blocks(v, dio.bs) + (if dio.startZeroDone then 0 else 1) + reserve
    modifies dio, dio.pages, dio.bio
    ensures dio.Sound() && (dio.bio == old(dio.bio) || dio.bio == null || fresh(dio.bio))
    ensures (old(dio.pageErrors) ==> dio.pageErrors) && Over(w, v, dio.frame, dio.bpp, dio.bs, dio.pageErrors)
        && WalkShape(w)
    ensures w.from == old(dio.blockInFile) && dio.blockInFile == w.from + w.n
    ensures dio.data == old(dio.data) + Transfer(dio.file, dio.fac, w.buf, w.from, w.n, w.pos)
    ensures dio.cleared == old(dio.cleared) + Holes(dio.file, dio.fac, w.buf, w.from, w.n, w.pos)
    ensures HolesInside(dio.file, dio.fac, dio.sizeBlocks, w.from, w.n)
    ensures done == BytesOf(w.n, dio.bs)
    ensures dio.Budget() >= reserve && dio.Excused()
    ensures !ret ==> w.n < Blocks(v, dio.bs) && Hindered(dio)
    ensures ret ==> dio.lost == old(dio.lost) && dio.Budget() >= (if dio.startZeroDone then 0 else 1) + reserve
    ensures ret ==> if eof then Eof(dio, Blocks(v, dio.bs), w) else w.n == Blocks(v, dio.bs)
  {
    hide *;
    dio.SoundSizes();
    PagesHold(dio, v, word);
    var first, n, total := StartBlock(v, dio.bs), Blocks(v, dio.bs), TotalPages(v.base, v.len, word);
    ghost var j, data0, cleared0 := dio.blockInFile, dio.data, dio.cleared;
    ret, eof := dio.WalkSegment(first, n, total, v.base / PAGE_SIZE, reserve);
    WalkedOn(dio, Origin(j, first, data0, cleared0));
    w := Walk(dio.Buf(), j, dio.blockInFile - j, dio.firstBlockInPage);
    WalkDone(dio, v, w, data0, cleared0);
    DoneBytes(v, dio.bs, w.n, dio.finalBlock - dio.blockInFile);
    if ret { SegmentEnds(dio, v, w, eof); } else { SegmentStops(dio, v, w); }
    StillExcused(dio, v.base / PAGE_SIZE);
    done := v.len - (dio.finalBlock - dio.blockInFile) * dio.bs;
  }

  /** Why a walk can be left. */
  ghost predicate Hindered(dio: Dio)
    reads dio
  {
    dio.lost || dio.MapFailed() || dio.PagesFailed()
  }

  lemma SegmentStops(dio: Dio, v: Iov, w: Walk)
    requires dio.bs > 0 && dio.Stopped() && w.from + w.n == dio.blockInFile
    requires dio.finalBlock == w.from + Blocks(v, dio.bs)
    ensures w.n < Blocks(v, dio.bs) && Hindered(dio)
  {
  }

  lemma StillExcused(dio: Dio, user: nat)
    requires dio.QueueOk(user)
    ensures dio.Excused()
  {
  }

  lemma WalkedOn(dio: Dio, o: Origin)
    requires dio.bpp > 0 && dio.bs > 0 && dio.fac > 0 && dio.Progress(o)
    ensures o.block <= dio.blockInFile
  {
  }

  lemma DoneBytes(v: Iov, bs: nat, done: nat, left: nat)
    requires bs > 0 && Blocks(v, bs) == done + left && Blocks(v, bs) * bs == v.len
    ensures v.len - left * bs == BytesOf(done, bs) >= 0
  {
    Distribute(done, left, bs);
  }

  lemma SegmentEnds(dio: Dio, v: Iov, w: Walk, eof: bool)
    requires dio.fac > 0 && dio.bs > 0
        && w.from + w.n == dio.blockInFile <= dio.finalBlock == w.from + Blocks(v, dio.bs)
    requires if eof then dio.AtEof() else dio.blockInFile == dio.finalBlock
    ensures if eof then Eof(dio, Blocks(v, dio.bs), w) else w.n == Blocks(v, dio.bs)
  {
  }

  /** The pages counted for a segment hold its blocks. */
  lemma PagesHold(dio: Dio, v: Iov, word: nat)
    requires dio.Sound() && dio.bs > 0 && IovOk(v, dio.bs, word)
    ensures dio.fac > 0 && dio.bpp > 0 && dio.bs > 0 && dio.spb > 0 && word > 0 && PAGE_SIZE > 0
    ensures StartBlock(v, dio.bs) < dio.bpp && Blocks(v, dio.bs) * dio.bs == v.len
    ensures Blocks(v, dio.bs) > 0 ==>
              StartBlock(v, dio.bs) + Blocks(v, dio.bs) <= TotalPages(v.base, v.len, word) * dio.bpp
  {
    dio.SoundSizes();
    PagesSuffice(v, word, dio.bpp, dio.bs);
  }

  lemma WalkDone(dio: Dio, v: Iov, w: Walk, data0: seq<Blk>, cleared0: seq<(nat, nat)>)
    requires dio.bpp > 0 && dio.bs > 0 && dio.fac > 0 && dio.QueueOk(v.base / PAGE_SIZE)
    requires dio.firstBlockInPage == StartBlock(v, dio.bs) && w.from <= dio.blockInFile <= w.from + Blocks(v, dio.bs)
    requires w == Walk(dio.Buf(), w.from, dio.blockInFile - w.from, dio.firstBlockInPage)
    requires var o := Origin(w.from, w.pos, data0, cleared0); dio.Progress(o) && dio.Covered(o)
    ensures Over(w, v, dio.frame, dio.bpp, dio.bs, dio.pageErrors) && WalkShape(w)
    ensures dio.data == data0 + Transfer(dio.file, dio.fac, w.buf, w.from, w.n, w.pos)
    ensures dio.cleared == cleared0 + Holes(dio.file, dio.fac, w.buf, w.from, w.n, w.pos)
    ensures HolesInside(dio.file, dio.fac, dio.sizeBlocks, w.from, w.n)
  {
    hide Transfer, Holes, HolesInside;
  }

  /** The walk stopped short at a hole beyond the end of the file. */
  ghost predicate Eof(dio: Dio, n: nat, w: Walk)
    requires dio.fac > 0
  {
    w.n < n && !dio.write && dio.sizeBlocks <= w.from + w.n && DiskOf(dio.file, w.from + w.n, dio.fac).None?
  }

  /** The books of a request after some of its segments. */
  ghost predicate Tally(dio: Dio, iov: seq<Iov>, ws: seq<Walk>)
    requires dio.bs > 0 && dio.fac > 0
    reads dio`blockInFile, dio`pageErrors, dio`data, dio`cleared
  {
    && |ws| <= |iov| && Chained(dio.start, ws) && dio.blockInFile == End(dio.start, ws)
    && (forall i :: 0 <= i < |ws| ==> Over(ws[i], iov[i], dio.frame, dio.bpp, dio.bs, dio.pageErrors)
                                      && HolesInside(dio.file, dio.fac, dio.sizeBlocks, ws[i].from, ws[i].n))
    && dio.data == Moved(dio.file, dio.fac, ws) && dio.cleared == Cleared(dio.file, dio.fac, ws)
  }

  /** The segments walked so far are done, except for what lies beyond the end of the file. */
  ghost predicate Completed(dio: Dio, iov: seq<Iov>, ws: seq<Walk>)
    requires dio.bs > 0 && dio.fac > 0
  {
    |ws| <= |iov|
    && forall i :: 0 <= i < |ws| ==> ws[i].n == Blocks(iov[i], dio.bs) || Eof(dio, Blocks(iov[i], dio.bs), ws[i])
  }

  lemma {:induction false} TallyNext(dio: Dio, iov: seq<Iov>, ws: seq<Walk>, w: Walk, before: bool)
    requires dio.bs > 0 && dio.fac > 0 && |ws| < |iov| && Chained(dio.start, ws) && WalkShape(w)
    requires forall i :: 0 <= i < |ws| ==> Over(ws[i], iov[i], dio.frame, dio.bpp, dio.bs, before)
                                           && HolesInside(dio.file, dio.fac, dio.sizeBlocks, ws[i].from, ws[i].n)
    requires HolesInside(dio.file, dio.fac, dio.sizeBlocks, w.from, w.n)
    requires (before ==> dio.pageErrors) && Over(w, iov[|ws|], dio.frame, dio.bpp, dio.bs, dio.pageErrors)
    requires w.from == End(dio.start, ws) && dio.blockInFile == w.from + w.n
    requires dio.data == Moved(dio.file, dio.fac, ws) + Transfer(dio.file, dio.fac, w.buf, w.from, w.n, w.pos)
    requires dio.cleared == Cleared(dio.file, dio.fac, ws) + Holes(dio.file, dio.fac, w.buf, w.from, w.n, w.pos)
    ensures Tally(dio, iov, ws + [w])
  {
    var next := ws + [w];
    assert next[..|next| - 1] == ws;
    forall i | 0 <= i < |next|
      ensures WalkShape(next[i]) && next[i].from == End(dio.start, next[..i])
      ensures Over(next[i], iov[i], dio.frame, dio.bpp, dio.bs, dio.pageErrors)
      ensures HolesInside(dio.file, dio.fac, dio.sizeBlocks, next[i].from, next[i].n)
    {
      assert i < |ws| ==> next[..i] == ws[..i] && Over(ws[i], iov[i], dio.frame, dio.bpp, dio.bs, before);
    }
  }

  /** What a finished request comes to. */
  ghost predicate Outcome(dio: Dio, iov: seq<Iov>, ws: seq<Walk>)
    requires dio.bs > 0 && dio.fac > 0 && dio.spb > 0
    reads dio, dio.bio
  {
    && dio.Valid() && dio.bio == null && Tally(dio, iov, ws) && (dio.lost <==> dio.BioFailed())
    && (!dio.lost ==> AllBlocks(dio.submitted, dio.bs, dio.spb) == dio.lead + Moved(dio.file, dio.fac, ws) + dio.trail)
    && ZerosOk(dio)
  }

  /** Zeros only fill up filesystem blocks, and new ones that the data ends in are filled up. */
  ghost predicate ZerosOk(dio: Dio)
    requires dio.bs > 0 && dio.fac > 0
    reads dio
  {
    var e := dio.blockInFile;
    && FrontOk(dio)
    && BackZeros(dio.file, dio.fac, dio.zeroPage, dio.bs, e, dio.trail) && (!dio.write ==> dio.trail == [])
    && (dio.write && dio.data != [] && e % dio.fac > 0 && dio.file.isNew(e / dio.fac) && !dio.lost ==> dio.trail != [])
  }

  ghost predicate FrontOk(dio: Dio)
    requires dio.bs > 0 && dio.fac > 0
    reads dio`lead, dio`data
  {
    var s := dio.start;
    && FrontZeros(dio.file, dio.fac, dio.zeroPage, dio.bs, s, dio.lead) && (!dio.write ==> dio.lead == [])
    && (dio.write && dio.data != [] && s % dio.fac > 0 && dio.file.isNew(s / dio.fac) ==> dio.lead != [])
  }

  lemma NothingYet(dio: Dio, iov: seq<Iov>)
    requires dio.bs > 0 && dio.fac > 0 && Tally(dio, iov, [])
    ensures iov[0..] == iov && BytesOf(dio.blockInFile - dio.start, dio.bs) == 0 && Completed(dio, iov, [])
  {
  }

  /** The last segment walked is short, and something was in the way. */
  ghost predicate BrokenOff(dio: Dio, iov: seq<Iov>, ws: seq<Walk>)
    requires dio.bs > 0
    reads dio
  {
    0 < |ws| <= |iov| && ws[|ws| - 1].n < Blocks(iov[|ws| - 1], dio.bs) && Hindered(dio)
  }

  /** The iovec loop. */
  method RunSegments(dio: Dio, iov: seq<Iov>, word: nat) returns (ret: bool, result: nat, ghost ws: seq<Walk>)
    requires dio.Sound() && dio.bs > 0 && dio.fac > 0 && (forall i :: 0 <= i < |iov| ==> IovOk(iov[i], dio.bs, word))
    requires dio.Budget() >= Need(iov, dio.bs) && !dio.startZeroDone && !dio.mapBh.isNew && !dio.lost
    requires Tally(dio, iov, []) && dio.Excused()
    modifies dio, dio.pages, dio.bio
    ensures dio.Sound() && (dio.bio == old(dio.bio) || dio.bio == null || fresh(dio.bio)) && Tally(dio, iov, ws)
    ensures result == BytesOf(dio.blockInFile - dio.start, dio.bs)
    ensures ret ==> |ws| == |iov| && Completed(dio, iov, ws) && !dio.lost
    ensures !ret ==> BrokenOff(dio, iov, ws)
    ensures dio.Budget() >= 0 && (dio.mapBh.isNew ==> dio.Budget() >= 1)
  {
    hide *;
    ret, result, ws := true, 0, [];
    var seg := 0;
    NothingYet(dio, iov);
    dio.SoundSizes();
    while seg < |iov| && ret
      invariant dio.Sound() && (dio.bio == old(dio.bio) || dio.bio == null || fresh(dio.bio)) && Tally(dio, iov, ws)
      invariant 0 <= seg <= |iov| && result == BytesOf(dio.blockInFile - dio.start, dio.bs)
      invariant seg == 0 ==> !dio.startZeroDone && !dio.mapBh.isNew
      invariant ret ==> |ws| == seg && !dio.lost && Completed(dio, iov, ws)
                        && dio.Budget() >= Need(iov[seg..],
                          dio.bs) + (if seg == 0 then 0 else if dio.startZeroDone then 1 else 2)
      invariant dio.Excused() && (!ret ==> dio.Budget() >= 1 && BrokenOff(dio, iov, ws))
      decreases |iov| - seg, ret
    {
      ret, result, ws := NextSegment(dio, iov, word, seg, result, ws);
      seg := seg + 1;
    }
  }

  method NextSegment(dio: Dio, iov: seq<Iov>, word: nat, seg: nat, sofar: nat, ghost ws: seq<Walk>)
    returns (ret: bool, result: nat, ghost next: seq<Walk>)
    requires dio.Sound() && dio.bs > 0 && dio.fac > 0 && seg == |ws| < |iov| && IovOk(iov[seg], dio.bs, word)
    requires Tally(dio, iov, ws) && Completed(dio, iov, ws) && !dio.lost && dio.Excused()
        && sofar == BytesOf(dio.blockInFile - dio.start, dio.bs)
    requires dio.Budget() >= Need(iov[seg..], dio.bs) + (if seg == 0 then 0 else if dio.startZeroDone then 1 else 2)
    modifies dio, dio.pages, dio.bio
    ensures dio.Sound() && (dio.bio == old(dio.bio) || dio.bio == null || fresh(dio.bio)) && Tally(dio, iov, next)
    ensures result == BytesOf(dio.blockInFile - dio.start, dio.bs)
    ensures ret ==> |next| == seg + 1 && !dio.lost && Completed(dio, iov, next)
                    && dio.Budget() >= Need(iov[seg + 1..], dio.bs) + (if dio.startZeroDone then 1 else 2)
    ensures dio.Excused() && (!ret ==> dio.Budget() >= 1 && BrokenOff(dio, iov, next))
  {
    hide *;
    dio.SoundSizes();
    NeedNext(iov, seg, dio.bs);
    TallyMeans(dio, iov, ws);
    ghost var before := dio.pageErrors;
    ghost var w;
    var done, eof;
    ret, eof, done, w := RunSegment(dio, iov[seg], word, Need(iov[seg + 1..], dio.bs) + 1);
    TallyNext(dio, iov, ws, w, before);
    next := ws + [w];
    result := sofar + done;
    BytesAdd(w.from - dio.start, w.n, dio.bs);
    if ret {
      CompletedNext(dio, iov, ws, w);
    } else {
      LastShort(dio, iov, ws, w);
    }
  }

  lemma LastShort(dio: Dio, iov: seq<Iov>, ws: seq<Walk>, w: Walk)
    requires dio.bs > 0 && |ws| < |iov| && w.n < Blocks(iov[|ws|], dio.bs) && Hindered(dio)
    ensures BrokenOff(dio, iov, ws + [w])
  {
  }

  lemma NeedNext(iov: seq<Iov>, seg: nat, bs: nat)
    requires bs > 0 && seg < |iov|
    ensures Need(iov[seg..], bs) == Blocks(iov[seg], bs) + 2 + Need(iov[seg + 1..], bs)
  {
    assert iov[seg..][0] == iov[seg] && iov[seg..][1..] == iov[seg + 1..];
  }

  lemma TallyMeans(dio: Dio, iov: seq<Iov>, ws: seq<Walk>)
    requires dio.bs > 0 && dio.fac > 0 && Tally(dio, iov, ws)
    ensures Chained(dio.start, ws) && dio.blockInFile == End(dio.start, ws)
    ensures forall i :: 0 <= i < |ws| ==> Over(ws[i], iov[i], dio.frame, dio.bpp, dio.bs, dio.pageErrors)
                                          && HolesInside(dio.file, dio.fac, dio.sizeBlocks, ws[i].from, ws[i].n)
    ensures dio.data == Moved(dio.file, dio.fac, ws) && dio.cleared == Cleared(dio.file, dio.fac, ws)
  {
  }

  lemma BytesAdd(a: int, b: int, bs: nat)
    ensures BytesOf(a, bs) + BytesOf(b, bs) == BytesOf(a + b, bs)
  {
    Distribute(a, b, bs);
  }

  lemma CompletedNext(dio: Dio, iov: seq<Iov>, ws: seq<Walk>, w: Walk)
    requires dio.bs > 0 && dio.fac > 0 && Completed(dio, iov, ws) && |ws| < |iov|
    requires w.n == Blocks(iov[|ws|], dio.bs) || Eof(dio, Blocks(iov[|ws|], dio.bs), w)
    ensures Completed(dio, iov, ws + [w])
  {
    hide Eof, Blocks;
  }

  /** The estimate of pages_in_io. */
  method CountPages(dio: Dio, iov: seq<Iov>)
    requires dio.bs > 0
    modifies dio`pagesInIo
    ensures dio.pagesInIo == Need(iov, dio.bs)
  {
    dio.pagesInIo := 0;
    var seg := 0;
    while seg < |iov|
      invariant 0 <= seg <= |iov| && dio.pagesInIo == Need(iov[..seg], dio.bs)
    {
      assert iov[..seg + 1] == iov[..seg] + [iov[seg]];
      NeedConcat(iov[..seg], [iov[seg]], dio.bs);
      dio.pagesInIo := dio.pagesInIo + iov[seg].len / dio.bs + 2;
      seg := seg + 1;
    }
    assert iov[..|iov|] == iov;
  }

  lemma Begun(dio: Dio, iov: seq<Iov>)
    requires dio.bs > 0 && dio.fac > 0 && dio.blockInFile == dio.start && dio.data == [] && dio.cleared == []
    requires dio.curPage.None? && dio.pagesInIo == Need(iov, dio.bs) && !dio.pageErrors
    ensures dio.Excused() && Tally(dio, iov, []) && dio.Budget() >= Need(iov, dio.bs)
  {
  }

  /**
   How the walk leaves the dio to dio_zero_block: whether it got to the end, whether a section
   is deferred and needs a bio, and how many bios have been asked for.
   */
  datatype Ending = Ending(walked: bool, deferred: bool, needsBio: bool, asked: nat)

  ghost function EndOf(dio: Dio, walked: bool): Ending
    requires dio.Valid()
    reads dio, dio.bio
  {
    Ending(walked, dio.curPage.Some?, dio.curPage.Some? && dio.NeedsBio(dio.curPage.value), dio.asked)
  }

  /** What holds of it whatever happens outside. */
  ghost predicate EndOk(dio: Dio, iov: seq<Iov>, ws: seq<Walk>, end: Ending)
    requires dio.bs > 0 && dio.fac > 0
    reads dio`lead, dio`data, dio`blockInFile, dio`mapBh, dio`mapCalls, dio`pageCalls
  {
    && end.asked + (if end.deferred then 1 else 0) <= |dio.lead| + |dio.data|
    && (if end.walked then
          && |ws| == |iov| && Completed(dio, iov, ws) && (forall k :: 0 <= k < end.asked ==> !dio.outside.noBio(k))
          && (end.asked == 0 && dio.data != [] ==> end.deferred && end.needsBio)
        else
          && 0 < |ws| <= |iov| && ws[|ws| - 1].n < Blocks(iov[|ws| - 1], dio.bs)
          && ((exists k :: 0 <= k < end.asked && dio.outside.noBio(k)) || dio.MapFailed() || dio.PagesFailed()))
    && (dio.write && dio.data != [] && dio.blockInFile % dio.fac > 0 && dio.file.isNew(dio.blockInFile / dio.fac) ==>
          dio.NeedsZeros())
  }

  lemma EndFacts(dio: Dio, iov: seq<Iov>, ws: seq<Walk>, walked: bool)
    requires dio.Sound() && dio.bs > 0 && dio.fac > 0 && dio.spb > 0
    requires walked ==> |ws| == |iov| && Completed(dio, iov, ws) && !dio.lost
    requires !walked ==> BrokenOff(dio, iov, ws)
    ensures EndOk(dio, iov, ws, EndOf(dio, walked))
  {
    hide Completed, Blocks;
  }

  /**
   direct_io_worker.  It reports success although blocks are lost exactly when the walk got to
   the end, zeros are needed behind it, and the section then deferred needs a bio that is not
   to be had.
   */
  method Worker(device: Device, spb: nat, fac: nat, write: bool, file: File, start: nat, sizeBlocks: nat,
                frame: nat -> nat, zeroPage: nat, outside: Outside, iov: seq<Iov>, word: nat)
    returns (dio: Dio, ok: bool, result: nat, ghost ws: seq<Walk>, ghost end: Ending)
    requires DeviceOk(device) && FileOk(file, write) && spb > 0 && PAGE_SIZE % (512 * spb) == 0
    requires fac > 0 && fac * (512 * spb) <= PAGE_SIZE
    requires forall i :: 0 <= i < |iov| ==> IovOk(iov[i], 512 * spb, word)
    ensures fresh(dio) && dio.device == device && dio.spb == spb && dio.bs == 512 * spb && dio.fac == fac
        && dio.write == write && dio.outside == outside
    ensures dio.file == file && dio.start == start && dio.sizeBlocks == sizeBlocks && dio.frame == frame
        && dio.zeroPage == zeroPage
    ensures Outcome(dio, iov, ws) && EndOk(dio, iov, ws, end)
    ensures ok ==> |ws| == |iov| && Completed(dio, iov, ws)
    ensures !ok ==> dio.BioFailed() || dio.MapFailed() || dio.PagesFailed()
    ensures ok && dio.lost <==>
            end.walked && dio.NeedsZeros() && end.deferred && end.needsBio && outside.noBio(end.asked)
    ensures ok && dio.lost ==> write && dio.blockInFile % fac > 0 && dio.mapBh.isNew
    ensures result == BytesOf(dio.blockInFile - start, dio.bs)
  {
    hide *;
    dio := new Dio(device, spb, fac, write, file, start, sizeBlocks, frame, zeroPage, outside);
    CountPages(dio, iov);
    Begun(dio, iov);
    ok, result, ws := RunSegments(dio, iov, word);
    ok, end := Conclude(dio, iov, ws, ok);
  }

  method Conclude(dio: Dio, iov: seq<Iov>, ghost ws: seq<Walk>, ret: bool) returns (ok: bool, ghost end: Ending)
    requires dio.Sound() && dio.bs > 0 && dio.fac > 0 && dio.spb > 0 && Tally(dio, iov, ws)
    requires ret ==> |ws| == |iov| && Completed(dio, iov, ws) && !dio.lost
    requires !ret ==> BrokenOff(dio, iov, ws)
    requires dio.Budget() >= 0 && (dio.mapBh.isNew ==> dio.Budget() >= 1)
    modifies dio, dio.bio
    ensures Outcome(dio, iov, ws) && dio.blockInFile == old(dio.blockInFile)
    ensures EndOk(dio, iov, ws, end) && end.walked == ret && (ok ==> ret)
    ensures !ok ==> dio.BioFailed() || dio.MapFailed() || dio.PagesFailed()
    ensures ok && dio.lost <==>
            end.walked && dio.NeedsZeros() && end.deferred && end.needsBio && dio.outside.noBio(end.asked)
    ensures ok && dio.lost ==> dio.write && dio.blockInFile % dio.fac > 0 && dio.mapBh.isNew
  {
    hide *;
    SoundValid(dio);
    EndFacts(dio, iov, ws, ret);
    ghost var refused := dio.Refused();
    end := EndOf(dio, ret);
    EndIs(dio, ret);
    if !ret { WasHindered(dio, iov, ws); }
    var ret2, failed := dio.Finish();
    ok := ret && ret2;
    if dio.NeedsZeros() { NeededIs(dio); }
    Concluded(dio, iov, ws, end);
  }

  lemma WasHindered(dio: Dio, iov: seq<Iov>, ws: seq<Walk>)
    requires dio.bs > 0 && BrokenOff(dio, iov, ws)
    ensures dio.lost || dio.MapFailed() || dio.PagesFailed()
  {
  }

  lemma SoundValid(dio: Dio)
    requires dio.Sound()
    requires dio.bs > 0 && dio.fac > 0
    ensures dio.Valid() && FrontOk(dio) && (dio.mapBh.isNew ==> dio.write)
  {
  }

  lemma Concluded(dio: Dio, iov: seq<Iov>, ws: seq<Walk>, end: Ending)
    requires dio.bs > 0 && dio.fac > 0 && dio.spb > 0 && dio.Valid() && dio.bio == null && Tally(dio, iov, ws)
    requires FrontOk(dio) && dio.TrailOk() && EndOk(dio, iov, ws, end) && (dio.lost <==> dio.BioFailed())
    requires !dio.lost ==> AllBlocks(dio.submitted, dio.bs, dio.spb) == dio.lead + dio.data + dio.trail
    requires !dio.lost && dio.NeedsZeros() ==> dio.trail != []
    ensures Outcome(dio, iov, ws)
  {
    TallyMeans(dio, iov, ws);
    hide Tally, AllBlocks, FrontOk, BackZeros, Completed, Moved;
  }

  lemma EndIs(dio: Dio, walked: bool)
    requires dio.Valid()
    ensures var e := EndOf(dio, walked);
      e.walked == walked && dio.Refused() == (e.deferred && e.needsBio && dio.outside.noBio(e.asked))
  {
  }

  lemma NeededIs(dio: Dio)
    requires dio.fac > 0 && dio.NeedsZeros()
    ensures dio.blockInFile % dio.fac > 0 && dio.mapBh.isNew
  {
  }

}
