/**
 Where the blocks of a file lie on disk, in units of the filesystem's blocks and of the
 finer blocks (dio_blocks) that direct I/O works in, and what a request over them means.
 */
module FileLayout {
  import opened Types
  import opened DioBlocks

  /** The answer of get_blocks: count filesystem blocks from blocknr on, or a hole. */
  datatype FsMap = FsMap(mapped: bool, isNew: bool, boundary: bool, blocknr: nat, count: nat)

  /**
   A file as get_blocks shows it: `layout` gives the disk block of each mapped filesystem
   block, `isNew` tells which blocks the request allocates.
   */
  datatype File = File(getBlocks: (nat, nat) -> FsMap, layout: nat -> Option<nat>, isNew: nat -> bool)

  /**
   What get_blocks owes its caller about block b: a mapping is not empty and lies where it
   says, it is marked new when any of its blocks is, and only a read can meet a hole.
   */
  ghost predicate MapOk(f: File, write: bool, b: nat, m: FsMap) {
    && (m.mapped ==> m.count >= 1 && forall g: nat :: b <= g < b + m.count ==>
                       f.layout(g) == Some(m.blocknr + (g - b)) && (f.isNew(g) ==> m.isNew))
    && (!m.mapped ==> f.layout(b) == None && !write)
    && (m.isNew ==> write && m.mapped)
  }

  ghost predicate FileOk(f: File, write: bool) {
    forall b: nat, n: nat :: n >= 1 ==> MapOk(f, write, b, f.getBlocks(b, n))
  }

  /** The disk block of dio_block j, when there are fac of them in a filesystem block. */
  function DiskOf(f: File, j: nat, fac: nat): Option<nat>
    requires fac > 0
  {
    match f.layout(j / fac)
    case None => None
    case Some(b) => Some(b * fac + j % fac)
  }

  /** The k dio_blocks from j on lie on disk in one run from d, and are marked new if one is. */
  ghost predicate RunAt(f: File, fac: nat, j: nat, k: nat, d: int, marked: bool)
    requires fac > 0
  {
    && (k > 0 ==> d >= 0)
    && (forall g: nat :: j <= g < j + k ==> DiskOf(f, g, fac) == Some(d + (g - j)))
    && (forall g: nat :: j <= g < j + k && f.isNew(g / fac) ==> marked)
  }

  /** From a mapping of whole filesystem blocks to the dio_blocks in it. */
  lemma MappedAt(f: File, write: bool, b: nat, m: FsMap, fac: nat, g: nat)
    requires MapOk(f, write, b, m) && fac > 0 && m.mapped && b * fac <= g < b * fac + m.count * fac
    ensures DiskOf(f, g, fac) == Some(m.blocknr * fac + (g - b * fac)) && (f.isNew(g / fac) ==> m.isNew)
  {
    var x := g - b * fac;
    var i, r := x / fac, x % fac;
    QuotientBelow(x, m.count, fac);
    assert x == fac * i + r;
    assert g == fac * (b + i) + r by { assert fac * (b + i) == b * fac + fac * i; }
    DivUnique(g, fac, b + i, r);
    assert f.layout(b + i) == Some(m.blocknr + ((b + i) - b));
    assert (m.blocknr + i) * fac == m.blocknr * fac + fac * i;
  }

  lemma WholeMapping(b: nat, r: nat, c: nat, fac: nat)
    requires r < fac && c >= 1
    ensures c * fac > r && (b * fac + c * fac) % fac == 0
  {
    assert (c - 1) * fac >= 0;
    assert b * fac + c * fac == fac * (b + c);
    DivUnique(fac * (b + c), fac, b + c, 0);
  }

  /** What get_more_blocks sets up when dio_block j is mapped: the rest of the mapping is one run. */
  lemma MappedRun(f: File, write: bool, m: FsMap, fac: nat, j: nat)
    requires fac > 0 && MapOk(f, write, j / fac, m) && m.mapped
    ensures m.count * fac > j % fac && (j + (m.count * fac - j % fac)) % fac == 0
    ensures RunAt(f, fac, j, m.count * fac - j % fac, m.blocknr * fac + j % fac, m.isNew)
  {
    hide DiskOf;
    var b, r, whole, at := j / fac, j % fac, m.count * fac, m.blocknr * fac;
    assert j == b * fac + r;
    WholeMapping(b, r, m.count, fac);
    forall g: nat | j <= g < j + (whole - r)
      ensures DiskOf(f, g, fac) == Some(at + r + (g - j)) && (f.isNew(g / fac) ==> m.isNew)
    {
      MappedAt(f, write, b, m, fac, g);
    }
  }

  /** Taking blocks off the front of a run. */
  lemma RunRest(f: File, fac: nat, j: nat, k: nat, d: int, marked: bool, n: nat)
    requires fac > 0 && RunAt(f, fac, j, k, d, marked) && n <= k
    ensures RunAt(f, fac, j, n, d, marked) && RunAt(f, fac, j + n, k - n, d + n, marked)
  {
  }

  /** Pages of bpp blocks of bs bytes that hold the user's data, as far as they have been got. */
  datatype Buffer = Buffer(pages: seq<nat>, bpp: nat, bs: nat)

  predicate BufferOk(u: Buffer) {
    u.bpp > 0 && u.bs > 0
  }

  /** The page and offset of the block at position pos, counted from the start of the first page. */
  function PageAt(u: Buffer, pos: nat): nat
    requires BufferOk(u)
  {
    if pos / u.bpp < |u.pages| then u.pages[pos / u.bpp] else 0
  }

  function OffsetAt(u: Buffer, pos: nat): nat
    requires BufferOk(u)
  {
    (pos % u.bpp) * u.bs
  }

  /** What n blocks from file block j and buffer position pos transfer; holes give nothing. */
  function Transfer(f: File, fac: nat, u: Buffer, j: nat, n: nat, pos: nat): seq<Blk>
    requires fac > 0 && BufferOk(u)
    decreases n
  {
    if n == 0 then []
    else
      var d := DiskOf(f, j, fac);
      (if d.Some? then [Blk(PageAt(u, pos), OffsetAt(u, pos), d.value)] else [])
      + Transfer(f, fac, u, j + 1, n - 1, pos + 1)
  }

  /** The places of the buffer that stand over holes, to be cleared. */
  function Holes(f: File, fac: nat, u: Buffer, j: nat, n: nat, pos: nat): seq<(nat, nat)>
    requires fac > 0 && BufferOk(u)
    decreases n
  {
    if n == 0 then []
    else
      (if DiskOf(f, j, fac).None? then [(PageAt(u, pos), OffsetAt(u, pos))] else [])
      + Holes(f, fac, u, j + 1, n - 1, pos + 1)
  }

  /** Of n blocks from j on none at or beyond block `size` is a hole. */
  ghost predicate HolesInside(f: File, fac: nat, size: nat, j: nat, n: nat)
    requires fac > 0
  {
    forall g: nat :: j <= g < j + n && size <= g ==> DiskOf(f, g, fac).Some?
  }

  lemma HolesNext(f: File, fac: nat, size: nat, j: nat, n: nat, k: nat, d: int, marked: bool)
    requires fac > 0 && HolesInside(f, fac, size, j, n) && RunAt(f, fac, j + n, k, d, marked)
    ensures HolesInside(f, fac, size, j, n + k)
  {
    hide DiskOf;
  }

  lemma HoleBelow(f: File, fac: nat, size: nat, j: nat, n: nat)
    requires fac > 0 && HolesInside(f, fac, size, j, n) && j + n < size
    ensures HolesInside(f, fac, size, j, n + 1)
  {
    hide DiskOf;
  }

  lemma {:induction false} TransferSplit(f: File, fac: nat, u: Buffer, j: nat, n: nat, m: nat, pos: nat)
    requires fac > 0 && BufferOk(u)
    ensures Transfer(f, fac, u, j, n + m, pos) == Transfer(f, fac, u, j, n, pos) + Transfer(f, fac, u, j + n, m,
        pos + n)
    ensures Holes(f, fac, u, j, n + m, pos) == Holes(f, fac, u, j, n, pos) + Holes(f, fac, u, j + n, m, pos + n)
    decreases n
  {
    if n > 0 {
      TransferSplit(f, fac, u, j + 1, n - 1, m, pos + 1);
    }
  }

  /** A run on disk that stays inside a page is one chunk of that page. */
  lemma {:induction false} TransferChunk(f: File, fac: nat, u: Buffer, j: nat, k: nat, pos: nat, d: nat, marked: bool)
    requires fac > 0 && BufferOk(u) && pos % u.bpp + k <= u.bpp && RunAt(f, fac, j, k, d, marked)
    ensures Transfer(f, fac, u, j, k, pos) == ChunkBlocks(PageAt(u, pos), OffsetAt(u, pos), k * u.bs, d, u.bs)
    ensures Holes(f, fac, u, j, k, pos) == []
    decreases k
  {
    var page, offset := PageAt(u, pos), OffsetAt(u, pos);
    ChunkLength(k, u.bs);
    if k > 0 {
      var first, rest := [Blk(page, offset, d)], ChunkBlocks(page, offset + u.bs, (k - 1) * u.bs, d + 1, u.bs);
      ChunkLength(1, u.bs);
      ChunkLength(k - 1, u.bs);
      ChunkGrows(page, offset, u.bs, (k - 1) * u.bs, d, u.bs);
      assert ChunkBlocks(page, offset, u.bs, d, u.bs) == first;
      assert u.bs + (k - 1) * u.bs == k * u.bs;
      assert DiskOf(f, j, fac) == Some(d + (j - j));
      RunRest(f, fac, j, k, d, marked, 1);
      if k > 1 {
        NextInPage(pos, u.bpp);
        Distribute(pos % u.bpp, 1, u.bs);
        TransferChunk(f, fac, u, j + 1, k - 1, pos + 1, d + 1, marked);
      } else {
        assert rest == [] == Transfer(f, fac, u, j + 1, 0, pos + 1);
      }
    }
  }

  lemma ChunkLength(k: nat, bs: nat)
    requires bs > 0
    ensures (k * bs) / bs == k && (k * bs) % bs == 0
  {
    DivUnique(k * bs, bs, k, 0);
  }

  lemma NextInPage(pos: nat, bpp: nat)
    requires bpp > 0 && pos % bpp + 1 < bpp
    ensures (pos + 1) / bpp == pos / bpp && (pos + 1) % bpp == pos % bpp + 1
  {
    DivUnique(pos + 1, bpp, pos / bpp, pos % bpp + 1);
  }

  /** Pages got later do not change what the earlier ones transfer. */
  lemma {:induction false} TransferPrefix(f: File, fac: nat, u: Buffer, more: seq<nat>, j: nat, n: nat, pos: nat)
    requires fac > 0 && BufferOk(u) && pos + n <= |u.pages| * u.bpp
    ensures var v := u.(pages := u.pages + more);
      Transfer(f, fac, u, j, n, pos) == Transfer(f, fac, v, j, n, pos)
        && Holes(f, fac, u, j, n, pos) == Holes(f, fac, v, j, n, pos)
    decreases n
  {
    if n > 0 {
      QuotientBelow(pos, |u.pages|, u.bpp);
      TransferPrefix(f, fac, u, more, j + 1, n - 1, pos + 1);
    }
  }

  /** One more chunk in the last page got: the walk transfers these blocks next. */
  lemma ChunkStep(f: File, fac: nat, u: Buffer, j: nat, n: nat, pos: nat, block: nat, k: nat, d: nat, marked: bool)
    requires fac > 0 && BufferOk(u) && u.pages != [] && pos + n == (|u.pages| - 1) * u.bpp + block
    requires block < u.bpp && block + k <= u.bpp && RunAt(f, fac, j + n, k, d, marked)
    ensures Transfer(f, fac, u, j, n + k, pos)
            == Transfer(f, fac, u, j, n, pos) + ChunkBlocks(u.pages[|u.pages| - 1], block * u.bs, k * u.bs, d, u.bs)
    ensures Holes(f, fac, u, j, n + k, pos) == Holes(f, fac, u, j, n, pos)
  {
    DivUnique(pos + n, u.bpp, |u.pages| - 1, block);
    TransferSplit(f, fac, u, j, n, k, pos);
    TransferChunk(f, fac, u, j + n, k, pos + n, d, marked);
  }

  /** A hole in the last page got is to be cleared. */
  lemma HoleStep(f: File, fac: nat, u: Buffer, j: nat, n: nat, pos: nat, block: nat)
    requires fac > 0 && BufferOk(u) && u.pages != [] && pos + n == (|u.pages| - 1) * u.bpp + block
    requires block < u.bpp && DiskOf(f, j + n, fac).None?
    ensures Transfer(f, fac, u, j, n + 1, pos) == Transfer(f, fac, u, j, n, pos)
    ensures Holes(f, fac, u, j, n + 1, pos) == Holes(f, fac, u, j, n, pos) + [(u.pages[|u.pages| - 1], block * u.bs)]
  {
    DivUnique(pos + n, u.bpp, |u.pages| - 1, block);
    TransferSplit(f, fac, u, j, n, 1, pos);
    assert Transfer(f, fac, u, j + n, 1, pos + n) == Transfer(f, fac, u, j + n + 1, 0, pos + n + 1) == [];
    assert Holes(f, fac, u, j + n, 1, pos + n) == [(PageAt(u, pos + n), OffsetAt(u, pos + n))] + Holes(f, fac, u,
        j + n + 1, 0, pos + n + 1);
  }

  /** k blocks from block number `block` on stay inside their page. */
  lemma ChunkInPage(block: nat, k: nat, bpp: nat, bs: nat)
    requires bs > 0 && block + k <= bpp
    ensures block * bs + k * bs <= bpp * bs && (bpp * bs - block * bs) / bs == bpp - block
    ensures k > 0 ==> k * bs > 0
  {
    Distribute(block, k, bs);
    Distribute(block + k, bpp - block - k, bs);
    Distribute(block, bpp - block, bs);
    ChunkLength(bpp - block, bs);
  }

  /** No zeros, or those that fill the filesystem block in front of dio_block `start`. */
  predicate FrontZeros(f: File, fac: nat, zero: nat, bs: nat, start: nat, zs: seq<Blk>)
    requires fac > 0 && bs > 0
  {
    var r, d := start % fac, DiskOf(f, start, fac);
    zs != [] ==> r > 0 && d.Some? && d.value >= r && zs == ChunkBlocks(zero, 0, r * bs, d.value - r, bs)
  }

  /** No zeros, or those that fill the filesystem block from dio_block `end` on. */
  predicate BackZeros(f: File, fac: nat, zero: nat, bs: nat, end: nat, zs: seq<Blk>)
    requires fac > 0 && bs > 0
  {
    var r, d := end % fac, DiskOf(f, end, fac);
    zs != [] ==> r > 0 && d.Some? && zs == ChunkBlocks(zero, 0, (fac - r) * bs, d.value, bs)
  }
}
