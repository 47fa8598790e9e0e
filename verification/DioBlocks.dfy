/**
 What direct I/O means: a list of (page, offset, disk block) triples, one per dio_block, and
 how chunks, bios and lists of bios stand for such lists.
 */
module DioBlocks {
  import opened Types
  import opened Segments

  /** One block of data between a place in memory and a disk block. */
  datatype Blk = Blk(page: nat, offset: nat, disk: nat)

  /** A chunk of a page of len bytes, starting on disk at block `disk`; bs is the block size. */
  function ChunkBlocks(page: nat, offset: nat, len: nat, disk: nat, bs: nat): (r: seq<Blk>)
    requires bs > 0
    ensures |r| == len / bs
    ensures forall i :: 0 <= i < |r| ==> r[i] == Blk(page, offset + i * bs, disk + i)
  {
    seq(len / bs, i requires 0 <= i < len / bs => Blk(page, offset + i * bs, disk + i))
  }

  lemma DivSum(a: nat, b: nat, n: nat)
    requires n > 0 && a % n == 0
    ensures (a + b) / n == a / n + b / n && (a + b) % n == b % n
  {
    var x, y := a / n, b / n;
    assert a == n * x;
    assert b == n * y + b % n;
    assert a + b == n * (x + y) + b % n;
    DivUnique(a + b, n, x + y, b % n);
  }

  /** Growing a chunk in place is appending the blocks of the grown part. */
  lemma ChunkGrows(page: nat, offset: nat, len: nat, more: nat, disk: nat, bs: nat)
    requires bs > 0 && len % bs == 0
    ensures ChunkBlocks(page, offset, len + more, disk, bs)
            == ChunkBlocks(page, offset, len, disk, bs) + ChunkBlocks(page, offset + len, more, disk + len / bs, bs)
  {
    DivSum(len, more, bs);
    var n := len / bs;
    assert len == n * bs;
    var a, b := ChunkBlocks(page, offset, len, disk, bs), ChunkBlocks(page, offset + len, more, disk + n, bs);
    var c := ChunkBlocks(page, offset, len + more, disk, bs);
    forall i | 0 <= i < |c| ensures c[i] == (a + b)[i] {
      if i >= n {
        assert offset + len + (i - n) * bs == offset + i * bs by { Distribute(i - n, n, bs); }
      }
    }
  }

  lemma Distribute(i: int, j: int, n: int)
    ensures i * n + j * n == (i + j) * n
  {
  }

  /** >> blkbits */
  function BlockCount(bytes: nat, bs: nat): nat
    requires bs > 0
  {
    bytes / bs
  }

  /** The vectors of a bio occupy consecutive disk blocks from its first. */
  function VecsBlocks(vecs: seq<Vec>, disk: nat, bs: nat): seq<Blk>
    requires bs > 0
  {
    if vecs == [] then []
    else ChunkBlocks(vecs[0].page, vecs[0].offset, vecs[0].len, disk, bs)
         + VecsBlocks(vecs[1..], disk + BlockCount(vecs[0].len, bs), bs)
  }

  predicate WholeBlocks(vecs: seq<Vec>, bs: nat)
    requires bs > 0
  {
    forall i :: 0 <= i < |vecs| ==> vecs[i].len % bs == 0 && vecs[i].len > 0
  }

  lemma {:induction false} WholeSize(a: seq<Vec>, bs: nat)
    requires bs > 0 && WholeBlocks(a, bs)
    ensures Size(a) % bs == 0
    ensures a == [] ==> BlockCount(Size(a), bs) == 0
    ensures a != [] ==> BlockCount(Size(a), bs) == BlockCount(a[0].len, bs) + BlockCount(Size(a[1..]), bs)
  {
    if a != [] {
      WholeSize(a[1..], bs);
      DivSum(a[0].len, Size(a[1..]), bs);
    }
  }

  lemma {:induction false} VecsConcat(a: seq<Vec>, b: seq<Vec>, disk: nat, bs: nat)
    requires bs > 0 && WholeBlocks(a, bs)
    ensures VecsBlocks(a + b, disk, bs) == VecsBlocks(a, disk, bs) + VecsBlocks(b, disk + BlockCount(Size(a), bs), bs)
  {
    WholeSize(a, bs);
    hide BlockCount, ChunkBlocks, Size;
    if a == [] {
      assert a + b == b;
    } else {
      var d := disk + BlockCount(a[0].len, bs);
      assert (a + b)[1..] == a[1..] + b && WholeBlocks(a[1..], bs);
      VecsConcat(a[1..], b, d, bs);
      ConcatAssoc(ChunkBlocks(a[0].page, a[0].offset, a[0].len, disk, bs), VecsBlocks(a[1..], d, bs),
                  VecsBlocks(b, d + BlockCount(Size(a[1..]), bs), bs));
    }
  }

  lemma ConcatAssoc<T>(h: seq<T>, x: seq<T>, y: seq<T>)
    ensures h + (x + y) == (h + x) + y
  {
  }

  /** A bio that has been submitted. */
  datatype Sent = Sent(sector: nat, vecs: seq<Vec>, maxVecs: nat)

  /** The blocks of a bio, read off bi_sector and its vectors; a block is spb sectors. */
  function SentBlocks(b: Sent, bs: nat, spb: nat): seq<Blk>
    requires bs > 0 && spb > 0
  {
    VecsBlocks(b.vecs, b.sector / spb, bs)
  }

  function AllBlocks(bios: seq<Sent>, bs: nat, spb: nat): seq<Blk>
    requires bs > 0 && spb > 0
  {
    if bios == [] then [] else AllBlocks(bios[..|bios| - 1], bs, spb) + SentBlocks(bios[|bios| - 1], bs, spb)
  }

  /** One contiguous run on the disk, within the limits of its vector list and its queue. */
  ghost predicate SentOk(q: Limits, b: Sent, bs: nat, spb: nat)
    requires LimitsOk(q) && bs > 0 && spb > 0
  {
    && b.vecs != [] && WholeBlocks(b.vecs, bs) && b.sector % spb == 0
    && |b.vecs| <= b.maxVecs && Size(b.vecs) / 512 <= q.maxSectors
    && Recount(q, b.vecs).phys <= q.maxPhysSegments && Recount(q, b.vecs).hw <= q.maxHwSegments
  }

  /** The disk blocks of a bio are consecutive. */
  lemma {:induction false} SentIsOneRun(vecs: seq<Vec>, disk: nat, bs: nat)
    requires bs > 0 && WholeBlocks(vecs, bs)
    ensures var r := VecsBlocks(vecs, disk, bs);
      |r| == Size(vecs) / bs && forall i :: 0 <= i < |r| ==> r[i].disk == disk + i
  {
    if vecs != [] {
      SentIsOneRun(vecs[1..], disk + BlockCount(vecs[0].len, bs), bs);
      DivSum(vecs[0].len, Size(vecs[1..]), bs);
    }
  }
}
