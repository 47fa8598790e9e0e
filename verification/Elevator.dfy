/** Bios, requests and the merge predicates of elevator.c. */
module Elevator {
  import opened Types

  /** sector_t is a 64-bit unsigned number. */
  const SECTOR_SPACE: nat := 0x1_0000_0000_0000_0000

  datatype QosType = BestEffort | SoftRt | HardRt | Preempt

  /** struct ucsb_io: the QoS class a file attaches to its bios. */
  datatype Qos = Qos(kind: QosType, priority: int)

  /** A bio as the elevator sees it; `tag` tells apart bios with equal fields. */
  datatype Bio = Bio(tag: nat, sector: nat, nr: nat, dir: Dir, disk: nat, barrier: bool, qos: Option<Qos>)

  /** ucsb_io_type */
  function IoType(b: Bio): QosType {
    if b.qos.Some? then b.qos.value.kind else BestEffort
  }

  predicate BioOk(b: Bio, maxSectors: nat) {
    0 < b.nr <= maxSectors && b.sector + b.nr < SECTOR_SPACE
  }

  /**
   struct request together with its struct deadline_rq.  `bios` is the chain from bio to
   biotail; `gen` is hash_valid_count, 0 when off the hash; `slot` is the hash list the
   request's node is linked in.
   */
  datatype Rq = Rq(bios: seq<Bio>, dir: Dir, disk: nat, sector: nat, nr: nat,
                   barrier: bool, nomerge: bool, started: bool, waiting: bool, special: bool,
                   rbKey: nat, gen: nat, slot: nat, expires: nat, qosFlag: bool)

  /** One past the last sector; rq_hash_key. */
  function End(r: Rq): nat {
    r.sector + r.nr
  }

  /** rq_mergeable for a filesystem request. */
  predicate Mergeable(r: Rq) {
    !r.barrier && !r.nomerge && !r.started
  }

  /** elv_rq_merge_ok */
  predicate MergeOk(r: Rq, b: Bio) {
    Mergeable(r) && b.dir == r.dir && r.disk == b.disk && !r.waiting && !r.special
  }

  datatype MergeKind = NoMerge | BackMerge | FrontMerge

  /** elv_try_merge, in sector_t arithmetic. */
  function TryMerge(r: Rq, b: Bio): MergeKind {
    if !MergeOk(r, b) then NoMerge
    else if (r.sector + r.nr) % SECTOR_SPACE == b.sector then BackMerge
    else if (r.sector - b.nr) % SECTOR_SPACE == b.sector then FrontMerge
    else NoMerge
  }

  /**
   Contiguity is exact even though the subtraction can wrap: for a bio and a request that
   lie on the device, the answer is a merge exactly when the ranges touch.
   */
  lemma TryMergeContiguous(r: Rq, b: Bio, maxSectors: nat)
    requires BioOk(b, maxSectors) && End(r) < SECTOR_SPACE
    ensures TryMerge(r, b).BackMerge? <==> MergeOk(r, b) && End(r) == b.sector
    ensures TryMerge(r, b).FrontMerge? <==>
              MergeOk(r, b) && b.sector + b.nr == r.sector && End(r) != b.sector
  {
    if r.sector >= b.nr {
      assert (r.sector - b.nr) % SECTOR_SPACE == r.sector - b.nr;
    } else {
      assert (r.sector - b.nr) % SECTOR_SPACE == r.sector - b.nr + SECTOR_SPACE;
    }
  }

  // ------------------------------------------------------------------ bio chains

  function Sectors(bios: seq<Bio>): nat {
    if bios == [] then 0 else bios[0].nr + Sectors(bios[1..])
  }

  /** The chain covers the disk without gaps from the given sector, in one direction on one disk. */
  ghost predicate Contiguous(bios: seq<Bio>, sector: nat, dir: Dir, disk: nat) {
    bios == []
    || (bios[0].sector == sector && bios[0].dir == dir && bios[0].disk == disk && bios[0].nr > 0
        && Contiguous(bios[1..], sector + bios[0].nr, dir, disk))
  }

  lemma {:induction false} ChainsConcat(a: seq<Bio>, b: seq<Bio>, sector: nat, dir: Dir, disk: nat)
    requires Contiguous(a, sector, dir, disk)
    requires Contiguous(b, sector + Sectors(a), dir, disk)
    ensures Sectors(a + b) == Sectors(a) + Sectors(b)
    ensures Contiguous(a + b, sector, dir, disk)
  {
    if a == [] {
      assert a + b == b;
    } else {
      assert (a + b)[1..] == a[1..] + b;
      ChainsConcat(a[1..], b, sector + a[0].nr, dir, disk);
    }
  }
}
