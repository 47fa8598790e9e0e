/**
 Merging conserves I/O: every request is a gap-free chain of its bios within the size
 limit, and every bio handed in is in exactly one request until the driver takes it.
 */
module Conservation {
  import opened Types
  import opened Elevator
  import opened Scheduler
  import opened Merging
  import opened Frames
  import opened BlockQueue

  /** No QoS bio and no barrier in the chain. */
  predicate Plain(bios: seq<Bio>) {
    forall b :: b in bios ==> IoType(b) == BestEffort && !b.barrier
  }

  ghost predicate RqOk(r: Rq, maxSectors: nat) {
    && r.bios != [] && Contiguous(r.bios, r.sector, r.dir, r.disk)
    && r.nr == Sectors(r.bios) && 0 < r.nr <= maxSectors && End(r) < SECTOR_SPACE
    && (|r.bios| > 1 ==> Plain(r.bios))
  }

  /** What every request of the queue carries; only plain best-effort I/O is ever queued for merging. */
  ghost predicate ContentOk(s: Sched) {
    forall id :: id in s.rqs ==>
      RqOk(s.rqs[id], s.cfg.maxSectors) && (Queued(s, id) ==> Plain(s.rqs[id].bios))
  }

  /** Every bio handed in is either taken by the driver or in exactly one place of one request. */
  ghost predicate Owned(s: Sched) {
    && s.taken <= s.submitted
    && (forall id :: id in s.rqs ==> NoDup(s.rqs[id].bios))
    && (forall id, b :: id in s.rqs && b in s.rqs[id].bios ==> b in s.submitted && b !in s.taken)
    && (forall id, j, b :: id in s.rqs && j in s.rqs && b in s.rqs[id].bios && b in s.rqs[j].bios ==> id == j)
    && (forall b :: b in s.submitted && b !in s.taken ==> exists id :: id in s.rqs && b in s.rqs[id].bios)
  }

  lemma SameIoOk(r: Rq, q: Rq, maxSectors: nat)
    requires SameIo(r, q) && RqOk(q, maxSectors)
    ensures RqOk(r, maxSectors)
  {
  }

  lemma ContentOnDevice(s: Sched)
    requires ContentOk(s)
    ensures OnDevice(s)
  {
    forall id | id in s.rqs ensures End(s.rqs[id]) < SECTOR_SPACE {
      assert RqOk(s.rqs[id], s.cfg.maxSectors);
    }
  }

  /** Same requests, same I/O, nobody newly queued. */
  ghost predicate SameRequests(s: Sched, t: Sched) {
    && t.rqs.Keys == s.rqs.Keys && t.cfg == s.cfg && t.submitted == s.submitted && t.taken == s.taken
    && forall j :: j in t.rqs ==> SameIo(t.rqs[j], s.rqs[j]) && (Queued(t, j) ==> Queued(s, j))
  }

  lemma SameRequestsOk(s: Sched, t: Sched)
    requires SameRequests(s, t)
    ensures ContentOk(s) ==> ContentOk(t)
    ensures Owned(s) ==> Owned(t)
  {
    hide Contiguous, Sectors;
    if Owned(s) {
      forall b | b in t.submitted && b !in t.taken ensures exists id :: id in t.rqs && b in t.rqs[id].bios {
        var id :| id in s.rqs && b in s.rqs[id].bios;
        assert id in t.rqs && b in t.rqs[id].bios;
      }
    }
  }

  // ------------------------------------------------------------------ a new request

  lemma NewRequestContent(s: Sched, b: Bio, id: Id)
    requires Agree(s, {}) && id !in s.rqs && ContentOk(s) && BioOk(b, s.cfg.maxSectors)
    ensures ContentOk(NewRequest(s, b, id))
  {
    hide Agree, NewRequest, Queued, Ordered, FreshHash, Calm;
    NewRequestFrame(s, b, id);
    var t, u := NewRequest(s, b, id), Admitted(s, b, id);
    FreshChain(b, s.cfg.maxSectors);
    forall j | j in t.rqs
      ensures RqOk(t.rqs[j], t.cfg.maxSectors) && (Queued(t, j) ==> Plain(t.rqs[j].bios))
    {
      assert j != id ==> u.rqs[j] == s.rqs[j];
      SameIoOk(t.rqs[j], u.rqs[j], s.cfg.maxSectors);
    }
  }

  lemma FreshChain(b: Bio, maxSectors: nat)
    requires BioOk(b, maxSectors)
    ensures RqOk(NewRq(b), maxSectors)
  {
    assert [b][1..] == [];
    assert Contiguous([b][1..], b.sector + b.nr, b.dir, b.disk);
    assert Sectors([b]) == b.nr;
  }

  lemma NewRequestOwned(s: Sched, b: Bio, id: Id)
    requires Agree(s, {}) && id !in s.rqs && Owned(s) && b !in s.submitted
    ensures Owned(NewRequest(s, b, id))
  {
    hide Agree, NewRequest, Queued, Ordered, FreshHash, Calm;
    NewRequestFrame(s, b, id);
    var t, u := NewRequest(s, b, id), Admitted(s, b, id);
    assert forall j :: j in t.rqs ==> t.rqs[j].bios == if j == id then [b] else s.rqs[j].bios;
    forall c | c in t.submitted && c !in t.taken ensures exists j :: j in t.rqs && c in t.rqs[j].bios {
      if c == b {
        assert c in t.rqs[id].bios;
      } else {
        var j :| j in s.rqs && c in s.rqs[j].bios;
        assert c in t.rqs[j].bios;
      }
    }
  }

  // ------------------------------------------------------------------ merged requests

  lemma MergedIntoContent(s: Sched, t: Sched, b: Bio, id: Id, r: Rq, gone: set<Id>)
    requires MergedInto(s, t, b, id, r, gone) && ContentOk(s) && RqOk(r, s.cfg.maxSectors) && Plain(r.bios)
    ensures ContentOk(t)
  {
    hide Queued, Ordered, FreshHash, Calm, Contiguous, Sectors;
  }

  /** r collects the bios of `id`, of the requests in `gone`, and b, each once. */
  ghost predicate Collects(s: Sched, b: Bio, id: Id, r: Rq, gone: set<Id>) {
    && id in s.rqs && id !in gone && gone <= s.rqs.Keys && NoDup(r.bios)
    && forall c :: c in r.bios <==> c == b || c in s.rqs[id].bios || exists g :: g in gone && c in s.rqs[g].bios
  }

  lemma MergedIntoOwned(s: Sched, t: Sched, b: Bio, id: Id, r: Rq, gone: set<Id>)
    requires MergedInto(s, t, b, id, r, gone) && Collects(s, b, id, r, gone)
    requires Owned(s) && b !in s.submitted
    ensures Owned(t)
  {
    hide Queued, Ordered, FreshHash, Calm;
    assert t.rqs[id].bios == r.bios;
    assert forall j :: j in t.rqs && j != id ==> t.rqs[j].bios == s.rqs[j].bios && j in s.rqs && j !in gone;
    forall c | c in t.submitted && c !in t.taken ensures exists j :: j in t.rqs && c in t.rqs[j].bios {
      if c == b {
        assert c in t.rqs[id].bios;
      } else {
        var j :| j in s.rqs && c in s.rqs[j].bios;
        if j in gone || j == id { assert c in t.rqs[id].bios; } else { assert c in t.rqs[j].bios; }
      }
    }
  }

  // ---------------------------------------------------- chains that have been extended

  lemma PlainConcat(a: seq<Bio>, b: seq<Bio>)
    requires Plain(a) && Plain(b)
    ensures Plain(a + b)
  {
  }

  lemma JoinedOk(r: Rq, n: Rq, maxSectors: nat)
    requires RqOk(r, maxSectors) && RqOk(n, maxSectors) && Plain(r.bios) && Plain(n.bios)
    requires End(r) == n.sector && r.dir == n.dir && r.disk == n.disk && r.nr + n.nr <= maxSectors
    ensures RqOk(Absorb(r, n), maxSectors) && Plain(Absorb(r, n).bios)
  {
    ChainsConcat(r.bios, n.bios, r.sector, r.dir, r.disk);
    PlainConcat(r.bios, n.bios);
  }

  lemma GrowBackOk(r: Rq, b: Bio, maxSectors: nat)
    requires RqOk(r, maxSectors) && BioOk(b, maxSectors) && Plain(r.bios) && Plain([b])
    requires End(r) == b.sector && r.dir == b.dir && r.disk == b.disk && r.nr + b.nr <= maxSectors
    ensures RqOk(GrowBack(r, b), maxSectors) && Plain(GrowBack(r, b).bios)
  {
    FreshChain(b, maxSectors);
    ChainsConcat(r.bios, [b], r.sector, r.dir, r.disk);
    PlainConcat(r.bios, [b]);
  }

  lemma GrowFrontOk(r: Rq, b: Bio, maxSectors: nat)
    requires RqOk(r, maxSectors) && BioOk(b, maxSectors) && Plain(r.bios) && Plain([b])
    requires b.sector + b.nr == r.sector && r.dir == b.dir && r.disk == b.disk && r.nr + b.nr <= maxSectors
    ensures RqOk(GrowFront(r, b), maxSectors) && Plain(GrowFront(r, b).bios)
  {
    FreshChain(b, maxSectors);
    ChainsConcat([b], r.bios, b.sector, r.dir, r.disk);
    PlainConcat([b], r.bios);
  }

  lemma BackMergedContent(s: Sched, id: Id, b: Bio, joinFits: bool)
    requires Agree(s, {}) && ContentOk(s) && Queued(s, id) && BioOk(b, s.cfg.maxSectors) && Plain([b])
    requires MergeOk(s.rqs[id], b) && End(s.rqs[id]) == b.sector && s.rqs[id].nr + b.nr <= s.cfg.maxSectors
    ensures ContentOk(BackMerged(s, id, b, joinFits))
  {
    hide SideOk, PlacesOk, HashOk, ListsOk, BackMerged, Latter, MergedInto, RqOk, Plain;
    BackMergedFrame(s, id, b, joinFits);
    var r, n := GrowBack(s.rqs[id], b), BackJoin(s, id, b, joinFits);
    GrowBackOk(s.rqs[id], b, s.cfg.maxSectors);
    if n.Some? {
      LatterPlain(s, id, n.value);
      JoinedOk(r, s.rqs[n.value], s.cfg.maxSectors);
      MergedIntoContent(s, BackMerged(s, id, b, joinFits), b, id, Absorb(r, s.rqs[n.value]), {n.value});
    } else {
      MergedIntoContent(s, BackMerged(s, id, b, joinFits), b, id, r, {});
    }
  }

  lemma LatterPlain(s: Sched, id: Id, n: Id)
    requires Agree(s, {}) && ContentOk(s) && Queued(s, id)
    requires Latter(s, id) == Some(n) || Former(s, id) == Some(n)
    ensures Queued(s, n) && Plain(s.rqs[n].bios)
  {
    hide HashOk, RqOk, Plain;
    var d := s.rqs[id].dir;
    assert SideOk(s, d);
    TreeMeansFifo(s, d, s.rqs[n].rbKey, {});
  }

  lemma FrontMergedContent(s: Sched, id: Id, b: Bio, joinFits: bool)
    requires Agree(s, {}) && ContentOk(s) && Queued(s, id) && BioOk(b, s.cfg.maxSectors) && Plain([b])
    requires MergeOk(s.rqs[id], b) && b.sector + b.nr == s.rqs[id].sector && s.rqs[id].nr + b.nr <= s.cfg.maxSectors
    ensures ContentOk(FrontMerged(s, id, b, joinFits))
  {
    hide SideOk, PlacesOk, HashOk, ListsOk, FrontMerged, Former, MergedInto, RqOk, Plain;
    FrontMergedFrame(s, id, b, joinFits);
    var r, p := GrowFront(s.rqs[id], b), FrontJoin(s, id, b, joinFits);
    GrowFrontOk(s.rqs[id], b, s.cfg.maxSectors);
    if p.Some? {
      LatterPlain(s, id, p.value);
      JoinedOk(s.rqs[p.value], r, s.cfg.maxSectors);
      MergedIntoContent(s, FrontMerged(s, id, b, joinFits), b, p.value, Absorb(s.rqs[p.value], r), {id});
    } else {
      MergedIntoContent(s, FrontMerged(s, id, b, joinFits), b, id, r, {});
    }
  }

  lemma NoDupConcat(a: seq<Bio>, c: seq<Bio>)
    requires NoDup(a) && NoDup(c) && forall b :: b in a ==> b !in c
    ensures NoDup(a + c) && forall b :: b in a + c <==> b in a || b in c
  {
    var r := a + c;
    forall i, j | 0 <= i < j < |r| ensures r[i] != r[j] {
      if i < |a| <= j { assert r[i] in a && r[j] in c; }
    }
  }

  lemma BackMergedOwned(s: Sched, id: Id, b: Bio, joinFits: bool)
    requires Agree(s, {}) && Owned(s) && Queued(s, id) && b !in s.submitted
    ensures Owned(BackMerged(s, id, b, joinFits))
  {
    hide SideOk, PlacesOk, HashOk, ListsOk, BackMerged, Latter, MergedInto, CanJoin;
    BackMergedFrame(s, id, b, joinFits);
    var r, n := GrowBack(s.rqs[id], b), BackJoin(s, id, b, joinFits);
    NoDupConcat(s.rqs[id].bios, [b]);
    var t := BackMerged(s, id, b, joinFits);
    if n.Some? {
      NoDupConcat(r.bios, s.rqs[n.value].bios);
      MergedIntoOwned(s, t, b, id, Absorb(r, s.rqs[n.value]), {n.value});
    } else {
      MergedIntoOwned(s, t, b, id, r, {});
    }
  }

  lemma FrontMergedOwned(s: Sched, id: Id, b: Bio, joinFits: bool)
    requires Agree(s, {}) && Owned(s) && Queued(s, id) && b !in s.submitted
    ensures Owned(FrontMerged(s, id, b, joinFits))
  {
    hide SideOk, PlacesOk, HashOk, ListsOk, FrontMerged, Former, MergedInto, CanJoin;
    FrontMergedFrame(s, id, b, joinFits);
    var r, p := GrowFront(s.rqs[id], b), FrontJoin(s, id, b, joinFits);
    NoDupConcat([b], s.rqs[id].bios);
    var t := FrontMerged(s, id, b, joinFits);
    if p.Some? {
      NoDupConcat(s.rqs[p.value].bios, r.bios);
      MergedIntoOwned(s, t, b, p.value, Absorb(s.rqs[p.value], r), {id});
    } else {
      MergedIntoOwned(s, t, b, id, r, {});
    }
  }
}
