/**
 Where a submitted bio ends up: in the request that deadline_merge names, in a request joined
 with it, or in one of its own; and what becomes of a request that has to refuse it.
 */
module Placement {
  import opened Types
  import opened Elevator
  import opened Scheduler
  import opened Merging
  import opened Frames
  import opened BlockQueue
  import opened Conservation
  import opened Runs

  // ------------------------------------------------------------------ which requests join

  /** No queued request of q's direction starts strictly between the two sectors. */
  ghost predicate NoneBetween(s: Sched, q: Id, lo: nat, hi: nat)
    requires q in s.rqs
  {
    forall k :: Queued(s, k) && s.rqs[k].dir == s.rqs[q].dir ==> !(lo < s.rqs[k].sector < hi)
  }

  /** Both may be merged and go the same way to the same disk; the second one is not special or waited for. */
  predicate Compatible(r: Rq, n: Rq) {
    Mergeable(r) && Mergeable(n) && r.dir == n.dir && r.disk == n.disk && !r.special && !n.special && !n.waiting
  }

  /** With b at its end, q reaches request j, the next one in sector order, and may take it in. */
  ghost predicate ReachesNext(s: Sched, q: Id, b: Bio, j: Id, joinFits: bool)
    requires q in s.rqs
  {
    && Queued(s, j) && Compatible(s.rqs[q], s.rqs[j])
    && s.rqs[j].sector == End(s.rqs[q]) + b.nr && NoneBetween(s, q, s.rqs[q].sector, s.rqs[j].sector)
    && s.rqs[q].nr + b.nr + s.rqs[j].nr <= s.cfg.maxSectors && joinFits
  }

  /** With b at its front, q begins where request p, the one before it in sector order, ends. */
  ghost predicate ReachesFormer(s: Sched, q: Id, b: Bio, p: Id, joinFits: bool)
    requires q in s.rqs
  {
    && Queued(s, p) && Compatible(s.rqs[p], s.rqs[q])
    && End(s.rqs[p]) == b.sector && NoneBetween(s, q, s.rqs[p].sector, s.rqs[q].sector)
    && s.rqs[q].nr + b.nr + s.rqs[p].nr <= s.cfg.maxSectors && joinFits
  }

  /** A queued request and the tree know each other, under the request's start sector. */
  lemma QueuedKey(s: Sched, j: Id)
    requires Agree(s, {}) && Queued(s, j)
    ensures s.rqs[j].rbKey == s.rqs[j].sector
    ensures s.rqs[j].sector in s.sort.At(s.rqs[j].dir) && s.sort.At(s.rqs[j].dir)[s.rqs[j].sector] == j
  {
    assert PlacedOk(s, j);
  }

  lemma KeyQueued(s: Sched, d: Dir, k: nat)
    requires Agree(s, {}) && k in s.sort.At(d)
    ensures var j := s.sort.At(d)[k]; Queued(s, j) && s.rqs[j].dir == d && s.rqs[j].sector == k
  {
    hide HashOk, ListsOk;
    TreeMeansFifo(s, d, k, {});
    assert SideOk(s, d);
    QueuedKey(s, s.sort.At(d)[k]);
  }

  /** The neighbours in the tree are the neighbours in sector order. */
  lemma LatterIs(s: Sched, q: Id, j: Id)
    requires Agree(s, {}) && Queued(s, q)
    ensures Latter(s, q) == Some(j) <==>
            Queued(s, j) && s.rqs[j].dir == s.rqs[q].dir && s.rqs[q].sector < s.rqs[j].sector
            && NoneBetween(s, q, s.rqs[q].sector, s.rqs[j].sector)
  {
    hide Agree;
    QueuedKey(s, q);
    InTree(s, s.rqs[q].dir);
    hide Queued;
  }

  lemma FormerIs(s: Sched, q: Id, p: Id)
    requires Agree(s, {}) && Queued(s, q)
    ensures Former(s, q) == Some(p) <==>
            Queued(s, p) && s.rqs[p].dir == s.rqs[q].dir && s.rqs[p].sector < s.rqs[q].sector
            && NoneBetween(s, q, s.rqs[p].sector, s.rqs[q].sector)
  {
    hide Agree;
    QueuedKey(s, q);
    InTree(s, s.rqs[q].dir);
    hide Queued;
  }

  /** A direction's tree holds its queued requests, each under its sector, and nobody else. */
  lemma InTree(s: Sched, d: Dir)
    requires Agree(s, {})
    ensures forall k :: k in s.sort.At(d) ==>
              var i := s.sort.At(d)[k]; Queued(s, i) && s.rqs[i].dir == d && s.rqs[i].sector == k
    ensures forall i :: Queued(s, i) && s.rqs[i].dir == d ==>
              s.rqs[i].sector in s.sort.At(d) && s.sort.At(d)[s.rqs[i].sector] == i
  {
    hide Agree;
    forall k | k in s.sort.At(d)
      ensures var i := s.sort.At(d)[k]; Queued(s, i) && s.rqs[i].dir == d && s.rqs[i].sector == k
    {
      KeyQueued(s, d, k);
    }
    forall i | Queued(s, i) && s.rqs[i].dir == d
      ensures s.rqs[i].sector in s.sort.At(d) && s.sort.At(d)[s.rqs[i].sector] == i
    {
      QueuedKey(s, i);
    }
  }

  /** attempt_merge after a back merge joins exactly the request that q then reaches. */
  lemma BackJoinIs(s: Sched, q: Id, b: Bio, j: Id, joinFits: bool)
    requires Agree(s, {}) && Queued(s, q) && b.nr > 0
    ensures BackJoin(s, q, b, joinFits) == Some(j) <==> ReachesNext(s, q, b, j, joinFits)
  {
    LatterIs(s, q, j);
    hide Agree, Queued, Latter, NoneBetween;
  }

  /** And after a front merge exactly the one that then reaches q. */
  lemma FrontJoinIs(s: Sched, q: Id, b: Bio, p: Id, joinFits: bool)
    requires Agree(s, {}) && Queued(s, q) && b.nr > 0 && s.rqs[q].sector == b.sector + b.nr
    ensures FrontJoin(s, q, b, joinFits) == Some(p) <==> ReachesFormer(s, q, b, p, joinFits)
  {
    FormerIs(s, q, p);
    hide Agree, Queued, Former, NoneBetween;
  }

  // ------------------------------------------------------------------- the places of a bio

  /** Request j is there and carries exactly these bios. */
  predicate Carries(t: Sched, j: Id, bios: seq<Bio>) {
    j in t.rqs && t.rqs[j].bios == bios
  }

  /** b is at the end of q's chain, which goes on with that of the next request if q now reaches it. */
  ghost predicate AtEnd(s: Sched, t: Sched, b: Bio, q: Id, joinFits: bool)
    requires q in s.rqs
  {
    && (forall j :: ReachesNext(s, q, b, j, joinFits) ==>
                      Carries(t, q, s.rqs[q].bios + [b] + s.rqs[j].bios) && j !in t.rqs)
    && ((forall j :: !ReachesNext(s, q, b, j, joinFits)) ==> Carries(t, q, s.rqs[q].bios + [b]))
  }

  /** b is at the front of q's chain, which goes on behind that of the former request if that now reaches q. */
  ghost predicate AtFront(s: Sched, t: Sched, b: Bio, q: Id, joinFits: bool)
    requires q in s.rqs
  {
    && (forall p :: ReachesFormer(s, q, b, p, joinFits) ==>
                      Carries(t, p, s.rqs[p].bios + ([b] + s.rqs[q].bios)) && q !in t.rqs)
    && ((forall p :: !ReachesFormer(s, q, b, p, joinFits)) ==> Carries(t, q, [b] + s.rqs[q].bios))
  }

  /** q has refused the bio: it keeps its bios and takes no more, and the bio has a request of its own. */
  predicate Refused(s: Sched, t: Sched, b: Bio, q: Id, id: Id)
    requires q in s.rqs
  {
    Carries(t, q, s.rqs[q].bios) && t.rqs[q].nomerge && Carries(t, id, [b]) && t.lastMerge == Some(id)
  }

  lemma MergedIs(s: Sched, t: Sched, b: Bio, id: Id, r: Rq, gone: set<Id>)
    requires MergedInto(s, t, b, id, r, gone)
    ensures Carries(t, id, r.bios) && forall g :: g in gone ==> g !in t.rqs
  {
    hide FreshHash, Ordered, Calm, Queued;
  }

  lemma BackPlaced(s: Sched, q: Id, b: Bio, joinFits: bool)
    requires Agree(s, {}) && Queued(s, q) && b.nr > 0
    ensures AtEnd(s, BackMerged(s, q, b, joinFits), b, q, joinFits)
  {
    hide *;
    QueuedKnown(s, q);
    BackMergedFrame(s, q, b, joinFits);
    var t, n, r := BackMerged(s, q, b, joinFits), BackJoin(s, q, b, joinFits), GrowBack(s.rqs[q], b);
    MergedIs(s, t, b, q, if n.Some? then Absorb(r, s.rqs[n.value]) else r, if n.Some? then {n.value} else {});
    forall j: Id ensures n == Some(j) <==> ReachesNext(s, q, b, j, joinFits) {
      BackJoinIs(s, q, b, j, joinFits);
    }
    AtEndIs(s, t, b, q, joinFits, n);
  }

  lemma AtEndIs(s: Sched, t: Sched, b: Bio, q: Id, joinFits: bool, n: Option<Id>)
    requires q in s.rqs && (n.Some? ==> n.value in s.rqs && n.value !in t.rqs)
    requires forall j: Id :: n == Some(j) <==> ReachesNext(s, q, b, j, joinFits)
    requires var r := GrowBack(s.rqs[q], b); Carries(t, q, if n.Some? then Absorb(r, s.rqs[n.value]).bios else r.bios)
    ensures AtEnd(s, t, b, q, joinFits)
  {
    hide ReachesNext;
  }

  lemma FrontPlaced(s: Sched, q: Id, b: Bio, joinFits: bool)
    requires Agree(s, {}) && Queued(s, q) && b.nr > 0 && s.rqs[q].sector == b.sector + b.nr
    ensures AtFront(s, FrontMerged(s, q, b, joinFits), b, q, joinFits)
  {
    hide *;
    QueuedKnown(s, q);
    FrontMergedFrame(s, q, b, joinFits);
    var t, n, r := FrontMerged(s, q, b, joinFits), FrontJoin(s, q, b, joinFits), GrowFront(s.rqs[q], b);
    MergedIs(s, t, b, if n.Some? then n.value else q, if n.Some? then Absorb(s.rqs[n.value], r) else r,
             if n.Some? then {q} else {});
    forall p: Id ensures n == Some(p) <==> ReachesFormer(s, q, b, p, joinFits) {
      FrontJoinIs(s, q, b, p, joinFits);
    }
    AtFrontIs(s, t, b, q, joinFits, n);
  }

  lemma AtFrontIs(s: Sched, t: Sched, b: Bio, q: Id, joinFits: bool, n: Option<Id>)
    requires q in s.rqs && (n.Some? ==> n.value in s.rqs && q !in t.rqs)
    requires forall p: Id :: n == Some(p) <==> ReachesFormer(s, q, b, p, joinFits)
    requires var r := GrowFront(s.rqs[q], b);
      if n.Some? then Carries(t, n.value, Absorb(s.rqs[n.value], r).bios) else Carries(t, q, r.bios)
    ensures AtFront(s, t, b, q, joinFits)
  {
    hide ReachesFormer;
  }

  lemma QueuedKnown(s: Sched, q: Id)
    requires Queued(s, q)
    ensures q in s.rqs
  {
  }

  /** Putting a request under its sector may move another away, but leaves last_merge to the one put there. */
  lemma AddRequestLast(s: Sched, id: Id)
    requires Settled(s, {id}) && !OnSort(s, id) && s.lastMerge == Some(id)
    ensures AddRequest(s, id).lastMerge == Some(id)
  {
    var r := s.rqs[id];
    var s0 := s.(rqs := s.rqs[id := r.(rbKey := r.sector)]);
    RekeyAgree(s, id, {id});
    hide SideOk, PlacesOk, HashOk, ListsOk, Movable, Move, Moved;
    if r.sector in s0.sort.At(r.dir) {
      var a := s0.sort.At(r.dir)[r.sector];
      AliasMovable(s0, id, r.sector);
      MoveEffect(s0, a, Alias);
      AliasElse(s0, r.dir, r.sector, id);
      MovedLast(s0, a, Alias);
    }
  }

  lemma AliasElse(s: Sched, d: Dir, k: nat, id: Id)
    requires !OnSort(s, id) && id in s.rqs && s.rqs[id].dir == d && s.rqs[id].rbKey == k && k in s.sort.At(d)
    ensures s.sort.At(d)[k] != id
  {
  }

  lemma MovedLast(s: Sched, id: Id, how: How)
    requires Movable(s, id)
    ensures s.lastMerge != Some(id) ==> Moved(s, id, how).lastMerge == s.lastMerge
  {
    hide Movable;
  }

  lemma HashSizeOf(s: Sched)
    requires HashOk(s)
    ensures |s.hash| == HASH_ENTRIES
  {
  }

  lemma NewRequestPlaced(s: Sched, b: Bio, id: Id)
    requires Agree(s, {}) && id !in s.rqs && !b.barrier && IoType(b) == BestEffort
    ensures var t := NewRequest(s, b, id);
      && Carries(t, id, [b]) && t.rqs.Keys == s.rqs.Keys + {id}
      && (forall j :: j in s.rqs ==> t.rqs[j].bios == s.rqs[j].bios && t.rqs[j].nomerge == s.rqs[j].nomerge)
      && (s.lastMerge.None? ==> t.lastMerge == Some(id))
  {
    hide SideOk, PlacesOk, HashOk, ListsOk, AddRequest, FreshHash, Ordered, Calm;
    NewRequestFrame(s, b, id);
    AdmittedSettled(s, b, id);
    var u := Admitted(s, b, id);
    HashNewSettled(u, id);
    if s.lastMerge.None? {
      HashSizeOf(u);
      AddRequestLast(HashNew(u, id), id);
    }
  }

  // --------------------------------------------------------------- what a submission does

  /** The lookup has changed nothing that the places depend on. */
  lemma SameTargets(s: Sched, u: Sched, b: Bio, q: Id, joinFits: bool)
    requires SameButHash(s, u.(lastMerge := s.lastMerge)) && q in s.rqs
    ensures forall j :: ReachesNext(u, q, b, j, joinFits) == ReachesNext(s, q, b, j, joinFits)
    ensures forall p :: ReachesFormer(u, q, b, p, joinFits) == ReachesFormer(s, q, b, p, joinFits)
    ensures forall j :: j in s.rqs ==> u.rqs[j].bios == s.rqs[j].bios
  {
    assert forall j :: Queued(u, j) == Queued(s, j);
    hide Queued;
    assert NoneBetween(u, q, 0, 0) == NoneBetween(s, q, 0, 0);
    forall lo: nat, hi: nat ensures NoneBetween(u, q, lo, hi) == NoneBetween(s, q, lo, hi) {
    }
    hide NoneBetween;
  }

  lemma SamePlaces(s: Sched, u: Sched, t: Sched, b: Bio, q: Id, joinFits: bool)
    requires SameButHash(s, u.(lastMerge := s.lastMerge)) && q in s.rqs
    ensures AtEnd(u, t, b, q, joinFits) == AtEnd(s, t, b, q, joinFits)
    ensures AtFront(u, t, b, q, joinFits) == AtFront(s, t, b, q, joinFits)
  {
    SameTargets(s, u, b, q, joinFits);
    assert forall j :: ReachesNext(s, q, b, j, joinFits) ==> j in s.rqs && j in u.rqs;
    assert forall p :: ReachesFormer(s, q, b, p, joinFits) ==> p in s.rqs && p in u.rqs;
    hide ReachesNext, ReachesFormer;
  }

  /** The bio goes to q: then it takes no request of its own. */
  lemma MergePlaced(s: Sched, u: Sched, b: Bio, kind: MergeKind, q: Id, id: Id, joinFits: bool)
    requires SameButHash(s, u.(lastMerge := s.lastMerge)) && Agree(u, {}) && id !in s.rqs && b.nr > 0
    requires SoundAnswer(u, b, kind, Some(q)) && !kind.NoMerge?
    ensures q in s.rqs && Queued(u, q)
    ensures var t := if kind.BackMerge? then BackMerged(u, q, b, joinFits) else FrontMerged(u, q, b, joinFits);
      id !in t.rqs && if kind.BackMerge? then AtEnd(s, t, b, q, joinFits) else AtFront(s, t, b, q, joinFits)
  {
    assert q in u.rqs && Queued(u, q);
    hide Agree, Queued, BackMerged, FrontMerged, AtEnd, AtFront, MergedInto, ReachesNext, ReachesFormer, BackJoin,
      FrontJoin, MergeOk;
    if kind.BackMerge? {
      var t := BackMerged(u, q, b, joinFits);
      BackPlaced(u, q, b, joinFits);
      SamePlaces(s, u, t, b, q, joinFits);
      BackMergedKeys(u, q, b, joinFits);
    } else {
      var t := FrontMerged(u, q, b, joinFits);
      FrontPlaced(u, q, b, joinFits);
      SamePlaces(s, u, t, b, q, joinFits);
      FrontMergedKeys(u, q, b, joinFits);
    }
  }

  lemma BackMergedKeys(s: Sched, q: Id, b: Bio, joinFits: bool)
    requires Agree(s, {}) && Queued(s, q)
    ensures BackMerged(s, q, b, joinFits).rqs.Keys <= s.rqs.Keys
  {
    hide Agree, Queued, BackMerged, BackJoin, FreshHash, Ordered, Calm;
    BackMergedFrame(s, q, b, joinFits);
  }

  lemma FrontMergedKeys(s: Sched, q: Id, b: Bio, joinFits: bool)
    requires Agree(s, {}) && Queued(s, q)
    ensures FrontMerged(s, q, b, joinFits).rqs.Keys <= s.rqs.Keys
  {
    hide Agree, Queued, FrontMerged, FrontJoin, FreshHash, Ordered, Calm;
    FrontMergedFrame(s, q, b, joinFits);
  }

  lemma RefusedPlaced(s: Sched, u: Sched, b: Bio, q: Id, id: Id)
    requires SameButHash(s, u.(lastMerge := s.lastMerge)) && Agree(u, {}) && id !in s.rqs && Queued(u, q)
    requires !b.barrier && IoType(b) == BestEffort
    ensures q in s.rqs && Agree(RefuseMerge(u, q), {}) && Refused(s, NewRequest(RefuseMerge(u, q), b, id), b, q, id)
  {
    RefuseMergeAgree(u, q);
    hide Agree, NewRequest;
    NewRequestPlaced(RefuseMerge(u, q), b, id);
  }

  /** The bio fits into q: the size is within max_sectors and the segment test agrees. */
  predicate Fits(s: Sched, q: Id, b: Bio, segsFit: bool)
    requires q in s.rqs
  {
    s.rqs[q].nr + b.nr <= s.cfg.maxSectors && segsFit
  }

  /**
   What becomes of a best-effort bio when deadline_merge names q: it takes no request of its
   own exactly when it fits, and then it is at its end of q's chain; else q has refused it.
   */
  lemma SubmitPlaces(s: Sched, b: Bio, id: Id, segsFit: bool, joinFits: bool)
    requires Good(s) && Enabled(s, Submit(b, id, segsFit, joinFits))
    requires !Empty(s) && !b.barrier && IoType(b) == BestEffort
    ensures var a := Merge(s, b); var t := Step(s, Submit(b, id, segsFit, joinFits));
      if a.kind.NoMerge? then Carries(t, id, [b]) && forall j :: j in s.rqs ==> Carries(t, j, s.rqs[j].bios)
      else
        && a.target.Some? && a.target.value in s.rqs
        && var q := a.target.value;
        && (id !in t.rqs <==> Fits(s, q, b, segsFit))
        && if !Fits(s, q, b, segsFit) then Refused(s, t, b, q, id)
           else if a.kind.BackMerge? then AtEnd(s, t, b, q, joinFits)
           else AtFront(s, t, b, q, joinFits)
  {
    ContentOnDevice(s);
    HashOfAgree(s);
    hide *;
    StepIs(s, b, id, segsFit, joinFits);
    EnabledParts(s, b, id, segsFit, joinFits);
    GoodParts(s, b, id, segsFit, joinFits);
    MergeSound(s, b);
    var a := Merge(s, b);
    SameKeysAs(s, a.state);
    if a.kind.NoMerge? {
      NewBranch(s, b, id, segsFit, joinFits, a.state);
      NewPlaced(s, a.state, b, id);
    } else {
      SoundIs(a.state, b, a.kind, a.target);
      var q := a.target.value;
      RefuseMergeAgree(a.state, q);
      NamedBranch(s, b, id, segsFit, joinFits, a, q);
      MergePlaced(s, a.state, b, a.kind, q, id, joinFits);
      RefusedPlaced(s, a.state, b, q, id);
      RefusedIs(s, Step(s, Submit(b, id, segsFit, joinFits)), b, q, id);
      FitsIs(s, a.state, b, q, segsFit);
    }
  }

  lemma SameKeysAs(s: Sched, u: Sched)
    requires SameButHash(s, u.(lastMerge := s.lastMerge))
    ensures u.rqs.Keys == s.rqs.Keys
  {
  }

  lemma GoodParts(s: Sched, b: Bio, id: Id, segsFit: bool, joinFits: bool)
    requires Good(s) && Enabled(s, Submit(b, id, segsFit, joinFits))
    ensures Agree(s, {}) && FreshHash(s) && HashOk(s) && OnDevice(s) && BioOk(b, s.cfg.maxSectors)
  {
    ContentOnDevice(s);
    HashOfAgree(s);
    hide Agree, FreshHash, OnDevice, HashOk;
  }

  lemma EnabledParts(s: Sched, b: Bio, id: Id, segsFit: bool, joinFits: bool)
    requires Enabled(s, Submit(b, id, segsFit, joinFits))
    ensures id !in s.rqs && b.nr > 0
  {
  }

  /** The branches of __make_request, for an answer that is known to be sound. */
  lemma NewBranch(s: Sched, b: Bio, id: Id, segsFit: bool, joinFits: bool, u: Sched)
    requires Inv(s) && OnDevice(s) && BioOk(b, s.cfg.maxSectors) && id !in s.rqs
    requires !Empty(s) && !b.barrier && IoType(b) == BestEffort
    requires Agree(u, {}) && id !in u.rqs && HashOk(s) && Merge(s, b).kind.NoMerge? && u == Merge(s, b).state
    ensures MakeRequest(s, b, id, segsFit, joinFits) == NewRequest(u, b, id)
  {
    hide Agree, FreshHash, OnDevice, Merge, NewRequest, BackMerged, FrontMerged, SameButHash, HashOk, MergeOk;
  }

  lemma NamedBranch(s: Sched, b: Bio, id: Id, segsFit: bool, joinFits: bool, a: Answer, q: Id)
    requires Inv(s) && OnDevice(s) && BioOk(b, s.cfg.maxSectors) && id !in s.rqs
    requires !Empty(s) && !b.barrier && IoType(b) == BestEffort
    requires HashOk(s) && a == Merge(s, b) && !a.kind.NoMerge? && a.target == Some(q)
    requires Agree(a.state, {}) && id !in a.state.rqs && Queued(a.state, q) && Agree(RefuseMerge(a.state, q), {})
    ensures MakeRequest(s, b, id, segsFit, joinFits)
            == if !(a.state.rqs[q].nr + b.nr <= s.cfg.maxSectors && segsFit)
               then NewRequest(RefuseMerge(a.state, q), b, id)
               else if a.kind.BackMerge? then BackMerged(a.state, q, b, joinFits)
               else FrontMerged(a.state, q, b, joinFits)
  {
    hide Agree, FreshHash, OnDevice, Merge, NewRequest, BackMerged, FrontMerged, SameButHash, HashOk, MergeOk;
  }

  lemma StepIs(s: Sched, b: Bio, id: Id, segsFit: bool, joinFits: bool)
    requires Good(s) && Enabled(s, Submit(b, id, segsFit, joinFits))
    ensures Inv(s) && OnDevice(s) && BioOk(b, s.cfg.maxSectors) && id !in s.rqs
    ensures Step(s, Submit(b, id, segsFit, joinFits)) == MakeRequest(s, b, id, segsFit, joinFits)
  {
    ContentOnDevice(s);
    hide Agree, FreshHash, OnDevice, MakeRequest;
  }

  lemma SoundIs(u: Sched, b: Bio, kind: MergeKind, target: Option<Id>)
    requires SoundAnswer(u, b, kind, target) && !kind.NoMerge?
    ensures target.Some? && Queued(u, target.value) && target.value in u.rqs && Mergeable(u.rqs[target.value])
  {
  }

  lemma NewPlaced(s: Sched, u: Sched, b: Bio, id: Id)
    requires SameButHash(s, u.(lastMerge := s.lastMerge)) && Agree(u, {}) && id !in s.rqs
    requires !b.barrier && IoType(b) == BestEffort
    ensures var t := NewRequest(u, b, id);
      Carries(t, id, [b]) && forall j :: j in s.rqs ==> Carries(t, j, s.rqs[j].bios)
  {
    hide Agree, NewRequest;
    NewRequestPlaced(u, b, id);
  }

  lemma RefusedIs(s: Sched, t: Sched, b: Bio, q: Id, id: Id)
    requires q in s.rqs
    ensures Refused(s, t, b, q, id) ==> id in t.rqs
  {
  }

  lemma FitsIs(s: Sched, u: Sched, b: Bio, q: Id, segsFit: bool)
    requires SameButHash(s, u.(lastMerge := s.lastMerge)) && q in s.rqs
    ensures q in u.rqs && (Fits(s, q, b, segsFit) <==> u.rqs[q].nr + b.nr <= s.cfg.maxSectors && segsFit)
  {
  }

  // ------------------------------------------------------------------- the choice of q

  /** deadline_merge tries last_merge, then the hash, then the tree, and notes what it has found as last_merge. */
  lemma AnswerOrder(s: Sched, b: Bio)
    requires Inv(s) && OnDevice(s) && BioOk(b, s.cfg.maxSectors)
    ensures HashOk(s)
    ensures var a := Merge(s, b);
      && (LastFits(s, b) ==> a.target == s.lastMerge && a.kind == TryMerge(s.rqs[s.lastMerge.value], b))
      && (!LastFits(s, b) && HashFits(s, b) ==> a.kind.BackMerge? && a.target == FindHash(s, b.sector))
      && (!LastFits(s, b) && !HashFits(s, b) && !a.kind.NoMerge? ==>
            a.kind.FrontMerge? && a.target.Some? && FrontFits(s, b, a.target.value))
      && (!a.kind.NoMerge? ==> a.state.lastMerge == a.target)
      && (a.kind.NoMerge? && s.lastMerge.Some? && s.lastMerge.value in s.rqs ==>
            a.state.lastMerge == if Mergeable(s.rqs[s.lastMerge.value]) then s.lastMerge else None)
  {
    HashOfAgree(s);
    hide Agree, HashOk, FreshHash, OnDevice, PruneHash, FindHash, FrontTarget, FrontFits, TryMerge;
    LookupOrder(s, b);
    var u := s.(lastMerge := None);
    LastMergeAgree(s, None, {});
    HashOfAgree(u);
    assert FreshHash(u) by { FreshSame(s, u); }
    LookupOrder(u, b);
    assert HashFits(u, b) == HashFits(s, b) by { HashFitsSame(s, u, b); }
    assert FindHash(u, b.sector) == FindHash(s, b.sector) by { FindSame(s, u, b.sector); }
    FrontFitsPlain(s, u, b);
    if s.lastMerge.Some? && s.lastMerge.value in s.rqs { UnmergeableFails(s.rqs[s.lastMerge.value], b); }
  }

  lemma UnmergeableFails(r: Rq, b: Bio)
    ensures !Mergeable(r) ==> TryMerge(r, b).NoMerge?
  {
  }

  lemma FindSame(s: Sched, u: Sched, offset: nat)
    requires HashOk(s) && HashOk(u) && u == s.(lastMerge := u.lastMerge)
    ensures FindHash(u, offset) == FindHash(s, offset)
  {
    hide HashOk, ScanList;
  }

  lemma LookupOrder(s: Sched, b: Bio)
    requires Agree(s, {}) && FreshHash(s) && HashOk(s)
    ensures var a := LookupMerge(s, b);
      && (HashFits(s, b) ==> a.kind.BackMerge? && a.target == FindHash(s, b.sector))
      && (!HashFits(s, b) && !a.kind.NoMerge? ==>
            a.kind.FrontMerge? && a.target.Some? && FrontFits(s, b, a.target.value))
      && a.state.lastMerge == if a.kind.NoMerge? then s.lastMerge else a.target
  {
    PruneAgree(s, b.sector);
    var t := PruneHash(s, b.sector);
    hide Agree, HashOk, FreshHash, PruneHash, FindHash;
    FrontTargetExact(t, b);
    PruneSameIo(s, t);
    hide FrontTarget, Mergeable;
  }

  lemma PruneSameIo(s: Sched, t: Sched)
    requires SameButHash(s, t)
    ensures forall j :: j in s.rqs ==> j in t.rqs && forall b :: MergeOk(t.rqs[j], b) == MergeOk(s.rqs[j], b)
    ensures forall b, j :: FrontFits(t, b, j) == FrontFits(s, b, j)
    ensures t.lastMerge == s.lastMerge && t.cfg == s.cfg
  {
    SameButHashMembers(s, t);
    hide Queued;
  }

  // -------------------------------------------------------- a request that takes no more

  /** Request j is marked as not to be merged with, and carries these bios. */
  predicate Shut(s: Sched, j: Id, bios: seq<Bio>) {
    Carries(s, j, bios) && s.rqs[j].nomerge
  }

  lemma NewRequestShut(s: Sched, b: Bio, id: Id, j: Id, bios: seq<Bio>)
    requires Agree(s, {}) && id !in s.rqs && Shut(s, j, bios)
    ensures Shut(NewRequest(s, b, id), j, bios)
  {
    hide Agree, NewRequest, FreshHash, Ordered, Calm, Queued;
    NewRequestFrame(s, b, id);
  }

  /** Neither the request that takes the bio nor one that joins it is a shut one. */
  lemma MergedShut(s: Sched, q: Id, b: Bio, joinFits: bool, j: Id, bios: seq<Bio>)
    requires Agree(s, {}) && Queued(s, q) && Mergeable(s.rqs[q]) && Shut(s, j, bios)
    ensures Shut(BackMerged(s, q, b, joinFits), j, bios) && Shut(FrontMerged(s, q, b, joinFits), j, bios)
  {
    hide Agree, Queued, BackMerged, FrontMerged, FreshHash, Ordered, Calm, Latter, Former;
    BackMergedFrame(s, q, b, joinFits);
    FrontMergedFrame(s, q, b, joinFits);
    assert j != q && BackJoin(s, q, b, joinFits) != Some(j) && FrontJoin(s, q, b, joinFits) != Some(j);
  }

  lemma SubmitShut(s: Sched, b: Bio, id: Id, segsFit: bool, joinFits: bool, j: Id, bios: seq<Bio>)
    requires Good(s) && Enabled(s, Submit(b, id, segsFit, joinFits)) && Shut(s, j, bios)
    ensures Shut(Step(s, Submit(b, id, segsFit, joinFits)), j, bios)
  {
    hide *;
    StepIs(s, b, id, segsFit, joinFits);
    GoodParts(s, b, id, segsFit, joinFits);
    if Empty(s) || b.barrier || IoType(b) != BestEffort {
      PlainBranch(s, b, id, segsFit, joinFits);
      NewRequestShut(s, b, id, j, bios);
    } else {
      MergeSound(s, b);
      var a := Merge(s, b);
      SameKeysAs(s, a.state);
      LookupShut(s, a.state, j, bios);
      if a.kind.NoMerge? {
        NewBranch(s, b, id, segsFit, joinFits, a.state);
        NewRequestShut(a.state, b, id, j, bios);
      } else {
        SoundIs(a.state, b, a.kind, a.target);
        var q := a.target.value;
        RefuseMergeAgree(a.state, q);
        NamedBranch(s, b, id, segsFit, joinFits, a, q);
        MergedShut(a.state, q, b, joinFits, j, bios);
        RefuseShut(a.state, q, j, bios);
        NewRequestShut(RefuseMerge(a.state, q), b, id, j, bios);
      }
    }
  }

  lemma PlainBranch(s: Sched, b: Bio, id: Id, segsFit: bool, joinFits: bool)
    requires Inv(s) && OnDevice(s) && BioOk(b, s.cfg.maxSectors) && id !in s.rqs
    requires Empty(s) || b.barrier || IoType(b) != BestEffort
    ensures MakeRequest(s, b, id, segsFit, joinFits) == NewRequest(s, b, id)
  {
    hide Agree, FreshHash, OnDevice, Merge, NewRequest;
  }

  lemma LookupShut(s: Sched, u: Sched, j: Id, bios: seq<Bio>)
    requires SameButHash(s, u.(lastMerge := s.lastMerge)) && Shut(s, j, bios)
    ensures Shut(u, j, bios)
  {
  }

  lemma RefuseShut(s: Sched, q: Id, j: Id, bios: seq<Bio>)
    requires q in s.rqs && Shut(s, j, bios)
    ensures Shut(RefuseMerge(s, q), j, bios) && RefuseMerge(s, q).rqs.Keys == s.rqs.Keys
  {
  }

  lemma FetchShut(s: Sched, j: Id, bios: seq<Bio>)
    requires Good(s) && Shut(s, j, bios)
    ensures Shut(Fetch(s), j, bios)
  {
    hide Agree, FreshHash, Ordered, ContentOk, Owned, NextRequest, Queued;
    NextRequestRest(s);
    NextRequestAgree(s);
  }

  lemma TakeShut(s: Sched, id: Id, j: Id, bios: seq<Bio>)
    requires Agree(s, {}) && id in s.dispatch && id != j && Shut(s, j, bios)
    ensures Shut(Take(s, id), j, bios)
  {
    TakeEffect(s, id);
    hide Agree, Take;
  }

  /** Whatever happens short of the driver taking it, a shut request stays shut, with the bios it has. */
  lemma StepShut(s: Sched, e: Event, j: Id, bios: seq<Bio>)
    requires Good(s) && Enabled(s, e) && Shut(s, j, bios) && e != Dequeue(j)
    ensures Shut(Step(s, e), j, bios)
  {
    hide Agree, FreshHash, Ordered, ContentOk, Owned, MakeRequest, Fetch, Take;
    match e
    case Tick(_) =>
    case Submit(b, id, segsFit, joinFits) => SubmitShut(s, b, id, segsFit, joinFits, j, bios);
    case FetchNext => FetchShut(s, j, bios);
    case Dequeue(id) => TakeShut(s, id, j, bios);
  }

  lemma {:induction false} RefusedForever(s: Sched, es: seq<Event>, j: Id, bios: seq<Bio>)
    requires Good(s) && Legal(s, es) && Shut(s, j, bios) && Dequeue(j) !in es
    ensures Shut(Exec(s, es), j, bios)
    decreases |es|
  {
    hide Good, Step, Enabled, Shut;
    if es != [] {
      StepGood(s, es[0]);
      StepShut(s, es[0], j, bios);
      RefusedForever(Step(s, es[0]), es[1..], j, bios);
    }
  }
}
