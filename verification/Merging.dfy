/**
 Merging in the scheduler: the two fast lookups of deadline_merge, and the repositioning
 of requests that have grown.
 */
module Merging {
  import opened Types
  import opened Elevator
  import opened Scheduler

  // ------------------------------------------------------------------ hash lookup

  /** An entry the lookup throws out of the hash list. */
  predicate Stale(r: Rq, gen: nat) {
    !Mergeable(r) || r.gen != gen
  }

  /** What the scan of one hash list returns, and what it leaves of the list. */
  datatype Scan = Scan(found: Option<Id>, kept: seq<Id>)

  function ScanList(rqs: map<Id, Rq>, gen: nat, l: seq<Id>, offset: nat): Scan
    requires forall id :: id in l ==> id in rqs
  {
    if l == [] then Scan(None, [])
    else if Stale(rqs[l[0]], gen) then ScanList(rqs, gen, l[1..], offset)
    else if End(rqs[l[0]]) == offset then Scan(Some(l[0]), l)
    else
      var rest := ScanList(rqs, gen, l[1..], offset);
      rest.(kept := [l[0]] + rest.kept)
  }

  /** The scan is a linear search, and loses only stale entries. */
  lemma {:induction false} ScanMeaning(rqs: map<Id, Rq>, gen: nat, l: seq<Id>, offset: nat)
    requires forall id :: id in l ==> id in rqs
    ensures var c := ScanList(rqs, gen, l, offset);
      && (c.found.Some? ==> c.found.value in l && !Stale(rqs[c.found.value], gen)
                            && End(rqs[c.found.value]) == offset)
      && (c.found.None? ==> forall id :: id in l && !Stale(rqs[id], gen) ==> End(rqs[id]) != offset)
      && (forall id :: id in c.kept ==> id in l)
      && (forall id :: id in l && !Stale(rqs[id], gen) ==> id in c.kept)
      && (NoDup(l) ==> NoDup(c.kept))
  {
    if l != [] {
      ScanMeaning(rqs, gen, l[1..], offset);
      assert forall id :: id in l <==> id == l[0] || id in l[1..];
      assert NoDup(l) ==> NoDup(l[1..]) && l[0] !in l[1..];
    }
  }

  /** The request table once the entries `gone` are off the hash. */
  function Unhashed(rqs: map<Id, Rq>, gone: set<Id>): (r: map<Id, Rq>)
    ensures r.Keys == rqs.Keys
    ensures forall id :: id in rqs ==> r[id] == if id in gone then rqs[id].(gen := 0) else rqs[id]
  {
    map id | id in rqs :: if id in gone then rqs[id].(gen := 0) else rqs[id]
  }

  /** deadline_find_drq_hash: the state after the lookup; ScanList says what is found. */
  function PruneHash(s: Sched, offset: nat): Sched
    requires HashOk(s)
  {
    var b := HashFn(offset);
    var c := ScanList(s.rqs, s.hashGen, s.hash[b], offset);
    s.(rqs := Unhashed(s.rqs, set id | id in s.hash[b] && id !in c.kept),
       hash := s.hash[b := c.kept])
  }

  function FindHash(s: Sched, offset: nat): Option<Id>
    requires HashOk(s)
  {
    ScanList(s.rqs, s.hashGen, s.hash[HashFn(offset)], offset).found
  }

  /** The entries of a list that are not stale. */
  function Live(rqs: map<Id, Rq>, gen: nat, l: seq<Id>): seq<Id>
    requires forall id :: id in l ==> id in rqs
  {
    if l == [] then []
    else if Stale(rqs[l[0]], gen) then Live(rqs, gen, l[1..])
    else [l[0]] + Live(rqs, gen, l[1..])
  }

  /** The scan got to index i, the place of what it found or the end, and threw out the stale entries in front of it. */
  ghost predicate PrunedTo(rqs: map<Id, Rq>, gen: nat, l: seq<Id>, c: Scan, i: nat)
    requires forall id :: id in l ==> id in rqs
  {
    && i <= |l| && (if c.found.None? then i == |l| else i < |l| && l[i] == c.found.value)
    && c.kept == Live(rqs, gen, l[..i]) + l[i..]
  }

  lemma {:induction false} ScanPrunes(rqs: map<Id, Rq>, gen: nat, l: seq<Id>, offset: nat) returns (i: nat)
    requires forall id :: id in l ==> id in rqs
    ensures PrunedTo(rqs, gen, l, ScanList(rqs, gen, l, offset), i)
  {
    if l == [] {
      i := 0;
    } else if !Stale(rqs[l[0]], gen) && End(rqs[l[0]]) == offset {
      i := 0;
      assert l[..0] == [] && l[0..] == l;
    } else {
      var k := ScanPrunes(rqs, gen, l[1..], offset);
      i := k + 1;
      assert l[..i][1..] == l[1..][..k] && l[i..] == l[1..][k..];
    }
  }

  /**
   What the lookup leaves: of its own list, what PrunedTo says, every other list as it was, and
   the requests thrown out are off the hash.
   */
  lemma PruneLeaves(s: Sched, offset: nat)
    requires HashOk(s)
    ensures var t, b := PruneHash(s, offset), HashFn(offset);
      && |t.hash| == |s.hash| && (forall h :: 0 <= h < |s.hash| && h != b ==> t.hash[h] == s.hash[h])
      && (exists i :: PrunedTo(s.rqs, s.hashGen, s.hash[b], Scan(FindHash(s, offset), t.hash[b]), i))
      && t.rqs.Keys == s.rqs.Keys
      && forall id :: id in s.rqs ==>
           t.rqs[id] == if id in s.hash[b] && id !in t.hash[b] then s.rqs[id].(gen := 0) else s.rqs[id]
  {
    var b := HashFn(offset);
    var i := ScanPrunes(s.rqs, s.hashGen, s.hash[b], offset);
    hide PrunedTo, ScanList;
    assert ScanList(s.rqs, s.hashGen, s.hash[b], offset) == Scan(FindHash(s, offset), PruneHash(s, offset).hash[b]);
  }

  ghost predicate Candidate(s: Sched, id: Id, offset: nat) {
    Queued(s, id) && Mergeable(s.rqs[id]) && End(s.rqs[id]) == offset
  }

  /**
   The hash is as good as a scan of every queued request: it finds a mergeable one ending
   at the offset exactly when there is one.
   */
  lemma FindHashExact(s: Sched, offset: nat)
    requires Agree(s, {}) && FreshHash(s)
    ensures FindHash(s, offset).Some? ==> Candidate(s, FindHash(s, offset).value, offset)
    ensures FindHash(s, offset).None? ==> forall id :: !Candidate(s, id, offset)
  {
    var b := HashFn(offset);
    ScanMeaning(s.rqs, s.hashGen, s.hash[b], offset);
    var f := FindHash(s, offset);
    if f.Some? {
      assert PlacedOk(s, f.value);
    }
    forall id | Candidate(s, id, offset) ensures f.Some? {
      assert PlacedOk(s, id);
    }
  }

  lemma PruneHashOk(s: Sched, offset: nat)
    requires HashOk(s)
    ensures HashOk(PruneHash(s, offset))
  {
    var b := HashFn(offset);
    ScanMeaning(s.rqs, s.hashGen, s.hash[b], offset);
    var t := PruneHash(s, offset);
    forall i | 0 <= i < |t.hash| ensures NoDup(t.hash[i]) {
      assert NoDup(s.hash[i]);
    }
  }

  /** t differs from s only in generation numbers and hash lists. */
  ghost predicate SameButHash(s: Sched, t: Sched) {
    && t == s.(rqs := t.rqs, hash := t.hash)
    && t.rqs.Keys == s.rqs.Keys
    && forall id :: id in s.rqs ==> t.rqs[id] == s.rqs[id].(gen := t.rqs[id].gen)
  }

  lemma SameButHashMembers(s: Sched, t: Sched)
    requires SameButHash(s, t)
    ensures forall id :: Queued(t, id) == Queued(s, id) && OnSort(t, id) == OnSort(s, id)
  {
  }

  lemma PruneShape(s: Sched, offset: nat)
    requires HashOk(s)
    ensures var t := PruneHash(s, offset);
      && SameButHash(s, t)
      && (forall id :: id in s.rqs ==> t.rqs[id] == s.rqs[id]
                                       || (t.rqs[id].gen == 0 && Stale(s.rqs[id], s.hashGen)))
  {
    var b := HashFn(offset);
    ScanMeaning(s.rqs, s.hashGen, s.hash[b], offset);
  }

  lemma PrunePlaces(s: Sched, t: Sched)
    requires SameButHash(s, t) && PlacesOk(s, {}) && FreshHash(s)
    requires forall id :: id in s.rqs ==> t.rqs[id] == s.rqs[id]
                                          || (t.rqs[id].gen == 0 && Stale(s.rqs[id], s.hashGen))
    ensures PlacesOk(t, {}) && FreshHash(t)
  {
    SameButHashMembers(s, t);
    forall j | j in t.rqs ensures PlacedOk(t, j) {
      assert PlacedOk(s, j);
    }
  }

  lemma PruneAgree(s: Sched, offset: nat)
    requires Agree(s, {}) && FreshHash(s)
    ensures var t := PruneHash(s, offset);
      Agree(t, {}) && FreshHash(t) && SameButHash(s, t)
  {
    hide SideOk, PlacesOk, ListsOk, FreshHash;
    PruneHashOk(s, offset);
    PruneShape(s, offset);
    SameButHashSides(s, PruneHash(s, offset));
    PrunePlaces(s, PruneHash(s, offset));
  }

  lemma SameButHashSides(s: Sched, t: Sched)
    requires SameButHash(s, t) && SideOk(s, Read) && SideOk(s, Write) && ListsOk(s, {})
    ensures SideOk(t, Read) && SideOk(t, Write) && ListsOk(t, {})
  {
    SameButHashMembers(s, t);
    forall d: Dir | SideOk(s, d) ensures SideOk(t, d) {
    }
  }

  // ------------------------------------------------------------------ deadline_merge

  /** What deadline_merge answers: the state it leaves, the kind of merge, the target. */
  datatype Answer = Answer(state: Sched, kind: MergeKind, target: Option<Id>)

  ghost function FrontTarget(s: Sched, b: Bio): Option<Id> {
    var m := s.sort.At(b.dir);
    if s.cfg.frontMerges && (b.sector + b.nr) in m && m[b.sector + b.nr] in s.rqs
       && MergeOk(s.rqs[m[b.sector + b.nr]], b)
    then Some(m[b.sector + b.nr]) else None
  }

  /** The two indexed lookups of deadline_merge. */
  ghost function LookupMerge(s: Sched, b: Bio): Answer
    requires HashOk(s)
  {
    var f := FindHash(s, b.sector);
    var t := PruneHash(s, b.sector);
    if f.Some? && f.value in t.rqs && MergeOk(t.rqs[f.value], b) then
      Answer(t.(lastMerge := f), BackMerge, f)
    else
      var g := FrontTarget(t, b);
      if g.Some? then Answer(t.(lastMerge := g), FrontMerge, g) else Answer(t, NoMerge, None)
  }

  /** deadline_merge, beginning with elv_try_last_merge. */
  ghost function Merge(s: Sched, b: Bio): Answer
    requires HashOk(s)
  {
    if s.lastMerge.Some? && s.lastMerge.value in s.rqs then
      var r := s.rqs[s.lastMerge.value];
      if !Mergeable(r) then LookupMerge(s.(lastMerge := None), b)
      else if !TryMerge(r, b).NoMerge? then Answer(s, TryMerge(r, b), s.lastMerge)
      else LookupMerge(s, b)
    else LookupMerge(s, b)
  }

  /** The answer is one on which the merge can go ahead. */
  ghost predicate SoundAnswer(s: Sched, b: Bio, kind: MergeKind, target: Option<Id>) {
    match kind
    case NoMerge => target.None?
    case BackMerge =>
      target.Some? && Queued(s, target.value) && MergeOk(s.rqs[target.value], b)
      && End(s.rqs[target.value]) == b.sector
    case FrontMerge =>
      target.Some? && Queued(s, target.value) && MergeOk(s.rqs[target.value], b)
      && b.sector + b.nr == s.rqs[target.value].sector
  }

  /** Every queued request lies on the device. */
  ghost predicate OnDevice(s: Sched) {
    forall id :: id in s.rqs ==> End(s.rqs[id]) < SECTOR_SPACE
  }

  lemma FrontTargetSound(s: Sched, b: Bio)
    requires Agree(s, {})
    ensures var g := FrontTarget(s, b);
      g.Some? ==> Queued(s, g.value) && MergeOk(s.rqs[g.value], b)
                  && b.sector + b.nr == s.rqs[g.value].sector
  {
    hide HashOk, ListsOk;
    if FrontTarget(s, b).Some? {
      TreeMeansFifo(s, b.dir, b.sector + b.nr, {});
      assert PlacedOk(s, FrontTarget(s, b).value);
      assert SideOk(s, b.dir);
    }
  }

  lemma LookupMergeSound(s: Sched, b: Bio)
    requires Agree(s, {}) && FreshHash(s)
    ensures var a := LookupMerge(s, b);
      && SoundAnswer(a.state, b, a.kind, a.target)
      && Agree(a.state, {}) && FreshHash(a.state)
      && SameButHash(s, a.state.(lastMerge := s.lastMerge))
  {
    hide SideOk, PlacesOk, ListsOk, FindHash, FrontTarget, PruneHash;
    var t := PruneHash(s, b.sector);
    FindHashExact(s, b.sector);
    PruneAgree(s, b.sector);
    SameButHashMembers(s, t);
    FrontTargetSound(t, b);
    var a := LookupMerge(s, b);
    if a.target.Some? {
      LastMergeAgree(t, a.target, {});
    }
  }

  /** A queued request that begins where the bio ends, and may take it in. */
  ghost predicate FrontFits(s: Sched, b: Bio, id: Id) {
    Queued(s, id) && MergeOk(s.rqs[id], b) && s.rqs[id].sector == b.sector + b.nr
  }

  /** The tree lookup misses nobody: a front target is found exactly when there is one, and it is the only one. */
  lemma FrontTargetExact(s: Sched, b: Bio)
    requires Agree(s, {})
    ensures FrontTarget(s, b).Some? <==> s.cfg.frontMerges && exists id :: FrontFits(s, b, id)
    ensures forall id: Id :: s.cfg.frontMerges && FrontFits(s, b, id) ==> FrontTarget(s, b) == Some(id)
  {
    hide HashOk, ListsOk;
    FrontTargetSound(s, b);
    if FrontTarget(s, b).Some? {
      assert FrontFits(s, b, FrontTarget(s, b).value);
    }
    forall id: Id | FrontFits(s, b, id) ensures s.cfg.frontMerges ==> FrontTarget(s, b) == Some(id) {
      assert PlacedOk(s, id);
    }
  }

  /** last_merge touches the bio and may take it in. */
  predicate LastFits(s: Sched, b: Bio) {
    s.lastMerge.Some? && s.lastMerge.value in s.rqs && !TryMerge(s.rqs[s.lastMerge.value], b).NoMerge?
  }

  /** The first entry of the hash list that ends at the bio may take it in. */
  ghost predicate HashFits(s: Sched, b: Bio)
    requires HashOk(s)
  {
    FindHash(s, b.sector).Some? && FindHash(s, b.sector).value in s.rqs
    && MergeOk(s.rqs[FindHash(s, b.sector).value], b)
  }

  lemma LookupMissesIff(s: Sched, b: Bio)
    requires Agree(s, {}) && FreshHash(s)
    ensures LookupMerge(s, b).kind.NoMerge? <==>
              !HashFits(s, b) && !(s.cfg.frontMerges && exists id :: FrontFits(s, b, id))
  {
    hide SideOk, PlacesOk, ListsOk, FindHash, FrontTarget, PruneHash, FrontFits, FreshHash;
    var t := PruneHash(s, b.sector);
    PruneShape(s, b.sector);
    PruneAgree(s, b.sector);
    FrontTargetExact(t, b);
    FrontFitsPruned(s, t, b);
  }

  lemma FrontFitsPruned(s: Sched, t: Sched, b: Bio)
    requires SameButHash(s, t)
    ensures forall id :: FrontFits(t, b, id) == FrontFits(s, b, id)
  {
    SameButHashMembers(s, t);
    forall id ensures FrontFits(t, b, id) == FrontFits(s, b, id) {
      if id in s.rqs { assert t.rqs[id] == s.rqs[id].(gen := t.rqs[id].gen); }
    }
  }

  /**
   When deadline_merge finds no merge.  A request in front of which the bio fits is never
   missed while front_merges is on; one behind which it fits is missed when another request
   that ends at the same sector, of the other direction or disk, comes first in the hash
   list (HashHidesMerge in Witnesses is such a run).
   */
  lemma MergeMissesIff(s: Sched, b: Bio)
    requires Agree(s, {}) && FreshHash(s)
    ensures Merge(s, b).kind.NoMerge? <==>
              !LastFits(s, b) && !HashFits(s, b) && !(s.cfg.frontMerges && exists id :: FrontFits(s, b, id))
    ensures forall c :: Candidate(s, c, b.sector) ==>
              FindHash(s, b.sector).Some? && Candidate(s, FindHash(s, b.sector).value, b.sector)
  {
    assert HashOk(s);
    hide Agree, HashOk, LookupMerge, FrontFits, FindHash, FreshHash;
    FindHashExact(s, b.sector);
    LookupMissesIff(s, b);
    var u := s.(lastMerge := None);
    LastMergeAgree(s, None, {});
    assert FreshHash(u) by { FreshSame(s, u); }
    LookupMissesIff(u, b);
    assert HashFits(u, b) == HashFits(s, b) by { HashFitsSame(s, u, b); }
    assert forall id :: FrontFits(u, b, id) == FrontFits(s, b, id) by { FrontFitsPlain(s, u, b); }
  }

  /**
   What a caller can check: when every mergeable request that ends where the bio starts has
   its direction and disk and neither waits for completion nor is special, deadline_merge
   answers no merge only if there is no such request.
   */
  lemma BackMergeSure(s: Sched, b: Bio)
    requires Agree(s, {}) && FreshHash(s)
    requires forall id :: Candidate(s, id, b.sector) ==>
               s.rqs[id].dir == b.dir && s.rqs[id].disk == b.disk && !s.rqs[id].waiting && !s.rqs[id].special
    ensures Merge(s, b).kind.NoMerge? ==> forall id :: !Candidate(s, id, b.sector)
  {
    hide Agree, LookupMerge, FrontFits, FindHash, FreshHash, Merge, LastFits;
    assert HashOk(s) by { HashOfAgree(s); }
    MergeMissesIff(s, b);
  }

  lemma HashOfAgree(s: Sched)
    requires Agree(s, {})
    ensures HashOk(s)
  {
  }

  lemma FreshSame(s: Sched, u: Sched)
    requires FreshHash(s) && u == s.(lastMerge := u.lastMerge)
    ensures FreshHash(u)
  {
  }

  lemma HashFitsSame(s: Sched, u: Sched, b: Bio)
    requires HashOk(s) && HashOk(u) && u == s.(lastMerge := u.lastMerge)
    ensures HashFits(u, b) == HashFits(s, b)
  {
    hide HashOk, ScanList;
  }

  lemma FrontFitsPlain(s: Sched, u: Sched, b: Bio)
    requires u == s.(lastMerge := u.lastMerge)
    ensures forall id :: FrontFits(u, b, id) == FrontFits(s, b, id)
  {
  }

  /**
   Any back or front answer of deadline_merge names a queued request that touches the bio,
   in the same direction and on the same disk.
   */
  lemma MergeSound(s: Sched, b: Bio)
    requires Agree(s, {}) && FreshHash(s) && OnDevice(s) && BioOk(b, s.cfg.maxSectors)
    ensures var a := Merge(s, b);
      && SoundAnswer(a.state, b, a.kind, a.target)
      && Agree(a.state, {}) && FreshHash(a.state)
      && SameButHash(s, a.state.(lastMerge := s.lastMerge))
  {
    hide SideOk, PlacesOk, HashOk, LookupMerge;
    LookupMergeSound(s, b);
    if s.lastMerge.Some? {
      var r := s.rqs[s.lastMerge.value];
      TryMergeContiguous(r, b, s.cfg.maxSectors);
      LastMergeAgree(s, None, {});
      LookupMergeSound(s.(lastMerge := None), b);
    }
  }

  // ------------------------------------------------------- after a bio has been merged

  /** Take the request off the hash and put it back under its present end sector. */
  function Rehash(s: Sched, id: Id): Sched
    requires id in s.rqs && HashOk(s)
  {
    AddHash(DelHash(s, id), id)
  }

  lemma RehashTouches(s: Sched, id: Id)
    requires id in s.rqs && HashOk(s)
    ensures var t := Rehash(s, id);
      && t.hashGen == s.hashGen && Touched(s, t, id)
      && t.rqs[id] == s.rqs[id].(gen := s.hashGen, slot := HashFn(End(s.rqs[id])))
  {
    hide NoDup, Without, HashFn;
    DelHashTouches(s, id);
  }

  lemma RehashAgree(s: Sched, id: Id, x: set<Id>)
    requires id in x && Agree(s, x)
    ensures var t := Rehash(s, id);
      && Agree(t, x) && t.hashGen == s.hashGen && Touched(s, t, id)
      && t.rqs[id] == s.rqs[id].(gen := s.hashGen, slot := HashFn(End(s.rqs[id])))
  {
    assert id in s.rqs && HashOk(s);
    RehashTouches(s, id);
    DelHashOk(s, id);
    DelHashTouches(s, id);
    hide SideOk, PlacesOk, ListsOk, HashOk, Touched, DelHash, AddHash;
    AddHashOk(DelHash(s, id), id);
    TouchedAgree(s, Rehash(s, id), id, x);
  }

  /** The repositioning in the tree after a front merge. */
  ghost function Reposition(s: Sched, id: Id): Sched
    requires id in s.rqs && HashOk(s) && SideOk(s, s.rqs[id].dir)
  {
    if s.rqs[id].sector != s.rqs[id].rbKey then
      OffTreeKeepsSide(s, id);
      AddRb(DelRb(s, id), id)
    else s
  }

  lemma OffTreeKeepsSide(s: Sched, id: Id)
    requires id in s.rqs && HashOk(s) && SideOk(s, s.rqs[id].dir)
    ensures var t := DelRb(s, id);
      OffTree(s, t, id) && SideOk(t, s.rqs[id].dir) && HashOk(t)
  {
    OffTreeSide(s, DelRb(s, id), id, s.rqs[id].dir);
  }

  lemma RepositionAgree(s: Sched, id: Id)
    requires Agree(s, {id}) && Queued(s, id) && OnSort(s, id)
    ensures var t := Reposition(s, id);
      && Agree(t, {id}) && Queued(t, id) && OnSort(t, id) && t.hashGen == s.hashGen
      && t.rqs[id] == s.rqs[id].(rbKey := s.rqs[id].sector)
      && (t.lastMerge == s.lastMerge || t.lastMerge == None)
  {
    hide SideOk, PlacesOk, ListsOk;
    if s.rqs[id].sector != s.rqs[id].rbKey {
      DelRbAgree(s, id, {id});
      AddRbAgree(DelRb(s, id), id, {id});
    }
  }

  /** deadline_merged_request */
  ghost function MergedRequest(s: Sched, id: Id): Sched
    requires Agree(s, {id})
  {
    RehashAgree(s, id, {id});
    Reposition(Rehash(s, id), id).(lastMerge := Some(id))
  }

  lemma MergedRequestAgree(s: Sched, id: Id)
    requires Agree(s, {id}) && Queued(s, id) && OnSort(s, id)
    ensures var t := MergedRequest(s, id); var r := s.rqs[id];
      && Agree(t, {}) && t.hashGen == s.hashGen && Queued(t, id)
      && t.rqs[id] == r.(gen := s.hashGen, slot := HashFn(End(r)), rbKey := r.sector)
  {
    hide SideOk, PlacesOk, ListsOk, Rehash, Reposition;
    RehashAgree(s, id, {id});
    TouchedMembers(s, Rehash(s, id), id);
    RepositionAgree(Rehash(s, id), id);
    var t := Reposition(Rehash(s, id), id);
    LastMergeAgree(t, Some(id), {id});
    Close(t.(lastMerge := Some(id)), id, {id});
    assert {id} - {id} == {};
  }

  // ---------------------------------------------------------- after two requests merged

  /** list_move: req leaves its place in the FIFO for the one behind next. */
  function TakePlace(s: Sched, id: Id, nx: Id): Sched
    requires id in s.rqs
  {
    var d := s.rqs[id].dir;
    s.(fifo := s.fifo.Put(d, InsertAfter(Without(s.fifo.At(d), id), nx, id)))
  }

  function SetExpires(s: Sched, id: Id, e: nat): Sched
    requires id in s.rqs
  {
    s.(rqs := s.rqs[id := s.rqs[id].(expires := e)])
  }

  /** The FIFO move of deadline_merged_requests: req inherits the place of an earlier next. */
  function InheritExpiry(s: Sched, id: Id, nx: Id): Sched
    requires id in s.rqs && nx in s.rqs
  {
    if Queued(s, id) && Queued(s, nx) && s.rqs[nx].expires < s.rqs[id].expires
    then SetExpires(TakePlace(s, id, nx), id, s.rqs[nx].expires)
    else s
  }

  /** s with another FIFO of the same members. */
  lemma FifoPermuted(s: Sched, d: Dir, l: seq<Id>, x: set<Id>)
    requires Agree(s, x) && NoDup(l) && forall j :: j in l <==> j in s.fifo.At(d)
    ensures var t := s.(fifo := s.fifo.Put(d, l));
      Agree(t, x) && forall j :: Queued(t, j) == Queued(s, j) && OnSort(t, j) == OnSort(s, j)
  {
    var t := s.(fifo := s.fifo.Put(d, l));
    PermutedSides(s, d, l);
    hide SideOk, PlacesOk, HashOk, ListsOk;
    OutsideAgree(s, t, x);
  }

  lemma PermutedSides(s: Sched, d: Dir, l: seq<Id>)
    requires SideOk(s, Read) && SideOk(s, Write) && NoDup(l) && forall j :: j in l <==> j in s.fifo.At(d)
    ensures var t := s.(fifo := s.fifo.Put(d, l));
      && SideOk(t, Read) && SideOk(t, Write) && SameOutside(s, t, {})
      && forall j :: Queued(t, j) == Queued(s, j) && OnSort(t, j) == OnSort(s, j)
  {
    hide NoDup;
    var t := s.(fifo := s.fifo.Put(d, l));
    assert SideOk(s, d) && SideOk(s, d.Other());
    assert SideOk(t, d) && SideOk(t, d.Other());
  }

  lemma TakePlaceAgree(s: Sched, id: Id, nx: Id, x: set<Id>)
    requires Agree(s, x) && id in x && id != nx && Queued(s, nx) && Queued(s, id)
    requires s.rqs[nx].dir == s.rqs[id].dir
    ensures var t := TakePlace(s, id, nx);
      Agree(t, x) && forall j :: Queued(t, j) == Queued(s, j) && OnSort(t, j) == OnSort(s, j)
  {
    hide PlacesOk, HashOk, ListsOk;
    var d := s.rqs[id].dir;
    var l := s.fifo.At(d);
    assert SideOk(s, d);
    assert NoDup(l) && nx in Without(l, id);
    FifoPermuted(s, d, InsertAfter(Without(l, id), nx, id), x);
  }

  lemma SetExpiresAgree(s: Sched, id: Id, e: nat, x: set<Id>)
    requires Agree(s, x) && id in x
    ensures var t := SetExpires(s, id, e);
      Agree(t, x) && forall j :: Queued(t, j) == Queued(s, j) && OnSort(t, j) == OnSort(s, j)
  {
    hide PlacesOk, HashOk, SideOk;
    Reshape(s, id, s.rqs[id].(expires := e), x);
    TouchedMembers(s, SetExpires(s, id, e), id);
  }

  lemma InheritExpiryAgree(s: Sched, id: Id, nx: Id, x: set<Id>)
    requires Agree(s, x) && id in x && id != nx && nx in s.rqs && s.rqs[nx].dir == s.rqs[id].dir
    ensures var t := InheritExpiry(s, id, nx);
      && Agree(t, x) && t.hashGen == s.hashGen && t.lastMerge == s.lastMerge
      && (forall j :: Queued(t, j) == Queued(s, j) && OnSort(t, j) == OnSort(s, j))
      && t.rqs == s.rqs[id := s.rqs[id].(expires := t.rqs[id].expires)]
  {
    InheritExpiryIs(s, id, nx);
    hide Agree, Queued, OnSort, InheritExpiry, TakePlace, SetExpires;
    if Queued(s, id) && Queued(s, nx) && s.rqs[nx].expires < s.rqs[id].expires {
      TakePlaceAgree(s, id, nx, x);
      SetExpiresAgree(TakePlace(s, id, nx), id, s.rqs[nx].expires, x);
    }
  }

  lemma InheritExpiryIs(s: Sched, id: Id, nx: Id)
    requires id in s.rqs && nx in s.rqs
    ensures var t := InheritExpiry(s, id, nx);
      && t.hashGen == s.hashGen && t.lastMerge == s.lastMerge && id in t.rqs && id in TakePlace(s, id, nx).rqs
      && t.rqs == s.rqs[id := s.rqs[id].(expires := t.rqs[id].expires)]
      && t == if Queued(s, id) && Queued(s, nx) && s.rqs[nx].expires < s.rqs[id].expires
              then SetExpires(TakePlace(s, id, nx), id, s.rqs[nx].expires) else s
  {
    assert s.rqs == s.rqs[id := s.rqs[id]];
    hide InsertAfter, Without;
  }

  /** deadline_remove_request for a merged-away request, which then goes back to the free list. */
  ghost function Drop(s: Sched, nx: Id): Sched
    requires nx in s.rqs && HashOk(s)
  {
    var t := Remove(s, nx);
    t.(rqs := t.rqs - {nx})
  }

  function OutOfFifo(s: Sched, nx: Id): Sched
    requires nx in s.rqs
  {
    s.(fifo := s.fifo.Put(s.rqs[nx].dir, Without(s.fifo.At(s.rqs[nx].dir), nx)))
  }

  lemma OutOfFifoSides(s: Sched, nx: Id)
    requires SideOk(s, Read) && SideOk(s, Write) && nx in s.rqs
    ensures var t := OutOfFifo(s, nx);
      && SideOk(t, Read) && SideOk(t, Write) && SameOutside(s, t, {nx})
      && !Queued(t, nx) && (forall j :: OnSort(t, j) == OnSort(s, j))
      && forall j :: j != nx ==> Queued(t, j) == Queued(s, j)
  {
    hide NoDup;
    var t, d := OutOfFifo(s, nx), s.rqs[nx].dir;
    assert SideOk(s, d) && SideOk(s, d.Other());
    assert SideOk(t, d) && SideOk(t, d.Other());
  }

  lemma OutOfFifoAgree(s: Sched, nx: Id, x: set<Id>)
    requires Agree(s, x) && nx in x
    ensures var t := OutOfFifo(s, nx);
      Agree(t, x) && !Queued(t, nx) && (forall j :: OnSort(t, j) == OnSort(s, j))
      && forall j :: j != nx ==> Queued(t, j) == Queued(s, j)
  {
    assert nx in s.rqs;
    hide SideOk, PlacesOk, HashOk, ListsOk, OutOfFifo;
    OutOfFifoSides(s, nx);
    OutsideAgree(s, OutOfFifo(s, nx), x);
  }

  lemma RemoveUnfold(s: Sched, nx: Id)
    requires nx in s.rqs && HashOk(s) && !s.rqs[nx].qosFlag && nx !in s.dispatch
    ensures Remove(s, nx) == DelRb(DelHash(OutOfFifo(s, nx), nx), nx).(
              lastMerge := if s.lastMerge == Some(nx) then None else s.lastMerge)
  {
  }

  /** s without the entry of a request that is in no index. */
  ghost function Forgotten(s: Sched, nx: Id): Sched {
    s.(rqs := s.rqs - {nx}, lastMerge := if s.lastMerge == Some(nx) then None else s.lastMerge)
  }

  lemma Forget(s: Sched, nx: Id, x: set<Id>)
    requires Agree(s, x) && nx in x && !Queued(s, nx) && !OnSort(s, nx) && s.rqs[nx].gen == 0
    ensures var t := Forgotten(s, nx);
      Agree(t, x - {nx}) && forall j :: j != nx ==> Queued(t, j) == Queued(s, j) && OnSort(t, j) == OnSort(s, j)
  {
    var t := Forgotten(s, nx);
    assert nx in s.rqs;
    ForgetMembers(s, t, nx);
    ForgetPlaces(s, nx, x);
    ForgetLists(s, nx, x);
    hide SideOk, PlacesOk, ListsOk, HashOk, Forgotten, Queued, OnSort;
    assert HashOk(t) by { ForgetHash(s, nx); }
  }

  lemma ForgetHash(s: Sched, nx: Id)
    requires HashOk(s) && nx in s.rqs && s.rqs[nx].gen == 0
    ensures HashOk(Forgotten(s, nx))
  {
    hide NoDup;
  }

  lemma ForgetPlaces(s: Sched, nx: Id, x: set<Id>)
    requires PlacesOk(s, x) && nx in x && nx in s.rqs
    requires forall j :: j != nx ==> Queued(Forgotten(s, nx), j) == Queued(s, j)
                                     && OnSort(Forgotten(s, nx), j) == OnSort(s, j)
    ensures PlacesOk(Forgotten(s, nx), x - {nx})
  {
    hide Queued, OnSort, HashFn, End;
    forall j | j in Forgotten(s, nx).rqs && j !in x - {nx} ensures PlacedOk(Forgotten(s, nx), j) {
      assert PlacedOk(s, j);
    }
  }

  lemma ForgetLists(s: Sched, nx: Id, x: set<Id>)
    requires ListsOk(s, x) && nx in x
    requires forall j :: j != nx ==> Queued(Forgotten(s, nx), j) == Queued(s, j)
    ensures ListsOk(Forgotten(s, nx), x - {nx})
  {
    hide Queued, QosReady;
  }

  lemma ForgetMembers(s: Sched, t: Sched, nx: Id)
    requires nx in s.rqs && !Queued(s, nx) && !OnSort(s, nx)
    requires t == s.(rqs := s.rqs - {nx}, lastMerge := t.lastMerge)
    requires SideOk(s, Read) && SideOk(s, Write)
    ensures SideOk(t, Read) && SideOk(t, Write)
    ensures forall j :: j != nx ==> Queued(t, j) == Queued(s, j) && OnSort(t, j) == OnSort(s, j)
  {
    forall d: Dir | SideOk(s, d) ensures SideOk(t, d) {
      assert forall k :: k in s.sort.At(d) && s.sort.At(d)[k] == nx ==> OnSort(s, nx);
      assert forall j :: j in s.fifo.At(d) ==> j != nx;
    }
  }

  /** Off the FIFO, the hash and the tree. */
  ghost function Cleared(s: Sched, nx: Id): Sched
    requires nx in s.rqs && HashOk(s)
  {
    DelRb(DelHash(OutOfFifo(s, nx), nx), nx)
  }

  lemma ClearedAgree(s: Sched, nx: Id, x: set<Id>)
    requires Agree(s, x) && nx in x
    ensures var t := Cleared(s, nx);
      && Agree(t, x) && t.hashGen == s.hashGen && t.lastMerge == s.lastMerge
      && t.rqs == s.rqs[nx := s.rqs[nx].(gen := 0)]
      && !Queued(t, nx) && !OnSort(t, nx)
      && (forall j :: j in t.rqs && j != nx ==> Queued(t, j) == Queued(s, j) && OnSort(t, j) == OnSort(s, j))
  {
    hide SideOk, PlacesOk;
    OutOfFifoAgree(s, nx, x);
    var s0 := OutOfFifo(s, nx);
    DelHashAgree(s0, nx, x);
    var s1 := DelHash(s0, nx);
    TouchedMembers(s0, s1, nx);
    DelRbAgree(s1, nx, x);
    assert SideOk(s1, s1.rqs[nx].dir);
    OffTreeMembers(s1, DelRb(s1, nx), nx);
  }

  lemma DropAgree(s: Sched, nx: Id, x: set<Id>)
    requires Agree(s, x) && nx in x
    ensures var t := Drop(s, nx);
      && Agree(t, x - {nx}) && t.hashGen == s.hashGen && t.rqs == s.rqs - {nx}
      && (forall j :: j in t.rqs && j != nx ==> Queued(t, j) == Queued(s, j) && OnSort(t, j) == OnSort(s, j))
      && t.lastMerge == if s.lastMerge == Some(nx) then None else s.lastMerge
  {
    hide SideOk, PlacesOk, HashOk;
    RemoveUnfold(s, nx);
    ClearedAgree(s, nx, x);
    Forget(Cleared(s, nx), nx, x);
    assert Cleared(s, nx).rqs - {nx} == s.rqs - {nx};
  }

  lemma InheritKnown(s: Sched, id: Id, nx: Id)
    requires id in s.rqs && nx in s.rqs && HashOk(s)
    ensures nx in InheritExpiry(s, id, nx).rqs && HashOk(InheritExpiry(s, id, nx))
  {
  }

  /** The FIFO move and the removal of next. */
  ghost function Retire(s: Sched, id: Id, nx: Id): Sched
    requires id in s.rqs && nx in s.rqs && HashOk(s)
  {
    InheritKnown(s, id, nx);
    Drop(InheritExpiry(s, id, nx), nx)
  }

  lemma RetireAgree(s: Sched, id: Id, nx: Id)
    requires Agree(s, {id, nx}) && id != nx && s.rqs[id].dir == s.rqs[nx].dir
    ensures var t := Retire(s, id, nx);
      && Agree(t, {id}) && t.hashGen == s.hashGen && t.rqs.Keys == s.rqs.Keys - {nx}
      && Queued(t, id) == Queued(s, id) && OnSort(t, id) == OnSort(s, id)
      && t.rqs[id] == s.rqs[id].(expires := t.rqs[id].expires)
      && (forall j :: j in t.rqs && j != id ==> t.rqs[j] == s.rqs[j])
  {
    hide SideOk, PlacesOk, Drop, InheritExpiry;
    InheritExpiryAgree(s, id, nx, {id, nx});
    DropAgree(InheritExpiry(s, id, nx), nx, {id, nx});
    assert {id, nx} - {nx} == {id};
  }

  /**
   deadline_merged_requests, followed by the release of next.  The request that absorbs
   the other keeps its start sector, so its repositioning branch is not entered.
   */
  ghost function MergedRequests(s: Sched, id: Id, nx: Id): Sched
    requires Agree(s, {id, nx}) && s.rqs[id].sector == s.rqs[id].rbKey
  {
    RehashAgree(s, id, {id, nx});
    RepositionIdle(Rehash(s, id), id);
    Retire(Reposition(Rehash(s, id), id), id, nx)
  }

  lemma RepositionIdle(s: Sched, id: Id)
    requires id in s.rqs && HashOk(s) && SideOk(s, s.rqs[id].dir) && s.rqs[id].sector == s.rqs[id].rbKey
    ensures Reposition(s, id) == s
  {
  }

  /**
   The merged request stays indexed under its new end; the other one is gone from every
   index and from the request table.
   */
  lemma MergedRequestsAgree(s: Sched, id: Id, nx: Id)
    requires Agree(s, {id, nx}) && id != nx && s.rqs[id].dir == s.rqs[nx].dir
    requires Queued(s, id) && OnSort(s, id) && s.rqs[id].sector == s.rqs[id].rbKey
    ensures var t := MergedRequests(s, id, nx);
      && Agree(t, {}) && Queued(t, id) && t.hashGen == s.hashGen
      && t.rqs.Keys == s.rqs.Keys - {nx}
      && t.rqs[id] == s.rqs[id].(gen := s.hashGen, slot := HashFn(End(s.rqs[id])), expires := t.rqs[id].expires)
      && (forall j :: j in t.rqs && j != id ==> t.rqs[j] == s.rqs[j])
  {
    hide Agree, HashOk, Rehash, Retire, OnSort, Queued, MergedRequests, HashFn;
    MergedRequestsIs(s, id, nx);
    RehashedPair(s, id, nx);
    RetireAgree(Rehash(s, id), id, nx);
    MergedPlaced(Retire(Rehash(s, id), id, nx), id);
    CloseLast(Retire(Rehash(s, id), id, nx), id);
  }

  lemma RehashedPair(s: Sched, id: Id, nx: Id)
    requires Agree(s, {id, nx}) && id != nx && Queued(s, id) && OnSort(s, id)
    ensures id in s.rqs && nx in s.rqs
    ensures var t := Rehash(s, id); var r := s.rqs[id];
      && Agree(t, {id, nx}) && t.hashGen == s.hashGen && t.rqs.Keys == s.rqs.Keys && Queued(t, id) && OnSort(t, id)
      && t.rqs[id] == r.(gen := s.hashGen, slot := HashFn(End(r))) && t.hashGen != 0
      && forall j :: j in s.rqs && j != id ==> t.rqs[j] == s.rqs[j]
  {
    assert id in s.rqs && nx in s.rqs && s.hashGen != 0;
    hide Agree, HashOk, Rehash;
    RehashAgree(s, id, {id, nx});
    TouchedMembers(s, Rehash(s, id), id);
  }

  lemma MergedRequestsIs(s: Sched, id: Id, nx: Id)
    requires Agree(s, {id, nx}) && s.rqs[id].sector == s.rqs[id].rbKey
    ensures id in s.rqs && nx in s.rqs && HashOk(s)
    ensures var u := Rehash(s, id);
      id in u.rqs && nx in u.rqs && HashOk(u) && MergedRequests(s, id, nx) == Retire(u, id, nx)
  {
    assert id in s.rqs && nx in s.rqs;
    hide PlacesOk, ListsOk, Rehash, Retire, Reposition;
    RehashAgree(s, id, {id, nx});
    RepositionIdle(Rehash(s, id), id);
  }

  /** A request that is queued and hashed anew is placed. */
  lemma MergedPlaced(s: Sched, id: Id)
    requires id in s.rqs && Queued(s, id) && OnSort(s, id) && s.rqs[id].rbKey == s.rqs[id].sector
    requires s.rqs[id].gen != 0 && s.rqs[id].slot == HashFn(End(s.rqs[id]))
    ensures PlacedOk(s, id)
  {
  }
}
