/**
 The request queue as a whole: __make_request and attempt_merge of ll_rw_blk.c on top of
 the scheduler, the driver's side of the elevator, and runs of any such events.

 Segment limits enter as two answers: `segsFit` is what the segment tests of the
 back/front merge function say, `joinFits` those of the request merge function.
 */
module BlockQueue {
  import opened Types
  import opened Elevator
  import opened SortTree
  import opened Scheduler
  import opened Merging
  import opened Frames

  ghost predicate Inv(s: Sched) {
    Agree(s, {}) && FreshHash(s)
  }

  /** deadline_queue_empty */
  predicate Empty(s: Sched) {
    s.fifo.wr == [] && s.fifo.rd == [] && s.ucsb == [] && s.dispatch == []
  }

  // ----------------------------------------------------------------- a new request

  /** The request is filled in but in no index yet. */
  function Admitted(s: Sched, b: Bio, id: Id): Sched {
    s.(rqs := s.rqs[id := NewRq(b)], submitted := s.submitted + {b})
  }

  lemma AdmittedSettled(s: Sched, b: Bio, id: Id)
    requires Agree(s, {}) && id !in s.rqs
    ensures var t := Admitted(s, b, id);
      && Settled(t, {id}) && t.rqs[id].gen == 0 && t.lastMerge != Some(id)
      && forall j :: j != id ==> Queued(t, j) == Queued(s, j) && OnSort(t, j) == OnSort(s, j)
  {
    var t := Admitted(s, b, id);
    AdmittedMembers(s, t, id);
    forall j | j in t.rqs && j != id ensures PlacedOk(t, j) {
      assert PlacedOk(s, j);
    }
    assert HashOk(t);
  }

  lemma AdmittedMembers(s: Sched, t: Sched, id: Id)
    requires id !in s.rqs && SideOk(s, Read) && SideOk(s, Write)
    requires id in t.rqs && t == s.(rqs := s.rqs[id := t.rqs[id]], submitted := t.submitted)
    ensures SideOk(t, Read) && SideOk(t, Write) && !Queued(t, id) && !OnSort(t, id)
    ensures forall j :: j != id ==> Queued(t, j) == Queued(s, j) && OnSort(t, j) == OnSort(s, j)
  {
    assert forall d: Dir :: SideOk(s, d) ==> forall k :: k in s.sort.At(d) ==> s.sort.At(d)[k] != id;
    assert forall d: Dir :: SideOk(s, d) ==> id !in s.fifo.At(d);
    forall d: Dir | SideOk(s, d) ensures SideOk(t, d) {
    }
    assert t.rqs[id].dir.Read? || t.rqs[id].dir.Write?;
    assert SideOk(s, t.rqs[id].dir);
  }

  /** The get_rq part of __make_request: a request of its own for the bio. */
  ghost function NewRequest(s: Sched, b: Bio, id: Id): Sched
    requires Agree(s, {}) && id !in s.rqs
  {
    AdmittedSettled(s, b, id);
    InsertRequest(Admitted(s, b, id), id)
  }

  lemma NewRequestInv(s: Sched, b: Bio, id: Id)
    requires Agree(s, {}) && id !in s.rqs
    ensures Agree(NewRequest(s, b, id), {})
  {
    hide SideOk, PlacesOk, HashOk, ListsOk, InsertBestEffort, InsertQos, InsertBarrier;
    AdmittedSettled(s, b, id);
    var t := Admitted(s, b, id);
    if b.barrier {
      InsertBarrierAgree(t, id);
    } else if IoType(b) != BestEffort {
      InsertQosAgree(t, id);
    } else {
      InsertBestEffortAgree(t, id);
    }
  }

  // --------------------------------------------------------------------- merging

  /** A merge function that refuses marks the request and forgets last_merge. */
  function RefuseMerge(s: Sched, id: Id): Sched
    requires id in s.rqs
  {
    s.(rqs := s.rqs[id := s.rqs[id].(nomerge := true)], lastMerge := None)
  }

  lemma RefuseMergeAgree(s: Sched, id: Id)
    requires Agree(s, {}) && Queued(s, id)
    ensures Agree(RefuseMerge(s, id), {})
  {
    hide SideOk, PlacesOk, HashOk;
    assert PlacedOk(s, id) by { PlacedNow(s, id); }
    Open(s, id, {});
    assert {} + {id} == {id};
    LastMergeAgree(s, None, {id});
    var s1 := s.(lastMerge := None);
    var r := s.rqs[id].(nomerge := true);
    Reshape(s1, id, r, {id});
    var t := RefuseMerge(s, id);
    assert t == s1.(rqs := s1.rqs[id := r]);
    TouchedMembers(s1, t, id);
    Close(t, id, {id});
    assert {id} - {id} == {};
  }

  lemma PlacedNow(s: Sched, id: Id)
    requires Agree(s, {}) && id in s.rqs
    ensures PlacedOk(s, id)
  {
  }

  function GrowBack(r: Rq, b: Bio): Rq {
    r.(bios := r.bios + [b], nr := r.nr + b.nr)
  }

  function GrowFront(r: Rq, b: Bio): Rq {
    r.(bios := [b] + r.bios, sector := b.sector, nr := r.nr + b.nr)
  }

  /** The bio chain of one request appended to another's. */
  function Absorb(r: Rq, n: Rq): Rq {
    r.(bios := r.bios + n.bios, nr := r.nr + n.nr)
  }

  /** attempt_merge's tests, with the sector and special tests of ll_merge_requests_fn. */
  predicate CanJoin(r: Rq, n: Rq, maxSectors: nat, joinFits: bool) {
    && Mergeable(r) && Mergeable(n)
    && End(r) == n.sector
    && r.dir == n.dir && r.disk == n.disk && !n.waiting && !n.special
    && !r.special && r.nr + n.nr <= maxSectors && joinFits
  }

  /** The request table with the bio in place. */
  function Grown(s: Sched, id: Id, r: Rq, b: Bio): Sched {
    s.(rqs := s.rqs[id := r], submitted := s.submitted + {b})
  }

  lemma GrownAgree(s: Sched, id: Id, r: Rq, b: Bio)
    requires Agree(s, {}) && Queued(s, id)
    requires var o := s.rqs[id]; r == o.(bios := r.bios, sector := r.sector, nr := r.nr)
    ensures var t := Grown(s, id, r, b);
      && Agree(t, {id}) && Queued(t, id) && OnSort(t, id)
      && (forall j :: Queued(t, j) == Queued(s, j) && OnSort(t, j) == OnSort(s, j))
  {
    hide SideOk, PlacesOk, HashOk;
    assert PlacedOk(s, id) by { PlacedNow(s, id); }
    Open(s, id, {});
    assert {} + {id} == {id};
    Reshape(s, id, r, {id});
    var t := s.(rqs := s.rqs[id := r]);
    TouchedMembers(s, t, id);
    SubmittedAgree(t, s.submitted + {b}, {id});
  }

  lemma SubmittedAgree(s: Sched, u: set<Bio>, x: set<Id>)
    requires Agree(s, x)
    ensures var t := s.(submitted := u);
      Agree(t, x) && forall j :: Queued(t, j) == Queued(s, j) && OnSort(t, j) == OnSort(s, j)
  {
    assert s.hashGen != 0 && (s.lastMerge.Some? ==> s.lastMerge.value in s.rqs);
    assert s.lastMerge.Some? ==> Queued(s, s.lastMerge.value) || s.lastMerge.value in x;
    hide Agree, Queued, OnSort;
    IndexesAgree(s, s.(submitted := u), x);
  }

  /** attempt_merge once it may go ahead: id takes over the chain of nx. */
  ghost function Join(s: Sched, id: Id, nx: Id): Sched
    requires Agree(s, {id, nx}) && s.rqs[id].sector == s.rqs[id].rbKey
  {
    var r := Absorb(s.rqs[id], s.rqs[nx]);
    Reshape(s, id, r, {id, nx});
    MergedRequests(s.(rqs := s.rqs[id := r]), id, nx)
  }

  lemma JoinAgree(s: Sched, id: Id, nx: Id)
    requires Agree(s, {id, nx}) && id != nx && s.rqs[id].dir == s.rqs[nx].dir
    requires Queued(s, id) && OnSort(s, id) && s.rqs[id].sector == s.rqs[id].rbKey
    ensures var t := Join(s, id, nx); var r := Absorb(s.rqs[id], s.rqs[nx]);
      && Agree(t, {}) && Queued(t, id) && t.hashGen == s.hashGen
      && t.rqs.Keys == s.rqs.Keys - {nx}
      && t.rqs[id] == r.(gen := s.hashGen, slot := HashFn(End(r)), expires := t.rqs[id].expires)
      && (forall j :: j in t.rqs && j != id ==> t.rqs[j] == s.rqs[j])
  {
    hide SideOk, PlacesOk, HashOk, MergedRequests;
    var r := Absorb(s.rqs[id], s.rqs[nx]);
    Reshape(s, id, r, {id, nx});
    var s1 := s.(rqs := s.rqs[id := r]);
    TouchedMembers(s, s1, id);
    MergedRequestsAgree(s1, id, nx);
  }

  /** elv_latter_request: the next request in sector order. */
  ghost function Latter(s: Sched, id: Id): Option<Id>
    requires id in s.rqs
  {
    var m := s.sort.At(s.rqs[id].dir);
    ValueAt(m, Succ(m, s.rqs[id].rbKey))
  }

  /** elv_former_request: the previous request in sector order. */
  ghost function Former(s: Sched, id: Id): Option<Id>
    requires id in s.rqs
  {
    var m := s.sort.At(s.rqs[id].dir);
    ValueAt(m, Pred(m, s.rqs[id].rbKey))
  }

  /** A neighbour in the tree is another queued request of the same direction. */
  lemma NeighbourQueued(s: Sched, id: Id, n: Id)
    requires Agree(s, {id}) && OnSort(s, id) && (Latter(s, id) == Some(n) || Former(s, id) == Some(n))
    ensures n != id && Queued(s, n) && OnSort(s, n) && s.rqs[n].dir == s.rqs[id].dir
    ensures s.rqs[n].sector == s.rqs[n].rbKey
    ensures Agree(s, {id, n})
  {
    var d := s.rqs[id].dir;
    assert SideOk(s, d);
    assert PlacedOk(s, n);
    Open(s, n, {id});
    assert {id} + {n} == {id, n};
  }

  /** The ELEVATOR_BACK_MERGE branch of __make_request once back_merge_fn has agreed. */
  ghost function BackMerged(s: Sched, id: Id, b: Bio, joinFits: bool): Sched
    requires Agree(s, {}) && Queued(s, id)
  {
    GrownAgree(s, id, GrowBack(s.rqs[id], b), b);
    var s1 := Grown(s, id, GrowBack(s.rqs[id], b), b);
    var n := Latter(s1, id);
    if n.Some? && n.value in s1.rqs && CanJoin(s1.rqs[id], s1.rqs[n.value], s.cfg.maxSectors, joinFits) then
      NeighbourQueued(s1, id, n.value);
      BackKeyKept(s, id);
      Join(s1, id, n.value)
    else MergedRequest(s1, id)
  }

  lemma BackKeyKept(s: Sched, id: Id)
    requires Agree(s, {}) && Queued(s, id)
    ensures s.rqs[id].sector == s.rqs[id].rbKey
  {
    assert PlacedOk(s, id);
  }

  /** The ELEVATOR_FRONT_MERGE branch of __make_request once front_merge_fn has agreed. */
  ghost function FrontMerged(s: Sched, id: Id, b: Bio, joinFits: bool): Sched
    requires Agree(s, {}) && Queued(s, id)
  {
    GrownAgree(s, id, GrowFront(s.rqs[id], b), b);
    var s1 := Grown(s, id, GrowFront(s.rqs[id], b), b);
    var p := Former(s1, id);
    if p.Some? && p.value in s1.rqs && CanJoin(s1.rqs[p.value], s1.rqs[id], s.cfg.maxSectors, joinFits) then
      NeighbourQueued(s1, id, p.value);
      assert {id, p.value} == {p.value, id};
      Join(s1, p.value, id)
    else MergedRequest(s1, id)
  }

  lemma BackMergedAgree(s: Sched, id: Id, b: Bio, joinFits: bool)
    requires Agree(s, {}) && Queued(s, id)
    ensures Agree(BackMerged(s, id, b, joinFits), {})
  {
    hide SideOk, PlacesOk, HashOk, ListsOk, Join, MergedRequest, Grown;
    var r := GrowBack(s.rqs[id], b);
    GrownAgree(s, id, r, b);
    var s1 := Grown(s, id, r, b);
    BackKeyKept(s, id);
    GrownRq(s, id, r, b);
    var n := Latter(s1, id);
    if n.Some? && n.value in s1.rqs && CanJoin(s1.rqs[id], s1.rqs[n.value], s.cfg.maxSectors, joinFits) {
      NeighbourQueued(s1, id, n.value);
      JoinAgree(s1, id, n.value);
    } else {
      MergedRequestAgree(s1, id);
    }
  }

  lemma GrownRq(s: Sched, id: Id, r: Rq, b: Bio)
    requires id in s.rqs
    ensures var t := Grown(s, id, r, b);
      && t.rqs == s.rqs[id := r] && t.cfg == s.cfg && t.sort == s.sort && t.hashGen == s.hashGen
      && t.submitted == s.submitted + {b} && t.taken == s.taken && t.now == s.now
      && t.log == s.log && t.dispatch == s.dispatch && t.ucsb == s.ucsb
  {
  }

  lemma FrontMergedAgree(s: Sched, id: Id, b: Bio, joinFits: bool)
    requires Agree(s, {}) && Queued(s, id)
    ensures Agree(FrontMerged(s, id, b, joinFits), {})
  {
    hide SideOk, PlacesOk, HashOk, ListsOk, Join, MergedRequest, Grown;
    var r := GrowFront(s.rqs[id], b);
    GrownAgree(s, id, r, b);
    var s1 := Grown(s, id, r, b);
    GrownRq(s, id, r, b);
    var p := Former(s1, id);
    if p.Some? && p.value in s1.rqs && CanJoin(s1.rqs[p.value], s1.rqs[id], s.cfg.maxSectors, joinFits) {
      NeighbourQueued(s1, id, p.value);
      assert {id, p.value} == {p.value, id};
      JoinAgree(s1, p.value, id);
    } else {
      MergedRequestAgree(s1, id);
    }
  }

  /** __make_request, once a free request is at hand. */
  ghost function MakeRequest(s: Sched, b: Bio, id: Id, segsFit: bool, joinFits: bool): Sched
    requires Inv(s) && OnDevice(s) && BioOk(b, s.cfg.maxSectors) && id !in s.rqs
  {
    if Empty(s) || b.barrier || IoType(b) != BestEffort then NewRequest(s, b, id)
    else
      MergeSound(s, b);
      var a := Merge(s, b);
      match a.kind
      case NoMerge => NewRequest(a.state, b, id)
      case BackMerge =>
        var q := a.target.value;
        if a.state.rqs[q].nr + b.nr <= s.cfg.maxSectors && segsFit then BackMerged(a.state, q, b, joinFits)
        else
          RefuseMergeAgree(a.state, q);
          NewRequest(RefuseMerge(a.state, q), b, id)
      case FrontMerge =>
        var q := a.target.value;
        if a.state.rqs[q].nr + b.nr <= s.cfg.maxSectors && segsFit then FrontMerged(a.state, q, b, joinFits)
        else
          RefuseMergeAgree(a.state, q);
          NewRequest(RefuseMerge(a.state, q), b, id)
  }

  lemma MakeRequestAgree(s: Sched, b: Bio, id: Id, segsFit: bool, joinFits: bool)
    requires Inv(s) && OnDevice(s) && BioOk(b, s.cfg.maxSectors) && id !in s.rqs
    ensures Agree(MakeRequest(s, b, id, segsFit, joinFits), {})
  {
    hide SideOk, PlacesOk, HashOk, ListsOk, Merge, NewRequest, BackMerged, FrontMerged, FreshHash;
    if Empty(s) || b.barrier || IoType(b) != BestEffort {
      NewRequestInv(s, b, id);
    } else {
      MergeSound(s, b);
      var a := Merge(s, b);
      if a.kind.NoMerge? {
        NewRequestInv(a.state, b, id);
      } else {
        var q := a.target.value;
        RefuseMergeAgree(a.state, q);
        NewRequestInv(RefuseMerge(a.state, q), b, id);
        BackMergedAgree(a.state, q, b, joinFits);
        FrontMergedAgree(a.state, q, b, joinFits);
      }
    }
  }

  // --------------------------------------------------------------- the driver's side

  /** deadline_next_request; the request returned is the head of `dispatch`, if any. */
  ghost function NextRequest(s: Sched): Sched
    requires Agree(s, {})
  {
    if s.dispatch != [] then s
    else if UcsbReady(s, UCSB_DEF_PRIORITY) then UcsbDispatch(s)
    else if SelectRequest(s, {}).choice.Some? then DispatchRequests(s, {})
    else
      var s1 := WithCounters(s, SelectRequest(s, {}));
      if UcsbReady(s1, 0) then UcsbDispatch(s1) else s1
  }

  /** elv_next_request: the request handed out is started and no longer a merge candidate. */
  ghost function Fetch(s: Sched): Sched
    requires Agree(s, {})
  {
    var t := NextRequest(s);
    if t.dispatch == [] || t.dispatch[0] !in t.rqs then t
    else
      var id := t.dispatch[0];
      t.(rqs := t.rqs[id := t.rqs[id].(started := true)],
         lastMerge := if t.lastMerge == Some(id) then None else t.lastMerge)
  }

  lemma NextRequestAgree(s: Sched)
    requires Agree(s, {})
    ensures Agree(NextRequest(s), {})
  {
    hide SideOk, PlacesOk, HashOk, SelectRequest, DispatchRequests, UcsbDispatch;
    var p := SelectRequest(s, {});
    if s.ucsb != [] { UcsbDispatchAgree(s); }
    if p.choice.Some? {
      DispatchAgree(s, {});
    } else {
      CountersAgree(s, p, {});
      if s.ucsb != [] { UcsbDispatchAgree(WithCounters(s, p)); }
    }
  }

  /** Starting a dispatched request changes nothing that an index looks at. */
  ghost predicate Started(s: Sched, t: Sched, id: Id) {
    && id in s.rqs && t == s.(rqs := s.rqs[id := s.rqs[id].(started := true)])
    && !Queued(s, id) && !OnSort(s, id)
  }

  lemma StartedMembers(s: Sched, t: Sched, id: Id)
    requires Started(s, t, id)
    ensures forall j :: Queued(t, j) == Queued(s, j) && OnSort(t, j) == OnSort(s, j)
  {
  }

  lemma StartedSides(s: Sched, t: Sched, id: Id)
    requires Started(s, t, id) && SideOk(s, Read) && SideOk(s, Write)
    ensures SideOk(t, Read) && SideOk(t, Write)
  {
    hide NoDup, Queued;
    StartedMembers(s, t, id);
  }

  lemma StartedPlaces(s: Sched, t: Sched, id: Id)
    requires Started(s, t, id) && PlacesOk(s, {}) && HashOk(s)
    ensures PlacesOk(t, {}) && HashOk(t)
  {
    hide NoDup, HashFn;
    StartedMembers(s, t, id);
    assert PlacedOk(s, id);
    hide Queued, OnSort;
    forall j | j in t.rqs ensures PlacedOk(t, j) {
      assert PlacedOk(s, j);
    }
  }

  lemma StartedLists(s: Sched, t: Sched, id: Id)
    requires Started(s, t, id) && ListsOk(s, {})
    ensures ListsOk(t, {})
  {
    hide NoDup;
    StartedMembers(s, t, id);
    hide Queued, OnSort;
  }

  lemma StartedAgree(s: Sched, id: Id)
    requires Agree(s, {}) && id in s.dispatch
    ensures id in s.rqs
    ensures var t := s.(rqs := s.rqs[id := s.rqs[id].(started := true)]);
      && Agree(t, {}) && forall j :: Queued(t, j) == Queued(s, j) && OnSort(t, j) == OnSort(s, j)
  {
    assert PlacedOk(s, id);
    var t := s.(rqs := s.rqs[id := s.rqs[id].(started := true)]);
    assert Started(s, t, id);
    hide SideOk, PlacesOk, HashOk, ListsOk, Started, Queued, OnSort;
    StartedMembers(s, t, id);
    StartedSides(s, t, id);
    StartedPlaces(s, t, id);
    StartedLists(s, t, id);
  }

  lemma FetchAgree(s: Sched)
    requires Agree(s, {})
    ensures Agree(Fetch(s), {})
  {
    hide SideOk, PlacesOk, HashOk, NextRequest;
    NextRequestAgree(s);
    var t := NextRequest(s);
    if t.dispatch != [] {
      var id := t.dispatch[0];
      var m := if t.lastMerge == Some(id) then None else t.lastMerge;
      LastMergeAgree(t, m, {});
      StartedAgree(t.(lastMerge := m), id);
    }
  }

  /** deadline_remove_request when the driver dequeues a request it was given. */
  ghost function Take(s: Sched, id: Id): Sched
    requires Agree(s, {}) && id in s.dispatch
  {
    var t := Remove(s, id);
    t.(rqs := t.rqs - {id}, taken := s.taken + set b | b in s.rqs[id].bios)
  }

  lemma TakeEffect(s: Sched, id: Id)
    requires Agree(s, {}) && id in s.dispatch
    ensures Take(s, id) == s.(rqs := s.rqs - {id}, dispatch := Without(s.dispatch, id),
                              taken := s.taken + set b | b in s.rqs[id].bios)
  {
    assert PlacedOk(s, id);
    var r := s.rqs[id];
    assert s.lastMerge != Some(id) && s.next.At(r.dir) != Some(id);
    assert s.rqs[id := r.(qosFlag := false)] - {id} == s.rqs - {id};
    assert id !in s.fifo.At(r.dir);
    assert s.fifo.Put(r.dir, s.fifo.At(r.dir)) == s.fifo;
  }

  lemma TakeAgree(s: Sched, id: Id)
    requires Agree(s, {}) && id in s.dispatch
    ensures Agree(Take(s, id), {})
  {
    TakeEffect(s, id);
    assert PlacedOk(s, id);
    var t := s.(rqs := s.rqs - {id}, dispatch := Without(s.dispatch, id),
                taken := s.taken + set b | b in s.rqs[id].bios);
    hide HashOk, ListsOk, Take, SideOk;
    TakeMembers(s, t, id);
    forall j | j in t.rqs ensures PlacedOk(t, j) {
      assert PlacedOk(s, j);
    }
    TakeLists(s, t, id);
  }

  lemma TakeLists(s: Sched, t: Sched, id: Id)
    requires Agree(s, {}) && id in s.dispatch && s.rqs[id].gen == 0 && !OnSort(s, id)
    requires t == s.(rqs := s.rqs - {id}, dispatch := Without(s.dispatch, id), taken := t.taken)
    ensures HashOk(t) && ListsOk(t, {})
  {
    hide PlacesOk, NoDup, Without, HashFn, QosReady;
    TakeMembers(s, t, id);
  }

  lemma TakeMembers(s: Sched, t: Sched, id: Id)
    requires SideOk(s, Read) && SideOk(s, Write) && id in s.rqs && !Queued(s, id) && !OnSort(s, id)
    requires t == s.(rqs := s.rqs - {id}, dispatch := t.dispatch, taken := t.taken)
    ensures SideOk(t, Read) && SideOk(t, Write)
    ensures forall j :: j != id ==> Queued(t, j) == Queued(s, j) && OnSort(t, j) == OnSort(s, j)
  {
    forall d: Dir | SideOk(s, d) ensures SideOk(t, d) {
      assert forall k :: k in s.sort.At(d) && s.sort.At(d)[k] == id ==> OnSort(s, id);
      assert forall j :: j in s.fifo.At(d) ==> j != id;
    }
  }

  // ------------------------------------------------------------------ keys and frames

  lemma RemoveKeys(s: Sched, id: Id)
    requires id in s.rqs && HashOk(s)
    ensures Remove(s, id).rqs.Keys == s.rqs.Keys
  {
  }

  lemma EvictedKeys(s: Sched, d: Dir, k: nat)
    requires HashOk(s) && (k in s.sort.At(d) ==> s.sort.At(d)[k] in s.rqs)
    ensures Evicted(s, d, k).rqs.Keys == s.rqs.Keys
  {
    hide Remove;
    if k in s.sort.At(d) {
      var a := s.sort.At(d)[k];
      var r, m := s.rqs[a], s.sort.At(s.rqs[a].dir);
      RemoveKeys(s.(next := PerDir(None, None).Put(r.dir, ValueAt(m, Succ(m, r.rbKey))),
                    lastSector := r.sector + r.nr), a);
    }
  }

  lemma AddRbKeys(s: Sched, id: Id)
    requires id in s.rqs && HashOk(s) && SideOk(s, s.rqs[id].dir)
    ensures AddRb(s, id).rqs.Keys == s.rqs.Keys
  {
    hide Evicted;
    var r := s.rqs[id];
    EvictedKeys(s.(rqs := s.rqs[id := r.(rbKey := r.sector)]), r.dir, r.sector);
  }

  lemma MergedRequestKeys(s: Sched, id: Id)
    requires Agree(s, {id})
    ensures MergedRequest(s, id).rqs.Keys == s.rqs.Keys
  {
    hide PlacesOk, ListsOk, AddRb;
    RehashAgree(s, id, {id});
    var t := Rehash(s, id);
    assert t.rqs[id].dir.Read? || t.rqs[id].dir.Write?;
    if t.rqs[id].sector != t.rqs[id].rbKey {
      OffTreeKeepsSide(t, id);
      AddRbKeys(DelRb(t, id), id);
    }
  }

  lemma InsertBestEffortKeys(s: Sched, id: Id)
    requires Settled(s, {id}) && s.rqs[id].gen == 0
    ensures InsertBestEffort(s, id).rqs.Keys == s.rqs.Keys
  {
    hide PlacesOk, AddRb;
    HashNewSettled(s, id);
    var t := HashNew(s, id);
    assert t.rqs[id].dir.Read? || t.rqs[id].dir.Write?;
    AddRbKeys(t, id);
  }

  /** What a new request changes in the request table: its own entry, filled in for the bio. */
  lemma NewRequestFrame(s: Sched, b: Bio, id: Id)
    requires Agree(s, {}) && id !in s.rqs
    ensures var t := NewRequest(s, b, id); var u := Admitted(s, b, id);
      && t.rqs.Keys == s.rqs.Keys + {id}
      && (forall j :: j in t.rqs ==> SameIo(t.rqs[j], u.rqs[j]))
      && (forall j :: j in t.rqs && j != id && Queued(t, j) ==> Queued(s, j))
      && (Queued(t, id) ==> !b.barrier && IoType(b) == BestEffort)
      && t.cfg == s.cfg && t.now == s.now && t.submitted == u.submitted && t.taken == s.taken
      && s.log <= t.log && s.dispatch <= t.dispatch
      && (FreshHash(s) ==> FreshHash(t)) && (Ordered(s) ==> Ordered(t))
      && (!b.barrier ==> Calm(s, t)) && (b.barrier || IoType(b) == BestEffort ==> t.ucsb == s.ucsb)
  {
    hide SideOk, PlacesOk, ListsOk, HashOk, InsertBestEffort, InsertBarrier, InsertQos, Ordered;
    AdmittedSettled(s, b, id);
    AdmittedFramed(s, b, id);
    var u := Admitted(s, b, id);
    if b.barrier {
      BarrierFrame(u, id);
    } else if IoType(b) != BestEffort {
      QosFrame(u, id);
    } else {
      InsertBestEffortFramed(u, id);
      InsertBestEffortKeys(u, id);
      if FreshHash(s) { KeptFresh(u, InsertBestEffort(u, id), {id}); }
      CalmTrans(s, u, InsertBestEffort(u, id));
    }
  }

  lemma AdmittedFramed(s: Sched, b: Bio, id: Id)
    requires Agree(s, {}) && id !in s.rqs
    ensures var u := Admitted(s, b, id);
      Calm(s, u) && (Ordered(s) ==> Ordered(u)) && (FreshHash(s) ==> FreshHash(u))
  {
    hide PlacesOk, HashOk, ListsOk, Ordered;
    assert SideOk(s, Read) && SideOk(s, Write);
    if Ordered(s) { OrdersSame(s, Admitted(s, b, id)); }
  }

  lemma QosFrame(s: Sched, id: Id)
    requires Settled(s, {id})
    ensures var t := InsertQos(s, id);
      && t.rqs == s.rqs[id := s.rqs[id].(qosFlag := true)]
      && (forall j :: Queued(t, j) == Queued(s, j))
      && t == s.(rqs := t.rqs, ucsb := t.ucsb, ucsbCnt := t.ucsbCnt)
      && Calm(s, t) && (FreshHash(s) ==> FreshHash(t)) && (Ordered(s) ==> Ordered(t))
  {
    hide PlacesOk, HashOk, Ordered;
    assert SideOk(s, Read) && SideOk(s, Write);
    if Ordered(s) { OrdersSame(s, InsertQos(s, id)); }
  }

  lemma BarrierFrame(s: Sched, id: Id)
    requires Settled(s, {id}) && s.rqs[id].gen == 0
    ensures var t := InsertBarrier(s, id);
      && t.rqs.Keys == s.rqs.Keys
      && (forall j :: j in t.rqs ==> SameIo(t.rqs[j], s.rqs[j]) && !Queued(t, j))
      && t.cfg == s.cfg && t.now == s.now && t.submitted == s.submitted && t.taken == s.taken && t.ucsb == s.ucsb
      && s.log <= t.log && s.dispatch <= t.dispatch
      && FreshHash(t) && (Ordered(s) ==> Ordered(t))
  {
    hide SideOk, PlacesOk, HashOk, ListsOk, Ordered;
    InsertBarrierAgree(s, id);
    var s1 := s.(hashGen := NextGen(s.hashGen), lastMerge := None);
    NewGenSettled(s, {id});
    DrainAgree(s1, {id});
    DrainOrdered(s1, {id}, {});
    NewGenOrdered(s, s1);
    var s2 := Drain(s1, {id});
    var t := InsertBarrier(s, id);
    AllGone(t);
    var e := t.log[|t.log| - 1];
    if Ordered(s) { PlainEntry(s2, t, e); }
  }

  lemma NewGenOrdered(s: Sched, t: Sched)
    requires t == s.(hashGen := t.hashGen, lastMerge := t.lastMerge)
    ensures Ordered(s) ==> Ordered(t)
  {
    hide Ordered;
    if Ordered(s) { OrdersSame(s, t); }
  }

  /** With nothing queued nothing is hashed. */
  lemma AllGone(s: Sched)
    requires Agree(s, {}) && s.fifo.rd == [] && s.fifo.wr == []
    ensures FreshHash(s) && forall j :: !Queued(s, j)
  {
    forall j | j in s.rqs ensures s.rqs[j].gen == 0 {
      assert PlacedOk(s, j);
    }
  }

  /**
   The bio b has been merged: request `id` now carries the I/O described by r, the requests
   in `gone` have disappeared into it, and every other request is as before.
   */
  ghost predicate MergedInto(s: Sched, t: Sched, b: Bio, id: Id, r: Rq, gone: set<Id>) {
    && t.rqs.Keys == s.rqs.Keys - gone && id in t.rqs && SameIo(t.rqs[id], r)
    && (forall j :: j in t.rqs && j != id ==> SameIo(t.rqs[j], s.rqs[j]))
    && (forall j :: j in t.rqs && Queued(t, j) ==> Queued(s, j))
    && t.cfg == s.cfg && t.now == s.now && t.submitted == s.submitted + {b} && t.taken == s.taken
    && t.ucsb == s.ucsb && s.log <= t.log && s.dispatch <= t.dispatch
    && (FreshHash(s) ==> FreshHash(t)) && (Ordered(s) ==> Ordered(t)) && Calm(s, t)
  }

  lemma GrownFrame(s: Sched, id: Id, r: Rq, b: Bio)
    requires id in s.rqs && var o := s.rqs[id]; r == o.(bios := r.bios, sector := r.sector, nr := r.nr)
    ensures var t := Grown(s, id, r, b);
      && (FreshHash(s) ==> FreshHash(t)) && (Ordered(s) ==> Ordered(t)) && Calm(s, t)
      && (forall j :: Queued(t, j) == Queued(s, j))
  {
    hide Ordered;
    if Ordered(s) { OrdersSame(s, Grown(s, id, r, b)); }
  }

  lemma JoinFrame(s: Sched, id: Id, nx: Id)
    requires Agree(s, {id, nx}) && id != nx && s.rqs[id].dir == s.rqs[nx].dir
    requires s.rqs[id].sector == s.rqs[id].rbKey
    ensures var t := Join(s, id, nx);
      && (FreshHash(s) ==> FreshHash(t)) && (Ordered(s) ==> Ordered(t)) && Calm(s, t)
      && (forall j :: j in t.rqs && Queued(t, j) ==> Queued(s, j))
      && t.cfg == s.cfg && t.now == s.now && t.submitted == s.submitted && t.taken == s.taken
      && s.log <= t.log && s.dispatch <= t.dispatch && t.ucsb == s.ucsb
  {
    hide SideOk, PlacesOk, HashOk, MergedRequests, Ordered;
    var r := Absorb(s.rqs[id], s.rqs[nx]);
    Reshape(s, id, r, {id, nx});
    var s1 := s.(rqs := s.rqs[id := r]);
    ReshapedOrdered(s, s1, id);
    TouchedMembers(s, s1, id);
    MergedRequestsFramed(s1, id, nx, {});
    var t := Join(s, id, nx);
    if FreshHash(s) { KeptFresh(s1, t, {}); }
    CalmTrans(s, s1, t);
  }

  lemma ReshapedOrdered(s: Sched, t: Sched, id: Id)
    requires id in s.rqs && id in t.rqs && t == s.(rqs := s.rqs[id := t.rqs[id]])
    requires t.rqs[id].rbKey == s.rqs[id].rbKey && t.rqs[id].expires == s.rqs[id].expires
    requires t.rqs[id].gen == s.rqs[id].gen
    ensures Calm(s, t) && (Ordered(s) ==> Ordered(t)) && (FreshHash(s) ==> FreshHash(t))
  {
    hide Ordered;
    if Ordered(s) { OrdersSame(s, t); }
  }

  /** The latter request that a back merge goes on to absorb, if any. */
  ghost function BackJoin(s: Sched, id: Id, b: Bio, joinFits: bool): Option<Id>
    requires id in s.rqs
  {
    var n := Latter(s, id);
    if n.Some? && n.value != id && n.value in s.rqs
       && CanJoin(GrowBack(s.rqs[id], b), s.rqs[n.value], s.cfg.maxSectors, joinFits) then n else None
  }

  /** The former request that a front merge goes on to disappear into, if any. */
  ghost function FrontJoin(s: Sched, id: Id, b: Bio, joinFits: bool): Option<Id>
    requires id in s.rqs
  {
    var p := Former(s, id);
    if p.Some? && p.value != id && p.value in s.rqs
       && CanJoin(s.rqs[p.value], GrowFront(s.rqs[id], b), s.cfg.maxSectors, joinFits) then p else None
  }

  lemma NeighboursKept(s: Sched, id: Id, r: Rq, b: Bio)
    requires Agree(s, {}) && Queued(s, id) && r == s.rqs[id].(bios := r.bios, sector := r.sector, nr := r.nr)
    ensures var t := Grown(s, id, r, b);
      && Latter(t, id) == Latter(s, id) && Former(t, id) == Former(s, id)
      && Latter(s, id) != Some(id) && Former(s, id) != Some(id)
  {
    hide HashOk;
    assert PlacedOk(s, id);
    assert SideOk(s, s.rqs[id].dir);
  }

  lemma BackMergedFrame(s: Sched, id: Id, b: Bio, joinFits: bool)
    requires Agree(s, {}) && Queued(s, id)
    ensures var t := BackMerged(s, id, b, joinFits); var n := BackJoin(s, id, b, joinFits);
      var r := GrowBack(s.rqs[id], b);
      && (n.Some? ==> n.value in s.rqs && n.value != id)
      && MergedInto(s, t, b, id, if n.Some? then Absorb(r, s.rqs[n.value]) else r,
                    if n.Some? then {n.value} else {})
  {
    hide SideOk, PlacesOk, HashOk, Join, MergedRequest, Grown, Ordered, FreshHash, Latter, Former, CanJoin, Absorb,
      OnSort, Agree;
    var r := GrowBack(s.rqs[id], b);
    GrownAgree(s, id, r, b);
    GrownFrame(s, id, r, b);
    GrownRq(s, id, r, b);
    NeighboursKept(s, id, r, b);
    BackKeyKept(s, id);
    var s1 := Grown(s, id, r, b);
    var t, n := BackMerged(s, id, b, joinFits), Latter(s1, id);
    if n.Some? && n.value in s1.rqs && CanJoin(s1.rqs[id], s1.rqs[n.value], s.cfg.maxSectors, joinFits) {
      NeighbourQueued(s1, id, n.value);
      JoinAgree(s1, id, n.value);
      JoinFrame(s1, id, n.value);
    } else {
      MergedRequestAgree(s1, id);
      MergedRequestKeys(s1, id);
      MergedRequestFrame(s1, id);
    }
    CalmTrans(s, s1, t);
  }

  lemma MergedRequestFrame(s: Sched, id: Id)
    requires Agree(s, {id})
    ensures var t := MergedRequest(s, id);
      Kept(s, t, {}) && Calm(s, t) && (Ordered(s) ==> Ordered(t)) && (FreshHash(s) ==> FreshHash(t))
  {
    hide Ordered, MergedRequest;
    MergedRequestFramed(s, id, {});
    if FreshHash(s) { KeptFresh(s, MergedRequest(s, id), {}); }
  }

  lemma FrontMergedFrame(s: Sched, id: Id, b: Bio, joinFits: bool)
    requires Agree(s, {}) && Queued(s, id)
    ensures var t := FrontMerged(s, id, b, joinFits); var p := FrontJoin(s, id, b, joinFits);
      var r := GrowFront(s.rqs[id], b);
      && (p.Some? ==> p.value in s.rqs && p.value != id)
      && MergedInto(s, t, b, if p.Some? then p.value else id, if p.Some? then Absorb(s.rqs[p.value], r) else r,
                    if p.Some? then {id} else {})
  {
    hide SideOk, PlacesOk, HashOk, Join, MergedRequest, Grown, Ordered, FreshHash, Latter, Former, CanJoin, Absorb,
      OnSort, Agree;
    var r := GrowFront(s.rqs[id], b);
    GrownAgree(s, id, r, b);
    GrownFrame(s, id, r, b);
    GrownRq(s, id, r, b);
    NeighboursKept(s, id, r, b);
    var s1 := Grown(s, id, r, b);
    var t, p := FrontMerged(s, id, b, joinFits), Former(s1, id);
    if p.Some? && p.value in s1.rqs && CanJoin(s1.rqs[p.value], s1.rqs[id], s.cfg.maxSectors, joinFits) {
      NeighbourQueued(s1, id, p.value);
      assert {id, p.value} == {p.value, id};
      JoinAgree(s1, p.value, id);
      JoinFrame(s1, p.value, id);
    } else {
      MergedRequestAgree(s1, id);
      MergedRequestKeys(s1, id);
      MergedRequestFrame(s1, id);
    }
    CalmTrans(s, s1, t);
  }
}
