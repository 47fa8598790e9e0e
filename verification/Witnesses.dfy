/**
 Runs that show where the comments and the bounds stop: each lemma below builds a run of
 events from a fresh scheduler.
 */
module Witnesses {
  import opened Types
  import opened Elevator
  import opened SortTree
  import opened Scheduler
  import opened Merging
  import opened Frames
  import opened BlockQueue
  import opened Conservation
  import opened Runs
  import opened Starvation
  import opened Orders

  /** The events lead from a fresh scheduler to s. */
  ghost predicate RunsTo(cfg: Tunables, es: seq<Event>, s: Sched) {
    FreshGood(cfg, 0);
    Legal(Fresh(cfg, 0), es) && Exec(Fresh(cfg, 0), es) == s
  }

  lemma {:induction false} ExecSnoc(s: Sched, es: seq<Event>, e: Event)
    requires Good(s) && Legal(s, es) && Good(Exec(s, es)) && Enabled(Exec(s, es), e)
    ensures Legal(s, es + [e]) && Exec(s, es + [e]) == Step(Exec(s, es), e)
    decreases |es|
  {
    hide Good, Step, Enabled;
    if es == [] {
      StepGood(s, e);
      assert [] + [e] == [e] && [e][1..] == [];
    } else {
      StepGood(s, es[0]);
      assert (es + [e])[1..] == es[1..] + [e];
      ExecSnoc(Step(s, es[0]), es[1..], e);
    }
  }

  lemma RunGood(cfg: Tunables, es: seq<Event>, s: Sched)
    requires RunsTo(cfg, es, s)
    ensures Good(s) && s.cfg == cfg
  {
    hide Good;
    FreshGood(cfg, 0);
    ExecGood(Fresh(cfg, 0), es);
  }

  lemma RunStep(cfg: Tunables, es: seq<Event>, s: Sched, e: Event)
    requires RunsTo(cfg, es, s) && Good(s) && Enabled(s, e)
    ensures RunsTo(cfg, es + [e], Step(s, e)) && Good(Step(s, e)) && Step(s, e).cfg == cfg
  {
    hide Good, Step, Enabled;
    FreshGood(cfg, 0);
    ExecSnoc(Fresh(cfg, 0), es, e);
    RunGood(cfg, es + [e], Step(s, e));
  }

  // ------------------------------------------------- a bio that touches nobody

  /** No queued request in the direction of the bio starts with it, or touches it on its disk. */
  ghost predicate Apart(s: Sched, b: Bio) {
    forall j :: Queued(s, j) && s.rqs[j].dir == b.dir ==>
      && s.rqs[j].sector != b.sector
      && (s.rqs[j].disk == b.disk ==> End(s.rqs[j]) != b.sector && s.rqs[j].sector != b.sector + b.nr)
  }

  /** An ordinary one-sector bio at the given sector. */
  function Plain1(tag: nat, sector: nat, dir: Dir): Bio {
    Bio(tag, sector, 1, dir, 0, false, None)
  }

  /** What is left of s once the bio has been given a request of its own. */
  ghost predicate Joined(s: Sched, t: Sched, b: Bio, id: Id) {
    && t.cfg == s.cfg && t.now == s.now && t.log == s.log && t.dispatch == s.dispatch && t.ucsb == s.ucsb
    && t.next == s.next && t.batching == s.batching && t.starved == s.starved && t.lastSector == s.lastSector
    && t.fifo == s.fifo.Put(b.dir, s.fifo.At(b.dir) + [id])
    && t.sort == s.sort.Put(b.dir, s.sort.At(b.dir)[b.sector := id])
    && t.linked == s.linked + {id} && t.submitted == s.submitted + {b}
    && t.rqs.Keys == s.rqs.Keys + {id} && id !in s.rqs
    && (forall j :: j in s.rqs ==> t.rqs[j] == s.rqs[j].(gen := t.rqs[j].gen))
    && t.hashGen == s.hashGen
    && t.rqs[id] == NewRq(b).(rbKey := b.sector, gen := t.hashGen, slot := HashFn(b.sector + b.nr),
                              expires := s.now + s.cfg.fifoExpire.At(b.dir))
    && |t.hash| == HASH_ENTRIES && t.hash[HashFn(b.sector + b.nr)] != []
    && t.hash[HashFn(b.sector + b.nr)][0] == id
  }

  /** The state after a best-effort insertion under a free key, in one piece. */
  function Inserted(s: Sched, b: Bio, id: Id): Sched
    requires |s.hash| == HASH_ENTRIES
  {
    var h := HashFn(b.sector + b.nr);
    var r := NewRq(b).(rbKey := b.sector, gen := s.hashGen, slot := h, expires := s.now + s.cfg.fifoExpire.At(b.dir));
    s.(rqs := s.rqs[id := r],
       sort := s.sort.Put(b.dir, s.sort.At(b.dir)[b.sector := id]),
       fifo := s.fifo.Put(b.dir, s.fifo.At(b.dir) + [id]),
       hash := s.hash[h := [id] + s.hash[h]],
       lastMerge := if s.lastMerge.None? then Some(id) else s.lastMerge,
       linked := s.linked + {id}, submitted := s.submitted + {b})
  }

  /** The hash, then the tree, then the FIFO. */
  lemma InsertedInSteps(s: Sched, b: Bio, id: Id)
    requires |s.hash| == HASH_ENTRIES && id !in s.rqs && !b.barrier
    ensures var u := Admitted(s, b, id);
      && u.rqs[id].gen == 0 && |u.hash| == HASH_ENTRIES
      && var v := HashNew(u, id);
      && id in v.rqs
      && var w := v.(rqs := v.rqs[id := v.rqs[id].(rbKey := b.sector)]);
      ToFifo(LinkRb(w, id, b.dir, b.sector), id) == Inserted(s, b, id)
  {
    var u := Admitted(s, b, id);
    var v := HashNew(u, id);
    var w := v.(rqs := v.rqs[id := v.rqs[id].(rbKey := b.sector)]);
    var t := ToFifo(LinkRb(w, id, b.dir, b.sector), id);
    assert t.rqs == Inserted(s, b, id).rqs;
  }

  lemma AddRbFree(s: Sched, id: Id)
    requires id in s.rqs && HashOk(s) && SideOk(s, s.rqs[id].dir)
    requires s.rqs[id].sector !in s.sort.At(s.rqs[id].dir)
    ensures AddRb(s, id) == LinkRb(s.(rqs := s.rqs[id := s.rqs[id].(rbKey := s.rqs[id].sector)]),
                                   id, s.rqs[id].dir, s.rqs[id].sector)
  {
    hide SideOk, HashOk, LinkRb;
  }

  lemma NewRequestApart(s: Sched, b: Bio, id: Id)
    requires Agree(s, {}) && id !in s.rqs && !b.barrier && IoType(b) == BestEffort
    requires b.sector !in s.sort.At(b.dir)
    ensures NewRequest(s, b, id) == Inserted(s, b, id)
  {
    hide SideOk, PlacesOk, ListsOk, ToFifo, LinkRb, AddRb, HashNew, Inserted;
    AdmittedSettled(s, b, id);
    var u := Admitted(s, b, id);
    HashNewSettled(u, id);
    HashNewKeeps(u, id);
    InsertedInSteps(s, b, id);
    var v := HashNew(u, id);
    assert v.rqs[id].dir == b.dir && v.rqs[id].sector == b.sector;
    AddRbFree(v, id);
  }

  lemma HashNewKeeps(s: Sched, id: Id)
    requires id in s.rqs && s.rqs[id].gen == 0 && |s.hash| == HASH_ENTRIES
    ensures HashNew(s, id).sort == s.sort
  {
  }

  lemma InsertedJoined(s: Sched, b: Bio, id: Id)
    requires |s.hash| == HASH_ENTRIES && id !in s.rqs
    ensures var t := Inserted(s, b, id);
      Joined(s, t, b, id) && forall j :: j in s.rqs ==> t.rqs[j] == s.rqs[j]
  {
    hide HashFn;
  }

  /** The lookups of deadline_merge find nothing for it, and only prune the hash. */
  lemma NoMergeApart(s: Sched, b: Bio)
    requires Agree(s, {}) && FreshHash(s) && OnDevice(s) && BioOk(b, s.cfg.maxSectors) && Apart(s, b)
    ensures var a := Merge(s, b); a.kind.NoMerge? && SameButHash(s, a.state.(lastMerge := s.lastMerge))
                                  && Agree(a.state, {})
  {
    MergeSound(s, b);
    var a := Merge(s, b);
    hide Agree, FreshHash, OnDevice, HashOk, Merge;
    var t := a.state.(lastMerge := s.lastMerge);
    SameButHashMembers(s, t);
    assert forall j :: Queued(a.state, j) == Queued(t, j) == Queued(s, j);
  }

  lemma NoMergeLast(s: Sched, b: Bio)
    requires HashOk(s) && Merge(s, b).kind.NoMerge?
    requires s.lastMerge.Some? && s.lastMerge.value in s.rqs && Mergeable(s.rqs[s.lastMerge.value])
    ensures Merge(s, b).state.lastMerge == s.lastMerge
  {
    hide HashOk, PruneHash, FindHash, FrontTarget, TryMerge;
    assert PruneHash(s, b.sector).lastMerge == s.lastMerge by { PruneShape(s, b.sector); }
  }

  lemma KeyFree(s: Sched, b: Bio)
    requires Agree(s, {}) && Apart(s, b)
    ensures b.sector !in s.sort.At(b.dir)
  {
    hide HashOk, ListsOk;
    if b.sector in s.sort.At(b.dir) {
      TreeMeansFifo(s, b.dir, b.sector, {});
      KeyIsSector(s, b.dir, b.sector);
    }
  }

  lemma KeyIsSector(s: Sched, d: Dir, k: nat)
    requires Agree(s, {}) && k in s.sort.At(d)
    ensures s.sort.At(d)[k] in s.rqs && s.rqs[s.sort.At(d)[k]].sector == k
  {
    hide HashOk, ListsOk;
    TreeMeansFifo(s, d, k, {});
    assert SideOk(s, d);
    assert PlacedOk(s, s.sort.At(d)[k]);
  }

  lemma JoinedVia(s: Sched, a: Sched, t: Sched, b: Bio, id: Id)
    requires SameButHash(s, a.(lastMerge := s.lastMerge)) && Joined(a, t, b, id)
    requires forall j :: j in a.rqs ==> t.rqs[j] == a.rqs[j]
    ensures Joined(s, t, b, id)
  {
    hide HashFn;
  }

  lemma SubmitApart(s: Sched, b: Bio, id: Id)
    requires Good(s) && Enabled(s, Submit(b, id, true, true)) && Apart(s, b)
    requires !b.barrier && IoType(b) == BestEffort
    ensures var t := Step(s, Submit(b, id, true, true));
      && Joined(s, t, b, id)
      && (s.lastMerge.Some? && s.lastMerge.value in s.rqs && Mergeable(s.rqs[s.lastMerge.value]) ==>
            t.lastMerge == s.lastMerge)
      && (Empty(s) && s.lastMerge.None? ==> t.lastMerge == Some(id))
  {
    hide SideOk, PlacesOk, HashOk, ListsOk, FreshHash, Ordered, ContentOk, Owned, Apart, Merge, NewRequest, OnDevice,
      Joined, SameButHash, Inserted;
    ContentOnDevice(s);
    HashSize(s);
    if Empty(s) {
      KeyFree(s, b);
      NewRequestApart(s, b, id);
      InsertedJoined(s, b, id);
      assert Inserted(s, b, id).lastMerge == (if s.lastMerge.None? then Some(id) else s.lastMerge) by { LastOf(s,
          b, id); }
    } else {
      NoMergeApart(s, b);
      var a := Merge(s, b).state;
      KeyFree(s, b);
      SameKeys(s, a);
      HashSize(a);
      NewRequestApart(a, b, id);
      InsertedJoined(a, b, id);
      JoinedVia(s, a, Inserted(a, b, id), b, id);
      LastOf(a, b, id);
      if s.lastMerge.Some? && s.lastMerge.value in s.rqs && Mergeable(s.rqs[s.lastMerge.value]) { NoMergeLast(s, b); }
    }
  }

  lemma HashSize(s: Sched)
    requires Agree(s, {})
    ensures |s.hash| == HASH_ENTRIES && HashOk(s)
  {
    hide SideOk, PlacesOk, ListsOk;
  }

  lemma LastOf(s: Sched, b: Bio, id: Id)
    requires |s.hash| == HASH_ENTRIES
    ensures Inserted(s, b, id).lastMerge == (if s.lastMerge.None? then Some(id) else s.lastMerge)
  {
  }

  lemma SameKeys(s: Sched, a: Sched)
    requires SameButHash(s, a.(lastMerge := s.lastMerge))
    ensures a.sort == s.sort && a.rqs.Keys == s.rqs.Keys
  {
  }

  // ------------------------------------------- a request chosen, handed out and taken

  /** u is s after request id has been chosen, fetched by the driver and dequeued. */
  ghost predicate Served(s: Sched, u: Sched, id: Id) {
    && u.cfg == s.cfg && u.now == s.now && u.dispatch == [] && u.ucsb == [] && u.submitted == s.submitted
    && id in s.rqs && u.rqs == s.rqs - {id} && u.linked == {}
    && var r := s.rqs[id];
       var m := s.sort.At(r.dir);
       && u.sort == s.sort.Put(r.dir, m - {r.rbKey})
       && u.fifo == s.fifo.Put(r.dir, Without(s.fifo.At(r.dir), id))
       && u.next == PerDir(None, None).Put(r.dir, ValueAt(m, Succ(m, r.rbKey)))
       && u.lastSector == r.sector + r.nr
  }

  lemma ChosenMoved(s: Sched)
    requires Agree(s, {}) && s.dispatch == [] && s.ucsb == [] && SelectRequest(s, {}).choice.Some?
    ensures var p := SelectRequest(s, {}); var id := p.choice.value.0;
      && Movable(s, id) && Movable(WithCounters(s, p), id)
      && NextRequest(s) == Moved(WithCounters(s, p), id, p.choice.value.1)
  {
    hide Agree, SelectRequest, Moved, Movable;
    DispatchAgree(s, {});
    MoveMovable(WithCounters(s, SelectRequest(s, {})), SelectRequest(s, {}).choice.value.0,
                SelectRequest(s, {}).choice.value.1, {}) by { CountersAgree(s, SelectRequest(s, {}), {}); }
  }

  /** t is s after request id has been chosen and handed to the driver. */
  ghost predicate HandedOut(s: Sched, t: Sched, id: Id, p: Pick) {
    && t.cfg == s.cfg && t.now == s.now && t.dispatch == [id] && t.ucsb == [] && t.submitted == s.submitted
    && id in s.rqs && t.rqs - {id} == s.rqs - {id} && id in t.rqs && t.linked == {}
    && t.batching == p.batching && t.starved == p.starved && p.choice.Some?
    && var r := s.rqs[id];
       var m := s.sort.At(r.dir);
       && t.sort == s.sort.Put(r.dir, m - {r.rbKey})
       && t.fifo == s.fifo.Put(r.dir, Without(s.fifo.At(r.dir), id))
       && t.next == PerDir(None, None).Put(r.dir, ValueAt(m, Succ(m, r.rbKey)))
       && t.lastSector == r.sector + r.nr
       && t.log == s.log + [Entry(id, r.dir, r.rbKey, p.choice.value.1, s.fifo.At(r.dir.Other()) != [], InLine(s))]
  }

  lemma FetchChosen(s: Sched)
    requires Agree(s, {}) && s.dispatch == [] && s.ucsb == [] && SelectRequest(s, {}).choice.Some?
    ensures var p := SelectRequest(s, {}); HandedOut(s, Fetch(s), p.choice.value.0, p)
  {
    hide Agree, SelectRequest, NextRequest, Movable, Moved, InLine;
    var p := SelectRequest(s, {});
    var id := p.choice.value.0;
    ChosenMoved(s);
    MovedOut(s, p, id);
    var t := NextRequest(s);
    StillOut(s, t, id, p, if t.lastMerge == Some(id) then None else t.lastMerge);
  }

  lemma MovedOut(s: Sched, p: Pick, id: Id)
    requires Movable(WithCounters(s, p), id) && s.dispatch == [] && s.ucsb == [] && p.choice.Some?
    ensures var t := Moved(WithCounters(s, p), id, p.choice.value.1);
      HandedOut(s, t, id, p)
  {
    hide Movable, InLine;
    var u := WithCounters(s, p);
    assert id in s.rqs by { MovableKnown(u, id); }
    assert InLine(u) == InLine(s) by { SameLine(s, p); }
    assert Moved(u, id, p.choice.value.1).rqs - {id} == s.rqs - {id};
    hide WithCounters;
  }

  lemma SameLine(s: Sched, p: Pick)
    ensures InLine(WithCounters(s, p)) == InLine(s)
  {
  }

  lemma StillOut(s: Sched, t: Sched, id: Id, p: Pick, m: Option<Id>)
    requires HandedOut(s, t, id, p)
    ensures HandedOut(s, t.(rqs := t.rqs[id := t.rqs[id].(started := true)], lastMerge := m), id, p)
  {
    hide InLine;
    assert t.rqs[id := t.rqs[id].(started := true)] - {id} == t.rqs - {id};
  }

  lemma MovableKnown(s: Sched, id: Id)
    requires Movable(s, id)
    ensures id in s.rqs && (s.rqs[id].gen != 0 ==> s.rqs[id].slot < |s.hash|)
  {
  }

  lemma TakeHanded(s: Sched, t: Sched, id: Id, p: Pick)
    requires HandedOut(s, t, id, p) && Agree(t, {})
    ensures var u := Take(t, id);
      Served(s, u, id) && u.batching == t.batching && u.starved == t.starved && u.log == t.log
  {
    hide Agree, Take;
    TakeEffect(t, id);
    assert Without([id], id) == [];
  }

  lemma ServeChosen(s: Sched)
    requires Good(s) && s.dispatch == [] && s.ucsb == [] && SelectRequest(s, {}).choice.Some?
    ensures var p := SelectRequest(s, {}); var id := p.choice.value.0; var t := Step(s, FetchNext);
      && Good(t) && Enabled(t, Dequeue(id)) && id in s.rqs
      && var u := Step(t, Dequeue(id)); var r := s.rqs[id];
      && Good(u) && Served(s, u, id) && u.batching == p.batching && u.starved == p.starved
      && u.log == s.log + [Entry(id, r.dir, r.rbKey, p.choice.value.1, s.fifo.At(r.dir.Other()) != [], InLine(s))]
  {
    hide Agree, FreshHash, Ordered, ContentOk, Owned, SelectRequest, Fetch, Take, Served;
    var p := SelectRequest(s, {});
    var id := p.choice.value.0;
    FetchChosen(s);
    StepGood(s, FetchNext);
    var t := Step(s, FetchNext);
    StepGood(t, Dequeue(id));
    TakeHanded(s, t, id, p);
  }

  // ------------------------------------------------ one direction waits, the other goes on

  /** Request 0 of the other direction waits and nothing else is there; no bio so far has a tag above n. */
  ghost predicate Waits(s: Sched, n: nat, d: Dir) {
    && Good(s) && s.fifo.At(d) == [] && s.fifo.At(d.Other()) == [0] && s.sort.At(d) == map[]
    && s.next == PerDir(None, None)
    && s.dispatch == [] && s.ucsb == [] && s.rqs.Keys == {0} && s.rqs[0].dir == d.Other()
    && forall b :: b in s.submitted ==> b.tag <= n
  }

  lemma FirstWaits(cfg: Tunables, d: Dir) returns (s: Sched)
    requires cfg.maxSectors >= 1
    ensures RunsTo(cfg, [Submit(Plain1(0, 0, d.Other()), 0, true, true)], s) && Waits(s, 0, d)
    ensures s.cfg == cfg && s.log == [] && s.starved == 0
  {
    hide Agree, FreshHash, Ordered, ContentOk, Owned, Step;
    var b, f := Plain1(0, 0, d.Other()), Fresh(cfg, 0);
    FreshGood(cfg, 0);
    assert RunsTo(cfg, [], f);
    SubmitApart(f, b, 0);
    RunStep(cfg, [], f, Submit(b, 0, true, true));
    s := Step(f, Submit(b, 0, true, true));
    assert [] + [Submit(b, 0, true, true)] == [Submit(b, 0, true, true)];
    assert s.fifo.At(d.Other()) == [0];
    assert s.rqs.Keys == {0};
    assert SameIo(s.rqs[0], NewRq(b));
  }

  /** One of direction d comes, the only one. */
  ghost predicate Comes(s: Sched, n: nat, d: Dir) {
    && Good(s) && s.fifo.At(d) == [1] && s.fifo.At(d.Other()) == [0] && s.sort.At(d) == map[100 := 1]
    && s.next == PerDir(None, None)
    && s.dispatch == [] && s.ucsb == [] && s.rqs.Keys == {0, 1} && s.rqs[0].dir == d.Other() && s.rqs[1].dir == d
    && s.rqs[1].rbKey == 100
    && forall b :: b in s.submitted ==> b.tag <= n
  }

  lemma SubmitComing(s: Sched, n: nat, d: Dir)
    requires Waits(s, n, d) && s.cfg.maxSectors >= 1
    ensures var e := Submit(Plain1(n + 1, 100, d), 1, true, true);
      && Enabled(s, e) && Comes(Step(s, e), n + 1, d)
      && Step(s, e).log == s.log && Step(s, e).cfg == s.cfg && Step(s, e).starved == s.starved
  {
    hide Agree, FreshHash, Ordered, ContentOk, Owned, Step, Joined, Apart, Queued;
    var b := Plain1(n + 1, 100, d);
    var e := Submit(b, 1, true, true);
    OtherSide(s, b);
    SubmitApart(s, b, 1);
    StepGood(s, e);
    JoinedComing(s, Step(s, e), b);
  }

  /** The one request there is of the other direction. */
  lemma OtherSide(s: Sched, b: Bio)
    requires s.rqs.Keys == {0} && s.rqs[0].dir == b.dir.Other()
    ensures Apart(s, b)
  {
  }

  lemma JoinedComing(s: Sched, t: Sched, b: Bio)
    requires s.fifo.At(b.dir) == [] && s.fifo.At(b.dir.Other()) == [0] && s.sort.At(b.dir) == map[]
    requires s.rqs.Keys == {0} && s.rqs[0].dir == b.dir.Other()
    requires Joined(s, t, b, 1) && b.sector == 100
    ensures t.fifo.At(b.dir) == [1] && t.fifo.At(b.dir.Other()) == [0] && t.sort.At(b.dir) == map[100 := 1]
    ensures t.rqs.Keys == {0, 1} && t.starved == s.starved && t.log == s.log && t.cfg == s.cfg && t.next == s.next
    ensures t.dispatch == s.dispatch && t.ucsb == s.ucsb && t.submitted == s.submitted + {b}
    ensures t.rqs[0].dir == b.dir.Other() && t.rqs[1].dir == b.dir && t.rqs[1].rbKey == 100
  {
    assert [] + [1] == [1];
  }

  /** The next decision prefers direction d to the one that waits. */
  predicate Prefers(s: Sched, d: Dir) {
    if d.Read? then s.starved < s.cfg.writesStarved else s.cfg.writesStarved == 0
  }

  lemma Chosen(s: Sched, n: nat, d: Dir)
    requires Comes(s, n, d) && Prefers(s, d)
    ensures var p := SelectRequest(s, {});
      && p.choice.Some? && p.choice.value.0 == 1 && Scheduled(Entry(1, d, 100, p.choice.value.1, true, false))
      && p.starved == if d.Read? then s.starved + 1 else 0
  {
    hide SideOk, PlacesOk, HashOk, ListsOk, FreshHash, Ordered, ContentOk, Owned;
    assert s.fifo.rd != [] && s.fifo.wr != [] by { assert s.fifo.At(d) != [] && s.fifo.At(d.Other()) != []; }
    FindInQueued(s, s.batching, if d.Read? then s.starved + 1 else 0, d, {});
  }

  lemma ServedWaits(s: Sched, u: Sched, n: nat, d: Dir)
    requires Comes(s, n, d) && Good(u) && Served(s, u, 1)
    ensures Waits(u, n, d)
  {
    hide Good;
    assert map[100 := 1] - {100} == map[];
    assert Without([1], 1) == [];
    assert u.rqs.Keys == {0, 1} - {1} == {0};
  }

  lemma FetchComing(s: Sched, n: nat, d: Dir)
    requires Comes(s, n, d) && Prefers(s, d)
    ensures var t := Step(s, FetchNext);
      && Good(t) && Enabled(t, Dequeue(1))
      && var u := Step(t, Dequeue(1));
      && Waits(u, n, d) && u.cfg == s.cfg && u.starved == (if d.Read? then s.starved + 1 else 0)
      && |u.log| == |s.log| + 1 && s.log <= u.log && AllOver(u.log, |s.log|, 1, d)
  {
    hide Good, SelectRequest, Step, Enabled, Waits;
    FetchEnabled(s);
    Chosen(s, n, d);
    ServeChosen(s);
    ServedWaits(s, Step(Step(s, FetchNext), Dequeue(1)), n, d);
  }

  lemma {:induction false} AllOverCounts(log: seq<Entry>, i: nat, n: nat, d: Dir)
    requires AllOver(log, i, n, d) && i + n == |log|
    ensures Overtaking(log, i, d) && Decisions(log, i) == n
    decreases n
  {
    if n > 0 { AllOverCounts(log, i + 1, n - 1, d); }
  }

  /** n rounds: one of direction d comes and is taken. */
  lemma {:induction false} Rounds(cfg: Tunables, n: nat, d: Dir) returns (es: seq<Event>, s: Sched)
    requires cfg.maxSectors >= 1 && if d.Read? then n <= cfg.writesStarved else cfg.writesStarved == 0
    ensures RunsTo(cfg, es, s) && Waits(s, n, d) && |s.log| == n && AllOver(s.log, 0, n, d)
    ensures d.Read? ==> s.starved == n
    decreases n
  {
    hide Good, RunsTo, Step, Enabled, Waits, Comes;
    if n == 0 {
      s := FirstWaits(cfg, d);
      es := [Submit(Plain1(0, 0, d.Other()), 0, true, true)];
    } else {
      var es0, s0 := Rounds(cfg, n - 1, d);
      var e := Submit(Plain1(n, 100, d), 1, true, true);
      assert Good(s0) by { RunGood(cfg, es0, s0); }
      RunGood(cfg, es0, s0);
      SubmitComing(s0, n - 1, d);
      RunStep(cfg, es0, s0, e);
      var s1 := Step(s0, e);
      FetchComing(s1, n, d);
      assert Enabled(s1, FetchNext) by { FetchEnabled(s1); }
      RunStep(cfg, es0 + [e], s1, FetchNext);
      var s2 := Step(s1, FetchNext);
      RunStep(cfg, es0 + [e] + [FetchNext], s2, Dequeue(1));
      s := Step(s2, Dequeue(1));
      es := es0 + [e] + [FetchNext] + [Dequeue(1)];
      assert s.log[..|s0.log|] == s0.log;
      forall k | 0 <= k < n ensures Scheduled(s.log[k]) && s.log[k].dir == d && s.log[k].otherWaiting {
        assert k < n - 1 ==> s.log[k] == s0.log[k];
      }
    }
  }

  lemma FetchEnabled(s: Sched)
    ensures Enabled(s, FetchNext)
  {
  }

  /**
   With writes_starved = 0 there is no bound on the writes that go in front of a waiting
   read: for every n some run from a fresh scheduler has n decisions, all of them writes
   taken while the read waits.
   */
  lemma ReadsWaitForever(cfg: Tunables, n: nat)
    requires cfg.maxSectors >= 1 && cfg.writesStarved == 0
    ensures exists es, s :: RunsTo(cfg, es, s) && Overtaking(s.log, 0, Write) && Decisions(s.log, 0) == n
  {
    var es, s := Rounds(cfg, n, Write);
    AllOverCounts(s.log, 0, n, Write);
    assert RunsTo(cfg, es, s);
  }

  /**
   With fifo_batch = 0 the bound is met: for every writes_starved some run from a fresh
   scheduler takes as many reads past a waiting write as RoomyBound allows.
   */
  lemma BoundMet(cfg: Tunables)
    requires cfg.maxSectors >= 1 && cfg.fifoBatch == 0
    ensures exists es, s :: RunsTo(cfg, es, s) && Overtaking(s.log, 0, Read)
                            && Decisions(s.log, 0) == Bound(cfg, Read, true)
  {
    var es, s := Rounds(cfg, cfg.writesStarved, Read);
    AllOverCounts(s.log, 0, cfg.writesStarved, Read);
    assert RunsTo(cfg, es, s);
  }

  // ------------------------------------------------------------------ passing over

  /** The first request of a fresh scheduler, with no counters or cursors set yet. */
  lemma FirstSubmit(cfg: Tunables, b: Bio) returns (s: Sched)
    requires BioOk(b, cfg.maxSectors) && !b.barrier && IoType(b) == BestEffort
    ensures RunsTo(cfg, [Submit(b, 0, true, true)], s) && Good(s) && s.cfg == cfg
    ensures Joined(Fresh(cfg, 0), s, b, 0) && s.lastMerge == Some(0)
  {
    hide Agree, FreshHash, Ordered, ContentOk, Owned, Step, Joined;
    var f := Fresh(cfg, 0);
    FreshGood(cfg, 0);
    assert RunsTo(cfg, [], f);
    SubmitApart(f, b, 0);
    RunStep(cfg, [], f, Submit(b, 0, true, true));
    s := Step(f, Submit(b, 0, true, true));
    assert [] + [Submit(b, 0, true, true)] == [Submit(b, 0, true, true)];
  }

  /** One more ordinary bio, apart from those queued. */
  lemma NextSubmit(cfg: Tunables, es: seq<Event>, s: Sched, b: Bio, id: Id) returns (t: Sched)
    requires RunsTo(cfg, es, s) && Good(s) && b !in s.submitted && id !in s.rqs && Apart(s, b)
    requires BioOk(b, cfg.maxSectors) && s.cfg == cfg && !b.barrier && IoType(b) == BestEffort
    ensures RunsTo(cfg, es + [Submit(b, id, true, true)], t) && Good(t) && t.cfg == cfg
    ensures Joined(s, t, b, id)
    ensures s.lastMerge.Some? && s.lastMerge.value in s.rqs && Mergeable(s.rqs[s.lastMerge.value]) ==>
              t.lastMerge == s.lastMerge
  {
    hide Agree, FreshHash, Ordered, ContentOk, Owned, Step, Joined, Apart, RunsTo;
    var e := Submit(b, id, true, true);
    SubmitApart(s, b, id);
    RunStep(cfg, es, s, e);
    t := Step(s, e);
  }

  /** The driver asks for a request and takes it. */
  lemma NextServe(cfg: Tunables, es: seq<Event>, s: Sched) returns (u: Sched)
    requires RunsTo(cfg, es, s) && Good(s) && s.cfg == cfg
    requires s.dispatch == [] && s.ucsb == [] && SelectRequest(s, {}).choice.Some?
    ensures var p := SelectRequest(s, {}); var id := p.choice.value.0;
      && RunsTo(cfg, es + [FetchNext] + [Dequeue(id)], u) && Good(u) && u.cfg == cfg
      && id in s.rqs && Served(s, u, id) && u.batching == p.batching && u.starved == p.starved
      && u.log == s.log + [Entry(id, s.rqs[id].dir, s.rqs[id].rbKey, p.choice.value.1,
                                 s.fifo.At(s.rqs[id].dir.Other()) != [], InLine(s))]
  {
    hide Agree, FreshHash, Ordered, ContentOk, Owned, SelectRequest, Step, Enabled, RunsTo, Served;
    ServeChosen(s);
    FetchEnabled(s);
    RunStep(cfg, es, s, FetchNext);
    var id := SelectRequest(s, {}).choice.value.0;
    RunStep(cfg, es + [FetchNext], Step(s, FetchNext), Dequeue(id));
    u := Step(Step(s, FetchNext), Dequeue(id));
  }

  /** With one request queued, and no cursor set, it is taken by a restart. */
  lemma OneChosen(s: Sched, id: Id)
    requires Good(s) && s.fifo == PerDir([id], []) && s.next == PerDir(None, None)
    ensures var c := SelectRequest(s, {}).choice; c.Some? && c.value.0 == id && c.value.1.Restart?
  {
    hide SideOk, PlacesOk, HashOk, ListsOk, FreshHash, Ordered, ContentOk, Owned, SelectRequest;
    SelectedQueued(s, {});
    SelectedSweep(s, {});
    assert SelectRequest(s, {}).choice.value.0 in s.fifo.At(s.rqs[SelectRequest(s, {}).choice.value.0].dir);
  }

  /** The next decision restarts below the last move, over a waiting, unexpired request above it. */
  ghost predicate SkipsOver(s: Sched, above: Id)
    requires Good(s)
  {
    && SelectRequest(s, {}).choice.Some?
    && var c := SelectRequest(s, {}).choice.value;
       && c.1 == Restart(false) && c.0 in s.rqs && Queued(s, above)
       && s.rqs[above].dir == s.rqs[c.0].dir && s.rqs[c.0].sector < s.rqs[above].sector
       && s.now <= s.rqs[above].expires && MovedBelow(s.log, s.rqs[c.0].dir, s.rqs[above].sector)
       && LastMoved(s.log).Some? && s.rqs[c.0].sector < LastMoved(s.log).value.key
  }

  /** One read at the given sector has come and gone. */
  ghost predicate ServedOnce(s: Sched, sector: nat) {
    && s.fifo == PerDir([], []) && s.next == PerDir(None, None) && s.rqs == map[] && s.now == 0
    && |s.log| == 1 && s.log[0].dir.Read? && s.log[0].key == sector && Scheduled(s.log[0])
    && s.submitted == {Plain1(0, sector, Read)}
  }

  lemma ServeOne(cfg: Tunables, sector: nat) returns (es: seq<Event>, s: Sched)
    requires cfg.maxSectors >= 1 && sector + 1 < SECTOR_SPACE
    ensures RunsTo(cfg, es, s) && Good(s) && s.cfg == cfg && ServedOnce(s, sector)
  {
    hide Agree, FreshHash, Ordered, ContentOk, Owned, SelectRequest, RunsTo;
    var s1 := FirstSubmit(cfg, Plain1(0, sector, Read));
    assert s1.fifo.rd == [0];
    OneChosen(s1, 0);
    assert s1.sort.rd == map[sector := 0] && s1.rqs[0].rbKey == sector;
    s := NextServe(cfg, [Submit(Plain1(0, sector, Read), 0, true, true)], s1);
    es := [Submit(Plain1(0, sector, Read), 0, true, true)] + [FetchNext] + [Dequeue(0)];
    assert s1.rqs.Keys == {0};
    assert Without([0], 0) == [];
  }

  /** Two reads come, one on either side of the sector served last. */
  lemma TwoMore(cfg: Tunables, es: seq<Event>, s: Sched) returns (fs: seq<Event>, u: Sched)
    requires RunsTo(cfg, es, s) && Good(s) && s.cfg == cfg && ServedOnce(s, 1000) && cfg.maxSectors >= 1
    ensures RunsTo(cfg, fs, u) && Good(u) && u.cfg == cfg && u.log == s.log
    ensures u.fifo == PerDir([1, 2], []) && u.next == PerDir(None, None) && u.now == 0 && u.rqs.Keys == {1, 2}
    ensures u.rqs[1].sector == 2000 && u.rqs[2].sector == 10 && u.rqs[1].dir.Read? && u.rqs[2].dir.Read?
  {
    hide Agree, FreshHash, Ordered, ContentOk, Owned, SelectRequest, RunsTo;
    var t := NextSubmit(cfg, es, s, Plain1(1, 2000, Read), 1);
    assert t.fifo.rd == [] + [1] == [1] && t.rqs.Keys == {1};
    fs := es + [Submit(Plain1(1, 2000, Read), 1, true, true)];
    u := NextSubmit(cfg, fs, t, Plain1(2, 10, Read), 2);
    fs := fs + [Submit(Plain1(2, 10, Read), 2, true, true)];
    assert u.fifo.rd == [1] + [2] == [1, 2];
  }

  /**
   "Run out of higher-sectored requests" is not what the restart means: in some run a read
   waits above the sector served last, in the direction of the sweep and not expired, and a
   read below it is chosen.
   */
  lemma PassedOver(cfg: Tunables)
    requires cfg.maxSectors >= 1
    ensures exists es, s, above :: RunsTo(cfg, es, s) && Good(s) && SkipsOver(s, above)
  {
    hide Agree, FreshHash, Ordered, ContentOk, Owned, SelectRequest, RunsTo;
    var es, s := ServeOne(cfg, 1000);
    var fs, u := TwoMore(cfg, es, s);
    assert LastMoved(u.log) == Some(u.log[0]);
    PassesOver(u, 1, 2);
    assert SkipsOver(u, 1);
  }

  // ---------------------------------------------------------- a merge that is missed

  /**
   Read 1 ends where b begins and could take it in, but write 2 ends there as well and is
   first in the hash list; last_merge points elsewhere.
   */
  ghost predicate Shadowed(s: Sched, b: Bio) {
    && Good(s) && Candidate(s, 1, b.sector) && MergeOk(s.rqs[1], b)
    && 2 in s.rqs && s.rqs[2].dir != b.dir && End(s.rqs[2]) == b.sector && !Stale(s.rqs[2], s.hashGen)
    && |s.hash| == HASH_ENTRIES && s.hash[HashFn(b.sector)] != [] && s.hash[HashFn(b.sector)][0] == 2
    && s.lastMerge == Some(0) && 0 in s.rqs && Mergeable(s.rqs[0]) && s.rqs[0].sector > b.sector + b.nr
    && b.sector + b.nr !in s.sort.At(b.dir)
    && BioOk(b, s.cfg.maxSectors) && b !in s.submitted && OnDevice(s)
  }

  lemma ShadowedMissed(s: Sched, b: Bio)
    requires Shadowed(s, b)
    ensures HashOk(s) && Merge(s, b).kind.NoMerge?
  {
    hide SideOk, PlacesOk, ListsOk, FreshHash, Ordered, ContentOk, Owned;
    TryMergeContiguous(s.rqs[0], b, s.cfg.maxSectors);
    assert FindHash(s, b.sector) == Some(2);
    hide ScanList, FindHash;
    PruneShape(s, b.sector);
    assert FrontTarget(PruneHash(s, b.sector), b).None?;
  }

  /** A read far away, and a read that ends at sector 8. */
  lemma TwoReads(cfg: Tunables) returns (es: seq<Event>, s: Sched)
    requires cfg.maxSectors >= 1
    ensures RunsTo(cfg, es, s) && Good(s) && s.cfg == cfg && s.lastMerge == Some(0)
    ensures s.rqs.Keys == {0, 1} && s.fifo == PerDir([0, 1], []) && s.sort == PerDir(map[5000 := 0, 7 := 1], map[])
    ensures s.submitted == {Plain1(0, 5000, Read), Plain1(1, 7, Read)}
    ensures FiledAs(s, 0, Plain1(0, 5000, Read)) && FiledAs(s, 1, Plain1(1, 7, Read))
  {
    hide Agree, FreshHash, Ordered, ContentOk, Owned, RunsTo, HashFn;
    var s0 := FirstSubmit(cfg, Plain1(0, 5000, Read));
    es := [Submit(Plain1(0, 5000, Read), 0, true, true)];
    assert s0.fifo.rd == [0] && s0.rqs.Keys == {0};
    s := NextSubmit(cfg, es, s0, Plain1(1, 7, Read), 1);
    es := es + [Submit(Plain1(1, 7, Read), 1, true, true)];
    assert s.fifo.rd == [0] + [1] == [0, 1] && s.rqs.Keys == {0, 1};
  }

  /** Request id carries the bio and nothing else. */
  predicate FiledAs(s: Sched, id: Id, b: Bio) {
    id in s.rqs
    && var r := s.rqs[id]; r == NewRq(b).(rbKey := b.sector, gen := r.gen, slot := r.slot, expires := r.expires)
  }

  /** And a write that ends there as well. */
  lemma ThreeRequests(cfg: Tunables) returns (es: seq<Event>, s: Sched)
    requires cfg.maxSectors >= 1
    ensures RunsTo(cfg, es, s) && Good(s) && s.cfg == cfg && s.lastMerge == Some(0)
    ensures s.rqs.Keys == {0, 1, 2} && s.fifo == PerDir([0, 1], [2]) && s.sort.rd == map[5000 := 0, 7 := 1]
    ensures s.submitted == {Plain1(0, 5000, Read), Plain1(1, 7, Read), Plain1(2, 7, Write)}
    ensures FiledAs(s, 0, Plain1(0, 5000, Read)) && FiledAs(s, 1, Plain1(1, 7, Read))
    ensures FiledAs(s, 2, Plain1(2, 7, Write)) && s.rqs[2].gen == s.hashGen
    ensures |s.hash| == HASH_ENTRIES && s.hash[HashFn(8)] != [] && s.hash[HashFn(8)][0] == 2
  {
    hide Agree, FreshHash, Ordered, ContentOk, Owned, RunsTo, HashFn;
    var es1, s1 := TwoReads(cfg);
    s := NextSubmit(cfg, es1, s1, Plain1(2, 7, Write), 2);
    es := es1 + [Submit(Plain1(2, 7, Write), 2, true, true)];
    assert s.fifo.wr == [] + [2] == [2] && s.rqs.Keys == {0, 1, 2};
  }

  /**
   The hash looks at the first entry that ends at the bio, whatever its direction: in some
   run deadline_merge answers that there is no merge, although a request to merge with is
   queued, hashed and mergeable.
   */
  lemma HashHidesMerge(cfg: Tunables)
    requires cfg.maxSectors >= 1
    ensures exists es, s, b, id :: RunsTo(cfg, es, s) && Good(s) && BioOk(b, cfg.maxSectors) && b !in s.submitted
              && Candidate(s, id, b.sector) && MergeOk(s.rqs[id], b) && HashOk(s) && Merge(s, b).kind.NoMerge?
  {
    hide FreshHash, Ordered, ContentOk, Owned, RunsTo, Merge, SideOk, PlacesOk, HashOk, ListsOk;
    var es, s := ThreeRequests(cfg);
    var b := Plain1(3, 8, Read);
    ContentOnDevice(s);
    assert Queued(s, 1);
    assert Shadowed(s, b);
    ShadowedMissed(s, b);
    assert RunsTo(cfg, es, s) && Candidate(s, 1, b.sector);
  }

  // ------------------------------------------------------------------ the counter wraps

  /** Three reads with gaps between them, and a write. */
  ghost predicate FourWait(s: Sched) {
    && Good(s) && s.fifo == PerDir([0, 1, 2], [3]) && s.next == PerDir(None, None) && s.now == 0
    && s.dispatch == [] && s.ucsb == [] && s.batching == 0 && s.starved == 0
    && s.sort.rd == map[100 := 0, 200 := 1, 300 := 2] && s.rqs.Keys == {0, 1, 2, 3}
    && s.rqs[0].sector == 100 && s.rqs[1].sector == 200 && s.rqs[2].sector == 300
    && s.rqs[0].nr == 1 && s.rqs[1].nr == 1
  }

  lemma TwoRequests(cfg: Tunables) returns (es: seq<Event>, s: Sched)
    requires cfg.maxSectors >= 1
    ensures RunsTo(cfg, es, s) && Good(s) && s.cfg == cfg && s.now == 0 && s.next == PerDir(None, None)
    ensures s.rqs.Keys == {0, 1} && s.fifo == PerDir([0, 1], []) && s.sort == PerDir(map[100 := 0, 200 := 1], map[])
    ensures s.rqs[0].sector == 100 && s.rqs[0].nr == 1 && s.rqs[1].sector == 200 && s.rqs[1].nr == 1
    ensures s.submitted == {Plain1(0, 100, Read), Plain1(1, 200, Read)}
    ensures s.dispatch == [] && s.ucsb == [] && s.batching == 0 && s.starved == 0
  {
    hide Agree, FreshHash, Ordered, ContentOk, Owned, RunsTo, HashFn;
    var s0 := FirstSubmit(cfg, Plain1(0, 100, Read));
    es := [Submit(Plain1(0, 100, Read), 0, true, true)];
    assert s0.fifo.rd == [0] && s0.rqs.Keys == {0};
    s := NextSubmit(cfg, es, s0, Plain1(1, 200, Read), 1);
    es := es + [Submit(Plain1(1, 200, Read), 1, true, true)];
    assert s.fifo.rd == [0] + [1] == [0, 1] && s.rqs.Keys == {0, 1};
  }

  lemma FourRequests(cfg: Tunables) returns (es: seq<Event>, s: Sched)
    requires cfg.maxSectors >= 1
    ensures RunsTo(cfg, es, s) && s.cfg == cfg && FourWait(s)
  {
    hide Agree, FreshHash, Ordered, ContentOk, Owned, RunsTo, HashFn;
    var es1, s1 := TwoRequests(cfg);
    var s2 := NextSubmit(cfg, es1, s1, Plain1(2, 300, Read), 2);
    es := es1 + [Submit(Plain1(2, 300, Read), 2, true, true)];
    assert s2.fifo.rd == [0, 1] + [2] == [0, 1, 2] && s2.rqs.Keys == {0, 1, 2};
    s := NextSubmit(cfg, es, s2, Plain1(3, 100, Write), 3);
    es := es + [Submit(Plain1(3, 100, Write), 3, true, true)];
    assert s.fifo.wr == [] + [3] == [3] && s.rqs.Keys == {0, 1, 2, 3};
  }

  /** The first read is taken, and a batch begins. */
  lemma FirstOfFour(cfg: Tunables, es: seq<Event>, s: Sched) returns (fs: seq<Event>, u: Sched)
    requires RunsTo(cfg, es, s) && s.cfg == cfg && FourWait(s) && cfg.writesStarved == 2
    ensures RunsTo(cfg, fs, u) && Good(u) && u.cfg == cfg && u.dispatch == [] && u.ucsb == [] && u.now == 0
    ensures u.fifo == PerDir([1, 2], [3]) && u.next == PerDir(Some(1), None) && u.sort.rd == map[200 := 1, 300 := 2]
    ensures u.batching == 1 && u.starved == 1 && u.lastSector == 101 && u.rqs == s.rqs - {0}
  {
    hide Ordered, FreshHash, ContentOk, Owned, SideOk, PlacesOk, HashOk, ListsOk, RunsTo;
    var p := SelectRequest(s, {});
    assert 100 in s.sort.rd && 200 in s.sort.rd && LeastKey(s.sort.rd) == 100;
    assert p == Pick(1, 1, Some((0, Restart(false))));
    hide SelectRequest;
    u := NextServe(cfg, es, s);
    fs := es + [FetchNext] + [Dequeue(0)];
    KeyIsSectorOf(s, Read, 100);
    assert Succ(s.sort.rd, 100) == Some(200);
    assert Without([0, 1, 2], 0) == [1, 2] by { WithoutAt([0, 1, 2], 0); }
    assert u.sort.rd == map[200 := 1, 300 := 2];
  }

  lemma KeyIsSectorOf(s: Sched, d: Dir, k: nat)
    requires Agree(s, {}) && k in s.sort.At(d)
    ensures var id := s.sort.At(d)[k]; id in s.rqs && s.rqs[id].rbKey == k && s.rqs[id].dir == d
  {
    assert SideOk(s, d);
  }

  /** The second, not sequential, ends the batch, but is chosen again; the write has waited twice. */
  lemma SecondOfFour(cfg: Tunables, es: seq<Event>, s: Sched) returns (fs: seq<Event>, u: Sched)
    requires RunsTo(cfg, es, s) && Good(s) && s.cfg == cfg && s.dispatch == [] && s.ucsb == [] && s.now == 0
    requires s.fifo == PerDir([1, 2], [3]) && s.next == PerDir(Some(1), None) && s.sort.rd == map[200 := 1, 300 := 2]
    requires s.batching == 1 && s.starved == 1 && s.lastSector == 101 && cfg.writesStarved == 2
    requires cfg.fifoBatch == INT_MAX && s.rqs.Keys == {1, 2, 3} && s.rqs[1].sector == 200 && s.rqs[1].nr == 1
    ensures RunsTo(cfg, fs, u) && Good(u) && u.cfg == cfg && u.fifo == PerDir([2], [3])
    ensures u.next == PerDir(Some(2), None) && u.batching == INT_MAX + 2 && u.starved == 2 && u.lastSector == 201
    ensures u.rqs == s.rqs - {1}
  {
    hide Ordered, FreshHash, ContentOk, Owned, SideOk, PlacesOk, HashOk, ListsOk, RunsTo;
    KeyIsSectorOf(s, Read, 200);
    var p := SelectRequest(s, {});
    assert p == Pick(INT_MAX + 2, 2, Some((1, Sweep)));
    hide SelectRequest;
    u := NextServe(cfg, es, s);
    fs := es + [FetchNext] + [Dequeue(1)];
    assert 300 in s.sort.rd && Succ(s.sort.rd, 200) == Some(300);
    assert Without([1, 2], 1) == [2] by { WithoutAt([1, 2], 0); }
  }

  /**
   The wrap of the 32-bit counter does extend a batch: with the largest fifo_batch there is
   a run after which a third read is taken although it is not sequential, the batch is used
   up and the write has been passed over writes_starved times.
   */
  lemma WrapPassesWrite(cfg: Tunables)
    requires cfg.maxSectors >= 1 && cfg.fifoBatch == INT_MAX && cfg.writesStarved == 2
    ensures exists es, s, id :: RunsTo(cfg, es, s) && Good(s) && s.fifo.wr != [] && s.starved >= cfg.writesStarved
              && s.batching >= cfg.fifoBatch && id in s.rqs && s.rqs[id].dir.Read? && s.rqs[id].sector != s.lastSector
              && SelectRequest(s, {}).choice == Some((id, Sweep))
  {
    hide Ordered, FreshHash, ContentOk, Owned, SideOk, PlacesOk, HashOk, ListsOk, RunsTo, SelectRequest;
    var es1, s1 := FourRequests(cfg);
    var es2, s2 := FirstOfFour(cfg, es1, s1);
    assert s2.rqs.Keys == {0, 1, 2, 3} - {0} == {1, 2, 3};
    var es3, s3 := SecondOfFour(cfg, es2, s2);
    KeyIsSectorOf(s1, Read, 300);
    WrapResumesBatch(s3, {});
    assert RunsTo(cfg, es3, s3) && 2 in s3.rqs;
  }
}
