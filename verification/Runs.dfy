/** Events, runs, and the invariant that every run keeps. */
module Runs {
  import opened Types
  import opened Elevator
  import opened Scheduler
  import opened Merging
  import opened Frames
  import opened BlockQueue
  import opened Conservation

  datatype Event =
    | Tick(jiffies: nat)
    | Submit(bio: Bio, id: Id, segsFit: bool, joinFits: bool)
    | FetchNext
    | Dequeue(id: Id)

  /** The ranges of the two counters. */
  predicate CountersOk(s: Sched) {
    s.starved <= s.cfg.writesStarved && s.batching < UINT_SPACE
  }

  /** Everything that holds between events. */
  ghost predicate Good(s: Sched) {
    && Agree(s, {}) && FreshHash(s) && Ordered(s) && ContentOk(s) && Owned(s)
    && CountersOk(s)
  }

  /** A bio is submitted once and has passed the size checks of generic_make_request. */
  ghost predicate Enabled(s: Sched, e: Event) {
    match e
    case Tick(_) => true
    case Submit(b, id, _, _) => BioOk(b, s.cfg.maxSectors) && b !in s.submitted && id !in s.rqs
    case FetchNext => true
    case Dequeue(id) => id in s.dispatch
  }

  ghost function Step(s: Sched, e: Event): Sched
    requires Good(s) && Enabled(s, e)
  {
    match e
    case Tick(n) => s.(now := s.now + n)
    case Submit(b, id, segsFit, joinFits) =>
      ContentOnDevice(s);
      MakeRequest(s, b, id, segsFit, joinFits)
    case FetchNext => Fetch(s)
    case Dequeue(id) => Take(s, id)
  }

  // ------------------------------------------------------------------ the steps

  /** The part of Good that needs work at each step. */
  ghost predicate Rest(s: Sched) {
    FreshHash(s) && Ordered(s) && ContentOk(s) && Owned(s)
  }

  lemma TickGood(s: Sched, n: nat)
    requires Good(s)
    ensures Good(s.(now := s.now + n))
  {
    assert s.hashGen != 0 && (s.lastMerge.Some? ==> s.lastMerge.value in s.rqs && Queued(s, s.lastMerge.value));
    hide Agree, Ordered, FreshHash, ContentOk, Owned, Queued;
    IndexesAgree(s, s.(now := s.now + n), {});
    TickRest(s, n);
  }

  lemma TickRest(s: Sched, n: nat)
    requires Rest(s)
    ensures Rest(s.(now := s.now + n))
  {
    hide Ordered;
    var t := s.(now := s.now + n);
    SameRequestsOk(s, t);
    OrdersSame(s, t);
  }

  lemma NewRequestRest(s: Sched, b: Bio, id: Id)
    requires Agree(s, {}) && Rest(s) && id !in s.rqs && BioOk(b, s.cfg.maxSectors) && b !in s.submitted
    ensures var t := NewRequest(s, b, id);
      Agree(t, {}) && Rest(t) && t.cfg == s.cfg && s.log <= t.log && t.now == s.now
      && (!b.barrier ==> Calm(s, t)) && s.dispatch <= t.dispatch
  {
    hide Agree, FreshHash, Ordered, ContentOk, Owned, NewRequest, Calm;
    NewRequestInv(s, b, id);
    NewRequestFrame(s, b, id);
    NewRequestContent(s, b, id);
    NewRequestOwned(s, b, id);
  }

  /** The lookup leaves everything but the hash and last_merge as it was. */
  lemma MergeRest(s: Sched, b: Bio)
    requires Agree(s, {}) && Rest(s) && BioOk(b, s.cfg.maxSectors)
    ensures OnDevice(s)
    ensures var t := Merge(s, b).state;
      Agree(t, {}) && Rest(t) && Calm(s, t) && t.cfg == s.cfg && t.rqs.Keys == s.rqs.Keys
      && t.submitted == s.submitted && t.dispatch == s.dispatch && t.log == s.log && t.now == s.now
      && (forall j :: j in t.rqs ==> SameIo(t.rqs[j], s.rqs[j]))
      && (forall j :: Queued(t, j) == Queued(s, j))
  {
    ContentOnDevice(s);
    MergeSound(s, b);
    var t := Merge(s, b).state;
    hide Agree, Ordered, ContentOk, Owned, Merge, OnDevice;
    var u := t.(lastMerge := s.lastMerge);
    SameButHashMembers(s, u);
    assert forall j :: Queued(t, j) == Queued(u, j);
    LookupWork(s, t);
    SameRequestsOk(s, t);
  }

  lemma LookupWork(s: Sched, t: Sched)
    requires SameButHash(s, t.(lastMerge := s.lastMerge)) && FreshHash(t)
    ensures Calm(s, t) && (Ordered(s) ==> Ordered(t))
  {
    assert t.hashGen == s.hashGen;
    assert forall j :: j in s.rqs ==> t.rqs[j] == s.rqs[j].(gen := t.rqs[j].gen);
    HashWorkFramed(s, t, {});
  }

  lemma RefuseWork(s: Sched, id: Id)
    requires id in s.rqs
    ensures var t := RefuseMerge(s, id);
      Calm(s, t) && (FreshHash(s) ==> FreshHash(t)) && (Ordered(s) ==> Ordered(t))
  {
    if Ordered(s) { OrdersSame(s, RefuseMerge(s, id)); }
  }

  lemma RefuseRest(s: Sched, id: Id)
    requires Agree(s, {}) && Rest(s) && Queued(s, id)
    ensures var t := RefuseMerge(s, id);
      Agree(t, {}) && Rest(t) && Calm(s, t) && t.dispatch == s.dispatch && t.cfg == s.cfg && t.now == s.now
      && t.log == s.log && t.rqs.Keys == s.rqs.Keys && t.submitted == s.submitted
  {
    hide Agree, Ordered, ContentOk, Owned, FreshHash;
    RefuseMergeAgree(s, id);
    var t := RefuseMerge(s, id);
    RefuseWork(s, id);
    MarkedContent(s, t, id);
  }

  lemma BackMergedRest(s: Sched, id: Id, b: Bio, joinFits: bool)
    requires Agree(s, {}) && Rest(s) && SoundAnswer(s, b, BackMerge, Some(id)) && Plain([b])
    requires BioOk(b, s.cfg.maxSectors) && b !in s.submitted && s.rqs[id].nr + b.nr <= s.cfg.maxSectors
    ensures var t := BackMerged(s, id, b, joinFits);
      Agree(t, {}) && Rest(t) && Calm(s, t) && t.cfg == s.cfg && s.log <= t.log && s.dispatch <= t.dispatch
        && t.now == s.now
  {
    hide Agree, FreshHash, Ordered, ContentOk, Owned, BackMerged, Calm;
    BackMergedAgree(s, id, b, joinFits);
    BackMergedFrame(s, id, b, joinFits);
    BackMergedContent(s, id, b, joinFits);
    BackMergedOwned(s, id, b, joinFits);
  }

  lemma FrontMergedRest(s: Sched, id: Id, b: Bio, joinFits: bool)
    requires Agree(s, {}) && Rest(s) && SoundAnswer(s, b, FrontMerge, Some(id)) && Plain([b])
    requires BioOk(b, s.cfg.maxSectors) && b !in s.submitted && s.rqs[id].nr + b.nr <= s.cfg.maxSectors
    ensures var t := FrontMerged(s, id, b, joinFits);
      Agree(t, {}) && Rest(t) && Calm(s, t) && t.cfg == s.cfg && s.log <= t.log && s.dispatch <= t.dispatch
        && t.now == s.now
  {
    hide Agree, FreshHash, Ordered, ContentOk, Owned, FrontMerged, Calm;
    FrontMergedAgree(s, id, b, joinFits);
    FrontMergedFrame(s, id, b, joinFits);
    FrontMergedContent(s, id, b, joinFits);
    FrontMergedOwned(s, id, b, joinFits);
  }

  lemma SubmitRest(s: Sched, b: Bio, id: Id, segsFit: bool, joinFits: bool)
    requires Agree(s, {}) && Rest(s) && OnDevice(s)
    requires BioOk(b, s.cfg.maxSectors) && b !in s.submitted && id !in s.rqs
    ensures var t := MakeRequest(s, b, id, segsFit, joinFits);
      Agree(t, {}) && Rest(t) && (!b.barrier ==> Calm(s, t)) && t.cfg == s.cfg && s.log <= t.log
      && s.dispatch <= t.dispatch && t.now == s.now
  {
    hide SideOk, PlacesOk, HashOk, ListsOk, FreshHash, Ordered, ContentOk, Owned, OnDevice, Calm, NewRequest,
      BackMerged, FrontMerged, Merge;
    if Empty(s) || b.barrier || IoType(b) != BestEffort {
      NewRequestRest(s, b, id);
    } else {
      MergeSound(s, b);
      MergeRest(s, b);
      var a := Merge(s, b);
      var u := a.state;
      if a.kind.NoMerge? {
        NewRequestRest(u, b, id);
        CalmTrans(s, u, NewRequest(u, b, id));
      } else {
        var q := a.target.value;
        if u.rqs[q].nr + b.nr <= s.cfg.maxSectors && segsFit {
          if a.kind.BackMerge? {
            BackMergedRest(u, q, b, joinFits);
          } else {
            FrontMergedRest(u, q, b, joinFits);
          }
        } else {
          RefuseRest(u, q);
          var v := RefuseMerge(u, q);
          NewRequestRest(v, b, id);
          CalmTrans(u, v, NewRequest(v, b, id));
        }
        CalmTrans(s, u, MakeRequest(s, b, id, segsFit, joinFits));
      }
    }
  }

  // ------------------------------------------------------------- the driver's steps

  /** The dispatching events: log and dispatch list grow, requests keep their I/O. */
  ghost predicate Dispatching(s: Sched, t: Sched) {
    && SameRequests(s, t) && t.now == s.now && s.log <= t.log && s.dispatch <= t.dispatch
    && (FreshHash(s) ==> FreshHash(t)) && (Ordered(s) ==> Ordered(t))
  }

  lemma DispatchRest(s: Sched)
    requires Agree(s, {}) && SelectRequest(s, {}).choice.Some?
    ensures Dispatching(s, DispatchRequests(s, {}))
  {
    hide SideOk, PlacesOk, HashOk, ListsOk, SelectRequest, DispatchRequests, Ordered;
    DispatchAgree(s, {});
    DispatchOrdered(s, {}, {});
    var t := DispatchRequests(s, {});
    if FreshHash(s) { KeptFresh(s, t, {}); }
  }

  lemma UcsbRest(s: Sched)
    requires Agree(s, {}) && s.ucsb != []
    ensures Dispatching(s, UcsbDispatch(s)) && Calm(s, UcsbDispatch(s))
  {
    hide SideOk, PlacesOk, HashOk, Ordered;
    var t := UcsbDispatch(s);
    assert s.ucsb[0] in s.rqs;
    if Ordered(s) { PlainEntry(s, t, t.log[|t.log| - 1]); }
  }

  lemma CountersRest(s: Sched, p: Pick)
    requires Agree(s, {})
    ensures Dispatching(s, WithCounters(s, p))
  {
    hide SideOk, PlacesOk, HashOk, ListsOk, Ordered;
    CountersFramed(s, p, {}, {});
  }

  lemma NextRequestRest(s: Sched)
    requires Agree(s, {})
    ensures Dispatching(s, NextRequest(s))
  {
    hide SideOk, PlacesOk, HashOk, SelectRequest, DispatchRequests, UcsbDispatch, Ordered, SameRequests, FreshHash;
    var p := SelectRequest(s, {});
    SameSame(s);
    if s.ucsb != [] { UcsbRest(s); }
    if p.choice.Some? {
      DispatchRest(s);
    } else {
      CountersRest(s, p);
      CountersAgree(s, p, {});
      var u := WithCounters(s, p);
      if s.ucsb != [] {
        UcsbRest(u);
        SameTrans(s, u, UcsbDispatch(u));
      }
    }
  }

  lemma SameSame(s: Sched)
    ensures SameRequests(s, s)
  {
  }

  lemma SameTrans(s: Sched, t: Sched, u: Sched)
    requires SameRequests(s, t) && SameRequests(t, u)
    ensures SameRequests(s, u)
  {
  }

  /** Marking the fetched request as started leaves its I/O alone. */
  lemma StartedRest(s: Sched, id: Id)
    requires Agree(s, {}) && id in s.dispatch && Rest(s)
    ensures var t := s.(rqs := s.rqs[id := s.rqs[id].(started := true)],
                        lastMerge := if s.lastMerge == Some(id) then None else s.lastMerge);
      Rest(t) && Calm(s, t)
  {
    hide SideOk, PlacesOk, HashOk, Ordered;
    var t := s.(rqs := s.rqs[id := s.rqs[id].(started := true)],
                lastMerge := if s.lastMerge == Some(id) then None else s.lastMerge);
    OrdersSame(s, t);
    MarkedContent(s, t, id);
  }

  lemma MarkedContent(s: Sched, t: Sched, id: Id)
    requires id in s.rqs && id in t.rqs
    requires t == s.(rqs := s.rqs[id := s.rqs[id].(started := t.rqs[id].started, nomerge := t.rqs[id].nomerge)],
                     lastMerge := t.lastMerge)
    ensures (ContentOk(s) ==> ContentOk(t)) && (Owned(s) ==> Owned(t))
  {
    hide Contiguous, Sectors;
    assert forall j :: j in t.rqs ==> t.rqs[j].bios == s.rqs[j].bios;
    assert forall j :: Queued(t, j) == Queued(s, j);
    if Owned(s) {
      forall b | b in t.submitted && b !in t.taken ensures exists j :: j in t.rqs && b in t.rqs[j].bios {
        var j :| j in s.rqs && b in s.rqs[j].bios;
        assert b in t.rqs[j].bios;
      }
    }
  }

  lemma FetchRest(s: Sched)
    requires Agree(s, {}) && Rest(s)
    ensures var t := Fetch(s);
      Rest(t) && t.cfg == s.cfg && s.log <= t.log && s.dispatch <= t.dispatch && t.log == NextRequest(s).log
      && t.batching == NextRequest(s).batching && t.starved == NextRequest(s).starved && t.now == s.now
      && t.rqs.Keys == s.rqs.Keys && (forall j :: j in t.rqs ==> t.rqs[j].bios == s.rqs[j].bios)
      && t.submitted == s.submitted && t.taken == s.taken
  {
    hide Agree, Ordered, ContentOk, Owned, FreshHash, NextRequest;
    NextRequestAgree(s);
    NextRequestRest(s);
    var t := NextRequest(s);
    SameRequestsOk(s, t);
    if t.dispatch != [] && t.dispatch[0] in t.rqs {
      StartedRest(t, t.dispatch[0]);
    }
  }

  lemma TakeRest(s: Sched, id: Id)
    requires Agree(s, {}) && Rest(s) && id in s.dispatch
    ensures Rest(Take(s, id)) && Calm(s, Take(s, id))
  {
    TakeEffect(s, id);
    var t := Take(s, id);
    assert !Queued(s, id);
    assert s.next.rd != Some(id) && s.next.wr != Some(id) by { assert SideOk(s, Read) && SideOk(s, Write); }
    hide Agree, Take, Ordered;
    OrdersSame(s, t);
    TakeContent(s, t, id);
  }

  lemma TakeContent(s: Sched, t: Sched, id: Id)
    requires id in s.rqs
    requires t == s.(rqs := s.rqs - {id}, dispatch := t.dispatch, taken := s.taken + set b | b in s.rqs[id].bios)
    ensures (ContentOk(s) ==> ContentOk(t)) && (Owned(s) ==> Owned(t))
  {
    hide Contiguous, Sectors;
    assert forall j :: j in t.rqs ==> t.rqs[j] == s.rqs[j] && (Queued(t, j) ==> Queued(s, j));
    if Owned(s) {
      forall b | b in t.submitted && b !in t.taken ensures exists j :: j in t.rqs && b in t.rqs[j].bios {
        var j :| j in s.rqs && b in s.rqs[j].bios;
        assert j != id;
        assert b in t.rqs[j].bios;
      }
    }
  }

  lemma SelectedCounters(s: Sched, x: set<Id>)
    requires Settled(s, x) && CountersOk(s)
    ensures CountersOk(WithCounters(s, SelectRequest(s, x)))
  {
    hide SideOk, PlacesOk, HashOk, ListsOk;
    if NextRq(s).Some? { NextKnown(s, x); }
  }

  lemma {:induction false} DrainCounters(s: Sched, x: set<Id>)
    requires Settled(s, x) && CountersOk(s)
    ensures CountersOk(Drain(s, x))
    decreases |s.fifo.rd| + |s.fifo.wr|
  {
    hide SelectRequest, Agree, Movable;
    SelectedCounters(s, x);
    if SelectRequest(s, x).choice.Some? {
      DispatchAgree(s, x);
      DrainCounters(DispatchRequests(s, x), x);
    }
  }

  lemma NextRequestCounters(s: Sched)
    requires Agree(s, {}) && CountersOk(s)
    ensures CountersOk(NextRequest(s))
  {
    hide SelectRequest, SideOk, PlacesOk, HashOk, ListsOk, Movable;
    SelectedCounters(s, {});
    if SelectRequest(s, {}).choice.Some? {
      DispatchAgree(s, {});
    }
  }

  lemma BarrierCounters(s: Sched, b: Bio, id: Id, segsFit: bool, joinFits: bool)
    requires Good(s) && OnDevice(s) && Enabled(s, Submit(b, id, segsFit, joinFits)) && b.barrier
    ensures CountersOk(MakeRequest(s, b, id, segsFit, joinFits))
  {
    hide SideOk, PlacesOk, HashOk, ListsOk, Drain, Ordered, ContentOk, Owned;
    AdmittedSettled(s, b, id);
    var u := Admitted(s, b, id);
    NewGenSettled(u, {id});
    DrainCounters(u.(hashGen := NextGen(u.hashGen), lastMerge := None), {id});
  }

  /** Every event keeps the invariant. */
  lemma StepGood(s: Sched, e: Event)
    requires Good(s) && Enabled(s, e)
    ensures var t := Step(s, e);
      Good(t) && t.cfg == s.cfg && s.log <= t.log
  {
    hide Agree, FreshHash, Ordered, ContentOk, Owned, MakeRequest, Fetch, Take;
    match e
    case Tick(n) => TickGood(s, n);
    case Submit(b, id, segsFit, joinFits) =>
      ContentOnDevice(s);
      SubmitRest(s, b, id, segsFit, joinFits);
      if b.barrier { BarrierCounters(s, b, id, segsFit, joinFits); }
    case FetchNext =>
      FetchAgree(s);
      FetchRest(s);
      NextRequestCounters(s);
    case Dequeue(id) =>
      TakeAgree(s, id);
      TakeRest(s, id);
      TakeEffect(s, id);
  }

  // ------------------------------------------------------------------------- runs

  /** deadline_init: nothing queued anywhere. */
  function Fresh(cfg: Tunables, now: nat): Sched {
    Sched(cfg, now, map[], PerDir(map[], map[]), PerDir([], []), PerDir(None, None),
          seq(HASH_ENTRIES, i => []), 1, [], [], 0, 0, 0, 0, None, [], {}, {}, {})
  }

  lemma FreshGood(cfg: Tunables, now: nat)
    ensures Good(Fresh(cfg, now))
  {
    var s := Fresh(cfg, now);
    assert SideOk(s, Read) && SideOk(s, Write);
    assert HashOk(s);
  }

  ghost predicate Legal(s: Sched, es: seq<Event>)
    requires Good(s)
    decreases |es|
  {
    es == [] || (Enabled(s, es[0]) && (StepGood(s, es[0]); Legal(Step(s, es[0]), es[1..])))
  }

  ghost function Exec(s: Sched, es: seq<Event>): Sched
    requires Good(s) && Legal(s, es)
    decreases |es|
  {
    if es == [] then s
    else
      StepGood(s, es[0]);
      Exec(Step(s, es[0]), es[1..])
  }

  /** Over every run all indexes agree, both orders hold and no I/O is lost or duplicated. */
  lemma {:induction false} ExecGood(s: Sched, es: seq<Event>)
    requires Good(s) && Legal(s, es)
    ensures Good(Exec(s, es)) && Exec(s, es).cfg == s.cfg && s.log <= Exec(s, es).log
    decreases |es|
  {
    hide Good, Step, Enabled;
    if es != [] {
      StepGood(s, es[0]);
      ExecGood(Step(s, es[0]), es[1..]);
    }
  }
}
