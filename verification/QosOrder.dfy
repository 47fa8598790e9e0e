/**
 The sector order of ucsb_queue over runs of the whole queue: what QosQueue proves of the
 placement rule, carried through every event.
 */
module QosOrder {
  import opened Types
  import opened Elevator
  import opened QosQueue
  import opened Scheduler
  import opened Merging
  import opened Frames
  import opened BlockQueue
  import opened Conservation
  import opened Runs
  import opened Barriers

  /** Every request of ucsb_queue is in the request table. */
  ghost predicate Known(s: Sched) {
    forall id :: id in s.ucsb ==> id in s.rqs
  }

  /** Priority and sector of the requests in ucsb_queue, in order. */
  ghost function Waiting(s: Sched): (ks: seq<Key>)
    requires Known(s)
    ensures |ks| == |s.ucsb|
  {
    QosKeys(s, s.ucsb)
  }

  /** The bio goes to ucsb_queue: its file has a QoS class other than best effort. */
  predicate ForQos(b: Bio) {
    !b.barrier && b.qos.Some? && b.qos.value.kind != BestEffort
  }

  function BioKey(b: Bio): Key
    requires ForQos(b)
  {
    Key(b.qos.value.priority, b.sector)
  }

  lemma KnownQos(s: Sched)
    requires Agree(s, {})
    ensures forall id :: id in s.ucsb ==> id in s.rqs && !Queued(s, id) && id !in s.dispatch
  {
    hide SideOk, PlacesOk, HashOk;
  }

  lemma SameWaiting(s: Sched, t: Sched)
    requires Known(s) && t.ucsb == s.ucsb
    requires forall id :: id in s.ucsb ==> id in t.rqs && t.rqs[id].bios == s.rqs[id].bios
    ensures Known(t)
    ensures Waiting(t) == Waiting(s)
  {
  }

  lemma NewWaiting(s: Sched, b: Bio, id: Id)
    requires Agree(s, {}) && id !in s.rqs && Known(s)
    ensures var t := NewRequest(s, b, id);
      Known(t) && Waiting(t) == if ForQos(b) then Insert(Waiting(s), BioKey(b)) else Waiting(s)
  {
    NewRequestInv(s, b, id);
    AllKnown(NewRequest(s, b, id));
    if ForQos(b) {
      QosWaiting(s, b, id);
    } else {
      hide Agree, Insert, Calm, Ordered, FreshHash;
      NewRequestFrame(s, b, id);
      SameWaiting(s, NewRequest(s, b, id));
    }
  }

  lemma QosWaiting(s: Sched, b: Bio, id: Id)
    requires Agree(s, {}) && id !in s.rqs && Known(s) && ForQos(b) && Known(NewRequest(s, b, id))
    ensures Waiting(NewRequest(s, b, id)) == Insert(Waiting(s), BioKey(b))
  {
    hide Agree, InsertBestEffort, InsertBarrier, Insert;
    AdmittedSettled(s, b, id);
    var u := Admitted(s, b, id);
    var v := u.(rqs := u.rqs[id := u.rqs[id].(qosFlag := true)]);
    SameWaiting(s, v);
    UcsbKeys(v, id);
    assert NewRequest(s, b, id) == UcsbAdd(v, id);
  }

  lemma MergedWaiting(s: Sched, t: Sched, b: Bio, id: Id, r: Rq, gone: set<Id>)
    requires MergedInto(s, t, b, id, r, gone) && Queued(s, id) && Agree(s, {}) && Agree(t, {})
    requires Known(s) && Known(t)
    ensures Waiting(t) == Waiting(s)
  {
    KnownQos(s);
    hide Agree, Calm, Ordered, FreshHash, Queued;
    SameWaiting(s, t);
  }

  lemma MergeBranchWaiting(s: Sched, b: Bio, id: Id, joinFits: bool)
    requires Agree(s, {}) && Queued(s, id) && Known(s)
    ensures var t := BackMerged(s, id, b, joinFits); Agree(t, {}) && Known(t) && Waiting(t) == Waiting(s)
    ensures var t := FrontMerged(s, id, b, joinFits); Agree(t, {}) && Known(t) && Waiting(t) == Waiting(s)
  {
    BackMergedAgree(s, id, b, joinFits);
    FrontMergedAgree(s, id, b, joinFits);
    BackMergedFrame(s, id, b, joinFits);
    FrontMergedFrame(s, id, b, joinFits);
    hide SideOk, PlacesOk, HashOk, ListsOk, MergedInto, BackMerged, FrontMerged, CanJoin, Latter, Former, Waiting,
      Known;
    var n, p := BackJoin(s, id, b, joinFits), FrontJoin(s, id, b, joinFits);
    var r, q := GrowBack(s.rqs[id], b), GrowFront(s.rqs[id], b);
    var t, u := BackMerged(s, id, b, joinFits), FrontMerged(s, id, b, joinFits);
    AllKnown(t);
    AllKnown(u);
    if n.Some? {
      MergedWaiting(s, t, b, id, Absorb(r, s.rqs[n.value]), {n.value});
    } else {
      MergedWaiting(s, t, b, id, r, {});
    }
    if p.Some? {
      JoinedQueued(s, id, p.value);
      MergedWaiting(s, u, b, p.value, Absorb(s.rqs[p.value], q), {id});
    } else {
      MergedWaiting(s, u, b, id, q, {});
    }
  }

  lemma AllKnown(s: Sched)
    requires Agree(s, {})
    ensures Known(s) && forall id :: id in s.ucsb ==> id in s.rqs
  {
    KnownQos(s);
  }

  /** How __make_request can end: in a request for the bio alone, or in a merge. */
  lemma SubmitCases(s: Sched, b: Bio, id: Id, segsFit: bool, joinFits: bool) returns (u: Sched, q: Option<Id>)
    requires Inv(s) && OnDevice(s) && BioOk(b, s.cfg.maxSectors) && id !in s.rqs
    ensures Agree(u, {}) && id !in u.rqs && (u == s || SameButHash(s, u.(lastMerge := s.lastMerge)))
    ensures q.Some? ==> Queued(u, q.value) && Agree(RefuseMerge(u, q.value), {}) && !ForQos(b)
    ensures var t := MakeRequest(s, b, id, segsFit, joinFits);
      if q.None? then t == NewRequest(u, b, id)
      else t == BackMerged(u, q.value, b, joinFits) || t == FrontMerged(u, q.value, b, joinFits)
           || t == NewRequest(RefuseMerge(u, q.value), b, id)
  {
    hide SideOk, PlacesOk, HashOk, ListsOk, FreshHash, OnDevice, NewRequest, BackMerged, FrontMerged, Merge;
    u, q := s, None;
    if !(Empty(s) || b.barrier || IoType(b) != BestEffort) {
      MergeSound(s, b);
      u, q := Merge(s, b).state, Merge(s, b).target;
      if q.Some? { RefuseMergeAgree(u, q.value); }
    }
  }

  lemma SubmitWaiting(s: Sched, b: Bio, id: Id, segsFit: bool, joinFits: bool)
    requires Good(s) && OnDevice(s) && Enabled(s, Submit(b, id, segsFit, joinFits)) && Known(s)
    ensures var t := MakeRequest(s, b, id, segsFit, joinFits);
      Known(t) && Waiting(t) == if ForQos(b) then Insert(Waiting(s), BioKey(b)) else Waiting(s)
  {
    var u, q := SubmitCases(s, b, id, segsFit, joinFits);
    hide *;
    AllKnown(u);
    if u != s { LookupWaiting(s, u); }
    if q.None? {
      NewWaiting(u, b, id);
    } else {
      MergeBranchWaiting(u, b, q.value, joinFits);
      RefuseThenNew(u, b, q.value, id);
    }
  }

  lemma LookupWaiting(s: Sched, t: Sched)
    requires Known(s) && Known(t) && SameButHash(s, t.(lastMerge := s.lastMerge))
    ensures Waiting(t) == Waiting(s) && t.rqs.Keys == s.rqs.Keys && t.cfg == s.cfg
  {
  }

  lemma RefuseThenNew(s: Sched, b: Bio, q: Id, id: Id)
    requires Agree(s, {}) && Known(s) && Queued(s, q) && id !in s.rqs
    ensures Agree(RefuseMerge(s, q), {}) && id !in RefuseMerge(s, q).rqs
    ensures var t := NewRequest(RefuseMerge(s, q), b, id);
      Known(t) && Waiting(t) == if ForQos(b) then Insert(Waiting(s), BioKey(b)) else Waiting(s)
  {
    RefuseMergeAgree(s, q);
    AllKnown(RefuseMerge(s, q));
    RefuseWaiting(s, q);
    hide SideOk, PlacesOk, HashOk, ListsOk, Waiting, Known, NewRequest, Insert;
    NewWaiting(RefuseMerge(s, q), b, id);
  }

  lemma RefuseWaiting(s: Sched, id: Id)
    requires Known(s) && id in s.rqs && Known(RefuseMerge(s, id))
    ensures Waiting(RefuseMerge(s, id)) == Waiting(s)
  {
  }

  /**
   The head of ucsb_queue is the next to be dispatched: nothing is dispatched yet, and its
   priority is at least 16, or no best effort waits and it is not negative.
   */
  predicate HeadGoes(s: Sched) {
    && s.dispatch == [] && s.ucsb != [] && s.ucsb[0] in s.rqs
    && var priority := QosKey(s.rqs[s.ucsb[0]]).priority;
       priority >= 16 || (s.fifo.rd == [] && s.fifo.wr == [] && priority >= 0)
  }

  lemma FetchWaiting(s: Sched)
    requires Good(s) && Known(s)
    ensures var t := Fetch(s);
      Known(t) && (HeadGoes(s) ==> s.ucsb != [])
      && Waiting(t) == if HeadGoes(s) then Waiting(s)[1..] else Waiting(s)
  {
    hide Agree, FreshHash, Ordered, ContentOk, Owned, NextRequest;
    FetchAgree(s);
    AllKnown(Fetch(s));
    FetchRest(s);
    var t := Fetch(s);
    assert t.ucsb == if HeadGoes(s) then s.ucsb[1..] else s.ucsb by { NextUcsb(s); }
  }

  lemma NextUcsb(s: Sched)
    requires Agree(s, {})
    ensures HeadGoes(s) ==> s.ucsb != []
    ensures var t := NextRequest(s); t.ucsb == if HeadGoes(s) then s.ucsb[1..] else s.ucsb
  {
    hide SideOk, PlacesOk, HashOk, SelectRequest, DispatchRequests;
    SelectedQueued(s, {});
    if SelectRequest(s, {}).choice.Some? { DispatchAgree(s, {}); }
  }

  /** What an event does to ucsb_queue: a QoS bio is inserted, a fetch takes the head when it goes; nothing else
      changes it. */
  lemma StepWaiting(s: Sched, e: Event)
    requires Good(s) && Enabled(s, e) && Known(s)
    ensures var t := Step(s, e);
      && Known(t) && (HeadGoes(s) ==> s.ucsb != [])
      && Waiting(t) == if e.Submit? && ForQos(e.bio) then Insert(Waiting(s), BioKey(e.bio))
                       else if e.FetchNext? && HeadGoes(s) then Waiting(s)[1..]
                       else Waiting(s)
  {
    hide Agree, FreshHash, Ordered, ContentOk, Owned, MakeRequest, Fetch, Take, Insert;
    match e
    case Tick(n) =>
    case Submit(b, id, segsFit, joinFits) =>
      ContentOnDevice(s);
      SubmitWaiting(s, b, id, segsFit, joinFits);
    case FetchNext =>
      FetchWaiting(s);
    case Dequeue(id) =>
      TakeEffect(s, id);
      KnownQos(s);
  }

  /** All QoS bios of the run have one priority. */
  ghost predicate OnePriority(es: seq<Event>, priority: int) {
    forall i :: 0 <= i < |es| && es[i].Submit? && ForQos(es[i].bio) ==> BioKey(es[i].bio).priority == priority
  }

  lemma TailOneClass(q: seq<Key>, priority: int)
    requires OneClass(q, priority)
    ensures q != [] ==> OneClass(q[1..], priority)
  {
  }

  /**
   While one priority is in use, ucsb_queue is a sector-sorted queue, over every run of
   arrivals, merges, barriers, dispatches and driver events.
   */
  lemma {:induction false} SectorSorted(s: Sched, es: seq<Event>, priority: int)
    requires Good(s) && Legal(s, es) && Known(s) && OneClass(Waiting(s), priority) && OnePriority(es, priority)
    ensures Known(Exec(s, es)) && OneClass(Waiting(Exec(s, es)), priority)
    decreases |es|
  {
    hide Good, Step, Enabled, Insert, Waiting, Known;
    if es != [] {
      StepGood(s, es[0]);
      StepWaiting(s, es[0]);
      var t := Step(s, es[0]);
      if es[0].Submit? && ForQos(es[0].bio) {
        StableSectorInsert(Waiting(s), BioKey(es[0].bio));
      }
      assert s.ucsb != [] ==> OneClass(Waiting(s)[1..], priority) by { TailOneClass(Waiting(s), priority); }
      assert OnePriority(es[1..], priority);
      SectorSorted(t, es[1..], priority);
    }
  }
}
