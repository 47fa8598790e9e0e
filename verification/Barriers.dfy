/**
 Barrier order.  The dispatch log is append-only, so its order is the order in which
 requests become available to the driver.
 */
module Barriers {
  import opened Types
  import opened Elevator
  import opened Scheduler
  import opened Merging
  import opened Frames
  import opened BlockQueue
  import opened Conservation
  import opened Runs

  ghost predicate Logged(log: seq<Entry>, i: nat, id: Id) {
    exists k :: i <= k < |log| && log[k].id == id
  }

  /** The drain loop puts every queued request on the dispatch list. */
  lemma {:induction false} DrainLogs(s: Sched, x: set<Id>, id: Id)
    requires Settled(s, x) && Queued(s, id)
    ensures s.log <= Drain(s, x).log && Logged(Drain(s, x).log, |s.log|, id)
    decreases |s.fifo.rd| + |s.fifo.wr|
  {
    hide SelectRequest, Agree, DispatchRequests;
    SelectedQueued(s, x);
    var c := SelectRequest(s, x).choice;
    assert c.Some?;
    var t := DispatchRequests(s, x);
    DispatchAgree(s, x);
    DrainOrdered(t, x, {});
    var u := Drain(s, x);
    assert t.log[|s.log|].id == c.value.0;
    if id == c.value.0 {
      assert u.log[|s.log|].id == id;
    } else {
      assert Queued(t, id);
      DrainLogs(t, x, id);
      var k :| |t.log| <= k < |u.log| && u.log[k].id == id;
    }
  }

  /**
   A hard barrier: afterwards no best-effort request is queued, every one that was queued
   is in the log in front of the barrier, and the barrier is last.
   */
  lemma BarrierDrains(s: Sched, b: Bio, id: Id, segsFit: bool, joinFits: bool)
    requires Good(s) && Enabled(s, Submit(b, id, segsFit, joinFits)) && b.barrier
    ensures var t := Step(s, Submit(b, id, segsFit, joinFits)); var n := |t.log| - 1;
      && s.log <= t.log && n >= |s.log| && t.log[n].id == id && t.log[n].how.Barrier?
      && (forall j :: Queued(s, j) ==> Logged(t.log[..n], |s.log|, j))
      && (forall j :: !Queued(t, j))
      && t.dispatch != [] && t.dispatch[|t.dispatch| - 1] == id
      && id in t.rqs && t.rqs[id].barrier && t.rqs[id].nomerge && t.rqs[id].bios == [b]
  {
    hide SideOk, PlacesOk, HashOk, ListsOk, Drain, Ordered, ContentOk, Owned, Logged;
    ContentOnDevice(s);
    var e := Submit(b, id, segsFit, joinFits);
    var t := Step(s, e);
    AdmittedSettled(s, b, id);
    var u := Admitted(s, b, id);
    var v := u.(hashGen := NextGen(u.hashGen), lastMerge := None);
    NewGenSettled(u, {id});
    DrainOrdered(v, {id}, {});
    InsertBarrierAgree(u, id);
    var w := Drain(v, {id});
    assert t.log[..|t.log| - 1] == w.log;
    DrainAgree(v, {id});
    assert t.rqs[id] == NewRq(b);
    forall j | Queued(s, j) ensures Logged(t.log[..|t.log| - 1], |s.log|, j) {
      assert j != id && Queued(v, j);
      DrainLogs(v, {id}, j);
    }
    AllGone(t);
  }

  /**
   Barrier safety over runs: whatever happens afterwards, the log up to the barrier stays
   as it is.  So everything queued before the barrier comes before it, and every request
   inserted later comes after it.
   */
  lemma BarrierOrder(s: Sched, b: Bio, id: Id, segsFit: bool, joinFits: bool, es: seq<Event>)
    requires Good(s) && Enabled(s, Submit(b, id, segsFit, joinFits)) && b.barrier
    requires Good(Step(s, Submit(b, id, segsFit, joinFits))) && Legal(Step(s, Submit(b, id, segsFit, joinFits)), es)
    ensures var t := Step(s, Submit(b, id, segsFit, joinFits)); var u := Exec(t, es); var n := |t.log| - 1;
      && 0 <= n < |u.log| && u.log[..n + 1] == t.log && u.log[n].id == id && u.log[n].how.Barrier?
      && (forall j :: Queued(s, j) ==> Logged(u.log[..n], |s.log|, j))
  {
    hide Good, Step, Enabled, Legal, Exec, Logged;
    BarrierDrains(s, b, id, segsFit, joinFits);
    var t := Step(s, Submit(b, id, segsFit, joinFits));
    ExecGood(t, es);
    var n, u := |t.log| - 1, Exec(t, es);
    assert u.log[..n + 1] == t.log;
    assert u.log[..n] == t.log[..n];
  }

  // ------------------------------------------------------------- what left is fixed

  /** Some dispatched request consists of exactly these bios, or the driver has them all. */
  ghost predicate Sealed(s: Sched, bios: seq<Bio>) {
    (exists id :: id in s.dispatch && id in s.rqs && s.rqs[id].bios == bios)
    || (forall b :: b in bios ==> b in s.taken)
  }

  lemma SealedKept(s: Sched, t: Sched, bios: seq<Bio>)
    requires Sealed(s, bios) && Agree(s, {}) && s.dispatch <= t.dispatch && s.taken <= t.taken
    requires forall j :: j in s.dispatch ==> j in t.rqs && t.rqs[j].bios == s.rqs[j].bios
    ensures Sealed(t, bios)
  {
    hide SideOk, PlacesOk, HashOk;
    if id :| id in s.dispatch && id in s.rqs && s.rqs[id].bios == bios {
      assert id in t.dispatch && t.rqs[id].bios == bios;
    }
  }

  lemma TakeSealed(s: Sched, id: Id, bios: seq<Bio>)
    requires Sealed(s, bios) && Agree(s, {}) && id in s.dispatch
    ensures Sealed(Take(s, id), bios)
  {
    TakeEffect(s, id);
    hide Take, Agree;
    var t := Take(s, id);
    if j :| j in s.dispatch && j in s.rqs && s.rqs[j].bios == bios {
      if j != id {
        assert j in t.dispatch && t.rqs[j].bios == bios;
      }
    }
  }

  lemma MergedIntoSealed(s: Sched, t: Sched, b: Bio, id: Id, r: Rq, gone: set<Id>, bios: seq<Bio>)
    requires MergedInto(s, t, b, id, r, gone) && Sealed(s, bios) && Agree(s, {})
    requires Queued(s, id) && forall g :: g in gone ==> Queued(s, g)
    ensures Sealed(t, bios)
  {
    hide SideOk, PlacesOk, HashOk, Ordered, FreshHash, Calm;
    SealedKept(s, t, bios);
  }

  lemma NewRequestSealed(s: Sched, b: Bio, id: Id, bios: seq<Bio>)
    requires Sealed(s, bios) && Agree(s, {}) && id !in s.rqs
    ensures Sealed(NewRequest(s, b, id), bios)
  {
    hide SideOk, PlacesOk, HashOk, Ordered, FreshHash, Calm, NewRequest;
    NewRequestFrame(s, b, id);
    SealedKept(s, NewRequest(s, b, id), bios);
  }

  lemma MergeBranchSealed(s: Sched, b: Bio, kind: MergeKind, id: Id, joinFits: bool, bios: seq<Bio>)
    requires Sealed(s, bios) && Agree(s, {}) && Queued(s, id)
    ensures Sealed(BackMerged(s, id, b, joinFits), bios) && Sealed(FrontMerged(s, id, b, joinFits), bios)
  {
    hide SideOk, PlacesOk, HashOk, ListsOk, MergedInto, BackMerged, FrontMerged, Sealed, CanJoin, Latter, Former;
    BackMergedFrame(s, id, b, joinFits);
    FrontMergedFrame(s, id, b, joinFits);
    var n, p := BackJoin(s, id, b, joinFits), FrontJoin(s, id, b, joinFits);
    var r, q := GrowBack(s.rqs[id], b), GrowFront(s.rqs[id], b);
    if n.Some? {
      JoinedQueued(s, id, n.value);
      MergedIntoSealed(s, BackMerged(s, id, b, joinFits), b, id, Absorb(r, s.rqs[n.value]), {n.value}, bios);
    } else {
      MergedIntoSealed(s, BackMerged(s, id, b, joinFits), b, id, r, {}, bios);
    }
    if p.Some? {
      JoinedQueued(s, id, p.value);
      MergedIntoSealed(s, FrontMerged(s, id, b, joinFits), b, p.value, Absorb(s.rqs[p.value], q), {id}, bios);
    } else {
      MergedIntoSealed(s, FrontMerged(s, id, b, joinFits), b, id, q, {}, bios);
    }
  }

  lemma JoinedQueued(s: Sched, id: Id, n: Id)
    requires Agree(s, {}) && Queued(s, id) && (Latter(s, id) == Some(n) || Former(s, id) == Some(n))
    ensures Queued(s, n)
  {
    hide HashOk, ListsOk;
    var d := s.rqs[id].dir;
    assert SideOk(s, d);
    TreeMeansFifo(s, d, s.rqs[n].rbKey, {});
  }

  lemma SubmitSealed(s: Sched, b: Bio, id: Id, segsFit: bool, joinFits: bool, bios: seq<Bio>)
    requires Good(s) && OnDevice(s) && Enabled(s, Submit(b, id, segsFit, joinFits)) && Sealed(s, bios)
    ensures Sealed(MakeRequest(s, b, id, segsFit, joinFits), bios)
  {
    hide SideOk, PlacesOk, HashOk, ListsOk, FreshHash, Ordered, ContentOk, Owned, OnDevice, Calm,
         NewRequest, BackMerged, FrontMerged, Merge, Sealed;
    if Empty(s) || b.barrier || IoType(b) != BestEffort {
      NewRequestSealed(s, b, id, bios);
    } else {
      MergeSound(s, b);
      MergeRest(s, b);
      var a := Merge(s, b);
      var u := a.state;
      LookupSealed(s, u, bios);
      if a.kind.NoMerge? {
        NewRequestSealed(u, b, id, bios);
      } else {
        var q := a.target.value;
        MergeBranchSealed(u, b, a.kind, q, joinFits, bios);
        RefuseRest(u, q);
        RefusedSealed(u, q, bios);
        NewRequestSealed(RefuseMerge(u, q), b, id, bios);
      }
    }
  }

  lemma LookupSealed(s: Sched, t: Sched, bios: seq<Bio>)
    requires Sealed(s, bios) && Agree(s, {}) && t.rqs.Keys == s.rqs.Keys && t.dispatch == s.dispatch
    requires SameButHash(s, t.(lastMerge := s.lastMerge))
    ensures Sealed(t, bios)
  {
    hide SideOk, PlacesOk, HashOk;
    SealedKept(s, t, bios);
  }

  lemma RefusedSealed(s: Sched, id: Id, bios: seq<Bio>)
    requires Sealed(s, bios) && Agree(s, {}) && id in s.rqs
    ensures Sealed(RefuseMerge(s, id), bios)
  {
    hide SideOk, PlacesOk, HashOk;
    SealedKept(s, RefuseMerge(s, id), bios);
  }

  /** No event changes the chain of a request that has been dispatched. */
  lemma StepSealed(s: Sched, e: Event, bios: seq<Bio>)
    requires Good(s) && Enabled(s, e) && Sealed(s, bios)
    ensures Sealed(Step(s, e), bios)
  {
    hide SideOk, PlacesOk, HashOk, FreshHash, Ordered, ContentOk, Owned, MakeRequest, Fetch, Take, Sealed;
    match e
    case Tick(n) => SealedKept(s, Step(s, e), bios);
    case Submit(b, id, segsFit, joinFits) =>
      ContentOnDevice(s);
      SubmitSealed(s, b, id, segsFit, joinFits, bios);
    case FetchNext =>
      FetchRest(s);
      SealedKept(s, Step(s, e), bios);
    case Dequeue(id) => TakeSealed(s, id, bios);
  }

  /**
   No later bio merges into a request from before the barrier: whatever is dispatched
   reaches the driver with exactly the bios it has.
   */
  lemma {:induction false} SealedForever(s: Sched, es: seq<Event>, bios: seq<Bio>)
    requires Good(s) && Legal(s, es) && Sealed(s, bios)
    ensures Sealed(Exec(s, es), bios)
    decreases |es|
  {
    hide Good, Step, Enabled, Sealed;
    if es != [] {
      StepGood(s, es[0]);
      StepSealed(s, es[0], bios);
      SealedForever(Step(s, es[0]), es[1..], bios);
    }
  }

  /** After a barrier every request there is has been dispatched, or waits in ucsb_queue. */
  lemma BarrierSealsAll(s: Sched, b: Bio, id: Id, segsFit: bool, joinFits: bool, j: Id)
    requires Good(s) && Enabled(s, Submit(b, id, segsFit, joinFits)) && b.barrier
    requires j in Step(s, Submit(b, id, segsFit, joinFits)).rqs
    ensures var t := Step(s, Submit(b, id, segsFit, joinFits));
      j in t.ucsb || Sealed(t, t.rqs[j].bios)
  {
    hide SideOk, HashOk, Ordered, ContentOk, Owned, Step, Enabled, FreshHash;
    BarrierDrains(s, b, id, segsFit, joinFits);
    StepGood(s, Submit(b, id, segsFit, joinFits));
    assert PlacedOk(Step(s, Submit(b, id, segsFit, joinFits)), j);
  }

  /**
   The exception: ucsb_queue is not drained.  A QoS request that was waiting still waits
   after the barrier, so it is the driver's after it; together with BarrierDrains this
   says exactly which requests a barrier orders.
   */
  lemma BarrierPassesQos(s: Sched, b: Bio, id: Id, segsFit: bool, joinFits: bool, j: Id)
    requires Good(s) && Enabled(s, Submit(b, id, segsFit, joinFits)) && b.barrier && j in s.rqs
    ensures var t := Step(s, Submit(b, id, segsFit, joinFits));
      && t.ucsb == s.ucsb && j in t.rqs
      && (j in t.dispatch <==> j !in s.ucsb)
  {
    hide SideOk, HashOk, Ordered, ContentOk, Owned, Drain;
    ContentOnDevice(s);
    AdmittedSettled(s, b, id);
    var u := Admitted(s, b, id);
    var v := u.(hashGen := NextGen(u.hashGen), lastMerge := None);
    NewGenSettled(u, {id});
    DrainAgree(v, {id});
    InsertBarrierAgree(u, id);
    var t := Step(s, Submit(b, id, segsFit, joinFits));
    AllGone(t);
    assert PlacedOk(t, j);
  }
}
