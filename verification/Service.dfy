/** Work conservation: what deadline_next_request promises a driver that keeps asking. */
module Service {
  import opened Types
  import opened Scheduler
  import opened BlockQueue
  import opened Runs

  /** The number of requests waiting for the driver. */
  function Pending(s: Sched): nat {
    |s.fifo.rd| + |s.fifo.wr| + |s.ucsb| + |s.dispatch|
  }

  /**
   deadline_queue_empty looks at four lists only, and answers for every request there is:
   the queue is empty exactly when the scheduler holds no request at all.
   */
  lemma EmptyMeansNone(s: Sched)
    requires Agree(s, {})
    ensures Empty(s) <==> s.rqs == map[]
    ensures Empty(s) <==> Pending(s) == 0
  {
    forall id | id in s.rqs ensures Queued(s, id) || id in s.dispatch || id in s.ucsb {
      assert PlacedOk(s, id);
    }
    assert s.dispatch != [] ==> s.dispatch[0] in s.dispatch;
    assert s.ucsb != [] ==> s.ucsb[0] in s.ucsb;
    forall d: Dir | s.fifo.At(d) != [] && SideOk(s, d) ensures s.rqs != map[] {
      assert s.fifo.At(d)[0] in s.fifo.At(d);
    }
    assert s.fifo.rd == s.fifo.At(Read) && s.fifo.wr == s.fifo.At(Write);
  }

  /** The one way to be stuck: only QoS requests wait, and the first has a negative priority. */
  predicate Stuck(s: Sched) {
    && s.dispatch == [] && s.fifo.rd == [] && s.fifo.wr == []
    && s.ucsb != [] && s.ucsb[0] in s.rqs && QosKey(s.rqs[s.ucsb[0]]).priority < 0
  }

  lemma FifoLess(l: seq<Id>, id: Id)
    requires NoDup(l) && id in l
    ensures |Without(l, id)| == |l| - 1
  {
    var i :| 0 <= i < |l| && l[i] == id;
    WithoutAt(l, i);
  }

  lemma DispatchPending(s: Sched)
    requires Agree(s, {}) && SelectRequest(s, {}).choice.Some?
    ensures var t := DispatchRequests(s, {});
      Pending(t) == Pending(s) && t.dispatch != [] && t.ucsb == s.ucsb
  {
    hide PlacesOk, HashOk, ListsOk, SelectRequest;
    DispatchAgree(s, {});
    var id := SelectRequest(s, {}).choice.value.0;
    var d := s.rqs[id].dir;
    assert SideOk(s, d);
    FifoLess(s.fifo.At(d), id);
  }

  /**
   deadline_next_request hands out nothing exactly when the queue is empty or stuck; it
   moves requests about but loses none.
   */
  lemma NextRequestServes(s: Sched)
    requires Agree(s, {})
    ensures NextRequest(s).dispatch == [] <==> Empty(s) || Stuck(s)
    ensures Pending(NextRequest(s)) == Pending(s)
  {
    hide PlacesOk, HashOk, SideOk, SelectRequest, DispatchRequests;
    SelectedQueued(s, {});
    if SelectRequest(s, {}).choice.Some? { DispatchPending(s); }
  }

  /**
   Who goes first when the dispatch list has run dry: a QoS request of priority 16 or more,
   then best effort, then background QoS.
   */
  lemma ServiceOrder(s: Sched)
    requires Agree(s, {}) && s.dispatch == [] && NextRequest(s).dispatch != []
    ensures var id := NextRequest(s).dispatch[0];
      && (s.ucsb != [] && QosKey(s.rqs[s.ucsb[0]]).priority >= UCSB_DEF_PRIORITY ==> id == s.ucsb[0])
      && (Queued(s, id) ==> s.ucsb == [] || QosKey(s.rqs[s.ucsb[0]]).priority < UCSB_DEF_PRIORITY)
      && (id in s.ucsb && QosKey(s.rqs[id]).priority < UCSB_DEF_PRIORITY ==>
            id == s.ucsb[0] && s.fifo.rd == [] && s.fifo.wr == [])
      && (Queued(s, id) || (s.ucsb != [] && id == s.ucsb[0]))
  {
    hide PlacesOk, HashOk, SideOk, SelectRequest;
    SelectedQueued(s, {});
    if SelectRequest(s, {}).choice.Some? { DispatchAgree(s, {}); }
  }

  /** Choosing the next request starts nobody. */
  lemma ChoiceStarts(s: Sched)
    requires Agree(s, {})
    ensures var t := NextRequest(s);
      t.rqs.Keys == s.rqs.Keys && forall j :: j in s.rqs ==> t.rqs[j].started == s.rqs[j].started
  {
    hide PlacesOk, HashOk, SideOk, SelectRequest, DispatchRequests;
    if SelectRequest(s, {}).choice.Some? { DispatchAgree(s, {}); }
  }

  /** The request handed to the driver is marked as started and is not last_merge; no other is marked. */
  lemma FetchStarts(s: Sched)
    requires Agree(s, {})
    ensures var t := Fetch(s);
      t.dispatch != [] ==>
        && t.dispatch[0] in t.rqs && t.rqs[t.dispatch[0]].started && t.lastMerge != Some(t.dispatch[0])
        && t.rqs.Keys == s.rqs.Keys
        && forall j :: j in s.rqs && j != t.dispatch[0] ==> t.rqs[j].started == s.rqs[j].started
  {
    ChoiceStarts(s);
    NextRequestAgree(s);
    hide PlacesOk, HashOk, SideOk, NextRequest;
  }

  /** One round of a driver: fetch a request and dequeue it, if there is one. */
  ghost function Serve(s: Sched): Sched
    requires Agree(s, {})
  {
    FetchAgree(s);
    var t := Fetch(s);
    if t.dispatch == [] then t else Take(t, t.dispatch[0])
  }

  ghost function Rounds(s: Sched, n: nat): Sched
    requires Agree(s, {})
    decreases n
  {
    if n == 0 then s
    else
      ServeAgree(s);
      Rounds(Serve(s), n - 1)
  }

  lemma ServeAgree(s: Sched)
    requires Agree(s, {})
    ensures Agree(Serve(s), {})
  {
    hide Agree, Fetch, Take;
    FetchAgree(s);
    var t := Fetch(s);
    if t.dispatch != [] { TakeAgree(t, t.dispatch[0]); }
  }

  ghost predicate NonNegative(s: Sched) {
    forall id :: id in s.ucsb && id in s.rqs ==> QosKey(s.rqs[id]).priority >= 0
  }

  lemma FetchShape(s: Sched)
    requires Agree(s, {})
    ensures var t := Fetch(s); var u := NextRequest(s);
      && t.dispatch == u.dispatch && t.fifo == u.fifo && t.ucsb == u.ucsb && t.rqs.Keys == u.rqs.Keys
      && (forall j :: j in t.rqs ==> t.rqs[j].bios == u.rqs[j].bios)
  {
    hide NextRequest, Agree;
  }

  lemma NextShape(s: Sched)
    requires Agree(s, {})
    ensures var u := NextRequest(s);
      && (forall j :: j in u.ucsb ==> j in s.ucsb)
      && (forall j :: j in u.rqs ==> j in s.rqs && u.rqs[j].bios == s.rqs[j].bios)
  {
    hide SideOk, PlacesOk, HashOk, SelectRequest, DispatchRequests;
    if SelectRequest(s, {}).choice.Some? { DispatchPending(s); }
    NextRequestRest(s);
  }

  /** A round keeps priorities non-negative and takes exactly one request off a non-empty queue. */
  lemma ServeOne(s: Sched)
    requires Agree(s, {}) && NonNegative(s)
    ensures NonNegative(Serve(s))
    ensures Pending(Serve(s)) == if Pending(s) == 0 then 0 else Pending(s) - 1
  {
    hide PlacesOk, HashOk, SideOk, Fetch, NextRequest, Take;
    FetchAgree(s);
    FetchShape(s);
    NextShape(s);
    NextRequestServes(s);
    var t := Fetch(s);
    assert s.ucsb != [] ==> s.ucsb[0] in s.ucsb && s.ucsb[0] in s.rqs;
    assert !Stuck(s);
    if t.dispatch != [] {
      TakeEffect(t, t.dispatch[0]);
      FifoLess(t.dispatch, t.dispatch[0]);
    }
  }

  /** With non-negative priorities, n pending requests are served in n rounds. */
  lemma {:induction false} ServesAll(s: Sched, n: nat)
    requires Agree(s, {}) && NonNegative(s) && n == Pending(s)
    ensures Empty(Rounds(s, n))
    decreases n
  {
    hide Agree, Serve, NonNegative;
    if n > 0 {
      ServeAgree(s);
      ServeOne(s);
      ServesAll(Serve(s), n - 1);
    }
  }
}
