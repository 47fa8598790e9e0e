/**
 What the scheduler's operations leave alone.  Kept is the frame shared by all of them;
 Ordered collects the two orders they maintain, of each FIFO by expiry and of each sweep
 by sector.
 */
module Frames {
  import opened Types
  import opened Elevator
  import opened SortTree
  import opened Scheduler
  import opened Merging

  /** The parts of a request that describe its I/O; indexing never touches them. */
  predicate SameIo(r: Rq, q: Rq) {
    && r.bios == q.bios && r.dir == q.dir && r.disk == q.disk && r.sector == q.sector && r.nr == q.nr
    && r.barrier == q.barrier && r.nomerge == q.nomerge && r.waiting == q.waiting && r.special == q.special
    && r.started == q.started
  }

  /** t comes from s by indexing work; only requests in w may have become queued. */
  ghost predicate Kept(s: Sched, t: Sched, w: set<Id>) {
    && t.cfg == s.cfg && t.now == s.now && t.hashGen == s.hashGen
    && t.submitted == s.submitted && t.taken == s.taken && t.ucsb == s.ucsb
    && s.log <= t.log && s.dispatch <= t.dispatch
    && t.rqs.Keys <= s.rqs.Keys
    && (forall j :: j in t.rqs ==> SameIo(t.rqs[j], s.rqs[j])
                                   && (t.rqs[j].gen == 0 || t.rqs[j].gen == s.rqs[j].gen || t.rqs[j].gen == s.hashGen)
                                   && (Queued(t, j) ==> Queued(s, j) || j in w))
  }

  lemma KeptTrans(s: Sched, t: Sched, u: Sched, w: set<Id>)
    requires Kept(s, t, w) && Kept(t, u, w)
    ensures Kept(s, u, w)
  {
  }

  lemma KeptFresh(s: Sched, t: Sched, w: set<Id>)
    requires Kept(s, t, w) && FreshHash(s)
    ensures FreshHash(t)
  {
  }

  /** Whether an entry was chosen by deadline_dispatch_requests. */
  predicate Scheduled(e: Entry) {
    e.how.Sweep? || e.how.Restart?
  }

  /** No dispatching decision lies between s and t. */
  ghost predicate Calm(s: Sched, t: Sched) {
    && t.batching == s.batching && t.starved == s.starved && t.cfg == s.cfg
    && s.log <= t.log && forall i :: |s.log| <= i < |t.log| ==> !Scheduled(t.log[i])
  }

  lemma CalmTrans(s: Sched, t: Sched, u: Sched)
    requires Calm(s, t) && Calm(t, u)
    ensures Calm(s, u)
  {
    forall i | |s.log| <= i < |u.log| ensures !Scheduled(u.log[i]) {
      if i < |t.log| { assert u.log[i] == t.log[i]; }
    }
  }

  // ------------------------------------------------------------------ the two orders

  ghost predicate ByExpiry(l: seq<Id>, rqs: map<Id, Rq>) {
    forall i, j :: 0 <= i < j < |l| && l[i] in rqs && l[j] in rqs ==> rqs[l[i]].expires <= rqs[l[j]].expires
  }

  /** The FIFO of a direction is ordered by expiry, and nothing in it expires too late. */
  ghost predicate FifoOk(s: Sched, d: Dir) {
    ByExpiry(s.fifo.At(d), s.rqs)
    && (forall id :: id in s.fifo.At(d) && id in s.rqs ==> s.rqs[id].expires <= s.now + s.cfg.fifoExpire.At(d))
  }

  /** The last entry that went through deadline_move_request. */
  function LastMoved(log: seq<Entry>): Option<Entry> {
    if log == [] then None
    else
      var e := log[|log| - 1];
      if Scheduled(e) || e.how.Alias? then Some(e) else LastMoved(log[..|log| - 1])
  }

  /** e continues the sweep that the earlier entry p belongs to. */
  predicate Continues(p: Option<Entry>, e: Entry) {
    p.Some? && p.value.dir == e.dir && p.value.key < e.key
  }

  /** One-way elevator: every entry taken through next_drq lies above the one moved before it. */
  ghost predicate SweepLog(log: seq<Entry>) {
    forall i :: 0 <= i < |log| && log[i].how.Sweep? ==> Continues(LastMoved(log[..i]), log[i])
  }

  ghost predicate NextAhead(s: Sched, d: Dir) {
    s.next.At(d).Some? ==>
      s.next.At(d).value in s.rqs
      && LastMoved(s.log).Some? && LastMoved(s.log).value.dir == d
      && LastMoved(s.log).value.key < s.rqs[s.next.At(d).value].rbKey
  }

  /** The last move was in direction d, below key k. */
  predicate MovedBelow(log: seq<Entry>, d: Dir, k: nat) {
    LastMoved(log).Some? && LastMoved(log).value.dir == d && LastMoved(log).value.key < k
  }

  /** Key k lies below next_drq, or there is no next_drq. */
  predicate BeforeNext(s: Sched, d: Dir, k: nat) {
    s.next.At(d).Some? ==> s.next.At(d).value in s.rqs && k < s.rqs[s.next.At(d).value].rbKey
  }

  /**
   Nobody is left between the request moved last and the next one, in their direction, but
   those linked since that move.
   */
  ghost predicate NoneSkipped(s: Sched, d: Dir) {
    forall k :: k in s.sort.At(d) && MovedBelow(s.log, d, k) && BeforeNext(s, d, k) ==> s.sort.At(d)[k] in s.linked
  }

  ghost predicate Sweeps(s: Sched) {
    && NextAhead(s, Read) && NextAhead(s, Write) && NoneSkipped(s, Read) && NoneSkipped(s, Write)
    && SweepLog(s.log)
  }

  ghost predicate Ordered(s: Sched) {
    FifoOk(s, Read) && FifoOk(s, Write) && Sweeps(s)
  }

  /** n stays in the request table, under the same key. */
  predicate KeyKept(s: Sched, t: Sched, n: Id) {
    n in s.rqs ==> n in t.rqs && t.rqs[n].rbKey == s.rqs[n].rbKey
  }

  /** Nothing that the sweeps depend on differs between s and t. */
  ghost predicate SameSweeps(s: Sched, t: Sched) {
    && t.next == s.next && t.sort == s.sort && t.log == s.log && t.linked == s.linked
    && (s.next.rd.Some? ==> KeyKept(s, t, s.next.rd.value))
    && (s.next.wr.Some? ==> KeyKept(s, t, s.next.wr.value))
  }

  lemma SweepsSame(s: Sched, t: Sched)
    requires SameSweeps(s, t) && Sweeps(s)
    ensures Sweeps(t)
  {
    hide SweepLog, LastMoved;
    forall d: Dir | NextAhead(s, d) && NoneSkipped(s, d) ensures NextAhead(t, d) && NoneSkipped(t, d) {
      assert forall k :: BeforeNext(t, d, k) == BeforeNext(s, d, k);
    }
  }

  /** The FIFOs keep their members, and these their expiries. */
  ghost predicate SameFifos(s: Sched, t: Sched) {
    && t.fifo == s.fifo && s.now <= t.now && t.cfg == s.cfg
    && forall j :: (j in s.fifo.rd || j in s.fifo.wr) && j in t.rqs ==>
                     j in s.rqs && t.rqs[j].expires == s.rqs[j].expires
  }

  lemma OrdersSame(s: Sched, t: Sched)
    requires SameFifos(s, t) && SameSweeps(s, t) && Ordered(s)
    ensures Ordered(t)
  {
    FifosSame(s, t);
    hide Sweeps, SameSweeps;
    SweepsSame(s, t);
  }

  lemma FifosSame(s: Sched, t: Sched)
    requires SameFifos(s, t) && FifoOk(s, Read) && FifoOk(s, Write)
    ensures FifoOk(t, Read) && FifoOk(t, Write)
  {
    ByExpirySameTimes(s.fifo.rd, s.rqs, t.rqs);
    ByExpirySameTimes(s.fifo.wr, s.rqs, t.rqs);
  }

  lemma SweepLogAppend(log: seq<Entry>, e: Entry)
    requires SweepLog(log) && (e.how.Sweep? ==> Continues(LastMoved(log), e))
    ensures SweepLog(log + [e])
    ensures LastMoved(log + [e]) == if Scheduled(e) || e.how.Alias? then Some(e) else LastMoved(log)
  {
    var l := log + [e];
    assert l[..|l| - 1] == log;
    forall i | 0 <= i < |l| && l[i].how.Sweep? ensures Continues(LastMoved(l[..i]), l[i]) {
      if i < |log| { assert l[..i] == log[..i]; }
    }
  }

  // ---------------------------------------------------------- Move, the one dispatcher

  lemma MovedKept(s: Sched, id: Id, how: How, w: set<Id>)
    requires Movable(s, id)
    ensures Kept(s, Moved(s, id, how), w)
  {
  }

  lemma MovedCalm(s: Sched, id: Id)
    requires Movable(s, id)
    ensures Calm(s, Moved(s, id, Alias))
  {
  }

  lemma ByExpiryCons(x: Id, l: seq<Id>, rqs: map<Id, Rq>)
    ensures ByExpiry([x] + l, rqs) <==>
              ByExpiry(l, rqs) && forall y :: y in l && x in rqs && y in rqs ==> rqs[x].expires <= rqs[y].expires
  {
    var r := [x] + l;
    if ByExpiry(r, rqs) {
      forall i, j | 0 <= i < j < |l| && l[i] in rqs && l[j] in rqs ensures rqs[l[i]].expires <= rqs[l[j]].expires {
        assert r[i + 1] == l[i] && r[j + 1] == l[j];
      }
      forall y | y in l && x in rqs && y in rqs ensures rqs[x].expires <= rqs[y].expires {
        var k :| 0 <= k < |l| && l[k] == y;
        assert r[0] == x && r[k + 1] == y;
      }
    }
    if ByExpiry(l, rqs) && forall y :: y in l && x in rqs && y in rqs ==> rqs[x].expires <= rqs[y].expires {
      forall i, j | 0 <= i < j < |r| && r[i] in rqs && r[j] in rqs ensures rqs[r[i]].expires <= rqs[r[j]].expires {
        assert r[j] == l[j - 1] && (i > 0 ==> r[i] == l[i - 1]);
      }
    }
  }

  lemma {:induction false} WithoutOrder(l: seq<Id>, x: Id, rqs: map<Id, Rq>)
    requires ByExpiry(l, rqs)
    ensures ByExpiry(Without(l, x), rqs)
  {
    if l != [] {
      assert l == [l[0]] + l[1..];
      ByExpiryCons(l[0], l[1..], rqs);
      WithoutOrder(l[1..], x, rqs);
      ByExpiryCons(l[0], Without(l[1..], x), rqs);
    }
  }

  /** A FIFO with members left out, and expiries unchanged for those that stay. */
  lemma FifoShrunk(s: Sched, t: Sched, d: Dir, x: Id)
    requires FifoOk(s, d) && t.fifo.At(d) == Without(s.fifo.At(d), x) && t.now == s.now && t.cfg == s.cfg
    requires forall j :: j in t.rqs ==> j in s.rqs && t.rqs[j].expires == s.rqs[j].expires
    ensures FifoOk(t, d)
  {
    WithoutOrder(s.fifo.At(d), x, s.rqs);
  }

  lemma FifoSame(s: Sched, t: Sched, d: Dir)
    requires FifoOk(s, d) && t.fifo.At(d) == s.fifo.At(d) && t.now == s.now && t.cfg == s.cfg
    requires forall j :: j in t.rqs ==> j in s.rqs && t.rqs[j].expires == s.rqs[j].expires
    ensures FifoOk(t, d)
  {
  }

  lemma MovedFifos(s: Sched, id: Id, how: How)
    requires Movable(s, id) && FifoOk(s, Read) && FifoOk(s, Write)
    ensures var t := Moved(s, id, how); FifoOk(t, Read) && FifoOk(t, Write)
  {
    hide FifoOk;
    var t, d := Moved(s, id, how), s.rqs[id].dir;
    FifoShrunk(s, t, d, id);
    FifoSame(s, t, d.Other());
  }

  /** After a move the next request in the tree is the nearest one above. */
  lemma MovedSweeps(s: Sched, id: Id, how: How)
    requires Movable(s, id) && Sweeps(s) && SideOk(s, s.rqs[id].dir)
    requires !how.QosHead? && !how.Barrier?
    requires how.Sweep? ==> s.next.At(s.rqs[id].dir) == Some(id)
    ensures Sweeps(Moved(s, id, how))
  {
    hide SweepLog, LastMoved;
    var t, d := Moved(s, id, how), s.rqs[id].dir;
    SweepLogAppend(s.log, Entry(id, d, s.rqs[id].rbKey, how, s.fifo.At(d.Other()) != [], InLine(s)));
    var k := Succ(s.sort.At(d), s.rqs[id].rbKey);
    assert k.Some? ==> s.sort.At(d)[k.value] != id;
    assert t.next.At(d.Other()) == None;
    assert NextAhead(t, d) && NextAhead(t, d.Other()) && NoneSkipped(t, d) && NoneSkipped(t, d.Other());
  }

  /** next_drq may be used for a Sweep; any other reason is free. */
  lemma MovedOrdered(s: Sched, id: Id, how: How)
    requires Movable(s, id) && Ordered(s) && SideOk(s, s.rqs[id].dir)
    requires !how.QosHead? && !how.Barrier?
    requires how.Sweep? ==> s.next.At(s.rqs[id].dir) == Some(id)
    ensures Ordered(Moved(s, id, how))
  {
    hide FifoOk, Sweeps, Moved;
    MovedFifos(s, id, how);
    MovedSweeps(s, id, how);
  }

  // ------------------------------------------------------- the other building blocks

  /** t differs from s only in the hash, last_merge, and what the hash says of requests. */
  ghost predicate HashWork(s: Sched, t: Sched) {
    && t == s.(rqs := t.rqs, hash := t.hash, lastMerge := t.lastMerge)
    && t.rqs.Keys == s.rqs.Keys
    && forall j :: j in s.rqs ==>
         t.rqs[j] == s.rqs[j].(gen := t.rqs[j].gen, slot := t.rqs[j].slot)
         && (t.rqs[j].gen == 0 || t.rqs[j].gen == s.rqs[j].gen || t.rqs[j].gen == s.hashGen)
  }

  /** The three frames together. */
  ghost predicate Framed(s: Sched, t: Sched, w: set<Id>) {
    Kept(s, t, w) && Calm(s, t) && (Ordered(s) ==> Ordered(t))
  }

  lemma FramedTrans(s: Sched, t: Sched, u: Sched, w: set<Id>)
    requires Framed(s, t, w) && Framed(t, u, w)
    ensures Framed(s, u, w)
  {
    hide Ordered, Kept, Calm;
    KeptTrans(s, t, u, w);
    CalmTrans(s, t, u);
  }

  lemma HashWorkFramed(s: Sched, t: Sched, w: set<Id>)
    requires HashWork(s, t)
    ensures Framed(s, t, w)
  {
    if Ordered(s) { OrdersSame(s, t); }
  }

  lemma RehashFramed(s: Sched, id: Id, w: set<Id>)
    requires id in s.rqs && HashOk(s)
    ensures Framed(s, Rehash(s, id), w)
  {
    hide NoDup, Without, HashFn, End, Kept;
    HashWorkFramed(s, Rehash(s, id), w);
  }

  lemma DelRbSweeps(s: Sched, id: Id)
    requires id in s.rqs && SideOk(s, s.rqs[id].dir) && Sweeps(s)
    ensures Sweeps(DelRb(s, id))
  {
    hide SweepLog, LastMoved;
    var t, d := DelRb(s, id), s.rqs[id].dir;
    var k := Succ(s.sort.At(d), s.rqs[id].rbKey);
    assert NextAhead(t, d) && NoneSkipped(t, d);
    assert t.next.At(d.Other()) == s.next.At(d.Other()) && t.sort.At(d.Other()) == s.sort.At(d.Other());
    assert NextAhead(t, d.Other()) && NoneSkipped(t, d.Other());
  }

  lemma DelRbFramed(s: Sched, id: Id, w: set<Id>)
    requires id in s.rqs && SideOk(s, s.rqs[id].dir)
    ensures Framed(s, DelRb(s, id), w)
  {
    hide Sweeps;
    if Ordered(s) {
      FifosSame(s, DelRb(s, id));
      DelRbSweeps(s, id);
    }
  }

  /** The alias is the one request evicted, and it goes as an Alias entry. */
  lemma EvictedFramed(s: Sched, d: Dir, k: nat, w: set<Id>)
    requires HashOk(s) && SideOk(s, d)
    requires k in s.sort.At(d) ==> Movable(s, s.sort.At(d)[k])
    ensures Framed(s, Evicted(s, d, k), w)
  {
    hide Ordered;
    if k in s.sort.At(d) {
      var a := s.sort.At(d)[k];
      MoveEffect(s, a, Alias);
      MovedKept(s, a, Alias, w);
      MovedCalm(s, a);
      if Ordered(s) { MovedOrdered(s, a, Alias); }
    }
  }

  lemma AddRbFramed(s: Sched, id: Id, w: set<Id>)
    requires Agree(s, {id}) && !OnSort(s, id)
    ensures Framed(s, AddRb(s, id), w)
  {
    var r, k, d := s.rqs[id], s.rqs[id].sector, s.rqs[id].dir;
    var s0 := s.(rqs := s.rqs[id := r.(rbKey := k)]);
    RekeyAgree(s, id, {id});
    RekeyFramed(s, id, w);
    hide Framed, AddRb, Evicted;
    AliasMovable(s0, id, k);
    EvictedFramed(s0, d, k, w);
    var s1 := Evicted(s0, d, k);
    EvictedAgree(s0, id, k, {id});
    LinkFramed(s1, id, k, w);
    FramedTrans(s, s0, s1, w);
    AddRbUnfold(s, id);
    FramedTrans(s, s1, AddRb(s, id), w);
  }

  lemma AddRbUnfold(s: Sched, id: Id)
    requires Agree(s, {id}) && !OnSort(s, id)
    ensures var s0 := s.(rqs := s.rqs[id := s.rqs[id].(rbKey := s.rqs[id].sector)]); var d := s.rqs[id].dir;
      && HashOk(s0) && (s.rqs[id].sector in s0.sort.At(d) ==> s0.sort.At(d)[s.rqs[id].sector] in s0.rqs)
      && var s1 := Evicted(s0, d, s.rqs[id].sector);
         AddRb(s, id) == LinkRb(s1, id, d, s.rqs[id].sector)
  {
  }

  lemma AliasMovable(s: Sched, id: Id, k: nat)
    requires Agree(s, {id}) && !OnSort(s, id)
    ensures var d := s.rqs[id].dir; k in s.sort.At(d) ==> Movable(s, s.sort.At(d)[k])
  {
    var d := s.rqs[id].dir;
    if k in s.sort.At(d) {
      assert SideOk(s, d);
      assert PlacedOk(s, s.sort.At(d)[k]);
    }
  }

  lemma RekeyFramed(s: Sched, id: Id, w: set<Id>)
    requires Agree(s, {id}) && !OnSort(s, id)
    ensures Framed(s, s.(rqs := s.rqs[id := s.rqs[id].(rbKey := s.rqs[id].sector)]), w)
  {
    hide PlacesOk, HashOk, Ordered;
    var t := s.(rqs := s.rqs[id := s.rqs[id].(rbKey := s.rqs[id].sector)]);
    assert SideOk(s, Read) && SideOk(s, Write);
    if Ordered(s) { OrdersSame(s, t); }
  }

  lemma LinkSweeps(s: Sched, id: Id, d: Dir, k: nat)
    requires Sweeps(s)
    ensures Sweeps(LinkRb(s, id, d, k))
  {
    hide SweepLog, LastMoved;
    var t := LinkRb(s, id, d, k);
    forall e: Dir | NextAhead(s, e) && NoneSkipped(s, e) ensures NextAhead(t, e) && NoneSkipped(t, e) {
      assert forall j :: BeforeNext(t, e, j) == BeforeNext(s, e, j);
    }
  }

  lemma LinkFramed(s: Sched, id: Id, k: nat, w: set<Id>)
    requires id in s.rqs
    ensures Framed(s, LinkRb(s, id, s.rqs[id].dir, k), w)
  {
    hide Sweeps;
    if Ordered(s) {
      FifosSame(s, LinkRb(s, id, s.rqs[id].dir, k));
      LinkSweeps(s, id, s.rqs[id].dir, k);
    }
  }

  lemma RepositionFramed(s: Sched, id: Id, w: set<Id>)
    requires Agree(s, {id})
    ensures Framed(s, Reposition(s, id), w)
  {
    hide Framed, SideOk, PlacesOk, AddRb, DelRb;
    if s.rqs[id].sector != s.rqs[id].rbKey {
      assert s.rqs[id].dir.Read? || s.rqs[id].dir.Write?;
      DelRbFramed(s, id, w);
      DelRbAgree(s, id, {id});
      AddRbFramed(DelRb(s, id), id, w);
      FramedTrans(s, DelRb(s, id), Reposition(s, id), w);
    } else {
      HashWorkFramed(s, s, w);
    }
  }

  lemma MergedRequestFramed(s: Sched, id: Id, w: set<Id>)
    requires Agree(s, {id})
    ensures Framed(s, MergedRequest(s, id), w)
  {
    hide Framed, SideOk, PlacesOk, Rehash, Reposition;
    RehashFramed(s, id, w);
    RehashAgree(s, id, {id});
    RepositionFramed(Rehash(s, id), id, w);
    var t := Reposition(Rehash(s, id), id);
    HashWorkFramed(t, t.(lastMerge := Some(id)), w);
    FramedTrans(s, Rehash(s, id), t, w);
    FramedTrans(s, t, MergedRequest(s, id), w);
  }

  // --------------------------------------------------------- FIFO entry and the splice

  lemma {:induction false} AppendByExpiry(l: seq<Id>, x: Id, rqs: map<Id, Rq>)
    requires ByExpiry(l, rqs) && x in rqs
    requires forall y :: y in l && y in rqs ==> rqs[y].expires <= rqs[x].expires
    ensures ByExpiry(l + [x], rqs)
  {
    var r := l + [x];
    forall i, j | 0 <= i < j < |r| && r[i] in rqs && r[j] in rqs ensures rqs[r[i]].expires <= rqs[r[j]].expires {
      if j < |l| { assert r[i] == l[i] && r[j] == l[j]; } else { assert r[i] in l; }
    }
  }

  lemma ByExpirySameTimes(l: seq<Id>, rqs: map<Id, Rq>, qs: map<Id, Rq>)
    requires ByExpiry(l, rqs)
    requires forall j :: j in l && j in qs ==> j in rqs && qs[j].expires == rqs[j].expires
    ensures ByExpiry(l, qs)
  {
    forall i, j | 0 <= i < j < |l| && l[i] in qs && l[j] in qs ensures qs[l[i]].expires <= qs[l[j]].expires {
      assert l[i] in l && l[j] in l;
    }
  }

  lemma ToFifoOrder(s: Sched, id: Id, d: Dir)
    requires id in s.rqs && s.rqs[id].dir == d && !Queued(s, id) && SideOk(s, Read) && SideOk(s, Write)
    requires FifoOk(s, Read) && FifoOk(s, Write)
    ensures var t := ToFifo(s, id); FifoOk(t, Read) && FifoOk(t, Write)
  {
    var t, l := ToFifo(s, id), s.fifo.At(d);
    ByExpirySameTimes(l, s.rqs, t.rqs);
    AppendByExpiry(l, id, t.rqs);
    assert FifoOk(t, d);
    assert FifoOk(t, d.Other()) by {
      assert SideOk(s, d.Other()) && FifoOk(s, d.Other());
      ByExpirySameTimes(s.fifo.At(d.Other()), s.rqs, t.rqs);
    }
  }

  /** A newcomer expires no earlier than anyone waiting: the clock does not run backwards. */
  lemma ToFifoFramed(s: Sched, id: Id)
    requires id in s.rqs && !Queued(s, id) && SideOk(s, Read) && SideOk(s, Write)
    ensures var t := ToFifo(s, id);
      Kept(s, t, {id}) && Calm(s, t) && (Ordered(s) ==> Ordered(t))
  {
    hide Sweeps;
    var t, d := ToFifo(s, id), s.rqs[id].dir;
    if Ordered(s) {
      ToFifoOrder(s, id, d);
      SweepsSame(s, t);
    }
  }

  lemma {:induction false} InsertAfterOrder(l: seq<Id>, y: Id, x: Id, rqs: map<Id, Rq>)
    requires ByExpiry(l, rqs) && y in l && x in rqs && y in rqs && rqs[x].expires == rqs[y].expires
    ensures ByExpiry(InsertAfter(l, y, x), rqs)
  {
    hide ByExpiry;
    var r := InsertAfter(l, y, x);
    assert l == [l[0]] + l[1..];
    ByExpiryCons(l[0], l[1..], rqs);
    if l[0] == y {
      ByExpiryCons(x, l[1..], rqs);
      ByExpiryCons(y, [x] + l[1..], rqs);
      assert r == [y] + ([x] + l[1..]);
    } else {
      InsertAfterOrder(l[1..], y, x, rqs);
      ByExpiryCons(l[0], InsertAfter(l[1..], y, x), rqs);
    }
  }

  lemma SpliceOrder(s: Sched, id: Id, nx: Id)
    requires Queued(s, id) && Queued(s, nx) && id != nx && s.rqs[id].dir == s.rqs[nx].dir
    requires FifoOk(s, s.rqs[id].dir) && s.rqs[nx].expires < s.rqs[id].expires
    ensures FifoOk(InheritExpiry(s, id, nx), s.rqs[id].dir)
  {
    var t, d := InheritExpiry(s, id, nx), s.rqs[id].dir;
    var l := s.fifo.At(d);
    WithoutOrder(l, id, s.rqs);
    ByExpirySameTimes(Without(l, id), s.rqs, t.rqs);
    InsertAfterOrder(Without(l, id), nx, id, t.rqs);
  }

  lemma SpliceOther(s: Sched, id: Id, nx: Id, d: Dir)
    requires Queued(s, id) && Queued(s, nx) && SideOk(s, d) && d != s.rqs[id].dir
    requires FifoOk(s, d)
    ensures FifoOk(InheritExpiry(s, id, nx), d)
  {
    ByExpirySameTimes(s.fifo.At(d), s.rqs, InheritExpiry(s, id, nx).rqs);
  }

  lemma SpliceCalm(s: Sched, id: Id, nx: Id, w: set<Id>)
    requires id in s.rqs && nx in s.rqs && id != nx && s.rqs[id].dir == s.rqs[nx].dir
    ensures var t := InheritExpiry(s, id, nx);
      Kept(s, t, w) && Calm(s, t) && SameSweeps(s, t)
  {
  }

  /**
   The splice of deadline_merged_requests: a request takes the FIFO place and the expiry of
   a neighbour that is about to go, and the FIFO stays ordered.
   */
  lemma InheritExpiryFramed(s: Sched, id: Id, nx: Id, w: set<Id>)
    requires id in s.rqs && nx in s.rqs && id != nx && s.rqs[id].dir == s.rqs[nx].dir
    requires SideOk(s, Read) && SideOk(s, Write)
    ensures var t := InheritExpiry(s, id, nx);
      && Framed(s, t, w)
      && (Queued(s, id) && Queued(s, nx) ==>
            t.rqs[id].expires == if s.rqs[nx].expires < s.rqs[id].expires then s.rqs[nx].expires else s.rqs[id].expires)
  {
    hide Sweeps, FifoOk, SideOk, Kept, Calm, SameSweeps;
    SpliceCalm(s, id, nx, w);
    if Sweeps(s) { SweepsSame(s, InheritExpiry(s, id, nx)); }
    var d := s.rqs[id].dir;
    if Queued(s, id) && Queued(s, nx) && s.rqs[nx].expires < s.rqs[id].expires && Ordered(s) {
      SpliceOrder(s, id, nx);
      SpliceOther(s, id, nx, d.Other());
    }
  }

  lemma OutOfFifoFramed(s: Sched, nx: Id, w: set<Id>)
    requires nx in s.rqs
    ensures Framed(s, OutOfFifo(s, nx), w)
  {
    hide Sweeps, FifoOk;
    var t, d := OutOfFifo(s, nx), s.rqs[nx].dir;
    if Ordered(s) {
      FifoShrunk(s, t, d, nx);
      FifoSame(s, t, d.Other());
      SweepsSame(s, t);
    }
  }

  lemma ClearedFramed(s: Sched, nx: Id, x: set<Id>, w: set<Id>)
    requires Agree(s, x) && nx in x
    ensures Framed(s, Cleared(s, nx), w)
  {
    hide Framed, SideOk, PlacesOk, DelRb, HashWork;
    OutOfFifoFramed(s, nx, w);
    OutOfFifoAgree(s, nx, x);
    var s0 := OutOfFifo(s, nx);
    DelHashAgree(s0, nx, x);
    var s1 := DelHash(s0, nx);
    DelHashWork(s0, nx);
    HashWorkFramed(s0, s1, w);
    assert s1.rqs[nx].dir.Read? || s1.rqs[nx].dir.Write?;
    DelRbFramed(s1, nx, w);
    FramedTrans(s, s0, s1, w);
    FramedTrans(s, s1, DelRb(s1, nx), w);
  }

  lemma DelHashWork(s: Sched, id: Id)
    requires id in s.rqs && HashOk(s)
    ensures HashWork(s, DelHash(s, id))
  {
  }

  /** Leaving the request table: no list may still need the entry. */
  lemma ForgetFramed(s: Sched, nx: Id, w: set<Id>)
    requires nx in s.rqs && s.next.rd != Some(nx) && s.next.wr != Some(nx)
    ensures var t := s.(rqs := s.rqs - {nx}, lastMerge := if s.lastMerge == Some(nx) then None else s.lastMerge);
      Framed(s, t, w)
  {
    hide Ordered;
    var t := s.(rqs := s.rqs - {nx}, lastMerge := if s.lastMerge == Some(nx) then None else s.lastMerge);
    if Ordered(s) { OrdersSame(s, t); }
  }

  lemma DropUnfold(s: Sched, nx: Id, x: set<Id>)
    requires Agree(s, x) && nx in x
    ensures var c := Cleared(s, nx);
      && nx in c.rqs && c.next.rd != Some(nx) && c.next.wr != Some(nx)
      && Drop(s, nx) == c.(rqs := c.rqs - {nx}, lastMerge := if c.lastMerge == Some(nx) then None else c.lastMerge)
  {
    hide PlacesOk, Cleared, Remove;
    RemoveUnfold(s, nx);
    ClearedAgree(s, nx, x);
    var c := Cleared(s, nx);
    assert c == DelRb(DelHash(OutOfFifo(s, nx), nx), nx) by { ClearedIs(s, nx); }
    assert SideOk(c, Read) && SideOk(c, Write);
  }

  lemma ClearedIs(s: Sched, nx: Id)
    requires nx in s.rqs && HashOk(s)
    ensures Cleared(s, nx) == DelRb(DelHash(OutOfFifo(s, nx), nx), nx)
  {
  }

  lemma DropFramed(s: Sched, nx: Id, x: set<Id>, w: set<Id>)
    requires Agree(s, x) && nx in x
    ensures Framed(s, Drop(s, nx), w)
  {
    hide Framed, PlacesOk, Cleared, SideOk, Drop;
    DropUnfold(s, nx, x);
    ClearedFramed(s, nx, x, w);
    ForgetFramed(Cleared(s, nx), nx, w);
    FramedTrans(s, Cleared(s, nx), Drop(s, nx), w);
  }

  lemma MergedRequestsFramed(s: Sched, id: Id, nx: Id, w: set<Id>)
    requires Agree(s, {id, nx}) && id != nx && s.rqs[id].dir == s.rqs[nx].dir
    requires s.rqs[id].sector == s.rqs[id].rbKey
    ensures Framed(s, MergedRequests(s, id, nx), w)
  {
    hide Framed, SideOk, PlacesOk, Rehash, InheritExpiry, Drop;
    var x := {id, nx};
    RehashFramed(s, id, w);
    RehashAgree(s, id, x);
    var s1 := Rehash(s, id);
    RepositionIdle(s1, id);
    InheritExpiryFramed(s1, id, nx, w);
    InheritExpiryAgree(s1, id, nx, x);
    var s2 := InheritExpiry(s1, id, nx);
    DropFramed(s2, nx, x, w);
    FramedTrans(s, s1, s2, w);
    FramedTrans(s, s2, Drop(s2, nx), w);
  }

  // ------------------------------------------------------- dispatching and insertion

  lemma SelectedSweep(s: Sched, x: set<Id>)
    requires Settled(s, x)
    ensures var p := SelectRequest(s, x);
      p.choice.Some? ==> p.choice.value.0 in s.rqs && !p.choice.value.1.QosHead? && !p.choice.value.1.Barrier?
                         && !p.choice.value.1.Alias?
                         && (p.choice.value.1.Sweep? ==>
                           s.next.At(s.rqs[p.choice.value.0].dir) == Some(p.choice.value.0))
  {
    hide PlacesOk, HashOk;
    SelectedQueued(s, x);
    assert SideOk(s, Read) && SideOk(s, Write);
  }

  /** deadline_dispatch_requests keeps both orders; what it takes through next_drq continues the sweep. */
  lemma DispatchOrdered(s: Sched, x: set<Id>, w: set<Id>)
    requires Settled(s, x) && SelectRequest(s, x).choice.Some?
    ensures var t := DispatchRequests(s, x);
      Kept(s, t, w) && (Ordered(s) ==> Ordered(t))
  {
    hide SelectRequest, Ordered, PlacesOk, HashOk, ListsOk, Moved;
    var p := SelectRequest(s, x);
    var id := p.choice.value.0;
    DispatchAgree(s, x);
    SelectedSweep(s, x);
    CountersFramed(s, p, x, w);
    var s1 := WithCounters(s, p);
    MovedKept(s1, id, p.choice.value.1, w);
    if Ordered(s) { MovedOrdered(s1, id, p.choice.value.1); }
    KeptTrans(s, s1, DispatchRequests(s, x), w);
  }

  lemma CountersFramed(s: Sched, p: Pick, x: set<Id>, w: set<Id>)
    requires Settled(s, x)
    ensures var t := WithCounters(s, p);
      Kept(s, t, w) && (Ordered(s) ==> Ordered(t))
      && (SideOk(s, Read) && SideOk(s, Write) ==> SideOk(t, Read) && SideOk(t, Write))
      && forall id :: Movable(s, id) ==> Movable(t, id)
  {
    hide Ordered, PlacesOk, HashOk, ListsOk;
    var t := WithCounters(s, p);
    CountersAgree(s, p, x);
    if Ordered(s) { OrdersSame(s, t); }
  }

  lemma {:induction false} DrainOrdered(s: Sched, x: set<Id>, w: set<Id>)
    requires Settled(s, x)
    ensures var t := Drain(s, x);
      Kept(s, t, w) && (Ordered(s) ==> Ordered(t))
    decreases |s.fifo.rd| + |s.fifo.wr|
  {
    hide SelectRequest, Kept, Ordered, Agree, DispatchRequests;
    if SelectRequest(s, x).choice.Some? {
      DispatchAgree(s, x);
      DispatchOrdered(s, x, w);
      DrainOrdered(DispatchRequests(s, x), x, w);
      KeptTrans(s, DispatchRequests(s, x), Drain(s, x), w);
    } else {
      CountersFramed(s, SelectRequest(s, x), x, w);
    }
  }

  lemma HashNewFramed(s: Sched, id: Id, w: set<Id>)
    requires id in s.rqs && s.rqs[id].gen == 0 && HashOk(s)
    ensures Framed(s, HashNew(s, id), w)
  {
    HashWorkFramed(s, HashNew(s, id), w);
  }

  lemma InsertBestEffortFramed(s: Sched, id: Id)
    requires Settled(s, {id}) && s.rqs[id].gen == 0
    ensures Framed(s, InsertBestEffort(s, id), {id})
  {
    hide Framed, PlacesOk, SideOk, HashNew, AddRb, ToFifo;
    HashNewSettled(s, id);
    var s1 := HashNew(s, id);
    HashNewFramed(s, id, {id});
    AddRbFramed(s1, id, {id});
    AddRbAgree(s1, id, {id});
    var s2 := AddRb(s1, id);
    FramedIs(s2, id);
    FramedTrans(s, s1, s2, {id});
    FramedTrans(s, s2, InsertBestEffort(s, id), {id});
  }

  lemma FramedIs(s: Sched, id: Id)
    requires id in s.rqs && !Queued(s, id) && SideOk(s, Read) && SideOk(s, Write)
    ensures Framed(s, ToFifo(s, id), {id})
  {
    ToFifoFramed(s, id);
  }

  /** Entries of the QoS queue and barriers leave both orders alone. */
  lemma PlainEntry(s: Sched, t: Sched, e: Entry)
    requires Ordered(s) && (e.how.QosHead? || e.how.Barrier?)
    requires t.fifo == s.fifo && t.next == s.next && t.rqs == s.rqs && t.now == s.now && t.cfg == s.cfg
    requires t.sort == s.sort && t.linked == s.linked && t.log == s.log + [e]
    ensures Ordered(t)
  {
    FifosSame(s, t);
    hide SweepLog, LastMoved, FifoOk;
    SweepLogAppend(s.log, e);
    assert forall d: Dir, k :: BeforeNext(t, d, k) == BeforeNext(s, d, k);
    assert forall d: Dir, k :: MovedBelow(t.log, d, k) == MovedBelow(s.log, d, k);
  }
}
