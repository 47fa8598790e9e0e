/**
 How long one direction can keep the other waiting.  The bounds hold for any mix of
 arrivals, merges, evictions and driver events, and through any wrap of the 32-bit batch
 counter; a start with room for the counter gets the sharper one.
 */
module Starvation {
  import opened Types
  import opened Elevator
  import opened Scheduler
  import opened Merging
  import opened Frames
  import opened BlockQueue
  import opened Conservation
  import opened Runs

  /** The largest fifo_batch that can be set. */
  const INT_MAX: nat := 0x7fff_ffff

  /**
   How much longer the running batch can be.  Once it is over, a non-sequential request may
   still wrap `batching`, and the batch then goes on until the counter is at fifo_batch.
   */
  function Left(s: Sched): nat
    requires s.batching < UINT_SPACE
  {
    if s.batching < s.cfg.fifoBatch then s.cfg.fifoBatch - s.batching
    else if s.batching + s.cfg.fifoBatch < UINT_SPACE then 0
    else UINT_SPACE - s.batching
  }

  /** How often direction d may still be chosen outside a batch while the other one waits. */
  function Finds(s: Sched, d: Dir): nat
    requires s.starved <= s.cfg.writesStarved
  {
    if d.Read? then s.cfg.writesStarved - s.starved else if s.starved >= s.cfg.writesStarved then 1 else 0
  }

  /** The most that Finds can be. */
  function MostFinds(cfg: Tunables, d: Dir): nat {
    if d.Read? then cfg.writesStarved else 1
  }

  /**
   Room for `finds` choices outside a batch, and one besides, before `batching` wraps.  A
   decision inside a batch needs none: it leaves `batching` at fifo_batch or below.
   */
  predicate Roomy(s: Sched, finds: nat) {
    (if s.batching < s.cfg.fifoBatch then s.cfg.fifoBatch else s.batching)
    + (finds + 1) * (s.cfg.fifoBatch + 1) < UINT_SPACE
  }

  /**
   The longest stretch that a choice outside a batch can begin: a batch, which has at least
   one request, or one request and a batch taken up again by a wrap.
   */
  function Stretch(cfg: Tunables, roomy: bool): nat {
    if roomy && cfg.fifoBatch > 0 then cfg.fifoBatch else cfg.fifoBatch + 1
  }

  /** What direction d may still dispatch while the other one waits. */
  function Credit(s: Sched, d: Dir, roomy: bool): nat
    requires CountersOk(s)
  {
    Finds(s, d) * Stretch(s.cfg, roomy) + Left(s)
  }

  /** The bound of the two theorems. */
  function Bound(cfg: Tunables, d: Dir, roomy: bool): nat {
    MostFinds(cfg, d) * Stretch(cfg, roomy) + cfg.fifoBatch
  }

  /** What a direction needs so that it cannot go on for ever. */
  predicate Limited(cfg: Tunables, d: Dir) {
    cfg.fifoBatch <= INT_MAX && (d.Write? ==> cfg.writesStarved >= 1)
  }

  // ------------------------------------------------------------------ one decision

  lemma MulMono(i: nat, j: nat, b: nat)
    requires i <= j
    ensures i * b <= j * b
  {
  }

  lemma MulStep(w: nat, b: nat)
    ensures (w + 1) * b == w * b + b
  {
  }

  lemma CreditBound(s: Sched, d: Dir, roomy: bool)
    requires CountersOk(s)
    ensures Credit(s, d, roomy) <= Bound(s.cfg, d, roomy)
  {
    MulMono(Finds(s, d), MostFinds(s.cfg, d), Stretch(s.cfg, roomy));
  }

  /** What a decision for direction d leaves: the batch is shorter, or a choice is used up. */
  ghost predicate Spent(s: Sched, t: Sched, d: Dir)
    requires CountersOk(s) && CountersOk(t)
  {
    || (Finds(t, d) == Finds(s, d) && Left(t) < Left(s) && t.batching <= s.cfg.fifoBatch)
    || (Finds(t, d) < Finds(s, d)
        && (t.batching == 1 || t.batching == 0 || s.cfg.fifoBatch < t.batching <= s.batching + s.cfg.fifoBatch + 1)
        && (s.batching + s.cfg.fifoBatch + 1 < UINT_SPACE ==> t.batching > 0))
  }

  lemma SpentRoom(s: Sched, t: Sched, d: Dir)
    requires t.cfg == s.cfg && CountersOk(s) && CountersOk(t) && Spent(s, t, d) && Roomy(s, Finds(s, d))
    ensures Roomy(t, Finds(t, d))
    ensures Finds(t, d) < Finds(s, d) ==> Left(t) < Stretch(s.cfg, true)
  {
    var f := s.cfg.fifoBatch + 1;
    MulStep(Finds(s, d), f);
    if Finds(t, d) < Finds(s, d) {
      MulMono(Finds(t, d) + 1, Finds(s, d), f);
      MulMono(1, Finds(s, d), f);
    }
  }

  lemma SpentCredit(s: Sched, t: Sched, d: Dir, roomy: bool)
    requires t.cfg == s.cfg && CountersOk(s) && CountersOk(t) && Spent(s, t, d)
    requires roomy ==> Roomy(s, Finds(s, d))
    ensures Credit(t, d, roomy) < Credit(s, d, roomy)
  {
    if roomy { SpentRoom(s, t, d); }
    if Finds(t, d) < Finds(s, d) {
      assert Left(t) < Stretch(s.cfg, roomy);
      MulMono(Finds(t, d) + 1, Finds(s, d), Stretch(s.cfg, roomy));
      MulStep(Finds(t, d), Stretch(s.cfg, roomy));
    }
  }

  /** The counters that a decision outside a running batch leaves behind. */
  lemma FindInCounters(s: Sched, b: nat, starved: nat, d: Dir, x: set<Id>)
    requires Settled(s, x) && s.fifo.At(d) != [] && b < UINT_SPACE
    requires b < s.cfg.fifoBatch ==> NextRq(s).None?
    ensures var p := FindIn(s, b, starved, d, x);
      p.starved == starved && (p.batching == 1 || (p.batching == Uint(b + 1) && b >= s.cfg.fifoBatch))
  {
    hide PlacesOk, HashOk, ListsOk;
  }

  lemma DecisionSpends(s: Sched, x: set<Id>, d: Dir)
    requires Settled(s, x) && CountersOk(s) && Limited(s.cfg, d)
    requires SelectRequest(s, x).choice.Some? && SelectRequest(s, x).choice.value.0 in s.rqs
    requires s.rqs[SelectRequest(s, x).choice.value.0].dir == d && s.fifo.At(d.Other()) != []
    ensures var t := WithCounters(s, SelectRequest(s, x)); CountersOk(t) && Spent(s, t, d)
  {
    hide PlacesOk, HashOk, ListsOk, SideOk, FindIn;
    SelectedCounters(s, x);
    if NextRq(s).Some? { NextKnown(s, x); }
    var b := BatchAfterCheck(s);
    if !(NextRq(s).Some? && b < s.cfg.fifoBatch) {
      if s.fifo.rd != [] && !(s.fifo.wr != [] && s.starved >= s.cfg.writesStarved) {
        FindInQueued(s, b, if s.fifo.wr != [] then s.starved + 1 else s.starved, Read, x);
        FindInCounters(s, b, if s.fifo.wr != [] then s.starved + 1 else s.starved, Read, x);
      } else {
        FindInQueued(s, b, 0, Write, x);
        FindInCounters(s, b, 0, Write, x);
      }
    }
  }

  // ------------------------------------------------------------- whole stretches of log

  /** From index i on, every decision is for direction d, made while the other one waits. */
  predicate Overtaking(log: seq<Entry>, i: nat, d: Dir) {
    forall k :: i <= k < |log| && Scheduled(log[k]) ==> log[k].dir == d && log[k].otherWaiting
  }

  /** The decisions recorded from index i on. */
  function Decisions(log: seq<Entry>, i: nat): nat
    decreases |log| - i
  {
    if i >= |log| then 0 else (if Scheduled(log[i]) then 1 else 0) + Decisions(log, i + 1)
  }

  lemma {:induction false} DecisionsSplit(log: seq<Entry>, i: nat, j: nat)
    requires i <= j <= |log|
    ensures Decisions(log, i) == Decisions(log[..j], i) + Decisions(log, j)
    decreases j - i
  {
    if i < j {
      DecisionsSplit(log, i + 1, j);
    }
  }

  lemma {:induction false} NoDecisions(log: seq<Entry>, i: nat)
    requires forall k :: i <= k < |log| ==> !Scheduled(log[k])
    ensures Decisions(log, i) == 0
    decreases |log| - i
  {
    if i < |log| { NoDecisions(log, i + 1); }
  }

  /** From s to t direction d has paid for every decision out of its credit. */
  ghost predicate Pays(s: Sched, t: Sched, d: Dir, roomy: bool) {
    && t.cfg == s.cfg && s.log <= t.log && CountersOk(s) && CountersOk(t)
    && (Overtaking(t.log, |s.log|, d) && (roomy ==> Roomy(s, Finds(s, d))) ==>
          (roomy ==> Roomy(t, Finds(t, d)))
          && Decisions(t.log, |s.log|) + Credit(t, d, roomy) <= Credit(s, d, roomy))
  }

  lemma PaysTrans(s: Sched, t: Sched, u: Sched, d: Dir, roomy: bool)
    requires Pays(s, t, d, roomy) && Pays(t, u, d, roomy)
    ensures Pays(s, u, d, roomy)
  {
    hide Credit, Roomy, Finds;
    if Overtaking(u.log, |s.log|, d) && (roomy ==> Roomy(s, Finds(s, d))) {
      assert u.log[..|t.log|] == t.log;
      forall k | |s.log| <= k < |t.log| && Scheduled(t.log[k]) ensures t.log[k].dir == d && t.log[k].otherWaiting {
        assert u.log[k] == t.log[k];
      }
      DecisionsSplit(u.log, |s.log|, |t.log|);
    }
  }

  lemma CalmPays(s: Sched, t: Sched, d: Dir, roomy: bool)
    requires Calm(s, t) && CountersOk(s)
    ensures Pays(s, t, d, roomy)
  {
    NoDecisions(t.log, |s.log|);
  }

  lemma DispatchPays(s: Sched, x: set<Id>, d: Dir, roomy: bool)
    requires Settled(s, x) && SelectRequest(s, x).choice.Some? && CountersOk(s) && Limited(s.cfg, d)
    ensures Pays(s, DispatchRequests(s, x), d, roomy)
  {
    hide PlacesOk, HashOk, ListsOk, SideOk, SelectRequest, Credit, Movable, Finds, Roomy, Spent;
    var p, t := SelectRequest(s, x), DispatchRequests(s, x);
    var id := p.choice.value.0;
    DispatchAgree(s, x);
    SelectedSweep(s, x);
    SelectedCounters(s, x);
    var u := WithCounters(s, p);
    var e := t.log[|s.log|];
    assert t.log == s.log + [e] && Scheduled(e) && e.dir == s.rqs[id].dir;
    assert e.otherWaiting == (s.fifo.At(e.dir.Other()) != []);
    SameCredit(u, t, d, roomy);
    if Overtaking(t.log, |s.log|, d) && (roomy ==> Roomy(s, Finds(s, d))) {
      DecisionSpends(s, x, d);
      SpentCredit(s, u, d, roomy);
      if roomy { SpentRoom(s, u, d); }
      assert Decisions(t.log, |s.log| + 1) == 0;
    }
  }

  lemma SameCredit(s: Sched, t: Sched, d: Dir, roomy: bool)
    requires t.cfg == s.cfg && t.batching == s.batching && t.starved == s.starved && CountersOk(s)
    ensures CountersOk(t) && Credit(t, d, roomy) == Credit(s, d, roomy) && Finds(t, d) == Finds(s, d)
    ensures Roomy(s, Finds(s, d)) ==> Roomy(t, Finds(t, d))
  {
  }

  lemma {:induction false} DrainPays(s: Sched, x: set<Id>, d: Dir, roomy: bool)
    requires Settled(s, x) && CountersOk(s) && Limited(s.cfg, d)
    ensures Pays(s, Drain(s, x), d, roomy)
    decreases |s.fifo.rd| + |s.fifo.wr|
  {
    hide SelectRequest, Agree, Movable, DispatchRequests, Credit, Roomy, Finds;
    if SelectRequest(s, x).choice.Some? {
      var t := DispatchRequests(s, x);
      DispatchAgree(s, x);
      DispatchPays(s, x, d, roomy);
      DrainPays(t, x, d, roomy);
      PaysTrans(s, t, Drain(s, x), d, roomy);
    } else {
      IdlePays(s, x, d, roomy);
    }
  }

  /** A call that finds nothing to dispatch changes no counter. */
  lemma IdlePays(s: Sched, x: set<Id>, d: Dir, roomy: bool)
    requires Settled(s, x) && SelectRequest(s, x).choice.None? && CountersOk(s)
    ensures WithCounters(s, SelectRequest(s, x)) == s && Pays(s, s, d, roomy)
  {
    hide PlacesOk, HashOk, ListsOk;
    SelectedQueued(s, x);
    if NextRq(s).Some? { NextKnown(s, x); }
    CalmPays(s, s, d, roomy);
  }

  lemma NextRequestPays(s: Sched, d: Dir, roomy: bool)
    requires Agree(s, {}) && CountersOk(s) && Limited(s.cfg, d)
    ensures Pays(s, NextRequest(s), d, roomy)
  {
    hide SideOk, PlacesOk, HashOk, SelectRequest, DispatchRequests, Pays, WithCounters;
    CalmPays(s, s, d, roomy);
    if s.ucsb != [] {
      UcsbRest(s);
      CalmPays(s, UcsbDispatch(s), d, roomy);
    }
    if SelectRequest(s, {}).choice.Some? { DispatchPays(s, {}, d, roomy); } else { IdlePays(s, {}, d, roomy); }
  }

  lemma BarrierPays(s: Sched, b: Bio, id: Id, d: Dir, roomy: bool)
    requires Agree(s, {}) && id !in s.rqs && b.barrier
    requires CountersOk(s) && Limited(s.cfg, d)
    ensures Pays(s, NewRequest(s, b, id), d, roomy)
  {
    hide SideOk, PlacesOk, HashOk, ListsOk, Drain, Overtaking, Roomy, Credit, Finds;
    AdmittedSettled(s, b, id);
    var u := Admitted(s, b, id);
    var v := u.(hashGen := NextGen(u.hashGen), lastMerge := None);
    NewGenSettled(u, {id});
    DrainPays(v, {id}, d, roomy);
    CalmPays(s, v, d, roomy);
    var w := Drain(v, {id});
    PaysTrans(s, v, w, d, roomy);
    assert CountersOk(w) by { DrainCounters(v, {id}); }
    CalmPays(w, NewRequest(s, b, id), d, roomy);
    PaysTrans(s, w, NewRequest(s, b, id), d, roomy);
  }

  lemma StepPays(s: Sched, e: Event, d: Dir, roomy: bool)
    requires Good(s) && Enabled(s, e) && Limited(s.cfg, d)
    ensures Pays(s, Step(s, e), d, roomy)
  {
    hide Agree, FreshHash, Ordered, ContentOk, Owned, MakeRequest, NextRequest, Take, Pays;
    match e
    case Tick(n) => CalmPays(s, Step(s, e), d, roomy);
    case Submit(b, id, segsFit, joinFits) =>
      ContentOnDevice(s);
      SubmitRest(s, b, id, segsFit, joinFits);
      if b.barrier {
        BarrierPays(s, b, id, d, roomy);
        BarrierIsNew(s, b, id, segsFit, joinFits);
      } else {
        CalmPays(s, Step(s, e), d, roomy);
      }
    case FetchNext =>
      NextRequestPays(s, d, roomy);
      FetchRest(s);
      SamePays(s, NextRequest(s), Step(s, e), d, roomy);
    case Dequeue(id) =>
      TakeRest(s, id);
      CalmPays(s, Step(s, e), d, roomy);
  }

  lemma BarrierIsNew(s: Sched, b: Bio, id: Id, segsFit: bool, joinFits: bool)
    requires Inv(s) && OnDevice(s) && BioOk(b, s.cfg.maxSectors) && id !in s.rqs && b.barrier
    ensures MakeRequest(s, b, id, segsFit, joinFits) == NewRequest(s, b, id)
  {
    hide Agree, NewRequest, Merge;
  }

  lemma SamePays(s: Sched, t: Sched, u: Sched, d: Dir, roomy: bool)
    requires Pays(s, t, d, roomy) && u.log == t.log && u.cfg == t.cfg && u.batching == t.batching
        && u.starved == t.starved
    ensures Pays(s, u, d, roomy)
  {
  }

  lemma {:induction false} ExecPays(s: Sched, es: seq<Event>, d: Dir, roomy: bool)
    requires Good(s) && Legal(s, es) && Limited(s.cfg, d)
    ensures Pays(s, Exec(s, es), d, roomy)
    decreases |es|
  {
    hide Step, Enabled, Pays, Agree, Ordered, FreshHash, ContentOk, Owned;
    if es == [] {
      CalmPays(s, s, d, roomy);
    } else {
      StepGood(s, es[0]);
      StepPays(s, es[0], d, roomy);
      ExecPays(Step(s, es[0]), es[1..], d, roomy);
      PaysTrans(s, Step(s, es[0]), Exec(s, es), d, roomy);
    }
  }

  /**
   The starvation bound, over every run during which direction d is always chosen while the
   other one waits, from any state a run can reach: writes_starved * (fifo_batch + 1) +
   fifo_batch reads in front of a write, and 2 * fifo_batch + 1 writes in front of a read
   if writes_starved >= 1.  ReadsWaitForever in Witnesses shows that this condition is
   needed.
   */
  lemma {:induction false} StarvationBound(s: Sched, es: seq<Event>, d: Dir)
    requires Good(s) && Legal(s, es) && Limited(s.cfg, d)
    requires Overtaking(Exec(s, es).log, |s.log|, d)
    ensures Decisions(Exec(s, es).log, |s.log|) <= Bound(s.cfg, d, false)
  {
    hide Good, Legal, Bound;
    ExecPays(s, es, d, false);
    CreditBound(s, d, false);
  }

  /**
   Where the counter has room for writes_starved + 1 additions of fifo_batch (for writes,
   for two), every choice outside a batch begins at most one batch.
   */
  lemma {:induction false} RoomyBound(s: Sched, es: seq<Event>, d: Dir)
    requires Good(s) && Legal(s, es) && Limited(s.cfg, d) && Roomy(s, MostFinds(s.cfg, d))
    requires Overtaking(Exec(s, es).log, |s.log|, d)
    ensures Decisions(Exec(s, es).log, |s.log|) <= Credit(s, d, true) <= Bound(s.cfg, d, true)
  {
    hide Good, Legal, Bound, Credit, Finds, Roomy, Exec;
    ExecPays(s, es, d, true);
    CreditBound(s, d, true);
    RoomyLess(s, d);
  }

  lemma RoomyLess(s: Sched, d: Dir)
    requires s.starved <= s.cfg.writesStarved && Roomy(s, MostFinds(s.cfg, d))
    ensures Roomy(s, Finds(s, d))
  {
    MulMono(Finds(s, d) + 1, MostFinds(s.cfg, d) + 1, s.cfg.fifoBatch + 1);
  }

  // ------------------------------------------------- where the bounds' conditions bite

  lemma ZeroChoosesWrite(s: Sched, x: set<Id>)
    requires Settled(s, x) && s.cfg.writesStarved == 0 && s.fifo.wr != [] && s.next.rd.None?
    ensures var p := SelectRequest(s, x);
      p.choice.Some? && p.choice.value.0 in s.rqs && s.rqs[p.choice.value.0].dir.Write?
      && (p.choice.value.1.Sweep? || p.choice.value.1.Restart?)
  {
    hide PlacesOk, HashOk, ListsOk, Movable;
    SelectedQueued(s, x);
    if !(NextRq(s).Some? && BatchAfterCheck(s) < s.cfg.fifoBatch) {
      FindInQueued(s, BatchAfterCheck(s), 0, Write, x);
    }
  }

  /** n decisions for direction d in a row from index i, each made while the other one waits. */
  predicate AllOver(log: seq<Entry>, i: nat, n: nat, d: Dir) {
    i + n <= |log| && forall k :: i <= k < i + n ==> Scheduled(log[k]) && log[k].dir == d && log[k].otherWaiting
  }

  /**
   With writes_starved = 0 reads wait for as long as there are writes: unless a read sweep
   is under way, a drain takes all the writes it has before the first read.
   */
  lemma {:induction false} ZeroStarvesReads(s: Sched, x: set<Id>, n: nat)
    requires Settled(s, x) && s.cfg.writesStarved == 0 && s.next.rd.None?
    requires s.fifo.rd != [] && |s.fifo.wr| >= n
    ensures s.log <= Drain(s, x).log && AllOver(Drain(s, x).log, |s.log|, n, Write)
    decreases n
  {
    hide SelectRequest, Agree, DispatchRequests, Kept;
    DrainOrdered(s, x, {});
    assert s.log <= Drain(s, x).log by { DrainGrows(s, x); }
    if n > 0 {
      ZeroChoosesWrite(s, x);
      DispatchAgree(s, x);
      var t := DispatchRequests(s, x);
      FifoLoses(s, SelectRequest(s, x).choice.value.0, x);
      ZeroStarvesReads(t, x, n - 1);
      assert Drain(s, x).log[|s.log|] == t.log[|s.log|];
    }
  }

  lemma DrainGrows(s: Sched, x: set<Id>)
    requires Settled(s, x)
    ensures s.log <= Drain(s, x).log
  {
    hide Agree, Drain;
    DrainOrdered(s, x, {});
  }

  lemma FifoLoses(s: Sched, id: Id, x: set<Id>)
    requires MoveReady(s, id, x)
    ensures |Without(s.fifo.At(s.rqs[id].dir), id)| == |s.fifo.At(s.rqs[id].dir)| - 1
  {
    var l := s.fifo.At(s.rqs[id].dir);
    assert id in l && NoDup(l) by { assert SideOk(s, s.rqs[id].dir); }
    var i :| 0 <= i < |l| && l[i] == id;
    WithoutAt(l, i);
  }

  /**
   A batch that is over is taken up again without a choice of direction exactly when the
   next request is not sequential and the addition to `batching` wraps.
   */
  lemma WrapResumesBatch(s: Sched, x: set<Id>)
    requires Settled(s, x) && NextRq(s).Some?
    requires s.cfg.fifoBatch <= s.batching < UINT_SPACE && s.cfg.fifoBatch < UINT_SPACE / 2
    ensures NextRq(s).value in s.rqs
    ensures BatchAfterCheck(s) < s.cfg.fifoBatch
            <==> s.lastSector != s.rqs[NextRq(s).value].sector && s.batching + s.cfg.fifoBatch >= UINT_SPACE
    ensures BatchAfterCheck(s) < s.cfg.fifoBatch ==>
              SelectRequest(s, x).choice == Some((NextRq(s).value, Sweep)) && SelectRequest(s, x).starved == s.starved
  {
    hide PlacesOk, HashOk, ListsOk, SideOk;
    NextKnown(s, x);
    var m := s.batching + s.cfg.fifoBatch;
    assert m < UINT_SPACE ==> Uint(m) == m;
    assert m >= UINT_SPACE ==> Uint(m) == m - UINT_SPACE;
  }
}
