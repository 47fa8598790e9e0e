/**
 What a batch is entitled to: how long it lasts whatever waits in the other direction, and
 which request is taken when a decision is free.
 */
module Batches {
  import opened Types
  import opened Elevator
  import opened Scheduler
  import opened Merging
  import opened Frames
  import opened BlockQueue
  import opened Conservation
  import opened Runs
  import opened Orders
  import opened Starvation

  /**
   The length of the batch that is running after these moves: the decisions since the last
   restart, provided that next_drq was in line with the move before at each later one.
   */
  function Batch(log: seq<Entry>): Option<nat>
    decreases |log|
  {
    if log == [] then None
    else
      var e, front := log[|log| - 1], log[..|log| - 1];
      if !Scheduled(e) then Batch(front)
      else if e.how.Restart? then Some(1)
      else if !e.inLine then None
      else match Batch(front) case None => None case Some(n) => Some(n + 1)
  }

  /** While a batch runs `batching` is its length, up to the wrap of the counter. */
  predicate BatchCounted(s: Sched) {
    var b := Batch(s.log);
    b.Some? ==> b.value > 0 && s.batching == Uint(b.value)
  }

  /** A decision made in a batch of fewer than fifo_batch, with the next request in line, goes on with it. */
  ghost predicate Entitled(log: seq<Entry>, fifoBatch: nat, k: nat)
    requires k < |log|
  {
    Scheduled(log[k]) && log[k].inLine && Batch(log[..k]).Some? && Batch(log[..k]).value < fifoBatch ==>
      log[k].how.Sweep?
  }

  ghost predicate BatchesKept(log: seq<Entry>, fifoBatch: nat) {
    forall k :: 0 <= k < |log| ==> Entitled(log, fifoBatch, k)
  }

  ghost predicate BatchInv(s: Sched) {
    BatchCounted(s) && BatchesKept(s.log, s.cfg.fifoBatch)
  }

  /** From s to t every decision is one in line within a batch that is not used up. */
  ghost predicate Steady(s: Sched, t: Sched)
    requires s.log <= t.log
  {
    forall k :: |s.log| <= k < |t.log| && Scheduled(t.log[k]) ==>
      t.log[k].inLine && Batch(t.log[..k]).Some? && Batch(t.log[..k]).value < s.cfg.fifoBatch
  }

  /** From s to t the invariant is kept; and a running batch does not touch the count of passed-over writes. */
  ghost predicate Holds(s: Sched, t: Sched) {
    && t.cfg == s.cfg && s.log <= t.log && BatchInv(s) && BatchInv(t)
    && (Steady(s, t) ==> t.starved == s.starved)
  }

  lemma HoldsTrans(s: Sched, t: Sched, u: Sched)
    requires Holds(s, t) && Holds(t, u)
    ensures Holds(s, u)
  {
    hide BatchInv, Batch;
    if Steady(s, u) {
      forall k | |s.log| <= k < |t.log| && Scheduled(t.log[k])
        ensures t.log[k].inLine && Batch(t.log[..k]).Some? && Batch(t.log[..k]).value < s.cfg.fifoBatch
      {
        assert u.log[k] == t.log[k] && u.log[..k] == t.log[..k];
      }
    }
  }

  // ---------------------------------------------------------------------- one decision

  /** The rule for one decision: a running batch goes on, and leaves the count of passed-over writes alone. */
  lemma BatchGoesOn(s: Sched, x: set<Id>)
    requires Settled(s, x) && BatchCounted(s) && InLine(s) && s.cfg.fifoBatch <= INT_MAX
    requires Batch(s.log).Some? && Batch(s.log).value < s.cfg.fifoBatch
    ensures SelectRequest(s, x) == Pick(Batch(s.log).value + 1, s.starved, Some((NextRq(s).value, Sweep)))
  {
    hide SideOk, PlacesOk, HashOk, ListsOk, FindIn;
    NextKnown(s, x);
    var n := Batch(s.log).value;
    assert Uint(n) == n && Uint(n + 1) == n + 1;
  }

  /** What any decision does to the counter. */
  lemma DecisionCounts(s: Sched, x: set<Id>)
    requires Settled(s, x) && SelectRequest(s, x).choice.Some?
    ensures var p := SelectRequest(s, x);
      && (p.choice.value.1.Restart? ==> p.batching == 1)
      && (p.choice.value.1.Sweep? && InLine(s) ==> p.batching == Uint(s.batching + 1))
  {
    hide SideOk, PlacesOk, HashOk, ListsOk;
    if NextRq(s).Some? { NextKnown(s, x); }
    SelectedSweep(s, x);
  }

  // ----------------------------------------------------------------------- every step

  lemma AppendBatch(log: seq<Entry>, e: Entry)
    ensures Batch(log + [e]) == if !Scheduled(e) then Batch(log) else if e.how.Restart? then Some(1)
                                else if !e.inLine || Batch(log).None? then None
                                else Some(Batch(log).value + 1)
  {
    assert (log + [e])[..|log|] == log;
  }

  lemma AppendKept(log: seq<Entry>, e: Entry, fifoBatch: nat)
    requires BatchesKept(log, fifoBatch)
    requires Scheduled(e) && e.inLine && Batch(log).Some? && Batch(log).value < fifoBatch ==> e.how.Sweep?
    ensures BatchesKept(log + [e], fifoBatch)
  {
    var l := log + [e];
    forall k | 0 <= k < |l| ensures Entitled(l, fifoBatch, k) {
      assert l[..k] == log[..k];
      if k < |log| { assert Entitled(log, fifoBatch, k); } else { assert log[..k] == log; }
    }
  }

  lemma {:induction false} CalmLog(log: seq<Entry>, more: seq<Entry>, fifoBatch: nat)
    requires BatchesKept(log, fifoBatch) && forall k :: 0 <= k < |more| ==> !Scheduled(more[k])
    ensures Batch(log + more) == Batch(log) && BatchesKept(log + more, fifoBatch)
    decreases |more|
  {
    if more == [] {
      assert log + more == log;
    } else {
      var n := |more| - 1;
      CalmLog(log, more[..n], fifoBatch);
      AppendBatch(log + more[..n], more[n]);
      AppendKept(log + more[..n], more[n], fifoBatch);
      assert (log + more[..n]) + [more[n]] == log + more;
    }
  }

  /** Without a decision nothing changes. */
  lemma CalmBatch(s: Sched, t: Sched)
    requires Calm(s, t) && BatchInv(s)
    ensures Holds(s, t)
  {
    var more := t.log[|s.log|..];
    assert t.log == s.log + more;
    forall k | 0 <= k < |more| ensures !Scheduled(more[k]) {
      assert more[k] == t.log[|s.log| + k];
    }
    hide Batch, BatchesKept;
    CalmLog(s.log, more, s.cfg.fifoBatch);
  }

  lemma DecisionEntry(s: Sched, x: set<Id>)
    requires Settled(s, x) && SelectRequest(s, x).choice.Some?
    ensures var p := SelectRequest(s, x); var t := DispatchRequests(s, x); var id := p.choice.value.0;
      && id in s.rqs && t.cfg == s.cfg && t.batching == p.batching && t.starved == p.starved
      && var e := t.log[|t.log| - 1];
      t.log == s.log + [e] && e.id == id && e.how == p.choice.value.1 && e.inLine == InLine(s)
      && e.dir == s.rqs[id].dir && (e.how.Sweep? || e.how.Restart?)
  {
    hide SideOk, PlacesOk, HashOk, ListsOk, SelectRequest, DispatchRequests;
    DispatchAgree(s, x);
    SelectedSweep(s, x);
    assert WithCounters(s, SelectRequest(s, x)).next == s.next;
  }

  lemma DispatchBatch(s: Sched, x: set<Id>)
    requires Settled(s, x) && SelectRequest(s, x).choice.Some? && BatchInv(s) && s.cfg.fifoBatch <= INT_MAX
    ensures Holds(s, DispatchRequests(s, x))
  {
    hide Agree, SelectRequest, DispatchRequests, InLine, Batch, BatchesKept;
    DecisionEntry(s, x);
    DecisionCounts(s, x);
    var p, t := SelectRequest(s, x), DispatchRequests(s, x);
    var e := t.log[|t.log| - 1];
    if InLine(s) && Batch(s.log).Some? && Batch(s.log).value < s.cfg.fifoBatch { BatchGoesOn(s, x); }
    AppendBatch(s.log, e);
    AppendKept(s.log, e, s.cfg.fifoBatch);
    if Batch(s.log).Some? { NextCount(s.batching, Batch(s.log).value); }
    assert t.log[..|s.log|] == s.log;
  }

  lemma NextCount(b: nat, n: nat)
    requires b == Uint(n)
    ensures Uint(b + 1) == Uint(n + 1)
  {
  }

  lemma {:induction false} DrainBatch(s: Sched, x: set<Id>)
    requires Settled(s, x) && CountersOk(s) && BatchInv(s) && s.cfg.fifoBatch <= INT_MAX
    ensures Holds(s, Drain(s, x))
    decreases |s.fifo.rd| + |s.fifo.wr|
  {
    hide SelectRequest, Agree, Movable, DispatchRequests, BatchInv, Holds;
    if SelectRequest(s, x).choice.Some? {
      DispatchAgree(s, x);
      DecisionEntry(s, x);
      DispatchBatch(s, x);
      HoldsInv(s, DispatchRequests(s, x));
      DispatchCounters(s, x);
      DrainBatch(DispatchRequests(s, x), x);
      HoldsTrans(s, DispatchRequests(s, x), Drain(s, x));
    } else {
      IdlePays(s, x, Read, false);
      CalmBatch(s, s);
    }
  }

  lemma HoldsInv(s: Sched, t: Sched)
    requires Holds(s, t)
    ensures BatchInv(t) && t.cfg == s.cfg
  {
  }

  lemma DispatchCounters(s: Sched, x: set<Id>)
    requires Settled(s, x) && SelectRequest(s, x).choice.Some? && CountersOk(s)
    ensures CountersOk(DispatchRequests(s, x))
  {
    hide Agree, SelectRequest, DispatchRequests;
    SelectedCounters(s, x);
    DecisionEntry(s, x);
  }

  lemma NextRequestBatch(s: Sched)
    requires Agree(s, {}) && CountersOk(s) && BatchInv(s) && s.cfg.fifoBatch <= INT_MAX
    ensures Holds(s, NextRequest(s))
  {
    hide SideOk, PlacesOk, HashOk, SelectRequest, DispatchRequests, BatchInv, Holds, WithCounters, Dispatching;
    CalmBatch(s, s);
    if s.ucsb != [] {
      UcsbRest(s);
      CalmBatch(s, UcsbDispatch(s));
    }
    if SelectRequest(s, {}).choice.Some? { DispatchBatch(s, {}); } else { IdlePays(s, {}, Read, false); }
  }

  lemma BarrierBatch(s: Sched, b: Bio, id: Id)
    requires Agree(s, {}) && id !in s.rqs && b.barrier && CountersOk(s) && BatchInv(s) && s.cfg.fifoBatch <= INT_MAX
    ensures Holds(s, NewRequest(s, b, id))
  {
    hide SideOk, PlacesOk, HashOk, ListsOk, Drain, BatchInv, Holds;
    AdmittedSettled(s, b, id);
    var u := Admitted(s, b, id);
    var v := u.(hashGen := NextGen(u.hashGen), lastMerge := None);
    NewGenSettled(u, {id});
    CalmBatch(s, v);
    HoldsInv(s, v);
    DrainBatch(v, {id});
    HoldsTrans(s, v, Drain(v, {id}));
    HoldsInv(v, Drain(v, {id}));
    CalmBatch(Drain(v, {id}), NewRequest(s, b, id));
    HoldsTrans(s, Drain(v, {id}), NewRequest(s, b, id));
  }

  lemma FetchBatch(s: Sched)
    requires Agree(s, {}) && Rest(s) && Holds(s, NextRequest(s))
    ensures Holds(s, Fetch(s))
  {
    hide Agree, FreshHash, Ordered, ContentOk, Owned, NextRequest, Batch, BatchesKept;
    FetchRest(s);
    NextRequestRest(s);
  }

  /** Every event keeps it, and a batch that goes on through one keeps the count of passed-over writes. */
  lemma StepBatch(s: Sched, e: Event)
    requires Good(s) && Enabled(s, e) && BatchInv(s) && s.cfg.fifoBatch <= INT_MAX
    ensures Holds(s, Step(s, e))
  {
    hide Agree, FreshHash, Ordered, ContentOk, Owned, MakeRequest, NextRequest, Take, BatchInv, Holds, Fetch;
    match e
    case Tick(n) => CalmBatch(s, Step(s, e));
    case Submit(b, id, segsFit, joinFits) =>
      ContentOnDevice(s);
      SubmitRest(s, b, id, segsFit, joinFits);
      if b.barrier {
        BarrierBatch(s, b, id);
        BarrierIsNew(s, b, id, segsFit, joinFits);
      } else {
        CalmBatch(s, Step(s, e));
      }
    case FetchNext =>
      NextRequestBatch(s);
      FetchBatch(s);
    case Dequeue(id) =>
      TakeRest(s, id);
      CalmBatch(s, Step(s, e));
  }

  lemma {:induction false} ExecBatch(s: Sched, es: seq<Event>)
    requires Good(s) && Legal(s, es) && BatchInv(s) && s.cfg.fifoBatch <= INT_MAX
    ensures Holds(s, Exec(s, es))
    decreases |es|
  {
    hide Good, Step, Enabled, BatchInv, Holds;
    if es == [] {
      CalmBatch(s, s);
    } else {
      StepGood(s, es[0]);
      StepBatch(s, es[0]);
      HoldsInv(s, Step(s, es[0]));
      ExecBatch(Step(s, es[0]), es[1..]);
      HoldsTrans(s, Step(s, es[0]), Exec(s, es));
    }
  }

  // ------------------------------------------------------------------------ whole runs

  /** While all is in line and there is room in it, the batch grows by each decision. */
  lemma {:induction false} BatchGrows(log: seq<Entry>, fifoBatch: nat, i: nat)
    requires BatchesKept(log, fifoBatch) && i <= |log| && Batch(log[..i]).Some?
    requires forall k :: i <= k < |log| && Scheduled(log[k]) ==> log[k].inLine
    requires Batch(log[..i]).value + Decisions(log, i) <= fifoBatch
    ensures forall k :: i <= k < |log| && Scheduled(log[k]) ==> log[k].how.Sweep?
    ensures Batch(log) == Some(Batch(log[..i]).value + Decisions(log, i))
    decreases |log|
  {
    if i == |log| {
      assert log[..i] == log;
    } else {
      var l, e := log[..|log| - 1], log[|log| - 1];
      assert l[..i] == log[..i] && l + [e] == log;
      DecisionsSplit(log, i, |log| - 1);
      assert Decisions(log, |log| - 1) == if Scheduled(e) then 1 else 0;
      PrefixKept(log, |log| - 1, fifoBatch);
      BatchGrows(l, fifoBatch, i);
      assert Entitled(log, fifoBatch, |log| - 1);
      AppendBatch(l, e);
    }
  }

  lemma PrefixKept(log: seq<Entry>, n: nat, fifoBatch: nat)
    requires BatchesKept(log, fifoBatch) && n <= |log|
    ensures BatchesKept(log[..n], fifoBatch)
  {
    forall k | 0 <= k < n ensures Entitled(log[..n], fifoBatch, k) {
      assert log[..n][..k] == log[..k] && log[..n][k] == log[k];
      assert Entitled(log, fifoBatch, k);
    }
  }

  /**
   From any state of a run in which a batch is running: while every decision finds its
   request in line and there is room in the batch, all of them go through next_drq, and the
   count of passed-over writes stays as it is, whatever arrives and waits meanwhile.
   */
  lemma BatchLasts(s: Sched, es: seq<Event>)
    requires Good(s) && BatchInv(s) && Legal(s, es) && s.cfg.fifoBatch <= INT_MAX && Batch(s.log).Some?
    requires var log := Exec(s, es).log;
      && (forall k :: |s.log| <= k < |log| && Scheduled(log[k]) ==> log[k].inLine)
      && Batch(s.log).value + Decisions(log, |s.log|) <= s.cfg.fifoBatch
    ensures var t := Exec(s, es);
      && s.log <= t.log && Batch(t.log) == Some(Batch(s.log).value + Decisions(t.log, |s.log|))
      && t.starved == s.starved
      && forall k :: |s.log| <= k < |t.log| && Scheduled(t.log[k]) ==> t.log[k].how.Sweep?
  {
    hide Good, Legal, Exec, Batch, Decisions;
    ExecBatch(s, es);
    var t := Exec(s, es);
    var n, log := |s.log|, t.log;
    assert log[..n] == s.log;
    BatchGrows(log, s.cfg.fifoBatch, n);
    forall k | n <= k < |log| && Scheduled(log[k])
      ensures Batch(log[..k]).Some? && Batch(log[..k]).value < s.cfg.fifoBatch
    {
      assert log[..k][..n] == s.log;
      DecisionsSplit(log, n, k);
      assert Decisions(log, k) >= 1 by { DecisionAt(log, k); }
      PrefixKept(log, k, s.cfg.fifoBatch);
      BatchGrows(log[..k], s.cfg.fifoBatch, n);
    }
    assert Steady(s, t);
  }

  lemma DecisionAt(log: seq<Entry>, k: nat)
    requires k < |log| && Scheduled(log[k])
    ensures Decisions(log, k) >= 1
  {
  }

  /**
   Over every run from a fresh scheduler: after any restart, however long the batches before
   it were, the next fifo_batch - 1 decisions go through next_drq for as long as each finds it
   in line; and unless a request has been pushed out meanwhile, in the direction of the
   restart, each at a higher sector than the one before.
   */
  lemma RestartGrants(cfg: Tunables, now: nat, es: seq<Event>, i: nat, k: nat)
    requires Legal(Fresh(cfg, now), es) && cfg.fifoBatch <= INT_MAX
    requires var log := Exec(Fresh(cfg, now), es).log;
      && i < k < |log| && log[i].how.Restart? && Scheduled(log[k])
      && (forall j :: i < j <= k && Scheduled(log[j]) ==> log[j].inLine)
      && Decisions(log[..k + 1], i + 1) < cfg.fifoBatch
    ensures var log := Exec(Fresh(cfg, now), es).log;
      && log[k].how.Sweep?
      && ((forall j :: i < j < k ==> !log[j].how.Alias?) ==> log[k].dir == log[i].dir && log[i].key < log[k].key)
  {
    hide *;
    FreshBatch(cfg, now);
    FreshGood(cfg, now);
    ExecBatch(Fresh(cfg, now), es);
    HoldsLog(Fresh(cfg, now), Exec(Fresh(cfg, now), es));
    RunSweeps(Fresh(cfg, now), es);
    Granted(Exec(Fresh(cfg, now), es).log, cfg.fifoBatch, i, k);
  }

  lemma HoldsLog(s: Sched, t: Sched)
    requires Holds(s, t)
    ensures BatchesKept(t.log, s.cfg.fifoBatch)
  {
    hide BatchesKept;
  }

  lemma Granted(log: seq<Entry>, fifoBatch: nat, i: nat, k: nat)
    requires BatchesKept(log, fifoBatch) && SweepLog(log)
    requires i < k < |log| && log[i].how.Restart? && Scheduled(log[k])
    requires forall j :: i < j <= k && Scheduled(log[j]) ==> log[j].inLine
    requires Decisions(log[..k + 1], i + 1) < fifoBatch
    ensures log[k].how.Sweep?
    ensures (forall j :: i < j < k ==> !log[j].how.Alias?) ==> log[k].dir == log[i].dir && log[i].key < log[k].key
  {
    hide Batch, Decisions, BatchesKept, SweepLog;
    var l := log[..k + 1];
    PrefixKept(log, k + 1, fifoBatch);
    assert l[..i + 1] == log[..i] + [log[i]];
    AppendBatch(log[..i], log[i]);
    BatchGrows(l, fifoBatch, i + 1);
    forall j | i < j <= k && Scheduled(log[j]) ensures log[j].how.Sweep? {
      assert l[j] == log[j];
    }
    if forall j :: i < j < k ==> !log[j].how.Alias? { Ascends(log, i, k); }
  }

  lemma FreshBatch(cfg: Tunables, now: nat)
    ensures BatchInv(Fresh(cfg, now)) && Fresh(cfg, now).cfg == cfg
  {
  }

  lemma RunSweeps(s: Sched, es: seq<Event>)
    requires Good(s) && Legal(s, es)
    ensures SweepLog(Exec(s, es).log)
  {
    hide Agree, FreshHash, ContentOk, Owned, Legal, Exec, SweepLog;
    ExecGood(s, es);
  }

  /** A sweep goes up, from its start. */
  lemma {:induction false} Ascends(log: seq<Entry>, i: nat, k: nat)
    requires SweepLog(log) && i < k < |log| && WasMoved(log[i]) && WasMoved(log[k])
    requires forall j :: i < j <= k && WasMoved(log[j]) ==> log[j].how.Sweep?
    ensures log[k].dir == log[i].dir && log[i].key < log[k].key
    decreases k
  {
    var p := k - 1;
    while p > i && !WasMoved(log[p])
      invariant i <= p < k && forall j :: p < j < k ==> !WasMoved(log[j])
    {
      p := p - 1;
    }
    if p > i { Ascends(log, i, p); }
    assert Continues(LastMoved(log[..k]), log[k]);
    LastMovedIs(log[..k], p);
  }
}
