/**
 The scheduler as deadline-iosched.c runs it: one object whose fields are updated in
 place, with the loops of the source.  Abs is the state-machine value the fields stand
 for, and every method is proved to take it where the function of the same name in
 Scheduler, Merging or BlockQueue says.
 */
module DeadlineQueue {
  import opened Types
  import opened Elevator
  import opened SortTree
  import opened QosQueue
  import opened Scheduler
  import opened Merging
  import opened BlockQueue

  class Deadline {
    const cfg: Tunables
    var now: nat
    var rqs: map<Id, Rq>
    var sortList: PerDir<Tree>
    var fifoList: PerDir<seq<Id>>
    var nextDrq: PerDir<Option<Id>>
    var hash: seq<seq<Id>>
    var hashValidCount: nat
    var dispatch: seq<Id>
    var ucsbQueue: seq<Id>
    var ucsbCnt: int
    var batching: nat
    var starved: nat
    var lastSector: nat
    var lastMerge: Option<Id>
    ghost var log: seq<Entry>
    ghost var linked: set<Id>
    ghost var submitted: set<Bio>
    ghost var taken: set<Bio>

    /** Both sort lists are search trees. */
    ghost predicate Trees()
      reads this
    {
      Bst(sortList.rd) && Bst(sortList.wr)
    }

    ghost function Abs(): Sched
      reads this
    {
      Sched(cfg, now, rqs, PerDir(ToMap(sortList.rd), ToMap(sortList.wr)), fifoList, nextDrq,
            hash, hashValidCount, dispatch, ucsbQueue, ucsbCnt, batching, starved, lastSector, lastMerge,
            log, linked, submitted, taken)
    }

    /** deadline_init */
    constructor (cfg: Tunables, now: nat)
      ensures Trees() && this.cfg == cfg
      ensures Abs() == Sched(cfg, now, map[], PerDir(map[], map[]), PerDir([], []), PerDir(None, None),
                             seq(HASH_ENTRIES, i => []), 1, [], [], 0, 0, 0, 0, None, [], {}, {}, {})
    {
      this.cfg := cfg;
      this.now := now;
      rqs := map[];
      sortList := PerDir(Leaf, Leaf);
      fifoList, nextDrq := PerDir([], []), PerDir(None, None);
      hash, hashValidCount := seq(HASH_ENTRIES, i => []), 1;
      dispatch, ucsbQueue, ucsbCnt := [], [], 0;
      batching, starved, lastSector, lastMerge := 0, 0, 0, None;
      log, linked, submitted, taken := [], {}, {}, {};
    }

    // ---------------------------------------------------------------- hash and tree

    /** deadline_del_drq_hash */
    method DelDrqHash(id: Id)
      requires id in rqs && (rqs[id].gen != 0 ==> rqs[id].slot < |hash|)
      modifies this`rqs, this`hash
      ensures Abs() == DelHash(old(Abs()), id) && rqs.Keys == old(rqs.Keys)
    {
      var r := rqs[id];
      if r.gen != 0 {
        rqs := rqs[id := r.(gen := 0)];
        hash := hash[r.slot := Without(hash[r.slot], id)];
      }
    }

    /** deadline_add_drq_hash; its BUG_ON is the precondition. */
    method AddDrqHash(id: Id)
      requires id in rqs && rqs[id].gen == 0 && |hash| == HASH_ENTRIES
      modifies this`rqs, this`hash
      ensures Abs() == AddHash(old(Abs()), id)
    {
      var r := rqs[id];
      var b := HashFn(End(r));
      rqs := rqs[id := r.(gen := hashValidCount, slot := b)];
      hash := hash[b := [id] + hash[b]];
    }

    /** deadline_del_drq_rb */
    method DelDrqRb(id: Id)
      requires Trees() && id in rqs
      modifies this`nextDrq, this`sortList
      ensures Trees() && Abs() == DelRb(old(Abs()), id)
    {
      var r := rqs[id];
      if nextDrq.At(r.dir) == Some(id) {
        var rbnext := SortTree.Next(sortList.At(r.dir), r.rbKey);
        nextDrq := nextDrq.Put(r.dir, rbnext);
      }
      var here := SortTree.Find(sortList.At(r.dir), r.rbKey);
      if here == Some(id) {
        sortList := sortList.Put(r.dir, SortTree.Erased(sortList.At(r.dir), r.rbKey));
      }
    }

    /** The request leaves its FIFO, the hash and the tree. */
    method Unindex(id: Id)
      requires Trees() && id in rqs && (rqs[id].gen != 0 ==> rqs[id].slot < |hash|)
      modifies this`rqs, this`fifoList, this`hash, this`nextDrq, this`sortList
      ensures var s := old(Abs()); var d := s.rqs[id].dir;
        Trees() && Abs() == DelRb(DelHash(s.(fifo := s.fifo.Put(d, Without(s.fifo.At(d), id))), id), id)
    {
      hide DelHash, DelRb, ToMap, Bst, Without;
      var d := rqs[id].dir;
      fifoList := fifoList.Put(d, Without(fifoList.At(d), id));
      DelDrqHash(id);
      DelDrqRb(id);
    }

    /** deadline_remove_request */
    method RemoveRequest(id: Id)
      requires Trees() && id in rqs && (rqs[id].gen != 0 ==> rqs[id].slot < |hash|)
      modifies this`rqs, this`fifoList, this`hash, this`nextDrq, this`sortList, this`lastMerge, this`dispatch
      ensures Trees() && Abs() == Remove(old(Abs()), id)
    {
      hide DelHash, DelRb, ToMap, Bst, Without;
      if !rqs[id].qosFlag {
        Unindex(id);
      } else {
        rqs := rqs[id := rqs[id].(qosFlag := false)];
      }
      if lastMerge == Some(id) {
        lastMerge := None;
      }
      dispatch := Without(dispatch, id);
    }

    /** deadline_move_to_dispatch; the entry records the move. */
    method MoveToDispatch(id: Id, ghost entry: Entry)
      requires Trees() && id in rqs && (rqs[id].gen != 0 ==> rqs[id].slot < |hash|)
      modifies this
      ensures Trees()
      ensures var t := Remove(old(Abs()), id);
              Abs() == t.(dispatch := t.dispatch + [id], log := t.log + [entry], linked := {})
    {
      hide Remove, ToMap, Bst;
      RemoveRequest(id);
      dispatch := dispatch + [id];
      log, linked := log + [entry], {};
    }

    /** deadline_move_request */
    method MoveRequest(id: Id, ghost how: How)
      requires Trees() && id in rqs && (rqs[id].gen != 0 ==> rqs[id].slot < |hash|)
      modifies this
      ensures Trees() && Abs() == Move(old(Abs()), id, how)
    {
      hide Remove, Bst, Succ, ToMap;
      ghost var s := Abs();
      var r := rqs[id];
      var rbnext := SortTree.Next(sortList.At(r.dir), r.rbKey);
      assert s.sort.At(r.dir) == ToMap(sortList.At(r.dir));
      nextDrq := PerDir(None, None);
      if rbnext.Some? {
        nextDrq := nextDrq.Put(r.dir, rbnext);
      }
      lastSector := r.sector + r.nr;
      assert Abs() == s.(next := PerDir(None, None).Put(r.dir, rbnext), lastSector := r.sector + r.nr);
      MoveToDispatch(id, Entry(id, r.dir, r.rbKey, how, fifoList.At(r.dir.Other()) != [], InLine(s)));
    }

    /**
     deadline_add_drq_rb with its retry loop: the first descent may meet an alias, which is
     moved out of the way; the second one cannot.
     */
    method AddDrqRb(id: Id)
      requires Trees() && Agree(Abs(), {id}) && !OnSort(Abs(), id)
      modifies this
      ensures Trees() && Abs() == AddRb(old(Abs()), id)
    {
      hide Agree, Evicted, Move, ToMap, Bst, HashOk, SideOk, PlacesOk, ListsOk, Without, Movable;
      ghost var s := Abs();
      AliasPath(s, id);
      var d := rqs[id].dir;
      var key := rqs[id].sector;
      rqs := rqs[id := rqs[id].(rbKey := key)];
      ghost var s0 := Abs();
      assert s0 == s.(rqs := s.rqs[id := s.rqs[id].(rbKey := key)]);
      ghost var tries := 0;
      var alias, tree := SortTree.Link(sortList.At(d), key, id);
      while alias.Some?
        invariant Trees() && tries <= 1
        invariant Abs() == if tries == 0 then s0 else Evicted(s0, d, key)
        invariant alias.Some? ==> tries == 0 && key in s0.sort.At(d) && alias.value == s0.sort.At(d)[key]
        invariant alias.None? ==> Abs() == Evicted(s0, d, key) && Bst(tree)
                                  && ToMap(tree) == ToMap(sortList.At(d))[key := id]
        decreases 1 - tries
      {
        MoveRequest(alias.value, Alias);
        tries := tries + 1;
        assert Abs().sort.At(d) == ToMap(sortList.At(d));
        alias, tree := SortTree.Link(sortList.At(d), key, id);
      }
      tree := SortTree.Rebalance(tree);
      sortList := sortList.Put(d, tree);
      linked := linked + {id};
    }

    /** deadline_add_request */
    method AddRequestTo(id: Id)
      requires Trees() && Agree(Abs(), {id}) && !OnSort(Abs(), id)
      modifies this
      ensures Trees() && Abs() == AddRequest(old(Abs()), id)
    {
      hide AddRb, Agree, ToMap, Bst, OnSort;
      ghost var s := Abs();
      AddRbAgree(s, id, {id});
      AddDrqRb(id);
      var r := rqs[id];
      rqs := rqs[id := r.(expires := now + cfg.fifoExpire.At(r.dir))];
      fifoList := fifoList.Put(r.dir, fifoList.At(r.dir) + [id]);
    }

    // -------------------------------------------------------------------- the lookups

    /** deadline_find_drq_hash: scans one hash list, unlinking the stale entries it passes. */
    method FindDrqHash(offset: nat) returns (found: Option<Id>)
      requires HashOk(Abs())
      modifies this`rqs, this`hash
      ensures Abs() == PruneHash(old(Abs()), offset) && found == FindHash(old(Abs()), offset)
    {
      hide ScanList, Stale, Without, Walked, DelHash, Unhashed, FindHash, PruneHash;
      ghost var s := Abs();
      var b := HashFn(offset);
      ghost var w := WalkStart(s, b, offset);
      var entry := 0;
      while entry < |hash[b]|
        invariant b < |hash| && entry == |w.kept|
        invariant Walked(s, b, offset, w) && Abs() == AtWalk(s, b, w) && hash[b] == w.kept + w.rest
        decreases |hash[b]| - entry
      {
        var id := hash[b][entry];
        WalkStep(s, b, offset, w);
        StepUnlinks(s, b, offset, w);
        if Stale(rqs[id], hashValidCount) {
          DelDrqHash(id);
          w := Walk(w.kept, w.rest[1..], w.gone + {id});
        } else if End(rqs[id]) == offset {
          break;
        } else {
          entry := entry + 1;
          w := Walk(w.kept + [id], w.rest[1..], w.gone);
        }
      }
      found := if entry < |hash[b]| then Some(hash[b][entry]) else None;
      WalkEnd(s, offset, w);
    }

    /** The part of deadline_merge behind elv_try_last_merge. */
    method LookupTarget(b: Bio) returns (kind: MergeKind, target: Option<Id>)
      requires Trees() && HashOk(Abs())
      modifies this`rqs, this`hash, this`lastMerge
      ensures Answer(Abs(), kind, target) == LookupMerge(old(Abs()), b)
    {
      hide HashOk, FindHash, PruneHash, ToMap;
      var rq := FindDrqHash(b.sector);
      if rq.Some? && rq.value in rqs && MergeOk(rqs[rq.value], b) {
        lastMerge := rq;
        return BackMerge, rq;
      }
      if cfg.frontMerges {
        var key := b.sector + b.nr;
        assert Abs().sort.At(b.dir) == ToMap(sortList.At(b.dir));
        rq := SortTree.Find(sortList.At(b.dir), key);
        if rq.Some? && rq.value in rqs && MergeOk(rqs[rq.value], b) {
          lastMerge := rq;
          return FrontMerge, rq;
        }
      }
      return NoMerge, None;
    }

    /** deadline_merge */
    method MergeTarget(b: Bio) returns (kind: MergeKind, target: Option<Id>)
      requires Trees() && HashOk(Abs())
      modifies this`rqs, this`hash, this`lastMerge
      ensures Answer(Abs(), kind, target) == Merge(old(Abs()), b)
    {
      hide HashOk, LookupMerge, ToMap, TryMerge;
      assert HashOk(Abs().(lastMerge := None)) by { HashNotLastMerge(Abs()); }
      if lastMerge.Some? && lastMerge.value in rqs {
        var r := rqs[lastMerge.value];
        if !Mergeable(r) {
          lastMerge := None;
        } else {
          kind := TryMerge(r, b);
          if !kind.NoMerge? {
            return kind, lastMerge;
          }
        }
      }
      kind, target := LookupTarget(b);
    }

    // ------------------------------------------------------------- after merging a bio

    method Rehashed(id: Id)
      requires id in rqs && HashOk(Abs())
      modifies this`rqs, this`hash
      ensures Abs() == Rehash(old(Abs()), id)
    {
      DelDrqHash(id);
      AddDrqHash(id);
    }

    /** The repositioning of a request whose start has moved. */
    method Repositioned(id: Id)
      requires Trees() && Agree(Abs(), {id})
      modifies this
      ensures Trees() && Abs() == Reposition(old(Abs()), id)
    {
      hide SideOk, PlacesOk, AddRb, DelRb, ToMap, Bst;
      ghost var s := Abs();
      DelRbAgree(s, id, {id});
      if rqs[id].sector != rqs[id].rbKey {
        DelDrqRb(id);
        AddDrqRb(id);
      }
    }

    /** deadline_merged_request */
    method MergedRequestAt(id: Id)
      requires Trees() && Agree(Abs(), {id})
      modifies this
      ensures Trees() && Abs() == MergedRequest(old(Abs()), id)
    {
      hide SideOk, PlacesOk, Rehash, Reposition, ToMap, Bst;
      RehashAgree(Abs(), id, {id});
      Rehashed(id);
      Repositioned(id);
      lastMerge := Some(id);
    }

    /** The FIFO move of deadline_merged_requests. */
    method InheritPlace(id: Id, nx: Id)
      requires id in rqs && nx in rqs
      modifies this`fifoList, this`rqs
      ensures Abs() == InheritExpiry(old(Abs()), id, nx)
    {
      hide Without, InsertAfter, ToMap;
      var r, n := rqs[id], rqs[nx];
      if id in fifoList.At(r.dir) && nx in fifoList.At(n.dir) {
        if n.expires < r.expires {
          fifoList := fifoList.Put(r.dir, InsertAfter(Without(fifoList.At(r.dir), id), nx, id));
          rqs := rqs[id := r.(expires := n.expires)];
        }
      }
    }

    /** deadline_merged_requests and the release of the request merged away. */
    method MergedRequestsAt(id: Id, nx: Id)
      requires Trees() && Agree(Abs(), {id, nx}) && id != nx && rqs[id].dir == rqs[nx].dir
      requires rqs[id].sector == rqs[id].rbKey
      modifies this
      ensures Trees() && Abs() == MergedRequests(old(Abs()), id, nx)
    {
      hide SideOk, PlacesOk, Rehash, Remove, ToMap, Bst, InheritExpiry;
      ghost var s := Abs();
      MergedRequestsIs(s, id, nx);
      InheritKnown(Rehash(s, id), id, nx);
      hide Agree, HashOk, MergedRequests;
      Rehashed(id);
      InheritPlace(id, nx);
      RemoveRequest(nx);
      rqs := rqs - {nx};
    }

    // ------------------------------------------------------------------ the QoS queue

    /** ucsb_io_add_request */
    method UcsbAddRequest(id: Id)
      requires id in rqs && forall j :: j in ucsbQueue ==> j in rqs
      modifies this`ucsbQueue, this`ucsbCnt
      ensures Abs() == UcsbAdd(old(Abs()), id)
    {
      hide InsertPos, FirstLower, ScanBack, ToMap;
      ucsbCnt := ucsbCnt + 1;
      var q, table := ucsbQueue, rqs;
      var keys := seq(|q|, i requires 0 <= i < |q| && forall j :: j in q ==> j in table => QosKey(table[q[i]]));
      assert keys == QosKeys(old(Abs()), q);
      var pos := QosQueue.FindSlot(keys, QosKey(rqs[id]));
      ucsbQueue := q[..pos] + [id] + q[pos..];
    }

    /** ucsb_io_dispatch_request */
    method UcsbDispatchRequest(priority: int) returns (done: bool)
      requires ucsbQueue != [] ==> ucsbQueue[0] in rqs
      modifies this`ucsbQueue, this`ucsbCnt, this`dispatch, this`log
      ensures done == UcsbReady(old(Abs()), priority)
      ensures Abs() == if done then UcsbDispatch(old(Abs())) else old(Abs())
    {
      if ucsbQueue == [] {
        return false;
      }
      var id := ucsbQueue[0];
      var r := rqs[id];
      if QosKey(r).priority < priority {
        return false;
      }
      ucsbQueue := ucsbQueue[1..];
      ucsbCnt := ucsbCnt - 1;
      dispatch := dispatch + [id];
      log := log + [Entry(id, r.dir, r.sector, QosHead, fifoList.At(r.dir.Other()) != [], false)];
      done := true;
    }

    // --------------------------------------------------------------------- dispatching

    /** dispatch_find_request: the best request of a direction outside a batch. */
    method FindRequest(d: Dir, ghost b: nat, ghost st: nat, ghost x: set<Id>) returns (drq: Id, ghost how: How)
      requires Trees() && Settled(Abs(), x) && fifoList.At(d) != []
      requires batching == b && starved == st
      modifies this`batching
      ensures var p := FindIn(old(Abs()), b, st, d, x);
        p.choice == Some((drq, how)) && Abs() == WithCounters(old(Abs()), p.(batching := batching))
        && p.batching == Uint(batching + 1)
    {
      hide SideOk, PlacesOk, HashOk, ListsOk, ToMap;
      FifoMeansTree(Abs(), d, x);
      assert Abs().sort.At(d) == ToMap(sortList.At(d));
      var head := fifoList.At(d)[0];
      if now > rqs[head].expires {
        batching := 0;
        drq, how := head, Restart(true);
      } else if nextDrq.At(d).Some? {
        drq, how := nextDrq.At(d).value, Sweep;
      } else {
        batching := 0;
        assert sortList.At(d).Node? by { EmptyTree(sortList.At(d)); }
        drq := SortTree.FindFirst(sortList.At(d));
        how := Restart(false);
      }
    }

    /** The next request, if any, and what it does to the running batch. */
    method CheckBatch() returns (drq: Option<Id>)
      requires NextRq(Abs()).Some? ==> NextRq(Abs()).value in rqs
      modifies this`batching
      ensures drq == NextRq(old(Abs())) && batching == BatchAfterCheck(old(Abs()))
    {
      hide ToMap;
      drq := None;
      if nextDrq.rd.Some? {
        drq := nextDrq.rd;
      }
      if nextDrq.wr.Some? {
        drq := nextDrq.wr;
      }
      if drq.Some? {
        if lastSector != rqs[drq.value].sector {
          batching := Uint(batching + cfg.fifoBatch);
        }
      }
    }

    /** Outside a batch: the direction to serve. */
    method ChooseDirection() returns (d: Option<Dir>)
      modifies this`starved
      ensures d == if fifoList.rd != [] && !(fifoList.wr != [] && old(starved) >= cfg.writesStarved) then Some(Read)
                   else if fifoList.wr != [] then Some(Write) else None
      ensures starved == if d == Some(Write) then 0
                         else if d == Some(Read) && fifoList.wr != [] then old(starved) + 1 else old(starved)
    {
      var anyReads, anyWrites := fifoList.rd != [], fifoList.wr != [];
      if anyReads {
        var tooOften := starved >= cfg.writesStarved;
        if anyWrites {
          starved := starved + 1;
        }
        if !(anyWrites && tooOften) {
          return Some(Read);
        }
      }
      if anyWrites {
        starved := 0;
        return Some(Write);
      }
      d := None;
    }

    /** deadline_dispatch_requests */
    method DispatchOne(ghost x: set<Id>) returns (done: bool)
      requires Trees() && Settled(Abs(), x)
      modifies this
      ensures Trees() && done == SelectRequest(old(Abs()), x).choice.Some?
      ensures Abs() == if done then DispatchRequests(old(Abs()), x)
                       else WithCounters(old(Abs()), SelectRequest(old(Abs()), x))
    {
      hide SideOk, PlacesOk, HashOk, ListsOk, ToMap, Bst, FindIn, Move, Movable, NextRq, BatchAfterCheck;
      ghost var s := Abs();
      ghost var p := SelectRequest(s, x);
      SelectedQueued(s, x);
      if NextRq(s).Some? { NextKnown(s, x); }
      var drq := CheckBatch();
      if drq.Some? && batching < cfg.fifoBatch {
        batching := Uint(batching + 1);
        MoveNow(s, p, x);
        MoveRequest(drq.value, Sweep);
        return true;
      }
      var dir := ChooseDirection();
      if dir.None? {
        return false;
      }
      var d := dir.value;
      ghost var s1 := WithCounters(s, Pick(batching, starved, None));
      CountersAgree(s, Pick(batching, starved, None), x);
      FindInCounted(s, s1, batching, starved, d, x);
      var id, how := FindRequest(d, batching, starved, x);
      batching := Uint(batching + 1);
      MoveNow(s, p, x);
      MoveRequest(id, how);
      done := true;
    }

    /** deadline_next_request */
    method NextRequestOf() returns (rq: Option<Id>)
      requires Trees() && Agree(Abs(), {})
      modifies this
      ensures Trees() && Abs() == NextRequest(old(Abs()))
      ensures rq == if dispatch == [] then None else Some(dispatch[0])
    {
      hide SideOk, PlacesOk, HashOk, ToMap, Bst, SelectRequest, DispatchRequests, Move;
      if dispatch != [] {
        return Some(dispatch[0]);
      }
      var done := UcsbDispatchRequest(UCSB_DEF_PRIORITY);
      if !done {
        done := DispatchOne({});
        if done {
          DispatchAgree(old(Abs()), {});
        } else {
          CountersAgree(old(Abs()), SelectRequest(old(Abs()), {}), {});
          done := UcsbDispatchRequest(0);
        }
      }
      rq := if done then Some(dispatch[0]) else None;
    }

    /** elv_next_request, for a driver without a prep function. */
    method FetchRequest() returns (rq: Option<Id>)
      requires Trees() && Agree(Abs(), {})
      modifies this
      ensures Trees() && Abs() == Fetch(old(Abs()))
      ensures rq == if dispatch == [] then None else Some(dispatch[0])
    {
      hide SideOk, PlacesOk, HashOk, ToMap, Bst, NextRequest;
      NextRequestAgree(Abs());
      rq := NextRequestOf();
      if rq.Some? {
        rqs := rqs[rq.value := rqs[rq.value].(started := true)];
        lastMerge := if lastMerge == rq then None else lastMerge;
      }
    }

    /** The driver dequeues a request it was handed. */
    method DequeueRequest(id: Id)
      requires Trees() && Agree(Abs(), {}) && id in dispatch
      modifies this
      ensures Trees() && Abs() == Take(old(Abs()), id)
    {
      hide SideOk, PlacesOk, Remove, ToMap, Bst;
      ghost var bios := rqs[id].bios;
      RemoveRequest(id);
      rqs := rqs - {id};
      taken := taken + set b | b in bios;
    }

    // ----------------------------------------------------------------------- insertion

    /** The barrier branch of deadline_insert_request, with its drain loop. */
    method InsertBarrierRequest(id: Id)
      requires Trees() && Settled(Abs(), {id})
      modifies this
      ensures Trees() && Abs() == InsertBarrier(old(Abs()), id)
    {
      hide SideOk, PlacesOk, HashOk, ToMap, Bst, SelectRequest, DispatchRequests, Move, Movable;
      ghost var s := Abs();
      NewGenSettled(s, {id});
      hashValidCount := NextGen(hashValidCount);
      lastMerge := None;
      ghost var s1 := Abs();
      DrainAgree(s1, {id});
      var more := true;
      while more
        invariant Trees() && (more ==> Settled(Abs(), {id}) && Drain(Abs(), {id}) == Drain(s1, {id}))
        invariant !more ==> Abs() == Drain(s1, {id})
        decreases more, |fifoList.rd| + |fifoList.wr|
      {
        ghost var before := Abs();
        more := DispatchOne({id});
        if more {
          DispatchAgree(before, {id});
        }
      }
      ghost var r := s.rqs[id];
      dispatch := dispatch + [id];
      log := log + [Entry(id, r.dir, r.sector, Barrier, false, false)];
    }

    /** deadline_insert_request for a filesystem request. */
    method InsertRequestOf(id: Id)
      requires Trees() && Settled(Abs(), {id}) && rqs[id].gen == 0 && rqs[id].bios != []
      modifies this
      ensures Trees() && Abs() == InsertRequest(old(Abs()), id)
    {
      hide SideOk, PlacesOk, ToMap, Bst, InsertBarrier, AddRequest, UcsbAdd;
      ghost var s := Abs();
      if rqs[id].barrier {
        InsertBarrierRequest(id);
        return;
      }
      if IoType(rqs[id].bios[0]) != BestEffort {
        rqs := rqs[id := rqs[id].(qosFlag := true)];
        UcsbAddRequest(id);
        return;
      }
      HashNewSettled(s, id);
      if Mergeable(rqs[id]) {
        AddDrqHash(id);
        if lastMerge.None? {
          lastMerge := Some(id);
        }
      }
      assert Abs() == HashNew(s, id);
      AddRequestTo(id);
    }

    /** deadline_queue_empty */
    method QueueEmpty() returns (empty: bool)
      ensures empty == Empty(Abs())
    {
      empty := !(fifoList.wr != [] || fifoList.rd != [] || ucsbQueue != [] || dispatch != []);
    }

    // ------------------------------------------------------------------- __make_request

    method NewRequestFor(b: Bio, id: Id)
      requires Trees() && Agree(Abs(), {}) && id !in rqs
      modifies this
      ensures Trees() && Abs() == NewRequest(old(Abs()), b, id)
    {
      hide SideOk, PlacesOk, HashOk, ToMap, Bst, InsertRequest;
      AdmittedSettled(Abs(), b, id);
      rqs := rqs[id := NewRq(b)];
      submitted := submitted + {b};
      InsertRequestOf(id);
    }

    /** attempt_merge once its tests have passed. */
    method JoinRequests(id: Id, nx: Id)
      requires Trees() && Agree(Abs(), {id, nx}) && id != nx && rqs[id].dir == rqs[nx].dir
      requires rqs[id].sector == rqs[id].rbKey
      modifies this
      ensures Trees() && Abs() == Join(old(Abs()), id, nx)
    {
      hide SideOk, PlacesOk, HashOk, ToMap, Bst, MergedRequests;
      Reshape(Abs(), id, Absorb(rqs[id], rqs[nx]), {id, nx});
      rqs := rqs[id := Absorb(rqs[id], rqs[nx])];
      MergedRequestsAt(id, nx);
    }

    /** The back-merge branch, with attempt_back_merge. */
    method MergeBack(id: Id, b: Bio, joinFits: bool)
      requires Trees() && Agree(Abs(), {}) && Queued(Abs(), id)
      modifies this
      ensures Trees() && Abs() == BackMerged(old(Abs()), id, b, joinFits)
    {
      hide SideOk, PlacesOk, HashOk, ToMap, Bst, Join, MergedRequest, CanJoin;
      GrownAgree(Abs(), id, GrowBack(rqs[id], b), b);
      BackKeyKept(Abs(), id);
      rqs := rqs[id := GrowBack(rqs[id], b)];
      submitted := submitted + {b};
      assert Abs().sort.At(rqs[id].dir) == ToMap(sortList.At(rqs[id].dir));
      var next := SortTree.Next(sortList.At(rqs[id].dir), rqs[id].rbKey);
      if next.Some? && next.value in rqs && CanJoin(rqs[id], rqs[next.value], cfg.maxSectors, joinFits) {
        NeighbourQueued(Abs(), id, next.value);
        JoinRequests(id, next.value);
      } else {
        MergedRequestAt(id);
      }
    }

    /** The front-merge branch, with attempt_front_merge. */
    method MergeFront(id: Id, b: Bio, joinFits: bool)
      requires Trees() && Agree(Abs(), {}) && Queued(Abs(), id)
      modifies this
      ensures Trees() && Abs() == FrontMerged(old(Abs()), id, b, joinFits)
    {
      hide SideOk, PlacesOk, HashOk, ToMap, Bst, Join, MergedRequest, CanJoin;
      GrownAgree(Abs(), id, GrowFront(rqs[id], b), b);
      rqs := rqs[id := GrowFront(rqs[id], b)];
      submitted := submitted + {b};
      assert Abs().sort.At(rqs[id].dir) == ToMap(sortList.At(rqs[id].dir));
      var prev := SortTree.Prev(sortList.At(rqs[id].dir), rqs[id].rbKey);
      if prev.Some? && prev.value in rqs && CanJoin(rqs[prev.value], rqs[id], cfg.maxSectors, joinFits) {
        NeighbourQueued(Abs(), id, prev.value);
        assert {id, prev.value} == {prev.value, id};
        JoinRequests(prev.value, id);
      } else {
        MergedRequestAt(id);
      }
    }

    /** __make_request for a bio and a free request. */
    method MakeRequestFor(b: Bio, id: Id, segsFit: bool, joinFits: bool)
      requires Trees() && Inv(Abs()) && OnDevice(Abs()) && BioOk(b, cfg.maxSectors) && id !in rqs
      modifies this
      ensures Trees() && Abs() == MakeRequest(old(Abs()), b, id, segsFit, joinFits)
    {
      hide SideOk, PlacesOk, ToMap, Bst, Merge, NewRequest, BackMerged, FrontMerged, FreshHash, OnDevice;
      var empty := QueueEmpty();
      if empty || b.barrier || IoType(b) != BestEffort {
        NewRequestFor(b, id);
        return;
      }
      MergeSound(Abs(), b);
      var kind, target := MergeTarget(b);
      match kind {
        case NoMerge =>
        case BackMerge =>
          if rqs[target.value].nr + b.nr <= cfg.maxSectors && segsFit {
            MergeBack(target.value, b, joinFits);
            return;
          }
        case FrontMerge =>
          if rqs[target.value].nr + b.nr <= cfg.maxSectors && segsFit {
            MergeFront(target.value, b, joinFits);
            return;
          }
      }
      if target.Some? {
        RefuseMergeAgree(Abs(), target.value);
        rqs := rqs[target.value := rqs[target.value].(nomerge := true)];
        lastMerge := None;
      }
      NewRequestFor(b, id);
    }
  }

  /** The state in the middle of a walk along hash list b. */
  ghost function AtWalk(s: Sched, b: nat, w: Walk): Sched
    requires b < |s.hash|
  {
    s.(rqs := Unhashed(s.rqs, w.gone), hash := s.hash[b := w.kept + w.rest])
  }

  /** A walk along a hash list: entries passed over, entries to come, entries unlinked. */
  datatype Walk = Walk(kept: seq<Id>, rest: seq<Id>, gone: set<Id>)

  /** The walk is on its way to what ScanList says of hash list b. */
  ghost predicate Walked(s: Sched, b: nat, offset: nat, w: Walk) {
    && HashOk(s) && b < |s.hash| && NoDup(w.kept + w.rest)
    && (forall id :: id in s.hash[b] <==> id in w.kept || id in w.rest || id in w.gone)
    && (forall id :: id in w.gone ==> id !in w.kept && id !in w.rest)
    && var c := ScanList(s.rqs, s.hashGen, w.rest, offset);
       ScanList(s.rqs, s.hashGen, s.hash[b], offset) == Scan(c.found, w.kept + c.kept)
  }

  lemma WalkStart(s: Sched, b: nat, offset: nat) returns (w: Walk)
    requires HashOk(s) && b < HASH_ENTRIES
    ensures b < |s.hash| && Walked(s, b, offset, w) && AtWalk(s, b, w) == s
    ensures w.kept == [] && s.hash[b] == w.kept + w.rest
  {
    w := Walk([], s.hash[b], {});
    var c := ScanList(s.rqs, s.hashGen, s.hash[b], offset);
    assert [] + c.kept == c.kept && [] + s.hash[b] == s.hash[b];
    assert Unhashed(s.rqs, {}) == s.rqs && s.hash[b := s.hash[b]] == s.hash;
  }

  lemma WalkLists(kept: seq<Id>, rest: seq<Id>)
    requires rest != [] && NoDup(kept + rest)
    ensures var id := rest[0];
      && Without(kept + rest, id) == kept + rest[1..] && kept + rest == (kept + [id]) + rest[1..]
      && NoDup(kept + rest[1..]) && id !in kept && id !in rest[1..]
      && (forall x :: x in rest <==> x == id || x in rest[1..])
      && (forall x :: x in kept + [id] <==> x in kept || x == id)
  {
    var id, l := rest[0], kept + rest;
    assert l[|kept|] == id;
    WithoutAt(l, |kept|);
    assert l[..|kept|] == kept && l[|kept| + 1..] == rest[1..];
    forall k | 0 <= k < |kept| ensures kept[k] != id {
      assert l[k] == kept[k];
    }
    forall k | 0 <= k < |rest[1..]| ensures rest[1..][k] != id {
      assert l[|kept| + 1 + k] == rest[1..][k];
    }
  }

  /** What the walk does with the entry it looks at. */
  lemma WalkStep(s: Sched, b: nat, offset: nat, w: Walk)
    requires Walked(s, b, offset, w) && w.rest != []
    ensures var id := w.rest[0];
      && id in s.rqs && id !in w.gone && s.rqs[id].gen != 0 && s.rqs[id].slot == b
      && Without(w.kept + w.rest, id) == w.kept + w.rest[1..]
      && w.kept + w.rest == (w.kept + [id]) + w.rest[1..]
      && (Stale(s.rqs[id], s.hashGen) ==> Walked(s, b, offset, Walk(w.kept, w.rest[1..], w.gone + {id})))
      && (!Stale(s.rqs[id], s.hashGen) && End(s.rqs[id]) != offset ==>
            Walked(s, b, offset, Walk(w.kept + [id], w.rest[1..], w.gone)))
  {
    hide Stale, Without;
    var id := w.rest[0];
    assert id in s.hash[b];
    WalkLists(w.kept, w.rest);
    var c := ScanList(s.rqs, s.hashGen, w.rest[1..], offset);
    assert (w.kept + [id]) + c.kept == w.kept + ([id] + c.kept);
  }

  /** Unlinking the entry at hand is the next stage of the walk. */
  lemma StepUnlinks(s: Sched, b: nat, offset: nat, w: Walk)
    requires Walked(s, b, offset, w) && w.rest != []
    ensures var id := w.rest[0]; var t := AtWalk(s, b, w);
      && id in t.rqs && t.rqs[id] == s.rqs[id] && t.rqs[id].gen != 0 && t.rqs[id].slot < |t.hash|
      && DelHash(t, id) == AtWalk(s, b, Walk(w.kept, w.rest[1..], w.gone + {id}))
      && DelHash(t, id).hash[b] == w.kept + w.rest[1..]
  {
    WalkStep(s, b, offset, w);
    hide Walked, Stale, Without, NoDup;
    UnhashedMore(s.rqs, w.gone, w.rest[0]);
    hide Unhashed;
    assert AtWalk(s, b, w).hash[b := w.kept + w.rest[1..]] == s.hash[b := w.kept + w.rest[1..]];
  }

  lemma UnhashedMore(rqs: map<Id, Rq>, gone: set<Id>, id: Id)
    requires id in rqs && id !in gone
    ensures var r := Unhashed(rqs, gone);
      id in r && r[id] == rqs[id] && r[id := r[id].(gen := 0)] == Unhashed(rqs, gone + {id})
  {
  }

  lemma WalkResult(s: Sched, b: nat, offset: nat, w: Walk)
    requires Walked(s, b, offset, w)
    requires w.rest != [] ==> w.rest[0] in s.rqs && !Stale(s.rqs[w.rest[0]], s.hashGen)
                              && End(s.rqs[w.rest[0]]) == offset
    ensures var c := ScanList(s.rqs, s.hashGen, s.hash[b], offset);
      && c == Scan(if w.rest == [] then None else Some(w.rest[0]), w.kept + w.rest)
      && w.gone == (set id | id in s.hash[b] && id !in c.kept)
  {
    hide Stale;
    assert w.rest == [] ==> w.kept + [] == w.kept;
    assert forall id :: id in w.kept + w.rest <==> id in w.kept || id in w.rest;
  }

  /** The walk stops at the end of the list or at a match: the answer and what is left. */
  lemma WalkEnd(s: Sched, offset: nat, w: Walk)
    requires HashOk(s) && Walked(s, HashFn(offset), offset, w)
    requires w.rest != [] ==> w.rest[0] in s.rqs && !Stale(s.rqs[w.rest[0]], s.hashGen)
                              && End(s.rqs[w.rest[0]]) == offset
    ensures AtWalk(s, HashFn(offset), w) == PruneHash(s, offset)
    ensures FindHash(s, offset) == if w.rest == [] then None else Some(w.rest[0])
  {
    hide Walked, Stale, Unhashed, ScanList;
    WalkResult(s, HashFn(offset), offset, w);
  }

  lemma EmptyTree(t: Tree)
    ensures t.Leaf? ==> ToMap(t) == map[]
  {
  }

  /** The counters play no part in finding a request. */
  lemma FindInCounted(s: Sched, t: Sched, b: nat, st: nat, d: Dir, x: set<Id>)
    requires Settled(s, x) && Settled(t, x) && t == s.(batching := t.batching, starved := t.starved)
    requires s.fifo.At(d) != []
    ensures FindIn(t, b, st, d, x) == FindIn(s, b, st, d, x)
  {
    hide SideOk, PlacesOk, HashOk, ListsOk;
  }

  /** The chosen request can be moved once the counters are set. */
  lemma MoveNow(s: Sched, p: Pick, x: set<Id>)
    requires Settled(s, x) && p == SelectRequest(s, x) && p.choice.Some?
    ensures var id := p.choice.value.0; var t := WithCounters(s, p);
      && id in t.rqs && (t.rqs[id].gen != 0 ==> t.rqs[id].slot < |t.hash|)
      && DispatchRequests(s, x) == Move(t, id, p.choice.value.1)
  {
    hide SideOk, PlacesOk, ListsOk, SelectRequest, Move;
    SelectedQueued(s, x);
  }

  lemma HashNotLastMerge(s: Sched)
    requires HashOk(s)
    ensures HashOk(s.(lastMerge := None))
  {
  }

  /** What the retry loop relies on: the alias can be moved, and afterwards the key is free. */
  lemma AliasPath(s: Sched, id: Id)
    requires Agree(s, {id}) && !OnSort(s, id)
    ensures var k := s.rqs[id].sector; var d := s.rqs[id].dir;
      var s0 := s.(rqs := s.rqs[id := s.rqs[id].(rbKey := k)]);
      && id in s.rqs && HashOk(s0)
      && (k in s0.sort.At(d) ==> s0.sort.At(d)[k] in s0.rqs && s0.sort.At(d)[k] != id)
      && (k in s0.sort.At(d) && s0.rqs[s0.sort.At(d)[k]].gen != 0 ==>
            s0.rqs[s0.sort.At(d)[k]].slot < |s0.hash|)
      && k !in Evicted(s0, d, k).sort.At(d)
      && (k in s0.sort.At(d) ==> Evicted(s0, d, k) == Move(s0, s0.sort.At(d)[k], Alias))
      && (k !in s0.sort.At(d) ==> Evicted(s0, d, k) == s0)
      && SideOk(s, d) && HashOk(s)
  {
    var k, d := s.rqs[id].sector, s.rqs[id].dir;
    RekeyAgree(s, id, {id});
    var s0 := s.(rqs := s.rqs[id := s.rqs[id].(rbKey := k)]);
    assert SideOk(s, d);
    EvictedAgree(s0, id, k, {id});
  }
}
