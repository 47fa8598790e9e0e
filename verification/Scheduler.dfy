/**
 The deadline scheduler with the QoS queue as a state machine over values.  Every
 function follows one function of deadline-iosched.c, statement by statement; the class
 DeadlineQueue carries the same steps out on mutable fields and is proved to agree.

 `log` records what has been put on the dispatch list, in order.  `submitted` and
 `taken` record the bios handed in and the bios the driver has dequeued, and `linked` the
 requests linked into a tree since the last deadline_move_request.  The code never reads
 these four.
 */
module Scheduler {
  import opened Types
  import opened Elevator
  import opened SortTree
  import opened QosQueue

  type Id = nat

  const HASH_ENTRIES: nat := 1024
  const UCSB_DEF_PRIORITY: int := 16
  /** unsigned int arithmetic of `batching`, unsigned long of hash_valid_count. */
  const UINT_SPACE: nat := 0x1_0000_0000

  /** The sysfs settings; writes_starved is taken non-negative. */
  datatype Tunables = Tunables(fifoExpire: PerDir<nat>, fifoBatch: nat, writesStarved: nat,
                               frontMerges: bool, maxSectors: nat)

  /** Why a request went to the dispatch list. */
  datatype How =
    | Sweep                   // through next_drq
    | Restart(expired: bool)  // the FIFO head when it expired, else the lowest sector
    | Alias                   // pushed out by a request starting at the same sector
    | QosHead                 // from ucsb_queue
    | Barrier                 // a hard barrier

  /**
   A request that went to the dispatch list, and whether the other direction had requests, and
   next_drq one in line with the last move, when that was decided.
   */
  datatype Entry = Entry(id: Id, dir: Dir, key: nat, how: How, otherWaiting: bool, inLine: bool)

  datatype Sched = Sched(
    cfg: Tunables,
    now: nat,                      // jiffies
    rqs: map<Id, Rq>,
    sort: PerDir<map<nat, Id>>,    // sort_list
    fifo: PerDir<seq<Id>>,         // fifo_list
    next: PerDir<Option<Id>>,      // next_drq
    hash: seq<seq<Id>>,
    hashGen: nat,                  // hash_valid_count
    dispatch: seq<Id>,
    ucsb: seq<Id>,                 // ucsb_queue
    ucsbCnt: int,
    batching: nat,
    starved: nat,
    lastSector: nat,
    lastMerge: Option<Id>,
    log: seq<Entry>,
    linked: set<Id>,
    submitted: set<Bio>,
    taken: set<Bio>)

  /**
   DL_HASH_FN.  hash_long is not part of this model; this function of sec >> 3 stands for it,
   and of it only matters that it is one and stays below HASH_ENTRIES.
   */
  function HashFn(sector: nat): (b: nat)
    ensures b < HASH_ENTRIES
  {
    (sector / 8) % HASH_ENTRIES
  }

  function Uint(x: nat): nat {
    x % UINT_SPACE
  }

  /** DL_INVALIDATE_HASH: the generation skips 0 when it wraps. */
  function NextGen(g: nat): (r: nat)
    ensures r != 0
  {
    if (g + 1) % UINT_SPACE == 0 then 1 else (g + 1) % UINT_SPACE
  }

  predicate OnSort(s: Sched, id: Id) {
    id in s.rqs
    && s.rqs[id].rbKey in s.sort.At(s.rqs[id].dir)
    && s.sort.At(s.rqs[id].dir)[s.rqs[id].rbKey] == id
  }

  /** A best-effort request the scheduler holds. */
  predicate Queued(s: Sched, id: Id) {
    id in s.rqs && id in s.fifo.At(s.rqs[id].dir)
  }

  // ------------------------------------------------------------ the agreement invariant

  ghost predicate SideOk(s: Sched, d: Dir) {
    (forall k :: k in s.sort.At(d) ==>
       s.sort.At(d)[k] in s.rqs && s.rqs[s.sort.At(d)[k]].dir == d && s.rqs[s.sort.At(d)[k]].rbKey == k)
    && NoDup(s.fifo.At(d))
    && (forall id :: id in s.fifo.At(d) ==> id in s.rqs && s.rqs[id].dir == d)
    && (s.next.At(d).Some? ==> OnSort(s, s.next.At(d).value) && s.rqs[s.next.At(d).value].dir == d)
  }

  /** What the indexes say about one request, unless it is in transit. */
  ghost predicate PlacedOk(s: Sched, id: Id)
    requires id in s.rqs
  {
    (Queued(s, id) <==> OnSort(s, id))
    && (Queued(s, id) ==> s.rqs[id].rbKey == s.rqs[id].sector && (Mergeable(s.rqs[id]) ==> s.rqs[id].gen != 0))
    && (s.rqs[id].gen != 0 ==> Queued(s, id) && s.rqs[id].slot == HashFn(End(s.rqs[id])))
    && (Queued(s, id) || id in s.dispatch || id in s.ucsb)
  }

  ghost predicate PlacesOk(s: Sched, x: set<Id>) {
    forall id :: id in s.rqs && id !in x ==> PlacedOk(s, id)
  }

  ghost predicate HashOk(s: Sched) {
    |s.hash| == HASH_ENTRIES && s.hashGen != 0
    && (forall b :: 0 <= b < |s.hash| ==> NoDup(s.hash[b]))
    && (forall b, id :: 0 <= b < |s.hash| && id in s.hash[b] ==>
          id in s.rqs && s.rqs[id].gen != 0 && s.rqs[id].slot == b)
    && (forall id :: id in s.rqs && s.rqs[id].gen != 0 ==>
          s.rqs[id].slot < |s.hash| && id in s.hash[s.rqs[id].slot])
  }

  ghost predicate QosReady(r: Rq) {
    r.qosFlag && |r.bios| == 1 && r.bios[0].qos.Some? && r.bios[0].sector == r.sector
  }

  ghost predicate ListsOk(s: Sched, x: set<Id>) {
    NoDup(s.dispatch) && NoDup(s.ucsb) && s.ucsbCnt == |s.ucsb|
    && (forall id :: id in s.dispatch ==> id in s.rqs && !Queued(s, id) && id !in s.ucsb)
    && (forall id :: id in s.ucsb ==> id in s.rqs && !Queued(s, id) && QosReady(s.rqs[id]))
    && (forall id :: id in s.rqs && Queued(s, id) ==> !s.rqs[id].qosFlag)
    && (s.lastMerge.Some? ==> s.lastMerge.value in s.rqs && (Queued(s, s.lastMerge.value) || s.lastMerge.value in x))
    && (s.next.rd.None? || s.next.wr.None?)
    && (forall id :: id in x ==> id in s.rqs && id !in s.dispatch && id !in s.ucsb && !s.rqs[id].qosFlag)
  }

  /**
   The indexes agree.  x holds the requests in transit inside an operation, about which only
   the structural facts hold; between operations it is empty.
   */
  ghost predicate Agree(s: Sched, x: set<Id>) {
    SideOk(s, Read) && SideOk(s, Write) && PlacesOk(s, x) && HashOk(s) && ListsOk(s, x)
  }

  /** No hashed request carries an old generation. */
  ghost predicate FreshHash(s: Sched) {
    forall id :: id in s.rqs && s.rqs[id].gen != 0 ==> s.rqs[id].gen == s.hashGen
  }

  // ------------------------------------------------------------------- hash and tree

  /** deadline_del_drq_hash */
  function DelHash(s: Sched, id: Id): Sched
    requires id in s.rqs
    requires s.rqs[id].gen != 0 ==> s.rqs[id].slot < |s.hash|
  {
    var r := s.rqs[id];
    if r.gen == 0 then s
    else s.(rqs := s.rqs[id := r.(gen := 0)], hash := s.hash[r.slot := Without(s.hash[r.slot], id)])
  }

  /** deadline_add_drq_hash */
  function AddHash(s: Sched, id: Id): Sched
    requires id in s.rqs && s.rqs[id].gen == 0 && |s.hash| == HASH_ENTRIES
  {
    var r := s.rqs[id];
    var b := HashFn(End(r));
    s.(rqs := s.rqs[id := r.(gen := s.hashGen, slot := b)], hash := s.hash[b := [id] + s.hash[b]])
  }

  /** deadline_del_drq_rb */
  ghost function DelRb(s: Sched, id: Id): Sched
    requires id in s.rqs
  {
    var r := s.rqs[id];
    var m := s.sort.At(r.dir);
    var s1 := if s.next.At(r.dir) == Some(id)
              then s.(next := s.next.Put(r.dir, ValueAt(m, Succ(m, r.rbKey))))
              else s;
    if OnSort(s, id) then s1.(sort := s.sort.Put(r.dir, m - {r.rbKey})) else s1
  }

  /** deadline_remove_request, including the unlinking of queuelist. */
  ghost function Remove(s: Sched, id: Id): Sched
    requires id in s.rqs
    requires s.rqs[id].gen != 0 ==> s.rqs[id].slot < |s.hash|
  {
    var r := s.rqs[id];
    var s1 := if r.qosFlag then s.(rqs := s.rqs[id := r.(qosFlag := false)])
              else
                var s0 := s.(fifo := s.fifo.Put(r.dir, Without(s.fifo.At(r.dir), id)));
                DelRb(DelHash(s0, id), id);
    s1.(lastMerge := if s1.lastMerge == Some(id) then None else s1.lastMerge,
        dispatch := Without(s1.dispatch, id))
  }

  /** next_drq of either direction; at most one is set. */
  function NextRq(s: Sched): Option<Id> {
    if s.next.wr.Some? then s.next.wr else s.next.rd
  }

  /** The next request starts where the one moved last ended. */
  predicate InLine(s: Sched) {
    NextRq(s).Some? && NextRq(s).value in s.rqs && s.rqs[NextRq(s).value].sector == s.lastSector
  }

  /** deadline_move_request */
  ghost function Move(s: Sched, id: Id, how: How): Sched
    requires id in s.rqs
    requires s.rqs[id].gen != 0 ==> s.rqs[id].slot < |s.hash|
  {
    var r := s.rqs[id];
    var m := s.sort.At(r.dir);
    var s1 := s.(next := PerDir(None, None).Put(r.dir, ValueAt(m, Succ(m, r.rbKey))),
                 lastSector := r.sector + r.nr);
    var s2 := Remove(s1, id);
    s2.(dispatch := s2.dispatch + [id],
        log := s2.log + [Entry(id, r.dir, r.rbKey, how, s.fifo.At(r.dir.Other()) != [], InLine(s))],
        linked := {})
  }

  /** What Move needs to know about the request it takes. */
  predicate Movable(s: Sched, id: Id) {
    OnSort(s, id) && !s.rqs[id].qosFlag && id !in s.dispatch
    && (s.rqs[id].gen != 0 ==> s.rqs[id].slot < |s.hash|)
  }

  /** The effect of Move in one piece: the request leaves every index and joins the dispatch list. */
  ghost function Moved(s: Sched, id: Id, how: How): Sched
    requires Movable(s, id)
  {
    var r := s.rqs[id];
    var m := s.sort.At(r.dir);
    s.(rqs := s.rqs[id := r.(gen := 0)],
       sort := s.sort.Put(r.dir, m - {r.rbKey}),
       fifo := s.fifo.Put(r.dir, Without(s.fifo.At(r.dir), id)),
       next := PerDir(None, None).Put(r.dir, ValueAt(m, Succ(m, r.rbKey))),
       hash := if r.gen == 0 then s.hash else s.hash[r.slot := Without(s.hash[r.slot], id)],
       lastSector := r.sector + r.nr,
       lastMerge := if s.lastMerge == Some(id) then None else s.lastMerge,
       dispatch := s.dispatch + [id],
       log := s.log + [Entry(id, r.dir, r.rbKey, how, s.fifo.At(r.dir.Other()) != [], InLine(s))],
       linked := {})
  }

  /** Remove, when next_drq does not point at the request. */
  lemma RemoveEffect(s: Sched, id: Id)
    requires Movable(s, id) && s.next.At(s.rqs[id].dir) != Some(id)
    ensures var r := s.rqs[id];
            Remove(s, id) == s.(
              rqs := s.rqs[id := r.(gen := 0)],
              sort := s.sort.Put(r.dir, s.sort.At(r.dir) - {r.rbKey}),
              fifo := s.fifo.Put(r.dir, Without(s.fifo.At(r.dir), id)),
              hash := if r.gen == 0 then s.hash else s.hash[r.slot := Without(s.hash[r.slot], id)],
              lastMerge := if s.lastMerge == Some(id) then None else s.lastMerge)
  {
    var r := s.rqs[id];
    assert r.gen == 0 ==> r.(gen := 0) == r && s.rqs[id := r] == s.rqs;
    var s0 := s.(fifo := s.fifo.Put(r.dir, Without(s.fifo.At(r.dir), id)));
    var s1 := DelHash(s0, id);
    assert s1.rqs == s.rqs[id := r.(gen := 0)];
    assert s1.sort == s.sort && s1.next == s.next;
    assert OnSort(s1, id);
  }

  lemma MoveEffect(s: Sched, id: Id, how: How)
    requires Movable(s, id)
    requires forall k :: k in s.sort.At(s.rqs[id].dir) && s.sort.At(s.rqs[id].dir)[k] == id ==> k == s.rqs[id].rbKey
    ensures Move(s, id, how) == Moved(s, id, how)
  {
    var r, m := s.rqs[id], s.sort.At(s.rqs[id].dir);
    var k := Succ(m, r.rbKey);
    var s1 := s.(next := PerDir(None, None).Put(r.dir, ValueAt(m, k)), lastSector := r.sector + r.nr);
    assert s1.next.At(r.dir) != Some(id);
    RemoveEffect(s1, id);
  }

  ghost predicate MoveReady(s: Sched, id: Id, x: set<Id>) {
    Agree(s, x) && Queued(s, id) && id !in x
  }

  lemma MoveMovable(s: Sched, id: Id, how: How, x: set<Id>)
    requires MoveReady(s, id, x)
    ensures Movable(s, id) && Move(s, id, how) == Moved(s, id, how)
  {
    assert PlacedOk(s, id);
    assert SideOk(s, s.rqs[id].dir);
    MoveEffect(s, id, how);
  }

  lemma MovedSide(s: Sched, id: Id, how: How, d: Dir)
    requires Movable(s, id) && SideOk(s, d)
    ensures SideOk(Moved(s, id, how), d)
  {
    var t, e := Moved(s, id, how), s.rqs[id].dir;
    var k := Succ(s.sort.At(e), s.rqs[id].rbKey);
    if d == e {
      assert forall j :: j in t.sort.At(d) ==> j in s.sort.At(d) && t.sort.At(d)[j] == s.sort.At(d)[j];
    } else {
      assert t.sort.At(d) == s.sort.At(d) && t.fifo.At(d) == s.fifo.At(d) && t.next.At(d) == None;
    }
  }

  lemma MovedHash(s: Sched, id: Id, how: How)
    requires Movable(s, id) && HashOk(s)
    ensures HashOk(Moved(s, id, how))
  {
    var t := Moved(s, id, how);
    forall b | 0 <= b < |t.hash| ensures NoDup(t.hash[b]) {
      assert NoDup(s.hash[b]);
    }
  }

  lemma MovedPlaces(s: Sched, id: Id, how: How, x: set<Id>)
    requires Movable(s, id) && Queued(s, id) && PlacesOk(s, x) && SideOk(s, s.rqs[id].dir)
    ensures PlacesOk(Moved(s, id, how), x)
  {
    var t, d := Moved(s, id, how), s.rqs[id].dir;
    forall j | j in t.rqs && j !in x ensures PlacedOk(t, j) {
      assert PlacedOk(s, j);
      if j != id {
        assert Queued(t, j) == Queued(s, j);
        assert OnSort(t, j) == OnSort(s, j);
      } else {
        assert j in t.dispatch;
      }
    }
  }

  lemma MovedLists(s: Sched, id: Id, how: How, x: set<Id>)
    requires Movable(s, id) && Queued(s, id) && ListsOk(s, x) && id !in x
    ensures ListsOk(Moved(s, id, how), x)
  {
    var t := Moved(s, id, how);
    assert forall j :: j in t.rqs ==> (Queued(t, j) <==> Queued(s, j) && j != id);
    assert forall j :: j in t.dispatch <==> j in s.dispatch || j == id;
  }

  lemma MoveAgree(s: Sched, id: Id, how: How, x: set<Id>)
    requires MoveReady(s, id, x)
    ensures Agree(Move(s, id, how), x)
  {
    MoveMovable(s, id, how, x);
    MovedSide(s, id, how, Read);
    MovedSide(s, id, how, Write);
    MovedPlaces(s, id, how, x);
    MovedHash(s, id, how);
    MovedLists(s, id, how, x);
  }

  // ------------------------------------------------------------- a request in transit

  /** An indexed request may be lifted out for an operation. */
  lemma Open(s: Sched, id: Id, x: set<Id>)
    requires Agree(s, x) && Queued(s, id) && id !in x
    ensures Agree(s, x + {id})
  {
    assert PlacedOk(s, id);
  }

  /** A request in transit that is placed again closes its part of the operation. */
  lemma Close(s: Sched, id: Id, x: set<Id>)
    requires Agree(s, x) && id in x && PlacedOk(s, id)
    requires s.lastMerge == Some(id) ==> Queued(s, id)
    ensures Agree(s, x - {id})
  {
  }

  /** The same, when it was the only one in transit. */
  lemma CloseLast(s: Sched, id: Id)
    requires Agree(s, {id}) && PlacedOk(s, id) && Queued(s, id)
    ensures Agree(s, {})
  {
    Close(s, id, {id});
    assert {id} - {id} == {};
  }

  /** t is s with the request in transit rewritten, but not in what the lists and trees look at. */
  ghost predicate Touched(s: Sched, t: Sched, id: Id) {
    && id in s.rqs && t.rqs.Keys == s.rqs.Keys
    && (forall j :: j in s.rqs && j != id ==> t.rqs[j] == s.rqs[j])
    && t.rqs[id].dir == s.rqs[id].dir && t.rqs[id].rbKey == s.rqs[id].rbKey
    && t.rqs[id].qosFlag == s.rqs[id].qosFlag
    && t.sort == s.sort && t.fifo == s.fifo && t.next == s.next && t.dispatch == s.dispatch
    && t.ucsb == s.ucsb && t.ucsbCnt == s.ucsbCnt && t.lastMerge == s.lastMerge
  }

  lemma TouchedMembers(s: Sched, t: Sched, id: Id)
    requires Touched(s, t, id)
    ensures forall j :: j in t.rqs ==> Queued(t, j) == Queued(s, j) && OnSort(t, j) == OnSort(s, j)
  {
  }

  lemma TouchedSide(s: Sched, t: Sched, id: Id, d: Dir)
    requires Touched(s, t, id) && SideOk(s, d)
    ensures SideOk(t, d)
  {
    TouchedMembers(s, t, id);
    assert forall k :: k in t.sort.At(d) ==> t.sort.At(d)[k] in s.rqs;
    assert forall j :: j in t.fifo.At(d) ==> j in s.rqs;
  }

  lemma TouchedPlaces(s: Sched, t: Sched, id: Id, x: set<Id>)
    requires id in x && Touched(s, t, id) && PlacesOk(s, x)
    ensures PlacesOk(t, x)
  {
    TouchedMembers(s, t, id);
    forall j | j in t.rqs && j !in x ensures PlacedOk(t, j) {
      assert PlacedOk(s, j);
    }
  }

  lemma TouchedLists(s: Sched, t: Sched, id: Id, x: set<Id>)
    requires id in x && Touched(s, t, id) && ListsOk(s, x)
    ensures ListsOk(t, x)
  {
    TouchedMembers(s, t, id);
    assert forall j :: j in t.ucsb ==> j in s.rqs && t.rqs[j] == s.rqs[j];
    assert forall j :: j in t.dispatch ==> j in s.rqs;
  }

  lemma TouchedAgree(s: Sched, t: Sched, id: Id, x: set<Id>)
    requires id in x && Touched(s, t, id) && Agree(s, x) && HashOk(t)
    ensures Agree(t, x)
  {
    TouchedSide(s, t, id, Read);
    TouchedSide(s, t, id, Write);
    TouchedPlaces(s, t, id, x);
    TouchedLists(s, t, id, x);
  }

  /** Fields that no index looks at may change for the request in transit. */
  lemma Reshape(s: Sched, id: Id, r: Rq, x: set<Id>)
    requires id in x && Agree(s, x)
    requires var o := s.rqs[id]; r.dir == o.dir && r.rbKey == o.rbKey && r.gen == o.gen
                                 && r.slot == o.slot && r.qosFlag == o.qosFlag
    ensures Agree(s.(rqs := s.rqs[id := r]), x)
  {
    var t := s.(rqs := s.rqs[id := r]);
    assert HashOk(t);
    TouchedAgree(s, t, id, x);
  }

  lemma DelHashOk(s: Sched, id: Id)
    requires HashOk(s) && id in s.rqs
    ensures HashOk(DelHash(s, id))
  {
    var t := DelHash(s, id);
    hide NoDup, HashFn;
    forall b | 0 <= b < |t.hash| ensures NoDup(t.hash[b]) {
      assert NoDup(s.hash[b]);
    }
  }

  lemma DelHashTouches(s: Sched, id: Id)
    requires HashOk(s) && id in s.rqs
    ensures Touched(s, DelHash(s, id), id) && DelHash(s, id).rqs[id] == s.rqs[id].(gen := 0)
  {
    hide NoDup, Without, HashFn;
  }

  lemma DelHashAgree(s: Sched, id: Id, x: set<Id>)
    requires id in x && Agree(s, x)
    ensures Agree(DelHash(s, id), x) && Touched(s, DelHash(s, id), id)
    ensures DelHash(s, id).rqs[id] == s.rqs[id].(gen := 0)
  {
    assert id in s.rqs;
    hide SideOk, ListsOk, PlacesOk, HashOk;
    DelHashTouches(s, id);
    DelHashOk(s, id);
    TouchedAgree(s, DelHash(s, id), id, x);
  }

  lemma AddHashOk(s: Sched, id: Id)
    requires HashOk(s) && id in s.rqs && s.rqs[id].gen == 0
    ensures HashOk(AddHash(s, id))
  {
    var t := AddHash(s, id);
    forall b | 0 <= b < |t.hash| ensures NoDup(t.hash[b]) {
      assert NoDup(s.hash[b]);
    }
  }

  lemma AddHashAgree(s: Sched, id: Id, x: set<Id>)
    requires id in x && Agree(s, x) && s.rqs[id].gen == 0
    ensures var t := AddHash(s, id);
      Agree(t, x) && Touched(s, t, id)
      && t.rqs[id] == s.rqs[id].(gen := s.hashGen, slot := HashFn(End(s.rqs[id])))
  {
    AddHashOk(s, id);
    TouchedAgree(s, AddHash(s, id), id, x);
  }

  /** t is s with the request in transit off the tree of its direction. */
  ghost predicate OffTree(s: Sched, t: Sched, id: Id) {
    && id in s.rqs && t.rqs == s.rqs
    && var d := s.rqs[id].dir;
       var k := Succ(s.sort.At(d), s.rqs[id].rbKey);
       t == s.(sort := s.sort.Put(d, if OnSort(s, id) then s.sort.At(d) - {s.rqs[id].rbKey} else s.sort.At(d)),
               next := if s.next.At(d) == Some(id) then s.next.Put(d, ValueAt(s.sort.At(d), k)) else s.next)
  }

  lemma OffTreeMembers(s: Sched, t: Sched, id: Id)
    requires OffTree(s, t, id) && SideOk(s, s.rqs[id].dir)
    ensures forall j :: j in t.rqs && j != id ==> Queued(t, j) == Queued(s, j) && OnSort(t, j) == OnSort(s, j)
    ensures !OnSort(t, id) && Queued(t, id) == Queued(s, id)
  {
  }

  lemma OffTreeSide(s: Sched, t: Sched, id: Id, d: Dir)
    requires OffTree(s, t, id) && SideOk(s, d) && SideOk(s, s.rqs[id].dir)
    ensures SideOk(t, d)
  {
    OffTreeMembers(s, t, id);
    var e := s.rqs[id].dir;
    if d == e {
      var m := s.sort.At(d);
      var k := Succ(m, s.rqs[id].rbKey);
      assert k.Some? ==> m[k.value] != id && OnSort(s, m[k.value]);
    } else {
      assert t.sort.At(d) == s.sort.At(d) && t.next.At(d) == s.next.At(d);
    }
  }

  lemma OffTreePlaces(s: Sched, t: Sched, id: Id, x: set<Id>)
    requires id in x && OffTree(s, t, id) && SideOk(s, s.rqs[id].dir) && PlacesOk(s, x) && ListsOk(s, x)
    ensures PlacesOk(t, x) && ListsOk(t, x)
  {
    OffTreeMembers(s, t, id);
    forall j | j in t.rqs && j !in x ensures PlacedOk(t, j) {
      assert PlacedOk(s, j);
    }
  }

  lemma DelRbAgree(s: Sched, id: Id, x: set<Id>)
    requires id in x && Agree(s, x)
    ensures var t := DelRb(s, id);
      Agree(t, x) && !OnSort(t, id) && t.rqs == s.rqs && OffTree(s, t, id)
  {
    hide SideOk, PlacesOk;
    var t := DelRb(s, id);
    assert OffTree(s, t, id);
    OffTreeMembers(s, t, id);
    OffTreeSide(s, t, id, Read);
    OffTreeSide(s, t, id, Write);
    OffTreePlaces(s, t, id, x);
    assert HashOk(t);
  }

  // ------------------------------------------------------------- entering the indexes

  /** deadline_add_drq_rb: a request already starting at the sector is dispatched first. */
  ghost function AddRb(s: Sched, id: Id): Sched
    requires id in s.rqs && HashOk(s) && SideOk(s, s.rqs[id].dir)
  {
    var r := s.rqs[id];
    var k := r.sector;
    var s0 := s.(rqs := s.rqs[id := r.(rbKey := k)]);
    LinkRb(Evicted(s0, r.dir, k), id, r.dir, k)
  }

  /** rb_link_node under key k. */
  function LinkRb(s: Sched, id: Id, d: Dir, k: nat): Sched {
    s.(sort := s.sort.Put(d, s.sort.At(d)[k := id]), linked := s.linked + {id})
  }

  /** The effect of the retry loop: whoever holds key k moves to the dispatch list. */
  ghost function Evicted(s: Sched, d: Dir, k: nat): Sched
    requires HashOk(s) && (k in s.sort.At(d) ==> s.sort.At(d)[k] in s.rqs)
  {
    if k in s.sort.At(d) then Move(s, s.sort.At(d)[k], Alias) else s
  }

  lemma RekeyAgree(s: Sched, id: Id, x: set<Id>)
    requires id in x && Agree(s, x) && !OnSort(s, id)
    ensures Agree(s.(rqs := s.rqs[id := s.rqs[id].(rbKey := s.rqs[id].sector)]), x)
  {
    var r := s.rqs[id];
    var t := s.(rqs := s.rqs[id := r.(rbKey := r.sector)]);
    RekeyMembers(s, t, id);
    forall j | j in t.rqs && j !in x ensures PlacedOk(t, j) {
      assert PlacedOk(s, j);
    }
    assert HashOk(t);
    assert ListsOk(t, x);
  }

  lemma RekeyMembers(s: Sched, t: Sched, id: Id)
    requires id in s.rqs && !OnSort(s, id) && SideOk(s, Read) && SideOk(s, Write)
    requires t == s.(rqs := s.rqs[id := s.rqs[id].(rbKey := s.rqs[id].sector)])
    ensures forall j :: j in t.rqs && j != id ==> Queued(t, j) == Queued(s, j) && OnSort(t, j) == OnSort(s, j)
    ensures Queued(t, id) == Queued(s, id)
    ensures SideOk(t, Read) && SideOk(t, Write)
  {
    assert forall d: Dir, k :: SideOk(s, d) && k in s.sort.At(d) ==> s.sort.At(d)[k] != id by {
      forall d: Dir, k | SideOk(s, d) && k in s.sort.At(d) ensures s.sort.At(d)[k] != id {
        if s.sort.At(d)[k] == id { assert OnSort(s, id); }
      }
    }
  }

  /**
   Evicting the alias frees the key, so the retry loop of deadline_add_drq_rb runs at most
   twice; nothing else about the incoming request changes.
   */
  lemma EvictedAgree(s: Sched, id: Id, k: nat, x: set<Id>)
    requires x == {id} && Agree(s, x) && s.rqs[id].rbKey == k
    requires k in s.sort.At(s.rqs[id].dir) ==> s.sort.At(s.rqs[id].dir)[k] != id
    ensures var t := Evicted(s, s.rqs[id].dir, k);
      Agree(t, x) && k !in t.sort.At(s.rqs[id].dir) && t.rqs[id] == s.rqs[id]
      && (forall j :: j != id ==> (Queued(t, j) ==> Queued(s, j)))
      && Queued(t, id) == Queued(s, id) && t.hashGen == s.hashGen
      && (t.lastMerge == s.lastMerge || t.lastMerge == None)
  {
    var d := s.rqs[id].dir;
    assert SideOk(s, d);
    if k in s.sort.At(d) {
      var a := s.sort.At(d)[k];
      assert PlacedOk(s, a);
      MoveMovable(s, a, Alias, x);
      MoveAgree(s, a, Alias, x);
    }
  }

  lemma AddRbAgree(s: Sched, id: Id, x: set<Id>)
    requires x == {id} && Agree(s, x) && !OnSort(s, id)
    ensures var t := AddRb(s, id);
      Agree(t, x) && OnSort(t, id) && Queued(t, id) == Queued(s, id)
      && t.rqs[id] == s.rqs[id].(rbKey := s.rqs[id].sector) && t.hashGen == s.hashGen
      && (t.lastMerge == s.lastMerge || t.lastMerge == None)
  {
    var r := s.rqs[id];
    var k, d := r.sector, r.dir;
    RekeyAgree(s, id, x);
    var s0 := s.(rqs := s.rqs[id := r.(rbKey := k)]);
    assert SideOk(s, d);
    EvictedAgree(s0, id, k, x);
    LinkAgree(Evicted(s0, d, k), id, k, x);
  }

  /** t is s with other trees, FIFOs and counters, in which nothing differs for requests outside x. */
  ghost predicate SameOutside(s: Sched, t: Sched, x: set<Id>) {
    && t == s.(sort := t.sort, fifo := t.fifo, linked := t.linked, batching := t.batching, starved := t.starved)
    && forall j :: j in s.rqs && j !in x ==> Queued(t, j) == Queued(s, j) && OnSort(t, j) == OnSort(s, j)
  }

  lemma OutsidePlaces(s: Sched, t: Sched, x: set<Id>)
    requires SameOutside(s, t, x) && PlacesOk(s, x)
    ensures PlacesOk(t, x)
  {
    hide Queued, OnSort, HashFn, End;
    forall j | j in t.rqs && j !in x ensures PlacedOk(t, j) {
      assert PlacedOk(s, j);
    }
  }

  lemma OutsideLists(s: Sched, t: Sched, x: set<Id>)
    requires SameOutside(s, t, x) && ListsOk(s, x)
    ensures ListsOk(t, x)
  {
    hide Queued, OnSort, QosReady;
  }

  lemma OutsideAgree(s: Sched, t: Sched, x: set<Id>)
    requires Agree(s, x) && SameOutside(s, t, x) && SideOk(t, Read) && SideOk(t, Write)
    ensures Agree(t, x)
  {
    hide SideOk, PlacesOk, ListsOk, SameOutside;
    OutsidePlaces(s, t, x);
    OutsideLists(s, t, x);
    assert HashOk(t) by { OutsideHash(s, t, x); }
  }

  lemma OutsideHash(s: Sched, t: Sched, x: set<Id>)
    requires SameOutside(s, t, x) && HashOk(s)
    ensures HashOk(t)
  {
    hide Queued, OnSort, NoDup;
  }

  /** t is s with anything else changed but the requests and the lists and trees that hold them. */
  ghost predicate SameIndexes(s: Sched, t: Sched) {
    && t.rqs == s.rqs && t.sort == s.sort && t.fifo == s.fifo && t.next == s.next && t.hash == s.hash
    && t.dispatch == s.dispatch && t.ucsb == s.ucsb && t.ucsbCnt == s.ucsbCnt && t.hashGen != 0
  }

  lemma IndexesMembers(s: Sched, t: Sched)
    requires SameIndexes(s, t)
    ensures forall j :: Queued(t, j) == Queued(s, j) && OnSort(t, j) == OnSort(s, j)
  {
  }

  lemma IndexesSides(s: Sched, t: Sched)
    requires SameIndexes(s, t) && SideOk(s, Read) && SideOk(s, Write)
    ensures SideOk(t, Read) && SideOk(t, Write)
  {
    hide NoDup;
    IndexesMembers(s, t);
    hide Queued, OnSort;
  }

  lemma IndexesPlaces(s: Sched, t: Sched, x: set<Id>)
    requires SameIndexes(s, t) && PlacesOk(s, x) && HashOk(s)
    ensures PlacesOk(t, x) && HashOk(t)
  {
    IndexesMembers(s, t);
    hide Queued, OnSort, HashFn, End, NoDup;
    forall j | j in t.rqs && j !in x ensures PlacedOk(t, j) {
      assert PlacedOk(s, j);
    }
  }

  lemma IndexesLists(s: Sched, t: Sched, x: set<Id>)
    requires SameIndexes(s, t) && ListsOk(s, x)
    requires t.lastMerge.Some? ==> t.lastMerge.value in s.rqs
                                   && (Queued(s, t.lastMerge.value) || t.lastMerge.value in x)
    ensures ListsOk(t, x)
  {
    IndexesMembers(s, t);
    hide Queued, OnSort, NoDup, QosReady;
  }

  lemma IndexesAgree(s: Sched, t: Sched, x: set<Id>)
    requires SameIndexes(s, t) && Agree(s, x)
    requires t.lastMerge.Some? ==> t.lastMerge.value in s.rqs
                                   && (Queued(s, t.lastMerge.value) || t.lastMerge.value in x)
    ensures Agree(t, x) && forall j :: Queued(t, j) == Queued(s, j) && OnSort(t, j) == OnSort(s, j)
  {
    hide SideOk, PlacesOk, HashOk, ListsOk, SameIndexes, Queued, OnSort;
    IndexesMembers(s, t);
    IndexesSides(s, t);
    IndexesPlaces(s, t, x);
    IndexesLists(s, t, x);
  }

  lemma LinkSides(s: Sched, id: Id, d: Dir, k: nat)
    requires SideOk(s, Read) && SideOk(s, Write) && id in s.rqs && s.rqs[id].dir == d && s.rqs[id].rbKey == k
    requires k !in s.sort.At(d)
    ensures var t := LinkRb(s, id, d, k);
      && SideOk(t, Read) && SideOk(t, Write) && SameOutside(s, t, {id})
  {
    hide NoDup;
    assert SideOk(s, d) && SideOk(s, d.Other());
    var t := LinkRb(s, id, d, k);
    assert SideOk(t, d) && SideOk(t, d.Other());
  }

  lemma LinkAgree(s: Sched, id: Id, k: nat, x: set<Id>)
    requires id in x && Agree(s, x) && s.rqs[id].rbKey == k && k !in s.sort.At(s.rqs[id].dir)
    ensures Agree(LinkRb(s, id, s.rqs[id].dir, k), x)
  {
    assert id in s.rqs;
    hide SideOk, PlacesOk, HashOk, ListsOk, LinkRb;
    LinkSides(s, id, s.rqs[id].dir, k);
    OutsideAgree(s, LinkRb(s, id, s.rqs[id].dir, k), x);
  }

  /** The second half of deadline_add_request: set the expiry, join the FIFO. */
  ghost function ToFifo(s: Sched, id: Id): Sched
    requires id in s.rqs
  {
    var r := s.rqs[id];
    s.(rqs := s.rqs[id := r.(expires := s.now + s.cfg.fifoExpire.At(r.dir))],
       fifo := s.fifo.Put(r.dir, s.fifo.At(r.dir) + [id]))
  }

  lemma AppendSides(s: Sched, id: Id, d: Dir)
    requires SideOk(s, Read) && SideOk(s, Write) && id in s.rqs && s.rqs[id].dir == d && !Queued(s, id)
    ensures var t := s.(fifo := s.fifo.Put(d, s.fifo.At(d) + [id]));
      && SideOk(t, Read) && SideOk(t, Write) && SameOutside(s, t, {id}) && Queued(t, id)
      && OnSort(t, id) == OnSort(s, id)
  {
    var t := s.(fifo := s.fifo.Put(d, s.fifo.At(d) + [id]));
    assert SideOk(s, d) && SideOk(s, d.Other());
    assert forall j :: OnSort(t, j) == OnSort(s, j);
    assert SideOk(t, d) && SideOk(t, d.Other());
  }

  lemma AppendFifoAgree(s: Sched, id: Id, x: set<Id>)
    requires id in x && Agree(s, x) && !Queued(s, id)
    ensures var d := s.rqs[id].dir; var t := s.(fifo := s.fifo.Put(d, s.fifo.At(d) + [id]));
      Agree(t, x) && Queued(t, id) && OnSort(t, id) == OnSort(s, id)
  {
    assert id in s.rqs;
    hide SideOk, PlacesOk, HashOk, ListsOk, Queued, OnSort;
    var d := s.rqs[id].dir;
    AppendSides(s, id, d);
    OutsideAgree(s, s.(fifo := s.fifo.Put(d, s.fifo.At(d) + [id])), x);
  }

  lemma ExpireAgree(s: Sched, id: Id, time: nat, x: set<Id>)
    requires id in x && Agree(s, x)
    ensures id in s.rqs
    ensures var t := s.(rqs := s.rqs[id := s.rqs[id].(expires := time)]);
      Agree(t, x) && Queued(t, id) == Queued(s, id) && OnSort(t, id) == OnSort(s, id)
  {
    assert id in s.rqs;
    hide SideOk, HashOk, ListsOk, PlacesOk;
    Reshape(s, id, s.rqs[id].(expires := time), x);
  }

  lemma ToFifoAgree(s: Sched, id: Id, x: set<Id>)
    requires id in x && Agree(s, x) && !Queued(s, id)
    ensures var t := ToFifo(s, id);
      Agree(t, x) && Queued(t, id) && OnSort(t, id) == OnSort(s, id)
      && t.rqs[id] == s.rqs[id].(expires := t.rqs[id].expires)
  {
    assert id in s.rqs;
    var d, time := s.rqs[id].dir, s.now + s.cfg.fifoExpire.At(s.rqs[id].dir);
    var u := s.(rqs := s.rqs[id := s.rqs[id].(expires := time)]);
    assert u.rqs[id].dir == d && ToFifo(s, id) == u.(fifo := u.fifo.Put(d, u.fifo.At(d) + [id]));
    assert ToFifo(s, id).rqs == u.rqs;
    hide Agree, Queued, OnSort, ToFifo;
    ExpireAgree(s, id, time, x);
    AppendFifoAgree(u, id, x);
  }

  /** deadline_add_request */
  ghost function AddRequest(s: Sched, id: Id): Sched
    requires id in s.rqs && HashOk(s) && SideOk(s, s.rqs[id].dir)
  {
    ToFifo(AddRb(s, id), id)
  }

  lemma AddRequestAgree(s: Sched, id: Id, x: set<Id>)
    requires x == {id} && Agree(s, x) && !OnSort(s, id) && !Queued(s, id)
    ensures var t := AddRequest(s, id); var r := s.rqs[id];
      Agree(t, x) && OnSort(t, id) && Queued(t, id) && t.hashGen == s.hashGen
      && t.rqs[id] == r.(rbKey := r.sector, expires := t.rqs[id].expires)
      && (t.lastMerge == s.lastMerge || t.lastMerge == None)
  {
    assert id in s.rqs && SideOk(s, s.rqs[id].dir);
    hide SideOk, HashOk, ListsOk, PlacesOk, AddRb;
    AddRbAgree(s, id, x);
    ToFifoAgree(AddRb(s, id), id, x);
  }

  // ---------------------------------------------------------------- the QoS queue

  /** The priority and sector by which ucsb_queue places a request. */
  function QosKey(r: Rq): Key {
    if r.bios != [] && r.bios[0].qos.Some? then Key(r.bios[0].qos.value.priority, r.bios[0].sector)
    else Key(0, 0)
  }

  function QosKeys(s: Sched, l: seq<Id>): (ks: seq<Key>)
    requires forall id :: id in l ==> id in s.rqs
    ensures |ks| == |l| && forall i :: 0 <= i < |l| ==> ks[i] == QosKey(s.rqs[l[i]])
  {
    seq(|l|, i requires 0 <= i < |l| => QosKey(s.rqs[l[i]]))
  }

  /** ucsb_io_add_request */
  function UcsbAdd(s: Sched, id: Id): Sched
    requires id in s.rqs && forall j :: j in s.ucsb ==> j in s.rqs
  {
    var p := InsertPos(QosKeys(s, s.ucsb), QosKey(s.rqs[id]));
    s.(ucsb := s.ucsb[..p] + [id] + s.ucsb[p..], ucsbCnt := s.ucsbCnt + 1)
  }

  /** The head of ucsb_queue, when its priority lets it go. */
  predicate UcsbReady(s: Sched, priority: int)
    requires s.ucsb != [] ==> s.ucsb[0] in s.rqs
  {
    s.ucsb != [] && QosKey(s.rqs[s.ucsb[0]]).priority >= priority
  }

  /** ucsb_io_dispatch_request, when it returns 1. */
  function UcsbDispatch(s: Sched): Sched
    requires s.ucsb != [] && s.ucsb[0] in s.rqs
  {
    var id := s.ucsb[0];
    var r := s.rqs[id];
    s.(ucsb := s.ucsb[1..], ucsbCnt := s.ucsbCnt - 1, dispatch := s.dispatch + [id],
       log := s.log + [Entry(id, r.dir, r.sector, QosHead, s.fifo.At(r.dir.Other()) != [], false)])
  }

  /** On the keys, linking a request is Insert; so what QosQueue says holds of ucsb_queue. */
  lemma UcsbKeys(s: Sched, id: Id)
    requires id in s.rqs && forall j :: j in s.ucsb ==> j in s.rqs
    ensures QosKeys(UcsbAdd(s, id), UcsbAdd(s, id).ucsb) == Insert(QosKeys(s, s.ucsb), QosKey(s.rqs[id]))
  {
    hide InsertPos;
    var p := InsertPos(QosKeys(s, s.ucsb), QosKey(s.rqs[id]));
    assert UcsbAdd(s, id).ucsb == s.ucsb[..p] + [id] + s.ucsb[p..];
  }

  lemma UcsbDispatchAgree(s: Sched)
    requires Agree(s, {}) && s.ucsb != []
    ensures Agree(UcsbDispatch(s), {})
  {
    var t := UcsbDispatch(s);
    assert SideOk(t, Read) && SideOk(t, Write) && HashOk(t);
    UcsbDispatchLists(s);
    UcsbDispatchPlaces(s);
  }

  lemma UcsbDispatchPlaces(s: Sched)
    requires PlacesOk(s, {}) && s.ucsb != [] && s.ucsb[0] in s.rqs
    ensures PlacesOk(UcsbDispatch(s), {})
  {
    hide HashFn, End;
    var t := UcsbDispatch(s);
    assert s.ucsb == [s.ucsb[0]] + t.ucsb;
    assert forall j :: j in t.rqs ==> Queued(t, j) == Queued(s, j) && OnSort(t, j) == OnSort(s, j);
    hide Queued, OnSort;
    forall j | j in t.rqs ensures PlacedOk(t, j) {
      assert PlacedOk(s, j);
    }
  }

  lemma UcsbDispatchLists(s: Sched)
    requires ListsOk(s, {}) && s.ucsb != []
    ensures s.ucsb[0] in s.rqs && ListsOk(UcsbDispatch(s), {})
  {
    hide QosReady;
    var t := UcsbDispatch(s);
    assert s.ucsb == [s.ucsb[0]] + t.ucsb;
    assert s.ucsb[0] !in t.ucsb;
    assert forall j :: j in t.rqs ==> Queued(t, j) == Queued(s, j);
    hide Queued;
  }

  // -------------------------------------------------------------------- dispatching

  /** What deadline_dispatch_requests decides before it moves anything. */
  datatype Pick = Pick(batching: nat, starved: nat, choice: Option<(Id, How)>)

  /**
   x is outside every index.  With it the BUG_ONs of deadline_dispatch_requests cannot
   fire: see FifoMeansTree.
   */
  ghost predicate Settled(s: Sched, x: set<Id>) {
    Agree(s, x) && forall id :: id in x ==> !Queued(s, id) && !OnSort(s, id)
  }

  /** A non-empty FIFO means a non-empty tree: BUG_ON(RB_EMPTY(...)) does not fire. */
  lemma FifoMeansTree(s: Sched, d: Dir, x: set<Id>)
    requires Settled(s, x) && s.fifo.At(d) != []
    ensures s.sort.At(d) != map[]
    ensures Queued(s, s.fifo.At(d)[0]) && OnSort(s, s.fifo.At(d)[0]) && s.rqs[s.fifo.At(d)[0]].dir == d
  {
    var id := s.fifo.At(d)[0];
    assert SideOk(s, d);
    assert id in s.fifo.At(d);
    assert Queued(s, id);
    assert PlacedOk(s, id);
    assert s.rqs[id].rbKey in s.sort.At(d);
  }

  lemma TreeMeansFifo(s: Sched, d: Dir, k: nat, x: set<Id>)
    requires Settled(s, x) && k in s.sort.At(d)
    ensures Queued(s, s.sort.At(d)[k]) && OnSort(s, s.sort.At(d)[k]) && s.rqs[s.sort.At(d)[k]].dir == d
  {
    assert SideOk(s, d);
    assert PlacedOk(s, s.sort.At(d)[k]);
  }

  /** The dispatch_find_request part, for one direction. */
  ghost function FindIn(s: Sched, batching: nat, starved: nat, d: Dir, x: set<Id>): Pick
    requires Settled(s, x) && s.fifo.At(d) != []
  {
    FifoMeansTree(s, d, x);
    var head := s.fifo.At(d)[0];
    if s.now > s.rqs[head].expires then Pick(1, starved, Some((head, Restart(true))))
    else if s.next.At(d).Some? then Pick(Uint(batching + 1), starved, Some((s.next.At(d).value, Sweep)))
    else Pick(1, starved, Some((s.sort.At(d)[LeastKey(s.sort.At(d))], Restart(false))))
  }

  ghost function BatchAfterCheck(s: Sched): nat
    requires NextRq(s).Some? ==> NextRq(s).value in s.rqs
  {
    if NextRq(s).Some? && s.lastSector != s.rqs[NextRq(s).value].sector
    then Uint(s.batching + s.cfg.fifoBatch) else s.batching
  }

  lemma NextKnown(s: Sched, x: set<Id>)
    requires Settled(s, x) && NextRq(s).Some?
    ensures Queued(s, NextRq(s).value) && OnSort(s, NextRq(s).value)
  {
    var n := NextRq(s).value;
    assert SideOk(s, Read) && SideOk(s, Write);
    assert PlacedOk(s, n);
  }

  ghost function SelectRequest(s: Sched, x: set<Id>): Pick
    requires Settled(s, x)
  {
    var drq := NextRq(s);
    assert drq.Some? ==> drq.value in s.rqs by { if drq.Some? { NextKnown(s, x); } }
    var b := BatchAfterCheck(s);
    var anyReads := s.fifo.rd != [];
    var anyWrites := s.fifo.wr != [];
    if drq.Some? && b < s.cfg.fifoBatch then Pick(Uint(b + 1), s.starved, Some((drq.value, Sweep)))
    else if anyReads && !(anyWrites && s.starved >= s.cfg.writesStarved) then
      FindIn(s, b, if anyWrites then s.starved + 1 else s.starved, Read, x)
    else if anyWrites then FindIn(s, b, 0, Write, x)
    else Pick(b, s.starved, None)
  }

  lemma FindInQueued(s: Sched, batching: nat, starved: nat, d: Dir, x: set<Id>)
    requires Settled(s, x) && s.fifo.At(d) != []
    ensures var p := FindIn(s, batching, starved, d, x);
      p.choice.Some? && Queued(s, p.choice.value.0) && s.rqs[p.choice.value.0].dir == d
  {
    FifoMeansTree(s, d, x);
    TreeMeansFifo(s, d, LeastKey(s.sort.At(d)), x);
    assert SideOk(s, d);
    if s.next.At(d).Some? {
      TreeMeansFifo(s, d, s.rqs[s.next.At(d).value].rbKey, x);
    }
  }

  /** The request chosen is an indexed one, so moving it is safe; none is chosen only if none waits. */
  lemma SelectedQueued(s: Sched, x: set<Id>)
    requires Settled(s, x)
    ensures var p := SelectRequest(s, x);
      && (p.choice.None? <==> s.fifo.rd == [] && s.fifo.wr == [])
      && (p.choice.Some? ==> MoveReady(s, p.choice.value.0, x))
  {
    hide SideOk, PlacesOk, HashOk, ListsOk;
    if NextRq(s).Some? { NextKnown(s, x); }
    var b := BatchAfterCheck(s);
    if s.fifo.rd != [] {
      FindInQueued(s, b, if s.fifo.wr != [] then s.starved + 1 else s.starved, Read, x);
    }
    if s.fifo.wr != [] {
      FindInQueued(s, b, 0, Write, x);
    }
  }

  /** The settings of the batch counters after a selection. */
  function WithCounters(s: Sched, p: Pick): Sched {
    s.(batching := p.batching, starved := p.starved)
  }

  lemma CountersAgree(s: Sched, p: Pick, x: set<Id>)
    requires Settled(s, x)
    ensures Settled(WithCounters(s, p), x)
    ensures forall id :: Queued(WithCounters(s, p), id) == Queued(s, id)
  {
    var t := WithCounters(s, p);
    CountersSides(s, p);
    hide Agree, WithCounters, Queued, OnSort;
    OutsideAgree(s, t, x);
  }

  lemma CountersSides(s: Sched, p: Pick)
    requires SideOk(s, Read) && SideOk(s, Write)
    ensures var t := WithCounters(s, p);
      && SideOk(t, Read) && SideOk(t, Write) && SameOutside(s, t, {})
      && forall id :: Queued(t, id) == Queued(s, id) && OnSort(t, id) == OnSort(s, id)
  {
    hide NoDup;
  }

  /** deadline_dispatch_requests, when it returns 1. */
  ghost function DispatchRequests(s: Sched, x: set<Id>): Sched
    requires Settled(s, x) && SelectRequest(s, x).choice.Some?
  {
    var p := SelectRequest(s, x);
    SelectedQueued(s, x);
    CountersAgree(s, p, x);
    MoveMovable(WithCounters(s, p), p.choice.value.0, p.choice.value.1, x);
    Move(WithCounters(s, p), p.choice.value.0, p.choice.value.1)
  }

  lemma DispatchAgree(s: Sched, x: set<Id>)
    requires Settled(s, x) && SelectRequest(s, x).choice.Some?
    ensures var t := DispatchRequests(s, x); var p := SelectRequest(s, x);
      && Settled(t, x)
      && MoveReady(s, p.choice.value.0, x) && Movable(s, p.choice.value.0)
      && t == Moved(WithCounters(s, p), p.choice.value.0, p.choice.value.1)
      && |t.fifo.rd| + |t.fifo.wr| < |s.fifo.rd| + |s.fifo.wr|
  {
    hide PlacesOk, HashOk, ListsOk, SideOk, SelectRequest;
    var p := SelectRequest(s, x);
    var id := p.choice.value.0;
    SelectedQueued(s, x);
    CountersAgree(s, p, x);
    var s1 := WithCounters(s, p);
    MoveMovable(s, id, p.choice.value.1, x);
    MoveMovable(s1, id, p.choice.value.1, x);
    MoveAgree(s1, id, p.choice.value.1, x);
    FifoShrinks(s, id, x);
  }

  lemma FifoShrinks(s: Sched, id: Id, x: set<Id>)
    requires MoveReady(s, id, x)
    ensures |Without(s.fifo.At(s.rqs[id].dir), id)| < |s.fifo.At(s.rqs[id].dir)|
  {
    var l := s.fifo.At(s.rqs[id].dir);
    assert id in l && NoDup(l) by { assert SideOk(s, s.rqs[id].dir); }
    var i :| 0 <= i < |l| && l[i] == id;
    WithoutAt(l, i);
  }

  /** The drain loop of a barrier; it ends because every round empties the FIFOs by one. */
  ghost function Drain(s: Sched, x: set<Id>): Sched
    requires Settled(s, x)
    decreases |s.fifo.rd| + |s.fifo.wr|
  {
    if SelectRequest(s, x).choice.Some? then
      DispatchAgree(s, x);
      Drain(DispatchRequests(s, x), x)
    else
      WithCounters(s, SelectRequest(s, x))
  }

  lemma {:induction false} DrainAgree(s: Sched, x: set<Id>)
    requires Settled(s, x)
    ensures var t := Drain(s, x);
      Settled(t, x) && t.fifo.rd == [] && t.fifo.wr == []
      && t.hashGen == s.hashGen && t.rqs.Keys == s.rqs.Keys && t.ucsb == s.ucsb
      && (forall id :: id in x ==> t.rqs[id] == s.rqs[id])
      && (s.lastMerge.None? ==> t.lastMerge.None?)
    decreases |s.fifo.rd| + |s.fifo.wr|
  {
    hide Agree, SelectRequest, Movable;
    SelectedQueued(s, x);
    if SelectRequest(s, x).choice.Some? {
      DispatchAgree(s, x);
      DrainAgree(DispatchRequests(s, x), x);
    } else {
      CountersAgree(s, SelectRequest(s, x), x);
    }
  }

  // ------------------------------------------------------------------ insertion

  /** What __make_request fills in for a fresh request. */
  function NewRq(b: Bio): Rq {
    Rq([b], b.dir, b.disk, b.sector, b.nr, b.barrier, b.barrier, false, false, false, 0, 0, 0, 0, false)
  }

  /** The barrier branch of deadline_insert_request. */
  ghost function InsertBarrier(s: Sched, id: Id): Sched
    requires Settled(s, {id})
  {
    var s1 := s.(hashGen := NextGen(s.hashGen), lastMerge := None);
    NewGenSettled(s, {id});
    var s2 := Drain(s1, {id});
    var r := s.rqs[id];
    s2.(dispatch := s2.dispatch + [id], log := s2.log + [Entry(id, r.dir, r.sector, Barrier, false, false)])
  }

  lemma NewGenSettled(s: Sched, x: set<Id>)
    requires Settled(s, x)
    ensures Settled(s.(hashGen := NextGen(s.hashGen), lastMerge := None), x)
  {
    hide Agree, Queued, OnSort;
    IndexesAgree(s, s.(hashGen := NextGen(s.hashGen), lastMerge := None), x);
  }

  /** The QoS branch of deadline_insert_request. */
  function InsertQos(s: Sched, id: Id): Sched
    requires id in s.rqs && forall j :: j in s.ucsb ==> j in s.rqs
  {
    UcsbAdd(s.(rqs := s.rqs[id := s.rqs[id].(qosFlag := true)]), id)
  }

  /** A mergeable new request is hashed, and becomes last_merge when there is none. */
  function HashNew(s: Sched, id: Id): Sched
    requires id in s.rqs && s.rqs[id].gen == 0 && |s.hash| == HASH_ENTRIES
  {
    if Mergeable(s.rqs[id])
    then AddHash(s, id).(lastMerge := if s.lastMerge.None? then Some(id) else s.lastMerge)
    else s
  }

  lemma HashNewSettled(s: Sched, id: Id)
    requires Settled(s, {id}) && s.rqs[id].gen == 0
    ensures var t := HashNew(s, id); var r := s.rqs[id];
      && Settled(t, {id}) && t.hashGen == s.hashGen
      && t.rqs[id] == if Mergeable(r) then r.(gen := s.hashGen, slot := HashFn(End(r))) else r
  {
    hide SideOk, PlacesOk;
    if Mergeable(s.rqs[id]) {
      var t := AddHash(s, id);
      AddHashAgree(s, id, {id});
      TouchedMembers(s, t, id);
      LastMergeAgree(t, if s.lastMerge.None? then Some(id) else s.lastMerge, {id});
    }
  }

  /** The best-effort branch of deadline_insert_request. */
  ghost function InsertBestEffort(s: Sched, id: Id): Sched
    requires Settled(s, {id}) && s.rqs[id].gen == 0
  {
    HashNewSettled(s, id);
    AddRequest(HashNew(s, id), id)
  }

  /** deadline_insert_request for a filesystem request. */
  ghost function InsertRequest(s: Sched, id: Id): Sched
    requires Settled(s, {id}) && s.rqs[id].gen == 0 && s.rqs[id].bios != []
  {
    if s.rqs[id].barrier then InsertBarrier(s, id)
    else if IoType(s.rqs[id].bios[0]) != BestEffort then InsertQos(s, id)
    else InsertBestEffort(s, id)
  }

  lemma InsertBestEffortAgree(s: Sched, id: Id)
    requires Settled(s, {id}) && s.rqs[id].gen == 0
    ensures var t := InsertBestEffort(s, id);
      && Agree(t, {}) && Queued(t, id) && OnSort(t, id)
      && t.rqs[id].sector == s.rqs[id].sector
  {
    hide SideOk, PlacesOk, AddRequest, HashNew;
    HashNewSettled(s, id);
    var s1 := HashNew(s, id);
    AddRequestAgree(s1, id, {id});
    Close(AddRequest(s1, id), id, {id});
    assert {id} - {id} == {};
  }

  lemma LastMergeAgree(s: Sched, m: Option<Id>, x: set<Id>)
    requires Agree(s, x) && (m.Some? ==> m.value in s.rqs && (Queued(s, m.value) || m.value in x))
    ensures var t := s.(lastMerge := m);
      Agree(t, x) && forall j :: Queued(t, j) == Queued(s, j) && OnSort(t, j) == OnSort(s, j)
  {
    assert s.hashGen != 0;
    hide Agree, Queued, OnSort;
    IndexesAgree(s, s.(lastMerge := m), x);
  }

  lemma LinkOnce(l: seq<Id>, id: Id, p: nat)
    requires NoDup(l) && id !in l && p <= |l|
    ensures var r := l[..p] + [id] + l[p..];
      NoDup(r) && Without(r, id) == l && forall j :: j in r <==> j in l || j == id
  {
    var r := l[..p] + [id] + l[p..];
    assert l == l[..p] + l[p..];
    assert forall j :: j in r <==> j in l[..p] || j == id || j in l[p..];
    forall i, j | 0 <= i < j < |r| ensures r[i] != r[j] {
      assert r[i] == if i < p then l[i] else if i == p then id else l[i - 1];
      assert r[j] == if j < p then l[j] else if j == p then id else l[j - 1];
    }
    WithoutAt(r, p);
    assert r[..p] == l[..p] && r[p + 1..] == l[p..];
  }

  /** Linking a QoS request into ucsb_queue puts it there once and reorders nobody. */
  lemma InsertQosAgree(s: Sched, id: Id)
    requires Settled(s, {id}) && s.rqs[id].gen == 0 && s.lastMerge != Some(id)
    requires QosReady(s.rqs[id].(qosFlag := true))
    ensures var t := InsertQos(s, id);
      && Agree(t, {}) && id in t.ucsb && t.ucsbCnt == |t.ucsb| && Without(t.ucsb, id) == s.ucsb
  {
    hide SideOk, PlacesOk, HashOk, QosKeys, InsertPos, NoDup, Without;
    var s0 := s.(rqs := s.rqs[id := s.rqs[id].(qosFlag := true)]);
    var p := InsertPos(QosKeys(s0, s.ucsb), QosKey(s0.rqs[id]));
    LinkOnce(s.ucsb, id, p);
    InsertQosPlaces(s, InsertQos(s, id), id);
  }

  /** t is s with the new request flagged and in ucsb_queue. */
  ghost predicate QosLinked(s: Sched, t: Sched, id: Id) {
    && id in s.rqs && !Queued(s, id) && !OnSort(s, id) && s.rqs[id].gen == 0 && s.lastMerge != Some(id)
    && t == s.(rqs := s.rqs[id := s.rqs[id].(qosFlag := true)], ucsb := t.ucsb, ucsbCnt := s.ucsbCnt + 1)
    && NoDup(t.ucsb) && |t.ucsb| == |s.ucsb| + 1 && (forall j :: j in t.ucsb <==> j in s.ucsb || j == id)
    && QosReady(t.rqs[id])
  }

  lemma QosMembers(s: Sched, t: Sched, id: Id)
    requires QosLinked(s, t, id)
    ensures forall j :: Queued(t, j) == Queued(s, j) && OnSort(t, j) == OnSort(s, j)
  {
    hide NoDup, QosReady;
  }

  lemma QosSides(s: Sched, t: Sched, id: Id)
    requires QosLinked(s, t, id) && SideOk(s, Read) && SideOk(s, Write)
    ensures SideOk(t, Read) && SideOk(t, Write)
  {
    QosMembers(s, t, id);
    hide NoDup, QosReady, Queued;
  }

  lemma QosPlaces(s: Sched, t: Sched, id: Id)
    requires QosLinked(s, t, id) && PlacesOk(s, {id}) && HashOk(s)
    ensures PlacesOk(t, {}) && HashOk(t)
  {
    QosMembers(s, t, id);
    hide NoDup, QosReady, Queued, OnSort, HashFn;
    forall j | j in t.rqs ensures PlacedOk(t, j) {
      if j != id { assert PlacedOk(s, j); }
    }
  }

  lemma QosLists(s: Sched, t: Sched, id: Id)
    requires QosLinked(s, t, id) && ListsOk(s, {id})
    ensures ListsOk(t, {})
  {
    QosMembers(s, t, id);
    hide Queued, OnSort, NoDup;
  }

  lemma InsertQosPlaces(s: Sched, t: Sched, id: Id)
    requires Settled(s, {id}) && QosLinked(s, t, id)
    ensures Agree(t, {})
  {
    hide SideOk, PlacesOk, HashOk, ListsOk, QosLinked;
    QosSides(s, t, id);
    QosPlaces(s, t, id);
    QosLists(s, t, id);
  }

  lemma InsertBarrierAgree(s: Sched, id: Id)
    requires Settled(s, {id}) && s.rqs[id].gen == 0
    ensures var t := InsertBarrier(s, id);
      && Agree(t, {}) && t.fifo.rd == [] && t.fifo.wr == [] && t.lastMerge.None?
      && t.dispatch != [] && t.dispatch[|t.dispatch| - 1] == id
  {
    var s1 := s.(hashGen := NextGen(s.hashGen), lastMerge := None);
    NewGenSettled(s, {id});
    DrainAgree(s1, {id});
    BarrierLast(Drain(s1, {id}), id, InsertBarrier(s, id));
  }

  lemma BarrierLast(s: Sched, id: Id, t: Sched)
    requires Settled(s, {id}) && s.rqs[id].gen == 0 && s.lastMerge.None?
    requires t == s.(dispatch := s.dispatch + [id], log := t.log)
    ensures Agree(t, {})
  {
    assert forall j :: Queued(t, j) == Queued(s, j) && OnSort(t, j) == OnSort(s, j);
    forall j | j in t.rqs ensures PlacedOk(t, j) {
      if j != id { assert PlacedOk(s, j); }
    }
    assert SideOk(t, Read) && SideOk(t, Write);
  }
}
