/**
 The placement rule of the QoS queue (ucsb_queue): where ucsb_io_add_request links a
 request, and what order that keeps.  The rule reads only the priority and the start
 sector of each queued request, so it is stated on those keys; Scheduler applies it to
 request identities.
 */
module QosQueue {

  datatype Key = Key(priority: int, sector: nat)

  /** Where the forward scan stops: the first entry of lower priority, else the last entry. */
  ghost predicate ForwardStop(q: seq<Key>, k: Key, p: nat) {
    p < |q|
    && (forall j :: 0 <= j < p ==> q[j].priority >= k.priority)
    && (q[p].priority < k.priority || p == |q| - 1)
  }

  /** The first entry of lower priority, |q| when there is none. */
  function FirstLower(q: seq<Key>, priority: int): (f: nat)
    ensures f <= |q|
    ensures forall j :: 0 <= j < f ==> q[j].priority >= priority
    ensures f < |q| ==> q[f].priority < priority
  {
    if q == [] || q[0].priority < priority then 0 else 1 + FirstLower(q[1..], priority)
  }

  /** One past the last of the entries 0..p whose sector is not above the given one. */
  function ScanBack(q: seq<Key>, p: nat, sector: nat): (i: nat)
    requires p < |q|
    ensures i <= p + 1
    ensures i > 0 ==> q[i - 1].sector <= sector
    ensures forall j :: i <= j <= p ==> q[j].sector > sector
  {
    if q[p].sector <= sector then p + 1
    else if p == 0 then 0
    else ScanBack(q, p - 1, sector)
  }

  /** The index at which a new entry with key k is linked. */
  function InsertPos(q: seq<Key>, k: Key): (i: nat)
    ensures i <= |q|
  {
    if q == [] then 0
    else
      var f := FirstLower(q, k.priority);
      ScanBack(q, if f < |q| then f else |q| - 1, k.sector)
  }

  function Insert(q: seq<Key>, k: Key): (r: seq<Key>)
    ensures |r| == |q| + 1
  {
    var i := InsertPos(q, k);
    q[..i] + [k] + q[i..]
  }

  /**
   The two list scans of ucsb_io_add_request.  `entry` is the current list position, -1
   standing for the list head.
   */
  method FindSlot(q: seq<Key>, k: Key) returns (pos: nat)
    ensures pos == InsertPos(q, k)
    ensures q != [] ==> exists p: nat :: ForwardStop(q, k, p) && pos <= p + 1
                                    && (pos > 0 ==> q[pos - 1].sector <= k.sector)
                                    && forall j :: pos <= j <= p ==> q[j].sector > k.sector
  {
    if q == [] {
      return 0;
    }
    var entry := 0;
    while q[entry].priority >= k.priority && entry + 1 < |q|
      invariant 0 <= entry < |q|
      invariant forall j :: 0 <= j < entry ==> q[j].priority >= k.priority
      decreases |q| - entry
    {
      entry := entry + 1;
    }
    ghost var p := entry;
    assert ForwardStop(q, k, p);
    ForwardStopUnique(q, k, p);
    while entry >= 0 && q[entry].sector > k.sector
      invariant -1 <= entry <= p
      invariant entry >= 0 ==> ScanBack(q, p, k.sector) == ScanBack(q, entry, k.sector)
      invariant entry == -1 ==> ScanBack(q, p, k.sector) == 0
      invariant forall j :: entry < j <= p ==> q[j].sector > k.sector
      decreases entry
    {
      entry := entry - 1;
    }
    pos := entry + 1;
  }

  lemma ForwardStopUnique(q: seq<Key>, k: Key, p: nat)
    requires ForwardStop(q, k, p)
    ensures p == if FirstLower(q, k.priority) < |q| then FirstLower(q, k.priority) else |q| - 1
  {
    var f := FirstLower(q, k.priority);
  }

  // ------------------------------------------------------------------ sector order

  /** All entries have one priority, and the queue is ordered by sector. */
  ghost predicate OneClass(q: seq<Key>, priority: int) {
    (forall i :: 0 <= i < |q| ==> q[i].priority == priority)
    && forall i, j :: 0 <= i < j < |q| ==> q[i].sector <= q[j].sector
  }

  /**
   Within one priority class the insertion is a stable sector sort: everything in front
   is at or below the new sector, everything behind strictly above it.
   */
  lemma StableSectorInsert(q: seq<Key>, k: Key)
    requires OneClass(q, k.priority)
    ensures OneClass(Insert(q, k), k.priority)
    ensures forall j :: 0 <= j < |q| ==> (j < InsertPos(q, k) <==> q[j].sector <= k.sector)
  {
    var i := InsertPos(q, k);
    if q != [] {
      var f := FirstLower(q, k.priority);
      assert f == |q|;
      if i > 0 { assert q[i - 1].sector <= k.sector; }
    }
    var r := Insert(q, k);
    forall a, b | 0 <= a < b < |r| ensures r[a].sector <= r[b].sector {
      assert r[a] == if a < i then q[a] else if a == i then k else q[a - 1];
      assert r[b] == if b < i then q[b] else if b == i then k else q[b - 1];
    }
  }

  /** The queue under a sequence of insertions (Some) and removals of the head (None). */
  datatype Op = Link(key: Key) | TakeHead

  function Replay(q: seq<Key>, ops: seq<Op>): seq<Key>
    decreases |ops|
  {
    if ops == [] then q
    else match ops[0]
      case Link(k) => Replay(Insert(q, k), ops[1..])
      case TakeHead => Replay(if q == [] then q else q[1..], ops[1..])
  }

  /** Any mix of arrivals and dispatches in one priority class keeps the queue sector-sorted. */
  lemma {:induction false} OneClassForever(q: seq<Key>, ops: seq<Op>, priority: int)
    requires OneClass(q, priority)
    requires forall i :: 0 <= i < |ops| && ops[i].Link? ==> ops[i].key.priority == priority
    ensures OneClass(Replay(q, ops), priority)
    decreases |ops|
  {
    if ops != [] {
      match ops[0]
      case Link(k) =>
        StableSectorInsert(q, k);
        OneClassForever(Insert(q, k), ops[1..], priority);
      case TakeHead =>
        OneClassForever(if q == [] then q else q[1..], ops[1..], priority);
    }
  }

  // ---------------------------------------------------------------- priority order

  ghost predicate PrioritySorted(q: seq<Key>) {
    forall i, j :: 0 <= i < j < |q| ==> q[i].priority >= q[j].priority
  }

  /** The forward scan does not leave the new entry behind one of lower priority. */
  predicate NotBehindLower(q: seq<Key>, k: Key) {
    var f := FirstLower(q, k.priority);
    f < |q| ==> q[f].sector > k.sector
  }

  /**
   The backward scan does not carry the new entry in front of one of higher priority: the
   last higher-priority entry, or an entry of equal priority, has a sector that stops it.
   */
  ghost predicate NotPastHigher(q: seq<Key>, k: Key) {
    var f := FirstLower(q, k.priority);
    var e := FirstLower(q, k.priority + 1);
    e == 0 || exists j :: e - 1 <= j < f && q[j].sector <= k.sector
  }

  /** f is where the priorities of q drop below the given one. */
  ghost predicate Drops(q: seq<Key>, priority: int, f: nat) {
    f <= |q|
    && (forall j :: 0 <= j < f ==> q[j].priority >= priority)
    && (forall j :: f <= j < |q| ==> q[j].priority < priority)
  }

  lemma FirstLowerDrops(q: seq<Key>, priority: int)
    requires PrioritySorted(q)
    ensures Drops(q, priority, FirstLower(q, priority))
  {
    var f := FirstLower(q, priority);
    forall j | f <= j < |q| ensures q[j].priority < priority {
      assert q[f].priority >= q[j].priority;
    }
  }

  /** k may be linked at i without disturbing the priority order exactly for e <= i <= f. */
  lemma PriorityWindow(q: seq<Key>, k: Key, i: nat, e: nat, f: nat)
    requires PrioritySorted(q) && i <= |q|
    requires Drops(q, k.priority + 1, e) && Drops(q, k.priority, f)
    ensures PrioritySorted(q[..i] + [k] + q[i..]) <==> e <= i <= f
  {
    var r := q[..i] + [k] + q[i..];
    if i > f {
      assert r[f] == q[f] && r[i] == k;
    } else if i < e {
      assert r[e] == q[e - 1] && r[i] == k;
    } else {
      forall a, b | 0 <= a < b < |r| ensures r[a].priority >= r[b].priority {
        assert r[a] == if a < i then q[a] else if a == i then k else q[a - 1];
        assert r[b] == if b < i then q[b] else if b == i then k else q[b - 1];
      }
    }
  }

  /** Where the backward scan from p ends relative to the entries e..f it may not leave. */
  lemma BackScanReaches(q: seq<Key>, sector: nat, p: nat, e: nat, f: nat)
    requires e <= f <= |q| && p < |q| && p == if f < |q| then f else |q| - 1
    requires f < |q| ==> q[f].sector > sector
    ensures e <= ScanBack(q, p, sector)
            <==> e == 0 || exists j :: e - 1 <= j < f && q[j].sector <= sector
  {
    var i := ScanBack(q, p, sector);
    if e == 0 {
    } else if e <= i {
      assert i - 1 < f;
      assert e - 1 <= i - 1 < f && q[i - 1].sector <= sector;
    } else {
      forall j | e - 1 <= j < f ensures q[j].sector > sector {
      }
    }
  }

  /**
   "Sorted by priority" is what the comment in ucsb_io_add_request says; this is exactly
   when an insertion into a priority-sorted queue keeps that order.
   */
  lemma PriorityOrderIff(q: seq<Key>, k: Key)
    requires PrioritySorted(q)
    ensures PrioritySorted(Insert(q, k)) <==> NotBehindLower(q, k) && NotPastHigher(q, k)
  {
    var i, f, e := InsertPos(q, k), FirstLower(q, k.priority), FirstLower(q, k.priority + 1);
    FirstLowerDrops(q, k.priority);
    FirstLowerDrops(q, k.priority + 1);
    LowerLater(q, k.priority);
    PriorityWindow(q, k, i, e, f);
    hide PrioritySorted, Drops, FirstLower, ScanBack;
    WindowIff(q, k);
  }

  lemma LowerLater(q: seq<Key>, priority: int)
    ensures FirstLower(q, priority + 1) <= FirstLower(q, priority)
  {
    var f := FirstLower(q, priority);
    assert f < |q| ==> q[f].priority < priority + 1;
  }

  /** The slot lies in the window exactly under the two conditions. */
  lemma WindowIff(q: seq<Key>, k: Key)
    ensures FirstLower(q, k.priority + 1) <= InsertPos(q, k) <= FirstLower(q, k.priority)
            <==> NotBehindLower(q, k) && NotPastHigher(q, k)
  {
    var f, e := FirstLower(q, k.priority), FirstLower(q, k.priority + 1);
    LowerLater(q, k.priority);
    if q != [] {
      var p := if f < |q| then f else |q| - 1;
      hide FirstLower, ScanBack;
      if f == |q| || q[f].sector > k.sector {
        BackScanReaches(q, k.sector, p, e, f);
      }
    }
  }

  /** The comment is not true of the code: a sector scan may carry a request past a higher priority. */
  lemma PriorityOrderCanBreak()
    ensures exists q, k :: PrioritySorted(q) && !PrioritySorted(Insert(q, k))
  {
    var q, k := [Key(20, 100)], Key(10, 5);
    assert Insert(q, k) == [k, q[0]] by {
      assert FirstLower(q, 10) == 1;
      assert ScanBack(q, 0, 5) == 0;
    }
    assert Insert(q, k)[0].priority < Insert(q, k)[1].priority;
    assert PrioritySorted(q);
  }
}
