/** The tag allocator of a queue: a bitmap of tags, an index from tags to requests, and the busy list. */
module TagQueue {
  import opened Types

  /** What the allocator uses of a request: rq->tag and the flag REQ_QUEUED. */
  class Request {
    var tag: int
    var queued: bool

    constructor ()
      ensures tag == -1 && !queued
    {
      tag, queued := -1, false;
    }
  }

  predicate Full(word: seq<bool>) {
    forall i :: 0 <= i < |word| ==> word[i]
  }

  /** ffz: the first zero bit. */
  function FirstZero(word: seq<bool>): (i: nat)
    requires !Full(word)
    ensures i < |word| && !word[i] && forall j :: 0 <= j < i ==> word[j]
  {
    if !word[0] then 0
    else
      assert exists k :: 0 <= k < |word| && !word[k];
      assert !Full(word[1..]) by {
        var k :| 0 <= k < |word| && !word[k];
        assert !word[1..][k - 1];
      }
      1 + FirstZero(word[1..])
  }

  ghost function Below(n: nat): (r: set<int>)
    ensures |r| == n && forall x :: x in r <==> 0 <= x < n
  {
    if n == 0 then {} else Below(n - 1) + {n - 1}
  }

  /** Distinct numbers below n: there are n of them exactly when none is missing. */
  lemma Pigeonhole(s: seq<int>, n: nat)
    requires NoDup(s) && forall x :: x in s ==> 0 <= x < n
    ensures |s| <= n && (|s| == n <==> forall x :: 0 <= x < n ==> x in s)
  {
    var all, have := Below(n), set x | x in s;
    Elements(s);
    assert have <= all;
    var missing := all - have;
    assert missing + have == all && |missing| + |have| == |all|;
    if |s| == n {
      assert missing == {};
      forall x | 0 <= x < n ensures x in s {
        assert x in all && x !in missing;
      }
    } else {
      var x :| x in missing;
      assert x in all && x !in s;
    }
  }

  lemma {:induction false} Elements(s: seq<int>)
    requires NoDup(s)
    ensures |set x | x in s| == |s|
  {
    if s != [] {
      Elements(s[1..]);
      assert (set x | x in s) == (set x | x in s[1..]) + {s[0]};
    }
  }

  /** list_del of a request that is linked once. */
  function Unlinked(l: seq<Request>, x: Request): seq<Request> {
    if l == [] then [] else if l[0] == x then l[1..] else [l[0]] + Unlinked(l[1..], x)
  }

  lemma {:induction false} UnlinkedIs(l: seq<Request>, x: Request)
    requires NoDup(l)
    ensures var r := Unlinked(l, x);
      |r| == (if x in l then |l| - 1 else |l|) && NoDup(r) && x !in r && (forall y :: y in r ==> y in l)
        && forall y :: y in l ==> y == x || y in r
  {
    if l != [] && l[0] != x {
      UnlinkedIs(l[1..], x);
      assert l[0] !in l[1..];
    }
  }

  class TagQueue {
    /** BLK_TAGS_PER_LONG */
    const wordBits: nat
    const maxDepth: nat
    const tagMap: array<seq<bool>>
    const tagIndex: array<Request?>
    var busyList: seq<Request>
    var busy: nat
    /** The requests of the queue that wait for the driver. */
    var waiting: seq<Request>

    ghost predicate Shape()
      reads tagMap
    {
      wordBits > 0 && tagIndex.Length == maxDepth && tagMap.Length == maxDepth / wordBits + 1
      && forall w :: 0 <= w < tagMap.Length ==> |tagMap[w]| == wordBits
    }

    /** The bits of the map, and the number of a bit of a word. */
    function Bits(): nat {
      tagMap.Length * wordBits
    }

    function At(w: nat, i: nat): nat {
      w * wordBits + i
    }

    lemma InRange(t: nat)
      requires Shape() && t < Bits()
      ensures t / wordBits < tagMap.Length && t == At(t / wordBits, t % wordBits)
    {
      QuotientBelow(t, tagMap.Length, wordBits);
    }

    lemma BitAt(w: nat, i: nat)
      requires Shape() && w < tagMap.Length && i < wordBits
      ensures At(w, i) < Bits() && Bit(At(w, i)) == tagMap[w][i]
    {
      assert (w + 1) * wordBits <= tagMap.Length * wordBits;
      DivUnique(w * wordBits + i, wordBits, w, i);
    }

    lemma DepthInside()
      requires Shape()
      ensures maxDepth < Bits()
    {
      assert maxDepth == wordBits * (maxDepth / wordBits) + maxDepth % wordBits;
    }

    /** test_bit */
    predicate Bit(t: nat)
      requires Shape() && t < Bits()
      reads tagMap
    {
      InRange(t);
      tagMap[t / wordBits][t % wordBits]
    }

    /** Bits beyond the depth are set; a bit below it is set exactly when the tag has its request. */
    ghost predicate MapOk()
      requires Shape()
      reads tagMap, tagIndex
    {
      forall t: nat :: t < Bits() ==> (Bit(t) <==> t >= maxDepth || tagIndex[t] != null)
    }

    /**
     The busy list holds each tagged request once, and the tag in a request is its own; a
     request, having one link, is not on both lists.
     */
    ghost predicate Valid()
      reads this, tagMap, tagIndex, busyList
    {
      && Shape() && MapOk()
      && NoDup(busyList) && busy == |busyList|
      && NoDup(waiting) && (forall r :: r in waiting ==> r !in busyList)
      && (forall r :: r in busyList ==> r.queued && 0 <= r.tag < maxDepth && tagIndex[r.tag] == r)
      && (forall t :: 0 <= t < maxDepth && tagIndex[t] != null ==> tagIndex[t] in busyList && tagIndex[t].tag == t)
    }

    /** busy is the number of tags taken; so the queue is full exactly when every tag is taken. */
    lemma FullWhenAllTaken()
      requires Valid()
      ensures busy <= maxDepth && (busy == maxDepth <==> forall t :: 0 <= t < maxDepth ==> tagIndex[t] != null)
    {
      var tags := seq(|busyList|, i requires 0 <= i < |busyList| reads this, busyList => busyList[i].tag);
      assert forall i :: 0 <= i < |busyList| ==> busyList[i] in busyList;
      forall i, j | 0 <= i < j < |tags| ensures tags[i] != tags[j] {
        assert tagIndex[busyList[i].tag] == busyList[i] && tagIndex[busyList[j].tag] == busyList[j];
      }
      forall t | 0 <= t < maxDepth ensures t in tags <==> tagIndex[t] != null {
        if tagIndex[t] != null {
          var i :| 0 <= i < |busyList| && busyList[i] == tagIndex[t];
          assert tags[i] == t;
        }
      }
      Pigeonhole(tags, maxDepth);
    }

    /** blk_queue_init_tags */
    constructor (depth: nat, queueNrRequests: nat, wordBits: nat, waiting: seq<Request>)
      requires wordBits > 0 && NoDup(waiting)
      ensures Valid() && busy == 0 && this.waiting == waiting
      ensures maxDepth == if depth > 2 * queueNrRequests then 2 * queueNrRequests else depth
      ensures fresh(tagMap) && fresh(tagIndex)
    {
      var max := if depth > 2 * queueNrRequests then 2 * queueNrRequests else depth;
      var words := max / wordBits + 1;
      this.maxDepth, this.wordBits := max, wordBits;
      var index := new Request?[max](_ => null);
      var bits := new seq<bool>[words](_ => seq(wordBits, _ => false));
      tagIndex, tagMap := index, bits;
      busyList, busy, this.waiting := [], 0, waiting;
      new;
      SetUpper();
    }

    /** Set the bits from the depth to the end of the last word. */
    method SetUpper()
      requires Shape() && forall w, i :: 0 <= w < tagMap.Length && 0 <= i < wordBits ==> !tagMap[w][i]
      requires forall t :: 0 <= t < maxDepth ==> tagIndex[t] == null
      modifies tagMap
      ensures Shape() && MapOk()
    {
      var i := maxDepth;
      forall t: nat | t < Bits() ensures !Bit(t) {
        InRange(t);
      }
      DepthInside();
      hide Bits, Bit;
      while i < Bits()
        invariant Shape() && maxDepth <= i <= Bits()
        invariant forall t: nat :: t < Bits() ==> (Bit(t) <==> maxDepth <= t < i)
      {
        SetBit(i, true);
        i := i + 1;
      }
    }

    /** __set_bit and clear_bit */
    method SetBit(t: nat, value: bool)
      requires Shape() && t < Bits()
      modifies tagMap
      ensures Shape()
      ensures forall u: nat :: u < Bits() ==> Bit(u) == if u == t then value else old(Bit(u))
    {
      InRange(t);
      tagMap[t / wordBits] := tagMap[t / wordBits][t % wordBits := value];
      forall u: nat | u < Bits() ensures Bit(u) == if u == t then value else old(Bit(u)) {
        InRange(u);
        assert u / wordBits == t / wordBits && u % wordBits == t % wordBits ==> u == t;
      }
    }

    /** The scan of blk_queue_start_tag: full words are passed over until the depth is reached. */
    method FindFree() returns (tag: nat, found: bool)
      requires Valid()
      ensures found ==> tag < maxDepth && tagIndex[tag] == null && forall t :: 0 <= t < tag ==> tagIndex[t] != null
      ensures !found ==> forall t :: 0 <= t < maxDepth ==> tagIndex[t] != null
    {
      tag, found := 0, false;
      var w := 0;
      hide Bits, Bit, MapOk;
      while Full(tagMap[w])
        invariant 0 <= w < tagMap.Length && tag == At(w, 0)
        invariant forall t :: 0 <= t < tag && t < maxDepth ==> tagIndex[t] != null
        decreases tagMap.Length - w
      {
        WordPart(w, wordBits);
        tag := tag + wordBits;
        w := w + 1;
        if tag >= maxDepth {
          return;
        }
        InsideMap(w);
      }
      var bit := FirstZero(tagMap[w]);
      WordPart(w, bit);
      tag := tag + bit;
      found := true;
    }

    lemma InsideMap(w: nat)
      requires Shape() && At(w, 0) < maxDepth
      ensures w < tagMap.Length
    {
      var d := maxDepth / wordBits;
      assert maxDepth == wordBits * d + maxDepth % wordBits;
      assert w > d ==> wordBits * (d + 1) <= wordBits * w;
    }

    /** If the first n bits of a word are set, the tags they stand for are taken; the next is what its bit says. */
    lemma WordPart(w: nat, n: nat)
      requires Valid() && w < tagMap.Length && n <= wordBits && forall i :: 0 <= i < n ==> tagMap[w][i]
      ensures forall t :: At(w, 0) <= t < At(w, 0) + n && t < maxDepth ==> tagIndex[t] != null
      ensures n < wordBits && !tagMap[w][n] ==> At(w, 0) + n < maxDepth && tagIndex[At(w, 0) + n] == null
      ensures At(w, 0) + wordBits == At(w + 1, 0)
    {
      forall t | At(w, 0) <= t < At(w, 0) + n && t < maxDepth ensures tagIndex[t] != null {
        BitAt(w, t - At(w, 0));
        assert Bit(t);
      }
      if n < wordBits {
        BitAt(w, n);
        assert Bit(At(w, n)) == tagMap[w][n];
      }
      assert (w + 1) * wordBits == w * wordBits + wordBits;
    }

    /**
     blk_queue_start_tag: give rq the lowest free tag and move it from the waiting requests to
     the busy ones; it fails exactly when every tag is taken.  A request that is tagged already
     is a BUG.
     */
    method StartTag(rq: Request) returns (full: bool)
      requires Valid() && !rq.queued
      modifies this, tagMap, tagIndex, rq
      ensures Valid()
      ensures full <==> old(busy) == maxDepth
      ensures waiting == if full then old(waiting) else Unlinked(old(waiting), rq)
      ensures full ==> tagIndex[..] == old(tagIndex[..]) && busyList == old(busyList) && busy == old(busy)
                       && rq.tag == old(rq.tag) && !rq.queued
      ensures !full ==> rq.queued && 0 <= rq.tag < maxDepth && busyList == [rq] + old(busyList) && busy == old(busy) + 1
                        && tagIndex[..] == old(tagIndex[..])[rq.tag := rq]
                        && old(tagIndex[..])[rq.tag] == null && forall t :: 0 <= t < rq.tag ==> tagIndex[t] != null
    {
      FullWhenAllTaken();
      var tag, found := FindFree();
      full := !found;
      if found {
        Take(rq, tag);
      }
    }

    method Take(rq: Request, tag: nat)
      requires Valid() && !rq.queued && tag < maxDepth && tagIndex[tag] == null
      modifies this, tagMap, tagIndex, rq
      ensures Valid() && rq.queued && rq.tag == tag && busyList == [rq] + old(busyList) && busy == old(busy) + 1
      ensures tagIndex[..] == old(tagIndex[..])[tag := rq] && waiting == Unlinked(old(waiting), rq)
    {
      DepthInside();
      hide Bits, Bit;
      SetBit(tag, true);
      rq.queued, rq.tag := true, tag;
      tagIndex[tag] := rq;
      UnlinkedIs(waiting, rq);
      waiting := Unlinked(waiting, rq);
      busyList := [rq] + busyList;
      busy := busy + 1;
    }

    /**
     blk_queue_end_tag, for a request that holds its own tag: the tag is free again.  A tag
     beyond the depth, or one that is not busy, changes nothing.
     */
    method EndTag(rq: Request)
      requires Valid() && rq.tag >= 0 && (rq.tag < maxDepth && tagIndex[rq.tag] != null ==> tagIndex[rq.tag] == rq)
      modifies this, tagMap, tagIndex, rq
      ensures Valid() && waiting == old(waiting)
      ensures if rq in old(busyList)
              then rq.tag == -1 && !rq.queued && busyList == Unlinked(old(busyList), rq) && busy == old(busy) - 1
                   && tagIndex[..] == old(tagIndex[..])[old(rq.tag) := null]
              else rq.tag == old(rq.tag) && rq.queued == old(rq.queued) && busyList == old(busyList)
                   && busy == old(busy) && tagIndex[..] == old(tagIndex[..])
    {
      var tag := rq.tag;
      if tag >= maxDepth {
        return;
      }
      DepthInside();
      hide Bits, Bit;
      if !Bit(tag) {
        return;
      }
      SetBit(tag, false);
      UnlinkedIs(busyList, rq);
      busyList := Unlinked(busyList, rq);
      rq.queued, rq.tag := false, -1;
      tagIndex[tag] := null;
      busy := busy - 1;
    }
  }
}
