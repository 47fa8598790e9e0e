/**
 A run in which a waiting write is passed over as often as it can be: a batch of reads, and
 then writes_starved more, each of them with every read in line behind the one before.
 */
module BatchRuns {
  import opened Types
  import opened Elevator
  import opened SortTree
  import opened Scheduler
  import opened Merging
  import opened Frames
  import opened Conservation
  import opened Runs
  import opened Starvation
  import opened Witnesses

  /** The events lead from s to t. */
  ghost predicate Goes(s: Sched, es: seq<Event>, t: Sched) {
    Good(s) && Legal(s, es) && Exec(s, es) == t
  }

  lemma Stays(s: Sched)
    requires Good(s)
    ensures Goes(s, [], s)
  {
    hide Good;
  }

  lemma Goes1(s: Sched, es: seq<Event>, t: Sched, e: Event)
    requires Goes(s, es, t) && Good(t) && Enabled(t, e)
    ensures Goes(s, es + [e], Step(t, e)) && Good(Step(t, e)) && Step(t, e).cfg == t.cfg
  {
    hide Good, Step, Enabled;
    StepGood(t, e);
    ExecSnoc(s, es, e);
  }

  // -------------------------------------------------------------------- reads in line

  /** A read of one sector; neighbours are on different disks, so that they do not merge. */
  function ReadAt(tag: nat, sector: nat): Bio {
    Bio(tag, sector, 1, Read, sector % 2, false, None)
  }

  predicate IsRead(r: Rq, k: nat) {
    r.dir.Read? && r.sector == k && r.nr == 1 && r.rbKey == k && r.disk == k % 2
  }

  /** One read waits for each sector from lo up to hi, and with w also write 0. */
  ghost predicate Queues(s: Sched, lo: nat, hi: nat, w: bool) {
    && lo <= hi && s.now == 0 && s.dispatch == [] && s.ucsb == [] && s.fifo.wr == (if w then [0] else [])
    && (forall k :: k in s.sort.rd <==> lo <= k < hi)
    && (forall k :: k in s.sort.rd ==> s.sort.rd[k] == k + 1)
  }

  ghost predicate Table(s: Sched, lo: nat, hi: nat, w: bool) {
    && (forall j :: j in s.rqs ==> (w && j == 0) || lo < j <= hi)
    && (forall j :: lo < j <= hi ==> j in s.rqs && IsRead(s.rqs[j], j - 1))
    && (w ==> 0 in s.rqs && s.rqs[0].dir.Write?)
  }

  /** All tags so far are below n. */
  ghost predicate Tags(s: Sched, n: nat) {
    forall b :: b in s.submitted ==> b.tag < n
  }

  ghost predicate Line(s: Sched, lo: nat, hi: nat, n: nat, w: bool) {
    Good(s) && Queues(s, lo, hi, w) && Table(s, lo, hi, w) && Tags(s, n)
  }

  lemma LineOrder(s: Sched, lo: nat, hi: nat, n: nat, w: bool)
    requires Line(s, lo, hi, n, w)
    ensures lo <= hi && Good(s) && s.dispatch == [] && s.ucsb == []
    ensures (s.fifo.wr != []) == w
  {
    hide Good;
  }

  /** An empty line is one wherever it is thought to begin. */
  lemma LineAnew(s: Sched, lo: nat, n: nat, w: bool)
    requires Line(s, lo, lo, n, w)
    ensures Line(s, 0, 0, n, w)
  {
    hide Good;
  }

  /** The sector moved last ends at lo, and next_drq is the read there. */
  predicate Cursor(s: Sched, lo: nat, hi: nat) {
    s.next == PerDir(if lo < hi then Some(lo + 1) else None, None) && s.lastSector == lo
  }

  // ------------------------------------------------------------------------- arrivals

  /** What of the arrival of a bio matters here. */
  ghost predicate Came(s: Sched, t: Sched, b: Bio, id: Id) {
    && t.cfg == s.cfg && t.now == s.now && t.dispatch == s.dispatch && t.ucsb == s.ucsb
    && t.fifo == s.fifo.Put(b.dir, s.fifo.At(b.dir) + [id])
    && t.sort == s.sort.Put(b.dir, s.sort.At(b.dir)[b.sector := id])
    && t.submitted == s.submitted + {b} && t.rqs.Keys == s.rqs.Keys + {id}
    && (forall j :: j in s.rqs && j != id ==>
          var r, q := t.rqs[j], s.rqs[j];
          r.dir == q.dir && r.sector == q.sector && r.nr == q.nr && r.rbKey == q.rbKey && r.disk == q.disk)
    && var r := t.rqs[id];
       r.dir == b.dir && r.sector == b.sector && r.nr == b.nr && r.rbKey == b.sector && r.disk == b.disk
  }

  ghost predicate SameCounters(s: Sched, t: Sched) {
    && t.cfg == s.cfg && t.next == s.next && t.lastSector == s.lastSector && t.batching == s.batching
    && t.starved == s.starved && t.log == s.log
  }

  lemma JoinedCame(s: Sched, t: Sched, b: Bio, id: Id)
    requires Joined(s, t, b, id)
    ensures Came(s, t, b, id) && id !in s.rqs && SameCounters(s, t)
  {
    hide HashFn;
  }

  lemma QueuesNext(s: Sched, t: Sched, lo: nat, hi: nat, n: nat, w: bool)
    requires Queues(s, lo, hi, w) && Came(s, t, ReadAt(n, hi), hi + 1)
    ensures Queues(t, lo, hi + 1, w)
  {
  }

  lemma TableNext(s: Sched, t: Sched, lo: nat, hi: nat, n: nat, w: bool)
    requires Table(s, lo, hi, w) && Came(s, t, ReadAt(n, hi), hi + 1) && lo <= hi
    ensures Table(t, lo, hi + 1, w)
  {
  }

  lemma TagsNext(s: Sched, t: Sched, b: Bio, id: Id, n: nat)
    requires Tags(s, n) && Came(s, t, b, id) && b.tag == n
    ensures Tags(t, n + 1)
  {
  }

  lemma NewTag(s: Sched, b: Bio, n: nat)
    requires Tags(s, n) && b.tag == n
    ensures b !in s.submitted
  {
  }

  lemma ReadApart(s: Sched, lo: nat, hi: nat, n: nat, w: bool)
    requires Line(s, lo, hi, n, w)
    ensures Apart(s, ReadAt(n, hi)) && hi + 1 !in s.rqs && ReadAt(n, hi) !in s.submitted
  {
    hide Good;
    var b := ReadAt(n, hi);
    forall j: Id | Queued(s, j) && s.rqs[j].dir == b.dir
      ensures s.rqs[j].sector != b.sector
      ensures s.rqs[j].disk == b.disk ==> End(s.rqs[j]) != b.sector && s.rqs[j].sector != b.sector + b.nr
    {
      assert IsRead(s.rqs[j], j - 1);
    }
    NewTag(s, b, n);
  }

  lemma LineParts(s: Sched, lo: nat, hi: nat, n: nat, w: bool)
    ensures Line(s, lo, hi, n, w) <==> Good(s) && Queues(s, lo, hi, w) && Table(s, lo, hi, w) && Tags(s, n)
  {
    hide Good, Queues, Table, Tags;
  }

  lemma ReadArrives(s: Sched, lo: nat, hi: nat, n: nat, w: bool)
    requires Line(s, lo, hi, n, w) && s.cfg.maxSectors >= 1 && hi + 2 < SECTOR_SPACE
    ensures var b := ReadAt(n, hi);
      Enabled(s, Submit(b, hi + 1, true, true)) && Apart(s, b) && !b.barrier && IoType(b) == BestEffort && b.tag == n
  {
    ReadApart(s, lo, hi, n, w);
    hide Line, Apart;
  }

  /** One more read comes. */
  lemma AddRead(s: Sched, es: seq<Event>, t: Sched, lo: nat, hi: nat, n: nat, w: bool)
    returns (fs: seq<Event>, u: Sched)
    requires Goes(s, es, t) && Line(t, lo, hi, n, w) && t.cfg.maxSectors >= 1 && hi + 2 < SECTOR_SPACE
    ensures Goes(s, fs, u) && Line(u, lo, hi + 1, n + 1, w) && SameCounters(t, u)
  {
    hide *;
    var b := ReadAt(n, hi);
    var e := Submit(b, hi + 1, true, true);
    ReadArrives(t, lo, hi, n, w);
    LineOrder(t, lo, hi, n, w);
    LineParts(t, lo, hi, n, w);
    SubmitApart(t, b, hi + 1);
    Goes1(s, es, t, e);
    u := Step(t, e);
    JoinedCame(t, u, b, hi + 1);
    QueuesNext(t, u, lo, hi, n, w);
    TableNext(t, u, lo, hi, n, w);
    TagsNext(t, u, b, hi + 1, n);
    LineParts(u, lo, hi + 1, n + 1, w);
    fs := es + [e];
  }

  lemma {:induction false} AddReads(s: Sched, es: seq<Event>, t: Sched, m: nat, n: nat, w: bool)
    returns (fs: seq<Event>, u: Sched)
    requires Goes(s, es, t) && Line(t, 0, 0, n, w) && t.cfg.maxSectors >= 1 && m + 2 < SECTOR_SPACE
    ensures Goes(s, fs, u) && Line(u, 0, m, n + m, w) && SameCounters(t, u)
    decreases m
  {
    hide Goes, Line;
    if m == 0 {
      fs, u := es, t;
    } else {
      var fs0, u0 := AddReads(s, es, t, m - 1, n, w);
      fs, u := AddRead(s, fs0, u0, 0, m - 1, n + m - 1, w);
    }
  }

  lemma WriteApart(s: Sched, lo: nat, hi: nat, n: nat)
    requires Line(s, lo, hi, n, false)
    ensures Apart(s, Plain1(n, 0, Write)) && 0 !in s.rqs && Plain1(n, 0, Write) !in s.submitted
  {
    hide Good;
    forall j: Id | Queued(s, j) ensures s.rqs[j].dir.Read? {
      assert IsRead(s.rqs[j], j - 1);
    }
    NewTag(s, Plain1(n, 0, Write), n);
  }

  lemma WriteCame(s: Sched, t: Sched, lo: nat, hi: nat, n: nat)
    requires Queues(s, lo, hi, false) && Table(s, lo, hi, false) && Came(s, t, Plain1(n, 0, Write), 0)
    ensures Queues(t, lo, hi, true) && Table(t, lo, hi, true)
  {
    assert [] + [0] == [0];
  }

  /** The write comes. */
  lemma AddWrite(s: Sched, es: seq<Event>, t: Sched, lo: nat, hi: nat, n: nat)
    returns (fs: seq<Event>, u: Sched)
    requires Goes(s, es, t) && Line(t, lo, hi, n, false) && t.cfg.maxSectors >= 1
    ensures Goes(s, fs, u) && Line(u, lo, hi, n + 1, true) && SameCounters(t, u)
  {
    var b := Plain1(n, 0, Write);
    var e := Submit(b, 0, true, true);
    WriteApart(t, lo, hi, n);
    hide Good, Goes, Step, Apart, Queues, Table, Tags, Joined, Came;
    LineOrder(t, lo, hi, n, false);
    SubmitApart(t, b, 0);
    Goes1(s, es, t, e);
    u := Step(t, e);
    JoinedCame(t, u, b, 0);
    WriteCame(t, u, lo, hi, n);
    TagsNext(t, u, b, 0, n);
    fs := es + [e];
  }

  // ------------------------------------------------------------------------- decisions

  lemma ReadsWait(s: Sched, lo: nat, hi: nat, n: nat, w: bool)
    requires Line(s, lo, hi, n, w) && lo < hi
    ensures s.fifo.rd != [] && s.sort.rd != map[] && LeastKey(s.sort.rd) == lo && s.sort.rd[lo] == lo + 1
    ensures lo + 1 in s.rqs && IsRead(s.rqs[lo + 1], lo) && s.now == 0
  {
    assert lo in s.sort.rd;
    TreeMeansFifo(s, Read, lo, {});
  }

  /** With no next request the line is taken from its beginning. */
  lemma RestartChosen(s: Sched, lo: nat, hi: nat, n: nat, w: bool)
    requires Line(s, lo, hi, n, w) && lo < hi && s.next == PerDir(None, None)
    requires w ==> s.starved < s.cfg.writesStarved
    ensures SelectRequest(s, {}) == Pick(1, if w then s.starved + 1 else s.starved, Some((lo + 1, Restart(false))))
  {
    hide Line, SideOk, PlacesOk, HashOk, ListsOk, FreshHash, Ordered, ContentOk, Owned;
    ReadsWait(s, lo, hi, n, w);
    LineOrder(s, lo, hi, n, w);
    FifoMeansTree(s, Read, {});
  }

  /** Within a batch the next one is. */
  lemma SweepChosen(s: Sched, lo: nat, hi: nat, n: nat, w: bool)
    requires Line(s, lo, hi, n, w) && lo < hi && Cursor(s, lo, hi)
    requires s.batching < s.cfg.fifoBatch <= INT_MAX
    ensures SelectRequest(s, {}) == Pick(s.batching + 1, s.starved, Some((lo + 1, Sweep)))
  {
    hide Line, SideOk, PlacesOk, HashOk, ListsOk, FindIn, FreshHash, Ordered, ContentOk, Owned;
    ReadsWait(s, lo, hi, n, w);
    LineOrder(s, lo, hi, n, w);
    NextKnown(s, {});
  }

  lemma ServedQueues(s: Sched, u: Sched, lo: nat, hi: nat, w: bool)
    requires Queues(s, lo, hi, w) && lo < hi && Served(s, u, lo + 1) && IsRead(s.rqs[lo + 1], lo)
    ensures Queues(u, lo + 1, hi, w) && Cursor(u, lo + 1, hi)
  {
    var k := Succ(s.sort.rd, lo);
    assert lo + 1 < hi ==> lo + 1 in s.sort.rd;
    assert k == if lo + 1 < hi then Some(lo + 1) else None;
  }

  lemma ServedTable(s: Sched, u: Sched, lo: nat, hi: nat, w: bool)
    requires Table(s, lo, hi, w) && Served(s, u, lo + 1)
    ensures Table(u, lo + 1, hi, w)
  {
  }

  lemma ReadDir(r: Rq, k: nat)
    requires IsRead(r, k)
    ensures r.dir.Read?
  {
  }

  lemma ServedTags(s: Sched, u: Sched, id: Id, n: nat)
    requires Served(s, u, id) && Tags(s, n)
    ensures Tags(u, n)
  {
  }

  /** The first read of the line is chosen, handed out and taken. */
  lemma ServeFirst(s: Sched, es: seq<Event>, t: Sched, lo: nat, hi: nat, n: nat, w: bool)
    returns (fs: seq<Event>, u: Sched)
    requires Goes(s, es, t) && Line(t, lo, hi, n, w) && lo < hi
    requires Good(t)
    requires SelectRequest(t, {}).choice.Some? && SelectRequest(t, {}).choice.value.0 == lo + 1
    requires SelectRequest(t, {}).choice.value.1.Sweep? || SelectRequest(t, {}).choice.value.1.Restart?
    ensures Goes(s, fs, u) && Line(u, lo + 1, hi, n, w) && Cursor(u, lo + 1, hi) && u.cfg == t.cfg
    ensures u.batching == SelectRequest(t, {}).batching && u.starved == SelectRequest(t, {}).starved
    ensures |u.log| == |t.log| + 1 && u.log[..|t.log|] == t.log
    ensures var e := u.log[|t.log|]; Scheduled(e) && e.dir.Read? && e.otherWaiting == w
  {
    ReadsWait(t, lo, hi, n, w);
    LineOrder(t, lo, hi, n, w);
    hide Good, Goes, Step, Enabled, SelectRequest, Queues, Table, Tags, Served, Cursor, IsRead;
    ServeChosen(t);
    FetchEnabled(t);
    Goes1(s, es, t, FetchNext);
    var v := Step(t, FetchNext);
    Goes1(s, es + [FetchNext], v, Dequeue(lo + 1));
    u := Step(v, Dequeue(lo + 1));
    fs := es + [FetchNext] + [Dequeue(lo + 1)];
    ServedQueues(t, u, lo, hi, w);
    ServedTable(t, u, lo, hi, w);
    ReadDir(t.rqs[lo + 1], lo);
    ServedTags(t, u, lo + 1, n);
  }

  // ---------------------------------------------------------------------------- batches

  /** From t to u come m decisions for reads, each made while the write waits. */
  predicate Passed(l: seq<Entry>, r: seq<Entry>, m: nat) {
    |r| == |l| + m && r[..|l|] == l && AllOver(r, |l|, m, Read)
  }

  lemma PassedTrans(l: seq<Entry>, m: seq<Entry>, r: seq<Entry>, i: nat, j: nat)
    requires Passed(l, m, i) && Passed(m, r, j)
    ensures Passed(l, r, i + j)
  {
    assert r[..|l|] == m[..|l|];
    forall k | |l| <= k < |r| ensures Scheduled(r[k]) && r[k].dir == Read && r[k].otherWaiting {
      assert k < |m| ==> r[k] == m[k];
    }
  }

  /** A running batch takes the next m of the line. */
  lemma {:induction false} ServeReads(s: Sched, es: seq<Event>, t: Sched, lo: nat, hi: nat, n: nat, m: nat)
    returns (fs: seq<Event>, u: Sched)
    requires Goes(s, es, t) && Line(t, lo, hi, n, true) && Cursor(t, lo, hi) && lo + m <= hi
    requires t.batching + m <= t.cfg.fifoBatch <= INT_MAX
    ensures Goes(s, fs, u) && Line(u, lo + m, hi, n, true) && Cursor(u, lo + m, hi) && u.cfg == t.cfg
    ensures u.batching == t.batching + m && u.starved == t.starved && Passed(t.log, u.log, m)
    decreases m
  {
    hide Good, Goes, Queues, Table, Tags, Cursor, SelectRequest, Passed;
    if m == 0 {
      fs, u := es, t;
      assert Passed(t.log, t.log, 0) by { PassedNone(t.log); }
    } else {
      SweepChosen(t, lo, hi, n, true);
      var fs0, u0 := ServeFirst(s, es, t, lo, hi, n, true);
      PassedOne(t.log, u0.log);
      fs, u := ServeReads(s, fs0, u0, lo + 1, hi, n, m - 1);
      PassedTrans(t.log, u0.log, u.log, 1, m - 1);
    }
  }

  lemma PassedNone(l: seq<Entry>)
    ensures Passed(l, l, 0)
  {
    assert l[..|l|] == l;
  }

  lemma PassedOne(l: seq<Entry>, r: seq<Entry>)
    requires |r| == |l| + 1 && r[..|l|] == l
    requires Scheduled(r[|l|]) && r[|l|].dir.Read? && r[|l|].otherWaiting
    ensures Passed(l, r, 1)
  {
  }

  /** fifo_batch reads come in line and are served as one batch, while the write waits. */
  lemma Round(s: Sched, es: seq<Event>, t: Sched, n: nat) returns (fs: seq<Event>, u: Sched)
    requires Goes(s, es, t) && Line(t, 0, 0, n, true) && t.next == PerDir(None, None)
    requires t.cfg.maxSectors >= 1 && 0 < t.cfg.fifoBatch <= INT_MAX && t.starved < t.cfg.writesStarved
    ensures Goes(s, fs, u) && Line(u, 0, 0, n + t.cfg.fifoBatch, true) && u.next == PerDir(None, None)
    ensures u.cfg == t.cfg && u.starved == t.starved + 1 && Passed(t.log, u.log, t.cfg.fifoBatch)
  {
    var m := t.cfg.fifoBatch;
    hide Goes, Line, SelectRequest, Passed;
    var fs0, u0 := AddReads(s, es, t, m, n, true);
    RestartChosen(u0, 0, m, n + m, true);
    LineOrder(u0, 0, m, n + m, true);
    var fs1, u1 := ServeFirst(s, fs0, u0, 0, m, n + m, true);
    PassedOne(u0.log, u1.log);
    fs, u := ServeReads(s, fs1, u1, 1, m, n + m, m - 1);
    PassedTrans(t.log, u1.log, u.log, 1, m - 1);
    LineAnew(u, m, n + m, true);
  }

  /** The reads of so many whole batches. */
  function InBatches(cfg: Tunables, rounds: nat): nat {
    rounds * cfg.fifoBatch
  }

  lemma OneMoreBatch(cfg: Tunables, rounds: nat)
    ensures InBatches(cfg, 0) == 0 && InBatches(cfg, rounds + 1) == cfg.fifoBatch + InBatches(cfg, rounds)
  {
    MulStep(rounds, cfg.fifoBatch);
  }

  lemma {:induction false} Rounded(s: Sched, es: seq<Event>, t: Sched, n: nat, rounds: nat)
    returns (fs: seq<Event>, u: Sched)
    requires Goes(s, es, t) && Line(t, 0, 0, n, true) && t.next == PerDir(None, None)
    requires t.cfg.maxSectors >= 1 && 0 < t.cfg.fifoBatch <= INT_MAX && t.starved + rounds <= t.cfg.writesStarved
    ensures Goes(s, fs, u) && u.cfg == t.cfg && Passed(t.log, u.log, InBatches(t.cfg, rounds))
    decreases rounds
  {
    hide *;
    if rounds == 0 {
      fs, u := es, t;
      PassedNone(t.log);
      OneMoreBatch(t.cfg, 0);
    } else {
      var m := t.cfg.fifoBatch;
      var fs0, u0 := Round(s, es, t, n);
      fs, u := Rounded(s, fs0, u0, n + m, rounds - 1);
      PassedTrans(t.log, u0.log, u.log, m, InBatches(t.cfg, rounds - 1));
      OneMoreBatch(t.cfg, rounds - 1);
    }
  }

  lemma FreshLine(cfg: Tunables)
    ensures var f := Fresh(cfg, 0); Line(f, 0, 0, 0, false) && f.next == PerDir(None, None) && f.starved == 0
  {
    FreshGood(cfg, 0);
    hide Good;
  }

  /** A fresh scheduler has been given as many reads as a batch can hold, and has taken the first. */
  lemma Begins(cfg: Tunables) returns (es: seq<Event>, s: Sched)
    requires cfg.maxSectors >= 1 && 0 < cfg.fifoBatch <= INT_MAX
    ensures RunsTo(cfg, es, s) && Line(s, 1, cfg.fifoBatch, cfg.fifoBatch, false) && Cursor(s, 1, cfg.fifoBatch)
    ensures s.cfg == cfg && s.batching == 1 && s.starved == 0
  {
    var f, m := Fresh(cfg, 0), cfg.fifoBatch;
    FreshLine(cfg);
    FreshGood(cfg, 0);
    assert f.cfg == cfg;
    Stays(f);
    hide Line, SelectRequest, Fresh, Good;
    var es0, s0 := AddReads(f, [], f, m, 0, false);
    RestartChosen(s0, 0, m, m, false);
    LineOrder(s0, 0, m, m, false);
    es, s := ServeFirst(f, es0, s0, 0, m, m, false);
  }

  /** From there the write comes, and the rest of the batch goes before it. */
  lemma FirstBatch(s: Sched, m: nat) returns (es: seq<Event>, t: Sched)
    requires 0 < m && m == s.cfg.fifoBatch <= INT_MAX && s.cfg.maxSectors >= 1 && s.batching == 1
    requires Line(s, 1, m, m, false) && Cursor(s, 1, m)
    ensures Goes(s, es, t) && t.cfg == s.cfg && t.starved == s.starved && Passed(s.log, t.log, m - 1)
    ensures Line(t, 0, 0, m + 1, true) && t.next == PerDir(None, None)
  {
    hide *;
    LineOrder(s, 1, m, m, false);
    Stays(s);
    var fs, u := AddWrite(s, [], s, 1, m, m);
    SameCursor(s, u, 1, m);
    assert 1 + (m - 1) == m;
    es, t := ServeReads(s, fs, u, 1, m, m + 1, m - 1);
    CursorAtEnd(t, m);
    LineAnew(t, m, m + 1, true);
  }

  /** And all the later batches go before it too. */
  lemma PassesWrite(s: Sched, m: nat) returns (es: seq<Event>, t: Sched)
    requires 0 < m && m == s.cfg.fifoBatch <= INT_MAX && s.cfg.maxSectors >= 1 && s.batching == 1 && s.starved == 0
    requires Line(s, 1, m, m, false) && Cursor(s, 1, m)
    ensures Goes(s, es, t) && Passed(s.log, t.log, m - 1 + InBatches(s.cfg, s.cfg.writesStarved))
  {
    hide *;
    var fs, u := FirstBatch(s, m);
    es, t := Rounded(s, fs, u, m + 1, s.cfg.writesStarved);
    PassedTrans(s.log, u.log, t.log, m - 1, InBatches(s.cfg, s.cfg.writesStarved));
  }

  /**
   RoomyBound is met whatever fifo_batch and writes_starved are: after the first read of a
   batch a write comes, and in some run it is passed over by the rest of the batch and by
   writes_starved whole batches.
   */
  lemma CreditMet(cfg: Tunables)
    requires cfg.maxSectors >= 1 && 0 < cfg.fifoBatch <= INT_MAX
    ensures exists es0, s, es :: RunsTo(cfg, es0, s) && Good(s) && Legal(s, es)
              && Overtaking(Exec(s, es).log, |s.log|, Read)
              && Decisions(Exec(s, es).log, |s.log|) == Credit(s, Read, true)
              && Credit(s, Read, true) == cfg.writesStarved * cfg.fifoBatch + cfg.fifoBatch - 1
  {
    hide *;
    var es0, s := Begins(cfg);
    var m := cfg.fifoBatch;
    LineOrder(s, 1, m, m, false);
    CreditAtStart(s);
    var es, t := PassesWrite(s, m);
    GoesMeans(s, es, t);
    PassedCounts(s.log, t.log, m - 1 + InBatches(cfg, cfg.writesStarved));
  }

  lemma GoesMeans(s: Sched, es: seq<Event>, t: Sched)
    requires Goes(s, es, t)
    ensures Good(s) && Legal(s, es) && Exec(s, es) == t
  {
    hide Good, Legal, Exec;
  }

  lemma CreditAtStart(s: Sched)
    requires Good(s) && 0 < s.cfg.fifoBatch <= INT_MAX && s.batching == 1 && s.starved == 0
    ensures CountersOk(s) && Credit(s, Read, true) == s.cfg.writesStarved * s.cfg.fifoBatch + s.cfg.fifoBatch - 1
    ensures InBatches(s.cfg, s.cfg.writesStarved) == s.cfg.writesStarved * s.cfg.fifoBatch
  {
  }

  lemma SameCursor(s: Sched, t: Sched, lo: nat, hi: nat)
    requires Cursor(s, lo, hi) && SameCounters(s, t)
    ensures Cursor(t, lo, hi) && t.batching == s.batching && t.starved == s.starved && t.log == s.log
    ensures t.cfg == s.cfg
  {
  }

  lemma CursorAtEnd(s: Sched, hi: nat)
    requires Cursor(s, hi, hi)
    ensures s.next == PerDir(None, None)
  {
  }

  lemma PassedCounts(l: seq<Entry>, r: seq<Entry>, m: nat)
    requires Passed(l, r, m)
    ensures Overtaking(r, |l|, Read) && Decisions(r, |l|) == m
  {
    AllOverCounts(r, |l|, m, Read);
  }
}
