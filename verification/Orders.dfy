/** Expiry order and sweep order, read off the invariant over runs. */
module Orders {
  import opened Types
  import opened Scheduler
  import opened Frames
  import opened Conservation
  import opened Runs

  // ----------------------------------------------------------------------- expiry

  /** deadline_check_fifo */
  predicate HeadExpired(s: Sched, d: Dir)
    requires s.fifo.At(d) != [] && s.fifo.At(d)[0] in s.rqs
  {
    s.now > s.rqs[s.fifo.At(d)[0]].expires
  }

  /** Of direction d, and past its time. */
  predicate Overdue(s: Sched, d: Dir, id: Id) {
    Queued(s, id) && s.rqs[id].dir == d && s.now > s.rqs[id].expires
  }

  /** Looking at the head alone answers whether any request of the direction has expired. */
  lemma HeadDecides(s: Sched, d: Dir)
    requires Good(s) && s.fifo.At(d) != []
    ensures s.fifo.At(d)[0] in s.rqs
    ensures HeadExpired(s, d) <==> exists id :: Overdue(s, d, id)
  {
    hide PlacesOk, HashOk, ListsOk, SweepLog, ContentOk, Owned;
    var l := s.fifo.At(d);
    assert SideOk(s, d) && FifoOk(s, d);
    assert l[0] in l;
    if HeadExpired(s, d) {
      assert Overdue(s, d, l[0]);
    }
    forall id | Overdue(s, d, id) ensures HeadExpired(s, d) {
      var k :| 0 <= k < |l| && l[k] == id;
      assert l[0] in s.rqs && l[k] in s.rqs;
    }
  }

  /** Nobody waits longer than fifo_expire before counting as expired. */
  lemma ExpiryIsTimely(s: Sched, id: Id)
    requires Good(s) && Queued(s, id)
    ensures s.rqs[id].expires <= s.now + s.cfg.fifoExpire.At(s.rqs[id].dir)
  {
    hide PlacesOk, HashOk, ListsOk, SweepLog, ContentOk, Owned;
    assert FifoOk(s, s.rqs[id].dir);
  }

  // ------------------------------------------------------------------------ sweeps

  predicate WasMoved(e: Entry) {
    Scheduled(e) || e.how.Alias?
  }

  lemma {:induction false} LastMovedIs(log: seq<Entry>, i: nat)
    requires i < |log| && WasMoved(log[i]) && forall k :: i < k < |log| ==> !WasMoved(log[k])
    ensures LastMoved(log) == Some(log[i])
  {
    if i < |log| - 1 {
      LastMovedIs(log[..|log| - 1], i);
    }
  }

  lemma {:induction false} LastMovedNone(log: seq<Entry>)
    requires forall k :: 0 <= k < |log| ==> !WasMoved(log[k])
    ensures LastMoved(log) == None
  {
    if log != [] { LastMovedNone(log[..|log| - 1]); }
  }

  /**
   One-way elevator, over every run: a request taken through next_drq lies strictly above
   the request moved just before it, and has its direction.
   */
  lemma OneWay(s: Sched, es: seq<Event>, i: nat, j: nat)
    requires Good(s) && Legal(s, es)
    requires var log := Exec(s, es).log;
      i < j < |log| && WasMoved(log[i]) && log[j].how.Sweep? && forall k :: i < k < j ==> !WasMoved(log[k])
    ensures var log := Exec(s, es).log; log[i].dir == log[j].dir && log[i].key < log[j].key
  {
    hide Agree, FreshHash, ContentOk, Owned, LastMoved, Legal, FifoOk, NextAhead;
    ExecGood(s, es);
    var log := Exec(s, es).log;
    assert SweepLog(log);
    assert Continues(LastMoved(log[..j]), log[j]);
    LastMovedIs(log[..j], i);
  }

  /** The first request ever moved is not taken through next_drq. */
  lemma SweepNeedsStart(s: Sched, es: seq<Event>, j: nat)
    requires Good(s) && Legal(s, es)
    requires j < |Exec(s, es).log| && Exec(s, es).log[j].how.Sweep?
    ensures exists i :: 0 <= i < j && WasMoved(Exec(s, es).log[i])
  {
    hide Agree, FreshHash, ContentOk, Owned, LastMoved, Legal, FifoOk, NextAhead;
    ExecGood(s, es);
    var log := Exec(s, es).log;
    assert SweepLog(log);
    assert Continues(LastMoved(log[..j]), log[j]);
    if forall i :: 0 <= i < j ==> !WasMoved(log[i]) {
      LastMovedNone(log[..j]);
    }
  }

  lemma FindInRule(s: Sched, batching: nat, starved: nat, d: Dir)
    requires Good(s) && s.fifo.At(d) != []
    ensures var c := FindIn(s, batching, starved, d, {}).choice;
      && c.Some? && Queued(s, c.value.0) && s.rqs[c.value.0].dir == d
      && (c.value.1.Sweep? ==> s.next.At(d) == Some(c.value.0))
      && (c.value.1.Restart? && c.value.1.expired ==>
            c.value.0 == s.fifo.At(d)[0] && s.now > s.rqs[c.value.0].expires)
      && (c.value.1.Restart? && !c.value.1.expired ==>
            s.next.At(d).None?
            && forall j :: Queued(s, j) && s.rqs[j].dir == d ==>
                 s.now <= s.rqs[j].expires && s.rqs[c.value.0].sector <= s.rqs[j].sector)
  {
    hide SweepLog, ContentOk, Owned, HashOk, ListsOk, NextAhead, FifoOk;
    FindInQueued(s, batching, starved, d, {});
    FifoMeansTree(s, d, {});
    HeadDecides(s, d);
    var c := FindIn(s, batching, starved, d, {}).choice.value;
    assert SideOk(s, d);
    if c.1.Restart? && !c.1.expired {
      forall j | Queued(s, j) && s.rqs[j].dir == d
        ensures s.now <= s.rqs[j].expires && s.rqs[c.0].sector <= s.rqs[j].sector
      {
        assert !Overdue(s, d, j);
        assert PlacedOk(s, j) && PlacedOk(s, c.0);
      }
    }
  }

  /** A request ahead of the sweep that the next step would pass over came after the last move. */
  lemma LinkedAhead(s: Sched, id: Id)
    requires Good(s) && Queued(s, id) && MovedBelow(s.log, s.rqs[id].dir, s.rqs[id].sector)
    requires BeforeNext(s, s.rqs[id].dir, s.rqs[id].sector)
    ensures id in s.linked
  {
    hide SweepLog, LastMoved, MovedBelow, BeforeNext, ContentOk, Owned, HashOk, ListsOk, FifoOk;
    assert PlacedOk(s, id);
    assert NoneSkipped(s, s.rqs[id].dir);
  }

  /**
   Whoever waits in direction d above the last move, and below k if there is one, has been
   linked into the tree since that move.
   */
  ghost predicate OnlyLinkedAhead(s: Sched, d: Dir, k: Option<nat>) {
    forall j | Queued(s, j) && s.rqs[j].dir == d && MovedBelow(s.log, d, s.rqs[j].sector)
               && (k.Some? ==> s.rqs[j].sector < k.value) :: j in s.linked
  }

  /**
   The one-way elevator, in both halves.  A step through next_drq goes to a higher sector
   and passes over nobody but requests linked into the tree since the last move.  It is left
   only for an expired FIFO head, or at a direction change or the end of the list: then
   nothing has expired, the lowest sector is taken, and again whoever waits above the last
   move in its direction has been linked since.
   */
  lemma RestartRule(s: Sched)
    requires Good(s) && SelectRequest(s, {}).choice.Some?
    ensures var c := SelectRequest(s, {}).choice.value;
      Queued(s, c.0) && var d := s.rqs[c.0].dir;
      && (c.1.Sweep? ==>
            MovedBelow(s.log, d, s.rqs[c.0].sector) && OnlyLinkedAhead(s, d, Some(s.rqs[c.0].sector)))
      && (c.1.Restart? && c.1.expired ==> c.0 == s.fifo.At(d)[0] && s.now > s.rqs[c.0].expires)
      && (c.1.Restart? && !c.1.expired ==>
            OnlyLinkedAhead(s, d, None)
            && forall j :: Queued(s, j) && s.rqs[j].dir == d ==>
                 s.now <= s.rqs[j].expires && s.rqs[c.0].sector <= s.rqs[j].sector)
  {
    hide Ordered, FreshHash, ContentOk, Owned, SideOk, PlacesOk, HashOk, ListsOk, FindIn, LastMoved, MovedBelow;
    SelectedRule(s);
    var c := SelectRequest(s, {}).choice.value;
    var d := s.rqs[c.0].dir;
    if c.1.Sweep? { NextIsAhead(s, d); }
    forall j | Queued(s, j) && s.rqs[j].dir == d && MovedBelow(s.log, d, s.rqs[j].sector)
               && (s.next.At(d).None? || (c.1.Sweep? && s.rqs[j].sector < s.rqs[c.0].sector))
      ensures j in s.linked
    {
      LinkedAhead(s, j);
    }
  }

  lemma NextIsAhead(s: Sched, d: Dir)
    requires Good(s) && s.next.At(d).Some?
    ensures var n := s.next.At(d).value;
      n in s.rqs && s.rqs[n].rbKey == s.rqs[n].sector && MovedBelow(s.log, d, s.rqs[n].sector)
  {
    hide FreshHash, ContentOk, Owned, HashOk, ListsOk, LastMoved, FifoOk, SweepLog, NoneSkipped;
    assert NextAhead(s, d) && SideOk(s, d);
    assert PlacedOk(s, s.next.At(d).value);
  }

  lemma SelectedRule(s: Sched)
    requires Good(s) && SelectRequest(s, {}).choice.Some?
    ensures var c := SelectRequest(s, {}).choice.value;
      Queued(s, c.0) && var d := s.rqs[c.0].dir;
      && (c.1.Sweep? ==> s.next.At(d) == Some(c.0))
      && (c.1.Restart? && c.1.expired ==> c.0 == s.fifo.At(d)[0] && s.now > s.rqs[c.0].expires)
      && (c.1.Restart? && !c.1.expired ==>
            s.next.At(d).None?
            && forall j :: Queued(s, j) && s.rqs[j].dir == d ==>
                 s.now <= s.rqs[j].expires && s.rqs[c.0].sector <= s.rqs[j].sector)
  {
    hide Ordered, FreshHash, ContentOk, Owned, SideOk, PlacesOk, HashOk, ListsOk, FindIn;
    SelectedQueued(s, {});
    SelectedSweep(s, {});
    if NextRq(s).Some? { NextKnown(s, {}); }
    var b := BatchAfterCheck(s);
    if s.fifo.rd != [] {
      FindInRule(s, b, if s.fifo.wr != [] then s.starved + 1 else s.starved, Read);
    }
    if s.fifo.wr != [] {
      FindInRule(s, b, 0, Write);
    }
  }

  // ------------------------------------------------------------------ a free decision

  /** No batch goes on: there is no next request, or the batch is used up. */
  ghost predicate Free(s: Sched)
    requires Good(s)
  {
    NextRq(s).Some? ==> NextRq(s).value in s.rqs && BatchAfterCheck(s) >= s.cfg.fifoBatch
  }

  /** Reads go first, unless a write waits that has been passed over writes_starved times. */
  predicate ReadsTurn(s: Sched) {
    s.fifo.rd != [] && (s.fifo.wr == [] || s.starved < s.cfg.writesStarved)
  }

  lemma EarliestFirst(s: Sched, d: Dir)
    requires Good(s) && s.fifo.At(d) != []
    ensures s.fifo.At(d)[0] in s.rqs
    ensures forall j :: Queued(s, j) && s.rqs[j].dir == d ==> s.rqs[s.fifo.At(d)[0]].expires <= s.rqs[j].expires
  {
    hide PlacesOk, HashOk, ListsOk, SweepLog, ContentOk, Owned;
    var l := s.fifo.At(d);
    assert SideOk(s, d) && FifoOk(s, d);
    assert l[0] in l;
    forall j | Queued(s, j) && s.rqs[j].dir == d ensures s.rqs[l[0]].expires <= s.rqs[j].expires {
      var k :| 0 <= k < |l| && l[k] == j;
    }
  }

  lemma FindInExact(s: Sched, batching: nat, starved: nat, d: Dir)
    requires Good(s) && s.fifo.At(d) != []
    ensures var p := FindIn(s, batching, starved, d, {}); var c := p.choice;
      && c.Some? && Queued(s, c.value.0) && s.rqs[c.value.0].dir == d && p.starved == starved
      && (c.value.1 == Restart(true) <==> exists j :: Overdue(s, d, j))
      && (c.value.1 == Restart(true) ==>
            forall j :: Queued(s, j) && s.rqs[j].dir == d ==> s.rqs[c.value.0].expires <= s.rqs[j].expires)
      && (c.value.1 == Sweep <==> s.next.At(d).Some? && forall j :: !Overdue(s, d, j))
      && (c.value.1.Sweep? || c.value.1.Restart?)
  {
    hide SweepLog, ContentOk, Owned, HashOk, ListsOk, NextAhead, FifoOk, SideOk, PlacesOk, FreshHash, Ordered;
    FindInQueued(s, batching, starved, d, {});
    FifoMeansTree(s, d, {});
    HeadDecides(s, d);
    EarliestFirst(s, d);
  }

  /**
   Outside a batch, in both directions: reads have their turn unless a write has waited
   long enough; in the direction chosen the one that expires first goes exactly when any has
   expired, and the sweep goes on exactly when none has and there is a next request.  What
   is left is the lowest sector, by RestartRule.
   */
  lemma FreeChoice(s: Sched)
    requires Good(s) && Free(s) && (s.fifo.rd != [] || s.fifo.wr != [])
    ensures var p := SelectRequest(s, {});
      && p.choice.Some? && Queued(s, p.choice.value.0)
      && var c := p.choice.value; var d := s.rqs[c.0].dir;
      && (d.Read? <==> ReadsTurn(s))
      && p.starved == (if d.Write? then 0 else if s.fifo.wr != [] then s.starved + 1 else s.starved)
      && (c.1 == Restart(true) <==> exists j :: Overdue(s, d, j))
      && (c.1 == Restart(true) ==>
            forall j :: Queued(s, j) && s.rqs[j].dir == d ==> s.rqs[c.0].expires <= s.rqs[j].expires)
      && (c.1 == Sweep <==> s.next.At(d).Some? && forall j :: !Overdue(s, d, j))
  {
    hide Ordered, FreshHash, ContentOk, Owned, SideOk, PlacesOk, HashOk, ListsOk, FindIn, Overdue, Queued;
    if NextRq(s).Some? { NextKnown(s, {}); }
    var b := BatchAfterCheck(s);
    if ReadsTurn(s) {
      FindInExact(s, b, if s.fifo.wr != [] then s.starved + 1 else s.starved, Read);
    } else {
      FindInExact(s, b, 0, Write);
    }
  }

  /**
   The exception is real: with both cursors empty, a read waiting above the last move is
   passed over for one below it, although the sweep was in its direction and not at the
   last request.
   */
  lemma PassesOver(s: Sched, above: Id, below: Id)
    requires Good(s) && s.next == PerDir(None, None) && s.fifo.wr == []
    requires Queued(s, above) && s.rqs[above].dir.Read? && MovedBelow(s.log, Read, s.rqs[above].sector)
    requires Queued(s, below) && s.rqs[below].dir.Read? && s.rqs[below].sector < LastMoved(s.log).value.key
    requires !HeadExpired(s, Read)
    ensures SelectRequest(s, {}).choice.Some?
    ensures var c := SelectRequest(s, {}).choice.value;
      c.1 == Restart(false) && c.0 in s.rqs && s.rqs[c.0].sector < LastMoved(s.log).value.key
  {
    hide Ordered, FreshHash, ContentOk, Owned, PlacesOk, HashOk, ListsOk, LastMoved;
    SelectedQueued(s, {});
    SelectedRule(s);
  }
}
