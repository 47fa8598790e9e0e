/**
 Ending part of a request: __end_that_request_first walks its bios and their vectors, over
 any number of calls, up to the call that runs into its BIO_BUG_ON.
 */
module PartialCompletion {
  import opened Segments

  /** A bio: its vectors, bi_idx, the first that is not done, and bi_size, the bytes to go. */
  datatype Bio = Bio(id: nat, vecs: seq<Vec>, idx: nat, size: nat)

  function Pending(b: Bio): seq<Vec>
    requires b.idx <= |b.vecs|
  {
    b.vecs[b.idx..]
  }

  predicate NonEmpty(vs: seq<Vec>) {
    forall i :: 0 <= i < |vs| ==> vs[i].len > 0
  }

  /** The pending vectors hold the bytes to go, if not more. */
  predicate BioOk(b: Bio) {
    b.idx <= |b.vecs| && NonEmpty(Pending(b)) && Size(Pending(b)) >= b.size > 0
  }

  /** The pending vectors hold exactly the bytes to go, as they do in a bio that is submitted. */
  predicate Exact(b: Bio) {
    BioOk(b) && Size(Pending(b)) == b.size
  }

  predicate ChainOk(c: seq<Bio>) {
    forall i :: 0 <= i < |c| ==> BioOk(c[i])
  }

  function Residual(c: seq<Bio>): nat {
    if c == [] then 0 else c[0].size + Residual(c[1..])
  }

  /** Where n bytes end in a list of vectors: after k whole ones, and `rest` bytes into the next. */
  datatype Place = At(k: nat, rest: nat)

  function StopAt(vs: seq<Vec>, n: nat): (s: Place)
    requires NonEmpty(vs) && n < Size(vs)
    ensures s.k < |vs| && s.rest < vs[s.k].len && Size(vs[..s.k]) + s.rest == n
  {
    if n < vs[0].len then At(0, n)
    else
      assert NonEmpty(vs[1..]);
      var s := StopAt(vs[1..], n - vs[0].len);
      assert vs[..s.k + 1] == [vs[0]] + vs[1..][..s.k];
      At(s.k + 1, s.rest)
  }

  lemma SizeUpTo(vs: seq<Vec>, k: nat)
    requires k < |vs|
    ensures Size(vs[..k + 1]) == Size(vs[..k]) + vs[k].len && Size(vs[..k + 1]) <= Size(vs)
  {
    assert vs[..k + 1] == vs[..k] + [vs[k]];
    assert [vs[k]][1..] == [];
    SizeConcat(vs[..k], [vs[k]]);
    assert vs == vs[..k + 1] + vs[k + 1..];
    SizeConcat(vs[..k + 1], vs[k + 1..]);
  }

  lemma {:induction false} StopUnique(vs: seq<Vec>, k: nat, rest: nat)
    requires NonEmpty(vs) && k < |vs| && rest < vs[k].len
    ensures Size(vs[..k]) + rest < Size(vs) && StopAt(vs, Size(vs[..k]) + rest) == At(k, rest)
  {
    SizeUpTo(vs, k);
    if k > 0 {
      assert NonEmpty(vs[1..]) && vs[..k][1..] == vs[1..][..k - 1] && vs[..k][0] == vs[0];
      StopUnique(vs[1..], k - 1, rest);
    }
  }

  /** Subtraction of unsigned 32-bit numbers. */
  function Minus(a: nat, b: nat): nat {
    if a >= b then a - b else (a - b) % 0x1_0000_0000
  }

  /** n bytes off the vector at bi_idx */
  function Edited(b: Bio, n: nat): seq<Vec>
    requires b.idx < |b.vecs|
  {
    var v := b.vecs[b.idx];
    b.vecs[b.idx := v.(offset := v.offset + n, len := Minus(v.len, n))]
  }

  /** What stopping n bytes into a bio makes of it: the vector at bi_idx is the one edited. */
  function Cut(b: Bio, n: nat): Bio
    requires BioOk(b) && n < b.size
  {
    var s := StopAt(Pending(b), n);
    b.(vecs := Edited(b, s.rest), idx := b.idx + s.k, size := b.size - n)
  }

  /** The bios that are left of a request, after n bytes. */
  function Left(c: seq<Bio>, n: nat): seq<Bio>
    requires ChainOk(c)
  {
    if c == [] then []
    else if n >= c[0].size then Left(c[1..], n - c[0].size)
    else [Cut(c[0], n)] + c[1..]
  }

  /** The calls of bio_endio: which bio, and how many bytes. */
  function Ended(c: seq<Bio>, n: nat): seq<(nat, nat)> {
    if c == [] then []
    else if n >= c[0].size then [(c[0].id, c[0].size)] + Ended(c[1..], n - c[0].size)
    else if n > 0 then [(c[0].id, n)]
    else []
  }

  /**
   The call runs into the BUG_ON: it stops inside a vector, or ends nothing at all, and the
   vector it looks at is longer than the bytes to go of its bio.
   */
  predicate Fires(c: seq<Bio>, n: nat)
    requires ChainOk(c)
  {
    c != [] &&
    if n >= c[0].size then n > c[0].size && Fires(c[1..], n - c[0].size)
    else
      FiresHere(c[0], n)
  }

  /** A stop n bytes into the bio looks at a vector that is too long. */
  predicate FiresHere(b: Bio, n: nat)
    requires BioOk(b) && n < b.size
  {
    var s := StopAt(Pending(b), n);
    (s.rest > 0 || n == 0) && Pending(b)[s.k].len > b.size
  }

  /** How many bios are ended whole. */
  function Whole(c: seq<Bio>, n: nat): (k: nat)
    ensures k <= |c|
  {
    if c == [] || n < c[0].size then 0 else 1 + Whole(c[1..], n - c[0].size)
  }

  /**
   Where the loop stands after the rounds so far of a call for `count` bytes on the bios
   `all`: at the bios c, those in front of them ended whole, with n bytes to go.
   */
  ghost predicate Reached(all: seq<Bio>, was: seq<(nat, nat)>, count: nat, c: seq<Bio>, log: seq<(nat, nat)>, n: nat)
    requires ChainOk(all)
  {
    && ChainOk(c) && |c| <= |all| && c == all[|all| - |c|..] && |log| == |was| + |all| - |c|
    && Left(c, n) == Left(all, count) && log + Ended(c, n) == was + Ended(all, count)
    && Fires(c, n) == Fires(all, count)
  }

  lemma {:induction false} ReachedMeans(all: seq<Bio>, was: seq<(nat, nat)>, count: nat, c: seq<Bio>,
                                        log: seq<(nat, nat)>, n: nat)
    requires ChainOk(all) && Reached(all, was, count, c, log, n)
    ensures ChainOk(c) && Left(c, n) == Left(all, count) && log + Ended(c, n) == was + Ended(all, count)
    ensures Fires(c, n) == Fires(all, count)
  {
  }

  /** A round that goes on keeps to that. */
  lemma {:induction false} Advance(all: seq<Bio>, was: seq<(nat, nat)>, count: nat, c: seq<Bio>, log: seq<(nat, nat)>,
                                   n: nat, c': seq<Bio>, log': seq<(nat, nat)>, n': nat)
    requires ChainOk(all) && Reached(all, was, count, c, log, n) && c != [] && ChainOk(c) && ChainOk(c')
    requires (c' == c[1..] && |log'| == |log| + 1) || (c' == c && log' == log)
    requires Left(c', n') == Left(c, n) && log' + Ended(c', n') == log + Ended(c, n) && Fires(c', n') == Fires(c, n)
    ensures Reached(all, was, count, c', log', n')
  {
    hide Left, Ended, Fires, ChainOk;
  }

  /** How many vectors of the first bio are still to be looked at. */
  function VecsAfter(c: seq<Bio>, k: nat): nat {
    if c == [] || k > |c[0].vecs| then 0 else |c[0].vecs| - k
  }

  /** One round of the loop goes on, leaves it, or does not return. */
  datatype Next = Go | Stop | Crash

  /** What a call comes to: the request is done, there is more to do, or the BUG_ON has fired. */
  datatype Outcome = Finished | Unfinished | Bug

  class Request {
    var bio: seq<Bio>
    var hardSector: nat
    var hardNrSectors: int
    var sector: nat
    var nrSectors: int
    var currentNrSectors: nat
    /** What bio_endio has been told. */
    ghost var log: seq<(nat, nat)>

    /**
     Where the loop stands: the first bio of the request has been walked through nextIdx of
     its vectors, bioNbytes in all, with nr bytes to go.
     */
    ghost predicate Within(nr: nat, bioNbytes: nat, nextIdx: nat)
      reads this
    {
      ChainOk(bio) && (bio != [] ==> InBio(bio[0], nextIdx, bioNbytes))
      && if nextIdx == 0 then bioNbytes == 0 else bio != [] && bioNbytes > 0 && 0 < nr < bio[0].size - bioNbytes
    }

    /** The loop stops in the first bio, which has yet to be told of its bytes. */
    ghost predicate Stopped(left: seq<Bio>, told: seq<(nat, nat)>, bioNbytes: nat, nextIdx: nat)
      reads this
    {
      && bio != [] && bioNbytes <= bio[0].size && (bioNbytes == 0 ==> nextIdx == 0)
      && left == [bio[0].(size := bio[0].size - bioNbytes, idx := bio[0].idx + nextIdx)] + bio[1..]
      && told == log + if bioNbytes > 0 then [(bio[0].id, bioNbytes)] else []
    }

    /** One round of the loop of __end_that_request_first. */
    method Turn(nr: nat, bioNbytes: nat, nextIdx: nat)
      returns (next: Next, done: nat, nr': nat, bioNbytes': nat, nextIdx': nat)
      requires bio != [] && Within(nr, bioNbytes, nextIdx)
      modifies `bio, `log
      ensures next.Go? ==> done + nr' == nr && ChainOk(bio)
      ensures next.Go? ==> Within(nr', bioNbytes', nextIdx')
                           && Left(bio, bioNbytes' + nr') == old(Left(bio, bioNbytes + nr))
                           && log + Ended(bio, bioNbytes' + nr') == old(log + Ended(bio, bioNbytes + nr))
                           && Fires(bio, bioNbytes' + nr') == old(Fires(bio, bioNbytes + nr))
      ensures next.Go? ==> (bio == old(bio)[1..] && |log| == old(|log|) + 1)
                           || (bio == old(bio) && log == old(log) && nextIdx < nextIdx'
                               && bio[0].idx + nextIdx' <= |bio[0].vecs|)
      ensures next.Stop? ==> done == nr && !old(Fires(bio, bioNbytes + nr))
                             && Stopped(old(Left(bio, bioNbytes + nr)), old(log + Ended(bio, bioNbytes + nr)),
                                        bioNbytes', nextIdx')
      ensures next.Crash? ==> bio == old(bio) && ChainOk(bio) && log == old(log) && old(Fires(bio, bioNbytes + nr))
                              && nr' == nr && bioNbytes' == bioNbytes && bioNbytes + nr < bio[0].size
    {
      hide Left, Ended, StopAt, Edited, Minus, Size, InBio, BioOk, Fires;
      var b := bio[0];
      var nbytes: nat;
      if nr >= b.size {
        WholeBio(bio, nr, log);
        bio := bio[1..];
        nbytes := b.size;
        log := log + [(b.id, nbytes)];
        nextIdx', bioNbytes' := 0, 0;
      } else {
        var idx := b.idx + nextIdx;
        VectorInBio(b, nextIdx, bioNbytes, nr);
        nbytes := b.vecs[idx].len;
        if nbytes > b.size {
          FiresIn(bio, nextIdx, bioNbytes, nr);
          return Crash, 0, nr, bioNbytes, nextIdx;
        }
        if nbytes > nr {
          StopIn(bio, nextIdx, bioNbytes, nr);
          FiresIn(bio, nextIdx, bioNbytes, nr);
          bio := [b.(vecs := Edited(b, nr))] + bio[1..];
          return Stop, nr, nr, bioNbytes + nr, nextIdx;
        }
        nextIdx' := nextIdx + 1;
        bioNbytes' := bioNbytes + nbytes;
      }
      done, nr' := nbytes, nr - nbytes;
      next := Go;
      if bio != [] && nr' <= 0 {
        VectorInBio(bio[0], nextIdx', bioNbytes', 0);
        StopIn(bio, nextIdx', bioNbytes', 0);
        if nextIdx' > 0 { FiresIn(bio, nextIdx', bioNbytes', 0); }
        next := Stop;
      }
    }

    /** The same, seen from the start of the call. */
    method Round(nr: nat, bioNbytes: nat, nextIdx: nat, ghost all: seq<Bio>, ghost was: seq<(nat, nat)>,
        ghost count: nat)
      returns (next: Next, done: nat, nr': nat, bioNbytes': nat, nextIdx': nat)
      requires bio != [] && Within(nr, bioNbytes, nextIdx)
      requires ChainOk(all) && Reached(all, was, count, bio, log, bioNbytes + nr)
      modifies `bio, `log
      ensures !next.Stop? ==> Reached(all, was, count, bio, log, bioNbytes' + nr')
      ensures next.Go? ==> done + nr' == nr && Within(nr', bioNbytes', nextIdx')
      ensures next.Go? ==> |bio| < old(|bio|)
                           || (|bio| == old(|bio|) && VecsAfter(bio, nextIdx') < VecsAfter(old(bio), nextIdx))
      ensures next.Stop? ==> done == nr && !Fires(all, count)
                             && Stopped(Left(all, count), was + Ended(all, count), bioNbytes', nextIdx')
      ensures next.Crash? ==> Fires(all, count) && bio != [] && bioNbytes' + nr' < bio[0].size
    {
      hide Left, Ended, ChainOk, InBio, Fires, Stopped, Within, BioOk, Reached;
      ghost var c, told, n := bio, log, bioNbytes + nr;
      ReachedMeans(all, was, count, c, told, n);
      next, done, nr', bioNbytes', nextIdx' := Turn(nr, bioNbytes, nextIdx);
      if next.Go? { Advance(all, was, count, c, told, n, bio, log, bioNbytes' + nr'); }
    }

    /** blk_recalc_rq_sectors, with its repair of a botched count. */
    method RecalcSectors(nsect: nat)
      requires bio != [] && bio[0].idx < |bio[0].vecs|
      modifies `hardSector, `hardNrSectors, `sector, `nrSectors, `currentNrSectors
      ensures hardSector == old(hardSector) + nsect && hardNrSectors == old(hardNrSectors) - nsect
          && sector == hardSector
      ensures currentNrSectors == bio[0].vecs[bio[0].idx].len / 512
      ensures nrSectors == if hardNrSectors < currentNrSectors then currentNrSectors else hardNrSectors
    {
      hardSector := hardSector + nsect;
      hardNrSectors := hardNrSectors - nsect;
      nrSectors := hardNrSectors;
      sector := hardSector;
      currentNrSectors := bio[0].vecs[bio[0].idx].len / 512;
      if nrSectors < currentNrSectors {
        nrSectors := currentNrSectors;
      }
    }

    lemma Begin(count: nat)
      requires ChainOk(bio)
      ensures Within(count, 0, 0) && Reached(bio, log, count, bio, log, count)
    {
      assert bio != [] ==> InBio(bio[0], 0, 0);
    }

    /** The loop of __end_that_request_first. */
    method Walk(count: nat) returns (next: Next, totalBytes: nat, bioNbytes: nat, nextIdx: nat, ghost nr: nat)
      requires ChainOk(bio)
      modifies `bio, `log
      ensures !next.Stop? ==> Reached(old(bio), old(log), count, bio, log, bioNbytes + nr)
      ensures next.Go? ==> bio == []
      ensures next.Crash? ==> Fires(old(bio), count) && bio != [] && bioNbytes + nr < bio[0].size
      ensures next.Stop? ==> totalBytes == count && !Fires(old(bio), count)
                             && Stopped(Left(old(bio), count), old(log) + Ended(old(bio), count), bioNbytes, nextIdx)
    {
      var left: nat;
      next, left, totalBytes, bioNbytes, nextIdx := Go, count, 0, 0, 0;
      ghost var all, was := bio, log;
      hide Left, Ended, ChainOk, InBio, Fires, Stopped, Within, BioOk, Reached, VecsAfter;
      Begin(count);
      while bio != [] && next.Go?
        invariant next.Go? ==> Within(left, bioNbytes, nextIdx) && totalBytes + left == count
        invariant !next.Stop? ==> Reached(all, was, count, bio, log, bioNbytes + left)
        invariant next.Stop? ==> totalBytes == count && !Fires(all, count)
                                 && Stopped(Left(all, count), was + Ended(all, count), bioNbytes, nextIdx)
        invariant next.Crash? ==> Fires(all, count) && bio != [] && bioNbytes + left < bio[0].size
        decreases if next.Go? then 1 else 0, |bio|, VecsAfter(bio, nextIdx)
      {
        var done;
        next, done, left, bioNbytes, nextIdx := Round(left, bioNbytes, nextIdx, all, was, count);
        totalBytes := totalBytes + done;
      }
      nr := left;
    }

    /** __end_that_request_first, for a filesystem request. */
    method EndFirst(count: nat) returns (out: Outcome)
      requires ChainOk(bio)
      modifies this
      ensures out.Bug? <==> Fires(old(bio), count)
      ensures out.Bug? ==> var k := Whole(old(bio), count);
                bio == old(bio)[k..] && k <= |Ended(old(bio), count)| && log == old(log) + Ended(old(bio), count)[..k]
      ensures !out.Bug? ==> bio == Left(old(bio), count) && log == old(log) + Ended(old(bio), count)
                            && (out.Unfinished? <==> bio != [])
      ensures out.Unfinished? ==>
                hardSector == old(hardSector) + count / 512 && hardNrSectors == old(hardNrSectors) - count / 512
                && sector == hardSector && currentNrSectors == FirstLen(bio) / 512
                && nrSectors == if hardNrSectors < currentNrSectors then currentNrSectors else hardNrSectors
      ensures out.Unfinished? && count % 512 == 0 && old(hardNrSectors) * 512 == Residual(old(bio)) ==>
                hardNrSectors * 512 == Residual(bio)
    {
      hide Left, Ended, ChainOk, Fires, Whole;
      var next, totalBytes, bioNbytes, nextIdx, nr := Walk(count);
      match next {
        case Crash =>
          CrashAt(old(bio), count, bio, bioNbytes + nr, old(log), log);
          return Bug;
        case Go =>
          Nothing(bioNbytes + nr);
          return Finished;
        case Stop =>
      }
      if bioNbytes > 0 {
        log := log + [(bio[0].id, bioNbytes)];
        bio := [bio[0].(size := bio[0].size - bioNbytes, idx := bio[0].idx + nextIdx)] + bio[1..];
      }
      LeftHead(old(bio), count);
      BytesConserved(old(bio), count);
      RecalcSectors(totalBytes / 512);
      out := Unfinished;
    }
  }

  /** bio_iovec: the length of the first pending vector */
  function FirstLen(c: seq<Bio>): nat {
    if c != [] && c[0].idx < |c[0].vecs| then c[0].vecs[c[0].idx].len else 0
  }

  lemma {:induction false} LeftHead(c: seq<Bio>, n: nat)
    requires ChainOk(c) && Left(c, n) != []
    ensures Left(c, n)[0].idx < |Left(c, n)[0].vecs|
  {
    if n >= c[0].size {
      LeftHead(c[1..], n - c[0].size);
    }
  }

  lemma Nothing(n: nat)
    ensures Left([], n) == [] && Ended([], n) == [] && !Fires([], n)
  {
  }

  lemma WholeBio(c: seq<Bio>, n: nat, log: seq<(nat, nat)>)
    requires ChainOk(c) && c != [] && n >= c[0].size
    ensures Left(c, n) == Left(c[1..], n - c[0].size)
    ensures log + Ended(c, n) == (log + [(c[0].id, c[0].size)]) + Ended(c[1..], n - c[0].size)
    ensures c[1..] != [] ==> InBio(c[1], 0, 0) && c[1].size > 0
    ensures Fires(c, n) <==> n > c[0].size && Fires(c[1..], n - c[0].size)
    ensures c[1..] == [] ==> !Fires(c[1..], n - c[0].size)
  {
  }

  /** The next vector of a bio that is not ended whole. */
  lemma VectorInBio(b: Bio, k: nat, n: nat, more: nat)
    requires InBio(b, k, n) && n + more < b.size
    ensures b.idx + k < |b.vecs| && b.idx < |b.vecs| && 0 < b.vecs[b.idx + k].len
    ensures b.vecs[b.idx + k] == Pending(b)[k]
    ensures b.vecs[b.idx + k].len <= more ==> InBio(b, k + 1, n + b.vecs[b.idx + k].len)
  {
    var vs := Pending(b);
    SizeUpTo(vs, k);
    assert vs[..|vs|] == vs;
  }

  lemma CutIs(b: Bio, k: nat, n: nat, rest: nat)
    requires InBio(b, k, n) && (rest == 0 || rest < Pending(b)[k].len) && n + rest < b.size
    ensures b.idx < |b.vecs|
    ensures Cut(b, n + rest) == b.(vecs := Edited(b, rest), idx := b.idx + k, size := b.size - (n + rest))
    ensures rest == 0 ==> Edited(b, rest) == b.vecs
  {
    assert Pending(b)[k].len > 0;
    StopUnique(Pending(b), k, rest);
    hide StopAt, Size, NonEmpty;
    assert rest == 0 ==> Edited(b, rest) == b.vecs;
  }

  /** Stopping in a bio: `rest` bytes into the k-th of its pending vectors, n bytes in. */
  lemma {:induction false} StopIn(c: seq<Bio>, k: nat, n: nat, rest: nat)
    requires ChainOk(c) && c != [] && InBio(c[0], k, n) && (rest == 0 || rest < Pending(c[0])[k].len)
    requires n + rest < c[0].size
    ensures c[0].idx < |c[0].vecs|
    ensures Left(c, n + rest) == [c[0].(vecs := Edited(c[0], rest), idx := c[0].idx + k,
        size := c[0].size - (n + rest))] + c[1..]
    ensures Ended(c, n + rest) == if n + rest > 0 then [(c[0].id, n + rest)] else []
    ensures rest == 0 ==> Edited(c[0], rest) == c[0].vecs
  {
    CutIs(c[0], k, n, rest);
    hide Cut, Edited, InBio;
  }

  /** A call that stops there fires exactly when the vector is too long for the bio and is looked at. */
  lemma {:induction false} FiresIn(c: seq<Bio>, k: nat, n: nat, rest: nat)
    requires ChainOk(c) && c != [] && InBio(c[0], k, n) && rest < Pending(c[0])[k].len && n + rest < c[0].size
    requires k == 0 ==> n == 0
    requires k > 0 ==> n > 0
    ensures Fires(c, n + rest) <==> (rest > 0 || k == 0) && Pending(c[0])[k].len > c[0].size
  {
    StopUnique(Pending(c[0]), k, rest);
    hide StopAt, Size, NonEmpty;
  }

  /** What a crash leaves: the bios ended whole are gone and told of, nothing else has changed. */
  lemma {:induction false} CrashAt(all: seq<Bio>, count: nat, rest: seq<Bio>, n: nat, was: seq<(nat, nat)>,
      log: seq<(nat, nat)>)
    requires ChainOk(all) && ChainOk(rest) && rest != [] && n < rest[0].size && |rest| <= |all|
    requires rest == all[|all| - |rest|..] && Left(all, count) == Left(rest, n)
    requires was + Ended(all, count) == log + Ended(rest, n) && |log| == |was| + |all| - |rest|
    ensures var k := Whole(all, count);
      rest == all[k..] && k <= |Ended(all, count)| && log == was + Ended(all, count)[..k]
  {
    FrontToBack(all, count);
    FrontToBack(rest, n);
    assert Whole(rest, n) == 0;
    var k := Whole(all, count);
    assert k == |all| - |rest|;
    var e := Ended(all, count);
    assert (was + e)[..|log|] == was + e[..k];
    assert (log + Ended(rest, n))[..|log|] == log;
  }

  /** The walk through the vectors of b has passed k of them, n bytes in all. */
  ghost predicate InBio(b: Bio, k: nat, n: nat) {
    BioOk(b) && k < |Pending(b)| && n == Size(Pending(b)[..k])
  }

  function Total(l: seq<(nat, nat)>): nat {
    if l == [] then 0 else l[0].1 + Total(l[1..])
  }

  function Min(a: nat, b: nat): nat {
    if a < b then a else b
  }

  /** Bytes are conserved: as many are ended as asked for, or all there are, and the rest is left. */
  lemma {:induction false} BytesConserved(c: seq<Bio>, n: nat)
    requires ChainOk(c)
    ensures Total(Ended(c, n)) == Min(n, Residual(c))
    ensures Residual(Left(c, n)) == Residual(c) - Min(n, Residual(c))
    ensures Left(c, n) == [] <==> n >= Residual(c)
  {
    if c == [] {
    } else if n >= c[0].size {
      BytesConserved(c[1..], n - c[0].size);
    } else {
      assert ([Cut(c[0], n)] + c[1..])[1..] == c[1..];
      assert [(c[0].id, n)][1..] == [];
    }
  }

  /** Front to back: the first k bios are ended whole, at most the next one in part, and the others are as they were. */
  lemma {:induction false} FrontToBack(c: seq<Bio>, n: nat)
    requires ChainOk(c)
    ensures var k, e, l := Whole(c, n), Ended(c, n), Left(c, n);
      && k <= |e| <= k + 1 && (forall i :: 0 <= i < k ==> e[i] == (c[i].id, c[i].size))
      && (|e| == k + 1 ==> k < |c| && e[k].0 == c[k].id && 0 < e[k].1 < c[k].size)
      && |l| == |c| - k && forall i :: 1 <= i < |l| ==> l[i] == c[k + i]
  {
    hide Cut, BioOk;
    if c != [] && n >= c[0].size {
      FrontToBack(c[1..], n - c[0].size);
    }
  }

  /** The bytes that vectors stand for, as page and offset. */
  function Content(vs: seq<Vec>): (r: seq<(nat, nat)>)
    ensures |r| == Size(vs)
  {
    if vs == [] then [] else VecContent(vs[0]) + Content(vs[1..])
  }

  function VecContent(v: Vec): seq<(nat, nat)> {
    seq(v.len, i requires 0 <= i < v.len => (v.page, v.offset + i))
  }

  /** n bytes end at the end of a vector, or inside the first. */
  ghost predicate Clean(vs: seq<Vec>, n: nat) {
    vs != [] && (n < vs[0].len || exists k :: 0 <= k <= |vs| && Size(vs[..k]) == n)
  }

  lemma {:induction false} ContentDrop(vs: seq<Vec>, k: nat)
    requires k <= |vs|
    ensures Size(vs[..k]) <= Size(vs) && Content(vs)[Size(vs[..k])..] == Content(vs[k..])
  {
    if k > 0 {
      ContentDrop(vs[1..], k - 1);
      assert vs[..k][0] == vs[0] && vs[..k][1..] == vs[1..][..k - 1] && vs[1..][k - 1..] == vs[k..];
      assert Content(vs)[vs[0].len..] == Content(vs[1..]);
    }
  }

  /** Where a clean stop is. */
  lemma CleanStop(vs: seq<Vec>, n: nat)
    requires NonEmpty(vs) && n < Size(vs)
    ensures Clean(vs, n) <==> StopAt(vs, n).k == 0 || StopAt(vs, n).rest == 0
  {
    var s := StopAt(vs, n);
    if Clean(vs, n) && n >= vs[0].len {
      var k :| 0 <= k <= |vs| && Size(vs[..k]) == n;
      assert vs[..|vs|] == vs;
      StopUnique(vs, k, 0);
    }
    if s.rest == 0 {
      assert Size(vs[..s.k]) == n;
    }
  }

  /**
   Exactly for a clean stop, the vectors that remain of a bio stand for the bytes that remain
   of it; otherwise the vector edited is one that was done already.
   */
  lemma CutContent(b: Bio, n: nat)
    requires BioOk(b) && n < b.size
    ensures Content(Pending(Cut(b, n))) == Content(Pending(b))[n..] <==> Clean(Pending(b), n)
  {
    var vs, s := Pending(b), StopAt(Pending(b), n);
    CleanStop(vs, n);
    ContentDrop(vs, s.k);
    CutPending(b, n);
    hide Cut, StopAt, Clean;
    if s.k == 0 {
      var v := vs[0].(offset := vs[0].offset + n, len := vs[0].len - n);
      assert VecContent(v) == VecContent(vs[0])[n..];
      assert ([v] + vs[1..])[1..] == vs[1..];
      assert Content([v] + vs[1..]) == VecContent(v) + Content(vs[1..]);
    } else {
      hide Content;
      assert |Content(vs[s.k..])| == Size(vs) - Size(vs[..s.k]) && |Content(vs)[n..]| == Size(vs) - n;
    }
  }

  /** The vectors that remain after a stop: the rest of the first, or those from the stop on. */
  lemma CutPending(b: Bio, n: nat)
    requires BioOk(b) && n < b.size
    ensures var vs, s := Pending(b), StopAt(Pending(b), n); var c := Cut(b, n);
      && c.idx <= |c.vecs|
      && Pending(c) == if s.k > 0 then vs[s.k..]
                       else [vs[0].(offset := vs[0].offset + n, len := vs[0].len - n)] + vs[1..]
  {
    var vs, s := Pending(b), StopAt(Pending(b), n);
    var ws := Pending(Cut(b, n));
    if s.k > 0 {
      assert forall i :: 0 <= i < |vs| - s.k ==> ws[i] == vs[s.k + i];
    } else {
      assert forall i :: 1 <= i < |vs| ==> ws[i] == vs[i];
    }
  }

  /** What a stop makes of the surplus of pending vectors over bytes to go: an unclean one adds to it. */
  lemma CutSurplus(b: Bio, n: nat)
    requires BioOk(b) && n < b.size
    ensures var s := StopAt(Pending(b), n); var c := Cut(b, n);
      && BioOk(c)
      && Size(Pending(c)) - c.size == Size(Pending(b)) - b.size + if s.k > 0 then s.rest else 0
  {
    var vs, s := Pending(b), StopAt(Pending(b), n);
    CutPending(b, n);
    hide StopAt;
    if s.k > 0 {
      ContentDrop(vs, s.k);
    } else {
      var v := vs[0].(offset := vs[0].offset + n, len := vs[0].len - n);
      assert ([v] + vs[1..])[1..] == vs[1..];
    }
  }

  /** So a bio stays exact exactly for a clean stop. */
  lemma CutInOrder(b: Bio, n: nat)
    requires Exact(b) && n < b.size
    ensures Exact(Cut(b, n)) <==> Clean(Pending(b), n)
  {
    CutSurplus(b, n);
    CleanStop(Pending(b), n);
  }

  /** Any call leaves a request on which another can be made. */
  lemma {:induction false} LeftOk(c: seq<Bio>, n: nat)
    requires ChainOk(c)
    ensures ChainOk(Left(c, n))
  {
    hide BioOk, Cut;
    if c != [] {
      if n >= c[0].size { LeftOk(c[1..], n - c[0].size); } else { CutSurplus(c[0], n); }
    }
  }

  lemma NotBotched(c: seq<Bio>)
    requires c != [] && Exact(c[0])
    ensures FirstLen(c) / 512 <= Residual(c) / 512
  {
    assert Pending(c[0])[0] == c[0].vecs[c[0].idx];
    SizeUpTo(Pending(c[0]), 0);
  }

  // ------------------------------------------------------------------ many calls

  predicate AllExact(c: seq<Bio>) {
    forall i :: 0 <= i < |c| ==> Exact(c[i])
  }

  /** A request of exact bios never runs into the BUG_ON. */
  lemma {:induction false} ExactNeverFires(c: seq<Bio>, n: nat)
    requires ChainOk(c) && AllExact(c)
    ensures !Fires(c, n)
  {
    if c != [] {
      if n >= c[0].size {
        ExactNeverFires(c[1..], n - c[0].size);
      } else {
        SizeUpTo(Pending(c[0]), StopAt(Pending(c[0]), n).k);
      }
    }
  }

  /** The call ends at the end of a vector, or inside the first that is pending in its bio. */
  ghost predicate CleanCall(c: seq<Bio>, n: nat)
    requires ChainOk(c)
  {
    c == [] || if n >= c[0].size then CleanCall(c[1..], n - c[0].size) else Clean(Pending(c[0]), n)
  }

  /** Clean calls are exactly those that leave all bios exact. */
  lemma {:induction false} CleanKeepsExact(c: seq<Bio>, n: nat)
    requires ChainOk(c) && AllExact(c)
    ensures AllExact(Left(c, n)) <==> CleanCall(c, n)
  {
    hide Exact, Cut, Clean, BioOk, Pending;
    if c != [] {
      assert Exact(c[0]);
      ExactOk(c[0]);
      if n >= c[0].size {
        CleanKeepsExact(c[1..], n - c[0].size);
      } else {
        CutInOrder(c[0], n);
        CutExact(c, Cut(c[0], n));
      }
    }
  }

  lemma ExactOk(b: Bio)
    requires Exact(b)
    ensures BioOk(b)
  {
  }

  lemma CutExact(c: seq<Bio>, b: Bio)
    requires c != [] && AllExact(c)
    ensures AllExact([b] + c[1..]) <==> Exact(b)
  {
    hide Exact;
    var l := [b] + c[1..];
    assert l[0] == b && forall i :: 1 <= i < |l| ==> l[i] == c[i];
  }

  /** What is left after a number of calls, with the byte counts given. */
  function After(c: seq<Bio>, ns: seq<nat>): seq<Bio>
    requires ChainOk(c)
    decreases |ns|
  {
    if ns == [] then c
    else
      LeftOk(c, ns[0]);
      After(Left(c, ns[0]), ns[1..])
  }

  /** What bio_endio is told by these calls. */
  function AllEnded(c: seq<Bio>, ns: seq<nat>): seq<(nat, nat)>
    requires ChainOk(c)
    decreases |ns|
  {
    if ns == [] then []
    else
      LeftOk(c, ns[0]);
      Ended(c, ns[0]) + AllEnded(Left(c, ns[0]), ns[1..])
  }

  /** None of the calls runs into the BUG_ON. */
  predicate Survives(c: seq<Bio>, ns: seq<nat>)
    requires ChainOk(c)
    decreases |ns|
  {
    ns == [] || (!Fires(c, ns[0]) && (LeftOk(c, ns[0]); Survives(Left(c, ns[0]), ns[1..])))
  }

  ghost predicate AllClean(c: seq<Bio>, ns: seq<nat>)
    requires ChainOk(c)
    decreases |ns|
  {
    ns == [] || (CleanCall(c, ns[0]) && (LeftOk(c, ns[0]); AllClean(Left(c, ns[0]), ns[1..])))
  }

  function Sum(ns: seq<nat>): nat {
    if ns == [] then 0 else ns[0] + Sum(ns[1..])
  }

  lemma {:induction false} TotalConcat(a: seq<(nat, nat)>, b: seq<(nat, nat)>)
    ensures Total(a + b) == Total(a) + Total(b)
  {
    if a == [] {
      assert a + b == b;
    } else {
      assert (a + b)[1..] == a[1..] + b;
      TotalConcat(a[1..], b);
    }
  }

  /**
   Over any number of calls, clean or not, every byte asked for is ended once, up to those
   there are, and the bytes to go are what is left; the request is done when they are none.
   */
  lemma {:induction false} CallsConserve(c: seq<Bio>, ns: seq<nat>)
    requires ChainOk(c)
    ensures Total(AllEnded(c, ns)) == Min(Sum(ns), Residual(c))
    ensures Residual(After(c, ns)) == Residual(c) - Min(Sum(ns), Residual(c))
    ensures ChainOk(After(c, ns))
    decreases |ns|
  {
    if ns != [] {
      LeftOk(c, ns[0]);
      BytesConserved(c, ns[0]);
      CallsConserve(Left(c, ns[0]), ns[1..]);
      TotalConcat(Ended(c, ns[0]), AllEnded(Left(c, ns[0]), ns[1..]));
    }
  }

  /** A request of exact bios survives every sequence of clean calls. */
  lemma {:induction false} CleanSurvives(c: seq<Bio>, ns: seq<nat>)
    requires ChainOk(c) && AllExact(c) && AllClean(c, ns)
    ensures Survives(c, ns) && AllExact(After(c, ns))
    decreases |ns|
  {
    if ns != [] {
      LeftOk(c, ns[0]);
      ExactNeverFires(c, ns[0]);
      CleanKeepsExact(c, ns[0]);
      CleanSurvives(Left(c, ns[0]), ns[1..]);
    }
  }

  /**
   After one unclean stop: the next call runs into the BUG_ON exactly when it stops in that
   same bio, inside a vector longer than what is then to go (for a call of no bytes, if the
   first is).
   */
  lemma {:induction false} SecondCall(c: seq<Bio>, n: nat, m: nat)
    requires ChainOk(c) && AllExact(c) && c != [] && 0 < n < c[0].size
    ensures var d := Left(c, n);
      && ChainOk(d) && d[0] == Cut(c[0], n)
      && (Fires(d, m) <==> m < d[0].size && FiresHere(d[0], m))
  {
    LeftOk(c, n);
    var d := Left(c, n);
    if m >= d[0].size {
      assert d[1..] == c[1..];
      ExactNeverFires(c[1..], m - d[0].size);
    }
  }

  /**
   Two calls, of 1024 and 512 bytes, on vectors of 512 and 4096: the first edits the vector
   that is done already and leaves 3584 bytes to go against a pending vector of 4096; the
   second runs into the BUG_ON.
   */
  lemma SecondCallFires()
    ensures var b := Bio(0, [Vec(1, 0, 512), Vec(2, 0, 4096)], 0, 4608);
      && Exact(b) && ChainOk([b]) && !Fires([b], 1024)
      && Cut(b, 1024) == Bio(0, [Vec(1, 512, 0), Vec(2, 0, 4096)], 1, 3584)
      && ChainOk(Left([b], 1024)) && Fires(Left([b], 1024), 512)
  {
    var vs := [Vec(1, 0, 512), Vec(2, 0, 4096)];
    var b := Bio(0, vs, 0, 4608);
    assert vs[1..] == [Vec(2, 0, 4096)] && vs[..1] == [Vec(1, 0, 512)] && [Vec(2, 0, 4096)][1..] == [];
    assert Pending(b) == vs && Size(vs[..1]) == 512;
    StopUnique(vs, 1, 512);
    ExactNeverFires([b], 1024);
    LeftOk([b], 1024);
    var d := Left([b], 1024);
    assert Pending(d[0]) == [Vec(2, 0, 4096)];
    assert [Vec(2, 0, 4096)][..0] == [];
    StopUnique(Pending(d[0]), 0, 512);
  }
}
