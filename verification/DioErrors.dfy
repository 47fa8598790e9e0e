/**
 Which error a direct-I/O request keeps when there are several: the worker's is the first it
 is told of, and a reap tells of the bio that ended first.
 */
module DioErrors {
  import opened Types
  import opened DioCompletion
  import opened DioReports

  /** A reap finds bio_list empty, and the last bio it has processed had failed. */
  predicate ReapFails(s: Dio) {
    s.pc.Reaping? && s.bioList == [] && s.pc.last.Some? && s.pc.last.value in s.report.faulty
  }

  /**
   The error that walk or last send is given at this step, or 0.  While the zeros at the end
   are sent there is none: dio_zero_block drops it.
   */
  function ErrorAt(s: Dio, e: Step): int {
    var told := s.plan.segs != [] || s.plan.zeroed;
    match e
    case FailStep(err) => err
    case NoMemory => if told then -ENOMEM else 0
    case SubmitterStep => if ReapFails(s) && told then -EIO else 0
    case _ => 0
  }

  ghost function FirstError(s: Dio, es: seq<Step>): int
    requires Runs(s, es)
    decreases |es|
  {
    if es == [] then 0
    else if ErrorAt(s, es[0]) != 0 then ErrorAt(s, es[0])
    else FirstError(Apply(s, es[0]), es[1..])
  }

  lemma StepError(s: Dio, e: Step)
    requires Enabled(s, e)
    ensures Apply(s, e).report.ret == if s.report.ret != 0 then s.report.ret else ErrorAt(s, e)
  {
    if !Quiet(s, e) {
      LoudIs(s, e);
      hide Apply, Enabled;
    } else if e.SubmitterStep? {
      hide Enabled, Completed;
    } else {
      hide Submitter;
    }
  }

  lemma {:induction false} RetIsFirst(s: Dio, es: seq<Step>)
    requires Runs(s, es)
    ensures After(s, es).report.ret == if s.report.ret != 0 then s.report.ret else FirstError(s, es)
    decreases |es|
  {
    if es != [] {
      StepError(s, es[0]);
      hide Apply, Enabled, ErrorAt;
      RetIsFirst(Apply(s, es[0]), es[1..]);
    }
  }

  /**
   What a synchronous request returns, over every run: the first error of walk and last send,
   else -EIO if a bio awaited at the end had failed, else the error of a page, else its bytes,
   of which a failed bio leaves only those added afterwards.
   */
  lemma SyncAnswer(n: nat, segs: seq<nat>, es: seq<Step>)
    requires Runs(Init(false, n, segs), es) && After(Init(false, n, segs), es).frees == 1
    ensures var t := After(Init(false, n, segs), es);
      var r, first := t.report, FirstError(Init(false, n, segs), es);
      Returned(t) == if first != 0 then first
                     else if !(r.awaited !! r.faulty) then -EIO
                     else if r.pageErrors != 0 then r.pageErrors
                     else if r.faulty == {} then Sum(segs) else r.since - EIO
  {
    AtTheEnd(false, n, segs, es);
    RetIsFirst(Init(false, n, segs), es);
    hide Runs, After, FirstError, Sum;
  }

  /**
   When a bio is not had, for want of memory or because a reap has ended with a failed one,
   none is made: a walk is left, and behind the walk nothing more is sent.  A reap that ended
   well, or found nothing, goes on to allocate.
   */
  lemma RefusedBio(s: Dio, e: Step)
    requires Enabled(s, e) && (e.NoMemory? || (e.SubmitterStep? && s.pc.Reaping? && s.bioList == []))
    ensures var t := Apply(s, e);
      && (t.pc.Alloc? <==> e.SubmitterStep? && !ReapFails(s)) && t.next == s.next && t.plan.hasBio == s.plan.hasBio
      && (t.pc.Alloc? ==> t.plan.left == s.plan.left)
      && (!t.pc.Alloc? ==> if s.plan.segs != [] then t.pc.Broken? else t.pc.Work? && t.plan.left == 0)
      && (e.SubmitterStep? ==> t.plan.reapCounter == 0)
  {
    if e.NoMemory? {
      hide Submitter, FailedWith;
    } else {
      ReapRefused(s, s.pc.last);
      assert Apply(s, e) == ReapOver(s, s.pc.last);
      hide Apply, ReapOver;
    }
  }

  lemma ReapRefused(s: Dio, last: Option<nat>)
    ensures var t := ReapOver(s, last);
      && (t.pc.Alloc? <==> last.None? || last.value !in s.report.faulty) && t.plan.reapCounter == 0
      && t.next == s.next && t.plan.hasBio == s.plan.hasBio && (t.pc.Alloc? ==> t.plan.left == s.plan.left)
      && (!t.pc.Alloc? ==> if s.plan.segs != [] then t.pc.Broken? else t.pc.Work? && t.plan.left == 0)
  {
    hide LastReaped, NoBio, Heard;
    if last.Some? {
      var t := s.(plan := s.plan.(reapCounter := 0));
      NoBioIs(t);
      NoBioIs(t.(report := LastReaped(s.report, last.value)));
    }
  }

  lemma NoBioIs(s: Dio)
    ensures var t := NoBio(s);
      && t.next == s.next && t.plan.hasBio == s.plan.hasBio && t.plan.reapCounter == s.plan.reapCounter
      && !t.pc.Alloc? && if s.plan.segs != [] then t.pc.Broken? else t.pc.Work? && t.plan.left == 0
  {
  }

  // ------------------------------------------------------------------ the order of a reap

  /** Bios end, and nothing else happens. */
  predicate OnlyEnds(es: seq<Step>) {
    forall i :: 0 <= i < |es| ==> es[i].End?
  }

  /** The bios that end, the last to end first. */
  function Newest(es: seq<Step>): (l: seq<nat>)
    requires OnlyEnds(es)
    ensures |l| == |es| && forall i :: 0 <= i < |l| ==> l[i] == es[|es| - 1 - i].b
  {
    if es == [] then [] else Newest(es[1..]) + [es[0].b]
  }

  lemma {:induction false} Landing(s: Dio, es: seq<Step>)
    requires !s.isAsync && Runs(s, es) && OnlyEnds(es)
    ensures var t := After(s, es);
      !t.isAsync && t.bioList == Newest(es) + s.bioList && t.pc == s.pc && t.processed == s.processed
    decreases |es|
  {
    if es == [] {
    } else {
      Landing(Apply(s, es[0]), es[1..]);
      assert Newest(es[1..]) + ([es[0].b] + s.bioList) == Newest(es) + s.bioList;
    }
  }

  /** So many steps of the submitter. */
  function Own(n: nat): (es: seq<Step>)
    ensures |es| == n
  {
    if n == 0 then [] else [SubmitterStep] + Own(n - 1)
  }

  lemma OwnSteps(n: nat)
    requires n >= 2
    ensures Own(n)[0] == SubmitterStep && Own(n)[1..][0] == SubmitterStep && Own(n)[1..][1..] == Own(n - 2)
  {
    assert Own(n)[1..] == Own(n - 1);
  }

  /** One bio of the reap. */
  lemma ReapOne(s: Dio)
    requires !s.isAsync && s.pc.Reaping? && s.bioList != []
    ensures Enabled(s, SubmitterStep) && Enabled(Apply(s, SubmitterStep), SubmitterStep)
    ensures var u := Apply(Apply(s, SubmitterStep), SubmitterStep);
      !u.isAsync && u.pc == Reaping(Some(s.bioList[0])) && u.bioList == s.bioList[1..]
      && u.processed == s.processed + {s.bioList[0]}
  {
  }

  /** Undisturbed, a reap takes bio_list from front to back. */
  lemma {:induction false} ReapDrains(s: Dio)
    requires !s.isAsync && s.pc.Reaping?
    ensures var es, l := Own(2 * |s.bioList|), s.bioList;
      && Runs(s, es)
      && var t := After(s, es);
      && !t.isAsync && t.bioList == [] && t.processed == s.processed + (set b | b in l)
      && t.pc == if l == [] then s.pc else Reaping(Some(l[|l| - 1]))
    decreases |s.bioList|
  {
    if s.bioList == [] {
      assert s.processed + {} == s.processed;
    } else {
      ReapOne(s);
      var l, m := s.bioList, |s.bioList| - 1;
      var u := Apply(Apply(s, SubmitterStep), SubmitterStep);
      hide Apply, Enabled;
      ReapDrains(u);
      OwnSteps(2 * |l|);
      assert (set b | b in l) == {l[0]} + (set b | b in l[1..]);
      assert Runs(Apply(s, SubmitterStep), Own(2 * |l|)[1..]);
    }
  }

  /**
   Bios end while a reap is about to begin, and it takes them all, and then those that had
   ended before: its answer is that of the bio that ended first.
   */
  lemma OldestDecides(s: Dio, es: seq<Step>)
    requires !s.isAsync && s.pc.Reaping? && s.bioList == [] && Runs(s, es) && OnlyEnds(es) && es != []
    ensures var t, own := After(s, es), Own(2 * |es|);
      && Runs(t, own)
      && var u := After(t, own);
      && u.pc == Reaping(Some(es[0].b)) && u.bioList == []
      && forall b :: b in u.processed <==> b in s.processed || exists i :: 0 <= i < |es| && es[i].b == b
  {
    Landing(s, es);
    var t := After(s, es);
    hide Runs, After, Own;
    ReapDrains(t);
    var l := Newest(es);
    assert t.bioList == l && l[|l| - 1] == es[0].b;
    forall b ensures b in l <==> exists i :: 0 <= i < |es| && es[i].b == b {
      if b in l {
        var i :| 0 <= i < |l| && l[i] == b;
        assert es[|es| - 1 - i].b == b;
      }
      if i :| 0 <= i < |es| && es[i].b == b {
        assert l[|es| - 1 - i] == b;
      }
    }
  }
}
