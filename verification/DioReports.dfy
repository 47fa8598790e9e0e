/**
 What a direct-I/O request tells its caller of the errors of its bios: for every run of the
 completion protocol, exactly when one is reported, and runs in which one is not.
 */
module DioReports {
  import opened Types
  import opened DioCompletion

  /** What the tail of direct_io_worker returns, before it cuts a read off at the end of the file. */
  function Returned(s: Dio): int {
    var r := s.report;
    if r.ret != 0 then r.ret
    else if !r.awaitOk then -EIO
    else if r.pageErrors != 0 then r.pageErrors
    else r.result
  }

  /** An error of this bio cannot be overlooked: it was awaited, or a reap ended with it whose answer is looked at. */
  ghost predicate Noticed(r: Report) {
    !(r.awaited + r.lasts !! r.faulty)
  }

  /**
   An asynchronous request is completed with an error exactly when a bio had one and fewer
   bytes than EIO have been added to `result` since the last such bio was processed; with the
   sum of its bytes when none had.  So a bio that fails before the walk adds the bytes of its
   segment is not reported.
   */
  lemma AsyncReport(n: nat, segs: seq<nat>, es: seq<Step>)
    requires Runs(Init(true, n, segs), es) && After(Init(true, n, segs), es).frees == 1
    ensures var t := After(Init(true, n, segs), es);
      && t.report.told.Some?
      && (t.report.told.value < 0 <==> t.report.faulty != {} && t.report.since < EIO)
      && t.report.told.value == (if t.report.faulty == {} then t.report.counted else t.report.since - EIO)
      && t.report.counted <= Sum(segs) && (t.report.ret == 0 ==> t.report.counted == Sum(segs))
  {
    AtTheEnd(true, n, segs, es);
  }

  /**
   A synchronous one returns an error exactly when walk or last send had one that is no bio's,
   or a page was missing, or a bio had one that was awaited at the end or the last of its
   reap, or fewer bytes than EIO have been added since a bio had one.  Else it returns the
   bytes of its segments, or what was added since.
   */
  lemma SyncReport(n: nat, segs: seq<nat>, es: seq<Step>)
    requires Runs(Init(false, n, segs), es) && After(Init(false, n, segs), es).frees == 1
    ensures var t := After(Init(false, n, segs), es);
      var r := t.report;
      && (Returned(t) < 0 <==> r.failed || r.pageErrors < 0 || Noticed(r) || (r.faulty != {} && r.since < EIO))
      && (Returned(t) >= 0 ==> Returned(t) == if r.faulty == {} then Sum(segs) else r.since - EIO)
  {
    AtTheEnd(false, n, segs, es);
  }

  /** The walk is over, and if bio b has failed and been processed nothing was added after it. */
  ghost predicate LateTold(s: Dio, b: nat) {
    s.plan.segs == [] && (b in s.processed && b in s.report.faulty ==> s.report.since == 0)
  }

  lemma LateCompleted(s: Dio, c: nat, pc: Pc, r: Report, b: nat)
    requires LateTold(s, b) && (r == Marked(s.report, c) || r == AwaitMarked(s.report, c))
    ensures LateTold(Completed(s, c, pc, r), b)
  {
  }

  lemma LateLoud(s: Dio, e: Step, b: nat)
    requires Places(s) && LateTold(s, b) && Enabled(s, e) && !Quiet(s, e)
    ensures LateTold(Apply(s, e), b)
  {
    if e.End? {
      NotProcessed(s, e.b);
      hide Places;
    } else if e.Release? {
      LateCompleted(s, e.b, s.pc, Marked(s.report, e.b), b);
      hide Places, Completed, Marked;
    } else if s.pc.Reaped? && e.SubmitterStep? {
      LateCompleted(s, s.pc.b, Reaping(Some(s.pc.b)), Marked(s.report, s.pc.b), b);
      hide Places, Completed, Marked, LateTold;
    } else if s.pc.Awaited? && e.SubmitterStep? {
      LateCompleted(s, s.pc.b, Test, AwaitMarked(s.report, s.pc.b), b);
      hide Places, Completed, AwaitMarked, LateTold;
    } else {
      LateOnward(s, e, b);
      hide Places, Apply, Enabled, Quiet, LateTold;
    }
  }

  lemma LateOnward(s: Dio, e: Step, b: nat)
    requires LateTold(s, b) && Enabled(s, e) && !Quiet(s, e) && (e.Close? || e.SubmitterStep?)
    requires e.SubmitterStep? ==> !s.pc.Reaped? && !s.pc.Awaited?
    ensures LateTold(Apply(s, e), b)
  {
    if e.Close? {
      hide Submitter;
    } else if Makes(s.pc) {
      hide Waiting, Asked, ReapOver, Completed;
    } else {
      hide Making, Completed;
    }
  }

  lemma LateStep(s: Dio, e: Step, b: nat)
    requires Inv(s) && LateTold(s, b) && Enabled(s, e)
    ensures LateTold(Apply(s, e), b)
  {
    hide Places, Counts, Sleep, Told, Life, Apply, Quiet;
    if Quiet(s, e) {
      LateQuiet(s, e, b);
    } else {
      LateLoud(s, e, b);
    }
    hide LateTold;
  }

  lemma LateQuiet(s: Dio, e: Step, b: nat)
    requires Asking(s) && LateTold(s, b) && Enabled(s, e) && Quiet(s, e)
    ensures LateTold(Apply(s, e), b)
  {
    QuietIs(s, e);
    if e.SubmitterStep? || e.NoMemory? {
      AskedIs(s, e);
      hide Apply, Enabled, Quiet;
    } else {
      hide Submitter, OutOfMemory;
    }
  }

  lemma {:induction false} LateRun(s: Dio, es: seq<Step>, b: nat)
    requires Inv(s) && LateTold(s, b) && Runs(s, es)
    ensures LateTold(After(s, es), b)
    decreases |es|
  {
    if es != [] {
      LateStep(s, es[0], b);
      StepInv(s, es[0]);
      hide Inv, LateTold, Apply, Enabled;
      LateRun(Apply(s, es[0]), es[1..], b);
    }
  }

  /**
   So the error of a bio processed after the walk is reported, also when it is met under the
   zeros at the end, where the answer of the reap is dropped: the result keeps it.
   */
  lemma LateErrorReported(isAsync: bool, n: nat, segs: seq<nat>, first: seq<Step>, rest: seq<Step>, b: nat)
    requires Runs(Init(isAsync, n, segs), first)
    requires var s := After(Init(isAsync, n, segs), first);
      s.plan.segs == [] && b !in s.processed && Runs(s, rest)
      && After(s, rest).frees == 1 && b in After(s, rest).report.faulty
    ensures var t := After(After(Init(isAsync, n, segs), first), rest);
      if isAsync then t.report.told == Some(-EIO) else Returned(t) < 0
  {
    var s := After(Init(isAsync, n, segs), first);
    var t := After(s, rest);
    InitInv(isAsync, n, segs);
    RunKeeps(Init(isAsync, n, segs), first);
    RunKeeps(s, rest);
    LateRun(s, rest, b);
    CompletedLast(t);
    assert Copies(t, b) == Ord(b < t.next);
  }

  // ------------------------------------------------------------ runs that lose an error

  ghost predicate Reaches(s: Dio, t: Dio) {
    exists es :: Runs(s, es) && After(s, es) == t
  }

  lemma {:induction false} RunSnoc(s: Dio, es: seq<Step>, e: Step)
    requires Runs(s, es) && Enabled(After(s, es), e)
    ensures Runs(s, es + [e]) && After(s, es + [e]) == Apply(After(s, es), e)
    decreases |es|
  {
    hide Apply, Enabled;
    if es == [] {
      assert es + [e] == [e];
      assert Runs(Apply(s, e), []) && [e][1..] == [];
    } else {
      RunSnoc(Apply(s, es[0]), es[1..], e);
      assert (es + [e])[1..] == es[1..] + [e];
    }
  }

  lemma Go(s: Dio, t: Dio, e: Step) returns (u: Dio)
    requires Reaches(s, t) && Enabled(t, e)
    ensures u == Apply(t, e) && Reaches(s, u)
  {
    hide Runs, After, Apply, Enabled;
    var es :| Runs(s, es) && After(s, es) == t;
    RunSnoc(s, es, e);
    u := Apply(t, e);
  }

  lemma Still(s: Dio)
    ensures Reaches(s, s)
  {
    assert Runs(s, []) && After(s, []) == s;
  }

  /** A bio is made without a reap. */
  lemma Make(s: Dio, t: Dio) returns (u: Dio)
    requires Reaches(s, t) && t.pc.Work? && !t.plan.hasBio && t.plan.left > 0 && t.plan.reapCounter < REAP_EVERY
    ensures Reaches(s, u)
    ensures u == t.(plan := t.plan.(hasBio := true, left := t.plan.left - 1, reapCounter := t.plan.reapCounter + 1))
  {
    hide Reaches;
    u := Go(s, t, SubmitterStep);
    u := Go(s, u, SubmitterStep);
  }

  /** It is submitted. */
  lemma Send(s: Dio, t: Dio) returns (u: Dio)
    requires Reaches(s, t) && t.pc.Work? && t.plan.hasBio
    ensures Reaches(s, u)
    ensures u == t.(plan := t.plan.(hasBio := false), next := t.next + 1, bioCount := t.bioCount + 1,
                    biosInFlight := t.biosInFlight + 1, flying := t.flying + {t.next})
  {
    hide Reaches;
    u := Go(s, t, SubmitterStep);
    assert u.pc == CountBio(t.next);
    u := Go(s, u, SubmitterStep);
    u := Go(s, u, SubmitterStep);
    u := Go(s, u, SubmitterStep);
  }

  /** A bio of a synchronous request ends while nobody waits. */
  lemma Land(s: Dio, t: Dio, b: nat, uptodate: bool) returns (u: Dio)
    requires Reaches(s, t) && !t.isAsync && !t.waiter && b in t.flying
    ensures Reaches(s, u)
    ensures u == t.(flying := t.flying - {b}, bioList := [b] + t.bioList, biosInFlight := t.biosInFlight - 1,
                    report := if uptodate then t.report else Faulted(t.report, b))
  {
    hide Reaches;
    u := Go(s, t, End(b, uptodate));
  }

  /** A bio of an asynchronous one ends and drops its reference, not the last. */
  lemma Finish(s: Dio, t: Dio, b: nat, uptodate: bool) returns (u: Dio)
    requires Reaches(s, t) && t.isAsync && t.bioCount > 1 && b in t.flying && t.ending == {}
    ensures Reaches(s, u)
    ensures u == t.(flying := t.flying - {b}, processed := t.processed + {b}, bioCount := t.bioCount - 1,
                    report := Marked(if uptodate then t.report else Faulted(t.report, b), b))
  {
    hide Reaches, Marked, Faulted;
    u := Go(s, t, End(b, uptodate));
    assert t.ending + {b} == {b} && {b} - {b} == {};
    u := Go(s, u, Release(b));
  }

  /**
   Three pages that lie apart on disk.  The bio of the first fails before the walk ends; the
   request is completed as if all but five bytes had been done.
   */
  lemma ErrorLost()
    ensures exists es :: Runs(Init(true, 3, [12288]), es)
              && var t := After(Init(true, 3, [12288]), es);
                 t.frees == 1 && t.report.faulty == {0} && t.report.told == Some(12283)
  {
    var s := Init(true, 3, [12288]);
    Still(s);
    var t := FirstFails(s);
    t := TwoMore(s, t);
    t := Close2(s, t);
    hide Runs, After;
    var es :| Runs(s, es) && After(s, es) == t;
  }

  /** The first bio is processed while the second is being filled. */
  lemma FirstFails(s: Dio) returns (t: Dio)
    requires s == Init(true, 3, [12288]) && Reaches(s, s)
    ensures Reaches(s, t)
    ensures t == s.(plan := Plan(1, true, 2, [12288], false), next := 1, processed := {0}, biosInFlight := 1,
                    report := s.report.(result := -EIO, faulty := {0}))
  {
    hide Reaches;
    t := Make(s, s);
    t := Send(s, t);
    assert t.flying == {0};
    t := Make(s, t);
    t := Finish(s, t, 0, false);
    assert t.flying == {} && t.processed == {0} && t.report.faulty == {0};
  }

  lemma TwoMore(s: Dio, t: Dio) returns (u: Dio)
    requires s == Init(true, 3, [12288]) && Reaches(s, t)
    requires t == s.(plan := Plan(1, true, 2, [12288], false), next := 1, processed := {0}, biosInFlight := 1,
                     report := s.report.(result := -EIO, faulty := {0}))
    ensures Reaches(s, u)
    ensures u == s.(plan := Plan(0, false, 3, [], true), next := 3, processed := {0, 1, 2}, biosInFlight := 3,
                    report := s.report.(result := 12283, faulty := {0}, counted := 12288, since := 12288))
  {
    hide Reaches;
    u := Go(s, t, AddStep);
    u := Go(s, u, ZeroStep);
    u := Send(s, u);
    assert u.flying == {1};
    u := Finish(s, u, 1, true);
    assert u.flying == {} && u.processed == {0, 1};
    u := Make(s, u);
    u := Send(s, u);
    assert u.flying == {2};
    u := Finish(s, u, 2, true);
    assert u.flying == {} && u.processed == {0, 1, 2};
  }

  /** Nobody is left to hold it. */
  lemma Close2(s: Dio, t: Dio) returns (u: Dio)
    requires Reaches(s, t) && t.isAsync && t.bioCount == 1 && t.pc.Work? && t.plan == Plan(0, false, 3, [], true)
    requires t.frees == 0 && t.closing == Open
    ensures Reaches(s, u) && u.frees == 1 && u.report == t.report.(told := Some(t.report.result))
  {
    hide Reaches;
    u := Go(s, t, FinishStep);
    u := Go(s, u, SubmitterStep);
    u := Go(s, u, Close);
    u := Go(s, u, Close);
  }

  /** The bios below k, the last one first. */
  function Down(k: nat): seq<nat> {
    if k == 0 then [] else [k - 1] + Down(k - 1)
  }

  /** After k of 64 bios; the last of them fails. */
  function Ready(k: nat): Dio
    requires k <= 64
  {
    Dio(false, Plan(65 - k, false, k, [270336], false), k, Work, 1 + k, 0, Down(k), false, true, {}, {}, {}, Open, 0, 0,
        Report(0, 0, 0, true, None, if k == 64 then {63} else {}, {}, {}, false, 0, 0))
  }

  lemma ReadyNext(s: Dio, k: nat)
    requires k < 64 && Reaches(s, Ready(k))
    ensures Reaches(s, Ready(k + 1))
  {
    hide Reaches, Down;
    var t := Make(s, Ready(k));
    t := Send(s, t);
    assert t.flying == {k};
    t := Land(s, t, k, k != 63);
    assert t.flying == {};
    assert Down(k + 1) == [k] + Down(k) by { DownIs(k); }
    assert t == Ready(k + 1);
  }

  lemma DownIs(k: nat)
    ensures Down(k + 1) == [k] + Down(k)
  {
  }

  lemma {:induction false} ReadyAll(s: Dio, k: nat)
    requires k <= 64 && Reaches(s, Ready(0))
    ensures Reaches(s, Ready(k))
  {
    hide Reaches, Ready;
    if k > 0 {
      ReadyAll(s, k - 1);
      ReadyNext(s, k - 1);
    }
  }

  function Above(j: nat): set<nat>
    decreases 64 - j
  {
    if j >= 64 then {} else Above(j + 1) + {j}
  }

  /** The reap has j bios to go: it has met the failed one first. */
  function Reap(j: nat): Dio
    requires j <= 64
  {
    Dio(false, Plan(1, false, 64, [270336], false), 64, Reaping(if j == 64 then None else Some(j)), 1 + j, 0, Down(j),
        false, true, {}, {}, Above(j), Open, 0, 0,
        Report(if j == 64 then 0 else -EIO, 0, 0, true, None, {63}, {}, {}, false, 0, 0))
  }

  lemma ReapStarts(s: Dio)
    requires Reaches(s, Ready(64))
    ensures Reaches(s, Reap(64))
  {
    hide Reaches, Down;
    var t := Go(s, Ready(64), SubmitterStep);
    assert t == Reap(64);
  }

  lemma ReapNext(s: Dio, j: nat)
    requires 0 < j <= 64 && Reaches(s, Reap(j))
    ensures Reaches(s, Reap(j - 1))
  {
    hide Reaches, Down;
    DownIs(j - 1);
    var t := Go(s, Reap(j), SubmitterStep);
    assert t.bioList == Down(j - 1);
    t := Go(s, t, SubmitterStep);
    assert Above(j) + {j - 1} == Above(j - 1);
    assert t == Reap(j - 1);
  }

  lemma {:induction false} ReapAll(s: Dio, j: nat)
    requires j <= 64 && Reaches(s, Reap(64))
    ensures Reaches(s, Reap(j))
    decreases 64 - j
  {
    hide Reaches, Reap;
    if j < 64 {
      ReapAll(s, j + 1);
      ReapNext(s, j + 1);
    }
  }

  /** The last bio of the reap was good, so that the next one is made and the walk goes on. */
  function Resumed(): Dio {
    Reap(0).(plan := Plan(0, true, 0, [270336], false), pc := Work,
             report := Report(-EIO, 0, 0, true, None, {63}, {}, {0}, false, 0, 0))
  }

  lemma WalkGoesOn(s: Dio)
    requires Reaches(s, Reap(0))
    ensures Reaches(s, Resumed())
  {
    hide Reaches, Above;
    var t := Go(s, Reap(0), SubmitterStep);
    assert {} + {0} == {0};
    assert t.pc == Alloc;
    t := Go(s, t, SubmitterStep);
    assert t == Resumed();
  }

  /** The dio that waits for the bio 64. */
  ghost predicate WaitsLast(t: Dio, pc: Pc, count: int) {
    t.pc == pc && !t.isAsync && t.bioCount == count && !t.waiter && t.frees == 0
    && t.report == Report(270331, 0, 0, true, None, {63}, {}, {0}, false, 270336, 270336)
  }

  /** And adds its bytes. */
  lemma WalkEnds(s: Dio) returns (t: Dio)
    requires Reaches(s, Resumed())
    ensures Reaches(s, t) && WaitsLast(t, Drop, 2) && t.flying == {64} && t.bioList == []
  {
    hide Reaches, Above;
    t := Go(s, Resumed(), AddStep);
    assert t.report == Report(270331, 0, 0, true, None, {63}, {}, {0}, false, 270336, 270336);
    t := Go(s, t, ZeroStep);
    t := Send(s, t);
    assert t.flying == {64};
    t := Go(s, t, FinishStep);
  }

  lemma LastLands(s: Dio, t: Dio) returns (u: Dio)
    requires Reaches(s, t) && WaitsLast(t, Drop, 2) && t.flying == {64} && t.bioList == []
    ensures Reaches(s, u) && WaitsLast(u, Test, 1) && u.bioList == [64]
  {
    hide Reaches;
    u := Go(s, t, SubmitterStep);
    u := Land(s, u, 64, true);
  }

  lemma AwaitOne(s: Dio, t: Dio) returns (u: Dio)
    requires Reaches(s, t) && WaitsLast(t, Test, 1) && t.bioList == [64]
    ensures Reaches(s, u) && u.frees == 1 && u.report == t.report.(awaited := {64})
  {
    hide Reaches;
    u := Go(s, t, SubmitterStep);
    u := Go(s, u, SubmitterStep);
    assert u.pc == Awaited(64);
    u := Go(s, u, SubmitterStep);
    assert u.report == t.report.(awaited := {64});
    u := Go(s, u, SubmitterStep);
    u := Go(s, u, SubmitterStep);
  }

  /**
   A synchronous request of 66 pages in 65 bios.  The 64th bio fails and is the last to end
   before the reap, so that the reap meets it first and ends with a good one; the request
   returns 270331 bytes.
   */
  lemma SyncErrorLost()
    ensures exists es :: Runs(Init(false, 65, [270336]), es)
              && var t := After(Init(false, 65, [270336]), es);
                 t.frees == 1 && t.report.faulty == {63} && Returned(t) == 270331
  {
    var s := Init(false, 65, [270336]);
    Still(s);
    assert Ready(0) == s;
    ReadyAll(s, 64);
    ReapStarts(s);
    ReapAll(s, 0);
    WalkGoesOn(s);
    var t := WalkEnds(s);
    t := LastLands(s, t);
    t := AwaitOne(s, t);
    hide Runs, After;
    var es :| Runs(s, es) && After(s, es) == t;
  }
}
