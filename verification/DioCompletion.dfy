/**
 The completion of a direct-I/O request: one submitter, and the completions of its bios, which
 run whenever the device ends one.  A step is what a holder of bio_list_lock, or one atomic
 operation on a counter, does at once.
 */
module DioCompletion {
  import opened Types

  const EIO: int := 5
  const ENOMEM: int := 12
  /** A reap looks at bio_list only after this many new bios. */
  const REAP_EVERY: nat := 64

  /**
   What the submitter is about to do: look for work; go on with a reap, having processed
   `last` in it; process a reaped bio; allocate a bio; count bio b in bio_count, count it in
   bios_in_flight, hand it to submit_bio; leave a walk that has failed; drop its own
   reference; then, when synchronous, test bio_count, look at bio_list, sleep, process an
   awaited bio, free.
   */
  datatype Pc =
    | Work | Reaping(last: Option<nat>) | Reaped(b: nat) | Alloc
    | CountBio(b: nat) | CountFlight(b: nat) | SubmitBio(b: nat) | Broken | Drop
    | Test | Look | Asleep | Awaited(b: nat) | Free | Gone

  /** What the one that takes an asynchronous bio_count to zero is still to do. */
  datatype Closing = Open | Completing | Freeing | Closed

  /**
   The outcome so far.  `result` and `pageErrors` are fields of the dio, `ret` is what the
   walk and the last send gave, `awaitOk` says that no awaited bio had an error, and `told`
   is what aio_complete was given.  The code does not keep the rest: `faulty`, the bios that
   ended with an error, `awaited`, `lasts`, those with which a reap ended whose answer is
   looked at, `failed`, whether walk or last send failed for any other reason, `counted`, all
   bytes added to `result`, and `since`, those added since a completion last put -EIO there.
   */
  datatype Report = Report(result: int, ret: int, pageErrors: int, awaitOk: bool, told: Option<int>,
                           faulty: set<nat>, awaited: set<nat>, lasts: set<nat>, failed: bool,
                           counted: nat, since: nat)

  /** dio_bio_complete: an error replaces whatever is in `result`. */
  function Marked(r: Report, b: nat): Report {
    if b in r.faulty then r.(result := -EIO, since := 0) else r
  }

  /** dio_await_completion: the first error stays. */
  function AwaitMarked(r: Report, b: nat): Report {
    Marked(r, b).(awaitOk := r.awaitOk && b !in r.faulty, awaited := r.awaited + {b})
  }

  function Added(r: Report, n: nat): Report {
    r.(result := r.result + n, counted := r.counted + n, since := r.since + n)
  }

  function Faulted(r: Report, b: nat): Report {
    r.(faulty := r.faulty + {b})
  }

  /** The worker keeps the first error. */
  function Failing(r: Report, err: int): Report {
    if r.ret == 0 then r.(ret := err) else r
  }

  function FailedWith(r: Report, err: int): Report {
    Failing(r, err).(failed := true)
  }

  /** A reap whose answer is looked at ended with bio b. */
  function LastReaped(r: Report, b: nat): Report {
    var t := r.(lasts := r.lasts + {b});
    if b in r.faulty then Failing(t, -EIO) else t
  }

  /**
   What the submitter has still to do: `left` bios are to be made, `hasBio` says that one is
   being filled, `segs` are the byte counts that the walk has yet to add to the result.  When
   there are none the walk is over, and `zeroed` says that dio_zero_block has been called for
   the end as well.
   */
  datatype Plan = Plan(left: nat, hasBio: bool, reapCounter: nat, segs: seq<nat>, zeroed: bool)

  /**
   The dio.  `next` names the bio to be submitted next; `flying` holds the bios at the device
   and `ending` those whose completion has yet to drop its reference.  `running` is the state
   of the submitter's task.
   */
  datatype Dio = Dio(
    isAsync: bool, plan: Plan, next: nat, pc: Pc,
    bioCount: int, biosInFlight: int, bioList: seq<nat>, waiter: bool, running: bool,
    flying: set<nat>, ending: set<nat>, processed: set<nat>,
    closing: Closing, completions: nat, frees: nat, report: Report)

  /**
   FailStep and PageFault are errors of the walk that have nothing to do with its bios;
   BreakStep says how many bytes a broken segment adds, and how many bios still come.
   */
  datatype Step =
    | SubmitterStep | NoMemory | AddStep | FailStep(err: int) | PageFault(err: int) | BreakStep(bytes: nat, bios: nat)
    | ZeroStep | FinishStep
    | End(b: nat, uptodate: bool) | Release(b: nat) | Close

  function Init(isAsync: bool, bios: nat, segs: seq<nat>): Dio {
    Dio(isAsync, Plan(bios, false, 0, segs, false), 0, Work, 1, 0, [], false, true, {}, {}, {}, Open, 0, 0,
        Report(0, 0, 0, true, None, {}, {}, {}, false, 0, 0))
  }

  /** Which steps can be taken: a sleeping task does not run, and there must be something to do. */
  predicate Enabled(s: Dio, e: Step) {
    var p := s.plan;
    match e
    case SubmitterStep =>
      (match s.pc
       case Work => p.hasBio || p.left > 0
       case Alloc => p.left > 0
       case Asleep => s.running
       case Broken => false
       case Gone => false
       case _ => true)
    case NoMemory => s.pc == Alloc
    case AddStep => s.pc == Work && p.segs != []
    case FailStep(err) => s.pc == Work && p.segs != [] && err < 0
    case PageFault(err) => s.pc == Work && p.segs != [] && s.report.pageErrors == 0 && err < 0
    case BreakStep(bytes, bios) => s.pc == Broken && p.segs != [] && bytes <= p.segs[0] && bios <= p.left
    case ZeroStep => s.pc == Work && p.segs == [] && !p.zeroed
    case FinishStep => s.pc == Work && p.left == 0 && !p.hasBio && p.segs == [] && p.zeroed
    case End(b, _) => b in s.flying
    case Release(b) => b in s.ending
    case Close => s.closing == Completing || s.closing == Freeing
  }

  /** finished_one_bio: whoever takes the count to zero closes an asynchronous dio. */
  function FinishedOne(s: Dio): Dio {
    var t := s.(bioCount := s.bioCount - 1);
    if t.bioCount == 0 && t.isAsync then t.(closing := Completing) else t
  }

  /** The part of dio_bio_complete that all share; the new report depends on who is waiting. */
  function Completed(s: Dio, b: nat, pc: Pc, r: Report): Dio {
    FinishedOne(s).(processed := s.processed + {b}, pc := pc, report := r)
  }

  /** Taking the first bio off bio_list. */
  function Popped(s: Dio, pc: Pc): Dio
    requires s.bioList != []
  {
    s.(bioList := s.bioList[1..], pc := pc)
  }

  /** The answer of dio_new_bio is looked at, except below the dio_zero_block at the end. */
  predicate Heard(p: Plan) {
    p.segs != [] || p.zeroed
  }

  /** dio_new_bio has failed: the walk is left, or the section dropped with nothing else to send. */
  function NoBio(s: Dio): Dio {
    if s.plan.segs != [] then s.(pc := Broken) else s.(pc := Work, plan := s.plan.(left := 0))
  }

  /** The end of dio_bio_reap: it gives the outcome of the last bio it has processed. */
  function ReapOver(s: Dio, last: Option<nat>): Dio {
    var t := s.(plan := s.plan.(reapCounter := 0));
    if last.None? then t.(pc := Alloc)
    else
      var u := if Heard(s.plan) then t.(report := LastReaped(s.report, last.value)) else t;
      if last.value in s.report.faulty then NoBio(u) else u.(pc := Alloc)
  }

  function OutOfMemory(s: Dio): Dio {
    NoBio(if Heard(s.plan) then s.(report := FailedWith(s.report, -ENOMEM)) else s)
  }

  /** The start of dio_new_bio. */
  function Asked(s: Dio): Dio {
    if s.plan.reapCounter >= REAP_EVERY then s.(pc := Reaping(None))
    else s.(plan := s.plan.(reapCounter := s.plan.reapCounter + 1), pc := Alloc)
  }

  /** The submitter makes bios, in dio_new_bio and dio_bio_submit. */
  predicate Makes(pc: Pc) {
    pc.Work? || pc.Reaping? || pc.Reaped? || pc.Alloc? || pc.CountBio? || pc.CountFlight? || pc.SubmitBio?
  }

  /** dio_new_bio and dio_bio_submit, one step at a time. */
  function Making(s: Dio): Dio
    requires Enabled(s, SubmitterStep) && Makes(s.pc)
  {
    match s.pc
    case Work =>
      if s.plan.hasBio then s.(plan := s.plan.(hasBio := false), next := s.next + 1, pc := CountBio(s.next))
      else Asked(s)
    case Reaping(last) =>
      if s.bioList == [] then ReapOver(s, last)
      else Popped(s, Reaped(s.bioList[0]))
    case Reaped(b) => Completed(s, b, Reaping(Some(b)), Marked(s.report, b))
    case Alloc => s.(plan := s.plan.(hasBio := true, left := s.plan.left - 1), pc := Work)
    case CountBio(b) => s.(bioCount := s.bioCount + 1, pc := CountFlight(b))
    case CountFlight(b) => s.(biosInFlight := s.biosInFlight + 1, pc := SubmitBio(b))
    case SubmitBio(b) => s.(flying := s.flying + {b}, pc := Work)
  }

  /** The tail of direct_io_worker with dio_await_completion and dio_await_one. */
  function Waiting(s: Dio): Dio
    requires Enabled(s, SubmitterStep) && !Makes(s.pc)
  {
    match s.pc
    case Drop => FinishedOne(s).(pc := if s.isAsync then Gone else Test)
    case Test => s.(pc := if s.bioCount == 0 then Free else Look)
    case Look =>
      if s.bioList == [] then s.(waiter := true, running := false, pc := Asleep)
      else Popped(s, Awaited(s.bioList[0]))
    case Asleep => s.(waiter := false, pc := Look)
    case Awaited(b) => Completed(s, b, Test, AwaitMarked(s.report, b))
    case Free => s.(frees := s.frees + 1, pc := Gone)
  }

  function Submitter(s: Dio): Dio
    requires Enabled(s, SubmitterStep)
  {
    if Makes(s.pc) then Making(s) else Waiting(s)
  }

  /** The device ends bio b: dio_bio_end_io, or the first part of dio_bio_end_aio. */
  function Ended(s: Dio, b: nat, uptodate: bool): Dio
    requires b in s.flying
  {
    if uptodate then Landed(s, b) else Landed(s, b).(report := Faulted(s.report, b))
  }

  function Landed(s: Dio, b: nat): Dio {
    if s.isAsync then s.(flying := s.flying - {b}, ending := s.ending + {b})
    else
      s.(flying := s.flying - {b}, bioList := [b] + s.bioList, biosInFlight := s.biosInFlight - 1,
         running := s.running || (s.waiter && s.biosInFlight - 1 == 0))
  }

  function Apply(s: Dio, e: Step): Dio
    requires Enabled(s, e)
  {
    match e
    case SubmitterStep => Submitter(s)
    case NoMemory => OutOfMemory(s)
    case AddStep => s.(plan := s.plan.(segs := s.plan.segs[1..]), report := Added(s.report, s.plan.segs[0]))
    case FailStep(err) => s.(pc := Broken, report := FailedWith(s.report, err))
    case PageFault(err) => s.(report := s.report.(pageErrors := err))
    case BreakStep(bytes, bios) =>
      s.(plan := s.plan.(segs := [], left := bios), pc := Work, report := Added(s.report, bytes))
    case ZeroStep => s.(plan := s.plan.(zeroed := true))
    case FinishStep => s.(pc := Drop)
    case End(b, uptodate) => Ended(s, b, uptodate)
    case Release(b) =>
      Completed(s, b, s.pc, Marked(s.report, b)).(ending := s.ending - {b})
    case Close =>
      if s.closing == Completing then
        s.(closing := Freeing, completions := s.completions + 1,
           report := s.report.(told := Some(s.report.result)))
      else s.(closing := Closed, frees := s.frees + 1)
  }

  /** The submitter has bio b in hand. */
  predicate Holds(pc: Pc, b: nat) {
    match pc
    case CountBio(c) => b == c
    case CountFlight(c) => b == c
    case SubmitBio(c) => b == c
    case Reaped(c) => b == c
    case Awaited(c) => b == c
    case _ => false
  }

  predicate HoldsCounted(pc: Pc) {
    pc.CountFlight? || pc.SubmitBio? || pc.Reaped? || pc.Awaited?
  }

  /** Before the submitter has dropped its reference. */
  predicate HoldsRef(pc: Pc) {
    pc.Work? || pc.Reaping? || pc.Reaped? || pc.Alloc? || pc.CountBio? || pc.CountFlight? || pc.SubmitBio?
    || pc.Broken? || pc.Drop?
  }

  function Ord(c: bool): nat {
    if c then 1 else 0
  }

  /** In how many places bio b is. */
  function Copies(s: Dio, b: nat): nat {
    Ord(b in s.flying) + Ord(b in s.ending) + Ord(b in s.bioList) + Ord(Holds(s.pc, b)) + Ord(b in s.processed)
  }

  /** Every bio built so far is in exactly one place. */
  ghost predicate Places(s: Dio) {
    NoDup(s.bioList) && forall b: nat :: Copies(s, b) == Ord(b < s.next)
  }

  /** bio_count is the submitter's reference and the bios not yet processed; bios_in_flight those at the device. */
  ghost predicate Counts(s: Dio) {
    && s.bioCount == Ord(HoldsRef(s.pc)) + |s.flying| + |s.ending| + |s.bioList| + Ord(HoldsCounted(s.pc))
    && (!s.isAsync ==> s.biosInFlight == |s.flying| + Ord(s.pc.SubmitBio?))
  }

  /** A sleeper is on record as the waiter, and has been woken exactly if no bio is in flight any more. */
  ghost predicate Sleep(s: Dio) {
    && (s.waiter <==> s.pc.Asleep?)
    && (!s.running ==> s.pc.Asleep?) && (s.pc.Asleep? ==> (s.running <==> s.biosInFlight == 0))
    && (s.pc.Asleep? && s.running ==> s.bioList != [])
    && (s.pc.Look? ==> s.bioCount > 0)
  }

  /** The dio lives until every reference is gone, and is completed and freed once. */
  ghost predicate Life(s: Dio) {
    && (s.isAsync ==> s.bioList == [] && !s.pc.Test? && !s.pc.Look? && !s.pc.Asleep? && !s.pc.Awaited?
                      && !s.pc.Free? && !s.pc.Reaped? && (s.pc.Reaping? ==> s.pc.last.None?))
    && (!s.isAsync ==> s.ending == {} && s.closing == Open && s.completions == 0)
    && (s.pc.Free? ==> s.bioCount == 0)
    && (s.pc.Drop? || !HoldsRef(s.pc) ==> s.plan.left == 0 && !s.plan.hasBio && s.plan.segs == [])
    && (s.isAsync ==> (s.bioCount == 0 <==> s.closing != Open)
                      && s.completions == (if s.closing == Freeing || s.closing == Closed then 1 else 0)
                      && s.frees == (if s.closing == Closed then 1 else 0))
    && (!s.isAsync ==> s.frees == (if s.pc.Gone? then 1 else 0) && (s.pc.Gone? ==> s.bioCount == 0))
  }

  /** A bio is asked for when one is to be made; a walk that is being left has failed. */
  ghost predicate Asking(s: Dio) {
    && (s.pc.Reaping? || s.pc.Reaped? || s.pc.Alloc? ==> s.plan.left > 0 && !s.plan.hasBio)
    && (s.pc.Broken? ==> s.plan.segs != [] && s.report.ret < 0)
  }

  /** What `result`, `ret` and the answer of dio_await_completion tell of the bios processed. */
  ghost predicate Tells(r: Report, processed: set<nat>) {
    && r.awaited + r.lasts <= processed && (r.awaitOk <==> r.awaited !! r.faulty)
    && r.ret <= 0 && r.pageErrors <= 0 && (r.ret < 0 <==> r.failed || !(r.lasts !! r.faulty))
    && r.result == (if processed !! r.faulty then r.counted else r.since - EIO)
  }

  ghost predicate Told(s: Dio) {
    && (forall b :: b in s.report.faulty ==> b < s.next)
    && Tells(s.report, s.processed)
    && (s.pc.Reaping? && s.pc.last.Some? ==> s.pc.last.value in s.processed)
    && (s.report.told.Some? <==> s.completions > 0)
    && (s.report.told.Some? ==> s.report.told.value == s.report.result)
  }

  ghost predicate Inv(s: Dio) {
    Places(s) && Counts(s) && Sleep(s) && Life(s) && Asking(s) && Told(s)
  }

  lemma InitInv(isAsync: bool, bios: nat, segs: seq<nat>)
    ensures Inv(Init(isAsync, bios, segs))
  {
  }

  // ------------------------------------------------------------------ every step

  /** The submitter is between bios. */
  predicate Plain(pc: Pc) {
    pc.Work? || pc.Reaping? || pc.Alloc? || pc.Broken? || pc.Drop?
  }

  /** Steps that move no bio. */
  predicate Quiet(s: Dio, e: Step) {
    match e
    case SubmitterStep =>
      (s.pc.Work? && !s.plan.hasBio) || (s.pc.Reaping? && s.bioList == []) || s.pc.Alloc?
    case End(_, _) => false
    case Release(_) => false
    case Close => false
    case _ => true
  }

  /** They change what is planned and the report, and nothing else. */
  lemma QuietIs(s: Dio, e: Step)
    requires Enabled(s, e) && Quiet(s, e)
    ensures var t := Apply(s, e);
      && Plain(s.pc) && !s.pc.Drop? && Plain(t.pc)
      && t == s.(pc := t.pc, plan := t.plan, report := t.report)
      && (t.pc.Drop? ==> t.plan.left == 0 && !t.plan.hasBio && t.plan.segs == [])
      && (t.pc.Reaping? ==> t.pc.last.None?)
  {
    if s.pc.Reaping? { ReapOverIs(s, s.pc.last); }
    hide ReapOver, FailedWith, Added;
  }

  lemma ReapOverIs(s: Dio, last: Option<nat>)
    ensures var t := ReapOver(s, last);
      t == s.(pc := t.pc, plan := t.plan, report := t.report) && (t.pc.Alloc? || t.pc.Broken? || t.pc.Work?)
  {
    hide LastReaped;
  }

  lemma HeadOf(l: seq<nat>)
    requires l != []
    ensures forall b :: b in l <==> b == l[0] || b in l[1..]
    ensures NoDup(l) ==> NoDup(l[1..]) && l[0] !in l[1..]
  {
  }

  lemma QuietCopies(s: Dio, e: Step, b: nat)
    requires Enabled(s, e) && Quiet(s, e)
    ensures Copies(Apply(s, e), b) == Copies(s, b) && Apply(s, e).next == s.next
  {
    QuietIs(s, e);
    hide Apply, Enabled, Quiet;
  }

  lemma CompletedCopies(s: Dio, b: nat, pc: Pc, r: Report, c: nat)
    requires Places(s) && Holds(s.pc, b) && !Holds(pc, c)
    requires s.pc.Reaped? || s.pc.Awaited?
    ensures Copies(Completed(s, b, pc, r), c) == Ord(c < s.next)
  {
    assert Copies(s, c) == Ord(c < s.next);
    hide Places;
  }

  lemma PoppedCopies(s: Dio, pc: Pc, c: nat)
    requires Places(s) && s.bioList != [] && Holds(pc, s.bioList[0]) && !Holds(s.pc, c)
    requires Holds(pc, c) ==> c == s.bioList[0]
    ensures Copies(Popped(s, pc), c) == Ord(c < s.next)
  {
    assert Copies(s, c) == Ord(c < s.next);
    HeadOf(s.bioList);
    hide Places;
  }

  lemma OnwardIs(s: Dio, c: nat)
    requires Enabled(s, SubmitterStep) && !Quiet(s, SubmitterStep)
    requires !s.pc.Reaped? && !s.pc.Awaited? && (s.bioList == [] || (!s.pc.Reaping? && !s.pc.Look?))
    ensures var t := Submitter(s);
      && t.ending == s.ending && t.bioList == s.bioList && t.processed == s.processed
      && (s.pc.SubmitBio? ==> t.flying == s.flying + {s.pc.b} && !Holds(t.pc, c) && t.next == s.next)
      && (!s.pc.SubmitBio? && !s.pc.Work? ==> t.flying == s.flying && Holds(t.pc, c) == Holds(s.pc, c)
                                              && t.next == s.next)
      && (s.pc.Work? ==> t.flying == s.flying && Holds(t.pc, c) == (c == s.next) && t.next == s.next + 1)
  {
    if Makes(s.pc) { hide Waiting, Asked, ReapOver, Completed, Popped; } else { hide Making, Completed, Popped; }
  }

  lemma OnwardCopies(s: Dio, c: nat)
    requires Enabled(s, SubmitterStep) && !Quiet(s, SubmitterStep) && Copies(s, c) == Ord(c < s.next)
    requires !s.pc.Reaped? && !s.pc.Awaited? && (s.bioList == [] || (!s.pc.Reaping? && !s.pc.Look?))
    ensures Copies(Submitter(s), c) == Ord(c < Submitter(s).next)
  {
    OnwardIs(s, c);
    hide Submitter, Enabled, Quiet;
  }

  lemma SubmitterCopies(s: Dio, b: nat)
    requires Places(s) && Enabled(s, SubmitterStep) && !Quiet(s, SubmitterStep)
    ensures Copies(Submitter(s), b) == Ord(b < Submitter(s).next)
  {
    if s.pc.Reaped? {
      CompletedCopies(s, s.pc.b, Reaping(Some(s.pc.b)), Marked(s.report, s.pc.b), b);
      hide Copies, Marked;
    } else if s.pc.Awaited? {
      CompletedCopies(s, s.pc.b, Test, AwaitMarked(s.report, s.pc.b), b);
      hide Copies, AwaitMarked;
    } else if s.bioList != [] && s.pc.Reaping? {
      PoppedCopies(s, Reaped(s.bioList[0]), b);
      hide Copies;
    } else if s.bioList != [] && s.pc.Look? {
      PoppedCopies(s, Awaited(s.bioList[0]), b);
      hide Copies;
    } else {
      assert Copies(s, b) == Ord(b < s.next);
      OnwardCopies(s, b);
      hide *;
    }
  }

  lemma OtherCopies(s: Dio, e: Step, b: nat)
    requires Places(s) && !e.SubmitterStep? && !Quiet(s, e) && Enabled(s, e)
    ensures Copies(Apply(s, e), b) == Ord(b < Apply(s, e).next)
  {
    assert Copies(s, b) == Ord(b < s.next);
    if e.End? {
      assert Copies(s, e.b) == Ord(e.b < s.next);
    }
    hide Places, Marked, Faulted;
  }

  lemma ListIs(s: Dio, e: Step)
    requires Enabled(s, e) && !Quiet(s, e)
    ensures var t := Apply(s, e);
      || t.bioList == s.bioList || (s.bioList != [] && t.bioList == s.bioList[1..])
      || (e.End? && t.bioList == [e.b] + s.bioList)
  {
    hide Asked, ReapOver, Marked, AwaitMarked, Faulted;
    if !e.SubmitterStep? {
      hide Submitter;
    } else if Makes(s.pc) {
      hide Waiting, Landed;
    } else {
      hide Making, Landed;
    }
  }

  lemma StepList(s: Dio, e: Step)
    requires Places(s) && Enabled(s, e)
    ensures NoDup(Apply(s, e).bioList)
  {
    if Quiet(s, e) {
      QuietIs(s, e);
    } else {
      if e.End? {
        assert e.b !in s.bioList by { assert Copies(s, e.b) <= 1; }
      }
      ListIs(s, e);
    }
    assert NoDup(s.bioList);
    hide Places, Apply, Enabled, Quiet;
  }

  /** No bio is lost or doubled. */
  lemma StepPlaces(s: Dio, e: Step)
    requires Places(s) && Enabled(s, e)
    ensures Places(Apply(s, e))
  {
    StepList(s, e);
    forall b: nat ensures Copies(Apply(s, e), b) == Ord(b < Apply(s, e).next) {
      assert Copies(s, b) == Ord(b < s.next);
      hide Copies, Apply, Enabled, Places;
      if Quiet(s, e) {
        QuietCopies(s, e, b);
      } else if e.SubmitterStep? {
        SubmitterCopies(s, b);
        SubmitterIs(s);
      } else {
        OtherCopies(s, e, b);
      }
    }
    hide Copies, Apply, Enabled;
  }

  lemma SubmitterIs(s: Dio)
    requires Enabled(s, SubmitterStep)
    ensures Apply(s, SubmitterStep) == Submitter(s)
  {
    hide Submitter;
  }

  lemma QuietCounts(s: Dio, e: Step)
    requires Counts(s) && Enabled(s, e) && Quiet(s, e)
    ensures Counts(Apply(s, e))
  {
    QuietIs(s, e);
    hide Apply, Enabled, Quiet;
  }

  lemma CompletedCounts(s: Dio, b: nat, pc: Pc, r: Report)
    requires Counts(s) && (s.pc.Reaped? || s.pc.Awaited?) && HoldsRef(pc) == HoldsRef(s.pc)
    requires !HoldsCounted(pc) && !pc.SubmitBio?
    ensures Counts(Completed(s, b, pc, r))
  {
  }

  lemma PoppedCounts(s: Dio, pc: Pc)
    requires Counts(s) && s.bioList != [] && HoldsRef(pc) == HoldsRef(s.pc) && HoldsCounted(pc) && !HoldsCounted(s.pc)
    requires !pc.SubmitBio?
    ensures Counts(Popped(s, pc))
  {
    assert |s.bioList[1..]| == |s.bioList| - 1;
  }

  lemma SubmitBioCounts(s: Dio)
    requires Counts(s) && s.pc.SubmitBio? && s.pc.b !in s.flying
    ensures Counts(Submitter(s))
  {
    assert |s.flying + {s.pc.b}| == |s.flying| + 1;
  }

  lemma DropCounts(s: Dio)
    requires Counts(s) && s.pc.Drop?
    ensures Counts(Submitter(s))
  {
  }

  lemma OnwardCounts(s: Dio)
    requires Counts(s) && Enabled(s, SubmitterStep) && !Quiet(s, SubmitterStep) && !s.pc.SubmitBio? && !s.pc.Drop?
    requires !s.pc.Reaped? && !s.pc.Awaited? && (s.bioList == [] || (!s.pc.Reaping? && !s.pc.Look?))
    ensures Counts(Submitter(s))
  {
    if Makes(s.pc) {
      hide Waiting, Asked, ReapOver, Completed, Popped;
    } else {
      hide Making, Completed, Popped, FinishedOne;
    }
  }

  lemma SubmitterCounts(s: Dio)
    requires Places(s) && Counts(s) && Enabled(s, SubmitterStep) && !Quiet(s, SubmitterStep)
    ensures Counts(Submitter(s))
  {
    if s.pc.SubmitBio? {
      assert s.pc.b !in s.flying by { assert Copies(s, s.pc.b) <= 1; }
      SubmitBioCounts(s);
      hide Places, Counts;
    } else if s.pc.Reaped? {
      CompletedCounts(s, s.pc.b, Reaping(Some(s.pc.b)), Marked(s.report, s.pc.b));
      hide Places, Counts, Completed;
    } else if s.pc.Awaited? {
      CompletedCounts(s, s.pc.b, Test, AwaitMarked(s.report, s.pc.b));
      hide Places, Counts, Completed;
    } else if s.bioList != [] && s.pc.Reaping? {
      PoppedCounts(s, Reaped(s.bioList[0]));
      hide Places, Counts, Popped;
    } else if s.bioList != [] && s.pc.Look? {
      PoppedCounts(s, Awaited(s.bioList[0]));
      hide Places, Counts, Popped;
    } else if s.pc.Drop? {
      DropCounts(s);
      hide Places, Counts, Submitter;
    } else {
      OnwardCounts(s);
      hide Places, Counts, Submitter;
    }
  }

  lemma EndedCounts(s: Dio, b: nat, uptodate: bool)
    requires Places(s) && Counts(s) && b in s.flying
    ensures Counts(Ended(s, b, uptodate))
  {
    assert b !in s.ending && b !in s.bioList by { assert Copies(s, b) <= 1; }
    hide Places, Copies;
    assert |s.flying - {b}| == |s.flying| - 1 && |s.ending + {b}| == |s.ending| + 1;
  }

  lemma ReleasedCounts(s: Dio, b: nat)
    requires Counts(s) && b in s.ending
    ensures Counts(Apply(s, Release(b)))
  {
    hide Marked;
    assert |s.ending - {b}| == |s.ending| - 1;
  }

  lemma StepCounts(s: Dio, e: Step)
    requires Places(s) && Counts(s) && Enabled(s, e)
    ensures Counts(Apply(s, e))
  {
    hide Places, Counts, Submitter, Ended;
    if Quiet(s, e) {
      QuietCounts(s, e);
    } else if e.SubmitterStep? {
      SubmitterCounts(s);
    } else if e.End? {
      EndedCounts(s, e.b, e.uptodate);
    } else if e.Release? {
      ReleasedCounts(s, e.b);
    } else {
      ClosedCounts(s);
    }
  }

  lemma ClosedCounts(s: Dio)
    requires Counts(s) && Enabled(s, Close)
    ensures Counts(Apply(s, Close))
  {
  }

  lemma MakingSleep(s: Dio)
    requires Enabled(s, SubmitterStep) && Makes(s.pc) && !Quiet(s, SubmitterStep) && Sleep(s)
    ensures Sleep(Making(s))
  {
    hide Asked, ReapOver, Marked;
  }

  lemma WaitingSleep(s: Dio)
    requires Enabled(s, SubmitterStep) && !Makes(s.pc) && Counts(Waiting(s)) && Counts(s) && Sleep(s) && Life(s)
    ensures Sleep(Waiting(s))
  {
    hide AwaitMarked;
  }

  lemma OtherSleep(s: Dio, e: Step)
    requires Enabled(s, e) && !Quiet(s, e) && !e.SubmitterStep? && Counts(s) && Counts(Apply(s, e)) && Sleep(s)
    requires Life(s)
    ensures Sleep(Apply(s, e))
  {
    hide Submitter, Marked, Faulted;
  }

  lemma LoudSleep(s: Dio, e: Step)
    requires Enabled(s, e) && !Quiet(s, e) && Counts(s) && Counts(Apply(s, e)) && Sleep(s) && Life(s)
    ensures Sleep(Apply(s, e))
  {
    hide Counts, Sleep, Life, Making, Waiting, Quiet;
    if !e.SubmitterStep? {
      OtherSleep(s, e);
      hide Apply;
    } else if Makes(s.pc) {
      MakingSleep(s);
    } else {
      WaitingSleep(s);
    }
  }

  lemma StepSleep(s: Dio, e: Step)
    requires Inv(s) && Enabled(s, e)
    ensures Sleep(Apply(s, e))
  {
    StepCounts(s, e);
    hide Places, Counts, Told, Life, Asking;
    if Quiet(s, e) {
      QuietIs(s, e);
      hide Apply, Enabled;
    } else {
      LoudSleep(s, e);
      hide Apply, Enabled, Sleep;
    }
  }

  lemma QuietLife(s: Dio, e: Step)
    requires Inv(s) && Enabled(s, e) && Quiet(s, e)
    ensures Life(Apply(s, e))
  {
    QuietIs(s, e);
    hide Apply, Enabled, Quiet, Places, Counts, Sleep, Told, Asking;
  }

  lemma MakingLife(s: Dio)
    requires Counts(s) && Life(s) && Enabled(s, SubmitterStep) && !Quiet(s, SubmitterStep) && Makes(s.pc)
    ensures Life(Making(s))
  {
    hide Asked, ReapOver, Marked;
  }

  lemma WaitingLife(s: Dio)
    requires Counts(s) && Life(s) && Enabled(s, SubmitterStep) && !Makes(s.pc)
    ensures Life(Waiting(s))
  {
    hide AwaitMarked;
  }

  lemma OtherLife(s: Dio, e: Step)
    requires Counts(s) && Life(s) && Enabled(s, e) && !Quiet(s, e) && !e.SubmitterStep?
    ensures Life(Apply(s, e))
  {
    hide Submitter, Marked, Faulted;
  }

  lemma StepLife(s: Dio, e: Step)
    requires Inv(s) && Enabled(s, e)
    ensures Life(Apply(s, e))
  {
    hide Places, Counts, Sleep, Told, Asking, Life, Quiet, Making, Waiting;
    if Quiet(s, e) {
      QuietLife(s, e);
      hide Apply;
    } else if e.SubmitterStep? {
      if Makes(s.pc) { MakingLife(s); } else { WaitingLife(s); }
    } else {
      OtherLife(s, e);
      hide Apply;
    }
  }

  lemma ReapedAsking(s: Dio, last: Option<nat>)
    requires Asking(s) && s.report.ret <= 0 && s.pc == Reaping(last)
    ensures Asking(ReapOver(s, last))
  {
  }

  lemma MemoryAsking(s: Dio)
    requires Asking(s) && s.report.ret <= 0 && s.pc.Alloc?
    ensures Asking(OutOfMemory(s))
  {
  }

  lemma QuietAsking(s: Dio, e: Step)
    requires Asking(s) && Tells(s.report, s.processed) && Enabled(s, e) && Quiet(s, e)
    ensures Asking(Apply(s, e))
  {
    assert s.report.ret <= 0 by { ErrorsNegative(s.report, s.processed); }
    hide Added, Tells;
    if e.NoMemory? {
      MemoryAsking(s);
      hide Asking, OutOfMemory;
    } else if e.SubmitterStep? && s.pc.Reaping? {
      ReapedAsking(s, s.pc.last);
      hide Asking, ReapOver;
    } else {
      hide ReapOver, OutOfMemory, Waiting;
    }
  }

  lemma ErrorsNegative(r: Report, processed: set<nat>)
    requires Tells(r, processed)
    ensures r.ret <= 0
  {
  }

  lemma LoudAsking(s: Dio, e: Step)
    requires Asking(s) && Enabled(s, e) && !Quiet(s, e)
    ensures Asking(Apply(s, e))
  {
    if s.pc.Reaped? || s.pc.Awaited? { MarkedIs(s.report, s.pc.b); }
    if e.Release? { MarkedIs(s.report, e.b); }
    if !e.SubmitterStep? {
      hide Marked, Submitter;
    } else if Makes(s.pc) {
      hide Waiting, Asked, ReapOver, Marked;
    } else {
      hide Making, AwaitMarked;
    }
  }

  lemma StepAsking(s: Dio, e: Step)
    requires Asking(s) && Tells(s.report, s.processed) && Enabled(s, e)
    ensures Asking(Apply(s, e))
  {
    hide Apply, Enabled, Asking, Tells, Quiet;
    if Quiet(s, e) { QuietAsking(s, e); } else { LoudAsking(s, e); }
  }

  /** A bio being processed or ended was not processed before. */
  lemma NotProcessed(s: Dio, b: nat)
    requires Places(s) && (b in s.flying || b in s.ending || Holds(s.pc, b))
    ensures b !in s.processed && b < s.next
  {
    assert Copies(s, b) == Ord(b < s.next);
  }

  lemma MarkedTells(r: Report, processed: set<nat>, b: nat)
    requires Tells(r, processed) && b !in processed
    ensures Tells(Marked(r, b), processed + {b}) && Tells(AwaitMarked(r, b), processed + {b})
  {
    if b in r.faulty { assert b in processed + {b}; }
    assert r.awaited + {b} !! r.faulty <==> r.awaited !! r.faulty && b !in r.faulty;
  }

  lemma FaultedTells(r: Report, processed: set<nat>, b: nat)
    requires Tells(r, processed) && b !in processed
    ensures Tells(Faulted(r, b), processed)
  {
    assert processed !! r.faulty + {b} <==> processed !! r.faulty;
    assert r.awaited !! r.faulty + {b} <==> r.awaited !! r.faulty;
    assert r.lasts !! r.faulty + {b} <==> r.lasts !! r.faulty;
  }

  lemma LastTells(r: Report, processed: set<nat>, b: nat)
    requires Tells(r, processed) && b in processed
    ensures Tells(LastReaped(r, b), processed)
    ensures var t := LastReaped(r, b); t.told == r.told && t.faulty == r.faulty && t.result == r.result
  {
    assert r.lasts + {b} !! r.faulty <==> r.lasts !! r.faulty && b !in r.faulty;
  }

  /** The other entries that a quiet step makes. */
  lemma NoteTells(r: Report, processed: set<nat>, n: nat, err: int)
    requires Tells(r, processed)
    ensures Tells(Added(r, n), processed) && Added(r, n).told == r.told && Added(r, n).faulty == r.faulty
    ensures Tells(r.(told := Some(r.result)), processed)
    ensures err < 0 ==> Tells(r.(pageErrors := err), processed)
    ensures err < 0 ==> Tells(FailedWith(r, err), processed)
    ensures var t := FailedWith(r, err); t.told == r.told && t.faulty == r.faulty && t.result == r.result
  {
  }

  lemma FaultedIs(r: Report, b: nat)
    ensures Faulted(r, b).told == r.told && Faulted(r, b).faulty == r.faulty + {b} && Faulted(r, b).result == r.result
  {
  }

  lemma MarkedIs(r: Report, b: nat)
    ensures var t := Marked(r, b);
      t.told == r.told && t.faulty == r.faulty && t.counted == r.counted && t.ret == r.ret
        && t.pageErrors == r.pageErrors
    ensures var t := AwaitMarked(r, b);
      t.told == r.told && t.faulty == r.faulty && t.counted == r.counted && t.ret == r.ret
        && t.pageErrors == r.pageErrors
  {
  }

  /** Nobody touches the report once aio_complete has been given it. */
  lemma ToldLast(s: Dio)
    requires Inv(s) && s.completions > 0
    ensures s.pc.Gone? && s.flying == {} && s.ending == {}
  {
    CompletedLast(s);
  }

  lemma ReapedTold(s: Dio, last: Option<nat>)
    requires Told(s) && s.pc == Reaping(last)
    ensures Told(ReapOver(s, last))
  {
    if last.Some? { LastTells(s.report, s.processed, last.value); }
    hide Tells, LastReaped;
  }

  lemma MemoryTold(s: Dio)
    requires Told(s)
    ensures Told(OutOfMemory(s))
  {
    NoteTells(s.report, s.processed, 0, -ENOMEM);
    hide Tells, FailedWith;
  }

  /** A quiet step that makes an entry in the report. */
  lemma NotedTold(s: Dio, e: Step)
    requires Told(s) && Enabled(s, e)
    requires e.AddStep? || e.BreakStep? || e.FailStep? || e.PageFault?
    requires s.completions == 0
    ensures Told(Apply(s, e))
  {
    match e
    case AddStep => NoteTells(s.report, s.processed, s.plan.segs[0], -1); hide Tells, Added;
    case BreakStep(bytes, _) => NoteTells(s.report, s.processed, bytes, -1); hide Tells, Added;
    case FailStep(err) => NoteTells(s.report, s.processed, 0, err); hide Tells, FailedWith;
    case PageFault(err) => NoteTells(s.report, s.processed, 0, err); hide Tells;
  }

  lemma QuietTold(s: Dio, e: Step)
    requires Told(s) && Enabled(s, e) && Quiet(s, e) && s.completions == 0
    ensures Told(Apply(s, e))
  {
    if e.SubmitterStep? && s.pc.Reaping? {
      ReapedTold(s, s.pc.last);
    } else if e.NoMemory? {
      MemoryTold(s);
    } else if e.AddStep? || e.BreakStep? || e.FailStep? || e.PageFault? {
      NotedTold(s, e);
      hide Told, Apply;
    } else {
      hide Tells, ReapOver, OutOfMemory;
    }
  }

  lemma CompletedTold(s: Dio, b: nat, pc: Pc, r: Report)
    requires Told(s) && b < s.next && b !in s.processed && s.completions == 0
    requires r == Marked(s.report, b) || r == AwaitMarked(s.report, b)
    requires pc.Reaping? ==> pc.last == Some(b) || (pc == s.pc && (s.pc.last.Some? ==> s.pc.last.value in s.processed))
    ensures Told(Completed(s, b, pc, r))
  {
    MarkedTells(s.report, s.processed, b);
    MarkedIs(s.report, b);
    hide Tells, Marked, AwaitMarked;
  }

  lemma EndedTold(s: Dio, b: nat, uptodate: bool)
    requires Places(s) && Told(s) && b in s.flying && s.completions == 0
    ensures Told(Ended(s, b, uptodate))
  {
    NotProcessed(s, b);
    FaultedTells(s.report, s.processed, b);
    FaultedIs(s.report, b);
    hide Places, Tells, Faulted;
  }

  lemma OnwardTold(s: Dio)
    requires Told(s) && Enabled(s, SubmitterStep) && !Quiet(s, SubmitterStep) && !s.pc.Reaped? && !s.pc.Awaited?
    ensures Told(Submitter(s))
  {
    hide Tells;
    if Makes(s.pc) { hide Waiting, Asked, ReapOver, Completed; } else { hide Making, Completed; }
  }

  lemma ClosedTold(s: Dio)
    requires Told(s) && Enabled(s, Close)
    ensures Told(Apply(s, Close))
  {
    NoteTells(s.report, s.processed, 0, -1);
    hide Tells;
  }

  lemma LoudTold(s: Dio, e: Step)
    requires Places(s) && Told(s) && Enabled(s, e) && !Quiet(s, e)
    requires s.completions > 0 ==> s.pc.Gone? && s.flying == {} && s.ending == {}
    ensures Told(Apply(s, e))
  {
    if e.End? {
      EndedTold(s, e.b, e.uptodate);
      hide Told, Ended;
    } else if e.Release? {
      NotProcessed(s, e.b);
      CompletedTold(s, e.b, s.pc, Marked(s.report, e.b));
      hide Tells, Completed, Marked, Places;
    } else if e.SubmitterStep? && (s.pc.Reaped? || s.pc.Awaited?) {
      NotProcessed(s, s.pc.b);
      CompletedTold(s, s.pc.b, Apply(s, e).pc, Apply(s, e).report);
      hide Told, Completed, Marked, AwaitMarked, Places;
    } else if e.SubmitterStep? {
      OnwardTold(s);
      hide Told, Submitter, Places;
    } else {
      ClosedTold(s);
      hide Told, Places;
    }
  }

  lemma StepTold(s: Dio, e: Step)
    requires Inv(s) && Enabled(s, e)
    ensures Told(Apply(s, e))
  {
    if s.completions > 0 { ToldLast(s); }
    hide Counts, Sleep, Life, Places, Tells, Told, Apply;
    if Quiet(s, e) {
      QuietTold(s, e);
    } else {
      LoudTold(s, e);
    }
  }

  /** Every step keeps the invariant. */
  lemma StepInv(s: Dio, e: Step)
    requires Inv(s) && Enabled(s, e)
    ensures Inv(Apply(s, e))
  {
    StepPlaces(s, e);
    StepCounts(s, e);
    StepSleep(s, e);
    StepLife(s, e);
    StepAsking(s, e);
    StepTold(s, e);
    hide Apply, Enabled, Places, Counts, Sleep, Life, Asking, Told;
  }

  /** Asynchronous completion waits for the submitter and for every bio. */
  lemma CompletedLast(s: Dio)
    requires Inv(s) && (s.completions > 0 || s.frees > 0)
    ensures s.pc.Gone? && s.plan.left == 0 && s.flying == {} && s.ending == {} && s.bioList == []
    ensures s.completions <= 1 && s.frees <= 1
  {
    assert s.bioCount == 0;
    hide Places;
  }

  /** Nothing touches the dio once it is freed: no step is left. */
  lemma NothingAfterFree(s: Dio, e: Step)
    requires Inv(s) && s.frees > 0
    ensures !Enabled(s, e)
  {
    CompletedLast(s);
  }

  /** Until then something can always happen; in particular a sleeper has a bio in flight. */
  lemma SomethingToDo(s: Dio) returns (e: Step)
    requires Inv(s) && s.frees == 0
    ensures Enabled(s, e)
  {
    hide Places;
    if s.flying != {} {
      var b :| b in s.flying;
      e := End(b, true);
    } else if s.ending != {} {
      var b :| b in s.ending;
      e := Release(b);
    } else if s.closing == Completing || s.closing == Freeing {
      e := Close;
    } else if s.pc == Work && !s.plan.hasBio && s.plan.left == 0 {
      e := if s.plan.segs != [] then AddStep else if !s.plan.zeroed then ZeroStep else FinishStep;
    } else if s.pc.Broken? {
      e := BreakStep(0, 0);
    } else {
      e := SubmitterStep;
    }
  }

  /** How far a bio in the submitter's hands, and the submitter itself, are from the end. */
  function Rank(pc: Pc, empty: bool): nat {
    match pc
    case Work => 20
    case Reaping(_) => 15
    case Reaped(_) => 16
    case Alloc => 14
    case CountBio(_) => 39
    case CountFlight(_) => 38
    case SubmitBio(_) => 37
    case Broken => 13
    case Drop => 8
    case Test => 4
    case Look => if empty then 3 else 1
    case Asleep => 2
    case Awaited(_) => 8
    case Free => 1
    case Gone => 0
  }

  /** What is still to be made and walked. */
  function Ahead(p: Plan, r: Report): nat {
    27 * p.left + 20 * Ord(p.hasBio) + 8 * |p.segs| + Ord(!p.zeroed) + Ord(r.pageErrors == 0)
  }

  function Measure(s: Dio): nat {
    Ahead(s.plan, s.report) + 16 * |s.flying| + 12 * |s.ending| + 12 * |s.bioList| + Rank(s.pc, s.bioList == [])
    + (match s.closing case Open => 3 case Completing => 2 case Freeing => 1 case Closed => 0)
  }

  function Effort(p: Plan, r: Report, pc: Pc, empty: bool): nat {
    Ahead(p, r) + Rank(pc, empty)
  }

  lemma QuietEffort(s: Dio, e: Step, empty: bool)
    requires Asking(s) && Enabled(s, e) && Quiet(s, e)
    ensures var t := Apply(s, e); Effort(t.plan, t.report, t.pc, empty) < Effort(s.plan, s.report, s.pc, empty)
  {
    if e.SubmitterStep? && s.pc.Reaping? {
      ReapedEffort(s, s.pc.last, empty);
      hide ReapOver, Effort;
    } else if e.NoMemory? {
      MemoryEffort(s, empty);
      hide OutOfMemory, Effort;
    } else {
      hide ReapOver, OutOfMemory, Failing;
    }
  }

  lemma ReapedEffort(s: Dio, last: Option<nat>, empty: bool)
    requires s.pc.Reaping? && s.plan.left > 0
    ensures var t := ReapOver(s, last); Effort(t.plan, t.report, t.pc, empty) < Effort(s.plan, s.report, s.pc, empty)
  {
    if last.Some? { LastReapedIs(s.report, last.value); }
    hide LastReaped;
  }

  lemma MemoryEffort(s: Dio, empty: bool)
    requires s.pc.Alloc? && s.plan.left > 0
    ensures var t := OutOfMemory(s); Effort(t.plan, t.report, t.pc, empty) < Effort(s.plan, s.report, s.pc, empty)
  {
  }

  lemma QuietDescends(s: Dio, e: Step)
    requires Asking(s) && Enabled(s, e) && Quiet(s, e)
    ensures Measure(Apply(s, e)) < Measure(s)
  {
    QuietIs(s, e);
    QuietEffort(s, e, s.bioList == []);
    hide Apply, Enabled, Quiet, Ahead, Rank;
  }

  lemma EndedDescends(s: Dio, b: nat, uptodate: bool)
    requires Inv(s) && b in s.flying
    ensures Measure(Ended(s, b, uptodate)) < Measure(s)
  {
    assert b !in s.ending by { assert Copies(s, b) <= 1; }
    hide Places, Copies, Counts, Sleep, Told;
    assert |s.flying - {b}| == |s.flying| - 1 && |s.ending + {b}| == |s.ending| + 1;
  }

  lemma SubmitBioDescends(s: Dio)
    requires s.pc.SubmitBio? && s.pc.b !in s.flying
    ensures Measure(Submitter(s)) < Measure(s)
  {
    assert |s.flying + {s.pc.b}| == |s.flying| + 1;
  }

  lemma WorkerDescends(s: Dio)
    requires Sleep(s) && Life(s) && Enabled(s, SubmitterStep) && !Quiet(s, SubmitterStep) && !s.pc.SubmitBio?
    ensures Measure(Submitter(s)) < Measure(s)
  {
    if s.pc.Reaped? || s.pc.Awaited? { MarkedIs(s.report, s.pc.b); }
    hide Marked, AwaitMarked, Asked, ReapOver;
  }

  lemma OtherDescends(s: Dio, e: Step)
    requires Life(s) && Enabled(s, e) && (e.Release? || e.Close?)
    ensures Measure(Apply(s, e)) < Measure(s)
  {
    if e.Release? { MarkedIs(s.report, e.b); }
    hide Marked;
  }

  /** Every step brings the end nearer; so the wait loop of dio_await_completion ends. */
  lemma StepDescends(s: Dio, e: Step)
    requires Inv(s) && Enabled(s, e)
    ensures Measure(Apply(s, e)) < Measure(s)
  {
    if s.pc.SubmitBio? {
      assert s.pc.b !in s.flying by { assert Copies(s, s.pc.b) <= 1; }
    }
    hide Places, Copies, Counts, Sleep, Told, Life, Asking, Measure, Submitter, Ended;
    if Quiet(s, e) {
      QuietDescends(s, e);
    } else if e.SubmitterStep? {
      if s.pc.SubmitBio? { SubmitBioDescends(s); } else { WorkerDescends(s); }
    } else if e.End? {
      EndedDescends(s, e.b, e.uptodate);
    } else {
      OtherDescends(s, e);
    }
  }

  /** A run: steps that could be taken, one after the other. */
  ghost predicate Runs(s: Dio, es: seq<Step>)
    decreases |es|
  {
    es == [] || (Enabled(s, es[0]) && Runs(Apply(s, es[0]), es[1..]))
  }

  function Sum(l: seq<nat>): nat {
    if l == [] then 0 else l[0] + Sum(l[1..])
  }

  ghost function After(s: Dio, es: seq<Step>): Dio
    requires Runs(s, es)
    decreases |es|
  {
    if es == [] then s else After(Apply(s, es[0]), es[1..])
  }

  /** The bios made and to be made. */
  function Bios(s: Dio): nat {
    s.next + s.plan.left + Ord(s.plan.hasBio)
  }

  /** The bytes added and to be added. */
  function Bytes(s: Dio): nat {
    s.report.counted + Sum(s.plan.segs)
  }

  /** Neither grows; no bytes are given up unless an error is on record. */
  ghost predicate Shrinks(s: Dio, t: Dio) {
    && t.isAsync == s.isAsync && Bios(t) <= Bios(s) && Bytes(t) <= Bytes(s)
    && (t.report.ret == 0 ==> s.report.ret == 0 && Bytes(t) == Bytes(s))
  }

  /** What a step that moves a bio does to the numbers. */
  lemma LoudIs(s: Dio, e: Step)
    requires Enabled(s, e) && !Quiet(s, e)
    ensures var t := Apply(s, e);
      && t.isAsync == s.isAsync && t.report.counted == s.report.counted && t.report.ret == s.report.ret
      && ((t.plan == s.plan && t.next == s.next)
          || (s.plan.hasBio && t.plan == s.plan.(hasBio := false) && t.next == s.next + 1))
      && (Smooth(e) ==> t.report.faulty == s.report.faulty)
  {
    if e.SubmitterStep? {
      LoudSubmitterIs(s);
      hide Submitter;
    } else {
      if e.Release? { MarkedIs(s.report, e.b); }
      hide Marked, Submitter;
    }
  }

  lemma CompletedIs(s: Dio, b: nat, pc: Pc, r: Report)
    ensures var t := Completed(s, b, pc, r);
      t.isAsync == s.isAsync && t.plan == s.plan && t.next == s.next && t.report == r
  {
  }

  lemma LoudSubmitterIs(s: Dio)
    requires Enabled(s, SubmitterStep) && !Quiet(s, SubmitterStep)
    ensures var t := Submitter(s);
      && t.isAsync == s.isAsync && t.report.counted == s.report.counted && t.report.ret == s.report.ret
      && ((t.plan == s.plan && t.next == s.next)
          || (s.plan.hasBio && t.plan == s.plan.(hasBio := false) && t.next == s.next + 1))
      && t.report.faulty == s.report.faulty
  {
    if s.pc.Reaped? {
      MarkedIs(s.report, s.pc.b);
      CompletedIs(s, s.pc.b, Reaping(Some(s.pc.b)), Marked(s.report, s.pc.b));
    } else if s.pc.Awaited? {
      MarkedIs(s.report, s.pc.b);
      CompletedIs(s, s.pc.b, Test, AwaitMarked(s.report, s.pc.b));
    }
    if Makes(s.pc) {
      hide Waiting, Marked, Asked, ReapOver, Completed;
    } else {
      hide Making, AwaitMarked, Completed;
    }
  }

  /** What asking for a bio does to them. */
  lemma AskedIs(s: Dio, e: Step)
    requires Asking(s) && Enabled(s, e) && (e.SubmitterStep? || e.NoMemory?) && Quiet(s, e)
    ensures var t := Apply(s, e);
      && t.report.counted == s.report.counted && t.report.since == s.report.since
      && t.report.faulty == s.report.faulty && t.plan.segs == s.plan.segs
      && t.plan.left + Ord(t.plan.hasBio) <= s.plan.left + Ord(s.plan.hasBio)
      && (t.report.ret == 0 ==> s.report.ret == 0)
      && (s.report.faulty == {} && Smooth(e) ==>
            t.report.ret == s.report.ret
            && t.plan.left + Ord(t.plan.hasBio) == s.plan.left + Ord(s.plan.hasBio))
  {
    if e.SubmitterStep? && s.pc.Reaping? {
      ReapedIs(s, s.pc.last);
      hide ReapOver;
    } else {
      hide ReapOver;
    }
  }

  lemma LastReapedIs(r: Report, b: nat)
    ensures var t := LastReaped(r, b);
      && t.counted == r.counted && t.since == r.since && t.pageErrors == r.pageErrors && t.faulty == r.faulty
      && (t.ret == 0 ==> r.ret == 0)
      && (b !in r.faulty ==> t.ret == r.ret)
  {
  }

  lemma ReapedIs(s: Dio, last: Option<nat>)
    ensures var t := ReapOver(s, last);
      && t.report.counted == s.report.counted && t.report.since == s.report.since
      && t.report.faulty == s.report.faulty && t.plan.segs == s.plan.segs
      && t.plan.left <= s.plan.left && t.plan.hasBio == s.plan.hasBio && (t.report.ret == 0 ==> s.report.ret == 0)
      && (s.report.faulty == {} ==> t.report.ret == s.report.ret && t.plan.left == s.plan.left)
  {
    if last.Some? { LastReapedIs(s.report, last.value); }
    hide LastReaped;
  }

  lemma QuietShrinks(s: Dio, e: Step)
    requires Asking(s) && Enabled(s, e) && Quiet(s, e)
    ensures Shrinks(s, Apply(s, e))
  {
    QuietIs(s, e);
    if e.SubmitterStep? || e.NoMemory? {
      AskedIs(s, e);
      hide Apply, Quiet, Enabled, Sum;
    } else {
      var l := s.plan.segs;
      assert l != [] ==> Sum(l) == l[0] + Sum(l[1..]);
      assert Sum([]) == 0;
      hide Sum, Submitter, OutOfMemory;
    }
  }

  lemma LoudShrinks(s: Dio, e: Step)
    requires Enabled(s, e) && !Quiet(s, e)
    ensures Shrinks(s, Apply(s, e))
  {
    LoudIs(s, e);
    hide Apply, Enabled, Quiet, Sum;
  }

  lemma StepShrinks(s: Dio, e: Step)
    requires Asking(s) && Enabled(s, e)
    ensures Shrinks(s, Apply(s, e))
  {
    hide Apply, Enabled, Asking, Shrinks;
    if Quiet(s, e) {
      QuietShrinks(s, e);
    } else {
      LoudShrinks(s, e);
    }
  }

  lemma {:induction false} RunKeeps(s: Dio, es: seq<Step>)
    requires Inv(s) && Runs(s, es)
    ensures Inv(After(s, es)) && |es| + Measure(After(s, es)) <= Measure(s) && Shrinks(s, After(s, es))
    decreases |es|
  {
    if es != [] {
      StepInv(s, es[0]);
      StepDescends(s, es[0]);
      StepShrinks(s, es[0]);
      hide Inv, Measure, Apply, Enabled, Bios, Bytes;
      RunKeeps(Apply(s, es[0]), es[1..]);
    }
  }

  /**
   Whatever the order in which bios end and whatever fails: a request that asks for up to n
   bios comes to a stop within a fixed number of steps, and when it has, every bio submitted
   has been processed once, the dio has been freed once, and an asynchronous request has been
   completed once.
   */
  lemma EveryRunEnds(isAsync: bool, n: nat, segs: seq<nat>, es: seq<Step>)
    requires Runs(Init(isAsync, n, segs), es)
    ensures |es| <= 27 * n + 8 * |segs| + 25
    ensures var t := After(Init(isAsync, n, segs), es);
      && t.next <= n
      && ((forall e :: !Enabled(t, e)) <==>
          t.frees == 1 && t.completions == Ord(isAsync) && forall b: nat :: b in t.processed <==> b < t.next)
  {
    var s, t := Init(isAsync, n, segs), After(Init(isAsync, n, segs), es);
    InitInv(isAsync, n, segs);
    RunKeeps(s, es);
    assert Measure(s) == 27 * n + 8 * |segs| + 25;
    if t.frees == 0 {
      var e := SomethingToDo(t);
      assert Enabled(t, e);
    } else {
      CompletedLast(t);
      forall e ensures !Enabled(t, e) {
        NothingAfterFree(t, e);
      }
      forall b: nat ensures b in t.processed <==> b < t.next {
        assert Copies(t, b) == Ord(b < t.next);
      }
    }
  }

  /** When the dio is freed all bios are processed, so that every faulty one is, and all bytes are counted. */
  lemma AtTheEnd(isAsync: bool, n: nat, segs: seq<nat>, es: seq<Step>)
    requires Runs(Init(isAsync, n, segs), es) && After(Init(isAsync, n, segs), es).frees == 1
    ensures var t := After(Init(isAsync, n, segs), es);
      && Told(t) && t.report.counted <= Sum(segs) && (t.report.ret == 0 ==> t.report.counted == Sum(segs))
      && t.completions == Ord(isAsync) && t.plan.left == 0 && !t.plan.hasBio
      && (t.processed !! t.report.faulty <==> t.report.faulty == {})
  {
    var s, t := Init(isAsync, n, segs), After(Init(isAsync, n, segs), es);
    InitInv(isAsync, n, segs);
    RunKeeps(s, es);
    CompletedLast(t);
    forall b | b in t.report.faulty ensures b in t.processed {
      assert Copies(t, b) == Ord(b < t.next);
    }
    assert t.report.faulty == {} ==> t.processed !! t.report.faulty;
  }

  /** No bio ends with an error, and walk and last send have no other error. */
  predicate Smooth(e: Step) {
    !e.NoMemory? && !e.FailStep? && (e.End? ==> e.uptodate)
  }

  ghost predicate Untroubled(s: Dio) {
    s.report.faulty == {} && s.report.ret == 0
  }

  lemma SmoothStep(s: Dio, e: Step)
    requires Asking(s) && Untroubled(s) && Enabled(s, e) && Smooth(e)
    ensures Untroubled(Apply(s, e)) && Bios(Apply(s, e)) == Bios(s)
  {
    if !Quiet(s, e) {
      LoudIs(s, e);
      hide Apply, Enabled, Quiet;
    } else {
      QuietIs(s, e);
      if e.SubmitterStep? {
        AskedIs(s, e);
        hide Apply, Quiet, Enabled;
      } else {
        hide Submitter;
      }
    }
  }

  lemma {:induction false} SmoothRun(s: Dio, es: seq<Step>)
    requires Inv(s) && Untroubled(s) && Runs(s, es) && forall i :: 0 <= i < |es| ==> Smooth(es[i])
    ensures Untroubled(After(s, es)) && Bios(After(s, es)) == Bios(s)
    decreases |es|
  {
    if es != [] {
      assert Smooth(es[0]);
      SmoothStep(s, es[0]);
      StepInv(s, es[0]);
      hide Inv, Untroubled, Bios, Apply, Enabled, Smooth;
      RunKeeps(s, []);
      SmoothRun(Apply(s, es[0]), es[1..]);
    }
  }

  /** When nothing fails all n bios are submitted, and all bytes are in the result. */
  lemma AllMade(isAsync: bool, n: nat, segs: seq<nat>, es: seq<Step>)
    requires Runs(Init(isAsync, n, segs), es) && After(Init(isAsync, n, segs), es).frees == 1
    requires forall i :: 0 <= i < |es| ==> Smooth(es[i])
    ensures var t := After(Init(isAsync, n, segs), es);
      t.next == n && t.report.faulty == {} && t.report.result == Sum(segs)
  {
    AtTheEnd(isAsync, n, segs, es);
    InitInv(isAsync, n, segs);
    SmoothRun(Init(isAsync, n, segs), es);
  }

  /** No wakeup is lost and none is early: the end of the last bio in flight wakes the sleeper, and no other does. */
  lemma SleeperWakes(s: Dio)
    requires Inv(s) && s.pc.Asleep?
    ensures s.running <==> s.flying == {}
    ensures forall b, ok :: b in s.flying ==> (Ended(s, b, ok).running <==> s.flying == {b})
  {
    forall b, ok | b in s.flying ensures Ended(s, b, ok).running <==> s.flying == {b} {
      assert |s.flying - {b}| == |s.flying| - 1;
      assert |s.flying| == 1 ==> s.flying - {b} == {};
    }
  }
}
