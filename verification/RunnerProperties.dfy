/**
 The promises of the runner, each stated over every execution: `ss` are the states
 of the execution, `ls` the steps between them.
 */
module RunnerProperties {
  import opened Options
  import opened RunnerTypes
  import opened RunnerModel
  import opened RunnerInvariant
  import opened RunnerProof
  import opened RunnerEnqueue
  import opened RunnerResults
  import opened RunnerTheorems

  // ---------------------------------------------------------------- results and "done"

  /** The step that writes "done" finds the run complete and its counter at the total. */
  lemma DoneIsEarned(ss: seq<State>, ls: seq<Label>, i: nat, r: RunId)
    requires IsTrace(ss, ls) && i < |ls|
    requires r in ss[i + 1].rows && ss[i + 1].rows[r].status.Done? && !(r in ss[i].rows && ss[i].rows[r].status.Done?)
    ensures ls[i].LFinWrite? && AtFin(ss[i], ls[i].a)
    ensures var c := ss[i].pcs[ls[i].a].claim;
            && c.run == r && r in ss[i].aux.reqs && AllOk(ss[i], r)
            && c.done == c.total == |ss[i].aux.reqs[r].targets|
  {
    TraceKeeps(ss, ls, i);
    var s, l, s' := ss[i], ls[i], ss[i + 1];
    assert Step(s, l, s');
    OnlyFinishersFinish(s, l, s', r);
    assert PcInv(s, l.a, s.pcs[l.a]);
  }

  /** The step of `a` touches no row, moves no job and loses no run. */
  ghost predicate Plain(s: State, s': State, a: Agent) {
    && (forall b :: b != a ==> PcOf(s', b) == PcOf(s, b))
    && SameHand(PcOf(s, a), PcOf(s', a)) && s'.sh.chans == s.sh.chans
    && s'.rows == s.rows && s'.aux.lost == s.aux.lost && s'.aux.fullLost == s.aux.fullLost
    && s'.sh.workers == s.sh.workers
  }

  lemma PlainLocks(s: State, s': State, a: Agent)
    requires EnqLock(s, s', a) || EnqBegin(s, s', a) || EnqUnlock(s, s', a)
    ensures Plain(s, s', a)
  {
  }

  lemma PlainOrphans(s: State, s': State, a: Agent)
    requires OrphanLock(s, s', a) || OrphanCheck(s, s', a)
    ensures Plain(s, s', a)
  {
  }

  lemma PlainEnds(s: State, s': State, a: Agent)
    requires FinPublish(s, s', a) || FinEnd(s, s', a)
    ensures Plain(s, s', a)
  {
  }

  lemma PlainShutdown(s: State, s': State, a: Agent)
    requires ShutCall(s, s', a) || ShutClaim(s, s', a)
    ensures Plain(s, s', a)
  {
  }

  lemma PlainReads(s: State, s': State, a: Agent, fails: bool)
    requires EnqDedupe(s, s', a, fails) || OrphanRead(s, s', a, fails)
    ensures Plain(s, s', a)
  {
  }

  lemma PlainStart(s: State, s': State)
    requires StartRunner(s, s')
    ensures Plain(s, s', Caller(0))
  {
  }

  lemma PlainCancel(s: State, s': State, a: Agent, r: RunId)
    requires CancelCall(s, s', a, r)
    ensures Plain(s, s', a)
  {
  }

  lemma PlainMarkAll(s: State, s': State, a: Agent, stuck: seq<RunId>)
    requires ShutMark(s, s', a, stuck)
    ensures Plain(s, s', a)
  {
  }

  lemma PlainCalls(s: State, s': State, a: Agent, req: Request, r: RunId, stuck: seq<RunId>)
    requires EnqCall(s, s', a, req) || CancelCall(s, s', a, r) || ShutMark(s, s', a, stuck)
    ensures Plain(s, s', a)
  {
    if EnqCall(s, s', a, req) {
    } else if CancelCall(s, s', a, r) {
      hide CancelCall;
      PlainCancel(s, s', a, r);
    } else {
      hide ShutMark;
      PlainMarkAll(s, s', a, stuck);
    }
  }

  lemma PlainWaits(s: State, s': State, a: Agent, w: Wake)
    requires ShutWait(s, s', a, w) || ShutDrain(s, s', a, w)
    ensures Plain(s, s', a)
  {
  }

  lemma PlainStages(s: State, s': State, q: QueueId)
    requires WorkerExit(s, s', q) || ReadDoneCount(s, s', q) || PublishRunning(s, s', q)
    ensures Plain(s, s', Worker(q))
  {
  }

  lemma PlainTurns(s: State, s': State, q: QueueId)
    requires LoopStep(s, s', q) || AfterRow(s, s', q)
    ensures Plain(s, s', Worker(q))
  {
  }

  lemma PlainMarks(s: State, s': State, q: QueueId)
    requires MarkStep(s, s', q) || Panic(s, s', q)
    ensures Plain(s, s', Worker(q))
  {
  }

  lemma PlainWork(s: State, s': State, q: QueueId)
    requires || WorkerExit(s, s', q) || ReadDoneCount(s, s', q) || PublishRunning(s, s', q) || LoopStep(s, s', q)
             || AfterRow(s, s', q) || MarkStep(s, s', q) || Panic(s, s', q)
    ensures Plain(s, s', Worker(q))
  {
    hide Plain, WorkerExit, ReadDoneCount, PublishRunning, LoopStep, AfterRow, MarkStep, Panic;
    if LoopStep(s, s', q) || AfterRow(s, s', q) {
      PlainTurns(s, s', q);
    } else if MarkStep(s, s', q) || Panic(s, s', q) {
      PlainMarks(s, s', q);
    } else {
      PlainStages(s, s', q);
    }
  }

  lemma PlainRows(s: State, s': State, q: QueueId, out: RowOutcome, fails: bool)
    requires EngineStep(s, s', q, out) || PanicStoreStep(s, s', q, fails)
    ensures Plain(s, s', Worker(q))
  {
  }

  /** The steps that write rows, move jobs or lose runs. */
  predicate Notable(l: Label) {
    || l.LEnqCreate? || l.LWriteRunning? || l.LFinWrite? || l.LFinPanic?
    || l.LEnqRegister? || l.LDequeue? || l.LExecBegin? || l.LFinish?
  }

  lemma OtherStepsArePlain(s: State, l: Label, s': State) returns (a: Agent)
    requires Step(s, l, s') && !Notable(l)
    ensures Plain(s, s', a)
  {
    hide Plain, StartRunner, EnqCall, EnqLock, EnqDedupe, EnqBegin, EnqUnlock, CancelCall, OrphanLock, OrphanCheck, OrphanRead,
         WorkerExit, ReadDoneCount, PublishRunning, LoopStep, EngineStep, AfterRow, MarkStep, Panic, PanicStoreStep,
         FinPublish, FinEnd, ShutCall, ShutWait, ShutMark, ShutDrain, ShutClaim;
    match l
    case LStart => a := Caller(0); PlainStart(s, s');
    case LEnqCall(x, req) => a := x; PlainCalls(s, s', x, req, 0, []);
    case LCancel(x, r) => a := x; PlainCalls(s, s', x, Request([], None), r, []);
    case LShutMark(x, stuck) => a := x; PlainCalls(s, s', x, Request([], None), 0, stuck);
    case LEnqLock(x) => a := x; PlainLocks(s, s', x);
    case LEnqBegin(x) => a := x; PlainLocks(s, s', x);
    case LEnqUnlock(x) => a := x; PlainLocks(s, s', x);
    case LOrphanLock(x) => a := x; PlainOrphans(s, s', x);
    case LOrphanCheck(x) => a := x; PlainOrphans(s, s', x);
    case LEnqDedupe(x, fails) => a := x; PlainReads(s, s', x, fails);
    case LOrphanRead(x, fails) => a := x; PlainReads(s, s', x, fails);
    case LFinPublish(x) => a := x; PlainEnds(s, s', x);
    case LFinEnd(x) => a := x; PlainEnds(s, s', x);
    case LShutCall(x) => a := x; PlainShutdown(s, s', x);
    case LShutClaim(x) => a := x; PlainShutdown(s, s', x);
    case LShutWait(x, w) => a := x; PlainWaits(s, s', x, w);
    case LShutDrain(x, w) => a := x; PlainWaits(s, s', x, w);
    case LWorkerExit(q) => a := Worker(q); PlainWork(s, s', q);
    case LReadDone(q) => a := Worker(q); PlainWork(s, s', q);
    case LPublishRunning(q) => a := Worker(q); PlainWork(s, s', q);
    case LLoop(q) => a := Worker(q); PlainWork(s, s', q);
    case LAfterRow(q) => a := Worker(q); PlainWork(s, s', q);
    case LMark(q) => a := Worker(q); PlainWork(s, s', q);
    case LPanic(q) => a := Worker(q); PlainWork(s, s', q);
    case LEngine(q, out) => a := Worker(q); PlainRows(s, s', q, out, false);
    case LPanicStore(q, fails) => a := Worker(q); PlainRows(s, s', q, NoRow, fails);
  }

  lemma RowWriters(s: State, s': State, a: Agent, q: QueueId, fails: bool, r: RunId)
    requires EnqCreate(s, s', a, fails, r) || WriteRunning(s, s', q, fails)
    ensures SameJobs(s, s') && s'.sh.chans == s.sh.chans && s'.aux.lost == s.aux.lost && s'.aux.fullLost == s.aux.fullLost
    ensures s'.sh.workers == s.sh.workers
  {
  }

  lemma FinisherJobs(s: State, s': State, a: Agent, fails: bool)
    requires FinWrite(s, s', a, fails) || FinPanic(s, s', a)
    ensures SameJobs(s, s') && s'.sh.chans == s.sh.chans && (FinPanic(s, s', a) ==> s'.rows == s.rows)
    ensures s'.sh.workers == s.sh.workers
  {
  }

  lemma JobSenders(s: State, s': State, a: Agent)
    requires EnqRegister(s, s', a)
    ensures s'.rows == s.rows && s'.aux.lost == s.aux.lost && s'.aux.fullLost == s.aux.fullLost
  {
    hide RegisterSection;
  }

  lemma TakeMoves(s: State, s': State, q: QueueId)
    requires Dequeue(s, s', q)
    ensures s'.sh.workers == s.sh.workers && s'.rows == s.rows && s'.aux.lost == s.aux.lost && s'.aux.fullLost == s.aux.fullLost
  {
  }

  lemma ExecMoves(s: State, s': State, q: QueueId)
    requires ExecBegin(s, s', q)
    ensures s'.rows == s.rows && s'.aux == s.aux && s'.sh.chans == s.sh.chans && s'.sh.workers == s.sh.workers
  {
  }

  lemma FinishMoves(s: State, s': State, q: QueueId)
    requires FinishStep(s, s', q)
    ensures s'.rows == s.rows && s'.aux == s.aux && s'.sh.chans == s.sh.chans && s'.sh.workers == s.sh.workers
    ensures forall a :: a != Worker(q) ==> PcOf(s', a) == PcOf(s, a)
    ensures At(s, q) && !At(s', q)
    ensures var r := JobAt(s, q).run; r in s'.sh.runs ==> r in s.sh.runs && s'.sh.runs[r].pending == s.sh.runs[r].pending - 1
  {
  }

  lemma NotableSteps(s: State, l: Label, s': State)
    requires Step(s, l, s') && Notable(l)
    ensures Footprint(s, l, s')
  {
    hide Step, Footprint;
    if l.LEnqCreate? || l.LWriteRunning? || l.LFinWrite? || l.LFinPanic? {
      NotableRows(s, l, s');
    } else {
      NotableJobs(s, l, s');
    }
  }

  lemma NotableRows(s: State, l: Label, s': State)
    requires Step(s, l, s') && (l.LEnqCreate? || l.LWriteRunning? || l.LFinWrite? || l.LFinPanic?)
    ensures Footprint(s, l, s')
  {
    hide EnqCreate, WriteRunning, FinWrite, FinPanic, SameJobs;
    match l
    case LEnqCreate(a, fails, r) => RowWriters(s, s', a, 0, fails, r);
    case LWriteRunning(q, fails) => RowWriters(s, s', Worker(q), q, fails, 0);
    case LFinWrite(a, fails) => FinisherJobs(s, s', a, fails);
    case LFinPanic(a) => FinisherJobs(s, s', a, false);
  }

  lemma NotableJobs(s: State, l: Label, s': State)
    requires Step(s, l, s') && (l.LEnqRegister? || l.LDequeue? || l.LExecBegin? || l.LFinish?)
    ensures Footprint(s, l, s')
  {
    hide EnqRegister, Dequeue, ExecBegin, FinishStep, SameJobs;
    match l
    case LEnqRegister(a) => JobSenders(s, s', a);
    case LDequeue(q) => TakeMoves(s, s', q);
    case LExecBegin(q) => ExecMoves(s, s', q);
    case LFinish(q) => FinishMoves(s, s', q);
  }

  /** Which steps touch the rows, the jobs, the channels and the record of lost runs. */
  ghost predicate Footprint(s: State, l: Label, s': State) {
    && (!l.LEnqCreate? && !l.LWriteRunning? && !l.LFinWrite? ==> s'.rows == s.rows)
    && (!l.LEnqRegister? && !l.LDequeue? && !l.LExecBegin? && !l.LFinish? ==> SameJobs(s, s'))
    && (!l.LFinWrite? && !l.LFinPanic? ==> s'.aux.lost == s.aux.lost && s'.aux.fullLost == s.aux.fullLost)
    && (!l.LEnqRegister? && !l.LDequeue? ==> s'.sh.chans == s.sh.chans)
    && (!l.LEnqRegister? ==> s'.sh.workers == s.sh.workers)
  }

  lemma StepFootprint(s: State, l: Label, s': State)
    requires Step(s, l, s')
    ensures Footprint(s, l, s')
  {
    hide Step;
    if Notable(l) {
      NotableSteps(s, l, s');
    } else {
      var a := OtherStepsArePlain(s, l, s');
      OthersStay(s, s', a);
    }
  }

  /** Only a finisher's write makes a row terminal, and it writes its claim's status. */
  lemma OnlyFinishersFinish(s: State, l: Label, s': State, r: RunId)
    requires Step(s, l, s')
    requires r in s'.rows && s'.rows[r].status.Terminal() && !(r in s.rows && s.rows[r] == s'.rows[r])
    ensures l.LFinWrite? && AtFin(s, l.a) && s.pcs[l.a].claim.run == r && s.pcs[l.a].claim.status == s'.rows[r].status
  {
    if !l.LEnqCreate? && !l.LWriteRunning? && !l.LFinWrite? {
      hide Step;
      StepFootprint(s, l, s');
    }
  }

  /** A run shown as "done" stays complete. */
  lemma DoneStaysComplete(ss: seq<State>, ls: seq<Label>, i: nat, r: RunId)
    requires IsTrace(ss, ls) && i < |ss|
    requires r in ss[i].aux.reqs && r in ss[i].rows && ss[i].rows[r].status.Done?
    ensures AllOk(ss[i], r)
  {
    TraceKeeps(ss, ls, i);
  }

  /** No occurrence ever gets a second result row. */
  lemma OneRowPerOccurrence(ss: seq<State>, ls: seq<Label>, i: nat, o: Occurrence)
    requires IsTrace(ss, ls) && i < |ss|
    ensures |Get(ss[i].results, o)| <= 1
  {
    TraceKeeps(ss, ls, i);
  }

  // ---------------------------------------------------------------- the right to finish a run

  /** At most one agent answers for a run, and none while the run is tracked. */
  lemma ClaimIsExclusive(ss: seq<State>, ls: seq<Label>, i: nat, a: Agent, b: Agent, r: RunId)
    requires IsTrace(ss, ls) && i < |ss|
    requires a in ss[i].pcs && b in ss[i].pcs && Holds(ss[i].pcs[a], r)
    ensures Holds(ss[i].pcs[b], r) ==> a == b
    ensures r !in ss[i].sh.runs
  {
    TraceKeeps(ss, ls, i);
    assert PcInv(ss[i], a, ss[i].pcs[a]);
  }

  /** A terminal row is final: no step changes it, and nobody is about to write it again. */
  lemma TerminalIsFinal(ss: seq<State>, ls: seq<Label>, i: nat, r: RunId)
    requires IsTrace(ss, ls) && i < |ls|
    requires r in ss[i].rows && ss[i].rows[r].status.Terminal()
    ensures r in ss[i + 1].rows && ss[i + 1].rows[r] == ss[i].rows[r]
    ensures forall a :: a in ss[i].pcs ==> !Writing(ss[i].pcs[a], r)
  {
    TraceKeeps(ss, ls, i);
    assert Step(ss[i], ls[i], ss[i + 1]);
    forall a | a in ss[i].pcs ensures !Writing(ss[i].pcs[a], r) {
      assert PcInv(ss[i], a, ss[i].pcs[a]);
    }
    TerminalRowsStay(ss[i], ls[i], ss[i + 1], r);
  }

  lemma TerminalRowsStay(s: State, l: Label, s': State, r: RunId)
    requires Step(s, l, s') && r in s.rows && s.rows[r].status.Terminal()
    ensures r in s'.rows && s'.rows[r] == s.rows[r]
  {
    if !l.LEnqCreate? && !l.LWriteRunning? && !l.LFinWrite? {
      hide Step;
      StepFootprint(s, l, s');
    }
  }

  /** SetRunStatus never refuses a terminal write of the runner. */
  lemma TerminalWriteNeverRefused(ss: seq<State>, ls: seq<Label>, i: nat)
    requires IsTrace(ss, ls) && i < |ls| && ls[i].LFinWrite? && AtFin(ss[i], ls[i].a)
    ensures var c := ss[i].pcs[ls[i].a].claim; SetRunStatus(ss[i].rows, c.run, c.status).1 == Written
  {
    TraceKeeps(ss, ls, i);
    assert Step(ss[i], ls[i], ss[i + 1]);
    TerminalWriteSucceeds(ss[i], ls[i].a);
  }

  // ---------------------------------------------------------------- no stranded run

  /** The pending count is the number of queues that still hold a job of the run. */
  lemma PendingCountsJobs(ss: seq<State>, ls: seq<Label>, i: nat, r: RunId)
    requires IsTrace(ss, ls) && i < |ss| && r in ss[i].sh.runs
    ensures ss[i].sh.runs[r].pending == |set q | q in ss[i].sh.chans && InFlight(ss[i], r, q)| > 0
  {
    TraceKeeps(ss, ls, i);
    assert TrackedInv(ss[i], r);
  }

  /** A job of a tracked run leaves its queue only through finishQueue. */
  lemma JobsLeaveThroughFinish(ss: seq<State>, ls: seq<Label>, i: nat, r: RunId, q: QueueId)
    requires IsTrace(ss, ls) && i < |ls| && r in ss[i].sh.runs
    requires InFlight(ss[i], r, q) && !InFlight(ss[i + 1], r, q)
    ensures ls[i] == LFinish(q) && At(ss[i], q) && JobAt(ss[i], q).run == r
    ensures r in ss[i + 1].sh.runs ==> ss[i + 1].sh.runs[r].pending == ss[i].sh.runs[r].pending - 1
  {
    TraceKeeps(ss, ls, i);
    assert Step(ss[i], ls[i], ss[i + 1]);
    hide Inv;
    LeavesThroughFinish(ss[i], ls[i], ss[i + 1], r, q);
  }

  lemma LeavesThroughFinish(s: State, l: Label, s': State, r: RunId, q: QueueId)
    requires Step(s, l, s') && r in s.sh.runs && InFlight(s, r, q) && !InFlight(s', r, q)
    ensures l == LFinish(q) && At(s, q) && JobAt(s, q).run == r
    ensures r in s'.sh.runs ==> s'.sh.runs[r].pending == s.sh.runs[r].pending - 1
  {
    var i :| 0 <= i < |Flight(s, q)| && Flight(s, q)[i].run == r;
    if l.LEnqRegister? {
      hide EnqRegister, Flight;
      CommitKeepsFlight(s, s', l.a, q);
    } else if l.LDequeue? {
      hide Dequeue, Flight;
      TakeKeepsFlight(s, s', l.q, q);
    } else if l.LExecBegin? {
      hide ExecBegin, Flight;
      ExecLetsGo(s, s', l.q, r, q, i);
    } else if l.LFinish? {
      hide FinishStep, Flight;
      FinishLetsGo(s, s', l.q, r, q, i);
    } else {
      hide Step, Flight;
      StepFootprint(s, l, s');
      SameFlight(s, s');
    }
  }

  lemma ExecLetsGo(s: State, s': State, p: QueueId, r: RunId, q: QueueId, i: nat)
    requires ExecBegin(s, s', p) && r in s.sh.runs && i < |Flight(s, q)| && Flight(s, q)[i].run == r
    ensures InFlight(s', r, q)
  {
    DropKeepsOthers(s, s', p, q, i);
  }

  lemma FinishLetsGo(s: State, s': State, p: QueueId, r: RunId, q: QueueId, i: nat)
    requires FinishStep(s, s', p) && r in s.sh.runs && i < |Flight(s, q)| && Flight(s, q)[i].run == r && !InFlight(s', r, q)
    ensures p == q && At(s, q) && JobAt(s, q).run == r && (r in s'.sh.runs ==> s'.sh.runs[r].pending == s.sh.runs[r].pending - 1)
  {
    hide FinishStep, InFlight;
    FinishMoves(s, s', p);
    DropKeepsOthers(s, s', p, q, i);
  }

  lemma TakeKeepsFlight(s: State, s': State, p: QueueId, q: QueueId)
    requires Dequeue(s, s', p)
    ensures Flight(s', q) == Flight(s, q)
  {
    assert p != q ==> At(s', q) == At(s, q);
  }

  /** Committing a run only appends to queues. */
  lemma CommitKeepsFlight(s: State, s': State, a: Agent, q: QueueId)
    requires EnqRegister(s, s', a)
    ensures Flight(s, q) <= Flight(s', q)
  {
    if s.sh.closing || !s.sh.started {
      assert At(s', q) == At(s, q);
    } else {
      var r, ts, order, full := RegisterSummary(s, s', a);
      hide EnqRegister;
      RegisterFlight(s, s', a, r, ts, order, full, q);
    }
  }

  /** Whatever the worker of `p` does with its job, the jobs behind it and on other queues stay. */
  lemma DropKeepsOthers(s: State, s': State, p: QueueId, q: QueueId, i: nat)
    requires At(s, p) && s'.sh.chans == s.sh.chans && i < |Flight(s, q)|
    requires forall a :: a != Worker(p) ==> PcOf(s', a) == PcOf(s, a)
    requires At(s', p) ==> JobAt(s', p) == JobAt(s, p)
    ensures InFlight(s', Flight(s, q)[i].run, q) || (q == p && Flight(s, q)[i] == JobAt(s, p) && !At(s', p))
  {
    assert q != p ==> PcOf(s', Worker(q)) == PcOf(s, Worker(q));
    var j := if q == p && !At(s', p) then i - 1 else i;
    if j >= 0 {
      assert Flight(s', q)[j] == Flight(s, q)[i];
    }
  }

  /** Nothing is buffered and nobody is at work. */
  ghost predicate Quiet(s: State) {
    && (forall q :: q in s.sh.chans ==> s.sh.chans[q] == [])
    && (forall a :: a in s.pcs ==> s.pcs[a].Exited?)
  }

  lemma QuietHasNoRuns(s: State)
    requires Inv(s) && Quiet(s)
    ensures s.sh.runs == map[]
  {
    assert forall q :: Flight(s, q) == [];
    forall r ensures r !in s.sh.runs {
      assert Open(s, r) == {};
      assert r in s.sh.runs ==> TrackedInv(s, r);
    }
    assert s.sh.runs.Keys == {};
  }

  /** When all is quiet every run has its outcome, unless its finisher gave up on the write. */
  lemma QuietMeansSettled(ss: seq<State>, ls: seq<Label>, i: nat)
    requires IsTrace(ss, ls) && i < |ss| && Quiet(ss[i])
    ensures ss[i].sh.runs == map[]
    ensures forall r :: r in ss[i].rows && !ss[i].rows[r].status.Terminal() ==> r in ss[i].aux.lost
  {
    TraceKeeps(ss, ls, i);
    var s := ss[i];
    QuietHasNoRuns(s);
    forall r | r in s.rows && !s.rows[r].status.Terminal() ensures r in s.aux.lost {
      assert Pending(s, r);
    }
  }

  /** The steps in which a finisher fails: a status write fails, or a panic strikes it. */
  predicate FinisherFails(l: Label) {
    (l.LFinWrite? && l.fails) || l.LFinPanic?
  }

  lemma LossNeedsFailure(s: State, l: Label, s': State)
    requires Inv(s) && Step(s, l, s') && !FinisherFails(l)
    ensures s'.aux.lost == s.aux.lost && s'.aux.fullLost == s.aux.fullLost
  {
    hide Inv;
    if l.LFinWrite? {
      TerminalWriteSucceeds(s, l.a);
    } else {
      hide Step;
      StepFootprint(s, l, s');
    }
  }

  /**
   A failed write is survived exactly when a hook makes setRunStatus try a second time, and
   Shutdown does not. Otherwise it is the end: the row keeps its status, nobody will write
   it, and the runner does not track the run any more.
   */
  lemma FailedWriteStrandsUnless(ss: seq<State>, ls: seq<Label>, i: nat, a: Agent)
    requires IsTrace(ss, ls) && i < |ls| && ls[i] == LFinWrite(a, true) && AtFin(ss[i], a)
    ensures var s, s' := ss[i], ss[i + 1]; var c := s.pcs[a].claim;
            && Pending(s', c.run) && s'.rows == s.rows && c.run !in s'.sh.runs
            && (SomeoneAnswers(s', c.run) <==> s.sh.hooked && s.pcs[a].fs == Write(0) && !c.kind.ByShutdown?)
            && (SomeoneAnswers(s', c.run) || c.run in s'.aux.lost)
  {
    hide Inv;
    TraceKeeps(ss, ls, i);
    assert Step(ss[i], ls[i], ss[i + 1]);
    hide IsTrace;
    FailedWrite(ss[i], ss[i + 1], a);
  }

  lemma FailedWrite(s: State, s': State, a: Agent)
    requires Inv(s) && FinWrite(s, s', a, true)
    ensures var c := s.pcs[a].claim;
            && Pending(s', c.run) && s'.rows == s.rows && c.run !in s'.sh.runs
            && (SomeoneAnswers(s', c.run) <==> s.sh.hooked && s.pcs[a].fs == Write(0) && !c.kind.ByShutdown?)
            && (SomeoneAnswers(s', c.run) || c.run in s'.aux.lost)
  {
    TerminalWriteSucceeds(s, a);
    assert s.pcs[a].claim.run !in s.sh.runs && ClaimsUnique(s) by {
      assert PcInv(s, a, s.pcs[a]);
    }
    hide Inv;
    FailedWriteStage(s, s', a);
    hide FinWrite, ClaimsUnique;
    if s'.pcs[a].fs.Write? {
      assert Writing(s'.pcs[a], s.pcs[a].claim.run);
    } else {
      LoneHolder(s, s', a, s.pcs[a].claim.run);
    }
  }

  /** Where a failed write leaves its finisher. */
  lemma FailedWriteStage(s: State, s': State, a: Agent)
    requires FinWrite(s, s', a, true)
    ensures AtFin(s, a) && AtFin(s', a) && s'.pcs == s.pcs[a := s'.pcs[a]] && s'.pcs[a].claim == s.pcs[a].claim
    ensures s'.rows == s.rows && s'.sh == s.sh
    ensures s'.pcs[a].fs.Write? <==> s.sh.hooked && s.pcs[a].fs == Write(0) && !s.pcs[a].claim.kind.ByShutdown?
    ensures s'.pcs[a].fs.Write? || s.pcs[a].claim.run in s'.aux.lost
  {
  }

  /** A panic before the write strands the run in the same way. */
  lemma PanicBeforeWriteStrands(ss: seq<State>, ls: seq<Label>, i: nat, a: Agent)
    requires IsTrace(ss, ls) && i < |ls| && ls[i] == LFinPanic(a) && AtFin(ss[i], a) && ss[i].pcs[a].fs.Write?
    ensures var s, s' := ss[i], ss[i + 1]; var r := s.pcs[a].claim.run;
            && Pending(s', r) && s'.rows == s.rows && r !in s'.sh.runs && !SomeoneAnswers(s', r) && r in s'.aux.lost
  {
    hide Inv;
    TraceKeeps(ss, ls, i);
    assert Step(ss[i], ls[i], ss[i + 1]);
    hide IsTrace;
    PanickedWrite(ss[i], ss[i + 1], a);
  }

  lemma PanickedWrite(s: State, s': State, a: Agent)
    requires Inv(s) && FinPanic(s, s', a) && s.pcs[a].fs.Write?
    ensures var r := s.pcs[a].claim.run;
            Pending(s', r) && s'.rows == s.rows && r !in s'.sh.runs && !SomeoneAnswers(s', r) && r in s'.aux.lost
  {
    TerminalWriteSucceeds(s, a);
    assert PcInv(s, a, s.pcs[a]) && ClaimsUnique(s);
    hide Inv;
    LoneHolder(s, s', a, s.pcs[a].claim.run);
  }

  /** When the only holder of a run stops writing, nobody answers for it. */
  lemma LoneHolder(s: State, s': State, a: Agent, r: RunId)
    requires ClaimsUnique(s) && AtFin(s, a) && s.pcs[a].fs.Write? && s.pcs[a].claim.run == r
    requires || (AtFin(s', a) && !s'.pcs[a].fs.Write? && s'.pcs == s.pcs[a := s'.pcs[a]])
             || s'.pcs == s.pcs - {a}
    ensures !SomeoneAnswers(s', r)
  {
    forall b | b in s'.pcs ensures !Answers(s'.pcs[b], r) {
      assert Holds(s.pcs[a], r);
      assert b != a ==> !Holds(s.pcs[b], r);
    }
  }

  lemma {:induction false} NothingLost(ss: seq<State>, ls: seq<Label>, i: nat)
    requires IsTrace(ss, ls) && i < |ss| && forall j :: 0 <= j < |ls| ==> !FinisherFails(ls[j])
    ensures ss[i].aux.lost == ss[0].aux.lost && ss[i].aux.fullLost == {}
  {
    hide Inv, Step;
    if i == 0 {
      assert Init(ss[0]);
    } else {
      hide Init;
      NothingLost(ss, ls, i - 1);
      TraceKeeps(ss, ls, i - 1);
      LossNeedsFailure(ss[i - 1], ls[i - 1], ss[i]);
    }
  }

  /** From a swept table, if status writes succeed, every run created is settled once all is quiet. */
  lemma NoRunIsStranded(ss: seq<State>, ls: seq<Label>, i: nat, before: map<RunId, Row>)
    requires IsTrace(ss, ls) && i < |ss| && Quiet(ss[i])
    requires ss[0].rows == Reap(before) && ss[0].aux.lost == {}
    requires forall j :: 0 <= j < |ls| ==> !FinisherFails(ls[j])
    ensures forall r :: r in ss[i].rows ==> ss[i].rows[r].status.Terminal()
  {
    hide Inv, Step, Init;
    QuietMeansSettled(ss, ls, i);
    NothingLost(ss, ls, i);
  }

  // ---------------------------------------------------------------- events

  /** Terminal only as the last event, "running" only after "queued", never more done than there is. */
  ghost predicate WellOrdered(evs: seq<Event>) {
    && (forall i :: 0 <= i < |evs| && evs[i].status.Terminal() ==> i == |evs| - 1)
    && (forall i :: 0 <= i < |evs| && evs[i].status.Running? ==> 0 < i && evs[0].status.Queued?)
    && (forall i :: 0 <= i < |evs| ==> evs[i].done <= evs[i].total)
  }

  /**
   Clients see the events of a run well ordered, unless that run was force-cancelled by an
   expired Shutdown or its "queue full" outcome was published although it could not be written.
   */
  lemma EventsAreOrdered(ss: seq<State>, ls: seq<Label>, i: nat, r: RunId)
    requires IsTrace(ss, ls) && i < |ss| && r !in ss[i].aux.forced && r !in ss[i].aux.fullLost
    ensures WellOrdered(Get(ss[i].log, r))
  {
    TraceKeeps(ss, ls, i);
    assert LogOk(ss[i], r);
  }

  /** In any execution at all, "running" is only published for a run first published as "queued". */
  lemma RunningFollowsQueued(ss: seq<State>, ls: seq<Label>, i: nat, r: RunId, k: nat)
    requires IsTrace(ss, ls) && i < |ss| && k < |Get(ss[i].log, r)| && Get(ss[i].log, r)[k].status.Running?
    ensures k > 0 && Get(ss[i].log, r)[0].status.Queued?
  {
    hide Inv, Step, Init;
    TraceKeeps(ss, ls, i);
    LogHolds(ss[i], r);
  }

  lemma LogHolds(s: State, r: RunId)
    requires Inv(s)
    ensures LogOk(s, r)
  {
  }

  /** In any execution at all, no event reports more targets done than there are. */
  lemma DoneNeverExceedsTotal(ss: seq<State>, ls: seq<Label>, i: nat, r: RunId, k: nat)
    requires IsTrace(ss, ls) && i < |ss| && k < |Get(ss[i].log, r)|
    ensures Get(ss[i].log, r)[k].done <= Get(ss[i].log, r)[k].total
  {
    TraceKeeps(ss, ls, i);
    assert LogOk(ss[i], r);
  }

  /** A Shutdown whose context holds out never forces a run: the workers settle all of them. */
  lemma PatientShutdownForcesNothing(ss: seq<State>, ls: seq<Label>, i: nat, a: Agent)
    requires IsTrace(ss, ls) && i < |ss| && !ss[i].aux.gaveUp && AtFin(ss[i], a)
    ensures !ss[i].pcs[a].claim.kind.ByShutdown?
  {
    TraceKeeps(ss, ls, i);
    assert PcInv(ss[i], a, ss[i].pcs[a]);
  }

  // ---------------------------------------------------------------- queues

  /** The occurrence an agent is testing right now, if any. */
  predicate Testing(pc: Pc) {
    pc.Work? && pc.ws.Engine? && pc.ws.i < |pc.job.positions|
  }

  /** Two targets of one queue are never tested together; a queue's worker tests only its targets. */
  lemma SameQueueNeverOverlaps(ss: seq<State>, ls: seq<Label>, i: nat, a: Agent, b: Agent)
    requires IsTrace(ss, ls) && i < |ss| && a in ss[i].pcs && b in ss[i].pcs
    requires Testing(ss[i].pcs[a]) && Testing(ss[i].pcs[b])
    ensures var s := ss[i]; var (pa, pb) := (s.pcs[a], s.pcs[b]);
            var (ra, rb) := (pa.job.run, pb.job.run);
            && ra in s.aux.reqs && rb in s.aux.reqs
            && pa.job.positions[pa.ws.i] < |s.aux.reqs[ra].targets| && pb.job.positions[pb.ws.i] < |s.aux.reqs[rb].targets|
            && (s.aux.reqs[ra].targets[pa.job.positions[pa.ws.i]].queue == s.aux.reqs[rb].targets[pb.job.positions[pb.ws.i]].queue ==> a == b)
  {
    TraceKeeps(ss, ls, i);
    var s := ss[i];
    assert FlightInv(s) && PcsInv(s);
    hide Inv;
    WorkerJobShape(s, a);
    WorkerJobShape(s, b);
    OwnPositions(s, a.queue, s.pcs[a].job);
    OwnPositions(s, b.queue, s.pcs[b].job);
  }

  /** A queue's jobs are taken in the order Enqueue committed them, none skipped. */
  lemma CommitOrderKept(ss: seq<State>, ls: seq<Label>, i: nat, q: QueueId)
    requires IsTrace(ss, ls) && i < |ss|
    ensures Get(ss[i].aux.taken, q) <= Get(ss[i].aux.sent, q)
    ensures |Get(ss[i].aux.sent, q)| - |Get(ss[i].aux.taken, q)| == |Get(ss[i].sh.chans, q)|
  {
    TraceKeeps(ss, ls, i);
    assert Get(ss[i].aux.sent, q) == Get(ss[i].aux.taken, q) + RunsOf(Get(ss[i].sh.chans, q));
  }

  /** Whenever a job is sent, no channel is closed. */
  lemma NeverSendsOnClosed(ss: seq<State>, ls: seq<Label>, i: nat, q: QueueId)
    requires IsTrace(ss, ls) && i < |ls| && |Get(ss[i].sh.chans, q)| < |Get(ss[i + 1].sh.chans, q)|
    ensures ls[i].LEnqRegister? && q !in ss[i].sh.closed
  {
    TraceKeeps(ss, ls, i);
    SendsOnlyWhenOpen(ss[i], ls[i], ss[i + 1], q);
  }

  lemma SendsWhenNotClosing(s: State, s': State, a: Agent, q: QueueId)
    requires EnqRegister(s, s', a) && |Get(s.sh.chans, q)| < |Get(s'.sh.chans, q)|
    ensures !s.sh.closing
  {
    hide RegisterSection;
  }

  lemma TakesOnly(s: State, s': State, p: QueueId, q: QueueId)
    requires Dequeue(s, s', p)
    ensures |Get(s'.sh.chans, q)| <= |Get(s.sh.chans, q)|
  {
  }

  lemma SendsOnlyWhenOpen(s: State, l: Label, s': State, q: QueueId)
    requires Inv(s) && Step(s, l, s') && |Get(s.sh.chans, q)| < |Get(s'.sh.chans, q)|
    ensures l.LEnqRegister? && q !in s.sh.closed
  {
    if l.LEnqRegister? {
      assert s.sh.closed == (if s.sh.closing then s.sh.chans.Keys else {});
      hide Inv;
      SendsWhenNotClosing(s, s', l.a, q);
    } else if l.LDequeue? {
      hide Inv;
      TakesOnly(s, s', l.q, q);
    } else {
      hide Inv, Step;
      StepFootprint(s, l, s');
    }
  }

  // ---------------------------------------------------------------- schedules

  /** However many Enqueue calls race, a schedule never has two queued or running runs. */
  lemma OneRunPerSchedule(ss: seq<State>, ls: seq<Label>, i: nat)
    requires IsTrace(ss, ls) && i < |ss|
    ensures OneActivePerSchedule(ss[i].rows)
  {
    TraceKeeps(ss, ls, i);
  }
}
