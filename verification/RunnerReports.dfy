/**
 What a queue reports of its job, what a finisher writes, and what clients are told:
 the three agree, in every execution.
 */
module RunnerReports {
  import opened Options
  import opened RunnerTypes
  import opened RunnerModel
  import opened RunnerInvariant
  import opened RunnerProof
  import opened RunnerTheorems
  import opened RunnerProperties
  import opened RunnerOutcome

  // ---------------------------------------------------------------- what a queue reports

  /** A target of the queue gets a row that is not "ok", gets none, or a panic strikes. */
  predicate Trouble(l: Label, q: QueueId) {
    l == LPanic(q) || (l.LEngine? && l.q == q && !l.out.OkRow?)
  }

  /** The worker of the queue finds its run told to stop. */
  predicate ToldToStop(s: State, l: Label, q: QueueId) {
    && At(s, q)
    && var r := JobAt(s, q).run;
       || (l == LLoop(q) && r in s.sh.ctxDone)
       || (l == LExecBegin(q) && r in s.sh.runs && (s.sh.runs[r].canceled || s.sh.closing || r in s.sh.ctxDone))
  }

  /** Something has gone wrong with the job already. */
  predicate Sick(ws: WorkStage) {
    match ws
    case Publishing(_, qf, _, _, panicked) => qf || panicked
    case Loop(_, qf) => qf
    case Engine(_, qf) => qf
    case RowLanded(_, qf) => qf
    case Mark(_, qf, panicked) => qf || panicked
    case PanicStore(_) => true
    case Finish(failed, _) => failed
    case _ => false
  }

  predicate StoppedShort(ws: WorkStage) {
    ws.Finish? && ws.canceled
  }

  /** While a job is in hand, what the worker remembers of it grows with what happens to it. */
  ghost predicate ReportStep(s: State, l: Label, s': State, q: QueueId) {
    At(s', q) ==>
      && At(s, q) && JobAt(s', q) == JobAt(s, q)
      && (Sick(StageAt(s', q)) <==> Sick(StageAt(s, q)) || Trouble(l, q))
      && (StoppedShort(StageAt(s', q)) <==> StoppedShort(StageAt(s, q)) || ToldToStop(s, l, q))
  }

  lemma TakingReport(s: State, l: Label, s': State, q: QueueId)
    requires Step(s, l, s') && Actor(l) == Worker(q) && (l.LWorkerExit? || l.LExecBegin?)
    ensures ReportStep(s, l, s', q)
  {
    hide StartSection;
  }

  lemma OpeningReport(s: State, l: Label, s': State, q: QueueId)
    requires Step(s, l, s') && Actor(l) == Worker(q) && (l.LWriteRunning? || l.LReadDone? || l.LPublishRunning?)
    ensures ReportStep(s, l, s', q)
  {
  }

  lemma LoopReport(s: State, l: Label, s': State, q: QueueId)
    requires Step(s, l, s') && Actor(l) == Worker(q) && (l.LLoop? || l.LAfterRow?)
    ensures ReportStep(s, l, s', q)
  {
  }

  lemma EngineGoesOn(s: State, s': State, q: QueueId, out: RowOutcome)
    requires EngineStep(s, s', q, out)
    ensures At(s, q) && StageAt(s, q).Engine? && At(s', q) && JobAt(s', q) == JobAt(s, q)
    ensures var (i, qf) := (StageAt(s, q).i, StageAt(s, q).queueFailed);
            StageAt(s', q) == match out case OkRow => RowLanded(i, qf) case FailedRow => RowLanded(i, true) case NoRow => Mark(i, true, false)
  {
  }

  lemma EngineReport(s: State, l: Label, s': State, q: QueueId)
    requires Step(s, l, s') && Actor(l) == Worker(q) && l.LEngine?
    ensures ReportStep(s, l, s', q)
  {
    EngineGoesOn(s, s', q, l.out);
    hide EngineStep;
  }

  lemma PanicReport(s: State, l: Label, s': State, q: QueueId)
    requires Step(s, l, s') && Actor(l) == Worker(q) && (l.LPanic? || l.LPanicStore?)
    ensures ReportStep(s, l, s', q)
  {
  }

  lemma MarkReport(s: State, l: Label, s': State, q: QueueId)
    requires Step(s, l, s') && Actor(l) == Worker(q) && l.LMark?
    ensures ReportStep(s, l, s', q)
  {
    hide MarkSection;
  }

  lemma FinishReport(s: State, l: Label, s': State, q: QueueId)
    requires Step(s, l, s') && Actor(l) == Worker(q) && l.LFinish?
    ensures !At(s', q)
  {
    hide FinishSection, Outcome, FinalStatus;
  }

  lemma WriterReport(s: State, l: Label, s': State, q: QueueId)
    requires Step(s, l, s') && Actor(l) == Worker(q) && (l.LFinWrite? || l.LFinPanic?)
    ensures !At(s', q)
  {
    hide SetRunStatus, Attempts;
  }

  lemma EnderReport(s: State, l: Label, s': State, q: QueueId)
    requires Step(s, l, s') && Actor(l) == Worker(q) && (l.LFinPublish? || l.LFinEnd?)
    ensures !At(s', q)
  {
  }

  /** The steps of Enqueue, Cancel and Shutdown. */
  predicate Calls(l: Label) {
    || l.LEnqCall? || l.LEnqLock? || l.LEnqDedupe? || l.LEnqCreate? || l.LEnqBegin? || l.LEnqUnlock? || l.LEnqRegister?
    || l.LCancel? || l.LOrphanLock? || l.LOrphanCheck? || l.LOrphanRead?
    || l.LShutCall? || l.LShutWait? || l.LShutDrain? || l.LShutMark? || l.LShutClaim?
  }

  lemma EnqueuersCall(s: State, l: Label, s': State)
    requires Inv(s) && Step(s, l, s')
    requires l.LEnqCall? || l.LEnqLock? || l.LEnqDedupe? || l.LEnqCreate? || l.LEnqBegin? || l.LEnqUnlock? || l.LEnqRegister?
    ensures l.a.Caller?
  {
    assert l.a in s.pcs ==> PcInv(s, l.a, s.pcs[l.a]);
    hide Inv, RegisterSection, ActiveForSchedule;
  }

  lemma CancelersCall(s: State, l: Label, s': State)
    requires Inv(s) && Step(s, l, s') && (l.LCancel? || l.LOrphanLock? || l.LOrphanCheck? || l.LOrphanRead?)
    ensures l.a.Caller?
  {
    assert l.a in s.pcs ==> PcInv(s, l.a, s.pcs[l.a]);
    hide Inv, CancelSection;
  }

  lemma WaitersShut(s: State, l: Label, s': State)
    requires Step(s, l, s') && (l.LShutCall? || l.LShutWait? || l.LShutDrain?)
    ensures l.a.Caller? || AtShut(s, l.a)
  {
    hide CloseSection, AllExited;
  }

  lemma ForcersShut(s: State, l: Label, s': State)
    requires Step(s, l, s') && (l.LShutMark? || l.LShutClaim?)
    ensures AtShut(s, l.a)
  {
    hide MarkAllSection, ClaimSection;
  }

  lemma ClosersCall(s: State, l: Label, s': State)
    requires Inv(s) && Step(s, l, s') && (l.LShutCall? || l.LShutWait? || l.LShutDrain? || l.LShutMark? || l.LShutClaim?)
    ensures l.a.Caller?
  {
    assert AtShut(s, l.a) ==> PcInv(s, l.a, s.pcs[l.a]);
    hide Inv, Step;
    if l.LShutMark? || l.LShutClaim? {
      ForcersShut(s, l, s');
    } else {
      WaitersShut(s, l, s');
    }
  }

  lemma CallersCall(s: State, l: Label, s': State)
    requires Inv(s) && Step(s, l, s') && Calls(l)
    ensures l.a.Caller? && Actor(l) == l.a
  {
    hide Inv, Step;
    if l.LCancel? || l.LOrphanLock? || l.LOrphanCheck? || l.LOrphanRead? {
      CancelersCall(s, l, s');
    } else if l.LShutCall? || l.LShutWait? || l.LShutDrain? || l.LShutMark? || l.LShutClaim? {
      ClosersCall(s, l, s');
    } else {
      EnqueuersCall(s, l, s');
    }
  }

  lemma WorkReport(s: State, l: Label, s': State, q: QueueId)
    requires Step(s, l, s') && Actor(l) == Worker(q) && !Calls(l) && l != LDequeue(q) && !l.LStart?
    ensures ReportStep(s, l, s', q)
  {
    hide Step, ReportStep;
    if l.LWorkerExit? || l.LExecBegin? {
      TakingReport(s, l, s', q);
    } else if l.LWriteRunning? || l.LReadDone? || l.LPublishRunning? {
      OpeningReport(s, l, s', q);
    } else if l.LLoop? || l.LAfterRow? {
      LoopReport(s, l, s', q);
    } else if l.LEngine? {
      EngineReport(s, l, s', q);
    } else if l.LPanic? || l.LPanicStore? {
      PanicReport(s, l, s', q);
    } else if l.LMark? {
      MarkReport(s, l, s', q);
    } else {
      EndReport(s, l, s', q);
    }
  }

  lemma EndReport(s: State, l: Label, s': State, q: QueueId)
    requires Step(s, l, s') && Actor(l) == Worker(q)
    requires l.LFinish? || l.LFinWrite? || l.LFinPublish? || l.LFinEnd? || l.LFinPanic?
    ensures ReportStep(s, l, s', q)
  {
    hide Step, Sick, Trouble, StoppedShort, ToldToStop;
    if l.LFinish? {
      FinishReport(s, l, s', q);
    } else if l.LFinWrite? || l.LFinPanic? {
      WriterReport(s, l, s', q);
    } else {
      EnderReport(s, l, s', q);
    }
  }

  lemma UntouchedReport(s: State, l: Label, s': State, q: QueueId)
    requires PcOf(s', Worker(q)) == PcOf(s, Worker(q)) && Actor(l) != Worker(q)
    ensures ReportStep(s, l, s', q)
  {
    hide Sick, StoppedShort;
  }

  lemma ReportFollows(s: State, l: Label, s': State, q: QueueId)
    requires Inv(s) && Step(s, l, s') && l != LDequeue(q)
    ensures ReportStep(s, l, s', q)
  {
    hide Inv, Step, ReportStep, Calls;
    if l.LStart? {
      StartReport(s, s', q);
    } else if Calls(l) {
      CallersCall(s, l, s');
      OneMoves(s, l, s');
      UntouchedReport(s, l, s', q);
    } else if Actor(l) == Worker(q) {
      WorkReport(s, l, s', q);
    } else {
      OneMoves(s, l, s');
      UntouchedReport(s, l, s', q);
    }
  }

  lemma StartReport(s: State, s': State, q: QueueId)
    requires Step(s, LStart, s')
    ensures ReportStep(s, LStart, s', q)
  {
    StartKeepsPcs(s, s');
    UntouchedReport(s, LStart, s', q);
  }

  /** A queue's worker takes the head of its buffer. */
  lemma Takes(s: State, s': State, q: QueueId)
    requires Dequeue(s, s', q)
    ensures q in s.sh.chans && s.sh.chans[q] != [] && s'.sh.chans == s.sh.chans[q := s.sh.chans[q][1..]]
    ensures At(s', q) && JobAt(s', q) == s.sh.chans[q][0] && StageAt(s', q) == Got
  {
  }

  ghost predicate TroubleSince(ls: seq<Label>, j: nat, n: nat, q: QueueId)
    requires n <= |ls|
  {
    exists k :: j < k < n && Trouble(ls[k], q)
  }

  ghost predicate StoppedSince(ss: seq<State>, ls: seq<Label>, j: nat, n: nat, q: QueueId)
    requires n <= |ls| < |ss|
  {
    exists k :: j < k < n && ToldToStop(ss[k], ls[k], q)
  }

  lemma {:induction false} JobRemembers(ss: seq<State>, ls: seq<Label>, j: nat, n: nat, q: QueueId)
    requires IsTrace(ss, ls) && j < n < |ss| && ls[j] == LDequeue(q)
    requires forall k :: j < k < n ==> ls[k] != LDequeue(q)
    ensures q in ss[j].sh.chans && ss[j].sh.chans[q] != []
    ensures At(ss[n], q) ==> JobAt(ss[n], q) == ss[j].sh.chans[q][0]
    ensures At(ss[n], q) ==> (Sick(StageAt(ss[n], q)) <==> TroubleSince(ls, j, n, q))
    ensures At(ss[n], q) ==> (StoppedShort(StageAt(ss[n], q)) <==> StoppedSince(ss, ls, j, n, q))
  {
    hide Inv, Step, Init, Sick, Trouble, StoppedShort, ToldToStop;
    if n == j + 1 {
      TakesFirst(ss, ls, j, q);
    } else {
      JobRemembers(ss, ls, j, n - 1, q);
      TraceKeeps(ss, ls, n - 1);
      ReportFollows(ss[n - 1], ls[n - 1], ss[n], q);
    }
  }

  lemma TakesFirst(ss: seq<State>, ls: seq<Label>, j: nat, q: QueueId)
    requires IsTrace(ss, ls) && j < |ls| && ls[j] == LDequeue(q)
    ensures q in ss[j].sh.chans && ss[j].sh.chans[q] != []
    ensures At(ss[j + 1], q) && JobAt(ss[j + 1], q) == ss[j].sh.chans[q][0]
    ensures !Sick(StageAt(ss[j + 1], q)) && !StoppedShort(StageAt(ss[j + 1], q))
  {
    assert Step(ss[j], ls[j], ss[j + 1]);
    Takes(ss[j], ss[j + 1], q);
  }

  lemma FinishesAt(ss: seq<State>, ls: seq<Label>, n: nat, q: QueueId)
    requires IsTrace(ss, ls) && n < |ls| && ls[n] == LFinish(q)
    ensures At(ss[n], q) && StageAt(ss[n], q).Finish?
  {
    assert Step(ss[n], ls[n], ss[n + 1]);
    FinishChange(ss[n], ss[n + 1], q);
  }

  /**
   What a worker reports of the job it took at step `j`: "failed" exactly when since then one
   of its targets got no "ok" row or a panic struck, "canceled" exactly when it found the run
   told to stop, on taking the job up or between two targets.
   */
  lemma QueueReports(ss: seq<State>, ls: seq<Label>, j: nat, n: nat, q: QueueId)
    requires IsTrace(ss, ls) && j < n < |ls| && ls[j] == LDequeue(q) && ls[n] == LFinish(q)
    requires forall k :: j < k < n ==> ls[k] != LDequeue(q)
    ensures At(ss[n], q) && StageAt(ss[n], q).Finish? && q in ss[j].sh.chans && ss[j].sh.chans[q] != []
    ensures JobAt(ss[n], q) == ss[j].sh.chans[q][0]
    ensures StageAt(ss[n], q).failed <==>
            exists k :: j < k < n && (ls[k] == LPanic(q) || ls[k] == LEngine(q, FailedRow) || ls[k] == LEngine(q, NoRow))
    ensures StageAt(ss[n], q).canceled <==> exists k :: j < k < n && ToldToStop(ss[k], ls[k], q)
  {
    hide Init, Inv;
    JobRemembers(ss, ls, j, n, q);
    FinishesAt(ss, ls, n, q);
    hide Step, IsTrace, ToldToStop;
    if k :| j < k < n && Trouble(ls[k], q) {
      assert ls[k] == LPanic(q) || ls[k] == LEngine(q, FailedRow) || ls[k] == LEngine(q, NoRow);
    }
    if k :| j < k < n && (ls[k] == LPanic(q) || ls[k] == LEngine(q, FailedRow) || ls[k] == LEngine(q, NoRow)) {
      assert Trouble(ls[k], q);
    }
  }

  // ---------------------------------------------------------------- what a finisher writes

  /** The outcome each kind of finisher stands for. */
  predicate StatusOfKind(c: Claim) {
    match c.kind
    case ByQueueFull => c.status.Failed?
    case ByLastQueue => c.status.Done? || c.status.Failed? || c.status.Canceled?
    case _ => c.status.Canceled?
  }

  lemma NewClaimStatus(s: State, l: Label, b: Agent, c: Claim)
    requires NewClaim(s, l, b, c)
    ensures StatusOfKind(c)
  {
  }

  /**
   A refused, cancelled, forced or orphaned run is written "canceled", one that met a full
   queue "failed"; only the last queue of a run writes anything else.
   */
  lemma {:induction false} EachFinisherWrites(ss: seq<State>, ls: seq<Label>, n: nat, b: Agent)
    requires IsTrace(ss, ls) && n < |ss| && AtFin(ss[n], b)
    ensures var c := ss[n].pcs[b].claim;
            && (c.kind.ByRefusal? || c.kind.ByCancel? || c.kind.ByShutdown? || c.kind.ByOrphan? ==> c.status == Canceled)
            && (c.kind.ByQueueFull? ==> c.status == Failed)
            && (c.kind.ByLastQueue? ==> c.status == Done || c.status == Failed || c.status == Canceled)
  {
    hide Step;
    if n > 0 {
      hide Init, NewClaim;
      ClaimsFollow(ss[n - 1], ls[n - 1], ss[n], b);
      if AtFin(ss[n - 1], b) && ss[n - 1].pcs[b].claim == ss[n].pcs[b].claim {
        EachFinisherWrites(ss, ls, n - 1, b);
      } else {
        NewClaimStatus(ss[n - 1], ls[n - 1], b, ss[n].pcs[b].claim);
      }
    }
  }

  // ---------------------------------------------------------------- what clients are told

  /** A step appends at most one event of `r`: "queued", "running", or a finisher's outcome. */
  ghost predicate LogStep(s: State, l: Label, s': State, r: RunId) {
    || Get(s'.log, r) == Get(s.log, r)
    || exists e: Event :: Get(s'.log, r) == Get(s.log, r) + [e] && (e.status.Queued? || e.status.Running? || Announced(s, l, r, e))
  }

  /** The finisher of `r` publishes its outcome. */
  predicate Announced(s: State, l: Label, r: RunId, e: Event) {
    && l.LFinPublish? && AtFin(s, l.a) && s.pcs[l.a].fs.Publish?
    && var c := s.pcs[l.a].claim; c.run == r && e == Event(c.status, c.total, c.done)
  }

  predicate Logs(l: Label) {
    l.LEnqRegister? || l.LPublishRunning? || l.LFinPublish?
  }

  lemma StarterLogs(s: State, l: Label, s': State)
    requires Step(s, l, s')
    requires l.LStart? || l.LEnqCall? || l.LEnqLock? || l.LEnqDedupe? || l.LEnqCreate? || l.LEnqBegin? || l.LEnqUnlock?
    ensures s'.log == s.log && s'.results == s.results
  {
  }

  lemma CancelLogs(s: State, l: Label, s': State)
    requires Step(s, l, s') && (l.LCancel? || l.LOrphanLock? || l.LOrphanCheck? || l.LOrphanRead?)
    ensures s'.log == s.log && s'.results == s.results
  {
    hide CancelSection;
  }

  lemma FinisherLogs(s: State, l: Label, s': State)
    requires Step(s, l, s') && (l.LFinWrite? || l.LFinPanic?)
    ensures s'.log == s.log && s'.results == s.results
  {
    hide SetRunStatus, Attempts;
  }

  lemma EnderLogs(s: State, s': State, a: Agent)
    requires Step(s, LFinEnd(a), s')
    ensures s'.log == s.log && s'.results == s.results
  {
  }

  lemma WaiterLogs(s: State, l: Label, s': State)
    requires Step(s, l, s') && (l.LShutCall? || l.LShutWait? || l.LShutDrain?)
    ensures s'.log == s.log && s'.results == s.results
  {
    hide CloseSection, AllExited;
  }

  lemma ForcerLogs(s: State, l: Label, s': State)
    requires Step(s, l, s') && (l.LShutMark? || l.LShutClaim?)
    ensures s'.log == s.log && s'.results == s.results
  {
    hide MarkAllSection, ClaimSection;
  }

  lemma OpeningLogs(s: State, l: Label, s': State)
    requires Step(s, l, s') && (l.LDequeue? || l.LWorkerExit? || l.LExecBegin? || l.LWriteRunning? || l.LReadDone?)
    ensures s'.log == s.log && s'.results == s.results
  {
    hide StartSection, MustNotStart, SetRunStatus;
  }

  lemma TestingLogs(s: State, l: Label, s': State)
    requires Step(s, l, s') && (l.LLoop? || l.LAfterRow? || l.LPanic?)
    ensures s'.log == s.log && s'.results == s.results
  {
  }

  lemma RowLogs(s: State, l: Label, s': State)
    requires Step(s, l, s') && (l.LEngine? || l.LPanicStore?)
    ensures s'.log == s.log
  {
  }

  lemma CountingLogs(s: State, l: Label, s': State)
    requires Step(s, l, s') && (l.LMark? || l.LFinish?)
    ensures s'.log == s.log && s'.results == s.results
  {
    hide MarkSection, FinishSection, Outcome, FinalStatus;
  }

  lemma RegisterLogs(s: State, s': State, a: Agent, r: RunId)
    requires EnqRegister(s, s', a)
    ensures LogStep(s, LEnqRegister(a), s', r) && s'.results == s.results
  {
    hide RegisterSection, Announced;
    if Get(s'.log, r) != Get(s.log, r) {
      var e := Event(Queued, |s.pcs[a].req.targets|, 0);
      assert Get(s'.log, r) == Get(s.log, r) + [e];
    }
  }

  lemma RunningLogs(s: State, s': State, q: QueueId, r: RunId)
    requires PublishRunning(s, s', q)
    ensures LogStep(s, LPublishRunning(q), s', r) && s'.results == s.results
  {
    hide Announced;
    if Get(s'.log, r) != Get(s.log, r) {
      var e := Event(Running, StageAt(s, q).total, StageAt(s, q).done);
      assert Get(s'.log, r) == Get(s.log, r) + [e];
    }
  }

  lemma OutcomeLogs(s: State, s': State, a: Agent, r: RunId)
    requires FinPublish(s, s', a)
    ensures LogStep(s, LFinPublish(a), s', r) && s'.results == s.results
  {
    if Get(s'.log, r) != Get(s.log, r) {
      var c := s.pcs[a].claim;
      var e := Event(c.status, c.total, c.done);
      assert Get(s'.log, r) == Get(s.log, r) + [e];
    }
  }

  lemma QuietLogs(s: State, l: Label, s': State)
    requires Step(s, l, s') && !Logs(l)
    ensures s'.log == s.log && (l.LEngine? || l.LPanicStore? || s'.results == s.results)
  {
    hide Step;
    if l.LCancel? || l.LOrphanLock? || l.LOrphanCheck? || l.LOrphanRead? {
      CancelLogs(s, l, s');
    } else if l.LFinWrite? || l.LFinPanic? {
      FinisherLogs(s, l, s');
    } else if l.LFinEnd? {
      EnderLogs(s, s', l.a);
    } else if l.LShutCall? || l.LShutWait? || l.LShutDrain? {
      WaiterLogs(s, l, s');
    } else if l.LShutMark? || l.LShutClaim? {
      ForcerLogs(s, l, s');
    } else if l.LDequeue? || l.LWorkerExit? || l.LExecBegin? || l.LWriteRunning? || l.LReadDone? {
      OpeningLogs(s, l, s');
    } else if l.LEngine? || l.LPanicStore? {
      RowLogs(s, l, s');
    } else if l.LLoop? || l.LAfterRow? || l.LPanic? {
      TestingLogs(s, l, s');
    } else if l.LMark? || l.LFinish? {
      CountingLogs(s, l, s');
    } else {
      StarterLogs(s, l, s');
    }
  }

  lemma LogFollows(s: State, l: Label, s': State, r: RunId)
    requires Step(s, l, s')
    ensures LogStep(s, l, s', r)
    ensures l.LEngine? || l.LPanicStore? || s'.results == s.results
  {
    if Logs(l) {
      hide LogStep, EnqRegister, PublishRunning, FinPublish;
      match l
      case LEnqRegister(a) => RegisterLogs(s, s', a, r);
      case LPublishRunning(q) => RunningLogs(s, s', q, r);
      case LFinPublish(a) => OutcomeLogs(s, s', a, r);
    } else {
      hide Step, Announced;
      QuietLogs(s, l, s');
    }
  }

  /** Who is about to announce `r`, and how. */
  predicate WillAnnounce(pc: Pc) {
    pc.Fin? && (pc.fs.Publish? || (pc.fs.End? && pc.fs.publishAfter))
  }

  ghost predicate AnnouncerAgrees(s: State, b: Agent) {
    b in s.pcs && WillAnnounce(s.pcs[b]) && s.pcs[b].claim.run !in s.aux.fullLost ==>
      var c := s.pcs[b].claim; c.run in s.rows && s.rows[c.run].status == c.status
  }

  ghost predicate EventsAgree(s: State, r: RunId) {
    forall i :: 0 <= i < |Get(s.log, r)| && Get(s.log, r)[i].status.Terminal() && r !in s.aux.fullLost ==>
                  r in s.rows && s.rows[r].status == Get(s.log, r)[i].status
  }

  /** Announcements agree with the rows. */
  ghost predicate Agree(s: State) {
    (forall b :: AnnouncerAgrees(s, b)) && (forall r :: EventsAgree(s, r))
  }

  /** Whoever is about to announce was so before, or has just settled the row. */
  ghost predicate AnnounceStep(s: State, s': State, b: Agent) {
    b in s'.pcs && WillAnnounce(s'.pcs[b]) ==>
      var c := s'.pcs[b].claim;
      || (b in s.pcs && WillAnnounce(s.pcs[b]) && s.pcs[b].claim == c)
      || (c.run in s'.rows && s'.rows[c.run].status == c.status)
      || c.run in s'.aux.fullLost
  }

  lemma WriteAnnounces(s: State, s': State, a: Agent, fails: bool)
    requires Inv(s) && FinWrite(s, s', a, fails)
    ensures AnnounceStep(s, s', a)
  {
    TerminalWriteSucceeds(s, a);
    hide Inv;
  }

  lemma EndAnnounces(s: State, l: Label, s': State)
    requires Step(s, l, s') && (l.LFinPublish? || l.LFinEnd?)
    ensures AnnounceStep(s, s', l.a)
  {
  }

  lemma OthersAnnounce(s: State, s': State, b: Agent)
    requires PcOf(s', b) == PcOf(s, b)
    ensures AnnounceStep(s, s', b)
  {
  }

  lemma ClaimersAnnounce(s: State, l: Label, s': State, b: Agent)
    requires ClaimStep(s, l, s', b) && !l.LFinWrite? && !l.LFinPublish? && !l.LFinEnd?
    ensures AnnounceStep(s, s', b)
  {
    hide NewClaim;
  }

  lemma WritersAnnounce(s: State, l: Label, s': State)
    requires Inv(s) && Step(s, l, s') && l.LFinWrite?
    ensures AnnounceStep(s, s', l.a)
  {
    WriteAnnounces(s, s', l.a, l.fails);
  }

  lemma AnnouncesFollow(s: State, l: Label, s': State, b: Agent)
    requires Inv(s) && Step(s, l, s')
    ensures AnnounceStep(s, s', b)
  {
    hide Inv, Step, ClaimStep, AnnounceStep;
    if b != Actor(l) {
      OneMoves(s, l, s');
      OthersAnnounce(s, s', b);
    } else if l.LFinWrite? {
      WritersAnnounce(s, l, s');
    } else if l.LFinPublish? || l.LFinEnd? {
      EndAnnounces(s, l, s');
    } else {
      ClaimsFollow(s, l, s', b);
      ClaimersAnnounce(s, l, s', b);
    }
  }

  lemma AnnouncerSettled(s: State, b: Agent)
    requires Inv(s) && b in s.pcs && WillAnnounce(s.pcs[b])
    ensures s.pcs[b].claim.status.Terminal()
  {
    assert PcInv(s, b, s.pcs[b]);
  }

  lemma FullLostStays(s: State, l: Label, s': State)
    requires Step(s, l, s')
    ensures s.aux.fullLost <= s'.aux.fullLost
  {
    if l.LFinWrite? || l.LFinPanic? {
      hide SetRunStatus, Attempts;
    } else {
      hide Step;
      StepFootprint(s, l, s');
    }
  }

  lemma AnnouncerKept(s: State, l: Label, s': State, b: Agent)
    requires Inv(s) && AnnouncerAgrees(s, b) && Step(s, l, s')
    ensures AnnouncerAgrees(s', b)
  {
    hide Inv, Step;
    FullLostStays(s, l, s');
    AnnouncesFollow(s, l, s', b);
    if b in s.pcs && WillAnnounce(s.pcs[b]) && s.pcs[b].claim.run !in s.aux.fullLost {
      AnnouncerSettled(s, b);
      TerminalRowsStay(s, l, s', s.pcs[b].claim.run);
    }
  }

  lemma EventsKept(s: State, l: Label, s': State, r: RunId)
    requires Inv(s) && Agree(s) && Step(s, l, s')
    ensures EventsAgree(s', r)
  {
    hide Inv, Step;
    FullLostStays(s, l, s');
    LogFollows(s, l, s', r);
    assert EventsAgree(s, r) && (l.LFinPublish? ==> AnnouncerAgrees(s, l.a));
    hide Agree;
    if l.LFinPublish? && AtFin(s, l.a) && s.pcs[l.a].fs.Publish? {
      AnnouncerSettled(s, l.a);
    }
    if r in s.rows && s.rows[r].status.Terminal() {
      TerminalRowsStay(s, l, s', r);
    }
    forall i | 0 <= i < |Get(s'.log, r)| && Get(s'.log, r)[i].status.Terminal() && r !in s'.aux.fullLost
      ensures r in s'.rows && s'.rows[r].status == Get(s'.log, r)[i].status
    {
      if i < |Get(s.log, r)| {
        assert Get(s'.log, r)[i] == Get(s.log, r)[i];
      }
    }
  }

  lemma AgreeKept(s: State, l: Label, s': State)
    requires Inv(s) && Agree(s) && Step(s, l, s')
    ensures Agree(s')
  {
    hide Inv, Step, AnnouncerAgrees, EventsAgree;
    forall b ensures AnnouncerAgrees(s', b) {
      AnnouncerKept(s, l, s', b);
    }
    forall r ensures EventsAgree(s', r) {
      EventsKept(s, l, s', r);
    }
  }

  lemma InitAgrees(s: State)
    requires Init(s)
    ensures Agree(s)
  {
  }

  lemma {:induction false} AgreeHolds(ss: seq<State>, ls: seq<Label>, n: nat)
    requires IsTrace(ss, ls) && n < |ss|
    ensures Agree(ss[n])
  {
    hide Inv, Step, Agree;
    if n > 0 {
      hide Init;
      AgreeHolds(ss, ls, n - 1);
      TraceKeeps(ss, ls, n - 1);
      AgreeKept(ss[n - 1], ls[n - 1], ss[n]);
    } else {
      InitAgrees(ss[0]);
    }
  }

  /**
   The outcome clients are told is the one in the row, unless it is a "queue full" that was
   published although it could not be written.
   */
  lemma AnnouncedAsStored(ss: seq<State>, ls: seq<Label>, n: nat, r: RunId, i: nat)
    requires IsTrace(ss, ls) && n < |ss| && r !in ss[n].aux.fullLost
    requires i < |Get(ss[n].log, r)| && Get(ss[n].log, r)[i].status.Terminal()
    ensures r in ss[n].rows && ss[n].rows[r].status == Get(ss[n].log, r)[i].status
  {
    hide Inv, Step, Init;
    AgreeHolds(ss, ls, n);
    assert EventsAgree(ss[n], r);
  }

  // ---------------------------------------------------------------- and they are told

  /** The outcome in the row has been published, or somebody is about to. */
  ghost predicate Told(s: State, r: RunId) {
    && r in s.rows && s.rows[r].status.Terminal()
    && ((exists k :: 0 <= k < |Get(s.log, r)| && Get(s.log, r)[k].status == s.rows[r].status)
        || exists b :: b in s.pcs && WillAnnounce(s.pcs[b]) && s.pcs[b].claim.run == r && s.pcs[b].claim.status == s.rows[r].status)
  }

  lemma EnqueuersDoNotFinish(s: State, l: Label, s': State)
    requires Step(s, l, s')
    requires l.LEnqCall? || l.LEnqLock? || l.LEnqDedupe? || l.LEnqCreate? || l.LEnqBegin? || l.LEnqUnlock? || l.LEnqRegister?
    ensures !AtFin(s, l.a)
  {
    hide RegisterSection, ActiveForSchedule;
  }

  lemma CancelersDoNotFinish(s: State, l: Label, s': State)
    requires Step(s, l, s') && (l.LCancel? || l.LOrphanLock? || l.LOrphanCheck? || l.LOrphanRead?)
    ensures !AtFin(s, l.a)
  {
    hide CancelSection;
  }

  lemma ClosersDoNotFinish(s: State, l: Label, s': State)
    requires Step(s, l, s') && (l.LShutCall? || l.LShutWait? || l.LShutDrain? || l.LShutMark? || l.LShutClaim?)
    ensures !AtFin(s, l.a)
  {
    hide CloseSection, MarkAllSection, ClaimSection, AllExited;
  }

  lemma WorkersDoNotFinish(s: State, l: Label, s': State)
    requires Step(s, l, s')
    requires || l.LDequeue? || l.LWorkerExit? || l.LExecBegin? || l.LWriteRunning? || l.LReadDone? || l.LPublishRunning?
             || l.LLoop? || l.LEngine? || l.LAfterRow? || l.LMark? || l.LPanic? || l.LPanicStore? || l.LFinish?
    ensures !AtFin(s, Worker(l.q))
  {
    hide SetRunStatus, MustNotStart, MarkSection, FinishSection, Outcome, FinalStatus;
  }

  /** A finisher goes on finishing. */
  lemma FinishersFinish(s: State, l: Label, s': State)
    requires Step(s, l, s') && !l.LStart? && AtFin(s, Actor(l))
    ensures l.LFinWrite? || l.LFinPublish? || l.LFinEnd? || l.LFinPanic?
  {
    hide Step, AtFin;
    if l.LEnqCall? || l.LEnqLock? || l.LEnqDedupe? || l.LEnqCreate? || l.LEnqBegin? || l.LEnqUnlock? || l.LEnqRegister? {
      EnqueuersDoNotFinish(s, l, s');
    } else if l.LCancel? || l.LOrphanLock? || l.LOrphanCheck? || l.LOrphanRead? {
      CancelersDoNotFinish(s, l, s');
    } else if l.LShutCall? || l.LShutWait? || l.LShutDrain? || l.LShutMark? || l.LShutClaim? {
      ClosersDoNotFinish(s, l, s');
    } else if !l.LFinWrite? && !l.LFinPublish? && !l.LFinEnd? && !l.LFinPanic? {
      WorkersDoNotFinish(s, l, s');
    }
  }

  lemma PublisherActs(s: State, s': State, a: Agent)
    requires FinPublish(s, s', a)
    ensures var r := s.pcs[a].claim.run;
            Get(s'.log, r) != [] && Get(s'.log, r)[|Get(s'.log, r)| - 1].status == s.pcs[a].claim.status
  {
  }

  lemma GivesUpFirst(s: State, s': State, a: Agent)
    requires FinEnd(s, s', a) && FinInv(s, s.pcs[a]) && WillAnnounce(s.pcs[a])
    ensures a in s'.pcs && WillAnnounce(s'.pcs[a]) && s'.pcs[a].claim == s.pcs[a].claim
  {
    hide AllOk, Calm, HasTerminal;
  }

  /** Whoever is about to announce does so, or Shutdown first gives up its claim. */
  lemma AnnouncerActs(s: State, l: Label, s': State, r: RunId)
    requires Inv(s) && Step(s, l, s') && (l.LFinPublish? || l.LFinEnd?)
    requires l.a in s.pcs && WillAnnounce(s.pcs[l.a]) && s.pcs[l.a].claim.run == r
    ensures || (l.a in s'.pcs && WillAnnounce(s'.pcs[l.a]) && s'.pcs[l.a].claim == s.pcs[l.a].claim)
            || (Get(s'.log, r) != [] && Get(s'.log, r)[|Get(s'.log, r)| - 1].status == s.pcs[l.a].claim.status)
  {
    assert PcInv(s, l.a, s.pcs[l.a]);
    hide Inv, FinPublish, FinEnd, FinInv;
    if l.LFinPublish? {
      PublisherActs(s, s', l.a);
    } else {
      GivesUpFirst(s, s', l.a);
    }
  }

  lemma LogGrows(s: State, l: Label, s': State, r: RunId)
    requires Step(s, l, s')
    ensures Get(s.log, r) <= Get(s'.log, r)
  {
    hide Step, Announced;
    LogFollows(s, l, s', r);
  }

  lemma WriterIsWriting(s: State, l: Label, s': State)
    requires Step(s, l, s') && l.LFinWrite?
    ensures AtFin(s, l.a) && s.pcs[l.a].fs.Write?
  {
    hide SetRunStatus, Attempts;
  }

  lemma ToldStays(s: State, l: Label, s': State, r: RunId)
    requires Inv(s) && Told(s, r) && Step(s, l, s') && !l.LFinPanic?
    ensures Told(s', r)
  {
    hide Inv, Step;
    TerminalRowsStay(s, l, s', r);
    LogGrows(s, l, s', r);
    if k :| 0 <= k < |Get(s.log, r)| && Get(s.log, r)[k].status == s.rows[r].status {
      assert Get(s'.log, r)[k] == Get(s.log, r)[k];
    } else {
      var b :| b in s.pcs && WillAnnounce(s.pcs[b]) && s.pcs[b].claim.run == r && s.pcs[b].claim.status == s.rows[r].status;
      AnnouncerStays(s, l, s', r, b);
    }
  }

  lemma AnnouncerStays(s: State, l: Label, s': State, r: RunId, b: Agent)
    requires Inv(s) && Step(s, l, s') && !l.LFinPanic?
    requires b in s.pcs && WillAnnounce(s.pcs[b]) && s.pcs[b].claim.run == r
    ensures || (b in s'.pcs && WillAnnounce(s'.pcs[b]) && s'.pcs[b].claim == s.pcs[b].claim)
            || exists k :: 0 <= k < |Get(s'.log, r)| && Get(s'.log, r)[k].status == s.pcs[b].claim.status
  {
    hide Inv, Step;
    if l.LStart? {
      StartKeepsPcs(s, s');
    } else if b != Actor(l) {
      OneMoves(s, l, s');
      assert PcOf(s', b) == PcOf(s, b);
    } else {
      FinishersFinish(s, l, s');
      if l.LFinWrite? {
        WriterIsWriting(s, l, s');
      } else {
        AnnouncerActs(s, l, s', r);
      }
    }
  }

  /** Writing the outcome makes its writer announce it. */
  lemma SettlingTells(s: State, l: Label, s': State, r: RunId)
    requires Inv(s) && Step(s, l, s')
    requires r in s'.rows && s'.rows[r].status.Terminal() && !(r in s.rows && s.rows[r].status.Terminal())
    ensures Told(s', r)
  {
    OnlyFinishersFinish(s, l, s', r);
    SettledBy(s, s', l.a, l.fails);
  }

  lemma SettledBy(s: State, s': State, a: Agent, fails: bool)
    requires FinWrite(s, s', a, fails) && s'.rows != s.rows
    ensures a in s'.pcs && WillAnnounce(s'.pcs[a]) && s'.pcs[a].claim == s.pcs[a].claim
  {
  }

  lemma {:induction false} ToldHolds(ss: seq<State>, ls: seq<Label>, i: nat, n: nat, r: RunId)
    requires IsTrace(ss, ls) && i <= n < |ss|
    requires forall j :: 0 <= j < |ls| ==> !ls[j].LFinPanic?
    requires !(r in ss[i].rows && ss[i].rows[r].status.Terminal())
    ensures r in ss[n].rows && ss[n].rows[r].status.Terminal() ==> Told(ss[n], r)
  {
    hide Inv, Step, Init, Told;
    if i < n {
      ToldHolds(ss, ls, i, n - 1, r);
      TraceKeeps(ss, ls, n - 1);
      if r in ss[n - 1].rows && ss[n - 1].rows[r].status.Terminal() {
        ToldStays(ss[n - 1], ls[n - 1], ss[n], r);
      } else if r in ss[n].rows && ss[n].rows[r].status.Terminal() {
        SettlingTells(ss[n - 1], ls[n - 1], ss[n], r);
      }
    }
  }

  /** Every outcome written is also published: when all is quiet clients have been told what the row says. */
  lemma OutcomeIsAnnounced(ss: seq<State>, ls: seq<Label>, i: nat, n: nat, r: RunId)
    requires IsTrace(ss, ls) && i <= n < |ss| && Quiet(ss[n])
    requires forall j :: 0 <= j < |ls| ==> !ls[j].LFinPanic?
    requires !(r in ss[i].rows && ss[i].rows[r].status.Terminal())
    requires r in ss[n].rows && ss[n].rows[r].status.Terminal()
    ensures exists k :: 0 <= k < |Get(ss[n].log, r)| && Get(ss[n].log, r)[k].status == ss[n].rows[r].status
  {
    hide Inv, Step, Init;
    ToldHolds(ss, ls, i, n, r);
  }

  // ---------------------------------------------------------------- progress and orphans

  /** After each target of a tracked run clients are told how many are counted, of how many. */
  lemma ProgressIsReported(ss: seq<State>, ls: seq<Label>, n: nat, q: QueueId)
    requires IsTrace(ss, ls) && n < |ls| && At(ss[n], q)
    ensures var s, s', r := ss[n], ss[n + 1], JobAt(ss[n], q).run;
            && (ls[n] == LMark(q) && r in s.sh.runs ==>
                  && At(s', q) && StageAt(s', q).Publishing? && r in s'.sh.runs && r in s'.aux.reqs
                  && s'.sh.runs[r].done == s.sh.runs[r].done + 1
                  && StageAt(s', q).total == |s'.aux.reqs[r].targets| && StageAt(s', q).done == |Marked(s', r)| == s'.sh.runs[r].done)
            && (ls[n] == LReadDone(q) && StageAt(s, q).ReadDone? ==>
                  StageAt(s', q) == Publishing(0, false, StageAt(s, q).total, if r in s.sh.runs then s.sh.runs[r].done else 0, false))
            && (ls[n] == LPublishRunning(q) && StageAt(s, q).Publishing? ==>
                  Get(s'.log, r) == Get(s.log, r) + [Event(Running, StageAt(s, q).total, StageAt(s, q).done)])
  {
    hide Init;
    var r := JobAt(ss[n], q).run;
    assert Step(ss[n], ls[n], ss[n + 1]);
    TraceKeeps(ss, ls, n + 1);
    hide Inv, IsTrace;
    if ls[n] == LMark(q) && r in ss[n].sh.runs {
      MarkCounts(ss[n], ss[n + 1], q);
      TrackedCounts(ss[n + 1], r);
    }
  }

  lemma MarkCounts(s: State, s': State, q: QueueId)
    requires MarkStep(s, s', q) && JobAt(s, q).run in s.sh.runs
    ensures var r := JobAt(s, q).run;
            && At(s', q) && StageAt(s', q).Publishing? && r in s'.sh.runs && s'.sh.runs[r].done == s.sh.runs[r].done + 1
            && StageAt(s', q).total == s'.sh.runs[r].total && StageAt(s', q).done == s'.sh.runs[r].done
  {
  }

  lemma TrackedCounts(s: State, r: RunId)
    requires Inv(s) && r in s.sh.runs
    ensures r in s.aux.reqs && s.sh.runs[r].total == |s.aux.reqs[r].targets| && s.sh.runs[r].done == |Marked(s, r)|
  {
    assert TrackedInv(s, r);
  }

  /**
   Cancel of a run the runner does not know ends with a claim exactly when, at the last look,
   its row is still queued or running; and while the runner tracks the run or somebody is
   writing its outcome it never comes to that look.
   */
  lemma OrphanIsCanceledWhen(ss: seq<State>, ls: seq<Label>, n: nat, a: Agent)
    requires IsTrace(ss, ls) && n < |ls| && a in ss[n].pcs && ss[n].pcs[a].Orphan?
    ensures var s, s', r := ss[n], ss[n + 1], ss[n].pcs[a].run;
            && (ls[n] == LOrphanCheck(a) ==>
                  s'.pcs == if r in s.sh.runs || r in s.sh.finalizing then s.pcs - {a} else s.pcs[a := Orphan(r, ORead)])
            && (ls[n] == LOrphanRead(a, false) ==>
                  s'.pcs == if r in s.rows && (s.rows[r].status == Queued || s.rows[r].status == Running)
                            then s.pcs[a := Fin(Claim(ByOrphan, r, Canceled, 0, 0, []), Write(0))] else s.pcs - {a})
            && (s.pcs[a].os.ORead? ==> r !in s.sh.runs && r !in s.sh.finalizing)
  {
    hide Init;
    assert Step(ss[n], ls[n], ss[n + 1]);
    TraceKeeps(ss, ls, n);
    assert PcInv(ss[n], a, ss[n].pcs[a]);
  }

  // ---------------------------------------------------------------- result rows

  /**
   The result rows say what happened: a target's test that came out ok gets an "ok" row, one
   that failed or was struck by a panic a "failed" one, if it can be stored, and no other step
   writes a row. A panic during a test leads to such a row; any other fails the queue at once.
   */
  lemma RowsSayWhatHappened(ss: seq<State>, ls: seq<Label>, n: nat)
    requires IsTrace(ss, ls) && n < |ls|
    ensures var s, l, s' := ss[n], ls[n], ss[n + 1];
            if l.LEngine? || l.LPanicStore? then
              && At(s, l.q) && (StageAt(s, l.q).Engine? || StageAt(s, l.q).PanicStore?) && StageAt(s, l.q).i < |JobAt(s, l.q).positions|
              && var o := (JobAt(s, l.q).run, JobAt(s, l.q).positions[StageAt(s, l.q).i]);
                 s'.results == if (l.LEngine? && l.out == NoRow) || (l.LPanicStore? && l.fails) then s.results
                               else s.results[o := Get(s.results, o) + [l.LEngine? && l.out == OkRow]]
            else s'.results == s.results
  {
    hide Init;
    assert Step(ss[n], ls[n], ss[n + 1]);
    if !ls[n].LEngine? && !ls[n].LPanicStore? {
      hide Step;
      LogFollows(ss[n], ls[n], ss[n + 1], 0);
    } else {
      hide IsTrace;
    }
  }

  lemma PanicIsRecovered(ss: seq<State>, ls: seq<Label>, n: nat, q: QueueId)
    requires IsTrace(ss, ls) && n < |ls| && ls[n] == LPanic(q)
    ensures At(ss[n], q) && At(ss[n + 1], q)
    ensures StageAt(ss[n + 1], q) == if StageAt(ss[n], q).Engine? then PanicStore(StageAt(ss[n], q).i) else Finish(true, false)
  {
    assert Step(ss[n], ls[n], ss[n + 1]);
  }
}
