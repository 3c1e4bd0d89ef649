/**
 What decides how a run ends: who asked for its cancellation and what its queues
 reported, read off the steps of the execution alone.
 */
module RunnerOutcome {
  import opened Options
  import opened RunnerTypes
  import opened RunnerModel
  import opened RunnerInvariant
  import opened RunnerProof
  import opened RunnerEnqueue
  import opened RunnerTheorems
  import opened RunnerProperties

  // ---------------------------------------------------------------- who moves

  function Actor(l: Label): Agent {
    match l
    case LStart => Caller(0)
    case LDequeue(q) => Worker(q)
    case LWorkerExit(q) => Worker(q)
    case LExecBegin(q) => Worker(q)
    case LWriteRunning(q, _) => Worker(q)
    case LReadDone(q) => Worker(q)
    case LPublishRunning(q) => Worker(q)
    case LLoop(q) => Worker(q)
    case LEngine(q, _) => Worker(q)
    case LAfterRow(q) => Worker(q)
    case LMark(q) => Worker(q)
    case LPanic(q) => Worker(q)
    case LPanicStore(q, _) => Worker(q)
    case LFinish(q) => Worker(q)
    case _ => l.a
  }

  ghost predicate OnlyMoves(s: State, s': State, a: Agent) {
    forall b :: b != a ==> PcOf(s', b) == PcOf(s, b)
  }

  lemma StarterMoves(s: State, l: Label, s': State)
    requires Step(s, l, s')
    requires l.LStart? || l.LEnqCall? || l.LEnqLock? || l.LEnqDedupe? || l.LEnqCreate? || l.LEnqBegin? || l.LEnqUnlock? || l.LEnqRegister?
    ensures OnlyMoves(s, s', Actor(l))
  {
    hide RegisterSection;
  }

  lemma CancelMoves(s: State, l: Label, s': State)
    requires Step(s, l, s')
    requires l.LCancel? || l.LOrphanLock? || l.LOrphanCheck? || l.LOrphanRead?
    ensures OnlyMoves(s, s', Actor(l))
  {
    hide CancelSection;
  }

  lemma WriterMoves(s: State, l: Label, s': State)
    requires Step(s, l, s') && (l.LFinWrite? || l.LFinPanic?)
    ensures OnlyMoves(s, s', Actor(l))
  {
    hide SetRunStatus, Attempts;
  }

  lemma PublisherMoves(s: State, l: Label, s': State)
    requires Step(s, l, s') && l.LFinPublish?
    ensures OnlyMoves(s, s', Actor(l))
  {
  }

  lemma EnderMoves(s: State, l: Label, s': State)
    requires Step(s, l, s') && l.LFinEnd?
    ensures OnlyMoves(s, s', Actor(l))
  {
  }

  lemma WaiterMoves(s: State, l: Label, s': State)
    requires Step(s, l, s') && (l.LShutCall? || l.LShutWait? || l.LShutDrain?)
    ensures OnlyMoves(s, s', Actor(l))
  {
    hide CloseSection, AllExited;
  }

  lemma ForcerMoves(s: State, l: Label, s': State)
    requires Step(s, l, s') && (l.LShutMark? || l.LShutClaim?)
    ensures OnlyMoves(s, s', Actor(l))
  {
    hide MarkAllSection, ClaimSection;
  }

  lemma OpeningMoves(s: State, l: Label, s': State)
    requires Step(s, l, s')
    requires l.LDequeue? || l.LWorkerExit? || l.LExecBegin? || l.LWriteRunning? || l.LReadDone? || l.LPublishRunning?
    ensures OnlyMoves(s, s', Actor(l))
  {
    hide StartSection, MustNotStart;
  }

  lemma LoopMoves(s: State, l: Label, s': State)
    requires Step(s, l, s') && (l.LLoop? || l.LAfterRow?)
    ensures OnlyMoves(s, s', Actor(l))
  {
  }

  lemma EngineMoves(s: State, l: Label, s': State)
    requires Step(s, l, s') && l.LEngine?
    ensures OnlyMoves(s, s', Actor(l))
  {
  }

  lemma PanicMoves(s: State, l: Label, s': State)
    requires Step(s, l, s') && (l.LPanic? || l.LPanicStore?)
    ensures OnlyMoves(s, s', Actor(l))
  {
  }

  lemma CountingMoves(s: State, l: Label, s': State)
    requires Step(s, l, s') && (l.LMark? || l.LFinish?)
    ensures OnlyMoves(s, s', Actor(l))
  {
    hide MarkSection, FinishSection, Outcome, FinalStatus;
  }

  /** One agent moves in each step. */
  lemma OneMoves(s: State, l: Label, s': State)
    requires Step(s, l, s')
    ensures OnlyMoves(s, s', Actor(l))
  {
    hide Step, OnlyMoves, Actor;
    if l.LStart? || l.LEnqCall? || l.LEnqLock? || l.LEnqDedupe? || l.LEnqCreate? || l.LEnqBegin? || l.LEnqUnlock? || l.LEnqRegister? {
      StarterMoves(s, l, s');
    } else if l.LShutCall? || l.LShutWait? || l.LShutDrain? {
      WaiterMoves(s, l, s');
    } else if l.LShutMark? || l.LShutClaim? {
      ForcerMoves(s, l, s');
    } else if l.LCancel? || l.LOrphanLock? || l.LOrphanCheck? || l.LOrphanRead? {
      CancelMoves(s, l, s');
    } else if l.LFinWrite? || l.LFinPanic? {
      WriterMoves(s, l, s');
    } else if l.LFinPublish? {
      PublisherMoves(s, l, s');
    } else if l.LFinEnd? {
      EnderMoves(s, l, s');
    } else if l.LDequeue? || l.LWorkerExit? || l.LExecBegin? || l.LWriteRunning? || l.LReadDone? || l.LPublishRunning? {
      OpeningMoves(s, l, s');
    } else if l.LMark? || l.LFinish? {
      CountingMoves(s, l, s');
    } else if l.LPanic? || l.LPanicStore? {
      PanicMoves(s, l, s');
    } else if l.LEngine? {
      EngineMoves(s, l, s');
    } else {
      LoopMoves(s, l, s');
    }
  }

  // ---------------------------------------------------------------- which steps touch tracked runs

  predicate Touches(l: Label) {
    l.LEnqRegister? || l.LCancel? || l.LExecBegin? || l.LMark? || l.LFinish? || l.LShutMark? || l.LShutClaim?
  }

  ghost predicate SameRuns(s: State, l: Label, s': State) {
    && s'.sh.runs == s.sh.runs && s'.sh.ctxDone == s.sh.ctxDone && s'.aux.registered == s.aux.registered
    && (s'.sh.closing <==> s.sh.closing || l.LShutCall?)
    && (l.LEnqBegin? || l.LFinEnd? || s'.sh.finalizing == s.sh.finalizing)
  }

  lemma StarterRuns(s: State, l: Label, s': State)
    requires Step(s, l, s')
    requires l.LStart? || l.LEnqCall? || l.LEnqLock? || l.LEnqDedupe? || l.LEnqCreate? || l.LEnqBegin? || l.LEnqUnlock?
    ensures SameRuns(s, l, s')
  {
  }

  lemma OrphanRuns(s: State, l: Label, s': State)
    requires Step(s, l, s')
    requires l.LOrphanLock? || l.LOrphanCheck? || l.LOrphanRead?
    ensures SameRuns(s, l, s')
  {
  }

  lemma WriterRuns(s: State, l: Label, s': State)
    requires Step(s, l, s') && (l.LFinWrite? || l.LFinPanic?)
    ensures SameRuns(s, l, s')
  {
    hide SetRunStatus, Attempts;
  }

  lemma PublisherRuns(s: State, l: Label, s': State)
    requires Step(s, l, s') && l.LFinPublish?
    ensures SameRuns(s, l, s')
  {
  }

  lemma EnderRuns(s: State, l: Label, s': State)
    requires Step(s, l, s') && l.LFinEnd?
    ensures SameRuns(s, l, s')
  {
  }

  lemma ShutdownRuns(s: State, l: Label, s': State)
    requires Step(s, l, s')
    requires l.LShutCall? || l.LShutWait? || l.LShutDrain?
    ensures SameRuns(s, l, s')
  {
    hide AllExited;
  }

  lemma OpeningRuns(s: State, l: Label, s': State)
    requires Step(s, l, s')
    requires l.LDequeue? || l.LWorkerExit? || l.LWriteRunning? || l.LReadDone? || l.LPublishRunning?
    ensures SameRuns(s, l, s')
  {
  }

  lemma TestingRuns(s: State, l: Label, s': State)
    requires Step(s, l, s') && (l.LLoop? || l.LEngine? || l.LAfterRow?)
    ensures SameRuns(s, l, s')
  {
  }

  lemma PanicRuns(s: State, l: Label, s': State)
    requires Step(s, l, s') && (l.LPanic? || l.LPanicStore?)
    ensures SameRuns(s, l, s')
  {
  }

  lemma OthersKeepRuns(s: State, l: Label, s': State)
    requires Step(s, l, s') && !Touches(l)
    ensures SameRuns(s, l, s')
  {
    hide Step, SameRuns;
    if l.LStart? || l.LEnqCall? || l.LEnqLock? || l.LEnqDedupe? || l.LEnqCreate? || l.LEnqBegin? || l.LEnqUnlock? {
      StarterRuns(s, l, s');
    } else if l.LShutCall? || l.LShutWait? || l.LShutDrain? {
      ShutdownRuns(s, l, s');
    } else if l.LOrphanLock? || l.LOrphanCheck? || l.LOrphanRead? {
      OrphanRuns(s, l, s');
    } else if l.LFinWrite? || l.LFinPanic? {
      WriterRuns(s, l, s');
    } else if l.LFinPublish? {
      PublisherRuns(s, l, s');
    } else if l.LFinEnd? {
      EnderRuns(s, l, s');
    } else if l.LDequeue? || l.LWorkerExit? || l.LWriteRunning? || l.LReadDone? || l.LPublishRunning? {
      OpeningRuns(s, l, s');
    } else if l.LPanic? || l.LPanicStore? {
      PanicRuns(s, l, s');
    } else {
      TestingRuns(s, l, s');
    }
  }

  // ---------------------------------------------------------------- flags

  /** Cancel is called for the tracked run, or Shutdown flags all tracked runs. */
  predicate CancelAsked(s: State, l: Label, r: RunId) {
    r in s.sh.runs && ((l.LCancel? && l.r == r) || l.LShutMark?)
  }

  /** A queue of the tracked run reports its outcome. */
  predicate Reports(s: State, l: Label, r: RunId) {
    r in s.sh.runs && l.LFinish? && At(s, l.q) && JobAt(s, l.q).run == r && StageAt(s, l.q).Finish?
  }

  predicate ReportsCanceled(s: State, l: Label, r: RunId) {
    Reports(s, l, r) && StageAt(s, l.q).canceled
  }

  predicate ReportsFailed(s: State, l: Label, r: RunId) {
    Reports(s, l, r) && StageAt(s, l.q).failed
  }

  /** How a step changes what the runner knows of `r`. */
  ghost predicate FlagsStep(s: State, l: Label, s': State, r: RunId) {
    && (r in s.aux.registered ==> r in s'.aux.registered)
    && (r in s.sh.ctxDone || CancelAsked(s, l, r) ==> r in s'.sh.ctxDone)
    && (r in s'.sh.ctxDone && r in s'.sh.runs ==> r in s.sh.ctxDone || CancelAsked(s, l, r))
    && (r in s'.sh.ctxDone ==> r in s.sh.ctxDone || r in s.sh.runs || (l.LEnqRegister? && l.a in s.pcs && Creating(s.pcs[l.a], r)))
    && (s'.sh.closing <==> s.sh.closing || l.LShutCall?)
    && (r in s.sh.runs && r in s'.sh.runs ==>
          var (st, st') := (s.sh.runs[r], s'.sh.runs[r]);
          && st'.total == st.total
          && (st'.canceled <==> st.canceled || CancelAsked(s, l, r) || ReportsCanceled(s, l, r))
          && (st'.failed <==> st.failed || ReportsFailed(s, l, r)))
    && (r !in s.sh.runs && r in s'.sh.runs ==>
          && l.LEnqRegister? && l.a in s.pcs && Creating(s.pcs[l.a], r)
          && !s'.sh.runs[r].canceled && !s'.sh.runs[r].failed && !s'.sh.runs[r].started)
  }

  lemma RegisterFlags(s: State, s': State, a: Agent, r: RunId)
    requires EnqRegister(s, s', a) && s.pcs[a].es.run !in s.sh.runs
    ensures FlagsStep(s, LEnqRegister(a), s', r)
  {
    hide WithQueues, NewQueues, SendAll, QueueOrder, JobsOf, Committed;
  }

  lemma CancelFlags(s: State, s': State, a: Agent, x: RunId, r: RunId)
    requires CancelCall(s, s', a, x)
    ensures FlagsStep(s, LCancel(a, x), s', r)
  {
  }

  lemma ExecFlags(s: State, s': State, q: QueueId, r: RunId)
    requires ExecBegin(s, s', q)
    ensures FlagsStep(s, LExecBegin(q), s', r)
  {
  }

  lemma MarkFlags(s: State, s': State, q: QueueId, r: RunId)
    requires MarkStep(s, s', q)
    ensures FlagsStep(s, LMark(q), s', r)
  {
  }

  /** What finishQueue does to the tracked runs. */
  lemma FinishChange(s: State, s': State, q: QueueId)
    requires FinishStep(s, s', q)
    ensures At(s, q) && StageAt(s, q).Finish? && s'.aux == s.aux && s'.sh.closing == s.sh.closing
    ensures var r, ws := JobAt(s, q).run, StageAt(s, q);
            if r !in s.sh.runs then s'.sh.runs == s.sh.runs && s'.sh.ctxDone == s.sh.ctxDone
            else
              var st := s.sh.runs[r];
              if st.pending > 1 then
                && s'.sh.runs == s.sh.runs[r := st.(failed := st.failed || ws.failed, canceled := st.canceled || ws.canceled,
                                                   pending := st.pending - 1)]
                && s'.sh.ctxDone == s.sh.ctxDone
              else s'.sh.runs == s.sh.runs - {r} && s'.sh.ctxDone == s.sh.ctxDone + {r}
  {
    hide FinalStatus;
  }

  lemma FinishFlags(s: State, s': State, q: QueueId, r: RunId)
    requires FinishStep(s, s', q)
    ensures FlagsStep(s, LFinish(q), s', r)
  {
    FinishChange(s, s', q);
    hide FinishStep;
  }

  lemma MarkAllFlags(s: State, s': State, a: Agent, stuck: seq<RunId>, r: RunId)
    requires ShutMark(s, s', a, stuck)
    ensures FlagsStep(s, LShutMark(a, stuck), s', r)
  {
  }

  lemma ForceFlags(s: State, s': State, a: Agent, r: RunId)
    requires ShutClaim(s, s', a)
    ensures FlagsStep(s, LShutClaim(a), s', r)
  {
  }

  lemma CreatedRun(s: State, a: Agent)
    requires Inv(s) && a in s.pcs && s.pcs[a].Enq? && s.pcs[a].es.Register?
    ensures s.pcs[a].es.run !in s.sh.runs
  {
    assert PcInv(s, a, s.pcs[a]);
  }

  lemma EnqueueFlags(s: State, s': State, a: Agent, r: RunId)
    requires Inv(s) && EnqRegister(s, s', a)
    ensures FlagsStep(s, LEnqRegister(a), s', r)
  {
    hide Inv, FlagsStep, EnqRegister;
    RegisterStage(s, s', a);
    CreatedRun(s, a);
    RegisterFlags(s, s', a, r);
  }

  lemma OtherFlags(s: State, l: Label, s': State, r: RunId)
    requires SameRuns(s, l, s') && !Touches(l)
    ensures FlagsStep(s, l, s', r)
  {
    hide At, JobAt, StageAt, Creating;
  }

  lemma StartedFlags(s: State, l: Label, s': State, r: RunId)
    requires Inv(s) && Step(s, l, s') && (l.LEnqRegister? || l.LCancel? || l.LExecBegin?)
    ensures FlagsStep(s, l, s', r)
  {
    hide Inv, FlagsStep, EnqRegister, CancelCall, ExecBegin;
    match l
    case LEnqRegister(a) => EnqueueFlags(s, s', a, r);
    case LCancel(a, x) => CancelFlags(s, s', a, x, r);
    case LExecBegin(q) => ExecFlags(s, s', q, r);
  }

  lemma CountedFlags(s: State, l: Label, s': State, r: RunId)
    requires Step(s, l, s') && (l.LMark? || l.LFinish? || l.LShutMark? || l.LShutClaim?)
    ensures FlagsStep(s, l, s', r)
  {
    hide FlagsStep, MarkStep, FinishStep, ShutMark, ShutClaim;
    match l
    case LMark(q) => MarkFlags(s, s', q, r);
    case LFinish(q) => FinishFlags(s, s', q, r);
    case LShutMark(a, stuck) => MarkAllFlags(s, s', a, stuck, r);
    case LShutClaim(a) => ForceFlags(s, s', a, r);
  }

  lemma FlagsFollow(s: State, l: Label, s': State, r: RunId)
    requires Inv(s) && Step(s, l, s')
    ensures FlagsStep(s, l, s', r)
  {
    hide Inv, Step, FlagsStep, SameRuns;
    if l.LEnqRegister? || l.LCancel? || l.LExecBegin? {
      StartedFlags(s, l, s', r);
    } else if Touches(l) {
      CountedFlags(s, l, s', r);
    } else {
      OthersKeepRuns(s, l, s');
      OtherFlags(s, l, s', r);
    }
  }

  lemma RegisterStage(s: State, s': State, a: Agent)
    requires EnqRegister(s, s', a)
    ensures a in s.pcs && s.pcs[a].Enq? && s.pcs[a].es.Register?
  {
    hide RegisterSection;
  }

  // ---------------------------------------------------------------- where claims come from

  /** The agent's claim is the one it held, or this step made it: `r` is the run it was made for. */
  ghost predicate ClaimStep(s: State, l: Label, s': State, b: Agent) {
    AtFin(s', b) ==>
      var c := s'.pcs[b].claim;
      || (AtFin(s, b) && s.pcs[b].claim == c && (s'.pcs[b] == s.pcs[b] || l.LFinWrite? || l.LFinPublish? || l.LFinEnd?))
      || (s'.pcs[b].fs == Write(0) && NewClaim(s, l, b, c))
  }

  predicate NewClaim(s: State, l: Label, b: Agent, c: Claim) {
    match l
    case LEnqRegister(a) =>
      && b == a && a in s.pcs && Creating(s.pcs[a], c.run)
      && ((c.kind.ByRefusal? && c.status.Canceled?) || (c.kind.ByQueueFull? && c.status.Failed?))
    case LCancel(a, r) => b == a && c.kind.ByCancel? && c.run == r && r in s.sh.runs && c.status.Canceled?
    case LOrphanRead(a, fails) =>
      b == a && !fails && c.kind.ByOrphan? && a in s.pcs && s.pcs[a].Orphan? && c.run == s.pcs[a].run && c.status.Canceled?
    case LFinish(q) =>
      && b == Worker(q) && c.kind.ByLastQueue? && Reports(s, l, c.run)
      && var (st, ws) := (s.sh.runs[c.run], StageAt(s, q));
         c.status == if st.canceled || ws.canceled then Canceled else if st.failed || ws.failed then Failed else Done
    case LShutClaim(a) => b == a && c.kind.ByShutdown? && c.run in s.sh.runs && c.status.Canceled?
    case _ => false
  }

  lemma RegisterClaims(s: State, s': State, a: Agent)
    requires EnqRegister(s, s', a)
    ensures ClaimStep(s, LEnqRegister(a), s', a)
  {
    hide RegisterSection;
  }

  lemma CancelClaims(s: State, s': State, a: Agent, r: RunId)
    requires CancelCall(s, s', a, r)
    ensures ClaimStep(s, LCancel(a, r), s', a)
  {
    hide CancelSection;
  }

  lemma OrphanClaims(s: State, s': State, a: Agent, fails: bool)
    requires OrphanRead(s, s', a, fails)
    ensures ClaimStep(s, LOrphanRead(a, fails), s', a)
  {
  }

  lemma FinishClaims(s: State, s': State, q: QueueId)
    requires FinishStep(s, s', q)
    ensures ClaimStep(s, LFinish(q), s', Worker(q))
  {
    hide FinishSection;
  }

  lemma ForceClaims(s: State, s': State, a: Agent)
    requires ShutClaim(s, s', a)
    ensures ClaimStep(s, LShutClaim(a), s', a)
  {
    hide ClaimSection;
  }

  lemma WriterClaims(s: State, l: Label, s': State)
    requires Step(s, l, s') && (l.LFinWrite? || l.LFinPanic?)
    ensures ClaimStep(s, l, s', l.a)
  {
    hide SetRunStatus, Attempts;
  }

  lemma PublisherClaims(s: State, l: Label, s': State)
    requires Step(s, l, s') && l.LFinPublish?
    ensures ClaimStep(s, l, s', l.a)
  {
  }

  lemma EnderClaims(s: State, l: Label, s': State)
    requires Step(s, l, s') && l.LFinEnd?
    ensures ClaimStep(s, l, s', l.a)
  {
  }

  lemma EnqueueNeverClaims(s: State, l: Label, s': State)
    requires Step(s, l, s') && (l.LEnqCall? || l.LEnqLock? || l.LEnqDedupe? || l.LEnqCreate? || l.LEnqBegin? || l.LEnqUnlock?)
    ensures !AtFin(s', Actor(l))
  {
  }

  lemma ShutdownNeverClaims(s: State, l: Label, s': State)
    requires Step(s, l, s') && (l.LShutCall? || l.LShutWait? || l.LShutDrain? || l.LShutMark? || l.LOrphanLock? || l.LOrphanCheck?)
    ensures ClaimStep(s, l, s', Actor(l))
  {
    hide AllExited, MarkAllSection, CloseSection, NewClaim;
  }

  lemma OpeningNeverClaims(s: State, l: Label, s': State)
    requires Step(s, l, s')
    requires l.LDequeue? || l.LWorkerExit? || l.LExecBegin? || l.LWriteRunning? || l.LReadDone? || l.LPublishRunning?
    ensures !AtFin(s', Actor(l))
  {
    hide StartSection, MustNotStart;
  }

  lemma TestingNeverClaims(s: State, l: Label, s': State)
    requires Step(s, l, s')
    requires l.LLoop? || l.LEngine? || l.LAfterRow? || l.LPanic? || l.LPanicStore? || l.LMark?
    ensures !AtFin(s', Actor(l))
  {
    hide MarkSection;
  }

  lemma ClaimMakers(s: State, l: Label, s': State)
    requires Step(s, l, s') && (l.LEnqRegister? || l.LCancel? || l.LOrphanRead? || l.LFinish? || l.LShutClaim?)
    ensures ClaimStep(s, l, s', Actor(l))
  {
    hide EnqRegister, CancelCall, OrphanRead, FinishStep, ShutClaim, ClaimStep;
    match l
    case LEnqRegister(a) => RegisterClaims(s, s', a);
    case LCancel(a, r) => CancelClaims(s, s', a, r);
    case LOrphanRead(a, fails) => OrphanClaims(s, s', a, fails);
    case LFinish(q) => FinishClaims(s, s', q);
    case LShutClaim(a) => ForceClaims(s, s', a);
  }

  lemma ActorClaims(s: State, l: Label, s': State)
    requires Step(s, l, s') && !l.LStart?
    ensures ClaimStep(s, l, s', Actor(l))
  {
    hide Step, NewClaim;
    if l.LEnqRegister? || l.LCancel? || l.LOrphanRead? || l.LFinish? || l.LShutClaim? {
      hide ClaimStep;
      ClaimMakers(s, l, s');
    } else if l.LFinWrite? || l.LFinPanic? {
      WriterClaims(s, l, s');
    } else if l.LFinPublish? {
      PublisherClaims(s, l, s');
    } else if l.LFinEnd? {
      EnderClaims(s, l, s');
    } else if l.LEnqCall? || l.LEnqLock? || l.LEnqDedupe? || l.LEnqCreate? || l.LEnqBegin? || l.LEnqUnlock? {
      EnqueueNeverClaims(s, l, s');
    } else if l.LShutCall? || l.LShutWait? || l.LShutDrain? || l.LShutMark? || l.LOrphanLock? || l.LOrphanCheck? {
      ShutdownNeverClaims(s, l, s');
    } else if l.LDequeue? || l.LWorkerExit? || l.LExecBegin? || l.LWriteRunning? || l.LReadDone? || l.LPublishRunning? {
      OpeningNeverClaims(s, l, s');
    } else {
      TestingNeverClaims(s, l, s');
    }
  }

  lemma ClaimsFollow(s: State, l: Label, s': State, b: Agent)
    requires Step(s, l, s')
    ensures ClaimStep(s, l, s', b)
  {
    hide Step, NewClaim;
    if b == Actor(l) && !l.LStart? {
      ActorClaims(s, l, s');
    } else if l.LStart? {
      StartKeepsPcs(s, s');
    } else {
      OneMoves(s, l, s');
      assert PcOf(s', b) == PcOf(s, b);
    }
  }

  lemma StartKeepsPcs(s: State, s': State)
    requires Step(s, LStart, s')
    ensures s'.pcs == s.pcs
  {
  }

  // ---------------------------------------------------------------- the history of a run

  ghost predicate WasCanceled(ss: seq<State>, ls: seq<Label>, n: nat, r: RunId)
    requires n <= |ls| < |ss|
  {
    exists k :: 0 <= k < n && (CancelAsked(ss[k], ls[k], r) || ReportsCanceled(ss[k], ls[k], r))
  }

  ghost predicate WasFailed(ss: seq<State>, ls: seq<Label>, n: nat, r: RunId)
    requires n <= |ls| < |ss|
  {
    exists k :: 0 <= k < n && ReportsFailed(ss[k], ls[k], r)
  }

  ghost predicate WasAsked(ss: seq<State>, ls: seq<Label>, n: nat, r: RunId)
    requires n <= |ls| < |ss|
  {
    exists k :: 0 <= k < n && CancelAsked(ss[k], ls[k], r)
  }

  lemma TrackedIsRegistered(s: State, r: RunId)
    requires Inv(s) && r in s.sh.runs
    ensures r in s.aux.registered && Pending(s, r)
    ensures forall b :: AtFin(s, b) ==> s.pcs[b].claim.run != r
  {
    assert TrackedInv(s, r);
    forall b | AtFin(s, b) ensures s.pcs[b].claim.run != r {
      assert PcInv(s, b, s.pcs[b]);
    }
  }

  lemma CreatingIsUnregistered(s: State, a: Agent, r: RunId)
    requires Inv(s) && a in s.pcs && Creating(s.pcs[a], r)
    ensures r !in s.aux.registered && r !in s.sh.runs
  {
    assert PcInv(s, a, s.pcs[a]);
  }

  /** A run enters the run map once: before that it was never tracked. */
  lemma {:induction false} NeverTrackedBefore(ss: seq<State>, ls: seq<Label>, n: nat, r: RunId)
    requires IsTrace(ss, ls) && n < |ss| && r !in ss[n].aux.registered
    ensures forall k :: 0 <= k <= n ==> r !in ss[k].sh.runs
  {
    hide Inv, Step, Init;
    TraceKeeps(ss, ls, n);
    if r in ss[n].sh.runs {
      TrackedIsRegistered(ss[n], r);
    }
    if n > 0 {
      TraceKeeps(ss, ls, n - 1);
      FlagsFollow(ss[n - 1], ls[n - 1], ss[n], r);
      NeverTrackedBefore(ss, ls, n - 1, r);
    }
  }

  /** The flags of a tracked run are its history: who asked to cancel it and what its queues reported. */
  lemma {:induction false} FlagsAreHistory(ss: seq<State>, ls: seq<Label>, n: nat, r: RunId)
    requires IsTrace(ss, ls) && n < |ss| && r in ss[n].sh.runs
    ensures ss[n].sh.runs[r].canceled <==> WasCanceled(ss, ls, n, r)
    ensures ss[n].sh.runs[r].failed <==> WasFailed(ss, ls, n, r)
  {
    hide Inv, Step;
    if n > 0 {
      hide Init;
      TraceKeeps(ss, ls, n - 1);
      FlagsFollow(ss[n - 1], ls[n - 1], ss[n], r);
      if r in ss[n - 1].sh.runs {
        FlagsAreHistory(ss, ls, n - 1, r);
      } else {
        CreatingIsUnregistered(ss[n - 1], ls[n - 1].a, r);
        NeverTrackedBefore(ss, ls, n - 1, r);
      }
    }
  }

  /**
   How a run whose queues all report ends: "canceled" exactly when it was asked to stop while
   it was tracked or a queue of it, the last included, reported so; otherwise "failed" exactly
   when a queue of it reported that; otherwise "done".
   */
  lemma LastQueueDecides(ss: seq<State>, ls: seq<Label>, n: nat, q: QueueId)
    requires IsTrace(ss, ls) && n < |ls| && ls[n] == LFinish(q)
    requires At(ss[n], q) && JobAt(ss[n], q).run in ss[n].sh.runs && JobAt(ss[n], q).run !in ss[n + 1].sh.runs
    ensures AtFin(ss[n + 1], Worker(q))
    ensures var r, c := JobAt(ss[n], q).run, ss[n + 1].pcs[Worker(q)].claim;
            && c.run == r && c.total == ss[n].sh.runs[r].total && c.done == ss[n].sh.runs[r].done
            && (c.status == Canceled <==> WasCanceled(ss, ls, n + 1, r))
            && (c.status == Failed <==> !WasCanceled(ss, ls, n + 1, r) && WasFailed(ss, ls, n + 1, r))
            && (c.status == Done <==> !WasCanceled(ss, ls, n + 1, r) && !WasFailed(ss, ls, n + 1, r))
  {
    var r := JobAt(ss[n], q).run;
    assert Step(ss[n], ls[n], ss[n + 1]);
    LastClaim(ss[n], ss[n + 1], q);
    hide Step, Init;
    FlagsAreHistory(ss, ls, n, r);
  }

  lemma LastClaim(s: State, s': State, q: QueueId)
    requires FinishStep(s, s', q) && JobAt(s, q).run in s.sh.runs && JobAt(s, q).run !in s'.sh.runs
    ensures AtFin(s', Worker(q))
    ensures var r, st, ws, c := JobAt(s, q).run, s.sh.runs[JobAt(s, q).run], StageAt(s, q), s'.pcs[Worker(q)].claim;
            && c.run == r && c.total == st.total && c.done == st.done && ws.Finish?
            && c.status == if st.canceled || ws.canceled then Canceled else if st.failed || ws.failed then Failed else Done
  {
  }

  // ---------------------------------------------------------------- cancelling takes hold

  /** What a call of Cancel finds and leaves: the caller claims a run no queue has started, and only flags one that has. */
  lemma CancelAnswers(ss: seq<State>, ls: seq<Label>, n: nat, a: Agent, r: RunId)
    requires IsTrace(ss, ls) && n < |ls| && ls[n] == LCancel(a, r) && r in ss[n].sh.runs
    ensures var s, s' := ss[n], ss[n + 1]; var st := s.sh.runs[r];
            && s'.sh.ctxDone == s.sh.ctxDone + {r} && s'.rows == s.rows && s'.log == s.log
            && (st.started ==> s'.sh.runs == s.sh.runs[r := st.(canceled := true)] && s'.sh.finalizing == s.sh.finalizing && s'.pcs == s.pcs)
            && (!st.started ==>
                  && s'.sh.runs == s.sh.runs - {r} && s'.sh.finalizing == s.sh.finalizing + {r}
                  && s'.pcs == s.pcs[a := Fin(Claim(ByCancel, r, Canceled, st.total, 0, []), Write(0))])
  {
    assert Step(ss[n], ls[n], ss[n + 1]);
    CancelEffect(ss[n], ss[n + 1], a, r);
  }

  lemma CancelEffect(s: State, s': State, a: Agent, r: RunId)
    requires CancelCall(s, s', a, r) && r in s.sh.runs
    ensures var st := s.sh.runs[r];
            && s'.sh.ctxDone == s.sh.ctxDone + {r} && s'.rows == s.rows && s'.log == s.log
            && (st.started ==> s'.sh.runs == s.sh.runs[r := st.(canceled := true)] && s'.sh.finalizing == s.sh.finalizing && s'.pcs == s.pcs)
            && (!st.started ==>
                  && s'.sh.runs == s.sh.runs - {r} && s'.sh.finalizing == s.sh.finalizing + {r}
                  && s'.pcs == s.pcs[a := Fin(Claim(ByCancel, r, Canceled, st.total, 0, []), Write(0))])
  {
    CancelShares(s.sh, r);
    hide CancelSection;
  }

  lemma CancelShares(sh: Shared, r: RunId)
    requires r in sh.runs
    ensures var sh' := CancelSection(sh, r); var st := sh.runs[r];
            && sh'.ctxDone == sh.ctxDone + {r}
            && (st.started ==> sh'.runs == sh.runs[r := st.(canceled := true)] && sh'.finalizing == sh.finalizing)
            && (!st.started ==> sh'.runs == sh.runs - {r} && sh'.finalizing == sh.finalizing + {r})
  {
  }

  /** Nothing can end `r` other than as "canceled" any more. */
  ghost predicate Stopped(s: State, r: RunId) {
    && r in s.sh.ctxDone && r in s.aux.registered
    && (r in s.sh.runs ==> s.sh.runs[r].canceled)
    && (forall b :: AtFin(s, b) && s.pcs[b].claim.run == r ==> s.pcs[b].claim.status == Canceled)
    && (r in s.rows && s.rows[r].status.Terminal() ==> s.rows[r].status == Canceled)
  }

  lemma RegisteredIsNotCreated(s: State, a: Agent, r: RunId)
    requires Inv(s) && r in s.aux.registered
    ensures !(a in s.pcs && Creating(s.pcs[a], r))
  {
    if a in s.pcs && Creating(s.pcs[a], r) {
      CreatingIsUnregistered(s, a, r);
    }
  }

  /** A new claim on a run that is stopped, or is being stopped by this step, says "canceled". */
  lemma StoppedClaims(s: State, l: Label, s': State, r: RunId, b: Agent)
    requires Inv(s) && Step(s, l, s') && AtFin(s', b) && s'.pcs[b].claim.run == r
    requires Stopped(s, r) || CancelAsked(s, l, r)
    ensures s'.pcs[b].claim.status == Canceled
  {
    hide Inv, Step;
    ClaimsFollow(s, l, s', b);
    if CancelAsked(s, l, r) {
      TrackedIsRegistered(s, r);
    } else if l.LEnqRegister? {
      RegisteredIsNotCreated(s, l.a, r);
    }
  }

  lemma StoppedStays(s: State, l: Label, s': State, r: RunId)
    requires Inv(s) && Step(s, l, s')
    requires Stopped(s, r) || CancelAsked(s, l, r)
    ensures Stopped(s', r)
  {
    hide Inv, Step;
    FlagsFollow(s, l, s', r);
    forall b | AtFin(s', b) && s'.pcs[b].claim.run == r ensures s'.pcs[b].claim.status == Canceled {
      StoppedClaims(s, l, s', r, b);
    }
    if CancelAsked(s, l, r) {
      TrackedIsRegistered(s, r);
    } else if l.LEnqRegister? {
      RegisteredIsNotCreated(s, l.a, r);
    }
    if r in s'.rows && s'.rows[r].status.Terminal() && !(r in s.rows && s.rows[r] == s'.rows[r]) {
      OnlyFinishersFinish(s, l, s', r);
    }
  }

  /**
   Once Cancel has been called for a tracked run, or Shutdown has flagged it, there is no way
   back: its context stays done, it stays flagged while it is tracked, every claim ever made
   on it says "canceled", and that is the only outcome its row can get.
   */
  lemma CancelHolds(ss: seq<State>, ls: seq<Label>, i: nat, n: nat, r: RunId)
    requires IsTrace(ss, ls) && i < n < |ss|
    requires r in ss[i].sh.runs && ((ls[i].LCancel? && ls[i].r == r) || ls[i].LShutMark?)
    ensures r in ss[n].sh.ctxDone
    ensures r in ss[n].sh.runs ==> ss[n].sh.runs[r].canceled
    ensures forall b :: AtFin(ss[n], b) && ss[n].pcs[b].claim.run == r ==> ss[n].pcs[b].claim.status == Canceled
    ensures r in ss[n].rows && ss[n].rows[r].status.Terminal() ==> ss[n].rows[r].status == Canceled
  {
    hide Inv, Step, Init;
    StoppedFrom(ss, ls, i, n, r);
  }

  lemma {:induction false} StoppedFrom(ss: seq<State>, ls: seq<Label>, i: nat, n: nat, r: RunId)
    requires IsTrace(ss, ls) && i < n < |ss| && CancelAsked(ss[i], ls[i], r)
    ensures Stopped(ss[n], r)
  {
    hide Inv, Step, Init, Stopped, CancelAsked;
    TraceKeeps(ss, ls, n - 1);
    if n > i + 1 {
      StoppedFrom(ss, ls, i, n - 1, r);
    }
    StoppedStays(ss[n - 1], ls[n - 1], ss[n], r);
  }

  /** After that no target of the run is started: every queue of it stops where it stands. */
  lemma CanceledRunStops(ss: seq<State>, ls: seq<Label>, i: nat, n: nat, r: RunId, q: QueueId)
    requires IsTrace(ss, ls) && i < n < |ls| && At(ss[n], q) && JobAt(ss[n], q).run == r
    requires r in ss[i].sh.runs && ((ls[i].LCancel? && ls[i].r == r) || ls[i].LShutMark?)
    ensures ls[n] == LLoop(q) ==> At(ss[n + 1], q) && StageAt(ss[n + 1], q).Finish? && StageAt(ss[n + 1], q).canceled
    ensures ls[n] == LExecBegin(q) ==> !At(ss[n + 1], q) || StageAt(ss[n + 1], q) == Finish(false, true)
  {
    CancelHolds(ss, ls, i, n, r);
    assert Step(ss[n], ls[n], ss[n + 1]);
    hide Init;
    if ls[n] == LLoop(q) {
      LoopTurn(ss[n], ss[n + 1], q);
    } else if ls[n] == LExecBegin(q) {
      ExecTurn(ss[n], ss[n + 1], q);
    }
  }

  /** What the worker looks at before each target. */
  lemma LoopTurn(s: State, s': State, q: QueueId)
    requires LoopStep(s, s', q)
    ensures At(s, q) && StageAt(s, q).Loop? && At(s', q) && JobAt(s', q) == JobAt(s, q)
    ensures var r, i, qf := JobAt(s, q).run, StageAt(s, q).i, StageAt(s, q).queueFailed;
            StageAt(s', q) == if r in s.sh.ctxDone then Finish(qf, true)
                              else if i < |JobAt(s, q).positions| then Engine(i, qf) else Finish(qf, false)
  {
  }

  /** What the worker looks at before a job. */
  lemma ExecTurn(s: State, s': State, q: QueueId)
    requires ExecBegin(s, s', q)
    ensures At(s, q) && StageAt(s, q).Got?
    ensures var r := JobAt(s, q).run;
            if r !in s.sh.runs then !At(s', q) && Worker(q) !in s'.pcs && s'.sh == s.sh
            else
              && At(s', q) && JobAt(s', q) == JobAt(s, q)
              && if s.sh.runs[r].canceled || s.sh.closing || r in s.sh.ctxDone
                 then StageAt(s', q) == Finish(false, true) && s'.sh == s.sh
                 else StageAt(s', q) == SetRunning(s.sh.runs[r].total, 0)
                      && s'.sh == s.sh.(runs := s.sh.runs[r := s.sh.runs[r].(started := true)])
  {
  }

  // ---------------------------------------------------------------- and nothing else does

  /** A run whose context is done has its row, and nobody is about to register it. */
  ghost predicate CtxInv(s: State) {
    forall r :: r in s.sh.ctxDone ==> r in s.rows && forall a :: a in s.pcs ==> !Creating(s.pcs[a], r)
  }

  /** What the agent is creating it was creating before, or this step created the row. */
  ghost predicate CreatesStep(s: State, l: Label, s': State, b: Agent) {
    forall r :: b in s'.pcs && Creating(s'.pcs[b], r) ==>
                  || (b in s.pcs && Creating(s.pcs[b], r) && l != LEnqRegister(b))
                  || (l.LEnqCreate? && r !in s.rows)
  }

  lemma EnqueueCreates(s: State, l: Label, s': State)
    requires Step(s, l, s')
    requires l.LEnqCall? || l.LEnqLock? || l.LEnqDedupe? || l.LEnqCreate? || l.LEnqBegin? || l.LEnqUnlock? || l.LEnqRegister?
    ensures CreatesStep(s, l, s', l.a)
  {
    hide RegisterSection;
  }

  lemma CancelCreates(s: State, l: Label, s': State)
    requires Step(s, l, s') && (l.LCancel? || l.LOrphanLock? || l.LOrphanCheck? || l.LOrphanRead?)
    ensures CreatesStep(s, l, s', l.a)
  {
    hide CancelSection;
  }

  lemma WriterCreates(s: State, l: Label, s': State)
    requires Step(s, l, s') && (l.LFinWrite? || l.LFinPanic?)
    ensures CreatesStep(s, l, s', l.a)
  {
    hide SetRunStatus, Attempts;
  }

  lemma PublisherCreates(s: State, l: Label, s': State)
    requires Step(s, l, s') && l.LFinPublish?
    ensures CreatesStep(s, l, s', l.a)
  {
  }

  lemma EnderCreates(s: State, l: Label, s': State)
    requires Step(s, l, s') && l.LFinEnd?
    ensures CreatesStep(s, l, s', l.a)
  {
  }

  lemma WaiterCreates(s: State, l: Label, s': State)
    requires Step(s, l, s') && (l.LShutCall? || l.LShutWait? || l.LShutDrain?)
    ensures CreatesStep(s, l, s', l.a)
  {
    hide AllExited, CloseSection;
  }

  lemma ForcerCreates(s: State, l: Label, s': State)
    requires Step(s, l, s') && (l.LShutMark? || l.LShutClaim?)
    ensures CreatesStep(s, l, s', l.a)
  {
    hide MarkAllSection, ClaimSection;
  }

  lemma ActorCreates(s: State, l: Label, s': State)
    requires Step(s, l, s') && Actor(l).Caller? && !l.LStart?
    ensures CreatesStep(s, l, s', l.a)
  {
    hide Step, CreatesStep;
    if l.LCancel? || l.LOrphanLock? || l.LOrphanCheck? || l.LOrphanRead? {
      CancelCreates(s, l, s');
    } else if l.LFinWrite? || l.LFinPanic? {
      WriterCreates(s, l, s');
    } else if l.LFinPublish? {
      PublisherCreates(s, l, s');
    } else if l.LFinEnd? {
      EnderCreates(s, l, s');
    } else if l.LShutCall? || l.LShutWait? || l.LShutDrain? {
      WaiterCreates(s, l, s');
    } else if l.LShutMark? || l.LShutClaim? {
      ForcerCreates(s, l, s');
    } else {
      EnqueueCreates(s, l, s');
    }
  }

  lemma WorkerNeverCreates(s: State, q: QueueId, r: RunId)
    requires Inv(s) && Worker(q) in s.pcs
    ensures !Creating(s.pcs[Worker(q)], r)
  {
    assert PcInv(s, Worker(q), s.pcs[Worker(q)]);
  }

  lemma CreatesFollow(s: State, l: Label, s': State, b: Agent)
    requires Inv(s') && Step(s, l, s')
    ensures CreatesStep(s, l, s', b)
  {
    hide Inv, Step, Creating;
    if b.Worker? {
      forall r | b in s'.pcs ensures !Creating(s'.pcs[b], r) {
        WorkerNeverCreates(s', b.queue, r);
      }
    } else if b == Actor(l) && !l.LStart? {
      ActorCreates(s, l, s');
    } else if l.LStart? {
      StartKeepsPcs(s, s');
    } else {
      OneMoves(s, l, s');
      assert PcOf(s', b) == PcOf(s, b);
    }
  }

  lemma CreatorFacts(s: State, r: RunId)
    requires Inv(s) && (r in s.sh.runs || exists a :: a in s.pcs && Creating(s.pcs[a], r))
    ensures r in s.rows
    ensures r in s.sh.runs ==> forall b :: b in s.pcs ==> !Creating(s.pcs[b], r)
    ensures forall a, b :: a in s.pcs && b in s.pcs && Creating(s.pcs[a], r) && Creating(s.pcs[b], r) ==> a == b
  {
    if r in s.sh.runs {
      TrackedIsRegistered(s, r);
      forall b | b in s.pcs ensures !Creating(s.pcs[b], r) {
        RegisteredIsNotCreated(s, b, r);
      }
    } else {
      var a :| a in s.pcs && Creating(s.pcs[a], r);
      assert PcInv(s, a, s.pcs[a]);
      forall b | b in s.pcs && Creating(s.pcs[b], r) ensures a == b {
        assert Holds(s.pcs[a], r) && Holds(s.pcs[b], r);
      }
    }
  }

  lemma RowsStay(s: State, l: Label, s': State, r: RunId)
    requires Step(s, l, s') && r in s.rows
    ensures r in s'.rows
  {
    if !l.LEnqCreate? && !l.LWriteRunning? && !l.LFinWrite? {
      hide Step;
      StepFootprint(s, l, s');
    }
  }

  lemma CtxKept(s: State, l: Label, s': State)
    requires Inv(s) && Inv(s') && CtxInv(s) && Step(s, l, s')
    ensures CtxInv(s')
  {
    hide Inv, Step, Creating;
    forall r | r in s'.sh.ctxDone ensures r in s'.rows && forall a :: a in s'.pcs ==> !Creating(s'.pcs[a], r) {
      if r !in s.sh.ctxDone {
        FlagsFollow(s, l, s', r);
        CreatorFacts(s, r);
      }
      RowsStay(s, l, s', r);
      forall b | b in s'.pcs ensures !Creating(s'.pcs[b], r) {
        CreatesFollow(s, l, s', b);
      }
    }
  }

  lemma {:induction false} CtxHolds(ss: seq<State>, ls: seq<Label>, n: nat)
    requires IsTrace(ss, ls) && n < |ss|
    ensures CtxInv(ss[n])
  {
    hide Inv, Step, CtxInv;
    TraceKeeps(ss, ls, n);
    if n > 0 {
      hide Init;
      CtxHolds(ss, ls, n - 1);
      TraceKeeps(ss, ls, n - 1);
      CtxKept(ss[n - 1], ls[n - 1], ss[n]);
    } else {
      InitCtx(ss[0]);
    }
  }

  lemma InitCtx(s: State)
    requires Init(s)
    ensures CtxInv(s)
  {
  }

  /** The context of a tracked run is done exactly when Cancel or Shutdown asked for it. */
  lemma {:induction false} ContextIsHistory(ss: seq<State>, ls: seq<Label>, n: nat, r: RunId)
    requires IsTrace(ss, ls) && n < |ss| && r in ss[n].sh.runs
    ensures r in ss[n].sh.ctxDone <==> WasAsked(ss, ls, n, r)
  {
    hide Inv, Step, Creating;
    if n > 0 {
      hide Init;
      TraceKeeps(ss, ls, n - 1);
      FlagsFollow(ss[n - 1], ls[n - 1], ss[n], r);
      if r in ss[n - 1].sh.runs {
        ContextIsHistory(ss, ls, n - 1, r);
      } else {
        CreatingIsUnregistered(ss[n - 1], ls[n - 1].a, r);
        NeverTrackedBefore(ss, ls, n - 1, r);
        CtxHolds(ss, ls, n - 1);
      }
    }
  }

  /** Shutdown has closed the runner. */
  ghost predicate WasClosed(ls: seq<Label>, n: nat)
    requires n <= |ls|
  {
    exists k :: 0 <= k < n && ls[k].LShutCall?
  }

  lemma {:induction false} ClosingIsHistory(ss: seq<State>, ls: seq<Label>, n: nat)
    requires IsTrace(ss, ls) && n < |ss|
    ensures ss[n].sh.closing <==> WasClosed(ls, n)
  {
    hide Inv, Step;
    if n > 0 {
      hide Init;
      ClosingIsHistory(ss, ls, n - 1);
      TraceKeeps(ss, ls, n - 1);
      FlagsFollow(ss[n - 1], ls[n - 1], ss[n], 0);
    }
  }

  /**
   A worker takes up a job exactly when its run is still tracked, nobody has asked to cancel
   it, no other queue of it reported "canceled", and Shutdown has not been called. Of a
   tracked run it must not take up, it reports "canceled" without testing anything.
   */
  lemma JobStartsUnless(ss: seq<State>, ls: seq<Label>, n: nat, q: QueueId)
    requires IsTrace(ss, ls) && n < |ls| && ls[n] == LExecBegin(q)
    ensures At(ss[n], q)
    ensures var r, s, s' := JobAt(ss[n], q).run, ss[n], ss[n + 1];
            if r !in s.sh.runs then Worker(q) !in s'.pcs && s'.sh == s.sh
            else
              && At(s', q) && JobAt(s', q) == JobAt(s, q)
              && if WasCanceled(ss, ls, n, r) || WasClosed(ls, n)
                 then StageAt(s', q) == Finish(false, true) && s'.sh == s.sh
                 else StageAt(s', q) == SetRunning(s.sh.runs[r].total, 0) && r in s'.sh.runs && s'.sh.runs[r].started
  {
    assert Step(ss[n], ls[n], ss[n + 1]);
    ExecTurn(ss[n], ss[n + 1], q);
    hide Step, Init;
    ClosingIsHistory(ss, ls, n);
    var r := JobAt(ss[n], q).run;
    if r in ss[n].sh.runs {
      FlagsAreHistory(ss, ls, n, r);
      ContextIsHistory(ss, ls, n, r);
    }
  }

  /** Between two targets of a tracked run a worker goes on exactly when there is a next one and nobody has asked to cancel the run. */
  lemma NextTargetUnless(ss: seq<State>, ls: seq<Label>, n: nat, q: QueueId)
    requires IsTrace(ss, ls) && n < |ls| && ls[n] == LLoop(q)
    ensures At(ss[n], q) && StageAt(ss[n], q).Loop? && At(ss[n + 1], q) && JobAt(ss[n + 1], q) == JobAt(ss[n], q)
    ensures var job, i, qf := JobAt(ss[n], q), StageAt(ss[n], q).i, StageAt(ss[n], q).queueFailed;
            job.run in ss[n].sh.runs ==>
              StageAt(ss[n + 1], q) ==
                if WasAsked(ss, ls, n, job.run) then Finish(qf, true)
                else if i < |job.positions| then Engine(i, qf) else Finish(qf, false)
  {
    assert Step(ss[n], ls[n], ss[n + 1]);
    LoopTurn(ss[n], ss[n + 1], q);
    hide Step, Init;
    if JobAt(ss[n], q).run in ss[n].sh.runs {
      ContextIsHistory(ss, ls, n, JobAt(ss[n], q).run);
    }
  }
}
