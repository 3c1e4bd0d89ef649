/** The in-transit marks: whoever set one is there to clear it. */
module RunnerTransit {
  import opened Options
  import opened RunnerTypes
  import opened RunnerModel
  import opened RunnerInvariant
  import opened RunnerProof
  import opened RunnerTheorems
  import opened RunnerProperties
  import opened RunnerOutcome
  import opened RunnerReports

  /** The agent has marked `r` as in transit and has yet to clear the mark, or to hand the run over. */
  predicate Carries(pc: Pc, r: RunId) {
    || (pc.Enq? && (pc.es.Held? || pc.es.Register?) && pc.es.run == r)
    || (pc.Fin? && pc.claim.run == r && !pc.claim.kind.ByOrphan? && !(pc.claim.kind.ByShutdown? && pc.fs.Publish?))
  }

  ghost predicate Carried(s: State, r: RunId) {
    exists a :: a in s.pcs && Carries(s.pcs[a], r)
  }

  ghost predicate TransitInv(s: State) {
    forall r :: r in s.sh.finalizing ==> Carried(s, r)
  }

  // ---------------------------------------------------------------- marks that are set

  /** The step's new marks are carried by its actor. */
  ghost predicate MarksCarried(s: State, l: Label, s': State) {
    forall r :: r in s'.sh.finalizing && r !in s.sh.finalizing ==> Actor(l) in s'.pcs && Carries(s'.pcs[Actor(l)], r)
  }

  lemma BeginMarks(s: State, s': State, a: Agent)
    requires EnqBegin(s, s', a)
    ensures MarksCarried(s, LEnqBegin(a), s')
  {
  }

  lemma RegisterMarks(s: State, s': State, a: Agent)
    requires EnqRegister(s, s', a)
    ensures MarksCarried(s, LEnqRegister(a), s')
  {
    hide WithQueues, NewQueues, SendAll, QueueOrder, JobsOf, Committed;
  }

  lemma CancelMarks(s: State, s': State, a: Agent, r: RunId)
    requires CancelCall(s, s', a, r)
    ensures MarksCarried(s, LCancel(a, r), s')
  {
  }

  lemma WorkMarks(s: State, l: Label, s': State)
    requires Step(s, l, s') && (l.LExecBegin? || l.LMark?)
    ensures MarksCarried(s, l, s')
  {
  }

  lemma FinishHands(s: State, s': State, q: QueueId)
    requires FinishStep(s, s', q)
    ensures At(s, q)
    ensures || s'.sh.finalizing == s.sh.finalizing
            || (&& s'.sh.finalizing == s.sh.finalizing + {JobAt(s, q).run} && AtFin(s', Worker(q))
                && s'.pcs[Worker(q)].claim.run == JobAt(s, q).run && s'.pcs[Worker(q)].claim.kind == ByLastQueue)
  {
    hide FinalStatus;
  }

  lemma FinishMarks(s: State, s': State, q: QueueId)
    requires FinishStep(s, s', q)
    ensures MarksCarried(s, LFinish(q), s')
  {
    FinishHands(s, s', q);
    hide FinishStep;
  }

  lemma ShutdownMarks(s: State, l: Label, s': State)
    requires Step(s, l, s') && (l.LShutMark? || l.LShutClaim?)
    ensures MarksCarried(s, l, s')
  {
  }

  lemma EndMarks(s: State, s': State, a: Agent)
    requires FinEnd(s, s', a)
    ensures s'.sh.finalizing <= s.sh.finalizing
  {
  }

  lemma MarksFollow(s: State, l: Label, s': State)
    requires Step(s, l, s')
    ensures MarksCarried(s, l, s')
  {
    hide Carries, EnqBegin, EnqRegister, CancelCall, FinishStep, FinEnd;
    if l.LEnqBegin? {
      BeginMarks(s, s', l.a);
    } else if l.LEnqRegister? {
      RegisterMarks(s, s', l.a);
    } else if l.LCancel? {
      CancelMarks(s, s', l.a, l.r);
    } else if l.LFinish? {
      FinishMarks(s, s', l.q);
    } else if l.LFinEnd? {
      EndMarks(s, s', l.a);
    } else {
      hide Step;
      if l.LExecBegin? || l.LMark? {
        WorkMarks(s, l, s');
      } else if l.LShutMark? || l.LShutClaim? {
        ShutdownMarks(s, l, s');
      } else {
        OthersKeepRuns(s, l, s');
      }
    }
  }

  // ---------------------------------------------------------------- marks that are carried

  lemma EnqueuersCarry(s: State, l: Label, s': State, r: RunId)
    requires Step(s, l, s')
    requires l.LEnqCall? || l.LEnqLock? || l.LEnqDedupe? || l.LEnqCreate? || l.LEnqBegin? || l.LEnqUnlock?
    requires l.a in s.pcs && Carries(s.pcs[l.a], r)
    ensures l.a in s'.pcs && Carries(s'.pcs[l.a], r)
  {
    hide ActiveForSchedule;
  }

  lemma RegistrarCarries(s: State, s': State, a: Agent, r: RunId)
    requires EnqRegister(s, s', a) && a in s.pcs && Carries(s.pcs[a], r)
    ensures (a in s'.pcs && Carries(s'.pcs[a], r)) || r !in s'.sh.finalizing
  {
    hide WithQueues, NewQueues, SendAll, QueueOrder, JobsOf, Committed;
  }

  lemma CallersCarryNone(s: State, l: Label, s': State, r: RunId)
    requires Step(s, l, s') && (l.LCancel? || l.LOrphanLock? || l.LOrphanCheck? || l.LOrphanRead?)
    requires l.a in s.pcs
    ensures !Carries(s.pcs[l.a], r)
  {
    hide CancelSection;
  }

  lemma ClosersCarryNone(s: State, l: Label, s': State, r: RunId)
    requires Step(s, l, s') && (l.LShutCall? || l.LShutWait? || l.LShutDrain? || l.LShutMark? || l.LShutClaim?)
    requires l.a in s.pcs
    ensures !Carries(s.pcs[l.a], r)
  {
    hide CloseSection, MarkAllSection, ClaimSection, AllExited;
  }

  lemma WorkersCarryNone(s: State, l: Label, s': State, r: RunId)
    requires Step(s, l, s')
    requires || l.LDequeue? || l.LWorkerExit? || l.LExecBegin? || l.LWriteRunning? || l.LReadDone? || l.LPublishRunning?
             || l.LLoop? || l.LEngine? || l.LAfterRow? || l.LMark? || l.LPanic? || l.LPanicStore? || l.LFinish?
    requires Worker(l.q) in s.pcs
    ensures !Carries(s.pcs[Worker(l.q)], r)
  {
    hide SetRunStatus, MustNotStart, MarkSection, FinishSection, Outcome, FinalStatus, AddResult;
  }

  lemma WritersCarry(s: State, s': State, a: Agent, fails: bool, r: RunId)
    requires Inv(s) && FinWrite(s, s', a, fails) && Carries(s.pcs[a], r)
    ensures a in s'.pcs && Carries(s'.pcs[a], r)
  {
    hide Inv, SetRunStatus, Attempts;
    WriteStages(s, s', a, fails);
  }

  /** Shutdown publishes only after it has given up its claim. */
  lemma WriteStages(s: State, s': State, a: Agent, fails: bool)
    requires FinWrite(s, s', a, fails)
    ensures AtFin(s, a) && AtFin(s', a) && s'.pcs[a].claim == s.pcs[a].claim
    ensures s.pcs[a].claim.kind.ByShutdown? ==> !s'.pcs[a].fs.Publish?
  {
    hide SetRunStatus, Attempts;
  }

  lemma PublishersCarry(s: State, s': State, a: Agent, r: RunId)
    requires FinPublish(s, s', a) && Carries(s.pcs[a], r)
    ensures a in s'.pcs && Carries(s'.pcs[a], r)
  {
  }

  lemma EndersClear(s: State, s': State, a: Agent, r: RunId)
    requires FinEnd(s, s', a) && Carries(s.pcs[a], r)
    ensures r !in s'.sh.finalizing
  {
  }

  lemma FinishersCarry(s: State, l: Label, s': State, r: RunId)
    requires Inv(s) && Step(s, l, s') && (l.LFinWrite? || l.LFinPublish? || l.LFinEnd?)
    requires l.a in s.pcs && Carries(s.pcs[l.a], r)
    ensures (l.a in s'.pcs && Carries(s'.pcs[l.a], r)) || r !in s'.sh.finalizing
  {
    hide Inv, Carries, FinWrite, FinPublish, FinEnd;
    match l
    case LFinWrite(a, fails) => WritersCarry(s, s', a, fails, r);
    case LFinPublish(a) => PublishersCarry(s, s', a, r);
    case LFinEnd(a) => EndersClear(s, s', a, r);
  }

  lemma RegisterCarries(s: State, l: Label, s': State, r: RunId)
    requires Step(s, l, s') && l.LEnqRegister? && l.a in s.pcs && Carries(s.pcs[l.a], r)
    ensures (l.a in s'.pcs && Carries(s'.pcs[l.a], r)) || r !in s'.sh.finalizing
  {
    hide Carries, EnqRegister;
    RegistrarCarries(s, s', l.a, r);
  }

  lemma ActorCarries(s: State, l: Label, s': State, r: RunId)
    requires Inv(s) && Step(s, l, s') && !l.LStart? && !l.LFinPanic?
    requires Actor(l) in s.pcs && Carries(s.pcs[Actor(l)], r)
    ensures (Actor(l) in s'.pcs && Carries(s'.pcs[Actor(l)], r)) || r !in s'.sh.finalizing
  {
    hide Inv, Step, Carries;
    if l.LCancel? || l.LOrphanLock? || l.LOrphanCheck? || l.LOrphanRead? {
      CallersCarryNone(s, l, s', r);
    } else if l.LShutCall? || l.LShutWait? || l.LShutDrain? || l.LShutMark? || l.LShutClaim? {
      ClosersCarryNone(s, l, s', r);
    } else if l.LFinWrite? || l.LFinPublish? || l.LFinEnd? {
      FinishersCarry(s, l, s', r);
    } else if l.LEnqRegister? {
      RegisterCarries(s, l, s', r);
    } else if l.LEnqCall? || l.LEnqLock? || l.LEnqDedupe? || l.LEnqCreate? || l.LEnqBegin? || l.LEnqUnlock? {
      EnqueuersCarry(s, l, s', r);
    } else {
      WorkersCarryNone(s, l, s', r);
    }
  }

  lemma CarrierStays(s: State, l: Label, s': State, r: RunId, b: Agent)
    requires Inv(s) && Step(s, l, s') && !l.LFinPanic? && b in s.pcs && Carries(s.pcs[b], r)
    ensures Carried(s', r) || r !in s'.sh.finalizing
  {
    hide Inv, Step, Carries;
    if l.LStart? {
      StartKeepsPcs(s, s');
      assert Carries(s'.pcs[b], r);
    } else if b == Actor(l) {
      ActorCarries(s, l, s', r);
    } else {
      OneMoves(s, l, s');
      assert PcOf(s', b) == PcOf(s, b);
      assert Carries(s'.pcs[b], r);
    }
  }

  lemma TransitKept(s: State, l: Label, s': State)
    requires Inv(s) && TransitInv(s) && Step(s, l, s') && !l.LFinPanic?
    ensures TransitInv(s')
  {
    hide Inv, Step, Carries;
    MarksFollow(s, l, s');
    forall r | r in s'.sh.finalizing ensures Carried(s', r) {
      if r in s.sh.finalizing {
        var b :| b in s.pcs && Carries(s.pcs[b], r);
        CarrierStays(s, l, s', r, b);
      }
    }
  }

  lemma InitTransit(s: State)
    requires Init(s)
    ensures TransitInv(s)
  {
  }

  /** As long as no finisher panics, every run marked as in transit has an agent that will clear the mark. */
  lemma {:induction false} TransitIsCarried(ss: seq<State>, ls: seq<Label>, n: nat)
    requires IsTrace(ss, ls) && n < |ss| && forall j :: 0 <= j < |ls| ==> !ls[j].LFinPanic?
    ensures forall r :: r in ss[n].sh.finalizing ==> exists a :: a in ss[n].pcs && Carries(ss[n].pcs[a], r)
  {
    hide Inv, Step, Carries;
    if n > 0 {
      hide Init;
      TransitIsCarried(ss, ls, n - 1);
      TraceKeeps(ss, ls, n - 1);
      TransitKept(ss[n - 1], ls[n - 1], ss[n]);
    } else {
      InitTransit(ss[0]);
    }
  }

  /** When all is quiet nothing is in transit, so a row left active by a failed write can be cancelled as an orphan. */
  lemma QuietMeansNoTransit(ss: seq<State>, ls: seq<Label>, n: nat)
    requires IsTrace(ss, ls) && n < |ss| && Quiet(ss[n]) && forall j :: 0 <= j < |ls| ==> !ls[j].LFinPanic?
    ensures ss[n].sh.finalizing == {}
  {
    hide IsTrace;
    TransitIsCarried(ss, ls, n);
    forall r ensures r !in ss[n].sh.finalizing {
    }
    assert ss[n].sh.finalizing == {};
  }
}
