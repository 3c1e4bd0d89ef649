/** What holds in every state of every execution of the runner. */
module RunnerTheorems {
  import opened Options
  import opened RunnerTypes
  import opened RunnerModel
  import opened RunnerInvariant
  import opened RunnerProof
  import opened RunnerMoves
  import opened RunnerEnqueue
  import opened RunnerWork
  import opened RunnerResults
  import opened RunnerFinish

  // ---------------------------------------------------------------- induction over executions

  lemma InitHolds(s: State)
    requires Init(s)
    ensures Inv(s)
  {
    assert forall q :: Flight(s, q) == [];
  }

  /** No fact of the invariant is about `started`. */
  lemma StartStep(s: State, s': State)
    requires Inv(s) && Step(s, LStart, s')
    ensures Inv(s')
  {
    hide LockInv, ClaimsUnique, FlightInv, BufferInv, RunsInv, PcsInv, TablesInv, LogInv, StrandInv, OrderInv;
    StartAgentsKept(s, s');
    SameFlight(s, s');
    KeepFlight(s, s');
    KeepBuffers(s, s');
    KeepRuns(s, s');
    KeepTables(s, s');
    KeepLog(s, s');
    KeepOrder(s, s');
  }

  lemma StartAgentsKept(s: State, s': State)
    requires LockInv(s) && ClaimsUnique(s) && PcsInv(s) && StrandInv(s) && StartRunner(s, s')
    ensures LockInv(s') && ClaimsUnique(s') && PcsInv(s') && StrandInv(s')
  {
    forall b | b in s'.pcs ensures PcInv(s', b, s'.pcs[b]) {
      PcKept(s, s', b, s.pcs[b]);
    }
    KeepStrand(s, s', Caller(0));
  }

  /** The startup sweep over the runs table. */
  function Reap(rows: map<RunId, Row>): map<RunId, Row> {
    map r | r in rows :: if rows[r].Active() then rows[r].(status := Failed) else rows[r]
  }

  /**
   Whatever table a dead process left, a fresh runner over the swept table is a start state.
   The sweep keeps every row: a run with an outcome keeps it, and one still queued or running
   becomes "failed" and keeps its schedule.
   */
  lemma SweptTableStarts(before: map<RunId, Row>, cap: nat, hooked: bool)
    requires cap > 0
    ensures var s := Fresh(Reap(before), cap, hooked);
            && Init(s) && Inv(s) && s.sh.cap == cap && s.sh.hooked == hooked
            && s.rows.Keys == before.Keys
            && forall r :: r in before ==>
                 s.rows[r] == if before[r].status == Queued || before[r].status == Running then Row(Failed, before[r].schedule)
                              else before[r]
  {
    InitHolds(Fresh(Reap(before), cap, hooked));
  }

  function Fresh(rows: map<RunId, Row>, cap: nat, hooked: bool): State {
    State(Shared(map[], {}, map[], {}, {}, false, false, cap, [], hooked), None, rows, map[], map[], map[],
          Aux(map[], {}, map[], {}, {}, false, {}, map[], map[]))
  }

  lemma EnqueueStep(s: State, l: Label, s': State)
    requires Inv(s) && Step(s, l, s')
    requires l.LEnqCall? || l.LEnqLock? || l.LEnqDedupe? || l.LEnqCreate? || l.LEnqBegin? || l.LEnqUnlock? || l.LEnqRegister?
    ensures Inv(s')
  {
    hide Inv, EnqCall, EnqLock, EnqDedupe, EnqCreate, EnqBegin, EnqUnlock, EnqRegister;
    match l
    case LEnqCall(a, req) => KeepsEnqCall(s, s', a, req);
    case LEnqLock(a) => KeepsEnqLock(s, s', a);
    case LEnqDedupe(a, fails) => KeepsEnqDedupe(s, s', a, fails);
    case LEnqCreate(a, fails, r) =>
      if fails {
        KeepsEnqCreateFails(s, s', a, r);
      } else {
        KeepsEnqCreate(s, s', a, r);
      }
    case LEnqBegin(a) => KeepsEnqBegin(s, s', a);
    case LEnqUnlock(a) => KeepsEnqUnlock(s, s', a);
    case LEnqRegister(a) =>
      if s.sh.closing || !s.sh.started {
        KeepsEnqRefused(s, s', a);
      } else {
        KeepsEnqRegister(s, s', a);
      }
  }

  lemma CancelStep(s: State, l: Label, s': State)
    requires Inv(s) && Step(s, l, s')
    requires l.LCancel? || l.LOrphanLock? || l.LOrphanCheck? || l.LOrphanRead?
    ensures Inv(s')
  {
    hide Inv, CancelCall, OrphanLock, OrphanCheck, OrphanRead;
    match l
    case LCancel(a, r) =>
      if r !in s.sh.runs {
        KeepsCancelUntracked(s, s', a, r);
      } else if s.sh.runs[r].started {
        KeepsCancelStarted(s, s', a, r);
      } else {
        KeepsCancelClaim(s, s', a, r);
      }
    case LOrphanLock(a) => KeepsOrphanLock(s, s', a);
    case LOrphanCheck(a) => KeepsOrphanCheck(s, s', a);
    case LOrphanRead(a, fails) => KeepsOrphanRead(s, s', a, fails);
  }

  lemma WriteRunningStep(s: State, s': State, q: QueueId, fails: bool)
    requires Inv(s) && WriteRunning(s, s', q, fails)
    ensures Inv(s')
  {
    hide Inv;
    var r := JobAt(s, q).run;
    if !fails && Pending(s, r) {
      KeepsRunningWritten(s, s', q, r);
    } else {
      KeepsRunningUnwritten(s, s', q, fails);
    }
  }

  lemma EngineOutcome(s: State, s': State, q: QueueId, out: RowOutcome)
    requires Inv(s) && EngineStep(s, s', q, out)
    ensures Inv(s')
  {
    hide Inv;
    var i := StageAt(s, q).i;
    match out
    case OkRow => KeepsRow(s, s', q, i, true, StageAt(s', q));
    case FailedRow => KeepsRow(s, s', q, i, false, StageAt(s', q));
    case NoRow => KeepsNoRow(s, s', q);
  }

  lemma TrackedPending(s: State, r: RunId)
    requires Inv(s) && r in s.sh.runs
    ensures s.sh.runs[r].pending == |Open(s, r)| && s.sh.runs[r].pending > 0
  {
    assert TrackedInv(s, r);
  }

  lemma FinishOutcome(s: State, s': State, q: QueueId)
    requires Inv(s) && FinishStep(s, s', q)
    ensures Inv(s')
  {
    hide Inv;
    var r := JobAt(s, q).run;
    if r !in s.sh.runs {
      KeepsUntrackedDrop(s, s', q);
    } else if s.sh.runs[r].pending > 1 {
      KeepsFinishMore(s, s', q, r);
    } else {
      TrackedPending(s, r);
      KeepsFinishLast(s, s', q, r);
    }
  }

  lemma ExecOutcome(s: State, s': State, q: QueueId)
    requires Inv(s) && ExecBegin(s, s', q)
    ensures Inv(s')
  {
    hide Inv;
    var r := JobAt(s, q).run;
    if r !in s.sh.runs {
      KeepsUntrackedDrop(s, s', q);
    } else if MustNotStart(s.sh, r) {
      KeepsExecCanceled(s, s', q);
    } else {
      KeepsExecStart(s, s', q, r);
    }
  }

  lemma MarkOutcome(s: State, s': State, q: QueueId)
    requires Inv(s) && MarkStep(s, s', q)
    ensures Inv(s')
  {
    hide Inv;
    if JobAt(s, q).run in s.sh.runs {
      KeepsCount(s, s', q, JobAt(s, q).run, StageAt(s, q).i);
    } else {
      KeepsMarkUntracked(s, s', q);
    }
  }

  lemma PanicOutcome(s: State, s': State, q: QueueId, fails: bool)
    requires Inv(s) && PanicStoreStep(s, s', q, fails)
    ensures Inv(s')
  {
    hide Inv;
    if fails {
      KeepsPanicNoRow(s, s', q);
    } else {
      KeepsRow(s, s', q, StageAt(s, q).i, false, StageAt(s', q));
    }
  }

  lemma WorkerStep(s: State, l: Label, s': State)
    requires Inv(s) && Step(s, l, s')
    requires || l.LDequeue? || l.LWorkerExit? || l.LExecBegin? || l.LWriteRunning? || l.LReadDone? || l.LPublishRunning?
             || l.LLoop? || l.LEngine? || l.LAfterRow? || l.LMark? || l.LPanic? || l.LPanicStore? || l.LFinish?
    ensures Inv(s')
  {
    hide Inv, Dequeue, WorkerExit, ExecBegin, WriteRunning, ReadDoneCount, PublishRunning, LoopStep, EngineStep, AfterRow, MarkStep, Panic,
         PanicStoreStep, FinishStep;
    match l
    case LDequeue(q) => KeepsDequeue(s, s', q);
    case LWorkerExit(q) => KeepsWorkerExit(s, s', q);
    case LExecBegin(q) => ExecOutcome(s, s', q);
    case LWriteRunning(q, fails) => WriteRunningStep(s, s', q, fails);
    case LReadDone(q) => KeepsReadDone(s, s', q);
    case LPublishRunning(q) =>
      assert At(s, q) by { PublishAt(s, s', q); }
      KeepsPublishRunning(s, s', q, JobAt(s, q).run);
    case LLoop(q) => KeepsLoop(s, s', q);
    case LEngine(q, out) => EngineOutcome(s, s', q, out);
    case LAfterRow(q) => KeepsAfterRow(s, s', q);
    case LMark(q) => MarkOutcome(s, s', q);
    case LPanic(q) => KeepsPanic(s, s', q);
    case LPanicStore(q, fails) => PanicOutcome(s, s', q, fails);
    case LFinish(q) => FinishOutcome(s, s', q);
  }

  lemma PublishAt(s: State, s': State, q: QueueId)
    requires PublishRunning(s, s', q)
    ensures At(s, q)
  {
  }

  /** SetRunStatus never refuses a terminal write, and never misses the row. */
  lemma TerminalWriteSucceeds(s: State, a: Agent)
    requires Inv(s) && AtFin(s, a) && s.pcs[a].fs.Write?
    ensures Pending(s, s.pcs[a].claim.run)
    ensures SetRunStatus(s.rows, s.pcs[a].claim.run, s.pcs[a].claim.status).1 == Written
  {
    assert PcInv(s, a, s.pcs[a]);
  }

  lemma FinWriteStep(s: State, s': State, a: Agent, fails: bool)
    requires Inv(s) && FinWrite(s, s', a, fails)
    ensures Inv(s')
  {
    hide Inv;
    TerminalWriteSucceeds(s, a);
    var c := s.pcs[a].claim;
    if !fails {
      KeepsTerminalWrite(s, s', a, c);
    } else if s.pcs[a].fs.attempt + 1 < Attempts(s.sh, c.kind) {
      KeepsFinRetry(s, s', a, fails);
    } else {
      KeepsGiveUp(s, s', a, c);
    }
  }

  lemma FinPanicStep(s: State, s': State, a: Agent)
    requires Inv(s) && FinPanic(s, s', a)
    ensures Inv(s')
  {
    hide LockInv, ClaimsUnique, FlightInv, BufferInv, RunsInv, PcsInv, TablesInv, LogInv, StrandInv, OrderInv;
    var c := s.pcs[a].claim;
    if !s.pcs[a].fs.Write? {
      KeepsFinPanicLate(s, s', a);
    } else if c.kind.ByOrphan? {
      var mid := Goto(s, a, Fin(c, End(false))).(aux := s'.aux);
      assert s.aux.fullLost + {} == s.aux.fullLost;
      KeepsGiveUp(s, mid, a, c);
      KeepsFinEndOrphan(mid, s', a);
    } else {
      KeepsGiveUp(s, s', a, c);
    }
  }

  lemma PublishStep(s: State, s': State, a: Agent)
    requires Inv(s) && FinPublish(s, s', a)
    ensures Inv(s')
  {
    hide Inv;
    KeepsFinPublish(s, s', a, s.pcs[a].claim.run);
  }

  lemma EndStep(s: State, s': State, a: Agent)
    requires Inv(s) && FinEnd(s, s', a)
    ensures Inv(s')
  {
    hide Inv;
    if s.pcs[a].claim.kind.ByOrphan? {
      KeepsFinEndOrphan(s, s', a);
    } else {
      KeepsFinEnd(s, s', a, s.pcs[a].claim.run);
    }
  }

  lemma FinisherStep(s: State, l: Label, s': State)
    requires Inv(s) && Step(s, l, s')
    requires l.LFinWrite? || l.LFinPublish? || l.LFinEnd? || l.LFinPanic?
    ensures Inv(s')
  {
    hide Inv, FinWrite, FinPublish, FinEnd, FinPanic;
    match l
    case LFinWrite(a, fails) => FinWriteStep(s, s', a, fails);
    case LFinPublish(a) => PublishStep(s, s', a);
    case LFinEnd(a) => EndStep(s, s', a);
    case LFinPanic(a) => FinPanicStep(s, s', a);
  }

  lemma DrainStep(s: State, s': State, a: Agent, w: Wake)
    requires Inv(s) && ShutDrain(s, s', a, w)
    ensures Inv(s')
  {
    hide Inv;
    if w.CtxDone? {
      KeepsGivingUp(s, s', a);
    } else {
      KeepsShutDrained(s, s', a);
    }
  }

  lemma ForceStep(s: State, s': State, a: Agent)
    requires Inv(s) && ShutClaim(s, s', a)
    ensures Inv(s')
  {
    hide Inv;
    if AtFin(s', a) {
      KeepsShutClaim(s, s', a);
    } else {
      KeepsShutSkip(s, s', a);
    }
  }

  lemma ShutdownStep(s: State, l: Label, s': State)
    requires Inv(s) && Step(s, l, s')
    requires l.LShutCall? || l.LShutWait? || l.LShutMark? || l.LShutDrain? || l.LShutClaim?
    ensures Inv(s')
  {
    hide Inv, ShutCall, ShutMark, ShutWait, ShutDrain, ShutClaim;
    match l
    case LShutCall(a) => KeepsShutCall(s, s', a);
    case LShutWait(a, w) =>
      if w.CtxDone? {
        KeepsGivingUp(s, s', a);
      } else {
        KeepsShutWait(s, s', a, w);
      }
    case LShutMark(a, stuck) => KeepsShutMark(s, s', a, stuck);
    case LShutDrain(a, w) => DrainStep(s, s', a, w);
    case LShutClaim(a) => ForceStep(s, s', a);
  }

  /** Every step of every agent keeps the invariant. */
  lemma StepKeeps(s: State, l: Label, s': State)
    requires Inv(s) && Step(s, l, s')
    ensures Inv(s')
  {
    hide Inv, Step;
    if l.LStart? {
      StartStep(s, s');
    } else if l.LEnqCall? || l.LEnqLock? || l.LEnqDedupe? || l.LEnqCreate? || l.LEnqBegin? || l.LEnqUnlock? || l.LEnqRegister? {
      EnqueueStep(s, l, s');
    } else if l.LCancel? || l.LOrphanLock? || l.LOrphanCheck? || l.LOrphanRead? {
      CancelStep(s, l, s');
    } else if l.LFinWrite? || l.LFinPublish? || l.LFinEnd? || l.LFinPanic? {
      FinisherStep(s, l, s');
    } else if l.LShutCall? || l.LShutWait? || l.LShutMark? || l.LShutDrain? || l.LShutClaim? {
      ShutdownStep(s, l, s');
    } else {
      WorkerStep(s, l, s');
    }
  }

  /** The invariant holds at every point of every execution. */
  lemma {:induction false} TraceKeeps(ss: seq<State>, ls: seq<Label>, i: nat)
    requires IsTrace(ss, ls) && i < |ss|
    ensures Inv(ss[i])
  {
    hide Inv, Step, Init;
    if i == 0 {
      InitHolds(ss[0]);
    } else {
      TraceKeeps(ss, ls, i - 1);
      StepKeeps(ss[i - 1], ls[i - 1], ss[i]);
    }
  }
}
