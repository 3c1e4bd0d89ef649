/** Steps that move one agent and change no shared state. */
module RunnerMoves {
  import opened Options
  import opened RunnerTypes
  import opened RunnerModel
  import opened RunnerInvariant
  import opened RunnerProof

  // ---------------------------------------------------------------- worker

  lemma KeepsReadDone(s: State, s': State, q: QueueId)
    requires Inv(s) && ReadDoneCount(s, s', q)
    ensures Inv(s')
  {
    hide FlightInv, BufferInv, TablesInv, LogInv, StrandInv, OrderInv;
    var job := JobAt(s, q);
    assert PcInv(s, Worker(q), s.pcs[Worker(q)]);
    assert job.run in s.sh.runs ==> TrackedInv(s, job.run);
    if job.run in s.sh.runs {
      DoneBounded(s, job.run);
    }
    WorkMove(s, s', q, StageAt(s', q));
  }

  lemma KeepsLoop(s: State, s': State, q: QueueId)
    requires Inv(s) && LoopStep(s, s', q)
    ensures Inv(s')
  {
    hide FlightInv, BufferInv, RunsInv, TablesInv, LogInv, StrandInv, OrderInv;
    var job, ws := JobAt(s, q), StageAt(s, q);
    assert PcInv(s, Worker(q), s.pcs[Worker(q)]);
    WorkMove(s, s', q, StageAt(s', q));
  }

  lemma KeepsAfterRow(s: State, s': State, q: QueueId)
    requires Inv(s) && AfterRow(s, s', q)
    ensures Inv(s')
  {
    hide FlightInv, BufferInv, RunsInv, TablesInv, LogInv, StrandInv, OrderInv;
    assert PcInv(s, Worker(q), s.pcs[Worker(q)]);
    WorkMove(s, s', q, StageAt(s', q));
  }

  lemma KeepsPanic(s: State, s': State, q: QueueId)
    requires Inv(s) && Panic(s, s', q)
    ensures Inv(s')
  {
    hide FlightInv, BufferInv, RunsInv, TablesInv, LogInv, StrandInv, OrderInv;
    assert PcInv(s, Worker(q), s.pcs[Worker(q)]);
    WorkMove(s, s', q, StageAt(s', q));
  }

  lemma KeepsNoRow(s: State, s': State, q: QueueId)
    requires Inv(s) && EngineStep(s, s', q, NoRow)
    ensures Inv(s')
  {
    hide FlightInv, BufferInv, RunsInv, TablesInv, LogInv, StrandInv, OrderInv;
    assert PcInv(s, Worker(q), s.pcs[Worker(q)]);
    WorkMove(s, s', q, StageAt(s', q));
  }

  lemma KeepsPanicNoRow(s: State, s': State, q: QueueId)
    requires Inv(s) && PanicStoreStep(s, s', q, true)
    ensures Inv(s')
  {
    hide FlightInv, BufferInv, RunsInv, TablesInv, LogInv, StrandInv, OrderInv;
    assert PcInv(s, Worker(q), s.pcs[Worker(q)]);
    WorkMove(s, s', q, StageAt(s', q));
  }

  lemma KeepsMarkUntracked(s: State, s': State, q: QueueId)
    requires Inv(s) && MarkStep(s, s', q) && JobAt(s, q).run !in s.sh.runs
    ensures Inv(s')
  {
    hide FlightInv, BufferInv, RunsInv, TablesInv, LogInv, StrandInv, OrderInv;
    assert PcInv(s, Worker(q), s.pcs[Worker(q)]);
    WorkMove(s, s', q, StageAt(s', q));
  }

  lemma KeepsExecCanceled(s: State, s': State, q: QueueId)
    requires Inv(s) && ExecBegin(s, s', q) && JobAt(s, q).run in s.sh.runs && MustNotStart(s.sh, JobAt(s, q).run)
    ensures Inv(s')
  {
    hide FlightInv, BufferInv, TablesInv, LogInv, StrandInv, OrderInv;
    assert PcInv(s, Worker(q), s.pcs[Worker(q)]);
    WorkMove(s, s', q, StageAt(s', q));
  }

  lemma KeepsRunningUnwritten(s: State, s': State, q: QueueId, fails: bool)
    requires Inv(s) && WriteRunning(s, s', q, fails) && s'.rows == s.rows && !StageAt(s', q).ReadDone?
    ensures Inv(s')
  {
    hide FlightInv, BufferInv, RunsInv, TablesInv, LogInv, StrandInv, OrderInv;
    assert PcInv(s, Worker(q), s.pcs[Worker(q)]);
    WorkMove(s, s', q, StageAt(s', q));
  }

  lemma KeepsWorkerExit(s: State, s': State, q: QueueId)
    requires Inv(s) && WorkerExit(s, s', q)
    ensures Inv(s')
  {
    hide FlightInv, BufferInv, RunsInv, LogInv, StrandInv, OrderInv;
    PcMove(s, s', Worker(q));
  }

  // ---------------------------------------------------------------- Enqueue

  lemma KeepsEnqCall(s: State, s': State, a: Agent, req: Request)
    requires Inv(s) && EnqCall(s, s', a, req)
    ensures Inv(s')
  {
    hide FlightInv, BufferInv, RunsInv, TablesInv, LogInv, StrandInv, OrderInv;
    PcMove(s, s', a);
  }

  lemma KeepsEnqLock(s: State, s': State, a: Agent)
    requires Inv(s) && EnqLock(s, s', a)
    ensures Inv(s')
  {
    hide FlightInv, BufferInv, RunsInv, TablesInv, LogInv, StrandInv, OrderInv;
    assert PcInv(s, a, s.pcs[a]);
    PcMove(s, s', a);
  }

  lemma KeepsEnqDedupe(s: State, s': State, a: Agent, fails: bool)
    requires Inv(s) && EnqDedupe(s, s', a, fails)
    ensures Inv(s')
  {
    hide FlightInv, BufferInv, RunsInv, TablesInv, LogInv, StrandInv, OrderInv;
    assert PcInv(s, a, s.pcs[a]);
    PcMove(s, s', a);
  }

  lemma KeepsEnqUnlock(s: State, s': State, a: Agent)
    requires Inv(s) && EnqUnlock(s, s', a)
    ensures Inv(s')
  {
    hide FlightInv, BufferInv, RunsInv, TablesInv, LogInv, StrandInv, OrderInv;
    assert PcInv(s, a, s.pcs[a]);
    PcMove(s, s', a);
  }

  lemma KeepsEnqCreateFails(s: State, s': State, a: Agent, r: RunId)
    requires Inv(s) && EnqCreate(s, s', a, true, r)
    ensures Inv(s')
  {
    hide FlightInv, BufferInv, RunsInv, TablesInv, LogInv, StrandInv, OrderInv;
    assert PcInv(s, a, s.pcs[a]);
    PcMove(s, s', a);
  }

  // ---------------------------------------------------------------- Cancel

  lemma KeepsCancelUntracked(s: State, s': State, a: Agent, r: RunId)
    requires Inv(s) && CancelCall(s, s', a, r) && r !in s.sh.runs
    ensures Inv(s')
  {
    hide FlightInv, BufferInv, RunsInv, TablesInv, LogInv, StrandInv, OrderInv;
    PcMove(s, s', a);
  }

  lemma KeepsOrphanLock(s: State, s': State, a: Agent)
    requires Inv(s) && OrphanLock(s, s', a)
    ensures Inv(s')
  {
    hide FlightInv, BufferInv, RunsInv, TablesInv, LogInv, StrandInv, OrderInv;
    assert PcInv(s, a, s.pcs[a]);
    PcMove(s, s', a);
  }

  /** Whoever answers for an id outside the run map and `finalizing` holds enqueueMu. */
  lemma UntrackedHolderHasLock(s: State, b: Agent, r: RunId)
    requires Inv(s) && b in s.pcs && Holds(s.pcs[b], r) && r !in s.sh.finalizing
    ensures s.mu == Some(b)
  {
    assert PcInv(s, b, s.pcs[b]);
    assert HoldsMu(s.pcs[b]);
  }

  lemma KeepsOrphanCheck(s: State, s': State, a: Agent)
    requires Inv(s) && OrphanCheck(s, s', a)
    ensures Inv(s')
  {
    hide FlightInv, BufferInv, RunsInv, TablesInv, LogInv, StrandInv, OrderInv;
    assert PcInv(s, a, s.pcs[a]);
    var r := s.pcs[a].run;
    if r !in s.sh.finalizing {
      forall b | b in s.pcs && b != a ensures !Holds(s.pcs[b], r) {
        if Holds(s.pcs[b], r) {
          UntrackedHolderHasLock(s, b, r);
        }
      }
    }
    PcMove(s, s', a);
  }

  lemma KeepsOrphanRead(s: State, s': State, a: Agent, fails: bool)
    requires Inv(s) && OrphanRead(s, s', a, fails)
    ensures Inv(s')
  {
    hide FlightInv, BufferInv, RunsInv, TablesInv, LogInv, StrandInv, OrderInv;
    assert PcInv(s, a, s.pcs[a]);
    PcMove(s, s', a);
  }

  // ---------------------------------------------------------------- finishing

  lemma KeepsFinRetry(s: State, s': State, a: Agent, fails: bool)
    requires Inv(s) && FinWrite(s, s', a, fails) && s'.rows == s.rows && s'.aux == s.aux
    requires AtFin(s', a) && s'.pcs[a].fs.Write?
    ensures Inv(s')
  {
    hide FlightInv, BufferInv, RunsInv, TablesInv, LogInv, StrandInv, OrderInv;
    assert PcInv(s, a, s.pcs[a]);
    PcMove(s, s', a);
  }

  lemma KeepsFinEndOrphan(s: State, s': State, a: Agent)
    requires Inv(s) && FinEnd(s, s', a) && s.pcs[a].claim.kind.ByOrphan?
    ensures Inv(s')
  {
    hide FlightInv, BufferInv, RunsInv, TablesInv, LogInv, StrandInv, OrderInv;
    assert PcInv(s, a, s.pcs[a]);
    assert HoldsMu(s.pcs[a]);
    PcMove(s, s', a);
  }

  lemma KeepsFinPanicLate(s: State, s': State, a: Agent)
    requires Inv(s) && FinPanic(s, s', a) && !s.pcs[a].fs.Write?
    ensures Inv(s')
  {
    hide FlightInv, BufferInv, RunsInv, TablesInv, LogInv, StrandInv, OrderInv;
    assert PcInv(s, a, s.pcs[a]);
    assert HoldsMu(s.pcs[a]) <==> s.pcs[a].claim.kind.ByOrphan?;
    PcMove(s, s', a);
  }

  // ---------------------------------------------------------------- Shutdown

  lemma KeepsShutWait(s: State, s': State, a: Agent, w: Wake)
    requires Inv(s) && ShutWait(s, s', a, w) && !w.CtxDone?
    ensures Inv(s')
  {
    hide FlightInv, BufferInv, RunsInv, TablesInv, LogInv, StrandInv, OrderInv;
    assert PcInv(s, a, s.pcs[a]);
    PcMove(s, s', a);
  }

  /** Once every worker has exited nothing is tracked any more. */
  lemma AllExitedLeavesNoRun(s: State)
    requires Inv(s) && AllExited(s)
    ensures s.sh.runs == map[]
  {
    forall q | q in s.sh.chans ensures Flight(s, q) == [] {
      assert PcInv(s, Worker(q), s.pcs[Worker(q)]);
    }
    forall r ensures r !in s.sh.runs {
      assert Open(s, r) == {};
      assert r in s.sh.runs ==> TrackedInv(s, r);
    }
    assert s.sh.runs.Keys == {};
  }

  lemma KeepsShutDrained(s: State, s': State, a: Agent)
    requires Inv(s) && ShutDrain(s, s', a, AllDone)
    ensures Inv(s')
  {
    hide FlightInv, BufferInv, RunsInv, TablesInv, LogInv, StrandInv, OrderInv;
    assert PcInv(s, a, s.pcs[a]);
    AllExitedLeavesNoRun(s);
    PcMove(s, s', a);
  }

  lemma SkipOwn(s: State, s': State, a: Agent)
    requires LockInv(s) && PcsInv(s) && ShutClaim(s, s', a) && s'.sh == s.sh && !AtFin(s', a)
    ensures LockInv(s') && (a in s'.pcs ==> PcInv(s, a, s'.pcs[a]) && s'.pcs[a].Shut?) && AtShut(s, a)
    ensures s' == s.(pcs := s'.pcs) && forall b :: b != a ==> PcOf(s', b) == PcOf(s, b)
  {
    assert PcInv(s, a, s.pcs[a]);
    hide PcsInv;
  }

  lemma KeepsShutSkip(s: State, s': State, a: Agent)
    requires Inv(s) && ShutClaim(s, s', a) && s'.sh == s.sh && !AtFin(s', a)
    ensures Inv(s')
  {
    hide FlightInv, BufferInv, RunsInv, TablesInv, LogInv, StrandInv, OrderInv, ClaimsUnique, LockInv, PcsInv, PcInv;
    SkipOwn(s, s', a);
    hide ShutClaim;
    PcMove(s, s', a);
  }
}
