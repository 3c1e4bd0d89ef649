/** The worker: taking, starting, executing and finishing a job. */
module RunnerWork {
  import opened RunnerTypes
  import opened RunnerModel
  import opened RunnerInvariant
  import opened RunnerProof

  // ---------------------------------------------------------------- dequeuing

  lemma DequeueFlight(s: State, s': State, q: QueueId)
    requires FlightInv(s) && Dequeue(s, s', q)
    ensures FlightInv(s') && (forall x :: Open(s', x) == Open(s, x)) && s'.sh.chans.Keys == s.sh.chans.Keys
    ensures Frame(s, s', Worker(q), s.sh.chans[q][0].run) && s.sh.chans[q][0].queue == q
  {
    forall p ensures Flight(s', p) == Flight(s, p) {
      assert p != q ==> At(s', p) == At(s, p);
    }
    forall p, i | 0 <= i < |Flight(s', p)| ensures JobShape(s', p, Flight(s', p)[i]) {
      assert JobShape(s, p, Flight(s, p)[i]);
    }
    assert JobShape(s, q, Flight(s, q)[0]);
    forall x ensures Open(s', x) == Open(s, x) {
      assert forall p :: InFlight(s', x, p) == InFlight(s, x, p);
    }
  }

  lemma DequeueOwn(s: State, s': State, q: QueueId)
    requires BufferInv(s) && Dequeue(s, s', q) && s.sh.chans[q][0].queue == q
    ensures PcInv(s', Worker(q), s'.pcs[Worker(q)])
  {
    assert FreshFrom(s, s.sh.chans[q][0], 0) && MarkedTo(s, s.sh.chans[q][0], 0);
  }

  lemma DequeueBuffers(s: State, s': State, q: QueueId)
    requires BufferInv(s) && Dequeue(s, s', q)
    ensures BufferInv(s')
  {
    forall p, i | p in s'.sh.chans && 0 <= i < |s'.sh.chans[p]|
      ensures FreshFrom(s', s'.sh.chans[p][i], 0) && MarkedTo(s', s'.sh.chans[p][i], 0)
    {
      var k := if p == q then i + 1 else i;
      assert FreshFrom(s, s.sh.chans[p][k], 0) && MarkedTo(s, s.sh.chans[p][k], 0);
    }
  }

  lemma DequeueAgents(s: State, s': State, q: QueueId)
    requires LockInv(s) && ClaimsUnique(s) && PcsInv(s) && StrandInv(s) && BufferInv(s)
    requires Dequeue(s, s', q) && s.sh.chans[q][0].queue == q && Frame(s, s', Worker(q), s.sh.chans[q][0].run)
    ensures LockInv(s') && ClaimsUnique(s') && PcsInv(s') && StrandInv(s') && BufferInv(s')
  {
    hide LockInv, ClaimsUnique, PcsInv, StrandInv, BufferInv, Frame, PcInv;
    DequeueOwn(s, s', q);
    DequeueBuffers(s, s', q);
    forall b | b in s.pcs && b != Worker(q) && Concerns(s.pcs[b], s.sh.chans[q][0].run) ensures PcInv(s', b, s.pcs[b]) {
      DequeueOther(s, s', q, b);
    }
    AgentsKept(s, s', Worker(q), s.sh.chans[q][0].run);
  }

  lemma DequeueOther(s: State, s': State, q: QueueId, b: Agent)
    requires PcsInv(s) && Dequeue(s, s', q) && b in s.pcs && Frame(s, s', Worker(q), s.sh.chans[q][0].run)
    requires Concerns(s.pcs[b], s.sh.chans[q][0].run)
    ensures PcInv(s', b, s.pcs[b])
  {
    assert PcInv(s, b, s.pcs[b]);
    hide PcsInv;
    DequeueSameRun(s, s', q);
    hide Dequeue;
    PcKept(s, s', b, s.pcs[b]);
  }

  lemma DequeueSameRun(s: State, s': State, q: QueueId)
    requires Dequeue(s, s', q)
    ensures s'.rows == s.rows && forall x :: SameRun(s, s', x)
  {
  }

  lemma DequeueOrder(s: State, s': State, q: QueueId)
    requires OrderInv(s) && Dequeue(s, s', q)
    ensures OrderInv(s')
  {
    hide Dequeue, RunsOf, Get, OrderInv;
    forall p ensures Get(s'.aux.sent, p) == Get(s'.aux.taken, p) + RunsOf(Get(s'.sh.chans, p)) {
      OrderAt(s, p);
      DequeueOrderAt(s, s', q, p);
    }
    OrderHolds(s');
  }

  lemma DequeueOrderAt(s: State, s': State, q: QueueId, p: QueueId)
    requires Dequeue(s, s', q) && Get(s.aux.sent, p) == Get(s.aux.taken, p) + RunsOf(Get(s.sh.chans, p))
    ensures Get(s'.aux.sent, p) == Get(s'.aux.taken, p) + RunsOf(Get(s'.sh.chans, p))
  {
    DequeueMoves(s, s', q);
    if p == q {
      var buf := s.sh.chans[q];
      RunsOfTail(buf);
      HeadGoesOver(Get(s.aux.taken, q), buf[0].run, RunsOf(buf[1..]));
    }
  }

  lemma HeadGoesOver(taken: seq<RunId>, head: RunId, rest: seq<RunId>)
    ensures taken + ([head] + rest) == (taken + [head]) + rest
  {
  }

  lemma OrderAt(s: State, q: QueueId)
    requires OrderInv(s)
    ensures Get(s.aux.sent, q) == Get(s.aux.taken, q) + RunsOf(Get(s.sh.chans, q))
  {
    hide RunsOf, Get;
  }

  lemma OrderHolds(s: State)
    requires forall q :: Get(s.aux.sent, q) == Get(s.aux.taken, q) + RunsOf(Get(s.sh.chans, q))
    ensures OrderInv(s)
  {
    hide RunsOf, Get;
  }

  lemma DequeueMoves(s: State, s': State, q: QueueId)
    requires Dequeue(s, s', q)
    ensures q in s.sh.chans && s.sh.chans[q] != [] && s'.aux.sent == s.aux.sent
    ensures Get(s.sh.chans, q) == s.sh.chans[q] && Get(s'.sh.chans, q) == s.sh.chans[q][1..]
    ensures Get(s'.aux.taken, q) == Get(s.aux.taken, q) + [s.sh.chans[q][0].run]
    ensures forall p :: p != q ==> Get(s'.sh.chans, p) == Get(s.sh.chans, p) && Get(s'.aux.taken, p) == Get(s.aux.taken, p)
  {
  }

  lemma RunsOfTail(buf: seq<Job>)
    requires buf != []
    ensures RunsOf(buf) == [buf[0].run] + RunsOf(buf[1..])
  {
  }

  lemma KeepsDequeue(s: State, s': State, q: QueueId)
    requires Inv(s) && Dequeue(s, s', q)
    ensures Inv(s')
  {
    hide LockInv, ClaimsUnique, FlightInv, BufferInv, RunsInv, PcsInv, TablesInv, LogInv, StrandInv, OrderInv, Frame;
    DequeueFlight(s, s', q);
    DequeueAgents(s, s', q);
    DequeueOrder(s, s', q);
    KeepRuns(s, s');
    KeepTables(s, s');
    FrameParts(s, s', Worker(q), s.sh.chans[q][0].run);
    KeepLog(s, s');
  }

  // ---------------------------------------------------------------- dropping a job

  /** The worker of `q` let go of its job and nothing else moved between channels and workers. */
  ghost predicate Drops(s: State, s': State, q: QueueId) {
    && At(s, q) && !At(s', q) && s'.sh.chans == s.sh.chans
    && s'.aux.registered == s.aux.registered && s'.aux.reqs == s.aux.reqs
    && forall p :: p != q ==> PcOf(s', Worker(p)) == PcOf(s, Worker(p))
  }

  lemma DropFlight(s: State, s': State, q: QueueId)
    requires FlightInv(s) && Drops(s, s', q)
    ensures Flight(s', q) == Flight(s, q)[1..] && Flight(s, q)[0] == JobAt(s, q)
    ensures forall p :: p != q ==> Flight(s', p) == Flight(s, p) && At(s', p) == At(s, p)
  {
    forall p | p != q ensures Flight(s', p) == Flight(s, p) && At(s', p) == At(s, p) {
      assert PcOf(s', Worker(p)) == PcOf(s, Worker(p));
    }
  }

  lemma DropKeepsFlight(s: State, s': State, q: QueueId)
    requires FlightInv(s) && Drops(s, s', q)
    ensures FlightInv(s')
  {
    DropFlight(s, s', q);
    forall p, i | 0 <= i < |Flight(s', p)| ensures JobShape(s', p, Flight(s', p)[i]) {
      assert JobShape(s, p, Flight(s, p)[if p == q then i + 1 else i]);
    }
    forall p ensures DistinctRuns(Flight(s', p)) {
      assert DistinctRuns(Flight(s, p));
    }
  }

  lemma DropOpen(s: State, s': State, q: QueueId, x: RunId)
    requires FlightInv(s) && Drops(s, s', q)
    ensures Open(s', x) == if x == JobAt(s, q).run then Open(s, x) - {q} else Open(s, x)
    ensures x == JobAt(s, q).run ==> q in Open(s, x)
  {
    DropFlight(s, s', q);
    forall p ensures p in Open(s', x) <==> p in Open(s, x) && !(x == JobAt(s, q).run && p == q) {
      if p == q {
        assert DistinctRuns(Flight(s, q));
        if InFlight(s, x, q) && x != JobAt(s, q).run {
          var i :| 0 <= i < |Flight(s, q)| && Flight(s, q)[i].run == x;
          assert Flight(s', q)[i - 1].run == x;
        }
      } else {
        assert InFlight(s', x, p) == InFlight(s, x, p);
      }
    }
    assert x == JobAt(s, q).run ==> Flight(s, q)[0].run == x;
  }

  lemma DropOpens(s: State, s': State, q: QueueId)
    requires FlightInv(s) && Drops(s, s', q)
    ensures forall x :: Open(s', x) == if x == JobAt(s, q).run then Open(s, x) - {q} else Open(s, x)
    ensures q in Open(s, JobAt(s, q).run)
  {
    hide FlightInv;
    forall x ensures Open(s', x) == if x == JobAt(s, q).run then Open(s, x) - {q} else Open(s, x) {
      DropOpen(s, s', q, x);
    }
    DropOpen(s, s', q, JobAt(s, q).run);
  }

  /** The job of a run that is no longer tracked is let go. */
  lemma UntrackedAgents(s: State, s': State, q: QueueId)
    requires LockInv(s) && ClaimsUnique(s) && PcsInv(s) && StrandInv(s)
    requires At(s, q) && s' == Leave(s, Worker(q))
    ensures LockInv(s') && ClaimsUnique(s') && PcsInv(s') && StrandInv(s') && Drops(s, s', q)
  {
    AgentsKept(s, s', Worker(q), JobAt(s, q).run);
  }

  lemma KeepsUntrackedDrop(s: State, s': State, q: QueueId)
    requires Inv(s) && At(s, q) && s' == Leave(s, Worker(q)) && JobAt(s, q).run !in s.sh.runs
    ensures Inv(s')
  {
    hide LockInv, ClaimsUnique, FlightInv, BufferInv, RunsInv, PcsInv, TablesInv, LogInv, StrandInv, OrderInv, Drops;
    UntrackedAgents(s, s', q);
    DropKeepsFlight(s, s', q);
    DropOpens(s, s', q);
    KeepBuffers(s, s');
    KeepRuns(s, s');
    KeepTables(s, s');
    KeepLog(s, s');
    KeepOrder(s, s');
  }

  // ---------------------------------------------------------------- starting

  lemma StartOther(s: State, s': State, r: RunId, b: Agent)
    requires PcsInv(s) && r in s.sh.runs && b in s.pcs && Concerns(s.pcs[b], r)
    requires s' == s.(sh := StartSection(s.sh, r), pcs := s'.pcs)
    ensures PcInv(s', b, s.pcs[b])
  {
    TrackedConcernsWorkers(s, r);
    assert PcInv(s, b, s.pcs[b]);
    WorkKept(s, s', s.pcs[b].job, s.pcs[b].ws);
  }

  lemma StartOwn(s: State, s': State, q: QueueId, r: RunId)
    requires PcsInv(s) && RunsInv(s)
    requires At(s, q) && StageAt(s, q).Got? && r == JobAt(s, q).run && r in s.sh.runs
    requires s' == Stage(s, q, SetRunning(s.sh.runs[r].total, 0)).(sh := StartSection(s.sh, r))
    ensures PcInv(s', Worker(q), s'.pcs[Worker(q)])
  {
    assert PcInv(s, Worker(q), s.pcs[Worker(q)]);
    assert TrackedInv(s, r);
    WorkKept(s, s', JobAt(s, q), Got);
  }

  lemma StartAgents(s: State, s': State, q: QueueId, r: RunId)
    requires LockInv(s) && ClaimsUnique(s) && FlightInv(s) && PcsInv(s) && StrandInv(s) && RunsInv(s)
    requires At(s, q) && StageAt(s, q).Got? && r == JobAt(s, q).run && r in s.sh.runs
    requires s' == Stage(s, q, SetRunning(s.sh.runs[r].total, 0)).(sh := StartSection(s.sh, r))
    ensures LockInv(s') && ClaimsUnique(s') && PcsInv(s') && StrandInv(s') && SameJobs(s, s') && OnlyRun(s, s', r)
  {
    hide LockInv, ClaimsUnique, FlightInv, PcsInv, StrandInv, RunsInv;
    var a := Worker(q);
    StartOwn(s, s', q, r);
    forall b | b in s.pcs && b != a && Concerns(s.pcs[b], r) ensures PcInv(s', b, s.pcs[b]) {
      StartOther(s, s', r, b);
    }
    AgentsKept(s, s', a, r);
  }

  lemma StartTracked(s: State, s': State, r: RunId)
    requires RunsInv(s) && r in s.sh.runs && s' == s.(sh := StartSection(s.sh, r), pcs := s'.pcs) && Open(s', r) == Open(s, r)
    ensures TrackedInv(s', r)
  {
    assert TrackedInv(s, r);
  }

  lemma KeepsExecStart(s: State, s': State, q: QueueId, r: RunId)
    requires Inv(s) && ExecBegin(s, s', q) && r == JobAt(s, q).run && r in s.sh.runs && !MustNotStart(s.sh, r)
    ensures Inv(s')
  {
    hide LockInv, ClaimsUnique, FlightInv, BufferInv, RunsInv, PcsInv, TablesInv, LogInv, StrandInv, OrderInv, OnlyRun;
    StartAgents(s, s', q, r);
    SameFlight(s, s');
    KeepFlight(s, s');
    KeepBuffers(s, s');
    StartTracked(s, s', r);
    RunsKept(s, s', r);
    KeepTables(s, s');
    KeepLog(s, s');
    KeepOrder(s, s');
  }

  // ---------------------------------------------------------------- writing "running"

  ghost predicate WritesRunning(s: State, s': State, q: QueueId, r: RunId) {
    && At(s, q) && StageAt(s, q).SetRunning? && r == JobAt(s, q).run && Pending(s, r)
    && s' == Stage(s, q, ReadDone(StageAt(s, q).total)).(rows := s.rows[r := s.rows[r].(status := Running)])
  }

  lemma RunningOther(s: State, s': State, q: QueueId, r: RunId, b: Agent)
    requires PcsInv(s) && FlightInv(s) && WritesRunning(s, s', q, r) && b in s.pcs && Concerns(s.pcs[b], r)
    ensures PcInv(s', b, s.pcs[b])
  {
    var pc := s.pcs[b];
    assert PcInv(s, b, pc);
    WorkerJobShape(s, Worker(q));
    if pc.Work? {
      WorkKept(s, s', pc.job, pc.ws);
    }
  }

  lemma RunningAgents(s: State, s': State, q: QueueId, r: RunId)
    requires LockInv(s) && ClaimsUnique(s) && FlightInv(s) && PcsInv(s) && StrandInv(s)
    requires WritesRunning(s, s', q, r)
    ensures LockInv(s') && ClaimsUnique(s') && PcsInv(s') && StrandInv(s') && SameJobs(s, s') && OnlyRun(s, s', r)
  {
    hide LockInv, ClaimsUnique, FlightInv, PcsInv, StrandInv;
    var a := Worker(q);
    RunningOther(s, s', q, r, a);
    forall b | b in s.pcs && b != a && Concerns(s.pcs[b], r) ensures PcInv(s', b, s.pcs[b]) {
      RunningOther(s, s', q, r, b);
    }
    ScheduleStays(s, s', r);
    AgentsKept(s, s', a, r);
  }

  lemma ScheduleStays(s: State, s': State, r: RunId)
    requires r in s.rows && s.rows[r].Active() && s'.rows == s.rows[r := s.rows[r].(status := Running)]
    ensures forall sch :: ActiveForSchedule(s'.rows, sch) ==> ActiveForSchedule(s.rows, sch)
  {
    forall sch | ActiveForSchedule(s'.rows, sch) ensures ActiveForSchedule(s.rows, sch) {
      var x :| x in s'.rows && s'.rows[x].schedule == sch && s'.rows[x].Active();
      assert s.rows[x].schedule == sch && s.rows[x].Active();
    }
  }

  lemma RunningTables(s: State, s': State, q: QueueId, r: RunId)
    requires TablesInv(s) && WritesRunning(s, s', q, r)
    ensures TablesInv(s')
  {
    assert forall x :: x in s.aux.reqs && AllOk(s, x) ==> AllOk(s', x);
  }

  lemma RunningLog(s: State, s': State, q: QueueId, r: RunId)
    requires LogInv(s) && WritesRunning(s, s', q, r)
    ensures LogOk(s', r)
  {
    assert LogOk(s, r);
  }

  lemma RunningTracked(s: State, s': State, q: QueueId, r: RunId)
    requires RunsInv(s) && WritesRunning(s, s', q, r) && Open(s', r) == Open(s, r)
    ensures r in s'.sh.runs ==> TrackedInv(s', r)
  {
    if r in s'.sh.runs {
      KeepRun(s, s', r);
    }
  }

  lemma KeepsRunningWritten(s: State, s': State, q: QueueId, r: RunId)
    requires Inv(s) && WritesRunning(s, s', q, r)
    ensures Inv(s')
  {
    hide LockInv, ClaimsUnique, FlightInv, BufferInv, RunsInv, PcsInv, TablesInv, LogInv, StrandInv, OrderInv, OnlyRun;
    RunningAgents(s, s', q, r);
    SameFlight(s, s');
    KeepFlight(s, s');
    KeepBuffers(s, s');
    RunningTracked(s, s', q, r);
    RunsKept(s, s', r);
    RunningTables(s, s', q, r);
    RunningLog(s, s', q, r);
    LogsKept(s, s', r);
    KeepOrder(s, s');
  }

  // ---------------------------------------------------------------- publishing "running"

  lemma PublishAgents(s: State, s': State, q: QueueId, r: RunId)
    requires LockInv(s) && ClaimsUnique(s) && FlightInv(s) && PcsInv(s) && StrandInv(s)
    requires PublishRunning(s, s', q) && r == JobAt(s, q).run
    ensures LockInv(s') && ClaimsUnique(s') && PcsInv(s') && StrandInv(s') && SameJobs(s, s') && OnlyRun(s, s', r)
  {
    hide LockInv, ClaimsUnique, FlightInv, PcsInv, StrandInv;
    var a := Worker(q);
    PublishOther(s, s', q, r, a);
    forall b | b in s.pcs && b != a && Concerns(s.pcs[b], r) ensures PcInv(s', b, s.pcs[b]) {
      PublishOther(s, s', q, r, b);
    }
    AgentsKept(s, s', a, r);
  }

  lemma PublishOther(s: State, s': State, q: QueueId, r: RunId, b: Agent)
    requires PcsInv(s) && FlightInv(s) && PublishRunning(s, s', q) && r == JobAt(s, q).run
    requires b in s.pcs && Concerns(s.pcs[b], r)
    ensures PcInv(s', b, s.pcs[b])
  {
    var pc := s.pcs[b];
    assert PcInv(s, b, pc);
    WorkerJobShape(s, Worker(q));
    if pc.Work? {
      WorkKept(s, s', pc.job, pc.ws);
    } else if pc.Fin? {
      assert Get(s'.log, r)[..|Get(s.log, r)|] == Get(s.log, r);
    }
  }

  lemma PublishLog(s: State, s': State, q: QueueId, r: RunId)
    requires LogInv(s) && PcsInv(s) && FlightInv(s) && RunsInv(s) && PublishRunning(s, s', q) && r == JobAt(s, q).run
    ensures LogOk(s', r)
  {
    assert LogOk(s, r);
    assert PcInv(s, Worker(q), s.pcs[Worker(q)]);
    WorkerJobShape(s, Worker(q));
    assert r in s.sh.runs ==> TrackedInv(s, r);
    var evs, evs' := Get(s.log, r), Get(s'.log, r);
    assert forall i :: 0 <= i < |evs| ==> evs'[i] == evs[i];
  }

  lemma PublishTables(s: State, s': State, q: QueueId, r: RunId)
    requires TablesInv(s) && PcsInv(s) && FlightInv(s) && PublishRunning(s, s', q) && r == JobAt(s, q).run
    ensures TablesInv(s')
  {
    WorkerJobShape(s, Worker(q));
    assert forall x :: x in s.aux.reqs && AllOk(s, x) ==> AllOk(s', x);
  }

  lemma KeepsPublishRunning(s: State, s': State, q: QueueId, r: RunId)
    requires Inv(s) && PublishRunning(s, s', q) && r == JobAt(s, q).run
    ensures Inv(s')
  {
    hide LockInv, ClaimsUnique, FlightInv, BufferInv, RunsInv, PcsInv, TablesInv, LogInv, StrandInv, OrderInv, OnlyRun;
    PublishAgents(s, s', q, r);
    SameFlight(s, s');
    KeepFlight(s, s');
    KeepBuffers(s, s');
    KeepRuns(s, s');
    PublishTables(s, s', q, r);
    PublishLog(s, s', q, r);
    LogsKept(s, s', r);
    KeepOrder(s, s');
  }
}
