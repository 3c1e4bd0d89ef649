/** The worker: result rows, the done counter, and the end of a job. */
module RunnerResults {
  import opened RunnerTypes
  import opened RunnerModel
  import opened RunnerInvariant
  import opened RunnerProof
  import opened RunnerWork

  // ---------------------------------------------------------------- occurrences of different jobs

  /** A job lists each of its occurrences once. */
  lemma OwnPositions(s: State, q: QueueId, job: Job)
    requires JobShape(s, q, job)
    ensures forall i, j :: 0 <= i < j < |job.positions| ==> job.positions[i] != job.positions[j]
    ensures forall i :: 0 <= i < |job.positions| ==>
              job.positions[i] < |s.aux.reqs[job.run].targets| && s.aux.reqs[job.run].targets[job.positions[i]].queue == q
    ensures forall p :: 0 <= p < |s.aux.reqs[job.run].targets| && s.aux.reqs[job.run].targets[p].queue == q ==> p in job.positions
  {
    hide Positions;
    PositionsSpec(s.aux.reqs[job.run].targets, q);
    forall i | 0 <= i < |job.positions|
      ensures job.positions[i] < |s.aux.reqs[job.run].targets| && s.aux.reqs[job.run].targets[job.positions[i]].queue == q
    {
      assert job.positions[i] in job.positions;
    }
  }

  /** Jobs of one run on different queues share no occurrence. */
  lemma ElsewherePositions(s: State, q: QueueId, job: Job, q': QueueId, job': Job, i: nat)
    requires JobShape(s, q, job) && JobShape(s, q', job') && job.run == job'.run && q != q' && i < |job.positions|
    ensures forall j :: 0 <= j < |job'.positions| ==> job'.positions[j] != job.positions[i]
  {
    OwnPositions(s, q, job);
    OwnPositions(s, q', job');
  }

  // ---------------------------------------------------------------- a result row lands

  /** The worker of `q` inserts the row of its occurrence `i` and moves on to `ws`. */
  ghost predicate InsertsRow(s: State, s': State, q: QueueId, i: nat, ok: bool, ws: WorkStage) {
    && At(s, q) && i < |JobAt(s, q).positions|
    && (StageAt(s, q).Engine? || StageAt(s, q).PanicStore?) && StageAt(s, q).i == i
    && s' == Stage(AddResult(s, (JobAt(s, q).run, JobAt(s, q).positions[i]), ok), q, ws)
    && (match StageAt(s, q)
        case Engine(_, qf) => ws == RowLanded(i, qf || !ok)
        case _ => !ok && ws == Mark(i, true, true))
  }

  /** No other occurrence has been touched. */
  lemma RowElsewhere(s: State, s': State, q: QueueId, i: nat, ok: bool, ws: WorkStage)
    requires InsertsRow(s, s', q, i, ok, ws)
    ensures forall o :: o != (JobAt(s, q).run, JobAt(s, q).positions[i]) ==> Get(s'.results, o) == Get(s.results, o)
    ensures Get(s'.results, (JobAt(s, q).run, JobAt(s, q).positions[i])) == Get(s.results, (JobAt(s, q).run, JobAt(s, q).positions[i])) + [ok]
    ensures OnlyRun(s, s', JobAt(s, q).run) && SameJobs(s, s') && Frame(s, s', Worker(q), JobAt(s, q).run)
  {
  }

  lemma RowWasAbsent(s: State, s': State, q: QueueId, i: nat, ok: bool, ws: WorkStage)
    requires PcsInv(s) && FlightInv(s) && InsertsRow(s, s', q, i, ok, ws)
    ensures var r, p := JobAt(s, q).run, JobAt(s, q).positions[i];
            && Get(s.results, (r, p)) == [] && r in s.aux.registered && r in s.aux.reqs
            && p < |s.aux.reqs[r].targets| && s.aux.reqs[r].targets[p].queue == q && !AllOk(s, r)
  {
    assert PcInv(s, Worker(q), s.pcs[Worker(q)]);
    WorkerJobShape(s, Worker(q));
    OwnPositions(s, q, JobAt(s, q));
  }

  lemma RowOwnInv(s: State, s': State, job: Job, i: nat, ok: bool, qf: bool)
    requires WorkInv(s, job, Engine(i, qf)) && s'.sh.runs == s.sh.runs && s'.aux == s.aux
    requires forall j, k :: 0 <= j < k < |job.positions| ==> job.positions[j] != job.positions[k]
    requires forall o :: o != (job.run, job.positions[i]) ==> Get(s'.results, o) == Get(s.results, o)
    requires Get(s'.results, (job.run, job.positions[i])) == Get(s.results, (job.run, job.positions[i])) + [ok]
    ensures WorkInv(s', job, RowLanded(i, qf || !ok))
  {
    assert FreshFrom(s', job, i + 1);
    assert MarkedTo(s', job, i);
    assert ok && OkUpTo(s, job, i) ==> OkUpTo(s', job, i + 1);
  }

  lemma RowOwnPanic(s: State, s': State, job: Job, i: nat)
    requires WorkInv(s, job, PanicStore(i)) && s'.sh.runs == s.sh.runs && s'.aux == s.aux
    requires forall j, k :: 0 <= j < k < |job.positions| ==> job.positions[j] != job.positions[k]
    requires forall o :: o != (job.run, job.positions[i]) ==> Get(s'.results, o) == Get(s.results, o)
    ensures WorkInv(s', job, Mark(i, true, true))
  {
    assert FreshFrom(s', job, i + 1);
    assert MarkedTo(s', job, i);
  }

  lemma RowOwn(s: State, s': State, q: QueueId, i: nat, ok: bool, ws: WorkStage)
    requires PcsInv(s) && FlightInv(s) && InsertsRow(s, s', q, i, ok, ws)
    ensures PcInv(s', Worker(q), s'.pcs[Worker(q)])
  {
    var job := JobAt(s, q);
    assert PcInv(s, Worker(q), s.pcs[Worker(q)]);
    WorkerJobShape(s, Worker(q));
    hide PcsInv, FlightInv, JobShape, WorkInv;
    OwnPositions(s, q, job);
    RowElsewhere(s, s', q, i, ok, ws);
    if StageAt(s, q).Engine? {
      RowOwnInv(s, s', job, i, ok, StageAt(s, q).queueFailed);
    } else {
      RowOwnPanic(s, s', job, i);
    }
  }

  lemma RowOther(s: State, s': State, q: QueueId, i: nat, ok: bool, ws: WorkStage, b: Agent)
    requires PcsInv(s) && FlightInv(s) && InsertsRow(s, s', q, i, ok, ws)
    requires b in s.pcs && b != Worker(q) && Concerns(s.pcs[b], JobAt(s, q).run)
    ensures PcInv(s', b, s.pcs[b])
  {
    var pc := s.pcs[b];
    assert PcInv(s, b, pc);
    RowElsewhere(s, s', q, i, ok, ws);
    RowWasAbsent(s, s', q, i, ok, ws);
    if pc.Work? {
      WorkerJobShape(s, Worker(q));
      WorkerJobShape(s, b);
      hide PcsInv, FlightInv, JobShape;
      ElsewherePositions(s, q, JobAt(s, q), b.queue, pc.job, i);
      RowWork(s, s', pc.job, pc.ws);
    }
  }

  lemma RowWork(s: State, s': State, job: Job, ws: WorkStage)
    requires WorkInv(s, job, ws) && s'.sh.runs == s.sh.runs && s'.aux == s.aux
    requires forall j :: 0 <= j < |job.positions| ==>
               Get(s'.results, (job.run, job.positions[j])) == Get(s.results, (job.run, job.positions[j]))
    ensures WorkInv(s', job, ws)
  {
    assert forall k :: FreshFrom(s, job, k) ==> FreshFrom(s', job, k);
    assert forall k :: MarkedTo(s, job, k) ==> MarkedTo(s', job, k);
    assert forall k :: OkUpTo(s, job, k) ==> OkUpTo(s', job, k);
  }

  lemma RowAgents(s: State, s': State, q: QueueId, i: nat, ok: bool, ws: WorkStage)
    requires LockInv(s) && ClaimsUnique(s) && FlightInv(s) && PcsInv(s) && StrandInv(s) && InsertsRow(s, s', q, i, ok, ws)
    ensures LockInv(s') && ClaimsUnique(s') && PcsInv(s') && StrandInv(s')
  {
    hide LockInv, ClaimsUnique, FlightInv, PcsInv, StrandInv, Frame;
    var a, r := Worker(q), JobAt(s, q).run;
    RowOwn(s, s', q, i, ok, ws);
    forall b | b in s.pcs && b != a && Concerns(s.pcs[b], r) ensures PcInv(s', b, s.pcs[b]) {
      RowOther(s, s', q, i, ok, ws, b);
    }
    RowElsewhere(s, s', q, i, ok, ws);
    AgentsKept(s, s', a, r);
  }

  lemma RowTables(s: State, s': State, q: QueueId, i: nat, ok: bool, ws: WorkStage)
    requires TablesInv(s) && PcsInv(s) && FlightInv(s) && InsertsRow(s, s', q, i, ok, ws)
    ensures TablesInv(s')
  {
    RowWasAbsent(s, s', q, i, ok, ws);
    RowElsewhere(s, s', q, i, ok, ws);
    hide PcsInv, FlightInv;
    assert forall x :: x in s.aux.reqs && AllOk(s, x) ==> AllOk(s', x);
  }

  lemma RowTracked(s: State, s': State, q: QueueId, i: nat, ok: bool, ws: WorkStage, r: RunId)
    requires RunsInv(s) && PcsInv(s) && FlightInv(s) && InsertsRow(s, s', q, i, ok, ws) && r == JobAt(s, q).run
    requires Open(s', r) == Open(s, r)
    ensures r in s'.sh.runs ==> TrackedInv(s', r)
  {
    RowWasAbsent(s, s', q, i, ok, ws);
    RowElsewhere(s, s', q, i, ok, ws);
    WorkerJobShape(s, Worker(q));
    assert q in Open(s, r);
    hide PcsInv, FlightInv;
    assert r in s.sh.runs ==> TrackedInv(s, r);
  }

  /** A buffered job of the same run waits on another queue. */
  lemma BufferedElsewhere(s: State, q: QueueId, p: QueueId, k: nat)
    requires PcsInv(s) && FlightInv(s) && At(s, q) && p in s.sh.chans && k < |s.sh.chans[p]|
    requires s.sh.chans[p][k].run == JobAt(s, q).run
    ensures p != q && JobShape(s, p, s.sh.chans[p][k]) && JobShape(s, q, JobAt(s, q))
  {
    WorkerJobShape(s, Worker(q));
    assert Flight(s, p)[(if At(s, p) then 1 else 0) + k] == s.sh.chans[p][k];
    assert JobShape(s, p, Flight(s, p)[(if At(s, p) then 1 else 0) + k]);
    assert Flight(s, q)[0] == JobAt(s, q) && DistinctRuns(Flight(s, q));
  }

  lemma RowBuffers(s: State, s': State, q: QueueId, i: nat, ok: bool, ws: WorkStage)
    requires BufferInv(s) && PcsInv(s) && FlightInv(s) && InsertsRow(s, s', q, i, ok, ws)
    ensures BufferInv(s')
  {
    hide PcsInv, FlightInv;
    RowElsewhere(s, s', q, i, ok, ws);
    forall p, k | p in s.sh.chans && 0 <= k < |s.sh.chans[p]| && s.sh.chans[p][k].run == JobAt(s, q).run
      ensures FreshFrom(s', s.sh.chans[p][k], 0) && MarkedTo(s', s.sh.chans[p][k], 0)
    {
      BufferedElsewhere(s, q, p, k);
      ElsewherePositions(s, q, JobAt(s, q), p, s.sh.chans[p][k], i);
      assert FreshFrom(s, s.sh.chans[p][k], 0) && MarkedTo(s, s.sh.chans[p][k], 0);
    }
    BuffersKept(s, s', JobAt(s, q).run);
  }

  lemma KeepsRow(s: State, s': State, q: QueueId, i: nat, ok: bool, ws: WorkStage)
    requires Inv(s) && InsertsRow(s, s', q, i, ok, ws)
    ensures Inv(s')
  {
    hide LockInv, ClaimsUnique, FlightInv, BufferInv, RunsInv, PcsInv, TablesInv, LogInv, StrandInv, OrderInv, OnlyRun, Frame;
    RowAgents(s, s', q, i, ok, ws);
    RowElsewhere(s, s', q, i, ok, ws);
    SameFlight(s, s');
    KeepFlight(s, s');
    RowBuffers(s, s', q, i, ok, ws);
    RowTracked(s, s', q, i, ok, ws, JobAt(s, q).run);
    RunsKept(s, s', JobAt(s, q).run);
    RowTables(s, s', q, i, ok, ws);
    KeepLog(s, s');
    KeepOrder(s, s');
  }

  // ---------------------------------------------------------------- an occurrence is counted

  ghost predicate Counts(s: State, s': State, q: QueueId, r: RunId, i: nat) {
    && At(s, q) && StageAt(s, q).Mark? && i == StageAt(s, q).i < |JobAt(s, q).positions|
    && r == JobAt(s, q).run && r in s.sh.runs && MarkStep(s, s', q)
  }

  lemma CountFrame(s: State, s': State, q: QueueId, r: RunId, i: nat)
    requires Counts(s, s', q, r, i)
    ensures Frame(s, s', Worker(q), r) && OnlyRun(s, s', r) && SameJobs(s, s')
    ensures Marked(s', r) == Marked(s, r) + {JobAt(s, q).positions[i]}
    ensures r in s'.sh.runs && s'.sh.runs[r] == s.sh.runs[r].(done := s.sh.runs[r].done + 1)
  {
  }

  lemma CountOwnPosition(s: State, s': State, q: QueueId, r: RunId, i: nat)
    requires PcsInv(s) && FlightInv(s) && Counts(s, s', q, r, i)
    ensures var p := JobAt(s, q).positions[i];
            p !in Marked(s, r) && r in s.aux.reqs && p < |s.aux.reqs[r].targets| && s.aux.reqs[r].targets[p].queue == q
  {
    assert PcInv(s, Worker(q), s.pcs[Worker(q)]);
    WorkerJobShape(s, Worker(q));
    OwnPositions(s, q, JobAt(s, q));
  }

  lemma CountTracked(s: State, s': State, q: QueueId, r: RunId, i: nat)
    requires RunsInv(s) && PcsInv(s) && FlightInv(s) && Counts(s, s', q, r, i) && Open(s', r) == Open(s, r)
    ensures TrackedInv(s', r)
  {
    hide PcsInv, FlightInv, Counts, Open;
    CountOwnPosition(s, s', q, r, i);
    CountFrame(s, s', q, r, i);
    CountShared(s, s', q, r, i);
    TrackedCounted(s, s', r, JobAt(s, q).positions[i]);
  }

  lemma CountShared(s: State, s': State, q: QueueId, r: RunId, i: nat)
    requires Counts(s, s', q, r, i)
    ensures At(s, q) && i < |JobAt(s, q).positions| && r in s.sh.runs
    ensures s'.rows == s.rows && s'.results == s.results && s'.sh.finalizing == s.sh.finalizing
    ensures s'.aux.registered == s.aux.registered && s'.aux.reqs == s.aux.reqs
  {
  }

  /** One more position of a tracked run is marked. */
  lemma TrackedCounted(s: State, s': State, r: RunId, p: nat)
    requires r in s.sh.runs && TrackedInv(s, r) && r in s'.sh.runs && Open(s', r) == Open(s, r)
    requires s'.rows == s.rows && s'.results == s.results && s'.sh.finalizing == s.sh.finalizing
    requires s'.aux.registered == s.aux.registered && s'.aux.reqs == s.aux.reqs
    requires s'.sh.runs[r] == s.sh.runs[r].(done := s.sh.runs[r].done + 1)
    requires p !in Marked(s, r) && p < s.sh.runs[r].total && Marked(s', r) == Marked(s, r) + {p}
    ensures TrackedInv(s', r)
  {
    hide Open;
  }

  lemma CountStage(s: State, s': State, q: QueueId, r: RunId, i: nat)
    requires Counts(s, s', q, r, i) && r in s'.sh.runs
    ensures var ws := StageAt(s, q);
            s'.pcs[Worker(q)] == Work(JobAt(s, q), Publishing(i + 1, ws.queueFailed, s'.sh.runs[r].total, s'.sh.runs[r].done, ws.panicked))
    ensures s'.results == s.results
  {
  }

  lemma CountOwnInv(s: State, s': State, job: Job, i: nat, qf: bool, panicked: bool)
    requires WorkInv(s, job, Mark(i, qf, panicked)) && job.run in s.sh.runs && job.run in s'.sh.runs
    requires s'.results == s.results && Marked(s', job.run) == Marked(s, job.run) + {job.positions[i]}
    requires forall j, k :: 0 <= j < k < |job.positions| ==> job.positions[j] != job.positions[k]
    requires s'.sh.runs[job.run].done <= s'.sh.runs[job.run].total
    ensures WorkInv(s', job, Publishing(i + 1, qf, s'.sh.runs[job.run].total, s'.sh.runs[job.run].done, panicked))
  {
    assert MarkedTo(s', job, i + 1);
    assert FreshFrom(s', job, i + 1);
    assert OkUpTo(s, job, i + 1) ==> OkUpTo(s', job, i + 1);
  }

  lemma CountOwn(s: State, s': State, q: QueueId, r: RunId, i: nat)
    requires PcsInv(s) && FlightInv(s) && Counts(s, s', q, r, i) && TrackedInv(s', r)
    ensures PcInv(s', Worker(q), s'.pcs[Worker(q)])
  {
    var job := JobAt(s, q);
    assert PcInv(s, Worker(q), s.pcs[Worker(q)]);
    WorkerJobShape(s, Worker(q));
    hide PcsInv, FlightInv, TrackedInv, JobShape, MarkStep, WorkInv;
    OwnPositions(s, q, job);
    CountFrame(s, s', q, r, i);
    DoneBounded(s', r);
    CountStage(s, s', q, r, i);
    CountOwnInv(s, s', job, i, StageAt(s, q).queueFailed, StageAt(s, q).panicked);
  }

  lemma CountWork(s: State, s': State, job: Job, ws: WorkStage)
    requires WorkInv(s, job, ws) && s'.results == s.results && s'.aux.reqs == s.aux.reqs
    requires job.run in s'.sh.runs ==> job.run in s.sh.runs
    requires forall j :: 0 <= j < |job.positions| ==> (job.positions[j] in Marked(s', job.run) <==> job.positions[j] in Marked(s, job.run))
    ensures WorkInv(s', job, ws)
  {
    assert forall k :: FreshFrom(s, job, k) ==> FreshFrom(s', job, k);
    assert forall k :: MarkedTo(s, job, k) ==> MarkedTo(s', job, k);
    assert forall k :: OkUpTo(s, job, k) ==> OkUpTo(s', job, k);
  }

  lemma CountOther(s: State, s': State, q: QueueId, r: RunId, i: nat, b: Agent)
    requires PcsInv(s) && FlightInv(s) && Counts(s, s', q, r, i)
    requires b in s.pcs && b != Worker(q) && Concerns(s.pcs[b], r)
    ensures PcInv(s', b, s.pcs[b])
  {
    TrackedConcernsWorkers(s, r);
    assert PcInv(s, b, s.pcs[b]);
    WorkerJobShape(s, Worker(q));
    WorkerJobShape(s, b);
    hide PcsInv, FlightInv, JobShape;
    ElsewherePositions(s, q, JobAt(s, q), b.queue, s.pcs[b].job, i);
    CountFrame(s, s', q, r, i);
    CountWork(s, s', s.pcs[b].job, s.pcs[b].ws);
  }

  lemma CountAgents(s: State, s': State, q: QueueId, r: RunId, i: nat)
    requires LockInv(s) && ClaimsUnique(s) && FlightInv(s) && PcsInv(s) && StrandInv(s) && RunsInv(s)
    requires Counts(s, s', q, r, i) && TrackedInv(s', r)
    ensures LockInv(s') && ClaimsUnique(s') && PcsInv(s') && StrandInv(s')
  {
    hide LockInv, ClaimsUnique, FlightInv, PcsInv, StrandInv, RunsInv, TrackedInv, Frame;
    var a := Worker(q);
    CountOwn(s, s', q, r, i);
    forall b | b in s.pcs && b != a && Concerns(s.pcs[b], r) ensures PcInv(s', b, s.pcs[b]) {
      CountOther(s, s', q, r, i, b);
    }
    CountFrame(s, s', q, r, i);
    AgentsKept(s, s', a, r);
  }

  lemma CountBuffers(s: State, s': State, q: QueueId, r: RunId, i: nat)
    requires BufferInv(s) && PcsInv(s) && FlightInv(s) && Counts(s, s', q, r, i)
    ensures BufferInv(s')
  {
    hide PcsInv, FlightInv;
    CountFrame(s, s', q, r, i);
    forall p, k | p in s.sh.chans && 0 <= k < |s.sh.chans[p]| && s.sh.chans[p][k].run == r
      ensures FreshFrom(s', s.sh.chans[p][k], 0) && MarkedTo(s', s.sh.chans[p][k], 0)
    {
      BufferedElsewhere(s, q, p, k);
      ElsewherePositions(s, q, JobAt(s, q), p, s.sh.chans[p][k], i);
      assert FreshFrom(s, s.sh.chans[p][k], 0) && MarkedTo(s, s.sh.chans[p][k], 0);
    }
    BuffersKept(s, s', r);
  }

  lemma CountTables(s: State, s': State, q: QueueId, r: RunId, i: nat)
    requires TablesInv(s) && PcsInv(s) && FlightInv(s) && Counts(s, s', q, r, i)
    ensures TablesInv(s')
  {
    WorkerJobShape(s, Worker(q));
    hide PcsInv, FlightInv;
    assert forall x :: x in s.aux.reqs && AllOk(s, x) ==> AllOk(s', x);
  }

  lemma KeepsCount(s: State, s': State, q: QueueId, r: RunId, i: nat)
    requires Inv(s) && Counts(s, s', q, r, i)
    ensures Inv(s')
  {
    hide LockInv, ClaimsUnique, FlightInv, BufferInv, RunsInv, PcsInv, TablesInv, LogInv, StrandInv, OrderInv, OnlyRun, Frame, TrackedInv;
    CountFrame(s, s', q, r, i);
    SameFlight(s, s');
    CountTracked(s, s', q, r, i);
    CountAgents(s, s', q, r, i);
    KeepFlight(s, s');
    CountBuffers(s, s', q, r, i);
    RunsKept(s, s', r);
    CountTables(s, s', q, r, i);
    KeepLog(s, s');
    KeepOrder(s, s');
  }

  // ---------------------------------------------------------------- the job ends, others are pending

  ghost predicate EndsJob(s: State, s': State, q: QueueId, r: RunId) {
    && At(s, q) && StageAt(s, q).Finish? && r == JobAt(s, q).run && r in s.sh.runs
    && FinishStep(s, s', q)
  }

  /** A clean end of the job completes its share of the run. */
  lemma CleanShare(s: State, q: QueueId, r: RunId)
    requires PcsInv(s) && FlightInv(s) && At(s, q) && r == JobAt(s, q).run && r in s.sh.runs && StageAt(s, q) == Finish(false, false)
    ensures r in s.aux.reqs
    ensures forall p :: 0 <= p < |s.aux.reqs[r].targets| && s.aux.reqs[r].targets[p].queue == q ==>
              Get(s.results, (r, p)) == [true] && p in Marked(s, r)
  {
    var job := JobAt(s, q);
    assert PcInv(s, Worker(q), s.pcs[Worker(q)]);
    WorkerJobShape(s, Worker(q));
    OwnPositions(s, q, job);
    hide PcsInv, FlightInv, JobShape;
    forall p | 0 <= p < |s.aux.reqs[r].targets| && s.aux.reqs[r].targets[p].queue == q
      ensures Get(s.results, (r, p)) == [true] && p in Marked(s, r)
    {
      var i :| 0 <= i < |job.positions| && job.positions[i] == p;
    }
  }

  /** With this job done, what the other open queues do not owe is complete, if all was clean. */
  lemma CleanRest(s: State, q: QueueId, r: RunId)
    requires PcsInv(s) && FlightInv(s) && RunsInv(s) && At(s, q) && StageAt(s, q).Finish?
    requires r == JobAt(s, q).run && r in s.sh.runs
    ensures TrackedInv(s, r)
    ensures var st := Outcome(s.sh.runs[r], StageAt(s, q).failed, StageAt(s, q).canceled);
            !st.failed && !st.canceled ==>
              forall p :: 0 <= p < st.total && s.aux.reqs[r].targets[p].queue !in Open(s, r) - {q} ==>
                            Get(s.results, (r, p)) == [true] && p in Marked(s, r)
  {
    assert TrackedInv(s, r);
    if StageAt(s, q) == Finish(false, false) {
      CleanShare(s, q, r);
    }
  }

  lemma MoreFrame(s: State, s': State, q: QueueId, r: RunId)
    requires EndsJob(s, s', q, r) && s.sh.runs[r].pending > 1
    ensures Frame(s, s', Worker(q), r) && SameRun(s, s', r) && OnlyRun(s, s', r) && Drops(s, s', q)
  {
  }

  lemma MoreAgents(s: State, s': State, q: QueueId, r: RunId)
    requires LockInv(s) && ClaimsUnique(s) && PcsInv(s) && StrandInv(s)
    requires EndsJob(s, s', q, r) && s.sh.runs[r].pending > 1 && Frame(s, s', Worker(q), r) && SameRun(s, s', r)
    ensures LockInv(s') && ClaimsUnique(s') && PcsInv(s') && StrandInv(s')
  {
    hide LockInv, ClaimsUnique, PcsInv, StrandInv, Frame, SameRun;
    AgentsKept(s, s', Worker(q), r);
  }

  lemma MoreTracked(s: State, s': State, q: QueueId, r: RunId)
    requires PcsInv(s) && FlightInv(s) && RunsInv(s) && EndsJob(s, s', q, r) && s.sh.runs[r].pending > 1
    requires Open(s', r) == Open(s, r) - {q} && q in Open(s, r)
    ensures r in s'.sh.runs && TrackedInv(s', r)
  {
    CleanRest(s, q, r);
    hide PcsInv, FlightInv, RunsInv;
    assert |Open(s, r) - {q}| == |Open(s, r)| - 1;
  }

  lemma KeepsFinishMore(s: State, s': State, q: QueueId, r: RunId)
    requires Inv(s) && EndsJob(s, s', q, r) && s.sh.runs[r].pending > 1
    ensures Inv(s')
  {
    hide LockInv, ClaimsUnique, FlightInv, BufferInv, RunsInv, PcsInv, TablesInv, LogInv, StrandInv, OrderInv, OnlyRun, Frame, TrackedInv, Drops, SameRun;
    MoreFrame(s, s', q, r);
    MoreAgents(s, s', q, r);
    DropKeepsFlight(s, s', q);
    DropOpens(s, s', q);
    MoreTracked(s, s', q, r);
    RunsKept(s, s', r);
    KeepBuffers(s, s');
    KeepTables(s, s');
    KeepLog(s, s');
    KeepOrder(s, s');
  }

  // ---------------------------------------------------------------- the last job ends

  lemma {:induction false} FullSetSize(m: set<nat>, n: nat)
    requires forall p: nat :: p in m <==> p < n
    ensures |m| == n
  {
    if n == 0 {
      assert m == {};
    } else {
      FullSetSize(m - {n - 1}, n - 1);
    }
  }

  lemma LastFrame(s: State, s': State, q: QueueId, r: RunId)
    requires EndsJob(s, s', q, r) && s.sh.runs[r].pending == 1
    ensures Frame(s, s', Worker(q), r) && OnlyRun(s, s', r) && Drops(s, s', q)
  {
  }

  /** When one job is pending it is this one: nobody else has to do with the run. */
  lemma LastIsAlone(s: State, q: QueueId, r: RunId)
    requires PcsInv(s) && FlightInv(s) && RunsInv(s) && At(s, q) && r == JobAt(s, q).run
    requires r in s.sh.runs && s.sh.runs[r].pending == 1
    ensures Open(s, r) == {q}
    ensures forall b :: b in s.pcs && b != Worker(q) ==> !Concerns(s.pcs[b], r)
    ensures forall b :: b in s.pcs ==> !Holds(s.pcs[b], r)
  {
    assert TrackedInv(s, r);
    WorkerJobShape(s, Worker(q));
    assert q in Open(s, r);
    assert Open(s, r) == {q} by {
      assert |Open(s, r) - {q}| == 0;
    }
    TrackedConcernsWorkers(s, r);
    hide PcsInv, FlightInv, RunsInv;
    forall b | b in s.pcs && b != Worker(q) ensures !Concerns(s.pcs[b], r) {
      if s.pcs[b].Work? {
        WorkerJobShape(s, b);
        var job := s.pcs[b].job;
        assert job.queue != q && job.queue in Open(s, job.run);
        assert job.run != r;
      }
    }
  }

  lemma LastClaim(s: State, s': State, q: QueueId, r: RunId)
    requires PcsInv(s) && FlightInv(s) && RunsInv(s) && EndsJob(s, s', q, r) && s.sh.runs[r].pending == 1
    requires Open(s, r) == {q}
    ensures AtFin(s', Worker(q)) && PcInv(s', Worker(q), s'.pcs[Worker(q)])
  {
    CleanRest(s, q, r);
    hide PcsInv, FlightInv, RunsInv;
    DoneBounded(s, r);
    var st := Outcome(s.sh.runs[r], StageAt(s, q).failed, StageAt(s, q).canceled);
    if FinalStatus(st).Done? {
      assert Open(s, r) - {q} == {};
      FullSetSize(Marked(s, r), st.total);
    }
  }

  lemma LastAgents(s: State, s': State, q: QueueId, r: RunId)
    requires LockInv(s) && ClaimsUnique(s) && FlightInv(s) && PcsInv(s) && StrandInv(s) && RunsInv(s)
    requires EndsJob(s, s', q, r) && s.sh.runs[r].pending == 1 && Frame(s, s', Worker(q), r)
    ensures LockInv(s') && ClaimsUnique(s') && PcsInv(s') && StrandInv(s') && r in s.rows
  {
    hide LockInv, ClaimsUnique, FlightInv, PcsInv, StrandInv, RunsInv, Frame, TrackedInv;
    LastIsAlone(s, q, r);
    LastClaim(s, s', q, r);
    AgentsKept(s, s', Worker(q), r);
  }

  lemma ClaimTables(s: State, s': State, r: RunId)
    requires TablesInv(s) && r in s.rows
    requires s'.rows == s.rows && s'.results == s.results && s'.log == s.log && s'.aux == s.aux.(forced := s'.aux.forced)
    requires s'.sh.finalizing == s.sh.finalizing + {r} && s'.sh.closed == s.sh.closed
    requires s'.sh.closing == s.sh.closing && s'.sh.chans == s.sh.chans
    ensures TablesInv(s')
  {
    assert forall x :: x in s.aux.reqs && AllOk(s, x) ==> AllOk(s', x);
  }

  lemma KeepsFinishLast(s: State, s': State, q: QueueId, r: RunId)
    requires Inv(s) && EndsJob(s, s', q, r) && s.sh.runs[r].pending == 1
    ensures Inv(s')
  {
    hide LockInv, ClaimsUnique, FlightInv, BufferInv, RunsInv, PcsInv, TablesInv, LogInv, StrandInv, OrderInv, OnlyRun, Frame, TrackedInv, Drops;
    LastFrame(s, s', q, r);
    LastAgents(s, s', q, r);
    DropKeepsFlight(s, s', q);
    DropOpens(s, s', q);
    RunsKept(s, s', r);
    KeepBuffers(s, s');
    ClaimTables(s, s', r);
    KeepLog(s, s');
    KeepOrder(s, s');
  }
}
