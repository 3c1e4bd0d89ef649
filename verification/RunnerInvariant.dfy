/**
 The inductive invariant of the runner.

 `Inv` is a conjunction of facts about the shared state (`Tracked`, `Buffers`,
 `Tables`, ...) and, for every agent, a fact about where it is (`PcInv`), stated
 over the shared state alone so that each step only has to show that it keeps
 the facts of the other agents.
 */
module RunnerInvariant {
  import opened Options
  import opened RunnerTypes
  import opened RunnerModel

  // ---------------------------------------------------------------- claims and the enqueue lock

  predicate HoldsMu(pc: Pc) {
    match pc
    case Enq(_, es) => es.Check? || es.Create? || es.Begin? || es.Held?
    case Orphan(_, os) => os.OCheck? || os.ORead?
    case Fin(c, _) => c.kind.ByOrphan?
    case _ => false
  }

  /** The agent created `r` and has not handed it to the run map yet. */
  predicate Creating(pc: Pc, r: RunId) {
    pc.Enq? && (pc.es.Begin? || pc.es.Held? || pc.es.Register?) && pc.es.run == r
  }

  /** The agent is about to write a terminal status of `r`. */
  predicate Writing(pc: Pc, r: RunId) {
    pc.Fin? && pc.claim.run == r && pc.fs.Write?
  }

  /** The agent answers for `r`: nobody else may claim it. */
  predicate Holds(pc: Pc, r: RunId) {
    || Creating(pc, r)
    || (pc.Orphan? && pc.os.ORead? && pc.run == r)
    || (pc.Fin? && pc.claim.run == r && !(pc.claim.kind.ByShutdown? && pc.fs.Publish?))
  }

  ghost predicate LockInv(s: State) {
    forall a :: a in s.pcs && HoldsMu(s.pcs[a]) <==> s.mu == Some(a)
  }

  ghost predicate ClaimsUnique(s: State) {
    forall a, b, r {:trigger Holds(s.pcs[a], r), Holds(s.pcs[b], r)} ::
      a in s.pcs && b in s.pcs && Holds(s.pcs[a], r) && Holds(s.pcs[b], r) ==> a == b
  }

  // ---------------------------------------------------------------- jobs in flight

  /** Jobs of queue `q` not yet finished: the one its worker holds, then its buffer. */
  function Flight(s: State, q: QueueId): seq<Job> {
    (if At(s, q) then [JobAt(s, q)] else []) + Get(s.sh.chans, q)
  }

  ghost predicate InFlight(s: State, r: RunId, q: QueueId) {
    exists i :: 0 <= i < |Flight(s, q)| && Flight(s, q)[i].run == r
  }

  /** The queues that still owe a finishQueue to `r`. */
  ghost function Open(s: State, r: RunId): set<QueueId> {
    set q | q in s.sh.chans && InFlight(s, r, q)
  }

  ghost predicate DistinctRuns(jobs: seq<Job>) {
    forall i, j :: 0 <= i < j < |jobs| ==> jobs[i].run != jobs[j].run
  }

  ghost predicate JobShape(s: State, q: QueueId, job: Job) {
    && job.queue == q
    && job.run in s.aux.registered && job.run in s.aux.reqs
    && job.positions == Positions(s.aux.reqs[job.run].targets, q)
  }

  ghost predicate FlightInv(s: State) {
    && (forall q :: DistinctRuns(Flight(s, q)))
    && (forall q, i :: 0 <= i < |Flight(s, q)| ==> JobShape(s, q, Flight(s, q)[i]))
    && (forall q :: At(s, q) ==> q in s.sh.chans)
  }

  // ---------------------------------------------------------------- result rows and marks

  ghost predicate FreshFrom(s: State, job: Job, k: int) {
    forall i :: 0 <= k <= i < |job.positions| ==> Get(s.results, (job.run, job.positions[i])) == []
  }

  ghost predicate OkUpTo(s: State, job: Job, k: int) {
    forall i :: 0 <= i < k && i < |job.positions| ==> Get(s.results, (job.run, job.positions[i])) == [true]
  }

  ghost predicate MarkedTo(s: State, job: Job, k: int) {
    job.run in s.sh.runs ==>
      && (forall i :: 0 <= i < k && i < |job.positions| ==> job.positions[i] in Marked(s, job.run))
      && (forall i :: 0 <= k <= i < |job.positions| ==> job.positions[i] !in Marked(s, job.run))
  }

  ghost predicate AllOk(s: State, r: RunId)
    requires r in s.aux.reqs
  {
    forall p :: 0 <= p < |s.aux.reqs[r].targets| ==> Get(s.results, (r, p)) == [true]
  }

  /** What the worker of a queue knows at each stage. */
  ghost predicate WorkInv(s: State, job: Job, ws: WorkStage) {
    match ws
    case Got => FreshFrom(s, job, 0) && MarkedTo(s, job, 0)
    case SetRunning(total, _) =>
      FreshFrom(s, job, 0) && MarkedTo(s, job, 0) && job.run in s.aux.reqs && total == |s.aux.reqs[job.run].targets|
    case ReadDone(total) =>
      FreshFrom(s, job, 0) && MarkedTo(s, job, 0) && job.run in s.aux.reqs && total == |s.aux.reqs[job.run].targets|
    case Publishing(next, qf, total, done, panicked) =>
      && next <= |job.positions| && done <= total
      && FreshFrom(s, job, next) && (!panicked ==> MarkedTo(s, job, next))
      && (!qf && !panicked ==> OkUpTo(s, job, next))
    case Loop(i, qf) =>
      && i <= |job.positions|
      && FreshFrom(s, job, i) && MarkedTo(s, job, i) && (!qf ==> OkUpTo(s, job, i))
    case Engine(i, qf) =>
      && i < |job.positions|
      && FreshFrom(s, job, i) && MarkedTo(s, job, i) && (!qf ==> OkUpTo(s, job, i))
    case RowLanded(i, qf) =>
      && i < |job.positions|
      && FreshFrom(s, job, i + 1) && MarkedTo(s, job, i) && (!qf ==> OkUpTo(s, job, i + 1))
    case Mark(i, qf, panicked) =>
      && i < |job.positions|
      && FreshFrom(s, job, i + 1) && MarkedTo(s, job, i) && (!qf && !panicked ==> OkUpTo(s, job, i + 1))
    case PanicStore(i) =>
      i < |job.positions| && FreshFrom(s, job, i) && MarkedTo(s, job, i)
    case Finish(failed, canceled) =>
      !failed && !canceled ==> OkUpTo(s, job, |job.positions|) && MarkedTo(s, job, |job.positions|)
  }

  /** The worker is between the start of execute and its finishQueue. */
  predicate Executing(ws: WorkStage) {
    !ws.Got? && !ws.Finish?
  }

  // ---------------------------------------------------------------- per agent

  ghost predicate Pending(s: State, r: RunId) {
    r in s.rows && !s.rows[r].status.Terminal()
  }

  predicate HasTerminal(evs: seq<Event>) {
    exists i :: 0 <= i < |evs| && evs[i].status.Terminal()
  }

  /** The events of `r` obey the published order: it was not force-cancelled and no "queue full" went unrecorded. */
  predicate Calm(s: State, r: RunId) {
    r !in s.aux.forced && r !in s.aux.fullLost
  }

  ghost predicate EnqInv(s: State, pc: Pc)
    requires pc.Enq?
  {
    && |pc.req.targets| > 0
    && (pc.es.Create? ==> !ActiveForSchedule(s.rows, pc.req.schedule))
    && (pc.es.Begin? || pc.es.Held? || pc.es.Register? ==>
          var r := pc.es.run;
          && Pending(s, r) && r !in s.sh.runs && r !in s.aux.registered && r !in s.log
          && r in s.aux.reqs && s.aux.reqs[r] == pc.req
          && (r in s.sh.finalizing <==> !pc.es.Begin?))
  }

  ghost predicate FinInv(s: State, pc: Pc)
    requires pc.Fin?
  {
    var c := pc.claim;
    && c.run !in s.sh.runs && c.run in s.rows
    && c.status.Terminal() && c.done <= c.total
    && (pc.fs.Write? ==> Pending(s, c.run))
    && (Holds(pc, c.run) ==> (c.run in s.sh.finalizing <==> !c.kind.ByOrphan?))
    && (c.status.Done? ==> c.run in s.aux.reqs && AllOk(s, c.run) && c.done == c.total == |s.aux.reqs[c.run].targets|)
    && (c.kind.ByShutdown? ==> c.run in s.aux.forced && s.aux.gaveUp && s.sh.closing)
    && (pc.fs.End? && pc.fs.publishAfter ==> c.kind.ByShutdown?)
    && (Calm(s, c.run) && pc.fs.Publish? ==> !HasTerminal(Get(s.log, c.run)) && s.rows[c.run].status.Terminal())
    && (c.kind.ByRefusal? ==> c.run !in s.aux.registered)
    && (!c.kind.ByRefusal? && !c.kind.ByOrphan? ==> c.run in s.aux.registered)
  }

  ghost predicate PcInv(s: State, a: Agent, pc: Pc) {
    match pc
    case Enq(_, _) => a.Caller? && EnqInv(s, pc)
    case Orphan(r, os) => a.Caller? && (os.ORead? ==> r !in s.sh.runs && r !in s.sh.finalizing)
    case Work(job, ws) =>
      && a == Worker(job.queue)
      && WorkInv(s, job, ws)
      && (Executing(ws) && job.run in s.sh.runs ==> s.sh.runs[job.run].started)
      && (Executing(ws) && Calm(s, job.run) ==> job.run in s.sh.runs)
    case Fin(c, _) => (a.Worker? <==> c.kind.ByLastQueue?) && FinInv(s, pc)
    case Shut(ss) =>
      && a.Caller? && s.sh.closing
      && (ss.MarkAll? && ss.gaveUp ==> s.aux.gaveUp)
      && (ss.Force? && !s.aux.gaveUp ==> s.sh.runs == map[])
    case Exited => a.Worker? && s.sh.closing && Get(s.sh.chans, a.queue) == []
  }

  ghost predicate PcsInv(s: State) {
    forall a :: a in s.pcs ==> PcInv(s, a, s.pcs[a])
  }

  // ---------------------------------------------------------------- shared state

  ghost predicate TrackedInv(s: State, r: RunId)
    requires r in s.sh.runs
  {
    var st := s.sh.runs[r];
    && Pending(s, r) && r in s.aux.registered && r in s.aux.reqs && r !in s.sh.finalizing
    && st.total == |s.aux.reqs[r].targets|
    && st.done == |Marked(s, r)|
    && (forall p :: p in Marked(s, r) ==> p < st.total)
    && st.pending == |Open(s, r)| && st.pending > 0
    && (!st.failed && !st.canceled ==>
          forall p :: 0 <= p < st.total && s.aux.reqs[r].targets[p].queue !in Open(s, r) ==>
                        Get(s.results, (r, p)) == [true] && p in Marked(s, r))
  }

  ghost predicate RunsInv(s: State) {
    forall r :: r in s.sh.runs ==> TrackedInv(s, r)
  }

  ghost predicate BufferInv(s: State) {
    forall q, i :: q in s.sh.chans && 0 <= i < |s.sh.chans[q]| ==>
                     FreshFrom(s, s.sh.chans[q][i], 0) && MarkedTo(s, s.sh.chans[q][i], 0)
  }

  ghost predicate TablesInv(s: State) {
    && (forall r :: r in s.aux.reqs ==> r in s.rows && |s.aux.reqs[r].targets| > 0)
    && (forall r :: r in s.aux.registered ==> r in s.aux.reqs)
    && (forall r :: r in s.sh.finalizing ==> r in s.rows)
    && (forall r :: r in s.log ==> r in s.rows)
    && (forall r :: r in s.aux.marked ==> r in s.aux.registered)
    && (forall o :: o in s.results ==> |s.results[o]| <= 1 && o.0 in s.aux.registered)
    && (forall r :: r in s.aux.reqs && s.rows[r].status.Done? ==> AllOk(s, r))
    && s.sh.closed == (if s.sh.closing then s.sh.chans.Keys else {})
    && OneActivePerSchedule(s.rows)
  }

  ghost predicate LogOk(s: State, r: RunId) {
    var evs := Get(s.log, r);
    && (forall i :: 0 <= i < |evs| ==> evs[i].done <= evs[i].total)
    && (r in s.aux.registered ==> |evs| > 0 && evs[0].status.Queued?)
    && (forall i :: 0 <= i < |evs| && evs[i].status.Running? ==> r in s.aux.registered)
    && (Calm(s, r) ==>
          && (HasTerminal(evs) ==> r in s.rows && s.rows[r].status.Terminal())
          && (forall i :: 0 <= i < |evs| && evs[i].status.Terminal() ==> i == |evs| - 1))
  }

  ghost predicate LogInv(s: State) {
    forall r :: LogOk(s, r)
  }

  ghost predicate SomeoneAnswers(s: State, r: RunId) {
    exists a :: a in s.pcs && (Creating(s.pcs[a], r) || Writing(s.pcs[a], r))
  }

  ghost predicate StrandInv(s: State) {
    forall r :: Pending(s, r) ==> r in s.sh.runs || r in s.aux.lost || SomeoneAnswers(s, r)
  }

  function RunsOf(jobs: seq<Job>): (rs: seq<RunId>)
    ensures |rs| == |jobs| && forall i :: 0 <= i < |jobs| ==> rs[i] == jobs[i].run
  {
    seq(|jobs|, i requires 0 <= i < |jobs| => jobs[i].run)
  }

  /** Commit order is kept: what was sent is what was taken, then what is buffered. */
  ghost predicate OrderInv(s: State) {
    forall q :: Get(s.aux.sent, q) == Get(s.aux.taken, q) + RunsOf(Get(s.sh.chans, q))
  }

  ghost predicate Inv(s: State) {
    && LockInv(s) && ClaimsUnique(s)
    && FlightInv(s) && BufferInv(s) && RunsInv(s)
    && PcsInv(s) && TablesInv(s) && LogInv(s) && StrandInv(s) && OrderInv(s)
  }
}
