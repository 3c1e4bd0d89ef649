/**
 The runner as a labelled transition system.

 `Shared` is what `Runner.mu` guards; each `...Section` function is one critical
 section of that mutex. A `Step` is one critical section, one store access or one
 publish by one agent, so every interleaving of the source is a sequence of steps.
 What the engine returns, whether a store access fails and whether a panic strikes
 are choices carried by the label. A failed store write has no effect.
 */
module RunnerModel {
  import opened Options
  import opened RunnerTypes

  // ---------------------------------------------------------------- state

  datatype Shared = Shared(
    runs: map<RunId, RunState>,
    finalizing: set<RunId>,
    chans: map<QueueId, seq<Job>>,
    closed: set<QueueId>,
    ctxDone: set<RunId>,  // runs whose context has been canceled
    closing: bool,
    started: bool,
    cap: nat,
    workers: seq<QueueId>,  // the goroutines spawned so far, each with the queue it serves
    hooked: bool)         // a statusHook is set, as only tests do

  /** A queue worker, or a goroutine calling Enqueue, Cancel or Shutdown. */
  datatype Agent = Worker(queue: QueueId) | Caller(id: int)

  datatype EnqStage =
    | Wait                       // before enqueueMu
    | Check                      // holds enqueueMu, about to look for a queued run of the schedule
    | Create                     // holds enqueueMu, none found
    | Begin(run: RunId)          // holds enqueueMu, row created
    | Held(run: RunId)           // holds enqueueMu, run marked finalizing
    | Register(run: RunId)       // about to enter the r.mu section

  datatype OrphanStage = OWait | OCheck | ORead

  datatype WorkStage =
    | Got
    | SetRunning(total: nat, attempt: nat)
    | ReadDone(total: nat)
    | Publishing(next: nat, queueFailed: bool, total: nat, done: nat, panicked: bool)
    | Loop(i: nat, queueFailed: bool)
    | Engine(i: nat, queueFailed: bool)
    | RowLanded(i: nat, queueFailed: bool)
    | Mark(i: nat, queueFailed: bool, panicked: bool)
    | PanicStore(i: nat)
    | Finish(failed: bool, canceled: bool)

  /** Who holds the right to write a run's terminal status. */
  datatype Kind = ByRefusal | ByQueueFull | ByCancel | ByLastQueue | ByShutdown | ByOrphan

  datatype Claim = Claim(kind: Kind, run: RunId, status: Status, total: nat, done: nat, rest: seq<RunId>)

  datatype FinStage = Write(attempt: nat) | Publish | End(publishAfter: bool)

  datatype ShutStage =
    | Grace
    | MarkAll(gaveUp: bool)
    | Drain(stuck: seq<RunId>)
    | Force(stuck: seq<RunId>)

  /** Where an agent is; an agent with no entry is idle. */
  datatype Pc =
    | Enq(req: Request, es: EnqStage)
    | Orphan(run: RunId, os: OrphanStage)
    | Work(job: Job, ws: WorkStage)
    | Fin(claim: Claim, fs: FinStage)
    | Shut(ss: ShutStage)
    | Exited

  type Occurrence = (RunId, nat)

  /** History that the code does not store, recorded to state properties. */
  datatype Aux = Aux(
    reqs: map<RunId, Request>,             // the request each run row was created for
    registered: set<RunId>,                // runs that reached the run map
    marked: map<RunId, set<nat>>,          // occurrences counted by markTargetDone
    lost: set<RunId>,                      // runs whose finisher gave up before a successful write
    fullLost: set<RunId>,                  // of those, published all the same (queue full)
    gaveUp: bool,                          // Shutdown's context expired
    forced: set<RunId>,                    // runs Shutdown claimed from their workers
    sent: map<QueueId, seq<RunId>>,        // jobs committed to each queue, in order
    taken: map<QueueId, seq<RunId>>)       // jobs each worker has dequeued, in order

  datatype State = State(
    sh: Shared,
    mu: Option<Agent>,                     // holder of enqueueMu
    rows: map<RunId, Row>,
    results: map<Occurrence, seq<bool>>,   // result rows of an occurrence, true for "ok"
    pcs: map<Agent, Pc>,
    log: map<RunId, seq<Event>>,           // run events published, per run
    aux: Aux)

  function Goto(s: State, a: Agent, pc: Pc): State {
    s.(pcs := s.pcs[a := pc])
  }

  function Leave(s: State, a: Agent): State {
    s.(pcs := s.pcs - {a})
  }

  function Get<K, V>(m: map<K, seq<V>>, k: K): seq<V> {
    if k in m then m[k] else []
  }

  function Marked(s: State, r: RunId): set<nat> {
    if r in s.aux.marked then s.aux.marked[r] else {}
  }

  function Emit(s: State, r: RunId, e: Event): State {
    s.(log := s.log[r := Get(s.log, r) + [e]])
  }

  function AddResult(s: State, o: Occurrence, ok: bool): State {
    s.(results := s.results[o := Get(s.results, o) + [ok]])
  }

  // ---------------------------------------------------------------- store

  datatype WriteOutcome = Written | Refused | Missing

  /** SetRunStatus: a terminal row refuses every transition. */
  function SetRunStatus(rows: map<RunId, Row>, r: RunId, status: Status): (map<RunId, Row>, WriteOutcome) {
    if r !in rows then (rows, Missing)
    else if rows[r].status.Terminal() then (rows, Refused)
    else (rows[r := rows[r].(status := status)], Written)
  }

  // ---------------------------------------------------------------- sections of r.mu

  function WithQueues(chans: map<QueueId, seq<Job>>, order: seq<QueueId>): (c: map<QueueId, seq<Job>>)
    ensures forall q :: q in c <==> q in chans || q in order
    ensures forall q :: q in c ==> c[q] == Get(chans, q)
  {
    map q | q in chans.Keys + (set x | x in order) :: Get(chans, q)
  }

  /** The queues of `order` that have no channel yet: queueChan spawns a worker for each. */
  function NewQueues(chans: map<QueueId, seq<Job>>, order: seq<QueueId>): seq<QueueId> {
    if order == [] then []
    else
      var q, before := order[|order| - 1], order[..|order| - 1];
      NewQueues(chans, before) + if q in chans || q in before then [] else [q]
  }

  /** Sends jobs until one channel is full; the flag says that happened. */
  function SendAll(chans: map<QueueId, seq<Job>>, jobs: seq<Job>, cap: nat): (map<QueueId, seq<Job>>, bool)
    decreases |jobs|
  {
    if jobs == [] then (chans, false)
    else
      var q := jobs[0].queue;
      if |Get(chans, q)| < cap then SendAll(chans[q := Get(chans, q) + [jobs[0]]], jobs[1..], cap)
      else (chans, true)
  }

  /** The section of Enqueue when the runner is open; the flag is queueFull. */
  function RegisterSection(sh: Shared, r: RunId, ts: seq<Target>): (Shared, bool) {
    var order := QueueOrder(ts);
    var (chans, full) := SendAll(WithQueues(sh.chans, order), JobsOf(r, ts), sh.cap);
    var workers := sh.workers + NewQueues(sh.chans, order);
    if full then
      (sh.(chans := chans, workers := workers, runs := sh.runs - {r}, ctxDone := sh.ctxDone + {r}), true)
    else
      (sh.(chans := chans, workers := workers,
           runs := sh.runs[r := RunState(|order|, |ts|, 0, false, false, false)],
           finalizing := sh.finalizing - {r}), false)
  }

  /** Removes a tracked run and marks it finalizing: the claim every finisher makes. */
  function ClaimSection(sh: Shared, r: RunId): Shared {
    sh.(runs := sh.runs - {r}, finalizing := sh.finalizing + {r})
  }

  function CancelSection(sh: Shared, r: RunId): Shared
    requires r in sh.runs
  {
    var sh1 := sh.(ctxDone := sh.ctxDone + {r});
    if sh.runs[r].started then sh1.(runs := sh.runs[r := sh.runs[r].(canceled := true)])
    else ClaimSection(sh1, r)
  }

  predicate MustNotStart(sh: Shared, r: RunId)
    requires r in sh.runs
  {
    sh.runs[r].canceled || sh.closing || r in sh.ctxDone
  }

  function StartSection(sh: Shared, r: RunId): Shared
    requires r in sh.runs
  {
    sh.(runs := sh.runs[r := sh.runs[r].(started := true)])
  }

  function MarkSection(sh: Shared, r: RunId): Shared
    requires r in sh.runs
  {
    sh.(runs := sh.runs[r := sh.runs[r].(done := sh.runs[r].done + 1)])
  }

  function Outcome(st: RunState, failed: bool, canceled: bool): RunState {
    st.(failed := st.failed || failed, canceled := st.canceled || canceled, pending := st.pending - 1)
  }

  function FinalStatus(st: RunState): Status {
    if st.canceled then Canceled else if st.failed then Failed else Done
  }

  function FinishSection(sh: Shared, r: RunId, failed: bool, canceled: bool): Shared
    requires r in sh.runs
  {
    var st := Outcome(sh.runs[r], failed, canceled);
    if st.pending > 0 then sh.(runs := sh.runs[r := st])
    else ClaimSection(sh.(ctxDone := sh.ctxDone + {r}), r)
  }

  function CloseSection(sh: Shared): Shared {
    sh.(closing := true, closed := sh.chans.Keys)
  }

  function MarkAllSection(sh: Shared): Shared {
    sh.(runs := map r | r in sh.runs :: sh.runs[r].(canceled := true),
        ctxDone := sh.ctxDone + sh.runs.Keys)
  }

  // ---------------------------------------------------------------- Start

  ghost predicate StartRunner(s: State, s': State) {
    s' == s.(sh := s.sh.(started := true))
  }

  // ---------------------------------------------------------------- Enqueue

  ghost predicate EnqCall(s: State, s': State, a: Agent, req: Request) {
    && a.Caller? && a !in s.pcs && |req.targets| > 0
    && s' == Goto(s, a, Enq(req, Wait))
  }

  ghost predicate EnqLock(s: State, s': State, a: Agent) {
    && a in s.pcs && s.pcs[a].Enq? && s.pcs[a].es.Wait? && s.mu.None?
    && s' == Goto(s, a, Enq(s.pcs[a].req, Check)).(mu := Some(a))
  }

  ghost predicate ActiveForSchedule(rows: map<RunId, Row>, schedule: Option<int>) {
    schedule.Some? && exists r :: r in rows && rows[r].schedule == schedule && rows[r].Active()
  }

  ghost predicate EnqDedupe(s: State, s': State, a: Agent, fails: bool) {
    && a in s.pcs && s.pcs[a].Enq? && s.pcs[a].es.Check?
    && s' == if fails || ActiveForSchedule(s.rows, s.pcs[a].req.schedule)
             then Leave(s, a).(mu := None)
             else Goto(s, a, Enq(s.pcs[a].req, Create))
  }

  ghost predicate EnqCreate(s: State, s': State, a: Agent, fails: bool, r: RunId) {
    && a in s.pcs && s.pcs[a].Enq? && s.pcs[a].es.Create? && r !in s.rows
    && var req := s.pcs[a].req;
       s' == if fails then Leave(s, a).(mu := None)
             else Goto(s, a, Enq(req, Begin(r))).(
                    rows := s.rows[r := Row(Queued, req.schedule)],
                    aux := s.aux.(reqs := s.aux.reqs[r := req]))
  }

  ghost predicate EnqBegin(s: State, s': State, a: Agent) {
    && a in s.pcs && s.pcs[a].Enq? && s.pcs[a].es.Begin?
    && var r := s.pcs[a].es.run;
       s' == Goto(s, a, Enq(s.pcs[a].req, Held(r))).(sh := s.sh.(finalizing := s.sh.finalizing + {r}))
  }

  ghost predicate EnqUnlock(s: State, s': State, a: Agent) {
    && a in s.pcs && s.pcs[a].Enq? && s.pcs[a].es.Held?
    && s' == Goto(s, a, Enq(s.pcs[a].req, Register(s.pcs[a].es.run))).(mu := None)
  }

  /** The jobs of `r` that reached a channel, appended to the commit history. */
  ghost function Committed(sent: map<QueueId, seq<RunId>>, chans: map<QueueId, seq<Job>>, chans': map<QueueId, seq<Job>>, r: RunId)
    : map<QueueId, seq<RunId>>
  {
    sent + map q | q in chans' && chans'[q] != Get(chans, q) :: Get(sent, q) + [r]
  }

  ghost predicate EnqRegister(s: State, s': State, a: Agent) {
    && a in s.pcs && s.pcs[a].Enq? && s.pcs[a].es.Register?
    && var r, ts := s.pcs[a].es.run, s.pcs[a].req.targets;
       if s.sh.closing || !s.sh.started then
         s' == Goto(s, a, Fin(Claim(ByRefusal, r, Canceled, |ts|, 0, []), Write(0))).(
                 sh := s.sh.(ctxDone := s.sh.ctxDone + {r}))
       else
         var (sh', full) := RegisterSection(s.sh, r, ts);
         var s1 := Emit(s, r, Event(Queued, |ts|, 0)).(
                     sh := sh',
                     aux := s.aux.(registered := s.aux.registered + {r},
                                   sent := Committed(s.aux.sent, s.sh.chans, sh'.chans, r)));
         s' == if full then Goto(s1, a, Fin(Claim(ByQueueFull, r, Failed, |ts|, 0, []), Write(0)))
               else Leave(s1, a)
  }

  // ---------------------------------------------------------------- Cancel

  ghost predicate CancelCall(s: State, s': State, a: Agent, r: RunId) {
    && a.Caller? && a !in s.pcs
    && s' == if r !in s.sh.runs then Goto(s, a, Orphan(r, OWait))
             else
               var st := s.sh.runs[r];
               var s1 := s.(sh := CancelSection(s.sh, r));
               if st.started then s1
               else Goto(s1, a, Fin(Claim(ByCancel, r, Canceled, st.total, 0, []), Write(0)))
  }

  ghost predicate OrphanLock(s: State, s': State, a: Agent) {
    && a in s.pcs && s.pcs[a].Orphan? && s.pcs[a].os.OWait? && s.mu.None?
    && s' == Goto(s, a, Orphan(s.pcs[a].run, OCheck)).(mu := Some(a))
  }

  ghost predicate OrphanCheck(s: State, s': State, a: Agent) {
    && a in s.pcs && s.pcs[a].Orphan? && s.pcs[a].os.OCheck?
    && var r := s.pcs[a].run;
       s' == if r in s.sh.runs || r in s.sh.finalizing then Leave(s, a).(mu := None)
             else Goto(s, a, Orphan(r, ORead))
  }

  ghost predicate OrphanRead(s: State, s': State, a: Agent, fails: bool) {
    && a in s.pcs && s.pcs[a].Orphan? && s.pcs[a].os.ORead?
    && var r := s.pcs[a].run;
       s' == if fails || r !in s.rows || !s.rows[r].Active() then Leave(s, a).(mu := None)
             else Goto(s, a, Fin(Claim(ByOrphan, r, Canceled, 0, 0, []), Write(0)))
  }

  // ---------------------------------------------------------------- queue worker

  ghost predicate Dequeue(s: State, s': State, q: QueueId) {
    && q in s.sh.chans && Worker(q) !in s.pcs && s.sh.chans[q] != []
    && var job := s.sh.chans[q][0];
       s' == Goto(s, Worker(q), Work(job, Got)).(
               sh := s.sh.(chans := s.sh.chans[q := s.sh.chans[q][1..]]),
               aux := s.aux.(taken := s.aux.taken[q := Get(s.aux.taken, q) + [job.run]]))
  }

  ghost predicate WorkerExit(s: State, s': State, q: QueueId) {
    && q in s.sh.chans && Worker(q) !in s.pcs && s.sh.chans[q] == [] && q in s.sh.closed
    && s' == Goto(s, Worker(q), Exited)
  }

  predicate At(s: State, q: QueueId) {
    Worker(q) in s.pcs && s.pcs[Worker(q)].Work?
  }

  function JobAt(s: State, q: QueueId): Job
    requires At(s, q)
  {
    s.pcs[Worker(q)].job
  }

  function StageAt(s: State, q: QueueId): WorkStage
    requires At(s, q)
  {
    s.pcs[Worker(q)].ws
  }

  function Stage(s: State, q: QueueId, ws: WorkStage): State
    requires At(s, q)
  {
    Goto(s, Worker(q), Work(JobAt(s, q), ws))
  }

  ghost predicate ExecBegin(s: State, s': State, q: QueueId) {
    && At(s, q) && StageAt(s, q).Got?
    && var r := JobAt(s, q).run;
       s' == if r !in s.sh.runs then Leave(s, Worker(q))
             else if MustNotStart(s.sh, r) then Stage(s, q, Finish(false, true))
             else Stage(s, q, SetRunning(s.sh.runs[r].total, 0)).(sh := StartSection(s.sh, r))
  }

  ghost predicate WriteRunning(s: State, s': State, q: QueueId, fails: bool) {
    && At(s, q) && StageAt(s, q).SetRunning?
    && var r, total, k := JobAt(s, q).run, StageAt(s, q).total, StageAt(s, q).attempt;
       var (rows', outcome) := SetRunStatus(s.rows, r, Running);
       s' == if fails || outcome.Missing? then
               Stage(s, q, if k == 0 && s.sh.hooked then SetRunning(total, 1) else Loop(0, false))
             else if outcome.Refused? then Stage(s, q, Loop(0, false))
             else Stage(s, q, ReadDone(total)).(rows := rows')
  }

  ghost predicate ReadDoneCount(s: State, s': State, q: QueueId) {
    && At(s, q) && StageAt(s, q).ReadDone?
    && var r := JobAt(s, q).run;
       s' == Stage(s, q, Publishing(0, false, StageAt(s, q).total, if r in s.sh.runs then s.sh.runs[r].done else 0, false))
  }

  ghost predicate PublishRunning(s: State, s': State, q: QueueId) {
    && At(s, q) && StageAt(s, q).Publishing?
    && var ws := StageAt(s, q);
       var s1 := Emit(s, JobAt(s, q).run, Event(Running, ws.total, ws.done));
       s' == Stage(s1, q, if ws.panicked then Finish(true, false) else Loop(ws.next, ws.queueFailed))
  }

  ghost predicate LoopStep(s: State, s': State, q: QueueId) {
    && At(s, q) && StageAt(s, q).Loop?
    && var job, ws := JobAt(s, q), StageAt(s, q);
       var stop := job.run in s.sh.ctxDone;
       s' == Stage(s, q, if stop || ws.i >= |job.positions| then Finish(ws.queueFailed, stop)
                         else Engine(ws.i, ws.queueFailed))
  }

  datatype RowOutcome = OkRow | FailedRow | NoRow

  ghost predicate EngineStep(s: State, s': State, q: QueueId, out: RowOutcome) {
    && At(s, q) && StageAt(s, q).Engine? && StageAt(s, q).i < |JobAt(s, q).positions|
    && var job, i, qf := JobAt(s, q), StageAt(s, q).i, StageAt(s, q).queueFailed;
       var o := (job.run, job.positions[i]);
       s' == match out
             case OkRow => Stage(AddResult(s, o, true), q, RowLanded(i, qf))
             case FailedRow => Stage(AddResult(s, o, false), q, RowLanded(i, true))
             case NoRow => Stage(s, q, Mark(i, true, false))
  }

  ghost predicate AfterRow(s: State, s': State, q: QueueId) {
    && At(s, q) && StageAt(s, q).RowLanded?
    && s' == Stage(s, q, Mark(StageAt(s, q).i, StageAt(s, q).queueFailed, false))
  }

  ghost predicate MarkStep(s: State, s': State, q: QueueId) {
    && At(s, q) && StageAt(s, q).Mark? && StageAt(s, q).i < |JobAt(s, q).positions|
    && var job, ws := JobAt(s, q), StageAt(s, q);
       var r := job.run;
       s' == if r in s.sh.runs then
               var sh' := MarkSection(s.sh, r);
               Stage(s, q, Publishing(ws.i + 1, ws.queueFailed, sh'.runs[r].total, sh'.runs[r].done, ws.panicked)).(
                 sh := sh',
                 aux := s.aux.(marked := s.aux.marked[r := Marked(s, r) + {job.positions[ws.i]}]))
             else Stage(s, q, if ws.panicked then Finish(true, false) else Loop(ws.i + 1, ws.queueFailed))
  }

  /** A panic while the job is being executed, as the deferred recovery sees it. */
  ghost predicate Panic(s: State, s': State, q: QueueId) {
    && At(s, q)
    && var ws := StageAt(s, q);
       && !ws.Got? && !ws.Finish? && !ws.PanicStore?
       && !(ws.Publishing? && ws.panicked) && !(ws.Mark? && ws.panicked)
       && s' == Stage(s, q, if ws.Engine? then PanicStore(ws.i) else Finish(true, false))
  }

  ghost predicate PanicStoreStep(s: State, s': State, q: QueueId, fails: bool) {
    && At(s, q) && StageAt(s, q).PanicStore? && StageAt(s, q).i < |JobAt(s, q).positions|
    && var job, i := JobAt(s, q), StageAt(s, q).i;
       s' == Stage(if fails then s else AddResult(s, (job.run, job.positions[i]), false), q, Mark(i, true, true))
  }

  ghost predicate FinishStep(s: State, s': State, q: QueueId) {
    && At(s, q) && StageAt(s, q).Finish?
    && var r, ws := JobAt(s, q).run, StageAt(s, q);
       s' == if r !in s.sh.runs then Leave(s, Worker(q))
             else
               var st := Outcome(s.sh.runs[r], ws.failed, ws.canceled);
               var s1 := s.(sh := FinishSection(s.sh, r, ws.failed, ws.canceled));
               if st.pending > 0 then Leave(s1, Worker(q))
               else Goto(s1, Worker(q), Fin(Claim(ByLastQueue, r, FinalStatus(st), st.total, st.done, []), Write(0)))
  }

  // ---------------------------------------------------------------- finishing a claimed run

  predicate AtFin(s: State, a: Agent) {
    a in s.pcs && s.pcs[a].Fin?
  }

  /**
   How often a status write reaches the store. setRunStatus loops twice, but its error
   survives into the second round unless a hook replaces it, so only a hook makes it retry.
   */
  function Attempts(sh: Shared, k: Kind): nat {
    if k.ByShutdown? || !sh.hooked then 1 else 2
  }

  ghost predicate FinWrite(s: State, s': State, a: Agent, fails: bool) {
    && AtFin(s, a) && s.pcs[a].fs.Write?
    && var c, k := s.pcs[a].claim, s.pcs[a].fs.attempt;
       var (rows', outcome) := SetRunStatus(s.rows, c.run, c.status);
       var unwritten := if c.kind.ByQueueFull? then Publish else End(false);
       s' == if fails || outcome.Missing? then
               if k + 1 < Attempts(s.sh, c.kind) then Goto(s, a, Fin(c, Write(k + 1)))
               else Goto(s, a, Fin(c, unwritten)).(
                      aux := s.aux.(lost := s.aux.lost + {c.run},
                                    fullLost := s.aux.fullLost + (if c.kind.ByQueueFull? then {c.run} else {})))
             else if outcome.Refused? then Goto(s, a, Fin(c, unwritten))
             else Goto(s, a, Fin(c, if c.kind.ByShutdown? then End(true) else Publish)).(rows := rows')
  }

  ghost predicate FinPublish(s: State, s': State, a: Agent) {
    && AtFin(s, a) && s.pcs[a].fs.Publish?
    && var c := s.pcs[a].claim;
       s' == Goto(Emit(s, c.run, Event(c.status, c.total, c.done)), a,
                  if c.kind.ByShutdown? then Shut(Force(c.rest)) else Fin(c, End(false)))
  }

  ghost predicate FinEnd(s: State, s': State, a: Agent) {
    && AtFin(s, a) && s.pcs[a].fs.End?
    && var c, after := s.pcs[a].claim, s.pcs[a].fs.publishAfter;
       if c.kind.ByOrphan? then s' == Leave(s, a).(mu := None)
       else
         var s1 := s.(sh := s.sh.(finalizing := s.sh.finalizing - {c.run}));
         s' == if !c.kind.ByShutdown? then Leave(s1, a)
               else if after then Goto(s1, a, Fin(c, Publish))
               else Goto(s1, a, Shut(Force(c.rest)))
  }

  /**
   A panic while a claim is being finished, recovered by the worker or, for a caller, by the
   server: the run stays in finalizing; only cancelOrphan gives its lock back.
   */
  ghost predicate FinPanic(s: State, s': State, a: Agent) {
    && AtFin(s, a) && !s.pcs[a].claim.kind.ByShutdown?
    && var c, fs := s.pcs[a].claim, s.pcs[a].fs;
       s' == Leave(s, a).(mu := if c.kind.ByOrphan? then None else s.mu,
                          aux := if fs.Write? then s.aux.(lost := s.aux.lost + {c.run}) else s.aux)
  }

  // ---------------------------------------------------------------- Shutdown

  predicate AtShut(s: State, a: Agent) {
    a in s.pcs && s.pcs[a].Shut?
  }

  /** What wg.Wait waits for. */
  ghost predicate AllExited(s: State) {
    forall q :: q in s.sh.chans ==> Worker(q) in s.pcs && s.pcs[Worker(q)].Exited?
  }

  ghost predicate ShutCall(s: State, s': State, a: Agent) {
    && a.Caller? && a !in s.pcs
    && s' == if s.sh.closing then s else Goto(s, a, Shut(Grace)).(sh := CloseSection(s.sh))
  }

  datatype Wake = AllDone | GraceOver | CtxDone

  ghost predicate ShutWait(s: State, s': State, a: Agent, w: Wake) {
    && AtShut(s, a) && s.pcs[a].ss.Grace?
    && (w.AllDone? ==> AllExited(s))
    && s' == match w
             case AllDone => Leave(s, a)
             case GraceOver => Goto(s, a, Shut(MarkAll(false)))
             case CtxDone => Goto(s, a, Shut(MarkAll(true))).(aux := s.aux.(gaveUp := true))
  }

  ghost predicate ShutMark(s: State, s': State, a: Agent, stuck: seq<RunId>) {
    && AtShut(s, a) && s.pcs[a].ss.MarkAll?
    && Distinct(stuck) && (forall r :: r in stuck <==> r in s.sh.runs)
    && s' == Goto(s, a, Shut(if s.pcs[a].ss.gaveUp then Force(stuck) else Drain(stuck))).(
               sh := MarkAllSection(s.sh))
  }

  ghost predicate ShutDrain(s: State, s': State, a: Agent, w: Wake) {
    && AtShut(s, a) && s.pcs[a].ss.Drain? && !w.GraceOver?
    && (w.AllDone? ==> AllExited(s))
    && var s1 := Goto(s, a, Shut(Force(s.pcs[a].ss.stuck)));
       s' == if w.AllDone? then s1 else s1.(aux := s.aux.(gaveUp := true))
  }

  ghost predicate ShutClaim(s: State, s': State, a: Agent) {
    && AtShut(s, a) && s.pcs[a].ss.Force?
    && var stuck := s.pcs[a].ss.stuck;
       s' == if stuck == [] then Leave(s, a)
             else if stuck[0] !in s.sh.runs then Goto(s, a, Shut(Force(stuck[1..])))
             else
               var r, st := stuck[0], s.sh.runs[stuck[0]];
               Goto(s, a, Fin(Claim(ByShutdown, r, Canceled, st.total, st.done, stuck[1..]), Write(0))).(
                 sh := ClaimSection(s.sh, r), aux := s.aux.(forced := s.aux.forced + {r}))
  }

  // ---------------------------------------------------------------- the transition system

  datatype Label =
    | LStart
    | LEnqCall(a: Agent, req: Request) | LEnqLock(a: Agent) | LEnqDedupe(a: Agent, fails: bool)
    | LEnqCreate(a: Agent, fails: bool, r: RunId) | LEnqBegin(a: Agent) | LEnqUnlock(a: Agent)
    | LEnqRegister(a: Agent)
    | LCancel(a: Agent, r: RunId) | LOrphanLock(a: Agent) | LOrphanCheck(a: Agent)
    | LOrphanRead(a: Agent, fails: bool)
    | LDequeue(q: QueueId) | LWorkerExit(q: QueueId) | LExecBegin(q: QueueId)
    | LWriteRunning(q: QueueId, fails: bool) | LReadDone(q: QueueId) | LPublishRunning(q: QueueId)
    | LLoop(q: QueueId) | LEngine(q: QueueId, out: RowOutcome) | LAfterRow(q: QueueId)
    | LMark(q: QueueId) | LPanic(q: QueueId) | LPanicStore(q: QueueId, fails: bool) | LFinish(q: QueueId)
    | LFinWrite(a: Agent, fails: bool) | LFinPublish(a: Agent) | LFinEnd(a: Agent) | LFinPanic(a: Agent)
    | LShutCall(a: Agent) | LShutWait(a: Agent, w: Wake) | LShutMark(a: Agent, stuck: seq<RunId>)
    | LShutDrain(a: Agent, w: Wake) | LShutClaim(a: Agent)

  ghost predicate Step(s: State, l: Label, s': State) {
    match l
    case LStart => StartRunner(s, s')
    case LEnqCall(a, req) => EnqCall(s, s', a, req)
    case LEnqLock(a) => EnqLock(s, s', a)
    case LEnqDedupe(a, fails) => EnqDedupe(s, s', a, fails)
    case LEnqCreate(a, fails, r) => EnqCreate(s, s', a, fails, r)
    case LEnqBegin(a) => EnqBegin(s, s', a)
    case LEnqUnlock(a) => EnqUnlock(s, s', a)
    case LEnqRegister(a) => EnqRegister(s, s', a)
    case LCancel(a, r) => CancelCall(s, s', a, r)
    case LOrphanLock(a) => OrphanLock(s, s', a)
    case LOrphanCheck(a) => OrphanCheck(s, s', a)
    case LOrphanRead(a, fails) => OrphanRead(s, s', a, fails)
    case LDequeue(q) => Dequeue(s, s', q)
    case LWorkerExit(q) => WorkerExit(s, s', q)
    case LExecBegin(q) => ExecBegin(s, s', q)
    case LWriteRunning(q, fails) => WriteRunning(s, s', q, fails)
    case LReadDone(q) => ReadDoneCount(s, s', q)
    case LPublishRunning(q) => PublishRunning(s, s', q)
    case LLoop(q) => LoopStep(s, s', q)
    case LEngine(q, out) => EngineStep(s, s', q, out)
    case LAfterRow(q) => AfterRow(s, s', q)
    case LMark(q) => MarkStep(s, s', q)
    case LPanic(q) => Panic(s, s', q)
    case LPanicStore(q, fails) => PanicStoreStep(s, s', q, fails)
    case LFinish(q) => FinishStep(s, s', q)
    case LFinWrite(a, fails) => FinWrite(s, s', a, fails)
    case LFinPublish(a) => FinPublish(s, s', a)
    case LFinEnd(a) => FinEnd(s, s', a)
    case LFinPanic(a) => FinPanic(s, s', a)
    case LShutCall(a) => ShutCall(s, s', a)
    case LShutWait(a, w) => ShutWait(s, s', a, w)
    case LShutMark(a, stuck) => ShutMark(s, s', a, stuck)
    case LShutDrain(a, w) => ShutDrain(s, s', a, w)
    case LShutClaim(a) => ShutClaim(s, s', a)
  }

  /**
   A fresh runner over an existing table. Rows left queued or running by a dead
   process are allowed, at most one per schedule; `Reap` clears them.
   */
  ghost predicate Init(s: State) {
    && s.sh == Shared(map[], {}, map[], {}, {}, false, false, s.sh.cap, [], s.sh.hooked) && s.sh.cap > 0
    && s.mu.None? && s.results == map[] && s.pcs == map[] && s.log == map[]
    && OneActivePerSchedule(s.rows)
    && s.aux == Aux(map[], {}, map[], s.aux.lost, {}, false, {}, map[], map[])
    && (forall r :: r in s.rows && !s.rows[r].status.Terminal() ==> r in s.aux.lost)
  }

  ghost predicate OneActivePerSchedule(rows: map<RunId, Row>) {
    forall r, r' ::
      && r in rows && r' in rows && rows[r].Active() && rows[r'].Active()
      && rows[r].schedule.Some? && rows[r].schedule == rows[r'].schedule
      ==> r == r'
  }

  /** A finite execution: states joined by labelled steps. */
  ghost predicate IsTrace(ss: seq<State>, ls: seq<Label>) {
    && |ss| == |ls| + 1
    && Init(ss[0])
    && forall i :: 0 <= i < |ls| ==> Step(ss[i], ls[i], ss[i + 1])
  }
}
