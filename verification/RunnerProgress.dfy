/**
 The runner gets its work done: once no more calls come in it can take only so many steps,
 and until all is quiet it always has one to take.
 */
module RunnerProgress {
  import opened Options
  import opened RunnerTypes
  import opened RunnerModel
  import opened RunnerInvariant
  import opened RunnerProof
  import opened RunnerEnqueue
  import opened RunnerTheorems
  import opened RunnerProperties
  import opened RunnerGoroutines

  /** Every step but a new call of Start, Enqueue, Cancel or Shutdown. */
  predicate Works(l: Label) {
    !l.LStart? && !l.LEnqCall? && !l.LCancel? && !l.LShutCall?
  }

  // ---------------------------------------------------------------- sums over a map

  ghost function Sum<K(!new)>(m: map<K, nat>): nat
    decreases |m|
  {
    if exists k :: k in m then
      var k :| k in m;
      m[k] + Sum(m - {k})
    else 0
  }

  lemma {:induction false} SumPick<K(!new)>(m: map<K, nat>, k: K)
    requires k in m
    ensures Sum(m) == m[k] + Sum(m - {k})
    decreases |m|
  {
    assert exists x :: x in m;
    var x :| x in m && Sum(m) == m[x] + Sum(m - {x});
    if x != k {
      SumPick(m - {x}, k);
      SumPick(m - {k}, x);
      assert m - {x} - {k} == m - {k} - {x};
    }
  }

  lemma SumSet<K(!new)>(m: map<K, nat>, k: K, v: nat)
    ensures Sum(m[k := v]) == v + Sum(m - {k})
    ensures k in m ==> Sum(m[k := v]) + m[k] == Sum(m) + v
  {
    SumPick(m[k := v], k);
    assert m[k := v] - {k} == m - {k};
    if k in m {
      SumPick(m, k);
    }
  }

  lemma {:induction false} SumBelow<K(!new)>(m: map<K, nat>, m': map<K, nat>)
    requires forall k :: k in m' ==> k in m && m'[k] <= m[k]
    ensures Sum(m') <= Sum(m)
    decreases |m'|
  {
    if k :| k in m' {
      SumPick(m', k);
      SumPick(m, k);
      SumBelow(m - {k}, m' - {k});
    }
  }

  // ---------------------------------------------------------------- what is left to do

  function More(n: int): nat {
    if n > 0 then n else 0
  }

  /** Steps of a worker from the top of its loop with `i` occurrences behind it. */
  function LoopCost(job: Job, i: nat): nat {
    7 + 5 * More(|job.positions| - i)
  }

  function WorkCost(job: Job, ws: WorkStage): int {
    match ws
    case Got => LoopCost(job, 0) + 5
    case SetRunning(_, k) => LoopCost(job, 0) + if k == 0 then 4 else 3
    case ReadDone(_) => LoopCost(job, 0) + 2
    case Publishing(next, _, _, _, panicked) => if panicked then 7 else LoopCost(job, next) + 1
    case Loop(i, _) => LoopCost(job, i)
    case Engine(i, _) => LoopCost(job, i) - 1
    case RowLanded(i, _) => LoopCost(job, i) - 2
    case Mark(i, _, panicked) => if panicked then 8 else LoopCost(job, i) - 3
    case PanicStore(_) => 9
    case Finish(_, _) => 6
  }

  function ForceCost(stuck: seq<RunId>): nat {
    6 * |stuck| + 1
  }

  function FinCost(c: Claim, fs: FinStage): nat {
    (match fs
     case Write(k) => if k == 0 then 5 else 4
     case Publish => 2
     case End(after) => if c.kind.ByShutdown? && after then 3 else 1)
    + if c.kind.ByShutdown? then ForceCost(c.rest) else 0
  }

  function JobCost(positions: seq<nat>): nat {
    14 + 5 * |positions|
  }

  /** What a run may cost at one queue: its job, and a worker's exit if the queue is new. */
  function QueueShare(ts: seq<Target>, q: QueueId): nat {
    JobCost(Positions(ts, q)) + 1
  }

  function OrderCost(ts: seq<Target>, order: seq<QueueId>): nat {
    if order == [] then 0
    else OrderCost(ts, order[..|order| - 1]) + QueueShare(ts, order[|order| - 1])
  }

  function EnqCost(req: Request, es: EnqStage): nat {
    OrderCost(req.targets, QueueOrder(req.targets))
    + (match es case Wait => 11 case Check => 10 case Create => 9 case Begin(_) => 8 case Held(_) => 7 case Register(_) => 6)
  }

  /** `n` bounds the number of tracked runs once the runner is closing. */
  function PcCost(pc: Pc, n: nat): int {
    match pc
    case Enq(req, es) => EnqCost(req, es)
    case Orphan(_, os) => (match os case OWait => 8 case OCheck => 7 case ORead => 6)
    case Work(job, ws) => WorkCost(job, ws)
    case Fin(c, fs) => FinCost(c, fs)
    case Shut(ss) =>
      (match ss
       case Grace => 6 * n + 4
       case MarkAll(_) => 6 * n + 3
       case Drain(stuck) => ForceCost(stuck) + 1
       case Force(stuck) => ForceCost(stuck))
    case Exited => -1
  }

  /** An idle worker has its exit before it; an idle caller nothing. */
  function Cost(a: Agent, pc: Option<Pc>, n: nat): nat {
    var c := if pc.Some? then PcCost(pc.value, n) else 0;
    More(if a.Worker? then c + 1 else c)
  }

  function BufferCost(jobs: seq<Job>): nat {
    if jobs == [] then 0 else JobCost(jobs[0].positions) + BufferCost(jobs[1..])
  }

  ghost function QueueCosts(s: State, n: nat): map<QueueId, nat> {
    map q | q in s.sh.chans :: BufferCost(s.sh.chans[q]) + Cost(Worker(q), PcOf(s, Worker(q)), n)
  }

  ghost function CallerCosts(s: State, n: nat): map<Agent, nat> {
    map a | a in s.pcs && a.Caller? :: Cost(a, PcOf(s, a), n)
  }

  /** The steps left, if no more calls come in. */
  ghost function Left(s: State, n: nat): nat {
    Sum(QueueCosts(s, n)) + Sum(CallerCosts(s, n))
  }

  // ---------------------------------------------------------------- one agent's step

  /** Only `a` moves, nearer to its end, and no run is added once the runner is closing. */
  ghost predicate Lowers(s: State, s': State, a: Agent, n: nat) {
    && (forall b :: b != a ==> PcOf(s', b) == PcOf(s, b))
    && s'.sh.chans == s.sh.chans && Settled(s, s')
    && Cost(a, PcOf(s', a), n) < Cost(a, PcOf(s, a), n)
  }

  ghost predicate Settled(s: State, s': State) {
    && s'.sh.closing == s.sh.closing
    && (s.sh.closing ==> s'.sh.runs.Keys <= s.sh.runs.Keys)
  }

  lemma LockLowers(s: State, s': State, a: Agent, n: nat)
    requires (EnqLock(s, s', a) || OrphanLock(s, s', a)) && a.Caller?
    ensures Lowers(s, s', a, n)
  {
    hide OrderCost;
  }

  lemma DedupeLowers(s: State, s': State, a: Agent, fails: bool, n: nat)
    requires EnqDedupe(s, s', a, fails) && a.Caller?
    ensures Lowers(s, s', a, n)
  {
    hide OrderCost;
  }

  lemma CreateLowers(s: State, s': State, a: Agent, fails: bool, r: RunId, n: nat)
    requires EnqCreate(s, s', a, fails, r) && a.Caller?
    ensures Lowers(s, s', a, n)
  {
    hide OrderCost;
  }

  lemma TransitLowers(s: State, s': State, a: Agent, n: nat)
    requires (EnqBegin(s, s', a) || EnqUnlock(s, s', a)) && a.Caller?
    ensures Lowers(s, s', a, n)
  {
    hide OrderCost;
  }

  lemma OrphanCheckLowers(s: State, s': State, a: Agent, n: nat)
    requires OrphanCheck(s, s', a) && a.Caller?
    ensures Lowers(s, s', a, n)
  {
    hide OrderCost;
  }

  lemma OrphanReadLowers(s: State, s': State, a: Agent, fails: bool, n: nat)
    requires OrphanRead(s, s', a, fails) && a.Caller?
    ensures Lowers(s, s', a, n)
  {
    hide OrderCost;
  }

  lemma CallerOnly(s: State, a: Agent)
    requires Inv(s) && a in s.pcs
    ensures s.pcs[a].Enq? || s.pcs[a].Orphan? || s.pcs[a].Shut? ==> a.Caller?
  {
    assert PcInv(s, a, s.pcs[a]);
  }

  lemma ExitLowers(s: State, s': State, q: QueueId, n: nat)
    requires WorkerExit(s, s', q)
    ensures Lowers(s, s', Worker(q), n)
  {
  }

  lemma ReadLowers(s: State, s': State, q: QueueId, n: nat)
    requires ReadDoneCount(s, s', q)
    ensures Lowers(s, s', Worker(q), n)
  {
  }

  lemma PublishLowers(s: State, s': State, q: QueueId, n: nat)
    requires PublishRunning(s, s', q)
    ensures Lowers(s, s', Worker(q), n)
  {
  }

  lemma BeginLowers(s: State, s': State, q: QueueId, n: nat)
    requires ExecBegin(s, s', q)
    ensures Lowers(s, s', Worker(q), n)
  {
  }

  lemma RunningLowers(s: State, s': State, q: QueueId, fails: bool, n: nat)
    requires WriteRunning(s, s', q, fails)
    ensures Lowers(s, s', Worker(q), n)
  {
  }

  /** A worker is never past the end of its job. */
  ghost predicate WithinJob(s: State, q: QueueId) {
    At(s, q) ==>
      && (StageAt(s, q).RowLanded? || StageAt(s, q).Mark? || StageAt(s, q).Engine? || StageAt(s, q).PanicStore? ==> StageAt(s, q).i < |JobAt(s, q).positions|)
      && (StageAt(s, q).Loop? ==> StageAt(s, q).i <= |JobAt(s, q).positions|)
  }

  lemma StaysWithinJob(s: State, q: QueueId)
    requires Inv(s)
    ensures WithinJob(s, q)
  {
    assert At(s, q) ==> PcInv(s, Worker(q), s.pcs[Worker(q)]);
  }

  lemma LoopLowers(s: State, s': State, q: QueueId, n: nat)
    requires WithinJob(s, q) && LoopStep(s, s', q)
    ensures Lowers(s, s', Worker(q), n)
  {
  }

  lemma EngineLowers(s: State, s': State, q: QueueId, out: RowOutcome, n: nat)
    requires WithinJob(s, q) && EngineStep(s, s', q, out)
    ensures Lowers(s, s', Worker(q), n)
  {
  }

  lemma RowLowers(s: State, s': State, q: QueueId, n: nat)
    requires WithinJob(s, q) && AfterRow(s, s', q)
    ensures Lowers(s, s', Worker(q), n)
  {
  }

  lemma PanicLowers(s: State, s': State, q: QueueId, n: nat)
    requires WithinJob(s, q) && Panic(s, s', q)
    ensures Lowers(s, s', Worker(q), n)
  {
  }

  lemma PanicStoreLowers(s: State, s': State, q: QueueId, fails: bool, n: nat)
    requires PanicStoreStep(s, s', q, fails)
    ensures Lowers(s, s', Worker(q), n)
  {
  }

  lemma MarkFrame(s: State, s': State, q: QueueId)
    requires MarkStep(s, s', q)
    ensures (forall b :: b != Worker(q) ==> PcOf(s', b) == PcOf(s, b)) && s'.sh.chans == s.sh.chans && Settled(s, s')
    ensures At(s, q) && StageAt(s, q).Mark? && At(s', q) && JobAt(s', q) == JobAt(s, q)
    ensures var ws, ws' := StageAt(s, q), StageAt(s', q);
            || (ws'.Publishing? && ws'.next == ws.i + 1 && ws'.panicked == ws.panicked)
            || (ws'.Finish? && ws.panicked) || (ws'.Loop? && ws'.i == ws.i + 1 && !ws.panicked)
  {
  }

  lemma MarkLowers(s: State, s': State, q: QueueId, n: nat)
    requires WithinJob(s, q) && MarkStep(s, s', q)
    ensures Lowers(s, s', Worker(q), n)
  {
    MarkFrame(s, s', q);
    hide MarkStep, Settled;
  }

  lemma JobFrame(s: State, s': State, q: QueueId)
    requires FinishStep(s, s', q)
    ensures (forall b :: b != Worker(q) ==> PcOf(s', b) == PcOf(s, b)) && s'.sh.chans == s.sh.chans && Settled(s, s')
    ensures At(s, q) && StageAt(s, q).Finish?
    ensures var pc := PcOf(s', Worker(q)); pc == None || (pc.value.Fin? && pc.value.claim.kind.ByLastQueue? && pc.value.fs == Write(0))
  {
  }

  lemma JobLowers(s: State, s': State, q: QueueId, n: nat)
    requires FinishStep(s, s', q)
    ensures Lowers(s, s', Worker(q), n)
  {
    JobFrame(s, s', q);
    hide FinishStep, Settled;
  }

  lemma WriteFrame(s: State, s': State, a: Agent, fails: bool)
    requires FinWrite(s, s', a, fails)
    ensures s'.pcs == s.pcs[a := s'.pcs[a]] && s'.sh == s.sh && AtFin(s, a) && s.pcs[a].fs.Write? && AtFin(s', a) && s'.pcs[a].claim == s.pcs[a].claim
    ensures var fs, c := s'.pcs[a].fs, s.pcs[a].claim;
            || fs == End(c.kind.ByShutdown? && fs.publishAfter) || (fs.Publish? && !c.kind.ByShutdown?)
            || (fs == Publish && c.kind.ByQueueFull?) || (fs == Write(1) && s.pcs[a].fs == Write(0))
  {
  }

  lemma WriteLowers(s: State, s': State, a: Agent, fails: bool, n: nat)
    requires FinWrite(s, s', a, fails)
    ensures Lowers(s, s', a, n)
  {
    WriteFrame(s, s', a, fails);
    hide FinWrite, Settled;
  }

  lemma AnnounceLowers(s: State, s': State, a: Agent, n: nat)
    requires FinPublish(s, s', a)
    ensures Lowers(s, s', a, n)
  {
  }

  lemma EndLowers(s: State, s': State, a: Agent, n: nat)
    requires FinEnd(s, s', a)
    ensures Lowers(s, s', a, n)
  {
  }

  lemma FinPanicLowers(s: State, s': State, a: Agent, n: nat)
    requires FinPanic(s, s', a)
    ensures Lowers(s, s', a, n)
  {
  }

  lemma {:induction false} ListSize(stuck: seq<RunId>, keys: set<RunId>)
    requires Distinct(stuck) && forall r :: r in stuck <==> r in keys
    ensures |stuck| == |keys|
    decreases |stuck|
  {
    if stuck == [] {
      NoKeys(keys);
    } else {
      var rest := stuck[1..];
      assert stuck == [stuck[0]] + rest;
      ListSize(rest, keys - {stuck[0]});
    }
  }

  lemma NoKeys(keys: set<RunId>)
    ensures (forall r :: r !in keys) ==> keys == {}
  {
    if forall r :: r !in keys {
      assert keys == {};
    }
  }

  lemma WaitLowers(s: State, s': State, a: Agent, w: Wake, n: nat)
    requires ShutWait(s, s', a, w) && a.Caller?
    ensures Lowers(s, s', a, n)
  {
    hide AllExited;
  }

  lemma DrainLowers(s: State, s': State, a: Agent, w: Wake, n: nat)
    requires ShutDrain(s, s', a, w) && a.Caller?
    ensures Lowers(s, s', a, n)
  {
    hide AllExited;
  }

  lemma ForceLowers(s: State, s': State, a: Agent, n: nat)
    requires ShutClaim(s, s', a) && a.Caller?
    ensures Lowers(s, s', a, n)
  {
  }

  lemma ListLowers(s: State, s': State, a: Agent, stuck: seq<RunId>, n: nat)
    requires Inv(s) && ShutMark(s, s', a, stuck) && |s.sh.runs| <= n
    ensures Lowers(s, s', a, n)
  {
    hide Inv;
    CallerOnly(s, a);
    ListSize(stuck, s.sh.runs.Keys);
    assert |s.sh.runs.Keys| == |s.sh.runs|;
  }

  // ---------------------------------------------------------------- the sum goes down

  lemma SumStrict<K(!new)>(m: map<K, nat>, m': map<K, nat>, k: K)
    requires forall x :: x in m' ==> x in m && m'[x] <= m[x]
    requires k in m && (if k in m' then m'[k] < m[k] else 0 < m[k])
    ensures Sum(m') < Sum(m)
  {
    SumPick(m, k);
    SumBelow(m - {k}, m' - {k});
    if k in m' {
      SumPick(m', k);
    } else {
      assert m' - {k} == m';
    }
  }

  lemma SumLoses<K(!new)>(m: map<K, nat>, m': map<K, nat>, k: K, d: nat)
    requires forall x :: x in m' ==> x in m && (x != k ==> m'[x] <= m[x])
    requires k in m && (if k in m' then m'[k] else 0) + d < m[k]
    ensures Sum(m') + d < Sum(m)
  {
    SumPick(m, k);
    SumBelow(m - {k}, m' - {k});
    if k in m' {
      SumPick(m', k);
    } else {
      assert m' - {k} == m';
    }
  }

  lemma WorkerLowersSum(s: State, s': State, q: QueueId, n: nat)
    requires Lowers(s, s', Worker(q), n) && q in s.sh.chans
    ensures Left(s', n) < Left(s, n)
  {
    hide Cost, Settled;
    SumStrict(QueueCosts(s, n), QueueCosts(s', n), q);
    SameCallers(s, s', n);
  }

  /** Where no caller moved, what callers have left is the same. */
  lemma SameCallers(s: State, s': State, n: nat)
    requires forall b: Agent :: b.Caller? ==> PcOf(s', b) == PcOf(s, b)
    ensures Sum(CallerCosts(s', n)) <= Sum(CallerCosts(s, n))
  {
    hide Cost;
    forall a | a in CallerCosts(s', n) ensures a in CallerCosts(s, n) && CallerCosts(s', n)[a] <= CallerCosts(s, n)[a] {
      assert PcOf(s', a) == PcOf(s, a);
    }
    SumBelow(CallerCosts(s, n), CallerCosts(s', n));
  }

  lemma CallerLowersSum(s: State, s': State, a: Agent, n: nat)
    requires Lowers(s, s', a, n) && a.Caller?
    ensures Left(s', n) < Left(s, n)
  {
    assert a in s.pcs;
    hide Cost, Settled;
    forall b | b in CallerCosts(s', n) ensures b in CallerCosts(s, n) && CallerCosts(s', n)[b] <= CallerCosts(s, n)[b] {
      assert b != a ==> PcOf(s', b) == PcOf(s, b);
    }
    assert a !in s'.pcs ==> Cost(a, PcOf(s', a), n) >= 0;
    SumStrict(CallerCosts(s, n), CallerCosts(s', n), a);
    forall q | q in s.sh.chans ensures PcOf(s', Worker(q)) == PcOf(s, Worker(q)) {
    }
    SumBelow(QueueCosts(s, n), QueueCosts(s', n));
  }

  lemma LowersSum(s: State, s': State, a: Agent, n: nat)
    requires Lowers(s, s', a, n) && WorkersHaveChans(s) && WorkersHaveChans(s')
    ensures Left(s', n) < Left(s, n) && Settled(s, s')
  {
    if a.Worker? {
      assert a in s.pcs || a in s'.pcs;
      WorkerLowersSum(s, s', a.queue, n);
    } else {
      CallerLowersSum(s, s', a, n);
    }
  }

  lemma DequeueLowers(s: State, s': State, q: QueueId, n: nat)
    requires Dequeue(s, s', q)
    ensures Left(s', n) < Left(s, n) && Settled(s, s')
  {
    DequeueCosts(s, s', q, n);
    hide Cost, Dequeue;
    SumStrict(QueueCosts(s, n), QueueCosts(s', n), q);
    SameCallers(s, s', n);
  }

  lemma DequeueCosts(s: State, s': State, q: QueueId, n: nat)
    requires Dequeue(s, s', q)
    ensures QueueCosts(s', n).Keys == QueueCosts(s, n).Keys && q in s.sh.chans && QueueCosts(s', n)[q] < QueueCosts(s, n)[q]
    ensures forall p :: p in s.sh.chans && p != q ==> QueueCosts(s', n)[p] == QueueCosts(s, n)[p]
    ensures (forall b: Agent :: b.Caller? ==> PcOf(s', b) == PcOf(s, b)) && Settled(s, s')
  {
    DequeueActor(s, s', q, n);
    DequeueFrame(s, s', q);
    hide Cost, Dequeue, Settled, BufferCost;
    assert QueueCosts(s', n).Keys == s'.sh.chans.Keys == s.sh.chans.Keys;
  }

  lemma DequeueFrame(s: State, s': State, q: QueueId)
    requires Dequeue(s, s', q)
    ensures q in s.sh.chans && s'.sh.chans.Keys == s.sh.chans.Keys && Settled(s, s')
    ensures forall p :: p in s.sh.chans && p != q ==> s'.sh.chans[p] == s.sh.chans[p]
    ensures forall b :: b != Worker(q) ==> PcOf(s', b) == PcOf(s, b)
  {
  }

  lemma DequeueActor(s: State, s': State, q: QueueId, n: nat)
    requires Dequeue(s, s', q)
    ensures Cost(Worker(q), PcOf(s', Worker(q)), n) + BufferCost(s'.sh.chans[q]) < Cost(Worker(q), PcOf(s, Worker(q)), n) + BufferCost(s.sh.chans[q])
  {
    assert PcOf(s, Worker(q)) == None && PcOf(s', Worker(q)) == Some(Work(s.sh.chans[q][0], Got));
  }

  // ---------------------------------------------------------------- registering spends what Enqueue held

  /** One queue's entry grows by at most its job, and a new one costs no more than that. */
  ghost predicate GrowsBy(m: map<QueueId, nat>, m': map<QueueId, nat>, order: seq<QueueId>, ts: seq<Target>) {
    && (forall q :: q in m' ==> q in m || q in order)
    && forall q :: q in m' ==> m'[q] <= (if q in m then m[q] else 0) + (if q in order then QueueShare(ts, q) else 0)
  }

  lemma {:induction false} OrderSum(m: map<QueueId, nat>, m': map<QueueId, nat>, order: seq<QueueId>, ts: seq<Target>)
    requires Distinct(order) && GrowsBy(m, m', order, ts)
    ensures Sum(m') <= Sum(m) + OrderCost(ts, order)
    decreases |order|
  {
    hide Positions, QueueShare;
    if order == [] {
      forall q | q in m' ensures q in m && m'[q] <= m[q] {
        assert q !in order;
      }
      SumBelow(m, m');
    } else {
      var k := |order| - 1;
      var q := order[k];
      assert order == order[..k] + [q];
      assert q !in order[..k];
      if q in m' {
        SumPick(m', q);
        if q in m {
          var m1 := m'[q := m[q]];
          SumSet(m', q, m[q]);
          OrderSum(m, m1, order[..k], ts);
        } else {
          OrderSum(m, m' - {q}, order[..k], ts);
        }
      } else {
        OrderSum(m, m', order[..k], ts);
      }
    }
  }

  lemma {:induction false} BufferGrows(jobs: seq<Job>, job: Job)
    ensures BufferCost(jobs + [job]) == BufferCost(jobs) + JobCost(job.positions)
    decreases |jobs|
  {
    if jobs == [] {
      assert jobs + [job] == [job] && [job][1..] == [];
    } else {
      BufferGrows(jobs[1..], job);
      assert (jobs + [job])[1..] == jobs[1..] + [job];
    }
  }

  lemma RegisterQueues(s: State, s': State, a: Agent, r: RunId, ts: seq<Target>, order: seq<QueueId>, full: bool, n: nat)
    requires Registers(s, s', a, r, ts, order, full) && a.Caller? && WorkersHaveChans(s)
    ensures Sum(QueueCosts(s', n)) <= Sum(QueueCosts(s, n)) + OrderCost(ts, order)
  {
    hide QueueOrder, Positions, OrderCost, QueueShare, Cost, BufferCost;
    forall q | q in s'.sh.chans
      ensures QueueCosts(s', n)[q] <= (if q in s.sh.chans then QueueCosts(s, n)[q] else 0) + (if q in order then QueueShare(ts, q) else 0)
    {
      RegisterQueue(s, s', a, r, ts, order, full, n, q);
    }
    assert GrowsBy(QueueCosts(s, n), QueueCosts(s', n), order, ts);
    QueueOrderSpec(ts);
    OrderSum(QueueCosts(s, n), QueueCosts(s', n), order, ts);
  }

  lemma RegisterQueue(s: State, s': State, a: Agent, r: RunId, ts: seq<Target>, order: seq<QueueId>, full: bool, n: nat, q: QueueId)
    requires Registers(s, s', a, r, ts, order, full) && a.Caller? && WorkersHaveChans(s) && q in s'.sh.chans
    ensures BufferCost(s'.sh.chans[q]) + Cost(Worker(q), PcOf(s', Worker(q)), n)
            <= (if q in s.sh.chans then BufferCost(s.sh.chans[q]) + Cost(Worker(q), PcOf(s, Worker(q)), n) else 0)
               + (if q in order then QueueShare(ts, q) else 0)
  {
    hide QueueOrder, Positions;
    assert PcOf(s', Worker(q)) == PcOf(s, Worker(q));
    var before, after := Get(s.sh.chans, q), Get(s'.sh.chans, q);
    assert Extends(before, after, r, ts, q);
    if after != before {
      BufferGrows(before, JobFor(r, ts, q));
    }
    if q !in s.sh.chans {
      assert PcOf(s, Worker(q)) == None && before == [] && after == s'.sh.chans[q];
      assert BufferCost([]) == 0;
    }
  }

  lemma RegisterLowers(s: State, s': State, a: Agent, n: nat)
    requires Inv(s) && EnqRegister(s, s', a) && WorkersHaveChans(s)
    ensures Left(s', n) < Left(s, n) && Settled(s, s')
  {
    CallerOnly(s, a);
    hide Inv;
    if s.sh.closing || !s.sh.started {
      RefuseLowers(s, s', a, n);
      CallerLowersSum(s, s', a, n);
    } else {
      var r, ts, order, full := RegisterSummary(s, s', a);
      hide EnqRegister;
      RegisterQueues(s, s', a, r, ts, order, full, n);
      RegisterCaller(s, s', a, r, ts, order, full, n);
    }
  }

  lemma RefuseLowers(s: State, s': State, a: Agent, n: nat)
    requires EnqRegister(s, s', a) && (s.sh.closing || !s.sh.started) && a.Caller?
    ensures Lowers(s, s', a, n)
  {
    hide OrderCost, RegisterSection;
  }

  /** The caller gives up its share, but for the claim it may have to finish. */
  lemma RegisterCaller(s: State, s': State, a: Agent, r: RunId, ts: seq<Target>, order: seq<QueueId>, full: bool, n: nat)
    requires Registers(s, s', a, r, ts, order, full) && a.Caller?
    ensures Sum(CallerCosts(s', n)) + OrderCost(ts, order) < Sum(CallerCosts(s, n)) && Settled(s, s')
  {
    RegisterOwnCost(s, s', a, r, ts, order, full, n);
    hide Cost, OrderCost, QueueOrder, Registers, Sum, Settled;
    var m, m' := CallerCosts(s, n), CallerCosts(s', n);
    forall b | b in m' ensures b in m && (b != a ==> m'[b] <= m[b]) {
      assert b != a ==> PcOf(s', b) == PcOf(s, b);
    }
    SumLoses(m, m', a, OrderCost(ts, order));
  }

  lemma RegisterOwnCost(s: State, s': State, a: Agent, r: RunId, ts: seq<Target>, order: seq<QueueId>, full: bool, n: nat)
    requires Registers(s, s', a, r, ts, order, full) && a.Caller?
    ensures a in s.pcs && (forall b :: b != a ==> PcOf(s', b) == PcOf(s, b)) && Settled(s, s')
    ensures Cost(a, PcOf(s', a), n) + OrderCost(ts, order) < Cost(a, PcOf(s, a), n)
  {
    hide OrderCost, QueueOrder, Positions;
  }

  // ---------------------------------------------------------------- every step

  lemma EnqueueStepLowers(s: State, l: Label, s': State, n: nat)
    requires Inv(s) && Step(s, l, s') && WorkersHaveChans(s) && WorkersHaveChans(s')
    requires l.LEnqLock? || l.LEnqDedupe? || l.LEnqCreate? || l.LEnqBegin? || l.LEnqUnlock? || l.LOrphanLock? || l.LOrphanCheck? || l.LOrphanRead?
    ensures Left(s', n) < Left(s, n) && Settled(s, s')
  {
    hide Inv, EnqLock, EnqDedupe, EnqCreate, EnqBegin, EnqUnlock, OrphanLock, OrphanCheck, OrphanRead, Lowers, Left, WorkersHaveChans;
    IsCaller(s, l, s');
    match l
    case LEnqLock(a) => LockLowers(s, s', a, n); LowersSum(s, s', a, n);
    case LEnqDedupe(a, fails) => DedupeLowers(s, s', a, fails, n); LowersSum(s, s', a, n);
    case LEnqCreate(a, fails, r) => CreateLowers(s, s', a, fails, r, n); LowersSum(s, s', a, n);
    case LEnqBegin(a) => TransitLowers(s, s', a, n); LowersSum(s, s', a, n);
    case LEnqUnlock(a) => TransitLowers(s, s', a, n); LowersSum(s, s', a, n);
    case LOrphanLock(a) => LockLowers(s, s', a, n); LowersSum(s, s', a, n);
    case LOrphanCheck(a) => OrphanCheckLowers(s, s', a, n); LowersSum(s, s', a, n);
    case LOrphanRead(a, fails) => OrphanReadLowers(s, s', a, fails, n); LowersSum(s, s', a, n);
  }

  lemma IsCaller(s: State, l: Label, s': State)
    requires Inv(s) && Step(s, l, s')
    requires l.LEnqLock? || l.LEnqDedupe? || l.LEnqCreate? || l.LEnqBegin? || l.LEnqUnlock? || l.LOrphanLock? || l.LOrphanCheck? || l.LOrphanRead?
    ensures l.a.Caller?
  {
    CallerOnly(s, l.a);
    hide Inv;
  }

  lemma StarterStepLowers(s: State, l: Label, s': State, n: nat)
    requires Step(s, l, s') && WorkersHaveChans(s) && WorkersHaveChans(s')
    requires l.LWorkerExit? || l.LExecBegin? || l.LWriteRunning? || l.LReadDone? || l.LPublishRunning? || l.LFinish?
    ensures Left(s', n) < Left(s, n) && Settled(s, s')
  {
    hide WorkerExit, ExecBegin, WriteRunning, ReadDoneCount, PublishRunning, FinishStep, Lowers, Left, WorkersHaveChans;
    match l {
      case LWorkerExit(q) => ExitLowers(s, s', q, n);
      case LExecBegin(q) => BeginLowers(s, s', q, n);
      case LWriteRunning(q, fails) => RunningLowers(s, s', q, fails, n);
      case LReadDone(q) => ReadLowers(s, s', q, n);
      case LPublishRunning(q) => PublishLowers(s, s', q, n);
      case LFinish(q) => JobLowers(s, s', q, n);
    }
    LowersSum(s, s', Worker(l.q), n);
  }

  lemma TesterStepLowers(s: State, l: Label, s': State, n: nat)
    requires Inv(s) && Step(s, l, s') && WorkersHaveChans(s) && WorkersHaveChans(s')
    requires l.LLoop? || l.LEngine? || l.LAfterRow? || l.LMark? || l.LPanic? || l.LPanicStore?
    ensures Left(s', n) < Left(s, n) && Settled(s, s')
  {
    hide LoopStep, EngineStep, AfterRow, MarkStep, Panic, PanicStoreStep, Inv, Lowers, Left, WorkersHaveChans, WithinJob;
    StaysWithinJob(s, l.q);
    match l {
      case LLoop(q) => LoopLowers(s, s', q, n);
      case LEngine(q, out) => EngineLowers(s, s', q, out, n);
      case LAfterRow(q) => RowLowers(s, s', q, n);
      case LMark(q) => MarkLowers(s, s', q, n);
      case LPanic(q) => PanicLowers(s, s', q, n);
      case LPanicStore(q, fails) => PanicStoreLowers(s, s', q, fails, n);
    }
    LowersSum(s, s', Worker(l.q), n);
  }

  lemma FinisherStepLowers(s: State, l: Label, s': State, n: nat)
    requires Step(s, l, s') && WorkersHaveChans(s) && WorkersHaveChans(s')
    requires l.LFinWrite? || l.LFinPublish? || l.LFinEnd? || l.LFinPanic?
    ensures Left(s', n) < Left(s, n) && Settled(s, s')
  {
    hide FinWrite, FinPublish, FinEnd, FinPanic, Lowers, Left, WorkersHaveChans;
    match l {
      case LFinWrite(a, fails) => WriteLowers(s, s', a, fails, n);
      case LFinPublish(a) => AnnounceLowers(s, s', a, n);
      case LFinEnd(a) => EndLowers(s, s', a, n);
      case LFinPanic(a) => FinPanicLowers(s, s', a, n);
    }
    LowersSum(s, s', l.a, n);
  }

  lemma ShutdownStepLowers(s: State, l: Label, s': State, n: nat)
    requires Inv(s) && Step(s, l, s') && WorkersHaveChans(s) && WorkersHaveChans(s') && (s.sh.closing ==> |s.sh.runs| <= n)
    requires l.LShutWait? || l.LShutMark? || l.LShutDrain? || l.LShutClaim?
    ensures Left(s', n) < Left(s, n) && Settled(s, s')
  {
    hide Inv, ShutWait, ShutMark, ShutDrain, ShutClaim, Lowers, Left, WorkersHaveChans;
    ShutIsCaller(s, l, s');
    match l {
      case LShutWait(a, w) => WaitLowers(s, s', a, w, n);
      case LShutMark(a, stuck) => ListLowers(s, s', a, stuck, n);
      case LShutDrain(a, w) => DrainLowers(s, s', a, w, n);
      case LShutClaim(a) => ForceLowers(s, s', a, n);
    }
    LowersSum(s, s', l.a, n);
  }

  /** Only a caller shuts down, and then the runner is closing. */
  lemma ShutIsCaller(s: State, l: Label, s': State)
    requires Inv(s) && Step(s, l, s') && (l.LShutWait? || l.LShutMark? || l.LShutDrain? || l.LShutClaim?)
    ensures l.a.Caller? && s.sh.closing
  {
    ShutIsAtShut(s, l, s');
    hide Step;
    ShutIsClosing(s, l.a);
  }

  lemma ShutIsAtShut(s: State, l: Label, s': State)
    requires Step(s, l, s') && (l.LShutWait? || l.LShutMark? || l.LShutDrain? || l.LShutClaim?)
    ensures AtShut(s, l.a)
  {
    hide MarkAllSection, ClaimSection, AllExited;
  }

  lemma ShutIsClosing(s: State, a: Agent)
    requires Inv(s) && AtShut(s, a)
    ensures a.Caller? && s.sh.closing
  {
    assert PcInv(s, a, s.pcs[a]);
  }

  /** Every step but a new call leaves less to do. */
  lemma WorkLowers(s: State, l: Label, s': State, n: nat)
    requires Inv(s) && WorkersHaveChans(s) && WorkersHaveChans(s') && (s.sh.closing ==> |s.sh.runs| <= n)
    requires Step(s, l, s') && Works(l)
    ensures Left(s', n) < Left(s, n) && Settled(s, s')
  {
    if l.LEnqRegister? {
      RegisterLowers(s, s', l.a, n);
    } else if l.LDequeue? {
      DequeueLowers(s, s', l.q, n);
    } else {
      hide Inv, Step, Left, WorkersHaveChans;
      if l.LEnqLock? || l.LEnqDedupe? || l.LEnqCreate? || l.LEnqBegin? || l.LEnqUnlock? || l.LOrphanLock? || l.LOrphanCheck? || l.LOrphanRead? {
        EnqueueStepLowers(s, l, s', n);
      } else if l.LFinWrite? || l.LFinPublish? || l.LFinEnd? || l.LFinPanic? {
        FinisherStepLowers(s, l, s', n);
      } else if l.LShutWait? || l.LShutMark? || l.LShutDrain? || l.LShutClaim? {
        ShutdownStepLowers(s, l, s', n);
      } else if l.LWorkerExit? || l.LExecBegin? || l.LWriteRunning? || l.LReadDone? || l.LPublishRunning? || l.LFinish? {
        StarterStepLowers(s, l, s', n);
      } else {
        TesterStepLowers(s, l, s', n);
      }
    }
  }

  lemma {:induction false} TraceWorkers(ss: seq<State>, ls: seq<Label>, i: nat)
    requires IsTrace(ss, ls) && i < |ss|
    ensures OneEach(ss[i].sh) && WorkersHaveChans(ss[i])
  {
    hide Step;
    if i == 0 {
      assert Init(ss[0]);
    } else {
      hide Init;
      TraceWorkers(ss, ls, i - 1);
      StepKeepsWorkers(ss[i - 1], ls[i - 1], ss[i]);
    }
  }

  lemma FewerRuns(s: State, s': State)
    requires Settled(s, s') && s.sh.closing
    ensures |s'.sh.runs| <= |s.sh.runs|
  {
    assert |s'.sh.runs.Keys| <= |s.sh.runs.Keys| by {
      SubsetSize(s'.sh.runs.Keys, s.sh.runs.Keys);
    }
  }

  lemma SubsetSize(a: set<RunId>, b: set<RunId>)
    requires a <= b
    ensures |a| <= |b|
  {
    assert b == a + (b - a);
  }

  lemma {:induction false} WorkIsBoundedBy(ss: seq<State>, ls: seq<Label>, i: nat, j: nat, n: nat)
    requires IsTrace(ss, ls) && i <= j < |ss| && forall k :: i <= k < j ==> Works(ls[k])
    requires ss[i].sh.closing ==> |ss[i].sh.runs| <= n
    ensures j - i + Left(ss[j], n) <= Left(ss[i], n)
    ensures ss[j].sh.closing ==> |ss[j].sh.runs| <= n
    decreases j
  {
    hide Step, Init, Inv, Left, WorkersHaveChans;
    if i < j {
      WorkIsBoundedBy(ss, ls, i, j - 1, n);
      TraceKeeps(ss, ls, j - 1);
      TraceWorkers(ss, ls, j - 1);
      TraceWorkers(ss, ls, j);
      WorkLowers(ss[j - 1], ls[j - 1], ss[j], n);
      if ss[j - 1].sh.closing {
        FewerRuns(ss[j - 1], ss[j]);
      }
    }
  }

  // ---------------------------------------------------------------- main results

  /** Without new calls, workers, finishers and Shutdown take only so many steps, in any order. */
  lemma WorkIsBounded(ss: seq<State>, ls: seq<Label>, i: nat, j: nat)
    requires IsTrace(ss, ls) && i <= j < |ss| && forall k :: i <= k < j ==> Works(ls[k])
    ensures j - i <= Left(ss[i], |ss[i].sh.runs|)
  {
    hide Left;
    WorkIsBoundedBy(ss, ls, i, j, |ss[i].sh.runs|);
  }

  /** Work that needs no deadline to expire, no access to fail and no panic to strike. */
  predicate Patient(l: Label) {
    && Works(l) && !((l.LShutWait? || l.LShutDrain?) && l.w.CtxDone?)
    && !l.LPanic? && !l.LFinPanic?
    && (l.LEnqDedupe? || l.LEnqCreate? || l.LOrphanRead? || l.LWriteRunning? || l.LPanicStore? || l.LFinWrite? ==> !l.fails)
  }

  ghost predicate CanWork(s: State) {
    exists l, s' :: Patient(l) && Step(s, l, s')
  }

  lemma Can(s: State, l: Label, s': State)
    requires Patient(l) && Step(s, l, s')
    ensures CanWork(s)
  {
    hide Step;
  }

  lemma GotCanWork(s: State, q: QueueId)
    requires At(s, q) && StageAt(s, q).Got?
    ensures CanWork(s)
  {
    var r := JobAt(s, q).run;
    var s' := if r !in s.sh.runs then Leave(s, Worker(q))
              else if MustNotStart(s.sh, r) then Stage(s, q, Finish(false, true))
              else Stage(s, q, SetRunning(s.sh.runs[r].total, 0)).(sh := StartSection(s.sh, r));
    assert ExecBegin(s, s', q);
    hide CanWork;
    Can(s, LExecBegin(q), s');
  }

  lemma RunningCanWork(s: State, q: QueueId)
    requires At(s, q) && StageAt(s, q).SetRunning?
    ensures CanWork(s)
  {
    var r, total, k := JobAt(s, q).run, StageAt(s, q).total, StageAt(s, q).attempt;
    var (rows', outcome) := SetRunStatus(s.rows, r, Running);
    var s' := if outcome.Missing? then Stage(s, q, if k == 0 && s.sh.hooked then SetRunning(total, 1) else Loop(0, false))
              else if outcome.Refused? then Stage(s, q, Loop(0, false))
              else Stage(s, q, ReadDone(total)).(rows := rows');
    assert WriteRunning(s, s', q, false);
    hide CanWork;
    Can(s, LWriteRunning(q, false), s');
  }

  lemma ReadCanWork(s: State, q: QueueId)
    requires At(s, q) && (StageAt(s, q).ReadDone? || StageAt(s, q).Publishing?)
    ensures CanWork(s)
  {
    var r, ws := JobAt(s, q).run, StageAt(s, q);
    hide CanWork;
    if ws.ReadDone? {
      var s' := Stage(s, q, Publishing(0, false, ws.total, if r in s.sh.runs then s.sh.runs[r].done else 0, false));
      assert ReadDoneCount(s, s', q);
      Can(s, LReadDone(q), s');
    } else {
      var s' := Stage(Emit(s, r, Event(Running, ws.total, ws.done)), q, if ws.panicked then Finish(true, false) else Loop(ws.next, ws.queueFailed));
      assert PublishRunning(s, s', q);
      Can(s, LPublishRunning(q), s');
    }
  }

  lemma LoopCanWork(s: State, q: QueueId)
    requires At(s, q) && WithinJob(s, q) && (StageAt(s, q).Loop? || StageAt(s, q).Engine?)
    ensures CanWork(s)
  {
    var job, ws := JobAt(s, q), StageAt(s, q);
    hide CanWork;
    if ws.Loop? {
      var stop := job.run in s.sh.ctxDone;
      var s' := Stage(s, q, if stop || ws.i >= |job.positions| then Finish(ws.queueFailed, stop) else Engine(ws.i, ws.queueFailed));
      assert LoopStep(s, s', q);
      Can(s, LLoop(q), s');
    } else {
      var s' := Stage(AddResult(s, (job.run, job.positions[ws.i]), true), q, RowLanded(ws.i, ws.queueFailed));
      assert EngineStep(s, s', q, OkRow);
      Can(s, LEngine(q, OkRow), s');
    }
  }

  lemma RowCanWork(s: State, q: QueueId)
    requires At(s, q) && StageAt(s, q).RowLanded?
    ensures CanWork(s)
  {
    var s' := Stage(s, q, Mark(StageAt(s, q).i, StageAt(s, q).queueFailed, false));
    assert AfterRow(s, s', q);
    hide CanWork;
    Can(s, LAfterRow(q), s');
  }

  lemma MarkCanWork(s: State, q: QueueId)
    requires At(s, q) && WithinJob(s, q) && StageAt(s, q).Mark?
    ensures CanWork(s)
  {
    var job, ws := JobAt(s, q), StageAt(s, q);
    var r := job.run;
    hide CanWork;
    if r in s.sh.runs {
      var sh' := MarkSection(s.sh, r);
      var s' := Stage(s, q, Publishing(ws.i + 1, ws.queueFailed, sh'.runs[r].total, sh'.runs[r].done, ws.panicked)).(
                  sh := sh', aux := s.aux.(marked := s.aux.marked[r := Marked(s, r) + {job.positions[ws.i]}]));
      assert MarkStep(s, s', q);
      Can(s, LMark(q), s');
    } else {
      var s' := Stage(s, q, if ws.panicked then Finish(true, false) else Loop(ws.i + 1, ws.queueFailed));
      assert MarkStep(s, s', q);
      Can(s, LMark(q), s');
    }
  }

  lemma PanicStoreCanWork(s: State, q: QueueId)
    requires At(s, q) && WithinJob(s, q) && StageAt(s, q).PanicStore?
    ensures CanWork(s)
  {
    var job, i := JobAt(s, q), StageAt(s, q).i;
    var s' := Stage(AddResult(s, (job.run, job.positions[i]), false), q, Mark(i, true, true));
    assert PanicStoreStep(s, s', q, false);
    hide CanWork;
    Can(s, LPanicStore(q, false), s');
  }

  lemma JobCanWork(s: State, q: QueueId)
    requires At(s, q) && StageAt(s, q).Finish?
    ensures CanWork(s)
  {
    var r, ws := JobAt(s, q).run, StageAt(s, q);
    hide CanWork;
    if r !in s.sh.runs {
      assert FinishStep(s, Leave(s, Worker(q)), q);
      Can(s, LFinish(q), Leave(s, Worker(q)));
    } else {
      var st := Outcome(s.sh.runs[r], ws.failed, ws.canceled);
      var s1 := s.(sh := FinishSection(s.sh, r, ws.failed, ws.canceled));
      var s' := if st.pending > 0 then Leave(s1, Worker(q))
                else Goto(s1, Worker(q), Fin(Claim(ByLastQueue, r, FinalStatus(st), st.total, st.done, []), Write(0)));
      assert FinishStep(s, s', q);
      Can(s, LFinish(q), s');
    }
  }

  lemma WorkerCanWork(s: State, q: QueueId)
    requires Inv(s) && At(s, q)
    ensures CanWork(s)
  {
    StaysWithinJob(s, q);
    hide Inv, CanWork, WithinJob;
    match StageAt(s, q)
    case Got => GotCanWork(s, q);
    case SetRunning(_, _) => RunningCanWork(s, q);
    case ReadDone(_) => ReadCanWork(s, q);
    case Publishing(_, _, _, _, _) => ReadCanWork(s, q);
    case Loop(_, _) => LoopCanWork(s, q);
    case Engine(_, _) => LoopCanWork(s, q);
    case RowLanded(_, _) => RowCanWork(s, q);
    case Mark(_, _, _) => MarkCanWork(s, q);
    case PanicStore(_) => PanicStoreCanWork(s, q);
    case Finish(_, _) => JobCanWork(s, q);
  }

  lemma FinisherCanWork(s: State, a: Agent)
    requires Inv(s) && AtFin(s, a)
    ensures CanWork(s)
  {
    hide CanWork;
    if s.pcs[a].fs.Write? {
      TerminalWriteSucceeds(s, a);
      hide Inv;
      WriteCanWork(s, a);
    } else {
      hide Inv;
      if s.pcs[a].fs.Publish? {
        AnnounceCanWork(s, a);
      } else {
        EndCanWork(s, a);
      }
    }
  }

  lemma WriteCanWork(s: State, a: Agent)
    requires AtFin(s, a) && s.pcs[a].fs.Write? && SetRunStatus(s.rows, s.pcs[a].claim.run, s.pcs[a].claim.status).1 == Written
    ensures CanWork(s)
  {
    hide CanWork;
    var c := s.pcs[a].claim;
    var s' := Goto(s, a, Fin(c, if c.kind.ByShutdown? then End(true) else Publish)).(rows := SetRunStatus(s.rows, c.run, c.status).0);
    assert FinWrite(s, s', a, false);
    Can(s, LFinWrite(a, false), s');
  }

  lemma AnnounceCanWork(s: State, a: Agent)
    requires AtFin(s, a) && s.pcs[a].fs.Publish?
    ensures CanWork(s)
  {
    hide CanWork;
    var c := s.pcs[a].claim;
    var s' := Goto(Emit(s, c.run, Event(c.status, c.total, c.done)), a, if c.kind.ByShutdown? then Shut(Force(c.rest)) else Fin(c, End(false)));
    assert FinPublish(s, s', a);
    Can(s, LFinPublish(a), s');
  }

  lemma EndCanWork(s: State, a: Agent)
    requires AtFin(s, a) && s.pcs[a].fs.End?
    ensures CanWork(s)
  {
    hide CanWork;
    var c, after := s.pcs[a].claim, s.pcs[a].fs.publishAfter;
    var s1 := s.(sh := s.sh.(finalizing := s.sh.finalizing - {c.run}));
    var s' := if c.kind.ByOrphan? then Leave(s, a).(mu := None)
              else if !c.kind.ByShutdown? then Leave(s1, a)
              else if after then Goto(s1, a, Fin(c, Publish))
              else Goto(s1, a, Shut(Force(c.rest)));
    assert FinEnd(s, s', a);
    Can(s, LFinEnd(a), s');
  }

  lemma BufferCanWork(s: State, q: QueueId)
    requires q in s.sh.chans && s.sh.chans[q] != [] && Worker(q) !in s.pcs
    ensures CanWork(s)
  {
    hide CanWork;
    var job := s.sh.chans[q][0];
    var s' := Goto(s, Worker(q), Work(job, Got)).(
                sh := s.sh.(chans := s.sh.chans[q := s.sh.chans[q][1..]]),
                aux := s.aux.(taken := s.aux.taken[q := Get(s.aux.taken, q) + [job.run]]));
    assert Dequeue(s, s', q);
    Can(s, LDequeue(q), s');
  }

  lemma FreshId(rows: map<RunId, Row>) returns (r: RunId)
    ensures r !in rows
  {
    r := AboveAll(rows.Keys);
  }

  lemma {:induction false} AboveAll(ids: set<RunId>) returns (r: RunId)
    ensures forall x :: x in ids ==> x < r
    decreases |ids|
  {
    if x :| x in ids {
      var below := AboveAll(ids - {x});
      r := if below <= x then x + 1 else below;
      assert forall y :: y in ids ==> y == x || y in ids - {x};
    } else {
      r := 0;
    }
  }

  /** An Enqueue past its lock, or one that finds the lock free. */
  lemma EnqueueCanWork(s: State, a: Agent)
    requires a in s.pcs && s.pcs[a].Enq? && (s.pcs[a].es.Wait? ==> s.mu == None)
    ensures CanWork(s)
  {
    hide CanWork;
    var req := s.pcs[a].req;
    match s.pcs[a].es
    case Wait =>
      var s' := Goto(s, a, Enq(req, Check)).(mu := Some(a));
      assert EnqLock(s, s', a);
      Can(s, LEnqLock(a), s');
    case Check =>
      var s' := if ActiveForSchedule(s.rows, req.schedule) then Leave(s, a).(mu := None) else Goto(s, a, Enq(req, Create));
      assert EnqDedupe(s, s', a, false);
      Can(s, LEnqDedupe(a, false), s');
    case Create => CreateCanWork(s, a);
    case Begin(r) =>
      var s' := Goto(s, a, Enq(req, Held(r))).(sh := s.sh.(finalizing := s.sh.finalizing + {r}));
      assert EnqBegin(s, s', a);
      Can(s, LEnqBegin(a), s');
    case Held(r) =>
      var s' := Goto(s, a, Enq(req, Register(r))).(mu := None);
      assert EnqUnlock(s, s', a);
      Can(s, LEnqUnlock(a), s');
    case Register(r) => RegisterCanWork(s, a);
  }

  lemma CreateCanWork(s: State, a: Agent)
    requires a in s.pcs && s.pcs[a].Enq? && s.pcs[a].es.Create?
    ensures CanWork(s)
  {
    hide CanWork;
    var req := s.pcs[a].req;
    var r := FreshId(s.rows);
    var s' := Goto(s, a, Enq(req, Begin(r))).(rows := s.rows[r := Row(Queued, req.schedule)], aux := s.aux.(reqs := s.aux.reqs[r := req]));
    assert EnqCreate(s, s', a, false, r);
    Can(s, LEnqCreate(a, false, r), s');
  }

  lemma RegisterCanWork(s: State, a: Agent)
    requires a in s.pcs && s.pcs[a].Enq? && s.pcs[a].es.Register?
    ensures CanWork(s)
  {
    hide CanWork, RegisterSection;
    var r, ts := s.pcs[a].es.run, s.pcs[a].req.targets;
    if s.sh.closing || !s.sh.started {
      var s' := Goto(s, a, Fin(Claim(ByRefusal, r, Canceled, |ts|, 0, []), Write(0))).(sh := s.sh.(ctxDone := s.sh.ctxDone + {r}));
      assert EnqRegister(s, s', a);
      Can(s, LEnqRegister(a), s');
    } else {
      var (sh', full) := RegisterSection(s.sh, r, ts);
      var s1 := Emit(s, r, Event(Queued, |ts|, 0)).(
                  sh := sh',
                  aux := s.aux.(registered := s.aux.registered + {r}, sent := Committed(s.aux.sent, s.sh.chans, sh'.chans, r)));
      var s' := if full then Goto(s1, a, Fin(Claim(ByQueueFull, r, Failed, |ts|, 0, []), Write(0))) else Leave(s1, a);
      assert EnqRegister(s, s', a);
      Can(s, LEnqRegister(a), s');
    }
  }

  lemma OrphanCanWork(s: State, a: Agent)
    requires a in s.pcs && s.pcs[a].Orphan? && (s.pcs[a].os.OWait? ==> s.mu == None)
    ensures CanWork(s)
  {
    hide CanWork;
    var r := s.pcs[a].run;
    match s.pcs[a].os
    case OWait =>
      var s' := Goto(s, a, Orphan(r, OCheck)).(mu := Some(a));
      assert OrphanLock(s, s', a);
      Can(s, LOrphanLock(a), s');
    case OCheck =>
      var s' := if r in s.sh.runs || r in s.sh.finalizing then Leave(s, a).(mu := None) else Goto(s, a, Orphan(r, ORead));
      assert OrphanCheck(s, s', a);
      Can(s, LOrphanCheck(a), s');
    case ORead =>
      var s' := if r !in s.rows || !s.rows[r].Active() then Leave(s, a).(mu := None)
                else Goto(s, a, Fin(Claim(ByOrphan, r, Canceled, 0, 0, []), Write(0)));
      assert OrphanRead(s, s', a, false);
      Can(s, LOrphanRead(a, false), s');
  }

  lemma {:induction false} ListOf(keys: set<RunId>) returns (list: seq<RunId>)
    ensures Distinct(list) && forall r :: r in list <==> r in keys
    decreases |keys|
  {
    if r :| r in keys {
      var rest := ListOf(keys - {r});
      list := [r] + rest;
      assert forall i :: 0 <= i < |rest| ==> rest[i] in rest;
    } else {
      list := [];
    }
  }

  /** Shutdown, but for waiting on workers that have not returned yet. */
  lemma ShutdownCanWork(s: State, a: Agent)
    requires AtShut(s, a) && (s.pcs[a].ss.Drain? ==> AllExited(s))
    ensures CanWork(s)
  {
    hide CanWork, AllExited;
    match s.pcs[a].ss
    case Grace =>
      var s' := Goto(s, a, Shut(MarkAll(false)));
      assert ShutWait(s, s', a, GraceOver);
      Can(s, LShutWait(a, GraceOver), s');
    case MarkAll(_) => MarkAllCanWork(s, a);
    case Drain(stuck) =>
      var s' := Goto(s, a, Shut(Force(stuck)));
      assert ShutDrain(s, s', a, AllDone);
      Can(s, LShutDrain(a, AllDone), s');
    case Force(_) => ForceCanWork(s, a);
  }

  lemma MarkAllCanWork(s: State, a: Agent)
    requires AtShut(s, a) && s.pcs[a].ss.MarkAll?
    ensures CanWork(s)
  {
    hide CanWork;
    var stuck := ListOf(s.sh.runs.Keys);
    var s' := Goto(s, a, Shut(if s.pcs[a].ss.gaveUp then Force(stuck) else Drain(stuck))).(sh := MarkAllSection(s.sh));
    assert ShutMark(s, s', a, stuck);
    Can(s, LShutMark(a, stuck), s');
  }

  lemma ForceCanWork(s: State, a: Agent)
    requires AtShut(s, a) && s.pcs[a].ss.Force?
    ensures CanWork(s)
  {
    hide CanWork;
    var stuck := s.pcs[a].ss.stuck;
    var s' := if stuck == [] then Leave(s, a)
              else if stuck[0] !in s.sh.runs then Goto(s, a, Shut(Force(stuck[1..])))
              else
                var r, st := stuck[0], s.sh.runs[stuck[0]];
                Goto(s, a, Fin(Claim(ByShutdown, r, Canceled, st.total, st.done, stuck[1..]), Write(0))).(
                  sh := ClaimSection(s.sh, r), aux := s.aux.(forced := s.aux.forced + {r}));
    assert ShutClaim(s, s', a);
    Can(s, LShutClaim(a), s');
  }

  lemma ExitCanWork(s: State, q: QueueId)
    requires q in s.sh.chans && Worker(q) !in s.pcs && s.sh.chans[q] == [] && q in s.sh.closed
    ensures CanWork(s)
  {
    hide CanWork;
    assert WorkerExit(s, Goto(s, Worker(q), Exited), q);
    Can(s, LWorkerExit(q), Goto(s, Worker(q), Exited));
  }

  /** Whoever holds enqueueMu can go on. */
  lemma HolderCanWork(s: State)
    requires Inv(s) && s.mu.Some?
    ensures CanWork(s)
  {
    var a := s.mu.value;
    assert a in s.pcs && HoldsMu(s.pcs[a]);
    if s.pcs[a].Fin? {
      FinisherCanWork(s, a);
    } else {
      hide Inv, CanWork;
      if s.pcs[a].Enq? {
        EnqueueCanWork(s, a);
      } else {
        OrphanCanWork(s, a);
      }
    }
  }

  /** A Shutdown that waits for workers, none of which is busy, finds them gone or one about to go. */
  lemma DrainCanWork(s: State, a: Agent)
    requires Inv(s) && AtShut(s, a) && s.pcs[a].ss.Drain?
    requires forall q :: q in s.sh.chans ==> s.sh.chans[q] == [] && (Worker(q) in s.pcs ==> s.pcs[Worker(q)].Exited?)
    ensures CanWork(s)
  {
    assert PcInv(s, a, s.pcs[a]);
    assert s.sh.closed == s.sh.chans.Keys;
    hide Inv, CanWork;
    if AllExited(s) {
      ShutdownCanWork(s, a);
    } else {
      var q :| q in s.sh.chans && !(Worker(q) in s.pcs && s.pcs[Worker(q)].Exited?);
      ExitCanWork(s, q);
    }
  }

  lemma SomeoneCanWork(s: State, a: Agent)
    requires Inv(s) && a in s.pcs && !s.pcs[a].Exited? && !(AtShut(s, a) && s.pcs[a].ss.Drain?)
    ensures CanWork(s)
  {
    if s.mu.Some? {
      HolderCanWork(s);
    } else {
      WorkerIsAt(s, a);
      hide CanWork;
      match s.pcs[a]
      case Enq(_, _) => EnqueueCanWork(s, a);
      case Orphan(_, _) => OrphanCanWork(s, a);
      case Work(job, _) => WorkerCanWork(s, job.queue);
      case Fin(_, _) => FinisherCanWork(s, a);
      case Shut(_) => ShutdownCanWork(s, a);
    }
  }

  lemma WorkerIsAt(s: State, a: Agent)
    requires Inv(s) && a in s.pcs
    ensures s.pcs[a].Work? ==> a == Worker(s.pcs[a].job.queue)
    ensures a.Worker? && s.pcs[a].Exited? ==> Get(s.sh.chans, a.queue) == []
  {
    assert PcInv(s, a, s.pcs[a]);
  }

  /**
   In every execution the runner is quiet or has a step to take that needs neither a new
   call, nor a deadline, nor a failure: enqueueMu is never held for good and no wait is
   for something that cannot come.
   */
  lemma NeverStuck(ss: seq<State>, ls: seq<Label>, i: nat)
    requires IsTrace(ss, ls) && i < |ss|
    ensures Quiet(ss[i]) || CanWork(ss[i])
  {
    hide CanWork, Inv, IsTrace;
    var s := ss[i];
    TraceKeeps(ss, ls, i);
    if a :| a in s.pcs && !s.pcs[a].Exited? && !(AtShut(s, a) && s.pcs[a].ss.Drain?) {
      SomeoneCanWork(s, a);
    } else if q :| q in s.sh.chans && s.sh.chans[q] != [] {
      IdleWorker(s, q);
      BufferCanWork(s, q);
    } else if a :| a in s.pcs && !s.pcs[a].Exited? {
      forall q | Worker(q) in s.pcs ensures s.pcs[Worker(q)].Exited? {
        NoWorkerShuts(s, q);
      }
      DrainCanWork(s, a);
    }
  }

  lemma NoWorkerShuts(s: State, q: QueueId)
    requires Inv(s) && Worker(q) in s.pcs
    ensures !s.pcs[Worker(q)].Shut?
  {
    assert PcInv(s, Worker(q), s.pcs[Worker(q)]);
  }

  /** A worker that is neither at work nor gone is idle; one with jobs waiting is not gone. */
  lemma IdleWorker(s: State, q: QueueId)
    requires Inv(s) && q in s.sh.chans && s.sh.chans[q] != []
    requires forall a :: a in s.pcs ==> s.pcs[a].Exited? || s.pcs[a].Shut?
    ensures Worker(q) !in s.pcs
  {
    if Worker(q) in s.pcs {
      WorkerIsAt(s, Worker(q));
      NoWorkerShuts(s, q);
    }
  }

  /**
   After the last call, whatever the order of steps, the runner stops within a known number
   of them, and where it stops all is quiet; with status writes succeeding, from a swept
   table, every run row is then terminal.
   */
  lemma EveryRunSettles(ss: seq<State>, ls: seq<Label>, i: nat, j: nat, before: map<RunId, Row>)
    requires IsTrace(ss, ls) && i <= j < |ss| && forall k :: i <= k < j ==> Works(ls[k])
    requires ss[0].rows == Reap(before) && ss[0].aux.lost == {}
    ensures j - i <= Left(ss[i], |ss[i].sh.runs|)
    ensures !CanWork(ss[j]) ==> Quiet(ss[j])
    ensures !CanWork(ss[j]) && (forall k :: 0 <= k < |ls| ==> !FinisherFails(ls[k])) ==>
              forall r :: r in ss[j].rows ==> ss[j].rows[r].status.Terminal()
  {
    hide CanWork, Left, Reap, Step, Init;
    WorkIsBounded(ss, ls, i, j);
    NeverStuck(ss, ls, j);
    if !CanWork(ss[j]) && (forall k :: 0 <= k < |ls| ==> !FinisherFails(ls[k])) {
      NoRunIsStranded(ss, ls, j, before);
    }
  }
}
