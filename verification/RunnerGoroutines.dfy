/**
 The runner with its worker goroutines.

 The transition system of RunnerModel names the worker of a queue by its queue. Here a
 worker is a goroutine with an identity of its own, its place in `workers`, spawned by
 queueChan, and nothing stops two of them from serving one queue but the way they are
 spawned. Every execution is shown to be an execution of RunnerModel, so all that is
 proved there holds here, and a queue never has two workers.
 */
module RunnerGoroutines {
  import opened RunnerTypes
  import opened RunnerModel
  import opened RunnerInvariant
  import opened RunnerProof
  import opened RunnerEnqueue
  import opened RunnerTheorems
  import opened RunnerProperties

  // ---------------------------------------------------------------- the system

  /**
   The shared state with its callers, and where each goroutine is. Goroutine g serves the
   queue `base.sh.workers[g]`; it waits for a job when it has no entry in `hands`.
   */
  datatype System = System(base: State, hands: map<nat, Pc>)

  /** For every queue with a worker, one goroutine that serves it: the one that may move. */
  ghost predicate Picks(c: System, pick: map<QueueId, nat>) {
    && (forall q :: q in pick ==> pick[q] < |c.base.sh.workers| && c.base.sh.workers[pick[q]] == q)
    && (forall g :: 0 <= g < |c.base.sh.workers| ==> c.base.sh.workers[g] in pick)
  }

  ghost function PickedPcs(pick: map<QueueId, nat>, hands: map<nat, Pc>): map<Agent, Pc> {
    map q | q in pick && pick[q] in hands :: Worker(q) := hands[pick[q]]
  }

  /** The runner as the picked goroutines see it: shared state, callers, and their own places. */
  ghost function Seen(c: System, pick: map<QueueId, nat>): State {
    c.base.(pcs := c.base.pcs + PickedPcs(pick, c.hands))
  }

  function CallerPcs(pcs: map<Agent, Pc>): map<Agent, Pc> {
    map a | a in pcs && a.Caller? :: pcs[a]
  }

  /** Puts the picked goroutines where the step left them; the others stay where they were. */
  ghost function Back(c: System, pick: map<QueueId, nat>, after: State): System {
    System(after.(pcs := CallerPcs(after.pcs)),
           map g: nat | g < |after.sh.workers| && (if Picked(c, pick, g) then Worker(after.sh.workers[g]) in after.pcs else g in c.hands) ::
             if Picked(c, pick, g) then after.pcs[Worker(after.sh.workers[g])] else c.hands[g])
  }

  ghost predicate Picked(c: System, pick: map<QueueId, nat>, g: nat) {
    g < |c.base.sh.workers| && c.base.sh.workers[g] in pick && pick[c.base.sh.workers[g]] == g
  }

  /** What wg.Wait waits for: every goroutine spawned has returned. */
  predicate AllReturned(c: System) {
    forall g :: 0 <= g < |c.base.sh.workers| ==> g in c.hands && c.hands[g].Exited?
  }

  predicate Waits(l: Label) {
    (l.LShutWait? || l.LShutDrain?) && l.w.AllDone?
  }

  /** One step of the runner, by a caller or by any one of the goroutines that serve a queue. */
  ghost predicate SystemStep(c: System, pick: map<QueueId, nat>, l: Label, c': System) {
    Picks(c, pick) && (Waits(l) ==> AllReturned(c)) && exists after :: Step(Seen(c, pick), l, after) && c' == Back(c, pick, after)
  }

  ghost predicate IsRun(cs: seq<System>, picks: seq<map<QueueId, nat>>, ls: seq<Label>) {
    && |picks| == |ls| && |cs| == |ls| + 1
    && Init(cs[0].base) && cs[0].hands == map[]
    && forall i :: 0 <= i < |ls| ==> SystemStep(cs[i], picks[i], ls[i], cs[i + 1])
  }

  // ---------------------------------------------------------------- one worker per queue

  /** One goroutine for each channel. */
  ghost predicate OneEach(sh: Shared) {
    Distinct(sh.workers) && forall q :: q in sh.workers <==> q in sh.chans
  }

  lemma {:induction false} NewQueuesSpec(chans: map<QueueId, seq<Job>>, order: seq<QueueId>)
    ensures Distinct(NewQueues(chans, order))
    ensures forall q :: q in NewQueues(chans, order) <==> q in order && q !in chans
    decreases |order|
  {
    if order != [] {
      var n := |order| - 1;
      NewQueuesSpec(chans, order[..n]);
      assert order == order[..n] + [order[n]];
      var before := NewQueues(chans, order[..n]);
      assert forall i :: 0 <= i < |before| ==> before[i] in before;
    }
  }

  lemma SpawnKeepsOneEach(sh: Shared, r: RunId, ts: seq<Target>)
    requires OneEach(sh)
    ensures var sh' := RegisterSection(sh, r, ts).0; OneEach(sh') && sh.workers <= sh'.workers
  {
    var order := QueueOrder(ts);
    NewQueuesSpec(sh.chans, order);
    RegisterChans(sh, r, ts);
    SpawnList(sh, r, ts);
    hide RegisterSection, NewQueues, QueueOrder, OneEach;
    OneEachOfMore(sh, RegisterSection(sh, r, ts).0, order, NewQueues(sh.chans, order));
  }

  lemma OneEachOfMore(sh: Shared, sh': Shared, order: seq<QueueId>, more: seq<QueueId>)
    requires OneEach(sh) && sh'.workers == sh.workers + more && Distinct(more)
    requires forall q :: q in more <==> q in order && q !in sh.chans
    requires forall q :: q in sh'.chans <==> q in sh.chans || q in order
    ensures OneEach(sh') && sh.workers <= sh'.workers
  {
    forall i, j | 0 <= i < j < |sh'.workers| ensures sh'.workers[i] != sh'.workers[j] {
      var n := |sh.workers|;
      if i < n <= j {
        assert more[j - n] in more && sh.workers[i] in sh.workers;
      }
    }
  }

  lemma SpawnList(sh: Shared, r: RunId, ts: seq<Target>)
    ensures RegisterSection(sh, r, ts).0.workers == sh.workers + NewQueues(sh.chans, QueueOrder(ts))
  {
    hide SendAll, QueueOrder, WithQueues, JobsOf, NewQueues;
  }

  /** A step keeps one worker per channel, whoever takes it. */
  lemma StepKeepsOneEach(s: State, l: Label, s': State)
    requires OneEach(s.sh) && Step(s, l, s')
    ensures OneEach(s'.sh) && s.sh.workers <= s'.sh.workers
  {
    if l.LEnqRegister? {
      RegisterKeepsOneEach(s, s', l.a);
    } else if l.LDequeue? {
      DequeueKeepsOneEach(s, s', l.q);
    } else {
      hide Step;
      StepFootprint(s, l, s');
    }
  }

  lemma RegisterKeepsOneEach(s: State, s': State, a: Agent)
    requires OneEach(s.sh) && EnqRegister(s, s', a)
    ensures OneEach(s'.sh) && s.sh.workers <= s'.sh.workers
  {
    hide RegisterSection, OneEach;
    var r, ts := s.pcs[a].es.run, s.pcs[a].req.targets;
    SpawnKeepsOneEach(s.sh, r, ts);
    SameWorkers(s.sh, s.sh.(ctxDone := s.sh.ctxDone + {r}));
  }

  lemma SameWorkers(sh: Shared, sh': Shared)
    requires OneEach(sh) && sh'.workers == sh.workers && forall q :: q in sh'.chans <==> q in sh.chans
    ensures OneEach(sh')
  {
  }

  lemma DequeueKeepsOneEach(s: State, s': State, q: QueueId)
    requires OneEach(s.sh) && Dequeue(s, s', q)
    ensures OneEach(s'.sh) && s.sh.workers <= s'.sh.workers
  {
    hide OneEach;
    SameWorkers(s.sh, s'.sh);
  }

  // ---------------------------------------------------------------- workers have channels

  ghost predicate WorkersHaveChans(s: State) {
    forall q :: Worker(q) in s.pcs ==> q in s.sh.chans
  }

  /** A worker appears only at a channel that exists. */
  ghost predicate NoStrayWorker(s: State, s': State) {
    forall q :: Worker(q) in s'.pcs ==> Worker(q) in s.pcs || q in s.sh.chans
  }

  lemma CallersStayCallers(s: State, l: Label, s': State)
    requires Step(s, l, s')
    requires l.LStart? || l.LEnqCall? || l.LEnqLock? || l.LEnqDedupe? || l.LEnqCreate? || l.LEnqBegin? || l.LEnqUnlock? || l.LEnqRegister?
    ensures NoStrayWorker(s, s')
  {
    hide RegisterSection;
  }

  lemma CancelsStayCallers(s: State, l: Label, s': State)
    requires Step(s, l, s')
    requires l.LCancel? || l.LOrphanLock? || l.LOrphanCheck? || l.LOrphanRead?
    ensures NoStrayWorker(s, s')
  {
  }

  lemma FinishersStayPut(s: State, l: Label, s': State)
    requires Step(s, l, s')
    requires l.LFinWrite? || l.LFinPublish? || l.LFinEnd? || l.LFinPanic?
    ensures NoStrayWorker(s, s')
  {
  }

  lemma ShutdownStaysCaller(s: State, l: Label, s': State)
    requires Step(s, l, s')
    requires l.LShutCall? || l.LShutWait? || l.LShutDrain?
    ensures NoStrayWorker(s, s')
  {
    hide CloseSection, AllExited;
  }

  lemma ForcersStayCallers(s: State, l: Label, s': State)
    requires Step(s, l, s') && (l.LShutMark? || l.LShutClaim?)
    ensures NoStrayWorker(s, s')
  {
    hide MarkAllSection, ClaimSection;
  }

  lemma WorkersStayPut(s: State, l: Label, s': State)
    requires Step(s, l, s')
    requires l.LDequeue? || l.LWorkerExit? || l.LExecBegin? || l.LWriteRunning? || l.LReadDone? || l.LPublishRunning?
    ensures NoStrayWorker(s, s')
  {
  }

  lemma TestersStayPut(s: State, l: Label, s': State)
    requires Step(s, l, s')
    requires l.LLoop? || l.LEngine? || l.LAfterRow? || l.LPanic? || l.LPanicStore?
    ensures NoStrayWorker(s, s')
  {
  }

  lemma CountersStayPut(s: State, l: Label, s': State)
    requires Step(s, l, s') && (l.LMark? || l.LFinish?)
    ensures NoStrayWorker(s, s')
  {
    hide MarkSection, FinishSection;
  }

  lemma StepKeepsWorkers(s: State, l: Label, s': State)
    requires OneEach(s.sh) && WorkersHaveChans(s) && Step(s, l, s')
    ensures OneEach(s'.sh) && s.sh.workers <= s'.sh.workers && WorkersHaveChans(s')
    ensures forall q :: Worker(q) in s'.pcs ==> q in s.sh.workers
  {
    hide Step;
    StepKeepsOneEach(s, l, s');
    if l.LStart? || l.LEnqCall? || l.LEnqLock? || l.LEnqDedupe? || l.LEnqCreate? || l.LEnqBegin? || l.LEnqUnlock? || l.LEnqRegister? {
      CallersStayCallers(s, l, s');
    } else if l.LShutCall? || l.LShutWait? || l.LShutDrain? {
      ShutdownStaysCaller(s, l, s');
    } else if l.LShutMark? || l.LShutClaim? {
      ForcersStayCallers(s, l, s');
    } else if l.LCancel? || l.LOrphanLock? || l.LOrphanCheck? || l.LOrphanRead? {
      CancelsStayCallers(s, l, s');
    } else if l.LFinWrite? || l.LFinPublish? || l.LFinEnd? || l.LFinPanic? {
      FinishersStayPut(s, l, s');
    } else if l.LDequeue? || l.LWorkerExit? || l.LExecBegin? || l.LWriteRunning? || l.LReadDone? || l.LPublishRunning? {
      WorkersStayPut(s, l, s');
    } else if l.LMark? || l.LFinish? {
      CountersStayPut(s, l, s');
    } else {
      TestersStayPut(s, l, s');
    }
    forall q | Worker(q) in s'.pcs ensures q in s'.sh.chans && q in s.sh.workers {
      assert q in s.sh.chans && q in s.sh.workers;
      var g :| 0 <= g < |s.sh.workers| && s.sh.workers[g] == q;
      assert s'.sh.workers[g] == q;
    }
  }

  // ---------------------------------------------------------------- the goroutines refine the workers

  ghost predicate Tidy(c: System) {
    && OneEach(c.base.sh)
    && (forall a :: a in c.base.pcs ==> a.Caller?)
    && (forall g :: g in c.hands ==> g < |c.base.sh.workers|)
  }

  /** The state of RunnerModel the system is in. */
  ghost function Abstract(c: System): State
    requires Tidy(c)
  {
    c.base.(pcs := c.base.pcs + HandPcs(c.base.sh.workers, c.hands))
  }

  ghost function HandPcs(workers: seq<QueueId>, hands: map<nat, Pc>): map<Agent, Pc>
    requires Distinct(workers) && forall g :: g in hands ==> g < |workers|
  {
    map g | g in hands :: Worker(workers[g]) := hands[g]
  }

  /** With one goroutine per queue there is nothing to pick. */
  lemma SeenIsAbstract(c: System, pick: map<QueueId, nat>)
    requires Tidy(c) && Picks(c, pick)
    ensures Seen(c, pick) == Abstract(c)
    ensures forall g: nat :: Picked(c, pick, g) <==> g < |c.base.sh.workers|
  {
    forall g: nat | g < |c.base.sh.workers| ensures Picked(c, pick, g) {
      var q := c.base.sh.workers[g];
      assert q in pick && c.base.sh.workers[pick[q]] == q;
    }
    SamePicks(c.base.sh.workers, pick, c.hands);
  }

  lemma SamePicks(workers: seq<QueueId>, pick: map<QueueId, nat>, hands: map<nat, Pc>)
    requires Distinct(workers) && forall g :: g in hands ==> g < |workers|
    requires forall q :: q in pick ==> pick[q] < |workers| && workers[pick[q]] == q
    requires forall g :: 0 <= g < |workers| ==> workers[g] in pick && pick[workers[g]] == g
    ensures PickedPcs(pick, hands) == HandPcs(workers, hands)
  {
    var p1, p2 := PickedPcs(pick, hands), HandPcs(workers, hands);
    forall a ensures (a in p1 <==> a in p2) && (a in p1 && a in p2 ==> p1[a] == p2[a]) {
      if a in p2 {
        var g :| g in hands && Worker(workers[g]) == a;
        assert pick[workers[g]] == g;
      }
      if a in p1 {
        assert workers[pick[a.queue]] == a.queue;
      }
    }
    SamePcs(p1, p2);
  }

  lemma SamePcs(p1: map<Agent, Pc>, p2: map<Agent, Pc>)
    ensures (forall a :: (a in p1 <==> a in p2) && (a in p1 && a in p2 ==> p1[a] == p2[a])) ==> p1 == p2
  {
    if forall a :: (a in p1 <==> a in p2) && (a in p1 && a in p2 ==> p1[a] == p2[a]) {
      assert p1.Keys == p2.Keys;
      assert p1 == p2;
    }
  }

  /** Callers and hands together make up all places. */
  lemma Reassemble(pcs: map<Agent, Pc>, workers: seq<QueueId>, hands: map<nat, Pc>)
    requires Distinct(workers)
    requires forall g :: g in hands ==> g < |workers| && Worker(workers[g]) in pcs && hands[g] == pcs[Worker(workers[g])]
    requires forall q :: Worker(q) in pcs ==> exists g :: g in hands && workers[g] == q
    ensures CallerPcs(pcs) + HandPcs(workers, hands) == pcs
  {
    var p := CallerPcs(pcs) + HandPcs(workers, hands);
    forall a ensures (a in p <==> a in pcs) && (a in p && a in pcs ==> p[a] == pcs[a]) {
      if a.Worker? && a in pcs {
        var g :| g in hands && workers[g] == a.queue;
        assert Worker(workers[g]) in HandPcs(workers, hands);
      }
    }
    SamePcs(p, pcs);
  }

  lemma BackIsAbstract(c: System, pick: map<QueueId, nat>, after: State)
    requires Tidy(c) && Picks(c, pick) && forall g: nat :: Picked(c, pick, g) <==> g < |c.base.sh.workers|
    requires OneEach(after.sh) && c.base.sh.workers <= after.sh.workers
    requires forall q :: Worker(q) in after.pcs ==> q in c.base.sh.workers
    ensures Tidy(Back(c, pick, after)) && Abstract(Back(c, pick, after)) == after
  {
    hide Picked, Picks, HandPcs;
    var c' := Back(c, pick, after);
    forall q | Worker(q) in after.pcs ensures exists g :: g in c'.hands && after.sh.workers[g] == q {
      var g :| 0 <= g < |c.base.sh.workers| && c.base.sh.workers[g] == q;
      assert after.sh.workers[g] == q && g in c'.hands;
    }
    Reassemble(after.pcs, after.sh.workers, c'.hands);
  }

  /** Every step of the goroutines is a step of the runner. */
  lemma StepRefines(c: System, pick: map<QueueId, nat>, l: Label, c': System)
    requires Tidy(c) && WorkersHaveChans(Abstract(c)) && SystemStep(c, pick, l, c')
    ensures Tidy(c') && Step(Abstract(c), l, Abstract(c')) && WorkersHaveChans(Abstract(c'))
  {
    hide Step;
    var after :| Step(Seen(c, pick), l, after) && c' == Back(c, pick, after);
    SeenIsAbstract(c, pick);
    var s := Abstract(c);
    StepKeepsWorkers(s, l, after);
    BackIsAbstract(c, pick, after);
  }

  lemma {:induction false} RunIsTidy(cs: seq<System>, picks: seq<map<QueueId, nat>>, ls: seq<Label>, i: nat)
    requires IsRun(cs, picks, ls) && i < |cs|
    ensures Tidy(cs[i]) && WorkersHaveChans(Abstract(cs[i]))
    ensures i == 0 ==> Init(Abstract(cs[0]))
    ensures i > 0 ==> Tidy(cs[i - 1]) && Step(Abstract(cs[i - 1]), ls[i - 1], Abstract(cs[i]))
  {
    hide Step, SystemStep, Init;
    if i == 0 {
      StartIsTidy(cs[0]);
    } else {
      RunIsTidy(cs, picks, ls, i - 1);
      StepRefines(cs[i - 1], picks[i - 1], ls[i - 1], cs[i]);
    }
  }

  lemma StartIsTidy(c: System)
    requires Init(c.base) && c.hands == map[]
    ensures Tidy(c) && Abstract(c) == c.base && WorkersHaveChans(Abstract(c))
  {
    assert Abstract(c).pcs == c.base.pcs;
  }

  /** Every execution with goroutines is an execution of the runner, so every theorem about those holds. */
  lemma {:induction false} RunRefines(cs: seq<System>, picks: seq<map<QueueId, nat>>, ls: seq<Label>, i: nat) returns (ss: seq<State>)
    requires IsRun(cs, picks, ls) && i < |cs|
    ensures IsTrace(ss, ls[..i]) && forall k :: 0 <= k <= i ==> Tidy(cs[k]) && ss[k] == Abstract(cs[k])
  {
    hide Step, SystemStep, Init, Tidy, Abstract;
    RunIsTidy(cs, picks, ls, i);
    if i == 0 {
      ss := [Abstract(cs[0])];
    } else {
      var before := RunRefines(cs, picks, ls, i - 1);
      ss := before + [Abstract(cs[i])];
    }
  }

  /** In every execution at most one goroutine serves a queue, and every channel has one. */
  lemma OneWorkerPerQueue(cs: seq<System>, picks: seq<map<QueueId, nat>>, ls: seq<Label>, i: nat, g: nat, h: nat)
    requires IsRun(cs, picks, ls) && i < |cs| && g < |cs[i].base.sh.workers| && h < |cs[i].base.sh.workers|
    ensures cs[i].base.sh.workers[g] == cs[i].base.sh.workers[h] ==> g == h
    ensures forall q :: q in cs[i].base.sh.chans <==> q in cs[i].base.sh.workers
  {
    hide SystemStep, Init;
    RunIsTidy(cs, picks, ls, i);
  }

  /** Two goroutines never test targets of the same queue at the same time. */
  lemma GoroutinesNeverOverlap(cs: seq<System>, picks: seq<map<QueueId, nat>>, ls: seq<Label>, i: nat, g: nat, h: nat)
    requires IsRun(cs, picks, ls) && i < |cs| && g in cs[i].hands && h in cs[i].hands
    requires Testing(cs[i].hands[g]) && Testing(cs[i].hands[h])
    ensures var s := cs[i].base; var (pg, ph) := (cs[i].hands[g], cs[i].hands[h]);
            var (rg, rh) := (pg.job.run, ph.job.run);
            && rg in s.aux.reqs && rh in s.aux.reqs
            && pg.job.positions[pg.ws.i] < |s.aux.reqs[rg].targets| && ph.job.positions[ph.ws.i] < |s.aux.reqs[rh].targets|
            && (s.aux.reqs[rg].targets[pg.job.positions[pg.ws.i]].queue == s.aux.reqs[rh].targets[ph.job.positions[ph.ws.i]].queue ==> g == h)
  {
    hide SystemStep, Init, Step;
    var ss := RunRefines(cs, picks, ls, i);
    var c := cs[i];
    AbstractWorker(c, g);
    AbstractWorker(c, h);
    hide Abstract;
    SameQueueNeverOverlaps(ss, ls[..i], i, Worker(c.base.sh.workers[g]), Worker(c.base.sh.workers[h]));
  }

  /** A worker's place is that of its one goroutine. */
  lemma AbstractWorker(c: System, g: nat)
    requires Tidy(c) && g in c.hands
    ensures var w, s := Worker(c.base.sh.workers[g]), Abstract(c);
            w in s.pcs && s.pcs[w] == c.hands[g] && s.aux == c.base.aux && g < |c.base.sh.workers|
  {
  }
}
