/**
 Executions of the runner that exist: one that reaches "done", and the two in which the
 events of a run come out of order.
 */
module RunnerWitness {
  import opened Options
  import opened RunnerTypes
  import opened RunnerModel
  import opened RunnerInvariant
  import opened RunnerProof
  import opened RunnerTheorems
  import opened RunnerProperties

  // ---------------------------------------------------------------- reachable states

  ghost predicate Reached(s: State) {
    exists ss, ls :: IsTrace(ss, ls) && ss[|ls|] == s
  }

  lemma Extend(ss: seq<State>, ls: seq<Label>, l: Label, s': State)
    requires IsTrace(ss, ls) && Step(ss[|ls|], l, s')
    ensures IsTrace(ss + [s'], ls + [l])
  {
    hide Step, Init;
  }

  lemma Take(s: State, l: Label, s': State)
    requires Reached(s) && Step(s, l, s')
    ensures Reached(s')
  {
    hide Step;
    var ss, ls :| IsTrace(ss, ls) && ss[|ls|] == s;
    Extend(ss, ls, l, s');
    assert (ss + [s'])[|ls + [l]|] == s';
  }

  // ---------------------------------------------------------------- a run of one target

  const A := Caller(0)
  const B := Caller(1)
  const Q: QueueId := 1
  const REQ := Request([Target(1, Q)], None)

  /** Nobody is at work; `runs` are tracked and `buffer` waits in the queue. */
  ghost predicate Resting(s: State, runs: map<RunId, RunState>, buffer: seq<Job>) {
    && Reached(s) && s.pcs == map[] && s.mu == None && s.sh.runs == runs && Get(s.sh.chans, Q) == buffer
    && s.sh.started && !s.sh.closing && !s.sh.hooked && s.sh.cap == 1
    && s.sh.finalizing == {} && s.sh.ctxDone == {}
  }

  lemma Started() returns (s: State)
    ensures Resting(s, map[], []) && s.rows == map[] && s.log == map[] && s.results == map[]
  {
    var s0 := Fresh(map[], 1, false);
    assert Init(s0);
    var ls: seq<Label> := [];
    assert IsTrace([s0], ls) && [s0][|ls|] == s0;
    s := s0.(sh := s0.sh.(started := true));
    Take(s0, LStart, s);
  }

  /** Enqueue up to the point where it holds the lock and may create the row. */
  lemma Locked(s: State, runs: map<RunId, RunState>, buffer: seq<Job>) returns (s': State)
    requires Resting(s, runs, buffer)
    ensures Reached(s') && s' == s.(pcs := map[A := Enq(REQ, Create)], mu := Some(A))
  {
    hide Reached;
    var s1 := s.(pcs := map[A := Enq(REQ, Wait)]);
    Take(s, LEnqCall(A, REQ), s1);
    var s2 := s1.(pcs := map[A := Enq(REQ, Check)], mu := Some(A));
    Take(s1, LEnqLock(A), s2);
    s' := s2.(pcs := map[A := Enq(REQ, Create)]);
    Take(s2, LEnqDedupe(A, false), s');
  }

  /** From there to the registration section, with the row created and marked in transit. */
  lemma Created(s: State, r: RunId) returns (s': State)
    requires Reached(s) && s.pcs == map[A := Enq(REQ, Create)] && s.mu == Some(A) && r !in s.rows && s.sh.finalizing == {}
    ensures Reached(s')
    ensures s' == s.(pcs := map[A := Enq(REQ, Register(r))], mu := None, rows := s.rows[r := Row(Queued, None)],
                     aux := s.aux.(reqs := s.aux.reqs[r := REQ]), sh := s.sh.(finalizing := {r}))
  {
    hide Reached;
    var s1 := s.(pcs := map[A := Enq(REQ, Begin(r))], rows := s.rows[r := Row(Queued, None)], aux := s.aux.(reqs := s.aux.reqs[r := REQ]));
    assert EnqCreate(s, s1, A, false, r);
    hide EnqCreate;
    Take(s, LEnqCreate(A, false, r), s1);
    s' := InTransit(s1, r);
  }

  lemma InTransit(s: State, r: RunId) returns (s': State)
    requires Reached(s) && s.pcs == map[A := Enq(REQ, Begin(r))] && s.sh.finalizing == {}
    ensures Reached(s') && s' == s.(pcs := map[A := Enq(REQ, Register(r))], mu := None, sh := s.sh.(finalizing := {r}))
  {
    hide Reached;
    var s1 := s.(pcs := map[A := Enq(REQ, Held(r))], sh := s.sh.(finalizing := {r}));
    assert s.sh.finalizing + {r} == {r};
    assert EnqBegin(s, s1, A);
    Take(s, LEnqBegin(A), s1);
    s' := Unlocked(s1, r);
  }

  lemma Unlocked(s: State, r: RunId) returns (s': State)
    requires Reached(s) && s.pcs == map[A := Enq(REQ, Held(r))]
    ensures Reached(s') && s' == s.(pcs := map[A := Enq(REQ, Register(r))], mu := None)
  {
    hide Reached;
    s' := s.(pcs := map[A := Enq(REQ, Register(r))], mu := None);
    assert EnqUnlock(s, s', A);
    Take(s, LEnqUnlock(A), s');
  }

  lemma SendOne(chans: map<QueueId, seq<Job>>, job: Job, cap: nat)
    ensures SendAll(chans, [job], cap) ==
            if |Get(chans, job.queue)| < cap then (chans[job.queue := Get(chans, job.queue) + [job]], false) else (chans, true)
  {
    var jobs := [job];
    assert jobs[1..] == [];
    assert SendAll(chans[job.queue := Get(chans, job.queue) + [job]], jobs[1..], cap) == (chans[job.queue := Get(chans, job.queue) + [job]], false);
  }

  lemma OneTarget(r: RunId)
    ensures QueueOrder(REQ.targets) == [Q] && JobsOf(r, REQ.targets) == [Job(r, Q, [0])]
  {
    var ts := REQ.targets;
    assert ts[..0] == [];
    assert Positions(ts, Q) == [0];
    assert QueueOrder(ts) == [Q];
  }

  /** The registration section for a run of one target, on an empty queue and on a full one. */
  lemma SectionOfOne(sh: Shared, r: RunId)
    requires sh.cap == 1
    ensures var (sh', full) := RegisterSection(sh, r, REQ.targets);
            && sh'.closing == sh.closing && sh'.started == sh.started && sh'.hooked == sh.hooked && sh'.cap == 1 && Q in sh'.chans
            && (if Get(sh.chans, Q) == [] then
                  && !full && Get(sh'.chans, Q) == [Job(r, Q, [0])] && sh'.ctxDone == sh.ctxDone
                  && sh'.runs == sh.runs[r := RunState(1, 1, 0, false, false, false)] && sh'.finalizing == sh.finalizing - {r}
                else
                  && full && Get(sh'.chans, Q) == Get(sh.chans, Q) && sh'.ctxDone == sh.ctxDone + {r}
                  && sh'.runs == sh.runs - {r} && sh'.finalizing == sh.finalizing)
  {
    OneTarget(r);
    SendOne(WithQueues(sh.chans, [Q]), Job(r, Q, [0]), sh.cap);
    hide QueueOrder, JobsOf, SendAll, NewQueues;
  }

  lemma Enqueued(s: State, r: RunId) returns (s': State)
    requires Resting(s, map[], []) && r !in s.rows && r !in s.log
    ensures Resting(s', map[r := RunState(1, 1, 0, false, false, false)], [Job(r, Q, [0])])
    ensures s'.rows == s.rows[r := Row(Queued, None)] && s'.log == s.log[r := [Event(Queued, 1, 0)]] && s'.results == s.results
  {
    var s1 := Locked(s, map[], []);
    var s2 := Created(s1, r);
    hide Reached;
    s' := Registered(s2, r);
  }

  lemma Registered(s: State, r: RunId) returns (s': State)
    requires Reached(s) && s.pcs == map[A := Enq(REQ, Register(r))] && r !in s.log
    requires s.sh.started && !s.sh.closing && s.sh.cap == 1 && Get(s.sh.chans, Q) == []
    ensures Reached(s') && s'.pcs == map[] && s'.mu == s.mu && s'.rows == s.rows && s'.results == s.results
    ensures s'.log == s.log[r := [Event(Queued, 1, 0)]]
    ensures s'.sh.closing == s.sh.closing && s'.sh.started == s.sh.started && s'.sh.hooked == s.sh.hooked && s'.sh.cap == 1
    ensures Get(s'.sh.chans, Q) == [Job(r, Q, [0])] && s'.sh.ctxDone == s.sh.ctxDone
    ensures s'.sh.runs == s.sh.runs[r := RunState(1, 1, 0, false, false, false)] && s'.sh.finalizing == s.sh.finalizing - {r}
  {
    hide Reached, RegisterSection;
    SectionOfOne(s.sh, r);
    var sh' := RegisterSection(s.sh, r, REQ.targets).0;
    s' := s.(pcs := map[], log := s.log[r := [Event(Queued, 1, 0)]], sh := sh',
             aux := s.aux.(registered := s.aux.registered + {r}, sent := Committed(s.aux.sent, s.sh.chans, sh'.chans, r)));
    assert s.pcs - {A} == map[];
    assert Get(s.log, r) + [Event(Queued, 1, 0)] == [Event(Queued, 1, 0)];
    assert |REQ.targets| == 1 && !RegisterSection(s.sh, r, REQ.targets).1;
    hide Committed;
    assert EnqRegister(s, s', A);
    hide EnqRegister;
    Take(s, LEnqRegister(A), s');
  }

  // ---------------------------------------------------------------- the worker

  const W := Worker(Q)

  /** The worker has the run's only job in hand. */
  ghost predicate Working(s: State, r: RunId, ws: WorkStage, st: RunState, status: Status) {
    && Reached(s) && s.pcs == map[W := Work(Job(r, Q, [0]), ws)] && s.sh.runs == map[r := st]
    && r !in s.sh.ctxDone && !s.sh.closing && r in s.rows && s.rows[r].status == status
  }

  const WAITING := RunState(1, 1, 0, false, false, false)
  const RUNNING := RunState(1, 1, 0, false, false, true)
  const COUNTED := RunState(1, 1, 1, false, false, true)

  lemma Dequeued(s: State, r: RunId) returns (s': State)
    requires Resting(s, map[r := WAITING], [Job(r, Q, [0])]) && r in s.rows && s.rows[r].status.Queued?
    ensures Working(s', r, Got, WAITING, Queued) && s'.log == s.log && s'.rows == s.rows
  {
    hide Reached;
    s' := Goto(s, W, Work(Job(r, Q, [0]), Got)).(
            sh := s.sh.(chans := s.sh.chans[Q := s.sh.chans[Q][1..]]),
            aux := s.aux.(taken := s.aux.taken[Q := Get(s.aux.taken, Q) + [r]]));
    assert Dequeue(s, s', Q);
    hide Dequeue;
    Take(s, LDequeue(Q), s');
  }

  /** Starting the job, up to the first "running" event, which is still to be published. */
  lemma Begun(s: State, r: RunId) returns (s': State)
    requires Working(s, r, Got, WAITING, Queued)
    ensures Working(s', r, SetRunning(1, 0), RUNNING, Queued) && s'.log == s.log
  {
    hide Reached;
    s' := s.(pcs := map[W := Work(Job(r, Q, [0]), SetRunning(1, 0))], sh := s.sh.(runs := map[r := RUNNING]));
    assert ExecBegin(s, s', Q);
    hide ExecBegin;
    Take(s, LExecBegin(Q), s');
  }

  lemma Announced(s: State, r: RunId) returns (s': State)
    requires Working(s, r, SetRunning(1, 0), RUNNING, Queued)
    ensures Working(s', r, ReadDone(1), RUNNING, Running) && s'.log == s.log
  {
    hide Reached;
    s' := s.(pcs := map[W := Work(Job(r, Q, [0]), ReadDone(1))], rows := s.rows[r := s.rows[r].(status := Running)]);
    assert WriteRunning(s, s', Q, false);
    hide WriteRunning;
    Take(s, LWriteRunning(Q, false), s');
  }

  /** A step in which the worker only moves on. */
  lemma MovesOn(s: State, r: RunId, ws: WorkStage, l: Label, ws': WorkStage, st: RunState, status: Status) returns (s': State)
    requires Working(s, r, ws, st, status)
    requires || (l == LReadDone(Q) && ws == ReadDone(1) && ws' == Publishing(0, false, 1, st.done, false))
             || (l == LLoop(Q) && ws == Loop(0, false) && ws' == Engine(0, false))
             || (l == LLoop(Q) && ws == Loop(1, false) && ws' == Finish(false, false))
             || (l == LAfterRow(Q) && ws == RowLanded(0, false) && ws' == Mark(0, false, false))
    ensures Working(s', r, ws', st, status) && s'.log == s.log
  {
    hide Reached;
    s' := Stage(s, Q, ws');
    if l.LReadDone? {
      assert ReadDoneCount(s, s', Q);
    } else if l.LLoop? {
      assert LoopStep(s, s', Q);
    } else {
      assert AfterRow(s, s', Q);
    }
    Take(s, l, s');
  }

  lemma Published(s: State, r: RunId, next: nat, st: RunState) returns (s': State)
    requires Working(s, r, Publishing(next, false, 1, st.done, false), st, Running)
    ensures Working(s', r, Loop(next, false), st, Running)
  {
    hide Reached;
    s' := s.(pcs := map[W := Work(Job(r, Q, [0]), Loop(next, false))], log := s.log[r := Get(s.log, r) + [Event(Running, 1, st.done)]]);
    assert PublishRunning(s, s', Q);
    hide PublishRunning;
    Take(s, LPublishRunning(Q), s');
  }

  lemma Tested(s: State, r: RunId) returns (s': State)
    requires Working(s, r, Engine(0, false), RUNNING, Running)
    ensures Working(s', r, RowLanded(0, false), RUNNING, Running)
  {
    hide Reached;
    s' := Stage(AddResult(s, (r, 0), true), Q, RowLanded(0, false));
    assert EngineStep(s, s', Q, OkRow);
    hide EngineStep;
    Take(s, LEngine(Q, OkRow), s');
  }

  lemma Counted(s: State, r: RunId) returns (s': State)
    requires Working(s, r, Mark(0, false, false), RUNNING, Running)
    ensures Working(s', r, Publishing(1, false, 1, 1, false), COUNTED, Running)
  {
    hide Reached;
    var ws := Publishing(1, false, 1, 1, false);
    assert MarkSection(s.sh, r).runs == map[r := COUNTED];
    s' := Stage(s, Q, ws).(
            sh := MarkSection(s.sh, r), aux := s.aux.(marked := s.aux.marked[r := Marked(s, r) + {0}]));
    CountStep(s, s', r);
    Take(s, LMark(Q), s');
  }

  lemma CountStep(s: State, s': State, r: RunId)
    requires At(s, Q) && JobAt(s, Q) == Job(r, Q, [0]) && StageAt(s, Q) == Mark(0, false, false) && r in s.sh.runs && s.sh.runs[r] == RUNNING
    requires s' == Stage(s, Q, Publishing(1, false, 1, 1, false)).(
                     sh := MarkSection(s.sh, r), aux := s.aux.(marked := s.aux.marked[r := Marked(s, r) + {0}]))
    ensures Step(s, LMark(Q), s')
  {
    assert MarkStep(s, s', Q);
  }

  lemma Finished(s: State, r: RunId) returns (s': State)
    requires Working(s, r, Finish(false, false), COUNTED, Running)
    ensures Reached(s') && s'.pcs == map[W := Fin(Claim(ByLastQueue, r, Done, 1, 1, []), Write(0))] && s'.rows == s.rows
  {
    hide Reached;
    s' := s.(pcs := map[W := Fin(Claim(ByLastQueue, r, Done, 1, 1, []), Write(0))], sh := FinishSection(s.sh, r, false, false));
    assert FinishStep(s, s', Q);
    hide FinishStep;
    Take(s, LFinish(Q), s');
  }

  /** The worker up to its first "running" event. */
  lemma AboutToAnnounce(r: RunId) returns (s: State)
    ensures Working(s, r, Publishing(0, false, 1, 0, false), RUNNING, Running) && s.log == map[r := [Event(Queued, 1, 0)]]
  {
    hide Reached, Working;
    s := Started();
    s := Enqueued(s, r);
    s := Dequeued(s, r);
    s := Begun(s, r);
    s := Announced(s, r);
    s := MovesOn(s, r, ReadDone(1), LReadDone(Q), Publishing(0, false, 1, 0, false), RUNNING, Running);
  }

  /** Step i of the execution writes "done" for the run. */
  ghost predicate TurnsDone(ss: seq<State>, ls: seq<Label>, i: int, r: RunId) {
    && IsTrace(ss, ls) && 0 <= i < |ls| && r in ss[i].rows && !ss[i].rows[r].status.Done?
    && r in ss[i + 1].rows && ss[i + 1].rows[r].status.Done?
  }

  /** An execution in which a run is written "done": what DoneIsEarned speaks of does happen. */
  lemma DoneHappens()
    ensures exists ss, ls, i, r :: TurnsDone(ss, ls, i, r)
  {
    hide Working, TurnsDone;
    var r := 1;
    var s := AboutToAnnounce(r);
    s := Published(s, r, 0, RUNNING);
    s := MovesOn(s, r, Loop(0, false), LLoop(Q), Engine(0, false), RUNNING, Running);
    s := Tested(s, r);
    s := MovesOn(s, r, RowLanded(0, false), LAfterRow(Q), Mark(0, false, false), RUNNING, Running);
    s := Counted(s, r);
    s := Published(s, r, 1, COUNTED);
    s := MovesOn(s, r, Loop(1, false), LLoop(Q), Finish(false, false), COUNTED, Running);
    DoneWritten(s, r);
  }

  lemma DoneWritten(s: State, r: RunId)
    requires Working(s, r, Finish(false, false), COUNTED, Running)
    ensures exists ss, ls, i, r :: TurnsDone(ss, ls, i, r)
  {
    hide Reached, TurnsDone;
    var s1 := Finished(s, r);
    var s' := Goto(s1, W, Fin(Claim(ByLastQueue, r, Done, 1, 1, []), Publish)).(rows := s1.rows[r := s1.rows[r].(status := Done)]);
    assert FinWrite(s1, s', W, false);
    LastStep(s1, LFinWrite(W, false), s', r);
  }

  lemma LastStep(s: State, l: Label, s': State, r: RunId)
    requires Reached(s) && Step(s, l, s') && r in s.rows && !s.rows[r].status.Done? && r in s'.rows && s'.rows[r].status.Done?
    ensures exists ss, ls, i, r :: TurnsDone(ss, ls, i, r)
  {
    hide Step;
    var ss, ls :| IsTrace(ss, ls) && ss[|ls|] == s;
    Extend(ss, ls, l, s');
    hide IsTrace;
    ghost var ss', ls', i := ss + [s'], ls + [l], |ls|;
    assert ss'[i] == s && ss'[i + 1] == s';
    assert TurnsDone(ss', ls', i, r);
  }

  // ---------------------------------------------------------------- "running" after a forced "canceled"

  /** The worker is about to publish "running" while Shutdown is at `pc`. */
  ghost predicate Stopping(s: State, r: RunId, pc: Pc, runs: map<RunId, RunState>, status: Status, evs: seq<Event>) {
    && Reached(s) && s.pcs == map[W := Work(Job(r, Q, [0]), Publishing(0, false, 1, 0, false)), B := pc]
    && s.sh.runs == runs && r in s.rows && s.rows[r].status == status && Get(s.log, r) == evs
  }

  lemma Closed(s: State, r: RunId) returns (s': State)
    requires Working(s, r, Publishing(0, false, 1, 0, false), RUNNING, Running)
    ensures Stopping(s', r, Shut(Grace), map[r := RUNNING], Running, Get(s.log, r))
  {
    hide Reached;
    s' := Goto(s, B, Shut(Grace)).(sh := CloseSection(s.sh));
    assert ShutCall(s, s', B);
    Take(s, LShutCall(B), s');
  }

  lemma Expired(s: State, r: RunId, evs: seq<Event>) returns (s': State)
    requires Stopping(s, r, Shut(Grace), map[r := RUNNING], Running, evs)
    ensures Stopping(s', r, Shut(MarkAll(true)), map[r := RUNNING], Running, evs)
  {
    hide Reached;
    s' := Goto(s, B, Shut(MarkAll(true))).(aux := s.aux.(gaveUp := true));
    assert ShutWait(s, s', B, CtxDone);
    Take(s, LShutWait(B, CtxDone), s');
  }

  const FLAGGED := RunState(1, 1, 0, false, true, true)

  lemma Listed(s: State, r: RunId, evs: seq<Event>) returns (s': State)
    requires Stopping(s, r, Shut(MarkAll(true)), map[r := RUNNING], Running, evs)
    ensures Stopping(s', r, Shut(Force([r])), map[r := FLAGGED], Running, evs)
  {
    hide Reached;
    assert MarkAllSection(s.sh).runs == map[r := FLAGGED];
    s' := Goto(s, B, Shut(Force([r]))).(sh := MarkAllSection(s.sh));
    ListStep(s, s', r);
    hide MarkAllSection;
    Take(s, LShutMark(B, [r]), s');
  }

  lemma ListStep(s: State, s': State, r: RunId)
    requires AtShut(s, B) && s.pcs[B] == Shut(MarkAll(true)) && forall x :: x in s.sh.runs <==> x == r
    requires s' == Goto(s, B, Shut(Force([r]))).(sh := MarkAllSection(s.sh))
    ensures Step(s, LShutMark(B, [r]), s')
  {
    assert ShutMark(s, s', B, [r]);
  }

  function ForcedClaim(r: RunId): Claim {
    Claim(ByShutdown, r, Canceled, 1, 0, [])
  }

  lemma Forced(s: State, r: RunId, evs: seq<Event>) returns (s': State)
    requires Stopping(s, r, Shut(Force([r])), map[r := FLAGGED], Running, evs)
    ensures Stopping(s', r, Fin(ForcedClaim(r), Write(0)), map[], Running, evs)
  {
    hide Reached;
    assert s.sh.runs - {r} == map[];
    s' := Goto(s, B, Fin(ForcedClaim(r), Write(0))).(sh := ClaimSection(s.sh, r), aux := s.aux.(forced := s.aux.forced + {r}));
    ClaimStep(s, s', r);
    Take(s, LShutClaim(B), s');
  }

  lemma ClaimStep(s: State, s': State, r: RunId)
    requires AtShut(s, B) && s.pcs[B] == Shut(Force([r])) && r in s.sh.runs && s.sh.runs[r] == FLAGGED
    requires s' == Goto(s, B, Fin(ForcedClaim(r), Write(0))).(sh := ClaimSection(s.sh, r), aux := s.aux.(forced := s.aux.forced + {r}))
    ensures Step(s, LShutClaim(B), s')
  {
    assert [r][1..] == [];
    assert ShutClaim(s, s', B);
  }

  lemma ForceWritten(s: State, r: RunId, evs: seq<Event>) returns (s': State)
    requires Stopping(s, r, Fin(ForcedClaim(r), Write(0)), map[], Running, evs)
    ensures Stopping(s', r, Fin(ForcedClaim(r), End(true)), map[], Canceled, evs)
  {
    hide Reached;
    s' := Goto(s, B, Fin(ForcedClaim(r), End(true))).(rows := s.rows[r := s.rows[r].(status := Canceled)]);
    assert FinWrite(s, s', B, false);
    Take(s, LFinWrite(B, false), s');
  }

  lemma ForceReleased(s: State, r: RunId, evs: seq<Event>) returns (s': State)
    requires Stopping(s, r, Fin(ForcedClaim(r), End(true)), map[], Canceled, evs)
    ensures Stopping(s', r, Fin(ForcedClaim(r), Publish), map[], Canceled, evs)
  {
    hide Reached;
    s' := Goto(s, B, Fin(ForcedClaim(r), Publish)).(sh := s.sh.(finalizing := s.sh.finalizing - {r}));
    assert FinEnd(s, s', B);
    Take(s, LFinEnd(B), s');
  }

  lemma ForcePublished(s: State, r: RunId, evs: seq<Event>) returns (s': State)
    requires Stopping(s, r, Fin(ForcedClaim(r), Publish), map[], Canceled, evs)
    ensures Stopping(s', r, Shut(Force([])), map[], Canceled, evs + [Event(Canceled, 1, 0)])
  {
    hide Reached;
    s' := Goto(Emit(s, r, Event(Canceled, 1, 0)), B, Shut(Force([])));
    assert FinPublish(s, s', B);
    Take(s, LFinPublish(B), s');
  }

  lemma LatePublished(s: State, r: RunId, evs: seq<Event>) returns (s': State)
    requires Stopping(s, r, Shut(Force([])), map[], Canceled, evs)
    ensures Reached(s') && Get(s'.log, r) == evs + [Event(Running, 1, 0)]
  {
    hide Reached;
    s' := Stage(Emit(s, r, Event(Running, 1, 0)), Q, Loop(0, false));
    assert PublishRunning(s, s', Q);
    Take(s, LPublishRunning(Q), s');
  }

  /** When Shutdown's context expires, a worker may publish "running" after the forced "canceled". */
  lemma RunningAfterForcedCancel()
    ensures exists s, r :: Reached(s) && Get(s.log, r) == [Event(Queued, 1, 0), Event(Canceled, 1, 0), Event(Running, 1, 0)]
                           && !WellOrdered(Get(s.log, r))
  {
    hide Reached, Stopping;
    var r := 1;
    var s := AboutToAnnounce(r);
    var evs := [Event(Queued, 1, 0)];
    s := Closed(s, r);
    s := Expired(s, r, evs);
    s := Listed(s, r, evs);
    s := Forced(s, r, evs);
    s := ForceWritten(s, r, evs);
    s := ForceReleased(s, r, evs);
    s := ForcePublished(s, r, evs);
    s := LatePublished(s, r, evs + [Event(Canceled, 1, 0)]);
    var log := Get(s.log, r);
    assert log[1].status.Terminal();
  }

  // ---------------------------------------------------------------- "canceled" after an unwritten "queue full"

  /** Only A is at work, on a run that is not tracked and whose row is still queued. */
  ghost predicate Alone(s: State, r: RunId, pc: Pc, finalizing: set<RunId>, evs: seq<Event>) {
    && Reached(s) && s.pcs == map[A := pc] && r !in s.sh.runs && s.sh.finalizing == finalizing && !s.sh.hooked
    && r in s.rows && s.rows[r].status.Queued? && Get(s.log, r) == evs
  }

  function FullClaim(r: RunId): Claim {
    Claim(ByQueueFull, r, Failed, 1, 0, [])
  }

  lemma Full(s: State, r: RunId) returns (s': State)
    requires Reached(s) && s.pcs == map[A := Enq(REQ, Register(r))] && r !in s.log && s.sh.finalizing == {r} && s.mu == None
    requires s.sh.started && !s.sh.closing && s.sh.cap == 1 && !s.sh.hooked && Get(s.sh.chans, Q) != []
    requires r in s.rows && s.rows[r].status.Queued?
    ensures Alone(s', r, Fin(FullClaim(r), Write(0)), {r}, [Event(Queued, 1, 0)]) && s'.mu == None
  {
    hide Reached, RegisterSection;
    SectionOfOne(s.sh, r);
    var sh' := RegisterSection(s.sh, r, REQ.targets).0;
    assert Get(s.log, r) + [Event(Queued, 1, 0)] == [Event(Queued, 1, 0)];
    s' := Goto(Emit(s, r, Event(Queued, 1, 0)).(
                 sh := sh',
                 aux := s.aux.(registered := s.aux.registered + {r}, sent := Committed(s.aux.sent, s.sh.chans, sh'.chans, r))),
               A, Fin(FullClaim(r), Write(0)));
    assert |REQ.targets| == 1 && RegisterSection(s.sh, r, REQ.targets).1;
    assert EnqRegister(s, s', A);
    Take(s, LEnqRegister(A), s');
  }

  /** The write fails, the outcome is published all the same, and the run is let go. */
  lemma FullUnwritten(s: State, r: RunId, evs: seq<Event>) returns (s': State)
    requires Alone(s, r, Fin(FullClaim(r), Write(0)), {r}, evs)
    ensures Alone(s', r, Fin(FullClaim(r), Publish), {r}, evs) && s'.mu == s.mu
  {
    hide Reached;
    s' := Goto(s, A, Fin(FullClaim(r), Publish)).(aux := s.aux.(lost := s.aux.lost + {r}, fullLost := s.aux.fullLost + {r}));
    assert FinWrite(s, s', A, true);
    Take(s, LFinWrite(A, true), s');
  }

  lemma FullPublished(s: State, r: RunId, evs: seq<Event>) returns (s': State)
    requires Alone(s, r, Fin(FullClaim(r), Publish), {r}, evs)
    ensures Alone(s', r, Fin(FullClaim(r), End(false)), {r}, evs + [Event(Failed, 1, 0)]) && s'.mu == s.mu
  {
    hide Reached;
    s' := Goto(Emit(s, r, Event(Failed, 1, 0)), A, Fin(FullClaim(r), End(false)));
    assert FinPublish(s, s', A);
    Take(s, LFinPublish(A), s');
  }

  /** The refusing Enqueue returns, and a Cancel of the same run begins. */
  lemma CancelBegins(s: State, r: RunId, evs: seq<Event>) returns (s': State)
    requires Alone(s, r, Fin(FullClaim(r), End(false)), {r}, evs) && s.mu == None
    ensures Alone(s', r, Orphan(r, OWait), {}, evs) && s'.mu == None
  {
    hide Reached;
    assert s.pcs - {A} == map[] && s.sh.finalizing - {r} == {};
    var s1 := s.(pcs := map[], sh := s.sh.(finalizing := {}));
    assert FinEnd(s, s1, A);
    Take(s, LFinEnd(A), s1);
    s' := Goto(s1, A, Orphan(r, OWait));
    assert CancelCall(s1, s', A, r);
    Take(s1, LCancel(A, r), s');
  }

  lemma OrphanFound(s: State, r: RunId, evs: seq<Event>) returns (s': State)
    requires Alone(s, r, Orphan(r, OWait), {}, evs) && s.mu == None
    ensures Alone(s', r, Orphan(r, ORead), {}, evs)
  {
    hide Reached;
    var s1 := Goto(s, A, Orphan(r, OCheck)).(mu := Some(A));
    assert OrphanLock(s, s1, A);
    Take(s, LOrphanLock(A), s1);
    s' := Goto(s1, A, Orphan(r, ORead));
    assert OrphanCheck(s1, s', A);
    Take(s1, LOrphanCheck(A), s');
  }

  function OrphanClaim(r: RunId): Claim {
    Claim(ByOrphan, r, Canceled, 0, 0, [])
  }

  lemma OrphanWritten(s: State, r: RunId, evs: seq<Event>) returns (s': State)
    requires Alone(s, r, Orphan(r, ORead), {}, evs)
    ensures Reached(s') && s'.pcs == map[A := Fin(OrphanClaim(r), Publish)] && Get(s'.log, r) == evs
  {
    hide Reached;
    var s1 := Goto(s, A, Fin(OrphanClaim(r), Write(0)));
    assert OrphanRead(s, s1, A, false);
    Take(s, LOrphanRead(A, false), s1);
    s' := OrphanStored(s1, r);
  }

  lemma OrphanStored(s: State, r: RunId) returns (s': State)
    requires Reached(s) && s.pcs == map[A := Fin(OrphanClaim(r), Write(0))] && r in s.rows && s.rows[r].status.Queued?
    ensures Reached(s') && s'.pcs == map[A := Fin(OrphanClaim(r), Publish)] && s'.log == s.log
  {
    hide Reached;
    s' := Goto(s, A, Fin(OrphanClaim(r), Publish)).(rows := s.rows[r := s.rows[r].(status := Canceled)]);
    assert FinWrite(s, s', A, false);
    Take(s, LFinWrite(A, false), s');
  }

  lemma OrphanPublished(s: State, r: RunId, evs: seq<Event>) returns (s': State)
    requires Reached(s) && s.pcs == map[A := Fin(OrphanClaim(r), Publish)] && Get(s.log, r) == evs
    ensures Reached(s') && Get(s'.log, r) == evs + [Event(Canceled, 0, 0)]
  {
    hide Reached;
    s' := Goto(Emit(s, r, Event(Canceled, 0, 0)), A, Fin(OrphanClaim(r), End(false)));
    assert FinPublish(s, s', A);
    Take(s, LFinPublish(A), s');
  }

  /** When the write of "queue full" fails, a Cancel may publish "canceled" after the published "failed". */
  lemma CanceledAfterQueueFull()
    ensures exists s, r :: Reached(s) && Get(s.log, r) == [Event(Queued, 1, 0), Event(Failed, 1, 0), Event(Canceled, 0, 0)]
                           && !WellOrdered(Get(s.log, r))
  {
    hide Reached, Alone;
    var s := Started();
    s := Enqueued(s, 1);
    var s1 := Locked(s, s.sh.runs, Get(s.sh.chans, Q));
    var s2 := Created(s1, 2);
    s := Full(s2, 2);
    var evs := [Event(Queued, 1, 0)];
    s := FullUnwritten(s, 2, evs);
    s := FullPublished(s, 2, evs);
    evs := evs + [Event(Failed, 1, 0)];
    s := CancelBegins(s, 2, evs);
    s := OrphanFound(s, 2, evs);
    s := OrphanWritten(s, 2, evs);
    s := OrphanPublished(s, 2, evs);
    var log := Get(s.log, 2);
    assert log[1].status.Terminal();
  }
}
