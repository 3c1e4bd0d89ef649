/** What Enqueue lets in: when it creates a run, and when it answers "queue full". */
module RunnerAdmission {
  import opened Options
  import opened RunnerTypes
  import opened RunnerModel
  import opened RunnerInvariant
  import opened RunnerEnqueue

  /** Some job meets a channel that holds `cap` jobs: exactly then the sends stop short. */
  lemma {:induction false} SendAllFull(chans: map<QueueId, seq<Job>>, jobs: seq<Job>, cap: nat)
    requires DistinctQueues(jobs)
    ensures SendAll(chans, jobs, cap).1 <==> exists i :: 0 <= i < |jobs| && |Get(chans, jobs[i].queue)| >= cap
    decreases |jobs|
  {
    if jobs != [] && |Get(chans, jobs[0].queue)| < cap {
      var chans1 := chans[jobs[0].queue := Get(chans, jobs[0].queue) + [jobs[0]]];
      SendAllFull(chans1, jobs[1..], cap);
      assert forall i :: 1 <= i < |jobs| ==> jobs[1..][i - 1] == jobs[i] && Get(chans1, jobs[i].queue) == Get(chans, jobs[i].queue);
      if i :| 0 <= i < |jobs| && |Get(chans, jobs[i].queue)| >= cap {
        assert |Get(chans1, jobs[1..][i - 1].queue)| >= cap;
      }
    }
  }

  lemma RegisterFull(sh: Shared, r: RunId, ts: seq<Target>)
    ensures RegisterSection(sh, r, ts).1 <==> exists p :: 0 <= p < |ts| && |Get(sh.chans, ts[p].queue)| >= sh.cap
  {
    var order, jobs := QueueOrder(ts), JobsOf(r, ts);
    QueueOrderSpec(ts);
    var chans0 := WithQueues(sh.chans, order);
    assert forall i :: 0 <= i < |jobs| ==> jobs[i].queue == order[i];
    SendAllFull(chans0, jobs, sh.cap);
    assert forall q :: q in order ==> Get(chans0, q) == Get(sh.chans, q);
    if p :| 0 <= p < |ts| && |Get(sh.chans, ts[p].queue)| >= sh.cap {
      assert ts[p].queue in order;
      var i :| 0 <= i < |order| && order[i] == ts[p].queue;
      assert |Get(chans0, jobs[i].queue)| >= sh.cap;
    }
    if i :| 0 <= i < |jobs| && |Get(chans0, jobs[i].queue)| >= sh.cap {
      assert order[i] in order;
    }
  }

  /** The run a call of Enqueue is about to register. */
  predicate Registering(s: State, a: Agent, r: RunId, ts: seq<Target>) {
    a in s.pcs && s.pcs[a].Enq? && s.pcs[a].es == Register(r) && s.pcs[a].req.targets == ts
  }

  /**
   The registration of a run: refused as "canceled" before Start and after Shutdown; "failed"
   exactly when a queue it needs is full; otherwise the run is tracked, untouched as yet, and
   each queue it names, and no other, has got its job, holding its targets in request order.
   */
  lemma RunIsAdmittedUnless(ss: seq<State>, ls: seq<Label>, n: nat, a: Agent, r: RunId, ts: seq<Target>)
    requires IsTrace(ss, ls) && n < |ls| && ls[n] == LEnqRegister(a) && Registering(ss[n], a, r, ts)
    ensures var s, s' := ss[n], ss[n + 1];
            if s.sh.closing || !s.sh.started then
              s'.pcs == s.pcs[a := Fin(Claim(ByRefusal, r, Canceled, |ts|, 0, []), Write(0))] && s'.sh.chans == s.sh.chans && s'.log == s.log
            else
              && Get(s'.log, r) == Get(s.log, r) + [Event(Queued, |ts|, 0)]
              && if exists p :: 0 <= p < |ts| && |Get(s.sh.chans, ts[p].queue)| >= s.sh.cap then
                   s'.pcs == s.pcs[a := Fin(Claim(ByQueueFull, r, Failed, |ts|, 0, []), Write(0))] && r !in s'.sh.runs
                 else
                   && s'.pcs == s.pcs - {a} && r in s'.sh.runs
                   && s'.sh.runs[r] == RunState(|set p | 0 <= p < |ts| :: ts[p].queue|, |ts|, 0, false, false, false)
                   && forall q :: Get(s'.sh.chans, q) == Get(s.sh.chans, q) +
                                    if exists p :: 0 <= p < |ts| && ts[p].queue == q then [Job(r, q, Positions(ts, q))] else []
  {
    hide Init, RegisterSection, QueueOrder, Positions;
    var s, s' := ss[n], ss[n + 1];
    assert Step(s, ls[n], s');
    hide IsTrace;
    if s.sh.closing || !s.sh.started {
      RefusedRun(s, s', a, r, ts);
    } else {
      hide Step;
      AdmittedRun(s, s', a, r, ts);
    }
  }

  lemma RefusedRun(s: State, s': State, a: Agent, r: RunId, ts: seq<Target>)
    requires EnqRegister(s, s', a) && Registering(s, a, r, ts) && (s.sh.closing || !s.sh.started)
    ensures s'.pcs == s.pcs[a := Fin(Claim(ByRefusal, r, Canceled, |ts|, 0, []), Write(0))] && s'.sh.chans == s.sh.chans && s'.log == s.log
  {
  }

  /** The channels after an unhindered registration. */
  lemma AdmittedChans(s: State, s': State, r: RunId, ts: seq<Target>, q: QueueId)
    requires s'.sh == RegisterSection(s.sh, r, ts).0 && !RegisterSection(s.sh, r, ts).1
    ensures Get(s'.sh.chans, q) == Get(s.sh.chans, q) +
                                   if exists p :: 0 <= p < |ts| && ts[p].queue == q then [Job(r, q, Positions(ts, q))] else []
  {
    RegisterChans(s.sh, r, ts);
    QueueOrderSpec(ts);
    hide RegisterSection, QueueOrder, Positions;
    assert Get(s.sh.chans, q) + [] == Get(s.sh.chans, q);
  }

  lemma QueueCount(ts: seq<Target>)
    ensures |QueueOrder(ts)| == |set p | 0 <= p < |ts| :: ts[p].queue|
  {
    QueueOrderSpec(ts);
    DistinctSize(QueueOrder(ts));
    assert (set q | q in QueueOrder(ts)) == set p | 0 <= p < |ts| :: ts[p].queue;
  }

  lemma AdmittedRun(s: State, s': State, a: Agent, r: RunId, ts: seq<Target>)
    requires EnqRegister(s, s', a) && Registering(s, a, r, ts) && !s.sh.closing && s.sh.started
    ensures Get(s'.log, r) == Get(s.log, r) + [Event(Queued, |ts|, 0)]
    ensures if exists p :: 0 <= p < |ts| && |Get(s.sh.chans, ts[p].queue)| >= s.sh.cap then
              s'.pcs == s.pcs[a := Fin(Claim(ByQueueFull, r, Failed, |ts|, 0, []), Write(0))] && r !in s'.sh.runs
            else
              && s'.pcs == s.pcs - {a} && r in s'.sh.runs
              && s'.sh.runs[r] == RunState(|set p | 0 <= p < |ts| :: ts[p].queue|, |ts|, 0, false, false, false)
              && forall q :: Get(s'.sh.chans, q) == Get(s.sh.chans, q) +
                               if exists p :: 0 <= p < |ts| && ts[p].queue == q then [Job(r, q, Positions(ts, q))] else []
  {
    hide RegisterSection, QueueOrder, Positions;
    RegisterFull(s.sh, r, ts);
    RegisterRest(s.sh, r, ts);
    QueueCount(ts);
    if !RegisterSection(s.sh, r, ts).1 {
      forall q ensures Get(s'.sh.chans, q) == Get(s.sh.chans, q) +
                         if exists p :: 0 <= p < |ts| && ts[p].queue == q then [Job(r, q, Positions(ts, q))] else []
      {
        AdmittedChans(s, s', r, ts, q);
      }
    }
  }

  /**
   Whether a call of Enqueue creates a run: when the look at the table succeeds, exactly if the
   request names no schedule or no run of that schedule is queued or running.
   */
  lemma ScheduleGoesOnUnless(ss: seq<State>, ls: seq<Label>, n: nat, a: Agent)
    requires IsTrace(ss, ls) && n < |ls| && ls[n] == LEnqDedupe(a, false)
    ensures a in ss[n].pcs && ss[n].pcs[a].Enq?
    ensures var s, s', req := ss[n], ss[n + 1], ss[n].pcs[a].req;
            if req.schedule.Some? && exists r :: r in s.rows && s.rows[r].schedule == req.schedule && (s.rows[r].status == Queued || s.rows[r].status == Running)
            then s'.pcs == s.pcs - {a} && s'.mu == None && s'.rows == s.rows
            else s'.pcs == s.pcs[a := Enq(req, Create)] && s'.mu == s.mu
  {
    assert Step(ss[n], ls[n], ss[n + 1]);
    DedupeLooks(ss[n], ss[n + 1], a);
  }

  lemma DedupeLooks(s: State, s': State, a: Agent)
    requires EnqDedupe(s, s', a, false)
    ensures a in s.pcs && s.pcs[a].Enq?
    ensures var req := s.pcs[a].req;
            if req.schedule.Some? && exists r :: r in s.rows && s.rows[r].schedule == req.schedule && (s.rows[r].status == Queued || s.rows[r].status == Running)
            then s'.pcs == s.pcs - {a} && s'.mu == None && s'.rows == s.rows
            else s'.pcs == s.pcs[a := Enq(req, Create)] && s'.mu == s.mu
  {
  }

  /** The row of a new run: a fresh id, queued, with the schedule of the request. */
  lemma RunIsCreated(ss: seq<State>, ls: seq<Label>, n: nat, a: Agent, r: RunId)
    requires IsTrace(ss, ls) && n < |ls| && ls[n] == LEnqCreate(a, false, r)
    ensures a in ss[n].pcs && ss[n].pcs[a].Enq? && r !in ss[n].rows
    ensures ss[n + 1].rows == ss[n].rows[r := Row(Queued, ss[n].pcs[a].req.schedule)]
    ensures ss[n + 1].pcs == ss[n].pcs[a := Enq(ss[n].pcs[a].req, Begin(r))] && ss[n + 1].mu == ss[n].mu
  {
    assert Step(ss[n], ls[n], ss[n + 1]);
  }
}
