/** Enqueue: creating the row, marking it in transit, and handing it to the run map. */
module RunnerEnqueue {
  import opened RunnerTypes
  import opened RunnerModel
  import opened RunnerInvariant
  import opened RunnerProof

  // ---------------------------------------------------------------- creating the row

  lemma FreshIsPrivate(s: State, a: Agent, r: RunId, b: Agent)
    requires LockInv(s) && FlightInv(s) && PcsInv(s) && TablesInv(s)
    requires a in s.pcs && HoldsMu(s.pcs[a]) && r !in s.rows && b in s.pcs && b != a
    ensures !Concerns(s.pcs[b], r) && !Holds(s.pcs[b], r) && !HoldsMu(s.pcs[b])
  {
    var pc := s.pcs[b];
    assert PcInv(s, b, pc);
    if pc.Work? {
      hide PcsInv;
      WorkerJobShape(s, b);
    }
  }

  lemma CreateAlone(s: State, a: Agent, r: RunId)
    requires LockInv(s) && FlightInv(s) && PcsInv(s) && TablesInv(s)
    requires a in s.pcs && HoldsMu(s.pcs[a]) && r !in s.rows
    ensures forall b :: b in s.pcs && b != a ==> !Concerns(s.pcs[b], r) && !Holds(s.pcs[b], r) && !HoldsMu(s.pcs[b])
  {
    hide LockInv, FlightInv, PcsInv, TablesInv;
    forall b | b in s.pcs && b != a ensures !Concerns(s.pcs[b], r) && !Holds(s.pcs[b], r) && !HoldsMu(s.pcs[b]) {
      FreshIsPrivate(s, a, r, b);
    }
  }

  lemma UnknownRun(s: State, r: RunId)
    requires TablesInv(s) && r !in s.rows
    ensures r !in s.aux.reqs
  {
  }

  lemma CreateFrame(s: State, s': State, a: Agent, r: RunId)
    requires RunsInv(s) && TablesInv(s) && EnqCreate(s, s', a, false, r)
    ensures r !in s.sh.runs && Frame(s, s', a, r) && SameJobs(s, s')
    ensures forall x :: x in s.aux.reqs ==> x in s'.aux.reqs && s'.aux.reqs[x] == s.aux.reqs[x]
  {
    assert r !in s.sh.runs by {
      assert r in s.sh.runs ==> TrackedInv(s, r);
    }
    hide RunsInv, TrackedInv;
    UnknownRun(s, r);
    hide TablesInv;
  }

  lemma CreateOwn(s: State, s': State, a: Agent, r: RunId)
    requires PcsInv(s) && TablesInv(s) && EnqCreate(s, s', a, false, r) && r !in s.sh.runs
    ensures PcInv(s', a, s'.pcs[a]) && HoldsMu(s.pcs[a]) && Creating(s'.pcs[a], r)
  {
    assert PcInv(s, a, s.pcs[a]);
  }

  /** A new row activates its own schedule only, and no other creator is inside the lock. */
  lemma FreshSchedules(s: State, s': State, a: Agent, r: RunId)
    requires EnqCreate(s, s', a, false, r) && forall b :: b in s.pcs && b != a ==> !HoldsMu(s.pcs[b])
    ensures forall b :: b != a && b in s.pcs ==> !(s.pcs[b].Enq? && s.pcs[b].es.Create?)
  {
  }

  lemma CreatePcs(s: State, s': State, a: Agent, r: RunId)
    requires LockInv(s) && ClaimsUnique(s) && FlightInv(s) && PcsInv(s) && TablesInv(s) && StrandInv(s)
    requires EnqCreate(s, s', a, false, r) && r !in s.sh.runs && Frame(s, s', a, r)
    ensures LockInv(s') && ClaimsUnique(s') && PcsInv(s') && StrandInv(s')
  {
    CreateOwn(s, s', a, r);
    CreateAlone(s, a, r);
    FreshSchedules(s, s', a, r);
    hide LockInv, ClaimsUnique, FlightInv, PcsInv, TablesInv, StrandInv, Frame, PcInv;
    AgentsKept(s, s', a, r);
  }

  lemma CreateTables(s: State, s': State, a: Agent, r: RunId)
    requires TablesInv(s) && PcsInv(s) && EnqCreate(s, s', a, false, r)
    ensures TablesInv(s')
  {
    assert PcInv(s, a, s.pcs[a]);
    assert forall x :: x in s.aux.reqs && AllOk(s, x) ==> AllOk(s', x);
  }

  lemma KeepsEnqCreate(s: State, s': State, a: Agent, r: RunId)
    requires Inv(s) && EnqCreate(s, s', a, false, r)
    ensures Inv(s')
  {
    hide LockInv, ClaimsUnique, FlightInv, BufferInv, RunsInv, PcsInv, TablesInv, LogInv, StrandInv, OrderInv;
    CreateFrame(s, s', a, r);
    CreatePcs(s, s', a, r);
    CreateTables(s, s', a, r);
    SameFlight(s, s');
    KeepFlight(s, s');
    KeepBuffers(s, s');
    RunsKept(s, s', r);
    LogOfFresh(s, s', r);
    LogsKept(s, s', r);
    KeepOrder(s, s');
  }

  lemma LogOfFresh(s: State, s': State, r: RunId)
    requires LogInv(s) && TablesInv(s) && r !in s.rows && s'.log == s.log && s'.aux.registered == s.aux.registered
    ensures LogOk(s', r)
  {
  }

  // ---------------------------------------------------------------- marking it in transit

  lemma BeginFrame(s: State, s': State, a: Agent)
    requires EnqBegin(s, s', a)
    ensures Frame(s, s', a, s.pcs[a].es.run) && SameJobs(s, s')
  {
  }

  lemma BeginOwn(s: State, s': State, a: Agent)
    requires PcsInv(s) && EnqBegin(s, s', a)
    ensures var r := s.pcs[a].es.run;
            PcInv(s', a, s'.pcs[a]) && Holds(s.pcs[a], r) && r !in s.aux.registered
  {
    assert PcInv(s, a, s.pcs[a]);
  }

  lemma BeginPcs(s: State, s': State, a: Agent)
    requires LockInv(s) && ClaimsUnique(s) && FlightInv(s) && PcsInv(s) && StrandInv(s)
    requires EnqBegin(s, s', a) && Frame(s, s', a, s.pcs[a].es.run)
    ensures LockInv(s') && ClaimsUnique(s') && PcsInv(s') && StrandInv(s')
  {
    BeginOwn(s, s', a);
    UnregisteredIsPrivate(s, a, s.pcs[a].es.run);
    hide LockInv, ClaimsUnique, FlightInv, PcsInv, StrandInv, Frame, PcInv;
    AgentsKept(s, s', a, s.pcs[a].es.run);
  }

  lemma BeginTables(s: State, s': State, a: Agent)
    requires TablesInv(s) && PcsInv(s) && EnqBegin(s, s', a)
    ensures TablesInv(s') && s.pcs[a].es.run !in s.sh.runs
  {
    assert PcInv(s, a, s.pcs[a]);
    assert forall x :: x in s.aux.reqs && AllOk(s, x) ==> AllOk(s', x);
  }

  lemma KeepsEnqBegin(s: State, s': State, a: Agent)
    requires Inv(s) && EnqBegin(s, s', a)
    ensures Inv(s')
  {
    hide LockInv, ClaimsUnique, FlightInv, BufferInv, RunsInv, PcsInv, TablesInv, LogInv, StrandInv, OrderInv;
    BeginFrame(s, s', a);
    BeginPcs(s, s', a);
    BeginTables(s, s', a);
    SameFlight(s, s');
    KeepFlight(s, s');
    KeepBuffers(s, s');
    RunsKept(s, s', s.pcs[a].es.run);
    KeepLog(s, s');
    KeepOrder(s, s');
  }

  // ---------------------------------------------------------------- refused

  lemma RefuseOwn(s: State, s': State, a: Agent)
    requires PcsInv(s) && EnqRegister(s, s', a) && (s.sh.closing || !s.sh.started)
    ensures PcInv(s', a, s'.pcs[a])
  {
    assert PcInv(s, a, s.pcs[a]);
  }

  lemma RefuseFrame(s: State, s': State, a: Agent, r: RunId)
    requires EnqRegister(s, s', a) && (s.sh.closing || !s.sh.started) && r == s.pcs[a].es.run
    ensures Frame(s, s', a, r) && SameRun(s, s', r) && SameJobs(s, s')
  {
  }

  lemma RefusePcs(s: State, s': State, a: Agent)
    requires LockInv(s) && ClaimsUnique(s) && PcsInv(s) && StrandInv(s)
    requires EnqRegister(s, s', a) && (s.sh.closing || !s.sh.started)
    ensures LockInv(s') && ClaimsUnique(s') && PcsInv(s') && StrandInv(s') && SameJobs(s, s')
  {
    var r := s.pcs[a].es.run;
    RefuseOwn(s, s', a);
    RefuseFrame(s, s', a, r);
    hide LockInv, ClaimsUnique, PcsInv, StrandInv, Frame, PcInv;
    AgentsKept(s, s', a, r);
  }

  lemma KeepsEnqRefused(s: State, s': State, a: Agent)
    requires Inv(s) && EnqRegister(s, s', a) && (s.sh.closing || !s.sh.started)
    ensures Inv(s')
  {
    hide LockInv, ClaimsUnique, FlightInv, BufferInv, RunsInv, PcsInv, TablesInv, LogInv, StrandInv, OrderInv;
    RefusePcs(s, s', a);
    SameFlight(s, s');
    KeepFlight(s, s');
    KeepBuffers(s, s');
    KeepRuns(s, s');
    KeepTables(s, s');
    KeepLog(s, s');
    KeepOrder(s, s');
  }

  // ---------------------------------------------------------------- accepted, or queue full

  ghost predicate DistinctQueues(jobs: seq<Job>) {
    forall i, j :: 0 <= i < j < |jobs| ==> jobs[i].queue != jobs[j].queue
  }

  /** Each channel gets at most the one job meant for it; unless one was full, it gets it. */
  lemma {:induction false} SendAllSpec(chans: map<QueueId, seq<Job>>, jobs: seq<Job>, cap: nat)
    requires DistinctQueues(jobs) && forall i :: 0 <= i < |jobs| ==> jobs[i].queue in chans
    ensures var (c, full) := SendAll(chans, jobs, cap);
            && c.Keys == chans.Keys
            && (forall q :: q in c && c[q] != chans[q] ==>
                  exists i :: 0 <= i < |jobs| && jobs[i].queue == q && c[q] == chans[q] + [jobs[i]])
            && (!full ==> forall i :: 0 <= i < |jobs| ==> c[jobs[i].queue] == chans[jobs[i].queue] + [jobs[i]])
    decreases |jobs|
  {
    if jobs != [] && |Get(chans, jobs[0].queue)| < cap {
      var q0 := jobs[0].queue;
      var chans1 := chans[q0 := chans[q0] + [jobs[0]]];
      var (c, full) := SendAll(chans, jobs, cap);
      SendAllSpec(chans1, jobs[1..], cap);
      assert forall i :: 1 <= i < |jobs| ==> jobs[1..][i - 1] == jobs[i];
      assert c[q0] == chans1[q0];
      forall q | q in c && c[q] != chans[q]
        ensures exists i :: 0 <= i < |jobs| && jobs[i].queue == q && c[q] == chans[q] + [jobs[i]]
      {
        if q == q0 {
          assert jobs[0].queue == q;
        } else {
          var i :| 0 <= i < |jobs[1..]| && jobs[1..][i].queue == q && c[q] == chans1[q] + [jobs[1..][i]];
          assert jobs[i + 1].queue == q;
        }
      }
      if !full {
        forall i | 0 <= i < |jobs| ensures c[jobs[i].queue] == chans[jobs[i].queue] + [jobs[i]] {
          if i > 0 {
            assert jobs[1..][i - 1] == jobs[i];
          }
        }
      }
    }
  }

  /** What registering run `r` does to the channels. */
  lemma RegisterChans(sh: Shared, r: RunId, ts: seq<Target>)
    ensures var (sh', full) := RegisterSection(sh, r, ts);
            && (forall q :: q in sh'.chans <==> q in sh.chans || q in QueueOrder(ts))
            && (forall q :: Get(sh'.chans, q) == Get(sh.chans, q) ||
                            (q in QueueOrder(ts) && Get(sh'.chans, q) == Get(sh.chans, q) + [JobFor(r, ts, q)]))
            && (!full ==> forall q :: q in QueueOrder(ts) ==> Get(sh'.chans, q) == Get(sh.chans, q) + [JobFor(r, ts, q)])
  {
    var order, jobs := QueueOrder(ts), JobsOf(r, ts);
    QueueOrderSpec(ts);
    var chans0 := WithQueues(sh.chans, order);
    assert forall i :: 0 <= i < |jobs| ==> jobs[i].queue == order[i];
    SendAllSpec(chans0, jobs, sh.cap);
    var (c, full) := SendAll(chans0, jobs, sh.cap);
    assert c.Keys == chans0.Keys;
    if !full {
      forall q | q in order ensures c[q] == chans0[q] + [JobFor(r, ts, q)] {
        var i :| 0 <= i < |order| && order[i] == q;
        assert jobs[i] == JobFor(r, ts, q);
      }
    }
  }

  /** What the accepting section of Enqueue does, with the channel sends summed up. */
  ghost predicate Registers(s: State, s': State, a: Agent, r: RunId, ts: seq<Target>, order: seq<QueueId>, full: bool) {
    && a in s.pcs && s.pcs[a].Enq? && s.pcs[a].es == Register(r) && s.pcs[a].req.targets == ts
    && order == QueueOrder(ts) && !s.sh.closing && s.sh.started
    && s'.rows == s.rows && s'.results == s.results && s'.mu == s.mu
    && s'.log == s.log[r := Get(s.log, r) + [Event(Queued, |ts|, 0)]]
    && s'.aux == s.aux.(registered := s.aux.registered + {r}, sent := Committed(s.aux.sent, s.sh.chans, s'.sh.chans, r))
    && (forall q :: q in s'.sh.chans <==> q in s.sh.chans || q in order)
    && (forall q :: Extends(Get(s.sh.chans, q), Get(s'.sh.chans, q), r, ts, q))
    && (forall q :: Get(s'.sh.chans, q) != Get(s.sh.chans, q) ==> q in order)
    && (!full ==> forall q :: q in order ==> Get(s'.sh.chans, q) != Get(s.sh.chans, q))
    && s'.sh.closing == s.sh.closing && s'.sh.closed == s.sh.closed
    && (if full then
          && s'.pcs == s.pcs[a := Fin(Claim(ByQueueFull, r, Failed, |ts|, 0, []), Write(0))]
          && s'.sh.runs == s.sh.runs - {r} && s'.sh.finalizing == s.sh.finalizing
        else
          && s'.pcs == s.pcs - {a}
          && s'.sh.runs == s.sh.runs[r := RunState(|order|, |ts|, 0, false, false, false)]
          && s'.sh.finalizing == s.sh.finalizing - {r})
  }

  /** The channel is as before, or got the job of `r` for it. */
  ghost predicate Extends(before: seq<Job>, after: seq<Job>, r: RunId, ts: seq<Target>, q: QueueId) {
    after == before || after == before + [JobFor(r, ts, q)]
  }

  /** What it does to everything but the channels and the workers. */
  lemma RegisterRest(sh: Shared, r: RunId, ts: seq<Target>)
    ensures var (sh', full) := RegisterSection(sh, r, ts);
            && sh'.closing == sh.closing && sh'.closed == sh.closed
            && sh'.runs == (if full then sh.runs - {r} else sh.runs[r := RunState(|QueueOrder(ts)|, |ts|, 0, false, false, false)])
            && sh'.finalizing == (if full then sh.finalizing else sh.finalizing - {r})
  {
    hide SendAll, QueueOrder, Positions, WithQueues, JobsOf, NewQueues;
  }

  lemma RegisterSummary(s: State, s': State, a: Agent) returns (r: RunId, ts: seq<Target>, order: seq<QueueId>, full: bool)
    requires EnqRegister(s, s', a) && !s.sh.closing && s.sh.started
    ensures Registers(s, s', a, r, ts, order, full)
  {
    hide RegisterSection;
    r, ts := s.pcs[a].es.run, s.pcs[a].req.targets;
    order := QueueOrder(ts);
    full := RegisterSection(s.sh, r, ts).1;
    RegisterChans(s.sh, r, ts);
    RegisterRest(s.sh, r, ts);
  }

  lemma RegisterFrame(s: State, s': State, a: Agent, r: RunId, ts: seq<Target>, order: seq<QueueId>, full: bool)
    requires Registers(s, s', a, r, ts, order, full)
    ensures Frame(s, s', a, r)
  {
    hide QueueOrder, Positions;
  }

  lemma RegisterOwn(s: State, s': State, a: Agent, r: RunId, ts: seq<Target>, order: seq<QueueId>, full: bool)
    requires PcsInv(s) && Registers(s, s', a, r, ts, order, full)
    ensures Holds(s.pcs[a], r) && r !in s.aux.registered && (full ==> PcInv(s', a, s'.pcs[a]))
    ensures forall q :: Worker(q) in s.pcs ==> !s.pcs[Worker(q)].Exited?
  {
    hide QueueOrder, Positions;
    assert PcInv(s, a, s.pcs[a]);
    forall q | Worker(q) in s.pcs ensures !s.pcs[Worker(q)].Exited? {
      assert PcInv(s, Worker(q), s.pcs[Worker(q)]);
    }
  }

  lemma RegisterPcs(s: State, s': State, a: Agent, r: RunId, ts: seq<Target>, order: seq<QueueId>, full: bool)
    requires LockInv(s) && ClaimsUnique(s) && FlightInv(s) && PcsInv(s) && StrandInv(s)
    requires Registers(s, s', a, r, ts, order, full) && Frame(s, s', a, r)
    ensures LockInv(s') && ClaimsUnique(s') && PcsInv(s') && StrandInv(s')
  {
    hide QueueOrder, Positions, LockInv, ClaimsUnique, FlightInv, PcsInv, StrandInv, Frame, PcInv;
    RegisterOwn(s, s', a, r, ts, order, full);
    UnregisteredIsPrivate(s, a, r);
    AgentsKept(s, s', a, r);
  }

  lemma RegisterTables(s: State, s': State, a: Agent, r: RunId, ts: seq<Target>, order: seq<QueueId>, full: bool)
    requires TablesInv(s) && PcsInv(s) && Registers(s, s', a, r, ts, order, full)
    ensures TablesInv(s')
  {
    hide QueueOrder, Positions;
    assert PcInv(s, a, s.pcs[a]);
    assert forall x :: x in s.aux.reqs && AllOk(s, x) ==> AllOk(s', x);
  }

  /** Nothing is known of `r` yet: no result row, no mark, no job, no event. */
  lemma RegisterUntouched(s: State, a: Agent, r: RunId)
    requires FlightInv(s) && PcsInv(s) && TablesInv(s)
    requires a in s.pcs && Creating(s.pcs[a], r)
    ensures Marked(s, r) == {} && r !in s.log && r !in s.sh.runs && r !in s.aux.registered
    ensures Pending(s, r) && r in s.aux.reqs && s.aux.reqs[r] == s.pcs[a].req && |s.pcs[a].req.targets| > 0
    ensures forall p: nat :: Get(s.results, (r, p)) == []
    ensures forall q :: !InFlight(s, r, q)
  {
    assert PcInv(s, a, s.pcs[a]);
    forall q, i | 0 <= i < |Flight(s, q)| ensures Flight(s, q)[i].run != r {
      assert JobShape(s, q, Flight(s, q)[i]);
    }
    forall p: nat ensures Get(s.results, (r, p)) == [] {
      assert (r, p) in s.results ==> (r, p).0 in s.aux.registered;
    }
  }

  lemma RegisterFlight(s: State, s': State, a: Agent, r: RunId, ts: seq<Target>, order: seq<QueueId>, full: bool, q: QueueId)
    requires Registers(s, s', a, r, ts, order, full)
    ensures Extends(Flight(s, q), Flight(s', q), r, ts, q)
    ensures Flight(s', q) != Flight(s, q) ==> q in order
    ensures !full && q in order ==> Flight(s', q) == Flight(s, q) + [JobFor(r, ts, q)]
    ensures At(s', q) == At(s, q)
  {
    hide QueueOrder, Positions;
    assert Worker(q) != a ==> PcOf(s', Worker(q)) == PcOf(s, Worker(q));
    assert At(s', q) == At(s, q) && (At(s, q) ==> JobAt(s', q) == JobAt(s, q));
    assert Extends(Get(s.sh.chans, q), Get(s'.sh.chans, q), r, ts, q);
  }

  lemma RegisterKeepsFlight(s: State, s': State, a: Agent, r: RunId, ts: seq<Target>, order: seq<QueueId>, full: bool)
    requires FlightInv(s) && Registers(s, s', a, r, ts, order, full)
    requires r in s.aux.reqs && s.aux.reqs[r].targets == ts && forall q :: !InFlight(s, r, q)
    ensures FlightInv(s')
  {
    hide QueueOrder, Positions;
    forall q ensures DistinctRuns(Flight(s', q)) && (At(s', q) ==> q in s'.sh.chans) {
      RegisterFlight(s, s', a, r, ts, order, full, q);
      assert DistinctRuns(Flight(s, q));
      assert !InFlight(s, r, q);
    }
    forall q, i | 0 <= i < |Flight(s', q)| ensures JobShape(s', q, Flight(s', q)[i]) {
      RegisterFlight(s, s', a, r, ts, order, full, q);
      if i < |Flight(s, q)| {
        assert JobShape(s, q, Flight(s, q)[i]);
      }
    }
  }

  lemma RegisterOpen(s: State, s': State, a: Agent, r: RunId, ts: seq<Target>, order: seq<QueueId>, full: bool, x: RunId)
    requires FlightInv(s) && Registers(s, s', a, r, ts, order, full)
    requires forall q :: !InFlight(s, r, q)
    ensures x != r ==> Open(s', x) == Open(s, x)
    ensures x == r && !full ==> Open(s', x) == set q | q in order
  {
    hide QueueOrder, Positions;
    forall q
      ensures x != r ==> (q in Open(s', x) <==> q in Open(s, x))
      ensures x == r && !full ==> (q in Open(s', x) <==> q in order)
    {
      RegisterFlight(s, s', a, r, ts, order, full, q);
      RegisterInFlight(s, s', r, ts, q, x);
      assert InFlight(s, x, q) ==> q in s.sh.chans;
    }
  }

  lemma RegisterInFlight(s: State, s': State, r: RunId, ts: seq<Target>, q: QueueId, x: RunId)
    requires Extends(Flight(s, q), Flight(s', q), r, ts, q)
    ensures InFlight(s', x, q) <==> InFlight(s, x, q) || (x == r && Flight(s', q) != Flight(s, q))
  {
    hide QueueOrder, Positions;
    if Flight(s', q) != Flight(s, q) {
      var n := |Flight(s, q)|;
      assert Flight(s', q)[n].run == r;
      if InFlight(s, x, q) {
        var i :| 0 <= i < n && Flight(s, q)[i].run == x;
        assert Flight(s', q)[i].run == x;
      }
    }
  }

  lemma {:induction false} DistinctSize(order: seq<QueueId>)
    requires Distinct(order)
    ensures |set q | q in order| == |order|
  {
    if order != [] {
      var n := |order| - 1;
      DistinctSize(order[..n]);
      assert order == order[..n] + [order[n]];
      assert (set q | q in order) == (set q | q in order[..n]) + {order[n]};
    }
  }

  lemma RegisterTracked(s: State, s': State, a: Agent, r: RunId, ts: seq<Target>, order: seq<QueueId>)
    requires Registers(s, s', a, r, ts, order, false) && Frame(s, s', a, r)
    requires Marked(s, r) == {} && Pending(s, r) && r in s.aux.reqs && s.aux.reqs[r].targets == ts && |ts| > 0
    requires Open(s', r) == set q | q in order
    ensures r in s'.sh.runs && TrackedInv(s', r)
  {
    QueueOrderSpec(ts);
    DistinctSize(order);
    assert ts[0].queue in order;
  }

  lemma RegisterRuns(s: State, s': State, a: Agent, r: RunId, ts: seq<Target>, order: seq<QueueId>, full: bool)
    requires FlightInv(s) && PcsInv(s) && TablesInv(s) && RunsInv(s)
    requires Registers(s, s', a, r, ts, order, full) && Frame(s, s', a, r)
    ensures RunsInv(s') && FlightInv(s')
  {
    hide FlightInv, PcsInv, TablesInv, RunsInv, Frame, QueueOrder, Positions;
    RegisterUntouched(s, a, r);
    RegisterKeepsFlight(s, s', a, r, ts, order, full);
    forall x ensures x != r ==> Open(s', x) == Open(s, x) {
      RegisterOpen(s, s', a, r, ts, order, full, x);
    }
    RegisterOpen(s, s', a, r, ts, order, full, r);
    if !full {
      RegisterTracked(s, s', a, r, ts, order);
    }
    FrameParts(s, s', a, r);
    RunsKept(s, s', r);
  }

  lemma RegisterBuffers(s: State, s': State, a: Agent, r: RunId, ts: seq<Target>, order: seq<QueueId>, full: bool)
    requires FlightInv(s) && PcsInv(s) && TablesInv(s) && BufferInv(s)
    requires Registers(s, s', a, r, ts, order, full) && Frame(s, s', a, r)
    ensures BufferInv(s')
  {
    hide PcsInv, TablesInv, FlightInv, BufferInv, Registers, Frame, FreshFrom, MarkedTo;
    forall q, i | q in s'.sh.chans && 0 <= i < |s'.sh.chans[q]|
      ensures FreshFrom(s', s'.sh.chans[q][i], 0) && MarkedTo(s', s'.sh.chans[q][i], 0)
    {
      RegisterBuffer(s, s', a, r, ts, order, full, q, i);
    }
    BuffersHold(s');
  }

  lemma BuffersHold(s: State)
    requires forall q, i :: q in s.sh.chans && 0 <= i < |s.sh.chans[q]| ==>
                              FreshFrom(s, s.sh.chans[q][i], 0) && MarkedTo(s, s.sh.chans[q][i], 0)
    ensures BufferInv(s)
  {
    hide FreshFrom, MarkedTo;
  }

  lemma RegisterBuffer(s: State, s': State, a: Agent, r: RunId, ts: seq<Target>, order: seq<QueueId>, full: bool, q: QueueId, i: nat)
    requires FlightInv(s) && PcsInv(s) && TablesInv(s) && BufferInv(s)
    requires Registers(s, s', a, r, ts, order, full) && Frame(s, s', a, r)
    requires q in s'.sh.chans && i < |s'.sh.chans[q]|
    ensures FreshFrom(s', s'.sh.chans[q][i], 0) && MarkedTo(s', s'.sh.chans[q][i], 0)
  {
    hide QueueOrder, Positions, PcsInv, TablesInv, FlightInv;
    RegisterUntouched(s, a, r);
    var job := s'.sh.chans[q][i];
    assert Extends(Get(s.sh.chans, q), Get(s'.sh.chans, q), r, ts, q);
    if i < |Get(s.sh.chans, q)| {
      assert job == s.sh.chans[q][i];
      BufferedIsRegistered(s, q, i);
      assert job.run != r;
      assert SameRun(s, s', job.run);
    }
  }

  lemma BufferedIsRegistered(s: State, q: QueueId, i: nat)
    requires FlightInv(s) && q in s.sh.chans && i < |s.sh.chans[q]|
    ensures s.sh.chans[q][i].run in s.aux.registered
  {
    assert Flight(s, q)[(if At(s, q) then 1 else 0) + i] == s.sh.chans[q][i];
  }

  lemma RegisterLog(s: State, s': State, a: Agent, r: RunId, ts: seq<Target>, order: seq<QueueId>, full: bool)
    requires FlightInv(s) && PcsInv(s) && TablesInv(s)
    requires Registers(s, s', a, r, ts, order, full)
    ensures LogOk(s', r)
  {
    hide QueueOrder, Positions;
    RegisterUntouched(s, a, r);
    assert Get(s'.log, r) == [Event(Queued, |ts|, 0)];
  }

  lemma RunsOfAppend(jobs: seq<Job>, job: Job)
    ensures RunsOf(jobs + [job]) == RunsOf(jobs) + [job.run]
  {
  }

  lemma RegisterOrder(s: State, s': State, a: Agent, r: RunId, ts: seq<Target>, order: seq<QueueId>, full: bool)
    requires OrderInv(s) && Registers(s, s', a, r, ts, order, full)
    ensures OrderInv(s')
  {
    hide QueueOrder, Positions;
    forall q ensures Get(s'.aux.sent, q) == Get(s'.aux.taken, q) + RunsOf(Get(s'.sh.chans, q)) {
      var before, after := Get(s.sh.chans, q), Get(s'.sh.chans, q);
      assert Extends(before, after, r, ts, q);
      assert Get(s.aux.sent, q) == Get(s.aux.taken, q) + RunsOf(before);
      if after != before {
        RunsOfAppend(before, JobFor(r, ts, q));
      }
    }
  }

  lemma KeepsEnqRegister(s: State, s': State, a: Agent)
    requires Inv(s) && EnqRegister(s, s', a) && !s.sh.closing && s.sh.started
    ensures Inv(s')
  {
    hide LockInv, ClaimsUnique, FlightInv, BufferInv, RunsInv, PcsInv, TablesInv, LogInv, StrandInv, OrderInv, Registers, Frame, EnqRegister;
    var r, ts, order, full := RegisterSummary(s, s', a);
    RegisterFrame(s, s', a, r, ts, order, full);
    FrameParts(s, s', a, r);
    RegisterPcs(s, s', a, r, ts, order, full);
    RegisterTables(s, s', a, r, ts, order, full);
    RegisterRuns(s, s', a, r, ts, order, full);
    RegisterBuffers(s, s', a, r, ts, order, full);
    RegisterLog(s, s', a, r, ts, order, full);
    LogsKept(s, s', r);
    RegisterOrder(s, s', a, r, ts, order, full);
  }
}
