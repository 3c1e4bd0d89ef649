module RunnerProof {
  import opened Options
  import opened RunnerTypes
  import opened RunnerModel
  import opened RunnerInvariant

  // ---------------------------------------------------------------- frames

  /** No job was sent, taken or finished. */
  ghost predicate SameJobs(s: State, s': State) {
    && s'.sh.chans == s.sh.chans
    && forall q :: At(s', q) == At(s, q) && (At(s, q) ==> JobAt(s', q) == JobAt(s, q))
  }

  lemma SameFlight(s: State, s': State)
    requires SameJobs(s, s')
    ensures forall q :: Flight(s', q) == Flight(s, q)
    ensures forall r :: Open(s', r) == Open(s, r)
  {
    forall q ensures Flight(s', q) == Flight(s, q) {
      assert At(s', q) == At(s, q);
    }
    forall r ensures Open(s', r) == Open(s, r) {
      assert forall q :: InFlight(s', r, q) == InFlight(s, r, q);
    }
  }

  lemma KeepFlight(s: State, s': State)
    requires FlightInv(s) && SameJobs(s, s')
    requires s.aux.registered <= s'.aux.registered
    requires forall r :: r in s.aux.reqs ==> r in s'.aux.reqs && s'.aux.reqs[r] == s.aux.reqs[r]
    ensures FlightInv(s')
  {
    SameFlight(s, s');
    forall q, i | 0 <= i < |Flight(s', q)| ensures JobShape(s', q, Flight(s', q)[i]) {
      assert JobShape(s, q, Flight(s, q)[i]);
    }
  }

  lemma KeepBuffers(s: State, s': State)
    requires BufferInv(s) && s'.sh.chans == s.sh.chans
    requires s'.results == s.results && s'.aux.marked == s.aux.marked && s'.sh.runs.Keys <= s.sh.runs.Keys
    ensures BufferInv(s')
  {
    forall q, i | q in s'.sh.chans && 0 <= i < |s'.sh.chans[q]|
      ensures FreshFrom(s', s'.sh.chans[q][i], 0) && MarkedTo(s', s'.sh.chans[q][i], 0)
    {
      assert FreshFrom(s, s.sh.chans[q][i], 0) && MarkedTo(s, s.sh.chans[q][i], 0);
    }
  }

  lemma KeepRun(s: State, s': State, r: RunId)
    requires r in s.sh.runs && TrackedInv(s, r)
    requires r in s'.sh.runs && s'.sh.runs[r] == s.sh.runs[r]
    requires Pending(s', r) && r in s'.aux.registered && r !in s'.sh.finalizing
    requires r in s'.aux.reqs && s'.aux.reqs[r] == s.aux.reqs[r]
    requires Marked(s', r) == Marked(s, r) && Open(s', r) == Open(s, r)
    requires forall p :: Get(s'.results, (r, p)) == Get(s.results, (r, p))
    ensures TrackedInv(s', r)
  {
  }

  lemma KeepRuns(s: State, s': State)
    requires RunsInv(s) && forall r :: r in s.sh.runs ==> Open(s', r) == Open(s, r)
    requires s'.sh.runs == s.sh.runs && s'.sh.finalizing == s.sh.finalizing
    requires s'.rows == s.rows && s'.results == s.results
    requires s'.aux.registered == s.aux.registered && s'.aux.reqs == s.aux.reqs && s'.aux.marked == s.aux.marked
    ensures RunsInv(s')
  {
    forall r | r in s'.sh.runs ensures TrackedInv(s', r) {
      KeepRun(s, s', r);
    }
  }

  lemma KeepTables(s: State, s': State)
    requires TablesInv(s)
    requires s'.rows == s.rows && s'.results == s.results && s'.log.Keys == s.log.Keys
    requires s'.aux.registered == s.aux.registered && s'.aux.reqs == s.aux.reqs && s'.aux.marked == s.aux.marked
    requires s'.sh.finalizing <= s.sh.finalizing && s'.sh.closed == s.sh.closed && s'.sh.closing == s.sh.closing
    requires s'.sh.chans.Keys == s.sh.chans.Keys
    ensures TablesInv(s')
  {
    assert forall r :: r in s'.aux.reqs ==> AllOk(s', r) == AllOk(s, r);
  }

  lemma KeepLog(s: State, s': State)
    requires LogInv(s) && s'.rows == s.rows && s'.log == s.log && s'.aux.registered == s.aux.registered
    requires forall r :: Calm(s', r) ==> Calm(s, r)
    ensures LogInv(s')
  {
    forall r ensures LogOk(s', r) {
      assert LogOk(s, r);
    }
  }

  lemma KeepShared(s: State, s': State)
    requires FlightInv(s) && BufferInv(s) && RunsInv(s) && TablesInv(s) && LogInv(s) && OrderInv(s)
    requires s' == s.(pcs := s'.pcs, mu := s'.mu) && SameJobs(s, s')
    ensures FlightInv(s') && BufferInv(s') && RunsInv(s') && TablesInv(s') && LogInv(s') && OrderInv(s')
  {
    SameFlight(s, s');
    KeepFlight(s, s');
    KeepBuffers(s, s');
    KeepRuns(s, s');
    KeepTables(s, s');
    KeepLog(s, s');
  }

  // ---------------------------------------------------------------- counting

  lemma {:induction false} BoundedSetSize(m: set<nat>, n: nat)
    requires forall p :: p in m ==> p < n
    ensures |m| <= n
  {
    if n > 0 {
      BoundedSetSize(m - {n - 1}, n - 1);
    } else {
      assert m == {};
    }
  }

  /** The stepper never passes the number of targets. */
  lemma DoneBounded(s: State, r: RunId)
    requires r in s.sh.runs && TrackedInv(s, r)
    ensures s.sh.runs[r].done <= s.sh.runs[r].total
  {
    BoundedSetSize(Marked(s, r), s.sh.runs[r].total);
  }

  // ---------------------------------------------------------------- frames for one run

  /** Nothing an agent's invariant says about `r` has changed. */
  ghost predicate SameRun(s: State, s': State, r: RunId) {
    && (r in s'.rows <==> r in s.rows) && (r in s.rows ==> s'.rows[r] == s.rows[r])
    && (r in s'.sh.runs <==> r in s.sh.runs)
    && (r in s.sh.runs ==> s'.sh.runs[r].started == s.sh.runs[r].started)
    && (r in s'.sh.finalizing <==> r in s.sh.finalizing)
    && (r in s'.aux.registered <==> r in s.aux.registered)
    && (r in s'.aux.reqs <==> r in s.aux.reqs) && (r in s.aux.reqs ==> s'.aux.reqs[r] == s.aux.reqs[r])
    && Marked(s', r) == Marked(s, r)
    && (forall p :: Get(s'.results, (r, p)) == Get(s.results, (r, p)))
    && (r in s'.log <==> r in s.log) && Get(s'.log, r) == Get(s.log, r)
    && (r in s'.aux.fullLost <==> r in s.aux.fullLost)
    && (r in s'.aux.forced <==> r in s.aux.forced)
  }

  /** Changes that can only help: closing and giving up are for good. */
  ghost predicate Forward(s: State, s': State) {
    && (s.sh.closing ==> s'.sh.closing)
    && (s.aux.gaveUp ==> s'.aux.gaveUp)
    && (s.sh.closing ==> s'.sh.runs.Keys <= s.sh.runs.Keys)
  }

  predicate Concerns(pc: Pc, r: RunId) {
    match pc
    case Enq(_, es) => (es.Begin? || es.Held? || es.Register?) && es.run == r
    case Orphan(x, os) => os.ORead? && x == r
    case Work(job, _) => job.run == r
    case Fin(c, _) => c.run == r
    case _ => false
  }

  lemma EnqKept(s: State, s': State, pc: Pc)
    requires pc.Enq? && EnqInv(s, pc)
    requires forall r :: Concerns(pc, r) ==> SameRun(s, s', r)
    requires pc.es.Create? && ActiveForSchedule(s'.rows, pc.req.schedule) ==> ActiveForSchedule(s.rows, pc.req.schedule)
    ensures EnqInv(s', pc)
  {
    if pc.es.Begin? || pc.es.Held? || pc.es.Register? {
      assert SameRun(s, s', pc.es.run);
    }
  }

  lemma WorkKept(s: State, s': State, job: Job, ws: WorkStage)
    requires WorkInv(s, job, ws)
    requires job.run in s'.sh.runs ==> job.run in s.sh.runs
    requires job.run in s.aux.reqs ==> job.run in s'.aux.reqs && s'.aux.reqs[job.run] == s.aux.reqs[job.run]
    requires Marked(s', job.run) == Marked(s, job.run)
    requires forall p :: Get(s'.results, (job.run, p)) == Get(s.results, (job.run, p))
    ensures WorkInv(s', job, ws)
  {
    assert forall k :: FreshFrom(s, job, k) ==> FreshFrom(s', job, k);
    assert forall k :: MarkedTo(s, job, k) ==> MarkedTo(s', job, k);
    assert forall k :: OkUpTo(s, job, k) ==> OkUpTo(s', job, k);
  }

  lemma FinKept(s: State, s': State, pc: Pc)
    requires pc.Fin? && FinInv(s, pc) && Forward(s, s') && SameRun(s, s', pc.claim.run)
    ensures FinInv(s', pc)
  {
  }

  lemma PcKept(s: State, s': State, b: Agent, pc: Pc)
    requires PcInv(s, b, pc) && Forward(s, s')
    requires forall r :: Concerns(pc, r) ==> SameRun(s, s', r)
    requires pc.Enq? && pc.es.Create? && ActiveForSchedule(s'.rows, pc.req.schedule) ==> ActiveForSchedule(s.rows, pc.req.schedule)
    requires pc.Exited? && b.Worker? ==> Get(s'.sh.chans, b.queue) == Get(s.sh.chans, b.queue)
    ensures PcInv(s', b, pc)
  {
    match pc
    case Enq(_, es) =>
      EnqKept(s, s', pc);
    case Orphan(r, os) =>
      assert os.ORead? ==> SameRun(s, s', r);
    case Work(job, ws) =>
      assert Concerns(pc, job.run);
      assert SameRun(s, s', job.run);
      WorkKept(s, s', job, ws);
    case Fin(c, _) =>
      assert Concerns(pc, c.run);
      FinKept(s, s', pc);
    case Shut(ss) =>
      assert s.sh.runs == map[] ==> s'.sh.runs.Keys == {};
    case Exited =>
  }

  /** PcInv reads the shared state only. */
  lemma PcIgnoresPcs(s: State, s': State, b: Agent, pc: Pc)
    requires PcInv(s, b, pc) && s' == s.(pcs := s'.pcs, mu := s'.mu)
    ensures PcInv(s', b, pc)
  {
    PcKept(s, s', b, pc);
  }

  lemma LogKept(s: State, s': State, r: RunId)
    requires LogOk(s, r) && Forward(s, s') && SameRun(s, s', r)
    ensures LogOk(s', r)
  {
  }

  // ---------------------------------------------------------------- moves that change no shared state

  /** The agent will write `r`'s status, or hand `r` to the run map. */
  predicate Answers(pc: Pc, r: RunId) {
    Creating(pc, r) || Writing(pc, r)
  }

  lemma KeepStrand(s: State, s': State, a: Agent)
    requires StrandInv(s)
    requires forall b :: b != a && b in s.pcs ==> b in s'.pcs && s'.pcs[b] == s.pcs[b]
    requires forall r :: Pending(s', r) && r !in s'.sh.runs && r !in s'.aux.lost ==>
                           || SomeoneAnswers(s', r)
                           || (Pending(s, r) && r !in s.sh.runs && r !in s.aux.lost && !(a in s.pcs && Answers(s.pcs[a], r)))
    ensures StrandInv(s')
  {
    forall r | Pending(s', r) && r !in s'.sh.runs && r !in s'.aux.lost ensures SomeoneAnswers(s', r) {
      if Pending(s, r) && r !in s.sh.runs && r !in s.aux.lost && !(a in s.pcs && Answers(s.pcs[a], r)) {
        var b :| b in s.pcs && Answers(s.pcs[b], r);
        assert s'.pcs[b] == s.pcs[b];
      }
    }
  }

  lemma KeepClaims(s: State, s': State, a: Agent)
    requires ClaimsUnique(s)
    requires forall b :: b != a && b in s'.pcs ==> b in s.pcs && s'.pcs[b] == s.pcs[b]
    requires a in s'.pcs ==> forall r :: Holds(s'.pcs[a], r) ==> Claimable(s, a, r)
    ensures ClaimsUnique(s')
  {
    forall b, c, r | b in s'.pcs && c in s'.pcs && Holds(s'.pcs[b], r) && Holds(s'.pcs[c], r) ensures b == c {
      assert b != a ==> Holds(s.pcs[b], r);
      assert c != a ==> Holds(s.pcs[c], r);
      assert b == a || c == a ==> Claimable(s, a, r);
    }
  }

  /** `a` holds `r` already, or nobody else does. */
  ghost predicate Claimable(s: State, a: Agent, r: RunId) {
    || (a in s.pcs && Holds(s.pcs[a], r))
    || (forall b :: b in s.pcs && b != a ==> !Holds(s.pcs[b], r))
  }

  ghost function PcOf(s: State, a: Agent): Option<Pc> {
    if a in s.pcs then Some(s.pcs[a]) else None
  }

  /** The jobs in a worker's hands, if the agent is one. */
  predicate SameHand(pc: Option<Pc>, pc': Option<Pc>) {
    && (pc.Some? && pc.value.Work? ==> pc'.Some? && pc'.value.Work? && pc'.value.job == pc.value.job)
    && (pc'.Some? && pc'.value.Work? ==> pc.Some? && pc.value.Work?)
  }

  lemma OthersStay(s: State, s': State, a: Agent)
    requires forall b :: b != a ==> PcOf(s', b) == PcOf(s, b)
    ensures forall b :: b != a ==> (b in s'.pcs <==> b in s.pcs)
    ensures forall b :: b != a && b in s.pcs ==> s'.pcs[b] == s.pcs[b]
    ensures SameHand(PcOf(s, a), PcOf(s', a)) && s'.sh.chans == s.sh.chans ==> SameJobs(s, s')
  {
    forall b | b != a ensures (b in s'.pcs <==> b in s.pcs) && (b in s.pcs ==> s'.pcs[b] == s.pcs[b]) {
      assert PcOf(s', b) == PcOf(s, b);
    }
  }

  /** An agent moves, possibly taking or releasing enqueueMu, and changes nothing else. */
  lemma PcMove(s: State, s': State, a: Agent)
    requires Inv(s) && s' == s.(pcs := s'.pcs, mu := s'.mu)
    requires forall b :: b != a ==> PcOf(s', b) == PcOf(s, b)
    requires SameHand(PcOf(s, a), PcOf(s', a))
    requires a in s'.pcs ==> PcInv(s, a, s'.pcs[a])
    requires LockInv(s')
    requires a in s'.pcs ==> forall r :: Holds(s'.pcs[a], r) ==> Claimable(s, a, r)
    requires a in s.pcs ==> forall r :: Answers(s.pcs[a], r) ==>
                                          r in s.aux.lost || (a in s'.pcs && Answers(s'.pcs[a], r))
    ensures Inv(s')
  {
    OthersStay(s, s', a);
    KeepShared(s, s');
    forall b | b in s'.pcs ensures PcInv(s', b, s'.pcs[b]) {
      PcIgnoresPcs(s, s', b, s'.pcs[b]);
    }
    KeepClaims(s, s', a);
    KeepStrand(s, s', a);
  }

  /** A worker moves to another stage of its job and changes nothing else. */
  lemma WorkMove(s: State, s': State, q: QueueId, ws: WorkStage)
    requires Inv(s) && At(s, q) && s' == Stage(s, q, ws)
    requires PcInv(s, Worker(q), Work(JobAt(s, q), ws))
    ensures Inv(s')
  {
    PcMove(s, s', Worker(q));
  }

  // ---------------------------------------------------------------- changes that concern one run

  /** Everything but `r` is as before, for every fact stated per run. */
  ghost predicate OnlyRun(s: State, s': State, r: RunId) {
    forall x :: x != r ==> SameRun(s, s', x)
  }

  /** Only `a` moves, and only facts about `r` change. */
  ghost predicate Frame(s: State, s': State, a: Agent, r: RunId) {
    && Forward(s, s') && OnlyRun(s, s', r)
    && (forall b :: b != a ==> PcOf(s', b) == PcOf(s, b))
  }

  /** What a move of `a` must show of the other agents. */
  ghost predicate Undisturbed(s: State, s': State, b: Agent, pc: Pc) {
    || PcInv(s', b, pc)
    || (forall x :: Concerns(pc, x) ==> SameRun(s, s', x))
  }

  lemma FrameParts(s: State, s': State, a: Agent, r: RunId)
    requires Frame(s, s', a, r)
    ensures OnlyRun(s, s', r) && Forward(s, s') && forall b :: b != a ==> PcOf(s', b) == PcOf(s, b)
  {
  }

  lemma PcsKept(s: State, s': State, a: Agent)
    requires PcsInv(s) && Forward(s, s')
    requires forall b :: b != a ==> PcOf(s', b) == PcOf(s, b)
    requires forall b :: b != a && b in s.pcs ==> Undisturbed(s, s', b, s.pcs[b])
    requires forall b :: b != a && b in s.pcs && s.pcs[b].Enq? && s.pcs[b].es.Create? &&
                         ActiveForSchedule(s'.rows, s.pcs[b].req.schedule) ==>
                           ActiveForSchedule(s.rows, s.pcs[b].req.schedule)
    requires forall q :: Worker(q) in s.pcs && Worker(q) != a && s.pcs[Worker(q)].Exited? ==>
                           Get(s'.sh.chans, q) == Get(s.sh.chans, q)
    requires a in s'.pcs ==> PcInv(s', a, s'.pcs[a])
    ensures PcsInv(s')
  {
    OthersStay(s, s', a);
    forall b | b != a && b in s'.pcs ensures PcInv(s', b, s'.pcs[b]) {
      var pc := s.pcs[b];
      assert PcInv(s, b, pc);
      if !PcInv(s', b, pc) {
        PcKept(s, s', b, pc);
      }
    }
  }

  /** The facts about agents, for a step of `a` that leaves enqueueMu alone. */
  lemma AgentsKept(s: State, s': State, a: Agent, r: RunId)
    requires LockInv(s) && ClaimsUnique(s) && PcsInv(s) && StrandInv(s) && Frame(s, s', a, r)
    requires s'.mu == s.mu && (a in s'.pcs && HoldsMu(s'.pcs[a])) == (a in s.pcs && HoldsMu(s.pcs[a]))
    requires forall b :: b != a && b in s.pcs && Concerns(s.pcs[b], r) ==> Undisturbed(s, s', b, s.pcs[b])
    requires forall b :: b != a && b in s.pcs && s.pcs[b].Enq? && s.pcs[b].es.Create? &&
                         ActiveForSchedule(s'.rows, s.pcs[b].req.schedule) ==>
                           ActiveForSchedule(s.rows, s.pcs[b].req.schedule)
    requires forall q :: Worker(q) in s.pcs && Worker(q) != a && s.pcs[Worker(q)].Exited? ==>
                           Get(s'.sh.chans, q) == Get(s.sh.chans, q)
    requires a in s'.pcs ==> PcInv(s', a, s'.pcs[a])
    requires a in s'.pcs ==> forall x :: Holds(s'.pcs[a], x) ==> Claimable(s, a, x)
    requires forall x :: Pending(s', x) && x !in s'.sh.runs && x !in s'.aux.lost ==>
                           || (a in s'.pcs && Answers(s'.pcs[a], x))
                           || (Pending(s, x) && x !in s.sh.runs && x !in s.aux.lost && !(a in s.pcs && Answers(s.pcs[a], x)))
    ensures LockInv(s') && ClaimsUnique(s') && PcsInv(s') && StrandInv(s')
  {
    OthersStay(s, s', a);
    KeepLock(s, s', a);
    KeepClaims(s, s', a);
    KeepStrand(s, s', a);
    forall b | b != a && b in s.pcs ensures Undisturbed(s, s', b, s.pcs[b]) {
      assert !Concerns(s.pcs[b], r) ==> forall x :: Concerns(s.pcs[b], x) ==> x != r;
    }
    PcsKept(s, s', a);
  }

  lemma RunsKept(s: State, s': State, r: RunId)
    requires RunsInv(s) && OnlyRun(s, s', r)
    requires forall x :: x != r && x in s'.sh.runs ==> x in s.sh.runs && s'.sh.runs[x] == s.sh.runs[x]
    requires forall x :: x != r && x in s'.sh.runs ==> Open(s', x) == Open(s, x)
    requires r in s'.sh.runs ==> TrackedInv(s', r)
    ensures RunsInv(s')
  {
    forall x | x != r && x in s'.sh.runs ensures TrackedInv(s', x) {
      assert TrackedInv(s, x);
      assert SameRun(s, s', x);
      KeepRun(s, s', x);
    }
  }

  lemma LogsKept(s: State, s': State, r: RunId)
    requires LogInv(s) && Forward(s, s') && OnlyRun(s, s', r) && LogOk(s', r)
    ensures LogInv(s')
  {
    forall x | x != r ensures LogOk(s', x) {
      assert LogOk(s, x);
      LogKept(s, s', x);
    }
  }

  lemma BuffersKept(s: State, s': State, r: RunId)
    requires BufferInv(s) && OnlyRun(s, s', r) && s'.sh.chans == s.sh.chans
    requires forall q, i :: q in s.sh.chans && 0 <= i < |s.sh.chans[q]| && s.sh.chans[q][i].run == r ==>
                              FreshFrom(s', s.sh.chans[q][i], 0) && MarkedTo(s', s.sh.chans[q][i], 0)
    ensures BufferInv(s')
  {
    forall q, i | q in s'.sh.chans && 0 <= i < |s'.sh.chans[q]|
      ensures FreshFrom(s', s'.sh.chans[q][i], 0) && MarkedTo(s', s'.sh.chans[q][i], 0)
    {
      var job := s.sh.chans[q][i];
      assert FreshFrom(s, job, 0) && MarkedTo(s, job, 0);
      if job.run != r {
        assert SameRun(s, s', job.run);
      }
    }
  }

  lemma KeepLock(s: State, s': State, a: Agent)
    requires LockInv(s) && s'.mu == s.mu
    requires forall b :: b != a ==> PcOf(s', b) == PcOf(s, b)
    requires (a in s'.pcs && HoldsMu(s'.pcs[a])) == (a in s.pcs && HoldsMu(s.pcs[a]))
    ensures LockInv(s')
  {
    OthersStay(s, s', a);
  }

  lemma KeepOrder(s: State, s': State)
    requires OrderInv(s) && s'.aux.sent == s.aux.sent && s'.aux.taken == s.aux.taken && s'.sh.chans == s.sh.chans
    ensures OrderInv(s')
  {
  }

  /** A run that never reached the run map concerns only the agent that holds it. */
  lemma UnregisteredIsPrivate(s: State, a: Agent, r: RunId)
    requires ClaimsUnique(s) && FlightInv(s) && PcsInv(s)
    requires a in s.pcs && Holds(s.pcs[a], r) && r !in s.aux.registered
    ensures forall b :: b in s.pcs && b != a ==> !Concerns(s.pcs[b], r)
  {
    forall b | b in s.pcs && b != a ensures !Concerns(s.pcs[b], r) {
      var pc := s.pcs[b];
      assert PcInv(s, b, pc);
      assert !Holds(pc, r);
      if pc.Work? {
        WorkerJobShape(s, b);
      }
    }
  }

  lemma WorkerJobShape(s: State, b: Agent)
    requires FlightInv(s) && PcsInv(s) && b in s.pcs && s.pcs[b].Work?
    ensures b == Worker(s.pcs[b].job.queue) && JobShape(s, b.queue, s.pcs[b].job) && InFlight(s, s.pcs[b].job.run, b.queue)
    ensures b.queue in s.sh.chans
  {
    assert PcInv(s, b, s.pcs[b]);
    var q := s.pcs[b].job.queue;
    assert At(s, q) && Flight(s, q)[0] == s.pcs[b].job;
  }

  /** Besides the holder of `r`, only workers and a finished forced cancel have to do with `r`. */
  lemma OnlyWorkersBeside(s: State, a: Agent, r: RunId)
    requires ClaimsUnique(s) && a in s.pcs && Holds(s.pcs[a], r)
    ensures forall b :: b in s.pcs && b != a && Concerns(s.pcs[b], r) ==>
              s.pcs[b].Work? || (s.pcs[b].Fin? && s.pcs[b].claim.kind.ByShutdown? && s.pcs[b].fs.Publish?)
  {
    forall b | b in s.pcs && b != a && Concerns(s.pcs[b], r)
      ensures s.pcs[b].Work? || (s.pcs[b].Fin? && s.pcs[b].claim.kind.ByShutdown? && s.pcs[b].fs.Publish?)
    {
      assert !Holds(s.pcs[b], r);
    }
  }

  /** A tracked run concerns workers only. */
  lemma TrackedConcernsWorkers(s: State, r: RunId)
    requires PcsInv(s) && r in s.sh.runs
    ensures forall b :: b in s.pcs && Concerns(s.pcs[b], r) ==> s.pcs[b].Work?
    ensures forall b :: b in s.pcs ==> !Holds(s.pcs[b], r)
  {
    forall b | b in s.pcs ensures Concerns(s.pcs[b], r) ==> s.pcs[b].Work? {
      assert PcInv(s, b, s.pcs[b]);
    }
    forall b | b in s.pcs ensures !Holds(s.pcs[b], r) {
      assert PcInv(s, b, s.pcs[b]);
    }
  }
}
