/** Cancel, Shutdown, and what a claimed run's finisher does. */
module RunnerFinish {
  import opened RunnerTypes
  import opened RunnerModel
  import opened RunnerInvariant
  import opened RunnerProof
  import opened RunnerResults

  // ---------------------------------------------------------------- marking runs canceled

  /** Tracked runs were flagged canceled; the rest of the map is as before. */
  ghost predicate Flagged(s: State, s': State) {
    && s'.sh.runs.Keys == s.sh.runs.Keys
    && forall r :: r in s.sh.runs ==> s'.sh.runs[r] == s.sh.runs[r] || s'.sh.runs[r] == s.sh.runs[r].(canceled := true)
  }

  lemma FlaggedRuns(s: State, s': State)
    requires RunsInv(s) && Flagged(s, s') && forall r :: Open(s', r) == Open(s, r)
    requires s'.sh.finalizing == s.sh.finalizing && s'.rows == s.rows && s'.results == s.results && s'.aux == s.aux
    ensures RunsInv(s')
  {
    forall r | r in s'.sh.runs ensures TrackedInv(s', r) {
      assert TrackedInv(s, r);
    }
  }

  /** A step that changes flags of runs and the place of one agent without claims. */
  lemma FlaggedAgents(s: State, s': State, a: Agent)
    requires LockInv(s) && ClaimsUnique(s) && PcsInv(s) && StrandInv(s) && Flagged(s, s')
    requires s' == s.(sh := s.sh.(runs := s'.sh.runs, ctxDone := s'.sh.ctxDone), pcs := s'.pcs)
    requires forall b :: b != a ==> PcOf(s', b) == PcOf(s, b)
    requires PcOf(s', a) == PcOf(s, a) || (a in s.pcs && s.pcs[a].Shut? && a in s'.pcs && s'.pcs[a].Shut? && PcInv(s', a, s'.pcs[a]))
    ensures LockInv(s') && ClaimsUnique(s') && PcsInv(s') && StrandInv(s') && SameJobs(s, s')
  {
    OthersStay(s, s', a);
    assert forall x :: SameRun(s, s', x);
    KeepLock(s, s', a);
    KeepClaims(s, s', a);
    KeepStrand(s, s', a);
    if a in s.pcs && PcOf(s', a) == PcOf(s, a) {
      assert PcInv(s, a, s.pcs[a]);
      PcKept(s, s', a, s.pcs[a]);
    }
    PcsKept(s, s', a);
  }

  lemma KeepsFlagging(s: State, s': State, a: Agent)
    requires Inv(s) && Flagged(s, s')
    requires s' == s.(sh := s.sh.(runs := s'.sh.runs, ctxDone := s'.sh.ctxDone), pcs := s'.pcs)
    requires forall b :: b != a ==> PcOf(s', b) == PcOf(s, b)
    requires PcOf(s', a) == PcOf(s, a) || (a in s.pcs && s.pcs[a].Shut? && a in s'.pcs && s'.pcs[a].Shut? && PcInv(s', a, s'.pcs[a]))
    ensures Inv(s')
  {
    hide LockInv, ClaimsUnique, FlightInv, BufferInv, RunsInv, PcsInv, TablesInv, LogInv, StrandInv, OrderInv;
    FlaggedAgents(s, s', a);
    SameFlight(s, s');
    KeepFlight(s, s');
    KeepBuffers(s, s');
    FlaggedRuns(s, s');
    KeepTables(s, s');
    KeepLog(s, s');
    KeepOrder(s, s');
  }

  lemma KeepsCancelStarted(s: State, s': State, a: Agent, r: RunId)
    requires Inv(s) && CancelCall(s, s', a, r) && r in s.sh.runs && s.sh.runs[r].started
    ensures Inv(s')
  {
    hide LockInv, ClaimsUnique, FlightInv, BufferInv, RunsInv, PcsInv, TablesInv, LogInv, StrandInv, OrderInv, PcInv;
    KeepsFlagging(s, s', a);
  }

  lemma KeepsShutMark(s: State, s': State, a: Agent, stuck: seq<RunId>)
    requires Inv(s) && ShutMark(s, s', a, stuck)
    ensures Inv(s')
  {
    hide LockInv, ClaimsUnique, FlightInv, BufferInv, RunsInv, TablesInv, LogInv, StrandInv, OrderInv;
    assert PcInv(s, a, s.pcs[a]);
    KeepsFlagging(s, s', a);
  }

  // ---------------------------------------------------------------- claiming a tracked run

  /** `a` takes a tracked run out of the run map to finish it. */
  ghost predicate Claims(s: State, s': State, a: Agent, c: Claim) {
    && c.run in s.sh.runs && (a in s.pcs ==> s.pcs[a].Shut?) && !c.kind.ByOrphan?
    && s'.sh.runs == s.sh.runs - {c.run} && s'.sh.finalizing == s.sh.finalizing + {c.run}
    && s'.aux.forced == s.aux.forced + (if c.kind.ByShutdown? then {c.run} else {})
    && s' == s.(sh := s.sh.(runs := s'.sh.runs, finalizing := s'.sh.finalizing, ctxDone := s'.sh.ctxDone),
                pcs := s.pcs[a := Fin(c, Write(0))], aux := s.aux.(forced := s'.aux.forced))
  }

  lemma ClaimOther(s: State, s': State, a: Agent, c: Claim, b: Agent)
    requires PcsInv(s) && Claims(s, s', a, c) && b in s.pcs && b != a && Concerns(s.pcs[b], c.run)
    requires c.kind.ByShutdown? || !s.sh.runs[c.run].started
    ensures PcInv(s', b, s.pcs[b])
  {
    TrackedConcernsWorkers(s, c.run);
    assert PcInv(s, b, s.pcs[b]);
    WorkKept(s, s', s.pcs[b].job, s.pcs[b].ws);
  }

  lemma ClaimFrame(s: State, s': State, a: Agent, c: Claim)
    requires Claims(s, s', a, c)
    ensures Frame(s, s', a, c.run) && OnlyRun(s, s', c.run) && (a.Caller? ==> SameJobs(s, s'))
  {
    assert forall q :: a.Caller? ==> PcOf(s', Worker(q)) == PcOf(s, Worker(q));
  }

  lemma ClaimAgents(s: State, s': State, a: Agent, c: Claim)
    requires LockInv(s) && ClaimsUnique(s) && PcsInv(s) && StrandInv(s) && Claims(s, s', a, c) && Frame(s, s', a, c.run)
    requires c.kind.ByShutdown? || !s.sh.runs[c.run].started
    requires PcInv(s', a, s'.pcs[a])
    ensures LockInv(s') && ClaimsUnique(s') && PcsInv(s') && StrandInv(s')
  {
    hide LockInv, ClaimsUnique, PcsInv, StrandInv, Frame;
    forall b | b in s.pcs && b != a && Concerns(s.pcs[b], c.run) ensures PcInv(s', b, s.pcs[b]) {
      ClaimOther(s, s', a, c, b);
    }
    TrackedConcernsWorkers(s, c.run);
    AgentsKept(s, s', a, c.run);
  }

  lemma TrackedHasRow(s: State, r: RunId)
    requires RunsInv(s) && r in s.sh.runs
    ensures Pending(s, r)
  {
    assert TrackedInv(s, r);
  }

  lemma KeepsClaim(s: State, s': State, a: Agent, c: Claim)
    requires Inv(s) && a.Caller? && Claims(s, s', a, c) && PcInv(s', a, s'.pcs[a])
    requires c.kind.ByShutdown? || !s.sh.runs[c.run].started
    ensures Inv(s')
  {
    hide LockInv, ClaimsUnique, FlightInv, BufferInv, RunsInv, PcsInv, TablesInv, LogInv, StrandInv, OrderInv, OnlyRun, Frame, PcInv;
    TrackedHasRow(s, c.run);
    ClaimFrame(s, s', a, c);
    ClaimAgents(s, s', a, c);
    SameFlight(s, s');
    KeepFlight(s, s');
    KeepBuffers(s, s');
    RunsKept(s, s', c.run);
    ClaimTables(s, s', c.run);
    KeepLog(s, s');
    KeepOrder(s, s');
  }

  lemma ClaimOwn(s: State, s': State, a: Agent, c: Claim)
    requires RunsInv(s) && Claims(s, s', a, c) && a.Caller?
    requires c.status.Canceled? && (c.done == 0 || c.done == s.sh.runs[c.run].done) && c.total == s.sh.runs[c.run].total
    requires c.kind.ByCancel? || (c.kind.ByShutdown? && s.aux.gaveUp && s.sh.closing)
    ensures PcInv(s', a, s'.pcs[a])
  {
    assert TrackedInv(s, c.run);
    hide RunsInv;
    DoneBounded(s, c.run);
  }

  lemma KeepsCancelClaim(s: State, s': State, a: Agent, r: RunId)
    requires Inv(s) && CancelCall(s, s', a, r) && r in s.sh.runs && !s.sh.runs[r].started
    ensures Inv(s')
  {
    hide LockInv, ClaimsUnique, FlightInv, BufferInv, RunsInv, PcsInv, TablesInv, LogInv, StrandInv, OrderInv, PcInv;
    var c := s'.pcs[a].claim;
    ClaimOwn(s, s', a, c);
    KeepsClaim(s, s', a, c);
  }

  lemma ForceMeansGivenUp(s: State, a: Agent)
    requires PcsInv(s) && AtShut(s, a) && s.pcs[a].ss.Force? && s.sh.runs != map[]
    ensures s.aux.gaveUp && s.sh.closing && a.Caller?
  {
    assert PcInv(s, a, s.pcs[a]);
  }

  lemma KeepsShutClaim(s: State, s': State, a: Agent)
    requires Inv(s) && ShutClaim(s, s', a) && AtFin(s', a)
    ensures Inv(s')
  {
    hide LockInv, ClaimsUnique, FlightInv, BufferInv, RunsInv, PcsInv, TablesInv, LogInv, StrandInv, OrderInv, PcInv;
    var c := s'.pcs[a].claim;
    assert c.run in s.sh.runs;
    ForceMeansGivenUp(s, a);
    ClaimOwn(s, s', a, c);
    KeepsClaim(s, s', a, c);
  }

  // ---------------------------------------------------------------- the terminal write

  ghost predicate WritesTerminal(s: State, s': State, a: Agent, c: Claim) {
    && AtFin(s, a) && s.pcs[a].fs.Write? && c == s.pcs[a].claim && Pending(s, c.run)
    && s' == Goto(s, a, Fin(c, if c.kind.ByShutdown? then End(true) else Publish)).(
               rows := s.rows[c.run := s.rows[c.run].(status := c.status)])
  }

  lemma TerminalOther(s: State, s': State, a: Agent, c: Claim, b: Agent)
    requires ClaimsUnique(s) && PcsInv(s) && WritesTerminal(s, s', a, c) && b in s.pcs && b != a && Concerns(s.pcs[b], c.run)
    ensures PcInv(s', b, s.pcs[b])
  {
    var pc := s.pcs[b];
    assert Holds(s.pcs[a], c.run);
    OnlyWorkersBeside(s, a, c.run);
    assert PcInv(s, b, pc);
    if pc.Work? {
      WorkKept(s, s', pc.job, pc.ws);
    }
  }

  lemma TerminalOwn(s: State, s': State, a: Agent, c: Claim)
    requires LogInv(s) && PcsInv(s) && WritesTerminal(s, s', a, c)
    ensures PcInv(s', a, s'.pcs[a]) && LogOk(s', c.run)
  {
    assert PcInv(s, a, s.pcs[a]);
    assert LogOk(s, c.run);
  }

  lemma TerminalFrame(s: State, s': State, a: Agent, c: Claim)
    requires WritesTerminal(s, s', a, c)
    ensures Frame(s, s', a, c.run) && OnlyRun(s, s', c.run) && SameJobs(s, s')
  {
  }

  lemma FewerActive(s: State, s': State, r: RunId, st: Status)
    requires r in s.rows && st.Terminal() && s'.rows == s.rows[r := s.rows[r].(status := st)]
    ensures forall sch :: ActiveForSchedule(s'.rows, sch) ==> ActiveForSchedule(s.rows, sch)
  {
    forall sch | ActiveForSchedule(s'.rows, sch) ensures ActiveForSchedule(s.rows, sch) {
      var x :| x in s'.rows && s'.rows[x].schedule == sch && s'.rows[x].Active();
      assert s.rows[x].schedule == sch && s.rows[x].Active();
    }
  }

  lemma TerminalAgents(s: State, s': State, a: Agent, c: Claim)
    requires LockInv(s) && ClaimsUnique(s) && PcsInv(s) && StrandInv(s) && WritesTerminal(s, s', a, c) && Frame(s, s', a, c.run)
    requires PcInv(s', a, s'.pcs[a]) && c.status.Terminal()
    ensures LockInv(s') && ClaimsUnique(s') && PcsInv(s') && StrandInv(s')
  {
    hide LockInv, ClaimsUnique, PcsInv, StrandInv, Frame, PcInv;
    forall b | b in s.pcs && b != a && Concerns(s.pcs[b], c.run) ensures PcInv(s', b, s.pcs[b]) {
      TerminalOther(s, s', a, c, b);
    }
    FewerActive(s, s', c.run, c.status);
    AgentsKept(s, s', a, c.run);
  }

  lemma TerminalTables(s: State, s': State, a: Agent, c: Claim)
    requires TablesInv(s) && PcsInv(s) && WritesTerminal(s, s', a, c)
    ensures TablesInv(s') && c.run !in s.sh.runs && c.status.Terminal()
  {
    assert PcInv(s, a, s.pcs[a]);
    hide PcsInv;
    assert forall x :: x in s.aux.reqs && AllOk(s, x) ==> AllOk(s', x);
  }

  lemma KeepsTerminalWrite(s: State, s': State, a: Agent, c: Claim)
    requires Inv(s) && WritesTerminal(s, s', a, c)
    ensures Inv(s')
  {
    hide LockInv, ClaimsUnique, FlightInv, BufferInv, RunsInv, PcsInv, TablesInv, LogInv, StrandInv, OrderInv, OnlyRun, Frame, PcInv;
    TerminalFrame(s, s', a, c);
    TerminalOwn(s, s', a, c);
    TerminalTables(s, s', a, c);
    TerminalAgents(s, s', a, c);
    SameFlight(s, s');
    KeepFlight(s, s');
    KeepBuffers(s, s');
    RunsKept(s, s', c.run);
    LogsKept(s, s', c.run);
    KeepOrder(s, s');
  }

  // ---------------------------------------------------------------- giving up on the write

  /** `a` ends its claim without a successful write: the write failed for good, or a panic struck. */
  ghost predicate GivesUp(s: State, s': State, a: Agent, c: Claim) {
    && AtFin(s, a) && s.pcs[a].fs.Write? && c == s.pcs[a].claim
    && s' == s.(pcs := s'.pcs, aux := s.aux.(lost := s.aux.lost + {c.run}, fullLost := s'.aux.fullLost))
    && (|| (&& s'.pcs == s.pcs[a := Fin(c, if c.kind.ByQueueFull? then Publish else End(false))]
            && s'.aux.fullLost == s.aux.fullLost + (if c.kind.ByQueueFull? then {c.run} else {}))
        || (s'.pcs == s.pcs - {a} && s'.aux.fullLost == s.aux.fullLost && !c.kind.ByOrphan? && !c.kind.ByShutdown?))
  }

  lemma GiveUpFrame(s: State, s': State, a: Agent, c: Claim)
    requires GivesUp(s, s', a, c)
    ensures Frame(s, s', a, c.run) && SameJobs(s, s')
  {
  }

  lemma GiveUpOther(s: State, s': State, a: Agent, c: Claim, b: Agent)
    requires ClaimsUnique(s) && PcsInv(s) && GivesUp(s, s', a, c) && b in s.pcs && b != a && Concerns(s.pcs[b], c.run)
    ensures PcInv(s', b, s.pcs[b])
  {
    var pc := s.pcs[b];
    assert Holds(s.pcs[a], c.run);
    OnlyWorkersBeside(s, a, c.run);
    assert PcInv(s, b, pc);
    if pc.Work? {
      WorkKept(s, s', pc.job, pc.ws);
    }
  }

  lemma GiveUpOwn(s: State, s': State, a: Agent, c: Claim)
    requires PcsInv(s) && GivesUp(s, s', a, c)
    ensures a in s'.pcs ==> PcInv(s', a, s'.pcs[a])
  {
    assert PcInv(s, a, s.pcs[a]);
  }

  lemma GiveUpAgents(s: State, s': State, a: Agent, c: Claim)
    requires LockInv(s) && ClaimsUnique(s) && PcsInv(s) && StrandInv(s) && GivesUp(s, s', a, c) && Frame(s, s', a, c.run)
    ensures LockInv(s') && ClaimsUnique(s') && PcsInv(s') && StrandInv(s')
  {
    hide LockInv, ClaimsUnique, PcsInv, StrandInv, Frame, PcInv;
    GiveUpOwn(s, s', a, c);
    forall b | b in s.pcs && b != a && Concerns(s.pcs[b], c.run) ensures PcInv(s', b, s.pcs[b]) {
      GiveUpOther(s, s', a, c, b);
    }
    AgentsKept(s, s', a, c.run);
  }

  lemma KeepsGiveUp(s: State, s': State, a: Agent, c: Claim)
    requires Inv(s) && GivesUp(s, s', a, c)
    ensures Inv(s')
  {
    hide LockInv, ClaimsUnique, FlightInv, BufferInv, RunsInv, PcsInv, TablesInv, LogInv, StrandInv, OrderInv, Frame;
    GiveUpFrame(s, s', a, c);
    GiveUpAgents(s, s', a, c);
    SameFlight(s, s');
    KeepFlight(s, s');
    KeepBuffers(s, s');
    KeepRuns(s, s');
    KeepTables(s, s');
    KeepLog(s, s');
    KeepOrder(s, s');
  }

  // ---------------------------------------------------------------- the terminal event

  lemma AnnounceFrame(s: State, s': State, a: Agent, r: RunId)
    requires FinPublish(s, s', a) && r == s.pcs[a].claim.run
    ensures Frame(s, s', a, r) && OnlyRun(s, s', r) && SameJobs(s, s')
  {
  }

  lemma AnnounceOther(s: State, s': State, a: Agent, r: RunId, b: Agent)
    requires ClaimsUnique(s) && PcsInv(s) && FinPublish(s, s', a) && r == s.pcs[a].claim.run
    requires b in s.pcs && b != a && Concerns(s.pcs[b], r)
    ensures PcInv(s', b, s.pcs[b])
  {
    var pc := s.pcs[b];
    assert PcInv(s, b, pc);
    assert PcInv(s, a, s.pcs[a]);
    if pc.Work? {
      WorkKept(s, s', pc.job, pc.ws);
    } else {
      AnnounceBeside(s, a, r, b);
    }
  }

  /** Two agents finishing one run are only possible after a forced cancel. */
  lemma AnnounceBeside(s: State, a: Agent, r: RunId, b: Agent)
    requires ClaimsUnique(s) && PcsInv(s) && AtFin(s, a) && s.pcs[a].fs.Publish? && r == s.pcs[a].claim.run
    requires b in s.pcs && b != a && Concerns(s.pcs[b], r) && !s.pcs[b].Work?
    ensures r in s.aux.forced && !(s.pcs[b].Enq?)
  {
    assert PcInv(s, a, s.pcs[a]);
    assert PcInv(s, b, s.pcs[b]);
    if !s.pcs[a].claim.kind.ByShutdown? {
      assert Holds(s.pcs[a], r);
      OnlyWorkersBeside(s, a, r);
    }
  }

  lemma AnnounceOwn(s: State, s': State, a: Agent, r: RunId)
    requires PcsInv(s) && LogInv(s) && TablesInv(s) && FinPublish(s, s', a) && r == s.pcs[a].claim.run
    ensures PcInv(s', a, s'.pcs[a]) && LogOk(s', r)
  {
    assert PcInv(s, a, s.pcs[a]);
    assert LogOk(s, r);
    hide PcsInv, LogInv, TablesInv;
    var evs, evs' := Get(s.log, r), Get(s'.log, r);
    assert forall i :: 0 <= i < |evs| ==> evs'[i] == evs[i];
  }

  lemma AnnounceAgents(s: State, s': State, a: Agent, r: RunId)
    requires LockInv(s) && ClaimsUnique(s) && PcsInv(s) && StrandInv(s)
    requires FinPublish(s, s', a) && r == s.pcs[a].claim.run && Frame(s, s', a, r) && PcInv(s', a, s'.pcs[a])
    ensures LockInv(s') && ClaimsUnique(s') && PcsInv(s') && StrandInv(s')
  {
    assert PcInv(s, a, s.pcs[a]);
    hide LockInv, ClaimsUnique, PcsInv, StrandInv, Frame, PcInv;
    forall b | b in s.pcs && b != a && Concerns(s.pcs[b], r) ensures PcInv(s', b, s.pcs[b]) {
      AnnounceOther(s, s', a, r, b);
    }
    AgentsKept(s, s', a, r);
  }

  lemma AnnounceTables(s: State, s': State, a: Agent, r: RunId)
    requires TablesInv(s) && PcsInv(s) && FinPublish(s, s', a) && r == s.pcs[a].claim.run
    ensures TablesInv(s')
  {
    assert PcInv(s, a, s.pcs[a]);
    hide PcsInv;
    assert forall x :: x in s.aux.reqs && AllOk(s, x) ==> AllOk(s', x);
  }

  lemma KeepsFinPublish(s: State, s': State, a: Agent, r: RunId)
    requires Inv(s) && FinPublish(s, s', a) && r == s.pcs[a].claim.run
    ensures Inv(s')
  {
    hide LockInv, ClaimsUnique, FlightInv, BufferInv, RunsInv, PcsInv, TablesInv, LogInv, StrandInv, OrderInv, OnlyRun, Frame, PcInv;
    AnnounceFrame(s, s', a, r);
    AnnounceOwn(s, s', a, r);
    AnnounceAgents(s, s', a, r);
    AnnounceTables(s, s', a, r);
    SameFlight(s, s');
    KeepFlight(s, s');
    KeepBuffers(s, s');
    KeepRuns(s, s');
    LogsKept(s, s', r);
    KeepOrder(s, s');
  }

  // ---------------------------------------------------------------- the end of a claim

  ghost predicate Releases(s: State, s': State, a: Agent, r: RunId) {
    && AtFin(s, a) && s.pcs[a].fs.End? && !s.pcs[a].claim.kind.ByOrphan? && r == s.pcs[a].claim.run
    && s' == s.(sh := s.sh.(finalizing := s.sh.finalizing - {r}), pcs := s'.pcs)
    && (|| s'.pcs == s.pcs - {a}
        || (&& s.pcs[a].claim.kind.ByShutdown? && a in s'.pcs && s'.pcs == s.pcs[a := s'.pcs[a]]
            && (s'.pcs[a] == Fin(s.pcs[a].claim, Publish) || s'.pcs[a] == Shut(Force(s.pcs[a].claim.rest)))))
  }

  lemma ReleaseFrame(s: State, s': State, a: Agent, r: RunId)
    requires Releases(s, s', a, r)
    ensures Frame(s, s', a, r) && OnlyRun(s, s', r) && SameJobs(s, s')
  {
  }

  lemma ReleaseOwn(s: State, s': State, a: Agent, r: RunId)
    requires PcsInv(s) && Releases(s, s', a, r)
    ensures (a in s'.pcs ==> PcInv(s', a, s'.pcs[a])) && r !in s.sh.runs && Holds(s.pcs[a], r)
    ensures a in s'.pcs ==> !HoldsMu(s'.pcs[a]) && forall x :: !Holds(s'.pcs[a], x)
  {
    assert PcInv(s, a, s.pcs[a]);
  }

  lemma ReleaseOther(s: State, s': State, a: Agent, r: RunId, b: Agent)
    requires ClaimsUnique(s) && PcsInv(s) && Releases(s, s', a, r) && b in s.pcs && b != a && Concerns(s.pcs[b], r)
    ensures PcInv(s', b, s.pcs[b])
  {
    var pc := s.pcs[b];
    assert Holds(s.pcs[a], r);
    OnlyWorkersBeside(s, a, r);
    assert PcInv(s, b, pc);
    if pc.Work? {
      WorkKept(s, s', pc.job, pc.ws);
    }
  }

  lemma ReleaseAgents(s: State, s': State, a: Agent, r: RunId)
    requires LockInv(s) && ClaimsUnique(s) && PcsInv(s) && StrandInv(s) && Releases(s, s', a, r) && Frame(s, s', a, r)
    ensures LockInv(s') && ClaimsUnique(s') && PcsInv(s') && StrandInv(s')
  {
    hide LockInv, ClaimsUnique, PcsInv, StrandInv, Frame, PcInv;
    ReleaseOwn(s, s', a, r);
    forall b | b in s.pcs && b != a && Concerns(s.pcs[b], r) ensures PcInv(s', b, s.pcs[b]) {
      ReleaseOther(s, s', a, r, b);
    }
    AgentsKept(s, s', a, r);
  }

  lemma KeepsFinEnd(s: State, s': State, a: Agent, r: RunId)
    requires Inv(s) && Releases(s, s', a, r)
    ensures Inv(s')
  {
    hide LockInv, ClaimsUnique, FlightInv, BufferInv, RunsInv, PcsInv, TablesInv, LogInv, StrandInv, OrderInv, OnlyRun, Frame, PcInv;
    ReleaseFrame(s, s', a, r);
    ReleaseOwn(s, s', a, r);
    ReleaseAgents(s, s', a, r);
    SameFlight(s, s');
    KeepFlight(s, s');
    KeepBuffers(s, s');
    RunsKept(s, s', r);
    KeepTables(s, s');
    KeepLog(s, s');
    KeepOrder(s, s');
  }

  // ---------------------------------------------------------------- Shutdown: closing and giving up

  /** Shutdown closes the queues, or its context expires; only its own place changes besides. */
  ghost predicate Closes(s: State, s': State, a: Agent) {
    && s' == s.(sh := s.sh.(closing := s'.sh.closing, closed := s'.sh.closed), pcs := s'.pcs, aux := s.aux.(gaveUp := s'.aux.gaveUp))
    && (s.sh.closing ==> s'.sh.closing) && (s.aux.gaveUp ==> s'.aux.gaveUp)
    && (s'.sh.closing == s.sh.closing ==> s'.sh.closed == s.sh.closed)
    && (s'.sh.closing != s.sh.closing ==> s'.sh.closed == s.sh.chans.Keys)
    && (a in s.pcs ==> s.pcs[a].Shut?) && a in s'.pcs && s'.pcs == s.pcs[a := s'.pcs[a]] && s'.pcs[a].Shut?
    && a.Caller? && s'.sh.closing && PcInv(s', a, s'.pcs[a])
  }

  lemma CloseAgents(s: State, s': State, a: Agent)
    requires LockInv(s) && ClaimsUnique(s) && PcsInv(s) && StrandInv(s) && Closes(s, s', a)
    ensures LockInv(s') && ClaimsUnique(s') && PcsInv(s') && StrandInv(s') && SameJobs(s, s')
  {
    assert forall b :: b != a ==> PcOf(s', b) == PcOf(s, b);
    OthersStay(s, s', a);
    assert forall x :: SameRun(s, s', x);
    KeepLock(s, s', a);
    KeepClaims(s, s', a);
    KeepStrand(s, s', a);
    PcsKept(s, s', a);
  }

  lemma CloseTables(s: State, s': State, a: Agent)
    requires TablesInv(s) && Closes(s, s', a)
    ensures TablesInv(s')
  {
    hide PcInv;
    assert forall x :: x in s.aux.reqs && AllOk(s, x) ==> AllOk(s', x);
  }

  lemma KeepsClosing(s: State, s': State, a: Agent)
    requires Inv(s) && Closes(s, s', a)
    ensures Inv(s')
  {
    hide LockInv, ClaimsUnique, FlightInv, BufferInv, RunsInv, PcsInv, TablesInv, LogInv, StrandInv, OrderInv, PcInv;
    CloseAgents(s, s', a);
    CloseTables(s, s', a);
    SameFlight(s, s');
    KeepFlight(s, s');
    KeepBuffers(s, s');
    KeepRuns(s, s');
    KeepLog(s, s');
    KeepOrder(s, s');
  }

  lemma KeepsShutCall(s: State, s': State, a: Agent)
    requires Inv(s) && ShutCall(s, s', a)
    ensures Inv(s')
  {
    hide LockInv, ClaimsUnique, FlightInv, BufferInv, RunsInv, PcsInv, TablesInv, LogInv, StrandInv, OrderInv;
    if !s.sh.closing {
      KeepsClosing(s, s', a);
    }
  }

  lemma KeepsGivingUp(s: State, s': State, a: Agent)
    requires Inv(s) && (ShutWait(s, s', a, CtxDone) || ShutDrain(s, s', a, CtxDone))
    ensures Inv(s')
  {
    assert PcInv(s, a, s.pcs[a]);
    hide LockInv, ClaimsUnique, FlightInv, BufferInv, RunsInv, PcsInv, TablesInv, LogInv, StrandInv, OrderInv;
    KeepsClosing(s, s', a);
  }
}
