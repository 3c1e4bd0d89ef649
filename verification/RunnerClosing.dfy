/** What Shutdown leaves behind when it returns. */
module RunnerClosing {
  import opened Options
  import opened RunnerTypes
  import opened RunnerModel
  import opened RunnerInvariant
  import opened RunnerProof
  import opened RunnerTheorems
  import opened RunnerProperties
  import opened RunnerOutcome
  import opened RunnerReports

  /** The runs Shutdown still has on its list. */
  function Listed(pc: Pc): Option<seq<RunId>> {
    match pc
    case Shut(Drain(stuck)) => Some(stuck)
    case Shut(Force(stuck)) => Some(stuck)
    case Fin(c, _) => if c.kind.ByShutdown? then Some(c.rest) else None
    case _ => None
  }

  /** From the moment Shutdown has listed them, every tracked run is on the list. */
  ghost predicate AllListed(s: State) {
    forall a, r :: a in s.pcs && Listed(s.pcs[a]).Some? && r in s.sh.runs ==> s.sh.closing && r in Listed(s.pcs[a]).value
  }

  /** What the actor's step does to its list: it keeps it, lists all tracked runs, or takes off a run that is not tracked any more. */
  ghost predicate ListStep(s: State, s': State, a: Agent) {
    a in s'.pcs && Listed(s'.pcs[a]).Some? ==>
      var list := Listed(s'.pcs[a]).value;
      || (a in s.pcs && Listed(s.pcs[a]).Some? && forall r :: r in Listed(s.pcs[a]).value ==> r in list || r !in s'.sh.runs)
      || (s.sh.closing && forall r :: r in s.sh.runs ==> r in list)
  }

  lemma MarkLists(s: State, s': State, a: Agent, stuck: seq<RunId>)
    requires Inv(s) && ShutMark(s, s', a, stuck)
    ensures ListStep(s, s', a)
  {
    assert PcInv(s, a, s.pcs[a]);
    hide Inv, MarkAllSection;
  }

  lemma DrainLists(s: State, s': State, a: Agent, w: Wake)
    requires ShutDrain(s, s', a, w) || ShutWait(s, s', a, w)
    ensures ListStep(s, s', a)
  {
    hide AllExited;
  }

  lemma ForceLists(s: State, s': State, a: Agent)
    requires ShutClaim(s, s', a)
    ensures ListStep(s, s', a)
  {
    if a in s'.pcs {
      var stuck := s.pcs[a].ss.stuck;
      assert stuck == [stuck[0]] + stuck[1..];
    }
  }

  lemma FinishLists(s: State, l: Label, s': State)
    requires Step(s, l, s') && (l.LFinPublish? || l.LFinEnd?)
    ensures ListStep(s, s', l.a)
  {
  }

  lemma WriteLists(s: State, l: Label, s': State)
    requires Step(s, l, s') && (l.LFinWrite? || l.LFinPanic?)
    ensures ListStep(s, s', l.a)
  {
    hide SetRunStatus, Attempts;
  }

  lemma EnqueueLists(s: State, l: Label, s': State)
    requires Step(s, l, s')
    requires l.LEnqCall? || l.LEnqLock? || l.LEnqDedupe? || l.LEnqCreate? || l.LEnqBegin? || l.LEnqUnlock? || l.LEnqRegister?
    ensures ListStep(s, s', l.a)
  {
    hide RegisterSection, ActiveForSchedule;
  }

  lemma CancelLists(s: State, l: Label, s': State)
    requires Step(s, l, s') && (l.LCancel? || l.LOrphanLock? || l.LOrphanCheck? || l.LOrphanRead?)
    ensures ListStep(s, s', l.a)
  {
    hide CancelSection;
  }

  lemma CloseLists(s: State, s': State, a: Agent)
    requires ShutCall(s, s', a)
    ensures ListStep(s, s', a)
  {
    hide CloseSection;
  }

  lemma WorkerLists(s: State, q: QueueId)
    requires Inv(s)
    ensures Worker(q) in s.pcs ==> Listed(s.pcs[Worker(q)]).None?
  {
    assert Worker(q) in s.pcs ==> PcInv(s, Worker(q), s.pcs[Worker(q)]);
  }

  lemma ShutdownLists(s: State, l: Label, s': State)
    requires Inv(s) && Step(s, l, s') && (l.LShutCall? || l.LShutWait? || l.LShutDrain? || l.LShutMark? || l.LShutClaim?)
    ensures ListStep(s, s', l.a)
  {
    hide Inv, ListStep, ShutCall, ShutWait, ShutDrain, ShutMark, ShutClaim;
    match l
    case LShutCall(a) => CloseLists(s, s', a);
    case LShutWait(a, w) => DrainLists(s, s', a, w);
    case LShutDrain(a, w) => DrainLists(s, s', a, w);
    case LShutMark(a, stuck) => MarkLists(s, s', a, stuck);
    case LShutClaim(a) => ForceLists(s, s', a);
  }

  lemma ActorLists(s: State, l: Label, s': State)
    requires Inv(s) && Inv(s') && Step(s, l, s') && !l.LStart?
    ensures ListStep(s, s', Actor(l))
  {
    hide Inv, Step, ListStep;
    if l.LCancel? || l.LOrphanLock? || l.LOrphanCheck? || l.LOrphanRead? {
      CancelLists(s, l, s');
    } else if l.LFinWrite? || l.LFinPanic? {
      WriteLists(s, l, s');
    } else if l.LFinPublish? || l.LFinEnd? {
      FinishLists(s, l, s');
    } else if l.LShutCall? || l.LShutWait? || l.LShutDrain? || l.LShutMark? || l.LShutClaim? {
      ShutdownLists(s, l, s');
    } else if l.LEnqCall? || l.LEnqLock? || l.LEnqDedupe? || l.LEnqCreate? || l.LEnqBegin? || l.LEnqUnlock? || l.LEnqRegister? {
      EnqueueLists(s, l, s');
    } else {
      WorkerActs(s, l, s');
    }
  }

  lemma WorkerActs(s: State, l: Label, s': State)
    requires Inv(s') && Actor(l).Worker?
    ensures ListStep(s, s', Actor(l))
  {
    WorkerLists(s', Actor(l).queue);
    hide Inv;
  }

  lemma AgentLists(s: State, l: Label, s': State, a: Agent)
    requires Inv(s) && Inv(s') && Step(s, l, s')
    ensures ListStep(s, s', a)
  {
    hide Inv, Step;
    if l.LStart? {
      StartKeepsPcs(s, s');
    } else if a == Actor(l) {
      ActorLists(s, l, s');
    } else {
      OneMoves(s, l, s');
      assert PcOf(s', a) == PcOf(s, a);
    }
  }

  /** After Shutdown's first section no run is registered. */
  lemma ClosedTakesNoRun(s: State, l: Label, s': State, r: RunId)
    requires Inv(s) && Step(s, l, s') && s.sh.closing && r in s'.sh.runs
    ensures r in s.sh.runs
  {
    if l.LEnqRegister? {
      hide Inv, RegisterSection;
    } else {
      hide Inv, Step;
      FlagsFollow(s, l, s', r);
    }
  }

  lemma ListedKept(s: State, l: Label, s': State)
    requires Inv(s) && Inv(s') && AllListed(s) && Step(s, l, s')
    ensures AllListed(s')
  {
    hide Inv, Step, Listed;
    forall a, r | a in s'.pcs && Listed(s'.pcs[a]).Some? && r in s'.sh.runs
      ensures s'.sh.closing && r in Listed(s'.pcs[a]).value
    {
      AgentLists(s, l, s', a);
      ListedWhenClosing(s', a);
      FlagsFollow(s, l, s', r);
      if s.sh.closing {
        ClosedTakesNoRun(s, l, s', r);
      } else {
        NotListedWhenOpen(s, a);
      }
    }
  }

  lemma ListedWhenClosing(s: State, a: Agent)
    requires Inv(s) && a in s.pcs && Listed(s.pcs[a]).Some?
    ensures s.sh.closing
  {
    assert PcInv(s, a, s.pcs[a]);
  }

  lemma NotListedWhenOpen(s: State, a: Agent)
    requires Inv(s) && !s.sh.closing
    ensures a in s.pcs ==> Listed(s.pcs[a]).None?
  {
    assert a in s.pcs ==> PcInv(s, a, s.pcs[a]);
  }

  lemma {:induction false} ListedHolds(ss: seq<State>, ls: seq<Label>, n: nat)
    requires IsTrace(ss, ls) && n < |ss|
    ensures AllListed(ss[n])
  {
    hide Inv, Step, AllListed;
    if n > 0 {
      hide Init;
      ListedHolds(ss, ls, n - 1);
      TraceKeeps(ss, ls, n - 1);
      TraceKeeps(ss, ls, n);
      ListedKept(ss[n - 1], ls[n - 1], ss[n]);
    } else {
      InitListed(ss[0]);
    }
  }

  lemma InitListed(s: State)
    requires Init(s)
    ensures AllListed(s)
  {
  }

  lemma NobodyLeft(s: State)
    requires Inv(s) && AllExited(s)
    ensures s.sh.runs == map[]
  {
    forall r ensures r !in s.sh.runs {
      if r in s.sh.runs {
        assert TrackedInv(s, r);
        OpenWhenExited(s, r);
      }
    }
    assert s.sh.runs.Keys == {};
  }

  lemma OpenWhenExited(s: State, r: RunId)
    requires Inv(s) && AllExited(s)
    ensures |Open(s, r)| == 0
  {
    forall q | q in s.sh.chans ensures Flight(s, q) == [] {
      assert PcInv(s, Worker(q), s.pcs[Worker(q)]);
    }
    assert Open(s, r) == {};
  }

  /**
   The Shutdown that closed the runner returns only when no run is tracked: either the workers
   have all left, or it has gone through the list of runs they had and taken those still there.
   */
  lemma ShutdownLeavesNone(ss: seq<State>, ls: seq<Label>, n: nat, a: Agent)
    requires IsTrace(ss, ls) && n < |ls|
    requires ls[n] == LShutWait(a, AllDone) || (ls[n] == LShutClaim(a) && a in ss[n].pcs && ss[n].pcs[a] == Shut(Force([])))
    ensures ss[n].sh.runs == map[] && ss[n + 1].sh.runs == map[] && a !in ss[n + 1].pcs
  {
    hide Init;
    TraceKeeps(ss, ls, n);
    ListedHolds(ss, ls, n);
    assert Step(ss[n], ls[n], ss[n + 1]);
    hide IsTrace;
    if ls[n].LShutWait? {
      WaitedForAll(ss[n], ss[n + 1], a);
      NobodyLeft(ss[n]);
    } else {
      hide Inv, AllListed;
      NoneListed(ss[n], a);
    }
  }

  lemma NoneListed(s: State, a: Agent)
    requires AllListed(s) && a in s.pcs && s.pcs[a] == Shut(Force([]))
    ensures s.sh.runs == map[]
  {
    assert Listed(s.pcs[a]) == Some([]);
    hide Listed;
    forall r ensures r !in s.sh.runs {
    }
    assert s.sh.runs.Keys == {};
  }

  lemma WaitedForAll(s: State, s': State, a: Agent)
    requires ShutWait(s, s', a, AllDone)
    ensures AllExited(s) && s'.sh == s.sh && a !in s'.pcs
  {
  }

  /** A run Shutdown takes from its workers is claimed with the counts it has reached; one already gone is passed over. */
  lemma ShutdownForces(ss: seq<State>, ls: seq<Label>, n: nat, a: Agent, r: RunId, rest: seq<RunId>)
    requires IsTrace(ss, ls) && n < |ls| && ls[n] == LShutClaim(a)
    requires a in ss[n].pcs && ss[n].pcs[a] == Shut(Force([r] + rest))
    ensures var s, s' := ss[n], ss[n + 1];
            if r in s.sh.runs then
              && s'.sh.runs == s.sh.runs - {r} && s'.sh.finalizing == s.sh.finalizing + {r}
              && s'.pcs == s.pcs[a := Fin(Claim(ByShutdown, r, Canceled, s.sh.runs[r].total, s.sh.runs[r].done, rest), Write(0))]
            else s'.sh == s.sh && s'.pcs == s.pcs[a := Shut(Force(rest))]
  {
    assert Step(ss[n], ls[n], ss[n + 1]);
    var stuck := [r] + rest;
    assert stuck[0] == r && stuck[1..] == rest;
    ForceEffect(ss[n], ss[n + 1], a);
  }

  lemma ForceEffect(s: State, s': State, a: Agent)
    requires ShutClaim(s, s', a) && s.pcs[a].ss.stuck != []
    ensures var stuck := s.pcs[a].ss.stuck;
            if stuck[0] in s.sh.runs then
              && s'.sh.runs == s.sh.runs - {stuck[0]} && s'.sh.finalizing == s.sh.finalizing + {stuck[0]}
              && s'.pcs == s.pcs[a := Fin(Claim(ByShutdown, stuck[0], Canceled, s.sh.runs[stuck[0]].total, s.sh.runs[stuck[0]].done, stuck[1..]), Write(0))]
            else s'.sh == s.sh && s'.pcs == s.pcs[a := Shut(Force(stuck[1..]))]
  {
  }

  /** "running" is published only for a row that has just taken it: a write that fails or is refused says nothing. */
  lemma RunningIsWritten(ss: seq<State>, ls: seq<Label>, n: nat, q: QueueId, fails: bool)
    requires IsTrace(ss, ls) && n < |ls| && ls[n] == LWriteRunning(q, fails)
    ensures At(ss[n], q) && StageAt(ss[n], q).SetRunning? && At(ss[n + 1], q) && JobAt(ss[n + 1], q) == JobAt(ss[n], q)
    ensures var s, s', r, ws := ss[n], ss[n + 1], JobAt(ss[n], q).run, StageAt(ss[n], q);
            if !fails && r in s.rows && !s.rows[r].status.Terminal() then
              s'.rows == s.rows[r := Row(Running, s.rows[r].schedule)] && StageAt(s', q) == ReadDone(ws.total)
            else
              && s'.rows == s.rows
              && StageAt(s', q) == if (fails || r !in s.rows) && s.sh.hooked && ws.attempt == 0 then SetRunning(ws.total, 1) else Loop(0, false)
  {
    assert Step(ss[n], ls[n], ss[n + 1]);
    WriteRunningEffect(ss[n], ss[n + 1], q, fails);
  }

  lemma WriteRunningEffect(s: State, s': State, q: QueueId, fails: bool)
    requires WriteRunning(s, s', q, fails)
    ensures At(s, q) && StageAt(s, q).SetRunning? && At(s', q) && JobAt(s', q) == JobAt(s, q)
    ensures var r, ws := JobAt(s, q).run, StageAt(s, q);
            if !fails && r in s.rows && !s.rows[r].status.Terminal() then
              s'.rows == s.rows[r := Row(Running, s.rows[r].schedule)] && StageAt(s', q) == ReadDone(ws.total)
            else
              && s'.rows == s.rows
              && StageAt(s', q) == if (fails || r !in s.rows) && s.sh.hooked && ws.attempt == 0 then SetRunning(ws.total, 1) else Loop(0, false)
  {
  }

  /** A terminal write that does not fail puts the status of the claim in the row, and keeps its schedule. */
  lemma OutcomeIsWritten(ss: seq<State>, ls: seq<Label>, n: nat, a: Agent)
    requires IsTrace(ss, ls) && n < |ls| && ls[n] == LFinWrite(a, false)
    ensures AtFin(ss[n], a) && ss[n].pcs[a].fs.Write? && AtFin(ss[n + 1], a) && ss[n + 1].pcs[a].claim == ss[n].pcs[a].claim
    ensures var s, s', c := ss[n], ss[n + 1], ss[n].pcs[a].claim;
            && c.run in s.rows && s'.rows == s.rows[c.run := Row(c.status, s.rows[c.run].schedule)]
            && s'.pcs[a].fs == if c.kind.ByShutdown? then End(true) else Publish
  {
    assert Step(ss[n], ls[n], ss[n + 1]);
    TraceKeeps(ss, ls, n);
    hide Init, Inv, IsTrace;
    TerminalWriteSucceeds(ss[n], a);
  }
}
