/**
 The VictoriaMetrics writer: callers put batches on a bounded ring that drops its oldest
 entry when full, one worker delivers them, and Close turns delivery into a bounded flush.

 A batch is named by the position at which its caller took the enqueue mutex.
 */
module PushRing {

  // ---------------------------------------------------------------- the protocol

  /** Where a call of OnResult stands; every place but Gone holds the batch. */
  datatype Caller = AtSend(batch: nat) | AtDrop(batch: nat) | AtResend(batch: nat)

  datatype Fate = Pushed | Dropped | Rejected | Abandoned

  datatype Outcome = NoReply | Reply(status: int)

  /** The worker; `flush` marks deliverBounded, `drain` that it returns to drainAndFlush. */
  datatype Worker =
    | Idle
    | Check(batch: nat, flush: bool, drain: bool)
    | Posting(batch: nat, flush: bool, drain: bool)
    | Waiting(batch: nat, flush: bool, drain: bool)
    | Draining
    | Exited

  /** The counters the writer reports, with the batches behind them. */
  datatype Ledger = Ledger(
    pushedCount: nat, failedCount: nat, droppedCount: nat,
    pushed: seq<nat>, dropped: seq<nat>, rejected: seq<nat>, abandoned: seq<nat>,
    retries: nat)                // failed posts that were not conclusive

  const BLANK := Ledger(0, 0, 0, [], [], [], [], 0)

  /** Books the end of a batch. */
  function Enter(k: Ledger, f: Fate, b: nat): Ledger {
    match f
    case Pushed => k.(pushedCount := k.pushedCount + 1, pushed := k.pushed + [b])
    case Dropped => k.(droppedCount := k.droppedCount + 1, dropped := k.dropped + [b])
    case Rejected => k.(failedCount := k.failedCount + 1, rejected := k.rejected + [b])
    case Abandoned => k.(failedCount := k.failedCount + 1, abandoned := k.abandoned + [b])
  }

  function Retried(k: Ledger): Ledger {
    k.(failedCount := k.failedCount + 1, retries := k.retries + 1)
  }

  datatype Writer = Writer(
    size: nat,
    ring: seq<nat>,
    enabled: bool,
    callers: map<int, Caller>,
    worker: Worker,
    stop: bool,                  // stop is closed
    cancelled: bool,             // reqCtx is cancelled
    flushOver: bool,             // the flush context has expired
    books: Ledger,
    accepted: nat,               // history: batches accepted so far
    stillFull: nat,              // history: drops by OnResult's last select
    exitAt: nat)                 // history: the first batch never seen by the worker

  function NewWriter(size: nat): Writer {
    Writer(size, [], false, map[], Idle, false, false, false, BLANK, 0, 0, 0)
  }

  /** The ring size New settles on. */
  function RingSize(configured: int): (n: nat)
    ensures n > 0
  {
    if configured <= 0 then 200 else configured
  }

  predicate Accepts(o: Outcome) {
    o.Reply? && o.status < 300
  }

  /** A 4xx other than 429: no retry can help. */
  predicate Refuses(o: Outcome) {
    o.Reply? && 400 <= o.status < 500 && o.status != 429
  }

  datatype Label =
    | Configure(on: bool)
    | Lock(id: int) | Send(id: int) | DropOldest(id: int) | SendAgain(id: int)
    | Take | CheckEnabled | PostDone(o: Outcome) | WaitOver | WaitStopped
    | StartDrain | DrainTake | DrainEmpty
    | CloseStop | CloseCancel | FlushExpires

  function Holding(w: Worker): seq<nat> {
    if w.Check? || w.Posting? || w.Waiting? then [w.batch] else []
  }

  function Finished(w: Worker): Worker {
    if w.Draining? || ((w.Check? || w.Posting? || w.Waiting?) && w.drain) then Draining else Idle
  }

  function Leave(w: Writer, id: int): Writer {
    w.(callers := w.callers - {id})
  }

  /** Closes the delivery of the batch the worker holds. */
  function Settle(w: Writer, f: Fate): Writer
    requires w.worker.Check? || w.worker.Posting? || w.worker.Waiting?
  {
    w.(worker := Finished(w.worker), books := Enter(w.books, f, w.worker.batch))
  }

  /** What deliver and deliverBounded do with the answer to one post. */
  function AfterPost(w: Writer, o: Outcome): Writer
    requires w.worker.Posting?
  {
    var b := w.worker.batch;
    if Accepts(o) then Settle(w, Pushed)
    else if !w.worker.flush && w.cancelled then w.(worker := Check(b, true, w.worker.drain))
    else if Refuses(o) then Settle(w, Rejected)
    else
      w.(worker := Waiting(b, w.worker.flush, w.worker.drain), books := Retried(w.books))
  }

  /** The check of the switch that starts every attempt. */
  function AfterCheck(w: Writer): Writer
    requires w.worker.Check?
  {
    if w.enabled then w.(worker := Posting(w.worker.batch, w.worker.flush, w.worker.drain))
    else if w.worker.flush then Settle(w, Dropped)
    else Settle(w, Abandoned)
  }

  function FirstSend(w: Writer, id: int): Writer
    requires id in w.callers
  {
    var b := w.callers[id].batch;
    if |w.ring| < w.size then Leave(w, id).(ring := w.ring + [b]) else w.(callers := w.callers[id := AtDrop(b)])
  }

  function DropFirst(w: Writer, id: int): Writer
    requires id in w.callers
  {
    var w1 := w.(callers := w.callers[id := AtResend(w.callers[id].batch)]);
    if w.ring == [] then w1
    else w1.(ring := w.ring[1..], books := Enter(w.books, Dropped, w.ring[0]))
  }

  function LastSend(w: Writer, id: int): Writer
    requires id in w.callers
  {
    var b := w.callers[id].batch;
    if |w.ring| < w.size then Leave(w, id).(ring := w.ring + [b])
    else Leave(w, id).(books := Enter(w.books, Dropped, b), stillFull := w.stillFull + 1)
  }

  function Receive(w: Writer): Writer
    requires w.ring != []
  {
    var draining := w.worker.Draining?;
    w.(ring := w.ring[1..], worker := Check(w.ring[0], draining, draining))
  }

  /** The wait between attempts is cut short by Close, or by the end of the flush. */
  function CutShort(w: Writer): Writer
    requires w.worker.Waiting?
  {
    if w.worker.flush
    then Settle(w, Dropped)
    else w.(worker := Check(w.worker.batch, true, w.worker.drain))
  }

  /** One atomic step. With `mutex` false, OnResult's three selects run without enqueueMu. */
  ghost predicate Step(mutex: bool, w: Writer, l: Label, w': Writer) {
    match l
    case Configure(on) => w' == w.(enabled := on)
    case Lock(id) =>
      && id !in w.callers && (mutex ==> w.callers == map[])
      && w' == w.(callers := w.callers[id := AtSend(w.accepted)], accepted := w.accepted + 1)
    case Send(id) => id in w.callers && w.callers[id].AtSend? && w' == FirstSend(w, id)
    case DropOldest(id) => id in w.callers && w.callers[id].AtDrop? && w' == DropFirst(w, id)
    case SendAgain(id) => id in w.callers && w.callers[id].AtResend? && w' == LastSend(w, id)
    case Take => w.worker.Idle? && w.ring != [] && w' == Receive(w)
    case CheckEnabled => w.worker.Check? && w' == AfterCheck(w)
    case PostDone(o) => w.worker.Posting? && w' == AfterPost(w, o)
    case WaitOver => w.worker.Waiting? && w' == w.(worker := Check(w.worker.batch, w.worker.flush, w.worker.drain))
    case WaitStopped => w.worker.Waiting? && (if w.worker.flush then w.flushOver else w.stop) && w' == CutShort(w)
    case StartDrain => w.worker.Idle? && w.stop && w' == w.(worker := Draining)
    case DrainTake => w.worker.Draining? && w.ring != [] && w' == Receive(w)
    case DrainEmpty => w.worker.Draining? && w.ring == [] && w' == w.(worker := Exited, exitAt := Newest(w))
    case CloseStop => w' == w.(stop := true)
    case CloseCancel => w.stop && w' == w.(cancelled := true)
    case FlushExpires => w.stop && w' == w.(flushOver := true)
  }

  /** One past the newest batch that has been on the ring. */
  function Newest(w: Writer): nat {
    if w.callers == map[] || w.accepted == 0 then w.accepted else w.accepted - 1
  }

  // ---------------------------------------------------------------- what always holds

  ghost function Occ(s: seq<nat>, b: nat): nat {
    multiset(s)[b]
  }

  ghost function Filed(k: Ledger, b: nat): nat {
    Occ(k.pushed, b) + Occ(k.dropped, b) + Occ(k.rejected, b) + Occ(k.abandoned, b)
  }

  /** How often a batch is anywhere but in a caller's hands. */
  ghost function Places(w: Writer, b: nat): nat {
    Occ(w.ring, b) + Occ(Holding(w.worker), b) + Filed(w.books, b)
  }

  ghost predicate Ascending(s: seq<nat>) {
    forall i, j :: 0 <= i < j < |s| ==> s[i] < s[j]
  }

  /** At most one caller is inside, with the newest batch; if it is about to resend there is room. */
  ghost predicate OneCaller(w: Writer) {
    && (forall i, j :: i in w.callers && j in w.callers ==> i == j)
    && (forall i :: i in w.callers ==> w.accepted > 0 && w.callers[i].batch == w.accepted - 1)
    && (forall i :: i in w.callers && w.callers[i].AtResend? ==> |w.ring| < w.size)
  }

  ghost predicate RingIsSuffix(w: Writer) {
    && |w.ring| <= w.size && |w.ring| <= Newest(w)
    && forall i :: 0 <= i < |w.ring| ==> w.ring[i] == Newest(w) - |w.ring| + i
  }

  /** The oldest batch that may still be pushed. */
  function Next(w: Writer): int {
    if Holding(w.worker) != [] then Holding(w.worker)[0] else Newest(w) - |w.ring|
  }

  ghost predicate InOrder(w: Writer) {
    && Next(w) <= Newest(w) - |w.ring|
    && (Holding(w.worker) != [] ==> Next(w) < Newest(w) - |w.ring|)
    && Ascending(w.books.pushed)
    && forall i :: 0 <= i < |w.books.pushed| ==> w.books.pushed[i] < Next(w)
  }

  ghost predicate Conserved(w: Writer) {
    forall b: nat :: Places(w, b) == if b < Newest(w) then 1 else 0
  }

  ghost predicate Balanced(k: Ledger) {
    && k.pushedCount == |k.pushed| && k.droppedCount == |k.dropped|
    && k.failedCount == |k.rejected| + |k.abandoned| + k.retries
  }

  ghost predicate Tidy(w: Writer) {
    && w.stillFull == 0
    && (w.worker.Exited? ==> w.exitAt + |w.ring| <= Newest(w))
    && (w.worker.Exited? || Finished(w.worker).Draining? ==> w.stop)
  }

  ghost predicate Inv(w: Writer) {
    w.size > 0 && OneCaller(w) && RingIsSuffix(w) && InOrder(w) && Conserved(w) && Balanced(w.books) && Tidy(w)
  }

  lemma OccAppend(s: seq<nat>, x: nat, b: nat)
    ensures Occ(s + [x], b) == Occ(s, b) + if x == b then 1 else 0
  {
  }

  lemma OccHead(s: seq<nat>, b: nat)
    requires s != []
    ensures Occ(s, b) == Occ(s[1..], b) + if s[0] == b then 1 else 0
  {
    assert s == [s[0]] + s[1..];
  }

  lemma OccSmall(x: nat, b: nat)
    ensures Occ([], b) == 0 && Occ([x], b) == if x == b then 1 else 0
  {
  }

  lemma SomeCaller(callers: map<int, Caller>)
    ensures callers == map[] || exists i :: i in callers
  {
    if forall i :: i !in callers {
      assert callers == map[];
    }
  }

  lemma FiledAfter(k: Ledger, f: Fate, x: nat, b: nat)
    ensures Filed(Enter(k, f, x), b) == Filed(k, b) + if x == b then 1 else 0
  {
    hide Occ;
    match f
    case Pushed => OccAppend(k.pushed, x, b);
    case Dropped => OccAppend(k.dropped, x, b);
    case Rejected => OccAppend(k.rejected, x, b);
    case Abandoned => OccAppend(k.abandoned, x, b);
  }

  /** What booking a batch does to everything but the totals. */
  lemma EnterKeeps(k: Ledger, f: Fate, x: nat)
    requires Balanced(k) && Ascending(k.pushed) && (f == Pushed ==> forall i :: 0 <= i < |k.pushed| ==> k.pushed[i] < x)
    ensures Balanced(Enter(k, f, x)) && Ascending(Enter(k, f, x).pushed)
    ensures Enter(k, f, x).pushed == if f == Pushed then k.pushed + [x] else k.pushed
  {
  }

  lemma LockKeeps(w: Writer, id: int)
    requires Inv(w) && w.callers == map[]
    ensures Inv(w.(callers := w.callers[id := AtSend(w.accepted)], accepted := w.accepted + 1))
  {
    var w' := w.(callers := w.callers[id := AtSend(w.accepted)], accepted := w.accepted + 1);
    assert id in w'.callers;
    assert forall b: nat :: Places(w', b) == Places(w, b);
  }

  /** Putting the caller's batch on the ring, from the first select or the last. */
  lemma EntryKeeps(w: Writer, id: int, w': Writer)
    requires Inv(w) && id in w.callers && |w.ring| < w.size
    requires w' == Leave(w, id).(ring := w.ring + [w.callers[id].batch])
    ensures Inv(w')
  {
    hide Occ, Filed;
    assert Newest(w') == Newest(w) + 1 by {
      assert forall i :: i in w.callers ==> i == id;
      assert w'.callers == map[];
    }
    forall b: nat ensures Places(w', b) == Places(w, b) + if b == Newest(w) then 1 else 0 {
      OccAppend(w.ring, w.callers[id].batch, b);
    }
  }

  lemma SendKeeps(w: Writer, id: int)
    requires Inv(w) && id in w.callers && (w.callers[id].AtSend? || w.callers[id].AtResend?)
    ensures Inv(if w.callers[id].AtSend? then FirstSend(w, id) else LastSend(w, id))
  {
    if |w.ring| < w.size {
      hide Conserved, RingIsSuffix, InOrder, Balanced, Tidy;
      EntryKeeps(w, id, Leave(w, id).(ring := w.ring + [w.callers[id].batch]));
    } else {
      var w' := FirstSend(w, id);
      assert id in w'.callers;
      assert forall b: nat :: Places(w', b) == Places(w, b);
    }
  }

  lemma DropKeeps(w: Writer, id: int)
    requires Inv(w) && id in w.callers && w.callers[id].AtDrop?
    ensures Inv(DropFirst(w, id))
  {
    hide Occ, Filed, Enter;
    var w' := DropFirst(w, id);
    assert id in w'.callers && Newest(w') == Newest(w);
    if w.ring != [] {
      EnterKeeps(w.books, Dropped, w.ring[0]);
    }
    forall b: nat ensures Places(w', b) == Places(w, b) {
      if w.ring != [] {
        OccHead(w.ring, b);
        FiledAfter(w.books, Dropped, w.ring[0], b);
      }
    }
  }

  lemma ReceiveKeeps(w: Writer)
    requires Inv(w) && w.ring != [] && (w.worker.Idle? || w.worker.Draining?)
    ensures Inv(Receive(w))
  {
    hide Occ, Filed;
    var w' := Receive(w);
    forall b: nat ensures Places(w', b) == Places(w, b) {
      OccHead(w.ring, b);
      OccSmall(w.ring[0], b);
    }
  }

  lemma SettleKeeps(w: Writer, f: Fate)
    requires Inv(w) && (w.worker.Check? || w.worker.Posting? || w.worker.Waiting?)
    ensures Inv(Settle(w, f))
  {
    hide Occ, Filed, Enter;
    var w' := Settle(w, f);
    var x := w.worker.batch;
    assert Next(w) == x;
    EnterKeeps(w.books, f, x);
    forall b: nat ensures Places(w', b) == Places(w, b) {
      FiledAfter(w.books, f, x, b);
      OccSmall(x, b);
    }
  }

  /** The worker goes on with what it holds. */
  lemma CarriesOn(w: Writer, w': Writer)
    requires Inv(w) && Holding(w'.worker) == Holding(w.worker)
    requires Finished(w'.worker).Draining? || w'.worker.Exited? ==> w.stop
    requires w'.worker.Exited? ==> w'.exitAt == Newest(w) && w.ring == []
    requires w' == w.(worker := w'.worker, books := w'.books, exitAt := w'.exitAt)
    requires w'.books == w.books || w'.books == Retried(w.books)
    ensures Inv(w')
  {
    hide Occ;
    assert forall b: nat :: Filed(w'.books, b) == Filed(w.books, b);
    assert forall b: nat :: Places(w', b) == Places(w, b);
  }

  lemma CheckKeeps(w: Writer)
    requires Inv(w) && w.worker.Check?
    ensures Inv(AfterCheck(w))
  {
    if w.enabled {
      CarriesOn(w, AfterCheck(w));
    } else {
      hide Conserved, RingIsSuffix, InOrder, Balanced, Tidy, OneCaller, Settle;
      SettleKeeps(w, if w.worker.flush then Dropped else Abandoned);
    }
  }

  lemma PostKeeps(w: Writer, o: Outcome)
    requires Inv(w) && w.worker.Posting?
    ensures Inv(AfterPost(w, o))
  {
    if Accepts(o) || ((w.worker.flush || !w.cancelled) && Refuses(o)) {
      hide Conserved, RingIsSuffix, InOrder, Balanced, Tidy, OneCaller, Settle;
      SettleKeeps(w, if Accepts(o) then Pushed else Rejected);
    } else {
      CarriesOn(w, AfterPost(w, o));
    }
  }

  lemma CutKeeps(w: Writer)
    requires Inv(w) && w.worker.Waiting?
    ensures Inv(CutShort(w))
  {
    if w.worker.flush {
      hide Conserved, RingIsSuffix, InOrder, Balanced, Tidy, OneCaller, Settle;
      SettleKeeps(w, Dropped);
    } else {
      CarriesOn(w, CutShort(w));
    }
  }

  lemma LoopKeeps(w: Writer, l: Label, w': Writer)
    requires Inv(w) && Step(true, w, l, w') && (l.WaitOver? || l.StartDrain? || l.DrainEmpty?)
    ensures Inv(w')
  {
    assert w.worker.Draining? ==> w.stop;
    hide Conserved, RingIsSuffix, InOrder, OneCaller;
    CarriesOn(w, w');
  }

  /** The steps that only flip a switch. */
  lemma SwitchKeeps(w: Writer, l: Label, w': Writer)
    requires Inv(w) && Step(true, w, l, w')
    requires l.Configure? || l.CloseStop? || l.CloseCancel? || l.FlushExpires?
    ensures Inv(w')
  {
    assert w' == w.(enabled := w'.enabled, stop := w'.stop, cancelled := w'.cancelled, flushOver := w'.flushOver);
    assert forall b: nat :: Places(w', b) == Places(w, b);
  }

  ghost predicate IsTrace(mutex: bool, ws: seq<Writer>, ls: seq<Label>) {
    && |ws| == |ls| + 1 && ws[0].size > 0 && ws[0] == NewWriter(ws[0].size)
    && forall i :: 0 <= i < |ls| ==> Step(mutex, ws[i], ls[i], ws[i + 1])
  }

  lemma {:induction false} TraceKeeps(ws: seq<Writer>, ls: seq<Label>, i: nat)
    requires IsTrace(true, ws, ls) && i < |ws|
    ensures Inv(ws[i])
  {
    if i > 0 {
      TraceKeeps(ws, ls, i - 1);
      StepKeeps(ws[i - 1], ls[i - 1], ws[i]);
    }
  }

  lemma StepKeeps(w: Writer, l: Label, w': Writer)
    requires Inv(w) && Step(true, w, l, w')
    ensures Inv(w')
  {
    hide Inv, FirstSend, DropFirst, LastSend, Receive, AfterCheck, AfterPost, CutShort;
    match l
    case Lock(id) => LockKeeps(w, id);
    case Send(id) => SendKeeps(w, id);
    case DropOldest(id) => DropKeeps(w, id);
    case SendAgain(id) => SendKeeps(w, id);
    case Take => ReceiveKeeps(w);
    case DrainTake => ReceiveKeeps(w);
    case Configure(_) => SwitchKeeps(w, l, w');
    case CloseStop => SwitchKeeps(w, l, w');
    case CloseCancel => SwitchKeeps(w, l, w');
    case FlushExpires => SwitchKeeps(w, l, w');
    case CheckEnabled => CheckKeeps(w);
    case PostDone(o) => PostKeeps(w, o);
    case WaitStopped => CutKeeps(w);
    case _ => LoopKeeps(w, l, w');
  }

  // ---------------------------------------------------------------- main results

  /** Every batch handed over is in exactly one place, and no other batch is anywhere. */
  lemma BatchesAreConserved(ws: seq<Writer>, ls: seq<Label>, i: nat, b: nat)
    requires IsTrace(true, ws, ls) && i < |ws|
    ensures var w := ws[i];
            multiset(w.ring)[b] + multiset(Holding(w.worker))[b] + multiset(w.books.pushed)[b]
            + multiset(w.books.dropped)[b] + multiset(w.books.rejected)[b] + multiset(w.books.abandoned)[b]
            + (if exists id :: id in w.callers && w.callers[id].batch == b then 1 else 0)
            == if b < w.accepted then 1 else 0
  {
    TraceKeeps(ws, ls, i);
    var w := ws[i];
    assert Places(w, b) == if b < Newest(w) then 1 else 0;
    SomeCaller(w.callers);
  }

  /** The ring holds the newest batches, in order, and never more than its size. */
  lemma RingHoldsTheNewest(ws: seq<Writer>, ls: seq<Label>, i: nat)
    requires IsTrace(true, ws, ls) && i < |ws|
    ensures RingIsSuffix(ws[i])
  {
    TraceKeeps(ws, ls, i);
  }

  /** Batches are pushed in the order they were accepted. */
  lemma PushesKeepOrder(ws: seq<Writer>, ls: seq<Label>, i: nat)
    requires IsTrace(true, ws, ls) && i < |ws|
    ensures Ascending(ws[i].books.pushed)
  {
    TraceKeeps(ws, ls, i);
  }

  /** Under the mutex the last select always finds room. */
  lemma LastSelectFindsRoom(ws: seq<Writer>, ls: seq<Label>, i: nat)
    requires IsTrace(true, ws, ls) && i < |ws|
    ensures ws[i].stillFull == 0
    ensures forall id :: id in ws[i].callers && ws[i].callers[id].AtResend? ==> |ws[i].ring| < ws[i].size
  {
    TraceKeeps(ws, ls, i);
  }

  /** The batches the counters close. */
  function Closed(k: Ledger): int {
    k.pushedCount + k.droppedCount + (k.failedCount - k.retries)
  }

  lemma EnterCloses(k: Ledger, f: Fate, b: nat)
    ensures Closed(Enter(k, f, b)) == Closed(k) + 1 && Closed(Retried(k)) == Closed(k)
  {
  }

  /** Accepted batches, by the counters and by where the rest is. */
  ghost predicate Accounted(w: Writer) {
    w.accepted == Closed(w.books) + |w.ring| + |Holding(w.worker)| + |w.callers|
  }

  lemma CallerSizes(callers: map<int, Caller>, id: int, c: Caller)
    ensures |callers[id := c]| == |callers| + (if id in callers then 0 else 1)
    ensures |callers - {id}| == |callers| - (if id in callers then 1 else 0)
  {
    assert callers[id := c].Keys == callers.Keys + {id};
    assert (callers - {id}).Keys == callers.Keys - {id};
  }

  lemma LockAccounted(w: Writer, id: int)
    requires Accounted(w) && id !in w.callers
    ensures Accounted(w.(callers := w.callers[id := AtSend(w.accepted)], accepted := w.accepted + 1))
  {
    hide Closed, Holding;
    CallerSizes(w.callers, id, AtSend(w.accepted));
  }

  lemma SendAccounted(w: Writer, id: int)
    requires Accounted(w) && id in w.callers
    ensures Accounted(FirstSend(w, id))
  {
    hide Closed, Holding;
    CallerSizes(w.callers, id, AtDrop(w.callers[id].batch));
  }

  lemma ResendAccounted(w: Writer, id: int)
    requires Accounted(w) && id in w.callers
    ensures Accounted(LastSend(w, id))
  {
    hide Closed, Holding, Enter;
    CallerSizes(w.callers, id, AtDrop(w.callers[id].batch));
    EnterCloses(w.books, Dropped, w.callers[id].batch);
  }

  lemma DropAccounted(w: Writer, id: int)
    requires Accounted(w) && id in w.callers
    ensures Accounted(DropFirst(w, id))
  {
    hide Enter, Closed;
    CallerSizes(w.callers, id, AtResend(w.callers[id].batch));
    if w.ring != [] {
      EnterCloses(w.books, Dropped, w.ring[0]);
    }
  }

  lemma SettleAccounted(w: Writer, f: Fate)
    requires Accounted(w) && (w.worker.Check? || w.worker.Posting? || w.worker.Waiting?)
    ensures Accounted(Settle(w, f))
  {
    hide Enter, Closed;
    EnterCloses(w.books, f, w.worker.batch);
  }

  lemma CheckAccounted(w: Writer)
    requires Accounted(w) && w.worker.Check?
    ensures Accounted(AfterCheck(w))
  {
    hide Closed, Settle;
    if !w.enabled {
      SettleAccounted(w, if w.worker.flush then Dropped else Abandoned);
    }
  }

  lemma PostAccounted(w: Writer, o: Outcome)
    requires Accounted(w) && w.worker.Posting?
    ensures Accounted(AfterPost(w, o))
  {
    hide Closed, Settle, Retried;
    EnterCloses(w.books, Pushed, 0);
    SettleAccounted(w, Pushed);
    SettleAccounted(w, Rejected);
  }

  lemma CutAccounted(w: Writer)
    requires Accounted(w) && w.worker.Waiting?
    ensures Accounted(CutShort(w))
  {
    hide Closed, Settle;
    SettleAccounted(w, Dropped);
  }

  lemma StepAccounted(w: Writer, l: Label, w': Writer)
    requires Accounted(w) && Step(true, w, l, w')
    ensures Accounted(w')
  {
    hide FirstSend, DropFirst, LastSend, AfterCheck, AfterPost, CutShort, Closed;
    match l
    case Lock(id) => LockAccounted(w, id);
    case Send(id) => SendAccounted(w, id);
    case DropOldest(id) => DropAccounted(w, id);
    case SendAgain(id) => ResendAccounted(w, id);
    case CheckEnabled => CheckAccounted(w);
    case PostDone(o) => PostAccounted(w, o);
    case WaitStopped => CutAccounted(w);
    case _ =>
  }

  lemma {:induction false} TraceAccounted(ws: seq<Writer>, ls: seq<Label>, i: nat)
    requires IsTrace(true, ws, ls) && i < |ws|
    ensures Accounted(ws[i])
  {
    hide Step;
    if i > 0 {
      TraceAccounted(ws, ls, i - 1);
      StepAccounted(ws[i - 1], ls[i - 1], ws[i]);
    }
  }

  lemma FewCallers(callers: map<int, Caller>)
    ensures (forall i, j :: i in callers && j in callers ==> i == j) ==> |callers| <= 1
  {
    if forall i, j :: i in callers && j in callers ==> i == j {
      if i :| i in callers {
        assert callers.Keys == {i};
      } else {
        assert callers.Keys == {};
      }
    }
  }

  /**
   The reported counters balance: every accepted batch is pushed, dropped, given up after a
   failure, queued, or in the hands of the worker or a caller. So what Stats shows brackets
   the number of accepted batches.
   */
  lemma CountersBalance(ws: seq<Writer>, ls: seq<Label>, i: nat)
    requires IsTrace(true, ws, ls) && i < |ws|
    ensures var w, k := ws[i], ws[i].books;
            && w.accepted == k.pushedCount + k.droppedCount + (k.failedCount - k.retries) + |w.ring| + |Holding(w.worker)| + |w.callers|
            && k.pushedCount + k.droppedCount + |w.ring| <= w.accepted
            && w.accepted <= k.pushedCount + k.droppedCount + k.failedCount + |w.ring| + 2
  {
    hide Step;
    TraceKeeps(ws, ls, i);
    TraceAccounted(ws, ls, i);
    FewCallers(ws[i].callers);
  }

  /** Close leaves no batch behind: what the ring had when the worker left is settled. */
  lemma CloseSettlesTheRing(ws: seq<Writer>, ls: seq<Label>, i: nat, b: nat)
    requires IsTrace(true, ws, ls) && i < |ws| && ws[i].worker.Exited? && b < ws[i].exitAt
    ensures var k := ws[i].books; b in k.pushed || b in k.dropped || b in k.rejected || b in k.abandoned
  {
    TraceKeeps(ws, ls, i);
    var w := ws[i];
    assert Places(w, b) == 1;
    assert b !in w.ring;
  }

  lemma Extend(mutex: bool, ws: seq<Writer>, ls: seq<Label>, l: Label, w: Writer)
    requires IsTrace(mutex, ws, ls) && Step(mutex, ws[|ls|], l, w)
    ensures IsTrace(mutex, ws + [w], ls + [l])
  {
    hide Step;
  }

  /** A ring of one, full, with a caller that has found it so. */
  lemma FoundFull() returns (ws: seq<Writer>, ls: seq<Label>)
    ensures IsTrace(false, ws, ls)
    ensures ws[|ls|] == NewWriter(1).(ring := [0], callers := map[0 := AtDrop(1)], accepted := 2)
  {
    var w0 := NewWriter(1);
    var w1 := w0.(callers := map[0 := AtSend(0)], accepted := 1);
    var w2 := w1.(callers := map[], ring := [0]);
    var w3 := w2.(callers := map[0 := AtSend(1)], accepted := 2);
    var w4 := w3.(callers := map[0 := AtDrop(1)]);
    assert w1.callers - {0} == map[];
    assert Step(false, w0, Lock(0), w1) && Step(false, w1, Send(0), w2) && Step(false, w2, Lock(0), w3) && Step(false, w3, Send(0), w4);
    hide Step;
    ws, ls := [w0], [];
    Extend(false, ws, ls, Lock(0), w1); ws, ls := ws + [w1], ls + [Lock(0)];
    Extend(false, ws, ls, Send(0), w2); ws, ls := ws + [w2], ls + [Send(0)];
    Extend(false, ws, ls, Lock(0), w3); ws, ls := ws + [w3], ls + [Lock(0)];
    Extend(false, ws, ls, Send(0), w4); ws, ls := ws + [w4], ls + [Send(0)];
  }

  /** A ring of one, where one caller has made room and another, newer, has taken it. */
  lemma Overtaken() returns (ws: seq<Writer>, ls: seq<Label>)
    ensures IsTrace(false, ws, ls)
    ensures var w := ws[|ls|]; w.size == 1 && w.ring == [2] && w.callers == map[0 := AtResend(1)] && w.stillFull == 0
  {
    ws, ls := FoundFull();
    var w4 := ws[|ls|];
    var w5 := w4.(callers := map[0 := AtResend(1)], ring := [], books := Enter(BLANK, Dropped, 0));
    var w6 := w5.(callers := map[0 := AtResend(1), 1 := AtSend(2)], accepted := 3);
    var w7 := w6.(callers := map[0 := AtResend(1)], ring := [2]);
    assert w6.callers - {1} == w7.callers;
    assert Step(false, w4, DropOldest(0), w5) && Step(false, w5, Lock(1), w6) && Step(false, w6, Send(1), w7);
    hide Step;
    Extend(false, ws, ls, DropOldest(0), w5); ws, ls := ws + [w5], ls + [DropOldest(0)];
    Extend(false, ws, ls, Lock(1), w6); ws, ls := ws + [w6], ls + [Lock(1)];
    Extend(false, ws, ls, Send(1), w7); ws, ls := ws + [w7], ls + [Send(1)];
  }

  /** Without the mutex a caller can find the room it made taken, and lose its own batch. */
  lemma LastSelectNeedsTheMutex()
    ensures exists ws: seq<Writer>, ls: seq<Label> :: IsTrace(false, ws, ls) && ws[|ls|].stillFull > 0
  {
    var ws, ls := Overtaken();
    var w' := LastSend(ws[|ls|], 0);
    Extend(false, ws, ls, SendAgain(0), w');
    ws, ls := ws + [w'], ls + [SendAgain(0)];
    assert ws[|ls|].stillFull > 0;
  }

  // ---------------------------------------------------------------- what each fate takes

  /** What the step adds to the books, batch by batch. */
  ghost predicate Earns(w: Writer, l: Label, w': Writer) {
    var (k, k') := (w.books, w'.books);
    var accepted := l.PostDone? && l.o.Reply? && l.o.status < 300;
    var refused := l.PostDone? && l.o.Reply? && 400 <= l.o.status < 500 && l.o.status != 429;
    && k'.pushed == k.pushed + (if accepted then Holding(w.worker) else [])
    && k'.rejected == k.rejected + (if refused && (w.worker.Posting? && (w.worker.flush || !w.cancelled)) then Holding(w.worker) else [])
    && k'.abandoned == k.abandoned + (if l.CheckEnabled? && !w.enabled && w.worker.Check? && !w.worker.flush then Holding(w.worker) else [])
    && k'.dropped == k.dropped +
         (if (l.CheckEnabled? && !w.enabled && w.worker.Check? && w.worker.flush) || (l.WaitStopped? && w.worker.Waiting? && w.worker.flush)
          then Holding(w.worker)
          else if l.DropOldest? && w.ring != [] then [w.ring[0]]
          else if l.SendAgain? && l.id in w.callers && |w.ring| >= w.size then [w.callers[l.id].batch] else [])
    && k'.retries == k.retries +
         (if l.PostDone? && !accepted && !refused && w.worker.Posting? && (w.worker.flush || !w.cancelled) then 1 else 0)
  }

  /** Where the worker stands after the steps that decide how a delivery goes on. */
  ghost predicate GoesOn(w: Writer, l: Label, w': Writer) {
    var accepted := l.PostDone? && l.o.Reply? && l.o.status < 300;
    var refused := l.PostDone? && l.o.Reply? && 400 <= l.o.status < 500 && l.o.status != 429;
    match w.worker
    case Posting(b, flush, drain) =>
      l.PostDone? ==>
        w'.worker == if !accepted && !flush && w.cancelled then Check(b, true, drain)
                     else if accepted || refused then if drain then Draining else Idle
                     else Waiting(b, flush, drain)
    case Check(b, flush, drain) =>
      l.CheckEnabled? ==> w'.worker == if w.enabled then Posting(b, flush, drain) else if drain then Draining else Idle
    case Waiting(b, flush, drain) =>
      && (l.WaitOver? ==> w'.worker == Check(b, flush, drain))
      && (l.WaitStopped? ==> w'.worker == if !flush then Check(b, true, drain) else if drain then Draining else Idle)
    case _ => l.DrainTake? || l.Take? ==> w.ring != [] && w'.worker == Check(w.ring[0], l.DrainTake?, l.DrainTake?)
  }

  /** Close turns the delivery in hand into the bounded one: a cancelled post and a wait cut short both go on as a flush. */
  lemma DeliveryGoesOn(ws: seq<Writer>, ls: seq<Label>, i: nat)
    requires IsTrace(true, ws, ls) && i < |ls|
    ensures GoesOn(ws[i], ls[i], ws[i + 1])
  {
    assert Step(true, ws[i], ls[i], ws[i + 1]);
  }

  lemma NothingAdded(k: Ledger)
    ensures k.pushed + [] == k.pushed && k.rejected + [] == k.rejected && k.abandoned + [] == k.abandoned && k.dropped + [] == k.dropped
  {
  }

  /** The books after a post. */
  lemma PostBooks(w: Writer, o: Outcome)
    requires w.worker.Posting?
    ensures var (k, b) := (w.books, w.worker.batch);
            AfterPost(w, o).books ==
              if o.Reply? && o.status < 300 then k.(pushedCount := k.pushedCount + 1, pushed := k.pushed + [b])
              else if !w.worker.flush && w.cancelled then k
              else if o.Reply? && 400 <= o.status < 500 && o.status != 429 then k.(failedCount := k.failedCount + 1, rejected := k.rejected + [b])
              else k.(failedCount := k.failedCount + 1, retries := k.retries + 1)
  {
  }

  lemma PostEarns(w: Writer, o: Outcome, w': Writer)
    requires w.worker.Posting? && w'.books == AfterPost(w, o).books
    ensures Earns(w, PostDone(o), w')
  {
    PostBooks(w, o);
    NothingAdded(w.books);
    hide AfterPost;
  }

  lemma WorkerEarns(w: Writer, l: Label, w': Writer)
    requires Step(true, w, l, w') && (l.CheckEnabled? || l.WaitStopped?)
    ensures Earns(w, l, w')
  {
    hide Finished;
  }

  lemma CallerEarns(w: Writer, l: Label, w': Writer)
    requires Step(true, w, l, w') && !l.CheckEnabled? && !l.PostDone? && !l.WaitStopped?
    ensures Earns(w, l, w')
  {
  }

  /**
   A batch is pushed exactly when a post of it is answered below 300; given up as rejected on
   a 4xx other than 429, unless Close has cut that post short; abandoned when pushing is
   switched off outside the flush, and dropped when it is inside, or when the flush runs out;
   dropped off a full ring by a newer one. Every other answer, 429 and 5xx included, is retried.
   */
  lemma FatesAreEarned(ws: seq<Writer>, ls: seq<Label>, i: nat)
    requires IsTrace(true, ws, ls) && i < |ls|
    ensures Earns(ws[i], ls[i], ws[i + 1])
  {
    assert Step(true, ws[i], ls[i], ws[i + 1]);
    hide Step, Earns;
    if ls[i].PostDone? {
      PostEarns(ws[i], ls[i].o, ws[i + 1]);
    } else if ls[i].CheckEnabled? || ls[i].WaitStopped? {
      WorkerEarns(ws[i], ls[i], ws[i + 1]);
    } else {
      CallerEarns(ws[i], ls[i], ws[i + 1]);
    }
  }

  // ---------------------------------------------------------------- the code in its own form

  class Ring {
    const size: nat
    var items: seq<nat>
    var dropped: nat

    predicate Valid()
      reads this
    {
      0 < size && |items| <= size
    }

    constructor (configured: int)
      ensures Valid() && items == [] && dropped == 0 && size == if configured <= 0 then 200 else configured
    {
      size := RingSize(configured);
      items, dropped := [], 0;
    }

    /** What the worker receives while a caller is between two selects. */
    method WorkerTakes(n: nat)
      requires Valid()
      modifies this
      ensures Valid() && dropped == old(dropped)
      ensures items == if n <= |old(items)| then old(items)[n..] else []
    {
      items := if n <= |items| then items[n..] else [];
    }

    /** The ring is that of this writer. */
    predicate Shows(w: Writer)
      reads this
    {
      w.size == size && w.ring == items && w.books.droppedCount == dropped
    }

    /** The first select: send if there is room. */
    method TrySend(b: nat) returns (sent: bool)
      requires Valid()
      modifies this
      ensures Valid() && dropped == old(dropped) && sent == (|old(items)| < size)
      ensures items == if sent then old(items) + [b] else old(items)
      ensures forall w, id :: old(Shows(w)) && id in w.callers && w.callers[id].batch == b ==> Shows(FirstSend(w, id))
    {
      sent := |items| < size;
      if sent {
        items := items + [b];
      }
    }

    /** The second: drop the oldest, if there is one. */
    method DropOne() returns (lost: seq<nat>)
      requires Valid()
      modifies this
      ensures Valid() && lost + items == old(items) && dropped == old(dropped) + |lost| && (old(items) != [] ==> |lost| == 1)
      ensures forall w, id :: old(Shows(w)) && id in w.callers ==> Shows(DropFirst(w, id))
    {
      lost := [];
      if items != [] {
        lost := [items[0]];
        items, dropped := items[1..], dropped + 1;
      }
    }

    /** The last: send if there is room, else the batch itself is dropped. */
    method SendOrDrop(b: nat) returns (sent: bool)
      requires Valid()
      modifies this
      ensures Valid() && sent == (|old(items)| < size) && dropped == old(dropped) + (if sent then 0 else 1)
      ensures items == if sent then old(items) + [b] else old(items)
      ensures forall w, id :: old(Shows(w)) && id in w.callers && w.callers[id].batch == b ==> Shows(LastSend(w, id))
    {
      sent := |items| < size;
      if sent {
        items := items + [b];
      } else {
        dropped := dropped + 1;
      }
    }

    /** OnResult's three selects, with the worker free to receive before the second and the last. */
    method Put(b: nat, n1: nat, n2: nat) returns (lost: seq<nat>)
      requires Valid()
      modifies this
      ensures Valid() && items != [] && items[|items| - 1] == b
      ensures |lost| <= 1 && dropped == old(dropped) + |lost|
      ensures lost == [] || (|old(items)| == size && n1 < size && lost == [old(items)[n1]])
      ensures exists k :: 0 <= k <= |old(items)| && items == old(items)[k..] + [b]
    {
      ghost var was := items;
      lost := [];
      var sent := TrySend(b);
      if sent {
        assert items == was[0..] + [b];
        return;
      }
      WorkerTakes(n1);
      lost := DropOne();
      WorkerTakes(n2);
      ghost var k := if n1 + n2 + 1 <= |was| then n1 + n2 + 1 else |was|;
      assert items == was[k..];
      sent := SendOrDrop(b);
      assert items == was[k..] + [b];
    }
  }

  function Pow2(n: nat): nat {
    if n == 0 then 1 else 2 * Pow2(n - 1)
  }

  const FIRST_WAIT := 200

  /** The k-th wait of a delivery in milliseconds, counting from 0. */
  function Wait(k: nat, longest: nat): nat {
    if k == 0 then FIRST_WAIT else if FIRST_WAIT * Pow2(k) <= longest then FIRST_WAIT * Pow2(k) else longest
  }

  /** One turn of deliver's loop: the switch, the answer, Close's cancellation, Close during the wait. */
  datatype Turn = Turn(enabled: bool, o: Outcome, cancelled: bool, stopped: bool)

  datatype Verdict = Settled(fate: Fate) | ToFlush | Undecided

  function TurnVerdict(t: Turn): Verdict {
    if !t.enabled then Settled(Abandoned)
    else if Accepts(t.o) then Settled(Pushed)
    else if t.cancelled then ToFlush
    else if Refuses(t.o) then Settled(Rejected)
    else if t.stopped then ToFlush
    else Undecided
  }

  /** deliver, over the turns its surroundings offer it: the first deciding turn settles the batch. */
  method Deliver(turns: seq<Turn>, longest: nat) returns (verdict: Verdict, used: nat, waits: seq<nat>, failed: nat)
    requires longest > 0
    ensures used <= |turns|
    ensures verdict == Undecided ==> used == |turns| && |waits| == used && failed == used
    ensures verdict != Undecided ==> used > 0 && verdict == TurnVerdict(turns[used - 1]) && |waits| == used - 1
    ensures forall k :: 0 <= k < |waits| ==> TurnVerdict(turns[k]) == Undecided && waits[k] == Wait(k, longest)
    ensures verdict == Settled(Pushed) ==> failed == used - 1
    ensures verdict == Settled(Abandoned) || verdict == Settled(Rejected) ==> failed == used
    ensures verdict != Undecided ==>
              var t := turns[used - 1];
              && verdict == (if !t.enabled then Settled(Abandoned)
                             else if t.o.Reply? && t.o.status < 300 then Settled(Pushed)
                             else if t.cancelled then ToFlush
                             else if t.o.Reply? && 400 <= t.o.status < 500 && t.o.status != 429 then Settled(Rejected)
                             else ToFlush)
              && (verdict == ToFlush ==> t.cancelled || t.stopped)
              && failed == used - if verdict == Settled(Pushed) || (verdict == ToFlush && t.cancelled) then 1 else 0
    ensures forall k :: 0 <= k < |waits| ==>
              && turns[k].enabled && !turns[k].cancelled && !turns[k].stopped
              && (turns[k].o.NoReply? || 300 <= turns[k].o.status < 400 || turns[k].o.status == 429 || turns[k].o.status >= 500)
    ensures waits != [] ==> waits[0] == 200
    ensures forall k :: 0 <= k < |waits| - 1 ==> waits[k + 1] == if 2 * waits[k] > longest then longest else 2 * waits[k]
  {
    var backoff := FIRST_WAIT;
    waits, failed, used := [], 0, 0;
    while used < |turns|
      invariant used <= |turns| && |waits| == used && failed == used
      invariant backoff == Wait(used, longest) && (used > 0 ==> backoff <= longest)
      invariant forall k :: 0 <= k < |waits| ==> TurnVerdict(turns[k]) == Undecided && waits[k] == Wait(k, longest)
    {
      var t := turns[used];
      used := used + 1;
      if !t.enabled {
        failed := failed + 1;
        return Settled(Abandoned), used, waits, failed;
      }
      if Accepts(t.o) {
        return Settled(Pushed), used, waits, failed;
      }
      if t.cancelled {
        return ToFlush, used, waits, failed;
      }
      failed := failed + 1;
      if Refuses(t.o) {
        return Settled(Rejected), used, waits, failed;
      }
      if t.stopped {
        return ToFlush, used, waits, failed;
      }
      waits := waits + [backoff];
      NextWait(used - 1, longest);
      backoff := backoff * 2;
      if backoff > longest {
        backoff := longest;
      }
    }
    verdict := Undecided;
  }

  lemma NextWait(k: nat, longest: nat)
    requires longest > 0
    ensures Wait(k + 1, longest) == if 2 * Wait(k, longest) > longest then longest else 2 * Wait(k, longest)
  {
    assert Pow2(k + 1) == 2 * Pow2(k);
  }
}
