/**
 Targets, their revision log, and the queues they run in.

 A transaction either applies in full or leaves everything as it was. JSON documents are
 compact text, "" when absent; a snapshot is the value its JSON text denotes.
 */
module Revisions {
  import opened Options

  type Doc = string

  datatype Target = Target(
    id: int, name: string, engine: string, enabled: bool, queue: int,
    options: Doc, thresholds: Doc, rotation: nat, created: string, updated: string)

  /** A stored snapshot; those written before queues existed have queue 0 and a lane. */
  datatype Snapshot = Snapshot(target: Target, lane: string)

  datatype Action = Create | Update | Revert | Delete | Restore

  datatype Rev = Rev(action: Action, snapshot: Snapshot)

  /** target_revisions, keyed as its UNIQUE(target_id, version) says. */
  type Log = map<(int, int), Rev>

  datatype Db = Db(live: map<int, Target>, log: Log, queues: map<int, string>, targetSeq: nat, queueSeq: nat)

  datatype Error = NotFound | IdConflict | NameConflict | LastQueue | QueueInUse | Invalid | Failed

  const KEEP := 50

  // ---------------------------------------------------------------- the log

  ghost function Versions(log: Log, id: int): set<int> {
    set k | k in log && k.0 == id :: k.1
  }

  /** MAX(...) with 0 for no rows. */
  ghost function Largest(s: set<int>): (m: int)
    ensures s == {} ==> m == 0
    ensures s != {} ==> m in s && forall x :: x in s ==> x <= m
  {
    if exists x :: x in s then
      var x :| x in s;
      var rest := Largest(s - {x});
      assert forall y :: y in s ==> y == x || y in s - {x};
      if s - {x} == {} || rest < x then x else rest
    else 0
  }

  ghost function MaxVersion(log: Log, id: int): int {
    Largest(Versions(log, id))
  }

  lemma MaxIsMax(log: Log, id: int)
    ensures forall v :: (id, v) in log ==> v <= MaxVersion(log, id)
    ensures (exists v :: (id, v) in log) ==> (id, MaxVersion(log, id)) in log
    ensures (forall v :: (id, v) !in log) ==> MaxVersion(log, id) == 0
  {
    var vs := Versions(log, id);
    assert forall v :: (id, v) in log <==> v in vs;
    if forall v :: (id, v) !in log {
      assert vs == {};
    }
  }

  lemma MaxIsUnique(log: Log, id: int, n: int)
    requires (id, n) in log && forall v :: (id, v) in log ==> v <= n
    ensures MaxVersion(log, id) == n
  {
    MaxIsMax(log, id);
  }

  /** insertRevision: the next version, then the prune. */
  ghost function Inserted(log: Log, id: int, rev: Rev): Log {
    var v := MaxVersion(log, id) + 1;
    var all := log[(id, v) := rev];
    map k | k in all && !(k.0 == id && k.1 <= v - KEEP) :: all[k]
  }

  /**
   The log has one revision more, under the next version of its target; of that target's older
   revisions those 50 or more versions back are gone, and everything else is as it was.
   */
  ghost predicate Logged(log: Log, log': Log, id: int, rev: Rev) {
    var n := MaxVersion(log, id) + 1;
    && MaxVersion(log', id) == n && (id, n) in log' && log'[(id, n)] == rev
    && (forall k :: k in log' && k != (id, n) ==> k in log && log'[k] == log[k])
    && (forall k :: k in log && k != (id, n) ==> (k in log' <==> k.0 != id || k.1 > n - 50))
  }

  lemma InsertedIsLogged(log: Log, id: int, rev: Rev)
    ensures Logged(log, Inserted(log, id, rev), id, rev)
  {
    hide MaxVersion;
    MaxIsMax(log, id);
    MaxIsUnique(Inserted(log, id, rev), id, MaxVersion(log, id) + 1);
  }

  /** The kept versions of every target are its contiguous last min(n, KEEP). */
  ghost predicate Contiguous(log: Log) {
    forall id, v :: (id, v) in log <==> 1 <= v <= MaxVersion(log, id) < v + KEEP
  }

  lemma InsertedMax(log: Log, id: int, rev: Rev, j: int)
    requires Contiguous(log)
    ensures MaxVersion(Inserted(log, id, rev), j) == MaxVersion(log, j) + (if j == id then 1 else 0)
  {
    var log' := Inserted(log, id, rev);
    MaxIsMax(log, j);
    if j == id {
      MaxIsUnique(log', id, MaxVersion(log, id) + 1);
    } else {
      assert forall v :: (j, v) in log' <==> (j, v) in log;
      assert Versions(log', j) == Versions(log, j);
    }
  }

  lemma InsertedKeeps(log: Log, id: int, rev: Rev)
    requires Contiguous(log)
    ensures Contiguous(Inserted(log, id, rev))
  {
    hide MaxVersion;
    MaxIsMax(log, id);
    forall j, v
      ensures (j, v) in Inserted(log, id, rev) <==> 1 <= v <= MaxVersion(Inserted(log, id, rev), j) < v + KEEP
    {
      InsertedMax(log, id, rev, j);
      assert MaxVersion(log, id) >= 0 by {
        if MaxVersion(log, id) != 0 {
          assert (id, MaxVersion(log, id)) in log;
        }
      }
    }
  }

  // ---------------------------------------------------------------- queues

  /** The queue with the lowest id. */
  ghost function DefaultQueue(queues: map<int, string>): int
    requires exists q :: q in queues
  {
    LowestExists(queues.Keys);
    var q :| q in queues && forall p :: p in queues ==> q <= p;
    q
  }

  lemma {:induction false} LowestExists(s: set<int>)
    requires exists x :: x in s
    ensures exists q :: q in s && forall p :: p in s ==> q <= p
    decreases |s|
  {
    var x :| x in s;
    var rest := s - {x};
    assert forall p :: p in s ==> p == x || p in rest;
    if exists p :: p in rest {
      LowestExists(rest);
      var q :| q in rest && forall p :: p in rest ==> q <= p;
      var low := if x < q then x else q;
      assert low in s && forall p :: p in s ==> low <= p;
    }
  }

  ghost predicate NamesDistinct(queues: map<int, string>) {
    forall p, q :: p in queues && q in queues && queues[p] == queues[q] ==> p == q
  }

  /** queueLookup.resolve: the id, else the lane's name, else the default queue. */
  ghost function Resolve(queues: map<int, string>, s: Snapshot): int
    requires exists q :: q in queues
  {
    if s.target.queue != 0 && s.target.queue in queues then s.target.queue
    else if s.lane != "" && exists q :: q in queues && queues[q] == s.lane then
      var q :| q in queues && queues[q] == s.lane; q
    else DefaultQueue(queues)
  }

  /** loadQueueLookup over the queues in id order; no queues at all is an error. */
  method LoadLookup(ids: seq<int>, queues: map<int, string>) returns (ok: bool, byId: map<int, string>, byName: map<string, int>, default: int)
    requires (forall i :: 0 <= i < |ids| ==> ids[i] in queues) && (forall q :: q in queues ==> q in ids)
    requires forall i, j :: 0 <= i < j < |ids| ==> ids[i] < ids[j]
    requires NamesDistinct(queues)
    ensures ok <==> exists q :: q in queues
    ensures ok ==> byId == queues
    ensures ok ==> forall q :: q in queues ==> queues[q] in byName && byName[queues[q]] == q
    ensures ok ==> forall n :: n in byName ==> byName[n] in queues && queues[byName[n]] == n
    ensures ok ==> default in queues && forall q :: q in queues ==> default <= q
  {
    ok, byId, byName, default := |ids| > 0, map[], map[], 0;
    if !ok {
      return;
    }
    assert ids[0] in queues;
    for i := 0 to |ids|
      invariant forall k :: 0 <= k < i ==> ids[k] in byId
      invariant forall q :: q in byId ==> q in queues && byId[q] == queues[q]
      invariant forall q :: q in byId ==> queues[q] in byName && byName[queues[q]] == q
      invariant forall n :: n in byName ==> byName[n] in queues && queues[byName[n]] == n
      invariant i > 0 ==> default == ids[0]
    {
      byId := byId[ids[i] := queues[ids[i]]];
      byName := byName[queues[ids[i]] := ids[i]];
      if i == 0 {
        default := ids[i];
      }
    }
    forall q | q in queues ensures q in byId {
      var k :| 0 <= k < |ids| && ids[k] == q;
    }
    SameTable(byId, queues);
  }

  lemma SameTable(a: map<int, string>, b: map<int, string>)
    ensures (forall q :: q in a <==> q in b) && (forall q :: q in a && q in b ==> a[q] == b[q]) ==> a == b
  {
    if (forall q :: q in a <==> q in b) && (forall q :: q in a && q in b ==> a[q] == b[q]) {
      assert a.Keys == b.Keys;
      assert a == b;
    }
  }

  /** resolve over a loaded lookup. */
  method ResolveWith(byId: map<int, string>, byName: map<string, int>, default: int, s: Snapshot) returns (id: int)
    requires default in byId && forall q :: q in byId ==> default <= q
    requires forall q :: q in byId ==> byId[q] in byName && byName[byId[q]] == q
    requires forall n :: n in byName ==> byName[n] in byId && byId[byName[n]] == n
    ensures id == Resolve(byId, s)
  {
    if s.target.queue != 0 && s.target.queue in byId {
      return s.target.queue;
    }
    if s.lane != "" && s.lane in byName {
      return byName[s.lane];
    }
    return default;
  }

  // ---------------------------------------------------------------- operations

  datatype Op =
    | CreateTarget(t: Target, now: string)
    | UpdateTarget(t: Target, action: Action, now: string)
    | DeleteTarget(id: int)
    | RestoreTarget(t: Target, now: string)
    | NextRotation(id: int)
    | CreateQueue(name: string)
    | RenameQueue(id: int, name: string)
    | DeleteQueue(id: int)
    | Lost                      // any operation whose transaction fails

  function RawOrEmpty(d: Doc): Doc {
    if d == "" then "{}" else d
  }

  /** The stored row an insert or an update makes of the caller's fields. */
  function Stored(t: Target, id: int, rotation: nat, created: string, now: string): Target {
    t.(id := id, options := RawOrEmpty(t.options), thresholds := RawOrEmpty(t.thresholds),
       rotation := rotation, created := created, updated := now)
  }

  /** Reading a row joins its queue, so a row without one cannot be read and the transaction ends. */
  ghost function Write(db: Db, row: Target, action: Action): (Db, Option<Error>) {
    if row.queue !in db.queues then (db, Some(Failed))
    else (db.(live := db.live[row.id := row], log := Inserted(db.log, row.id, Rev(action, Snapshot(row, "")))), None)
  }

  function Max(a: int, b: int): int {
    if a < b then b else a
  }

  predicate NameTaken(queues: map<int, string>, name: string, but: int) {
    exists q :: q in queues && q != but && queues[q] == name
  }

  ghost function Apply(db: Db, op: Op): (Db, Option<Error>) {
    match op
    case CreateTarget(t, now) =>
      var id := db.targetSeq + 1;
      var (db1, err) := Write(db, Stored(t, id, 0, now, now), Create);
      if err.Some? then (db, err) else (db1.(targetSeq := id), None)
    case UpdateTarget(t, action, now) =>
      if t.id !in db.live then (db, Some(NotFound))
      else Write(db, Stored(t, t.id, db.live[t.id].rotation, db.live[t.id].created, now), if action == Revert then Revert else Update)
    case DeleteTarget(id) =>
      if id !in db.live || db.live[id].queue !in db.queues then (db, Some(NotFound))
      else (db.(live := db.live - {id}, log := Inserted(db.log, id, Rev(Delete, Snapshot(db.live[id], "")))), None)
    case RestoreTarget(t, now) =>
      if t.id in db.live then (db, Some(IdConflict))
      else
        var (db1, err) := Write(db, Stored(t, t.id, 0, t.created, now), Restore);
        if err.Some? then (db, err) else (db1.(targetSeq := Max(db.targetSeq, t.id)), None)
    case NextRotation(id) =>
      if id !in db.live then (db, Some(NotFound))
      else (db.(live := db.live[id := db.live[id].(rotation := db.live[id].rotation + 1)]), None)
    case CreateQueue(name) =>
      if exists q :: q in db.queues && db.queues[q] == name then (db, Some(NameConflict))
      else (db.(queues := db.queues[db.queueSeq + 1 := name], queueSeq := db.queueSeq + 1), None)
    case RenameQueue(id, name) =>
      if id !in db.queues then (db, Some(NotFound))
      else if NameTaken(db.queues, name, id) then (db, Some(NameConflict))
      else (db.(queues := db.queues[id := name]), None)
    case DeleteQueue(id) =>
      if id !in db.queues then (db, Some(NotFound))
      else if |db.queues| <= 1 then (db, Some(LastQueue))
      else if exists t :: t in db.live && db.live[t].queue == id then (db, Some(QueueInUse))
      else (db.(queues := db.queues - {id}), None)
    case Lost => (db, Some(Failed))
  }

  /** Any sequence of operations. */
  ghost function Run(db: Db, ops: seq<Op>): Db {
    if ops == [] then db else Apply(Run(db, ops[..|ops| - 1]), ops[|ops| - 1]).0
  }

  const FRESH := Db(map[], map[], map[1 := "wan", 2 := "lan"], 0, 2)

  // ---------------------------------------------------------------- what every operation keeps

  /** A target with history has a row exactly when its newest revision is not a delete. */
  ghost predicate RowsMatchLog(db: Db) {
    forall id :: MaxVersion(db.log, id) > 0 && (id, MaxVersion(db.log, id)) in db.log ==>
      (id in db.live <==> db.log[(id, MaxVersion(db.log, id))].action != Delete)
  }

  ghost predicate RowsAreSound(db: Db) {
    && (forall id :: id in db.live ==> db.live[id].id == id && id <= db.targetSeq)
    && (forall id :: id in db.live ==> db.live[id].queue in db.queues)
    && (forall id :: id in db.live ==> db.live[id].options != "" && db.live[id].thresholds != "")
    && (forall k :: k in db.log ==> k.0 <= db.targetSeq && db.log[k].snapshot.target.id == k.0)
  }

  ghost predicate QueuesAreSound(db: Db) {
    && (exists q :: q in db.queues) && NamesDistinct(db.queues)
    && forall q :: q in db.queues ==> 0 < q <= db.queueSeq
  }

  ghost predicate Inv(db: Db) {
    Contiguous(db.log) && RowsMatchLog(db) && RowsAreSound(db) && QueuesAreSound(db)
  }

  lemma FreshHolds()
    ensures Inv(FRESH)
  {
    assert 1 in FRESH.queues;
    forall id ensures MaxVersion(FRESH.log, id) == 0 {
      MaxIsMax(FRESH.log, id);
    }
  }

  lemma NewestOf(log: Log, id: int, rev: Rev)
    requires Contiguous(log)
    ensures var log' := Inserted(log, id, rev); var n := MaxVersion(log', id);
            (id, n) in log' && log'[(id, n)] == rev && n > 0
  {
    InsertedKeeps(log, id, rev);
    InsertedMax(log, id, rev, id);
    MaxIsMax(log, id);
    assert MaxVersion(log, id) >= 0;
  }

  /** Inserting a revision for one target changes nothing of another's history. */
  lemma OthersKept(log: Log, id: int, rev: Rev, j: int, v: int)
    requires Contiguous(log) && j != id
    ensures var log' := Inserted(log, id, rev);
            && MaxVersion(log', j) == MaxVersion(log, j)
            && ((j, v) in log' <==> (j, v) in log) && ((j, v) in log ==> log'[(j, v)] == log[(j, v)])
  {
    InsertedMax(log, id, rev, j);
  }

  lemma LoggedMatch(db: Db, db': Db, id: int, rev: Rev)
    requires Inv(db) && db'.log == Inserted(db.log, id, rev)
    requires id in db'.live <==> rev.action != Delete
    requires forall j :: j != id ==> (j in db'.live <==> j in db.live)
    ensures RowsMatchLog(db') && Contiguous(db'.log)
  {
    hide Inserted, MaxVersion;
    InsertedKeeps(db.log, id, rev);
    forall j | MaxVersion(db'.log, j) > 0 && (j, MaxVersion(db'.log, j)) in db'.log
      ensures j in db'.live <==> db'.log[(j, MaxVersion(db'.log, j))].action != Delete
    {
      NewestOf(db.log, id, rev);
      if j != id {
        OthersKept(db.log, id, rev, j, MaxVersion(db'.log, j));
      }
    }
  }

  lemma WriteKeeps(db: Db, row: Target, action: Action, seq': nat)
    requires Inv(db) && row.queue in db.queues && row.options != "" && row.thresholds != "" && action != Delete
    requires seq' >= db.targetSeq && row.id <= seq'
    ensures Inv(Write(db, row, action).0.(targetSeq := seq'))
  {
    hide MaxVersion;
    LoggedMatch(db, Write(db, row, action).0.(targetSeq := seq'), row.id, Rev(action, Snapshot(row, "")));
  }

  lemma DeleteKeeps(db: Db, id: int)
    requires Inv(db)
    ensures Inv(Apply(db, DeleteTarget(id)).0)
  {
    hide MaxVersion;
    if id in db.live && db.live[id].queue in db.queues {
      var db' := Apply(db, DeleteTarget(id)).0;
      LoggedMatch(db, db', id, Rev(Delete, Snapshot(db.live[id], "")));
    }
  }

  lemma CreateQueueKeeps(db: Db, name: string)
    requires Inv(db)
    ensures Inv(Apply(db, CreateQueue(name)).0)
  {
    hide MaxVersion;
    var db' := Apply(db, CreateQueue(name)).0;
    assert db' != db ==> db.queueSeq + 1 in db'.queues;
  }

  lemma RenameQueueKeeps(db: Db, id: int, name: string)
    requires Inv(db)
    ensures Inv(Apply(db, RenameQueue(id, name)).0)
  {
    hide MaxVersion;
    var db' := Apply(db, RenameQueue(id, name)).0;
    assert id in db.queues ==> id in db'.queues;
  }

  lemma DeleteQueueKeeps(db: Db, id: int)
    requires Inv(db)
    ensures Inv(Apply(db, DeleteQueue(id)).0)
  {
    hide MaxVersion;
    var db' := Apply(db, DeleteQueue(id)).0;
    if db' != db {
      Others(db.queues, id);
    }
  }

  lemma AtMostOne(queues: map<int, string>, id: int)
    ensures (forall q :: q in queues ==> q == id) ==> |queues| <= 1
  {
    if forall q :: q in queues ==> q == id {
      if id in queues {
        assert queues.Keys == {id};
      } else {
        assert queues.Keys == {};
      }
    }
  }

  lemma Others(queues: map<int, string>, id: int)
    requires |queues| > 1
    ensures exists q :: q in queues - {id}
  {
    AtMostOne(queues, id);
    var q :| q in queues && q != id;
    assert q in queues - {id};
  }

  lemma CreateKeeps(db: Db, t: Target, now: string)
    requires Inv(db)
    ensures Inv(Apply(db, CreateTarget(t, now)).0)
  {
    hide Inv;
    var row := Stored(t, db.targetSeq + 1, 0, now, now);
    if row.queue in db.queues {
      WriteKeeps(db, row, Create, db.targetSeq + 1);
    }
  }

  lemma UpdateKeeps(db: Db, t: Target, action: Action, now: string)
    requires Inv(db)
    ensures Inv(Apply(db, UpdateTarget(t, action, now)).0)
  {
    hide Contiguous, RowsMatchLog, QueuesAreSound;
    if t.id in db.live {
      assert t.id <= db.targetSeq;
      hide Inv;
      var row := Stored(t, t.id, db.live[t.id].rotation, db.live[t.id].created, now);
      if row.queue in db.queues {
        WriteKeeps(db, row, if action == Revert then Revert else Update, db.targetSeq);
      }
    }
  }

  lemma RestoreKeeps(db: Db, t: Target, now: string)
    requires Inv(db)
    ensures Inv(Apply(db, RestoreTarget(t, now)).0)
  {
    hide Inv;
    var row := Stored(t, t.id, 0, t.created, now);
    if row.queue in db.queues {
      WriteKeeps(db, row, Restore, Max(db.targetSeq, t.id));
    }
  }

  lemma RotationKeeps(db: Db, id: int)
    requires Inv(db)
    ensures Inv(Apply(db, NextRotation(id)).0)
  {
    hide MaxVersion;
  }

  lemma LostKeeps(db: Db)
    requires Inv(db)
    ensures Inv(Apply(db, Lost).0)
  {
    hide Inv;
  }

  /** Every operation, whatever its arguments, keeps the log, the rows and the queues in step. */
  lemma ApplyKeeps(db: Db, op: Op)
    requires Inv(db)
    ensures Inv(Apply(db, op).0)
  {
    hide Inv, Apply;
    match op
    case CreateTarget(t, now) => CreateKeeps(db, t, now);
    case UpdateTarget(t, action, now) => UpdateKeeps(db, t, action, now);
    case DeleteTarget(id) => DeleteKeeps(db, id);
    case RestoreTarget(t, now) => RestoreKeeps(db, t, now);
    case NextRotation(id) => RotationKeeps(db, id);
    case CreateQueue(name) => CreateQueueKeeps(db, name);
    case RenameQueue(id, name) => RenameQueueKeeps(db, id, name);
    case DeleteQueue(id) => DeleteQueueKeeps(db, id);
    case Lost => LostKeeps(db);
  }

  lemma {:induction false} RunKeeps(db: Db, ops: seq<Op>)
    requires Inv(db)
    ensures Inv(Run(db, ops))
    decreases |ops|
  {
    hide Inv, Apply;
    if ops != [] {
      RunKeeps(db, ops[..|ops| - 1]);
      ApplyKeeps(Run(db, ops[..|ops| - 1]), ops[|ops| - 1]);
    }
  }

  // ---------------------------------------------------------------- main results

  /** After any sequence of operations a target's kept versions are its last KEEP, without gaps. */
  lemma KeptVersions(ops: seq<Op>, id: int, v: int)
    ensures var log := Run(FRESH, ops).log; var n := MaxVersion(log, id);
            (id, v) in log <==> 1 <= v && n - KEEP < v <= n
  {
    FreshHolds();
    RunKeeps(FRESH, ops);
  }

  /** After any sequence of operations a target with history has a row iff its newest revision is not a delete. */
  lemma RowUnlessDeleted(ops: seq<Op>, id: int)
    requires exists v :: (id, v) in Run(FRESH, ops).log
    ensures var db := Run(FRESH, ops); var newest := (id, MaxVersion(db.log, id));
            newest in db.log && (id in db.live <==> db.log[newest].action != Delete)
  {
    FreshHolds();
    RunKeeps(FRESH, ops);
    MaxIsMax(Run(FRESH, ops).log, id);
  }

  /** A queue a target runs in is never missing, even when callers name unknown queues. */
  lemma EveryTargetHasItsQueue(ops: seq<Op>, id: int)
    requires id in Run(FRESH, ops).live
    ensures Run(FRESH, ops).live[id].queue in Run(FRESH, ops).queues
  {
    FreshHolds();
    RunKeeps(FRESH, ops);
  }

  /** What a later log may hold: earlier rows as they were, and rows with larger versions. */
  ghost predicate Extends(log': Log, log: Log) {
    && (forall id :: MaxVersion(log, id) <= MaxVersion(log', id))
    && forall k :: k in log' ==> (k in log && log'[k] == log[k]) || k.1 > MaxVersion(log, k.0)
  }

  lemma InsertedExtends(log: Log, id: int, rev: Rev)
    requires Contiguous(log)
    ensures Extends(Inserted(log, id, rev), log)
  {
    hide MaxVersion;
    forall j ensures MaxVersion(log, j) <= MaxVersion(Inserted(log, id, rev), j) {
      InsertedMax(log, id, rev, j);
    }
  }

  lemma ApplyExtends(db: Db, op: Op)
    requires Inv(db)
    ensures Extends(Apply(db, op).0.log, db.log)
  {
    hide MaxVersion, RowsMatchLog, RowsAreSound, QueuesAreSound, Inserted;
    var log' := Apply(db, op).0.log;
    if log' != db.log {
      var id, rev :| log' == Inserted(db.log, id, rev);
      InsertedExtends(db.log, id, rev);
    }
  }

  lemma {:induction false} RunExtends(db: Db, ops: seq<Op>)
    requires Inv(db)
    ensures Extends(Run(db, ops).log, db.log)
    decreases |ops|
  {
    hide Inv, Apply, MaxVersion;
    if ops != [] {
      var mid := Run(db, ops[..|ops| - 1]);
      RunExtends(db, ops[..|ops| - 1]);
      RunKeeps(db, ops[..|ops| - 1]);
      ApplyExtends(mid, ops[|ops| - 1]);
    }
  }

  /** A version number names one revision for ever: what two moments both hold under it is the same. */
  lemma VersionsAreNeverReused(early: seq<Op>, late: seq<Op>, id: int, v: int)
    ensures var log := Run(FRESH, early).log; var log' := Run(Run(FRESH, early), late).log;
            && ((id, v) in log && (id, v) in log' ==> log[(id, v)] == log'[(id, v)])
            && ((id, v) !in log && (id, v) in log' ==> v > MaxVersion(log, id))
  {
    FreshHolds();
    RunKeeps(FRESH, early);
    var db := Run(FRESH, early);
    RunExtends(db, late);
    MaxIsMax(db.log, id);
  }

  /**
   Whatever a snapshot says, it resolves to a queue that exists: its own if it still does, else
   one named like its lane, else the queue with the lowest id.
   */
  lemma ResolveFindsAQueue(queues: map<int, string>, s: Snapshot)
    requires exists q :: q in queues
    ensures var r := Resolve(queues, s);
            && r in queues
            && (s.target.queue != 0 && s.target.queue in queues ==> r == s.target.queue)
            && ((s.target.queue == 0 || s.target.queue !in queues) && s.lane != "" && (exists q :: q in queues && queues[q] == s.lane) ==>
                  queues[r] == s.lane)
            && ((s.target.queue == 0 || s.target.queue !in queues) && (s.lane == "" || forall q :: q in queues ==> queues[q] != s.lane) ==>
                  forall q :: q in queues ==> r <= q)
  {
    LowestExists(queues.Keys);
  }

  /** LatestDeletedSnapshot. */
  ghost function LatestDeleted(db: Db, id: int): Option<Target>
    requires exists q :: q in db.queues
  {
    var newest := (id, MaxVersion(db.log, id));
    if newest in db.log && db.log[newest].action == Delete && id !in db.live then
      var s := db.log[newest].snapshot;
      Some(s.target.(queue := Resolve(db.queues, s)))
    else None
  }

  /** The newest revision is this delete, and the row is gone. */
  ghost predicate IsDeleted(db: Db, id: int, row: Target) {
    var newest := (id, MaxVersion(db.log, id));
    id !in db.live && id <= db.targetSeq && newest in db.log && db.log[newest] == Rev(Delete, Snapshot(row, ""))
  }

  lemma DeletedStays(db: Db, op: Op, id: int, row: Target)
    requires Inv(db) && IsDeleted(db, id, row) && !(op.RestoreTarget? && op.t.id == id)
    ensures IsDeleted(Apply(db, op).0, id, row)
  {
    hide MaxVersion, Inserted, RowsMatchLog, RowsAreSound, QueuesAreSound;
    var db' := Apply(db, op).0;
    if db'.log != db.log {
      var j, rev :| j != id && db'.log == Inserted(db.log, j, rev);
      OthersKept(db.log, j, rev, id, MaxVersion(db.log, id));
    }
  }

  lemma {:induction false} DeletedStaysThrough(db: Db, ops: seq<Op>, id: int, row: Target)
    requires Inv(db) && IsDeleted(db, id, row)
    requires forall i :: 0 <= i < |ops| ==> !(ops[i].RestoreTarget? && ops[i].t.id == id)
    ensures IsDeleted(Run(db, ops), id, row)
    decreases |ops|
  {
    hide Inv, Apply, IsDeleted;
    if ops != [] {
      DeletedStaysThrough(db, ops[..|ops| - 1], id, row);
      RunKeeps(db, ops[..|ops| - 1]);
      DeletedStays(Run(db, ops[..|ops| - 1]), ops[|ops| - 1], id, row);
    }
  }

  lemma DeleteMakesDeleted(db: Db, id: int)
    requires Inv(db) && id in db.live
    ensures Apply(db, DeleteTarget(id)).1 == None && IsDeleted(Apply(db, DeleteTarget(id)).0, id, db.live[id])
  {
    hide MaxVersion, Inserted;
    NewestOf(db.log, id, Rev(Delete, Snapshot(db.live[id], "")));
  }

  /**
   Deleting a target and restoring it later, whatever happens to other targets and to the
   queues in between, gives the row back with its own queue or, if that is gone, the default one.
   */
  lemma DeleteThenRestore(db: Db, id: int, between: seq<Op>, now: string)
    requires Inv(db) && id in db.live
    requires forall i :: 0 <= i < |between| ==> !(between[i].RestoreTarget? && between[i].t.id == id)
    ensures var was := db.live[id];
            var db1 := Run(Apply(db, DeleteTarget(id)).0, between);
            && Inv(db1) && LatestDeleted(db1, id).Some?
            && var (db2, err) := Apply(db1, RestoreTarget(LatestDeleted(db1, id).value, now));
               && err == None && id in db2.live
               && db2.live[id] == was.(queue := if was.queue in db1.queues then was.queue else DefaultQueue(db1.queues),
                                       rotation := 0, updated := now)
  {
    hide MaxVersion, Inserted;
    var was := db.live[id];
    var db0 := Apply(db, DeleteTarget(id)).0;
    DeleteMakesDeleted(db, id);
    DeleteKeeps(db, id);
    RunKeeps(db0, between);
    DeletedStaysThrough(db0, between, id, was);
    var db1 := Run(db0, between);
    assert 0 < was.queue;
    RestoresRow(db1, id, was, now);
  }

  lemma RestoresRow(db: Db, id: int, was: Target, now: string)
    requires Inv(db) && IsDeleted(db, id, was) && was.id == id && was.queue > 0 && was.options != "" && was.thresholds != ""
    ensures LatestDeleted(db, id).Some?
    ensures var (db2, err) := Apply(db, RestoreTarget(LatestDeleted(db, id).value, now));
            && err == None && id in db2.live
            && db2.live[id] == was.(queue := if was.queue in db.queues then was.queue else DefaultQueue(db.queues), rotation := 0, updated := now)
  {
    hide MaxVersion, Inserted;
    var s := Snapshot(was, "");
    ResolveFindsAQueue(db.queues, s);
    assert LatestDeleted(db, id) == Some(was.(queue := Resolve(db.queues, s)));
  }

  /** What can be restored is exactly what was last deleted; restoring a live target is refused. */
  lemma DeletedListIsExact(ops: seq<Op>, id: int, t: Target, now: string)
    ensures var db := Run(FRESH, ops); var newest := (id, MaxVersion(db.log, id));
            && (exists q :: q in db.queues)
            && (LatestDeleted(db, id).Some? <==> newest in db.log && db.log[newest].action == Delete)
            && (t.id in db.live ==> Apply(db, RestoreTarget(t, now)) == (db, Some(IdConflict)))
  {
    FreshHolds();
    RunKeeps(FRESH, ops);
    hide Inv, Run, Apply;
    DeletedIsExact(Run(FRESH, ops), id, t, now);
  }

  lemma DeletedIsExact(db: Db, id: int, t: Target, now: string)
    requires Inv(db)
    ensures var newest := (id, MaxVersion(db.log, id));
            && (exists q :: q in db.queues)
            && (LatestDeleted(db, id).Some? <==> newest in db.log && db.log[newest].action == Delete)
            && (t.id in db.live ==> Apply(db, RestoreTarget(t, now)) == (db, Some(IdConflict)))
  {
    hide MaxVersion, Resolve;
  }

  /** Validation of a target's fields: None refuses them, Some gives them back normalised. */
  type Validation = Target -> Option<Target>

  /** The revert of a target to a version, from loading the snapshot to the update it ends in. */
  ghost function RevertTo(db: Db, id: int, v: int, validate: Validation, now: string): (Db, Option<Error>)
    requires exists q :: q in db.queues
  {
    if (id, v) !in db.log then (db, Some(NotFound))
    else
      var s := db.log[(id, v)].snapshot;
      var checked := validate(s.target.(id := id, queue := Resolve(db.queues, s)));
      if checked.None? then (db, Some(Invalid)) else Apply(db, UpdateTarget(checked.value.(id := id), Revert, now))
  }

  /**
   Reverting to any kept version of a live target writes that version's fields, as validation
   passes them, on a queue that exists, and logs it; a version that is not kept, fields that
   are refused and a target without a row change nothing.
   */
  lemma RevertGivesBack(db: Db, id: int, v: int, validate: Validation, now: string)
    requires Inv(db) && forall t :: validate(t).Some? ==> validate(t).value.queue == t.queue
    ensures var (db', err) := RevertTo(db, id, v, validate, now);
            && err == (if (id, v) !in db.log then Some(NotFound)
                       else
                         var s := db.log[(id, v)].snapshot;
                         if validate(s.target.(id := id, queue := Resolve(db.queues, s))).None? then Some(Invalid)
                         else if id !in db.live then Some(NotFound) else None)
            && (err != None ==> db' == db)
            && (err == None ==>
                  && id in db.live && (id, v) in db.log
                  && var s := db.log[(id, v)].snapshot; var t := s.target.(id := id, queue := Resolve(db.queues, s));
                     && validate(t).Some? && id in db'.live && db'.live[id].queue == t.queue && t.queue in db'.queues
                     && db'.live[id] == Stored(validate(t).value, id, db.live[id].rotation, db.live[id].created, now)
                     && db'.log[(id, MaxVersion(db'.log, id))] == Rev(Revert, Snapshot(db'.live[id], "")))
  {
    hide MaxVersion, Inserted, Resolve, Contiguous, RowsMatchLog;
    if (id, v) in db.log {
      var s := db.log[(id, v)].snapshot;
      ResolveFindsAQueue(db.queues, s);
      var t := s.target.(id := id, queue := Resolve(db.queues, s));
      if validate(t).Some? && id in db.live {
        var row := Stored(validate(t).value.(id := id), id, db.live[id].rotation, db.live[id].created, now);
        NewestOf(db.log, id, Rev(Revert, Snapshot(row, "")));
      }
    }
  }

  /**
   The snapshot is read, its queue resolved and the row written in transactions of their own.
   Whatever happens in between, a restore or revert prepared earlier writes the row it
   prepared or, if the target is there again or gone, or its queue is gone, changes nothing.
   */
  lemma PreparedEarlier(early: Db, between: seq<Op>, id: int, v: int, now: string)
    requires Inv(early)
    ensures var db := Run(early, between);
            && Inv(db)
            && (LatestDeleted(early, id).Some? ==>
                  var t := LatestDeleted(early, id).value; var (db', err) := Apply(db, RestoreTarget(t, now));
                  && err == (if id in db.live then Some(IdConflict) else if t.queue !in db.queues then Some(Failed) else None)
                  && (if err == None then id in db'.live && db'.live[id] == Stored(t, id, 0, t.created, now) else db' == db))
            && ((id, v) in early.log ==>
                  var s := early.log[(id, v)].snapshot; var t := s.target.(queue := Resolve(early.queues, s));
                  var (db', err) := Apply(db, UpdateTarget(t, Revert, now));
                  && err == (if id !in db.live then Some(NotFound) else if t.queue !in db.queues then Some(Failed) else None)
                  && (if err == None then id in db'.live && db'.live[id] == Stored(t, id, db.live[id].rotation, db.live[id].created, now)
                      else db' == db))
  {
    hide MaxVersion, Inserted, Resolve, Contiguous, RowsMatchLog;
    RunKeeps(early, between);
    hide Run;
  }

  // ---------------------------------------------------------------- the tables as an object

  class Tables {
    var live: map<int, Target>
    var log: Log
    var queues: map<int, string>
    var targetSeq: nat
    var queueSeq: nat

    function View(): Db
      reads this
    {
      Db(live, log, queues, targetSeq, queueSeq)
    }

    constructor ()
      ensures View() == FRESH
    {
      live, log, queues, targetSeq, queueSeq := map[], map[], map[1 := "wan", 2 := "lan"], 0, 2;
    }

    method ReadMaxVersion(id: int) returns (n: int)
      ensures n == MaxVersion(log, id)
    {
      n := 0;
      var found := false;
      var rest := log.Keys;
      while exists k :: k in rest
        invariant rest <= log.Keys
        invariant !found ==> n == 0 && forall k :: k in log && k !in rest ==> k.0 != id
        invariant found ==> (id, n) in log && forall k :: k in log && k !in rest && k.0 == id ==> k.1 <= n
        decreases rest
      {
        var k :| k in rest;
        rest := rest - {k};
        if k.0 == id && (!found || k.1 > n) {
          n, found := k.1, true;
        }
      }
      MaxIsMax(log, id);
    }

    method InsertRevision(id: int, rev: Rev)
      modifies this
      ensures View() == old(View()).(log := Inserted(old(log), id, rev))
      ensures Logged(old(log), log, id, rev)
    {
      InsertedIsLogged(log, id, rev);
      var max := ReadMaxVersion(id);
      var v := max + 1;
      log := log[(id, v) := rev];
      log := map k | k in log && !(k.0 == id && k.1 <= v - KEEP) :: log[k];
    }

    method Create(t: Target, now: string) returns (err: Option<Error>)
      modifies this
      ensures (View(), err) == Apply(old(View()), CreateTarget(t, now))
      ensures err == if t.queue !in old(queues) then Some(Failed) else None
      ensures err.Some? ==> View() == old(View())
      ensures err.None? ==>
                var id := old(targetSeq) + 1;
                var row := Target(id, t.name, t.engine, t.enabled, t.queue, if t.options == "" then "{}" else t.options,
                                  if t.thresholds == "" then "{}" else t.thresholds, 0, now, now);
                && live == old(live)[id := row] && targetSeq == id && queues == old(queues) && queueSeq == old(queueSeq)
                && Logged(old(log), log, id, Rev(Action.Create, Snapshot(row, "")))
    {
      hide MaxVersion, Inserted, Logged;
      var id := targetSeq + 1;
      var row := Stored(t, id, 0, now, now);
      if row.queue !in queues {
        return Some(Failed);
      }
      live, targetSeq := live[id := row], id;
      InsertRevision(id, Rev(Action.Create, Snapshot(row, "")));
      return None;
    }

    method UpdateWithAction(t: Target, action: Action, now: string) returns (err: Option<Error>)
      requires action == Update || action == Revert
      modifies this
      ensures (View(), err) == Apply(old(View()), UpdateTarget(t, action, now))
      ensures err == if t.id !in old(live) then Some(NotFound) else if t.queue !in old(queues) then Some(Failed) else None
      ensures err.Some? ==> View() == old(View())
      ensures err.None? ==>
                var row := Target(t.id, t.name, t.engine, t.enabled, t.queue, if t.options == "" then "{}" else t.options,
                                  if t.thresholds == "" then "{}" else t.thresholds, old(live)[t.id].rotation, old(live)[t.id].created, now);
                && live == old(live)[t.id := row] && targetSeq == old(targetSeq) && queues == old(queues) && queueSeq == old(queueSeq)
                && Logged(old(log), log, t.id, Rev(action, Snapshot(row, "")))
    {
      hide MaxVersion, Inserted, Logged;
      if t.id !in live {
        return Some(NotFound);
      }
      var row := Stored(t, t.id, live[t.id].rotation, live[t.id].created, now);
      if row.queue !in queues {
        return Some(Failed);
      }
      live := live[t.id := row];
      InsertRevision(t.id, Rev(action, Snapshot(row, "")));
      return None;
    }

    method Delete(id: int) returns (err: Option<Error>)
      modifies this
      ensures (View(), err) == Apply(old(View()), DeleteTarget(id))
      ensures err == if id !in old(live) || old(live)[id].queue !in old(queues) then Some(NotFound) else None
      ensures err.Some? ==> View() == old(View())
      ensures err.None? ==>
                && live == old(live) - {id} && targetSeq == old(targetSeq) && queues == old(queues) && queueSeq == old(queueSeq)
                && Logged(old(log), log, id, Rev(Action.Delete, Snapshot(old(live)[id], "")))
    {
      hide MaxVersion, Inserted, Logged;
      if id !in live || live[id].queue !in queues {
        return Some(NotFound);
      }
      var before := live[id];
      live := live - {id};
      InsertRevision(id, Rev(Action.Delete, Snapshot(before, "")));
      return None;
    }

    method Restore(t: Target, now: string) returns (err: Option<Error>)
      modifies this
      ensures (View(), err) == Apply(old(View()), RestoreTarget(t, now))
      ensures err == if t.id in old(live) then Some(IdConflict) else if t.queue !in old(queues) then Some(Failed) else None
      ensures err.Some? ==> View() == old(View())
      ensures err.None? ==>
                var row := Target(t.id, t.name, t.engine, t.enabled, t.queue, if t.options == "" then "{}" else t.options,
                                  if t.thresholds == "" then "{}" else t.thresholds, 0, t.created, now);
                && live == old(live)[t.id := row] && queues == old(queues) && queueSeq == old(queueSeq)
                && targetSeq == (if t.id > old(targetSeq) then t.id else old(targetSeq))
                && Logged(old(log), log, t.id, Rev(Action.Restore, Snapshot(row, "")))
    {
      hide MaxVersion, Inserted, Logged;
      if t.id in live {
        return Some(IdConflict);
      }
      var row := Stored(t, t.id, 0, t.created, now);
      if row.queue !in queues {
        return Some(Failed);
      }
      live, targetSeq := live[t.id := row], Max(targetSeq, t.id);
      InsertRevision(t.id, Rev(Action.Restore, Snapshot(row, "")));
      return None;
    }

    method RemoveQueue(id: int) returns (err: Option<Error>)
      modifies this
      ensures (View(), err) == Apply(old(View()), DeleteQueue(id))
      ensures err == if id !in old(queues) then Some(NotFound)
                     else if |old(queues)| <= 1 then Some(LastQueue)
                     else if exists x :: x in old(live) && old(live)[x].queue == id then Some(QueueInUse) else None
      ensures View() == old(View()).(queues := if err.None? then old(queues) - {id} else old(queues))
    {
      if id !in queues {
        return Some(NotFound);
      }
      if |queues| <= 1 {
        return Some(LastQueue);
      }
      if exists t :: t in live && live[t].queue == id {
        return Some(QueueInUse);
      }
      queues := queues - {id};
      return None;
    }

    /** The name is unique in the table. */
    method AddQueue(name: string) returns (err: Option<Error>)
      modifies this
      ensures (View(), err) == Apply(old(View()), CreateQueue(name))
      ensures err == if exists q :: q in old(queues) && old(queues)[q] == name then Some(NameConflict) else None
      ensures View() == if err.None? then old(View()).(queues := old(queues)[old(queueSeq) + 1 := name], queueSeq := old(queueSeq) + 1)
                        else old(View())
    {
      if exists q :: q in queues && queues[q] == name {
        return Some(NameConflict);
      }
      queues, queueSeq := queues[queueSeq + 1 := name], queueSeq + 1;
      return None;
    }

    method Rename(id: int, name: string) returns (err: Option<Error>)
      modifies this
      ensures (View(), err) == Apply(old(View()), RenameQueue(id, name))
      ensures err == if id !in old(queues) then Some(NotFound)
                     else if exists q :: q in old(queues) && q != id && old(queues)[q] == name then Some(NameConflict) else None
      ensures View() == old(View()).(queues := if err.None? then old(queues)[id := name] else old(queues))
    {
      if id !in queues {
        return Some(NotFound);
      }
      if exists q :: q in queues && q != id && queues[q] == name {
        return Some(NameConflict);
      }
      queues := queues[id := name];
      return None;
    }

    /** The cursor as it was, modulo n, and one further on in the row; no revision is written. */
    method Rotate(id: int, n: int) returns (err: Option<Error>, index: nat)
      modifies this
      ensures (View(), err) == Apply(old(View()), if n <= 0 then Lost else NextRotation(id))
      ensures err == if n <= 0 then Some(Failed) else if id !in old(live) then Some(NotFound) else None
      ensures View() == if err.None? then old(View()).(live := old(live)[id := old(live)[id].(rotation := old(live)[id].rotation + 1)])
                        else old(View())
      ensures err.None? ==> index == old(live)[id].rotation % n
    {
      if n <= 0 {
        return Some(Failed), 0;
      }
      if id !in live {
        return Some(NotFound), 0;
      }
      index := live[id].rotation % n;
      live := live[id := live[id].(rotation := live[id].rotation + 1)];
      err := None;
    }
  }
}
