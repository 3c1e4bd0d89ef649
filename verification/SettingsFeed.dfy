/**
 Change notification for settings: the transaction that collects changed keys, and
 the subscriber that hands them to one reader through a dirty set, a one-slot wake
 channel and a pump goroutine.
 */
module SettingsFeed {

  type Key = string

  // ---------------------------------------------------------------- the subscriber

  datatype PumpPc =
    | Parked                     // waiting on wake or done
    | Woken                      // took the wake token, about to lock
    | Sending(batch: seq<Key>)   // keys still to hand out, next first
    | Gone

  datatype Sub = Sub(
    dirty: set<Key>,
    wake: bool,                  // the wake slot is full
    out: seq<Key>,               // the buffered out channel
    done: bool,
    pump: PumpPc,
    markers: set<int>,           // mark calls that have written dirty but not yet touched wake
    unsent: set<Key>,            // history: keys marked since they were last put on out
    owed: set<Key>)              // history: keys marked since the reader last received them

  const OUT_CAP := 16

  const NEW_SUB := Sub({}, false, [], false, Parked, {}, {}, {})

  /** The locked part of mark. */
  function MarkDirty(s: Sub, id: int, key: Key): Sub {
    s.(dirty := s.dirty + {key}, markers := s.markers + {id}, unsent := s.unsent + {key}, owed := s.owed + {key})
  }

  /** The non-blocking send on wake that ends mark. */
  function MarkWake(s: Sub, id: int): Sub {
    s.(wake := true, markers := s.markers - {id})
  }

  /** A batch lists the dirty keys, each once. */
  ghost predicate ListsAll(batch: seq<Key>, dirty: set<Key>) {
    && (forall k :: k in batch <==> k in dirty)
    && (forall i, j :: 0 <= i < j < |batch| ==> batch[i] != batch[j])
  }

  datatype Label =
    | LMark(id: int, key: Key) | LWake(id: int)
    | LTakeWake | LTakeDirty(batch: seq<Key>) | LHandOut | LPark | LQuit
    | LReceive | LCancel

  ghost predicate Step(s: Sub, l: Label, s': Sub) {
    match l
    case LMark(id, key) => id !in s.markers && s' == MarkDirty(s, id, key)
    case LWake(id) => id in s.markers && s' == MarkWake(s, id)
    case LTakeWake => s.pump.Parked? && s.wake && s' == s.(wake := false, pump := Woken)
    case LTakeDirty(batch) => s.pump.Woken? && ListsAll(batch, s.dirty) && s' == s.(dirty := {}, pump := Sending(batch))
    case LHandOut =>
      && s.pump.Sending? && s.pump.batch != [] && |s.out| < OUT_CAP
      && s' == s.(out := s.out + [s.pump.batch[0]], pump := Sending(s.pump.batch[1..]), unsent := s.unsent - {s.pump.batch[0]})
    case LPark => s.pump == Sending([]) && s' == s.(pump := Parked)
    case LQuit => s.done && (s.pump.Parked? || s.pump.Sending?) && s' == s.(pump := Gone)
    case LReceive => s.out != [] && s' == s.(out := s.out[1..], owed := s.owed - {s.out[0]})
    case LCancel => s' == s.(done := true)
  }

  function Batch(s: Sub): seq<Key> {
    if s.pump.Sending? then s.pump.batch else []
  }

  /** Nothing is lost while the subscription lives. */
  ghost predicate Inv(s: Sub) {
    && (s.pump.Gone? ==> s.done)
    && (!s.done ==>
          && (forall k :: k in s.unsent ==> k in s.dirty || k in Batch(s))
          && (forall k :: k in s.owed ==> k in s.dirty || k in Batch(s) || k in s.out)
          && (s.dirty != {} ==> s.wake || s.pump.Woken? || s.markers != {}))
  }

  lemma StepKeeps(s: Sub, l: Label, s': Sub)
    requires Inv(s) && Step(s, l, s')
    ensures Inv(s')
  {
    match l
    case LMark(id, key) => assert id in s'.markers;
    case LHandOut =>
      var b := s.pump.batch;
      assert b == [b[0]] + b[1..];
    case LReceive => assert s.out == [s.out[0]] + s.out[1..];
    case _ =>
  }

  ghost predicate IsTrace(ss: seq<Sub>, ls: seq<Label>) {
    && |ss| == |ls| + 1 && ss[0] == NEW_SUB
    && forall i :: 0 <= i < |ls| ==> Step(ss[i], ls[i], ss[i + 1])
  }

  lemma {:induction false} TraceKeeps(ss: seq<Sub>, ls: seq<Label>, i: nat)
    requires IsTrace(ss, ls) && i < |ss|
    ensures Inv(ss[i])
  {
    hide Step;
    if i > 0 {
      TraceKeeps(ss, ls, i - 1);
      StepKeeps(ss[i - 1], ls[i - 1], ss[i]);
    }
  }

  /** In every interleaving a changed key is still on its way until the reader has received it. */
  lemma ChangesAreNeverLost(ss: seq<Sub>, ls: seq<Label>, i: nat, k: Key)
    requires IsTrace(ss, ls) && i < |ss| && !ss[i].done
    ensures k in ss[i].unsent ==> k in ss[i].dirty || k in Batch(ss[i])
    ensures k in ss[i].owed ==> k in ss[i].dirty || k in Batch(ss[i]) || k in ss[i].out
  {
    TraceKeeps(ss, ls, i);
  }

  /** A parked pump with work and no mark under way is about to be woken. */
  lemma ParkedPumpWillWake(ss: seq<Sub>, ls: seq<Label>, i: nat)
    requires IsTrace(ss, ls) && i < |ss| && !ss[i].done && ss[i].pump.Parked? && ss[i].markers == {} && ss[i].dirty != {}
    ensures ss[i].wake
  {
    TraceKeeps(ss, ls, i);
  }

  /** Work still to be done by the pump and the reader, once no more keys are marked. */
  function Remaining(s: Sub): nat {
    4 * |s.dirty| + 2 * |Batch(s)| + |s.out| + (if s.wake then 3 else 0)
    + (match s.pump case Woken => 2 case Sending(_) => 1 case _ => 0)
  }

  /** The steps of the pump and of the reader while the subscription lives. */
  predicate Delivers(l: Label) {
    l.LTakeWake? || l.LTakeDirty? || l.LHandOut? || l.LPark? || l.LReceive?
  }

  lemma {:induction false} BatchSize(batch: seq<Key>, keys: set<Key>)
    requires ListsAll(batch, keys)
    ensures |batch| == |keys|
    decreases |batch|
  {
    if batch == [] {
      assert keys == {} by {
        NoKeys(keys);
      }
    } else {
      var rest := batch[1..];
      assert batch == [batch[0]] + rest;
      BatchSize(rest, keys - {batch[0]});
    }
  }

  lemma NoKeys(keys: set<Key>)
    ensures (forall k :: k !in keys) ==> keys == {}
  {
    if forall k :: k !in keys {
      assert keys == {};
    }
  }

  /** Each of those steps brings delivery nearer, whichever is taken. */
  lemma EveryStepLowers(s: Sub, l: Label, s': Sub)
    requires Step(s, l, s') && Delivers(l)
    ensures Remaining(s') < Remaining(s)
  {
    if l.LTakeDirty? {
      BatchSize(l.batch, s.dirty);
    }
  }

  lemma {:induction false} StepsAreBounded(ss: seq<Sub>, ls: seq<Label>, i: nat, j: nat)
    requires IsTrace(ss, ls) && i <= j < |ss| && forall m :: i <= m < j ==> Delivers(ls[m])
    ensures j - i + Remaining(ss[j]) <= Remaining(ss[i])
    decreases j
  {
    hide Step, Remaining;
    if i < j {
      StepsAreBounded(ss, ls, i, j - 1);
      EveryStepLowers(ss[j - 1], ls[j - 1], ss[j]);
    }
  }

  /**
   Once no more keys are marked, pump and reader can take only so many steps in any order,
   and they are never stuck while a change is still owed.
   */
  lemma DeliveryFinishes(ss: seq<Sub>, ls: seq<Label>, i: nat, j: nat)
    requires IsTrace(ss, ls) && i <= j < |ss| && forall m :: i <= m < j ==> Delivers(ls[m])
    ensures j - i <= Remaining(ss[i])
    ensures !ss[j].done && ss[j].markers == {} && (forall l, s' :: Delivers(l) ==> !Step(ss[j], l, s')) ==> ss[j].owed == {}
  {
    hide Remaining;
    StepsAreBounded(ss, ls, i, j);
    TraceKeeps(ss, ls, j);
    if !ss[j].done && ss[j].markers == {} && ss[j].owed != {} {
      hide Step, Inv;
      var l, s' := Progress(ss[j]);
    }
  }

  lemma Progress(s: Sub) returns (l: Label, s': Sub)
    requires Inv(s) && !s.done && s.markers == {} && s.owed != {}
    ensures Step(s, l, s') && Delivers(l)
  {
    if s.out != [] {
      l, s' := LReceive, s.(out := s.out[1..], owed := s.owed - {s.out[0]});
    } else {
      match s.pump
      case Parked =>
        assert s.dirty != {};
        l, s' := LTakeWake, s.(wake := false, pump := Woken);
      case Woken =>
        var batch := Enumerate(s.dirty);
        l, s' := LTakeDirty(batch), s.(dirty := {}, pump := Sending(batch));
      case Sending(batch) =>
        if batch == [] {
          l, s' := LPark, s.(pump := Parked);
        } else {
          l, s' := LHandOut, s.(out := s.out + [batch[0]], pump := Sending(batch[1..]), unsent := s.unsent - {batch[0]});
        }
    }
  }

  lemma {:induction false} Enumerate(keys: set<Key>) returns (batch: seq<Key>)
    ensures ListsAll(batch, keys) && |batch| == |keys|
    decreases |keys|
  {
    if exists k :: k in keys {
      var k :| k in keys;
      var rest := Enumerate(keys - {k});
      batch := [k] + rest;
      assert forall j :: 0 <= j < |rest| ==> rest[j] in keys - {k};
    } else {
      batch := [];
      assert keys == {};
    }
  }

  /** The subscriber's fields and the atomic parts of its methods. */
  class Subscriber {
    var dirty: set<Key>
    var wake: bool
    var out: seq<Key>

    constructor ()
      ensures dirty == {} && !wake && out == []
    {
      dirty, wake, out := {}, false, [];
    }

    /** The subscriber is in this state, as far as its own fields tell. */
    predicate Shows(s: Sub)
      reads this
    {
      s.dirty == dirty && s.wake == wake && s.out == out
    }

    /** mark: both of its steps. */
    method MarkKey(key: Key)
      modifies this
      ensures dirty == old(dirty) + {key} && wake && out == old(out)
      ensures forall s, id :: old(Shows(s)) ==> Shows(MarkWake(MarkDirty(s, id, key), id))
    {
      dirty := dirty + {key};
      if !wake {
        wake := true;
      }
    }

    /** The pump's flush: drains the dirty set into a list without repeats. */
    method TakeDirty() returns (keys: seq<Key>)
      modifies this
      ensures ListsAll(keys, old(dirty)) && dirty == {} && wake == old(wake) && out == old(out)
      ensures forall s :: old(Shows(s)) && s.pump.Woken? ==> exists s' :: Step(s, LTakeDirty(keys), s') && Shows(s')
    {
      keys := [];
      var rest := dirty;
      while exists k :: k in rest
        invariant rest <= dirty && ListsAll(keys, dirty - rest) && dirty == old(dirty) && wake == old(wake) && out == old(out)
        decreases rest
      {
        var k :| k in rest;
        keys := keys + [k];
        rest := rest - {k};
      }
      assert dirty - rest == dirty;
      dirty := {};
      forall s | old(Shows(s)) && s.pump.Woken? ensures exists s' :: Step(s, LTakeDirty(keys), s') && Shows(s') {
        var s' := s.(dirty := {}, pump := Sending(keys));
        assert Step(s, LTakeDirty(keys), s') && Shows(s');
      }
    }
  }

  // ---------------------------------------------------------------- the transaction

  /** The stored value of a key, "" when unset; JSON encodings are never empty. */
  function Value(values: map<Key, string>, key: Key): string {
    if key in values then values[key] else ""
  }

  /** One successful Set; `unread` says that the old value could not be read. */
  datatype TxSet = TxSet(key: Key, value: string, unread: bool)

  /** The table after a run of sets. */
  function Applied(values: map<Key, string>, sets: seq<TxSet>): map<Key, string>
    decreases |sets|
  {
    if sets == [] then values
    else
      var n := |sets| - 1;
      Applied(values, sets[..n])[sets[n].key := sets[n].value]
  }

  /** The keys a run of sets records: at each set, the key if its value is not known to be the same as just before. */
  function Recorded(values: map<Key, string>, sets: seq<TxSet>): seq<Key>
    decreases |sets|
  {
    if sets == [] then []
    else
      var n := |sets| - 1;
      var x := sets[n];
      Recorded(values, sets[..n]) + if x.unread || Value(Applied(values, sets[..n]), x.key) != x.value then [x.key] else []
  }

  lemma OneMoreSet(values: map<Key, string>, sets: seq<TxSet>, x: TxSet)
    ensures Applied(values, sets + [x]) == Applied(values, sets)[x.key := x.value]
    ensures Recorded(values, sets + [x]) ==
            if x.unread || Value(Applied(values, sets), x.key) != x.value then Recorded(values, sets) + [x.key] else Recorded(values, sets)
  {
    assert (sets + [x])[..|sets|] == sets;
  }

  /** What a whole mark does to a subscriber. */
  function Marked(s: Sub, key: Key): Sub {
    s.(dirty := s.dirty + {key}, wake := true, unsent := s.unsent + {key}, owed := s.owed + {key})
  }

  function MarkedAll(s: Sub, keys: seq<Key>): Sub {
    if keys == [] then s else Marked(MarkedAll(s, keys[..|keys| - 1]), keys[|keys| - 1])
  }

  /** It is the two steps of mark, with which other steps may interleave. */
  lemma MarkIsTwoSteps(s: Sub, id: int, key: Key)
    requires id !in s.markers
    ensures Step(s, LMark(id, key), MarkDirty(s, id, key)) && Step(MarkDirty(s, id, key), LWake(id), Marked(s, key))
  {
    assert s.markers + {id} - {id} == s.markers;
  }

  lemma {:induction false} MarkedAreOwed(s: Sub, keys: seq<Key>)
    ensures MarkedAll(s, keys).owed == s.owed + (set k | k in keys)
    ensures MarkedAll(s, keys).dirty == s.dirty + (set k | k in keys)
    ensures keys != [] ==> MarkedAll(s, keys).wake
    decreases |keys|
  {
    if keys != [] {
      var n := |keys| - 1;
      MarkedAreOwed(s, keys[..n]);
      assert keys == keys[..n] + [keys[n]];
    }
  }

  /** The settings table and its live subscribers. */
  class Store {
    var values: map<Key, string>
    var subs: map<int, Sub>
    var next: int

    constructor ()
      ensures values == map[] && subs == map[] && next == 0
    {
      values, subs, next := map[], map[], 0;
    }

    ghost predicate Valid()
      reads this
    {
      forall id :: id in subs ==> id < next
    }

    method Subscribe() returns (id: int)
      requires Valid()
      modifies this
      ensures Valid() && id !in old(subs) && subs == old(subs)[id := NEW_SUB] && values == old(values)
    {
      id := next;
      subs, next := subs[id := NEW_SUB], next + 1;
    }

    /** The cancel function of a subscription; a second call does nothing. */
    method Cancel(id: int)
      requires Valid()
      modifies this
      ensures Valid() && subs == old(subs) - {id} && values == old(values) && next == old(next)
    {
      if id in subs {
        subs := subs - {id};
      }
    }

    /** notify: marks the key for every subscriber. */
    method Notify(key: Key)
      modifies this
      ensures subs.Keys == old(subs).Keys && forall id :: id in subs ==> subs[id] == Marked(old(subs)[id], key)
      ensures values == old(values) && next == old(next)
    {
      var rest := subs.Keys;
      ghost var subs0 := subs;
      while exists id :: id in rest
        invariant rest <= subs0.Keys && subs.Keys == subs0.Keys && values == old(values) && next == old(next)
        invariant forall id :: id in subs0 ==> subs[id] == if id in rest then subs0[id] else Marked(subs0[id], key)
        decreases rest
      {
        var id :| id in rest;
        subs := subs[id := Marked(subs[id], key)];
        rest := rest - {id};
      }
    }
  }

  class Tx {
    const store: Store
    var pending: map<Key, string>   // the table as the transaction sees it
    var changed: seq<Key>
    var done: bool
    ghost const base: map<Key, string>
    ghost var sets: seq<TxSet>      // the sets done so far

    /** While open: the stored values are untouched, and `changed` is exactly what the sets so far record. */
    ghost predicate Valid()
      reads this, store
    {
      store.values == base && pending == Applied(base, sets) && changed == Recorded(base, sets)
    }

    constructor (s: Store)
      ensures Valid() && !done && changed == [] && store == s && base == s.values && pending == s.values && sets == []
    {
      store, base, pending := s, s.values, s.values;
      changed, done, sets := [], false, [];
    }

    /** Set; reading the old value may fail unnoticed, and the write may fail. A JSON encoding is never empty. */
    method Set(key: Key, encoded: string, unread: bool, fails: bool) returns (ok: bool)
      requires Valid() && encoded != ""
      modifies this
      ensures Valid() && done == old(done)
      ensures ok == (!old(done) && !fails)
      ensures !ok ==> pending == old(pending) && changed == old(changed) && sets == old(sets)
      ensures ok ==> sets == old(sets) + [TxSet(key, encoded, unread)]
    {
      if done || fails {
        return false;
      }
      hide Applied, Recorded;
      var before := if unread then "" else Value(pending, key);
      ghost var more := sets + [TxSet(key, encoded, unread)];
      OneMoreSet(base, sets, TxSet(key, encoded, unread));
      pending := pending[key := encoded];
      if before != encoded {
        changed := changed + [key];
      }
      sets := more;
      assert changed == Recorded(base, more);
      return true;
    }

    /** Commit; committing may fail, and then nobody is told anything. */
    method Commit(fails: bool) returns (ok: bool)
      requires !done ==> Valid()
      modifies this, store
      ensures done && ok == (!old(done) && !fails) && store.subs.Keys == old(store.subs).Keys
      ensures !ok ==> store.values == old(store.values) && store.subs == old(store.subs)
      ensures ok ==> store.values == Applied(old(store.values), old(sets))
      ensures ok ==> forall id :: id in store.subs ==>
                store.subs[id] == MarkedAll(old(store.subs)[id], Recorded(old(store.values), old(sets)))
      ensures ok ==> forall id, k :: id in store.subs && Value(store.values, k) != Value(old(store.values), k) ==> k in store.subs[id].owed
    {
      if done {
        return false;
      }
      done := true;
      if fails {
        return false;
      }
      store.values := pending;
      ghost var subs0 := store.subs;
      for n := 0 to |changed|
        invariant store.values == pending && pending == old(pending) && changed == old(changed) && done && sets == old(sets)
        invariant store.subs.Keys == subs0.Keys && forall id :: id in subs0 ==> store.subs[id] == MarkedAll(subs0[id], changed[..n])
      {
        assert changed[..n + 1][..n] == changed[..n];
        store.Notify(changed[n]);
      }
      assert changed[..|changed|] == changed;
      forall id, k | id in store.subs && Value(store.values, k) != Value(base, k) ensures k in store.subs[id].owed {
        RecordedMeansChanged(base, sets, k);
        MarkedAreOwed(subs0[id], changed);
      }
      return true;
    }

    method Rollback()
      requires !done ==> Valid()
      modifies this
      ensures done
      ensures store.values == old(store.values) && store.subs == old(store.subs)
    {
      done := true;
    }
  }

  // ---------------------------------------------------------------- which keys are notified

  ghost predicate SetOnce(sets: seq<TxSet>) {
    forall i, j :: 0 <= i < j < |sets| ==> sets[i].key != sets[j].key
  }

  /** The last set of a key. */
  ghost predicate IsLastSet(sets: seq<TxSet>, k: Key, j: int) {
    0 <= j < |sets| && sets[j].key == k && forall m :: j < m < |sets| ==> sets[m].key != k
  }

  /** A set of the key that writes another value than it had before the transaction, or could not read the old one. */
  ghost predicate Tells(values: map<Key, string>, x: TxSet, k: Key) {
    x.key == k && (x.unread || x.value != Value(values, k))
  }

  ghost predicate SomeSetTells(values: map<Key, string>, sets: seq<TxSet>, k: Key) {
    exists i :: 0 <= i < |sets| && Tells(values, sets[i], k)
  }

  lemma {:induction false} LastSetWins(values: map<Key, string>, sets: seq<TxSet>, k: Key, j: int)
    requires IsLastSet(sets, k, j)
    ensures Value(Applied(values, sets), k) == sets[j].value
    decreases |sets|
  {
    if j < |sets| - 1 {
      LastSetWins(values, sets[..|sets| - 1], k, j);
    }
  }

  lemma {:induction false} NeverSet(values: map<Key, string>, sets: seq<TxSet>, k: Key)
    requires forall j :: !IsLastSet(sets, k, j)
    ensures Value(Applied(values, sets), k) == Value(values, k) && forall i :: 0 <= i < |sets| ==> sets[i].key != k
    decreases |sets|
  {
    if sets != [] {
      var n := |sets| - 1;
      assert !IsLastSet(sets, k, n);
      forall j ensures !IsLastSet(sets[..n], k, j) {
        assert !IsLastSet(sets, k, j);
      }
      NeverSet(values, sets[..n], k);
      assert forall i :: 0 <= i < n ==> sets[..n][i] == sets[i];
    }
  }

  lemma {:induction false} SameUnlessTold(values: map<Key, string>, sets: seq<TxSet>, k: Key)
    requires !SomeSetTells(values, sets, k)
    ensures Value(Applied(values, sets), k) == Value(values, k)
    decreases |sets|
  {
    if sets != [] {
      var n := |sets| - 1;
      TellsUnfolds(values, sets, k);
      SameUnlessTold(values, sets[..n], k);
    }
  }

  lemma TellsUnfolds(values: map<Key, string>, sets: seq<TxSet>, k: Key)
    requires sets != []
    ensures var n := |sets| - 1;
            SomeSetTells(values, sets, k) <==> SomeSetTells(values, sets[..n], k) || Tells(values, sets[n], k)
  {
    var n := |sets| - 1;
    hide Tells;
    if SomeSetTells(values, sets[..n], k) {
      var i :| 0 <= i < n && Tells(values, sets[..n][i], k);
      assert Tells(values, sets[i], k);
    }
    if SomeSetTells(values, sets, k) {
      var i :| 0 <= i < |sets| && Tells(values, sets[i], k);
      assert i < n ==> sets[..n][i] == sets[i];
    }
  }

  /**
   A key is notified exactly when some set of the transaction gave it another value than it
   had, or could not read the value it had.
   */
  lemma {:induction false} RecordedExactlyWhen(values: map<Key, string>, sets: seq<TxSet>, k: Key)
    ensures k in Recorded(values, sets) <==> SomeSetTells(values, sets, k)
    decreases |sets|
  {
    if sets != [] {
      var n := |sets| - 1;
      RecordedExactlyWhen(values, sets[..n], k);
      TellsUnfolds(values, sets, k);
      if !SomeSetTells(values, sets[..n], k) {
        SameUnlessTold(values, sets[..n], k);
      }
    }
  }

  /** A key is notified although unchanged exactly when such a set was made and the last set of the key wrote its old value. */
  lemma OverreportedExactlyWhen(values: map<Key, string>, sets: seq<TxSet>, k: Key)
    ensures k in Recorded(values, sets) && Value(Applied(values, sets), k) == Value(values, k) <==>
            SomeSetTells(values, sets, k) && exists j :: IsLastSet(sets, k, j) && sets[j].value == Value(values, k)
  {
    RecordedExactlyWhen(values, sets, k);
    if j :| IsLastSet(sets, k, j) {
      LastSetWins(values, sets, k, j);
      assert forall m :: IsLastSet(sets, k, m) ==> m == j;
    } else {
      NeverSet(values, sets, k);
    }
  }

  /** Every changed key is notified; if no key is set twice and every old value is read, only changed keys are. */
  lemma RecordedMeansChanged(values: map<Key, string>, sets: seq<TxSet>, k: Key)
    ensures Value(Applied(values, sets), k) != Value(values, k) ==> k in Recorded(values, sets)
    ensures SetOnce(sets) && (forall i :: 0 <= i < |sets| ==> !sets[i].unread) ==>
              (Value(Applied(values, sets), k) != Value(values, k) <==> k in Recorded(values, sets))
  {
    RecordedExactlyWhen(values, sets, k);
    if j :| IsLastSet(sets, k, j) {
      LastSetWins(values, sets, k, j);
      assert sets[j].value != Value(values, k) ==> Tells(values, sets[j], k);
    } else {
      NeverSet(values, sets, k);
    }
  }

  /** Setting a key twice can tell readers about a value that ended up unchanged. */
  lemma SettingTwiceMayOverreport()
    ensures exists values, sets: seq<TxSet>, k ::
      (forall i :: 0 <= i < |sets| ==> !sets[i].unread) && k in Recorded(values, sets) && Value(Applied(values, sets), k) == Value(values, k)
  {
    var values: map<Key, string> := map["a" := "1"];
    var sets := [TxSet("a", "2", false), TxSet("a", "1", false)];
    assert Tells(values, sets[0], "a");
    assert IsLastSet(sets, "a", 1) && sets[1].value == Value(values, "a");
    OverreportedExactlyWhen(values, sets, "a");
  }

  /** So can a single set whose read of the old value failed. */
  lemma UnreadMayOverreport()
    ensures exists values, sets: seq<TxSet>, k :: SetOnce(sets) && k in Recorded(values, sets) && Value(Applied(values, sets), k) == Value(values, k)
  {
    var values: map<Key, string> := map["a" := "1"];
    var sets := [TxSet("a", "1", true)];
    assert Tells(values, sets[0], "a");
    assert IsLastSet(sets, "a", 0) && sets[0].value == Value(values, "a");
    OverreportedExactlyWhen(values, sets, "a");
    assert SetOnce(sets);
  }
}
