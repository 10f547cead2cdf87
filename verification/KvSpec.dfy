/** What the KV store promises: a finite map of at most `capacity` records, each with a value and
    a list of subscribers. This module is the reference the hash table of KvTable is proved
    against, and the laws that hold over whole histories of operations. */
module KvSpec {

  type Byte = bv8
  type Key = seq<Byte>

  datatype Sub = Sub(notify: nat, arg: nat)

  datatype Record = Record(value: seq<Byte>, subs: seq<Sub>)   // newest subscriber first

  datatype Status = Ok | Err | Busy

  datatype Op =
    | Put(key: Key, val: seq<Byte>)
    | Get(key: Key, room: nat)
    | Del(key: Key)
    | Subscribe(key: Key, sub: Sub)
    | Unsubscribe(key: Key, sub: Sub)

  // `notified` lists the callbacks a put makes, in order.
  datatype Answer = Answer(status: Status, bytes: seq<Byte>, len: nat, notified: seq<Sub>)

  datatype Db = Db(recs: map<Key, Record>, capacity: nat, maxVal: nat)

  function Only(st: Status): Answer { Answer(st, [], 0, []) }

  function Min(a: nat, b: nat): nat { if a < b then a else b }

  function Apply(db: Db, op: Op): (Db, Answer) {
    match op
    case Put(key, val) =>
      if |val| > db.maxVal then (db, Only(Err))
      else if key in db.recs then
        (db.(recs := db.recs[key := Record(val, db.recs[key].subs)]), Answer(Ok, [], 0, db.recs[key].subs))
      else if |db.recs| >= db.capacity then (db, Only(Busy))
      else (db.(recs := db.recs[key := Record(val, [])]), Only(Ok))
    case Get(key, room) =>
      if key !in db.recs then (db, Only(Err))
      else
        var value := db.recs[key].value;
        (db, Answer(Ok, value[..Min(room, |value|)], |value|, []))
    case Del(key) =>
      if key !in db.recs then (db, Only(Err)) else (db.(recs := db.recs - {key}), Only(Ok))
    case Subscribe(key, sub) =>
      if key !in db.recs then (db, Only(Err))
      else (db.(recs := db.recs[key := db.recs[key].(subs := Added(db.recs[key].subs, sub))]), Only(Ok))
    case Unsubscribe(key, sub) =>
      if key !in db.recs || sub !in db.recs[key].subs then (db, Only(Err))
      else (db.(recs := db.recs[key := db.recs[key].(subs := Dropped(db.recs[key].subs, sub))]), Only(Ok))
  }

  function Added(subs: seq<Sub>, sub: Sub): seq<Sub> {
    if sub in subs then subs else [sub] + subs
  }

  // Without the first occurrence of sub.
  function Dropped(subs: seq<Sub>, sub: Sub): seq<Sub> {
    if subs == [] then []
    else if subs[0] == sub then subs[1..]
    else [subs[0]] + Dropped(subs[1..], sub)
  }

  /** A put with a null value pointer: statuses and notifications are those of any other put of
      that length; an existing value keeps its bytes up to the shorter of the two lengths. */
  ghost predicate PutNull(before: Db, after: Db, key: Key, len: nat, status: Status, notified: seq<Sub>) {
    if len > before.maxVal then status == Err && after == before && notified == []
    else if key !in before.recs && |before.recs| >= before.capacity then
      status == Busy && after == before && notified == []
    else
      && status == Ok && key in after.recs && |after.recs[key].value| == len
      && after == before.(recs := before.recs[key := after.recs[key]])
      && after.recs[key].subs == notified
      && notified == (if key in before.recs then before.recs[key].subs else [])
      && (key in before.recs ==>
            var n := Min(len, |before.recs[key].value|);
            after.recs[key].value[..n] == before.recs[key].value[..n])
  }

  function RunOps(db: Db, ops: seq<Op>): (Db, seq<Answer>)
    decreases |ops|
  {
    if ops == [] then (db, [])
    else
      var (d, answers) := RunOps(db, ops[..|ops| - 1]);
      var (d', a) := Apply(d, ops[|ops| - 1]);
      (d', answers + [a])
  }

  function Empty(capacity: nat, maxVal: nat): Db { Db(map[], capacity, maxVal) }

  // ---------- Laws over histories ----------

  predicate NoDuplicates(subs: seq<Sub>) {
    forall i, j :: 0 <= i < j < |subs| ==> subs[i] != subs[j]
  }

  predicate Sane(db: Db) {
    && |db.recs| <= db.capacity
    && forall k :: k in db.recs ==> |db.recs[k].value| <= db.maxVal && NoDuplicates(db.recs[k].subs)
  }

  lemma {:induction false} DroppedIsWithout(subs: seq<Sub>, sub: Sub)
    requires NoDuplicates(subs)
    ensures NoDuplicates(Dropped(subs, sub))
    ensures forall x :: x in Dropped(subs, sub) <==> x in subs && x != sub
  {
    if subs != [] {
      var rest := subs[1..];
      assert forall i :: 0 <= i < |rest| ==> rest[i] == subs[i + 1];
      assert NoDuplicates(rest) && subs[0] !in rest;
      DroppedIsWithout(rest, sub);
      assert forall x :: x in subs <==> x == subs[0] || x in rest;
      if subs[0] != sub { FrontKeepsNoDuplicates(subs[0], Dropped(rest, sub)); }
    }
  }

  lemma FrontKeepsNoDuplicates(x: Sub, subs: seq<Sub>)
    requires NoDuplicates(subs) && x !in subs
    ensures NoDuplicates([x] + subs)
  {
    var s := [x] + subs;
    forall i, j | 0 <= i < j < |s| ensures s[i] != s[j] {
      assert s[j] == subs[j - 1];
      if i > 0 { assert s[i] == subs[i - 1]; }
    }
  }

  lemma UpdateKeepsSane(db: Db, key: Key, rec: Record)
    requires Sane(db) && |rec.value| <= db.maxVal && NoDuplicates(rec.subs)
    requires key in db.recs || |db.recs| < db.capacity
    ensures Sane(db.(recs := db.recs[key := rec]))
  {
    var recs := db.recs[key := rec];
    assert recs.Keys == db.recs.Keys + {key};
  }

  lemma ApplyKeepsSane(db: Db, op: Op)
    requires Sane(db)
    ensures Sane(Apply(db, op).0)
    ensures Apply(db, op).0.capacity == db.capacity && Apply(db, op).0.maxVal == db.maxVal
  {
    match op
    case Put(key, val) =>
      if |val| <= db.maxVal && (key in db.recs || |db.recs| < db.capacity) {
        UpdateKeepsSane(db, key, Record(val, if key in db.recs then db.recs[key].subs else []));
      }
    case Get(_, _) =>
    case Del(key) => assert (db.recs - {key}).Keys == db.recs.Keys - {key};
    case Subscribe(key, sub) =>
      if key in db.recs {
        var r := db.recs[key];
        if sub !in r.subs { FrontKeepsNoDuplicates(sub, r.subs); }
        UpdateKeepsSane(db, key, r.(subs := Added(r.subs, sub)));
      }
    case Unsubscribe(key, sub) =>
      if key in db.recs {
        var r := db.recs[key];
        DroppedIsWithout(r.subs, sub);
        UpdateKeepsSane(db, key, r.(subs := Dropped(r.subs, sub)));
      }
  }

  lemma {:induction false} HistoryKeepsSane(capacity: nat, maxVal: nat, ops: seq<Op>)
    ensures var (d, answers) := RunOps(Empty(capacity, maxVal), ops);
            Sane(d) && d.capacity == capacity && d.maxVal == maxVal && |answers| == |ops|
    decreases |ops|
  {
    if ops != [] {
      HistoryKeepsSane(capacity, maxVal, ops[..|ops| - 1]);
      ApplyKeepsSane(RunOps(Empty(capacity, maxVal), ops[..|ops| - 1]).0, ops[|ops| - 1]);
    }
  }

  datatype Lookup = Absent | Present(value: seq<Byte>)

  /** The value a history leaves behind a key, read off the operations and their statuses from the
      end: the last successful put since the last successful delete. */
  function LastWritten(ops: seq<Op>, answers: seq<Answer>, key: Key): Lookup
    requires |ops| == |answers|
    decreases |ops|
  {
    if ops == [] then Absent
    else
      var n := |ops| - 1;
      if ops[n].Put? && ops[n].key == key && answers[n].status == Ok then Present(ops[n].val)
      else if ops[n].Del? && ops[n].key == key && answers[n].status == Ok then Absent
      else LastWritten(ops[..n], answers[..n], key)
  }

  /** Whether a history leaves sub subscribed to key: its last successful subscribe is not
      followed by a successful unsubscribe or by a delete of the key. */
  predicate SubscribedLast(ops: seq<Op>, answers: seq<Answer>, key: Key, sub: Sub)
    requires |ops| == |answers|
    decreases |ops|
  {
    if ops == [] then false
    else
      var n := |ops| - 1;
      if ops[n] == Subscribe(key, sub) && answers[n].status == Ok then true
      else if ops[n] == Unsubscribe(key, sub) && answers[n].status == Ok then false
      else if ops[n].Del? && ops[n].key == key && answers[n].status == Ok then false
      else SubscribedLast(ops[..n], answers[..n], key, sub)
  }

  function LookupIn(db: Db, key: Key): Lookup {
    if key in db.recs then Present(db.recs[key].value) else Absent
  }

  lemma ApplyWrites(db: Db, op: Op, key: Key)
    ensures LookupIn(Apply(db, op).0, key) ==
              if op.Put? && op.key == key && Apply(db, op).1.status == Ok then Present(op.val)
              else if op.Del? && op.key == key && Apply(db, op).1.status == Ok then Absent
              else LookupIn(db, key)
  {}

  lemma {:induction false} DbIsLastWritten(capacity: nat, maxVal: nat, ops: seq<Op>, key: Key)
    ensures var (d, answers) := RunOps(Empty(capacity, maxVal), ops);
            |answers| == |ops| && LastWritten(ops, answers, key) == LookupIn(d, key)
    decreases |ops|
  {
    hide Apply;
    if ops != [] {
      var n := |ops| - 1;
      DbIsLastWritten(capacity, maxVal, ops[..n], key);
      var (d, answers) := RunOps(Empty(capacity, maxVal), ops[..n]);
      ApplyWrites(d, ops[n], key);
      var (_, all) := RunOps(Empty(capacity, maxVal), ops);
      assert all[..n] == answers;
    }
  }

  /** Read your writes: after any history, get answers with the last successful put since the
      last successful delete, cut to the caller's buffer, and with the value's full length; it
      fails exactly when there is none. */
  lemma GetReturnsLastPut(capacity: nat, maxVal: nat, ops: seq<Op>, key: Key, room: nat)
    ensures var (d, answers) := RunOps(Empty(capacity, maxVal), ops);
            && |answers| == |ops|
            && Apply(d, Get(key, room)).1 ==
                 match LastWritten(ops, answers, key)
                 case Absent => Only(Err)
                 case Present(v) => Answer(Ok, v[..Min(room, |v|)], |v|, [])
  {
    DbIsLastWritten(capacity, maxVal, ops, key);
  }

  predicate SubIn(db: Db, key: Key, sub: Sub) { key in db.recs && sub in db.recs[key].subs }

  lemma ApplySubscribes(db: Db, op: Op, key: Key, sub: Sub)
    requires Sane(db)
    ensures SubIn(Apply(db, op).0, key, sub) ==
              if op == Subscribe(key, sub) && Apply(db, op).1.status == Ok then true
              else if op == Unsubscribe(key, sub) && Apply(db, op).1.status == Ok then false
              else if op.Del? && op.key == key && Apply(db, op).1.status == Ok then false
              else SubIn(db, key, sub)
  {
    if op.Unsubscribe? && op.key == key && key in db.recs { DroppedIsWithout(db.recs[key].subs, op.sub); }
  }

  lemma {:induction false} SubsAreSubscribed(capacity: nat, maxVal: nat, ops: seq<Op>, key: Key, sub: Sub)
    ensures var (d, answers) := RunOps(Empty(capacity, maxVal), ops);
            |answers| == |ops| && (SubscribedLast(ops, answers, key, sub) <==> SubIn(d, key, sub))
    decreases |ops|
  {
    hide Apply, Sane;
    if ops != [] {
      var n := |ops| - 1;
      SubsAreSubscribed(capacity, maxVal, ops[..n], key, sub);
      HistoryKeepsSane(capacity, maxVal, ops[..n]);
      var (d, answers) := RunOps(Empty(capacity, maxVal), ops[..n]);
      ApplySubscribes(d, ops[n], key, sub);
      var (_, all) := RunOps(Empty(capacity, maxVal), ops);
      assert all[..n] == answers;
    }
  }

  /** Who a put notifies: after any history, a successful put calls each callback that is
      subscribed to the key, exactly once; a put that creates the key calls nobody. */
  lemma PutNotifiesSubscribersOnce(capacity: nat, maxVal: nat, ops: seq<Op>, key: Key, val: seq<Byte>)
    ensures var (d, answers) := RunOps(Empty(capacity, maxVal), ops);
            var a := Apply(d, Put(key, val)).1;
            && |answers| == |ops| && NoDuplicates(a.notified)
            && (a.status == Ok ==> forall s :: s in a.notified <==> SubscribedLast(ops, answers, key, s))
            && (LastWritten(ops, answers, key).Absent? ==> a.notified == [])
            && (a.status == Busy <==>
                  |val| <= maxVal && LastWritten(ops, answers, key).Absent? && |d.recs| == capacity)
  {
    HistoryKeepsSane(capacity, maxVal, ops);
    DbIsLastWritten(capacity, maxVal, ops, key);
    var (d, answers) := RunOps(Empty(capacity, maxVal), ops);
    forall s ensures SubscribedLast(ops, answers, key, s) <==> SubIn(d, key, s) {
      SubsAreSubscribed(capacity, maxVal, ops, key, s);
    }
  }

  // Nothing but what concerns key differs.
  predicate SameElsewhere(before: Db, after: Db, key: Key) {
    && after.capacity == before.capacity && after.maxVal == before.maxVal
    && (forall k :: k in before.recs && k != key ==> k in after.recs && after.recs[k] == before.recs[k])
    && (forall k :: k in after.recs && k != key ==> k in before.recs)
  }

  /** What a delete answers and does, after any history: Ok exactly if the key has a value, and then it
      has none, nor subscribers, and one record fewer is in use; otherwise Err and no change. All other
      keys keep value and subscribers. */
  lemma DelDeletes(capacity: nat, maxVal: nat, ops: seq<Op>, key: Key, room: nat)
    ensures var (d, answers) := RunOps(Empty(capacity, maxVal), ops);
            var (e, a) := Apply(d, Del(key));
            && |answers| == |ops|
            && a == Only(if LastWritten(ops, answers, key).Present? then Ok else Err)
            && SameElsewhere(d, e, key) && SubsOf(e, key) == [] && Apply(e, Get(key, room)).1 == Only(Err)
            && (a.status == Ok ==> |e.recs| == |d.recs| - 1) && (a.status == Err ==> e == d)
  {
    DbIsLastWritten(capacity, maxVal, ops, key);
    var d := RunOps(Empty(capacity, maxVal), ops).0;
    assert (d.recs - {key}).Keys == d.recs.Keys - {key};
  }

  /** What a subscribe answers and does, after any history: it succeeds exactly on a key with a value,
      and then the pair is subscribed. Other pairs, values and other keys stay. */
  lemma SubscribeSubscribes(capacity: nat, maxVal: nat, ops: seq<Op>, key: Key, sub: Sub)
    ensures var (d, answers) := RunOps(Empty(capacity, maxVal), ops);
            var (e, a) := Apply(d, Subscribe(key, sub));
            && |answers| == |ops|
            && a == Only(if LastWritten(ops, answers, key).Present? then Ok else Err)
            && SameElsewhere(d, e, key) && LookupIn(e, key) == LookupIn(d, key) && (a.status == Err ==> e == d)
            && (forall x :: SubIn(e, key, x) <==> SubIn(d, key, x) || (x == sub && a.status == Ok))
  {
    DbIsLastWritten(capacity, maxVal, ops, key);
    hide RunOps;
  }

  /** What an unsubscribe answers and does, after any history: it succeeds exactly on a subscribed pair,
      and then that pair is not. Other pairs, values and other keys stay. */
  lemma UnsubscribeUnsubscribes(capacity: nat, maxVal: nat, ops: seq<Op>, key: Key, sub: Sub)
    ensures var (d, answers) := RunOps(Empty(capacity, maxVal), ops);
            var (e, a) := Apply(d, Unsubscribe(key, sub));
            && |answers| == |ops|
            && a == Only(if SubscribedLast(ops, answers, key, sub) then Ok else Err)
            && SameElsewhere(d, e, key) && LookupIn(e, key) == LookupIn(d, key) && (a.status == Err ==> e == d)
            && (forall x :: SubIn(e, key, x) <==> SubIn(d, key, x) && !(x == sub && a.status == Ok))
  {
    hide RunOps, Apply, Sane, SubscribedLast, SameElsewhere, SubIn;
    HistoryKeepsSane(capacity, maxVal, ops);
    SubsAreSubscribed(capacity, maxVal, ops, key, sub);
    UnsubscribeIs(RunOps(Empty(capacity, maxVal), ops).0, key, sub);
  }

  lemma UnsubscribeIs(d: Db, key: Key, sub: Sub)
    requires Sane(d)
    ensures var (e, a) := Apply(d, Unsubscribe(key, sub));
            && a == Only(if SubIn(d, key, sub) then Ok else Err)
            && SameElsewhere(d, e, key) && LookupIn(e, key) == LookupIn(d, key) && (a.status == Err ==> e == d)
            && (forall x :: SubIn(e, key, x) <==> SubIn(d, key, x) && !(x == sub && a.status == Ok))
  {
    if key in d.recs { DroppedIsWithout(d.recs[key].subs, sub); }
    hide Dropped, NoDuplicates;
  }

  /** What a put answers and does, after any history: Err exactly for a value that is too long, Busy
      exactly for a new key in a full table, and then nothing changes; otherwise Ok, the key has the
      value and its subscribers, and all other keys stay. */
  lemma PutPuts(capacity: nat, maxVal: nat, ops: seq<Op>, key: Key, val: seq<Byte>)
    ensures var (d, answers) := RunOps(Empty(capacity, maxVal), ops);
            var (e, a) := Apply(d, Put(key, val));
            && |answers| == |ops|
            && (a.status == Err <==> |val| > maxVal)
            && (a.status == Busy <==> |val| <= maxVal && LastWritten(ops, answers, key).Absent? && |d.recs| == capacity)
            && (a.status != Ok ==> e == d)
            && (a.status == Ok ==> LookupIn(e, key) == Present(val) && SubsOf(e, key) == SubsOf(d, key) && SameElsewhere(d, e, key))
  {
    HistoryKeepsSane(capacity, maxVal, ops);
    DbIsLastWritten(capacity, maxVal, ops, key);
  }

  /** The index of the subscribe that added sub: the last successful one before which sub was not
      subscribed. */
  function AddedAt(ops: seq<Op>, answers: seq<Answer>, key: Key, sub: Sub): (i: nat)
    requires |ops| == |answers|
    ensures ops != [] ==> i < |ops|
    decreases |ops|
  {
    if ops == [] then 0
    else
      var n := |ops| - 1;
      if ops[n] == Subscribe(key, sub) && answers[n].status == Ok && !SubscribedLast(ops[..n], answers[..n], key, sub) then n
      else AddedAt(ops[..n], answers[..n], key, sub)
  }

  // Every subscriber of the list was added later than those behind it.
  ghost predicate NewestFirst(ops: seq<Op>, answers: seq<Answer>, key: Key, subs: seq<Sub>)
    requires |ops| == |answers|
  {
    forall i, j :: 0 <= i < j < |subs| ==> AddedAt(ops, answers, key, subs[i]) > AddedAt(ops, answers, key, subs[j])
  }

  function SubsOf(db: Db, key: Key): seq<Sub> { if key in db.recs then db.recs[key].subs else [] }

  // What an operation does to the subscribers of a key.
  lemma ApplySubs(db: Db, op: Op, key: Key)
    ensures var (d, a) := Apply(db, op);
            SubsOf(d, key) ==
              if op.Subscribe? && op.key == key && a.status == Ok then Added(SubsOf(db, key), op.sub)
              else if op.Unsubscribe? && op.key == key && a.status == Ok then Dropped(SubsOf(db, key), op.sub)
              else if op.Del? && op.key == key && a.status == Ok then []
              else SubsOf(db, key)
  {}

  // Dropping keeps the order of the rest.
  lemma {:induction false} DroppedOrder(subs: seq<Sub>, sub: Sub, i: nat, j: nat) returns (x: nat, y: nat)
    requires i < j < |Dropped(subs, sub)|
    ensures i <= x < y < |subs| && subs[x] == Dropped(subs, sub)[i] && subs[y] == Dropped(subs, sub)[j]
    decreases |subs|
  {
    if subs[0] == sub {
      x, y := i + 1, j + 1;
    } else if i > 0 {
      x, y := DroppedOrder(subs[1..], sub, i - 1, j - 1);
      x, y := x + 1, y + 1;
    } else {
      y := DroppedHas(subs[1..], sub, j - 1);
      x, y := 0, y + 1;
    }
  }

  lemma {:induction false} DroppedHas(subs: seq<Sub>, sub: Sub, j: nat) returns (y: nat)
    requires j < |Dropped(subs, sub)|
    ensures y < |subs| && subs[y] == Dropped(subs, sub)[j]
    decreases |subs|
  {
    if subs[0] == sub {
      y := j + 1;
    } else if j == 0 {
      y := 0;
    } else {
      y := DroppedHas(subs[1..], sub, j - 1);
      y := y + 1;
    }
  }

  // The last operation adds nobody but, perhaps, the pair it subscribes.
  lemma AddedAtStays(ops: seq<Op>, answers: seq<Answer>, key: Key, sub: Sub)
    requires |ops| == |answers| && ops != []
    requires var n := |ops| - 1;
             ops[n] == Subscribe(key, sub) ==> SubscribedLast(ops[..n], answers[..n], key, sub)
    ensures AddedAt(ops, answers, key, sub) == AddedAt(ops[..|ops| - 1], answers[..|ops| - 1], key, sub)
  {}

  lemma {:induction false} SubsAreNewestFirst(capacity: nat, maxVal: nat, ops: seq<Op>, key: Key)
    ensures var (d, answers) := RunOps(Empty(capacity, maxVal), ops);
            |answers| == |ops| && NewestFirst(ops, answers, key, SubsOf(d, key))
    decreases |ops|
  {
    hide Apply, Sane;
    if ops != [] {
      var n := |ops| - 1;
      SubsAreNewestFirst(capacity, maxVal, ops[..n], key);
      var (d, answers) := RunOps(Empty(capacity, maxVal), ops[..n]);
      var (e, all) := RunOps(Empty(capacity, maxVal), ops);
      assert all[..n] == answers && all[n] == Apply(d, ops[n]).1 && e == Apply(d, ops[n]).0;
      ApplySubs(d, ops[n], key);
      forall s ensures s in SubsOf(d, key) <==> SubscribedLast(ops[..n], answers, key, s) {
        SubsAreSubscribed(capacity, maxVal, ops[..n], key, s);
      }
      forall s | s in SubsOf(d, key) ensures AddedAt(ops, all, key, s) == AddedAt(ops[..n], answers, key, s) {
        AddedAtStays(ops, all, key, s);
      }
      SubsStayOrdered(ops, all, key, SubsOf(d, key), SubsOf(e, key));
    }
  }

  lemma SubsStayOrdered(ops: seq<Op>, all: seq<Answer>, key: Key, before: seq<Sub>, after: seq<Sub>)
    requires |ops| == |all| && ops != []
    requires var n := |ops| - 1; NewestFirst(ops[..n], all[..n], key, before)
    requires forall s :: s in before ==> AddedAt(ops, all, key, s) == AddedAt(ops[..|ops| - 1], all[..|ops| - 1], key, s)
    requires forall s :: s in before <==> SubscribedLast(ops[..|ops| - 1], all[..|ops| - 1], key, s)
    requires var n := |ops| - 1; var (op, st) := (ops[n], all[n].status);
             after == if op.Subscribe? && op.key == key && st == Ok then Added(before, op.sub)
                      else if op.Unsubscribe? && op.key == key && st == Ok then Dropped(before, op.sub)
                      else if op.Del? && op.key == key && st == Ok then []
                      else before
    ensures NewestFirst(ops, all, key, after)
  {
    var n := |ops| - 1;
    var op := ops[n];
    forall i, j | 0 <= i < j < |after| ensures AddedAt(ops, all, key, after[i]) > AddedAt(ops, all, key, after[j]) {
      if after == before {
        assert before[i] in before && before[j] in before;
      } else if op.Subscribe? {
        assert after[j] == before[j - 1] && before[j - 1] in before;
        if i > 0 { assert after[i] == before[i - 1] && before[i - 1] in before; }
      } else {
        var x, y := DroppedOrder(before, op.sub, i, j);
        assert before[x] in before && before[y] in before;
      }
    }
  }

  /** Newest first, after any history: the callbacks of a put are those of the pairs still subscribed,
      each once, in the reverse order of the subscribes that added them. */
  lemma PutNotifiesNewestFirst(capacity: nat, maxVal: nat, ops: seq<Op>, key: Key, val: seq<Byte>)
    ensures var (d, answers) := RunOps(Empty(capacity, maxVal), ops);
            var a := Apply(d, Put(key, val)).1;
            && |answers| == |ops| && NewestFirst(ops, answers, key, a.notified)
            && (a.status == Ok ==> forall s :: s in a.notified <==> SubscribedLast(ops, answers, key, s))
  {
    SubsAreNewestFirst(capacity, maxVal, ops, key);
    PutNotifiesSubscribersOnce(capacity, maxVal, ops, key, val);
  }

  /** Newest first: subscribing somebody new puts them ahead of the others, whose order stays. */
  lemma NewestIsNotifiedFirst(db: Db, key: Key, sub: Sub, val: seq<Byte>)
    requires Sane(db) && key in db.recs && sub !in db.recs[key].subs && |val| <= db.maxVal
    ensures var d := Apply(db, Subscribe(key, sub)).0;
            Apply(d, Put(key, val)).1.notified == [sub] + Apply(db, Put(key, val)).1.notified
    ensures var d := Apply(db, Subscribe(key, sub)).0;
            Apply(d, Unsubscribe(key, sub)).0 == db
  {
    var d := Apply(db, Subscribe(key, sub)).0;
    var e := Apply(d, Unsubscribe(key, sub)).0;
    assert e.recs == db.recs;
  }
}
