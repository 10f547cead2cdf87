/** The timer min-heap of a scheduler thread (src/core/nos_scheduler.c): sift-up, sift-down,
    start, stop and delete. Timers are objects that the heap array points to. */
module TimerHeap {
  import opened FireLoop

  const CAPACITY: nat := 128

  class Timer {
    var deadline: nat     // expire_at_ms
    var interval: nat
    var periodic: bool
    var running: bool

    constructor ()
      ensures !running
    {
      deadline, interval, periodic, running := 0, 0, false, false;
    }
  }

  /** How a call of process_timers ends: no timer is due; the model's bound on rounds is used up; or
      the re-arm of a timer would store it twice or past the array. */
  datatype Outcome = Drained | OutOfFuel | StoredTwice(timer: Timer) | PastTheArray(timer: Timer)

  /** The call ended inside the round of outcome.timer, which breaks: after its callback, before the
      wrong store. */
  ghost predicate Stopped(m: Machine<Timer>, outcome: Outcome, s: Sched<Timer>,
                          script: seq<seq<Start<Timer>>>, clock: nat -> nat)
    requires outcome.StoredTwice? || outcome.PastTheArray?
  {
    var t := outcome.timer;
    && Breaks(m, t, script, clock) && s == AfterCallback(m, t, script, clock).0
    && (outcome.PastTheArray? <==> |s.heap| >= s.capacity)
  }

  ghost function ScriptTimers(script: seq<seq<Start<Timer>>>): set<Timer> {
    set b, a | b in script && a in b :: a.timer
  }

  function Parent(i: nat): nat
    requires i > 0
  {
    (i - 1) / 2
  }

  predicate HeapOrder(keys: seq<nat>) {
    forall j :: 0 < j < |keys| ==> keys[Parent(j)] <= keys[j]
  }

  /** When removing index i of an ordered heap leaves it ordered: i is the root or the last node,
      or the last node, which moves to i, is not below i's parent. */
  predicate RemovalKeepsOrder(keys: seq<nat>, i: nat)
    requires i < |keys|
  {
    i == 0 || i == |keys| - 1 || keys[Parent(i)] <= keys[|keys| - 1]
  }

  lemma {:induction false} RootIsMinimum(keys: seq<nat>, j: nat)
    requires HeapOrder(keys) && j < |keys|
    ensures keys[0] <= keys[j]
  {
    if j > 0 { RootIsMinimum(keys, Parent(j)); }
  }

  /** Removal does break order: stopping the timer with deadline 11 here moves 4 below 10. */
  lemma RemovalCanBreakOrder()
    ensures var keys := [1, 10, 2, 11, 12, 3, 4];
            HeapOrder(keys) && !RemovalKeepsOrder(keys, 3)
  {}

  // ---------- Sifting, on the sequence of deadlines ----------

  function Swapped<T>(s: seq<T>, i: nat, j: nat): (r: seq<T>)
    requires i < |s| && j < |s|
    ensures multiset(r) == multiset(s)
  {
    s[i := s[j]][j := s[i]]
  }

  // Only i may be below its parent, and its children are not below that parent.
  predicate OrderedAbove(k: seq<nat>, i: nat) {
    && i < |k|
    && (forall j :: 0 < j < |k| && j != i ==> k[Parent(j)] <= k[j])
    && (forall j :: 0 < j < |k| && i > 0 && Parent(j) == i ==> k[Parent(i)] <= k[j])
  }

  // Only i may be above its children, and they are not below i's parent; idx may be out of
  // order against its own parent.
  predicate OrderedBelow(k: seq<nat>, idx: nat, i: nat) {
    && idx <= i
    && (forall j :: 0 < j < |k| && j != idx && Parent(j) != i ==> k[Parent(j)] <= k[j])
    && (forall j :: 0 < j < |k| && i > 0 && Parent(j) == i ==> k[Parent(i)] <= k[j])
  }

  predicate OrderedAt(k: seq<nat>, i: nat) { 0 < i < |k| ==> k[Parent(i)] <= k[i] }

  lemma UpStep(k: seq<nat>, i: nat)
    requires OrderedAbove(k, i) && i > 0 && k[i] < k[Parent(i)]
    ensures OrderedAbove(Swapped(k, i, Parent(i)), Parent(i))
  {}

  // c is the child of i that sift-down swaps with it.
  predicate SmallestChild(k: seq<nat>, i: nat, c: nat) {
    && (c == 2 * i + 1 || c == 2 * i + 2) && c < |k|
    && forall j :: 0 < j < |k| && Parent(j) == i ==> k[c] <= k[j]
  }

  lemma DownStep(k: seq<nat>, idx: nat, i: nat, c: nat)
    requires OrderedBelow(k, idx, i) && SmallestChild(k, i, c) && k[c] < k[i]
    ensures OrderedBelow(Swapped(k, i, c), idx, c)
  {
    var r := Swapped(k, i, c);
    forall j | 0 < j < |r| && j != idx && Parent(j) != c ensures r[Parent(j)] <= r[j] {
      assert j != c && j != i && Parent(j) != i ==> r[Parent(j)] == k[Parent(j)] && r[j] == k[j];
    }
  }

  // After any swap idx is in order against its parent.
  lemma DownStepAt(k: seq<nat>, idx: nat, i: nat, c: nat)
    requires OrderedBelow(k, idx, i) && SmallestChild(k, i, c) && k[c] < k[i]
    requires idx != i ==> OrderedAt(k, idx)
    ensures OrderedAt(k, idx) && OrderedAt(Swapped(k, i, c), idx)
  {}

  predicate NotAboveChildren(k: seq<nat>, i: nat) {
    forall j :: 0 < j < |k| && Parent(j) == i ==> i < |k| && k[i] <= k[j]
  }

  lemma LeafHasNoChildren(k: seq<nat>, i: nat)
    requires i * 2 + 1 >= |k|
    ensures NotAboveChildren(k, i)
  {}

  lemma NotAboveSmallest(k: seq<nat>, i: nat, c: nat)
    requires SmallestChild(k, i, c) && k[i] <= k[c]
    ensures NotAboveChildren(k, i)
  {}

  lemma DownDone(k: seq<nat>, idx: nat, i: nat)
    requires OrderedBelow(k, idx, i) && NotAboveChildren(k, i) && (idx != i ==> OrderedAt(k, idx))
    ensures idx < |k| ==> OrderedAbove(k, idx)
    ensures HeapOrder(k) <==> OrderedAt(k, idx)
  {}

  // What nodes[i] = nodes[--size] leaves.
  function Removed<T>(s: seq<T>, i: nat): seq<T>
    requires i < |s|
  {
    if i == |s| - 1 then s[..i] else s[..|s| - 1][i := s[|s| - 1]]
  }

  lemma RemovedDropsOne<T>(s: seq<T>, i: nat)
    requires i < |s|
    ensures multiset(Removed(s, i)) == multiset(s) - multiset{s[i]}
    ensures Distinct(s) ==> Distinct(Removed(s, i))
  {
    assert s == s[..|s| - 1] + [s[|s| - 1]];
  }

  lemma RemovedIsOrderedBelow(k: seq<nat>, i: nat)
    requires HeapOrder(k) && i < |k|
    ensures OrderedBelow(Removed(k, i), i, i)
    ensures OrderedAt(Removed(k, i), i) <==> RemovalKeepsOrder(k, i)
  {
    var r := Removed(k, i);
    forall j | 0 < j < |r| && i > 0 && Parent(j) == i ensures r[Parent(i)] <= r[j] {
      assert k[Parent(i)] <= k[i] <= k[j];
    }
  }

  function KeysOf(s: seq<Timer>): (k: seq<nat>)
    reads set t | t in s
    ensures |k| == |s| && forall i :: 0 <= i < |s| ==> k[i] == s[i].deadline
  {
    seq(|s|, i requires 0 <= i < |s| reads set t | t in s => s[i].deadline)
  }

  predicate Distinct<T(==)>(s: seq<T>) { forall i, j :: 0 <= i < j < |s| ==> s[i] != s[j] }

  // RemovalKeepsOrder for the one place where t stands in s.
  predicate RemovalOfKeepsOrder<T(==)>(s: seq<T>, t: T, keys: seq<nat>)
    requires |s| == |keys|
  {
    forall i :: 0 <= i < |s| && s[i] == t ==> RemovalKeepsOrder(keys, i)
  }

  lemma OnlyPlace<T>(s: seq<T>, i: nat, keys: seq<nat>)
    requires Distinct(s) && |s| == |keys| && i < |s|
    ensures RemovalOfKeepsOrder(s, s[i], keys) <==> RemovalKeepsOrder(keys, i)
  {}

  lemma DistinctCount<T>(s: seq<T>, i: nat)
    requires Distinct(s) && i < |s|
    ensures multiset(s)[s[i]] == 1
  {
    assert s == s[..i] + [s[i]] + s[i + 1..];
  }

  lemma SwappedDistinct<T>(s: seq<T>, i: nat, j: nat)
    requires Distinct(s) && i < |s| && j < |s|
    ensures Distinct(Swapped(s, i, j))
  {}

  class Heap {
    const nodes: array<Timer>
    var size: nat

    // nos_scheduler_init_thread; slots beyond `size` are never read.
    constructor (unused: Timer)
      ensures Sound() && size == 0 && nodes.Length == CAPACITY && fresh(nodes)
    {
      nodes := new Timer[CAPACITY](_ => unused);
      size := 0;
    }

    // The timers in the heap, in array order.
    ghost function Live(): seq<Timer>
      reads this, nodes
      requires size <= nodes.Length
    {
      nodes[..size]
    }

    ghost predicate Valid()
      reads this, nodes
    {
      size <= nodes.Length && Distinct(Live())
    }

    method Swap(i: nat, j: nat)
      requires Valid() && i < size && j < size
      modifies nodes
      ensures Valid() && Live() == Swapped(old(Live()), i, j)
      ensures KeysOf(Live()) == Swapped(old(KeysOf(Live())), i, j)
    {
      ghost var before, k := Live(), KeysOf(Live());
      nodes[i], nodes[j] := nodes[j], nodes[i];
      assert Live() == Swapped(before, i, j);
      SwappedDistinct(before, i, j);
      assert KeysOf(Live()) == Swapped(k, i, j);
    }

    /** heapify_up: restores the order when only idx may be below its parent. */
    method HeapifyUp(idx: nat)
      requires Valid() && idx < size
      modifies nodes
      ensures Valid() && multiset(Live()) == multiset(old(Live()))
      ensures old(OrderedAbove(KeysOf(Live()), idx)) ==> HeapOrder(KeysOf(Live()))
    {
      ghost var ordered := OrderedAbove(KeysOf(Live()), idx);
      var i := idx;
      while i > 0
        invariant Valid() && 0 <= i < size && (ordered ==> OrderedAbove(KeysOf(Live()), i))
        invariant multiset(Live()) == multiset(old(Live()))
      {
        ghost var k := KeysOf(Live());
        var parent := Parent(i);
        if nodes[i].deadline >= nodes[parent].deadline { break; }
        if ordered { UpStep(k, i); }
        Swap(i, parent);
        i := parent;
      }
    }

    // The choice of the child in heapify_down.
    method SmallerChild(i: nat) returns (smallest: nat)
      requires Valid() && i * 2 + 1 < size
      ensures i < smallest < size && SmallestChild(KeysOf(Live()), i, smallest)
    {
      smallest := i * 2 + 1;
      var right := i * 2 + 2;
      if right < size && nodes[right].deadline < nodes[smallest].deadline {
        smallest := right;
      }
    }

    /** heapify_down at an index whose surroundings are ordered apart from the value at idx:
        only idx itself can remain out of order, and only if it was before. */
    method HeapifyDown(idx: nat)
      requires Valid()
      modifies nodes
      ensures Valid() && multiset(Live()) == multiset(old(Live()))
      ensures old(OrderedBelow(KeysOf(Live()), idx, idx)) ==>
                && (idx < size ==> OrderedAbove(KeysOf(Live()), idx))
                && (HeapOrder(KeysOf(Live())) <==> old(OrderedAt(KeysOf(Live()), idx)))
    {
      hide OrderedBelow, OrderedAbove, OrderedAt, HeapOrder, SmallestChild, NotAboveChildren, Distinct;
      ghost var ordered := OrderedBelow(KeysOf(Live()), idx, idx);
      ghost var inOrder := OrderedAt(KeysOf(Live()), idx);
      var i := idx;
      while i * 2 + 1 < size
        invariant Valid() && multiset(Live()) == multiset(old(Live()))
        invariant ordered ==> OrderedBelow(KeysOf(Live()), idx, i)
        invariant ordered ==> (OrderedAt(KeysOf(Live()), idx) <==> inOrder) && (idx != i ==> inOrder)
        decreases size - i
      {
        ghost var k := KeysOf(Live());
        var smallest := SmallerChild(i);
        if nodes[i].deadline <= nodes[smallest].deadline {
          NotAboveSmallest(k, i, smallest);
          break;
        }
        if ordered {
          DownStep(k, idx, i, smallest);
          DownStepAt(k, idx, i, smallest);
        }
        Swap(i, smallest);
        i := smallest;
      }
      if i * 2 + 1 >= size { LeafHasNoChildren(KeysOf(Live()), i); }
      if ordered { DownDone(KeysOf(Live()), idx, i); }
    }

    // nodes[i] = nodes[--size]
    method MoveLastTo(i: nat)
      requires Valid() && i < size
      modifies this`size, nodes
      ensures Valid() && Live() == Removed(old(Live()), i)
      ensures KeysOf(Live()) == Removed(old(KeysOf(Live())), i)
    {
      ghost var before, k := Live(), KeysOf(Live());
      size := size - 1;
      nodes[i] := nodes[size];
      assert Live() == Removed(before, i);
      RemovedDropsOne(before, i);
      assert KeysOf(Live()) == Removed(k, i);
    }

    // nodes[i] = nodes[--size]; heapify_down(i)
    method RemoveAt(i: nat)
      requires Valid() && i < size
      modifies this`size, nodes
      ensures Valid() && size == old(size) - 1
      ensures multiset(Live()) == multiset(old(Live())) - multiset{old(nodes[i])}
      ensures old(HeapOrder(KeysOf(Live()))) ==>
                && (i < size ==> OrderedAbove(KeysOf(Live()), i))
                && (HeapOrder(KeysOf(Live())) <==> old(RemovalKeepsOrder(KeysOf(Live()), i)))
    {
      ghost var before, k := Live(), KeysOf(Live());
      RemovedDropsOne(before, i);
      MoveLastTo(i);
      if HeapOrder(k) { RemovedIsOrderedBelow(k, i); }
      HeapifyDown(i);
    }

    // The search loop of nos_timer_stop and nos_timer_delete.
    method Find(timer: Timer) returns (i: nat)
      requires Valid()
      ensures i <= size && (i < size ==> nodes[i] == timer)
      ensures i < size <==> timer in Live()
    {
      i := 0;
      while i < size
        invariant i <= size && timer !in Live()[..i]
      {
        if nodes[i] == timer { return; }
        i := i + 1;
      }
    }

    /** nos_timer_stop: fails unless the timer runs and is found. The order survives exactly under
        RemovalKeepsOrder, because the code sifts the moved node down but never up. */
    method Stop(timer: Timer) returns (ok: bool)
      requires Valid()
      modifies this`size, nodes, timer`running
      ensures Valid() && (ok <==> old(timer.running) && timer in old(Live()))
      ensures !ok ==> Live() == old(Live()) && timer.running == old(timer.running)
      ensures ok ==> !timer.running && multiset(Live()) == multiset(old(Live())) - multiset{timer}
      ensures ok && old(HeapOrder(KeysOf(Live()))) ==>
                (HeapOrder(KeysOf(Live())) <==> RemovalOfKeepsOrder(old(Live()), timer, old(KeysOf(Live()))))
    {
      if !timer.running { return false; }
      var i := Find(timer);
      ok := i < size;
      if ok {
        OnlyPlace(Live(), i, KeysOf(Live()));
        RemoveAt(i);
        SetRunning(timer, false);
      }
    }

    // Writing `running` moves no deadline.
    method SetRunning(timer: Timer, running: bool)
      requires Valid()
      modifies timer`running
      ensures timer.running == running && KeysOf(Live()) == old(KeysOf(Live()))
    {
      timer.running := running;
    }

    /** nos_timer_delete takes a running timer out of the heap in the same way, then frees it. */
    method Delete(timer: Timer)
      requires Valid()
      modifies this`size, nodes
      ensures Valid() && (old(timer.running) ==> timer !in Live())
      ensures multiset(Live()) ==
                if old(timer.running && timer in Live()) then multiset(old(Live())) - multiset{timer}
                else multiset(old(Live()))
      ensures old(HeapOrder(KeysOf(Live()))) && old(timer.running) ==>
                (HeapOrder(KeysOf(Live())) <==> RemovalOfKeepsOrder(old(Live()), timer, old(KeysOf(Live()))))
    {
      if timer.running {
        var i := Find(timer);
        if i < size {
          ghost var before := Live();
          DistinctCount(before, i);
          OnlyPlace(before, i, KeysOf(before));
          RemoveAt(i);
          assert timer !in multiset(Live());
        }
      }
    }

    /** nos_timer_start: fails on a running timer and on a full heap. */
    method Start(timer: Timer, interval: nat, periodic: bool, now: nat) returns (ok: bool)
      requires Valid() && (timer in Live() ==> timer.running)
      modifies this`size, nodes, timer
      ensures Valid() && (ok <==> !old(timer.running) && old(size) < nodes.Length)
      ensures !ok ==> Live() == old(Live()) && KeysOf(Live()) == old(KeysOf(Live()))
      ensures !ok ==> timer.running == old(timer.running) && timer.periodic == old(timer.periodic)
                      && timer.interval == old(timer.interval) && timer.deadline == old(timer.deadline)
      ensures ok ==> timer.running && timer.periodic == periodic && timer.interval == interval
                     && timer.deadline == now + interval
      ensures ok ==> multiset(Live()) == multiset(old(Live())) + multiset{timer} && timer !in old(Live())
      ensures old(HeapOrder(KeysOf(Live()))) ==> HeapOrder(KeysOf(Live()))
    {
      ok := !timer.running && size < nodes.Length;
      if ok {
        timer.interval, timer.deadline, timer.periodic, timer.running := interval, now + interval, periodic, true;
        Insert(timer);
      }
    }

    // nodes[size] = timer; heapify_up(size++)
    method Insert(timer: Timer)
      requires Valid() && size < nodes.Length && timer !in Live()
      modifies this`size, nodes
      ensures Valid() && multiset(Live()) == multiset(old(Live())) + multiset{timer}
      ensures old(HeapOrder(KeysOf(Live()))) ==> HeapOrder(KeysOf(Live()))
    {
      ghost var before, k := Live(), KeysOf(Live());
      nodes[size] := timer;
      size := size + 1;
      assert Live() == before + [timer];
      assert KeysOf(Live()) == k + [timer.deadline];
      HeapifyUp(size - 1);
    }

    /** A repair, not in the source: sift the moved node up as well. Then the order always
        survives. */
    method RemoveAtRepaired(i: nat)
      requires Valid() && i < size && HeapOrder(KeysOf(Live()))
      modifies this`size, nodes
      ensures Valid() && HeapOrder(KeysOf(Live()))
      ensures multiset(Live()) == multiset(old(Live())) - multiset{old(nodes[i])}
    {
      RemoveAt(i);
      if i < size { HeapifyUp(i); }
    }

    // ---------- The fire loop ----------

    ghost function Members(): set<Timer>
      reads this, nodes
      requires size <= nodes.Length
    {
      set t | t in Live()
    }

    // An ordered heap of running timers.
    ghost predicate Sound()
      reads this, nodes, if size <= nodes.Length then Members() else {}
      ensures Sound() ==> Valid()
    {
      Valid() && HeapOrder(KeysOf(Live())) && forall t :: t in Members() ==> t.running
    }

    // The heap and the fields of the timers of `all`, as the fire loop's specification sees them.
    ghost function Abs(all: set<Timer>): Sched<Timer>
      reads this, nodes, all
      requires size <= nodes.Length
    {
      Sched(map t | t in all :: Info(t.deadline, t.interval, t.periodic, t.running), Members(), nodes.Length)
    }

    lemma SizeIsMembers()
      requires Valid()
      ensures |Members()| == size
    {
      DistinctMembers(Live());
    }

    lemma AbsIsOk(all: set<Timer>)
      requires Sound() && Members() <= all
      ensures SchedOk(Abs(all))
    {
      SizeIsMembers();
    }

    lemma RootIsEarliest()
      requires Sound() && size > 0
      ensures nodes[0] in Members() && forall t :: t in Members() ==> nodes[0].deadline <= t.deadline
    {
      assert nodes[0] == Live()[0];
      forall t | t in Members() ensures nodes[0].deadline <= t.deadline {
        var j :| 0 <= j < size && Live()[j] == t;
        RootIsMinimum(KeysOf(Live()), j);
      }
    }

    // Takes the earliest timer out and marks it stopped.
    method PopRoot(ghost all: set<Timer>) returns (timer: Timer)
      requires Sound() && size > 0 && Members() <= all
      modifies this`size, nodes, Members()`running
      ensures timer == old(nodes[0]) && timer in old(Members())
      ensures Sound() && Members() <= all && Abs(all) == Popped(old(Abs(all)), timer)
    {
      RootIsEarliest();
      timer := nodes[0];
      ghost var before, s := Live(), Abs(all);
      DistinctCount(before, 0);
      RemoveAt(0);
      MembersOf(Live(), before, timer);
      SetRunning(timer, false);
      assert Abs(all).info == Popped(s, timer).info;
    }

    // nos_timer_start on a sound heap.
    method StartSound(start: Start<Timer>, now: nat) returns (ok: bool)
      requires Sound()
      modifies this`size, nodes, start.timer
      ensures Sound() && (ok <==> !old(start.timer.running) && |old(Members())| < nodes.Length)
      ensures Members() == if ok then old(Members()) + {start.timer} else old(Members())
      ensures var t := start.timer;
              Info(t.deadline, t.interval, t.periodic, t.running) ==
                if ok then Info(now + start.interval, start.interval, start.periodic, true)
                else old(Info(t.deadline, t.interval, t.periodic, t.running))
    {
      hide HeapOrder, Distinct;
      ghost var before := Live();
      SizeIsMembers();
      assert start.timer in Live() ==> start.timer in Members();
      ok := Start(start.timer, start.interval, start.periodic, now);
      if ok { MembersGrow(Live(), before, start.timer); }
    }

    // One start made by a callback.
    method StartFromCallback(start: Start<Timer>, now: nat, ghost all: set<Timer>) returns (ok: bool)
      requires Sound() && Members() <= all && start.timer in all
      modifies this`size, nodes, start.timer
      ensures Sound() && Members() <= all
      ensures ok == CanStart(old(Abs(all)), start.timer) && Abs(all) == Started(old(Abs(all)), start, now)
    {
      hide Heap.Sound, Heap.Members;
      ghost var s := Abs(all);
      ok := StartSound(start, now);
      assert Abs(all).info == Started(s, start, now).info;
    }

    // A callback's starts; one that succeeds reads the clock.
    method RunCallback(starts: seq<Start<Timer>>, clock: nat -> nat, c: nat, ghost all: set<Timer>) returns (c': nat)
      requires Sound() && Members() <= all && forall a :: a in starts ==> a.timer in all
      modifies this`size, nodes, all
      ensures Sound() && Members() <= all && (Abs(all), c') == RunStarts(old(Abs(all)), starts, clock, c)
    {
      hide Heap.Sound, Heap.Abs;
      c' := c;
      for n := 0 to |starts|
        invariant Sound() && Members() <= all
        invariant (Abs(all), c') == RunStarts(old(Abs(all)), starts[..n], clock, c)
      {
        assert starts[n] in starts && starts[..n + 1][..n] == starts[..n];
        var ok := StartFromCallback(starts[n], clock(c'), all);
        if ok { c' := c' + 1; }
      }
      assert starts[..|starts|] == starts;
    }

    // Puts a timer that is not in the heap back with a new deadline.
    method RearmSound(timer: Timer, now: nat)
      requires Sound() && timer !in Members() && size < nodes.Length
      modifies this`size, nodes, timer`deadline, timer`running
      ensures Sound() && Members() == old(Members()) + {timer}
      ensures timer.deadline == now + timer.interval && timer.running
    {
      hide HeapOrder, Distinct;
      ghost var before := Live();
      timer.deadline := now + timer.interval;
      timer.running := true;
      assert timer !in Live() ==> KeysOf(Live()) == old(KeysOf(Live()));
      Insert(timer);
      MembersGrow(Live(), before, timer);
    }

    method Rearm(timer: Timer, now: nat, ghost all: set<Timer>)
      requires Sound() && Members() <= all && timer in all && timer !in Members() && size < nodes.Length
      modifies this`size, nodes, timer`deadline, timer`running
      ensures Sound() && Members() <= all
      ensures var s := old(Abs(all));
              Abs(all) == Entered(s, timer, s.info[timer].(deadline := now + s.info[timer].interval, running := true))
    {
      hide Heap.Sound, Heap.Members;
      ghost var s := Abs(all);
      RearmSound(timer, now);
      assert Abs(all).info == s.info[timer := s.info[timer].(deadline := now + s.info[timer].interval, running := true)];
    }

    lemma RootMayFire(all: set<Timer>, now: nat, c: nat, k: nat)
      requires Sound() && size > 0 && Members() <= all && nodes[0].deadline <= now
      ensures MayFire(Machine(Abs(all), now, c, k), nodes[0])
    {
      RootIsEarliest();
    }

    lemma FieldsOf(all: set<Timer>, t: Timer)
      requires size <= nodes.Length && t in all
      ensures t in Abs(all).info && Abs(all).info[t] == Info(t.deadline, t.interval, t.periodic, t.running)
      ensures Abs(all).heap == Members() && Abs(all).capacity == nodes.Length
    {}

    // The callback of the timer just taken out.
    method Call(timer: Timer, script: seq<seq<Start<Timer>>>, k: nat, clock: nat -> nat, c: nat,
                ghost m: Machine<Timer>, ghost all: set<Timer>) returns (c': nat)
      requires Sound() && Members() <= all && ScriptTimers(script) <= all && timer in all
      requires SchedOk(m.s) && timer in m.s.heap && timer in m.s.info && Abs(all) == Popped(m.s, timer)
      modifies this`size, nodes, all
      ensures Sound() && Members() <= all && (timer !in Members() ==> !timer.running)
      ensures (Abs(all), c') == RunStarts(Popped(m.s, timer), StartsOf(script, k), clock, c)
    {
      hide Heap.Sound, Heap.Abs, Heap.Members, Heap.Live, KeysOf, RunStarts, ScriptTimers;
      PoppedIsOk(m.s, timer);
      var starts := StartsOf(script, k);
      StartsAre(Abs(all), starts, clock, c);
      ScriptIn(script, k, all);
      c' := RunCallback(starts, clock, c, all);
      FieldsOf(all, timer);
    }

    // The callback of the timer just taken out has run: re-arm it if it is periodic.
    method Finish(timer: Timer, clock: nat -> nat, c: nat, ghost all: set<Timer>) returns (c': nat, outcome: Outcome)
      requires Sound() && Members() <= all && timer in all && (timer !in Members() ==> !timer.running)
      modifies this`size, nodes, timer`deadline, timer`running
      ensures Sound() && Members() <= all && !outcome.OutOfFuel?
      ensures outcome.Drained? <==> !Wrong(old(Abs(all)), timer)
      ensures outcome.Drained? ==> (Abs(all), c') == Rearmed(old(Abs(all)), timer, clock, c)
      ensures !outcome.Drained? ==> outcome.timer == timer && Abs(all) == old(Abs(all))
                                    && (outcome.PastTheArray? <==> |Abs(all).heap| >= Abs(all).capacity)
    {
      SizeIsMembers();
      FieldsOf(all, timer);
      assert timer in Members() ==> timer.running;
      hide Heap.Sound, Heap.Abs, Heap.Members, Heap.Live, KeysOf, Entered;
      c', outcome := c, Drained;
      if timer.periodic {
        if size == nodes.Length { return c', PastTheArray(timer); }
        // Nothing but a start sets `running` again: the callback has restarted the timer.
        if timer.running { return c', StoredTwice(timer); }
        Rearm(timer, clock(c), all);
        c' := c' + 1;
      }
    }

    // The first half of a round: the earliest timer leaves the heap and its callback runs.
    method TakeAndCall(script: seq<seq<Start<Timer>>>, clock: nat -> nat, now: nat, c: nat, k: nat, ghost all: set<Timer>)
        returns (f: Firing<Timer>, c': nat)
      requires Sound() && size > 0 && Members() <= all && ScriptTimers(script) <= all && nodes[0].deadline <= now
      modifies this`size, nodes, all
      ensures Sound() && Members() <= all && f.timer in all && (f.timer !in Members() ==> !f.timer.running)
      ensures var m := Machine(old(Abs(all)), now, c, k);
              && MayFire(m, f.timer) && f == Firing(f.timer, m.s.info[f.timer].deadline, now)
              && (Abs(all), c') == RunStarts(Popped(m.s, f.timer), StartsOf(script, k), clock, c)
    {
      AbsIsOk(all);
      ghost var m := Machine(Abs(all), now, c, k);
      RootIn(all);
      RootMayFire(all, now, c, k);
      f := Firing(nodes[0], nodes[0].deadline, now);
      FieldsOf(all, f.timer);
      hide Heap.Sound, Heap.Abs, Heap.Members, Heap.Live, KeysOf, RunStarts, MayFire, ScriptTimers, StartsOf;
      var timer := PopRoot(all);
      c' := Call(timer, script, k, clock, c, m, all);
    }

    /** One round of the loop on the earliest timer. Where the round breaks, the call ends before
        the wrong store. */
    method FireRoot(script: seq<seq<Start<Timer>>>, clock: nat -> nat, now: nat, c: nat, k: nat, ghost all: set<Timer>)
        returns (f: Firing<Timer>, now': nat, c': nat, outcome: Outcome)
      requires Sound() && size > 0 && Members() <= all && ScriptTimers(script) <= all && nodes[0].deadline <= now
      modifies this`size, nodes, all
      ensures Sound() && Members() <= all && !outcome.OutOfFuel?
      ensures var m := Machine(old(Abs(all)), now, c, k);
              && MayFire(m, f.timer) && f == Firing(f.timer, m.s.info[f.timer].deadline, now)
              && (outcome.Drained? <==> !Breaks(m, f.timer, script, clock))
              && (outcome.Drained? ==> Machine(Abs(all), now', c', k + 1) == Round(m, f.timer, script, clock))
              && (!outcome.Drained? ==> outcome.timer == f.timer && Stopped(m, outcome, Abs(all), script, clock))
    {
      hide Heap.Sound, Heap.Abs, Heap.Members, Heap.Live, KeysOf;
      hide RunStarts, ScriptTimers, Breaks, Wrong, Round, Rearmed, AfterCallback, StartsOf, Popped;
      ghost var m := Machine(Abs(all), now, c, k);
      f, c' := TakeAndCall(script, clock, now, c, k, all);
      RoundFrom(m, f.timer, script, clock, Abs(all), c');
      c', outcome := Finish(f.timer, clock, c', all);
      now' := clock(c');
      c' := c' + 1;
    }

    lemma RootIn(all: set<Timer>)
      requires Sound() && size > 0 && Members() <= all
      ensures nodes[0] in all && nodes[0] in Members()
    {
      RootIsEarliest();
    }

    lemma ScriptIn(script: seq<seq<Start<Timer>>>, k: nat, all: set<Timer>)
      requires ScriptTimers(script) <= all
      ensures forall a :: a in StartsOf(script, k) ==> a.timer in all
    {
      forall a | a in StartsOf(script, k) ensures a.timer in all { assert a.timer in ScriptTimers(script); }
    }

    lemma RootIsDue(all: set<Timer>, now: nat, c: nat, k: nat)
      requires Sound() && size > 0 && Members() <= all && nodes[0].deadline <= now
      ensures !NoneDue(Machine(Abs(all), now, c, k))
    {
      RootIsEarliest();
      assert nodes[0] in Abs(all).heap;
    }

    lemma RestNotDue(all: set<Timer>, now: nat, c: nat, k: nat)
      requires Sound() && Members() <= all && (size == 0 || now < nodes[0].deadline)
      ensures NoneDue(Machine(Abs(all), now, c, k))
    {
      if size > 0 { RootIsEarliest(); }
    }

    // The loop of process_timers.
    method FireAll(clock: nat -> nat, callbacks: seq<seq<Start<Timer>>>, fuel: nat, ghost all: set<Timer>)
        returns (log: seq<Firing<Timer>>, now: nat, outcome: Outcome)
      requires Sound() && Members() <= all && ScriptTimers(callbacks) <= all
      modifies this`size, nodes, all
      ensures Sound() && Members() <= all
      ensures var m := Begin(old(Abs(all)), clock);
              Legal(m, log, callbacks, clock) && EndsAs(Play(m, log, callbacks, clock), |log|, now, outcome, fuel, callbacks, clock, all)
    {
      hide Heap.Sound, Heap.Abs, RunStarts, Breaks, Round, MayFire, Stopped, Legal, Play, NoneDue;
      log, outcome := [], Drained;
      now := clock(0);
      var c := 1;
      ghost var m := Begin(Abs(all), clock);
      NoLog(m, callbacks, clock);
      while size > 0 && now >= nodes[0].deadline
        invariant Sound() && Members() <= all && |log| <= fuel
        invariant Legal(m, log, callbacks, clock) && Machine(Abs(all), now, c, |log|) == Play(m, log, callbacks, clock)
        decreases fuel - |log|
      {
        if |log| == fuel {
          RootIsDue(all, now, c, |log|);
          return log, now, OutOfFuel;
        }
        var f, now', c', end := FireRoot(callbacks, clock, now, c, |log|, all);
        if end != Drained { return log, now, end; }
        LogGrows(m, log, f, callbacks, clock);
        log, now, c := log + [f], now', c';
      }
      RestNotDue(all, now, c, |log|);
    }

    /** How a call ends after the complete rounds that lead to p: nothing is due; the bound is used
        up with something due; or inside a round that breaks. */
    ghost predicate EndsAs(p: Machine<Timer>, rounds: nat, now: nat, outcome: Outcome, fuel: nat,
                           callbacks: seq<seq<Start<Timer>>>, clock: nat -> nat, all: set<Timer>)
      reads this, nodes, all
      requires size <= nodes.Length
    {
      match outcome
      case Drained => p.s == Abs(all) && p.now == now && NoneDue(p)
      case OutOfFuel => p.s == Abs(all) && p.now == now && !NoneDue(p) && rounds == fuel
      case StoredTwice(t) => MayFire(p, t) && Stopped(p, outcome, Abs(all), callbacks, clock)
      case PastTheArray(t) => MayFire(p, t) && Stopped(p, outcome, Abs(all), callbacks, clock)
    }

    /** process_timers, for every clock and every script of callback starts. `callbacks[k]` are the
        timers the k-th fired callback starts; after the script, callbacks start nothing. `all` is
        any set of timers with those in the heap and in the script; nothing else changes.

        The log is that of a legal call and determines the heap and every timer's fields at the
        end; the call ends because no timer is due, or in a round that breaks, or after `fuel`
        rounds. With a clock that never runs backwards nothing fires early or out of order; if
        callbacks start nothing, no round breaks; a timer that did not fire stays, and one that no
        callback started is gone exactly if it was one-shot and fired; with a frozen clock and
        positive periods a finished call has fired exactly the due timers. */
    method ProcessTimers(clock: nat -> nat, callbacks: seq<seq<Start<Timer>>>, fuel: nat, ghost all: set<Timer>)
        returns (log: seq<Firing<Timer>>, now: nat, outcome: Outcome)
      requires Sound() && Members() <= all && ScriptTimers(callbacks) <= all
      modifies this`size, nodes, all
      ensures Sound() && Members() <= all
      ensures var m := Begin(old(Abs(all)), clock);
              Legal(m, log, callbacks, clock) && EndsAs(Play(m, log, callbacks, clock), |log|, now, outcome, fuel, callbacks, clock, all)
      ensures Monotone(clock) ==>
                && (forall i :: 0 <= i < |log| ==> log[i].deadline <= log[i].reading)
                && (forall i, j :: 0 <= i < j < |log| ==> log[i].deadline <= log[j].deadline)
      ensures Quiet(callbacks) ==> outcome.Drained? || outcome.OutOfFuel?
      ensures outcome.Drained? || outcome.OutOfFuel? ==>
                forall t :: t in all ==>
                  && (t in old(Members()) && !Fires(log, t) ==> t in Members() && t.deadline == old(t.deadline))
                  && (!StartedIn(callbacks, |log|, t) ==>
                        (t in Members() <==> t in old(Members()) && (Fires(log, t) ==> old(t.periodic))))
      ensures Frozen(clock) && PositivePeriods(old(Abs(all))) && PositiveScript(callbacks) ==>
                && (outcome.Drained? ==>
                      forall t :: t in all ==> (Fires(log, t) <==> t in old(Members()) && old(t.deadline) <= clock(0)))
                && (fuel >= |Due(old(Abs(all)), clock(0))| ==> !outcome.OutOfFuel?)
    {
      AbsIsOk(all);
      ghost var s := Abs(all);
      forall t | t in all
        ensures t in s.info && s.info[t].deadline == t.deadline && s.info[t].periodic == t.periodic && (t in s.heap <==> t in Members())
      {
        FieldsOf(all, t);
      }
      hide Heap.Sound, RunStarts, Breaks, Round, MayFire, Stopped, Legal, Play, Fires, PositivePeriods, PositiveScript;
      hide StartedIn;
      log, now, outcome := FireAll(clock, callbacks, fuel, all);
      if Monotone(clock) { FiringsAreOrdered(s, log, callbacks, clock); }
      if Quiet(callbacks) { QuietEnd(s, log, now, outcome, fuel, callbacks, clock, all); }
      if outcome.Drained? || outcome.OutOfFuel? {
        forall t | t in all
          ensures t in s.heap && !Fires(log, t) ==> t in Members() && t.deadline == s.info[t].deadline
          ensures !StartedIn(callbacks, |log|, t) ==> (t in Members() <==> t in s.heap && (Fires(log, t) ==> s.info[t].periodic))
        {
          Remaining(s, log, callbacks, clock, t);
          FieldsOf(all, t);
        }
      }
      if Frozen(clock) && PositivePeriods(s) && PositiveScript(callbacks) {
        FrozenEnd(s, log, now, outcome, fuel, callbacks, clock, all);
      }
    }

    lemma QuietEnd(s: Sched<Timer>, log: seq<Firing<Timer>>, now: nat, outcome: Outcome, fuel: nat,
                   callbacks: seq<seq<Start<Timer>>>, clock: nat -> nat, all: set<Timer>)
      requires SchedOk(s) && Legal(Begin(s, clock), log, callbacks, clock) && Quiet(callbacks) && size <= nodes.Length
      requires EndsAs(Play(Begin(s, clock), log, callbacks, clock), |log|, now, outcome, fuel, callbacks, clock, all)
      ensures outcome.Drained? || outcome.OutOfFuel?
    {
      hide Legal, Play, Breaks, MayFire;
      PlayIsOk(Begin(s, clock), log, callbacks, clock);
      if outcome.StoredTwice? || outcome.PastTheArray? {
        QuietNeverBreaks(Play(Begin(s, clock), log, callbacks, clock), outcome.timer, callbacks, clock);
      }
    }

    lemma FrozenEnd(s: Sched<Timer>, log: seq<Firing<Timer>>, now: nat, outcome: Outcome, fuel: nat,
                    callbacks: seq<seq<Start<Timer>>>, clock: nat -> nat, all: set<Timer>)
      requires SchedOk(s) && Legal(Begin(s, clock), log, callbacks, clock) && size <= nodes.Length
      requires Frozen(clock) && PositivePeriods(s) && PositiveScript(callbacks)
      requires EndsAs(Play(Begin(s, clock), log, callbacks, clock), |log|, now, outcome, fuel, callbacks, clock, all)
      ensures outcome.Drained? ==> forall t :: Fires(log, t) <==> t in s.heap && t in s.info && s.info[t].deadline <= clock(0)
      ensures fuel >= |Due(s, clock(0))| ==> !outcome.OutOfFuel?
    {
      hide Legal, Play, Fires, PositivePeriods, PositiveScript;
      var p := Play(Begin(s, clock), log, callbacks, clock);
      FrozenFiresTheDue(s, log, callbacks, clock);
      if outcome.Drained? {
        forall t ensures Fires(log, t) <==> t in Due(s, clock(0)) { DrainedFiredTheDue(s, log, callbacks, clock, t); }
      }
      if outcome.OutOfFuel? {
        var t :| t in p.s.heap && t in p.s.info && p.s.info[t].deadline <= p.now;
        assert t in Due(p.s, clock(0));
      }
    }
  }

  lemma DistinctMembers<T>(s: seq<T>)
    requires Distinct(s)
    ensures |set x | x in s| == |s|
    decreases |s|
  {
    if s != [] {
      var n := |s| - 1;
      DistinctMembers(s[..n]);
      assert (set x | x in s) == (set x | x in s[..n]) + {s[n]};
    }
  }

  lemma MembersOf<T>(s: seq<T>, before: seq<T>, t: T)
    requires multiset(s) == multiset(before) - multiset{t} && multiset(before)[t] == 1
    ensures (set x | x in s) == (set x | x in before) - {t}
    ensures |s| == |before| - 1
  {
    assert forall x :: x in s <==> x in multiset(s);
    assert forall x :: x in before <==> x in multiset(before);
    assert |multiset(s)| == |s| && |multiset(before)| == |before|;
  }

  lemma MembersGrow<T>(s: seq<T>, before: seq<T>, t: T)
    requires multiset(s) == multiset(before) + multiset{t}
    ensures (set x | x in s) == (set x | x in before) + {t}
    ensures |s| == |before| + 1
  {
    assert forall x :: x in s <==> x in multiset(s);
    assert forall x :: x in before <==> x in multiset(before);
    assert |multiset(s)| == |s| && |multiset(before)| == |before|;
  }
}
