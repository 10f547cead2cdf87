/** The fire loop of process_timers (src/core/nos_scheduler.c:91-109) on plain values: which timers
    are in the heap, and the fields of every timer. The array heap of TimerHeap is proved against
    it. Which of several earliest timers fires depends on the array, so a call is described by the
    log of its firings; for a given log everything else is determined.

    The clock is an arbitrary function: its c-th value answers the c-th reading of the call. */
module FireLoop {

  datatype Info = Info(deadline: nat, interval: nat, periodic: bool, running: bool)

  // The timers of one thread's heap; `info` also knows timers that are not in it.
  datatype Sched<T> = Sched(info: map<T, Info>, heap: set<T>, capacity: nat)

  // What a callback asks of nos_timer_start.
  datatype Start<T> = Start(timer: T, interval: nat, periodic: bool)

  // One firing: the timer, its deadline, and the clock reading at which it was found due.
  datatype Firing<T> = Firing(timer: T, deadline: nat, reading: nat)

  // Before a test of the loop: the last reading, the next one's index, the rounds done.
  datatype Machine<T> = Machine(s: Sched<T>, now: nat, c: nat, k: nat)

  // ---------- One round ----------

  // nos_timer_start fails on a running timer and on a full heap.
  ghost predicate CanStart<T>(s: Sched<T>, t: T) {
    t in s.info && !s.info[t].running && |s.heap| < s.capacity
  }

  ghost function Entered<T>(s: Sched<T>, t: T, i: Info): Sched<T> {
    s.(info := s.info[t := i], heap := s.heap + {t})
  }

  ghost function Started<T>(s: Sched<T>, a: Start<T>, now: nat): Sched<T> {
    if CanStart(s, a.timer) then Entered(s, a.timer, Info(now + a.interval, a.interval, a.periodic, true)) else s
  }

  // A callback's starts; only one that succeeds reads the clock.
  ghost function RunStarts<T>(s: Sched<T>, starts: seq<Start<T>>, clock: nat -> nat, c: nat): (Sched<T>, nat)
    decreases |starts|
  {
    if starts == [] then (s, c)
    else
      var n := |starts| - 1;
      var (s1, c1) := RunStarts(s, starts[..n], clock, c);
      (Started(s1, starts[n], clock(c1)), if CanStart(s1, starts[n].timer) then c1 + 1 else c1)
  }

  function StartsOf<T>(script: seq<seq<Start<T>>>, k: nat): seq<Start<T>> {
    if k < |script| then script[k] else []
  }

  // The earliest timer of the heap, if it is due.
  ghost predicate MayFire<T>(m: Machine<T>, t: T) {
    && t in m.s.heap && t in m.s.info && m.s.info[t].deadline <= m.now
    && forall u :: u in m.s.heap && u in m.s.info ==> m.s.info[t].deadline <= m.s.info[u].deadline
  }

  ghost function Popped<T>(s: Sched<T>, t: T): Sched<T>
    requires t in s.info
  {
    s.(info := s.info[t := s.info[t].(running := false)], heap := s.heap - {t})
  }

  // The firing timer is out of the heap and its callback has run.
  ghost function AfterCallback<T>(m: Machine<T>, t: T, script: seq<seq<Start<T>>>, clock: nat -> nat): (Sched<T>, nat)
    requires t in m.s.info
  {
    RunStarts(Popped(m.s, t), StartsOf(script, m.k), clock, m.c)
  }

  // The store that puts timer t behind the nodes in use keeps the array a heap of distinct timers.
  ghost predicate StoreIsSafe<T>(nodes: seq<T>, t: T, capacity: nat) {
    |nodes| < capacity && forall i :: 0 <= i < |nodes| ==> nodes[i] != t
  }

  /** The round goes wrong: the firing timer is periodic after its callback, and it was restarted
      by it, or the heap is full. */
  ghost predicate Breaks<T>(m: Machine<T>, t: T, script: seq<seq<Start<T>>>, clock: nat -> nat) {
    t in m.s.info && Wrong(AfterCallback(m, t, script, clock).0, t)
  }

  ghost predicate Wrong<T>(s: Sched<T>, t: T) {
    t in s.info && s.info[t].periodic && (t in s.heap || |s.heap| >= s.capacity)
  }

  // Re-arm a periodic timer; the next reading is at the returned index.
  ghost function Rearmed<T>(s: Sched<T>, t: T, clock: nat -> nat, c: nat): (Sched<T>, nat) {
    if t in s.info && s.info[t].periodic
    then (Entered(s, t, s.info[t].(deadline := clock(c) + s.info[t].interval, running := true)), c + 1)
    else (s, c)
  }

  ghost function Round<T>(m: Machine<T>, t: T, script: seq<seq<Start<T>>>, clock: nat -> nat): Machine<T>
    requires t in m.s.info
  {
    var (s, c) := AfterCallback(m, t, script, clock);
    var (s', c') := Rearmed(s, t, clock, c);
    Machine(s', clock(c'), c' + 1, m.k + 1)
  }

  lemma RoundFrom<T>(m: Machine<T>, t: T, script: seq<seq<Start<T>>>, clock: nat -> nat, s: Sched<T>, c: nat)
    requires t in m.s.info && (s, c) == RunStarts(Popped(m.s, t), StartsOf(script, m.k), clock, m.c)
    ensures (s, c) == AfterCallback(m, t, script, clock) && (Breaks(m, t, script, clock) <==> Wrong(s, t))
    ensures var (s', c') := Rearmed(s, t, clock, c);
            Round(m, t, script, clock) == Machine(s', clock(c'), c' + 1, m.k + 1)
  {}

  // ---------- A call ----------

  ghost function Begin<T>(s: Sched<T>, clock: nat -> nat): Machine<T> { Machine(s, clock(0), 1, 0) }

  ghost function Play<T>(m: Machine<T>, log: seq<Firing<T>>, script: seq<seq<Start<T>>>, clock: nat -> nat): Machine<T>
    decreases |log|
  {
    if log == [] then m
    else
      var p, t := Play(m, log[..|log| - 1], script, clock), log[|log| - 1].timer;
      if t in p.s.info then Round(p, t, script, clock) else p
  }

  /** Every firing of the log takes the earliest timer at a reading at which it is due, and no round
      of it goes wrong. */
  ghost predicate Legal<T>(m: Machine<T>, log: seq<Firing<T>>, script: seq<seq<Start<T>>>, clock: nat -> nat)
    decreases |log|
  {
    log == [] ||
    var p, f := Play(m, log[..|log| - 1], script, clock), log[|log| - 1];
    && Legal(m, log[..|log| - 1], script, clock)
    && MayFire(p, f.timer) && f.deadline == p.s.info[f.timer].deadline && f.reading == p.now
    && !Breaks(p, f.timer, script, clock)
  }

  ghost predicate NoneDue<T>(m: Machine<T>) {
    forall t :: t in m.s.heap && t in m.s.info ==> m.now < m.s.info[t].deadline
  }

  ghost predicate Monotone(clock: nat -> nat) { forall i, j :: 0 <= i <= j ==> clock(i) <= clock(j) }

  ghost predicate Frozen(clock: nat -> nat) { forall i :: 0 <= i ==> clock(i) == clock(0) }

  ghost predicate SchedOk<T>(s: Sched<T>) {
    s.heap <= s.info.Keys && |s.heap| <= s.capacity && forall t :: t in s.heap ==> s.info[t].running
  }

  // ---------- What one round does ----------

  // Starts leave the timers in the heap alone and add stopped timers only.
  lemma {:induction false} StartsAre<T>(s: Sched<T>, starts: seq<Start<T>>, clock: nat -> nat, c: nat)
    requires SchedOk(s)
    ensures var (n, c') := RunStarts(s, starts, clock, c);
            && SchedOk(n) && n.info.Keys == s.info.Keys && n.capacity == s.capacity && c <= c' && s.heap <= n.heap
            && (forall t :: t in s.heap ==> n.info[t] == s.info[t])
            && (forall t :: t in n.info && t !in n.heap ==> n.info[t] == s.info[t])
            && (forall t :: t in n.info && !StartedBy(starts, t) ==> n.info[t] == s.info[t] && (t in n.heap <==> t in s.heap))
    decreases |starts|
  {
    if starts != [] {
      var k := |starts| - 1;
      StartsAre(s, starts[..k], clock, c);
      var (s1, c1) := RunStarts(s, starts[..k], clock, c);
      forall t | !StartedBy(starts, t) ensures !StartedBy(starts[..k], t) && t != starts[k].timer {
        forall i | 0 <= i < k ensures starts[..k][i].timer != t { assert starts[i].timer != t; }
        assert starts[k].timer != t;
      }
    }
  }

  ghost predicate StartedBy<T>(starts: seq<Start<T>>, t: T) { exists i :: 0 <= i < |starts| && starts[i].timer == t }

  // Every start sets a deadline no earlier than the reading it is made at.
  lemma {:induction false} StartsAreLater<T>(s: Sched<T>, starts: seq<Start<T>>, clock: nat -> nat, c: nat)
    requires SchedOk(s) && Monotone(clock)
    ensures var n := RunStarts(s, starts, clock, c).0;
            forall t :: t in n.heap && t !in s.heap ==> t in n.info && clock(c) <= n.info[t].deadline
    decreases |starts|
  {
    if starts != [] {
      var k := |starts| - 1;
      StartsAreLater(s, starts[..k], clock, c);
      StartsAre(s, starts[..k], clock, c);
      assert clock(c) <= clock(RunStarts(s, starts[..k], clock, c).1);
    }
  }

  lemma PoppedIsOk<T>(s: Sched<T>, t: T)
    requires SchedOk(s) && t in s.heap
    ensures SchedOk(Popped(s, t)) && |Popped(s, t).heap| == |s.heap| - 1
  {}

  lemma RoundIs<T>(m: Machine<T>, t: T, script: seq<seq<Start<T>>>, clock: nat -> nat)
    requires SchedOk(m.s) && MayFire(m, t) && !Breaks(m, t, script, clock)
    ensures var n := Round(m, t, script, clock);
            && SchedOk(n.s) && n.s.info.Keys == m.s.info.Keys && n.s.capacity == m.s.capacity && n.k == m.k + 1
            && m.c < n.c && n.now == clock(n.c - 1)
  {
    hide RunStarts;
    PoppedIsOk(m.s, t);
    StartsAre(Popped(m.s, t), StartsOf(script, m.k), clock, m.c);
  }

  lemma NoLog<T>(m: Machine<T>, script: seq<seq<Start<T>>>, clock: nat -> nat)
    ensures Legal(m, [], script, clock) && Play(m, [], script, clock) == m
  {}

  lemma LogGrows<T>(m: Machine<T>, log: seq<Firing<T>>, f: Firing<T>, script: seq<seq<Start<T>>>, clock: nat -> nat)
    requires Legal(m, log, script, clock)
    requires var p := Play(m, log, script, clock);
             && MayFire(p, f.timer) && !Breaks(p, f.timer, script, clock)
             && f == Firing(f.timer, p.s.info[f.timer].deadline, p.now)
    ensures Legal(m, log + [f], script, clock)
    ensures Play(m, log + [f], script, clock) == Round(Play(m, log, script, clock), f.timer, script, clock)
  {
    hide Breaks, Round;
    assert (log + [f])[..|log|] == log;
  }

  // The last firing of a log, on its own.
  lemma LastFiring<T>(m: Machine<T>, log: seq<Firing<T>>, script: seq<seq<Start<T>>>, clock: nat -> nat)
    requires log != [] && Legal(m, log, script, clock)
    ensures var p, f := Play(m, log[..|log| - 1], script, clock), log[|log| - 1];
            && Legal(m, log[..|log| - 1], script, clock)
            && MayFire(p, f.timer) && !Breaks(p, f.timer, script, clock)
            && f.deadline == p.s.info[f.timer].deadline && f.reading == p.now
            && Play(m, log, script, clock) == Round(p, f.timer, script, clock)
  {
    hide Breaks, Round;
  }

  lemma FiresLast<T>(log: seq<Firing<T>>, t: T)
    requires log != []
    ensures Fires(log, t) <==> Fires(log[..|log| - 1], t) || t == log[|log| - 1].timer
  {
    var n := |log| - 1;
    if Fires(log[..n], t) { var i :| 0 <= i < n && log[..n][i].timer == t; assert log[i].timer == t; }
    if Fires(log, t) && t != log[n].timer {
      var i :| 0 <= i < |log| && log[i].timer == t;
      assert log[..n][i].timer == t;
    }
  }

  /** The store that re-arms the firing timer is safe exactly when the round does not break. */
  lemma BreaksIff<T>(m: Machine<T>, t: T, script: seq<seq<Start<T>>>, clock: nat -> nat, nodes: seq<T>)
    requires SchedOk(m.s) && MayFire(m, t)
    requires var s := AfterCallback(m, t, script, clock).0;
             |nodes| == |s.heap| && forall u :: u in s.heap <==> u in nodes
    ensures var s := AfterCallback(m, t, script, clock).0;
            t in s.info && (Breaks(m, t, script, clock) <==> s.info[t].periodic && !StoreIsSafe(nodes, t, s.capacity))
  {
    PoppedIsOk(m.s, t);
    StartsAre(Popped(m.s, t), StartsOf(script, m.k), clock, m.c);
  }

  lemma {:induction false} PlayIsOk<T>(m: Machine<T>, log: seq<Firing<T>>, script: seq<seq<Start<T>>>, clock: nat -> nat)
    requires SchedOk(m.s) && Legal(m, log, script, clock)
    ensures var p := Play(m, log, script, clock);
            && SchedOk(p.s) && p.s.info.Keys == m.s.info.Keys && p.s.capacity == m.s.capacity && p.k == m.k + |log|
            && m.c <= p.c
    decreases |log|
  {
    if log != [] {
      var init := log[..|log| - 1];
      PlayIsOk(m, init, script, clock);
      RoundIs(Play(m, init, script, clock), log[|log| - 1].timer, script, clock);
    }
  }

  // ---------- Order: nothing early, nothing out of order ----------

  ghost predicate NotBefore<T>(m: Machine<T>, floor: nat, clock: nat -> nat) {
    && m.now <= clock(m.c) && floor <= m.now
    && forall t :: t in m.s.heap && t in m.s.info ==> floor <= m.s.info[t].deadline
  }

  lemma RoundKeepsFloor<T>(m: Machine<T>, t: T, script: seq<seq<Start<T>>>, clock: nat -> nat)
    requires SchedOk(m.s) && MayFire(m, t) && !Breaks(m, t, script, clock) && Monotone(clock) && m.now <= clock(m.c)
    ensures NotBefore(Round(m, t, script, clock), m.s.info[t].deadline, clock)
    ensures m.now <= Round(m, t, script, clock).now
  {
    var p, starts, d := Popped(m.s, t), StartsOf(script, m.k), m.s.info[t].deadline;
    PoppedIsOk(m.s, t);
    StartsAre(p, starts, clock, m.c);
    StartsAreLater(p, starts, clock, m.c);
    RoundIs(m, t, script, clock);
    var (s, c) := AfterCallback(m, t, script, clock);
    assert d <= clock(m.c) <= clock(c) <= clock(c + 1) <= clock(c + 2);
    hide RunStarts;
    forall u | u in s.heap ensures d <= s.info[u].deadline {}
  }

  // Each timer at a reading not before its deadline; readings and deadlines never decrease.
  ghost predicate InOrder<T>(log: seq<Firing<T>>) {
    && (forall i :: 0 <= i < |log| ==> log[i].deadline <= log[i].reading)
    && (forall i, j :: 0 <= i < j < |log| ==> log[i].deadline <= log[j].deadline && log[i].reading <= log[j].reading)
  }

  // No firing of the log is later than reading `now` or deadline `floor`.
  ghost predicate UpTo<T>(log: seq<Firing<T>>, floor: nat, now: nat) {
    forall i :: 0 <= i < |log| ==> log[i].deadline <= floor && log[i].reading <= now
  }

  lemma InOrderGrows<T>(log: seq<Firing<T>>, floor: nat, now: nat)
    requires log != [] && InOrder(log[..|log| - 1])
    requires log[|log| - 1].deadline <= log[|log| - 1].reading <= now && log[|log| - 1].deadline <= floor
    requires UpTo(log[..|log| - 1], log[|log| - 1].deadline, log[|log| - 1].reading)
    ensures InOrder(log) && UpTo(log, floor, now)
  {
    var n := |log| - 1;
    forall i | 0 <= i < n ensures log[i] == log[..n][i] {}
  }

  lemma BeginIs<T>(s: Sched<T>, clock: nat -> nat)
    requires Monotone(clock)
    ensures NotBefore(Begin(s, clock), 0, clock)
  {}

  // The floor a log leaves: the deadline fired last.
  function LastDeadline<T>(log: seq<Firing<T>>): nat { if log == [] then 0 else log[|log| - 1].deadline }

  lemma {:induction false} FloorHolds<T>(s: Sched<T>, log: seq<Firing<T>>, script: seq<seq<Start<T>>>, clock: nat -> nat)
    requires SchedOk(s) && Monotone(clock) && Legal(Begin(s, clock), log, script, clock)
    ensures var p := Play(Begin(s, clock), log, script, clock);
            NotBefore(p, LastDeadline(log), clock) && InOrder(log) && UpTo(log, LastDeadline(log), p.now)
    decreases |log|
  {
    hide Round, Breaks, RunStarts, Legal, Play, Monotone, InOrder, UpTo;
    if log == [] {
      BeginIs(s, clock);
      EmptyLog(s, log, script, clock);
    } else {
      var n, m0 := |log| - 1, Begin(s, clock);
      LastFiring(m0, log, script, clock);
      FloorHolds(s, log[..n], script, clock);
      PlayIsOk(m0, log[..n], script, clock);
      var m, f := Play(m0, log[..n], script, clock), log[n];
      RoundKeepsFloor(m, f.timer, script, clock);
      UpToRises(log[..n], LastDeadline(log[..n]), f.deadline, m.now);
      InOrderGrows(log, f.deadline, Round(m, f.timer, script, clock).now);
    }
  }

  lemma EmptyLog<T>(s: Sched<T>, log: seq<Firing<T>>, script: seq<seq<Start<T>>>, clock: nat -> nat)
    requires log == []
    ensures Play(Begin(s, clock), log, script, clock) == Begin(s, clock) && InOrder(log) && UpTo(log, 0, clock(0))
  {}

  lemma UpToRises<T>(log: seq<Firing<T>>, floor: nat, higher: nat, now: nat)
    requires UpTo(log, floor, now) && floor <= higher
    ensures UpTo(log, higher, now)
  {}

  /** For every log of a call under a clock that never runs backwards: a timer fires at a reading not
      before its deadline, readings and fired deadlines never decrease, and no timer left in the
      heap is earlier than one that fired. */
  lemma FiringsAreOrdered<T>(s: Sched<T>, log: seq<Firing<T>>, script: seq<seq<Start<T>>>, clock: nat -> nat)
    requires SchedOk(s) && Monotone(clock) && Legal(Begin(s, clock), log, script, clock)
    ensures var p := Play(Begin(s, clock), log, script, clock);
            && (forall i :: 0 <= i < |log| ==> log[i].deadline <= log[i].reading <= p.now)
            && (forall i, j :: 0 <= i < j < |log| ==> log[i].deadline <= log[j].deadline && log[i].reading <= log[j].reading)
            && (forall i, t :: 0 <= i < |log| && t in p.s.heap && t in p.s.info ==> log[i].deadline <= p.s.info[t].deadline)
  {
    hide Legal, Play, Monotone;
    FloorHolds(s, log, script, clock);
  }

  // ---------- Which timers remain ----------

  ghost predicate Fires<T>(log: seq<Firing<T>>, t: T) { exists i :: 0 <= i < |log| && log[i].timer == t }

  ghost predicate StartedIn<T>(script: seq<seq<Start<T>>>, k: nat, t: T) {
    exists j :: 0 <= j < k && j < |script| && StartedBy(script[j], t)
  }

  lemma UnfiredRound<T>(m: Machine<T>, f: T, script: seq<seq<Start<T>>>, clock: nat -> nat, t: T)
    requires SchedOk(m.s) && MayFire(m, f) && !Breaks(m, f, script, clock) && t in m.s.info
    ensures var n := Round(m, f, script, clock).s;
            && t in n.info && (t in m.s.heap && t != f ==> t in n.heap && n.info[t] == m.s.info[t])
            && (!StartedBy(StartsOf(script, m.k), t) ==>
                  && n.info[t].periodic == m.s.info[t].periodic
                  && (t in n.heap <==> t in m.s.heap && (t == f ==> m.s.info[t].periodic)))
  {
    hide RunStarts;
    PoppedIsOk(m.s, f);
    StartsAre(Popped(m.s, f), StartsOf(script, m.k), clock, m.c);
  }

  /** Which timers a call leaves in the heap. One that did not fire stays, unchanged. One that no
      callback of the call started is there if and only if it was there before and is not a
      one-shot timer that fired. */
  lemma {:induction false} Remaining<T>(s: Sched<T>, log: seq<Firing<T>>, script: seq<seq<Start<T>>>, clock: nat -> nat, t: T)
    requires SchedOk(s) && Legal(Begin(s, clock), log, script, clock) && t in s.info
    ensures var p := Play(Begin(s, clock), log, script, clock);
            && t in p.s.info
            && (t in s.heap && !Fires(log, t) ==> t in p.s.heap && p.s.info[t] == s.info[t])
            && (!StartedIn(script, |log|, t) ==>
                  && p.s.info[t].periodic == s.info[t].periodic
                  && (t in p.s.heap <==> t in s.heap && (Fires(log, t) ==> s.info[t].periodic)))
    decreases |log|
  {
    hide Round, Breaks, RunStarts, Legal, Fires;
    if log == [] {
      NothingFires(log, t);
    } else {
      hide Play;
      var n, m0 := |log| - 1, Begin(s, clock);
      LastFiring(m0, log, script, clock);
      Remaining(s, log[..n], script, clock, t);
      PlayIsOk(m0, log[..n], script, clock);
      UnfiredRound(Play(m0, log[..n], script, clock), log[n].timer, script, clock, t);
      FiresLast(log, t);
      if !StartedIn(script, |log|, t) { NotStartedAt(script, |log|, t, n); }
    }
  }

  lemma NotStartedAt<T>(script: seq<seq<Start<T>>>, k: nat, t: T, n: nat)
    requires !StartedIn(script, k, t) && k == n + 1
    ensures !StartedIn(script, n, t) && !StartedBy(StartsOf(script, n), t)
  {}

  lemma NothingFires<T>(log: seq<Firing<T>>, t: T)
    requires log == []
    ensures !Fires(log, t)
  {}

  ghost predicate Quiet<T>(script: seq<seq<Start<T>>>) { forall k :: 0 <= k < |script| ==> script[k] == [] }

  /** If callbacks start nothing, no round goes wrong. */
  lemma QuietNeverBreaks<T>(m: Machine<T>, t: T, script: seq<seq<Start<T>>>, clock: nat -> nat)
    requires SchedOk(m.s) && MayFire(m, t) && Quiet(script)
    ensures !Breaks(m, t, script, clock)
  {
    PoppedIsOk(m.s, t);
    assert StartsOf(script, m.k) == [];
  }

  // ---------- The next deadline ----------

  lemma RoundKeepsPeriod<T>(m: Machine<T>, f: T, script: seq<seq<Start<T>>>, clock: nat -> nat, t: T)
    requires SchedOk(m.s) && MayFire(m, f) && !Breaks(m, f, script, clock) && Monotone(clock) && m.now <= clock(m.c)
    requires t in m.s.info && m.s.info[t].periodic && !StartedBy(StartsOf(script, m.k), t)
    ensures var n, d := Round(m, f, script, clock), m.s.info[t].interval;
            && t in n.s.info && n.s.info[t].periodic && n.s.info[t].interval == d
            && (t != f ==> n.s.info[t].deadline == m.s.info[t].deadline)
            && (t == f ==> t in n.s.heap && m.now + d <= n.s.info[t].deadline <= n.now + d)
  {
    PoppedIsOk(m.s, f);
    StartsAre(Popped(m.s, f), StartsOf(script, m.k), clock, m.c);
    var c := AfterCallback(m, f, script, clock).1;
    assert m.now <= clock(m.c) <= clock(c) <= clock(c + 1);
    hide RunStarts;
  }

  /** A periodic timer keeps its period. Unless a callback of the call restarted it: its next deadline
      is at least one period after the reading it last fired at, and at most one after the last
      reading of the call; and any two of its firings are at least one period apart. */
  lemma {:induction false} PeriodIsKept<T>(s: Sched<T>, log: seq<Firing<T>>, script: seq<seq<Start<T>>>, clock: nat -> nat, t: T)
    requires SchedOk(s) && Monotone(clock) && Legal(Begin(s, clock), log, script, clock)
    requires t in s.info && s.info[t].periodic && !StartedIn(script, |log|, t)
    ensures var p, d := Play(Begin(s, clock), log, script, clock), s.info[t].interval;
            && t in p.s.info && p.s.info[t].periodic && p.s.info[t].interval == d
            && (Fires(log, t) ==> p.s.info[t].deadline <= p.now + d)
            && (forall i :: 0 <= i < |log| && log[i].timer == t ==> log[i].reading + d <= p.s.info[t].deadline)
            && (forall i, j :: 0 <= i < j < |log| && log[i].timer == t == log[j].timer ==> log[i].reading + d <= log[j].deadline)
    decreases |log|
  {
    hide Round, Breaks, RunStarts, Legal, Fires, Monotone;
    if log == [] {
      NothingFires(log, t);
    } else {
      hide Play;
      var n, m0 := |log| - 1, Begin(s, clock);
      NotStartedAt(script, |log|, t, n);
      LastFiring(m0, log, script, clock);
      PeriodIsKept(s, log[..n], script, clock, t);
      PlayIsOk(m0, log[..n], script, clock);
      FloorHolds(s, log[..n], script, clock);
      var m := Play(m0, log[..n], script, clock);
      RoundKeepsPeriod(m, log[n].timer, script, clock, t);
      RoundKeepsFloor(m, log[n].timer, script, clock);
      FiresLast(log, t);
      forall i | 0 <= i < n ensures log[i] == log[..n][i] {}
    }
  }

  // A timer is marked running exactly while it is in the heap.
  ghost predicate Tidy<T>(s: Sched<T>) { forall t :: t in s.info ==> (s.info[t].running <==> t in s.heap) }

  lemma {:induction false} StartsKeepTidy<T>(s: Sched<T>, starts: seq<Start<T>>, clock: nat -> nat, c: nat)
    requires Tidy(s)
    ensures Tidy(RunStarts(s, starts, clock, c).0)
    decreases |starts|
  {
    if starts != [] { StartsKeepTidy(s, starts[..|starts| - 1], clock, c); }
  }

  lemma RoundKeepsTidy<T>(m: Machine<T>, t: T, script: seq<seq<Start<T>>>, clock: nat -> nat)
    requires Tidy(m.s) && t in m.s.info
    ensures Tidy(Round(m, t, script, clock).s)
  {
    StartsKeepTidy(Popped(m.s, t), StartsOf(script, m.k), clock, m.c);
    hide RunStarts;
  }

  /** Over every call, a timer is marked running exactly while it is in the heap; so a fired one-shot timer
      may be started again, and nothing else may. */
  lemma {:induction false} RunningIsInHeap<T>(s: Sched<T>, log: seq<Firing<T>>, script: seq<seq<Start<T>>>, clock: nat -> nat)
    requires SchedOk(s) && Tidy(s) && Legal(Begin(s, clock), log, script, clock)
    ensures Tidy(Play(Begin(s, clock), log, script, clock).s)
    decreases |log|
  {
    hide Round, Breaks, Tidy, SchedOk;
    if log != [] {
      var n, m0 := |log| - 1, Begin(s, clock);
      LastFiring(m0, log, script, clock);
      RunningIsInHeap(s, log[..n], script, clock);
      RoundKeepsTidy(Play(m0, log[..n], script, clock), log[n].timer, script, clock);
    }
  }

  lemma {:induction false} StartsFill<T>(s: Sched<T>, starts: seq<Start<T>>, clock: nat -> nat, c: nat)
    ensures |RunStarts(s, starts, clock, c).0.heap| <= |s.heap| + |starts|
    decreases |starts|
  {
    if starts != [] {
      var n := |starts| - 1;
      StartsFill(s, starts[..n], clock, c);
      var s1 := RunStarts(s, starts[..n], clock, c).0;
      assert |s1.heap + {starts[n].timer}| <= |s1.heap| + 1;
    }
  }

  /** A callback's start takes effect: a stopped timer, started for the first time while the heap has
      room, is in the heap after the callback, due its interval after a reading of the callback. */
  lemma {:induction false} StartTakesEffect<T>(s: Sched<T>, starts: seq<Start<T>>, clock: nat -> nat, c: nat, i: nat) returns (x: nat)
    requires SchedOk(s) && i < |starts| && |s.heap| + i < s.capacity
    requires var t := starts[i].timer; t in s.info && !s.info[t].running && forall j :: 0 <= j < i ==> starts[j].timer != t
    ensures var (n, c') := RunStarts(s, starts, clock, c);
            var a := starts[i];
            && c <= x < c' && a.timer in n.heap && a.timer in n.info
            && n.info[a.timer] == Info(clock(x) + a.interval, a.interval, a.periodic, true)
    decreases |starts|
  {
    var k := |starts| - 1;
    StartsAre(s, starts[..k], clock, c);
    var (s1, c1) := RunStarts(s, starts[..k], clock, c);
    if i == k {
      StartsFill(s, starts[..k], clock, c);
      forall j | 0 <= j < k ensures starts[..k][j].timer != starts[i].timer { assert starts[j].timer != starts[i].timer; }
      assert !StartedBy(starts[..k], starts[i].timer);
      x := c1;
    } else {
      x := StartTakesEffect(s, starts[..k], clock, c, i);
    }
  }

  // ---------- A frozen clock ----------

  ghost function Due<T>(s: Sched<T>, now: nat): set<T> {
    set t | t in s.heap && t in s.info && s.info[t].deadline <= now
  }

  ghost predicate PositivePeriods<T>(s: Sched<T>) {
    forall t :: t in s.heap && t in s.info && s.info[t].periodic ==> s.info[t].interval > 0
  }

  ghost predicate PositiveStarts<T>(starts: seq<Start<T>>) { forall i :: 0 <= i < |starts| ==> starts[i].interval > 0 }

  ghost predicate PositiveScript<T>(script: seq<seq<Start<T>>>) {
    forall k :: 0 <= k < |script| ==> PositiveStarts(script[k])
  }

  lemma {:induction false} FrozenStarts<T>(s: Sched<T>, starts: seq<Start<T>>, clock: nat -> nat, c: nat)
    requires SchedOk(s) && Frozen(clock) && PositiveStarts(starts)
    ensures var n := RunStarts(s, starts, clock, c).0;
            Due(n, clock(0)) == Due(s, clock(0)) && (PositivePeriods(s) ==> PositivePeriods(n))
    decreases |starts|
  {
    if starts != [] {
      var k := |starts| - 1;
      StartsAre(s, starts[..k], clock, c);
      FrozenStarts(s, starts[..k], clock, c);
      var (s1, c1) := RunStarts(s, starts[..k], clock, c);
      assert clock(c1) == clock(0) && starts[k].interval > 0;
    }
  }

  lemma FrozenRound<T>(m: Machine<T>, t: T, script: seq<seq<Start<T>>>, clock: nat -> nat)
    requires SchedOk(m.s) && MayFire(m, t) && !Breaks(m, t, script, clock)
    requires Frozen(clock) && m.now == clock(0) && PositivePeriods(m.s) && PositiveScript(script)
    ensures var n := Round(m, t, script, clock);
            Due(n.s, clock(0)) == Due(m.s, clock(0)) - {t} && PositivePeriods(n.s) && n.now == clock(0)
  {
    var q, starts := Popped(m.s, t), StartsOf(script, m.k);
    PoppedIsOk(m.s, t);
    StartsAre(q, starts, clock, m.c);
    FrozenStarts(q, starts, clock, m.c);
    assert Due(q, clock(0)) == Due(m.s, clock(0)) - {t};
    var (s, c) := AfterCallback(m, t, script, clock);
    assert clock(c) == clock(0) == clock(c + 1);
    hide RunStarts;
    assert t !in s.heap ==> s.info[t] == q.info[t];
  }

  /** With a frozen clock and positive periods, every due timer fires at most once and nothing else
      fires; so the loop ends, and when it does, exactly the timers that were due have fired. */
  lemma {:induction false} FrozenFiresTheDue<T>(s: Sched<T>, log: seq<Firing<T>>, script: seq<seq<Start<T>>>, clock: nat -> nat)
    requires SchedOk(s) && Legal(Begin(s, clock), log, script, clock)
    requires Frozen(clock) && PositivePeriods(s) && PositiveScript(script)
    ensures var p := Play(Begin(s, clock), log, script, clock);
            && p.now == clock(0) && PositivePeriods(p.s)
            && (forall t :: Fires(log, t) ==> t in Due(s, clock(0)))
            && (forall t :: t in Due(p.s, clock(0)) <==> t in Due(s, clock(0)) && !Fires(log, t))
            && (forall i, j :: 0 <= i < j < |log| ==> log[i].timer != log[j].timer)
            && |log| + |Due(p.s, clock(0))| == |Due(s, clock(0))|
    decreases |log|
  {
    hide Round, Breaks, RunStarts, Legal, Fires, Due, PositivePeriods, PositiveScript;
    PlayIsOk(Begin(s, clock), log, script, clock);
    if log == [] {
      forall t ensures !Fires(log, t) { NothingFires(log, t); }
    } else {
      var n, m0 := |log| - 1, Begin(s, clock);
      LastFiring(m0, log, script, clock);
      FrozenFiresTheDue(s, log[..n], script, clock);
      PlayIsOk(m0, log[..n], script, clock);
      var m, f := Play(m0, log[..n], script, clock), log[n].timer;
      FrozenRound(m, f, script, clock);
      FirstIsDue(m, f);
      forall t ensures Fires(log, t) <==> Fires(log[..n], t) || t == f { FiresLast(log, t); }
      forall i | 0 <= i < n ensures log[i].timer != f { FiresAt(log[..n], i); }
      forall i, j | 0 <= i < j < |log| ensures log[i].timer != log[j].timer {
        if j < n { assert log[..n][i] == log[i] && log[..n][j] == log[j]; }
      }
    }
  }

  lemma FiresAt<T>(log: seq<Firing<T>>, i: nat)
    requires i < |log|
    ensures Fires(log, log[i].timer)
  {}

  lemma FirstIsDue<T>(m: Machine<T>, t: T)
    requires MayFire(m, t)
    ensures t in Due(m.s, m.now)
  {}

  /** A finished call under a frozen clock has fired exactly the timers that were due. */
  lemma DrainedFiredTheDue<T>(s: Sched<T>, log: seq<Firing<T>>, script: seq<seq<Start<T>>>, clock: nat -> nat, t: T)
    requires SchedOk(s) && Legal(Begin(s, clock), log, script, clock)
    requires Frozen(clock) && PositivePeriods(s) && PositiveScript(script)
    requires NoneDue(Play(Begin(s, clock), log, script, clock))
    ensures Fires(log, t) <==> t in Due(s, clock(0))
    ensures |log| == |Due(s, clock(0))|
  {
    FrozenFiresTheDue(s, log, script, clock);
    hide Legal, Fires, PositivePeriods, PositiveScript, Play;
    assert Due(Play(Begin(s, clock), log, script, clock).s, clock(0)) == {};
  }

  // ---------- Where the code goes wrong, and where it does not ----------

  function Steady(now: nat): nat -> nat { (c: nat) => now }

  ghost function Lone(periodic: bool): Sched<nat> { Sched(map[1 := Info(5, 10, periodic, true)], {1}, 128) }

  /** A periodic timer whose callback restarts it is stored twice: once by the start, once by the
      re-arm. */
  lemma RestartIsStoredTwice()
    ensures var m, script := Begin(Lone(true), Steady(9)), [[Start(1, 7, true)]];
            && SchedOk(m.s) && MayFire(m, 1) && Breaks(m, 1, script, Steady(9))
            && AfterCallback(m, 1, script, Steady(9)).0.heap == {1}
  {
    var m := Begin(Lone(true), Steady(9));
    StartsOnce(Popped(m.s, 1), Start(1, 7, true), Steady(9), m.c);
  }

  /** A one-shot timer may restart itself: it is back in the heap, once, with its new deadline. */
  lemma OneShotMayRestart()
    ensures var m, script := Begin(Lone(false), Steady(9)), [[Start(1, 7, false)]];
            && SchedOk(m.s) && MayFire(m, 1) && !Breaks(m, 1, script, Steady(9))
            && Round(m, 1, script, Steady(9)).s == Sched(map[1 := Info(16, 7, false, true)], {1}, 128)
  {
    var m := Begin(Lone(false), Steady(9));
    StartsOnce(Popped(m.s, 1), Start(1, 7, false), Steady(9), m.c);
    var n := Round(m, 1, [[Start(1, 7, false)]], Steady(9));
    assert n.s.info == map[1 := Info(16, 7, false, true)];
  }

  lemma StartsOnce<T>(s: Sched<T>, a: Start<T>, clock: nat -> nat, c: nat)
    ensures RunStarts(s, [a], clock, c) == (Started(s, a, clock(c)), if CanStart(s, a.timer) then c + 1 else c)
  {
    assert [a][..0] == [];
  }

  // Timers 0 to n - 1.
  ghost function FirstTimers(n: nat): (r: set<nat>)
    ensures |r| == n && forall t: nat :: t in r <==> t < n
  {
    if n == 0 then {} else FirstTimers(n - 1) + {n - 1}
  }

  // A full heap of periodic timers, and one more timer that is stopped.
  ghost function Crowd(): Sched<nat> {
    Sched(map t | t in FirstTimers(129) :: Info(5, 10, true, t < 128), FirstTimers(128), 128)
  }

  // On any full heap: the earliest timer is periodic and its callback starts a stopped timer.
  lemma FillingOverflows<T>(s: Sched<T>, t: T, a: Start<T>, clock: nat -> nat)
    requires SchedOk(s) && MayFire(Begin(s, clock), t) && |s.heap| == s.capacity && s.info[t].periodic
    requires a.timer in s.info && a.timer !in s.heap && !s.info[a.timer].running
    ensures var m := Begin(s, clock);
            && Breaks(m, t, [[a]], clock)
            && |AfterCallback(m, t, [[a]], clock).0.heap| == s.capacity && t !in AfterCallback(m, t, [[a]], clock).0.heap
  {
    PoppedIsOk(s, t);
    StartsOnce(Popped(s, t), a, clock, Begin(s, clock).c);
    hide RunStarts;
    assert CanStart(Popped(s, t), a.timer);
  }

  lemma CrowdIsFull()
    ensures SchedOk(Crowd()) && |Crowd().heap| == 128 == Crowd().capacity && MayFire(Begin(Crowd(), Steady(9)), 0)
    ensures Crowd().info[0].periodic && 128 in Crowd().info && 128 !in Crowd().heap && !Crowd().info[128].running
  {
    hide FirstTimers;
  }

  /** A callback that fills the place its timer left: the re-arm then stores past the array. */
  lemma FilledHeapOverflows()
    ensures var m, script := Begin(Crowd(), Steady(9)), [[Start(128, 7, false)]];
            && SchedOk(m.s) && MayFire(m, 0) && Breaks(m, 0, script, Steady(9))
            && |AfterCallback(m, 0, script, Steady(9)).0.heap| == 128 && 0 !in AfterCallback(m, 0, script, Steady(9)).0.heap
  {
    CrowdIsFull();
    hide Crowd, Breaks, AfterCallback;
    FillingOverflows(Crowd(), 0, Start(128, 7, false), Steady(9));
  }
}
