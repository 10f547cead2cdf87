/** The message ring of a scheduler thread and its sleep/wake protocol
    (src/core/nos_scheduler.c). Senders skip the eventfd write unless is_sleeping is set; the
    thread sets the flag, re-checks, then blocks in epoll. One critical section or one atomic
    access is one step; any number of senders interleave with the thread; memory is
    sequentially consistent.

    `accepted` (messages enqueued, in order) and `released` (messages processed and released,
    in order) are history: no branch reads them. */
module SleepWake {
  import Ring
  import Runs

  type Pid = nat
  type Msg = nat

  const EVENTFD_MAX: nat := 0xFFFF_FFFF_FFFF_FFFE

  // A sender, stopper or timer starter.
  datatype Sender =
    | Idle
    | Enqueued      // message is in the ring, about to test is_sleeping
    | Waking        // about to write the eventfd

  // Where the thread stands inside nos_scheduler_run_loop.
  datatype Loop =
    | Top                               // about to test stop_requested
    | Polling(left: nat)                // spinning; left == 0 is the test after the spin
    | Draining(spun: bool)              // process_thread_messages, about to lock
    | Handling(msg: Msg, spun: bool)    // message taken, handler running, not yet released
    | EpollNow                          // epoll_wait with timeout 0
    | ReadNow                           // notify event seen, about to read the eventfd
    | FlagSleep                         // about to set is_sleeping
    | RecheckQueue
    | RecheckStop
    | Unflag                            // a re-check hit: about to clear is_sleeping
    | Blocked                           // epoll_wait
    | Awake(notified: bool)             // about to clear is_sleeping
    | ReadEvent                         // about to read the eventfd
    | Exited

  datatype State = State(
    slots: seq<Msg>, head: nat, tail: nat,
    sleeping: bool, eventfd: nat, stop: bool,
    loop: Loop, senders: map<Pid, Sender>,
    accepted: seq<Msg>, released: seq<Msg>)

  datatype Action =
    | Send(p: Pid, msg: Msg)            // the locked part of nos_transport_local_send
    | TestSleeping(p: Pid)
    | WriteEvent(p: Pid)
    | RequestStop(p: Pid)               // stop_requested = 1 in nos_scheduler_stop
    | StartTimer(p: Pid)                // nos_timer_start always writes the eventfd
    | LoopTop(cycles: nat)
    | Poll
    | Take
    | Release
    | EpollPoll(reported: bool)
    | DrainEventNow
    | SetSleeping
    | CheckQueue
    | CheckStop
    | ClearAfterRecheck
    | EpollWakes(reported: bool)        // message, timeout or another descriptor
    | ClearAfterWake
    | DrainEvent

  function Pc(s: State, p: Pid): Sender {
    if p in s.senders then s.senders[p] else Idle
  }

  function Move(s: State, p: Pid, c: Sender): State {
    s.(senders := s.senders[p := c])
  }

  function Init(): State {
    State(seq(Ring.SIZE, _ => 0), 0, 0, false, 0, false, Top, map[], [], [])
  }

  // ---------- Senders ----------

  // Full: return NOS_ERR_BUSY. Otherwise retain and append.
  function SendStep(s: State, p: Pid, msg: Msg): State {
    if !Pc(s, p).Idle? || Ring.Full(s.head, s.tail) || s.tail >= |s.slots| then s
    else Move(s, p, Enqueued).(slots := s.slots[s.tail := msg], tail := Ring.Succ(s.tail),
                               accepted := s.accepted + [msg])
  }

  function TestSleepingStep(s: State, p: Pid): State {
    if Pc(s, p).Enqueued? then Move(s, p, if s.sleeping then Waking else Idle) else s
  }

  // The write fails, and is ignored, only when the counter is at its maximum already.
  function WriteEventStep(s: State, p: Pid): State {
    if Pc(s, p).Waking?
    then Move(s, p, Idle).(eventfd := if s.eventfd < EVENTFD_MAX then s.eventfd + 1 else s.eventfd)
    else s
  }

  function RequestStopStep(s: State, p: Pid): State {
    if Pc(s, p).Idle? then Move(s, p, Waking).(stop := true) else s
  }

  function StartTimerStep(s: State, p: Pid): State {
    if Pc(s, p).Idle? then Move(s, p, Waking) else s
  }

  // ---------- The thread ----------

  function TakeStep(s: State): State {
    if !s.loop.Draining? || s.head >= |s.slots| then s
    else if s.head == s.tail then s.(loop := if s.loop.spun then EpollNow else Top)
    else s.(loop := Handling(s.slots[s.head], s.loop.spun), head := Ring.Succ(s.head))
  }

  function ReleaseStep(s: State): State {
    if s.loop.Handling? then s.(loop := Draining(s.loop.spun), released := s.released + [s.loop.msg]) else s
  }

  function PollStep(s: State): State {
    if !s.loop.Polling? then s
    else s.(loop := if s.head != s.tail then Draining(true)
                    else if s.loop.left == 0 then FlagSleep
                    else Polling(s.loop.left - 1))
  }

  // epoll reports the notify descriptor only if its counter is positive; it may leave it out.
  function EpollPollStep(s: State, reported: bool): State {
    if !s.loop.EpollNow? then s
    else s.(loop := if reported && s.eventfd > 0 then ReadNow else Top)
  }

  // With nothing reported, a timeout or another descriptor ended the wait.
  function EpollWakesStep(s: State, reported: bool): State {
    if !s.loop.Blocked? then s else s.(loop := Awake(reported && s.eventfd > 0))
  }

  /** One step of one thread; an action whose thread is elsewhere in its code changes nothing. */
  function Next(s: State, a: Action): State {
    match a
    case Send(p, msg) => SendStep(s, p, msg)
    case TestSleeping(p) => TestSleepingStep(s, p)
    case WriteEvent(p) => WriteEventStep(s, p)
    case RequestStop(p) => RequestStopStep(s, p)
    case StartTimer(p) => StartTimerStep(s, p)
    case LoopTop(cycles) => if s.loop.Top? then s.(loop := if s.stop then Exited else Polling(cycles)) else s
    case Poll => PollStep(s)
    case Take => TakeStep(s)
    case Release => ReleaseStep(s)
    case EpollPoll(reported) => EpollPollStep(s, reported)
    case DrainEventNow => if s.loop.ReadNow? then s.(loop := Top, eventfd := 0) else s
    case SetSleeping => if s.loop.FlagSleep? then s.(loop := RecheckQueue, sleeping := true) else s
    case CheckQueue =>
      if s.loop.RecheckQueue? then s.(loop := if s.head != s.tail then Unflag else RecheckStop) else s
    case CheckStop =>
      if s.loop.RecheckStop? then s.(loop := if s.stop then Unflag else Blocked) else s
    case ClearAfterRecheck => if s.loop.Unflag? then s.(loop := Top, sleeping := false) else s
    case EpollWakes(reported) => EpollWakesStep(s, reported)
    case ClearAfterWake =>
      if s.loop.Awake? then s.(loop := if s.loop.notified then ReadEvent else Top, sleeping := false) else s
    case DrainEvent =>
      // read() succeeds only on a positive counter.
      if s.loop.ReadEvent? then s.(loop := if s.eventfd > 0 then Draining(false) else Top, eventfd := 0) else s
  }

  // ---------- Exactly-once FIFO ----------

  function Queue(s: State): seq<Msg>
    requires Ring.Ok(s.slots, s.head, s.tail)
  {
    Ring.Contents(s.slots, s.head, s.tail)
  }

  // The message the thread holds between taking and releasing it.
  function InHand(s: State): seq<Msg> {
    if s.loop.Handling? then [s.loop.msg] else []
  }

  predicate Fifo(s: State) {
    Ring.Ok(s.slots, s.head, s.tail) && s.accepted == s.released + InHand(s) + Queue(s)
  }

  lemma SendKeepsFifo(s: State, p: Pid, msg: Msg)
    requires Fifo(s)
    ensures Fifo(SendStep(s, p, msg))
  {
    var t := SendStep(s, p, msg);
    if t != s && t.tail == Ring.Succ(s.tail) && !Ring.Full(s.head, s.tail) && Pc(s, p).Idle? {
      Ring.PushAppends(s.slots, s.head, s.tail, msg);
      assert s.released + InHand(s) + Queue(s) + [msg] == t.released + InHand(t) + Queue(t);
    }
  }

  lemma TakeKeepsFifo(s: State)
    requires Fifo(s)
    ensures Fifo(TakeStep(s))
  {
    var t := TakeStep(s);
    if s.loop.Draining? && s.head != s.tail {
      Ring.PopTakesFirst(s.slots, s.head, s.tail);
      assert s.released + [] + ([s.slots[s.head]] + Queue(t)) == t.released + InHand(t) + Queue(t);
    }
  }

  lemma ReleaseKeepsFifo(s: State)
    requires Fifo(s)
    ensures Fifo(ReleaseStep(s))
  {
    var t := ReleaseStep(s);
    assert t.released + InHand(t) == s.released + InHand(s);
  }

  lemma StepKeepsFifo(s: State, a: Action)
    requires Fifo(s)
    ensures Fifo(Next(s, a))
  {
    match a
    case Send(p, msg) => SendKeepsFifo(s, p, msg);
    case Take => TakeKeepsFifo(s);
    case Release => ReleaseKeepsFifo(s);
    case _ =>
      var t := Next(s, a);
      assert t.accepted == s.accepted && t.released == s.released && InHand(t) == InHand(s);
  }

  predicate Any(s: State, a: Action) { true }

  /** Over every interleaving, the accepted messages are, in order, those processed and
      released, the one being handled, and those still in the ring; the ring never holds more
      than 1023; and a send is refused exactly when it holds 1023. */
  lemma ExactlyOnceFifo(run: seq<Action>, p: Pid, msg: Msg)
    ensures var t := Runs.Exec(Next, Init(), run);
            && Fifo(t) && |Queue(t)| <= Ring.SIZE - 1
            && (Pc(t, p).Idle? ==>
                  (SendStep(t, p, msg).accepted == t.accepted + [msg] <==> |Queue(t)| < Ring.SIZE - 1))
  {
    forall s, a | Fifo(s) ensures Fifo(Next(s, a)) { StepKeepsFifo(s, a); }
    AnyAlong(Init(), run);
    Runs.InvariantAlong(Next, Any, Fifo, Init(), run);
    var t := Runs.Exec(Next, Init(), run);
    Ring.UsedIsLength(t.slots, t.head, t.tail);
  }

  lemma {:induction false} AnyAlong(s: State, run: seq<Action>)
    ensures Runs.Along(Next, Any, s, run)
    decreases |run|
  {
    if run != [] { AnyAlong(Next(s, run[0]), run[1..]); }
  }

  // ---------- No lost wakeup ----------

  // p's own next one or two steps make the eventfd positive while the thread sleeps.
  predicate WillWake(s: State, p: Pid) {
    p in s.senders && (s.senders[p].Waking? || (s.senders[p].Enqueued? && s.sleeping))
  }

  predicate WakeComing(s: State) {
    s.eventfd > 0 || exists p :: p in s.senders && WillWake(s, p)
  }

  predicate StopWakeComing(s: State) {
    s.eventfd > 0 || exists p :: p in s.senders && s.senders[p].Waking?
  }

  predicate FlagOk(s: State) {
    s.sleeping <==>
      s.loop.RecheckQueue? || s.loop.RecheckStop? || s.loop.Unflag? || s.loop.Blocked? || s.loop.Awake?
  }

  predicate NoLostWakeup(s: State) {
    && FlagOk(s)
    && ((s.loop.RecheckStop? || s.loop.Blocked?) && s.head != s.tail ==> WakeComing(s))
    && (s.loop.Blocked? && s.stop ==> StopWakeComing(s))
  }

  // A step of sender q, or of the thread, leaves another sender's pending wake in place.
  lemma WakeStays(s: State, t: State, p: Pid)
    requires WillWake(s, p) && t.sleeping == s.sleeping && p in t.senders && t.senders[p] == s.senders[p]
    ensures WakeComing(t)
  {
    assert WillWake(t, p);
  }

  lemma SenderKeepsWake(s: State, a: Action)
    requires a.Send? || a.TestSleeping? || a.WriteEvent? || a.RequestStop? || a.StartTimer?
    requires s.sleeping && WakeComing(s)
    ensures WakeComing(Next(s, a))
  {
    var t := Next(s, a);
    if s.eventfd == 0 {
      var p :| p in s.senders && WillWake(s, p);
      if p != a.p {
        WakeStays(s, t, p);
      } else if !a.WriteEvent? || t.eventfd == 0 {
        assert WillWake(t, p);
      }
    }
  }

  lemma SenderKeepsStopWake(s: State, a: Action)
    requires a.Send? || a.TestSleeping? || a.WriteEvent? || a.RequestStop? || a.StartTimer?
    requires StopWakeComing(s)
    ensures StopWakeComing(Next(s, a))
  {
    var t := Next(s, a);
    if s.eventfd == 0 {
      var p :| p in s.senders && s.senders[p].Waking?;
      if t.eventfd == 0 { assert p in t.senders && t.senders[p].Waking?; }
    }
  }

  // A step that makes the ring non-empty or requests a stop leaves its own wake pending.
  lemma SenderKeepsNoLostWakeup(s: State, a: Action)
    requires a.Send? || a.TestSleeping? || a.WriteEvent? || a.RequestStop? || a.StartTimer?
    requires NoLostWakeup(s)
    ensures NoLostWakeup(Next(s, a))
  {
    var t := Next(s, a);
    if s.loop.RecheckStop? || s.loop.Blocked? {
      if a.Send? && t.head != t.tail && s.head == s.tail {
        assert WillWake(t, a.p);
      } else if s.head != s.tail {
        SenderKeepsWake(s, a);
      }
    }
    if s.loop.Blocked? && t.stop {
      if s.stop {
        SenderKeepsStopWake(s, a);
      } else {
        assert t.senders[a.p].Waking?;
      }
    }
  }

  lemma StepKeepsNoLostWakeup(s: State, a: Action)
    requires NoLostWakeup(s)
    ensures NoLostWakeup(Next(s, a))
  {
    if a.Send? || a.TestSleeping? || a.WriteEvent? || a.RequestStop? || a.StartTimer? {
      SenderKeepsNoLostWakeup(s, a);
    } else if a.CheckStop? && s.loop.RecheckStop? && s.head != s.tail && s.eventfd == 0 {
      var p :| p in s.senders && WillWake(s, p);
      WakeStays(s, Next(s, a), p);
    }
  }

  /** No lost wakeup, over every interleaving of any number of senders: while the thread is
      blocked with a message in its ring, the eventfd is positive or some sender is about to
      make it so; the same holds while it is blocked after a stop request. */
  lemma NoLostWakeupEver(run: seq<Action>)
    ensures var t := Runs.Exec(Next, Init(), run);
            && (t.loop.Blocked? && t.head != t.tail ==> WakeComing(t))
            && (t.loop.Blocked? && t.stop ==> StopWakeComing(t))
  {
    forall s, a | NoLostWakeup(s) ensures NoLostWakeup(Next(s, a)) { StepKeepsNoLostWakeup(s, a); }
    AnyAlong(Init(), run);
    Runs.InvariantAlong(Next, Any, NoLostWakeup, Init(), run);
  }

  /** What the pending wake is good for: from every reachable state in which the thread is
      blocked with a non-empty ring, at most two steps of one sender and four of the thread
      start the handler on the oldest message. */
  lemma BlockedThreadGetsOldest(run: seq<Action>) returns (more: seq<Action>)
    requires var s := Runs.Exec(Next, Init(), run); s.loop.Blocked? && s.head != s.tail
    ensures |more| <= 6
    ensures var s := Runs.Exec(Next, Init(), run);
            && Fifo(s) && Queue(s) != []
            && Runs.Exec(Next, s, more).loop == Handling(Queue(s)[0], false)
  {
    NoLostWakeupEver(run);
    ExactlyOnceFifo(run, 0, 0);
    var s := Runs.Exec(Next, Init(), run);
    InvariantsOf(run);
    Ring.PopTakesFirst(s.slots, s.head, s.tail);
    if s.eventfd > 0 {
      more := WakeSteps();
      WakeHandlesOldest(s);
    } else {
      var p :| p in s.senders && WillWake(s, p);
      if s.senders[p].Waking? {
        more := [WriteEvent(p)] + WakeSteps();
        WakeHandlesOldest(WriteEventStep(s, p));
        assert more[1..] == WakeSteps();
      } else {
        var s1 := TestSleepingStep(s, p);
        more := [TestSleeping(p)] + ([WriteEvent(p)] + WakeSteps());
        WakeHandlesOldest(WriteEventStep(s1, p));
        assert more[1..] == [WriteEvent(p)] + WakeSteps();
        assert ([WriteEvent(p)] + WakeSteps())[1..] == WakeSteps();
      }
    }
  }

  lemma InvariantsOf(run: seq<Action>)
    ensures var t := Runs.Exec(Next, Init(), run); NoLostWakeup(t)
  {
    forall s, a | NoLostWakeup(s) ensures NoLostWakeup(Next(s, a)) { StepKeepsNoLostWakeup(s, a); }
    AnyAlong(Init(), run);
    Runs.InvariantAlong(Next, Any, NoLostWakeup, Init(), run);
  }

  function WakeSteps(): seq<Action> { [EpollWakes(true), ClearAfterWake, DrainEvent, Take] }

  lemma WakeHandlesOldest(s: State)
    requires s.loop.Blocked? && s.eventfd > 0 && s.head != s.tail && s.head < |s.slots|
    ensures Runs.Exec(Next, s, WakeSteps()).loop == Handling(s.slots[s.head], false)
  {
    var w := WakeSteps();
    var s1 := Next(s, w[0]);
    var s2 := Next(s1, w[1]);
    var s3 := Next(s2, w[2]);
    var s4 := Next(s3, w[3]);
    assert w[1..] == [ClearAfterWake, DrainEvent, Take];
    assert w[1..][1..] == [DrainEvent, Take];
    assert w[1..][1..][1..] == [Take];
    assert w[1..][1..][1..][1..] == [];
    assert Runs.Exec(Next, s3, [Take]) == s4;
  }

  // ---------- The thread's own steps ----------

  /** What the thread does next; a wait without a timeout ends only when the notify descriptor is
      reported, and a poll reports nothing. */
  function Advance(s: State): Action {
    match s.loop
    case Top => LoopTop(0)
    case Polling(_) => Poll
    case Draining(_) => Take
    case Handling(_, _) => Release
    case EpollNow => EpollPoll(false)
    case ReadNow => DrainEventNow
    case FlagSleep => SetSleeping
    case RecheckQueue => CheckQueue
    case RecheckStop => CheckStop
    case Unflag => ClearAfterRecheck
    case Blocked => EpollWakes(true)
    case Awake(_) => ClearAfterWake
    case ReadEvent => DrainEvent
    case Exited => LoopTop(0)
  }

  // The state after k steps of the thread while everybody else pauses.
  function Alone(s: State, k: nat): State
    decreases k
  {
    if k == 0 then s else Alone(Next(s, Advance(s)), k - 1)
  }

  // A wait that is bound to end: the descriptor is readable.
  predicate Wakeable(s: State) { (s.loop.RecheckStop? || s.loop.Blocked?) ==> s.eventfd > 0 }

  lemma AloneStep(s: State, n: State, k: nat)
    requires n == Next(s, Advance(s))
    ensures Alone(s, k + 1) == Alone(n, k)
  {}

  lemma AdvanceKeepsFifo(s: State)
    requires Fifo(s)
    ensures var n := Next(s, Advance(s));
            && Fifo(n) && n.accepted == s.accepted && n.stop == s.stop && n.tail == s.tail && n.slots == s.slots
            && (if s.loop.Draining? && s.head != s.tail
                then Queue(s) != [] && n.loop == Handling(Queue(s)[0], s.loop.spun) && Queue(n) == Queue(s)[1..]
                else Queue(n) == Queue(s) && n.head == s.head)
            && (s.head == s.tail <==> Queue(s) == [])
  {
    hide Ring.Contents;
    StepKeepsFifo(s, Advance(s));
    Ring.UsedIsLength(s.slots, s.head, s.tail);
    if s.loop.Draining? && s.head != s.tail {
      Ring.PopTakesFirst(s.slots, s.head, s.tail);
    }
  }

  // ---------- A stop request ends the loop ----------

  /** The loop is left exactly at its top, after a stop request, and never entered again. */
  lemma ExitIff(s: State, a: Action)
    ensures Next(s, a).loop.Exited? <==> s.loop.Exited? || (a.LoopTop? && s.loop.Top? && s.stop)
    ensures Next(s, a).stop <==> s.stop || (a.RequestStop? && Pc(s, a.p).Idle?)
  {}

  predicate Requested(run: seq<Action>) { exists i :: 0 <= i < |run| && run[i].RequestStop? }

  lemma {:induction false} StopIsRequested(s: State, run: seq<Action>)
    requires !s.stop && !s.loop.Exited?
    ensures var t := Runs.Exec(Next, s, run); (t.loop.Exited? ==> t.stop) && (t.stop ==> Requested(run))
    decreases |run|
  {
    if run != [] {
      var n := Next(s, run[0]);
      ExitIff(s, run[0]);
      if n.stop {
        assert run[0].RequestStop?;
        ExitedStays(n, run[1..]);
      } else {
        StopIsRequested(n, run[1..]);
        if Requested(run[1..]) {
          var i :| 0 <= i < |run[1..]| && run[1..][i].RequestStop?;
          assert run[i + 1].RequestStop?;
        }
      }
    }
  }

  lemma {:induction false} ExitedStays(s: State, run: seq<Action>)
    requires s.stop
    ensures Runs.Exec(Next, s, run).stop
    decreases |run|
  {
    if run != [] {
      ExitIff(s, run[0]);
      ExitedStays(Next(s, run[0]), run[1..]);
    }
  }

  /** No thread leaves its loop, and no stop flag is up, unless somebody asked for it. */
  lemma ExitsOnlyOnRequest(run: seq<Action>)
    ensures var t := Runs.Exec(Next, Init(), run); t.stop || t.loop.Exited? ==> Requested(run)
  {
    StopIsRequested(Init(), run);
  }

  /** Processing messages goes on until the ring is empty: two steps a message and one more, and then every
      accepted message is released; a thread that came from spinning polls its descriptors next. */
  lemma {:induction false} AloneDrains(s: State)
    requires Fifo(s) && s.loop.Draining?
    ensures var n := Alone(s, 2 * |Queue(s)| + 1);
            && n.released == n.accepted == s.accepted && n.head == n.tail
            && n.loop == (if s.loop.spun then EpollNow else Top) && n == s.(loop := n.loop, head := n.head, released := n.released)
    decreases |Queue(s)|
  {
    hide Ring.Contents, Alone;
    AdvanceKeepsFifo(s);
    var n := Next(s, Advance(s));
    if s.head == s.tail {
      AloneNone(n);
      AloneStep(s, n, 0);
    } else {
      AdvanceKeepsFifo(n);
      var m := Next(n, Advance(n));
      AloneDrains(m);
      AloneStep(n, m, 2 * |Queue(m)| + 1);
      AloneStep(s, n, 2 * |Queue(m)| + 2);
    }
  }

  lemma AloneNone(s: State)
    ensures Alone(s, 0) == s
  {}

  // An upper bound for the thread's own steps to the end of its loop, once stop is set.
  function ToExit(s: State): nat
    requires Fifo(s)
  {
    var n := |Queue(s)|;
    match s.loop
    case Exited => 0
    case Top => 1
    case EpollNow => 2
    case ReadNow => 2
    case Unflag => 2
    case Draining(_) => 2 * n + 4
    case Handling(_, _) => 2 * n + 5
    case ReadEvent => 2 * n + 5
    case Awake(_) => 2 * n + 6
    case Blocked => 2 * n + 7
    case RecheckStop => 3
    case RecheckQueue => 4
    case FlagSleep => 5
    case Polling(left) => left + 2 * n + 6
  }

  // The thread empties its ring before it next comes to the top of the loop.
  predicate Empties(s: State) {
    s.loop.Draining? || s.loop.Handling?
    || (s.eventfd > 0 && (s.loop.ReadEvent? || (s.loop.Awake? && s.loop.notified) || s.loop.Blocked?))
  }

  lemma AdvanceToExit(s: State)
    requires Fifo(s) && s.stop && !s.loop.Exited? && (s.loop.Blocked? ==> s.eventfd > 0)
    ensures var n := Next(s, Advance(s));
            && Fifo(n) && ToExit(n) < ToExit(s) && (n.loop.Blocked? ==> n.eventfd > 0)
            && (Empties(s) ==> Empties(n) || (Queue(n) == [] && (n.loop.Top? || n.loop.EpollNow?)))
            && (Queue(s) == [] && (s.loop.Top? || s.loop.EpollNow?) ==> Queue(n) == [] && (n.loop.Top? || n.loop.Exited?))
  {
    AdvanceKeepsFifo(s);
    hide Fifo;
  }

  lemma {:induction false} AloneExits(s: State) returns (k: nat)
    requires Fifo(s) && s.stop && (s.loop.Blocked? ==> s.eventfd > 0)
    ensures k <= ToExit(s) && Alone(s, k).loop.Exited? && Fifo(Alone(s, k)) && Alone(s, k).accepted == s.accepted
    ensures Empties(s) || (Queue(s) == [] && (s.loop.Top? || s.loop.EpollNow? || s.loop.Exited?)) ==> Queue(Alone(s, k)) == []
    decreases ToExit(s)
  {
    hide Next, Advance, ToExit, Ring.Contents;
    k := 0;
    if !s.loop.Exited? {
      AdvanceToExit(s);
      AdvanceKeepsFifo(s);
      var rest := AloneExits(Next(s, Advance(s)));
      k := rest + 1;
    }
  }

  /** A stop request ends the loop, from every reachable state: after at most one step of a stopper or
      timer starter, a bounded number of the thread's own steps, none of them a timeout, leaves the
      loop. A thread that was blocked or processing messages has then released every accepted message. */
  lemma StopEndsLoop(run: seq<Action>) returns (wake: seq<Action>, k: nat)
    requires Runs.Exec(Next, Init(), run).stop
    ensures var t := Runs.Exec(Next, Init(), run);
            var s := Runs.Exec(Next, t, wake);
            && Fifo(t) && |wake| <= 1 && (forall i :: 0 <= i < |wake| ==> wake[i].WriteEvent?)
            && (wake != [] ==> t.loop.Blocked? && t.eventfd == 0)
            && k <= ToExit(t) && Alone(s, k).loop.Exited?
            && (t.loop.Blocked? || t.loop.Draining? || t.loop.Handling? ==> Alone(s, k).released == t.accepted)
  {
    ExactlyOnceFifo(run, 0, 0);
    InvariantsOf(run);
    var t := Runs.Exec(Next, Init(), run);
    var s := t;
    wake := [];
    if t.loop.Blocked? && t.eventfd == 0 {
      var p :| p in t.senders && t.senders[p].Waking?;
      wake := [WriteEvent(p)];
      s := WriteEventStep(t, p);
      Runs.One(Next, t, WriteEvent(p), []);
      assert wake == [WriteEvent(p)] + [];
      StepKeepsFifo(t, WriteEvent(p));
    }
    k := AloneExits(s);
  }

  // ---------- Messages are handled wherever the thread is ----------

  // The thread will look at its ring before it looks at the stop flag.
  predicate Serving(s: State) {
    s.loop.Polling? || Empties(s)
  }

  // An upper bound for the thread's own steps to the handler of the oldest message.
  function ToHandler(s: State): nat {
    match s.loop
    case Draining(_) => 1
    case Handling(_, _) => 2
    case Polling(_) => 2
    case Top => 3
    case EpollNow => 4
    case ReadNow => 4
    case Unflag => 4
    case RecheckQueue => 5
    case FlagSleep => 6
    case ReadEvent => 4
    case Awake(_) => 5
    case Blocked => 6
    case RecheckStop => 7
    case Exited => 0
  }

  lemma AdvanceToHandler(s: State)
    requires Fifo(s) && Queue(s) != [] && !s.loop.Exited? && !s.loop.Draining? && Wakeable(s) && (s.stop ==> Serving(s))
    ensures var n := Next(s, Advance(s));
            && ToHandler(n) < ToHandler(s) && !n.loop.Exited? && Wakeable(n) && (n.stop ==> Serving(n))
  {
    AdvanceKeepsFifo(s);
    hide Fifo;
  }

  lemma {:induction false} AloneHandlesOldest(s: State) returns (k: nat)
    requires Fifo(s) && Queue(s) != [] && !s.loop.Exited? && Wakeable(s) && (s.stop ==> Serving(s))
    ensures 0 < k <= ToHandler(s)
    ensures var n := Alone(s, k);
            Fifo(n) && n.loop.Handling? && n.loop.msg == Queue(s)[0] && Queue(n) == Queue(s)[1..]
    decreases ToHandler(s)
  {
    AdvanceKeepsFifo(s);
    var n := Next(s, Advance(s));
    if s.loop.Draining? {
      k := 1;
      assert Alone(s, 1) == Alone(n, 0) == n;
    } else {
      AdvanceToHandler(s);
      var rest := AloneHandlesOldest(n);
      k := rest + 1;
    }
  }

  /** No message waits for a timeout: from every reachable state with a non-empty ring in which the
      thread has not left its loop and is not about to, at most two steps of one sender and seven of
      the thread, none of them a timeout, take the oldest message out of the ring into its handler. */
  lemma OldestIsHandledNext(run: seq<Action>) returns (wake: seq<Action>, k: nat)
    requires var t := Runs.Exec(Next, Init(), run);
             t.head != t.tail && !t.loop.Exited? && (t.stop ==> t.loop.Blocked? || Serving(t))
    ensures var t := Runs.Exec(Next, Init(), run);
            var s := Runs.Exec(Next, t, wake);
            && |wake| <= 2 && (forall i :: 0 <= i < |wake| ==> wake[i].TestSleeping? || wake[i].WriteEvent?)
            && 0 < k <= 7 && Fifo(t) && Queue(t) != [] && Fifo(Alone(s, k))
            && Alone(s, k).loop.Handling? && Alone(s, k).loop.msg == Queue(t)[0] && Queue(Alone(s, k)) == Queue(t)[1..]
  {
    ExactlyOnceFifo(run, 0, 0);
    InvariantsOf(run);
    var t := Runs.Exec(Next, Init(), run);
    Ring.PopTakesFirst(t.slots, t.head, t.tail);
    wake := [];
    var s := t;
    if (t.loop.RecheckStop? || t.loop.Blocked?) && t.eventfd == 0 {
      wake := WakeArrives(t);
      s := Runs.Exec(Next, t, wake);
    }
    k := AloneHandlesOldest(s);
  }

  // The pending wake of a sleeping thread, carried out: only the senders and the eventfd change.
  lemma WakeArrives(s: State) returns (wake: seq<Action>)
    requires s.sleeping && WakeComing(s) && s.eventfd == 0
    ensures |wake| <= 2 && forall i :: 0 <= i < |wake| ==> wake[i].TestSleeping? || wake[i].WriteEvent?
    ensures var n := Runs.Exec(Next, s, wake); n == s.(senders := n.senders, eventfd := 1)
  {
    var p :| p in s.senders && WillWake(s, p);
    if s.senders[p].Waking? {
      wake := [WriteEvent(p)];
      Runs.One(Next, s, WriteEvent(p), []);
      assert wake == [WriteEvent(p)] + [];
    } else {
      wake := [TestSleeping(p)] + [WriteEvent(p)];
      Runs.One(Next, s, TestSleeping(p), [WriteEvent(p)]);
      Runs.One(Next, TestSleepingStep(s, p), WriteEvent(p), []);
      assert [WriteEvent(p)] == [WriteEvent(p)] + [];
    }
  }

  // ---------- An idle thread sleeps, and a timer start wakes it ----------

  function Polls(k: nat): seq<Action> { seq(k, _ => Poll) }

  lemma {:induction false} PollsCountDown(s: State, left: nat, k: nat)
    requires s.loop == Polling(left) && s.head == s.tail && k <= left
    ensures Runs.Exec(Next, s, Polls(k)) == s.(loop := Polling(left - k))
    decreases k
  {
    if k > 0 {
      assert Polls(k)[0] == Poll && Polls(k)[1..] == Polls(k - 1);
      PollsCountDown(PollStep(s), left - 1, k - 1);
    }
  }

  /** With nothing to do the thread spins for exactly the configured number of polls, and then sleeps. */
  lemma IdleThreadSleeps(s: State, cycles: nat)
    requires s.loop.Top? && s.head == s.tail && !s.stop
    ensures forall k :: 0 <= k <= cycles ==> Runs.Exec(Next, s, [LoopTop(cycles)] + Polls(k)) == s.(loop := Polling(cycles - k))
    ensures Runs.Exec(Next, s, [LoopTop(cycles)] + Polls(cycles) + [Poll, SetSleeping, CheckQueue, CheckStop])
              == s.(loop := Blocked, sleeping := true)
  {
    var p := s.(loop := Polling(cycles));
    forall k | 0 <= k <= cycles ensures Runs.Exec(Next, s, [LoopTop(cycles)] + Polls(k)) == s.(loop := Polling(cycles - k)) {
      Runs.One(Next, s, LoopTop(cycles), Polls(k));
      PollsCountDown(p, cycles, k);
    }
    Runs.Split(Next, s, [LoopTop(cycles)] + Polls(cycles), [Poll, SetSleeping, CheckQueue, CheckStop]);
    Runs.Four(Next, s.(loop := Polling(0)), Poll, SetSleeping, CheckQueue, CheckStop);
  }

  /** A wake is used up: with nothing to do, a blocked thread whose eventfd is readable, and one that finds it
      readable in passing, block again with the eventfd at zero. */
  lemma WakeIsUsedUp(s: State)
    requires s.head == s.tail && s.head < |s.slots| && !s.stop && s.eventfd > 0
    ensures s.loop.Blocked? && s.sleeping ==> Alone(s, 9) == s.(eventfd := 0)
    ensures s.loop.EpollNow? ==> Alone(Next(s, EpollPoll(true)), 6) == s.(loop := Blocked, sleeping := true, eventfd := 0)
  {
    hide Alone;
    if s.loop.Blocked? && s.sleeping {
      var s1 := s.(loop := Awake(true));
      var s2 := s.(loop := ReadEvent, sleeping := false);
      var s3 := s.(loop := Draining(false), sleeping := false, eventfd := 0);
      AloneStep(s, s1, 8);
      AloneStep(s1, s2, 7);
      AloneStep(s2, s3, 6);
      AloneStep(s3, s3.(loop := Top), 5);
      SleepsFromTop(s3.(loop := Top));
    }
    if s.loop.EpollNow? {
      var s1 := s.(loop := ReadNow);
      AloneStep(s1, s.(loop := Top, eventfd := 0), 5);
      SleepsFromTop(s.(loop := Top, eventfd := 0));
    }
  }

  lemma SleepsFromTop(s: State)
    requires s.loop.Top? && s.head == s.tail && !s.stop
    ensures Alone(s, 5) == s.(loop := Blocked, sleeping := true)
  {
    var s1 := s.(loop := Polling(0));
    var s2 := s.(loop := FlagSleep);
    var s3 := s.(loop := RecheckQueue, sleeping := true);
    var s4 := s3.(loop := RecheckStop);
    AloneStep(s4, s4.(loop := Blocked), 0);
    hide Alone;
    AloneStep(s, s1, 4);
    AloneStep(s1, s2, 3);
    AloneStep(s2, s3, 2);
    AloneStep(s3, s4, 1);
  }

  predicate StaysBlocked(s: State, a: Action) { Next(s, a).loop.Blocked? }

  lemma BlockedKeepsStopWake(s: State, a: Action)
    requires s.loop.Blocked? && StopWakeComing(s) && StaysBlocked(s, a)
    ensures StopWakeComing(Next(s, a))
  {
    if a.Send? || a.TestSleeping? || a.WriteEvent? || a.RequestStop? || a.StartTimer? { SenderKeepsStopWake(s, a); }
  }

  /** A timer started for a blocked thread wakes it: whatever else happens, until it wakes the eventfd
      is positive or somebody is about to write it; and a readable eventfd ends the wait. */
  lemma TimerStartWakes(s: State, p: Pid, run: seq<Action>)
    requires s.loop.Blocked? && Pc(s, p).Idle? && Runs.Along(Next, StaysBlocked, Next(s, StartTimer(p)), run)
    ensures var t := Runs.Exec(Next, Next(s, StartTimer(p)), run);
            t.loop.Blocked? && StopWakeComing(t) && (t.eventfd > 0 ==> Next(t, EpollWakes(true)).loop == Awake(true))
  {
    var inv := (x: State) => x.loop.Blocked? && StopWakeComing(x);
    var n := Next(s, StartTimer(p));
    assert n.senders[p].Waking?;
    forall x, a | inv(x) && StaysBlocked(x, a) ensures inv(Next(x, a)) { BlockedKeepsStopWake(x, a); }
    Runs.InvariantAlong(Next, StaysBlocked, inv, n, run);
  }

  // ---------- The thread object ----------

  /** nos_thread_t, as far as its ring and its sleep flag go. Each method is one critical section
      or one atomic access of the C code; its contract is the step of the machine above. */
  class Thread {
    const slots: array<Msg>
    var head: nat
    var tail: nat
    var sleeping: bool
    var eventfd: nat
    var stop: bool
    var loop: Loop
    var senders: map<Pid, Sender>
    ghost var accepted: seq<Msg>
    ghost var released: seq<Msg>

    ghost function View(): State
      reads this, slots
    {
      State(slots[..], head, tail, sleeping, eventfd, stop, loop, senders, accepted, released)
    }

    // nos_scheduler_init_thread.
    constructor ()
      ensures fresh(slots) && View() == Init()
    {
      slots := new Msg[Ring.SIZE](_ => 0);
      head, tail, sleeping, eventfd, stop, loop, senders := 0, 0, false, 0, false, Top, map[];
      accepted, released := [], [];
    }

    function SenderPc(p: Pid): Sender
      reads this
    {
      if p in senders then senders[p] else Idle
    }

    method Send(p: Pid, msg: Msg)
      requires slots.Length == Ring.SIZE && tail < Ring.SIZE
      modifies this, slots
      ensures View() == SendStep(old(View()), p, msg)
    {
      if SenderPc(p).Idle? {
        var nextTail := Ring.Succ(tail);
        if nextTail != head {
          slots[tail] := msg;
          tail := nextTail;
          senders := senders[p := Enqueued];
          accepted := accepted + [msg];
        }
      }
    }

    method TestSleeping(p: Pid)
      modifies this
      ensures View() == TestSleepingStep(old(View()), p)
    {
      if SenderPc(p).Enqueued? { senders := senders[p := if sleeping then Waking else Idle]; }
    }

    method WriteEvent(p: Pid)
      modifies this
      ensures View() == WriteEventStep(old(View()), p)
    {
      if SenderPc(p).Waking? {
        if eventfd < EVENTFD_MAX { eventfd := eventfd + 1; }
        senders := senders[p := Idle];
      }
    }

    method RequestStop(p: Pid)
      modifies this
      ensures View() == RequestStopStep(old(View()), p)
    {
      if SenderPc(p).Idle? {
        stop := true;
        senders := senders[p := Waking];
      }
    }

    // nos_timer_start, as far as the wake goes.
    method StartTimer(p: Pid)
      modifies this
      ensures View() == StartTimerStep(old(View()), p)
    {
      if SenderPc(p).Idle? { senders := senders[p := Waking]; }
    }

    method Take()
      requires slots.Length == Ring.SIZE && head < Ring.SIZE
      modifies this
      ensures View() == TakeStep(old(View()))
    {
      if loop.Draining? {
        if head != tail {
          loop := Handling(slots[head], loop.spun);
          head := Ring.Succ(head);
        } else {
          loop := if loop.spun then EpollNow else Top;
        }
      }
    }

    method Release()
      modifies this
      ensures View() == ReleaseStep(old(View()))
    {
      if loop.Handling? {
        released := released + [loop.msg];
        loop := Draining(loop.spun);
      }
    }

    // The accesses of nos_scheduler_run_loop outside process_thread_messages.
    method LoopStep(a: Action)
      requires !a.Send? && !a.TestSleeping? && !a.WriteEvent? && !a.RequestStop? && !a.StartTimer?
      requires !a.Take? && !a.Release?
      modifies this
      ensures View() == Next(old(View()), a)
    {
      match a
      case LoopTop(cycles) =>
        if loop.Top? { loop := if stop then Exited else Polling(cycles); }
      case Poll =>
        if loop.Polling? {
          loop := if head != tail then Draining(true)
                  else if loop.left == 0 then FlagSleep
                  else Polling(loop.left - 1);
        }
      case EpollPoll(reported) =>
        if loop.EpollNow? { loop := if reported && eventfd > 0 then ReadNow else Top; }
      case DrainEventNow =>
        if loop.ReadNow? { loop, eventfd := Top, 0; }
      case SetSleeping =>
        if loop.FlagSleep? { loop, sleeping := RecheckQueue, true; }
      case CheckQueue =>
        if loop.RecheckQueue? { loop := if head != tail then Unflag else RecheckStop; }
      case CheckStop =>
        if loop.RecheckStop? { loop := if stop then Unflag else Blocked; }
      case ClearAfterRecheck =>
        if loop.Unflag? { loop, sleeping := Top, false; }
      case EpollWakes(reported) =>
        if loop.Blocked? { loop := Awake(reported && eventfd > 0); }
      case ClearAfterWake =>
        if loop.Awake? { loop, sleeping := if loop.notified then ReadEvent else Top, false; }
      case DrainEvent =>
        if loop.ReadEvent? { loop, eventfd := if eventfd > 0 then Draining(false) else Top, 0; }
    }

    /** nos_scheduler_deinit_thread releases what is left in the ring, so that over the whole
        life of the thread every accepted message is released exactly once, in order. */
    method Deinit()
      requires Fifo(View()) && !loop.Handling?
      modifies this
      ensures released == accepted == old(accepted) && head == tail == old(tail)
    {
      hide Ring.Contents;
      while head != tail
        invariant Fifo(View()) && !loop.Handling? && accepted == old(accepted) && tail == old(tail)
        decreases Ring.Used(head, tail)
      {
        Ring.PopTakesFirst(slots[..], head, tail);
        Ring.SuccIs(head);
        assert released + [] + ([slots[head]] + Ring.Contents(slots[..], Ring.Succ(head), tail))
            == released + [slots[head]] + [] + Ring.Contents(slots[..], Ring.Succ(head), tail);
        released := released + [slots[head]];
        head := Ring.Succ(head);
      }
      Ring.UsedIsLength(slots[..], head, tail);
    }
  }
}
