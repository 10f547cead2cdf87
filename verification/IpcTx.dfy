/** The transmit queue of one IPC connection (src/infra/nos_ipc_p2p.c): a ring of buffers with a
    high and a low watermark, drained by non-blocking sends, reconnected on demand. Each section
    under the connection's lock is one step: admitting a message, and draining the queue, which
    other callers may get between; the kernel is an oracle that answers every send with sent,
    would-block or failure. */
module IpcTx {
  import Ring
  import Runs

  const HIGH_WATERMARK: nat := 900
  const LOW_WATERMARK: nat := 200

  datatype Msg = Data(id: nat) | Hello(id: nat)

  datatype Outcome = Sent | WouldBlock | LinkFailure

  datatype Status = Ok | Err | Busy

  datatype Option<T> = None | Some(value: T)

  // ---------- What the operations do, on the queued messages ----------

  /** `accepted` lists every message ever queued and `sent` every message handed to the kernel;
      `onLink` those handed over since the current link was set up. */
  datatype Link = Link(
    queue: seq<Msg>, fdOpen: bool, connected: bool, congested: bool,
    accepted: seq<Msg>, sent: seq<Msg>, onLink: seq<Msg>)

  // The answer to the k-th send of a drain; a closed descriptor only fails.
  function Answer(l: Link, kernel: nat -> Outcome, k: nat): Outcome {
    if l.fdOpen then kernel(k) else LinkFailure
  }

  function Fail(l: Link): Link { l.(fdOpen := false, connected := false, congested := false) }

  // Send the head until the queue is empty or a send does not succeed.
  function Drain(l: Link, kernel: nat -> Outcome, k: nat): Link
    decreases |l.queue|
  {
    if l.queue == [] then l.(congested := false)
    else
      match Answer(l, kernel, k)
      case Sent =>
        Drain(l.(queue := l.queue[1..], sent := l.sent + [l.queue[0]], onLink := l.onLink + [l.queue[0]]), kernel, k + 1)
      case WouldBlock => l
      case LinkFailure => Fail(l)
  }

  function Popped(l: Link): Link
    requires l.queue != []
  {
    l.(queue := l.queue[1..], sent := l.sent + [l.queue[0]], onLink := l.onLink + [l.queue[0]])
  }

  lemma DrainUnfolds(l: Link, kernel: nat -> Outcome, k: nat)
    ensures Drain(l, kernel, k) ==
              if l.queue == [] then l.(congested := false)
              else match Answer(l, kernel, k)
                   case Sent => Drain(Popped(l), kernel, k + 1)
                   case WouldBlock => l
                   case LinkFailure => Fail(l)
  {}

  function Append(l: Link, m: Msg): Link {
    l.(queue := l.queue + [m], accepted := l.accepted + [m])
  }

  // A fresh connection: identify ourselves, if a buffer is available and the ring has room.
  function Connect(l: Link, hello: Option<Msg>): Link {
    var c := l.(fdOpen := true, connected := true, congested := false, onLink := []);
    if hello.Some? && |l.queue| < Ring.SIZE - 1 then Append(c, hello.value) else c
  }

  /** What the environment decides during one enqueue: whether the path is usable for connecting,
      whether socket and connect succeed, which buffer the HELLO gets, how sends end. */
  datatype Env = Env(usablePath: bool, connects: bool, hello: Option<Msg>, kernel: nat -> Outcome)

  function Reconnected(l: Link, env: Env): Link {
    if !l.fdOpen && env.usablePath && env.connects then Connect(l, env.hello) else l
  }

  // The locked part of nos_ipc_send_enqueue_ex.
  function Accept(l: Link, m: Msg, env: Env): (Link, Status) {
    var c := Reconnected(l, env);
    if !c.connected then (c, Err)
    else if |c.queue| > HIGH_WATERMARK then (c.(congested := true), Busy)
    else if RingFull(c) then (c, Busy)
    else (Append(c, m), Ok)
  }

  predicate RingFull(l: Link) { |l.queue| >= Ring.SIZE - 1 }

  // The whole call when nobody gets the lock between the two sections.
  function Enqueue(l: Link, m: Msg, env: Env): (Link, Status) {
    var (a, status) := Accept(l, m, env);
    (if status == Ok then Drain(a, env.kernel, 0) else a, status)
  }

  datatype Event =
    | Accepted(m: Msg, env: Env)           // admission by one caller
    | Drained(kernel: nat -> Outcome)      // nos_ipc_process_tx, by a caller or by the event handler
    | PeerClosed                           // recv reports the end, or a protocol error
    | Promoted                             // a passive connection said HELLO

  function Next(l: Link, e: Event): Link {
    match e
    case Accepted(m, env) => Accept(l, m, env).0
    case Drained(kernel) => Drain(l, kernel, 0)
    case PeerClosed => l.(fdOpen := false, connected := false)
    case Promoted => l.(fdOpen := true, connected := true, onLink := [])
  }

  function Init(): Link { Link([], false, false, false, [], [], []) }

  // ---------- Conservation and back-pressure ----------

  predicate Inv(l: Link) {
    && l.accepted == l.sent + l.queue
    && |l.queue| <= Ring.SIZE - 1
    && (l.congested ==> l.queue != [])
    && (l.connected <==> l.fdOpen)
    && |l.onLink| <= |l.sent| && l.onLink == l.sent[|l.sent| - |l.onLink|..]
  }

  // The head goes out; if it was the last, the flag may still be up until the drain ends.
  lemma PoppedKeepsInv(l: Link)
    requires Inv(l) && l.queue != []
    ensures Inv(Popped(l).(congested := false)) && (Popped(l).queue != [] ==> Inv(Popped(l)))
  {
    var m, n := l.queue[0], Popped(l);
    assert l.sent + l.queue == n.sent + n.queue;
    assert n.onLink == n.sent[|n.sent| - |n.onLink|..];
  }

  lemma {:induction false} DrainKeepsInv(l: Link, kernel: nat -> Outcome, k: nat)
    requires Inv(l)
    ensures Inv(Drain(l, kernel, k))
    ensures var d := Drain(l, kernel, k); d.accepted == l.accepted && l.sent <= d.sent && (d.queue == [] ==> !d.congested)
    decreases |l.queue|
  {
    DrainUnfolds(l, kernel, k);
    hide Drain;
    if l.queue != [] && Answer(l, kernel, k).Sent? {
      PoppedKeepsInv(l);
      if Popped(l).queue == [] {
        DrainUnfolds(Popped(l), kernel, k + 1);
      } else {
        DrainKeepsInv(Popped(l), kernel, k + 1);
      }
    }
  }

  lemma ConnectKeepsInv(l: Link, hello: Option<Msg>)
    requires Inv(l)
    ensures Inv(Connect(l, hello))
  {
    assert l.sent[|l.sent|..] == [];
  }

  lemma StepKeepsInv(l: Link, e: Event)
    requires Inv(l)
    ensures Inv(Next(l, e))
  {
    match e
    case Accepted(m, env) =>
      ConnectKeepsInv(l, env.hello);
      AppendKeepsInv(Reconnected(l, env), m);
    case Drained(kernel) => DrainKeepsInv(l, kernel, 0);
    case PeerClosed =>
    case Promoted => assert l.sent[|l.sent|..] == [];
  }

  lemma AppendKeepsInv(l: Link, m: Msg)
    requires Inv(l)
    ensures |l.queue| < Ring.SIZE - 1 ==> Inv(Append(l, m))
  {
    assert l.sent + l.queue + [m] == l.sent + (l.queue + [m]);
  }

  lemma CongestKeepsInv(l: Link)
    requires Inv(l)
    ensures |l.queue| > HIGH_WATERMARK ==> Inv(l.(congested := true))
  {}

  predicate Any(l: Link, e: Event) { true }

  /** Over every run of admissions, drains, disconnects and reconnects, with any answers of the
      kernel: the messages sent followed by the queue are exactly the accepted ones, HELLOs
      included, in order, so a head that failed is kept and sent first on the next link; the queue
      never exceeds 1023; and a congested connection has something queued. */
  lemma AcceptedIsSentPlusQueued(run: seq<Event>)
    ensures var l := Runs.Exec(Next, Init(), run);
            && l.accepted == l.sent + l.queue
            && |l.queue| <= Ring.SIZE - 1
            && (l.congested ==> l.queue != [])
            && (l.connected <==> l.fdOpen)
  {
    RunKeepsInv(run);
  }

  lemma RunKeepsInv(run: seq<Event>)
    ensures Inv(Runs.Exec(Next, Init(), run))
  {
    forall l, e | Inv(l) ensures Inv(Next(l, e)) { StepKeepsInv(l, e); }
    AnyAlong(Init(), run);
    Runs.InvariantAlong(Next, Any, Inv, Init(), run);
  }

  lemma {:induction false} AnyAlong(l: Link, run: seq<Event>)
    ensures Runs.Along(Next, Any, l, run)
    decreases |run|
  {
    if run != [] { AnyAlong(Next(l, run[0]), run[1..]); }
  }

  /** A drain sends a prefix of the queue in order and stops at the first answer that is not
      `sent`; the message that stopped it stays at the head. */
  lemma {:induction false} DrainSendsPrefix(l: Link, kernel: nat -> Outcome, k: nat) returns (n: nat)
    requires l.fdOpen
    ensures n <= |l.queue| && forall i :: k <= i < k + n ==> kernel(i) == Sent
    ensures n < |l.queue| ==> kernel(k + n) != Sent
    ensures var d := Drain(l, kernel, k);
            && d.queue == l.queue[n..] && d.sent == l.sent + l.queue[..n] && d.onLink == l.onLink + l.queue[..n]
            && (d.fdOpen <==> n == |l.queue| || kernel(k + n) == WouldBlock)
            && (d.congested <==> l.congested && d.queue != [] && d.fdOpen)
            && d.connected == (l.connected && d.fdOpen) && d.accepted == l.accepted
    decreases |l.queue|
  {
    DrainUnfolds(l, kernel, k);
    hide Drain;
    n := 0;
    if l.queue != [] && kernel(k) == Sent {
      var next := Popped(l);
      var rest := DrainSendsPrefix(next, kernel, k + 1);
      n := rest + 1;
      assert l.queue[..n] == [l.queue[0]] + next.queue[..rest];
    }
  }

  // ---------- The first message of a link ----------

  // The event does not set up another link.
  predicate SameLink(l: Link, e: Event) {
    !e.Promoted? && (e.Accepted? ==> l.fdOpen || !e.env.usablePath || !e.env.connects)
  }

  // What an event of the same link adds to the queue.
  function Added(l: Link, e: Event): seq<Msg> {
    if e.Accepted? && Accept(l, e.m, e.env).1 == Ok then [e.m] else []
  }

  function AddedAlong(l: Link, run: seq<Event>): seq<Msg>
    decreases |run|
  {
    if run == [] then [] else Added(l, run[0]) + AddedAlong(Next(l, run[0]), run[1..])
  }

  lemma {:induction false} DrainMovesAlong(l: Link, kernel: nat -> Outcome, k: nat)
    ensures var d := Drain(l, kernel, k); d.onLink + d.queue == l.onLink + l.queue && l.onLink <= d.onLink
    decreases |l.queue|
  {
    DrainUnfolds(l, kernel, k);
    hide Drain;
    if l.queue != [] && Answer(l, kernel, k).Sent? {
      DrainMovesAlong(Popped(l), kernel, k + 1);
      assert l.queue == [l.queue[0]] + l.queue[1..];
      assert Popped(l).onLink + Popped(l).queue == l.onLink + l.queue;
    }
  }

  lemma StepMovesAlong(l: Link, e: Event)
    requires SameLink(l, e)
    ensures var n := Next(l, e); n.onLink + n.queue == l.onLink + l.queue + Added(l, e)
  {
    if e.Drained? { DrainMovesAlong(l, e.kernel, 0); }
    if e.Accepted? { assert l.onLink + l.queue + [e.m] == l.onLink + (l.queue + [e.m]); }
  }

  /** Within one link, what has gone out on it followed by the queue is what the link started with and
      what was admitted since, in order. */
  lemma {:induction false} LinkSendsInOrder(l: Link, run: seq<Event>)
    requires Runs.Along(Next, SameLink, l, run)
    ensures var t := Runs.Exec(Next, l, run); t.onLink + t.queue == l.onLink + l.queue + AddedAlong(l, run)
    decreases |run|
  {
    if run != [] {
      StepMovesAlong(l, run[0]);
      LinkSendsInOrder(Next(l, run[0]), run[1..]);
    }
  }

  predicate Mentions(run: seq<Event>, m: Msg) { exists i :: 0 <= i < |run| && run[i].Accepted? && run[i].m == m }

  lemma {:induction false} AddedIsMentioned(l: Link, run: seq<Event>, m: Msg)
    requires m in AddedAlong(l, run)
    ensures Mentions(run, m)
    decreases |run|
  {
    if m in Added(l, run[0]) {
      assert run[0].m == m;
    } else {
      AddedIsMentioned(Next(l, run[0]), run[1..], m);
      var i :| 0 <= i < |run[1..]| && run[1..][i].Accepted? && run[1..][i].m == m;
      assert run[i + 1].m == m;
    }
  }

  // The HELLO of a new link is a buffer of its own.
  predicate FreshHello(l: Link, hello: Option<Msg>, run: seq<Event>) {
    hello.Some? ==> hello.value !in l.queue && !Mentions(run, hello.value)
  }

  /** HELLO is meant to be the first message of a connection. For every kernel and every run until the
      next link is set up: if anything has gone out on the link, its HELLO went first if and only if
      nothing was queued when the link was set up and a buffer for the HELLO was available. */
  lemma HelloIsFirstIff(l: Link, hello: Option<Msg>, run: seq<Event>)
    requires FreshHello(l, hello, run) && Runs.Along(Next, SameLink, Connect(l, hello), run)
    requires Runs.Exec(Next, Connect(l, hello), run).onLink != []
    ensures var t := Runs.Exec(Next, Connect(l, hello), run);
            hello.Some? && t.onLink[0] == hello.value <==> l.queue == [] && hello.Some?
  {
    var c, t := Connect(l, hello), Runs.Exec(Next, Connect(l, hello), run);
    LinkSendsInOrder(c, run);
    assert t.onLink[0] == (t.onLink + t.queue)[0] == (c.queue + AddedAlong(c, run))[0];
    if l.queue == [] {
      assert hello.Some? ==> c.queue[0] == hello.value;
    } else {
      assert c.queue[0] == l.queue[0] && l.queue[0] in l.queue;
    }
  }

  function Kernel(sends: nat, last: Outcome): nat -> Outcome { (k: nat) => if k < sends then Sent else last }

  function Connecting(hello: Option<Msg>): Env { Env(true, true, hello, Kernel(0, WouldBlock)) }

  // A link with one message left over; its HELLO has gone out on the last link.
  lemma FirstLinkFails()
    ensures var l := Next(Next(Init(), Accepted(Data(1), Connecting(Some(Hello(0))))), Drained(Kernel(1, LinkFailure)));
            l.queue == [Data(1)] && !l.fdOpen && !l.connected
  {
    var l := Next(Init(), Accepted(Data(1), Connecting(Some(Hello(0)))));
    assert l.queue == [Hello(0), Data(1)] && l.fdOpen;
    DrainUnfolds(l, Kernel(1, LinkFailure), 0);
    DrainUnfolds(Popped(l), Kernel(1, LinkFailure), 1);
  }

  lemma DrainThree(l: Link, a: Msg, b: Msg, c: Msg, last: Outcome)
    requires l.queue == [a, b, c] && l.onLink == [] && l.fdOpen
    ensures Drain(l, Kernel(3, last), 0).onLink == [a, b, c]
  {
    var p1 := Popped(l);
    var p2 := Popped(p1);
    var p3 := Popped(p2);
    DrainUnfolds(l, Kernel(3, last), 0);
    DrainUnfolds(p1, Kernel(3, last), 1);
    DrainUnfolds(p2, Kernel(3, last), 2);
    DrainUnfolds(p3, Kernel(3, last), 3);
    assert p3.queue == [] && p3.onLink == [a, b, c];
  }

  /** A run in which it is not: the first link fails after its HELLO, and the message left behind goes
      out on the next link before that link's HELLO. */
  lemma LeftoverGoesFirst()
    ensures var run := [Accepted(Data(1), Connecting(Some(Hello(0)))), Drained(Kernel(1, LinkFailure)),
                        Accepted(Data(2), Connecting(Some(Hello(3)))), Drained(Kernel(3, WouldBlock))];
            Runs.Exec(Next, Init(), run).onLink == [Data(1), Hello(3), Data(2)]
  {
    var e1, e2 := Accepted(Data(1), Connecting(Some(Hello(0)))), Drained(Kernel(1, LinkFailure));
    var e3, e4 := Accepted(Data(2), Connecting(Some(Hello(3)))), Drained(Kernel(3, WouldBlock));
    FirstLinkFails();
    hide Drain, Init;
    var l2 := Next(Next(Init(), e1), e2);
    var l3 := Next(l2, e3);
    assert l3.queue == [Data(1), Hello(3), Data(2)] && l3.onLink == [] && l3.fdOpen;
    DrainThree(l3, Data(1), Hello(3), Data(2), WouldBlock);
    Runs.Four(Next, Init(), e1, e2, e3, e4);
  }

  /** Another: no buffer for the HELLO, so data goes out first on an empty queue. */
  lemma MissingHelloIsSkipped()
    ensures var run := [Accepted(Data(1), Connecting(None)), Drained(Kernel(1, WouldBlock))];
            Runs.Exec(Next, Init(), run).onLink == [Data(1)]
  {
    var a, d := Accepted(Data(1), Connecting(None)), Drained(Kernel(1, WouldBlock));
    var l1 := Next(Init(), a);
    assert l1.queue == [Data(1)] && l1.fdOpen && l1.onLink == [];
    DrainUnfolds(l1, Kernel(1, WouldBlock), 0);
    DrainUnfolds(Popped(l1), Kernel(1, WouldBlock), 1);
    assert Next(l1, d).onLink == [Data(1)];
    hide Drain, Next;
    assert [a, d][1..] == [d] && [d][1..] == [];
    assert Runs.Exec(Next, l1, [d]) == Next(l1, d);
  }

  /** Admission of data, after any run, with HELLOs of any number of reconnects in the queue: refused
      with Busy exactly on a connected link above the high watermark; the ring-full branch behind that
      test is never taken; and only what is not refused joins the accepted messages. */
  lemma DataIsRefusedIff(run: seq<Event>, m: Msg, env: Env)
    ensures var l := Runs.Exec(Next, Init(), run);
            var c, (a, status) := Reconnected(l, env), Accept(l, m, env);
            && (status == Err <==> !l.connected && !(env.usablePath && env.connects))
            && (status == Busy <==> c.connected && |c.queue| > 900)
            && (status == Busy ==> a == c.(congested := true)) && (status == Err ==> a == l)
            && (status == Ok ==> a.queue == c.queue + [m] && a.congested == c.congested)
            && !(c.connected && |c.queue| <= HIGH_WATERMARK && RingFull(c))
            && (status == Ok ==> |a.queue| <= Ring.SIZE - 1 && a.accepted == c.accepted + [m])
            && (status != Ok ==> a.accepted == c.accepted)
            && Enqueue(l, m, env).0.accepted == a.accepted
  {
    RunKeepsInv(run);
    var l := Runs.Exec(Next, Init(), run);
    ConnectKeepsInv(l, env.hello);
    AppendKeepsInv(Reconnected(l, env), m);
    if Accept(l, m, env).1 == Ok { DrainKeepsInv(Accept(l, m, env).0, env.kernel, 0); }
  }

  /** When a caller reconnects, and what the new link starts with: exactly on a closed link with a usable
      path, if socket and connect succeed; then nothing has gone out on it, it is not congested, and the
      messages left over, with the HELLO behind them if there is a buffer and a slot, wait in the queue. */
  lemma ReconnectIff(run: seq<Event>, env: Env)
    ensures var l := Runs.Exec(Next, Init(), run);
            var c := Reconnected(l, env);
            if !l.connected && env.usablePath && env.connects
            then c.connected && c.fdOpen && !c.congested && c.onLink == [] && c.sent == l.sent
                 && c.queue == l.queue + (if env.hello.Some? && |l.queue| < 1023 then [env.hello.value] else [])
            else c == l
  {
    RunKeepsInv(run);
  }

  lemma ClosedStep(l: Link, e: Event)
    requires !l.connected && !l.fdOpen && SameLink(l, e)
    ensures var n := Next(l, e); !n.connected && !n.fdOpen && n.sent == l.sent && n.queue == l.queue && n.accepted == l.accepted
  {
    if e.Drained? { DrainUnfolds(l, e.kernel, 0); }
  }

  /** A closed link sends nothing and accepts nothing until the next one is set up, and loses nothing. */
  lemma {:induction false} ClosedStays(l: Link, run: seq<Event>)
    requires !l.connected && !l.fdOpen && Runs.Along(Next, SameLink, l, run)
    ensures var t := Runs.Exec(Next, l, run);
            !t.connected && !t.fdOpen && t.sent == l.sent && t.queue == l.queue && t.accepted == l.accepted
    decreases |run|
  {
    hide Next, SameLink;
    if run != [] {
      ClosedStep(l, run[0]);
      ClosedStays(Next(l, run[0]), run[1..]);
    }
  }

  /** When the peer closes, the link is closed and keeps its queue; when a passive connection says HELLO, it
      admits data as long as no more than 900 messages are queued. */
  lemma PeerDecides(l: Link, run: seq<Event>, m: Msg, env: Env)
    requires Runs.Along(Next, SameLink, Next(l, PeerClosed), run)
    ensures var t := Runs.Exec(Next, Next(l, PeerClosed), run); t.sent == l.sent && t.queue == l.queue && !t.connected
    ensures Accept(Next(l, Promoted), m, env).1 == (if |l.queue| <= 900 then Ok else Busy)
  {
    ClosedStays(Next(l, PeerClosed), run);
  }

  // ---------- Reference counts ----------

  function Count(count: map<Msg, nat>, m: Msg): nat { if m in count then count[m] else 0 }

  // Every queued slot owns a reference of its buffer.
  ghost predicate Owned(count: map<Msg, nat>, queue: seq<Msg>) {
    forall m :: multiset(queue)[m] <= Count(count, m)
  }

  /** The references that do not belong to the queue are the same before and after: what the queue
      gained or lost in slots, the counts gained or lost. */
  ghost predicate SameElsewhere(count0: map<Msg, nat>, queue0: seq<Msg>, count1: map<Msg, nat>, queue1: seq<Msg>) {
    forall m :: Count(count1, m) - multiset(queue1)[m] == Count(count0, m) - multiset(queue0)[m]
  }

  lemma OwnedStays(count0: map<Msg, nat>, queue0: seq<Msg>, count1: map<Msg, nat>, queue1: seq<Msg>)
    requires Owned(count0, queue0) && SameElsewhere(count0, queue0, count1, queue1)
    ensures Owned(count1, queue1)
  {
    forall m ensures multiset(queue1)[m] <= Count(count1, m) {
      assert multiset(queue0)[m] <= Count(count0, m);
    }
  }

  lemma SameElsewhereRefl(count: map<Msg, nat>, queue: seq<Msg>)
    ensures SameElsewhere(count, queue, count, queue)
  {}

  lemma SameElsewhereTrans(c0: map<Msg, nat>, q0: seq<Msg>, c1: map<Msg, nat>, q1: seq<Msg>, c2: map<Msg, nat>, q2: seq<Msg>)
    requires SameElsewhere(c0, q0, c1, q1) && SameElsewhere(c1, q1, c2, q2)
    ensures SameElsewhere(c0, q0, c2, q2)
  {
    forall m ensures Count(c2, m) - multiset(q2)[m] == Count(c0, m) - multiset(q0)[m] {
      assert Count(c1, m) - multiset(q1)[m] == Count(c0, m) - multiset(q0)[m];
    }
  }

  lemma HeadIsOwned(count: map<Msg, nat>, queue: seq<Msg>)
    requires Owned(count, queue) && queue != []
    ensures Count(count, queue[0]) > 0
  {
    assert queue[0] in multiset(queue);
  }

  lemma PushBalances(count: map<Msg, nat>, queue: seq<Msg>, m: Msg)
    ensures SameElsewhere(count, queue, count[m := Count(count, m) + 1], queue + [m])
  {}

  lemma PopBalances(count: map<Msg, nat>, queue: seq<Msg>)
    requires queue != [] && Count(count, queue[0]) > 0
    ensures SameElsewhere(count, queue, count[queue[0] := Count(count, queue[0]) - 1], queue[1..])
  {
    assert queue == [queue[0]] + queue[1..];
  }

  // A reference taken and dropped again around an append.
  lemma TakeAppendDrop(count: map<Msg, nat>, queue: seq<Msg>, m: Msg)
    ensures var c1 := count[m := Count(count, m) + 1];
            var c2 := c1[m := Count(c1, m) + 1];
            SameElsewhere(count, queue, c2[m := Count(c2, m) - 1], queue + [m])
            && SameElsewhere(count, queue, c1[m := Count(c1, m) - 1], queue)
  {}

  // ---------- The connection object ----------

  // Reference counts of the buffers, shared with the rest of the process.
  class RefCounts {
    var count: map<Msg, nat>

    method Retain(m: Msg)
      modifies this
      ensures count == old(count)[m := Count(old(count), m) + 1]
    {
      count := count[m := Count(count, m) + 1];
    }

    method Release(m: Msg)
      requires Count(count, m) > 0
      modifies this
      ensures count == old(count)[m := Count(old(count), m) - 1]
    {
      count := count[m := Count(count, m) - 1];
    }
  }

  /** nos_ipc_conn_t. */
  class Conn {
    const refs: RefCounts
    const txQueue: array<Msg>
    var head: nat
    var tail: nat
    var fdOpen: bool
    var connected: bool
    var congested: bool
    ghost var accepted: seq<Msg>
    ghost var sent: seq<Msg>
    ghost var onLink: seq<Msg>

    // A new entry of the connection table: not connected, empty ring.
    constructor (refs: RefCounts)
      ensures Valid() && View() == Init() && this.refs == refs && fresh(txQueue)
    {
      this.refs := refs;
      txQueue := new Msg[Ring.SIZE](_ => Data(0));
      head, tail, fdOpen, connected, congested := 0, 0, false, false, false;
      accepted, sent, onLink := [], [], [];
    }

    ghost function Queue(): seq<Msg>
      reads this, txQueue
      requires Ring.Ok(txQueue[..], head, tail)
    {
      Ring.Contents(txQueue[..], head, tail)
    }

    ghost function View(): Link
      reads this, txQueue
      requires Ring.Ok(txQueue[..], head, tail)
    {
      Link(Queue(), fdOpen, connected, congested, accepted, sent, onLink)
    }

    ghost predicate Valid()
      reads this, txQueue, refs
    {
      Ring.Ok(txQueue[..], head, tail) && Inv(View()) && Owned(refs.count, Queue())
    }

    // Queue a buffer: retain it, store it, move the tail.
    method Push(m: Msg)
      requires Ring.Ok(txQueue[..], head, tail) && !Ring.Full(head, tail)
      modifies this`tail, this`accepted, txQueue, refs
      ensures Ring.Ok(txQueue[..], head, tail) && View() == Append(old(View()), m)
      ensures refs.count == old(refs.count)[m := Count(old(refs.count), m) + 1]
    {
      Ring.PushAppends(txQueue[..], head, tail, m);
      ghost var slots := txQueue[..];
      refs.Retain(m);
      txQueue[tail] := m;
      assert txQueue[..] == slots[tail := m];
      tail := Ring.Succ(tail);
      accepted := accepted + [m];
    }

    // The head was sent: release it and move on.
    method PopSent()
      requires Ring.Ok(txQueue[..], head, tail) && head != tail && Owned(refs.count, Queue())
      modifies this`head, this`sent, this`onLink, refs
      ensures Ring.Ok(txQueue[..], head, tail) && old(Queue()) != [] && View() == Popped(old(View()))
      ensures Ring.Used(head, tail) == old(Ring.Used(head, tail)) - 1
      ensures SameElsewhere(old(refs.count), old(Queue()), refs.count, Queue())
    {
      hide Owned, SameElsewhere;
      ghost var count, queue := refs.count, Queue();
      Ring.PopTakesFirst(txQueue[..], head, tail);
      Ring.UsedIsLength(txQueue[..], head, tail);
      HeadIsOwned(count, queue);
      PopBalances(count, queue);
      var m := txQueue[head];
      refs.Release(m);
      head := Ring.Succ(head);
      sent, onLink := sent + [m], onLink + [m];
      Ring.UsedIsLength(txQueue[..], head, tail);
    }

    // One turn of the send loop: offer the head to the kernel and act on the answer.
    method SendHead(kernel: nat -> Outcome, k: nat) returns (outcome: Outcome)
      requires Ring.Ok(txQueue[..], head, tail) && head != tail && Owned(refs.count, Queue())
      modifies this`head, this`sent, this`onLink, this`fdOpen, this`connected, this`congested, refs
      ensures Ring.Ok(txQueue[..], head, tail) && old(Queue()) != []
      ensures outcome == Answer(old(View()), kernel, k)
      ensures View() == match outcome
                        case Sent => Popped(old(View()))
                        case WouldBlock => old(View())
                        case LinkFailure => Fail(old(View()))
      ensures outcome.Sent? ==> Ring.Used(head, tail) == old(Ring.Used(head, tail)) - 1
      ensures SameElsewhere(old(refs.count), old(Queue()), refs.count, Queue()) && Owned(refs.count, Queue())
    {
      hide Owned, SameElsewhere, Ring.Contents;
      ghost var count, queue := refs.count, Queue();
      SameElsewhereRefl(count, queue);
      Ring.UsedIsLength(txQueue[..], head, tail);
      outcome := if fdOpen then kernel(k) else LinkFailure;
      match outcome {
        case Sent => PopSent();
        case WouldBlock =>
        case LinkFailure => fdOpen, connected, congested := false, false, false;
      }
      OwnedStays(count, queue, refs.count, Queue());
    }

    /** nos_ipc_process_tx. */
    method ProcessTx(kernel: nat -> Outcome)
      requires Valid()
      modifies this`head, this`sent, this`onLink, this`fdOpen, this`connected, this`congested, refs
      ensures Valid() && View() == Drain(old(View()), kernel, 0)
      ensures SameElsewhere(old(refs.count), old(Queue()), refs.count, Queue())
    {
      DrainKeepsInv(View(), kernel, 0);
      hide Inv, Drain, Ring.Contents, Owned, SameElsewhere;
      ghost var goal := Drain(View(), kernel, 0);
      ghost var count0, queue0 := refs.count, Queue();
      SameElsewhereRefl(count0, queue0);
      var k: nat := 0;
      while head != tail
        invariant Ring.Ok(txQueue[..], head, tail) && Drain(View(), kernel, k) == goal
        invariant Owned(refs.count, Queue()) && SameElsewhere(count0, queue0, refs.count, Queue())
        decreases Ring.Used(head, tail)
      {
        ghost var l, count := View(), refs.count;
        var outcome := SendHead(kernel, k);
        DrainUnfolds(l, kernel, k);
        SameElsewhereTrans(count0, queue0, count, l.queue, refs.count, Queue());
        if outcome != Sent { return; }
        k := k + 1;
      }
      DrainUnfolds(View(), kernel, k);
      Relieve();
    }

    // After a complete drain the occupancy is zero, below the low watermark.
    method Relieve()
      requires Ring.Ok(txQueue[..], head, tail) && head == tail
      modifies this`congested
      ensures Queue() == [] && View() == old(View()).(congested := false)
    {
      Ring.UsedIsLength(txQueue[..], head, tail);
      if congested && Ring.Used(head, tail) < LOW_WATERMARK { congested := false; }
    }

    /** nos_ipc_send_hello: a new buffer starts with the caller's reference, the slot takes one, the
        caller's is dropped again; on a full ring the HELLO is lost. */
    method SendHello(hello: Option<Msg>)
      requires Ring.Ok(txQueue[..], head, tail)
      modifies this`tail, this`accepted, txQueue, refs
      ensures Ring.Ok(txQueue[..], head, tail)
      ensures View() == if hello.Some? && |old(Queue())| < Ring.SIZE - 1 then Append(old(View()), hello.value)
                        else old(View())
      ensures SameElsewhere(old(refs.count), old(Queue()), refs.count, Queue())
    {
      hide Ring.Contents;
      SameElsewhereRefl(refs.count, Queue());
      if hello.None? { return; }
      Ring.UsedIsLength(txQueue[..], head, tail);
      TakeAppendDrop(refs.count, Queue(), hello.value);
      refs.Retain(hello.value);       // nos_buffer_alloc hands out one reference
      if !Ring.Full(head, tail) { Push(hello.value); }
      refs.Release(hello.value);
    }

    // The reconnect block of nos_ipc_send_enqueue_ex.
    method Reconnect(env: Env)
      requires Valid()
      modifies this, txQueue, refs
      ensures Valid() && View() == Reconnected(old(View()), env)
      ensures SameElsewhere(old(refs.count), old(Queue()), refs.count, Queue())
    {
      ConnectKeepsInv(View(), env.hello);
      hide Inv, Ring.Contents, Owned, SameElsewhere;
      ghost var count0, queue0 := refs.count, Queue();
      SameElsewhereRefl(count0, queue0);
      if !fdOpen && env.usablePath && env.connects {
        fdOpen, connected, congested, onLink := true, true, false, [];
        SendHello(env.hello);
      }
      OwnedStays(count0, queue0, refs.count, Queue());
    }

    /** nos_ipc_send_enqueue_ex. The ring-full test behind the watermark test is dead code. */
    method Send(m: Msg, env: Env) returns (status: Status)
      requires Valid()
      modifies this, txQueue, refs
      ensures Valid() && (View(), status) == Enqueue(old(View()), m, env)
      ensures SameElsewhere(old(refs.count), old(Queue()), refs.count, Queue())
    {
      ghost var count0, queue0 := refs.count, Queue();
      Reconnect(env);
      label AfterReconnect:
      ghost var c := View();
      status := Admit(m, env.kernel);
      SameElsewhereTrans(count0, queue0, old@AfterReconnect(refs.count), c.queue, refs.count, Queue());
    }

    // The rest of nos_ipc_send_enqueue_ex: admission, append, first attempt to send.
    method Admit(m: Msg, kernel: nat -> Outcome) returns (status: Status)
      requires Valid()
      modifies this, txQueue, refs
      ensures Valid()
      ensures var c := old(View());
              View() == if !c.connected then c
                        else if |c.queue| > HIGH_WATERMARK then c.(congested := true)
                        else Drain(Append(c, m), kernel, 0)
      ensures status == if !old(connected) then Err else if |old(Queue())| > HIGH_WATERMARK then Busy else Ok
      ensures SameElsewhere(old(refs.count), old(Queue()), refs.count, Queue())
    {
      Ring.UsedIsLength(txQueue[..], head, tail);
      ghost var c, count := View(), refs.count;
      AppendKeepsInv(c, m);
      CongestKeepsInv(c);
      hide Ring.Contents, Inv, Owned, SameElsewhere;
      SameElsewhereRefl(count, c.queue);
      if !connected { return Err; }
      if Ring.Used(head, tail) > HIGH_WATERMARK {
        congested := true;
        return Busy;
      }
      status := Busy;
      if Ring.Full(head, tail) {
        assert false;
      } else {
        Push(m);
        ghost var count1, queue1 := refs.count, Queue();
        PushBalances(count, c.queue, m);
        OwnedStays(count, c.queue, count1, queue1);
        ProcessTx(kernel);
        SameElsewhereTrans(count, c.queue, count1, queue1, refs.count, Queue());
        status := Ok;
      }
    }
  }
}
