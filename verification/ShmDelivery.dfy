/** A shared-memory message end to end: the sending call (nos_ipc_send_enqueue_shm), the drain of
    the receiving node (the SHM_EVENT branch of nos_ipc_recv_handler), the dispatch to a thread
    ring and the release by the worker. The block pool and the offset queue are the machines of
    ShmPool and ShmQueue at their own grain; threads of all kinds interleave freely.

    A buffer is named by its block: the C code queues the buffer's offset, a fixed distance
    behind the block's. `clients` counts, per block, the references in the hands of client code;
    the guards that read it, like those on the pool's `handles`, say that only an owner retains or
    releases. */
module ShmDelivery {
  import P = ShmPool
  import Q = ShmQueue
  import Ring
  import Runs
  import Wrapped

  type Tid = nat

  // Where a thread stands inside nos_ipc_send_enqueue_shm.
  datatype Send =
    | Quiet
    | Enqueuing(blk: nat)    // retained; inside nos_shm_mpsc_enqueue, CAS not yet won
    | Reserved               // CAS won: the reference now belongs to the queue entry
    | Refused(blk: nat)      // NOS_ERR_BUSY, about to take the retain back
    | Enqueued               // about to allocate and queue the wake event

  // Where the receiving node's management thread stands in the drain loop.
  datatype Drain =
    | Waiting
    | Dequeuing
    | Dispatching(blk: nat)  // dequeued, about to look up the service
    | Dispatched(blk: nat)   // about to release the queue's reference

  datatype Hand = Empty | Full(blk: nat)

  // A worker thread: its message ring, and the message it is handling.
  datatype Worker = Worker(ring: seq<nat>, hand: Hand)

  datatype Route = NoRoute | ToThread(w: Tid)

  datatype State = State(
    pool: P.State, queue: Q.State, sends: map<Tid, Send>, drain: Drain, events: nat,
    workers: map<Tid, Worker>, clients: map<nat, nat>)

  datatype Action =
    | PoolStep(pa: P.Action)              // allocation, and the rest of a last release
    | ClientRetain(blk: nat)
    | ClientRelease(t: Tid, blk: nat)
    | SendShm(p: Tid, blk: nat)           // retain and enter the enqueue
    | Produce(qa: Q.Action)
    | RollBack(p: Tid)
    | Notify(p: Tid, delivered: bool)
    | EventArrives
    | LoseEvent                           // received, but no buffer for it: discarded
    | Consume(qa: Q.Action)
    | Dispatch(route: Route)
    | DrainRelease(t: Tid)
    | TakeMsg(w: Tid)
    | WorkerRelease(w: Tid)

  function SendOf(s: State, p: Tid): Send { if p in s.sends then s.sends[p] else Quiet }

  function WorkerOf(s: State, w: Tid): Worker { if w in s.workers then s.workers[w] else Worker([], Empty) }

  // Somebody may retain or release b.
  predicate Owned(s: State, b: nat) { P.Get(s.pool.handles, b, 0) > 0 }

  function Clients(s: State, b: nat): nat { P.Get(s.clients, b, 0) }

  predicate PoolInternal(a: P.Action) { !a.Retain? && !a.Drop? }

  predicate ByProducer(a: Q.Action) { a.LoadTail? || a.LoadHead? || a.Cas? || a.Publish? }

  predicate ByConsumer(a: Q.Action) { a.ReadHead? || a.ReadTail? || a.ReadSlot? || a.ClearSlot? || a.AdvanceHead? }

  // ---------- The steps ----------

  // Storing the first count hands the block to the client that allocates.
  function PoolStepOf(s: State, a: P.Action): State {
    if !PoolInternal(a) then s
    else
      var n := s.(pool := P.Next(s.pool, a));
      if a.StoreRef? && P.At(s.pool, a.t).Popped?
      then n.(clients := s.clients[P.At(s.pool, a.t).blk := Clients(s, P.At(s.pool, a.t).blk) + 1])
      else n
  }

  function ClientRetainStep(s: State, b: nat): State {
    if Owned(s, b)
    then s.(pool := P.RetainStep(s.pool, b), clients := s.clients[b := Clients(s, b) + 1])
    else s
  }

  function ClientReleaseStep(s: State, t: Tid, b: nat): State {
    if Clients(s, b) > 0 && P.At(s.pool, t).Idle?
    then s.(pool := P.DropStep(s.pool, t, b), clients := s.clients[b := Clients(s, b) - 1])
    else s
  }

  function SendShmStep(s: State, p: Tid, b: nat): State {
    if SendOf(s, p).Quiet? && Owned(s, b)
    then s.(pool := P.RetainStep(s.pool, b), queue := Q.CallStep(s.queue, p, b), sends := s.sends[p := Enqueuing(b)])
    else s
  }

  // Where the sender is after its queue step, given where the queue machine has it.
  function AfterQueueStep(c: Send, pc: Q.Producer): Send {
    match c
    case Enqueuing(b) => if pc.Idle? then Refused(b) else if pc.Reserved? then Reserved else c
    case Reserved => if pc.Idle? then Enqueued else c
    case _ => c
  }

  function ProduceStep(s: State, a: Q.Action): State {
    if !ByProducer(a) then s
    else
      var q := Q.Next(s.queue, a);
      s.(queue := q, sends := s.sends[a.p := AfterQueueStep(SendOf(s, a.p), Q.Pc(q, a.p))])
  }

  function RollBackStep(s: State, p: Tid): State {
    var c := SendOf(s, p);
    if c.Refused? && P.At(s.pool, p).Idle?
    then s.(pool := P.DropStep(s.pool, p, c.blk), sends := s.sends[p := Quiet])
    else s
  }

  // The event may get lost: no buffer, no connection, or a congested one. The call returns NOS_OK.
  function NotifyStep(s: State, p: Tid, delivered: bool): State {
    if SendOf(s, p).Enqueued?
    then s.(sends := s.sends[p := Quiet], events := if delivered then s.events + 1 else s.events)
    else s
  }

  function EventArrivesStep(s: State): State {
    if s.drain.Waiting? && s.events > 0 then s.(drain := Dequeuing, events := s.events - 1) else s
  }

  // nos_ipc_recv_handler without a buffer: the packet is taken off the socket and dropped.
  function LoseEventStep(s: State): State {
    if s.drain.Waiting? && s.events > 0 then s.(events := s.events - 1) else s
  }

  // nos_shm_mpsc_dequeue: an empty queue ends the drain.
  function ConsumeStep(s: State, a: Q.Action): State {
    if !s.drain.Dequeuing? || !ByConsumer(a) then s
    else
      var q, c := Q.Next(s.queue, a), s.queue.consumer;
      s.(queue := q,
         drain := if a.AdvanceHead? && c.Cleared? then Dispatching(c.offset)
                  else if a.ReadTail? && c.HaveHead? && q.consumer.Resting? then Waiting
                  else Dequeuing)
  }

  // nos_service_msg_send: no entry, or a full ring, drops the message.
  function DispatchStep(s: State, route: Route): State {
    if !s.drain.Dispatching? then s
    else
      var b, n := s.drain.blk, s.(drain := Dispatched(s.drain.blk));
      if route.ToThread? && |WorkerOf(s, route.w).ring| < Ring.SIZE - 1
      then n.(pool := P.RetainStep(s.pool, b),
              workers := s.workers[route.w := WorkerOf(s, route.w).(ring := WorkerOf(s, route.w).ring + [b])])
      else n
  }

  function DrainReleaseStep(s: State, t: Tid): State {
    if s.drain.Dispatched? && P.At(s.pool, t).Idle?
    then s.(pool := P.DropStep(s.pool, t, s.drain.blk), drain := Dequeuing)
    else s
  }

  function TakeMsgStep(s: State, w: Tid): State {
    var k := WorkerOf(s, w);
    if k.hand.Empty? && k.ring != [] then s.(workers := s.workers[w := Worker(k.ring[1..], Full(k.ring[0]))]) else s
  }

  function WorkerReleaseStep(s: State, w: Tid): State {
    var k := WorkerOf(s, w);
    if k.hand.Full? && P.At(s.pool, w).Idle?
    then s.(pool := P.DropStep(s.pool, w, k.hand.blk), workers := s.workers[w := k.(hand := Empty)])
    else s
  }

  /** One step of one thread; an action whose thread is elsewhere in its code changes nothing. */
  function Next(s: State, a: Action): State {
    match a
    case PoolStep(pa) => PoolStepOf(s, pa)
    case ClientRetain(b) => ClientRetainStep(s, b)
    case ClientRelease(t, b) => ClientReleaseStep(s, t, b)
    case SendShm(p, b) => SendShmStep(s, p, b)
    case Produce(qa) => ProduceStep(s, qa)
    case RollBack(p) => RollBackStep(s, p)
    case Notify(p, delivered) => NotifyStep(s, p, delivered)
    case EventArrives => EventArrivesStep(s)
    case LoseEvent => LoseEventStep(s)
    case Consume(qa) => ConsumeStep(s, qa)
    case Dispatch(route) => DispatchStep(s, route)
    case DrainRelease(t) => DrainReleaseStep(s, t)
    case TakeMsg(w) => TakeMsgStep(s, w)
    case WorkerRelease(w) => WorkerReleaseStep(s, w)
  }

  /** The two hypotheses of the parts: no popped head is recycled between load and CAS, and no
      producer is overtaken by a lap of reservations. */
  predicate Fair(s: State, a: Action) {
    && (a.PoolStep? ==> !P.Recycled(s.pool, a.pa))
    && (a.Produce? ==> !Q.Overtaken(s.queue, a.qa))
  }

  // ---------- Counting references ----------

  ghost function Pick<T>(m: map<Tid, T>): Tid
    requires m != map[]
    ensures Pick(m) in m
  {
    var k :| k in m; k
  }

  // References on b over all threads of a table.
  ghost function Sum<T>(m: map<Tid, T>, hold: T -> multiset<nat>, b: nat): nat
    decreases m.Keys
  {
    if m == map[] then 0 else hold(m[Pick(m)])[b] + Sum(m - {Pick(m)}, hold, b)
  }

  lemma {:induction false} SumSplit<T>(m: map<Tid, T>, hold: T -> multiset<nat>, b: nat, k: Tid)
    requires k in m
    ensures Sum(m, hold, b) == hold(m[k])[b] + Sum(m - {k}, hold, b)
    decreases m.Keys
  {
    var c := Pick(m);
    if c != k {
      SumSplit(m - {c}, hold, b, k);
      SumSplit(m - {k}, hold, b, c);
      assert (m - {c}) - {k} == (m - {k}) - {c};
    }
  }

  lemma SumPut<T>(m: map<Tid, T>, hold: T -> multiset<nat>, b: nat, k: Tid, x: T)
    ensures Sum(m[k := x], hold, b) + (if k in m then hold(m[k])[b] else 0) == Sum(m, hold, b) + hold(x)[b]
  {
    SumSplit(m[k := x], hold, b, k);
    assert m[k := x] - {k} == m - {k};
    if k in m { SumSplit(m, hold, b, k); } else { assert m - {k} == m; }
  }

  function SendHold(c: Send): multiset<nat> {
    match c
    case Enqueuing(b) => multiset{b}
    case Refused(b) => multiset{b}
    case _ => multiset{}
  }

  function DrainHold(d: Drain): multiset<nat> {
    match d
    case Dispatching(b) => multiset{b}
    case Dispatched(b) => multiset{b}
    case _ => multiset{}
  }

  function WorkerHold(k: Worker): multiset<nat> {
    multiset(k.ring) + if k.hand.Full? then multiset{k.hand.blk} else multiset{}
  }

  // What the queue holds, the entry of a producer that has yet to publish included.
  function Queued(q: Q.State): multiset<nat> {
    if |q.taken| <= |q.accepted| then multiset(q.accepted[|q.taken|..]) else multiset{}
  }

  /** All references on b: client code, senders between retain and enqueue or rolling back, queue
      entries, the message being dispatched, thread rings and messages being handled. */
  ghost function Total(s: State, b: nat): nat {
    Clients(s, b) + Sum(s.sends, SendHold, b) + Queued(s.queue)[b] + DrainHold(s.drain)[b]
    + Sum(s.workers, WorkerHold, b)
  }

  ghost predicate Ledger(s: State) { forall b: nat :: Total(s, b) == P.Get(s.pool.handles, b, 0) }

  // The sender and the queue machine agree on where the call is.
  predicate InStep(c: Send, pc: Q.Producer) {
    match c
    case Enqueuing(b) => (pc.Retry? || pc.Loaded? || pc.Checked?) && pc.offset == b
    case Reserved => pc.Reserved?
    case _ => pc.Idle?
  }

  ghost predicate Senders(s: State) { forall p: Tid :: InStep(SendOf(s, p), Q.Pc(s.queue, p)) }

  ghost predicate Inv(s: State) {
    P.Inv(s.pool) && Q.Inv(s.queue) && Senders(s) && Ledger(s)
  }

  // ---------- What the parts do ----------

  lemma OwnedIsABlock(s: State, b: nat)
    requires Inv(s) && Owned(s, b)
    ensures b != 0 && b in s.pool.refs && s.pool.refs[b] == s.pool.handles[b]
  {
    assert P.BlockOk(s.pool, b);
  }

  lemma RetainCounts(p: P.State, b: nat)
    requires P.Get(p.handles, b, 0) > 0
    ensures forall x: nat ::
              P.Get(P.RetainStep(p, b).handles, x, 0) == P.Get(p.handles, x, 0) + if x == b then 1 else 0
  {}

  lemma DropCounts(p: P.State, t: Tid, b: nat)
    requires P.Inv(p) && P.Get(p.handles, b, 0) > 0 && P.At(p, t).Idle?
    ensures forall x: nat ::
              P.Get(P.DropStep(p, t, b).handles, x, 0) + (if x == b then 1 else 0) == P.Get(p.handles, x, 0)
  {
    hide P.FreeList, P.Threads;
    assert P.BlockOk(p, b);
  }

  lemma InternalCounts(p: P.State, a: P.Action)
    requires P.Blocks(p) && P.Threads(p) && PoolInternal(a)
    ensures forall x: nat ::
              P.Get(P.Next(p, a).handles, x, 0) == P.Get(p.handles, x, 0) +
                (if a.StoreRef? && P.At(p, a.t).Popped? && P.At(p, a.t).blk == x then 1 else 0)
  {
    if a.StoreRef? && P.At(p, a.t).Popped? { assert P.ThreadOk(p, a.t) && P.BlockOk(p, P.At(p, a.t).blk); }
  }

  predicate Reserves(q: Q.State, n: Q.State, p: Tid) { Q.Pc(n, p).Reserved? && !Q.Pc(q, p).Reserved? }

  lemma OthersStay(q: Q.State, a: Q.Action)
    requires ByProducer(a)
    ensures var n := Q.Next(q, a);
            && (forall r :: r != a.p ==> Q.Pc(n, r) == Q.Pc(q, r))
            && n.taken == q.taken && n.consumer == q.consumer
            && n.accepted == if Reserves(q, n, a.p) then q.accepted + [Q.Pc(q, a.p).offset] else q.accepted
  {}

  lemma ProducerEffect(q: Q.State, a: Q.Action, c: Send)
    requires ByProducer(a) && InStep(c, Q.Pc(q, a.p))
    ensures var n := Q.Next(q, a);
            var d := AfterQueueStep(c, Q.Pc(n, a.p));
            && InStep(d, Q.Pc(n, a.p))
            && (Reserves(q, n, a.p) ==> c.Enqueuing? && d.Reserved? && Q.Pc(q, a.p).offset == c.blk)
            && (!Reserves(q, n, a.p) ==> SendHold(d) == SendHold(c))
            && (c.Reserved? ==> d.Reserved? || d.Enqueued?)
            && (c.Enqueued? ==> d.Enqueued?)
  {}

  lemma TakenFits(q: Q.State)
    requires Q.Inv(q)
    ensures |q.taken| <= |q.accepted|
  {}

  // The reference moves from the sender to the queue entry by the winning CAS, and not before.
  lemma ProducerMoves(q: Q.State, a: Q.Action, c: Send, x: nat)
    requires Q.Inv(q) && ByProducer(a) && InStep(c, Q.Pc(q, a.p))
    ensures var n := Q.Next(q, a);
            SendHold(c)[x] + Queued(q)[x] == SendHold(AfterQueueStep(c, Q.Pc(n, a.p)))[x] + Queued(n)[x]
  {
    hide Q.Next, Q.Inv;
    var n := Q.Next(q, a);
    TakenFits(q);
    OthersStay(q, a);
    ProducerEffect(q, a, c);
    if Reserves(q, n, a.p) { assert n.accepted[|q.taken|..] == q.accepted[|q.taken|..] + [c.blk]; }
  }

  lemma ConsumerStays(q: Q.State, a: Q.Action)
    requires ByConsumer(a)
    ensures var n := Q.Next(q, a);
            && n.producers == q.producers && n.accepted == q.accepted
            && n.taken == (if a.AdvanceHead? && q.consumer.Cleared? then q.taken + [q.consumer.offset] else q.taken)
            && (a.ReadTail? && q.consumer.HaveHead? && n.consumer.Resting? ==> q.consumer.head == q.tail)
  {}

  lemma ConsumerMoves(q: Q.State, a: Q.Action)
    requires Q.Inv(q) && ByConsumer(a)
    ensures var n := Q.Next(q, a);
            Queued(q) == Queued(n) + if a.AdvanceHead? && q.consumer.Cleared? then multiset{q.consumer.offset} else multiset{}
  {
    ConsumerStays(q, a);
    hide Q.Next;
    var h := |q.taken|;
    if a.AdvanceHead? && q.consumer.Cleared? {
      assert q.accepted[h..] == [q.accepted[h]] + q.accepted[h + 1..];
    }
  }

  lemma EmptyMeansTaken(q: Q.State, a: Q.Action)
    requires Q.Counters(q) && Q.ConsumerOk(q)
    requires a.ReadTail? && q.consumer.HaveHead? && Q.Next(q, a).consumer.Resting?
    ensures |q.accepted| == |q.taken|
  {
    ConsumerStays(q, a);
    hide Q.Next;
    Wrapped.SlotInjective(|q.taken|, |q.accepted|, Q.SIZE);
  }

  lemma QueueKeepsInv(q: Q.State, a: Q.Action)
    requires Q.Inv(q) && !Q.Overtaken(q, a)
    ensures Q.Inv(Q.Next(q, a))
  {
    if Q.ReservesWhenFull(q, a) { Q.FullReservationIsOvertaken(q, a); }
    Q.StepKeepsInvIff(q, a);
  }

  lemma CallIsSound(q: Q.State, p: Tid, b: nat)
    requires Q.Inv(q) && Q.Pc(q, p).Idle? && b != 0
    ensures var n := Q.CallStep(q, p, b);
            && Q.Inv(n) && Q.Pc(n, p) == Q.Retry(b) && Queued(n) == Queued(q)
            && (forall r :: r != p ==> Q.Pc(n, r) == Q.Pc(q, r))
  {
    QueueKeepsInv(q, Q.Call(p, b));
  }

  lemma PoolKeepsInv(p: P.State, a: P.Action)
    requires P.Inv(p) && !P.Recycled(p, a)
    ensures P.Inv(P.Next(p, a))
  {
    if P.StalePop(p, a) { P.StalePopIsRecycled(p, a); }
    P.StepKeepsInv(p, a);
  }

  // ---------- Every step keeps the ledger ----------

  // A reference that somebody holds is counted, so it may be dropped.
  lemma HeldIsOwned(s: State, b: nat)
    requires Ledger(s) && Total(s, b) > 0
    ensures Owned(s, b)
  {}

  lemma SenderHolds(s: State, p: Tid, b: nat)
    requires SendHold(SendOf(s, p))[b] > 0
    ensures Total(s, b) > 0
  {
    SumSplit(s.sends, SendHold, b, p);
  }

  lemma WorkerHolds(s: State, w: Tid, b: nat)
    requires WorkerHold(WorkerOf(s, w))[b] > 0
    ensures Total(s, b) > 0
  {
    SumSplit(s.workers, WorkerHold, b, w);
  }

  lemma PoolRetains(p: P.State, b: nat)
    requires P.Inv(p) && P.Get(p.handles, b, 0) > 0
    ensures P.Inv(P.RetainStep(p, b))
    ensures forall x: nat ::
              P.Get(P.RetainStep(p, b).handles, x, 0) == P.Get(p.handles, x, 0) + if x == b then 1 else 0
  {
    hide P.Inv, P.RetainStep;
    PoolKeepsInv(p, P.Retain(b));
    RetainCounts(p, b);
  }

  lemma PoolDrops(p: P.State, t: Tid, b: nat)
    requires P.Inv(p) && P.Get(p.handles, b, 0) > 0 && P.At(p, t).Idle?
    ensures P.Inv(P.DropStep(p, t, b))
    ensures forall x: nat ::
              P.Get(P.DropStep(p, t, b).handles, x, 0) + (if x == b then 1 else 0) == P.Get(p.handles, x, 0)
  {
    hide P.Inv, P.DropStep;
    PoolKeepsInv(p, P.Drop(t, b));
    DropCounts(p, t, b);
  }

  lemma RetainIsSound(s: State, b: nat)
    requires Inv(s) && Owned(s, b)
    ensures P.Inv(P.RetainStep(s.pool, b))
    ensures forall x: nat ::
              P.Get(P.RetainStep(s.pool, b).handles, x, 0) == Total(s, x) + if x == b then 1 else 0
  {
    hide P.Inv, P.RetainStep, Q.Inv, Senders, Sum, Queued;
    PoolRetains(s.pool, b);
    forall x: nat ensures P.Get(P.RetainStep(s.pool, b).handles, x, 0) == Total(s, x) + if x == b then 1 else 0 {
      assert Total(s, x) == P.Get(s.pool.handles, x, 0);
    }
  }

  lemma DropIsSound(s: State, t: Tid, b: nat)
    requires Inv(s) && Total(s, b) > 0 && P.At(s.pool, t).Idle?
    ensures P.Inv(P.DropStep(s.pool, t, b))
    ensures forall x: nat ::
              P.Get(P.DropStep(s.pool, t, b).handles, x, 0) + (if x == b then 1 else 0) == Total(s, x)
  {
    hide P.Inv, P.DropStep, Q.Inv, Senders, Sum, Queued;
    HeldIsOwned(s, b);
    PoolDrops(s.pool, t, b);
    forall x: nat ensures P.Get(P.DropStep(s.pool, t, b).handles, x, 0) + (if x == b then 1 else 0) == Total(s, x) {
      assert Total(s, x) == P.Get(s.pool.handles, x, 0);
    }
  }

  lemma InternalIsSound(s: State, a: P.Action)
    requires Inv(s) && PoolInternal(a) && !P.Recycled(s.pool, a)
    ensures P.Inv(P.Next(s.pool, a))
    ensures forall x: nat ::
              P.Get(P.Next(s.pool, a).handles, x, 0) == Total(s, x) +
                (if a.StoreRef? && P.At(s.pool, a.t).Popped? && P.At(s.pool, a.t).blk == x then 1 else 0)
  {
    PoolKeepsInv(s.pool, a);
    InternalCounts(s.pool, a);
  }

  // A step that leaves the senders and the queue alone.
  lemma SendersStay(s: State, n: State)
    requires Senders(s) && n.sends == s.sends && n.queue.producers == s.queue.producers
    ensures Senders(n)
  {
    forall r: Tid ensures InStep(SendOf(n, r), Q.Pc(n.queue, r)) { assert InStep(SendOf(s, r), Q.Pc(s.queue, r)); }
  }

  lemma PoolStepKeepsInv(s: State, a: P.Action)
    requires Inv(s) && !P.Recycled(s.pool, a)
    ensures Inv(PoolStepOf(s, a))
  {
    hide P.Inv, P.Next, P.RetainStep, P.DropStep, Q.Inv, Q.Next, Sum, Queued;
    if PoolInternal(a) {
      var n := PoolStepOf(s, a);
      InternalIsSound(s, a);
      forall x: nat ensures Total(n, x) == P.Get(n.pool.handles, x, 0) { assert Total(s, x) == P.Get(s.pool.handles, x, 0); }
      SendersStay(s, n);
    }
  }

  lemma ClientRetainKeepsInv(s: State, b: nat)
    requires Inv(s)
    ensures Inv(ClientRetainStep(s, b))
  {
    hide P.Inv, P.Next, P.RetainStep, P.DropStep, Q.Inv, Q.Next, Sum, Queued;
    if Owned(s, b) {
      var n := ClientRetainStep(s, b);
      RetainIsSound(s, b);
      forall x: nat ensures Total(n, x) == P.Get(n.pool.handles, x, 0) { assert Total(s, x) == P.Get(s.pool.handles, x, 0); }
      SendersStay(s, n);
    }
  }

  lemma ClientReleaseKeepsInv(s: State, t: Tid, b: nat)
    requires Inv(s)
    ensures Inv(ClientReleaseStep(s, t, b))
  {
    hide P.Inv, P.Next, P.RetainStep, P.DropStep, Q.Inv, Q.Next, Sum, Queued;
    if Clients(s, b) > 0 && P.At(s.pool, t).Idle? {
      var n := ClientReleaseStep(s, t, b);
      DropIsSound(s, t, b);
      forall x: nat ensures Total(n, x) == P.Get(n.pool.handles, x, 0) { assert Total(s, x) == P.Get(s.pool.handles, x, 0); }
      SendersStay(s, n);
    }
  }

  lemma SendShmKeepsInv(s: State, p: Tid, b: nat)
    requires Inv(s)
    ensures Inv(SendShmStep(s, p, b))
  {
    hide P.Inv, P.RetainStep, Q.Inv, Q.CallStep, Sum, Queued;
    if SendOf(s, p).Quiet? && Owned(s, b) {
      var n := SendShmStep(s, p, b);
      OwnedIsABlock(s, b);
      RetainIsSound(s, b);
      assert InStep(SendOf(s, p), Q.Pc(s.queue, p));
      CallIsSound(s.queue, p, b);
      forall x: nat ensures Total(n, x) == P.Get(n.pool.handles, x, 0) { SumPut(s.sends, SendHold, x, p, Enqueuing(b)); }
      forall r: Tid ensures InStep(SendOf(n, r), Q.Pc(n.queue, r)) { assert InStep(SendOf(s, r), Q.Pc(s.queue, r)); }
    }
  }

  lemma ProduceKeepsInv(s: State, a: Q.Action)
    requires Inv(s) && !Q.Overtaken(s.queue, a)
    ensures Inv(ProduceStep(s, a))
  {
    hide P.Inv, P.Next, P.RetainStep, P.DropStep, Q.Inv, Q.Next, Sum, Queued;
    if ByProducer(a) {
      var n, c := ProduceStep(s, a), SendOf(s, a.p);
      assert InStep(c, Q.Pc(s.queue, a.p));
      QueueKeepsInv(s.queue, a);
      OthersStay(s.queue, a);
      ProducerEffect(s.queue, a, c);
      forall x: nat ensures Total(n, x) == P.Get(n.pool.handles, x, 0) {
        assert Total(s, x) == P.Get(s.pool.handles, x, 0);
        SumPut(s.sends, SendHold, x, a.p, SendOf(n, a.p));
        ProducerMoves(s.queue, a, c, x);
      }
      forall r: Tid ensures InStep(SendOf(n, r), Q.Pc(n.queue, r)) { assert InStep(SendOf(s, r), Q.Pc(s.queue, r)); }
    }
  }

  lemma RollBackKeepsInv(s: State, p: Tid)
    requires Inv(s)
    ensures Inv(RollBackStep(s, p))
  {
    hide P.Inv, P.Next, P.RetainStep, P.DropStep, Q.Inv, Q.Next, Sum, Queued;
    var c := SendOf(s, p);
    if c.Refused? && P.At(s.pool, p).Idle? {
      var n := RollBackStep(s, p);
      SenderHolds(s, p, c.blk);
      DropIsSound(s, p, c.blk);
      forall x: nat ensures Total(n, x) == P.Get(n.pool.handles, x, 0) {
        assert Total(s, x) == P.Get(s.pool.handles, x, 0);
        SumPut(s.sends, SendHold, x, p, Quiet);
      }
      forall r: Tid ensures InStep(SendOf(n, r), Q.Pc(n.queue, r)) { assert InStep(SendOf(s, r), Q.Pc(s.queue, r)); }
    }
  }

  lemma NotifyKeepsInv(s: State, p: Tid, delivered: bool)
    requires Inv(s)
    ensures Inv(NotifyStep(s, p, delivered))
  {
    hide P.Inv, P.Next, P.RetainStep, P.DropStep, Q.Inv, Q.Next, Sum, Queued;
    if SendOf(s, p).Enqueued? {
      var n := NotifyStep(s, p, delivered);
      forall x: nat ensures Total(n, x) == P.Get(n.pool.handles, x, 0) {
        assert Total(s, x) == P.Get(s.pool.handles, x, 0);
        SumPut(s.sends, SendHold, x, p, Quiet);
      }
      forall r: Tid ensures InStep(SendOf(n, r), Q.Pc(n.queue, r)) { assert InStep(SendOf(s, r), Q.Pc(s.queue, r)); }
    }
  }

  lemma ConsumeKeepsInv(s: State, a: Q.Action)
    requires Inv(s)
    ensures Inv(ConsumeStep(s, a))
  {
    hide P.Inv, P.Next, P.RetainStep, P.DropStep, Q.Inv, Q.Next, Sum, Queued;
    if s.drain.Dequeuing? && ByConsumer(a) {
      var n := ConsumeStep(s, a);
      QueueKeepsInv(s.queue, a);
      ConsumerStays(s.queue, a);
      ConsumerMoves(s.queue, a);
      forall x: nat ensures Total(n, x) == P.Get(n.pool.handles, x, 0) { assert Total(s, x) == P.Get(s.pool.handles, x, 0); }
      SendersStay(s, n);
    }
  }

  lemma RingPush(k: Worker, b: nat)
    ensures WorkerHold(k.(ring := k.ring + [b])) == WorkerHold(k) + multiset{b}
  {}

  lemma DeliverKeepsLedger(s: State, w: Tid)
    requires Inv(s) && s.drain.Dispatching? && |WorkerOf(s, w).ring| < Ring.SIZE - 1
    ensures P.Inv(DispatchStep(s, ToThread(w)).pool) && Ledger(DispatchStep(s, ToThread(w)))
  {
    hide P.Inv, P.RetainStep, Q.Inv, Sum, Queued, WorkerHold;
    var n, b, k := DispatchStep(s, ToThread(w)), s.drain.blk, WorkerOf(s, w);
    assert Total(s, b) > 0;
    HeldIsOwned(s, b);
    RetainIsSound(s, b);
    RingPush(k, b);
    assert WorkerHold(Worker([], Empty)) == multiset{} by { NothingHeld(); }
    forall x: nat ensures Total(n, x) == P.Get(n.pool.handles, x, 0) {
      SumPut(s.workers, WorkerHold, x, w, k.(ring := k.ring + [b]));
    }
  }

  lemma NothingHeld()
    ensures WorkerHold(Worker([], Empty)) == multiset{}
  {}

  lemma DispatchKeepsInv(s: State, route: Route)
    requires Inv(s)
    ensures Inv(DispatchStep(s, route))
  {
    hide P.Inv, P.RetainStep, Q.Inv, Sum, Queued, WorkerHold;
    if s.drain.Dispatching? {
      var n := DispatchStep(s, route);
      SendersStay(s, n);
      if route.ToThread? && |WorkerOf(s, route.w).ring| < Ring.SIZE - 1 {
        DeliverKeepsLedger(s, route.w);
      } else {
        forall x: nat ensures Total(n, x) == P.Get(n.pool.handles, x, 0) { assert Total(n, x) == Total(s, x); }
      }
    }
  }

  lemma DrainReleaseKeepsInv(s: State, t: Tid)
    requires Inv(s)
    ensures Inv(DrainReleaseStep(s, t))
  {
    hide P.Inv, P.Next, P.RetainStep, P.DropStep, Q.Inv, Q.Next, Sum, Queued;
    if s.drain.Dispatched? && P.At(s.pool, t).Idle? {
      var n, b := DrainReleaseStep(s, t), s.drain.blk;
      assert Total(s, b) > 0;
      DropIsSound(s, t, b);
      forall x: nat ensures Total(n, x) == P.Get(n.pool.handles, x, 0) { assert Total(s, x) == P.Get(s.pool.handles, x, 0); }
      SendersStay(s, n);
    }
  }

  lemma TakeMsgKeepsInv(s: State, w: Tid)
    requires Inv(s)
    ensures Inv(TakeMsgStep(s, w))
  {
    hide P.Inv, P.Next, P.RetainStep, P.DropStep, Q.Inv, Q.Next, Sum, Queued;
    var k := WorkerOf(s, w);
    if k.hand.Empty? && k.ring != [] {
      var n := TakeMsgStep(s, w);
      assert k.ring == [k.ring[0]] + k.ring[1..];
      forall x: nat ensures Total(n, x) == P.Get(n.pool.handles, x, 0) {
        assert Total(s, x) == P.Get(s.pool.handles, x, 0);
        SumPut(s.workers, WorkerHold, x, w, WorkerOf(n, w));
      }
      SendersStay(s, n);
    }
  }

  lemma WorkerReleaseKeepsInv(s: State, w: Tid)
    requires Inv(s)
    ensures Inv(WorkerReleaseStep(s, w))
  {
    hide P.Inv, P.Next, P.RetainStep, P.DropStep, Q.Inv, Q.Next, Sum, Queued;
    var k := WorkerOf(s, w);
    if k.hand.Full? && P.At(s.pool, w).Idle? {
      var n, b := WorkerReleaseStep(s, w), k.hand.blk;
      WorkerHolds(s, w, b);
      DropIsSound(s, w, b);
      forall x: nat ensures Total(n, x) == P.Get(n.pool.handles, x, 0) {
        assert Total(s, x) == P.Get(s.pool.handles, x, 0);
        SumPut(s.workers, WorkerHold, x, w, WorkerOf(n, w));
      }
      SendersStay(s, n);
    }
  }

  lemma EventArrivesKeepsInv(s: State)
    requires Inv(s)
    ensures Inv(EventArrivesStep(s))
  {
    hide P.Inv, P.Next, P.RetainStep, P.DropStep, Q.Inv, Q.Next, Sum, Queued;
    var n := EventArrivesStep(s);
    forall x: nat ensures Total(n, x) == P.Get(n.pool.handles, x, 0) { assert Total(s, x) == P.Get(s.pool.handles, x, 0); }
    SendersStay(s, n);
  }

  lemma LoseEventKeepsInv(s: State)
    requires Inv(s)
    ensures Inv(LoseEventStep(s))
  {
    hide P.Inv, P.Next, P.RetainStep, P.DropStep, Q.Inv, Q.Next, Sum, Queued;
    var n := LoseEventStep(s);
    forall x: nat ensures Total(n, x) == P.Get(n.pool.handles, x, 0) { assert Total(s, x) == P.Get(s.pool.handles, x, 0); }
    SendersStay(s, n);
  }

  lemma StepKeepsInv(s: State, a: Action)
    requires Inv(s) && Fair(s, a)
    ensures Inv(Next(s, a))
  {
    hide Inv;
    match a
    case PoolStep(pa) => PoolStepKeepsInv(s, pa);
    case ClientRetain(b) => ClientRetainKeepsInv(s, b);
    case ClientRelease(t, b) => ClientReleaseKeepsInv(s, t, b);
    case SendShm(p, b) => SendShmKeepsInv(s, p, b);
    case Produce(qa) => ProduceKeepsInv(s, qa);
    case RollBack(p) => RollBackKeepsInv(s, p);
    case Notify(p, delivered) => NotifyKeepsInv(s, p, delivered);
    case EventArrives => EventArrivesKeepsInv(s);
    case LoseEvent => LoseEventKeepsInv(s);
    case Consume(qa) => ConsumeKeepsInv(s, qa);
    case Dispatch(route) => DispatchKeepsInv(s, route);
    case DrainRelease(t) => DrainReleaseKeepsInv(s, t);
    case TakeMsg(w) => TakeMsgKeepsInv(s, w);
    case WorkerRelease(w) => WorkerReleaseKeepsInv(s, w);
  }

  // ---------- Reference counts end to end ----------

  predicate Start(s: State, c: seq<nat>) {
    && P.Initial(s.pool, c) && s.queue == Q.Init() && s.sends == map[] && s.drain == Waiting
    && s.events == 0 && s.workers == map[] && s.clients == map[]
  }

  lemma StartInv(s: State, c: seq<nat>)
    requires Start(s, c)
    ensures Inv(s)
  {
    P.InitialInv(s.pool, c);
    Q.InitInv();
    hide P.Inv, Q.Inv;
    forall x: nat ensures Total(s, x) == P.Get(s.pool.handles, x, 0) {}
  }

  lemma PoolNextIs(p: P.State, t: Tid, b: nat)
    ensures P.Next(p, P.Retain(b)) == P.RetainStep(p, b) && P.Next(p, P.Drop(t, b)) == P.DropStep(p, t, b)
    ensures !P.Recycled(p, P.Retain(b)) && !P.Recycled(p, P.Drop(t, b))
  {}

  lemma RetainNothing(p: P.State)
    requires P.Domains(p)
    ensures P.RetainStep(p, 0) == p
  {}

  lemma PoolRetainsNothing(s: State)
    requires Inv(s)
    ensures P.RetainStep(s.pool, 0) == s.pool
  {
    RetainNothing(s.pool);
  }

  // Whatever happens, the pool makes one of its own steps (a retain of nothing is no change).
  lemma OnePoolStep(s: State, a: Action) returns (pa: P.Action)
    requires Inv(s) && Fair(s, a)
    ensures Next(s, a).pool == P.Next(s.pool, pa) && !P.Recycled(s.pool, pa)
  {
    hide Inv, P.Next, P.Recycled, P.RetainStep, P.DropStep, Q.Next, Q.CallStep, AfterQueueStep;
    PoolRetainsNothing(s);
    if Next(s, a).pool == s.pool {
      pa := P.Retain(0);
      PoolNextIs(s.pool, 0, 0);
    } else {
      match a
      case PoolStep(x) => pa := x;
      case ClientRetain(b) => pa := P.Retain(b); PoolNextIs(s.pool, 0, b);
      case ClientRelease(t, b) => pa := P.Drop(t, b); PoolNextIs(s.pool, t, b);
      case SendShm(_, b) => pa := P.Retain(b); PoolNextIs(s.pool, 0, b);
      case RollBack(p) => pa := P.Drop(p, SendOf(s, p).blk); PoolNextIs(s.pool, p, pa.blk);
      case Dispatch(_) => pa := P.Retain(s.drain.blk); PoolNextIs(s.pool, 0, pa.blk);
      case DrainRelease(t) => pa := P.Drop(t, s.drain.blk); PoolNextIs(s.pool, t, pa.blk);
      case WorkerRelease(w) => pa := P.Drop(w, WorkerOf(s, w).hand.blk); PoolNextIs(s.pool, w, pa.blk);
    }
  }

  lemma RunKeepsInv(s: State, c: seq<nat>, run: seq<Action>)
    requires Start(s, c) && Runs.Along(Next, Fair, s, run)
    ensures Inv(Runs.Exec(Next, s, run)) && Runs.Exec(Next, s, run).pool.place.Keys == s.pool.place.Keys
  {
    hide Next, Fair;
    StartInv(s, c);
    var same := (x: State) => Inv(x) && x.pool.place.Keys == s.pool.place.Keys;
    forall x, a | same(x) && Fair(x, a) ensures same(Next(x, a)) {
      StepKeepsInv(x, a);
      var pa := OnePoolStep(x, a);
      P.StepKeepsKeys(x.pool, pa);
    }
    Runs.InvariantAlong(Next, Fair, same, s, run);
  }

  /** In every run without a recycled head or an overtaking lap, the count of every block is the
      number of references in the hands of clients, senders, the queue, the drain, thread rings
      and handlers together; a block with such a reference is neither on the free list nor on
      its way there, and a block without one is. */
  lemma CountIsAllReferences(s: State, c: seq<nat>, run: seq<Action>, b: nat)
    requires Start(s, c) && b in c && Runs.Along(Next, Fair, s, run)
    ensures var t := Runs.Exec(Next, s, run);
            && b in t.pool.refs && t.pool.refs[b] == Total(t, b)
            && P.IsChain(t.pool.next, t.pool.head, t.pool.chain)
            && (Total(t, b) == 0 <==> b in t.pool.chain || exists u :: P.InHands(t.pool, u, b))
            && (forall u, v :: P.InHands(t.pool, u, b) && P.InHands(t.pool, v, b) ==> u == v)
  {
    hide Q.Inv, Senders, Sum, Next, Fair;
    RunKeepsInv(s, c, run);
    assert b in s.pool.place.Keys;
    var t := Runs.Exec(Next, s, run);
    P.InvMeansOnePlace(t.pool, b);
    assert Total(t, b) == P.Get(t.pool.handles, b, 0);
  }

  // Thread t begins to push b back.
  predicate Returns(p: P.State, n: P.State, t: Tid, b: nat) { P.At(p, t).Idle? && P.At(n, t) == P.Freeing(b) }

  lemma AllocReturnsNothing(p: P.State, a: P.Action, t: Tid, b: nat)
    requires a.AllocCall? || a.AllocLoadHead? || a.AllocLoadNext? || a.PopCas? || a.StoreRef?
    ensures !Returns(p, P.Next(p, a), t, b)
  {
    hide P.Get, P.RetainStep, P.DropStep, P.FreeLoadHeadStep, P.LinkStep, P.PushCasStep;
  }

  lemma PushReturnsNothing(p: P.State, a: P.Action, t: Tid, b: nat)
    requires a.Retain? || a.FreeLoadHead? || a.Link? || a.PushCas?
    ensures !Returns(p, P.Next(p, a), t, b)
  {
    hide P.Get, P.DropStep, P.AllocCallStep, P.AllocLoadHeadStep, P.AllocLoadNextStep, P.PopCasStep, P.StoreRefStep;
  }

  lemma OnlyDropReturns(p: P.State, a: P.Action, t: Tid, b: nat)
    requires !a.Drop?
    ensures !Returns(p, P.Next(p, a), t, b)
  {
    hide P.Next;
    if a.Retain? || a.FreeLoadHead? || a.Link? || a.PushCas? { PushReturnsNothing(p, a, t, b); } else { AllocReturnsNothing(p, a, t, b); }
  }

  lemma DropReturns(p: P.State, t: Tid, x: nat, b: nat)
    requires P.Get(p.handles, x, 0) > 0 ==> P.Get(p.refs, x, 0) == P.Get(p.handles, x, 0)
    ensures var n := P.DropStep(p, t, x);
            && (P.Get(p.handles, b, 0) > 0 && P.Get(n.handles, b, 0) == 0 ==> Returns(p, n, t, b))
            && (forall u :: Returns(p, n, u, b) ==> P.Get(p.handles, b, 0) > 0 && P.Get(n.handles, b, 0) == 0)
  {}

  lemma HeldCounts(p: P.State, x: nat)
    requires P.Blocks(p)
    ensures P.Get(p.handles, x, 0) > 0 ==> P.Get(p.refs, x, 0) == P.Get(p.handles, x, 0)
  {
    if P.Get(p.handles, x, 0) > 0 { assert P.BlockOk(p, x); }
  }

  lemma PoolReturns(p: P.State, a: P.Action, b: nat)
    requires P.Inv(p)
    ensures (exists t :: Returns(p, P.Next(p, a), t, b)) <==>
            P.Get(p.handles, b, 0) > 0 && P.Get(P.Next(p, a).handles, b, 0) == 0
  {
    if a.Drop? {
      HeldCounts(p, a.blk);
      DropReturns(p, a.t, a.blk, b);
      PoolNextIs(p, a.t, a.blk);
    } else {
      forall t ensures !Returns(p, P.Next(p, a), t, b) { OnlyDropReturns(p, a, t, b); }
      if P.Get(p.handles, b, 0) > 0 { OnlyDropLowers(p, a, b); }
    }
  }

  lemma OnlyDropLowers(p: P.State, a: P.Action, b: nat)
    requires P.Inv(p) && !a.Drop? && P.Get(p.handles, b, 0) > 0
    ensures P.Get(P.Next(p, a).handles, b, 0) > 0
  {
    hide P.FreeList;
    if a.Retain? { PoolNextIs(p, 0, a.blk); RetainGrows(p, a.blk, b); } else { InternalCounts(p, a); }
  }

  lemma RetainGrows(p: P.State, x: nat, b: nat)
    ensures P.Get(P.RetainStep(p, x).handles, b, 0) >= P.Get(p.handles, b, 0)
  {}

  /** A block starts its way back to the free list in exactly those steps in which the last of
      all references to it, wherever it was, is given up. */
  lemma FreedExactlyAtZero(s: State, a: Action, b: nat)
    requires Inv(s) && Fair(s, a)
    ensures (exists t :: Returns(s.pool, Next(s, a).pool, t, b)) <==> Total(s, b) > 0 && Total(Next(s, a), b) == 0
  {
    hide Q.Inv, Senders, Sum, Next, Fair;
    StepKeepsInv(s, a);
    var pa := OnePoolStep(s, a);
    PoolReturns(s.pool, pa, b);
    assert Total(s, b) == P.Get(s.pool.handles, b, 0) && Total(Next(s, a), b) == P.Get(Next(s, a).pool.handles, b, 0);
  }

  // The four steps of a refused call.
  function RefusedCall(p: Tid, b: nat): seq<Action> {
    [SendShm(p, b), Produce(Q.LoadTail(p)), Produce(Q.LoadHead(p)), RollBack(p)]
  }

  /** Roll-back: a send that nobody interrupts and that finds the queue full returns the pool,
      the queue's contents and everybody else's references to what they were. */
  lemma BusyRollsBack(s: State, p: Tid, b: nat)
    requires Inv(s) && SendOf(s, p).Quiet? && Owned(s, b) && P.At(s.pool, p).Idle?
    requires |s.queue.accepted| == |s.queue.taken| + Q.SIZE - 1
    ensures var n := Runs.Exec(Next, s, RefusedCall(p, b));
            && n.pool == s.pool && n.sends == s.sends[p := Quiet] && n.workers == s.workers
            && n.clients == s.clients && n.events == s.events && n.drain == s.drain
            && n.queue.accepted == s.queue.accepted && n.queue.taken == s.queue.taken
            && n.queue.slots == s.queue.slots && n.queue.head == s.queue.head && n.queue.tail == s.queue.tail
  {
    hide Next, P.Inv, Q.Inv, Ledger, P.RetainStep, P.DropStep, Q.CallStep, Q.LoadTailStep, Q.LoadHeadStep, Q.Next;
    OwnedIsABlock(s, b);
    RetainDropCancel(s.pool, p, b);
    assert InStep(SendOf(s, p), Q.Pc(s.queue, p));
    BusyQueue(s.queue, p, b);
    RefusedSteps(s, p, b);
    RefusedRun(s, p, b);
  }

  // The queue machine inside a refused call.
  function RefusedQueue(q: Q.State, p: Tid, b: nat): Q.State {
    Q.LoadHeadStep(Q.LoadTailStep(Q.CallStep(q, p, b), p), p)
  }

  lemma RefusedRun(s: State, p: Tid, b: nat)
    ensures Runs.Exec(Next, s, RefusedCall(p, b)) ==
              RollBackStep(ProduceStep(ProduceStep(SendShmStep(s, p, b), Q.LoadTail(p)), Q.LoadHead(p)), p)
  {
    hide SendShmStep, ProduceStep, RollBackStep;
    Runs.Four(Next, s, SendShm(p, b), Produce(Q.LoadTail(p)), Produce(Q.LoadHead(p)), RollBack(p));
  }

  lemma RefusedSteps(s: State, p: Tid, b: nat)
    requires SendOf(s, p).Quiet? && Owned(s, b) && P.At(s.pool, p).Idle?
    requires var r := P.RetainStep(s.pool, b); P.At(r, p).Idle? && P.DropStep(r, p, b) == s.pool
    requires var q1 := Q.CallStep(s.queue, p, b);
             var q2 := Q.LoadTailStep(q1, p);
             && q2 == Q.Next(q1, Q.LoadTail(p)) && RefusedQueue(s.queue, p, b) == Q.Next(q2, Q.LoadHead(p))
             && Q.Pc(q2, p).Loaded? && Q.Pc(RefusedQueue(s.queue, p, b), p).Idle?
    ensures RollBackStep(ProduceStep(ProduceStep(SendShmStep(s, p, b), Q.LoadTail(p)), Q.LoadHead(p)), p)
              == s.(queue := RefusedQueue(s.queue, p, b), sends := s.sends[p := Quiet])
  {
    hide P.RetainStep, P.DropStep, Q.CallStep, Q.LoadTailStep, Q.LoadHeadStep, Q.Next;
    var s1 := SendShmStep(s, p, b);
    var s2 := s1.(queue := Q.LoadTailStep(s1.queue, p), sends := s1.sends[p := Enqueuing(b)]);
    var s3 := s2.(queue := RefusedQueue(s.queue, p, b), sends := s2.sends[p := Refused(b)]);
    ProduceIs(s1, Q.LoadTail(p), s2.queue, Enqueuing(b));
    ProduceIs(s2, Q.LoadHead(p), s3.queue, Refused(b));
    assert RollBackStep(s3, p).sends == s.sends[p := Quiet];
  }

  lemma ProduceIs(s: State, a: Q.Action, q: Q.State, d: Send)
    requires ByProducer(a) && q == Q.Next(s.queue, a) && d == AfterQueueStep(SendOf(s, a.p), Q.Pc(q, a.p))
    ensures ProduceStep(s, a) == s.(queue := q, sends := s.sends[a.p := d])
  {}

  lemma RetainDropCancel(p: P.State, t: Tid, b: nat)
    requires b in p.refs && b in p.handles && p.refs[b] == p.handles[b] > 0 && P.At(p, t).Idle?
    ensures P.At(P.RetainStep(p, b), t).Idle? && P.DropStep(P.RetainStep(p, b), t, b) == p
  {
    var r := P.RetainStep(p, b);
    assert r.refs[b := r.refs[b] - 1] == p.refs && r.handles[b := r.handles[b] - 1] == p.handles;
  }

  lemma BusyQueue(q: Q.State, p: Tid, b: nat)
    requires Q.Inv(q) && |q.accepted| == |q.taken| + Q.SIZE - 1 && Q.Pc(q, p).Idle? && b != 0
    ensures var q1 := Q.CallStep(q, p, b);
            var q2 := Q.LoadTailStep(q1, p);
            var q3 := Q.LoadHeadStep(q2, p);
            && q2 == Q.Next(q1, Q.LoadTail(p)) && q3 == Q.Next(q2, Q.LoadHead(p))
            && Q.Pc(q2, p).Loaded? && Q.Pc(q3, p).Idle? && q3.accepted == q.accepted && q3.taken == q.taken
            && q3.slots == q.slots && q3.head == q.head && q3.tail == q.tail
  {
    FullMeansBusy(q);
  }

  lemma FullMeansBusy(q: Q.State)
    requires Q.Inv(q) && |q.accepted| == |q.taken| + Q.SIZE - 1
    ensures (q.tail + 1) % Q.SIZE == q.head
  {
    Wrapped.SlotNext(|q.accepted|, Q.SIZE);
    Wrapped.SlotLap(|q.taken|, Q.SIZE);
  }

  // ---------- No stranded message ----------

  // p has won a queue position and has not yet sent its event.
  predicate OwesEvent(s: State, p: Tid) { SendOf(s, p).Reserved? || SendOf(s, p).Enqueued? }

  ghost predicate NotStranded(s: State) {
    |s.queue.accepted| > |s.queue.taken| ==> s.events > 0 || !s.drain.Waiting? || exists p :: OwesEvent(s, p)
  }

  /** The event that is lost, by the sender or by the receiver, was the only thing left to start a drain
      of a non-empty queue. */
  ghost predicate LosesLastEvent(s: State, a: Action) {
    && |s.queue.accepted| > |s.queue.taken| && s.drain.Waiting?
    && ((a.Notify? && !a.delivered && SendOf(s, a.p).Enqueued? && s.events == 0 && forall p :: p != a.p ==> !OwesEvent(s, p))
        || (a.LoseEvent? && s.events == 1 && forall p :: !OwesEvent(s, p)))
  }

  lemma ProduceKeepsNotStranded(s: State, a: Q.Action)
    requires Inv(s) && NotStranded(s)
    ensures NotStranded(ProduceStep(s, a))
  {
    hide P.Inv, Q.Inv, Q.Next, Ledger;
    if ByProducer(a) {
      var n := ProduceStep(s, a);
      assert InStep(SendOf(s, a.p), Q.Pc(s.queue, a.p));
      OthersStay(s.queue, a);
      ProducerEffect(s.queue, a, SendOf(s, a.p));
      if Reserves(s.queue, n.queue, a.p) {
        assert OwesEvent(n, a.p);
      } else if p :| OwesEvent(s, p) {
        assert OwesEvent(n, p);
      }
    }
  }

  lemma ConsumeKeepsNotStranded(s: State, a: Q.Action)
    requires Inv(s) && NotStranded(s)
    ensures NotStranded(ConsumeStep(s, a))
  {
    if s.drain.Dequeuing? && ByConsumer(a) {
      ConsumerStays(s.queue, a);
      if a.ReadTail? && s.queue.consumer.HaveHead? && Q.Next(s.queue, a).consumer.Resting? { EmptyMeansTaken(s.queue, a); }
    }
  }

  // Any other step keeps the queue, the drain's progress and what senders owe.
  lemma OtherKeepsNotStranded(s: State, n: State)
    requires NotStranded(s) && n.queue.accepted == s.queue.accepted && n.queue.taken == s.queue.taken
    requires n.events >= s.events && (n.drain.Waiting? ==> s.drain.Waiting?)
    requires forall p :: OwesEvent(s, p) ==> OwesEvent(n, p)
    ensures NotStranded(n)
  {}

  lemma NotifyStrandsIff(s: State, p: Tid, delivered: bool)
    requires NotStranded(s)
    ensures NotStranded(NotifyStep(s, p, delivered)) <==> !LosesLastEvent(s, Notify(p, delivered))
  {
    var n := NotifyStep(s, p, delivered);
    forall r | r != p ensures OwesEvent(n, r) == OwesEvent(s, r) {}
    if LosesLastEvent(s, Notify(p, delivered)) { assert forall r :: !OwesEvent(n, r); }
  }

  /** A step leaves a message stranded in the queue if and only if it is the loss of the last
      event; nothing else can. */
  lemma StepStrandsIff(s: State, a: Action)
    requires Inv(s) && NotStranded(s)
    ensures NotStranded(Next(s, a)) <==> !LosesLastEvent(s, a)
  {
    match a
    case Produce(qa) => ProduceKeepsNotStranded(s, qa);
    case Consume(qa) => ConsumeKeepsNotStranded(s, qa);
    case Notify(p, delivered) => NotifyStrandsIff(s, p, delivered);
    case EventArrives =>
    case LoseEvent => LoseStrandsIff(s);
    case _ =>
      hide P.Inv, Q.Inv, Ledger, Senders;
      OthersLeave(s, a);
      OtherKeepsNotStranded(s, Next(s, a));
  }

  lemma LoseStrandsIff(s: State)
    requires NotStranded(s)
    ensures NotStranded(LoseEventStep(s)) <==> !LosesLastEvent(s, LoseEvent)
  {
    var n := LoseEventStep(s);
    assert forall r :: OwesEvent(n, r) == OwesEvent(s, r);
  }

  lemma SendersLeave(s: State, a: Action)
    requires a.SendShm? || a.RollBack?
    ensures LeavesQueue(s, Next(s, a))
  {
    hide P.Next, P.RetainStep, P.DropStep;
  }

  lemma HandlersLeave(s: State, a: Action)
    requires a.PoolStep? || a.ClientRetain? || a.ClientRelease? || a.Dispatch? || a.DrainRelease? || a.TakeMsg? || a.WorkerRelease?
    ensures LeavesQueue(s, Next(s, a))
  {
    hide P.Next, P.RetainStep, P.DropStep, Q.CallStep, P.At;
  }

  ghost predicate LeavesQueue(s: State, n: State) {
    && n.queue.accepted == s.queue.accepted && n.queue.taken == s.queue.taken && n.events == s.events
    && (n.drain.Waiting? ==> s.drain.Waiting?) && (forall p :: OwesEvent(s, p) ==> OwesEvent(n, p))
  }

  lemma OthersLeave(s: State, a: Action)
    requires !a.Produce? && !a.Consume? && !a.Notify? && !a.EventArrives? && !a.LoseEvent?
    ensures LeavesQueue(s, Next(s, a))
  {
    hide Next, LeavesQueue;
    if a.SendShm? || a.RollBack? { SendersLeave(s, a); } else { HandlersLeave(s, a); }
  }

  predicate Delivering(s: State, a: Action) { Fair(s, a) && (a.Notify? ==> a.delivered) && !a.LoseEvent? }

  /** If every wake event is allocated, queued and received, then in every run a non-empty queue
      has an event in flight, a drain in progress, or a producer about to send its event. */
  lemma NeverStranded(s: State, c: seq<nat>, run: seq<Action>)
    requires Start(s, c) && Runs.Along(Next, Delivering, s, run)
    ensures NotStranded(Runs.Exec(Next, s, run))
  {
    StartInv(s, c);
    hide Inv;
    var both := (x: State) => Inv(x) && NotStranded(x);
    forall x, a | both(x) && Delivering(x, a) ensures both(Next(x, a)) {
      StepKeepsInv(x, a);
      StepStrandsIff(x, a);
    }
    Runs.InvariantAlong(Next, Delivering, both, s, run);
  }

  // ---------- From the queue to the handlers ----------

  function RingOf(s: State, w: Tid): seq<nat> { WorkerOf(s, w).ring }

  // The dispatch finds the thread's ring with room.
  predicate Delivers(s: State, a: Action, w: Tid) {
    a == Dispatch(ToThread(w)) && s.drain.Dispatching? && |RingOf(s, w)| < Ring.SIZE - 1
  }

  /** What a dispatch does with the dequeued message: a thread with room gets it at the end of its ring,
      with a reference of its own; without a route, or with a full ring, nothing but the drain
      changes. */
  lemma DispatchDelivers(s: State, route: Route)
    requires Inv(s) && s.drain.Dispatching?
    ensures var n, b := Next(s, Dispatch(route)), s.drain.blk;
            && n.drain == Dispatched(b) && n.queue == s.queue && n.sends == s.sends && n.clients == s.clients && n.events == s.events
            && (match route
                case NoRoute => n.workers == s.workers && n.pool == s.pool
                case ToThread(w) =>
                  && (forall v :: v != w ==> WorkerOf(n, v) == WorkerOf(s, v)) && WorkerOf(n, w).hand == WorkerOf(s, w).hand
                  && if |RingOf(s, w)| < 1023
                     then RingOf(n, w) == RingOf(s, w) + [b] && b in s.pool.refs && n.pool.refs == s.pool.refs[b := s.pool.refs[b] + 1]
                     else RingOf(n, w) == RingOf(s, w) && n.pool == s.pool)
  {
    hide P.Inv, Q.Inv, Senders;
    assert Total(s, s.drain.blk) > 0;
    CountedIsDroppable(s, s.drain.blk);
  }

  // The block a step puts in w's ring, and the one whose handling by w it completes.
  function RoutedNow(s: State, a: Action, w: Tid): seq<nat> {
    if Delivers(s, a, w) then [s.drain.blk] else []
  }

  function HandledNow(s: State, a: Action, w: Tid): seq<nat> {
    if a == WorkerRelease(w) && WorkerOf(s, w).hand.Full? && P.At(s.pool, w).Idle? then [WorkerOf(s, w).hand.blk] else []
  }

  function RoutedAlong(s: State, run: seq<Action>, w: Tid): seq<nat>
    decreases |run|
  {
    if run == [] then [] else RoutedNow(s, run[0], w) + RoutedAlong(Next(s, run[0]), run[1..], w)
  }

  function HandledAlong(s: State, run: seq<Action>, w: Tid): seq<nat>
    decreases |run|
  {
    if run == [] then [] else HandledNow(s, run[0], w) + HandledAlong(Next(s, run[0]), run[1..], w)
  }

  // What w holds, oldest first.
  function Backlog(s: State, w: Tid): seq<nat> {
    (if WorkerOf(s, w).hand.Full? then [WorkerOf(s, w).hand.blk] else []) + RingOf(s, w)
  }

  lemma TakeKeepsBacklog(s: State, v: Tid, w: Tid)
    ensures Backlog(TakeMsgStep(s, v), w) == Backlog(s, w)
  {
    var k := WorkerOf(s, w);
    if v == w && k.hand.Empty? && k.ring != [] { assert k.ring == [k.ring[0]] + k.ring[1..]; }
  }

  lemma DispatchGrowsBacklog(s: State, route: Route, w: Tid)
    ensures Backlog(DispatchStep(s, route), w) == Backlog(s, w) + RoutedNow(s, Dispatch(route), w)
  {
    hide P.RetainStep;
    if Delivers(s, Dispatch(route), w) {
      assert RingOf(DispatchStep(s, route), w) == RingOf(s, w) + [s.drain.blk];
    } else {
      assert WorkerOf(DispatchStep(s, route), w) == WorkerOf(s, w);
    }
  }

  lemma ReleaseShrinksBacklog(s: State, v: Tid, w: Tid)
    ensures Backlog(s, w) == HandledNow(s, WorkerRelease(v), w) + Backlog(WorkerReleaseStep(s, v), w)
  {
    hide P.DropStep;
    if v != w { assert WorkerOf(WorkerReleaseStep(s, v), w) == WorkerOf(s, w); }
  }

  lemma WorkersStay(s: State, a: Action)
    requires !a.TakeMsg? && !a.Dispatch? && !a.WorkerRelease?
    ensures Next(s, a).workers == s.workers
  {
    hide P.Next, P.RetainStep, P.DropStep, P.At, Q.Next, Q.CallStep;
  }

  lemma StepKeepsBacklog(s: State, a: Action, w: Tid)
    ensures Backlog(s, w) + RoutedNow(s, a, w) == HandledNow(s, a, w) + Backlog(Next(s, a), w)
  {
    hide TakeMsgStep, DispatchStep, WorkerReleaseStep, Backlog;
    match a
    case TakeMsg(v) => TakeKeepsBacklog(s, v, w);
    case Dispatch(route) => DispatchGrowsBacklog(s, route, w);
    case WorkerRelease(v) => ReleaseShrinksBacklog(s, v, w);
    case _ =>
      WorkersStay(s, a);
      hide Next;
      SameBacklog(s, Next(s, a), w);
  }

  lemma SameBacklog(s: State, n: State, w: Tid)
    requires n.workers == s.workers
    ensures Backlog(n, w) == Backlog(s, w)
  {}

  lemma {:induction false} BacklogAlong(s: State, run: seq<Action>, w: Tid)
    ensures Backlog(s, w) + RoutedAlong(s, run, w) == HandledAlong(s, run, w) + Backlog(Runs.Exec(Next, s, run), w)
    decreases |run|
  {
    hide Next, Backlog;
    if run != [] {
      var n := Next(s, run[0]);
      StepKeepsBacklog(s, run[0], w);
      BacklogAlong(n, run[1..], w);
      assert Backlog(s, w) + RoutedAlong(s, run, w) == (Backlog(s, w) + RoutedNow(s, run[0], w)) + RoutedAlong(n, run[1..], w);
      assert HandledAlong(s, run, w) + Backlog(Runs.Exec(Next, s, run), w)
          == HandledNow(s, run[0], w) + (HandledAlong(n, run[1..], w) + Backlog(Runs.Exec(Next, s, run), w));
    }
  }

  /** Every thread handles what is routed to it, exactly once and in order: in every run, the messages
      w has handled and released, the one in its hand and those in its ring are, in that order, the
      messages dispatched to it while its ring had room. */
  lemma HandledInOrder(s: State, c: seq<nat>, run: seq<Action>, w: Tid)
    requires Start(s, c)
    ensures RoutedAlong(s, run, w) == HandledAlong(s, run, w) + Backlog(Runs.Exec(Next, s, run), w)
  {
    BacklogAlong(s, run, w);
  }

  // The message the drain is about to dispatch, and the one a step dispatches.
  function InTurn(s: State): seq<nat> { if s.drain.Dispatching? then [s.drain.blk] else [] }

  function DispatchedNow(s: State, a: Action): seq<nat> { if a.Dispatch? then InTurn(s) else [] }

  function DispatchedAlong(s: State, run: seq<Action>): seq<nat>
    decreases |run|
  {
    if run == [] then [] else DispatchedNow(s, run[0]) + DispatchedAlong(Next(s, run[0]), run[1..])
  }

  // Between two dequeues the queue's consumer rests.
  predicate DrainInStep(s: State) { !s.drain.Dequeuing? ==> s.queue.consumer.Resting? }

  lemma StepKeepsTurn(s: State, a: Action, done: seq<nat>)
    requires s.queue.taken == done + InTurn(s) && DrainInStep(s)
    ensures Next(s, a).queue.taken == (done + DispatchedNow(s, a)) + InTurn(Next(s, a)) && DrainInStep(Next(s, a))
  {
    hide P.Next, P.RetainStep, P.DropStep, P.At;
    if a.Produce? && ByProducer(a.qa) {
      OthersStay(s.queue, a.qa);
      hide Q.Next;
    } else if a.Consume? && ByConsumer(a.qa) {
      ConsumerStays(s.queue, a.qa);
    } else {
      hide Q.Next;
    }
  }

  lemma {:induction false} TurnAlong(s: State, run: seq<Action>, done: seq<nat>)
    requires s.queue.taken == done + InTurn(s) && DrainInStep(s)
    ensures var t := Runs.Exec(Next, s, run);
            t.queue.taken == (done + DispatchedAlong(s, run)) + InTurn(t) && DrainInStep(t)
    decreases |run|
  {
    hide Next, InTurn, DrainInStep;
    if run == [] {
      assert done + [] == done;
    } else {
      var now := DispatchedNow(s, run[0]);
      StepKeepsTurn(s, run[0], done);
      TurnAlong(Next(s, run[0]), run[1..], done + now);
      assert done + now + DispatchedAlong(Next(s, run[0]), run[1..]) == done + (now + DispatchedAlong(Next(s, run[0]), run[1..]));
    }
  }

  /** Every offset taken from the queue is dispatched exactly once, in queue order: in every run without
      a recycled head or an overtaking lap, the messages dispatched so far and the one in turn are a
      prefix of the accepted ones. */
  lemma DispatchedInOrder(s: State, c: seq<nat>, run: seq<Action>)
    requires Start(s, c) && Runs.Along(Next, Fair, s, run)
    ensures var t := Runs.Exec(Next, s, run);
            t.queue.taken == DispatchedAlong(s, run) + InTurn(t) && t.queue.taken <= t.queue.accepted && DrainInStep(t)
  {
    RunKeepsInv(s, c, run);
    TurnAlong(s, run, []);
    assert [] + DispatchedAlong(s, run) == DispatchedAlong(s, run);
  }

  function FetchSteps(): seq<Action> {
    [Consume(Q.ReadHead), Consume(Q.ReadTail), Consume(Q.ReadSlot), Consume(Q.ClearSlot), Consume(Q.AdvanceHead)]
  }

  // What a fetched message leaves of the state.
  predicate Fetched(s: State, n: State) {
    && |s.queue.taken| < |s.queue.accepted| && n.queue.taken == s.queue.taken + [s.queue.accepted[|s.queue.taken|]]
    && n.drain == Dispatching(s.queue.accepted[|s.queue.taken|]) && n.queue.accepted == s.queue.accepted
    && n == s.(queue := n.queue, drain := n.drain)
  }

  lemma DequeuePlaces(q: Q.State)
    requires Q.Inv(q) && q.consumer.Resting? && |q.taken| < |q.accepted| && |q.taken| !in q.pending
    ensures var b, h := q.accepted[|q.taken|], q.head;
            var q4 := q.(slots := q.slots[h := 0], consumer := Q.Cleared(h, b));
            && h < |q.slots|
            && Q.Next(q, Q.ReadHead) == q.(consumer := Q.HaveHead(h))
            && Q.Next(q.(consumer := Q.HaveHead(h)), Q.ReadTail) == q.(consumer := Q.Spinning(h))
            && Q.Next(q.(consumer := Q.Spinning(h)), Q.ReadSlot) == q.(consumer := Q.Got(h, b))
            && Q.Next(q.(consumer := Q.Got(h, b)), Q.ClearSlot) == q4
            && Q.Next(q4, Q.AdvanceHead).taken == q.taken + [b] && Q.Next(q4, Q.AdvanceHead).accepted == q.accepted
  {
    Q.OldestIsPublished(q);
  }

  lemma FetchTakesOldest(s: State)
    requires Q.Inv(s.queue) && s.drain.Dequeuing? && s.queue.consumer.Resting?
    requires |s.queue.taken| < |s.queue.accepted| && |s.queue.taken| !in s.queue.pending
    ensures Fetched(s, Runs.Exec(Next, s, FetchSteps()))
  {
    DequeuePlaces(s.queue);
    hide Q.Inv, Q.Next;
    var q, b, h := s.queue, s.queue.accepted[|s.queue.taken|], s.queue.head;
    var s1 := s.(queue := q.(consumer := Q.HaveHead(h)));
    var s2 := s.(queue := q.(consumer := Q.Spinning(h)));
    var s3 := s.(queue := q.(consumer := Q.Got(h, b)));
    var s4 := s.(queue := q.(slots := q.slots[h := 0], consumer := Q.Cleared(h, b)));
    assert Next(s, Consume(Q.ReadHead)) == s1 && Next(s1, Consume(Q.ReadTail)) == s2;
    assert Next(s2, Consume(Q.ReadSlot)) == s3 && Next(s3, Consume(Q.ClearSlot)) == s4;
    Runs.Five(Next, s, Consume(Q.ReadHead), Consume(Q.ReadTail), Consume(Q.ReadSlot), Consume(Q.ClearSlot), Consume(Q.AdvanceHead));
  }

  /** A wake event is answered: from every reachable state with an event in flight and a published
      message at the head of the queue, the drain's next six steps take that message out for
      dispatch, and touch nothing else. */
  lemma EventFetchesOldest(s: State, c: seq<nat>, run: seq<Action>)
    requires Start(s, c) && Runs.Along(Next, Fair, s, run)
    requires var t := Runs.Exec(Next, s, run);
             && t.drain.Waiting? && t.events > 0
             && |t.queue.taken| < |t.queue.accepted| && |t.queue.taken| !in t.queue.pending
    ensures var t := Runs.Exec(Next, s, run);
            Fetched(t.(events := t.events - 1), Runs.Exec(Next, t, [EventArrives] + FetchSteps()))
  {
    var t := Runs.Exec(Next, s, run);
    RunKeepsInv(s, c, run);
    DispatchedInOrder(s, c, run);
    hide Next, Q.Inv, P.Inv, Senders, Ledger, Q.Counters;
    EventStartsFetch(t);
  }

  lemma EventStartsFetch(s: State)
    requires Q.Inv(s.queue) && s.drain.Waiting? && s.events > 0 && s.queue.consumer.Resting?
    requires |s.queue.taken| < |s.queue.accepted| && |s.queue.taken| !in s.queue.pending
    ensures Fetched(s.(events := s.events - 1), Runs.Exec(Next, s, [EventArrives] + FetchSteps()))
  {
    hide Q.Inv;
    assert Next(s, EventArrives) == EventArrivesStep(s);
    hide Next, FetchSteps;
    Runs.One(Next, s, EventArrives, FetchSteps());
    FetchTakesOldest(EventArrivesStep(s));
  }

  /** The drain goes on until the queue is empty: it goes back to waiting exactly at a tail load that
      finds every accepted message taken. */
  lemma DrainEndsIff(s: State, a: Action)
    requires Inv(s) && !s.drain.Waiting?
    ensures Next(s, a).drain.Waiting? <==>
            s.drain.Dequeuing? && a == Consume(Q.ReadTail) && s.queue.consumer.HaveHead? && s.queue.taken == s.queue.accepted
  {
    if a.Consume? {
      hide P.Inv, Senders, Ledger;
      ConsumeEndsIff(s, a.qa);
    } else {
      hide Inv;
      OthersDrainOn(s, a);
    }
  }

  lemma ConsumeEndsIff(s: State, a: Q.Action)
    requires Q.Inv(s.queue) && !s.drain.Waiting?
    ensures ConsumeStep(s, a).drain.Waiting? <==>
            s.drain.Dequeuing? && a.ReadTail? && s.queue.consumer.HaveHead? && s.queue.taken == s.queue.accepted
  {
    hide Q.Inv, Q.Next;
    if ByConsumer(a) && s.queue.consumer.HaveHead? { Q.DequeueEndsIff(s.queue, a); }
  }

  lemma OthersDrainOn(s: State, a: Action)
    requires !a.Consume? && !s.drain.Waiting?
    ensures !Next(s, a).drain.Waiting?
  {
    hide P.Next, P.RetainStep, P.DropStep, P.At, Q.Next, Q.CallStep;
  }

  /** After a dispatch the drain gives up the queue's reference, whatever became of the message, and goes
      on dequeuing. */
  lemma DrainGoesOn(s: State, t: Tid)
    requires Inv(s) && s.drain.Dispatched? && P.At(s.pool, t).Idle?
    ensures var n, b := Next(s, DrainRelease(t)), s.drain.blk;
            && n == s.(pool := n.pool, drain := Dequeuing)
            && b in s.pool.refs && s.pool.refs[b] > 0 && n.pool.refs == s.pool.refs[b := s.pool.refs[b] - 1]
  {
    var b := s.drain.blk;
    assert Total(s, b) > 0;
    CountedIsDroppable(s, b);
    hide Inv, Total;
    DrainReleaseEffect(s, t);
  }

  lemma DrainReleaseEffect(s: State, t: Tid)
    requires s.drain.Dispatched? && P.At(s.pool, t).Idle?
    requires var b := s.drain.blk; b in s.pool.refs && b in s.pool.handles && s.pool.handles[b] > 0 && s.pool.refs[b] > 0
    ensures var n, b := Next(s, DrainRelease(t)), s.drain.blk;
            n == s.(pool := n.pool, drain := Dequeuing) && n.pool.refs == s.pool.refs[b := s.pool.refs[b] - 1]
  {
    hide P.DropStep;
    DropLowers(s.pool, t, s.drain.blk);
  }

  /** A thread that is free handles the oldest message of its ring, and gives its reference back. */
  lemma WorkerHandlesOldest(s: State, w: Tid)
    requires Inv(s) && WorkerOf(s, w).hand.Empty? && RingOf(s, w) != [] && P.At(s.pool, w).Idle?
    ensures var run, b := [TakeMsg(w), WorkerRelease(w)], RingOf(s, w)[0];
            var n := Runs.Exec(Next, s, run);
            && HandledAlong(s, run, w) == [b] && WorkerOf(n, w) == Worker(RingOf(s, w)[1..], Empty)
            && b in s.pool.refs && s.pool.refs[b] > 0 && n.pool.refs == s.pool.refs[b := s.pool.refs[b] - 1]
            && (forall v :: v != w ==> WorkerOf(n, v) == WorkerOf(s, v))
  {
    var b := RingOf(s, w)[0];
    WorkerHolds(s, w, b);
    CountedIsDroppable(s, b);
    HandleEffect(s, w);
    WorkerSteps(s, TakeMsgStep(s, w), w);
    hide Inv, TakeMsgStep, WorkerReleaseStep, Next, HandledNow, HandledAlong, Total;
    TwoSteps(s, TakeMsg(w), WorkerRelease(w), w, []);
  }

  lemma WorkerSteps(s: State, n: State, w: Tid)
    ensures Next(s, TakeMsg(w)) == TakeMsgStep(s, w) && Next(n, WorkerRelease(w)) == WorkerReleaseStep(n, w)
    ensures HandledNow(s, TakeMsg(w), w) == []
  {
    hide TakeMsgStep, WorkerReleaseStep;
  }

  lemma HandleEffect(s: State, w: Tid)
    requires WorkerOf(s, w).hand.Empty? && RingOf(s, w) != [] && P.At(s.pool, w).Idle?
    requires var b := RingOf(s, w)[0]; b in s.pool.refs && b in s.pool.handles && s.pool.handles[b] > 0 && s.pool.refs[b] > 0
    ensures var m, b := TakeMsgStep(s, w), RingOf(s, w)[0];
            var n := WorkerReleaseStep(m, w);
            && HandledNow(m, WorkerRelease(w), w) == [b] && WorkerOf(n, w) == Worker(RingOf(s, w)[1..], Empty)
            && n.pool.refs == s.pool.refs[b := s.pool.refs[b] - 1] && (forall v :: v != w ==> WorkerOf(n, v) == WorkerOf(s, v))
  {
    hide P.DropStep;
    DropLowers(s.pool, w, RingOf(s, w)[0]);
  }

  lemma TwoSteps(s: State, a: Action, b: Action, w: Tid, none: seq<Action>)
    requires none == []
    ensures Runs.Exec(Next, s, [a, b]) == Next(Next(s, a), b)
    ensures HandledAlong(s, [a, b], w) == HandledNow(s, a, w) + HandledNow(Next(s, a), b, w)
  {
    hide Next, HandledNow;
    assert [a, b][1..] == [b] && [b][1..] == none;
    assert HandledAlong(Next(Next(s, a), b), none, w) == [];
    assert HandledAlong(Next(s, a), [b], w) == HandledNow(Next(s, a), b, w) + [];
    assert Runs.Exec(Next, Next(s, a), [b]) == Next(Next(s, a), b);
  }

  lemma DropLowers(p: P.State, t: Tid, b: nat)
    requires b in p.refs && b in p.handles && p.handles[b] > 0 && p.refs[b] > 0 && P.At(p, t).Idle?
    ensures P.DropStep(p, t, b).refs == p.refs[b := p.refs[b] - 1]
  {}

  /** How a send ends, over every step: it is refused exactly when its queue step finds the ring full,
      and queued exactly at its winning CAS, with its own block. */
  lemma SendEndsIff(s: State, a: Action, p: Tid)
    requires Inv(s) && SendOf(s, p).Enqueuing?
    ensures var n, b := Next(s, a), SendOf(s, p).blk;
            && (SendOf(n, p) == Refused(b) <==> a == Produce(Q.LoadHead(p)) && Q.Pc(s.queue, p).Loaded? && Q.LooksFull(s.queue, p))
            && (SendOf(n, p) == Reserved <==>
                  a == Produce(Q.Cas(p, false)) && Q.Pc(s.queue, p).Checked? && (|s.queue.accepted| - Q.At(s.queue, p)) % Q.SIZE == 0)
            && (SendOf(n, p) == Reserved ==> n.queue.accepted == s.queue.accepted + [b])
            && (SendOf(n, p) != Refused(b) && SendOf(n, p) != Reserved ==> SendOf(n, p) == Enqueuing(b))
  {
    hide P.Inv, P.Next, P.RetainStep, P.DropStep, Q.CallStep, Ledger, Q.Next, Q.LooksFull, Q.Inv;
    assert InStep(SendOf(s, p), Q.Pc(s.queue, p));
    if a.Produce? {
      Q.EnqueueEndsIff(s.queue, a.qa, p);
      if ByProducer(a.qa) && a.qa.p != p { OthersStay(s.queue, a.qa); }
    }
  }

  /** A send that nobody interrupts, into a queue with room: the block is queued with a reference of its
      own, and its event is on the way. */
  lemma SendAloneQueues(s: State, p: Tid, b: nat)
    requires Inv(s) && SendOf(s, p).Quiet? && Owned(s, b) && |s.queue.accepted| < |s.queue.taken| + Q.SIZE - 1
    ensures var n := Runs.Exec(Next, s, [SendShm(p, b)] + QueueSteps(p) + [Notify(p, true)]);
            && n.queue.accepted == s.queue.accepted + [b] && n.queue.taken == s.queue.taken
            && n.events == s.events + 1 && n.drain == s.drain && n.workers == s.workers && n.clients == s.clients
            && b in s.pool.refs && n.pool.refs == s.pool.refs[b := s.pool.refs[b] + 1] && SendOf(n, p).Quiet?
  {
    OwnedIsABlock(s, b);
    assert InStep(SendOf(s, p), Q.Pc(s.queue, p));
    QueueAlone(s.queue, p, b);
    hide Inv, P.RetainStep, Q.CallStep, QueueSteps, EnqueuesAlone, SendShmStep;
    EntersQueue(s, p, b);
    var s1 := SendShmStep(s, p, b);
    ProduceAlone(s1, p, b);
    var s5 := Runs.Exec(Next, s1, QueueSteps(p));
    SendSteps(s, s5, p, b);
    hide Next;
    Runs.Split(Next, s, [SendShm(p, b)] + QueueSteps(p), [Notify(p, true)]);
    Runs.One(Next, s, SendShm(p, b), QueueSteps(p));
    Runs.One(Next, s5, Notify(p, true), []);
    assert [Notify(p, true)] + [] == [Notify(p, true)];
  }

  lemma SendSteps(s: State, n: State, p: Tid, b: nat)
    ensures Next(s, SendShm(p, b)) == SendShmStep(s, p, b) && Next(n, Notify(p, true)) == NotifyStep(n, p, true)
  {}

  lemma EntersQueue(s: State, p: Tid, b: nat)
    requires SendOf(s, p).Quiet? && Owned(s, b) && b in s.pool.refs
    ensures var n := SendShmStep(s, p, b);
            && SendOf(n, p) == Enqueuing(b) && n.queue == Q.CallStep(s.queue, p, b)
            && n == s.(pool := n.pool, queue := n.queue, sends := n.sends)
            && n.pool.refs == s.pool.refs[b := s.pool.refs[b] + 1]
  {
    hide P.RetainStep, Q.CallStep;
    RetainRaises(s.pool, b);
  }

  lemma RetainRaises(p: P.State, b: nat)
    requires b in p.refs && b in p.handles && p.handles[b] > 0
    ensures P.RetainStep(p, b).refs == p.refs[b := p.refs[b] + 1]
  {}

  function QueueSteps(p: Tid): seq<Action> {
    [Produce(Q.LoadTail(p)), Produce(Q.LoadHead(p)), Produce(Q.Cas(p, false)), Produce(Q.Publish(p))]
  }

  // The queue machine along an uninterrupted enqueue.
  lemma QueueAlone(q: Q.State, p: Tid, b: nat)
    requires Q.Inv(q) && Q.Pc(q, p).Idle? && b != 0 && |q.accepted| < |q.taken| + Q.SIZE - 1
    ensures EnqueuesAlone(Q.CallStep(q, p, b), p, b)
    ensures var r := Q.CallStep(q, p, b); r.accepted == q.accepted && r.taken == q.taken
  {
    Q.RoomIsNotFull(q);
    hide Q.Inv;
  }

  // The steps of QueueSteps, from a queue in which p is about to load the tail.
  predicate EnqueuesAlone(q: Q.State, p: Tid, b: nat) {
    var q2 := Q.Next(q, Q.LoadTail(p));
    var q3 := Q.Next(q2, Q.LoadHead(p));
    var q4 := Q.Next(q3, Q.Cas(p, false));
    var q5 := Q.Next(q4, Q.Publish(p));
    && Q.Pc(q2, p).Loaded? && Q.Pc(q3, p).Checked? && Q.Pc(q4, p).Reserved? && Q.Pc(q5, p).Idle?
    && q5.accepted == q.accepted + [b] && q5.taken == q.taken
  }

  lemma ProduceAlone(s: State, p: Tid, b: nat)
    requires EnqueuesAlone(s.queue, p, b) && SendOf(s, p) == Enqueuing(b)
    ensures var n := Runs.Exec(Next, s, QueueSteps(p));
            && n == s.(queue := n.queue, sends := n.sends) && SendOf(n, p) == Enqueued
            && n.queue.accepted == s.queue.accepted + [b] && n.queue.taken == s.queue.taken
  {
    hide Q.Next;
    var q2 := Q.Next(s.queue, Q.LoadTail(p));
    var q3 := Q.Next(q2, Q.LoadHead(p));
    var q4 := Q.Next(q3, Q.Cas(p, false));
    var q5 := Q.Next(q4, Q.Publish(p));
    var s2 := s.(queue := q2, sends := s.sends[p := Enqueuing(b)]);
    var s3 := s2.(queue := q3, sends := s2.sends[p := Enqueuing(b)]);
    var s4 := s3.(queue := q4, sends := s3.sends[p := Reserved]);
    ProduceIs(s, Q.LoadTail(p), q2, Enqueuing(b));
    ProduceIs(s2, Q.LoadHead(p), q3, Enqueuing(b));
    ProduceIs(s3, Q.Cas(p, false), q4, Reserved);
    ProduceIs(s4, Q.Publish(p), q5, Enqueued);
    Runs.Four(Next, s, Produce(Q.LoadTail(p)), Produce(Q.LoadHead(p)), Produce(Q.Cas(p, false)), Produce(Q.Publish(p)));
  }

  /** A client's retain adds one reference, and its release takes it back. */
  lemma RetainIsUndone(s: State, t: Tid, b: nat)
    requires Inv(s) && Owned(s, b) && P.At(s.pool, t).Idle?
    ensures var n := Next(s, ClientRetain(b));
            && Total(n, b) == Total(s, b) + 1 && Clients(n, b) == Clients(s, b) + 1
            && Next(n, ClientRelease(t, b)).pool == s.pool && Clients(Next(n, ClientRelease(t, b)), b) == Clients(s, b)
  {
    OwnedIsABlock(s, b);
    RetainDropCancel(s.pool, t, b);
    hide Inv, P.RetainStep, P.DropStep, Sum, Queued;
    var n := ClientRetainStep(s, b);
    assert Next(s, ClientRetain(b)) == n && Next(n, ClientRelease(t, b)) == ClientReleaseStep(n, t, b);
    hide Next;
    assert n.pool == P.RetainStep(s.pool, b) && Clients(n, b) == Clients(s, b) + 1;
  }

  // ---------- What a lost event does ----------

  predicate Reaches(s0: State, run: seq<Action>, s: State) { Runs.Leads(Next, Fair, s0, run, s) }

  lemma Perform(s0: State, run: seq<Action>, s: State, a: Action) returns (run': seq<Action>)
    requires Reaches(s0, run, s) && Fair(s, a)
    ensures Reaches(s0, run', Next(s, a))
  {
    hide Next, Fair;
    run' := run + [a];
    Runs.Extend(Next, Fair, s0, run, s, a);
  }

  lemma PerformPool(s0: State, run: seq<Action>, s: State, a: P.Action, p: P.State) returns (run': seq<Action>)
    requires Reaches(s0, run, s) && PoolInternal(a) && !a.StoreRef?
    requires p == P.Next(s.pool, a) && !P.Recycled(s.pool, a)
    ensures Reaches(s0, run', s.(pool := p))
  {
    hide P.Next, P.Recycled, Reaches;
    run' := Perform(s0, run, s, PoolStep(a));
  }

  lemma PerformQueue(s0: State, run: seq<Action>, s: State, a: Q.Action, q: Q.State, d: Send) returns (run': seq<Action>)
    requires Reaches(s0, run, s) && ByProducer(a) && !Q.Overtaken(s.queue, a)
    requires q == Q.Next(s.queue, a) && d == AfterQueueStep(SendOf(s, a.p), Q.Pc(q, a.p))
    ensures Reaches(s0, run', s.(queue := q, sends := s.sends[a.p := d]))
  {
    ProduceIs(s, a, q, d);
    hide Q.Next, Q.Overtaken, Reaches;
    run' := Perform(s0, run, s, Produce(a));
  }

  // The pool machine along an allocation by thread 0.
  lemma PoolPlaces(p0: P.State)
    requires p0.head != 0 && p0.threads == map[]
    ensures var p1 := P.AllocCallStep(p0, 0, 0);
            var p2 := P.AllocLoadHeadStep(p1, 0);
            var p3 := P.LoadedEffect(p0, 0);
            var p4 := P.PopCasStep(p3, 0, false);
            && p1 == P.Next(p0, P.AllocCall(0, 0)) && p2 == P.Next(p1, P.AllocLoadHead(0))
            && p3 == P.Next(p2, P.AllocLoadNext(0)) && p4 == P.Next(p3, P.PopCas(0, false))
            && !P.Recycled(p3, P.PopCas(0, false)) && P.At(p4, 0) == P.Popped(p0.head)
            && P.AllocEffect(p0, 0) == P.Next(p4, P.StoreRef(0))
  {
    P.LoadedEffectIs(p0, 0);
    P.AllocEffectIs(p0, 0);
  }

  lemma OnlyPopRecycles(p: P.State, a: P.Action)
    requires !a.PopCas?
    ensures !P.Recycled(p, a)
  {}

  lemma PerformStore(s0: State, run: seq<Action>, s: State, b: nat, p: P.State) returns (run': seq<Action>)
    requires Reaches(s0, run, s) && P.At(s.pool, 0) == P.Popped(b) && p == P.Next(s.pool, P.StoreRef(0))
    ensures Reaches(s0, run', s.(pool := p, clients := s.clients[b := Clients(s, b) + 1]))
  {
    OnlyPopRecycles(s.pool, P.StoreRef(0));
    hide P.Next, P.Recycled, Reaches;
    run' := Perform(s0, run, s, PoolStep(P.StoreRef(0)));
  }

  // Thread 0 allocates the first block.
  lemma AllocFirst(s0: State, b: nat) returns (run: seq<Action>)
    requires s0.pool.head == b != 0 && s0.pool.threads == map[] && s0.clients == map[]
    ensures Reaches(s0, run, s0.(pool := P.AllocEffect(s0.pool, 0), clients := s0.clients[b := 1]))
  {
    var p0 := s0.pool;
    PoolPlaces(p0);
    hide P.Next, P.AllocCallStep, P.AllocLoadHeadStep, P.LoadedEffect, P.PopCasStep, P.AllocEffect, P.Recycled, Reaches;
    var p1 := P.AllocCallStep(p0, 0, 0);
    var p2 := P.AllocLoadHeadStep(p1, 0);
    var p3, p4 := P.LoadedEffect(p0, 0), P.PopCasStep(P.LoadedEffect(p0, 0), 0, false);
    run := NoSteps(s0);
    OnlyPopRecycles(p0, P.AllocCall(0, 0));
    run := PerformPool(s0, run, s0, P.AllocCall(0, 0), p1);
    OnlyPopRecycles(p1, P.AllocLoadHead(0));
    run := PerformPool(s0, run, s0.(pool := p1), P.AllocLoadHead(0), p2);
    OnlyPopRecycles(p2, P.AllocLoadNext(0));
    run := PerformPool(s0, run, s0.(pool := p2), P.AllocLoadNext(0), p3);
    run := PerformPool(s0, run, s0.(pool := p3), P.PopCas(0, false), p4);
    run := PerformStore(s0, run, s0.(pool := p4), b, P.AllocEffect(p0, 0));
  }

  lemma NoSteps(s0: State) returns (run: seq<Action>)
    ensures Reaches(s0, run, s0)
  {
    run := [];
  }

  // Thread 0 sends block b through the empty queue, up to its event.
  lemma SendFirst(s0: State, run: seq<Action>, s: State, b: nat) returns (run': seq<Action>, t: State)
    requires Reaches(s0, run, s) && s.queue == Q.Init() && s.sends == map[] && Owned(s, b) && b != 0
    ensures Reaches(s0, run', t)
    ensures t.queue.accepted == [b] && t.queue.taken == [] && t.sends == map[0 := Enqueued]
    ensures t.events == s.events && t.drain == s.drain
  {
    var q0 := Q.Init();
    var q1 := Q.CallStep(q0, 0, b);
    var q2 := Q.LoadTailStep(q1, 0);
    var q3 := Q.LoadHeadStep(q2, 0);
    var q4 := Q.Reserve(q0, 0, b);
    var q5 := Q.PublishStep(q4, 0);
    QueuePlaces(b);
    t := SendShmStep(s, 0, b);
    run' := Perform(s0, run, s, SendShm(0, b));
    hide Q.CallStep, Q.LoadTailStep, Q.LoadHeadStep, Q.Reserve, Q.PublishStep, Q.Overtaken, Q.Next, Reaches, Q.Init;
    run' := PerformQueue(s0, run', t, Q.LoadTail(0), q2, Enqueuing(b));
    t := t.(queue := q2, sends := t.sends[0 := Enqueuing(b)]);
    run' := PerformQueue(s0, run', t, Q.LoadHead(0), q3, Enqueuing(b));
    t := t.(queue := q3, sends := t.sends[0 := Enqueuing(b)]);
    run' := PerformQueue(s0, run', t, Q.Cas(0, false), q4, Reserved);
    t := t.(queue := q4, sends := t.sends[0 := Reserved]);
    run' := PerformQueue(s0, run', t, Q.Publish(0), q5, Enqueued);
    t := t.(queue := q5, sends := t.sends[0 := Enqueued]);
  }

  // The queue machine along that call.
  lemma QueuePlaces(b: nat)
    requires b != 0
    ensures var q1 := Q.CallStep(Q.Init(), 0, b);
            var q2 := Q.LoadTailStep(q1, 0);
            var q3 := Q.LoadHeadStep(q2, 0);
            var q4 := Q.Reserve(Q.Init(), 0, b);
            var q5 := Q.PublishStep(q4, 0);
            && q2 == Q.Next(q1, Q.LoadTail(0)) && Q.Pc(q2, 0).Loaded? && !Q.Overtaken(q1, Q.LoadTail(0))
            && !Q.Overtaken(q2, Q.LoadHead(0)) && !Q.Overtaken(q4, Q.Publish(0))
            && q3 == Q.Next(q2, Q.LoadHead(0)) && Q.Pc(q3, 0).Checked? && !Q.Overtaken(q3, Q.Cas(0, false))
            && q4 == Q.Next(q3, Q.Cas(0, false)) && Q.Pc(q4, 0).Reserved?
            && q5 == Q.Next(q4, Q.Publish(0)) && Q.Pc(q5, 0).Idle? && q5.accepted == [b] && q5.taken == []
  {
    Q.ReserveAloneEffect(Q.Init(), 0, b);
    var q3 := Q.LoadHeadStep(Q.LoadTailStep(Q.CallStep(Q.Init(), 0, b), 0), 0);
    assert Q.At(q3, 0) == 0 && |q3.accepted| == 0;
  }

  /** The hypothesis of NeverStranded cannot be dropped: one lost event is enough. The sender was
      told NOS_OK, its message is in the queue, and nothing that could fetch it is under way. */
  lemma LostEventStrands(s0: State, c: seq<nat>) returns (run: seq<Action>, t: State)
    requires Start(s0, c) && c != []
    ensures Reaches(s0, run, t) && !NotStranded(t)
    ensures t.queue.accepted == [c[0]] && t.queue.taken == [] && t.events == 0 && t.drain.Waiting?
    ensures forall p :: SendOf(t, p).Quiet?
  {
    hide P.Initial, P.AllocEffect, Q.Init, Reaches;
    HeadIsFirst(s0, c);
    run := AllocFirst(s0, c[0]);
    var s := s0.(pool := P.AllocEffect(s0.pool, 0), clients := s0.clients[c[0] := 1]);
    run, t := SendFirst(s0, run, s, c[0]);
    run := Perform(s0, run, t, Notify(0, false));
    t := NotifyStep(t, 0, false);
  }

  lemma HeadIsFirst(s0: State, c: seq<nat>)
    requires Start(s0, c) && c != []
    ensures c[0] == s0.pool.head != 0 && s0.pool.threads == map[]
    ensures P.Get(P.AllocEffect(s0.pool, 0).handles, c[0], 0) == 1
  {}

  // What the pool's own methods ask of a release or retain.
  lemma CountedIsDroppable(s: State, b: nat)
    requires Inv(s) && Total(s, b) > 0
    ensures b in s.pool.handles && s.pool.handles[b] > 0 && b in s.pool.refs && s.pool.refs[b] > 0 && b != 0
  {
    HeldIsOwned(s, b);
    OwnedIsABlock(s, b);
  }

  /** The pool and one receive queue in shared memory, with the senders, the drain and the worker
      threads that use them. Each method is one step of the C code by one thread; its contract is
      the step of the machine above. */
  class Delivery {
    const pool: P.Pool
    const queue: Q.Queue
    var sends: map<Tid, Send>
    var drain: Drain
    var events: nat
    var workers: map<Tid, Worker>
    ghost var clients: map<nat, nat>

    ghost function View(): State
      reads this, pool, queue, queue.offsets
    {
      State(pool.View(), queue.View(), sends, drain, events, workers, clients)
    }

    constructor ()
      ensures Start(View(), P.Tiles(P.NUM_BLOCKS)) && queue.offsets.Length == Q.SIZE
      ensures fresh(pool) && fresh(queue) && fresh(queue.offsets)
    {
      pool := new P.Pool();
      queue := new Q.Queue();
      sends, drain, events, workers, clients := map[], Waiting, 0, map[], map[];
    }

    // nos_buffer_retain, then nos_shm_mpsc_enqueue is entered.
    method SendShm(p: Tid, b: nat)
      requires queue.offsets.Length == Q.SIZE && Inv(View()) && Owned(View(), b)
      modifies this, pool, queue, queue.offsets
      ensures View() == SendShmStep(old(View()), p, b)
    {
      hide P.Inv, Q.Inv, P.RetainStep, Senders, Ledger;
      OwnedIsABlock(View(), b);
      if p !in sends || sends[p].Quiet? {
        pool.Retain(b);
        queue.ProducerStep(Q.Call(p, b));
        sends := sends[p := Enqueuing(b)];
      }
    }

    method EnqueueStep(a: Q.Action)
      requires queue.offsets.Length == Q.SIZE && ByProducer(a)
      modifies this, queue, queue.offsets
      ensures View() == ProduceStep(old(View()), a)
    {
      hide Q.Next;
      queue.ProducerStep(a);
      var c := if a.p in sends then sends[a.p] else Quiet;
      var pc := if a.p in queue.producers then queue.producers[a.p] else Q.Idle;
      sends := sends[a.p := AfterQueueStep(c, pc)];
    }

    // Enqueue failed: take the retain back.
    method RollBack(p: Tid)
      requires Inv(View())
      modifies this, pool
      ensures View() == RollBackStep(old(View()), p)
    {
      hide P.Inv, Q.Inv, P.DropStep, Senders, Ledger;
      if p in sends && sends[p].Refused? && pool.Pc(p).Idle? {
        SenderHolds(View(), p, sends[p].blk);
        CountedIsDroppable(View(), sends[p].blk);
        pool.Drop(p, sends[p].blk);
        sends := sends[p := Quiet];
      }
    }

    method Notify(p: Tid, delivered: bool)
      modifies this
      ensures View() == NotifyStep(old(View()), p, delivered)
    {
      if p in sends && sends[p].Enqueued? {
        sends := sends[p := Quiet];
        if delivered { events := events + 1; }
      }
    }

    method EventArrives()
      modifies this
      ensures View() == EventArrivesStep(old(View()))
    {
      if drain.Waiting? && events > 0 { drain, events := Dequeuing, events - 1; }
    }

    method LoseEvent()
      modifies this
      ensures View() == LoseEventStep(old(View()))
    {
      if drain.Waiting? && events > 0 { events := events - 1; }
    }

    method DequeueStep(a: Q.Action)
      requires queue.offsets.Length == Q.SIZE && ByConsumer(a)
      modifies this, queue, queue.offsets
      ensures View() == ConsumeStep(old(View()), a)
    {
      hide Q.Next;
      if drain.Dequeuing? {
        var c := queue.consumer;
        queue.ConsumerStep(a);
        if a.AdvanceHead? && c.Cleared? {
          drain := Dispatching(c.offset);
        } else if a.ReadTail? && c.HaveHead? && queue.consumer.Resting? {
          drain := Waiting;
        }
      }
    }

    method Dispatch(route: Route)
      requires Inv(View())
      modifies this, pool
      ensures View() == DispatchStep(old(View()), route)
    {
      hide P.Inv, Q.Inv, P.RetainStep, Senders, Ledger;
      if drain.Dispatching? {
        var b := drain.blk;
        if route.ToThread? {
          var k := if route.w in workers then workers[route.w] else Worker([], Empty);
          if |k.ring| < Ring.SIZE - 1 {
            assert Total(View(), b) > 0;
            CountedIsDroppable(View(), b);
            pool.Retain(b);
            workers := workers[route.w := k.(ring := k.ring + [b])];
          }
        }
        drain := Dispatched(b);
      }
    }

    method DrainRelease(t: Tid)
      requires Inv(View())
      modifies this, pool
      ensures View() == DrainReleaseStep(old(View()), t)
    {
      hide P.Inv, Q.Inv, P.DropStep, Senders, Ledger;
      if drain.Dispatched? && pool.Pc(t).Idle? {
        assert Total(View(), drain.blk) > 0;
        CountedIsDroppable(View(), drain.blk);
        pool.Drop(t, drain.blk);
        drain := Dequeuing;
      }
    }

    method TakeMsg(w: Tid)
      modifies this
      ensures View() == TakeMsgStep(old(View()), w)
    {
      if w in workers && workers[w].hand.Empty? && workers[w].ring != [] {
        var k := workers[w];
        workers := workers[w := Worker(k.ring[1..], Full(k.ring[0]))];
      }
    }

    method WorkerRelease(w: Tid)
      requires Inv(View())
      modifies this, pool
      ensures View() == WorkerReleaseStep(old(View()), w)
    {
      hide P.Inv, Q.Inv, P.DropStep, Senders, Ledger;
      if w in workers && workers[w].hand.Full? && pool.Pc(w).Idle? {
        var b := workers[w].hand.blk;
        WorkerHolds(View(), w, b);
        CountedIsDroppable(View(), b);
        pool.Drop(w, b);
        workers := workers[w := workers[w].(hand := Empty)];
      }
    }
  }
}
