/** The lock-free multi-producer single-consumer offset queue in shared memory
    (src/infra/nos_shm.c). Every atomic access of the C code is one step, any number of
    producers interleave freely with one consumer, and memory is sequentially consistent.

    `seen`, `accepted`, `taken` and `pending` are history: no branch reads them. Position x of
    the unbounded queue lives in slot Slot(x); `|taken|` and `|accepted|` are the unbounded
    head and tail. */
module ShmQueue {
  import Wrapped
  import Runs

  const SIZE: nat := 4096

  type Pid = nat

  // Where a producer stands inside nos_shm_mpsc_enqueue.
  datatype Producer =
    | Idle
    | Retry(offset: nat)                    // about to load tail
    | Loaded(offset: nat, tail: nat)        // tail loaded, head not yet
    | Checked(offset: nat, tail: nat)       // found not full, about to CAS
    | Reserved(offset: nat, tail: nat)      // CAS won, offset not yet stored

  // Where the consumer stands inside nos_shm_mpsc_dequeue.
  datatype Consumer =
    | Resting
    | HaveHead(head: nat)
    | Spinning(head: nat)
    | Got(head: nat, offset: nat)
    | Cleared(head: nat, offset: nat)

  datatype State = State(
    head: nat, tail: nat, slots: seq<nat>,
    producers: map<Pid, Producer>, consumer: Consumer,
    seen: map<Pid, nat>, accepted: seq<nat>, taken: seq<nat>, pending: map<nat, Pid>)

  datatype Action =
    | Call(p: Pid, offset: nat)
    | LoadTail(p: Pid)
    | LoadHead(p: Pid)
    | Cas(p: Pid, spurious: bool)
    | Publish(p: Pid)
    | ReadHead
    | ReadTail
    | ReadSlot
    | ClearSlot
    | AdvanceHead

  function Slot(x: nat): nat { Wrapped.Slot(x, SIZE) }

  function Pc(s: State, p: Pid): Producer {
    if p in s.producers then s.producers[p] else Idle
  }

  // The unbounded position behind the tail that p loaded or reserved last.
  function At(s: State, p: Pid): nat {
    if p in s.seen then s.seen[p] else 0
  }

  function Move(s: State, p: Pid, c: Producer): State {
    s.(producers := s.producers[p := c])
  }

  function Init(): State {
    State(0, 0, seq(SIZE, _ => 0), map[], Resting, map[], [], [], map[])
  }

  // ---------- The steps ----------

  function CallStep(s: State, p: Pid, offset: nat): State {
    if Pc(s, p).Idle? && offset != 0 then Move(s, p, Retry(offset)) else s
  }

  function LoadTailStep(s: State, p: Pid): State {
    if Pc(s, p).Retry?
    then Move(s.(seen := s.seen[p := |s.accepted|]), p, Loaded(Pc(s, p).offset, s.tail))
    else s
  }

  // Full: return NOS_ERR_BUSY.
  function LoadHeadStep(s: State, p: Pid): State {
    var c := Pc(s, p);
    if !c.Loaded? then s
    else if (c.tail + 1) % SIZE == s.head then Move(s, p, Idle)
    else Move(s, p, Checked(c.offset, c.tail))
  }

  function Reserve(s: State, p: Pid, offset: nat): State {
    s.(tail := (s.tail + 1) % SIZE,
       producers := s.producers[p := Reserved(offset, s.tail)],
       seen := s.seen[p := |s.accepted|],
       pending := s.pending[|s.accepted| := p],
       accepted := s.accepted + [offset])
  }

  // The weak CAS may fail although the values agree.
  function CasStep(s: State, p: Pid, spurious: bool): State {
    var c := Pc(s, p);
    if !c.Checked? then s
    else if !spurious && s.tail == c.tail then Reserve(s, p, c.offset)
    else Move(s, p, Retry(c.offset))
  }

  function PublishStep(s: State, p: Pid): State {
    var c := Pc(s, p);
    if c.Reserved? && c.tail < |s.slots|
    then Move(s, p, Idle).(slots := s.slots[c.tail := c.offset], pending := s.pending - {At(s, p)})
    else s
  }

  function ReadHeadStep(s: State): State {
    if s.consumer.Resting? then s.(consumer := HaveHead(s.head)) else s
  }

  // Equal: the queue is empty, return 0.
  function ReadTailStep(s: State): State {
    if !s.consumer.HaveHead? then s
    else s.(consumer := if s.consumer.head == s.tail then Resting else Spinning(s.consumer.head))
  }

  function ReadSlotStep(s: State): State {
    if s.consumer.Spinning? && s.consumer.head < |s.slots| && s.slots[s.consumer.head] != 0
    then s.(consumer := Got(s.consumer.head, s.slots[s.consumer.head]))
    else s
  }

  function ClearSlotStep(s: State): State {
    if s.consumer.Got? && s.consumer.head < |s.slots|
    then s.(slots := s.slots[s.consumer.head := 0], consumer := Cleared(s.consumer.head, s.consumer.offset))
    else s
  }

  function AdvanceHeadStep(s: State): State {
    if s.consumer.Cleared?
    then s.(head := (s.consumer.head + 1) % SIZE, consumer := Resting, taken := s.taken + [s.consumer.offset])
    else s
  }

  /** One step of one thread; an action whose thread is elsewhere in its code changes nothing. */
  function Next(s: State, a: Action): State {
    match a
    case Call(p, offset) => CallStep(s, p, offset)
    case LoadTail(p) => LoadTailStep(s, p)
    case LoadHead(p) => LoadHeadStep(s, p)
    case Cas(p, spurious) => CasStep(s, p, spurious)
    case Publish(p) => PublishStep(s, p)
    case ReadHead => ReadHeadStep(s)
    case ReadTail => ReadTailStep(s)
    case ReadSlot => ReadSlotStep(s)
    case ClearSlot => ClearSlotStep(s)
    case AdvanceHead => AdvanceHeadStep(s)
  }

  // ---------- The invariant ----------

  predicate Counters(s: State) {
    && |s.slots| == SIZE
    && |s.taken| <= |s.accepted| < |s.taken| + SIZE
    && s.head == Slot(|s.taken|)
    && s.tail == Slot(|s.accepted|)
    && s.taken <= s.accepted
    && (forall x :: 0 <= x < |s.accepted| ==> s.accepted[x] != 0)
  }

  predicate ProducerOk(s: State, p: Pid) {
    var at := At(s, p);
    match Pc(s, p)
    case Idle => true
    case Retry(offset) => offset != 0
    case Loaded(offset, tail) =>
      offset != 0 && at <= |s.accepted| && tail == Slot(at) && at < |s.taken| + SIZE
    case Checked(offset, tail) =>
      offset != 0 && at <= |s.accepted| && tail == Slot(at) && at + 1 < |s.taken| + SIZE
    case Reserved(offset, tail) =>
      at in s.pending && s.pending[at] == p
  }

  // A reserved position whose store is outstanding, and the producer that owes it.
  predicate PendingOk(s: State, x: nat)
    requires x in s.pending
  {
    var p := s.pending[x];
    |s.taken| <= x < |s.accepted| && At(s, p) == x && Pc(s, p) == Reserved(s.accepted[x], Slot(x))
  }

  predicate ConsumerOk(s: State) {
    match s.consumer
    case Resting => true
    case HaveHead(head) => head == s.head
    case Spinning(head) => head == s.head && |s.taken| < |s.accepted|
    case Got(head, offset) =>
      && head == s.head && |s.taken| < |s.accepted|
      && |s.taken| !in s.pending && offset == s.accepted[|s.taken|]
    case Cleared(head, offset) =>
      && head == s.head && |s.taken| < |s.accepted|
      && |s.taken| !in s.pending && offset == s.accepted[|s.taken|]
  }

  // What slot Slot(x) holds for a position x of the window [|taken|, |taken| + SIZE).
  function Expected(s: State, x: nat): nat {
    if x < |s.accepted| && x !in s.pending && !(x == |s.taken| && s.consumer.Cleared?)
    then s.accepted[x] else 0
  }

  predicate Window(s: State)
    requires |s.slots| == SIZE
  {
    forall x: nat :: |s.taken| <= x < |s.taken| + SIZE ==> s.slots[Slot(x)] == Expected(s, x)
  }

  predicate Inv(s: State) {
    && Counters(s)
    && (forall p :: p in s.producers ==> ProducerOk(s, p))
    && (forall x :: x in s.pending ==> PendingOk(s, x))
    && ConsumerOk(s)
    && Window(s)
  }

  /** A CAS that wins: the weak compare does not fail spuriously and sees the loaded tail. */
  predicate Wins(s: State, a: Action) {
    a.Cas? && Pc(s, a.p).Checked? && !a.spurious && s.tail == Pc(s, a.p).tail
  }

  /** The one step the code does not guard: a CAS that wins although every usable slot is
      reserved already. */
  predicate ReservesWhenFull(s: State, a: Action) {
    Wins(s, a) && |s.accepted| >= |s.taken| + SIZE - 1
  }

  /** Between its tail load and this winning CAS, a whole lap of reservations went by. */
  predicate Overtaken(s: State, a: Action) {
    Wins(s, a) && At(s, a.p) + SIZE <= |s.accepted|
  }

  lemma InitInv()
    ensures Inv(Init())
  {}

  // A producer that neither owns nor acquires a reservation moves on.
  lemma MoveKeepsInv(s: State, p: Pid, c: Producer)
    requires Inv(s) && !Pc(s, p).Reserved? && !c.Reserved? && ProducerOk(Move(s, p, c), p)
    ensures Inv(Move(s, p, c))
  {
    var t := Move(s, p, c);
    forall q | q in t.producers ensures ProducerOk(t, q) { assert q != p ==> ProducerOk(s, q); }
    forall x | x in t.pending ensures PendingOk(t, x) { assert PendingOk(s, x); }
    forall x: nat | |t.taken| <= x < |t.taken| + SIZE ensures t.slots[Slot(x)] == Expected(t, x) {
      assert s.slots[Slot(x)] == Expected(s, x);
    }
  }

  lemma LoadTailKeepsInv(s: State, p: Pid)
    requires Inv(s)
    ensures Inv(LoadTailStep(s, p))
  {
    if Pc(s, p).Retry? {
      var t := s.(seen := s.seen[p := |s.accepted|]);
      forall q | q in t.producers ensures ProducerOk(t, q) { assert ProducerOk(s, q); }
      forall x | x in t.pending ensures PendingOk(t, x) { assert PendingOk(s, x); }
      forall x: nat | |t.taken| <= x < |t.taken| + SIZE ensures t.slots[Slot(x)] == Expected(t, x) {
        assert s.slots[Slot(x)] == Expected(s, x);
      }
      MoveKeepsInv(t, p, Loaded(Pc(s, p).offset, s.tail));
    }
  }

  lemma LoadHeadKeepsInv(s: State, p: Pid)
    requires Inv(s)
    ensures Inv(LoadHeadStep(s, p))
  {
    var c := Pc(s, p);
    if c.Loaded? {
      assert ProducerOk(s, p);
      if (c.tail + 1) % SIZE == s.head {
        MoveKeepsInv(s, p, Idle);
      } else {
        NotFullIsRoom(s, p);
        MoveKeepsInv(s, p, Checked(c.offset, c.tail));
      }
    }
  }

  lemma NotFullIsRoom(s: State, p: Pid)
    requires Inv(s) && Pc(s, p).Loaded? && (Pc(s, p).tail + 1) % SIZE != s.head
    ensures At(s, p) + 1 < |s.taken| + SIZE
  {
    assert ProducerOk(s, p);
    Wrapped.SlotNext(At(s, p), SIZE);
    Wrapped.SlotLap(|s.taken|, SIZE);
  }

  lemma ReserveKeepsProducers(s: State, p: Pid)
    requires Inv(s) && Pc(s, p).Checked?
    ensures var t := Reserve(s, p, Pc(s, p).offset); forall q :: q in t.producers ==> ProducerOk(t, q)
  {
    hide Window, ConsumerOk;
    var t := Reserve(s, p, Pc(s, p).offset);
    forall q | q in t.producers ensures ProducerOk(t, q) {
      if q != p { assert ProducerOk(s, q); }
    }
  }

  lemma ReserveKeepsPending(s: State, p: Pid)
    requires Inv(s) && Pc(s, p).Checked?
    ensures var t := Reserve(s, p, Pc(s, p).offset); forall x :: x in t.pending ==> PendingOk(t, x)
  {
    hide Window, ConsumerOk, ProducerOk;
    var t := Reserve(s, p, Pc(s, p).offset);
    forall x | x in t.pending ensures PendingOk(t, x) {
      if x in s.pending { assert PendingOk(s, x); }
    }
  }

  lemma ReserveKeepsWindow(s: State, p: Pid)
    requires Inv(s) && Pc(s, p).Checked? && |s.accepted| < |s.taken| + SIZE - 1
    ensures Window(Reserve(s, p, Pc(s, p).offset))
  {
    var t := Reserve(s, p, Pc(s, p).offset);
    forall x: nat | |t.taken| <= x < |t.taken| + SIZE ensures t.slots[Slot(x)] == Expected(t, x) {
      assert s.slots[Slot(x)] == Expected(s, x);
    }
  }

  lemma ReserveKeepsInv(s: State, p: Pid)
    requires Inv(s) && Pc(s, p).Checked? && |s.accepted| < |s.taken| + SIZE - 1
    ensures Inv(Reserve(s, p, Pc(s, p).offset))
  {
    hide Window, PendingOk;
    Wrapped.SlotNext(|s.accepted|, SIZE);
    assert ProducerOk(s, p);
    ReserveKeepsProducers(s, p);
    ReserveKeepsPending(s, p);
    ReserveKeepsWindow(s, p);
  }

  lemma PublishKeepsWindow(s: State, p: Pid)
    requires Inv(s) && Pc(s, p).Reserved?
    ensures Window(PublishStep(s, p))
  {
    var t, at := PublishStep(s, p), At(s, p);
    assert ProducerOk(s, p) && PendingOk(s, at);
    forall x: nat | |t.taken| <= x < |t.taken| + SIZE ensures t.slots[Slot(x)] == Expected(t, x) {
      assert s.slots[Slot(x)] == Expected(s, x);
      if Slot(x) == Slot(at) { Wrapped.WindowInjective(|s.taken|, x, at, SIZE); }
    }
  }

  lemma PublishKeepsProducers(s: State, p: Pid)
    requires Inv(s) && Pc(s, p).Reserved?
    ensures var t := PublishStep(s, p); forall q :: q in t.producers ==> ProducerOk(t, q)
  {
    hide Window, ConsumerOk;
    var t := PublishStep(s, p);
    assert ProducerOk(s, p);
    forall q | q in t.producers ensures ProducerOk(t, q) {
      if q != p { assert ProducerOk(s, q); }
    }
  }

  lemma PublishKeepsPending(s: State, p: Pid)
    requires Inv(s) && Pc(s, p).Reserved?
    ensures var t := PublishStep(s, p); forall x :: x in t.pending ==> PendingOk(t, x)
  {
    assert ProducerOk(s, p);
    hide Window, ConsumerOk, ProducerOk;
    var t := PublishStep(s, p);
    forall x | x in t.pending ensures PendingOk(t, x) { assert PendingOk(s, x); }
  }

  lemma PublishKeepsInv(s: State, p: Pid)
    requires Inv(s)
    ensures Inv(PublishStep(s, p))
  {
    if Pc(s, p).Reserved? {
      PublishKeepsProducers(s, p);
      PublishKeepsPending(s, p);
      PublishKeepsWindow(s, p);
    }
  }

  lemma ClearSlotKeepsInv(s: State)
    requires Inv(s)
    ensures Inv(ClearSlotStep(s))
  {
    if s.consumer.Got? {
      var t := ClearSlotStep(s);
      forall q | q in t.producers ensures ProducerOk(t, q) { assert ProducerOk(s, q); }
      forall x | x in t.pending ensures PendingOk(t, x) { assert PendingOk(s, x); }
      forall x: nat | |t.taken| <= x < |t.taken| + SIZE ensures t.slots[Slot(x)] == Expected(t, x) {
        assert s.slots[Slot(x)] == Expected(s, x);
        if Slot(x) == s.head { Wrapped.WindowInjective(|s.taken|, x, |s.taken|, SIZE); }
      }
    }
  }

  lemma AdvanceHeadKeepsInv(s: State)
    requires Inv(s)
    ensures Inv(AdvanceHeadStep(s))
  {
    if s.consumer.Cleared? {
      var t := AdvanceHeadStep(s);
      var h := |s.taken|;
      Wrapped.SlotNext(h, SIZE);
      Wrapped.SlotLap(h, SIZE);
      forall q | q in t.producers ensures ProducerOk(t, q) { assert ProducerOk(s, q); }
      forall x | x in t.pending ensures PendingOk(t, x) { assert PendingOk(s, x); }
      assert s.slots[Slot(h)] == Expected(s, h);
      forall x: nat | h + 1 <= x < h + 1 + SIZE ensures t.slots[Slot(x)] == Expected(t, x) {
        if x < h + SIZE { assert s.slots[Slot(x)] == Expected(s, x); }
      }
    }
  }

  // The steps that only read shared memory into the consumer's locals.
  lemma ConsumerReadKeepsInv(s: State, c: Consumer)
    requires Inv(s) && !s.consumer.Cleared? && !c.Cleared? && ConsumerOk(s.(consumer := c))
    ensures Inv(s.(consumer := c))
  {
    var t := s.(consumer := c);
    forall q | q in t.producers ensures ProducerOk(t, q) { assert ProducerOk(s, q); }
    forall x | x in t.pending ensures PendingOk(t, x) { assert PendingOk(s, x); }
    forall x: nat | |t.taken| <= x < |t.taken| + SIZE ensures t.slots[Slot(x)] == Expected(t, x) {
      assert s.slots[Slot(x)] == Expected(s, x);
    }
  }

  lemma ReadSlotKeepsInv(s: State)
    requires Inv(s)
    ensures Inv(ReadSlotStep(s))
  {
    if s.consumer.Spinning? && s.slots[s.head] != 0 {
      assert s.slots[Slot(|s.taken|)] == Expected(s, |s.taken|);
      ConsumerReadKeepsInv(s, Got(s.head, s.slots[s.head]));
    }
  }

  lemma ReadTailKeepsInv(s: State)
    requires Inv(s)
    ensures Inv(ReadTailStep(s))
  {
    if s.consumer.HaveHead? { ConsumerReadKeepsInv(s, ReadTailStep(s).consumer); }
  }

  lemma CasKeepsInv(s: State, p: Pid, spurious: bool)
    requires Inv(s) && !ReservesWhenFull(s, Cas(p, spurious))
    ensures Inv(CasStep(s, p, spurious))
  {
    if Pc(s, p).Checked? {
      assert ProducerOk(s, p);
      if Wins(s, Cas(p, spurious)) {
        ReserveKeepsInv(s, p);
      } else {
        MoveKeepsInv(s, p, Retry(Pc(s, p).offset));
      }
    }
  }

  /** A step keeps the invariant if and only if it is not a CAS that wins on a full ring. */
  lemma StepKeepsInvIff(s: State, a: Action)
    requires Inv(s)
    ensures Inv(Next(s, a)) <==> !ReservesWhenFull(s, a)
  {
    match a
    case Call(p, offset) => if Pc(s, p).Idle? && offset != 0 { MoveKeepsInv(s, p, Retry(offset)); }
    case LoadTail(p) => LoadTailKeepsInv(s, p);
    case LoadHead(p) => LoadHeadKeepsInv(s, p);
    case Cas(p, spurious) => if !ReservesWhenFull(s, a) { CasKeepsInv(s, p, spurious); }
    case Publish(p) => PublishKeepsInv(s, p);
    case ReadHead => if s.consumer.Resting? { ConsumerReadKeepsInv(s, HaveHead(s.head)); }
    case ReadTail => ReadTailKeepsInv(s);
    case ReadSlot => ReadSlotKeepsInv(s);
    case ClearSlot => ClearSlotKeepsInv(s);
    case AdvanceHead => AdvanceHeadKeepsInv(s);
  }

  /** The unguarded step needs a producer that was overtaken by a whole lap. */
  lemma FullReservationIsOvertaken(s: State, a: Action)
    requires Inv(s) && ReservesWhenFull(s, a)
    ensures Overtaken(s, a)
  {
    var at := At(s, a.p);
    assert ProducerOk(s, a.p);
    if |s.accepted| < at + SIZE { Wrapped.SlotInjective(at, |s.accepted|, SIZE); }
  }

  // ---------- Runs ----------

  predicate NotOvertaken(s: State, a: Action) { !Overtaken(s, a) }

  // A run from the start in which no producer is ever overtaken by a lap.
  predicate LapFree(run: seq<Action>) { Runs.Along(Next, NotOvertaken, Init(), run) }

  lemma {:induction false} LapFreeRunsKeepInv(run: seq<Action>)
    requires LapFree(run)
    ensures Inv(Runs.Exec(Next, Init(), run))
  {
    InitInv();
    forall s, a | Inv(s) && NotOvertaken(s, a) ensures Inv(Next(s, a)) {
      if ReservesWhenFull(s, a) { FullReservationIsOvertaken(s, a); }
      StepKeepsInvIff(s, a);
    }
    Runs.InvariantAlong(Next, NotOvertaken, Inv, Init(), run);
  }

  /** FIFO, exactly once: in every run without an overtaking lap, what the consumer has taken
      is a prefix of the offsets in the order their CAS won; at most SIZE - 1 positions are
      reserved; a non-zero slot holds the offset of a reserved position; and a consumer that
      finds head == tail has taken everything. */
  lemma ExactlyOnceFifo(run: seq<Action>)
    requires LapFree(run)
    ensures var t := Runs.Exec(Next, Init(), run);
            && t.taken <= t.accepted
            && |t.accepted| - |t.taken| <= SIZE - 1
            && |t.slots| == SIZE
            && (forall i :: 0 <= i < SIZE && t.slots[i] != 0 ==>
                  exists x :: |t.taken| <= x < |t.accepted| && Slot(x) == i && t.slots[i] == t.accepted[x])
            && (t.head == t.tail <==> t.taken == t.accepted)
  {
    LapFreeRunsKeepInv(run);
    var t := Runs.Exec(Next, Init(), run);
    var h := |t.taken|;
    forall i | 0 <= i < SIZE && t.slots[i] != 0
      ensures exists x :: h <= x < |t.accepted| && Slot(x) == i && t.slots[i] == t.accepted[x]
    {
      var x := Wrapped.PositionOf(h, i, SIZE);
      assert t.slots[Slot(x)] == Expected(t, x);
    }
    if t.head == t.tail { Wrapped.SlotInjective(h, |t.accepted|, SIZE); }
  }

  /** The consumer's spin waits for somebody: a slot it finds empty belongs to a producer that
      has won the CAS for exactly this position and has only its store left to do. */
  lemma SpinHasAnOwner(s: State)
    requires Inv(s) && s.consumer.Spinning? && s.slots[s.consumer.head] == 0
    ensures |s.taken| in s.pending
    ensures var p := s.pending[|s.taken|];
            && Pc(s, p) == Reserved(s.accepted[|s.taken|], s.head)
            && Next(Next(s, Publish(p)), ReadSlot).consumer == Got(s.head, s.accepted[|s.taken|])
  {
    assert s.slots[Slot(|s.taken|)] == Expected(s, |s.taken|);
  }

  /** The loaded tail is current and the ring is full, or it is stale and the consumer has meanwhile
      run past it by one position plus whole laps. */
  predicate LooksFull(s: State, p: Pid) {
    || At(s, p) == |s.accepted| == |s.taken| + SIZE - 1
    || (At(s, p) < |s.taken| && (|s.taken| - At(s, p) - 1) % SIZE == 0)
  }

  // When the test against the head fails.
  lemma BusyIff(s: State, p: Pid)
    requires Inv(s) && Pc(s, p).Loaded?
    ensures Pc(LoadHeadStep(s, p), p).Idle? <==> LooksFull(s, p)
  {
    var at, h := At(s, p), |s.taken|;
    assert ProducerOk(s, p);
    Wrapped.SlotNext(at, SIZE);
    if at < h {
      Wrapped.SlotDistance(at + 1, h, SIZE);
    } else {
      Wrapped.SlotDistance(h, at + 1, SIZE);
    }
  }

  predicate Trying(c: Producer) { c.Retry? || c.Loaded? || c.Checked? }

  /** How an enqueue ends, over every step of every thread: it gives up, with NOS_ERR_BUSY and nothing
      queued, exactly at a head load that finds the ring full; it wins exactly at a CAS that does
      not fail spuriously and to which whole laps, or nothing, went by since its tail load; then its
      own offset is queued. Until then it keeps trying with that offset, and each of its own steps
      takes it further. */
  lemma EnqueueEndsIff(s: State, a: Action, p: Pid)
    requires Inv(s) && Trying(Pc(s, p))
    ensures var n := Next(s, a);
            && (Pc(n, p).Idle? <==> a == LoadHead(p) && Pc(s, p).Loaded? && LooksFull(s, p))
            && (Pc(n, p).Reserved? <==>
                  a == Cas(p, false) && Pc(s, p).Checked? && (|s.accepted| - At(s, p)) % SIZE == 0)
            && (Pc(n, p).Reserved? ==> n.accepted == s.accepted + [Pc(s, p).offset] && At(n, p) == |s.accepted|)
            && (Pc(n, p).Idle? ==> n.accepted == s.accepted)
            && (!Pc(n, p).Idle? ==> Pc(n, p).offset == Pc(s, p).offset && (Trying(Pc(n, p)) || Pc(n, p).Reserved?))
            && (a == LoadTail(p) && Pc(s, p).Retry? ==> Pc(n, p).Loaded? && At(n, p) == |s.accepted|)
            && (a == LoadHead(p) && Pc(s, p).Loaded? ==> Pc(n, p).Idle? || Pc(n, p).Checked?)
            && (a.Cas? && a.p == p && Pc(s, p).Checked? ==> Pc(n, p).Reserved? || Pc(n, p).Retry?)
  {
    assert ProducerOk(s, p);
    if a == LoadHead(p) && Pc(s, p).Loaded? { BusyIff(s, p); }
    if a == Cas(p, false) && Pc(s, p).Checked? { Wrapped.SlotDistance(At(s, p), |s.accepted|, SIZE); }
    if (a.Call? || a.LoadTail? || a.LoadHead? || a.Cas? || a.Publish?) && a.p == p {
      hide LooksFull, Inv;
    } else {
      OthersLeave(s, a, p);
      hide Next, LooksFull, Inv;
    }
  }

  lemma OthersLeave(s: State, a: Action, p: Pid)
    requires a.Call? || a.LoadTail? || a.LoadHead? || a.Cas? || a.Publish? ==> a.p != p
    ensures Pc(Next(s, a), p) == Pc(s, p)
  {}

  /** A lost or spurious CAS costs the caller nothing but another round: if there is room, the next
      tail load, head load, CAS and store of the same call append its offset. */
  lemma LostCasAppendsLater(s: State, p: Pid, spurious: bool)
    requires Inv(s) && Pc(s, p).Checked? && !Wins(s, Cas(p, spurious)) && |s.accepted| < |s.taken| + SIZE - 1
    ensures var t := Runs.Exec(Next, s, [Cas(p, spurious), LoadTail(p), LoadHead(p), Cas(p, false), Publish(p)]);
            && t.accepted == s.accepted + [Pc(s, p).offset] && t.taken == s.taken && t.consumer == s.consumer
            && t.pending == s.pending && Pc(t, p).Idle? && t.slots == s.slots[s.tail := Pc(s, p).offset]
            && (forall q :: q != p ==> Pc(t, q) == Pc(s, q) && At(t, q) == At(s, q))
  {
    var r := Move(s, p, Retry(Pc(s, p).offset));
    assert Next(s, Cas(p, spurious)) == r;
    RoomIsNotFull(s);
    Runs.One(Next, s, Cas(p, spurious), [LoadTail(p), LoadHead(p), Cas(p, false), Publish(p)]);
    RetryAppends(r, p);
  }

  // The rest of a call that is about to load the tail, when the ring is not full.
  lemma RetryAppends(s: State, p: Pid)
    requires Pc(s, p).Retry? && (s.tail + 1) % SIZE != s.head && s.tail < |s.slots| && |s.accepted| !in s.pending
    ensures var t := Runs.Exec(Next, s, [LoadTail(p), LoadHead(p), Cas(p, false), Publish(p)]);
            && t.accepted == s.accepted + [Pc(s, p).offset] && t.taken == s.taken && t.consumer == s.consumer
            && t.pending == s.pending && Pc(t, p).Idle? && t.slots == s.slots[s.tail := Pc(s, p).offset]
            && (forall q :: q != p ==> Pc(t, q) == Pc(s, q) && At(t, q) == At(s, q))
  {
    var offset := Pc(s, p).offset;
    var s1 := LoadTailStep(s, p);
    var s2 := LoadHeadStep(s1, p);
    assert s2 == Move(s1, p, Checked(offset, s.tail));
    var s3 := CasStep(s2, p, false);
    assert s3 == Reserve(s2, p, offset);
    var t := PublishStep(s3, p);
    assert t.pending == s.pending;
    Runs.Four(Next, s, LoadTail(p), LoadHead(p), Cas(p, false), Publish(p));
  }

  /** How a dequeue ends: it reports an empty queue exactly at a tail load that finds everything
      reserved taken, and otherwise delivers the oldest offset, and nothing else does. */
  lemma DequeueEndsIff(s: State, a: Action)
    requires Inv(s) && !s.consumer.Resting?
    ensures var n := Next(s, a);
            && (n.consumer.Resting? <==>
                  (a.ReadTail? && s.consumer.HaveHead? && s.taken == s.accepted) || (a.AdvanceHead? && s.consumer.Cleared?))
            && n.taken == (if a.AdvanceHead? && s.consumer.Cleared? then s.taken + [s.accepted[|s.taken|]] else s.taken)
  {
    if a.ReadTail? && s.consumer.HaveHead? && s.head == s.tail { Wrapped.SlotInjective(|s.taken|, |s.accepted|, SIZE); }
  }

  // ---------- Witness runs ----------

  predicate Reaches(run: seq<Action>, s: State) { Runs.Leads(Next, NotOvertaken, Init(), run, s) }

  lemma Perform(run: seq<Action>, s: State, a: Action) returns (run': seq<Action>)
    requires Reaches(run, s) && !Overtaken(s, a)
    ensures Reaches(run', Next(s, a))
  {
    run' := run + [a];
    Runs.Extend(Next, NotOvertaken, Init(), run, s, a);
  }

  lemma ReachedInv(run: seq<Action>, s: State)
    requires Reaches(run, s)
    ensures Inv(s)
  {
    LapFreeRunsKeepInv(run);
  }

  // The four steps up to the winning CAS of an enqueue that nobody interrupts.
  lemma ReserveAloneEffect(s: State, p: Pid, offset: nat)
    requires Pc(s, p).Idle? && offset != 0 && (s.tail + 1) % SIZE != s.head
    ensures var s1 := CallStep(s, p, offset);
            var s2 := LoadTailStep(s1, p);
            var s3 := LoadHeadStep(s2, p);
            At(s3, p) == |s3.accepted| && CasStep(s3, p, false) == Reserve(s, p, offset)
  {
    var s3 := LoadHeadStep(LoadTailStep(CallStep(s, p, offset), p), p);
    assert s3.producers == s.producers[p := Checked(offset, s.tail)];
    var t := CasStep(s3, p, false);
    assert t.producers == s.producers[p := Reserved(offset, s.tail)];
    assert t.seen == s.seen[p := |s.accepted|];
  }

  lemma ReserveAlone(run: seq<Action>, s: State, p: Pid, offset: nat) returns (run': seq<Action>)
    requires Reaches(run, s) && Pc(s, p).Idle? && offset != 0 && (s.tail + 1) % SIZE != s.head
    ensures Reaches(run', Reserve(s, p, offset))
  {
    ReserveAloneEffect(s, p, offset);
    var s1 := CallStep(s, p, offset);
    var s2 := LoadTailStep(s1, p);
    var s3 := LoadHeadStep(s2, p);
    run' := Perform(run, s, Call(p, offset));
    run' := Perform(run', s1, LoadTail(p));
    run' := Perform(run', s2, LoadHead(p));
    run' := Perform(run', s3, Cas(p, false));
  }

  /** An enqueue that nobody interrupts appends its offset. */
  lemma EnqueueAlone(run: seq<Action>, s: State, p: Pid, offset: nat) returns (run': seq<Action>, t: State)
    requires Reaches(run, s)
    requires Pc(s, p).Idle? && offset != 0 && |s.accepted| < |s.taken| + SIZE - 1
    ensures Reaches(run', t)
    ensures t.accepted == s.accepted + [offset] && t.taken == s.taken && t.consumer == s.consumer
    ensures t.pending.Keys == s.pending.Keys
    ensures forall q :: Pc(t, q) == Pc(s, q) && (q != p ==> At(t, q) == At(s, q))
  {
    ReachedInv(run, s);
    RoomIsNotFull(s);
    NextPositionIsFree(s);
    PublishReserved(s, p, offset);
    hide Reaches, Inv, Reserve, PublishStep;
    run' := ReserveAlone(run, s, p, offset);
    var r := Reserve(s, p, offset);
    t := PublishStep(r, p);
    run' := Perform(run', r, Publish(p));
  }

  // What a reservation and its store do together.
  lemma PublishReserved(s: State, p: Pid, offset: nat)
    requires s.tail < |s.slots| && |s.accepted| !in s.pending && Pc(s, p).Idle?
    ensures var t := PublishStep(Reserve(s, p, offset), p);
            && t.accepted == s.accepted + [offset] && t.taken == s.taken && t.consumer == s.consumer
            && t.pending.Keys == s.pending.Keys
            && forall q :: Pc(t, q) == Pc(s, q) && (q != p ==> At(t, q) == At(s, q))
  {}

  lemma NextPositionIsFree(s: State)
    requires Inv(s)
    ensures s.tail < |s.slots| && |s.accepted| !in s.pending
  {
    hide Window, ConsumerOk, ProducerOk;
  }

  lemma RoomIsNotFull(s: State)
    requires Inv(s) && |s.accepted| < |s.taken| + SIZE - 1
    ensures (s.tail + 1) % SIZE != s.head && s.tail < |s.slots| && |s.accepted| !in s.pending
  {
    Wrapped.SlotNext(|s.accepted|, SIZE);
    if Slot(|s.accepted| + 1) == s.head { Wrapped.SlotInjective(|s.taken|, |s.accepted| + 1, SIZE); }
  }

  lemma OldestIsPublished(s: State)
    requires Inv(s) && |s.taken| < |s.accepted| && |s.taken| !in s.pending && !s.consumer.Cleared?
    ensures s.head < |s.slots| && s.slots[s.head] == s.accepted[|s.taken|] != 0 && s.head != s.tail
  {
    assert s.slots[Slot(|s.taken|)] == Expected(s, |s.taken|);
    if s.head == s.tail { Wrapped.SlotInjective(|s.taken|, |s.accepted|, SIZE); }
  }

  /** A dequeue that nobody interrupts takes the oldest published offset. */
  lemma DequeueAlone(run: seq<Action>, s: State) returns (run': seq<Action>, t: State)
    requires Reaches(run, s)
    requires s.consumer.Resting? && |s.taken| < |s.accepted| && |s.taken| !in s.pending
    ensures Reaches(run', t)
    ensures t.taken == s.taken + [s.accepted[|s.taken|]] && t.accepted == s.accepted
    ensures t.consumer == s.consumer && t.pending == s.pending && t.producers == s.producers && t.seen == s.seen
  {
    ReachedInv(run, s);
    OldestIsPublished(s);
    var offset := s.accepted[|s.taken|];
    run' := Perform(run, s, ReadHead);
    run' := Perform(run', s.(consumer := HaveHead(s.head)), ReadTail);
    run' := Perform(run', s.(consumer := Spinning(s.head)), ReadSlot);
    run' := Perform(run', s.(consumer := Got(s.head, offset)), ClearSlot);
    var cleared := s.(slots := s.slots[s.head := 0], consumer := Cleared(s.head, offset));
    run' := Perform(run', cleared, AdvanceHead);
    t := AdvanceHeadStep(cleared);
  }

  /** The stale case of BusyIff happens, in a run without any lap: NOS_ERR_BUSY on an empty
      queue. Producer 0 loads the tail, producer 1 enqueues, the consumer takes that offset,
      producer 0 loads the head. */
  lemma BusyOnEmptyQueue() returns (run: seq<Action>, t: State)
    ensures Reaches(run, t)
    ensures t.taken == t.accepted && Pc(t, 0).Loaded? && Pc(LoadHeadStep(t, 0), 0).Idle?
  {
    run := Perform([], Init(), Call(0, 9));
    t := CallStep(Init(), 0, 9);
    run := Perform(run, t, LoadTail(0));
    t := LoadTailStep(t, 0);
    assert Pc(t, 0) == Loaded(9, 0);
    run, t := EnqueueAlone(run, t, 1, 7);
    assert Pc(t, 0) == Loaded(9, 0) && 0 !in t.pending.Keys;
    run, t := DequeueAlone(run, t);
    assert Pc(t, 0) == Loaded(9, 0);
    ReachedInv(run, t);
    BusyIff(t, 0);
  }

  lemma {:induction false} FillUp(run: seq<Action>, s: State, n: nat) returns (run': seq<Action>, t: State)
    requires Reaches(run, s) && Pc(s, 1).Idle? && |s.accepted| + n < |s.taken| + SIZE
    ensures Reaches(run', t)
    ensures |t.accepted| == |s.accepted| + n && t.taken == s.taken && t.consumer == s.consumer
    ensures t.pending.Keys == s.pending.Keys
    ensures forall q :: Pc(t, q) == Pc(s, q) && (q != 1 ==> At(t, q) == At(s, q))
    decreases n
  {
    run', t := run, s;
    if n > 0 {
      run', t := EnqueueAlone(run, s, 1, 7);
      run', t := FillUp(run', t, n - 1);
    }
  }

  // Producer 0 checks an empty queue and stops before its CAS; a whole lap goes by.
  lemma OvertakenProducer() returns (run: seq<Action>, s: State)
    ensures Reaches(run, s)
    ensures |s.accepted| == SIZE && |s.taken| == 1 && s.consumer.Resting?
    ensures Pc(s, 0) == Checked(9, 0) && At(s, 0) == 0
  {
    run := Perform([], Init(), Call(0, 9));
    s := CallStep(Init(), 0, 9);
    run := Perform(run, s, LoadTail(0));
    s := LoadTailStep(s, 0);
    run := Perform(run, s, LoadHead(0));
    s := LoadHeadStep(s, 0);
    assert Pc(s, 0) == Checked(9, 0);
    run, s := FillUp(run, s, SIZE - 1);
    assert 0 !in s.pending.Keys;
    run, s := DequeueAlone(run, s);
    run, s := EnqueueAlone(run, s, 1, 7);
  }

  /** The hypothesis of ExactlyOnceFifo cannot be dropped: after a run without any lap the CAS
      of an overtaken producer wins on a full ring. Then 4096 positions are reserved and not
      taken, head == tail, and the consumer's next call reports an empty queue. */
  lemma OvertakingLapHidesAFullQueue() returns (run: seq<Action>, s: State)
    ensures Reaches(run, s) && Overtaken(s, Cas(0, false))
    ensures var t := Next(s, Cas(0, false));
            && |t.accepted| - |t.taken| == SIZE && t.head == t.tail && !Inv(t)
            && t.consumer.Resting? && Next(Next(t, ReadHead), ReadTail) == t
  {
    run, s := OvertakenProducer();
    ReachedInv(run, s);
    Wrapped.SlotLap(0, SIZE);
    Wrapped.SlotNext(SIZE, SIZE);
    StepKeepsInvIff(s, Cas(0, false));
  }

  /** nos_shm_mpsc_queue_t with")
      access of the C code by one thread; its contract is the step of the machine above. */
  class Queue {
    var head: nat
    var tail: nat
    const offsets: array<nat>
    var producers: map<Pid, Producer>
    var consumer: Consumer
    ghost var seen: map<Pid, nat>
    ghost var accepted: seq<nat>
    ghost var taken: seq<nat>
    ghost var pending: map<nat, Pid>

    ghost function View(): State
      reads this, offsets
    {
      State(head, tail, offsets[..], producers, consumer, seen, accepted, taken, pending)
    }

    constructor ()
      ensures offsets.Length == SIZE && fresh(offsets) && View() == Init()
    {
      head, tail, producers, consumer := 0, 0, map[], Resting;
      offsets := new nat[SIZE](_ => 0);
      seen, accepted, taken, pending := map[], [], [], map[];
    }

    method ProducerStep(a: Action)
      requires offsets.Length == SIZE
      requires a.Call? || a.LoadTail? || a.LoadHead? || a.Cas? || a.Publish?
      modifies this, offsets
      ensures View() == Next(old(View()), a)
    {
      var p := a.p;
      var pc := if p in producers then producers[p] else Idle;
      match a
      case Call(_, offset) =>
        if pc.Idle? && offset != 0 { producers := producers[p := Retry(offset)]; }
      case LoadTail(_) =>
        if pc.Retry? {
          producers := producers[p := Loaded(pc.offset, tail)];
          seen := seen[p := |accepted|];
        }
      case LoadHead(_) =>
        if pc.Loaded? {
          if (pc.tail + 1) % SIZE == head {
            producers := producers[p := Idle];
          } else {
            producers := producers[p := Checked(pc.offset, pc.tail)];
          }
        }
      case Cas(_, spurious) =>
        if pc.Checked? {
          if !spurious && tail == pc.tail {
            tail := (pc.tail + 1) % SIZE;
            producers := producers[p := Reserved(pc.offset, pc.tail)];
            pending, seen := pending[|accepted| := p], seen[p := |accepted|];
            accepted := accepted + [pc.offset];
          } else {
            producers := producers[p := Retry(pc.offset)];
          }
        }
      case Publish(_) =>
        if pc.Reserved? && pc.tail < SIZE {
          offsets[pc.tail] := pc.offset;
          producers := producers[p := Idle];
          pending := pending - {At(old(View()), p)};
        }
    }

    method ConsumerStep(a: Action)
      requires offsets.Length == SIZE
      requires a.ReadHead? || a.ReadTail? || a.ReadSlot? || a.ClearSlot? || a.AdvanceHead?
      modifies this, offsets
      ensures View() == Next(old(View()), a)
    {
      match a
      case ReadHead =>
        if consumer.Resting? { consumer := HaveHead(head); }
      case ReadTail =>
        if consumer.HaveHead? {
          consumer := if consumer.head == tail then Resting else Spinning(consumer.head);
        }
      case ReadSlot =>
        if consumer.Spinning? && consumer.head < SIZE && offsets[consumer.head] != 0 {
          consumer := Got(consumer.head, offsets[consumer.head]);
        }
      case ClearSlot =>
        if consumer.Got? && consumer.head < SIZE {
          offsets[consumer.head] := 0;
          consumer := Cleared(consumer.head, consumer.offset);
        }
      case AdvanceHead =>
        if consumer.Cleared? {
          head := (consumer.head + 1) % SIZE;
          taken := taken + [consumer.offset];
          consumer := Resting;
        }
    }
  }
}
