/** The asynchronous log ring (src/infra/log/nos_log.c): producers draw a ticket, claim the
    ticket's slot by a compare-and-swap from Empty to Writing or drop the entry, write it, and
    mark it Ready; one consumer prints Ready slots in slot order. Every atomic access is one step,
    the entry is written in two separate stores, any number of producers interleave, memory is
    sequentially consistent.

    `tickets`, `ticketOf`, `owner` and `shown` are history: no branch reads them. */
module LogRing {
  import Wrapped
  import Runs

  const SIZE: nat := 1024
  const UINT32: nat := 0x1_0000_0000

  type Pid = nat

  // What a log call carries: the fields and the formatted text.
  datatype Msg = Msg(fields: nat, text: nat)

  datatype Ready = Empty | Writing | Full

  datatype Entry = Entry(ready: Ready, fields: nat, text: nat)

  datatype Producer =
    | Idle
    | Holding(msg: Msg, idx: nat)     // ticket drawn, slot not yet claimed
    | Claimed(msg: Msg, idx: nat)     // CAS won, nothing written
    | Half(msg: Msg, idx: nat)        // fields written
    | Written(msg: Msg, idx: nat)     // text written, about to mark Ready

  datatype Consumer = Waiting | Found | Shown | Emptied

  datatype Status = Unclaimed | InWork | Complete | Printed(at: nat) | Dropped

  datatype Ticket = Ticket(msg: Msg, author: Pid, status: Status)

  datatype State = State(
    ring: seq<Entry>, writeIdx: nat, readIdx: nat, dropped: nat,
    producers: map<Pid, Producer>, consumer: Consumer, printed: seq<Msg>,
    tickets: seq<Ticket>, ticketOf: map<Pid, nat>, owner: map<nat, nat>, shown: seq<nat>)

  datatype Action =
    | Log(p: Pid, msg: Msg)
    | Claim(p: Pid)
    | WriteFields(p: Pid)
    | WriteText(p: Pid)
    | Publish(p: Pid)
    | Check
    | Print
    | Clear
    | Advance

  function Slot(t: nat): nat { Wrapped.Slot(t, SIZE) }

  function Pc(s: State, p: Pid): Producer { if p in s.producers then s.producers[p] else Idle }

  function TicketOf(s: State, p: Pid): nat { if p in s.ticketOf then s.ticketOf[p] else 0 }

  function OwnerOf(s: State, i: nat): nat { if i in s.owner then s.owner[i] else 0 }

  function Move(s: State, p: Pid, c: Producer): State { s.(producers := s.producers[p := c]) }

  function Mark(ts: seq<Ticket>, t: nat, st: Status): seq<Ticket> {
    if t < |ts| then ts[t := ts[t].(status := st)] else ts
  }

  function Init(): State {
    State(seq(SIZE, _ => Entry(Empty, 0, 0)), 0, 0, 0, map[], Waiting, [], [], map[], map[], [])
  }

  // ---------- The steps ----------

  // atomic_fetch_add on write_idx.
  function LogStep(s: State, p: Pid, msg: Msg): State {
    if !Pc(s, p).Idle? then s
    else Move(s, p, Holding(msg, s.writeIdx % SIZE)).(
           writeIdx := (s.writeIdx + 1) % UINT32,
           tickets := s.tickets + [Ticket(msg, p, Unclaimed)], ticketOf := s.ticketOf[p := |s.tickets|])
  }

  function ClaimStep(s: State, p: Pid): State {
    var c := Pc(s, p);
    if !c.Holding? || c.idx >= |s.ring| then s
    else if s.ring[c.idx].ready.Empty?
    then Move(s, p, Claimed(c.msg, c.idx)).(
           ring := s.ring[c.idx := s.ring[c.idx].(ready := Writing)],
           tickets := Mark(s.tickets, TicketOf(s, p), InWork), owner := s.owner[c.idx := TicketOf(s, p)])
    else Move(s, p, Idle).(dropped := s.dropped + 1, tickets := Mark(s.tickets, TicketOf(s, p), Dropped))
  }

  function WriteFieldsStep(s: State, p: Pid): State {
    var c := Pc(s, p);
    if !c.Claimed? || c.idx >= |s.ring| then s
    else Move(s, p, Half(c.msg, c.idx)).(ring := s.ring[c.idx := s.ring[c.idx].(fields := c.msg.fields)])
  }

  function WriteTextStep(s: State, p: Pid): State {
    var c := Pc(s, p);
    if !c.Half? || c.idx >= |s.ring| then s
    else Move(s, p, Written(c.msg, c.idx)).(ring := s.ring[c.idx := s.ring[c.idx].(text := c.msg.text)])
  }

  function PublishStep(s: State, p: Pid): State {
    var c := Pc(s, p);
    if !c.Written? || c.idx >= |s.ring| then s
    else Move(s, p, Idle).(ring := s.ring[c.idx := s.ring[c.idx].(ready := Full)],
                           tickets := Mark(s.tickets, TicketOf(s, p), Complete))
  }

  // Not ready: the consumer sleeps and looks at the same slot again.
  function CheckStep(s: State): State {
    var i := s.readIdx % SIZE;
    if s.consumer.Waiting? && i < |s.ring| && s.ring[i].ready.Full? then s.(consumer := Found) else s
  }

  function PrintStep(s: State): State {
    var i := s.readIdx % SIZE;
    if !s.consumer.Found? || i >= |s.ring| then s
    else s.(consumer := Shown, printed := s.printed + [Msg(s.ring[i].fields, s.ring[i].text)],
            tickets := Mark(s.tickets, OwnerOf(s, i), Printed(|s.printed|)), shown := s.shown + [OwnerOf(s, i)])
  }

  function ClearStep(s: State): State {
    var i := s.readIdx % SIZE;
    if !s.consumer.Shown? || i >= |s.ring| then s
    else s.(consumer := Emptied, ring := s.ring[i := s.ring[i].(ready := Empty)], owner := s.owner - {i})
  }

  function AdvanceStep(s: State): State {
    if !s.consumer.Emptied? then s else s.(consumer := Waiting, readIdx := (s.readIdx + 1) % UINT32)
  }

  function Next(s: State, a: Action): State {
    match a
    case Log(p, msg) => LogStep(s, p, msg)
    case Claim(p) => ClaimStep(s, p)
    case WriteFields(p) => WriteFieldsStep(s, p)
    case WriteText(p) => WriteTextStep(s, p)
    case Publish(p) => PublishStep(s, p)
    case Check => CheckStep(s)
    case Print => PrintStep(s)
    case Clear => ClearStep(s)
    case Advance => AdvanceStep(s)
  }

  // ---------- Slot safety ----------

  predicate InSlot(c: Producer) { c.Claimed? || c.Half? || c.Written? }

  // How many entries the consumer is done with.
  function Done(s: State): int {
    if s.consumer.Shown? || s.consumer.Emptied? then |s.printed| - 1 else |s.printed|
  }

  predicate Counters(s: State) {
    && |s.ring| == SIZE && |s.shown| == |s.printed| && Done(s) >= 0
    && s.writeIdx == |s.tickets| % UINT32 && s.readIdx == Done(s) % UINT32
  }

  // The slot of a ticket that is being written or complete belongs to that ticket alone.
  predicate TicketOk(s: State, t: nat)
    requires t < |s.tickets| && |s.ring| == SIZE
  {
    var k, i := s.tickets[t], Slot(t);
    var c := Pc(s, k.author);
    match k.status
    case Unclaimed => c == Holding(k.msg, i) && TicketOf(s, k.author) == t
    case InWork =>
      && InSlot(c) && c.msg == k.msg && c.idx == i && TicketOf(s, k.author) == t
      && i in s.owner && s.owner[i] == t && s.ring[i].ready == Writing
      && (!c.Claimed? ==> s.ring[i].fields == k.msg.fields)
      && (c.Written? ==> s.ring[i].text == k.msg.text)
    case Complete =>
      i in s.owner && s.owner[i] == t && s.ring[i] == Entry(Full, k.msg.fields, k.msg.text)
    case Printed(at) =>
      && at < |s.shown| && at < |s.printed| && s.shown[at] == t && s.printed[at] == k.msg && Slot(at) == i
    case Dropped => true
  }

  predicate PidOk(s: State, p: Pid) {
    !Pc(s, p).Idle? ==>
      && TicketOf(s, p) < |s.tickets| && s.tickets[TicketOf(s, p)].author == p
      && s.tickets[TicketOf(s, p)].status == (if Pc(s, p).Holding? then Unclaimed else InWork)
  }

  // A slot in use names its ticket; only the one being cleared names a printed one.
  predicate SlotOk(s: State, i: nat)
    requires i < |s.ring|
  {
    && (s.ring[i].ready.Empty? <==> i !in s.owner)
    && (i in s.owner ==>
          && s.owner[i] < |s.tickets| && Slot(s.owner[i]) == i
          && (s.tickets[s.owner[i]].status.InWork? || s.tickets[s.owner[i]].status.Complete?
              || (s.consumer.Shown? && |s.printed| > 0 && s.tickets[s.owner[i]].status == Printed(|s.printed| - 1)
                  && s.ring[i].ready.Full?)))
  }

  predicate ShownOk(s: State, k: nat)
    requires k < |s.shown|
  {
    s.shown[k] < |s.tickets| && s.tickets[s.shown[k]].status == Printed(k)
  }

  predicate ConsumerOk(s: State)
    requires |s.ring| == SIZE && Done(s) >= 0
  {
    var i := Slot(Done(s));
    match s.consumer
    case Waiting => true
    case Found => s.ring[i].ready.Full?
    case Shown => |s.shown| > 0 && i in s.owner && s.owner[i] == s.shown[|s.shown| - 1] && s.ring[i].ready.Full?
    case Emptied => true
  }

  predicate Tickets(s: State) requires |s.ring| == SIZE { forall t :: 0 <= t < |s.tickets| ==> TicketOk(s, t) }

  predicate Pids(s: State) { forall p :: p in s.producers ==> PidOk(s, p) }

  predicate Slots(s: State) requires |s.ring| == SIZE { forall i :: 0 <= i < SIZE ==> SlotOk(s, i) }

  predicate ShownAll(s: State) { forall k :: 0 <= k < |s.shown| ==> ShownOk(s, k) }

  predicate Inv(s: State) {
    Counters(s) && Tickets(s) && Pids(s) && Slots(s) && ShownAll(s) && ConsumerOk(s)
    && (forall i :: i in s.owner ==> i < SIZE)
  }

  lemma WrapKeepsSlot(x: nat)
    ensures (x % UINT32) % SIZE == x % SIZE
  {
    var q := x / UINT32;
    var y := x % UINT32;
    assert x == (q * 4194304) * SIZE + y;
    Wrapped.ModUnique(x, q * 4194304 + y / SIZE, y % SIZE, SIZE);
  }

  lemma WrapSteps(x: nat)
    ensures ((x % UINT32) + 1) % UINT32 == (x + 1) % UINT32
  {}

  // The wrapped counters name the right slot.
  lemma CounterSlot(x: nat)
    ensures (x % UINT32) % SIZE == Slot(x) && ((x % UINT32) + 1) % UINT32 == (x + 1) % UINT32
  {
    Wrapped.SlotIsMod(x, SIZE);
    WrapKeepsSlot(x);
    WrapSteps(x);
  }

  lemma InitInv()
    ensures Inv(Init())
  {}

  lemma LogKeepsInv(s: State, p: Pid, msg: Msg)
    requires Inv(s)
    ensures Inv(LogStep(s, p, msg))
  {
    if Pc(s, p).Idle? {
      var n := LogStep(s, p, msg);
      CounterSlot(|s.tickets|);
      forall t | 0 <= t < |n.tickets| ensures TicketOk(n, t) { if t < |s.tickets| { assert TicketOk(s, t); } }
      forall q | q in n.producers ensures PidOk(n, q) { assert q != p ==> PidOk(s, q); }
      forall i | 0 <= i < SIZE ensures SlotOk(n, i) { assert SlotOk(s, i); }
      forall k | 0 <= k < |n.shown| ensures ShownOk(n, k) { assert ShownOk(s, k); }
    }
  }

  // The CAS wins.
  function Take(s: State, p: Pid, t: nat, c: Producer): State
    requires c.Holding? && c.idx < |s.ring|
  {
    Move(s, p, Claimed(c.msg, c.idx)).(
      ring := s.ring[c.idx := s.ring[c.idx].(ready := Writing)],
      tickets := Mark(s.tickets, t, InWork), owner := s.owner[c.idx := t])
  }

  lemma TakeKeepsTickets(s: State, p: Pid)
    requires Inv(s) && Pc(s, p).Holding? && Pc(s, p).idx < |s.ring| && s.ring[Pc(s, p).idx].ready.Empty?
    ensures Tickets(Take(s, p, TicketOf(s, p), Pc(s, p)))
  {
    var n := Take(s, p, TicketOf(s, p), Pc(s, p));
    assert PidOk(s, p) && TicketOk(s, TicketOf(s, p));
    forall t | 0 <= t < |n.tickets| ensures TicketOk(n, t) { assert TicketOk(s, t); }
  }

  lemma TakeKeepsPids(s: State, p: Pid)
    requires Inv(s) && Pc(s, p).Holding? && Pc(s, p).idx < |s.ring|
    ensures Pids(Take(s, p, TicketOf(s, p), Pc(s, p)))
  {
    var n := Take(s, p, TicketOf(s, p), Pc(s, p));
    assert PidOk(s, p) && TicketOk(s, TicketOf(s, p));
    forall q | q in n.producers ensures PidOk(n, q) { assert q != p ==> PidOk(s, q); }
  }

  lemma TakeKeepsSlots(s: State, p: Pid)
    requires Inv(s) && Pc(s, p).Holding? && Pc(s, p).idx < |s.ring| && s.ring[Pc(s, p).idx].ready.Empty?
    ensures Slots(Take(s, p, TicketOf(s, p), Pc(s, p))) && ShownAll(Take(s, p, TicketOf(s, p), Pc(s, p)))
  {
    var n := Take(s, p, TicketOf(s, p), Pc(s, p));
    assert PidOk(s, p) && TicketOk(s, TicketOf(s, p));
    forall i | 0 <= i < SIZE ensures SlotOk(n, i) { assert SlotOk(s, i); }
    forall k | 0 <= k < |n.shown| ensures ShownOk(n, k) { assert ShownOk(s, k); }
  }

  // The CAS fails: the entry is dropped and counted.
  lemma DropKeepsInv(s: State, p: Pid)
    requires Inv(s) && Pc(s, p).Holding?
    ensures Inv(Move(s, p, Idle).(dropped := s.dropped + 1, tickets := Mark(s.tickets, TicketOf(s, p), Dropped)))
  {
    var n := Move(s, p, Idle).(dropped := s.dropped + 1, tickets := Mark(s.tickets, TicketOf(s, p), Dropped));
    assert PidOk(s, p) && TicketOk(s, TicketOf(s, p));
    forall t | 0 <= t < |n.tickets| ensures TicketOk(n, t) { assert TicketOk(s, t); }
    forall q | q in n.producers ensures PidOk(n, q) { assert q != p ==> PidOk(s, q); }
    forall i | 0 <= i < SIZE ensures SlotOk(n, i) { assert SlotOk(s, i); }
    forall k | 0 <= k < |n.shown| ensures ShownOk(n, k) { assert ShownOk(s, k); }
  }

  lemma ClaimKeepsInv(s: State, p: Pid)
    requires Inv(s)
    ensures Inv(ClaimStep(s, p))
  {
    var c := Pc(s, p);
    if c.Holding? {
      assert PidOk(s, p) && TicketOk(s, TicketOf(s, p));
      if s.ring[c.idx].ready.Empty? {
        TakeKeepsTickets(s, p);
        TakeKeepsPids(s, p);
        TakeKeepsSlots(s, p);
      } else {
        DropKeepsInv(s, p);
      }
    }
  }

  // The slot a producer works on is marked Writing.
  lemma OwnSlot(s: State, p: Pid)
    requires Inv(s) && InSlot(Pc(s, p))
    ensures var i := Pc(s, p).idx; i < SIZE && i in s.owner && s.ring[i].ready == Writing
  {
    assert PidOk(s, p) && TicketOk(s, TicketOf(s, p));
  }

  lemma WriteFieldsKeepsTickets(s: State, p: Pid)
    requires Inv(s) && Pc(s, p).Claimed?
    ensures |WriteFieldsStep(s, p).ring| == SIZE && Tickets(WriteFieldsStep(s, p))
  {
    hide SlotOk, ShownOk, ConsumerOk;
    var n := WriteFieldsStep(s, p);
    assert PidOk(s, p) && TicketOk(s, TicketOf(s, p));
    forall t | 0 <= t < |n.tickets| ensures TicketOk(n, t) { assert TicketOk(s, t); }
  }

  lemma WriteFieldsKeepsInv(s: State, p: Pid)
    requires Inv(s)
    ensures Inv(WriteFieldsStep(s, p))
  {
    if Pc(s, p).Claimed? {
      var n := WriteFieldsStep(s, p);
      OwnSlot(s, p);
      WriteFieldsKeepsTickets(s, p);
      hide TicketOk;
      forall q | q in n.producers ensures PidOk(n, q) { assert PidOk(s, q) && PidOk(s, p); }
      forall i | 0 <= i < SIZE ensures SlotOk(n, i) { assert SlotOk(s, i); }
      forall k | 0 <= k < |n.shown| ensures ShownOk(n, k) { assert ShownOk(s, k); }
    }
  }

  lemma WriteTextKeepsTickets(s: State, p: Pid)
    requires Inv(s) && Pc(s, p).Half?
    ensures |WriteTextStep(s, p).ring| == SIZE && Tickets(WriteTextStep(s, p))
  {
    hide SlotOk, ShownOk, ConsumerOk;
    var n := WriteTextStep(s, p);
    assert PidOk(s, p) && TicketOk(s, TicketOf(s, p));
    forall t | 0 <= t < |n.tickets| ensures TicketOk(n, t) { assert TicketOk(s, t); }
  }

  lemma WriteTextKeepsInv(s: State, p: Pid)
    requires Inv(s)
    ensures Inv(WriteTextStep(s, p))
  {
    if Pc(s, p).Half? {
      var n := WriteTextStep(s, p);
      OwnSlot(s, p);
      WriteTextKeepsTickets(s, p);
      hide TicketOk;
      forall q | q in n.producers ensures PidOk(n, q) { assert PidOk(s, q) && PidOk(s, p); }
      forall i | 0 <= i < SIZE ensures SlotOk(n, i) { assert SlotOk(s, i); }
      forall k | 0 <= k < |n.shown| ensures ShownOk(n, k) { assert ShownOk(s, k); }
    }
  }

  lemma PublishKeepsInv(s: State, p: Pid)
    requires Inv(s)
    ensures Inv(PublishStep(s, p))
  {
    if Pc(s, p).Written? {
      var n := PublishStep(s, p);
      assert PidOk(s, p) && TicketOk(s, TicketOf(s, p));
      forall t | 0 <= t < |n.tickets| ensures TicketOk(n, t) { assert TicketOk(s, t); }
      forall q | q in n.producers ensures PidOk(n, q) { assert q != p ==> PidOk(s, q); }
      forall i | 0 <= i < SIZE ensures SlotOk(n, i) { assert SlotOk(s, i); }
      forall k | 0 <= k < |n.shown| ensures ShownOk(n, k) { assert ShownOk(s, k); }
    }
  }

  lemma PrintKeepsInv(s: State)
    requires Inv(s)
    ensures Inv(PrintStep(s))
  {
    if s.consumer.Found? {
      var n := PrintStep(s);
      CounterSlot(Done(s));
      assert SlotOk(s, Slot(Done(s)));
      assert TicketOk(s, s.owner[Slot(Done(s))]) && s.tickets[s.owner[Slot(Done(s))]].status.Complete?;
      forall t | 0 <= t < |n.tickets| ensures TicketOk(n, t) { assert TicketOk(s, t); }
      forall q | q in n.producers ensures PidOk(n, q) { assert PidOk(s, q); }
      forall i | 0 <= i < SIZE ensures SlotOk(n, i) { assert SlotOk(s, i); }
      forall k | 0 <= k < |n.shown| ensures ShownOk(n, k) { if k < |s.shown| { assert ShownOk(s, k); } }
    }
  }

  lemma ClearKeepsInv(s: State)
    requires Inv(s)
    ensures Inv(ClearStep(s))
  {
    if s.consumer.Shown? {
      var n := ClearStep(s);
      CounterSlot(Done(s));
      assert SlotOk(s, Slot(Done(s))) && ShownOk(s, |s.shown| - 1);
      forall t | 0 <= t < |n.tickets| ensures TicketOk(n, t) { assert TicketOk(s, t); }
      forall q | q in n.producers ensures PidOk(n, q) { assert PidOk(s, q); }
      forall i | 0 <= i < SIZE ensures SlotOk(n, i) {
        assert SlotOk(s, i) && (i in s.owner ==> TicketOk(s, s.owner[i]));
      }
      forall k | 0 <= k < |n.shown| ensures ShownOk(n, k) { assert ShownOk(s, k); }
    }
  }

  // Only the consumer's own locals move.
  lemma LookKeepsInv(s: State, c: Consumer, r: nat)
    requires Inv(s) && !s.consumer.Shown? && !c.Shown?
    requires var n := s.(consumer := c, readIdx := r); Counters(n) && ConsumerOk(n)
    ensures Inv(s.(consumer := c, readIdx := r))
  {
    var n := s.(consumer := c, readIdx := r);
    forall t | 0 <= t < |s.tickets| ensures TicketOk(n, t) { assert TicketOk(s, t); }
    forall q | q in s.producers ensures PidOk(n, q) { assert PidOk(s, q); }
    forall i | 0 <= i < SIZE ensures SlotOk(n, i) { assert SlotOk(s, i); }
    forall k | 0 <= k < |s.shown| ensures ShownOk(n, k) { assert ShownOk(s, k); }
  }

  lemma CheckKeepsInv(s: State)
    requires Inv(s)
    ensures Inv(CheckStep(s))
  {
    CounterSlot(Done(s));
    if CheckStep(s) != s { LookKeepsInv(s, Found, s.readIdx); }
  }

  lemma AdvanceKeepsInv(s: State)
    requires Inv(s)
    ensures Inv(AdvanceStep(s))
  {
    CounterSlot(Done(s));
    if s.consumer.Emptied? { LookKeepsInv(s, Waiting, (s.readIdx + 1) % UINT32); }
  }

  lemma StepKeepsInv(s: State, a: Action)
    requires Inv(s)
    ensures Inv(Next(s, a))
  {
    match a
    case Log(p, msg) => LogKeepsInv(s, p, msg);
    case Claim(p) => ClaimKeepsInv(s, p);
    case WriteFields(p) => WriteFieldsKeepsInv(s, p);
    case WriteText(p) => WriteTextKeepsInv(s, p);
    case Publish(p) => PublishKeepsInv(s, p);
    case Check => CheckKeepsInv(s);
    case Print => PrintKeepsInv(s);
    case Clear => ClearKeepsInv(s);
    case Advance => AdvanceKeepsInv(s);
  }

  predicate Any(s: State, a: Action) { true }

  lemma {:induction false} AnyAlong(s: State, run: seq<Action>)
    ensures Runs.Along(Next, Any, s, run)
    decreases |run|
  {
    if run != [] { AnyAlong(Next(s, run[0]), run[1..]); }
  }

  lemma RunKeepsInv(run: seq<Action>)
    ensures Inv(Runs.Exec(Next, Init(), run))
  {
    InitInv();
    forall s, a | Inv(s) ensures Inv(Next(s, a)) { StepKeepsInv(s, a); }
    AnyAlong(Init(), run);
    Runs.InvariantAlong(Next, Any, Inv, Init(), run);
  }

  /** Slot safety, in every run: a slot has at most one writer, it is marked Writing meanwhile, and
      what the consumer is about to print was completely written by one log call. */
  lemma SlotsAreSafe(run: seq<Action>, p: Pid, q: Pid)
    ensures var s := Runs.Exec(Next, Init(), run);
            && |s.ring| == SIZE
            && (InSlot(Pc(s, p)) ==> Pc(s, p).idx < SIZE && s.ring[Pc(s, p).idx].ready == Writing)
            && (p != q && InSlot(Pc(s, p)) && InSlot(Pc(s, q)) ==> Pc(s, p).idx != Pc(s, q).idx)
            && (s.consumer.Found? ==>
                  exists t :: 0 <= t < |s.tickets| && s.tickets[t].status == Complete
                    && PrintStep(s).printed == s.printed + [s.tickets[t].msg])
  {
    RunKeepsInv(run);
    var s := Runs.Exec(Next, Init(), run);
    if InSlot(Pc(s, p)) { assert PidOk(s, p) && TicketOk(s, TicketOf(s, p)); }
    if InSlot(Pc(s, q)) { assert PidOk(s, q) && TicketOk(s, TicketOf(s, q)); }
    if s.consumer.Found? {
      FoundTicket(s);
      var t := s.owner[s.readIdx % SIZE];
      assert SlotOk(s, s.readIdx % SIZE) && TicketOk(s, t);
      assert PrintStep(s).printed == s.printed + [s.tickets[t].msg];
    }
  }

  /** Every printed entry is the message of one ticket, no ticket is printed twice, and the k-th
      printed entry comes from slot k of the ring, in every run. */
  lemma PrintsAreTickets(run: seq<Action>, k: nat, j: nat)
    requires var s := Runs.Exec(Next, Init(), run); j < k < |s.printed|
    ensures var s := Runs.Exec(Next, Init(), run);
            && |s.shown| == |s.printed| && s.shown[k] < |s.tickets|
            && s.printed[k] == s.tickets[s.shown[k]].msg
            && s.shown[k] % SIZE == k % SIZE && s.shown[j] != s.shown[k]
  {
    RunKeepsInv(run);
    var s := Runs.Exec(Next, Init(), run);
    assert ShownOk(s, k) && ShownOk(s, j) && TicketOk(s, s.shown[k]);
    Wrapped.SlotIsMod(k, SIZE);
    Wrapped.SlotIsMod(s.shown[k], SIZE);
  }

  // ---------- Conservation of tickets ----------

  datatype Kind = KUnclaimed | KInWork | KComplete | KPrinted | KDropped

  function KindOf(st: Status): Kind {
    match st
    case Unclaimed => KUnclaimed
    case InWork => KInWork
    case Complete => KComplete
    case Printed(_) => KPrinted
    case Dropped => KDropped
  }

  function Tally(ts: seq<Ticket>, k: Kind): nat
    decreases |ts|
  {
    if ts == [] then 0
    else Tally(ts[..|ts| - 1], k) + if KindOf(ts[|ts| - 1].status) == k then 1 else 0
  }

  lemma {:induction false} MarkTally(ts: seq<Ticket>, t: nat, st: Status, k: Kind)
    requires t < |ts|
    ensures Tally(Mark(ts, t, st), k) ==
              Tally(ts, k) + (if KindOf(st) == k then 1 else 0) - (if KindOf(ts[t].status) == k then 1 else 0)
    decreases |ts|
  {
    var n := |ts| - 1;
    if t < n {
      MarkTally(ts[..n], t, st, k);
      assert Mark(ts, t, st)[..n] == Mark(ts[..n], t, st);
    } else {
      assert Mark(ts, t, st)[..n] == ts[..n];
    }
  }

  lemma PushTally(ts: seq<Ticket>, x: Ticket, k: Kind)
    ensures Tally(ts + [x], k) == Tally(ts, k) + if KindOf(x.status) == k then 1 else 0
  {
    assert (ts + [x])[..|ts|] == ts;
  }

  lemma {:induction false} TallyTotal(ts: seq<Ticket>)
    ensures |ts| == Tally(ts, KUnclaimed) + Tally(ts, KInWork) + Tally(ts, KComplete)
                    + Tally(ts, KPrinted) + Tally(ts, KDropped)
    decreases |ts|
  {
    if ts != [] { TallyTotal(ts[..|ts| - 1]); }
  }

  // The real counters agree with the tickets.
  predicate Counted(s: State) {
    s.dropped == Tally(s.tickets, KDropped) && |s.printed| == Tally(s.tickets, KPrinted)
  }

  lemma MarkCounts(s: State, t: nat, st: Status)
    requires Counted(s) && t < |s.tickets| && KindOf(s.tickets[t].status) != KDropped && KindOf(s.tickets[t].status) != KPrinted
    ensures Tally(Mark(s.tickets, t, st), KDropped) == s.dropped + if st.Dropped? then 1 else 0
    ensures Tally(Mark(s.tickets, t, st), KPrinted) == |s.printed| + if st.Printed? then 1 else 0
  {
    MarkTally(s.tickets, t, st, KDropped);
    MarkTally(s.tickets, t, st, KPrinted);
  }

  lemma OwnTicket(s: State, p: Pid)
    requires Inv(s) && !Pc(s, p).Idle?
    ensures var t := TicketOf(s, p);
            t < |s.tickets| && s.tickets[t].status == (if Pc(s, p).Holding? then Unclaimed else InWork)
  {
    assert PidOk(s, p);
  }

  lemma FoundTicket(s: State)
    requires Inv(s) && s.consumer.Found?
    ensures var i := s.readIdx % SIZE;
            i == Slot(|s.printed|) && i in s.owner && s.owner[i] < |s.tickets| && s.tickets[s.owner[i]].status == Complete
  {
    CounterSlot(Done(s));
    var i := Slot(Done(s));
    assert SlotOk(s, i) && TicketOk(s, s.owner[i]);
  }

  lemma StepKeepsCounted(s: State, a: Action)
    requires Inv(s) && Counted(s)
    ensures Counted(Next(s, a))
  {
    match a
    case Log(p, msg) =>
      PushTally(s.tickets, Ticket(msg, p, Unclaimed), KDropped);
      PushTally(s.tickets, Ticket(msg, p, Unclaimed), KPrinted);
    case Claim(p) =>
      if Pc(s, p).Holding? {
        OwnTicket(s, p);
        MarkCounts(s, TicketOf(s, p), InWork);
        MarkCounts(s, TicketOf(s, p), Dropped);
      }
    case Publish(p) =>
      if Pc(s, p).Written? {
        OwnTicket(s, p);
        MarkCounts(s, TicketOf(s, p), Complete);
      }
    case Print =>
      if s.consumer.Found? {
        FoundTicket(s);
        MarkCounts(s, s.owner[s.readIdx % SIZE], Printed(|s.printed|));
      }
    case _ =>
  }

  /** Conservation, in every run: tickets issued = not yet claimed + being written + complete
      + printed + dropped, where the last two are what was printed and what dropped_count says. */
  lemma TicketsConserved(run: seq<Action>)
    ensures var s := Runs.Exec(Next, Init(), run);
            |s.tickets| == Tally(s.tickets, KUnclaimed) + Tally(s.tickets, KInWork)
                           + Tally(s.tickets, KComplete) + |s.printed| + s.dropped
  {
    var both := (s: State) => Inv(s) && Counted(s);
    InitInv();
    forall s, a | both(s) ensures both(Next(s, a)) {
      StepKeepsInv(s, a);
      StepKeepsCounted(s, a);
    }
    AnyAlong(Init(), run);
    Runs.InvariantAlong(Next, Any, both, Init(), run);
    TallyTotal(Runs.Exec(Next, Init(), run).tickets);
  }

  // ---------- How a log call and a print end ----------

  // Ticket u uses its slot: it is being written, complete, or printed and not yet cleared.
  predicate InUse(s: State, u: nat) {
    u < |s.tickets| &&
    match s.tickets[u].status
    case InWork => true
    case Complete => true
    case Printed(at) => s.consumer.Shown? && at + 1 == |s.printed|
    case _ => false
  }

  predicate SlotTaken(s: State, i: nat) { exists u :: 0 <= u < |s.tickets| && Slot(u) == i && InUse(s, u) }

  lemma TakenIsOwned(s: State, i: nat)
    requires Inv(s) && i < SIZE
    ensures SlotTaken(s, i) <==> i in s.owner
    ensures SlotTaken(s, i) <==> !s.ring[i].ready.Empty?
  {
    assert SlotOk(s, i);
    if u :| 0 <= u < |s.tickets| && Slot(u) == i && InUse(s, u) {
      assert TicketOk(s, u);
      if s.tickets[u].status.Printed? { assert Slot(Done(s)) == i; }
    }
    if i in s.owner { assert InUse(s, s.owner[i]); }
  }

  /** How a log call ends, over every step of every thread: its entry is dropped exactly if at its claim
      another ticket still uses the slot, and otherwise complete exactly at its last store. A call
      that is neither goes on with its ticket. */
  lemma LogEndsIff(s: State, a: Action, p: Pid)
    requires Inv(s) && !Pc(s, p).Idle?
    ensures var n, t, c := Next(s, a), TicketOf(s, p), Pc(s, p);
            var drops := a == Claim(p) && c.Holding? && SlotTaken(s, Slot(t));
            && t < |s.tickets| <= |n.tickets|
            && (Pc(n, p).Idle? <==> drops || (a == Publish(p) && c.Written?))
            && (n.tickets[t].status == Dropped <==> drops)
            && (n.tickets[t].status == Complete <==> a == Publish(p) && c.Written?)
            && (drops ==> n.dropped == s.dropped + 1 && n.ring == s.ring)
            && (!Pc(n, p).Idle? ==> TicketOf(n, p) == t && n.tickets[t].msg == s.tickets[t].msg)
  {
    var t := TicketOf(s, p);
    assert PidOk(s, p) && TicketOk(s, t);
    Wrapped.SlotIsMod(t, SIZE);
    TakenIsOwned(s, Slot(t));
    if (a.Log? || a.Claim? || a.WriteFields? || a.WriteText? || a.Publish?) && a.p == p {
      hide Inv, SlotTaken;
      OwnLogStep(s, a, t);
    } else {
      OtherLogStep(s, a, p);
      hide Inv, SlotTaken, Next;
    }
  }

  // What a producer's own step does to its call.
  lemma OwnLogStep(s: State, a: Action, t: nat)
    requires a.Log? || a.Claim? || a.WriteFields? || a.WriteText? || a.Publish?
    requires !Pc(s, a.p).Idle? && t == TicketOf(s, a.p) < |s.tickets|
    requires s.tickets[t].status == (if Pc(s, a.p).Holding? then Unclaimed else InWork)
    requires Pc(s, a.p).idx < |s.ring|
    ensures var n, c := Next(s, a), Pc(s, a.p);
            var drops := a.Claim? && c.Holding? && !s.ring[c.idx].ready.Empty?;
            && t < |n.tickets| && |n.tickets| == |s.tickets| && TicketOf(n, a.p) == t && n.tickets[t].msg == s.tickets[t].msg
            && (Pc(n, a.p).Idle? <==> drops || (a.Publish? && c.Written?))
            && (n.tickets[t].status == Dropped <==> drops)
            && (n.tickets[t].status == Complete <==> a.Publish? && c.Written?)
            && (drops ==> n.dropped == s.dropped + 1 && n.ring == s.ring)
  {}

  // Nobody else touches the call or its ticket.
  lemma OtherLogStep(s: State, a: Action, p: Pid)
    requires Inv(s) && !Pc(s, p).Idle?
    requires a.Log? || a.Claim? || a.WriteFields? || a.WriteText? || a.Publish? ==> a.p != p
    ensures var n, t := Next(s, a), TicketOf(s, p);
            && t < |s.tickets| <= |n.tickets| && Pc(n, p) == Pc(s, p) && TicketOf(n, p) == t && n.tickets[t] == s.tickets[t]
  {
    var t := TicketOf(s, p);
    assert PidOk(s, p);
    match a
    case Claim(q) => if !Pc(s, q).Idle? { assert PidOk(s, q) && TicketOf(s, q) != t; }
    case Publish(q) => if !Pc(s, q).Idle? { assert PidOk(s, q) && TicketOf(s, q) != t; }
    case Print => if s.consumer.Found? { FoundTicket(s); }
    case _ =>
  }

  /** A log call that nobody interrupts: if no ticket uses its slot the entry is complete with the caller's
      message, otherwise it is dropped and counted. */
  lemma LogAlone(s: State, p: Pid, msg: Msg)
    requires Inv(s) && Pc(s, p).Idle?
    ensures var n, t := Runs.Exec(Next, s, [Log(p, msg), Claim(p), WriteFields(p), WriteText(p), Publish(p)]), |s.tickets|;
            && Pc(n, p).Idle? && n.printed == s.printed && n.consumer == s.consumer && |n.ring| == SIZE
            && if SlotTaken(s, Slot(t))
               then n.tickets == s.tickets + [Ticket(msg, p, Dropped)] && n.dropped == s.dropped + 1 && n.ring == s.ring
               else n.tickets == s.tickets + [Ticket(msg, p, Complete)] && n.dropped == s.dropped
                    && n.ring == s.ring[Slot(t) := Entry(Full, msg.fields, msg.text)]
  {
    var t, i := |s.tickets|, Slot(|s.tickets|);
    CounterSlot(t);
    TakenIsOwned(s, i);
    CallAlone(s, p, msg, i);
    CallSteps(s, p, msg);
    hide Next, Inv, LogStep, ClaimStep, WriteFieldsStep, WriteTextStep, PublishStep, SlotTaken;
    Runs.Five(Next, s, Log(p, msg), Claim(p), WriteFields(p), WriteText(p), Publish(p));
  }

  lemma CallSteps(s: State, p: Pid, msg: Msg)
    ensures PublishStep(WriteTextStep(WriteFieldsStep(ClaimStep(LogStep(s, p, msg), p), p), p), p)
              == Next(Next(Next(Next(Next(s, Log(p, msg)), Claim(p)), WriteFields(p)), WriteText(p)), Publish(p))
  {
    hide LogStep, ClaimStep, WriteFieldsStep, WriteTextStep, PublishStep;
  }

  lemma CallAlone(s: State, p: Pid, msg: Msg, i: nat)
    requires Pc(s, p).Idle? && i < |s.ring| && s.writeIdx % SIZE == i
    ensures var n := PublishStep(WriteTextStep(WriteFieldsStep(ClaimStep(LogStep(s, p, msg), p), p), p), p);
            && Pc(n, p).Idle? && n.printed == s.printed && n.consumer == s.consumer
            && if s.ring[i].ready.Empty?
               then n.tickets == s.tickets + [Ticket(msg, p, Complete)] && n.dropped == s.dropped
                    && n.ring == s.ring[i := Entry(Full, msg.fields, msg.text)]
               else n.tickets == s.tickets + [Ticket(msg, p, Dropped)] && n.dropped == s.dropped + 1 && n.ring == s.ring
  {
    var ts := s.tickets;
    MarkLast(ts, Ticket(msg, p, Unclaimed), InWork);
    MarkLast(ts, Ticket(msg, p, Unclaimed), Dropped);
    MarkLast(ts, Ticket(msg, p, InWork), Complete);
    var s1 := LogStep(s, p, msg);
    var s2 := ClaimStep(s1, p);
    if s.ring[i].ready.Empty? {
      var s3 := WriteFieldsStep(s2, p);
      assert Pc(s3, p) == Half(msg, i) && s3.tickets == ts + [Ticket(msg, p, InWork)] && TicketOf(s3, p) == |ts|;
      assert s3.ring == s.ring[i := Entry(Writing, msg.fields, s.ring[i].text)];
      var s4 := WriteTextStep(s3, p);
      assert Pc(s4, p) == Written(msg, i) && s4.tickets == s3.tickets;
      assert s4.ring == s.ring[i := Entry(Writing, msg.fields, msg.text)];
    }
  }

  /** What the consumer does next: it prints exactly when a complete entry is in the slot it has come to,
      then that entry's message, and frees the slot; otherwise it changes nothing. */
  lemma ConsumerPrintsNext(s: State)
    requires Inv(s) && s.consumer.Waiting?
    ensures var n, i := Runs.Exec(Next, s, [Check, Print, Clear, Advance]), Slot(|s.printed|);
            && n.consumer.Waiting?
            && (if s.ring[i].ready.Full?
                then i in s.owner && s.owner[i] < |s.tickets| && s.tickets[s.owner[i]].status == Complete
                     && n.printed == s.printed + [s.tickets[s.owner[i]].msg] && n.owner == s.owner - {i}
                     && n.ring == s.ring[i := s.ring[i].(ready := Empty)]
                     && n.tickets == Mark(s.tickets, s.owner[i], Printed(|s.printed|))
                else n == s)
            && (s.ring[i].ready.Full? <==> exists u :: 0 <= u < |s.tickets| && Slot(u) == i && s.tickets[u].status == Complete)
  {
    var i := Slot(|s.printed|);
    CounterSlot(|s.printed|);
    assert SlotOk(s, i);
    forall u | 0 <= u < |s.tickets| && Slot(u) == i && s.tickets[u].status == Complete ensures s.ring[i].ready.Full? { assert TicketOk(s, u); }
    if s.ring[i].ready.Full? {
      assert TicketOk(s, s.owner[i]);
      PrintIs(s, i);
    }
    Runs.Four(Next, s, Check, Print, Clear, Advance);
  }

  // ---------- Print order ----------

  /** No producer is overtaken by more than a lap between its ticket and its CAS. */
  predicate NoLap(s: State, a: Action) {
    forall t :: 0 <= t < |s.tickets| && s.tickets[t].status == Unclaimed ==> |s.tickets| <= t + SIZE
  }

  predicate TicketOrder(s: State) { forall k :: 0 <= k < |s.shown| ==> s.shown[k] == k }

  // No ticket that ought to have been printed by now was dropped.
  predicate NoneDropped(s: State) {
    forall t :: 0 <= t < |s.shown| && t < |s.tickets| ==> s.tickets[t].status != Dropped
  }

  lemma NextPrintIsNextTicket(s: State)
    requires Inv(s) && NoLap(s, Print) && s.consumer.Found? && TicketOrder(s)
    requires |s.shown| < |s.tickets| ==> s.tickets[|s.shown|].status != Dropped
    ensures Slot(|s.shown|) in s.owner && s.owner[Slot(|s.shown|)] == |s.shown|
  {
    var r := |s.shown|;
    FoundTicket(s);
    assert SlotOk(s, Slot(r));
    var u := s.owner[Slot(r)];
    assert u < r ==> s.shown[u] == u && ShownOk(s, u);
    assert r < |s.tickets| ==> TicketOk(s, r);
    if r < u < r + SIZE { Wrapped.SlotInjective(r, u, SIZE); }
  }

  lemma StepKeepsOrder(s: State, a: Action)
    requires Inv(s) && NoLap(s, a) && (NoneDropped(s) ==> TicketOrder(s))
    ensures NoneDropped(Next(s, a)) ==> TicketOrder(Next(s, a))
  {
    var n := Next(s, a);
    DroppedStays(s, a);
    if NoneDropped(n) {
      assert NoneDropped(s);
      if a.Print? && s.consumer.Found? {
        FoundTicket(s);
        var r := |s.shown|;
        assert r < |s.tickets| ==> n.tickets[r].status != Dropped;
        NextPrintIsNextTicket(s);
      }
    }
  }

  lemma DroppedStays(s: State, a: Action)
    requires Inv(s)
    ensures var n := Next(s, a);
            && |s.shown| <= |n.shown| && |s.tickets| <= |n.tickets|
            && forall t :: 0 <= t < |s.tickets| && s.tickets[t].status == Dropped ==> n.tickets[t].status == Dropped
  {
    if (a.Claim? || a.Publish?) && !Pc(s, a.p).Idle? { OwnTicket(s, a.p); }
    if a.Print? && s.consumer.Found? { FoundTicket(s); }
  }

  lemma OrderMeans(s: State)
    requires Inv(s)
    ensures TicketOrder(s) ==> NoneDropped(s) && |s.printed| <= |s.tickets|
    ensures TicketOrder(s) ==> forall k :: 0 <= k < |s.printed| ==> s.printed[k] == s.tickets[s.shown[k]].msg
  {
    forall k | 0 <= k < |s.shown|
      ensures s.shown[k] < |s.tickets| && s.tickets[s.shown[k]].status == Printed(k)
      ensures s.printed[k] == s.tickets[s.shown[k]].msg
    {
      assert ShownOk(s, k) && TicketOk(s, s.shown[k]);
    }
    if TicketOrder(s) {
      forall t | 0 <= t < |s.shown| && t < |s.tickets| ensures s.tickets[t].status != Dropped {
        assert s.shown[t] == t && ShownOk(s, t);
      }
      assert |s.shown| > 0 ==> s.shown[|s.shown| - 1] == |s.shown| - 1;
    }
  }

  /** In every run in which no producer is overtaken by more than a lap, entries are printed in
      ticket order if and only if no ticket among the first |printed| was dropped. One drop is
      enough to leave ticket order: the dropped ticket's slot is filled a lap later, and the
      consumer waits for it. */
  lemma TicketOrderIff(run: seq<Action>)
    requires Runs.Along(Next, NoLap, Init(), run)
    ensures var s := Runs.Exec(Next, Init(), run);
            && (TicketOrder(s) <==> NoneDropped(s))
            && (NoneDropped(s) ==> |s.shown| == |s.printed| <= |s.tickets|)
            && (NoneDropped(s) ==> forall k :: 0 <= k < |s.printed| ==> s.printed[k] == s.tickets[k].msg)
  {
    var both := (s: State) => Inv(s) && (NoneDropped(s) ==> TicketOrder(s));
    InitInv();
    forall s, a | both(s) && NoLap(s, a) ensures both(Next(s, a)) {
      StepKeepsInv(s, a);
      StepKeepsOrder(s, a);
    }
    Runs.InvariantAlong(Next, NoLap, both, Init(), run);
    OrderMeans(Runs.Exec(Next, Init(), run));
  }

  // ---------- One drop leaves ticket order ----------

  const ENTRY: Msg := Msg(0, 0)

  predicate Reaches(run: seq<Action>, s: State) { Runs.Leads(Next, NoLap, Init(), run, s) }

  lemma Perform(run: seq<Action>, s: State, a: Action) returns (run': seq<Action>)
    requires Reaches(run, s) && NoLap(s, a)
    ensures Reaches(run', Next(s, a))
  {
    hide Next, NoLap, Init;
    run' := run + [a];
    Runs.Extend(Next, NoLap, Init(), run, s, a);
  }

  lemma PerformTo(run: seq<Action>, s: State, a: Action, n: State) returns (run': seq<Action>)
    requires Reaches(run, s) && s.tickets != [] && NoneUnclaimed(s.tickets[..|s.tickets| - 1]) && n == Next(s, a)
    ensures Reaches(run', n)
  {
    NoLapWhile(s, a, s.tickets[..|s.tickets| - 1], s.tickets[|s.tickets| - 1]);
    hide Reaches, Next, NoLap, NoneUnclaimed;
    run' := Perform(run, s, a);
  }

  lemma ReachedInv(run: seq<Action>, s: State)
    requires Reaches(run, s)
    ensures Inv(s)
  {
    RunKeepsInv(run);
  }

  // Everybody is between calls.
  predicate Rest(s: State) { s.consumer.Waiting? && forall p :: p in s.producers ==> s.producers[p].Idle? }

  predicate NoneUnclaimed(ts: seq<Ticket>) { forall t :: 0 <= t < |ts| ==> ts[t].status != Unclaimed }

  lemma RestMeans(s: State)
    requires Inv(s) && Rest(s)
    ensures NoneUnclaimed(s.tickets)
    ensures s.writeIdx % SIZE == Slot(|s.tickets|) && s.readIdx % SIZE == Slot(|s.printed|) && |s.shown| == |s.printed|
    ensures |s.ring| == SIZE && forall i :: 0 <= i < SIZE ==> (i in s.owner <==> !s.ring[i].ready.Empty?)
    ensures forall i :: i in s.owner ==> i < SIZE && s.ring[i].ready.Full? && s.owner[i] < |s.tickets| && Slot(s.owner[i]) == i
  {
    CounterSlot(|s.tickets|);
    CounterSlot(|s.printed|);
    forall t | 0 <= t < |s.tickets| ensures s.tickets[t].status != Unclaimed && s.tickets[t].status != InWork {
      assert TicketOk(s, t);
    }
    forall i | 0 <= i < SIZE
      ensures i in s.owner <==> !s.ring[i].ready.Empty?
      ensures i in s.owner ==> s.ring[i].ready.Full? && s.owner[i] < |s.tickets| && Slot(s.owner[i]) == i
    {
      assert SlotOk(s, i);
      if i in s.owner { assert TicketOk(s, s.owner[i]); }
    }
  }

  // Producer 0 has drawn a ticket and stands at c.
  function Drawn(s: State, c: Producer): State {
    Move(s, 0, c).(writeIdx := (s.writeIdx + 1) % UINT32, tickets := s.tickets + [Ticket(ENTRY, 0, Unclaimed)],
                   ticketOf := s.ticketOf[0 := |s.tickets|])
  }

  // It stands at c with slot i claimed and entry e in it.
  function Filling(s: State, c: Producer, i: nat, e: Entry, st: Status): State
    requires i < |s.ring|
  {
    Drawn(s, c).(ring := s.ring[i := e], tickets := s.tickets + [Ticket(ENTRY, 0, st)], owner := s.owner[i := |s.tickets|])
  }

  lemma MarkLast(ts: seq<Ticket>, x: Ticket, st: Status)
    ensures Mark(ts + [x], |ts|, st) == ts + [x.(status := st)]
  {}

  lemma DrawIs(s: State, i: nat)
    requires s.writeIdx % SIZE == i && Pc(s, 0).Idle?
    ensures LogStep(s, 0, ENTRY) == Drawn(s, Holding(ENTRY, i))
    ensures Drawn(s, Holding(ENTRY, i)).tickets == s.tickets + [Ticket(ENTRY, 0, Unclaimed)]
  {}

  lemma ClaimIs(s: State, i: nat)
    requires i < |s.ring| && s.ring[i].ready.Empty?
    ensures var n := Filling(s, Claimed(ENTRY, i), i, s.ring[i].(ready := Writing), InWork);
            ClaimStep(Drawn(s, Holding(ENTRY, i)), 0) == n
  {
    MarkLast(s.tickets, Ticket(ENTRY, 0, Unclaimed), InWork);
    assert s.producers[0 := Holding(ENTRY, i)][0 := Claimed(ENTRY, i)] == s.producers[0 := Claimed(ENTRY, i)];
  }

  lemma WriteFieldsIs(s: State, i: nat, e: Entry)
    requires i < |s.ring|
    ensures WriteFieldsStep(Filling(s, Claimed(ENTRY, i), i, e, InWork), 0) == Filling(s, Half(ENTRY, i), i, e.(fields := 0), InWork)
  {
    assert s.producers[0 := Claimed(ENTRY, i)][0 := Half(ENTRY, i)] == s.producers[0 := Half(ENTRY, i)];
    assert s.ring[i := e][i := e.(fields := 0)] == s.ring[i := e.(fields := 0)];
  }

  lemma WriteTextIs(s: State, i: nat, e: Entry)
    requires i < |s.ring|
    ensures WriteTextStep(Filling(s, Half(ENTRY, i), i, e, InWork), 0) == Filling(s, Written(ENTRY, i), i, e.(text := 0), InWork)
  {
    assert s.producers[0 := Half(ENTRY, i)][0 := Written(ENTRY, i)] == s.producers[0 := Written(ENTRY, i)];
    assert s.ring[i := e][i := e.(text := 0)] == s.ring[i := e.(text := 0)];
  }

  lemma PublishIs(s: State, i: nat, e: Entry)
    requires i < |s.ring|
    ensures PublishStep(Filling(s, Written(ENTRY, i), i, e, InWork), 0) == Filling(s, Idle, i, e.(ready := Full), Complete)
  {
    MarkLast(s.tickets, Ticket(ENTRY, 0, InWork), Complete);
    assert s.producers[0 := Written(ENTRY, i)][0 := Idle] == s.producers[0 := Idle];
    assert s.ring[i := e][i := e.(ready := Full)] == s.ring[i := e.(ready := Full)];
  }

  // What a slot being filled shows of the state.
  lemma FillingHas(s: State, c: Producer, i: nat, e: Entry, st: Status)
    requires i < |s.ring|
    ensures var n := Filling(s, c, i, e, st);
            && n.tickets == s.tickets + [Ticket(ENTRY, 0, st)] && n.owner == s.owner[i := |s.tickets|]
            && n.shown == s.shown && n.printed == s.printed && n.consumer == s.consumer
            && n.producers == s.producers[0 := c]
  {}

  lemma NoLapWhile(s: State, a: Action, earlier: seq<Ticket>, last: Ticket)
    requires NoneUnclaimed(earlier) && s.tickets == earlier + [last]
    ensures NoLap(s, a)
  {}

  lemma RestKept(s: State, n: State)
    requires Rest(s) && n.consumer == s.consumer && n.producers == s.producers[0 := Idle]
    ensures Rest(n)
  {}

  // One log call that nobody interrupts, into an empty slot.
  lemma WriteOne(run: seq<Action>, s: State) returns (run': seq<Action>, n: State)
    requires Reaches(run, s) && Rest(s) && Slot(|s.tickets|) !in s.owner
    ensures Reaches(run', n) && Rest(n)
    ensures n.owner == s.owner[Slot(|s.tickets|) := |s.tickets|] && n.shown == s.shown && n.printed == s.printed
    ensures n.tickets == s.tickets + [Ticket(ENTRY, 0, Complete)]
  {
    hide Reaches, NoLap, NoneUnclaimed, Inv, Rest, Next, Drawn, Filling;
    var i, ts := Slot(|s.tickets|), s.tickets;
    ReachedInv(run, s);
    RestMeans(s);
    WriteIs(s, i);
    var w := s.ring[i].(ready := Writing);
    var s1 := Drawn(s, Holding(ENTRY, i));
    var s2 := Filling(s, Claimed(ENTRY, i), i, w, InWork);
    var s3 := Filling(s, Half(ENTRY, i), i, w.(fields := 0), InWork);
    var s4 := Filling(s, Written(ENTRY, i), i, w.(fields := 0).(text := 0), InWork);
    n := Filling(s, Idle, i, w.(fields := 0).(text := 0).(ready := Full), Complete);
    FillingHas(s, Claimed(ENTRY, i), i, w, InWork);
    FillingHas(s, Half(ENTRY, i), i, w.(fields := 0), InWork);
    FillingHas(s, Written(ENTRY, i), i, w.(fields := 0).(text := 0), InWork);
    FillingHas(s, Idle, i, w.(fields := 0).(text := 0).(ready := Full), Complete);
    forall x: Ticket ensures (ts + [x])[..|ts|] == ts {}
    NoLapAtRest(s, Log(0, ENTRY));
    run' := Perform(run, s, Log(0, ENTRY));
    run' := PerformTo(run', s1, Claim(0), s2);
    run' := PerformTo(run', s2, WriteFields(0), s3);
    run' := PerformTo(run', s3, WriteText(0), s4);
    run' := PerformTo(run', s4, Publish(0), n);
    RestKept(s, n);
  }

  lemma WriteIs(s: State, i: nat)
    requires i < |s.ring| && s.writeIdx % SIZE == i && Rest(s) && s.ring[i].ready.Empty?
    ensures var w := s.ring[i].(ready := Writing);
            var s1 := Drawn(s, Holding(ENTRY, i));
            var s2 := Filling(s, Claimed(ENTRY, i), i, w, InWork);
            var s3 := Filling(s, Half(ENTRY, i), i, w.(fields := 0), InWork);
            var s4 := Filling(s, Written(ENTRY, i), i, w.(fields := 0).(text := 0), InWork);
            && s1 == Next(s, Log(0, ENTRY)) && s1.tickets == s.tickets + [Ticket(ENTRY, 0, Unclaimed)]
            && s2 == Next(s1, Claim(0)) && s3 == Next(s2, WriteFields(0)) && s4 == Next(s3, WriteText(0))
            && Filling(s, Idle, i, w.(fields := 0).(text := 0).(ready := Full), Complete) == Next(s4, Publish(0))
  {
    assert Pc(s, 0).Idle?;
    hide LogStep, ClaimStep, WriteFieldsStep, WriteTextStep, PublishStep, Drawn, Filling, Rest;
    var w := s.ring[i].(ready := Writing);
    DrawIs(s, i);
    ClaimIs(s, i);
    WriteFieldsIs(s, i, w);
    WriteTextIs(s, i, w.(fields := 0));
    PublishIs(s, i, w.(fields := 0).(text := 0));
  }

  lemma NoLapAtRest(s: State, a: Action)
    requires NoneUnclaimed(s.tickets)
    ensures NoLap(s, a)
  {}

  lemma DropEffectIs(s: State, i: nat)
    requires i < |s.ring| && s.writeIdx % SIZE == i && Pc(s, 0).Idle? && !s.ring[i].ready.Empty?
    ensures LogStep(s, 0, ENTRY) == Drawn(s, Holding(ENTRY, i))
    ensures ClaimStep(Drawn(s, Holding(ENTRY, i)), 0)
              == Drawn(s, Idle).(dropped := s.dropped + 1, tickets := s.tickets + [Ticket(ENTRY, 0, Dropped)])
  {
    MarkLast(s.tickets, Ticket(ENTRY, 0, Unclaimed), Dropped);
    assert s.producers[0 := Holding(ENTRY, i)][0 := Idle] == s.producers[0 := Idle];
  }

  // One log call that nobody interrupts, whose slot is still full.
  lemma DropOne(run: seq<Action>, s: State) returns (run': seq<Action>, n: State)
    requires Reaches(run, s) && Rest(s) && Slot(|s.tickets|) in s.owner
    ensures Reaches(run', n) && Rest(n)
    ensures n.owner == s.owner && n.shown == s.shown && n.printed == s.printed
    ensures n.tickets == s.tickets + [Ticket(ENTRY, 0, Dropped)]
  {
    var i := Slot(|s.tickets|);
    ReachedInv(run, s);
    RestMeans(s);
    DropEffectIs(s, i);
    hide Reaches, NoLap, NoneUnclaimed, Inv, Rest, LogStep, ClaimStep;
    var s1 := Drawn(s, Holding(ENTRY, i));
    n := Drawn(s, Idle).(dropped := s.dropped + 1, tickets := s.tickets + [Ticket(ENTRY, 0, Dropped)]);
    NoLapAtRest(s, Log(0, ENTRY));
    run' := Perform(run, s, Log(0, ENTRY));
    NoLapWhile(s1, Claim(0), s.tickets, Ticket(ENTRY, 0, Unclaimed));
    run' := Perform(run', s1, Claim(0));
    RestKept(s, n);
  }

  function Printing(s: State, i: nat): State
    requires i < |s.ring| && i in s.owner
  {
    s.(consumer := Shown, printed := s.printed + [Msg(s.ring[i].fields, s.ring[i].text)],
       tickets := Mark(s.tickets, s.owner[i], Printed(|s.printed|)), shown := s.shown + [s.owner[i]])
  }

  // The consumer prints the slot it waits for.
  lemma PrintOne(run: seq<Action>, s: State) returns (run': seq<Action>, n: State)
    requires Reaches(run, s) && Rest(s) && Slot(|s.printed|) in s.owner
    ensures Reaches(run', n) && Rest(n)
    ensures n.owner == s.owner - {Slot(|s.printed|)} && n.shown == s.shown + [s.owner[Slot(|s.printed|)]]
    ensures |n.printed| == |s.printed| + 1
    ensures n.tickets == Mark(s.tickets, s.owner[Slot(|s.printed|)], Printed(|s.printed|))
  {
    hide Reaches, NoLap, NoneUnclaimed, Inv, Next, Cleared, Mark;
    var i := Slot(|s.printed|);
    ReachedInv(run, s);
    RestMeans(s);
    var s1 := s.(consumer := Found);
    var s2 := Printing(s, i);
    var s3 := Cleared(s2, i);
    n := s3.(consumer := Waiting, readIdx := (s3.readIdx + 1) % UINT32);
    PrintIs(s, i);
    MarkKeepsClaims(s.tickets, s.owner[i], Printed(|s.printed|));
    NoLapAtRest(s, Check);
    run' := Perform(run, s, Check);
    NoLapAtRest(s1, Print);
    run' := Perform(run', s1, Print);
    NoLapAtRest(s2, Clear);
    run' := Perform(run', s2, Clear);
    NoLapAtRest(s3, Advance);
    run' := Perform(run', s3, Advance);
  }

  function Cleared(s: State, i: nat): State
    requires i < |s.ring|
  {
    s.(consumer := Emptied, ring := s.ring[i := s.ring[i].(ready := Empty)], owner := s.owner - {i})
  }

  lemma PrintIs(s: State, i: nat)
    requires i < |s.ring| && i in s.owner && s.readIdx % SIZE == i && s.consumer.Waiting? && s.ring[i].ready.Full?
    ensures var s1, s2 := s.(consumer := Found), Printing(s, i);
            var s3 := Cleared(s2, i);
            && s1 == Next(s, Check) && s2 == Next(s1, Print) && s3 == Next(s2, Clear)
            && s3.(consumer := Waiting, readIdx := (s3.readIdx + 1) % UINT32) == Next(s3, Advance)
            && s2.tickets == s3.tickets == Mark(s.tickets, s.owner[i], Printed(|s.printed|))
            && s3.owner == s.owner - {i} && s3.shown == s.shown + [s.owner[i]] && |s3.printed| == |s.printed| + 1
            && s3.producers == s.producers
  {}

  lemma MarkKeepsClaims(ts: seq<Ticket>, t: nat, st: Status)
    requires NoneUnclaimed(ts) && st != Unclaimed
    ensures NoneUnclaimed(Mark(ts, t, st))
  {}

  // n log calls in a row, each into an empty slot.
  lemma {:induction false} Fill(run: seq<Action>, s: State, n: nat) returns (run': seq<Action>, t: State)
    requires Reaches(run, s) && Rest(s) && n <= SIZE
    requires forall x: nat :: |s.tickets| <= x < |s.tickets| + n ==> Slot(x) !in s.owner
    ensures Reaches(run', t) && Rest(t) && t.shown == s.shown && t.printed == s.printed
    ensures |t.tickets| == |s.tickets| + n && s.tickets <= t.tickets
    ensures forall x: nat :: |s.tickets| <= x < |s.tickets| + n ==> Slot(x) in t.owner && t.owner[Slot(x)] == x
    ensures forall i :: i in t.owner && i !in s.owner ==> |s.tickets| <= t.owner[i] < |s.tickets| + n && Slot(t.owner[i]) == i
    decreases n
  {
    hide Reaches, Rest;
    run', t := run, s;
    if n > 0 {
      var m;
      run', m := Fill(run, s, n - 1);
      var last := |s.tickets| + (n - 1);
      forall x: nat | |s.tickets| <= x < last ensures Slot(x) != Slot(last) {
        if Slot(x) == Slot(last) { Wrapped.SlotInjective(x, last, SIZE); }
      }
      run', t := WriteOne(run', m);
    }
  }

  // n prints in a row, of the slots the consumer comes to.
  lemma {:induction false} PrintAll(run: seq<Action>, s: State, n: nat) returns (run': seq<Action>, t: State)
    requires Reaches(run, s) && Rest(s) && n <= SIZE
    requires forall x: nat :: |s.printed| <= x < |s.printed| + n ==> Slot(x) in s.owner
    ensures Reaches(run', t) && Rest(t) && |t.printed| == |s.printed| + n && |t.tickets| == |s.tickets|
    ensures forall x: nat :: |s.printed| <= x < |s.printed| + n ==> Slot(x) !in t.owner
    ensures forall i :: i in t.owner ==> i in s.owner && t.owner[i] == s.owner[i]
    ensures forall x :: 0 <= x < |s.tickets| && s.tickets[x].status == Dropped && (forall i :: i in s.owner ==> s.owner[i] != x) ==>
              t.tickets[x].status == Dropped
    decreases n
  {
    hide Reaches, Rest;
    run', t := run, s;
    if n > 0 {
      var m;
      run', m := PrintOne(run, s);
      forall x: nat | |m.printed| <= x < |m.printed| + (n - 1) ensures Slot(x) in m.owner {
        if Slot(|s.printed|) == Slot(x) { Wrapped.SlotInjective(|s.printed|, x, SIZE); }
      }
      run', t := PrintAll(run', m, n - 1);
    }
  }

  /** A run in which one drop leaves ticket order, without any producer overtaken: the ring is filled, ticket
      1024 finds slot 0 full and is dropped, everything is printed, the next lap is written, and the
      consumer, waiting for slot 0, prints ticket 2048 in the place of ticket 1024. */
  lemma OneDropLeavesOrder() returns (run: seq<Action>, t: State)
    ensures Runs.Leads(Next, NoLap, Init(), run, t)
    ensures |t.printed| == |t.shown| == SIZE + 1 && t.shown[SIZE] == 2 * SIZE
    ensures |t.tickets| > SIZE && t.tickets[SIZE].status == Dropped && !TicketOrder(t) && !NoneDropped(t)
  {
    hide Reaches, Rest;
    run, t := Filled();
    FirstSlots();
    var owned := t.owner;
    run, t := DropOne(run, t);
    assert t.tickets[SIZE].status == Dropped;
    run, t := PrintAll(run, t, SIZE);
    assert |t.printed| == SIZE && t.tickets[SIZE].status == Dropped;
    forall i | i in owned ensures i !in t.owner { assert Slot(owned[i]) == i; }
    run, t := Fill(run, t, SIZE);
    assert t.tickets[SIZE].status == Dropped;
    assert Slot(2 * SIZE) in t.owner && t.owner[0] == 2 * SIZE;
    run, t := PrintOne(run, t);
    ShownLength(run, t);
    LeadsOf(run, t);
    assert t.shown[SIZE] == 2 * SIZE;
  }

  lemma LeadsOf(run: seq<Action>, t: State)
    requires Reaches(run, t)
    ensures Runs.Leads(Next, NoLap, Init(), run, t)
  {}

  lemma ShownLength(run: seq<Action>, t: State)
    requires Reaches(run, t)
    ensures |t.shown| == |t.printed|
  {
    ReachedInv(run, t);
  }

  lemma FirstSlots()
    ensures Slot(SIZE) == 0 == Slot(0) && Slot(2 * SIZE) == 0
  {
    Wrapped.SlotLap(0, SIZE);
    Wrapped.SlotLap(SIZE, SIZE);
  }

  lemma Filled() returns (run: seq<Action>, t: State)
    ensures Reaches(run, t) && Rest(t) && t.printed == [] && t.shown == [] && |t.tickets| == SIZE
    ensures forall x: nat :: x < SIZE ==> Slot(x) in t.owner && t.owner[Slot(x)] == x
    ensures forall i :: i in t.owner ==> t.owner[i] < SIZE && Slot(t.owner[i]) == i
  {
    assert Reaches([], Init()) && Rest(Init());
    run, t := Fill([], Init(), SIZE);
  }

  /** nos_log_context_t with the locals of the running calls. Each method is one access of the C
      code; its contract is the step of the machine above. */
  class Logger {
    const ring: array<Entry>
    var writeIdx: nat
    var readIdx: nat
    var dropped: nat
    var producers: map<Pid, Producer>
    var consumer: Consumer
    var printed: seq<Msg>
    ghost var tickets: seq<Ticket>
    ghost var ticketOf: map<Pid, nat>
    ghost var owner: map<nat, nat>
    ghost var shown: seq<nat>

    ghost function View(): State
      reads this, ring
    {
      State(ring[..], writeIdx, readIdx, dropped, producers, consumer, printed, tickets, ticketOf, owner, shown)
    }

    constructor ()
      ensures fresh(ring) && View() == Init()
    {
      ring := new Entry[SIZE](_ => Entry(Empty, 0, 0));
      writeIdx, readIdx, dropped, producers, consumer, printed := 0, 0, 0, map[], Waiting, [];
      tickets, ticketOf, owner, shown := [], map[], map[], [];
    }

    method DrawTicket(p: Pid, msg: Msg)
      modifies this
      ensures View() == Next(old(View()), Log(p, msg))
    {
      if p !in producers || producers[p].Idle? {
        producers := producers[p := Holding(msg, writeIdx % SIZE)];
        writeIdx := (writeIdx + 1) % UINT32;
        ticketOf := ticketOf[p := |tickets|];
        tickets := tickets + [Ticket(msg, p, Unclaimed)];
      }
    }

    method ClaimSlot(p: Pid)
      modifies this, ring
      ensures View() == Next(old(View()), Claim(p))
    {
      if p in producers && producers[p].Holding? && producers[p].idx < ring.Length {
        var c := producers[p];
        ghost var t := TicketOf(View(), p);
        if ring[c.idx].ready.Empty? {
          ring[c.idx] := ring[c.idx].(ready := Writing);
          producers := producers[p := Claimed(c.msg, c.idx)];
          tickets, owner := Mark(tickets, t, InWork), owner[c.idx := t];
        } else {
          dropped := dropped + 1;
          producers := producers[p := Idle];
          tickets := Mark(tickets, t, Dropped);
        }
      }
    }

    method FillSlot(a: Action)
      requires a.WriteFields? || a.WriteText? || a.Publish?
      modifies this, ring
      ensures View() == Next(old(View()), a)
    {
      var p := a.p;
      var c := if p in producers then producers[p] else Idle;
      if c.Idle? || c.idx >= ring.Length { return; }
      match a
      case WriteFields(_) =>
        if c.Claimed? {
          ring[c.idx] := ring[c.idx].(fields := c.msg.fields);
          producers := producers[p := Half(c.msg, c.idx)];
        }
      case WriteText(_) =>
        if c.Half? {
          ring[c.idx] := ring[c.idx].(text := c.msg.text);
          producers := producers[p := Written(c.msg, c.idx)];
        }
      case Publish(_) =>
        if c.Written? {
          tickets := Mark(tickets, TicketOf(View(), p), Complete);
          ring[c.idx] := ring[c.idx].(ready := Full);
          producers := producers[p := Idle];
        }
    }

    method ConsumerStep(a: Action)
      requires a.Check? || a.Print? || a.Clear? || a.Advance?
      modifies this, ring
      ensures View() == Next(old(View()), a)
    {
      var i := readIdx % SIZE;
      match a
      case Check =>
        if consumer.Waiting? && i < ring.Length && ring[i].ready.Full? { consumer := Found; }
      case Print =>
        if consumer.Found? && i < ring.Length {
          ghost var t := OwnerOf(View(), i);
          tickets, shown := Mark(tickets, t, Printed(|printed|)), shown + [t];
          printed := printed + [Msg(ring[i].fields, ring[i].text)];
          consumer := Shown;
        }
      case Clear =>
        if consumer.Shown? && i < ring.Length {
          ring[i] := ring[i].(ready := Empty);
          owner := owner - {i};
          consumer := Emptied;
        }
      case Advance =>
        if consumer.Emptied? {
          readIdx := (readIdx + 1) % UINT32;
          consumer := Waiting;
        }
    }
  }
}
