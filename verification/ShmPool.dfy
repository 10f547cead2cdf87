/** The shared block pool (src/infra/nos_shm.c): a lock-free free list threaded through the
    blocks themselves, and one reference count per block. Every atomic access is one step, any
    number of threads interleave, memory is sequentially consistent.

    `place`, `chain`, `pops` and `seen` are history: no branch reads them. `handles[b]` counts the
    references that clients, queues and rings own on block b; the guards that read it are the
    assumption that only an owner retains or releases. Who the owners are is ShmDelivery's part. */
module ShmPool {
  import Runs

  type Tid = nat

  const SHM_SIZE: nat := 16 * 1024 * 1024
  const MAX_DATA: nat := 4096

  // Where a thread stands inside nos_shm_buffer_alloc or nos_shm_buffer_release.
  datatype Pc =
    | Idle
    | Allocating                          // about to load free_list_head
    | HeadRead(head: nat)
    | NextRead(head: nat, next: nat)      // about to CAS the head to next
    | Popped(blk: nat)                    // CAS won, ref_count not yet stored
    | Freeing(blk: nat)                   // count reached zero, about to load the head
    | FreeHeadRead(blk: nat, head: nat)
    | Linked(blk: nat, head: nat)         // next_free stored, about to CAS the head to blk

  // Where a block is.
  datatype Place = Free | Held | Handout(t: Tid) | Return(t: Tid)

  datatype State = State(
    head: nat, refs: map<nat, nat>, next: map<nat, nat>, threads: map<Tid, Pc>,
    handles: map<nat, nat>, place: map<nat, Place>, chain: seq<nat>,
    pops: map<nat, nat>, seen: map<Tid, nat>)

  datatype Action =
    | AllocCall(t: Tid, size: nat)
    | AllocLoadHead(t: Tid)
    | AllocLoadNext(t: Tid)
    | PopCas(t: Tid, spurious: bool)
    | StoreRef(t: Tid)
    | Retain(blk: nat)
    | Drop(t: Tid, blk: nat)
    | FreeLoadHead(t: Tid)
    | Link(t: Tid)
    | PushCas(t: Tid, spurious: bool)

  function At(s: State, t: Tid): Pc {
    if t in s.threads then s.threads[t] else Idle
  }

  function Seen(s: State, t: Tid): nat {
    if t in s.seen then s.seen[t] else 0
  }

  function Get<V>(m: map<nat, V>, b: nat, default: V): V {
    if b in m then m[b] else default
  }

  function Move(s: State, t: Tid, c: Pc): State {
    s.(threads := s.threads[t := c])
  }

  // ---------- The steps ----------

  function AllocCallStep(s: State, t: Tid, size: nat): State {
    if At(s, t).Idle? && size <= MAX_DATA then Move(s, t, Allocating) else s
  }

  // Empty list: return NULL.
  function AllocLoadHeadStep(s: State, t: Tid): State {
    if !At(s, t).Allocating? then s
    else if s.head == 0 then Move(s, t, Idle)
    else Move(s, t, HeadRead(s.head)).(seen := s.seen[t := Get(s.pops, s.head, 0)])
  }

  function AllocLoadNextStep(s: State, t: Tid): State {
    var c := At(s, t);
    if c.HeadRead? then Move(s, t, NextRead(c.head, Get(s.next, c.head, 0))) else s
  }

  function Pop(s: State, t: Tid, head: nat, next: nat): State {
    Move(s, t, Popped(head)).(
      head := next,
      place := s.place[head := Handout(t)],
      pops := s.pops[head := Get(s.pops, head, 0) + 1],
      chain := if s.chain == [] then [] else s.chain[1..])
  }

  function PopCasStep(s: State, t: Tid, spurious: bool): State {
    var c := At(s, t);
    if !c.NextRead? then s
    else if !spurious && s.head == c.head then Pop(s, t, c.head, c.next)
    else Move(s, t, Allocating)
  }

  // The caller now owns one reference.
  function StoreRefStep(s: State, t: Tid): State {
    var c := At(s, t);
    if c.Popped?
    then Move(s, t, Idle).(refs := s.refs[c.blk := 1], handles := s.handles[c.blk := 1],
                           place := s.place[c.blk := Held])
    else s
  }

  function RetainStep(s: State, b: nat): State {
    if Get(s.handles, b, 0) > 0
    then s.(refs := s.refs[b := Get(s.refs, b, 0) + 1], handles := s.handles[b := s.handles[b] + 1])
    else s
  }

  // atomic_fetch_sub, and the test whether it took the last reference.
  function DropStep(s: State, t: Tid, b: nat): State {
    if !At(s, t).Idle? || Get(s.handles, b, 0) == 0 || Get(s.refs, b, 0) == 0 then s
    else
      var d := s.(refs := s.refs[b := s.refs[b] - 1], handles := s.handles[b := s.handles[b] - 1]);
      if s.refs[b] == 1 then Move(d, t, Freeing(b)).(place := s.place[b := Return(t)]) else d
  }

  function FreeLoadHeadStep(s: State, t: Tid): State {
    var c := At(s, t);
    if c.Freeing? then Move(s, t, FreeHeadRead(c.blk, s.head)) else s
  }

  function LinkStep(s: State, t: Tid): State {
    var c := At(s, t);
    if c.FreeHeadRead? then Move(s, t, Linked(c.blk, c.head)).(next := s.next[c.blk := c.head]) else s
  }

  function PushCasStep(s: State, t: Tid, spurious: bool): State {
    var c := At(s, t);
    if !c.Linked? then s
    else if !spurious && s.head == c.head
    then Move(s, t, Idle).(head := c.blk, place := s.place[c.blk := Free], chain := [c.blk] + s.chain)
    else Move(s, t, Freeing(c.blk))
  }

  /** One step of one thread; an action whose thread is elsewhere in its code changes nothing. */
  function Next(s: State, a: Action): State {
    match a
    case AllocCall(t, size) => AllocCallStep(s, t, size)
    case AllocLoadHead(t) => AllocLoadHeadStep(s, t)
    case AllocLoadNext(t) => AllocLoadNextStep(s, t)
    case PopCas(t, spurious) => PopCasStep(s, t, spurious)
    case StoreRef(t) => StoreRefStep(s, t)
    case Retain(b) => RetainStep(s, b)
    case Drop(t, b) => DropStep(s, t, b)
    case FreeLoadHead(t) => FreeLoadHeadStep(s, t)
    case Link(t) => LinkStep(s, t)
    case PushCas(t, spurious) => PushCasStep(s, t, spurious)
  }

  // ---------- The invariant ----------

  // What the block at index i of the list c links to.
  function After(c: seq<nat>, i: nat): nat { if i + 1 < |c| then c[i + 1] else 0 }

  // c lists the blocks met from head along next until 0, each once.
  predicate IsChain(next: map<nat, nat>, head: nat, c: seq<nat>) {
    && head == (if c == [] then 0 else c[0])
    && (forall i :: 0 <= i < |c| ==> c[i] in next && next[c[i]] == After(c, i))
    && (forall i, j :: 0 <= i < j < |c| ==> c[i] != c[j])
  }

  // c is the free list and holds exactly the free blocks.
  predicate FreeList(s: State, c: seq<nat>) {
    && IsChain(s.next, s.head, c)
    && (forall b :: b in s.place ==> (s.place[b] == Free <==> b in c))
    && (forall b :: b in c ==> b in s.place)
  }

  predicate Domains(s: State) {
    && 0 !in s.place
    && s.refs.Keys == s.place.Keys && s.next.Keys == s.place.Keys
    && s.handles.Keys == s.place.Keys && s.pops.Keys == s.place.Keys
    && (forall b :: b in s.next ==> s.next[b] == 0 || s.next[b] in s.place)
  }

  // The thread is between taking the last reference and pushing the block.
  predicate Returning(c: Pc) { c.Freeing? || c.FreeHeadRead? || c.Linked? }

  predicate Unburdened(c: Pc) { c.Idle? || c.Allocating? || c.HeadRead? || c.NextRead? }

  predicate BlockOk(s: State, b: nat)
    requires Domains(s) && b in s.place
  {
    match s.place[b]
    case Free => s.refs[b] == 0 == s.handles[b]
    case Held => s.refs[b] == s.handles[b] > 0
    case Handout(t) => s.refs[b] == 0 == s.handles[b] && At(s, t) == Popped(b)
    case Return(t) => s.refs[b] == 0 == s.handles[b] && Returning(At(s, t)) && At(s, t).blk == b
  }

  predicate ThreadOk(s: State, t: Tid)
    requires Domains(s)
  {
    match At(s, t)
    case Idle => true
    case Allocating => true
    case HeadRead(head) =>
      && head in s.place && Seen(s, t) <= s.pops[head]
      && (Seen(s, t) == s.pops[head] ==> s.place[head] == Free)
    case NextRead(head, next) =>
      && head in s.place && Seen(s, t) <= s.pops[head]
      && (next == 0 || next in s.place)
      && (Seen(s, t) == s.pops[head] ==> s.place[head] == Free && s.next[head] == next)
    case Popped(b) => b in s.place && s.place[b] == Handout(t)
    case Freeing(b) => b in s.place && s.place[b] == Return(t)
    case FreeHeadRead(b, head) =>
      b in s.place && s.place[b] == Return(t) && (head == 0 || head in s.place)
    case Linked(b, head) => b in s.place && s.place[b] == Return(t) && s.next[b] == head
  }

  predicate Blocks(s: State) {
    Domains(s) && forall b :: b in s.place ==> BlockOk(s, b)
  }

  predicate Threads(s: State) {
    Domains(s) && forall t :: t in s.threads ==> ThreadOk(s, t)
  }

  predicate Inv(s: State) {
    FreeList(s, s.chain) && Blocks(s) && Threads(s)
  }

  predicate WinsPop(s: State, a: Action) {
    a.PopCas? && At(s, a.t).NextRead? && !a.spurious && s.head == At(s, a.t).head
  }

  /** A pop CAS that wins and installs something else than the head's current successor. */
  predicate StalePop(s: State, a: Action) {
    WinsPop(s, a) && At(s, a.t).next != Get(s.next, s.head, 0)
  }

  /** The block at the head was popped by somebody between this thread's load and its CAS. */
  predicate Recycled(s: State, a: Action) {
    WinsPop(s, a) && Seen(s, a.t) != Get(s.pops, s.head, 0)
  }

  // Which blocks there are does not change.
  lemma MoveKeepsDomains(s: State, t: Tid, c: Pc)
    requires Domains(s)
    ensures Domains(Move(s, t, c))
  {}

  lemma PopKeepsDomains(s: State, t: Tid, next: nat)
    requires Domains(s) && s.head in s.place
    ensures Domains(Pop(s, t, s.head, next)) && s.pops.Keys == s.place.Keys
  {}

  lemma LinkKeepsDomains(s: State, t: Tid)
    requires Domains(s) && At(s, t).FreeHeadRead? && At(s, t).blk in s.place && (At(s, t).head == 0 || At(s, t).head in s.place)
    ensures Domains(LinkStep(s, t))
  {}

  lemma PushKeepsDomains(s: State, t: Tid, b: nat)
    requires Domains(s) && b in s.place
    ensures Domains(Push(s, t, b))
  {}

  lemma LastDropKeepsDomains(s: State, t: Tid, b: nat)
    requires Domains(s) && b in s.place
    ensures Domains(LastDrop(s, t, b))
  {}

  // Only thread t's program counter changes, and it owns no block before or after.
  lemma MoveKeepsBlocks(s: State, t: Tid, c: Pc)
    requires Blocks(s) && Unburdened(At(s, t)) && Unburdened(c)
    ensures Blocks(Move(s, t, c))
  {
    hide Domains;
    MoveKeepsDomains(s, t, c);
    var s' := Move(s, t, c);
    forall b | b in s'.place ensures BlockOk(s', b) { assert BlockOk(s, b); }
  }

  lemma MoveKeepsThreads(s: State, t: Tid, c: Pc)
    requires Threads(s) && ThreadOk(Move(s, t, c), t)
    ensures Threads(Move(s, t, c))
  {
    hide Domains;
    MoveKeepsDomains(s, t, c);
    var s' := Move(s, t, c);
    forall u | u in s'.threads ensures ThreadOk(s', u) { if u != t { assert ThreadOk(s, u); } }
  }

  lemma MoveKeepsInv(s: State, t: Tid, c: Pc)
    requires Inv(s) && Unburdened(At(s, t)) && Unburdened(c) && ThreadOk(Move(s, t, c), t)
    ensures Inv(Move(s, t, c))
  {
    MoveKeepsBlocks(s, t, c);
    MoveKeepsThreads(s, t, c);
    assert FreeList(Move(s, t, c), s.chain);
  }

  lemma AllocLoadHeadKeepsInv(s: State, t: Tid)
    requires Inv(s)
    ensures Inv(AllocLoadHeadStep(s, t))
  {
    if At(s, t).Allocating? {
      if s.head == 0 {
        MoveKeepsInv(s, t, Idle);
      } else {
        assert s.head in s.chain;
        var s' := s.(seen := s.seen[t := s.pops[s.head]]);
        forall b | b in s'.place ensures BlockOk(s', b) { assert BlockOk(s, b); }
        forall u | u in s'.threads ensures ThreadOk(s', u) { assert ThreadOk(s, u); }
        MoveKeepsInv(s', t, HeadRead(s.head));
      }
    }
  }

  lemma AllocLoadNextKeepsInv(s: State, t: Tid)
    requires Inv(s)
    ensures Inv(AllocLoadNextStep(s, t))
  {
    if At(s, t).HeadRead? {
      assert ThreadOk(s, t);
      MoveKeepsInv(s, t, NextRead(At(s, t).head, s.next[At(s, t).head]));
    }
  }

  // ---------- Pop ----------

  lemma PopKeepsChain(next: map<nat, nat>, head: nat, c: seq<nat>)
    requires IsChain(next, head, c) && head != 0
    ensures c != [] && head in next && IsChain(next, next[head], c[1..]) && head !in c[1..]
  {
    var d := c[1..];
    assert next[c[0]] == After(c, 0);
    forall i | 0 <= i < |d| ensures d[i] in next && next[d[i]] == After(d, i) {
      assert d[i] == c[i + 1] && After(d, i) == After(c, i + 1);
    }
  }

  lemma PopKeepsList(s: State, t: Tid, next: nat)
    requires FreeList(s, s.chain) && s.head != 0 && next == Get(s.next, s.head, 0)
    ensures FreeList(Pop(s, t, s.head, next), s.chain[1..])
  {
    var s' := Pop(s, t, s.head, next);
    PopKeepsChain(s.next, s.head, s.chain);
    forall b | b in s'.place ensures s'.place[b] == Free <==> b in s.chain[1..] {
      assert b in s.chain <==> b == s.chain[0] || b in s.chain[1..];
    }
  }

  lemma PopKeepsThread(s: State, t: Tid, next: nat, u: Tid)
    requires Domains(s) && s.head in s.place && s.place[s.head] == Free && u != t && ThreadOk(s, u)
    ensures Domains(Pop(s, t, s.head, next)) && ThreadOk(Pop(s, t, s.head, next), u)
  {
    PopKeepsDomains(s, t, next);
    hide Domains;
    assert At(Pop(s, t, s.head, next), u) == At(s, u);
  }

  lemma PopKeepsThreads(s: State, t: Tid, next: nat)
    requires Threads(s) && At(s, t).NextRead? && s.head in s.place && s.place[s.head] == Free
    ensures Threads(Pop(s, t, s.head, next))
  {
    PopKeepsDomains(s, t, next);
    var s' := Pop(s, t, s.head, next);
    forall u | u in s'.threads ensures ThreadOk(s', u) {
      hide Domains;
      if u != t { PopKeepsThread(s, t, next, u); } else { assert At(s', t) == Popped(s.head); }
    }
  }

  lemma PopKeepsBlocks(s: State, t: Tid, next: nat)
    requires Blocks(s) && At(s, t).NextRead? && s.head in s.place && s.place[s.head] == Free
    ensures Blocks(Pop(s, t, s.head, next))
  {
    hide Domains;
    PopKeepsDomains(s, t, next);
    var s' := Pop(s, t, s.head, next);
    forall b | b in s'.place ensures BlockOk(s', b) { assert BlockOk(s, b); }
  }

  lemma HeadIsFree(s: State)
    requires FreeList(s, s.chain) && s.head != 0
    ensures s.head in s.place && s.place[s.head] == Free && s.head in s.next
  {
    assert s.head in s.chain;
  }

  lemma PopCasKeepsInv(s: State, t: Tid, spurious: bool)
    requires Inv(s) && !StalePop(s, PopCas(t, spurious))
    ensures Inv(PopCasStep(s, t, spurious))
  {
    var c := At(s, t);
    if WinsPop(s, PopCas(t, spurious)) {
      assert ThreadOk(s, t);
      HeadIsFree(s);
      PopKeepsThreads(s, t, c.next);
      PopKeepsBlocks(s, t, c.next);
      PopKeepsList(s, t, c.next);
    } else if c.NextRead? {
      MoveKeepsInv(s, t, Allocating);
    }
  }

  // ---------- Reference counts ----------

  lemma StoreRefKeepsInv(s: State, t: Tid)
    requires Inv(s)
    ensures Inv(StoreRefStep(s, t))
  {
    if At(s, t).Popped? {
      assert ThreadOk(s, t);
      StoreRefKeepsBlocks(s, t);
      StoreRefKeepsThreads(s, t);
    }
  }

  lemma StoreRefKeepsDomains(s: State, t: Tid)
    requires Domains(s) && At(s, t).Popped? && ThreadOk(s, t)
    ensures Domains(StoreRefStep(s, t))
  {}

  lemma StoreRefKeepsBlocks(s: State, t: Tid)
    requires Blocks(s) && At(s, t).Popped? && ThreadOk(s, t)
    ensures Blocks(StoreRefStep(s, t))
  {
    hide Domains;
    StoreRefKeepsDomains(s, t);
    var s' := StoreRefStep(s, t);
    forall b | b in s'.place ensures BlockOk(s', b) { assert BlockOk(s, b); }
  }

  lemma StoreRefKeepsThreads(s: State, t: Tid)
    requires Threads(s) && At(s, t).Popped? && ThreadOk(s, t)
    ensures Threads(StoreRefStep(s, t))
  {
    hide Domains;
    StoreRefKeepsDomains(s, t);
    var s' := StoreRefStep(s, t);
    forall u | u in s'.threads ensures ThreadOk(s', u) { if u != t { assert ThreadOk(s, u); } }
  }

  lemma RetainKeepsInv(s: State, b: nat)
    requires Inv(s)
    ensures Inv(RetainStep(s, b))
  {
    if Get(s.handles, b, 0) > 0 {
      HandleMeansHeld(s, b);
      CountKeepsInv(s, b, s.refs[b] + 1);
    }
  }

  lemma CountsKeepThreads(s: State, refs: map<nat, nat>, handles: map<nat, nat>)
    requires Threads(s) && refs.Keys == s.refs.Keys && handles.Keys == s.handles.Keys
    ensures Threads(s.(refs := refs, handles := handles))
  {
    var s' := s.(refs := refs, handles := handles);
    forall u | u in s'.threads ensures ThreadOk(s', u) { assert ThreadOk(s, u); }
  }

  // The count of a held block changes together with its handles.
  lemma CountKeepsBlocks(s: State, b: nat, n: nat)
    requires Blocks(s) && b in s.place && s.place[b] == Held && n > 0
    ensures Blocks(s.(refs := s.refs[b := n], handles := s.handles[b := n]))
  {
    var s' := s.(refs := s.refs[b := n], handles := s.handles[b := n]);
    assert Domains(s');
    hide Domains;
    forall x | x in s'.place ensures BlockOk(s', x) { assert BlockOk(s, x); }
  }

  // Thread t takes the last reference of b and starts to return it.
  function LastDrop(s: State, t: Tid, b: nat): State {
    Move(s, t, Freeing(b)).(refs := s.refs[b := 0], handles := s.handles[b := 0], place := s.place[b := Return(t)])
  }

  lemma LastDropKeepsOther(s: State, t: Tid, b: nat, x: nat)
    requires Blocks(s) && At(s, t).Idle? && b in s.place && x in s.place && x != b
    ensures Domains(LastDrop(s, t, b)) && BlockOk(LastDrop(s, t, b), x)
  {
    LastDropKeepsDomains(s, t, b);
    hide Domains;
    assert BlockOk(s, x);
  }

  lemma LastDropKeepsBlocks(s: State, t: Tid, b: nat)
    requires Blocks(s) && At(s, t).Idle? && b in s.place && s.place[b] == Held
    ensures Blocks(LastDrop(s, t, b))
  {
    var s' := LastDrop(s, t, b);
    forall x | x in s'.place ensures BlockOk(s', x) { if x != b { LastDropKeepsOther(s, t, b, x); } }
  }

  lemma LastDropKeepsThreads(s: State, t: Tid, b: nat)
    requires Threads(s) && At(s, t).Idle? && b in s.place && s.place[b] == Held
    ensures Threads(LastDrop(s, t, b))
  {
    hide Domains;
    LastDropKeepsDomains(s, t, b);
    var s' := LastDrop(s, t, b);
    forall u | u in s'.threads ensures ThreadOk(s', u) { if u != t { assert ThreadOk(s, u); } }
  }

  lemma HandleMeansHeld(s: State, b: nat)
    requires Blocks(s) && Get(s.handles, b, 0) > 0
    ensures b in s.place && s.place[b] == Held && s.refs[b] == s.handles[b]
  {
    assert BlockOk(s, b);
  }

  lemma LastDropKeepsInv(s: State, t: Tid, b: nat)
    requires Inv(s) && At(s, t).Idle? && b in s.place && s.place[b] == Held
    ensures Inv(LastDrop(s, t, b))
  {
    LastDropKeepsBlocks(s, t, b);
    LastDropKeepsThreads(s, t, b);
    assert FreeList(LastDrop(s, t, b), s.chain);
  }

  lemma CountKeepsInv(s: State, b: nat, n: nat)
    requires Inv(s) && b in s.place && s.place[b] == Held && n > 0
    ensures Inv(s.(refs := s.refs[b := n], handles := s.handles[b := n]))
  {
    CountKeepsBlocks(s, b, n);
    CountsKeepThreads(s, s.refs[b := n], s.handles[b := n]);
  }

  lemma DropIs(s: State, t: Tid, b: nat)
    requires At(s, t).Idle? && Get(s.handles, b, 0) > 0 && b in s.refs && s.refs[b] == s.handles[b]
    ensures DropStep(s, t, b) ==
              if s.refs[b] == 1 then LastDrop(s, t, b)
              else s.(refs := s.refs[b := s.refs[b] - 1], handles := s.handles[b := s.refs[b] - 1])
  {}

  lemma DropKeepsInv(s: State, t: Tid, b: nat)
    requires Inv(s)
    ensures Inv(DropStep(s, t, b))
  {
    assert Blocks(s);
    hide Inv, FreeList, Threads, Blocks, LastDrop;
    if At(s, t).Idle? && Get(s.handles, b, 0) > 0 {
      HandleMeansHeld(s, b);
      DropIs(s, t, b);
      hide DropStep, At, Get;
      if s.refs[b] == 1 { LastDropKeepsInv(s, t, b); } else { CountKeepsInv(s, b, s.refs[b] - 1); }
    }
  }

  // ---------- Push ----------

  lemma FreeLoadHeadKeepsInv(s: State, t: Tid)
    requires Inv(s)
    ensures Inv(FreeLoadHeadStep(s, t))
  {
    if At(s, t).Freeing? {
      var s' := FreeLoadHeadStep(s, t);
      if s.head != 0 { HeadIsFree(s); }
      assert ThreadOk(s, t);
      forall b | b in s'.place ensures BlockOk(s', b) { assert BlockOk(s, b); }
      forall u | u in s'.threads ensures ThreadOk(s', u) { if u != t { assert ThreadOk(s, u); } }
    }
  }

  lemma LinkKeepsThreads(s: State, t: Tid)
    requires Threads(s) && At(s, t).FreeHeadRead? && ThreadOk(s, t)
    ensures Threads(LinkStep(s, t))
  {
    hide Domains;
    LinkKeepsDomains(s, t);
    var s' := LinkStep(s, t);
    forall u | u in s'.threads ensures ThreadOk(s', u) { if u != t { assert ThreadOk(s, u); } }
  }

  lemma LinkKeepsList(s: State, b: nat, head: nat)
    requires FreeList(s, s.chain) && b in s.place && s.place[b] != Free
    ensures FreeList(s.(next := s.next[b := head]), s.chain)
  {
    assert b !in s.chain;
  }

  lemma LinkKeepsBlocks(s: State, t: Tid)
    requires Blocks(s) && At(s, t).FreeHeadRead? && ThreadOk(s, t)
    ensures Blocks(LinkStep(s, t))
  {
    hide Domains;
    LinkKeepsDomains(s, t);
    var s' := LinkStep(s, t);
    forall b | b in s'.place ensures BlockOk(s', b) { assert BlockOk(s, b); }
  }

  lemma LinkKeepsInv(s: State, t: Tid)
    requires Inv(s)
    ensures Inv(LinkStep(s, t))
  {
    if At(s, t).FreeHeadRead? {
      assert ThreadOk(s, t);
      LinkKeepsThreads(s, t);
      LinkKeepsBlocks(s, t);
      LinkKeepsList(s, At(s, t).blk, At(s, t).head);
    }
  }

  lemma PushKeepsChain(next: map<nat, nat>, head: nat, c: seq<nat>, b: nat)
    requires IsChain(next, head, c) && b in next && next[b] == head && b !in c && b != 0
    ensures IsChain(next, b, [b] + c)
  {
    var d := [b] + c;
    forall i | 0 <= i < |d| ensures d[i] in next && next[d[i]] == After(d, i) {
      if i > 0 { assert d[i] == c[i - 1] && After(d, i) == After(c, i - 1); }
    }
  }

  function Push(s: State, t: Tid, b: nat): State {
    Move(s, t, Idle).(head := b, place := s.place[b := Free], chain := [b] + s.chain)
  }

  lemma PushKeepsThreads(s: State, t: Tid, b: nat)
    requires Threads(s) && At(s, t).Linked? && ThreadOk(s, t) && b == At(s, t).blk
    ensures Threads(Push(s, t, b))
  {
    hide Domains;
    PushKeepsDomains(s, t, b);
    var s' := Push(s, t, b);
    forall u | u in s'.threads ensures ThreadOk(s', u) { if u != t { assert ThreadOk(s, u); } }
  }

  lemma PushKeepsBlocks(s: State, t: Tid, b: nat)
    requires Blocks(s) && At(s, t).Linked? && ThreadOk(s, t) && b == At(s, t).blk
    ensures Blocks(Push(s, t, b))
  {
    hide Domains;
    PushKeepsDomains(s, t, b);
    var s' := Push(s, t, b);
    forall x | x in s'.place ensures BlockOk(s', x) { assert BlockOk(s, x); }
  }

  lemma PushKeepsList(s: State, t: Tid, b: nat)
    requires FreeList(s, s.chain) && b in s.place && s.place[b] != Free && b != 0
    requires b in s.next && s.next[b] == s.head
    ensures FreeList(Push(s, t, b), [b] + s.chain)
  {
    assert b !in s.chain;
    PushKeepsChain(s.next, s.head, s.chain, b);
  }

  lemma RetryKeepsInv(s: State, t: Tid, b: nat)
    requires Inv(s) && At(s, t).Linked? && b == At(s, t).blk
    ensures Inv(Move(s, t, Freeing(b)))
  {
    var s' := Move(s, t, Freeing(b));
    assert ThreadOk(s, t);
    forall x | x in s'.place ensures BlockOk(s', x) { assert BlockOk(s, x); }
    MoveKeepsThreads(s, t, Freeing(b));
  }

  lemma PushCasKeepsInv(s: State, t: Tid, spurious: bool)
    requires Inv(s)
    ensures Inv(PushCasStep(s, t, spurious))
  {
    if At(s, t).Linked? {
      var b := At(s, t).blk;
      assert ThreadOk(s, t);
      if !spurious && s.head == At(s, t).head {
        PushKeepsThreads(s, t, b);
        PushKeepsBlocks(s, t, b);
        PushKeepsList(s, t, b);
      } else {
        RetryKeepsInv(s, t, b);
      }
    }
  }

  // ---------- Steps and runs ----------

  lemma StepKeepsInv(s: State, a: Action)
    requires Inv(s) && !StalePop(s, a)
    ensures Inv(Next(s, a))
  {
    match a
    case AllocCall(t, size) => if At(s, t).Idle? { MoveKeepsInv(s, t, Allocating); }
    case AllocLoadHead(t) => AllocLoadHeadKeepsInv(s, t);
    case AllocLoadNext(t) => AllocLoadNextKeepsInv(s, t);
    case PopCas(t, spurious) => PopCasKeepsInv(s, t, spurious);
    case StoreRef(t) => StoreRefKeepsInv(s, t);
    case Retain(b) => RetainKeepsInv(s, b);
    case Drop(t, b) => DropKeepsInv(s, t, b);
    case FreeLoadHead(t) => FreeLoadHeadKeepsInv(s, t);
    case Link(t) => LinkKeepsInv(s, t);
    case PushCas(t, spurious) => PushCasKeepsInv(s, t, spurious);
  }

  lemma {:induction false} ChainIsUnique(next: map<nat, nat>, head: nat, c: seq<nat>, d: seq<nat>, i: nat)
    requires IsChain(next, head, c) && IsChain(next, head, d) && 0 !in next && i < |c|
    ensures i < |d| && c[i] == d[i]
  {
    assert c[0] in next;
    if i > 0 {
      ChainIsUnique(next, head, c, d, i - 1);
      assert After(c, i - 1) == c[i] && c[i] in next;
      assert next[d[i - 1]] == After(d, i - 1);
    }
  }

  // The new head n sits further down the old list, so a list from it misses the old second block.
  lemma TailMissesSecond(next: map<nat, nat>, c: seq<nat>, n: nat, d: seq<nat>)
    requires c != [] && IsChain(next, c[0], c) && 0 !in next && IsChain(next, n, d) && d != []
    requires n in c && n != c[0] && n != After(c, 0)
    ensures |c| > 1 && c[1] !in d
  {
    var k :| 0 <= k < |c| && c[k] == n;
    assert k >= 2;
    TailIsChain(next, c[0], c, k);
    forall i | 0 <= i < |d| ensures d[i] != c[1] {
      ChainIsUnique(next, n, d, c[k..], i);
      assert d[i] == c[k + i];
    }
  }

  /** A stale pop destroys the free list for good: afterwards no list at all starts at the head
      and holds exactly the blocks that are neither held nor in some thread's hands. */
  lemma StalePopBreaks(s: State, a: Action, d: seq<nat>)
    requires Inv(s) && StalePop(s, a)
    ensures !FreeList(Next(s, a), d)
  {
    hide Threads, Blocks;
    var s' := Next(s, a);
    DomainsOf(s);
    StaleHead(s, a);
    HeadIsFree(s);
    var c, n := s.chain, At(s, a.t).next;
    assert s.next[c[0]] == After(c, 0);
    // Some free block other than the old head exists; the new list misses it.
    assert |c| > 1 ==> c[1] in c && s'.place[c[1]] == Free;
    if FreeList(s', d) && d != [] {
      assert d[0] in d && s'.place[n] == Free && n != c[0];
      TailMissesSecond(s.next, c, n, d);
    }
  }

  lemma StaleHead(s: State, a: Action)
    requires Threads(s) && StalePop(s, a)
    ensures s.head != 0
  {
    assert ThreadOk(s, a.t);
  }

  lemma DomainsOf(s: State)
    requires Blocks(s)
    ensures 0 !in s.next && s.place.Keys == s.next.Keys
  {}

  lemma TailIsChain(next: map<nat, nat>, head: nat, c: seq<nat>, k: nat)
    requires IsChain(next, head, c) && k < |c|
    ensures IsChain(next, c[k], c[k..])
  {
    var d := c[k..];
    forall i | 0 <= i < |d| ensures d[i] in next && next[d[i]] == After(d, i) {
      assert d[i] == c[k + i] && After(d, i) == After(c, k + i);
    }
  }

  /** A step keeps the invariant if and only if it is not a stale pop. */
  lemma StepKeepsInvIff(s: State, a: Action)
    requires Inv(s)
    ensures Inv(Next(s, a)) <==> !StalePop(s, a)
  {
    if StalePop(s, a) { StalePopBreaks(s, a, Next(s, a).chain); } else { StepKeepsInv(s, a); }
  }

  /** A stale pop needs the head block to have been popped and pushed again meanwhile. */
  lemma StalePopIsRecycled(s: State, a: Action)
    requires Inv(s) && StalePop(s, a)
    ensures Recycled(s, a)
  {
    assert ThreadOk(s, a.t);
  }

  predicate NotRecycled(s: State, a: Action) { !Recycled(s, a) }

  // What the initialiser leaves behind: every block of c is free and c is the free list.
  predicate Initial(s: State, c: seq<nat>) {
    && s.threads == map[] && s.chain == c
    && IsChain(s.next, s.head, c) && 0 !in c
    && s.place.Keys == s.refs.Keys == s.next.Keys == s.handles.Keys == s.pops.Keys == (set b | b in c)
    && (forall b :: b in s.place ==> s.place[b] == Free)
    && (forall b :: b in s.refs ==> s.refs[b] == 0)
    && (forall b :: b in s.handles ==> s.handles[b] == 0)
  }

  lemma InitialInv(s: State, c: seq<nat>)
    requires Initial(s, c)
    ensures Inv(s)
  {
    forall b | b in s.next ensures s.next[b] == 0 || s.next[b] in s.place {
      var i :| 0 <= i < |c| && c[i] == b;
      assert s.next[c[i]] == After(c, i);
    }
    forall b | b in s.place ensures BlockOk(s, b) {}
  }

  // Some thread has block b in its hands: popped and not yet handed out, or not yet pushed back.
  predicate InHands(s: State, t: Tid, b: nat) {
    var c := At(s, t);
    (c.Popped? || Returning(c)) && c.blk == b
  }

  // Block b is in exactly one place.
  ghost predicate InOnePlace(t: State, b: nat) {
    && b in t.refs && b in t.handles && t.refs[b] == t.handles[b]
    && (b in t.chain ==> t.refs[b] == 0 && forall u :: !InHands(t, u, b))
    && (t.refs[b] > 0 ==> b !in t.chain && forall u :: !InHands(t, u, b))
    && (b in t.chain || t.refs[b] > 0 || exists u :: InHands(t, u, b))
    && (forall u, v :: InHands(t, u, b) && InHands(t, v, b) ==> u == v)
  }

  lemma InvMeansOnePlace(t: State, b: nat)
    requires Inv(t) && b in t.place
    ensures InOnePlace(t, b)
  {
    assert BlockOk(t, b);
    forall u | InHands(t, u, b) ensures t.place[b] == Handout(u) || t.place[b] == Return(u) {
      assert ThreadOk(t, u);
    }
    if t.place[b].Handout? || t.place[b].Return? { assert InHands(t, t.place[b].t, b); }
  }

  /** Conservation: in every run in which no popped head was recycled under the popping thread,
      each block is in exactly one place: on the free list, held with a count equal to the
      number of references its owners have, or in the hands of exactly one thread. */
  lemma BlocksConserved(s: State, c: seq<nat>, run: seq<Action>, b: nat)
    requires Initial(s, c) && b in c && Runs.Along(Next, NotRecycled, s, run)
    ensures var t := Runs.Exec(Next, s, run);
            IsChain(t.next, t.head, t.chain) && InOnePlace(t, b)
  {
    RunKeepsInv(s, c, run);
    KeysKept(s, c, run);
    assert b in s.place.Keys;
    InvMeansOnePlace(Runs.Exec(Next, s, run), b);
  }

  lemma RunKeepsInv(s: State, c: seq<nat>, run: seq<Action>)
    requires Initial(s, c) && Runs.Along(Next, NotRecycled, s, run)
    ensures Inv(Runs.Exec(Next, s, run))
  {
    InitialInv(s, c);
    forall x, a | Inv(x) && NotRecycled(x, a) ensures Inv(Next(x, a)) {
      if StalePop(x, a) { StalePopIsRecycled(x, a); }
      StepKeepsInv(x, a);
    }
    Runs.InvariantAlong(Next, NotRecycled, Inv, s, run);
  }

  lemma KeysKept(s: State, c: seq<nat>, run: seq<Action>)
    requires Initial(s, c) && Runs.Along(Next, NotRecycled, s, run)
    ensures Runs.Exec(Next, s, run).place.Keys == s.place.Keys
  {
    var same := (x: State) => Inv(x) && x.place.Keys == s.place.Keys;
    InitialInv(s, c);
    forall x, a | same(x) && NotRecycled(x, a) ensures same(Next(x, a)) {
      if StalePop(x, a) { StalePopIsRecycled(x, a); }
      StepKeepsInv(x, a);
      StepKeepsKeys(x, a);
    }
    Runs.InvariantAlong(Next, NotRecycled, same, s, run);
  }

  lemma StepKeepsKeys(s: State, a: Action)
    requires Threads(s)
    ensures Next(s, a).place.Keys == s.place.Keys
  {
    match a
    case PopCas(t, spurious) => PopCasKeepsKeys(s, t, spurious);
    case StoreRef(t) => StoreRefKeepsKeys(s, t);
    case Drop(t, b) => DropKeepsKeys(s, t, b);
    case PushCas(t, spurious) => PushCasKeepsKeys(s, t, spurious);
    case _ =>
      hide Threads, Get, At;
  }

  lemma PopCasKeepsKeys(s: State, t: Tid, spurious: bool)
    requires Threads(s)
    ensures PopCasStep(s, t, spurious).place.Keys == s.place.Keys
  {
    assert ThreadOk(s, t);
  }

  lemma StoreRefKeepsKeys(s: State, t: Tid)
    requires Threads(s)
    ensures StoreRefStep(s, t).place.Keys == s.place.Keys
  {
    assert ThreadOk(s, t);
  }

  lemma DropKeepsKeys(s: State, t: Tid, b: nat)
    requires Domains(s)
    ensures DropStep(s, t, b).place.Keys == s.place.Keys
  {}

  lemma PushCasKeepsKeys(s: State, t: Tid, spurious: bool)
    requires Threads(s)
    ensures PushCasStep(s, t, spurious).place.Keys == s.place.Keys
  {
    assert ThreadOk(s, t);
  }

  /** No block is handed out while anybody still owns a reference to it. */
  lemma HandoutIsExclusive(s: State, t: Tid)
    requires Inv(s) && At(s, t).Popped?
    ensures var b := At(s, t).blk;
            && b in s.refs && s.refs[b] == 0 == s.handles[b] && b !in s.chain
            && (forall u :: u != t ==> !InHands(s, u, b))
            && StoreRefStep(s, t).refs[b] == 1
  {
    var b := At(s, t).blk;
    assert ThreadOk(s, t) && BlockOk(s, b);
    forall u | u != t ensures !InHands(s, u, b) { assert ThreadOk(s, u); }
  }

  // ---------- How allocations and releases end ----------

  predicate Getting(c: Pc) { c.Allocating? || c.HeadRead? || c.NextRead? }

  lemma HeadOfChain(s: State)
    requires Inv(s)
    ensures s.head == 0 <==> s.chain == []
    ensures s.chain != [] ==> s.chain[0] == s.head && s.head in s.refs && s.head in s.handles
  {
    assert s.chain != [] ==> s.chain[0] in s.chain;
  }

  /** How an allocation ends, over every step of every thread: it fails exactly at a head load that
      finds the free list empty, and gets a block exactly at its winning CAS, the first of the list.
      A lost CAS is no end: it goes round again, and each of its own steps takes it further. */
  lemma AllocEndsIff(s: State, a: Action, t: Tid)
    requires Inv(s) && Getting(At(s, t))
    ensures var n := Next(s, a);
            && (At(n, t).Idle? <==> a == AllocLoadHead(t) && At(s, t).Allocating? && s.chain == [])
            && (At(n, t).Popped? <==> WinsPop(s, a) && a.t == t)
            && (At(n, t).Popped? ==> s.chain != [] && At(n, t).blk == s.chain[0] && n.chain == s.chain[1..])
            && (!At(n, t).Idle? && !At(n, t).Popped? ==> Getting(At(n, t)))
            && (a == AllocLoadHead(t) && At(s, t).Allocating? && s.chain != [] ==> At(n, t) == HeadRead(s.chain[0]))
            && (a == AllocLoadNext(t) && At(s, t).HeadRead? ==> At(n, t).NextRead? && At(n, t).head == At(s, t).head)
            && (a.PopCas? && a.t == t && At(s, t).NextRead? ==> At(n, t).Popped? || At(n, t).Allocating?)
  {
    HeadOfChain(s);
    assert WinsPop(s, a) && a.t == t ==> s.head in s.place by { assert ThreadOk(s, t); }
    assert 0 !in s.place;
    hide Inv;
    if By(a, t) { OwnAllocStep(s, a, t); } else { OthersLeave(s, a, t); }
  }

  predicate By(a: Action, t: Tid) { !a.Retain? && a.t == t }

  lemma OthersLeave(s: State, a: Action, t: Tid)
    requires !By(a, t)
    ensures At(Next(s, a), t) == At(s, t)
  {
    hide Next, At;
    if a.AllocCall? || a.AllocLoadHead? || a.AllocLoadNext? || a.PopCas? || a.StoreRef? {
      OtherAllocLeaves(s, a, t);
    } else {
      OtherReleaseLeaves(s, a, t);
    }
  }

  lemma OtherAllocLeaves(s: State, a: Action, t: Tid)
    requires a.AllocCall? || a.AllocLoadHead? || a.AllocLoadNext? || a.PopCas? || a.StoreRef?
    requires a.t != t
    ensures At(Next(s, a), t) == At(s, t)
  {
    hide Get, RetainStep, DropStep, FreeLoadHeadStep, LinkStep, PushCasStep;
  }

  lemma OtherReleaseLeaves(s: State, a: Action, t: Tid)
    requires a.Retain? || a.Drop? || a.FreeLoadHead? || a.Link? || a.PushCas?
    requires !By(a, t)
    ensures At(Next(s, a), t) == At(s, t)
  {
    hide Get, AllocCallStep, AllocLoadHeadStep, AllocLoadNextStep, PopCasStep, StoreRefStep;
  }

  lemma OwnAllocStep(s: State, a: Action, t: Tid)
    requires By(a, t) && Getting(At(s, t)) && (WinsPop(s, a) ==> s.head != 0) && (s.head == 0 <==> s.chain == [])
    ensures var n, c := Next(s, a), At(s, t);
            && (At(n, t).Idle? <==> a.AllocLoadHead? && c.Allocating? && s.head == 0)
            && (At(n, t).Popped? <==> WinsPop(s, a))
            && (At(n, t).Popped? ==> At(n, t).blk == s.head && n.chain == s.chain[1..])
            && (!At(n, t).Idle? && !At(n, t).Popped? ==> Getting(At(n, t)))
            && (a.AllocLoadHead? && c.Allocating? && s.head != 0 ==> At(n, t) == HeadRead(s.head))
            && (a.AllocLoadNext? && c.HeadRead? ==> At(n, t).NextRead? && At(n, t).head == c.head)
            && (a.PopCas? && c.NextRead? ==> At(n, t).Popped? || At(n, t).Allocating?)
  {
    hide Get;
  }

  // The loads, the CAS and the store of the count of one allocation.
  function GetBlock(t: Tid): seq<Action> { [AllocLoadHead(t), AllocLoadNext(t), PopCas(t, false), StoreRef(t)] }

  // Thread t has got the first free block, with one reference, and nothing else changed hands.
  ghost predicate Got(s: State, n: State, t: Tid) {
    && s.chain != [] && n.chain == s.chain[1..] && At(n, t).Idle?
    && n.refs == s.refs[s.chain[0] := 1] && n.handles == s.handles[s.chain[0] := 1] && n.next == s.next
    && n.place == s.place[s.chain[0] := Held] && (forall u :: u != t ==> At(n, u) == At(s, u))
  }

  lemma GetBlockGets(s: State, t: Tid)
    requires At(s, t).Allocating? && s.head != 0 && s.chain != [] && s.chain[0] == s.head
    ensures Got(s, Runs.Exec(Next, s, GetBlock(t)), t)
  {
    GetBlockEffect(s, t);
    AllocSteps(s, t);
    hide Next, AllocLoadHeadStep, AllocLoadNextStep, PopCasStep, StoreRefStep, Got;
    Runs.Four(Next, s, AllocLoadHead(t), AllocLoadNext(t), PopCas(t, false), StoreRef(t));
  }

  lemma GetBlockEffect(s: State, t: Tid)
    requires At(s, t).Allocating? && s.head != 0 && s.chain != [] && s.chain[0] == s.head
    ensures Got(s, StoreRefStep(PopCasStep(AllocLoadNextStep(AllocLoadHeadStep(s, t), t), t, false), t), t)
  {
    var s1 := AllocLoadHeadStep(s, t);
    var s2 := AllocLoadNextStep(s1, t);
    assert At(s2, t) == NextRead(s.head, Get(s.next, s.head, 0)) && s2.head == s.head;
    var s3 := PopCasStep(s2, t, false);
    assert At(s3, t) == Popped(s.head);
    assert StoreRefStep(s3, t).place == s.place[s.head := Held];
  }

  lemma AllocSteps(s: State, t: Tid)
    ensures StoreRefStep(PopCasStep(AllocLoadNextStep(AllocLoadHeadStep(s, t), t), t, false), t)
              == Next(Next(Next(Next(s, AllocLoadHead(t)), AllocLoadNext(t)), PopCas(t, false)), StoreRef(t))
  {
    hide AllocLoadHeadStep, AllocLoadNextStep, PopCasStep, StoreRefStep;
  }

  lemma GetBlockFails(s: State, t: Tid)
    requires At(s, t).Idle? || (At(s, t).Allocating? && s.head == 0)
    ensures var n := Runs.Exec(Next, s, GetBlock(t)); n == s.(threads := n.threads) && forall u :: u != t ==> At(n, u) == At(s, u)
    ensures At(Runs.Exec(Next, s, GetBlock(t)), t).Idle?
  {
    var s1 := AllocLoadHeadStep(s, t);
    assert At(s1, t).Idle? && AllocLoadNextStep(s1, t) == s1 && PopCasStep(s1, t, false) == s1 && StoreRefStep(s1, t) == s1;
    Runs.Four(Next, s, AllocLoadHead(t), AllocLoadNext(t), PopCas(t, false), StoreRef(t));
  }

  /** What an allocation that nobody interrupts returns: a block if and only if the size fits and the
      free list is not empty, and then the first block of the list. */
  lemma AllocAloneServesIff(s: State, t: Tid, size: nat)
    requires Inv(s) && At(s, t).Idle?
    ensures var n := Runs.Exec(Next, s, [AllocCall(t, size)] + GetBlock(t));
            if size <= MAX_DATA && s.chain != [] then Got(s, n, t)
            else n == s.(threads := n.threads) && At(n, t).Idle? && forall u :: u != t ==> At(n, u) == At(s, u)
  {
    HeadOfChain(s);
    Runs.One(Next, s, AllocCall(t, size), GetBlock(t));
    var s1 := AllocCallStep(s, t, size);
    if size <= MAX_DATA && s.chain != [] { GetBlockGets(s1, t); } else { GetBlockFails(s1, t); }
  }

  /** An allocation that loses its CAS, or whose CAS fails spuriously, gets the first free block by its
      next round, if there is one. */
  lemma LostPopAllocatesLater(s: State, t: Tid, spurious: bool)
    requires Inv(s) && At(s, t).NextRead? && !WinsPop(s, PopCas(t, spurious)) && s.chain != []
    ensures Got(s, Runs.Exec(Next, s, [PopCas(t, spurious)] + GetBlock(t)), t)
  {
    HeadOfChain(s);
    hide Inv;
    var n := Move(s, t, Allocating);
    assert Next(s, PopCas(t, spurious)) == n;
    hide Next, Move;
    MoveHas(s, t, Allocating);
    Runs.One(Next, s, PopCas(t, spurious), GetBlock(t));
    GetBlockGets(n, t);
  }

  lemma MoveHas(s: State, t: Tid, c: Pc)
    ensures var n := Move(s, t, c);
            && At(n, t) == c && (forall u :: u != t ==> At(n, u) == At(s, u)) && n.head == s.head && n.chain == s.chain
            && n.refs == s.refs && n.handles == s.handles && n.next == s.next && n.place == s.place
  {}

  /** How a last release ends, over every step of every thread: exactly at its winning CAS, which puts
      its own block at the front of the free list. Until then the block stays with this thread, and each
      of its own steps takes it further. */
  lemma ReleaseEndsIff(s: State, a: Action, t: Tid)
    requires Inv(s) && Returning(At(s, t))
    ensures var n, b := Next(s, a), At(s, t).blk;
            && (At(n, t).Idle? <==> a == PushCas(t, false) && At(s, t).Linked? && s.head == At(s, t).head)
            && (At(n, t).Idle? ==> n.chain == [b] + s.chain && n.head == b && b in n.place && n.place[b] == Free)
            && (!At(n, t).Idle? ==> Returning(At(n, t)) && At(n, t).blk == b)
            && (a == FreeLoadHead(t) && At(s, t).Freeing? ==> At(n, t) == FreeHeadRead(b, s.head))
            && (a == Link(t) && At(s, t).FreeHeadRead? ==> At(n, t) == Linked(b, At(s, t).head))
            && (a.PushCas? && a.t == t && At(s, t).Linked? ==> At(n, t).Idle? || At(n, t).Freeing?)
  {
    assert ThreadOk(s, t);
    hide Inv;
    if By(a, t) { OwnReleaseStep(s, a, t); } else { OthersLeave(s, a, t); }
  }

  lemma OwnReleaseStep(s: State, a: Action, t: Tid)
    requires By(a, t) && Returning(At(s, t))
    ensures var n, c := Next(s, a), At(s, t);
            && (At(n, t).Idle? <==> a == PushCas(t, false) && c.Linked? && s.head == c.head)
            && (At(n, t).Idle? ==> n.chain == [c.blk] + s.chain && n.head == c.blk && n.place == s.place[c.blk := Free])
            && (!At(n, t).Idle? ==> Returning(At(n, t)) && At(n, t).blk == c.blk)
            && (a.FreeLoadHead? && c.Freeing? ==> At(n, t) == FreeHeadRead(c.blk, s.head))
            && (a.Link? && c.FreeHeadRead? ==> At(n, t) == Linked(c.blk, c.head))
            && (a.PushCas? && c.Linked? ==> At(n, t).Idle? || At(n, t).Freeing?)
  {
    hide Get;
  }

  /** Retain and release on a held block: a retain adds one reference, and a release takes it back; the
      release of the last reference, and no other, starts the way back to the free list. */
  lemma RetainsAndDropsCount(s: State, t: Tid, b: nat)
    requires Inv(s) && At(s, t).Idle? && b in s.refs && s.refs[b] > 0
    ensures var n := Next(s, Retain(b)); n.refs == s.refs[b := s.refs[b] + 1] && Next(n, Drop(t, b)) == s
    ensures var n := Next(s, Drop(t, b));
            && n.refs == s.refs[b := s.refs[b] - 1] && n.chain == s.chain && n.head == s.head
            && At(n, t) == (if s.refs[b] == 1 then Freeing(b) else Idle) && (forall u :: u != t ==> At(n, u) == At(s, u))
  {
    assert BlockOk(s, b);
    hide Inv, RetainStep, DropStep;
    assert Next(s, Retain(b)) == RetainStep(s, b);
    assert Next(RetainStep(s, b), Drop(t, b)) == DropStep(RetainStep(s, b), t, b) && Next(s, Drop(t, b)) == DropStep(s, t, b);
    hide Next;
    RetainEffect(s, t, b);
    DropEffect(s, t, b);
  }

  lemma RetainEffect(s: State, t: Tid, b: nat)
    requires At(s, t).Idle? && b in s.refs && b in s.handles && s.refs[b] == s.handles[b] > 0
    ensures RetainStep(s, b) == s.(refs := s.refs[b := s.refs[b] + 1], handles := s.handles[b := s.handles[b] + 1])
    ensures DropStep(RetainStep(s, b), t, b) == s
  {
    var n := RetainStep(s, b);
    assert n.refs[b := s.refs[b]] == s.refs && n.handles[b := s.handles[b]] == s.handles;
  }

  lemma DropEffect(s: State, t: Tid, b: nat)
    requires At(s, t).Idle? && b in s.refs && b in s.handles && s.refs[b] == s.handles[b] > 0
    ensures var n := DropStep(s, t, b);
            && n.refs == s.refs[b := s.refs[b] - 1] && n.chain == s.chain && n.head == s.head
            && At(n, t) == (if s.refs[b] == 1 then Freeing(b) else Idle) && (forall u :: u != t ==> At(n, u) == At(s, u))
  {
    DropIs(s, t, b);
    hide DropStep;
  }

  /** A release that loses its CAS puts the block back by its next round. */
  lemma LostPushReturnsLater(s: State, t: Tid, spurious: bool)
    requires Inv(s) && At(s, t).Linked?
    requires s.head != At(s, t).head || spurious
    ensures var n := Runs.Exec(Next, s, [PushCas(t, spurious), FreeLoadHead(t), Link(t), PushCas(t, false)]);
            && n.chain == [At(s, t).blk] + s.chain && At(n, t).Idle? && n.refs == s.refs && n.handles == s.handles
            && (forall u :: u != t ==> At(n, u) == At(s, u))
  {
    hide Inv, Get;
    var b := At(s, t).blk;
    var s1 := PushCasStep(s, t, spurious);
    var s2 := FreeLoadHeadStep(s1, t);
    var s3 := LinkStep(s2, t);
    assert s1 == Move(s, t, Freeing(b)) && s2 == Move(s1, t, FreeHeadRead(b, s.head));
    assert s3 == Move(s2, t, Linked(b, s.head)).(next := s.next[b := s.head]);
    var n := PushCasStep(s3, t, false);
    assert n == Move(s3, t, Idle).(head := b, place := s.place[b := Free], chain := [b] + s.chain);
    StepsAre(s, t, spurious);
    hide Next, PushCasStep, FreeLoadHeadStep, LinkStep;
    Runs.Four(Next, s, PushCas(t, spurious), FreeLoadHead(t), Link(t), PushCas(t, false));
  }

  // Each action of a release is its step.
  lemma StepsAre(s: State, t: Tid, spurious: bool)
    ensures forall x :: Next(x, PushCas(t, spurious)) == PushCasStep(x, t, spurious)
    ensures forall x :: Next(x, FreeLoadHead(t)) == FreeLoadHeadStep(x, t) && Next(x, Link(t)) == LinkStep(x, t)
    ensures forall x :: Next(x, PushCas(t, false)) == PushCasStep(x, t, false)
  {
    hide PushCasStep, FreeLoadHeadStep, LinkStep;
  }

  // ---------- What a recycled head does ----------

  predicate Reaches(s0: State, run: seq<Action>, s: State) { Runs.Leads(Next, NotRecycled, s0, run, s) }

  lemma Perform(s0: State, run: seq<Action>, s: State, a: Action) returns (run': seq<Action>)
    requires Reaches(s0, run, s) && !Recycled(s, a)
    ensures Reaches(s0, run', Next(s, a))
  {
    run' := run + [a];
    Runs.Extend(Next, NotRecycled, s0, run, s, a);
  }

  // What the five steps of an allocation do when nobody interrupts them.
  function AllocEffect(s: State, t: Tid): State {
    var b := s.head;
    Move(s, t, Idle).(
      head := Get(s.next, b, 0), seen := s.seen[t := Get(s.pops, b, 0)],
      refs := s.refs[b := 1], handles := s.handles[b := 1], place := s.place[b := Held],
      pops := s.pops[b := Get(s.pops, b, 0) + 1],
      chain := if s.chain == [] then [] else s.chain[1..])
  }

  // Stopped just before the CAS.
  function LoadedEffect(s: State, t: Tid): State {
    Move(s, t, NextRead(s.head, Get(s.next, s.head, 0))).(seen := s.seen[t := Get(s.pops, s.head, 0)])
  }

  lemma LoadedEffectIs(s: State, t: Tid)
    requires At(s, t).Idle? && s.head != 0
    ensures AllocLoadNextStep(AllocLoadHeadStep(AllocCallStep(s, t, 0), t), t) == LoadedEffect(s, t)
  {
    var s3 := AllocLoadNextStep(AllocLoadHeadStep(AllocCallStep(s, t, 0), t), t);
    assert s3.threads == LoadedEffect(s, t).threads;
  }

  lemma AllocEffectIs(s: State, t: Tid)
    requires s.head != 0
    ensures !Recycled(LoadedEffect(s, t), PopCas(t, false))
    ensures StoreRefStep(PopCasStep(LoadedEffect(s, t), t, false), t) == AllocEffect(s, t)
  {
    var s5 := StoreRefStep(PopCasStep(LoadedEffect(s, t), t, false), t);
    var e := AllocEffect(s, t);
    assert s5.threads == e.threads && s5.place == e.place;
  }

  lemma LoadAlone(s0: State, run: seq<Action>, s: State, t: Tid) returns (run': seq<Action>)
    requires Reaches(s0, run, s) && At(s, t).Idle? && s.head != 0
    ensures Reaches(s0, run', LoadedEffect(s, t))
  {
    LoadedEffectIs(s, t);
    var s1 := AllocCallStep(s, t, 0);
    var s2 := AllocLoadHeadStep(s1, t);
    run' := Perform(s0, run, s, AllocCall(t, 0));
    run' := Perform(s0, run', s1, AllocLoadHead(t));
    run' := Perform(s0, run', s2, AllocLoadNext(t));
  }

  lemma AllocAlone(s0: State, run: seq<Action>, s: State, t: Tid) returns (run': seq<Action>)
    requires Reaches(s0, run, s) && At(s, t).Idle? && s.head != 0
    ensures Reaches(s0, run', AllocEffect(s, t))
  {
    AllocEffectIs(s, t);
    var s3 := LoadedEffect(s, t);
    run' := LoadAlone(s0, run, s, t);
    run' := Perform(s0, run', s3, PopCas(t, false));
    run' := Perform(s0, run', PopCasStep(s3, t, false), StoreRef(t));
  }

  // What the four steps of a last release do when nobody interrupts them.
  function FreeEffect(s: State, t: Tid, b: nat): State {
    Move(s, t, Idle).(
      head := b, next := s.next[b := s.head],
      refs := s.refs[b := 0], handles := s.handles[b := 0], place := s.place[b := Free],
      chain := [b] + s.chain)
  }

  lemma FreeEffectIs(s: State, t: Tid, b: nat)
    requires At(s, t).Idle? && Get(s.refs, b, 0) == 1 == Get(s.handles, b, 0)
    ensures PushCasStep(LinkStep(FreeLoadHeadStep(DropStep(s, t, b), t), t), t, false) == FreeEffect(s, t, b)
  {
    var s3 := LinkStep(FreeLoadHeadStep(DropStep(s, t, b), t), t);
    assert s3 == LastDrop(s, t, b).(next := s.next[b := s.head], threads := s.threads[t := Linked(b, s.head)]) by {
      assert s3.threads == s.threads[t := Linked(b, s.head)];
    }
    var s4 := PushCasStep(s3, t, false);
    var e := FreeEffect(s, t, b);
    assert s4.threads == e.threads && s4.place == e.place;
  }

  lemma FreeStepsAre(s: State, t: Tid, b: nat)
    requires At(s, t).Idle? && Get(s.refs, b, 0) == 1 == Get(s.handles, b, 0)
    ensures var s1 := DropStep(s, t, b);
            var s2 := FreeLoadHeadStep(s1, t);
            var s3 := LinkStep(s2, t);
            && s1 == Next(s, Drop(t, b)) && s2 == Next(s1, FreeLoadHead(t)) && s3 == Next(s2, Link(t))
            && FreeEffect(s, t, b) == Next(s3, PushCas(t, false))
            && !Recycled(s, Drop(t, b)) && !Recycled(s1, FreeLoadHead(t)) && !Recycled(s2, Link(t)) && !Recycled(s3, PushCas(t, false))
  {
    FreeEffectIs(s, t, b);
    hide FreeEffect, DropStep, FreeLoadHeadStep, LinkStep, PushCasStep;
  }

  lemma FreeAlone(s0: State, run: seq<Action>, s: State, t: Tid, b: nat) returns (run': seq<Action>)
    requires Reaches(s0, run, s) && At(s, t).Idle? && Get(s.refs, b, 0) == 1 == Get(s.handles, b, 0)
    ensures Reaches(s0, run', FreeEffect(s, t, b))
  {
    FreeStepsAre(s, t, b);
    hide Reaches, FreeEffect, DropStep, FreeLoadHeadStep, LinkStep, PushCasStep, Next, Recycled;
    var s1 := DropStep(s, t, b);
    var s2 := FreeLoadHeadStep(s1, t);
    var s3 := LinkStep(s2, t);
    run' := Perform(s0, run, s, Drop(t, b));
    run' := Perform(s0, run', s1, FreeLoadHead(t));
    run' := Perform(s0, run', s2, Link(t));
    run' := Perform(s0, run', s3, PushCas(t, false));
  }

  // The block the next allocation will take has an owner already; this contradicts Inv.
  predicate HeadIsHeld(t: State, b: nat) {
    t.head == b && b != 0 && Get(t.handles, b, 0) > 0
  }

  lemma RecycledPopEffect(s: State, a: nat, b: nat)
    requires At(s, 0) == NextRead(a, b) && s.head == a && Seen(s, 0) < Get(s.pops, a, 0)
    requires b != 0 && Get(s.handles, b, 0) == 1
    ensures Recycled(s, PopCas(0, false)) && HeadIsHeld(PopCasStep(s, 0, false), b)
  {}

  lemma NoSteps(s0: State) returns (run: seq<Action>)
    ensures Reaches(s0, run, s0)
  {
    run := [];
  }

  lemma HeadRecycled(s0: State, a: nat, b: nat) returns (run: seq<Action>, s: State)
    requires s0.threads == map[] && s0.head == a && Get(s0.next, a, 0) == b && a != b && a != 0 && b != 0
    ensures Reaches(s0, run, s)
    ensures At(s, 0) == NextRead(a, b) && s.head == a && Seen(s, 0) < Get(s.pops, a, 0)
    ensures Get(s.handles, b, 0) == 1 == Get(s.refs, b, 0)
  {
    RecycledStates(s0, a, b);
    hide Reaches, LoadedEffect, AllocEffect, FreeEffect;
    var s3 := LoadedEffect(s0, 0);
    var s4 := AllocEffect(s3, 1);
    var s5 := AllocEffect(s4, 1);
    run := NoSteps(s0);
    run := LoadAlone(s0, run, s0, 0);
    run := AllocAlone(s0, run, s3, 1);
    run := AllocAlone(s0, run, s4, 1);
    run := FreeAlone(s0, run, s5, 1, a);
    s := FreeEffect(s5, 1, a);
  }

  // Thread 0 loads the head a; thread 1 allocates a and b and frees a.
  lemma RecycledStates(s0: State, a: nat, b: nat)
    requires s0.threads == map[] && s0.head == a && Get(s0.next, a, 0) == b && a != b && a != 0 && b != 0
    ensures var s3 := LoadedEffect(s0, 0);
            var s4 := AllocEffect(s3, 1);
            var s5 := AllocEffect(s4, 1);
            var s := FreeEffect(s5, 1, a);
            && At(s3, 1).Idle? && s3.head == a && At(s4, 1).Idle? && s4.head == b
            && At(s5, 1).Idle? && Get(s5.refs, a, 0) == 1 == Get(s5.handles, a, 0)
            && At(s, 0) == NextRead(a, b) && s.head == a && Seen(s, 0) < Get(s.pops, a, 0)
            && Get(s.handles, b, 0) == 1 == Get(s.refs, b, 0)
  {}

  /** The hypothesis of BlocksConserved cannot be dropped, whatever the initial list of at least
      two blocks: thread 0 loads the head and its successor; thread 1 allocates both and frees
      the first; then thread 0's CAS wins, and the free list starts with a block that thread 1
      still owns. */
  lemma RecycledHeadFreesAHeldBlock(s0: State, c: seq<nat>) returns (run: seq<Action>, s: State)
    requires Initial(s0, c) && |c| >= 2
    ensures Reaches(s0, run, s) && Recycled(s, PopCas(0, false))
    ensures HeadIsHeld(PopCasStep(s, 0, false), c[1]) && !Inv(PopCasStep(s, 0, false))
  {
    FirstTwo(s0, c);
    run, s := HeadRecycled(s0, c[0], c[1]);
    RecycledPopEffect(s, c[0], c[1]);
    HeldHeadIsNotSound(PopCasStep(s, 0, false), c[1]);
  }

  lemma FirstTwo(s0: State, c: seq<nat>)
    requires Initial(s0, c) && |c| >= 2
    ensures s0.head == c[0] && Get(s0.next, c[0], 0) == c[1] && c[0] != c[1] && c[0] != 0 && c[1] != 0
  {
    assert c[0] in c && c[1] in c && s0.next[c[0]] == After(c, 0);
  }

  lemma HeldHeadIsNotSound(t: State, b: nat)
    requires HeadIsHeld(t, b)
    ensures !Inv(t)
  {
    if Inv(t) {
      HeadIsFree(t);
      HandleMeansHeld(t, b);
    }
  }

  // ---------- The pool object and its initialiser ----------

  const HEADER_SIZE: nat := 262864         // sizeof(nos_shm_header_t)
  const BLOCK_SIZE: nat := 16 + 48 + 4096 + 8
  const NUM_BLOCKS: nat := (SHM_SIZE - HEADER_SIZE) / BLOCK_SIZE

  function BlockAt(i: nat): nat { HEADER_SIZE + i * BLOCK_SIZE }

  // The first n block offsets, ascending.
  function Tiles(n: nat): (c: seq<nat>)
    ensures |c| == n && forall i :: 0 <= i < n ==> c[i] == BlockAt(i)
  {
    seq(n, i requires 0 <= i => BlockAt(i))
  }

  /** The tiles lie behind the header, inside the segment, and do not overlap. */
  lemma TilesFit()
    ensures forall i, j :: 0 <= i < j < NUM_BLOCKS ==> BlockAt(i) + BLOCK_SIZE <= BlockAt(j)
    ensures forall i :: 0 <= i < NUM_BLOCKS ==> HEADER_SIZE <= BlockAt(i) <= SHM_SIZE - BLOCK_SIZE
    ensures BlockAt(NUM_BLOCKS) + BLOCK_SIZE > SHM_SIZE
  {}

  lemma TilesDistinct()
    ensures var c := Tiles(NUM_BLOCKS);
            0 !in c && forall i, j :: 0 <= i < j < |c| ==> c[i] != c[j]
  {}

  /** The loop of init_shm_pool: every block gets count zero and the offset of its successor. */
  method LinkTiles() returns (refs: map<nat, nat>, next: map<nat, nat>)
    ensures var c := Tiles(NUM_BLOCKS);
            && refs.Keys == next.Keys == (set b | b in c)
            && (forall b :: b in refs ==> refs[b] == 0)
            && (forall k :: 0 <= k < |c| ==> c[k] in next && next[c[k]] == After(c, k))
  {
    ghost var c := Tiles(NUM_BLOCKS);
    TilesDistinct();
    refs, next := map[], map[];
    var offset := HEADER_SIZE;
    for i := 0 to NUM_BLOCKS
      invariant offset == BlockAt(i)
      invariant refs.Keys == next.Keys
      invariant forall b :: b in refs ==> refs[b] == 0 && b in c
      invariant forall k :: 0 <= k < i ==> c[k] in next && next[c[k]] == After(c, k)
    {
      assert offset == c[i];
      refs := refs[offset := 0];
      next := next[offset := if i == NUM_BLOCKS - 1 then 0 else offset + BLOCK_SIZE];
      offset := offset + BLOCK_SIZE;
    }
  }

  // The initialiser's counts and links over the blocks c, with every block free.
  lemma Threaded(c: seq<nat>, refs: map<nat, nat>, next: map<nat, nat>) returns (t: State)
    requires c != [] && 0 !in c && forall i, j :: 0 <= i < j < |c| ==> c[i] != c[j]
    requires refs.Keys == next.Keys == (set b | b in c) && forall b :: b in refs ==> refs[b] == 0
    requires forall k :: 0 <= k < |c| ==> c[k] in next && next[c[k]] == After(c, k)
    ensures t.head == c[0] && t.refs == refs && t.next == next && t.threads == map[] && Initial(t, c)
  {
    var zero := map b | b in c :: 0;
    t := State(c[0], refs, next, map[], zero, map b | b in c :: Free, c, zero, map[]);
    assert IsChain(t.next, t.head, c);
    assert t.place.Keys == (set b | b in c) && zero.Keys == (set b | b in c);
  }

  lemma FirstTile()
    ensures |Tiles(NUM_BLOCKS)| > 0 && Tiles(NUM_BLOCKS)[0] == HEADER_SIZE
  {}

  /** The shared pool with the threads that work on it. Each call performs one atomic access of
      the C code by one thread; its contract is the step of the machine above. */
  class Pool {
    var head: nat
    var refs: map<nat, nat>
    var next: map<nat, nat>
    var threads: map<Tid, Pc>
    ghost var handles: map<nat, nat>
    ghost var place: map<nat, Place>
    ghost var chain: seq<nat>
    ghost var pops: map<nat, nat>
    ghost var seen: map<Tid, nat>

    ghost function View(): State
      reads this
    {
      State(head, refs, next, threads, handles, place, chain, pops, seen)
    }

    constructor ()
      ensures Initial(View(), Tiles(NUM_BLOCKS))
    {
      var counts, links := LinkTiles();
      TilesDistinct();
      FirstTile();
      hide Initial, Tiles, After;
      ghost var t := Threaded(Tiles(NUM_BLOCKS), counts, links);
      head, refs, next, threads := HEADER_SIZE, counts, links, map[];
      handles, place, chain, pops, seen := t.handles, t.place, t.chain, t.pops, t.seen;
      new;
      assert View() == t;
    }

    method AllocCall(t: Tid, size: nat)
      modifies this
      ensures View() == AllocCallStep(old(View()), t, size)
    {
      if Pc(t).Idle? && size <= MAX_DATA { threads := threads[t := Allocating]; }
    }

    method AllocLoadHead(t: Tid)
      modifies this
      ensures View() == AllocLoadHeadStep(old(View()), t)
    {
      if Pc(t).Allocating? {
        if head == 0 {
          threads := threads[t := Idle];
        } else {
          threads := threads[t := HeadRead(head)];
          seen := seen[t := Get(pops, head, 0)];
        }
      }
    }

    method AllocLoadNext(t: Tid)
      modifies this
      ensures View() == AllocLoadNextStep(old(View()), t)
    {
      var c := Pc(t);
      if c.HeadRead? { threads := threads[t := NextRead(c.head, Get(next, c.head, 0))]; }
    }

    method PopCas(t: Tid, spurious: bool)
      modifies this
      ensures View() == PopCasStep(old(View()), t, spurious)
    {
      var c := Pc(t);
      if c.NextRead? {
        if !spurious && head == c.head {
          head := c.next;
          threads := threads[t := Popped(c.head)];
          place, pops := place[c.head := Handout(t)], pops[c.head := Get(pops, c.head, 0) + 1];
          chain := if chain == [] then [] else chain[1..];
        } else {
          threads := threads[t := Allocating];
        }
      }
    }

    method StoreRef(t: Tid)
      modifies this
      ensures View() == StoreRefStep(old(View()), t)
    {
      var c := Pc(t);
      if c.Popped? {
        refs := refs[c.blk := 1];
        threads := threads[t := Idle];
        handles, place := handles[c.blk := 1], place[c.blk := Held];
      }
    }

    // Only the owner of a reference may retain or drop it.
    method Retain(b: nat)
      requires b in handles && handles[b] > 0 && b in refs
      modifies this
      ensures View() == RetainStep(old(View()), b)
    {
      refs := refs[b := refs[b] + 1];
      handles := handles[b := handles[b] + 1];
    }

    method Drop(t: Tid, b: nat)
      requires b in handles && handles[b] > 0 && b in refs && refs[b] > 0
      modifies this
      ensures View() == DropStep(old(View()), t, b)
    {
      if Pc(t).Idle? {
        var before := refs[b];
        refs := refs[b := before - 1];
        handles := handles[b := handles[b] - 1];
        if before == 1 {
          threads := threads[t := Freeing(b)];
          place := place[b := Return(t)];
        }
      }
    }

    method FreeLoadHead(t: Tid)
      modifies this
      ensures View() == FreeLoadHeadStep(old(View()), t)
    {
      var c := Pc(t);
      if c.Freeing? { threads := threads[t := FreeHeadRead(c.blk, head)]; }
    }

    method Link(t: Tid)
      modifies this
      ensures View() == LinkStep(old(View()), t)
    {
      var c := Pc(t);
      if c.FreeHeadRead? {
        next := next[c.blk := c.head];
        threads := threads[t := Linked(c.blk, c.head)];
      }
    }

    method PushCas(t: Tid, spurious: bool)
      modifies this
      ensures View() == PushCasStep(old(View()), t, spurious)
    {
      var c := Pc(t);
      if c.Linked? {
        if !spurious && head == c.head {
          head := c.blk;
          threads := threads[t := Idle];
          place, chain := place[c.blk := Free], [c.blk] + chain;
        } else {
          threads := threads[t := Freeing(c.blk)];
        }
      }
    }

    function Pc(t: Tid): Pc
      reads this
    {
      if t in threads then threads[t] else Idle
    }
  }
}