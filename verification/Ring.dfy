/** The index arithmetic shared by the thread message ring (src/core/nos_scheduler.c) and the
    IPC transmit ring (src/infra/nos_ipc_p2p.c): both have 1024 slots, an index pair head and
    tail, and treat tail + 1 == head as full. */
module Ring {

  const SIZE: nat := 1024

  predicate Ok<T>(slots: seq<T>, head: nat, tail: nat) {
    |slots| == SIZE && head < SIZE && tail < SIZE
  }

  function Succ(i: nat): nat { (i + 1) % SIZE }

  predicate Full(head: nat, tail: nat) { Succ(tail) == head }

  // The queued elements, oldest first.
  function Contents<T>(slots: seq<T>, head: nat, tail: nat): seq<T>
    requires Ok(slots, head, tail)
  {
    if head <= tail then slots[head..tail] else slots[head..] + slots[..tail]
  }

  /** The occupancy expression of nos_ipc_p2p.c. */
  function Used(head: nat, tail: nat): int {
    if tail >= head then tail - head else SIZE - (head - tail)
  }

  lemma UsedIsLength<T>(slots: seq<T>, head: nat, tail: nat)
    requires Ok(slots, head, tail)
    ensures |Contents(slots, head, tail)| == Used(head, tail)
    ensures Full(head, tail) <==> Used(head, tail) == SIZE - 1
    ensures head == tail <==> Contents(slots, head, tail) == []
  {}

  lemma SuccIs(i: nat)
    requires i < SIZE
    ensures Succ(i) == if i == SIZE - 1 then 0 else i + 1
  {}

  lemma PushAppends<T>(slots: seq<T>, head: nat, tail: nat, x: T)
    requires Ok(slots, head, tail) && !Full(head, tail)
    ensures Contents(slots[tail := x], head, Succ(tail)) == Contents(slots, head, tail) + [x]
  {
    SuccIs(tail);
    hide Succ;
    var s' := slots[tail := x];
    if head > tail {
      assert s'[..tail + 1] == slots[..tail] + [x] && s'[head..] == slots[head..];
    } else if tail + 1 < SIZE {
      assert s'[head..tail + 1] == slots[head..tail] + [x];
    } else {
      assert s'[head..] == slots[head..tail] + [x] && s'[..0] == [];
    }
  }

  lemma PopTakesFirst<T>(slots: seq<T>, head: nat, tail: nat)
    requires Ok(slots, head, tail) && head != tail
    ensures Contents(slots, head, tail) == [slots[head]] + Contents(slots, Succ(head), tail)
  {
    SuccIs(head);
    hide Succ;
    if head < tail {
      assert slots[head..tail] == [slots[head]] + slots[head + 1..tail];
    } else if head + 1 < SIZE {
      assert slots[head..] == [slots[head]] + slots[head + 1..];
    } else {
      assert slots[head..] == [slots[head]] && slots[0..tail] == slots[..tail];
    }
  }
}
