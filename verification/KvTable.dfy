/** The KV hash table (src/infra/db/nos_kv.c): chained buckets threaded by index through a pool of
    entries, a stack of free indices, and a subscriber list per entry. Each operation is atomic.
    The hash function is arbitrary. */
module KvTable {
  import opened KvSpec

  const INVALID: nat := 0xFFFF_FFFF
  const INT_LIMIT: nat := 0x8000_0000       // free_top is an int

  // One entry of pool_mem; `data` is the value area of max_val_size bytes.
  datatype Entry = Entry(key: Key, data: seq<Byte>, len: nat, subs: seq<Sub>, next: nat)

  // The value argument of a put: C callers may pass a null pointer.
  datatype Val = Null | At(bytes: seq<Byte>)

  function Bucket(hash: Key -> nat, n: nat, key: Key): (b: nat)
    ensures n > 0 ==> b < n
  {
    if n == 0 then 0 else hash(key) % n
  }

  // ---------- Chains ----------

  function After(c: seq<nat>, i: nat): nat { if i + 1 < |c| then c[i + 1] else INVALID }

  function First(c: seq<nat>): nat { if c == [] then INVALID else c[0] }

  predicate Distinct(c: seq<nat>) { forall i, j :: 0 <= i < j < |c| ==> c[i] != c[j] }

  // c lists the pool indices met from `first` along next until INVALID.
  predicate IsChain(pool: seq<Entry>, first: nat, c: seq<nat>) {
    && first == First(c)
    && forall i :: 0 <= i < |c| ==> c[i] < |pool| && pool[c[i]].next == After(c, i)
  }

  predicate Linked(pool: seq<Entry>, first: seq<nat>, chains: seq<seq<nat>>) {
    |first| == |chains| && forall b :: 0 <= b < |chains| ==> IsChain(pool, first[b], chains[b])
  }

  // owner[idx] is the bucket whose chain holds idx, or -1 for a free index.
  predicate Owned(chains: seq<seq<nat>>, owner: seq<int>) {
    && (forall b :: 0 <= b < |chains| ==> Distinct(chains[b]))
    && (forall b, i :: 0 <= b < |chains| && 0 <= i < |chains[b]| ==>
          chains[b][i] < |owner| && owner[chains[b][i]] == b)
    && (forall x :: 0 <= x < |owner| && owner[x] != -1 ==>
          0 <= owner[x] < |chains| && x in chains[owner[x]])
  }

  // `free` lists exactly the indices nobody owns, each once.
  predicate FreeList(free: seq<nat>, owner: seq<int>) {
    && Distinct(free)
    && (forall k :: 0 <= k < |free| ==> free[k] < |owner| && owner[free[k]] == -1)
    && (forall x :: 0 <= x < |owner| && owner[x] == -1 ==> x in free)
  }

  // slot[key] is the one owned index that stores key, and it is in key's bucket.
  ghost predicate Keyed(pool: seq<Entry>, owner: seq<int>, slot: map<Key, nat>, hash: Key -> nat, n: nat) {
    && |pool| == |owner|
    && (forall x :: 0 <= x < |pool| && owner[x] != -1 ==>
          pool[x].key in slot && slot[pool[x].key] == x && owner[x] == Bucket(hash, n, pool[x].key))
    && (forall k :: k in slot ==> slot[k] < |pool| && owner[slot[k]] != -1 && pool[slot[k]].key == k)
  }

  predicate Sized(pool: seq<Entry>, maxVal: nat) {
    forall x :: 0 <= x < |pool| ==> |pool[x].data| == maxVal && pool[x].len <= maxVal
  }

  // ---------- Insertion at the front of a chain ----------

  lemma FrontIsChain(pool: seq<Entry>, first: nat, c: seq<nat>, n: nat, e: Entry)
    requires IsChain(pool, first, c) && n < |pool| && n !in c && e.next == first
    ensures IsChain(pool[n := e], n, [n] + c)
  {
    var d, p := [n] + c, pool[n := e];
    forall i | 0 <= i < |d| ensures d[i] < |p| && p[d[i]].next == After(d, i) {
      if i > 0 { assert d[i] == c[i - 1] && After(d, i) == After(c, i - 1); }
    }
  }

  lemma InsertKeepsLinked(pool: seq<Entry>, first: seq<nat>, chains: seq<seq<nat>>, b: nat, n: nat, e: Entry)
    requires Linked(pool, first, chains) && b < |chains| && n < |pool| && e.next == first[b]
    requires forall a :: 0 <= a < |chains| ==> n !in chains[a]
    ensures Linked(pool[n := e], first[b := n], chains[b := [n] + chains[b]])
  {
    FrontIsChain(pool, first[b], chains[b], n, e);
    forall a | 0 <= a < |chains| && a != b ensures IsChain(pool[n := e], first[a], chains[a]) {
      assert IsChain(pool, first[a], chains[a]);
    }
  }

  lemma FrontKeepsDistinct(c: seq<nat>, n: nat)
    requires Distinct(c) && n !in c
    ensures Distinct([n] + c)
  {}

  lemma InsertKeepsOwned(chains: seq<seq<nat>>, owner: seq<int>, b: nat, n: nat)
    requires Owned(chains, owner) && b < |chains| && n < |owner| && owner[n] == -1
    ensures Owned(chains[b := [n] + chains[b]], owner[n := b])
    ensures forall a :: 0 <= a < |chains| ==> n !in chains[a]
  {
    var cs, ow := chains[b := [n] + chains[b]], owner[n := b];
    FrontKeepsDistinct(chains[b], n);
    forall a, i | 0 <= a < |cs| && 0 <= i < |cs[a]| ensures cs[a][i] < |ow| && ow[cs[a][i]] == a {
      if a == b && i > 0 { assert cs[a][i] == chains[b][i - 1]; }
    }
  }

  lemma PopKeepsFreeList(free: seq<nat>, owner: seq<int>, b: nat)
    requires FreeList(free, owner) && free != []
    ensures free[|free| - 1] < |owner| && owner[free[|free| - 1]] == -1
    ensures FreeList(free[..|free| - 1], owner[free[|free| - 1] := b])
  {
    var n := free[|free| - 1];
    assert free == free[..|free| - 1] + [n];
  }

  lemma InsertKeepsKeyed(pool: seq<Entry>, owner: seq<int>, slot: map<Key, nat>, hash: Key -> nat, n: nat, x: nat, e: Entry)
    requires Keyed(pool, owner, slot, hash, n) && x < |pool| && owner[x] == -1 && e.key !in slot
    ensures Keyed(pool[x := e], owner[x := Bucket(hash, n, e.key)], slot[e.key := x], hash, n)
  {}

  // ---------- Update of one entry in place ----------

  lemma UpdateKeepsLinked(pool: seq<Entry>, first: seq<nat>, chains: seq<seq<nat>>, x: nat, e: Entry)
    requires Linked(pool, first, chains) && x < |pool| && e.next == pool[x].next
    ensures Linked(pool[x := e], first, chains)
  {
    forall a | 0 <= a < |chains| ensures IsChain(pool[x := e], first[a], chains[a]) {
      assert IsChain(pool, first[a], chains[a]);
    }
  }

  lemma UpdateKeepsKeyed(pool: seq<Entry>, owner: seq<int>, slot: map<Key, nat>, hash: Key -> nat, n: nat, x: nat, e: Entry)
    requires Keyed(pool, owner, slot, hash, n) && x < |pool| && e.key == pool[x].key
    ensures Keyed(pool[x := e], owner, slot, hash, n)
  {}

  // ---------- Removal from the middle of a chain ----------

  function Without(c: seq<nat>, k: nat): seq<nat>
    requires k < |c|
  {
    c[..k] + c[k + 1..]
  }

  // The pool after the predecessor of c[k], if there is one, links past it.
  function Bypassed(pool: seq<Entry>, c: seq<nat>, k: nat): seq<Entry>
    requires k < |c| && forall i :: 0 <= i < |c| ==> c[i] < |pool|
  {
    if k == 0 then pool else pool[c[k - 1] := pool[c[k - 1]].(next := pool[c[k]].next)]
  }

  lemma BypassIsChain(pool: seq<Entry>, first: nat, c: seq<nat>, k: nat)
    requires IsChain(pool, first, c) && Distinct(c) && k < |c|
    ensures IsChain(Bypassed(pool, c, k), if k == 0 then pool[c[0]].next else first, Without(c, k))
  {
    var p, d := Bypassed(pool, c, k), Without(c, k);
    assert pool[c[k]].next == After(c, k);
    forall i | 0 <= i < |d| ensures d[i] < |p| && p[d[i]].next == After(d, i) {
      if i < k {
        assert d[i] == c[i] && pool[c[i]].next == After(c, i);
      } else {
        assert d[i] == c[i + 1] && pool[c[i + 1]].next == After(c, i + 1);
        assert After(d, i) == After(c, i + 1);
      }
    }
  }

  lemma RemoveKeepsLinked(pool: seq<Entry>, first: seq<nat>, chains: seq<seq<nat>>, owner: seq<int>, b: nat, k: nat)
    requires Linked(pool, first, chains) && Owned(chains, owner) && |owner| == |pool|
    requires b < |chains| && k < |chains[b]|
    ensures forall i :: 0 <= i < |chains[b]| ==> chains[b][i] < |pool|
    ensures Linked(Bypassed(pool, chains[b], k),
                   if k == 0 then first[b := pool[chains[b][0]].next] else first,
                   chains[b := Without(chains[b], k)])
  {
    var c := chains[b];
    BypassIsChain(pool, first[b], c, k);
    var p := Bypassed(pool, c, k);
    forall a | 0 <= a < |chains| && a != b ensures IsChain(p, first[a], chains[a]) {
      assert IsChain(pool, first[a], chains[a]);
      if k > 0 {
        forall i | 0 <= i < |chains[a]| ensures chains[a][i] != c[k - 1] {
          assert owner[chains[a][i]] == a && owner[c[k - 1]] == b;
        }
      }
    }
  }

  lemma WithoutDropsOne(c: seq<nat>, k: nat)
    requires Distinct(c) && k < |c|
    ensures Distinct(Without(c, k)) && c[k] !in Without(c, k)
    ensures forall x :: x in Without(c, k) <==> x in c && x != c[k]
  {
    var d := Without(c, k);
    forall x | x in c && x != c[k] ensures x in d {
      var i :| 0 <= i < |c| && c[i] == x;
      assert if i < k then d[i] == x else d[i - 1] == x;
    }
  }

  lemma RemoveKeepsOwned(chains: seq<seq<nat>>, owner: seq<int>, b: nat, k: nat)
    requires Owned(chains, owner) && b < |chains| && k < |chains[b]|
    ensures Owned(chains[b := Without(chains[b], k)], owner[chains[b][k] := -1])
  {
    var x := chains[b][k];
    WithoutDropsOne(chains[b], k);
    var cs, ow := chains[b := Without(chains[b], k)], owner[x := -1];
    forall a, i | 0 <= a < |cs| && 0 <= i < |cs[a]| ensures cs[a][i] < |ow| && ow[cs[a][i]] == a {
      assert cs[a][i] in cs[a];
      assert cs[a][i] in chains[a] && cs[a][i] != x;
    }
  }

  lemma PushKeepsFreeList(free: seq<nat>, owner: seq<int>, x: nat)
    requires FreeList(free, owner) && x < |owner| && owner[x] != -1
    ensures FreeList(free + [x], owner[x := -1])
  {}

  lemma RemoveKeepsKeyed(pool: seq<Entry>, owner: seq<int>, slot: map<Key, nat>, hash: Key -> nat, n: nat, x: nat)
    requires Keyed(pool, owner, slot, hash, n) && x < |pool| && owner[x] != -1
    ensures Keyed(pool, owner[x := -1], slot - {pool[x].key}, hash, n)
  {}

  // Keyed does not depend on links.
  lemma BypassKeepsKeyed(pool: seq<Entry>, owner: seq<int>, slot: map<Key, nat>, hash: Key -> nat, n: nat, c: seq<nat>, k: nat)
    requires Keyed(pool, owner, slot, hash, n) && k < |c| && forall i :: 0 <= i < |c| ==> c[i] < |pool|
    ensures Keyed(Bypassed(pool, c, k), owner, slot, hash, n)
  {}

  lemma BypassKeepsKeys(pool: seq<Entry>, c: seq<nat>, k: nat, x: nat)
    requires k < |c| && x < |pool| && forall i :: 0 <= i < |c| ==> c[i] < |pool|
    ensures |Bypassed(pool, c, k)| == |pool| && Bypassed(pool, c, k)[x].key == pool[x].key
    ensures RecordOf(Bypassed(pool, c, k)[x]) == RecordOf(pool[x])
  {}

  lemma BypassKeepsSized(pool: seq<Entry>, c: seq<nat>, k: nat, maxVal: nat)
    requires Sized(pool, maxVal) && k < |c| && forall i :: 0 <= i < |c| ==> c[i] < |pool|
    ensures Sized(Bypassed(pool, c, k), maxVal)
  {}

  lemma BypassKeepsLength(pool: seq<Entry>, c: seq<nat>, k: nat)
    requires k < |c| && forall i :: 0 <= i < |c| ==> c[i] < |pool|
    ensures |Bypassed(pool, c, k)| == |pool|
  {}

  // ---------- All together ----------

  // The record of a pool entry.
  function RecordOf(e: Entry): Record { Record(if e.len <= |e.data| then e.data[..e.len] else [], e.subs) }

  lemma RecordOfEntry(e: Entry)
    requires e.len <= |e.data|
    ensures RecordOf(e) == Record(e.data[..e.len], e.subs)
  {}

  // The map a pool stands for.
  ghost function Stored(pool: seq<Entry>, slot: map<Key, nat>): (recs: map<Key, Record>)
    requires forall k :: k in slot ==> slot[k] < |pool|
    ensures recs.Keys == slot.Keys && |recs| == |slot|
  {
    var recs := map k | k in slot :: RecordOf(pool[slot[k]]);
    assert recs.Keys == slot.Keys;
    recs
  }

  ghost predicate Shape(first: seq<nat>, pool: seq<Entry>, free: seq<nat>,
                        chains: seq<seq<nat>>, owner: seq<int>, slot: map<Key, nat>,
                        hash: Key -> nat, maxVal: nat) {
    && |first| > 0 && Linked(pool, first, chains) && Owned(chains, owner) && FreeList(free, owner)
    && Keyed(pool, owner, slot, hash, |first|) && Sized(pool, maxVal)
  }

  /** Chains and the free stack partition the pool: an index is free or in exactly one chain; there
      its key hashes to that bucket, and no other index in any chain stores the same key. */
  lemma IndicesPartitioned(first: seq<nat>, pool: seq<Entry>, free: seq<nat>, chains: seq<seq<nat>>,
                           owner: seq<int>, slot: map<Key, nat>, hash: Key -> nat, maxVal: nat, x: nat)
    requires Shape(first, pool, free, chains, owner, slot, hash, maxVal) && x < |pool|
    ensures x !in free <==> exists b :: 0 <= b < |chains| && x in chains[b]
    ensures forall b :: 0 <= b < |chains| && x in chains[b] ==>
              && Bucket(hash, |first|, pool[x].key) == b
              && (forall a :: 0 <= a < |chains| && x in chains[a] ==> a == b)
              && (forall a, y :: 0 <= a < |chains| && y in chains[a] && pool[y].key == pool[x].key ==> y == x)
  {
    hide Sized, Bucket, Distinct;
    forall b, y | 0 <= b < |chains| && y in chains[b]
      ensures y < |pool| && owner[y] == b && slot[pool[y].key] == y && Bucket(hash, |first|, pool[y].key) == b
    {
      var i :| 0 <= i < |chains[b]| && chains[b][i] == y;
      assert IsChain(pool, first[b], chains[b]);
    }
    if x in free { var k :| 0 <= k < |free| && free[k] == x; }
    if owner[x] != -1 { assert x in chains[owner[x]]; }
  }

  // What a walk along a key's chain meets.
  lemma ChainHas(first: seq<nat>, pool: seq<Entry>, free: seq<nat>, chains: seq<seq<nat>>,
                 owner: seq<int>, slot: map<Key, nat>, hash: Key -> nat, maxVal: nat, key: Key)
    requires Shape(first, pool, free, chains, owner, slot, hash, maxVal)
    ensures var b := Bucket(hash, |first|, key);
            && b < |chains| && b < |first| && first[b] == First(chains[b])
            && (forall i :: 0 <= i < |chains[b]| ==>
                  && chains[b][i] < |pool| == |owner| && owner[chains[b][i]] != -1
                  && pool[chains[b][i]].next == After(chains[b], i)
                  && |pool[chains[b][i]].data| == maxVal && pool[chains[b][i]].len <= maxVal
                  && (pool[chains[b][i]].key == key ==> key in slot && slot[key] == chains[b][i]))
            && (key in slot ==> slot[key] in chains[b] && slot[key] < |pool| && pool[slot[key]].key == key)
  {
    var b := Bucket(hash, |first|, key);
    hide FreeList, Bucket, Distinct;
    assert IsChain(pool, first[b], chains[b]);
  }

  lemma UpdateKeepsShape(first: seq<nat>, pool: seq<Entry>, free: seq<nat>, chains: seq<seq<nat>>,
                         owner: seq<int>, slot: map<Key, nat>, hash: Key -> nat, maxVal: nat, x: nat, e: Entry)
    requires Shape(first, pool, free, chains, owner, slot, hash, maxVal) && x < |pool| && owner[x] != -1
    requires e.key == pool[x].key && e.next == pool[x].next && |e.data| == maxVal && e.len <= maxVal
    ensures Shape(first, pool[x := e], free, chains, owner, slot, hash, maxVal)
    ensures Stored(pool[x := e], slot) == Stored(pool, slot)[e.key := RecordOf(e)]
  {
    UpdateStored(pool, owner, slot, hash, |first|, x, e);
    UpdateKeepsSized(pool, maxVal, x, e);
    hide Linked, Owned, FreeList, Keyed, Sized, Stored, RecordOf, Bucket;
    UpdateKeepsLinked(pool, first, chains, x, e);
    UpdateKeepsKeyed(pool, owner, slot, hash, |first|, x, e);
  }

  lemma UpdateKeepsSized(pool: seq<Entry>, maxVal: nat, x: nat, e: Entry)
    requires Sized(pool, maxVal) && x < |pool| && |e.data| == maxVal && e.len <= maxVal
    ensures Sized(pool[x := e], maxVal)
  {}

  lemma UpdateStored(pool: seq<Entry>, owner: seq<int>, slot: map<Key, nat>, hash: Key -> nat, n: nat, x: nat, e: Entry)
    requires Keyed(pool, owner, slot, hash, n) && x < |pool| && owner[x] != -1 && e.key == pool[x].key
    ensures Stored(pool[x := e], slot) == Stored(pool, slot)[e.key := RecordOf(e)]
  {
    assert slot[e.key] == x;
    hide RecordOf, Bucket;
    forall k | k in slot && k != e.key ensures slot[k] != x { assert pool[slot[k]].key == k; }
  }

  lemma InsertStored(pool: seq<Entry>, owner: seq<int>, slot: map<Key, nat>, hash: Key -> nat, n: nat, x: nat, e: Entry)
    requires Keyed(pool, owner, slot, hash, n) && x < |pool| && owner[x] == -1 && e.key !in slot
    ensures Stored(pool[x := e], slot[e.key := x]) == Stored(pool, slot)[e.key := RecordOf(e)]
  {
    hide RecordOf, Bucket;
    forall k | k in slot ensures slot[k] != x { assert owner[slot[k]] != -1; }
  }

  lemma RemoveStored(pool: seq<Entry>, slot: map<Key, nat>, c: seq<nat>, k: nat, key: Key)
    requires forall a :: a in slot ==> slot[a] < |pool|
    requires k < |c| && forall i :: 0 <= i < |c| ==> c[i] < |pool|
    ensures Stored(Bypassed(pool, c, k), slot - {key}) == Stored(pool, slot) - {key}
  {
    hide Bypassed, RecordOf, Stored;
    var p := Bypassed(pool, c, k);
    assert |p| == |pool| by { BypassKeepsLength(pool, c, k); }
    var after, before := Stored(p, slot - {key}), Stored(pool, slot) - {key};
    assert after.Keys == slot.Keys - {key} == before.Keys;
    forall a | a in after.Keys ensures after[a] == before[a] {
      BypassKeepsKeys(pool, c, k, slot[a]);
      StoredAt(p, slot - {key}, a);
      StoredAt(pool, slot, a);
    }
  }

  lemma StoredAt(pool: seq<Entry>, slot: map<Key, nat>, key: Key)
    requires (forall k :: k in slot ==> slot[k] < |pool|) && key in slot
    ensures Stored(pool, slot)[key] == RecordOf(pool[slot[key]])
  {}

  lemma InsertKeepsShape(first: seq<nat>, pool: seq<Entry>, free: seq<nat>, chains: seq<seq<nat>>,
                         owner: seq<int>, slot: map<Key, nat>, hash: Key -> nat, maxVal: nat,
                         b: nat, x: nat, e: Entry)
    requires Shape(first, pool, free, chains, owner, slot, hash, maxVal) && free != [] && x == free[|free| - 1]
    requires e.key !in slot && |e.data| == maxVal && e.len <= maxVal
    requires b == Bucket(hash, |first|, e.key) < |first| && e.next == first[b]
    ensures x < |pool| && |chains| == |first| && |owner| == |pool|
    ensures Shape(first[b := x], pool[x := e], free[..|free| - 1],
                  chains[b := [x] + chains[b]], owner[x := b], slot[e.key := x], hash, maxVal)
    ensures Stored(pool[x := e], slot[e.key := x]) == Stored(pool, slot)[e.key := RecordOf(e)]
  {
    PopKeepsFreeList(free, owner, b);
    InsertStored(pool, owner, slot, hash, |first|, x, e);
    UpdateKeepsSized(pool, maxVal, x, e);
    hide Linked, Owned, FreeList, Keyed, Sized, Stored, RecordOf, Bucket;
    InsertKeepsOwned(chains, owner, b, x);
    InsertKeepsLinked(pool, first, chains, b, x, e);
    InsertKeepsKeyed(pool, owner, slot, hash, |first|, x, e);
  }

  lemma RemoveKeepsShape(first: seq<nat>, pool: seq<Entry>, free: seq<nat>, chains: seq<seq<nat>>,
                         owner: seq<int>, slot: map<Key, nat>, hash: Key -> nat, maxVal: nat, key: Key, k: nat)
    requires Shape(first, pool, free, chains, owner, slot, hash, maxVal) && key in slot
    requires var b := Bucket(hash, |first|, key); k < |chains[b]| && chains[b][k] == slot[key]
    ensures var b, x := Bucket(hash, |first|, key), slot[key];
            && x < |pool| && |chains| == |first| && |owner| == |pool| && owner[x] != -1
            && (forall i :: 0 <= i < |chains[b]| ==> chains[b][i] < |pool|)
            && Shape(if k == 0 then first[b := pool[x].next] else first, Bypassed(pool, chains[b], k),
                     free + [x], chains[b := Without(chains[b], k)], owner[x := -1], slot - {key}, hash, maxVal)
            && Stored(Bypassed(pool, chains[b], k), slot - {key}) == Stored(pool, slot) - {key}
  {
    var b, x := Bucket(hash, |first|, key), slot[key];
    assert owner[chains[b][k]] == b;
    RemoveStored(pool, slot, chains[b], k, key);
    BypassKeepsSized(pool, chains[b], k, maxVal);
    hide Linked, Owned, FreeList, Keyed, Sized, Stored, RecordOf, Bucket;
    RemoveKeepsLinked(pool, first, chains, owner, b, k);
    RemoveKeepsOwned(chains, owner, b, k);
    PushKeepsFreeList(free, owner, x);
    BypassKeepsKeyed(pool, owner, slot, hash, |first|, chains[b], k);
    BypassKeepsKeys(pool, chains[b], k, x);
    RemoveKeepsKeyed(Bypassed(pool, chains[b], k), owner, slot, hash, |first|, x);
  }

  // memcpy of the value into the entry, or nothing for a null pointer.
  function Copied(val: Val, valLen: nat, data: seq<Byte>): (r: seq<Byte>)
    requires (val.At? ==> |val.bytes| == valLen) && valLen <= |data|
    ensures |r| == |data| && (val.At? ==> r[..valLen] == val.bytes)
  {
    if val.At? then val.bytes + data[valLen..] else data
  }

  /** What a put does to the map, with a value and with a null pointer. */
  ghost predicate PutDone(before: Db, after: Db, key: Key, val: Val, valLen: nat, status: Status, notified: seq<Sub>) {
    match val
    case At(bytes) => (after, Answer(status, [], 0, notified)) == Apply(before, Op.Put(key, bytes))
    case Null => PutNull(before, after, key, valLen, status, notified)
  }

  lemma TooLongDone(before: Db, key: Key, val: Val, valLen: nat)
    requires valLen > before.maxVal && (val.At? ==> |val.bytes| == valLen)
    ensures PutDone(before, before, key, val, valLen, Err, [])
  {}

  lemma OverwriteDone(before: Db, after: Db, key: Key, val: Val, valLen: nat, e: Entry)
    requires key in before.recs && valLen <= before.maxVal == |e.data| && e.len <= |e.data|
    requires (val.At? ==> |val.bytes| == valLen) && before.recs[key] == RecordOf(e)
    requires after == before.(recs := before.recs[key := Record(Copied(val, valLen, e.data)[..valLen], e.subs)])
    ensures PutDone(before, after, key, val, valLen, Ok, e.subs)
  {
    var n := Min(valLen, e.len);
    assert e.data[..valLen][..n] == e.data[..n] == e.data[..e.len][..n];
  }

  lemma FullDone(before: Db, key: Key, val: Val, valLen: nat)
    requires key !in before.recs && |before.recs| >= before.capacity && valLen <= before.maxVal
    requires val.At? ==> |val.bytes| == valLen
    ensures PutDone(before, before, key, val, valLen, Busy, [])
  {}

  lemma InsertDone(before: Db, after: Db, key: Key, val: Val, valLen: nat, stale: seq<Byte>)
    requires key !in before.recs && |before.recs| < before.capacity && valLen <= before.maxVal == |stale|
    requires val.At? ==> |val.bytes| == valLen
    requires after == before.(recs := before.recs[key := Record(Copied(val, valLen, stale)[..valLen], [])])
    ensures PutDone(before, after, key, val, valLen, Ok, [])
  {}

  // ---------- The table object ----------

  class Table {
    const hash: Key -> nat
    const capacity: nat
    const maxVal: nat
    const buckets: array<nat>          // first_idx of every bucket
    const pool: array<Entry>
    const freeStack: array<nat>
    var freeTop: int
    var used: nat
    ghost var chains: seq<seq<nat>>
    ghost var owner: seq<int>
    ghost var slot: map<Key, nat>

    ghost predicate Counted()
      reads this, freeStack
    {
      && capacity < INT_LIMIT && -1 <= freeTop < freeStack.Length == capacity
      && used + freeTop + 1 == capacity && |slot| == used
    }

    ghost predicate Valid()
      reads this, buckets, pool, freeStack
    {
      && buckets != freeStack && pool.Length == capacity == |owner| && Counted()
      && Shape(buckets[..], pool[..], freeStack[..freeTop + 1], chains, owner, slot, hash, maxVal)
    }

    // The map this table stands for.
    ghost function Store(): Db
      reads this, buckets, pool, freeStack
      requires Valid()
    {
      Db(Stored(pool[..], slot), capacity, maxVal)
    }

    /** nos_kv_table_create for a new name: an empty map. */
    constructor (hash: Key -> nat, capacity: nat, maxVal: nat)
      requires capacity < INT_LIMIT
      ensures Valid() && Store() == Empty(capacity, maxVal) && this.hash == hash
      ensures fresh(buckets) && fresh(pool) && fresh(freeStack)
    {
      this.hash, this.capacity, this.maxVal := hash, capacity, maxVal;
      var n := BucketCount(capacity);
      var first := new nat[n](_ => INVALID);
      var entries := new Entry[capacity](_ => Entry([], seq(maxVal, _ => 0), 0, [], INVALID));
      var free := new nat[capacity](i requires 0 <= i => i);
      buckets, pool, freeStack := first, entries, free;
      freeTop, used := capacity - 1, 0;
      chains, owner, slot := seq(n, _ => []), seq(capacity, _ => -1), map[];
      new;
      EmptyIsFree(freeStack[..freeTop + 1], capacity);
      assert Stored(pool[..], slot) == map[];
    }

    lemma StoreIs(key: Key)
      requires Valid()
      ensures Store().recs.Keys == slot.Keys && |Store().recs| == used
      ensures key in slot ==> slot[key] < capacity && Store().recs[key] == RecordOf(pool[slot[key]])
    {}

    /** The walk every operation starts with: the entry that stores key, and its predecessor in the
        bucket's chain. */
    method Find(key: Key) returns (prev: nat, idx: nat, ghost k: nat)
      requires Valid()
      ensures idx == INVALID <==> key !in slot
      ensures Store().recs.Keys == slot.Keys && |Store().recs| == used
      ensures key in slot ==>
                var b := Bucket(hash, buckets.Length, key);
                && idx == slot[key] < capacity && b < |chains|
                && k < |chains[b]| && chains[b][k] == idx
                && prev == (if k == 0 then INVALID else chains[b][k - 1])
                && pool[idx].key == key && owner[idx] != -1 && |pool[idx].data| == maxVal && pool[idx].len <= maxVal
                && Store().recs[key] == RecordOf(pool[idx])
    {
      ghost var p := pool[..];
      ChainHas(buckets[..], p, freeStack[..freeTop + 1], chains, owner, slot, hash, maxVal, key);
      StoreIs(key);
      hide Shape, Stored, Bucket, RecordOf;
      var b := Bucket(hash, buckets.Length, key);
      ghost var c := chains[b];
      k := 0;
      prev, idx := INVALID, buckets[b];
      while idx != INVALID
        invariant k <= |c| && idx == (if k < |c| then c[k] else INVALID)
        invariant prev == if k == 0 then INVALID else c[k - 1]
        invariant forall j :: 0 <= j < k ==> p[c[j]].key != key
        decreases |c| - k
      {
        assert p[c[k]] == pool[idx];
        if pool[idx].key == key { return; }
        prev, idx := idx, pool[idx].next;
        k := k + 1;
      }
    }

    // An entry changes in place; links, keys and the free stack stay.
    method Rewrite(x: nat, e: Entry)
      requires Valid() && x < capacity && owner[x] != -1
      requires e.key == pool[x].key && e.next == pool[x].next && |e.data| == maxVal && e.len <= maxVal
      modifies pool
      ensures Valid() && Store() == old(Store()).(recs := old(Store()).recs[e.key := RecordOf(e)])
    {
      hide Shape, Stored;
      UpdateKeepsShape(buckets[..], pool[..], freeStack[..freeTop + 1], chains, owner, slot, hash, maxVal, x, e);
      SetEntry(x, e);
    }

    method SetEntry(x: nat, e: Entry)
      requires x < pool.Length
      modifies pool
      ensures pool[..] == old(pool[..])[x := e]
    {
      pool[x] := e;
    }

    method TakeFree() returns (x: nat)
      requires 0 <= freeTop < freeStack.Length
      modifies this`freeTop
      ensures freeTop == old(freeTop) - 1 && x == freeStack[old(freeTop)]
      ensures freeStack[..freeTop + 1] == old(freeStack[..freeTop + 1])[..old(freeTop)]
    {
      x := freeStack[freeTop];
      freeTop := freeTop - 1;
    }

    method GiveFree(x: nat)
      requires -1 <= freeTop < freeStack.Length - 1
      modifies this`freeTop, freeStack
      ensures freeTop == old(freeTop) + 1
      ensures freeStack[..freeTop + 1] == old(freeStack[..freeTop + 1]) + [x]
    {
      freeTop := freeTop + 1;
      freeStack[freeTop] := x;
    }

    method SetFirst(b: nat, x: nat)
      requires b < buckets.Length
      modifies buckets
      ensures buckets[..] == old(buckets[..])[b := x]
    {
      buckets[b] := x;
    }

    // The tail of nos_kv_put: take the top free index x and put the entry at its bucket's front.
    method Place(b: nat, e: Entry) returns (x: nat)
      requires buckets != freeStack && b < buckets.Length && b < |chains| && 0 <= freeTop < freeStack.Length
      requires freeStack[freeTop] < pool.Length == |owner| && Counted() && e.key !in slot
      modifies this, buckets, pool
      ensures Counted()
      ensures x == freeStack[old(freeTop)] && freeTop == old(freeTop) - 1 && used == old(used) + 1
      ensures freeStack[..freeTop + 1] == old(freeStack[..freeTop + 1])[..old(freeTop)]
      ensures buckets[..] == old(buckets[..])[b := x] && pool[..] == old(pool[..])[x := e]
      ensures chains == old(chains)[b := [x] + old(chains)[b]] && owner == old(owner)[x := b]
      ensures slot == old(slot)[e.key := x]
    {
      x := TakeFree();
      SetEntry(x, e);
      SetFirst(b, x);
      used := used + 1;
      chains, owner, slot := chains[b := [x] + chains[b]], owner[x := b], slot[e.key := x];
    }

    method InsertNew(key: Key, data: seq<Byte>, len: nat)
      requires Valid() && key !in slot && freeTop >= 0 && |data| == maxVal && len <= maxVal
      modifies this, buckets, pool, freeStack
      ensures Valid() && Store() == old(Store()).(recs := old(Store()).recs[key := Record(data[..len], [])])
    {
      assert buckets.Length > 0 && freeTop < freeStack.Length;
      hide Shape, Stored, RecordOf, Bucket, Table.Counted;
      var b := Bucket(hash, buckets.Length, key);
      var e := Entry(key, data, len, [], buckets[b]);
      InsertKeepsShape(buckets[..], pool[..], freeStack[..freeTop + 1], chains, owner, slot, hash, maxVal,
                       b, freeStack[freeTop], e);
      RecordOfEntry(e);
      var _ := Place(b, e);
    }

    // The tail of nos_kv_del: unlink the entry at index x, position k of bucket b's chain, and push
    // x on the free stack. Its subscribers are freed.
    method Unlink(b: nat, prev: nat, x: nat, ghost k: nat)
      requires buckets != freeStack && b < buckets.Length && b < |chains| && x < pool.Length == |owner|
      requires k < |chains[b]| && chains[b][k] == x && prev == if k == 0 then INVALID else chains[b][k - 1]
      requires forall i :: 0 <= i < |chains[b]| ==> chains[b][i] < pool.Length
      requires pool.Length < INT_LIMIT && -1 <= freeTop < freeStack.Length - 1 && used > 0
      modifies this, buckets, pool, freeStack
      ensures freeTop == old(freeTop) + 1 && used == old(used) - 1
      ensures freeStack[..freeTop + 1] == old(freeStack[..freeTop + 1]) + [x]
      ensures buckets[..] == if k == 0 then old(buckets[..])[b := old(pool[x].next)] else old(buckets[..])
      ensures pool[..] == Bypassed(old(pool[..]), old(chains)[b], k)
      ensures chains == old(chains)[b := Without(old(chains)[b], k)] && owner == old(owner)[x := -1]
      ensures slot == old(slot) - {old(pool[x].key)}
    {
      slot := slot - {pool[x].key};
      if prev == INVALID {
        SetFirst(b, pool[x].next);
      } else {
        SetEntry(prev, pool[prev].(next := pool[x].next));
      }
      GiveFree(x);
      used := used - 1;
      chains, owner := chains[b := Without(chains[b], k)], owner[x := -1];
    }

    /** nos_kv_del. */
    method Del(key: Key) returns (status: Status)
      requires Valid()
      modifies this, buckets, pool, freeStack
      ensures Valid() && (Store(), Only(status)) == Apply(old(Store()), Op.Del(key))
    {
      hide Shape, Stored, Bypassed, Bucket;
      var prev, idx, k := Find(key);
      if idx == INVALID { return Err; }
      RemoveKeepsShape(buckets[..], pool[..], freeStack[..freeTop + 1], chains, owner, slot, hash, maxVal, key, k);
      Unlink(Bucket(hash, buckets.Length, key), prev, idx, k);
      status := Ok;
    }

    // What the value area of the next free entry still holds.
    method StaleData() returns (data: seq<Byte>)
      requires Valid() && freeTop >= 0
      ensures |data| == maxVal
    {
      assert freeStack[freeTop] == freeStack[..freeTop + 1][freeTop];
      data := pool[freeStack[freeTop]].data;
    }

    /** nos_kv_put. A null val with a positive length leaves the stored bytes and changes only the
        length; see PutNull in KvSpec. */
    method Put(key: Key, val: Val, valLen: nat) returns (status: Status, notified: seq<Sub>)
      requires Valid() && (val.At? ==> |val.bytes| == valLen)
      modifies this, buckets, pool, freeStack
      ensures Valid()
      ensures PutDone(old(Store()), Store(), key, val, valLen, status, notified)
    {
      hide Shape, Stored, PutDone, Copied, RecordOf;
      ghost var before := Store();
      if valLen > maxVal {
        TooLongDone(before, key, val, valLen);
        return Err, [];
      }
      var _, idx, _ := Find(key);
      if idx != INVALID {
        ghost var e := pool[idx];
        notified := Overwrite(key, idx, val, valLen);
        OverwriteDone(before, Store(), key, val, valLen, e);
        return Ok, notified;
      }
      status := PutAbsent(key, val, valLen);
      notified := [];
    }

    // The branch of nos_kv_put for a key that does not exist.
    method PutAbsent(key: Key, val: Val, valLen: nat) returns (status: Status)
      requires Valid() && key !in slot && valLen <= maxVal && (val.At? ==> |val.bytes| == valLen)
      requires Store().recs.Keys == slot.Keys && |Store().recs| == used
      modifies this, buckets, pool, freeStack
      ensures Valid() && PutDone(old(Store()), Store(), key, val, valLen, status, [])
    {
      hide Shape, Stored, PutDone, Copied;
      ghost var before := Store();
      if freeTop < 0 {
        FullDone(before, key, val, valLen);
        return Busy;
      }
      var stale := StaleData();
      InsertNew(key, Copied(val, valLen, stale), valLen);
      InsertDone(before, Store(), key, val, valLen, stale);
      return Ok;
    }

    // The branch of nos_kv_put for a key that exists.
    method Overwrite(key: Key, idx: nat, val: Val, valLen: nat) returns (notified: seq<Sub>)
      requires Valid() && idx < capacity && owner[idx] != -1 && pool[idx].key == key
      requires |pool[idx].data| == maxVal && pool[idx].len <= maxVal
      requires (val.At? ==> |val.bytes| == valLen) && valLen <= maxVal
      modifies pool
      ensures Valid() && notified == old(pool[idx]).subs
      ensures var data := Copied(val, valLen, old(pool[idx]).data);
              Store() == old(Store()).(recs := old(Store()).recs[key := Record(data[..valLen], notified)])
    {
      hide Shape, Stored;
      var e := pool[idx];
      var e' := e.(data := Copied(val, valLen, e.data), len := valLen);
      RecordOfEntry(e');
      Rewrite(idx, e');
      notified := e.subs;
    }

    /** nos_kv_get: copies at most `room` bytes and reports the full length. */
    method Get(key: Key, room: nat) returns (status: Status, bytes: seq<Byte>, len: nat)
      requires Valid()
      ensures (Store(), Answer(status, bytes, len, [])) == Apply(Store(), Op.Get(key, room))
    {
      hide Shape, Stored;
      var _, idx, _ := Find(key);
      if idx == INVALID { return Err, [], 0; }
      var e := pool[idx];
      bytes := e.data[..Min(room, e.len)];
      assert bytes == e.data[..e.len][..Min(room, e.len)];
      return Ok, bytes, e.len;
    }

    /** nos_kv_subscribe: the key must exist; a pair already subscribed stays where it is. */
    method Subscribe(key: Key, sub: Sub) returns (status: Status)
      requires Valid()
      modifies pool
      ensures Valid() && (Store(), Only(status)) == Apply(old(Store()), Op.Subscribe(key, sub))
    {
      hide Shape, Stored;
      var _, idx, _ := Find(key);
      if idx == INVALID { return Err; }
      var e := pool[idx];
      for i := 0 to |e.subs|
        invariant sub !in e.subs[..i] && pool[..] == old(pool[..])
      {
        if e.subs[i] == sub {
          assert Store().recs[key := Store().recs[key]] == Store().recs;
          return Ok;
        }
      }
      Rewrite(idx, e.(subs := [sub] + e.subs));
      return Ok;
    }

    /** nos_kv_unsubscribe: fails unless the key exists and the pair is subscribed. */
    method Unsubscribe(key: Key, sub: Sub) returns (status: Status)
      requires Valid()
      modifies pool
      ensures Valid() && (Store(), Only(status)) == Apply(old(Store()), Op.Unsubscribe(key, sub))
    {
      hide Shape, Stored;
      var _, idx, _ := Find(key);
      if idx == INVALID { return Err; }
      var e := pool[idx];
      for i := 0 to |e.subs|
        invariant sub !in e.subs[..i] && pool[..] == old(pool[..])
      {
        if e.subs[i] == sub {
          DroppedAt(e.subs, i);
          Rewrite(idx, e.(subs := e.subs[..i] + e.subs[i + 1..]));
          return Ok;
        }
      }
      return Err;
    }
  }

  // bucket_count after k rounds of the doubling loop: a uint32_t shift.
  function Shifted(k: nat): nat { if k == 0 then 1024 else (2 * Shifted(k - 1)) % 0x1_0000_0000 }

  lemma DoubledFits(k: nat)
    requires k <= 21
    ensures Doubled(1024, k) <= INT_LIMIT
  {
    DoubledToLimit();
    DoubledSum(k, 21 - k);
    hide Doubled;
    DoubledGrows(Doubled(1024, k), 21 - k);
  }

  lemma {:induction false} ShiftedLow(k: nat)
    requires k <= 21
    ensures Shifted(k) == Doubled(1024, k) <= INT_LIMIT
    decreases k
  {
    DoubledFits(k);
    if k > 0 {
      ShiftedLow(k - 1);
      assert Doubled(1024, k) == 2 * Doubled(1024, k - 1);
      hide Doubled;
      assert Shifted(k) == (2 * Shifted(k - 1)) % 0x1_0000_0000;
      SmallMod(2 * Shifted(k - 1));
    }
  }

  lemma TopMod()
    ensures (2 * INT_LIMIT) % 0x1_0000_0000 == 0
  {}

  lemma SmallMod(x: nat)
    ensures x < 0x1_0000_0000 ==> x % 0x1_0000_0000 == x
  {}

  lemma {:induction false} ShiftedHigh(k: nat)
    requires k > 21
    ensures Shifted(k) == 0
    decreases k
  {
    if k == 22 {
      ShiftedLow(21);
      DoubledToLimit();
      hide Doubled;
      assert Shifted(22) == (2 * Shifted(21)) % 0x1_0000_0000;
      TopMod();
    } else {
      ShiftedHigh(k - 1);
    }
  }

  lemma {:induction false} DoubledSum(j: nat, k: nat)
    ensures Doubled(Doubled(1024, j), k) == Doubled(1024, j + k)
    decreases k
  {
    if k > 0 { DoubledSum(j, k - 1); }
  }

  /** The doubling loop of nos_kv_table_create ends if and only if the capacity is at most 2^31: above,
      the shift runs through zero and never reaches it. */
  lemma BucketLoopEndsIff(capacity: nat)
    requires capacity < 0x1_0000_0000
    ensures (exists k :: Shifted(k) >= capacity) <==> capacity <= INT_LIMIT
  {
    hide Doubled, Shifted;
    if k :| Shifted(k) >= capacity { if k <= 21 { ShiftedLow(k); } else { ShiftedHigh(k); } }
    ShiftedLow(21);
    DoubledToLimit();
  }

  /** The bucket count: the smallest 1024 * 2^k that is at least the capacity, within uint32. */
  method BucketCount(capacity: nat) returns (n: nat)
    requires capacity <= INT_LIMIT
    ensures capacity <= n <= INT_LIMIT && n >= 1024 && (n == 1024 || n / 2 < capacity)
    ensures exists k: nat :: n == Doubled(1024, k)
  {
    n := 1024;
    ghost var k: nat := 0;
    DoubledToLimit();
    while n < capacity
      invariant k <= 21 && n == Doubled(1024, k) && Doubled(n, 21 - k) == INT_LIMIT
      invariant n >= 1024 && (n == 1024 || n / 2 < capacity)
      decreases 21 - k
    {
      DoubledShift(n, 20 - k);
      n := n * 2;
      k := k + 1;
    }
    DoubledGrows(n, 21 - k);
  }

  function Doubled(n: nat, k: nat): nat { if k == 0 then n else 2 * Doubled(n, k - 1) }

  lemma {:induction false} DoubledShift(n: nat, k: nat)
    ensures Doubled(2 * n, k) == Doubled(n, k + 1)
  {
    if k > 0 { DoubledShift(n, k - 1); }
  }

  lemma DoubledToLimit()
    ensures Doubled(1024, 21) == INT_LIMIT
  {
    assert Doubled(1024, 4) == 16384;
    assert Doubled(1024, 8) == 262144;
    assert Doubled(1024, 12) == 4194304;
    assert Doubled(1024, 16) == 67108864;
    assert Doubled(1024, 20) == 1073741824;
  }

  lemma {:induction false} DoubledGrows(n: nat, k: nat)
    ensures n <= Doubled(n, k)
  {
    if k > 0 { DoubledGrows(n, k - 1); }
  }

  lemma EmptyIsFree(free: seq<nat>, capacity: nat)
    requires |free| == capacity && forall i :: 0 <= i < capacity ==> free[i] == i
    ensures FreeList(free, seq(capacity, _ => -1))
  {
    forall x | 0 <= x < capacity ensures x in free { assert free[x] == x; }
  }

  /** One operation of the reference, carried out by the table. */
  method Perform(table: Table, op: Op) returns (answer: Answer)
    requires table.Valid()
    modifies table, table.buckets, table.pool, table.freeStack
    ensures table.Valid() && (table.Store(), answer) == Apply(old(table.Store()), op)
  {
    match op
    case Put(key, val) =>
      var status, notified := table.Put(key, At(val), |val|);
      answer := Answer(status, [], 0, notified);
    case Get(key, room) =>
      var status, bytes, len := table.Get(key, room);
      answer := Answer(status, bytes, len, []);
    case Del(key) =>
      var status := table.Del(key);
      answer := Only(status);
    case Subscribe(key, sub) =>
      var status := table.Subscribe(key, sub);
      answer := Only(status);
    case Unsubscribe(key, sub) =>
      var status := table.Unsubscribe(key, sub);
      answer := Only(status);
  }

  /** The table refines the map over whole histories: for every hash function and every sequence
      of operations on a new table, all answers are those of the reference map. */
  method Serve(hash: Key -> nat, capacity: nat, maxVal: nat, ops: seq<Op>) returns (answers: seq<Answer>)
    requires capacity < INT_LIMIT
    ensures answers == RunOps(Empty(capacity, maxVal), ops).1
  {
    var table := new Table(hash, capacity, maxVal);
    answers := [];
    for i := 0 to |ops|
      invariant table.Valid() && fresh(table) && fresh(table.buckets) && fresh(table.pool) && fresh(table.freeStack)
      invariant (table.Store(), answers) == RunOps(Empty(capacity, maxVal), ops[..i])
    {
      hide Apply;
      assert ops[..i + 1][..i] == ops[..i];
      var a := Perform(table, ops[i]);
      answers := answers + [a];
    }
    assert ops[..|ops|] == ops;
  }

  lemma {:induction false} DroppedAt(subs: seq<Sub>, i: nat)
    requires i < |subs| && subs[i] !in subs[..i]
    ensures Dropped(subs, subs[i]) == subs[..i] + subs[i + 1..]
  {
    if i > 0 {
      assert subs[0] in subs[..i] && subs[0] != subs[i];
      assert subs[1..][..i - 1] == subs[..i][1..];
      DroppedAt(subs[1..], i - 1);
      assert subs[..i] + subs[i + 1..] == [subs[0]] + (subs[1..][..i - 1] + subs[1..][i..]);
    }
  }
}
