/** The sized buffer pool (src/core/nos_buffer.c): bins of equal chunks, a stack of free chunks per
    bin, a reference count per buffer, and headroom arithmetic. Allocation and the return of a
    chunk hold the pool lock and are atomic, as is every change of a count; between the release
    that takes the last reference and the return under the lock, other calls interleave.

    `usedLog` is history: no branch reads it. `handles` counts the references callers hold; the
    guards that read it, and the one that reads `returning`, are the assumption that only a holder
    retains or releases and that only the release that took the last reference returns a chunk. */
module BufferPool {
  import Runs

  const UINT32: nat := 0x1_0000_0000

  // nos_buffer_t; `data` is the offset of the data pointer from raw_data.
  datatype Buffer = Buffer(capacity: nat, data: int, len: nat, headroom: nat, tailroom: nat, refs: nat)

  // nos_buffer_bin_t; the last element of `free` is the top of the stack.
  datatype Bin = Bin(
    chunkSize: nat, bufs: seq<Buffer>, free: seq<nat>, used: nat, peak: nat,
    handles: seq<nat>, returning: set<nat>, usedLog: seq<nat>)

  datatype Option<T> = None | Some(value: T)

  datatype Action =
    | Alloc(size: nat, headroom: nat)
    | Retain(bin: nat, idx: nat)
    | Drop(bin: nat, idx: nat)          // the decrement in nos_buffer_release
    | Return(bin: nat, idx: nat)        // the locked part after the last reference
    | Push(bin: nat, idx: nat, n: nat)
    | Pull(bin: nat, idx: nat, n: nat)

  // ---------- One buffer ----------

  function Fresh(capacity: nat): Buffer { Buffer(capacity, 0, 0, 0, capacity, 0) }

  // uint32_t subtraction.
  function Sub32(a: nat, b: nat): nat { (a - b) % UINT32 }

  function Handed(b: Buffer, size: nat, headroom: nat): Buffer {
    Buffer(b.capacity, headroom, size, headroom, Sub32(b.capacity, headroom + size), 1)
  }

  // nos_buffer_push: NULL and no change without enough headroom.
  function Pushed(b: Buffer, n: nat): Option<Buffer> {
    if b.headroom < n then None
    else Some(b.(headroom := b.headroom - n, data := b.data - n, len := b.len + n))
  }

  // nos_buffer_pull: NULL and no change without enough data.
  function Pulled(b: Buffer, n: nat): Option<Buffer> {
    if b.len < n then None
    else Some(b.(headroom := b.headroom + n, data := b.data + n, len := b.len - n))
  }

  /** The data pointer stands behind the headroom, and headroom, data and tailroom fill the chunk. */
  predicate Geometry(b: Buffer) {
    b.data == b.headroom && b.headroom + b.len + b.tailroom == b.capacity
  }

  // uint32_t total_needed = size + headroom.
  function Needed(size: nat, headroom: nat): nat { (size + headroom) % UINT32 }

  /** A chunk that the size test lets through is laid out soundly if and only if size + headroom
      does not wrap around 2^32. */
  lemma HandedGeometryIff(b: Buffer, size: nat, headroom: nat)
    requires b.capacity < UINT32 && size < UINT32 && headroom < UINT32 && Needed(size, headroom) <= b.capacity
    ensures Geometry(Handed(b, size, headroom)) <==> size + headroom < UINT32
  {}

  /** The wrap happens: 2^32 - 1 bytes with 2 bytes of headroom pass the test of a 64-byte chunk. */
  lemma WrappedRequestIsServed()
    ensures Needed(UINT32 - 1, 2) <= 64 && !Geometry(Handed(Fresh(64), UINT32 - 1, 2))
  {}

  /** Push and pull of equal size undo each other, and both keep the layout. */
  lemma PushPullUndo(b: Buffer, n: nat)
    requires Geometry(b)
    ensures Pushed(b, n).Some? <==> n <= b.headroom
    ensures Pulled(b, n).Some? <==> n <= b.len
    ensures Pushed(b, n).Some? ==> Geometry(Pushed(b, n).value) && Pulled(Pushed(b, n).value, n) == Some(b)
    ensures Pulled(b, n).Some? ==> Geometry(Pulled(b, n).value) && Pushed(Pulled(b, n).value, n) == Some(b)
  {}

  /** Push grows the data by n bytes at its front, pull shrinks it there: the end of the data, the
      tailroom and the count stay. */
  lemma PushPullMoveFront(b: Buffer, n: nat)
    ensures Pushed(b, n).Some? ==>
              var p := Pushed(b, n).value;
              && p.len == b.len + n && p.data + p.len == b.data + b.len && p.headroom + p.len == b.headroom + b.len
              && p.tailroom == b.tailroom && p.refs == b.refs && p.capacity == b.capacity
    ensures Pulled(b, n).Some? ==>
              var p := Pulled(b, n).value;
              && p.len == b.len - n && p.data + p.len == b.data + b.len && p.headroom + p.len == b.headroom + b.len
              && p.tailroom == b.tailroom && p.refs == b.refs && p.capacity == b.capacity
  {}

  // ---------- One bin ----------

  function Top(b: Bin): nat
    requires b.free != []
  {
    b.free[|b.free| - 1]
  }

  function Set<T>(s: seq<T>, i: nat, x: T): seq<T> { if i < |s| then s[i := x] else s }

  function AllocIn(b: Bin, size: nat, headroom: nat): Bin
    requires b.free != []
  {
    var i := Top(b);
    if i >= |b.bufs| then b
    else
      var used := b.used + 1;
      b.(bufs := b.bufs[i := Handed(b.bufs[i], size, headroom)], free := b.free[..|b.free| - 1],
         used := used, peak := if used > b.peak then used else b.peak,
         handles := Set(b.handles, i, 1), usedLog := b.usedLog + [used])
  }

  predicate Held(b: Bin, i: nat) { i < |b.bufs| && i < |b.handles| && b.handles[i] > 0 }

  function RetainIn(b: Bin, i: nat): Bin {
    if Held(b, i)
    then b.(bufs := b.bufs[i := b.bufs[i].(refs := b.bufs[i].refs + 1)], handles := b.handles[i := b.handles[i] + 1])
    else b
  }

  function DropIn(b: Bin, i: nat): Bin {
    if Held(b, i) && b.bufs[i].refs > 0
    then b.(bufs := b.bufs[i := b.bufs[i].(refs := b.bufs[i].refs - 1)], handles := b.handles[i := b.handles[i] - 1],
            returning := if b.bufs[i].refs == 1 then b.returning + {i} else b.returning)
    else b
  }

  // Push the chunk on the free stack and reset the buffer.
  function ReturnIn(b: Bin, i: nat): Bin {
    if i in b.returning && i < |b.bufs| && b.used > 0
    then b.(bufs := b.bufs[i := Fresh(b.bufs[i].capacity).(refs := b.bufs[i].refs)], free := b.free + [i],
            used := b.used - 1, returning := b.returning - {i}, usedLog := b.usedLog + [b.used - 1])
    else b
  }

  function WriteIn(b: Bin, i: nat, x: Option<Buffer>): Bin {
    if Held(b, i) && x.Some? then b.(bufs := b.bufs[i := x.value]) else b
  }

  predicate Distinct(s: seq<nat>) { forall i, j :: 0 <= i < j < |s| ==> s[i] != s[j] }

  // Chunk i is in exactly one place: on the free stack, on its way there, or held.
  predicate ChunkOk(b: Bin, i: nat)
    requires i < |b.bufs| == |b.handles|
  {
    && b.bufs[i].capacity == b.chunkSize
    && b.bufs[i].refs == b.handles[i]
    && (i in b.free ==> i !in b.returning && b.handles[i] == 0 && b.bufs[i] == Fresh(b.chunkSize))
    && (i in b.returning ==> b.handles[i] == 0)
    && (i !in b.free && i !in b.returning ==> b.handles[i] > 0)
    && (i !in b.free ==> Geometry(b.bufs[i]))
  }

  predicate PeakOk(b: Bin) {
    && |b.usedLog| > 0 && b.usedLog[|b.usedLog| - 1] == b.used
    && b.peak in b.usedLog && forall u :: u in b.usedLog ==> u <= b.peak
  }

  predicate BinOk(b: Bin) {
    && b.chunkSize < UINT32 && |b.handles| == |b.bufs|
    && Distinct(b.free) && (forall k :: 0 <= k < |b.free| ==> b.free[k] < |b.bufs|)
    && (forall i :: i in b.returning ==> i < |b.bufs|)
    && b.used + |b.free| == |b.bufs|
    && (forall i :: 0 <= i < |b.bufs| ==> ChunkOk(b, i))
    && PeakOk(b)
  }

  lemma PeakStays(log: seq<nat>, peak: nat, used: nat)
    requires peak in log && forall u :: u in log ==> u <= peak
    ensures var p := if used > peak then used else peak;
            p in log + [used] && forall u :: u in log + [used] ==> u <= p
  {}

  lemma AllocKeepsBin(b: Bin, size: nat, headroom: nat)
    requires BinOk(b) && b.free != [] && size < UINT32 && headroom < UINT32
    requires Needed(size, headroom) <= b.chunkSize && size + headroom < UINT32
    ensures BinOk(AllocIn(b, size, headroom))
    ensures b.handles[Top(b)] == 0 && AllocIn(b, size, headroom).handles[Top(b)] == 1
  {
    var i, c := Top(b), AllocIn(b, size, headroom);
    assert b.free == c.free + [i];
    assert i in b.free && ChunkOk(b, i);
    HandedGeometryIff(b.bufs[i], size, headroom);
    PeakStays(b.usedLog, b.peak, b.used + 1);
    forall j | 0 <= j < |c.bufs| ensures ChunkOk(c, j) { assert ChunkOk(b, j); }
  }

  lemma RetainKeepsBin(b: Bin, i: nat)
    requires BinOk(b)
    ensures BinOk(RetainIn(b, i))
  {
    var c := RetainIn(b, i);
    forall j | 0 <= j < |c.bufs| ensures ChunkOk(c, j) { assert ChunkOk(b, j); }
  }

  lemma DropKeepsBin(b: Bin, i: nat)
    requires BinOk(b)
    ensures BinOk(DropIn(b, i))
  {
    var c := DropIn(b, i);
    forall j | 0 <= j < |c.bufs| ensures ChunkOk(c, j) { assert ChunkOk(b, j); }
  }

  // A chunk on its way back counts as used, so the count is positive.
  lemma NotAllFree(free: seq<nat>, n: nat, i: nat)
    requires Distinct(free) && (forall k :: 0 <= k < |free| ==> free[k] < n) && i < n && i !in free
    ensures |free| < n
  {
    DistinctSize(free);
    var some := Elements(free);
    assert some <= Below(n) - {i};
    SubsetSize(some, Below(n) - {i});
  }

  ghost function Below(n: nat): (r: set<nat>)
    ensures |r| == n && forall x: nat :: x in r <==> x < n
  {
    if n == 0 then {} else Below(n - 1) + {n - 1}
  }

  lemma {:induction false} DistinctSize(s: seq<nat>)
    requires Distinct(s)
    ensures |Elements(s)| == |s|
    decreases |s|
  {
    if s != [] {
      var init, last := s[..|s| - 1], s[|s| - 1];
      DistinctSize(init);
      assert s == init + [last] && last !in Elements(init);
      assert Elements(s) == Elements(init) + {last};
    }
  }

  function Elements(s: seq<nat>): set<nat> { set x | x in s }

  lemma {:induction false} SubsetSize(a: set<nat>, b: set<nat>)
    requires a <= b
    ensures |a| <= |b|
    decreases a
  {
    if a != {} {
      var x :| x in a;
      SubsetSize(a - {x}, b - {x});
    }
  }

  lemma ReturnKeepsBin(b: Bin, i: nat)
    requires BinOk(b)
    ensures BinOk(ReturnIn(b, i))
    ensures i in b.returning ==> b.used > 0
  {
    var c := ReturnIn(b, i);
    if i in b.returning {
      assert ChunkOk(b, i);
      NotAllFree(b.free, |b.bufs|, i);
      assert b.used in b.usedLog && b.used <= b.peak;
      PeakStays(b.usedLog, b.peak, b.used - 1);
      forall j | 0 <= j < |c.bufs| ensures ChunkOk(c, j) { assert ChunkOk(b, j); }
    }
  }

  lemma WriteKeepsBin(b: Bin, i: nat, x: Option<Buffer>)
    requires BinOk(b)
    requires i < |b.bufs| && x.Some? ==>
               Geometry(x.value) && x.value.refs == b.bufs[i].refs && x.value.capacity == b.bufs[i].capacity
    ensures BinOk(WriteIn(b, i, x))
  {
    var c := WriteIn(b, i, x);
    forall j | 0 <= j < |c.bufs| ensures ChunkOk(c, j) { assert ChunkOk(b, j); }
  }

  // ---------- The pool: bins in configuration order ----------

  predicate Fits(b: Bin, needed: nat) { b.chunkSize >= needed && b.free != [] }

  // The loop of nos_buffer_alloc: the first bin that fits.
  function FirstFit(bins: seq<Bin>, needed: nat, i: nat): Option<nat>
    decreases |bins| - i
  {
    if i >= |bins| then None
    else if Fits(bins[i], needed) then Some(i)
    else FirstFit(bins, needed, i + 1)
  }

  lemma {:induction false} FirstFitIsFirst(bins: seq<Bin>, needed: nat, i: nat)
    ensures match FirstFit(bins, needed, i)
            case None => forall j :: i <= j < |bins| ==> !Fits(bins[j], needed)
            case Some(k) => i <= k < |bins| && Fits(bins[k], needed) && forall j :: i <= j < k ==> !Fits(bins[j], needed)
    decreases |bins| - i
  {
    if i < |bins| && !Fits(bins[i], needed) { FirstFitIsFirst(bins, needed, i + 1); }
  }

  /** With bins configured in ascending order, allocation takes the smallest chunk size that fits
      and has a free chunk, and it fails only if no bin has one. */
  lemma AllocIsBestFit(bins: seq<Bin>, needed: nat)
    requires forall i, j :: 0 <= i < j < |bins| ==> bins[i].chunkSize <= bins[j].chunkSize
    ensures FirstFit(bins, needed, 0).None? <==> forall j :: 0 <= j < |bins| ==> bins[j].chunkSize < needed || bins[j].free == []
    ensures FirstFit(bins, needed, 0).Some? ==>
              var k := FirstFit(bins, needed, 0).value;
              k < |bins| && bins[k].chunkSize >= needed && bins[k].free != []
              && forall j :: 0 <= j < |bins| && bins[j].chunkSize >= needed && bins[j].free != [] ==>
                   bins[k].chunkSize <= bins[j].chunkSize
  {
    FirstFitIsFirst(bins, needed, 0);
  }

  function Next(bins: seq<Bin>, a: Action): seq<Bin> {
    match a
    case Alloc(size, headroom) =>
      (match FirstFit(bins, Needed(size, headroom), 0)
       case None => bins
       case Some(k) => if k < |bins| && bins[k].free != [] then bins[k := AllocIn(bins[k], size, headroom)] else bins)
    case Retain(b, i) => if b < |bins| then bins[b := RetainIn(bins[b], i)] else bins
    case Drop(b, i) => if b < |bins| then bins[b := DropIn(bins[b], i)] else bins
    case Return(b, i) => if b < |bins| then bins[b := ReturnIn(bins[b], i)] else bins
    case Push(b, i, n) =>
      if b < |bins| && i < |bins[b].bufs| then bins[b := WriteIn(bins[b], i, Pushed(bins[b].bufs[i], n))] else bins
    case Pull(b, i, n) =>
      if b < |bins| && i < |bins[b].bufs| then bins[b := WriteIn(bins[b], i, Pulled(bins[b].bufs[i], n))] else bins
  }

  // The hypothesis of the layout: no request wraps around 2^32.
  predicate NoWrap(bins: seq<Bin>, a: Action) {
    a.Alloc? ==> a.size < UINT32 && a.headroom < UINT32 && a.size + a.headroom < UINT32
  }

  predicate PoolOk(bins: seq<Bin>) { forall k :: 0 <= k < |bins| ==> BinOk(bins[k]) }

  // Bins and chunks neither appear nor disappear.
  predicate SameChunks(x: seq<Bin>, y: seq<Bin>) {
    |x| == |y| && forall k :: 0 <= k < |y| ==> |x[k].bufs| == |y[k].bufs| && x[k].chunkSize == y[k].chunkSize
  }

  lemma StepKeepsPool(bins: seq<Bin>, a: Action)
    requires PoolOk(bins) && NoWrap(bins, a)
    ensures PoolOk(Next(bins, a))
  {
    match a
    case Alloc(size, headroom) =>
      FirstFitIsFirst(bins, Needed(size, headroom), 0);
      if FirstFit(bins, Needed(size, headroom), 0).Some? {
        AllocKeepsBin(bins[FirstFit(bins, Needed(size, headroom), 0).value], size, headroom);
      }
    case Retain(b, i) => if b < |bins| { RetainKeepsBin(bins[b], i); }
    case Drop(b, i) => if b < |bins| { DropKeepsBin(bins[b], i); }
    case Return(b, i) => if b < |bins| { ReturnKeepsBin(bins[b], i); }
    case Push(b, i, n) =>
      if b < |bins| && Held(bins[b], i) {
        HeldGeometry(bins[b], i);
        PushPullUndo(bins[b].bufs[i], n);
        WriteKeepsBin(bins[b], i, Pushed(bins[b].bufs[i], n));
      }
    case Pull(b, i, n) =>
      if b < |bins| && Held(bins[b], i) {
        HeldGeometry(bins[b], i);
        PushPullUndo(bins[b].bufs[i], n);
        WriteKeepsBin(bins[b], i, Pulled(bins[b].bufs[i], n));
      }
  }

  lemma StepKeepsChunks(bins: seq<Bin>, a: Action)
    ensures SameChunks(Next(bins, a), bins)
  {}

  lemma HeldGeometry(b: Bin, i: nat)
    requires BinOk(b) && Held(b, i)
    ensures Geometry(b.bufs[i]) && i !in b.free && i !in b.returning
  {
    assert ChunkOk(b, i);
  }

  // A bin as nos_buffer_init_pool leaves it.
  predicate Initial(b: Bin) {
    && b.chunkSize < UINT32 && b.used == 0 == b.peak && b.returning == {} && b.usedLog == [0]
    && |b.free| == |b.bufs| == |b.handles|
    && forall i :: 0 <= i < |b.bufs| ==> b.free[i] == i && b.handles[i] == 0 && b.bufs[i] == Fresh(b.chunkSize)
  }

  lemma InitialBinOk(b: Bin)
    requires Initial(b)
    ensures BinOk(b)
  {
    forall i | 0 <= i < |b.bufs| ensures ChunkOk(b, i) { assert b.free[i] in b.free; }
  }

  /** Conservation, over every interleaving of allocations, retains, releases, pushes and pulls by
      holders: in every bin the free stack holds distinct chunks, used + free is the chunk count,
      peak is the largest value used ever had, and every chunk is in exactly one place — free with
      count 0 and reset, on its way back with count 0, or held with a count equal to its holders'
      references and a sound layout. */
  lemma ChunksConserved(bins: seq<Bin>, run: seq<Action>, k: nat, i: nat)
    requires (forall b :: b in bins ==> Initial(b)) && Runs.Along(Next, NoWrap, bins, run)
    requires k < |bins| && i < |bins[k].bufs|
    ensures var t := Runs.Exec(Next, bins, run);
            && SameChunks(t, bins) && Distinct(t[k].free) && PeakOk(t[k])
            && t[k].used + |t[k].free| == |bins[k].bufs| == |t[k].handles|
            && t[k].bufs[i].refs == t[k].handles[i]
            && (i in t[k].free ==> i !in t[k].returning && t[k].bufs[i] == Fresh(bins[k].chunkSize))
            && (i in t[k].returning ==> t[k].bufs[i].refs == 0)
            && (i in t[k].free || i in t[k].returning || Held(t[k], i))
            && (Held(t[k], i) ==> i !in t[k].free && i !in t[k].returning && Geometry(t[k].bufs[i]))
  {
    var ok := (x: seq<Bin>) => PoolOk(x) && SameChunks(x, bins);
    forall b | 0 <= b < |bins| ensures BinOk(bins[b]) { InitialBinOk(bins[b]); }
    forall x, a | ok(x) && NoWrap(x, a) ensures ok(Next(x, a)) {
      StepKeepsPool(x, a);
      StepKeepsChunks(x, a);
    }
    Runs.InvariantAlong(Next, NoWrap, ok, bins, run);
    assert ChunkOk(Runs.Exec(Next, bins, run)[k], i);
  }

  /** No chunk has two independent allocations: the chunk an allocation picks had no holder. */
  lemma AllocPicksUnheldChunk(bins: seq<Bin>, size: nat, headroom: nat)
    requires PoolOk(bins) && NoWrap(bins, Alloc(size, headroom))
    ensures match FirstFit(bins, Needed(size, headroom), 0)
            case None => Next(bins, Alloc(size, headroom)) == bins
            case Some(k) =>
              && k < |bins| && bins[k].free != []
              && bins[k].handles[Top(bins[k])] == 0
              && Next(bins, Alloc(size, headroom))[k].handles == bins[k].handles[Top(bins[k]) := 1]
  {
    FirstFitIsFirst(bins, Needed(size, headroom), 0);
    if FirstFit(bins, Needed(size, headroom), 0).Some? {
      AllocKeepsBin(bins[FirstFit(bins, Needed(size, headroom), 0).value], size, headroom);
    }
  }

  // The chunk a request takes.
  predicate Picks(bins: seq<Bin>, size: nat, headroom: nat, k: nat, i: nat) {
    FirstFit(bins, Needed(size, headroom), 0) == Some(k) && k < |bins| && bins[k].free != [] && Top(bins[k]) == i
  }

  /** What the caller of a served request gets: `size` bytes of data behind exactly the headroom asked
      for, the rest of the chunk behind them, and the only reference. So right away a push of n
      succeeds exactly up to the headroom asked for, and a pull exactly up to the size; and no other
      chunk of any bin changes. */
  lemma AllocLayout(bins: seq<Bin>, size: nat, headroom: nat, k: nat, i: nat, n: nat)
    requires PoolOk(bins) && NoWrap(bins, Alloc(size, headroom)) && Picks(bins, size, headroom, k, i)
    ensures var t := Next(bins, Alloc(size, headroom));
            && |t| == |bins| && i < |t[k].bufs| == |bins[k].bufs|
            && t[k].bufs[i].len == size && t[k].bufs[i].headroom == headroom == t[k].bufs[i].data
            && t[k].bufs[i].tailroom == bins[k].chunkSize - size - headroom
            && t[k].bufs[i].refs == 1 && t[k].bufs[i].capacity == bins[k].chunkSize
            && (Pushed(t[k].bufs[i], n).Some? <==> n <= headroom) && (Pulled(t[k].bufs[i], n).Some? <==> n <= size)
    ensures var t := Next(bins, Alloc(size, headroom));
            && (forall j :: 0 <= j < |bins| && j != k ==> t[j] == bins[j])
            && (forall j :: 0 <= j < |bins[k].bufs| && j != i ==> t[k].bufs[j] == bins[k].bufs[j] && t[k].handles[j] == bins[k].handles[j])
  {
    var b := bins[k];
    FirstFitIsFirst(bins, Needed(size, headroom), 0);
    assert BinOk(b);
    AllocInLayout(b, size, headroom);
    hide BinOk, AllocIn;
    assert Next(bins, Alloc(size, headroom)) == bins[k := AllocIn(b, size, headroom)];
  }

  lemma AllocInLayout(b: Bin, size: nat, headroom: nat)
    requires BinOk(b) && b.free != [] && size + headroom <= b.chunkSize
    ensures var t, i := AllocIn(b, size, headroom), Top(b);
            && i < |b.bufs| == |t.bufs| == |b.handles| == |t.handles|
            && t.bufs[i] == Buffer(b.chunkSize, headroom, size, headroom, b.chunkSize - size - headroom, 1) && b.bufs[i].refs == 0
            && (forall j :: 0 <= j < |b.bufs| && j != i ==> t.bufs[j] == b.bufs[j] && t.handles[j] == b.handles[j])
            && t.returning == b.returning
  {
    var i := Top(b);
    assert i in b.free;
    assert ChunkOk(b, i);
  }

  /** An unwrapped request is served exactly if some bin has a free chunk of at least size + headroom bytes. */
  lemma AllocServedIff(bins: seq<Bin>, size: nat, headroom: nat)
    requires PoolOk(bins) && NoWrap(bins, Alloc(size, headroom))
    ensures (exists k, i :: Picks(bins, size, headroom, k, i)) <==>
            exists j :: 0 <= j < |bins| && bins[j].chunkSize >= size + headroom && bins[j].free != []
    ensures !(exists k, i :: Picks(bins, size, headroom, k, i)) ==> Next(bins, Alloc(size, headroom)) == bins
  {
    FirstFitIsFirst(bins, Needed(size, headroom), 0);
    match FirstFit(bins, Needed(size, headroom), 0)
    case None =>
    case Some(k) => assert Picks(bins, size, headroom, k, Top(bins[k]));
  }

  /** A holder's push and pull on a chunk of the pool: the front of its data moves by n exactly if the headroom,
      or the data, has n bytes; the count stays, and so does every other chunk. */
  lemma HolderMovesFront(bins: seq<Bin>, k: nat, i: nat, n: nat)
    requires k < |bins| && Held(bins[k], i)
    ensures var b, t := bins[k].bufs[i], Next(bins, Push(k, i, n));
            t == bins[k := bins[k].(bufs := t[k].bufs)] && |t[k].bufs| == |bins[k].bufs|
            && t[k].bufs[i] == (if n <= b.headroom then b.(headroom := b.headroom - n, data := b.data - n, len := b.len + n) else b)
            && (forall j :: 0 <= j < |bins[k].bufs| && j != i ==> t[k].bufs[j] == bins[k].bufs[j])
    ensures var b, t := bins[k].bufs[i], Next(bins, Pull(k, i, n));
            t == bins[k := bins[k].(bufs := t[k].bufs)] && |t[k].bufs| == |bins[k].bufs|
            && t[k].bufs[i] == (if n <= b.len then b.(headroom := b.headroom + n, data := b.data + n, len := b.len - n) else b)
            && (forall j :: 0 <= j < |bins[k].bufs| && j != i ==> t[k].bufs[j] == bins[k].bufs[j])
  {}

  // ---------- Counts over runs ----------

  // What a step adds to and takes from the references on chunk i of bin k.
  predicate Gives(bins: seq<Bin>, a: Action, k: nat, i: nat) {
    || (a.Alloc? && Picks(bins, a.size, a.headroom, k, i))
    || (a == Retain(k, i) && k < |bins| && Held(bins[k], i))
  }

  predicate Takes(bins: seq<Bin>, a: Action, k: nat, i: nat) { a == Drop(k, i) && k < |bins| && Held(bins[k], i) }

  function Given(bins: seq<Bin>, run: seq<Action>, k: nat, i: nat): nat
    decreases |run|
  {
    if run == [] then 0
    else (if Gives(bins, run[0], k, i) then 1 else 0) + Given(Next(bins, run[0]), run[1..], k, i)
  }

  function Taken(bins: seq<Bin>, run: seq<Action>, k: nat, i: nat): nat
    decreases |run|
  {
    if run == [] then 0
    else (if Takes(bins, run[0], k, i) then 1 else 0) + Taken(Next(bins, run[0]), run[1..], k, i)
  }

  /** Every step: allocation and retain give a reference, release takes one, nothing else does; the
      release that takes the last one sends the chunk on its way back, and there it stays until its
      return puts it on the free stack. */
  lemma StepCounts(bins: seq<Bin>, a: Action, k: nat, i: nat)
    requires PoolOk(bins) && NoWrap(bins, a) && k < |bins| && i < |bins[k].bufs|
    ensures var t := Next(bins, a);
            && PoolOk(t) && SameChunks(t, bins)
            && t[k].bufs[i].refs + (if Takes(bins, a, k, i) then 1 else 0)
                == bins[k].bufs[i].refs + (if Gives(bins, a, k, i) then 1 else 0)
            && (a == Return(k, i) && i in bins[k].returning ==> i in t[k].free && i !in t[k].returning)
            && (i in bins[k].returning && a != Return(k, i) ==> i in t[k].returning)
            && (Takes(bins, a, k, i) && t[k].bufs[i].refs == 0 ==> i in t[k].returning)
  {
    StepKeepsPool(bins, a);
    StepKeepsChunks(bins, a);
    assert BinOk(bins[k]);
    match a
    case Alloc(size, headroom) => AllocCounts(bins, size, headroom, k, i);
    case Retain(b, j) =>
      RetainCounts(bins[k], j, i);
      hide BinOk, RetainIn, Held;
    case Drop(b, j) =>
      DropCounts(bins[k], j, i);
      hide BinOk, DropIn, Held;
    case Return(b, j) =>
      ReturnCounts(bins[k], j, i);
      hide BinOk, ReturnIn, Held;
    case Push(b, j, n) =>
      hide BinOk;
      WriteCounts(bins[k], j, n, i);
    case Pull(b, j, n) =>
      hide BinOk;
      WriteCounts(bins[k], j, n, i);
  }

  lemma AllocCounts(bins: seq<Bin>, size: nat, headroom: nat, k: nat, i: nat)
    requires PoolOk(bins) && NoWrap(bins, Alloc(size, headroom)) && k < |bins| && i < |bins[k].bufs|
    ensures var t := Next(bins, Alloc(size, headroom));
            && |t| == |bins| && |t[k].bufs| == |bins[k].bufs|
            && t[k].bufs[i].refs == bins[k].bufs[i].refs + (if Picks(bins, size, headroom, k, i) then 1 else 0)
            && t[k].returning == bins[k].returning
  {
    FirstFitIsFirst(bins, Needed(size, headroom), 0);
    if FirstFit(bins, Needed(size, headroom), 0) == Some(k) { AllocInLayout(bins[k], size, headroom); }
    hide BinOk, AllocIn;
  }

  lemma RetainCounts(b: Bin, j: nat, i: nat)
    requires i < |b.bufs|
    ensures var t := RetainIn(b, j);
            && |t.bufs| == |b.bufs| && t.bufs[i].refs == b.bufs[i].refs + (if j == i && Held(b, i) then 1 else 0)
            && t.returning == b.returning
  {}

  lemma DropCounts(b: Bin, j: nat, i: nat)
    requires BinOk(b) && i < |b.bufs|
    ensures var t := DropIn(b, j);
            && |t.bufs| == |b.bufs| && t.bufs[i].refs + (if j == i && Held(b, i) then 1 else 0) == b.bufs[i].refs
            && b.returning <= t.returning && (j == i && Held(b, i) && t.bufs[i].refs == 0 ==> i in t.returning)
  {
    assert ChunkOk(b, i);
  }

  lemma ReturnCounts(b: Bin, j: nat, i: nat)
    requires BinOk(b) && i < |b.bufs|
    ensures var t := ReturnIn(b, j);
            && |t.bufs| == |b.bufs| && t.bufs[i].refs == b.bufs[i].refs
            && (j == i && i in b.returning ==> i in t.free && i !in t.returning)
            && (j != i && i in b.returning ==> i in t.returning)
  {
    ReturnKeepsBin(b, j);
  }

  lemma WriteCounts(b: Bin, j: nat, n: nat, i: nat)
    requires i < |b.bufs|
    ensures j < |b.bufs| ==>
              var p, q := WriteIn(b, j, Pushed(b.bufs[j], n)), WriteIn(b, j, Pulled(b.bufs[j], n));
              && |p.bufs| == |b.bufs| == |q.bufs| && p.bufs[i].refs == b.bufs[i].refs == q.bufs[i].refs
              && p.returning == b.returning == q.returning
  {}

  /** The count of a chunk is what allocations and retains have given less what releases have taken, in
      every run. */
  lemma {:induction false} CountIsGivenLessTaken(bins: seq<Bin>, run: seq<Action>, k: nat, i: nat)
    requires PoolOk(bins) && Runs.Along(Next, NoWrap, bins, run) && k < |bins| && i < |bins[k].bufs|
    ensures var t := Runs.Exec(Next, bins, run);
            && SameChunks(t, bins)
            && t[k].bufs[i].refs + Taken(bins, run, k, i) == bins[k].bufs[i].refs + Given(bins, run, k, i)
    decreases |run|
  {
    hide PoolOk, NoWrap, Next, Gives, Takes;
    if run != [] {
      StepCounts(bins, run[0], k, i);
      CountIsGivenLessTaken(Next(bins, run[0]), run[1..], k, i);
    }
  }

  // ---------- The bin object ----------

  class PoolBin {
    const chunkSize: nat
    const buffers: array<Buffer>
    const freeStack: array<nat>
    var freeTop: int
    var used: nat
    var peak: nat
    ghost var handles: seq<nat>
    ghost var returning: set<nat>
    ghost var usedLog: seq<nat>

    ghost predicate Shaped()
      reads this
    {
      -1 <= freeTop < freeStack.Length == buffers.Length
    }

    ghost function View(): Bin
      reads this, buffers, freeStack
      requires Shaped()
    {
      Bin(chunkSize, buffers[..], freeStack[..freeTop + 1], used, peak, handles, returning, usedLog)
    }

    /** One bin of nos_buffer_init_pool; the configured size is rounded up to a cache line. */
    constructor (size: nat, count: nat)
      requires size < UINT32 - 64
      ensures Shaped() && Initial(View()) && buffers.Length == count
      ensures chunkSize % 64 == 0 && size <= chunkSize < size + 64
      ensures fresh(buffers) && fresh(freeStack)
    {
      var rounded := (size + 63) / 64 * 64;
      var bufs := new Buffer[count](_ => Fresh(rounded));
      var stack := new nat[count](_ => 0);
      var top: int := -1;
      for j := 0 to count
        invariant top == j - 1 && forall i :: 0 <= i < j ==> stack[i] == i
        invariant forall i :: 0 <= i < count ==> bufs[i] == Fresh(rounded)
      {
        top := top + 1;
        stack[top] := j;
      }
      chunkSize, buffers, freeStack, freeTop, used, peak := rounded, bufs, stack, top, 0, 0;
      handles, returning, usedLog := seq(count, _ => 0), {}, [0];
      new;
      ghost var v := View();
      forall i | 0 <= i < count
        ensures v.free[i] == i && v.handles[i] == 0 && v.bufs[i] == Fresh(rounded)
      {
        assert v.free[i] == stack[i] && v.bufs[i] == bufs[i];
      }
    }

    // The body of the loop in nos_buffer_alloc, for a bin that fits.
    method Take(size: nat, headroom: nat) returns (idx: nat)
      requires Shaped() && BinOk(View()) && freeTop >= 0
      modifies this, buffers
      ensures Shaped() && View() == AllocIn(old(View()), size, headroom) && idx == old(Top(View()))
    {
      ghost var b := View();
      assert b.free[|b.free| - 1] == freeStack[freeTop];
      idx := freeStack[freeTop];
      freeTop := freeTop - 1;
      ghost var bufs := buffers[..];
      buffers[idx] := Handed(buffers[idx], size, headroom);
      assert buffers[..] == bufs[idx := Handed(bufs[idx], size, headroom)];
      used := used + 1;
      if used > peak { peak := used; }
      handles, usedLog := handles[idx := 1], usedLog + [used];
      assert freeStack[..freeTop + 1] == b.free[..|b.free| - 1];
    }

    // Only the owner of a reference may call this and the next one.
    method Retain(idx: nat)
      requires Shaped() && Held(View(), idx)
      modifies this`handles, buffers
      ensures View() == RetainIn(old(View()), idx)
    {
      ghost var bufs := buffers[..];
      buffers[idx] := buffers[idx].(refs := buffers[idx].refs + 1);
      assert buffers[..] == bufs[idx := bufs[idx].(refs := bufs[idx].refs + 1)];
      handles := handles[idx := handles[idx] + 1];
    }

    method Drop(idx: nat) returns (last: bool)
      requires Shaped() && Held(View(), idx) && buffers[idx].refs > 0
      modifies this`handles, this`returning, buffers
      ensures View() == DropIn(old(View()), idx)
      ensures last <==> idx in returning && old(buffers[idx].refs) == 1
    {
      ghost var bufs := buffers[..];
      var before := buffers[idx].refs;
      buffers[idx] := buffers[idx].(refs := before - 1);
      assert buffers[..] == bufs[idx := bufs[idx].(refs := before - 1)];
      handles := handles[idx := handles[idx] - 1];
      last := before == 1;
      if last { returning := returning + {idx}; }
    }

    method GiveBack(idx: nat)
      requires Shaped() && BinOk(View()) && idx in returning
      modifies this, buffers, freeStack
      ensures Shaped() && View() == ReturnIn(old(View()), idx)
    {
      ghost var b := View();
      ReturnKeepsBin(b, idx);
      ghost var bufs := buffers[..];
      freeTop := freeTop + 1;
      freeStack[freeTop] := idx;
      assert freeStack[..freeTop + 1] == b.free + [idx];
      used := used - 1;
      buffers[idx] := Fresh(buffers[idx].capacity).(refs := buffers[idx].refs);
      assert buffers[..] == bufs[idx := Fresh(bufs[idx].capacity).(refs := bufs[idx].refs)];
      returning, usedLog := returning - {idx}, usedLog + [used];
    }

    /** nos_buffer_release with nothing in between: the last reference puts the chunk back. */
    method Release(idx: nat)
      requires Shaped() && BinOk(View()) && Held(View(), idx)
      modifies this, buffers, freeStack
      ensures Shaped() && BinOk(View())
      ensures old(handles[idx]) == 1 ==> View().free == old(View()).free + [idx] && used == old(used) - 1
      ensures old(handles[idx]) > 1 ==> View() == DropIn(old(View()), idx)
    {
      assert ChunkOk(View(), idx);
      DropKeepsBin(View(), idx);
      var last := Drop(idx);
      if last {
        ReturnKeepsBin(View(), idx);
        GiveBack(idx);
      }
    }
  }

  ghost predicate Apart(pool: seq<PoolBin>) {
    forall i, j :: 0 <= i < j < |pool| ==> pool[i] != pool[j] && pool[i].buffers != pool[j].buffers
  }

  ghost function Views(pool: seq<PoolBin>): (v: seq<Bin>)
    reads set b | b in pool, set b | b in pool :: b.buffers, set b | b in pool :: b.freeStack
    requires forall b :: b in pool ==> b.Shaped()
    ensures |v| == |pool| && forall k :: 0 <= k < |pool| ==> v[k] == pool[k].View()
  {
    if pool == [] then [] else [pool[0].View()] + Views(pool[1..])
  }

  /** nos_buffer_alloc: None stands for NULL. */
  method AllocFrom(pool: seq<PoolBin>, size: nat, headroom: nat) returns (r: Option<(nat, nat)>)
    requires Apart(pool) && (forall b :: b in pool ==> b.Shaped()) && PoolOk(Views(pool))
    modifies set b | b in pool, set b | b in pool :: b.buffers
    ensures forall b :: b in pool ==> b.Shaped()
    ensures Views(pool) == Next(old(Views(pool)), Alloc(size, headroom))
    ensures match FirstFit(old(Views(pool)), Needed(size, headroom), 0)
            case None => r == None
            case Some(k) => k < |pool| && old(Views(pool))[k].free != [] && r == Some((k, Top(old(Views(pool))[k])))
  {
    hide BinOk, AllocIn, Views;
    var needed := Needed(size, headroom);
    ghost var before := Views(pool);
    for i := 0 to |pool|
      invariant forall b :: b in pool ==> b.Shaped()
      invariant Views(pool) == before && FirstFit(before, needed, 0) == FirstFit(before, needed, i)
    {
      var bin := pool[i];
      assert bin in pool && bin.Shaped() && Views(pool)[i] == bin.View();
      assert bin.View().free == bin.freeStack[..bin.freeTop + 1];
      if bin.chunkSize >= needed && bin.freeTop >= 0 {
        var idx := TakeFrom(pool, i, size, headroom);
        return Some((i, idx));
      }
    }
    r := None;
  }

  lemma BinIsOk(bins: seq<Bin>, i: nat)
    requires PoolOk(bins) && i < |bins|
    ensures BinOk(bins[i])
  {}

  method TakeFrom(pool: seq<PoolBin>, i: nat, size: nat, headroom: nat) returns (idx: nat)
    requires Apart(pool) && (forall b :: b in pool ==> b.Shaped()) && PoolOk(Views(pool))
    requires i < |pool| && Views(pool)[i].free != []
    modifies pool[i], pool[i].buffers
    ensures forall b :: b in pool ==> b.Shaped()
    ensures Views(pool) == old(Views(pool))[i := AllocIn(old(Views(pool))[i], size, headroom)]
    ensures idx == Top(old(Views(pool))[i])
  {
    hide PoolOk, BinOk, AllocIn, Views;
    ghost var before := Views(pool);
    BinIsOk(before, i);
    idx := pool[i].Take(size, headroom);
    forall j | 0 <= j < |pool| && j != i ensures pool[j].Shaped() && pool[j].View() == before[j] {}
    assert Views(pool) == before[i := AllocIn(before[i], size, headroom)];
  }
}