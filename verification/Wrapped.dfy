/** Ring indices. The C code keeps head and tail modulo the ring size; the proofs count
    positions without bound and place position x in slot x % n. */
module Wrapped {

  // x % n, by repeated subtraction so that proofs unfold it only where they ask to.
  function Slot(x: nat, n: nat): (i: nat)
    requires n > 0
    ensures i < n
    decreases x
  {
    if x < n then x else Slot(x - n, n)
  }

  lemma {:induction false} SlotIsMod(x: nat, n: nat)
    requires n > 0
    ensures Slot(x, n) == x % n
    decreases x
  {
    if x >= n {
      SlotIsMod(x - n, n);
      ModDropsMultiple(x - n, n);
    }
  }

  lemma ModDropsMultiple(x: nat, n: nat)
    requires n > 0
    ensures (x + n) % n == x % n
  {
    var q, r := x / n, x % n;
    assert x + n == (q + 1) * n + r;
    ModUnique(x + n, q + 1, r, n);
  }

  lemma ModUnique(x: nat, q: nat, r: nat, n: nat)
    requires r < n && x == q * n + r
    ensures x % n == r
  {
    var q' := x / n;
    if q > q' {
      AtLeastOnce(q - q', n);
    } else if q < q' {
      AtLeastOnce(q' - q, n);
    }
  }

  lemma AtLeastOnce(k: nat, n: nat)
    requires k > 0
    ensures k * n >= n
  {}

  lemma {:induction false} SlotNext(x: nat, n: nat)
    requires n > 0
    ensures Slot(x + 1, n) == if Slot(x, n) + 1 == n then 0 else Slot(x, n) + 1
    ensures Slot(x + 1, n) == (Slot(x, n) + 1) % n
    decreases x
  {
    if x >= n { SlotNext(x - n, n); }
  }

  lemma {:induction false} SlotLap(x: nat, n: nat)
    requires n > 0
    ensures Slot(x + n, n) == Slot(x, n)
  {}

  // Within one lap, positions and slots correspond one to one.
  lemma {:induction false} SlotInjective(x: nat, y: nat, n: nat)
    requires n > 0 && x <= y < x + n && Slot(x, n) == Slot(y, n)
    ensures x == y
    decreases x
  {
    if x >= n { SlotInjective(x - n, y - n, n); }
  }

  lemma WindowInjective(h: nat, x: nat, y: nat, n: nat)
    requires n > 0 && h <= x < h + n && h <= y < h + n && Slot(x, n) == Slot(y, n)
    ensures x == y
  {
    if x <= y { SlotInjective(x, y, n); } else { SlotInjective(y, x, n); }
  }

  // The position of the window starting at h that lives in slot i.
  lemma {:induction false} PositionOf(h: nat, i: nat, n: nat) returns (x: nat)
    requires i < n
    ensures h <= x < h + n && Slot(x, n) == i
    decreases h
  {
    if h == 0 {
      x := i;
    } else {
      x := PositionOf(h - 1, i, n);
      if x == h - 1 {
        SlotLap(x, n);
        x := x + n;
      }
    }
  }

  // How far apart two positions of the same slot are.
  lemma {:induction false} SlotDistance(x: nat, y: nat, n: nat)
    requires n > 0 && x <= y
    ensures Slot(x, n) == Slot(y, n) <==> (y - x) % n == 0
    decreases y
  {
    SlotIsMod(y - x, n);
    if y - x >= n {
      SlotDistance(x, y - n, n);
      SlotIsMod(y - n - x, n);
    } else if Slot(x, n) == Slot(y, n) {
      SlotInjective(x, y, n);
    }
  }
}
