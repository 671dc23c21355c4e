/** The circular arrays under all three work-stealing queues (`circular_array.h`): a power-of-two
    number of slots addressed by ever-growing indices through a bit mask.
  */
module CircularArrays {

  function Pow2(k: nat): (p: nat)
    ensures p > 0
  {
    if k == 0 then 1 else 2 * Pow2(k - 1)
  }

  /** `&` on non-negative integers, bit by bit. */
  function BitAnd(x: nat, y: nat): nat {
    if x == 0 || y == 0 then 0 else (x % 2) * (y % 2) + 2 * BitAnd(x / 2, y / 2)
  }

  lemma {:induction false} MaskIsModulo(x: nat, k: nat)
    ensures BitAnd(x, Pow2(k) - 1) == x % Pow2(k)
  {
    if k == 0 {
      assert Pow2(k) == 1;
    } else {
      MaskIsModulo(x / 2, k - 1);
      HalveModulo(x, Pow2(k - 1));
      BitAndOdd(x, Pow2(k - 1) - 1);
    }
  }

  lemma BitAndOdd(x: nat, m: nat)
    ensures BitAnd(x, 2 * m + 1) == x % 2 + 2 * BitAnd(x / 2, m)
  {
    assert (2 * m + 1) / 2 == m && (2 * m + 1) % 2 == 1;
  }

  lemma HalveModulo(x: nat, n: nat)
    requires n > 0
    ensures x % (2 * n) == x % 2 + 2 * ((x / 2) % n)
  {
    var q, r := (x / 2) / n, (x / 2) % n;
    assert q * (2 * n) == 2 * (q * n);
    ModuloUnique(x, 2 * n, q, x % 2 + 2 * r);
  }

  lemma ModuloUnique(x: int, n: int, q: int, r: int)
    requires n > 0 && x == q * n + r && 0 <= r < n
    ensures x % n == r
  {
    assert (x / n - q) * n == r - x % n;
    OnlyZeroMultiple(x / n - q, n);
  }

  lemma OnlyZeroMultiple(d: int, n: int)
    requires n > 0 && -n < d * n < n
    ensures d == 0
  {
    if d >= 1 {
      AtLeastOneMultiple(d, n);
    } else if d <= -1 {
      AtLeastOneMultiple(-d, n);
    }
  }

  lemma AtLeastOneMultiple(d: int, n: int)
    requires d >= 1 && n >= 1
    ensures d * n >= n
  {
    assert (d - 1) * n >= 0;
  }

  /** Indices less than a lap apart never share a slot. */
  lemma SlotsApart(i: int, j: int, n: int)
    requires n > 0 && i < j < i + n
    ensures i % n != j % n
  {
    if i % n == j % n {
      assert (j / n - i / n) * n == j - i;
      OnlyZeroMultiple(j / n - i / n, n);
    }
  }

  datatype Ring<E> = Ring(logSize: nat, slots: seq<E>) {

    ghost predicate Valid() {
      |slots| == Pow2(logSize)
    }

    function Size(): nat {
      |slots|
    }

    /** `idx & arr->mask` */
    function Slot(i: nat): (slot: nat)
      requires Valid()
      ensures slot == i % Size() < |slots|
    {
      MaskIsModulo(i, logSize);
      BitAnd(i, |slots| - 1)
    }

    function Get(i: nat): E
      requires Valid()
    {
      slots[Slot(i)]
    }

    function Set(i: nat, e: E): (r: Ring<E>)
      requires Valid()
      ensures r.Valid() && r.Size() == Size() && r.Get(i) == e
      ensures forall j: nat | i < j < i + Size() || j < i < j + Size() :: r.Get(j) == Get(j)
    {
      var r := this.(slots := slots[Slot(i) := e]);
      assert forall j: nat | i < j < i + Size() || j < i < j + Size() :: r.Get(j) == Get(j) by {
        forall j: nat | i < j < i + Size() || j < i < j + Size() ensures r.Get(j) == Get(j) {
          if i < j { SlotsApart(i, j, Size()); } else { SlotsApart(j, i, Size()); }
        }
      }
      r
    }
  }

  /** circular_array_new: the contents are whatever malloc returned. */
  function NewRing<E>(logSize: nat, garbage: E): (r: Ring<E>)
    ensures r.Valid() && r.Size() == Pow2(logSize)
  {
    Ring(logSize, seq(Pow2(logSize), _ => garbage))
  }
}
