/** What several modules share: optional values, lists without repetitions, and sums. */
module Options {
  datatype Option<+T> = None | Some(value: T)
}

module Sequences {

  function One(b: bool): nat { if b then 1 else 0 }

  ghost predicate Distinct<T>(xs: seq<T>) {
    forall i, j | 0 <= i < j < |xs| :: xs[i] != xs[j]
  }

  /** How often `x` occurs. */
  ghost function Among<T>(xs: seq<T>, x: T): nat { multiset(xs)[x] }

  lemma AmongAppend<T>(xs: seq<T>, e: T, x: T)
    ensures Among(xs + [e], x) == Among(xs, x) + One(e == x)
  {
  }

  lemma AmongFirst<T>(xs: seq<T>, x: T)
    requires xs != []
    ensures Among(xs, x) == One(xs[0] == x) + Among(xs[1..], x)
  {
    assert xs == [xs[0]] + xs[1..];
  }

  lemma SameElementsDistinct<T>(xs: seq<T>, ys: seq<T>)
    requires multiset(xs) == multiset(ys) && Distinct(xs)
    ensures Distinct(ys)
  {
    forall i, j | 0 <= i < j < |ys| ensures ys[i] != ys[j] {
      if ys[i] == ys[j] {
        RepeatCounts(ys, i, j);
        NoRepeatCounts(xs, ys[i]);
      }
    }
  }

  lemma RepeatCounts<T>(ys: seq<T>, i: nat, j: nat)
    requires i < j < |ys| && ys[i] == ys[j]
    ensures Among(ys, ys[i]) >= 2
  {
    assert ys == ys[..i] + [ys[i]] + ys[i + 1..j] + [ys[j]] + ys[j + 1..];
  }

  lemma {:induction false} NoRepeatCounts<T>(xs: seq<T>, x: T)
    requires Distinct(xs)
    ensures Among(xs, x) <= 1
    decreases |xs|
  {
    if xs == [] {
    } else {
      AmongFirst(xs, x);
      NoRepeatCounts(xs[1..], x);
      assert xs[0] !in xs[1..];
    }
  }

  /** Two balances, one after the other: what is there and comes in is what goes out and is there then. */
  lemma Chained<T>(
      before: seq<T>, ins: seq<T>, outs: seq<T>, between: seq<T>, later: seq<T>, laterOut: seq<T>, after: seq<T>)
    requires before + ins == outs + between && between + later == laterOut + after
    ensures before + (ins + later) == (outs + laterOut) + after
  {
    calc {
      before + (ins + later);
      before + ins + later;
      outs + (between + later);
      (outs + laterOut) + after;
    }
  }
}

module Sums {

  function Total<T>(xs: seq<T>, w: T -> nat): nat {
    if xs == [] then 0 else w(xs[0]) + Total(xs[1..], w)
  }

  lemma {:induction false} TotalUpdate<T>(xs: seq<T>, i: nat, x: T, w: T -> nat)
    requires i < |xs|
    ensures Total(xs[i := x], w) + w(xs[i]) == Total(xs, w) + w(x)
  {
    if i == 0 {
      assert xs[i := x][1..] == xs[1..];
    } else {
      assert xs[i := x][1..] == xs[1..][i - 1 := x];
      TotalUpdate(xs[1..], i - 1, x, w);
    }
  }

  lemma {:induction false} TotalConcat<T>(xs: seq<T>, ys: seq<T>, w: T -> nat)
    ensures Total(xs + ys, w) == Total(xs, w) + Total(ys, w)
  {
    if xs == [] {
      assert xs + ys == ys;
    } else {
      assert (xs + ys)[1..] == xs[1..] + ys;
      TotalConcat(xs[1..], ys, w);
    }
  }

  lemma TotalHead<T>(xs: seq<T>, w: T -> nat)
    requires xs != []
    ensures Total(xs, w) == w(xs[0]) + Total(xs[1..], w)
  {
  }

  lemma TotalOne<T>(x: T, w: T -> nat)
    ensures Total([x], w) == w(x)
  {
    assert [x][1..] == [];
    assert Total([x][1..], w) == 0;
  }

  lemma {:induction false} TotalZero<T>(xs: seq<T>, w: T -> nat)
    requires forall i | 0 <= i < |xs| :: w(xs[i]) == 0
    ensures Total(xs, w) == 0
  {
    if xs == [] {
    } else {
      TotalZero(xs[1..], w);
    }
  }

  lemma {:induction false} TotalPositive<T>(xs: seq<T>, w: T -> nat)
    ensures forall x | x in xs :: w(x) <= Total(xs, w)
  {
    if xs == [] {
    } else {
      TotalPositive(xs[1..], w);
    }
  }

  lemma {:induction false} SomePositive<T>(xs: seq<T>, w: T -> nat) returns (i: nat)
    requires Total(xs, w) > 0
    ensures i < |xs| && w(xs[i]) > 0
  {
    if w(xs[0]) > 0 {
      i := 0;
    } else {
      i := SomePositive(xs[1..], w);
      i := i + 1;
    }
  }

  lemma {:induction false} SomeZero<T>(xs: seq<T>, w: T -> nat) returns (i: nat)
    requires Total(xs, w) < |xs|
    ensures i < |xs| && w(xs[i]) == 0
  {
    if w(xs[0]) == 0 {
      i := 0;
    } else {
      i := SomeZero(xs[1..], w);
      i := i + 1;
    }
  }

  lemma {:induction false} AllOnes<T>(xs: seq<T>, w: T -> nat)
    requires forall x | x in xs :: w(x) <= 1
    ensures Total(xs, w) <= |xs|
    ensures Total(xs, w) == |xs| ==> forall x | x in xs :: w(x) == 1
  {
    if xs == [] {
    } else {
      AllOnes(xs[1..], w);
    }
  }

  lemma {:induction false} SameTotals<T>(xs: seq<T>, v: T -> nat, w: T -> nat)
    requires forall x | x in xs :: v(x) == w(x)
    ensures Total(xs, v) == Total(xs, w)
  {
    if xs == [] {
    } else {
      SameTotals(xs[1..], v, w);
    }
  }
}
