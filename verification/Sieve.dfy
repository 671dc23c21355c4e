/** The prime sieve of `bench/internet_bench/handler_sieve/main.c`: one nested handler per prime found.
    A coroutine is the tree of what it does next: it returns a result, or asks whether a number is
    prime and goes on with the answer.
  */
module Sieve {
  import CircularArrays

  type Pos = p: nat | p > 0 witness 1

  datatype Computation =
    | Return(result: int)
    | Perform(e: nat, ifTrue: Computation, ifFalse: Computation)

  /** `handle_prime`: answers no for multiples of `i` and passes every other question on, with itself
      around what follows. */
  function HandlePrime(k: Computation, i: Pos): Computation {
    match k
    case Return(result) => Return(result)
    case Perform(e, t, f) =>
      if e % i == 0 then HandlePrime(f, i)
      else Perform(e, HandlePrime(t, i), HandlePrime(f, i))
  }

  /** `handle_toplevel`: answers yes. */
  function HandleToplevel(k: Computation): int {
    match k
    case Return(result) => result
    case Perform(_, t, _) => HandleToplevel(t)
  }

  method RunToplevel(k: Computation) returns (result: int)
    ensures result == HandleToplevel(k)
  {
    var req := k;
    result := 0;
    var done := false;
    while !done
      invariant done ==> result == HandleToplevel(k)
      invariant !done ==> HandleToplevel(req) == HandleToplevel(k)
      decreases !done, req
    {
      match req {
        case Perform(_, t, _) => req := t;
        case Return(r) =>
          done := true;
          result := r;
      }
    }
  }

  /** `primes` */
  function Primes(i: Pos, n: int, a: int): Computation
    decreases n - i
  {
    if i >= n then Return(a)
    else Perform(i, HandlePrime(Primes(i + 1, n, a + i), i), Primes(i + 1, n, a))
  }

  // ----- what it computes -----

  predicate Divides(d: Pos, m: nat) {
    m % d == 0
  }

  ghost predicate Prime(m: nat) {
    m >= 2 && forall d | 2 <= d < m :: !Divides(d, m)
  }

  /** The sum of the primes from `i` on below `n`. */
  ghost function SumOfPrimes(i: Pos, n: int): int
    decreases n - i
  {
    if i >= n then 0 else (if Prime(i) then i else 0) + SumOfPrimes(i + 1, n)
  }

  // ----- stacks of handlers -----

  /** A computation under the handlers of `ps`, the last one innermost. */
  function Under(k: Computation, ps: seq<Pos>): Computation
    decreases |ps|
  {
    if ps == [] then k else Under(HandlePrime(k, ps[|ps| - 1]), ps[..|ps| - 1])
  }

  predicate SomeDivides(ps: seq<Pos>, e: nat) {
    exists p | p in ps :: Divides(p, e)
  }

  /** A question gets through a stack of handlers exactly when none of their numbers divides it;
      otherwise the computation goes on with the answer no.  Either way the stack stays. */
  lemma {:induction false} QuestionUnder(e: nat, t: Computation, f: Computation, ps: seq<Pos>)
    ensures Under(Perform(e, t, f), ps) ==
      if SomeDivides(ps, e) then Under(f, ps) else Perform(e, Under(t, ps), Under(f, ps))
    decreases |ps|
  {
    if ps == [] {
    } else {
      var p, rest := ps[|ps| - 1], ps[..|ps| - 1];
      assert ps == rest + [p];
      if !Divides(p, e) {
        QuestionUnder(e, HandlePrime(t, p), HandlePrime(f, p), rest);
      }
    }
  }

  lemma {:induction false} ReturnUnder(result: int, ps: seq<Pos>)
    ensures Under(Return(result), ps) == Return(result)
    decreases |ps|
  {
    if ps == [] {
    } else {
      ReturnUnder(result, ps[..|ps| - 1]);
    }
  }

  /** `ps` are exactly the primes below `i`. */
  ghost predicate PrimesBelow(ps: seq<Pos>, i: nat) {
    forall m: Pos :: m in ps <==> Prime(m) && m < i
  }

  lemma DividesTransitively(a: Pos, b: Pos, c: nat)
    requires Divides(a, b) && Divides(b, c)
    ensures Divides(a, c)
  {
    var x, y := b / a, c / b;
    assert c == b * y == (a * x) * y == a * (x * y);
    MultipleIsDivided(a, x * y);
  }

  lemma MultipleIsDivided(a: Pos, k: nat)
    ensures Divides(a, a * k)
  {
    var d := k - (a * k) / a;
    assert d * a == (a * k) % a;
    CircularArrays.OnlyZeroMultiple(d, a);
  }

  /** Every number from 2 on has a prime divisor. */
  lemma {:induction false} HasPrimeDivisor(m: nat) returns (p: Pos)
    requires m >= 2
    ensures Prime(p) && p <= m && Divides(p, m)
  {
    if Prime(m) {
      p := m;
    } else {
      var d :| 2 <= d < m && Divides(d, m);
      p := HasPrimeDivisor(d);
      DividesTransitively(p, d, m);
    }
  }

  /** A number is prime exactly when no smaller prime divides it. */
  lemma PrimeIff(ps: seq<Pos>, i: Pos)
    requires i >= 2 && PrimesBelow(ps, i)
    ensures Prime(i) <==> !SomeDivides(ps, i)
  {
    if !Prime(i) {
      var d :| 2 <= d < i && Divides(d, i);
      var p := HasPrimeDivisor(d);
      DividesTransitively(p, d, i);
      assert p in ps;
    }
  }

  /** Under handlers for exactly the primes found so far, the rest of the search adds exactly the
      primes still to come. */
  lemma {:induction false} SearchUnder(i: Pos, n: int, a: int, ps: seq<Pos>)
    requires i >= 2 && PrimesBelow(ps, i)
    ensures HandleToplevel(Under(Primes(i, n, a), ps)) == a + SumOfPrimes(i, n)
    decreases n - i
  {
    if i >= n {
      ReturnUnder(a, ps);
    } else {
      var found, other := HandlePrime(Primes(i + 1, n, a + i), i), Primes(i + 1, n, a);
      QuestionUnder(i, found, other, ps);
      PrimeIff(ps, i);
      if Prime(i) {
        var more := ps + [i];
        assert more[..|ps|] == ps;
        SearchUnder(i + 1, n, a + i, more);
      } else {
        SearchUnder(i + 1, n, a, ps);
      }
    }
  }

  /** `run`: the result is the sum of all primes below `n`. */
  method Run(n: int) returns (result: int)
    ensures result == SumOfPrimes(2, n)
  {
    var k := Primes(2, n, 0);
    result := RunToplevel(k);
    SearchUnder(2, n, 0, []);
  }

  /** The sum is that of the increasing list of exactly those primes. */
  lemma {:induction false} SumIsOverPrimes(i: Pos, n: int, ps: seq<Pos>)
    requires forall j, k | 0 <= j < k < |ps| :: ps[j] < ps[k]
    requires forall m: Pos :: m in ps <==> Prime(m) && i <= m < n
    ensures SumOfPrimes(i, n) == Sum(ps)
    decreases n - i
  {
    if i < n && Prime(i) {
      FirstIsLeast(ps, i, n);
      SumIsOverPrimes(i + 1, n, ps[1..]);
    } else if i < n {
      SumIsOverPrimes(i + 1, n, ps);
    } else {
      NoneLeft(ps, i, n);
    }
  }

  lemma NoneLeft(ps: seq<Pos>, i: Pos, n: int)
    requires forall m: Pos | m in ps :: i <= m < n
    requires i >= n
    ensures ps == []
  {
    if ps != [] {
      var p := SomeMember(ps);
      assert false;
    }
  }

  lemma SomeMember(ps: seq<Pos>) returns (p: Pos)
    requires ps != []
    ensures p in ps
  {
    p := ps[0];
  }

  lemma FirstIsLeast(ps: seq<Pos>, i: Pos, n: int)
    requires forall j, k | 0 <= j < k < |ps| :: ps[j] < ps[k]
    requires (forall m: Pos :: m in ps <==> Prime(m) && i <= m < n) && Prime(i) && i < n
    ensures ps != [] && ps[0] == i && forall m: Pos :: m in ps[1..] <==> Prime(m) && i + 1 <= m < n
  {
    assert i in ps;
    var k :| 0 <= k < |ps| && ps[k] == i;
    assert ps[0] in ps;
    assert forall j | 0 <= j < |ps[1..]| :: ps[1..][j] == ps[j + 1] && ps[j + 1] > ps[0];
    forall m: Pos ensures m in ps[1..] <==> Prime(m) && i + 1 <= m < n {
      if m in ps && m != i {
        var j :| 0 <= j < |ps| && ps[j] == m;
        assert ps[1..][j - 1] == m;
      }
    }
  }

  function Sum(xs: seq<Pos>): int {
    if xs == [] then 0 else xs[0] + Sum(xs[1..])
  }
}
