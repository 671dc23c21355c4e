/** Reverse-mode automatic differentiation as an effect handler (`tests/ad.c`), over exact reals.
    A coroutine performs a straight-line list of operations; the handler runs the rest of the
    coroutine inside its own activation and adds up adjoints while its activations unwind.
  */
module AutoDiff {

  /** The operations a program performs.  Arguments are earlier results, by position. */
  datatype Instr = Const(c: real) | Neg(a: nat) | Add(a: nat, b: nat) | Mul(a: nat, b: nat)

  type Program = seq<Instr>

  predicate InScope(i: Instr, n: nat) {
    match i
    case Const(_) => true
    case Neg(a) => a < n
    case Add(a, b) => a < n && b < n
    case Mul(a, b) => a < n && b < n
  }

  /** Every operation uses results that exist when it is performed. */
  predicate Scoped(p: Program, n: nat)
    decreases |p|
  {
    p == [] || (InScope(p[0], n) && Scoped(p[1..], n + 1))
  }

  // ----- values and tangents -----

  function Value(i: Instr, env: seq<real>): real
    requires InScope(i, |env|)
  {
    match i
    case Const(c) => c
    case Neg(a) => -env[a]
    case Add(a, b) => env[a] + env[b]
    case Mul(a, b) => env[a] * env[b]
  }

  /** All results of running `p` after `env`. */
  function Run(p: Program, env: seq<real>): (r: seq<real>)
    requires Scoped(p, |env|)
    ensures |r| == |env| + |p|
    decreases |p|
  {
    if p == [] then env else Run(p[1..], env + [Value(p[0], env)])
  }

  /** The change of one result when the variables change in direction `t`. */
  function Tangent(i: Instr, env: seq<real>, t: seq<real>): real
    requires InScope(i, |env|) && |t| == |env|
  {
    match i
    case Const(_) => 0.0
    case Neg(a) => -t[a]
    case Add(a, b) => t[a] + t[b]
    case Mul(a, b) => env[b] * t[a] + env[a] * t[b]
  }

  function Tangents(p: Program, env: seq<real>, t: seq<real>): (r: seq<real>)
    requires Scoped(p, |env|) && |t| == |env|
    ensures |r| == |env| + |p|
    decreases |p|
  {
    if p == [] then t
    else Tangents(p[1..], env + [Value(p[0], env)], t + [Tangent(p[0], env, t)])
  }

  function Unit(n: nat, i: nat): (u: seq<real>)
    ensures |u| == n
  {
    seq(n, j => if j == i then 1.0 else 0.0)
  }

  /** The partial derivative of result `res` by variable `i`. */
  function Partial(p: Program, env: seq<real>, res: nat, i: nat): real
    requires Scoped(p, |env|) && res < |env| + |p|
  {
    Tangents(p, env, Unit(|env|, i))[res]
  }

  // ----- tangents are derivatives -----

  function Abs(x: real): (a: real)
    ensures a >= 0.0
  {
    if x < 0.0 then -x else x
  }

  function Square(h: real): (q: real)
    ensures q >= 0.0
  {
    h * h
  }

  /** The variables moved by `h` in direction `t`. */
  function Shift(env: seq<real>, t: seq<real>, h: real): (moved: seq<real>)
    requires |t| == |env|
    ensures |moved| == |env|
  {
    seq(|env|, j requires 0 <= j < |env| => env[j] + h * t[j])
  }

  /** `m` is `x` moved by `h` times `t`, up to `k` times the square of `h`. */
  ghost predicate Near(x: real, t: real, m: real, h: real, k: real) {
    Abs(m - x - h * t) <= k * Square(h)
  }

  ghost predicate SecondOrder(env: seq<real>, t: seq<real>, moved: seq<real>, h: real, k: real) {
    && |t| == |env| == |moved|
    && forall j | 0 <= j < |env| :: Near(env[j], t[j], moved[j], h, k)
  }

  function StepBound(i: Instr, env: seq<real>, t: seq<real>, k: real): real
    requires InScope(i, |env|) && |t| == |env|
  {
    match i
    case Const(_) => k
    case Neg(_) => k
    case Add(_, _) => k + k
    case Mul(a, b) => MulBound(env[a], env[b], t[a], t[b], k)
  }

  function MulBound(x: real, y: real, tx: real, ty: real, k: real): real {
    k + Abs(tx * ty) + k * (Abs(x) + Abs(y) + Abs(tx) + Abs(ty) + k)
  }

  /** A constant for the remainder, computed from the point and the direction alone. */
  function Bound(p: Program, env: seq<real>, t: seq<real>, k: real): real
    requires Scoped(p, |env|) && |t| == |env|
    decreases |p|
  {
    if p == [] then k
    else Bound(p[1..], env + [Value(p[0], env)], t + [Tangent(p[0], env, t)], StepBound(p[0], env, t, k))
  }

  // The product rule with remainders, in steps small enough for non-linear arithmetic.

  lemma AbsMul(x: real, y: real)
    ensures Abs(x * y) == Abs(x) * Abs(y)
  {
  }

  lemma LessTimes(a: real, b: real, c: real)
    requires a <= b && c >= 0.0
    ensures a * c <= b * c
  {
  }

  lemma AbsGrow(q: real, z: real)
    requires q >= 0.0
    ensures Abs(q * z) == q * Abs(z)
  {
  }

  lemma AbsScale(x: real, r: real, b: real)
    requires Abs(r) <= b
    ensures Abs(x * r) <= Abs(x) * b
  {
    AbsMul(x, r);
    LessTimes(Abs(r), b, Abs(x));
  }

  lemma ShrinkTimes(a: real, c: real)
    requires a <= 1.0 && c >= 0.0
    ensures a * c <= c
  {
  }

  lemma AbsAtMost(h: real, z: real, b: real)
    requires Abs(h) <= 1.0 && Abs(z) <= b
    ensures Abs(h * z) <= b
  {
    hide Abs;
    AbsMul(h, z);
    ShrinkTimes(Abs(h), Abs(z));
  }

  lemma AbsShrink(h: real, x: real, r: real, b: real)
    requires Abs(h) <= 1.0 && Abs(r) <= b
    ensures Abs(h * (x * r)) <= Abs(x) * b
  {
    AbsScale(x, r, b);
    AbsAtMost(h, x * r, Abs(x) * b);
  }

  lemma AbsProduct(x: real, y: real, b: real)
    requires Abs(x) <= b && Abs(y) <= b
    ensures Abs(x * y) <= b * b
  {
    hide Abs;
    AbsScale(x, y, b);
    LessTimes(Abs(x), b, b);
  }

  lemma AbsSum(a: real, b: real, c: real, d: real, e: real, f: real,
               a': real, b': real, c': real, d': real, e': real, f': real)
    requires Abs(a) <= a' && Abs(b) <= b' && Abs(c) <= c' && Abs(d) <= d' && Abs(e) <= e' && Abs(f) <= f'
    ensures Abs(a + b + c + d + e + f) <= a' + b' + c' + d' + e' + f'
  {
  }

  lemma ProductExpands(x: real, y: real, tx: real, ty: real, rx: real, ry: real, h: real)
    ensures (x + h * tx + rx) * (y + h * ty + ry) - x * y - h * (y * tx + x * ty)
         == Square(h) * (tx * ty) + x * ry + y * rx + h * (tx * ry) + h * (ty * rx) + rx * ry
  {
  }

  lemma RemainderTerms(x: real, y: real, tx: real, ty: real, rx: real, ry: real, h: real, q: real, m: real, b: real)
    requires Abs(h) <= 1.0 && Abs(rx) <= b && Abs(ry) <= b && q >= 0.0
    ensures Abs(q * m + x * ry + y * rx + h * (tx * ry) + h * (ty * rx) + rx * ry)
         <= q * Abs(m) + Abs(x) * b + Abs(y) * b + Abs(tx) * b + Abs(ty) * b + b * b
  {
    hide Abs;
    AbsGrow(q, m);
    AbsScale(x, ry, b);
    AbsScale(y, rx, b);
    AbsShrink(h, tx, ry, b);
    AbsShrink(h, ty, rx, b);
    AbsProduct(rx, ry, b);
    AbsSum(q * m, x * ry, y * rx, h * (tx * ry), h * (ty * rx), rx * ry,
           q * Abs(m), Abs(x) * b, Abs(y) * b, Abs(tx) * b, Abs(ty) * b, b * b);
  }

  lemma ProductRemainder(x: real, y: real, tx: real, ty: real, rx: real, ry: real,
                         h: real, q: real, k: real, b: real)
    requires Abs(h) <= 1.0 && q == Square(h) && 0.0 <= b <= k
    requires Abs(rx) <= b && Abs(ry) <= b
    ensures Abs((x + h * tx + rx) * (y + h * ty + ry) - x * y - h * (y * tx + x * ty))
         <= q * Abs(tx * ty) + Abs(x) * b + Abs(y) * b + Abs(tx) * b + Abs(ty) * b + k * b
  {
    hide Abs, Square;
    ProductExpands(x, y, tx, ty, rx, ry, h);
    RemainderTerms(x, y, tx, ty, rx, ry, h, q, tx * ty, b);
    LessTimes(b, k, b);
  }

  lemma SquareAtMostOne(h: real)
    requires Abs(h) <= 1.0
    ensures Square(h) <= 1.0
  {
    AbsMul(h, h);
    LessTimes(Abs(h), 1.0, Abs(h));
  }

  lemma Distribute(c: real, x: real, y: real, tx: real, ty: real, k: real, q: real)
    ensures (k + c + k * (x + y + tx + ty + k)) * q
         == k * q + q * c + x * (k * q) + y * (k * q) + tx * (k * q) + ty * (k * q) + k * (k * q)
  {
  }

  lemma MulRemainder(x: real, y: real, tx: real, ty: real, rx: real, ry: real, r: real, h: real, k: real, q: real)
    requires Abs(h) <= 1.0 && k >= 0.0 && 0.0 <= q == Square(h) <= 1.0
    requires Abs(rx) <= k * q && Abs(ry) <= k * q
    requires r == (x + h * tx + rx) * (y + h * ty + ry) - x * y - h * (y * tx + x * ty)
    ensures k <= MulBound(x, y, tx, ty, k)
    ensures Abs(r) <= MulBound(x, y, tx, ty, k) * q
  {
    hide Abs, Square;
    assert 0.0 <= k * q <= k by { LessTimes(q, 1.0, k); LessTimes(0.0, k, q); }
    ProductRemainder(x, y, tx, ty, rx, ry, h, q, k, k * q);
    Distribute(Abs(tx * ty), Abs(x), Abs(y), Abs(tx), Abs(ty), k, q);
    LessTimes(0.0, Abs(x) + Abs(y) + Abs(tx) + Abs(ty) + k, k);
  }

  lemma NearConst(c: real, h: real, k: real)
    requires k >= 0.0
    ensures Near(c, 0.0, c, h, k)
  {
    LessTimes(0.0, k, Square(h));
    hide Square;
  }

  lemma NearNeg(x: real, tx: real, mx: real, h: real, k: real)
    requires Near(x, tx, mx, h, k)
    ensures Near(-x, -tx, -mx, h, k)
  {
    hide Square;
    assert -mx - -x - h * -tx == -(mx - x - h * tx);
  }

  lemma NearAdd(x: real, y: real, tx: real, ty: real, mx: real, my: real, h: real, k: real)
    requires Near(x, tx, mx, h, k) && Near(y, ty, my, h, k)
    ensures Near(x + y, tx + ty, mx + my, h, k + k)
  {
    hide Square;
    assert mx + my - (x + y) - h * (tx + ty) == (mx - x - h * tx) + (my - y - h * ty);
  }

  lemma NearMeans(x: real, t: real, m: real, h: real, k: real, q: real, r: real)
    requires q == Square(h) && m == x + h * t + r
    ensures Near(x, t, m, h, k) <==> Abs(r) <= k * q
  {
    hide Abs, Square;
  }

  lemma NearMul(x: real, y: real, tx: real, ty: real, mx: real, my: real, v: real, tv: real, mv: real, h: real, k: real)
    requires Near(x, tx, mx, h, k) && Near(y, ty, my, h, k) && Abs(h) <= 1.0 && k >= 0.0
    requires v == x * y && tv == y * tx + x * ty && mv == mx * my
    ensures Near(v, tv, mv, h, MulBound(x, y, tx, ty, k))
    ensures k <= MulBound(x, y, tx, ty, k)
  {
    SquareAtMostOne(h);
    hide Square, Abs, MulBound, Near;
    NearProduct(x, y, tx, ty, mx, my, mx - x - h * tx, my - y - h * ty, v, tv, mv, mv - v - h * tv, h, k, Square(h));
  }

  lemma NearProduct(x: real, y: real, tx: real, ty: real, mx: real, my: real, rx: real, ry: real,
                    v: real, tv: real, mv: real, r: real, h: real, k: real, q: real)
    requires Near(x, tx, mx, h, k) && Near(y, ty, my, h, k) && Abs(h) <= 1.0 && k >= 0.0
    requires v == x * y && tv == y * tx + x * ty && mv == mx * my && 0.0 <= q == Square(h) <= 1.0
    requires mx == x + h * tx + rx && my == y + h * ty + ry && mv == v + h * tv + r
    ensures Near(v, tv, mv, h, MulBound(x, y, tx, ty, k))
    ensures k <= MulBound(x, y, tx, ty, k)
  {
    hide Square, Abs, MulBound, Near;
    NearMeans(x, tx, mx, h, k, q, rx);
    NearMeans(y, ty, my, h, k, q, ry);
    NearMeans(v, tv, mv, h, MulBound(x, y, tx, ty, k), q, r);
    MulRemainder(x, y, tx, ty, rx, ry, r, h, k, q);
  }

  lemma NearLoosely(x: real, t: real, m: real, h: real, k: real, k': real)
    requires Near(x, t, m, h, k) && k <= k'
    ensures Near(x, t, m, h, k')
  {
    hide Abs, Square;
    LessTimes(k, k', Square(h));
  }

  /** One operation keeps second-order approximations second-order. */
  lemma StepNear(i: Instr, env: seq<real>, t: seq<real>, moved: seq<real>, h: real, k: real)
    requires InScope(i, |env|) && SecondOrder(env, t, moved, h, k) && Abs(h) <= 1.0 && k >= 0.0
    ensures k <= StepBound(i, env, t, k)
    ensures Near(Value(i, env), Tangent(i, env, t), Value(i, moved), h, StepBound(i, env, t, k))
  {
    hide Near, Abs, MulBound;
    match i
    case Const(c) => NearConst(c, h, k);
    case Neg(a) => NearNeg(env[a], t[a], moved[a], h, k);
    case Add(a, b) => NearAdd(env[a], env[b], t[a], t[b], moved[a], moved[b], h, k);
    case Mul(a, b) =>
      NearMul(env[a], env[b], t[a], t[b], moved[a], moved[b], Value(i, env), Tangent(i, env, t), Value(i, moved), h, k);
  }

  lemma {:induction false} RunSecondOrder(p: Program, env: seq<real>, t: seq<real>, moved: seq<real>, h: real, k: real)
    requires Scoped(p, |env|) && SecondOrder(env, t, moved, h, k) && Abs(h) <= 1.0 && k >= 0.0
    ensures SecondOrder(Run(p, env), Tangents(p, env, t), Run(p, moved), h, Bound(p, env, t, k))
    decreases |p|
  {
    hide Near, Abs, StepBound, Value, Tangent, InScope;
    if p == [] {
    } else {
      var k' := StepBound(p[0], env, t, k);
      StepNear(p[0], env, t, moved, h, k);
      forall j | 0 <= j < |env| ensures Near(env[j], t[j], moved[j], h, k') {
        NearLoosely(env[j], t[j], moved[j], h, k, k');
      }
      RunSecondOrder(p[1..], env + [Value(p[0], env)], t + [Tangent(p[0], env, t)],
                     moved + [Value(p[0], moved)], h, k');
    }
  }

  lemma NearShift(x: real, t: real, m: real, h: real)
    requires m == x + h * t
    ensures Near(x, t, m, h, 0.0)
  {
    hide Square;
  }

  lemma ShiftIsNear(env: seq<real>, t: seq<real>, h: real, j: nat)
    requires |t| == |env| && j < |env|
    ensures Near(env[j], t[j], Shift(env, t, h)[j], h, 0.0)
  {
    hide Near;
    NearShift(env[j], t[j], Shift(env, t, h)[j], h);
  }

  lemma ShiftIsSecondOrder(env: seq<real>, t: seq<real>, h: real)
    requires |t| == |env|
    ensures SecondOrder(env, t, Shift(env, t, h), h, 0.0)
  {
    hide Near, Shift;
    forall j | 0 <= j < |env| ensures Near(env[j], t[j], Shift(env, t, h)[j], h, 0.0) {
      ShiftIsNear(env, t, h, j);
    }
  }

  lemma SecondOrderAt(env: seq<real>, t: seq<real>, moved: seq<real>, h: real, k: real, j: nat)
    requires SecondOrder(env, t, moved, h, k) && j < |env|
    ensures Near(env[j], t[j], moved[j], h, k)
  {
    hide Near;
  }

  /** Tangents are directional derivatives: moving the variables by `h` in direction `t` changes
      every result by `h` times its tangent, up to a constant times the square of `h`. */
  lemma TangentIsDerivative(p: Program, env: seq<real>, t: seq<real>, res: nat, h: real)
    requires Scoped(p, |env|) && |t| == |env| && res < |env| + |p| && Abs(h) <= 1.0
    ensures Near(Run(p, env)[res], Tangents(p, env, t)[res], Run(p, Shift(env, t, h))[res], h, Bound(p, env, t, 0.0))
  {
    hide Abs, Bound, Scoped, Run, Tangents, Near, Shift, SecondOrder;
    ShiftIsSecondOrder(env, t, h);
    RunSecondOrder(p, env, t, Shift(env, t, h), h, 0.0);
    SecondOrderAt(Run(p, env), Tangents(p, env, t), Run(p, Shift(env, t, h)), h, Bound(p, env, t, 0.0), res);
  }

  // ----- tangents are linear, hence the chain rule -----

  function Axpy(c: real, u: real, t: real): real {
    t + c * u
  }

  function Combine(t: seq<real>, u: seq<real>, c: real): (r: seq<real>)
    requires |t| == |u|
    ensures |r| == |t|
  {
    seq(|t|, j requires 0 <= j < |t| => Axpy(c, u[j], t[j]))
  }

  lemma NegLinear(tx: real, ux: real, c: real)
    ensures -Axpy(c, ux, tx) == Axpy(c, -ux, -tx)
  {
  }

  lemma AddLinear(tx: real, ty: real, ux: real, uy: real, c: real)
    ensures Axpy(c, ux, tx) + Axpy(c, uy, ty) == Axpy(c, ux + uy, tx + ty)
  {
  }

  lemma MulLinear(x: real, y: real, tx: real, ty: real, ux: real, uy: real, c: real)
    ensures y * Axpy(c, ux, tx) + x * Axpy(c, uy, ty) == Axpy(c, y * ux + x * uy, y * tx + x * ty)
  {
  }

  lemma TangentLinear(i: Instr, env: seq<real>, t: seq<real>, u: seq<real>, c: real)
    requires InScope(i, |env|) && |t| == |u| == |env|
    ensures Tangent(i, env, Combine(t, u, c)) == Axpy(c, Tangent(i, env, u), Tangent(i, env, t))
  {
    match i
    case Const(_) =>
    case Neg(a) =>
      NegLinear(t[a], u[a], c);
    case Add(a, b) =>
      hide Axpy;
      AddLinear(t[a], t[b], u[a], u[b], c);
    case Mul(a, b) =>
      hide Axpy;
      MulLinear(env[a], env[b], t[a], t[b], u[a], u[b], c);
  }

  lemma {:induction false} TangentsLinear(p: Program, env: seq<real>, t: seq<real>, u: seq<real>, c: real)
    requires Scoped(p, |env|) && |t| == |u| == |env|
    ensures Tangents(p, env, Combine(t, u, c)) == Combine(Tangents(p, env, t), Tangents(p, env, u), c)
    decreases |p|
  {
    hide Tangent, Value, Axpy;
    if p == [] {
    } else {
      var i, rest := p[0], p[1..];
      TangentLinear(i, env, t, u, c);
      var t', u' := t + [Tangent(i, env, t)], u + [Tangent(i, env, u)];
      TangentsLinear(rest, env + [Value(i, env)], t', u', c);
      assert Combine(t, u, c) + [Tangent(i, env, Combine(t, u, c))] == Combine(t', u', c);
    }
  }

  /** How strongly the result of `i` depends on variable `j`. */
  function Share(i: Instr, env: seq<real>, j: nat): real
    requires InScope(i, |env|)
  {
    Tangent(i, env, Unit(|env|, j))
  }

  lemma AxpyUnits(c: real)
    ensures Axpy(c, 1.0, 0.0) == c && Axpy(c, 0.0, 0.0) == 0.0 && Axpy(c, 0.0, 1.0) == 1.0
  {
  }

  lemma UnitsCombine(n: nat, j: nat, c: real)
    requires j < n
    ensures Unit(n, j) + [c] == Combine(Unit(n + 1, j), Unit(n + 1, n), c)
  {
    AxpyUnits(c);
    hide Axpy;
  }

  lemma TangentAt(p: Program, env: seq<real>, t: seq<real>, u: seq<real>, c: real, res: nat)
    requires Scoped(p, |env|) && |t| == |u| == |env| && res < |env| + |p|
    ensures Tangents(p, env, Combine(t, u, c))[res] == Axpy(c, Tangents(p, env, u)[res], Tangents(p, env, t)[res])
  {
    TangentsLinear(p, env, t, u, c);
    hide Axpy, Tangents, Scoped;
  }

  lemma PartialUnfolds(p: Program, env: seq<real>, res: nat, j: nat)
    requires p != [] && Scoped(p, |env|) && res < |env| + |p| && j < |env|
    ensures Partial(p, env, res, j)
         == Tangents(p[1..], env + [Value(p[0], env)], Unit(|env|, j) + [Share(p[0], env, j)])[res]
  {
    hide Value, Tangent, Unit, InScope;
  }

  lemma TangentOfUnits(p: Program, env: seq<real>, res: nat, n: nat, j: nat, c: real)
    requires |env| == n + 1 && Scoped(p, n + 1) && res < n + 1 + |p| && j < n
    ensures Tangents(p, env, Unit(n, j) + [c])[res] == Axpy(c, Partial(p, env, res, n), Partial(p, env, res, j))
  {
    hide Axpy, Combine, Unit, Tangents;
    UnitsCombine(n, j, c);
    TangentAt(p, env, Unit(n + 1, j), Unit(n + 1, n), c, res);
  }

  /** The influence of variable `j` on `res` is its influence through later operations plus its
      share in the next result times the influence of that result. */
  lemma ChainRule(p: Program, env: seq<real>, res: nat, j: nat, later: seq<real>)
    requires p != [] && Scoped(p, |env|) && res < |env| + |p| && j < |env|
    requires later == env + [Value(p[0], env)]
    ensures Partial(p, env, res, j)
         == Axpy(Share(p[0], env, j), Partial(p[1..], later, res, |env|), Partial(p[1..], later, res, j))
  {
    hide Axpy, Value, Share, Unit, Tangents, Partial, InScope;
    PartialUnfolds(p, env, res, j);
    TangentOfUnits(p[1..], later, res, |env|, j, Share(p[0], env, j));
  }

  // ----- the handler -----

  /** A `double` on the stack of one activation of the handler. */
  class Cell {
    var dv: real

    constructor ()
      ensures dv == 0.0
    {
      dv := 0.0;
    }
  }

  datatype Prop = Prop(v: real, dv: Cell)

  function Values(env: seq<Prop>): seq<real> {
    seq(|env|, j requires 0 <= j < |env| => env[j].v)
  }

  function Cells(env: seq<Prop>): set<Cell> {
    set e | e in env :: e.dv
  }

  predicate Apart(env: seq<Prop>) {
    forall j, k | 0 <= j < k < |env| :: env[j].dv != env[k].dv
  }

  /** What unwinding operation `i`, whose own adjoint is `d`, adds to the adjoint of `j`. */
  function Contribution(i: Instr, env: seq<real>, j: nat, d: real): real
    requires InScope(i, |env|)
  {
    match i
    case Const(_) => 0.0
    case Neg(a) => if j == a then -d else 0.0
    case Add(a, b) => Both(j, a, d, b, d)
    case Mul(a, b) => Both(j, a, env[b] * d, b, env[a] * d)
  }

  function Both(j: nat, a: nat, da: real, b: nat, db: real): real {
    (if j == a then da else 0.0) + (if j == b then db else 0.0)
  }

  lemma MulShare(x: real, y: real, j: nat, a: nat, b: nat, ua: real, ub: real, da: real, db: real,
                 s: real, d: real, t: real)
    requires ua == (if a == j then 1.0 else 0.0) && ub == (if b == j then 1.0 else 0.0)
    requires s == y * ua + x * ub && da == y * d && db == x * d
    ensures t + Both(j, a, da, b, db) == Axpy(s, d, t)
  {
  }

  lemma MulContribution(a: nat, b: nat, env: seq<real>, j: nat, d: real, t: real)
    requires a < |env| && b < |env| && j < |env|
    ensures t + Contribution(Mul(a, b), env, j, d) == Axpy(Share(Mul(a, b), env, j), d, t)
  {
    hide Axpy;
    var u, s := Unit(|env|, j), Share(Mul(a, b), env, j);
    MulShare(env[a], env[b], j, a, b, u[a], u[b], env[b] * d, env[a] * d, s, d, t);
  }

  lemma ContributionIsShare(i: Instr, env: seq<real>, j: nat, d: real, t: real)
    requires InScope(i, |env|) && j < |env|
    ensures t + Contribution(i, env, j, d) == Axpy(Share(i, env, j), d, t)
  {
    match i
    case Const(_) =>
    case Neg(a) =>
    case Add(a, b) =>
    case Mul(a, b) =>
      hide Axpy, Contribution, Share;
      MulContribution(a, b, env, j, d, t);
  }

  /** Two additions, one after the other: the arguments may share a cell (`x * x`). */
  method AddBoth(env: seq<Prop>, a: nat, da: real, b: nat, db: real)
    requires a < |env| && b < |env| && Apart(env)
    modifies env[a].dv, env[b].dv
    ensures forall j | 0 <= j < |env| :: env[j].dv.dv == old(env[j].dv.dv) + Both(j, a, da, b, db)
  {
    env[a].dv.dv := env[a].dv.dv + da;
    env[b].dv.dv := env[b].dv.dv + db;
  }

  method AccumulateProduct(a: nat, b: nat, env: seq<Prop>, d: real)
    requires InScope(Mul(a, b), |env|) && Apart(env)
    modifies env[a].dv, env[b].dv
    ensures forall j | 0 <= j < |env| ::
      env[j].dv.dv == old(env[j].dv.dv) + Contribution(Mul(a, b), Values(env), j, d)
  {
    AddBoth(env, a, env[b].v * d, b, env[a].v * d);
  }

  /** Adds the adjoint `d` of operation `i` to the adjoints of its arguments. */
  method Accumulate(i: Instr, env: seq<Prop>, d: real)
    requires InScope(i, |env|) && Apart(env)
    modifies Cells(env)
    ensures forall j | 0 <= j < |env| ::
      env[j].dv.dv == old(env[j].dv.dv) + Contribution(i, Values(env), j, d)
  {
    match i {
      case Const(_) =>
      case Neg(a) =>
        env[a].dv.dv := env[a].dv.dv + -d;
      case Add(a, b) =>
        hide Both;
        AddBoth(env, a, d, b, d);
      case Mul(a, b) =>
        AccumulateProduct(a, b, env, d);
    }
  }

  /** The answer of the arithmetic handler to one request. */
  method Answer(i: Instr, env: seq<real>) returns (value: real)
    requires InScope(i, |env|)
    ensures value == Value(i, env)
  {
    match i {
      case Const(c) => value := c;
      case Neg(a) => value := -env[a];
      case Add(a, b) => value := env[a] + env[b];
      case Mul(a, b) => value := env[a] * env[b];
    }
  }

  /** One activation of the recursive handler: answer the next operation, let the rest of the
      coroutine run in a deeper activation, then add this operation's adjoint to its arguments. */
  method Handle(p: Program, env: seq<Prop>, res: nat)
    requires Scoped(p, |env|) && res < |env| + |p| && Apart(env)
    requires forall j | 0 <= j < |env| :: env[j].dv.dv == 0.0
    modifies Cells(env)
    ensures forall j | 0 <= j < |env| :: env[j].dv.dv == Partial(p, Values(env), res, j)
    decreases |p|
  {
    if p == [] {
      env[res].dv.dv := 1.0;
      return;
    }
    hide Value, Partial, Contribution, Axpy, Share, Tangents, Run;
    var n, vals := |env|, Values(env);
    var v := Answer(p[0], Values(env));
    var cell := new Cell();
    var later := env + [Prop(v, cell)];
    assert Values(later) == vals + [Value(p[0], vals)];
    Handle(p[1..], later, res);
    assert later[n].dv == cell;
    forall j | 0 <= j < n
      ensures env[j].dv.dv == Partial(p[1..], Values(later), res, j)
    {
      assert later[j] == env[j];
    }
    var d := cell.dv;
    Accumulate(p[0], env, d);
    forall j | 0 <= j < n ensures env[j].dv.dv == Partial(p, vals, res, j) {
      ContributionIsShare(p[0], vals, j, d, Partial(p[1..], Values(later), res, j));
      ChainRule(p, vals, res, j, Values(later));
    }
  }

  /** The arithmetic handler alone: it answers one request after another until the computation returns. */
  method Evaluate(p: Program, start: seq<real>) returns (env: seq<real>)
    requires Scoped(p, |start|)
    ensures env == Run(p, start)
  {
    hide Value;
    env := start;
    var k := 0;
    while k < |p|
      invariant 0 <= k <= |p|
      invariant Scoped(p[k..], |env|)
      invariant Run(p, start) == Run(p[k..], env)
    {
      var value := Answer(p[k], env);
      assert p[k..][1..] == p[k + 1..];
      env := env + [value];
      k := k + 1;
    }
  }

  // ----- the example: the sum of the powers of 1 - x -----

  /** One turn of the loop: prev := prev * -(x + -1), acc := acc + prev.  `x` is result 0. */
  function Turn(n: nat, prev: nat, acc: nat): Program {
    [Const(-1.0), Add(0, n), Neg(n + 1), Mul(prev, n + 2), Add(acc, n + 3)]
  }

  /** Positions of `acc` and `prev` after `k` turns. */
  function AccAt(k: nat): nat { if k == 0 then 1 else 5 * k + 2 }
  function PrevAt(k: nat): nat { if k == 0 then 2 else 5 * k + 1 }

  function Example(iters: nat): (p: Program)
    ensures |p| == 5 * iters + 2
  {
    if iters == 0 then [Const(1.0), Const(1.0)]
    else Example(iters - 1) + Turn(5 * iters - 2, PrevAt(iters - 1), AccAt(iters - 1))
  }

  function Power(y: real, n: nat): real {
    if n == 0 then 1.0 else Power(y, n - 1) * y
  }

  /** The derivative of (1 - x)^n by x, with y = 1 - x. */
  function PowerSlope(y: real, n: nat): real {
    if n == 0 then 0.0 else -(n as real) * Power(y, n - 1)
  }

  function SumPowers(y: real, n: nat): real {
    if n == 0 then 1.0 else SumPowers(y, n - 1) + Power(y, n)
  }

  function SumSlopes(y: real, n: nat): real {
    if n == 0 then 0.0 else SumSlopes(y, n - 1) + PowerSlope(y, n)
  }

  lemma {:induction false} AppendedRuns(p: Program, q: Program, env: seq<real>, t: seq<real>)
    requires Scoped(p, |env|) && Scoped(q, |env| + |p|) && |t| == |env|
    ensures Scoped(p + q, |env|)
    ensures Run(p + q, env) == Run(q, Run(p, env))
    ensures Tangents(p + q, env, t) == Tangents(q, Run(p, env), Tangents(p, env, t))
    decreases |p|
  {
    hide Value, Tangent;
    if p == [] {
      assert p + q == q;
    } else {
      assert (p + q)[0] == p[0] && (p + q)[1..] == p[1..] + q;
      AppendedRuns(p[1..], q, env + [Value(p[0], env)], t + [Tangent(p[0], env, t)]);
    }
  }

  /** One step of `p`, for values and tangents together. */
  lemma Peel(p: Program, i: Instr, rest: Program, env: seq<real>, t: seq<real>, v: real, d: real)
    requires p == [i] + rest && InScope(i, |env|) && |t| == |env| && Scoped(rest, |env| + 1)
    requires v == Value(i, env) && d == Tangent(i, env, t)
    ensures Scoped(p, |env|)
    ensures Run(p, env) == Run(rest, env + [v])
    ensures Tangents(p, env, t) == Tangents(rest, env + [v], t + [d])
  {
    hide Value, Tangent, InScope;
    assert p[1..] == rest;
  }

  lemma PeelAdd(p: Program, a: nat, b: nat, rest: Program, env: seq<real>, t: seq<real>, v: real, d: real)
    requires a < |env| == |t| && b < |env| && p == [Add(a, b)] + rest && Scoped(rest, |env| + 1)
    requires v == env[a] + env[b] && d == t[a] + t[b]
    ensures Scoped(p, |env|)
    ensures Run(p, env) == Run(rest, env + [v])
    ensures Tangents(p, env, t) == Tangents(rest, env + [v], t + [d])
  {
    hide Run, Tangents, Scoped;
    Peel(p, Add(a, b), rest, env, t, v, d);
  }

  lemma PeelMul(p: Program, a: nat, b: nat, rest: Program, env: seq<real>, t: seq<real>,
                x: real, y: real, tx: real, ty: real, v: real, d: real)
    requires a < |env| == |t| && b < |env| && p == [Mul(a, b)] + rest && Scoped(rest, |env| + 1)
    requires env[a] == x && env[b] == y && t[a] == tx && t[b] == ty
    requires v == x * y && d == y * tx + x * ty
    ensures Scoped(p, |env|)
    ensures Run(p, env) == Run(rest, env + [v])
    ensures Tangents(p, env, t) == Tangents(rest, env + [v], t + [d])
  {
    hide Run, Tangents, Scoped;
    Peel(p, Mul(a, b), rest, env, t, v, d);
  }

  lemma PeelNeg(p: Program, a: nat, rest: Program, env: seq<real>, t: seq<real>, v: real, d: real)
    requires a < |env| == |t| && p == [Neg(a)] + rest && Scoped(rest, |env| + 1)
    requires v == -env[a] && d == -t[a]
    ensures Scoped(p, |env|)
    ensures Run(p, env) == Run(rest, env + [v])
    ensures Tangents(p, env, t) == Tangents(rest, env + [v], t + [d])
  {
    hide Run, Tangents, Scoped;
    Peel(p, Neg(a), rest, env, t, v, d);
  }

  /** `v` and `d` are the product of `w` by 1 - x = `y`, and its tangent. */
  ghost predicate Scaled(w: real, tw: real, y: real, v: real, d: real) {
    v == w * y && d == y * tw + w * -1.0
  }

  function SecondHalf(n: nat, prev: nat, acc: nat): Program {
    [Mul(prev, n + 2)] + [Add(acc, n + 3)]
  }

  lemma SecondHalfTracks(n: nat, prev: nat, acc: nat, env: seq<real>, t: seq<real>,
                         y: real, w: real, tw: real, v: real, d: real, a: real, ta: real)
    requires n + 3 == |env| == |t| && prev < n && acc < n && env[n + 2] == y && t[n + 2] == -1.0
    requires w == env[prev] && tw == t[prev] && Scaled(w, tw, y, v, d)
    requires a == env[acc] + v && ta == t[acc] + d
    ensures Scoped(SecondHalf(n, prev, acc), n + 3)
    ensures Run(SecondHalf(n, prev, acc), env) == env + [v] + [a]
    ensures Tangents(SecondHalf(n, prev, acc), env, t) == t + [d] + [ta]
  {
    var p := [Add(acc, n + 3)];
    var e, u := env + [v], t + [d];
    assert Scoped([], n + 5) && Run([], e + [a]) == e + [a] && Tangents([], e + [a], u + [ta]) == u + [ta];
    hide Run, Tangents, Scoped;
    PeelAdd(p, acc, n + 3, [], e, u, a, ta);
    PeelMul(SecondHalf(n, prev, acc), prev, n + 2, p, env, t, w, y, tw, -1.0, v, d);
  }

  function Longer(env: seq<real>, a: real, b: real, c: real): (r: seq<real>)
    ensures |r| == |env| + 3 && r[|env| + 2] == c && forall i | 0 <= i < |env| :: r[i] == env[i]
  {
    env + [a] + [b] + [c]
  }

  lemma FirstHalfTracks(n: nat, rest: Program, p: Program, env: seq<real>, t: seq<real>, x: real, y: real)
    requires 0 < n == |env| == |t| && env[0] == x && t[0] == 1.0 && y == 1.0 - x && Scoped(rest, n + 3)
    requires p == [Const(-1.0)] + ([Add(0, n)] + ([Neg(n + 1)] + rest))
    ensures Scoped(p, n)
    ensures Run(p, env) == Run(rest, Longer(env, -1.0, x - 1.0, y))
    ensures Tangents(p, env, t) == Tangents(rest, Longer(env, -1.0, x - 1.0, y), Longer(t, 0.0, 1.0, -1.0))
  {
    hide Run, Tangents, Scoped;
    var e1, t1 := env + [-1.0], t + [0.0];
    var p2 := [Neg(n + 1)] + rest;
    var p1 := [Add(0, n)] + p2;
    PeelNeg(p2, n + 1, rest, e1 + [x - 1.0], t1 + [1.0], y, -1.0);
    PeelAdd(p1, 0, n, p2, e1, t1, x - 1.0, 1.0);
    PeelConst(p, -1.0, p1, env, t);
  }

  lemma TurnTracks(n: nat, prev: nat, acc: nat, env: seq<real>, t: seq<real>,
                   x: real, y: real, w: real, tw: real, v: real, d: real)
    requires n == |env| == |t| && 0 < prev < n && 0 < acc < n && env[0] == x && t[0] == 1.0
    requires y == 1.0 - x && w == env[prev] && tw == t[prev] && Scaled(w, tw, y, v, d)
    ensures Scoped(Turn(n, prev, acc), n)
    ensures Run(Turn(n, prev, acc), env) == Longer(env, -1.0, x - 1.0, y) + [v] + [env[acc] + v]
    ensures Tangents(Turn(n, prev, acc), env, t) == Longer(t, 0.0, 1.0, -1.0) + [d] + [t[acc] + d]
  {
    hide Run, Tangents, Scoped, Scaled, Longer, Turn, SecondHalf;
    var rest, p := SecondHalf(n, prev, acc), Turn(n, prev, acc);
    TurnHasHalves(n, prev, acc);
    FirstHalfTracks(n, rest, p, env, t, x, y);
    SecondHalfTracks(n, prev, acc, Longer(env, -1.0, x - 1.0, y), Longer(t, 0.0, 1.0, -1.0),
                     y, w, tw, v, d, env[acc] + v, t[acc] + d);
  }

  lemma TurnHasHalves(n: nat, prev: nat, acc: nat)
    requires prev < n && acc < n
    ensures Turn(n, prev, acc) == [Const(-1.0)] + ([Add(0, n)] + ([Neg(n + 1)] + SecondHalf(n, prev, acc)))
    ensures Scoped(SecondHalf(n, prev, acc), n + 3)
  {
    assert SecondHalf(n, prev, acc)[1..] == [Add(acc, n + 3)];
  }

  lemma PeelConst(p: Program, c: real, rest: Program, env: seq<real>, t: seq<real>)
    requires |env| == |t| && p == [Const(c)] + rest && Scoped(rest, |env| + 1)
    ensures Scoped(p, |env|)
    ensures Run(p, env) == Run(rest, env + [c])
    ensures Tangents(p, env, t) == Tangents(rest, env + [c], t + [0.0])
  {
    hide Run, Tangents, Scoped;
    Peel(p, Const(c), rest, env, t, c, 0.0);
  }

  lemma PowerTurn(y: real, n: nat)
    ensures Power(y, n) * y == Power(y, n + 1)
    ensures y * PowerSlope(y, n) + Power(y, n) * -1.0 == PowerSlope(y, n + 1)
  {
  }

  /** After every turn the recorded values are powers of 1 - x and their sum, and the tangents
      are the derivatives of those. */
  lemma {:induction false} ExampleTracks(x: real, k: nat)
    ensures Scoped(Example(k), 1)
    ensures var e, t, y := Run(Example(k), [x]), Tangents(Example(k), [x], [1.0]), 1.0 - x;
            && e[0] == x && t[0] == 1.0
            && e[PrevAt(k)] == Power(y, k) && t[PrevAt(k)] == PowerSlope(y, k)
            && e[AccAt(k)] == SumPowers(y, k) && t[AccAt(k)] == SumSlopes(y, k)
  {
    if k == 0 {
      Peel([Const(1.0)], Const(1.0), [], [x, 1.0], [1.0, 0.0], 1.0, 0.0);
      Peel([Const(1.0), Const(1.0)], Const(1.0), [Const(1.0)], [x], [1.0], 1.0, 0.0);
    } else {
      ExampleTracks(x, k - 1);
      var p, y := Example(k - 1), 1.0 - x;
      var e, t := Run(p, [x]), Tangents(p, [x], [1.0]);
      hide Run, Tangents, Scoped, Value, Tangent, Power, PowerSlope;
      var n, prev, acc := 5 * k - 2, PrevAt(k - 1), AccAt(k - 1);
      PowerTurn(y, k - 1);
      TurnTracks(n, prev, acc, e, t, x, y, Power(y, k - 1), PowerSlope(y, k - 1), Power(y, k), PowerSlope(y, k));
      AppendedRuns(p, Turn(n, prev, acc), [x], [1.0]);
    }
  }

  /** The example's own loop: the operations it performs and the position of its result. */
  method Record(iters: nat) returns (p: Program, res: nat)
    ensures p == Example(iters) && res == AccAt(iters)
  {
    p := [Const(1.0), Const(1.0)];
    var acc, prev := 1, 2;
    var i := 0;
    while i < iters
      invariant 0 <= i <= iters
      invariant p == Example(i) && acc == AccAt(i) && prev == PrevAt(i)
    {
      var n := |p| + 1;
      p := p + [Const(-1.0), Add(0, n), Neg(n + 1), Mul(prev, n + 2), Add(acc, n + 3)];
      prev, acc := n + 3, n + 4;
      i := i + 1;
    }
    res := acc;
  }

  /** The reverse pass over the example computes the derivative of the sum of (1 - x)^i, for
      i from 0 to `iters`. */
  method Reverse(x: real, iters: nat) returns (slope: real)
    ensures slope == SumSlopes(1.0 - x, iters)
  {
    hide Run, Tangents, Scoped;
    var p, res := Record(iters);
    ExampleTracks(x, iters);
    var cell := new Cell();
    var env := [Prop(x, cell)];
    assert Values(env) == [x] && Unit(1, 0) == [1.0];
    Handle(p, env, res);
    assert env[0].dv.dv == Partial(p, [x], res, 0);
    slope := cell.dv;
  }
}
