/** The list semantics of shallow handlers.

    A running program is a list of coroutine segments, innermost first, on top of the main
    computation.  Resuming a suspended coroutine puts a saved list back on top, yielding to `h`
    cuts off the prefix that ends at `h` and keeps it, leaving through `h` cuts the same prefix
    off and drops it.  Nothing in this file mentions parent pointers or where a context is kept:
    module CoroutineMachine is proved to implement these functions with the fields the
    assembly patches.
  */
module ShallowHandlers {

  type Word = int
  type EffectId = Word

  /** The id of the implicit `return` effect. */
  const RETURN: EffectId := 0

  /** What a context switch saves and restores: the callee-saved registers, the two stack
      registers, the address to continue at and the limit of the current stack segment. */
  datatype Context = Context(
    rbx: Word, r12: Word, r13: Word, r14: Word, r15: Word,
    rbp: Word, rsp: Word, ip: Word, stackTop: Word)

  /** Where a coroutine that was never resumed starts, as a symbolic code address. */
  const COROUTINE_PRELUDE: Word := 0x1000

  /** What `coroutine_prelude` needs for its own call. */
  const PRELUDE_OVERHEAD: nat := 16

  /** The first context of a coroutine at address `self` whose stack memory ends at `stackEnd`. */
  function StartContext(self: Word, fn: Word, arg: Word, stackEnd: nat, frameSize: nat): Context {
    Context(0xcacabbbb, 0xcaca1212, self, arg, fn, 0,
            stackEnd - stackEnd % 16, COROUTINE_PRELUDE,
            stackEnd - frameSize - PRELUDE_OVERHEAD)
  }

  /** A zero-terminated array of effect ids. */
  type IdArray = ids: seq<EffectId> | RETURN in ids witness [RETURN]

  datatype EffectSet = HandlesAll | NullSet | Listed(ids: IdArray)

  /** An id is listed when it stands before the first terminator. */
  ghost predicate Handles(handled: EffectSet, e: EffectId) {
    match handled
    case HandlesAll => true
    case NullSet => false
    case Listed(ids) => exists i :: 0 <= i < |ids| && ids[i] == e && RETURN !in ids[..i + 1]
  }

  /** One coroutine on a list: what it handles and, while it is not running, where it stopped. */
  datatype Segment<C> = Segment(co: C, handled: EffectSet, ctx: Context)

  /** The values found in the result registers after the last switch. */
  datatype Delivery = Nothing | Argument(arg: Word) | Request(effect: EffectId, payload: Word)

  datatype State<!C(==)> = State(
    active: seq<Segment<C>>,
    main: Context,
    captured: map<C, seq<Segment<C>>>,
    finished: set<C>,
    delivered: Delivery)

  ghost predicate EachOnce<C>(chain: seq<Segment<C>>) {
    forall i, j | 0 <= i < j < |chain| :: chain[i].co != chain[j].co
  }

  ghost predicate Avoids<C>(chain: seq<Segment<C>>, k: C) {
    forall i | 0 <= i < |chain| :: chain[i].co != k
  }

  ghost predicate Apart<C>(a: seq<Segment<C>>, b: seq<Segment<C>>) {
    forall i | 0 <= i < |a| :: Avoids(b, a[i].co)
  }

  ghost predicate AmongNone<C>(chain: seq<Segment<C>>, these: set<C>) {
    forall i | 0 <= i < |chain| :: chain[i].co !in these
  }

  /** A captured list is named after its last coroutine, the one that was yielded to. */
  ghost predicate RootedAt<C>(chain: seq<Segment<C>>, k: C) {
    chain != [] && chain[|chain| - 1].co == k && EachOnce(chain)
  }

  /** Every coroutine is in at most one list and at one place in it. */
  ghost predicate WellFormed<C>(s: State<C>) {
    && EachOnce(s.active)
    && AmongNone(s.active, s.finished)
    && (forall k | k in s.captured :: RootedAt(s.captured[k], k))
    && (forall k | k in s.captured :: AmongNone(s.captured[k], s.finished))
    && (forall k | k in s.captured :: Apart(s.captured[k], s.active))
    && (forall k, l | k in s.captured && l in s.captured && k != l ::
          Apart(s.captured[k], s.captured[l]))
  }

  /** The context the processor is executing in. */
  function Live<C>(s: State<C>): Context {
    ContextBelow(s.active, 0, s.main)
  }

  /** The context of segment `i`, or of the main computation below the last one. */
  function ContextBelow<C>(chain: seq<Segment<C>>, i: nat, main: Context): Context {
    if i < |chain| then chain[i].ctx else main
  }

  function WithLive<C>(s: State<C>, ctx: Context): State<C> {
    if s.active == [] then s.(main := ctx)
    else s.(active := [s.active[0].(ctx := ctx)] + s.active[1..])
  }

  /** The last segment is the handler's: it gets the effect set of this resumption. */
  function Rehandled<C>(chain: seq<Segment<C>>, handled: EffectSet): seq<Segment<C>> {
    if chain == [] then [] else chain[|chain| - 1 := chain[|chain| - 1].(handled := handled)]
  }

  datatype Op<C> =
    | Init(k: C, self: Word, fn: Word, fnArg: Word, stackEnd: nat, frameSize: nat)
    | Compute(ctx: Context)
    | Resume(k: C, arg: Word, handled: EffectSet)
    | Yield(depth: nat, effect: EffectId, payload: Word)
    | Exit(depth: nat, effect: EffectId, payload: Word)

  /** What the runtime asks of its callers: initialise only coroutines that are on no list,
      resume only suspended ones, yield to or leave through active ones only. */
  ghost predicate Enabled<C>(s: State<C>, op: Op<C>) {
    match op
    case Init(k, _, _, _, _, _) =>
      Avoids(s.active, k) && forall l | l in s.captured :: Avoids(s.captured[l], k)
    case Compute(_) => true
    case Resume(k, _, _) => k in s.captured
    case Yield(depth, _, _) => depth < |s.active|
    case Exit(depth, _, _) => depth < |s.active|
  }

  function Step<C>(s: State<C>, op: Op<C>): State<C>
    requires Enabled(s, op)
  {
    match op
    case Init(k, self, fn, arg, stackEnd, frameSize) =>
      var start := StartContext(self, fn, arg, stackEnd, frameSize);
      s.(captured := s.captured[k := [Segment(k, NullSet, start)]], finished := s.finished - {k})
    case Compute(ctx) =>
      WithLive(s, ctx)
    case Resume(k, arg, handled) =>
      s.(active := Rehandled(s.captured[k], handled) + s.active,
         captured := s.captured - {k},
         delivered := Argument(arg))
    case Yield(depth, effect, payload) =>
      s.(active := s.active[depth + 1..],
         captured := s.captured[s.active[depth].co := s.active[..depth + 1]],
         delivered := Request(effect, payload))
    case Exit(depth, effect, payload) =>
      s.(active := s.active[depth + 1..],
         finished := s.finished + {s.active[depth].co},
         delivered := Request(effect, payload))
  }

  /** Lists stay disjoint, duplicate-free and rooted at the coroutine that names them. */
  lemma StepKeepsWellFormed<C>(s: State<C>, op: Op<C>)
    requires WellFormed(s) && Enabled(s, op)
    ensures WellFormed(Step(s, op))
  {
    match op
    case Init(k, _, _, _, _, _) =>
      var chain := Step(s, op).captured[k];
      assert chain[0].co == k;
      forall l | l in s.captured && l != k ensures Apart(chain, s.captured[l]) && Apart(s.captured[l], chain) {
      }
    case Compute(ctx) =>
    case Resume(k, _, _) => ResumeKeepsWellFormed(s, op);
    case Yield(_, _, _) => YieldKeepsWellFormed(s, op);
    case Exit(_, _, _) => ExitKeepsWellFormed(s, op);
  }

  lemma ResumeKeepsWellFormed<C>(s: State<C>, op: Op<C>)
    requires WellFormed(s) && Enabled(s, op) && op.Resume?
    ensures WellFormed(Step(s, op))
  {
    var t := Step(s, op);
    var chain := s.captured[op.k];
    assert Apart(chain, s.active);
    forall l | l in t.captured ensures Apart(t.captured[l], t.active) {
      assert Apart(s.captured[l], s.active) && Apart(s.captured[l], chain);
    }
  }

  lemma YieldKeepsWellFormed<C>(s: State<C>, op: Op<C>)
    requires WellFormed(s) && Enabled(s, op) && op.Yield?
    ensures WellFormed(Step(s, op))
  {
    var t := Step(s, op);
    var h := s.active[op.depth].co;
    var cut := s.active[..op.depth + 1];
    forall l | l in s.captured ensures l != h && Apart(s.captured[l], t.active)
                                       && Apart(s.captured[l], cut) && Apart(cut, s.captured[l]) {
      CapturedIsNotActive(s, l);
      assert Apart(s.captured[l], s.active);
    }
  }

  lemma ExitKeepsWellFormed<C>(s: State<C>, op: Op<C>)
    requires WellFormed(s) && Enabled(s, op) && op.Exit?
    ensures WellFormed(Step(s, op))
  {
    var t := Step(s, op);
    forall l | l in s.captured ensures Apart(s.captured[l], t.active)
                                       && AmongNone(s.captured[l], t.finished) {
      assert Apart(s.captured[l], s.active);
    }
  }

  lemma CapturedIsNotActive<C>(s: State<C>, k: C)
    requires WellFormed(s) && k in s.captured
    ensures Avoids(s.active, k)
  {
    assert s.captured[k][|s.captured[k]| - 1].co == k;
  }

  lemma OthersAvoid<C>(s: State<C>, k: C)
    requires WellFormed(s) && k in s.captured 
    ensures forall l | l in s.captured && l != k :: Avoids(s.captured[l], k)
  {
    assert s.captured[k][|s.captured[k]| - 1].co == k;
    assert forall l | l in s.captured && l != k :: Apart(s.captured[k], s.captured[l]);
  }

  lemma ActiveIsNotCaptured<C>(s: State<C>, depth: nat)
    requires WellFormed(s) && depth < |s.active|
    ensures forall l | l in s.captured :: Avoids(s.captured[l], s.active[depth].co)
  {
    assert forall l | l in s.captured :: Apart(s.captured[l], s.active);
  }

  // ----- runs -----

  ghost predicate Runnable<C>(s: State<C>, ops: seq<Op<C>>)
    decreases |ops|
  {
    ops == [] || (Enabled(s, ops[0]) && Runnable(Step(s, ops[0]), ops[1..]))
  }

  function Run<C>(s: State<C>, ops: seq<Op<C>>): State<C>
    requires Runnable(s, ops)
    decreases |ops|
  {
    if ops == [] then s else Run(Step(s, ops[0]), ops[1..])
  }

  lemma {:induction false} RunKeepsWellFormed<C>(s: State<C>, ops: seq<Op<C>>)
    requires WellFormed(s) && Runnable(s, ops)
    ensures WellFormed(Run(s, ops))
    decreases |ops|
  {
    if ops == [] {
    } else {
      StepKeepsWellFormed(s, ops[0]);
      RunKeepsWellFormed(Step(s, ops[0]), ops[1..]);
    }
  }

  /** A captured list does not change, whatever else the program does, until it is resumed. */
  lemma {:induction false} CapturedIsFrozen<C>(s: State<C>, ops: seq<Op<C>>, h: C)
    requires WellFormed(s) && Runnable(s, ops) && h in s.captured
    requires forall op | op in ops :: !(op.Resume? && op.k == h)
    ensures h in Run(s, ops).captured && Run(s, ops).captured[h] == s.captured[h]
    decreases |ops|
  {
    if ops == [] {
    } else {
      var t := Step(s, ops[0]);
      var chain := s.captured[h];
      assert chain[|chain| - 1].co == h;
      assert h in t.captured && t.captured[h] == chain;
      StepKeepsWellFormed(s, ops[0]);
      CapturedIsFrozen(t, ops[1..], h);
    }
  }

  /** Yield to a handler, let the program do anything but resume it, then resume it: the
      whole captured prefix is back on top in order, on whatever is active by then, and the
      processor continues in the context it yielded from. */
  lemma YieldThenResume<C>(s: State<C>, depth: nat, e: EffectId, payload: Word,
                           ops: seq<Op<C>>, arg: Word, handled: EffectSet)
    requires WellFormed(s) && depth < |s.active|
    requires Runnable(Step(s, Yield(depth, e, payload)), ops)
    requires forall op | op in ops :: !(op.Resume? && op.k == s.active[depth].co)
    ensures var mid := Run(Step(s, Yield(depth, e, payload)), ops);
            var resume := Resume(s.active[depth].co, arg, handled);
            && Enabled(mid, resume)
            && Step(mid, resume).active == Rehandled(s.active[..depth + 1], handled) + mid.active
            && Live(Step(mid, resume)) == Live(s)
            && Step(mid, resume).delivered == Argument(arg)
  {
    StepKeepsWellFormed(s, Yield(depth, e, payload));
    CapturedIsFrozen(Step(s, Yield(depth, e, payload)), ops, s.active[depth].co);
  }

  /** A yield goes to the computation that resumed the handler: it continues where it stopped, with the
      effect and the payload in the result registers, and everything below it is untouched. */
  lemma YieldReachesResumer<C>(s: State<C>, depth: nat, e: EffectId, payload: Word)
    requires WellFormed(s) && depth < |s.active|
    ensures var t := Step(s, Yield(depth, e, payload));
            && t.active == s.active[depth + 1..] && t.main == s.main && t.finished == s.finished
            && Live(t) == (if depth + 1 < |s.active| then s.active[depth + 1].ctx else s.main)
            && t.delivered == Request(e, payload)
            && s.active[depth].co in t.captured && t.captured[s.active[depth].co] == s.active[..depth + 1]
  {
  }

  // ----- the life of a coroutine -----

  /** What a coroutine finds when it is resumed for the first time: its own address, its argument and its
      function in the registers the prelude reads, an aligned stack at the end of its memory, and the
      limit of the memory it was given. */
  lemma FirstResumption<C>(s: State<C>, k: C, self: Word, fn: Word, fnArg: Word, stackEnd: nat, frameSize: nat,
                           arg: Word, handled: EffectSet)
    requires WellFormed(s) && Enabled(s, Init(k, self, fn, fnArg, stackEnd, frameSize))
    ensures var init := Step(s, Init(k, self, fn, fnArg, stackEnd, frameSize));
            && Enabled(init, Resume(k, arg, handled))
            && var t := Step(init, Resume(k, arg, handled));
            && |t.active| == |s.active| + 1 && t.active[0].co == k && t.active[0].handled == handled
            && t.active[1..] == s.active && t.main == s.main
            && k !in t.captured && t.captured == s.captured - {k} && k !in t.finished
            && var ctx := Live(t);
            && ctx.ip == COROUTINE_PRELUDE
            && ctx.r13 == self && ctx.r14 == fnArg && ctx.r15 == fn && ctx.rbp == 0
            && ctx.rsp % 16 == 0 && stackEnd - 15 <= ctx.rsp <= stackEnd
            && ctx.stackTop == stackEnd - frameSize - 16
  {
  }

  /** When a coroutine has the processor again above the computation that resumed it, the return of its
      function gives that computation its own context back, with the return effect and the result. */
  lemma ReturnReachesResumer<C>(s: State<C>, t: State<C>, k: C, result: Word)
    requires WellFormed(t) && |t.active| == |s.active| + 1 && t.active[0].co == k
    requires t.active[1..] == s.active && t.main == s.main
    ensures var u := Step(t, Exit(0, RETURN, result));
            && u.active == s.active && u.main == s.main && Live(u) == Live(s)
            && u.delivered == Request(RETURN, result) && k in u.finished && u.captured == t.captured
  {
  }

  /** Resumed at once under the same parent, nothing but the handled set and the delivered
      value differs from before the yield. */
  lemma YieldThenResumeAtOnce<C>(s: State<C>, depth: nat, e: EffectId, payload: Word,
                                 arg: Word, handled: EffectSet)
    requires WellFormed(s) && depth < |s.active|
    ensures var h := s.active[depth].co;
            Step(Step(s, Yield(depth, e, payload)), Resume(h, arg, handled))
            == s.(active := s.active[depth := s.active[depth].(handled := handled)],
                  delivered := Argument(arg))
  {
    var h := s.active[depth].co;
    if h in s.captured {
      CapturedIsNotActive(s, h);
      assert false;
    }
    var mid := Step(s, Yield(depth, e, payload));
    assert mid.captured - {h} == s.captured;
    assert Rehandled(s.active[..depth + 1], handled) + s.active[depth + 1..]
        == s.active[depth := s.active[depth].(handled := handled)];
  }

  /** Resuming and leaving at the root again gives the resumer back exactly its own state. */
  lemma ResumeThenExit<C>(s: State<C>, k: C, arg: Word, handled: EffectSet, e: EffectId, payload: Word)
    requires WellFormed(s) && k in s.captured
    ensures var up := Step(s, Resume(k, arg, handled));
            var depth := |s.captured[k]| - 1;
            && Enabled(up, Exit(depth, e, payload))
            && Step(up, Exit(depth, e, payload))
               == s.(captured := s.captured - {k}, finished := s.finished + {k},
                     delivered := Request(e, payload))
  {
  }

  // ----- handler lookup -----

  ghost predicate Catches<C>(seg: Segment<C>, e: EffectId) {
    e == RETURN || Handles(seg.handled, e)
  }

  /** The depth of the innermost active coroutine that catches `e`, or the depth of the list. */
  ghost function Locate<C>(active: seq<Segment<C>>, e: EffectId): (depth: nat)
    ensures depth <= |active|
    ensures depth < |active| ==> Catches(active[depth], e)
    ensures forall i | 0 <= i < depth :: !Catches(active[i], e)
  {
    if active == [] || Catches(active[0], e) then 0 else 1 + Locate(active[1..], e)
  }

  /** Effects performed inside a moved continuation meet its captured handlers first, the
      resumed one with the set given at this resumption, and then those of the new parents. */
  lemma {:induction false} LocateAfterMove<C>(inner: seq<Segment<C>>, outer: seq<Segment<C>>, e: EffectId)
    ensures Locate(inner + outer, e)
         == if Locate(inner, e) < |inner| then Locate(inner, e) else |inner| + Locate(outer, e)
    decreases |inner|
  {
    if inner == [] {
      assert inner + outer == outer;
    } else if !Catches(inner[0], e) {
      assert (inner + outer)[1..] == inner[1..] + outer;
      LocateAfterMove(inner[1..], outer, e);
    }
  }
}
