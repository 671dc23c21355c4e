/** The Chase-Lev deque of `cl_queue.c` as a state machine: one owner, any number of thieves, and
    one atomic load, store or compare-and-swap per step.  Rings are never freed, so a thief that
    read the array pointer before a growth goes on reading the old ring.
  */
module ChaseLev {
  import opened CircularArrays
  import opened Options
  import opened Sequences

  /** Where the owner is: the next step of each state is the one its name says. */
  datatype Owner<E> =
    | Idle
    // cl_queue_pop; `b` is the decremented bottom
    | PopLoadBottom
    | PopLoadArray(b: int)
    | PopStoreBottom(b: int, a: nat)
    | PopLoadTop(b: int, a: nat)
    | PopLoadElement(b: int, a: nat, t: int)
    | PopSwapTop(b: int, t: int, e: E)
    | PopRestoreBottom(b: int, result: Option<E>)
    | PopReturn(result: Option<E>)
    // cl_queue_push
    | PushLoadBottom(x: E)
    | PushLoadTop(x: E, b: int)
    | PushLoadArray(x: E, b: int, t: int)
    | PushCopy(x: E, b: int, t: int, i: int, grown: Ring<E>)
    | PushStoreArray(x: E, b: int, t: int, grown: Ring<E>)
    | PushStoreElement(x: E, b: int, a: nat)
    | PushStoreBottom(x: E, b: int)

  /** cl_queue_steal */
  datatype Thief<E> =
    | Away
    | LoadBottom(t: int)
    | LoadArray(t: int)
    | LoadElement(t: int, a: nat)
    | SwapTop(t: int, e: E)

  datatype State<E> = State(
    top: int, bottom: int, cur: nat, rings: seq<Ring<E>>,
    owner: Owner<E>, thieves: map<nat, Thief<E>>,
    given: seq<E>,       // the argument of every push that was called
    pushed: seq<E>,      // every element whose push took effect
    returned: seq<E>)    // every element a pop or a steal has returned to its caller

  datatype Action<E> = StartPush(x: E) | StartPop | OwnerStep | ThiefStep(id: nat)

  function ThiefAt<E>(s: State<E>, id: nat): Thief<E> {
    if id in s.thieves then s.thieves[id] else Away
  }

  function Init<E>(logSize: nat, garbage: E): State<E> {
    State(0, 0, 0, [NewRing(logSize, garbage)], Idle, map[], [], [], [])
  }

  // ----- steps -----

  function Next<E>(s: State<E>, action: Action<E>): State<E>
    requires Inv(s)
  {
    match action
    case StartPush(x) =>
      if s.owner.Idle? then s.(given := s.given + [x], owner := PushLoadBottom(x)) else s
    case StartPop => if s.owner.Idle? then s.(owner := PopLoadBottom) else s
    case OwnerStep => NextOwner(s)
    case ThiefStep(id) => NextThief(s, id)
  }

  function NextOwner<E>(s: State<E>): (t: State<E>)
    requires Inv(s)
    ensures t.thieves == s.thieves
  {
    match s.owner
    case Idle => s
    case PopLoadBottom => s.(owner := PopLoadArray(s.bottom - 1))
    case PopLoadArray(b) => s.(owner := PopStoreBottom(b, s.cur))
    case PopStoreBottom(b, a) => s.(bottom := b, owner := PopLoadTop(b, a))
    case PopLoadTop(b, a) =>
      if s.top <= b then s.(owner := PopLoadElement(b, a, s.top))
      else s.(owner := PopRestoreBottom(b, None))
    case PopLoadElement(b, a, t) =>
      var e := s.rings[a].Get(b);
      if t == b then s.(owner := PopSwapTop(b, t, e)) else s.(owner := PopReturn(Some(e)))
    case PopSwapTop(b, t, e) =>
      if s.top == t then s.(top := t + 1, owner := PopRestoreBottom(b, Some(e)))
      else s.(owner := PopRestoreBottom(b, None))
    case PopRestoreBottom(b, result) => s.(bottom := b + 1, owner := PopReturn(result))
    case PopReturn(result) =>
      s.(owner := Idle,
         returned := if result.Some? then s.returned + [result.value] else s.returned)
    case PushLoadBottom(x) => s.(owner := PushLoadTop(x, s.bottom))
    case PushLoadTop(x, b) => s.(owner := PushLoadArray(x, b, s.top))
    case PushLoadArray(x, b, t) =>
      var ring := s.rings[s.cur];
      if b - t > ring.Size() - 1 then
        s.(owner := PushCopy(x, b, t, t, NewRing(ring.logSize + 1, x)))
      else s.(owner := PushStoreElement(x, b, s.cur))
    case PushCopy(x, b, t, i, grown) =>
      if i < b then s.(owner := PushCopy(x, b, t, i + 1, grown.Set(i, s.rings[s.cur].Get(i))))
      else s.(owner := PushStoreArray(x, b, t, grown))
    case PushStoreArray(x, b, t, grown) =>
      s.(rings := s.rings + [grown], cur := |s.rings|, owner := PushStoreElement(x, b, |s.rings|))
    case PushStoreElement(x, b, a) =>
      s.(rings := s.rings[a := s.rings[a].Set(b, x)], owner := PushStoreBottom(x, b))
    case PushStoreBottom(x, b) =>
      s.(bottom := b + 1, pushed := s.pushed + [x], owner := Idle)
  }

  function NextThief<E>(s: State<E>, id: nat): State<E>
    requires Inv(s)
  {
    match ThiefAt(s, id)
    case Away => s.(thieves := s.thieves[id := LoadBottom(s.top)])
    case LoadBottom(t) =>
      s.(thieves := s.thieves[id := if t < s.bottom then LoadArray(t) else Away])
    case LoadArray(t) => s.(thieves := s.thieves[id := LoadElement(t, s.cur)])
    case LoadElement(t, a) => s.(thieves := s.thieves[id := SwapTop(t, s.rings[a].Get(t))])
    case SwapTop(t, e) =>
      if s.top == t then
        s.(top := t + 1, thieves := s.thieves[id := Away], returned := s.returned + [e])
      else s.(thieves := s.thieves[id := Away])
  }

  // ----- the deque the state stands for -----

  /** While a pop is undecided, the element it reserved by lowering `bottom` still counts. */
  function End<E>(s: State<E>): int {
    if || s.owner.PopLoadTop? || s.owner.PopSwapTop? || s.owner.PopRestoreBottom?
       || (s.owner.PopLoadElement? && s.owner.t == s.owner.b)
    then s.bottom + 1 else s.bottom
  }

  ghost function Current<E>(s: State<E>): Ring<E>
    requires s.cur < |s.rings|
  {
    s.rings[s.cur]
  }

  /** The elements in the deque, oldest first. */
  ghost function Content<E>(s: State<E>): seq<E>
    requires RingsValid(s) && 0 <= s.top <= End(s)
  {
    seq(End(s) - s.top, i requires 0 <= i < End(s) - s.top => Current(s).Get(s.top + i))
  }

  /** What a pop has taken out of the deque and not yet returned. */
  ghost function Held<E>(s: State<E>): seq<E>
    requires RingsValid(s) && OwnerOk(s)
  {
    match s.owner
    case PopLoadElement(b, a, t) => if t < b then [s.rings[a].Get(b)] else []
    case PopRestoreBottom(_, Some(e)) => [e]
    case PopReturn(Some(e)) => [e]
    case _ => []
  }

  // ----- the invariant -----

  ghost predicate RingsValid<E>(s: State<E>) {
    s.cur < |s.rings| && forall a | 0 <= a < |s.rings| :: s.rings[a].Valid()
  }

  ghost predicate OwnerOk<E>(s: State<E>)
    requires RingsValid(s)
  {
    var ring := Current(s);
    match s.owner
    case Idle => true
    case PopLoadBottom => true
    case PopLoadArray(b) => b == s.bottom - 1
    case PopStoreBottom(b, a) => b == s.bottom - 1 && a == s.cur
    case PopLoadTop(b, a) => b == s.bottom && a == s.cur
    case PopLoadElement(b, a, t) => 0 <= t <= s.top && t <= b == s.bottom && a == s.cur
    case PopSwapTop(b, t, e) =>
      b == s.bottom && t == b && t <= s.top && (s.top == t ==> 0 <= t && e == ring.Get(t))
    case PopRestoreBottom(b, _) => b == s.bottom && s.top == b + 1
    case PopReturn(_) => true
    case PushLoadBottom(_) => true
    case PushLoadTop(_, b) => b == s.bottom
    case PushLoadArray(_, b, t) => b == s.bottom && 0 <= t <= s.top && b - t <= ring.Size()
    case PushCopy(_, b, t, i, grown) =>
      && b == s.bottom && 0 <= t <= s.top && b - t == ring.Size() && t <= i <= b
      && grown.Valid() && grown.Size() == 2 * ring.Size()
      && forall j: nat | t <= j < i :: grown.Get(j) == ring.Get(j)
    case PushStoreArray(_, b, t, grown) =>
      && b == s.bottom && 0 <= t <= s.top && b - t == ring.Size()
      && grown.Valid() && grown.Size() == 2 * ring.Size()
      && forall j: nat | t <= j < b :: grown.Get(j) == ring.Get(j)
    case PushStoreElement(_, b, a) => b == s.bottom && a == s.cur && b - s.top < ring.Size()
    case PushStoreBottom(x, b) =>
      b == s.bottom && b - s.top < ring.Size() && 0 <= b && ring.Get(b) == x
  }

  /** A thief past its emptiness check holds what is at the front for as long as nobody else
      takes it: its ring, however old, still has that element in the right slot. */
  ghost predicate ThiefOk<E>(s: State<E>, thief: Thief<E>)
    requires RingsValid(s)
  {
    match thief
    case Away => true
    case LoadBottom(t) => 0 <= t <= s.top
    case LoadArray(t) => 0 <= t <= s.top && (t == s.top ==> t < End(s))
    case LoadElement(t, a) =>
      && 0 <= t <= s.top && a < |s.rings|
      && (t == s.top ==> t < End(s) && s.rings[a].Get(t) == Current(s).Get(t))
    case SwapTop(t, e) =>
      0 <= t <= s.top && (t == s.top ==> t < End(s) && e == Current(s).Get(t))
  }

  ghost predicate Inv<E>(s: State<E>) {
    && RingsValid(s)
    && 0 <= s.top <= End(s) <= s.top + Current(s).Size()
    && OwnerOk(s)
    && forall id | id in s.thieves :: ThiefOk(s, s.thieves[id])
  }

  lemma InitInv<E>(logSize: nat, garbage: E)
    ensures Inv(Init(logSize, garbage))
  {
  }

  // ----- every step keeps the invariant and is a step of a deque -----

  /** The abstract deque: `held` is what the owner has taken and is about to return. */
  datatype Deque<E> = Deque(content: seq<E>, held: seq<E>, pushed: seq<E>, returned: seq<E>)

  ghost function Abs<E>(s: State<E>): Deque<E>
    requires Inv(s)
  {
    Deque(Content(s), Held(s), s.pushed, s.returned)
  }

  ghost predicate PushesNewest<E>(d: Deque<E>, d': Deque<E>) {
    && |d'.pushed| == |d.pushed| + 1
    && var x := d'.pushed[|d.pushed|];
       d' == d.(content := d.content + [x], pushed := d.pushed + [x])
  }

  ghost predicate TakesNewest<E>(d: Deque<E>, d': Deque<E>) {
    && d.content != [] && d.held == []
    && var n := |d.content| - 1;
       d' == d.(content := d.content[..n], held := [d.content[n]])
  }

  ghost predicate StealsOldest<E>(d: Deque<E>, d': Deque<E>) {
    && d.content != []
    && d' == d.(content := d.content[1..], returned := d.returned + [d.content[0]])
  }

  ghost predicate ReturnsHeld<E>(d: Deque<E>, d': Deque<E>) {
    d' == d.(held := [], returned := d.returned + d.held)
  }

  ghost predicate DequeStep<E>(d: Deque<E>, d': Deque<E>) {
    d' == d || PushesNewest(d, d') || TakesNewest(d, d') || StealsOldest(d, d') || ReturnsHeld(d, d')
  }

  /** The kind of step belongs to who moves: starting a call changes nothing, a thief only steals the oldest,
      a pop only takes the newest or returns what it holds, a push only appends its own argument. */
  ghost predicate StepOf<E>(s: State<E>, action: Action<E>, d: Deque<E>, d': Deque<E>) {
    match action
    case StartPush(_) => d' == d
    case StartPop => d' == d
    case ThiefStep(_) => d' == d || StealsOldest(d, d')
    case OwnerStep =>
      if Pushing(s) then d' == d || (PushesNewest(d, d') && d'.pushed == d.pushed + [s.owner.x])
      else d' == d || TakesNewest(d, d') || ReturnsHeld(d, d')
  }

  /** What the owner's step guarantees to the thieves: every element at the front stays there,
      in the current ring and in any ring a thief may still read. */
  ghost predicate SharedKept<E>(s: State<E>, t: State<E>)
    requires RingsValid(s)
  {
    && RingsValid(t) && |s.rings| <= |t.rings|
    && OwnerOk(t)
    && 0 <= s.top <= t.top <= End(t) <= t.top + Current(t).Size()
    && (t.top == s.top < End(s) ==> t.top < End(t) && FrontKept(s, t, s.top))
  }

  ghost predicate FrontKept<E>(s: State<E>, t: State<E>, front: nat)
    requires RingsValid(s) && RingsValid(t) && |s.rings| <= |t.rings|
  {
    && Current(t).Get(front) == Current(s).Get(front)
    && forall a | 0 <= a < |s.rings| :: t.rings[a].Get(front) == s.rings[a].Get(front)
  }

  lemma PopStepShared<E>(s: State<E>)
    requires Inv(s) && !Pushing(s)
    ensures SharedKept(s, NextOwner(s)) && NextOwner(s).rings == s.rings
  {
    hide Ring.Get;
  }

  predicate Pushing<E>(s: State<E>) {
    || s.owner.PushLoadBottom? || s.owner.PushLoadTop? || s.owner.PushLoadArray? || s.owner.PushCopy?
    || s.owner.PushStoreArray? || s.owner.PushStoreElement? || s.owner.PushStoreBottom?
  }

  lemma PushStepShared<E>(s: State<E>)
    requires Inv(s) && Pushing(s) && !s.owner.PushCopy? && !s.owner.PushStoreElement?
    ensures SharedKept(s, NextOwner(s))
  {
    hide Ring.Get;
  }

  lemma PushCopyShared<E>(s: State<E>)
    requires Inv(s) && s.owner.PushCopy?
    ensures SharedKept(s, NextOwner(s))
  {
    hide Ring.Get;
  }

  lemma PushStoreElementShared<E>(s: State<E>)
    requires Inv(s) && s.owner.PushStoreElement?
    ensures SharedKept(s, NextOwner(s))
  {
    hide Ring.Get;
    var ring := Current(s).Set(s.owner.b, s.owner.x);
  }

  lemma OwnerStepShared<E>(s: State<E>)
    requires Inv(s)
    ensures SharedKept(s, NextOwner(s))
  {
    if s.owner.PushCopy? {
      PushCopyShared(s);
    } else if s.owner.PushStoreElement? {
      PushStoreElementShared(s);
    } else if Pushing(s) {
      PushStepShared(s);
    } else {
      PopStepShared(s);
    }
  }

  lemma OwnerStepInv<E>(s: State<E>)
    requires Inv(s)
    ensures Inv(NextOwner(s))
  {
    hide Ring.Get, NextOwner, OwnerOk, End;
    OwnerStepShared(s);
    var t := NextOwner(s);
    forall id | id in s.thieves ensures ThiefOk(t, s.thieves[id]) {
      ThiefUndisturbed(s, t, s.thieves[id]);
    }
  }

  lemma ThiefUndisturbed<E>(s: State<E>, t: State<E>, thief: Thief<E>)
    requires RingsValid(s) && SharedKept(s, t) && ThiefOk(s, thief)
    ensures ThiefOk(t, thief)
  {
    hide Ring.Get, OwnerOk;
  }

  /** What a thief's step leaves alone, and where it leaves the thief. */
  ghost predicate ThiefShares<E>(s: State<E>, t: State<E>, id: nat)
    requires Inv(s)
  {
    && SharedKept(s, t) && End(t) == End(s) && id in t.thieves && ThiefOk(t, t.thieves[id])
    && t.thieves == s.thieves[id := t.thieves[id]]
  }

  lemma ThiefReads<E>(s: State<E>, id: nat)
    requires Inv(s) && !ThiefAt(s, id).SwapTop?
    ensures ThiefShares(s, NextThief(s, id), id)
  {
    hide Ring.Get;
    assert ThiefOk(s, ThiefAt(s, id));
  }

  lemma ThiefSwaps<E>(s: State<E>, id: nat)
    requires Inv(s) && ThiefAt(s, id).SwapTop?
    ensures ThiefShares(s, NextThief(s, id), id)
  {
    hide Ring.Get;
    assert ThiefOk(s, ThiefAt(s, id));
  }

  lemma ThiefStepShared<E>(s: State<E>, id: nat)
    requires Inv(s)
    ensures ThiefShares(s, NextThief(s, id), id)
  {
    hide Inv, ThiefShares, NextThief;
    if ThiefAt(s, id).SwapTop? { ThiefSwaps(s, id); } else { ThiefReads(s, id); }
  }

  lemma ThiefStepInv<E>(s: State<E>, id: nat)
    requires Inv(s)
    ensures Inv(NextThief(s, id))
  {
    ThiefStepShared(s, id);
    hide Ring.Get, OwnerOk, NextThief, ThiefOk;
    var t := NextThief(s, id);
    forall other | other in t.thieves ensures ThiefOk(t, t.thieves[other]) {
      if other != id {
        ThiefUndisturbed(s, t, s.thieves[other]);
      }
    }
  }

  lemma NextInv<E>(s: State<E>, action: Action<E>)
    requires Inv(s)
    ensures Inv(Next(s, action))
  {
    match action
    case StartPush(x) =>
    case StartPop =>
    case OwnerStep => OwnerStepInv(s);
    case ThiefStep(id) => ThiefStepInv(s, id);
  }

  lemma PopStepIsDequeStep<E>(s: State<E>)
    requires Inv(s) && !Pushing(s) && Inv(NextOwner(s))
    ensures StepOf(s, OwnerStep, Abs(s), Abs(NextOwner(s)))
  {
    hide Ring.Get;
    PopStepShared(s);
    var t := NextOwner(s);
    if s.owner.PopReturn? {
      assert Content(t) == Content(s);
      assert ReturnsHeld(Abs(s), Abs(t));
    } else if (s.owner.PopLoadTop? && s.top < s.owner.b) || (s.owner.PopSwapTop? && s.top == s.owner.t) {
      assert TakesNewest(Abs(s), Abs(t));
    } else {
      assert Abs(t) == Abs(s);
    }
  }

  lemma PushStepIsDequeStep<E>(s: State<E>)
    requires Inv(s) && Pushing(s) && Inv(NextOwner(s))
    ensures StepOf(s, OwnerStep, Abs(s), Abs(NextOwner(s)))
  {
    hide Ring.Get;
    var t := NextOwner(s);
    if s.owner.PushStoreBottom? {
      PushTakesEffect(s);
    } else if s.owner.PushStoreElement? {
      var ring := Current(s).Set(s.owner.b, s.owner.x);
      assert Content(t) == Content(s);
    } else {
      assert Content(t) == Content(s);
    }
  }

  lemma PushTakesEffect<E>(s: State<E>)
    requires Inv(s) && s.owner.PushStoreBottom? && Inv(NextOwner(s))
    ensures PushesNewest(Abs(s), Abs(NextOwner(s)))
    ensures NextOwner(s).pushed == s.pushed + [s.owner.x]
  {
    hide Ring.Get;
    assert Content(NextOwner(s)) == Content(s) + [s.owner.x];
  }

  lemma OwnerStepIsDequeStep<E>(s: State<E>)
    requires Inv(s) && Inv(NextOwner(s))
    ensures StepOf(s, OwnerStep, Abs(s), Abs(NextOwner(s)))
  {
    if Pushing(s) {
      PushStepIsDequeStep(s);
    } else {
      PopStepIsDequeStep(s);
    }
  }

  lemma ThiefStepIsDequeStep<E>(s: State<E>, id: nat)
    requires Inv(s) && Inv(NextThief(s, id))
    ensures StepOf(s, ThiefStep(id), Abs(s), Abs(NextThief(s, id)))
  {
    hide Ring.Get;
    var t := NextThief(s, id);
    assert ThiefOk(s, ThiefAt(s, id));
    if ThiefAt(s, id).SwapTop? && s.top == ThiefAt(s, id).t {
      assert Content(t) == Content(s)[1..];
      assert Held(t) == Held(s);
      assert StealsOldest(Abs(s), Abs(t));
    } else {
      assert Abs(t) == Abs(s);
    }
  }

  // ----- all runs -----

  /** Every interleaving is a list of actions: who moves next, and what the owner calls. */
  ghost function Run<E>(s: State<E>, actions: seq<Action<E>>): (t: State<E>)
    requires Inv(s)
    ensures Inv(t)
    decreases |actions|
  {
    if actions == [] then s
    else
      NextInv(s, actions[0]);
      Run(Next(s, actions[0]), actions[1..])
  }

  lemma StartChangesNothing<E>(s: State<E>, action: Action<E>)
    requires Inv(s) && (action.StartPush? || action.StartPop?) && Inv(Next(s, action))
    ensures Abs(Next(s, action)) == Abs(s)
  {
    hide Ring.Get;
    assert Content(Next(s, action)) == Content(s);
  }

  lemma NextIsDequeStep<E>(s: State<E>, action: Action<E>)
    requires Inv(s) && Inv(Next(s, action))
    ensures StepOf(s, action, Abs(s), Abs(Next(s, action)))
    ensures DequeStep(Abs(s), Abs(Next(s, action)))
  {
    hide Abs, PushesNewest, TakesNewest, StealsOldest, ReturnsHeld, NextOwner, NextThief;
    match action
    case StartPush(x) => StartChangesNothing(s, action);
    case StartPop => StartChangesNothing(s, action);
    case OwnerStep => OwnerStepIsDequeStep(s);
    case ThiefStep(id) => ThiefStepIsDequeStep(s, id);
  }

  /** Whatever has been pushed was returned, is about to be returned, or is in the deque. */
  ghost predicate Conserved<E>(d: Deque<E>) {
    multiset(d.pushed) == multiset(d.returned) + multiset(d.held) + multiset(d.content)
  }

  lemma DequeStepConserves<E>(d: Deque<E>, d': Deque<E>)
    requires DequeStep(d, d') && Conserved(d)
    ensures Conserved(d')
  {
    if TakesNewest(d, d') {
      var n := |d.content| - 1;
      assert d.content == d.content[..n] + [d.content[n]];
    } else if StealsOldest(d, d') {
      assert d.content == [d.content[0]] + d.content[1..];
    }
  }

  /** The argument of the push the owner is in the middle of. */
  function Pending<E>(owner: Owner<E>): seq<E> {
    match owner
    case PushLoadBottom(x) => [x]
    case PushLoadTop(x, _) => [x]
    case PushLoadArray(x, _, _) => [x]
    case PushCopy(x, _, _, _, _) => [x]
    case PushStoreArray(x, _, _, _) => [x]
    case PushStoreElement(x, _, _) => [x]
    case PushStoreBottom(x, _) => [x]
    case _ => []
  }

  /** Every push that was called has taken effect, in order, except for one still under way. */
  ghost predicate AllPushed<E>(s: State<E>) {
    s.given == s.pushed + Pending(s.owner)
  }

  lemma NextPushes<E>(s: State<E>, action: Action<E>)
    requires Inv(s) && AllPushed(s)
    ensures AllPushed(Next(s, action))
  {
    hide Ring.Get, Inv;
  }

  lemma {:induction false} RunConserves<E>(s: State<E>, actions: seq<Action<E>>)
    requires Inv(s) && Conserved(Abs(s)) && AllPushed(s)
    ensures Conserved(Abs(Run(s, actions))) && AllPushed(Run(s, actions))
    decreases |actions|
  {
    hide Conserved, AllPushed, Abs, Next, StepOf;
    if actions == [] {
    } else {
      NextInv(s, actions[0]);
      NextIsDequeStep(s, actions[0]);
      NextPushes(s, actions[0]);
      DequeStepConserves(Abs(s), Abs(Next(s, actions[0])));
      RunConserves(Next(s, actions[0]), actions[1..]);
    }
  }

  /** From an empty deque, in every interleaving: every element given to a push has been returned, is about
      to be, or is inside, except for the argument of a push under way; and when no element is given twice
      none is returned twice, nor returned while still inside. */
  lemma EachElementOnce<E>(logSize: nat, garbage: E, actions: seq<Action<E>>)
    ensures var s := Run(Init(logSize, garbage), actions);
            && multiset(s.given)
               == multiset(s.returned) + multiset(Held(s)) + multiset(Content(s)) + multiset(Pending(s.owner))
            && s.given == s.pushed + Pending(s.owner) && Conserved(Abs(s))
            && (Distinct(s.given) ==> Distinct(s.returned + Held(s) + Content(s) + Pending(s.owner)))
            && (Distinct(s.pushed) ==> Distinct(s.returned + Held(s) + Content(s)))
  {
    var start := Init(logSize, garbage);
    assert Content(start) == [] && Held(start) == [];
    RunConserves(start, actions);
    var s := Run(start, actions);
    assert multiset(s.given) == multiset(s.pushed) + multiset(Pending(s.owner));
    if Distinct(s.given) {
      var all := s.returned + Held(s) + Content(s) + Pending(s.owner);
      assert multiset(all) == multiset(s.given);
      SameElementsDistinct(s.given, all);
    }
    if Distinct(s.pushed) {
      var inside := s.returned + Held(s) + Content(s);
      assert multiset(inside) == multiset(s.pushed);
      SameElementsDistinct(s.pushed, inside);
    }
  }

  /** A push replaces the ring exactly when it has seen it full. */
  lemma GrowsWhenFull<E>(s: State<E>)
    requires Inv(s) && s.owner.PushLoadArray?
    ensures NextOwner(s).owner.PushCopy? <==> s.owner.b - s.owner.t == Current(s).Size()
    ensures !NextOwner(s).owner.PushCopy? ==> NextOwner(s).owner.PushStoreElement?
  {
  }

  /** The steps the owner has still to make, whatever the thieves do meanwhile. */
  function OwnerWork<E>(owner: Owner<E>, size: nat): int {
    match owner
    case Idle => 0
    case PopLoadBottom => 8
    case PopLoadArray(_) => 7
    case PopStoreBottom(_, _) => 6
    case PopLoadTop(_, _) => 5
    case PopLoadElement(_, _, _) => 4
    case PopSwapTop(_, _, _) => 3
    case PopRestoreBottom(_, _) => 2
    case PopReturn(_) => 1
    case PushLoadBottom(_) => size + 7
    case PushLoadTop(_, _) => size + 6
    case PushLoadArray(_, _, _) => size + 5
    case PushCopy(_, b, _, i, _) => b - i + 4
    case PushStoreArray(_, _, _, _) => 3
    case PushStoreElement(_, _, _) => 2
    case PushStoreBottom(_, _) => 1
  }

  lemma PushGetsOn<E>(s: State<E>)
    requires Inv(s) && Pushing(s)
    ensures 0 <= OwnerWork(NextOwner(s).owner, Current(s).Size()) < OwnerWork(s.owner, Current(s).Size())
  {
    hide Ring.Get, ThiefOk;
  }

  /** Pushes and pops are wait-free: every step of the owner lowers what it has still to do. */
  lemma OwnerFinishes<E>(s: State<E>)
    requires Inv(s) && !s.owner.Idle?
    ensures 0 <= OwnerWork(NextOwner(s).owner, Current(s).Size()) < OwnerWork(s.owner, Current(s).Size())
  {
    if Pushing(s) {
      PushGetsOn(s);
    } else {
      hide Inv, Ring.Get;
    }
  }

  function StealLeft<E>(thief: Thief<E>): nat {
    match thief
    case Away => 0
    case LoadBottom(_) => 4
    case LoadArray(_) => 3
    case LoadElement(_, _) => 2
    case SwapTop(_, _) => 1
  }

  /** So are steals. */
  lemma ThiefFinishes<E>(s: State<E>, id: nat)
    requires Inv(s) && !ThiefAt(s, id).Away?
    ensures StealLeft(ThiefAt(NextThief(s, id), id)) < StealLeft(ThiefAt(s, id))
  {
    hide Ring.Get;
  }

  /** When an operation reports nothing: a pop finds the deque empty; a steal that finds nothing
      finds at most the one element an unfinished pop has reserved; a steal that aborts has seen
      somebody else take the element it was after. */
  lemma NothingIsReportedForAReason<E>(s: State<E>, id: nat)
    requires Inv(s)
    ensures (!s.owner.PopRestoreBottom? && NextOwner(s).owner.PopRestoreBottom?
             && NextOwner(s).owner.result == None) ==> Content(s) == []
    ensures ThiefAt(s, id).LoadBottom? && ThiefAt(NextThief(s, id), id).Away? ==>
              |Content(s)| <= (if End(s) == s.bottom then 0 else 1)
    ensures ThiefAt(s, id).SwapTop? && NextThief(s, id).returned == s.returned ==>
              ThiefAt(s, id).t < s.top
  {
    assert ThiefOk(s, ThiefAt(s, id));
  }

  // ----- what undisturbed calls do -----

  /** The owner alone until its call is over. */
  ghost function Finish<E>(s: State<E>): (t: State<E>)
    requires Inv(s)
    ensures Inv(t) && t.owner.Idle?
    decreases OwnerWork(s.owner, Current(s).Size())
  {
    if s.owner.Idle? then s
    else
      NextInv(s, OwnerStep);
      OwnerFinishes(s);
      SizeMatters(s);
      Finish(Next(s, OwnerStep))
  }

  lemma SizeMatters<E>(s: State<E>)
    requires Inv(s) && Inv(NextOwner(s))
    ensures var t := NextOwner(s);
            OwnerWork(t.owner, Current(t).Size()) == OwnerWork(t.owner, Current(s).Size())
  {
    hide Ring.Get, ThiefOk;
  }

  lemma {:induction false} PushFinishes<E>(s: State<E>)
    requires Inv(s) && Pushing(s)
    ensures var t := Finish(s);
            Content(t) == Content(s) + Pending(s.owner) && t.returned == s.returned && t.thieves == s.thieves
    decreases OwnerWork(s.owner, Current(s).Size())
  {
    NextInv(s, OwnerStep);
    OwnerFinishes(s);
    SizeMatters(s);
    PushStepIsDequeStep(s);
    PushGoesOn(s);
    hide Inv, Ring.Get;
    if Pushing(Next(s, OwnerStep)) {
      PushFinishes(Next(s, OwnerStep));
    }
  }

  lemma PushGoesOn<E>(s: State<E>)
    requires Inv(s) && Pushing(s)
    ensures var t := Next(s, OwnerStep);
            && t.thieves == s.thieves
            && if t.pushed == s.pushed then Pushing(t) && Pending(t.owner) == Pending(s.owner)
               else t.owner.Idle? && t.pushed == s.pushed + Pending(s.owner)
  {
    hide Ring.Get;
  }

  /** A push that nobody disturbs appends its argument, whether or not the ring has to grow. */
  lemma PushAlone<E>(s: State<E>, x: E)
    requires Inv(s) && s.owner.Idle?
    ensures Inv(Next(s, StartPush(x)))
    ensures var t := Finish(Next(s, StartPush(x)));
            Content(t) == Content(s) + [x] && t.returned == s.returned && t.thieves == s.thieves
  {
    NextInv(s, StartPush(x));
    StartChangesNothing(s, StartPush(x));
    PushFinishes(Next(s, StartPush(x)));
  }

  predicate Popping<E>(s: State<E>) {
    !s.owner.Idle? && !Pushing(s)
  }

  /** The pop has taken its element, or found nothing. */
  predicate Decided<E>(owner: Owner<E>) {
    owner.PopRestoreBottom? || owner.PopReturn? || (owner.PopLoadElement? && owner.t < owner.b)
  }

  /** Nobody has moved `top` since the pop read it. */
  predicate Undisturbed<E>(s: State<E>) {
    s.owner.PopSwapTop? || s.owner.PopLoadElement? ==> s.top == s.owner.t
  }

  datatype Outcome<E> = Outcome(content: seq<E>, returned: seq<E>)

  /** How an undisturbed pop will end. */
  ghost function PopOutcome<E>(s: State<E>): Outcome<E>
    requires Inv(s)
  {
    var content := Content(s);
    if Decided(s.owner) || content == [] then Outcome(content, s.returned + Held(s))
    else Outcome(content[..|content| - 1], s.returned + [content[|content| - 1]])
  }

  lemma PopGoesOn<E>(s: State<E>)
    requires Inv(s) && Popping(s) && Undisturbed(s) && Inv(Next(s, OwnerStep))
    ensures var t := Next(s, OwnerStep);
            && t.thieves == s.thieves && (t.owner.Idle? || Popping(t)) && Undisturbed(t)
            && (Decided(s.owner) ==> t.owner.Idle? || Decided(t.owner))
            && (t.owner.Idle? ==> s.owner.PopReturn? && t.returned == s.returned + Held(s))
            && (!t.owner.Idle? ==> t.returned == s.returned)
  {
    hide Ring.Get;
  }

  lemma PopKeepsOutcome<E>(s: State<E>)
    requires Inv(s) && Popping(s) && Undisturbed(s) && Inv(Next(s, OwnerStep))
    ensures var t := Next(s, OwnerStep);
            if t.owner.Idle? then PopOutcome(s) == Outcome(Content(t), t.returned) else PopOutcome(t) == PopOutcome(s)
  {
    PopStepIsDequeStep(s);
    PopGoesOn(s);
    NothingIsReportedForAReason(s, 0);
    hide Ring.Get;
  }

  lemma {:induction false} PopFinishes<E>(s: State<E>)
    requires Inv(s) && Popping(s) && Undisturbed(s)
    ensures var t := Finish(s);
            PopOutcome(s) == Outcome(Content(t), t.returned) && t.thieves == s.thieves
    decreases OwnerWork(s.owner, Current(s).Size())
  {
    NextInv(s, OwnerStep);
    OwnerFinishes(s);
    SizeMatters(s);
    PopGoesOn(s);
    PopKeepsOutcome(s);
    hide Inv, PopOutcome, Ring.Get;
    if !Next(s, OwnerStep).owner.Idle? {
      PopFinishes(Next(s, OwnerStep));
    }
  }

  /** A pop that nobody disturbs returns the newest element, and reports empty only when there is none. */
  lemma PopAlone<E>(s: State<E>)
    requires Inv(s) && s.owner.Idle?
    ensures Inv(Next(s, StartPop))
    ensures var t, c := Finish(Next(s, StartPop)), Content(s);
            && t.thieves == s.thieves
            && if c == [] then Content(t) == [] && t.returned == s.returned
               else Content(t) == c[..|c| - 1] && t.returned == s.returned + [c[|c| - 1]]
  {
    NextInv(s, StartPop);
    StartChangesNothing(s, StartPop);
    PopFinishes(Next(s, StartPop));
  }

  /** Thief `id` alone for `k` steps. */
  ghost function Thieve<E>(s: State<E>, id: nat, k: nat): (t: State<E>)
    requires Inv(s)
    ensures Inv(t)
    decreases k
  {
    if k == 0 then s
    else
      NextInv(s, ThiefStep(id));
      Thieve(Next(s, ThiefStep(id)), id, k - 1)
  }

  lemma ThiefGoesOn<E>(s: State<E>, id: nat)
    requires Inv(s)
    ensures var t, at := Next(s, ThiefStep(id)), ThiefAt(s, id);
            && t.owner == s.owner && t.bottom == s.bottom && t.cur == s.cur
            && match at
               case Away => ThiefAt(t, id) == LoadBottom(s.top) && t.top == s.top && t.returned == s.returned
               case LoadBottom(p) =>
                 (if p < s.bottom then ThiefAt(t, id) == LoadArray(p) else ThiefAt(t, id).Away?)
                 && t.top == s.top && t.returned == s.returned
               case LoadArray(p) =>
                 ThiefAt(t, id).LoadElement? && ThiefAt(t, id).t == p && t.top == s.top && t.returned == s.returned
               case LoadElement(p, _) =>
                 ThiefAt(t, id).SwapTop? && ThiefAt(t, id).t == p && t.top == s.top && t.returned == s.returned
               case SwapTop(p, _) => ThiefAt(t, id).Away? && (p == s.top ==> |t.returned| == |s.returned| + 1)
  {
    hide Ring.Get;
  }

  lemma ThiefSame<E>(s: State<E>, id: nat)
    requires Inv(s) && Next(s, ThiefStep(id)).returned == s.returned && Inv(Next(s, ThiefStep(id)))
    ensures Abs(Next(s, ThiefStep(id))) == Abs(s)
  {
    ThiefStepIsDequeStep(s, id);
  }

  lemma ThiefTakes<E>(s: State<E>, id: nat)
    requires Inv(s) && Inv(Next(s, ThiefStep(id))) && |Next(s, ThiefStep(id)).returned| == |s.returned| + 1
    ensures StealsOldest(Abs(s), Abs(Next(s, ThiefStep(id))))
  {
    ThiefStepIsDequeStep(s, id);
  }

  /** Wherever the owner is in its own call: a steal that no other thief or owner step disturbs returns the
      oldest element unless `top` has reached `bottom`. */
  lemma StealAlone<E>(s: State<E>, id: nat)
    requires Inv(s) && ThiefAt(s, id).Away?
    ensures s.top >= s.bottom ==>
              ThiefAt(Thieve(s, id, 2), id).Away? && Abs(Thieve(s, id, 2)) == Abs(s)
    ensures s.top < s.bottom ==>
              ThiefAt(Thieve(s, id, 5), id).Away? && StealsOldest(Abs(s), Abs(Thieve(s, id, 5)))
  {
    hide Inv, Abs, Next, ThiefAt, StealsOldest;
    var s1 := Thieve(s, id, 1);
    var s2 := Thieve(s1, id, 1);
    ThiefGoesOn(s, id);
    ThiefSame(s, id);
    ThiefGoesOn(s1, id);
    ThiefSame(s1, id);
    assert Thieve(s, id, 2) == s2;
    if s.top < s.bottom {
      var s3 := Thieve(s2, id, 1);
      var s4 := Thieve(s3, id, 1);
      ThiefGoesOn(s2, id);
      ThiefSame(s2, id);
      ThiefGoesOn(s3, id);
      ThiefSame(s3, id);
      ThiefGoesOn(s4, id);
      NextInv(s4, ThiefStep(id));
      ThiefTakes(s4, id);
      assert Thieve(s, id, 5) == Next(s4, ThiefStep(id));
    }
  }
}
