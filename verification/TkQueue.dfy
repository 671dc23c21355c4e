/** The queue of `tk_queue.c` as a state machine: its owner pushes and pops and has a priority slot, any
    number of thieves take from the front with a compare-and-swap on `head`.  A taker loads the array once
    per call, before it loads `head`, so it may go on with an array that has been replaced meanwhile.
  */
module TkQueue {
  import opened CircularArrays
  import opened Options
  import opened Sequences
  import opened QueueCalls

  /** What the owner does next. */
  datatype Owner<E> =
    | Idle
    // tk_queue_push
    | LoadArray(x: E)
    | LoadHead(x: E, a: nat)
    | LoadTail(x: E, a: nat, head: nat)
    | Copy(x: E, a: nat, head: nat, tail: nat, i: nat, grown: Ring<E>)
    | StoreArray(x: E, tail: nat, grown: Ring<E>)
    | StoreElement(x: E, a: nat, tail: nat)
    | StoreTail(x: E, tail: nat)
    // tk_queue_priority_push and tk_queue_pop
    | PriorityLoadSlot(x: E)
    | PriorityStoreSlot(x: E, displaced: Option<E>)
    | PopLoadSlot
    | PopClearSlot(e: E)
    | PopTake

  /** tk_queue_steal, and tk_queue_pop once the priority slot is empty. */
  datatype Taker<E> =
    | Away
    | TakeHead(a: nat)
    | TakeTail(a: nat, head: nat)
    | TakeElement(a: nat, head: nat)
    | SwapHead(a: nat, head: nat, e: E)

  /** Taker 0 is the owner inside tk_queue_pop; the thieves have the numbers from 1 on.
      History: `limits[a]` is the tail at which ring `a` was replaced; `put[k]` is the element pushed at
      position k and `taken[k]` the one returned by the call that moved `head` past k; `given` are the
      arguments of the owner's calls, `popped` what it got from the slot and `log` the calls themselves. */
  datatype State<E> = State(
    head: nat, tail: nat, slot: Option<E>, cur: nat, rings: seq<Ring<E>>, limits: seq<nat>,
    owner: Owner<E>, thieves: nat, takers: map<nat, Taker<E>>,
    put: seq<E>, taken: seq<E>, given: seq<E>, popped: seq<E>, log: Log<E>)

  const OWNER: nat := 0

  datatype Action<E> = Start(call: Call<E>) | OwnerStep | TakeStep(id: nat)

  function TakerAt<E>(s: State<E>, id: nat): Taker<E> {
    if id in s.takers then s.takers[id] else Away
  }

  function Init<E>(thieves: nat, logSize: nat, garbage: E): State<E> {
    State(0, 0, None, 0, [NewRing(logSize, garbage)], [], Idle, thieves, map[], [], [], [], [], [])
  }

  function NextStart<E>(s: State<E>, call: Call<E>): State<E> {
    if !s.owner.Idle? || call.Steal? then s else
    var log := Begin(s.log, call);
    match call
    case Push(x) => s.(given := s.given + [x], owner := LoadArray(x), log := log)
    case PriorityPush(x) => s.(given := s.given + [x], owner := PriorityLoadSlot(x), log := log)
    case Pop => s.(owner := PopLoadSlot, log := log)
  }

  function NextOwner<E>(s: State<E>): State<E>
    requires Inv(s)
  {
    match s.owner
    case Idle => s
    case LoadArray(x) => s.(owner := LoadHead(x, s.cur))
    case LoadHead(x, a) => s.(owner := LoadTail(x, a, s.head))
    case LoadTail(x, a, head) =>
      if s.tail - head > s.rings[a].Size() - 1
      then s.(owner := Copy(x, a, head, s.tail, head, NewRing(s.rings[a].logSize + 1, x)))
      else s.(owner := StoreElement(x, a, s.tail))
    case Copy(x, a, head, tail, i, grown) =>
      if i < tail then s.(owner := Copy(x, a, head, tail, i + 1, grown.Set(i, s.rings[a].Get(i))))
      else s.(owner := StoreArray(x, tail, grown))
    case StoreArray(x, tail, grown) =>
      s.(rings := s.rings + [grown], limits := s.limits + [tail], cur := |s.rings|,
         owner := StoreElement(x, |s.rings|, tail))
    case StoreElement(x, a, tail) =>
      s.(rings := s.rings[a := s.rings[a].Set(tail, x)], owner := StoreTail(x, tail))
    case StoreTail(x, tail) =>
      s.(tail := tail + 1, put := s.put + [x], owner := Idle, log := NoteDone(NotePut(s.log, x), None))
    case PriorityLoadSlot(x) => s.(owner := PriorityStoreSlot(x, s.slot))
    case PriorityStoreSlot(x, displaced) =>
      if displaced.Some? then s.(slot := Some(x), owner := LoadArray(displaced.value))
      else s.(slot := Some(x), owner := Idle, log := NoteDone(s.log, None))
    case PopLoadSlot => s.(owner := if s.slot.Some? then PopClearSlot(s.slot.value) else PopTake)
    case PopClearSlot(e) =>
      s.(slot := None, popped := s.popped + [e], owner := Idle, log := NoteDone(s.log, Some(e)))
    case PopTake => s
  }

  function Goto<E>(s: State<E>, id: nat, taker: Taker<E>): State<E> {
    s.(takers := s.takers[id := taker])
  }

  /** The owner takes only inside its pop; when the taking ends, so does the pop. */
  function Leave<E>(s: State<E>, id: nat, answer: Option<E>): State<E> {
    var t := Goto(s, id, Away);
    if id != OWNER then t
    else
      var log := if answer.Some? then NoteTook(s.log, answer.value) else s.log;
      t.(owner := Idle, log := NoteDone(log, answer))
  }

  function NextTake<E>(s: State<E>, id: nat): State<E>
    requires Inv(s)
  {
    assert TakerOk(s, TakerAt(s, id));
    match TakerAt(s, id)
    case Away => if id > s.thieves || (id == OWNER && !s.owner.PopTake?) then s else Goto(s, id, TakeHead(s.cur))
    case TakeHead(a) => Goto(s, id, TakeTail(a, s.head))
    case TakeTail(a, head) => if head == s.tail then Leave(s, id, None) else Goto(s, id, TakeElement(a, head))
    case TakeElement(a, head) => Goto(s, id, SwapHead(a, head, s.rings[a].Get(head)))
    case SwapHead(a, head, e) =>
      if s.head == head then Leave(s.(head := head + 1, taken := s.taken + [e]), id, Some(e))
      else Goto(s, id, TakeHead(a))
  }

  function Next<E>(s: State<E>, action: Action<E>): State<E>
    requires Inv(s)
  {
    match action
    case Start(call) => NextStart(s, call)
    case OwnerStep => NextOwner(s)
    case TakeStep(id) => NextTake(s, id)
  }

  // ----- invariant -----

  ghost predicate RingsOk<E>(s: State<E>) {
    && |s.rings| == s.cur + 1 && |s.limits| == s.cur
    && (forall a | 0 <= a < |s.rings| :: s.rings[a].Valid() && s.rings[a].Size() > 0)
    && s.head <= s.tail <= s.head + s.rings[s.cur].Size()
    && |s.put| == s.tail && |s.taken| == s.head
    && (forall j | s.head <= j < s.tail :: s.rings[s.cur].Get(j) == s.put[j])
    && (forall a | 0 <= a < s.cur :: Frozen(s, a))
  }

  /** A replaced ring was full: it keeps the last elements pushed before it was replaced. */
  ghost predicate Frozen<E>(s: State<E>, a: nat)
    requires a < |s.limits| <= |s.rings| && s.rings[a].Valid()
  {
    var size, limit := s.rings[a].Size(), s.limits[a];
    && size <= limit <= s.head + size && limit <= s.tail <= |s.put|
    && forall j | limit - size <= j < limit :: s.rings[a].Get(j) == s.put[j]
  }

  ghost predicate OwnerOk<E>(s: State<E>)
    requires RingsOk(s)
  {
    var ring := s.rings[s.cur];
    match s.owner
    case Idle => true
    case LoadArray(_) => true
    case LoadHead(_, a) => a == s.cur
    case LoadTail(_, a, head) =>
      && a == s.cur && head <= s.head && s.tail <= head + ring.Size()
      && forall j | head <= j < s.tail :: ring.Get(j) == s.put[j]
    case Copy(_, a, head, tail, i, grown) =>
      && a == s.cur && tail == s.tail == head + ring.Size() && head <= s.head && head <= i <= tail
      && grown.Valid() && grown.Size() == 2 * ring.Size()
      && (forall j: nat | head <= j < tail :: ring.Get(j) == s.put[j])
      && forall j: nat | head <= j < i :: grown.Get(j) == s.put[j]
    case StoreArray(_, tail, grown) =>
      && tail == s.tail && ring.Size() <= tail <= s.head + ring.Size()
      && grown.Valid() && grown.Size() == 2 * ring.Size()
      && forall j: nat | tail - ring.Size() <= j < tail :: grown.Get(j) == ring.Get(j) == s.put[j]
    case StoreElement(_, a, tail) => a == s.cur && tail == s.tail < s.head + ring.Size()
    case StoreTail(x, tail) => tail == s.tail < s.head + ring.Size() && ring.Get(tail) == x
    case PriorityLoadSlot(_) => true
    case PriorityStoreSlot(_, displaced) => displaced == s.slot
    case PopLoadSlot => true
    case PopClearSlot(e) => s.slot == Some(e)
    case PopTake => true
  }

  /** What a taker has read stays what its ring holds for as long as nobody else moves `head`. */
  ghost predicate TakerOk<E>(s: State<E>, taker: Taker<E>)
    requires RingsOk(s)
  {
    match taker
    case Away => true
    case TakeHead(a) => a <= s.cur
    case TakeTail(a, head) => a <= s.cur && head <= s.head
    case TakeElement(a, head) => a <= s.cur && head <= s.head && (head == s.head ==> head < s.tail)
    case SwapHead(a, head, e) =>
      a <= s.cur && head <= s.head && (head == s.head ==> head < s.tail && e == s.rings[a].Get(head))
  }

  ghost predicate Inv<E>(s: State<E>) {
    && RingsOk(s) && OwnerOk(s)
    && (forall id | id in s.takers :: id <= s.thieves && TakerOk(s, s.takers[id]))
    && (!TakerAt(s, OWNER).Away? ==> s.owner.PopTake?)
  }

  lemma InitInv<E>(thieves: nat, logSize: nat, garbage: E)
    ensures Inv(Init(thieves, logSize, garbage))
  {
  }

  // ----- every step keeps it -----

  predicate OnSlot<E>(owner: Owner<E>) {
    owner.PriorityLoadSlot? || owner.PriorityStoreSlot? || owner.PopLoadSlot? || owner.PopClearSlot?
  }

  /** Rings stay in order when neither they nor the pushed elements change. */
  lemma RingsKept<E>(s: State<E>, t: State<E>)
    requires RingsOk(s) && t.rings == s.rings && t.cur == s.cur && t.limits == s.limits && t.put == s.put
    requires s.head <= t.head <= t.tail == s.tail && |t.taken| == t.head
    ensures RingsOk(t)
  {
    hide Ring.Get;
    forall a | 0 <= a < t.cur ensures Frozen(t, a) {
      assert Frozen(s, a);
    }
  }

  lemma SlotStep<E>(s: State<E>)
    requires Inv(s) && OnSlot(s.owner)
    ensures RingsOk(NextOwner(s)) && OwnerOk(NextOwner(s))
  {
    hide Ring.Get, Frozen;
    RingsKept(s, NextOwner(s));
  }

  lemma PushLoads<E>(s: State<E>)
    requires Inv(s) && (s.owner.LoadArray? || s.owner.LoadHead? || s.owner.LoadTail?)
    ensures RingsOk(NextOwner(s)) && OwnerOk(NextOwner(s))
  {
    hide Ring.Get, Frozen;
    RingsKept(s, NextOwner(s));
  }

  lemma PushCopies<E>(s: State<E>)
    requires Inv(s) && s.owner.Copy?
    ensures RingsOk(NextOwner(s)) && OwnerOk(NextOwner(s))
  {
    hide Ring.Get, Frozen;
    RingsKept(s, NextOwner(s));
  }

  lemma PushStoreArray<E>(s: State<E>)
    requires Inv(s) && s.owner.StoreArray?
    ensures RingsOk(NextOwner(s)) && OwnerOk(NextOwner(s))
  {
    hide Ring.Get;
    var t := NextOwner(s);
    forall a | 0 <= a < t.cur ensures Frozen(t, a) {
      if a < s.cur { assert Frozen(s, a); }
    }
  }

  lemma PushStoreElement<E>(s: State<E>)
    requires Inv(s) && s.owner.StoreElement?
    ensures RingsOk(NextOwner(s)) && OwnerOk(NextOwner(s))
  {
    hide Ring.Get;
    var t := NextOwner(s);
    var ring := s.rings[s.cur].Set(s.tail, s.owner.x);
    assert t.rings[s.cur] == ring;
    forall a | 0 <= a < t.cur ensures Frozen(t, a) {
      assert Frozen(s, a);
    }
  }

  lemma PushStoreTail<E>(s: State<E>)
    requires Inv(s) && s.owner.StoreTail?
    ensures RingsOk(NextOwner(s)) && OwnerOk(NextOwner(s))
  {
    hide Ring.Get;
    var t := NextOwner(s);
    forall a | 0 <= a < t.cur ensures Frozen(t, a) {
      assert Frozen(s, a);
    }
  }

  /** What the owner's steps leave alone for the takers. */
  lemma TakerKept<E>(s: State<E>, t: State<E>, taker: Taker<E>)
    requires Inv(s) && t == NextOwner(s) && RingsOk(t) && TakerOk(s, taker)
    ensures TakerOk(t, taker)
  {
    hide Ring.Get, Frozen;
    if s.owner.StoreElement? {
      var ring := s.rings[s.cur].Set(s.tail, s.owner.x);
      assert t.rings[s.cur] == ring;
    }
  }

  lemma OwnerWaits<E>(s: State<E>)
    requires Inv(s) && (s.owner.Idle? || s.owner.PopTake?)
    ensures NextOwner(s) == s
  {
    hide RingsOk;
  }

  lemma OwnerInv<E>(s: State<E>)
    requires Inv(s)
    ensures Inv(NextOwner(s))
  {
    hide Ring.Get, Frozen, NextOwner;
    if s.owner.StoreArray? { PushStoreArray(s); }
    else if s.owner.StoreElement? { PushStoreElement(s); }
    else if s.owner.StoreTail? { PushStoreTail(s); }
    else if OnSlot(s.owner) { SlotStep(s); }
    else if s.owner.Copy? { PushCopies(s); }
    else if s.owner.Idle? || s.owner.PopTake? { OwnerWaits(s); }
    else { PushLoads(s); }
    var t := NextOwner(s);
    OwnerKeepsTakers(s);
    forall id | id in t.takers ensures TakerOk(t, t.takers[id]) {
      TakerKept(s, t, s.takers[id]);
    }
  }

  lemma OwnerKeepsTakers<E>(s: State<E>)
    requires Inv(s)
    ensures NextOwner(s).takers == s.takers && NextOwner(s).thieves == s.thieves
    ensures s.owner.PopTake? ==> NextOwner(s) == s
  {
    hide Ring.Get, Frozen;
  }

  lemma TakeRings<E>(s: State<E>, id: nat)
    requires Inv(s)
    ensures RingsOk(NextTake(s, id)) && OwnerOk(NextTake(s, id))
  {
    assert TakerOk(s, TakerAt(s, id));
    TakeFields(s, id);
    hide Ring.Get, Frozen, NextTake;
    RingsKept(s, NextTake(s, id));
  }

  lemma TakeFields<E>(s: State<E>, id: nat)
    requires Inv(s)
    ensures var t := NextTake(s, id);
      && t.rings == s.rings && t.cur == s.cur && t.limits == s.limits && t.put == s.put && t.slot == s.slot
      && s.head <= t.head <= t.tail == s.tail && |t.taken| == t.head && (t.owner == s.owner || t.owner.Idle?)
  {
    hide Ring.Get, Frozen, OwnerOk;
    assert TakerOk(s, TakerAt(s, id));
  }

  /** What the step of one taker leaves alone for the others. */
  lemma TakerUndisturbed<E>(s: State<E>, t: State<E>, taker: Taker<E>)
    requires RingsOk(s) && RingsOk(t) && TakerOk(s, taker)
    requires t.rings == s.rings && t.cur == s.cur && t.tail == s.tail && s.head <= t.head
    ensures TakerOk(t, taker)
  {
    hide Ring.Get, RingsOk;
  }

  lemma TakerItself<E>(s: State<E>, id: nat)
    requires Inv(s) && RingsOk(NextTake(s, id))
    ensures TakerOk(NextTake(s, id), TakerAt(NextTake(s, id), id))
  {
    assert TakerOk(s, TakerAt(s, id));
    hide Ring.Get, RingsOk, Inv;
  }

  lemma TakerFrame<E>(s: State<E>, id: nat)
    requires Inv(s)
    ensures var t := NextTake(s, id);
      && t.thieves == s.thieves && (t.takers == s.takers || id <= s.thieves)
      && t.takers.Keys <= s.takers.Keys + {id}
      && (forall other | other in t.takers && other != id :: other in s.takers && t.takers[other] == s.takers[other])
      && t.rings == s.rings && t.cur == s.cur && t.tail == s.tail && s.head <= t.head
      && (!TakerAt(t, OWNER).Away? ==> t.owner.PopTake?)
  {
    hide Ring.Get, RingsOk, OwnerOk, TakerOk;
  }

  lemma TakeInv<E>(s: State<E>, id: nat)
    requires Inv(s)
    ensures Inv(NextTake(s, id))
  {
    TakeRings(s, id);
    TakerItself(s, id);
    TakerFrame(s, id);
    hide Ring.Get, RingsOk, OwnerOk, TakerOk, NextTake;
    var t := NextTake(s, id);
    forall other | other in t.takers ensures other <= t.thieves && TakerOk(t, t.takers[other]) {
      if other != id { TakerUndisturbed(s, t, s.takers[other]); }
    }
  }

  lemma StartInv<E>(s: State<E>, call: Call<E>)
    requires Inv(s)
    ensures Inv(NextStart(s, call))
  {
    hide Ring.Get;
    var t := NextStart(s, call);
    assert forall a | 0 <= a < s.cur :: Frozen(s, a) ==> Frozen(t, a);
    assert forall id | id in s.takers :: TakerOk(s, s.takers[id]) ==> TakerOk(t, t.takers[id]);
  }

  lemma NextInv<E>(s: State<E>, action: Action<E>)
    requires Inv(s)
    ensures Inv(Next(s, action))
  {
    match action
    case Start(call) => StartInv(s, call);
    case OwnerStep => OwnerInv(s);
    case TakeStep(id) => TakeInv(s, id);
  }

  ghost function Run<E>(s: State<E>, actions: seq<Action<E>>): (t: State<E>)
    requires Inv(s)
    ensures Inv(t)
    decreases |actions|
  {
    if actions == [] then s
    else
      NextInv(s, actions[0]);
      Run(Next(s, actions[0]), actions[1..])
  }

  /** A take reports an empty queue only when nothing is left in it. */
  lemma EmptyIsEmpty<E>(s: State<E>, id: nat)
    requires Inv(s) && TakerAt(s, id).TakeTail?
    ensures TakerAt(NextTake(s, id), id).Away? ==> s.head == s.tail && |s.taken| == |s.put|
    ensures TakerAt(NextTake(s, id), id).Away? <==> TakerAt(s, id).head == s.tail
  {
    hide Ring.Get;
    assert TakerOk(s, TakerAt(s, id));
  }

  // ----- the slot -----

  ghost function InSlot<E>(slot: Option<E>, x: E): nat {
    if slot.Some? then One(slot.value == x) else 0
  }

  /** Copies of `x` in the owner's hands. */
  ghost function InHand<E>(owner: Owner<E>, x: E): nat {
    match owner
    case LoadArray(e) => One(e == x)
    case LoadHead(e, _) => One(e == x)
    case LoadTail(e, _, _) => One(e == x)
    case Copy(e, _, _, _, _, _) => One(e == x)
    case StoreArray(e, _, _) => One(e == x)
    case StoreElement(e, _, _) => One(e == x)
    case StoreTail(e, _) => One(e == x)
    case PriorityLoadSlot(e) => One(e == x)
    case PriorityStoreSlot(e, _) => One(e == x)
    case _ => 0
  }

  /** Every element the owner was given has been pushed, or popped from the slot, or is in the slot or in the
      owner's hands, once for each time it was given. */
  ghost predicate Balanced<E>(s: State<E>, x: E) {
    Among(s.given, x) == Among(s.put, x) + Among(s.popped, x) + InSlot(s.slot, x) + InHand(s.owner, x)
  }

  lemma StartBalanced<E>(s: State<E>, call: Call<E>, x: E)
    requires Balanced(s, x)
    ensures Balanced(NextStart(s, call), x)
  {
    hide Among;
    if call.Push? || call.PriorityPush? { AmongAppend(s.given, call.x, x); }
  }

  lemma OwnerBalanced<E>(s: State<E>, x: E)
    requires Inv(s) && Balanced(s, x)
    ensures Balanced(NextOwner(s), x)
  {
    hide Among, Ring.Get, RingsOk, One;
    if s.owner.StoreTail? { AmongAppend(s.put, s.owner.x, x); }
    if s.owner.PopClearSlot? { AmongAppend(s.popped, s.owner.e, x); }
  }

  lemma NextBalanced<E>(s: State<E>, action: Action<E>, x: E)
    requires Inv(s) && Balanced(s, x)
    ensures Balanced(Next(s, action), x)
  {
    match action
    case Start(call) => StartBalanced(s, call, x);
    case OwnerStep => OwnerBalanced(s, x);
    case TakeStep(id) => TakeBalanced(s, id, x);
  }

  lemma TakeBalanced<E>(s: State<E>, id: nat, x: E)
    requires Inv(s) && Balanced(s, x)
    ensures Balanced(NextTake(s, id), x)
  {
    hide Among, Ring.Get, RingsOk, NextOwner, OwnerOk, TakerOk;
  }

  lemma {:induction false} RunBalanced<E>(s: State<E>, actions: seq<Action<E>>, x: E)
    requires Inv(s) && Balanced(s, x)
    ensures Balanced(Run(s, actions), x)
    decreases |actions|
  {
    if actions == [] {
    } else {
      NextInv(s, actions[0]);
      NextBalanced(s, actions[0], x);
      RunBalanced(Next(s, actions[0]), actions[1..], x);
    }
  }

  /** In every run, whatever the thieves do, no element given to the owner's calls is lost or doubled on its
      way through the slot. */
  lemma EveryElementOnce<E>(thieves: nat, logSize: nat, garbage: E, actions: seq<Action<E>>, x: E)
    ensures Inv(Init(thieves, logSize, garbage))
    ensures Balanced(Run(Init(thieves, logSize, garbage), actions), x)
  {
    InitInv(thieves, logSize, garbage);
    RunBalanced(Init(thieves, logSize, garbage), actions, x);
  }

  // ----- every call of the owner does what its history demands -----

  function OpOf<E>(owner: Owner<E>): Op<E> {
    match owner
    case Idle => Out
    case LoadArray(x) => Pushing(x)
    case LoadHead(x, _) => Pushing(x)
    case LoadTail(x, _, _) => Pushing(x)
    case Copy(x, _, _, _, _, _) => Pushing(x)
    case StoreArray(x, _, _) => Pushing(x)
    case StoreElement(x, _, _) => Pushing(x)
    case StoreTail(x, _) => Pushing(x)
    case PriorityLoadSlot(x) => Displacing(x)
    case PriorityStoreSlot(x, _) => Displacing(x)
    case PopLoadSlot => Popping
    case PopClearSlot(_) => Popping
    case PopTake => Taking
  }

  ghost predicate LogOk<E>(s: State<E>) {
    && AllRight(s.log) && CallAt(OpOf(s.owner), s.log) && SlotFollows(s.slot, OpOf(s.owner), s.log)
    && (s.owner.PopTake? ==> s.log[|s.log| - 1].call.Pop?)
  }

  lemma StartLog<E>(s: State<E>, call: Call<E>)
    requires LogOk(s)
    ensures LogOk(NextStart(s, call))
  {
    BeginKeeps(s.log, call);
    hide AllRight, SlotBefore;
  }

  /** A push puts its argument, or what the priority push displaced, into the ring and returns. */
  lemma PushedLog<E>(s: State<E>)
    requires LogOk(s) && Inv(s) && s.owner.StoreTail?
    ensures LogOk(NextOwner(s))
  {
    hide RingsOk, AllRight, SlotBefore, SlotAfter, NotePut, NoteDone;
    var x := s.owner.x;
    PutFollows(s.log, x);
    DoneFollows(NotePut(s.log, x), None);
  }

  lemma PopLog<E>(s: State<E>)
    requires LogOk(s) && Inv(s) && (s.owner.PopLoadSlot? || s.owner.PopClearSlot?)
    ensures LogOk(NextOwner(s))
  {
    if s.owner.PopClearSlot? { DoneFollows(s.log, s.slot); }
    hide RingsOk, AllRight, NoteDone;
  }

  lemma PriorityLoadLog<E>(s: State<E>)
    requires LogOk(s) && Inv(s) && s.owner.PriorityLoadSlot?
    ensures LogOk(NextOwner(s))
  {
    hide Inv, AllRight, SlotBefore, SlotAfter;
  }

  lemma FirstInSlotLog<E>(s: State<E>)
    requires LogOk(s) && Inv(s) && s.owner.PriorityStoreSlot? && s.slot.None?
    ensures LogOk(NextOwner(s))
  {
    assert s.owner.displaced == s.slot;
    hide Inv, AllRight, SlotBefore, SlotAfter, NoteDone;
    DoneFollows(s.log, None);
    SlotAfterPush(s.log, s.owner.x);
  }

  lemma DisplacedLog<E>(s: State<E>)
    requires LogOk(s) && Inv(s) && s.owner.PriorityStoreSlot? && s.slot.Some?
    ensures LogOk(NextOwner(s))
  {
    assert s.owner.displaced == s.slot;
    hide Inv, AllRight, SlotBefore, SlotAfter, NoteDone;
    SlotAfterPush(s.log, s.owner.x);
  }

  lemma QuietLog<E>(s: State<E>)
    requires LogOk(s) && Inv(s) && !s.owner.StoreTail? && !OnSlot(s.owner)
    ensures LogOk(NextOwner(s))
  {
    hide RingsOk, AllRight, SlotBefore, SlotAfter, Ring.Get;
  }

  lemma OwnerLog<E>(s: State<E>)
    requires LogOk(s) && Inv(s)
    ensures LogOk(NextOwner(s))
  {
    hide LogOk, Inv, NextOwner;
    if s.owner.StoreTail? { PushedLog(s); }
    else if s.owner.PopLoadSlot? || s.owner.PopClearSlot? { PopLog(s); }
    else if s.owner.PriorityLoadSlot? { PriorityLoadLog(s); }
    else if s.owner.PriorityStoreSlot? {
      if s.slot.Some? { DisplacedLog(s); } else { FirstInSlotLog(s); }
    }
    else { QuietLog(s); }
  }

  lemma LeaveLog<E>(s: State<E>, answer: Option<E>)
    requires LogOk(s) && s.owner.PopTake?
    ensures LogOk(Leave(s, OWNER, answer))
  {
    hide AllRight, SlotBefore, SlotAfter, NoteTook, NoteDone;
    if answer.Some? {
      TookFollows(s.log, answer.value);
      DoneFollows(NoteTook(s.log, answer.value), answer);
    } else {
      DoneFollows(s.log, None);
    }
  }

  lemma TakeLog<E>(s: State<E>, id: nat)
    requires LogOk(s) && Inv(s)
    ensures LogOk(NextTake(s, id))
  {
    var taker := TakerAt(s, id);
    hide RingsOk, OwnerOk, TakerOk, AllRight, SlotBefore, SlotAfter, Ring.Get;
    if id == OWNER && taker.TakeTail? && taker.head == s.tail {
      LeaveLog(s, None);
    } else if id == OWNER && taker.SwapHead? && taker.head == s.head {
      LeaveLog(s.(head := s.head + 1, taken := s.taken + [taker.e]), Some(taker.e));
    }
  }

  lemma {:induction false} RunLog<E>(s: State<E>, actions: seq<Action<E>>)
    requires Inv(s) && LogOk(s)
    ensures LogOk(Run(s, actions))
    decreases |actions|
  {
    hide LogOk, NextOwner, NextTake, NextStart;
    if actions == [] {
    } else {
      NextInv(s, actions[0]);
      match actions[0] {
        case Start(call) => StartLog(s, call);
        case OwnerStep => OwnerLog(s);
        case TakeStep(id) => TakeLog(s, id);
      }
      RunLog(Next(s, actions[0]), actions[1..]);
    }
  }

  /** In every run every finished call of the owner has done what the calls before it demand: a push has put its
      argument into the ring, a priority push what the last priority push had left in the slot, a pop has
      answered with that or, when there was nothing, with what it took from the ring; and between calls the
      slot holds the argument of the last priority push, unless a pop came after it. */
  lemma EveryCallIsRight<E>(thieves: nat, logSize: nat, garbage: E, actions: seq<Action<E>>)
    ensures Inv(Init(thieves, logSize, garbage))
    ensures var s := Run(Init(thieves, logSize, garbage), actions);
      && LogOk(s) && AllRight(s.log) && (s.owner.Idle? <==> !Busy(s.log))
      && (!OnSlot(s.owner) ==> s.slot == SlotAfter(s.log))
  {
    InitInv(thieves, logSize, garbage);
    RunLog(Init(thieves, logSize, garbage), actions);
    hide Run, AllRight, SlotAfter, SlotBefore;
  }

  /** A pop reports an empty queue only when its slot and the ring are empty. */
  lemma EmptyPop<E>(s: State<E>)
    requires Inv(s) && LogOk(s) && TakerAt(s, OWNER).TakeTail? && TakerAt(s, OWNER).head == s.tail
    ensures NextTake(s, OWNER).owner.Idle? && s.slot.None? && s.head == s.tail
  {
    EmptyIsEmpty(s, OWNER);
    assert s.owner.PopTake?;
    assert CallAt(Taking, s.log) && SlotFollows(s.slot, Taking, s.log);
    hide RingsOk, OwnerOk, AllRight, TakerOk;
    assert SlotAfter(s.log) == None;
  }

  // ----- which takes are right -----

  /** A ring sees only remainders of positions. */
  lemma GetRepeats<E>(ring: Ring<E>, low: nat, h: nat) returns (p: nat)
    requires ring.Valid() && ring.Size() > 0 && low <= h
    ensures low <= p < low + ring.Size() && p <= h && ring.Get(p) == ring.Get(h)
  {
    var n := ring.Size();
    p := h;
    while p >= low + n
      invariant low <= p <= h && p % n == h % n
    {
      Lap(p, n);
      p := p - n;
    }
  }

  lemma Lap(p: nat, n: nat)
    requires 0 < n <= p
    ensures (p - n) % n == p % n
  {
    var d := p / n - (p - n) / n - 1;
    assert (p - n) % n - p % n == d * n;
    OnlyZeroMultiple(d, n);
  }

  /** Each successful take moves `head` past one position, in order.  What it returns is the element
      pushed at that position exactly when the ring it loaded at the start of its call has not been
      replaced since, or the position had been pushed before it was replaced. */
  lemma TakeIsRightIff<E>(s: State<E>, id: nat)
    requires Inv(s) && TakerAt(s, id).SwapHead? && s.head == TakerAt(s, id).head
    ensures var t, taker := NextTake(s, id), TakerAt(s, id);
      && t.head == s.head + 1 && s.head < |s.put|
      && t.taken == s.taken + [taker.e]
      && (taker.a == s.cur || s.head < s.limits[taker.a] ==> taker.e == s.put[s.head])
      && (Distinct(s.put) && taker.e == s.put[s.head] ==> taker.a == s.cur || s.head < s.limits[taker.a])
  {
    hide Ring.Get;
    var taker := TakerAt(s, id);
    assert TakerOk(s, taker);
    if taker.a < s.cur {
      assert Frozen(s, taker.a);
      var ring, limit := s.rings[taker.a], s.limits[taker.a];
      if limit <= s.head {
        var p := GetRepeats(ring, limit - ring.Size(), s.head);
        assert s.put[p] == taker.e;
      }
    }
  }

  /** No array is replaced while a take is under way. */
  ghost predicate NoGrowthDuringTakes<E>(s: State<E>, actions: seq<Action<E>>)
    requires Inv(s)
    decreases |actions|
  {
    actions == [] ||
      (&& (actions[0].OwnerStep? && s.owner.StoreArray? ==> forall id :: TakerAt(s, id).Away?)
       && (NextInv(s, actions[0]); NoGrowthDuringTakes(Next(s, actions[0]), actions[1..])))
  }

  ghost predicate AllCurrent<E>(s: State<E>) {
    && s.taken <= s.put
    && forall id | id in s.takers && !s.takers[id].Away? :: s.takers[id].a == s.cur
  }

  lemma GrowthCurrent<E>(s: State<E>)
    requires Inv(s) && AllCurrent(s)
    requires s.owner.StoreArray? ==> forall id :: TakerAt(s, id).Away?
    ensures AllCurrent(NextOwner(s))
  {
    hide Ring.Get, Frozen;
    if s.owner.StoreArray? {
      forall id | id in s.takers ensures s.takers[id].Away? {
        assert TakerAt(s, id).Away?;
      }
    }
  }

  lemma TakeCurrent<E>(s: State<E>, id: nat)
    requires Inv(s) && AllCurrent(s)
    ensures AllCurrent(NextTake(s, id))
  {
    hide Ring.Get, Frozen, OwnerOk;
    if TakerAt(s, id).SwapHead? && s.head == TakerAt(s, id).head { TakeIsRightIff(s, id); }
  }

  lemma NextCurrent<E>(s: State<E>, action: Action<E>)
    requires Inv(s) && AllCurrent(s)
    requires action.OwnerStep? && s.owner.StoreArray? ==> forall id :: TakerAt(s, id).Away?
    ensures AllCurrent(Next(s, action))
  {
    match action
    case Start(_) =>
    case OwnerStep => GrowthCurrent(s);
    case TakeStep(id) => TakeCurrent(s, id);
  }

  /** In every run in which no growth overlaps a take, elements leave in the order in which they were
      pushed, each exactly once. */
  lemma {:induction false} TakenInOrder<E>(s: State<E>, actions: seq<Action<E>>)
    requires Inv(s) && AllCurrent(s) && NoGrowthDuringTakes(s, actions)
    ensures AllCurrent(Run(s, actions))
    decreases |actions|
  {
    if actions == [] {
    } else {
      NextInv(s, actions[0]);
      NextCurrent(s, actions[0]);
      TakenInOrder(Next(s, actions[0]), actions[1..]);
    }
  }

  // ----- a stale take -----

  lemma NoMoves<E>(s: State<E>)
    requires Inv(s)
    ensures Run(s, []) == s
  {
  }

  lemma OneMove<E>(s: State<E>, action: Action<E>, rest: seq<Action<E>>)
    requires Inv(s)
    ensures Inv(Next(s, action)) && Run(s, [action] + rest) == Run(Next(s, action), rest)
  {
    NextInv(s, action);
    assert ([action] + rest)[1..] == rest;
  }

  lemma {:induction false} RunAppend<E>(s: State<E>, first: seq<Action<E>>, second: seq<Action<E>>)
    requires Inv(s)
    ensures Run(s, first + second) == Run(Run(s, first), second)
    decreases |first|
  {
    if first == [] {
      assert first + second == second;
    } else {
      NextInv(s, first[0]);
      assert (first + second)[1..] == first[1..] + second;
      RunAppend(Next(s, first[0]), first[1..], second);
    }
  }

  /** One more action at the end of a run. */
  lemma OneMore<E>(s: State<E>, actions: seq<Action<E>>, action: Action<E>) returns (t: State<E>)
    requires Inv(s)
    ensures Inv(t) && t == Run(s, actions + [action]) == Next(Run(s, actions), action)
  {
    RunAppend(s, actions, [action]);
    OneMove(Run(s, actions), action, []);
    t := Run(s, actions + [action]);
  }

  /** Between two calls: the owner is idle, its slot empty, and it is not taking. */
  ghost predicate Ready<E>(s: State<E>) {
    Inv(s) && s.owner.Idle? && s.slot.None?
  }

  /** What a completed push leaves behind. */
  ghost predicate Pushed<E>(s: State<E>, t: State<E>, xs: seq<E>) {
    && Ready(t) && t.put == s.put + xs && t.tail == s.tail + |xs|
    && t.head == s.head && t.taken == s.taken && t.takers == s.takers && t.thieves == s.thieves
  }

  lemma PushFits<E>(s: State<E>, x: E) returns (actions: seq<Action<E>>, t: State<E>)
    requires Ready(s) && s.tail - s.head < s.rings[s.cur].Size()
    ensures t == Run(s, actions) && Pushed(s, t, [x])
    ensures t.cur == s.cur && t.limits == s.limits && t.rings[t.cur].Size() == s.rings[s.cur].Size()
  {
    assert s.cur < |s.rings| && s.rings[s.cur].Valid();
    hide Ring.Get, NextTake, RingsOk, OwnerOk, TakerOk, Frozen, AllRight, NoteDone, NotePut;
    t := OneMore(s, [], Start(Push(x)));
    t := OneMore(s, [Start(Push(x))], OwnerStep);
    actions := [Start(Push(x))] + [OwnerStep];
    t := OneMore(s, actions, OwnerStep);
    actions := actions + [OwnerStep];
    t := OneMore(s, actions, OwnerStep);
    actions := actions + [OwnerStep];
    assert t.owner == StoreElement(x, s.cur, s.tail);
    var rest, u := StoreLast(t);
    RunAppend(s, actions, rest);
    actions, t := actions + rest, u;
  }

  lemma {:induction false} PushMany<E>(s: State<E>, xs: seq<E>) returns (actions: seq<Action<E>>, t: State<E>)
    requires Ready(s) && s.tail - s.head + |xs| <= s.rings[s.cur].Size()
    ensures t == Run(s, actions) && Pushed(s, t, xs)
    ensures t.cur == s.cur && t.limits == s.limits && t.rings[t.cur].Size() == s.rings[s.cur].Size()
    decreases |xs|
  {
    hide Inv, Ring.Get;
    if xs == [] {
      actions, t := [], s;
      assert s.put + xs == s.put;
    } else {
      assert xs == [xs[0]] + xs[1..];
      var first, mid := PushFits(s, xs[0]);
      var rest;
      rest, t := PushMany(mid, xs[1..]);
      RunAppend(s, first, rest);
      actions := first + rest;
      assert s.put + xs == s.put + [xs[0]] + xs[1..];
    }
  }

  /** What a growing push has not yet changed when its copy is complete. */
  ghost predicate Copying<E>(s: State<E>, t: State<E>, y: E) {
    && Inv(t) && t.slot.None? && t.put == s.put && t.tail == s.tail && t.head == s.head && t.taken == s.taken
    && t.takers == s.takers && t.thieves == s.thieves && t.cur == s.cur && t.rings == s.rings && t.limits == s.limits
  }

  lemma {:induction false} CopyAll<E>(s: State<E>) returns (actions: seq<Action<E>>, t: State<E>)
    requires Inv(s) && s.slot.None? && s.owner.Copy?
    ensures t == Run(s, actions) && Copying(s, t, s.owner.x)
    ensures t.owner.StoreArray? && t.owner.x == s.owner.x && t.owner.tail == s.tail
    decreases s.owner.tail - s.owner.i
  {
    var mid := OneMore(s, [], OwnerStep);
    assert s.owner.tail == s.tail;
    hide Ring.Get, RingsOk, TakerOk, NextTake, Frozen;
    if s.owner.i >= s.owner.tail {
      actions, t := [OwnerStep], mid;
    } else {
      var rest;
      rest, t := CopyAll(mid);
      RunAppend(s, [OwnerStep], rest);
      actions := [OwnerStep] + rest;
    }
  }

  /** A push into a full queue replaces the ring; who has loaded the old one keeps it. */
  lemma PushGrows<E>(s: State<E>, y: E) returns (actions: seq<Action<E>>, t: State<E>)
    requires Ready(s) && s.tail - s.head == s.rings[s.cur].Size()
    ensures t == Run(s, actions) && Pushed(s, t, [y])
    ensures t.cur == s.cur + 1 && t.limits == s.limits + [s.tail] && t.rings[s.cur] == s.rings[s.cur]
  {
    var first, copied := StartCopy(s, y);
    var second, stored := CopyAll(copied);
    RunAppend(s, first, second);
    var third;
    third, t := StoreGrown(stored);
    RunAppend(s, first + second, third);
    actions := first + second + third;
    hide Inv, Ring.Get;
  }

  lemma StartCopy<E>(s: State<E>, y: E) returns (actions: seq<Action<E>>, t: State<E>)
    requires Ready(s) && s.tail - s.head == s.rings[s.cur].Size()
    ensures t == Run(s, actions) && Copying(s, t, y) && t.owner.Copy? && t.owner.x == y
  {
    hide Ring.Get, NextTake, RingsOk, OwnerOk, TakerOk, Frozen;
    t := OneMore(s, [], Start(Push(y)));
    t := OneMore(s, [Start(Push(y))], OwnerStep);
    actions := [Start(Push(y))] + [OwnerStep];
    t := OneMore(s, actions, OwnerStep);
    actions := actions + [OwnerStep];
    t := OneMore(s, actions, OwnerStep);
    actions := actions + [OwnerStep];
  }

  lemma StoreGrown<E>(s: State<E>) returns (actions: seq<Action<E>>, t: State<E>)
    requires Inv(s) && s.slot.None? && s.owner.StoreArray? && s.owner.tail == s.tail
    ensures t == Run(s, actions) && Pushed(s, t, [s.owner.x])
    ensures t.cur == s.cur + 1 && t.limits == s.limits + [s.tail] && t.rings[s.cur] == s.rings[s.cur]
  {
    assert |s.rings| == s.cur + 1;
    hide Ring.Get, NextTake, RingsOk, OwnerOk, TakerOk, Frozen;
    var mid := OneMore(s, [], OwnerStep);
    var rest;
    rest, t := StoreLast(mid);
    RunAppend(s, [OwnerStep], rest);
    actions := [OwnerStep] + rest;
  }

  lemma StoreLast<E>(s: State<E>) returns (actions: seq<Action<E>>, t: State<E>)
    requires Inv(s) && s.slot.None? && s.owner.StoreElement? && s.owner.a == s.cur && s.owner.tail == s.tail
    ensures t == Run(s, actions) && Pushed(s, t, [s.owner.x])
    ensures t.cur == s.cur && t.limits == s.limits && |t.rings| == |s.rings|
    ensures forall a | 0 <= a < s.cur < |s.rings| :: t.rings[a] == s.rings[a]
    ensures s.cur < |s.rings| && t.rings[s.cur].Size() == s.rings[s.cur].Size()
  {
    assert s.cur < |s.rings| && s.rings[s.cur].Valid();
    hide Ring.Get, NextTake, RingsOk, OwnerOk, TakerOk, Frozen;
    t := OneMore(s, [], OwnerStep);
    t := OneMore(s, [OwnerStep], OwnerStep);
    actions := [OwnerStep] + [OwnerStep];
  }

  /** What a completed take leaves behind. */
  ghost predicate Taken<E>(s: State<E>, t: State<E>, k: nat) {
    && Ready(t) && t.put == s.put && t.tail == s.tail && t.cur == s.cur && t.rings == s.rings && t.limits == s.limits
    && t.thieves == s.thieves && t.head == s.head + k && |t.taken| == |s.taken| + k
  }

  lemma TakeMoves<E>(s: State<E>, id: nat, next: Taker<E>)
    requires Inv(s) && !TakerAt(s, id).Away? && !next.Away? && NextTake(s, id) == Goto(s, id, next)
    ensures NextTake(s, id) == s.(takers := s.takers[id := next])
  {
    hide Inv, NextTake;
  }

  /** One undisturbed step of a taker at the end of a run. */
  lemma TakerMoves<E>(s: State<E>, id: nat, now: Taker<E>, next: Taker<E>, actions: seq<Action<E>>)
      returns (t: State<E>)
    requires Inv(s) && !now.Away? && !next.Away?
    requires Run(s, actions) == s.(takers := s.takers[id := now])
    requires NextTake(Run(s, actions), id) == Goto(Run(s, actions), id, next)
    ensures Inv(t) && t == Run(s, actions + [TakeStep(id)]) == s.(takers := s.takers[id := next])
  {
    hide Inv, NextTake;
    var mid := Run(s, actions);
    TakeMoves(mid, id, next);
    t := OneMore(s, actions, TakeStep(id));
    assert s.takers[id := now][id := next] == s.takers[id := next];
  }

  lemma TakeReads<E>(s: State<E>, id: nat, a: nat) returns (actions: seq<Action<E>>, t: State<E>)
    requires Inv(s) && TakerAt(s, id) == TakeHead(a) && s.head < s.tail
    ensures a < |s.rings| && s.rings[a].Valid()
    ensures t == Run(s, actions) && Inv(t)
    ensures t == s.(takers := s.takers[id := SwapHead(a, s.head, s.rings[a].Get(s.head))])
  {
    assert TakerOk(s, TakerAt(s, id));
    assert a < |s.rings| && s.rings[a].Valid();
    hide Ring.Get, NextOwner, RingsOk, OwnerOk, TakerOk, Frozen;
    var step := TakeStep(id);
    assert s.takers[id := TakeHead(a)] == s.takers;
    t := TakerMoves(s, id, TakeHead(a), TakeTail(a, s.head), []);
    t := TakerMoves(s, id, TakeTail(a, s.head), TakeElement(a, s.head), [step]);
    actions := [step] + [step];
    t := TakerMoves(s, id, TakeElement(a, s.head), SwapHead(a, s.head, s.rings[a].Get(s.head)), actions);
    actions := actions + [step];
  }

  /** A taker that has its ring and is not disturbed gets what that ring holds at the head. */
  lemma TakeSucceeds<E>(s: State<E>, id: nat, a: nat) returns (actions: seq<Action<E>>, t: State<E>)
    requires Inv(s) && TakerAt(s, id) == TakeHead(a) && s.head < s.tail && s.slot.None?
    requires if id == OWNER then s.owner.PopTake? else s.owner.Idle?
    ensures a < |s.rings| && s.rings[a].Valid()
    ensures t == Run(s, actions) && Taken(s, t, 1) && t.taken == s.taken + [s.rings[a].Get(s.head)]
    ensures t.takers == s.takers[id := Away]
  {
    var first, mid := TakeReads(s, id, a);
    hide Ring.Get, NextOwner, RingsOk, OwnerOk, TakerOk, Frozen;
    t := OneMore(s, first, TakeStep(id));
    actions := first + [TakeStep(id)];
    assert t.takers == s.takers[id := Away];
  }

  /** The owner's pop takes the element at the head. */
  lemma OwnerPops<E>(s: State<E>) returns (actions: seq<Action<E>>, t: State<E>)
    requires Ready(s) && s.head < s.tail
    ensures t == Run(s, actions) && Taken(s, t, 1) && t.taken == s.taken + [s.put[s.head]]
    ensures t.takers == s.takers[OWNER := Away]
  {
    var first, mid := StartPop(s);
    var second;
    second, t := TakeSucceeds(mid, OWNER, s.cur);
    RunAppend(s, first, second);
    actions := first + second;
    assert s.rings[s.cur].Get(s.head) == s.put[s.head];
    hide Ring.Get, OwnerOk, TakerOk;
  }

  lemma StartPop<E>(s: State<E>) returns (actions: seq<Action<E>>, t: State<E>)
    requires Ready(s)
    ensures t == Run(s, actions) && Inv(t)
    ensures t == s.(owner := PopTake, takers := s.takers[OWNER := TakeHead(s.cur)], log := Begin(s.log, Pop))
  {
    hide Ring.Get, RingsOk, OwnerOk, TakerOk, Frozen;
    t := OneMore(s, [], Start(Pop));
    t := OneMore(s, [Start(Pop)], OwnerStep);
    actions := [Start(Pop)] + [OwnerStep];
    t := OneMore(s, actions, TakeStep(OWNER));
    actions := actions + [TakeStep(OWNER)];
  }

  ghost predicate Popped<E>(s: State<E>, t: State<E>, k: nat) {
    && Taken(s, t, k) && s.head + k <= |s.put| && t.taken == s.taken + s.put[s.head..s.head + k]
    && forall id | id != OWNER :: TakerAt(t, id) == TakerAt(s, id)
  }

  lemma PoppedOneMore<E>(s: State<E>, mid: State<E>, t: State<E>, k: nat)
    requires k > 0 && Popped(s, mid, 1) && Popped(mid, t, k - 1)
    ensures Popped(s, t, k)
  {
    hide Inv;
    assert s.put[s.head..s.head + k] == s.put[s.head..s.head + 1] + s.put[s.head + 1..s.head + k];
  }

  lemma OwnerPopped<E>(s: State<E>) returns (actions: seq<Action<E>>, t: State<E>)
    requires Ready(s) && s.head < s.tail
    ensures t == Run(s, actions) && Popped(s, t, 1)
  {
    assert |s.put| == s.tail;
    hide Inv, Run;
    actions, t := OwnerPops(s);
    assert s.put[s.head..s.head + 1] == [s.put[s.head]];
  }

  lemma {:induction false} OwnerPopsMany<E>(s: State<E>, k: nat) returns (actions: seq<Action<E>>, t: State<E>)
    requires Ready(s) && s.head + k <= s.tail == |s.put|
    ensures t == Run(s, actions) && Popped(s, t, k)
    decreases k
  {
    hide Inv, Run;
    if k == 0 {
      actions, t := [], s;
      NoMoves(s);
      assert s.put[s.head..s.head] == [];
    } else {
      var first, mid := OwnerPopped(s);
      var rest;
      rest, t := OwnerPopsMany(mid, k - 1);
      RunAppend(s, first, rest);
      actions := first + rest;
      PoppedOneMore(s, mid, t, k);
    }
  }

  /** Thief 1 loads the first ring when it is full. */
  lemma FillAndLoad<E>(s: State<E>, n: nat, xs: seq<E>) returns (actions: seq<Action<E>>, t: State<E>)
    requires Ready(s) && s.head == s.tail == s.cur == 0 && s.put == [] && s.taken == [] && s.thieves >= 1
    requires s.takers == map[] && s.rings[0].Size() == n == |xs|
    ensures t == Run(s, actions) && Ready(t)
    ensures t.put == xs && t.tail == n && t.head == 0 && t.taken == [] && t.takers == map[1 := TakeHead(0)]
    ensures t.cur == 0 && t.limits == s.limits && t.rings[0].Size() == n && t.thieves == s.thieves
  {
    hide Inv, Ring.Get;
    var pushes, full := PushMany(s, xs);
    assert [] + xs == xs;
    t := OneMore(s, pushes, TakeStep(1));
    StartTake(full, 1);
    actions := pushes + [TakeStep(1)];
  }

  /** Thief 1 loads the ring while it is full, the queue grows, the owner takes all the ring had: then the
      thief gets the first element again, and the one that caused the growth is never returned. */
  lemma StaleTake<E>(thieves: nat, logSize: nat, garbage: E, es: seq<E>) returns (actions: seq<Action<E>>)
    requires thieves >= 1 && |es| > Pow2(logSize)
    ensures Inv(Init(thieves, logSize, garbage))
    ensures var s, n := Run(Init(thieves, logSize, garbage), actions), Pow2(logSize);
      s.put == es[..n + 1] && s.taken == es[..n] + [es[0]] && s.head == s.tail == n + 1
  {
    var s0, n := Init(thieves, logSize, garbage), Pow2(logSize);
    InitInv(thieves, logSize, garbage);
    assert Ready(s0) && s0.rings[0].Size() == n;
    hide Inv, Ring.Get, Run, Init, NewRing;
    var fill, s1 := FillAndLoad(s0, n, es[..n]);
    var rest, t := GrowAndSteal(s1, n, es[n]);
    RunAppend(s0, fill, rest);
    actions := fill + rest;
    assert es[..n] + [es[n]] == es[..n + 1];
  }

  lemma GrowAndSteal<E>(s: State<E>, n: nat, y: E) returns (actions: seq<Action<E>>, t: State<E>)
    requires Ready(s) && s.head == s.cur == 0 && s.tail == n == |s.put| > 0 && s.taken == [] && s.limits == []
    requires s.takers == map[1 := TakeHead(0)] && s.rings[0].Size() == n
    ensures t == Run(s, actions) && t.put == s.put + [y] && t.taken == s.put + [s.put[0]]
    ensures t.head == t.tail == n + 1
  {
    hide Inv, Ring.Get, Run;
    var grow, s1 := PushGrows(s, y);
    var pops, s2 := OwnerPopsMany(s1, n);
    RunAppend(s, grow, pops);
    assert s1.put[0..n] == s.put;
    StaleElement(s2, n);
    assert TakerAt(s2, 1) == TakeHead(0);
    var steal;
    steal, t := TakeSucceeds(s2, 1, 0);
    RunAppend(s, grow + pops, steal);
    actions := grow + pops + steal;
  }

  lemma StartTake<E>(s: State<E>, id: nat)
    requires Ready(s) && TakerAt(s, id).Away? && id != OWNER && id <= s.thieves
    ensures Next(s, TakeStep(id)) == s.(takers := s.takers[id := TakeHead(s.cur)])
  {
    hide Inv;
  }

  /** A replaced first ring of size `n` holds the first element in the slot of position `n`. */
  lemma StaleElement<E>(s: State<E>, n: nat)
    requires Inv(s) && s.cur > 0 && s.rings[0].Size() == n == s.limits[0] && |s.put| > n > 0
    ensures s.rings[0].Get(n) == s.put[0]
  {
    assert Frozen(s, 0);
    Lap(n, n);
    assert s.rings[0].Get(0) == s.put[0];
  }

  // ----- when every run is in order -----

  /** While no more than `base` elements have gone through, no ring is small enough to be stale. */
  ghost predicate SmallOk<E>(s: State<E>, base: nat) {
    && (forall a | 0 <= a < |s.rings| :: s.rings[a].Size() >= base)
    && (s.tail <= base ==> s.taken <= s.put)
  }

  lemma TakeSmall<E>(s: State<E>, id: nat, base: nat)
    requires Inv(s) && SmallOk(s, base)
    ensures SmallOk(NextTake(s, id), base)
  {
    hide Ring.Get;
    var taker := TakerAt(s, id);
    if taker.SwapHead? && s.head == taker.head && s.tail <= base {
      assert TakerOk(s, taker);
      assert taker.a < s.cur ==> Frozen(s, taker.a);
      TakeIsRightIff(s, id);
    }
  }

  lemma OwnerSmall<E>(s: State<E>, base: nat)
    requires Inv(s) && SmallOk(s, base)
    ensures SmallOk(NextOwner(s), base)
  {
    hide Ring.Get;
  }

  lemma NextSmall<E>(s: State<E>, action: Action<E>, base: nat)
    requires Inv(s) && SmallOk(s, base)
    ensures SmallOk(Next(s, action), base)
  {
    match action
    case Start(_) => hide Ring.Get;
    case OwnerStep => OwnerSmall(s, base);
    case TakeStep(id) => TakeSmall(s, id, base);
  }

  lemma {:induction false} RunSmall<E>(s: State<E>, actions: seq<Action<E>>, base: nat)
    requires Inv(s) && SmallOk(s, base)
    ensures SmallOk(Run(s, actions), base)
    decreases |actions|
  {
    hide SmallOk;
    if actions == [] {
    } else {
      NextInv(s, actions[0]);
      NextSmall(s, actions[0], base);
      RunSmall(Next(s, actions[0]), actions[1..], base);
    }
  }

  lemma NextThieves<E>(s: State<E>, action: Action<E>)
    requires Inv(s)
    ensures Next(s, action).thieves == s.thieves
  {
    hide Ring.Get;
  }

  /** Alone, the owner never takes while it lets the queue grow. */
  lemma {:induction false} AloneWithoutGrowth<E>(s: State<E>, actions: seq<Action<E>>)
    requires Inv(s) && s.thieves == 0
    ensures NoGrowthDuringTakes(s, actions)
    decreases |actions|
  {
    hide Ring.Get, RingsOk, Next;
    if actions == [] {
    } else {
      NextInv(s, actions[0]);
      NextThieves(s, actions[0]);
      AloneWithoutGrowth(Next(s, actions[0]), actions[1..]);
    }
  }

  /** For a list `es` of elements without repetition: every run that pushes elements of `es` in order returns
      them in order, exactly when there is no thief or `es` is no longer than the first ring. */
  lemma AlwaysInOrderIff<E>(thieves: nat, logSize: nat, garbage: E, es: seq<E>)
    requires Distinct(es)
    ensures Inv(Init(thieves, logSize, garbage))
    ensures (forall actions :: var s := Run(Init(thieves, logSize, garbage), actions);
               s.put <= es ==> s.taken <= s.put)
       <==> (thieves == 0 || |es| <= Pow2(logSize))
  {
    InitInv(thieves, logSize, garbage);
    var s0 := Init(thieves, logSize, garbage);
    if thieves == 0 || |es| <= Pow2(logSize) {
      forall actions | Run(s0, actions).put <= es ensures Run(s0, actions).taken <= Run(s0, actions).put {
        InOrderIf(thieves, logSize, garbage, es, actions);
      }
    } else {
      var actions := StaleTake(thieves, logSize, garbage, es);
      hide Inv;
      var s, n := Run(s0, actions), Pow2(logSize);
      assert s.put <= es;
      assert s.taken[n] == es[0] != es[n] == s.put[n];
    }
  }

  lemma InOrderIf<E>(thieves: nat, logSize: nat, garbage: E, es: seq<E>, actions: seq<Action<E>>)
    requires thieves == 0 || |es| <= Pow2(logSize)
    ensures Inv(Init(thieves, logSize, garbage))
    ensures var s := Run(Init(thieves, logSize, garbage), actions); s.put <= es ==> s.taken <= s.put
  {
    InitInv(thieves, logSize, garbage);
    var s0 := Init(thieves, logSize, garbage);
    if thieves == 0 {
      AloneWithoutGrowth(s0, actions);
      TakenInOrder(s0, actions);
    } else {
      RunSmall(s0, actions, Pow2(logSize));
      var s := Run(s0, actions);
      assert |s.put| == s.tail;
    }
  }

  // ----- every call gets on -----

  /** A call of an idle owner begins, and is written down. */
  lemma CallBegins<E>(s: State<E>, call: Call<E>)
    requires Inv(s) && s.owner.Idle? && !call.Steal?
    ensures var t := Next(s, Start(call));
      !t.owner.Idle? && t.log == s.log + [Entry(call, [], [], None, false)] && t.slot == s.slot && t.head == s.head
  {
  }

  /** The steps the owner has still to make before its call is over or goes on as a take. */
  function OwnerWork<E>(owner: Owner<E>, size: nat): int {
    match owner
    case Idle => 0
    case LoadArray(_) => size + 7
    case LoadHead(_, _) => size + 6
    case LoadTail(_, _, _) => size + 5
    case Copy(_, _, _, tail, i, _) => tail - i + 4
    case StoreArray(_, _, _) => 3
    case StoreElement(_, _, _) => 2
    case StoreTail(_, _) => 1
    case PriorityLoadSlot(_) => size + 9
    case PriorityStoreSlot(_, _) => size + 8
    case PopLoadSlot => 2
    case PopClearSlot(_) => 1
    case PopTake => 0
  }

  /** The owner never waits, whatever the thieves do. */
  lemma OwnerGetsOn<E>(s: State<E>)
    requires Inv(s) && !s.owner.Idle? && !s.owner.PopTake?
    ensures var t, size := Next(s, OwnerStep), s.rings[s.cur].Size();
      0 <= OwnerWork(t.owner, size) < OwnerWork(s.owner, size)
  {
    hide Ring.Get, Frozen, TakerOk;
  }

  function TakeLeft<E>(taker: Taker<E>): nat {
    match taker
    case Away => 5
    case TakeHead(_) => 4
    case TakeTail(_, _) => 3
    case TakeElement(_, _) => 2
    case SwapHead(_, _, _) => 1
  }

  /** A thief, or the owner whose pop found the slot empty, can always take a step; the step brings the take
      nearer to its end or ends it, unless another take has succeeded since this one read `head`. */
  lemma TakeGetsOn<E>(s: State<E>, id: nat)
    requires Inv(s) && id <= s.thieves && (id == OWNER ==> s.owner.PopTake?)
    ensures var t := Next(s, TakeStep(id));
      || (TakerAt(t, id).Away? && (id == OWNER ==> t.owner.Idle?))
      || TakeLeft(TakerAt(t, id)) < TakeLeft(TakerAt(s, id))
      || (TakerAt(s, id).SwapHead? && s.head > TakerAt(s, id).head && TakerAt(t, id).TakeHead?)
    ensures TakerAt(s, id).Away? ==> TakerAt(Next(s, TakeStep(id)), id).TakeHead?
  {
    assert TakerOk(s, TakerAt(s, id));
    hide Ring.Get, RingsOk, OwnerOk;
  }
}
