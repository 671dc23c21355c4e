/** The spin-locked queue of `tl_queue.c` as a state machine: any number of threads push and steal,
    thread 0 owns the priority slot, and every load, store or exchange is one step.  The lock is a
    plain flag; nothing but the steps below keeps a second thread out.
  */
module TlQueue {
  import opened CircularArrays
  import opened Options
  import opened Sequences
  import opened QueueCalls

  /** Each state is named after the step that comes next. */
  datatype Pc<E> =
    | Idle
    // tl_queue_push
    | PushExchange(x: E)
    | PushLoadArray(x: E)
    | PushLoadHead(x: E, a: nat)
    | PushLoadTail(x: E, a: nat, head: nat)
    | PushCopy(x: E, a: nat, head: nat, tail: nat, i: nat, grown: Ring<E>)
    | PushFree(x: E, a: nat, tail: nat, grown: Ring<E>)
    | PushStoreArray(x: E, tail: nat, grown: Ring<E>)
    | PushStoreElement(x: E, a: nat, tail: nat)
    | PushStoreTail(x: E, tail: nat)
    | PushUnlock
    // tl_queue_steal, and tl_queue_pop once the slot is empty
    | TakeExchange
    | TakeLoadArray
    | TakeLoadHead(a: nat)
    | TakeLoadTail(a: nat, head: nat)
    | TakeLoadElement(a: nat, head: nat)
    | TakeStoreHead(head: nat, e: E)
    | TakeUnlock(result: Option<E>)
    // the owner's slot
    | PopLoadSlot
    | PopClearSlot(e: E)
    | PriorityLoadSlot(x: E)
    | PriorityStoreSlot(x: E, displaced: Option<E>)

  datatype State<E> = State(
    locked: bool, head: nat, tail: nat, slot: Option<E>,
    cur: nat, rings: seq<Ring<E>>, freed: set<nat>,
    threads: seq<Pc<E>>,
    holder: Option<nat>,                // history: the thread whose exchange found the lock free
    put: seq<E>, taken: seq<E>,         // history: what entered and what left the ring
    given: seq<E>, returned: seq<E>,    // history: arguments of all calls, and elements they returned
    logs: seq<Log<E>>)                  // history: the calls of each thread

  datatype Action<E> = Start(id: nat, call: Call<E>) | Step(id: nat)

  const OWNER: nat := 0

  function Init<E>(threads: nat, logSize: nat, garbage: E): State<E> {
    State(false, 0, 0, None, 0, [NewRing(logSize, garbage)], {}, seq(threads, _ => Idle), None, [], [], [], [],
          seq(threads, _ => []))
  }

  function Goto<E>(s: State<E>, id: nat, pc: Pc<E>): State<E>
    requires id < |s.threads|
  {
    s.(threads := s.threads[id := pc])
  }

  /** Writes down what a thread's call has just done. */
  function Logged<E>(s: State<E>, id: nat, log: Log<E>): State<E>
    requires id < |s.logs|
  {
    s.(logs := s.logs[id := log])
  }

  /** Only the owner calls the operations on the slot. */
  function NextStart<E>(s: State<E>, id: nat, call: Call<E>): State<E>
    requires id < |s.threads| == |s.logs|
  {
    if !s.threads[id].Idle? then s else
    var t := Logged(s, id, Begin(s.logs[id], call));
    match call
    case Push(x) => Goto(t.(given := s.given + [x]), id, PushExchange(x))
    case Steal => Goto(t, id, TakeExchange)
    case Pop => if id == OWNER then Goto(t, id, PopLoadSlot) else s
    case PriorityPush(x) =>
      if id == OWNER then Goto(t.(given := s.given + [x]), id, PriorityLoadSlot(x)) else s
  }

  function NextStep<E>(s: State<E>, id: nat): State<E>
    requires Inv(s) && id < |s.threads|
  {
    var log := s.logs[id];
    match s.threads[id]
    case Idle => s
    case PushExchange(x) =>
      if s.locked then s else Goto(s.(locked := true, holder := Some(id)), id, PushLoadArray(x))
    case PushLoadArray(x) => Goto(s, id, PushLoadHead(x, s.cur))
    case PushLoadHead(x, a) => Goto(s, id, PushLoadTail(x, a, s.head))
    case PushLoadTail(x, a, head) =>
      assert PcOk(s, s.threads[id]);
      if s.tail - head > s.rings[a].Size() - 1
      then Goto(s, id, PushCopy(x, a, head, s.tail, head, NewRing(s.rings[a].logSize + 1, x)))
      else Goto(s, id, PushStoreElement(x, a, s.tail))
    case PushCopy(x, a, head, tail, i, grown) =>
      assert PcOk(s, s.threads[id]);
      if i < tail then Goto(s, id, PushCopy(x, a, head, tail, i + 1, grown.Set(i, s.rings[a].Get(i))))
      else Goto(s, id, PushFree(x, a, tail, grown))
    case PushFree(x, a, tail, grown) =>
      Goto(s.(freed := s.freed + {a}), id, PushStoreArray(x, tail, grown))
    case PushStoreArray(x, tail, grown) =>
      Goto(s.(rings := s.rings + [grown], cur := |s.rings|), id, PushStoreElement(x, |s.rings|, tail))
    case PushStoreElement(x, a, tail) =>
      assert PcOk(s, s.threads[id]);
      Goto(s.(rings := s.rings[a := s.rings[a].Set(tail, x)]), id, PushStoreTail(x, tail))
    case PushStoreTail(x, tail) =>
      Goto(Logged(s.(tail := tail + 1, put := s.put + [x]), id, NotePut(log, x)), id, PushUnlock)
    case PushUnlock => Goto(Logged(s.(locked := false, holder := None), id, NoteDone(log, None)), id, Idle)
    case TakeExchange =>
      if s.locked then s else Goto(s.(locked := true, holder := Some(id)), id, TakeLoadArray)
    case TakeLoadArray => Goto(s, id, TakeLoadHead(s.cur))
    case TakeLoadHead(a) => Goto(s, id, TakeLoadTail(a, s.head))
    case TakeLoadTail(a, head) =>
      Goto(s, id, if head == s.tail then TakeUnlock(None) else TakeLoadElement(a, head))
    case TakeLoadElement(a, head) =>
      assert PcOk(s, s.threads[id]);
      Goto(s, id, TakeStoreHead(head, s.rings[a].Get(head)))
    case TakeStoreHead(head, e) =>
      Goto(Logged(s.(head := head + 1, taken := s.taken + [e]), id, NoteTook(log, e)), id, TakeUnlock(Some(e)))
    case TakeUnlock(result) =>
      Goto(Logged(s.(locked := false, holder := None, returned := s.returned + Elements(result)),
                  id, NoteDone(log, result)), id, Idle)
    case PopLoadSlot => Goto(s, id, if s.slot.Some? then PopClearSlot(s.slot.value) else TakeExchange)
    case PopClearSlot(e) =>
      Goto(Logged(s.(slot := None, returned := s.returned + [e]), id, NoteDone(log, Some(e))), id, Idle)
    case PriorityLoadSlot(x) => Goto(s, id, PriorityStoreSlot(x, s.slot))
    case PriorityStoreSlot(x, displaced) =>
      var t := s.(slot := Some(x));
      if displaced.Some? then Goto(t, id, PushExchange(displaced.value))
      else Goto(Logged(t, id, NoteDone(log, None)), id, Idle)
  }

  function Next<E>(s: State<E>, action: Action<E>): State<E>
    requires Inv(s)
  {
    if action.id >= |s.threads| then s else
    match action
    case Start(id, call) => NextStart(s, id, call)
    case Step(id) => NextStep(s, id)
  }

  // ----- invariant -----

  /** Between the exchange that found the lock free and the release. */
  predicate Inside<E>(pc: Pc<E>) {
    !(pc.Idle? || pc.PushExchange? || pc.TakeExchange? || OnSlot(pc))
  }

  predicate OnSlot<E>(pc: Pc<E>) {
    pc.PopLoadSlot? || pc.PopClearSlot? || pc.PriorityLoadSlot? || pc.PriorityStoreSlot?
  }

  /** The ring a thread is about to touch. */
  function Touches<E>(pc: Pc<E>): Option<nat> {
    match pc
    case PushCopy(_, a, _, _, _, _) => Some(a)
    case PushFree(_, a, _, _) => Some(a)
    case PushLoadTail(_, a, _) => Some(a)
    case PushStoreElement(_, a, _) => Some(a)
    case TakeLoadElement(a, _) => Some(a)
    case _ => None
  }

  ghost predicate RingsOk<E>(s: State<E>) {
    && s.cur < |s.rings| && (forall a | 0 <= a < |s.rings| :: s.rings[a].Valid())
    && s.head <= s.tail <= s.head + s.rings[s.cur].Size()
    && forall a | a in s.freed :: a < |s.rings|
  }

  /** The current ring is allocated except for the moment between free and the store of the new one. */
  ghost predicate PcOk<E>(s: State<E>, pc: Pc<E>)
    requires RingsOk(s)
  {
    var ring := s.rings[s.cur];
    match pc
    case PushLoadArray(_) => s.cur !in s.freed
    case PushLoadHead(_, a) => a == s.cur && s.cur !in s.freed
    case PushLoadTail(_, a, head) => a == s.cur && s.cur !in s.freed && head == s.head
    case PushCopy(_, a, head, tail, i, grown) =>
      && a == s.cur && s.cur !in s.freed && head == s.head && tail == s.tail && head <= i <= tail
      && grown.Valid() && grown.Size() == 2 * ring.Size()
      && forall j: nat | head <= j < i :: grown.Get(j) == ring.Get(j)
    case PushFree(_, a, tail, grown) =>
      && a == s.cur && s.cur !in s.freed && tail == s.tail
      && grown.Valid() && grown.Size() == 2 * ring.Size()
      && forall j: nat | s.head <= j < tail :: grown.Get(j) == ring.Get(j)
    case PushStoreArray(_, tail, grown) =>
      && tail == s.tail && grown.Valid() && grown.Size() == 2 * ring.Size()
      && forall j: nat | s.head <= j < tail :: grown.Get(j) == ring.Get(j)
    case PushStoreElement(_, a, tail) =>
      a == s.cur && s.cur !in s.freed && tail == s.tail < s.head + ring.Size()
    case PushStoreTail(x, tail) =>
      s.cur !in s.freed && tail == s.tail < s.head + ring.Size() && ring.Get(tail) == x
    case PushUnlock => s.cur !in s.freed
    case TakeLoadArray => s.cur !in s.freed
    case TakeLoadHead(a) => a == s.cur && s.cur !in s.freed
    case TakeLoadTail(a, head) => a == s.cur && s.cur !in s.freed && head == s.head
    case TakeLoadElement(a, head) => a == s.cur && s.cur !in s.freed && head == s.head < s.tail
    case TakeStoreHead(head, e) => s.cur !in s.freed && head == s.head < s.tail && ring.Get(head) == e
    case TakeUnlock(_) => s.cur !in s.freed
    case PopClearSlot(e) => s.slot == Some(e)
    case PriorityStoreSlot(_, displaced) => s.slot == displaced
    case _ => true
  }

  ghost function Content<E>(s: State<E>): seq<E>
    requires RingsOk(s)
  {
    seq(s.tail - s.head, i requires 0 <= i < s.tail - s.head => s.rings[s.cur].Get(s.head + i))
  }

  ghost predicate ThreadOk<E>(s: State<E>, id: nat, pc: Pc<E>)
    requires RingsOk(s)
  {
    && (Inside(pc) <==> s.holder == Some(id))
    && (OnSlot(pc) ==> id == OWNER)
    && PcOk(s, pc)
  }

  ghost predicate Inv<E>(s: State<E>) {
    && RingsOk(s) && |s.logs| == |s.threads|
    && (s.locked <==> s.holder.Some?)
    && (s.holder.Some? ==> s.holder.value < |s.threads|)
    && (!s.locked ==> s.cur !in s.freed)
    && (forall id | 0 <= id < |s.threads| :: ThreadOk(s, id, s.threads[id]))
  }

  // ----- the atomic object -----

  datatype Queue<E> = Queue(content: seq<E>, slot: Option<E>, ops: seq<Op<E>>,
                            put: seq<E>, taken: seq<E>, given: seq<E>, returned: seq<E>, logs: seq<Log<E>>)

  function SpecStart<E>(q: Queue<E>, id: nat, call: Call<E>): Queue<E>
    requires id < |q.ops| == |q.logs|
  {
    if !q.ops[id].Out? then q else
    var r := q.(logs := q.logs[id := Begin(q.logs[id], call)]);
    match call
    case Push(x) => r.(given := q.given + [x], ops := q.ops[id := Pushing(x)])
    case Steal => r.(ops := q.ops[id := Taking])
    case Pop => if id == OWNER then r.(ops := q.ops[id := Popping]) else q
    case PriorityPush(x) =>
      if id == OWNER then r.(given := q.given + [x], ops := q.ops[id := Displacing(x)]) else q
  }

  /** Each operation takes effect at once: a push appends its argument, a take removes the first element
      or finds none, a pop empties the slot or goes on as a take, a priority push fills the slot and goes
      on to push what it has displaced. */
  function SpecStep<E>(q: Queue<E>, id: nat): Queue<E>
    requires id < |q.ops| == |q.logs|
  {
    var log := q.logs[id];
    match q.ops[id]
    case Out => q
    case Pushing(x) =>
      q.(content := q.content + [x], put := q.put + [x], ops := q.ops[id := Pushed],
         logs := q.logs[id := NotePut(log, x)])
    case Pushed => q.(ops := q.ops[id := Out], logs := q.logs[id := NoteDone(log, None)])
    case Taking =>
      if q.content == [] then q.(ops := q.ops[id := Took(None)])
      else
        var e := q.content[0];
        q.(content := q.content[1..], taken := q.taken + [e], ops := q.ops[id := Took(Some(e))],
           logs := q.logs[id := NoteTook(log, e)])
    case Took(result) =>
      q.(returned := q.returned + Elements(result), ops := q.ops[id := Out],
         logs := q.logs[id := NoteDone(log, result)])
    case Popping =>
      if q.slot.None? then q.(ops := q.ops[id := Taking])
      else q.(slot := None, returned := q.returned + [q.slot.value], ops := q.ops[id := Out],
              logs := q.logs[id := NoteDone(log, q.slot)])
    case Displacing(x) =>
      if q.slot.Some? then q.(slot := Some(x), ops := q.ops[id := Pushing(q.slot.value)])
      else q.(slot := Some(x), ops := q.ops[id := Out], logs := q.logs[id := NoteDone(log, None)])
  }

  function SpecNext<E>(q: Queue<E>, action: Action<E>): Queue<E> {
    if action.id >= |q.ops| || |q.ops| != |q.logs| then q else
    match action
    case Start(id, call) => SpecStart(q, id, call)
    case Step(id) => SpecStep(q, id)
  }

  function SpecRun<E>(q: Queue<E>, actions: seq<Action<E>>): Queue<E>
    decreases |actions|
  {
    if actions == [] then q else SpecRun(SpecNext(q, actions[0]), actions[1..])
  }

  // ----- nothing is lost in the atomic object -----

  /** Copies of `x` that a thread has in its hands: its argument, what it displaced, or its result. */
  ghost function InHand<E>(op: Op<E>, x: E): nat {
    match op
    case Pushing(e) => One(e == x)
    case Displacing(e) => One(e == x)
    case Took(Some(e)) => One(e == x)
    case _ => 0
  }

  ghost function InHands<E>(ops: seq<Op<E>>, x: E): nat {
    if ops == [] then 0 else InHand(ops[0], x) + InHands(ops[1..], x)
  }

  ghost function InSlot<E>(slot: Option<E>, x: E): nat {
    if slot.Some? then One(slot.value == x) else 0
  }

  /** Element `x` has been returned, or is in the ring, in the slot or in a thread's hands, once for each
      time it was handed in. */
  ghost predicate Balanced<E>(q: Queue<E>, x: E) {
    Among(q.given, x) == Among(q.returned, x) + Among(q.content, x) + InSlot(q.slot, x) + InHands(q.ops, x)
  }

  ghost predicate InOrder<E>(q: Queue<E>) {
    q.put == q.taken + q.content
  }

  lemma {:induction false} HandsUpdate<E>(ops: seq<Op<E>>, id: nat, op: Op<E>, x: E)
    requires id < |ops|
    ensures InHands(ops[id := op], x) + InHand(ops[id], x) == InHands(ops, x) + InHand(op, x)
  {
    if id == 0 {
      assert ops[id := op][1..] == ops[1..];
    } else {
      assert ops[id := op][1..] == ops[1..][id - 1 := op];
      HandsUpdate(ops[1..], id - 1, op, x);
    }
  }

  /** The balance of one element over one step of thread `id`. */
  lemma StepBalances<E>(q: Queue<E>, id: nat, x: E)
    requires id < |q.ops| == |q.logs|
    ensures var r := SpecStep(q, id);
      Among(q.given, x) + Among(r.returned, x) + Among(r.content, x) + InSlot(r.slot, x) + InHands(r.ops, x)
      == Among(r.given, x) + Among(q.returned, x) + Among(q.content, x) + InSlot(q.slot, x) + InHands(q.ops, x)
  {
    hide Among, InHands, One;
    var r := SpecStep(q, id);
    HandsUpdate(q.ops, id, r.ops[id], x);
    match q.ops[id]
    case Out =>
    case Pushing(e) => AmongAppend(q.content, e, x);
    case Pushed =>
    case Taking => if q.content != [] { AmongFirst(q.content, x); }
    case Took(result) =>
      if result.Some? { AmongAppend(q.returned, result.value, x); } else { assert q.returned + [] == q.returned; }
    case Popping => if q.slot.Some? { AmongAppend(q.returned, q.slot.value, x); }
    case Displacing(_) =>
  }

  lemma StartBalances<E>(q: Queue<E>, id: nat, call: Call<E>, x: E)
    requires id < |q.ops| == |q.logs|
    ensures var r := SpecStart(q, id, call);
      Among(r.given, x) + InHands(q.ops, x) == Among(q.given, x) + InHands(r.ops, x)
  {
    var r := SpecStart(q, id, call);
    HandsUpdate(q.ops, id, r.ops[id], x);
    if call.Push? || call.PriorityPush? { AmongAppend(q.given, call.x, x); }
    hide Among, InHands, One;
  }

  lemma SpecBalanced<E>(q: Queue<E>, action: Action<E>, x: E)
    requires Balanced(q, x)
    ensures Balanced(SpecNext(q, action), x)
  {
    if action.id < |q.ops| == |q.logs| {
      match action {
        case Start(id, call) => StartBalances(q, id, call, x);
        case Step(id) => StepBalances(q, id, x);
      }
      hide Among, InHands, InHand, InSlot;
    }
  }

  lemma SpecInOrder<E>(q: Queue<E>, action: Action<E>)
    requires InOrder(q)
    ensures InOrder(SpecNext(q, action))
  {
  }

  // ----- every call does what its history demands -----

  ghost predicate ThreadRight<E>(q: Queue<E>, id: nat)
    requires id < |q.ops| == |q.logs|
  {
    && AllRight(q.logs[id]) && CallAt(q.ops[id], q.logs[id])
    && (if id == OWNER then SlotFollows(q.slot, q.ops[id], q.logs[id])
        else !q.ops[id].Popping? && !q.ops[id].Displacing? && SlotAfter(q.logs[id]).None?)
  }

  ghost predicate CallsRight<E>(q: Queue<E>) {
    |q.ops| == |q.logs| && forall id | 0 <= id < |q.ops| :: ThreadRight(q, id)
  }

  lemma StartRight<E>(q: Queue<E>, id: nat, call: Call<E>)
    requires id < |q.ops| == |q.logs| && ThreadRight(q, id)
    ensures ThreadRight(SpecStart(q, id, call), id)
  {
    BeginKeeps(q.logs[id], call);
    hide AllRight, SlotBefore;
  }

  lemma StepRight<E>(q: Queue<E>, id: nat)
    requires id < |q.ops| == |q.logs| && ThreadRight(q, id)
    ensures ThreadRight(SpecStep(q, id), id)
  {
    hide AllRight, NotePut, NoteTook, NoteDone, SlotBefore, SlotAfter;
    match q.ops[id]
    case Out =>
    case Pushing(x) => PutFollows(q.logs[id], x);
    case Pushed => DoneFollows(q.logs[id], None);
    case Taking => if q.content != [] { TookFollows(q.logs[id], q.content[0]); }
    case Took(result) => DoneFollows(q.logs[id], result);
    case Popping => PopRight(q, id);
    case Displacing(x) => DisplaceRight(q, id, x);
  }

  /** What a call on the slot leaves in it is what the calls up to it say. */
  lemma PopRight<E>(q: Queue<E>, id: nat)
    requires id < |q.ops| == |q.logs| && ThreadRight(q, id) && q.ops[id].Popping?
    ensures ThreadRight(SpecStep(q, id), id)
  {
    if q.slot.Some? { DoneFollows(q.logs[id], q.slot); }
    hide AllRight, NoteDone;
  }

  lemma DisplaceRight<E>(q: Queue<E>, id: nat, x: E)
    requires id < |q.ops| == |q.logs| && ThreadRight(q, id) && q.ops[id] == Displacing(x)
    ensures ThreadRight(SpecStep(q, id), id)
  {
    if q.slot.None? { DoneFollows(q.logs[id], None); }
    hide AllRight, NoteDone;
  }

  lemma SpecRight<E>(q: Queue<E>, action: Action<E>)
    requires CallsRight(q)
    ensures CallsRight(SpecNext(q, action))
  {
    var id, r := action.id, SpecNext(q, action);
    if id < |q.ops| {
      match action {
        case Start(_, call) => StartRight(q, id, call);
        case Step(_) => StepRight(q, id);
      }
      SlotOfOwner(q, action);
      forall i | 0 <= i < |r.ops| ensures ThreadRight(r, i) {
        assert ThreadRight(q, i);
      }
    }
  }

  /** Nobody but the owner changes the slot, and a step changes only its thread's call. */
  lemma SlotOfOwner<E>(q: Queue<E>, action: Action<E>)
    requires CallsRight(q) && action.id < |q.ops|
    ensures var r := SpecNext(q, action);
      && (action.id != OWNER ==> r.slot == q.slot) && |r.ops| == |q.ops| == |r.logs|
      && forall i | 0 <= i < |q.ops| && i != action.id :: r.ops[i] == q.ops[i] && r.logs[i] == q.logs[i]
  {
    assert ThreadRight(q, action.id);
    hide AllRight, SlotBefore, SlotAfter, CallAt;
  }

  // ----- every step keeps the invariant, and is a step of the atomic object -----

  /** The operation a program counter belongs to: a push is under way until its store of the tail, a take
      until its store of the head. */
  function OpOf<E>(pc: Pc<E>): Op<E> {
    match pc
    case Idle => Out
    case PushExchange(x) => Pushing(x)
    case PushLoadArray(x) => Pushing(x)
    case PushLoadHead(x, _) => Pushing(x)
    case PushLoadTail(x, _, _) => Pushing(x)
    case PushCopy(x, _, _, _, _, _) => Pushing(x)
    case PushFree(x, _, _, _) => Pushing(x)
    case PushStoreArray(x, _, _) => Pushing(x)
    case PushStoreElement(x, _, _) => Pushing(x)
    case PushStoreTail(x, _) => Pushing(x)
    case PushUnlock => Pushed
    case TakeUnlock(result) => Took(result)
    case PopLoadSlot => Popping
    case PopClearSlot(_) => Popping
    case PriorityLoadSlot(x) => Displacing(x)
    case PriorityStoreSlot(x, _) => Displacing(x)
    case _ => Taking
  }

  function OpsOf<E>(threads: seq<Pc<E>>): (ops: seq<Op<E>>)
    ensures |ops| == |threads|
  {
    seq(|threads|, i requires 0 <= i < |threads| => OpOf(threads[i]))
  }

  ghost function Abs<E>(s: State<E>): Queue<E>
    requires RingsOk(s)
  {
    Queue(Content(s), s.slot, OpsOf(s.threads), s.put, s.taken, s.given, s.returned, s.logs)
  }

  /** The steps at which an operation takes effect or returns; all others are invisible. */
  predicate Commits<E>(s: State<E>, id: nat)
    requires id < |s.threads|
  {
    var pc := s.threads[id];
    || pc.PushStoreTail? || pc.PushUnlock? || pc.TakeStoreHead? || pc.TakeUnlock?
    || pc.PopClearSlot? || pc.PriorityStoreSlot?
    || (pc.TakeLoadTail? && pc.head == s.tail) || (pc.PopLoadSlot? && s.slot.None?)
  }

  /** What a step may change for the other threads. */
  ghost predicate Undisturbed<E>(s: State<E>, t: State<E>, id: nat) {
    && RingsOk(s) && RingsOk(t)
    && (t.slot != s.slot ==> id == OWNER)
    && (|| t.holder == s.holder
        || (s.holder == None && t.holder == Some(id))
        || (s.holder == Some(id) && t.holder == None))
    && (s.holder != Some(id) ==>
          t == s.(slot := t.slot, threads := t.threads, locked := t.locked, holder := t.holder,
                  given := t.given, returned := t.returned, logs := t.logs))
  }

  lemma OthersKept<E>(s: State<E>, t: State<E>, id: nat, other: nat, pc: Pc<E>)
    requires Undisturbed(s, t, id) && other != id && ThreadOk(s, other, pc)
    ensures ThreadOk(t, other, pc)
  {
    hide Ring.Get;
  }

  /** The stepping thread itself. */
  ghost predicate StepOk<E>(s: State<E>, t: State<E>, id: nat) {
    && Undisturbed(s, t, id)
    && (t.locked <==> t.holder.Some?)
    && |t.logs| == |s.logs| && id < |s.threads| == |t.threads| && t.threads == s.threads[id := t.threads[id]]
    && ThreadOk(t, id, t.threads[id])
    && (!t.locked ==> t.cur !in t.freed)
  }

  predicate Pushes<E>(pc: Pc<E>) {
    pc.PushLoadArray? || pc.PushLoadHead? || pc.PushUnlock?
  }

  predicate Measures<E>(pc: Pc<E>) { pc.PushLoadTail? || pc.PushCopy? }

  predicate Replaces<E>(pc: Pc<E>) {
    pc.PushFree? || pc.PushStoreArray? || pc.PushStoreElement? || pc.PushStoreTail?
  }

  predicate Takes<E>(pc: Pc<E>) {
    pc.TakeLoadArray? || pc.TakeLoadHead? || pc.TakeLoadTail? || pc.TakeLoadElement? || pc.TakeStoreHead?
  }

  lemma StartStep<E>(s: State<E>, id: nat, call: Call<E>)
    requires Inv(s) && id < |s.threads|
    ensures StepOk(s, NextStart(s, id, call), id)
  {
    hide Ring.Get;
    assert ThreadOk(s, id, s.threads[id]);
    hide PcOk;
  }

  lemma SlotStep<E>(s: State<E>, id: nat)
    requires Inv(s) && id < |s.threads| && OnSlot(s.threads[id])
    ensures StepOk(s, NextStep(s, id), id)
  {
    hide Ring.Get;
    assert ThreadOk(s, id, s.threads[id]);
  }

  lemma ExchangeStep<E>(s: State<E>, id: nat)
    requires Inv(s) && id < |s.threads|
    requires s.threads[id].PushExchange? || s.threads[id].TakeExchange? || s.threads[id].Idle?
    ensures StepOk(s, NextStep(s, id), id)
  {
    hide Ring.Get;
    assert ThreadOk(s, id, s.threads[id]);
  }

  lemma PushStep<E>(s: State<E>, id: nat)
    requires Inv(s) && id < |s.threads| && Pushes(s.threads[id])
    ensures StepOk(s, NextStep(s, id), id)
  {
    hide Ring.Get;
    assert ThreadOk(s, id, s.threads[id]);
  }

  lemma MeasureStep<E>(s: State<E>, id: nat)
    requires Inv(s) && id < |s.threads| && Measures(s.threads[id])
    ensures StepOk(s, NextStep(s, id), id)
  {
    hide Ring.Get;
    assert ThreadOk(s, id, s.threads[id]);
  }

  lemma ReplaceStep<E>(s: State<E>, id: nat)
    requires Inv(s) && id < |s.threads| && Replaces(s.threads[id])
    ensures StepOk(s, NextStep(s, id), id)
  {
    hide Ring.Get;
    assert ThreadOk(s, id, s.threads[id]);
  }

  lemma TakeStep<E>(s: State<E>, id: nat)
    requires Inv(s) && id < |s.threads| && Takes(s.threads[id])
    ensures StepOk(s, NextStep(s, id), id)
  {
    hide Ring.Get;
    assert ThreadOk(s, id, s.threads[id]);
  }

  lemma TakeUnlockStep<E>(s: State<E>, id: nat)
    requires Inv(s) && id < |s.threads| && s.threads[id].TakeUnlock?
    ensures StepOk(s, NextStep(s, id), id)
  {
    hide Ring.Get, Elements;
    assert ThreadOk(s, id, s.threads[id]);
  }

  lemma StepIsOk<E>(s: State<E>, id: nat)
    requires Inv(s) && id < |s.threads|
    ensures StepOk(s, NextStep(s, id), id)
  {
    hide Inv, StepOk, NextStep;
    var pc := s.threads[id];
    if Pushes(pc) { PushStep(s, id); }
    else if pc.TakeUnlock? { TakeUnlockStep(s, id); }
    else if Takes(pc) { TakeStep(s, id); }
    else if OnSlot(pc) { SlotStep(s, id); }
    else if Measures(pc) { MeasureStep(s, id); }
    else if Replaces(pc) { ReplaceStep(s, id); }
    else { ExchangeStep(s, id); }
  }

  lemma StepOkInv<E>(s: State<E>, t: State<E>, id: nat)
    requires Inv(s) && StepOk(s, t, id)
    ensures Inv(t)
  {
    HolderIsThread(s, t, id);
    hide Ring.Get, PcOk;
    forall other | 0 <= other < |t.threads| ensures ThreadOk(t, other, t.threads[other]) {
      if other != id { OthersKept(s, t, id, other, s.threads[other]); }
    }
  }

  lemma HolderIsThread<E>(s: State<E>, t: State<E>, id: nat)
    requires Inv(s) && StepOk(s, t, id)
    ensures RingsOk(t) && (t.holder.Some? ==> t.holder.value < |t.threads|)
  {
    hide Ring.Get, PcOk;
  }

  lemma OpsUpdate<E>(threads: seq<Pc<E>>, id: nat, pc: Pc<E>)
    requires id < |threads|
    ensures OpsOf(threads[id := pc]) == OpsOf(threads)[id := OpOf(pc)]
  {
    hide OpOf;
  }

  lemma SameContent<E>(s: State<E>, t: State<E>)
    requires RingsOk(s) && RingsOk(t) && t.rings == s.rings && t.cur == s.cur && t.head == s.head && t.tail == s.tail
    ensures Content(t) == Content(s)
  {
  }

  /** The steps that copy and replace rings leave the content alone; the others do what they say. */
  lemma ContentAfter<E>(s: State<E>, id: nat)
    requires Inv(s) && id < |s.threads| && RingsOk(NextStep(s, id))
    ensures var t, pc := NextStep(s, id), s.threads[id];
      && (pc.PushStoreTail? ==> Content(t) == Content(s) + [pc.x])
      && (pc.TakeStoreHead? ==> Content(s) != [] && pc.e == Content(s)[0] && Content(t) == Content(s)[1..])
      && (!pc.PushStoreTail? && !pc.TakeStoreHead? ==> Content(t) == Content(s))
  {
    hide Content, RingsOk, ThreadOk;
    var t, pc := NextStep(s, id), s.threads[id];
    if Replaces(pc) {
      RingsAfter(s, id);
    } else if pc.TakeStoreHead? {
      HeadAfter(s, id);
    } else {
      SameContent(s, t);
    }
  }

  lemma HeadAfter<E>(s: State<E>, id: nat)
    requires Inv(s) && id < |s.threads| && s.threads[id].TakeStoreHead? && RingsOk(NextStep(s, id))
    ensures Content(s) != [] && s.threads[id].e == Content(s)[0] && Content(NextStep(s, id)) == Content(s)[1..]
  {
    hide Ring.Get;
    assert ThreadOk(s, id, s.threads[id]);
    assert Content(NextStep(s, id)) == Content(s)[1..];
  }

  lemma RingsAfter<E>(s: State<E>, id: nat)
    requires Inv(s) && id < |s.threads| && Replaces(s.threads[id]) && RingsOk(NextStep(s, id))
    ensures var t, pc := NextStep(s, id), s.threads[id];
      Content(t) == if pc.PushStoreTail? then Content(s) + [pc.x] else Content(s)
  {
    hide Ring.Get;
    var t, pc := NextStep(s, id), s.threads[id];
    assert ThreadOk(s, id, pc);
    if pc.PushStoreTail? {
      assert Content(t) == Content(s) + [pc.x];
    } else {
      assert Content(t) == Content(s);
    }
  }

  /** A take finds the ring empty exactly when the queue is. */
  lemma EmptyContent<E>(s: State<E>)
    requires RingsOk(s)
    ensures Content(s) == [] <==> s.head == s.tail
  {
  }

  /** What the refinement needs to know of a state and the step from it. */
  ghost predicate Refining<E>(s: State<E>, t: State<E>, id: nat) {
    && Inv(s) && Inv(t) && id < |s.threads| == |t.threads|
    && OpsOf(t.threads) == OpsOf(s.threads)[id := OpOf(t.threads[id])]
  }

  lemma StepIsRefining<E>(s: State<E>, t: State<E>, id: nat)
    requires Inv(s) && Inv(t) && StepOk(s, t, id)
    ensures Refining(s, t, id)
  {
    hide Inv, ThreadOk, Undisturbed, OpsOf, OpOf;
    OpsUpdate(s.threads, id, t.threads[id]);
  }

  predicate Growing<E>(pc: Pc<E>) { pc.PushLoadTail? || pc.PushCopy? || pc.PushFree? }

  predicate IsPush<E>(pc: Pc<E>) {
    || pc.PushExchange? || pc.PushLoadArray? || pc.PushLoadHead? || pc.PushStoreArray? || pc.PushStoreElement?
    || pc.PushStoreTail? || pc.PushUnlock? || Growing(pc)
  }

  /** Whatever is seen of the state from outside, except for the ring's elements, stays. */
  ghost predicate SameFields<E>(s: State<E>, t: State<E>, id: nat) {
    && id < |s.threads| && id < |t.threads| && OpOf(t.threads[id]) == OpOf(s.threads[id])
    && !s.threads[id].PushStoreTail? && !s.threads[id].TakeStoreHead?
    && t.slot == s.slot && t.put == s.put && t.taken == s.taken && t.given == s.given && t.returned == s.returned
    && t.logs == s.logs
  }

  lemma PushFields<E>(s: State<E>, id: nat)
    requires Inv(s) && id < |s.threads| && !Commits(s, id) && IsPush(s.threads[id])
    ensures SameFields(s, NextStep(s, id), id)
  {
    hide Inv, Content, Ring.Get, RingsOk, PcOk, ThreadOk;
  }

  lemma OtherFields<E>(s: State<E>, id: nat)
    requires Inv(s) && id < |s.threads| && !Commits(s, id) && !IsPush(s.threads[id])
    ensures SameFields(s, NextStep(s, id), id)
  {
    hide Inv, Content, Ring.Get, RingsOk, PcOk, ThreadOk;
  }

  lemma InvisibleFields<E>(s: State<E>, id: nat)
    requires Inv(s) && id < |s.threads| && !Commits(s, id)
    ensures SameFields(s, NextStep(s, id), id)
  {
    hide Inv, SameFields, NextStep, Commits;
    if IsPush(s.threads[id]) { PushFields(s, id); } else { OtherFields(s, id); }
  }

  lemma InvisibleStep<E>(s: State<E>, t: State<E>, id: nat)
    requires Refining(s, t, id) && t == NextStep(s, id) && !Commits(s, id)
    ensures Abs(t) == Abs(s)
  {
    InvisibleFields(s, id);
    ContentAfter(s, id);
    OpsAt(s.threads, id);
    hide NextStep, Content, OpsOf, OpOf, ThreadOk, Commits;
  }

  lemma OpsAt<E>(threads: seq<Pc<E>>, id: nat)
    requires id < |threads|
    ensures OpsOf(threads)[id] == OpOf(threads[id])
  {
  }

  lemma RingStep<E>(s: State<E>, t: State<E>, id: nat)
    requires Refining(s, t, id) && t == NextStep(s, id) && Commits(s, id)
    requires s.threads[id].PushStoreTail? || s.threads[id].TakeStoreHead? || s.threads[id].TakeLoadTail?
    ensures Abs(t) == SpecStep(Abs(s), id)
  {
    var pc := s.threads[id];
    assert ThreadOk(s, id, pc);
    ContentAfter(s, id);
    EmptyContent(s);
    OpsAt(s.threads, id);
    hide Ring.Get, Content, RingsOk, OpsOf;
  }

  lemma SlotOrReturnStep<E>(s: State<E>, t: State<E>, id: nat)
    requires Refining(s, t, id) && t == NextStep(s, id) && Commits(s, id)
    requires !s.threads[id].PushStoreTail? && !s.threads[id].TakeStoreHead? && !s.threads[id].TakeLoadTail?
    ensures Abs(t) == SpecStep(Abs(s), id)
  {
    var pc := s.threads[id];
    assert ThreadOk(s, id, pc);
    SameContent(s, t);
    OpsAt(s.threads, id);
    hide Ring.Get, Content, RingsOk, OpsOf, Elements;
  }

  lemma StepRefines<E>(s: State<E>, id: nat)
    requires Inv(s) && id < |s.threads| && Inv(NextStep(s, id)) && StepOk(s, NextStep(s, id), id)
    ensures Abs(NextStep(s, id)) == if Commits(s, id) then SpecStep(Abs(s), id) else Abs(s)
  {
    var t, pc := NextStep(s, id), s.threads[id];
    StepIsRefining(s, t, id);
    hide Refining, Abs, NextStep, SpecStep, StepOk;
    if !Commits(s, id) { InvisibleStep(s, t, id); }
    else if pc.PushStoreTail? || pc.TakeStoreHead? || pc.TakeLoadTail? { RingStep(s, t, id); }
    else { SlotOrReturnStep(s, t, id); }
  }

  lemma StartRefines<E>(s: State<E>, id: nat, call: Call<E>)
    requires Inv(s) && id < |s.threads| && Inv(NextStart(s, id, call))
    ensures Abs(NextStart(s, id, call)) == SpecStart(Abs(s), id, call)
  {
    var t := NextStart(s, id, call);
    assert ThreadOk(s, id, s.threads[id]);
    SameContent(s, t);
    OpsAt(s.threads, id);
    OpsUpdate(s.threads, id, t.threads[id]);
    hide Ring.Get, Content, RingsOk, OpsOf;
  }

  /** Every step keeps the invariant; the steps that commit are exactly the steps of the atomic queue with a
      slot, by the same thread, and the others change nothing anyone can see. */
  lemma NextInv<E>(s: State<E>, action: Action<E>)
    requires Inv(s)
    ensures Inv(Next(s, action))
    ensures Abs(Next(s, action)) ==
      if Invisible(s, action) then Abs(s) else SpecNext(Abs(s), action)
  {
    assert |s.logs| == |s.threads|;
    hide Inv, NextStep, NextStart, SpecStep, SpecStart;
    var id := action.id;
    if id < |s.threads| {
      match action {
        case Start(_, call) =>
          StartStep(s, id, call);
          StepOkInv(s, NextStart(s, id, call), id);
          StartRefines(s, id, call);
        case Step(_) =>
          StepIsOk(s, id);
          StepOkInv(s, NextStep(s, id), id);
          StepRefines(s, id);
      }
    }
  }

  // ----- all runs -----

  ghost function Run<E>(s: State<E>, actions: seq<Action<E>>): (t: State<E>)
    requires Inv(s)
    ensures Inv(t)
    decreases |actions|
  {
    if actions == [] then s
    else
      NextInv(s, actions[0]);
      Run(Next(s, actions[0]), actions[1..])
  }

  /** The actions of a run that anyone can see. */
  ghost function Visible<E>(s: State<E>, actions: seq<Action<E>>): seq<Action<E>>
    requires Inv(s)
    decreases |actions|
  {
    if actions == [] then []
    else
      NextInv(s, actions[0]);
      (if Invisible(s, actions[0]) then [] else [actions[0]]) + Visible(Next(s, actions[0]), actions[1..])
  }

  predicate Invisible<E>(s: State<E>, action: Action<E>) {
    action.Step? && action.id < |s.threads| && !Commits(s, action.id)
  }

  /** Every run of the spin-locked queue is a run of the atomic one: the visible moves, by the same threads
      in the same order. */
  lemma {:induction false} RunRefines<E>(s: State<E>, actions: seq<Action<E>>)
    requires Inv(s)
    ensures Abs(Run(s, actions)) == SpecRun(Abs(s), Visible(s, actions))
    decreases |actions|
  {
    hide Next, Abs, SpecNext, Invisible, ThreadOk;
    if actions == [] {
    } else {
      var action := actions[0];
      NextInv(s, action);
      var rest := Visible(Next(s, action), actions[1..]);
      RunRefines(Next(s, action), actions[1..]);
      assert ([action] + rest)[1..] == rest;
      assert [] + rest == rest;
    }
  }

  lemma {:induction false} SpecRunRight<E>(q: Queue<E>, actions: seq<Action<E>>)
    requires CallsRight(q)
    ensures CallsRight(SpecRun(q, actions))
    decreases |actions|
  {
    hide CallsRight, SpecNext;
    if actions == [] {
    } else {
      SpecRight(q, actions[0]);
      SpecRunRight(SpecNext(q, actions[0]), actions[1..]);
    }
  }

  lemma {:induction false} SpecRunKeeps<E>(q: Queue<E>, actions: seq<Action<E>>, x: E)
    requires Balanced(q, x) && InOrder(q)
    ensures Balanced(SpecRun(q, actions), x) && InOrder(SpecRun(q, actions))
    decreases |actions|
  {
    hide Balanced, InOrder, SpecNext;
    if actions == [] {
    } else {
      SpecBalanced(q, actions[0], x);
      SpecInOrder(q, actions[0]);
      SpecRunKeeps(SpecNext(q, actions[0]), actions[1..], x);
    }
  }

  lemma InitInv<E>(threads: nat, logSize: nat, garbage: E)
    ensures Inv(Init(threads, logSize, garbage))
  {
  }

  lemma {:induction false} NothingInHands<E>(ops: seq<Op<E>>, x: E)
    requires forall i | 0 <= i < |ops| :: ops[i].Out?
    ensures InHands(ops, x) == 0
  {
    if ops == [] {
    } else {
      NothingInHands(ops[1..], x);
    }
  }

  /** From an empty queue, in every run and across every growth: each element handed to a push or a priority
      push has been returned, or is in the ring, the slot or the hands of a thread, once for each time it was
      handed in; and elements leave the ring in the order in which they entered it. */
  lemma EveryElementOnce<E>(threads: nat, logSize: nat, garbage: E, actions: seq<Action<E>>, x: E)
    ensures Inv(Init(threads, logSize, garbage))
    ensures var q := Abs(Run(Init(threads, logSize, garbage), actions)); Balanced(q, x) && InOrder(q)
  {
    InitInv(threads, logSize, garbage);
    var s := Init(threads, logSize, garbage);
    assert Content(s) == [];
    NothingInHands(Abs(s).ops, x);
    assert Balanced(Abs(s), x) && InOrder(Abs(s));
    RunRefines(s, actions);
    SpecRunKeeps(Abs(s), Visible(s, actions), x);
  }

  /** In every run every finished call of every thread has done what its thread's calls before it demand: a
      push has put its argument into the ring, a priority push exactly what the last priority push had left
      in the slot, and a pop has answered with that or, when there was nothing, with what it took from the
      ring; and between the owner's calls the slot holds the argument of its last priority push, unless a
      pop came after it. */
  lemma EveryCallIsRight<E>(threads: nat, logSize: nat, garbage: E, actions: seq<Action<E>>, id: nat)
    requires id < threads
    ensures Inv(Init(threads, logSize, garbage))
    ensures var s := Run(Init(threads, logSize, garbage), actions);
      && |s.threads| == |s.logs| == threads && AllRight(s.logs[id])
      && (id == OWNER && !OnSlot(s.threads[id]) ==> s.slot == SlotAfter(s.logs[id]))
      && (s.threads[id].Idle? <==> !Busy(s.logs[id]))
  {
    var start := Init(threads, logSize, garbage);
    InitInv(threads, logSize, garbage);
    RunKeepsThreads(start, actions);
    RunIsRight(start, actions);
    var s := Run(start, actions);
    assert ThreadRight(Abs(s), id);
    OpsAt(s.threads, id);
    hide Run, AllRight, SlotAfter, SlotBefore;
  }

  lemma RunIsRight<E>(s: State<E>, actions: seq<Action<E>>)
    requires Inv(s) && CallsRight(Abs(s))
    ensures CallsRight(Abs(Run(s, actions)))
  {
    RunRefines(s, actions);
    SpecRunRight(Abs(s), Visible(s, actions));
  }

  lemma {:induction false} RunKeepsThreads<E>(s: State<E>, actions: seq<Action<E>>)
    requires Inv(s)
    ensures |Run(s, actions).threads| == |s.threads|
    decreases |actions|
  {
    hide Abs, SpecNext;
    if actions == [] {
    } else {
      NextInv(s, actions[0]);
      NextKeepsThreads(s, actions[0]);
      RunKeepsThreads(Next(s, actions[0]), actions[1..]);
    }
  }

  lemma NextKeepsThreads<E>(s: State<E>, action: Action<E>)
    requires Inv(s)
    ensures |Next(s, action).threads| == |s.threads|
  {
    if action.id < |s.threads| && action.Step? {
      StepIsOk(s, action.id);
    }
    hide Inv, NextStep;
  }

  /** A pop reports an empty queue only when both its slot and the ring are empty. */
  lemma EmptyPop<E>(s: State<E>)
    requires Inv(s) && CallsRight(Abs(s)) && OWNER < |s.threads| && s.threads[OWNER].TakeLoadTail?
    requires s.logs[OWNER] != [] && s.logs[OWNER][|s.logs[OWNER]| - 1].call.Pop?
    ensures NextStep(s, OWNER).threads[OWNER] == TakeUnlock(None) ==> s.slot.None? && Content(s) == []
  {
    EmptyIsEmpty(s, OWNER);
    assert ThreadRight(Abs(s), OWNER);
    OpsAt(s.threads, OWNER);
    hide AllRight, Content;
  }

  /** When no element is handed in twice, none is returned twice. */
  lemma NoElementTwice<E>(threads: nat, logSize: nat, garbage: E, actions: seq<Action<E>>)
    ensures Inv(Init(threads, logSize, garbage))
    ensures var s := Run(Init(threads, logSize, garbage), actions); Distinct(s.given) ==> Distinct(s.returned)
  {
    InitInv(threads, logSize, garbage);
    var s := Run(Init(threads, logSize, garbage), actions);
    hide Run, Among;
    if Distinct(s.given) {
      forall i, j | 0 <= i < j < |s.returned| ensures s.returned[i] != s.returned[j] {
        if s.returned[i] == s.returned[j] {
          RepeatCounts(s.returned, i, j);
          EveryElementOnce(threads, logSize, garbage, actions, s.returned[i]);
          NoRepeatCounts(s.given, s.returned[i]);
        }
      }
    }
  }

  /** From an empty queue, in every run and across every growth: what has left the ring is exactly what
      entered it first, in that order, and the rest is what it still holds. */
  lemma FirstInFirstOut<E>(threads: nat, logSize: nat, garbage: E, actions: seq<Action<E>>)
    ensures Inv(Init(threads, logSize, garbage))
    ensures var s := Run(Init(threads, logSize, garbage), actions); s.put == s.taken + Content(s)
  {
    EveryElementOnce(threads, logSize, garbage, actions, garbage);
  }

  /** A take reports an empty queue exactly when the ring is empty at its load of the tail. */
  lemma EmptyIsEmpty<E>(s: State<E>, id: nat)
    requires Inv(s) && id < |s.threads| && s.threads[id].TakeLoadTail?
    ensures NextStep(s, id).threads[id] == TakeUnlock(None) <==> Content(s) == []
  {
    assert ThreadOk(s, id, s.threads[id]);
  }

  /** In every state of every run at most one thread is between acquire and release, no thread is about to
      touch a ring that has been freed, and only the owner is in an operation on the slot. */
  lemma LockedAndAllocated<E>(s: State<E>, i: nat, j: nat)
    requires Inv(s) && i < |s.threads| && j < |s.threads|
    ensures Inside(s.threads[i]) && Inside(s.threads[j]) ==> i == j
    ensures Touches(s.threads[i]).Some? ==> Inside(s.threads[i]) && Touches(s.threads[i]).value !in s.freed
    ensures OnSlot(s.threads[i]) ==> i == OWNER
  {
    hide Ring.Get;
    assert ThreadOk(s, i, s.threads[i]);
    assert ThreadOk(s, j, s.threads[j]);
  }

  /** When nobody is in the middle of an operation, everything handed in has been returned or is in the ring
      or the slot. */
  lemma RestIsComplete<E>(threads: nat, logSize: nat, garbage: E, actions: seq<Action<E>>, x: E)
    ensures Inv(Init(threads, logSize, garbage))
    ensures var s := Run(Init(threads, logSize, garbage), actions);
      (forall i | 0 <= i < |s.threads| :: s.threads[i].Idle?) ==>
        Among(s.given, x) == Among(s.returned, x) + Among(Content(s), x) + InSlot(s.slot, x)
  {
    EveryElementOnce(threads, logSize, garbage, actions, x);
    var s := Run(Init(threads, logSize, garbage), actions);
    hide Run, Among, Content;
    if forall i | 0 <= i < |s.threads| :: s.threads[i].Idle? {
      NothingInHands(OpsOf(s.threads), x);
    }
  }

  // ----- every call gets on -----

  /** A call of an idle thread begins, and is written down; only the owner calls the operations on the slot. */
  lemma CallBegins<E>(s: State<E>, id: nat, call: Call<E>)
    requires Inv(s) && id < |s.threads| && s.threads[id].Idle?
    requires call.Pop? || call.PriorityPush? ==> id == OWNER
    ensures var t := Next(s, Start(id, call));
      && id < |t.threads| == |t.logs| && !t.threads[id].Idle?
      && t.logs[id] == s.logs[id] + [Entry(call, [], [], None, false)] && t.slot == s.slot
  {
    hide PcOk;
  }

  /** The steps a thread has still to make in its call, not counting those it waits for the lock. */
  function Work<E>(pc: Pc<E>, size: nat): int {
    match pc
    case Idle => 0
    case PushExchange(_) => size + 10
    case PushLoadArray(_) => size + 9
    case PushLoadHead(_, _) => size + 8
    case PushLoadTail(_, _, _) => size + 7
    case PushCopy(_, _, _, tail, i, _) => tail - i + 6
    case PushFree(_, _, _, _) => 5
    case PushStoreArray(_, _, _) => 4
    case PushStoreElement(_, _, _) => 3
    case PushStoreTail(_, _) => 2
    case PushUnlock => 1
    case TakeExchange => 7
    case TakeLoadArray => 6
    case TakeLoadHead(_) => 5
    case TakeLoadTail(_, _) => 4
    case TakeLoadElement(_, _) => 3
    case TakeStoreHead(_, _) => 2
    case TakeUnlock(_) => 1
    case PopLoadSlot => 8
    case PopClearSlot(_) => 1
    case PriorityLoadSlot(_) => size + 12
    case PriorityStoreSlot(_, _) => size + 11
  }

  predicate WaitsForLock<E>(s: State<E>, pc: Pc<E>) {
    s.locked && (pc.PushExchange? || pc.TakeExchange?)
  }

  lemma GrowthGetsOn<E>(s: State<E>, id: nat)
    requires Inv(s) && id < |s.threads| && Growing(s.threads[id])
    ensures var pc, size := NextStep(s, id).threads[id], s.rings[s.cur].Size();
      0 <= Work(pc, size) < Work(s.threads[id], size)
  {
    assert ThreadOk(s, id, s.threads[id]);
    hide Ring.Get, ThreadOk;
  }

  lemma PushGetsOn<E>(s: State<E>, id: nat, size: nat)
    requires Inv(s) && id < |s.threads| && !Growing(s.threads[id]) && !WaitsForLock(s, s.threads[id])
    requires IsPush(s.threads[id])
    ensures 0 <= Work(NextStep(s, id).threads[id], size) < Work(s.threads[id], size)
  {
    hide Inv, Ring.Get, RingsOk, PcOk, Ring.Set;
  }

  lemma TakeGetsOn<E>(s: State<E>, id: nat, size: nat)
    requires Inv(s) && id < |s.threads| && Takes(s.threads[id])
    ensures 0 <= Work(NextStep(s, id).threads[id], size) < Work(s.threads[id], size)
  {
    hide Inv, Ring.Get, RingsOk, PcOk;
  }

  lemma SlotGetsOn<E>(s: State<E>, id: nat, size: nat)
    requires Inv(s) && id < |s.threads|
    requires OnSlot(s.threads[id]) || s.threads[id].TakeUnlock? || (s.threads[id].TakeExchange? && !s.locked)
    ensures 0 <= Work(NextStep(s, id).threads[id], size) < Work(s.threads[id], size)
  {
    hide Inv, Ring.Get, RingsOk, PcOk;
  }

  /** A step of a call brings it nearer to its end, unless the lock is taken. */
  lemma StepGetsOn<E>(s: State<E>, id: nat)
    requires Inv(s) && id < |s.threads| && !s.threads[id].Idle? && !WaitsForLock(s, s.threads[id])
    ensures var t, size := Next(s, Step(id)), s.rings[s.cur].Size();
      id < |t.threads| && 0 <= Work(t.threads[id], size) < Work(s.threads[id], size)
  {
    NextKeepsThreads(s, Step(id));
    hide Inv, NextStep, Work;
    if Growing(s.threads[id]) { GrowthGetsOn(s, id); }
    else if IsPush(s.threads[id]) { PushGetsOn(s, id, s.rings[s.cur].Size()); }
    else if Takes(s.threads[id]) { TakeGetsOn(s, id, s.rings[s.cur].Size()); }
    else { SlotGetsOn(s, id, s.rings[s.cur].Size()); }
  }

  /** And if it is taken, the thread that holds it does not wait: no state is stuck. */
  lemma HolderMoves<E>(s: State<E>, id: nat)
    requires Inv(s) && id < |s.threads| && WaitsForLock(s, s.threads[id])
    ensures s.holder.Some? && s.holder.value < |s.threads| && s.holder.value != id
    ensures var h := s.threads[s.holder.value]; !h.Idle? && !WaitsForLock(s, h)
  {
    assert ThreadOk(s, id, s.threads[id]);
    assert ThreadOk(s, s.holder.value, s.threads[s.holder.value]);
  }

  /** A push replaces the array exactly when the ring is full, and otherwise goes on to store its element. */
  lemma GrowsWhenFull<E>(s: State<E>, id: nat)
    requires Inv(s) && id < |s.threads| && s.threads[id].PushLoadTail?
    ensures var pc := NextStep(s, id).threads[id];
      if |Content(s)| == s.rings[s.cur].Size() then pc.PushCopy? else pc.PushStoreElement?
  {
    assert ThreadOk(s, id, s.threads[id]);
    hide Ring.Get;
  }

  // ----- arrays are given back -----

  /** Every array but the current one has been freed; the current one has only between `free` and the store of
      its successor. */
  ghost predicate FreedOk<E>(s: State<E>) {
    && (forall a | 0 <= a < |s.rings| && a != s.cur :: a in s.freed)
    && (forall id | 0 <= id < |s.threads| && s.threads[id].PushStoreArray? :: s.cur in s.freed)
  }

  lemma ReplaceFrees<E>(s: State<E>, id: nat)
    requires Inv(s) && FreedOk(s) && id < |s.threads| && Replaces(s.threads[id])
    ensures FreedOk(NextStep(s, id))
  {
    hide Ring.Get;
    assert ThreadOk(s, id, s.threads[id]);
    assert forall i | 0 <= i < |s.threads| && Inside(s.threads[i]) :: ThreadOk(s, i, s.threads[i]);
  }

  /** Any other step of a push. */
  lemma PushFrees<E>(s: State<E>, id: nat)
    requires Inv(s) && FreedOk(s) && id < |s.threads| && IsPush(s.threads[id]) && !Replaces(s.threads[id])
    ensures FreedOk(NextStep(s, id))
  {
    hide Inv, Ring.Get, RingsOk, PcOk, ThreadOk;
  }

  lemma OthersFree<E>(s: State<E>, id: nat)
    requires Inv(s) && FreedOk(s) && id < |s.threads| && !IsPush(s.threads[id]) && !Replaces(s.threads[id])
    ensures FreedOk(NextStep(s, id))
  {
    hide Inv, Ring.Get, RingsOk, PcOk, ThreadOk;
  }

  lemma StepFrees<E>(s: State<E>, id: nat)
    requires Inv(s) && FreedOk(s) && id < |s.threads|
    ensures FreedOk(NextStep(s, id))
  {
    hide Inv, FreedOk, NextStep;
    if Replaces(s.threads[id]) { ReplaceFrees(s, id); }
    else if IsPush(s.threads[id]) { PushFrees(s, id); }
    else { OthersFree(s, id); }
  }

  lemma NextFrees<E>(s: State<E>, action: Action<E>)
    requires Inv(s) && FreedOk(s)
    ensures FreedOk(Next(s, action))
  {
    if action.id < |s.threads| && action.Step? {
      StepFrees(s, action.id);
    }
    hide Inv, NextStep;
  }

  lemma {:induction false} RunFrees<E>(s: State<E>, actions: seq<Action<E>>)
    requires Inv(s) && FreedOk(s)
    ensures FreedOk(Run(s, actions))
    decreases |actions|
  {
    hide Inv, FreedOk, Next;
    if actions == [] {
    } else {
      NextInv(s, actions[0]);
      NextFrees(s, actions[0]);
      RunFrees(Next(s, actions[0]), actions[1..]);
    }
  }

  /** In every run, whenever nobody holds the lock, exactly the replaced arrays have been freed; and an array is
      freed only when it has not been freed before. */
  lemma NothingLeaks<E>(threads: nat, logSize: nat, garbage: E, actions: seq<Action<E>>)
    ensures Inv(Init(threads, logSize, garbage))
    ensures var s := Run(Init(threads, logSize, garbage), actions);
      && (!s.locked ==> forall a: nat :: a in s.freed <==> a < |s.rings| && a != s.cur)
      && forall id | 0 <= id < |s.threads| && s.threads[id].PushFree? :: s.threads[id].a !in s.freed
  {
    InitInv(threads, logSize, garbage);
    RunFrees(Init(threads, logSize, garbage), actions);
    var s := Run(Init(threads, logSize, garbage), actions);
    hide Run, Ring.Get;
    forall id | 0 <= id < |s.threads| && s.threads[id].PushFree? ensures s.threads[id].a !in s.freed {
      assert ThreadOk(s, id, s.threads[id]);
    }
  }
}
