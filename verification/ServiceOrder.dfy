/** In which order the workers of `scheff.c` serve tasks.  Each worker has a duty: the task it serves next,
    if one is set, and the others in the order in which they go.  Every answer of a task changes the duty at
    once; the steps with which the worker then carries the answer out keep it.
  */
module ServiceOrder {
  import opened Options
  import opened Sequences
  import opened Scheduler
  import opened TaskLife

  datatype Duty = Duty(bound: Option<Task>, waiting: seq<Task>)

  function Held(slot: Option<Task>): seq<Task> {
    match slot case Some(t) => [t] case None => []
  }

  function If(b: bool, task: Task): seq<Task> { if b then [task] else [] }

  /** The tasks of `hand` are enqueued, then those of `rest` are put into the slot one after the other. */
  function Through(queue: seq<Task>, hand: seq<Task>, slot: Option<Task>, rest: seq<Task>, last: seq<Task>): Duty {
    if rest == [] then Duty(slot, queue + hand + last)
    else Duty(Some(rest[|rest| - 1]), queue + hand + Held(slot) + rest[..|rest| - 1] + last)
  }

  function DutyOf(worker: Worker): Duty {
    var queue, slot := worker.queue, worker.slot;
    match worker.pc
    case Push(t) => Duty(slot, queue + [t])
    case AddRemaining(t) => Duty(slot, queue + [t])
    case CreateTask(t) => Duty(slot, queue + [t])
    case PushForker(t, created) => Through(queue, [t], slot, [created], [])
    case SwapSlot(created) => Through(queue, [], slot, [created], [])
    case WakeNext(t, wakers, resume) => Through(queue, [], slot, wakers, If(resume, t))
    case WakeDisplaced(t, displaced, wakers, resume) => Through(queue, [displaced], slot, wakers, If(resume, t))
    case _ => Duty(slot, queue)
  }

  /** Whom an answer sends to the end: the task itself if it goes on, and before it the tasks it wakes, except
      the last one. */
  function Behind(bound: Option<Task>, task: Task, request: Request): seq<Task> {
    match request
    case Return => []
    case Fork => [task]
    case Poll => [task]
    case Sleep(keeps) => If(!keeps, task)
    case Wake(wakers, resume) =>
      (if wakers == [] then [] else Held(bound) + wakers[..|wakers| - 1]) + If(resume, task)
  }

  /** Whom action `a` sends to the end of worker `v`'s line. */
  function Entering(s: State, a: Action, v: nat): seq<Task>
    requires v < |s.workers|
  {
    var slot, pc := s.workers[v].slot, s.workers[v].pc;
    if a.w != v then []
    else match a
      case Handle(_, request) => if pc.Running? then Behind(slot, pc.task, request) else []
      case Check(_, ready) => if pc.CheckTask? then If(pc.task in s.polling && !ready, pc.task) else []
      case Allocate(_, _) => Held(slot)
      case Step(_) => []
  }

  /** Whom action `a` makes the next to be served by worker `v`, if anyone. */
  function Binding(a: Action, v: nat): Option<Task> {
    match a
    case Handle(w, Wake(wakers, _)) => if w == v && wakers != [] then Some(wakers[|wakers| - 1]) else None
    case Allocate(w, created) => if w == v then Some(created) else None
    case _ => None
  }

  /** Action `a` gets a worker a task. */
  ghost predicate Takes(s: State, a: Action)
    requires Enabled(s, a)
  {
    a.Step? && Next(s, a).workers[a.w].pc.CheckTask?
  }

  /** A worker that looks elsewhere has nothing to do. */
  ghost predicate IdleOk(s: State) {
    forall w | 0 <= w < |s.workers| ::
      s.workers[w].pc.Steal? || s.workers[w].pc.LoadRemaining? || s.workers[w].pc.Exited? ==>
        s.workers[w].slot == None && s.workers[w].queue == []
  }

  lemma InitIdle(workers: nat, tasks: seq<Task>)
    requires workers > 0
    ensures IdleOk(Init(workers, tasks))
  {
  }

  lemma NextIdle(s: State, a: Action)
    requires IdleOk(s) && Enabled(s, a)
    ensures IdleOk(Next(s, a))
  {
    if a.Step? && s.workers[a.w].pc.Steal? { StealIdle(s, a.w); } else { SelfIdle(s, a); }
  }

  lemma StealIdle(s: State, w: nat)
    requires IdleOk(s) && Enabled(s, Step(w)) && s.workers[w].pc.Steal?
    ensures IdleOk(NextStep(s, w))
  {
    var offset := s.workers[w].pc.offset;
    if offset < |s.workers| {
      var v := (w + offset) % |s.workers|;
    }
  }

  lemma SelfIdle(s: State, a: Action)
    requires IdleOk(s) && Enabled(s, a) && !(a.Step? && s.workers[a.w].pc.Steal?)
    ensures IdleOk(Next(s, a))
  {
    var t := Next(s, a);
    assert t.workers == s.workers[a.w := t.workers[a.w]];
  }

  // ----- what each action does to the duties -----

  /** The steps that carry out an answer. */
  predicate Carries(pc: Pc) {
    !pc.PopOwn? && !pc.Steal?
  }

  lemma CarryStep(s: State, w: nat)
    requires Enabled(s, Step(w)) && Carries(s.workers[w].pc)
    ensures DutyOf(NextStep(s, w).workers[w]) == DutyOf(s.workers[w])
  {
    var pc := s.workers[w].pc;
    if pc.WakeNext? || pc.WakeDisplaced? { WakeCarries(s, w); } else { OtherCarries(s, w); }
  }

  lemma WakeCarries(s: State, w: nat)
    requires w < |s.workers| && (s.workers[w].pc.WakeNext? || s.workers[w].pc.WakeDisplaced?)
    ensures DutyOf(NextStep(s, w).workers[w]) == DutyOf(s.workers[w])
  {
    var self := s.workers[w];
    match self.pc
    case WakeNext(task, wakers, resume) =>
      if wakers != [] { ThroughSlot(self.queue, self.slot, wakers, If(resume, task)); }
    case WakeDisplaced(task, displaced, wakers, resume) =>
      ThroughQueue(self.queue, [displaced], self.slot, wakers, If(resume, task));
  }

  lemma OtherCarries(s: State, w: nat)
    requires Enabled(s, Step(w)) && Carries(s.workers[w].pc)
    requires !s.workers[w].pc.WakeNext? && !s.workers[w].pc.WakeDisplaced?
    ensures DutyOf(NextStep(s, w).workers[w]) == DutyOf(s.workers[w])
  {
    var self := s.workers[w];
    if self.pc.PushForker? {
      ThroughQueue(self.queue, [self.pc.task], self.slot, [self.pc.created], []);
    } else {
      hide Enabled;
    }
  }

  lemma ThroughQueue(queue: seq<Task>, hand: seq<Task>, slot: Option<Task>, rest: seq<Task>, last: seq<Task>)
    ensures Through(queue + hand, [], slot, rest, last) == Through(queue, hand, slot, rest, last)
  {
    assert queue + hand + [] == queue + hand;
  }

  /** Putting the first task into the slot displaces the old one into the worker's hand. */
  lemma ThroughSlot(queue: seq<Task>, slot: Option<Task>, rest: seq<Task>, last: seq<Task>)
    requires rest != []
    ensures Through(queue, Held(slot), Some(rest[0]), rest[1..], last) == Through(queue, [], slot, rest, last)
  {
    if |rest| > 1 {
      assert rest[..|rest| - 1] == [rest[0]] + rest[1..][..|rest[1..]| - 1];
    }
  }

  lemma AnswerStep(s: State, w: nat, request: Request)
    requires Enabled(s, Handle(w, request))
    ensures var a := Handle(w, request);
            DutyOf(Next(s, a).workers[w]) ==
              Duty(if Binding(a, w).Some? then Binding(a, w) else s.workers[w].slot,
                   s.workers[w].queue + Entering(s, a, w))
  {
    var queue, slot := s.workers[w].queue, s.workers[w].slot;
    if request.Wake? && request.wakers != [] {
      var first := request.wakers[..|request.wakers| - 1];
      var last := If(request.resume, s.workers[w].pc.task);
      assert queue + [] + Held(slot) + first + last == queue + (Held(slot) + first + last);
    } else {
      assert queue + [] == queue;
    }
  }

  lemma CreateStep(s: State, w: nat, created: Task)
    requires Enabled(s, Allocate(w, created))
    ensures var d := DutyOf(s.workers[w]);
            DutyOf(Next(s, Allocate(w, created)).workers[w]) == Duty(Some(created), d.waiting + Held(d.bound))
  {
  }

  lemma CheckStep(s: State, w: nat, ready: bool)
    requires Inv(s) && Enabled(s, Check(w, ready))
    ensures var a := Check(w, ready);
            DutyOf(Next(s, a).workers[w]) == Duty(s.workers[w].slot, s.workers[w].queue + Entering(s, a, w))
  {
    NextInv(s, Check(w, ready));
  }

  /** What worker `v` serves next: the task it is bound to, and otherwise whoever has waited longest. */
  ghost predicate Serves(d: Duty, e: Duty, task: Task) {
    && e.bound == None
    && if d.bound.Some? then d.bound == Some(task) && e.waiting == d.waiting else d.waiting == [task] + e.waiting
  }

  lemma TakeStep(s: State, w: nat)
    requires IdleOk(s) && Enabled(s, Step(w)) && !Carries(s.workers[w].pc)
    ensures var d, self := DutyOf(s.workers[w]), NextStep(s, w).workers[w];
            if d == Duty(None, []) then DutyOf(self) == d
            else self.pc.CheckTask? && Serves(d, DutyOf(self), self.pc.task)
  {
  }

  /** Other workers' steps leave a worker's duty alone, or take from it whoever has waited longest. */
  lemma OtherStep(s: State, a: Action, v: nat)
    requires IdleOk(s) && Enabled(s, a) && v < |s.workers| && v != a.w
    ensures var d, t := DutyOf(s.workers[v]), Next(s, a);
            var e := DutyOf(t.workers[v]);
            || e == d
            || (Takes(s, a) && e.bound == d.bound && d.waiting == [t.workers[a.w].pc.task] + e.waiting)
  {
    hide IdleOk, DutyOf;
    if Robs(s, a, v) {
      RobbedDuty(s.workers[v]);
    }
  }

  predicate Robs(s: State, a: Action, v: nat)
    requires a.w < |s.workers| && v < |s.workers|
  {
    var pc := s.workers[a.w].pc;
    a.Step? && pc.Steal? && pc.offset < |s.workers| && (a.w + pc.offset) % |s.workers| == v
      && s.workers[v].queue != []
  }

  lemma RobbedDuty(worker: Worker)
    requires worker.queue != []
    ensures var d, e := DutyOf(worker), DutyOf(worker.(queue := worker.queue[1..]));
            e.bound == d.bound && d.waiting == [worker.queue[0]] + e.waiting
  {
    var queue := worker.queue;
    var rest := queue[1..];
    assert queue == [queue[0]] + rest;
    match worker.pc
    case WakeNext(t, wakers, resume) => ThroughFirst(queue[0], rest, [], worker.slot, wakers, If(resume, t));
    case WakeDisplaced(t, d, wakers, resume) =>
      ThroughFirst(queue[0], rest, [d], worker.slot, wakers, If(resume, t));
    case PushForker(t, created) => ThroughFirst(queue[0], rest, [t], worker.slot, [created], []);
    case SwapSlot(created) => ThroughFirst(queue[0], rest, [], worker.slot, [created], []);
    case Push(t) => assert queue + [t] == [queue[0]] + (rest + [t]);
    case AddRemaining(t) => assert queue + [t] == [queue[0]] + (rest + [t]);
    case CreateTask(t) => assert queue + [t] == [queue[0]] + (rest + [t]);
    case _ => hide Through;
  }

  lemma ThroughFirst(
      first: Task, queue: seq<Task>, hand: seq<Task>, slot: Option<Task>, rest: seq<Task>, last: seq<Task>)
    ensures var d, e := Through([first] + queue, hand, slot, rest, last), Through(queue, hand, slot, rest, last);
            e.bound == d.bound && d.waiting == [first] + e.waiting
  {
    if rest == [] {
      assert [first] + queue + hand + last == [first] + (queue + hand + last);
    } else {
      var more := Held(slot);
      var wakers := rest[..|rest| - 1];
      assert [first] + queue + hand + more + wakers + last == [first] + (queue + hand + more + wakers + last);
    }
  }

  /** Whom action `a` removes from worker `v`'s line. */
  ghost function Left(s: State, a: Action, v: nat): seq<Task>
    requires Enabled(s, a) && v < |s.workers|
  {
    var t := Next(s, a);
    if Takes(s, a) && |DutyOf(t.workers[v]).waiting| < |DutyOf(s.workers[v]).waiting|
    then [t.workers[a.w].pc.task] else []
  }

  /** What action `a` does to the duty `d` of worker `v`, which is `e` afterwards. */
  ghost predicate DutyFollows(s: State, a: Action, v: nat, d: Duty, e: Duty)
    requires Enabled(s, a) && v < |s.workers|
  {
    && d.waiting + Entering(s, a, v) == Left(s, a, v) + e.waiting
    && (Binding(a, v).Some? ==> e.bound == Binding(a, v))
    && (Binding(a, v).None? && !(a.w == v && Takes(s, a)) ==> e.bound == d.bound)
    && (a == Step(v) && s.workers[v].pc.PopOwn? && d != Duty(None, []) ==> Takes(s, a))
    && (a.w == v && Takes(s, a) && d != Duty(None, []) ==> Serves(d, e, Next(s, a).workers[v].pc.task))
  }

  lemma NextDuty(s: State, a: Action, v: nat)
    requires Inv(s) && IdleOk(s) && Enabled(s, a) && v < |s.workers|
    ensures |Next(s, a).workers| == |s.workers|
    ensures DutyFollows(s, a, v, DutyOf(s.workers[v]), DutyOf(Next(s, a).workers[v]))
  {
    hide Inv, DutyOf, IdleOk;
    if v != a.w {
      OtherStep(s, a, v);
    } else {
      match a
      case Check(_, ready) => CheckStep(s, v, ready); IdleDuty(s.workers[v]);
      case Handle(_, request) => AnswerStep(s, v, request); IdleDuty(s.workers[v]);
      case Allocate(_, created) => CreateStep(s, v, created); IdleDuty(s.workers[v]);
      case Step(_) => if Carries(s.workers[v].pc) { CarryStep(s, v); } else { TakeStep(s, v); }
    }
  }

  lemma IdleDuty(worker: Worker)
    ensures worker.pc.CheckTask? || worker.pc.Running? ==> DutyOf(worker) == Duty(worker.slot, worker.queue)
    ensures worker.pc.CreateTask? ==> DutyOf(worker).bound == worker.slot
  {
  }

  /** A worker with nothing of its own takes what has waited longest at another one. */
  lemma TheftIsFirst(s: State, a: Action)
    requires IdleOk(s) && Enabled(s, a) && Takes(s, a) && DutyOf(s.workers[a.w]) == Duty(None, [])
    ensures exists v :: 0 <= v < |s.workers| && v != a.w && Left(s, a, v) == [Next(s, a).workers[a.w].pc.task]
  {
    var v := (a.w + s.workers[a.w].pc.offset) % |s.workers|;
    RobbedDuty(s.workers[v]);
    assert Left(s, a, v) == [Next(s, a).workers[a.w].pc.task];
  }

  // ----- all runs -----

  ghost predicate Ordered(s: State) {
    Sound(s) && IdleOk(s)
  }

  lemma InitOrdered(workers: nat, tasks: seq<Task>)
    requires workers > 0 && Distinct(tasks)
    ensures Ordered(Init(workers, tasks))
    ensures DutyOf(Init(workers, tasks).workers[0]) == Duty(None, tasks)
  {
    InitSound(workers, tasks);
  }

  lemma NextOrdered(s: State, a: Action)
    requires Ordered(s) && Enabled(s, a)
    ensures Ordered(Next(s, a)) && |Next(s, a).workers| == |s.workers|
  {
    hide Inv, PollsOk, IdleOk;
    NextInv(s, a);
    NextPolls(s, a);
    NextIdle(s, a);
  }

  ghost function AllEntering(s: State, actions: seq<Action>, v: nat): seq<Task>
    requires v < |s.workers| && Runnable(s, actions)
    decreases |actions|
  {
    if actions == [] || v >= |Next(s, actions[0]).workers| then []
    else Entering(s, actions[0], v) + AllEntering(Next(s, actions[0]), actions[1..], v)
  }

  ghost function AllLeft(s: State, actions: seq<Action>, v: nat): seq<Task>
    requires v < |s.workers| && Runnable(s, actions)
    decreases |actions|
  {
    if actions == [] || v >= |Next(s, actions[0]).workers| then []
    else Left(s, actions[0], v) + AllLeft(Next(s, actions[0]), actions[1..], v)
  }

  /** Every worker's line is first in, first out, whoever takes from it. */
  lemma {:induction false} FirstComeFirstServed(s: State, actions: seq<Action>, v: nat)
    requires Ordered(s) && Runnable(s, actions) && v < |s.workers|
    ensures v < |Run(s, actions).workers|
    ensures DutyOf(s.workers[v]).waiting + AllEntering(s, actions, v)
            == AllLeft(s, actions, v) + DutyOf(Run(s, actions).workers[v]).waiting
    decreases |actions|
  {
    if actions == [] {
    } else {
      var t, rest := Next(s, actions[0]), actions[1..];
      NextOrdered(s, actions[0]);
      NextDuty(s, actions[0], v);
      FirstComeFirstServed(t, rest, v);
      hide Inv, PollsOk, IdleOk, DutyOf, Next, Run, Entering, Left, Enabled;
      Chained(DutyOf(s.workers[v]).waiting, Entering(s, actions[0], v), Left(s, actions[0], v),
              DutyOf(t.workers[v]).waiting, AllEntering(t, rest, v), AllLeft(t, rest, v),
              DutyOf(Run(s, actions).workers[v]).waiting);
    }
  }

  /** From a fork or a wake until the worker looks for its next task. */
  predicate Finishes(pc: Pc) {
    pc.PushForker? || pc.SwapSlot? || pc.WakeNext? || pc.WakeDisplaced? || pc.Push? || pc.FreeTask? ||
    pc.SubtractRemaining? || pc.PopOwn?
  }

  ghost predicate TakesAt(s: State, actions: seq<Action>, i: nat, w: nat)
    requires Runnable(s, actions) && i < |actions|
  {
    Takes(StateAt(s, actions, i), actions[i]) && actions[i].w == w
  }

  ghost predicate BoundTo(s: State, w: nat, x: Task) {
    w < |s.workers| && DutyOf(s.workers[w]).bound == Some(x) && Finishes(s.workers[w].pc)
  }

  lemma StaysBound(s: State, a: Action, w: nat, x: Task)
    requires Inv(s) && IdleOk(s) && Enabled(s, a) && BoundTo(s, w, x)
    ensures var t := Next(s, a);
            && w < |t.workers|
            && if Takes(s, a) && a.w == w then t.workers[w].pc == CheckTask(x) else BoundTo(t, w, x)
  {
    NextDuty(s, a, w);
    hide Inv, IdleOk, DutyOf;
    if a.w == w {
      OwnFinish(s, a, w);
    } else {
      OtherPc(s, a, w);
    }
  }

  lemma OwnFinish(s: State, a: Action, w: nat)
    requires Enabled(s, a) && a.w == w && Finishes(s.workers[w].pc) && DutyOf(s.workers[w]).bound.Some?
    ensures Takes(s, a) || (a.Step? && Finishes(Next(s, a).workers[w].pc))
  {
  }

  lemma OtherPc(s: State, a: Action, w: nat)
    requires Enabled(s, a) && a.w != w && w < |s.workers|
    ensures w < |Next(s, a).workers| && Next(s, a).workers[w].pc == s.workers[w].pc
  {
  }

  /** The task that was forked or woken last is the next one its worker takes. */
  lemma ServedNext(s: State, actions: seq<Action>, i: nat, j: nat, w: nat, x: Task)
    requires Ordered(s) && Runnable(s, actions) && i < j < |actions| && w < |s.workers|
    requires Binding(actions[i], w) == Some(x)
    requires TakesAt(s, actions, j, w) && forall k | i < k < j :: !TakesAt(s, actions, k, w)
    ensures w < |StateAt(s, actions, j + 1).workers|
    ensures StateAt(s, actions, j + 1).workers[w].pc == CheckTask(x)
  {
    hide Inv, PollsOk, IdleOk, Next, Enabled, StateAt, Runnable;
    OrderedAt(s, actions, i);
    StateAtNext(s, actions, i);
    hide Inv, PollsOk, IdleOk, Next, Enabled, BoundTo, Binding, Runnable, StateAt;
    BindingStep(StateAt(s, actions, i), actions[i], w, x);
    BoundUntil(s, actions, i + 1, j, w, x);
  }

  lemma BindingStep(s: State, a: Action, w: nat, x: Task)
    requires Inv(s) && IdleOk(s) && Enabled(s, a) && w < |s.workers| && Binding(a, w) == Some(x)
    ensures BoundTo(Next(s, a), w, x)
  {
    NextDuty(s, a, w);
    BindingFinishes(s, a, w);
  }

  lemma BindingFinishes(s: State, a: Action, w: nat)
    requires Enabled(s, a) && w < |s.workers| && Binding(a, w).Some?
    ensures w < |Next(s, a).workers| && Finishes(Next(s, a).workers[w].pc)
  {
  }

  lemma {:induction false} OrderedAt(s: State, actions: seq<Action>, i: nat)
    requires Ordered(s) && Runnable(s, actions) && i <= |actions|
    ensures Ordered(StateAt(s, actions, i)) && |StateAt(s, actions, i).workers| == |s.workers|
    decreases i
  {
    hide Ordered, Next, Enabled, StateAt, Runnable;
    if i == 0 {
      StateAtStart(s, actions);
    } else {
      OrderedAt(s, actions, i - 1);
      StateAtNext(s, actions, i - 1);
      NextOrdered(StateAt(s, actions, i - 1), actions[i - 1]);
    }
  }

  lemma {:induction false} BoundUntil(s: State, actions: seq<Action>, i: nat, j: nat, w: nat, x: Task)
    requires Ordered(s) && Runnable(s, actions) && i <= j < |actions| && BoundTo(StateAt(s, actions, i), w, x)
    requires TakesAt(s, actions, j, w) && forall k | i <= k < j :: !TakesAt(s, actions, k, w)
    ensures w < |StateAt(s, actions, j + 1).workers|
    ensures StateAt(s, actions, j + 1).workers[w].pc == CheckTask(x)
    decreases j - i
  {
    hide Inv, PollsOk, IdleOk, Next, Enabled, StateAt, Runnable;
    OrderedAt(s, actions, i);
    StateAtNext(s, actions, i);
    hide Inv, PollsOk, IdleOk, Next, Enabled, StateAt, Runnable;
    StaysBound(StateAt(s, actions, i), actions[i], w, x);
    if i == j {
    } else {
      assert !TakesAt(s, actions, i, w);
      BoundUntil(s, actions, i + 1, j, w, x);
    }
  }

  // ----- a worker gets on -----

  /** How many steps a worker of `n` takes at most before it looks for a task, has one, waits for one, or leaves. */
  function StepsLeft(pc: Pc, n: nat): nat {
    match pc
    case Steal(offset) => if offset < n then n - offset + 2 else 2
    case LoadRemaining => 1
    case Push(_) => 1
    case AddRemaining(_) => 1
    case PushForker(_, _) => 3
    case SwapSlot(_) => 2
    case WakeNext(_, wakers, _) => 2 * |wakers| + 3
    case WakeDisplaced(_, _, wakers, _) => 2 * |wakers| + 4
    case FreeTask(_) => 2
    case SubtractRemaining => 1
    case _ => 0
  }

  /** Whatever the other workers do. */
  lemma EveryStepCounts(s: State, w: nat)
    requires Enabled(s, Step(w)) && !s.workers[w].pc.PopOwn?
    ensures var n := |s.workers|;
            StepsLeft(NextStep(s, w).workers[w].pc, n) < StepsLeft(s.workers[w].pc, n)
  {
  }

  /** After `k` steps of worker `w` alone. */
  function Alone(s: State, w: nat, k: nat): (t: State)
    requires w < |s.workers|
    ensures |t.workers| == |s.workers|
    decreases k
  {
    if k == 0 then s else Alone(NextStep(s, w), w, k - 1)
  }

  /** The `u`-th neighbour of worker `w` has a task to steal. */
  predicate Offers(s: State, w: nat, u: nat)
    requires w < |s.workers|
  {
    s.workers[(w + u) % |s.workers|].queue != []
  }

  ghost predicate SomethingQueued(s: State, w: nat, offset: nat)
    requires w < |s.workers|
  {
    exists u :: offset <= u < |s.workers| && Offers(s, w, u)
  }

  ghost predicate FindsWithin(s: State, w: nat, k: nat)
    requires w < |s.workers|
  {
    exists i :: 0 <= i <= k && Alone(s, w, i).workers[w].pc.CheckTask?
  }

  lemma FindsLater(s: State, w: nat, k: nat)
    requires w < |s.workers| && FindsWithin(NextStep(s, w), w, k)
    ensures FindsWithin(s, w, k + 1)
  {
    var i :| 0 <= i <= k && Alone(NextStep(s, w), w, i).workers[w].pc.CheckTask?;
    assert Alone(s, w, i + 1) == Alone(NextStep(s, w), w, i);
  }

  lemma FindsNow(s: State, w: nat, k: nat)
    requires w < |s.workers| && NextStep(s, w).workers[w].pc.CheckTask? && k > 0
    ensures FindsWithin(s, w, k)
  {
    hide NextStep;
    assert Alone(s, w, 1) == NextStep(s, w);
  }

  lemma {:induction false} StealsAlone(s: State, w: nat, offset: nat)
    requires w < |s.workers| && s.workers[w].pc == Steal(offset) && offset <= |s.workers|
    ensures if SomethingQueued(s, w, offset) then FindsWithin(s, w, |s.workers| - offset)
            else Alone(s, w, |s.workers| - offset + 1) == WithPc(s, w, LoadRemaining)
    decreases |s.workers| - offset
  {
    var n := |s.workers|;
    var t := NextStep(s, w);
    if offset == n {
      assert Alone(s, w, 1) == t;
    } else if Offers(s, w, offset) {
      assert SomethingQueued(s, w, offset);
      FindsNow(s, w, n - offset);
    } else {
      StealsAlone(t, w, offset + 1);
      SameQueues(s, t, w, offset);
      hide NextStep, SomethingQueued, FindsWithin;
      if SomethingQueued(t, w, offset + 1) {
        FindsLater(s, w, n - offset - 1);
      } else {
        assert Alone(s, w, n - offset + 1) == Alone(t, w, n - offset);
      }
    }
  }

  lemma SameQueues(s: State, t: State, w: nat, offset: nat)
    requires w < |s.workers| == |t.workers|
    requires forall v | 0 <= v < |s.workers| :: t.workers[v].queue == s.workers[v].queue
    requires offset < |s.workers| && !Offers(s, w, offset)
    ensures SomethingQueued(s, w, offset) <==> SomethingQueued(t, w, offset + 1)
  {
    assert forall u | 0 <= u < |s.workers| :: Offers(s, w, u) <==> Offers(t, w, u);
  }

  lemma PastEnd(v: nat, n: nat)
    requires v < n
    ensures (v + n) % n == v
  {
  }

  lemma EveryoneIsAsked(s: State, w: nat, v: nat)
    requires w < |s.workers| && v < |s.workers| && v != w && s.workers[v].queue != []
    ensures SomethingQueued(s, w, 1)
  {
    var u := Distance(w, v, |s.workers|);
    assert Offers(s, w, u);
  }

  lemma Distance(w: nat, v: nat, n: nat) returns (u: nat)
    requires w < n && v < n && v != w
    ensures 1 <= u < n && (w + u) % n == v
  {
    if v > w {
      u := v - w;
    } else {
      u := v + n - w;
      PastEnd(v, n);
    }
  }

  /** A round of the others. */
  lemma AsksEveryone(s: State, w: nat)
    requires w < |s.workers| && s.workers[w].pc == Steal(1) && s.workers[w].queue == []
    ensures var n := |s.workers|;
            if exists v :: 0 <= v < n && s.workers[v].queue != [] then FindsWithin(s, w, n - 1)
            else Alone(s, w, n) == WithPc(s, w, LoadRemaining)
  {
    var n := |s.workers|;
    StealsAlone(s, w, 1);
    hide FindsWithin, Alone, SomethingQueued;
    if v :| 0 <= v < n && s.workers[v].queue != [] {
      EveryoneIsAsked(s, w, v);
    } else {
      NobodyOffers(s, w);
    }
  }

  lemma NobodyOffers(s: State, w: nat)
    requires w < |s.workers| && forall v | 0 <= v < |s.workers| :: s.workers[v].queue == []
    ensures !SomethingQueued(s, w, 1)
  {
    forall u: nat ensures !Offers(s, w, u) {
      assert 0 <= (w + u) % |s.workers| < |s.workers|;
    }
  }

  /** Left to itself, a worker that looks for a task gets one if there is one in its slot or in any queue, and
      otherwise leaves if no tasks remain, or looks again. */
  lemma FindsATask(s: State, w: nat)
    requires w < |s.workers| && s.workers[w].pc.PopOwn?
    ensures var n := |s.workers|;
            if s.workers[w].slot.Some? || exists v :: 0 <= v < n && s.workers[v].queue != []
            then FindsWithin(s, w, n)
            else Alone(s, w, n + 2) == WithPc(s, w, if s.remaining == 0 then Exited else PopOwn)
  {
    var n, t := |s.workers|, NextStep(s, w);
    if s.workers[w].slot.Some? || s.workers[w].queue != [] {
      FindsNow(s, w, n);
    } else {
      hide FindsWithin, Alone;
      assert forall v | 0 <= v < n :: t.workers[v].queue == s.workers[v].queue;
      AsksEveryone(t, w);
      if exists v :: 0 <= v < n && s.workers[v].queue != [] {
        FindsLater(s, w, n - 1);
      } else {
        LooksAgain(s, w);
      }
    }
  }

  lemma LooksAgain(s: State, w: nat)
    requires w < |s.workers| && s.workers[w].pc.PopOwn? && NextStep(s, w) == WithPc(s, w, Steal(1))
    requires Alone(NextStep(s, w), w, |s.workers|) == WithPc(NextStep(s, w), w, LoadRemaining)
    ensures Alone(s, w, |s.workers| + 2) == WithPc(s, w, if s.remaining == 0 then Exited else PopOwn)
  {
    var n, t := |s.workers|, NextStep(s, w);
    AloneAdds(t, w, n, 1);
    assert Alone(WithPc(t, w, LoadRemaining), w, 1) == NextStep(WithPc(t, w, LoadRemaining), w);
    assert Alone(s, w, n + 2) == Alone(t, w, n + 1);
  }

  lemma {:induction false} AloneAdds(s: State, w: nat, k: nat, more: nat)
    requires w < |s.workers|
    ensures Alone(s, w, k + more) == Alone(Alone(s, w, k), w, more)
    decreases k
  {
    if k == 0 {
    } else {
      AloneAdds(NextStep(s, w), w, k - 1, more);
    }
  }
}
