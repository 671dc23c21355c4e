/** The skynet program on sleeping promises (`libseff_scheff_sleep.c`): a tree of tasks, each of
    which forks ten children, awaits their promises and fulfils its own.  The state machine
    interleaves single atomic steps of any number of tasks; every schedule of every number of
    workers is a list of actions.  The promise of a task lives in the stack frame of its parent.
  */
module Skynet {
  import opened Options

  const BRANCHING_FACTOR: nat := 10

  datatype PromiseState = Empty | Waker(task: nat) | Fulfilled

  /** skynet_promise_t; the result is unspecified until it is written. */
  datatype Promise = Promise(locked: bool, state: PromiseState, result: Option<int>)

  /** The next step of a task.  `Sleep...` are the steps its worker makes in must_sleep. */
  datatype Pc =
    | Enter
    | Fork(i: nat)
    // await_promise on child i
    | AwaitLock(i: nat, sum: int)
    | AwaitRead(i: nat, sum: int)
    | AwaitUnlock(i: nat, sum: int, fulfilled: bool)
    | SleepLock(i: nat, sum: int)
    | SleepRead(i: nat, sum: int)
    | SleepStore(i: nat, sum: int)
    | SleepUnlock(i: nat, sum: int, kept: bool)
    | ReadResult(i: nat, sum: int)
    // fulfill on its own promise
    | FulfillLock(v: int)
    | FulfillRead(v: int)
    | FulfillState(v: int, previous: PromiseState)
    | FulfillResult(v: int, previous: PromiseState)
    | FulfillUnlock(v: int, previous: PromiseState)
    | Wake(target: nat)
    | Return

  /** Queued: in a task queue.  Placing: a worker is about to enqueue it.  Running: a worker
      executes it, or must_sleep on its behalf.  Asleep: only its waker refers to it. */
  datatype Location = Queued | Placing | Running | Asleep | Done

  datatype Task = Task(loc: Location, pc: Pc)

  /** `layer` is last_layer, the first node of the last layer. */
  datatype State = State(layer: nat, tasks: map<nat, Task>, promises: map<nat, Promise>)

  datatype Action = Take(n: nat) | Enqueue(n: nat) | Step(n: nat)

  function Child(n: nat, i: nat): nat {
    n * BRANCHING_FACTOR + i
  }

  function Parent(n: nat): nat {
    n / BRANCHING_FACTOR
  }

  function Index(n: nat): nat {
    n % BRANCHING_FACTOR
  }

  function NewPromise(): Promise {
    Promise(false, Empty, None)
  }

  /** bench: the root task is scheduled with its promise in the frame of the main program. */
  function Init(layer: nat): (s: State)
    requires layer > 0
    ensures Inv(s)
  {
    State(layer, map[1 := Task(Queued, Enter)], map[1 := NewPromise()])
  }

  // ----- what is computed -----

  /** The sum below node `n`. */
  function Sum(layer: nat, n: nat): int
    requires n > 0
    decreases if n < layer then layer - n else 0, BRANCHING_FACTOR + 1
  {
    if n >= layer then n - layer else PartialSum(layer, n, BRANCHING_FACTOR)
  }

  /** The sum below the first `i` children of an inner node. */
  function PartialSum(layer: nat, n: nat, i: nat): int
    requires 0 < n < layer
    decreases layer - n, i
  {
    if i == 0 then 0 else PartialSum(layer, n, i - 1) + Sum(layer, Child(n, i - 1))
  }

  // ----- steps -----

  function WithTask(s: State, n: nat, loc: Location, pc: Pc): State {
    s.(tasks := s.tasks[n := Task(loc, pc)])
  }

  function WithPromise(s: State, n: nat, p: Promise): State {
    s.(promises := s.promises[n := p])
  }

  ghost predicate Enabled(s: State, a: Action) {
    && a.n in s.tasks
    && match a
       case Take(n) => s.tasks[n].loc == Queued
       case Enqueue(n) => s.tasks[n].loc == Placing
       case Step(n) => s.tasks[n].loc == Running
  }

  function Next(s: State, a: Action): State
    requires Inv(s) && Enabled(s, a)
  {
    match a
    case Take(n) => WithTask(s, n, Running, s.tasks[n].pc)
    case Enqueue(n) => WithTask(s, n, Queued, s.tasks[n].pc)
    case Step(n) =>
      var pc := s.tasks[n].pc;
      if pc.Enter? || pc.Fork? then NextFork(s, n)
      else if Awaiting(pc) then
        AwaitedChild(s, n);
        var c := Child(n, pc.i);
        var (t, p) := AwaitStep(n, s.tasks[n], s.promises[c]);
        s.(tasks := s.tasks[n := t], promises := s.promises[c := p])
      else if Fulfilling(pc) then
        var (t, p) := FulfillStep(s.tasks[n], s.promises[n]);
        s.(tasks := s.tasks[n := t], promises := s.promises[n := p])
      else if pc.Wake? then
        assert NodeOk(s, n);
        WithTask(WithTask(s, pc.target, Queued, s.tasks[pc.target].pc), n, Running, Return)
      else WithTask(s, n, Done, Return)
  }

  function NextFork(s: State, n: nat): State
    requires n in s.tasks && (s.tasks[n].pc.Enter? || s.tasks[n].pc.Fork?)
  {
    match s.tasks[n].pc
    case Enter =>
      WithTask(s, n, Running, if n >= s.layer then FulfillLock(n - s.layer) else Fork(0))
    case Fork(i) =>
      var c := Child(n, i);
      var next := if i + 1 < BRANCHING_FACTOR then Fork(i + 1) else AwaitLock(0, 0);
      WithTask(WithTask(WithPromise(s, c, NewPromise()), n, Placing, next), c, Placing, Enter)
  }

  predicate Awaiting(pc: Pc) {
    || pc.AwaitLock? || pc.AwaitRead? || pc.AwaitUnlock? || pc.SleepLock? || pc.SleepRead?
    || pc.SleepStore? || pc.SleepUnlock? || pc.ReadResult?
  }

  /** A step on the promise `p` of the child being awaited, by task `n` or, in must_sleep, by
      its worker.  Spinning on a taken lock changes nothing. */
  function AwaitStep(n: nat, t: Task, p: Promise): (Task, Promise)
    requires Awaiting(t.pc) && (t.pc.ReadResult? ==> p.result.Some?)
  {
    match t.pc
    case AwaitLock(i, sum) =>
      if p.locked then (t, p) else (Task(Running, AwaitRead(i, sum)), p.(locked := true))
    case AwaitRead(i, sum) => (Task(Running, AwaitUnlock(i, sum, p.state == Fulfilled)), p)
    case AwaitUnlock(i, sum, fulfilled) =>
      (Task(Running, if fulfilled then ReadResult(i, sum) else SleepLock(i, sum)), p.(locked := false))
    case SleepLock(i, sum) =>
      if p.locked then (t, p) else (Task(Running, SleepRead(i, sum)), p.(locked := true))
    case SleepRead(i, sum) =>
      (Task(Running, if p.state == Empty then SleepStore(i, sum) else SleepUnlock(i, sum, false)), p)
    case SleepStore(i, sum) => (Task(Running, SleepUnlock(i, sum, true)), p.(state := Waker(n)))
    case SleepUnlock(i, sum, kept) =>
      (Task(if kept then Asleep else Placing, ReadResult(i, sum)), p.(locked := false))
    case ReadResult(i, sum) =>
      var sum' := sum + p.result.value;
      (Task(Running, if i + 1 < BRANCHING_FACTOR then AwaitLock(i + 1, sum') else FulfillLock(sum')), p)
  }

  predicate Fulfilling(pc: Pc) {
    pc.FulfillLock? || pc.FulfillRead? || pc.FulfillState? || pc.FulfillResult? || pc.FulfillUnlock?
  }

  /** A step of `fulfill` on the task's own promise. */
  function FulfillStep(t: Task, p: Promise): (Task, Promise)
    requires Fulfilling(t.pc)
  {
    match t.pc
    case FulfillLock(v) =>
      if p.locked then (t, p) else (Task(Running, FulfillRead(v)), p.(locked := true))
    case FulfillRead(v) => (Task(Running, FulfillState(v, p.state)), p)
    case FulfillState(v, previous) => (Task(Running, FulfillResult(v, previous)), p.(state := Fulfilled))
    case FulfillResult(v, previous) => (Task(Running, FulfillUnlock(v, previous)), p.(result := Some(v)))
    case FulfillUnlock(v, previous) =>
      (Task(Running, match previous case Waker(t) => Wake(t) case _ => Return), p.(locked := false))
  }

  // ----- the invariant -----

  predicate InAwaitSection(pc: Pc) {
    pc.AwaitRead? || pc.AwaitUnlock? || pc.SleepRead? || pc.SleepStore? || pc.SleepUnlock?
  }

  predicate InFulfillSection(pc: Pc) {
    pc.FulfillRead? || HasPrevious(pc)
  }

  predicate HasPrevious(pc: Pc) {
    pc.FulfillState? || pc.FulfillResult? || pc.FulfillUnlock?
  }

  /** The promise has been fulfilled and its lock released for the last time. */
  predicate Published(pc: Pc) {
    pc.Wake? || pc.Return?
  }

  predicate Stored(pc: Pc) {
    pc.FulfillResult? || pc.FulfillUnlock? || Published(pc)
  }

  /** Child `i` has been forked. */
  predicate Forked(pc: Pc, i: nat) {
    Awaiting(pc) || (pc.Fork? && i < pc.i)
  }

  /** The task has read the result of child `i`. */
  predicate Passed(pc: Pc, i: nat) {
    if Awaiting(pc) then i < pc.i else !pc.Enter? && !pc.Fork?
  }

  predicate SleepsOn(t: Task, i: nat) {
    t.loc == Asleep && t.pc.ReadResult? && t.pc.i == i
  }

  /** The task is past its wait for child `i`, and not asleep on it. */
  predicate SawFulfilled(t: Task, i: nat) {
    || Passed(t.pc, i)
    || (t.pc.AwaitUnlock? && t.pc.i == i && t.pc.fulfilled)
    || (t.pc.SleepUnlock? && t.pc.i == i && !t.pc.kept)
    || (t.pc.ReadResult? && t.pc.i == i && t.loc != Asleep)
  }

  /** A node's own progress, with the partial sum it has accumulated. */
  ghost predicate TaskOk(layer: nat, n: nat, t: Task) {
    && n > 0
    && match t.pc
       case Enter => t.loc != Asleep && t.loc != Done
       case Fork(i) => n < layer && i < BRANCHING_FACTOR && t.loc != Asleep && t.loc != Done
       case FulfillLock(v) => t.loc == Running && v == Sum(layer, n)
       case FulfillRead(v) => t.loc == Running && v == Sum(layer, n)
       case FulfillState(v, _) => t.loc == Running && v == Sum(layer, n)
       case FulfillResult(v, _) => t.loc == Running && v == Sum(layer, n)
       case FulfillUnlock(v, _) => t.loc == Running && v == Sum(layer, n)
       case Wake(_) => t.loc == Running
       case Return => t.loc == Running || t.loc == Done
       case _ =>
         && n < layer && t.pc.i < BRANCHING_FACTOR && t.pc.sum == PartialSum(layer, n, t.pc.i)
         && t.loc != Done
         && (t.loc == Asleep ==> t.pc.ReadResult?)
         && (t.loc == Queued || t.loc == Placing ==> t.pc.ReadResult? || t.pc.AwaitLock?)
  }

  /** A node's promise, between its own task and its parent's. */
  ghost predicate PromiseOk(layer: nat, n: nat, t: Task, p: Promise, parent: Option<Task>)
    requires n > 0
  {
    && (p.state == Fulfilled <==> Stored(t.pc))
    && (t.pc.FulfillUnlock? || Published(t.pc) ==> p.result == Some(Sum(layer, n)))
    && (t.pc.FulfillState? ==> p.state == t.pc.previous)
    && (HasPrevious(t.pc) ==> t.pc.previous == Empty || t.pc.previous == Waker(Parent(n)))
    && (t.pc.Wake? ==> t.pc.target == Parent(n))
    && match parent
       case None =>
         && p.locked == InFulfillSection(t.pc)
         && !p.state.Waker? && !t.pc.Wake? && (HasPrevious(t.pc) ==> t.pc.previous == Empty)
       case Some(q) =>
         var i := Index(n);
         var reading := InAwaitSection(q.pc) && q.pc.i == i;
         && (Forked(q.pc, i) || Passed(q.pc, i))
         && p.locked == (InFulfillSection(t.pc) || reading)
         && !(InFulfillSection(t.pc) && reading)
         && (p.state.Waker? ==> p.state.task == Parent(n))
         && (p.state.Waker? ==> SleepsOn(q, i) || (q.pc.SleepUnlock? && q.pc.i == i && q.pc.kept))
         && (q.pc.SleepStore? && q.pc.i == i ==> p.state == Empty)
         && (q.pc.SleepUnlock? && q.pc.i == i && q.pc.kept ==> p.state.Waker?)
         && ((HasPrevious(t.pc) && t.pc.previous.Waker?) || t.pc.Wake? ==> SleepsOn(q, i))
         && (SleepsOn(q, i) ==>
               p.state.Waker? || (HasPrevious(t.pc) && t.pc.previous.Waker?) || t.pc.Wake?)
         && (SawFulfilled(q, i) ==> Published(t.pc))
  }

  function ParentTask(s: State, n: nat): Option<Task> {
    if n == 1 then None else if Parent(n) in s.tasks then Some(s.tasks[Parent(n)]) else None
  }

  ghost predicate NodeOk(s: State, n: nat)
    requires n in s.tasks && n in s.promises
  {
    && TaskOk(s.layer, n, s.tasks[n])
    && PromiseOk(s.layer, n, s.tasks[n], s.promises[n], ParentTask(s, n))
  }

  /** Exactly the forked nodes of the tree have a task and a promise. */
  ghost predicate Domain(s: State) {
    && s.layer > 0 && 1 in s.tasks
    && s.tasks.Keys == s.promises.Keys
    && (forall n {:trigger Parent(n)} | n in s.tasks && n != 1 ::
          0 < Parent(n) < s.layer && Parent(n) in s.tasks)
    && (forall n, i: nat | n in s.tasks && i < BRANCHING_FACTOR && n < s.layer ::
          Child(n, i) in s.tasks <==> Forked(s.tasks[n].pc, i) || Passed(s.tasks[n].pc, i))
  }

  ghost predicate Inv(s: State) {
    Domain(s) && forall n {:trigger NodeOk(s, n)} | n in s.tasks :: NodeOk(s, n)
  }

  lemma ChildIndex(n: nat, i: nat)
    requires i < BRANCHING_FACTOR
    ensures Parent(Child(n, i)) == n && Index(Child(n, i)) == i
  {
  }

  /** The child a task is awaiting, with both its task and its promise. */
  lemma AwaitedChild(s: State, n: nat)
    requires Inv(s) && n in s.tasks && Awaiting(s.tasks[n].pc)
    ensures var c := Child(n, s.tasks[n].pc.i);
            && c in s.tasks && c in s.promises && c != n && c != 1
            && Parent(c) == n && Index(c) == s.tasks[n].pc.i && NodeOk(s, c)
            && (s.tasks[n].pc.ReadResult? && s.tasks[n].loc != Asleep ==>
                  s.promises[c].result == Some(Sum(s.layer, c)))
  {
    hide Sum, PartialSum;
    assert NodeOk(s, n);
    var i := s.tasks[n].pc.i;
    ChildIndex(n, i);
    assert Forked(s.tasks[n].pc, i);
    assert Child(n, i) in s.tasks;
    assert NodeOk(s, Child(n, i));
  }

  // ----- every step keeps the invariant -----

  /** A step of `n` on its own promise or on that of its child `c` keeps the invariant when it
      keeps those of the nodes that can see the change: `n`, its children and nobody else. */
  lemma LocalChange(s: State, t: State, n: nat, c: nat)
    requires Inv(s) && n in s.tasks && c in s.tasks && (c == n || (c != 1 && Parent(c) == n))
    requires t.layer == s.layer && t.tasks.Keys == s.tasks.Keys && t.promises.Keys == s.promises.Keys
    requires forall m | m in s.tasks && m != n :: t.tasks[m] == s.tasks[m]
    requires forall m | m in s.promises && m != c :: t.promises[m] == s.promises[m]
    requires n in t.promises && NodeOk(t, n)
    requires forall m {:trigger NodeOk(t, m)} | m in s.tasks && m != 1 && Parent(m) == n :: NodeOk(t, m)
    requires forall i: nat | i < BRANCHING_FACTOR && n < s.layer ::
               Forked(t.tasks[n].pc, i) || Passed(t.tasks[n].pc, i)
               <==> Forked(s.tasks[n].pc, i) || Passed(s.tasks[n].pc, i)
    ensures Inv(t)
  {
    LocalDomain(s, t, n);
    hide TaskOk, PromiseOk, Forked, Passed, Domain;
    forall m | m in t.tasks ensures NodeOk(t, m) {
      assert NodeOk(s, m);
    }
  }

  lemma LocalDomain(s: State, t: State, n: nat)
    requires Domain(s) && n in s.tasks
    requires t.layer == s.layer && t.tasks.Keys == s.tasks.Keys && t.promises.Keys == s.promises.Keys
    requires forall m | m in s.tasks && m != n :: t.tasks[m] == s.tasks[m]
    requires forall i: nat | i < BRANCHING_FACTOR && n < s.layer ::
               Forked(t.tasks[n].pc, i) || Passed(t.tasks[n].pc, i)
               <==> Forked(s.tasks[n].pc, i) || Passed(s.tasks[n].pc, i)
    ensures Domain(t)
  {
    hide Forked, Passed;
  }

  lemma AwaitTaskOk(layer: nat, n: nat, q: Task, p: Promise)
    requires Awaiting(q.pc) && q.loc == Running && TaskOk(layer, n, q)
    requires q.pc.ReadResult? ==> p.result == Some(Sum(layer, Child(n, q.pc.i)))
    ensures TaskOk(layer, n, AwaitStep(n, q, p).0)
  {
  }

  /** What the parent does on one child's promise keeps that promise in order. */
  lemma AwaitChildOk(layer: nat, n: nat, m: nat, t: Task, p: Promise, q: Task)
    requires n > 0 && m > 0 && Parent(m) == n
    requires Awaiting(q.pc) && q.loc == Running && q.pc.i == Index(m)
    requires PromiseOk(layer, m, t, p, Some(q))
    requires q.pc.ReadResult? ==> p.result.Some?
    ensures var (q', p') := AwaitStep(n, q, p); PromiseOk(layer, m, t, p', Some(q'))
  {
    hide Sum;
  }

  /** And leaves the promises of its other children in order. */
  lemma AwaitSiblingOk(layer: nat, n: nat, m: nat, t: Task, p: Promise, q: Task, other: Promise)
    requires n > 0 && m > 0 && Parent(m) == n
    requires Awaiting(q.pc) && q.loc == Running && q.pc.i != Index(m)
    requires PromiseOk(layer, m, t, p, Some(q))
    requires q.pc.ReadResult? ==> other.result.Some?
    ensures PromiseOk(layer, m, t, p, Some(AwaitStep(n, q, other).0))
  {
    hide Sum;
  }

  /** Neither forking nor awaiting touches the task's own promise. */
  lemma BusyOwnPromiseOk(layer: nat, n: nat, t: Task, t': Task, p: Promise, parent: Option<Task>)
    requires n > 0 && PromiseOk(layer, n, t, p, parent)
    requires t.pc.Enter? || t.pc.Fork? || Awaiting(t.pc)
    requires t'.pc.Enter? || t'.pc.Fork? || Awaiting(t'.pc) || t'.pc.FulfillLock?
    ensures PromiseOk(layer, n, t', p, parent)
  {
    hide Sum;
  }

  lemma FulfillOwnOk(layer: nat, n: nat, t: Task, p: Promise, parent: Option<Task>)
    requires n > 0 && Fulfilling(t.pc) && TaskOk(layer, n, t) && PromiseOk(layer, n, t, p, parent)
    ensures var (t', p') := FulfillStep(t, p);
            TaskOk(layer, n, t') && PromiseOk(layer, n, t', p', parent)
  {
    hide Sum, PartialSum;
  }

  /** Once a task has read all its results, its moves do not concern its children. */
  lemma PassedParentOk(layer: nat, m: nat, t: Task, p: Promise, q: Task, q': Task)
    requires m > 0 && PromiseOk(layer, m, t, p, Some(q))
    requires Fulfilling(q.pc) || Published(q.pc)
    requires Fulfilling(q'.pc) || Published(q'.pc)
    ensures PromiseOk(layer, m, t, p, Some(q'))
  {
    hide Sum;
  }

  /** Being enqueued and dequeued concerns nobody's promise. */
  lemma MovedOk(layer: nat, m: nat, t: Task, t': Task, p: Promise, q: Task, q': Task)
    requires m > 0 && t'.pc == t.pc && q'.pc == q.pc && q.loc != Asleep && q'.loc != Asleep
    ensures PromiseOk(layer, m, t, p, Some(q)) ==> PromiseOk(layer, m, t, p, Some(q'))
    ensures forall parent :: PromiseOk(layer, m, t, p, parent) ==> PromiseOk(layer, m, t', p, parent)
  {
    hide Sum;
  }

  /** Forking child `i` gives it an unlocked empty promise and leaves its elder siblings alone. */
  lemma ForkChildOk(layer: nat, n: nat, m: nat, t: Task, p: Promise, q: Task, q': Task)
    requires n > 0 && m > 0 && Parent(m) == n
    requires q.pc.Fork? && q'.pc == if q.pc.i + 1 < BRANCHING_FACTOR then Fork(q.pc.i + 1) else AwaitLock(0, 0)
    requires if Index(m) == q.pc.i then t.pc == Enter && p == NewPromise() else PromiseOk(layer, m, t, p, Some(q))
    ensures PromiseOk(layer, m, t, p, Some(q'))
  {
    hide Sum;
  }

  lemma ForkTaskOk(layer: nat, n: nat, q: Task, q': Task, t: Task)
    requires TaskOk(layer, n, q) && q.pc.Fork? && q'.loc == Placing && t == Task(Placing, Enter)
    requires q'.pc == if q.pc.i + 1 < BRANCHING_FACTOR then Fork(q.pc.i + 1) else AwaitLock(0, 0)
    ensures TaskOk(layer, n, q') && TaskOk(layer, Child(n, q.pc.i), t)
  {
  }

  /** The sleeper becomes runnable; the child that woke it returns. */
  lemma WakeSiblingOk(layer: nat, n: nat, m: nat, t: Task, p: Promise, q: Task)
    requires n > 0 && m > 0 && Parent(m) == n && q.loc == Asleep && q.pc.ReadResult?
    requires PromiseOk(layer, m, t, p, Some(q))
    requires q.pc.i == Index(m) ==> t.pc.Wake?
    ensures PromiseOk(layer, m, if q.pc.i == Index(m) then Task(Running, Return) else t, p,
                      Some(Task(Queued, q.pc)))
  {
    hide Sum;
  }

  lemma MoveTaskOk(layer: nat, n: nat, t: Task, loc: Location)
    requires TaskOk(layer, n, t) && ((t.loc == Queued && loc == Running) || (t.loc == Placing && loc == Queued))
    ensures TaskOk(layer, n, Task(loc, t.pc))
  {
  }

  lemma MoveInv(s: State, a: Action)
    requires Inv(s) && Enabled(s, a) && !a.Step?
    ensures Inv(Next(s, a))
  {
    hide PromiseOk, TaskOk, Sum, PartialSum, Forked, Passed;
    var n, t := a.n, Next(s, a);
    assert NodeOk(s, n);
    MoveTaskOk(s.layer, n, s.tasks[n], t.tasks[n].loc);
    MovedOk(s.layer, n, s.tasks[n], t.tasks[n], s.promises[n], s.tasks[n], t.tasks[n]);
    forall m | m in s.tasks && m != 1 && Parent(m) == n ensures NodeOk(t, m) {
      assert NodeOk(s, m);
      MovedOk(s.layer, m, s.tasks[m], s.tasks[m], s.promises[m], s.tasks[n], t.tasks[n]);
    }
    LocalChange(s, t, n, n);
  }

  lemma NoChildYet(s: State, n: nat)
    requires Inv(s) && n in s.tasks && s.tasks[n].pc.Enter?
    ensures forall m {:trigger Parent(m)} | m in s.tasks && m != 1 :: Parent(m) != n
  {
    hide NodeOk;
    forall m | m in s.tasks && m != 1 ensures Parent(m) != n {
      assert m == Child(Parent(m), Index(m));
    }
  }

  lemma EnterTaskOk(layer: nat, n: nat, t: Task)
    requires TaskOk(layer, n, t) && t.pc.Enter?
    ensures TaskOk(layer, n, Task(Running, if n >= layer then FulfillLock(n - layer) else Fork(0)))
  {
  }

  lemma EnterInv(s: State, n: nat)
    requires Inv(s) && Enabled(s, Step(n)) && s.tasks[n].pc.Enter?
    ensures Inv(Next(s, Step(n)))
  {
    hide PromiseOk, TaskOk, Sum, PartialSum;
    var t := Next(s, Step(n));
    assert NodeOk(s, n);
    EnterTaskOk(s.layer, n, s.tasks[n]);
    BusyOwnPromiseOk(s.layer, n, s.tasks[n], t.tasks[n], s.promises[n], ParentTask(s, n));
    NoChildYet(s, n);
    LocalChange(s, t, n, n);
  }

  lemma AwaitInv(s: State, n: nat)
    requires Inv(s) && Enabled(s, Step(n)) && Awaiting(s.tasks[n].pc)
    ensures Inv(Next(s, Step(n)))
  {
    hide TaskOk, PromiseOk, Sum, PartialSum;
    AwaitedChild(s, n);
    var q, c := s.tasks[n], Child(n, s.tasks[n].pc.i);
    var (q', p') := AwaitStep(n, q, s.promises[c]);
    var t := Next(s, Step(n));
    assert NodeOk(s, n);
    AwaitTaskOk(s.layer, n, q, s.promises[c]);
    BusyOwnPromiseOk(s.layer, n, q, q', s.promises[n], ParentTask(s, n));
    forall m | m in s.tasks && m != 1 && Parent(m) == n ensures NodeOk(t, m) {
      assert NodeOk(s, m);
      if Index(m) == q.pc.i {
        assert m == c;
        AwaitChildOk(s.layer, n, m, s.tasks[m], s.promises[m], q);
      } else {
        AwaitSiblingOk(s.layer, n, m, s.tasks[m], s.promises[m], q, s.promises[c]);
      }
    }
    LocalChange(s, t, n, c);
  }

  lemma FulfillInv(s: State, n: nat)
    requires Inv(s) && Enabled(s, Step(n)) && Fulfilling(s.tasks[n].pc)
    ensures Inv(Next(s, Step(n)))
  {
    KnownPromise(s, n);
    var (t', p') := FulfillStep(s.tasks[n], s.promises[n]);
    FulfillKeeps(s, n, t', p');
    hide Inv;
  }

  lemma FulfillForks(t: Task, p: Promise, i: nat)
    requires Fulfilling(t.pc)
    ensures var (t', _) := FulfillStep(t, p);
            && (Fulfilling(t'.pc) || Published(t'.pc))
            && (Forked(t'.pc, i) || Passed(t'.pc, i)) == (Forked(t.pc, i) || Passed(t.pc, i))
  {
  }

  lemma FulfillKeeps(s: State, n: nat, t': Task, p': Promise)
    requires Inv(s) && n in s.tasks && Fulfilling(s.tasks[n].pc)
    requires (t', p') == FulfillStep(s.tasks[n], s.promises[n])
    ensures Inv(s.(tasks := s.tasks[n := t'], promises := s.promises[n := p']))
  {
    hide TaskOk, PromiseOk, Sum, PartialSum, FulfillStep, Forked, Passed, Domain, Parent;
    assert Domain(s);
    KnownPromise(s, n);
    var t := s.(tasks := s.tasks[n := t'], promises := s.promises[n := p']);
    assert NodeOk(s, n);
    FulfillForks(s.tasks[n], s.promises[n], 0);
    FulfillOwnOk(s.layer, n, s.tasks[n], s.promises[n], ParentTask(s, n));
    forall m | m in s.tasks && m != 1 && Parent(m) == n ensures m in t.promises && NodeOk(t, m) {
      KnownPromise(s, m);
      assert NodeOk(s, m);
      PassedParentOk(s.layer, m, s.tasks[m], s.promises[m], s.tasks[n], t');
    }
    forall i: nat
      ensures (Forked(t'.pc, i) || Passed(t'.pc, i)) == (Forked(s.tasks[n].pc, i) || Passed(s.tasks[n].pc, i)) {
      FulfillForks(s.tasks[n], s.promises[n], i);
    }
    LocalChange(s, t, n, n);
  }

  lemma KnownPromise(s: State, n: nat)
    requires Domain(s) && n in s.tasks
    ensures n in s.promises && s.tasks.Keys == s.promises.Keys
    ensures n > 0 && Parent(n) != n
  {
    assert n != 1 ==> Parent(n) > 0;
  }

  lemma ReturnInv(s: State, n: nat)
    requires Inv(s) && Enabled(s, Step(n)) && s.tasks[n].pc.Return?
    ensures Inv(Next(s, Step(n)))
  {
    hide PromiseOk, Sum, PartialSum;
    var t := Next(s, Step(n));
    assert NodeOk(s, n);
    MovedOk(s.layer, n, s.tasks[n], t.tasks[n], s.promises[n], s.tasks[n], t.tasks[n]);
    forall m | m in s.tasks && m != 1 && Parent(m) == n ensures NodeOk(t, m) {
      assert NodeOk(s, m);
      PassedParentOk(s.layer, m, s.tasks[m], s.promises[m], s.tasks[n], t.tasks[n]);
    }
    LocalChange(s, t, n, n);
  }

  /** The child about to be forked does not exist, nor does anything below it. */
  lemma ForkedSoFar(s: State, n: nat)
    requires Inv(s) && n in s.tasks && s.tasks[n].pc.Fork?
    ensures var i := s.tasks[n].pc.i; var c := Child(n, i);
            && i < BRANCHING_FACTOR && Parent(c) == n && Index(c) == i
            && c !in s.tasks && c != n && c != 1
            && (forall m {:trigger Parent(m)} | m in s.tasks && m != 1 :: Parent(m) != c)
            && (forall m {:trigger Index(m)} | m in s.tasks && m != 1 && Parent(m) == n :: Index(m) != i)
  {
    hide PromiseOk;
    assert NodeOk(s, n);
    ChildIndex(n, s.tasks[n].pc.i);
    forall m | m in s.tasks && m != 1 && Parent(m) == n ensures Index(m) != s.tasks[n].pc.i {
      assert m == Child(n, Index(m));
    }
  }

  lemma ForkDomain(s: State, n: nat)
    requires Inv(s) && Enabled(s, Step(n)) && s.tasks[n].pc.Fork?
    ensures Domain(Next(s, Step(n)))
  {
    hide PromiseOk;
    var t := Next(s, Step(n));
    assert NodeOk(s, n);
    ForkedSoFar(s, n);
    forall m, j: nat | m in t.tasks && j < BRANCHING_FACTOR && m < t.layer
      ensures Child(m, j) in t.tasks <==> Forked(t.tasks[m].pc, j) || Passed(t.tasks[m].pc, j) {
      ChildIndex(m, j);
    }
  }

  lemma ForkInv(s: State, n: nat)
    requires Inv(s) && Enabled(s, Step(n)) && s.tasks[n].pc.Fork?
    ensures Inv(Next(s, Step(n)))
  {
    ForkedSoFar(s, n);
    ForkDomain(s, n);
    hide PromiseOk, TaskOk, Domain, Sum, PartialSum, Passed, Parent, Index;
    var c := Child(n, s.tasks[n].pc.i);
    var t := Next(s, Step(n));
    assert NodeOk(s, n);
    ForkTaskOk(s.layer, n, s.tasks[n], t.tasks[n], t.tasks[c]);
    BusyOwnPromiseOk(s.layer, n, s.tasks[n], t.tasks[n], s.promises[n], ParentTask(s, n));
    ForkChildOk(s.layer, n, c, t.tasks[c], t.promises[c], s.tasks[n], t.tasks[n]);
    forall m | m in s.tasks && m != n ensures NodeOk(t, m) {
      assert NodeOk(s, m);
      ForkOtherOk(s, t, n, m, c);
    }
  }

  lemma ForkOtherOk(s: State, t: State, n: nat, m: nat, c: nat)
    requires n in s.tasks && m in s.tasks && m in s.promises && NodeOk(s, m) && m != n && m != c && n > 0 && c != n
    requires m != 1 ==> Parent(m) != c && Parent(m) in s.tasks
    requires t.layer == s.layer && c in t.tasks && n in t.tasks && t.tasks == s.tasks[n := t.tasks[n]][c := t.tasks[c]]
    requires c in t.promises && t.promises == s.promises[c := t.promises[c]]
    requires s.tasks[n].pc.Fork?
    requires t.tasks[n].pc ==
      if s.tasks[n].pc.i + 1 < BRANCHING_FACTOR then Fork(s.tasks[n].pc.i + 1) else AwaitLock(0, 0)
    requires m != 1 && Parent(m) == n ==> Index(m) != s.tasks[n].pc.i
    ensures NodeOk(t, m)
  {
    hide PromiseOk, TaskOk, Sum, PartialSum;
    if m != 1 && Parent(m) == n {
      ForkChildOk(s.layer, n, m, s.tasks[m], s.promises[m], s.tasks[n], t.tasks[n]);
    }
  }

  /** A task about to wake its parent finds it asleep, on this very promise. */
  lemma WakerSleeps(s: State, n: nat)
    requires Inv(s) && n in s.tasks && s.tasks[n].pc.Wake?
    ensures n != 1 && Parent(n) in s.tasks && Parent(n) != n && Parent(n) > 0
    ensures Parent(n) != 1 ==> Parent(Parent(n)) != n && Parent(Parent(n)) != Parent(n)
    ensures s.tasks[n].pc.target == Parent(n) && n == Child(Parent(n), Index(n))
    ensures SleepsOn(s.tasks[Parent(n)], Index(n))
  {
    assert NodeOk(s, n);
  }

  lemma WakeInv(s: State, n: nat)
    requires Inv(s) && Enabled(s, Step(n)) && s.tasks[n].pc.Wake?
    ensures Inv(Next(s, Step(n)))
  {
    WakerSleeps(s, n);
    WakeDomain(s, n);
    WakePairOk(s, n);
    hide NodeOk, Domain, Parent, Index, SleepsOn, TaskOk, PromiseOk, Sum, PartialSum;
    forall m | m in s.tasks && m != n && m != Parent(n) ensures NodeOk(Next(s, Step(n)), m) {
      assert NodeOk(s, m);
      WakeOtherOk(s, n, m);
    }
  }

  lemma WakePairOk(s: State, n: nat)
    requires Inv(s) && Enabled(s, Step(n)) && s.tasks[n].pc.Wake?
    ensures var t := Next(s, Step(n));
            && Parent(n) in t.tasks && n in t.promises && Parent(n) in t.promises
            && NodeOk(t, n) && NodeOk(t, Parent(n))
  {
    WakerSleeps(s, n);
    hide PromiseOk, TaskOk, Index;
    var q := Parent(n);
    var t := Next(s, Step(n));
    assert NodeOk(s, n) && NodeOk(s, q);
    WakeTasksOk(s.layer, n, s.tasks[n], q, s.tasks[q]);
    MovedOk(s.layer, q, s.tasks[q], t.tasks[q], s.promises[q], t.tasks[q], t.tasks[q]);
    WakeSiblingOk(s.layer, q, n, s.tasks[n], s.promises[n], s.tasks[q]);
  }

  lemma WakeOtherOk(s: State, n: nat, m: nat)
    requires n in s.tasks && s.tasks[n].pc == Wake(Parent(n)) && Parent(n) in s.tasks
    requires SleepsOn(s.tasks[Parent(n)], Index(n)) && Parent(n) > 0
    requires m in s.tasks && m in s.promises && NodeOk(s, m) && m != n && m != Parent(n)
    ensures var woken := s.tasks[Parent(n) := Task(Queued, s.tasks[Parent(n)].pc)];
            NodeOk(s.(tasks := woken[n := Task(Running, Return)]), m)
  {
    hide PromiseOk, TaskOk, Sum, PartialSum;
    var q := Parent(n);
    if m != 1 && Parent(m) == q {
      WakeSiblingOk(s.layer, q, m, s.tasks[m], s.promises[m], s.tasks[q]);
    } else if m != 1 && Parent(m) == n {
      PassedParentOk(s.layer, m, s.tasks[m], s.promises[m], s.tasks[n], Task(Running, Return));
    }
  }

  lemma WakeTasksOk(layer: nat, n: nat, t: Task, q: nat, parent: Task)
    requires TaskOk(layer, n, t) && TaskOk(layer, q, parent) && parent.pc.ReadResult?
    ensures TaskOk(layer, n, Task(Running, Return)) && TaskOk(layer, q, Task(Queued, parent.pc))
  {
  }

  lemma WakeDomain(s: State, n: nat)
    requires Inv(s) && Enabled(s, Step(n)) && s.tasks[n].pc.Wake?
    ensures Domain(Next(s, Step(n)))
  {
    WakerSleeps(s, n);
    hide PromiseOk, TaskOk, Parent, Child;
  }

  lemma NextInv(s: State, a: Action)
    requires Inv(s) && Enabled(s, a)
    ensures Inv(Next(s, a))
  {
    hide Inv;
    var pc := s.tasks[a.n].pc;
    if !a.Step? {
      MoveInv(s, a);
    } else if pc.Enter? {
      EnterInv(s, a.n);
    } else if pc.Fork? {
      ForkInv(s, a.n);
    } else if Awaiting(pc) {
      AwaitInv(s, a.n);
    } else if Fulfilling(pc) {
      FulfillInv(s, a.n);
    } else if pc.Wake? {
      WakeInv(s, a.n);
    } else {
      ReturnInv(s, a.n);
    }
  }

  // ----- all runs -----

  ghost function Run(s: State, actions: seq<Action>): (t: State)
    requires Inv(s) && Runnable(s, actions)
    ensures Inv(t) && t.layer == s.layer
    decreases |actions|
  {
    if actions == [] then s
    else
      NextInv(s, actions[0]);
      Run(Next(s, actions[0]), actions[1..])
  }

  ghost predicate Runnable(s: State, actions: seq<Action>)
    requires Inv(s)
    decreases |actions|
  {
    actions == [] ||
    (Enabled(s, actions[0]) && (NextInv(s, actions[0]); Runnable(Next(s, actions[0]), actions[1..])))
  }

  /** In a queue, or in the hands of a worker. */
  predicate Runs(t: Task) {
    t.loc == Queued || t.loc == Placing || t.loc == Running
  }

  /** Below every sleeper there is a task that is queued or held by a worker. */
  lemma {:induction false} SleeperWaitsForRunning(s: State, n: nat) returns (m: nat)
    requires Inv(s) && n in s.tasks && s.tasks[n].loc == Asleep
    ensures m in s.tasks && Runs(s.tasks[m])
    decreases s.layer - n
  {
    hide Sum, PartialSum;
    assert NodeOk(s, n);
    AwaitedChild(s, n);
    m := Child(n, s.tasks[n].pc.i);
    if s.tasks[m].loc == Asleep {
      assert NodeOk(s, m);
      m := SleeperWaitsForRunning(s, m);
    }
  }

  /** No deadlock and no livelock on the locks: while any task is unfinished, some task can take
      a step that changes the state. */
  lemma SomeoneCanMove(s: State, n: nat) returns (a: Action)
    requires Inv(s) && n in s.tasks && s.tasks[n].loc != Done
    ensures Enabled(s, a) && Next(s, a) != s
  {
    var m := n;
    if s.tasks[n].loc == Asleep {
      m := SleeperWaitsForRunning(s, n);
    }
    a := RunningCanMove(s, m);
  }

  lemma RunningCanMove(s: State, m: nat) returns (a: Action)
    requires Inv(s) && m in s.tasks && Runs(s.tasks[m])
    ensures Enabled(s, a) && Next(s, a) != s
  {
    hide Sum, PartialSum;
    var t := s.tasks[m];
    a := if t.loc == Queued then Take(m) else if t.loc == Placing then Enqueue(m) else Step(m);
    if t.loc == Running {
      var holder := LockHolder(s, m);
      a := Step(holder);
      StepChanges(s, holder);
    }
  }

  /** The task itself, unless it spins on a lock: then the one inside that critical section. */
  lemma LockHolder(s: State, m: nat) returns (holder: nat)
    requires Inv(s) && m in s.tasks && s.tasks[m].loc == Running
    ensures holder in s.tasks && s.tasks[holder].loc == Running && !Spins(s, holder)
  {
    hide Sum, PartialSum;
    assert NodeOk(s, m);
    holder := m;
    if Spins(s, m) {
      if Awaiting(s.tasks[m].pc) {
        AwaitedChild(s, m);
        holder := Child(m, s.tasks[m].pc.i);
      } else {
        holder := Parent(m);
        assert ParentTask(s, m).Some?;
        assert NodeOk(s, holder);
      }
    }
  }

  predicate Spins(s: State, n: nat)
    requires n in s.tasks
  {
    var pc := s.tasks[n].pc;
    || (pc.FulfillLock? && n in s.promises && s.promises[n].locked)
    || ((pc.AwaitLock? || pc.SleepLock?) && Child(n, pc.i) in s.promises && s.promises[Child(n, pc.i)].locked)
  }

  lemma StepChanges(s: State, n: nat)
    requires Inv(s) && n in s.tasks && s.tasks[n].loc == Running && !Spins(s, n)
    ensures Next(s, Step(n)).tasks[n] != s.tasks[n]
  {
    hide Sum, PartialSum;
    assert NodeOk(s, n);
    if Awaiting(s.tasks[n].pc) {
      AwaitedChild(s, n);
    }
  }

  // ----- the result -----

  function Pow10(k: nat): (p: nat)
    ensures p > 0
  {
    if k == 0 then 1 else 10 * Pow10(k - 1)
  }

  /** The leaves below a node `k` layers above the last are 10^k consecutive ones.  Twice the sum,
      to stay clear of division. */
  lemma {:induction false} SumBelow(d: nat, k: nat, n: nat)
    requires k <= d && Pow10(d - k) <= n < 2 * Pow10(d - k)
    ensures 2 * Sum(Pow10(d), n) == Twice(Pow10(k), n * Pow10(k) - Pow10(d))
    decreases k, BRANCHING_FACTOR + 1
  {
    if k == 0 {
      assert Pow10(k) == 1;
    } else {
      Pow10Grows(d - k, d);
      PartialSumBelow(d, k, n, BRANCHING_FACTOR);
    }
  }

  /** Twice the sum of `count` consecutive integers from `first`. */
  function Twice(count: int, first: int): int {
    count * (2 * first + count - 1)
  }

  lemma Pow10Grows(j: nat, d: nat)
    requires j < d
    ensures 2 * Pow10(j) <= Pow10(d)
  {
    if j + 1 < d {
      Pow10Grows(j, d - 1);
    }
  }

  lemma {:induction false} PartialSumBelow(d: nat, k: nat, n: nat, i: nat)
    requires 0 < k <= d && Pow10(d - k) <= n < 2 * Pow10(d - k) && 0 < n < Pow10(d) && i <= BRANCHING_FACTOR
    ensures var p := Pow10(k - 1);
            2 * PartialSum(Pow10(d), n, i) == Twice(i * p, n * (10 * p) - Pow10(d))
    decreases k, i
  {
    hide Twice;
    var p, layer := Pow10(k - 1), Pow10(d);
    if i == 0 {
      NothingTwice(n * (10 * p) - layer);
    } else {
      assert Pow10(d - (k - 1)) == 10 * Pow10(d - k);
      hide Pow10;
      PartialSumBelow(d, k, n, i - 1);
      SumBelow(d, k - 1, Child(n, i - 1));
      ChildLeaves(n, i - 1, p);
      Consecutive((i - 1) * p, p, n * (10 * p) - layer);
    }
  }

  lemma NothingTwice(first: int)
    ensures Twice(0, first) == 0
  {
  }

  lemma ChildLeaves(n: nat, i: nat, p: nat)
    ensures Child(n, i) * p == n * (10 * p) + i * p
    ensures i * p + p == (i + 1) * p
  {
  }

  lemma Consecutive(a: int, b: int, first: int)
    ensures Twice(a + b, first) == Twice(a, first) + Twice(b, first + a)
  {
  }

  lemma RootSum(depth: nat)
    requires depth > 0
    ensures var l := Pow10(depth - 1); 2 * Sum(l, 1) == l * (l - 1)
  {
    var l := Pow10(depth - 1);
    assert Pow10(depth - 1 - (depth - 1)) == 1;
    SumBelow(depth - 1, depth - 1, 1);
  }

  /** Whenever nothing is queued or held by a worker, the whole tree has finished and the promise
      of the root holds L(L-1)/2. */
  lemma QuietMeansDone(depth: nat, actions: seq<Action>)
    requires depth > 0 && Runnable(Init(Pow10(depth - 1)), actions)
    ensures var l := Pow10(depth - 1);
            var s := Run(Init(l), actions);
            (forall n | n in s.tasks :: !Runs(s.tasks[n])) ==>
              && (forall n | n in s.tasks :: s.tasks[n].loc == Done)
              && 1 in s.promises && s.promises[1] == Promise(false, Fulfilled, Some(l * (l - 1) / 2))
  {
    hide Sum, PartialSum;
    var l := Pow10(depth - 1);
    var s := Run(Init(l), actions);
    RootSum(depth);
    if forall n | n in s.tasks :: !Runs(s.tasks[n]) {
      forall n | n in s.tasks ensures s.tasks[n].loc == Done {
        if s.tasks[n].loc == Asleep {
          var m := SleeperWaitsForRunning(s, n);
        }
      }
      assert NodeOk(s, 1);
    }
  }

  // ----- bounds on resumptions and on the length of runs -----

  /** How far a task has come: later program points count more, and at one point being asleep
      comes before being enqueued, being queued and running. */
  function Progress(t: Task): nat {
    5 * Position(t.pc) + match t.loc
                         case Asleep => 0
                         case Placing => 1
                         case Queued => 2
                         case Running => 3
                         case Done => 4
  }

  function Position(pc: Pc): nat {
    match pc
    case Enter => 0
    case Fork(i) => 1 + i
    case AwaitLock(i, _) => 11 + 8 * i
    case AwaitRead(i, _) => 12 + 8 * i
    case AwaitUnlock(i, _, _) => 13 + 8 * i
    case SleepLock(i, _) => 14 + 8 * i
    case SleepRead(i, _) => 15 + 8 * i
    case SleepStore(i, _) => 16 + 8 * i
    case SleepUnlock(i, _, _) => 17 + 8 * i
    case ReadResult(i, _) => 18 + 8 * i
    case FulfillLock(_) => 91
    case FulfillRead(_) => 92
    case FulfillState(_, _) => 93
    case FulfillResult(_, _) => 94
    case FulfillUnlock(_, _) => 95
    case Wake(_) => 96
    case Return => 97
  }

  const LAST_PROGRESS: nat := 5 * 97 + 4

  /** How often a task can still be taken from a queue. */
  function Resumptions(t: Task): nat
    requires t.pc.Fork? || Awaiting(t.pc) ==> t.pc.i < BRANCHING_FACTOR
  {
    (if t.loc == Running || t.loc == Done then 0 else 1) +
    if t.pc.Enter? then 20
    else if t.pc.Fork? then 20 - t.pc.i
    else if t.pc.ReadResult? then 9 - t.pc.i
    else if Awaiting(t.pc) then 10 - t.pc.i
    else 0
  }

  ghost function ProgressAt(s: State, n: nat): nat {
    if n in s.tasks then Progress(s.tasks[n]) else 0
  }

  ghost function ResumptionsAt(s: State, n: nat): nat
    requires Inv(s)
  {
    if n in s.tasks then
      assert NodeOk(s, n);
      Resumptions(s.tasks[n])
    else 21
  }

  lemma AwaitForward(layer: nat, n: nat, q: Task, p: Promise)
    requires Awaiting(q.pc) && q.loc == Running && q.pc.i < BRANCHING_FACTOR
    requires q.pc.ReadResult? ==> p.result.Some?
    ensures var (q', p') := AwaitStep(n, q, p);
            && ((q', p') == (q, p) || Progress(q) < Progress(q') <= LAST_PROGRESS)
            && (Awaiting(q'.pc) ==> q'.pc.i < BRANCHING_FACTOR)
            && !q'.pc.Fork? && Resumptions(q') <= Resumptions(q)
  {
  }

  lemma FulfillForward(t: Task, p: Promise)
    requires Fulfilling(t.pc) && t.loc == Running
    ensures var (t', p') := FulfillStep(t, p);
            && ((t', p') == (t, p) || Progress(t) < Progress(t') <= LAST_PROGRESS)
            && !Awaiting(t'.pc) && !t'.pc.Fork? && Resumptions(t') <= Resumptions(t)
  {
  }

  /** A step that changes anything moves its task forward, and no step moves a task back. */
  lemma StepMovesForward(s: State, a: Action)
    requires Inv(s) && Enabled(s, a) && a.Step? && Inv(Next(s, a))
    ensures Next(s, a) == s || ProgressAt(s, a.n) < ProgressAt(Next(s, a), a.n)
    ensures ResumptionsAt(Next(s, a), a.n) <= ResumptionsAt(s, a.n)
  {
    hide PromiseOk, Sum, PartialSum, AwaitStep, FulfillStep;
    var n, t := a.n, s.tasks[a.n];
    assert NodeOk(s, n);
    if Awaiting(t.pc) {
      AwaitedChild(s, n);
      AwaitForward(s.layer, n, t, s.promises[Child(n, t.pc.i)]);
    } else if Fulfilling(t.pc) {
      FulfillForward(t, s.promises[n]);
    } else if t.pc.Wake? {
      WakerSleeps(s, n);
    } else if t.pc.Fork? {
      ForkedSoFar(s, n);
    }
  }

  lemma QueueingMovesForward(s: State, a: Action)
    requires Inv(s) && Enabled(s, a) && !a.Step? && Inv(Next(s, a))
    ensures ProgressAt(s, a.n) < ProgressAt(Next(s, a), a.n)
    ensures ResumptionsAt(Next(s, a), a.n) <= ResumptionsAt(s, a.n) - (if a.Take? then 1 else 0)
  {
    hide PromiseOk, Sum, PartialSum;
    assert NodeOk(s, a.n);
  }

  lemma OthersNeverMoveBack(s: State, a: Action, m: nat)
    requires Inv(s) && Enabled(s, a) && Inv(Next(s, a)) && m != a.n
    ensures ProgressAt(s, m) <= ProgressAt(Next(s, a), m)
    ensures ResumptionsAt(Next(s, a), m) <= ResumptionsAt(s, m)
  {
    hide Sum, PartialSum, AwaitStep, FulfillStep;
    assert NodeOk(s, a.n);
    if a.Step? && s.tasks[a.n].pc.Wake? {
      WakerSleeps(s, a.n);
    } else if a.Step? && s.tasks[a.n].pc.Fork? {
      ForkedSoFar(s, a.n);
    }
  }

  lemma ProgressIsBounded(s: State, n: nat)
    requires Inv(s)
    ensures ProgressAt(s, n) <= LAST_PROGRESS
  {
    hide PromiseOk, Sum, PartialSum;
    if n in s.tasks {
      assert NodeOk(s, n);
    }
  }

  /** How many actions of a run move task `n`, and how many take it from a queue. */
  ghost function Moves(s: State, actions: seq<Action>, n: nat): nat
    requires Inv(s) && Runnable(s, actions)
    decreases |actions|
  {
    if actions == [] then 0
    else
      NextInv(s, actions[0]);
      var t := Next(s, actions[0]);
      (if actions[0].n == n && t != s then 1 else 0) + Moves(t, actions[1..], n)
  }

  function Takes(actions: seq<Action>, n: nat): nat {
    if actions == [] then 0 else (if actions[0] == Take(n) then 1 else 0) + Takes(actions[1..], n)
  }

  lemma {:induction false} WorkIsBounded(s: State, actions: seq<Action>, n: nat)
    requires Inv(s) && Runnable(s, actions)
    ensures ProgressAt(s, n) + Moves(s, actions, n) <= LAST_PROGRESS
    ensures Takes(actions, n) <= ResumptionsAt(s, n)
    decreases |actions|
  {
    hide ProgressAt, ResumptionsAt, Next;
    ProgressIsBounded(s, n);
    if actions == [] {
    } else {
      NextInv(s, actions[0]);
      if actions[0].n == n && actions[0].Step? {
        StepMovesForward(s, actions[0]);
      } else if actions[0].n == n {
        QueueingMovesForward(s, actions[0]);
      } else {
        OthersNeverMoveBack(s, actions[0], n);
      }
      WorkIsBounded(Next(s, actions[0]), actions[1..], n);
    }
  }

  /** However the workers schedule it, no task is resumed more than 21 times (once to start, once
      after each fork, once after each sleep) and apart from spinning on locks no task takes more
      than a constant number of steps. */
  lemma EveryTaskIsBounded(layer: nat, actions: seq<Action>, n: nat)
    requires layer > 0 && Runnable(Init(layer), actions)
    ensures Takes(actions, n) <= 21 && Moves(Init(layer), actions, n) <= LAST_PROGRESS
  {
    WorkIsBounded(Init(layer), actions, n);
  }

  /** The progress of all tasks with numbers below `k`. */
  ghost function TotalProgress(s: State, k: nat): nat {
    if k == 0 then 0 else TotalProgress(s, k - 1) + ProgressAt(s, k - 1)
  }

  lemma {:induction false} TotalGrows(s: State, t: State, n: nat, k: nat)
    requires forall m: nat :: ProgressAt(s, m) <= ProgressAt(t, m)
    ensures TotalProgress(s, k) <= TotalProgress(t, k)
    ensures n < k && ProgressAt(s, n) < ProgressAt(t, n) ==> TotalProgress(s, k) < TotalProgress(t, k)
  {
    hide ProgressAt;
    if k == 0 {
    } else {
      TotalGrows(s, t, n, k - 1);
    }
  }

  lemma {:induction false} TotalIsBounded(s: State, k: nat)
    requires Inv(s)
    ensures TotalProgress(s, k) <= k * LAST_PROGRESS
  {
    hide ProgressAt, Inv;
    if k == 0 {
    } else {
      ProgressIsBounded(s, k - 1);
      TotalIsBounded(s, k - 1);
    }
  }

  /** The numbers of all tasks there can be are below ten times the first number of the last layer. */
  lemma NumbersAreBounded(s: State, n: nat)
    requires Inv(s) && n in s.tasks
    ensures n < BRANCHING_FACTOR * s.layer
  {
    hide NodeOk;
    if n != 1 {
      assert Parent(n) < s.layer;
    }
  }

  /** How many actions of a run change anything. */
  ghost function AllMoves(s: State, actions: seq<Action>): nat
    requires Inv(s) && Runnable(s, actions)
    decreases |actions|
  {
    if actions == [] then 0
    else
      NextInv(s, actions[0]);
      var t := Next(s, actions[0]);
      (if t != s then 1 else 0) + AllMoves(t, actions[1..])
  }

  lemma MoveCounts(s: State, a: Action)
    requires Inv(s) && Enabled(s, a) && Inv(Next(s, a))
    ensures forall m: nat :: ProgressAt(s, m) <= ProgressAt(Next(s, a), m)
    ensures Next(s, a) != s ==> ProgressAt(s, a.n) < ProgressAt(Next(s, a), a.n)
  {
    hide ProgressAt, Next, Inv, ResumptionsAt;
    if a.Step? { StepMovesForward(s, a); } else { QueueingMovesForward(s, a); }
    forall m: nat | m != a.n ensures ProgressAt(s, m) <= ProgressAt(Next(s, a), m) {
      OthersNeverMoveBack(s, a, m);
    }
  }

  lemma {:induction false} MovesAreBounded(s: State, actions: seq<Action>)
    requires Inv(s) && Runnable(s, actions)
    ensures TotalProgress(s, BRANCHING_FACTOR * s.layer) + AllMoves(s, actions)
         <= BRANCHING_FACTOR * s.layer * LAST_PROGRESS
    decreases |actions|
  {
    hide ProgressAt, Next, TotalProgress, Domain, NodeOk;
    var k := BRANCHING_FACTOR * s.layer;
    if actions == [] {
      TotalIsBounded(s, k);
    } else {
      var a := actions[0];
      NextInv(s, a);
      LayerStays(s, a);
      MoveCounts(s, a);
      NumbersAreBounded(s, a.n);
      TotalGrows(s, Next(s, a), a.n, k);
      MovesAreBounded(Next(s, a), actions[1..]);
    }
  }

  lemma LayerStays(s: State, a: Action)
    requires Inv(s) && Enabled(s, a)
    ensures Next(s, a).layer == s.layer
  {
    hide Domain, NodeOk, AwaitStep, FulfillStep;
  }

  /** Every run as a whole: apart from spinning on locks, the tasks together make a bounded number of steps. */
  lemma EveryRunIsBounded(layer: nat, actions: seq<Action>)
    requires layer > 0 && Runnable(Init(layer), actions)
    ensures AllMoves(Init(layer), actions) <= BRANCHING_FACTOR * layer * LAST_PROGRESS
  {
    MovesAreBounded(Init(layer), actions);
  }

  /** Everything a child does in the memory of its parent's frame, reading its arguments and
      using its promise up to the last unlock, happens before the parent reads that child's
      result, let alone returns; and a result is read only after it was written. */
  lemma PromiseOutlivesItsUse(s: State, n: nat)
    requires Inv(s) && Enabled(s, Step(n))
    ensures n != 1 && (s.tasks[n].pc.Enter? || Fulfilling(s.tasks[n].pc)) ==>
              var q := s.tasks[Parent(n)];
              Forked(q.pc, Index(n)) && !Passed(q.pc, Index(n)) && q.loc != Done
    ensures Published(s.tasks[n].pc) ==> Next(s, Step(n)).promises == s.promises
    ensures s.tasks[n].pc.ReadResult? ==>
              var c := Child(n, s.tasks[n].pc.i);
              && c in s.tasks && Published(s.tasks[c].pc)
              && s.promises[c].result == Some(Sum(s.layer, c))
  {
    hide Sum, PartialSum;
    assert NodeOk(s, n);
    if n != 1 {
      assert Parent(n) in s.tasks && NodeOk(s, Parent(n));
    }
    if Awaiting(s.tasks[n].pc) {
      AwaitedChild(s, n);
    }
  }

  // ----- what an undisturbed await does -----

  /** `k` steps of task `n` on the promise it awaits, with nobody else touching that promise. */
  function AwaitSteps(n: nat, t: Task, p: Promise, k: nat): (Task, Promise)
    decreases k
  {
    if k == 0 || !Awaiting(t.pc) || t.loc != Running || (t.pc.ReadResult? && p.result.None?) then (t, p)
    else var (t', p') := AwaitStep(n, t, p); AwaitSteps(n, t', p', k - 1)
  }

  /** An await that finds its promise fulfilled adds the result at once, without giving up its worker; one that
      finds it empty leaves its waker there and goes to sleep. */
  lemma AwaitAlone(n: nat, i: nat, sum: int, p: Promise)
    requires !p.locked
    ensures p.state == Fulfilled && p.result.Some? ==>
      var sum' := sum + p.result.value;
      AwaitSteps(n, Task(Running, AwaitLock(i, sum)), p, 4)
      == (Task(Running, if i + 1 < BRANCHING_FACTOR then AwaitLock(i + 1, sum') else FulfillLock(sum')), p)
    ensures p.state == Empty ==>
      AwaitSteps(n, Task(Running, AwaitLock(i, sum)), p, 7)
      == (Task(Asleep, ReadResult(i, sum)), p.(state := Waker(n)))
  {
    var q := p.(locked := true);
    var t3 := AwaitSteps(n, Task(Running, AwaitLock(i, sum)), p, 3);
    assert t3 == AwaitSteps(n, Task(Running, AwaitRead(i, sum)), q, 2);
    assert t3 == AwaitSteps(n, Task(Running, AwaitUnlock(i, sum, p.state == Fulfilled)), q, 1);
  }
}
