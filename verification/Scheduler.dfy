/** The work-stealing scheduler of `scheff.c`: any number of workers, each with a locked FIFO and
    an owner-only priority slot, one atomic operation per step.  Queue operations are single
    steps here; module TlQueue proves that the locked implementation makes them so.

    What tasks do is unconstrained, except for what the scheduler asks of the wakeup managers
    its clients supply: a manager keeps the waker exactly when it returns true, and a kept waker
    is woken at most once.
  */
module Scheduler {
  import opened Options
  import opened Sequences

  type Task = nat

  /** Where a worker is in scheff_worker_thread, with the tasks it holds in local variables. */
  datatype Pc =
    | PopOwn                                        // QUEUE(pop)
    | Steal(offset: nat)                            // QUEUE(steal) from the offset-th neighbour
    | LoadRemaining
    | Exited
    | CheckTask(task: Task)                         // state and poll condition
    | Running(task: Task)                           // inside seff_resume
    | Push(task: Task)                              // ENQUEUE(current_task), then loop
    | AddRemaining(task: Task)                      // fork
    | CreateTask(task: Task)
    | PushForker(task: Task, created: Task)
    | SwapSlot(created: Task)                       // ENQUEUE_PRIORITY
    | WakeNext(task: Task, wakers: seq<Task>, resume: bool)
    | WakeDisplaced(task: Task, displaced: Task, wakers: seq<Task>, resume: bool)
    | FreeTask(task: Task)                          // FINALIZE
    | SubtractRemaining

  datatype Worker = Worker(slot: Option<Task>, queue: seq<Task>, pc: Pc)

  datatype State = State(
    workers: seq<Worker>,
    asleep: set<Task>,        // wakers kept by wakeup managers
    live: set<Task>,          // task_t objects allocated and not freed
    finished: set<Task>,      // coroutines whose state is FINISHED
    polling: set<Task>,       // tasks with a poll condition
    remaining: int,           // remaining_tasks
    fatal: bool)              // a finished coroutine was about to be resumed

  /** What a resumed task hands back to its worker. */
  datatype Request = Return | Fork | Poll | Sleep(keeps: bool) | Wake(wakers: seq<Task>, resume: bool)

  datatype Action =
    | Step(w: nat)
    | Check(w: nat, ready: bool)         // what the poll condition answers
    | Handle(w: nat, request: Request)
    | Allocate(w: nat, created: Task)    // the address malloc returns

  function SetOf(tasks: seq<Task>): set<Task> {
    set t | t in tasks
  }

  /** scheff_init and one scheff_schedule per task: everything is queued at the first worker. */
  function Init(workers: nat, tasks: seq<Task>): State
    requires workers > 0
  {
    State(seq(workers, i => Worker(None, if i == 0 then tasks else [], PopOwn)),
          {}, SetOf(tasks), {}, {}, |tasks|, false)
  }

  ghost predicate Enabled(s: State, a: Action) {
    && a.w < |s.workers|
    && var pc := s.workers[a.w].pc;
       match a
       case Step(_) => !pc.Exited? && !pc.CheckTask? && !pc.Running? && !pc.CreateTask?
       case Check(_, _) => pc.CheckTask?
       case Handle(_, Wake(wakers, _)) =>
         pc.Running? && Distinct(wakers) && forall t | t in wakers :: t in s.asleep
       case Handle(_, _) => pc.Running?
       case Allocate(_, created) => pc.CreateTask? && created !in s.live
  }

  function WithPc(s: State, w: nat, pc: Pc): State
    requires w < |s.workers|
  {
    s.(workers := s.workers[w := s.workers[w].(pc := pc)])
  }

  function Next(s: State, a: Action): State
    requires Enabled(s, a)
  {
    match a
    case Step(w) => NextStep(s, w)
    case Check(w, ready) =>
      var task := s.workers[w].pc.task;
      if task in s.finished then s.(fatal := true)
      else if task in s.polling && !ready then WithPc(s, w, Push(task))
      else WithPc(s.(polling := s.polling - {task}), w, Running(task))
    case Handle(w, request) => NextRequest(s, w, request)
    case Allocate(w, created) =>
      WithPc(s.(live := s.live + {created}, finished := s.finished - {created},
                polling := s.polling - {created}),
             w, PushForker(s.workers[w].pc.task, created))
  }

  function NextRequest(s: State, w: nat, request: Request): State
    requires w < |s.workers| && s.workers[w].pc.Running?
  {
    var task := s.workers[w].pc.task;
    match request
    case Return => WithPc(s.(finished := s.finished + {task}), w, FreeTask(task))
    case Fork => WithPc(s, w, AddRemaining(task))
    case Poll => WithPc(s.(polling := s.polling + {task}), w, Push(task))
    case Sleep(keeps) =>
      if keeps then WithPc(s.(asleep := s.asleep + {task}), w, PopOwn) else WithPc(s, w, Push(task))
    case Wake(wakers, resume) =>
      WithPc(s.(asleep := s.asleep - SetOf(wakers)), w, WakeNext(task, wakers, resume))
  }

  function StealFrom(s: State, w: nat, v: nat): State
    requires w < |s.workers| && v < |s.workers| && s.workers[v].queue != []
  {
    var victim := s.workers[v];
    WithPc(s.(workers := s.workers[v := victim.(queue := victim.queue[1..])]),
           w, CheckTask(victim.queue[0]))
  }

  function NextStep(s: State, w: nat): State
    requires w < |s.workers|
  {
    var self := s.workers[w];
    match self.pc
    case PopOwn =>
      if self.slot.Some? then
        s.(workers := s.workers[w := self.(slot := None, pc := CheckTask(self.slot.value))])
      else if self.queue != [] then
        s.(workers := s.workers[w := self.(queue := self.queue[1..], pc := CheckTask(self.queue[0]))])
      else WithPc(s, w, Steal(1))
    case Steal(offset) =>
      if offset < |s.workers| then
        var v := (w + offset) % |s.workers|;
        if s.workers[v].queue != [] then StealFrom(s, w, v) else WithPc(s, w, Steal(offset + 1))
      else WithPc(s, w, LoadRemaining)
    case LoadRemaining => WithPc(s, w, if s.remaining == 0 then Exited else PopOwn)
    case Push(task) =>
      s.(workers := s.workers[w := self.(queue := self.queue + [task], pc := PopOwn)])
    case AddRemaining(task) => WithPc(s.(remaining := s.remaining + 1), w, CreateTask(task))
    case PushForker(task, created) =>
      s.(workers := s.workers[w := self.(queue := self.queue + [task], pc := SwapSlot(created))])
    case SwapSlot(created) =>
      var pc := match self.slot case Some(d) => Push(d) case None => PopOwn;
      s.(workers := s.workers[w := self.(slot := Some(created), pc := pc)])
    case WakeNext(task, wakers, resume) =>
      if wakers == [] then WithPc(s, w, if resume then Push(task) else FreeTask(task))
      else
        var pc := match self.slot
                  case Some(d) => WakeDisplaced(task, d, wakers[1..], resume)
                  case None => WakeNext(task, wakers[1..], resume);
        s.(workers := s.workers[w := self.(slot := Some(wakers[0]), pc := pc)])
    case WakeDisplaced(task, displaced, wakers, resume) =>
      s.(workers := s.workers[w := self.(queue := self.queue + [displaced],
                                         pc := WakeNext(task, wakers, resume))])
    case FreeTask(task) =>
      WithPc(s.(live := s.live - {task}, finished := s.finished - {task}), w, SubtractRemaining)
    case SubtractRemaining => WithPc(s.(remaining := s.remaining - 1), w, PopOwn)
    case _ => s
  }

  // ----- where every task is -----

  ghost function Locals(pc: Pc, x: Task): nat {
    match pc
    case CheckTask(t) => One(t == x)
    case Running(t) => One(t == x)
    case Push(t) => One(t == x)
    case AddRemaining(t) => One(t == x)
    case CreateTask(t) => One(t == x)
    case PushForker(t, created) => One(t == x) + One(created == x)
    case SwapSlot(created) => One(created == x)
    case WakeNext(t, wakers, _) => One(t == x) + Among(wakers, x)
    case WakeDisplaced(t, d, wakers, _) => One(t == x) + One(d == x) + Among(wakers, x)
    case FreeTask(t) => One(t == x)
    case _ => 0
  }

  /** How often a worker holds `x`: in its priority slot, its queue or its local variables. */
  ghost function At(worker: Worker, x: Task): nat {
    One(worker.slot == Some(x)) + Among(worker.queue, x) + Locals(worker.pc, x)
  }

  ghost function Places(workers: seq<Worker>, x: Task): nat {
    if workers == [] then 0 else At(workers[0], x) + Places(workers[1..], x)
  }

  /** Workers inside a fork after the increment, or inside FINALIZE before the decrement. */
  function Windows(workers: seq<Worker>): nat {
    if workers == [] then 0 else Window(workers[0]) + Windows(workers[1..])
  }

  function Window(worker: Worker): nat {
    One(worker.pc.CreateTask? || worker.pc.SubtractRemaining?)
  }

  /** Each live task is in exactly one place and nothing else is anywhere; only tasks that are
      being freed have finished; the counter is the number of live tasks plus open windows; a
      worker has left only if the counter was zero. */
  ghost predicate Inv(s: State) {
    && (forall x :: Places(s.workers, x) + One(x in s.asleep) == One(x in s.live))
    && !s.fatal
    && s.finished <= s.live && s.finished !! s.asleep
    && (forall w, x | 0 <= w < |s.workers| && x in s.finished ::
          At(s.workers[w], x) > 0 ==> s.workers[w].pc == FreeTask(x))
    && s.remaining == |s.live| + Windows(s.workers)
    && forall w | 0 <= w < |s.workers| :: s.workers[w].pc.Exited? ==> s.remaining == 0
  }

  // ----- sums over workers -----

  lemma {:induction false} UpdatePlaces(workers: seq<Worker>, i: nat, w: Worker, x: Task)
    requires i < |workers|
    ensures At(workers[i], x) <= Places(workers, x)
    ensures Places(workers[i := w], x) == Places(workers, x) - At(workers[i], x) + At(w, x)
    decreases |workers|
  {
    hide At;
    if i == 0 {
      assert workers[i := w][1..] == workers[1..];
    } else {
      assert workers[i := w][1..] == workers[1..][i - 1 := w];
      UpdatePlaces(workers[1..], i - 1, w, x);
    }
  }

  lemma {:induction false} UpdateWindows(workers: seq<Worker>, i: nat, w: Worker)
    requires i < |workers|
    ensures Window(workers[i]) <= Windows(workers)
    ensures Windows(workers[i := w]) == Windows(workers) - Window(workers[i]) + Window(w)
    decreases |workers|
  {
    if i == 0 {
      assert workers[i := w][1..] == workers[1..];
    } else {
      assert workers[i := w][1..] == workers[1..][i - 1 := w];
      UpdateWindows(workers[1..], i - 1, w);
    }
  }

  lemma {:induction false} TwoPlaces(workers: seq<Worker>, i: nat, j: nat, x: Task)
    requires i < j < |workers|
    ensures Places(workers, x) >= At(workers[i], x) + At(workers[j], x)
    decreases |workers|
  {
    hide At;
    if i == 0 {
      UpdatePlaces(workers[1..], j - 1, workers[j], x);
    } else {
      TwoPlaces(workers[1..], i - 1, j - 1, x);
    }
  }

  lemma QueueHead(q: seq<Task>, x: Task)
    ensures Among(q, x) == if q == [] then 0 else One(q[0] == x) + Among(q[1..], x)
  {
    assert q != [] ==> q == [q[0]] + q[1..];
  }

  // ----- the initial state -----

  lemma {:induction false} DistinctSet(tasks: seq<Task>)
    requires Distinct(tasks)
    ensures |SetOf(tasks)| == |tasks| && forall x :: Among(tasks, x) == One(x in SetOf(tasks))
    decreases |tasks|
  {
    if tasks == [] {
    } else {
      DistinctSet(tasks[1..]);
      FirstApart(tasks);
      forall x ensures Among(tasks, x) == One(x in SetOf(tasks)) {
        QueueHead(tasks, x);
      }
    }
  }

  lemma FirstApart(tasks: seq<Task>)
    requires Distinct(tasks) && tasks != []
    ensures SetOf(tasks) == {tasks[0]} + SetOf(tasks[1..]) && tasks[0] !in SetOf(tasks[1..])
  {
    assert tasks == [tasks[0]] + tasks[1..];
    assert forall i | 0 <= i < |tasks[1..]| :: tasks[1..][i] == tasks[i + 1];
  }

  lemma {:induction false} NothingPlaced(workers: seq<Worker>, x: Task)
    requires forall w | w in workers :: w == Worker(None, [], PopOwn)
    ensures Places(workers, x) == 0 && Windows(workers) == 0
    decreases |workers|
  {
    if workers == [] {
    } else {
      assert workers[0] in workers && forall w | w in workers[1..] :: w in workers;
      NothingPlaced(workers[1..], x);
    }
  }

  lemma InitInv(workers: nat, tasks: seq<Task>)
    requires workers > 0 && Distinct(tasks)
    ensures Inv(Init(workers, tasks))
  {
    var s := Init(workers, tasks);
    DistinctSet(tasks);
    forall x ensures Places(s.workers, x) == Among(tasks, x) && Windows(s.workers) == 0 {
      NothingPlaced(s.workers[1..], x);
    }
    assert Places(s.workers, 0) == Among(tasks, 0);
  }

  // ----- steps -----

  /** One worker moves tasks between its own places, `asleep` and the allocator, and the counter
      follows the live set and the worker's window. */
  lemma BalancedInv(s: State, t: State, w: nat)
    requires Inv(s) && !t.fatal && w < |s.workers| == |t.workers| && t.workers == s.workers[w := t.workers[w]]
    requires forall x :: At(t.workers[w], x) + One(x in t.asleep) + One(x in s.live)
                      == At(s.workers[w], x) + One(x in s.asleep) + One(x in t.live)
    requires t.finished <= s.finished && t.finished <= t.live && t.finished !! t.asleep
    requires forall x | x in t.finished :: At(t.workers[w], x) > 0 ==> t.workers[w].pc == FreeTask(x)
    requires t.remaining - |t.live| - Window(t.workers[w]) == s.remaining - |s.live| - Window(s.workers[w])
    requires t.workers[w].pc.Exited? || s.remaining == 0 ==> t.remaining == 0
    ensures Inv(t)
  {
    hide At, Window, Places, Windows;
    UpdateWindows(s.workers, w, t.workers[w]);
    forall x ensures Places(t.workers, x) + One(x in t.asleep) == One(x in t.live) {
      UpdatePlaces(s.workers, w, t.workers[w], x);
    }
  }

  /** While a worker holds a task or is inside a window, the counter is positive. */
  lemma BusyMeansPositive(s: State, w: nat, x: Task)
    requires Inv(s) && w < |s.workers| && (At(s.workers[w], x) > 0 || Window(s.workers[w]) > 0)
    ensures s.remaining > 0
  {
    hide At, Window, Places, Windows;
    UpdatePlaces(s.workers, w, s.workers[w], x);
    UpdateWindows(s.workers, w, s.workers[w]);
    assert x in s.live ==> |s.live| > 0;
  }

  /** A task found at one worker is nowhere else. */
  lemma HeldOnce(s: State, w: nat, x: Task)
    requires Inv(s) && w < |s.workers| && At(s.workers[w], x) > 0
    ensures x in s.live && x !in s.asleep && At(s.workers[w], x) == 1
    ensures forall v | 0 <= v < |s.workers| && v != w :: At(s.workers[v], x) == 0
  {
    hide At, Windows;
    UpdatePlaces(s.workers, w, s.workers[w], x);
    assert Places(s.workers, x) <= 1;
    forall v | 0 <= v < |s.workers| && v != w ensures At(s.workers[v], x) == 0 {
      if v < w { TwoPlaces(s.workers, v, w, x); } else { TwoPlaces(s.workers, w, v, x); }
    }
  }

  /** Steps that move tasks only between the worker's own places. */
  predicate OwnStep(pc: Pc) {
    !pc.Exited? && !pc.CheckTask? && !pc.Running? && !pc.CreateTask? && !pc.FreeTask? && !pc.Steal?
  }

  lemma WakeMoves(s: State, w: nat, x: Task)
    requires w < |s.workers| && s.workers[w].pc.WakeNext?
    ensures At(NextStep(s, w).workers[w], x) == At(s.workers[w], x)
  {
    hide Among;
    QueueHead(s.workers[w].pc.wakers, x);
  }

  lemma OwnStepMoves(s: State, w: nat, x: Task)
    requires w < |s.workers| && OwnStep(s.workers[w].pc)
    ensures At(NextStep(s, w).workers[w], x) == At(s.workers[w], x)
  {
    hide Among;
    var self := s.workers[w];
    match self.pc
    case PopOwn => QueueHead(self.queue, x);
    case WakeNext(_, _, _) => WakeMoves(s, w, x);
    case Push(task) => AmongAppend(self.queue, task, x);
    case PushForker(task, _) => AmongAppend(self.queue, task, x);
    case WakeDisplaced(_, displaced, _, _) => AmongAppend(self.queue, displaced, x);
    case _ =>
  }

  lemma OwnStepCounts(s: State, w: nat)
    requires Inv(s) && Enabled(s, Step(w)) && OwnStep(s.workers[w].pc)
    ensures var t := NextStep(s, w);
            && t.remaining - Window(t.workers[w]) == s.remaining - Window(s.workers[w])
            && (t.workers[w].pc.Exited? || s.remaining == 0 ==> t.remaining == 0)
  {
    if s.workers[w].pc.AddRemaining? {
      BusyMeansPositive(s, w, s.workers[w].pc.task);
    } else if s.workers[w].pc.SubtractRemaining? {
      BusyMeansPositive(s, w, 0);
    }
  }

  lemma OwnStepInv(s: State, w: nat)
    requires Inv(s) && Enabled(s, Step(w)) && OwnStep(s.workers[w].pc)
    ensures Inv(NextStep(s, w))
  {
    hide At, Window;
    var t := NextStep(s, w);
    OwnStepCounts(s, w);
    forall x ensures At(t.workers[w], x) == At(s.workers[w], x) {
      OwnStepMoves(s, w, x);
    }
    BalancedInv(s, t, w);
  }

  /** Whatever a worker dequeues has not finished. */
  lemma QueuedUnfinished(s: State, w: nat, x: Task)
    requires Inv(s) && w < |s.workers|
    requires Among(s.workers[w].queue, x) > 0 || s.workers[w].slot == Some(x)
    ensures x !in s.finished
  {
    HeldOnce(s, w, x);
  }

  lemma StolenPlaces(s: State, w: nat, v: nat, x: Task)
    requires w < |s.workers| && v < |s.workers| && s.workers[v].queue != [] && s.workers[w].pc.Steal?
    ensures var t := StealFrom(s, w, v);
            && Places(t.workers, x) == Places(s.workers, x) && Windows(t.workers) == Windows(s.workers)
            && forall u | 0 <= u < |s.workers| && x != s.workers[v].queue[0] ::
                 At(t.workers[u], x) == At(s.workers[u], x)
  {
    var t, q := StealFrom(s, w, v), s.workers[v].queue;
    var mid := s.workers[v := s.workers[v].(queue := q[1..])];
    QueueHead(q, x);
    UpdatePlaces(s.workers, v, mid[v], x);
    UpdatePlaces(mid, w, t.workers[w], x);
    UpdateWindows(s.workers, v, mid[v]);
    UpdateWindows(mid, w, t.workers[w]);
  }

  lemma StealFromInv(s: State, w: nat, v: nat)
    requires Inv(s) && w < |s.workers| && v < |s.workers|
    requires s.workers[v].queue != [] && s.workers[w].pc.Steal?
    ensures Inv(StealFrom(s, w, v))
  {
    hide Places, Windows, At;
    var t := StealFrom(s, w, v);
    var head := s.workers[v].queue[0];
    QueueHeadUnfinished(s, v);
    StolenPlaces(s, w, v, head);
    forall x ensures Places(t.workers, x) == Places(s.workers, x)
                     && forall u | 0 <= u < |s.workers| && x != head :: At(t.workers[u], x) == At(s.workers[u], x) {
      StolenPlaces(s, w, v, x);
    }
  }

  lemma QueueHeadUnfinished(s: State, v: nat)
    requires Inv(s) && v < |s.workers| && s.workers[v].queue != []
    ensures s.workers[v].queue[0] !in s.finished
  {
    QueuedUnfinished(s, v, s.workers[v].queue[0]);
  }

  lemma StepInv(s: State, w: nat)
    requires Inv(s) && Enabled(s, Step(w))
    ensures Inv(NextStep(s, w))
  {
    hide Inv;
    if OwnStep(s.workers[w].pc) {
      OwnStepInv(s, w);
    } else if s.workers[w].pc.Steal? {
      StealInv(s, w);
    } else {
      FreeInv(s, w);
    }
  }

  lemma StealInv(s: State, w: nat)
    requires Inv(s) && Enabled(s, Step(w)) && s.workers[w].pc.Steal?
    ensures Inv(NextStep(s, w))
  {
    var offset := s.workers[w].pc.offset;
    var v := (w + offset) % |s.workers|;
    if offset < |s.workers| && s.workers[v].queue != [] {
      hide Inv;
      StealFromInv(s, w, v);
    } else {
      hide Places, Windows, Among;
      BalancedInv(s, NextStep(s, w), w);
    }
  }

  lemma FreeInv(s: State, w: nat)
    requires Inv(s) && Enabled(s, Step(w)) && s.workers[w].pc.FreeTask?
    ensures Inv(NextStep(s, w))
  {
    HeldOnce(s, w, s.workers[w].pc.task);
    BusyMeansPositive(s, w, s.workers[w].pc.task);
    BalancedInv(s, NextStep(s, w), w);
  }

  lemma CheckInv(s: State, w: nat, ready: bool)
    requires Inv(s) && Enabled(s, Check(w, ready))
    ensures Inv(Next(s, Check(w, ready)))
  {
    hide Places, Windows, Among;
    BalancedInv(s, Next(s, Check(w, ready)), w);
  }

  lemma AllocateInv(s: State, w: nat, created: Task)
    requires Inv(s) && Enabled(s, Allocate(w, created))
    ensures Inv(Next(s, Allocate(w, created)))
  {
    BusyMeansPositive(s, w, s.workers[w].pc.task);
    BalancedInv(s, Next(s, Allocate(w, created)), w);
  }

  /** Returning finishes the coroutine; nobody else holds it. */
  lemma ReturnInv(s: State, w: nat)
    requires Inv(s) && Enabled(s, Handle(w, Return))
    ensures Inv(Next(s, Handle(w, Return)))
  {
    var task := s.workers[w].pc.task;
    var t := Next(s, Handle(w, Return));
    HeldOnce(s, w, task);
    hide Places, Windows, Among;
    BalancedInv(s, t.(finished := s.finished), w);
  }

  lemma RequestInv(s: State, w: nat, request: Request)
    requires Inv(s) && Enabled(s, Handle(w, request)) && !request.Return? && !request.Wake?
    ensures Inv(Next(s, Handle(w, request)))
  {
    HeldOnce(s, w, s.workers[w].pc.task);
    if request.Sleep? { SleepInv(s, w, request); } else { KeepInv(s, w, request); }
  }

  /** A task that goes to sleep leaves its worker for its waker, or is enqueued again. */
  lemma SleepInv(s: State, w: nat, request: Request)
    requires Inv(s) && Enabled(s, Handle(w, request)) && request.Sleep?
    requires s.workers[w].pc.task in s.live && s.workers[w].pc.task !in s.asleep
    ensures Inv(Next(s, Handle(w, request)))
  {
    hide Places, Windows, Among;
    BalancedInv(s, Next(s, Handle(w, request)), w);
  }

  /** After a fork or a poll the worker still has the task. */
  lemma KeepInv(s: State, w: nat, request: Request)
    requires Inv(s) && Enabled(s, Handle(w, request)) && (request.Fork? || request.Poll?)
    ensures Inv(Next(s, Handle(w, request)))
  {
    hide Places, Windows, Among;
    BalancedInv(s, Next(s, Handle(w, request)), w);
  }

  lemma WakeInv(s: State, w: nat, request: Request)
    requires Inv(s) && Enabled(s, Handle(w, request)) && request.Wake?
    ensures Inv(Next(s, Handle(w, request)))
  {
    DistinctSet(request.wakers);
    hide Places, Windows, Among;
    BalancedInv(s, Next(s, Handle(w, request)), w);
  }

  lemma NextInv(s: State, a: Action)
    requires Inv(s) && Enabled(s, a)
    ensures Inv(Next(s, a))
  {
    hide Inv;
    match a
    case Step(w) => StepInv(s, w);
    case Check(w, ready) => CheckInv(s, w, ready);
    case Handle(w, Return) => ReturnInv(s, w);
    case Handle(w, Wake(_, _)) => WakeInv(s, w, a.request);
    case Handle(w, request) => RequestInv(s, w, request);
    case Allocate(w, created) => AllocateInv(s, w, created);
  }

  // ----- all runs -----

  ghost predicate Runnable(s: State, actions: seq<Action>)
    decreases |actions|
  {
    actions == [] || (Enabled(s, actions[0]) && Runnable(Next(s, actions[0]), actions[1..]))
  }

  function Run(s: State, actions: seq<Action>): State
    requires Runnable(s, actions)
    decreases |actions|
  {
    if actions == [] then s else Run(Next(s, actions[0]), actions[1..])
  }

  lemma {:induction false} RunInv(s: State, actions: seq<Action>)
    requires Inv(s) && Runnable(s, actions)
    ensures Inv(Run(s, actions))
    decreases |actions|
  {
    hide Inv;
    if actions == [] {
    } else {
      NextInv(s, actions[0]);
      RunInv(Next(s, actions[0]), actions[1..]);
    }
  }

  ghost predicate OnlyAt(s: State, x: Task, w: nat)
    requires w < |s.workers|
  {
    At(s.workers[w], x) == 1 && forall v | 0 <= v < |s.workers| && v != w :: At(s.workers[v], x) == 0
  }

  lemma {:induction false} SomePlace(workers: seq<Worker>, x: Task) returns (w: nat)
    requires Places(workers, x) > 0
    ensures w < |workers| && At(workers[w], x) > 0
    decreases |workers|
  {
    if At(workers[0], x) > 0 {
      w := 0;
    } else {
      w := SomePlace(workers[1..], x);
      w := w + 1;
    }
  }

  /** Whatever the schedule and whatever the tasks do: no finished coroutine is resumed, every
      live task is asleep or with exactly one worker, in one place there, the counter never
      drops below the number of live tasks, and a worker leaves only when none is left. */
  lemma EveryRunIsSafe(workers: nat, tasks: seq<Task>, actions: seq<Action>)
    requires workers > 0 && Distinct(tasks) && Runnable(Init(workers, tasks), actions)
    ensures var s := Run(Init(workers, tasks), actions);
            && !s.fatal
            && (forall w | 0 <= w < |s.workers| && s.workers[w].pc.CheckTask? ::
                  s.workers[w].pc.task in s.live - s.finished)
            && (forall x | x in s.live :: x in s.asleep <==> !exists w :: 0 <= w < |s.workers| && OnlyAt(s, x, w))
            && (forall w, x | 0 <= w < |s.workers| && (x !in s.live || x in s.asleep) :: At(s.workers[w], x) == 0)
            && s.remaining >= |s.live|
            && (forall w | 0 <= w < |s.workers| && s.workers[w].pc.Exited? :: s.live == {} && s.remaining == 0)
  {
    InitInv(workers, tasks);
    RunInv(Init(workers, tasks), actions);
    InvMeansSafe(Run(Init(workers, tasks), actions));
  }

  lemma InvMeansSafe(s: State)
    requires Inv(s)
    ensures forall w | 0 <= w < |s.workers| && s.workers[w].pc.CheckTask? ::
              s.workers[w].pc.task in s.live - s.finished
    ensures forall x | x in s.live :: x in s.asleep <==> !exists w :: 0 <= w < |s.workers| && OnlyAt(s, x, w)
    ensures forall w, x | 0 <= w < |s.workers| && (x !in s.live || x in s.asleep) :: At(s.workers[w], x) == 0
  {
    forall w | 0 <= w < |s.workers| && s.workers[w].pc.CheckTask?
      ensures s.workers[w].pc.task in s.live - s.finished {
      HeldOnce(s, w, s.workers[w].pc.task);
    }
    hide At, Windows;
    forall w, x | 0 <= w < |s.workers| && (x !in s.live || x in s.asleep) ensures At(s.workers[w], x) == 0 {
      if At(s.workers[w], x) > 0 {
        HeldOnce(s, w, x);
      }
    }
    forall x | x in s.live && x !in s.asleep ensures exists w :: 0 <= w < |s.workers| && OnlyAt(s, x, w) {
      assert Places(s.workers, x) == 1;
      var w := SomePlace(s.workers, x);
      HeldOnce(s, w, x);
      assert OnlyAt(s, x, w);
    }
  }

  /** Zero is stable: once the counter has reached it nothing is live and nothing comes back. */
  lemma {:induction false} ZeroIsStable(s: State, actions: seq<Action>)
    requires Inv(s) && Runnable(s, actions) && s.remaining == 0
    ensures Run(s, actions).remaining == 0 && Run(s, actions).live == {}
    decreases |actions|
  {
    if actions == [] {
    } else {
      var t := Next(s, actions[0]);
      assert t.remaining == 0 by { ZeroStep(s, actions[0]); }
      NextInv(s, actions[0]);
      ZeroIsStable(t, actions[1..]);
    }
  }

  lemma ZeroStep(s: State, a: Action)
    requires Inv(s) && Enabled(s, a) && s.remaining == 0
    ensures Next(s, a).remaining == 0
  {
    var pc := s.workers[a.w].pc;
    if pc.AddRemaining? {
      BusyMeansPositive(s, a.w, pc.task);
    } else if pc.SubtractRemaining? {
      BusyMeansPositive(s, a.w, 0);
    }
  }
}
