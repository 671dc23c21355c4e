/** What the scheduler of `scheff.c` makes of the answers of tasks: which task may be resumed, when, and in
    which order a worker serves what is waiting for it.
  */
module TaskLife {
  import opened Options
  import opened Sequences
  import opened Scheduler

  /** Where a task is in its life: whether it may be resumed, and on what condition. */
  datatype Mode = Absent | Ready | Polling | InControl | Sleeping | Leaving

  /** What an action means for tasks. */
  datatype Event =
    | Checked(task: Task, ready: bool)
    | Answered(task: Task, request: Request)
    | Created(task: Task)
    | Freed(task: Task)
    | Internal

  function EventOf(s: State, a: Action): Event
    requires a.w < |s.workers|
  {
    var pc := s.workers[a.w].pc;
    match a
    case Step(_) => if pc.FreeTask? then Freed(pc.task) else Internal
    case Check(_, ready) => if pc.CheckTask? then Checked(pc.task, ready) else Internal
    case Handle(_, request) => if pc.Running? then Answered(pc.task, request) else Internal
    case Allocate(_, created) => Created(created)
  }

  /** The life of task `x`: a poller is resumed only by a check that finds its condition true; a kept sleeper
      gets ready only by a wake that lists it, a refused one at once; a task that forks or wakes with
      `resume` stays; a task leaves by its own return, or its own wake without `resume`. */
  function ModeAfter(m: Mode, x: Task, e: Event): Mode {
    match e
    case Checked(t, ready) => if t != x then m else if m.Polling? && !ready then Polling else InControl
    case Answered(t, request) =>
      if t == x then
        match request
        case Return => Leaving
        case Fork => Ready
        case Poll => Polling
        case Sleep(keeps) => if keeps then Sleeping else Ready
        case Wake(_, resume) => if resume then Ready else Leaving
      else if request.Wake? && x in request.wakers then Ready
      else m
    case Created(t) => if t == x then Ready else m
    case Freed(t) => if t == x then Absent else m
    case Internal => m
  }

  /** Which events can concern a task in each mode. */
  predicate Fits(m: Mode, x: Task, e: Event) {
    match e
    case Checked(t, _) => t == x ==> m.Ready? || m.Polling?
    case Answered(t, request) =>
      && (t == x ==> m.InControl?)
      && (request.Wake? && x in request.wakers ==> m.Sleeping?)
    case Created(t) => t == x ==> m.Absent?
    case Freed(t) => t == x ==> m.Leaving?
    case Internal => true
  }

  predicate Runs(pc: Pc, x: Task) { pc == Running(x) }

  predicate Leaves(pc: Pc, x: Task) {
    || pc == FreeTask(x)
    || ((pc.WakeNext? || pc.WakeDisplaced?) && pc.task == x && !pc.resume)
  }

  ghost predicate SomeRuns(s: State, x: Task) {
    exists w :: 0 <= w < |s.workers| && Runs(s.workers[w].pc, x)
  }

  ghost predicate SomeLeaves(s: State, x: Task) {
    exists w :: 0 <= w < |s.workers| && Leaves(s.workers[w].pc, x)
  }

  ghost function ModeOf(s: State, x: Task): Mode {
    if x !in s.live then Absent
    else if x in s.asleep then Sleeping
    else if SomeRuns(s, x) then InControl
    else if SomeLeaves(s, x) then Leaving
    else if x in s.polling then Polling
    else Ready
  }

  /** A task with a poll condition is in a queue or a slot, or is about to be enqueued or checked. */
  ghost predicate MayPoll(pc: Pc, x: Task) {
    match pc
    case CheckTask(_) => true
    case Push(_) => true
    case _ => Locals(pc, x) == 0
  }

  ghost predicate PollsOk(s: State) {
    && s.polling <= s.live && s.polling !! s.asleep
    && forall w, x | 0 <= w < |s.workers| && x in s.polling ::
         MayPoll(s.workers[w].pc, x) && s.workers[w].slot != Some(x)
  }

  lemma InitPolls(workers: nat, tasks: seq<Task>)
    requires workers > 0
    ensures PollsOk(Init(workers, tasks))
  {
  }

  /** What a worker holds is live and awake. */
  lemma LeaverIsLive(s: State, w: nat, x: Task)
    requires Inv(s) && w < |s.workers| && Locals(s.workers[w].pc, x) > 0
    ensures x in s.live && x !in s.asleep && s.workers[w].slot != Some(x)
    ensures forall v | 0 <= v < |s.workers| && v != w :: At(s.workers[v], x) == 0
  {
    HeldOnce(s, w, x);
  }

  lemma StealPolls(s: State, w: nat)
    requires PollsOk(s) && Enabled(s, Step(w)) && s.workers[w].pc.Steal?
    ensures PollsOk(NextStep(s, w))
  {
    hide Among;
    var t, offset := NextStep(s, w), s.workers[w].pc.offset;
    if offset < |s.workers| {
      var v := (w + offset) % |s.workers|;
      assert forall u | 0 <= u < |s.workers| && u != w ::
          t.workers[u].pc == s.workers[u].pc && t.workers[u].slot == s.workers[u].slot;
    }
  }

  lemma FreePolls(s: State, w: nat)
    requires Inv(s) && PollsOk(s) && Enabled(s, Step(w)) && s.workers[w].pc.FreeTask?
    ensures PollsOk(NextStep(s, w))
  {
    LeaverIsLive(s, w, s.workers[w].pc.task);
    hide Inv, Among;
  }

  /** Steps of a worker on what it holds leave poll conditions alone. */
  lemma OwnPolls(s: State, w: nat)
    requires PollsOk(s) && Enabled(s, Step(w)) && OwnStep(s.workers[w].pc)
    ensures PollsOk(NextStep(s, w))
  {
    hide Among;
    var t := NextStep(s, w);
    forall x | x in s.polling ensures MayPoll(t.workers[w].pc, x) && t.workers[w].slot != Some(x) {
      assert MayPoll(s.workers[w].pc, x) && s.workers[w].slot != Some(x);
      if s.workers[w].pc.WakeNext? { QueueHead(s.workers[w].pc.wakers, x); }
    }
  }

  lemma CheckPolls(s: State, w: nat, ready: bool)
    requires Inv(s) && PollsOk(s) && Enabled(s, Check(w, ready))
    ensures PollsOk(Next(s, Check(w, ready)))
  {
    LeaverIsLive(s, w, s.workers[w].pc.task);
    hide Inv, At, Among;
  }

  lemma AllocatePolls(s: State, w: nat, created: Task)
    requires PollsOk(s) && Enabled(s, Allocate(w, created))
    ensures PollsOk(Next(s, Allocate(w, created)))
  {
    hide At, Among;
  }

  lemma AnswerPolls(s: State, w: nat, request: Request)
    requires Inv(s) && PollsOk(s) && Enabled(s, Handle(w, request))
    ensures PollsOk(Next(s, Handle(w, request)))
  {
    var task, t := s.workers[w].pc.task, Next(s, Handle(w, request));
    LeaverIsLive(s, w, task);
    assert task !in s.polling;
    hide Inv;
    forall v, x | 0 <= v < |t.workers| && x in t.polling
      ensures MayPoll(t.workers[v].pc, x) && t.workers[v].slot != Some(x) {
      if v == w {
        assert t.workers[w].slot == s.workers[w].slot;
        AnswererPolls(s, w, request, x);
      } else if x == task {
        HeldNowhere(s.workers[v], x);
      }
      hide At, Among;
    }
    hide At, Among, MayPoll;
  }

  lemma AnswererPolls(s: State, w: nat, request: Request, x: Task)
    requires PollsOk(s) && Enabled(s, Handle(w, request)) && s.workers[w].pc.task !in s.polling
    requires x in Next(s, Handle(w, request)).polling
    ensures MayPoll(Next(s, Handle(w, request)).workers[w].pc, x)
  {
    match request
    case Wake(wakers, _) =>
      assert forall y | y in wakers :: y in s.asleep;
      NotAmong(wakers, x);
      hide Among;
    case _ => hide Among;
  }

  lemma HeldNowhere(worker: Worker, x: Task)
    requires At(worker, x) == 0
    ensures MayPoll(worker.pc, x) && worker.slot != Some(x)
  {
  }

  lemma NotAmong(tasks: seq<Task>, x: Task)
    requires x !in tasks
    ensures Among(tasks, x) == 0
  {
  }

  lemma NextPolls(s: State, a: Action)
    requires Inv(s) && PollsOk(s) && Enabled(s, a)
    ensures PollsOk(Next(s, a))
  {
    hide Inv, PollsOk;
    if a.Step? {
      if s.workers[a.w].pc.Steal? { StealPolls(s, a.w); }
      else if s.workers[a.w].pc.FreeTask? { FreePolls(s, a.w); }
      else { OwnPolls(s, a.w); }
    } else {
      match a
      case Check(w, ready) => CheckPolls(s, w, ready);
      case Allocate(w, created) => AllocatePolls(s, w, created);
      case Handle(w, request) => AnswerPolls(s, w, request);
    }
  }

  // ----- each action is an event in the life of every task -----

  /** The worker that holds a task determines its mode. */
  lemma HeldMode(s: State, w: nat, x: Task)
    requires Inv(s) && w < |s.workers| && At(s.workers[w], x) > 0
    ensures ModeOf(s, x) == if Runs(s.workers[w].pc, x) then InControl
                            else if Leaves(s.workers[w].pc, x) then Leaving
                            else if x in s.polling then Polling else Ready
  {
    HeldOnce(s, w, x);
    hide Inv, Among;
    assert forall v | 0 <= v < |s.workers| :: Runs(s.workers[v].pc, x) || Leaves(s.workers[v].pc, x) ==> v == w;
  }

  /** A task whose sets and whose role at the acting worker stay the same keeps its mode. */
  lemma SameMode(s: State, t: State, w: nat, x: Task)
    requires w < |s.workers| == |t.workers|
    requires forall v | 0 <= v < |s.workers| && v != w :: t.workers[v].pc == s.workers[v].pc
    requires Runs(t.workers[w].pc, x) == Runs(s.workers[w].pc, x)
    requires Leaves(t.workers[w].pc, x) == Leaves(s.workers[w].pc, x)
    requires (x in t.live <==> x in s.live) && (x in t.asleep <==> x in s.asleep)
    requires x in t.polling <==> x in s.polling
    ensures ModeOf(t, x) == ModeOf(s, x)
  {
    assert forall v | 0 <= v < |s.workers| :: Runs(t.workers[v].pc, x) == Runs(s.workers[v].pc, x);
    assert forall v | 0 <= v < |s.workers| :: Leaves(t.workers[v].pc, x) == Leaves(s.workers[v].pc, x);
  }

  /** The event fits the task's mode, and the task's mode afterwards is what the event makes of it. */
  ghost predicate Lives(s: State, a: Action, x: Task)
    requires Enabled(s, a)
  {
    && Fits(ModeOf(s, x), x, EventOf(s, a))
    && ModeOf(Next(s, a), x) == ModeAfter(ModeOf(s, x), x, EventOf(s, a))
  }

  lemma StepLives(s: State, w: nat, x: Task)
    requires Inv(s) && PollsOk(s) && Enabled(s, Step(w))
    ensures Lives(s, Step(w), x)
  {
    if s.workers[w].pc == FreeTask(x) {
      HeldMode(s, w, x);
    } else {
      var t := NextStep(s, w);
      SameRole(s, w, x);
      hide Inv, PollsOk, ModeOf, Among, Runs, Leaves;
      SameMode(s, t, w, x);
    }
  }

  lemma SameRole(s: State, w: nat, x: Task)
    requires Enabled(s, Step(w)) && s.workers[w].pc != FreeTask(x)
    ensures var t := NextStep(s, w);
            && |t.workers| == |s.workers|
            && Runs(t.workers[w].pc, x) == Runs(s.workers[w].pc, x)
            && Leaves(t.workers[w].pc, x) == Leaves(s.workers[w].pc, x)
            && forall v | 0 <= v < |s.workers| && v != w :: t.workers[v].pc == s.workers[v].pc
  {
  }

  lemma CheckLives(s: State, w: nat, ready: bool, x: Task)
    requires Inv(s) && PollsOk(s) && Enabled(s, Check(w, ready))
    ensures Lives(s, Check(w, ready), x)
  {
    var t := Next(s, Check(w, ready));
    NextInv(s, Check(w, ready));
    hide ModeOf, PollsOk, Among;
    HeldOnce(s, w, s.workers[w].pc.task);
    assert !t.fatal;
    hide Inv;
    if s.workers[w].pc.task == x {
      HeldMode(s, w, x);
      hide At;
      HeldMode(t, w, x);
    } else {
      SameMode(s, t, w, x);
    }
  }

  lemma AllocateLives(s: State, w: nat, created: Task, x: Task)
    requires Inv(s) && PollsOk(s) && Enabled(s, Allocate(w, created))
    ensures Lives(s, Allocate(w, created), x)
  {
    if created == x {
      CreatedMode(s, w, x);
    } else {
      hide Inv, PollsOk, ModeOf;
      SameMode(s, Next(s, Allocate(w, created)), w, x);
    }
  }

  lemma CreatedMode(s: State, w: nat, x: Task)
    requires Inv(s) && PollsOk(s) && Enabled(s, Allocate(w, x))
    ensures ModeOf(s, x) == Absent && ModeOf(Next(s, Allocate(w, x)), x) == Ready
  {
    NextInv(s, Allocate(w, x));
    hide Inv, PollsOk, Among;
    HeldMode(Next(s, Allocate(w, x)), w, x);
  }

  /** The task that answers. */
  lemma AnswerLives(s: State, w: nat, request: Request)
    requires Inv(s) && PollsOk(s) && Enabled(s, Handle(w, request))
    ensures Lives(s, Handle(w, request), s.workers[w].pc.task)
  {
    var x, t := s.workers[w].pc.task, Next(s, Handle(w, request));
    LeaverIsLive(s, w, x);
    HeldMode(s, w, x);
    NextInv(s, Handle(w, request));
    hide Inv, PollsOk, ModeOf;
    if request == Sleep(true) {
      SleepingMode(t, x);
    } else {
      AnswererIsHeld(s, w, request);
      hide At, Enabled;
      HeldMode(t, w, x);
      AnswererRole(s, w, request);
      hide NextRequest, Next, Leaves;
    }
  }

  lemma AnswererRole(s: State, w: nat, request: Request)
    requires w < |s.workers| && s.workers[w].pc.Running? && request != Sleep(true)
    ensures var x, t := s.workers[w].pc.task, NextRequest(s, w, request);
            && w < |t.workers| && !Runs(t.workers[w].pc, x)
            && (Leaves(t.workers[w].pc, x) <==> request.Return? || (request.Wake? && !request.resume))
            && (request.Poll? ==> x in t.polling) && (!request.Poll? ==> t.polling == s.polling)
  {
  }

  lemma AnswererIsHeld(s: State, w: nat, request: Request)
    requires Enabled(s, Handle(w, request)) && request != Sleep(true)
    ensures At(Next(s, Handle(w, request)).workers[w], s.workers[w].pc.task) > 0
  {
  }

  lemma SleepingMode(s: State, x: Task)
    requires Inv(s) && x in s.asleep
    ensures ModeOf(s, x) == Sleeping
  {
    LiveIfAsleep(s, x);
  }

  /** Every other task. */
  lemma OthersLive(s: State, w: nat, request: Request, x: Task)
    requires Inv(s) && PollsOk(s) && Enabled(s, Handle(w, request)) && x != s.workers[w].pc.task
    ensures Lives(s, Handle(w, request), x)
  {
    var t := Next(s, Handle(w, request));
    if request.Wake? && x in request.wakers {
      WokenMode(s, w, request, x);
    } else {
      hide PollsOk;
      hide Inv, ModeOf, Among;
      SameMode(s, t, w, x);
    }
  }

  lemma WokenMode(s: State, w: nat, request: Request, x: Task)
    requires Inv(s) && PollsOk(s) && Enabled(s, Handle(w, request)) && request.Wake? && x in request.wakers
    ensures ModeOf(s, x) == Sleeping && ModeOf(Next(s, Handle(w, request)), x) == Ready
    ensures x != s.workers[w].pc.task
  {
    LeaverIsLive(s, w, s.workers[w].pc.task);
    SleepingMode(s, x);
    NextInv(s, Handle(w, request));
    AmongIn(request.wakers, x);
    assert x !in s.polling;
    hide Inv, PollsOk, ModeOf, Among;
    HeldMode(Next(s, Handle(w, request)), w, x);
  }

  lemma LiveIfAsleep(s: State, x: Task)
    requires Inv(s) && x in s.asleep
    ensures x in s.live
  {
    hide Places, Windows;
    assert Places(s.workers, x) + One(x in s.asleep) == One(x in s.live);
  }

  lemma {:induction false} AmongIn(tasks: seq<Task>, x: Task)
    requires x in tasks
    ensures Among(tasks, x) > 0
    decreases |tasks|
  {
    QueueHead(tasks, x);
    if tasks[0] == x {
    } else {
      AmongIn(tasks[1..], x);
    }
  }

  lemma NextLives(s: State, a: Action, x: Task)
    requires Inv(s) && PollsOk(s) && Enabled(s, a)
    ensures Lives(s, a, x)
  {
    hide Inv, PollsOk, Lives;
    match a
    case Step(w) => StepLives(s, w, x);
    case Check(w, ready) => CheckLives(s, w, ready, x);
    case Allocate(w, created) => AllocateLives(s, w, created, x);
    case Handle(w, request) =>
      if s.workers[w].pc.task == x { AnswerLives(s, w, request); } else { OthersLive(s, w, request, x); }
  }

  // ----- runs -----

  ghost predicate Sound(s: State) {
    Inv(s) && PollsOk(s)
  }

  lemma InitSound(workers: nat, tasks: seq<Task>)
    requires workers > 0 && Distinct(tasks)
    ensures Sound(Init(workers, tasks))
    ensures Init(workers, tasks).polling == {} && Init(workers, tasks).finished == {}
  {
    InitInv(workers, tasks);
    InitPolls(workers, tasks);
  }

  /** The state before the i-th action. */
  ghost function StateAt(s: State, actions: seq<Action>, i: nat): (t: State)
    requires Runnable(s, actions) && i <= |actions|
    ensures i < |actions| ==> Enabled(t, actions[i])
    decreases i
  {
    if i == 0 then s else StateAt(Next(s, actions[0]), actions[1..], i - 1)
  }

  ghost function EventAt(s: State, actions: seq<Action>, i: nat): Event
    requires Runnable(s, actions) && i < |actions|
  {
    EventOf(StateAt(s, actions, i), actions[i])
  }

  ghost function ModeAt(s: State, actions: seq<Action>, i: nat, x: Task): Mode
    requires Runnable(s, actions) && i <= |actions|
  {
    ModeOf(StateAt(s, actions, i), x)
  }

  lemma {:induction false} StateAtNext(s: State, actions: seq<Action>, i: nat)
    requires Runnable(s, actions) && i < |actions|
    ensures StateAt(s, actions, i + 1) == Next(StateAt(s, actions, i), actions[i])
    decreases i
  {
    if i == 0 {
    } else {
      StateAtNext(Next(s, actions[0]), actions[1..], i - 1);
    }
  }

  lemma {:induction false} StateAtEnd(s: State, actions: seq<Action>)
    requires Runnable(s, actions)
    ensures StateAt(s, actions, |actions|) == Run(s, actions)
    decreases |actions|
  {
    if actions == [] {
    } else {
      StateAtEnd(Next(s, actions[0]), actions[1..]);
    }
  }

  lemma StateAtStart(s: State, actions: seq<Action>)
    requires Runnable(s, actions)
    ensures StateAt(s, actions, 0) == s
  {
  }

  lemma {:induction false} SoundAt(s: State, actions: seq<Action>, i: nat)
    requires Sound(s) && Runnable(s, actions) && i <= |actions|
    ensures Sound(StateAt(s, actions, i))
    decreases i
  {
    hide Inv, PollsOk, Next, Enabled, StateAt, Runnable;
    if i == 0 {
      StateAtStart(s, actions);
    } else {
      SoundAt(s, actions, i - 1);
      StateAtNext(s, actions, i - 1);
      NextInv(StateAt(s, actions, i - 1), actions[i - 1]);
      NextPolls(StateAt(s, actions, i - 1), actions[i - 1]);
    }
  }

  lemma ModeAtNext(s: State, actions: seq<Action>, i: nat, x: Task)
    requires Sound(s) && Runnable(s, actions) && i < |actions|
    ensures Fits(ModeAt(s, actions, i, x), x, EventAt(s, actions, i))
    ensures ModeAt(s, actions, i + 1, x) == ModeAfter(ModeAt(s, actions, i, x), x, EventAt(s, actions, i))
  {
    SoundAt(s, actions, i);
    StateAtNext(s, actions, i);
    hide Inv, PollsOk, ModeOf, Fits, ModeAfter, EventOf;
    NextLives(StateAt(s, actions, i), actions[i], x);
  }

  /** The i-th action is an answer of `x`: it had been resumed. */
  ghost predicate Answers(s: State, actions: seq<Action>, i: nat, x: Task)
    requires Runnable(s, actions) && i < |actions|
  {
    var e := EventAt(s, actions, i);
    e.Answered? && e.task == x
  }

  /** The i-th action takes `x` out of its worker's hands to see whether it can be resumed. */
  ghost predicate Checks(s: State, actions: seq<Action>, i: nat, x: Task)
    requires Runnable(s, actions) && i < |actions|
  {
    var e := EventAt(s, actions, i);
    e.Checked? && e.task == x
  }

  ghost predicate Passes(s: State, actions: seq<Action>, i: nat, x: Task)
    requires Runnable(s, actions) && i < |actions|
  {
    EventAt(s, actions, i) == Checked(x, true)
  }

  ghost predicate Wakes(s: State, actions: seq<Action>, i: nat, x: Task)
    requires Runnable(s, actions) && i < |actions|
  {
    var e := EventAt(s, actions, i);
    e.Answered? && e.request.Wake? && x in e.request.wakers
  }

  /** The i-th action is the answer with which `x` gives itself up. */
  ghost predicate GivesUp(s: State, actions: seq<Action>, i: nat, x: Task)
    requires Runnable(s, actions) && i < |actions|
  {
    var e := EventAt(s, actions, i);
    e.Answered? && e.task == x && (e.request.Return? || (e.request.Wake? && !e.request.resume))
  }

  ghost predicate Frees(s: State, actions: seq<Action>, i: nat, x: Task)
    requires Runnable(s, actions) && i < |actions|
  {
    EventAt(s, actions, i) == Freed(x)
  }

  lemma {:induction false} StaysPolling(s: State, actions: seq<Action>, i: nat, j: nat, x: Task)
    requires Sound(s) && Runnable(s, actions) && i <= j <= |actions|
    requires ModeAt(s, actions, i, x).Polling?
    requires forall k | i <= k < j :: !Passes(s, actions, k, x)
    ensures ModeAt(s, actions, j, x).Polling?
    decreases j - i
  {
    hide Sound, Runnable, ModeAt, EventAt;
    if i == j {
    } else {
      assert !Passes(s, actions, i, x);
      ModeAtNext(s, actions, i, x);
      StaysPolling(s, actions, i + 1, j, x);
    }
  }

  lemma {:induction false} StaysAsleep(s: State, actions: seq<Action>, i: nat, j: nat, x: Task)
    requires Sound(s) && Runnable(s, actions) && i <= j <= |actions|
    requires ModeAt(s, actions, i, x).Sleeping?
    requires forall k | i <= k < j :: !Wakes(s, actions, k, x)
    ensures ModeAt(s, actions, j, x).Sleeping?
    decreases j - i
  {
    hide Sound, Runnable, ModeAt, EventAt;
    if i == j {
    } else {
      assert !Wakes(s, actions, i, x);
      ModeAtNext(s, actions, i, x);
      StaysAsleep(s, actions, i + 1, j, x);
    }
  }

  lemma {:induction false} StaysLeaving(s: State, actions: seq<Action>, i: nat, j: nat, x: Task)
    requires Sound(s) && Runnable(s, actions) && i <= j <= |actions|
    requires ModeAt(s, actions, i, x).Leaving?
    requires forall k | i <= k < j :: !Frees(s, actions, k, x)
    ensures ModeAt(s, actions, j, x).Leaving?
    decreases j - i
  {
    hide Sound, Runnable, ModeAt, EventAt;
    if i == j {
    } else {
      assert !Frees(s, actions, i, x);
      ModeAtNext(s, actions, i, x);
      StaysLeaving(s, actions, i + 1, j, x);
    }
  }

  lemma {:induction false} StaysLive(s: State, actions: seq<Action>, i: nat, j: nat, x: Task)
    requires Sound(s) && Runnable(s, actions) && i <= j <= |actions|
    requires !ModeAt(s, actions, i, x).Absent? && !ModeAt(s, actions, i, x).Leaving?
    requires forall k | i <= k < j :: !GivesUp(s, actions, k, x)
    ensures !ModeAt(s, actions, j, x).Absent? && !ModeAt(s, actions, j, x).Leaving?
    decreases j - i
  {
    hide Sound, Runnable, ModeAt, EventAt;
    if i == j {
    } else {
      assert !GivesUp(s, actions, i, x);
      ModeAtNext(s, actions, i, x);
      StaysLive(s, actions, i + 1, j, x);
    }
  }

  /** Until it answers again. */
  lemma {:induction false} StaysAwake(s: State, actions: seq<Action>, i: nat, j: nat, x: Task)
    requires Sound(s) && Runnable(s, actions) && i <= j <= |actions|
    requires Awake(ModeAt(s, actions, i, x))
    requires forall k | i <= k < j :: !Answers(s, actions, k, x)
    ensures Awake(ModeAt(s, actions, j, x))
    decreases j - i
  {
    hide Sound, Runnable, ModeAt, EventAt;
    if i == j {
    } else {
      assert !Answers(s, actions, i, x);
      ModeAtNext(s, actions, i, x);
      StaysAwake(s, actions, i + 1, j, x);
    }
  }

  predicate Awake(m: Mode) { m.Ready? || m.Polling? || m.InControl? }

  // ----- what a task can rely on -----

  /** A task that answered `poll` does not run again before its condition was found true. */
  lemma PollerWaits(s: State, actions: seq<Action>, i: nat, j: nat, x: Task)
    requires Sound(s) && Runnable(s, actions) && i < j < |actions|
    requires EventAt(s, actions, i) == Answered(x, Poll) && Answers(s, actions, j, x)
    ensures exists k | i < k < j :: Passes(s, actions, k, x)
  {
    hide Sound, Runnable, ModeAt, EventAt, Passes;
    ModeAtNext(s, actions, i, x);
    ModeAtNext(s, actions, j, x);
    if forall k | i < k < j :: !Passes(s, actions, k, x) {
      StaysPolling(s, actions, i + 1, j, x);
    }
  }

  /** A task whose waker was kept is neither run nor even considered before a task wakes it. */
  lemma SleeperWaits(s: State, actions: seq<Action>, i: nat, j: nat, x: Task)
    requires Sound(s) && Runnable(s, actions) && i < j < |actions|
    requires EventAt(s, actions, i) == Answered(x, Sleep(true))
    requires Answers(s, actions, j, x) || Checks(s, actions, j, x)
    ensures exists k | i < k < j :: Wakes(s, actions, k, x)
  {
    hide Sound, Runnable, ModeAt, EventAt, Wakes;
    ModeAtNext(s, actions, i, x);
    ModeAtNext(s, actions, j, x);
    if forall k | i < k < j :: !Wakes(s, actions, k, x) {
      StaysAsleep(s, actions, i + 1, j, x);
    }
  }

  /** `x` is at one worker, in one place, unfinished and not about to be freed. */
  ghost predicate StillAtWork(s: State, x: Task) {
    && x in s.live && x !in s.asleep && x !in s.finished
    && exists w :: 0 <= w < |s.workers| && OnlyAt(s, x, w) && !Leaves(s.workers[w].pc, x)
  }

  /** The i-th action is an answer with which `x` does not give up its worker. */
  ghost predicate GoesOn(s: State, actions: seq<Action>, i: nat, x: Task)
    requires Runnable(s, actions) && i < |actions|
  {
    var e := EventAt(s, actions, i);
    && e.Answered? && e.task == x
    && (e.request in {Fork, Poll, Sleep(false)} || (e.request.Wake? && e.request.resume))
  }

  /** A task stays with the workers after a fork, a poll, a sleep that was refused, a wake that is to go on,
      or the wake of its kept waker, at least until it answers again. */
  lemma StaysAtWork(s: State, actions: seq<Action>, i: nat, j: nat, x: Task)
    requires Sound(s) && Runnable(s, actions) && i < j <= |actions|
    requires GoesOn(s, actions, i, x) || Wakes(s, actions, i, x) || EventAt(s, actions, i) == Created(x)
    requires forall k | i < k < j :: !Answers(s, actions, k, x)
    ensures StillAtWork(StateAt(s, actions, j), x)
  {
    hide Inv, PollsOk, Runnable, ModeOf, EventAt, StateAt, StillAtWork;
    ModeAtNext(s, actions, i, x);
    StaysAwake(s, actions, i + 1, j, x);
    SoundAt(s, actions, j);
    AwakeMeans(StateAt(s, actions, j), x);
  }

  lemma AwakeMeans(s: State, x: Task)
    requires Inv(s) && Awake(ModeOf(s, x))
    ensures StillAtWork(s, x)
  {
    InvMeansSafe(s);
    AwakeStays(s, x);
    hide Inv, ModeOf, At;
    var w :| 0 <= w < |s.workers| && OnlyAt(s, x, w);
    HeldMode(s, w, x);
    FinishedLeaves(s, w, x);
  }

  lemma AwakeStays(s: State, x: Task)
    requires Awake(ModeOf(s, x))
    ensures x in s.live && x !in s.asleep
  {
  }

  lemma FinishedLeaves(s: State, w: nat, x: Task)
    requires Inv(s) && w < |s.workers| && At(s.workers[w], x) > 0
    ensures x in s.finished ==> Leaves(s.workers[w].pc, x)
  {
  }

  /** A task is freed only after its own return, or its own wake that was not to go on. */
  lemma LeavesByItself(s: State, actions: seq<Action>, i: nat, j: nat, x: Task)
    requires Sound(s) && Runnable(s, actions) && i <= j <= |actions|
    requires x in StateAt(s, actions, i).live && !SomeLeaves(StateAt(s, actions, i), x)
    requires x !in StateAt(s, actions, j).live
    ensures exists k | i <= k < j :: GivesUp(s, actions, k, x)
  {
    hide Sound, Runnable, EventAt, StateAt, GivesUp;
    if forall k | i <= k < j :: !GivesUp(s, actions, k, x) {
      StaysLive(s, actions, i, j, x);
    }
  }

  /** After that it is not run or considered again before it has been freed. */
  lemma GivenUpIsGone(s: State, actions: seq<Action>, i: nat, j: nat, x: Task)
    requires Sound(s) && Runnable(s, actions) && i < j < |actions|
    requires GivesUp(s, actions, i, x) && (Answers(s, actions, j, x) || Checks(s, actions, j, x))
    ensures exists k | i < k < j :: Frees(s, actions, k, x)
  {
    hide Sound, Runnable, ModeAt, EventAt, Frees;
    ModeAtNext(s, actions, i, x);
    ModeAtNext(s, actions, j, x);
    if forall k | i < k < j :: !Frees(s, actions, k, x) {
      StaysLeaving(s, actions, i + 1, j, x);
    }
  }

  /** `x` answered `poll` before the n-th action and has not passed a check since. */
  ghost predicate PollPending(s: State, actions: seq<Action>, n: nat, x: Task)
    requires Runnable(s, actions) && n <= |actions|
  {
    n > 0 && (EventAt(s, actions, n - 1) == Answered(x, Poll) ||
              (!Passes(s, actions, n - 1, x) && PollPending(s, actions, n - 1, x)))
  }

  lemma {:induction false} PollPendingIff(s: State, actions: seq<Action>, n: nat, x: Task)
    requires Sound(s) && Runnable(s, actions) && n <= |actions| && !ModeOf(s, x).Polling?
    ensures ModeAt(s, actions, n, x).Polling? <==> PollPending(s, actions, n, x)
    decreases n
  {
    hide Inv, PollsOk, Runnable, EventAt, StateAt, ModeOf, Fits, ModeAfter;
    if n == 0 {
      StateAtStart(s, actions);
    } else {
      hide ModeAt;
      PollPendingIff(s, actions, n - 1, x);
      ModeAtNext(s, actions, n - 1, x);
      PollingAfter(ModeAt(s, actions, n - 1, x), x, EventAt(s, actions, n - 1));
    }
  }

  lemma PollingAfter(m: Mode, x: Task, e: Event)
    requires Fits(m, x, e)
    ensures ModeAfter(m, x, e).Polling? <==> e == Answered(x, Poll) || (e != Checked(x, true) && m.Polling?)
  {
  }

  /** `x` returned before the n-th action and has not been freed since. */
  ghost predicate ReturnPending(s: State, actions: seq<Action>, n: nat, x: Task)
    requires Runnable(s, actions) && n <= |actions|
  {
    n > 0 && (EventAt(s, actions, n - 1) == Answered(x, Return) ||
              (!Frees(s, actions, n - 1, x) && ReturnPending(s, actions, n - 1, x)))
  }

  lemma FinishedStep(s: State, a: Action, x: Task)
    requires Inv(s) && Enabled(s, a)
    ensures x in Next(s, a).finished <==>
      EventOf(s, a) == Answered(x, Return) || (EventOf(s, a) != Freed(x) && x in s.finished)
  {
    if a.Allocate? {
      assert a.created !in s.finished;
    }
    hide Inv;
  }

  /** In every run the finished coroutines are those that returned and whose tasks have not been freed yet. */
  lemma {:induction false} FinishedIff(s: State, actions: seq<Action>, n: nat, x: Task)
    requires Sound(s) && Runnable(s, actions) && n <= |actions| && x !in s.finished
    ensures x in StateAt(s, actions, n).finished <==> ReturnPending(s, actions, n, x)
    decreases n
  {
    hide Inv, PollsOk, Runnable, StateAt, EventOf, Next, Enabled;
    if n == 0 {
      StateAtStart(s, actions);
    } else {
      FinishedIff(s, actions, n - 1, x);
      SoundAt(s, actions, n - 1);
      StateAtNext(s, actions, n - 1);
      FinishedStep(StateAt(s, actions, n - 1), actions[n - 1], x);
    }
  }

  /** A task that was dequeued is resumed exactly if no poll of it is pending or its condition holds now;
      otherwise it is about to be enqueued again. */
  lemma CheckDecides(s: State, actions: seq<Action>, i: nat, ready: bool)
    requires Sound(s) && Runnable(s, actions) && i < |actions| && s.polling == {}
    requires actions[i].Check? && actions[i].ready == ready
    ensures var w := actions[i].w;
            && StateAt(s, actions, i).workers[w].pc.CheckTask?
            && var x := StateAt(s, actions, i).workers[w].pc.task;
               var t := StateAt(s, actions, i + 1);
               && w < |t.workers|
               && t.workers[w].pc == if ready || !PollPending(s, actions, i, x) then Running(x) else Push(x)
  {
    var w, t := actions[i].w, StateAt(s, actions, i);
    var x := t.workers[w].pc.task;
    SoundAt(s, actions, i);
    StateAtNext(s, actions, i);
    NotPolling(s, x);
    PollPendingIff(s, actions, i, x);
    hide StateAt, Runnable, ModeOf, Inv, PollsOk, Next, PollPending;
    CheckedMode(t, w, ready);
  }

  lemma NotPolling(s: State, x: Task)
    requires x !in s.polling
    ensures !ModeOf(s, x).Polling?
  {
  }

  lemma CheckedMode(s: State, w: nat, ready: bool)
    requires Inv(s) && Enabled(s, Check(w, ready))
    ensures var x, t := s.workers[w].pc.task, Next(s, Check(w, ready));
            && w < |t.workers|
            && t.workers[w].pc == if ready || !ModeOf(s, x).Polling? then Running(x) else Push(x)
  {
    HeldMode(s, w, s.workers[w].pc.task);
    HeldOnce(s, w, s.workers[w].pc.task);
  }
}
