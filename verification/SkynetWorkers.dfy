/** The workers that run the tasks of `Skynet`.  A worker looks for a task only when it has none; it holds
    the task it runs, and after a fork also the new one, until it has put them in its queue.
  */
module SkynetWorkers {
  import opened Options
  import Skynet

  /** What a worker has in its local variables. */
  datatype Worker = Free | Holds(n: nat) | HoldsTwo(n: nat, created: nat)

  datatype State = State(tree: Skynet.State, workers: seq<Worker>)

  /** Worker `w` takes task `n` from some queue, or goes on with what it holds. */
  datatype Action = TakeBy(w: nat, n: nat) | ActBy(w: nat)

  function Init(workers: nat, layer: nat): State
    requires layer > 0
  {
    State(Skynet.Init(layer), seq(workers, _ => Free))
  }

  /** The step of the tree that an action makes. */
  function StepOf(s: State, a: Action): Skynet.Action
    requires a.w < |s.workers| && (a.ActBy? ==> !s.workers[a.w].Free? && s.workers[a.w].n in s.tree.tasks)
  {
    match a
    case TakeBy(_, n) => Skynet.Take(n)
    case ActBy(w) =>
      var n := s.workers[w].n;
      if s.workers[w].HoldsTwo? || s.tree.tasks[n].loc == Skynet.Placing then Skynet.Enqueue(n) else Skynet.Step(n)
  }

  ghost predicate Enabled(s: State, a: Action) {
    && a.w < |s.workers|
    && (if a.TakeBy? then s.workers[a.w].Free? else !s.workers[a.w].Free? && s.workers[a.w].n in s.tree.tasks)
    && Skynet.Enabled(s.tree, StepOf(s, a))
  }

  /** What the worker holds afterwards. */
  function Holding(s: State, a: Action, tree: Skynet.State): Worker
    requires a.w < |s.workers| && (a.ActBy? ==> !s.workers[a.w].Free? && s.workers[a.w].n in s.tree.tasks)
  {
    match a
    case TakeBy(_, n) => Holds(n)
    case ActBy(w) =>
      match s.workers[w]
      case Free => Free
      case HoldsTwo(_, created) => Holds(created)
      case Holds(n) =>
        var before := s.tree.tasks[n];
        if n !in tree.tasks || before.loc == Skynet.Placing then Free
        else if before.pc.Fork? then HoldsTwo(n, Skynet.Child(n, before.pc.i))
        else if tree.tasks[n].loc == Skynet.Running || tree.tasks[n].loc == Skynet.Placing then Holds(n)
        else Free
  }

  function Next(s: State, a: Action): State
    requires Inv(s) && Enabled(s, a)
  {
    var tree := Skynet.Next(s.tree, StepOf(s, a));
    State(tree, s.workers[a.w := Holding(s, a, tree)])
  }

  // ----- invariant -----

  predicate InHand(w: Worker, n: nat) {
    match w
    case Free => false
    case Holds(m) => m == n
    case HoldsTwo(m, created) => m == n || created == n
  }

  predicate Held(t: Skynet.Task) {
    t.loc == Skynet.Placing || t.loc == Skynet.Running
  }

  ghost predicate WorkerOk(tree: Skynet.State, w: Worker) {
    match w
    case Free => true
    case Holds(n) => n in tree.tasks && Held(tree.tasks[n])
    case HoldsTwo(n, created) =>
      && n in tree.tasks && tree.tasks[n].loc == Skynet.Placing
      && created in tree.tasks && tree.tasks[created].loc == Skynet.Placing && n != created
  }

  ghost predicate SomeoneHolds(workers: seq<Worker>, n: nat) {
    exists w :: 0 <= w < |workers| && InHand(workers[w], n)
  }

  predicate Apart(v: Worker, w: Worker) {
    match v
    case Free => true
    case Holds(n) => !InHand(w, n)
    case HoldsTwo(n, created) => !InHand(w, n) && !InHand(w, created)
  }

  /** Tasks outside the queues and not asleep or done are held by exactly one worker. */
  ghost predicate Inv(s: State) {
    && Skynet.Inv(s.tree)
    && (forall w | 0 <= w < |s.workers| :: WorkerOk(s.tree, s.workers[w]))
    && (forall v, w | 0 <= v < w < |s.workers| :: Apart(s.workers[v], s.workers[w]))
    && (forall n | n in s.tree.tasks && Held(s.tree.tasks[n]) :: SomeoneHolds(s.workers, n))
  }

  /** What a step of task `n` does to the locations of the other tasks: a sleeper may be queued, and a fork
      adds one task in the hands of the forker's worker. */
  lemma Locations(tree: Skynet.State, a: Skynet.Action, m: nat)
    requires Skynet.Inv(tree) && Skynet.Enabled(tree, a)
    ensures var t := Skynet.Next(tree, a);
      && a.n in t.tasks
      && (m in tree.tasks && m != a.n ==>
            && m in t.tasks && (Held(t.tasks[m]) <==> Held(tree.tasks[m]))
            && (Held(tree.tasks[m]) ==> t.tasks[m] == tree.tasks[m]))
      && (m in t.tasks && m !in tree.tasks ==>
            && a.Step? && tree.tasks[a.n].pc.Fork? && m == Skynet.Child(a.n, tree.tasks[a.n].pc.i)
            && t.tasks[m].loc == Skynet.Placing)
  {
    assert Skynet.NodeOk(tree, a.n);
    hide Skynet.Sum, Skynet.PartialSum, Skynet.PromiseOk, Skynet.AwaitStep, Skynet.FulfillStep;
    if a.Step? && tree.tasks[a.n].pc.Wake? {
      Skynet.WakerSleeps(tree, a.n);
    }
    if a.Step? && tree.tasks[a.n].pc.Fork? {
      Skynet.ForkedSoFar(tree, a.n);
    }
  }

  /** The task that an action concerns is in the hands of no other worker, and of no worker when it is taken. */
  lemma TouchedAlone(s: State, a: Action, v: nat)
    requires Inv(s) && Enabled(s, a) && v < |s.workers| && (a.TakeBy? || v != a.w)
    ensures !InHand(s.workers[v], StepOf(s, a).n)
  {
    hide Skynet.Inv;
    assert WorkerOk(s.tree, s.workers[v]);
    if a.ActBy? {
      if v < a.w { assert Apart(s.workers[v], s.workers[a.w]); } else { assert Apart(s.workers[a.w], s.workers[v]); }
    }
  }

  lemma OtherWorkerOk(s: State, a: Action, v: nat)
    requires Inv(s) && Enabled(s, a) && v < |s.workers| && v != a.w
    ensures WorkerOk(Next(s, a).tree, s.workers[v])
  {
    hide Skynet.Inv, Skynet.Next, Skynet.Enabled;
    assert WorkerOk(s.tree, s.workers[v]);
    TouchedAlone(s, a, v);
    match s.workers[v]
    case Free =>
    case Holds(m) => Locations(s.tree, StepOf(s, a), m);
    case HoldsTwo(m, created) =>
      Locations(s.tree, StepOf(s, a), m);
      Locations(s.tree, StepOf(s, a), created);
  }

  /** What the acting worker holds afterwards, and that it holds the touched task if that is held at all. */
  lemma ActingWorkerOk(s: State, a: Action)
    requires Inv(s) && Enabled(s, a)
    ensures var t := Next(s, a); var n := StepOf(s, a).n;
      && WorkerOk(t.tree, t.workers[a.w])
      && (n in t.tree.tasks && Held(t.tree.tasks[n]) ==> InHand(t.workers[a.w], n))
      && (forall m | InHand(t.workers[a.w], m) :: m == n || InHand(s.workers[a.w], m) || m !in s.tree.tasks)
      && (forall m | InHand(s.workers[a.w], m) && m != n :: InHand(t.workers[a.w], m))
      && (forall m | m in t.tree.tasks && m !in s.tree.tasks :: InHand(t.workers[a.w], m))
  {
    var action := StepOf(s, a);
    var n := action.n;
    assert WorkerOk(s.tree, s.workers[a.w]);
    assert Skynet.NodeOk(s.tree, n);
    hide Skynet.Sum, Skynet.PartialSum, Skynet.PromiseOk, Skynet.AwaitStep, Skynet.FulfillStep;
    forall m ensures var t := Skynet.Next(s.tree, action);
      m in t.tasks && m !in s.tree.tasks ==>
        && action.Step? && s.tree.tasks[n].pc.Fork? && m == Skynet.Child(n, s.tree.tasks[n].pc.i)
        && t.tasks[m].loc == Skynet.Placing
    {
      Locations(s.tree, action, m);
    }
    if action.Step? && s.tree.tasks[n].pc.Fork? {
      Skynet.ForkedSoFar(s.tree, n);
    }
    if s.workers[a.w].HoldsTwo? {
      Locations(s.tree, action, s.workers[a.w].created);
    }
  }

  lemma NextInv(s: State, a: Action)
    requires Inv(s) && Enabled(s, a)
    ensures Inv(Next(s, a))
  {
    var t, action := Next(s, a), StepOf(s, a);
    Skynet.NextInv(s.tree, action);
    ActingWorkerOk(s, a);
    hide Skynet.Inv, Skynet.Next, Holding, WorkerOk;
    forall v | 0 <= v < |t.workers| ensures WorkerOk(t.tree, t.workers[v]) {
      if v != a.w { OtherWorkerOk(s, a, v); }
    }
    forall v, w | 0 <= v < w < |t.workers| ensures Apart(t.workers[v], t.workers[w]) {
      StillApart(s, a, v, w);
    }
    forall m | m in t.tree.tasks && Held(t.tree.tasks[m]) ensures SomeoneHolds(t.workers, m) {
      StillHeld(s, a, m);
    }
  }

  lemma StillApart(s: State, a: Action, v: nat, w: nat)
    requires Inv(s) && Enabled(s, a) && v < w < |s.workers|
    ensures Apart(Next(s, a).workers[v], Next(s, a).workers[w])
  {
    assert Apart(s.workers[v], s.workers[w]);
    ActingWorkerOk(s, a);
    var t := Next(s, a);
    hide Skynet.Inv, Skynet.Next, Holding;
    if v == a.w || w == a.w {
      var other := if v == a.w then w else v;
      assert WorkerOk(s.tree, s.workers[other]);
      TouchedAlone(s, a, other);
    }
  }

  lemma StillHeld(s: State, a: Action, m: nat)
    requires Inv(s) && Enabled(s, a) && m in Next(s, a).tree.tasks && Held(Next(s, a).tree.tasks[m])
    ensures SomeoneHolds(Next(s, a).workers, m)
  {
    ActingWorkerOk(s, a);
    Locations(s.tree, StepOf(s, a), m);
    var t := Next(s, a);
    hide Skynet.Inv, Skynet.Next, Holding, WorkerOk;
    if m == StepOf(s, a).n || m !in s.tree.tasks {
      assert InHand(t.workers[a.w], m);
    } else {
      assert SomeoneHolds(s.workers, m);
      var w :| 0 <= w < |s.workers| && InHand(s.workers[w], m);
      assert InHand(t.workers[w], m);
    }
  }

  // ----- no deadlock with any number of workers -----

  /** The worker that holds a running task can make its next step. */
  lemma HolderOf(s: State, n: nat) returns (w: nat)
    requires Inv(s) && n in s.tree.tasks && s.tree.tasks[n].loc == Skynet.Running
    ensures w < |s.workers| && s.workers[w] == Holds(n) && Enabled(s, ActBy(w))
    ensures StepOf(s, ActBy(w)) == Skynet.Step(n)
  {
    hide Skynet.Inv;
    assert SomeoneHolds(s.workers, n);
    w :| 0 <= w < |s.workers| && InHand(s.workers[w], n);
    assert WorkerOk(s.tree, s.workers[w]);
  }

  /** A worker that holds something makes a step that changes the tree, or the one it waits for does. */
  lemma BusyCanMove(s: State, w: nat) returns (a: Action)
    requires Inv(s) && w < |s.workers| && !s.workers[w].Free?
    ensures Enabled(s, a) && Next(s, a).tree != s.tree
  {
    assert WorkerOk(s.tree, s.workers[w]);
    var n := s.workers[w].n;
    if s.tree.tasks[n].loc == Skynet.Running {
      var holder := Skynet.LockHolder(s.tree, n);
      var v := HolderOf(s, holder);
      Skynet.StepChanges(s.tree, holder);
      a := ActBy(v);
    } else {
      a := ActBy(w);
      hide Skynet.Inv;
      assert StepOf(s, a) == Skynet.Enqueue(n);
    }
  }

  lemma HeldBySomeone(s: State, n: nat)
    requires Inv(s) && n in s.tree.tasks
    ensures Held(s.tree.tasks[n]) ==> exists w :: 0 <= w < |s.workers| && InHand(s.workers[w], n)
  {
    hide Skynet.Inv;
    assert Held(s.tree.tasks[n]) ==> SomeoneHolds(s.workers, n);
  }

  /** With one worker or more: while a task is unfinished, some worker can make a step that changes the tree;
      a task is taken only by a worker that has none. */
  lemma SomeWorkerCanMove(s: State, n: nat) returns (a: Action)
    requires Inv(s) && |s.workers| > 0 && n in s.tree.tasks && s.tree.tasks[n].loc != Skynet.Done
    ensures Enabled(s, a) && Next(s, a).tree != s.tree
  {
    if w: nat :| w < |s.workers| && !s.workers[w].Free? {
      a := BusyCanMove(s, w);
    } else {
      var m := n;
      if s.tree.tasks[n].loc == Skynet.Asleep {
        m := Skynet.SleeperWaitsForRunning(s.tree, n);
      }
      HeldBySomeone(s, m);
      hide Skynet.Inv;
      a := TakeBy(0, m);
      assert StepOf(s, a) == Skynet.Take(m);
    }
  }

  // ----- all runs -----

  ghost predicate Runnable(s: State, actions: seq<Action>)
    requires Inv(s)
    decreases |actions|
  {
    actions == [] ||
    (Enabled(s, actions[0]) && (NextInv(s, actions[0]); Runnable(Next(s, actions[0]), actions[1..])))
  }

  ghost function Run(s: State, actions: seq<Action>): (t: State)
    requires Inv(s) && Runnable(s, actions)
    ensures Inv(t) && |t.workers| == |s.workers|
    decreases |actions|
  {
    if actions == [] then s
    else
      NextInv(s, actions[0]);
      Run(Next(s, actions[0]), actions[1..])
  }

  /** The steps of the tree that a run makes. */
  ghost function TreeSteps(s: State, actions: seq<Action>): (steps: seq<Skynet.Action>)
    requires Inv(s) && Runnable(s, actions)
    ensures |steps| == |actions|
    decreases |actions|
  {
    if actions == [] then []
    else
      NextInv(s, actions[0]);
      [StepOf(s, actions[0])] + TreeSteps(Next(s, actions[0]), actions[1..])
  }

  /** A run of the workers is a run of the tree. */
  lemma {:induction false} RunProjects(s: State, actions: seq<Action>)
    requires Inv(s) && Runnable(s, actions)
    ensures Skynet.Runnable(s.tree, TreeSteps(s, actions))
    ensures Skynet.Run(s.tree, TreeSteps(s, actions)) == Run(s, actions).tree
    decreases |actions|
  {
    hide Inv, Next, Skynet.Inv, Skynet.Next, StepOf, Skynet.Enabled;
    if actions == [] {
    } else {
      NextInv(s, actions[0]);
      ProjectStep(s, actions[0]);
      var rest := TreeSteps(Next(s, actions[0]), actions[1..]);
      RunProjects(Next(s, actions[0]), actions[1..]);
      assert TreeSteps(s, actions)[1..] == rest;
    }
  }

  lemma ProjectStep(s: State, a: Action)
    requires Inv(s) && Enabled(s, a)
    ensures Skynet.Inv(s.tree) && Skynet.Enabled(s.tree, StepOf(s, a))
    ensures Next(s, a).tree == Skynet.Next(s.tree, StepOf(s, a))
  {
    hide Skynet.Inv, Skynet.Next;
  }

  lemma InitInv(workers: nat, layer: nat)
    requires layer > 0
    ensures Inv(Init(workers, layer))
  {
  }

  /** For any depth and any number of workers from one on, in every run: the tasks together make a bounded
      number of steps that change anything; as long as one is unfinished some worker can make such a step;
      and once all are done the root promise holds L(L-1)/2. */
  lemma EveryRunFinishes(workers: nat, depth: nat, actions: seq<Action>)
    requires workers > 0 && depth > 0
    requires Inv(Init(workers, Skynet.Pow10(depth - 1)))
    requires Runnable(Init(workers, Skynet.Pow10(depth - 1)), actions)
    ensures var l := Skynet.Pow10(depth - 1);
      var start := Init(workers, l);
      var s := Run(start, actions);
      && Skynet.Runnable(start.tree, TreeSteps(start, actions))
      && Skynet.AllMoves(start.tree, TreeSteps(start, actions)) <= 10 * l * Skynet.LAST_PROGRESS
      && ((exists n :: n in s.tree.tasks && s.tree.tasks[n].loc != Skynet.Done) ==>
            exists a :: Enabled(s, a) && Next(s, a).tree != s.tree)
      && ((forall n | n in s.tree.tasks :: s.tree.tasks[n].loc == Skynet.Done) ==>
            && 1 in s.tree.promises
            && s.tree.promises[1] == Skynet.Promise(false, Skynet.Fulfilled, Some(l * (l - 1) / 2)))
  {
    var l := Skynet.Pow10(depth - 1);
    var start := Init(workers, l);
    var s := Run(start, actions);
    RunProjects(start, actions);
    Skynet.EveryRunIsBounded(l, TreeSteps(start, actions));
    Skynet.QuietMeansDone(depth, TreeSteps(start, actions));
    if n :| n in s.tree.tasks && s.tree.tasks[n].loc != Skynet.Done {
      var a := SomeWorkerCanMove(s, n);
    }
  }
}
