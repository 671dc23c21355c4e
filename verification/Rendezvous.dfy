/** The semaphore rendezvous of `c_solution/cooperation.c`: any number of threads call Cooperation,
    and every semaphore operation and every access to a global variable is one step.
  */
module Rendezvous {
  import opened Sequences
  import opened Sums

  type Colour = nat

  /** Each state is named after the step that comes next; `pair` and `mine` are what the caller knows. */
  datatype Pc =
    | Out
    | WaitAtMostTwo(mine: Colour)
    | WaitMutex(mine: Colour)
    | TestFirstCall(mine: Colour)
    // the first of a pair
    | StoreA(mine: Colour)
    | ClearFirstCall(mine: Colour)
    | PostMutex(mine: Colour)
    | WaitSemPriv(mine: Colour)
    | LoadB(mine: Colour)
    | PostMutexAgain(mine: Colour, other: Colour)
    | PostAtMostTwo(mine: Colour, other: Colour, pair: nat)
    | PostAtMostTwoAgain(mine: Colour, other: Colour, pair: nat)
    // the second of a pair
    | SetFirstCall(mine: Colour)
    | StoreB(mine: Colour)
    | LoadA(mine: Colour)
    | PostSemPriv(mine: Colour, other: Colour)

  datatype Pair = Pair(first: nat, firstColour: Colour, second: nat, secondColour: Colour)

  /** History: how far the current pair has come. */
  datatype Stage = Nobody | Half(first: nat, colour: Colour) | Paired | Handed

  datatype State = State(
    atMostTwo: nat, mutex: nat, semPriv: nat,
    firstCall: bool, aColour: Colour, bColour: Colour,
    threads: seq<Pc>,
    stage: Stage, pairs: seq<Pair>,
    firstGot: map<nat, Colour>, secondGot: map<nat, Colour>)   // by pair: the colour its callers returned

  datatype Action = CallCooperation(id: nat, c: Colour) | Step(id: nat)

  function Init(n: nat): State {
    State(2, 1, 0, true, 0, 0, seq(n, i => Out), Nobody, [], map[], map[])
  }

  function Goto(s: State, id: nat, pc: Pc): State
    requires id < |s.threads|
  {
    s.(threads := s.threads[id := pc])
  }

  /** Getting in. */
  function EnterStep(s: State, id: nat): (t: State)
    requires id < |s.threads|
    ensures |t.threads| == |s.threads|
  {
    match s.threads[id]
    case WaitAtMostTwo(c) =>
      if s.atMostTwo == 0 then s else Goto(s.(atMostTwo := s.atMostTwo - 1), id, WaitMutex(c))
    case WaitMutex(c) =>
      if s.mutex == 0 then s else Goto(s.(mutex := s.mutex - 1), id, TestFirstCall(c))
    case TestFirstCall(c) =>
      if s.firstCall then Goto(s, id, StoreA(c))
      else if s.stage.Half? then
        Goto(s.(stage := Paired, pairs := s.pairs + [Pair(s.stage.first, s.stage.colour, id, c)]), id, SetFirstCall(c))
      else Goto(s, id, SetFirstCall(c))
    case _ => s
  }

  /** The first of a pair, until it has its partner's colour. */
  function FirstStep(s: State, id: nat): (t: State)
    requires id < |s.threads|
    ensures |t.threads| == |s.threads|
  {
    match s.threads[id]
    case StoreA(c) => Goto(s.(aColour := c, stage := Half(id, c)), id, ClearFirstCall(c))
    case ClearFirstCall(c) => Goto(s.(firstCall := false), id, PostMutex(c))
    case PostMutex(c) => Goto(s.(mutex := s.mutex + 1), id, WaitSemPriv(c))
    case WaitSemPriv(c) =>
      if s.semPriv == 0 then s else Goto(s.(semPriv := s.semPriv - 1), id, LoadB(c))
    case LoadB(c) => Goto(s, id, PostMutexAgain(c, s.bColour))
    case _ => s
  }

  /** The end of the first one's call. */
  function LeaveStep(s: State, id: nat): (t: State)
    requires id < |s.threads|
    ensures |t.threads| == |s.threads|
  {
    match s.threads[id]
    case PostMutexAgain(c, other) =>
      Goto(s.(mutex := s.mutex + 1, stage := Nobody), id, PostAtMostTwo(c, other, LastPair(s)))
    case PostAtMostTwo(c, other, pair) =>
      Goto(s.(atMostTwo := s.atMostTwo + 1), id, PostAtMostTwoAgain(c, other, pair))
    case PostAtMostTwoAgain(c, other, pair) =>
      Goto(s.(atMostTwo := s.atMostTwo + 1, firstGot := s.firstGot[pair := other]), id, Out)
    case _ => s
  }

  function LastPair(s: State): nat { if s.pairs == [] then 0 else |s.pairs| - 1 }

  /** The second of a pair. */
  function SecondStep(s: State, id: nat): (t: State)
    requires id < |s.threads|
    ensures |t.threads| == |s.threads|
  {
    match s.threads[id]
    case SetFirstCall(c) => Goto(s.(firstCall := true), id, StoreB(c))
    case StoreB(c) => Goto(s.(bColour := c), id, LoadA(c))
    case LoadA(c) => Goto(s, id, PostSemPriv(c, s.aColour))
    case PostSemPriv(c, other) =>
      Goto(s.(semPriv := s.semPriv + 1, stage := Handed, secondGot := s.secondGot[LastPair(s) := other]), id, Out)
    case _ => s
  }

  predicate Entering(pc: Pc) { pc.WaitAtMostTwo? || pc.WaitMutex? || pc.TestFirstCall? }

  predicate IsFirst(pc: Pc) { pc.StoreA? || pc.ClearFirstCall? || pc.PostMutex? || pc.WaitSemPriv? || pc.LoadB? }

  predicate Leaving(pc: Pc) { pc.PostMutexAgain? || pc.PostAtMostTwo? || pc.PostAtMostTwoAgain? }

  predicate IsSecond(pc: Pc) { pc.SetFirstCall? || pc.StoreB? || pc.LoadA? || pc.PostSemPriv? }

  function NextStep(s: State, id: nat): (t: State)
    requires id < |s.threads|
    ensures |t.threads| == |s.threads|
  {
    var pc := s.threads[id];
    if pc.Out? then s
    else if Entering(pc) then EnterStep(s, id)
    else if IsFirst(pc) then FirstStep(s, id)
    else if Leaving(pc) then LeaveStep(s, id)
    else SecondStep(s, id)
  }

  function Next(s: State, action: Action): State {
    match action
    case CallCooperation(id, c) =>
      if id < |s.threads| && s.threads[id].Out? then Goto(s, id, WaitAtMostTwo(c)) else s
    case Step(id) => if id < |s.threads| then NextStep(s, id) else s
  }

  // ----- counting tokens of AtMostTwo -----

  /** How many tokens of AtMostTwo a thread has to give back. */
  function Weight(pc: Pc): nat {
    match pc
    case Out => 0
    case WaitAtMostTwo(_) => 0
    case LoadB(_) => 2
    case PostMutexAgain(_, _) => 2
    case PostAtMostTwo(_, _, _) => 2
    case _ => 1
  }

  // ----- invariant -----

  /** The threads that have the lock, either from Mutex or handed over through SemPriv. */
  predicate HasLock(pc: Pc) {
    || pc.TestFirstCall? || pc.StoreA? || pc.ClearFirstCall? || pc.PostMutex? || pc.LoadB? || pc.PostMutexAgain?
    || pc.SetFirstCall? || pc.StoreB? || pc.LoadA? || pc.PostSemPriv?
  }

  function LockWeight(pc: Pc): nat { if HasLock(pc) then 1 else 0 }

  /** Mutex, SemPriv and the threads share exactly one lock. */
  predicate OneLock(s: State) {
    s.mutex + s.semPriv + Total(s.threads, LockWeight) == 1
  }

  predicate Exclusive(s: State) {
    && (s.mutex + s.semPriv > 0 ==> forall i | 0 <= i < |s.threads| :: !HasLock(s.threads[i]))
    && s.mutex + s.semPriv <= 1
    && (forall i, j | 0 <= i < j < |s.threads| :: !(HasLock(s.threads[i]) && HasLock(s.threads[j])))
  }

  lemma OneLockIsExclusive(s: State)
    requires OneLock(s)
    ensures Exclusive(s)
  {
    forall i | 0 <= i < |s.threads| && HasLock(s.threads[i])
      ensures s.mutex + s.semPriv == 0
      ensures forall j | 0 <= j < |s.threads| && j != i :: !HasLock(s.threads[j])
    {
      TotalUpdate(s.threads, i, Out, LockWeight);
      forall j | 0 <= j < |s.threads| && j != i ensures !HasLock(s.threads[j]) {
        TotalUpdate(s.threads[i := Out], j, Out, LockWeight);
      }
    }
  }

  predicate InPair(pc: Pc) {
    || pc.ClearFirstCall? || pc.PostMutex? || pc.WaitSemPriv? || pc.LoadB? || pc.PostMutexAgain?
    || pc.SetFirstCall? || pc.StoreB? || pc.LoadA? || pc.PostSemPriv?
  }

  /** Which threads belong to the pair under way, and what the shared variables hold for it. */
  predicate StageOk(s: State) {
    match s.stage
    case Nobody => s.firstCall && s.semPriv == 0
    case Half(f, ca) =>
      && f < |s.threads| && s.aColour == ca && s.semPriv == 0
      && (|| (s.threads[f] == ClearFirstCall(ca) && s.firstCall)
          || (s.threads[f] in {PostMutex(ca), WaitSemPriv(ca)} && !s.firstCall))
    case Paired =>
      && s.pairs != [] && s.semPriv == 0
      && var p := s.pairs[|s.pairs| - 1];
      && p.first < |s.threads| && p.second < |s.threads|
      && s.aColour == p.firstColour && s.threads[p.first] == WaitSemPriv(p.firstColour)
      && (|| (s.threads[p.second] == SetFirstCall(p.secondColour) && !s.firstCall)
          || (s.threads[p.second] == StoreB(p.secondColour) && s.firstCall)
          || (s.threads[p.second] == LoadA(p.secondColour) && s.firstCall && s.bColour == p.secondColour)
          || (s.threads[p.second] == PostSemPriv(p.secondColour, p.firstColour) && s.firstCall
              && s.bColour == p.secondColour))
    case Handed =>
      && s.pairs != [] && s.firstCall
      && var p := s.pairs[|s.pairs| - 1];
      && p.first < |s.threads| && s.bColour == p.secondColour
      && (|| (s.semPriv == 1 && s.threads[p.first] == WaitSemPriv(p.firstColour))
          || (s.semPriv == 0 && s.threads[p.first] == LoadB(p.firstColour))
          || (s.semPriv == 0 && s.threads[p.first] == PostMutexAgain(p.firstColour, p.secondColour)))
  }

  /** The members of the pair under way. */
  predicate Member(s: State, id: nat) {
    match s.stage
    case Nobody => false
    case Half(f, _) => id == f
    case Paired => s.pairs != [] && (id == s.pairs[|s.pairs| - 1].first || id == s.pairs[|s.pairs| - 1].second)
    case Handed => s.pairs != [] && id == s.pairs[|s.pairs| - 1].first
  }

  predicate ThreadOk(s: State, id: nat, pc: Pc) {
    && (InPair(pc) ==> Member(s, id))
    && (pc.StoreA? ==> s.stage.Nobody?)
    && (pc.TestFirstCall? ==> s.stage.Nobody? || s.stage.Half?)
    && (pc.PostAtMostTwo? || pc.PostAtMostTwoAgain? ==>
          pc.pair < |s.pairs| && s.pairs[pc.pair] == Pair(id, pc.mine, s.pairs[pc.pair].second, pc.other))
  }

  /** The first caller of pair `p` has not returned yet. */
  predicate FirstPending(s: State, p: nat)
    requires p < |s.pairs|
  {
    || (p == |s.pairs| - 1 && (s.stage.Paired? || s.stage.Handed?))
    || var f := s.pairs[p].first;
       f < |s.threads| && (s.threads[f].PostAtMostTwo? || s.threads[f].PostAtMostTwoAgain?) && s.threads[f].pair == p
  }

  predicate SecondPending(s: State, p: nat) {
    p == |s.pairs| - 1 && s.stage.Paired?
  }

  /** The callers of pair `p` are two threads; whoever has returned got the colour of the other. */
  predicate PairOk(s: State, p: nat)
    requires p < |s.pairs|
  {
    var pair := s.pairs[p];
    && pair.first != pair.second
    && (p in s.firstGot <==> !FirstPending(s, p)) && (p in s.secondGot <==> !SecondPending(s, p))
    && (p in s.firstGot ==> s.firstGot[p] == pair.secondColour)
    && (p in s.secondGot ==> s.secondGot[p] == pair.firstColour)
  }

  ghost predicate Inv(s: State) {
    && OneLock(s) && StageOk(s)
    && s.atMostTwo + s.semPriv + Total(s.threads, Weight) == 2
    && (forall id | 0 <= id < |s.threads| :: ThreadOk(s, id, s.threads[id]))
    && (forall p | 0 <= p < |s.pairs| :: PairOk(s, p))
    && (forall p | p in s.firstGot :: p < |s.pairs|) && (forall p | p in s.secondGot :: p < |s.pairs|)
  }

  lemma InitInv(n: nat)
    ensures Inv(Init(n))
  {
    TotalZero(Init(n).threads, Weight);
    TotalZero(Init(n).threads, LockWeight);
  }

  lemma EnterCounts(s: State, id: nat)
    requires id < |s.threads| && Entering(s.threads[id]) && OneLock(s) && StageOk(s) && ThreadOk(s, id, s.threads[id])
    requires s.atMostTwo + s.semPriv + Total(s.threads, Weight) == 2
    ensures var t := EnterStep(s, id); OneLock(t) && t.atMostTwo + t.semPriv + Total(t.threads, Weight) == 2
  {
    var t := EnterStep(s, id);
    TotalUpdate(s.threads, id, t.threads[id], Weight);
    TotalUpdate(s.threads, id, t.threads[id], LockWeight);
    hide Total, StageOk, ThreadOk;
  }

  lemma EnterStage(s: State, id: nat)
    requires id < |s.threads| && Entering(s.threads[id]) && Exclusive(s) && StageOk(s) && ThreadOk(s, id, s.threads[id])
    ensures StageOk(EnterStep(s, id))
  {
  }

  lemma EnterThreads(s: State, id: nat, i: nat)
    requires id < |s.threads| && Entering(s.threads[id]) && Exclusive(s) && StageOk(s) && ThreadOk(s, id, s.threads[id])
    requires i < |s.threads| && ThreadOk(s, i, s.threads[i])
    ensures ThreadOk(EnterStep(s, id), i, EnterStep(s, id).threads[i])
  {
    if s.threads[id].TestFirstCall? {
      TestThreads(s, id, i);
    } else {
      hide StageOk, Exclusive;
    }
  }

  lemma TestThreads(s: State, id: nat, i: nat)
    requires id < |s.threads| && s.threads[id].TestFirstCall?
    requires Exclusive(s) && StageOk(s) && ThreadOk(s, id, s.threads[id])
    requires i < |s.threads| && ThreadOk(s, i, s.threads[i])
    ensures ThreadOk(EnterStep(s, id), i, EnterStep(s, id).threads[i])
  {
    assert i != id ==> !HasLock(s.threads[i]);
    hide Exclusive;
  }

  lemma EnterPairs(s: State, id: nat, p: nat)
    requires id < |s.threads| && Entering(s.threads[id]) && Exclusive(s) && StageOk(s) && ThreadOk(s, id, s.threads[id])
    requires p < |s.pairs| ==> PairOk(s, p)
    requires (forall p | p in s.firstGot :: p < |s.pairs|) && (forall p | p in s.secondGot :: p < |s.pairs|)
    ensures var t := EnterStep(s, id);
      && (p < |t.pairs| ==> PairOk(t, p))
      && (forall p | p in t.firstGot :: p < |t.pairs|) && (forall p | p in t.secondGot :: p < |t.pairs|)
  {
    if s.threads[id].TestFirstCall? && !s.firstCall && s.stage.Half? {
      PairOpened(s, id, p);
    } else {
      hide StageOk, Exclusive;
    }
  }

  lemma PairOpened(s: State, id: nat, p: nat)
    requires id < |s.threads| && s.threads[id].TestFirstCall? && !s.firstCall && s.stage.Half?
    requires Exclusive(s) && StageOk(s) && ThreadOk(s, id, s.threads[id])
    requires p < |s.pairs| ==> PairOk(s, p)
    requires (forall p | p in s.firstGot :: p < |s.pairs|) && (forall p | p in s.secondGot :: p < |s.pairs|)
    ensures var t := EnterStep(s, id);
      && (p < |t.pairs| ==> PairOk(t, p))
      && (forall p | p in t.firstGot :: p < |t.pairs|) && (forall p | p in t.secondGot :: p < |t.pairs|)
  {
    hide Exclusive;
  }

  lemma FirstCounts(s: State, id: nat)
    requires id < |s.threads| && IsFirst(s.threads[id]) && OneLock(s) && StageOk(s) && ThreadOk(s, id, s.threads[id])
    requires s.atMostTwo + s.semPriv + Total(s.threads, Weight) == 2
    ensures var t := FirstStep(s, id); OneLock(t) && t.atMostTwo + t.semPriv + Total(t.threads, Weight) == 2
  {
    var t := FirstStep(s, id);
    TotalUpdate(s.threads, id, t.threads[id], Weight);
    TotalUpdate(s.threads, id, t.threads[id], LockWeight);
    hide Total, StageOk, ThreadOk;
  }

  lemma FirstStage(s: State, id: nat)
    requires id < |s.threads| && IsFirst(s.threads[id]) && Exclusive(s) && StageOk(s) && ThreadOk(s, id, s.threads[id])
    ensures StageOk(FirstStep(s, id))
  {
  }

  lemma FirstThreads(s: State, id: nat, i: nat)
    requires id < |s.threads| && IsFirst(s.threads[id]) && Exclusive(s) && StageOk(s) && ThreadOk(s, id, s.threads[id])
    requires i < |s.threads| && ThreadOk(s, i, s.threads[i])
    ensures ThreadOk(FirstStep(s, id), i, FirstStep(s, id).threads[i])
  {
  }

  lemma FirstPairs(s: State, id: nat, p: nat)
    requires id < |s.threads| && IsFirst(s.threads[id]) && Exclusive(s) && StageOk(s) && ThreadOk(s, id, s.threads[id])
    requires p < |s.pairs| ==> PairOk(s, p)
    requires (forall p | p in s.firstGot :: p < |s.pairs|) && (forall p | p in s.secondGot :: p < |s.pairs|)
    ensures var t := FirstStep(s, id);
      && (p < |t.pairs| ==> PairOk(t, p))
      && (forall p | p in t.firstGot :: p < |t.pairs|) && (forall p | p in t.secondGot :: p < |t.pairs|)
  {
  }

  lemma LeaveCounts(s: State, id: nat)
    requires id < |s.threads| && Leaving(s.threads[id]) && OneLock(s) && StageOk(s) && ThreadOk(s, id, s.threads[id])
    requires s.atMostTwo + s.semPriv + Total(s.threads, Weight) == 2
    ensures var t := LeaveStep(s, id); OneLock(t) && t.atMostTwo + t.semPriv + Total(t.threads, Weight) == 2
  {
    var t := LeaveStep(s, id);
    TotalUpdate(s.threads, id, t.threads[id], Weight);
    TotalUpdate(s.threads, id, t.threads[id], LockWeight);
    hide Total, StageOk, ThreadOk;
  }

  lemma LeaveStage(s: State, id: nat)
    requires id < |s.threads| && Leaving(s.threads[id]) && Exclusive(s) && StageOk(s) && ThreadOk(s, id, s.threads[id])
    ensures StageOk(LeaveStep(s, id))
  {
  }

  lemma LeaveThreads(s: State, id: nat, i: nat)
    requires id < |s.threads| && Leaving(s.threads[id]) && Exclusive(s) && StageOk(s) && ThreadOk(s, id, s.threads[id])
    requires i < |s.threads| && ThreadOk(s, i, s.threads[i])
    ensures ThreadOk(LeaveStep(s, id), i, LeaveStep(s, id).threads[i])
  {
    if s.threads[id].PostMutexAgain? {
      LockReleased(s, id, i);
    } else {
      hide StageOk, Exclusive;
    }
  }

  lemma LockReleased(s: State, id: nat, i: nat)
    requires id < |s.threads| && s.threads[id].PostMutexAgain?
    requires Exclusive(s) && StageOk(s) && ThreadOk(s, id, s.threads[id])
    requires i < |s.threads| && ThreadOk(s, i, s.threads[i])
    ensures ThreadOk(LeaveStep(s, id), i, LeaveStep(s, id).threads[i])
  {
    assert s.stage.Handed? && id == s.pairs[|s.pairs| - 1].first;
    if i != id {
      assert !HasLock(s.threads[i]);
      assert !InPair(s.threads[i]);
    }
    hide StageOk, Exclusive;
  }

  lemma LeavePairs(s: State, id: nat, p: nat)
    requires id < |s.threads| && Leaving(s.threads[id])
    requires Exclusive(s) && StageOk(s) && ThreadOk(s, id, s.threads[id])
    requires p < |s.pairs| ==> PairOk(s, p)
    requires (forall p | p in s.firstGot :: p < |s.pairs|) && (forall p | p in s.secondGot :: p < |s.pairs|)
    ensures var t := LeaveStep(s, id);
      && (p < |t.pairs| ==> PairOk(t, p))
      && (forall p | p in t.firstGot :: p < |t.pairs|) && (forall p | p in t.secondGot :: p < |t.pairs|)
  {
    hide Exclusive, StageOk, ThreadOk, PairOk, LeaveStep;
    if s.threads[id].PostMutexAgain? {
      PairReleased(s, id, p);
    } else if s.threads[id].PostAtMostTwo? {
      PairStays(s, id, p);
    } else {
      FirstReturns(s, id, p);
    }
  }

  lemma PairReleased(s: State, id: nat, p: nat)
    requires id < |s.threads| && s.threads[id].PostMutexAgain?
    requires Exclusive(s) && StageOk(s) && ThreadOk(s, id, s.threads[id])
    requires p < |s.pairs| ==> PairOk(s, p)
    requires (forall p | p in s.firstGot :: p < |s.pairs|) && (forall p | p in s.secondGot :: p < |s.pairs|)
    ensures var t := LeaveStep(s, id);
      && (p < |t.pairs| ==> PairOk(t, p))
      && (forall p | p in t.firstGot :: p < |t.pairs|) && (forall p | p in t.secondGot :: p < |t.pairs|)
  {
    assert s.stage.Handed? && id == s.pairs[|s.pairs| - 1].first;
    hide Exclusive, StageOk;
  }

  lemma PairStays(s: State, id: nat, p: nat)
    requires id < |s.threads| && s.threads[id].PostAtMostTwo?
    requires Exclusive(s) && StageOk(s) && ThreadOk(s, id, s.threads[id])
    requires p < |s.pairs| ==> PairOk(s, p)
    requires (forall p | p in s.firstGot :: p < |s.pairs|) && (forall p | p in s.secondGot :: p < |s.pairs|)
    ensures var t := LeaveStep(s, id);
      && (p < |t.pairs| ==> PairOk(t, p))
      && (forall p | p in t.firstGot :: p < |t.pairs|) && (forall p | p in t.secondGot :: p < |t.pairs|)
  {
    hide Exclusive, StageOk;
  }

  lemma FirstReturns(s: State, id: nat, p: nat)
    requires id < |s.threads| && s.threads[id].PostAtMostTwoAgain?
    requires Exclusive(s) && StageOk(s) && ThreadOk(s, id, s.threads[id])
    requires p < |s.pairs| ==> PairOk(s, p)
    requires (forall p | p in s.firstGot :: p < |s.pairs|) && (forall p | p in s.secondGot :: p < |s.pairs|)
    ensures var t := LeaveStep(s, id);
      && (p < |t.pairs| ==> PairOk(t, p))
      && (forall p | p in t.firstGot :: p < |t.pairs|) && (forall p | p in t.secondGot :: p < |t.pairs|)
  {
    assert s.stage.Paired? ==> s.threads[id] != WaitSemPriv(s.pairs[|s.pairs| - 1].firstColour);
    assert s.stage.Paired? || s.stage.Handed? ==> id != s.pairs[|s.pairs| - 1].first;
    hide Exclusive, StageOk;
  }

  lemma SecondCounts(s: State, id: nat)
    requires id < |s.threads| && IsSecond(s.threads[id]) && OneLock(s) && StageOk(s) && ThreadOk(s, id, s.threads[id])
    requires s.atMostTwo + s.semPriv + Total(s.threads, Weight) == 2
    ensures var t := SecondStep(s, id); OneLock(t) && t.atMostTwo + t.semPriv + Total(t.threads, Weight) == 2
  {
    var t := SecondStep(s, id);
    TotalUpdate(s.threads, id, t.threads[id], Weight);
    TotalUpdate(s.threads, id, t.threads[id], LockWeight);
    hide Total, StageOk, ThreadOk;
  }

  lemma SecondStage(s: State, id: nat)
    requires id < |s.threads| && IsSecond(s.threads[id]) && Exclusive(s) && StageOk(s) && ThreadOk(s, id, s.threads[id])
    ensures StageOk(SecondStep(s, id))
  {
  }

  lemma SecondThreads(s: State, id: nat, i: nat)
    requires id < |s.threads| && IsSecond(s.threads[id]) && Exclusive(s) && StageOk(s) && ThreadOk(s, id, s.threads[id])
    requires i < |s.threads| && ThreadOk(s, i, s.threads[i])
    ensures ThreadOk(SecondStep(s, id), i, SecondStep(s, id).threads[i])
  {
  }

  lemma SecondPairs(s: State, id: nat, p: nat)
    requires id < |s.threads| && IsSecond(s.threads[id])
    requires Exclusive(s) && StageOk(s) && ThreadOk(s, id, s.threads[id])
    requires p < |s.pairs| ==> PairOk(s, p)
    requires (forall p | p in s.firstGot :: p < |s.pairs|) && (forall p | p in s.secondGot :: p < |s.pairs|)
    ensures var t := SecondStep(s, id);
      && (p < |t.pairs| ==> PairOk(t, p))
      && (forall p | p in t.firstGot :: p < |t.pairs|) && (forall p | p in t.secondGot :: p < |t.pairs|)
  {
    hide Exclusive, StageOk, ThreadOk, PairOk, SecondStep;
    if s.threads[id].PostSemPriv? {
      SecondReturns(s, id, p);
    } else {
      SecondStays(s, id, p);
    }
  }

  lemma SecondReturns(s: State, id: nat, p: nat)
    requires id < |s.threads| && s.threads[id].PostSemPriv?
    requires Exclusive(s) && StageOk(s) && ThreadOk(s, id, s.threads[id])
    requires p < |s.pairs| ==> PairOk(s, p)
    requires (forall p | p in s.firstGot :: p < |s.pairs|) && (forall p | p in s.secondGot :: p < |s.pairs|)
    ensures var t := SecondStep(s, id);
      && (p < |t.pairs| ==> PairOk(t, p))
      && (forall p | p in t.firstGot :: p < |t.pairs|) && (forall p | p in t.secondGot :: p < |t.pairs|)
  {
    hide Exclusive;
  }

  lemma SecondStays(s: State, id: nat, p: nat)
    requires id < |s.threads| && IsSecond(s.threads[id]) && !s.threads[id].PostSemPriv?
    requires Exclusive(s) && StageOk(s) && ThreadOk(s, id, s.threads[id])
    requires p < |s.pairs| ==> PairOk(s, p)
    requires (forall p | p in s.firstGot :: p < |s.pairs|) && (forall p | p in s.secondGot :: p < |s.pairs|)
    ensures var t := SecondStep(s, id);
      && (p < |t.pairs| ==> PairOk(t, p))
      && (forall p | p in t.firstGot :: p < |t.pairs|) && (forall p | p in t.secondGot :: p < |t.pairs|)
  {
    hide Exclusive;
  }

  lemma StepInv(s: State, id: nat)
    requires Inv(s) && id < |s.threads|
    ensures Inv(NextStep(s, id))
  {
    hide EnterStep, FirstStep, LeaveStep, SecondStep, OneLock, Exclusive, StageOk, ThreadOk, PairOk, Total,
         Entering, IsFirst, Leaving;
    var t := NextStep(s, id);
    var pc := s.threads[id];
    OneLockIsExclusive(s);
    if Entering(pc) {
      EnterCounts(s, id);
      EnterStage(s, id);
      forall i | 0 <= i < |t.threads| ensures ThreadOk(t, i, t.threads[i]) { EnterThreads(s, id, i); }
      forall p: nat ensures p < |t.pairs| ==> PairOk(t, p) { EnterPairs(s, id, p); }
      EnterPairs(s, id, 0);
    } else if IsFirst(pc) {
      FirstCounts(s, id);
      FirstStage(s, id);
      forall i | 0 <= i < |t.threads| ensures ThreadOk(t, i, t.threads[i]) { FirstThreads(s, id, i); }
      forall p: nat ensures p < |t.pairs| ==> PairOk(t, p) { FirstPairs(s, id, p); }
      FirstPairs(s, id, 0);
    } else if Leaving(pc) {
      LeaveCounts(s, id);
      LeaveStage(s, id);
      forall i | 0 <= i < |t.threads| ensures ThreadOk(t, i, t.threads[i]) { LeaveThreads(s, id, i); }
      forall p: nat ensures p < |t.pairs| ==> PairOk(t, p) { LeavePairs(s, id, p); }
      LeavePairs(s, id, 0);
    } else if !pc.Out? {
      assert IsSecond(pc) by { Kinds(pc); }
      SecondCounts(s, id);
      SecondStage(s, id);
      forall i | 0 <= i < |t.threads| ensures ThreadOk(t, i, t.threads[i]) { SecondThreads(s, id, i); }
      forall p: nat ensures p < |t.pairs| ==> PairOk(t, p) { SecondPairs(s, id, p); }
      SecondPairs(s, id, 0);
    }
  }

  lemma Kinds(pc: Pc)
    ensures pc.Out? || Entering(pc) || IsFirst(pc) || Leaving(pc) || IsSecond(pc)
  {
  }

  lemma CallInv(s: State, id: nat, c: Colour)
    requires Inv(s) && id < |s.threads| && s.threads[id].Out?
    ensures Inv(Goto(s, id, WaitAtMostTwo(c)))
  {
    var t := Goto(s, id, WaitAtMostTwo(c));
    TotalUpdate(s.threads, id, WaitAtMostTwo(c), Weight);
    TotalUpdate(s.threads, id, WaitAtMostTwo(c), LockWeight);
    hide Total;
    forall p | 0 <= p < |t.pairs| ensures PairOk(t, p) {
      assert PairOk(s, p);
    }
    forall i | 0 <= i < |t.threads| ensures ThreadOk(t, i, t.threads[i]) {
      assert ThreadOk(s, i, s.threads[i]);
    }
  }

  lemma NextInv(s: State, action: Action)
    requires Inv(s)
    ensures Inv(Next(s, action))
  {
    hide Inv, NextStep;
    match action
    case CallCooperation(id, c) => if id < |s.threads| && s.threads[id].Out? { CallInv(s, id, c); }
    case Step(id) => if id < |s.threads| { StepInv(s, id); }
  }

  function Run(s: State, actions: seq<Action>): State
    decreases |actions|
  {
    if actions == [] then s else Run(Next(s, actions[0]), actions[1..])
  }

  lemma {:induction false} RunInv(s: State, actions: seq<Action>)
    requires Inv(s)
    ensures Inv(Run(s, actions))
    decreases |actions|
  {
    hide Inv, Next;
    if actions == [] {
    } else {
      NextInv(s, actions[0]);
      RunInv(Next(s, actions[0]), actions[1..]);
    }
  }

  /** The calls of pair `p` belong to two threads, and each returns the colour of the other. */
  predicate Swapped(s: State, p: nat)
    requires p < |s.pairs|
  {
    && s.pairs[p].first != s.pairs[p].second
    && (p in s.firstGot ==> s.firstGot[p] == s.pairs[p].secondColour)
    && (p in s.secondGot ==> s.secondGot[p] == s.pairs[p].firstColour)
  }

  /** In every run of any number of threads, calls are served in pairs of two different threads, and a
      call that has returned has returned the colour of the other thread of its pair. */
  lemma PairsSwapColours(n: nat, actions: seq<Action>)
    ensures var s := Run(Init(n), actions); forall p | 0 <= p < |s.pairs| :: Swapped(s, p)
  {
    InitInv(n);
    RunInv(Init(n), actions);
    var s := Run(Init(n), actions);
    hide Run, StageOk, ThreadOk, OneLock, Total, FirstPending, SecondPending;
    forall p | 0 <= p < |s.pairs| ensures Swapped(s, p) {
      assert PairOk(s, p);
    }
  }

  /** AColour is written only while no pair is under way, and BColour only by the second of the pair
      under way, before it hands over; so neither is overwritten before both partners have read it. */
  lemma ColoursAreNotOverwritten(s: State, id: nat)
    requires Inv(s) && id < |s.threads|
    ensures NextStep(s, id).aColour != s.aColour ==> s.stage.Nobody?
    ensures NextStep(s, id).bColour != s.bColour ==>
      s.stage.Paired? && s.pairs != [] && id == s.pairs[|s.pairs| - 1].second && s.threads[id].StoreB?
  {
    hide OneLock, Total, PairOk;
    assert ThreadOk(s, id, s.threads[id]);
  }

  /** When no call is under way, both calls of every pair have returned and the semaphores are as at the start. */
  lemma RestIsComplete(s: State)
    requires Inv(s) && forall i | 0 <= i < |s.threads| :: s.threads[i].Out?
    ensures s.atMostTwo == 2 && s.mutex == 1 && s.semPriv == 0 && s.firstCall
    ensures forall p: nat :: (p in s.firstGot <==> p < |s.pairs|) && (p in s.secondGot <==> p < |s.pairs|)
  {
    TotalZero(s.threads, Weight);
    TotalZero(s.threads, LockWeight);
    hide Total;
    forall p: nat | p < |s.pairs| ensures p in s.firstGot && p in s.secondGot {
      assert PairOk(s, p);
    }
  }

  // ----- no deadlock -----

  ghost predicate CanMove(s: State) {
    exists id: nat :: id < |s.threads| && Next(s, Step(id)) != s
  }

  predicate Waiting(s: State, pc: Pc) {
    || pc.Out? || (pc.WaitAtMostTwo? && s.atMostTwo == 0) || (pc.WaitMutex? && s.mutex == 0)
    || (pc.WaitSemPriv? && s.semPriv == 0)
  }

  lemma MovesUnlessWaiting(s: State, id: nat)
    requires id < |s.threads| && !Waiting(s, s.threads[id])
    ensures CanMove(s)
  {
    assert NextStep(s, id).threads[id] != s.threads[id];
    assert Next(s, Step(id)) != s;
  }

  /** Two callers never block each other for ever: one of the threads can move. */
  lemma TwoCallersMove(s: State, i: nat, j: nat)
    requires Inv(s) && i < j < |s.threads| && !s.threads[i].Out? && !s.threads[j].Out?
    ensures CanMove(s)
  {
    OneLockIsExclusive(s);
    if s.mutex + s.semPriv == 0 {
      var k := SomePositive(s.threads, LockWeight);
      MovesUnlessWaiting(s, k);
    } else if s.semPriv > 0 {
      MovesUnlessWaiting(s, s.pairs[|s.pairs| - 1].first);
    } else if !Waiting(s, s.threads[i]) {
      MovesUnlessWaiting(s, i);
    } else if !Waiting(s, s.threads[j]) {
      MovesUnlessWaiting(s, j);
    } else {
      assert ThreadOk(s, i, s.threads[i]) && ThreadOk(s, j, s.threads[j]);
      assert s.atMostTwo == 0;
      BothWaiting(s);
    }
  }

  /** With the lock free, only the first of a half pair waits for SemPriv; so a token of AtMostTwo is free,
      or one of the threads that hold them can move. */
  lemma BothWaiting(s: State)
    requires Inv(s) && Exclusive(s) && s.mutex == 1 && s.semPriv == 0 && s.atMostTwo == 0
    ensures CanMove(s)
  {
    if forall k: nat | k < |s.threads| :: Waiting(s, s.threads[k]) {
      forall k: nat | k < |s.threads| && s.threads[k].WaitSemPriv? ensures s.stage.Half? && k == s.stage.first {
        assert ThreadOk(s, k, s.threads[k]);
      }
      var f := if s.stage.Half? then s.stage.first else 0;
      if |s.threads| > 0 {
        TotalUpdate(s.threads, f, Out, Weight);
        TotalZero(s.threads[f := Out], Weight);
      }
      assert false;
    } else {
      var k: nat :| k < |s.threads| && !Waiting(s, s.threads[k]);
      MovesUnlessWaiting(s, k);
    }
  }

  // ----- every call -----

  /** What a call of Cooperation came to: its colour, its pair and the part it had there, and its result. */
  datatype Return = Return(mine: Colour, pair: nat, asFirst: bool, got: Colour)

  function Mine(pc: Pc): seq<Colour> {
    if pc.Out? then [] else [pc.mine]
  }

  /** The colours with which thread `id` calls Cooperation in a run. */
  function Calls(s: State, actions: seq<Action>, id: nat): seq<Colour>
    decreases |actions|
  {
    if actions == [] then []
    else Called(s, actions[0], id) + Calls(Next(s, actions[0]), actions[1..], id)
  }

  function Called(s: State, action: Action, id: nat): seq<Colour> {
    if action.CallCooperation? && action.id == id && id < |s.threads| && s.threads[id].Out? then [action.c] else []
  }

  /** The calls of thread `id` that return in a run. */
  function Returns(s: State, actions: seq<Action>, id: nat): seq<Return>
    decreases |actions|
  {
    if actions == [] then []
    else Returned(s, actions[0], id) + Returns(Next(s, actions[0]), actions[1..], id)
  }

  /** The call of thread `id` that returns in this step, if any. */
  function Returned(s: State, action: Action, id: nat): seq<Return> {
    var t := Next(s, action);
    if id < |s.threads| && id < |t.threads| && !s.threads[id].Out? && t.threads[id].Out?
    then [ReturnOf(s, s.threads[id])] else []
  }

  function ReturnOf(s: State, pc: Pc): Return
    requires !pc.Out?
  {
    if pc.PostAtMostTwoAgain? then Return(pc.mine, pc.pair, true, pc.other)
    else if pc.PostSemPriv? then Return(pc.mine, LastPair(s), false, pc.other)
    else Return(pc.mine, 0, true, 0)
  }

  /** The call was one of the two of its pair, and its result is the colour of the other one. */
  predicate Served(s: State, id: nat, r: Return) {
    && r.pair < |s.pairs|
    && var pair := s.pairs[r.pair];
       if r.asFirst
       then r.pair in s.firstGot && pair == Pair(id, r.mine, pair.second, r.got) && pair.second != id
       else r.pair in s.secondGot && pair == Pair(pair.first, r.got, id, r.mine) && pair.first != id
  }

  /** The place of the call was still open in `s`. */
  predicate StillOpen(s: State, r: Return) {
    if r.asFirst then r.pair !in s.firstGot else r.pair !in s.secondGot
  }

  ghost predicate Extends(s: State, t: State) {
    && s.pairs <= t.pairs && s.firstGot.Keys <= t.firstGot.Keys && s.secondGot.Keys <= t.secondGot.Keys
  }

  lemma NextExtends(s: State, action: Action)
    ensures Extends(s, Next(s, action)) && |Next(s, action).threads| == |s.threads|
  {
  }

  lemma FirstOneServed(s: State, id: nat)
    requires Inv(s) && id < |s.threads| && s.threads[id].PostAtMostTwoAgain?
    ensures var r, t := ReturnOf(s, s.threads[id]), LeaveStep(s, id);
            StillOpen(s, r) && Served(t, id, r) && !StillOpen(t, r)
  {
    assert ThreadOk(s, id, s.threads[id]);
    assert PairOk(s, s.threads[id].pair);
    hide OneLock, Total, StageOk;
  }

  lemma SecondOneServed(s: State, id: nat)
    requires Inv(s) && id < |s.threads| && s.threads[id].PostSemPriv?
    ensures var r, t := ReturnOf(s, s.threads[id]), SecondStep(s, id);
            StillOpen(s, r) && Served(t, id, r) && !StillOpen(t, r)
  {
    assert ThreadOk(s, id, s.threads[id]);
    assert PairOk(s, LastPair(s));
    hide OneLock, Total;
  }

  lemma EndsOfCalls(s: State, id: nat)
    requires id < |s.threads|
    ensures EnterStep(s, id).threads[id].Out? ==> s.threads[id].Out?
    ensures FirstStep(s, id).threads[id].Out? ==> s.threads[id].Out?
    ensures LeaveStep(s, id).threads[id].Out? ==> s.threads[id].Out? || s.threads[id].PostAtMostTwoAgain?
    ensures SecondStep(s, id).threads[id].Out? ==> s.threads[id].Out? || s.threads[id].PostSemPriv?
  {
  }

  /** Only the two ends of a call return, and each fills an open place of a pair. */
  lemma ReturnServed(s: State, id: nat)
    requires Inv(s) && id < |s.threads| && !s.threads[id].Out? && NextStep(s, id).threads[id].Out?
    ensures var r := ReturnOf(s, s.threads[id]);
            r.mine == s.threads[id].mine && StillOpen(s, r) && Served(NextStep(s, id), id, r)
            && !StillOpen(NextStep(s, id), r)
  {
    Kinds(s.threads[id]);
    EndsOfCalls(s, id);
    hide Inv, EnterStep, FirstStep, LeaveStep, SecondStep, Served, StillOpen;
    if s.threads[id].PostSemPriv? { SecondOneServed(s, id); } else { FirstOneServed(s, id); }
  }

  /** A call goes on with the colour it began with. */
  lemma StepKeepsColour(s: State, id: nat)
    requires id < |s.threads| && !s.threads[id].Out?
    ensures var pc := NextStep(s, id).threads[id];
            pc.Out? || pc.mine == s.threads[id].mine
  {
    Kinds(s.threads[id]);
    EndsKeepColour(s, id);
    MiddleKeepsColour(s, id);
    hide EnterStep, FirstStep, LeaveStep, SecondStep;
  }

  lemma EndsKeepColour(s: State, id: nat)
    requires id < |s.threads| && !s.threads[id].Out?
    ensures EnterStep(s, id).threads[id].Out? || EnterStep(s, id).threads[id].mine == s.threads[id].mine
    ensures LeaveStep(s, id).threads[id].Out? || LeaveStep(s, id).threads[id].mine == s.threads[id].mine
  {
  }

  lemma MiddleKeepsColour(s: State, id: nat)
    requires id < |s.threads| && !s.threads[id].Out?
    ensures FirstStep(s, id).threads[id].Out? || FirstStep(s, id).threads[id].mine == s.threads[id].mine
    ensures SecondStep(s, id).threads[id].Out? || SecondStep(s, id).threads[id].mine == s.threads[id].mine
  {
  }

  lemma OthersKeep(s: State, action: Action, id: nat)
    requires id < |s.threads| && action.id != id
    ensures id < |Next(s, action).threads| && Next(s, action).threads[id] == s.threads[id]
  {
    if action.Step? && action.id < |s.threads| {
      Kinds(s.threads[action.id]);
      OthersKeepEnds(s, action.id, id);
      OthersKeepMiddle(s, action.id, id);
      hide EnterStep, FirstStep, LeaveStep, SecondStep;
    }
  }

  lemma OthersKeepEnds(s: State, id: nat, i: nat)
    requires i < |s.threads| && id < |s.threads| && i != id
    ensures EnterStep(s, id).threads[i] == s.threads[i] && LeaveStep(s, id).threads[i] == s.threads[i]
  {
  }

  lemma OthersKeepMiddle(s: State, id: nat, i: nat)
    requires i < |s.threads| && id < |s.threads| && i != id
    ensures FirstStep(s, id).threads[i] == s.threads[i] && SecondStep(s, id).threads[i] == s.threads[i]
  {
  }

  lemma KeepsColour(s: State, action: Action, id: nat)
    requires id < |s.threads|
    ensures var t := Next(s, action);
            && id < |t.threads|
            && Mine(s.threads[id]) + Called(s, action, id) ==
               (if Returned(s, action, id) == [] then [] else [s.threads[id].mine]) + Mine(t.threads[id])
  {
    if action.id != id {
      OthersKeep(s, action, id);
    } else if action.Step? && !s.threads[id].Out? {
      StepKeepsColour(s, id);
      hide NextStep;
    }
  }

  lemma FirstServed(s: State, action: Action, id: nat)
    requires Inv(s) && id < |s.threads|
    ensures var rs := Returned(s, action, id);
            && |rs| <= 1
            && (rs != [] ==> !s.threads[id].Out? && rs[0].mine == s.threads[id].mine && StillOpen(s, rs[0])
                             && Served(Next(s, action), id, rs[0]) && !StillOpen(Next(s, action), rs[0]))
  {
    hide Inv, NextStep, Served, StillOpen;
    if action.id != id {
      OthersKeep(s, action, id);
    } else if action.Step? && Returned(s, action, id) != [] {
      ReturnServed(s, id);
    }
  }

  function Colours(rs: seq<Return>): seq<Colour> {
    if rs == [] then [] else [rs[0].mine] + Colours(rs[1..])
  }

  ghost predicate AllServed(s: State, t: State, id: nat, rs: seq<Return>) {
    forall k | 0 <= k < |rs| :: StillOpen(s, rs[k]) && Served(t, id, rs[k])
  }

  predicate SamePlace(r: Return, q: Return) { r.pair == q.pair && r.asFirst == q.asFirst }

  ghost predicate PlacesDiffer(rs: seq<Return>) {
    forall j, k | 0 <= j < k < |rs| :: !SamePlace(rs[j], rs[k])
  }

  lemma {:induction false} RunExtends(s: State, actions: seq<Action>)
    ensures Extends(s, Run(s, actions)) && |Run(s, actions).threads| == |s.threads|
    decreases |actions|
  {
    hide Next;
    if actions == [] {
    } else {
      NextExtends(s, actions[0]);
      RunExtends(Next(s, actions[0]), actions[1..]);
    }
  }

  /** What was served stays served, and what is open now was open before. */
  lemma ServedExtends(s: State, t: State, id: nat, rs: seq<Return>)
    requires Extends(s, t)
    ensures forall r | r in rs && Served(s, id, r) :: Served(t, id, r)
    ensures forall r | r in rs && StillOpen(t, r) :: StillOpen(s, r)
  {
  }

  lemma PlacesPrepend(s: State, r: Return, rs: seq<Return>)
    requires !StillOpen(s, r) && PlacesDiffer(rs) && forall k | 0 <= k < |rs| :: StillOpen(s, rs[k])
    ensures PlacesDiffer([r] + rs)
  {
    forall j, k | 0 <= j < k < |[r] + rs| ensures !SamePlace(([r] + rs)[j], ([r] + rs)[k]) {
      if j > 0 { assert !SamePlace(rs[j - 1], rs[k - 1]); }
    }
  }

  lemma {:induction false} RunServes(s: State, actions: seq<Action>, id: nat)
    requires Inv(s) && id < |s.threads|
    ensures var t, rs := Run(s, actions), Returns(s, actions, id);
            && id < |t.threads|
            && Mine(s.threads[id]) + Calls(s, actions, id) == Colours(rs) + Mine(t.threads[id])
            && AllServed(s, t, id, rs) && PlacesDiffer(rs)
    decreases |actions|
  {
    hide Inv, Next, Returned, Called;
    if actions == [] {
    } else {
      hide Served, StillOpen, AllServed, PlacesDiffer, Extends, Mine;
      var m, rest := Next(s, actions[0]), actions[1..];
      NextInv(s, actions[0]);
      NextExtends(s, actions[0]);
      RunServes(m, rest, id);
      RunExtends(m, rest);
      KeepsColour(s, actions[0], id);
      FirstServed(s, actions[0], id);
      ServesMore(s, m, Run(m, rest), id, Returned(s, actions[0], id), Returns(m, rest, id));
      ColoursFirst(Returned(s, actions[0], id), Returns(m, rest, id));
      OneColour(Returned(s, actions[0], id), s.threads[id]);
      hide Colours;
      Chained(Mine(s.threads[id]), Called(s, actions[0], id), Colours(Returned(s, actions[0], id)),
              Mine(m.threads[id]), Calls(m, rest, id), Colours(Returns(m, rest, id)),
              Mine(Run(m, rest).threads[id]));
    }
  }

  lemma ServesMore(s: State, m: State, t: State, id: nat, first: seq<Return>, rest: seq<Return>)
    requires Extends(s, m) && Extends(m, t) && |first| <= 1 && AllServed(m, t, id, rest) && PlacesDiffer(rest)
    requires first != [] ==> StillOpen(s, first[0]) && Served(m, id, first[0]) && !StillOpen(m, first[0])
    ensures AllServed(s, t, id, first + rest) && PlacesDiffer(first + rest)
  {
    ServedExtends(m, t, id, first);
    ServedExtends(s, m, id, rest);
    hide Served, StillOpen, Extends, SamePlace;
    if first != [] {
      assert first == [first[0]];
      PlacesPrepend(m, first[0], rest);
    } else {
      assert first + rest == rest;
    }
  }

  lemma OneColour(first: seq<Return>, pc: Pc)
    requires |first| <= 1 && (first != [] ==> !pc.Out? && first[0].mine == pc.mine)
    ensures Colours(first) == if first == [] then [] else [pc.mine]
  {
    if first != [] { assert first[1..] == []; }
  }

  lemma ColoursFirst(first: seq<Return>, rest: seq<Return>)
    requires |first| <= 1
    ensures Colours(first + rest) == Colours(first) + Colours(rest)
  {
    if first != [] {
      assert (first + rest)[1..] == rest && first[1..] == [];
    } else {
      assert first + rest == rest;
    }
  }

  /** In every run the k-th call of a thread that returns is the k-th it made: it was one of the two calls of a
      pair, no other call had its place there, and it returned the colour of the other thread. */
  lemma EveryCallIsServed(n: nat, actions: seq<Action>, id: nat)
    requires id < n
    ensures var s, rs := Run(Init(n), actions), Returns(Init(n), actions, id);
            && id < |s.threads|
            && Calls(Init(n), actions, id) == Colours(rs) + Mine(s.threads[id])
            && (forall k | 0 <= k < |rs| :: Served(s, id, rs[k])) && PlacesDiffer(rs)
  {
    InitInv(n);
    RunServes(Init(n), actions, id);
  }

  // ----- a call gets on -----

  /** How many effective steps a call takes at most. */
  function StepsLeft(pc: Pc): nat {
    match pc
    case Out => 0
    case WaitAtMostTwo(_) => 11
    case WaitMutex(_) => 10
    case TestFirstCall(_) => 9
    case StoreA(_) => 8
    case ClearFirstCall(_) => 7
    case PostMutex(_) => 6
    case WaitSemPriv(_) => 5
    case LoadB(_) => 4
    case PostMutexAgain(_, _) => 3
    case PostAtMostTwo(_, _, _) => 2
    case PostAtMostTwoAgain(_, _, _) => 1
    case SetFirstCall(_) => 4
    case StoreB(_) => 3
    case LoadA(_) => 2
    case PostSemPriv(_, _) => 1
  }

  lemma EveryStepCounts(s: State, id: nat)
    requires id < |s.threads| && Next(s, Step(id)) != s
    ensures var t := Next(s, Step(id));
            id < |t.threads| && StepsLeft(t.threads[id]) < StepsLeft(s.threads[id])
  {
    StepCounts(s, id);
    hide NextStep, StepsLeft;
  }

  lemma StepCounts(s: State, id: nat)
    requires id < |s.threads| && NextStep(s, id) != s
    ensures StepsLeft(NextStep(s, id).threads[id]) < StepsLeft(s.threads[id])
  {
    var pc := s.threads[id];
    Kinds(pc);
    if IsFirst(pc) {
      FirstCountsDown(s, id);
    } else if IsSecond(pc) {
      SecondCountsDown(s, id);
    } else {
      EndsCountDown(s, id);
    }
    hide EnterStep, FirstStep, LeaveStep, SecondStep, StepsLeft;
  }

  lemma FirstCountsDown(s: State, id: nat)
    requires id < |s.threads| && IsFirst(s.threads[id]) && FirstStep(s, id) != s
    ensures StepsLeft(FirstStep(s, id).threads[id]) < StepsLeft(s.threads[id])
  {
  }

  lemma SecondCountsDown(s: State, id: nat)
    requires id < |s.threads| && IsSecond(s.threads[id])
    ensures StepsLeft(SecondStep(s, id).threads[id]) < StepsLeft(s.threads[id])
  {
  }

  lemma EndsCountDown(s: State, id: nat)
    requires id < |s.threads|
    ensures Entering(s.threads[id]) && EnterStep(s, id) != s ==>
      StepsLeft(EnterStep(s, id).threads[id]) < StepsLeft(s.threads[id])
    ensures Leaving(s.threads[id]) ==> StepsLeft(LeaveStep(s, id).threads[id]) < StepsLeft(s.threads[id])
  {
  }
}
