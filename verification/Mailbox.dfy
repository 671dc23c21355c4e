/** The bounded mailbox of `actors.c` as a state machine: any number of threads insert, one thread
    removes, and every atomic load, store, add or compare-and-swap is one step.
  */
module Mailbox {
  import CircularArrays
  import opened Options
  import opened Sequences

  /** actor_insert_msg; each state is named after the step that comes next. */
  datatype Producer<M> =
    | Away
    | LoadReserved(m: M)
    | SwapReserved(m: M, seen: int)
    | TakePlace(m: M)
    | Store(m: M, at: nat)
    | Publish(m: M, at: nat)

  /** actor_remove_msg */
  datatype Consumer<M> =
    | Idle
    | LoadReady
    | SwapReady(seen: int)
    | TakeStart
    | Load(at: nat)
    | Clear(at: nat, r: Option<M>)
    | CheckResult(r: Option<M>)
    | GiveBack(m: M)

  datatype State<M> = State(
    capacity: nat,
    slots: seq<Option<M>>,     // None is the null pointer
    start: nat, places: nat,   // the counters `start` and `write_loc`
    reserved: int, ready: int,
    producers: seq<Producer<M>>, consumer: Consumer<M>,
    claimed: seq<M>,           // every message that got a place, by place
    received: seq<M>,          // every message returned to the actor
    failed: bool)              // the assertion `assert(result)` has failed

  datatype Action<M> = Insert(id: nat, m: M) | Produce(id: nat) | Remove | Consume

  function AllAway<M>(n: nat): (ps: seq<Producer<M>>)
    ensures |ps| == n
  {
    seq(n, i => Away)
  }

  function Init<M>(producers: nat, capacity: nat): State<M> {
    State(capacity, seq(capacity, i => None), 0, 0, 0, 0, AllAway(producers), Idle, [], [], false)
  }

  /** A failed assertion stops the program. */
  function Next<M>(s: State<M>, action: Action<M>): State<M>
    requires Inv(s)
  {
    if s.failed then s else
    match action
    case Insert(id, m) =>
      if id < |s.producers| && s.producers[id].Away?
      then s.(producers := s.producers[id := LoadReserved(m)]) else s
    case Produce(id) => if id < |s.producers| then NextProducer(s, id) else s
    case Remove => if s.consumer.Idle? then s.(consumer := LoadReady) else s
    case Consume => NextConsumer(s)
  }

  function NextProducer<M>(s: State<M>, id: nat): State<M>
    requires Inv(s) && id < |s.producers|
  {
    CountAtLeast(s.producers, id);
    match s.producers[id]
    case Away => s
    case LoadReserved(m) =>
      s.(producers := s.producers[id := if s.reserved >= s.capacity then Away else SwapReserved(m, s.reserved)])
    case SwapReserved(m, seen) =>
      if s.reserved == seen
      then s.(reserved := seen + 1, producers := s.producers[id := TakePlace(m)])
      else s.(producers := s.producers[id := Away])
    case TakePlace(m) =>
      s.(places := s.places + 1, claimed := s.claimed + [m],
         producers := s.producers[id := Store(m, s.places)])
    case Store(m, at) =>
      s.(slots := s.slots[Slot(at, s.capacity) := Some(m)], producers := s.producers[id := Publish(m, at)])
    case Publish(m, at) =>
      s.(ready := s.ready + 1, producers := s.producers[id := Away])
  }

  function NextConsumer<M>(s: State<M>): State<M>
    requires Inv(s)
  {
    match s.consumer
    case Idle => s
    case LoadReady => s.(consumer := if s.ready <= 0 then Idle else SwapReady(s.ready))
    case SwapReady(seen) =>
      if s.ready == seen then s.(ready := seen - 1, consumer := TakeStart) else s.(consumer := Idle)
    case TakeStart => s.(start := s.start + 1, consumer := Load(s.start))
    case Load(at) => s.(consumer := Clear(at, s.slots[Slot(at, s.capacity)]))
    case Clear(at, r) => s.(slots := s.slots[Slot(at, s.capacity) := None], consumer := CheckResult(r))
    case CheckResult(r) =>
      if r.None? then s.(failed := true) else s.(consumer := GiveBack(r.value))
    case GiveBack(m) =>
      s.(reserved := s.reserved - 1, received := s.received + [m], consumer := Idle)
  }

  /** The slot of a place. */
  function Slot(at: nat, n: nat): (i: nat)
    requires n > 0
    ensures i < n
  {
    at % n
  }

  // ----- counting threads -----

  function Reserving<M>(ps: seq<Producer<M>>): nat {
    if ps == [] then 0 else Reserving(ps[..|ps| - 1]) + One(ps[|ps| - 1].TakePlace?)
  }

  function Unpublished<M>(ps: seq<Producer<M>>): nat {
    if ps == [] then 0
    else Unpublished(ps[..|ps| - 1]) + One(ps[|ps| - 1].Store? || ps[|ps| - 1].Publish?)
  }

  /** Inserts that have reserved a slot and are not finished. */
  function InFlight<M>(s: State<M>): nat {
    Reserving(s.producers) + Unpublished(s.producers)
  }

  lemma {:induction false} CountUpdate<M>(ps: seq<Producer<M>>, id: nat, p: Producer<M>)
    requires id < |ps|
    ensures Reserving(ps[id := p]) + One(ps[id].TakePlace?) == Reserving(ps) + One(p.TakePlace?)
    ensures Unpublished(ps[id := p]) + One(ps[id].Store? || ps[id].Publish?)
         == Unpublished(ps) + One(p.Store? || p.Publish?)
  {
    var init := ps[..|ps| - 1];
    if id == |ps| - 1 {
      assert ps[id := p][..|ps| - 1] == init;
    } else {
      assert ps[id := p][..|ps| - 1] == init[id := p];
      CountUpdate(init, id, p);
    }
  }

  lemma {:induction false} CountAtLeast<M>(ps: seq<Producer<M>>, id: nat)
    requires id < |ps|
    ensures ps[id].TakePlace? ==> Reserving(ps) > 0
    ensures ps[id].Store? || ps[id].Publish? ==> Unpublished(ps) > 0
  {
    CountUpdate(ps, id, Away);
  }

  lemma {:induction false} CountAway<M>(n: nat)
    ensures Reserving(AllAway<M>(n)) == 0 == Unpublished(AllAway<M>(n))
  {
    if n == 0 {
    } else {
      assert AllAway<M>(n)[..n - 1] == AllAway<M>(n - 1);
      CountAway<M>(n - 1);
    }
  }

  // ----- invariant -----

  /** The consumer has taken a place and not yet given it back. */
  predicate Reading<M>(c: Consumer<M>) {
    c.Load? || c.Clear? || c.CheckResult? || c.GiveBack?
  }

  /** The first place whose slot still has to be read. */
  function Unread<M>(s: State<M>): int {
    if s.consumer.Load? then s.start - 1 else s.start
  }

  /** The first place whose slot still has to be emptied. */
  function Uncleared<M>(s: State<M>): int {
    if s.consumer.Load? || s.consumer.Clear? then s.start - 1 else s.start
  }

  ghost predicate Counters<M>(s: State<M>) {
    && |s.slots| == s.capacity && |s.claimed| == s.places && (s.places > 0 ==> s.capacity > 0)
    && s.start == |s.received| + One(Reading(s.consumer))
    && s.reserved == Reserving(s.producers) + s.places - |s.received| <= s.capacity
    && 0 <= s.ready == s.places - Unpublished(s.producers) - s.start - One(s.consumer.TakeStart?)
  }

  ghost predicate ProducerOk<M>(s: State<M>, p: Producer<M>)
    requires Counters(s)
  {
    match p
    case Store(m, at) => |s.received| <= at < s.places && s.claimed[at] == m && Unread(s) <= at
    case _ => true
  }

  /** The assertion is about to fail: an unwritten slot has been read. */
  predicate Doomed<M>(s: State<M>) {
    s.failed || (s.consumer.Clear? && s.consumer.r.None?) || (s.consumer.CheckResult? && s.consumer.r.None?)
  }

  ghost predicate ConsumerOk<M>(s: State<M>)
    requires Counters(s)
  {
    match s.consumer
    case SwapReady(seen) => seen > 0
    case Load(at) => at == s.start - 1
    case Clear(at, r) => at == s.start - 1 && (r.Some? ==> r.value == s.claimed[at])
    case CheckResult(r) => r.Some? ==> r.value == s.claimed[s.start - 1]
    case GiveBack(m) => m == s.claimed[s.start - 1]
    case _ => true
  }

  ghost predicate Writing<M>(ps: seq<Producer<M>>, at: int) {
    exists id | 0 <= id < |ps| :: ps[id].Store? && ps[id].at == at
  }

  predicate NoTwoAt<M>(p: Producer<M>, q: Producer<M>) {
    p.Store? && q.Store? ==> p.at != q.at
  }

  /** Every place between the one to be read next and the last one given out holds its message,
      or nothing when its producer has yet to write it; the places after those are empty. */
  ghost predicate SlotsOk<M>(s: State<M>)
    requires Counters(s)
  {
    && (forall at | Unread(s) <= at < s.places ::
      s.slots[Slot(at, s.capacity)] == if Writing(s.producers, at) then None else Some(s.claimed[at]))
    && (forall at | s.places <= at < Uncleared(s) + s.capacity ::
      s.slots[Slot(at, s.capacity)] == None)
  }

  ghost predicate Apart<M>(ps: seq<Producer<M>>) {
    forall i, j | 0 <= i < j < |ps| :: NoTwoAt(ps[i], ps[j])
  }

  ghost predicate ProducersOk<M>(s: State<M>)
    requires Counters(s)
  {
    forall id | 0 <= id < |s.producers| :: ProducerOk(s, s.producers[id])
  }

  ghost predicate Orderly<M>(s: State<M>)
    requires Counters(s)
  {
    ProducersOk(s) && Apart(s.producers) && SlotsOk(s)
  }

  /** A doomed run has read an unwritten place; its producer may be anywhere. */
  ghost predicate Inv<M>(s: State<M>) {
    && Counters(s)
    && ConsumerOk(s)
    && s.received <= s.claimed
    && (forall id | 0 <= id < |s.producers| ::
      s.producers[id].SwapReserved? ==> s.producers[id].seen < s.capacity)
    && (Doomed(s) || Orderly(s))
  }

  // ----- every step keeps it -----

  /** Two places less than a whole mailbox apart never share a slot. */
  lemma SlotsApart(a: nat, b: nat, n: nat)
    requires a < b < a + n
    ensures Slot(a, n) != Slot(b, n)
  {
    CircularArrays.SlotsApart(a, b, n);
  }

  lemma SlotsRepeat(a: nat, b: nat, n: nat)
    requires 0 < n && b == a + n
    ensures Slot(b, n) == Slot(a, n)
  {
    var d := b / n - a / n - 1;
    assert a % n - b % n == d * n;
    CircularArrays.OnlyZeroMultiple(d, n);
  }

  lemma InitInv<M>(producers: nat, capacity: nat)
    ensures Inv(Init<M>(producers, capacity))
  {
    hide Slot;
    CountAway<M>(producers);
  }

  lemma WritingUpdate<M>(ps: seq<Producer<M>>, id: nat, p: Producer<M>, at: int)
    requires id < |ps| && Apart(ps)
    ensures Writing(ps[id := p], at) <==>
      (p.Store? && p.at == at) || (Writing(ps, at) && !(ps[id].Store? && ps[id].at == at))
  {
    var qs := ps[id := p];
    if p.Store? && p.at == at {
      assert qs[id].Store?;
    }
    if Writing(ps, at) {
      var i :| 0 <= i < |ps| && ps[i].Store? && ps[i].at == at;
      assert i != id ==> qs[i] == ps[i];
      assert i != id ==> NoTwoAt(ps[if i < id then i else id], ps[if i < id then id else i]);
    }
  }

  /** A producer that neither takes a place nor writes its slot. */
  lemma QuietProducer<M>(s: State<M>, t: State<M>, id: nat, p: Producer<M>)
    requires Inv(s) && Orderly(s) && id < |s.producers| && !s.producers[id].Store? && !p.Store?
    requires t == s.(producers := s.producers[id := p], reserved := t.reserved, ready := t.ready)
    requires Counters(t) && ProducerOk(t, p)
    ensures Orderly(t)
  {
    hide Slot, Reserving, Unpublished;
    forall at ensures Writing(t.producers, at) == Writing(s.producers, at) {
      WritingUpdate(s.producers, id, p, at);
    }
  }

  lemma PlaceTaken<M>(s: State<M>, t: State<M>, id: nat, m: M)
    requires Inv(s) && Orderly(s) && id < |s.producers| && s.producers[id] == TakePlace(m)
    requires t == NextProducer(s, id) && Counters(t)
    ensures Orderly(t)
  {
    CountAtLeast(s.producers, id);
    hide Slot, Reserving, Unpublished;
    assert ProducersOk(t) && Apart(t.producers) by { hide Writing, SlotsOk; }
    PlaceTakenSlots(s, t, id, m);
  }

  lemma PlaceTakenSlots<M>(s: State<M>, t: State<M>, id: nat, m: M)
    requires Inv(s) && Orderly(s) && id < |s.producers| && s.producers[id] == TakePlace(m)
    requires t == NextProducer(s, id) && Counters(t) && s.places < Uncleared(s) + s.capacity
    ensures SlotsOk(t)
  {
    hide Slot;
    forall at ensures Writing(t.producers, at) == (Writing(s.producers, at) || at == s.places) {
      WritingUpdate(s.producers, id, Store(m, s.places), at);
    }
    hide Slot, Reserving, Unpublished, Writing, Apart, ProducersOk, ConsumerOk;
    assert s.slots[Slot(s.places, s.capacity)] == None;
  }

  lemma SlotWritten<M>(s: State<M>, t: State<M>, id: nat, m: M, place: nat)
    requires Inv(s) && Orderly(s) && id < |s.producers| && s.producers[id] == Store(m, place)
    requires t == NextProducer(s, id) && Counters(t)
    ensures Orderly(t)
  {
    CountAtLeast(s.producers, id);
    assert ProducerOk(s, s.producers[id]);
    hide Slot, Reserving, Unpublished;
    assert ProducersOk(t) && Apart(t.producers) by { hide Writing, SlotsOk; }
    SlotWrittenSlots(s, t, id, m, place);
  }

  lemma SlotWrittenSlots<M>(s: State<M>, t: State<M>, id: nat, m: M, place: nat)
    requires Inv(s) && Orderly(s) && id < |s.producers| && s.producers[id] == Store(m, place)
    requires t == NextProducer(s, id) && Counters(t)
    requires Unread(s) <= place < s.places && s.claimed[place] == m
    ensures SlotsOk(t)
  {
    hide Slot;
    forall at ensures Writing(t.producers, at) == (Writing(s.producers, at) && at != place) {
      WritingUpdate(s.producers, id, Publish(m, place), at);
    }
    forall at: nat | Unread(s) <= at < Uncleared(s) + s.capacity && at != place
      ensures Slot(at, s.capacity) != Slot(place, s.capacity)
    {
      if at < place { SlotsApart(at, place, s.capacity); } else { SlotsApart(place, at, s.capacity); }
    }
    hide Slot, Reserving, Unpublished, Writing, Apart, ProducersOk, ConsumerOk;
  }

  lemma ProducerCounters<M>(s: State<M>, id: nat)
    requires Inv(s) && !s.failed && id < |s.producers|
    ensures var t := NextProducer(s, id);
      && Counters(t) && ConsumerOk(t) && t.received <= t.claimed
      && (forall i | 0 <= i < |t.producers| :: t.producers[i].SwapReserved? ==> t.producers[i].seen < t.capacity)
  {
    hide Slot, Reserving, Unpublished, Orderly;
    CountAtLeast(s.producers, id);
    CountUpdate(s.producers, id, NextProducer(s, id).producers[id]);
  }

  lemma NextProducerInv<M>(s: State<M>, id: nat)
    requires Inv(s) && !s.failed && id < |s.producers|
    ensures Inv(NextProducer(s, id))
  {
    hide Slot, Reserving, Unpublished, Orderly;
    var t := NextProducer(s, id);
    ProducerCounters(s, id);
    if !Doomed(s) {
      match s.producers[id]
      case TakePlace(m) => PlaceTaken(s, t, id, m);
      case Store(m, at) => SlotWritten(s, t, id, m, at);
      case Away =>
      case LoadReserved(_) => QuietProducer(s, t, id, t.producers[id]);
      case SwapReserved(_, _) => QuietProducer(s, t, id, t.producers[id]);
      case Publish(_, _) => QuietProducer(s, t, id, t.producers[id]);
    }
  }

  lemma SlotRead<M>(s: State<M>, t: State<M>, at: nat)
    requires Inv(s) && Orderly(s) && s.consumer == Load(at) && t == NextConsumer(s) && Counters(t)
    requires !Doomed(t)
    ensures ConsumerOk(t) && Orderly(t)
  {
    hide Slot, Reserving, Unpublished;
    assert s.slots[Slot(at, s.capacity)] == if Writing(s.producers, at) then None else Some(s.claimed[at]);
    assert !Writing(s.producers, at);
    ProducersPass(s, t);
    hide ProducersOk, Apart, Writing;
  }

  /** When the consumer moves on, no producer is left writing behind it. */
  lemma ProducersPass<M>(s: State<M>, t: State<M>)
    requires Counters(s) && Counters(t) && ProducersOk(s) && t.producers == s.producers
    requires t.claimed == s.claimed && |t.received| <= Unread(t) <= Unread(s) + 1 && t.places == s.places
    requires Unread(t) > Unread(s) ==> !Writing(s.producers, Unread(s))
    ensures ProducersOk(t)
  {
    hide Slot, Reserving, Unpublished;
    forall id | 0 <= id < |s.producers| ensures ProducerOk(t, s.producers[id]) {
      assert ProducerOk(s, s.producers[id]);
    }
  }

  lemma SlotCleared<M>(s: State<M>, t: State<M>, place: nat)
    requires Inv(s) && Orderly(s) && s.consumer.Clear? && s.consumer.at == place
    requires t == NextConsumer(s) && Counters(t)
    ensures Orderly(t)
  {
    hide Reserving, Unpublished, Writing, Slot;
    ProducersPass(s, t);
    hide ProducersOk, Apart;
    forall at: nat | place < at < place + s.capacity ensures Slot(at, s.capacity) != Slot(place, s.capacity) {
      SlotsApart(place, at, s.capacity);
    }
    SlotsRepeat(place, place + s.capacity, s.capacity);
  }

  lemma ConsumerCounters<M>(s: State<M>)
    requires Inv(s) && !s.failed
    ensures Counters(NextConsumer(s))
    ensures s.received <= s.claimed && NextConsumer(s).received <= s.claimed
  {
    hide Slot, Reserving, Unpublished, Orderly;
  }

  lemma QuietConsumer<M>(s: State<M>, t: State<M>)
    requires Inv(s) && Orderly(s) && Counters(t) && ConsumerOk(t)
    requires !s.consumer.Load? && !s.consumer.Clear?
    requires t == s.(consumer := t.consumer, ready := t.ready, start := t.start, reserved := t.reserved,
                     received := t.received)
    requires Unread(t) == Unread(s) && Uncleared(t) == Uncleared(s)
    ensures Orderly(t)
  {
    hide Slot, Reserving, Unpublished, Writing, Apart;
    ProducersPass(s, t);
  }

  lemma NextConsumerInv<M>(s: State<M>)
    requires Inv(s) && !s.failed
    ensures Inv(NextConsumer(s))
  {
    var t := NextConsumer(s);
    hide Slot, Reserving, Unpublished, Orderly, Unread, Uncleared;
    ConsumerCounters(s);
    if !Doomed(t) {
      match s.consumer
      case Load(at) => SlotRead(s, t, at);
      case Clear(at, _) => SlotCleared(s, t, at);
      case Idle =>
      case LoadReady => QuietConsumer(s, t);
      case SwapReady(_) => QuietConsumer(s, t);
      case TakeStart => QuietConsumer(s, t);
      case CheckResult(_) => QuietConsumer(s, t);
      case GiveBack(_) => QuietConsumer(s, t);
    }
  }

  lemma NextInv<M>(s: State<M>, action: Action<M>)
    requires Inv(s)
    ensures Inv(Next(s, action))
  {
    hide Slot, Reserving, Unpublished, Orderly;
    if !s.failed {
      match action
      case Insert(id, m) =>
        if id < |s.producers| && s.producers[id].Away? {
          CountUpdate(s.producers, id, LoadReserved(m));
          if !Doomed(s) { QuietProducer(s, Next(s, action), id, LoadReserved(m)); }
        }
      case Produce(id) => if id < |s.producers| { NextProducerInv(s, id); }
      case Remove =>
        if s.consumer.Idle? && !Doomed(s) { QuietConsumer(s, Next(s, action)); }
      case Consume => NextConsumerInv(s);
    }
  }

  function Run<M>(s: State<M>, actions: seq<Action<M>>): (t: State<M>)
    requires Inv(s)
    ensures Inv(t) && t.capacity == s.capacity && |t.producers| == |s.producers|
    decreases |actions|
  {
    if actions == [] then s
    else
      NextInv(s, actions[0]);
      Run(Next(s, actions[0]), actions[1..])
  }

  /** In every run, with any number of producers: reservations stay within the capacity, the places
      in use never share a slot, and what the actor has received is what was given places first,
      in the order of the places. */
  lemma EveryRunIsInOrder<M>(producers: nat, capacity: nat, actions: seq<Action<M>>)
    ensures Inv(Init<M>(producers, capacity))
    ensures var s := Run(Init(producers, capacity), actions);
      && 0 <= s.places - |s.received| <= s.reserved <= capacity
      && s.received <= s.claimed
      && forall p, q | |s.received| <= p < q < s.places :: Slot(p, capacity) != Slot(q, capacity)
  {
    InitInv<M>(producers, capacity);
    var s := Run(Init(producers, capacity), actions);
    hide Reserving, Unpublished, Slot;
    forall p, q | |s.received| <= p < q < s.places ensures Slot(p, capacity) != Slot(q, capacity) {
      SlotsApart(p, q, capacity);
    }
  }

  // ----- when the assertion holds -----

  /** Every state of the run has at most one insert between its reservation and its end. */
  ghost predicate OneAtATime<M>(s: State<M>, actions: seq<Action<M>>)
    requires Inv(s)
    decreases |actions|
  {
    && InFlight(s) <= 1
    && (actions == [] ||
        (NextInv(s, actions[0]); OneAtATime(Next(s, actions[0]), actions[1..])))
  }

  /** The only insert under way has the last place. */
  ghost predicate Sound<M>(s: State<M>) {
    !Doomed(s) && forall id | 0 <= id < |s.producers| && s.producers[id].Store? :: s.producers[id].at == s.places - 1
  }

  lemma NextSound<M>(s: State<M>, action: Action<M>)
    requires Inv(s) && Sound(s) && InFlight(s) <= 1
    ensures Sound(Next(s, action))
  {
    forall id | 0 <= id < |s.producers| ensures
      && (s.producers[id].TakePlace? ==> Reserving(s.producers) > 0)
      && (s.producers[id].Store? ==> Unpublished(s.producers) > 0)
    {
      CountAtLeast(s.producers, id);
    }
    if action.Consume? && s.consumer.Load? {
      assert s.slots[Slot(s.consumer.at, s.capacity)].Some?;
    }
  }

  lemma {:induction false} OneAtATimeIsSafe<M>(s: State<M>, actions: seq<Action<M>>)
    requires Inv(s) && Sound(s) && OneAtATime(s, actions)
    ensures !Run(s, actions).failed
    decreases |actions|
  {
    if actions == [] {
    } else {
      NextInv(s, actions[0]);
      NextSound(s, actions[0]);
      OneAtATimeIsSafe(Next(s, actions[0]), actions[1..]);
    }
  }

  lemma {:induction false} CountBound<M>(ps: seq<Producer<M>>)
    ensures Reserving(ps) + Unpublished(ps) <= |ps|
  {
    if ps == [] {
    } else {
      CountBound(ps[..|ps| - 1]);
    }
  }

  lemma FewInFlight<M>(s: State<M>)
    requires Counters(s) && (|s.producers| <= 1 || s.capacity <= 1)
    ensures InFlight(s) <= 1
  {
    CountBound(s.producers);
    hide Reserving, Unpublished, Slot;
  }

  lemma {:induction false} FewAreOneAtATime<M>(s: State<M>, actions: seq<Action<M>>)
    requires Inv(s) && (|s.producers| <= 1 || s.capacity <= 1)
    ensures OneAtATime(s, actions)
    decreases |actions|
  {
    hide Reserving, Unpublished, Slot, Orderly, ConsumerOk;
    FewInFlight(s);
    if actions == [] {
    } else {
      NextInv(s, actions[0]);
      FewAreOneAtATime(Next(s, actions[0]), actions[1..]);
    }
  }

  lemma {:induction false} RunAppend<M>(s: State<M>, first: seq<Action<M>>, second: seq<Action<M>>)
    requires Inv(s)
    ensures Run(s, first + second) == Run(Run(s, first), second)
    decreases |first|
  {
    if first == [] {
      assert first + second == second;
    } else {
      NextInv(s, first[0]);
      assert (first + second)[1..] == first[1..] + second;
      RunAppend(Next(s, first[0]), first[1..], second);
    }
  }

  lemma OneMove<M>(s: State<M>, action: Action<M>, rest: seq<Action<M>>)
    requires Inv(s)
    ensures Inv(Next(s, action)) && Run(s, [action] + rest) == Run(Next(s, action), rest)
  {
    NextInv(s, action);
    assert ([action] + rest)[1..] == rest;
  }

  function Accept<M>(id: nat, m: M): seq<Action<M>> {
    [Insert(id, m)] + ([Produce(id)] + ([Produce(id)] + ([Produce(id)] + [])))
  }

  function Finish<M>(id: nat): seq<Action<M>> {
    [Produce(id)] + ([Produce(id)] + [])
  }

  function Read<M>(): seq<Action<M>> {
    [Remove] + ([Consume] + ([Consume] + ([Consume] + ([Consume] + ([Consume] + ([Consume] + []))))))
  }

  /** An insert that nobody disturbs takes the next place. */
  lemma AcceptTakesPlace<M>(s: State<M>, id: nat, m: M)
    requires Inv(s) && !s.failed && id < |s.producers| && s.producers[id].Away? && s.reserved < s.capacity
    ensures Run(s, Accept(id, m)) ==
      s.(reserved := s.reserved + 1, places := s.places + 1, claimed := s.claimed + [m],
         producers := s.producers[id := Store(m, s.places)])
  {
    hide Inv;
    var s1 := Next(s, Insert(id, m));
    OneMove(s, Insert(id, m), [Produce(id)] + ([Produce(id)] + ([Produce(id)] + [])));
    var s2 := Next(s1, Produce(id));
    OneMove(s1, Produce(id), [Produce(id)] + ([Produce(id)] + []));
    var s3 := Next(s2, Produce(id));
    OneMove(s2, Produce(id), [Produce(id)] + []);
    var s4 := Next(s3, Produce(id));
    OneMove(s3, Produce(id), []);
    assert s4.producers == s.producers[id := Store(m, s.places)];
  }

  lemma FinishWrites<M>(s: State<M>, id: nat, m: M, at: nat)
    requires Inv(s) && !s.failed && id < |s.producers| && s.producers[id] == Store(m, at) && s.capacity > 0
    ensures Run(s, Finish(id)) ==
      s.(slots := s.slots[Slot(at, s.capacity) := Some(m)], ready := s.ready + 1,
         producers := s.producers[id := Away])
  {
    assert |s.slots| == s.capacity;
    hide Inv, Slot;
    var s1 := Next(s, Produce(id));
    OneMove(s, Produce(id), [Produce(id)] + []);
    var s2 := Next(s1, Produce(id));
    OneMove(s1, Produce(id), []);
    assert s2.producers == s.producers[id := Away];
  }

  lemma ReadFails<M>(s: State<M>)
    requires Inv(s) && !s.failed && s.consumer.Idle? && s.ready > 0 && s.capacity > 0
    requires s.slots[Slot(s.start, s.capacity)] == None
    ensures Run(s, Read()).failed
  {
    hide Inv, Slot;
    var s1 := Next(s, Remove);
    OneMove(s, Remove, [Consume] + ([Consume] + ([Consume] + ([Consume] + ([Consume] + ([Consume] + []))))));
    var s2 := Next(s1, Consume);
    OneMove(s1, Consume, [Consume] + ([Consume] + ([Consume] + ([Consume] + ([Consume] + [])))));
    var s3 := Next(s2, Consume);
    OneMove(s2, Consume, [Consume] + ([Consume] + ([Consume] + ([Consume] + []))));
    var s4 := Next(s3, Consume);
    OneMove(s3, Consume, [Consume] + ([Consume] + ([Consume] + [])));
    var s5 := Next(s4, Consume);
    OneMove(s4, Consume, [Consume] + ([Consume] + []));
    var s6 := Next(s5, Consume);
    OneMove(s5, Consume, [Consume] + []);
    OneMove(s6, Consume, []);
  }

  /** Two producers: the second to get a place is the first to publish. */
  function Overtaking<M>(m: M): seq<Action<M>> {
    Accept(0, m) + (Accept(1, m) + (Finish(1) + Read()))
  }

  lemma FourRuns<M>(s: State<M>, a: seq<Action<M>>, b: seq<Action<M>>, c: seq<Action<M>>, d: seq<Action<M>>)
    requires Inv(s)
    ensures Run(s, a + (b + (c + d))) == Run(Run(Run(Run(s, a), b), c), d)
  {
    hide Inv, Run;
    RunAppend(s, a, b + (c + d));
    RunAppend(Run(s, a), b, c + d);
    RunAppend(Run(Run(s, a), b), c, d);
  }

  lemma BothHavePlaces<M>(producers: nat, capacity: nat, m: M) returns (s: State<M>)
    requires producers >= 2 && capacity >= 2
    ensures Inv(Init<M>(producers, capacity)) && Inv(s)
    ensures s == Run(Run(Init(producers, capacity), Accept(0, m)), Accept(1, m))
    ensures !s.failed && s.consumer.Idle? && s.ready == 0 && s.start == 0 && s.capacity == capacity
    ensures |s.slots| == capacity && s.slots[0] == None
    ensures |s.producers| == producers && s.producers[1] == Store(m, 1)
  {
    InitInv<M>(producers, capacity);
    var s0 := Init<M>(producers, capacity);
    hide Slot, Inv, Run, Accept, Next, NextProducer, NextConsumer, Reserving, Unpublished;
    AcceptTakesPlace(s0, 0, m);
    var s1 := Run(s0, Accept(0, m));
    AcceptTakesPlace(s1, 1, m);
    s := Run(s1, Accept(1, m));
  }

  /** Producer 1 finishes while the first place is still empty, and the consumer reads it. */
  lemma EarlySlot(at: nat, n: nat)
    requires at < n
    ensures Slot(at, n) == at
  {
  }

  lemma WrittenBehind<M>(s: State<M>, m: M)
    requires Inv(s) && !s.failed && s.consumer.Idle? && s.ready == 0 && s.start == 0 && s.capacity >= 2
    requires |s.slots| == s.capacity && s.slots[0] == None
    requires |s.producers| >= 2 && s.producers[1] == Store(m, 1)
    ensures Run(Run(s, Finish(1)), Read()).failed
  {
    EarlySlot(0, s.capacity);
    EarlySlot(1, s.capacity);
    hide Slot, Inv, Run, Finish, Read, Next, NextProducer, NextConsumer, Reserving, Unpublished;
    FinishWrites(s, 1, m, 1);
    ReadFails(Run(s, Finish(1)));
  }

  lemma OvertakingFails<M>(producers: nat, capacity: nat, m: M)
    requires producers >= 2 && capacity >= 2
    ensures Inv(Init<M>(producers, capacity))
    ensures Run(Init(producers, capacity), Overtaking(m)).failed
  {
    var s2 := BothHavePlaces(producers, capacity, m);
    hide Slot, Inv, Run, Init, Accept, Finish, Read, Next, NextProducer, NextConsumer, Reserving, Unpublished;
    WrittenBehind(s2, m);
    FourRuns(Init(producers, capacity), Accept(0, m), Accept(1, m), Finish(1), Read());
  }

  /** The assertion on the removed message holds in every run exactly when at most one thread
      inserts or the mailbox has room for at most one message. */
  lemma NeverFailsIff<M>(producers: nat, capacity: nat, m: M)
    ensures Inv(Init<M>(producers, capacity))
    ensures (forall actions: seq<Action<M>> :: !Run(Init(producers, capacity), actions).failed)
       <==> (producers <= 1 || capacity <= 1)
  {
    InitInv<M>(producers, capacity);
    var s := Init<M>(producers, capacity);
    if producers <= 1 || capacity <= 1 {
      forall actions: seq<Action<M>> ensures !Run(s, actions).failed {
        FewAreOneAtATime(s, actions);
        OneAtATimeIsSafe(s, actions);
      }
    } else {
      OvertakingFails(producers, capacity, m);
    }
  }

  // ----- what inserts and removals answer -----

  datatype Outcome<M> = Accepted(m: M, at: nat) | Refused(m: M)

  function Hand<M>(p: Producer<M>): seq<M> {
    if p.Away? then [] else [p.m]
  }

  /** The messages with which thread `id` calls insert in a run. */
  function Inserts<M>(s: State<M>, actions: seq<Action<M>>, id: nat): seq<M>
    requires Inv(s)
    decreases |actions|
  {
    if actions == [] then []
    else
      NextInv(s, actions[0]);
      Inserted(s, actions[0], id) + Inserts(Next(s, actions[0]), actions[1..], id)
  }

  function Inserted<M>(s: State<M>, action: Action<M>, id: nat): seq<M> {
    if action.Insert? && action.id == id && id < |s.producers| && s.producers[id].Away? && !s.failed
    then [action.m] else []
  }

  /** What the inserts of thread `id` answer in a run. */
  function Outcomes<M>(s: State<M>, actions: seq<Action<M>>, id: nat): seq<Outcome<M>>
    requires Inv(s)
    decreases |actions|
  {
    if actions == [] then []
    else
      NextInv(s, actions[0]);
      Answered(s, actions[0], id) + Outcomes(Next(s, actions[0]), actions[1..], id)
  }

  function Answered<M>(s: State<M>, action: Action<M>, id: nat): seq<Outcome<M>>
    requires Inv(s)
  {
    var t := Next(s, action);
    if id < |s.producers| && id < |t.producers| && !s.producers[id].Away? && t.producers[id].Away?
    then [OutcomeOf(s.producers[id])] else []
  }

  function OutcomeOf<M>(p: Producer<M>): Outcome<M>
    requires !p.Away?
  {
    if p.Publish? then Accepted(p.m, p.at) else Refused(p.m)
  }

  /** The threads that were given the places, in order. */
  function Owners<M>(s: State<M>, actions: seq<Action<M>>): seq<nat>
    requires Inv(s)
    decreases |actions|
  {
    if actions == [] then []
    else
      NextInv(s, actions[0]);
      Owning(s, actions[0]) + Owners(Next(s, actions[0]), actions[1..])
  }

  function Owning<M>(s: State<M>, action: Action<M>): seq<nat>
    requires Inv(s)
  {
    if action.Produce? && Next(s, action).places > s.places then [action.id] else []
  }

  predicate HasPlace<M>(p: Producer<M>) { p.Store? || p.Publish? }

  /** A thread with a place is its owner, and the place is claimed for its message. */
  ghost predicate OwnersOk<M>(s: State<M>, owners: seq<nat>) {
    && |owners| == |s.claimed| == s.places
    && forall id | 0 <= id < |s.producers| && HasPlace(s.producers[id]) ::
         var p := s.producers[id];
         p.at < s.places && s.claimed[p.at] == p.m && owners[p.at] == id
  }

  lemma NextOwners<M>(s: State<M>, action: Action<M>, owners: seq<nat>)
    requires Inv(s) && OwnersOk(s, owners)
    ensures OwnersOk(Next(s, action), owners + Owning(s, action))
    ensures |Next(s, action).producers| == |s.producers| && s.claimed <= Next(s, action).claimed
  {
    match action
    case Produce(id) => if id < |s.producers| && !s.failed { ProducerOwners(s, id, owners); }
    case _ => OtherOwners(s, action, owners);
  }

  lemma ProducerOwners<M>(s: State<M>, id: nat, owners: seq<nat>)
    requires Inv(s) && OwnersOk(s, owners) && id < |s.producers|
    ensures var t := NextProducer(s, id);
      && OwnersOk(t, owners + if t.places > s.places then [id] else [])
      && |t.producers| == |s.producers| && s.claimed <= t.claimed
  {
    hide Inv, Slot;
    assert HasPlace(s.producers[id]) ==> s.producers[id].at < s.places;
  }

  lemma OtherOwners<M>(s: State<M>, action: Action<M>, owners: seq<nat>)
    requires Inv(s) && OwnersOk(s, owners) && !action.Produce?
    ensures OwnersOk(Next(s, action), owners + Owning(s, action))
    ensures |Next(s, action).producers| == |s.producers| && s.claimed <= Next(s, action).claimed
  {
    hide Inv, Slot;
  }

  lemma KeepsMessage<M>(s: State<M>, action: Action<M>, id: nat)
    requires Inv(s) && id < |s.producers|
    ensures var t := Next(s, action);
            && id < |t.producers|
            && Hand(s.producers[id]) + Inserted(s, action, id) ==
               (if Answered(s, action, id) == [] then [] else [s.producers[id].m]) + Hand(t.producers[id])
  {
  }

  /** The next place that thread `id` can get or has not answered. */
  function Floor<M>(s: State<M>, id: nat): nat
    requires id < |s.producers|
  {
    if HasPlace(s.producers[id]) then s.producers[id].at else s.places
  }

  lemma FloorRises<M>(s: State<M>, action: Action<M>, owners: seq<nat>, id: nat)
    requires Inv(s) && OwnersOk(s, owners) && id < |s.producers|
    ensures id < |Next(s, action).producers|
    ensures Floor(s, id) <= Floor(Next(s, action), id)
    ensures var rs := Answered(s, action, id);
            rs != [] && rs[0].Accepted? ==> rs[0].at == Floor(s, id) < Floor(Next(s, action), id)
  {
  }

  function Messages<M>(rs: seq<Outcome<M>>): seq<M> {
    if rs == [] then [] else [rs[0].m] + Messages(rs[1..])
  }

  /** An accepted message has the place of its answer, and the place was given to thread `id`. */
  ghost predicate Delivered<M>(claimed: seq<M>, owners: seq<nat>, id: nat, r: Outcome<M>) {
    r.Accepted? ==> r.at < |claimed| && r.at < |owners| && claimed[r.at] == r.m && owners[r.at] == id
  }

  ghost predicate AllDelivered<M>(claimed: seq<M>, owners: seq<nat>, id: nat, rs: seq<Outcome<M>>) {
    forall k | 0 <= k < |rs| :: Delivered(claimed, owners, id, rs[k])
  }

  /** The places are from `floor` on and rise from answer to answer. */
  ghost predicate Rising<M>(floor: nat, rs: seq<Outcome<M>>)
    decreases |rs|
  {
    rs == [] ||
    (if rs[0].Accepted? then rs[0].at >= floor && Rising(rs[0].at + 1, rs[1..]) else Rising(floor, rs[1..]))
  }

  lemma {:induction false} RisingFrom<M>(low: nat, floor: nat, rs: seq<Outcome<M>>)
    requires Rising(floor, rs) && low <= floor
    ensures Rising(low, rs)
    decreases |rs|
  {
    if rs == [] || rs[0].Accepted? {
    } else {
      RisingFrom(low, floor, rs[1..]);
    }
  }

  lemma AnsweredDelivered<M>(s: State<M>, action: Action<M>, owners: seq<nat>, id: nat)
    requires Inv(s) && OwnersOk(s, owners) && id < |s.producers|
    ensures var rs := Answered(s, action, id);
            && |rs| <= 1
            && (rs != [] ==> !s.producers[id].Away? && rs[0].m == s.producers[id].m
                             && Delivered(s.claimed, owners, id, rs[0]))
  {
    hide Next, Inv;
  }

  lemma {:induction false} RunAnswers<M>(s: State<M>, actions: seq<Action<M>>, owners: seq<nat>, id: nat)
    requires Inv(s) && OwnersOk(s, owners) && id < |s.producers|
    ensures var t, rs := Run(s, actions), Outcomes(s, actions, id);
            && OwnersOk(t, owners + Owners(s, actions)) && s.claimed <= t.claimed
            && Hand(s.producers[id]) + Inserts(s, actions, id) == Messages(rs) + Hand(t.producers[id])
            && AllDelivered(t.claimed, owners + Owners(s, actions), id, rs) && Rising(Floor(s, id), rs)
    decreases |actions|
  {
    hide Inv, Next, Answered, Inserted, Owning, OwnersOk;
    if actions == [] {
      assert owners + Owners(s, actions) == owners;
    } else {
      hide AllDelivered, Rising, Delivered, Floor, Hand;
      NextInv(s, actions[0]);
      var m, rest, first := Next(s, actions[0]), actions[1..], Answered(s, actions[0], id);
      NextOwners(s, actions[0], owners);
      RunAnswers(m, rest, owners + Owning(s, actions[0]), id);
      KeepsMessage(s, actions[0], id);
      AnsweredDelivered(s, actions[0], owners, id);
      FloorRises(s, actions[0], owners, id);
      OwnersAppend(owners, Owning(s, actions[0]), Owners(m, rest));
      AnswersMore(first, Outcomes(m, rest, id), s.claimed, Run(m, rest).claimed, owners,
                  owners + Owners(s, actions), id, Floor(s, id), Floor(m, id));
      SameMessages(first, s.producers[id]);
      Chained(Hand(s.producers[id]), Inserted(s, actions[0], id), Messages(first),
              Hand(m.producers[id]), Inserts(m, rest, id), Messages(Outcomes(m, rest, id)),
              Hand(Run(m, rest).producers[id]));
    }
  }

  lemma SameMessages<M>(first: seq<Outcome<M>>, p: Producer<M>)
    requires |first| <= 1 && (first != [] ==> !p.Away? && first[0].m == p.m)
    ensures Messages(first) == if first == [] then [] else [p.m]
  {
    if first != [] { assert first[1..] == []; }
  }

  lemma OwnersAppend(first: seq<nat>, second: seq<nat>, third: seq<nat>)
    ensures first + second + third == first + (second + third) && first <= first + (second + third)
  {
  }

  lemma AnswersMore<M>(
      first: seq<Outcome<M>>, rest: seq<Outcome<M>>, before: seq<M>, after: seq<M>, owners: seq<nat>,
      later: seq<nat>, id: nat, low: nat, floor: nat)
    requires |first| <= 1 && before <= after && owners <= later && low <= floor
    requires AllDelivered(after, later, id, rest) && Rising(floor, rest)
    requires first != [] ==> Delivered(before, owners, id, first[0])
    requires first != [] && first[0].Accepted? ==> first[0].at == low < floor
    ensures AllDelivered(after, later, id, first + rest) && Rising(low, first + rest)
    ensures Messages(first + rest) == Messages(first) + Messages(rest)
  {
    if first == [] {
      assert first + rest == rest;
      RisingFrom(low, floor, rest);
    } else {
      assert (first + rest)[1..] == rest && first[1..] == [];
      RisingFrom(if first[0].Accepted? then low + 1 else low, floor, rest);
    }
  }

  /** In every run the k-th answer to a thread is to its k-th insert; an accepted message has got its own place,
      which the actor reads in turn, and nobody else was given that place. */
  lemma EveryInsertIsAnswered<M>(producers: nat, capacity: nat, actions: seq<Action<M>>, id: nat)
    requires id < producers
    ensures Inv(Init<M>(producers, capacity))
    ensures var s0 := Init(producers, capacity);
      var s, rs, owners := Run(s0, actions), Outcomes(s0, actions, id), Owners(s0, actions);
      && id < |s.producers| && |owners| == |s.claimed|
      && Inserts(s0, actions, id) == Messages(rs) + Hand(s.producers[id])
      && AllDelivered(s.claimed, owners, id, rs) && Rising(0, rs)
  {
    InitInv<M>(producers, capacity);
    var s := Init<M>(producers, capacity);
    RunAnswers(s, actions, [], id);
    assert [] + Owners(s, actions) == Owners(s, actions);
  }

  /** An insert is refused only if it saw the mailbox full or another thread came between its two accesses, and
      a removal finds nothing only if nothing was ready or another thread came between. */
  lemma RefusedForAReason<M>(s: State<M>, id: nat)
    requires Inv(s) && id < |s.producers| && !s.producers[id].Away?
    requires Answered(s, Produce(id), id) == [Refused(s.producers[id].m)]
    ensures s.reserved >= s.capacity || (s.producers[id].SwapReserved? && s.reserved != s.producers[id].seen)
  {
  }

  lemma EmptyForAReason<M>(s: State<M>)
    requires Inv(s) && Next(s, Consume).consumer.Idle? && !s.consumer.Idle?
    ensures || (s.consumer.GiveBack? && Next(s, Consume).received == s.received + [s.consumer.m])
            || s.ready <= 0 || (s.consumer.SwapReady? && s.ready != s.consumer.seen)
  {
  }

  /** How many steps an insert takes at most, and a removal. */
  function InsertLeft<M>(p: Producer<M>): nat {
    match p
    case Away => 0
    case LoadReserved(_) => 5
    case SwapReserved(_, _) => 4
    case TakePlace(_) => 3
    case Store(_, _) => 2
    case Publish(_, _) => 1
  }

  function RemoveLeft<M>(c: Consumer<M>): nat {
    match c
    case Idle => 0
    case LoadReady => 7
    case SwapReady(_) => 6
    case TakeStart => 5
    case Load(_) => 4
    case Clear(_, _) => 3
    case CheckResult(_) => 2
    case GiveBack(_) => 1
  }

  /** Nobody waits for anybody: every step of a call brings it nearer to its end. */
  lemma EveryStepCounts<M>(s: State<M>)
    requires Inv(s) && !s.failed
    ensures var t := Next(s, Consume);
      !s.consumer.Idle? ==> t.failed || RemoveLeft(t.consumer) < RemoveLeft(s.consumer)
    ensures forall id | 0 <= id < |s.producers| && !s.producers[id].Away? ::
      var t := Next(s, Produce(id));
      id < |t.producers| && InsertLeft(t.producers[id]) < InsertLeft(s.producers[id])
  {
  }
}
